/**
 * Python dictionaries keep their keys in first-insertion order, and assigning
 * to a key that is already present replaces its value in place. A `Dict` is
 * that structure: a sequence of key/value pairs in insertion order.
 */
module Dicts {
  import opened Wrappers

  type Dict<K, V> = seq<(K, V)>

  ghost predicate UniqueKeys<K, V>(d: Dict<K, V>) {
    forall i, j :: 0 <= i < j < |d| ==> d[i].0 != d[j].0
  }

  function Keys<K, V>(d: Dict<K, V>): (ks: seq<K>)
    ensures |ks| == |d|
    ensures forall i :: 0 <= i < |d| ==> ks[i] == d[i].0
  {
    if d == [] then [] else Keys(d[..|d| - 1]) + [d[|d| - 1].0]
  }

  /** Position of `k` in `d`, or -1 when `k` is not a key. */
  function Find<K(==), V>(d: Dict<K, V>, k: K): (r: int)
    ensures -1 <= r < |d|
    ensures r >= 0 ==> d[r].0 == k && forall j :: 0 <= j < r ==> d[j].0 != k
    ensures r == -1 <==> forall j :: 0 <= j < |d| ==> d[j].0 != k
  {
    if d == [] then -1
    else if d[0].0 == k then 0
    else var r := Find(d[1..], k); if r == -1 then -1 else r + 1
  }

  /** `d.get(k)` */
  function Get<K(==), V>(d: Dict<K, V>, k: K): Option<V> {
    var i := Find(d, k);
    if i == -1 then None else Some(d[i].1)
  }

  /** `d[k] = v` */
  function Put<K(==,!new), V>(d: Dict<K, V>, k: K, v: V): (r: Dict<K, V>)
    ensures Get(r, k) == Some(v)
    ensures forall k' :: k' != k ==> Get(r, k') == Get(d, k')
  {
    var i := Find(d, k);
    var r := if i == -1 then d + [(k, v)] else d[i := (k, v)];
    FindPut(d, k, v, i, r);
    forall k' | k' != k ensures Find(r, k') == Find(d, k') {
      FindPutOther(d, k, v, i, r, k');
    }
    r
  }

  /** A new key goes to the end of the key order; an existing key keeps its place; keys stay distinct. */
  lemma PutKeys<K(!new), V>(d: Dict<K, V>, k: K, v: V)
    ensures Find(d, k) == -1 ==> Keys(Put(d, k, v)) == Keys(d) + [k]
    ensures Find(d, k) != -1 ==> Keys(Put(d, k, v)) == Keys(d)
    ensures UniqueKeys(d) ==> UniqueKeys(Put(d, k, v))
  {
    var i := Find(d, k);
    var r := Put(d, k, v);
    if i == -1 {
      assert r == d + [(k, v)];
      assert Keys(r) == Keys(d) + [k];
    } else {
      assert r == d[i := (k, v)];
      assert forall j :: 0 <= j < |d| ==> r[j].0 == d[j].0;
      assert Keys(r) == Keys(d);
    }
  }

  /** Assigning to a key that is absent appends the pair. */
  lemma PutNew<K(!new), V>(d: Dict<K, V>, k: K, v: V)
    requires Find(d, k) == -1
    ensures Put(d, k, v) == d + [(k, v)]
  {
  }

  /** Every pair after an assignment is the assigned one or was there before. */
  lemma PutPairs<K(!new), V>(d: Dict<K, V>, k: K, v: V)
    ensures forall p :: p in Put(d, k, v) ==> p == (k, v) || p in d
  {
    var i := Find(d, k);
    var r := Put(d, k, v);
    forall p | p in r ensures p == (k, v) || p in d {
      var j :| 0 <= j < |r| && r[j] == p;
      if i == -1 {
        assert r == d + [(k, v)];
        if j < |d| {
          assert d[j] == p;
        }
      } else {
        assert r == d[i := (k, v)];
        if j != i {
          assert d[j] == p;
        }
      }
    }
  }

  lemma FindPut<K, V>(d: Dict<K, V>, k: K, v: V, i: int, r: Dict<K, V>)
    requires i == Find(d, k)
    requires r == if i == -1 then d + [(k, v)] else d[i := (k, v)]
    ensures Find(r, k) == if i == -1 then |d| else i
  {
    var p := if i == -1 then |d| else i;
    assert r[p].0 == k;
    assert forall j :: 0 <= j < p ==> r[j] == d[j];
  }

  lemma FindPutOther<K, V>(d: Dict<K, V>, k: K, v: V, i: int, r: Dict<K, V>, k': K)
    requires i == Find(d, k) && k' != k
    requires r == if i == -1 then d + [(k, v)] else d[i := (k, v)]
    ensures Find(r, k') == Find(d, k')
  {
    var fd := Find(d, k');
    assert forall j :: 0 <= j < |d| && j != i ==> r[j] == d[j];
    if fd != -1 {
      assert r[fd].0 == k';
    } else {
      assert forall j :: 0 <= j < |r| ==> r[j].0 != k';
    }
  }

  lemma GetSomeAt<K, V>(d: Dict<K, V>, i: nat)
    requires i < |d| && UniqueKeys(d)
    ensures Get(d, d[i].0) == Some(d[i].1)
  {
  }
}
