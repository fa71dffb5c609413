/** Facts about sequences that the prefix-recursive definitions of the model rely on. */
module Seqs {

  /** A property holds of every element exactly when it holds of every element but the last, and of the last. */
  lemma AllSnoc<T>(s: seq<T>, init: seq<T>, P: T -> bool)
    requires s != [] && init == s[..|s| - 1]
    ensures (forall i :: 0 <= i < |s| ==> P(s[i])) <==> (forall i :: 0 <= i < |init| ==> P(init[i])) && P(s[|s| - 1])
  {
    assert forall i :: 0 <= i < |init| ==> init[i] == s[i];
  }

  /** A property holds below `n` exactly when it holds below `n - 1` and at `n - 1`. */
  lemma AllBelow(n: int, P: int -> bool)
    requires n > 0
    ensures (forall t :: 0 <= t < n ==> P(t)) <==> (forall t :: 0 <= t < n - 1 ==> P(t)) && P(n - 1)
  {
  }

  /** Appending the image of the last element keeps a pointwise image of the whole sequence. */
  lemma MapSnoc<T, U>(s: seq<T>, init: seq<T>, d: seq<U>, F: T -> U)
    requires s != [] && init == s[..|s| - 1]
    requires |d| == |init| && forall i :: 0 <= i < |init| ==> d[i] == F(init[i])
    ensures var d' := d + [F(s[|s| - 1])];
      |d'| == |s| && forall i :: 0 <= i < |s| ==> d'[i] == F(s[i])
  {
    var d' := d + [F(s[|s| - 1])];
    forall i | 0 <= i < |s| ensures d'[i] == F(s[i]) {
      if i < |init| {
        assert d'[i] == d[i] && init[i] == s[i];
      }
    }
  }

  /** Appending a partner for the last element keeps two sequences related index by index. */
  lemma ZipSnoc<T, U>(s: seq<T>, init: seq<T>, d: seq<U>, u: U, R: (T, U) -> bool)
    requires s != [] && init == s[..|s| - 1]
    requires |d| == |init| && forall i :: 0 <= i < |init| ==> R(init[i], d[i])
    requires R(s[|s| - 1], u)
    ensures |d + [u]| == |s| && forall i :: 0 <= i < |s| ==> R(s[i], (d + [u])[i])
  {
    forall i | 0 <= i < |s| ensures R(s[i], (d + [u])[i]) {
      if i < |init| {
        assert (d + [u])[i] == d[i] && init[i] == s[i];
      }
    }
  }

  lemma AppendNil<T>(a: seq<T>)
    ensures a + [] == a
  {
  }
}
