/**
 * The few Python string operations the core relies on: `str.split` with a
 * one-character separator, `str.join`, `str.strip`, `str.replace(c, '')`,
 * `str(n)` for naturals and the ordering Python uses to sort strings.
 */
module Strings {

  /** `s.split(c)`: always at least one piece, and no piece contains `c`. */
  function Split(s: string, c: char): (r: seq<string>)
    ensures |r| >= 1
    decreases |s|
  {
    if s == [] then [[]]
    else if s[0] == c then [[]] + Split(s[1..], c)
    else var rest := Split(s[1..], c); [[s[0]] + rest[0]] + rest[1..]
  }

  /** `c.join(ps)` */
  function Join(ps: seq<string>, c: char): string
  {
    if ps == [] then []
    else if |ps| == 1 then ps[0]
    else ps[0] + [c] + Join(ps[1..], c)
  }

  lemma {:induction false} SplitPiecesFree(s: string, c: char)
    ensures forall i :: 0 <= i < |Split(s, c)| ==> c !in Split(s, c)[i]
    decreases |s|
  {
    if s != [] {
      SplitPiecesFree(s[1..], c);
    }
  }

  /** Joining the pieces of a split gives back the original string. */
  lemma {:induction false} JoinSplit(s: string, c: char)
    ensures Join(Split(s, c), c) == s
    decreases |s|
  {
    if s != [] {
      JoinSplit(s[1..], c);
      var rest := Split(s[1..], c);
      if s[0] == c {
        assert Split(s, c) == [[]] + rest;
        assert ([[]] + rest)[1..] == rest;
      } else {
        var r := Split(s, c);
        assert r == [[s[0]] + rest[0]] + rest[1..];
        if |rest| == 1 {
          assert Join(r, c) == [s[0]] + rest[0];
        } else {
          assert r[1..] == rest[1..];
          assert Join(rest, c) == rest[0] + [c] + Join(rest[1..], c);
        }
      }
    }
  }

  /** Splitting a join of separator-free pieces gives back the pieces. */
  lemma {:induction false} SplitJoin(ps: seq<string>, c: char)
    requires |ps| >= 1
    requires forall i :: 0 <= i < |ps| ==> c !in ps[i]
    ensures Split(Join(ps, c), c) == ps
    decreases |ps|, |ps[0]|
  {
    if |ps| == 1 {
      SplitFree(ps[0], c);
    } else if ps[0] == [] {
      assert Join(ps, c) == [c] + Join(ps[1..], c);
      SplitJoin(ps[1..], c);
      assert ([c] + Join(ps[1..], c))[1..] == Join(ps[1..], c);
    } else {
      var ps' := [ps[0][1..]] + ps[1..];
      assert ps'[1..] == ps[1..];
      SplitJoin(ps', c);
      var j := Join(ps, c);
      assert j == [ps[0][0]] + Join(ps', c);
      assert j[0] == ps[0][0] && j[0] != c;
      assert j[1..] == Join(ps', c);
      assert Split(j, c) == [[ps[0][0]] + ps'[0]] + ps'[1..];
      assert [ps[0][0]] + ps'[0] == ps[0];
      assert ps == [ps[0]] + ps[1..];
    }
  }

  lemma {:induction false} SplitFree(s: string, c: char)
    requires c !in s
    ensures Split(s, c) == [s]
    decreases |s|
  {
    if s != [] {
      SplitFree(s[1..], c);
      assert s == [s[0]] + s[1..];
    }
  }

  /** Every character of a piece of a split comes from the split string. */
  lemma {:induction false} SplitPiecesFrom(s: string, c: char)
    ensures forall i, x :: 0 <= i < |Split(s, c)| && x in Split(s, c)[i] ==> x in s
    decreases |s|
  {
    if s != [] {
      SplitPiecesFrom(s[1..], c);
      assert forall x :: x in s[1..] ==> x in s;
    }
  }

  /** The first piece of a split ends at the first separator. */
  lemma {:induction false} SplitHead(s: string, t: string, c: char)
    requires c !in s
    ensures Split(s + [c] + t, c)[0] == s
    decreases |s|
  {
    var u := s + [c] + t;
    if s == [] {
      assert u[0] == c && u[1..] == t;
    } else {
      assert u[0] == s[0] && u[1..] == s[1..] + [c] + t;
      SplitHead(s[1..], t, c);
      assert s == [s[0]] + s[1..];
    }
  }

  /** `s.replace(c, '')` */
  function Remove(s: string, c: char): (r: string)
    ensures c !in r
    ensures forall x :: x != c ==> (x in r <==> x in s)
  {
    if s == [] then [] else (if s[0] == c then [] else [s[0]]) + Remove(s[1..], c)
  }

  /** `s.lstrip(cs)`: the suffix left after dropping the leading characters in `cs`. */
  function StripLeft(s: string, cs: set<char>): (r: string)
    ensures r == [] || r[0] !in cs
    ensures |r| <= |s|
  {
    if s != [] && s[0] in cs then StripLeft(s[1..], cs) else s
  }

  /** `s.rstrip(cs)`: the prefix left after dropping the trailing characters in `cs`. */
  function StripRight(s: string, cs: set<char>): (r: string)
    ensures r == [] || r[|r| - 1] !in cs
    ensures |r| <= |s|
  {
    if s != [] && s[|s| - 1] in cs then StripRight(s[..|s| - 1], cs) else s
  }

  /** `s.strip(chars)` */
  function Strip(s: string, cs: set<char>): string {
    StripRight(StripLeft(s, cs), cs)
  }

  /** Only leading characters in `cs` are dropped: what is left is a suffix, and every dropped character is in `cs`. */
  lemma {:induction false} StripLeftSuffix(s: string, cs: set<char>)
    ensures StripLeft(s, cs) == s[|s| - |StripLeft(s, cs)|..]
    ensures forall i :: 0 <= i < |s| - |StripLeft(s, cs)| ==> s[i] in cs
    decreases |s|
  {
    if s != [] && s[0] in cs {
      StripLeftSuffix(s[1..], cs);
      assert s[1..][|s| - 1 - |StripLeft(s, cs)|..] == s[|s| - |StripLeft(s, cs)|..];
    }
  }

  /** Only trailing characters in `cs` are dropped: what is left is a prefix, and every dropped character is in `cs`. */
  lemma {:induction false} StripRightPrefix(s: string, cs: set<char>)
    ensures StripRight(s, cs) == s[..|StripRight(s, cs)|]
    ensures forall i :: |StripRight(s, cs)| <= i < |s| ==> s[i] in cs
    decreases |s|
  {
    if s != [] && s[|s| - 1] in cs {
      StripRightPrefix(s[..|s| - 1], cs);
      assert s[..|s| - 1][..|StripRight(s, cs)|] == s[..|StripRight(s, cs)|];
    }
  }

  /** A string made only of stripped characters strips to the empty string. */
  lemma {:induction false} StripOnly(s: string, cs: set<char>)
    requires forall i :: 0 <= i < |s| ==> s[i] in cs
    ensures Strip(s, cs) == []
    decreases |s|
  {
    if s != [] {
      StripOnly(s[1..], cs);
      assert StripLeft(s, cs) == StripLeft(s[1..], cs);
    }
  }

  /** A string with none of the stripped characters is left as it is. */
  lemma {:induction false} StripNone(s: string, cs: set<char>)
    requires forall x :: x in s ==> x !in cs
    ensures Strip(s, cs) == s
  {
    assert StripLeft(s, cs) == s by {
      if s != [] {
        assert s[0] in s;
      }
    }
    if s != [] {
      assert s[|s| - 1] in s;
    }
  }

  function DigitChar(d: nat): (c: char)
    requires d < 10
    ensures c as int - '0' as int == d
  {
    ('0' as int + d) as char
  }

  /** `str(n)` for a natural number. */
  function NatToString(n: nat): (r: string)
    ensures |r| >= 1
    ensures forall i :: 0 <= i < |r| ==> '0' <= r[i] <= '9'
  {
    if n < 10 then [DigitChar(n)] else NatToString(n / 10) + [DigitChar(n % 10)]
  }

  /** The value of a non-empty string of decimal digits. */
  function DigitsValue(s: string): int
  {
    if s == [] then 0 else DigitsValue(s[..|s| - 1]) * 10 + (s[|s| - 1] as int - '0' as int)
  }

  lemma {:induction false} NatToStringValue(n: nat)
    ensures DigitsValue(NatToString(n)) == n
  {
    if n >= 10 {
      var q, d := n / 10, n % 10;
      NatToStringValue(q);
      var r := NatToString(n);
      assert r == NatToString(q) + [DigitChar(d)];
      assert r[..|r| - 1] == NatToString(q);
      assert DigitsValue(r) == DigitsValue(NatToString(q)) * 10 + d;
    }
  }

  /** Python's `<` on strings: by code point at the first difference, or proper prefix. */
  predicate LexLess(a: string, b: string)
  {
    if a == [] then b != []
    else if b == [] then false
    else if a[0] != b[0] then a[0] < b[0]
    else LexLess(a[1..], b[1..])
  }

  lemma {:induction false} LexIrreflexive(a: string)
    ensures !LexLess(a, a)
  {
    if a != [] { LexIrreflexive(a[1..]); }
  }

  lemma {:induction false} LexTransitive(a: string, b: string, c: string)
    requires LexLess(a, b) && LexLess(b, c)
    ensures LexLess(a, c)
  {
    if a != [] && b != [] && c != [] && a[0] == b[0] && b[0] == c[0] {
      LexTransitive(a[1..], b[1..], c[1..]);
    }
  }

  lemma {:induction false} LexTotal(a: string, b: string)
    requires a != b
    ensures LexLess(a, b) || LexLess(b, a)
  {
    if a != [] && b != [] && a[0] == b[0] {
      assert a == [a[0]] + a[1..] && b == [b[0]] + b[1..];
      LexTotal(a[1..], b[1..]);
    }
  }

  /** Strictly increasing in Python's string order (hence also duplicate-free). */
  ghost predicate StrictlySorted(s: seq<string>) {
    forall i, j :: 0 <= i < j < |s| ==> LexLess(s[i], s[j])
  }

  /** Inserts `x` at its place in a strictly sorted list that does not hold it. */
  function InsertSorted(s: seq<string>, x: string): (r: seq<string>)
    requires StrictlySorted(s) && x !in s
    ensures StrictlySorted(r)
    ensures multiset(r) == multiset(s) + multiset{x}
  {
    if s == [] then [x]
    else if LexLess(x, s[0]) then
      InsertFront(s, x);
      [x] + s
    else
      var t := InsertSorted(s[1..], x);
      InsertAfterHead(s, x, t);
      [s[0]] + t
  }

  lemma InsertFront(s: seq<string>, x: string)
    requires StrictlySorted(s) && s != [] && LexLess(x, s[0])
    ensures StrictlySorted([x] + s)
  {
    forall j | 0 <= j < |s| ensures LexLess(x, s[j]) {
      if j > 0 { LexTransitive(x, s[0], s[j]); }
    }
  }

  lemma InsertAfterHead(s: seq<string>, x: string, t: seq<string>)
    requires StrictlySorted(s) && s != [] && x !in s && !LexLess(x, s[0])
    requires StrictlySorted(t) && multiset(t) == multiset(s[1..]) + multiset{x}
    ensures StrictlySorted([s[0]] + t)
    ensures multiset([s[0]] + t) == multiset(s) + multiset{x}
  {
    assert s == [s[0]] + s[1..];
    assert x != s[0] by { assert s[0] in s; }
    LexTotal(x, s[0]);
    forall j | 0 <= j < |t| ensures LexLess(s[0], t[j]) {
      assert t[j] in multiset(t);
      if t[j] != x {
        var k :| 0 <= k < |s[1..]| && s[1..][k] == t[j];
        assert s[k + 1] == t[j];
      }
    }
  }
}
