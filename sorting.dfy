/**
 * Python's `sorted()` applied to a set of keys: the section indices (integers)
 * and the distinct company names (strings, in code-point lexicographic order).
 */
module Sorting {

  // ---------------------------------------------------------------- integers

  predicate Increasing(r: seq<int>) {
    forall i, j :: 0 <= i < j < |r| ==> r[i] < r[j]
  }

  predicate IsMinimum(m: int, s: set<int>) {
    m in s && forall x :: x in s ==> m <= x
  }

  lemma HasElement(s: set<int>)
    requires s != {}
    ensures exists y :: y in s
  {
    assert (forall y :: y !in s) ==> s == {};
  }

  lemma {:induction false} MinimumExists(s: set<int>)
    requires s != {}
    ensures exists m :: IsMinimum(m, s)
    decreases |s|
  {
    HasElement(s);
    var y :| y in s;
    if s == {y} {
      assert IsMinimum(y, s);
    } else {
      var rest := s - {y};
      MinimumExists(rest);
      var m :| IsMinimum(m, rest);
      var least := if y < m then y else m;
      forall x | x in s ensures least <= x {
        if x != y { assert x in rest; }
      }
      assert IsMinimum(least, s);
    }
  }

  /** `sorted(s)` for a set of integers: its elements, each once, in ascending order. */
  function SortInts(s: set<int>): (r: seq<int>)
    ensures |r| == |s|
    ensures Increasing(r)
    ensures forall x :: x in r <==> x in s
    decreases |s|
  {
    if s == {} then []
    else
      MinimumExists(s);
      var m :| IsMinimum(m, s);
      var rest := SortInts(s - {m});
      assert forall j :: 0 <= j < |rest| ==> rest[j] in s - {m};
      [m] + rest
  }

  // ---------------------------------------------------------------- strings

  /** Python's `a < b` on `str`: lexicographic by code point, a proper prefix first. */
  predicate StrLess(a: string, b: string)
    decreases |a|
  {
    |b| > 0 && (|a| == 0 || a[0] < b[0] || (a[0] == b[0] && StrLess(a[1..], b[1..])))
  }

  lemma {:induction false} StrLessIrreflexive(a: string)
    ensures !StrLess(a, a)
    decreases |a|
  {
    if |a| > 0 {
      StrLessIrreflexive(a[1..]);
    }
  }

  lemma {:induction false} StrLessTransitive(a: string, b: string, c: string)
    requires StrLess(a, b) && StrLess(b, c)
    ensures StrLess(a, c)
    decreases |a|
  {
    if |a| > 0 && a[0] == b[0] && b[0] == c[0] {
      StrLessTransitive(a[1..], b[1..], c[1..]);
    }
  }

  lemma {:induction false} StrLessTotal(a: string, b: string)
    ensures a == b || StrLess(a, b) || StrLess(b, a)
    decreases |a|
  {
    if |a| > 0 && |b| > 0 && a[0] == b[0] {
      StrLessTotal(a[1..], b[1..]);
      if a[1..] == b[1..] {
        assert a == [a[0]] + a[1..] && b == [b[0]] + b[1..];
      }
    }
  }

  lemma StrLessAsymmetric(a: string, b: string)
    requires StrLess(a, b)
    ensures !StrLess(b, a)
  {
    if StrLess(b, a) {
      StrLessTransitive(a, b, a);
      StrLessIrreflexive(a);
    }
  }

  predicate StrictlySorted(r: seq<string>) {
    forall i, j :: 0 <= i < j < |r| ==> StrLess(r[i], r[j])
  }

  predicate IsLeast(m: string, s: set<string>) {
    m in s && forall x :: x in s && x != m ==> StrLess(m, x)
  }

  lemma {:induction false} LeastExists(s: set<string>)
    requires s != {}
    ensures exists m :: IsLeast(m, s)
    decreases |s|
  {
    var y :| y in s;
    if s == {y} {
      assert IsLeast(y, s);
    } else {
      LeastExists(s - {y});
      var m :| IsLeast(m, s - {y});
      StrLessTotal(y, m);
      if StrLess(y, m) {
        forall x | x in s && x != y ensures StrLess(y, x) {
          if x != m {
            StrLessTransitive(y, m, x);
          }
        }
        assert IsLeast(y, s);
      } else {
        assert IsLeast(m, s);
      }
    }
  }

  lemma LeastUnique(s: set<string>)
    ensures forall m1, m2 :: IsLeast(m1, s) && IsLeast(m2, s) ==> m1 == m2
  {
    forall m1, m2 | IsLeast(m1, s) && IsLeast(m2, s) ensures m1 == m2 {
      if m1 != m2 {
        StrLessAsymmetric(m1, m2);
      }
    }
  }

  /** `sorted(s)` for a set of strings: its elements, each once, in ascending order. */
  function SortStrings(s: set<string>): (r: seq<string>)
    ensures |r| == |s|
    ensures StrictlySorted(r)
    ensures forall x :: x in r <==> x in s
    decreases |s|
  {
    if s == {} then []
    else
      LeastExists(s);
      LeastUnique(s);
      var m :| IsLeast(m, s);
      var rest := SortStrings(s - {m});
      assert forall j :: 0 <= j < |rest| ==> rest[j] in s - {m};
      [m] + rest
  }

  /** A strictly sorted sequence holds no element twice. */
  lemma StrictlySortedDistinct(r: seq<string>)
    requires StrictlySorted(r)
    ensures forall i, j :: 0 <= i < |r| && 0 <= j < |r| && i != j ==> r[i] != r[j]
  {
    forall i, j | 0 <= i < |r| && 0 <= j < |r| && i != j ensures r[i] != r[j] {
      if i < j { StrLessIrreflexive(r[i]); } else { StrLessIrreflexive(r[j]); }
    }
  }
}
