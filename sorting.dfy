/** Python's ordering of strings (lexicographic by code point) and
    `sorted(set_of_strings)`. */
module Sorting {

  /** `a < b` on Python strings. */
  predicate LexLess(a: string, b: string)
    decreases |a|
  {
    |b| > 0 && (|a| == 0 || a[0] < b[0] || (a[0] == b[0] && LexLess(a[1..], b[1..])))
  }

  lemma {:induction false} LexLessIrreflexive(a: string)
    ensures !LexLess(a, a)
    decreases |a|
  {
    if |a| > 0 {
      LexLessIrreflexive(a[1..]);
    }
  }

  lemma {:induction false} LexLessTransitive(a: string, b: string, c: string)
    requires LexLess(a, b) && LexLess(b, c)
    ensures LexLess(a, c)
    decreases |a|
  {
    if |a| > 0 && a[0] == b[0] && b[0] == c[0] {
      LexLessTransitive(a[1..], b[1..], c[1..]);
    }
  }

  lemma {:induction false} LexLessTotal(a: string, b: string)
    requires a != b
    ensures LexLess(a, b) || LexLess(b, a)
    decreases |a|
  {
    if |a| > 0 && |b| > 0 && a[0] == b[0] {
      assert a == [a[0]] + a[1..] && b == [b[0]] + b[1..];
      LexLessTotal(a[1..], b[1..]);
    }
  }

  /** Python's string order is a strict total order. */
  lemma LexLessIsStrictTotalOrder()
    ensures forall a :: !LexLess(a, a)
    ensures forall a, b, c :: LexLess(a, b) && LexLess(b, c) ==> LexLess(a, c)
    ensures forall a, b :: a != b ==> LexLess(a, b) || LexLess(b, a)
  {
    forall a ensures !LexLess(a, a) {
      LexLessIrreflexive(a);
    }
    forall a, b, c | LexLess(a, b) && LexLess(b, c) ensures LexLess(a, c) {
      LexLessTransitive(a, b, c);
    }
    forall a, b | a != b ensures LexLess(a, b) || LexLess(b, a) {
      LexLessTotal(a, b);
    }
  }

  /** Ascending with no repeated element. */
  predicate StrictlySorted(xs: seq<string>) {
    forall i, j :: 0 <= i < j < |xs| ==> LexLess(xs[i], xs[j])
  }

  /** A strictly sorted list holds each element once. */
  lemma StrictlySortedHasNoDuplicates(xs: seq<string>)
    requires StrictlySorted(xs)
    ensures forall i, j :: 0 <= i < j < |xs| ==> xs[i] != xs[j]
  {
    LexLessIsStrictTotalOrder();
  }

  /** `xs` with `x` added in its place, unless it is already there. */
  function InsertSorted(xs: seq<string>, x: string): (r: seq<string>)
    requires StrictlySorted(xs)
    ensures StrictlySorted(r)
    ensures forall y :: y in r <==> y in xs || y == x
    decreases |xs|
  {
    LexLessIsStrictTotalOrder();
    if |xs| == 0 then [x]
    else if x == xs[0] then xs
    else if LexLess(x, xs[0]) then [x] + xs
    else
      var rest := InsertSorted(xs[1..], x);
      assert forall y :: y in xs[1..] ==> LexLess(xs[0], y);
      assert forall k :: 0 <= k < |rest| ==> LexLess(xs[0], rest[k]);
      [xs[0]] + rest
  }

  /** `sorted(s)` for a set of strings: the elements of `s`, each once, in
      ascending order. */
  method SortedSet(s: set<string>) returns (r: seq<string>)
    ensures StrictlySorted(r)
    ensures forall y :: y in r <==> y in s
    ensures |r| == |s|
  {
    r := [];
    var rest := s;
    while rest != {}
      invariant StrictlySorted(r)
      invariant rest <= s
      invariant forall y :: y in r <==> y in s && y !in rest
      decreases |rest|
    {
      var x :| x in rest;
      r := InsertSorted(r, x);
      rest := rest - {x};
    }
    StrictlySortedCardinality(r);
    assert (set y | y in r) == s;
  }

  /** A strictly sorted list is as long as the set of its elements. */
  lemma {:induction false} StrictlySortedCardinality(xs: seq<string>)
    requires StrictlySorted(xs)
    ensures |set y | y in xs| == |xs|
    decreases |xs|
  {
    if |xs| > 0 {
      var tail := xs[1..];
      StrictlySortedCardinality(tail);
      LexLessIsStrictTotalOrder();
      assert xs[0] !in tail;
      assert (set y | y in xs) == (set y | y in tail) + {xs[0]};
    }
  }

  /** The sorted list of a set is unique: two strictly sorted lists with the
      same elements are equal. */
  lemma {:induction false} StrictlySortedUnique(xs: seq<string>, ys: seq<string>)
    requires StrictlySorted(xs) && StrictlySorted(ys)
    requires forall y :: y in xs <==> y in ys
    ensures xs == ys
    decreases |xs|
  {
    LexLessIsStrictTotalOrder();
    if |xs| > 0 {
      assert xs[0] in ys;
    }
    if |ys| > 0 {
      assert ys[0] in xs;
    }
    if |xs| > 0 && |ys| > 0 {
      assert xs[0] in ys && ys[0] in xs;
      assert xs[0] == ys[0];
      forall y ensures y in xs[1..] <==> y in ys[1..] {
        if y in xs[1..] {
          var i :| 0 <= i < |xs| - 1 && xs[1..][i] == y;
          assert LexLess(xs[0], xs[i + 1]);
          assert y in xs && y in ys;
          var j :| 0 <= j < |ys| && ys[j] == y;
          assert j > 0 && ys[1..][j - 1] == y;
        }
        if y in ys[1..] {
          var i :| 0 <= i < |ys| - 1 && ys[1..][i] == y;
          assert LexLess(ys[0], ys[i + 1]);
          assert y in ys && y in xs;
          var j :| 0 <= j < |xs| && xs[j] == y;
          assert j > 0 && xs[1..][j - 1] == y;
        }
      }
      StrictlySortedUnique(xs[1..], ys[1..]);
      assert xs == [xs[0]] + xs[1..] && ys == [ys[0]] + ys[1..];
    }
  }
}
