/** Stable sorting of a list by an order, standing for the sort package. */
module Sorting {

  ghost predicate TotalPreorder<T(!new)>(le: (T, T) -> bool) {
    && (forall a, b :: le(a, b) || le(b, a))
    && (forall a, b, c :: le(a, b) && le(b, c) ==> le(a, c))
  }

  ghost predicate SortedBy<T>(le: (T, T) -> bool, xs: seq<T>) {
    forall i, j :: 0 <= i < j < |xs| ==> le(xs[i], xs[j])
  }

  function Insert<T>(le: (T, T) -> bool, x: T, xs: seq<T>): (r: seq<T>)
    ensures |r| == |xs| + 1
  {
    if xs == [] then [x]
    else if le(x, xs[0]) then [x] + xs
    else [xs[0]] + Insert(le, x, xs[1..])
  }

  function Sort<T>(le: (T, T) -> bool, xs: seq<T>): (r: seq<T>)
    ensures |r| == |xs|
  {
    if xs == [] then [] else Insert(le, xs[0], Sort(le, xs[1..]))
  }

  function Filter<T>(p: T -> bool, xs: seq<T>): (r: seq<T>)
    ensures |r| <= |xs|
  {
    if xs == [] then [] else if p(xs[0]) then [xs[0]] + Filter(p, xs[1..]) else Filter(p, xs[1..])
  }

  // ---------------------------------------------------------------- contents

  lemma {:induction false} InsertContents<T>(le: (T, T) -> bool, x: T, xs: seq<T>)
    ensures multiset(Insert(le, x, xs)) == multiset{x} + multiset(xs)
  {
    if xs != [] && !le(x, xs[0]) {
      InsertContents(le, x, xs[1..]);
      assert xs == [xs[0]] + xs[1..];
    }
  }

  lemma {:induction false} SortContents<T>(le: (T, T) -> bool, xs: seq<T>)
    ensures multiset(Sort(le, xs)) == multiset(xs)
    ensures forall x :: x in Sort(le, xs) <==> x in xs
  {
    if xs != [] {
      SortContents(le, xs[1..]);
      InsertContents(le, xs[0], Sort(le, xs[1..]));
      assert xs == [xs[0]] + xs[1..];
    }
    assert forall x :: x in Sort(le, xs) <==> x in multiset(Sort(le, xs));
  }

  lemma {:induction false} FilterContents<T>(p: T -> bool, xs: seq<T>)
    ensures forall x :: x in Filter(p, xs) <==> x in xs && p(x)
  {
    if xs != [] { FilterContents(p, xs[1..]); }
  }

  lemma {:induction false} FilterAgree<T>(p: T -> bool, q: T -> bool, xs: seq<T>)
    requires forall x :: x in xs ==> p(x) == q(x)
    ensures Filter(p, xs) == Filter(q, xs)
  {
    if xs != [] { FilterAgree(p, q, xs[1..]); }
  }

  lemma {:induction false} FilterAppend<T>(p: T -> bool, a: seq<T>, b: seq<T>)
    ensures Filter(p, a + b) == Filter(p, a) + Filter(p, b)
  {
    if a == [] {
      assert a + b == b;
    } else {
      assert (a + b)[1..] == a[1..] + b;
      FilterAppend(p, a[1..], b);
    }
  }

  // ------------------------------------------------------------------- order

  lemma {:induction false} InsertSorted<T(!new)>(le: (T, T) -> bool, x: T, xs: seq<T>)
    requires TotalPreorder(le) && SortedBy(le, xs)
    ensures SortedBy(le, Insert(le, x, xs))
  {
    if xs != [] && !le(x, xs[0]) {
      InsertSorted(le, x, xs[1..]);
      var rest := Insert(le, x, xs[1..]);
      InsertContents(le, x, xs[1..]);
      forall y | y in rest
        ensures le(xs[0], y)
      {
        assert y in multiset(rest);
        assert y == x || y in xs[1..];
      }
    }
  }

  lemma {:induction false} SortSorted<T(!new)>(le: (T, T) -> bool, xs: seq<T>)
    requires TotalPreorder(le)
    ensures SortedBy(le, Sort(le, xs))
  {
    if xs != [] {
      SortSorted(le, xs[1..]);
      InsertSorted(le, xs[0], Sort(le, xs[1..]));
    }
  }

  // --------------------------------------------------------------- stability

  /** A sorted list is left as it is. */
  lemma {:induction false} SortIdentity<T>(le: (T, T) -> bool, xs: seq<T>)
    requires SortedBy(le, xs)
    ensures Sort(le, xs) == xs
  {
    if xs != [] {
      SortIdentity(le, xs[1..]);
      if |xs| > 1 { assert le(xs[0], xs[1]); }
    }
  }

  lemma {:induction false} FilterInsert<T(!new)>(le: (T, T) -> bool, p: T -> bool, x: T, xs: seq<T>)
    requires TotalPreorder(le) && SortedBy(le, xs)
    ensures Filter(p, Insert(le, x, xs)) == if p(x) then Insert(le, x, Filter(p, xs)) else Filter(p, xs)
  {
    if xs == [] {
    } else if le(x, xs[0]) {
      assert ([x] + xs)[1..] == xs;
      FilterContents(p, xs);
      if p(x) { InsertBeforeAll(le, x, Filter(p, xs), xs); }
    } else {
      FilterInsert(le, p, x, xs[1..]);
      var r := Insert(le, x, xs[1..]);
      assert ([xs[0]] + r)[1..] == r;
      if p(xs[0]) { assert ([xs[0]] + Filter(p, xs[1..]))[1..] == Filter(p, xs[1..]); }
    }
  }

  lemma InsertBeforeAll<T(!new)>(le: (T, T) -> bool, x: T, ys: seq<T>, xs: seq<T>)
    requires TotalPreorder(le) && SortedBy(le, xs) && xs != [] && le(x, xs[0])
    requires forall y :: y in ys ==> y in xs
    ensures Insert(le, x, ys) == [x] + ys
  {
    if ys != [] {
      assert ys[0] in xs;
      var i :| 0 <= i < |xs| && xs[i] == ys[0];
      assert le(xs[0], xs[i]);
    }
  }

  /** Stability: sorting does not reorder any sublist more than sorting that
      sublist would. */
  lemma {:induction false} FilterSort<T(!new)>(le: (T, T) -> bool, p: T -> bool, xs: seq<T>)
    requires TotalPreorder(le)
    ensures Filter(p, Sort(le, xs)) == Sort(le, Filter(p, xs))
  {
    if xs != [] {
      FilterSort(le, p, xs[1..]);
      SortSorted(le, xs[1..]);
      FilterInsert(le, p, xs[0], Sort(le, xs[1..]));
      if p(xs[0]) { assert ([xs[0]] + Filter(p, xs[1..]))[1..] == Filter(p, xs[1..]); }
    }
  }

  ghost predicate Distinct<T>(xs: seq<T>) {
    forall i, j :: 0 <= i < j < |xs| ==> xs[i] != xs[j]
  }

  lemma {:induction false} DistinctIffOnce<T(!new)>(xs: seq<T>)
    ensures Distinct(xs) <==> forall x :: multiset(xs)[x] <= 1
  {
    if xs != [] {
      var rest := xs[1..];
      DistinctIffOnce(rest);
      assert xs == [xs[0]] + rest;
      if Distinct(xs) {
        assert xs[0] !in rest;
        assert Distinct(rest);
      } else if Distinct(rest) {
        assert xs[0] in rest;
        assert multiset(xs)[xs[0]] >= 2;
      } else {
        var x :| multiset(rest)[x] > 1;
        assert multiset(xs)[x] > 1;
      }
    }
  }

  /** Sorting keeps a list free of duplicates. */
  lemma SortDistinct<T(!new)>(le: (T, T) -> bool, xs: seq<T>)
    requires Distinct(xs)
    ensures Distinct(Sort(le, xs))
  {
    SortContents(le, xs);
    DistinctIffOnce(xs);
    DistinctIffOnce(Sort(le, xs));
  }
}
