/**
 * Helpers shared by the number exercises: arithmetic sequences, the numeric order
 * `sort((a, b) => a - b)` and `sort((a, b) => b - a)` produce, and distinctness.
 */
module Drill {

  /** `Array.from({ length: n }, (_, i) => start + i * step)`. */
  function Stepped(start: int, step: int, n: nat): (r: seq<int>)
    ensures |r| == n
    ensures forall i :: 0 <= i < n ==> r[i] == start + i * step
  {
    if n == 0 then [] else Stepped(start, step, n - 1) + [start + (n - 1) * step]
  }

  predicate Distinct<T(==)>(s: seq<T>)
  {
    forall i, j :: 0 <= i < j < |s| ==> s[i] != s[j]
  }

  /** `a` may come before `b`: not larger when ascending, not smaller when descending. */
  predicate InOrder(a: int, b: int, descending: bool)
  {
    if descending then a >= b else a <= b
  }

  predicate Ordered(s: seq<int>, descending: bool)
  {
    forall i, j :: 0 <= i < j < |s| ==> InOrder(s[i], s[j], descending)
  }

  function Insert(x: int, s: seq<int>, descending: bool): (r: seq<int>)
    requires Ordered(s, descending)
    ensures Ordered(r, descending)
    ensures |r| == |s| + 1
    ensures multiset(r) == multiset(s) + multiset{x}
  {
    if s == [] || InOrder(x, s[0], descending) then [x] + s
    else
      var rest := Insert(x, s[1..], descending);
      assert s == [s[0]] + s[1..];
      HeadBeforeRest(x, s, rest, descending);
      [s[0]] + rest
  }

  /** Where `x` goes after the head, the head may still come before everything inserted after it. */
  lemma HeadBeforeRest(x: int, s: seq<int>, rest: seq<int>, descending: bool)
    requires Ordered(s, descending) && s != [] && !InOrder(x, s[0], descending)
    requires multiset(rest) == multiset(s[1..]) + multiset{x}
    ensures forall k :: 0 <= k < |rest| ==> InOrder(s[0], rest[k], descending)
  {
    forall k | 0 <= k < |rest|
      ensures InOrder(s[0], rest[k], descending)
    {
      assert rest[k] in multiset(rest);
      if rest[k] != x {
        assert rest[k] in s[1..];
        HeadFirst(s, rest[k], descending);
      }
    }
  }

  /** The numeric sort: the same numbers, in order. */
  function Sort(s: seq<int>, descending: bool): (r: seq<int>)
    ensures Ordered(r, descending)
    ensures multiset(r) == multiset(s)
    ensures |r| == |s|
  {
    if s == [] then []
    else
      assert s == [s[0]] + s[1..];
      Insert(s[0], Sort(s[1..], descending), descending)
  }

  /** The first element of an ordered list may come before any of its elements. */
  lemma HeadFirst(s: seq<int>, x: int, descending: bool)
    requires Ordered(s, descending) && x in s
    ensures InOrder(s[0], x, descending)
  {
    var k :| 0 <= k < |s| && s[k] == x;
  }

  /** Two ordered arrangements of the same numbers are the same sequence. */
  lemma {:induction false} OrderedUnique(a: seq<int>, b: seq<int>, descending: bool)
    requires Ordered(a, descending) && Ordered(b, descending)
    requires multiset(a) == multiset(b)
    ensures a == b
  {
    if a != [] {
      HeadsEqual(a, b, descending);
      TailsSame(a, b);
      OrderedTail(a, descending);
      OrderedTail(b, descending);
      OrderedUnique(a[1..], b[1..], descending);
      assert a == [a[0]] + a[1..] && b == [b[0]] + b[1..];
    } else {
      assert |multiset(b)| == 0;
    }
  }

  /** Ordered arrangements of the same numbers start with the same number. */
  lemma HeadsEqual(a: seq<int>, b: seq<int>, descending: bool)
    requires Ordered(a, descending) && Ordered(b, descending)
    requires multiset(a) == multiset(b) && a != []
    ensures b != [] && a[0] == b[0]
  {
    assert a[0] in multiset(b);
    assert b != [] && b[0] in multiset(a);
    HeadFirst(a, b[0], descending);
    HeadFirst(b, a[0], descending);
  }

  lemma TailsSame(a: seq<int>, b: seq<int>)
    requires multiset(a) == multiset(b) && a != [] && b != [] && a[0] == b[0]
    ensures multiset(a[1..]) == multiset(b[1..])
  {
    assert a == [a[0]] + a[1..] && b == [b[0]] + b[1..];
    calc {
      multiset(a[1..]);
      multiset(a) - multiset{a[0]};
      multiset(b) - multiset{b[0]};
      multiset(b[1..]);
    }
  }

  lemma OrderedTail(s: seq<int>, descending: bool)
    requires Ordered(s, descending) && s != []
    ensures Ordered(s[1..], descending)
  {
  }

  /** A list equals its own sort exactly when it is already in order. */
  lemma SortedIffOrdered(s: seq<int>, descending: bool)
    ensures Sort(s, descending) == s <==> Ordered(s, descending)
  {
    if Ordered(s, descending) {
      OrderedUnique(Sort(s, descending), s, descending);
    }
  }

  /** A distinct sequence holds each value at most once. */
  lemma {:induction false} DistinctCount<T>(s: seq<T>, x: T)
    requires Distinct(s)
    ensures multiset(s)[x] <= 1
  {
    if s != [] {
      DistinctCount(s[1..], x);
      assert s == [s[0]] + s[1..];
      if s[0] == x {
        assert x !in s[1..];
      }
    }
  }

  /** Rearranging a distinct sequence keeps it distinct. */
  lemma DistinctPermutation<T>(a: seq<T>, b: seq<T>)
    requires multiset(a) == multiset(b) && Distinct(b)
    ensures Distinct(a)
  {
    forall i, j | 0 <= i < j < |a|
      ensures a[i] != a[j]
    {
      if a[i] == a[j] {
        var x := a[i];
        assert a == a[..i] + [x] + a[i + 1..j] + [x] + a[j + 1..];
        assert multiset(a)[x] >= 2;
        DistinctCount(b, x);
      }
    }
  }

  /** A sequence without repeats has as many distinct values as elements. */
  lemma {:induction false} DistinctCardinality<T>(s: seq<T>)
    requires Distinct(s)
    ensures |set x | x in s| == |s|
  {
    if s != [] {
      DistinctCardinality(s[1..]);
      assert (set x | x in s) == {s[0]} + (set x | x in s[1..]);
      assert s[0] !in s[1..];
    }
  }

  /** In ascending order and without repeats: strictly increasing. */
  lemma OrderedDistinctIncreasing(s: seq<int>)
    requires Ordered(s, false) && Distinct(s)
    ensures forall i, j :: 0 <= i < j < |s| ==> s[i] < s[j]
  {
  }

  /** `s.filter(y => y !== x)`. */
  function Remove<T(==,!new)>(s: seq<T>, x: T): (r: seq<T>)
    ensures forall y :: y in r <==> y in s && y != x
    ensures x !in s ==> r == s
    ensures Distinct(s) ==> Distinct(r)
    ensures Distinct(s) && x in s ==> |r| == |s| - 1
  {
    if s == [] then []
    else
      var rest := Remove(s[1..], x);
      assert s == [s[0]] + s[1..];
      assert Distinct(s) ==> Distinct(s[1..]) && s[0] !in s[1..];
      if s[0] != x then [s[0]] + rest else rest
  }

  function Min(x: int, y: int): int { if x <= y then x else y }

  /** Different elements of a list whose keys are all different keep different keys. */
  lemma KeysDistinct<T, K>(r: seq<T>, list: seq<T>, key: T -> K)
    requires Distinct(r) && forall x :: x in r ==> x in list
    requires forall i, j :: 0 <= i < j < |list| ==> key(list[i]) != key(list[j])
    ensures forall i, j :: 0 <= i < j < |r| ==> key(r[i]) != key(r[j])
  {
    forall i, j | 0 <= i < j < |r|
      ensures key(r[i]) != key(r[j])
    {
      assert r[i] in list && r[j] in list;
      var k :| 0 <= k < |list| && list[k] == r[i];
      var l :| 0 <= l < |list| && list[l] == r[j];
      assert k != l;
    }
  }
}
