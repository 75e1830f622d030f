/**
 * `shuffleArray`, the Fisher–Yates shuffle several exercises use to order their answer options:
 * the array is copied and then, from the last position down to the second, each element is
 * swapped with one at a random position at or before it.
 */
module Shuffle {
  import opened Js
  import opened Drill

  /**
   * Shuffle a copy of `s`; `rand(k)` is the value the `k`-th call of `Math.random()` returns.
   * The result is a permutation of the input.
   */
  method ShuffleArray<T>(s: seq<T>, rand: nat -> Unit) returns (r: seq<T>)
    ensures |r| == |s|
    ensures multiset(r) == multiset(s)
  {
    var a := new T[|s|](k requires 0 <= k < |s| => s[k]);
    assert a[..] == s;
    var i := |s| - 1;
    var draws: nat := 0;
    while i > 0
      invariant -1 <= i < a.Length
      invariant multiset(a[..]) == multiset(s)
      decreases i
    {
      var j := RandomIndex(rand(draws), i + 1);
      a[i], a[j] := a[j], a[i];
      i := i - 1;
      draws := draws + 1;
    }
    r := a[..];
  }

  /**
   * Multiple-choice options: the first three of the shuffled `others` and the answer, shuffled
   * together. Four different options, the answer among them, the rest from `others`.
   */
  method ShuffledOptions<T(==,!new)>(answer: T, others: seq<T>, otherShuffle: nat -> Unit, optionShuffle: nat -> Unit)
    returns (options: seq<T>)
    requires Distinct(others) && |others| >= 3 && answer !in others
    ensures |options| == 4 && Distinct(options) && answer in options
    ensures forall o :: o in options ==> o == answer || o in others
  {
    var shuffled := ShuffleArray(others, otherShuffle);
    DistinctPermutation(shuffled, others);
    var all := shuffled[..3] + [answer];
    forall o | o in all
      ensures o == answer || o in others
    {
      if o != answer {
        assert o in shuffled;
        assert o in multiset(shuffled);
      }
    }
    assert Distinct(all) by {
      forall i, j | 0 <= i < j < 4
        ensures all[i] != all[j]
      {
        assert all[i] == shuffled[i];
        assert shuffled[i] in multiset(others);
        if j < 3 {
          assert all[j] == shuffled[j];
        }
      }
    }
    options := ShuffleArray(all, optionShuffle);
    DistinctPermutation(options, all);
    assert answer in multiset(options) by { assert all[3] == answer; }
    forall o | o in options
      ensures o in all
    {
      assert o in multiset(all);
    }
  }

  /** The list in random order, then its first `count` elements: `shuffled.slice(0, count)`. */
  method Take<T>(list: seq<T>, count: nat, shuffle: nat -> Unit) returns (r: seq<T>)
    ensures |r| == Min(count, |list|)
    ensures forall x :: x in r ==> x in list
    ensures Distinct(list) ==> Distinct(r)
  {
    var shuffled := ShuffleArray(list, shuffle);
    r := shuffled[..Min(count, |shuffled|)];
    forall x | x in r
      ensures x in list
    {
      assert x in multiset(shuffled);
    }
    if Distinct(list) {
      DistinctPermutation(shuffled, list);
    }
  }
}
