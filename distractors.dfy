/**
 * The loop two number exercises use to make wrong answers: draw a nearby value
 * `answer + offset + Math.floor(Math.random() * width)`, keep it when it differs from the answer,
 * is not already kept and is at least `floor`, and stop once three are kept.
 *
 * The loop draws as often as it needs, so the model takes the values `Math.random()` returns as a
 * finite sequence `draws`: when they run out before three values are kept, the loop has not
 * ended. A loop that keeps fewer than three values whatever the draws never ends.
 */
module Distractors {
  import opened Js
  import opened Drill
  import opened Shuffle

  /** The candidate a draw gives. */
  function Candidate(answer: int, offset: int, width: nat, r: Unit): (w: int)
    requires width > 0
    ensures answer + offset <= w < answer + offset + width
  {
    answer + offset + RandomIndex(r, width)
  }

  /** The loop's test: a new value, not the answer, and at least `floor`. */
  predicate Accepts(answer: int, floor: int, wrong: seq<int>, w: int)
  {
    w != answer && w !in wrong && w >= floor
  }

  /** What the loop has kept once it stops: after three values, or when the draws run out. */
  function Collect(answer: int, offset: int, width: nat, floor: int, wrong: seq<int>, draws: seq<Unit>): seq<int>
    requires width > 0
    decreases |draws|
  {
    if |wrong| >= 3 || draws == [] then wrong
    else
      var w := Candidate(answer, offset, width, draws[0]);
      Collect(answer, offset, width, floor, if Accepts(answer, floor, wrong, w) then wrong + [w] else wrong, draws[1..])
  }

  /** A value the loop would keep if it were new: in the drawn range, not the answer, at least `floor`. */
  predicate Passes(answer: int, offset: int, width: nat, floor: int, w: int)
  {
    answer + offset <= w < answer + offset + width && w != answer && w >= floor
  }

  /** Distinct values near the answer, none of them the answer, none below `floor`. */
  predicate Fits(answer: int, offset: int, width: nat, floor: int, ws: seq<int>)
  {
    && Distinct(ws)
    && forall i :: 0 <= i < |ws| ==> ws[i] != answer && ws[i] >= floor && answer + offset <= ws[i] < answer + offset + width
  }

  /** The loop, as the generators run it. */
  method CollectLoop(answer: int, offset: int, width: nat, floor: int, draws: seq<Unit>) returns (wrong: seq<int>)
    requires width > 0
    ensures wrong == Collect(answer, offset, width, floor, [], draws)
  {
    wrong := [];
    var k := 0;
    while |wrong| < 3 && k < |draws|
      invariant 0 <= k <= |draws|
      invariant Collect(answer, offset, width, floor, wrong, draws[k..]) == Collect(answer, offset, width, floor, [], draws)
      decreases |draws| - k
    {
      var w := Candidate(answer, offset, width, draws[k]);
      assert draws[k..][1..] == draws[k + 1..];
      if Accepts(answer, floor, wrong, w) {
        wrong := wrong + [w];
      }
      k := k + 1;
    }
  }

  /** The loop keeps at most three values, extends what it started with, and keeps only fitting values. */
  lemma {:induction false} CollectFits(answer: int, offset: int, width: nat, floor: int, wrong: seq<int>, draws: seq<Unit>)
    requires width > 0
    requires Fits(answer, offset, width, floor, wrong) && |wrong| <= 3
    ensures var r := Collect(answer, offset, width, floor, wrong, draws);
      Fits(answer, offset, width, floor, r) && |r| <= 3 && wrong <= r
    decreases |draws|
  {
    if |wrong| < 3 && draws != [] {
      var w := Candidate(answer, offset, width, draws[0]);
      var next := if Accepts(answer, floor, wrong, w) then wrong + [w] else wrong;
      assert Fits(answer, offset, width, floor, next);
      CollectFits(answer, offset, width, floor, next, draws[1..]);
    }
  }

  /**
   * When at most two values can pass the test, the loop never keeps three: whatever the draws,
   * it does not end.
   */
  lemma {:induction false} CollectStuck(answer: int, offset: int, width: nat, floor: int, a: int, b: int, wrong: seq<int>, draws: seq<Unit>)
    requires width > 0
    requires forall w :: Passes(answer, offset, width, floor, w) ==> w == a || w == b
    requires Fits(answer, offset, width, floor, wrong) && |wrong| <= 2
    ensures |Collect(answer, offset, width, floor, wrong, draws)| <= 2
    decreases |draws|
  {
    if draws != [] {
      var w := Candidate(answer, offset, width, draws[0]);
      var next := if Accepts(answer, floor, wrong, w) then wrong + [w] else wrong;
      assert Collect(answer, offset, width, floor, wrong, draws) == Collect(answer, offset, width, floor, next, draws[1..]);
      if Accepts(answer, floor, wrong, w) {
        OnlyTwo(answer, offset, width, floor, a, b, wrong, w);
        assert Fits(answer, offset, width, floor, next);
      }
      CollectStuck(answer, offset, width, floor, a, b, next, draws[1..]);
    }
  }

  /** With two values kept out of two possible, no candidate is new. */
  lemma OnlyTwo(answer: int, offset: int, width: nat, floor: int, a: int, b: int, wrong: seq<int>, w: int)
    requires forall w :: Passes(answer, offset, width, floor, w) ==> w == a || w == b
    requires Fits(answer, offset, width, floor, wrong) && |wrong| <= 2
    requires answer + offset <= w < answer + offset + width && Accepts(answer, floor, wrong, w)
    ensures |wrong| < 2
  {
    if |wrong| == 2 {
      assert wrong[0] != wrong[1];
      assert Passes(answer, offset, width, floor, wrong[0]);
      assert Passes(answer, offset, width, floor, wrong[1]);
      assert Passes(answer, offset, width, floor, w);
    }
  }

  /** The draw that gives the `d`-th candidate. */
  function DrawFor(d: nat, width: nat): (r: Unit)
    requires d < width
    ensures RandomIndex(r, width) == d
  {
    var r := (d as real) / (width as real);
    assert r * (width as real) == d as real;
    r
  }

  /**
   * Three draws whose candidates pass the test one after another make the loop end with them.
   */
  lemma CollectFinishes(answer: int, offset: int, width: nat, floor: int, d1: nat, d2: nat, d3: nat)
    requires d1 < width && d2 < width && d3 < width
    requires d1 != d2 && d1 != d3 && d2 != d3
    requires answer + offset + d1 != answer && answer + offset + d1 >= floor
    requires answer + offset + d2 != answer && answer + offset + d2 >= floor
    requires answer + offset + d3 != answer && answer + offset + d3 >= floor
    ensures |Collect(answer, offset, width, floor, [], [DrawFor(d1, width), DrawFor(d2, width), DrawFor(d3, width)])| == 3
  {
    var r1, r2, r3 := DrawFor(d1, width), DrawFor(d2, width), DrawFor(d3, width);
    var draws := [r1, r2, r3];
    var w1, w2, w3 := answer + offset + d1, answer + offset + d2, answer + offset + d3;
    assert Candidate(answer, offset, width, r1) == w1;
    assert Candidate(answer, offset, width, r2) == w2;
    assert Candidate(answer, offset, width, r3) == w3;
    assert draws[1..] == [r2, r3] && [r2, r3][1..] == [r3] && [r3][1..] == [];
    assert [] + [w1] == [w1] && [w1] + [w2] == [w1, w2] && [w1, w2] + [w3] == [w1, w2, w3];
    KeepStep(answer, offset, width, floor, [], draws);
    KeepStep(answer, offset, width, floor, [w1], [r2, r3]);
    KeepStep(answer, offset, width, floor, [w1, w2], [r3]);
    var last := Collect(answer, offset, width, floor, [w1, w2, w3], []);
    assert last == [w1, w2, w3];
    assert Collect(answer, offset, width, floor, [], draws) == last;
  }

  /** One round of the loop that keeps its candidate. */
  lemma KeepStep(answer: int, offset: int, width: nat, floor: int, wrong: seq<int>, draws: seq<Unit>)
    requires width > 0 && |wrong| < 3 && draws != []
    requires Accepts(answer, floor, wrong, Candidate(answer, offset, width, draws[0]))
    ensures Collect(answer, offset, width, floor, wrong, draws)
         == Collect(answer, offset, width, floor, wrong + [Candidate(answer, offset, width, draws[0])], draws[1..])
  {
  }

  /**
   * `shuffleArray([...incorrect, correctAnswer])`: four different options, the answer among them
   * and every other option one of the wrong answers.
   */
  method Options(answer: int, wrong: seq<int>, shuffle: nat -> Unit) returns (options: seq<int>)
    requires |wrong| == 3 && Distinct(wrong) && answer !in wrong
    ensures |options| == 4 && Distinct(options) && answer in options
    ensures forall i :: 0 <= i < 4 ==> options[i] == answer || options[i] in wrong
    ensures multiset(options) == multiset(wrong + [answer])
  {
    var all := wrong + [answer];
    assert Distinct(all) by {
      forall i, j | 0 <= i < j < 4
        ensures all[i] != all[j]
      {
        if j == 3 {
          assert all[i] == wrong[i];
        }
      }
    }
    options := ShuffleArray(all, shuffle);
    DistinctPermutation(options, all);
    assert answer in multiset(options) by { assert all[3] == answer; }
    forall i | 0 <= i < 4
      ensures options[i] == answer || options[i] in wrong
    {
      assert options[i] in multiset(all);
    }
  }
}
