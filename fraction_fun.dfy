/**
 * Fraction fun: shade `numerator` of the `denominator` segments of a bar, then check.
 */
module FractionFun {
  import opened Js

  const Denominators: seq<int> := [2, 3, 4, 5, 6, 8, 10]

  datatype Fraction = Fraction(numerator: int, denominator: int)

  /** A fraction the page can ask for: a listed denominator and a numerator from 1 to one less. */
  predicate Proper(f: Fraction)
  {
    f.denominator in Denominators && 1 <= f.numerator <= f.denominator - 1
  }

  /** `generateFraction`: a denominator from the list, then a numerator below it. */
  function GenerateFraction(denominatorDraw: Unit, numeratorDraw: Unit): (f: Fraction)
    ensures Proper(f)
  {
    var denominator := Denominators[RandomIndex(denominatorDraw, |Denominators|)];
    Fraction(RandomInt(numeratorDraw, 1, denominator - 1), denominator)
  }

  /** Every listed denominator and every numerator below it can come up. */
  lemma EveryFractionPossible(f: Fraction)
    requires Proper(f)
    ensures exists d: Unit, n: Unit :: GenerateFraction(d, n) == f
  {
    var k :| 0 <= k < |Denominators| && Denominators[k] == f.denominator;
    var d := (k as real) / (|Denominators| as real);
    assert d * (|Denominators| as real) == k as real;
    assert RandomIndex(d, |Denominators|) == k;
    var m := f.denominator - 1;
    var n := ((f.numerator - 1) as real) / (m as real);
    assert n * (m as real) == (f.numerator - 1) as real;
    assert RandomIndex(n, m) == f.numerator - 1;
    assert GenerateFraction(d, n) == f;
  }

  /** `handleSelect`: a segment's membership flips and the others stay as they were. */
  function Toggle(selected: set<nat>, index: nat): (r: set<nat>)
    ensures index in r <==> index !in selected
    ensures forall i :: i != index ==> (i in r <==> i in selected)
  {
    if index in selected then selected - {index} else selected + {index}
  }

  /** Selecting a segment twice leaves the selection as it was. */
  lemma ToggleTwice(selected: set<nat>, index: nat)
    ensures Toggle(Toggle(selected, index), index) == selected
  {
  }

  /** The segments 0 to `n - 1`. */
  function Segments(n: nat): (s: set<nat>)
    ensures forall i: nat :: i in s <==> i < n
    ensures |s| == n
  {
    if n == 0 then {}
    else
      var rest := Segments(n - 1);
      assert n - 1 !in rest;
      rest + {n - 1}
  }

  /** Shading the first `numerator` segments is a correct answer inside the bar. */
  lemma CorrectShadingExists(f: Fraction)
    requires Proper(f)
    ensures Segments(f.numerator) <= Segments(f.denominator) && |Segments(f.numerator)| == f.numerator
  {
  }

  class FractionGame {
    var fraction: Fraction
    var selected: set<nat>
    /** `Some(true)` after a correct check, `Some(false)` after a wrong one. */
    var feedback: Option<bool>

    /** Only the segments of the bar can be selected. */
    predicate Valid()
      reads this
    {
      Proper(fraction) && forall i :: i in selected ==> i < fraction.denominator
    }

    constructor(denominatorDraw: Unit, numeratorDraw: Unit)
      ensures Valid()
      ensures fraction == GenerateFraction(denominatorDraw, numeratorDraw) && selected == {} && feedback.None?
    {
      fraction := GenerateFraction(denominatorDraw, numeratorDraw);
      selected := {};
      feedback := None;
    }

    /** A click on segment `index` of the bar. */
    method Select(index: nat)
      requires Valid() && index < fraction.denominator
      modifies this
      ensures Valid()
      ensures selected == Toggle(old(selected), index)
      ensures fraction == old(fraction) && feedback == old(feedback)
    {
      selected := Toggle(selected, index);
    }

    /**
     * `handleCheck` (the button is disabled while nothing is selected): correct exactly when as
     * many segments are shaded as the numerator, whichever they are. The selection stays.
     */
    method Check()
      requires Valid() && |selected| > 0
      modifies this
      ensures Valid()
      ensures feedback == Some(|selected| == fraction.numerator)
      ensures fraction == old(fraction) && selected == old(selected)
    {
      feedback := Some(|selected| == fraction.numerator);
    }

    /** The delayed step after a correct check: a new fraction and an empty bar. */
    method Next(denominatorDraw: Unit, numeratorDraw: Unit)
      requires Valid()
      modifies this
      ensures Valid()
      ensures fraction == GenerateFraction(denominatorDraw, numeratorDraw) && selected == {} && feedback.None?
    {
      fraction := GenerateFraction(denominatorDraw, numeratorDraw);
      selected := {};
      feedback := None;
    }

    /** The delayed step after a wrong check: only the message goes. */
    method ClearFeedback()
      requires Valid()
      modifies this
      ensures Valid()
      ensures feedback.None? && fraction == old(fraction) && selected == old(selected)
    {
      feedback := None;
    }
  }
}
