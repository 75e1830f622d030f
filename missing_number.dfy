/**
 * "Find the missing number": four numbers counting in 2s, 3s, 5s or 10s with one of them hidden,
 * and four options to choose the hidden one from; a score is kept.
 *
 * `Draws.pattern(0)` and `Draws.pattern(1)` are the values `Math.random()` returns for the first
 * number and for the hidden position; the wrong options take their values from `Draws.wrong`
 * and the shuffle from `Draws.shuffle`.
 */
module FindTheMissingNumber {
  import opened Js
  import opened Drill
  import Distractors

  /** The skip patterns the setup offers; the page starts on 2. */
  predicate IsSkip(skip: int)
  {
    skip == 2 || skip == 3 || skip == 5 || skip == 10
  }

  /** The first number, `Math.floor(Math.random() * 20) + 1`. */
  function StartNumber(r: Unit): (n: int)
    ensures 1 <= n <= 20
  {
    RandomInt(r, 1, 20)
  }

  /** The hidden position, `Math.floor(Math.random() * 4)`. */
  function MissingIndex(r: Unit): (i: nat)
    ensures i < 4
  {
    RandomIndex(r, 4)
  }

  /** The hidden number: the sequence `start, start + skip, ...` at the hidden position. */
  function HiddenNumber(skip: int, rand: nat -> Unit): int
  {
    Stepped(StartNumber(rand(0)), skip, 4)[MissingIndex(rand(1))]
  }

  /**
   * The hidden number is at least 1, and it is 1 exactly when the sequence starts at 1 and the
   * first number is the hidden one.
   */
  lemma HiddenNumberIsOne(skip: int, rand: nat -> Unit)
    requires IsSkip(skip)
    ensures HiddenNumber(skip, rand) >= 1
    ensures HiddenNumber(skip, rand) == 1 <==> StartNumber(rand(0)) == 1 && MissingIndex(rand(1)) == 0
  {
    var i := MissingIndex(rand(1));
    assert HiddenNumber(skip, rand) == StartNumber(rand(0)) + i * skip;
    assert i * skip >= 0 && (i > 0 ==> i * skip >= 2);
  }

  // ---------------------------------------------------------------------------
  // The wrong options
  // ---------------------------------------------------------------------------

  /**
   * The loop as written: `answer + Math.floor(Math.random() * 5) - 2`, kept when above 0, not the
   * answer and new.
   */
  function IncorrectAsWritten(answer: int, draws: seq<Unit>): seq<int>
  {
    Distractors.Collect(answer, -2, 5, 1, [], draws)
  }

  /**
   * For an answer of 1 or less at most two values pass the loop's test, so it never finds three
   * wrong options and never ends.
   */
  lemma AsWrittenNeverEnds(answer: int, draws: seq<Unit>)
    requires answer <= 1
    ensures |IncorrectAsWritten(answer, draws)| < 3
  {
    if answer == 1 {
      Distractors.CollectStuck(answer, -2, 5, 1, 2, 3, [], draws);
    } else {
      Distractors.CollectStuck(answer, -2, 5, 1, 1, 2, [], draws);
    }
  }

  /** The loop as written can end exactly when the answer is at least 2. */
  lemma AsWrittenCanEndIff(answer: int)
    ensures (exists draws :: |IncorrectAsWritten(answer, draws)| == 3) <==> answer >= 2
  {
    if answer >= 2 {
      Distractors.CollectFinishes(answer, -2, 5, 1, 1, 3, 4);
      var draws := [Distractors.DrawFor(1, 5), Distractors.DrawFor(3, 5), Distractors.DrawFor(4, 5)];
      assert |IncorrectAsWritten(answer, draws)| == 3;
    } else {
      forall draws
        ensures |IncorrectAsWritten(answer, draws)| < 3
      {
        AsWrittenNeverEnds(answer, draws);
      }
    }
  }

  /** `Math.random()` returning 0 twice: the sequence starts at 1 and its first number is hidden. */
  function Zeros(k: nat): Unit
  {
    0.0
  }

  /**
   * The question the page makes as it first appears, counting in 2s, can hide the number 1, and
   * then the loop as written never ends.
   */
  lemma FirstQuestionCanHang(draws: seq<Unit>)
    ensures HiddenNumber(2, Zeros) == 1
    ensures |IncorrectAsWritten(HiddenNumber(2, Zeros), draws)| < 3
  {
    HiddenNumberIsOne(2, Zeros);
    AsWrittenNeverEnds(1, draws);
  }

  /**
   * The corrected test: the positive test stays wherever the loop as written can end, and for a
   * hidden 1 (or less) the option 0 is allowed, as the arithmetic quiz allows it.
   */
  function LowerBound(answer: int): int
  {
    if answer <= 1 then 0 else 1
  }

  /**
   * The wrong options with the corrected test: near the answer, distinct, not the answer, never
   * negative, positive for a hidden number of at least 2, and at most three.
   */
  function Incorrect(answer: int, draws: seq<Unit>): (ws: seq<int>)
    ensures |ws| <= 3 && Distinct(ws)
    ensures forall i :: 0 <= i < |ws| ==> ws[i] != answer && 0 <= ws[i] && answer - 2 <= ws[i] <= answer + 2
    ensures answer >= 2 ==> forall i :: 0 <= i < |ws| ==> ws[i] >= 1
  {
    Distractors.CollectFits(answer, -2, 5, LowerBound(answer), [], draws);
    Distractors.Collect(answer, -2, 5, LowerBound(answer), [], draws)
  }

  /** With the corrected test some draws end the loop for every hidden number. */
  lemma CorrectedCanEnd(answer: int)
    requires answer >= 1
    ensures exists draws :: |Incorrect(answer, draws)| == 3
  {
    Distractors.CollectFinishes(answer, -2, 5, LowerBound(answer), 1, 3, 4);
    var draws := [Distractors.DrawFor(1, 5), Distractors.DrawFor(3, 5), Distractors.DrawFor(4, 5)];
    assert |Incorrect(answer, draws)| == 3;
  }

  /**
   * Wherever the loop as written can end (a hidden number of at least 2), the corrected loop
   * keeps exactly what it keeps.
   */
  lemma CorrectedAgrees(answer: int, draws: seq<Unit>)
    requires answer >= 2
    ensures Incorrect(answer, draws) == IncorrectAsWritten(answer, draws)
  {
    assert LowerBound(answer) == 1;
  }

  // ---------------------------------------------------------------------------
  // Questions
  // ---------------------------------------------------------------------------

  datatype Pattern = Pattern(sequence: seq<int>, missingIndex: nat, answer: int, options: seq<int>)

  /**
   * Four numbers counting by the skip, a hidden position, its number as the answer, and four
   * different options: the answer and three numbers within two of it, none negative.
   */
  predicate WellFormed(p: Pattern, skip: int)
  {
    && |p.sequence| == 4
    && (forall i :: 0 <= i < 3 ==> p.sequence[i + 1] == p.sequence[i] + skip)
    && p.missingIndex < 4
    && p.answer == p.sequence[p.missingIndex]
    && |p.options| == 4
    && Distinct(p.options)
    && p.answer in p.options
    && forall i :: 0 <= i < 4 ==> p.options[i] == p.answer || (0 <= p.options[i] && p.answer - 2 <= p.options[i] <= p.answer + 2)
  }

  datatype Draws = Draws(pattern: nat -> Unit, wrong: seq<Unit>, shuffle: nat -> Unit)

  /** The wrong-option draws suffice to finish the loop. */
  predicate Enough(skip: int, d: Draws)
  {
    |Incorrect(HiddenNumber(skip, d.pattern), d.wrong)| == 3
  }

  /** `generatePattern`: none when the wrong-option draws run out before the loop ends. */
  method GeneratePattern(skip: int, d: Draws) returns (p: Option<Pattern>)
    ensures p.None? <==> !Enough(skip, d)
    ensures p.Some? ==> WellFormed(p.value, skip) && p.value.answer == HiddenNumber(skip, d.pattern)
    ensures p.Some? ==> p.value.sequence[0] == StartNumber(d.pattern(0)) && p.value.missingIndex == MissingIndex(d.pattern(1))
    ensures p.Some? ==> multiset(p.value.options) == multiset(Incorrect(p.value.answer, d.wrong) + [p.value.answer])
  {
    var sequence := Stepped(StartNumber(d.pattern(0)), skip, 4);
    var missingIndex := MissingIndex(d.pattern(1));
    var answer := sequence[missingIndex];
    var wrong := Distractors.CollectLoop(answer, -2, 5, LowerBound(answer), d.wrong);
    if |wrong| < 3 {
      return None;
    }
    assert wrong == Incorrect(answer, d.wrong);
    var options := Distractors.Options(answer, wrong, d.shuffle);
    p := Some(Pattern(sequence, missingIndex, answer, options));
  }

  /** The sequence as shown: each number as text, with `__` in the hidden place. */
  function Displayed(p: Pattern): (items: seq<string>)
    requires |p.sequence| == 4
    ensures |items| == 4
    ensures forall i :: 0 <= i < 4 ==> (items[i] == "__" <==> i == p.missingIndex)
    ensures forall i :: 0 <= i < 4 && i != p.missingIndex ==> items[i] == IntToString(p.sequence[i])
  {
    var items := seq(4, i requires 0 <= i < 4 => if i == p.missingIndex then "__" else IntToString(p.sequence[i]));
    forall i | 0 <= i < 4 && i != p.missingIndex
      ensures items[i] != "__"
    {
      var t := IntToString(p.sequence[i]);
      if p.sequence[i] >= 0 {
        assert t == NatToString(p.sequence[i]) && IsDigit(t[0]);
      }
    }
    items
  }

  /** The line the page shows, the items joined with `, `. */
  function DisplayedText(p: Pattern): string
    requires |p.sequence| == 4
  {
    Join(Displayed(p), ", ")
  }

  /** The exercise page. */
  class MissingNumberPractice {
    var skip: int
    var started: bool
    var question: Pattern
    var selected: Option<int>
    var score: nat
    var total: nat

    predicate Valid()
      reads this
    {
      && IsSkip(skip)
      && |question.sequence| == 4
      && score <= total
      && (selected.Some? ==> started)
    }

    /** The page opens counting in 2s and makes its first question at once. */
    constructor(d: Draws)
      requires Enough(2, d)
      ensures Valid()
      ensures skip == 2 && !started && selected.None? && score == 0 && total == 0
      ensures WellFormed(question, 2) && question.answer == HiddenNumber(2, d.pattern)
    {
      var p := GeneratePattern(2, d);
      skip := 2;
      started := false;
      question := p.value;
      selected := None;
      score := 0;
      total := 0;
    }

    /** The skip select, shown only in the setup. */
    method ChangeSkip(k: int)
      requires Valid() && !started && IsSkip(k)
      modifies this
      ensures Valid()
      ensures skip == k
      ensures started == old(started) && question == old(question) && selected == old(selected)
      ensures score == old(score) && total == old(total)
    {
      skip := k;
    }

    /** `startPractice`: a fresh score and a new question for the chosen skip. */
    method Start(d: Draws)
      requires Valid() && Enough(skip, d)
      modifies this
      ensures Valid()
      ensures started && score == 0 && total == 0
      ensures WellFormed(question, skip) && question.answer == HiddenNumber(skip, d.pattern)
      ensures skip == old(skip) && selected == old(selected)
    {
      var p := GeneratePattern(skip, d);
      started := true;
      score := 0;
      total := 0;
      question := p.value;
    }

    /** `handleSelect`: only the first choice counts; the total grows, and the score when it is right. */
    method Select(num: int)
      requires Valid() && started
      modifies this
      ensures Valid()
      ensures old(selected).Some? ==> selected == old(selected) && score == old(score) && total == old(total)
      ensures old(selected).None? ==> selected == Some(num) && total == old(total) + 1
      ensures old(selected).None? ==> score == old(score) + (if num == question.answer then 1 else 0)
      ensures skip == old(skip) && started == old(started) && question == old(question)
    {
      if selected.Some? {
        return;
      }
      selected := Some(num);
      total := total + 1;
      if num == question.answer {
        score := score + 1;
      }
    }

    /** The delayed step after a choice: a new question, nothing selected. */
    method Next(d: Draws)
      requires Valid() && Enough(skip, d)
      modifies this
      ensures Valid()
      ensures old(selected).Some? ==>
        selected.None? && WellFormed(question, skip) && question.answer == HiddenNumber(skip, d.pattern)
      ensures old(selected).None? ==> question == old(question) && selected == old(selected)
      ensures skip == old(skip) && started == old(started) && score == old(score) && total == old(total)
    {
      if selected.Some? {
        var p := GeneratePattern(skip, d);
        question := p.value;
        selected := None;
      }
    }

    /** `handleRestart`: back to the setup; the question, score and total stay. */
    method Restart()
      requires Valid()
      modifies this
      ensures Valid()
      ensures !started && selected.None?
      ensures skip == old(skip) && question == old(question) && score == old(score) && total == old(total)
    {
      started := false;
      selected := None;
    }
  }
}
