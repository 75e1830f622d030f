/**
 * The arithmetic practice page: pick an operation, how many numbers and their range, then answer
 * multiple-choice questions one after another while a score is kept.
 *
 * Each question draws its numbers, works out the answer, makes three wrong answers near it and
 * shuffles the four options. `rand(k)` is the value the `k`-th call of `Math.random()` in
 * `generateQuestion` returns before the wrong answers are drawn; the wrong answers take their
 * values from `Draws.wrong`, and the shuffle from `Draws.shuffle`.
 */
module MathPractice {
  import opened Js
  import opened Drill
  import Distractors

  datatype Operation = Addition | Subtraction | Multiplication | Division

  datatype Settings = Settings(op: Operation, operands: nat, min: int, max: int)

  /** The settings the page opens with. */
  const DefaultSettings := Settings(Addition, 2, 1, 10)

  /**
   * What the setup sliders allow: 2 to 4 numbers, a minimum of 1 to 50 and a maximum of 2 to 100.
   * The maximum slider starts at the minimum plus one, but raising the minimum later leaves the
   * maximum where it was, so the maximum may end up below the minimum.
   */
  predicate Allowed(s: Settings)
  {
    2 <= s.operands <= 4 && 1 <= s.min <= 50 && 2 <= s.max <= 100
  }

  lemma FloorBounds(r: Unit, w: int)
    ensures w > 0 ==> 0 <= (r * (w as real)).Floor < w
    ensures w <= 0 ==> w <= (r * (w as real)).Floor <= 0
  {
    var x := r * (w as real);
    var f := x.Floor;
    assert f as real <= x < (f + 1) as real;
    assert (1.0 - r) * (w as real) == (w as real) - x;
    assert r * (-(w as real)) == -x;
    if w > 0 {
      assert (1.0 - r) * (w as real) > 0.0;
      assert 0.0 <= x;
    } else {
      var v := -(w as real);
      assert 0.0 <= r && 0.0 <= v;
      assert r * v >= 0.0;
      assert (1.0 - r) * v >= 0.0;
    }
  }

  /**
   * `Math.floor(r * (max - min + 1)) + min`: a number from `min` to `max`, or, when the maximum
   * is below the minimum, a number above the maximum and at most the minimum.
   */
  function DrawInRange(r: Unit, min: int, max: int): (x: int)
    ensures min <= max ==> min <= x <= max
    ensures max < min ==> max < x <= min
  {
    FloorBounds(r, max - min + 1);
    (r * ((max - min + 1) as real)).Floor + min
  }

  /** Under the slider limits every drawn number is at least 1. */
  lemma DrawPositive(r: Unit, s: Settings)
    requires Allowed(s)
    ensures DrawInRange(r, s.min, s.max) >= 1
  {
  }

  /** The question's numbers: `operands` draws, each from the range. */
  function Numbers(s: Settings, rand: nat -> Unit): (ns: seq<int>)
    ensures |ns| == s.operands
    ensures forall i :: 0 <= i < |ns| ==> ns[i] == DrawInRange(rand(i), s.min, s.max)
  {
    seq(s.operands, i requires 0 <= i => DrawInRange(rand(i), s.min, s.max))
  }

  /** `reduce((a, b) => a + b, 0)`. */
  function Sum(ns: seq<int>): int
  {
    if ns == [] then 0 else Sum(ns[..|ns| - 1]) + ns[|ns| - 1]
  }

  /** `reduce((a, b) => a * b, 1)`. */
  function Product(ns: seq<int>): int
  {
    if ns == [] then 1 else Product(ns[..|ns| - 1]) * ns[|ns| - 1]
  }

  /** `reduce((a, b) => a - b)` without a starting value: undefined on an empty list. */
  function Difference(ns: seq<int>): int
    requires |ns| >= 1
  {
    if |ns| == 1 then ns[0] else Difference(ns[..|ns| - 1]) - ns[|ns| - 1]
  }

  lemma {:induction false} SumFront(ns: seq<int>)
    requires ns != []
    ensures Sum(ns) == ns[0] + Sum(ns[1..])
  {
    if |ns| > 1 {
      var init := ns[..|ns| - 1];
      SumFront(init);
      assert init[1..] == ns[1..][..|ns[1..]| - 1];
    }
  }

  /** Subtraction takes everything after the first number away from the first number. */
  lemma {:induction false} DifferenceIsFirstMinusRest(ns: seq<int>)
    requires |ns| >= 1
    ensures Difference(ns) == ns[0] - Sum(ns[1..])
  {
    if |ns| > 1 {
      var init := ns[..|ns| - 1];
      DifferenceIsFirstMinusRest(init);
      assert init[1..] == ns[1..][..|ns[1..]| - 1];
    }
  }

  lemma {:induction false} SumAtLeast(ns: seq<int>)
    requires forall i :: 0 <= i < |ns| ==> ns[i] >= 1
    ensures Sum(ns) >= |ns|
  {
    if ns != [] {
      SumAtLeast(ns[..|ns| - 1]);
    }
  }

  lemma {:induction false} ProductAtLeastOne(ns: seq<int>)
    requires forall i :: 0 <= i < |ns| ==> ns[i] >= 1
    ensures Product(ns) >= 1
  {
    if ns != [] {
      ProductAtLeastOne(ns[..|ns| - 1]);
      var p := Product(ns[..|ns| - 1]);
      assert p * ns[|ns| - 1] >= p * 1;
    }
  }

  /** The divisor: a draw from the range, or 1 when the draw is 0 (`|| 1`). */
  function Divisor(s: Settings, rand: nat -> Unit): (d: int)
    ensures d != 0
  {
    var d := DrawInRange(rand(s.operands), s.min, s.max);
    if d == 0 then 1 else d
  }

  /** The quotient, drawn from the range after the divisor. */
  function Quotient(s: Settings, rand: nat -> Unit): int
  {
    DrawInRange(rand(s.operands + 1), s.min, s.max)
  }

  /** The numbers a question shows: the drawn ones, or the dividend and divisor. */
  function Shown(s: Settings, rand: nat -> Unit): seq<int>
  {
    if s.op == Division then [Divisor(s, rand) * Quotient(s, rand), Divisor(s, rand)]
    else Numbers(s, rand)
  }

  /** The answer the switch on the operation computes. */
  function Answer(s: Settings, rand: nat -> Unit): int
    requires s.op == Subtraction ==> s.operands >= 1
  {
    match s.op
    case Addition => Sum(Numbers(s, rand))
    case Subtraction => Difference(Numbers(s, rand))
    case Multiplication => Product(Numbers(s, rand))
    case Division => Quotient(s, rand)
  }

  /**
   * The answer is the result of the operation on the shown numbers: the sum, the first number
   * minus the others, the product, or the number that times the divisor gives the dividend, so
   * that a division always comes out whole.
   */
  lemma AnswerComputes(s: Settings, rand: nat -> Unit)
    requires s.op == Subtraction ==> s.operands >= 1
    ensures var ns := Shown(s, rand);
      match s.op
      case Addition => Answer(s, rand) == Sum(ns)
      case Subtraction => Answer(s, rand) == ns[0] - Sum(ns[1..])
      case Multiplication => Answer(s, rand) == Product(ns)
      case Division => ns[1] != 0 && ns[0] == ns[1] * Answer(s, rand)
  {
    if s.op == Subtraction {
      DifferenceIsFirstMinusRest(Numbers(s, rand));
    }
  }

  /** Addition, multiplication and division have positive answers under the slider limits. */
  lemma AnswerPositive(s: Settings, rand: nat -> Unit)
    requires Allowed(s) && s.op != Subtraction
    ensures Answer(s, rand) >= 1
  {
    var ns := Numbers(s, rand);
    forall i | 0 <= i < |ns|
      ensures ns[i] >= 1
    {
      DrawPositive(rand(i), s);
    }
    match s.op
    case Addition => SumAtLeast(ns);
    case Multiplication => ProductAtLeastOne(ns);
    case Division => DrawPositive(rand(s.operands + 1), s);
  }

  // ---------------------------------------------------------------------------
  // The wrong answers
  // ---------------------------------------------------------------------------

  /**
   * The loop as written: `answer + Math.floor(Math.random() * 10) - 5`, kept when new, not the
   * answer, and not negative.
   */
  function IncorrectAnswersAsWritten(answer: int, draws: seq<Unit>): seq<int>
  {
    Distractors.Collect(answer, -5, 10, 0, [], draws)
  }

  /**
   * From an answer of -3 down, only 0 and 1 can pass the loop's test, so it never finds three
   * wrong answers and never ends.
   */
  lemma AsWrittenNeverEnds(answer: int, draws: seq<Unit>)
    requires answer <= -3
    ensures |IncorrectAnswersAsWritten(answer, draws)| < 3
  {
    Distractors.CollectStuck(answer, -5, 10, 0, 0, 1, [], draws);
  }

  /** The loop as written can end exactly when the answer is at least -2. */
  lemma AsWrittenCanEndIff(answer: int)
    ensures (exists draws :: |IncorrectAnswersAsWritten(answer, draws)| == 3) <==> answer >= -2
  {
    if answer >= -2 {
      Distractors.CollectFinishes(answer, -5, 10, 0, 7, 8, 9);
      var draws := [Distractors.DrawFor(7, 10), Distractors.DrawFor(8, 10), Distractors.DrawFor(9, 10)];
      assert |IncorrectAnswersAsWritten(answer, draws)| == 3;
    } else {
      forall draws
        ensures |IncorrectAnswersAsWritten(answer, draws)| < 3
      {
        AsWrittenNeverEnds(answer, draws);
      }
    }
  }

  /** `Math.random()` returning 0 and then 0.3 draws the numbers 1 and 4. */
  function OneThenFour(k: nat): Unit
  {
    if k == 0 then 0.0 else 0.3
  }

  /**
   * The default range with subtraction of two numbers can ask 1 - 4, whose answer -3 leaves the
   * loop as written without an end.
   */
  lemma SubtractionCanHang(draws: seq<Unit>)
    ensures var s := Settings(Subtraction, 2, 1, 10);
      Allowed(s) && Numbers(s, OneThenFour) == [1, 4] && Answer(s, OneThenFour) == -3
      && |IncorrectAnswersAsWritten(Answer(s, OneThenFour), draws)| < 3
  {
    var s := Settings(Subtraction, 2, 1, 10);
    assert DrawInRange(0.3, 1, 10) == 4 by {
      assert 0.3 * 10.0 == 3.0;
    }
    assert Numbers(s, OneThenFour) == [1, 4];
    assert Difference([1, 4]) == Difference([1]) - 4;
    AsWrittenNeverEnds(-3, draws);
  }

  /**
   * The corrected test: the non-negative floor stays wherever the loop as written can end, and
   * from an answer of -3 down every candidate is let through.
   */
  function LowerBound(answer: int): int
  {
    if answer <= -3 then answer - 5 else 0
  }

  /**
   * The wrong answers with the corrected test: near the answer, distinct, not the answer, at
   * most three, and never negative for an answer of at least -2.
   */
  function IncorrectAnswers(answer: int, draws: seq<Unit>): (ws: seq<int>)
    ensures |ws| <= 3 && Distinct(ws)
    ensures forall i :: 0 <= i < |ws| ==> ws[i] != answer && answer - 5 <= ws[i] <= answer + 4
    ensures answer >= -2 ==> forall i :: 0 <= i < |ws| ==> ws[i] >= 0
  {
    Distractors.CollectFits(answer, -5, 10, LowerBound(answer), [], draws);
    Distractors.Collect(answer, -5, 10, LowerBound(answer), [], draws)
  }

  /** With the corrected test some draws end the loop whatever the answer. */
  lemma CorrectedCanEnd(answer: int)
    ensures exists draws :: |IncorrectAnswers(answer, draws)| == 3
  {
    Distractors.CollectFinishes(answer, -5, 10, LowerBound(answer), 7, 8, 9);
    var draws := [Distractors.DrawFor(7, 10), Distractors.DrawFor(8, 10), Distractors.DrawFor(9, 10)];
    assert |IncorrectAnswers(answer, draws)| == 3;
  }

  /**
   * Wherever the loop as written can end (an answer of at least -2), the corrected loop keeps
   * exactly what it keeps.
   */
  lemma CorrectedAgrees(answer: int, draws: seq<Unit>)
    requires answer >= -2
    ensures IncorrectAnswers(answer, draws) == IncorrectAnswersAsWritten(answer, draws)
  {
    assert LowerBound(answer) == 0;
  }

  // ---------------------------------------------------------------------------
  // Questions
  // ---------------------------------------------------------------------------

  datatype Question = Question(op: Operation, shown: seq<int>, answer: int, options: seq<int>)

  /** Four different options, one of them the answer, the others within five of it. */
  predicate WellFormed(q: Question)
  {
    && |q.options| == 4
    && Distinct(q.options)
    && q.answer in q.options
    && forall i :: 0 <= i < 4 ==> q.options[i] == q.answer || q.answer - 5 <= q.options[i] <= q.answer + 4
  }

  /** The random values one question consumes. */
  datatype Draws = Draws(numbers: nat -> Unit, wrong: seq<Unit>, shuffle: nat -> Unit)

  /** The wrong-answer draws suffice to finish the loop for these settings. */
  predicate Enough(s: Settings, d: Draws)
    requires s.op == Subtraction ==> s.operands >= 1
  {
    |IncorrectAnswers(Answer(s, d.numbers), d.wrong)| == 3
  }

  /** `generateQuestion`: none when the wrong-answer draws run out before the loop ends. */
  method GenerateQuestion(s: Settings, d: Draws) returns (q: Option<Question>)
    requires s.op == Subtraction ==> s.operands >= 1
    ensures q.None? <==> !Enough(s, d)
    ensures q.Some? ==> q.value.op == s.op && q.value.shown == Shown(s, d.numbers)
    ensures q.Some? ==> q.value.answer == Answer(s, d.numbers) && WellFormed(q.value)
    ensures q.Some? ==> multiset(q.value.options) == multiset(IncorrectAnswers(q.value.answer, d.wrong) + [q.value.answer])
  {
    var answer := Answer(s, d.numbers);
    var wrong := Distractors.CollectLoop(answer, -5, 10, LowerBound(answer), d.wrong);
    if |wrong| < 3 {
      return None;
    }
    assert wrong == IncorrectAnswers(answer, d.wrong);
    var options := Distractors.Options(answer, wrong, d.shuffle);
    q := Some(Question(s.op, Shown(s, d.numbers), answer, options));
  }

  /** The practice page. */
  class Practice {
    var settings: Settings
    var started: bool
    var question: Option<Question>
    var selected: Option<int>
    var score: nat
    var total: nat

    /** A question is shown exactly while practising, an option is selected only then, and the score never passes the total. */
    predicate Valid()
      reads this
    {
      && Allowed(settings)
      && score <= total
      && (started <==> question.Some?)
      && (selected.Some? ==> started)
    }

    constructor()
      ensures Valid()
      ensures settings == DefaultSettings && !started && question.None? && selected.None?
      ensures score == 0 && total == 0
    {
      settings := DefaultSettings;
      started := false;
      question := None;
      selected := None;
      score := 0;
      total := 0;
    }

    /** The setup form, shown only before practice starts, changes the settings. */
    method ChangeSettings(s: Settings)
      requires Valid() && !started && Allowed(s)
      modifies this
      ensures Valid()
      ensures settings == s
      ensures started == old(started) && question == old(question) && selected == old(selected)
      ensures score == old(score) && total == old(total)
    {
      settings := s;
    }

    /** `startPractice`: the score restarts and the first question is generated. */
    method Start(d: Draws)
      requires Valid() && Enough(settings, d)
      modifies this
      ensures Valid()
      ensures started && score == 0 && total == 0
      ensures question.Some? && question.value.answer == Answer(settings, d.numbers) && WellFormed(question.value)
      ensures settings == old(settings) && selected == old(selected)
    {
      var q := GenerateQuestion(settings, d);
      started := true;
      score := 0;
      total := 0;
      question := q;
    }

    /**
     * `handleSelect`: only the first choice on a question counts; it adds one to the total, and
     * one to the score when it is the answer.
     */
    method Select(option: int)
      requires Valid() && started
      modifies this
      ensures Valid()
      ensures old(selected).Some? ==> selected == old(selected) && score == old(score) && total == old(total)
      ensures old(selected).None? ==> selected == Some(option) && total == old(total) + 1
      ensures old(selected).None? ==> score == old(score) + (if option == question.value.answer then 1 else 0)
      ensures settings == old(settings) && started == old(started) && question == old(question)
    {
      if selected.Some? {
        return;
      }
      selected := Some(option);
      total := total + 1;
      if option == question.value.answer {
        score := score + 1;
      }
    }

    /** The delayed step after a choice: the next question, with nothing selected. */
    method Next(d: Draws)
      requires Valid() && Enough(settings, d)
      modifies this
      ensures Valid()
      ensures old(started) && old(selected).Some? ==>
        selected.None? && question.Some? && question.value.answer == Answer(settings, d.numbers) && WellFormed(question.value)
      ensures !(old(started) && old(selected).Some?) ==> question == old(question) && selected == old(selected)
      ensures settings == old(settings) && started == old(started) && score == old(score) && total == old(total)
    {
      if started && selected.Some? {
        var q := GenerateQuestion(settings, d);
        question := q;
        selected := None;
      }
    }

    /** `handleRestart`: back to the setup form; the score and total stay. */
    method Restart()
      requires Valid()
      modifies this
      ensures Valid()
      ensures !started && question.None? && selected.None?
      ensures settings == old(settings) && score == old(score) && total == old(total)
    {
      started := false;
      question := None;
      selected := None;
    }
  }
}
