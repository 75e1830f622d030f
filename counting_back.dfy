/**
 * The four year 2 "counting forwards and backwards" challenges: six count-backs from 27 (1), ten
 * word problems with three options each (2), and ten counting sequences, upwards (3) or
 * downwards (4), with three blanks each.
 */
module CountingBack {
  import opened Js
  import opened Drill
  import NumbersAndCounting
  import Distractors

  datatype Feedback = Correct | TryAgain

  // ---------------------------------------------------------------------------
  // Challenge 1: counting back from 27
  // ---------------------------------------------------------------------------

  const StartNumber: int := 27
  const CountBacks: seq<int> := [6, 9, 10, 13, 16, 11]

  /** `countBacks.map((n) => startNumber - n)`. */
  function CorrectAnswers(): (r: seq<int>)
    ensures |r| == |CountBacks|
    ensures forall i :: 0 <= i < |r| ==> r[i] + CountBacks[i] == StartNumber
  {
    seq(|CountBacks|, i requires 0 <= i < |CountBacks| => StartNumber - CountBacks[i])
  }

  /** The answers are 21, 18, 17, 14, 11 and 16, all on the number line 11 to 30 drawn beside the questions. */
  lemma CountBackAnswers()
    ensures CorrectAnswers() == [21, 18, 17, 14, 11, 16]
    ensures forall i :: 0 <= i < |CorrectAnswers()| ==> 11 <= CorrectAnswers()[i] <= 30
  {
    var r := CorrectAnswers();
    assert r[0] == 21 && r[1] == 18 && r[2] == 17 && r[3] == 14 && r[4] == 11 && r[5] == 16;
  }

  /** The six question positions, each of which holds a blank. */
  const Positions: seq<int> := [0, 1, 2, 3, 4, 5]

  class CountBackChallenge {
    var answers: map<int, string>
    var feedback: Option<Feedback>
    var completing: bool

    constructor()
      ensures answers == map[] && feedback.None? && !completing
    {
      answers := map[];
      feedback := None;
      completing := false;
    }

    /** Typing in the answer to question `index`: only the digits are kept. */
    method Change(index: int, value: string)
      modifies this
      ensures answers == old(answers)[index := DigitsOnly(value)]
      ensures AllDigits(answers[index])
      ensures feedback == old(feedback) && completing == old(completing)
    {
      answers := answers[index := DigitsOnly(value)];
    }

    /**
     * Submit: every answer must be the decimal string of its count-back, and all six must be
     * filled in; the check is the fill-in check of the sequence challenges, with every position blank.
     */
    method Submit()
      modifies this
      ensures NumbersAndCounting.AllFilledIn(CorrectAnswers(), Positions, answers) ==> feedback == Some(Correct) && completing
      ensures !NumbersAndCounting.AllFilledIn(CorrectAnswers(), Positions, answers) ==>
        feedback == Some(TryAgain) && completing == old(completing)
      ensures answers == old(answers)
    {
      if NumbersAndCounting.AllFilledIn(CorrectAnswers(), Positions, answers) {
        feedback := Some(Correct);
        completing := true;
      } else {
        feedback := Some(TryAgain);
      }
    }
  }

  /** Typing the six answers passes the check. */
  lemma CountBackAccepted()
    ensures NumbersAndCounting.AllFilledIn(CorrectAnswers(), Positions,
      map i | i in Positions :: IntToString(CorrectAnswers()[i]))
  {
    NumbersAndCounting.ExactAnswersAccepted(CorrectAnswers(), Positions);
  }

  // ---------------------------------------------------------------------------
  // Challenge 2: word problems
  // ---------------------------------------------------------------------------

  datatype Question = Question(answer: int, options: seq<int>)

  /** `QUESTIONS`, without the prompts. */
  const Questions: seq<Question> := [
    Question(21, [21, 19, 23]),
    Question(12, [13, 12, 10]),
    Question(19, [17, 19, 20]),
    Question(22, [22, 24, 18]),
    Question(7, [6, 7, 8]),
    Question(25, [28, 25, 23]),
    Question(15, [15, 14, 17]),
    Question(21, [20, 21, 22]),
    Question(13, [14, 13, 15]),
    Question(47, [45, 47, 49])
  ]

  /** There are ten questions, as the header's "/ 10" says, and every answer is one of its options. */
  lemma QuestionsWellFormed()
    ensures |Questions| == 10
    ensures forall i :: 0 <= i < |Questions| ==> Questions[i].answer in Questions[i].options
  {
  }

  class QuestionChallenge {
    var current: nat
    var selected: Option<int>
    var feedback: Option<Feedback>
    var locked: bool
    /** Whether the advance after a correct answer is scheduled. */
    var advancing: bool
    /** Whether `onComplete` has run. */
    var completed: bool

    /** The question index stays in range, and a scheduled advance keeps the answer locked. */
    predicate Valid()
      reads this
    {
      current < |Questions| && (advancing ==> locked)
    }

    constructor()
      ensures Valid()
      ensures current == 0 && selected.None? && feedback.None? && !locked && !advancing && !completed
    {
      current := 0;
      selected := None;
      feedback := None;
      locked := false;
      advancing := false;
      completed := false;
    }

    /** Clicking an option; the buttons are disabled while the answer is locked. */
    method Select(option: int)
      requires Valid()
      modifies this
      ensures Valid()
      ensures selected == if old(locked) then old(selected) else Some(option)
      ensures current == old(current) && feedback == old(feedback) && locked == old(locked)
      ensures advancing == old(advancing) && completed == old(completed)
    {
      if !locked {
        selected := Some(option);
      }
    }

    /**
     * Submitting: nothing without a selection (or while locked, when the button is disabled); a
     * right answer locks and schedules the advance; a wrong one only changes the feedback.
     */
    method Submit()
      requires Valid()
      modifies this
      ensures Valid()
      ensures old(locked) || old(selected).None? ==>
        feedback == old(feedback) && locked == old(locked) && advancing == old(advancing)
      ensures !old(locked) && old(selected).Some? && old(selected).value == Questions[current].answer ==>
        feedback == Some(Correct) && locked && advancing
      ensures !old(locked) && old(selected).Some? && old(selected).value != Questions[current].answer ==>
        feedback == Some(TryAgain) && locked == old(locked) && advancing == old(advancing)
      ensures current == old(current) && selected == old(selected) && completed == old(completed)
    {
      if locked || selected.None? {
        return;
      }
      if selected.value == Questions[current].answer {
        feedback := Some(Correct);
        locked := true;
        advancing := true;
      } else {
        feedback := Some(TryAgain);
      }
    }

    /** The scheduled advance: the next question, cleared and unlocked, or `onComplete` after the last. */
    method Advance()
      requires Valid()
      modifies this
      ensures Valid()
      ensures !old(advancing) ==>
        current == old(current) && selected == old(selected) && feedback == old(feedback)
        && locked == old(locked) && completed == old(completed)
      ensures old(advancing) && old(current) + 1 < |Questions| ==>
        current == old(current) + 1 && selected.None? && feedback.None? && !locked && completed == old(completed)
      ensures old(advancing) && old(current) + 1 == |Questions| ==>
        current == old(current) && locked && completed
      ensures !advancing
    {
      if !advancing {
        return;
      }
      advancing := false;
      if current + 1 < |Questions| {
        current := current + 1;
        selected := None;
        feedback := None;
        locked := false;
      } else {
        completed := true;
      }
    }
  }

  // ---------------------------------------------------------------------------
  // Challenges 3 and 4: sequences with three blanks
  // ---------------------------------------------------------------------------

  datatype Pattern = Pattern(start: int, step: int, length: nat)

  datatype Item = Item(value: int, missing: bool)

  /** `SEQUENCES` of the upward challenge. */
  const Upward: seq<Pattern> := [
    Pattern(1, 1, 10), Pattern(2, 2, 10), Pattern(3, 3, 8), Pattern(4, 4, 7), Pattern(5, 5, 6),
    Pattern(10, 10, 7), Pattern(7, 2, 9), Pattern(15, 3, 8), Pattern(20, 5, 7), Pattern(50, 10, 6)
  ]

  /** `SEQUENCES` of the downward challenge. */
  const Downward: seq<Pattern> := [
    Pattern(20, 1, 10), Pattern(30, 2, 10), Pattern(25, 3, 8), Pattern(40, 4, 7), Pattern(50, 5, 6),
    Pattern(70, 10, 7), Pattern(15, 2, 9), Pattern(45, 3, 8), Pattern(60, 5, 7), Pattern(100, 10, 6)
  ]

  function Patterns(descending: bool): seq<Pattern>
  {
    if descending then Downward else Upward
  }

  /** The number at position `i`: `start + i * step` upwards, `start - i * step` downwards. */
  function ValueAt(p: Pattern, i: int, descending: bool): int
  {
    if descending then p.start - i * p.step else p.start + i * p.step
  }

  /** Every pattern has ten entries of at least three numbers, so three blanks can always be chosen. */
  lemma PatternsLongEnough(descending: bool)
    ensures |Patterns(descending)| == 10
    ensures forall i :: 0 <= i < 10 ==> Patterns(descending)[i].length >= 3
  {
  }

  /** Counting down, only the pattern 15, 13, …, -1 goes below zero; every other number shown is positive. */
  lemma DownwardSigns()
    ensures ValueAt(Downward[6], Downward[6].length - 1, true) == -1
    ensures forall k, i :: 0 <= k < 10 && k != 6 && 0 <= i < Downward[k].length ==> ValueAt(Downward[k], i, true) > 0
  {
    forall k, i | 0 <= k < 10 && k != 6 && 0 <= i < Downward[k].length
      ensures ValueAt(Downward[k], i, true) > 0
    {
      var p := Downward[k];
      assert p.start > (p.length - 1) * p.step by {
        assert k == 0 || k == 1 || k == 2 || k == 3 || k == 4 || k == 5 || k == 7 || k == 8 || k == 9;
      }
      assert i * p.step <= (p.length - 1) * p.step;
    }
  }

  /** The positions marked as blanks. */
  function Blanks(items: seq<Item>): set<int>
  {
    set i | 0 <= i < |items| && items[i].missing
  }

  /** What `generateSequence` can return for a pattern: its numbers, with exactly three of them blank. */
  predicate Generated(items: seq<Item>, p: Pattern, descending: bool)
  {
    && |items| == p.length
    && (forall i :: 0 <= i < |items| ==> items[i].value == ValueAt(p, i, descending))
    && |Blanks(items)| == 3
  }

  /** A set of indices below `n` has at most `n` members. */
  lemma {:induction false} IndexSetBound(s: set<int>, n: nat)
    requires forall i :: i in s ==> 0 <= i < n
    ensures |s| <= n
  {
    if n > 0 {
      IndexSetBound(s - {n - 1}, n - 1);
    } else {
      assert forall i :: i !in s;
      assert s == {};
    }
  }

  /** The position a draw blanks in a sequence of `n` numbers: `Math.floor(Math.random() * n)`. */
  function BlankIndex(n: nat, r: Unit): (i: nat)
    ensures i < if n == 0 then 1 else n
  {
    if n == 0 then 0 else RandomIndex(r, n)
  }

  /**
   * The blank positions `generateSequence`'s loop holds once it has used `draws`, starting from
   * `missing`: it stops as soon as three are blank, or when the draws run out.
   */
  function Blanked(n: nat, missing: set<int>, draws: seq<Unit>): (r: set<int>)
    ensures missing <= r
    ensures |missing| <= 3 ==> |r| <= 3
    ensures (forall i :: i in missing ==> 0 <= i < if n == 0 then 1 else n) ==>
      forall i :: i in r ==> 0 <= i < if n == 0 then 1 else n
    decreases |draws|
  {
    if |missing| >= 3 || |draws| == 0 then missing
    else Blanked(n, missing + {BlankIndex(n, draws[0])}, draws[1..])
  }

  /**
   * `generateSequence`: blank random positions until three distinct ones are blank. `draws` are
   * the values `Math.random()` returns; `None` means they ran out before the loop ended.
   */
  method GenerateSequence(p: Pattern, descending: bool, draws: seq<Unit>) returns (items: Option<seq<Item>>)
    ensures items.None? <==> |Blanked(p.length, {}, draws)| < 3
    ensures items.Some? ==> Generated(items.value, p, descending) && Blanks(items.value) == Blanked(p.length, {}, draws)
    ensures p.length < 3 ==> items.None?
  {
    var missing: set<int> := {};
    var k := 0;
    while |missing| < 3 && k < |draws|
      invariant 0 <= k <= |draws|
      invariant Blanked(p.length, missing, draws[k..]) == Blanked(p.length, {}, draws)
      invariant forall i :: i in missing ==> 0 <= i < if p.length == 0 then 1 else p.length
      decreases |draws| - k
    {
      assert draws[k..][1..] == draws[k + 1..];
      missing := missing + {BlankIndex(p.length, draws[k])};
      k := k + 1;
    }
    IndexSetBound(missing, if p.length == 0 then 1 else p.length);
    if |missing| < 3 {
      return None;
    }
    var r := seq(p.length, i requires 0 <= i < p.length => Item(ValueAt(p, i, descending), i in missing));
    assert Blanks(r) == missing;
    return Some(r);
  }

  /** One pass of the loop: the draw `d` blanks its position. */
  lemma BlankedStep(n: nat, missing: set<int>, d: Unit, rest: seq<Unit>)
    requires |missing| < 3
    ensures Blanked(n, missing, [d] + rest) == Blanked(n, missing + {BlankIndex(n, d)}, rest)
  {
    assert ([d] + rest)[1..] == rest;
  }

  /** The draw that blanks position `i`. */
  lemma DrawBlanks(n: nat, i: nat) returns (d: Unit)
    requires i < n
    ensures BlankIndex(n, d) == i
  {
    d := Distractors.DrawFor(i, n);
  }

  /** With at least three numbers, the draws for positions 0, 1 and 2 end the loop. */
  lemma SequenceFinishes(n: nat) returns (draws: seq<Unit>)
    requires n >= 3
    ensures Blanked(n, {}, draws) == {0, 1, 2}
  {
    var d0 := DrawBlanks(n, 0);
    var d1 := DrawBlanks(n, 1);
    var d2 := DrawBlanks(n, 2);
    draws := [d0] + ([d1] + ([d2] + []));
    var s0: set<int>, s1: set<int>, s2: set<int> := {0}, {0, 1}, {0, 1, 2};
    assert |s0| == 1 && |s1| == 2 && |s2| == 3;
    BlankedStep(n, {}, d0, [d1] + ([d2] + []));
    assert {} + {BlankIndex(n, d0)} == s0;
    BlankedStep(n, s0, d1, [d2] + []);
    assert s0 + {BlankIndex(n, d1)} == s1;
    BlankedStep(n, s1, d2, []);
    assert s1 + {BlankIndex(n, d2)} == s2;
  }

  /** With fewer than three numbers at most that many positions can be blank, so the loop never ends. */
  lemma SequenceStuck(n: nat, draws: seq<Unit>)
    requires n < 3
    ensures |Blanked(n, {}, draws)| < 3
  {
    IndexSetBound(Blanked(n, {}, draws), if n == 0 then 1 else n);
  }

  /** The loop can end exactly when the pattern has at least three numbers. */
  lemma SequenceEndsIff(n: nat)
    ensures (exists draws :: |Blanked(n, {}, draws)| == 3) <==> n >= 3
  {
    if n >= 3 {
      var draws := SequenceFinishes(n);
      assert |Blanked(n, {}, draws)| == 3;
    } else {
      forall draws
        ensures |Blanked(n, {}, draws)| < 3
      {
        SequenceStuck(n, draws);
      }
    }
  }

  /** `handleSubmit`'s check: every blank's input, read with `Number`, is its number; an untouched blank fails. */
  method CheckAnswers(items: seq<Item>, inputs: map<int, string>) returns (correct: bool)
    ensures correct <==> forall i :: 0 <= i < |items| && items[i].missing ==>
      i in inputs && NumberValue(inputs[i]) == Some(items[i].value)
  {
    correct := true;
    var idx := 0;
    while idx < |items|
      invariant 0 <= idx <= |items|
      invariant correct <==> forall i :: 0 <= i < idx && items[i].missing ==>
        i in inputs && NumberValue(inputs[i]) == Some(items[i].value)
    {
      if items[idx].missing && (idx !in inputs || NumberValue(inputs[idx]) != Some(items[idx].value)) {
        correct := false;
      }
      idx := idx + 1;
    }
  }

  /** Typing each blank's number passes the check. */
  lemma TypedValuesAccepted(items: seq<Item>, inputs: map<int, string>)
    requires forall i :: 0 <= i < |items| && items[i].missing ==> i in inputs && inputs[i] == IntToString(items[i].value)
    ensures forall i :: 0 <= i < |items| && items[i].missing ==> i in inputs && NumberValue(inputs[i]) == Some(items[i].value)
  {
    forall i | 0 <= i < |items| && items[i].missing
      ensures NumberValue(inputs[i]) == Some(items[i].value)
    {
      NumberValueOfIntToString(items[i].value);
    }
  }

  class SequenceChallenge {
    const descending: bool
    var current: nat
    var items: seq<Item>
    var inputs: map<int, string>
    var feedback: Option<Feedback>
    var advancing: bool
    var completed: bool

    predicate Valid()
      reads this
    {
      current < 10 && Generated(items, Patterns(descending)[current], descending)
    }

    /** The first pattern, with its blanks already chosen. */
    constructor(descending: bool, first: seq<Item>)
      requires Generated(first, Patterns(descending)[0], descending)
      ensures Valid() && this.descending == descending
      ensures current == 0 && items == first && inputs == map[] && feedback.None? && !advancing && !completed
    {
      this.descending := descending;
      current := 0;
      items := first;
      inputs := map[];
      feedback := None;
      advancing := false;
      completed := false;
    }

    method Change(idx: int, value: string)
      requires Valid()
      modifies this
      ensures Valid()
      ensures inputs == old(inputs)[idx := value]
      ensures current == old(current) && items == old(items) && feedback == old(feedback)
      ensures advancing == old(advancing) && completed == old(completed)
    {
      inputs := inputs[idx := value];
    }

    /** Submit: a right set of answers schedules the advance; a wrong one changes only the feedback. */
    method Submit()
      requires Valid()
      modifies this
      ensures Valid()
      ensures (forall i :: 0 <= i < |items| && items[i].missing ==> i in inputs && NumberValue(inputs[i]) == Some(items[i].value)) ==>
        feedback == Some(Correct) && advancing
      ensures !(forall i :: 0 <= i < |items| && items[i].missing ==> i in inputs && NumberValue(inputs[i]) == Some(items[i].value)) ==>
        feedback == Some(TryAgain) && advancing == old(advancing)
      ensures current == old(current) && items == old(items) && inputs == old(inputs) && completed == old(completed)
    {
      var correct := CheckAnswers(items, inputs);
      if correct {
        feedback := Some(Correct);
        advancing := true;
      } else {
        feedback := Some(TryAgain);
      }
    }

    /**
     * The scheduled advance: the next pattern with cleared inputs, its blanks chosen anew by the
     * effect that watches `current`; or `onComplete` after the tenth.
     */
    method Advance(next: seq<Item>)
      requires Valid()
      requires current + 1 < 10 ==> Generated(next, Patterns(descending)[current + 1], descending)
      modifies this
      ensures Valid()
      ensures !old(advancing) ==>
        current == old(current) && items == old(items) && inputs == old(inputs) && feedback == old(feedback)
        && completed == old(completed)
      ensures old(advancing) && old(current) + 1 < 10 ==>
        current == old(current) + 1 && items == next && inputs == map[] && feedback.None? && completed == old(completed)
      ensures old(advancing) && old(current) + 1 == 10 ==> current == old(current) && completed
      ensures !advancing
    {
      if !advancing {
        return;
      }
      advancing := false;
      if current + 1 < 10 {
        current := current + 1;
        inputs := map[];
        feedback := None;
        items := next;
      } else {
        completed := true;
      }
    }
  }
}
