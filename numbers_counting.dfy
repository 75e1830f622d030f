/**
 * The four year 2 "numbers and counting" challenges: put five numbers in ascending (1) or
 * descending (2) order by dragging, and fill the blanks of a counting sequence in steps of one
 * (3) or of 2, 5 or 10 (4).
 */
module NumbersAndCounting {
  import opened Js
  import opened Drill

  datatype Feedback = Correct(step: Option<int>) | TryAgain

  // ---------------------------------------------------------------------------
  // Challenges 1 and 2: ordering by drag and drop
  // ---------------------------------------------------------------------------

  /** The starting list: five numbers `Math.floor(Math.random() * 100) + 1`. */
  function InitialNumbers(rand: nat -> Unit): (ns: seq<int>)
    ensures |ns| == 5
    ensures forall i :: 0 <= i < 5 ==> 1 <= ns[i] <= 100
  {
    var ns := seq(5, i requires 0 <= i < 5 => RandomInt(rand(i), 1, 100));
    assert forall i :: 0 <= i < 5 ==> ns[i] == RandomInt(rand(i), 1, 100);
    ns
  }

  /** `numbers.every((num, i) => num === sorted[i])`, with `sorted` the list sorted by number. */
  predicate AllInPlace(numbers: seq<int>, descending: bool)
  {
    var sorted := Sort(numbers, descending);
    forall i :: 0 <= i < |numbers| ==> numbers[i] == sorted[i]
  }

  /** The check accepts exactly the lists already in the asked order. */
  lemma AllInPlaceIffOrdered(numbers: seq<int>, descending: bool)
    ensures AllInPlace(numbers, descending) <==> Ordered(numbers, descending)
  {
    SortedIffOrdered(numbers, descending);
    if AllInPlace(numbers, descending) {
      assert Sort(numbers, descending) == numbers;
    }
  }

  /** The ordering challenge: challenge 1 asks for ascending order, challenge 2 for descending. */
  class OrderChallenge {
    const descending: bool
    var numbers: seq<int>
    var feedback: Option<Feedback>
    /** Whether `onComplete` has been scheduled. */
    var completing: bool

    constructor(descending: bool, rand: nat -> Unit)
      ensures this.descending == descending
      ensures numbers == InitialNumbers(rand) && feedback.None? && !completing
    {
      this.descending := descending;
      numbers := InitialNumbers(rand);
      feedback := None;
      completing := false;
    }

    /**
     * The end of a drag: without a destination nothing changes; otherwise the number at the
     * source index moves to the destination index.
     */
    method DragEnd(source: nat, destination: Option<nat>)
      requires source < |numbers| && (destination.Some? ==> destination.value < |numbers|)
      modifies this
      ensures destination.None? ==> numbers == old(numbers)
      ensures destination.Some? ==> numbers == Move(old(numbers), source, destination.value)
      ensures multiset(numbers) == multiset(old(numbers))
      ensures feedback == old(feedback) && completing == old(completing)
    {
      if destination.None? {
        return;
      }
      numbers := Move(numbers, source, destination.value);
    }

    /** Submit: praise and schedule `onComplete` when the list is in order, otherwise ask again. */
    method Submit()
      modifies this
      ensures Ordered(numbers, descending) ==> feedback == Some(Correct(None)) && completing
      ensures !Ordered(numbers, descending) ==> feedback == Some(TryAgain) && completing == old(completing)
      ensures numbers == old(numbers)
    {
      AllInPlaceIffOrdered(numbers, descending);
      if AllInPlace(numbers, descending) {
        feedback := Some(Correct(None));
        completing := true;
      } else {
        feedback := Some(TryAgain);
      }
    }
  }

  // ---------------------------------------------------------------------------
  // Challenges 3 and 4: fill in the blanks
  // ---------------------------------------------------------------------------

  /** Challenge 3's first number, `Math.floor(Math.random() * 100)`. */
  function StartThree(r: Unit): (n: int)
    ensures 0 <= n <= 99
  {
    RandomInt(r, 0, 100)
  }

  /** Challenge 4's first number, `Math.floor(Math.random() * 50) + 1`. */
  function StartFour(r: Unit): (n: int)
    ensures 1 <= n <= 50
  {
    RandomInt(r, 1, 50)
  }

  /** Challenge 4's step, `[2, 5, 10][Math.floor(Math.random() * 3)]`. */
  function StepFour(r: Unit): (step: int)
    ensures step == 2 || step == 5 || step == 10
  {
    [2, 5, 10][RandomIndex(r, 3)]
  }

  /** A rearrangement of the indices 0 to `n - 1`. */
  predicate IsIndexPermutation(perm: seq<int>, n: nat)
  {
    |perm| == n && Distinct(perm) && forall i :: 0 <= i < n ==> 0 <= perm[i] < n
  }

  /**
   * The blanks: the first 3 to 5 indices (`Math.floor(Math.random() * 3) + 3`) of the shuffled
   * indices `perm`, in ascending order.
   */
  function MissingIndices(perm: seq<int>, r: Unit): (m: seq<int>)
    requires IsIndexPermutation(perm, 10)
    ensures 3 <= |m| <= 5
    ensures forall i :: 0 <= i < |m| ==> 0 <= m[i] < 10
    ensures forall i, j :: 0 <= i < j < |m| ==> m[i] < m[j]
    ensures multiset(m) == multiset(perm[..|m|])
  {
    var k := RandomInt(r, 3, 3);
    var m := Sort(perm[..k], false);
    assert Distinct(perm[..k]);
    DistinctPermutation(m, perm[..k]);
    OrderedDistinctIncreasing(m);
    forall i | 0 <= i < |m|
      ensures 0 <= m[i] < 10
    {
      assert m[i] in multiset(perm[..k]);
    }
    m
  }

  /**
   * The check of a filled-in sequence: every blank holds the decimal string of its number, and
   * the answers have as many entries as there are blanks.
   */
  predicate AllFilledIn(sequence: seq<int>, missing: seq<int>, answers: map<int, string>)
  {
    && (forall i :: i in missing ==> 0 <= i < |sequence| && i in answers && answers[i] == IntToString(sequence[i]))
    && |answers.Keys| == |missing|
  }

  /** Typing the numbers of the blanks, and nothing else, passes the check. */
  lemma ExactAnswersAccepted(sequence: seq<int>, missing: seq<int>)
    requires forall i :: i in missing ==> 0 <= i < |sequence|
    requires Distinct(missing)
    ensures AllFilledIn(sequence, missing, map i | i in missing :: IntToString(sequence[i]))
  {
    var answers := map i | i in missing :: IntToString(sequence[i]);
    assert answers.Keys == set i | i in missing;
    DistinctCardinality(missing);
  }

  /** Whatever passes the check gives every blank the string `Number` reads back as its number. */
  lemma AcceptedAnswersHaveTheValues(sequence: seq<int>, missing: seq<int>, answers: map<int, string>, i: int)
    requires AllFilledIn(sequence, missing, answers)
    requires i in missing
    ensures i in answers && NumberValue(answers[i]) == Some(sequence[i])
  {
    NumberValueOfIntToString(sequence[i]);
  }

  /** The check compares strings: a leading zero fails even though the number is right. */
  lemma LeadingZeroRejected(sequence: seq<int>, missing: seq<int>, answers: map<int, string>, i: int)
    requires i in missing && 0 <= i < |sequence| && sequence[i] >= 0
    requires i in answers && answers[i] == "0" + IntToString(sequence[i])
    ensures !AllFilledIn(sequence, missing, answers)
  {
    var s := IntToString(sequence[i]);
    if sequence[i] == 0 {
      assert |answers[i]| == 2;
    } else {
      assert answers[i][0] == '0';
    }
  }

  /** The fill-in challenge: the sequence and blanks are fixed when it appears. */
  class FillInChallenge {
    const sequence: seq<int>
    const missing: seq<int>
    /** The step shown in the success message (challenge 4), or none (challenge 3). */
    const step: Option<int>
    var answers: map<int, string>
    var feedback: Option<Feedback>
    var completing: bool

    /** Challenge 3: ten consecutive numbers. */
    constructor Three(startDraw: Unit, perm: seq<int>, countDraw: Unit)
      requires IsIndexPermutation(perm, 10)
      ensures sequence == Stepped(StartThree(startDraw), 1, 10) && missing == MissingIndices(perm, countDraw)
      ensures step.None? && answers == map[] && feedback.None? && !completing
    {
      sequence := Stepped(StartThree(startDraw), 1, 10);
      missing := MissingIndices(perm, countDraw);
      step := None;
      answers := map[];
      feedback := None;
      completing := false;
    }

    /** Challenge 4: ten numbers in steps of 2, 5 or 10. */
    constructor Four(startDraw: Unit, stepDraw: Unit, perm: seq<int>, countDraw: Unit)
      requires IsIndexPermutation(perm, 10)
      ensures sequence == Stepped(StartFour(startDraw), StepFour(stepDraw), 10)
      ensures missing == MissingIndices(perm, countDraw)
      ensures step == Some(StepFour(stepDraw)) && answers == map[] && feedback.None? && !completing
    {
      sequence := Stepped(StartFour(startDraw), StepFour(stepDraw), 10);
      missing := MissingIndices(perm, countDraw);
      step := Some(StepFour(stepDraw));
      answers := map[];
      feedback := None;
      completing := false;
    }

    /** Typing in the blank at `index`: only the digits are kept. */
    method Change(index: int, value: string)
      modifies this
      ensures answers == old(answers)[index := DigitsOnly(value)]
      ensures AllDigits(answers[index])
      ensures feedback == old(feedback) && completing == old(completing)
    {
      answers := answers[index := DigitsOnly(value)];
    }

    method Submit()
      modifies this
      ensures AllFilledIn(sequence, missing, answers) ==> feedback == Some(Correct(step)) && completing
      ensures !AllFilledIn(sequence, missing, answers) ==> feedback == Some(TryAgain) && completing == old(completing)
      ensures answers == old(answers)
    {
      if AllFilledIn(sequence, missing, answers) {
        feedback := Some(Correct(step));
        completing := true;
      } else {
        feedback := Some(TryAgain);
      }
    }
  }
}
