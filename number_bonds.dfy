/**
 * Number bonds: find pairs of cards that add up to a target (match mode), or type the number that
 * completes a sum (practice mode).
 */
module NumberBonds {
  import opened Js
  import opened Drill
  import opened Shuffle
  import opened Memory

  /**
   * The pairs `[n, target - n]` for `n` from 1 to `limit`, kept when `n < target` and
   * `n <= target - n`, in increasing order of `n`.
   */
  function PairsUpTo(target: int, limit: nat): (ps: seq<Pair<int>>)
    ensures forall p :: p in ps <==> 1 <= p.a <= p.b && p.a + p.b == target && p.a <= limit
    ensures forall i, j :: 0 <= i < j < |ps| ==> ps[i].a < ps[j].a
    ensures target >= 1 ==> |ps| == Min(limit, target / 2)
  {
    if limit == 0 then []
    else
      var rest := PairsUpTo(target, limit - 1);
      if limit < target && limit <= target - limit then rest + [Pair(limit, target - limit)] else rest
  }

  /** `generateCards`' candidate pairs: every way to write the target as `a + b` with `1 <= a <= b`. */
  function CandidatePairs(target: nat): (ps: seq<Pair<int>>)
    ensures forall p :: p in ps <==> 1 <= p.a <= p.b && p.a + p.b == target
    ensures Distinct(ps)
    ensures target >= 1 ==> |ps| == target / 2
  {
    PairsUpTo(target, target)
  }

  /** Every card adds up to the target with its pair, and the card holding its pair is there too. */
  predicate Matchable(cs: seq<Card<int>>, target: int)
  {
    forall c :: c in cs ==> c.value + c.pair == target && 1 <= c.value < target && HasPartner(cs, c)
  }

  /** The two cards of the `k`-th pair are each other's partners. */
  lemma PairCards(pairs: seq<Pair<int>>, target: int, k: nat)
    requires k < |pairs| && 1 <= pairs[k].a <= pairs[k].b && pairs[k].a + pairs[k].b == target
    ensures var cs := CardsOf(pairs);
      HasPartner(cs, cs[2 * k]) && HasPartner(cs, cs[2 * k + 1])
      && cs[2 * k].value + cs[2 * k].pair == target && 1 <= cs[2 * k].value < target
      && cs[2 * k + 1].value + cs[2 * k + 1].pair == target && 1 <= cs[2 * k + 1].value < target
  {
    var cs := CardsOf(pairs);
    assert cs[2 * k + 1] in cs && cs[2 * k] in cs;
  }

  lemma CardsMatchable(pairs: seq<Pair<int>>, target: int)
    requires forall p :: p in pairs ==> 1 <= p.a <= p.b && p.a + p.b == target
    ensures Matchable(CardsOf(pairs), target)
  {
    var cs := CardsOf(pairs);
    forall c | c in cs
      ensures c.value + c.pair == target && 1 <= c.value < target && HasPartner(cs, c)
    {
      var i :| 0 <= i < |cs| && cs[i] == c;
      var k := CardAt(pairs, i);
      assert pairs[k] in pairs;
      PairCards(pairs, target, k);
    }
  }

  /**
   * `generateCards`: shuffle the candidate pairs, keep the first six, make two cards of each and
   * shuffle the cards. `pairShuffle` and `cardShuffle` feed the two shuffles.
   */
  method GenerateCards(target: nat, pairShuffle: nat -> Unit, cardShuffle: nat -> Unit) returns (cards: seq<Card<int>>)
    requires target >= 2
    ensures |cards| == 2 * Min(6, target / 2)
    ensures UniqueIds(cards) && Matchable(cards, target)
  {
    var pairs := CandidatePairs(target);
    var shuffled := ShuffleArray(pairs, pairShuffle);
    var selected := shuffled[..Min(6, |shuffled|)];
    forall p | p in selected
      ensures 1 <= p.a <= p.b && p.a + p.b == target
    {
      assert p in multiset(shuffled);
      assert p in multiset(pairs);
    }
    assert shuffled == selected + shuffled[|selected|..];
    var made := CardsOf(selected);
    CardsMatchable(selected, target);
    cards := ShuffleArray(made, cardShuffle);
    UniqueIdsPermutation(cards, made);
    MatchablePermutation(cards, made, target);
  }

  lemma MatchablePermutation(cs: seq<Card<int>>, ds: seq<Card<int>>, target: int)
    requires multiset(cs) == multiset(ds) && Matchable(ds, target)
    ensures Matchable(cs, target)
  {
    forall c | c in cs
      ensures c.value + c.pair == target && 1 <= c.value < target && HasPartner(cs, c)
    {
      assert c in multiset(ds);
      assert HasPartner(ds, c);
      var d :| d in ds && d.id != c.id && d.value == c.pair && d.pair == c.value;
      assert d in multiset(cs);
    }
  }

  // ---------------------------------------------------------------------------
  // Practice mode
  // ---------------------------------------------------------------------------

  datatype Question = Question(a: int, correct: int)

  /** `a` from 1 to `target - 1`, and the number that completes the bond. */
  function MakeQuestion(target: int, r: Unit): (q: Question)
    requires target >= 2
    ensures 1 <= q.a <= target - 1 && 1 <= q.correct <= target - 1
    ensures q.a + q.correct == target
  {
    var a := RandomInt(r, 1, target - 1);
    Question(a, target - a)
  }

  /** The practice check: `parseInt(answer) === question.correct`. */
  predicate AnswerRight(answer: string, q: Question)
  {
    ParseInt(answer) == Some(q.correct)
  }

  /** Typing the missing number is accepted; typing nothing is not. */
  lemma TypedAnswerAccepted(q: Question)
    requires q.correct >= 0
    ensures AnswerRight(NatToString(q.correct), q)
    ensures !AnswerRight("", q)
  {
    ParseIntUnsigned(NatToString(q.correct));
    NatToStringRoundTrip(q.correct);
    ParseIntOfNatToString(q.correct, "");
    assert NatToString(q.correct) + "" == NatToString(q.correct);
  }

  /** A custom target: taken when `parseInt` reads a number above 1. */
  function CustomTarget(text: string): (t: Option<nat>)
    ensures t.Some? <==> ParseInt(text).Some? && ParseInt(text).value > 1
    ensures t.Some? ==> t.value as int == ParseInt(text).value
  {
    match ParseInt(text)
    case Some(v) => if v > 1 then Some(v) else None
    case None => None
  }

  /**
   * Typing a whole number into the custom field sets it as the target exactly when it is above
   * 1; an empty field sets nothing.
   */
  lemma TypedTargetTaken(n: nat)
    ensures CustomTarget(NatToString(n)) == if n > 1 then Some(n) else None
    ensures CustomTarget("").None?
  {
    ParseIntOfNatToString(n, "");
    assert NatToString(n) + "" == NatToString(n);
  }

  // ---------------------------------------------------------------------------
  // The page
  // ---------------------------------------------------------------------------

  datatype Mode = Match | Practice

  datatype Feedback = Right | Wrong | Done

  class BondsGame {
    var target: nat
    var isCustom: bool
    var mode: Mode
    var cards: seq<Card<int>>
    var flipped: seq<nat>
    var matched: seq<nat>
    var tries: nat
    var matches: nat
    var feedback: Option<Feedback>
    var question: Option<Question>
    var answer: string
    var practiceFeedback: Option<bool>

    /**
     * At most two cards face up, none of them matched; matched cards are real cards, each once,
     * two per match.
     */
    predicate Valid()
      reads this
    {
      && target >= 2
      && UniqueIds(cards)
      && Table(cards, flipped, matched, matches)
    }

    /** The page opens in match mode on target 10. */
    constructor(pairShuffle: nat -> Unit, cardShuffle: nat -> Unit)
      ensures Valid()
      ensures target == 10 && !isCustom && mode == Match
      ensures |cards| == 10 && Matchable(cards, 10)
      ensures flipped == [] && matched == [] && tries == 0 && matches == 0 && feedback.None?
      ensures question.None? && answer == "" && practiceFeedback.None?
    {
      var first := GenerateCards(10, pairShuffle, cardShuffle);
      target := 10;
      isCustom := false;
      mode := Match;
      cards := first;
      flipped := [];
      matched := [];
      tries := 0;
      matches := 0;
      feedback := None;
      question := None;
      answer := "";
      practiceFeedback := None;
    }

    /** `handleFlip`: ignored with two cards up or a card already up or matched; otherwise the card turns up. */
    method Flip(id: nat)
      requires Valid() && id in Ids(cards)
      modifies this
      ensures Valid()
      ensures |old(flipped)| == 2 || id in old(flipped) || id in old(matched) ==> flipped == old(flipped)
      ensures !(|old(flipped)| == 2 || id in old(flipped) || id in old(matched)) ==> flipped == old(flipped) + [id]
      ensures cards == old(cards) && matched == old(matched) && tries == old(tries) && matches == old(matches)
      ensures target == old(target) && mode == old(mode) && feedback == old(feedback) && question == old(question)
    {
      if |flipped| == 2 || id in flipped || id in matched {
        return;
      }
      FlipStep(cards, flipped, matched, matches, id);
      flipped := flipped + [id];
    }

    /**
     * Two cards up in match mode: one more try; when they add up to the target both are matched
     * and turn back at once, otherwise they stay up until `TurnBack`.
     */
    method Evaluate()
      requires Valid() && mode == Match && |flipped| == 2
      modifies this
      ensures Valid()
      ensures tries == old(tries) + 1
      ensures var first, second := Find(cards, old(flipped)[0]), Find(cards, old(flipped)[1]);
        first.Some? && second.Some? &&
        if first.value.value + second.value.value == target then
          matched == old(matched) + [first.value.id, second.value.id] && matches == old(matches) + 1
          && feedback == Some(Right) && flipped == []
        else
          matched == old(matched) && matches == old(matches) && feedback == Some(Wrong) && flipped == old(flipped)
      ensures cards == old(cards) && target == old(target) && mode == old(mode) && question == old(question)
    {
      var first, second := Find(cards, flipped[0]), Find(cards, flipped[1]);
      FoundById(cards, flipped[0]);
      FoundById(cards, flipped[1]);
      tries := tries + 1;
      if first.Some? && second.Some? && first.value.value + second.value.value == target {
        MatchStep(cards, flipped, matched, matches);
        assert [first.value.id, second.value.id] == flipped;
        matched := matched + [first.value.id, second.value.id];
        matches := matches + 1;
        feedback := Some(Right);
        flipped := [];
      } else {
        feedback := Some(Wrong);
      }
    }

    /** The delayed step after a wrong pair: both cards turn back. */
    method TurnBack()
      requires Valid()
      modifies this
      ensures Valid()
      ensures flipped == []
      ensures cards == old(cards) && matched == old(matched) && tries == old(tries) && matches == old(matches)
      ensures target == old(target) && mode == old(mode) && feedback == old(feedback) && question == old(question)
    {
      flipped := [];
    }

    /** The delayed step that clears the feedback. */
    method ClearFeedback()
      requires Valid()
      modifies this
      ensures Valid()
      ensures feedback.None?
      ensures cards == old(cards) && flipped == old(flipped) && matched == old(matched)
      ensures tries == old(tries) && matches == old(matches) && target == old(target) && mode == old(mode)
    {
      feedback := None;
    }

    /** The round is over when every card is matched: `matched.length && matched.length === cards.length`. */
    predicate Complete()
      reads this
    {
      |matched| > 0 && |matched| == |cards|
    }

    /**
     * Fresh cards for the target, nothing up, nothing matched, counters at zero: the reset after a
     * change of target or mode, and the delayed new round after a completed one.
     */
    method NewRound(pairShuffle: nat -> Unit, cardShuffle: nat -> Unit)
      requires Valid()
      modifies this
      ensures Valid()
      ensures |cards| == 2 * Min(6, target / 2) && Matchable(cards, target)
      ensures flipped == [] && matched == [] && tries == 0 && matches == 0 && feedback.None?
      ensures target == old(target) && mode == old(mode) && question == old(question)
    {
      cards := GenerateCards(target, pairShuffle, cardShuffle);
      flipped := [];
      matched := [];
      tries := 0;
      matches := 0;
      feedback := None;
    }

    /**
     * A preset target from the select; choosing "custom" only shows the input. The reset that
     * follows a change of target or mode is `NewRound` in match mode and `NewQuestion` in practice.
     */
    method SelectTarget(preset: Option<nat>)
      requires Valid() && (preset.Some? ==> preset.value in {5, 10, 20})
      modifies this
      ensures Valid()
      ensures preset.None? ==> isCustom && target == old(target)
      ensures preset.Some? ==> !isCustom && target == preset.value
      ensures cards == old(cards) && flipped == old(flipped) && matched == old(matched) && mode == old(mode)
      ensures question == old(question)
    {
      if preset.None? {
        isCustom := true;
      } else {
        isCustom := false;
        target := preset.value;
      }
    }

    /** The custom input: a new target only when it reads as a number above 1. */
    method TypeCustomTarget(text: string)
      requires Valid()
      modifies this
      ensures Valid()
      ensures CustomTarget(text).Some? ==> target == CustomTarget(text).value
      ensures CustomTarget(text).None? ==> target == old(target)
      ensures cards == old(cards) && flipped == old(flipped) && matched == old(matched) && mode == old(mode)
      ensures question == old(question) && isCustom == old(isCustom)
    {
      var t := CustomTarget(text);
      if t.Some? {
        target := t.value;
      }
    }

    method SelectMode(m: Mode)
      requires Valid()
      modifies this
      ensures Valid()
      ensures mode == m
      ensures target == old(target) && cards == old(cards) && flipped == old(flipped) && matched == old(matched)
    {
      mode := m;
    }

    /** The practice question: `a` and its bond, an empty answer and no feedback. */
    method NewQuestion(r: Unit)
      requires Valid()
      modifies this
      ensures Valid()
      ensures question == Some(MakeQuestion(target, r)) && answer == "" && practiceFeedback.None?
      ensures target == old(target) && mode == old(mode) && cards == old(cards) && matched == old(matched)
    {
      question := Some(MakeQuestion(target, r));
      answer := "";
      practiceFeedback := None;
    }

    method TypeAnswer(text: string)
      requires Valid()
      modifies this
      ensures Valid()
      ensures answer == text
      ensures question == old(question) && practiceFeedback == old(practiceFeedback) && target == old(target)
    {
      answer := text;
    }

    /** `handleSubmit`: right exactly when the answer reads as the missing number. */
    method Submit()
      requires Valid() && question.Some?
      modifies this
      ensures Valid()
      ensures practiceFeedback == Some(AnswerRight(answer, old(question).value))
      ensures question == old(question) && answer == old(answer) && target == old(target)
    {
      practiceFeedback := Some(AnswerRight(answer, question.value));
    }
  }

  /** With unique-id cards, a completed round has every card matched. */
  lemma CompleteMeansAllMatched(g: BondsGame)
    requires g.Valid() && g.Complete()
    ensures forall k :: 0 <= k < |g.cards| ==> g.cards[k].id in g.matched
  {
    AllMatched(g.cards, g.matched);
  }
}
