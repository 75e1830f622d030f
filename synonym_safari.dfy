/**
 * Synonym safari: a memory game whose cards are words; two face-up cards match when they are
 * synonyms. The number of pairs follows the difficulty.
 */
module SynonymSafari {
  import opened Js
  import opened Drill
  import opened Shuffle
  import opened Memory

  const SynonymPairs: seq<Pair<string>> := [
    Pair("happy", "glad"), Pair("fast", "quick"), Pair("small", "tiny"), Pair("big", "large"),
    Pair("smart", "clever"), Pair("angry", "mad"), Pair("begin", "start"), Pair("end", "finish"),
    Pair("buy", "purchase"), Pair("help", "assist"), Pair("sad", "unhappy"), Pair("cold", "chilly"),
    Pair("hot", "warm"), Pair("easy", "simple"), Pair("hard", "difficult"), Pair("old", "ancient")]

  /** `pairCount`: 4 pairs on easy, 6 on medium and 8 on anything else. */
  function PairCount(difficulty: string): (n: nat)
    ensures n in {4, 6, 8}
    ensures n == 4 <==> difficulty == "easy"
    ensures n == 6 <==> difficulty == "medium"
  {
    if difficulty == "easy" then 4 else if difficulty == "medium" then 6 else 8
  }

  /** Two pairs with no word in common. */
  predicate Apart(p: Pair<string>, q: Pair<string>)
  {
    p.a != q.a && p.a != q.b && p.b != q.a && p.b != q.b
  }

  /** No word appears twice among the pairs, inside one pair or across two. */
  predicate AllWordsDifferent(ps: seq<Pair<string>>)
  {
    && (forall p :: p in ps ==> p.a != p.b)
    && (forall p, q :: p in ps && q in ps && p != q ==> Apart(p, q))
  }

  /** The 32 words of the sixteen pairs are all different. */
  lemma SynonymWordsDifferent()
    ensures |SynonymPairs| == 16 && Distinct(SynonymPairs) && AllWordsDifferent(SynonymPairs)
  {
    assert forall i, j :: 0 <= i < j < 16 ==> Apart(SynonymPairs[i], SynonymPairs[j]);
    assert forall i :: 0 <= i < 16 ==> SynonymPairs[i].a != SynonymPairs[i].b;
    forall p, q | p in SynonymPairs && q in SynonymPairs && p != q
      ensures Apart(p, q)
    {
      var i :| 0 <= i < 16 && SynonymPairs[i] == p;
      var j :| 0 <= j < 16 && SynonymPairs[j] == q;
      assert i != j;
    }
  }

  /** No two different cards show the same word. */
  predicate UniqueWords(cs: seq<Card<string>>)
  {
    forall c, d :: c in cs && d in cs && c != d ==> c.value != d.value
  }

  /** No two positions show the same word. */
  predicate WordsDiffer(cs: seq<Card<string>>)
  {
    forall i, j :: 0 <= i < j < |cs| ==> cs[i].value != cs[j].value
  }

  /**
   * Every card's partner card is there too. (The trigger keeps the solver from chasing partners
   * of partners.)
   */
  predicate Partnered(cs: seq<Card<string>>)
  {
    forall c {:trigger HasPartner(cs, c)} :: c in cs ==> HasPartner(cs, c)
  }

  /** Every card holds one of the pairs, in one order or the other. */
  predicate Listed(cs: seq<Card<string>>, pairs: seq<Pair<string>>)
  {
    forall c :: c in cs ==> Pair(c.value, c.pair) in pairs || Pair(c.pair, c.value) in pairs
  }

  lemma CardsOfProperties(pairs: seq<Pair<string>>)
    requires Distinct(pairs) && AllWordsDifferent(pairs)
    ensures UniqueWords(CardsOf(pairs)) && Partnered(CardsOf(pairs)) && Listed(CardsOf(pairs), pairs)
  {
    CardWordsUnique(pairs);
    CardsPartnered(pairs);
  }

  /** Cards of pairs with all words different show different words. */
  lemma CardWordsUnique(pairs: seq<Pair<string>>)
    requires Distinct(pairs) && AllWordsDifferent(pairs)
    ensures UniqueWords(CardsOf(pairs))
  {
    var cs := CardsOf(pairs);
    forall c, d | c in cs && d in cs && c != d
      ensures c.value != d.value
    {
      var i :| 0 <= i < |cs| && cs[i] == c;
      var j :| 0 <= j < |cs| && cs[j] == d;
      CardWordsApart(pairs, i, j);
    }
  }

  /** Two positions of the cards hold different words. */
  lemma CardWordsApart(pairs: seq<Pair<string>>, i: nat, j: nat)
    requires Distinct(pairs) && AllWordsDifferent(pairs)
    requires i < 2 * |pairs| && j < 2 * |pairs| && i != j
    ensures CardsOf(pairs)[i].value != CardsOf(pairs)[j].value
  {
    var k := CardAt(pairs, i);
    var l := CardAt(pairs, j);
    var p, q := pairs[k], pairs[l];
    assert p in pairs && q in pairs;
    if k == l {
      assert p.a != p.b;
    } else {
      assert p != q;
      assert Apart(p, q);
    }
  }

  /** Each card of a pair has its partner card, and holds that pair. */
  lemma CardsPartnered(pairs: seq<Pair<string>>)
    ensures Partnered(CardsOf(pairs)) && Listed(CardsOf(pairs), pairs)
  {
    var cs := CardsOf(pairs);
    forall c | c in cs
      ensures (Pair(c.value, c.pair) in pairs || Pair(c.pair, c.value) in pairs) && HasPartner(cs, c)
    {
      var i :| 0 <= i < |cs| && cs[i] == c;
      var k := CardAt(pairs, i);
      assert pairs[k] in pairs;
      assert cs[2 * k] in cs && cs[2 * k + 1] in cs;
    }
  }

  /**
   * `generateCards`: shuffle the pairs, keep the first `pairCount`, make two cards of each and
   * shuffle the cards. `pairShuffle` and `cardShuffle` feed the two shuffles.
   */
  method GenerateCards(pairCount: nat, pairShuffle: nat -> Unit, cardShuffle: nat -> Unit) returns (cards: seq<Card<string>>)
    requires pairCount <= 16
    ensures |cards| == 2 * pairCount
    ensures UniqueIds(cards) && WordsDiffer(cards) && Partnered(cards) && Listed(cards, SynonymPairs)
  {
    SynonymWordsDifferent();
    cards := Deal(SynonymPairs, pairCount, pairShuffle, cardShuffle);
  }

  /** The first `count` of the shuffled pairs, two cards each, shuffled. */
  method Deal(pairs: seq<Pair<string>>, count: nat, pairShuffle: nat -> Unit, cardShuffle: nat -> Unit)
    returns (cards: seq<Card<string>>)
    requires Distinct(pairs) && AllWordsDifferent(pairs) && count <= |pairs|
    ensures |cards| == 2 * count
    ensures UniqueIds(cards) && WordsDiffer(cards) && Partnered(cards) && Listed(cards, pairs)
  {
    var shuffled := ShuffleArray(pairs, pairShuffle);
    DistinctPermutation(shuffled, pairs);
    var selected := shuffled[..count];
    forall p | p in selected
      ensures p in pairs
    {
      assert p in multiset(shuffled);
    }
    var made := CardsOf(selected);
    CardsOfProperties(selected);
    cards := ShuffleArray(made, cardShuffle);
    UniqueIdsPermutation(cards, made);
    CardsPermutation(cards, made, pairs);
    forall i, j | 0 <= i < j < |cards|
      ensures cards[i].value != cards[j].value
    {
      assert cards[i] in cards && cards[j] in cards;
    }
  }

  lemma CardsPermutation(cs: seq<Card<string>>, ds: seq<Card<string>>, pairs: seq<Pair<string>>)
    requires multiset(cs) == multiset(ds) && UniqueWords(ds) && Partnered(ds) && Listed(ds, pairs)
    ensures UniqueWords(cs) && Partnered(cs) && Listed(cs, pairs)
  {
    forall c | c in cs
      ensures c in ds
    {
      assert c in multiset(ds);
    }
    forall c | c in cs
      ensures HasPartner(cs, c)
    {
      assert HasPartner(ds, c);
      var d :| d in ds && d.id != c.id && d.value == c.pair && d.pair == c.value;
      assert d in multiset(cs);
    }
  }

  /**
   * The match test `first.pair === second.word` is the synonym relation of the generated cards: it
   * holds exactly for the two cards of one pair, in either order, and never for a card with itself.
   */
  lemma MatchSymmetric(cards: seq<Card<string>>, c: Card<string>, d: Card<string>)
    requires WordsDiffer(cards) && Partnered(cards)
    requires c in cards && d in cards && c.pair == d.value
    ensures d.pair == c.value && c.id != d.id
  {
    assert HasPartner(cards, c);
    var e :| e in cards && e.id != c.id && e.value == c.pair && e.pair == c.value;
    var i :| 0 <= i < |cards| && cards[i] == d;
    var j :| 0 <= j < |cards| && cards[j] == e;
    assert d.value == e.value;
    assert i == j;
  }

  /** The difficulty kept from an earlier visit, or medium when none (or an empty one) is kept. */
  function StoredDifficulty(stored: Option<string>): (d: string)
    ensures stored.Some? && stored.value != "" ==> d == stored.value
    ensures stored.None? || stored.value == "" ==> d == "medium"
  {
    if stored.Some? && stored.value != "" then stored.value else "medium"
  }

  datatype Feedback = Correct | Wrong | Done

  class Safari {
    var difficulty: string
    /** What local storage holds under `difficulty`. */
    var stored: Option<string>
    var cards: seq<Card<string>>
    var flipped: seq<nat>
    var matched: seq<nat>
    var tries: nat
    var matches: nat
    var feedback: Option<Feedback>

    /**
     * The cards of the difficulty, at most two face up and none of them matched; matched cards
     * are real cards, each once, two per match.
     */
    predicate Valid()
      reads this
    {
      && stored == Some(difficulty)
      && |cards| == 2 * PairCount(difficulty)
      && UniqueIds(cards) && WordsDiffer(cards) && Partnered(cards)
      && Table(cards, flipped, matched, matches)
    }

    /**
     * The page opens on the kept difficulty with a fresh set of cards, and the mount effect
     * writes that difficulty back, so a reload opens on it again.
     */
    constructor(kept: Option<string>, pairShuffle: nat -> Unit, cardShuffle: nat -> Unit)
      ensures Valid()
      ensures difficulty == StoredDifficulty(kept) && Listed(cards, SynonymPairs)
      ensures stored == Some(difficulty) && StoredDifficulty(stored) == difficulty
      ensures flipped == [] && matched == [] && tries == 0 && matches == 0 && feedback.None?
    {
      var d := StoredDifficulty(kept);
      var first := GenerateCards(PairCount(d), pairShuffle, cardShuffle);
      difficulty := d;
      stored := Some(d);
      cards := first;
      flipped := [];
      matched := [];
      tries := 0;
      matches := 0;
      feedback := None;
    }

    /**
     * Fresh cards for the difficulty, nothing up, nothing matched, counters at zero: the reset
     * after a change of difficulty, and the delayed new round after a completed one.
     */
    method NewRound(pairShuffle: nat -> Unit, cardShuffle: nat -> Unit)
      requires Valid()
      modifies this
      ensures Valid()
      ensures difficulty == old(difficulty) && Listed(cards, SynonymPairs)
      ensures flipped == [] && matched == [] && tries == 0 && matches == 0 && feedback.None?
    {
      cards := GenerateCards(PairCount(difficulty), pairShuffle, cardShuffle);
      flipped := [];
      matched := [];
      tries := 0;
      matches := 0;
      feedback := None;
    }

    /**
     * Choosing a difficulty: it is written to local storage, so a reload opens on it (an empty
     * name reloads as medium), and a new round of its size starts.
     */
    method ChangeDifficulty(d: string, pairShuffle: nat -> Unit, cardShuffle: nat -> Unit)
      requires Valid()
      modifies this
      ensures Valid()
      ensures difficulty == d && |cards| == 2 * PairCount(d) && Listed(cards, SynonymPairs)
      ensures stored == Some(d) && (d != "" ==> StoredDifficulty(stored) == d)
      ensures flipped == [] && matched == [] && tries == 0 && matches == 0 && feedback.None?
    {
      difficulty := d;
      stored := Some(d);
      cards := GenerateCards(PairCount(d), pairShuffle, cardShuffle);
      flipped := [];
      matched := [];
      tries := 0;
      matches := 0;
      feedback := None;
    }

    /** `handleFlip`: ignored with two cards up or a card already up or matched; otherwise the card turns up. */
    method Flip(id: nat)
      requires Valid() && id in Ids(cards)
      modifies this
      ensures Valid()
      ensures |old(flipped)| == 2 || id in old(flipped) || id in old(matched) ==> flipped == old(flipped)
      ensures !(|old(flipped)| == 2 || id in old(flipped) || id in old(matched)) ==> flipped == old(flipped) + [id]
      ensures cards == old(cards) && matched == old(matched) && tries == old(tries) && matches == old(matches)
      ensures difficulty == old(difficulty) && feedback == old(feedback)
    {
      if |flipped| == 2 || id in flipped || id in matched {
        return;
      }
      FlipStep(cards, flipped, matched, matches, id);
      flipped := flipped + [id];
    }

    /**
     * Two cards up: one more try; when the second shows the first's synonym both are matched and
     * turn back at once, otherwise they stay up until `TurnBack`.
     */
    method Evaluate()
      requires Valid() && |flipped| == 2
      modifies this
      ensures Valid()
      ensures tries == old(tries) + 1
      ensures var first, second := Find(cards, old(flipped)[0]), Find(cards, old(flipped)[1]);
        first.Some? && second.Some? &&
        if first.value.pair == second.value.value then
          matched == old(matched) + [first.value.id, second.value.id] && matches == old(matches) + 1
          && feedback == Some(Correct) && flipped == []
        else
          matched == old(matched) && matches == old(matches) && feedback == Some(Wrong) && flipped == old(flipped)
      ensures cards == old(cards) && difficulty == old(difficulty)
    {
      var first, second := Find(cards, flipped[0]), Find(cards, flipped[1]);
      FoundById(cards, flipped[0]);
      FoundById(cards, flipped[1]);
      tries := tries + 1;
      if first.Some? && second.Some? && first.value.pair == second.value.value {
        MatchStep(cards, flipped, matched, matches);
        assert [first.value.id, second.value.id] == flipped;
        matched := matched + [first.value.id, second.value.id];
        matches := matches + 1;
        feedback := Some(Correct);
        flipped := [];
      } else {
        feedback := Some(Wrong);
      }
    }

    /** The delayed step after a wrong pair: both cards turn back. */
    method TurnBack()
      requires Valid()
      modifies this
      ensures Valid()
      ensures flipped == []
      ensures cards == old(cards) && matched == old(matched) && tries == old(tries) && matches == old(matches)
      ensures difficulty == old(difficulty) && feedback == old(feedback)
    {
      flipped := [];
    }

    /** The delayed step that clears the feedback. */
    method ClearFeedback()
      requires Valid()
      modifies this
      ensures Valid()
      ensures feedback.None?
      ensures cards == old(cards) && flipped == old(flipped) && matched == old(matched)
      ensures tries == old(tries) && matches == old(matches) && difficulty == old(difficulty)
    {
      feedback := None;
    }

    /** The round is over when every card is matched: `matched.length && matched.length === cards.length`. */
    predicate Complete()
      reads this
    {
      |matched| > 0 && |matched| == |cards|
    }

    /** A completed round shows the closing message. */
    method Finish()
      requires Valid() && Complete()
      modifies this
      ensures Valid()
      ensures feedback == Some(Done)
      ensures cards == old(cards) && flipped == old(flipped) && matched == old(matched)
      ensures tries == old(tries) && matches == old(matches) && difficulty == old(difficulty)
    {
      feedback := Some(Done);
    }
  }

  /** A completed round has every card matched, and as many matches as pairs. */
  lemma CompleteMeansAllMatched(g: Safari)
    requires g.Valid() && g.Complete()
    ensures forall k :: 0 <= k < |g.cards| ==> g.cards[k].id in g.matched
    ensures g.matches == PairCount(g.difficulty)
  {
    AllMatched(g.cards, g.matched);
  }
}
