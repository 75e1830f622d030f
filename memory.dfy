/**
 * The card memory games: pairs become two cards each, every card knowing the value of its partner;
 * cards are found by id, and a round is over when every card is matched.
 *
 * A card's id in the pages is its value followed by a random number; the model numbers the cards
 * instead, which keeps what the pages rely on: no two cards share an id.
 */
module Memory {
  import opened Js
  import opened Drill

  datatype Pair<V> = Pair(a: V, b: V)

  datatype Card<V> = Card(id: nat, value: V, pair: V)

  /** Two cards per pair, `{value: a, pair: b}` then `{value: b, pair: a}`, numbered in order. */
  function CardsOf<V>(pairs: seq<Pair<V>>): (cs: seq<Card<V>>)
    ensures |cs| == 2 * |pairs|
    ensures forall i :: 0 <= i < |cs| ==> cs[i].id == i
    ensures forall k :: 0 <= k < |pairs| ==>
      cs[2 * k] == Card(2 * k, pairs[k].a, pairs[k].b) && cs[2 * k + 1] == Card(2 * k + 1, pairs[k].b, pairs[k].a)
  {
    var cs := seq(2 * |pairs|, i requires 0 <= i < 2 * |pairs| =>
      var p := pairs[i / 2];
      if i % 2 == 0 then Card(i, p.a, p.b) else Card(i, p.b, p.a));
    assert forall k :: 0 <= k < |pairs| ==> (2 * k) / 2 == k && (2 * k + 1) / 2 == k && (2 * k + 1) % 2 == 1;
    cs
  }

  /** The card at position `i` is one of the two cards of pair `i / 2`. */
  lemma CardAt<V>(pairs: seq<Pair<V>>, i: nat) returns (k: nat)
    requires i < 2 * |pairs|
    ensures k < |pairs| && (i == 2 * k || i == 2 * k + 1)
    ensures CardsOf(pairs)[i] == Card(2 * k, pairs[k].a, pairs[k].b) || CardsOf(pairs)[i] == Card(2 * k + 1, pairs[k].b, pairs[k].a)
  {
    k := i / 2;
  }

  predicate UniqueIds<V>(cs: seq<Card<V>>)
  {
    forall i, j :: 0 <= i < j < |cs| ==> cs[i].id != cs[j].id
  }

  /** The card with the other half of `c`'s pair, pointing back to `c`'s value, is in `cs`. */
  predicate HasPartner<V(==,!new)>(cs: seq<Card<V>>, c: Card<V>)
  {
    exists d :: d in cs && d.id != c.id && d.value == c.pair && d.pair == c.value
  }

  /** A permutation of cards numbered by position has unique ids. */
  lemma UniqueIdsPermutation<V>(cs: seq<Card<V>>, ds: seq<Card<V>>)
    requires multiset(cs) == multiset(ds) && forall i :: 0 <= i < |ds| ==> ds[i].id == i
    ensures UniqueIds(cs)
  {
    assert Distinct(ds);
    DistinctPermutation(cs, ds);
    forall i, j | 0 <= i < j < |cs|
      ensures cs[i].id != cs[j].id
    {
      assert cs[i] in multiset(ds) && cs[j] in multiset(ds);
      var k :| 0 <= k < |ds| && ds[k] == cs[i];
      var l :| 0 <= l < |ds| && ds[l] == cs[j];
    }
  }

  /** The card with an id, `cards.find(c => c.id === id)`. */
  function Find<V>(cards: seq<Card<V>>, id: nat): (c: Option<Card<V>>)
    ensures c.Some? ==> c.value in cards && c.value.id == id
    ensures c.None? <==> forall k :: 0 <= k < |cards| ==> cards[k].id != id
  {
    if cards == [] then None
    else if cards[0].id == id then Some(cards[0])
    else Find(cards[1..], id)
  }

  function Ids<V>(cards: seq<Card<V>>): (ids: set<nat>)
    ensures forall id :: id in ids <==> exists k :: 0 <= k < |cards| && cards[k].id == id
  {
    set k | 0 <= k < |cards| :: cards[k].id
  }

  /** The id of a card in the list finds that card. */
  lemma FoundById<V>(cards: seq<Card<V>>, id: nat)
    requires id in Ids(cards)
    ensures Find(cards, id).Some? && Find(cards, id).value.id == id
  {
    var k :| 0 <= k < |cards| && cards[k].id == id;
  }

  lemma {:induction false} IdsCount<V>(cs: seq<Card<V>>)
    requires UniqueIds(cs)
    ensures |Ids(cs)| == |cs|
  {
    if cs != [] {
      IdsCount(cs[1..]);
      assert Ids(cs) == {cs[0].id} + Ids(cs[1..]);
      assert cs[0].id !in Ids(cs[1..]);
    }
  }

  /**
   * The end-of-round test `matched.length === cards.length` is a count; with unique card ids and
   * each matched id once, it means every card is matched.
   */
  lemma AllMatched<V>(cards: seq<Card<V>>, matched: seq<nat>)
    requires UniqueIds(cards) && Distinct(matched) && (forall id :: id in matched ==> id in Ids(cards))
    requires |matched| == |cards|
    ensures forall k :: 0 <= k < |cards| ==> cards[k].id in matched
  {
    var m := set id | id in matched;
    var c := Ids(cards);
    DistinctCardinality(matched);
    IdsCount(cards);
    assert m <= c;
    assert |c - m| == |c| - |m|;
    assert m == c;
    forall k | 0 <= k < |cards|
      ensures cards[k].id in matched
    {
      assert cards[k].id in c;
    }
  }

  /**
   * The play state of a round: at most two cards face up, none of them matched; matched cards
   * are real cards, each once, two per match.
   */
  predicate Table<V>(cards: seq<Card<V>>, flipped: seq<nat>, matched: seq<nat>, matches: nat)
  {
    && |flipped| <= 2
    && Distinct(flipped)
    && (forall id :: id in flipped ==> id in Ids(cards) && id !in matched)
    && Distinct(matched)
    && (forall id :: id in matched ==> id in Ids(cards))
    && |matched| == 2 * matches
  }

  /** Turning up a card that is neither up nor matched, with fewer than two up, keeps the table. */
  lemma FlipStep<V>(cards: seq<Card<V>>, flipped: seq<nat>, matched: seq<nat>, matches: nat, id: nat)
    requires Table(cards, flipped, matched, matches) && id in Ids(cards)
    requires |flipped| < 2 && id !in flipped && id !in matched
    ensures Table(cards, flipped + [id], matched, matches)
  {
  }

  /** Two face-up cards that match join the matched ones, and none is left up. */
  lemma MatchStep<V>(cards: seq<Card<V>>, flipped: seq<nat>, matched: seq<nat>, matches: nat)
    requires Table(cards, flipped, matched, matches) && |flipped| == 2
    ensures Table(cards, [], matched + flipped, matches + 1)
  {
    assert flipped[0] in flipped && flipped[1] in flipped;
  }

  /** A fresh round: nothing up, nothing matched. */
  lemma EmptyTable<V>(cards: seq<Card<V>>)
    ensures Table(cards, [], [], 0)
  {
  }
}
