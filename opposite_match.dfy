/**
 * Opposite match: five word pairs are drawn; the player drags each left word onto the drop zone
 * of its opposite. Every drop counts towards the total, a right one towards the score.
 */
module OppositeMatch {
  import opened Js
  import opened Drill
  import opened Shuffle
  import opened OppositeWords

  /** The 36 left words are all different. */
  lemma LeftWordsDistinct()
    ensures Distinct(Words(Pairs))
  {
    Ranks();
    var ws := Words(Pairs);
    forall i, j | 0 <= i < j < |ws|
      ensures ws[i] != ws[j]
    {
      assert Rank(ws[i]) == i && Rank(ws[j]) == j;
    }
  }

  /** The left words, `pairs.map(p => p[0])`. */
  function Words(ps: seq<Opposites>): (r: seq<string>)
    ensures |r| == |ps|
    ensures forall i :: 0 <= i < |ps| ==> r[i] == ps[i].word
  {
    seq(|ps|, i requires 0 <= i < |ps| => ps[i].word)
  }

  /** The right words, `pairs.map(p => p[1])`. */
  function OppositesOf(ps: seq<Opposites>): (r: seq<string>)
    ensures |r| == |ps|
    ensures forall i :: 0 <= i < |ps| ==> r[i] == ps[i].opposite
  {
    seq(|ps|, i requires 0 <= i < |ps| => ps[i].opposite)
  }

  /** Pairs from `list`, no left word twice. */
  predicate Drawn(ps: seq<Opposites>, list: seq<Opposites>)
  {
    Distinct(Words(ps)) && forall p :: p in ps ==> p in list
  }

  /**
   * `getRandomPairs`: the list in random order, then its first `count` pairs. The page reorders
   * with a random comparator; any reordering is a permutation, modelled by a shuffle.
   */
  method GetRandomPairs(count: nat, shuffle: nat -> Unit) returns (ps: seq<Opposites>)
    ensures |ps| == Min(count, 36)
    ensures Drawn(ps, Pairs)
  {
    LeftWordsDistinct();
    ps := Draw(Pairs, count, shuffle);
  }

  /** The first `count` pairs of the shuffled list. */
  method Draw(list: seq<Opposites>, count: nat, shuffle: nat -> Unit) returns (ps: seq<Opposites>)
    requires Distinct(Words(list))
    ensures |ps| == Min(count, |list|)
    ensures Drawn(ps, list)
  {
    assert Distinct(list) by {
      forall a, b | 0 <= a < b < |list|
        ensures list[a] != list[b]
      {
        assert Words(list)[a] != Words(list)[b];
      }
    }
    ps := Take(list, count, shuffle);
    KeysDistinct(ps, list, (p: Opposites) => p.word);
  }

  /** Both "old" pairs can be drawn together, and then two drop zones carry the word "old". */
  lemma TwoOldZones()
    ensures var round := [Pairs[24], Pairs[25], Pairs[0], Pairs[1], Pairs[2]];
      Drawn(round, Pairs) && |round| == 5 && !Distinct(OppositesOf(round))
  {
    var round := [Pairs[24], Pairs[25], Pairs[0], Pairs[1], Pairs[2]];
    assert round == [Opposites("young", "old"), Opposites("new", "old"), Opposites("hot", "cold"), Opposites("warm", "cool"), Opposites("wet", "dry")];
    assert Words(round) == ["young", "new", "hot", "warm", "wet"];
    assert OppositesOf(round)[0] == OppositesOf(round)[1];
  }

  /** The pair of a left word, `pairs.find(([a, b]) => a === dragged)`. */
  function FindPair(ps: seq<Opposites>, dragged: string): (r: Option<Opposites>)
    ensures r.Some? ==> r.value in ps && r.value.word == dragged
    ensures r.None? <==> dragged !in Words(ps)
  {
    if ps == [] then None
    else if ps[0].word == dragged then Some(ps[0])
    else
      var rest := FindPair(ps[1..], dragged);
      assert Words(ps) == [ps[0].word] + Words(ps[1..]);
      rest
  }

  /** `correct`: the dragged word has a pair, and the zone is its opposite. */
  predicate RightDrop(ps: seq<Opposites>, dragged: string, target: string)
  {
    FindPair(ps, dragged).Some? && FindPair(ps, dragged).value.opposite == target
  }

  /** With no left word twice, a drop is right exactly when the two words are a pair of the round. */
  lemma RightDropIff(ps: seq<Opposites>, dragged: string, target: string)
    requires Distinct(Words(ps))
    ensures RightDrop(ps, dragged, target) <==> Opposites(dragged, target) in ps
  {
    if Opposites(dragged, target) in ps {
      var p := FindPair(ps, dragged);
      assert dragged in Words(ps);
      var i :| 0 <= i < |ps| && ps[i] == p.value;
      var j :| 0 <= j < |ps| && ps[j] == Opposites(dragged, target);
      assert Words(ps)[i] == Words(ps)[j];
    }
  }

  /** The two columns: the round's left words and right words, each in random order. */
  method SetupWords(ps: seq<Opposites>, leftShuffle: nat -> Unit, rightShuffle: nat -> Unit)
    returns (left: seq<string>, right: seq<string>)
    ensures multiset(left) == multiset(Words(ps)) && multiset(right) == multiset(OppositesOf(ps))
  {
    left := ShuffleArray(Words(ps), leftShuffle);
    right := ShuffleArray(OppositesOf(ps), rightShuffle);
  }

  datatype Feedback = Correct | Wrong | Done

  class Game {
    var pairs: seq<Opposites>
    var leftWords: seq<string>
    var rightWords: seq<string>
    /** Left word to the right word it was matched with: only right drops get here. */
    var matches: map<string, string>
    var score: nat
    var total: nat
    var feedback: Option<Feedback>

    predicate Valid()
      reads this
    {
      && |pairs| == 5 && Distinct(Words(pairs))
      && multiset(leftWords) == multiset(Words(pairs))
      && multiset(rightWords) == multiset(OppositesOf(pairs))
      && (forall w :: w in matches ==> Opposites(w, matches[w]) in pairs)
      && score <= total
    }

    /** A round of five pairs, with nothing matched. */
    constructor(shuffle: nat -> Unit, leftShuffle: nat -> Unit, rightShuffle: nat -> Unit)
      ensures Valid() && Drawn(pairs, Pairs)
      ensures matches == map[] && score == 0 && total == 0 && feedback.None?
    {
      var ps := GetRandomPairs(5, shuffle);
      var left, right := SetupWords(ps, leftShuffle, rightShuffle);
      pairs := ps;
      leftWords := left;
      rightWords := right;
      matches := map[];
      score := 0;
      total := 0;
      feedback := None;
    }

    /**
     * `handleDragEnd`: a drop outside every zone changes nothing; any other drop adds one to the
     * total, and a right one adds one to the score and records the match. A matched word cannot
     * be dragged, and only the right words are drop zones.
     */
    method Drop(dragged: string, destination: Option<string>)
      requires Valid() && dragged in leftWords && dragged !in matches
      requires destination.Some? ==> destination.value in rightWords
      modifies this
      ensures Valid()
      ensures destination.None? ==> matches == old(matches) && score == old(score) && total == old(total) && feedback == old(feedback)
      ensures destination.Some? ==> total == old(total) + 1
      ensures destination.Some? && Opposites(dragged, destination.value) in pairs ==>
        score == old(score) + 1 && matches == old(matches)[dragged := destination.value] && feedback == Some(Correct)
      ensures destination.Some? && Opposites(dragged, destination.value) !in pairs ==>
        score == old(score) && matches == old(matches) && feedback == Some(Wrong)
      ensures pairs == old(pairs) && leftWords == old(leftWords) && rightWords == old(rightWords)
    {
      if destination.None? {
        return;
      }
      var target := destination.value;
      RightDropIff(pairs, dragged, target);
      total := total + 1;
      if RightDrop(pairs, dragged, target) {
        score := score + 1;
        matches := matches[dragged := target];
        feedback := Some(Correct);
      } else {
        feedback := Some(Wrong);
      }
    }

    /** The delayed step after a wrong drop: the message goes. */
    method ClearFeedback()
      requires Valid()
      modifies this
      ensures Valid()
      ensures feedback.None? && pairs == old(pairs) && matches == old(matches) && score == old(score) && total == old(total)
    {
      feedback := None;
    }

    /** `Object.keys(matches).length === pairs.length`. */
    predicate RoundDone()
      reads this
    {
      |matches.Keys| == |pairs|
    }

    /** A finished round shows the closing message. */
    method Finish()
      requires Valid() && RoundDone()
      modifies this
      ensures Valid()
      ensures feedback == Some(Done) && pairs == old(pairs) && matches == old(matches) && score == old(score) && total == old(total)
    {
      feedback := Some(Done);
    }

    /** The delayed step after a finished round: five new pairs, nothing matched. */
    method NewRound(shuffle: nat -> Unit, leftShuffle: nat -> Unit, rightShuffle: nat -> Unit)
      requires Valid()
      modifies this
      ensures Valid() && Drawn(pairs, Pairs)
      ensures matches == map[] && feedback.None? && score == old(score) && total == old(total)
    {
      var ps := GetRandomPairs(5, shuffle);
      var left, right := SetupWords(ps, leftShuffle, rightShuffle);
      pairs := ps;
      leftWords := left;
      rightWords := right;
      matches := map[];
      feedback := None;
    }
  }

  /** The count test finishes the round exactly when every left word is matched. */
  lemma DoneIffAllMatched(g: Game)
    requires g.Valid()
    ensures g.RoundDone() <==> forall w :: w in g.leftWords ==> w in g.matches
  {
    var words := set w | w in Words(g.pairs);
    DistinctCardinality(Words(g.pairs));
    assert |words| == 5;
    assert g.matches.Keys <= words by {
      forall w | w in g.matches
        ensures w in words
      {
        var i :| 0 <= i < |g.pairs| && g.pairs[i] == Opposites(w, g.matches[w]);
        assert Words(g.pairs)[i] == w;
      }
    }
    forall w
      ensures w in g.leftWords <==> w in words
    {
      assert w in g.leftWords <==> w in multiset(g.leftWords);
    }
    if g.RoundDone() {
      assert |words - g.matches.Keys| == |words| - |g.matches.Keys|;
    }
    if forall w :: w in g.leftWords ==> w in g.matches {
      assert g.matches.Keys == words;
    }
  }
}
