/**
 * Sight word pop: bubbles carrying sight words rise in five lanes; the player pops the bubbles
 * with the target word. A spawn tick adds a bubble in a free lane, a target at least every five
 * bubbles, until the time is up or enough targets were shown.
 *
 * Each timer body is a step method of its own: the spawn tick, the one-second countdown, the
 * removal of a bubble whose life ended and the end-of-game check.
 */
module SightWordPop {
  import opened Js
  import opened Drill

  const SightWords: seq<string> := [
    "the", "and", "is", "you", "it", "to", "in", "he", "was", "for",
    "on", "are", "as", "with", "his", "they", "I", "at", "be", "this", "of", "that", "have", "from"
  ]

  /** The number of lanes; lane `k` is the index of `[12, 30, 48, 66, 84]`. */
  const LaneCount: nat := 5

  /** `Math.random() < 0.3`: the chance that a spawned bubble is a target. */
  const TargetChance: real := 0.3

  /**
   * `pickRandom(words.filter(w => w !== word))`: a random word of the list other than `word`.
   * Used both for the next target and for the word of a bubble that is not a target.
   */
  function PickOther(words: seq<string>, word: string, draw: Unit): (r: string)
    requires |words| >= 2 && words[0] != words[1]
    ensures r in words && r != word
  {
    var others := Remove(words, word);
    assert words[0] in others || words[1] in others;
    others[RandomIndex(draw, |others|)]
  }

  /** `nextTargetWord`: a new target, never the previous one. */
  method NextTarget(prev: string, draw: Unit) returns (r: string)
    ensures r in SightWords && r != prev
  {
    r := PickOther(SightWords, prev, draw);
  }

  /** The word of a spawned bubble: the target word for a target, another sight word otherwise. */
  function BubbleWord(isTarget: bool, target: string, draw: Unit): (r: string)
    ensures isTarget ==> r == target
    ensures !isTarget ==> r in SightWords && r != target
  {
    if isTarget then target else PickOther(SightWords, target, draw)
  }

  /** The lanes without an active bubble, in order: `lanes.map((_, i) => i).filter(i => !busy.has(i))`. */
  function FreeLanes(busy: set<nat>, from: nat): (r: seq<nat>)
    requires from <= LaneCount
    ensures forall k :: k in r <==> from <= k < LaneCount && k !in busy
    decreases LaneCount - from
  {
    if from == LaneCount then []
    else if from in busy then FreeLanes(busy, from + 1)
    else [from] + FreeLanes(busy, from + 1)
  }

  /** `chooseLane`: a random free lane, or none when every lane is busy. */
  function ChooseLane(busy: set<nat>, draw: Unit): (r: Option<nat>)
    ensures r.Some? ==> r.value < LaneCount && r.value !in busy
    ensures r.None? <==> forall k :: 0 <= k < LaneCount ==> k in busy
  {
    var free := FreeLanes(busy, 0);
    if |free| == 0 then None
    else
      assert free[RandomIndex(draw, |free|)] in free;
      Some(free[RandomIndex(draw, |free|)])
  }

  datatype Bubble = Bubble(id: nat, word: string, isTarget: bool, lane: nat)

  /** Ids in the order the bubbles were spawned: strictly increasing. */
  predicate Increasing(bs: seq<Bubble>)
  {
    forall i, j :: 0 <= i < j < |bs| ==> bs[i].id < bs[j].id
  }

  /** `bubbles.filter(b => b.id !== id)`. */
  function WithoutBubble(bs: seq<Bubble>, id: nat): (r: seq<Bubble>)
    ensures forall b :: b in r <==> b in bs && b.id != id
  {
    if bs == [] then []
    else
      var rest := WithoutBubble(bs[1..], id);
      assert forall b :: b in bs <==> b == bs[0] || b in bs[1..];
      if bs[0].id != id then [bs[0]] + rest else rest
  }

  /** Filtering keeps the spawn order. */
  lemma {:induction false} WithoutIncreasing(bs: seq<Bubble>, id: nat)
    requires Increasing(bs)
    ensures Increasing(WithoutBubble(bs, id))
  {
    if bs != [] {
      var rest := WithoutBubble(bs[1..], id);
      WithoutIncreasing(bs[1..], id);
      forall b | b in rest
        ensures bs[0].id < b.id
      {
        var k :| 0 <= k < |bs[1..]| && bs[1..][k] == b;
        assert bs[k + 1] == b;
      }
      if bs[0].id != id {
        ConsIncreasing(bs[0], rest);
      }
    }
  }

  lemma SnocIncreasing(bs: seq<Bubble>, x: Bubble)
    requires Increasing(bs) && forall b :: b in bs ==> b.id < x.id
    ensures Increasing(bs + [x]) && forall b :: b in bs + [x] ==> b in bs || b == x
  {
    var r := bs + [x];
    forall i, j | 0 <= i < j < |r|
      ensures r[i].id < r[j].id
    {
      assert r[i] == bs[i];
      if j < |bs| {
        assert r[j] == bs[j];
      }
    }
  }

  lemma ConsIncreasing(x: Bubble, rest: seq<Bubble>)
    requires Increasing(rest) && forall b :: b in rest ==> x.id < b.id
    ensures Increasing([x] + rest)
  {
    var r := [x] + rest;
    forall i, j | 0 <= i < j < |r|
      ensures r[i].id < r[j].id
    {
      assert r[j] == rest[j - 1];
      if i > 0 {
        assert r[i] == rest[i - 1];
      }
    }
  }

  /** The number of target bubbles on screen. */
  function Targets(bs: seq<Bubble>): (n: nat)
    ensures n <= |bs|
  {
    if bs == [] then 0 else (if bs[0].isTarget then 1 else 0) + Targets(bs[1..])
  }

  lemma {:induction false} TargetsAppend(bs: seq<Bubble>, b: Bubble)
    ensures Targets(bs + [b]) == Targets(bs) + (if b.isTarget then 1 else 0)
  {
    if bs != [] {
      assert (bs + [b])[1..] == bs[1..] + [b];
      TargetsAppend(bs[1..], b);
    }
  }

  /** Removing one bubble by its id, with no id twice, takes its target off the count and nothing else. */
  lemma {:induction false} TargetsWithout(bs: seq<Bubble>, b: Bubble)
    requires Increasing(bs) && b in bs
    ensures Targets(WithoutBubble(bs, b.id)) == Targets(bs) - (if b.isTarget then 1 else 0)
  {
    if bs[0] == b {
      forall c | c in bs[1..]
        ensures c.id != b.id
      {
        var k :| 0 <= k < |bs[1..]| && bs[1..][k] == c;
        assert bs[k + 1] == c;
      }
      NothingWithout(bs[1..], b.id);
    } else {
      var k :| 0 <= k < |bs| && bs[k] == b;
      assert bs[0].id < bs[k].id;
      assert b in bs[1..] by {
        assert bs[1..][k - 1] == b;
      }
      TargetsWithout(bs[1..], b);
    }
  }

  lemma {:induction false} NothingWithout(bs: seq<Bubble>, id: nat)
    requires forall c :: c in bs ==> c.id != id
    ensures WithoutBubble(bs, id) == bs
  {
    if bs != [] {
      assert bs[0] in bs;
      assert forall c :: c in bs[1..] ==> c in bs;
      NothingWithout(bs[1..], id);
    }
  }

  /** `started`: `false` on the options screen, `true` while playing, `"end"` on the result screen. */
  datatype Phase = Options | Playing | Ended

  class Pop {
    var duration: int
    var targetTotal: int
    var phase: Phase
    var timeLeft: int
    var score: nat
    var targetsShown: nat
    var targetWord: string
    var bubbles: seq<Bubble>
    /** `laneBusyRef`: the lanes with an active bubble. */
    var busy: set<nat>
    /** `idCounter`: the id of the last bubble spawned. */
    var lastId: nat
    /** `sinceTargetRef`: bubbles spawned since the last target. */
    var sinceTarget: nat

    /**
     * Lanes and bubble lanes are among the five; bubbles keep their spawn order and ids up to
     * the last one given out; a target shows up at least every five bubbles; and the score
     * plus the targets still on screen never exceeds the targets shown.
     */
    predicate Valid()
      reads this
    {
      && (forall k :: k in busy ==> k < LaneCount)
      && (forall b :: b in bubbles ==> b.lane < LaneCount && b.id <= lastId)
      && Increasing(bubbles)
      && sinceTarget <= 4
      && score + Targets(bubbles) <= targetsShown
    }

    /** The options screen with the default settings: 45 seconds, 12 targets. */
    constructor(draw: Unit)
      ensures Valid()
      ensures phase == Options && duration == 45 && targetTotal == 12 && timeLeft == 45
      ensures score == 0 && targetsShown == 0 && bubbles == [] && busy == {} && sinceTarget == 0
    {
      duration, targetTotal := 45, 12;
      phase := Options;
      timeLeft := 45;
      score, targetsShown := 0, 0;
      targetWord := SightWords[RandomIndex(draw, |SightWords|)];
      bubbles := [];
      busy := {};
      lastId := 0;
      sinceTarget := 0;
    }

    /** The time slider of the options screen: 20 to 90 seconds. */
    method SetDuration(seconds: int)
      requires Valid() && phase == Options && 20 <= seconds <= 90
      modifies this
      ensures Valid() && duration == seconds && targetTotal == old(targetTotal) && phase == Options
      ensures score == old(score) && targetsShown == old(targetsShown) && bubbles == old(bubbles)
    {
      duration := seconds;
    }

    /** The targets slider of the options screen: 5 to 25 targets. */
    method SetTargetTotal(count: int)
      requires Valid() && phase == Options && 5 <= count <= 25
      modifies this
      ensures Valid() && targetTotal == count && duration == old(duration) && phase == Options
      ensures score == old(score) && targetsShown == old(targetsShown) && bubbles == old(bubbles)
    {
      targetTotal := count;
    }

    /** `handleStart`: counters, bubbles and lanes reset, a random target, the full time. */
    method Start(draw: Unit)
      requires Valid()
      modifies this
      ensures Valid()
      ensures phase == Playing && timeLeft == duration && targetWord == SightWords[RandomIndex(draw, 24)]
      ensures score == 0 && targetsShown == 0 && sinceTarget == 0 && bubbles == [] && busy == {}
      ensures duration == old(duration) && targetTotal == old(targetTotal)
    {
      score := 0;
      targetsShown := 0;
      sinceTarget := 0;
      targetWord := SightWords[RandomIndex(draw, |SightWords|)];
      bubbles := [];
      busy := {};
      timeLeft := duration;
      phase := Playing;
    }

    /**
     * The spawn interval's body. It does nothing once the time is up, once enough targets were
     * shown, or when no lane is free. Otherwise a bubble with a fresh id goes into a free lane,
     * which becomes busy. It is a target with the random chance, and always after four bubbles
     * without one; a bubble that is not a target never carries the target word.
     */
    method Spawn(laneDraw: Unit, targetDraw: Unit, wordDraw: Unit)
      requires Valid() && phase == Playing
      modifies this
      ensures Valid()
      ensures old(timeLeft <= 0 || targetsShown >= targetTotal) || ChooseLane(old(busy), laneDraw).None? ==>
        bubbles == old(bubbles) && busy == old(busy) && targetsShown == old(targetsShown) && sinceTarget == old(sinceTarget)
      ensures old(timeLeft > 0 && targetsShown < targetTotal) && ChooseLane(old(busy), laneDraw).Some? ==>
        var lane, isTarget := ChooseLane(old(busy), laneDraw).value, targetDraw < TargetChance || old(sinceTarget) >= 4;
        && lastId == old(lastId) + 1
        && bubbles == old(bubbles) + [Bubble(lastId, BubbleWord(isTarget, targetWord, wordDraw), isTarget, lane)]
        && busy == old(busy) + {lane}
        && targetsShown == old(targetsShown) + (if isTarget then 1 else 0)
        && sinceTarget == (if isTarget then 0 else old(sinceTarget) + 1)
      ensures phase == old(phase) && score == old(score) && targetWord == old(targetWord) && timeLeft == old(timeLeft)
      ensures duration == old(duration) && targetTotal == old(targetTotal)
    {
      if timeLeft <= 0 || targetsShown >= targetTotal {
        return;
      }
      var lane := ChooseLane(busy, laneDraw);
      if lane.None? {
        return;
      }
      var isTarget := targetDraw < TargetChance;
      if sinceTarget >= 4 {
        isTarget := true;
      }
      var word := BubbleWord(isTarget, targetWord, wordDraw);
      Launch(lane.value, isTarget, word);
    }

    /** A new bubble with the next id goes into a lane, which becomes busy; a target resets the gap count. */
    method Launch(lane: nat, isTarget: bool, word: string)
      requires Valid() && lane < LaneCount && (isTarget || sinceTarget < 4)
      modifies this
      ensures Valid()
      ensures lastId == old(lastId) + 1 && bubbles == old(bubbles) + [Bubble(lastId, word, isTarget, lane)]
      ensures busy == old(busy) + {lane}
      ensures targetsShown == old(targetsShown) + (if isTarget then 1 else 0)
      ensures sinceTarget == (if isTarget then 0 else old(sinceTarget) + 1)
      ensures phase == old(phase) && score == old(score) && targetWord == old(targetWord) && timeLeft == old(timeLeft)
      ensures duration == old(duration) && targetTotal == old(targetTotal)
    {
      lastId := lastId + 1;
      busy := busy + {lane};
      TargetsAppend(bubbles, Bubble(lastId, word, isTarget, lane));
      SnocIncreasing(bubbles, Bubble(lastId, word, isTarget, lane));
      bubbles := bubbles + [Bubble(lastId, word, isTarget, lane)];
      if isTarget {
        sinceTarget := 0;
        targetsShown := targetsShown + 1;
      } else {
        sinceTarget := sinceTarget + 1;
      }
    }

    /** The countdown interval's body: one second less. */
    method Tick()
      requires Valid() && phase == Playing
      modifies this
      ensures Valid() && timeLeft == old(timeLeft) - 1
      ensures phase == old(phase) && score == old(score) && targetsShown == old(targetsShown) && bubbles == old(bubbles) && busy == old(busy)
    {
      timeLeft := timeLeft - 1;
    }

    /**
     * `scheduleRemove`'s delayed body: the bubble with the id goes and its lane is freed, even
     * when a newer bubble now uses that lane.
     */
    method Expire(id: nat, lane: nat)
      requires Valid()
      modifies this
      ensures Valid()
      ensures bubbles == WithoutBubble(old(bubbles), id) && busy == old(busy) - {lane}
      ensures phase == old(phase) && score == old(score) && targetsShown == old(targetsShown) && targetWord == old(targetWord)
      ensures timeLeft == old(timeLeft) && sinceTarget == old(sinceTarget) && lastId == old(lastId)
      ensures duration == old(duration) && targetTotal == old(targetTotal)
    {
      RemovedTargets(bubbles, id);
      WithoutIncreasing(bubbles, id);
      bubbles := WithoutBubble(bubbles, id);
      busy := busy - {lane};
    }

    /**
     * `handleBubbleClick`: the bubble goes at once and its lane is freed; a target adds one to
     * the score, brings a new target word different from the old one, and restarts the count
     * of bubbles since a target.
     */
    method Click(b: Bubble, draw: Unit)
      requires Valid() && b in bubbles
      modifies this
      ensures Valid()
      ensures bubbles == WithoutBubble(old(bubbles), b.id) && b !in bubbles && busy == old(busy) - {b.lane}
      ensures b.isTarget ==> score == old(score) + 1 && targetWord in SightWords && targetWord != old(targetWord) && sinceTarget == 0
      ensures !b.isTarget ==> score == old(score) && targetWord == old(targetWord) && sinceTarget == old(sinceTarget)
      ensures phase == old(phase) && targetsShown == old(targetsShown) && timeLeft == old(timeLeft)
    {
      TargetsWithout(bubbles, b);
      Expire(b.id, b.lane);
      if b.isTarget {
        score := score + 1;
        targetWord := NextTarget(targetWord, draw);
        sinceTarget := 0;
      }
    }

    /** The end check: with no time left or all targets shown, the game ends and the field is cleared. */
    method CheckEnd()
      requires Valid()
      modifies this
      ensures Valid()
      ensures old(phase) == Playing && old(timeLeft <= 0 || targetsShown >= targetTotal) ==>
        phase == Ended && bubbles == [] && busy == {}
      ensures !(old(phase) == Playing && old(timeLeft <= 0 || targetsShown >= targetTotal)) ==>
        phase == old(phase) && bubbles == old(bubbles) && busy == old(busy)
      ensures score == old(score) && targetsShown == old(targetsShown) && timeLeft == old(timeLeft)
    {
      if phase == Playing && (timeLeft <= 0 || targetsShown >= targetTotal) {
        phase := Ended;
        bubbles := [];
        busy := {};
      }
    }

    /** `handleRestart`: back to the options screen with an empty field. */
    method Restart()
      requires Valid()
      modifies this
      ensures Valid() && phase == Options && bubbles == [] && busy == {}
      ensures score == old(score) && targetsShown == old(targetsShown) && duration == old(duration) && targetTotal == old(targetTotal)
    {
      phase := Options;
      bubbles := [];
      busy := {};
    }
  }

  /** A removal never raises the number of targets on screen. */
  lemma RemovedTargets(bs: seq<Bubble>, id: nat)
    requires Increasing(bs)
    ensures Targets(WithoutBubble(bs, id)) <= Targets(bs)
  {
    if exists b :: b in bs && b.id == id {
      var b :| b in bs && b.id == id;
      TargetsWithout(bs, b);
    } else {
      NothingWithout(bs, id);
    }
  }

  /** With the game valid, popped targets never outnumber the targets shown. */
  lemma ScoreBounded(p: Pop)
    requires p.Valid()
    ensures p.score <= p.targetsShown
  {
  }
}
