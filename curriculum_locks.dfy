/**
 * The lock rules of the curriculum page: which categories, topics and challenges a learner may
 * open, as pure functions of the completion record. `cs` is the curriculum the page lists (the
 * application passes the derived year 2 mathematics curriculum) and `first` is
 * `isFirstTimeUser`.
 */
module CurriculumLocks {
  import opened Curriculum
  import opened Progress
  import opened Js

  /** `isTopicComplete`: a stored entry whose list is as long as the topic's challenge list. */
  predicate TopicComplete(r: Record, cat: string, t: Topic)
  {
    var e := TopicEntry(r, cat, t.id);
    e.Some? && e.value.completed.Some? && |e.value.completed.value| == |t.challenges|
  }

  /** `isCategoryComplete`: every topic of the category is complete. */
  predicate CategoryComplete(r: Record, c: Category)
  {
    forall j :: 0 <= j < |c.topics| ==> TopicComplete(r, c.id, c.topics[j])
  }

  predicate ValidPosition(cs: seq<Category>, i: nat, j: nat, k: nat)
  {
    i < |cs| && j < |cs[i].topics| && k < |cs[i].topics[j].challenges|
  }

  /** `categoryLocked`. */
  predicate CategoryLocked(cs: seq<Category>, r: Record, first: bool, i: nat)
    requires i < |cs|
  {
    (first && i > 0) || (i > 0 && !CategoryComplete(r, cs[i - 1]))
  }

  /** `topicLocked`: a locked category locks all its topics; otherwise the previous topic must be complete. */
  predicate TopicLocked(cs: seq<Category>, r: Record, first: bool, i: nat, j: nat)
    requires i < |cs| && j < |cs[i].topics|
  {
    CategoryLocked(cs, r, first, i) || (j > 0 && !TopicComplete(r, cs[i].id, cs[i].topics[j - 1]))
  }

  /**
   * `challengeLocked`: inside an open topic, an empty list opens only the first challenge; a
   * non-empty list opens every listed challenge and the one at the position of the list's length.
   */
  predicate ChallengeLocked(cs: seq<Category>, r: Record, first: bool, i: nat, j: nat, k: nat)
    requires ValidPosition(cs, i, j, k)
  {
    if CategoryLocked(cs, r, first, i) || TopicLocked(cs, r, first, i, j) then true
    else
      var l := CompletedList(r, cs[i].id, cs[i].topics[j].id);
      if |l| == 0 then k != 0
      else if cs[i].topics[j].challenges[k].id in l then false
      else k != |l|
  }

  /** A challenge is shown as a link: its topic is open (the page lists no challenges otherwise) and it is not locked. */
  predicate Opens(cs: seq<Category>, r: Record, first: bool, i: nat, j: nat, k: nat)
    requires ValidPosition(cs, i, j, k)
  {
    !TopicLocked(cs, r, first, i, j) && !ChallengeLocked(cs, r, first, i, j, k)
  }

  /** Completeness is a count: any stored list as long as the challenge list completes the topic, whatever ids it holds. */
  lemma CompleteByCount(r: Record, cat: string, t: Topic, l: seq<int>)
    requires TopicEntry(r, cat, t.id) == Some(TopicProgress(Some(l), map[]))
    requires |l| == |t.challenges|
    ensures TopicComplete(r, cat, t)
  {
  }

  /** A completed challenge is never locked once its category and topic are open and the list is non-empty. */
  lemma CompletedNeverLocked(cs: seq<Category>, r: Record, first: bool, i: nat, j: nat, k: nat)
    requires ValidPosition(cs, i, j, k)
    requires !TopicLocked(cs, r, first, i, j)
    requires cs[i].topics[j].challenges[k].id in CompletedList(r, cs[i].id, cs[i].topics[j].id)
    ensures !ChallengeLocked(cs, r, first, i, j, k)
  {
  }

  /**
   * A first-time user (hydrated, with an empty record) may open exactly one challenge: the first
   * challenge of the first topic of the first category.
   */
  lemma EmptyRecordUnlocksOne(cs: seq<Category>, i: nat, j: nat, k: nat)
    requires ValidPosition(cs, i, j, k)
    ensures Opens(cs, map[], true, i, j, k) <==> i == 0 && j == 0 && k == 0
  {
    if i == 0 && j > 0 {
      assert !TopicComplete(map[], cs[i].id, cs[i].topics[j - 1]);
    }
  }

  /** The first `m` challenge ids of a topic, in order. */
  function FirstIds(t: Topic, m: nat): (ids: seq<int>)
    requires m <= |t.challenges|
    ensures |ids| == m
    ensures forall k :: 0 <= k < m ==> ids[k] == t.challenges[k].id
  {
    if m == 0 then [] else FirstIds(t, m - 1) + [t.challenges[m - 1].id]
  }

  predicate DistinctChallengeIds(t: Topic)
  {
    forall a, b :: 0 <= a < b < |t.challenges| ==> t.challenges[a].id != t.challenges[b].id
  }

  /**
   * In an open topic whose list is exactly its first `m` challenge ids in order, with `m` below
   * the number of challenges, the open challenges are exactly those at positions 0 to `m`.
   */
  lemma PrefixUnlocksNext(cs: seq<Category>, r: Record, first: bool, i: nat, j: nat, m: nat, k: nat)
    requires ValidPosition(cs, i, j, k)
    requires !TopicLocked(cs, r, first, i, j)
    requires DistinctChallengeIds(cs[i].topics[j])
    requires m < |cs[i].topics[j].challenges|
    requires CompletedList(r, cs[i].id, cs[i].topics[j].id) == FirstIds(cs[i].topics[j], m)
    ensures Opens(cs, r, first, i, j, k) <==> k <= m
  {
    var t := cs[i].topics[j];
    var l := FirstIds(t, m);
    if m > 0 && k > m {
      forall a | 0 <= a < m
        ensures l[a] != t.challenges[k].id
      {
        assert l[a] == t.challenges[a].id;
      }
    }
    if m > 0 && k < m {
      assert l[k] == t.challenges[k].id;
    }
  }

  /** Completing the next challenge of a topic extends the listed prefix by one, opening the challenge after it. */
  lemma CompleteNextExtendsPrefix(r: Record, cat: string, t: Topic, m: nat)
    requires DistinctChallengeIds(t)
    requires m < |t.challenges|
    requires CompletedList(r, cat, t.id) == FirstIds(t, m)
    ensures CompletedList(Complete(r, cat, t.id, t.challenges[m].id), cat, t.id) == FirstIds(t, m + 1)
  {
    var l := FirstIds(t, m);
    forall a | 0 <= a < m
      ensures l[a] != t.challenges[m].id
    {
      assert l[a] == t.challenges[a].id;
    }
  }
}
