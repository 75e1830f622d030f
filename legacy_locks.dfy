/**
 * The lock rules of the older curriculum page, and how they differ from the current ones. The
 * older page locks categories by the same rule but does not let a locked category lock its
 * topics, and it opens a challenge when its predecessor is listed rather than by the length of
 * the list.
 */
module LegacyLocks {
  import opened Curriculum
  import opened Progress
  import opened CurriculumLocks

  /** `topicLocked` of the older page: a first-time user sees only the very first topic open. */
  predicate LegacyTopicLocked(cs: seq<Category>, r: Record, first: bool, i: nat, j: nat)
    requires i < |cs| && j < |cs[i].topics|
  {
    (first && (i > 0 || j > 0)) || (j > 0 && !TopicComplete(r, cs[i].id, cs[i].topics[j - 1]))
  }

  /** `challengeLocked` of the older page: a challenge after the first needs its predecessor's id listed. */
  predicate LegacyChallengeLocked(cs: seq<Category>, r: Record, first: bool, i: nat, j: nat, k: nat)
    requires ValidPosition(cs, i, j, k)
  {
    (first && (i > 0 || j > 0 || k > 0))
    || (k > 0 && cs[i].topics[j].challenges[k - 1].id !in CompletedList(r, cs[i].id, cs[i].topics[j].id))
  }

  /** A challenge is shown as a link on the older page. */
  predicate LegacyOpens(cs: seq<Category>, r: Record, first: bool, i: nat, j: nat, k: nat)
    requires ValidPosition(cs, i, j, k)
  {
    !LegacyTopicLocked(cs, r, first, i, j) && !LegacyChallengeLocked(cs, r, first, i, j, k)
  }

  /** For a first-time user both pages open exactly the first challenge of the first topic of the first category. */
  lemma LegacyEmptyRecordUnlocksOne(cs: seq<Category>, i: nat, j: nat, k: nat)
    requires ValidPosition(cs, i, j, k)
    ensures LegacyOpens(cs, map[], true, i, j, k) <==> i == 0 && j == 0 && k == 0
    ensures LegacyOpens(cs, map[], true, i, j, k) <==> Opens(cs, map[], true, i, j, k)
  {
    EmptyRecordUnlocksOne(cs, i, j, k);
  }

  /** On the older page a challenge after the first of an open topic opens exactly when its predecessor is listed. */
  lemma LegacyPredecessorRule(cs: seq<Category>, r: Record, i: nat, j: nat, k: nat)
    requires ValidPosition(cs, i, j, k) && k > 0
    requires !LegacyTopicLocked(cs, r, false, i, j)
    ensures LegacyOpens(cs, r, false, i, j, k)
        <==> cs[i].topics[j].challenges[k - 1].id in CompletedList(r, cs[i].id, cs[i].topics[j].id)
  {
  }

  /**
   * The older page does not let a locked category lock its first topic: a returning learner whose
   * previous category is incomplete may open its first challenge there, and the current page
   * refuses it.
   */
  lemma LegacyIgnoresCategoryLock(cs: seq<Category>, r: Record, i: nat)
    requires ValidPosition(cs, i, 0, 0)
    requires CategoryLocked(cs, r, false, i)
    ensures LegacyOpens(cs, r, false, i, 0, 0)
    ensures !Opens(cs, r, false, i, 0, 0)
  {
  }

  /**
   * A listed challenge whose predecessor is not listed stays locked on the older page, while the
   * current page opens it whenever its topic is open.
   */
  lemma LegacyLocksCompleted(cs: seq<Category>, r: Record, i: nat, j: nat, k: nat)
    requires ValidPosition(cs, i, j, k) && k > 0
    requires cs[i].topics[j].challenges[k].id in CompletedList(r, cs[i].id, cs[i].topics[j].id)
    requires cs[i].topics[j].challenges[k - 1].id !in CompletedList(r, cs[i].id, cs[i].topics[j].id)
    ensures !LegacyOpens(cs, r, false, i, j, k)
    ensures !TopicLocked(cs, r, false, i, j) ==> Opens(cs, r, false, i, j, k)
  {
    if !TopicLocked(cs, r, false, i, j) {
      CompletedNeverLocked(cs, r, false, i, j, k);
    }
  }

  /**
   * When challenges are completed in order, the two pages agree inside a topic both leave open:
   * with the first `m` ids listed, challenges 0 to `m` open and the rest stay locked.
   */
  lemma PrefixAgreement(cs: seq<Category>, r: Record, i: nat, j: nat, m: nat, k: nat)
    requires ValidPosition(cs, i, j, k)
    requires !TopicLocked(cs, r, false, i, j)
    requires DistinctChallengeIds(cs[i].topics[j])
    requires m < |cs[i].topics[j].challenges|
    requires CompletedList(r, cs[i].id, cs[i].topics[j].id) == FirstIds(cs[i].topics[j], m)
    ensures LegacyOpens(cs, r, false, i, j, k) <==> k <= m
    ensures LegacyOpens(cs, r, false, i, j, k) <==> Opens(cs, r, false, i, j, k)
  {
    PrefixUnlocksNext(cs, r, false, i, j, m, k);
    var t := cs[i].topics[j];
    var l := FirstIds(t, m);
    if 0 < k <= m {
      assert l[k - 1] == t.challenges[k - 1].id;
    } else if k > m {
      forall a | 0 <= a < m
        ensures l[a] != t.challenges[k - 1].id
      {
        assert l[a] == t.challenges[a].id;
      }
    }
  }
}
