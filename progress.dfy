/**
 * The completion record kept in local storage under `mathProgress_year2`: category id ->
 * `{ topics: { topic id -> { completedChallenges: [challenge ids] } } }`, and the update
 * `handleComplete` of the problem view makes to it.
 */
module Progress {
  import opened Js

  /**
   * A topic entry. `completed` is the `completedChallenges` field (absent: `None`); `extra`
   * stands for any other fields the entry carries, which every update copies unchanged.
   */
  datatype TopicProgress = TopicProgress(completed: Option<seq<int>>, extra: map<string, string>)

  /** A category entry: its `topics` object (absent: `None`) and any other fields. */
  datatype CategoryProgress = CategoryProgress(topics: Option<map<string, TopicProgress>>, extra: map<string, string>)

  type Record = map<string, CategoryProgress>

  /** What `localStorage.getItem(key)` holds: nothing, the text `null`, a record, or text that does not parse. */
  datatype Stored = Missing | NullDoc | Doc(record: Record) | Corrupt

  /** `progress[categoryId]?.topics?.[topicId]`. */
  function TopicEntry(r: Record, cat: string, topic: string): Option<TopicProgress>
  {
    if cat in r && r[cat].topics.Some? && topic in r[cat].topics.value then Some(r[cat].topics.value[topic])
    else None
  }

  /** `progress[categoryId]?.topics?.[topicId]?.completedChallenges || []`. */
  function CompletedList(r: Record, cat: string, topic: string): seq<int>
  {
    match TopicEntry(r, cat, topic)
    case Some(TopicProgress(Some(l), _)) => l
    case _ => []
  }

  predicate NoDuplicates(l: seq<int>)
  {
    forall a, b :: 0 <= a < b < |l| ==> l[a] != l[b]
  }

  // ---------------------------------------------------------------------------
  // handleComplete
  // ---------------------------------------------------------------------------

  /**
   * The record `handleComplete` leaves behind after challenge `id` of `topic` in `cat` is
   * completed: unchanged when the id is already listed, otherwise the topic's list gains the id
   * at its end, with the category and topic entries created when they are missing.
   */
  function Complete(saved: Record, cat: string, topic: string, id: int): (r: Record)
    ensures id in CompletedList(saved, cat, topic) ==> r == saved
    ensures id !in CompletedList(saved, cat, topic) ==> CompletedList(r, cat, topic) == CompletedList(saved, cat, topic) + [id]
    ensures forall c :: c != cat ==> (c in r <==> c in saved) && (c in saved ==> r[c] == saved[c])
    ensures cat in r
    ensures forall t :: t != topic ==> TopicEntry(r, cat, t) == TopicEntry(saved, cat, t)
    ensures cat in saved ==> r[cat].extra == saved[cat].extra
    ensures TopicEntry(saved, cat, topic).Some? ==> TopicEntry(r, cat, topic).value.extra == TopicEntry(saved, cat, topic).value.extra
  {
    var existing := match TopicEntry(saved, cat, topic) case Some(e) => e case None => TopicProgress(None, map[]);
    var list := CompletedList(saved, cat, topic);
    if id in list then saved
    else
      var entry := if cat in saved then saved[cat] else CategoryProgress(None, map[]);
      var topics := match entry.topics case Some(ts) => ts case None => map[];
      var r := saved[cat := CategoryProgress(Some(topics[topic := TopicProgress(Some(list + [id]), existing.extra)]), entry.extra)];
      assert TopicEntry(r, cat, topic) == Some(TopicProgress(Some(list + [id]), existing.extra));
      r
  }

  /** Completing the same challenge twice leaves the record of completing it once. */
  lemma CompleteIdempotent(saved: Record, cat: string, topic: string, id: int)
    ensures Complete(Complete(saved, cat, topic, id), cat, topic, id) == Complete(saved, cat, topic, id)
  {
    var once := Complete(saved, cat, topic, id);
    assert id in CompletedList(once, cat, topic);
  }

  /** After completion the challenge is listed, so the problem view reports it as completed. */
  lemma CompleteLists(saved: Record, cat: string, topic: string, id: int)
    ensures id in CompletedList(Complete(saved, cat, topic, id), cat, topic)
  {
    if id !in CompletedList(saved, cat, topic) {
      var l := CompletedList(saved, cat, topic);
      assert (l + [id])[|l|] == id;
    }
  }

  /** A list without repeated ids never gains one. */
  lemma CompleteKeepsNoDuplicates(saved: Record, cat: string, topic: string, id: int)
    requires NoDuplicates(CompletedList(saved, cat, topic))
    ensures NoDuplicates(CompletedList(Complete(saved, cat, topic, id), cat, topic))
  {
    var l := CompletedList(saved, cat, topic);
    if id !in l {
      var l' := l + [id];
      forall a, b | 0 <= a < b < |l'|
        ensures l'[a] != l'[b]
      {
        if b == |l| {
          assert l'[a] == l[a];
        } else {
          assert l'[a] == l[a] && l'[b] == l[b];
        }
      }
    }
  }

  // ---------------------------------------------------------------------------
  // Reading the stored document
  // ---------------------------------------------------------------------------

  /** The outcome of the problem view's handlers, which parse storage without a guard. */
  datatype Outcome<T> = Done(value: T) | Throws

  /**
   * `JSON.parse(localStorage.getItem(key) || "{}")` followed by a property read, as the problem
   * view does it: a missing entry reads as `{}`, text that does not parse throws, and so does the
   * document `null`, whose properties cannot be read.
   */
  function ParseForRead(st: Stored): (o: Outcome<Record>)
    ensures o.Throws? <==> st == NullDoc || st == Corrupt
    ensures st.Doc? ==> o == Done(st.record)
  {
    match st
    case Missing => Done(map[])
    case NullDoc => Throws
    case Doc(r) => Done(r)
    case Corrupt => Throws
  }

  /** The `completed` flag the problem view shows: whether `Number(challengeId)` is listed. */
  function CompletedFlag(st: Stored, cat: string, topic: string, id: int): (o: Outcome<bool>)
    ensures o.Throws? <==> ParseForRead(st).Throws?
    ensures st.Doc? ==> o == Done(id in CompletedList(st.record, cat, topic))
    ensures st == Missing ==> o == Done(false)
  {
    match ParseForRead(st)
    case Done(r) => Done(id in CompletedList(r, cat, topic))
    case Throws => Throws
  }

  /**
   * `handleComplete`: the stored document afterwards. Nothing is written when the challenge is
   * already listed; a document that cannot be read makes the handler throw before it writes.
   */
  function HandleComplete(st: Stored, cat: string, topic: string, id: int): (o: Outcome<Stored>)
    ensures o.Throws? <==> st == NullDoc || st == Corrupt
    ensures st.Doc? && id in CompletedList(st.record, cat, topic) ==> o == Done(st)
    ensures st.Doc? ==> o.value.Doc? && o.value.record == Complete(st.record, cat, topic, id)
    ensures st == Missing ==> o.value.Doc? && CompletedList(o.value.record, cat, topic) == [id]
  {
    match ParseForRead(st)
    case Throws => Throws
    case Done(saved) =>
      if id in CompletedList(saved, cat, topic) then Done(st)
      else Done(Doc(Complete(saved, cat, topic, id)))
  }

  /** After the handler, reading the flag again reports the challenge as completed. */
  lemma FlagAfterComplete(st: Stored, cat: string, topic: string, id: int)
    requires !HandleComplete(st, cat, topic, id).Throws?
    ensures CompletedFlag(HandleComplete(st, cat, topic, id).value, cat, topic, id) == Done(true)
  {
    var saved := ParseForRead(st).value;
    CompleteLists(saved, cat, topic, id);
  }

  // ---------------------------------------------------------------------------
  // The curriculum pages' copy of the record
  // ---------------------------------------------------------------------------

  /**
   * The re-hydrating read of the curriculum pages (`saved || {}`): anything that does not parse,
   * and the document `null`, fall back to the empty record.
   */
  function LoadOrEmpty(st: Stored): (r: Record)
    ensures st.Doc? ==> r == st.record
    ensures !st.Doc? ==> r == map[]
  {
    match st
    case Doc(rec) => rec
    case _ => map[]
  }

  /**
   * The `useState` initialiser of the curriculum pages: `JSON.parse(saved || "{}")`, or `{}`
   * when parsing fails. Unlike the load effect it has no `|| {}`, so a stored `null` gives the
   * value `null`, written `None` here.
   */
  function Initial(st: Stored): (p: Option<Record>)
    ensures p.None? <==> st == NullDoc
    ensures st.Doc? ==> p == Some(st.record)
    ensures st == Missing || st == Corrupt ==> p == Some(map[])
  {
    match st
    case Doc(rec) => Some(rec)
    case NullDoc => None
    case _ => Some(map[])
  }

  /** `JSON.stringify(progress)`, read back as what storage then holds. */
  function Serialize(p: Option<Record>): (st: Stored)
    ensures p.Some? ==> st == Doc(p.value)
    ensures p.None? ==> st == NullDoc
  {
    if p.Some? then Doc(p.value) else NullDoc
  }

  /**
   * The `progress` and `hydrated` state of a curriculum page together with the storage it reads
   * and writes. The save effect writes only once the page has re-hydrated.
   */
  class ProgressPage {
    var storage: Stored
    /** The page's `progress` value; `None` is `null`. */
    var progress: Option<Record>
    var hydrated: bool

    /** The state before the first render: `progress` from the initialiser, `hydrated` false. */
    constructor(st: Stored)
      ensures storage == st && progress == Initial(st) && !hydrated
    {
      storage := st;
      progress := Initial(st);
      hydrated := false;
    }

    /**
     * Whether rendering throws. Every render asks `isCategoryComplete` of every category, which
     * reads `progress[categoryId]`: that throws a TypeError exactly when `progress` is `null`.
     */
    predicate RenderThrows()
      reads this
    {
      progress.None?
    }

    /** The load effect, run on mount and on every navigation. */
    method Hydrate()
      modifies this
      ensures storage == old(storage) && progress == Some(LoadOrEmpty(storage)) && hydrated
      ensures !RenderThrows()
    {
      progress := Some(LoadOrEmpty(storage));
      hydrated := true;
    }

    /** The save effect: it writes the record back only after hydration. */
    method Save()
      modifies this
      ensures progress == old(progress) && hydrated == old(hydrated)
      ensures storage == if hydrated then Serialize(progress) else old(storage)
    {
      if hydrated {
        storage := Serialize(progress);
      }
    }

    /** `isFirstTimeUser`: hydrated with a record that has no keys. */
    predicate FirstTimeUser()
      reads this
    {
      hydrated && progress.Some? && |progress.value| == 0
    }
  }

  /** Saving before hydration never overwrites what is stored, however the page started. */
  method SaveBeforeHydration(st: Stored) returns (after: Stored)
    ensures after == st
  {
    var page := new ProgressPage(st);
    page.Save();
    after := page.storage;
  }

  /**
   * A visit to a curriculum page. The first render comes before any effect, so with `null`
   * stored it throws and nothing is written. Otherwise the load and save effects run: a stored
   * record is written back exactly as read, and missing or corrupt storage becomes the empty
   * record.
   */
  method VisitPage(st: Stored) returns (after: Outcome<Stored>)
    ensures after.Throws? <==> st == NullDoc
    ensures st.Doc? ==> after == Done(st)
    ensures st == Missing || st == Corrupt ==> after == Done(Doc(map[]))
  {
    var page := new ProgressPage(st);
    if page.RenderThrows() {
      return Throws;
    }
    page.Hydrate();
    page.Save();
    after := Done(page.storage);
  }
}
