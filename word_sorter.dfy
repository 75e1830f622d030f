/**
 * Word sorter: six words are drawn from the bank; the player drags each into the noun, verb or
 * adjective bucket, and once all six are placed the round is scored.
 */
module WordSorter {
  import opened Js
  import opened Drill
  import opened Shuffle
  import opened SorterWords

  /** The words of a list of entries. */
  function Names(ws: seq<Entry>): (r: seq<string>)
    ensures |r| == |ws|
    ensures forall i :: 0 <= i < |ws| ==> r[i] == ws[i].word
  {
    seq(|ws|, i requires 0 <= i < |ws| => ws[i].word)
  }

  /** The 36 bank words are all different. */
  lemma BankWordsDistinct()
    ensures Distinct(Names(WordBank))
  {
    Ranks();
    var ns := Names(WordBank);
    forall i, j | 0 <= i < j < |ns|
      ensures ns[i] != ns[j]
    {
      assert Rank(ns[i]) == i && Rank(ns[j]) == j;
    }
  }

  /** Entries of `list`, no word twice. */
  predicate Drawn(ws: seq<Entry>, list: seq<Entry>)
  {
    Distinct(Names(ws)) && forall w :: w in ws ==> w in list
  }

  /**
   * `generateSet`: the bank in random order, then its first six entries. The page reorders with
   * a random comparator; any reordering is a permutation, modelled by a shuffle.
   */
  method GenerateSet(shuffle: nat -> Unit) returns (ws: seq<Entry>)
    ensures |ws| == 6 && Drawn(ws, WordBank)
  {
    BankWordsDistinct();
    ws := Draw(WordBank, shuffle);
  }

  method Draw(list: seq<Entry>, shuffle: nat -> Unit) returns (ws: seq<Entry>)
    requires |list| >= 6 && Distinct(Names(list))
    ensures |ws| == 6 && Drawn(ws, list)
  {
    assert Distinct(list) by {
      forall a, b | 0 <= a < b < |list|
        ensures list[a] != list[b]
      {
        assert Names(list)[a] != Names(list)[b];
      }
    }
    ws := Take(list, 6, shuffle);
    KeysDistinct(ws, list, (e: Entry) => e.word);
  }

  /** Nothing makes a set mix the types: the first six bank words, all nouns, are a possible set. */
  lemma SixNounsPossible()
    ensures var ws := WordBank[..6];
      |ws| == 6 && Drawn(ws, WordBank) && forall w :: w in ws ==> w.kind == Noun
  {
    BankWordsDistinct();
    var ws := WordBank[..6];
    assert forall k :: 0 <= k < 6 ==> WordBank[k].kind == Noun;
    assert forall i :: 0 <= i < 6 ==> Names(ws)[i] == Names(WordBank)[i];
  }

  /** The entry with a word, `words.find(w => w.word === id)`. */
  function FindEntry(ws: seq<Entry>, word: string): (r: Option<Entry>)
    ensures r.Some? ==> r.value in ws && r.value.word == word
    ensures r.None? <==> forall w :: w in ws ==> w.word != word
  {
    if ws == [] then None
    else if ws[0].word == word then Some(ws[0])
    else FindEntry(ws[1..], word)
  }

  /** `words.filter(w => w.word !== word)`. */
  function RemoveWord(ws: seq<Entry>, word: string): (r: seq<Entry>)
    ensures forall w :: w in r <==> w in ws && w.word != word
    ensures |r| <= |ws|
  {
    if ws == [] then []
    else if ws[0].word != word then [ws[0]] + RemoveWord(ws[1..], word)
    else RemoveWord(ws[1..], word)
  }

  /** With no word twice, filtering out the word of an entry takes out that entry and nothing else. */
  lemma {:induction false} RemoveOne(ws: seq<Entry>, e: Entry)
    requires Distinct(Names(ws)) && e in ws
    ensures multiset(RemoveWord(ws, e.word)) + multiset{e} == multiset(ws)
  {
    assert ws == [ws[0]] + ws[1..];
    if ws[0] == e {
      RemoveHead(ws);
    } else {
      OtherWord(ws, e);
      TailNamesDistinct(ws);
      RemoveOne(ws[1..], e);
      assert RemoveWord(ws, e.word) == [ws[0]] + RemoveWord(ws[1..], e.word);
    }
  }

  /** An entry after the first has a word other than the first's. */
  lemma OtherWord(ws: seq<Entry>, e: Entry)
    requires Distinct(Names(ws)) && e in ws && ws[0] != e
    ensures ws[0].word != e.word && e in ws[1..]
  {
    var k :| 0 <= k < |ws| && ws[k] == e;
    assert Names(ws)[0] != Names(ws)[k];
  }

  /** Filtering out the first word, which no other entry has, leaves the rest. */
  lemma RemoveHead(ws: seq<Entry>)
    requires Distinct(Names(ws)) && ws != []
    ensures RemoveWord(ws, ws[0].word) == ws[1..]
  {
    var tail := ws[1..];
    forall w | w in tail
      ensures w.word != ws[0].word
    {
      var k :| 0 <= k < |tail| && tail[k] == w;
      assert Names(ws)[0] != Names(ws)[k + 1];
    }
    NothingRemoved(tail, ws[0].word);
  }

  lemma TailNamesDistinct(ws: seq<Entry>)
    requires Distinct(Names(ws)) && ws != []
    ensures Distinct(Names(ws[1..]))
  {
    var tail := ws[1..];
    forall i, j | 0 <= i < j < |tail|
      ensures Names(tail)[i] != Names(tail)[j]
    {
      assert Names(ws)[i + 1] != Names(ws)[j + 1];
    }
  }

  lemma {:induction false} NothingRemoved(ws: seq<Entry>, word: string)
    requires forall w :: w in ws ==> w.word != word
    ensures RemoveWord(ws, word) == ws
  {
    if ws != [] {
      assert ws == [ws[0]] + ws[1..];
      NothingRemoved(ws[1..], word);
    }
  }

  /** `getTypeOfBucket`: the first bucket holding the entry, none when no bucket does. */
  function BucketOf(w: Entry, nouns: seq<Entry>, verbs: seq<Entry>, adjectives: seq<Entry>): (r: Option<WordType>)
    ensures r == Some(Noun) <==> w in nouns
    ensures r == Some(Verb) <==> w !in nouns && w in verbs
    ensures r == Some(Adjective) <==> w !in nouns && w !in verbs && w in adjectives
    ensures r.None? <==> w !in nouns && w !in verbs && w !in adjectives
  {
    if w in nouns then Some(Noun)
    else if w in verbs then Some(Verb)
    else if w in adjectives then Some(Adjective)
    else None
  }

  /** The entries of `sorted` whose type is the one `getTypeOfBucket` reports. */
  function CorrectCount(sorted: seq<Entry>, nouns: seq<Entry>, verbs: seq<Entry>, adjectives: seq<Entry>): (n: nat)
    ensures n <= |sorted|
    ensures n == |sorted| <==> forall w :: w in sorted ==> BucketOf(w, nouns, verbs, adjectives) == Some(w.kind)
  {
    if sorted == [] then 0
    else
      var rest := CorrectCount(sorted[1..], nouns, verbs, adjectives);
      assert forall w :: w in sorted <==> w == sorted[0] || w in sorted[1..];
      (if BucketOf(sorted[0], nouns, verbs, adjectives) == Some(sorted[0].kind) then 1 else 0) + rest
  }

  /** The entries of `s` of one type. */
  function KindCount(s: seq<Entry>, kind: WordType): (n: nat)
    ensures n <= |s|
    ensures n == |s| <==> forall w :: w in s ==> w.kind == kind
  {
    if s == [] then 0
    else
      var rest := KindCount(s[1..], kind);
      assert forall w :: w in s <==> w == s[0] || w in s[1..];
      (if s[0].kind == kind then 1 else 0) + rest
  }

  /**
   * With no entry in two buckets, the score of a round is the number of nouns in the noun bucket,
   * plus the verbs in the verb bucket, plus the adjectives in the adjective bucket.
   */
  lemma CountByBucket(nouns: seq<Entry>, verbs: seq<Entry>, adjectives: seq<Entry>)
    requires Distinct(nouns + verbs + adjectives)
    ensures CorrectCount(nouns + verbs + adjectives, nouns, verbs, adjectives)
      == KindCount(nouns, Noun) + KindCount(verbs, Verb) + KindCount(adjectives, Adjective)
  {
    BucketsApart(nouns, verbs, adjectives);
    forall w | w in verbs
      ensures BucketOf(w, nouns, verbs, adjectives) == Some(Verb)
    {
    }
    forall w | w in adjectives
      ensures BucketOf(w, nouns, verbs, adjectives) == Some(Adjective)
    {
    }
    CountInBucket(nouns, Noun, nouns, verbs, adjectives);
    CountInBucket(verbs, Verb, nouns, verbs, adjectives);
    CountInBucket(adjectives, Adjective, nouns, verbs, adjectives);
    assert nouns + verbs + adjectives == nouns + (verbs + adjectives);
    CountSplit(nouns, verbs + adjectives, nouns, verbs, adjectives);
    CountSplit(verbs, adjectives, nouns, verbs, adjectives);
  }

  /** Buckets that hold no entry twice between them share no entry. */
  lemma BucketsApart(nouns: seq<Entry>, verbs: seq<Entry>, adjectives: seq<Entry>)
    requires Distinct(nouns + verbs + adjectives)
    ensures forall w :: w in verbs ==> w !in nouns
    ensures forall w :: w in adjectives ==> w !in nouns && w !in verbs
  {
    var all := nouns + verbs + adjectives;
    forall w | w in verbs
      ensures w !in nouns
    {
      var k :| 0 <= k < |verbs| && verbs[k] == w;
      assert all[|nouns| + k] == w;
      forall j | 0 <= j < |nouns|
        ensures nouns[j] != w
      {
        assert all[j] == nouns[j];
      }
    }
    forall w | w in adjectives
      ensures w !in nouns && w !in verbs
    {
      var k :| 0 <= k < |adjectives| && adjectives[k] == w;
      assert all[|nouns| + |verbs| + k] == w;
      forall j | 0 <= j < |nouns|
        ensures nouns[j] != w
      {
        assert all[j] == nouns[j];
      }
      forall j | 0 <= j < |verbs|
        ensures verbs[j] != w
      {
        assert all[|nouns| + j] == verbs[j];
      }
    }
  }

  lemma {:induction false} CountSplit(a: seq<Entry>, b: seq<Entry>, nouns: seq<Entry>, verbs: seq<Entry>, adjectives: seq<Entry>)
    ensures CorrectCount(a + b, nouns, verbs, adjectives) == CorrectCount(a, nouns, verbs, adjectives) + CorrectCount(b, nouns, verbs, adjectives)
  {
    if a != [] {
      assert (a + b)[1..] == a[1..] + b;
      CountSplit(a[1..], b, nouns, verbs, adjectives);
    } else {
      assert a + b == b;
    }
  }

  /** Inside one bucket, `getTypeOfBucket` reports that bucket. */
  lemma {:induction false} CountInBucket(s: seq<Entry>, kind: WordType, nouns: seq<Entry>, verbs: seq<Entry>, adjectives: seq<Entry>)
    requires forall w :: w in s ==> BucketOf(w, nouns, verbs, adjectives) == Some(kind)
    ensures CorrectCount(s, nouns, verbs, adjectives) == KindCount(s, kind)
  {
    if s != [] {
      assert s[0] in s;
      CountInBucket(s[1..], kind, nouns, verbs, adjectives);
    }
  }

  /** Where a word is dropped: the word bank (its own column) or a bucket. */
  datatype Zone = Bank | Bucket(kind: WordType)

  class Sorter {
    var words: seq<Entry>
    var nouns: seq<Entry>
    var verbs: seq<Entry>
    var adjectives: seq<Entry>
    var score: nat
    var total: nat
    /** `Some(true)` after a perfect round, `Some(false)` after one with mistakes. */
    var feedback: Option<bool>
    var completed: bool

    /** The six entries of the round, wherever they now are: in the bank or in a bucket. */
    function Tiles(): seq<Entry>
      reads this
    {
      words + nouns + verbs + adjectives
    }

    /** The round's six entries are each in exactly one place, and no word appears twice. */
    predicate Valid()
      reads this
    {
      && |Tiles()| == 6 && Distinct(Names(Tiles()))
      && score <= total
      && (completed ==> words == [])
    }

    function Placed(): nat
      reads this
    {
      |nouns| + |verbs| + |adjectives|
    }

    /** A fresh set of six words, empty buckets. */
    constructor(shuffle: nat -> Unit)
      ensures Valid() && Drawn(words, WordBank)
      ensures |words| == 6 && nouns == [] && verbs == [] && adjectives == []
      ensures score == 0 && total == 0 && feedback.None? && !completed
    {
      var ws := GenerateSet(shuffle);
      words := ws;
      nouns, verbs, adjectives := [], [], [];
      score, total := 0, 0;
      feedback := None;
      completed := false;
      assert ws + [] + [] + [] == ws;
    }

    /**
     * `handleDragEnd` for a tile of the bank (the only draggable tiles; none while a finished
     * round is shown): nothing happens without a destination, when the tile is dropped back on
     * the bank, or for a word not in the bank; otherwise the entry leaves the bank and goes to
     * the end of the bucket. No entry is lost or duplicated.
     */
    method Drop(destination: Option<Zone>, word: string)
      requires Valid() && !completed
      modifies this
      ensures Valid()
      ensures multiset(Tiles()) == old(multiset(Tiles()))
      ensures destination.None? || destination == Some(Bank) || FindEntry(old(words), word).None? ==>
        words == old(words) && nouns == old(nouns) && verbs == old(verbs) && adjectives == old(adjectives)
      ensures destination.Some? && destination.value.Bucket? && FindEntry(old(words), word).Some? ==>
        var e, kind := FindEntry(old(words), word).value, destination.value.kind;
        && words == RemoveWord(old(words), word)
        && nouns == Into(old(nouns), e, kind, Noun)
        && verbs == Into(old(verbs), e, kind, Verb)
        && adjectives == Into(old(adjectives), e, kind, Adjective)
      ensures score == old(score) && total == old(total) && feedback == old(feedback) && completed == old(completed)
    {
      if destination.None? || destination == Some(Bank) {
        return;
      }
      var found := FindEntry(words, word);
      if found.None? {
        return;
      }
      Move(found.value, destination.value.kind);
    }

    /** The entry leaves the bank and goes to the end of the bucket for `kind`. */
    method Move(e: Entry, kind: WordType)
      requires Valid() && !completed && e in words
      modifies this
      ensures Valid()
      ensures multiset(Tiles()) == old(multiset(Tiles()))
      ensures words == RemoveWord(old(words), e.word)
      ensures nouns == Into(old(nouns), e, kind, Noun)
      ensures verbs == Into(old(verbs), e, kind, Verb)
      ensures adjectives == Into(old(adjectives), e, kind, Adjective)
      ensures score == old(score) && total == old(total) && feedback == old(feedback) && completed == old(completed)
    {
      var w, n, v, a := RemoveWord(words, e.word), Into(nouns, e, kind, Noun), Into(verbs, e, kind, Verb), Into(adjectives, e, kind, Adjective);
      MoveTile(words, nouns, verbs, adjectives, e, kind);
      NamesPermutation(w + n + v + a, words + nouns + verbs + adjectives);
      words, nouns, verbs, adjectives := w, n, v, a;
    }

    /**
     * The scoring step once six words are placed: the score grows by the entries whose type is
     * their bucket's, the total by six, and the feedback says whether all six were right.
     */
    method Settle()
      requires Valid() && Placed() == 6 && !completed
      modifies this
      ensures Valid()
      ensures var right := CorrectCount(nouns + verbs + adjectives, nouns, verbs, adjectives);
        score == old(score) + right && total == old(total) + 6 && feedback == Some(right == 6)
      ensures completed
      ensures words == old(words) && nouns == old(nouns) && verbs == old(verbs) && adjectives == old(adjectives)
    {
      var sorted := nouns + verbs + adjectives;
      var right := CorrectCount(sorted, nouns, verbs, adjectives);
      score := score + right;
      total := total + |sorted|;
      feedback := Some(right == |sorted|);
      completed := true;
    }

    /** The delayed step after scoring: a new set of words, empty buckets. */
    method NextSet(shuffle: nat -> Unit)
      requires Valid()
      modifies this
      ensures Valid() && Drawn(words, WordBank)
      ensures |words| == 6 && nouns == [] && verbs == [] && adjectives == []
      ensures score == old(score) && total == old(total) && feedback.None? && !completed
    {
      var ws := GenerateSet(shuffle);
      words := ws;
      nouns, verbs, adjectives := [], [], [];
      feedback := None;
      completed := false;
      assert ws + [] + [] + [] == ws;
    }
  }

  /** The bucket for `target` after an entry is dropped on the bucket for `kind`. */
  function Into(bucket: seq<Entry>, e: Entry, kind: WordType, target: WordType): seq<Entry>
  {
    if kind == target then bucket + [e] else bucket
  }

  /** Moving an entry of the bank to a bucket loses and duplicates nothing. */
  lemma MoveTile(words: seq<Entry>, nouns: seq<Entry>, verbs: seq<Entry>, adjectives: seq<Entry>, e: Entry, kind: WordType)
    requires Distinct(Names(words + nouns + verbs + adjectives)) && e in words
    ensures var after := RemoveWord(words, e.word) + Into(nouns, e, kind, Noun) + Into(verbs, e, kind, Verb) + Into(adjectives, e, kind, Adjective);
      multiset(after) == multiset(words + nouns + verbs + adjectives) && |after| == |words + nouns + verbs + adjectives|
  {
    assert words + nouns + verbs + adjectives == words + (nouns + verbs + adjectives);
    BankNamesDistinct(words, nouns + verbs + adjectives);
    RemoveOne(words, e);
    MoveCounts(words, RemoveWord(words, e.word), nouns, verbs, adjectives, e, kind);
  }

  lemma MoveCounts(words: seq<Entry>, rest: seq<Entry>, nouns: seq<Entry>, verbs: seq<Entry>, adjectives: seq<Entry>, e: Entry, kind: WordType)
    requires multiset(rest) + multiset{e} == multiset(words)
    ensures var after := rest + Into(nouns, e, kind, Noun) + Into(verbs, e, kind, Verb) + Into(adjectives, e, kind, Adjective);
      multiset(after) == multiset(words + nouns + verbs + adjectives) && |after| == |words + nouns + verbs + adjectives|
  {
    var n, v, a := Into(nouns, e, kind, Noun), Into(verbs, e, kind, Verb), Into(adjectives, e, kind, Adjective);
    assert multiset(n) + multiset(v) + multiset(a) == multiset(nouns) + multiset(verbs) + multiset(adjectives) + multiset{e};
    assert multiset(rest + n + v + a) == multiset(rest) + multiset(n) + multiset(v) + multiset(a);
    assert multiset(words + nouns + verbs + adjectives) == multiset(words) + multiset(nouns) + multiset(verbs) + multiset(adjectives);
  }

  /** Entries with different words are different entries. */
  lemma DistinctByName(s: seq<Entry>)
    requires Distinct(Names(s))
    ensures Distinct(s)
  {
    forall a, b | 0 <= a < b < |s|
      ensures s[a] != s[b]
    {
      assert Names(s)[a] != Names(s)[b];
    }
  }

  /** Rearranging entries with different words keeps their words different. */
  lemma NamesPermutation(a: seq<Entry>, b: seq<Entry>)
    requires multiset(a) == multiset(b) && Distinct(Names(b))
    ensures Distinct(Names(a))
  {
    DistinctByName(b);
    DistinctPermutation(a, b);
    forall x | x in a
      ensures x in b
    {
      assert x in multiset(b);
    }
    KeysDistinct(a, b, (e: Entry) => e.word);
  }

  /** The bank part of a round with no word twice has no word twice. */
  lemma BankNamesDistinct(words: seq<Entry>, placed: seq<Entry>)
    requires Distinct(Names(words + placed))
    ensures Distinct(Names(words))
  {
    forall i, j | 0 <= i < j < |words|
      ensures Names(words)[i] != Names(words)[j]
    {
      assert Names(words + placed)[i] != Names(words + placed)[j];
    }
  }

  /** With the round in a valid state, the score of a round counts its right placements. */
  lemma SettledScore(s: Sorter)
    requires s.Valid()
    ensures CorrectCount(s.nouns + s.verbs + s.adjectives, s.nouns, s.verbs, s.adjectives)
      == KindCount(s.nouns, Noun) + KindCount(s.verbs, Verb) + KindCount(s.adjectives, Adjective)
  {
    var placed := s.nouns + s.verbs + s.adjectives;
    assert s.Tiles() == s.words + placed;
    DistinctByName(s.Tiles());
    forall i, j | 0 <= i < j < |placed|
      ensures placed[i] != placed[j]
    {
      assert s.Tiles()[|s.words| + i] == placed[i];
      assert s.Tiles()[|s.words| + j] == placed[j];
    }
    CountByBucket(s.nouns, s.verbs, s.adjectives);
  }
}
