/**
 * The challenge loader: the module path built from the route parameters, the helper that turns a
 * topic id such as `numbers-and-counting` into the component prefix `NumbersAndCounting`, and the
 * countdown that sends the learner back to the curriculum when no module exists.
 */
module ChallengeLoader {
  import opened Js

  /** `word.charAt(0).toUpperCase() + word.slice(1)`. */
  function CapWord(w: string): (r: string)
    ensures |r| == |w|
    ensures ToLower(r) == ToLower(w)
    ensures '-' !in w ==> '-' !in r
    ensures w != [] && IsAsciiLower(w[0]) ==> IsAsciiUpper(r[0])
  {
    if w == [] then []
    else
      var r := [ToUpperChar(w[0])] + w[1..];
      assert ToLower(r) == [ToLowerChar(r[0])] + ToLower(r[1..]);
      assert ToLower(w) == [ToLowerChar(w[0])] + ToLower(w[1..]);
      r
  }

  function CapWords(ws: seq<string>): (rs: seq<string>)
    ensures |rs| == |ws|
    ensures forall i :: 0 <= i < |ws| ==> rs[i] == CapWord(ws[i])
  {
    if ws == [] then [] else [CapWord(ws[0])] + CapWords(ws[1..])
  }

  /** The string without any occurrence of `c`. */
  function Without(s: string, c: char): (r: string)
    ensures c !in r
  {
    if s == [] then [] else (if s[0] == c then [] else [s[0]]) + Without(s[1..], c)
  }

  lemma {:induction false} WithoutAppend(a: string, b: string, c: char)
    ensures Without(a + b, c) == Without(a, c) + Without(b, c)
  {
    if a != [] {
      assert (a + b)[1..] == a[1..] + b;
      WithoutAppend(a[1..], b, c);
    } else {
      assert a + b == b;
    }
  }

  /** `capitalizeTopicId`: split at '-', capitalise each word, join with nothing. */
  function CapitalizeTopicId(id: string): (r: string)
    ensures '-' !in r
    ensures ToLower(r) == ToLower(Without(id, '-'))
    ensures |r| == |Without(id, '-')|
  {
    var ws := Split(id, '-');
    var r := Join(CapWords(ws), []);
    CapWordsNoDash(ws);
    CapWordsLower(ws);
    JoinSplit(id, '-');
    JoinWithout(ws);
    r
  }

  lemma {:induction false} CapWordsNoDash(ws: seq<string>)
    requires forall i :: 0 <= i < |ws| ==> '-' !in ws[i]
    ensures '-' !in Join(CapWords(ws), [])
  {
    if |ws| > 1 {
      CapWordsNoDash(ws[1..]);
      assert CapWords(ws)[1..] == CapWords(ws[1..]);
    }
  }

  lemma {:induction false} CapWordsLower(ws: seq<string>)
    ensures ToLower(Join(CapWords(ws), [])) == ToLower(Join(ws, []))
  {
    if ws != [] {
      var cs := CapWords(ws);
      CapWordsLower(ws[1..]);
      assert cs[1..] == CapWords(ws[1..]);
      JoinRunTogether(cs);
      JoinRunTogether(ws);
      ToLowerAppend(cs[0], Join(cs[1..], []));
      ToLowerAppend(ws[0], Join(ws[1..], []));
    }
  }

  /** Joining with nothing runs the first word into the join of the rest. */
  lemma JoinRunTogether(ws: seq<string>)
    requires ws != []
    ensures Join(ws, []) == ws[0] + Join(ws[1..], [])
  {
    if |ws| == 1 {
      assert ws[0] + [] == ws[0];
    } else {
      assert ws[0] + [] == ws[0];
    }
  }

  /** Dropping the separators of words joined with '-' gives the words joined with nothing. */
  lemma {:induction false} JoinWithout(ws: seq<string>)
    requires forall i :: 0 <= i < |ws| ==> '-' !in ws[i]
    ensures Without(Join(ws, "-"), '-') == Join(ws, [])
  {
    if |ws| == 1 {
      WithoutAbsent(ws[0], '-');
    } else if |ws| > 1 {
      JoinWithout(ws[1..]);
      WithoutAppend(ws[0] + "-", Join(ws[1..], "-"), '-');
      WithoutAppend(ws[0], "-", '-');
      WithoutAbsent(ws[0], '-');
    }
  }

  lemma {:induction false} WithoutAbsent(s: string, c: char)
    requires c !in s
    ensures Without(s, c) == s
  {
    if s != [] {
      WithoutAbsent(s[1..], c);
      assert [s[0]] + s[1..] == s;
    }
  }

  /** A topic id made of words joined by '-' becomes the words, each capitalised, run together. */
  lemma CapitalizeWords(ws: seq<string>)
    requires |ws| >= 1
    requires forall i :: 0 <= i < |ws| ==> '-' !in ws[i]
    ensures CapitalizeTopicId(Join(ws, "-")) == Join(CapWords(ws), [])
  {
    SplitJoin(ws, '-');
  }

  /** Three words joined by '-' become the three words capitalised and run together. */
  lemma CapitalizeThreeWords(a: string, b: string, c: string)
    requires '-' !in a && '-' !in b && '-' !in c
    ensures CapitalizeTopicId(a + "-" + b + "-" + c) == CapWord(a) + CapWord(b) + CapWord(c)
  {
    var ws := [a, b, c];
    assert ws[1..] == [b, c] && ws[1..][1..] == [c];
    assert Join(ws[1..], "-") == b + "-" + c;
    assert Join(ws, "-") == a + "-" + (b + "-" + c);
    assert a + "-" + b + "-" + c == a + "-" + (b + "-" + c);
    CapitalizeWords(ws);
    var cs := CapWords(ws);
    assert cs[1..] == [CapWord(b), CapWord(c)] && cs[1..][1..] == [CapWord(c)];
    JoinRunTogether(cs);
    JoinRunTogether(cs[1..]);
    assert Join(cs[1..][1..], []) == CapWord(c);
  }

  /**
   * A word that starts with a lower-case ASCII letter gets that letter in upper case; with
   * `CapitalizeThreeWords` this turns `numbers-and-counting` into `NumbersAndCounting`.
   */
  lemma CapWordOfLower(c: char, rest: string)
    requires IsAsciiLower(c)
    ensures CapWord([c] + rest) == [(c as int - 32) as char] + rest
  {
    assert ([c] + rest)[1..] == rest;
  }

  /** The file name of a challenge module: the capitalised topic id, `Challenge`, the number, `.jsx`. */
  function ModuleName(topicId: string, challengeId: string): string
  {
    CapitalizeTopicId(topicId) + "Challenge" + challengeId + ".jsx"
  }

  /** The segments of the path the loader imports, in order. */
  function PathSegmentsOf(subject: string, year: string, topicId: string, challengeId: string): seq<string>
  {
    ["..", "skills", subject, "challenges", "year" + year, topicId, ModuleName(topicId, challengeId)]
  }

  /**
   * The path the loader imports, relative to the curriculum pages' directory: the segments
   * joined with '/'.
   */
  function ChallengePath(subject: string, year: string, topicId: string, challengeId: string): string
  {
    Join(PathSegmentsOf(subject, year, topicId, challengeId), "/")
  }

  /**
   * Route parameters without '/' can be read back from the path: splitting it at '/' gives the
   * parent directory, `skills`, the subject, `challenges`, `year` with the year, the topic id and
   * the module's file name.
   */
  lemma PathSegments(subject: string, year: string, topicId: string, challengeId: string)
    requires '/' !in subject && '/' !in year && '/' !in topicId && '/' !in challengeId
    ensures Split(ChallengePath(subject, year, topicId, challengeId), '/')
         == ["..", "skills", subject, "challenges", "year" + year, topicId, ModuleName(topicId, challengeId)]
  {
    NoSlashWithout(topicId);
    SplitJoin(PathSegmentsOf(subject, year, topicId, challengeId), '/');
  }

  lemma {:induction false} NoSlashWithout(s: string)
    requires '/' !in s
    ensures '/' !in Without(s, '-')
  {
    if s != [] {
      NoSlashWithout(s[1..]);
    }
  }

  // ---------------------------------------------------------------------------
  // The redirect countdown
  // ---------------------------------------------------------------------------

  /**
   * The loader's `error` and `countdown` state and whether it has navigated back to the
   * curriculum. Each run of the countdown effect is one `Tick`: the one-second timer that the
   * effect starts is taken to fire before the next run.
   */
  class ErrorCountdown {
    var countdown: int
    var failed: bool
    var navigated: bool

    constructor()
      ensures countdown == 3 && !failed && !navigated
    {
      countdown := 3;
      failed := false;
      navigated := false;
    }

    /** The dynamic import failed. */
    method Fail()
      modifies this
      ensures failed && countdown == old(countdown) && navigated == old(navigated)
    {
      failed := true;
    }

    /** One run of the countdown effect. */
    method Tick()
      modifies this
      ensures failed == old(failed)
      ensures !old(failed) ==> countdown == old(countdown) && navigated == old(navigated)
      ensures old(failed) && old(countdown) <= 0 ==> navigated && countdown == old(countdown)
      ensures old(failed) && old(countdown) > 0 ==> countdown == old(countdown) - 1 && navigated == old(navigated)
    {
      if !failed {
        return;
      }
      if countdown <= 0 {
        navigated := true;
        return;
      }
      countdown := countdown - 1;
    }
  }

  /**
   * After a failed import the learner is sent back on the fourth run of the effect: three runs
   * count 3, 2, 1 down to 0 and the next navigates.
   */
  method RedirectAfterFailure() returns (runs: nat, shown: seq<int>)
    ensures runs == 4
    ensures shown == [3, 2, 1, 0]
  {
    var c := new ErrorCountdown();
    c.Fail();
    runs := 0;
    shown := [];
    while !c.navigated
      invariant c.failed
      invariant 0 <= c.countdown <= 3
      invariant |shown| <= 4 && shown == [3, 2, 1, 0][..|shown|]
      invariant runs == |shown|
      invariant !c.navigated ==> |shown| == 3 - c.countdown
      invariant c.navigated ==> |shown| == 4 && c.countdown == 0
      decreases c.countdown + (if c.navigated then 0 else 1)
    {
      shown := shown + [c.countdown];
      c.Tick();
      runs := runs + 1;
    }
  }
}
