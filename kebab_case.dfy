/**
 * `toKebabCase`: lower-case the string, drop every character that is not a
 * lower-case ASCII letter, a digit, white space or '-', trim, and turn each run
 * of white space into a single '-'. The curriculum uses it to derive the ids
 * under which progress is stored.
 */
module KebabCase {
  import opened Js

  /** Characters that survive the removal of `[^a-z0-9\s-]`. */
  predicate Kept(c: char) { IsAsciiLower(c) || IsDigit(c) || IsSpace(c) || c == '-' }

  /** Characters an id is made of. */
  predicate IdChar(c: char) { IsAsciiLower(c) || IsDigit(c) || c == '-' }

  lemma IdCharNotSpace(c: char)
    requires IdChar(c)
    ensures !IsSpace(c)
  {
  }

  predicate IsId(s: string) { forall i :: 0 <= i < |s| ==> IdChar(s[i]) }

  predicate AllKept(s: string) { forall i :: 0 <= i < |s| ==> Kept(s[i]) }

  predicate AllSpace(s: string) { forall i :: 0 <= i < |s| ==> IsSpace(s[i]) }

  /** `.replace(/[^a-z0-9\s-]/g, "")`. */
  function RemoveUnkept(s: string): (r: string)
    ensures AllKept(r)
    ensures |r| <= |s|
  {
    if s == [] then [] else (if Kept(s[0]) then [s[0]] else []) + RemoveUnkept(s[1..])
  }

  /** The first two steps: lower-case, then drop the unkept characters. */
  function Cleaned(s: string): (r: string)
    ensures AllKept(r)
  {
    RemoveUnkept(ToLower(s))
  }

  /** `.replace(/\s+/g, "-")`: each maximal run of white space becomes one '-'. */
  function DashRuns(s: string): string
  {
    if s == [] then []
    else if !IsSpace(s[0]) then [s[0]] + DashRuns(s[1..])
    else if |s| > 1 && IsSpace(s[1]) then DashRuns(s[1..])  // not the last of its run
    else "-" + DashRuns(s[1..])
  }

  lemma {:induction false} DashRunsOfKept(s: string)
    requires AllKept(s)
    ensures IsId(DashRuns(s))
  {
    if s != [] {
      DashRunsOfKept(s[1..]);
    }
  }

  /** `toKebabCase(str)`. Every character of the result is a lower-case ASCII letter, a digit or '-'. */
  function ToKebabCase(s: string): (r: string)
    ensures IsId(r)
  {
    var t := Trim(Cleaned(s));
    assert AllKept(t) by {
      var i := TrimSlice(Cleaned(s));
      assert forall k :: 0 <= k < |t| ==> t[k] == Cleaned(s)[i + k];
    }
    DashRunsOfKept(t);
    DashRuns(t)
  }

  // ---------------------------------------------------------------------------
  // How the steps behave on concatenations
  // ---------------------------------------------------------------------------

  lemma {:induction false} RemoveUnkeptAppend(a: string, b: string)
    ensures RemoveUnkept(a + b) == RemoveUnkept(a) + RemoveUnkept(b)
  {
    if a == [] {
      assert a + b == b;
    } else {
      assert (a + b)[1..] == a[1..] + b;
      RemoveUnkeptAppend(a[1..], b);
    }
  }

  lemma CleanedAppend(a: string, b: string)
    ensures Cleaned(a + b) == Cleaned(a) + Cleaned(b)
  {
    ToLowerAppend(a, b);
    RemoveUnkeptAppend(ToLower(a), ToLower(b));
  }

  lemma {:induction false} TrimStartAppend(a: string, b: string)
    ensures TrimStart(a) != [] ==> TrimStart(a + b) == TrimStart(a) + b
    ensures TrimStart(a) == [] ==> TrimStart(a + b) == TrimStart(b)
  {
    if a == [] {
      assert a + b == b;
    } else if IsSpace(a[0]) {
      assert (a + b)[1..] == a[1..] + b;
      TrimStartAppend(a[1..], b);
    }
  }

  lemma {:induction false} TrimEndAppend(a: string, b: string)
    ensures TrimEnd(b) != [] ==> TrimEnd(a + b) == a + TrimEnd(b)
    ensures TrimEnd(b) == [] ==> TrimEnd(a + b) == TrimEnd(a)
    decreases |b|
  {
    if b == [] {
      assert a + b == a;
    } else if IsSpace(b[|b| - 1]) {
      assert (a + b)[..|a + b| - 1] == a + b[..|b| - 1];
      TrimEndAppend(a, b[..|b| - 1]);
    }
  }

  lemma {:induction false} TrimAllSpace(p: string)
    requires AllSpace(p)
    ensures TrimStart(p) == [] && TrimEnd(p) == []
  {
    if p != [] {
      TrimAllSpace(p[1..]);
      TrimAllSpace(p[..|p| - 1]);
    }
  }

  /** Trimming ignores white space added at either end. */
  lemma {:induction false} TrimPadded(p: string, m: string, q: string)
    requires AllSpace(p) && AllSpace(q)
    ensures Trim(p + m + q) == Trim(m)
  {
    TrimAllSpace(p);
    TrimAllSpace(q);
    assert p + m + q == p + (m + q);
    TrimStartAppend(p, m + q);
    TrimStartAppend(m, q);
    var t := TrimStart(m);
    if t != [] {
      assert TrimStart(p + m + q) == t + q;
      TrimEndAppend(t, q);
      assert TrimEnd(t + q) == TrimEnd(t);
    } else {
      assert TrimStart(p + m + q) == [];
    }
  }

  /**
   * Replacing runs piecewise is the same as replacing them in one go, as long as
   * the cut does not fall inside a run of white space.
   */
  lemma {:induction false} DashRunsAppend(a: string, b: string)
    requires a == [] || b == [] || !IsSpace(a[|a| - 1]) || !IsSpace(b[0])
    ensures DashRuns(a + b) == DashRuns(a) + DashRuns(b)
  {
    if a == [] {
      assert a + b == b;
    } else {
      var c, a' := a[0], a[1..];
      assert a == [c] + a';
      assert a + b == [c] + (a' + b);
      if a' != [] {
        assert a'[|a'| - 1] == a[|a| - 1];
        assert (a' + b)[0] == a'[0];
      } else {
        assert a' + b == b;
      }
      var h := DashHead(c, a');
      assert DashHead(c, a' + b) == h;
      DashRunsAppend(a', b);
      DashRunsCons(c, a');
      DashRunsCons(c, a' + b);
      AppendAssoc(h, DashRuns(a'), DashRuns(b));
    }
  }

  lemma AppendAssoc(x: string, y: string, z: string)
    ensures x + (y + z) == (x + y) + z
  {
  }

  /** What the first character `c` of `[c] + t` contributes to the dashed string. */
  function DashHead(c: char, t: string): string
  {
    if !IsSpace(c) then [c] else if t != [] && IsSpace(t[0]) then [] else "-"
  }

  /** One step of `DashRuns`. */
  lemma DashRunsCons(c: char, t: string)
    ensures DashRuns([c] + t) == DashHead(c, t) + DashRuns(t)
  {
    var s := [c] + t;
    assert s[0] == c && s[1..] == t;
    if t != [] {
      assert s[1] == t[0];
    }
  }

  lemma {:induction false} DashRunsNoSpace(s: string)
    requires forall i :: 0 <= i < |s| ==> !IsSpace(s[i])
    ensures DashRuns(s) == s
  {
    if s != [] {
      DashRunsNoSpace(s[1..]);
    }
  }

  // ---------------------------------------------------------------------------
  // The promises of toKebabCase
  // ---------------------------------------------------------------------------

  /** Characters that never reach the id: punctuation, white space, accented letters. */
  predicate Dropped(c: char) { !IdChar(ToLowerChar(c)) }

  lemma {:induction false} CleanedOfDropped(p: string)
    requires forall i :: 0 <= i < |p| ==> Dropped(p[i])
    ensures AllSpace(Cleaned(p))
  {
    if p != [] {
      CleanedOfDropped(p[1..]);
      assert p == [p[0]] + p[1..];
      CleanedAppend([p[0]], p[1..]);
    }
  }

  /**
   * Punctuation and white space at either end, including white space that the
   * removal of punctuation exposes, is trimmed away rather than turned into '-'.
   */
  lemma KebabIgnoresEnds(p: string, s: string, q: string)
    requires forall i :: 0 <= i < |p| ==> Dropped(p[i])
    requires forall i :: 0 <= i < |q| ==> Dropped(q[i])
    ensures ToKebabCase(p + s + q) == ToKebabCase(s)
  {
    CleanedAppend(p + s, q);
    CleanedAppend(p, s);
    CleanedOfDropped(p);
    CleanedOfDropped(q);
    TrimPadded(Cleaned(p), Cleaned(s), Cleaned(q));
  }

  /** A string made only of punctuation and white space has the empty id. */
  lemma KebabOfPunctuation(s: string)
    requires forall i :: 0 <= i < |s| ==> Dropped(s[i])
    ensures ToKebabCase(s) == ""
  {
    CleanedOfDropped(s);
    TrimAllSpace(Cleaned(s));
    assert Trim(Cleaned(s)) == TrimEnd([]) == [];
  }

  /**
   * A run of white space between two words becomes exactly one '-', while the
   * characters on either side, hyphens included, are kept as they are.
   */
  lemma DashRunsInternal(a: string, w: string, b: string)
    requires a != [] && !IsSpace(a[|a| - 1])
    requires w != [] && AllSpace(w)
    requires b != [] && !IsSpace(b[0])
    ensures DashRuns(a + w + b) == DashRuns(a) + "-" + DashRuns(b)
  {
    var wb := w + b;
    assert a + w + b == a + wb;
    DashRunsOfRun(w, b);
    DashRunsAppend(a, wb);
    assert DashRuns(a + wb) == DashRuns(a) + ("-" + DashRuns(b));
  }

  lemma {:induction false} DashRunsOfRun(w: string, b: string)
    requires w != [] && AllSpace(w)
    requires b != [] && !IsSpace(b[0])
    ensures DashRuns(w + b) == "-" + DashRuns(b)
  {
    var wb := w + b;
    assert wb[0] == w[0];
    assert wb[1..] == w[1..] + b;
    if |w| > 1 {
      assert wb[1] == w[1];
      DashRunsOfRun(w[1..], b);
    }
  }

  /** Upper-case ASCII letters are lower-cased, not removed: a clean name maps to its lower-case form. */
  lemma {:induction false} KebabLowerCases(s: string)
    requires forall i :: 0 <= i < |s| ==> IdChar(s[i]) || IsAsciiUpper(s[i])
    ensures ToKebabCase(s) == ToLower(s)
  {
    var l := ToLower(s);
    assert IsId(l);
    KeepAllIds(l);
    assert Cleaned(s) == l;
    if l != [] {
      IdCharNotSpace(l[0]);
      IdCharNotSpace(l[|l| - 1]);
      TrimNoSpaceEnds(l);
    }
    assert Trim(l) == l;
    forall i | 0 <= i < |l| {
      IdCharNotSpace(l[i]);
    }
    DashRunsNoSpace(l);
    assert ToKebabCase(s) == DashRuns(Trim(Cleaned(s))) == DashRuns(l) == l;
  }

  lemma {:induction false} KeepAllIds(s: string)
    requires IsId(s)
    ensures RemoveUnkept(s) == s
  {
    if s != [] {
      KeepAllIds(s[1..]);
    }
  }

  /** An id is its own kebab case, so applying the function twice changes nothing. */
  lemma KebabIdempotent(s: string)
    ensures ToKebabCase(ToKebabCase(s)) == ToKebabCase(s)
  {
    var t := ToKebabCase(s);
    KebabLowerCases(t);
    assert ToLower(t) == t;
  }

  // ---------------------------------------------------------------------------
  // A single left-to-right scan that computes the same id
  // ---------------------------------------------------------------------------

  /** Where the scan is: nothing written yet, just after a written character, or in white space after one. */
  datatype Scan = Start | Word | Gap

  /**
   * The id of `s[i..]`, read one character at a time from state `st`. Characters
   * that cleaning drops are skipped, white space before the first written
   * character is skipped, and white space after one is remembered and written as
   * a single '-' only when another character follows.
   */
  function ScanFrom(s: string, i: nat, st: Scan): string
    decreases |s| - i
  {
    if i >= |s| then []
    else
      var c := ToLowerChar(s[i]);
      if !Kept(c) then ScanFrom(s, i + 1, st)
      else if IsSpace(c) && st == Start then ScanFrom(s, i + 1, Start)
      else if IsSpace(c) then ScanFrom(s, i + 1, Gap)
      else if st == Gap then "-" + [c] + ScanFrom(s, i + 1, Word)
      else [c] + ScanFrom(s, i + 1, Word)
  }

  /** The state in which the scan of `s[i..]` from `st` ends. */
  function ScanEnd(s: string, i: nat, st: Scan): Scan
    decreases |s| - i
  {
    if i >= |s| then st
    else
      var c := ToLowerChar(s[i]);
      if !Kept(c) then ScanEnd(s, i + 1, st)
      else if IsSpace(c) && st == Start then ScanEnd(s, i + 1, Start)
      else if IsSpace(c) then ScanEnd(s, i + 1, Gap)
      else ScanEnd(s, i + 1, Word)
  }

  /** Scanning from position `i` of `s` is scanning the suffix `s[i..]`. */
  lemma {:induction false} ScanShift(s: string, t: string, i: nat, j: nat, st: Scan)
    requires i <= |s| && t == s[i..] && j <= |t|
    ensures ScanFrom(s, i + j, st) == ScanFrom(t, j, st)
    decreases |t| - j
  {
    if j < |t| {
      assert s[i + j] == t[j];
      ScanShift(s, t, i, j + 1, Start);
      ScanShift(s, t, i, j + 1, Word);
      ScanShift(s, t, i, j + 1, Gap);
    }
  }

  lemma {:induction false} ScanEndShift(s: string, t: string, i: nat, j: nat, st: Scan)
    requires i <= |s| && t == s[i..] && j <= |t|
    ensures ScanEnd(s, i + j, st) == ScanEnd(t, j, st)
    decreases |t| - j
  {
    if j < |t| {
      assert s[i + j] == t[j];
      ScanEndShift(s, t, i, j + 1, Start);
      ScanEndShift(s, t, i, j + 1, Word);
      ScanEndShift(s, t, i, j + 1, Gap);
    }
  }

  /** Scanning a concatenation scans the first part, then the second from the state the first ends in. */
  lemma {:induction false} ScanAppend(a: string, b: string, i: nat, st: Scan)
    requires i <= |a|
    ensures ScanFrom(a + b, i, st) == ScanFrom(a, i, st) + ScanFrom(b, 0, ScanEnd(a, i, st))
    decreases |a| - i
  {
    if i == |a| {
      ScanShift(a + b, b, |a|, 0, st);
    } else {
      assert (a + b)[i] == a[i];
      ScanAppend(a, b, i + 1, Start);
      ScanAppend(a, b, i + 1, Word);
      ScanAppend(a, b, i + 1, Gap);
    }
  }

  lemma {:induction false} ScanEndAppend(a: string, b: string, i: nat, st: Scan)
    requires i <= |a|
    ensures ScanEnd(a + b, i, st) == ScanEnd(b, 0, ScanEnd(a, i, st))
    decreases |a| - i
  {
    if i == |a| {
      ScanEndShift(a + b, b, |a|, 0, st);
    } else {
      assert (a + b)[i] == a[i];
      ScanEndAppend(a, b, i + 1, Start);
      ScanEndAppend(a, b, i + 1, Word);
      ScanEndAppend(a, b, i + 1, Gap);
    }
  }

  lemma KeptIsLower(c: char)
    requires Kept(c)
    ensures ToLowerChar(c) == c
  {
  }

  /** One step of the scan: what the first character contributes, and the state it leaves. */
  lemma ScanCons(c: char, t: string, st: Scan)
    ensures ScanFrom([c] + t, 0, st) ==
      var l := ToLowerChar(c);
      if !Kept(l) then ScanFrom(t, 0, st)
      else if IsSpace(l) && st == Start then ScanFrom(t, 0, Start)
      else if IsSpace(l) then ScanFrom(t, 0, Gap)
      else if st == Gap then "-" + [l] + ScanFrom(t, 0, Word)
      else [l] + ScanFrom(t, 0, Word)
  {
    var s := [c] + t;
    assert s[0] == c && s[1..] == t;
    ScanShift(s, t, 1, 0, Start);
    ScanShift(s, t, 1, 0, Word);
    ScanShift(s, t, 1, 0, Gap);
  }

  /** The scan only sees what cleaning keeps. */
  lemma {:induction false} ScanCleaned(s: string, st: Scan)
    ensures ScanFrom(s, 0, st) == ScanFrom(Cleaned(s), 0, st)
    decreases |s|
  {
    if s != [] {
      var c, t := s[0], s[1..];
      var l := ToLowerChar(c);
      var k := Cleaned(t);
      assert s == [c] + t;
      ScanCleaned(t, st);
      ScanCleaned(t, Word);
      ScanCleaned(t, Gap);
      CleanedAppend([c], t);
      assert ToLower([c]) == [l];
      ScanCons(c, t, st);
      if Kept(l) {
        assert Cleaned(s) == [l] + k;
        KeptIsLower(l);
        ScanCons(l, k, st);
      } else {
        assert Cleaned(s) == k;
      }
    }
  }

  /** On a cleaned string, white space before the first character is skipped. */
  lemma {:induction false} ScanSkipsLeadingSpace(k: string)
    requires AllKept(k)
    ensures ScanFrom(k, 0, Start) == ScanFrom(TrimStart(k), 0, Word)
    decreases |k|
  {
    if k != [] {
      ScanShift(k, k[1..], 1, 0, Start);
      ScanShift(k, k[1..], 1, 0, Word);
      KeptIsLower(k[0]);
      if IsSpace(k[0]) {
        assert AllKept(k[1..]) by {
          assert forall i :: 0 <= i < |k[1..]| ==> k[1..][i] == k[i + 1];
        }
        ScanSkipsLeadingSpace(k[1..]);
      }
    }
  }

  /** Two white-space characters in front of the same text dash alike. */
  lemma DashRunsSpaceFront(x: char, y: char, t: string)
    requires IsSpace(x) && IsSpace(y)
    ensures DashRuns([x] + t) == DashRuns([y] + t)
  {
    assert ([x] + t)[1..] == t == ([y] + t)[1..];
    if t != [] {
      assert ([x] + t)[1] == t[0] == ([y] + t)[1];
    }
  }

  /** A character that is not white space is copied, and a single space before it becomes '-'. */
  lemma DashRunsLetterFront(c: char, t: string)
    requires !IsSpace(c)
    ensures DashRuns([c] + t) == [c] + DashRuns(t)
    ensures DashRuns(" " + ([c] + t)) == "-" + ([c] + DashRuns(t))
  {
    assert ([c] + t)[1..] == t;
    var g := " " + ([c] + t);
    assert g[1..] == [c] + t && g[1] == c;
  }

  /** A space in front of a run of white space is absorbed by the run. */
  lemma DashRunsDoubleSpace(x: char, t: string)
    requires IsSpace(x)
    ensures DashRuns(" " + ([x] + t)) == DashRuns([x] + t)
  {
    var g := " " + ([x] + t);
    assert g[1..] == [x] + t && g[1] == x;
  }

  /**
   * On a cleaned string the scan drops trailing white space and dashes the
   * inner runs; in state `Gap` it owes one '-' before the next character.
   */
  lemma {:induction false} ScanTrimsEnd(k: string)
    requires AllKept(k)
    ensures ScanFrom(k, 0, Word) == DashRuns(TrimEnd(k))
    ensures ScanFrom(k, 0, Gap) == if TrimEnd(k) == [] then [] else DashRuns(" " + TrimEnd(k))
    decreases |k|
  {
    if k != [] {
      var k' := k[1..];
      assert AllKept(k') by {
        assert forall i :: 0 <= i < |k'| ==> k'[i] == k[i + 1];
      }
      ScanTrimsEnd(k');
      if IsSpace(k[0]) {
        ScanTrimsEndSpace(k);
      } else {
        ScanTrimsEndLetter(k);
      }
    }
  }

  lemma ScanTrimsEndLetter(k: string)
    requires k != [] && Kept(k[0]) && !IsSpace(k[0])
    requires ScanFrom(k[1..], 0, Word) == DashRuns(TrimEnd(k[1..]))
    ensures ScanFrom(k, 0, Word) == DashRuns(TrimEnd(k))
    ensures ScanFrom(k, 0, Gap) == DashRuns(" " + TrimEnd(k)) && TrimEnd(k) != []
  {
    ScanLetter(k);
    TrimEndLetter(k);
    DashRunsLetterFront(k[0], TrimEnd(k[1..]));
  }

  /** The scan writes a kept character that is not white space, after a '-' when in `Gap`. */
  lemma ScanLetter(k: string)
    requires k != [] && Kept(k[0]) && !IsSpace(k[0])
    ensures ScanFrom(k, 0, Word) == [k[0]] + ScanFrom(k[1..], 0, Word)
    ensures ScanFrom(k, 0, Gap) == "-" + ([k[0]] + ScanFrom(k[1..], 0, Word))
  {
    assert k == [k[0]] + k[1..];
    KeptIsLower(k[0]);
    ScanCons(k[0], k[1..], Word);
    ScanCons(k[0], k[1..], Gap);
  }

  lemma TrimEndLetter(k: string)
    requires k != [] && !IsSpace(k[0])
    ensures TrimEnd(k) == [k[0]] + TrimEnd(k[1..])
  {
    assert k == [k[0]] + k[1..];
    TrimEndAppend([k[0]], k[1..]);
  }

  lemma ScanTrimsEndSpace(k: string)
    requires k != [] && Kept(k[0]) && IsSpace(k[0])
    requires ScanFrom(k[1..], 0, Gap) == if TrimEnd(k[1..]) == [] then [] else DashRuns(" " + TrimEnd(k[1..]))
    ensures ScanFrom(k, 0, Word) == DashRuns(TrimEnd(k))
    ensures ScanFrom(k, 0, Gap) == if TrimEnd(k) == [] then [] else DashRuns(" " + TrimEnd(k))
  {
    var c := k[0];
    var k' := k[1..];
    ScanShift(k, k', 1, 0, Gap);
    KeptIsLower(c);
    assert ScanFrom(k, 0, Word) == ScanFrom(k', 0, Gap);
    assert ScanFrom(k, 0, Gap) == ScanFrom(k', 0, Gap);
    assert k == [c] + k';
    TrimEndAppend([c], k');
    var t := TrimEnd(k');
    if t == [] {
      assert TrimEnd(k) == TrimEnd([c]) == [];
    } else {
      assert TrimEnd(k) == [c] + t;
      DashRunsSpaceFront(c, ' ', t);
      DashRunsDoubleSpace(c, t);
    }
  }

  /** The scan computes `toKebabCase`: lower-casing, cleaning, trimming and dashing in one pass. */
  lemma ScanIsKebab(s: string)
    ensures ScanFrom(s, 0, Start) == ToKebabCase(s)
  {
    var k := Cleaned(s);
    ScanCleaned(s, Start);
    ScanSkipsLeadingSpace(k);
    var t := TrimStart(k);
    TrimStartKept(k);
    ScanTrimsEnd(t);
    assert ToKebabCase(s) == DashRuns(TrimEnd(t));
  }

  lemma TrimStartKept(k: string)
    requires AllKept(k)
    ensures AllKept(TrimStart(k))
  {
    var t := TrimStart(k);
    TrimStartSuffix(k);
    assert forall i :: 0 <= i < |t| ==> t[i] == k[|k| - |t| + i];
  }

  /** A run of id characters (after lower-casing) is copied in lower case, with one '-' in front after a gap. */
  lemma {:induction false} RunScan(w: string, v: string, i: nat, st: Scan)
    requires i < |w| == |v|
    requires forall k :: 0 <= k < |w| ==> IdChar(v[k]) && ToLowerChar(w[k]) == v[k]
    ensures ScanFrom(w, i, st) == if st == Gap then "-" + v[i..] else v[i..]
    ensures ScanEnd(w, i, st) == Word
    decreases |w| - i
  {
    IdCharNotSpace(v[i]);
    if i + 1 < |w| {
      RunScan(w, v, i + 1, Word);
    }
    assert v[i..] == [v[i]] + v[i + 1..];
  }

  /** Characters that are neither kept nor white space leave the scan untouched. */
  lemma {:induction false} SkipScan(g: string, i: nat, st: Scan)
    requires i <= |g|
    requires forall k :: 0 <= k < |g| ==> !Kept(ToLowerChar(g[k]))
    ensures ScanFrom(g, i, st) == []
    ensures ScanEnd(g, i, st) == st
    decreases |g| - i
  {
    if i < |g| {
      SkipScan(g, i + 1, st);
    }
  }

  /** A separator that ends in white space and holds no id character opens a gap after a word. */
  lemma {:induction false} GapScan(g: string, i: nat, st: Scan)
    requires i < |g| && st != Start && IsSpace(g[|g| - 1])
    requires forall k :: 0 <= k < |g| ==> !IdChar(ToLowerChar(g[k]))
    ensures ScanFrom(g, i, st) == []
    ensures ScanEnd(g, i, st) == Gap
    decreases |g| - i
  {
    var c := ToLowerChar(g[i]);
    ToLowerCharClasses(g[i]);
    if i + 1 < |g| {
      if Kept(c) {
        GapScan(g, i + 1, Gap);
      } else {
        GapScan(g, i + 1, st);
      }
    } else {
      assert IsSpace(c);
    }
  }

  // ---------------------------------------------------------------------------
  // Titles as words and separators
  // ---------------------------------------------------------------------------

  /** A piece of a title: a run of id characters together with its lower-case form, or a separator. */
  datatype Token = Run(text: string, lower: string) | Sep(text: string)

  /** The text the tokens from index `i` on spell out. */
  function Spelled(ts: seq<Token>, i: nat): string
    decreases |ts| - i
  {
    if i >= |ts| then [] else ts[i].text + Spelled(ts, i + 1)
  }

  /** The scan state after a token, starting in `st`. */
  function After(t: Token, st: Scan): Scan
  {
    match t
    case Run(_, _) => Word
    case Sep(g) => if g != [] && IsSpace(g[|g| - 1]) && st != Start then Gap else st
  }

  predicate ValidToken(t: Token, st: Scan)
  {
    match t
    case Run(w, v) =>
      w != [] && |v| == |w| && forall k :: 0 <= k < |w| ==> IdChar(v[k]) && ToLowerChar(w[k]) == v[k]
    case Sep(g) =>
      g != [] && (forall k :: 0 <= k < |g| ==> !IdChar(ToLowerChar(g[k])))
      && ((IsSpace(g[|g| - 1]) && st != Start) || forall k :: 0 <= k < |g| ==> !Kept(ToLowerChar(g[k])))
  }

  /** Every token from `i` on is a well-formed run or separator in the state the earlier ones leave. */
  predicate Lexed(ts: seq<Token>, i: nat, st: Scan)
    decreases |ts| - i
  {
    i >= |ts| || (ValidToken(ts[i], st) && Lexed(ts, i + 1, After(ts[i], st)))
  }

  /** The id the tokens from `i` on should give: each run in lower case, with a '-' after every gap. */
  function Slug(ts: seq<Token>, i: nat, st: Scan): string
    decreases |ts| - i
  {
    if i >= |ts| then []
    else match ts[i]
      case Run(_, v) => (if st == Gap then "-" + v else v) + Slug(ts, i + 1, Word)
      case Sep(_) => Slug(ts, i + 1, After(ts[i], st))
  }

  /** The scan state after all tokens from `i` on. */
  function Final(ts: seq<Token>, i: nat, st: Scan): Scan
    decreases |ts| - i
  {
    if i >= |ts| then st else Final(ts, i + 1, After(ts[i], st))
  }

  lemma TokenScan(t: Token, st: Scan)
    requires ValidToken(t, st)
    ensures ScanFrom(t.text, 0, st) == (if t.Run? then (if st == Gap then "-" + t.lower else t.lower) else [])
    ensures ScanEnd(t.text, 0, st) == After(t, st)
  {
    match t
    case Run(w, v) =>
      RunScan(w, v, 0, st);
      assert v[0..] == v;
    case Sep(g) =>
      if IsSpace(g[|g| - 1]) && st != Start {
        GapScan(g, 0, st);
      } else {
        SkipScan(g, 0, st);
      }
  }

  /** Scanning a well-formed token sequence yields its slug and ends in the state the tokens leave. */
  lemma {:induction false} ScanTokens(ts: seq<Token>, i: nat, st: Scan)
    requires Lexed(ts, i, st)
    ensures ScanFrom(Spelled(ts, i), 0, st) == Slug(ts, i, st)
    ensures ScanEnd(Spelled(ts, i), 0, st) == Final(ts, i, st)
    decreases |ts| - i
  {
    if i < |ts| {
      var t := ts[i];
      TokenScan(t, st);
      ScanTokens(ts, i + 1, After(t, st));
      ScanAppend(t.text, Spelled(ts, i + 1), 0, st);
      ScanEndAppend(t.text, Spelled(ts, i + 1), 0, st);
    }
  }

  /** The strings of `ss`, one after the other. */
  function Concat(ss: seq<string>): (r: string)
    ensures ss == [] ==> r == []
  {
    if ss == [] then [] else ss[0] + Concat(ss[1..])
  }

  lemma {:induction false} ConcatAppend(xs: seq<string>, ys: seq<string>)
    ensures Concat(xs + ys) == Concat(xs) + Concat(ys)
  {
    if xs == [] {
      assert xs + ys == ys;
    } else {
      assert (xs + ys)[1..] == xs[1..] + ys;
      ConcatAppend(xs[1..], ys);
    }
  }

  /**
   * A piece `text` of a title, lexed into `ts` from scan state `st`: it leaves the scan in
   * state `st'` and contributes `slug` to the result.
   */
  predicate ChunkOk(ts: seq<Token>, text: string, slug: string, st: Scan, st': Scan)
  {
    text == Spelled(ts, 0) && Lexed(ts, 0, st) && Final(ts, 0, st) == st' && Slug(ts, 0, st) == slug
  }

  /** Pieces `k` and later each spell their text and produce their slug, from the state the one before leaves. */
  predicate ChunksOk(cs: seq<seq<Token>>, texts: seq<string>, slugs: seq<string>, states: seq<Scan>, k: nat)
    requires |texts| == |cs| && |slugs| == |cs| && |states| == |cs| + 1
    decreases |cs| - k
  {
    k >= |cs| || (ChunkOk(cs[k], texts[k], slugs[k], states[k], states[k + 1]) && ChunksOk(cs, texts, slugs, states, k + 1))
  }

  lemma {:induction false} ScanChunks(cs: seq<seq<Token>>, texts: seq<string>, slugs: seq<string>, states: seq<Scan>, k: nat)
    requires |texts| == |cs| && |slugs| == |cs| && |states| == |cs| + 1
    requires ChunksOk(cs, texts, slugs, states, k) && k <= |cs|
    ensures ScanFrom(Concat(texts[k..]), 0, states[k]) == Concat(slugs[k..])
    decreases |cs| - k
  {
    if k < |cs| {
      ScanChunks(cs, texts, slugs, states, k + 1);
      ScanTokens(cs[k], 0, states[k]);
      assert texts[k..][1..] == texts[k + 1..];
      assert slugs[k..][1..] == slugs[k + 1..];
      ScanAppend(texts[k], Concat(texts[k + 1..]), 0, states[k]);
    }
  }

  /** The slug of a title cut into pieces, each lexed and spelled on its own. */
  lemma KebabOfChunks(s: string, d: string, cs: seq<seq<Token>>, texts: seq<string>, slugs: seq<string>, states: seq<Scan>)
    requires |texts| == |cs| && |slugs| == |cs| && |states| == |cs| + 1
    requires ChunksOk(cs, texts, slugs, states, 0) && states[0] == Start
    requires s == Concat(texts) && d == Concat(slugs)
    ensures ToKebabCase(s) == d
  {
    ScanChunks(cs, texts, slugs, states, 0);
    assert texts[0..] == texts && slugs[0..] == slugs;
    ScanIsKebab(s);
  }
}
