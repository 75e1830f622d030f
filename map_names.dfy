/**
 * `normalizeName` of the map quiz: the comparison key for country names. The name is put in
 * canonical decomposition (NFD, Unicode Standard Annex #15, section 1.2), combining marks
 * U+0300..U+036F are removed, the characters of an apostrophe class are replaced by `'`, white
 * space and the punctuation `, . ' " ( ) -` are removed, and the result is lower-cased and trimmed.
 *
 * The apostrophe class is kept as the application writes it: its characters are `â`, `€`, `™`
 * and `'` (a right single quotation mark U+2019 that was saved in one encoding and read back in
 * another), so U+2019 itself is not unified with `'`.
 */
module MapNames {
  import opened Js

  // ---------------------------------------------------------------------------
  // Canonical decomposition
  // ---------------------------------------------------------------------------

  predicate IsCombiningMark(c: char) { '̀' <= c <= 'ͯ' }

  /**
   * The canonical decomposition of the upper-case Latin-1 letter at offset `o` from U+00C0 into
   * its base letter and combining mark, for the letters that have one.
   */
  function LatinDecomposition(o: nat): Option<(char, char)>
    requires o < 32
  {
    if o < 6 then Some(('A', ['̀', '́', '̂', '̃', '̈', '̊'][o]))
    else if o == 7 then Some(('C', '̧'))
    else if 8 <= o < 12 then Some(('E', ['̀', '́', '̂', '̈'][o - 8]))
    else if 12 <= o < 16 then Some(('I', ['̀', '́', '̂', '̈'][o - 12]))
    else if o == 17 then Some(('N', '̃'))
    else if 18 <= o < 23 then Some(('O', ['̀', '́', '̂', '̃', '̈'][o - 18]))
    else if 25 <= o < 29 then Some(('U', ['̀', '́', '̂', '̈'][o - 25]))
    else if o == 29 then Some(('Y', '́'))
    else None
  }

  /**
   * NFD of one character. The letters of the Latin-1 Supplement with a canonical decomposition
   * become an ASCII letter and one combining mark; every other character is its own
   * decomposition.
   */
  function Decompose(c: char): (d: string)
    ensures 1 <= |d| <= 2
    ensures |d| == 2 ==> IsCombiningMark(d[1]) && (IsAsciiUpper(d[0]) || IsAsciiLower(d[0]))
    ensures |d| == 2 ==> (IsAsciiUpper(d[0]) <==> HasLowerForm(c))
    ensures !('À' <= c <= 'ÿ') ==> d == [c]
  {
    if 'À' <= c <= 'ß' then
      match LatinDecomposition(c as int - 0xC0)
      case Some((b, m)) => [b, m]
      case None => [c]
    else if c == 'ÿ' then ['y', '̈']
    else if 'à' <= c <= 'þ' then
      match LatinDecomposition(c as int - 0xE0)
      case Some((b, m)) => [(b as int + 32) as char, m]
      case None => [c]
    else [c]
  }

  /** A character that is its own decomposition. */
  predicate Decomposed(c: char) { Decompose(c) == [c] }

  /** Decomposition is complete after one step. */
  lemma DecomposeFixed(c: char)
    ensures forall i :: 0 <= i < |Decompose(c)| ==> Decomposed(Decompose(c)[i])
  {
    var d := Decompose(c);
    if |d| == 2 {
      assert Decompose(d[0]) == [d[0]];
      assert Decompose(d[1]) == [d[1]];
    }
  }

  /** Lower-casing a character that is its own decomposition gives one. */
  lemma LowerDecomposed(c: char)
    requires Decomposed(c)
    ensures Decomposed(ToLowerChar(c))
  {
  }

  /** `normalize('NFD')`, one character at a time. */
  function Nfd(s: string): (r: string)
    ensures |s| <= |r| <= 2 * |s|
    ensures forall i :: 0 <= i < |r| ==> Decomposed(r[i])
  {
    if s == [] then []
    else
      DecomposeFixed(s[0]);
      Decompose(s[0]) + Nfd(s[1..])
  }

  // ---------------------------------------------------------------------------
  // The replace steps
  // ---------------------------------------------------------------------------

  /** `replace(/[̀-ͯ]/g, '')`. */
  function StripMarks(s: string): (r: string)
    ensures forall i :: 0 <= i < |r| ==> !IsCombiningMark(r[i])
    ensures (forall i :: 0 <= i < |s| ==> Decomposed(s[i])) ==> forall i :: 0 <= i < |r| ==> Decomposed(r[i])
  {
    if s == [] then [] else (if IsCombiningMark(s[0]) then [] else [s[0]]) + StripMarks(s[1..])
  }

  /** The apostrophe class as written: `â`, `€`, `™` and `'`. */
  predicate InApostropheClass(c: char)
  {
    c == 'â' || c == '€' || c == '™' || c == '\''
  }

  /** `replace(/[â€™']/g, "'")`. */
  function UnifyApostrophes(s: string): (r: string)
    ensures |r| == |s|
    ensures forall i :: 0 <= i < |s| ==> (InApostropheClass(s[i]) ==> r[i] == '\'') && (!InApostropheClass(s[i]) ==> r[i] == s[i])
  {
    if s == [] then [] else [if InApostropheClass(s[0]) then '\'' else s[0]] + UnifyApostrophes(s[1..])
  }

  /** The class `[\s,.'"()-]`. */
  predicate IsDropped(c: char)
  {
    IsSpace(c) || c == ',' || c == '.' || c == '\'' || c == '"' || c == '(' || c == ')' || c == '-'
  }

  /** `replace(/[\s,.'"()-]/g, '')`. */
  function DropPunctuation(s: string): (r: string)
    ensures forall i :: 0 <= i < |r| ==> !IsDropped(r[i])
    ensures forall i :: 0 <= i < |r| ==> r[i] in s
  {
    if s == [] then [] else (if IsDropped(s[0]) then [] else [s[0]]) + DropPunctuation(s[1..])
  }

  /** Every step but the final trim, applied to decomposed text. */
  function Steps(t: string): string
  {
    ToLower(DropPunctuation(UnifyApostrophes(StripMarks(t))))
  }

  /** The comparison key of a name. */
  function Normalize(s: string): (r: string)
    ensures forall i :: 0 <= i < |r| ==> !IsDropped(r[i]) && !HasLowerForm(r[i]) && !IsCombiningMark(r[i])
    ensures forall i :: 0 <= i < |r| ==> Decomposed(r[i]) && !InApostropheClass(r[i])
    ensures r == Steps(Nfd(s))
  {
    var t := Steps(Nfd(s));
    StepsClasses(Nfd(s));
    TrimNoSpaceEnds(t);
    Trim(t)
  }

  /** `normalizeName`: an absent name stays absent. */
  function NormalizeName(name: Option<string>): (r: Option<string>)
    ensures r.Some? <==> name.Some?
    ensures name.Some? ==> r.value == Normalize(name.value)
  {
    match name
    case None => None
    case Some(s) => Some(Normalize(s))
  }

  lemma StepsClasses(t: string)
    requires forall i :: 0 <= i < |t| ==> Decomposed(t[i])
    ensures forall i :: 0 <= i < |Steps(t)| ==> !IsDropped(Steps(t)[i]) && !HasLowerForm(Steps(t)[i]) && !IsCombiningMark(Steps(t)[i])
    ensures forall i :: 0 <= i < |Steps(t)| ==> Decomposed(Steps(t)[i]) && !InApostropheClass(Steps(t)[i])
  {
    var m := StripMarks(t);
    var u := UnifyApostrophes(m);
    var d := DropPunctuation(u);
    forall i | 0 <= i < |d|
      ensures !IsDropped(ToLowerChar(d[i])) && !HasLowerForm(ToLowerChar(d[i])) && !IsCombiningMark(ToLowerChar(d[i]))
      ensures Decomposed(ToLowerChar(d[i])) && !InApostropheClass(ToLowerChar(d[i]))
    {
      ToLowerCharClasses(d[i]);
      var j :| 0 <= j < |u| && u[j] == d[i];
      assert !IsCombiningMark(m[j]) && Decomposed(m[j]);
      LowerDecomposed(d[i]);
    }
  }

  // ---------------------------------------------------------------------------
  // Character by character
  // ---------------------------------------------------------------------------

  /** What one character of a name contributes to its key. */
  function Key(c: char): string
  {
    Steps(Decompose(c))
  }

  /** The keys of the characters of a name, in order. */
  function Keys(s: string): string
  {
    if s == [] then [] else Key(s[0]) + Keys(s[1..])
  }

  lemma {:induction false} StripMarksAppend(a: string, b: string)
    ensures StripMarks(a + b) == StripMarks(a) + StripMarks(b)
  {
    if a == [] {
      assert a + b == b;
    } else {
      assert (a + b)[1..] == a[1..] + b;
      StripMarksAppend(a[1..], b);
      AppendAssoc(if IsCombiningMark(a[0]) then [] else [a[0]], StripMarks(a[1..]), StripMarks(b));
    }
  }

  lemma {:induction false} UnifyApostrophesAppend(a: string, b: string)
    ensures UnifyApostrophes(a + b) == UnifyApostrophes(a) + UnifyApostrophes(b)
  {
    if a == [] {
      assert a + b == b;
    } else {
      assert (a + b)[1..] == a[1..] + b;
      UnifyApostrophesAppend(a[1..], b);
      AppendAssoc([if InApostropheClass(a[0]) then '\'' else a[0]], UnifyApostrophes(a[1..]), UnifyApostrophes(b));
    }
  }

  lemma {:induction false} DropPunctuationAppend(a: string, b: string)
    ensures DropPunctuation(a + b) == DropPunctuation(a) + DropPunctuation(b)
  {
    if a == [] {
      assert a + b == b;
    } else {
      assert (a + b)[1..] == a[1..] + b;
      DropPunctuationAppend(a[1..], b);
      AppendAssoc(if IsDropped(a[0]) then [] else [a[0]], DropPunctuation(a[1..]), DropPunctuation(b));
    }
  }

  lemma StepsAppend(a: string, b: string)
    ensures Steps(a + b) == Steps(a) + Steps(b)
  {
    StripMarksAppend(a, b);
    UnifyApostrophesAppend(StripMarks(a), StripMarks(b));
    DropPunctuationAppend(UnifyApostrophes(StripMarks(a)), UnifyApostrophes(StripMarks(b)));
    ToLowerAppend(DropPunctuation(UnifyApostrophes(StripMarks(a))), DropPunctuation(UnifyApostrophes(StripMarks(b))));
  }

  lemma AppendAssoc(x: string, y: string, z: string)
    ensures x + (y + z) == (x + y) + z
  {
  }

  /** The key of a name is the concatenation of the keys of its characters. */
  lemma NormalizeByCharacter(s: string)
    ensures Normalize(s) == Keys(s)
  {
    StepsByCharacter(s);
  }

  lemma {:induction false} StepsByCharacter(s: string)
    ensures Steps(Nfd(s)) == Keys(s)
  {
    if s != [] {
      StepsByCharacter(s[1..]);
      StepsAppend(Decompose(s[0]), Nfd(s[1..]));
    }
  }

  /** Keys of a concatenation. */
  lemma {:induction false} KeysAppend(a: string, b: string)
    ensures Keys(a + b) == Keys(a) + Keys(b)
  {
    if a == [] {
      assert a + b == b;
    } else {
      assert (a + b)[1..] == a[1..] + b;
      KeysAppend(a[1..], b);
      AppendAssoc(Key(a[0]), Keys(a[1..]), Keys(b));
    }
  }

  lemma NormalizeAppend(a: string, b: string)
    ensures Normalize(a + b) == Normalize(a) + Normalize(b)
  {
    NormalizeByCharacter(a + b);
    NormalizeByCharacter(a);
    NormalizeByCharacter(b);
    KeysAppend(a, b);
  }

  // ---------------------------------------------------------------------------
  // What the key ignores
  // ---------------------------------------------------------------------------

  /** The steps on a single character: a mark or a dropped character vanishes, anything else is lower-cased. */
  function StepOne(c: char): string
  {
    if IsCombiningMark(c) then []
    else
      var u := if InApostropheClass(c) then '\'' else c;
      if IsDropped(u) then [] else [ToLowerChar(u)]
  }

  lemma StepsOfOne(c: char)
    ensures Steps([c]) == StepOne(c)
  {
    StripMarksOne(c);
    if !IsCombiningMark(c) {
      UnifyApostrophesOne(c);
      DropPunctuationOne(if InApostropheClass(c) then '\'' else c);
    }
  }

  lemma StripMarksOne(c: char)
    ensures StripMarks([c]) == if IsCombiningMark(c) then [] else [c]
  {
    var x := if IsCombiningMark(c) then [] else [c];
    assert [c][1..] == [];
    assert StripMarks([c]) == x + StripMarks([]);
    assert x + [] == x;
  }

  lemma UnifyApostrophesOne(c: char)
    ensures UnifyApostrophes([c]) == [if InApostropheClass(c) then '\'' else c]
  {
    var x := [if InApostropheClass(c) then '\'' else c];
    assert [c][1..] == [];
    assert UnifyApostrophes([c]) == x + UnifyApostrophes([]);
    assert x + [] == x;
  }

  lemma DropPunctuationOne(c: char)
    ensures DropPunctuation([c]) == if IsDropped(c) then [] else [c]
  {
    var x := if IsDropped(c) then [] else [c];
    assert [c][1..] == [];
    assert DropPunctuation([c]) == x + DropPunctuation([]);
    assert x + [] == x;
  }

  /** An ASCII letter's key is its lower-case form. */
  lemma KeyOfAsciiLetter(c: char)
    requires IsAsciiUpper(c) || IsAsciiLower(c)
    ensures Key(c) == [ToLowerChar(c)]
  {
    assert Decompose(c) == [c];
    assert !IsCombiningMark(c) && !InApostropheClass(c) && !IsDropped(c);
    StepsOfOne(c);
  }

  /** U+2019 is its own key. */
  lemma KeyOfCurlyApostrophe()
    ensures Key('’') == ['’']
  {
    var c := '’';
    assert Decompose(c) == [c];
    assert !IsCombiningMark(c) && !InApostropheClass(c) && !IsDropped(c) && !HasLowerForm(c);
    StepsOfOne(c);
  }

  /** A combining mark has the empty key. */
  lemma KeyOfMark(c: char)
    requires IsCombiningMark(c)
    ensures Key(c) == []
  {
    assert Decompose(c) == [c];
    StepsOfOne(c);
  }

  /** A Latin-1 letter with an accent has the key of its base letter. */
  lemma KeyOfAccented(c: char)
    requires |Decompose(c)| == 2
    ensures Key(c) == Key(Decompose(c)[0])
  {
    var d := Decompose(c);
    assert d == [d[0]] + [d[1]];
    StepsAppend([d[0]], [d[1]]);
    KeyOfMark(d[1]);
    assert Decompose(d[1]) == [d[1]];
    assert Decompose(d[0]) == [d[0]];
    assert Steps([d[0]]) + [] == Steps([d[0]]);
  }

  /** The key of a name with one character singled out. */
  lemma NormalizeAround(x: string, c: char, y: string)
    ensures Normalize(x + [c] + y) == Normalize(x) + Key(c) + Normalize(y)
  {
    NormalizeAppend(x + [c], y);
    NormalizeAppend(x, [c]);
    NormalizeByCharacter([c]);
    assert Keys([c]) == Key(c) + Keys([]);
    assert Key(c) + [] == Key(c);
  }

  /** Replacing an accented letter by its base letter does not change the key: "Côte" and "Cote" match. */
  lemma AccentsIgnored(x: string, c: char, y: string)
    requires |Decompose(c)| == 2
    ensures Normalize(x + [c] + y) == Normalize(x + [Decompose(c)[0]] + y)
  {
    NormalizeAround(x, c, y);
    NormalizeAround(x, Decompose(c)[0], y);
    KeyOfAccented(c);
  }

  /** A dropped character, `€` and `™` have the empty key. */
  lemma KeyOfDropped(c: char)
    requires IsDropped(c) || c == '€' || c == '™'
    ensures Key(c) == []
  {
    assert !('À' <= c <= 'ÿ');
    assert Decompose(c) == [c];
    StepsOfOne(c);
  }

  /** Removing one white-space or punctuation character, `€` or `™` does not change the key. */
  lemma PunctuationIgnored(x: string, c: char, y: string)
    requires IsDropped(c) || c == '€' || c == '™'
    ensures Normalize(x + [c] + y) == Normalize(x + y)
  {
    NormalizeAround(x, c, y);
    KeyOfDropped(c);
    NormalizeAppend(x, y);
    assert Normalize(x) + [] == Normalize(x);
  }

  /**
   * The right single quotation mark U+2019 is kept, so "d’Ivoire" and "d'Ivoire" have different
   * keys, as do "d’Ivoire" and "dIvoire".
   */
  lemma CurlyApostropheKept(x: string, y: string)
    ensures Normalize(x + ['’'] + y) == Normalize(x) + ['’'] + Normalize(y)
    ensures Normalize(x + ['’'] + y) != Normalize(x + ['\''] + y)
  {
    NormalizeAround(x, '’', y);
    KeyOfCurlyApostrophe();
    PunctuationIgnored(x, '\'', y);
    NormalizeAppend(x, y);
    assert |Normalize(x + ['’'] + y)| == |Normalize(x)| + 1 + |Normalize(y)|;
  }

  /** A letter and its lower-case form have the same key. */
  lemma KeyOfLowerCase(c: char)
    ensures Key(ToLowerChar(c)) == Key(c)
  {
    if IsAsciiUpper(c) {
      KeyOfAsciiLetter(c);
      KeyOfAsciiLetter(ToLowerChar(c));
    } else if HasLowerForm(c) {
      var o := c as int - 0xC0;
      if LatinDecomposition(o).Some? {
        KeyOfLowerAccented(c);
      } else {
        KeyOfLowerPlain(c);
      }
    }
  }

  lemma KeyOfLowerAccented(c: char)
    requires HasLowerForm(c) && !IsAsciiUpper(c) && LatinDecomposition(c as int - 0xC0).Some?
    ensures Key(ToLowerChar(c)) == Key(c)
  {
    var l := ToLowerChar(c);
    var (b, m) := LatinDecomposition(c as int - 0xC0).value;
    assert l as int - 0xE0 == c as int - 0xC0;
    assert Decompose(c) == [b, m];
    assert Decompose(l) == [(b as int + 32) as char, m];
    KeyOfAccented(c);
    KeyOfAccented(l);
    KeyOfAsciiLetter(b);
    KeyOfAsciiLetter((b as int + 32) as char);
  }

  lemma KeyOfLowerPlain(c: char)
    requires HasLowerForm(c) && !IsAsciiUpper(c) && LatinDecomposition(c as int - 0xC0).None?
    ensures Key(ToLowerChar(c)) == Key(c)
  {
    var l := ToLowerChar(c);
    var o := c as int - 0xC0;
    assert o == 6 || o == 16 || o == 24 || o == 30;
    assert l as int - 0xE0 == o;
    assert Decompose(c) == [c] && Decompose(l) == [l];
    assert !IsCombiningMark(c) && !InApostropheClass(c) && !IsDropped(c);
    assert !IsCombiningMark(l) && !InApostropheClass(l) && !IsDropped(l) && !HasLowerForm(l);
    StepsOfOne(c);
    StepsOfOne(l);
    assert Key(c) == StepOne(c) == [l];
    assert Key(l) == StepOne(l) == [l];
  }

  /** Case does not matter: a name and its lower-case form have the same key. */
  lemma {:induction false} CaseIgnored(s: string)
    ensures Normalize(ToLower(s)) == Normalize(s)
  {
    NormalizeByCharacter(s);
    NormalizeByCharacter(ToLower(s));
    KeysOfLower(s);
  }

  lemma {:induction false} KeysOfLower(s: string)
    ensures Keys(ToLower(s)) == Keys(s)
  {
    if s != [] {
      KeysOfLower(s[1..]);
      assert ToLower(s)[1..] == ToLower(s[1..]);
      KeyOfLowerCase(s[0]);
    }
  }

  /** The key is already trimmed and lower-case: normalising a key again changes nothing. */
  lemma NormalizeIdempotent(s: string)
    ensures Normalize(Normalize(s)) == Normalize(s)
  {
    var k := Normalize(s);
    NormalizeByCharacter(k);
    KeysOfKey(k);
  }

  lemma {:induction false} KeysOfKey(k: string)
    requires forall i :: 0 <= i < |k| ==> !IsDropped(k[i]) && !HasLowerForm(k[i]) && !IsCombiningMark(k[i])
    requires forall i :: 0 <= i < |k| ==> Decomposed(k[i]) && !InApostropheClass(k[i])
    ensures Keys(k) == k
  {
    if k != [] {
      KeysOfKey(k[1..]);
      var c := k[0];
      assert Decompose(c) == [c];
      StepsOfOne(c);
      assert [c] + k[1..] == k;
    }
  }
}
