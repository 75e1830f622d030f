/**
 * The slice of JavaScript's built-in behaviour that the application relies on:
 * `Math.random`, the `\s` class, case mapping, `trim`, `split`/`join`,
 * `Array.prototype.splice`, number formatting and `Number`/`parseInt`.
 * Every other module of the model is written on top of these definitions.
 */
module Js {

  datatype Option<+T> = None | Some(value: T)

  // ---------------------------------------------------------------------------
  // Math.random
  // ---------------------------------------------------------------------------

  /** A value that `Math.random()` may return. */
  type Unit = r: real | 0.0 <= r < 1.0

  lemma ScaleBelow(r: Unit, n: nat)
    requires n > 0
    ensures 0.0 <= r * (n as real) < n as real
  {
    assert (1.0 - r) * (n as real) > 0.0;
  }

  /** `Math.floor(r * n)` for a random `r`: an index into a collection of size `n`. */
  function RandomIndex(r: Unit, n: nat): (i: nat)
    requires n > 0
    ensures i < n
    ensures i as real <= r * (n as real) < (i + 1) as real
  {
    ScaleBelow(r, n);
    (r * (n as real)).Floor
  }

  /** `Math.floor(r * n) + lo`: a random integer in `lo .. lo + n - 1`. */
  function RandomInt(r: Unit, lo: int, n: nat): (x: int)
    requires n > 0
    ensures lo <= x < lo + n
  {
    lo + RandomIndex(r, n)
  }

  // ---------------------------------------------------------------------------
  // Characters
  // ---------------------------------------------------------------------------

  /** The characters matched by the regular-expression class `\s`. */
  predicate IsSpace(c: char)
  {
    c == ' ' || c == '\t' || c == '\n' || c == '\U{000B}' || c == '\U{000C}' || c == '\r'
    || c == '\U{00A0}' || c == '\U{1680}' || '\U{2000}' <= c <= '\U{200A}'
    || c == '\U{2028}' || c == '\U{2029}' || c == '\U{202F}' || c == '\U{205F}'
    || c == '\U{3000}' || c == '\U{FEFF}'
  }

  predicate IsDigit(c: char) { '0' <= c <= '9' }

  predicate IsAsciiUpper(c: char) { 'A' <= c <= 'Z' }

  predicate IsAsciiLower(c: char) { 'a' <= c <= 'z' }

  /** Upper-case letters whose lower-case form is 32 code points above them: ASCII and Latin-1. */
  predicate HasLowerForm(c: char)
  {
    IsAsciiUpper(c) || ('\U{00C0}' <= c <= '\U{00DE}' && c != '\U{00D7}')
  }

  /** Lower-case letters whose upper-case form is 32 code points below them: ASCII and Latin-1. */
  predicate HasUpperForm(c: char)
  {
    IsAsciiLower(c) || ('\U{00E0}' <= c <= '\U{00FE}' && c != '\U{00F7}')
  }

  function ToLowerChar(c: char): char
  {
    if HasLowerForm(c) then (c as int + 32) as char else c
  }

  /** Lower-casing maps letters to lower-case ASCII letters and leaves digits, white space and other characters alone. */
  lemma ToLowerCharClasses(c: char)
    ensures IsAsciiLower(ToLowerChar(c)) <==> IsAsciiLower(c) || IsAsciiUpper(c)
    ensures IsDigit(ToLowerChar(c)) <==> IsDigit(c)
    ensures IsSpace(ToLowerChar(c)) <==> IsSpace(c)
    ensures !HasLowerForm(c) ==> ToLowerChar(c) == c
  {
  }

  function ToUpperChar(c: char): (d: char)
    ensures IsAsciiUpper(d) <==> IsAsciiUpper(c) || IsAsciiLower(c)
    ensures !HasUpperForm(c) ==> d == c
  {
    if HasUpperForm(c) then (c as int - 32) as char else c
  }

  /** `String.prototype.toLowerCase`. */
  function ToLower(s: string): (r: string)
    ensures |r| == |s|
    ensures forall i :: 0 <= i < |s| ==> r[i] == ToLowerChar(s[i])
  {
    if s == [] then [] else [ToLowerChar(s[0])] + ToLower(s[1..])
  }

  lemma ToLowerAppend(a: string, b: string)
    ensures ToLower(a + b) == ToLower(a) + ToLower(b)
  {
    var l := ToLower(a + b);
    var r := ToLower(a) + ToLower(b);
    forall i | 0 <= i < |l|
      ensures l[i] == r[i]
    {
      if i < |a| {
        assert (a + b)[i] == a[i];
      } else {
        assert (a + b)[i] == b[i - |a|];
      }
    }
  }

  // ---------------------------------------------------------------------------
  // String.prototype.trim
  // ---------------------------------------------------------------------------

  function TrimStart(s: string): (r: string)
    ensures |r| <= |s|
    ensures r == [] || !IsSpace(r[0])
  {
    if s != [] && IsSpace(s[0]) then TrimStart(s[1..]) else s
  }

  /** What `TrimStart` keeps is a suffix of its input. */
  lemma {:induction false} TrimStartSuffix(s: string)
    ensures TrimStart(s) == s[|s| - |TrimStart(s)|..]
  {
    if s != [] && IsSpace(s[0]) {
      TrimStartSuffix(s[1..]);
      assert s[1..][|s| - 1 - |TrimStart(s)|..] == s[|s| - |TrimStart(s)|..];
    }
  }

  lemma {:induction false} TrimStartDropsSpaces(s: string)
    ensures forall i :: 0 <= i < |s| - |TrimStart(s)| ==> IsSpace(s[i])
  {
    if s != [] && IsSpace(s[0]) {
      TrimStartDropsSpaces(s[1..]);
    }
  }

  function TrimEnd(s: string): (r: string)
    ensures |r| <= |s|
    ensures r == s[..|r|]
    ensures r == [] || !IsSpace(r[|r| - 1])
  {
    if s != [] && IsSpace(s[|s| - 1]) then TrimEnd(s[..|s| - 1]) else s
  }

  lemma {:induction false} TrimEndDropsSpaces(s: string)
    ensures forall i :: |TrimEnd(s)| <= i < |s| ==> IsSpace(s[i])
  {
    if s != [] && IsSpace(s[|s| - 1]) {
      TrimEndDropsSpaces(s[..|s| - 1]);
    }
  }

  /** `String.prototype.trim`: the longest substring without white space at either end. */
  function Trim(s: string): (r: string)
  {
    TrimEnd(TrimStart(s))
  }

  /** What trim keeps: a slice of the input, framed only by white space, with no white space at either end. */
  lemma TrimSlice(s: string) returns (i: nat)
    ensures i + |Trim(s)| <= |s| && Trim(s) == s[i..i + |Trim(s)|]
    ensures forall k :: 0 <= k < i ==> IsSpace(s[k])
    ensures forall k :: i + |Trim(s)| <= k < |s| ==> IsSpace(s[k])
    ensures Trim(s) == [] || (!IsSpace(Trim(s)[0]) && !IsSpace(Trim(s)[|Trim(s)| - 1]))
  {
    var t := TrimStart(s);
    var r := TrimEnd(t);
    TrimStartSuffix(s);
    TrimStartDropsSpaces(s);
    TrimEndDropsSpaces(t);
    i := |s| - |t|;
    assert r == s[i..i + |r|];
    assert r != [] ==> r[0] == t[0];
    assert forall k :: i + |r| <= k < |s| ==> s[k] == t[k - i];
  }

  lemma TrimNoSpaceEnds(s: string)
    requires s == [] || (!IsSpace(s[0]) && !IsSpace(s[|s| - 1]))
    ensures Trim(s) == s
  {
  }

  // ---------------------------------------------------------------------------
  // Digits, Number and parseInt
  // ---------------------------------------------------------------------------

  predicate AllDigits(s: string) { forall i :: 0 <= i < |s| ==> IsDigit(s[i]) }

  /** `s.replace(/\D/g, "")`: the digits of `s`, in order. */
  function DigitsOnly(s: string): (r: string)
    ensures AllDigits(r)
    ensures |r| <= |s|
  {
    if s == [] then []
    else (if IsDigit(s[0]) then [s[0]] else []) + DigitsOnly(s[1..])
  }

  lemma {:induction false} DigitsOnlyKeepsDigits(s: string)
    requires AllDigits(s)
    ensures DigitsOnly(s) == s
  {
    if s != [] {
      DigitsOnlyKeepsDigits(s[1..]);
    }
  }

  /** Filtering twice is filtering once, and only an all-digit string is left untouched. */
  lemma DigitsOnlyIdempotent(s: string)
    ensures DigitsOnly(DigitsOnly(s)) == DigitsOnly(s)
    ensures DigitsOnly(s) == s <==> AllDigits(s)
  {
    DigitsOnlyKeepsDigits(DigitsOnly(s));
    if AllDigits(s) {
      DigitsOnlyKeepsDigits(s);
    }
  }

  function DigitChar(d: nat): (c: char)
    requires d < 10
    ensures IsDigit(c)
  {
    ('0' as int + d) as char
  }

  function DigitValue(c: char): (d: nat)
    requires IsDigit(c)
    ensures d < 10 && DigitChar(d) == c
  {
    c as int - '0' as int
  }

  /** Decimal digits without sign or leading zeros, as `String(n)` / `n.toString()` prints a natural number. */
  function NatToString(n: nat): (r: string)
    ensures |r| >= 1 && AllDigits(r)
    ensures r[0] == '0' <==> n == 0
    ensures n == 0 ==> r == "0"
  {
    if n < 10 then [DigitChar(n)] else NatToString(n / 10) + [DigitChar(n % 10)]
  }

  /** `String(i)` for an integer. */
  function IntToString(i: int): (r: string)
    ensures |r| >= 1
    ensures r[0] == '-' <==> i < 0
  {
    if i < 0 then "-" + NatToString(-i) else NatToString(i)
  }

  /** The value of a string of decimal digits. */
  function DigitsValue(s: string): nat
    requires AllDigits(s)
  {
    if s == [] then 0 else DigitsValue(s[..|s| - 1]) * 10 + DigitValue(s[|s| - 1])
  }

  lemma {:induction false} NatToStringRoundTrip(n: nat)
    ensures DigitsValue(NatToString(n)) == n
  {
    if n >= 10 {
      var r := NatToString(n);
      NatToStringRoundTrip(n / 10);
      assert r[..|r| - 1] == NatToString(n / 10);
      assert DigitValue(r[|r| - 1]) == n % 10;
    }
  }

  /** Printing is injective: different numbers never print the same. */
  lemma NatToStringInjective(m: nat, n: nat)
    ensures NatToString(m) == NatToString(n) <==> m == n
  {
    if NatToString(m) == NatToString(n) {
      NatToStringRoundTrip(m);
      NatToStringRoundTrip(n);
    }
  }

  /** An optional sign followed by at least one decimal digit. */
  predicate IsIntegerLiteral(t: string)
  {
    if t != [] && (t[0] == '-' || t[0] == '+') then |t| >= 2 && AllDigits(t[1..])
    else |t| >= 1 && AllDigits(t)
  }

  /**
   * `Number(s)` where the result is an integer: surrounding white space is ignored,
   * the empty string is 0, an optionally signed run of decimal digits is its value.
   * Everything else is `None` (NaN, or a value this model does not represent).
   */
  function NumberValue(s: string): Option<int>
  {
    LiteralValue(Trim(s))
  }

  /** The value `Number` gives a string that has already been trimmed. */
  function LiteralValue(t: string): (v: Option<int>)
    ensures v.Some? <==> t == [] || IsIntegerLiteral(t)
  {
    if t == [] then Some(0)
    else if !IsIntegerLiteral(t) then None
    else if t[0] == '-' then Some(-(DigitsValue(t[1..]) as int))
    else if t[0] == '+' then Some(DigitsValue(t[1..]))
    else Some(DigitsValue(t))
  }

  /** `Number(String(i)) === i`: printing an integer and reading it back gives it back. */
  lemma NumberValueOfIntToString(i: int)
    ensures NumberValue(IntToString(i)) == Some(i)
  {
    if i < 0 {
      var n: nat := -i;
      var s := "-" + NatToString(n);
      assert IntToString(i) == s;
      NumberValueNegative(n);
      assert NumberValue(s) == Some(i);
    } else {
      var s := NatToString(i);
      assert IntToString(i) == s;
      NumberValueUnsigned(i);
    }
  }

  lemma NumberValueUnsigned(n: nat)
    ensures NumberValue(NatToString(n)) == Some(n)
  {
    var d := NatToString(n);
    NatToStringRoundTrip(n);
    DigitsTrim(d);
    LiteralValueOfDigits(d);
  }

  lemma NumberValueNegative(n: nat)
    ensures NumberValue("-" + NatToString(n)) == Some(-(n as int))
  {
    var d := NatToString(n);
    NatToStringRoundTrip(n);
    NegativeTrim(d);
    LiteralValueOfNegative(d);
  }

  lemma DigitsTrim(d: string)
    requires d != [] && AllDigits(d)
    ensures Trim(d) == d
  {
    assert !IsSpace(d[0]) && !IsSpace(d[|d| - 1]);
    TrimNoSpaceEnds(d);
  }

  lemma LiteralValueOfDigits(d: string)
    requires d != [] && AllDigits(d)
    ensures LiteralValue(d) == Some(DigitsValue(d) as int)
  {
  }

  /** Trim leaves a minus sign followed by digits alone. */
  lemma NegativeTrim(d: string)
    requires d != [] && AllDigits(d)
    ensures Trim("-" + d) == "-" + d
  {
    var s := "-" + d;
    assert s[|s| - 1] == d[|d| - 1];
    TrimNoSpaceEnds(s);
  }

  lemma LiteralValueOfNegative(d: string)
    requires d != [] && AllDigits(d)
    ensures LiteralValue("-" + d) == Some(-(DigitsValue(d) as int))
  {
    assert ("-" + d)[1..] == d;
  }

  /** The longest run of digits at the start of `s`. */
  function LeadingDigits(s: string): (r: string)
    ensures AllDigits(r) && r <= s
    ensures |r| < |s| ==> !IsDigit(s[|r|])
  {
    if s != [] && IsDigit(s[0]) then [s[0]] + LeadingDigits(s[1..]) else []
  }

  /**
   * `parseInt(s)` with radix 10: leading white space is skipped, an optional sign is read,
   * then the longest run of digits; no digit at all gives NaN (`None`).
   */
  function ParseInt(s: string): (v: Option<int>)
    ensures v.Some? <==> var t := TrimStart(s);
      (t != [] && IsDigit(t[0])) || (|t| >= 2 && (t[0] == '-' || t[0] == '+') && IsDigit(t[1]))
  {
    var t := TrimStart(s);
    var signed := t != [] && (t[0] == '-' || t[0] == '+');
    var body := if signed then t[1..] else t;
    var digits := LeadingDigits(body);
    if digits == [] then None
    else if signed && t[0] == '-' then Some(-(DigitsValue(digits) as int))
    else Some(DigitsValue(digits))
  }

  /** `parseInt(String(n)) === n`, and trailing non-digits are ignored. */
  lemma ParseIntOfNatToString(n: nat, rest: string)
    requires rest == [] || !IsDigit(rest[0])
    ensures ParseInt(NatToString(n) + rest) == Some(n)
  {
    var d := NatToString(n);
    assert (d + rest)[0] == d[0];
    ParseIntUnsigned(d + rest);
    LeadingDigitsOf(d, rest);
    NatToStringRoundTrip(n);
  }

  lemma ParseIntUnsigned(s: string)
    requires s != [] && IsDigit(s[0])
    ensures ParseInt(s) == Some(DigitsValue(LeadingDigits(s)))
  {
    assert !IsSpace(s[0]);
    assert TrimStart(s) == s;
    assert s[0] != '-' && s[0] != '+';
    assert LeadingDigits(s) != [];
  }

  lemma {:induction false} LeadingDigitsOf(d: string, rest: string)
    requires AllDigits(d)
    requires rest == [] || !IsDigit(rest[0])
    ensures LeadingDigits(d + rest) == d
  {
    if d != [] {
      assert (d + rest)[1..] == d[1..] + rest;
      LeadingDigitsOf(d[1..], rest);
    } else {
      assert d + rest == rest;
    }
  }

  // ---------------------------------------------------------------------------
  // split and join
  // ---------------------------------------------------------------------------

  /** `s.split(sep)` for a one-character separator; `"".split(sep)` is `[""]`. */
  function Split(s: string, sep: char): (r: seq<string>)
    ensures |r| >= 1
    ensures forall i :: 0 <= i < |r| ==> sep !in r[i]
  {
    if s == [] then [[]]
    else
      var rest := Split(s[1..], sep);
      if s[0] == sep then [[]] + rest else [[s[0]] + rest[0]] + rest[1..]
  }

  /** `ws.join(sep)`. */
  function Join(ws: seq<string>, sep: string): string
  {
    if ws == [] then []
    else if |ws| == 1 then ws[0]
    else ws[0] + sep + Join(ws[1..], sep)
  }

  /** Splitting and joining back with the same separator gives the original string. */
  lemma {:induction false} JoinSplit(s: string, sep: char)
    ensures Join(Split(s, sep), [sep]) == s
  {
    if s != [] {
      var rest := Split(s[1..], sep);
      JoinSplit(s[1..], sep);
      if s[0] == sep {
        assert Split(s, sep) == [[]] + rest;
      } else {
        var r := Split(s, sep);
        assert r == [[s[0]] + rest[0]] + rest[1..];
        if |rest| == 1 {
          assert Join(r, [sep]) == [s[0]] + rest[0];
        } else {
          assert r[1..] == rest[1..];
          assert Join(r, [sep]) == [s[0]] + rest[0] + [sep] + Join(rest[1..], [sep]);
        }
      }
    }
  }

  /** Joining pieces that do not contain the separator and splitting again gives the pieces back. */
  lemma {:induction false} SplitJoin(ws: seq<string>, sep: char)
    requires |ws| >= 1
    requires forall i :: 0 <= i < |ws| ==> sep !in ws[i]
    ensures Split(Join(ws, [sep]), sep) == ws
  {
    if |ws| == 1 {
      SplitNoSeparator(ws[0], sep);
    } else {
      SplitJoin(ws[1..], sep);
      SplitPrefix(ws[0], Join(ws[1..], [sep]), sep);
      assert [ws[0]] + ws[1..] == ws;
    }
  }

  lemma {:induction false} SplitNoSeparator(w: string, sep: char)
    requires sep !in w
    ensures Split(w, sep) == [w]
  {
    if w != [] {
      SplitNoSeparator(w[1..], sep);
      assert w[0] != sep;
      assert [w[0]] + w[1..] == w;
    }
  }

  lemma {:induction false} SplitPrefix(w: string, t: string, sep: char)
    requires sep !in w
    ensures Split(w + [sep] + t, sep) == [w] + Split(t, sep)
  {
    if w == [] {
      assert w + [sep] + t == [sep] + t;
      assert ([sep] + t)[1..] == t;
    } else {
      var s := w + [sep] + t;
      assert s[0] == w[0] && w[0] != sep;
      assert s[1..] == w[1..] + [sep] + t;
      SplitPrefix(w[1..], t, sep);
      var rest := Split(s[1..], sep);
      assert rest[0] == w[1..] && rest[1..] == Split(t, sep);
      assert [w[0]] + w[1..] == w;
    }
  }

  // ---------------------------------------------------------------------------
  // Array.prototype.splice used to move one element
  // ---------------------------------------------------------------------------

  /** `s.splice(i, 1)`: the sequence without its element at `i`. */
  function RemoveAt<T>(s: seq<T>, i: nat): (r: seq<T>)
    requires i < |s|
    ensures |r| == |s| - 1
    ensures multiset(r) + multiset{s[i]} == multiset(s)
  {
    assert s == s[..i] + [s[i]] + s[i + 1..];
    s[..i] + s[i + 1..]
  }

  /** `s.splice(i, 0, x)`: the sequence with `x` inserted before position `i`. */
  function InsertAt<T>(s: seq<T>, i: nat, x: T): (r: seq<T>)
    requires i <= |s|
    ensures |r| == |s| + 1 && r[i] == x
    ensures multiset(r) == multiset(s) + multiset{x}
    ensures RemoveAt(r, i) == s
  {
    assert s == s[..i] + s[i..];
    assert (s[..i] + [x] + s[i..])[..i] == s[..i];
    assert (s[..i] + [x] + s[i..])[i + 1..] == s[i..];
    s[..i] + [x] + s[i..]
  }

  /**
   * The drag-and-drop reorder: `const [m] = s.splice(from, 1); s.splice(to, 0, m)`.
   * The moved element lands at `to`, and the others keep their relative order.
   */
  function Move<T>(s: seq<T>, from: nat, to: nat): (r: seq<T>)
    requires from < |s| && to < |s|
    ensures |r| == |s| && r[to] == s[from]
    ensures multiset(r) == multiset(s)
    ensures RemoveAt(r, to) == RemoveAt(s, from)
  {
    InsertAt(RemoveAt(s, from), to, s[from])
  }

  lemma InsertRemoveAt<T>(s: seq<T>, i: nat)
    requires i < |s|
    ensures InsertAt(RemoveAt(s, i), i, s[i]) == s
  {
    assert s == s[..i] + [s[i]] + s[i + 1..];
  }

  /** Dragging an element back to where it came from undoes the move. */
  lemma MoveBack<T>(s: seq<T>, from: nat, to: nat)
    requires from < |s| && to < |s|
    ensures Move(Move(s, from, to), to, from) == s
  {
    var r := Move(s, from, to);
    InsertRemoveAt(s, from);
  }

  /** Dropping an element where it was picked up changes nothing. */
  lemma MoveInPlace<T>(s: seq<T>, i: nat)
    requires i < |s|
    ensures Move(s, i, i) == s
  {
    InsertRemoveAt(s, i);
  }
}
