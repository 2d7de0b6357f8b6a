/**
 * The handful of JavaScript string primitives the screens rely on, stated
 * over Dafny strings (sequences of Unicode scalar values): whitespace and
 * `trim`, ASCII case mapping, `includes`, `replace` with a string pattern
 * (first occurrence), `replaceAll`, number-to-text, and the `isNaN` test
 * that JavaScript applies to a string through `Number(...)`.
 */
module JsText {
  import opened Sequences

  // ---------------------------------------------------------------------
  // Whitespace and trim
  // ---------------------------------------------------------------------

  /** The characters JavaScript's `\s` and `String.prototype.trim` treat as
      white space: the WhiteSpace and LineTerminator productions. */
  predicate IsJsSpace(c: char)
  {
    || c == ' ' || c == '\t' || c == '\n' || c == '\r'
    || c == '\U{000B}' || c == '\U{000C}' || c == '\U{00A0}' || c == '\U{FEFF}'
    || c == '\U{1680}' || ('\U{2000}' <= c <= '\U{200A}')
    || c == '\U{2028}' || c == '\U{2029}' || c == '\U{202F}' || c == '\U{205F}'
    || c == '\U{3000}'
  }

  /** `s.trim() === ""`: every character is white space. */
  predicate IsBlank(s: string)
  {
    forall i :: 0 <= i < |s| ==> IsJsSpace(s[i])
  }

  /** `trimStart`: drop leading white space. */
  function TrimStart(s: string): (r: string)
    ensures |r| <= |s| && r == s[|s| - |r|..]
    ensures r == [] || !IsJsSpace(r[0])
    ensures IsBlank(s[..|s| - |r|])
  {
    if s != [] && IsJsSpace(s[0]) then
      var r := TrimStart(s[1..]);
      assert s[1..][..|s| - 1 - |r|] == s[1..|s| - |r|];
      r
    else s
  }

  /** `trimEnd`: drop trailing white space. */
  function TrimEnd(s: string): (r: string)
    ensures |r| <= |s| && r == s[..|r|]
    ensures r == [] || !IsJsSpace(r[|r| - 1])
    ensures IsBlank(s[|r|..])
  {
    if s != [] && IsJsSpace(s[|s| - 1]) then
      var r := TrimEnd(s[..|s| - 1]);
      assert s[..|s| - 1][|r|..] == s[|r|..|s| - 1];
      r
    else s
  }

  /** `trim`: both ends. */
  function Trim(s: string): string
  {
    TrimEnd(TrimStart(s))
  }

  /** A trimmed string is empty exactly when the input was all white space,
      which is how `!text.trim()` decides blank input. */
  lemma TrimEmptyIffBlank(s: string)
    ensures Trim(s) == [] <==> IsBlank(s)
  {
    var a := TrimStart(s);
    if Trim(s) == [] {
      assert IsBlank(a[0..]);
      assert a == [];
      assert s[..|s|] == s;
    } else if IsBlank(s) {
      BlankTrimsToEmpty(s);
    }
  }

  lemma {:induction false} BlankTrimsToEmpty(s: string)
    requires IsBlank(s)
    ensures TrimStart(s) == []
  {
    if s != [] {
      BlankTrimsToEmpty(s[1..]);
    }
  }

  // ---------------------------------------------------------------------
  // Case mapping (ASCII letters)
  // ---------------------------------------------------------------------

  function LowerChar(c: char): char
  {
    if 'A' <= c <= 'Z' then (c as int + 32) as char else c
  }

  function UpperChar(c: char): char
  {
    if 'a' <= c <= 'z' then (c as int - 32) as char else c
  }

  /** `toLowerCase` on the ASCII letters; every other character is kept. */
  function ToLower(s: string): (r: string)
    ensures |r| == |s|
    ensures forall i :: 0 <= i < |s| ==> r[i] == LowerChar(s[i])
  {
    seq(|s|, i requires 0 <= i < |s| => LowerChar(s[i]))
  }

  /** `toUpperCase` on the ASCII letters; every other character is kept. */
  function ToUpper(s: string): (r: string)
    ensures |r| == |s|
    ensures forall i :: 0 <= i < |s| ==> r[i] == UpperChar(s[i])
  {
    seq(|s|, i requires 0 <= i < |s| => UpperChar(s[i]))
  }

  lemma ToLowerIdempotent(s: string)
    ensures ToLower(ToLower(s)) == ToLower(s)
  {
  }

  // ---------------------------------------------------------------------
  // includes, indexOf, replace, replaceAll
  // ---------------------------------------------------------------------

  predicate IsPrefix(p: string, s: string)
  {
    |p| <= |s| && s[..|p|] == p
  }

  /** `s.includes(sub)`: `sub` occurs at some position of `s`. */
  predicate Includes(s: string, sub: string)
  {
    exists i :: 0 <= i <= |s| - |sub| && IsPrefix(sub, s[i..])
  }

  /** Dropping the first character shifts every suffix by one. */
  lemma TailSuffixes(s: string)
    requires s != []
    ensures forall j :: 1 <= j <= |s| ==> s[1..][j - 1..] == s[j..]
  {
  }

  /** `s.indexOf(pat)`: a position at which `pat` occurs, or -1;
      `IndexOfIsFirst` shows it is the first one. */
  function IndexOf(s: string, pat: string): (r: int)
    ensures r == -1 || 0 <= r <= |s| - |pat|
    ensures r >= 0 ==> IsPrefix(pat, s[r..])
  {
    if |s| < |pat| then -1
    else if IsPrefix(pat, s) then
      assert s[0..] == s;
      0
    else
      var k := IndexOf(s[1..], pat);
      TailSuffixes(s);
      if k < 0 then -1 else k + 1
  }

  /** No occurrence comes before the one `indexOf` reports, and there is
      none at all when it reports -1. */
  lemma {:induction false} IndexOfIsFirst(s: string, pat: string)
    ensures forall j :: 0 <= j <= |s| - |pat| && (IndexOf(s, pat) < 0 || j < IndexOf(s, pat)) ==>
      !IsPrefix(pat, s[j..])
    decreases |s|
  {
    if |s| >= |pat| && !IsPrefix(pat, s) {
      IndexOfIsFirst(s[1..], pat);
      TailSuffixes(s);
      assert s[0..] == s;
    }
  }

  /** `indexOf` answers -1 exactly when `includes` answers false. */
  lemma IndexOfIffIncludes(s: string, pat: string)
    ensures IndexOf(s, pat) < 0 <==> !Includes(s, pat)
  {
    IndexOfIsFirst(s, pat);
    var r := IndexOf(s, pat);
    if r >= 0 {
      assert 0 <= r <= |s| - |pat| && IsPrefix(pat, s[r..]);
    }
  }

  /** The first occurrence found by `indexOf` is the one with no
      occurrence before it. */
  lemma IndexOfFirst(s: string, pat: string, k: nat)
    requires k <= |s| - |pat| && IsPrefix(pat, s[k..])
    requires forall j :: 0 <= j < k ==> !IsPrefix(pat, s[j..])
    ensures IndexOf(s, pat) == k
  {
    IndexOfIsFirst(s, pat);
  }

  /** `s.replace(pat, rep)` with a string pattern: only the first
      occurrence, the one `indexOf` finds, is replaced; without one the
      string is returned as is. */
  function ReplaceFirst(s: string, pat: string, rep: string): (r: string)
    ensures IndexOf(s, pat) < 0 ==> r == s
    ensures IndexOf(s, pat) >= 0 ==>
      var i := IndexOf(s, pat); i + |pat| <= |s| && r == s[..i] + rep + s[i + |pat|..]
  {
    var i := IndexOf(s, pat);
    if i < 0 then s else s[..i] + rep + s[i + |pat|..]
  }

  /** `s.replaceAll(pat, rep)` with a non-empty string pattern: occurrences
      are found left to right and do not overlap. */
  function ReplaceAll(s: string, pat: string, rep: string): (r: string)
    requires pat != []
    ensures !Includes(s, pat) ==> r == s
    decreases |s|
  {
    if |s| < |pat| then
      s
    else if IsPrefix(pat, s) then
      assert s[0..] == s;
      rep + ReplaceAll(s[|pat|..], pat, rep)
    else
      assert forall j :: 1 <= j <= |s| ==> s[1..][j - 1..] == s[j..];
      [s[0]] + ReplaceAll(s[1..], pat, rep)
  }

  // ---------------------------------------------------------------------
  // Digits and numbers as text
  // ---------------------------------------------------------------------

  predicate IsDigit(c: char)
  {
    '0' <= c <= '9'
  }

  predicate AllDigits(s: string)
  {
    forall i :: 0 <= i < |s| ==> IsDigit(s[i])
  }

  /** `s.replace(/[^0-9]/g, '')`: keep the decimal digits, in order. */
  function KeepDigits(s: string): (r: string)
    ensures AllDigits(r)
    ensures |r| <= |s|
    ensures AllDigits(s) ==> r == s
  {
    if s == [] then []
    else if IsDigit(s[0]) then [s[0]] + KeepDigits(s[1..])
    else KeepDigits(s[1..])
  }

  /** Only non-digits are dropped: the digits stay in order, each as often as in `s`. */
  lemma {:induction false} KeepDigitsKeepsDigits(s: string)
    ensures IsSubsequence(KeepDigits(s), s)
    ensures forall c :: multiset(KeepDigits(s))[c] == if IsDigit(c) then multiset(s)[c] else 0
  {
    if s != [] {
      KeepDigitsKeepsDigits(s[1..]);
      assert s == [s[0]] + s[1..];
      if IsDigit(s[0]) {
        assert ([s[0]] + KeepDigits(s[1..]))[1..] == KeepDigits(s[1..]);
      }
    }
  }

  function DigitChar(d: nat): char
    requires d < 10
  {
    ('0' as int + d) as char
  }

  function DigitValue(c: char): nat
    requires IsDigit(c)
  {
    c as int - '0' as int
  }

  /** The decimal text of a natural number, as template literals and
      `String(n)` print it (no sign, no leading zeros). */
  function NatToString(n: nat): (r: string)
    ensures r != [] && AllDigits(r)
    ensures |r| > 1 ==> r[0] != '0'
    decreases n
  {
    if n < 10 then [DigitChar(n)] else NatToString(n / 10) + [DigitChar(n % 10)]
  }

  /** The value of a string of decimal digits. */
  function DigitsValue(s: string): nat
    requires AllDigits(s)
  {
    if s == [] then 0 else DigitsValue(s[..|s| - 1]) * 10 + DigitValue(s[|s| - 1])
  }

  /** Reading back the printed number gives the number: the text form is
      injective, so two different amounts never print the same. */
  lemma {:induction false} NatToStringRoundTrip(n: nat)
    ensures DigitsValue(NatToString(n)) == n
    decreases n
  {
    if n >= 10 {
      NatToStringRoundTrip(n / 10);
      var s := NatToString(n);
      assert s[..|s| - 1] == NatToString(n / 10);
    }
  }

  lemma NatToStringInjective(m: nat, n: nat)
    requires NatToString(m) == NatToString(n)
    ensures m == n
  {
    NatToStringRoundTrip(m);
    NatToStringRoundTrip(n);
  }

  // ---------------------------------------------------------------------
  // isNaN on a string: JavaScript's StringToNumber grammar
  // ---------------------------------------------------------------------

  /** The number of leading characters of `s` satisfying `IsDigit`. */
  function LeadingDigits(s: string): (k: nat)
    ensures k <= |s| && AllDigits(s[..k])
    ensures k < |s| ==> !IsDigit(s[k])
  {
    if s != [] && IsDigit(s[0]) then
      var k := 1 + LeadingDigits(s[1..]);
      assert s[..k] == [s[0]] + s[1..][..k - 1];
      k
    else 0
  }

  predicate IsRadixDigit(c: char, radix: nat)
  {
    match radix
    case 16 => IsDigit(c) || 'a' <= c <= 'f' || 'A' <= c <= 'F'
    case 8 => '0' <= c <= '7'
    case _ => c == '0' || c == '1'
  }

  /** `0x…`, `0o…`, `0b…` (either case of the letter), at least one digit. */
  predicate IsNonDecimalLiteral(t: string)
  {
    && |t| >= 3 && t[0] == '0'
    && var radix := if t[1] in "xX" then 16 else if t[1] in "oO" then 8 else 2;
       && t[1] in "xXoObB"
       && forall i :: 2 <= i < |t| ==> IsRadixDigit(t[i], radix)
  }

  /** An exponent part: `e` or `E`, an optional sign, at least one digit. */
  predicate IsExponent(r: string)
  {
    && |r| >= 2 && r[0] in "eE"
    && var d := if r[1] in "+-" then r[2..] else r[1..];
       d != [] && AllDigits(d)
  }

  /** StrUnsignedDecimalLiteral: `Infinity`, `12`, `12.`, `12.5`, `.5`,
      each optionally followed by an exponent. */
  predicate IsUnsignedDecimal(t: string)
  {
    if t == "Infinity" then true
    else
      var a := LeadingDigits(t);
      var r := t[a..];
      if a > 0 then
        if r == [] then true
        else if r[0] == '.' then
          var f := r[1..][LeadingDigits(r[1..])..];
          f == [] || IsExponent(f)
        else IsExponent(r)
      else
        && r != [] && r[0] == '.'
        && LeadingDigits(r[1..]) > 0
        && var f := r[1..][LeadingDigits(r[1..])..];
           f == [] || IsExponent(f)
  }

  /** StrNumericLiteral: a non-decimal literal, or a decimal one with an
      optional sign. */
  predicate IsNumericLiteral(t: string)
  {
    || IsNonDecimalLiteral(t)
    || (t != [] && t[0] in "+-" && IsUnsignedDecimal(t[1..]))
    || IsUnsignedDecimal(t)
  }

  /** `isNaN(s)` for a string `s`: `Number(s)` trims white space, reads the
      empty string as 0, and is NaN exactly when the rest is not a numeric
      literal. */
  predicate IsNaNText(s: string)
  {
    var t := Trim(s);
    t != [] && !IsNumericLiteral(t)
  }

  /** For one typed character (a PIN slot holds at most one), `isNaN` is
      false exactly for a digit or a white-space character. */
  lemma {:induction false} SingleCharNaN(c: char)
    ensures !IsNaNText([c]) <==> IsDigit(c) || IsJsSpace(c)
  {
    if IsJsSpace(c) {
      assert IsBlank([c]);
      TrimEmptyIffBlank([c]);
    } else {
      assert Trim([c]) == [c];
      if IsDigit(c) {
        assert LeadingDigits([c]) == 1;
        assert IsUnsignedDecimal([c]);
      } else {
        assert LeadingDigits([c]) == 0;
        assert !IsUnsignedDecimal([c]);
        assert !IsNonDecimalLiteral([c]);
      }
    }
  }

  /** The empty string is not NaN (`Number("")` is 0). */
  lemma EmptyIsNumber()
    ensures !IsNaNText("")
  {
    assert IsBlank("");
    TrimEmptyIffBlank("");
  }

  /** A non-empty run of decimal digits is a number. */
  lemma DigitsAreNumber(s: string)
    requires s != [] && AllDigits(s)
    ensures !IsNaNText(s)
  {
    assert !IsJsSpace(s[0]) && !IsJsSpace(s[|s| - 1]);
    assert TrimStart(s) == s;
    assert Trim(s) == s;
    assert LeadingDigits(s) == |s|;
    assert IsUnsignedDecimal(s);
  }
}
