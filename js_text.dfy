/**
 * The two JavaScript conversions between integers and text that the upload
 * path relies on: `Number.prototype.toString()` on a non-negative integer
 * (the client writes chunk numbers into form fields with it) and the global
 * `parseInt(string)` with no radix (the chunk route reads them back with it),
 * following section 19.2.5 of ECMA-262.  NaN is `None`.
 */
module JsText {
  import opened Basics

  /** StrWhiteSpaceChar of ECMA-262: the WhiteSpace and LineTerminator code points.
      The Zs category is written out: U+0020, U+00A0, U+1680, U+2000..U+200A, U+202F, U+205F, U+3000. */
  predicate IsJsWhitespace(c: char) {
    || c == '\U{0009}' || c == '\U{000B}' || c == '\U{000C}' || c == '\U{FEFF}'
    || c == ' ' || c == '\U{00A0}' || c == '\U{1680}' || ('\U{2000}' <= c <= '\U{200A}')
    || c == '\U{202F}' || c == '\U{205F}' || c == '\U{3000}'
    || c == '\n' || c == '\r' || c == '\U{2028}' || c == '\U{2029}'
  }

  predicate IsDecimalDigit(c: char) {
    '0' <= c <= '9'
  }

  /** A digit of the given radix (10 or 16), in either letter case. */
  predicate IsRadixDigit(c: char, radix: nat) {
    if radix == 16 then IsDecimalDigit(c) || 'a' <= c <= 'f' || 'A' <= c <= 'F'
    else IsDecimalDigit(c)
  }

  function DigitValue(c: char): (v: nat)
    ensures IsDecimalDigit(c) ==> v < 10
    ensures IsRadixDigit(c, 16) ==> v < 16
  {
    if IsDecimalDigit(c) then c as int - '0' as int
    else if 'a' <= c <= 'f' then c as int - 'a' as int + 10
    else if 'A' <= c <= 'F' then c as int - 'A' as int + 10
    else 0
  }

  /** How many white-space characters `s` starts with. */
  function WhitespaceRun(s: string): (n: nat)
    ensures n <= |s|
  {
    if s != [] && IsJsWhitespace(s[0]) then 1 + WhitespaceRun(s[1..]) else 0
  }

  /** The input with its leading white space removed. */
  function TrimStart(s: string): string
  {
    s[WhitespaceRun(s)..]
  }

  /** How many radix digits `s` starts with. */
  function DigitRun(s: string, radix: nat): (n: nat)
    ensures n <= |s|
  {
    if s != [] && IsRadixDigit(s[0], radix) then 1 + DigitRun(s[1..], radix) else 0
  }

  /** The longest prefix of `s` made of radix digits. */
  function LeadingDigits(s: string, radix: nat): string
  {
    s[..DigitRun(s, radix)]
  }

  /** The value of a digit string, most significant digit first. */
  function DigitsValue(d: string, radix: nat): nat
  {
    if d == [] then 0 else DigitsValue(d[..|d| - 1], radix) * radix + DigitValue(d[|d| - 1])
  }

  /** `parseInt(v)` with no radix.  A missing form field (`null`) is converted
      to the text "null" first, as `parseInt` converts its argument to a string. */
  function ParseInt(v: Option<string>): (r: Option<int>)
    ensures v.None? ==> r.None?
    ensures v.Some? && (forall k :: 0 <= k < |v.value| ==> !IsDecimalDigit(v.value[k])) ==> r.None?
  {
    ParseSigned(TrimStart(if v.Some? then v.value else "null"))
  }

  /** An optional sign, then the unsigned part. */
  function ParseSigned(t: string): Option<int>
  {
    if |t| > 0 && t[0] == '-' then
      match ParseUnsigned(t[1..])
      case None => None
      case Some(m) => Some(-(m as int))
    else if |t| > 0 && t[0] == '+' then ParseUnsigned(t[1..])
    else ParseUnsigned(t)
  }

  /** An optional `0x`/`0X` prefix selecting radix 16, then the longest digit prefix; no digits is NaN. */
  function ParseUnsigned(u: string): Option<nat>
  {
    var hex := |u| >= 2 && u[0] == '0' && (u[1] == 'x' || u[1] == 'X');
    var radix := if hex then 16 else 10;
    var z := LeadingDigits(if hex then u[2..] else u, radix);
    if z == [] then None else Some(DigitsValue(z, radix))
  }

  function DigitChar(d: nat): (c: char)
    requires d < 10
    ensures IsDecimalDigit(c) && DigitValue(c) == d
  {
    ('0' as int + d) as char
  }

  /** `n.toString()` for a non-negative integer: decimal, no leading zeros. */
  function NatToString(n: nat): (s: string)
    ensures IsCanonicalNumeral(s)
  {
    if n < 10 then [DigitChar(n)] else NatToString(n / 10) + [DigitChar(n % 10)]
  }

  /** `${i}` for an integer. */
  function IntToString(i: int): string
  {
    if i < 0 then "-" + NatToString(-i) else NatToString(i)
  }

  lemma {:induction false} NatToStringShape(n: nat)
    ensures |NatToString(n)| > 0
    ensures forall k :: 0 <= k < |NatToString(n)| ==> IsDecimalDigit(NatToString(n)[k])
    ensures n >= 10 ==> NatToString(n)[0] != '0'
    ensures DigitsValue(NatToString(n), 10) == n
  {
    if n >= 10 {
      NatToStringShape(n / 10);
      var s := NatToString(n / 10);
      assert NatToString(n) == s + [DigitChar(n % 10)];
      assert NatToString(n)[..|NatToString(n)| - 1] == s;
    }
  }

  lemma {:induction false} LeadingDigitsOfDigits(s: string)
    requires forall k :: 0 <= k < |s| ==> IsDecimalDigit(s[k])
    ensures DigitRun(s, 10) == |s| && LeadingDigits(s, 10) == s
  {
    if s != [] {
      LeadingDigitsOfDigits(s[1..]);
    }
  }

  /** A plain decimal numeral without a superfluous leading zero. */
  predicate IsCanonicalNumeral(s: string) {
    && |s| > 0
    && (forall k :: 0 <= k < |s| ==> IsDecimalDigit(s[k]))
    && !(|s| >= 2 && s[0] == '0')
  }

  lemma CanonicalNumeralParses(s: string)
    requires IsCanonicalNumeral(s)
    ensures WhitespaceRun(s) == 0 && TrimStart(s) == s
    ensures ParseSigned(s) == ParseUnsigned(s) == Some(DigitsValue(s, 10))
  {
    LeadingDigitsOfDigits(s);
  }

  /** Reading back what `toString` wrote gives the number again. */
  lemma ParseIntOfNatToString(n: nat)
    ensures ParseInt(Some(NatToString(n))) == Some(n)
  {
    NatToStringShape(n);
    CanonicalNumeralParses(NatToString(n));
  }

  /** The same for a signed integer written with `${i}`. */
  lemma ParseIntOfIntToString(i: int)
    ensures ParseInt(Some(IntToString(i))) == Some(i)
  {
    if i < 0 {
      var s := NatToString(-i);
      NatToStringShape(-i);
      CanonicalNumeralParses(s);
      var t := "-" + s;
      assert IntToString(i) == t;
      assert WhitespaceRun(t) == 0;
      assert t[1..] == s;
      assert ParseSigned(t) == Some(i);
    } else {
      ParseIntOfNatToString(i);
    }
  }

  /** `parseInt` skips leading blanks, honours a sign and a `0x` prefix, and stops at the first non-digit. */
  lemma ParseIntExamples()
    ensures ParseInt(Some(" \t-12abc")) == Some(-12)
    ensures ParseInt(Some("0x1F")) == Some(31)
    ensures ParseInt(Some("3.9")) == Some(3)
  {
    assert WhitespaceRun(" \t-12abc") == 2;
    assert TrimStart(" \t-12abc") == "-12abc";
    assert "-12abc"[1..] == "12abc";
    assert DigitRun("12abc", 10) == 2;
    assert LeadingDigits("12abc", 10) == "12";
    assert DigitsValue("12", 10) == 12 by { assert "12"[..1] == "1"; }
    assert ParseUnsigned("12abc") == Some(12);

    assert WhitespaceRun("0x1F") == 0;
    assert "0x1F"[2..] == "1F";
    assert DigitRun("1F", 16) == 2;
    assert DigitsValue("1F", 16) == 31 by { assert "1F"[..1] == "1"; }
    assert ParseUnsigned("0x1F") == Some(31);

    assert WhitespaceRun("3.9") == 0;
    assert DigitRun("3.9", 10) == 1;
    assert LeadingDigits("3.9", 10) == "3";
    assert ParseUnsigned("3.9") == Some(3);
  }
}
