/**
 * The pieces of PHP's string handling that the object cache relies on:
 * the `\s` class of `preg_replace('/\s+/', '', ...)`, the `(int)` cast of a
 * string and the decimal spelling of a number.
 */
module PhpStrings {

  /** PCRE's `\s` with the default (non-UTF) tables: space, tab, LF, VT, FF and CR. */
  predicate IsWhitespace(c: char) {
    c == ' ' || c == '\t' || c == '\n' || c == '\U{000B}' || c == '\U{000C}' || c == '\r'
  }

  /** PHP's `empty()` on a string: the empty string and "0". */
  predicate IsEmptyString(s: string) {
    s == "" || s == "0"
  }

  predicate NoWhitespace(s: string) {
    forall i :: 0 <= i < |s| ==> !IsWhitespace(s[i])
  }

  /** `preg_replace('/\s+/', '', s)`: every whitespace character is removed, the rest kept in order. */
  function StripWhitespace(s: string): (r: string)
    ensures |r| <= |s|
  {
    if s == [] then []
    else if IsWhitespace(s[0]) then StripWhitespace(s[1..])
    else [s[0]] + StripWhitespace(s[1..])
  }

  /** Nothing that `\s` matches survives the replacement. */
  lemma {:induction false} StripLeavesNoWhitespace(s: string)
    ensures NoWhitespace(StripWhitespace(s))
  {
    if s != [] {
      StripLeavesNoWhitespace(s[1..]);
    }
  }

  /** Stripping keeps exactly the characters that are not whitespace. */
  lemma {:induction false} StripKeepsChars(s: string, c: char)
    ensures c in StripWhitespace(s) <==> c in s && !IsWhitespace(c)
  {
    if s != [] {
      StripKeepsChars(s[1..], c);
      assert c in s <==> c == s[0] || c in s[1..];
    }
  }

  /** Stripping distributes over concatenation, so a key can be read piece by piece. */
  lemma {:induction false} StripAppend(a: string, b: string)
    ensures StripWhitespace(a + b) == StripWhitespace(a) + StripWhitespace(b)
  {
    if a == [] {
      assert a + b == b;
    } else {
      assert (a + b)[0] == a[0];
      assert (a + b)[1..] == a[1..] + b;
      StripAppend(a[1..], b);
    }
  }

  /** A string without whitespace is left as it is; in particular stripping is idempotent. */
  lemma {:induction false} StripKeepsClean(s: string)
    requires NoWhitespace(s)
    ensures StripWhitespace(s) == s
  {
    if s != [] {
      assert NoWhitespace(s[1..]);
      StripKeepsClean(s[1..]);
    }
  }

  lemma StripIdempotent(s: string)
    ensures StripWhitespace(StripWhitespace(s)) == StripWhitespace(s)
  {
    StripLeavesNoWhitespace(s);
    StripKeepsClean(StripWhitespace(s));
  }

  predicate IsDigit(c: char) {
    '0' <= c <= '9'
  }

  predicate AllDigits(s: string) {
    forall i :: 0 <= i < |s| ==> IsDigit(s[i])
  }

  function DigitValue(c: char): (d: nat)
    requires IsDigit(c)
    ensures d < 10
  {
    (c as int) - ('0' as int)
  }

  function DigitChar(d: nat): (c: char)
    requires d < 10
    ensures IsDigit(c) && DigitValue(c) == d
  {
    (('0' as int) + d) as char
  }

  /** The value of a run of decimal digits, most significant first. */
  function DigitsToNat(s: string): nat
    requires AllDigits(s)
  {
    if s == [] then 0 else DigitsToNat(s[..|s| - 1]) * 10 + DigitValue(s[|s| - 1])
  }

  /** The decimal spelling of `n`, without leading zeros. */
  function NatToDecimal(n: nat): (r: string)
    ensures AllDigits(r) && |r| > 0
    ensures (r[0] == '0') == (n == 0)
  {
    if n < 10 then [DigitChar(n)] else NatToDecimal(n / 10) + [DigitChar(n % 10)]
  }

  lemma {:induction false} DecimalRoundTrip(n: nat)
    ensures DigitsToNat(NatToDecimal(n)) == n
  {
    if n >= 10 {
      var r := NatToDecimal(n);
      assert r[..|r| - 1] == NatToDecimal(n / 10);
      DecimalRoundTrip(n / 10);
    }
  }

  /** The longest prefix of `s` made of digits. */
  function LeadingDigits(s: string): (r: string)
    ensures AllDigits(r) && r <= s
    ensures r == s || !IsDigit(s[|r|])
  {
    if s == [] || !IsDigit(s[0]) then [] else [s[0]] + LeadingDigits(s[1..])
  }

  lemma {:induction false} LeadingDigitsOfDigits(s: string)
    requires AllDigits(s)
    ensures LeadingDigits(s) == s
  {
    if s != [] {
      LeadingDigitsOfDigits(s[1..]);
    }
  }

  /** `s` without its leading whitespace. */
  function SkipWhitespace(s: string): (r: string)
    ensures |r| <= |s| && r == s[|s| - |r|..]
    ensures r == [] || !IsWhitespace(r[0])
  {
    if s != [] && IsWhitespace(s[0]) then SkipWhitespace(s[1..]) else s
  }

  /** PHP_INT_MAX and PHP_INT_MIN on a 64-bit build. */
  const IntMax: int := 0x7FFF_FFFF_FFFF_FFFF
  const IntMin: int := -0x8000_0000_0000_0000

  /**
   * PHP's `(int)` cast of a string: leading whitespace, an optional sign and
   * the leading digits; anything after them is ignored, a string without
   * leading digits gives 0, and the result saturates at the 64-bit bounds.
   */
  function ToInt(s: string): (r: int)
    ensures IntMin <= r <= IntMax
  {
    var t := SkipWhitespace(s);
    var negative := t != [] && t[0] == '-';
    var body := if t != [] && (t[0] == '-' || t[0] == '+') then t[1..] else t;
    var magnitude: int := DigitsToNat(LeadingDigits(body));
    if negative then (if -magnitude < IntMin then IntMin else -magnitude)
    else (if magnitude > IntMax then IntMax else magnitude)
  }

  /** Casting the decimal spelling of a number back to int gives the number. */
  lemma ToIntOfDecimal(n: nat)
    requires n <= IntMax
    ensures ToInt(NatToDecimal(n)) == n
  {
    var d := NatToDecimal(n);
    assert IsDigit(d[0]) && !IsWhitespace(d[0]);
    assert SkipWhitespace(d) == d;
    LeadingDigitsOfDigits(d);
    DecimalRoundTrip(n);
    assert DigitsToNat(LeadingDigits(d)) == n;
  }

  /** A string whose first non-blank character is neither a sign nor a digit casts to 0. */
  lemma ToIntOfNonNumeric(s: string)
    requires var t := SkipWhitespace(s); t == [] || (!IsDigit(t[0]) && t[0] != '-' && t[0] != '+')
    ensures ToInt(s) == 0
  {
  }
}
