/**
  Decimal rendering of integers, as `std::to_string(int)` produces it:
  an optional leading minus sign followed by the base-10 digits of the
  magnitude, with no leading zeros and no `+` sign.

  `ParseInt` is the independent reading of such text; the two are proved
  to be mutually inverse on canonical decimal text.
 */
module Decimal {

  predicate IsDigit(c: char) {
    '0' <= c <= '9'
  }

  predicate AllDigits(s: string) {
    forall k :: 0 <= k < |s| ==> IsDigit(s[k])
  }

  /** Digit text as `to_string` writes a non-negative number: at least one
      digit, and no leading zero unless the whole text is "0". */
  predicate IsNatText(s: string) {
    && |s| >= 1
    && AllDigits(s)
    && (s[0] == '0' ==> |s| == 1)
  }

  /** Text as `to_string` writes any int: a natural text, or a minus sign
      followed by the natural text of a strictly positive number. */
  predicate IsIntText(s: string) {
    || IsNatText(s)
    || (|s| >= 2 && s[0] == '-' && IsNatText(s[1..]) && s[1] != '0')
  }

  function DigitValue(c: char): (d: nat)
    requires IsDigit(c)
    ensures d < 10
  {
    (c as int) - ('0' as int)
  }

  function DigitChar(d: nat): (c: char)
    requires d < 10
    ensures IsDigit(c)
    ensures DigitValue(c) == d
  {
    (('0' as int) + d) as char
  }

  /** The value of a digit string read most-significant digit first. */
  function ParseNat(s: string): nat
    requires AllDigits(s)
  {
    if |s| == 0 then 0 else ParseNat(s[..|s| - 1]) * 10 + DigitValue(s[|s| - 1])
  }

  /** The value of a decimal int text. */
  function ParseInt(s: string): int
    requires IsIntText(s)
  {
    var magnitude: int := if s[0] == '-' then ParseNat(s[1..]) else ParseNat(s);
    if s[0] == '-' then -magnitude else magnitude
  }

  /** Base-10 rendering of a natural number. */
  function NatToString(n: nat): (r: string)
    ensures IsNatText(r)
    ensures r[0] == '0' <==> n == 0
    ensures ParseNat(r) == n
    decreases n
  {
    if n < 10 then
      [DigitChar(n)]
    else
      var high := NatToString(n / 10);
      var r := high + [DigitChar(n % 10)];
      assert r[..|r| - 1] == high;
      r
  }

  /** The model of `std::to_string(int)`. */
  function IntToString(i: int): (r: string)
    ensures IsIntText(r)
    ensures r[0] == '-' <==> i < 0
    ensures ParseInt(r) == i
  {
    if i < 0 then
      var r := "-" + NatToString(-i);
      assert r[1..] == NatToString(-i);
      r
    else
      NatToString(i)
  }

  /** Natural text is exactly the image of `NatToString`. */
  lemma {:induction false} NatTextRoundTrip(s: string)
    requires IsNatText(s)
    ensures NatToString(ParseNat(s)) == s
    decreases |s|
  {
    if |s| == 1 {
      assert s == [DigitChar(DigitValue(s[0]))];
    } else {
      var high := s[..|s| - 1];
      assert IsNatText(high);
      NatTextRoundTrip(high);
      var n := ParseNat(s);
      assert ParseNat(high) >= 1;
      assert n / 10 == ParseNat(high) && n % 10 == DigitValue(s[|s| - 1]);
      assert s == high + [s[|s| - 1]];
    }
  }

  /** Int text is exactly the image of `IntToString`. */
  lemma IntTextRoundTrip(s: string)
    requires IsIntText(s)
    ensures IntToString(ParseInt(s)) == s
  {
    if s[0] == '-' {
      var m := s[1..];
      NatTextRoundTrip(m);
      assert ParseNat(m) != 0;
      assert s == "-" + m;
    } else {
      NatTextRoundTrip(s);
    }
  }

  /** Rendered ints contain only digits and a leading minus sign, so they
      never contain a quote, a newline or an asterisk. */
  lemma IntTextCharacters(i: int)
    ensures forall c :: c in IntToString(i) ==> IsDigit(c) || c == '-'
  {
    var r := IntToString(i);
    if i < 0 {
      var m := NatToString(-i);
      assert r == "-" + m;
      forall c | c in r ensures IsDigit(c) || c == '-' {
        if c != '-' {
          assert c in m;
        }
      }
    }
  }
}
