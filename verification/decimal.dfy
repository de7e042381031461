/**
 Python's `str()` of an integer: an optional minus sign followed by base-10
 digits without leading zeros. The parser is its inverse and is used only to
 state what the printed form means.
 */
module Decimal {
  import opened Wrappers

  predicate IsDigit(c: char) {
    '0' <= c <= '9'
  }

  predicate AllDigits(s: string) {
    forall i :: 0 <= i < |s| ==> IsDigit(s[i])
  }

  function DigitChar(d: nat): (c: char)
    requires d < 10
    ensures IsDigit(c)
  {
    ('0' as int + d) as char
  }

  function DigitValue(c: char): (d: nat)
    requires IsDigit(c)
    ensures d < 10
  {
    c as int - '0' as int
  }

  /** The digits of a natural number, most significant first. */
  function NatToDigits(n: nat): (s: string)
    ensures 1 <= |s|
    ensures AllDigits(s)
    decreases n
  {
    if n < 10 then [DigitChar(n)] else NatToDigits(n / 10) + [DigitChar(n % 10)]
  }

  /** The number a string of digits denotes. */
  function DigitsToNat(s: string): nat
    requires AllDigits(s)
    decreases |s|
  {
    if |s| == 0 then 0 else DigitsToNat(s[..|s| - 1]) * 10 + DigitValue(s[|s| - 1])
  }

  /** A positive number's digits do not start with `0`. */
  lemma {:induction false} NoLeadingZero(n: nat)
    requires n > 0
    ensures NatToDigits(n)[0] != '0'
    decreases n
  {
    if n >= 10 {
      NoLeadingZero(n / 10);
    }
  }

  /** Python's `str(i)` for an `int` `i`: sign only when negative, no leading zero. */
  function IntToDecimal(i: int): (s: string)
    ensures 1 <= |s| && (i < 0 ==> 2 <= |s|)
    ensures s[0] == '-' <==> i < 0
    ensures i >= 0 ==> AllDigits(s)
    ensures i < 0 ==> AllDigits(s[1..])
    ensures i != 0 ==> s[if i < 0 then 1 else 0] != '0'
    ensures i == 0 ==> s == "0"
  {
    if i < 0 then
      NoLeadingZero(-i);
      assert ("-" + NatToDigits(-i))[1..] == NatToDigits(-i);
      "-" + NatToDigits(-i)
    else
      if i > 0 then NoLeadingZero(i); NatToDigits(i) else NatToDigits(i)
  }

  /** Reads back a string in the form `IntToDecimal` produces. */
  function ParseDecimal(s: string): Option<int> {
    if 1 < |s| && s[0] == '-' && AllDigits(s[1..]) then Some(-(DigitsToNat(s[1..]) as int))
    else if 1 <= |s| && AllDigits(s) then Some(DigitsToNat(s))
    else None
  }

  lemma {:induction false} DigitsRoundTrip(n: nat)
    ensures DigitsToNat(NatToDigits(n)) == n
    decreases n
  {
    if n >= 10 {
      var s := NatToDigits(n / 10);
      var t := s + [DigitChar(n % 10)];
      assert t[..|t| - 1] == s;
      DigitsRoundTrip(n / 10);
    }
  }

  /** The printed form of an integer determines the integer. */
  lemma DecimalRoundTrip(i: int)
    ensures ParseDecimal(IntToDecimal(i)) == Some(i)
  {
    var s := IntToDecimal(i);
    if i < 0 {
      var digits := NatToDigits(-i);
      assert s == "-" + digits;
      assert s[1..] == digits;
      DigitsRoundTrip(-i);
      assert ParseDecimal(s) == Some(-(DigitsToNat(digits) as int));
    } else {
      assert s == NatToDigits(i);
      DigitsRoundTrip(i);
      assert ParseDecimal(s) == Some(DigitsToNat(s));
    }
  }

  /** Distinct integers print differently. */
  lemma DecimalInjective(i: int, j: int)
    ensures IntToDecimal(i) == IntToDecimal(j) <==> i == j
  {
    DecimalRoundTrip(i);
    DecimalRoundTrip(j);
  }
}
