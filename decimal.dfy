/**
 * Decimal numbers as text and 32-bit signed integers: `int.TryParse` on plain digit strings,
 * the `ToString()` and `:D2` formats, and the wrap-around of C# `int` addition.
 */
module Decimal {
  import opened Wrappers

  const Int32Min: int := -0x8000_0000
  const Int32Max: int := 0x7FFF_FFFF

  predicate IsInt32(n: int) { Int32Min <= n <= Int32Max }

  /** Unchecked C# `int` arithmetic: the value modulo 2^32, read back as a signed number. */
  function Wrap32(x: int): (r: int)
    ensures IsInt32(r)
    ensures (r - x) % 0x1_0000_0000 == 0
  {
    (x - Int32Min) % 0x1_0000_0000 + Int32Min
  }

  lemma Wrap32InRange(x: int)
    requires IsInt32(x)
    ensures Wrap32(x) == x
  {
  }

  /** Adding one to `int.MaxValue` gives `int.MinValue`. */
  lemma Wrap32Overflow()
    ensures Wrap32(Int32Max + 1) == Int32Min
  {
  }

  predicate IsDigit(c: char) { '0' <= c <= '9' }

  predicate AllDigits(s: string) { forall i :: 0 <= i < |s| ==> IsDigit(s[i]) }

  function DigitValue(c: char): (d: nat)
    requires IsDigit(c)
    ensures d < 10
  {
    c as int - '0' as int
  }

  function DigitChar(d: nat): (c: char)
    requires d < 10
    ensures IsDigit(c) && DigitValue(c) == d
  {
    ('0' as int + d) as char
  }

  /** The value of a digit string, most significant digit first. */
  function DigitsValue(s: string): nat
    requires AllDigits(s)
    decreases |s|
  {
    if |s| == 0 then 0 else 10 * DigitsValue(s[..|s| - 1]) + DigitValue(s[|s| - 1])
  }

  /** An optional sign followed by at least one ASCII digit. */
  predicate IsIntegerText(s: string) {
    (|s| > 0 && AllDigits(s)) || (|s| > 1 && (s[0] == '-' || s[0] == '+') && AllDigits(s[1..]))
  }

  /**
   * The value of an integer text, without a bound: the digits read as a number, negated after
   * a minus sign. Nothing else parses.
   */
  function ParseInteger(s: string): (r: Option<int>)
    ensures r.Some? <==> IsIntegerText(s)
    ensures r.Some? && AllDigits(s) ==> r.value == DigitsValue(s)
    ensures r.Some? && !AllDigits(s) ==>
      r.value == if s[0] == '-' then -(DigitsValue(s[1..]) as int) else DigitsValue(s[1..]) as int
  {
    if |s| > 0 && AllDigits(s) then Some(DigitsValue(s))
    else if |s| > 1 && (s[0] == '-' || s[0] == '+') && AllDigits(s[1..]) then
      Some(if s[0] == '-' then -(DigitsValue(s[1..]) as int) else DigitsValue(s[1..]) as int)
    else None
  }

  /**
   * `int.TryParse(s, out n)`: succeeds exactly on an integer text whose value fits in an
   * `int`, with that value.
   */
  function ParseInt32(s: string): (r: Option<int>)
    ensures r.Some? <==> IsIntegerText(s) && IsInt32(ParseInteger(s).value)
    ensures r.Some? ==> IsInt32(r.value) && Some(r.value) == ParseInteger(s)
  {
    var v := ParseInteger(s);
    if v.Some? && IsInt32(v.value) then v else None
  }

  /** `n.ToString()` for a non-negative `n`: no leading zeros. */
  function DecimalString(n: nat): (r: string)
    ensures |r| >= 1 && AllDigits(r)
    ensures |r| > 1 ==> r[0] != '0'
  {
    if n < 10 then [DigitChar(n)] else DecimalString(n / 10) + [DigitChar(n % 10)]
  }

  lemma {:induction false} DecimalStringValue(n: nat)
    ensures DigitsValue(DecimalString(n)) == n
  {
    if n >= 10 {
      var r := DecimalString(n);
      assert r[..|r| - 1] == DecimalString(n / 10);
      DecimalStringValue(n / 10);
    }
  }

  lemma {:induction false} LeadingZeroValue(s: string)
    requires AllDigits(s)
    ensures AllDigits("0" + s) && DigitsValue("0" + s) == DigitsValue(s)
    decreases |s|
  {
    if |s| > 0 {
      var t := "0" + s;
      assert t[..|t| - 1] == "0" + s[..|s| - 1];
      LeadingZeroValue(s[..|s| - 1]);
    }
  }

  /** `n.ToString()` for any `n`: a minus sign before the digits of a negative value. */
  function IntString(n: int): (r: string)
    ensures n >= 0 ==> r == DecimalString(n)
    ensures n < 0 ==> |r| >= 2 && r[0] == '-' && r[1..] == DecimalString(-n)
  {
    if n < 0 then "-" + DecimalString(-n) else DecimalString(n)
  }

  /** `ToString()` reads back as the number, and as an `int` when it is one. */
  lemma IntStringParses(n: int)
    ensures ParseInteger(IntString(n)) == Some(n)
    ensures IsInt32(n) ==> ParseInt32(IntString(n)) == Some(n)
  {
    DecimalStringValue(if n < 0 then -n else n);
    if n < 0 {
      assert !IsDigit(IntString(n)[0]);
    }
  }

  /** The `:D2` format: at least two digits, with a leading minus sign for a negative value. */
  function FormatD2(n: int): (r: string)
  {
    var magnitude := if n < 0 then -n else n;
    var digits := DecimalString(magnitude);
    var padded := if |digits| < 2 then "0" + digits else digits;
    if n < 0 then "-" + padded else padded
  }

  /** A non-negative value formats as at least two digits whose value is the value. */
  lemma FormatD2Digits(n: int)
    requires n >= 0
    ensures |FormatD2(n)| >= 2 && AllDigits(FormatD2(n)) && DigitsValue(FormatD2(n)) == n
  {
    var digits := DecimalString(n);
    DecimalStringValue(n);
    if |digits| < 2 {
      LeadingZeroValue(digits);
    }
  }

  /** Every integer formats with `:D2` as a text that reads back as that integer. */
  lemma FormatD2Integer(n: int)
    ensures ParseInteger(FormatD2(n)) == Some(n)
    ensures n >= 0 ==> |FormatD2(n)| >= 2 && AllDigits(FormatD2(n))
    ensures n < 0 ==> |FormatD2(n)| >= 3 && FormatD2(n)[0] == '-' && AllDigits(FormatD2(n)[1..])
  {
    FormatD2Digits(if n < 0 then -n else n);
    if n < 0 {
      assert FormatD2(n)[1..] == FormatD2(-n);
      assert !IsDigit(FormatD2(n)[0]);
    }
  }

  /** An `int` formatted with `:D2` parses back to itself. */
  lemma FormatD2Parses(n: int)
    requires IsInt32(n)
    ensures ParseInt32(FormatD2(n)) == Some(n)
  {
    FormatD2Integer(n);
  }
}
