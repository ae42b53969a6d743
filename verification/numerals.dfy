/** How an integer id is rendered inside a path by a JavaScript template literal
    (`/cabins/${cabinId}`): an optional minus sign followed by the decimal digits,
    without leading zeros. */
module Numerals {

  predicate IsDigit(c: char)
  {
    '0' <= c <= '9'
  }

  predicate AllDigits(s: string)
  {
    forall i :: 0 <= i < |s| ==> IsDigit(s[i])
  }

  function DigitChar(d: nat): (c: char)
    requires d < 10
    ensures IsDigit(c)
  {
    (('0' as int) + d) as char
  }

  function DigitValue(c: char): nat
    requires IsDigit(c)
  {
    (c as int) - ('0' as int)
  }

  /** Decimal digits of a natural number, most significant first. */
  function Decimal(n: nat): (s: string)
    ensures |s| >= 1 && AllDigits(s)
    ensures s[0] == '0' ==> n == 0
  {
    if n < 10 then [DigitChar(n)] else Decimal(n / 10) + [DigitChar(n % 10)]
  }

  /** Reads decimal digits back as a number. */
  function ParseDecimal(s: string): nat
    requires AllDigits(s)
  {
    if |s| == 0 then 0 else 10 * ParseDecimal(s[..|s| - 1]) + DigitValue(s[|s| - 1])
  }

  lemma {:induction false} ParseDecimalOfDecimal(n: nat)
    ensures ParseDecimal(Decimal(n)) == n
  {
    if n >= 10 {
      var s := Decimal(n);
      assert s[..|s| - 1] == Decimal(n / 10);
      ParseDecimalOfDecimal(n / 10);
    }
  }

  /** `String(n)` for an integer `n` that is a safe integer (|n| < 2^53) below
      1e21. Larger values are written differently by JavaScript (exponent
      form, or an inexact Number); ids are assumed to stay in that range. */
  function NumberToString(n: int): (s: string)
    ensures |s| >= 1
    ensures s[0] == '-' <==> n < 0
  {
    if n < 0 then "-" + Decimal(-n) else Decimal(n)
  }

  /** Distinct ids give distinct strings, so a path names exactly one record. */
  lemma NumberToStringInjective(a: int, b: int)
    requires NumberToString(a) == NumberToString(b)
    ensures a == b
  {
    if a < 0 && b < 0 {
      assert Decimal(-a) == NumberToString(a)[1..];
      assert Decimal(-b) == NumberToString(b)[1..];
      ParseDecimalOfDecimal(-a);
      ParseDecimalOfDecimal(-b);
    } else if a >= 0 && b >= 0 {
      ParseDecimalOfDecimal(a);
      ParseDecimalOfDecimal(b);
    }
  }
}
