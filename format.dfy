/**
 * Decimal formatting as `fmt`'s `%d` writes integers, with the parser that
 * reads it back.
 */
module Format {
  import opened Errors

  predicate IsDigit(c: char)
  {
    '0' <= c <= '9'
  }

  /** A non-empty run of decimal digits. */
  predicate IsDigits(s: string)
  {
    |s| > 0 && forall i :: 0 <= i < |s| ==> IsDigit(s[i])
  }

  function DigitChar(d: nat): (c: char)
    requires d < 10
    ensures IsDigit(c)
  {
    ('0' as int + d) as char
  }

  function DigitValue(c: char): (d: nat)
    requires IsDigit(c)
    ensures d < 10
  {
    c as int - '0' as int
  }

  /** The digits of `n`, most significant first, without leading zeros. */
  function DecimalDigits(n: nat): (r: string)
    ensures IsDigits(r)
    decreases n
  {
    if n < 10 then [DigitChar(n)] else DecimalDigits(n / 10) + [DigitChar(n % 10)]
  }

  /** `%d`: a minus sign before the digits of a negative number. */
  function Decimal(n: int): (r: string)
    ensures r != [] && (n >= 0 ==> IsDigits(r))
  {
    if n < 0 then "-" + DecimalDigits(-n) else DecimalDigits(n)
  }

  /** The value of a run of digits. */
  function ParseDigits(s: string): nat
    requires forall i :: 0 <= i < |s| ==> IsDigit(s[i])
    decreases |s|
  {
    if s == [] then 0 else 10 * ParseDigits(s[..|s| - 1]) + DigitValue(s[|s| - 1])
  }

  /** An optional minus sign, then digits. */
  function ParseDecimal(s: string): Option<int>
  {
    if |s| > 0 && s[0] == '-' && IsDigits(s[1..]) then var n: int := ParseDigits(s[1..]); Some(-n)
    else if IsDigits(s) then Some(ParseDigits(s))
    else None
  }

  lemma {:induction false} DigitsRoundTrip(n: nat)
    ensures ParseDigits(DecimalDigits(n)) == n
    decreases n
  {
    if n >= 10 {
      var s := DecimalDigits(n);
      assert s[..|s| - 1] == DecimalDigits(n / 10);
      DigitsRoundTrip(n / 10);
    }
  }

  /** Reading back what `%d` wrote gives the number. */
  lemma DecimalRoundTrip(n: int)
    ensures ParseDecimal(Decimal(n)) == Some(n)
  {
    if n < 0 {
      var s := Decimal(n);
      assert s[1..] == DecimalDigits(-n);
      DigitsRoundTrip(-n);
    } else {
      DigitsRoundTrip(n);
    }
  }
}
