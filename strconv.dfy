/** strconv.ParseInt(s, 10, 64), the parse behind the handlers' `getID`, and
    its inverse strconv.FormatInt(n, 10). */
module Strconv {
  import opened Wrappers

  const MinInt64: int := -0x8000_0000_0000_0000
  const MaxInt64: int := 0x7fff_ffff_ffff_ffff

  /** Go's int64. */
  newtype int64 = x: int | MinInt64 <= x <= MaxInt64

  predicate IsDigit(c: char)
  {
    '0' <= c <= '9'
  }

  predicate AllDigits(s: string)
  {
    forall k :: 0 <= k < |s| ==> IsDigit(s[k])
  }

  /** The value of a string of decimal digits, most significant first. */
  function DigitsValue(s: string): nat
    requires AllDigits(s)
  {
    if s == [] then 0
    else DigitsValue(s[..|s| - 1]) * 10 + (s[|s| - 1] as int - '0' as int)
  }

  /** The optional sign of a literal: `+`, `-` or none. */
  predicate HasSign(s: string)
  {
    |s| > 0 && (s[0] == '+' || s[0] == '-')
  }

  /** The digits of a literal, after its sign. */
  function Magnitude(s: string): string
  {
    if HasSign(s) then s[1..] else s
  }

  /** The shape ParseInt accepts in base 10: an optional sign and at least
      one decimal digit, nothing else (no spaces, no underscores). */
  predicate IsDecimal(s: string)
  {
    Magnitude(s) != [] && AllDigits(Magnitude(s))
  }

  /** The mathematical value of a decimal literal. */
  function DecimalValue(s: string): int
    requires IsDecimal(s)
  {
    if |s| > 0 && s[0] == '-' then 0 - DigitsValue(Magnitude(s)) else DigitsValue(Magnitude(s))
  }

  /** strconv.ParseInt(s, 10, 64): the value of a base-10 literal that fits
      64 bits; None for a syntax error or a value out of range. */
  function ParseInt64(s: string): (r: Option<int64>)
    ensures r.Some? <==> IsDecimal(s) && MinInt64 <= DecimalValue(s) <= MaxInt64
    ensures r.Some? ==> r.value as int == DecimalValue(s)
  {
    if s == [] then None
    else
      var neg := s[0] == '-';
      var digits := if s[0] == '+' || s[0] == '-' then s[1..] else s;
      if digits == [] || !AllDigits(digits) then None
      else
        var v: int := if neg then 0 - DigitsValue(digits) else DigitsValue(digits);
        if MinInt64 <= v <= MaxInt64 then Some(v as int64) else None
  }

  function DigitChar(d: nat): char
    requires d < 10
  {
    ('0' as int + d) as char
  }

  /** The decimal digits of a natural number, without leading zeros. */
  function Digits(n: nat): (r: string)
    ensures r != [] && AllDigits(r)
  {
    if n < 10 then [DigitChar(n)] else Digits(n / 10) + [DigitChar(n % 10)]
  }

  /** strconv.FormatInt(n, 10). */
  function FormatInt64(n: int64): string
  {
    if n < 0 then "-" + Digits(-(n as int)) else Digits(n as int)
  }

  lemma {:induction false} DigitsRoundTrip(n: nat)
    ensures DigitsValue(Digits(n)) == n
  {
    if n >= 10 {
      var d := Digits(n);
      assert d[..|d| - 1] == Digits(n / 10);
      DigitsRoundTrip(n / 10);
    }
  }

  /** Every int64 survives FormatInt followed by ParseInt. */
  lemma FormatParseRoundTrip(n: int64)
    ensures ParseInt64(FormatInt64(n)) == Some(n)
  {
    var s := FormatInt64(n);
    if n < 0 {
      var m := -(n as int);
      assert s == "-" + Digits(m);
      assert s[0] == '-' && s[1..] == Digits(m);
      DigitsRoundTrip(m);
      assert DecimalValue(s) == n as int;
    } else {
      var m := n as int;
      assert s == Digits(m);
      assert IsDigit(s[0]);
      DigitsRoundTrip(m);
      assert DecimalValue(s) == n as int;
    }
  }
}
