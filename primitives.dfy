/** Shared primitive types: the `u64` of `near_primitives` (nonces and block
    heights) and the decimal rendering and parsing Rust gives it through
    `to_string` / `str::parse`. */
module Primitives {
  import opened Wrappers

  const U64_BOUND: int := 0x1_0000_0000_0000_0000

  newtype u64 = x: int | 0 <= x < 0x1_0000_0000_0000_0000

  predicate IsDigit(c: char) {
    '0' <= c <= '9'
  }

  predicate AllDigits(s: string) {
    forall i :: 0 <= i < |s| ==> IsDigit(s[i])
  }

  function DigitChar(d: nat): (c: char)
    requires d < 10
    ensures IsDigit(c)
  {
    (48 + d) as char
  }

  function DigitValue(c: char): (d: nat)
    requires IsDigit(c)
    ensures d < 10
  {
    c as int - 48
  }

  /** The decimal text of `n`, as `to_string` writes an unsigned integer:
      at least one digit, and no leading zero unless `n` is zero. */
  function DecimalString(n: nat): (s: string)
    ensures |s| >= 1 && AllDigits(s)
    ensures s[0] == '0' ==> n == 0
    decreases n
  {
    if n < 10 then [DigitChar(n)] else DecimalString(n / 10) + [DigitChar(n % 10)]
  }

  /** The value of a string of decimal digits (most significant first). */
  function ParseDecimal(s: string): nat
    requires AllDigits(s)
    decreases |s|
  {
    if s == [] then 0 else ParseDecimal(s[..|s| - 1]) * 10 + DigitValue(s[|s| - 1])
  }

  /** Reading back the decimal text of a number gives the number. */
  lemma {:induction false} ParseDecimalString(n: nat)
    ensures ParseDecimal(DecimalString(n)) == n
    decreases n
  {
    if n >= 10 {
      var prefix := DecimalString(n / 10);
      assert DecimalString(n)[..|prefix|] == prefix;
      ParseDecimalString(n / 10);
    }
  }

  /** Parsing a `u64` from text made of digits only (no sign), with the
      standard library's error messages for empty, non-digit and
      overflowing input. */
  function ParseU64(s: string): (r: Result<u64, string>)
    ensures r.Success? <==> s != [] && AllDigits(s) && ParseDecimal(s) < U64_BOUND
    ensures r.Success? ==> r.value as int == ParseDecimal(s)
  {
    if s == [] then Failure("cannot parse integer from empty string")
    else if !AllDigits(s) then Failure("invalid digit found in string")
    else if ParseDecimal(s) >= U64_BOUND then Failure("number too large to fit in target type")
    else Success(ParseDecimal(s) as u64)
  }

  /** Every `u64` survives being written with `to_string` and parsed back. */
  lemma U64TextRoundTrip(n: u64)
    ensures ParseU64(DecimalString(n as nat)) == Success(n)
  {
    ParseDecimalString(n as nat);
  }
}
