/**
 * Go's 64-bit signed integers and the base-10 rendering that
 * `strconv.FormatInt(i, 10)` gives them; the request paths of the client
 * embed group and milestone identifiers this way.
 */
module Strconv {

  /** Go's `int64`. */
  newtype int64 = x: int | -0x8000_0000_0000_0000 <= x < 0x8000_0000_0000_0000

  /** The ASCII digit for `d`. */
  function Digit(d: nat): (c: char)
    requires d < 10
    ensures '0' <= c <= '9'
  {
    ('0' as int + d) as char
  }

  /** Decimal digits of `n`, most significant first, without leading zeros. */
  function FormatNat(n: nat): (s: string)
    ensures |s| >= 1
    ensures forall k :: 0 <= k < |s| ==> '0' <= s[k] <= '9'
    ensures n > 0 ==> s[0] != '0'
    ensures |s| > 1 ==> s[0] != '0'
    decreases n
  {
    if n < 10 then [Digit(n)] else FormatNat(n / 10) + [Digit(n % 10)]
  }

  /** `strconv.FormatInt(i, 10)`: a minus sign for negative numbers, then the digits. */
  function FormatInt(i: int64): (s: string)
    ensures |s| >= 1 && '/' !in s
    ensures (s[0] == '-') <==> i < 0
  {
    if i < 0 then "-" + FormatNat(-(i as int)) else FormatNat(i as int)
  }

  /** Reads a string of decimal digits back as a number (reference inverse of FormatNat). */
  function ParseDigits(s: string): int
    decreases |s|
  {
    if |s| == 0 then 0 else ParseDigits(s[..|s| - 1]) * 10 + (s[|s| - 1] as int - '0' as int)
  }

  /** Reads an optionally signed decimal string back as a number (reference inverse of FormatInt). */
  function ParseInt(s: string): int {
    if |s| > 0 && s[0] == '-' then -ParseDigits(s[1..]) else ParseDigits(s)
  }

  /** Reading back the digits of `n` gives `n`. */
  lemma {:induction false} ParseFormatNat(n: nat)
    ensures ParseDigits(FormatNat(n)) == n
    decreases n
  {
    if n >= 10 {
      var s := FormatNat(n);
      assert s[..|s| - 1] == FormatNat(n / 10);
      ParseFormatNat(n / 10);
    }
  }

  /** Round trip: the decimal rendering of an int64 reads back as the same number. */
  lemma ParseFormatInt(i: int64)
    ensures ParseInt(FormatInt(i)) == i as int
  {
    if i < 0 {
      var s := FormatInt(i);
      assert s[1..] == FormatNat(-(i as int));
      ParseFormatNat(-(i as int));
    } else {
      ParseFormatNat(i as int);
    }
  }

  /** Distinct identifiers are rendered as distinct path segments. */
  lemma FormatIntInjective(i: int64, j: int64)
    requires FormatInt(i) == FormatInt(j)
    ensures i == j
  {
    ParseFormatInt(i);
    ParseFormatInt(j);
  }
}
