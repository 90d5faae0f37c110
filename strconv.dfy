/**
  Decimal formatting and parsing of integers, as Go's `strconv.FormatInt(n, 10)` and
  `strconv.ParseInt(s, 10, bitSize)`: the listener map of a load balancer is keyed by the
  decimal text of each listener's port, written by discovery and parsed back by both renderers.
*/
module Strconv {
  import opened Wrappers

  /** Go's `int32`. */
  type Int32 = x: int | -0x8000_0000 <= x < 0x8000_0000

  predicate IsDigit(c: char)
  {
    '0' <= c <= '9'
  }

  function DigitChar(d: nat): (c: char)
    requires d < 10
    ensures IsDigit(c)
  {
    ('0' as int + d) as char
  }

  function DigitValue(c: char): nat
    requires IsDigit(c)
  {
    c as int - '0' as int
  }

  /** The decimal digits of `n`, most significant first, without leading zeros. */
  function FormatNat(n: nat): (r: string)
    ensures |r| > 0 && forall i :: 0 <= i < |r| ==> IsDigit(r[i])
    decreases n
  {
    if n < 10 then [DigitChar(n)] else FormatNat(n / 10) + [DigitChar(n % 10)]
  }

  /** `strconv.FormatInt(n, 10)`. */
  function FormatInt(n: int): string
  {
    if n < 0 then "-" + FormatNat(-n) else FormatNat(n)
  }

  /** The value of a non-empty run of decimal digits; `None` for the empty string or any other character. */
  function DecimalValue(s: string): (r: Option<nat>)
    ensures r.Some? <==> |s| > 0 && forall i :: 0 <= i < |s| ==> IsDigit(s[i])
    decreases |s|
  {
    if s == [] || !IsDigit(s[|s| - 1]) then None
    else if |s| == 1 then Some(DigitValue(s[0]))
    else
      match DecimalValue(s[..|s| - 1])
      case None => None
      case Some(v) => Some(10 * v + DigitValue(s[|s| - 1]))
  }

  /** One more than the largest value of a signed integer of `bitSize` bits. */
  function Bound(bitSize: nat): int
    requires bitSize == 32 || bitSize == 64
  {
    if bitSize == 32 then 0x8000_0000 else 0x8000_0000_0000_0000
  }

  /**
    `strconv.ParseInt(s, 10, bitSize)`: an optional sign, then decimal digits; `None` where Go
    returns a syntax or range error.
  */
  function ParseInt(s: string, bitSize: nat): (r: Option<int>)
    requires bitSize == 32 || bitSize == 64
    ensures r.Some? ==> -Bound(bitSize) <= r.value < Bound(bitSize)
  {
    if s == [] then None
    else
      var digits := if s[0] == '-' || s[0] == '+' then s[1..] else s;
      match DecimalValue(digits)
      case None => None
      case Some(v) =>
        var n: int := if s[0] == '-' then -(v as int) else v;
        if -Bound(bitSize) <= n < Bound(bitSize) then Some(n) else None
  }

  lemma {:induction false} DecimalValueOfFormat(n: nat)
    ensures DecimalValue(FormatNat(n)) == Some(n)
    decreases n
  {
    if n >= 10 {
      DecimalValueOfFormat(n / 10);
      var s := FormatNat(n);
      assert s[..|s| - 1] == FormatNat(n / 10);
    }
  }

  /** Parsing what `FormatInt` wrote gives the number back, for every number in range. */
  lemma FormatIntRoundTrip(n: int, bitSize: nat)
    requires bitSize == 32 || bitSize == 64
    requires -Bound(bitSize) <= n < Bound(bitSize)
    ensures ParseInt(FormatInt(n), bitSize) == Some(n)
  {
    var s := FormatInt(n);
    if n < 0 {
      DecimalValueOfFormat(-n);
      assert s[0] == '-' && s[1..] == FormatNat(-n);
      assert DecimalValue(s[1..]) == Some(-n);
    } else {
      DecimalValueOfFormat(n);
      assert IsDigit(s[0]);
      assert DecimalValue(s) == Some(n);
    }
  }

  /** Go's `int32(x)` on a 64-bit value: keeps the low 32 bits, read in two's complement. */
  function TruncateToInt32(x: int): (r: Int32)
    ensures -0x8000_0000 <= x < 0x8000_0000 ==> r == x
    ensures (r - x) % 0x1_0000_0000 == 0
  {
    (x + 0x8000_0000) % 0x1_0000_0000 - 0x8000_0000
  }
}
