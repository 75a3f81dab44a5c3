/**
 Go's `strconv.Atoi` on a 64-bit platform, the `uint32(...)` conversion the list endpoint
 applies to its result, and `strconv.Itoa` as the formatting Atoi inverts.
 */
module StrConv {
  import opened Wrappers
  import opened Models

  const MinInt64: int := -0x8000_0000_0000_0000
  const MaxInt64: int := 0x7FFF_FFFF_FFFF_FFFF

  predicate InInt64(n: int) {
    MinInt64 <= n <= MaxInt64
  }

  predicate IsDigit(c: char) {
    '0' <= c <= '9'
  }

  predicate AllDigits(s: string) {
    forall i | 0 <= i < |s| :: IsDigit(s[i])
  }

  function DigitValue(c: char): (d: nat)
    requires IsDigit(c)
    ensures d < 10
  {
    c as int - '0' as int
  }

  function DigitChar(d: nat): (c: char)
    requires d < 10
    ensures IsDigit(c) && DigitValue(c) == d
  {
    ('0' as int + d) as char
  }

  /** The number a non-empty run of decimal digits denotes (leading zeros allowed). */
  function DecimalValue(s: string): nat
    requires AllDigits(s)
  {
    if |s| == 0 then 0 else DecimalValue(s[..|s| - 1]) * 10 + DigitValue(s[|s| - 1])
  }

  /** The digits of an optionally signed decimal: `s` without a leading '+' or '-'. */
  function Unsigned(s: string): string
  {
    if |s| > 0 && (s[0] == '+' || s[0] == '-') then s[1..] else s
  }

  /** An optional sign followed by one or more decimal digits: the only syntax Atoi accepts. */
  predicate IsDecimal(s: string) {
    |Unsigned(s)| > 0 && AllDigits(Unsigned(s))
  }

  /** The value an optionally signed decimal denotes. */
  function SignedValue(s: string): int
    requires IsDecimal(s)
  {
    if s[0] == '-' then -(DecimalValue(Unsigned(s)) as int) else DecimalValue(Unsigned(s))
  }

  /**
   `strconv.Atoi`: the value of an optionally signed decimal, or nothing when the text is not
   one or its value does not fit a 64-bit `int` (Go's syntax and range errors).
   */
  function Atoi(s: string): (r: Option<int>)
    ensures r.Some? <==> IsDecimal(s) && InInt64(SignedValue(s))
    ensures r.Some? ==> r.value == SignedValue(s)
  {
    if |s| == 0 then None
    else
      var digits := Unsigned(s);
      if |digits| == 0 || !AllDigits(digits) then None
      else
        var n := if s[0] == '-' then -(DecimalValue(digits) as int) else DecimalValue(digits);
        if InInt64(n) then Some(n) else None
  }

  /** The decimal digits of `n`, most significant first, without leading zeros. */
  function NatToDecimal(n: nat): (s: string)
    ensures |s| > 0 && AllDigits(s)
    ensures DecimalValue(s) == n
    ensures s[0] != '+' && s[0] != '-'
  {
    if n < 10 then [DigitChar(n)]
    else
      var s := NatToDecimal(n / 10) + [DigitChar(n % 10)];
      assert s[..|s| - 1] == NatToDecimal(n / 10);
      s
  }

  /** `strconv.Itoa`: the decimal text of `n`, with a '-' for negatives. */
  function Itoa(n: int): string
  {
    if n < 0 then "-" + NatToDecimal(-n) else NatToDecimal(n)
  }

  /** Atoi reads back every 64-bit integer that Itoa writes. */
  lemma AtoiItoa(n: int)
    requires InInt64(n)
    ensures Atoi(Itoa(n)) == Some(n)
  {
    var s := Itoa(n);
    if n < 0 {
      assert Unsigned(s) == NatToDecimal(-n);
    } else {
      assert Unsigned(s) == NatToDecimal(n);
    }
  }

  /** A decimal outside the 64-bit range is refused like malformed text. */
  lemma AtoiRejectsOutOfRange(n: int)
    requires !InInt64(n)
    ensures Atoi(Itoa(n)) == None
  {
    var s := Itoa(n);
    if n < 0 {
      assert Unsigned(s) == NatToDecimal(-n);
    } else {
      assert Unsigned(s) == NatToDecimal(n);
    }
  }

  /**
   Go's `uint32(n)` for an `int`: the two's-complement truncation to 32 bits, i.e. the unique
   value in [0, 2^32) congruent to `n` modulo 2^32.
   */
  function ToUint32(n: int): (r: uint32)
    ensures (r - n) % TwoTo32 == 0
    ensures 0 <= n < TwoTo32 ==> r == n
    ensures -TwoTo32 <= n < 0 ==> r == n + TwoTo32
  {
    n % TwoTo32
  }
}
