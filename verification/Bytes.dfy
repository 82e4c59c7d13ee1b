/** Byte strings, Go's fixed-width integers, ASCII literals and the decimal
    rendering Go's `%d` verb produces for unsigned integers. */
module Bytes {
  import opened Wrappers

  newtype byte = x: int | 0 <= x < 256

  const TwoTo32: int := 0x1_0000_0000
  const TwoTo64: int := 0x1_0000_0000_0000_0000

  type u32 = x: int | 0 <= x < TwoTo32
  type u64 = x: int | 0 <= x < TwoTo64
  type i64 = x: int | -0x8000_0000_0000_0000 <= x < 0x8000_0000_0000_0000

  /** The field separator of transaction data, ASCII `@`. */
  const At: byte := 0x40

  /** Go's `uint64(i)` conversion of a signed 64-bit value: two's-complement
      reinterpretation, so negative values wrap around. */
  function ToU64(i: i64): (r: u64)
    ensures 0 <= i ==> r == i
    ensures i < 0 ==> r == i + TwoTo64
  {
    i % TwoTo64
  }

  predicate IsAscii(s: string) {
    forall i :: 0 <= i < |s| ==> s[i] as int < 128
  }

  /** The bytes of an ASCII string, as Go's `[]byte("...")` conversion gives them. */
  function Ascii(s: string): (b: seq<byte>)
    requires IsAscii(s)
    ensures |b| == |s|
    ensures forall i :: 0 <= i < |s| ==> b[i] as int == s[i] as int
  {
    if s == [] then [] else [s[0] as int as byte] + Ascii(s[1..])
  }

  predicate IsDigit(b: byte) {
    '0' as int <= b as int <= '9' as int
  }

  predicate AllDigits(s: seq<byte>) {
    forall i :: 0 <= i < |s| ==> IsDigit(s[i])
  }

  function DigitByte(d: nat): (b: byte)
    requires d < 10
    ensures IsDigit(b)
  {
    ('0' as int + d) as byte
  }

  /** The canonical decimal spelling: at least one digit and no leading zero
      unless the number itself is zero. */
  predicate IsCanonicalDecimal(s: seq<byte>) {
    && 1 <= |s|
    && AllDigits(s)
    && (s[0] as int == '0' as int ==> |s| == 1)
  }

  /** Go's `%d` rendering of a non-negative integer. */
  function Decimal(n: nat): (s: seq<byte>)
    ensures IsCanonicalDecimal(s)
    ensures At !in s
    decreases n
  {
    if n < 10 then [DigitByte(n)] else Decimal(n / 10) + [DigitByte(n % 10)]
  }

  /** The value of a digit string, most significant digit first. */
  function DigitsValue(s: seq<byte>): nat
    requires AllDigits(s)
  {
    if |s| == 0 then 0
    else DigitsValue(s[..|s| - 1]) * 10 + (s[|s| - 1] as int - '0' as int)
  }

  /** Reads back a canonical decimal; rejects anything `Decimal` cannot produce. */
  function ParseDecimal(s: seq<byte>): Option<nat> {
    if IsCanonicalDecimal(s) then Some(DigitsValue(s)) else None
  }

  lemma {:induction false} DigitsValueOfDecimal(n: nat)
    ensures DigitsValue(Decimal(n)) == n
    decreases n
  {
    if n >= 10 {
      var p := Decimal(n / 10);
      var s := Decimal(n);
      assert s == p + [DigitByte(n % 10)];
      assert s[..|s| - 1] == p;
      DigitsValueOfDecimal(n / 10);
    }
  }

  /** `ParseDecimal` undoes `Decimal`. */
  lemma DecimalRoundTrip(n: nat)
    ensures ParseDecimal(Decimal(n)) == Some(n)
  {
    DigitsValueOfDecimal(n);
  }

  lemma {:induction false} LeadingNonZeroIsPositive(s: seq<byte>)
    requires 1 <= |s| && AllDigits(s) && s[0] as int != '0' as int
    ensures DigitsValue(s) >= 1
    decreases |s|
  {
    if |s| > 1 {
      LeadingNonZeroIsPositive(s[..|s| - 1]);
    }
  }

  /** Every string `ParseDecimal` accepts is exactly the rendering of its value,
      so the decimal form of a number is unique. */
  lemma {:induction false} ParseDecimalIsCanonical(s: seq<byte>, n: nat)
    requires ParseDecimal(s) == Some(n)
    ensures Decimal(n) == s
    decreases |s|
  {
    if |s| > 1 {
      var p := s[..|s| - 1];
      var d := s[|s| - 1] as int - '0' as int;
      assert p[0] == s[0];
      LeadingNonZeroIsPositive(p);
      assert IsCanonicalDecimal(p);
      ParseDecimalIsCanonical(p, DigitsValue(p));
      assert n == DigitsValue(p) * 10 + d;
      assert n / 10 == DigitsValue(p) && n % 10 == d;
      assert s == p + [s[|s| - 1]];
    }
  }
}
