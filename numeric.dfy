/** Machine integers and float-to-integer conversions as FlashCamPLL.cpp uses them.
    Floating-point values are modelled as reals; every place where the C code
    converts a float to an integer type is written with Trunc, and every
    unsigned 64-bit sum or difference with Wrap64. */
module Numeric {

  const TWO_TO_63: int := 0x8000_0000_0000_0000
  const TWO_TO_64: int := 0x1_0000_0000_0000_0000

  /** uint64_t */
  type u64 = x: int | 0 <= x < TWO_TO_64
  /** int64_t */
  type i64 = x: int | -TWO_TO_63 <= x < TWO_TO_63
  /** int (32-bit) */
  type i32 = x: int | -0x8000_0000 <= x < 0x8000_0000

  /** The uint64_t result of an integer expression: reduction modulo 2^64. */
  function Wrap64(x: int): (r: u64)
    ensures 0 <= x < TWO_TO_64 ==> r == x
    ensures (x - r) % TWO_TO_64 == 0
  {
    x % TWO_TO_64
  }

  /** Reducing an operand first does not change a wrapped sum. */
  lemma WrapLeft(x: int, y: int)
    ensures Wrap64(Wrap64(x) + y) == Wrap64(x + y)
  {
  }

  /** A uint64_t value stored in an int64_t: the two's-complement reading. */
  function ToInt64(x: u64): (r: i64)
    ensures x < TWO_TO_63 ==> r == x
    ensures TWO_TO_63 <= x ==> r == x - TWO_TO_64
    ensures Wrap64(r) == x
  {
    if x < TWO_TO_63 then x else x - TWO_TO_64
  }

  /** A signed difference computed in uint64_t and stored in an int64_t is the
      true difference whenever that fits in an int64_t. */
  lemma SignedDifference(v: int)
    requires -TWO_TO_63 <= v < TWO_TO_63
    ensures ToInt64(Wrap64(v)) == v
  {
  }

  /** A float converted to an integer type: truncation toward zero. */
  function Trunc(x: real): (r: int)
    ensures 0.0 <= x ==> 0 <= r && r as real <= x < r as real + 1.0
    ensures x < 0.0 ==> r <= 0 && x <= r as real && r as real < x + 1.0
  {
    if x >= 0.0 then x.Floor else -((-x).Floor)
  }

  /** Truncation never leaves an interval whose ends are integers. */
  lemma TruncBetween(x: real, lo: int, hi: int)
    requires lo as real <= x <= hi as real
    ensures lo <= Trunc(x) <= hi
  {
  }
}
