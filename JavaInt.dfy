/**
 * Java's fixed-width integers. Dafny's `int` is unbounded, so every place where the
 * source computes in `int` (32 bits) or `long` (64 bits) narrows the exact result
 * with WrapInt or WrapLong, which is what two's-complement overflow does.
 */
module JavaInt {

  const TwoTo32: int := 0x1_0000_0000
  const TwoTo64: int := 0x1_0000_0000_0000_0000

  const MinInt: int := -0x8000_0000
  const MaxInt: int := 0x7fff_ffff
  const MinLong: int := -0x8000_0000_0000_0000
  const MaxLong: int := 0x7fff_ffff_ffff_ffff

  /** Values of Java's `int`. */
  type Int32 = x: int | MinInt <= x <= MaxInt

  /** Values of Java's `long`. */
  type Int64 = x: int | MinLong <= x <= MaxLong

  /** The `int` that Java produces for the exact result `x`: the one congruent to it modulo 2^32. */
  function WrapInt(x: int): (r: Int32)
    ensures (x - r) % TwoTo32 == 0
    ensures MinInt <= x <= MaxInt ==> r == x
  {
    (x - MinInt) % TwoTo32 + MinInt
  }

  /** The `long` that Java produces for the exact result `x`: the one congruent to it modulo 2^64. */
  function WrapLong(x: int): (r: Int64)
    ensures (x - r) % TwoTo64 == 0
    ensures MinLong <= x <= MaxLong ==> r == x
  {
    (x - MinLong) % TwoTo64 + MinLong
  }
}
