/** Java's 32-bit `int` and the library arithmetic that `moveWheels` applies to it. */
module JavaNumbers {

  const MinInt: int := -0x8000_0000

  /** Java's `int`. */
  newtype int32 = x: int | -0x8000_0000 <= x <= 0x7fff_ffff

  /** The exact magnitude of an unbounded integer. */
  function Abs(x: int): nat
  {
    if x < 0 then -x else x
  }

  function Max(a: int, b: int): int
  {
    if a >= b then a else b
  }

  /** `Math.abs(int)`: two's-complement negation, so -2^31 has no positive
      counterpart and comes back unchanged. */
  function JavaAbs(x: int32): (r: int32)
    ensures x as int != MinInt ==> r as int == Abs(x as int)
    ensures x as int == MinInt ==> r as int == MinInt
  {
    if x >= 0 then x else if x as int == MinInt then x else -x
  }

  /** The `(long)` cast of a `double`: rounds toward zero (the values used here
      are far inside the range of `long`, so saturation never applies). */
  function TruncToLong(x: real): (r: int)
    ensures 0.0 <= x ==> r as real <= x < r as real + 1.0
    ensures x < 0.0 ==> r as real - 1.0 < x <= r as real
  {
    if x >= 0.0 then x.Floor else -((-x).Floor)
  }
}
