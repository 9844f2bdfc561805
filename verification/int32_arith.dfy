/**
 * C# `int` arithmetic. Priorities are 32-bit signed integers and C# adds
 * them unchecked, so a sum outside the range wraps around.
 */
module Int32Arith {
  const MIN: int := -0x8000_0000
  const MAX: int := 0x7FFF_FFFF
  const MODULUS: int := 0x1_0000_0000

  type int32 = x: int | MIN <= x <= MAX

  /** Two's-complement truncation of a mathematical integer to 32 bits. */
  function Wrap(x: int): (r: int32)
    ensures MIN <= x <= MAX ==> r == x
    ensures x > MAX && x - MODULUS <= MAX ==> r == x - MODULUS
    ensures x < MIN && x + MODULUS >= MIN ==> r == x + MODULUS
  {
    (x - MIN) % MODULUS + MIN
  }

  /** Unchecked `a + b` on C# `int`. */
  function Add(a: int32, b: int32): (r: int32)
    ensures MIN <= a + b <= MAX ==> r == a + b
    ensures a + b > MAX ==> r == a + b - MODULUS
    ensures a + b < MIN ==> r == a + b + MODULUS
  {
    Wrap(a + b)
  }
}
