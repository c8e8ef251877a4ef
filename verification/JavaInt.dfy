/** Java's 32-bit `int`: its range and the two's-complement wrap-around of `+`. */
module JavaInt {
  const MIN_INT: int := -0x8000_0000
  const MAX_INT: int := 0x7fff_ffff
  const MODULUS: int := 0x1_0000_0000

  /** A value a Java `int` variable can hold. */
  type i32 = x: int | -0x8000_0000 <= x <= 0x7fff_ffff

  /** A non-negative Java `int`, such as an item or essentia count. */
  type Count = x: int | 0 <= x <= 0x7fff_ffff

  /** The `int` that Java arithmetic yields for the mathematical value `x`. */
  function Wrap(x: int): (r: i32)
    ensures (r - x) % MODULUS == 0
    ensures MIN_INT <= x <= MAX_INT ==> r == x
  {
    (x - MIN_INT) % MODULUS + MIN_INT
  }

  /** A Java `a + n` that leaves the range wraps to a negative number: no positive overflow can land back in [0, max]. */
  lemma AddLandsInRange(a: i32, n: i32, max: i32)
    requires 0 <= a
    ensures (0 <= Wrap(a + n) <= max) <==> (0 <= a + n <= max)
  {
  }
}
