/** Java's 32-bit signed `int`, as far as the prompt uses it. */
module JavaInt {

  const MIN: int := -0x8000_0000
  const MAX: int := 0x7FFF_FFFF

  /** The values a Java `int` can hold. */
  type Int32 = x: int | MIN <= x <= MAX

  /** Java's `x++` on an `int`: two's-complement addition, i.e. addition
      modulo 2^32 read back as a signed value. */
  function Inc(x: Int32): (r: Int32)
    ensures x < MAX ==> r == x + 1
    ensures x == MAX ==> r == MIN
  {
    (x - MIN + 1) % 0x1_0000_0000 + MIN
  }
}
