/**
 * Java's 32-bit `int` arithmetic, as far as the round-robin counters of the
 * configuration allocator use it: two's-complement wrap-around on `++` and on
 * negation, `Math.abs`, and the remainder operator `%`, which truncates toward
 * zero (the result takes the sign of the dividend).
 */
module JavaInt {

  const MinValue: int := -0x8000_0000
  const MaxValue: int := 0x7fff_ffff
  const Modulus: int := 0x1_0000_0000

  /** The values of a Java `int`. */
  type Int32 = x: int | MinValue <= x <= MaxValue

  /** Two's-complement truncation of a mathematical integer to 32 bits. */
  function Wrap(x: int): (r: Int32)
    ensures MinValue <= x <= MaxValue ==> r == x
    ensures MaxValue < x <= MaxValue + Modulus ==> r == x - Modulus
    ensures MinValue - Modulus <= x < MinValue ==> r == x + Modulus
  {
    (x - MinValue) % Modulus + MinValue
  }

  /** The value a Java `int` variable holds after `x++`. */
  function PostIncrement(x: Int32): (r: Int32)
    ensures r == x + 1 || (x == MaxValue && r == MinValue)
    ensures r < x <==> x == MaxValue
  {
    if x == MaxValue then MinValue else x + 1
  }

  /** Incrementing is adding one and truncating to 32 bits. */
  lemma PostIncrementWraps(x: Int32)
    ensures PostIncrement(x) == Wrap(x + 1)
  {
  }

  /** `Math.abs(int)`: the negation wraps, so the absolute value of the least
      `int` is that same negative value. */
  function Abs(x: Int32): (r: Int32)
    ensures r == x || r as int == -(x as int)
    ensures r < 0 <==> x == MinValue
  {
    if x == MinValue then MinValue else if x < 0 then -x else x
  }

  /** The absolute value is the negation truncated to 32 bits. */
  lemma AbsWraps(x: Int32)
    ensures Abs(x) == if x < 0 then Wrap(-(x as int)) else x
  {
  }

  /** Java's `a / b` for a positive divisor: rounds toward zero. */
  function Div(a: Int32, b: int): int
    requires 0 < b
  {
    if a >= 0 then a / b else -((-(a as int)) / b)
  }

  /** Java's `a % b` for a positive divisor: the remainder of truncated
      division, so it is never positive when the dividend is negative. */
  function Rem(a: Int32, b: int): (r: int)
    requires 0 < b
    ensures a >= 0 ==> 0 <= r < b
    ensures a < 0 ==> -b < r <= 0
    ensures Div(a, b) * b + r == a
  {
    if a >= 0 then a % b else -((-(a as int)) % b)
  }
}
