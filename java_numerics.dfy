/**
 * The two pieces of Java integer semantics the slider's arithmetic depends on:
 * `int / 2`, which truncates toward zero (Dafny's `/` is Euclidean), and the
 * `(int)` cast of a `double`, which also truncates toward zero. Java's 32-bit
 * wrap-around and the cast's saturation at Integer.MIN_VALUE/MAX_VALUE are not
 * modelled: integers here are unbounded.
 */
module JavaNumerics {

  /** Java's `n / 2` on an `int`: the quotient rounded toward zero. */
  function HalfTowardZero(n: int): (h: int)
    ensures 0 <= n ==> 0 <= n - 2 * h <= 1
    ensures n < 0 ==> -1 <= n - 2 * h <= 0
  {
    if 0 <= n then n / 2 else -((-n) / 2)
  }

  /** Java's `(int) x` for a `double` x within int range: drop the fraction, toward zero. */
  function TruncToInt(x: real): (n: int)
    ensures 0.0 <= x ==> n as real <= x < n as real + 1.0
    ensures x < 0.0 ==> n as real - 1.0 < x <= n as real
  {
    if 0.0 <= x then x.Floor else -((-x).Floor)
  }

  /** Truncation never reverses the order of two reals. */
  lemma TruncMonotone(a: real, b: real)
    requires a <= b
    ensures TruncToInt(a) <= TruncToInt(b)
  {
  }

  /** A real between two integers truncates to an integer between them. */
  lemma TruncBetween(x: real, lo: int, hi: int)
    requires lo as real <= x <= hi as real
    ensures lo <= TruncToInt(x) <= hi
  {
    TruncMonotone(lo as real, x);
    TruncMonotone(x, hi as real);
  }
}
