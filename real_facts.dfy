/**
 * Products and quotients of reals as the slider and the zoom mapping use
 * them. The product of an integer length and a real fraction is spelled out
 * as repeated addition (Scale, proved equal to the product), so that the
 * proofs about it are inductions over linear facts rather than questions of
 * nonlinear arithmetic.
 */
module RealFacts {

  /** `length * fraction`, by repeated addition or subtraction of `fraction`. */
  function Scale(length: int, fraction: real): real
    decreases if length < 0 then -length else length
  {
    if length == 0 then 0.0
    else if 0 < length then Scale(length - 1, fraction) + fraction
    else Scale(length + 1, fraction) - fraction
  }

  /** Scale is the product. */
  lemma {:induction false} ScaleIsProduct(length: int, fraction: real)
    ensures Scale(length, fraction) == length as real * fraction
    decreases if length < 0 then -length else length
  {
    if 0 < length {
      ScaleIsProduct(length - 1, fraction);
    } else if length < 0 {
      ScaleIsProduct(length + 1, fraction);
    }
  }

  /** Scaling by 0 gives 0 and scaling by 1 gives the length. */
  lemma {:induction false} ScaleEnds(length: int)
    ensures Scale(length, 0.0) == 0.0
    ensures Scale(length, 1.0) == length as real
    decreases if length < 0 then -length else length
  {
    if 0 < length {
      ScaleEnds(length - 1);
    } else if length < 0 {
      ScaleEnds(length + 1);
    }
  }

  /** Scaling by a non-negative length keeps the order of two fractions. */
  lemma {:induction false} ScaleMonotone(length: int, p: real, q: real)
    requires 0 <= length && p <= q
    ensures Scale(length, p) <= Scale(length, q)
    decreases length
  {
    if 0 < length {
      ScaleMonotone(length - 1, p, q);
    }
  }

  /** A fraction in [0, 1] of a non-negative length lies between 0 and that length. */
  lemma ScaledWithin(length: int, fraction: real)
    requires 0 <= length && 0.0 <= fraction <= 1.0
    ensures 0.0 <= Scale(length, fraction) <= length as real
  {
    ScaleEnds(length);
    ScaleMonotone(length, 0.0, fraction);
    ScaleMonotone(length, fraction, 1.0);
  }

  /**
   * Dividing by a positive extent: a numerator at most 0 gives at most 0, one
   * at least the extent gives at least 1, and one in between gives a
   * quotient in [0, 1].
   */
  lemma Fraction(n: real, extent: int)
    requires 0 < extent
    ensures n <= 0.0 ==> n / extent as real <= 0.0
    ensures extent as real <= n ==> 1.0 <= n / extent as real
    ensures 0.0 <= n <= extent as real ==> 0.0 <= n / extent as real <= 1.0
  {
  }
}
