/**
 * The parts of JavaScript's `Math` object that the analyzer uses, over exact
 * numbers: `int` for counts and `real` (exact rationals) for the fractional
 * weights, in place of IEEE-754 doubles.
 */
module JsMath {

  function Min(a: int, b: int): (r: int)
    ensures r <= a && r <= b && (r == a || r == b)
  {
    if a <= b then a else b
  }

  function Max(a: int, b: int): (r: int)
    ensures r >= a && r >= b && (r == a || r == b)
  {
    if a >= b then a else b
  }

  function MinReal(a: real, b: real): (r: real)
    ensures r <= a && r <= b && (r == a || r == b)
  {
    if a <= b then a else b
  }

  function MaxReal(a: real, b: real): (r: real)
    ensures r >= a && r >= b && (r == a || r == b)
  {
    if a >= b then a else b
  }

  /** `Math.round`: the nearest integer, a tie going towards +infinity. */
  function Round(x: real): (r: int)
    ensures r as real - 0.5 <= x < r as real + 0.5
  {
    (x + 0.5).Floor
  }

  /** The rounding relation determines its integer: any k within half a unit below and strictly less than half above is Round(x). */
  lemma RoundIsUnique(x: real, k: int)
    requires k as real - 0.5 <= x < k as real + 0.5
    ensures Round(x) == k
  {
  }

  /** Rounding is monotone, so rounding a value already in [lo, hi] stays in [lo, hi]. */
  lemma RoundWithin(x: real, lo: int, hi: int)
    requires lo as real <= x <= hi as real
    ensures lo <= Round(x) <= hi
  {
  }

  // Facts of nonlinear arithmetic, stated once as lemmas so that callers can
  // invoke them where the solver would not instantiate them by itself.

  lemma MulMonotone(a: int, b: int, c: int)
    requires a >= 0 && b <= c
    ensures a * b <= a * c
  {
  }

  lemma DistributeLeft(a: int, b: int, c: int)
    ensures a * (b + c) == a * b + a * c
  {
  }

  lemma DivBelow(x: real, t: real, k: real)
    requires t > 0.0
    ensures x / t < k <==> x < k * t
  {
  }

  lemma DivNonNegative(x: real, t: real)
    requires x >= 0.0 && t > 0.0
    ensures x / t >= 0.0
  {
  }
}
