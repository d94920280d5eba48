/** Small facts about ordered real arithmetic that the solver does not
    find unaided; used by the Varshni and alloy-mixing proofs. */
module RealArith {

  /** Multiplying by a non-negative factor keeps an inequality. */
  lemma ScaleOrder(c: real, x: real, y: real)
    requires 0.0 <= c && x <= y
    ensures c * x <= c * y
  {
  }

  /** The product of two non-negative reals is non-negative. */
  lemma NonNegativeProduct(x: real, y: real)
    requires 0.0 <= x && 0.0 <= y
    ensures 0.0 <= x * y
  {
  }

  /** The product of two positive reals is positive. */
  lemma PositiveProduct(x: real, y: real)
    requires 0.0 < x && 0.0 < y
    ensures 0.0 < x * y
  {
  }

  /** Cancelling a positive factor from both sides of an inequality. */
  lemma QuotientOrder(x: real, y: real, k: real)
    requires 0.0 < k
    requires x * k <= y * k
    ensures x <= y
  {
  }
}
