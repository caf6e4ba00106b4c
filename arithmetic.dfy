/** Facts about multiplication by a positive factor that the rounding and
    flooring proofs share. */
module Arithmetic {

  /** A positive factor can be cancelled from a strict inequality. */
  lemma MulCancel(x: int, y: int, k: int)
    requires k > 0 && x * k < y * k
    ensures x < y
  {
  }

  /** Multiplying by a positive factor keeps the order. */
  lemma MulMonotone(x: int, y: int, k: int)
    requires x <= y && k > 0
    ensures x * k <= y * k
  {
  }
}
