/**
 * Facts about natural-number multiplication and division that the block
 * bookkeeping of the capture scheduler and of the deconvolution loop share.
 */
module Arithmetic {

  /** The quotient brackets the dividend: `(t / n) * n <= t < (t / n) * n + n`. */
  lemma DivBounds(t: nat, n: nat)
    requires n > 0
    ensures (t / n) * n <= t < (t / n) * n + n
  {
  }

  /** Multiplying by the same factor keeps the order. */
  lemma MulMonotone(a: nat, b: nat, n: nat)
    requires a <= b
    ensures a * n <= b * n
  {
  }

  /** One more block of `n` samples: `(k + 1) * n == k * n + n`. */
  lemma MulSucc(k: nat, n: nat)
    ensures (k + 1) * n == k * n + n
  {
  }
}
