/**
 * Facts about real arithmetic, each stated on plain numbers so that the
 * products they mention stay small in the callers' proofs.
 */
module RealArith {

  /** Two values of an affine map a + x * k differ by (x - q) * k. */
  lemma AffineDifference(fx: real, fq: real, a: real, x: real, q: real, k: real)
    requires fx == a + x * k && fq == a + q * k
    ensures fx - fq == (x - q) * k
  {
  }

  /** A proper fraction of a positive k lies in [0, k). */
  lemma FractionOf(f: real, k: real)
    requires 0.0 <= f < 1.0 && k > 0.0
    ensures 0.0 <= f * k < k
  {
  }

  lemma MulPositive(a: real, b: real)
    requires a > 0.0 && b > 0.0
    ensures a * b > 0.0
  {
  }

  /** hi - lo is a proper fraction of k, so lo lies in (hi - k, hi]. */
  lemma WithinOneUnit(hi: real, lo: real, f: real, k: real)
    requires hi - lo == f * k && 0.0 <= f * k < k
    ensures hi - k < lo <= hi
  {
  }
}
