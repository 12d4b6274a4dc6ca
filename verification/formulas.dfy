/**
 * The entities shared by every scoring routine: the lifter's gender, the
 * coefficient record stored per gender, integer powers, and the laws the
 * Lombardi factor `Math.pow(reps, 0.1)` obeys.
 */
module Formulas {

  datatype Gender = Male | Female

  /** One row of the `formulas` table: the polynomial coefficients `coeff_a` .. `coeff_f`. */
  datatype Coeffs = Coeffs(a: real, b: real, c: real, d: real, e: real, f: real)

  /** `Math.pow(x, n)` for a natural exponent. */
  function Pow(x: real, n: nat): (r: real)
    ensures n == 0 ==> r == 1.0
    ensures n == 1 ==> r == x
  {
    if n == 0 then 1.0 else x * Pow(x, n - 1)
  }

  /** A non-zero base has a non-zero power. */
  lemma {:induction false} PowNonZero(x: real, n: nat)
    requires x != 0.0
    ensures Pow(x, n) != 0.0
  {
    if n > 0 {
      PowNonZero(x, n - 1);
    }
  }

  /**
   * What is known of `Math.pow(r, 0.1)` on rep counts: it is 1 at one rep,
   * positive and strictly increasing from there on. Every estimator takes the
   * factor as a parameter `pow01`; the lemmas that need its behaviour require
   * these laws.
   */
  ghost predicate Pow01Laws(pow01: int -> real) {
    && pow01(1) == 1.0
    && (forall r :: r >= 1 ==> pow01(r) > 0.0)
    && (forall r, s :: 1 <= r < s ==> pow01(r) < pow01(s))
  }
}
