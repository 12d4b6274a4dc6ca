/**
 * The older scoring formula of the `calculateScore` library function: Epley's
 * estimate alone and a quintic coefficient that includes `coeff_a`.
 */
module LegacyScore {
  import opened Wrappers
  import opened Formulas
  import CommunityScoring

  /** The three values the older formula reports. */
  datatype ScoreResult = ScoreResult(estimated1RM: real, finalScore: real, coefficient: real)

  const FormulaNotFound := "Formula not found for specified gender"

  /** The reported triple: the final score is the estimate times the coefficient. */
  function Report(estimated1RM: real, coefficient: real): (r: ScoreResult)
    ensures r.estimated1RM == estimated1RM && r.coefficient == coefficient
    ensures r.finalScore == r.estimated1RM * r.coefficient
  {
    ScoreResult(estimated1RM, estimated1RM * coefficient, coefficient)
  }

  /** Epley's estimate with `1 + reps / 30`, on the whole lifted weight; no penalty and no one-rep case. */
  function EpleyEstimate(totalWeight: real, reps: real): (r: real)
    ensures reps == 0.0 ==> r == totalWeight
  {
    totalWeight * (1.0 + reps / 30.0)
  }

  /** The quintic coefficient `a·W⁵ + b·W⁴ + c·W³ + d·W² + e·W + f`. */
  function QuinticCoefficient(w: real, formula: Coeffs): real {
    formula.a * Pow(w, 5) + formula.b * Pow(w, 4) + formula.c * Pow(w, 3)
    + formula.d * Pow(w, 2) + formula.e * w + formula.f
  }

  /**
   * `calculateScore(gender, bodyweight, addedWeight, reps)`, given the coefficient
   * record looked up for the gender. Without a record it fails with the
   * "Formula not found" error; otherwise the final score is the estimate times the
   * coefficient.
   */
  function CalculateScore(bodyweight: real, addedWeight: real, reps: real, formula: Option<Coeffs>): (r: Result<ScoreResult, string>)
    ensures r.Failure? <==> formula.None?
    ensures r.Failure? ==> r.error == FormulaNotFound
  {
    match formula
    case None => Failure(FormulaNotFound)
    case Some(f) =>
      var totalWeight := bodyweight + addedWeight;
      var estimated1RM := EpleyEstimate(totalWeight, reps);
      var coefficient := QuinticCoefficient(bodyweight, f);
      Success(Report(estimated1RM, coefficient))
  }

  /** A successful result carries Epley's estimate of the total and the quintic coefficient of the bodyweight (a helper). */
  lemma ResultComponents(bodyweight: real, addedWeight: real, reps: real, formula: Coeffs)
    ensures CalculateScore(bodyweight, addedWeight, reps, Some(formula))
         == Success(Report(EpleyEstimate(bodyweight + addedWeight, reps), QuinticCoefficient(bodyweight, formula)))
  {
  }

  /**
   * For a positive total and a positive coefficient the final score strictly
   * increases with reps.
   */
  lemma FinalScoreIncreasesWithReps(bodyweight: real, addedWeight: real, r: real, s: real, formula: Coeffs)
    requires bodyweight + addedWeight > 0.0 && r < s
    requires QuinticCoefficient(bodyweight, formula) > 0.0
    ensures CalculateScore(bodyweight, addedWeight, r, Some(formula)).Success?
    ensures CalculateScore(bodyweight, addedWeight, s, Some(formula)).Success?
    ensures CalculateScore(bodyweight, addedWeight, r, Some(formula)).value.finalScore
          < CalculateScore(bodyweight, addedWeight, s, Some(formula)).value.finalScore
  {
    var total, c := bodyweight + addedWeight, QuinticCoefficient(bodyweight, formula);
    ResultComponents(bodyweight, addedWeight, r, formula);
    ResultComponents(bodyweight, addedWeight, s, formula);
    EpleyIncreasing(total, r, s);
    ReportIncreasing(EpleyEstimate(total, r), EpleyEstimate(total, s), c);
  }

  /** With a positive coefficient a larger estimate reports a larger final score. */
  lemma ReportIncreasing(e1: real, e2: real, c: real)
    requires e1 < e2 && c > 0.0
    ensures Report(e1, c).finalScore < Report(e2, c).finalScore
  {
    CommunityScoring.MulStrict(c, e1, e2);
  }

  /** The older coefficient is the current quartic plus the `a·W⁵` term. */
  lemma QuinticExtendsQuartic(w: real, formula: Coeffs)
    ensures QuinticCoefficient(w, formula) == CommunityScoring.ComputeCoefficient(w, formula) + formula.a * Pow(w, 5)
  {
  }

  /** For a non-zero bodyweight the two formula versions agree exactly when `coeff_a` is 0. */
  lemma VersionsAgreeIffNoFifthPower(w: real, formula: Coeffs)
    requires w != 0.0
    ensures QuinticCoefficient(w, formula) == CommunityScoring.ComputeCoefficient(w, formula) <==> formula.a == 0.0
  {
    QuinticExtendsQuartic(w, formula);
    PowNonZero(w, 5);
    if formula.a != 0.0 {
      assert formula.a * Pow(w, 5) != 0.0;
    }
  }

  /** One rep already counts as 31/30 of the lifted weight. */
  lemma OneRepEstimate(totalWeight: real)
    ensures EpleyEstimate(totalWeight, 1.0) == totalWeight * 31.0 / 30.0
  {
  }

  /** For a positive total weight the estimate strictly increases with reps. */
  lemma EpleyIncreasing(totalWeight: real, r: real, s: real)
    requires totalWeight > 0.0 && r < s
    ensures EpleyEstimate(totalWeight, r) < EpleyEstimate(totalWeight, s)
  {
    var x, y := 1.0 + r / 30.0, 1.0 + s / 30.0;
    assert x < y;
    CommunityScoring.MulStrict(totalWeight, x, y);
    assert EpleyEstimate(totalWeight, r) == totalWeight * x;
    assert EpleyEstimate(totalWeight, s) == totalWeight * y;
  }
}
