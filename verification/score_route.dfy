/**
 * The `POST /api/calculate-score` handler: validation of the JSON body, the
 * coefficient lookup's outcome, and the response it builds.
 */
module ScoreRoute {
  import opened Wrappers
  import opened Formulas
  import LegacyScore

  /** A field of the parsed JSON body: absent, `null`, or a value. */
  datatype Field<T> = Undefined | Null | Present(value: T)

  /** The body `{ gender, bodyweight, added_weight, reps }`. */
  datatype Request = Request(gender: Field<string>, bodyweight: Field<real>, addedWeight: Field<real>, reps: Field<real>)

  /** The handler's answer: an error with its HTTP status, or the three computed values. */
  datatype Response = Error(status: int, message: string) | Scored(result: LegacyScore.ScoreResult)

  const MissingParameters := "Missing required parameters"
  const FormulaNotFound := "Formula not found for specified gender"

  /** JavaScript truthiness of a string field: present and non-empty. */
  predicate TruthyString(f: Field<string>) {
    f.Present? && f.value != ""
  }

  /** JavaScript truthiness of a number field: present and non-zero. */
  predicate TruthyNumber(f: Field<real>) {
    f.Present? && f.value != 0.0
  }

  /** The guard `!gender || !bodyweight || added_weight === undefined || !reps` does not fire. */
  predicate AcceptsRequest(req: Request) {
    TruthyString(req.gender) && TruthyNumber(req.bodyweight) && !req.addedWeight.Undefined? && TruthyNumber(req.reps)
  }

  /** The added weight as `bodyweight + added_weight` uses it: `null` counts as 0. */
  function AddedWeight(f: Field<real>): (w: real)
    ensures f.Present? ==> w == f.value
    ensures !f.Present? ==> w == 0.0
  {
    if f.Present? then f.value else 0.0
  }

  /** The route's own Epley estimate, `totalWeight * (1 + reps / 30)`. */
  function RouteEstimate(totalWeight: real, reps: real): real {
    totalWeight * (1.0 + reps / 30.0)
  }

  /** The route's own quintic coefficient in the bodyweight `W`. */
  function RouteCoefficient(w: real, f: Coeffs): real {
    f.a * Pow(w, 5) + f.b * Pow(w, 4) + f.c * Pow(w, 3) + f.d * Pow(w, 2) + f.e * w + f.f
  }

  /** The route's response triple, with `finalScore = estimated1RM * coefficient`. */
  function RouteResult(estimated1RM: real, coefficient: real): LegacyScore.ScoreResult {
    LegacyScore.ScoreResult(estimated1RM, estimated1RM * coefficient, coefficient)
  }

  /** Equal estimates and coefficients give the route and the library the same triple. */
  lemma ResultCopiesAgree(e: real, c: real, e2: real, c2: real)
    requires e == e2 && c == c2
    ensures RouteResult(e, c) == LegacyScore.Report(e2, c2)
  {
  }

  /** The route's estimate and the library's are the same function of total weight and reps. */
  lemma EstimateCopiesAgree(totalWeight: real, reps: real)
    ensures RouteEstimate(totalWeight, reps) == LegacyScore.EpleyEstimate(totalWeight, reps)
  {
  }

  /** The route's coefficient and the library's are the same polynomial. */
  lemma CoefficientCopiesAgree(w: real, f: Coeffs)
    ensures RouteCoefficient(w, f) == LegacyScore.QuinticCoefficient(w, f)
  {
  }

  /**
   * `POST`, given the coefficient record the store returns for the request's
   * gender. An invalid body is answered 400 and a missing record 404; otherwise
   * the response carries the estimate, the final score and the coefficient,
   * computed by the route's own copy of the older formula.
   */
  function Post(req: Request, formula: Option<Coeffs>): (r: Response)
    ensures r == Error(400, MissingParameters) <==> !AcceptsRequest(req)
    ensures r == Error(404, FormulaNotFound) <==> AcceptsRequest(req) && formula.None?
    ensures r.Scored? <==> AcceptsRequest(req) && formula.Some?
  {
    if !AcceptsRequest(req) then Error(400, MissingParameters)
    else if formula.None? then Error(404, FormulaNotFound)
    else
      var w := req.bodyweight.value;
      var estimated1RM := RouteEstimate(w + AddedWeight(req.addedWeight), req.reps.value);
      var coefficient := RouteCoefficient(w, formula.value);
      Scored(RouteResult(estimated1RM, coefficient))
  }

  /**
   * On an accepted request the route returns exactly what the library's
   * `calculateScore` computes, and fails exactly when the library does.
   */
  lemma AgreesWithLibrary(req: Request, formula: Option<Coeffs>)
    requires AcceptsRequest(req)
    ensures Post(req, formula).Scored?
        <==> LegacyScore.CalculateScore(req.bodyweight.value, AddedWeight(req.addedWeight), req.reps.value, formula).Success?
    ensures Post(req, formula).Scored? ==>
      Post(req, formula).result
        == LegacyScore.CalculateScore(req.bodyweight.value, AddedWeight(req.addedWeight), req.reps.value, formula).value
  {
    if formula.Some? {
      var w := req.bodyweight.value;
      var total := w + AddedWeight(req.addedWeight);
      EstimateCopiesAgree(total, req.reps.value);
      CoefficientCopiesAgree(w, formula.value);
      ResultCopiesAgree(RouteEstimate(total, req.reps.value), RouteCoefficient(w, formula.value),
        LegacyScore.EpleyEstimate(total, req.reps.value), LegacyScore.QuinticCoefficient(w, formula.value));
      LegacyScore.ResultComponents(w, AddedWeight(req.addedWeight), req.reps.value, formula.value);
    }
  }

  /** An added weight of 0 is accepted, while a bodyweight or rep count of 0 is rejected. */
  lemma ZeroRules(gender: string, bodyweight: real, reps: real, formula: Option<Coeffs>)
    requires gender != "" && bodyweight != 0.0 && reps != 0.0
    ensures Post(Request(Present(gender), Present(bodyweight), Present(0.0), Present(reps)), formula) != Error(400, MissingParameters)
    ensures Post(Request(Present(gender), Present(0.0), Present(0.0), Present(reps)), formula) == Error(400, MissingParameters)
    ensures Post(Request(Present(gender), Present(bodyweight), Present(0.0), Present(0.0)), formula) == Error(400, MissingParameters)
    ensures Post(Request(Present(gender), Present(bodyweight), Undefined, Present(reps)), formula) == Error(400, MissingParameters)
  {
  }

  /** A `null` added weight passes validation and is counted as 0 kg. */
  lemma NullAddedWeightCountsAsZero(req: Request, formula: Coeffs)
    requires AcceptsRequest(req) && req.addedWeight.Null?
    ensures Post(req, Some(formula)) == Post(req.(addedWeight := Present(0.0)), Some(formula))
  {
  }
}
