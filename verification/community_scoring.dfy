/**
 * Scoring on the community data page: the bodyweight coefficient, the
 * three-model 1RM estimate, the bodyweight-normalised score, and the penalty
 * rules of the submission form.
 */
module CommunityScoring {
  import opened Wrappers
  import opened Formulas
  import opened Text

  datatype Exercise = WeightedPullup | WeightedDips
  datatype Grip = Overhand | Underhand
  datatype Quality = Competition | Good | MinorCheat | MajorCheat | ExtremeCheat

  /**
   * A stored submission. `createdAt` stands for the `created_at` timestamp as the
   * number of milliseconds `new Date(...).getTime()` yields.
   */
  datatype Submission = Submission(
    createdAt: int,
    gender: Gender,
    bodyweight: real,
    addedWeight: real,
    reps: int,
    quality: Quality,
    penaltyWeight: real,
    userName: Option<string>,
    videoUrl: Option<string>,
    grip: Option<Grip>,
    exercise: Exercise)

  /** The identifier a quality is stored under in the `form_quality` column. */
  function QualityName(q: Quality): string {
    match q
    case Competition => "Competition"
    case Good => "Good"
    case MinorCheat => "Minor_Cheat"
    case MajorCheat => "Major_Cheat"
    case ExtremeCheat => "Extreme_Cheat"
  }

  /** Score divisor for weighted dips. */
  const DipsDivisor: real := 1.3

  // ---------------------------------------------------------------- coefficient

  /** `computeCoefficient`: the quartic in bodyweight; `coeff_a` is not used. */
  function ComputeCoefficient(w: real, formula: Coeffs): real
  {
    formula.b * Pow(w, 4) + formula.c * Pow(w, 3) + formula.d * Pow(w, 2) + formula.e * w + formula.f
  }

  /** The coefficient does not depend on `coeff_a`. */
  lemma CoefficientIgnoresA(w: real, formula: Coeffs, a: real)
    ensures ComputeCoefficient(w, formula.(a := a)) == ComputeCoefficient(w, formula)
  {
  }

  // ---------------------------------------------------------------- 1RM models

  /** Epley's estimate with the factor 0.0333 per rep. */
  function Epley(total: real, reps: int): real {
    total * (1.0 + 0.0333 * reps as real)
  }

  /** Brzycki's estimate; its denominator `37 - reps` is positive below 37 reps. */
  function Brzycki(total: real, reps: int): real
    requires reps < 37
  {
    total * (36.0 / (37 - reps) as real)
  }

  /** Lombardi's estimate `total * reps^0.1`. */
  function Lombardi(total: real, reps: int, pow01: int -> real): real {
    total * pow01(reps)
  }

  /** The unweighted mean of the three models. */
  function MeanEstimate(total: real, reps: int, pow01: int -> real): real
    requires reps < 37
  {
    (Epley(total, reps) + Brzycki(total, reps) + Lombardi(total, reps, pow01)) / 3.0
  }

  /**
   * `calculate1RM`: the estimated one-rep max expressed as added weight, i.e. the
   * total estimate minus bodyweight. One rep is the adjusted added weight itself;
   * 37 or more reps give 0.
   */
  function Calculate1RM(bodyweight: real, addedWeight: real, reps: int, penaltyWeight: real, pow01: int -> real): (r: real)
    ensures reps == 1 ==> r == addedWeight - penaltyWeight
    ensures reps >= 37 ==> r == 0.0
    ensures reps != 1 && reps < 37 ==>
      r == MeanEstimate(bodyweight + (addedWeight - penaltyWeight), reps, pow01) - bodyweight
  {
    var adjustedWeight := addedWeight - penaltyWeight;
    var totalWeight := bodyweight + adjustedWeight;
    if reps == 1 then adjustedWeight
    else if reps >= 37 then 0.0
    else MeanEstimate(totalWeight, reps, pow01) - bodyweight
  }

  /** With one rep the estimate does not depend on bodyweight. */
  lemma OneRepIgnoresBodyweight(bw1: real, bw2: real, addedWeight: real, penaltyWeight: real, pow01: int -> real)
    ensures Calculate1RM(bw1, addedWeight, 1, penaltyWeight, pow01) == Calculate1RM(bw2, addedWeight, 1, penaltyWeight, pow01)
  {
  }

  /** `t * x < t * y` for a positive `t`. */
  lemma MulStrict(t: real, x: real, y: real)
    requires t > 0.0 && x < y
    ensures t * x < t * y
  {
  }

  /** The Brzycki factor `36 / (37 - reps)` grows with reps. */
  lemma BrzyckiFactorIncreasing(r: int, s: int)
    requires r < s < 37
    ensures 36.0 / (37 - r) as real < 36.0 / (37 - s) as real
  {
    var x, y := (37 - r) as real, (37 - s) as real;
    assert 36.0 / x > 0.0 && 36.0 / x * x == 36.0 && 36.0 / y * y == 36.0;
    ReciprocalOrder(x, y, 36.0 / x, 36.0 / y);
  }

  /** Of two quotients of the same positive number, the one with the smaller divisor is larger. */
  lemma ReciprocalOrder(x: real, y: real, u: real, v: real)
    requires 0.0 < y < x && u > 0.0 && u * x == v * y
    ensures u < v
  {
    MulStrict(u, y, x);
    MulCancel(u, v, y);
  }

  /** A strict inequality between products with the same positive factor holds of the other factors. */
  lemma MulCancel(a: real, b: real, t: real)
    requires t > 0.0 && a * t < b * t
    ensures a < b
  {
    if b <= a {
      MulLe(b, a, t);
    }
  }

  lemma MulLe(u: real, v: real, t: real)
    requires u <= v && t > 0.0
    ensures u * t <= v * t
  {
  }

  /** For a positive total Epley's estimate strictly increases with reps. */
  lemma EpleyIncreasing(total: real, r: int, s: int)
    requires total > 0.0 && r < s
    ensures Epley(total, r) < Epley(total, s)
  {
    MulStrict(total, 1.0 + 0.0333 * r as real, 1.0 + 0.0333 * s as real);
  }

  /** For a positive total Brzycki's estimate strictly increases with reps below 37. */
  lemma BrzyckiIncreasing(total: real, r: int, s: int)
    requires total > 0.0 && r < s < 37
    ensures Brzycki(total, r) < Brzycki(total, s)
  {
    BrzyckiFactorIncreasing(r, s);
    MulStrict(total, 36.0 / (37 - r) as real, 36.0 / (37 - s) as real);
  }

  /** For a positive total Lombardi's estimate strictly increases with reps from one rep on. */
  lemma LombardiIncreasing(total: real, r: int, s: int, pow01: int -> real)
    requires Pow01Laws(pow01)
    requires total > 0.0 && 1 <= r < s
    ensures Lombardi(total, r, pow01) < Lombardi(total, s, pow01)
  {
    MulStrict(total, pow01(r), pow01(s));
  }

  /** For a positive total the three-model mean strictly increases with reps. */
  lemma MeanEstimateIncreasing(total: real, r: int, s: int, pow01: int -> real)
    requires Pow01Laws(pow01)
    requires total > 0.0 && 1 <= r < s <= 36
    ensures MeanEstimate(total, r, pow01) < MeanEstimate(total, s, pow01)
  {
    EpleyIncreasing(total, r, s);
    BrzyckiIncreasing(total, r, s);
    LombardiIncreasing(total, r, s, pow01);
  }

  /** At one rep Brzycki's and Lombardi's estimates are the lifted total itself. */
  lemma OneRepModels(total: real, pow01: int -> real)
    requires Pow01Laws(pow01)
    ensures Brzycki(total, 1) == total && Lombardi(total, 1, pow01) == total
  {
    assert 36.0 / (37 - 1) as real == 1.0;
  }

  /** Above one rep the three-model mean exceeds the lifted total. */
  lemma MeanEstimateAboveTotal(total: real, s: int, pow01: int -> real)
    requires Pow01Laws(pow01)
    requires total > 0.0 && 2 <= s <= 36
    ensures MeanEstimate(total, s, pow01) > total
  {
    MulStrict(total, 1.0, 1.0 + 0.0333 * s as real);
    BrzyckiIncreasing(total, 1, s);
    LombardiIncreasing(total, 1, s, pow01);
    OneRepModels(total, pow01);
  }

  /**
   * For a positive total weight, `calculate1RM` strictly increases with reps over
   * 1..36: each of the three models does, and at one rep the estimate is the
   * lifted weight itself, which every multi-rep estimate exceeds.
   */
  lemma Calculate1RMIncreasing(bodyweight: real, addedWeight: real, penaltyWeight: real, r: int, s: int, pow01: int -> real)
    requires Pow01Laws(pow01)
    requires bodyweight + (addedWeight - penaltyWeight) > 0.0
    requires 1 <= r < s <= 36
    ensures Calculate1RM(bodyweight, addedWeight, r, penaltyWeight, pow01) < Calculate1RM(bodyweight, addedWeight, s, penaltyWeight, pow01)
  {
    EstimatePlusBodyweightIsTotal(bodyweight, addedWeight, r, penaltyWeight, pow01);
    EstimatePlusBodyweightIsTotal(bodyweight, addedWeight, s, penaltyWeight, pow01);
    TotalEstimateIncreasing(bodyweight + (addedWeight - penaltyWeight), r, s, pow01);
  }

  /** The total estimate strictly increases with reps over 1..36 for a positive total weight. */
  lemma TotalEstimateIncreasing(total: real, r: int, s: int, pow01: int -> real)
    requires Pow01Laws(pow01)
    requires total > 0.0 && 1 <= r < s <= 36
    ensures TotalEstimated1RM(total, r, pow01) < TotalEstimated1RM(total, s, pow01)
  {
    if r == 1 {
      MeanEstimateAboveTotal(total, s, pow01);
    } else {
      MeanEstimateIncreasing(total, r, s, pow01);
    }
  }

  // ---------------------------------------------------------------- score

  /**
   * `calculateScore`: the total estimated 1RM (bodyweight included) times the
   * coefficient of the submitter's gender, divided by 1.3 for weighted dips.
   * Without a coefficient record for the gender, or at 37 reps or more, it is 0.
   */
  function CalculateScore(sub: Submission, formulas: map<Gender, Coeffs>, pow01: int -> real): (r: real)
    ensures sub.gender !in formulas ==> r == 0.0
    ensures sub.reps >= 37 ==> r == 0.0
  {
    if sub.gender !in formulas then 0.0
    else
      var adjustedWeight := sub.addedWeight - sub.penaltyWeight;
      var totalWeight := sub.bodyweight + adjustedWeight;
      if sub.reps >= 37 then 0.0
      else
        var totalEstimated1RM := TotalEstimated1RM(totalWeight, sub.reps, pow01);
        var coefficient := ComputeCoefficient(sub.bodyweight, formulas[sub.gender]);
        ApplyDivisor(totalEstimated1RM * coefficient, sub.exercise)
  }

  /** The total 1RM `calculateScore` multiplies: the total weight itself at one rep, else the three-model mean. */
  function TotalEstimated1RM(totalWeight: real, reps: int, pow01: int -> real): real
    requires reps < 37
  {
    if reps == 1 then totalWeight else MeanEstimate(totalWeight, reps, pow01)
  }

  /**
   * `calculate1RM` and `calculateScore` agree below 37 reps: the displayed 1RM
   * plus bodyweight is the total estimate the score is built on.
   */
  lemma EstimatePlusBodyweightIsTotal(bodyweight: real, addedWeight: real, reps: int, penaltyWeight: real, pow01: int -> real)
    requires reps < 37
    ensures Calculate1RM(bodyweight, addedWeight, reps, penaltyWeight, pow01) + bodyweight
         == TotalEstimated1RM(bodyweight + (addedWeight - penaltyWeight), reps, pow01)
  {
  }

  /** The final step of `calculateScore`: a weighted-dips score is divided by 1.3, any other is kept. */
  function ApplyDivisor(score: real, exercise: Exercise): (r: real)
    ensures exercise == WeightedDips ==> r * DipsDivisor == score
    ensures exercise == WeightedPullup ==> r == score
  {
    if exercise == WeightedDips then score / DipsDivisor else score
  }

  /**
   * Below 37 reps the score is the displayed 1RM plus bodyweight (the total
   * estimate; with one rep, the total weight itself) times the coefficient,
   * divided by the exercise's divisor.
   */
  lemma ScoreIsTotal1RMTimesCoefficient(sub: Submission, formulas: map<Gender, Coeffs>, pow01: int -> real)
    requires sub.gender in formulas && sub.reps < 37
    ensures CalculateScore(sub, formulas, pow01)
         == ApplyDivisor((Calculate1RM(sub.bodyweight, sub.addedWeight, sub.reps, sub.penaltyWeight, pow01) + sub.bodyweight)
                         * ComputeCoefficient(sub.bodyweight, formulas[sub.gender]), sub.exercise)
  {
    ScoreFromTotal(sub, formulas, pow01);
    EstimatePlusBodyweightIsTotal(sub.bodyweight, sub.addedWeight, sub.reps, sub.penaltyWeight, pow01);
  }

  /** A dips submission scores exactly its pull-up counterpart divided by 1.3. */
  lemma DipsScoreDividedBy13(sub: Submission, formulas: map<Gender, Coeffs>, pow01: int -> real)
    ensures CalculateScore(sub.(exercise := WeightedDips), formulas, pow01) * 1.3
         == CalculateScore(sub.(exercise := WeightedPullup), formulas, pow01)
  {
  }

  /** Below 37 reps and with a coefficient record, the score is the divided product of total estimate and coefficient. */
  lemma ScoreFromTotal(sub: Submission, formulas: map<Gender, Coeffs>, pow01: int -> real)
    requires sub.gender in formulas && sub.reps < 37
    ensures CalculateScore(sub, formulas, pow01)
         == ApplyDivisor(TotalEstimated1RM(sub.bodyweight + (sub.addedWeight - sub.penaltyWeight), sub.reps, pow01)
                         * ComputeCoefficient(sub.bodyweight, formulas[sub.gender]), sub.exercise)
  {
  }

  // ---------------------------------------------------------------- penalty

  /** The penalty slider is shown for the three cheat qualities. */
  predicate ShowsPenaltySlider(q: Quality): (shown: bool)
    ensures !shown <==> q == Competition || q == Good
  {
    q == MinorCheat || q == MajorCheat || q == ExtremeCheat
  }

  /** `penaltyRange`: the slider's bounds in kilograms. */
  function PenaltyRange(q: Quality): (range: (real, real))
    ensures range.0 < range.1
    ensures q == MinorCheat ==> range == (2.0, 5.0)
    ensures q == MajorCheat ==> range == (5.0, 20.0)
    ensures q != MinorCheat && q != MajorCheat ==> range == (20.0, 50.0)
  {
    if q == MinorCheat then (2.0, 5.0)
    else if q == MajorCheat then (5.0, 20.0)
    else (20.0, 50.0)
  }

  /** The `penalty_weight` written on insert: the slider value for Minor_Cheat and Major_Cheat, 0 otherwise. */
  function StoredPenalty(q: Quality, slider: real): (r: real)
    ensures r == slider <==> (q == MinorCheat || q == MajorCheat || slider == 0.0)
    ensures r != slider ==> r == 0.0
  {
    if q == MinorCheat || q == MajorCheat then slider else 0.0
  }

  /** For Minor_Cheat and Major_Cheat a slider value inside the shown range is stored inside that range. */
  lemma StoredPenaltyWithinShownRange(q: Quality, slider: real)
    requires q == MinorCheat || q == MajorCheat
    requires PenaltyRange(q).0 <= slider <= PenaltyRange(q).1
    ensures PenaltyRange(q).0 <= StoredPenalty(q, slider) <= PenaltyRange(q).1
  {
  }

  /**
   * Extreme_Cheat shows the slider with the range [20, 50], yet whatever value
   * is chosen, the stored penalty is 0, below the least Minor_Cheat penalty.
   */
  lemma ExtremeCheatPenaltyDiscarded(slider: real)
    requires PenaltyRange(ExtremeCheat).0 <= slider <= PenaltyRange(ExtremeCheat).1
    ensures ShowsPenaltySlider(ExtremeCheat) && PenaltyRange(ExtremeCheat) == (20.0, 50.0)
    ensures StoredPenalty(ExtremeCheat, slider) == 0.0 < slider
    ensures StoredPenalty(ExtremeCheat, slider) < PenaltyRange(MinorCheat).0
  {
  }

  /** The slider's value when the form opens and after each successful submit. */
  const InitialPenaltySlider: real := 3.0

  /**
   * The slider value is never clamped to the range shown: a Major_Cheat entry
   * whose slider was left untouched stores 3 kg, below that range's 5 kg minimum.
   */
  lemma UntouchedSliderBelowMajorRange()
    ensures ShowsPenaltySlider(MajorCheat)
    ensures StoredPenalty(MajorCheat, InitialPenaltySlider) == InitialPenaltySlider
    ensures StoredPenalty(MajorCheat, InitialPenaltySlider) < PenaltyRange(MajorCheat).0
  {
  }

  // ---------------------------------------------------------------- insert

  /**
   * The submission form's state. `grip` is None while no grip has been chosen
   * (the page's empty `pullupType`); the text fields are the raw input strings.
   */
  datatype SubmissionForm = SubmissionForm(
    gender: Gender,
    bodyweight: real,
    addedWeight: real,
    reps: int,
    quality: Quality,
    penaltySlider: real,
    userName: string,
    videoUrl: string,
    grip: Option<Grip>,
    exercise: Exercise)

  /**
   * The row `handleSubmit` inserts, given the timestamp the store assigns.
   * Only pull-ups keep a grip; empty name and video become null.
   */
  function NewSubmission(form: SubmissionForm, createdAt: int): (r: Submission)
    ensures r.exercise == form.exercise && r.gender == form.gender && r.quality == form.quality
    ensures r.bodyweight == form.bodyweight && r.addedWeight == form.addedWeight && r.reps == form.reps
    ensures r.createdAt == createdAt
    ensures r.penaltyWeight == StoredPenalty(form.quality, form.penaltySlider)
    ensures form.exercise == WeightedDips ==> r.grip.None?
    ensures form.exercise == WeightedPullup ==> r.grip == form.grip
    ensures r.userName.None? <==> form.userName == ""
    ensures form.userName != "" ==> r.userName == Some(form.userName)
    ensures r.videoUrl.None? <==> form.videoUrl == ""
    ensures form.videoUrl != "" ==> r.videoUrl == Some(form.videoUrl)
  {
    Submission(
      createdAt, form.gender, form.bodyweight, form.addedWeight, form.reps, form.quality,
      StoredPenalty(form.quality, form.penaltySlider),
      OrNull(form.userName), OrNull(form.videoUrl),
      if form.exercise == WeightedPullup then form.grip else None,
      form.exercise)
  }
}
