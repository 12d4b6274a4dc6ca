/**
 * The "recent submissions" strip: its own copy of the 1RM estimator and the
 * labels and colours it gives each form quality.
 */
module RecentSubmissions {
  import opened Formulas
  import CommunityScoring

  /**
   * `calculate1RM` of the recent-submissions component, written out on its own:
   * the estimated 1RM as added weight.
   */
  function Calculate1RM(bodyweight: real, addedWeight: real, reps: int, penaltyWeight: real, pow01: int -> real): (r: real)
    ensures reps == 1 ==> r == addedWeight - penaltyWeight
    ensures reps >= 37 ==> r == 0.0
  {
    var adjustedWeight := addedWeight - penaltyWeight;
    var totalWeight := bodyweight + adjustedWeight;
    if reps == 1 then adjustedWeight
    else if reps >= 37 then 0.0
    else
      var epley1RM := totalWeight * (1.0 + 0.0333 * reps as real);
      var brzycki1RM := totalWeight * (36.0 / (37 - reps) as real);
      var lombardi1RM := totalWeight * pow01(reps);
      var totalEstimated1RM := (epley1RM + brzycki1RM + lombardi1RM) / 3.0;
      totalEstimated1RM - bodyweight
  }

  /** Between 2 and 36 reps the estimate is the three-model mean on the adjusted total, minus bodyweight. */
  lemma MultiRepIsThreeModelMean(bodyweight: real, addedWeight: real, reps: int, penaltyWeight: real, pow01: int -> real)
    requires 2 <= reps <= 36
    ensures Calculate1RM(bodyweight, addedWeight, reps, penaltyWeight, pow01)
         == CommunityScoring.MeanEstimate(bodyweight + (addedWeight - penaltyWeight), reps, pow01) - bodyweight
  {
  }

  /** This copy agrees with the community page's `calculate1RM` on every input. */
  lemma AgreesWithCommunityPage(bodyweight: real, addedWeight: real, reps: int, penaltyWeight: real, pow01: int -> real)
    ensures Calculate1RM(bodyweight, addedWeight, reps, penaltyWeight, pow01)
         == CommunityScoring.Calculate1RM(bodyweight, addedWeight, reps, penaltyWeight, pow01)
  {
  }

  /** For a positive total weight the estimate strictly increases with reps over 1..36. */
  lemma EstimateIncreasesWithReps(bodyweight: real, addedWeight: real, penaltyWeight: real, r: int, s: int, pow01: int -> real)
    requires Pow01Laws(pow01)
    requires bodyweight + (addedWeight - penaltyWeight) > 0.0
    requires 1 <= r < s <= 36
    ensures Calculate1RM(bodyweight, addedWeight, r, penaltyWeight, pow01) < Calculate1RM(bodyweight, addedWeight, s, penaltyWeight, pow01)
  {
    AgreesWithCommunityPage(bodyweight, addedWeight, r, penaltyWeight, pow01);
    AgreesWithCommunityPage(bodyweight, addedWeight, s, penaltyWeight, pow01);
    CommunityScoring.Calculate1RMIncreasing(bodyweight, addedWeight, penaltyWeight, r, s, pow01);
  }

  /** The three qualities with their own label and colour. */
  predicate IsLabelledQuality(quality: string) {
    quality == "Competition" || quality == "Minor_Cheat" || quality == "Major_Cheat"
  }

  const CompetitionColor := "bg-green-100 text-green-700"
  const MinorCheatColor := "bg-yellow-100 text-yellow-700"
  const MajorCheatColor := "bg-red-100 text-red-700"
  const DefaultColor := "bg-gray-100 text-gray-700"

  /** `getQualityColor`: green, yellow and red for the three labelled qualities, grey for anything else. */
  function QualityColor(quality: string): (color: string)
    ensures color == DefaultColor <==> !IsLabelledQuality(quality)
    ensures quality == "Competition" ==> color == CompetitionColor
    ensures quality == "Minor_Cheat" ==> color == MinorCheatColor
    ensures quality == "Major_Cheat" ==> color == MajorCheatColor
  {
    match quality
    case "Competition" => CompetitionColor
    case "Minor_Cheat" => MinorCheatColor
    case "Major_Cheat" => MajorCheatColor
    case _ => DefaultColor
  }

  /** `getQualityText`: a Chinese label for the three labelled qualities; any other value is shown as it is. */
  function QualityText(quality: string): (text: string)
    ensures text == quality <==> !IsLabelledQuality(quality)
    ensures quality == "Competition" ==> text == "比赛级"
    ensures quality == "Minor_Cheat" ==> text == "轻微借力"
    ensures quality == "Major_Cheat" ==> text == "严重借力"
  {
    match quality
    case "Competition" => "比赛级"
    case "Minor_Cheat" => "轻微借力"
    case "Major_Cheat" => "严重借力"
    case _ => quality
  }

  /** "Good" and "Extreme_Cheat" submissions are shown with their raw identifier on a grey badge. */
  lemma UnlabelledQualitiesShownRaw()
    ensures QualityText(CommunityScoring.QualityName(CommunityScoring.Good)) == "Good"
    ensures QualityText(CommunityScoring.QualityName(CommunityScoring.ExtremeCheat)) == "Extreme_Cheat"
    ensures QualityColor(CommunityScoring.QualityName(CommunityScoring.ExtremeCheat)) == DefaultColor
  {
  }
}
