/**
 * The leaderboard of the community data page: the filter panel, the count of
 * active filters, and `applyFiltersAndSort`, which narrows the submissions
 * stage by stage and sorts the survivors in place.
 */
module Leaderboard {
  import opened Wrappers
  import opened Formulas
  import opened Text
  import opened Sequences
  import opened CommunityScoring

  /** A select filter: "all", or one value a submission must carry. */
  datatype Choice<T> = All | Only(value: T)

  /** The video filter: "all", "with_video" or "without_video". */
  datatype VideoFilter = AnyVideo | WithVideo | WithoutVideo

  /** The sort select: "date", "weight" or "score". */
  datatype SortBy = ByDate | ByWeight | ByScore

  /** The `filters` state of the page. `search` is the raw text of the name search box. */
  datatype Filters = Filters(
    gender: Choice<Gender>,
    grip: Choice<Grip>,
    quality: Choice<Quality>,
    video: VideoFilter,
    search: string,
    exercise: Choice<Exercise>)

  /** A submission has a video when its URL is neither null nor empty. */
  predicate HasVideo(sub: Submission) {
    sub.videoUrl.Some? && sub.videoUrl.value != ""
  }

  // Each stage's condition, true when the stage is switched off.

  predicate ExerciseOk(f: Filters, sub: Submission) {
    f.exercise.All? || sub.exercise == f.exercise.value
  }

  predicate GenderOk(f: Filters, sub: Submission) {
    f.gender.All? || sub.gender == f.gender.value
  }

  /** A null grip (every dips submission) never equals a selected grip. */
  predicate GripOk(f: Filters, sub: Submission) {
    f.grip.All? || sub.grip == Some(f.grip.value)
  }

  predicate QualityOk(f: Filters, sub: Submission) {
    f.quality.All? || sub.quality == f.quality.value
  }

  predicate VideoOk(f: Filters, sub: Submission) {
    match f.video
    case AnyVideo => true
    case WithVideo => HasVideo(sub)
    case WithoutVideo => !HasVideo(sub)
  }

  /** A non-empty search keeps the named submissions whose lower-cased name contains the lower-cased search text. */
  predicate SearchOk(f: Filters, sub: Submission) {
    f.search == "" || NameContains(sub, f.search)
  }

  /** `sub.user_name?.toLowerCase().includes(search.toLowerCase())`: a null name never matches. */
  predicate NameContains(sub: Submission, search: string) {
    sub.userName.Some? && Includes(Lower(sub.userName.value), Lower(search))
  }

  /** A submission the leaderboard shows under filters `f`. */
  predicate Matches(f: Filters, sub: Submission) {
    && ExerciseOk(f, sub) && GenderOk(f, sub) && GripOk(f, sub)
    && QualityOk(f, sub) && VideoOk(f, sub) && SearchOk(f, sub)
  }

  /** The first `k` stages of the filter, in the order the page applies them. */
  predicate PassesStages(f: Filters, k: nat, sub: Submission) {
    && (k >= 1 ==> ExerciseOk(f, sub))
    && (k >= 2 ==> GenderOk(f, sub))
    && (k >= 3 ==> GripOk(f, sub))
    && (k >= 4 ==> QualityOk(f, sub))
    && (k >= 5 ==> VideoOk(f, sub))
    && (k >= 6 ==> SearchOk(f, sub))
  }

  /** `activeFiltersCount`: the select filters not set to "all"; the search box is not counted. */
  function ActiveFiltersCount(f: Filters): (n: nat)
    ensures n <= 5
    ensures n == 0 <==> f.gender.All? && f.grip.All? && f.quality.All? && f.video.AnyVideo? && f.exercise.All?
  {
    (if f.gender.Only? then 1 else 0)
    + (if f.grip.Only? then 1 else 0)
    + (if f.quality.Only? then 1 else 0)
    + (if !f.video.AnyVideo? then 1 else 0)
    + (if f.exercise.Only? then 1 else 0)
  }

  /** Selecting a gender where "all" was selected adds one to the count. */
  lemma GenderCounts(f: Filters, g: Gender)
    requires f.gender.All?
    ensures ActiveFiltersCount(f.(gender := Only(g))) == ActiveFiltersCount(f) + 1
  {
  }

  /** Selecting a grip where "all" was selected adds one to the count. */
  lemma GripCounts(f: Filters, g: Grip)
    requires f.grip.All?
    ensures ActiveFiltersCount(f.(grip := Only(g))) == ActiveFiltersCount(f) + 1
  {
  }

  /** Selecting a form quality where "all" was selected adds one to the count. */
  lemma QualityCounts(f: Filters, q: Quality)
    requires f.quality.All?
    ensures ActiveFiltersCount(f.(quality := Only(q))) == ActiveFiltersCount(f) + 1
  {
  }

  /** Selecting "with video" or "without video" where "all" was selected adds one to the count. */
  lemma VideoCounts(f: Filters, v: VideoFilter)
    requires f.video.AnyVideo? && !v.AnyVideo?
    ensures ActiveFiltersCount(f.(video := v)) == ActiveFiltersCount(f) + 1
  {
  }

  /** Selecting an exercise where "all" was selected adds one to the count. */
  lemma ExerciseCounts(f: Filters, e: Exercise)
    requires f.exercise.All?
    ensures ActiveFiltersCount(f.(exercise := Only(e))) == ActiveFiltersCount(f) + 1
  {
  }

  /** The search text never changes the count. */
  lemma SearchNotCounted(f: Filters, search: string)
    ensures ActiveFiltersCount(f.(search := search)) == ActiveFiltersCount(f)
  {
  }

  /** With no active filter and an empty search every submission is shown. */
  lemma NoActiveFilterShowsAll(f: Filters, sub: Submission)
    requires ActiveFiltersCount(f) == 0 && f.search == ""
    ensures Matches(f, sub)
  {
  }

  /** A selected grip hides every submission without a grip, so it hides every dips submission the form creates. */
  lemma GripFilterHidesDips(f: Filters, form: SubmissionForm, createdAt: int)
    requires f.grip.Only? && form.exercise == WeightedDips
    ensures !Matches(f, NewSubmission(form, createdAt))
  {
  }

  /** A non-empty search hides every anonymous submission. */
  lemma SearchHidesAnonymous(f: Filters, sub: Submission)
    requires f.search != "" && sub.userName.None?
    ensures !Matches(f, sub)
  {
  }

  // ---------------------------------------------------------------- sorting

  /** The value the chosen sort compares, largest first: the 1RM, the score or the creation time. */
  function SortKey(sortBy: SortBy, formulas: map<Gender, Coeffs>, pow01: int -> real): Submission -> real {
    match sortBy
    case ByWeight => (sub: Submission) => Calculate1RM(sub.bodyweight, sub.addedWeight, sub.reps, sub.penaltyWeight, pow01)
    case ByScore => (sub: Submission) => CalculateScore(sub, formulas, pow01)
    case ByDate => (sub: Submission) => sub.createdAt as real
  }

  /** `s` is ordered by non-increasing `key`. */
  ghost predicate SortedDescending<T>(s: seq<T>, key: T -> real) {
    forall i, j :: 0 <= i < j < |s| ==> key(s[i]) >= key(s[j])
  }

  /**
   * `a.sort((x, y) => key(y) - key(x))`: rearranges `a` into non-increasing
   * order of `key`, by insertion.
   */
  method SortDescending<T>(a: array<T>, key: T -> real)
    modifies a
    ensures SortedDescending(a[..], key)
    ensures multiset(a[..]) == multiset(old(a[..]))
  {
    var i := 0;
    while i < a.Length
      invariant 0 <= i <= a.Length
      invariant forall k, l :: 0 <= k < l < i ==> key(a[k]) >= key(a[l])
      invariant multiset(a[..]) == multiset(old(a[..]))
    {
      var j := i;
      while j > 0 && key(a[j - 1]) < key(a[j])
        invariant 0 <= j <= i
        invariant forall k, l :: 0 <= k < l <= i && k != j && l != j ==> key(a[k]) >= key(a[l])
        invariant forall l :: j < l <= i ==> key(a[j]) > key(a[l])
        invariant multiset(a[..]) == multiset(old(a[..]))
      {
        Swap(a, j - 1, j);
        j := j - 1;
      }
      i := i + 1;
    }
  }

  /** Exchanges two neighbouring elements of `a`. */
  method Swap<T>(a: array<T>, i: int, j: int)
    requires 0 <= i < j < a.Length
    modifies a
    ensures a[i] == old(a[j]) && a[j] == old(a[i])
    ensures forall k :: 0 <= k < a.Length && k != i && k != j ==> a[k] == old(a[k])
    ensures multiset(a[..]) == multiset(old(a[..]))
  {
    a[i], a[j] := a[j], a[i];
  }

  // ---------------------------------------------------------------- pipeline

  /** The submissions that pass every filter, in their original order. */
  function Visible(submissions: seq<Submission>, filters: Filters): (r: seq<Submission>)
    ensures forall sub :: sub in r <==> sub in submissions && Matches(filters, sub)
    ensures forall sub :: multiset(r)[sub] == if Matches(filters, sub) then multiset(submissions)[sub] else 0
    ensures IsSubsequence(r, submissions)
  {
    FilterMultiplicity(submissions, (sub: Submission) => Matches(filters, sub));
    FilterMembers(submissions, (sub: Submission) => Matches(filters, sub));
    FilterIsSubsequence(submissions, (sub: Submission) => Matches(filters, sub));
    Filter(submissions, (sub: Submission) => Matches(filters, sub))
  }

  /**
   * `applyFiltersAndSort`: the submissions the leaderboard shows, in display
   * order. Exactly the matching submissions appear, as often as in the input,
   * ordered by the chosen key, largest first.
   */
  method ApplyFiltersAndSort(submissions: seq<Submission>, filters: Filters, sortBy: SortBy, formulas: map<Gender, Coeffs>, pow01: int -> real)
    returns (shown: seq<Submission>)
    ensures multiset(shown) == multiset(Visible(submissions, filters))
    ensures forall sub :: sub in shown <==> sub in submissions && Matches(filters, sub)
    ensures SortedDescending(shown, SortKey(sortBy, formulas, pow01))
  {
    var filtered := ApplyFilters(submissions, filters);
    var a := new Submission[|filtered|](i requires 0 <= i < |filtered| => filtered[i]);
    assert a[..] == filtered;
    SortDescending(a, SortKey(sortBy, formulas, pow01));
    shown := a[..];
    assert forall sub :: sub in shown <==> sub in multiset(shown);
    assert forall sub :: sub in filtered <==> sub in multiset(filtered);
  }

  /**
   * The filtering half of `applyFiltersAndSort`: each filter not set to "all"
   * narrows the list in turn, and together they keep exactly the visible
   * submissions.
   */
  method ApplyFilters(submissions: seq<Submission>, filters: Filters) returns (filtered: seq<Submission>)
    ensures filtered == Visible(submissions, filters)
  {
    filtered := submissions;
    FilterKeepsAll(submissions, sub => PassesStages(filters, 0, sub));

    if filters.exercise.Only? {
      filtered := Filter(filtered, (sub: Submission) => sub.exercise == filters.exercise.value);
      FilterStage(submissions, submissions, filtered, sub => PassesStages(filters, 0, sub),
        (sub: Submission) => sub.exercise == filters.exercise.value, sub => PassesStages(filters, 1, sub));
    } else {
      FilterExt(submissions, sub => PassesStages(filters, 0, sub), sub => PassesStages(filters, 1, sub));
    }

    ghost var before := filtered;
    if filters.gender.Only? {
      filtered := Filter(filtered, (sub: Submission) => sub.gender == filters.gender.value);
      FilterStage(submissions, before, filtered, sub => PassesStages(filters, 1, sub),
        (sub: Submission) => sub.gender == filters.gender.value, sub => PassesStages(filters, 2, sub));
    } else {
      FilterExt(submissions, sub => PassesStages(filters, 1, sub), sub => PassesStages(filters, 2, sub));
    }

    before := filtered;
    if filters.grip.Only? {
      filtered := Filter(filtered, (sub: Submission) => sub.grip == Some(filters.grip.value));
      FilterStage(submissions, before, filtered, sub => PassesStages(filters, 2, sub),
        (sub: Submission) => sub.grip == Some(filters.grip.value), sub => PassesStages(filters, 3, sub));
    } else {
      FilterExt(submissions, sub => PassesStages(filters, 2, sub), sub => PassesStages(filters, 3, sub));
    }

    before := filtered;
    if filters.quality.Only? {
      filtered := Filter(filtered, (sub: Submission) => sub.quality == filters.quality.value);
      FilterStage(submissions, before, filtered, sub => PassesStages(filters, 3, sub),
        (sub: Submission) => sub.quality == filters.quality.value, sub => PassesStages(filters, 4, sub));
    } else {
      FilterExt(submissions, sub => PassesStages(filters, 3, sub), sub => PassesStages(filters, 4, sub));
    }

    before := filtered;
    if filters.video == WithVideo {
      filtered := Filter(filtered, (sub: Submission) => HasVideo(sub));
      FilterStage(submissions, before, filtered, sub => PassesStages(filters, 4, sub),
        (sub: Submission) => HasVideo(sub), sub => PassesStages(filters, 5, sub));
    } else if filters.video == WithoutVideo {
      filtered := Filter(filtered, (sub: Submission) => !HasVideo(sub));
      FilterStage(submissions, before, filtered, sub => PassesStages(filters, 4, sub),
        (sub: Submission) => !HasVideo(sub), sub => PassesStages(filters, 5, sub));
    } else {
      FilterExt(submissions, sub => PassesStages(filters, 4, sub), sub => PassesStages(filters, 5, sub));
    }

    before := filtered;
    if filters.search != "" {
      filtered := Filter(filtered, (sub: Submission) => NameContains(sub, filters.search));
      FilterStage(submissions, before, filtered, sub => PassesStages(filters, 5, sub),
        (sub: Submission) => NameContains(sub, filters.search),
        sub => PassesStages(filters, 6, sub));
    } else {
      FilterExt(submissions, sub => PassesStages(filters, 5, sub), sub => PassesStages(filters, 6, sub));
    }
    FilterExt(submissions, sub => PassesStages(filters, 6, sub), (sub: Submission) => Matches(filters, sub));
  }
}
