# Streetlifting index — scoring and listing core in Dafny

This project models the computational core of the streetlifting-index web app. The app ranks
weighted pull-up and weighted dip lifts across lifters of different bodyweights. Its core has
six parts:

- **Community scoring** (`community_scoring.dfy`). The community data page estimates a one-rep
  max (1RM) as the mean of the Epley, Brzycki and Lombardi formulas on
  bodyweight + added weight − penalty. The score is that estimate times a quartic bodyweight
  coefficient, divided by 1.3 for dips. The module also covers the cheating-penalty slider and
  the penalty value stored with a new submission. The slider starts at 3 kg and is reset to
  3 kg after each submission (app/data/page.tsx:68, 169). Its value changes only when the user
  moves it (line 1013). So a Major_Cheat submission whose slider was never moved stores 3 kg,
  below the 5 kg minimum the slider shows for that quality.
- **Leaderboard** (`leaderboard.dfy`). The page's filter-and-sort pipeline rebinds a local list
  through six filter stages (exercise, gender, grip, form quality, video, name search), then
  sorts it in place, newest first or by 1RM or score, highest first. The stages are a
  `method` over `seq`. The sort is an in-place insertion sort on an `array`.
- **Recent submissions** (`recent_submissions.dfy`). The recent-submissions strip has its own
  copy of the 1RM estimator and labels each form quality with a colour and a Chinese text.
- **Legacy score and API route** (`legacy_score.dfy`, `score_route.dfy`). The library function
  `calculateScore` and the `POST /api/calculate-score` route use an older formula: Epley alone
  with `1 + reps/30`, and a quintic coefficient that includes `coeff_a`. The route validates
  its JSON body with JavaScript truthiness rules first. The route repeats the library's
  arithmetic in its own text; the model keeps both copies and proves them equal. The older and
  the current formula versions stay separate functions.
- **Training locations** (`locations.dfy`). The locations page has a two-stage filter (text
  search, then province), a province drop-down, a share text and a blank-name guard on
  submission.
- **Bottom navigation** (`bottom_nav.dfy`). The bottom navigation bar decides which of its five
  destinations is highlighted for the current path.

Helper modules:

- `Wrappers` holds `Option` and `Result`.
- `Text` holds the JavaScript string operations the pages use: `trim` with the ECMAScript
  whitespace set, ASCII `toLowerCase`, `includes`, `startsWith`, `join`, `|| null`, and the
  default string order of `sort`.
- `Sequences` holds `Array.prototype.filter` and the lemmas that chain filter stages.
- `Formulas` holds the gender and coefficient records and the integer power.

Modelling choices:

- Weights are `real`. Rep counts are `int` on the pages and `real` in the route and library,
  where they arrive as JSON numbers.
- `Math.pow(reps, 0.1)` has no closed form here, so every member that needs it takes it as a
  parameter `pow01`. The ghost predicate `Formulas.Pow01Laws` states its laws: it is 1 at one
  rep, positive, and strictly increasing from one rep on. Only the monotonicity lemmas require
  these laws.
- Coefficient records are arguments: a `map` from gender on the community page, and an
  `Option` in the route and the library. A failed lookup is the missing key or `None`.
- The route's JSON fields are `Field<T> = Undefined | Null | Present(value)`. This makes the
  falsy checks explicit: a string is falsy when empty, a number when 0, and `added_weight` is
  refused only when it is undefined.

## Model

| member | source | states |
|---|---|---|
| CommunityScoring.CoefficientIgnoresA | app/data/page.tsx:192-200 | the coefficient b·W⁴+c·W³+d·W²+e·W+f does not change when `coeff_a` changes |
| CommunityScoring.Calculate1RM | app/data/page.tsx:202-211 | one rep gives added − penalty; 37 or more reps give 0; otherwise the three-model mean on bodyweight + added − penalty, minus bodyweight |
| CommunityScoring.OneRepIgnoresBodyweight | app/data/page.tsx:203-205 | at one rep the estimate is the same for every bodyweight |
| CommunityScoring.EpleyIncreasing | app/data/page.tsx:207 | for a positive total, the Epley estimate total·(1 + 0.0333·reps) strictly increases with reps |
| CommunityScoring.BrzyckiIncreasing | app/data/page.tsx:208 | for a positive total, the Brzycki estimate total·36/(37 − reps) strictly increases with reps below 37 |
| CommunityScoring.LombardiIncreasing | app/data/page.tsx:209 | for a positive total, the Lombardi estimate total·reps^0.1 strictly increases with reps from one rep on |
| CommunityScoring.OneRepModels | app/data/page.tsx:208-209 | at one rep the Brzycki and Lombardi estimates both equal the lifted total |
| CommunityScoring.MeanEstimateIncreasing | app/data/page.tsx:207-210 | for a positive total, the Epley/Brzycki/Lombardi mean strictly increases with reps over 1..36; the Brzycki denominator 37−reps stays positive |
| CommunityScoring.MeanEstimateAboveTotal | app/data/page.tsx:207-210 | for a positive total and 2..36 reps, the mean estimate exceeds the lifted total |
| CommunityScoring.Calculate1RMIncreasing | app/data/page.tsx:202-211 | for a positive total, the estimate strictly increases with reps over 1..36, including the step from the one-rep case |
| CommunityScoring.TotalEstimateIncreasing | app/data/page.tsx:218-228 | the total 1RM used by the score strictly increases with reps over 1..36 for a positive total |
| CommunityScoring.CalculateScore | app/data/page.tsx:213-235 | the score is 0 when the gender has no coefficient record or reps ≥ 37 |
| CommunityScoring.EstimatePlusBodyweightIsTotal | app/data/page.tsx:216-228 | `calculate1RM` plus bodyweight is the score's total 1RM: the total weight at one rep, the three-model mean otherwise |
| CommunityScoring.ScoreIsTotal1RMTimesCoefficient | app/data/page.tsx:213-235 | with a record and reps < 37, the score is (`calculate1RM` + bodyweight) × coefficient, divided by 1.3 for dips |
| CommunityScoring.ApplyDivisor | app/data/page.tsx:230-234 | a dips score times 1.3 gives back the raw score; a pull-up score is unchanged |
| CommunityScoring.DipsScoreDividedBy13 | app/data/page.tsx:231-233 | the same lift entered as dips scores exactly 1/1.3 of its pull-up score |
| CommunityScoring.ShowsPenaltySlider | app/data/page.tsx:184 | the slider is shown for every quality except Competition and Good |
| CommunityScoring.PenaltyRange | app/data/page.tsx:185-190 | the slider range is [2,5] for Minor_Cheat, [5,20] for Major_Cheat and [20,50] otherwise; it is never empty |
| CommunityScoring.StoredPenalty | app/data/page.tsx:151 | the stored penalty equals the slider exactly for Minor_Cheat and Major_Cheat (or a zero slider); otherwise it is 0 |
| CommunityScoring.StoredPenaltyWithinShownRange | app/data/page.tsx:184-190 | for Minor_Cheat and Major_Cheat, a slider value within the shown range is stored (line 151) unchanged, so within that range |
| CommunityScoring.ExtremeCheatPenaltyDiscarded | app/data/page.tsx:184-190 | Extreme_Cheat shows the slider with range [20,50], but the stored penalty (line 151) is 0, below the slider and below Minor_Cheat's minimum |
| CommunityScoring.UntouchedSliderBelowMajorRange | app/data/page.tsx:184-190 | with the slider left at its starting value of 3 kg (line 68), a Major_Cheat submission shows the slider and stores 3 kg (line 151), below the shown minimum of 5 kg |
| CommunityScoring.NewSubmission | app/data/page.tsx:144-156 | the inserted row carries the form's exercise, gender, bodyweight, added weight, reps and quality, and the store's timestamp; the stored penalty; the form's grip for pull-ups and a null grip for dips; the name and video URL as typed, or null when empty |
| Leaderboard.ActiveFiltersCount | app/data/page.tsx:299-301 | at most 5 active filters, and 0 exactly when every select filter is "all" (search is not counted) |
| Leaderboard.GenderCounts | app/data/page.tsx:299-301 | selecting a gender where "all" was selected adds exactly one to the count |
| Leaderboard.GripCounts | app/data/page.tsx:299-301 | selecting a grip where "all" was selected adds exactly one to the count |
| Leaderboard.QualityCounts | app/data/page.tsx:299-301 | selecting a form quality where "all" was selected adds exactly one to the count |
| Leaderboard.VideoCounts | app/data/page.tsx:299-301 | selecting "with video" or "without video" where "all" was selected adds exactly one to the count |
| Leaderboard.ExerciseCounts | app/data/page.tsx:299-301 | selecting an exercise where "all" was selected adds exactly one to the count |
| Leaderboard.SearchNotCounted | app/data/page.tsx:299-301 | the search text never changes the count |
| Leaderboard.NoActiveFilterShowsAll | app/data/page.tsx:238-260 | with no active select filter and an empty search, every submission passes |
| Leaderboard.GripFilterHidesDips | app/data/page.tsx:245-247 | a grip filter other than "all" hides every dips submission, since dips are stored with a null grip (line 154) |
| Leaderboard.SearchHidesAnonymous | app/data/page.tsx:258-260 | a non-empty search hides submissions without a user name |
| Leaderboard.Visible | app/data/page.tsx:238-260 | the listed submissions are exactly those of the input passing every filter not set to "all", in input order, each kept exactly as often as it occurs in the input |
| Leaderboard.ApplyFilters | app/data/page.tsx:238-260 | the six successive filter stages leave exactly the visible submissions |
| Leaderboard.SortDescending | app/data/page.tsx:261-271 | the in-place sort leaves a permutation of the array, non-increasing by the key |
| Leaderboard.ApplyFiltersAndSort | app/data/page.tsx:237-273 | the result is a permutation of the filtered list, contains exactly the matching submissions, and is non-increasing by 1RM, score or creation time |
| RecentSubmissions.Calculate1RM | components/recent-submissions.tsx:55-74 | one rep gives added − penalty; 37 or more reps give 0 |
| RecentSubmissions.MultiRepIsThreeModelMean | components/recent-submissions.tsx:67-73 | for 2..36 reps, the estimate is the three-model mean on bodyweight + added − penalty, minus bodyweight |
| RecentSubmissions.AgreesWithCommunityPage | components/recent-submissions.tsx:55-74 | this copy equals the community page's `calculate1RM` on every input |
| RecentSubmissions.EstimateIncreasesWithReps | components/recent-submissions.tsx:67-73 | for a positive total, the estimate strictly increases with reps over 1..36 |
| RecentSubmissions.QualityColor | components/recent-submissions.tsx:76-87 | green, yellow and red for Competition, Minor_Cheat and Major_Cheat; grey exactly for every other value |
| RecentSubmissions.QualityText | components/recent-submissions.tsx:89-100 | Chinese labels for the three named qualities; any other value is returned unchanged, and only those are |
| RecentSubmissions.UnlabelledQualitiesShownRaw | components/recent-submissions.tsx:76-100 | "Good" and "Extreme_Cheat" are shown as their raw identifiers, Extreme_Cheat on a grey badge |
| LegacyScore.CalculateScore | lib/calculate-score.ts:3-37 | fails, with "Formula not found for specified gender", exactly when no coefficient record is given |
| LegacyScore.EpleyEstimate | lib/calculate-score.ts:17-18 | with zero reps the estimate is the total weight |
| LegacyScore.FinalScoreIncreasesWithReps | lib/calculate-score.ts:17-37 | for a positive total weight and a positive coefficient, the final score strictly increases with reps |
| LegacyScore.Report | lib/calculate-score.ts:31-37 | the final score is the estimate times the coefficient |
| LegacyScore.QuinticExtendsQuartic | lib/calculate-score.ts:21-28 | the older coefficient is the current quartic plus a·W⁵ |
| LegacyScore.VersionsAgreeIffNoFifthPower | lib/calculate-score.ts:21-28 | for non-zero bodyweight the two coefficient versions agree exactly when `coeff_a` is 0 |
| LegacyScore.OneRepEstimate | lib/calculate-score.ts:17-18 | with no one-rep case, one rep gives 31/30 of the total weight |
| LegacyScore.EpleyIncreasing | lib/calculate-score.ts:17-18 | for a positive total the estimate strictly increases with reps |
| ScoreRoute.AddedWeight | app/api/calculate-score/route.ts:27 | a present added weight is used as is; null counts as 0 |
| ScoreRoute.Post | app/api/calculate-score/route.ts:11-47 | 400 exactly when the body fails the falsy checks; 404 exactly when it passes but there is no record; a result otherwise |
| ScoreRoute.AgreesWithLibrary | app/api/calculate-score/route.ts:26-47 | on an accepted request the route's own copy of the arithmetic succeeds exactly when the library does and returns the same triple |
| ScoreRoute.EstimateCopiesAgree | app/api/calculate-score/route.ts:27-28 | the route's Epley estimate equals the library's on every total weight and rep count |
| ScoreRoute.CoefficientCopiesAgree | app/api/calculate-score/route.ts:31-38 | the route's quintic coefficient equals the library's on every bodyweight and record |
| ScoreRoute.ZeroRules | app/api/calculate-score/route.ts:11-13 | added weight 0 is accepted; bodyweight 0, reps 0 or an undefined added weight are refused with 400 |
| ScoreRoute.NullAddedWeightCountsAsZero | app/api/calculate-score/route.ts:11-27 | a null added weight passes validation and scores as 0 kg |
| Locations.Shown | app/locations/page.tsx:62-83 | the listed locations are exactly those passing the search and province tests, in loaded order, each kept exactly as often as it was loaded |
| Locations.FilterLocations | app/locations/page.tsx:62-83 | the two successive filter stages leave exactly the shown locations |
| Locations.NoFilterShowsAll | app/locations/page.tsx:62-83 | a blank query with "all" provinces lists every location |
| Locations.QueryIsCaseFolded | app/locations/page.tsx:67-68 | the match ignores letter case: "PARK" finds "Park" |
| Locations.QueryIsNotTrimmed | app/locations/page.tsx:66-74 | the query is tested untrimmed: " park" does not find "Park" |
| Locations.Insert | app/locations/page.tsx:249 | adding a province to a sorted distinct list keeps it sorted and distinct, with `p` added if absent and nothing else added or lost |
| Locations.ProvinceOptions | app/locations/page.tsx:249 | the options are strictly ascending and are exactly the non-empty provinces of the loaded locations |
| Locations.AscendingUnique | app/locations/page.tsx:249 | two strictly ascending lists with the same members are equal |
| Locations.ProvinceOptionsIsSortedSet | app/locations/page.tsx:249 | the options are the one sorted list of the distinct provinces, whatever the loading order |
| Locations.TruthyValues | app/locations/page.tsx:201-202 | a string is kept exactly when it is non-empty and some column holds it |
| Locations.TruthyValuesAppend | app/locations/page.tsx:201-202 | collecting the values of two column lists back to back gives the two value lists back to back, so column order is kept |
| Locations.TruthyValuesOne | app/locations/page.tsx:201-202 | a single column contributes its value exactly when it is present and non-empty |
| Locations.TruthyValuesThree | app/locations/page.tsx:201-202 | the values of province, city and address are each truthy column's value, in that order |
| Locations.AddressPart | app/locations/page.tsx:201-203 | the address part is empty exactly when province, city and address are all empty or missing |
| Locations.AddressPartJoinsPresentColumns | app/locations/page.tsx:201-203 | for each of the seven combinations of present columns, the address part is those columns joined by single spaces in province, city, address order; missing ones leave no gap |
| Locations.DescriptionLine | app/locations/page.tsx:205 | the description line is empty exactly when there is no description |
| Locations.ShareText | app/locations/page.tsx:199-205 | the text starts with the title, the name and the address label, and ends with the link to the locations page |
| Locations.ShareTextNoAddress | app/locations/page.tsx:205 | without province, city or address, the placeholder stands in the address line |
| Locations.ShareTextDescription | app/locations/page.tsx:205 | a description is quoted in the text; without one the address line is followed directly by the link |
| Locations.SubmitLocation | app/locations/page.tsx:146-160 | nothing is inserted exactly when the name is all whitespace; otherwise the untrimmed name, each non-empty field as typed, and each empty field as null |
| Locations.Stored | app/locations/page.tsx:26-35 | a stored row keeps the submitted name and province |
| Locations.SubmittedProvinceOffered | app/locations/page.tsx:249 | once loaded, a submitted location's province appears in the drop-down exactly when the form's province was filled in |
| BottomNav.IsActive | components/BottomNav.tsx:26-27 | an item is highlighted exactly when there is a path and it is "/" for the home item, or starts with the item's href for any other item |
| BottomNav.HomeActiveOnlyAtRoot | components/BottomNav.tsx:14-27 | the home item is highlighted only at "/" |
| BottomNav.SectionActiveIffPrefix | components/BottomNav.tsx:26-27 | every other item is highlighted exactly when the path starts with its href |
| BottomNav.PrefixIsNotSegmentAware | components/BottomNav.tsx:27 | "/datax" and "/data/123" both highlight the "/data" item |
| BottomNav.NoPathNothingActive | components/BottomNav.tsx:26-27 | without a path no item is highlighted |
| BottomNav.AtMostOneActive | components/BottomNav.tsx:14-27 | for the five hrefs, no two items are highlighted at once |

## Left out

- Data store and browser I/O are not modelled. This covers Supabase reads, inserts and storage uploads, the clipboard, `FileReader`, `window.open` and `alert`. The coefficient record, the path, the site origin and the store's ids and timestamps are parameters.
- The route's HTTP plumbing and its 500 path are not modelled. Parsing the request body and the catch-all 500 response (app/api/calculate-score/route.ts:6-8, 48-51) cannot fail in a model of pure values.
- The route assumes JSON numbers. A body field of another JSON type (such as a string `added_weight`, which JavaScript would concatenate) is not modelled. Neither is NaN, which is also falsy.
- React state, effects and rendering are not modelled. The model covers the values the components compute, not when they recompute or how they are displayed.
- Floating point is modelled as exact `real` arithmetic. Rounding, NaN, infinities and `toFixed` formatting are not modelled.
- `Math.pow(reps, 0.1)` is the parameter `pow01`. Its laws are assumed only where a lemma requires `Pow01Laws`.
- Dates: the date sort uses an abstract integer timestamp (`createdAt`) instead of parsing `created_at` strings.
- `toLowerCase` is ASCII-only. Unicode case folding is not modelled.
- Strings are sequences of code points. JavaScript's UTF-16 code-unit order in `sort()` can differ from code-point order for characters above U+FFFF.
- Leaderboard.SortDescending: does not state the stability of `Array.prototype.sort`. It promises a permutation ordered non-increasing by the key. Equal keys may come out in any order.
- CommunityScoring.NewSubmission: the form's unset quality and gender (the empty selects, app/data/page.tsx:63, 895-906, neither of them required) are not modelled; the form holds a chosen `Quality` and `Gender`, so a row with an empty gender, which the page can insert, is not representable. An unchosen grip is `None` and is stored as null, while the page stores a pull-up with no grip chosen as the empty string `pullupType` starts with (app/data/page.tsx:71, 154). No filter property depends on the difference, since neither value equals a selected grip. Parsing of the number fields (`parseFloat`, `parseInt`) is not modelled.
- The community page's own `getQualityColor` and `getQualityText` (app/data/page.tsx:275-293) are not part of this model. Only the recent-submissions versions are.
- The calculator, submit, methodology, home, stories and success pages are not part of this model. Neither are the donation section, site header and layout components. They are forms and display; the submit page's penalty rule is a two-range variant of the one modelled.
- Location `id` is carried along but plays no part in any property.
