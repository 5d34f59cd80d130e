# Doctor evaluation engine, modelled in Dafny

This project models the deterministic core of a doctor-evaluation engine. It has two parts.

**The three-axis scorer.** It turns a doctor profile's counts into capped sub-scores, each rounded to one decimal:

- Academic Authority, at most 45 points: research impact 20, recent activity 15, research leadership 10.
- Clinical Innovation, at most 35 points: trial leadership 25, active research 10.
- Disease Specialization, at most 20 points: disease focus 15, recent disease activity 5. This axis is used only when the evaluation options name the profile's own disease.

The three axis totals add up to the final score. The final score picks a letter grade: S from 85, A from 75, B from 65, C from 55, otherwise D. The batch evaluator ranks the evaluations by final score, highest first.

**The data-quality assessor.** It starts a profile at 100 and runs seven checks. Each failed check deducts a fixed penalty and adds one warning: OpenAlex id 40, paper count 20, recent papers 15, clinical trials 10, h-index 5, author positions 5, top papers 5. The remaining score picks a HIGH, MEDIUM or LOW tier at 80 and 60. The share of passed checks gives a completeness percentage. Three small gates are built on the assessment:

- whether a profile is evaluable at a minimum tier;
- which notice to show with a lower-confidence result;
- which data items are missing.

## How the model is built

- **Modules.**
  - `Types` holds the records: the profile, the score breakdown, the evaluation result and the quality assessment.
  - `Numeric` holds `Math.round`, the round-to-a-tenth idiom `Math.round(x * 10) / 10`, `Math.min`, `Math.max` and the logarithm.
  - `DataQuality` models `dataQuality.ts`.
  - `Ranking` holds a descending sort on sequences.
  - `Calculator` models `calculator.ts`.
- **Numbers.** Scores are exact `real`s and counts are `nat`s. Non-negative counts are what the code assumes without checking, so `nat` encodes that assumption. The focus rate is a non-negative real.
- **The logarithm.** `Math.log10` is a parameter of type `Numeric.Log10`: any function that is zero at one, non-negative from one on, and non-decreasing from one on. Every statement about research impact therefore holds for every such function, the real logarithm included.
- **The h-index.** It is `Option<nat>`. Both files test it by truthiness, so an absent h-index and an h-index of zero are both "no h-index" (`Types.HasHIndex`).
- **Rationale and warning strings.** They are tokens carrying the values the code interpolates into them. For example, `ImpactByHIndex(hIndex, points)` carries the unrounded points, which is what the code prints.
- **The penalty checks.** They are described twice:
  - once as a table (`CheckAt`, `Penalty`, `Passes`, `WarningOf`), folded by `FailedUpTo`;
  - once as the literal sequence of deductions the code performs (`ApplyPenalties`, `MissingItems`).

  The lemmas prove the two descriptions agree.
- **Rounding.** Every sub-score is a whole number of tenths (`Numeric.IsTenth`). Rounding the sum of the axis totals therefore changes nothing. The grade that `evaluateDoctor` takes from the unrounded sum is exactly the grade of the stored final score.
- **The sort.** The ranking is an insertion sort. Its contract promises a descending permutation and leaves the order of equal scores open.
- **A note on trial leadership.** The comment on trial leadership in `src/evaluation/calculator.ts` says eight trials give full marks. The code gives 3 points per trial capped at 25, so eight trials score 24 and full marks need nine. `Calculator.TrialLeadership` states what the code does.
- **A note on research leadership.** The score is the share of led papers, not their number. More papers with the same authorships never raise it (`Calculator.ResearchLeadershipAntitoneInPapers`).

## Model

| member | source | states |
|---|---|---|
| DataQuality.AssessDataQuality | src/evaluation/dataQuality.ts:11-102 | The score is 100 minus the penalties of exactly the failed checks and lies in [0, 100]. There is one warning per failed check, in check order. The tier is HIGH iff score ≥ 80, MEDIUM iff 60 ≤ score < 80, LOW iff score < 60. The four detail flags are true exactly when checks 1–4 pass. The completeness is the tabulated percentage of passed checks, in [0, 100], and 100 iff there is no warning. |
| DataQuality.ApplyPenalties | src/evaluation/dataQuality.ts:12-72 | The seven literal deductions, before the final clamp, leave a score in [0, 100] with at most seven warnings. The score stays 100 exactly when no warning was added. |
| DataQuality.PenaltiesSumToHundred | src/evaluation/dataQuality.ts:24-72 | The seven penalties 40, 20, 15, 10, 5, 5 and 5 add up to exactly 100, so failing every check leaves 0. |
| DataQuality.ApplyPenaltiesDeductsFailed | src/evaluation/dataQuality.ts:12-72 | The seven literal deductions leave 100 minus the failed checks' penalties, with their warnings in order. The result is in [0, 100], so the final `Math.max(0, score)` never changes it. |
| DataQuality.ApplyPenaltiesIsRun | src/evaluation/dataQuality.ts:24-72 | The seven `if` blocks of the assessor are the check table run in order: each condition is the negation of the check's pass condition. |
| DataQuality.RunDeductsFailed | src/evaluation/dataQuality.ts:24-72 | Running the first k checks deducts exactly the penalties of the failed ones and appends exactly their warnings, in check order. |
| DataQuality.FailedPenaltyBound | src/evaluation/dataQuality.ts:24-72 | Failing any subset of the first k checks costs at most the sum of their penalties. |
| DataQuality.Completeness | src/evaluation/dataQuality.ts:74-84 | Rounding the average of the seven completeness items, as a percentage, gives the tabulated percentage of the passed checks. |
| DataQuality.CompletenessCountsPassed | src/evaluation/dataQuality.ts:75-84 | Each completeness item is 1 exactly when its check passes, so the items add up to 7 minus the number of failed checks. |
| DataQuality.FailedCountUpTo | src/evaluation/dataQuality.ts:75-84 | Among the first k checks, the failed and the passed ones together number k. |
| DataQuality.CompletenessItems | src/evaluation/dataQuality.ts:75-83 | There are seven completeness items, one per check in table order. Each item is 1 when the profile passes that check and 0 when it fails it. |
| DataQuality.CompletenessMatchesTable | src/evaluation/dataQuality.ts:84 | `Math.round(passed / 7 * 100)` equals the tabulated percentage for each possible passed count 0..7. |
| DataQuality.PercentOfSeven | src/evaluation/dataQuality.ts:84 | The completeness percentage lies in [0, 100] and is 100 iff all seven checks pass. |
| DataQuality.TierOf | src/evaluation/dataQuality.ts:87-94 | The tier is HIGH iff the score is at least 80 and LOW iff it is below 60, so MEDIUM covers exactly 60 to 79. |
| DataQuality.TierWarningCounts | src/evaluation/dataQuality.ts:87-94 | A LOW tier means at least two failed checks, since no single penalty exceeds 40. A MEDIUM tier means at least one. |
| DataQuality.AllChecksFailed | src/evaluation/dataQuality.ts:24-94 | A profile failing all seven checks scores 0, is LOW, has seven warnings and 0% completeness. |
| DataQuality.AllChecksPassed | src/evaluation/dataQuality.ts:24-94 | A profile passing all seven checks scores 100, is HIGH, has no warnings and 100% completeness. |
| DataQuality.QualityThreshold | src/evaluation/dataQuality.ts:111-115 | The threshold of each tier is the lowest score in that tier: HIGH needs 80, MEDIUM needs 60, and one point less falls out of the tier. LOW needs 0, which every clamped score meets. |
| DataQuality.IsEvaluable | src/evaluation/dataQuality.ts:107-118 | Every profile meets LOW. MEDIUM is met iff the tier is not LOW. HIGH is met iff the tier is HIGH. |
| DataQuality.GenerateQualityWarning | src/evaluation/dataQuality.ts:123-136 | There is no notice iff the tier is HIGH. A LOW notice cites exactly the first two warnings, which always exist. A MEDIUM notice cites the first warning, which always exists, so the fallback text is unreachable. |
| DataQuality.GetMissingDataItems | src/evaluation/dataQuality.ts:154-182 | The list is exactly the failed checks among the first six, in check order. It never names the top-papers check and has at most six items. |
| DataQuality.MissingItems | src/evaluation/dataQuality.ts:154-181 | A check is in the list iff the profile fails it and it is not the top-papers check. The list has at most six items. |
| DataQuality.MissingItemsUnrolled | src/evaluation/dataQuality.ts:154-182 | The six literal `if` blocks are the first six checks of the table run in order. |
| DataQuality.TopPapersOnlyLast | src/evaluation/dataQuality.ts:154-182 | The failed checks among the first six never include the top-papers check, which is the seventh. |
| DataQuality.MissingItemsMatchWarnings | src/evaluation/dataQuality.ts:154-182 | There are as many missing items as warnings, minus one when the top-papers list is empty. |
| Calculator.ResearchImpact | src/evaluation/calculator.ts:17-33 | The score lies in [0, 20] and is a tenth. The h-index branch is taken exactly when the h-index is present and positive, and the citation branch otherwise. On the h-index branch the score is exactly `min(0.4·h, 20)`. |
| Calculator.ResearchImpactExtremes | src/evaluation/calculator.ts:17-33 | On the h-index branch, full marks come exactly at h-index ≥ 50. With no h-index and no citations the score is 0. |
| Calculator.HIndexPoints | src/evaluation/calculator.ts:21-32 | The h-index points `min(0.4·h, 20)` are exact tenths, so rounding keeps them. They reach 20 exactly when h ≥ 50. |
| Calculator.ResearchImpactMonotoneInHIndex | src/evaluation/calculator.ts:21-32 | On the h-index branch, a larger h-index never lowers the score. |
| Calculator.ResearchImpactMonotoneInCitations | src/evaluation/calculator.ts:25-32 | On the citation branch, more citations never lower the score, for any logarithm obeying the laws. |
| Calculator.RecentActivity | src/evaluation/calculator.ts:39-44 | The score lies in [0, 15] and is a tenth. |
| Calculator.RecentActivityExtremes | src/evaluation/calculator.ts:39-44 | The score is 15 exactly from 30 recent papers on, and 0 exactly without recent papers. |
| Calculator.HalfPoints | src/evaluation/calculator.ts:40-43 | Half a point per paper, capped, is an exact tenth that rounding keeps. It reaches the cap exactly from twice the cap in papers. |
| Calculator.RecentActivityMonotone | src/evaluation/calculator.ts:39-44 | More recent papers never lower the recent-activity score. |
| Calculator.ResearchLeadership | src/evaluation/calculator.ts:50-59 | The score lies in [0, 10] and is a tenth, also when there are no papers. |
| Calculator.ResearchLeadershipExtremes | src/evaluation/calculator.ts:50-59 | The score is 10 once the led papers reach `max(totalPapers, 1)`, and 0 without led papers. |
| Calculator.LeadershipRatio | src/evaluation/calculator.ts:51-53 | The share of led papers over `max(totalPapers, 1)` is non-negative, at least 1 once the led papers reach that count, and 0 without led papers. |
| Calculator.ResearchLeadershipMonotoneInAuthorships | src/evaluation/calculator.ts:50-59 | With the paper count fixed, more first or last authorships never lower the score. |
| Calculator.ResearchLeadershipAntitoneInPapers | src/evaluation/calculator.ts:50-59 | With the authorships fixed, more papers never raise the score. |
| Calculator.AcademicAxis | src/evaluation/calculator.ts:64-82 | The axis holds the three sub-scores and exactly three rationales. Its total is their sum, unchanged by rounding, in [0, 45]. |
| Calculator.TrialLeadership | src/evaluation/calculator.ts:92-97 | The score lies in [0, 25] and is a tenth. |
| Calculator.TrialLeadershipExtremes | src/evaluation/calculator.ts:92-97 | The score is 25 exactly from nine trials led as principal investigator, and 0 exactly with none. |
| Calculator.TrialLeadershipMonotone | src/evaluation/calculator.ts:92-97 | More trials led never lower trial leadership. |
| Calculator.ActiveResearch | src/evaluation/calculator.ts:103-110 | The score is 10 exactly when some trial is active and 0 exactly when none is. The "no active trials" rationale appears exactly in the latter case. |
| Calculator.ClinicalAxis | src/evaluation/calculator.ts:115-130 | The axis holds the two sub-scores and exactly two rationales. Its total is their sum, unchanged by rounding, in [0, 35]. |
| Calculator.FocusScore | src/evaluation/calculator.ts:140-149 | Without disease data the score is 0 with the "no disease data" rationale. Otherwise it lies in [0, 15], is a tenth, and its rationale names the disease. |
| Calculator.FocusScoreFull | src/evaluation/calculator.ts:145-148 | A focus rate of 1 or more earns the full 15 points. |
| Calculator.FocusScoreMonotone | src/evaluation/calculator.ts:140-149 | A higher focus rate never lowers the focus score. |
| Calculator.RecentDiseaseActivity | src/evaluation/calculator.ts:155-166 | The score is 0 or 5. It is 5 exactly when there is disease data with at least one paper in the last three years. |
| Calculator.DiseaseAxis | src/evaluation/calculator.ts:171-186 | The axis holds the two sub-scores and exactly two rationales. Its total is their sum, unchanged by rounding, in [0, 20]. Without disease data everything is zero with two "no disease data" rationales. |
| Calculator.SpecializationFor | src/evaluation/calculator.ts:219-221 | The disease data is used iff the options name a non-empty disease equal to the profile's disease label, and then it is the profile's own. |
| Calculator.DiseaseGating | src/evaluation/calculator.ts:219-229 | Unless the options name a non-empty disease equal to the profile's label, the disease axis is all zero and the final score is the sum of the other two axes. |
| Calculator.AssignGrade | src/evaluation/calculator.ts:200-206 | The grade is the highest grade whose threshold (S 85, A 75, B 65, C 55, D none) the score reaches. |
| Calculator.AssignGradeMonotone | src/evaluation/calculator.ts:200-206 | A higher score never gets a lower grade. |
| Calculator.AssignGradeBoundaries | src/evaluation/calculator.ts:200-206 | 85 is S and 84.9 is A. 75 is A and 74.9 is B. 65 is B and 64.9 is C. 55 is C and 54.9 is D. |
| Calculator.FinalScoreRounding | src/evaluation/calculator.ts:229-236 | The sum of three tenths is a tenth, so rounding the final score to a tenth changes nothing. |
| Calculator.ScoreProfile | src/evaluation/calculator.ts:223-237 | The breakdown holds the three axes of the profile, with the gated disease data. Its final score is their total, in [0, 100]. |
| Calculator.EvaluateDoctor | src/evaluation/calculator.ts:211-251 | The result holds the profile's breakdown and the grade of the stored final score, which equals the grade of the unrounded sum. It carries the tier and warnings of the profile's quality assessment, the given timestamp and no percentile. |
| Calculator.FinalScoreMonotoneInPiTrials | src/evaluation/calculator.ts:224-240 | Leading more trials never lowers a doctor's final score or grade. |
| Calculator.EvaluateEach | src/evaluation/calculator.ts:260-261 | There is one evaluation per profile, in input order. |
| Calculator.EvaluateDoctors | src/evaluation/calculator.ts:256-263 | The batch has one evaluation per profile. It is a permutation of the individual evaluations and is sorted by final score, highest first. |
| Ranking.InsertDesc | src/evaluation/calculator.ts:262 | Inserting into a descending sequence keeps it descending and adds exactly the one element. |
| Ranking.SortDesc | src/evaluation/calculator.ts:262 | The result is a descending permutation of the input. |
| Ranking.SortDescOfSorted | src/evaluation/calculator.ts:262 | A sequence already in descending order is left unchanged. |
| Ranking.SortDescIdempotent | src/evaluation/calculator.ts:262 | Sorting twice gives the same result as sorting once. |
| Numeric.Round | src/evaluation/dataQuality.ts:84 | `Math.round` gives the integer within half a unit, with halves rounded up. |
| Numeric.RoundTenth | src/evaluation/calculator.ts:32 | `Math.round(x * 10) / 10` is a tenth within half a tenth of x, with halves rounded up. |
| Numeric.RoundTenthOfTenth | src/evaluation/calculator.ts:75 | Rounding a value that is already a tenth leaves it unchanged. |
| Numeric.RoundTenthMonotone | src/evaluation/calculator.ts:32 | Rounding to a tenth never reverses the order of two values. |

## Left out

- `renderQualityBadge` (`src/evaluation/dataQuality.ts:141-149`): it only maps a tier to fixed HTML text.
- Exact strings: the Korean rationale, warning and notice texts, their `toFixed` and `toLocaleString` formatting, and the labels prefixed to each rationale are modelled as tokens. The token carries the interpolated values.
- Floating point: scores are exact reals. A JavaScript result may differ in the last binary digit, for example when a sum lands just below a grade threshold.
- `Math.log10` is abstract. Only the laws stated in `Numeric.Log10Laws` are assumed.
- `Calculator.ResearchImpact`: on the citation branch the contract states bounds and monotonicity but no exact value, because `Math.log10` is abstract.
- The clock: `new Date().toISOString()` is the `evaluatedAt` parameter. The batch evaluator passes one timestamp to every evaluation, while the code reads the clock once per profile.
- `Calculator.EvaluateDoctors`: the contract does not fix the order of equal final scores. `Array.prototype.sort` keeps them in input order, and the model's insertion sort is one admissible order.
- `DataQuality.IsEvaluable`, `Calculator.EvaluateDoctor`, `Calculator.EvaluateDoctors`: default arguments are not modelled, so callers pass them explicitly. No behaviour is lost. The tier default is `Low`. The options default `{}` is `EvaluationOptions(None, None, None)`, which turns the disease axis off just as an absent `disease` does.
- Unvalidated inputs: negative counts and a negative focus rate are ruled out by the types. The code never checks for them.
- The KOL five-factor research scorer and the h-index estimator are not part of this model. They are not in the modelled files.
- The HTTP route, the build configuration and the module re-exports are not part of this model. They contain no evaluation logic.
- The external API record types are not part of this model. No modelled logic reads them.
- The profile's stored quality summary is carried in the profile but never read by the engine, as in the code.
