/**
  The data-quality assessor: how complete and trustworthy a doctor profile
  is. Seven fixed checks each deduct a penalty from 100 and add one warning;
  the remaining score picks the confidence tier, and the share of passed
  checks is the completeness percentage. Small gates built on the assessment
  decide whether a profile is evaluable, which notice to show, and which data
  is missing.
 */
module DataQuality {
  import opened Types
  import opened Numeric

  // ---------------------------------------------------------------------
  // The check table: an independent description of the seven checks
  // ---------------------------------------------------------------------

  datatype QualityCheck =
    | OpenAlexCheck
    | PaperCountCheck
    | RecentActivityCheck
    | ClinicalTrialsCheck
    | HIndexCheck
    | AuthorPositionCheck
    | TopPapersCheck

  /** The number of checks. */
  const CheckCount: nat := 7

  /** The checks in the order the assessor runs them. */
  function CheckAt(i: nat): QualityCheck
    requires i < CheckCount
  {
    if i == 0 then OpenAlexCheck
    else if i == 1 then PaperCountCheck
    else if i == 2 then RecentActivityCheck
    else if i == 3 then ClinicalTrialsCheck
    else if i == 4 then HIndexCheck
    else if i == 5 then AuthorPositionCheck
    else TopPapersCheck
  }

  /** The points a failed check costs. */
  function Penalty(c: QualityCheck): nat {
    match c
    case OpenAlexCheck => 40
    case PaperCountCheck => 20
    case RecentActivityCheck => 15
    case ClinicalTrialsCheck => 10
    case HIndexCheck => 5
    case AuthorPositionCheck => 5
    case TopPapersCheck => 5
  }

  /** Whether a profile passes a check, stated as the positive completeness item. */
  predicate Passes(p: DoctorProfile, c: QualityCheck) {
    match c
    case OpenAlexCheck => HasOpenAlexId(p)
    case PaperCountCheck => p.academic.totalPapers >= 5
    case RecentActivityCheck => p.academic.recentPapers5y > 0
    case ClinicalTrialsCheck => p.clinical.totalTrials > 0
    case HIndexCheck => HasHIndex(p.academic)
    case AuthorPositionCheck => p.academic.firstAuthorCount > 0 || p.academic.lastAuthorCount > 0
    case TopPapersCheck => |p.academic.topPapers| > 0
  }

  /** The warning a failed check adds. */
  function WarningOf(p: DoctorProfile, c: QualityCheck): QualityWarning {
    match c
    case OpenAlexCheck => NoOpenAlexData
    case PaperCountCheck => InsufficientPapers(p.academic.totalPapers)
    case RecentActivityCheck => NoRecentPapers
    case ClinicalTrialsCheck => NoClinicalTrials
    case HIndexCheck => NoHIndexData
    case AuthorPositionCheck => NoAuthorPositions
    case TopPapersCheck => NoTopPapers
  }

  /** Appends check `c` to the list `m` when it is missing. */
  function Note(m: seq<QualityCheck>, missing: bool, c: QualityCheck): seq<QualityCheck> {
    if missing then m + [c] else m
  }

  /** The checks among the first `k` of the table that `p` fails, in table order. */
  function FailedUpTo(p: DoctorProfile, k: nat): (r: seq<QualityCheck>)
    requires k <= CheckCount
    ensures |r| <= k
  {
    if k == 0 then [] else Note(FailedUpTo(p, k - 1), !Passes(p, CheckAt(k - 1)), CheckAt(k - 1))
  }

  /** All failed checks of `p`, in table order. */
  function FailedChecks(p: DoctorProfile): (r: seq<QualityCheck>)
    ensures |r| <= CheckCount
  {
    FailedUpTo(p, CheckCount)
  }

  function PenaltySum(cs: seq<QualityCheck>): nat {
    if |cs| == 0 then 0 else Penalty(cs[0]) + PenaltySum(cs[1..])
  }

  function WarningsOf(p: DoctorProfile, cs: seq<QualityCheck>): (r: seq<QualityWarning>)
    ensures |r| == |cs|
  {
    if |cs| == 0 then [] else [WarningOf(p, cs[0])] + WarningsOf(p, cs[1..])
  }

  // ---------------------------------------------------------------------
  // The assessor as written: seven deductions in sequence
  // ---------------------------------------------------------------------

  /** The running score and warning list of the assessor. */
  datatype Tally = Tally(score: int, warnings: seq<QualityWarning>)

  function Deduct(t: Tally, failed: bool, penalty: nat, w: QualityWarning): Tally {
    if failed then Tally(t.score - penalty, t.warnings + [w]) else t
  }

  /** The seven deductions of the assessor, in order, before the final clamp at zero. */
  function ApplyPenalties(p: DoctorProfile): (r: Tally)
    ensures 0 <= r.score <= 100
    ensures |r.warnings| <= CheckCount
    ensures r.score == 100 <==> r.warnings == []
  {
    var a := p.academic;
    var t0 := Tally(100, []);
    var t1 := Deduct(t0, p.openalexId == "", 40, NoOpenAlexData);
    var t2 := Deduct(t1, a.totalPapers < 5, 20, InsufficientPapers(a.totalPapers));
    var t3 := Deduct(t2, a.recentPapers5y == 0, 15, NoRecentPapers);
    var t4 := Deduct(t3, p.clinical.totalTrials == 0, 10, NoClinicalTrials);
    var t5 := Deduct(t4, !HasHIndex(a), 5, NoHIndexData);
    var t6 := Deduct(t5, a.firstAuthorCount == 0 && a.lastAuthorCount == 0, 5, NoAuthorPositions);
    Deduct(t6, |a.topPapers| == 0, 5, NoTopPapers)
  }

  /** The seven completeness items: 1 for a passed check, 0 for a failed one. */
  function CompletenessItems(p: DoctorProfile): (r: seq<int>)
    ensures |r| == CheckCount
    ensures forall i | 0 <= i < CheckCount :: r[i] == (if Passes(p, CheckAt(i)) then 1 else 0)
  {
    var a := p.academic;
    [ if p.openalexId != "" then 1 else 0,
      if a.totalPapers >= 5 then 1 else 0,
      if a.recentPapers5y > 0 then 1 else 0,
      if p.clinical.totalTrials > 0 then 1 else 0,
      if HasHIndex(a) then 1 else 0,
      if a.firstAuthorCount > 0 || a.lastAuthorCount > 0 then 1 else 0,
      if |a.topPapers| > 0 then 1 else 0 ]
  }

  function Sum(s: seq<int>): int {
    if |s| == 0 then 0 else s[0] + Sum(s[1..])
  }

  /**
    The percentage `passed / 7 * 100` rounded to the nearest integer, for
    each possible number of passed checks.
   */
  function PercentOfSeven(passed: nat): (r: int)
    requires passed <= CheckCount
    ensures 0 <= r <= 100
    ensures r == 100 <==> passed == CheckCount
  {
    match passed
    case 0 => 0
    case 1 => 14
    case 2 => 29
    case 3 => 43
    case 4 => 57
    case 5 => 71
    case 6 => 86
    case _ => 100
  }

  /**
    The completeness percentage of a profile: the average of its seven
    completeness items as a rounded percentage, which is the tabulated
    percentage of its passed checks.
   */
  function Completeness(p: DoctorProfile): (c: int)
    ensures c == PercentOfSeven(CheckCount - |FailedChecks(p)|)
  {
    var items := CompletenessItems(p);
    CompletenessCountsPassed(p);
    CompletenessMatchesTable(CheckCount - |FailedChecks(p)|);
    Round(Sum(items) as real / 7.0 * 100.0)
  }

  /** The confidence tier of a quality score. */
  function TierOf(score: int): (r: ConfidenceLevel)
    ensures r == High <==> score >= 80
    ensures r == Low <==> score < 60
  {
    if score >= 80 then High else if score >= 60 then Medium else Low
  }

  /**
    The quality assessment of a profile. Its score is 100 minus the
    penalties of the failed checks (and so lies in [0, 100]); there is one
    warning per failed check, in check order; the tier follows the 80/60
    thresholds; the four detail flags record checks 1 to 4; and the
    completeness is the rounded percentage of passed checks, 100 exactly
    when there is no warning.
   */
  function AssessDataQuality(p: DoctorProfile): (q: QualityAssessment)
    ensures q.score == 100 - PenaltySum(FailedChecks(p))
    ensures q.warnings == WarningsOf(p, FailedChecks(p))
    ensures 0 <= q.score <= 100
    ensures q.confidenceLevel == High <==> q.score >= 80
    ensures q.confidenceLevel == Medium <==> 60 <= q.score < 80
    ensures q.confidenceLevel == Low <==> q.score < 60
    ensures q.details.hasOpenAlexData <==> Passes(p, OpenAlexCheck)
    ensures q.details.minimumPapers <==> Passes(p, PaperCountCheck)
    ensures q.details.recentActivity <==> Passes(p, RecentActivityCheck)
    ensures q.details.hasClinicalTrialsData <==> Passes(p, ClinicalTrialsCheck)
    ensures |q.warnings| <= CheckCount
    ensures q.details.dataCompleteness == PercentOfSeven(CheckCount - |q.warnings|)
    ensures 0 <= q.details.dataCompleteness <= 100
    ensures q.details.dataCompleteness == 100 <==> |q.warnings| == 0
  {
    var t := ApplyPenalties(p);
    ApplyPenaltiesDeductsFailed(p);
    var details := QualityDetails(
      hasOpenAlexData := p.openalexId != "",
      hasClinicalTrialsData := p.clinical.totalTrials != 0,
      minimumPapers := !(p.academic.totalPapers < 5),
      recentActivity := p.academic.recentPapers5y != 0,
      dataCompleteness := Completeness(p));
    QualityAssessment(MaxInt(0, t.score), TierOf(t.score), t.warnings, details)
  }

  // ---------------------------------------------------------------------
  // Gates built on the assessment
  // ---------------------------------------------------------------------

  /** The minimum assessed score each tier demands of `isEvaluable`. */
  function QualityThreshold(level: ConfidenceLevel): (r: int)
    ensures 0 <= r <= 80
    ensures TierOf(r) == level
    ensures level != Low ==> TierOf(r - 1) != level
  {
    match level
    case High => 80
    case Medium => 60
    case Low => 0
  }

  /**
    Whether a profile's assessed score meets the threshold of `minQuality`
    (the source defaults it to LOW): every profile meets LOW, MEDIUM is met
    exactly when the tier is not LOW, HIGH exactly when the tier is HIGH.
   */
  function IsEvaluable(p: DoctorProfile, minQuality: ConfidenceLevel): (r: bool)
    ensures minQuality == Low ==> r
    ensures minQuality == Medium ==> (r <==> AssessDataQuality(p).confidenceLevel != Low)
    ensures minQuality == High ==> (r <==> AssessDataQuality(p).confidenceLevel == High)
  {
    AssessDataQuality(p).score >= QualityThreshold(minQuality)
  }

  /**
    The notice shown with a lower-confidence evaluation: for a LOW tier it
    cites the first two warnings, for a MEDIUM tier the first warning, or
    `None` when there is none (the source then prints a fixed fallback).
   */
  datatype QualityNotice =
    | LowQualityNotice(cited: seq<QualityWarning>)
    | PartialDataNotice(firstWarning: Option<QualityWarning>)

  /**
    The quality notice of a profile: none exactly when the tier is HIGH. A
    LOW tier always has at least two warnings, so its notice cites exactly
    the first two; a MEDIUM tier always has one, so the fallback text is
    never used.
   */
  function GenerateQualityWarning(p: DoctorProfile): (r: Option<QualityNotice>)
    ensures r.None? <==> AssessDataQuality(p).confidenceLevel == High
    ensures AssessDataQuality(p).confidenceLevel == Low ==>
      var w := AssessDataQuality(p).warnings;
      |w| >= 2 && r == Some(LowQualityNotice([w[0], w[1]]))
    ensures AssessDataQuality(p).confidenceLevel == Medium ==>
      var w := AssessDataQuality(p).warnings;
      |w| >= 1 && r == Some(PartialDataNotice(Some(w[0])))
  {
    var q := AssessDataQuality(p);
    TierWarningCounts(p);
    if q.confidenceLevel == High then None
    else if q.confidenceLevel == Low then
      var cited := q.warnings[..if |q.warnings| < 2 then |q.warnings| else 2];
      assert |q.warnings| >= 2 ==> cited == [q.warnings[0], q.warnings[1]];
      Some(LowQualityNotice(cited))
    else
      Some(PartialDataNotice(if |q.warnings| > 0 then Some(q.warnings[0]) else None))
  }

  /**
    The missing-data items of a profile, each named by its check: exactly
    the failed checks among the first six, in check order. The top-papers
    check is never listed, so the list is the warning list without its
    top-papers entry.
   */
  function GetMissingDataItems(p: DoctorProfile): (r: seq<QualityCheck>)
    ensures r == FailedUpTo(p, 6)
    ensures TopPapersCheck !in r
    ensures |r| <= 6
  {
    MissingItemsUnrolled(p);
    TopPapersOnlyLast(p, 6);
    MissingItems(p)
  }

  /** The six missing-data tests of the source, in order. */
  function MissingItems(p: DoctorProfile): (r: seq<QualityCheck>)
    ensures |r| <= 6
    ensures forall c :: c in r <==> c != TopPapersCheck && !Passes(p, c)
  {
    var a := p.academic;
    var m1 := Note([], p.openalexId == "", OpenAlexCheck);
    var m2 := Note(m1, a.totalPapers < 5, PaperCountCheck);
    var m3 := Note(m2, a.recentPapers5y == 0, RecentActivityCheck);
    var m4 := Note(m3, p.clinical.totalTrials == 0, ClinicalTrialsCheck);
    var m5 := Note(m4, !HasHIndex(a), HIndexCheck);
    Note(m5, a.firstAuthorCount == 0 && a.lastAuthorCount == 0, AuthorPositionCheck)
  }

  // ---------------------------------------------------------------------
  // Lemmas
  // ---------------------------------------------------------------------

  /** The penalties of the first `k` checks of the table. */
  function TablePenalty(k: nat): nat
    requires k <= CheckCount
  {
    if k == 0 then 0 else TablePenalty(k - 1) + Penalty(CheckAt(k - 1))
  }

  /** The seven penalties add up to exactly 100. */
  lemma PenaltiesSumToHundred()
    ensures TablePenalty(CheckCount) == 100
  {
  }

  /** Running the first `k` checks of the table from a score of 100. */
  function RunUpTo(p: DoctorProfile, k: nat): Tally
    requires k <= CheckCount
  {
    if k == 0 then Tally(100, [])
    else
      var c := CheckAt(k - 1);
      Deduct(RunUpTo(p, k - 1), !Passes(p, c), Penalty(c), WarningOf(p, c))
  }

  /**
    What the seven deductions leave: 100 minus the penalties of exactly the
    failed checks, with one warning per failed check in check order. Since
    the penalties add up to 100, the score is never negative and the clamp
    at zero never changes it.
   */
  lemma ApplyPenaltiesDeductsFailed(p: DoctorProfile)
    ensures ApplyPenalties(p).score == 100 - PenaltySum(FailedChecks(p))
    ensures ApplyPenalties(p).warnings == WarningsOf(p, FailedChecks(p))
    ensures 0 <= ApplyPenalties(p).score <= 100
    ensures MaxInt(0, ApplyPenalties(p).score) == ApplyPenalties(p).score
  {
    ApplyPenaltiesIsRun(p);
    RunDeductsFailed(p, CheckCount);
    FailedPenaltyBound(p, CheckCount);
    PenaltiesSumToHundred();
  }

  /** Failing only some of the checks costs at most what all of them cost. */
  lemma {:induction false} FailedPenaltyBound(p: DoctorProfile, k: nat)
    requires k <= CheckCount
    ensures PenaltySum(FailedUpTo(p, k)) <= TablePenalty(k)
  {
    if k > 0 {
      FailedPenaltyBound(p, k - 1);
      PenaltySumAppend(FailedUpTo(p, k - 1), [CheckAt(k - 1)]);
    }
  }

  lemma {:induction false} PenaltySumAppend(xs: seq<QualityCheck>, ys: seq<QualityCheck>)
    ensures PenaltySum(xs + ys) == PenaltySum(xs) + PenaltySum(ys)
    decreases |xs|
  {
    if |xs| == 0 {
      assert xs + ys == ys;
    } else {
      assert (xs + ys)[1..] == xs[1..] + ys;
      PenaltySumAppend(xs[1..], ys);
    }
  }

  lemma {:induction false} WarningsOfAppend(p: DoctorProfile, xs: seq<QualityCheck>, ys: seq<QualityCheck>)
    ensures WarningsOf(p, xs + ys) == WarningsOf(p, xs) + WarningsOf(p, ys)
    decreases |xs|
  {
    if |xs| == 0 {
      assert xs + ys == ys;
    } else {
      assert (xs + ys)[1..] == xs[1..] + ys;
      WarningsOfAppend(p, xs[1..], ys);
    }
  }

  /** Running checks deducts the penalties of the failed ones and lists their warnings in order. */
  lemma {:induction false} RunDeductsFailed(p: DoctorProfile, k: nat)
    requires k <= CheckCount
    ensures RunUpTo(p, k).score == 100 - PenaltySum(FailedUpTo(p, k))
    ensures RunUpTo(p, k).warnings == WarningsOf(p, FailedUpTo(p, k))
  {
    if k > 0 {
      var c := CheckAt(k - 1);
      RunDeductsFailed(p, k - 1);
      PenaltySumAppend(FailedUpTo(p, k - 1), [c]);
      WarningsOfAppend(p, FailedUpTo(p, k - 1), [c]);
      assert WarningsOf(p, [c]) == [WarningOf(p, c)];
    }
  }

  /**
    The literal deductions of the assessor are the check table run in
    order: each `if` condition of the source is the exact negation of the
    corresponding completeness item.
   */
  lemma ApplyPenaltiesIsRun(p: DoctorProfile)
    ensures ApplyPenalties(p) == RunUpTo(p, CheckCount)
  {
    var a := p.academic;
    assert RunUpTo(p, 1) == Deduct(Tally(100, []), p.openalexId == "", 40, NoOpenAlexData);
    assert RunUpTo(p, 2) == Deduct(RunUpTo(p, 1), a.totalPapers < 5, 20, InsufficientPapers(a.totalPapers));
    assert RunUpTo(p, 3) == Deduct(RunUpTo(p, 2), a.recentPapers5y == 0, 15, NoRecentPapers);
    assert RunUpTo(p, 4) == Deduct(RunUpTo(p, 3), p.clinical.totalTrials == 0, 10, NoClinicalTrials);
    assert RunUpTo(p, 5) == Deduct(RunUpTo(p, 4), !HasHIndex(a), 5, NoHIndexData);
    assert RunUpTo(p, 6) == Deduct(RunUpTo(p, 5), a.firstAuthorCount == 0 && a.lastAuthorCount == 0, 5, NoAuthorPositions);
  }

  /** The literal missing-data tests are the first six checks of the table run in order. */
  lemma MissingItemsUnrolled(p: DoctorProfile)
    ensures MissingItems(p) == FailedUpTo(p, 6)
  {
    var a := p.academic;
    assert FailedUpTo(p, 1) == Note([], p.openalexId == "", OpenAlexCheck);
    assert FailedUpTo(p, 2) == Note(FailedUpTo(p, 1), a.totalPapers < 5, PaperCountCheck);
    assert FailedUpTo(p, 3) == Note(FailedUpTo(p, 2), a.recentPapers5y == 0, RecentActivityCheck);
    assert FailedUpTo(p, 4) == Note(FailedUpTo(p, 3), p.clinical.totalTrials == 0, ClinicalTrialsCheck);
    assert FailedUpTo(p, 5) == Note(FailedUpTo(p, 4), !HasHIndex(a), HIndexCheck);
  }

  /** Only the last check of the table is the top-papers check. */
  lemma {:induction false} TopPapersOnlyLast(p: DoctorProfile, k: nat)
    requires k <= CheckCount - 1
    ensures TopPapersCheck !in FailedUpTo(p, k)
  {
    if k > 0 {
      TopPapersOnlyLast(p, k - 1);
    }
  }

  /**
    There is one missing-data item per warning, except that a missing
    top-papers list has a warning but no item.
   */
  lemma MissingItemsMatchWarnings(p: DoctorProfile)
    ensures |GetMissingDataItems(p)| ==
      |AssessDataQuality(p).warnings| - (if |p.academic.topPapers| == 0 then 1 else 0)
  {
    assert |AssessDataQuality(p).warnings| == |FailedChecks(p)|;
    assert FailedChecks(p) == Note(FailedUpTo(p, 6), |p.academic.topPapers| == 0, TopPapersCheck);
  }

  lemma {:induction false} SumSeven(s: seq<int>)
    requires |s| == 7
    ensures Sum(s) == s[0] + s[1] + s[2] + s[3] + s[4] + s[5] + s[6]
  {
    var s1 := s[1..];
    var s2 := s1[1..];
    var s3 := s2[1..];
    var s4 := s3[1..];
    var s5 := s4[1..];
    var s6 := s5[1..];
    assert s6[1..] == [];
    assert Sum(s6) == s6[0];
    assert Sum(s5) == s5[0] + Sum(s6);
    assert Sum(s4) == s4[0] + Sum(s5);
    assert Sum(s3) == s3[0] + Sum(s4);
    assert Sum(s2) == s2[0] + Sum(s3);
    assert Sum(s1) == s1[0] + Sum(s2);
  }

  /** Each completeness item is 1 exactly when the corresponding penalty was not taken. */
  lemma CompletenessCountsPassed(p: DoctorProfile)
    ensures Sum(CompletenessItems(p)) == 7 - |FailedChecks(p)|
  {
    var s := CompletenessItems(p);
    SumSeven(s);
    FailedCountUpTo(p, CheckCount);
    assert PassedUpTo(p, 1) == s[0];
    assert PassedUpTo(p, 2) == PassedUpTo(p, 1) + s[1];
    assert PassedUpTo(p, 3) == PassedUpTo(p, 2) + s[2];
    assert PassedUpTo(p, 4) == PassedUpTo(p, 3) + s[3];
    assert PassedUpTo(p, 5) == PassedUpTo(p, 4) + s[4];
    assert PassedUpTo(p, 6) == PassedUpTo(p, 5) + s[5];
  }

  /** The number of passed checks among the first `k`. */
  function PassedUpTo(p: DoctorProfile, k: nat): nat
    requires k <= CheckCount
  {
    if k == 0 then 0 else PassedUpTo(p, k - 1) + if Passes(p, CheckAt(k - 1)) then 1 else 0
  }

  /** Of the first `k` checks, those not failed are passed. */
  lemma {:induction false} FailedCountUpTo(p: DoctorProfile, k: nat)
    requires k <= CheckCount
    ensures |FailedUpTo(p, k)| == k - PassedUpTo(p, k)
  {
    if k > 0 {
      FailedCountUpTo(p, k - 1);
    }
  }

  /** Rounding the average of the completeness items gives the tabulated percentage. */
  lemma CompletenessMatchesTable(passed: int)
    requires 0 <= passed <= CheckCount
    ensures Round(passed as real / 7.0 * 100.0) == PercentOfSeven(passed)
  {
  }

  /**
    A LOW tier means more than 40 points were lost, which no single check
    can cost, so at least two checks failed; a MEDIUM tier means at least
    one did.
   */
  lemma TierWarningCounts(p: DoctorProfile)
    ensures AssessDataQuality(p).confidenceLevel == Low ==> |AssessDataQuality(p).warnings| >= 2
    ensures AssessDataQuality(p).confidenceLevel == Medium ==> |AssessDataQuality(p).warnings| >= 1
  {
    var failed := FailedChecks(p);
    if |failed| == 1 {
      assert failed[1..] == [];
      assert PenaltySum(failed) == Penalty(failed[0]);
    }
  }

  /** A profile failing all seven checks scores 0, is LOW and has seven warnings. */
  lemma AllChecksFailed(p: DoctorProfile)
    requires forall c :: !Passes(p, c)
    ensures AssessDataQuality(p).score == 0
    ensures AssessDataQuality(p).confidenceLevel == Low
    ensures |AssessDataQuality(p).warnings| == 7
    ensures AssessDataQuality(p).details.dataCompleteness == 0
  {
    ApplyPenaltiesDeductsFailed(p);
    assert !Passes(p, OpenAlexCheck) && !Passes(p, PaperCountCheck) && !Passes(p, RecentActivityCheck);
    assert !Passes(p, ClinicalTrialsCheck) && !Passes(p, HIndexCheck);
    assert !Passes(p, AuthorPositionCheck) && !Passes(p, TopPapersCheck);
  }

  /** A profile passing all seven checks scores 100, is HIGH and has no warning. */
  lemma AllChecksPassed(p: DoctorProfile)
    requires forall c :: Passes(p, c)
    ensures AssessDataQuality(p).score == 100
    ensures AssessDataQuality(p).confidenceLevel == High
    ensures AssessDataQuality(p).warnings == []
    ensures AssessDataQuality(p).details.dataCompleteness == 100
  {
    ApplyPenaltiesDeductsFailed(p);
    assert Passes(p, OpenAlexCheck) && Passes(p, PaperCountCheck) && Passes(p, RecentActivityCheck);
    assert Passes(p, ClinicalTrialsCheck) && Passes(p, HIndexCheck);
    assert Passes(p, AuthorPositionCheck) && Passes(p, TopPapersCheck);
  }
}
