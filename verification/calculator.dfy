/**
  The three-axis doctor scorer: Academic Authority (at most 45 points),
  Clinical Innovation (at most 35) and Disease Specialization (at most 20),
  each built from capped sub-scores rounded to one decimal; their sum is the
  final score, which picks a letter grade. The batch evaluator ranks the
  evaluations by final score, highest first.
 */
module Calculator {
  import opened Types
  import opened Numeric
  import opened DataQuality
  import opened Ranking

  // ---------------------------------------------------------------------
  // Axis 1: Academic Authority
  // ---------------------------------------------------------------------

  /**
    Research impact, at most 20 points: 0.4 points per h-index point when
    an h-index is known, otherwise four times the base-10 logarithm of the
    citation count plus one.
   */
  function ResearchImpact(a: Academic, log10: Log10): (r: SubScore)
    ensures 0.0 <= r.score <= 20.0
    ensures IsTenth(r.score)
    ensures r.detail.ImpactByHIndex? <==> HasHIndex(a)
    ensures !HasHIndex(a) ==> r.detail.ImpactByCitations?
    ensures HasHIndex(a) ==> r.score == Min(a.hIndex.value as real * 0.4, 20.0)
  {
    if HasHIndex(a) then
      var h := a.hIndex.value;
      var points := Min(h as real * 0.4, 20.0);
      HIndexPoints(h);
      SubScore(RoundTenth(points), ImpactByHIndex(h, points))
    else
      var points := Min(log10(a.totalCitations as real + 1.0) * 4.0, 20.0);
      RoundTenthWithin(points, 0.0, 20.0);
      SubScore(RoundTenth(points), ImpactByCitations(a.totalCitations, points))
  }

  /**
    On the h-index branch, full marks come exactly from an h-index of 50;
    on the citation branch, a profile without citations scores 0.
   */
  lemma ResearchImpactExtremes(a: Academic, log10: Log10)
    ensures HasHIndex(a) ==> (ResearchImpact(a, log10).score == 20.0 <==> a.hIndex.value >= 50)
    ensures !HasHIndex(a) && a.totalCitations == 0 ==> ResearchImpact(a, log10).score == 0.0
  {
    if HasHIndex(a) {
      HIndexPoints(a.hIndex.value);
    } else {
      assert log10(a.totalCitations as real + 1.0) >= 0.0;
      RoundTenthOfTenth(0.0);
    }
  }

  /** The h-index points are exact tenths, so rounding keeps them; 50 is where the cap starts. */
  lemma HIndexPoints(h: nat)
    ensures var points := Min(h as real * 0.4, 20.0);
      && RoundTenth(points) == points
      && 0.0 <= RoundTenth(points) <= 20.0
      && (RoundTenth(points) == 20.0 <==> h >= 50)
  {
    var points := Min(h as real * 0.4, 20.0);
    assert h as real * 0.4 == (4 * h) as real / 10.0;
    IsTenthOfTenths(4 * h);
    IsTenthOfInt(20);
    RoundTenthOfTenth(points);
  }

  /** Recent activity, at most 15 points: half a point per paper of the last five years. */
  function RecentActivity(a: Academic): (r: SubScore)
    ensures 0.0 <= r.score <= 15.0
    ensures IsTenth(r.score)
  {
    var n := a.recentPapers5y;
    var points := Min(n as real * 0.5, 15.0);
    HalfPoints(n, 15);
    SubScore(RoundTenth(points), RecentPapers(n, points))
  }

  /** Recent activity is full exactly from 30 recent papers, and 0 exactly without any. */
  lemma RecentActivityExtremes(a: Academic)
    ensures RecentActivity(a).score == 15.0 <==> a.recentPapers5y >= 30
    ensures RecentActivity(a).score == 0.0 <==> a.recentPapers5y == 0
  {
    HalfPoints(a.recentPapers5y, 15);
  }

  /** Half-points capped at `cap` are exact tenths, so rounding keeps them. */
  lemma HalfPoints(n: nat, cap: nat)
    ensures var points := Min(n as real * 0.5, cap as real);
      && RoundTenth(points) == points
      && 0.0 <= points <= cap as real
      && (points == cap as real <==> n >= 2 * cap)
      && (points == 0.0 <==> n == 0 || cap == 0)
  {
    IsTenthOfHalf(n);
    IsTenthOfInt(cap);
    RoundTenthOfTenth(Min(n as real * 0.5, cap as real));
  }

  /**
    Research leadership, at most 10 points: ten times the share of papers
    with a first or last authorship, the share taken over at least one
    paper so that a profile without papers is still scored. Full marks
    when the leading authorships reach the paper count, none without any.
   */
  function ResearchLeadership(a: Academic): (r: SubScore)
    ensures 0.0 <= r.score <= 10.0
    ensures IsTenth(r.score)
  {
    var count := a.firstAuthorCount + a.lastAuthorCount;
    var ratio := LeadershipRatio(count, a.totalPapers);
    var points := Min(ratio * 10.0, 10.0);
    RoundTenthWithin(points, 0.0, 10.0);
    SubScore(RoundTenth(points), AuthorLeadership(a.firstAuthorCount, a.lastAuthorCount, a.totalPapers, ratio, points))
  }

  /**
    Research leadership is full once the led papers reach the paper count
    (taken as at least one), and 0 without led papers.
   */
  lemma ResearchLeadershipExtremes(a: Academic)
    ensures a.firstAuthorCount + a.lastAuthorCount >= MaxInt(a.totalPapers, 1) ==> ResearchLeadership(a).score == 10.0
    ensures a.firstAuthorCount + a.lastAuthorCount == 0 ==> ResearchLeadership(a).score == 0.0
  {
    IsTenthOfInt(10);
    RoundTenthOfTenth(10.0);
    RoundTenthOfTenth(0.0);
  }

  /** The share of led papers, over at least one paper: never negative, and at least one once the led papers reach the count. */
  function LeadershipRatio(count: nat, papers: nat): (ratio: real)
    ensures ratio >= 0.0
    ensures count >= MaxInt(papers, 1) ==> ratio >= 1.0
    ensures count == 0 ==> ratio == 0.0
  {
    var total := MaxInt(papers, 1);
    QuotientBounds(count as real, total as real);
    count as real / total as real
  }

  /**
    Academic Authority: the three sub-scores and their sum, at most 45.
    The sub-scores are tenths, so rounding the sum to a tenth keeps it.
   */
  function AcademicAxis(a: Academic, log10: Log10): (r: AcademicAuthority)
    ensures r.researchImpact == ResearchImpact(a, log10).score
    ensures r.recentActivity == RecentActivity(a).score
    ensures r.researchLeadership == ResearchLeadership(a).score
    ensures r.total == r.researchImpact + r.recentActivity + r.researchLeadership
    ensures 0.0 <= r.total <= 45.0 && IsTenth(r.total)
    ensures r.details == [ResearchImpact(a, log10).detail, RecentActivity(a).detail, ResearchLeadership(a).detail]
  {
    var impact := ResearchImpact(a, log10);
    var activity := RecentActivity(a);
    var leadership := ResearchLeadership(a);
    var total := impact.score + activity.score + leadership.score;
    IsTenthSum(impact.score, activity.score);
    IsTenthSum(impact.score + activity.score, leadership.score);
    RoundTenthOfTenth(total);
    AcademicAuthority(impact.score, activity.score, leadership.score, RoundTenth(total),
      [impact.detail, activity.detail, leadership.detail])
  }

  // ---------------------------------------------------------------------
  // Axis 2: Clinical Innovation
  // ---------------------------------------------------------------------

  /** Trial leadership, at most 25 points: three points per trial led as principal investigator. */
  function TrialLeadership(c: Clinical): (r: SubScore)
    ensures 0.0 <= r.score <= 25.0
    ensures IsTenth(r.score)
  {
    var points := Min((3 * c.piTrialCount) as real, 25.0);
    IsTenthOfInt(3 * c.piTrialCount);
    IsTenthOfInt(25);
    RoundTenthOfTenth(points);
    SubScore(RoundTenth(points), PiTrials(c.piTrialCount, points))
  }

  /** Trial leadership is full exactly from nine trials led, and 0 exactly without any. */
  lemma TrialLeadershipExtremes(c: Clinical)
    ensures TrialLeadership(c).score == 25.0 <==> c.piTrialCount >= 9
    ensures TrialLeadership(c).score == 0.0 <==> c.piTrialCount == 0
  {
    var points := Min((3 * c.piTrialCount) as real, 25.0);
    IsTenthOfInt(3 * c.piTrialCount);
    IsTenthOfInt(25);
    RoundTenthOfTenth(points);
  }

  /** Active research: 10 points exactly when some trial is currently active, else 0. */
  function ActiveResearch(c: Clinical): (r: SubScore)
    ensures r.score == 10.0 <==> c.activeTrialCount > 0
    ensures r.score == 0.0 <==> c.activeTrialCount == 0
    ensures r.detail == NoActiveTrials <==> c.activeTrialCount == 0
  {
    if c.activeTrialCount > 0 then SubScore(10.0, ActiveTrials(c.activeTrialCount))
    else SubScore(0.0, NoActiveTrials)
  }

  /** Clinical Innovation: the two sub-scores and their sum, at most 35. */
  function ClinicalAxis(c: Clinical): (r: ClinicalInnovation)
    ensures r.trialLeadership == TrialLeadership(c).score
    ensures r.activeResearch == ActiveResearch(c).score
    ensures r.total == r.trialLeadership + r.activeResearch
    ensures 0.0 <= r.total <= 35.0 && IsTenth(r.total)
    ensures r.details == [TrialLeadership(c).detail, ActiveResearch(c).detail]
  {
    var leadership := TrialLeadership(c);
    var active := ActiveResearch(c);
    var total := leadership.score + active.score;
    IsTenthOfInt(10);
    IsTenthOfInt(0);
    IsTenthSum(leadership.score, active.score);
    RoundTenthOfTenth(total);
    ClinicalInnovation(leadership.score, active.score, RoundTenth(total),
      [leadership.detail, active.detail])
  }

  // ---------------------------------------------------------------------
  // Axis 3: Disease Specialization
  // ---------------------------------------------------------------------

  /**
    Disease focus, at most 15 points: fifteen times the focus rate. Without
    disease data it is 0 with the "no disease data" rationale; a focus rate
    of one or more earns full marks.
   */
  function FocusScore(spec: Option<Specialization>): (r: SubScore)
    ensures spec.None? ==> r == SubScore(0.0, NoDiseaseData)
    ensures 0.0 <= r.score <= 15.0
    ensures IsTenth(r.score)
    ensures spec.Some? ==> r.detail.DiseaseFocus? && r.detail.disease == spec.value.disease
  {
    match spec
    case None =>
      IsTenthOfInt(0);
      SubScore(0.0, NoDiseaseData)
    case Some(s) =>
      var points := Min(s.focusRate * 15.0, 15.0);
      IsTenthOfInt(0);
      IsTenthOfInt(15);
      RoundTenthWithin(points, 0.0, 15.0);
      SubScore(RoundTenth(points), DiseaseFocus(s.disease, s.diseaseSpecificPapers, s.focusRate, points))
  }

  /** A focus rate of one or more earns full focus marks. */
  lemma FocusScoreFull(s: Specialization)
    requires s.focusRate >= 1.0
    ensures FocusScore(Some(s)).score == 15.0
  {
    IsTenthOfInt(15);
    RoundTenthOfTenth(15.0);
  }

  /** Recent disease activity: 5 points exactly when some disease paper is from the last three years. */
  function RecentDiseaseActivity(spec: Option<Specialization>): (r: SubScore)
    ensures r.score == 0.0 || r.score == 5.0
    ensures r.score == 5.0 <==> spec.Some? && spec.value.recentDiseasePapers3y > 0
    ensures spec.None? ==> r.detail == NoDiseaseData
  {
    match spec
    case None => SubScore(0.0, NoDiseaseData)
    case Some(s) =>
      if s.recentDiseasePapers3y > 0 then SubScore(5.0, RecentDiseasePapers(s.disease, s.recentDiseasePapers3y))
      else SubScore(0.0, NoRecentDiseasePapers(s.disease))
  }

  /** Disease Specialization: the two sub-scores and their sum, at most 20; all zero without disease data. */
  function DiseaseAxis(spec: Option<Specialization>): (r: DiseaseSpecialization)
    ensures r.focusScore == FocusScore(spec).score
    ensures r.recentActivity == RecentDiseaseActivity(spec).score
    ensures r.total == r.focusScore + r.recentActivity
    ensures 0.0 <= r.total <= 20.0 && IsTenth(r.total)
    ensures spec.None? ==> r == DiseaseSpecialization(0.0, 0.0, 0.0, [NoDiseaseData, NoDiseaseData])
    ensures r.details == [FocusScore(spec).detail, RecentDiseaseActivity(spec).detail]
  {
    var focus := FocusScore(spec);
    var recent := RecentDiseaseActivity(spec);
    var total := focus.score + recent.score;
    IsTenthOfInt(5);
    IsTenthOfInt(0);
    IsTenthSum(focus.score, recent.score);
    RoundTenthOfTenth(total);
    DiseaseSpecialization(focus.score, recent.score, RoundTenth(total), [focus.detail, recent.detail])
  }

  /**
    The disease data the evaluation uses: the profile's own specialization,
    but only when the options name a non-empty disease that is exactly the
    profile's disease label.
   */
  function SpecializationFor(p: DoctorProfile, options: EvaluationOptions): (r: Option<Specialization>)
    ensures r.Some? <==>
      && options.disease.Some? && options.disease.value != ""
      && p.specialization.Some? && p.specialization.value.disease == options.disease.value
    ensures r.Some? ==> r == p.specialization
  {
    if options.disease.Some? && options.disease.value != ""
       && p.specialization.Some? && p.specialization.value.disease == options.disease.value
    then p.specialization
    else None
  }

  // ---------------------------------------------------------------------
  // Grade
  // ---------------------------------------------------------------------

  /** The order of the grades, D lowest and S highest. */
  function Rank(g: Grade): nat {
    match g
    case S => 4
    case A => 3
    case B => 2
    case C => 1
    case D => 0
  }

  /** Whether a score reaches a grade's threshold: 85 for S, 75 for A, 65 for B, 55 for C; D has none. */
  predicate Reaches(score: real, g: Grade) {
    match g
    case S => score >= 85.0
    case A => score >= 75.0
    case B => score >= 65.0
    case C => score >= 55.0
    case D => true
  }

  /** The grade of a score: the highest grade whose threshold it reaches. */
  function AssignGrade(score: real): (g: Grade)
    ensures Reaches(score, g)
    ensures forall h :: Rank(h) > Rank(g) ==> !Reaches(score, h)
  {
    if score >= 85.0 then S
    else if score >= 75.0 then A
    else if score >= 65.0 then B
    else if score >= 55.0 then C
    else D
  }

  /** A higher score never gets a lower grade. */
  lemma AssignGradeMonotone(x: real, y: real)
    requires x <= y
    ensures Rank(AssignGrade(x)) <= Rank(AssignGrade(y))
  {
    var gx := AssignGrade(x);
    assert Reaches(y, gx);
  }

  /** Each threshold belongs to the grade above it. */
  lemma AssignGradeBoundaries()
    ensures AssignGrade(85.0) == S && AssignGrade(84.9) == A
    ensures AssignGrade(75.0) == A && AssignGrade(74.9) == B
    ensures AssignGrade(65.0) == B && AssignGrade(64.9) == C
    ensures AssignGrade(55.0) == C && AssignGrade(54.9) == D
  {
  }

  // ---------------------------------------------------------------------
  // Evaluation
  // ---------------------------------------------------------------------

  /** The final score an evaluation is ranked by. */
  function FinalScoreOf(e: EvaluationResult): real {
    e.score.finalScore
  }

  /**
    The score breakdown of one profile: the three axes and their sum as the
    final score, which is at most 100 and already a tenth, so its rounding
    changes nothing.
   */
  function ScoreProfile(p: DoctorProfile, options: EvaluationOptions, log10: Log10): (b: ScoreBreakdown)
    ensures b.academicAuthority == AcademicAxis(p.academic, log10)
    ensures b.clinicalInnovation == ClinicalAxis(p.clinical)
    ensures b.diseaseSpecialization == DiseaseAxis(SpecializationFor(p, options))
    ensures b.finalScore ==
      b.academicAuthority.total + b.clinicalInnovation.total + b.diseaseSpecialization.total
    ensures 0.0 <= b.finalScore <= 100.0 && IsTenth(b.finalScore)
  {
    var academic := AcademicAxis(p.academic, log10);
    var clinical := ClinicalAxis(p.clinical);
    var specialization := DiseaseAxis(SpecializationFor(p, options));
    var finalScore := academic.total + clinical.total + specialization.total;
    FinalScoreRounding(academic.total, clinical.total, specialization.total);
    ScoreBreakdown(academic, clinical, specialization, RoundTenth(finalScore))
  }

  /**
    The evaluation of one profile: its score breakdown, the grade of the
    final score (the grade is taken from the unrounded sum, which is the
    same number), and the confidence tier and warnings of the profile's
    quality assessment. `evaluatedAt` is the timestamp the caller supplies;
    no percentile is set.
   */
  function EvaluateDoctor(p: DoctorProfile, options: EvaluationOptions, log10: Log10, evaluatedAt: string)
    : (r: EvaluationResult)
    ensures r.profile == p
    ensures r.score == ScoreProfile(p, options, log10)
    ensures r.grade == AssignGrade(r.score.finalScore)
    ensures r.dataQuality == AssessDataQuality(p).confidenceLevel
    ensures r.warnings == AssessDataQuality(p).warnings
    ensures r.percentile.None? && r.evaluatedAt == evaluatedAt
  {
    var quality := AssessDataQuality(p);
    var breakdown := ScoreProfile(p, options, log10);
    var finalScore := breakdown.academicAuthority.total + breakdown.clinicalInnovation.total
      + breakdown.diseaseSpecialization.total;
    EvaluationResult(p, breakdown, AssignGrade(finalScore), None, evaluatedAt,
      quality.confidenceLevel, quality.warnings)
  }

  /** The sum of three tenths is a tenth, so rounding it changes nothing. */
  lemma FinalScoreRounding(x: real, y: real, z: real)
    requires IsTenth(x) && IsTenth(y) && IsTenth(z)
    ensures IsTenth(x + y + z)
    ensures RoundTenth(x + y + z) == x + y + z
  {
    IsTenthSum(x, y);
    IsTenthSum(x + y, z);
    RoundTenthOfTenth(x + y + z);
  }

  /**
    The disease axis is all zero, with the "no disease data" rationale,
    unless the options name a non-empty disease equal to the profile's
    disease label.
   */
  lemma DiseaseGating(p: DoctorProfile, options: EvaluationOptions, log10: Log10, evaluatedAt: string)
    requires !(options.disease.Some? && options.disease.value != ""
               && p.specialization.Some? && p.specialization.value.disease == options.disease.value)
    ensures EvaluateDoctor(p, options, log10, evaluatedAt).score.diseaseSpecialization ==
      DiseaseSpecialization(0.0, 0.0, 0.0, [NoDiseaseData, NoDiseaseData])
    ensures EvaluateDoctor(p, options, log10, evaluatedAt).score.finalScore ==
      AcademicAxis(p.academic, log10).total + ClinicalAxis(p.clinical).total
  {
    assert SpecializationFor(p, options) == None;
  }

  // ---------------------------------------------------------------------
  // Monotonicity of the sub-scores
  // ---------------------------------------------------------------------

  /** On the h-index branch, a larger h-index never lowers research impact. */
  lemma ResearchImpactMonotoneInHIndex(a: Academic, b: Academic, log10: Log10)
    requires HasHIndex(a) && HasHIndex(b) && a.hIndex.value <= b.hIndex.value
    ensures ResearchImpact(a, log10).score <= ResearchImpact(b, log10).score
  {
    RoundTenthMonotone(Min(a.hIndex.value as real * 0.4, 20.0), Min(b.hIndex.value as real * 0.4, 20.0));
  }

  /** On the citation branch, more citations never lower research impact. */
  lemma ResearchImpactMonotoneInCitations(a: Academic, b: Academic, log10: Log10)
    requires !HasHIndex(a) && !HasHIndex(b) && a.totalCitations <= b.totalCitations
    ensures ResearchImpact(a, log10).score <= ResearchImpact(b, log10).score
  {
    var x := a.totalCitations as real + 1.0;
    var y := b.totalCitations as real + 1.0;
    assert log10(x) <= log10(y);
    RoundTenthMonotone(Min(log10(x) * 4.0, 20.0), Min(log10(y) * 4.0, 20.0));
  }

  /** More recent papers never lower recent activity. */
  lemma RecentActivityMonotone(a: Academic, b: Academic)
    requires a.recentPapers5y <= b.recentPapers5y
    ensures RecentActivity(a).score <= RecentActivity(b).score
  {
    RoundTenthMonotone(Min(a.recentPapers5y as real * 0.5, 15.0), Min(b.recentPapers5y as real * 0.5, 15.0));
  }

  /** With the paper count fixed, more leading authorships never lower research leadership. */
  lemma ResearchLeadershipMonotoneInAuthorships(a: Academic, b: Academic)
    requires a.totalPapers == b.totalPapers
    requires a.firstAuthorCount + a.lastAuthorCount <= b.firstAuthorCount + b.lastAuthorCount
    ensures ResearchLeadership(a).score <= ResearchLeadership(b).score
  {
    var ra := LeadershipRatio(a.firstAuthorCount + a.lastAuthorCount, a.totalPapers);
    var rb := LeadershipRatio(b.firstAuthorCount + b.lastAuthorCount, b.totalPapers);
    LeadershipRatioMonotone(a.firstAuthorCount + a.lastAuthorCount, b.firstAuthorCount + b.lastAuthorCount, a.totalPapers);
    RoundTenthMonotone(Min(ra * 10.0, 10.0), Min(rb * 10.0, 10.0));
  }

  /**
    With the leading authorships fixed, more papers never raise research
    leadership: the score rewards the share of led papers, not their number.
   */
  lemma ResearchLeadershipAntitoneInPapers(a: Academic, b: Academic)
    requires a.firstAuthorCount == b.firstAuthorCount && a.lastAuthorCount == b.lastAuthorCount
    requires a.totalPapers <= b.totalPapers
    ensures ResearchLeadership(b).score <= ResearchLeadership(a).score
  {
    var count := a.firstAuthorCount + a.lastAuthorCount;
    var ra := LeadershipRatio(count, a.totalPapers);
    var rb := LeadershipRatio(count, b.totalPapers);
    LeadershipRatioAntitone(count, a.totalPapers, b.totalPapers);
    RoundTenthMonotone(Min(rb * 10.0, 10.0), Min(ra * 10.0, 10.0));
  }

  lemma LeadershipRatioMonotone(c1: nat, c2: nat, papers: nat)
    requires c1 <= c2
    ensures LeadershipRatio(c1, papers) <= LeadershipRatio(c2, papers)
  {
    QuotientMonotone(c1 as real, c2 as real, MaxInt(papers, 1) as real);
  }

  lemma LeadershipRatioAntitone(count: nat, p1: nat, p2: nat)
    requires p1 <= p2
    ensures LeadershipRatio(count, p2) <= LeadershipRatio(count, p1)
  {
    QuotientAntitone(count as real, MaxInt(p1, 1) as real, MaxInt(p2, 1) as real);
  }

  /** More trials led as principal investigator never lower trial leadership. */
  lemma TrialLeadershipMonotone(c: Clinical, d: Clinical)
    requires c.piTrialCount <= d.piTrialCount
    ensures TrialLeadership(c).score <= TrialLeadership(d).score
  {
    RoundTenthMonotone(Min((3 * c.piTrialCount) as real, 25.0), Min((3 * d.piTrialCount) as real, 25.0));
  }

  /** A higher focus rate never lowers the focus score. */
  lemma FocusScoreMonotone(s: Specialization, t: Specialization)
    requires s.focusRate <= t.focusRate
    ensures FocusScore(Some(s)).score <= FocusScore(Some(t)).score
  {
    RoundTenthMonotone(Min(s.focusRate * 15.0, 15.0), Min(t.focusRate * 15.0, 15.0));
  }

  /**
    Leading more trials never lowers a doctor's final score, nor the grade:
    only trial leadership changes, and it never decreases.
   */
  lemma FinalScoreMonotoneInPiTrials(p: DoctorProfile, n: nat, options: EvaluationOptions, log10: Log10, t: string)
    requires p.clinical.piTrialCount <= n
    ensures var q := p.(clinical := p.clinical.(piTrialCount := n));
      && EvaluateDoctor(p, options, log10, t).score.finalScore <= EvaluateDoctor(q, options, log10, t).score.finalScore
      && Rank(EvaluateDoctor(p, options, log10, t).grade) <= Rank(EvaluateDoctor(q, options, log10, t).grade)
  {
    var q := p.(clinical := p.clinical.(piTrialCount := n));
    TrialLeadershipMonotone(p.clinical, q.clinical);
    assert SpecializationFor(p, options) == SpecializationFor(q, options);
    AssignGradeMonotone(EvaluateDoctor(p, options, log10, t).score.finalScore,
      EvaluateDoctor(q, options, log10, t).score.finalScore);
  }

  // ---------------------------------------------------------------------
  // Batch evaluation
  // ---------------------------------------------------------------------

  /** The evaluations of the profiles, in input order. */
  function EvaluateEach(profiles: seq<DoctorProfile>, options: EvaluationOptions, log10: Log10, evaluatedAt: string)
    : (r: seq<EvaluationResult>)
    ensures |r| == |profiles|
    ensures forall i :: 0 <= i < |r| ==> r[i] == EvaluateDoctor(profiles[i], options, log10, evaluatedAt)
  {
    seq(|profiles|, i requires 0 <= i < |profiles| => EvaluateDoctor(profiles[i], options, log10, evaluatedAt))
  }

  /**
    The evaluations of a batch of profiles, highest final score first: a
    reordering of the individual evaluations, one per profile, all stamped
    with the same timestamp.
   */
  function EvaluateDoctors(profiles: seq<DoctorProfile>, options: EvaluationOptions, log10: Log10, evaluatedAt: string)
    : (r: seq<EvaluationResult>)
    ensures |r| == |profiles|
    ensures multiset(r) == multiset(EvaluateEach(profiles, options, log10, evaluatedAt))
    ensures SortedDesc(r, FinalScoreOf)
  {
    SortDesc(EvaluateEach(profiles, options, log10, evaluatedAt), FinalScoreOf)
  }
}
