/**
  The records of the doctor-evaluation engine: the doctor profile assembled
  from OpenAlex, ClinicalTrials.gov and PubMed, the score breakdown, the
  evaluation result and the data-quality assessment.

  Counts are `nat` (the engine never validates them, and its comparisons
  such as `=== 0` versus `> 0` are only complementary for non-negative
  counts). Human-readable strings that the engine builds are modelled as
  tokens that carry the values interpolated into them.
 */
module Types {

  datatype Option<+T> = None | Some(value: T)

  /** A real that is never negative (the disease focus rate). */
  type NonNegReal = r: real | r >= 0.0

  datatype InstitutionTier = Tertiary | General | Specialized | Hospital | Clinic

  datatype ConfidenceLevel = High | Medium | Low

  datatype Institution = Institution(name: string, tier: InstitutionTier)

  datatype TopPaper = TopPaper(
    title: string,
    journal: string,
    year: int,
    citations: nat,
    doi: Option<string>)

  datatype TrialRole = PrincipalInvestigator | Investigator

  datatype TrialRecord = TrialRecord(
    nctId: string,
    title: string,
    role: TrialRole,
    status: string,
    phase: Option<string>)

  datatype Academic = Academic(
    hIndex: Option<nat>,
    totalCitations: nat,
    totalPapers: nat,
    recentPapers5y: nat,
    firstAuthorCount: nat,
    lastAuthorCount: nat,
    concepts: seq<string>,
    topPapers: seq<TopPaper>)

  datatype Clinical = Clinical(
    totalTrials: nat,
    piTrialCount: nat,
    activeTrialCount: nat,
    trials: seq<TrialRecord>)

  datatype Specialization = Specialization(
    disease: string,
    diseaseSpecificPapers: nat,
    recentDiseasePapers3y: nat,
    focusRate: NonNegReal)

  /** The quality summary stored on the profile itself; the engine never reads it. */
  datatype StoredQuality = StoredQuality(
    confidenceLevel: ConfidenceLevel,
    score: real,
    warnings: seq<string>,
    lastUpdated: string)

  datatype DoctorProfile = DoctorProfile(
    openalexId: string,
    name: string,
    nameEn: Option<string>,
    institution: Institution,
    department: string,
    academic: Academic,
    clinical: Clinical,
    specialization: Option<Specialization>,
    dataQuality: StoredQuality)

  /**
    Both source files test the h-index by truthiness, so an absent h-index
    and an h-index of zero are the same: "no h-index".
   */
  predicate HasHIndex(a: Academic) {
    a.hIndex.Some? && a.hIndex.value > 0
  }

  /** An OpenAlex id counts as present when it is a non-empty string. */
  predicate HasOpenAlexId(p: DoctorProfile) {
    p.openalexId != ""
  }

  // ---------------------------------------------------------------------
  // Evaluation records
  // ---------------------------------------------------------------------

  /**
    One rationale line of a sub-score. `points` is the score before it is
    rounded, which is what the source prints.
   */
  datatype Rationale =
    | ImpactByHIndex(hIndex: nat, points: real)
    | ImpactByCitations(totalCitations: nat, points: real)
    | RecentPapers(recentPapers5y: nat, points: real)
    | AuthorLeadership(firstAuthorCount: nat, lastAuthorCount: nat, totalPapers: nat, ratio: real, points: real)
    | PiTrials(piTrialCount: nat, points: real)
    | ActiveTrials(activeTrialCount: nat)
    | NoActiveTrials
    | DiseaseFocus(disease: string, diseaseSpecificPapers: nat, focusRate: real, points: real)
    | RecentDiseasePapers(disease: string, recentDiseasePapers3y: nat)
    | NoRecentDiseasePapers(disease: string)
    | NoDiseaseData

  /** A sub-score together with its rationale. */
  datatype SubScore = SubScore(score: real, detail: Rationale)

  datatype AcademicAuthority = AcademicAuthority(
    researchImpact: real,
    recentActivity: real,
    researchLeadership: real,
    total: real,
    details: seq<Rationale>)

  datatype ClinicalInnovation = ClinicalInnovation(
    trialLeadership: real,
    activeResearch: real,
    total: real,
    details: seq<Rationale>)

  datatype DiseaseSpecialization = DiseaseSpecialization(
    focusScore: real,
    recentActivity: real,
    total: real,
    details: seq<Rationale>)

  datatype ScoreBreakdown = ScoreBreakdown(
    academicAuthority: AcademicAuthority,
    clinicalInnovation: ClinicalInnovation,
    diseaseSpecialization: DiseaseSpecialization,
    finalScore: real)

  datatype Grade = S | A | B | C | D

  /** One warning line of the quality assessment, in the order the checks run. */
  datatype QualityWarning =
    | NoOpenAlexData
    | InsufficientPapers(totalPapers: nat)
    | NoRecentPapers
    | NoClinicalTrials
    | NoHIndexData
    | NoAuthorPositions
    | NoTopPapers

  datatype EvaluationResult = EvaluationResult(
    profile: DoctorProfile,
    score: ScoreBreakdown,
    grade: Grade,
    percentile: Option<real>,
    evaluatedAt: string,
    dataQuality: ConfidenceLevel,
    warnings: seq<QualityWarning>)

  datatype QualityDetails = QualityDetails(
    hasOpenAlexData: bool,
    hasClinicalTrialsData: bool,
    minimumPapers: bool,
    recentActivity: bool,
    dataCompleteness: int)

  datatype QualityAssessment = QualityAssessment(
    score: int,
    confidenceLevel: ConfidenceLevel,
    warnings: seq<QualityWarning>,
    details: QualityDetails)

  /**
    The options of an evaluation. Only `disease` affects the score;
    `includeDetails` and `minDataQuality` are hints for callers.
   */
  datatype EvaluationOptions = EvaluationOptions(
    disease: Option<string>,
    includeDetails: Option<bool>,
    minDataQuality: Option<ConfidenceLevel>)
}
