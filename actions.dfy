/**
 * The server actions that score use cases: capability inherit/override
 * resolution with the legacy pillar fallback, the maturity and opportunity
 * summaries, the prioritization-matrix aggregation and filter, the list and
 * detail scores, and the update of a company capability's baseline.
 */
module Actions {
  import opened Wrappers
  import opened Calculations
  import opened Records
  import Lists

  // ---------------------------------------------------------------------
  // Capability resolution
  // ---------------------------------------------------------------------

  /** An inheriting assessment takes its capability's score as joined at query time; an override its own score, null read as 0. */
  function EffectiveScore(a: JoinedAssessment): real {
    if a.row.useCompanyScore then a.capability.score else a.row.overrideScore.GetOr(0.0)
  }

  function CapabilityScores(assessments: seq<JoinedAssessment>): (r: seq<real>)
    ensures |r| == |assessments|
    ensures forall i :: 0 <= i < |r| ==> r[i] == EffectiveScore(assessments[i])
  {
    seq(|assessments|, i requires 0 <= i < |assessments| => EffectiveScore(assessments[i]))
  }

  function LegacyScores(assessments: seq<JoinedLegacyAssessment>): (r: seq<real>)
    ensures |r| == |assessments|
    ensures forall i :: 0 <= i < |r| ==> r[i] == assessments[i].row.score
  {
    seq(|assessments|, i requires 0 <= i < |assessments| => assessments[i].row.score)
  }

  /** Use-case maturity: the capability system when it has any row, otherwise the legacy pillar average. */
  function MaturityAverage(uc: UseCaseSnapshot): real {
    if |uc.capabilityAssessments| > 0 then Mean(CapabilityScores(uc.capabilityAssessments))
    else Mean(LegacyScores(uc.maturityAssessments))
  }

  /** Once a use case has a capability assessment, its legacy pillar scores no longer matter. */
  lemma CapabilitySystemTakesPrecedence(uc: UseCaseSnapshot, legacy: seq<JoinedLegacyAssessment>)
    requires |uc.capabilityAssessments| > 0
    ensures MaturityAverage(uc.(maturityAssessments := legacy)) == MaturityAverage(uc)
    ensures MaturityAverage(uc) == Mean(CapabilityScores(uc.capabilityAssessments))
  {
  }

  /** Without capability assessments the legacy average is used, and a use case with neither scores 0. */
  lemma LegacyFallback(uc: UseCaseSnapshot)
    requires |uc.capabilityAssessments| == 0
    ensures MaturityAverage(uc) == Mean(LegacyScores(uc.maturityAssessments))
    ensures |uc.maturityAssessments| == 0 ==> MaturityAverage(uc) == 0.0
  {
  }

  /** Effective scores within [lo, hi] keep maturity within [lo, hi] whenever it is scored. */
  lemma MaturityWithin(uc: UseCaseSnapshot, lo: real, hi: real)
    requires |uc.capabilityAssessments| > 0
    requires forall i :: 0 <= i < |uc.capabilityAssessments| ==> lo <= EffectiveScore(uc.capabilityAssessments[i]) <= hi
    ensures lo <= MaturityAverage(uc) <= hi
  {
    MeanWithin(CapabilityScores(uc.capabilityAssessments), lo, hi);
  }

  // ---------------------------------------------------------------------
  // Maturity summary
  // ---------------------------------------------------------------------

  datatype AssessmentDetail = AssessmentDetail(pillarName: string, score: real, rationale: string)

  datatype MaturitySummary = MaturitySummary(averageScore: real, assessmentDetails: seq<AssessmentDetail>)

  function InheritedRationale(c: Capability): string {
    "Inherited from company (" + TextOr(c.rationale, "N/A") + ")"
  }

  /** One line of the maturity breakdown for a capability assessment. */
  function CapabilityDetail(a: JoinedAssessment): (d: AssessmentDetail)
    ensures d.pillarName == a.capability.name && d.score == EffectiveScore(a)
    ensures a.row.useCompanyScore ==> d.rationale == InheritedRationale(a.capability)
    ensures !a.row.useCompanyScore ==> d.rationale == TextOr(a.row.overrideRationale, "N/A")
  {
    AssessmentDetail(
      a.capability.name,
      EffectiveScore(a),
      if a.row.useCompanyScore then InheritedRationale(a.capability) else TextOr(a.row.overrideRationale, "N/A"))
  }

  /** One line of the maturity breakdown for a legacy pillar assessment. */
  function LegacyDetail(a: JoinedLegacyAssessment): AssessmentDetail {
    AssessmentDetail(a.pillarName, a.row.score, TextOr(a.row.rationale, "N/A"))
  }

  function DetailScores(details: seq<AssessmentDetail>): (r: seq<real>)
    ensures |r| == |details|
    ensures forall i :: 0 <= i < |r| ==> r[i] == details[i].score
  {
    seq(|details|, i requires 0 <= i < |details| => details[i].score)
  }

  /**
   * The maturity summary: one detail per assessment of the system in use, in
   * input order, and an average that is the mean of the details' scores.
   */
  function MaturitySummaryOf(uc: UseCaseSnapshot): (r: MaturitySummary)
    ensures r.averageScore == MaturityAverage(uc)
    ensures r.averageScore == Mean(DetailScores(r.assessmentDetails))
    ensures |uc.capabilityAssessments| > 0 ==>
      |r.assessmentDetails| == |uc.capabilityAssessments| &&
      forall i :: 0 <= i < |r.assessmentDetails| ==> r.assessmentDetails[i] == CapabilityDetail(uc.capabilityAssessments[i])
    ensures |uc.capabilityAssessments| == 0 ==>
      |r.assessmentDetails| == |uc.maturityAssessments| &&
      forall i :: 0 <= i < |r.assessmentDetails| ==> r.assessmentDetails[i] == LegacyDetail(uc.maturityAssessments[i])
  {
    if |uc.capabilityAssessments| > 0 then
      var cs := uc.capabilityAssessments;
      var details := seq(|cs|, i requires 0 <= i < |cs| => CapabilityDetail(cs[i]));
      assert DetailScores(details) == CapabilityScores(cs);
      MaturitySummary(MaturityAverage(uc), details)
    else
      var ls := uc.maturityAssessments;
      var details := seq(|ls|, i requires 0 <= i < |ls| => LegacyDetail(ls[i]));
      assert DetailScores(details) == LegacyScores(ls);
      MaturitySummary(MaturityAverage(uc), details)
  }

  // ---------------------------------------------------------------------
  // Opportunity summary
  // ---------------------------------------------------------------------

  datatype RawScores = RawScores(
    arrScore: real, pipelineScore: real, velocityScore: real, winRateScore: real, strategicFitScore: real,
    matchRateScore: real, latencyScore: real, privacyRiskScore: real, dataSourceScore: real, scaleScore: real)

  datatype OpportunitySummary = OpportunitySummary(
    averageScore: real, businessScore: real, productScore: real, rawScores: RawScores)

  function RawBusiness(raw: RawScores): seq<real> {
    [raw.arrScore, raw.pipelineScore, raw.velocityScore, raw.winRateScore, raw.strategicFitScore]
  }

  function RawProduct(raw: RawScores): seq<real> {
    [raw.matchRateScore, raw.latencyScore, raw.privacyRiskScore, raw.dataSourceScore, raw.scaleScore]
  }

  const ZeroRawScores := RawScores(0.0, 0.0, 0.0, 0.0, 0.0, 0.0, 0.0, 0.0, 0.0, 0.0)

  /** The summary of a use case without an opportunity record. */
  const ZeroOpportunitySummary := OpportunitySummary(0.0, 0.0, 0.0, ZeroRawScores)

  function RawScoresOf(s: ScoreFields): (raw: RawScores)
    ensures RawBusiness(raw) == BusinessScores(s) && RawProduct(raw) == ProductScores(s)
  {
    RawScores(
      OrZero(s.arrScore), OrZero(s.pipelineScore), OrZero(s.velocityScore), OrZero(s.winRateScore),
      OrZero(s.strategicFitScore), OrZero(s.matchRateScore), OrZero(s.latencyScore),
      OrZero(s.privacyRiskScore), OrZero(s.dataSourceScore), OrZero(s.scaleScore))
  }

  /** Opportunity of a use case: the composite of its first opportunity record, or 0 without one. */
  function OpportunityAverage(opps: seq<OpportunityRecord>): real {
    if |opps| > 0 then OpportunityScore(opps[0].fields.scores).overall else 0.0
  }

  /**
   * The opportunity summary: all zeros without a record; otherwise the first
   * record's composite, with raw scores (null read as 0) whose weighted mean the
   * average is.
   */
  function OpportunitySummaryOf(opps: seq<OpportunityRecord>): (r: OpportunitySummary)
    ensures |opps| == 0 ==> r == ZeroOpportunitySummary
    ensures |opps| > 0 ==> r.rawScores == RawScoresOf(opps[0].fields.scores)
    ensures r.averageScore == r.businessScore == OpportunityAverage(opps)
    ensures MinOf(RawBusiness(r.rawScores)) <= r.averageScore <= MaxOf(RawBusiness(r.rawScores))
    ensures MinOf(RawProduct(r.rawScores)) <= r.productScore <= MaxOf(RawProduct(r.rawScores))
  {
    if |opps| == 0 then
      var z := RawBusiness(ZeroRawScores);
      assert MinOf(z) in z && MaxOf(z) in z;
      ZeroOpportunitySummary
    else
      var s := opps[0].fields.scores;
      var o := OpportunityScore(s);
      OpportunitySummary(o.overall, o.businessMetrics, o.productMetrics, RawScoresOf(s))
  }

  // ---------------------------------------------------------------------
  // Prioritization matrix
  // ---------------------------------------------------------------------

  datatype PlotPoint = PlotPoint(
    id: string,
    name: string,
    status: string,
    categories: seq<string>,
    maturityScore: MaturitySummary,
    opportunityScore: OpportunitySummary,
    quadrant: Quadrant)

  /** A use case's plotted point, classified from its two averages. */
  function PlotPointOf(uc: UseCaseSnapshot): (p: PlotPoint)
    ensures p.id == uc.id && p.name == uc.name && p.status == uc.status && p.categories == uc.categories
    ensures p.maturityScore.averageScore == MaturityAverage(uc)
    ensures p.opportunityScore.averageScore == OpportunityAverage(uc.opportunityScores)
    ensures p.quadrant == ClassifyQuadrant(p.maturityScore.averageScore, p.opportunityScore.averageScore)
  {
    var m := MaturitySummaryOf(uc);
    var o := OpportunitySummaryOf(uc.opportunityScores);
    PlotPoint(uc.id, uc.name, uc.status, uc.categories, m, o, ClassifyQuadrant(m.averageScore, o.averageScore))
  }

  /** Both averages strictly positive: enough data to be plotted. */
  predicate Plottable(p: PlotPoint) {
    p.maturityScore.averageScore > 0.0 && p.opportunityScore.averageScore > 0.0
  }

  function PlotPoints(useCases: seq<UseCaseSnapshot>): (r: seq<PlotPoint>)
    ensures |r| == |useCases|
    ensures forall i :: 0 <= i < |r| ==> r[i] == PlotPointOf(useCases[i])
  {
    Lists.Map(PlotPointOf, useCases)
  }

  /** `.filter(p => maturity > 0 && opportunity > 0)`. */
  function KeepPlottable(points: seq<PlotPoint>): (r: seq<PlotPoint>)
    ensures |r| <= |points|
  {
    if |points| == 0 then []
    else if Plottable(points[0]) then [points[0]] + KeepPlottable(points[1..])
    else KeepPlottable(points[1..])
  }

  lemma {:induction false} KeepPlottableMember(points: seq<PlotPoint>, p: PlotPoint)
    ensures p in KeepPlottable(points) <==> p in points && Plottable(p)
  {
    if |points| > 0 {
      KeepPlottableMember(points[1..], p);
      assert points == [points[0]] + points[1..];
    }
  }

  lemma {:induction false} KeepPlottableAppend(a: seq<PlotPoint>, b: seq<PlotPoint>)
    ensures KeepPlottable(a + b) == KeepPlottable(a) + KeepPlottable(b)
  {
    if |a| > 0 {
      assert (a + b)[1..] == a[1..] + b;
      KeepPlottableAppend(a[1..], b);
    } else {
      assert a + b == b;
    }
  }

  /** `getPrioritizationMatrixData`: the plot points of the use cases with both scores positive. */
  function MatrixData(useCases: seq<UseCaseSnapshot>): (r: seq<PlotPoint>)
    ensures |r| <= |useCases|
    ensures forall p :: p in r ==> Plottable(p) && exists j :: 0 <= j < |useCases| && p == PlotPointOf(useCases[j])
    ensures forall j :: 0 <= j < |useCases| ==> (PlotPointOf(useCases[j]) in r <==> Plottable(PlotPointOf(useCases[j])))
  {
    MatrixDataSound(useCases);
    MatrixDataComplete(useCases);
    KeepPlottable(PlotPoints(useCases))
  }

  lemma MatrixDataSound(useCases: seq<UseCaseSnapshot>)
    ensures forall p :: p in KeepPlottable(PlotPoints(useCases)) ==>
      Plottable(p) && exists j :: 0 <= j < |useCases| && p == PlotPointOf(useCases[j])
  {
    var points := PlotPoints(useCases);
    forall p | p in KeepPlottable(points)
      ensures Plottable(p) && exists j :: 0 <= j < |useCases| && p == PlotPointOf(useCases[j])
    {
      KeepPlottableMember(points, p);
      var j :| 0 <= j < |points| && points[j] == p;
    }
  }

  lemma MatrixDataComplete(useCases: seq<UseCaseSnapshot>)
    ensures forall j :: 0 <= j < |useCases| ==>
      (PlotPointOf(useCases[j]) in KeepPlottable(PlotPoints(useCases)) <==> Plottable(PlotPointOf(useCases[j])))
  {
    var points := PlotPoints(useCases);
    forall j | 0 <= j < |useCases|
      ensures PlotPointOf(useCases[j]) in KeepPlottable(points) <==> Plottable(PlotPointOf(useCases[j]))
    {
      KeepPlottableMember(points, PlotPointOf(useCases[j]));
      assert points[j] == PlotPointOf(useCases[j]);
    }
  }

  /** The matrix keeps input order: it distributes over concatenation of the use-case list. */
  lemma MatrixDataAppend(a: seq<UseCaseSnapshot>, b: seq<UseCaseSnapshot>)
    ensures MatrixData(a + b) == MatrixData(a) + MatrixData(b)
  {
    Lists.MapAppend(PlotPointOf, a, b);
    KeepPlottableAppend(PlotPoints(a), PlotPoints(b));
  }

  /** A use case without opportunity record, or without any maturity score, is never plotted. */
  lemma UnscoredUseCaseNotPlotted(useCases: seq<UseCaseSnapshot>, uc: UseCaseSnapshot)
    requires |uc.opportunityScores| == 0 || (|uc.capabilityAssessments| == 0 && |uc.maturityAssessments| == 0)
    ensures PlotPointOf(uc) !in MatrixData(useCases)
  {
    assert !Plottable(PlotPointOf(uc));
    KeepPlottableMember(PlotPoints(useCases), PlotPointOf(uc));
  }

  // ---------------------------------------------------------------------
  // List and detail scores
  // ---------------------------------------------------------------------

  datatype UseCaseScores = UseCaseScores(maturity: real, opportunity: real, quadrant: Quadrant)

  /** The scores `getUseCaseById` and each row of `getUseCasesForList` carry. */
  function ScoresOf(uc: UseCaseSnapshot): (s: UseCaseScores)
    ensures s.quadrant == ClassifyQuadrant(s.maturity, s.opportunity)
  {
    var m := MaturityAverage(uc);
    var o := OpportunityAverage(uc.opportunityScores);
    UseCaseScores(m, o, ClassifyQuadrant(m, o))
  }

  datatype ListRow = ListRow(id: string, name: string, status: string, categories: seq<string>, scores: UseCaseScores)

  /** `getUseCasesForList`: one row per use case, in order; nothing is filtered. */
  function UseCasesForList(useCases: seq<UseCaseSnapshot>): (r: seq<ListRow>)
    ensures |r| == |useCases|
    ensures forall i :: 0 <= i < |r| ==> r[i].id == useCases[i].id && r[i].scores == ScoresOf(useCases[i])
  {
    seq(|useCases|, i requires 0 <= i < |useCases| =>
      var uc := useCases[i];
      ListRow(uc.id, uc.name, uc.status, uc.categories, ScoresOf(uc)))
  }

  /** The list shows a use case with no scores as 0 / 0 / DEPRIORITIZE. */
  lemma UnscoredListedAsDeprioritized(uc: UseCaseSnapshot)
    requires |uc.capabilityAssessments| == 0 && |uc.maturityAssessments| == 0 && |uc.opportunityScores| == 0
    ensures ScoresOf(uc) == UseCaseScores(0.0, 0.0, Deprioritize)
  {
  }

  /**
   * The list and the detail page read a use case's newest opportunity record,
   * while the matrix query leaves the records unordered: `matrixRecords` is the
   * same records in whatever order the matrix receives them. Maturity always
   * agrees; opportunity and quadrant agree when the use case has at most one
   * record, which is what every save through the opportunity route leaves.
   */
  lemma ListAgreesWithMatrix(uc: UseCaseSnapshot, matrixRecords: seq<OpportunityRecord>)
    requires multiset(matrixRecords) == multiset(uc.opportunityScores)
    ensures var p := PlotPointOf(uc.(opportunityScores := matrixRecords));
      ScoresOf(uc).maturity == p.maturityScore.averageScore &&
      (|uc.opportunityScores| <= 1 ==>
         ScoresOf(uc).opportunity == p.opportunityScore.averageScore && ScoresOf(uc).quadrant == p.quadrant)
  {
    assert |matrixRecords| == |multiset(matrixRecords)| == |uc.opportunityScores|;
    if |uc.opportunityScores| == 1 {
      assert matrixRecords[0] in multiset(uc.opportunityScores);
      assert uc.opportunityScores == [uc.opportunityScores[0]];
    }
  }

  /** A record scored on annual recurring revenue alone. */
  function ArrScoredRecord(arrScore: int): OpportunityRecord {
    OpportunityRecord("u", OpportunityFields(None, None, None, None, None, None, None, None, None, None,
      ScoreFields(Some(arrScore), None, None, None, None, None, None, None, None, None)))
  }

  /** The opportunity read from two such records is the first one's weighted revenue score. */
  lemma ArrScoredAverage(first: int, second: int)
    ensures OpportunityAverage([ArrScoredRecord(first), ArrScoredRecord(second)]) == first as real * ArrWeight
  {
    assert BusinessScores(ArrScoredRecord(first).fields.scores) == [first as real, 0.0, 0.0, 0.0, 0.0];
  }

  /**
   * With two records the unordered matrix query can plot the older one: the
   * list reads the newest record first and shows its opportunity, while the
   * matrix, given the same records in the other order, shows another.
   */
  lemma MatrixMayPlotOlderRecord()
    ensures var newer, older := ArrScoredRecord(5), ArrScoredRecord(1);
            multiset([older, newer]) == multiset([newer, older]) &&
            OpportunityAverage([newer, older]) == 1.5 &&
            OpportunityAverage([older, newer]) == 0.3
  {
    ArrScoredAverage(5, 1);
    ArrScoredAverage(1, 5);
  }

  // ---------------------------------------------------------------------
  // Company capability baseline table
  // ---------------------------------------------------------------------

  /** The capabilities with the one whose id matches given the new score and `rationale || null`. */
  function UpdatedCapabilities(caps: seq<Capability>, id: string, score: real, rationale: Option<string>): (r: seq<Capability>)
    ensures |r| == |caps|
    ensures forall i :: 0 <= i < |r| ==> r[i].id == caps[i].id && r[i].name == caps[i].name
    ensures forall i :: 0 <= i < |r| && caps[i].id != id ==> r[i] == caps[i]
    ensures forall i :: 0 <= i < |r| && caps[i].id == id ==> r[i].score == score && r[i].rationale == TextOrNull(rationale)
  {
    seq(|caps|, i requires 0 <= i < |caps| =>
      if caps[i].id == id then caps[i].(score := score, rationale := TextOrNull(rationale)) else caps[i])
  }

  class CapabilityTable {
    var rows: seq<Capability>

    ghost predicate Valid()
      reads this
    {
      UniqueCapabilityIds(rows)
    }

    constructor (initial: seq<Capability>)
      requires UniqueCapabilityIds(initial)
      ensures Valid() && rows == initial
    {
      rows := initial;
    }

    /**
     * `updateCompanyCapability`: stores the score verbatim and an empty rationale as
     * null; an unknown id is refused (the database update finds no record).
     */
    method UpdateCompanyCapability(id: string, score: real, rationale: Option<string>) returns (found: bool)
      requires Valid()
      modifies this
      ensures Valid()
      ensures found <==> FindCapability(old(rows), id).Some?
      ensures rows == UpdatedCapabilities(old(rows), id, score, rationale)
    {
      found := FindCapability(rows, id).Some?;
      rows := UpdatedCapabilities(rows, id, score, rationale);
    }
  }

  /**
   * Resolution reads the live capability row: after an update of capability `id`,
   * every assessment inheriting it resolves to the new score, and every other
   * assessment (overrides included) resolves as before.
   */
  lemma InheritingAssessmentsFollowBaseline(
    rows: seq<CapabilityAssessmentRow>, caps: seq<Capability>, id: string, score: real, rationale: Option<string>)
    requires forall i :: 0 <= i < |rows| ==> FindCapability(caps, rows[i].capabilityId).Some?
    ensures var before := JoinCapabilities(rows, caps);
            var after := JoinCapabilities(rows, UpdatedCapabilities(caps, id, score, rationale));
            |before| == |after| == |rows| &&
            (forall i :: 0 <= i < |rows| && rows[i].useCompanyScore && rows[i].capabilityId == id ==>
               EffectiveScore(after[i]) == score) &&
            (forall i :: 0 <= i < |rows| && !(rows[i].useCompanyScore && rows[i].capabilityId == id) ==>
               EffectiveScore(after[i]) == EffectiveScore(before[i]))
  {
    var updated := UpdatedCapabilities(caps, id, score, rationale);
    forall k | 0 <= k < |rows|
      ensures FindCapability(updated, rows[k].capabilityId).Some?
      ensures rows[k].capabilityId == id ==> FindCapability(updated, rows[k].capabilityId).value.score == score
      ensures rows[k].capabilityId != id ==>
        FindCapability(updated, rows[k].capabilityId) == FindCapability(caps, rows[k].capabilityId)
    {
      FindInUpdated(caps, id, score, rationale, rows[k].capabilityId);
    }
  }

  lemma {:induction false} FindInUpdated(caps: seq<Capability>, id: string, score: real, rationale: Option<string>, key: string)
    ensures var found := FindCapability(UpdatedCapabilities(caps, id, score, rationale), key);
            found.Some? == FindCapability(caps, key).Some? &&
            (key != id ==> found == FindCapability(caps, key)) &&
            (key == id && found.Some? ==> found.value.score == score)
  {
    if |caps| > 0 {
      var u := UpdatedCapabilities(caps, id, score, rationale);
      assert u[1..] == UpdatedCapabilities(caps[1..], id, score, rationale);
      FindInUpdated(caps[1..], id, score, rationale, key);
    }
  }
}
