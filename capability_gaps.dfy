/**
 * The capability-gap insight's inputs: one detail per capability assessment,
 * the maturity and quadrant, and the names of the capabilities scoring below
 * the 3.0 threshold.
 */
module CapabilityGaps {
  import opened Wrappers
  import opened Calculations
  import opened Records
  import Actions

  const GapThreshold: real := 3.0

  datatype Detail = Detail(name: string, score: real, rationale: string, isInherited: bool)

  /** One capability assessment as the insight describes it. */
  function DetailOf(a: JoinedAssessment): (d: Detail)
    ensures d.name == a.capability.name && d.isInherited == a.row.useCompanyScore
    ensures d.score == Actions.EffectiveScore(a)
    ensures a.row.useCompanyScore ==> d.rationale == TextOr(a.capability.rationale, "Company standard capability")
    ensures !a.row.useCompanyScore ==> d.rationale == TextOr(a.row.overrideRationale, "Override rationale not provided")
  {
    if a.row.useCompanyScore then
      Detail(a.capability.name, a.capability.score, TextOr(a.capability.rationale, "Company standard capability"), true)
    else
      Detail(a.capability.name, a.row.overrideScore.GetOr(0.0),
        TextOr(a.row.overrideRationale, "Override rationale not provided"), false)
  }

  function Details(assessments: seq<JoinedAssessment>): (r: seq<Detail>)
    ensures |r| == |assessments|
    ensures forall i :: 0 <= i < |r| ==> r[i] == DetailOf(assessments[i])
  {
    seq(|assessments|, i requires 0 <= i < |assessments| => DetailOf(assessments[i]))
  }

  /** `details.filter(c => c.score < 3.0).map(c => c.name)`. */
  function CriticalGaps(details: seq<Detail>): (r: seq<string>)
    ensures |r| <= |details|
  {
    if |details| == 0 then []
    else if details[0].score < GapThreshold then [details[0].name] + CriticalGaps(details[1..])
    else CriticalGaps(details[1..])
  }

  /** The gaps are the names of the details below the threshold, in order: a detail is named iff it scores below 3.0. */
  lemma {:induction false} CriticalGapsExactly(details: seq<Detail>)
    ensures forall i :: 0 <= i < |details| && details[i].score < GapThreshold ==> details[i].name in CriticalGaps(details)
    ensures forall n :: n in CriticalGaps(details) ==>
      exists i :: 0 <= i < |details| && details[i].name == n && details[i].score < GapThreshold
  {
    if |details| > 0 {
      CriticalGapsExactly(details[1..]);
      assert forall i :: 1 <= i < |details| ==> details[i] == details[1..][i - 1];
      forall n | n in CriticalGaps(details)
        ensures exists i :: 0 <= i < |details| && details[i].name == n && details[i].score < GapThreshold
      {
        if !(details[0].score < GapThreshold && n == details[0].name) {
          var i :| 0 <= i < |details[1..]| && details[1..][i].name == n && details[1..][i].score < GapThreshold;
          assert details[i + 1] == details[1..][i];
        }
      }
    }
  }

  /** Gaps of a concatenation are the gaps of each part, so the capability order is kept. */
  lemma {:induction false} CriticalGapsAppend(a: seq<Detail>, b: seq<Detail>)
    ensures CriticalGaps(a + b) == CriticalGaps(a) + CriticalGaps(b)
  {
    if |a| > 0 {
      assert (a + b)[1..] == a[1..] + b;
      CriticalGapsAppend(a[1..], b);
    } else {
      assert a + b == b;
    }
  }

  datatype GapAnalysis = GapAnalysis(details: seq<Detail>, maturity: real, quadrant: Quadrant, criticalGaps: seq<string>)

  /**
   * The analysis of a use case. There is no legacy fallback: without capability
   * assessments there are no details, maturity is 0 and nothing is a gap.
   */
  function AnalysisOf(uc: UseCaseSnapshot): (r: GapAnalysis)
    ensures r.details == Details(uc.capabilityAssessments)
    ensures r.criticalGaps == CriticalGaps(r.details)
    ensures r.quadrant == ClassifyQuadrant(r.maturity, Actions.OpportunityAverage(uc.opportunityScores))
    ensures |uc.capabilityAssessments| == 0 ==> r.maturity == 0.0 && r.criticalGaps == []
    ensures |uc.capabilityAssessments| > 0 ==> r.maturity == Actions.MaturityAverage(uc)
  {
    var details := Details(uc.capabilityAssessments);
    var maturity := if |details| > 0 then
      var scores := seq(|details|, i requires 0 <= i < |details| => details[i].score);
      assert scores == Actions.CapabilityScores(uc.capabilityAssessments);
      Sum(scores) / |scores| as real
    else 0.0;
    var opportunity := if |uc.opportunityScores| > 0 then OpportunityScore(uc.opportunityScores[0].fields.scores).overall else 0.0;
    GapAnalysis(details, maturity, ClassifyQuadrant(maturity, opportunity), CriticalGaps(details))
  }

  /** An override without a score counts as 0, so it is always a critical gap. */
  lemma UnscoredOverrideIsGap(uc: UseCaseSnapshot, i: nat)
    requires i < |uc.capabilityAssessments|
    requires !uc.capabilityAssessments[i].row.useCompanyScore && uc.capabilityAssessments[i].row.overrideScore.None?
    ensures uc.capabilityAssessments[i].capability.name in AnalysisOf(uc).criticalGaps
  {
    CriticalGapsExactly(Details(uc.capabilityAssessments));
  }

  /** A use case with only legacy assessments has maturity there, but none here. */
  lemma NoLegacyFallback(uc: UseCaseSnapshot)
    requires |uc.capabilityAssessments| == 0 && |uc.maturityAssessments| > 0
    requires forall i :: 0 <= i < |uc.maturityAssessments| ==> uc.maturityAssessments[i].row.score > 0.0
    ensures Actions.MaturityAverage(uc) > 0.0 && AnalysisOf(uc).maturity == 0.0
  {
    var scores := Actions.LegacyScores(uc.maturityAssessments);
    assert MinOf(scores) in scores;
  }

  datatype Response = BadRequest(error: string) | NotFound(error: string) | Analysis(analysis: GapAnalysis)

  /** 400 without a use case id, 404 when it names no use case, otherwise the gap analysis. */
  function Analyze(useCaseId: Option<string>, found: Option<UseCaseSnapshot>): (r: Response)
    ensures !TruthyText(useCaseId) <==> r.BadRequest?
    ensures r.NotFound? <==> TruthyText(useCaseId) && found.None?
    ensures r.Analysis? ==> r.analysis == AnalysisOf(found.value)
  {
    if !TruthyText(useCaseId) then BadRequest("useCaseId is required")
    else if found.None? then NotFound("Use case not found")
    else Analysis(AnalysisOf(found.value))
  }
}
