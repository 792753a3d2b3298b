/**
 * The use-case characteristics the vertical-fit insight is built from: the
 * maturity average, the opportunity composite and quadrant, and the privacy
 * and latency tiers read back from their stored scores.
 */
module VerticalFit {
  import opened Wrappers
  import opened Calculations
  import opened Records
  import Actions

  const NotSpecified: string := "Not specified"

  /**
   * The route's maturity: the capability system's scores when it has any row,
   * else the legacy scores, else 0; each as a sum over a count.
   */
  function Maturity(uc: UseCaseSnapshot): real {
    if |uc.capabilityAssessments| > 0 then
      var scores := Actions.CapabilityScores(uc.capabilityAssessments);
      Sum(scores) / |scores| as real
    else if |uc.maturityAssessments| > 0 then
      var scores := Actions.LegacyScores(uc.maturityAssessments);
      Sum(scores) / |scores| as real
    else 0.0
  }

  /** The route and the prioritization matrix agree on every use case's maturity. */
  lemma MaturityAgreesWithMatrix(uc: UseCaseSnapshot)
    ensures Maturity(uc) == Actions.MaturityAverage(uc)
  {
  }

  /** A stored privacy score read back as a risk level: 4 and up low, 2 and up medium, 1 and up high. */
  function PrivacyLevel(score: int): string {
    if score >= 4 then "low"
    else if score >= 2 then "medium"
    else if score >= 1 then "high"
    else NotSpecified
  }

  /** A stored latency score read back as a requirement, with its time scale spelled out. */
  function LatencyLevel(score: int): string {
    if score >= 4 then "real-time (<100ms)"
    else if score >= 2 then "near-real-time (<1s)"
    else if score >= 1 then "batch (hours)"
    else NotSpecified
  }

  /** Reading back the score of a privacy tier gives the tier; an unknown tier's score reads as unspecified. */
  lemma PrivacyRoundTrip(level: string)
    ensures level in {"low", "medium", "high"} ==> PrivacyLevel(PrivacyRiskScore(level)) == level
    ensures level !in {"low", "medium", "high"} ==> PrivacyLevel(PrivacyRiskScore(level)) == NotSpecified
  {
  }

  /** Reading back the score of a latency tier gives a label that starts with the tier. */
  lemma LatencyRoundTrip(requirement: string)
    ensures requirement in {"real-time", "near-real-time", "batch"} ==>
      requirement + " (" <= LatencyLevel(LatencyScore(requirement))
    ensures requirement !in {"real-time", "near-real-time", "batch"} ==>
      LatencyLevel(LatencyScore(requirement)) == NotSpecified
  {
  }

  datatype Characteristics = Characteristics(
    maturity: real,
    opportunity: real,
    quadrant: Quadrant,
    privacyRiskLevel: string,
    latencyRequirement: string,
    dataSourceDepends: string)

  /**
   * The characteristics of a use case, from its latest opportunity record
   * (the first in query order) when it has one. Data-source dependencies
   * are never read back.
   */
  function CharacteristicsOf(uc: UseCaseSnapshot): (c: Characteristics)
    ensures c.maturity == Actions.MaturityAverage(uc)
    ensures c.opportunity == Actions.OpportunityAverage(uc.opportunityScores)
    ensures c.quadrant == ClassifyQuadrant(c.maturity, c.opportunity)
    ensures c.dataSourceDepends == NotSpecified
    ensures |uc.opportunityScores| == 0 ==>
      c.opportunity == 0.0 && c.privacyRiskLevel == NotSpecified && c.latencyRequirement == NotSpecified
  {
    var maturity := Maturity(uc);
    MaturityAgreesWithMatrix(uc);
    if |uc.opportunityScores| > 0 then
      var scores := uc.opportunityScores[0].fields.scores;
      var opportunity := OpportunityScore(scores).overall;
      Characteristics(
        maturity, opportunity, ClassifyQuadrant(maturity, opportunity),
        PrivacyLevel(scores.privacyRiskScore.GetOr(0)), LatencyLevel(scores.latencyScore.GetOr(0)), NotSpecified)
    else
      Characteristics(maturity, 0.0, ClassifyQuadrant(maturity, 0.0), NotSpecified, NotSpecified, NotSpecified)
  }

  /** A record whose tiers were scored by the opportunity form reads its tiers back. */
  lemma StoredTiersReadBack(uc: UseCaseSnapshot, privacy: string, latency: string)
    requires |uc.opportunityScores| > 0
    requires privacy in {"low", "medium", "high"} && latency in {"real-time", "near-real-time", "batch"}
    requires uc.opportunityScores[0].fields.scores.privacyRiskScore == Some(PrivacyRiskScore(privacy))
    requires uc.opportunityScores[0].fields.scores.latencyScore == Some(LatencyScore(latency))
    ensures CharacteristicsOf(uc).privacyRiskLevel == privacy
    ensures latency + " (" <= CharacteristicsOf(uc).latencyRequirement
  {
    PrivacyRoundTrip(privacy);
    LatencyRoundTrip(latency);
  }

  datatype Response = BadRequest(error: string) | NotFound(error: string) | Analysis(characteristics: Characteristics)

  /** 400 without a use case id, 404 when it names no use case, otherwise the characteristics. */
  function Analyze(useCaseId: Option<string>, found: Option<UseCaseSnapshot>): (r: Response)
    ensures !TruthyText(useCaseId) <==> r.BadRequest?
    ensures r.NotFound? <==> TruthyText(useCaseId) && found.None?
    ensures r.Analysis? ==> r.characteristics == CharacteristicsOf(found.value)
  {
    if !TruthyText(useCaseId) then BadRequest("useCaseId is required")
    else if found.None? then NotFound("Use case not found")
    else Analysis(CharacteristicsOf(found.value))
  }
}
