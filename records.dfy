/**
 * The rows of the application's tables and the use-case snapshots that its
 * queries return (a use case with its joined capability assessments, legacy
 * pillar assessments and opportunity records, in query order).
 */
module Records {
  import opened Wrappers
  import opened Calculations

  /** A company-wide capability: the baseline score every use case inherits by default. */
  datatype Capability = Capability(id: string, name: string, score: real, rationale: Option<string>)

  /** A use case's assessment of one capability: inherit the baseline, or override it. */
  datatype CapabilityAssessmentRow = CapabilityAssessmentRow(
    useCaseId: string,
    capabilityId: string,
    useCompanyScore: bool,
    overrideScore: Option<real>,
    overrideRationale: Option<string>)

  /** A legacy maturity assessment of one capability pillar. */
  datatype LegacyAssessmentRow = LegacyAssessmentRow(
    useCaseId: string, pillarId: string, score: real, rationale: Option<string>)

  /** Everything an opportunity record stores besides its use case. */
  datatype OpportunityFields = OpportunityFields(
    arrRaw: Option<real>,
    pipelineRaw: Option<real>,
    velocityRaw: Option<real>,
    winRateRaw: Option<real>,
    matchRateImpact: Option<real>,
    latencyRequirement: Option<string>,
    privacyRiskLevel: Option<string>,
    dataSourceDepends: Option<string>,
    scaleRequirement: Option<string>,
    sourceNotes: Option<string>,
    scores: ScoreFields)

  datatype OpportunityRecord = OpportunityRecord(useCaseId: string, fields: OpportunityFields)

  /** A capability assessment with its capability row joined in, as the queries include it. */
  datatype JoinedAssessment = JoinedAssessment(row: CapabilityAssessmentRow, capability: Capability)

  /** A legacy assessment with the name of its pillar joined in. */
  datatype JoinedLegacyAssessment = JoinedLegacyAssessment(row: LegacyAssessmentRow, pillarName: string)

  /** A use case as a query returns it, with its related rows in query order. */
  datatype UseCaseSnapshot = UseCaseSnapshot(
    id: string,
    name: string,
    status: string,
    categories: seq<string>,
    capabilityAssessments: seq<JoinedAssessment>,
    maturityAssessments: seq<JoinedLegacyAssessment>,
    opportunityScores: seq<OpportunityRecord>)

  /** JavaScript truthiness of an optional string: present and not empty. */
  predicate TruthyText(s: Option<string>) {
    s.Some? && s.value != ""
  }

  /** `s || fallback` for an optional string. */
  function TextOr(s: Option<string>, fallback: string): (r: string)
    ensures TruthyText(s) ==> r == s.value
    ensures !TruthyText(s) ==> r == fallback
  {
    if TruthyText(s) then s.value else fallback
  }

  /** `s || null` for an optional string: the empty string is stored as null. */
  function TextOrNull(s: Option<string>): (r: Option<string>)
    ensures r.None? <==> !TruthyText(s)
    ensures r.Some? ==> r == s
  {
    if TruthyText(s) then s else None
  }

  predicate UniqueCapabilityIds(caps: seq<Capability>) {
    forall i, j :: 0 <= i < j < |caps| ==> caps[i].id != caps[j].id
  }

  /** The first capability with the given id (`capabilities.find(c => c.id === id)`). */
  function FindCapability(caps: seq<Capability>, id: string): (r: Option<Capability>)
    ensures r.None? <==> forall i :: 0 <= i < |caps| ==> caps[i].id != id
    ensures r.Some? ==> r.value in caps && r.value.id == id
  {
    if |caps| == 0 then None
    else if caps[0].id == id then Some(caps[0])
    else FindCapability(caps[1..], id)
  }

  /** The first capability with the given name (`capabilities.find(c => c.name === name)`). */
  function FindCapabilityByName(caps: seq<Capability>, name: string): (r: Option<Capability>)
    ensures r.None? <==> forall i :: 0 <= i < |caps| ==> caps[i].name != name
    ensures r.Some? ==> r.value in caps && r.value.name == name
  {
    if |caps| == 0 then None
    else if caps[0].name == name then Some(caps[0])
    else FindCapabilityByName(caps[1..], name)
  }

  lemma {:induction false} FindUniqueCapability(caps: seq<Capability>, k: nat)
    requires UniqueCapabilityIds(caps) && k < |caps|
    ensures FindCapability(caps, caps[k].id) == Some(caps[k])
  {
    if k > 0 {
      assert caps[1..][k - 1] == caps[k];
      FindUniqueCapability(caps[1..], k - 1);
    }
  }

  /**
   * The join a query performs: each assessment row paired with its capability row,
   * in row order. The foreign key guarantees the capability exists; a row whose
   * capability is missing has no joined counterpart.
   */
  function JoinCapabilities(rows: seq<CapabilityAssessmentRow>, caps: seq<Capability>): (r: seq<JoinedAssessment>)
    ensures |r| <= |rows|
    ensures (forall i :: 0 <= i < |rows| ==> FindCapability(caps, rows[i].capabilityId).Some?) ==>
      |r| == |rows| &&
      forall i :: 0 <= i < |rows| ==> r[i] == JoinedAssessment(rows[i], FindCapability(caps, rows[i].capabilityId).value)
  {
    if |rows| == 0 then []
    else
      var rest := JoinCapabilities(rows[1..], caps);
      assert forall i :: 1 <= i < |rows| ==> rows[i] == rows[1..][i - 1];
      match FindCapability(caps, rows[0].capabilityId)
      case Some(c) => [JoinedAssessment(rows[0], c)] + rest
      case None => rest
  }
}
