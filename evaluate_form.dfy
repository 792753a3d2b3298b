/**
 * The use-case evaluation form: one capability state per company capability
 * (inherit the baseline, or override it with a score and a rationale), the
 * opportunity inputs, the live maturity and quadrant preview, the three edit
 * handlers, and the submit step that builds the two request bodies.
 */
module EvaluateForm {
  import opened Wrappers
  import Text
  import opened Calculations
  import opened Records
  import Actions
  import MaturityRoute
  import OpportunityRoute

  datatype CapabilityState = CapabilityState(
    capabilityId: string, useCompanyScore: bool, overrideScore: real, overrideRationale: string)

  /** The state every capability starts from and is reset to. */
  function DefaultState(capabilityId: string): CapabilityState {
    CapabilityState(capabilityId, true, 3.0, "")
  }

  function DefaultStates(caps: seq<Capability>): (r: seq<CapabilityState>)
    ensures |r| == |caps|
    ensures forall i :: 0 <= i < |caps| ==> r[i] == DefaultState(caps[i].id)
  {
    seq(|caps|, i requires 0 <= i < |caps| => DefaultState(caps[i].id))
  }

  /** The last fetched row for a capability: building a Map from the rows lets later rows overwrite earlier ones. */
  function LastFetched(fetched: seq<CapabilityAssessmentRow>, capabilityId: string): (r: Option<CapabilityAssessmentRow>)
    ensures r.None? <==> forall i :: 0 <= i < |fetched| ==> fetched[i].capabilityId != capabilityId
    ensures r.Some? ==> r.value.capabilityId == capabilityId
    ensures r.Some? ==> exists i :: 0 <= i < |fetched| && fetched[i] == r.value &&
                                    forall j :: i < j < |fetched| ==> fetched[j].capabilityId != capabilityId
  {
    if |fetched| == 0 then None
    else
      var last := fetched[|fetched| - 1];
      var init := fetched[..|fetched| - 1];
      if last.capabilityId == capabilityId then Some(last)
      else
        var r := LastFetched(init, capabilityId);
        LastFetchedSkipsLast(fetched, capabilityId, r);
        r
  }

  /** Dropping a last row of another capability keeps the answer valid. */
  lemma LastFetchedSkipsLast(fetched: seq<CapabilityAssessmentRow>, capabilityId: string, r: Option<CapabilityAssessmentRow>)
    requires |fetched| > 0 && fetched[|fetched| - 1].capabilityId != capabilityId
    requires var init := fetched[..|fetched| - 1];
      (r.None? <==> forall i :: 0 <= i < |init| ==> init[i].capabilityId != capabilityId) &&
      (r.Some? ==> r.value.capabilityId == capabilityId) &&
      (r.Some? ==> exists i :: 0 <= i < |init| && init[i] == r.value &&
                              forall j :: i < j < |init| ==> init[j].capabilityId != capabilityId)
    ensures r.None? <==> forall i :: 0 <= i < |fetched| ==> fetched[i].capabilityId != capabilityId
    ensures r.Some? ==> exists i :: 0 <= i < |fetched| && fetched[i] == r.value &&
                                    forall j :: i < j < |fetched| ==> fetched[j].capabilityId != capabilityId
  {
    var init := fetched[..|fetched| - 1];
    assert forall i :: 0 <= i < |init| ==> init[i] == fetched[i];
    if r.Some? {
      var i :| 0 <= i < |init| && init[i] == r.value && forall j :: i < j < |init| ==> init[j].capabilityId != capabilityId;
      assert fetched[i] == r.value;
    }
  }

  /** A fetched row as form state: a null override score reads as 3, a null rationale as "". */
  function FetchedState(row: CapabilityAssessmentRow): CapabilityState {
    CapabilityState(row.capabilityId, row.useCompanyScore, row.overrideScore.GetOr(3.0), row.overrideRationale.GetOr(""))
  }

  function MergedState(fetched: seq<CapabilityAssessmentRow>, capabilityId: string): CapabilityState {
    match LastFetched(fetched, capabilityId)
    case Some(row) => FetchedState(row)
    case None => DefaultState(capabilityId)
  }

  /** One state per listed capability, in capability order: the fetched row where there is one, else the default. */
  function MergedStates(caps: seq<Capability>, fetched: seq<CapabilityAssessmentRow>): (r: seq<CapabilityState>)
    ensures |r| == |caps|
    ensures forall i :: 0 <= i < |caps| ==> r[i].capabilityId == caps[i].id
    ensures forall i :: 0 <= i < |caps| ==> r[i] == MergedState(fetched, caps[i].id)
  {
    seq(|caps|, i requires 0 <= i < |caps| => MergedState(fetched, caps[i].id))
  }

  /** A fetched row for a capability that is not listed changes no state. */
  lemma UnlistedRowsDropped(caps: seq<Capability>, fetched: seq<CapabilityAssessmentRow>, row: CapabilityAssessmentRow)
    requires forall i :: 0 <= i < |caps| ==> caps[i].id != row.capabilityId
    ensures MergedStates(caps, fetched + [row]) == MergedStates(caps, fetched)
  {
    var a, b := MergedStates(caps, fetched + [row]), MergedStates(caps, fetched);
    forall i | 0 <= i < |caps| ensures a[i] == b[i] {
      assert (fetched + [row])[..|fetched|] == fetched;
    }
  }

  /** Where a capability has several fetched rows, the last one wins. */
  lemma LastFetchedRowWins(caps: seq<Capability>, fetched: seq<CapabilityAssessmentRow>, row: CapabilityAssessmentRow, i: nat)
    requires i < |caps| && caps[i].id == row.capabilityId
    ensures MergedStates(caps, fetched + [row])[i] == FetchedState(row)
  {
  }

  // ---------------------------------------------------------------------
  // Opportunity inputs
  // ---------------------------------------------------------------------

  /**
   * The opportunity inputs as parsed numbers; `None` is an empty text field.
   * Strategic fit starts at 3.
   */
  datatype OpportunityInputs = OpportunityInputs(
    arrRaw: Option<real>,
    pipelineRaw: Option<real>,
    velocityRaw: Option<real>,
    winRateRaw: Option<real>,
    strategicFitScore: Option<int>,
    matchRateImpact: Option<real>,
    latencyRequirement: string,
    privacyRiskLevel: string,
    dataSourceDepends: string,
    scaleRequirement: string,
    sourceNotes: string)

  const EmptyInputs := OpportunityInputs(None, None, None, None, Some(3), None, "", "", "", "", "")

  function Scored(raw: Option<real>, score: real -> int): Option<int> {
    if raw.Some? then Some(score(raw.value)) else None
  }

  function ScoredText(s: string, score: string -> int): Option<int> {
    if s != "" then Some(score(s)) else None
  }

  /** A numeric field's score: the ladder's score of the number when filled, null when empty. */
  predicate LadderScored(raw: Option<real>, score: real -> int, r: Option<int>) {
    (raw.Some? ==> r == Some(score(raw.value))) && (raw.None? ==> r.None?)
  }

  /** A tier field's score: null when the field is empty, the tier's score otherwise. */
  predicate TierScored(tier: string, score: string -> int, r: Option<int>) {
    (tier == "" <==> r.None?) && (tier != "" ==> r == Some(score(tier)))
  }

  /** The scores the form derives from its inputs; an empty field gives a null score. */
  function InputScores(inputs: OpportunityInputs): (r: ScoreFields)
    ensures LadderScored(inputs.arrRaw, ArrScore, r.arrScore)
    ensures LadderScored(inputs.pipelineRaw, PipelineScore, r.pipelineScore)
    ensures LadderScored(inputs.velocityRaw, VelocityScore, r.velocityScore)
    ensures LadderScored(inputs.winRateRaw, WinRateScore, r.winRateScore)
    ensures r.strategicFitScore == inputs.strategicFitScore
    ensures LadderScored(inputs.matchRateImpact, MatchRateScore, r.matchRateScore)
    ensures TierScored(inputs.latencyRequirement, LatencyScore, r.latencyScore)
    ensures TierScored(inputs.privacyRiskLevel, PrivacyRiskScore, r.privacyRiskScore)
    ensures TierScored(inputs.dataSourceDepends, DataSourceScore, r.dataSourceScore)
    ensures TierScored(inputs.scaleRequirement, ScaleScore, r.scaleScore)
  {
    ScoreFields(
      Scored(inputs.arrRaw, ArrScore),
      Scored(inputs.pipelineRaw, PipelineScore),
      Scored(inputs.velocityRaw, VelocityScore),
      Scored(inputs.winRateRaw, WinRateScore),
      inputs.strategicFitScore,
      Scored(inputs.matchRateImpact, MatchRateScore),
      ScoredText(inputs.latencyRequirement, LatencyScore),
      ScoredText(inputs.privacyRiskLevel, PrivacyRiskScore),
      ScoredText(inputs.dataSourceDepends, DataSourceScore),
      ScoredText(inputs.scaleRequirement, ScaleScore))
  }

  function TextOrNone(s: string): Option<string> {
    if s == "" then None else Some(s)
  }

  /** A fetched value that is not null replaces the input; a null one leaves the input as it was. */
  predicate LoadedValue<T(==)>(fetched: Option<T>, before: Option<T>, after: Option<T>) {
    (fetched.Some? ==> after == fetched) && (fetched.None? ==> after == before)
  }

  predicate LoadedText(fetched: Option<string>, before: string, after: string) {
    (fetched.Some? ==> after == fetched.value) && (fetched.None? ==> after == before)
  }

  function Loaded<T(==)>(fetched: Option<T>, before: Option<T>): (r: Option<T>)
    ensures LoadedValue(fetched, before, r)
  {
    if fetched.Some? then fetched else before
  }

  function LoadedString(fetched: Option<string>, before: string): (r: string)
    ensures LoadedText(fetched, before, r)
  {
    fetched.GetOr(before)
  }

  /** Loading a fetched record: each non-null field replaces its input, a null one leaves the input as it was. */
  function LoadedInputs(inputs: OpportunityInputs, f: OpportunityFields): (r: OpportunityInputs)
    ensures LoadedValue(f.arrRaw, inputs.arrRaw, r.arrRaw)
    ensures LoadedValue(f.pipelineRaw, inputs.pipelineRaw, r.pipelineRaw)
    ensures LoadedValue(f.velocityRaw, inputs.velocityRaw, r.velocityRaw)
    ensures LoadedValue(f.winRateRaw, inputs.winRateRaw, r.winRateRaw)
    ensures LoadedValue(f.scores.strategicFitScore, inputs.strategicFitScore, r.strategicFitScore)
    ensures LoadedValue(f.matchRateImpact, inputs.matchRateImpact, r.matchRateImpact)
    ensures LoadedText(f.latencyRequirement, inputs.latencyRequirement, r.latencyRequirement)
    ensures LoadedText(f.privacyRiskLevel, inputs.privacyRiskLevel, r.privacyRiskLevel)
    ensures LoadedText(f.dataSourceDepends, inputs.dataSourceDepends, r.dataSourceDepends)
    ensures LoadedText(f.scaleRequirement, inputs.scaleRequirement, r.scaleRequirement)
    ensures LoadedText(f.sourceNotes, inputs.sourceNotes, r.sourceNotes)
  {
    OpportunityInputs(
      Loaded(f.arrRaw, inputs.arrRaw),
      Loaded(f.pipelineRaw, inputs.pipelineRaw),
      Loaded(f.velocityRaw, inputs.velocityRaw),
      Loaded(f.winRateRaw, inputs.winRateRaw),
      Loaded(f.scores.strategicFitScore, inputs.strategicFitScore),
      Loaded(f.matchRateImpact, inputs.matchRateImpact),
      LoadedString(f.latencyRequirement, inputs.latencyRequirement),
      LoadedString(f.privacyRiskLevel, inputs.privacyRiskLevel),
      LoadedString(f.dataSourceDepends, inputs.dataSourceDepends),
      LoadedString(f.scaleRequirement, inputs.scaleRequirement),
      LoadedString(f.sourceNotes, inputs.sourceNotes))
  }

  // ---------------------------------------------------------------------
  // Preview
  // ---------------------------------------------------------------------

  /** A state's previewed score: the listed capability's score when inheriting (0 if not found), else the override. */
  function PreviewScore(s: CapabilityState, caps: seq<Capability>): real {
    if s.useCompanyScore then
      match FindCapability(caps, s.capabilityId)
      case Some(c) => c.score
      case None => 0.0
    else s.overrideScore
  }

  function PreviewScores(states: seq<CapabilityState>, caps: seq<Capability>): (r: seq<real>)
    ensures |r| == |states|
    ensures forall i :: 0 <= i < |states| ==> r[i] == PreviewScore(states[i], caps)
  {
    seq(|states|, i requires 0 <= i < |states| => PreviewScore(states[i], caps))
  }

  /** The previewed maturity: the mean over all states, 0 without states. */
  function PreviewMaturity(states: seq<CapabilityState>, caps: seq<Capability>): real {
    Mean(PreviewScores(states, caps))
  }

  function PreviewQuadrant(states: seq<CapabilityState>, caps: seq<Capability>, inputs: OpportunityInputs): Quadrant {
    ClassifyQuadrant(PreviewMaturity(states, caps), OpportunityScore(InputScores(inputs)).overall)
  }

  /** The number of overridden states. */
  function OverrideCount(states: seq<CapabilityState>): (n: nat)
    ensures n <= |states|
    ensures n == 0 <==> forall i :: 0 <= i < |states| ==> states[i].useCompanyScore
    ensures n == |states| <==> forall i :: 0 <= i < |states| ==> !states[i].useCompanyScore
  {
    if |states| == 0 then 0
    else
      var rest := OverrideCount(states[1..]);
      assert forall i :: 1 <= i < |states| ==> states[i] == states[1..][i - 1];
      (if states[0].useCompanyScore then 0 else 1) + rest
  }

  // ---------------------------------------------------------------------
  // Submit
  // ---------------------------------------------------------------------

  predicate MissingRationale(s: CapabilityState) {
    !s.useCompanyScore && Text.Trim(s.overrideRationale) == ""
  }

  /** The validation loop of `handleSubmit`: stops at the first overridden state with a blank rationale. */
  method AnyMissingRationale(states: seq<CapabilityState>) returns (missing: bool)
    ensures missing <==> exists i :: 0 <= i < |states| && MissingRationale(states[i])
  {
    for i := 0 to |states|
      invariant forall j :: 0 <= j < i ==> !MissingRationale(states[j])
    {
      if MissingRationale(states[i]) {
        return true;
      }
    }
    return false;
  }

  /** The maturity body: override values are sent only for overridden states. */
  function MaturityItem(s: CapabilityState): MaturityRoute.Item {
    MaturityRoute.Item(
      Some(s.capabilityId),
      Some(s.useCompanyScore),
      if s.useCompanyScore then None else Some(s.overrideScore),
      if s.useCompanyScore then None else Some(s.overrideRationale))
  }

  function MaturityItems(states: seq<CapabilityState>): (r: seq<MaturityRoute.Item>)
    ensures |r| == |states|
    ensures forall i :: 0 <= i < |states| ==> r[i] == MaturityItem(states[i])
  {
    seq(|states|, i requires 0 <= i < |states| => MaturityItem(states[i]))
  }

  function OpportunityBody(useCaseId: string, inputs: OpportunityInputs): OpportunityRoute.Request {
    OpportunityRoute.Request(Some(useCaseId), OpportunityFields(
      inputs.arrRaw, inputs.pipelineRaw, inputs.velocityRaw, inputs.winRateRaw, inputs.matchRateImpact,
      TextOrNone(inputs.latencyRequirement), TextOrNone(inputs.privacyRiskLevel),
      TextOrNone(inputs.dataSourceDepends), TextOrNone(inputs.scaleRequirement), TextOrNone(inputs.sourceNotes),
      InputScores(inputs)))
  }

  datatype SubmitOutcome =
    | NoUseCaseSelected
    | MissingOverrideRationale
    | Submitted(opportunity: OpportunityRoute.Request, maturity: MaturityRoute.Request)

  /** An inherited state's listed capability, and each state's capability, in capability order. */
  ghost predicate StatesMatch(states: seq<CapabilityState>, caps: seq<Capability>) {
    |states| == |caps| && forall i :: 0 <= i < |caps| ==> states[i].capabilityId == caps[i].id
  }

  class EvaluationForm {
    const capabilities: seq<Capability>
    var selectedUseCaseId: string
    var inputs: OpportunityInputs
    var states: seq<CapabilityState>

    ghost predicate Valid()
      reads this
    {
      UniqueCapabilityIds(capabilities) && StatesMatch(states, capabilities)
    }

    constructor(caps: seq<Capability>)
      requires UniqueCapabilityIds(caps)
      ensures Valid()
      ensures capabilities == caps && selectedUseCaseId == "" && inputs == EmptyInputs
      ensures states == DefaultStates(caps)
    {
      capabilities := caps;
      selectedUseCaseId := "";
      inputs := EmptyInputs;
      states := DefaultStates(caps);
    }

    /**
     * Selecting a use case with what its two fetches returned (`None` when a
     * fetch was not ok). Re-picking the selected use case changes nothing, since
     * the loading effect runs only when the selection changes. Clearing the
     * selection resets everything; selecting another use case resets the
     * states, then merges the fetched rows, and loads the fetched record over
     * the current inputs.
     */
    method Select(useCaseId: string, record: Option<OpportunityFields>, fetched: Option<seq<CapabilityAssessmentRow>>)
      requires Valid()
      modifies this
      ensures Valid()
      ensures selectedUseCaseId == useCaseId
      ensures useCaseId == old(selectedUseCaseId) ==> inputs == old(inputs) && states == old(states)
      ensures useCaseId != old(selectedUseCaseId) && useCaseId == "" ==>
        inputs == EmptyInputs && states == DefaultStates(capabilities)
      ensures useCaseId != old(selectedUseCaseId) && useCaseId != "" ==>
        inputs == (if record.Some? then LoadedInputs(old(inputs), record.value) else old(inputs)) &&
        states == (if fetched.Some? then MergedStates(capabilities, fetched.value) else DefaultStates(capabilities))
    {
      if useCaseId == selectedUseCaseId {
        return;
      }
      selectedUseCaseId := useCaseId;
      if useCaseId == "" {
        inputs := EmptyInputs;
        states := DefaultStates(capabilities);
        return;
      }
      states := DefaultStates(capabilities);
      if record.Some? {
        inputs := LoadedInputs(inputs, record.value);
      }
      if fetched.Some? {
        states := MergedStates(capabilities, fetched.value);
      }
    }

    /** `handleInheritToggle`: sets one state's flag. */
    method ToggleInherit(capabilityId: string, useCompanyScore: bool)
      requires Valid() && exists i :: 0 <= i < |states| && states[i].capabilityId == capabilityId
      modifies this
      ensures Valid() && selectedUseCaseId == old(selectedUseCaseId) && inputs == old(inputs)
      ensures |states| == |old(states)|
      ensures forall i :: 0 <= i < |states| ==>
        states[i] == if old(states)[i].capabilityId == capabilityId then old(states)[i].(useCompanyScore := useCompanyScore) else old(states)[i]
    {
      states := seq(|states|, i requires 0 <= i < |states| reads this =>
        if states[i].capabilityId == capabilityId then states[i].(useCompanyScore := useCompanyScore) else states[i]);
    }

    /** `handleOverrideScoreChange`: sets one state's override score. */
    method SetOverrideScore(capabilityId: string, score: real)
      requires Valid() && exists i :: 0 <= i < |states| && states[i].capabilityId == capabilityId
      modifies this
      ensures Valid() && selectedUseCaseId == old(selectedUseCaseId) && inputs == old(inputs)
      ensures |states| == |old(states)|
      ensures forall i :: 0 <= i < |states| ==>
        states[i] == if old(states)[i].capabilityId == capabilityId then old(states)[i].(overrideScore := score) else old(states)[i]
    {
      states := seq(|states|, i requires 0 <= i < |states| reads this =>
        if states[i].capabilityId == capabilityId then states[i].(overrideScore := score) else states[i]);
    }

    /** `handleOverrideRationaleChange`: sets one state's override rationale. */
    method SetOverrideRationale(capabilityId: string, rationale: string)
      requires Valid() && exists i :: 0 <= i < |states| && states[i].capabilityId == capabilityId
      modifies this
      ensures Valid() && selectedUseCaseId == old(selectedUseCaseId) && inputs == old(inputs)
      ensures |states| == |old(states)|
      ensures forall i :: 0 <= i < |states| ==>
        states[i] == if old(states)[i].capabilityId == capabilityId then old(states)[i].(overrideRationale := rationale) else old(states)[i]
    {
      states := seq(|states|, i requires 0 <= i < |states| reads this =>
        if states[i].capabilityId == capabilityId then states[i].(overrideRationale := rationale) else states[i]);
    }

    /**
     * `handleSubmit`: refuses without a selected use case or when an overridden
     * state has a blank rationale; otherwise builds the two request bodies.
     */
    method Submit() returns (outcome: SubmitOutcome)
      ensures outcome == NoUseCaseSelected <==> selectedUseCaseId == ""
      ensures outcome == MissingOverrideRationale <==>
        selectedUseCaseId != "" && exists i :: 0 <= i < |states| && MissingRationale(states[i])
      ensures outcome.Submitted? ==>
        outcome.opportunity == OpportunityBody(selectedUseCaseId, inputs) &&
        outcome.maturity == MaturityRoute.Request(Some(selectedUseCaseId), Some(MaturityItems(states)))
    {
      if selectedUseCaseId == "" {
        return NoUseCaseSelected;
      }
      var missing := AnyMissingRationale(states);
      if missing {
        return MissingOverrideRationale;
      }
      var opportunity := OpportunityBody(selectedUseCaseId, inputs);
      var maturity := MaturityRoute.Request(Some(selectedUseCaseId), Some(MaturityItems(states)));
      return Submitted(opportunity, maturity);
    }
  }

  // ---------------------------------------------------------------------
  // Properties
  // ---------------------------------------------------------------------

  /** Freshly reset states inherit everything: no override, and the preview is the mean of the baselines. */
  lemma {:induction false} DefaultStatesPreview(caps: seq<Capability>)
    requires UniqueCapabilityIds(caps)
    ensures OverrideCount(DefaultStates(caps)) == 0
    ensures forall i :: 0 <= i < |caps| ==> PreviewScores(DefaultStates(caps), caps)[i] == caps[i].score
  {
    forall i | 0 <= i < |caps| ensures PreviewScores(DefaultStates(caps), caps)[i] == caps[i].score {
      FindUniqueCapability(caps, i);
    }
  }

  /** Turning one inheriting state into an override raises the override count by one; turning an override back lowers it. */
  lemma {:induction false} OverrideCountAfterToggle(states: seq<CapabilityState>, i: nat, useCompanyScore: bool)
    requires i < |states|
    ensures var after := states[i := states[i].(useCompanyScore := useCompanyScore)];
            OverrideCount(after) + (if useCompanyScore then 1 else 0) ==
            OverrideCount(states) + (if states[i].useCompanyScore then 1 else 0)
  {
    var after := states[i := states[i].(useCompanyScore := useCompanyScore)];
    assert after[0] == if i == 0 then states[0].(useCompanyScore := useCompanyScore) else states[0];
    if i == 0 {
      assert after[1..] == states[1..];
    } else {
      assert after[1..] == states[1..][i - 1 := states[i].(useCompanyScore := useCompanyScore)];
      OverrideCountAfterToggle(states[1..], i - 1, useCompanyScore);
    }
  }

  /**
   * A body the form submits passes the route's validation, given listed
   * capability ids and override scores in 1..5 (the score picker offers only those).
   */
  lemma {:induction false} SubmittedPayloadAccepted(useCaseId: string, states: seq<CapabilityState>)
    requires useCaseId != ""
    requires forall i :: 0 <= i < |states| ==> states[i].capabilityId != "" && !MissingRationale(states[i])
    requires forall i :: 0 <= i < |states| && !states[i].useCompanyScore ==> 1.0 <= states[i].overrideScore <= 5.0
    ensures MaturityRoute.RequestRejection(MaturityRoute.Request(Some(useCaseId), Some(MaturityItems(states)))).None?
  {
    var items := MaturityItems(states);
    forall i | 0 <= i < |items| ensures MaturityRoute.ItemRejection(items[i]).None? {
      SubmittedItemAccepted(states[i]);
    }
  }

  lemma SubmittedItemAccepted(s: CapabilityState)
    requires s.capabilityId != "" && !MissingRationale(s)
    requires !s.useCompanyScore ==> 1.0 <= s.overrideScore <= 5.0
    ensures MaturityRoute.ItemRejection(MaturityItem(s)).None?
  {
    if !s.useCompanyScore {
      assert !Text.IsBlank(s.overrideRationale);
    }
  }


  /**
   * Once the submitted states are stored and joined with the capabilities, the
   * server's maturity is the previewed one: both resolve every state the same way.
   */
  lemma {:induction false} ServerMaturityMatchesPreview(useCaseId: string, states: seq<CapabilityState>, caps: seq<Capability>, uc: UseCaseSnapshot)
    requires StatesMatch(states, caps) && |caps| > 0
    requires MaturityRoute.HasCapabilityIds(MaturityItems(states))
    requires uc.capabilityAssessments == JoinCapabilities(MaturityRoute.StoredRows(useCaseId, MaturityItems(states)), caps)
    ensures Actions.MaturityAverage(uc) == PreviewMaturity(states, caps)
  {
    var rows := MaturityRoute.StoredRows(useCaseId, MaturityItems(states));
    forall i | 0 <= i < |rows| ensures FindCapability(caps, rows[i].capabilityId).Some? {
      assert rows[i].capabilityId == caps[i].id;
    }
    var server := Actions.CapabilityScores(uc.capabilityAssessments);
    var preview := PreviewScores(states, caps);
    assert |server| == |preview|;
    forall i | 0 <= i < |server| ensures server[i] == preview[i] {
      assert rows[i] == MaturityRoute.StoredRow(useCaseId, MaturityItems(states)[i]);
    }
    assert server == preview;
  }

  /** With the submitted record stored as well, the server's quadrant is the previewed one. */
  lemma {:induction false} ServerQuadrantMatchesPreview(
    useCaseId: string, states: seq<CapabilityState>, caps: seq<Capability>, inputs: OpportunityInputs, uc: UseCaseSnapshot)
    requires StatesMatch(states, caps) && |caps| > 0
    requires MaturityRoute.HasCapabilityIds(MaturityItems(states))
    requires uc.capabilityAssessments == JoinCapabilities(MaturityRoute.StoredRows(useCaseId, MaturityItems(states)), caps)
    requires uc.opportunityScores == [OpportunityRecord(useCaseId, OpportunityBody(useCaseId, inputs).fields)]
    ensures Actions.ScoresOf(uc).quadrant == PreviewQuadrant(states, caps, inputs)
  {
    ServerMaturityMatchesPreview(useCaseId, states, caps, uc);
  }

  /**
   * Saving the form and loading the saved record back over the same inputs
   * gives those inputs again: an empty text is sent as null and so kept.
   */
  lemma ReloadRoundTrip(useCaseId: string, inputs: OpportunityInputs)
    ensures LoadedInputs(inputs, OpportunityBody(useCaseId, inputs).fields) == inputs
  {
  }

  /**
   * Loading a record that was saved from other inputs gives back every field
   * those inputs had filled.
   */
  lemma ReloadKeepsFilledFields(useCaseId: string, saved: OpportunityInputs, current: OpportunityInputs)
    ensures var r := LoadedInputs(current, OpportunityBody(useCaseId, saved).fields);
      (saved.arrRaw.Some? ==> r.arrRaw == saved.arrRaw) &&
      (saved.pipelineRaw.Some? ==> r.pipelineRaw == saved.pipelineRaw) &&
      (saved.velocityRaw.Some? ==> r.velocityRaw == saved.velocityRaw) &&
      (saved.winRateRaw.Some? ==> r.winRateRaw == saved.winRateRaw) &&
      (saved.strategicFitScore.Some? ==> r.strategicFitScore == saved.strategicFitScore) &&
      (saved.matchRateImpact.Some? ==> r.matchRateImpact == saved.matchRateImpact) &&
      (saved.latencyRequirement != "" ==> r.latencyRequirement == saved.latencyRequirement) &&
      (saved.privacyRiskLevel != "" ==> r.privacyRiskLevel == saved.privacyRiskLevel) &&
      (saved.dataSourceDepends != "" ==> r.dataSourceDepends == saved.dataSourceDepends) &&
      (saved.scaleRequirement != "" ==> r.scaleRequirement == saved.scaleRequirement) &&
      (saved.sourceNotes != "" ==> r.sourceNotes == saved.sourceNotes)
  {
  }

  /**
   * The preview averages over every listed capability, the server over the rows
   * stored: with a stored override of 4 for one capability only and a baseline
   * of 1 for the other, the form previews 2.5 while the server reports 4.
   */
  lemma PreviewDiffersFromServer()
    ensures var caps := [Capability("a", "A", 5.0, None), Capability("b", "B", 1.0, None)];
            var fetched := [CapabilityAssessmentRow("u", "a", false, Some(4.0), Some("r"))];
            var uc := UseCaseSnapshot("u", "U", "active", [], JoinCapabilities(fetched, caps), [], []);
            PreviewMaturity(MergedStates(caps, fetched), caps) == 2.5 &&
            Actions.MaturityAverage(uc) == 4.0 &&
            ClassifyQuadrant(2.5, 3.0) == Invest && ClassifyQuadrant(4.0, 3.0) == Harvest
  {
    var caps := [Capability("a", "A", 5.0, None), Capability("b", "B", 1.0, None)];
    var fetched := [CapabilityAssessmentRow("u", "a", false, Some(4.0), Some("r"))];
    var states := MergedStates(caps, fetched);
    assert fetched[..0] == [];
    assert states[0] == CapabilityState("a", false, 4.0, "r");
    assert states[1] == DefaultState("b");
    assert caps[1..][0] == caps[1];
    assert FindCapability(caps, "b") == Some(caps[1]);
    var scores := PreviewScores(states, caps);
    assert scores == [4.0, 1.0];
    assert Sum(scores) == 5.0 by {
      assert scores[1..] == [1.0];
      assert Sum([1.0]) == 1.0 by { assert [1.0][1..] == []; }
    }
    var joined := JoinCapabilities(fetched, caps);
    assert FindCapability(caps, "a") == Some(caps[0]);
    assert joined == [JoinedAssessment(fetched[0], caps[0])];
    assert Actions.CapabilityScores(joined) == [4.0];
    assert Sum([4.0]) == 4.0 by { assert [4.0][1..] == []; }
  }
}
