/**
 * `POST /api/maturity`: validates every submitted capability assessment, then
 * replaces the use case's capability assessments with one row per item.
 */
module MaturityRoute {
  import opened Wrappers
  import Text
  import opened Records
  import opened Store
  import Lists
  import Actions

  /** One element of the `assessments` array; a field the client leaves out or sends as null is `None`. */
  datatype Item = Item(
    capabilityId: Option<string>,
    useCompanyScore: Option<bool>,
    overrideScore: Option<real>,
    overrideRationale: Option<string>)

  /** The request body; `assessments` is `None` when it is absent or not an array. */
  datatype Request = Request(useCaseId: Option<string>, assessments: Option<seq<Item>>)

  datatype Response = Success | BadRequest(error: string) | ServerError(error: string)

  datatype Rejection = InvalidBody | MissingCapabilityId | OverrideScoreOutOfRange | OverrideRationaleRequired
  {
    function Message(): string {
      match this
      case InvalidBody => "Invalid request body. Required: useCaseId, assessments[]"
      case MissingCapabilityId => "Each assessment must have a capabilityId"
      case OverrideScoreOutOfRange => "Override score must be between 1 and 5"
      case OverrideRationaleRequired => "Override rationale is required when not using company score"
    }
  }

  const SaveFailed := "Failed to save assessment"

  /** JavaScript truthiness of `useCompanyScore`: only `true` inherits; false, null and a missing flag all override. */
  predicate Inherits(item: Item) {
    item.useCompanyScore == Some(true)
  }

  predicate OverrideScoreInRange(score: Option<real>) {
    score.Some? && 1.0 <= score.value <= 5.0
  }

  predicate OverrideRationaleGiven(rationale: Option<string>) {
    rationale.Some? && !Text.IsBlank(rationale.value)
  }

  /** The checks of one item, in the order the route makes them. */
  function ItemRejection(item: Item): (r: Option<Rejection>)
    ensures r.None? <==>
      TruthyText(item.capabilityId) &&
      (Inherits(item) || (OverrideScoreInRange(item.overrideScore) && OverrideRationaleGiven(item.overrideRationale)))
    ensures r == Some(MissingCapabilityId) <==> !TruthyText(item.capabilityId)
    ensures r == Some(OverrideScoreOutOfRange) <==>
      TruthyText(item.capabilityId) && !Inherits(item) && !OverrideScoreInRange(item.overrideScore)
    ensures r != Some(InvalidBody)
  {
    if !TruthyText(item.capabilityId) then Some(MissingCapabilityId)
    else if !Inherits(item) then
      var score := item.overrideScore;
      var rationale := item.overrideRationale;
      if score.None? || score.value == 0.0 || score.value < 1.0 || score.value > 5.0 then Some(OverrideScoreOutOfRange)
      else if rationale.None? || rationale.value == "" || Text.Trim(rationale.value) == "" then Some(OverrideRationaleRequired)
      else None
    else None
  }

  /** The rejection of the first invalid item, if any. */
  function FirstRejection(items: seq<Item>): (r: Option<Rejection>)
    ensures r.None? <==> forall i :: 0 <= i < |items| ==> ItemRejection(items[i]).None?
    ensures r.Some? ==> exists i :: 0 <= i < |items| && r == ItemRejection(items[i]) &&
                                    forall j :: 0 <= j < i ==> ItemRejection(items[j]).None?
  {
    if |items| == 0 then None
    else if ItemRejection(items[0]).Some? then ItemRejection(items[0])
    else
      var r := FirstRejection(items[1..]);
      assert forall i :: 1 <= i < |items| ==> items[i] == items[1..][i - 1];
      if r.Some? then
        var i :| 0 <= i < |items[1..]| && r == ItemRejection(items[1..][i]) &&
                 forall j :: 0 <= j < i ==> ItemRejection(items[1..][j]).None?;
        assert forall j :: 0 <= j < i + 1 ==> ItemRejection(items[j]).None? by {
          forall j | 0 <= j < i + 1 ensures ItemRejection(items[j]).None? {
            if j > 0 { assert items[j] == items[1..][j - 1]; }
          }
        }
        r
      else r
  }

  /** Why the whole request is refused, if it is. */
  function RequestRejection(req: Request): (r: Option<Rejection>)
    ensures r == Some(InvalidBody) <==> !TruthyText(req.useCaseId) || req.assessments.None?
    ensures r.None? <==>
      (TruthyText(req.useCaseId) && req.assessments.Some? &&
       forall i :: 0 <= i < |req.assessments.value| ==> ItemRejection(req.assessments.value[i]).None?)
  {
    if !TruthyText(req.useCaseId) || req.assessments.None? then Some(InvalidBody)
    else FirstRejection(req.assessments.value)
  }

  /** The validation loop: stops at the first invalid item. */
  method Validate(items: seq<Item>) returns (rejection: Option<Rejection>)
    ensures rejection == FirstRejection(items)
  {
    for i := 0 to |items|
      invariant FirstRejection(items) == FirstRejection(items[i..])
    {
      assert items[i..][1..] == items[i + 1..];
      var r := ItemRejection(items[i]);
      if r.Some? {
        return r;
      }
    }
    return None;
  }

  /**
   * The row stored for an item: `useCompanyScore ?? true`, and the override
   * fields cleared only when the flag is truthy.
   */
  function StoredRow(useCaseId: string, item: Item): (r: CapabilityAssessmentRow)
    requires item.capabilityId.Some?
    ensures r.useCaseId == useCaseId && r.capabilityId == item.capabilityId.value
    ensures r.useCompanyScore == item.useCompanyScore.GetOr(true)
    ensures Inherits(item) ==> r.overrideScore.None? && r.overrideRationale.None?
    ensures !Inherits(item) ==> r.overrideScore == item.overrideScore && r.overrideRationale == item.overrideRationale
  {
    var inherits := Inherits(item);
    CapabilityAssessmentRow(
      useCaseId,
      item.capabilityId.value,
      item.useCompanyScore.GetOr(true),
      if inherits then None else item.overrideScore,
      if inherits then None else item.overrideRationale)
  }

  predicate HasCapabilityIds(items: seq<Item>) {
    forall i :: 0 <= i < |items| ==> items[i].capabilityId.Some?
  }

  function StoredRows(useCaseId: string, items: seq<Item>): (r: seq<CapabilityAssessmentRow>)
    requires HasCapabilityIds(items)
    ensures |r| == |items|
    ensures forall i :: 0 <= i < |items| ==> r[i] == StoredRow(useCaseId, items[i])
  {
    seq(|items|, i requires 0 <= i < |items| => StoredRow(useCaseId, items[i]))
  }

  predicate DistinctCapabilityIds(items: seq<Item>) {
    forall i, j :: 0 <= i < j < |items| ==> items[i].capabilityId != items[j].capabilityId
  }

  /** The stored rows keep the unique key exactly when no capability is submitted twice. */
  lemma StoredRowsUniqueKeys(useCaseId: string, items: seq<Item>)
    requires HasCapabilityIds(items)
    ensures UniqueKeys(StoredRows(useCaseId, items)) <==> DistinctCapabilityIds(items)
  {
    var rows := StoredRows(useCaseId, items);
    if !DistinctCapabilityIds(items) {
      var i, j :| 0 <= i < j < |items| && items[i].capabilityId == items[j].capabilityId;
      assert SameKey(rows[i], rows[j]);
    }
  }

  /**
   * The route. A refused request changes nothing. An accepted one deletes the
   * use case's rows and inserts one row per item; if two items name the same
   * capability the insert is refused by the unique key after the delete has
   * already happened, so the use case is left with no rows.
   */
  method Post(table: CapabilityAssessmentTable, req: Request) returns (response: Response)
    requires table.Valid()
    modifies table
    ensures table.Valid()
    ensures RequestRejection(req).Some? ==>
      response == BadRequest(RequestRejection(req).value.Message()) && table.rows == old(table.rows)
    ensures RequestRejection(req).None? ==>
      var items := req.assessments.value;
      var kept := Lists.Excluding(AssessmentUseCase, req.useCaseId.value, old(table.rows));
      HasCapabilityIds(items) &&
      (response == Success <==> DistinctCapabilityIds(items)) &&
      (response == Success ==> table.rows == kept + StoredRows(req.useCaseId.value, items)) &&
      (response != Success ==> response == ServerError(SaveFailed) && table.rows == kept)
  {
    if !TruthyText(req.useCaseId) || req.assessments.None? {
      return BadRequest(InvalidBody.Message());
    }
    var items := req.assessments.value;
    var rejection := Validate(items);
    if rejection.Some? {
      return BadRequest(rejection.value.Message());
    }
    var useCaseId := req.useCaseId.value;
    assert HasCapabilityIds(items) by {
      forall i | 0 <= i < |items| ensures items[i].capabilityId.Some? {
        assert ItemRejection(items[i]).None?;
      }
    }
    var stored := StoredRows(useCaseId, items);
    ghost var before := table.rows;
    table.DeleteMany(useCaseId);
    ReplaceKeepsUniqueKeys(before, useCaseId, stored);
    StoredRowsUniqueKeys(useCaseId, items);
    var ok := table.CreateMany(stored);
    if !ok {
      return ServerError(SaveFailed);
    }
    return Success;
  }

  /**
   * After an accepted request the use case's rows are exactly the stored rows,
   * one per item in order (none for an empty list), and every other use case
   * keeps its rows.
   */
  lemma ReplacedAssessments(rows: seq<CapabilityAssessmentRow>, useCaseId: string, items: seq<Item>)
    requires HasCapabilityIds(items)
    ensures var after := Lists.Excluding(AssessmentUseCase, useCaseId, rows) + StoredRows(useCaseId, items);
            AssessmentsOf(after, useCaseId) == StoredRows(useCaseId, items) &&
            forall other :: other != useCaseId ==> AssessmentsOf(after, other) == AssessmentsOf(rows, other)
  {
    Lists.ReplaceMatching(AssessmentUseCase, useCaseId, rows, StoredRows(useCaseId, items));
  }

  /**
   * How a stored row resolves once joined with its capability: an item sent
   * with `useCompanyScore: false` resolves to its validated override score;
   * every other accepted item, a missing flag included, resolves to the baseline.
   */
  lemma StoredRowResolution(useCaseId: string, item: Item, capability: Capability)
    requires ItemRejection(item).None?
    ensures var score := Actions.EffectiveScore(JoinedAssessment(StoredRow(useCaseId, item), capability));
            if item.useCompanyScore == Some(false) then score == item.overrideScore.value && 1.0 <= score <= 5.0
            else score == capability.score
  {
  }

  /**
   * An item without a `useCompanyScore` is validated as an override, but is
   * stored as inheriting with its override values kept.
   */
  lemma MissingFlagStoredAsInheriting(useCaseId: string, item: Item)
    requires item.useCompanyScore.None? && ItemRejection(item).None?
    ensures var row := StoredRow(useCaseId, item);
            row.useCompanyScore && OverrideScoreInRange(row.overrideScore) && row.overrideRationale == item.overrideRationale
  {
  }

  /** Inheriting items are stored with no override values, whatever the client sent. */
  lemma InheritingStoredWithoutOverride(useCaseId: string, item: Item)
    requires item.capabilityId.Some? && Inherits(item)
    ensures var row := StoredRow(useCaseId, item);
            row.useCompanyScore && row.overrideScore.None? && row.overrideRationale.None?
  {
  }

  /** An override score of 0, a missing one and 6 are refused; a fractional 2.5 is accepted. */
  lemma OverrideScoreExamples()
    ensures ItemRejection(Item(Some("c"), Some(false), Some(0.0), Some("r"))) == Some(OverrideScoreOutOfRange)
    ensures ItemRejection(Item(Some("c"), Some(false), None, Some("r"))) == Some(OverrideScoreOutOfRange)
    ensures ItemRejection(Item(Some("c"), Some(false), Some(6.0), Some("r"))) == Some(OverrideScoreOutOfRange)
    ensures ItemRejection(Item(Some("c"), Some(false), Some(2.5), Some("r"))).None?
    ensures ItemRejection(Item(Some("c"), Some(false), Some(2.5), Some(" \t"))) == Some(OverrideRationaleRequired)
  {
    assert Text.IsBlank(" \t");
  }
}
