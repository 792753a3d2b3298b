/**
 * `POST /api/assessments`: the legacy pillar-assessment save. It deletes the
 * rows of the first item's use case and inserts one row per item, each with
 * its own use case, pillar and score.
 */
module AssessmentsRoute {
  import opened Wrappers
  import opened Records
  import opened Store
  import Lists

  datatype Item = Item(useCaseId: string, pillarId: string, score: real, rationale: Option<string>)

  datatype Response = Success | BadRequest(error: string)

  const InvalidBody := "Invalid request body"

  function LegacyRowsOf(table: seq<LegacyAssessmentRow>, useCaseId: string): seq<LegacyAssessmentRow> {
    Lists.Matching(LegacyUseCase, useCaseId, table)
  }

  /** The row stored for an item: the score unchecked and a falsy rationale as null. */
  function StoredRow(item: Item): (r: LegacyAssessmentRow)
    ensures r.useCaseId == item.useCaseId && r.pillarId == item.pillarId && r.score == item.score
    ensures r.rationale == TextOrNull(item.rationale)
  {
    LegacyAssessmentRow(item.useCaseId, item.pillarId, item.score, TextOrNull(item.rationale))
  }

  function StoredRows(items: seq<Item>): (r: seq<LegacyAssessmentRow>)
    ensures |r| == |items|
    ensures forall i :: 0 <= i < |items| ==> r[i] == StoredRow(items[i])
  {
    seq(|items|, i requires 0 <= i < |items| => StoredRow(items[i]))
  }

  /**
   * The route; `assessments` is `None` when it is absent or not an array. An
   * empty array succeeds and changes nothing.
   */
  method Post(table: LegacyAssessmentTable, assessments: Option<seq<Item>>) returns (response: Response)
    modifies table
    ensures assessments.None? ==> response == BadRequest(InvalidBody) && table.rows == old(table.rows)
    ensures assessments.Some? ==> response == Success
    ensures assessments == Some([]) ==> table.rows == old(table.rows)
    ensures assessments.Some? && |assessments.value| > 0 ==>
      table.rows == Lists.Excluding(LegacyUseCase, assessments.value[0].useCaseId, old(table.rows)) + StoredRows(assessments.value)
  {
    if assessments.None? {
      return BadRequest(InvalidBody);
    }
    var items := assessments.value;
    if |items| > 0 {
      var useCaseId := items[0].useCaseId;
      table.DeleteMany(useCaseId);
      table.CreateMany(StoredRows(items));
    }
    return Success;
  }

  /**
   * Only the first item's use case loses its rows, and it ends with exactly the
   * items submitted for it. Every other use case keeps its rows and gains the
   * items that name it: rows can be added to it but never removed.
   */
  lemma ReplacedLegacyAssessments(rows: seq<LegacyAssessmentRow>, items: seq<Item>)
    requires |items| > 0
    ensures var first := items[0].useCaseId;
            var after := Lists.Excluding(LegacyUseCase, first, rows) + StoredRows(items);
            LegacyRowsOf(after, first) == LegacyRowsOf(StoredRows(items), first) &&
            forall other :: other != first ==>
              LegacyRowsOf(after, other) == LegacyRowsOf(rows, other) + LegacyRowsOf(StoredRows(items), other)
  {
    var first := items[0].useCaseId;
    var kept := Lists.Excluding(LegacyUseCase, first, rows);
    var stored := StoredRows(items);
    Lists.MatchingAppend(LegacyUseCase, first, kept, stored);
    Lists.MatchingAfterExcluding(LegacyUseCase, first, first, rows);
    forall other | other != first
      ensures LegacyRowsOf(kept + stored, other) == LegacyRowsOf(rows, other) + LegacyRowsOf(stored, other)
    {
      Lists.MatchingAppend(LegacyUseCase, other, kept, stored);
      Lists.MatchingAfterExcluding(LegacyUseCase, first, other, rows);
    }
  }

  /** Items of a second use case in the same request are added beside that use case's old rows. */
  lemma SecondUseCaseRowsAccumulate()
    ensures var old_ := [LegacyAssessmentRow("b", "p", 2.0, None)];
            var items := [Item("a", "p", 4.0, Some("")), Item("b", "p", 0.0, None)];
            var after := Lists.Excluding(LegacyUseCase, "a", old_) + StoredRows(items);
            |LegacyRowsOf(after, "b")| == 2 && LegacyRowsOf(after, "a") == [LegacyAssessmentRow("a", "p", 4.0, None)]
  {
    var old_ := [LegacyAssessmentRow("b", "p", 2.0, None)];
    var items := [Item("a", "p", 4.0, Some("")), Item("b", "p", 0.0, None)];
    ReplacedLegacyAssessments(old_, items);
    var stored := StoredRows(items);
    assert stored == [LegacyAssessmentRow("a", "p", 4.0, None), LegacyAssessmentRow("b", "p", 0.0, None)];
    assert stored[1..][1..] == [];
    assert stored[1..][0] == stored[1];
    assert LegacyRowsOf(stored[1..], "b") == [stored[1]];
    assert LegacyRowsOf(stored, "b") == [stored[1]];
    assert LegacyRowsOf(stored[1..], "a") == [];
    assert LegacyRowsOf(stored, "a") == [stored[0]];
    assert LegacyRowsOf(old_, "b") == old_;
  }
}
