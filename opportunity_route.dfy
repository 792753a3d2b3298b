/**
 * `POST /api/opportunity`: replaces a use case's opportunity records with one
 * record holding the submitted fields verbatim.
 */
module OpportunityRoute {
  import opened Wrappers
  import opened Calculations
  import opened Records
  import opened Store
  import Lists
  import Actions

  /** The body: the use case it is for and every stored field, raw values and derived scores alike. */
  datatype Request = Request(useCaseId: Option<string>, fields: OpportunityFields)

  datatype Response = Success | BadRequest(error: string)

  const MissingUseCase := "Use case ID is required"

  function RecordsOf(records: seq<OpportunityRecord>, useCaseId: string): seq<OpportunityRecord> {
    Lists.Matching(OpportunityUseCase, useCaseId, records)
  }

  method Post(table: OpportunityTable, req: Request) returns (response: Response)
    modifies table
    ensures !TruthyText(req.useCaseId) ==> response == BadRequest(MissingUseCase) && table.records == old(table.records)
    ensures TruthyText(req.useCaseId) ==>
      response == Success &&
      table.records == Lists.Excluding(OpportunityUseCase, req.useCaseId.value, old(table.records)) +
                       [OpportunityRecord(req.useCaseId.value, req.fields)]
  {
    if !TruthyText(req.useCaseId) {
      return BadRequest(MissingUseCase);
    }
    var useCaseId := req.useCaseId.value;
    table.DeleteMany(useCaseId);
    table.Create(OpportunityRecord(useCaseId, req.fields));
    return Success;
  }

  /**
   * After a save the use case has exactly one record, the submitted one, and
   * every other use case keeps its records.
   */
  lemma SingleRecordAfterSave(records: seq<OpportunityRecord>, useCaseId: string, fields: OpportunityFields)
    ensures var after := Lists.Excluding(OpportunityUseCase, useCaseId, records) + [OpportunityRecord(useCaseId, fields)];
            RecordsOf(after, useCaseId) == [OpportunityRecord(useCaseId, fields)] &&
            forall other :: other != useCaseId ==> RecordsOf(after, other) == RecordsOf(records, other)
  {
    Lists.ReplaceMatching(OpportunityUseCase, useCaseId, records, [OpportunityRecord(useCaseId, fields)]);
  }

  /** The next summary of the use case is computed from the submitted scores alone. */
  lemma SummaryFollowsSubmittedScores(records: seq<OpportunityRecord>, useCaseId: string, fields: OpportunityFields)
    ensures var after := Lists.Excluding(OpportunityUseCase, useCaseId, records) + [OpportunityRecord(useCaseId, fields)];
            Actions.OpportunityAverage(RecordsOf(after, useCaseId)) == OpportunityScore(fields.scores).overall
  {
    SingleRecordAfterSave(records, useCaseId, fields);
  }

  /**
   * Derived scores are stored as sent: a body whose `arrScore` disagrees with
   * the ladder for its `arrRaw` keeps it, and the summary uses the stored score.
   */
  lemma DerivedScoresNotRecomputed()
    ensures var scores := ScoreFields(Some(1), None, None, None, None, None, None, None, None, None);
            var fields := OpportunityFields(Some(2000000.0), None, None, None, None, None, None, None, None, None, scores);
            var after := Lists.Excluding(OpportunityUseCase, "u", []) + [OpportunityRecord("u", fields)];
            ArrScore(2000000.0) == 5 && after[0].fields.scores.arrScore == Some(1) &&
            OpportunityScore(after[0].fields.scores).overall == 0.3
  {
    var scores := ScoreFields(Some(1), None, None, None, None, None, None, None, None, None);
    assert BusinessScores(scores) == [1.0, 0.0, 0.0, 0.0, 0.0];
  }
}
