/**
 * The three tables the write routes replace rows in, each an in-memory
 * sequence of rows in insertion order. A `deleteMany({ where: { useCaseId } })`
 * keeps the rows of every other use case; a `createMany` either inserts all
 * its rows or, when one would break a unique key, none.
 */
module Store {
  import opened Wrappers
  import opened Records
  import Lists

  function AssessmentUseCase(r: CapabilityAssessmentRow): string { r.useCaseId }
  function LegacyUseCase(r: LegacyAssessmentRow): string { r.useCaseId }
  function OpportunityUseCase(r: OpportunityRecord): string { r.useCaseId }

  /** The capability assessments of one use case, in table order. */
  function AssessmentsOf(rows: seq<CapabilityAssessmentRow>, useCaseId: string): seq<CapabilityAssessmentRow> {
    Lists.Matching(AssessmentUseCase, useCaseId, rows)
  }

  /** The capability-assessment table's unique key is (useCaseId, capabilityId). */
  predicate SameKey(a: CapabilityAssessmentRow, b: CapabilityAssessmentRow) {
    a.useCaseId == b.useCaseId && a.capabilityId == b.capabilityId
  }

  predicate UniqueKeys(rows: seq<CapabilityAssessmentRow>) {
    forall i, j :: 0 <= i < j < |rows| ==> !SameKey(rows[i], rows[j])
  }

  predicate HasKey(rows: seq<CapabilityAssessmentRow>, useCaseId: string, capabilityId: string) {
    exists i :: 0 <= i < |rows| && rows[i].useCaseId == useCaseId && rows[i].capabilityId == capabilityId
  }

  /** `findUnique({ where: { useCaseId_capabilityId } })`. */
  function FindRow(rows: seq<CapabilityAssessmentRow>, useCaseId: string, capabilityId: string): (r: Option<CapabilityAssessmentRow>)
    ensures r.None? <==> !HasKey(rows, useCaseId, capabilityId)
    ensures r.Some? ==> r.value in rows && r.value.useCaseId == useCaseId && r.value.capabilityId == capabilityId
  {
    if |rows| == 0 then None
    else if rows[0].useCaseId == useCaseId && rows[0].capabilityId == capabilityId then Some(rows[0])
    else
      assert forall i :: 1 <= i < |rows| ==> rows[i] == rows[1..][i - 1];
      FindRow(rows[1..], useCaseId, capabilityId)
  }

  /** Deleting rows never breaks the unique key. */
  lemma {:induction false} ExcludingKeepsUniqueKeys(rows: seq<CapabilityAssessmentRow>, useCaseId: string)
    requires UniqueKeys(rows)
    ensures UniqueKeys(Lists.Excluding(AssessmentUseCase, useCaseId, rows))
  {
    if |rows| > 0 {
      var tail := rows[1..];
      assert UniqueKeys(tail) by {
        forall i, j | 0 <= i < j < |tail| ensures !SameKey(tail[i], tail[j]) {
          assert tail[i] == rows[i + 1] && tail[j] == rows[j + 1];
        }
      }
      ExcludingKeepsUniqueKeys(tail, useCaseId);
      var rest := Lists.Excluding(AssessmentUseCase, useCaseId, tail);
      Lists.ExcludingMembers(AssessmentUseCase, useCaseId, tail);
      if rows[0].useCaseId != useCaseId {
        forall k | 0 <= k < |rest| ensures !SameKey(rows[0], rest[k]) {
          assert rest[k] in tail;
          var m :| 0 <= m < |tail| && tail[m] == rest[k];
          assert tail[m] == rows[m + 1];
        }
        var r := [rows[0]] + rest;
        forall i, j | 0 <= i < j < |r| ensures !SameKey(r[i], r[j]) {
          if i == 0 { assert r[j] == rest[j - 1]; } else { assert r[i] == rest[i - 1] && r[j] == rest[j - 1]; }
        }
      }
    }
  }

  /** Inserting rows keeps the key unique iff no inserted row repeats the key of another row, old or new. */
  lemma UniqueKeysAppend(rows: seq<CapabilityAssessmentRow>, inserted: seq<CapabilityAssessmentRow>)
    requires UniqueKeys(rows) && UniqueKeys(inserted)
    requires forall i :: 0 <= i < |inserted| ==> !HasKey(rows, inserted[i].useCaseId, inserted[i].capabilityId)
    ensures UniqueKeys(rows + inserted)
  {
    var all := rows + inserted;
    forall i, j | 0 <= i < j < |all| ensures !SameKey(all[i], all[j]) {
      if j >= |rows| {
        assert all[j] == inserted[j - |rows|];
        if i < |rows| {
          assert all[i] == rows[i];
          assert !HasKey(rows, inserted[j - |rows|].useCaseId, inserted[j - |rows|].capabilityId);
        } else {
          assert all[i] == inserted[i - |rows|];
        }
      } else {
        assert all[i] == rows[i] && all[j] == rows[j];
      }
    }
  }

  /** Rows of one use case never clash with rows kept after that use case's rows were deleted. */
  lemma ReplaceKeepsUniqueKeys(rows: seq<CapabilityAssessmentRow>, useCaseId: string, inserted: seq<CapabilityAssessmentRow>)
    requires UniqueKeys(rows)
    requires forall i :: 0 <= i < |inserted| ==> inserted[i].useCaseId == useCaseId
    ensures UniqueKeys(Lists.Excluding(AssessmentUseCase, useCaseId, rows) + inserted) <==> UniqueKeys(inserted)
  {
    var kept := Lists.Excluding(AssessmentUseCase, useCaseId, rows);
    ExcludingKeepsUniqueKeys(rows, useCaseId);
    Lists.ExcludingMembers(AssessmentUseCase, useCaseId, rows);
    if UniqueKeys(inserted) {
      forall m | 0 <= m < |kept| ensures kept[m].useCaseId != useCaseId {
        assert kept[m] in kept;
      }
      UniqueKeysAppend(kept, inserted);
    } else {
      var all := kept + inserted;
      var i, j :| 0 <= i < j < |inserted| && SameKey(inserted[i], inserted[j]);
      assert all[|kept| + i] == inserted[i] && all[|kept| + j] == inserted[j];
    }
  }

  /** The capability-assessment table. */
  class CapabilityAssessmentTable {
    var rows: seq<CapabilityAssessmentRow>

    ghost predicate Valid()
      reads this
    {
      UniqueKeys(rows)
    }

    constructor(initial: seq<CapabilityAssessmentRow>)
      requires UniqueKeys(initial)
      ensures Valid() && rows == initial
    {
      rows := initial;
    }

    method FindUnique(useCaseId: string, capabilityId: string) returns (r: Option<CapabilityAssessmentRow>)
      ensures r == FindRow(rows, useCaseId, capabilityId)
    {
      r := FindRow(rows, useCaseId, capabilityId);
    }

    /** `deleteMany({ where: { useCaseId } })`. */
    method DeleteMany(useCaseId: string)
      requires Valid()
      modifies this
      ensures Valid()
      ensures rows == Lists.Excluding(AssessmentUseCase, useCaseId, old(rows))
    {
      ExcludingKeepsUniqueKeys(rows, useCaseId);
      rows := Lists.Excluding(AssessmentUseCase, useCaseId, rows);
    }

    /** `createMany({ data })`: all rows, or none when one would repeat a key. */
    method CreateMany(data: seq<CapabilityAssessmentRow>) returns (ok: bool)
      requires Valid()
      modifies this
      ensures Valid()
      ensures ok <==> UniqueKeys(old(rows) + data)
      ensures rows == if ok then old(rows) + data else old(rows)
    {
      ok := UniqueKeys(rows + data);
      if ok {
        rows := rows + data;
      }
    }

    /** `create({ data })`: one row, refused when its key exists. */
    method Create(row: CapabilityAssessmentRow) returns (ok: bool)
      requires Valid()
      modifies this
      ensures Valid()
      ensures ok <==> !HasKey(old(rows), row.useCaseId, row.capabilityId)
      ensures rows == if ok then old(rows) + [row] else old(rows)
    {
      ok := FindRow(rows, row.useCaseId, row.capabilityId).None?;
      if ok {
        UniqueKeysAppend(rows, [row]);
        rows := rows + [row];
      }
    }
  }

  /** The legacy maturity-assessment table; it has no unique key besides the row id. */
  class LegacyAssessmentTable {
    var rows: seq<LegacyAssessmentRow>

    constructor(initial: seq<LegacyAssessmentRow>)
      ensures rows == initial
    {
      rows := initial;
    }

    method DeleteMany(useCaseId: string)
      modifies this
      ensures rows == Lists.Excluding(LegacyUseCase, useCaseId, old(rows))
    {
      rows := Lists.Excluding(LegacyUseCase, useCaseId, rows);
    }

    method CreateMany(data: seq<LegacyAssessmentRow>)
      modifies this
      ensures rows == old(rows) + data
    {
      rows := rows + data;
    }
  }

  /** The opportunity-score table; a use case may hold several records. */
  class OpportunityTable {
    var records: seq<OpportunityRecord>

    constructor(initial: seq<OpportunityRecord>)
      ensures records == initial
    {
      records := initial;
    }

    method DeleteMany(useCaseId: string)
      modifies this
      ensures records == Lists.Excluding(OpportunityUseCase, useCaseId, old(records))
    {
      records := Lists.Excluding(OpportunityUseCase, useCaseId, records);
    }

    method Create(record: OpportunityRecord)
      modifies this
      ensures records == old(records) + [record]
    {
      records := records + [record];
    }
  }
}
