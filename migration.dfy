/**
 * The one-off migration from legacy pillar assessments to capability
 * assessments. Each pillar maps to a company capability by name; the scores of
 * the pillars of one capability are averaged and rounded; the row inherits the
 * baseline when that rounded mean equals it and overrides it otherwise; every
 * capability the pillars do not cover gets an inheriting row; an existing
 * (use case, capability) row is never touched.
 */
module Migration {
  import opened Wrappers
  import opened Calculations
  import Text
  import opened Records
  import opened Store

  /** Legacy pillar name to company capability name. */
  const PillarToCapability: map<string, string> := map[
    "Match Rate / Accuracy" := "Data Quality & Accuracy",
    "Scale / Coverage" := "Infrastructure & Operations",
    "Latency / Real-Time" := "Infrastructure & Operations",
    "Compliance Infrastructure" := "Compliance & Privacy",
    "ML Readiness" := "Data Quality & Accuracy",
    "GenAI Readiness" := "Integration Ecosystem"]

  const RationaleSeparator := " | "

  /** The capability a legacy assessment's pillar maps to, if any. */
  function MappedName(a: JoinedLegacyAssessment): Option<string> {
    if a.pillarName in PillarToCapability then Some(PillarToCapability[a.pillarName]) else None
  }

  /** `Math.round`: the nearest integer, halves rounding up. */
  function RoundHalfUp(x: real): (r: int)
    ensures r as real - 0.5 <= x < r as real + 0.5
  {
    (x + 0.5).Floor
  }

  // ---------------------------------------------------------------------
  // Grouping by capability
  // ---------------------------------------------------------------------

  /** The distinct mapped capability names, in order of first appearance (the dictionary's key order). */
  function GroupNames(assessments: seq<JoinedLegacyAssessment>): (r: seq<string>)
    ensures forall i, j :: 0 <= i < j < |r| ==> r[i] != r[j]
    ensures forall n :: n in r <==> exists i :: 0 <= i < |assessments| && MappedName(assessments[i]) == Some(n)
  {
    if |assessments| == 0 then []
    else
      var init := assessments[..|assessments| - 1];
      var prev := GroupNames(init);
      var m := MappedName(assessments[|assessments| - 1]);
      assert forall i :: 0 <= i < |init| ==> init[i] == assessments[i];
      if m.Some? && m.value !in prev then prev + [m.value] else prev
  }

  /** The scores of the assessments mapped to `name`, in order. */
  function GroupScores(assessments: seq<JoinedLegacyAssessment>, name: string): seq<real> {
    if |assessments| == 0 then []
    else
      var last := assessments[|assessments| - 1];
      GroupScores(assessments[..|assessments| - 1], name) + (if MappedName(last) == Some(name) then [last.row.score] else [])
  }

  /** The non-empty rationales of the assessments mapped to `name`, in order. */
  function GroupRationales(assessments: seq<JoinedLegacyAssessment>, name: string): seq<string> {
    if |assessments| == 0 then []
    else
      var last := assessments[|assessments| - 1];
      GroupRationales(assessments[..|assessments| - 1], name) +
        (if MappedName(last) == Some(name) && TruthyText(last.row.rationale) then [last.row.rationale.value] else [])
  }

  /** A name has a group exactly when some pillar maps to it, and then the group has a score. */
  lemma {:induction false} GroupsOfUnmappedNamesEmpty(assessments: seq<JoinedLegacyAssessment>, name: string)
    ensures name !in GroupNames(assessments) ==> GroupScores(assessments, name) == [] && GroupRationales(assessments, name) == []
    ensures name in GroupNames(assessments) ==> |GroupScores(assessments, name)| > 0
  {
    if |assessments| > 0 {
      var init := assessments[..|assessments| - 1];
      GroupsOfUnmappedNamesEmpty(init, name);
    }
  }

  datatype Group = Group(scores: seq<real>, rationales: seq<string>)

  function GroupOf(assessments: seq<JoinedLegacyAssessment>, name: string): Group {
    Group(GroupScores(assessments, name), GroupRationales(assessments, name))
  }

  /** The group of `n` after one more assessment: its score and truthy rationale join the group it maps to. */
  function Joined(g: Group, a: JoinedLegacyAssessment, n: string): Group {
    if MappedName(a) != Some(n) then g
    else Group(g.scores + [a.row.score], if TruthyText(a.row.rationale) then g.rationales + [a.row.rationale.value] else g.rationales)
  }

  lemma GroupStep(assessments: seq<JoinedLegacyAssessment>, i: nat)
    requires i < |assessments|
    ensures var prefix, m := assessments[..i], MappedName(assessments[i]);
      GroupNames(assessments[..i + 1]) ==
        (if m.Some? && m.value !in GroupNames(prefix) then GroupNames(prefix) + [m.value] else GroupNames(prefix))
    ensures forall n :: GroupOf(assessments[..i + 1], n) == Joined(GroupOf(assessments[..i], n), assessments[i], n)
  {
    assert assessments[..i + 1][..i] == assessments[..i];
    assert assessments[..i + 1][i] == assessments[i];
  }

  /** The grouping loop: fills the `capabilityScores` dictionary and records its key order. */
  method GroupByCapability(assessments: seq<JoinedLegacyAssessment>) returns (names: seq<string>, groups: map<string, Group>)
    ensures names == GroupNames(assessments)
    ensures forall n :: n in groups <==> n in names
    ensures forall n :: n in groups ==> groups[n] == GroupOf(assessments, n)
  {
    names, groups := [], map[];
    for i := 0 to |assessments|
      invariant names == GroupNames(assessments[..i])
      invariant forall n :: n in groups <==> n in names
      invariant forall n :: n in groups ==> groups[n] == GroupOf(assessments[..i], n)
    {
      var a := assessments[i];
      ghost var prefix := assessments[..i];
      GroupStep(assessments, i);
      var name := MappedName(a);
      if name.None? {
        continue;
      }
      var key := name.value;
      if key !in groups {
        GroupsOfUnmappedNamesEmpty(prefix, key);
        groups := groups[key := Group([], [])];
        names := names + [key];
      }
      var g := groups[key];
      assert g == GroupOf(prefix, key);
      var rationales := if TruthyText(a.row.rationale) then g.rationales + [a.row.rationale.value] else g.rationales;
      groups := groups[key := Group(g.scores + [a.row.score], rationales)];
      assert groups[key] == Joined(GroupOf(prefix, key), a, key);
    }
    assert assessments[..|assessments|] == assessments;
  }

  // ---------------------------------------------------------------------
  // Rows created
  // ---------------------------------------------------------------------

  /**
   * The row migrated from a capability's group: inheriting when the rounded
   * mean equals the baseline, otherwise an override carrying the rounded mean
   * and the group's rationales joined with " | ".
   */
  function MigratedRow(useCaseId: string, capability: Capability, g: Group): (r: CapabilityAssessmentRow)
    ensures r.useCaseId == useCaseId && r.capabilityId == capability.id
    ensures r.useCompanyScore <==> RoundHalfUp(Mean(g.scores)) as real == capability.score
    ensures r.useCompanyScore ==> r.overrideScore.None? && r.overrideRationale.None?
    ensures !r.useCompanyScore ==>
      r.overrideScore == Some(RoundHalfUp(Mean(g.scores)) as real) &&
      r.overrideRationale == Some(Text.Join(g.rationales, RationaleSeparator))
  {
    var avg := RoundHalfUp(Mean(g.scores)) as real;
    if avg == capability.score then CapabilityAssessmentRow(useCaseId, capability.id, true, None, None)
    else CapabilityAssessmentRow(useCaseId, capability.id, false, Some(avg), Some(Text.Join(g.rationales, RationaleSeparator)))
  }

  function InheritedRow(useCaseId: string, capabilityId: string): CapabilityAssessmentRow {
    CapabilityAssessmentRow(useCaseId, capabilityId, true, None, None)
  }

  /** `findUnique` then `create` when nothing was found. */
  function CreateIfAbsent(rows: seq<CapabilityAssessmentRow>, row: CapabilityAssessmentRow): (r: seq<CapabilityAssessmentRow>)
    ensures rows <= r
  {
    if HasKey(rows, row.useCaseId, row.capabilityId) then rows else rows + [row]
  }

  /** The table after the first creation loop has handled the first |names| groups. */
  function AfterGroups(rows: seq<CapabilityAssessmentRow>, caps: seq<Capability>, u: UseCaseSnapshot, names: seq<string>): (r: seq<CapabilityAssessmentRow>)
    ensures rows <= r
  {
    if |names| == 0 then rows
    else
      var prev := AfterGroups(rows, caps, u, names[..|names| - 1]);
      var name := names[|names| - 1];
      match FindCapabilityByName(caps, name)
      case None => prev
      case Some(c) => CreateIfAbsent(prev, MigratedRow(u.id, c, GroupOf(u.maturityAssessments, name)))
  }

  /** The table after the gap-filling loop has handled the capabilities `caps`. */
  function AfterInherited(rows: seq<CapabilityAssessmentRow>, caps: seq<Capability>, useCaseId: string): (r: seq<CapabilityAssessmentRow>)
    ensures rows <= r
  {
    if |caps| == 0 then rows
    else CreateIfAbsent(AfterInherited(rows, caps[..|caps| - 1], useCaseId), InheritedRow(useCaseId, caps[|caps| - 1].id))
  }

  /** The table after one use case is migrated; a use case without legacy assessments is skipped. */
  function MigratedRows(rows: seq<CapabilityAssessmentRow>, caps: seq<Capability>, u: UseCaseSnapshot): (r: seq<CapabilityAssessmentRow>)
    ensures rows <= r
  {
    if |u.maturityAssessments| == 0 then rows
    else AfterInherited(AfterGroups(rows, caps, u, GroupNames(u.maturityAssessments)), caps, u.id)
  }

  /** The table after the use cases are migrated in order. */
  function MigrateAll(rows: seq<CapabilityAssessmentRow>, caps: seq<Capability>, useCases: seq<UseCaseSnapshot>): (r: seq<CapabilityAssessmentRow>)
    ensures rows <= r
  {
    if |useCases| == 0 then rows
    else MigratedRows(MigrateAll(rows, caps, useCases[..|useCases| - 1]), caps, useCases[|useCases| - 1])
  }

  function SkippedCount(useCases: seq<UseCaseSnapshot>): (n: nat)
    ensures n <= |useCases|
    ensures n == 0 <==> forall i :: 0 <= i < |useCases| ==> |useCases[i].maturityAssessments| > 0
    ensures n == |useCases| <==> forall i :: 0 <= i < |useCases| ==> |useCases[i].maturityAssessments| == 0
  {
    if |useCases| == 0 then 0
    else SkippedCount(useCases[..|useCases| - 1]) + (if |useCases[|useCases| - 1].maturityAssessments| == 0 then 1 else 0)
  }

  // ---------------------------------------------------------------------
  // The script
  // ---------------------------------------------------------------------

  /** Migrates one use case; `created` counts the rows it inserted. */
  method MigrateUseCase(table: CapabilityAssessmentTable, caps: seq<Capability>, u: UseCaseSnapshot) returns (created: nat, skipped: bool)
    requires table.Valid()
    modifies table
    ensures table.Valid()
    ensures table.rows == MigratedRows(old(table.rows), caps, u)
    ensures created == |table.rows| - |old(table.rows)|
    ensures skipped <==> |u.maturityAssessments| == 0
  {
    if |u.maturityAssessments| == 0 {
      return 0, true;
    }
    skipped := false;
    var names, groups := GroupByCapability(u.maturityAssessments);
    var fromGroups := CreateGroupRows(table, caps, u, names, groups);
    var inherited := CreateInheritedRows(table, caps, u.id);
    created := fromGroups + inherited;
  }

  /** The first creation loop: one row per mapped capability group, unless the use case already has one. */
  method CreateGroupRows(table: CapabilityAssessmentTable, caps: seq<Capability>, u: UseCaseSnapshot, names: seq<string>, groups: map<string, Group>)
    returns (created: nat)
    requires table.Valid()
    requires forall n :: n in names ==> n in groups && groups[n] == GroupOf(u.maturityAssessments, n)
    modifies table
    ensures table.Valid()
    ensures table.rows == AfterGroups(old(table.rows), caps, u, names)
    ensures created == |table.rows| - |old(table.rows)|
  {
    ghost var start := table.rows;
    created := 0;
    for k := 0 to |names|
      invariant table.Valid()
      invariant table.rows == AfterGroups(start, caps, u, names[..k])
      invariant created == |table.rows| - |start|
    {
      assert names[..k + 1][..k] == names[..k];
      var name := names[k];
      var capability := FindCapabilityByName(caps, name);
      if capability.None? {
        continue;
      }
      var c := capability.value;
      var row := MigratedRow(u.id, c, groups[name]);
      var existing := table.FindUnique(u.id, c.id);
      if existing.Some? {
        continue;
      }
      var ok := table.Create(row);
      created := created + 1;
    }
    assert names[..|names|] == names;
  }

  /** The gap-filling loop: an inheriting row for every company capability the use case still lacks. */
  method CreateInheritedRows(table: CapabilityAssessmentTable, caps: seq<Capability>, useCaseId: string) returns (created: nat)
    requires table.Valid()
    modifies table
    ensures table.Valid()
    ensures table.rows == AfterInherited(old(table.rows), caps, useCaseId)
    ensures created == |table.rows| - |old(table.rows)|
  {
    ghost var start := table.rows;
    created := 0;
    for k := 0 to |caps|
      invariant table.Valid()
      invariant table.rows == AfterInherited(start, caps[..k], useCaseId)
      invariant created == |table.rows| - |start|
    {
      assert caps[..k + 1][..k] == caps[..k];
      var existing := table.FindUnique(useCaseId, caps[k].id);
      if existing.None? {
        var ok := table.Create(InheritedRow(useCaseId, caps[k].id));
        created := created + 1;
      }
    }
    assert caps[..|caps|] == caps;
  }

  datatype Outcome = NoCapabilities | Completed(totalMigrated: nat, totalSkipped: nat)

  /** The script: nothing without company capabilities, otherwise every use case in order. */
  method Migrate(table: CapabilityAssessmentTable, caps: seq<Capability>, useCases: seq<UseCaseSnapshot>) returns (outcome: Outcome)
    requires table.Valid()
    modifies table
    ensures table.Valid()
    ensures |caps| == 0 ==> outcome == NoCapabilities && table.rows == old(table.rows)
    ensures |caps| > 0 ==>
      table.rows == MigrateAll(old(table.rows), caps, useCases) &&
      outcome == Completed(|table.rows| - |old(table.rows)|, SkippedCount(useCases))
  {
    if |caps| == 0 {
      return NoCapabilities;
    }
    ghost var start := table.rows;
    var totalMigrated, totalSkipped := 0, 0;
    for i := 0 to |useCases|
      invariant table.Valid()
      invariant table.rows == MigrateAll(start, caps, useCases[..i])
      invariant totalMigrated == |table.rows| - |start|
      invariant totalSkipped == SkippedCount(useCases[..i])
    {
      assert useCases[..i + 1][..i] == useCases[..i];
      var created, skipped := MigrateUseCase(table, caps, useCases[i]);
      totalMigrated := totalMigrated + created;
      if skipped {
        totalSkipped := totalSkipped + 1;
      }
    }
    assert useCases[..|useCases|] == useCases;
    return Completed(totalMigrated, totalSkipped);
  }

  // ---------------------------------------------------------------------
  // Properties
  // ---------------------------------------------------------------------

  /** Scale and Latency both feed Infrastructure; Match Rate and ML Readiness both feed Data Quality. */
  lemma PillarMapIsManyToOne()
    ensures PillarToCapability["Scale / Coverage"] == PillarToCapability["Latency / Real-Time"] == "Infrastructure & Operations"
    ensures PillarToCapability["Match Rate / Accuracy"] == PillarToCapability["ML Readiness"] == "Data Quality & Accuracy"
    ensures "Data Readiness" !in PillarToCapability
  {
  }

  /** Two Infrastructure pillars around an unmapped one. */
  const SharedPillarExample: seq<JoinedLegacyAssessment> := [
    JoinedLegacyAssessment(LegacyAssessmentRow("u", "p1", 3.0, Some("fast")), "Latency / Real-Time"),
    JoinedLegacyAssessment(LegacyAssessmentRow("u", "p2", 5.0, None), "Data Readiness"),
    JoinedLegacyAssessment(LegacyAssessmentRow("u", "p3", 4.0, Some("wide")), "Scale / Coverage")]

  /** Both pillars of Infrastructure land in one group, and the unmapped pillar in none. */
  lemma SharedCapabilityNamesExample()
    ensures GroupNames(SharedPillarExample) == ["Infrastructure & Operations"]
  {
    var a, infra := SharedPillarExample, "Infrastructure & Operations";
    assert MappedName(a[0]) == Some(infra) && MappedName(a[1]).None? && MappedName(a[2]) == Some(infra);
    assert a[..2][..1] == a[..1] && a[..1][..0] == [];
    assert GroupNames(a[..1]) == [infra];
    assert GroupNames(a[..2]) == [infra];
  }

  /** The shared group holds both scores and both rationales in order; its mean 3.5 rounds up to 4. */
  lemma SharedCapabilityGroupExample()
    ensures GroupOf(SharedPillarExample, "Infrastructure & Operations") == Group([3.0, 4.0], ["fast", "wide"])
    ensures RoundHalfUp(Mean([3.0, 4.0])) == 4
  {
    var a, infra := SharedPillarExample, "Infrastructure & Operations";
    assert MappedName(a[0]) == Some(infra) && MappedName(a[1]).None? && MappedName(a[2]) == Some(infra);
    assert a[..2][..1] == a[..1] && a[..1][..0] == [];
    assert GroupScores(a[..1], infra) == [3.0] && GroupRationales(a[..1], infra) == ["fast"];
    assert GroupScores(a[..2], infra) == [3.0] && GroupRationales(a[..2], infra) == ["fast"];
    assert Sum([3.0, 4.0]) == 7.0 by { assert [3.0, 4.0][1..] == [4.0]; }
  }

  /** An assessment of an unmapped pillar changes no group. */
  lemma UnmappedPillarIgnored(assessments: seq<JoinedLegacyAssessment>, a: JoinedLegacyAssessment, name: string)
    requires MappedName(a).None?
    ensures GroupNames(assessments + [a]) == GroupNames(assessments)
    ensures GroupOf(assessments + [a], name) == GroupOf(assessments, name)
  {
    assert (assessments + [a])[..|assessments|] == assessments;
  }

  lemma CreateIfAbsentKeepsUniqueKeys(rows: seq<CapabilityAssessmentRow>, row: CapabilityAssessmentRow)
    requires UniqueKeys(rows)
    ensures UniqueKeys(CreateIfAbsent(rows, row))
  {
    if !HasKey(rows, row.useCaseId, row.capabilityId) {
      UniqueKeysAppend(rows, [row]);
    }
  }

  lemma HasKeyPersists(rows: seq<CapabilityAssessmentRow>, later: seq<CapabilityAssessmentRow>, useCaseId: string, capabilityId: string)
    requires rows <= later && HasKey(rows, useCaseId, capabilityId)
    ensures HasKey(later, useCaseId, capabilityId)
  {
    var i :| 0 <= i < |rows| && rows[i].useCaseId == useCaseId && rows[i].capabilityId == capabilityId;
    assert later[i] == rows[i];
  }

  /** The gap-filling loop leaves a row for every capability it went through. */
  lemma {:induction false} AfterInheritedCovers(rows: seq<CapabilityAssessmentRow>, caps: seq<Capability>, useCaseId: string)
    ensures forall i :: 0 <= i < |caps| ==> HasKey(AfterInherited(rows, caps, useCaseId), useCaseId, caps[i].id)
  {
    if |caps| > 0 {
      var init := caps[..|caps| - 1];
      AfterInheritedCovers(rows, init, useCaseId);
      var prev := AfterInherited(rows, init, useCaseId);
      var after := AfterInherited(rows, caps, useCaseId);
      forall i | 0 <= i < |caps| ensures HasKey(after, useCaseId, caps[i].id) {
        if i < |caps| - 1 {
          assert caps[i] == init[i];
          HasKeyPersists(prev, after, useCaseId, caps[i].id);
        } else if HasKey(prev, useCaseId, caps[i].id) {
          HasKeyPersists(prev, after, useCaseId, caps[i].id);
        } else {
          assert after[|prev|] == InheritedRow(useCaseId, caps[i].id);
        }
      }
    }
  }

  /** A processed use case ends with a row, and by the unique key exactly one, for every company capability. */
  lemma MigrationCoversCapabilities(rows: seq<CapabilityAssessmentRow>, caps: seq<Capability>, u: UseCaseSnapshot)
    requires |u.maturityAssessments| > 0
    ensures forall i :: 0 <= i < |caps| ==> HasKey(MigratedRows(rows, caps, u), u.id, caps[i].id)
  {
    AfterInheritedCovers(AfterGroups(rows, caps, u, GroupNames(u.maturityAssessments)), caps, u.id);
  }

  predicate Covered(rows: seq<CapabilityAssessmentRow>, caps: seq<Capability>, useCaseId: string) {
    forall i :: 0 <= i < |caps| ==> HasKey(rows, useCaseId, caps[i].id)
  }

  lemma {:induction false} AfterGroupsWhenCovered(rows: seq<CapabilityAssessmentRow>, caps: seq<Capability>, u: UseCaseSnapshot, names: seq<string>)
    requires Covered(rows, caps, u.id)
    ensures AfterGroups(rows, caps, u, names) == rows
  {
    if |names| > 0 {
      AfterGroupsWhenCovered(rows, caps, u, names[..|names| - 1]);
      var found := FindCapabilityByName(caps, names[|names| - 1]);
      if found.Some? {
        var i :| 0 <= i < |caps| && caps[i] == found.value;
        assert HasKey(rows, u.id, caps[i].id);
      }
    }
  }

  lemma {:induction false} AfterInheritedWhenCovered(rows: seq<CapabilityAssessmentRow>, caps: seq<Capability>, useCaseId: string)
    requires Covered(rows, caps, useCaseId)
    ensures AfterInherited(rows, caps, useCaseId) == rows
  {
    if |caps| > 0 {
      var init := caps[..|caps| - 1];
      assert Covered(rows, init, useCaseId) by {
        forall i | 0 <= i < |init| ensures HasKey(rows, useCaseId, init[i].id) {
          assert init[i] == caps[i];
        }
      }
      AfterInheritedWhenCovered(rows, init, useCaseId);
    }
  }

  /** A use case that already has a row for every capability gets nothing more. */
  lemma MigratedRowsWhenCovered(rows: seq<CapabilityAssessmentRow>, caps: seq<Capability>, u: UseCaseSnapshot)
    requires Covered(rows, caps, u.id)
    ensures MigratedRows(rows, caps, u) == rows
  {
    AfterGroupsWhenCovered(rows, caps, u, GroupNames(u.maturityAssessments));
    AfterInheritedWhenCovered(rows, caps, u.id);
  }

  /** Every processed use case among the first |useCases| is covered after the run. */
  lemma {:induction false} MigrateAllCovers(rows: seq<CapabilityAssessmentRow>, caps: seq<Capability>, useCases: seq<UseCaseSnapshot>)
    ensures forall k :: 0 <= k < |useCases| && |useCases[k].maturityAssessments| > 0 ==>
      Covered(MigrateAll(rows, caps, useCases), caps, useCases[k].id)
  {
    if |useCases| > 0 {
      var init := useCases[..|useCases| - 1];
      var last := useCases[|useCases| - 1];
      var prev := MigrateAll(rows, caps, init);
      var after := MigrateAll(rows, caps, useCases);
      MigrateAllCovers(rows, caps, init);
      forall k | 0 <= k < |useCases| && |useCases[k].maturityAssessments| > 0
        ensures Covered(after, caps, useCases[k].id)
      {
        if k < |useCases| - 1 {
          assert useCases[k] == init[k];
          forall i | 0 <= i < |caps| ensures HasKey(after, useCases[k].id, caps[i].id) {
            HasKeyPersists(prev, after, useCases[k].id, caps[i].id);
          }
        } else {
          MigrationCoversCapabilities(prev, caps, last);
        }
      }
    }
  }

  lemma {:induction false} MigrateAllWhenCovered(rows: seq<CapabilityAssessmentRow>, caps: seq<Capability>, useCases: seq<UseCaseSnapshot>)
    requires forall k :: 0 <= k < |useCases| && |useCases[k].maturityAssessments| > 0 ==> Covered(rows, caps, useCases[k].id)
    ensures MigrateAll(rows, caps, useCases) == rows
  {
    if |useCases| > 0 {
      var init := useCases[..|useCases| - 1];
      var last := useCases[|useCases| - 1];
      assert forall k :: 0 <= k < |init| ==> init[k] == useCases[k];
      MigrateAllWhenCovered(rows, caps, init);
      if |last.maturityAssessments| > 0 {
        MigratedRowsWhenCovered(rows, caps, last);
      }
    }
  }

  /** Running the migration a second time creates nothing. */
  lemma MigrationIdempotent(rows: seq<CapabilityAssessmentRow>, caps: seq<Capability>, useCases: seq<UseCaseSnapshot>)
    ensures var once := MigrateAll(rows, caps, useCases);
            MigrateAll(once, caps, useCases) == once
  {
    MigrateAllCovers(rows, caps, useCases);
    MigrateAllWhenCovered(MigrateAll(rows, caps, useCases), caps, useCases);
  }

  /** Rows present before the run are kept, unchanged and in place, and the unique key still holds. */
  lemma {:induction false} MigrationKeepsExistingRows(rows: seq<CapabilityAssessmentRow>, caps: seq<Capability>, useCases: seq<UseCaseSnapshot>)
    requires UniqueKeys(rows)
    ensures rows <= MigrateAll(rows, caps, useCases)
    ensures UniqueKeys(MigrateAll(rows, caps, useCases))
  {
    if |useCases| > 0 {
      var init := useCases[..|useCases| - 1];
      MigrationKeepsExistingRows(rows, caps, init);
      MigratedRowsKeepUniqueKeys(MigrateAll(rows, caps, init), caps, useCases[|useCases| - 1]);
    }
  }

  lemma MigratedRowsKeepUniqueKeys(rows: seq<CapabilityAssessmentRow>, caps: seq<Capability>, u: UseCaseSnapshot)
    requires UniqueKeys(rows)
    ensures UniqueKeys(MigratedRows(rows, caps, u))
  {
    if |u.maturityAssessments| > 0 {
      AfterGroupsKeepUniqueKeys(rows, caps, u, GroupNames(u.maturityAssessments));
      AfterInheritedKeepUniqueKeys(AfterGroups(rows, caps, u, GroupNames(u.maturityAssessments)), caps, u.id);
    }
  }

  lemma {:induction false} AfterGroupsKeepUniqueKeys(rows: seq<CapabilityAssessmentRow>, caps: seq<Capability>, u: UseCaseSnapshot, names: seq<string>)
    requires UniqueKeys(rows)
    ensures UniqueKeys(AfterGroups(rows, caps, u, names))
  {
    if |names| > 0 {
      var prev := AfterGroups(rows, caps, u, names[..|names| - 1]);
      AfterGroupsKeepUniqueKeys(rows, caps, u, names[..|names| - 1]);
      var name := names[|names| - 1];
      var found := FindCapabilityByName(caps, name);
      if found.Some? {
        CreateIfAbsentKeepsUniqueKeys(prev, MigratedRow(u.id, found.value, GroupOf(u.maturityAssessments, name)));
      }
    }
  }

  lemma {:induction false} AfterInheritedKeepUniqueKeys(rows: seq<CapabilityAssessmentRow>, caps: seq<Capability>, useCaseId: string)
    requires UniqueKeys(rows)
    ensures UniqueKeys(AfterInherited(rows, caps, useCaseId))
  {
    if |caps| > 0 {
      AfterInheritedKeepUniqueKeys(rows, caps[..|caps| - 1], useCaseId);
      CreateIfAbsentKeepsUniqueKeys(AfterInherited(rows, caps[..|caps| - 1], useCaseId), InheritedRow(useCaseId, caps[|caps| - 1].id));
    }
  }

  lemma {:induction false} FindRowAppend(rows: seq<CapabilityAssessmentRow>, row: CapabilityAssessmentRow, useCaseId: string, capabilityId: string)
    ensures FindRow(rows + [row], useCaseId, capabilityId) ==
      if HasKey(rows, useCaseId, capabilityId) then FindRow(rows, useCaseId, capabilityId)
      else if row.useCaseId == useCaseId && row.capabilityId == capabilityId then Some(row)
      else None
  {
    if |rows| > 0 {
      assert (rows + [row])[1..] == rows[1..] + [row];
      FindRowAppend(rows[1..], row, useCaseId, capabilityId);
      if !(rows[0].useCaseId == useCaseId && rows[0].capabilityId == capabilityId) {
        assert HasKey(rows, useCaseId, capabilityId) <==> HasKey(rows[1..], useCaseId, capabilityId) by {
          if HasKey(rows, useCaseId, capabilityId) {
            var i :| 0 <= i < |rows| && rows[i].useCaseId == useCaseId && rows[i].capabilityId == capabilityId;
            assert rows[1..][i - 1] == rows[i];
          }
          if HasKey(rows[1..], useCaseId, capabilityId) {
            var i :| 0 <= i < |rows[1..]| && rows[1..][i].useCaseId == useCaseId && rows[1..][i].capabilityId == capabilityId;
            assert rows[i + 1] == rows[1..][i];
          }
        }
      }
    } else {
      assert [] + [row] == [row];
    }
  }

  lemma SameIdSameCapability(caps: seq<Capability>, a: Capability, b: Capability)
    requires UniqueCapabilityIds(caps) && a in caps && b in caps && a.id == b.id
    ensures a == b
  {
    var i :| 0 <= i < |caps| && caps[i] == a;
    var j :| 0 <= j < |caps| && caps[j] == b;
    assert !(i < j) && !(j < i);
  }

  /** What the first creation loop leaves for the key (use case, c), given that the table had no such row. */
  lemma {:induction false} AfterGroupsFind(
    rows: seq<CapabilityAssessmentRow>, caps: seq<Capability>, u: UseCaseSnapshot, names: seq<string>, c: Capability)
    requires UniqueCapabilityIds(caps) && c in caps && !HasKey(rows, u.id, c.id)
    requires forall i, j :: 0 <= i < j < |names| ==> names[i] != names[j]
    ensures FindRow(AfterGroups(rows, caps, u, names), u.id, c.id) ==
      if c.name in names && FindCapabilityByName(caps, c.name) == Some(c)
      then Some(MigratedRow(u.id, c, GroupOf(u.maturityAssessments, c.name)))
      else None
  {
    if |names| > 0 {
      var init := names[..|names| - 1];
      var name := names[|names| - 1];
      assert names == init + [name];
      assert name !in init;
      AfterGroupsFind(rows, caps, u, init, c);
      var prev := AfterGroups(rows, caps, u, init);
      var found := FindCapabilityByName(caps, name);
      if found.Some? {
        var row := MigratedRow(u.id, found.value, GroupOf(u.maturityAssessments, name));
        FindRowAppend(prev, row, u.id, c.id);
        if found.value.id == c.id {
          SameIdSameCapability(caps, found.value, c);
        }
      }
    }
  }

  /** What the gap-filling loop leaves for a key: the existing row, else an inheriting row for a listed capability. */
  lemma {:induction false} AfterInheritedFind(rows: seq<CapabilityAssessmentRow>, caps: seq<Capability>, useCaseId: string, capabilityId: string)
    ensures FindRow(AfterInherited(rows, caps, useCaseId), useCaseId, capabilityId) ==
      if HasKey(rows, useCaseId, capabilityId) then FindRow(rows, useCaseId, capabilityId)
      else if FindCapability(caps, capabilityId).Some? then Some(InheritedRow(useCaseId, capabilityId))
      else None
  {
    if |caps| > 0 {
      var init := caps[..|caps| - 1];
      var last := caps[|caps| - 1];
      var prev := AfterInherited(rows, init, useCaseId);
      var row := InheritedRow(useCaseId, last.id);
      assert AfterInherited(rows, caps, useCaseId) == CreateIfAbsent(prev, row);
      AfterInheritedFind(rows, init, useCaseId, capabilityId);
      InitCapabilityFound(caps, capabilityId);
      if HasKey(prev, row.useCaseId, row.capabilityId) {
        assert CreateIfAbsent(prev, row) == prev;
        if last.id == capabilityId {
          assert FindRow(prev, useCaseId, capabilityId).Some?;
        }
      } else {
        assert CreateIfAbsent(prev, row) == prev + [row];
        FindRowAppend(prev, row, useCaseId, capabilityId);
      }
    }
  }

  /** Dropping the last capability loses only that capability's id. */
  lemma InitCapabilityFound(caps: seq<Capability>, capabilityId: string)
    requires |caps| > 0
    ensures FindCapability(caps, capabilityId).Some? <==>
      FindCapability(caps[..|caps| - 1], capabilityId).Some? || caps[|caps| - 1].id == capabilityId
  {
    var init := caps[..|caps| - 1];
    assert forall i :: 0 <= i < |init| ==> init[i] == caps[i];
  }

  /** The row a processed use case ends with for a capability it had no row for. */
  function ExpectedRow(u: UseCaseSnapshot, c: Capability, caps: seq<Capability>): CapabilityAssessmentRow {
    if c.name in GroupNames(u.maturityAssessments) && FindCapabilityByName(caps, c.name) == Some(c)
    then MigratedRow(u.id, c, GroupOf(u.maturityAssessments, c.name))
    else InheritedRow(u.id, c.id)
  }

  /**
   * A capability some pillar maps to gets the row migrated from its group (the
   * first capability of that name only); every other one gets an inheriting row.
   */
  lemma MigratedRowContent(rows: seq<CapabilityAssessmentRow>, caps: seq<Capability>, u: UseCaseSnapshot, c: Capability)
    requires UniqueCapabilityIds(caps) && c in caps
    requires |u.maturityAssessments| > 0 && !HasKey(rows, u.id, c.id)
    ensures FindRow(MigratedRows(rows, caps, u), u.id, c.id) == Some(ExpectedRow(u, c, caps))
  {
    var names := GroupNames(u.maturityAssessments);
    AfterGroupsFind(rows, caps, u, names, c);
    AfterInheritedFind(AfterGroups(rows, caps, u, names), caps, u.id, c.id);
    var i :| 0 <= i < |caps| && caps[i] == c;
  }
}
