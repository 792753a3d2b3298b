/**
 * The strategic-priority badge of a use case: among the verticals it fits as
 * "Primary", the one of highest strategic priority, and the badge variant
 * that priority is shown with.
 */
module PriorityBadge {
  import opened Wrappers
  import opened Badge
  import Lists

  datatype Vertical = Vertical(name: string, strategicPriority: string)

  /** A use case's link to a vertical, with its fit ("Primary", "Secondary", ...). */
  datatype VerticalFit = VerticalFit(fit: string, vertical: Vertical)

  const PrimaryFit: string := "Primary"

  /** Critical 4, High 3, Medium 2, Low 1; a priority missing from the table reads as 0. */
  function Rank(priority: string): (r: nat)
    ensures r <= 4
    ensures r == 0 <==> priority != "Critical" && priority != "High" && priority != "Medium" && priority != "Low"
  {
    match priority
    case "Critical" => 4
    case "High" => 3
    case "Medium" => 2
    case "Low" => 1
    case _ => 0
  }

  function RankOf(v: VerticalFit): nat {
    Rank(v.vertical.strategicPriority)
  }

  function Fit(v: VerticalFit): string {
    v.fit
  }

  /** `verticals.filter(v => v.fit === 'Primary')`. */
  function PrimaryVerticals(verticals: seq<VerticalFit>): seq<VerticalFit> {
    Lists.Matching(Fit, PrimaryFit, verticals)
  }

  /** `reduce((max, v) => rank(v) > rank(max) ? v : max)` over `rest`, starting from `max`. */
  function ReduceHighest(max: VerticalFit, rest: seq<VerticalFit>): VerticalFit
    decreases |rest|
  {
    if |rest| == 0 then max
    else ReduceHighest(if RankOf(rest[0]) > RankOf(max) then rest[0] else max, rest[1..])
  }

  /** The reduction's result is the start or one of the verticals reduced over. */
  lemma {:induction false} ReduceHighestFrom(max: VerticalFit, rest: seq<VerticalFit>)
    ensures ReduceHighest(max, rest) == max || ReduceHighest(max, rest) in rest
    decreases |rest|
  {
    if |rest| > 0 {
      ReduceHighestFrom(if RankOf(rest[0]) > RankOf(max) then rest[0] else max, rest[1..]);
    }
  }

  /** The result ranks at least as high as the start and as every vertical reduced over. */
  lemma {:induction false} ReduceHighestMaximal(max: VerticalFit, rest: seq<VerticalFit>)
    ensures RankOf(max) <= RankOf(ReduceHighest(max, rest))
    ensures forall i :: 0 <= i < |rest| ==> RankOf(rest[i]) <= RankOf(ReduceHighest(max, rest))
    decreases |rest|
  {
    if |rest| > 0 {
      var next := if RankOf(rest[0]) > RankOf(max) then rest[0] else max;
      ReduceHighestMaximal(next, rest[1..]);
      assert forall i :: 1 <= i < |rest| ==> rest[i] == rest[1..][i - 1];
    }
  }

  /**
   * A vertical replaces the start only by ranking strictly higher than it and
   * than every vertical before it: the strict comparison keeps the earliest of
   * equally ranked verticals.
   */
  lemma {:induction false} ReduceHighestEarliest(max: VerticalFit, rest: seq<VerticalFit>)
    ensures var r := ReduceHighest(max, rest);
      r == max ||
      exists k :: 0 <= k < |rest| && rest[k] == r && RankOf(max) < RankOf(r) &&
                  forall j :: 0 <= j < k ==> RankOf(rest[j]) < RankOf(r)
    decreases |rest|
  {
    if |rest| > 0 {
      var next := if RankOf(rest[0]) > RankOf(max) then rest[0] else max;
      var r := ReduceHighest(next, rest[1..]);
      assert r == ReduceHighest(max, rest);
      ReduceHighestEarliest(next, rest[1..]);
      ReduceHighestMaximal(next, rest[1..]);
      if r != next {
        var k :| 0 <= k < |rest[1..]| && rest[1..][k] == r && RankOf(next) < RankOf(r) &&
          forall j :: 0 <= j < k ==> RankOf(rest[1..][j]) < RankOf(r);
        assert rest[k + 1] == r;
        forall j | 0 <= j < k + 1 ensures RankOf(rest[j]) < RankOf(r) {
          if j > 0 { assert rest[j] == rest[1..][j - 1]; }
        }
      } else if r != max {
        assert rest[0] == r;
      }
    }
  }

  /**
   * The Primary vertical of highest strategic priority (`null` when no
   * vertical is Primary).
   */
  function HighestPriorityVertical(verticals: seq<VerticalFit>): (r: Option<VerticalFit>)
    ensures r.None? <==> forall i :: 0 <= i < |verticals| ==> verticals[i].fit != PrimaryFit
    ensures r.Some? ==> r.value in verticals && r.value.fit == PrimaryFit
  {
    var primary := PrimaryVerticals(verticals);
    Lists.MatchingMembers(Fit, PrimaryFit, verticals);
    if |primary| == 0 then
      assert forall i :: 0 <= i < |verticals| ==> verticals[i] !in primary;
      None
    else
      assert primary[0] in primary;
      ReduceHighestFrom(primary[0], primary[1..]);
      Some(ReduceHighest(primary[0], primary[1..]))
  }

  /**
   * The chosen vertical ranks at least as high as every Primary vertical, and
   * every Primary vertical listed before it ranks strictly lower.
   */
  lemma HighestIsEarliestMaximum(verticals: seq<VerticalFit>)
    requires HighestPriorityVertical(verticals).Some?
    ensures var h := HighestPriorityVertical(verticals).value;
      (forall i :: 0 <= i < |verticals| && verticals[i].fit == PrimaryFit ==> RankOf(verticals[i]) <= RankOf(h)) &&
      var primary := PrimaryVerticals(verticals);
      exists k :: 0 <= k < |primary| && primary[k] == h && forall j :: 0 <= j < k ==> RankOf(primary[j]) < RankOf(h)
  {
    var primary := PrimaryVerticals(verticals);
    var h := HighestPriorityVertical(verticals).value;
    Lists.MatchingMembers(Fit, PrimaryFit, verticals);
    ReduceHighestMaximal(primary[0], primary[1..]);
    ReduceHighestEarliest(primary[0], primary[1..]);
    forall i | 0 <= i < |verticals| && verticals[i].fit == PrimaryFit ensures RankOf(verticals[i]) <= RankOf(h) {
      assert verticals[i] in primary;
      var m :| 0 <= m < |primary| && primary[m] == verticals[i];
      if m > 0 { assert primary[m] == primary[1..][m - 1]; }
    }
    if h != primary[0] {
      var k :| 0 <= k < |primary[1..]| && primary[1..][k] == h && RankOf(primary[0]) < RankOf(h) &&
        forall j :: 0 <= j < k ==> RankOf(primary[1..][j]) < RankOf(h);
      assert primary[k + 1] == h;
      forall j | 0 <= j < k + 1 ensures RankOf(primary[j]) < RankOf(h) {
        if j > 0 { assert primary[j] == primary[1..][j - 1]; }
      }
    }
  }

  /** Verticals that are not Primary never change the result, wherever they are inserted. */
  lemma {:induction false} NonPrimaryIgnored(a: seq<VerticalFit>, v: VerticalFit, b: seq<VerticalFit>)
    requires v.fit != PrimaryFit
    ensures HighestPriorityVertical(a + [v] + b) == HighestPriorityVertical(a + b)
  {
    var pa, pv, pb := PrimaryVerticals(a), PrimaryVerticals([v]), PrimaryVerticals(b);
    Lists.NoneMatching(Fit, PrimaryFit, [v]);
    Lists.MatchingAppend(Fit, PrimaryFit, a, [v]);
    assert PrimaryVerticals(a + [v]) == pa + pv == pa;
    Lists.MatchingAppend(Fit, PrimaryFit, a + [v], b);
    Lists.MatchingAppend(Fit, PrimaryFit, a, b);
    HighestFollowsPrimary(a + [v] + b, a + b);
  }

  /** The result depends on the Primary verticals alone. */
  lemma HighestFollowsPrimary(vs: seq<VerticalFit>, ws: seq<VerticalFit>)
    requires PrimaryVerticals(vs) == PrimaryVerticals(ws)
    ensures HighestPriorityVertical(vs) == HighestPriorityVertical(ws)
  {
  }

  /** Of two equally ranked Primary verticals, the one listed first is chosen. */
  lemma TieGoesToEarliest()
    ensures var first := VerticalFit("Primary", Vertical("Retail", "High"));
            var second := VerticalFit("Primary", Vertical("Finance", "High"));
            var other := VerticalFit("Secondary", Vertical("Health", "Critical"));
            HighestPriorityVertical([other, first, second]) == Some(first)
  {
    var first := VerticalFit("Primary", Vertical("Retail", "High"));
    var second := VerticalFit("Primary", Vertical("Finance", "High"));
    var other := VerticalFit("Secondary", Vertical("Health", "Critical"));
    var vs := [other, first, second];
    assert PrimaryVerticals(vs) == [first, second] by {
      assert vs == [other] + [first] + [second];
      Lists.MatchingAppend(Fit, PrimaryFit, [other] + [first], [second]);
      Lists.MatchingAppend(Fit, PrimaryFit, [other], [first]);
      Lists.NoneMatching(Fit, PrimaryFit, [other]);
      Lists.AllMatching(Fit, PrimaryFit, [first]);
      Lists.AllMatching(Fit, PrimaryFit, [second]);
    }
    assert [first, second][1..] == [second];
  }

  /** Critical destructive, High default, Medium outline, Low secondary, anything else outline. */
  function BadgeVariant(priority: string): Variant {
    match priority
    case "Critical" => Destructive
    case "High" => Default
    case "Medium" => Outline
    case "Low" => Secondary
    case _ => Outline
  }

  /**
   * The four ranked priorities get four different variants, so the badge's
   * variant gives its rank back; an unranked priority looks like Medium.
   */
  lemma BadgeVariantShowsRank(p: string, q: string)
    ensures Rank(p) > 0 && Rank(q) > 0 && BadgeVariant(p) == BadgeVariant(q) ==> p == q
    ensures Rank(p) == 0 ==> BadgeVariant(p) == BadgeVariant("Medium")
    ensures BadgeVariant(p) == Destructive <==> Rank(p) == 4
  {
  }
}
