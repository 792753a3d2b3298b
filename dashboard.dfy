/**
 * The portfolio dashboard: the badge variant of each quadrant, the number of
 * plotted use cases in each quadrant, and the average maturity and
 * opportunity over the plotted use cases.
 */
module Dashboard {
  import opened Calculations
  import opened Badge
  import Actions
  import Records
  import Lists

  /** INVEST default, HARVEST secondary, MAINTAIN outline, DEPRIORITIZE destructive, anything else secondary. */
  function QuadrantVariant(quadrant: string): Variant {
    match quadrant
    case "INVEST" => Default
    case "HARVEST" => Secondary
    case "MAINTAIN" => Outline
    case "DEPRIORITIZE" => Destructive
    case _ => Secondary
  }

  /** The four quadrants' cards get four different variants. */
  lemma QuadrantVariantsDistinct(p: Quadrant, q: Quadrant)
    ensures QuadrantVariant(p.Name()) == QuadrantVariant(q.Name()) ==> p == q
  {
  }

  // ---------------------------------------------------------------------
  // Quadrant tallies
  // ---------------------------------------------------------------------

  /** Number of points in quadrant `q`, counted from the end so that a prefix extends by one point. */
  function CountOf(points: seq<Actions.PlotPoint>, q: Quadrant): (n: nat)
    ensures n <= |points|
  {
    if |points| == 0 then 0
    else CountOf(points[..|points| - 1], q) + (if points[|points| - 1].quadrant == q then 1 else 0)
  }

  /** `quadrantCounts[name] || 0`: an absent key shows as 0. */
  function Displayed(counts: map<string, nat>, name: string): nat {
    if name in counts then counts[name] else 0
  }

  /**
   * `matrixData.reduce((acc, p) => { acc[p.quadrant] = (acc[p.quadrant] || 0) + 1; ... }, {})`.
   * Keyed by quadrant name: a quadrant is a key exactly when it has a point,
   * and every card shows the number of points in its quadrant.
   */
  method CountQuadrants(points: seq<Actions.PlotPoint>) returns (counts: map<string, nat>)
    ensures forall name :: name in counts ==> exists q: Quadrant :: q.Name() == name
    ensures forall q: Quadrant :: q.Name() in counts <==> CountOf(points, q) > 0
    ensures forall q: Quadrant :: Displayed(counts, q.Name()) == CountOf(points, q)
  {
    counts := map[];
    for i := 0 to |points|
      invariant forall name :: name in counts ==> exists q: Quadrant :: q.Name() == name
      invariant forall q: Quadrant :: q.Name() in counts <==> CountOf(points[..i], q) > 0
      invariant forall q: Quadrant :: Displayed(counts, q.Name()) == CountOf(points[..i], q)
    {
      var name := points[i].quadrant.Name();
      CountOfStep(points, i);
      NamesDistinct();
      counts := counts[name := Displayed(counts, name) + 1];
    }
    assert points[..|points|] == points;
  }

  /** A point appended to a prefix adds one to its own quadrant's count and nothing to the others. */
  lemma CountOfStep(points: seq<Actions.PlotPoint>, i: nat)
    requires i < |points|
    ensures forall q: Quadrant :: CountOf(points[..i + 1], q) == CountOf(points[..i], q) + (if points[i].quadrant == q then 1 else 0)
  {
    assert points[..i + 1][..i] == points[..i];
  }

  /** The four quadrant names are different keys. */
  lemma NamesDistinct()
    ensures forall p: Quadrant, q: Quadrant :: p.Name() == q.Name() ==> p == q
  {
  }

  /** Every plotted point is counted in exactly one card: the four counts add up to the number of points. */
  lemma {:induction false} CountsCoverPoints(points: seq<Actions.PlotPoint>)
    ensures CountOf(points, Invest) + CountOf(points, Harvest) + CountOf(points, Maintain) + CountOf(points, Deprioritize) == |points|
  {
    if |points| > 0 {
      CountsCoverPoints(points[..|points| - 1]);
    }
  }

  // ---------------------------------------------------------------------
  // Averages
  // ---------------------------------------------------------------------

  function PointMaturity(p: Actions.PlotPoint): real {
    p.maturityScore.averageScore
  }

  function PointOpportunity(p: Actions.PlotPoint): real {
    p.opportunityScore.averageScore
  }

  /** `sum of maturityScore.averageScore / length`, or 0 without points. */
  function AverageMaturity(points: seq<Actions.PlotPoint>): real {
    Mean(Lists.Map(PointMaturity, points))
  }

  /** `sum of opportunityScore.averageScore / length`, or 0 without points. */
  function AverageOpportunity(points: seq<Actions.PlotPoint>): real {
    Mean(Lists.Map(PointOpportunity, points))
  }

  /** Without points both averages are 0; otherwise each lies within any bounds of its points' scores. */
  lemma AveragesWithin(points: seq<Actions.PlotPoint>, lo: real, hi: real)
    ensures |points| == 0 ==> AverageMaturity(points) == 0.0 && AverageOpportunity(points) == 0.0
    ensures |points| > 0 && (forall i :: 0 <= i < |points| ==> lo <= PointMaturity(points[i]) <= hi) ==>
      lo <= AverageMaturity(points) <= hi
    ensures |points| > 0 && (forall i :: 0 <= i < |points| ==> lo <= PointOpportunity(points[i]) <= hi) ==>
      lo <= AverageOpportunity(points) <= hi
  {
    if |points| > 0 {
      if forall i :: 0 <= i < |points| ==> lo <= PointMaturity(points[i]) <= hi {
        MeanWithin(Lists.Map(PointMaturity, points), lo, hi);
      }
      if forall i :: 0 <= i < |points| ==> lo <= PointOpportunity(points[i]) <= hi {
        MeanWithin(Lists.Map(PointOpportunity, points), lo, hi);
      }
    }
  }

  /** Over the matrix the dashboard shows, both averages are positive whenever some use case is plotted. */
  lemma DashboardAveragesPositive(useCases: seq<Records.UseCaseSnapshot>)
    requires |Actions.MatrixData(useCases)| > 0
    ensures AverageMaturity(Actions.MatrixData(useCases)) > 0.0
    ensures AverageOpportunity(Actions.MatrixData(useCases)) > 0.0
  {
    var points := Actions.MatrixData(useCases);
    var m, o := Lists.Map(PointMaturity, points), Lists.Map(PointOpportunity, points);
    assert MinOf(m) > 0.0 by {
      var i :| 0 <= i < |m| && m[i] == MinOf(m);
      assert points[i] in points;
    }
    assert MinOf(o) > 0.0 by {
      var i :| 0 <= i < |o| && o[i] == MinOf(o);
      assert points[i] in points;
    }
  }
}
