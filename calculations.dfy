/**
 * The scoring library: raw-metric ladders, categorical tier tables, the
 * data-source counter, the business-only opportunity composite, the plain
 * mean used for maturity, and the 3.0 / 3.0 quadrant classifier.
 * Numbers are exact reals; the JavaScript doubles of the program are not modelled.
 */
module Calculations {
  import opened Wrappers
  import Text

  // ---------------------------------------------------------------------
  // Quadrants
  // ---------------------------------------------------------------------

  datatype Quadrant = Invest | Harvest | Maintain | Deprioritize {
    /** The quadrant's name as the application writes it. */
    function Name(): string {
      match this
      case Invest => "INVEST"
      case Harvest => "HARVEST"
      case Maintain => "MAINTAIN"
      case Deprioritize => "DEPRIORITIZE"
    }

    /** The two quadrants on the high-opportunity side of the matrix. */
    predicate HighOpportunity() { this == Invest || this == Harvest }

    /** The two quadrants on the high-maturity side of the matrix. */
    predicate HighMaturity() { this == Harvest || this == Maintain }
  }

  const MaturityThreshold: real := 3.0
  const OpportunityThreshold: real := 3.0

  /** Classifies a (maturity, opportunity) pair; a score of exactly 3.0 counts as high. */
  function ClassifyQuadrant(maturity: real, opportunity: real): (q: Quadrant)
    ensures q.HighOpportunity() <==> opportunity >= OpportunityThreshold
    ensures q.HighMaturity() <==> maturity >= MaturityThreshold
  {
    if opportunity >= OpportunityThreshold && maturity < MaturityThreshold then Invest
    else if opportunity >= OpportunityThreshold && maturity >= MaturityThreshold then Harvest
    else if opportunity < OpportunityThreshold && maturity >= MaturityThreshold then Maintain
    else Deprioritize
  }

  /** The two half-planes determine a quadrant: the classifier's result is the only one consistent with them. */
  lemma QuadrantDeterminedBySides(p: Quadrant, q: Quadrant)
    requires p.HighOpportunity() == q.HighOpportunity()
    requires p.HighMaturity() == q.HighMaturity()
    ensures p == q
  {
  }

  lemma QuadrantBoundaryExamples()
    ensures ClassifyQuadrant(3.0, 3.0) == Harvest
    ensures ClassifyQuadrant(2.99, 3.0) == Invest
    ensures ClassifyQuadrant(3.0, 2.99) == Maintain
    ensures ClassifyQuadrant(2.99, 2.99) == Deprioritize
  {
  }

  // ---------------------------------------------------------------------
  // Sums and means
  // ---------------------------------------------------------------------

  function Sum(s: seq<real>): real {
    if |s| == 0 then 0.0 else s[0] + Sum(s[1..])
  }

  function MinOf(s: seq<real>): (m: real)
    requires |s| > 0
    ensures m in s
    ensures forall i :: 0 <= i < |s| ==> m <= s[i]
  {
    if |s| == 1 then s[0]
    else
      var rest := MinOf(s[1..]);
      if s[0] <= rest then s[0] else rest
  }

  function MaxOf(s: seq<real>): (m: real)
    requires |s| > 0
    ensures m in s
    ensures forall i :: 0 <= i < |s| ==> s[i] <= m
  {
    if |s| == 1 then s[0]
    else
      var rest := MaxOf(s[1..]);
      if s[0] >= rest then s[0] else rest
  }

  /** `n` copies of `x` added up. */
  function Repeated(n: nat, x: real): real {
    if n == 0 then 0.0 else x + Repeated(n - 1, x)
  }

  lemma {:induction false} RepeatedIsProduct(n: nat, x: real)
    ensures Repeated(n, x) == (n as real) * x
  {
    if n > 0 {
      RepeatedIsProduct(n - 1, x);
    }
  }

  /** A sum of n values in [lo, hi] lies between n copies of lo and n copies of hi. */
  lemma {:induction false} SumBounds(s: seq<real>, lo: real, hi: real)
    requires forall i :: 0 <= i < |s| ==> lo <= s[i] <= hi
    ensures Repeated(|s|, lo) <= Sum(s) <= Repeated(|s|, hi)
  {
    if |s| > 0 {
      SumBounds(s[1..], lo, hi);
    }
  }

  /** A total between n copies of lo and n copies of hi, shared out n ways, lies in [lo, hi]. */
  lemma ShareBounds(total: real, n: nat, lo: real, hi: real)
    requires n > 0
    requires Repeated(n, lo) <= total <= Repeated(n, hi)
    ensures lo <= total / (n as real) <= hi
  {
    RepeatedIsProduct(n, lo);
    RepeatedIsProduct(n, hi);
    DivisionBounds(total, n as real, lo, hi);
  }

  lemma DivisionBounds(x: real, n: real, lo: real, hi: real)
    requires n > 0.0
    requires n * lo <= x <= n * hi
    ensures lo <= x / n <= hi
  {
    assert x / n - lo == (x - n * lo) / n;
    assert hi - x / n == (n * hi - x) / n;
  }

  /**
   * The arithmetic mean of a list of scores, or 0 for an empty list
   * (`calculateMaturityAverage`; `calculateAverageScore` in the server actions is the same).
   */
  function Mean(scores: seq<real>): (r: real)
    ensures |scores| == 0 ==> r == 0.0
    ensures |scores| > 0 ==> MinOf(scores) <= r <= MaxOf(scores)
  {
    if |scores| == 0 then 0.0
    else
      QuotientWithinExtremes(scores);
      Sum(scores) / (|scores| as real)
  }

  /** The total divided by the count lies between the smallest and the largest score. */
  lemma QuotientWithinExtremes(scores: seq<real>)
    requires |scores| > 0
    ensures MinOf(scores) <= Sum(scores) / (|scores| as real) <= MaxOf(scores)
  {
    var lo, hi := MinOf(scores), MaxOf(scores);
    SumBounds(scores, lo, hi);
    ShareBounds(Sum(scores), |scores|, lo, hi);
  }

  /** Scores that all lie in [lo, hi] have their mean in [lo, hi]. */
  lemma MeanWithin(scores: seq<real>, lo: real, hi: real)
    requires |scores| > 0
    requires forall i :: 0 <= i < |scores| ==> lo <= scores[i] <= hi
    ensures lo <= Mean(scores) <= hi
  {
    var m, n := MinOf(scores), MaxOf(scores);
    assert m in scores && n in scores;
  }

  /** The mean of n copies of k is k. */
  lemma MeanOfConstant(scores: seq<real>, k: real)
    requires |scores| > 0
    requires forall i :: 0 <= i < |scores| ==> scores[i] == k
    ensures Mean(scores) == k
  {
    MeanWithin(scores, k, k);
  }

  // ---------------------------------------------------------------------
  // Raw-metric ladders
  // ---------------------------------------------------------------------

  /** Number of cut-points c with c <= x (a "higher is better" ladder). */
  function CutPointsReached(x: real, cuts: seq<real>): nat {
    if |cuts| == 0 then 0 else (if cuts[0] <= x then 1 else 0) + CutPointsReached(x, cuts[1..])
  }

  /** Number of cut-points c with x <= c (a "lower is better" ladder). */
  function CutPointsWithin(x: real, cuts: seq<real>): nat {
    if |cuts| == 0 then 0 else (if x <= cuts[0] then 1 else 0) + CutPointsWithin(x, cuts[1..])
  }

  lemma {:induction false} CutPointsReachedMonotone(x: real, y: real, cuts: seq<real>)
    requires x <= y
    ensures CutPointsReached(x, cuts) <= CutPointsReached(y, cuts)
  {
    if |cuts| > 0 {
      CutPointsReachedMonotone(x, y, cuts[1..]);
    }
  }

  lemma {:induction false} CutPointsWithinAntitone(x: real, y: real, cuts: seq<real>)
    requires x <= y
    ensures CutPointsWithin(y, cuts) <= CutPointsWithin(x, cuts)
  {
    if |cuts| > 0 {
      CutPointsWithinAntitone(x, y, cuts[1..]);
    }
  }

  /** A ladder over four cut-points: 1 plus the number of cut-points reached. */
  lemma FourCutPoints(x: real, cuts: seq<real>)
    requires |cuts| == 4
    ensures CutPointsReached(x, cuts) ==
      (if cuts[0] <= x then 1 else 0) + (if cuts[1] <= x then 1 else 0)
      + (if cuts[2] <= x then 1 else 0) + (if cuts[3] <= x then 1 else 0)
    ensures CutPointsWithin(x, cuts) ==
      (if x <= cuts[0] then 1 else 0) + (if x <= cuts[1] then 1 else 0)
      + (if x <= cuts[2] then 1 else 0) + (if x <= cuts[3] then 1 else 0)
  {
    var c1, c2, c3 := cuts[1..], cuts[2..], cuts[3..];
    assert c1[1..] == c2 && c2[1..] == c3 && c3[1..] == [];
    assert c1[0] == cuts[1] && c2[0] == cuts[2] && c3[0] == cuts[3];
    assert CutPointsReached(x, c3) == (if cuts[3] <= x then 1 else 0) + CutPointsReached(x, []);
    assert CutPointsReached(x, c2) == (if cuts[2] <= x then 1 else 0) + CutPointsReached(x, c3);
    assert CutPointsReached(x, c1) == (if cuts[1] <= x then 1 else 0) + CutPointsReached(x, c2);
    assert CutPointsWithin(x, c3) == (if x <= cuts[3] then 1 else 0) + CutPointsWithin(x, []);
    assert CutPointsWithin(x, c2) == (if x <= cuts[2] then 1 else 0) + CutPointsWithin(x, c3);
    assert CutPointsWithin(x, c1) == (if x <= cuts[1] then 1 else 0) + CutPointsWithin(x, c2);
  }

  const ArrCutPoints: seq<real> := [100000.0, 250000.0, 500000.0, 1000000.0]
  const PipelineCutPoints: seq<real> := [200000.0, 500000.0, 1000000.0, 2000000.0]
  const VelocityCutPoints: seq<real> := [180.0, 90.0, 60.0, 30.0]
  const WinRateCutPoints: seq<real> := [0.15, 0.25, 0.4, 0.6]
  const MatchRateCutPoints: seq<real> := [0.03, 0.05, 0.07, 0.10]

  function ArrScore(arrRaw: real): (r: int)
    ensures 1 <= r <= 5
  {
    if arrRaw >= 1000000.0 then 5
    else if arrRaw >= 500000.0 then 4
    else if arrRaw >= 250000.0 then 3
    else if arrRaw >= 100000.0 then 2
    else 1
  }

  function PipelineScore(pipelineRaw: real): (r: int)
    ensures 1 <= r <= 5
  {
    if pipelineRaw >= 2000000.0 then 5
    else if pipelineRaw >= 1000000.0 then 4
    else if pipelineRaw >= 500000.0 then 3
    else if pipelineRaw >= 200000.0 then 2
    else 1
  }

  /** Sales-cycle length in days; fewer days score higher. */
  function VelocityScore(velocityDays: real): (r: int)
    ensures 1 <= r <= 5
  {
    if velocityDays <= 30.0 then 5
    else if velocityDays <= 60.0 then 4
    else if velocityDays <= 90.0 then 3
    else if velocityDays <= 180.0 then 2
    else 1
  }

  function WinRateScore(winRate: real): (r: int)
    ensures 1 <= r <= 5
  {
    if winRate >= 0.6 then 5
    else if winRate >= 0.4 then 4
    else if winRate >= 0.25 then 3
    else if winRate >= 0.15 then 2
    else 1
  }

  /** Expected match-rate improvement as a decimal (0.05 is five points). */
  function MatchRateScore(improvement: real): (r: int)
    ensures 1 <= r <= 5
  {
    if improvement >= 0.10 then 5
    else if improvement >= 0.07 then 4
    else if improvement >= 0.05 then 3
    else if improvement >= 0.03 then 2
    else 1
  }

  lemma ArrScoreCountsCutPoints(arrRaw: real)
    ensures ArrScore(arrRaw) == 1 + CutPointsReached(arrRaw, ArrCutPoints)
  {
    FourCutPoints(arrRaw, ArrCutPoints);
  }

  lemma PipelineScoreCountsCutPoints(pipelineRaw: real)
    ensures PipelineScore(pipelineRaw) == 1 + CutPointsReached(pipelineRaw, PipelineCutPoints)
  {
    FourCutPoints(pipelineRaw, PipelineCutPoints);
  }

  lemma VelocityScoreCountsCutPoints(velocityDays: real)
    ensures VelocityScore(velocityDays) == 1 + CutPointsWithin(velocityDays, VelocityCutPoints)
  {
    FourCutPoints(velocityDays, VelocityCutPoints);
  }

  lemma WinRateScoreCountsCutPoints(winRate: real)
    ensures WinRateScore(winRate) == 1 + CutPointsReached(winRate, WinRateCutPoints)
  {
    FourCutPoints(winRate, WinRateCutPoints);
  }

  lemma MatchRateScoreCountsCutPoints(improvement: real)
    ensures MatchRateScore(improvement) == 1 + CutPointsReached(improvement, MatchRateCutPoints)
  {
    FourCutPoints(improvement, MatchRateCutPoints);
  }

  /** ARR, pipeline, win-rate and match-rate ladders never decrease; the velocity ladder never increases. */
  lemma LaddersMonotone(x: real, y: real)
    requires x <= y
    ensures ArrScore(x) <= ArrScore(y)
    ensures PipelineScore(x) <= PipelineScore(y)
    ensures WinRateScore(x) <= WinRateScore(y)
    ensures MatchRateScore(x) <= MatchRateScore(y)
    ensures VelocityScore(y) <= VelocityScore(x)
  {
    ArrScoreCountsCutPoints(x); ArrScoreCountsCutPoints(y);
    CutPointsReachedMonotone(x, y, ArrCutPoints);
    PipelineScoreCountsCutPoints(x); PipelineScoreCountsCutPoints(y);
    CutPointsReachedMonotone(x, y, PipelineCutPoints);
    WinRateScoreCountsCutPoints(x); WinRateScoreCountsCutPoints(y);
    CutPointsReachedMonotone(x, y, WinRateCutPoints);
    MatchRateScoreCountsCutPoints(x); MatchRateScoreCountsCutPoints(y);
    CutPointsReachedMonotone(x, y, MatchRateCutPoints);
    VelocityScoreCountsCutPoints(x); VelocityScoreCountsCutPoints(y);
    CutPointsWithinAntitone(x, y, VelocityCutPoints);
  }

  // ---------------------------------------------------------------------
  // Categorical tier tables (an unknown tier scores 0, without an error)
  // ---------------------------------------------------------------------

  function LatencyScore(requirement: string): (r: int)
    ensures r == 0 || r == 1 || r == 3 || r == 5
    ensures r == 0 <==> requirement != "real-time" && requirement != "near-real-time" && requirement != "batch"
  {
    match requirement
    case "real-time" => 5
    case "near-real-time" => 3
    case "batch" => 1
    case _ => 0
  }

  /** Inverted: lower privacy risk scores higher. */
  function PrivacyRiskScore(riskLevel: string): (r: int)
    ensures r == 0 || r == 1 || r == 3 || r == 5
    ensures r == 0 <==> riskLevel != "low" && riskLevel != "medium" && riskLevel != "high"
  {
    match riskLevel
    case "low" => 5
    case "medium" => 3
    case "high" => 1
    case _ => 0
  }

  /** Inverted: a smaller required scale scores higher. */
  function ScaleScore(requirement: string): (r: int)
    ensures r == 0 || r == 1 || r == 3 || r == 5
    ensures r == 0 <==> requirement != "sample" && requirement != "subset" && requirement != "full-graph"
  {
    match requirement
    case "sample" => 5
    case "subset" => 3
    case "full-graph" => 1
    case _ => 0
  }

  // ---------------------------------------------------------------------
  // Data-source dependencies
  // ---------------------------------------------------------------------

  /** `parts.map(s => s.trim()).filter(Boolean).length`. */
  function CountNonBlank(parts: seq<string>): (n: nat)
    ensures n <= |parts|
    ensures n == 0 <==> forall i :: 0 <= i < |parts| ==> Text.IsBlank(parts[i])
  {
    if |parts| == 0 then 0
    else
      var rest := CountNonBlank(parts[1..]);
      assert forall i :: 1 <= i < |parts| ==> parts[i] == parts[1..][i - 1];
      (if Text.Trim(parts[0]) == "" then 0 else 1) + rest
  }

  /** Number of named sources in a comma-separated list. */
  function DataSourceCount(dependencies: string): nat {
    CountNonBlank(Text.Split(dependencies, ','))
  }

  /** A string made only of commas and whitespace. */
  predicate OnlySeparators(s: string) {
    forall i :: 0 <= i < |s| ==> s[i] == ',' || Text.IsWhitespace(s[i])
  }

  lemma {:induction false} JoinOnlySeparators(parts: seq<string>)
    requires forall i :: 0 <= i < |parts| ==> ',' !in parts[i]
    ensures OnlySeparators(Text.Join(parts, [','])) <==> forall i :: 0 <= i < |parts| ==> Text.IsBlank(parts[i])
  {
    if |parts| == 1 {
      assert Text.Join(parts, [',']) == parts[0];
    } else if |parts| > 1 {
      var rest := Text.Join(parts[1..], [',']);
      JoinOnlySeparators(parts[1..]);
      assert Text.Join(parts, [',']) == parts[0] + [','] + rest;
      var j := Text.Join(parts, [',']);
      if OnlySeparators(j) {
        assert forall k :: 0 <= k < |parts[0]| ==> parts[0][k] == j[k];
        assert forall k :: 0 <= k < |rest| ==> rest[k] == j[|parts[0]| + 1 + k];
        assert forall k :: 0 <= k < |parts[0]| ==> parts[0][k] != ',';
      }
      assert forall i :: 1 <= i < |parts| ==> parts[i] == parts[1..][i - 1];
    }
  }

  lemma DataSourceCountZero(dependencies: string)
    ensures DataSourceCount(dependencies) == 0 <==> OnlySeparators(dependencies)
  {
    JoinOnlySeparators(Text.Split(dependencies, ','));
  }

  /** Inverted: fewer data sources score higher; a list with no named source scores 0. */
  function DataSourceScore(dependencies: string): (r: int)
    ensures 0 <= r <= 5
    ensures r == 0 <==> OnlySeparators(dependencies)
  {
    var count := DataSourceCount(dependencies);
    DataSourceCountZero(dependencies);
    if count == 0 then 0
    else if count == 1 then 5
    else if count == 2 then 4
    else if count == 3 then 3
    else if count <= 5 then 2
    else 1
  }

  // ---------------------------------------------------------------------
  // Opportunity composite
  // ---------------------------------------------------------------------

  /** The ten derived 1..5 scores of an opportunity record; each may be null. */
  datatype ScoreFields = ScoreFields(
    arrScore: Option<int>,
    pipelineScore: Option<int>,
    velocityScore: Option<int>,
    winRateScore: Option<int>,
    strategicFitScore: Option<int>,
    matchRateScore: Option<int>,
    latencyScore: Option<int>,
    privacyRiskScore: Option<int>,
    dataSourceScore: Option<int>,
    scaleScore: Option<int>)

  datatype OpportunityBreakdown = OpportunityBreakdown(overall: real, businessMetrics: real, productMetrics: real)

  const ArrWeight: real := 0.30
  const PipelineWeight: real := 0.25
  const VelocityWeight: real := 0.15
  const WinRateWeight: real := 0.10
  const StrategicFitWeight: real := 0.20

  const MatchRateWeight: real := 0.15
  const LatencyWeight: real := 0.10
  const PrivacyRiskWeight: real := 0.10
  const DataSourceWeight: real := 0.03
  const ScaleWeight: real := 0.02
  const ProductWeightTotal: real := 0.40

  /** `score ?? 0`. */
  function OrZero(score: Option<int>): real {
    match score
    case Some(v) => v as real
    case None => 0.0
  }

  /** The five business scores in weight order, nulls read as 0. */
  function BusinessScores(opp: ScoreFields): (s: seq<real>)
    ensures |s| == 5
  {
    [OrZero(opp.arrScore), OrZero(opp.pipelineScore), OrZero(opp.velocityScore),
     OrZero(opp.winRateScore), OrZero(opp.strategicFitScore)]
  }

  /** The five product scores in weight order, nulls read as 0. */
  function ProductScores(opp: ScoreFields): (s: seq<real>)
    ensures |s| == 5
  {
    [OrZero(opp.matchRateScore), OrZero(opp.latencyScore), OrZero(opp.privacyRiskScore),
     OrZero(opp.dataSourceScore), OrZero(opp.scaleScore)]
  }

  lemma BusinessWeightsSumToOne()
    ensures ArrWeight + PipelineWeight + VelocityWeight + WinRateWeight + StrategicFitWeight == 1.0
    ensures MatchRateWeight + LatencyWeight + PrivacyRiskWeight + DataSourceWeight + ScaleWeight == ProductWeightTotal
  {
  }

  /**
   * `calculateOpportunityScore`: the overall score is the business composite, a
   * weighted mean of the business scores; the product composite is computed for
   * display only.
   */
  function OpportunityScore(opp: ScoreFields): (r: OpportunityBreakdown)
    ensures r.overall == r.businessMetrics
    ensures MinOf(BusinessScores(opp)) <= r.overall <= MaxOf(BusinessScores(opp))
    ensures MinOf(ProductScores(opp)) <= r.productMetrics <= MaxOf(ProductScores(opp))
  {
    var b, p := BusinessScores(opp), ProductScores(opp);
    BusinessCompositeWithin(b);
    ProductCompositeWithin(p);
    OpportunityBreakdown(BusinessTotal(b), BusinessTotal(b), ProductTotal(p) / ProductWeightTotal)
  }

  lemma {:induction false} BusinessCompositeWithin(b: seq<real>)
    requires |b| == 5
    ensures MinOf(b) <= BusinessTotal(b) <= MaxOf(b)
  {
    var lo, hi := MinOf(b), MaxOf(b);
    BusinessTotalWithin(b, lo, hi);
  }

  lemma {:induction false} ProductCompositeWithin(p: seq<real>)
    requires |p| == 5
    ensures MinOf(p) <= ProductTotal(p) / ProductWeightTotal <= MaxOf(p)
  {
    var lo, hi := MinOf(p), MaxOf(p);
    ProductTotalWithin(p, lo, hi);
    ProductShareWithin(ProductTotal(p), lo, hi);
  }

  lemma ProductShareWithin(total: real, lo: real, hi: real)
    requires ProductWeightTotal * lo <= total <= ProductWeightTotal * hi
    ensures lo <= total / ProductWeightTotal <= hi
  {
    DivisionBounds(total, ProductWeightTotal, lo, hi);
  }

  /** Weighted sum of the business scores, in weight order. */
  function BusinessTotal(b: seq<real>): real
    requires |b| == 5
  {
    b[0] * ArrWeight + b[1] * PipelineWeight + b[2] * VelocityWeight
    + b[3] * WinRateWeight + b[4] * StrategicFitWeight
  }

  /** Weighted sum of the product scores, in weight order. */
  function ProductTotal(p: seq<real>): real
    requires |p| == 5
  {
    p[0] * MatchRateWeight + p[1] * LatencyWeight + p[2] * PrivacyRiskWeight
    + p[3] * DataSourceWeight + p[4] * ScaleWeight
  }

  /** The business weights add up to 1, so their total stays within the extremes of its inputs. */
  lemma BusinessTotalWithin(v: seq<real>, lo: real, hi: real)
    requires |v| == 5
    requires forall i :: 0 <= i < 5 ==> lo <= v[i] <= hi
    ensures lo <= BusinessTotal(v) <= hi
  {
    assert lo <= v[0] <= hi && lo <= v[1] <= hi && lo <= v[2] <= hi && lo <= v[3] <= hi && lo <= v[4] <= hi;
  }

  /** The product weights add up to 0.40, so their total stays within 0.40 times the extremes of its inputs. */
  lemma ProductTotalWithin(v: seq<real>, lo: real, hi: real)
    requires |v| == 5
    requires forall i :: 0 <= i < 5 ==> lo <= v[i] <= hi
    ensures ProductWeightTotal * lo <= ProductTotal(v) <= ProductWeightTotal * hi
  {
    assert lo <= v[0] <= hi && lo <= v[1] <= hi && lo <= v[2] <= hi && lo <= v[3] <= hi && lo <= v[4] <= hi;
  }

  /** Product scores never affect the overall score. */
  lemma OverallIgnoresProductMetrics(a: ScoreFields, b: ScoreFields)
    requires BusinessScores(a) == BusinessScores(b)
    ensures OpportunityScore(a).overall == OpportunityScore(b).overall
  {
  }

  /** Five business scores in [1, 5] give an overall score in [1, 5]. */
  lemma OverallWithinScoreRange(opp: ScoreFields)
    requires forall i :: 0 <= i < 5 ==> 1.0 <= BusinessScores(opp)[i] <= 5.0
    ensures 1.0 <= OpportunityScore(opp).overall <= 5.0
  {
    var b := BusinessScores(opp);
    assert MinOf(b) in b && MaxOf(b) in b;
  }

  /** Five business scores all equal to k give an overall score of k. */
  lemma OverallOfUniformScores(opp: ScoreFields, k: real)
    requires forall i :: 0 <= i < 5 ==> BusinessScores(opp)[i] == k
    ensures OpportunityScore(opp).overall == k
  {
    var b := BusinessScores(opp);
    assert MinOf(b) in b && MaxOf(b) in b;
  }

  /** The worked example: top ladder inputs give 5.0, and maturity 3.6 then lands in HARVEST. */
  lemma WorkedExample()
    ensures ArrScore(1200000.0) == 5 && PipelineScore(3500000.0) == 5
    ensures VelocityScore(30.0) == 5 && WinRateScore(0.85) == 5
    ensures OpportunityScore(ScoreFields(Some(5), Some(5), Some(5), Some(5), Some(5),
                                         None, None, None, None, None)).overall == 5.0
    ensures ClassifyQuadrant(3.6, 5.0) == Harvest
  {
  }
}
