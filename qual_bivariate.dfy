/**
 * The bivariate apple analysis (cmd/qual_bivariate/main.go): weight against
 * sweetness split into good and bad points, the ordinary least-squares line
 * through the means, the weight range the line is drawn over, and the
 * sweetness-bin × quality contingency counts.  Plots, the printed text and
 * the Pearson coefficient (a square root) are not modelled.
 */
module QualBivariate {
  import opened Optional
  import opened Moments
  import opened Binning
  import opened Apples

  /** A scatter point (`plotter.XY`): weight across, sweetness up. */
  datatype XY = XY(x: real, y: real)

  /** The script's test for the good group; every other label is bad. */
  predicate IsGood(r: Record) {
    r.quality == "good"
  }

  // ---------------------------------------------------------------------
  // Scatter points

  /** The points of the records in group `good`, in record order. */
  function Points(data: seq<Record>, good: bool): (pts: seq<XY>)
    ensures |pts| <= |data|
  {
    if data == [] then []
    else
      var r := data[|data| - 1];
      Points(data[..|data| - 1], good) + (if IsGood(r) == good then [XY(r.weight, r.sweetness)] else [])
  }

  /** A point is in a group exactly when some record of that group has its weight and sweetness. */
  lemma {:induction false} PointsMembers(data: seq<Record>, good: bool, p: XY)
    ensures p in Points(data, good) <==>
      exists i :: 0 <= i < |data| && IsGood(data[i]) == good && p == XY(data[i].weight, data[i].sweetness)
  {
    if data != [] {
      var d := data[..|data| - 1];
      PointsMembers(d, good, p);
      assert forall i :: 0 <= i < |d| ==> d[i] == data[i];
      if p in Points(data, good) && p !in Points(d, good) {
        var k := |data| - 1;
        assert IsGood(data[k]) == good && p == XY(data[k].weight, data[k].sweetness);
      }
    }
  }

  /**
   * The two groups split the records: together they hold every record once,
   * and the good group has as many points as there are records labelled
   * "good".
   */
  lemma {:induction false} PartitionSizes(data: seq<Record>)
    ensures |Points(data, true)| + |Points(data, false)| == |data|
    ensures |Points(data, true)| == multiset(Project(data, Quality))["good"]
  {
    if data != [] {
      var d, r := data[..|data| - 1], data[|data| - 1];
      PartitionSizes(d);
      assert data == d + [r];
      ProjectSnoc(d, r, Quality);
    }
  }

  /** One more record adds its point to its own group and leaves the other alone. */
  lemma PointsStep(data: seq<Record>, k: nat)
    requires k < |data|
    ensures IsGood(data[k]) ==>
      Points(data[..k + 1], true) == Points(data[..k], true) + [XY(data[k].weight, data[k].sweetness)] &&
      Points(data[..k + 1], false) == Points(data[..k], false)
    ensures !IsGood(data[k]) ==>
      Points(data[..k + 1], false) == Points(data[..k], false) + [XY(data[k].weight, data[k].sweetness)] &&
      Points(data[..k + 1], true) == Points(data[..k], true)
  {
    assert data[..k + 1][..k] == data[..k];
  }

  /** The first loop: sums of weight and sweetness, and the points split by quality. */
  method Scatter(data: seq<Record>) returns (goodPts: seq<XY>, badPts: seq<XY>, xsum: real, ysum: real)
    ensures goodPts == Points(data, true) && badPts == Points(data, false)
    ensures xsum == Sum(Project(data, Weight)) && ysum == Sum(Project(data, Sweetness))
  {
    var xs, ys := Project(data, Weight), Project(data, Sweetness);
    goodPts, badPts := [], [];
    xsum, ysum := 0.0, 0.0;
    for k := 0 to |data|
      invariant goodPts == Points(data[..k], true) && badPts == Points(data[..k], false)
      invariant xsum == Sum(xs[..k]) && ysum == Sum(ys[..k])
    {
      var r := data[k];
      PointsStep(data, k);
      assert xs[..k + 1][..k] == xs[..k] && ys[..k + 1][..k] == ys[..k];
      assert xs[k] == r.weight && ys[k] == r.sweetness;
      xsum := xsum + r.weight;
      ysum := ysum + r.sweetness;
      if r.quality == "good" {
        goodPts := goodPts + [XY(r.weight, r.sweetness)];
      } else {
        badPts := badPts + [XY(r.weight, r.sweetness)];
      }
    }
    assert data[..|data|] == data && xs[..|data|] == xs && ys[..|data|] == ys;
  }

  // ---------------------------------------------------------------------
  // Least squares

  /** A fitted line y = slope · x + intercept. */
  datatype Line = Line(slope: real, intercept: real)

  /**
   * The line with slope sxy / sxx through (mx, my), undefined (`None`, the
   * NaN or infinity of a division by zero in the script) when sxx is 0.
   */
  function LineFrom(sxy: real, sxx: real, mx: real, my: real): (fit: Option<Line>)
    ensures fit.None? <==> sxx == 0.0
    ensures fit.Some? ==> fit.value.intercept + fit.value.slope * mx == my
  {
    if sxx == 0.0 then None
    else
      var slope := sxy / sxx;
      Some(Line(slope, my - slope * mx))
  }

  /**
   * The least-squares line of paired samples: slope Σ(x − x̄)(y − ȳ) / Σ(x − x̄)²
   * through the means.  It is undefined exactly when every x is the same.
   */
  function LeastSquares(xs: seq<real>, ys: seq<real>): (fit: Option<Line>)
    requires |xs| == |ys| > 0
    ensures fit.None? <==> forall i, j :: 0 <= i < |xs| && 0 <= j < |xs| ==> xs[i] == xs[j]
    ensures fit.Some? ==> fit.value.intercept + fit.value.slope * Mean(xs) == Mean(ys)
  {
    PopVarianceZero(xs);
    var mx, my := Mean(xs), Mean(ys);
    LineFrom(SumCross(xs, ys, mx, my), SumSqDev(xs, mx), mx, my)
  }

  /** Points lying exactly on a line that is not vertical are fitted by that line. */
  lemma FitRecoversLine(xs: seq<real>, ys: seq<real>, a: real, b: real)
    requires |xs| > 0 && OnLine(xs, ys, a, b)
    requires exists i, j :: 0 <= i < |xs| && 0 <= j < |xs| && xs[i] != xs[j]
    ensures LeastSquares(xs, ys) == Some(Line(a, b))
  {
    var mx, my := Mean(xs), Mean(ys);
    MeanOnLine(xs, ys, a, b);
    CrossOnLine(xs, ys, a, b, mx, my);
    PopVarianceZero(xs);
    ExactLine(SumCross(xs, ys, mx, my), SumSqDev(xs, mx), mx, my, a, b);
  }

  lemma CrossOnLine(xs: seq<real>, ys: seq<real>, a: real, b: real, mx: real, my: real)
    requires OnLine(xs, ys, a, b) && my == a * mx + b
    ensures SumCross(xs, ys, mx, my) == a * SumSqDev(xs, mx)
  {
    SumCrossOfLinear(xs, ys, a, b, mx);
  }

  /** With a cross sum a · sxx and the means on y = a·x + b, the line is y = a·x + b. */
  lemma ExactLine(sxy: real, sxx: real, mx: real, my: real, a: real, b: real)
    requires sxx != 0.0 && sxy == a * sxx && my == a * mx + b
    ensures LineFrom(sxy, sxx, mx, my) == Some(Line(a, b))
  {
    var slope := sxy / sxx;
    assert slope == a;
    assert my - slope * mx == b;
    var fit := LineFrom(sxy, sxx, mx, my);
    assert fit.Some? && fit.value.slope == a;
    assert fit.value.intercept == b;
  }

  /** On an exact line the mean of y is the line at the mean of x. */
  lemma MeanOnLine(xs: seq<real>, ys: seq<real>, a: real, b: real)
    requires |xs| > 0 && OnLine(xs, ys, a, b)
    ensures Mean(ys) == a * Mean(xs) + b
  {
    var n, mx := |xs| as real, Mean(xs);
    SumOfLinear(xs, ys, a, b);
    assert Sum(xs) == mx * n;
    assert Sum(ys) == (a * mx + b) * n;
  }

  /** The second loop: cross and squared deviations about the given means. */
  method Accumulate(xs: seq<real>, ys: seq<real>, mx: real, my: real)
    returns (cov: real, varx: real, vary: real)
    requires |xs| == |ys|
    ensures cov == SumCross(xs, ys, mx, my)
    ensures varx == SumSqDev(xs, mx) && vary == SumSqDev(ys, my)
  {
    cov, varx, vary := 0.0, 0.0, 0.0;
    for k := 0 to |xs|
      invariant cov == SumCross(xs[..k], ys[..k], mx, my)
      invariant varx == SumSqDev(xs[..k], mx) && vary == SumSqDev(ys[..k], my)
    {
      var dx := xs[k] - mx;
      var dy := ys[k] - my;
      assert xs[..k + 1][..k] == xs[..k] && ys[..k + 1][..k] == ys[..k];
      CrossOfDeviations(xs[..k + 1], ys[..k + 1], mx, my, dx, dy);
      SquareOfDeviation(xs[..k + 1], mx, dx);
      SquareOfDeviation(ys[..k + 1], my, dy);
      cov := cov + dx * dy;
      varx := varx + dx * dx;
      vary := vary + dy * dy;
    }
    assert xs[..|xs|] == xs && ys[..|ys|] == ys;
  }

  /**
   * Dividing both sums by n first does not change the line: the 1/n of the
   * covariance and of the variance cancel.
   */
  lemma NormalisationCancels(sxy: real, sxx: real, n: real, mx: real, my: real)
    requires n > 0.0
    ensures LineFrom(sxy / n, sxx / n, mx, my) == LineFrom(sxy, sxx, mx, my)
  {
    if sxx != 0.0 {
      assert sxx / n != 0.0;
      var s := (sxy / n) / (sxx / n);
      assert s * (sxx / n) == sxy / n;
      assert sxy / sxx * (sxx / n) == sxy / n;
      assert s == sxy / sxx;
      var a, b := LineFrom(sxy / n, sxx / n, mx, my), LineFrom(sxy, sxx, mx, my);
      assert a.Some? && b.Some? && a.value.slope == b.value.slope;
      assert a.value.intercept == b.value.intercept;
    } else {
      assert sxx / n == 0.0;
    }
  }

  /** What the regression step computes. */
  datatype Regression = Regression(
    xMean: real, yMean: real, cov: real, varx: real, vary: real, fit: Option<Line>)

  /**
   * Means, population covariance and variances, then slope = cov / varx and
   * intercept = ȳ − slope · x̄; the 1/n of the covariance and of the variance
   * cancel, so this is the least-squares line.
   */
  method Regress(xs: seq<real>, ys: seq<real>, xsum: real, ysum: real) returns (r: Regression)
    requires |xs| == |ys| > 0
    requires xsum == Sum(xs) && ysum == Sum(ys)
    ensures r.xMean == Mean(xs) && r.yMean == Mean(ys)
    ensures r.cov == SumCross(xs, ys, Mean(xs), Mean(ys)) / |xs| as real
    ensures r.varx == PopVariance(xs) && r.vary == PopVariance(ys)
    ensures r.fit == LeastSquares(xs, ys)
  {
    var n := |xs| as real;
    var xMean := xsum / n;
    var yMean := ysum / n;
    var cov, varx, vary := Accumulate(xs, ys, xMean, yMean);
    cov := cov / n;
    varx := varx / n;
    vary := vary / n;
    var fit := LineFrom(cov, varx, xMean, yMean);
    NormalisationCancels(SumCross(xs, ys, xMean, yMean), SumSqDev(xs, xMean), n, xMean, yMean);
    r := Regression(xMean, yMean, cov, varx, vary, fit);
  }

  /** The third loop: the smallest and the largest weight. */
  method WeightRange(data: seq<Record>) returns (xmin: real, xmax: real)
    requires |data| > 0
    ensures forall i :: 0 <= i < |data| ==> xmin <= data[i].weight <= xmax
    ensures exists i :: 0 <= i < |data| && data[i].weight == xmin
    ensures exists i :: 0 <= i < |data| && data[i].weight == xmax
  {
    xmin, xmax := data[0].weight, data[0].weight;
    for k := 0 to |data|
      invariant forall i :: 0 <= i < k ==> xmin <= data[i].weight <= xmax
      invariant exists i :: 0 <= i < |data| && data[i].weight == xmin
      invariant exists i :: 0 <= i < |data| && data[i].weight == xmax
    {
      if data[k].weight < xmin {
        xmin := data[k].weight;
      }
      if data[k].weight > xmax {
        xmax := data[k].weight;
      }
    }
  }

  lemma InWeights(data: seq<Record>, i: nat)
    requires i < |data|
    ensures data[i].weight in Project(data, Weight)
  {
    assert Project(data, Weight)[i] == data[i].weight;
  }

  // ---------------------------------------------------------------------
  // Sweetness bins × quality

  /** A bin (lo, hi]; `None` stands for the −Inf or +Inf sentinel. */
  datatype Bin = Bin(name: string, lo: Option<real>, hi: Option<real>)

  /** The script's test `v > b.min && v <= b.max`. */
  predicate InBin(b: Bin, v: real) {
    (b.lo.None? || v > b.lo.value) && (b.hi.None? || v <= b.hi.value)
  }

  /** A point belongs to the bin of its sweetness. */
  predicate InSweetnessBin(b: Bin, p: XY) {
    InBin(b, p.y)
  }

  const SweetnessBins: seq<Bin> := [
    Bin("<=1", None, Some(1.0)),
    Bin("1-2", Some(1.0), Some(2.0)),
    Bin("2-3", Some(2.0), Some(3.0)),
    Bin(">3", Some(3.0), None)]

  /** The bin each sweetness belongs in: a boundary value goes to the lower bin. */
  function BinIndex(v: real): (i: nat)
    ensures i < |SweetnessBins|
  {
    if v <= 1.0 then 0 else if v <= 2.0 then 1 else if v <= 3.0 then 2 else 3
  }

  /** The bins are disjoint and cover every value: each value lies in its own bin and in no other. */
  lemma ExactlyOneBin(v: real)
    ensures forall i :: 0 <= i < |SweetnessBins| ==> (InBin(SweetnessBins[i], v) <==> i == BinIndex(v))
    ensures FirstMatch(v, SweetnessBins, InBin) == Some(BinIndex(v))
  {
    FirstMatchIs(v, SweetnessBins, InBin, BinIndex(v));
  }

  /** A sweetness on a boundary is counted in the bin below it. */
  lemma BoundariesGoDown()
    ensures FirstMatch(1.0, SweetnessBins, InBin) == Some(0) && SweetnessBins[0].name == "<=1"
    ensures FirstMatch(2.0, SweetnessBins, InBin) == Some(1) && SweetnessBins[1].name == "1-2"
    ensures FirstMatch(3.0, SweetnessBins, InBin) == Some(2) && SweetnessBins[2].name == "2-3"
  {
    ExactlyOneBin(1.0);
    ExactlyOneBin(2.0);
    ExactlyOneBin(3.0);
  }

  /**
   * One pass of the inner loop: the first bin holding the record's sweetness
   * goes up by one in the good or the bad counts, by its label.
   */
  method PlaceRecord(good: array<nat>, bad: array<nat>, bins: seq<Bin>, r: Record)
    requires good != bad && good.Length == |bins| && bad.Length == |bins|
    modifies good, bad
    ensures good[..] == if IsGood(r) then AddMatch(old(good[..]), XY(r.weight, r.sweetness), bins, InSweetnessBin) else old(good[..])
    ensures bad[..] == if IsGood(r) then old(bad[..]) else AddMatch(old(bad[..]), XY(r.weight, r.sweetness), bins, InSweetnessBin)
  {
    ghost var p := XY(r.weight, r.sweetness);
    var i := 0;
    while i < |bins|
      invariant 0 <= i <= |bins|
      invariant forall j :: 0 <= j < i ==> !InSweetnessBin(bins[j], p)
      invariant good[..] == old(good[..]) && bad[..] == old(bad[..])
    {
      if InBin(bins[i], r.sweetness) {
        FirstMatchIs(p, bins, InSweetnessBin, i);
        if r.quality == "good" {
          good[i] := good[i] + 1;
        } else {
          bad[i] := bad[i] + 1;
        }
        return;
      }
      i := i + 1;
    }
  }

  /**
   * The nested tally loop over the records.  On the points of each group it
   * is the first-match tally.
   */
  method Composition(data: seq<Record>, bins: seq<Bin>) returns (goodCounts: seq<nat>, badCounts: seq<nat>)
    ensures goodCounts == ClassCounts(Points(data, true), bins, InSweetnessBin)
    ensures badCounts == ClassCounts(Points(data, false), bins, InSweetnessBin)
  {
    var good := new nat[|bins|](_ => 0);
    var bad := new nat[|bins|](_ => 0);
    assert good[..] == ClassCounts([], bins, InSweetnessBin);
    for k := 0 to |data|
      invariant good[..] == ClassCounts(Points(data[..k], true), bins, InSweetnessBin)
      invariant bad[..] == ClassCounts(Points(data[..k], false), bins, InSweetnessBin)
    {
      var r := data[k];
      ghost var p := XY(r.weight, r.sweetness);
      ghost var gp, bp := Points(data[..k], true), Points(data[..k], false);
      PointsStep(data, k);
      PlaceRecord(good, bad, bins, r);
      if IsGood(r) {
        ClassCountsSnoc(gp, p, bins, InSweetnessBin);
      } else {
        ClassCountsSnoc(bp, p, bins, InSweetnessBin);
      }
    }
    assert data[..|data|] == data;
    goodCounts, badCounts := good[..], bad[..];
  }

  /** With the script's bins every point is counted: each group's counts add up to its size. */
  lemma CompositionTotals(data: seq<Record>)
    ensures Total(ClassCounts(Points(data, true), SweetnessBins, InSweetnessBin)) == |Points(data, true)|
    ensures Total(ClassCounts(Points(data, false), SweetnessBins, InSweetnessBin)) == |Points(data, false)|
  {
    EveryPointCounted(Points(data, true));
    EveryPointCounted(Points(data, false));
  }

  /** Every sequence of points is counted in full by the script's bins. */
  lemma EveryPointCounted(pts: seq<XY>)
    ensures Total(ClassCounts(pts, SweetnessBins, InSweetnessBin)) == |pts|
  {
    forall i | 0 <= i < |pts| ensures FirstMatch(pts[i], SweetnessBins, InSweetnessBin).Some? {
      ExactlyOneBin(pts[i].y);
      FirstMatchIs(pts[i], SweetnessBins, InSweetnessBin, BinIndex(pts[i].y));
    }
    TotalIsMatched(pts, SweetnessBins, InSweetnessBin);
    MatchedAll(pts, SweetnessBins, InSweetnessBin);
  }

  // ---------------------------------------------------------------------
  // The script

  /** Everything the script computes before drawing and printing. */
  datatype Analysis = Analysis(
    goodPts: seq<XY>, badPts: seq<XY>, regression: Regression,
    xmin: real, xmax: real, goodCounts: seq<nat>, badCounts: seq<nat>)

  /**
   * The script on a non-empty sample of records (with none, the means are
   * 0/0).  The good and bad counts over the four sweetness bins add up to the
   * sizes of the two groups, and so to the number of records.
   */
  method Analyse(data: seq<Record>) returns (a: Analysis)
    requires |data| > 0
    ensures a.goodPts == Points(data, true) && a.badPts == Points(data, false)
    ensures |a.goodPts| == multiset(Project(data, Quality))["good"]
    ensures |a.goodPts| + |a.badPts| == |data|
    ensures a.regression.xMean == Mean(Project(data, Weight))
    ensures a.regression.yMean == Mean(Project(data, Sweetness))
    ensures a.regression.cov == SumCross(Project(data, Weight), Project(data, Sweetness),
      Mean(Project(data, Weight)), Mean(Project(data, Sweetness))) / |data| as real
    ensures a.regression.varx == PopVariance(Project(data, Weight))
    ensures a.regression.vary == PopVariance(Project(data, Sweetness))
    ensures a.regression.fit == LeastSquares(Project(data, Weight), Project(data, Sweetness))
    ensures forall i :: 0 <= i < |data| ==> a.xmin <= data[i].weight <= a.xmax
    ensures a.xmin in Project(data, Weight) && a.xmax in Project(data, Weight)
    ensures a.goodCounts == ClassCounts(a.goodPts, SweetnessBins, InSweetnessBin)
    ensures a.badCounts == ClassCounts(a.badPts, SweetnessBins, InSweetnessBin)
    ensures Total(a.goodCounts) == |a.goodPts| && Total(a.badCounts) == |a.badPts|
    ensures Total(a.goodCounts) + Total(a.badCounts) == |data|
  {
    var goodPts, badPts, xsum, ysum := Scatter(data);
    PartitionSizes(data);
    var xs, ys := Project(data, Weight), Project(data, Sweetness);
    var regression := Regress(xs, ys, xsum, ysum);
    var xmin, xmax := WeightRange(data);
    var lo :| 0 <= lo < |data| && data[lo].weight == xmin;
    var hi :| 0 <= hi < |data| && data[hi].weight == xmax;
    InWeights(data, lo);
    InWeights(data, hi);
    var goodCounts, badCounts := Composition(data, SweetnessBins);
    CompositionTotals(data);
    a := Analysis(goodPts, badPts, regression, xmin, xmax, goodCounts, badCounts);
  }
}
