/**
 * The wheat-yield variability report (cmd/histogram/main.go): range,
 * population variance and standard deviation, quartiles as medians of the
 * halves of a sorted copy, and the distribution-shape summary.  The plot is
 * not modelled; `math.Sqrt` is a parameter.
 */
module Histogram {
  import opened Optional
  import opened Order
  import opened Moments
  import opened OrderStats

  /** Everything `calculateVariability` prints. */
  datatype Variability = Variability(
    sorted: seq<real>, min: real, max: real, dataRange: real,
    mean: real, sumSquaredDiff: real, variance: real, stdDev: real,
    lowerHalf: seq<real>, upperHalf: seq<real>, q1: real, q3: real, iqr: real)

  /**
   * `calculateVariability` on a non-empty sample (an empty one would index
   * out of range at the minimum).  The squared deviations are summed over
   * the sorted copy around the mean of the original order; since sorting is
   * a permutation this is the population variance of the sample.
   */
  method CalculateVariability(data: seq<real>, sqrt: real -> real) returns (v: Variability)
    requires |data| > 0
    ensures |v.sorted| == |data| && multiset(v.sorted) == multiset(data) && Sorted(v.sorted)
    ensures v.min == v.sorted[0] && v.max == v.sorted[|data| - 1]
    ensures v.min in data && v.max in data && forall x :: x in data ==> v.min <= x <= v.max
    ensures v.dataRange == v.max - v.min && v.dataRange >= 0.0
    ensures v.mean == Mean(data)
    ensures v.sumSquaredDiff == SumSqDev(data, Mean(data))
    ensures v.variance == PopVariance(data) && v.variance >= 0.0
    ensures v.stdDev == sqrt(v.variance)
    ensures v.lowerHalf == LowerHalf(v.sorted) && v.upperHalf == UpperHalfWithoutMiddle(v.sorted)
    ensures |v.lowerHalf| == |v.upperHalf| == |data| / 2
    ensures v.q1 == MedianOfSlice(v.lowerHalf) && v.q3 == MedianOfSlice(v.upperHalf)
    ensures |data| == 1 ==> v.q1 == 0.0 && v.q3 == 0.0
    ensures |data| >= 2 ==> v.min <= v.q1 <= Middle(v.sorted) <= v.q3 <= v.max
    ensures v.iqr == v.q3 - v.q1 && v.iqr >= 0.0
  {
    var sorted := SortReals(data);
    var n := |sorted|;
    SortedEnds(data, sorted);
    var min := sorted[0];
    var max := sorted[n - 1];
    var dataRange := max - min;
    var mean := SampleMean(data);
    var sumSquaredDiff := SquaredDeviations(sorted, mean);
    SumSqDevPermutation(sorted, data, mean);
    var variance := sumSquaredDiff / n as real;
    var stdDev := sqrt(variance);
    var lowerHalf, upperHalf, q1, q3, iqr := QuartilesByHalves(sorted);
    v := Variability(sorted, min, max, dataRange, mean, sumSquaredDiff, variance, stdDev,
                     lowerHalf, upperHalf, q1, q3, iqr);
  }

  // ---------------------------------------------------------------------
  // Distribution shape

  /** The three verdicts the report prints. */
  datatype Shape = Symmetric | PositivelySkewed | NegativelySkewed

  /** The verdict for the mirrored sample. */
  function Mirror(sh: Shape): Shape {
    match sh
    case Symmetric => Symmetric
    case PositivelySkewed => NegativelySkewed
    case NegativelySkewed => PositivelySkewed
  }

  /** The skewness of the mirrored sample; an undefined (NaN) value stays undefined. */
  function Negate(skew: Option<real>): Option<real> {
    match skew
    case None => None
    case Some(s) => Some(-s)
  }

  /**
   * The verdict as the report computes it from the skewness, `None` standing
   * for the NaN that 0/0 gives on a sample without spread: |s| < 0.5 is
   * symmetric, s > 0.5 positive, and everything else — s = 0.5 and NaN
   * included, since every comparison with NaN is false — negative.
   */
  function ShapeAsWritten(skew: Option<real>): (sh: Shape)
    ensures sh == PositivelySkewed ==> skew.Some? && skew.value > 0.0
    ensures sh == Symmetric ==> skew.Some?
  {
    match skew
    case None => NegativelySkewed
    case Some(s) =>
      if -0.5 < s < 0.5 then Symmetric
      else if s > 0.5 then PositivelySkewed
      else NegativelySkewed
  }

  /**
   * The rule as written breaks the mirror symmetry of skewness: +0.5 and
   * −0.5 get the same verdict, and a constant sample is called negatively
   * skewed.
   */
  lemma ShapeAsWrittenNotMirrored()
    ensures ShapeAsWritten(Some(0.5)) == NegativelySkewed
    ensures ShapeAsWritten(Negate(Some(0.5))) != Mirror(ShapeAsWritten(Some(0.5)))
    ensures ShapeAsWritten(None) == NegativelySkewed
    ensures ShapeAsWritten(Negate(None)) != Mirror(ShapeAsWritten(None))
  {
  }

  /**
   * The evidently intended rule: |s| < 0.5 symmetric, s ≥ 0.5 positive,
   * s ≤ −0.5 negative, and a sample without spread symmetric.
   */
  function ShapeOf(skew: Option<real>): (sh: Shape)
    ensures sh == PositivelySkewed <==> skew.Some? && skew.value >= 0.5
    ensures sh == NegativelySkewed <==> skew.Some? && skew.value <= -0.5
  {
    match skew
    case None => Symmetric
    case Some(s) =>
      if -0.5 < s < 0.5 then Symmetric
      else if s >= 0.5 then PositivelySkewed
      else NegativelySkewed
  }

  /** Mirroring the sample mirrors the intended verdict, for every skewness. */
  lemma ShapeOfMirrors(skew: Option<real>)
    ensures ShapeOf(Negate(skew)) == Mirror(ShapeOf(skew))
  {
  }

  /** The two rules agree everywhere except at s = 0.5 and on a sample without spread. */
  lemma ShapeRulesAgree(skew: Option<real>)
    ensures ShapeAsWritten(skew) == ShapeOf(skew) <==> skew != None && skew != Some(0.5)
  {
  }

  /** Everything `analyzeDistribution` prints. */
  datatype Distribution = Distribution(
    mean: real, median: real, stdDev: real, skewness: Option<real>, shape: Shape)

  /**
   * `analyzeDistribution` on a non-empty sample: mean, median of a sorted
   * copy, population standard deviation, the moment skewness
   * Σ(v − mean)³/n / sd³ (undefined exactly when every value is equal) and
   * the verdict.
   */
  method AnalyzeDistribution(data: seq<real>, sqrt: real -> real) returns (d: Distribution)
    requires |data| > 0
    requires sqrt(0.0) == 0.0 && forall x :: 0.0 < x ==> sqrt(x) > 0.0
    ensures d.mean == Mean(data)
    ensures d.median == Median(data)
    ensures d.stdDev == sqrt(PopVariance(data))
    ensures d.skewness == None <==> forall i, j :: 0 <= i < |data| && 0 <= j < |data| ==> data[i] == data[j]
    ensures d.skewness.Some? ==>
      d.stdDev > 0.0 && d.skewness.value == SumCubeDev(data, Mean(data)) / |data| as real / Cube(d.stdDev)
    ensures d.shape == ShapeAsWritten(d.skewness)
    ensures d.shape == ShapeOf(d.skewness) <==> d.skewness != None && d.skewness != Some(0.5)
  {
    var n := |data|;
    var mean := SampleMean(data);
    var median := MedianOfCopy(data);
    var sumSq := SquaredDeviations(data, mean);
    var stdDev := sqrt(sumSq / n as real);
    var sumCubed := CubedDeviations(data, mean);
    PopVarianceZero(data);
    var skewness := if stdDev == 0.0 then None else Some((sumCubed / n as real) / Cube(stdDev));
    ShapeRulesAgree(skewness);
    d := Distribution(mean, median, stdDev, skewness, ShapeAsWritten(skewness));
  }

  /** The median step of `analyzeDistribution`: the middle of a sorted copy. */
  method MedianOfCopy(data: seq<real>) returns (median: real)
    requires |data| > 0
    ensures median == Median(data)
  {
    var sorted := SortReals(data);
    var n := |sorted|;
    if n % 2 == 0 {
      median := (sorted[n / 2 - 1] + sorted[n / 2]) / 2.0;
    } else {
      median := sorted[n / 2];
    }
  }
}
