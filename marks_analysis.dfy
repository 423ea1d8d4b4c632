/**
 * The student-marks report (cmd/marks_analysis/main.go): the marks are
 * sorted in place, grouped into half-open classes of a common whole-number
 * width whose last class is stretched past the maximum, tallied first-match,
 * and summarised by mean, median, modes, the two variances, the
 * interpolated quartiles and the skewness.  `float64` is modelled as `real`.
 */
module MarksAnalysis {
  import opened Optional
  import opened Order
  import opened Frequency
  import opened Moments
  import opened OrderStats
  import opened Binning

  // ---------------------------------------------------------------------
  // Classes

  /** `math.Ceil`: the least whole number at or above x. */
  function Ceil(x: real): (c: real)
    ensures x <= c < x + 1.0
    ensures c == c.Floor as real
  {
    if x.Floor as real == x then x else (x.Floor + 1) as real
  }

  /** The class width: ⌈range / numClasses⌉, raised to 1 when smaller. */
  function ClassWidth(rangeVal: real, numClasses: nat): (width: real)
    requires numClasses >= 1
    ensures width >= 1.0 && width == width.Floor as real
    ensures width * numClasses as real >= rangeVal
    ensures width == 1.0 || width < rangeVal / numClasses as real + 1.0
  {
    var w := Ceil(rangeVal / numClasses as real);
    DivTimes(rangeVal, numClasses as real);
    if w < 1.0 then 1.0 else w
  }

  lemma DivTimes(x: real, k: real)
    requires k >= 1.0
    ensures x / k * k == x
  {
  }

  /** A half-open class [lo, hi). */
  datatype Class = Class(lo: real, hi: real)

  predicate InClass(c: Class, v: real) {
    c.lo <= v < c.hi
  }

  /**
   * Class i starts at min + i·width and ends where the next one starts,
   * except the last, which ends just past the maximum.
   */
  function Types(min: real, max: real, width: real, numClasses: nat): (types: seq<Class>)
    ensures |types| == numClasses
  {
    seq(numClasses, i =>
      Class(min + i as real * width,
            if i == numClasses - 1 then max + 0.0001 else min + (i + 1) as real * width))
  }

  /** The loop that fills the class array, carrying `start` from one class to the next. */
  method BuildTypes(min: real, max: real, width: real, numClasses: nat) returns (types: seq<Class>)
    ensures types == Types(min, max, width, numClasses)
  {
    var buf := new Class[numClasses](_ => Class(0.0, 0.0));
    var start := min;
    for i := 0 to numClasses
      invariant i < numClasses ==> start == min + i as real * width
      invariant forall j :: 0 <= j < i ==> buf[j] == Types(min, max, width, numClasses)[j]
    {
      var end := start + width;
      if i == numClasses - 1 {
        end := max + 0.0001;
      }
      assert (i + 1) as real * width == i as real * width + width;
      buf[i] := Class(start, end);
      start := end;
    }
    types := buf[..];
  }

  /** The classes touch: the first starts at min, each starts where the previous ends, the last ends at max + 0.0001. */
  lemma TypesContiguous(min: real, max: real, width: real, numClasses: nat)
    requires numClasses >= 1
    ensures var t := Types(min, max, width, numClasses);
      t[0].lo == min
      && t[numClasses - 1].hi == max + 0.0001
      && forall i :: 0 <= i < numClasses - 1 ==> t[i + 1].lo == t[i].hi
  {
  }

  lemma MulMono(a: real, b: real, w: real)
    requires a <= b && w > 0.0
    ensures a * w <= b * w
  {
  }

  /** No value lies in two classes. */
  lemma TypesDisjoint(min: real, max: real, width: real, numClasses: nat)
    requires width > 0.0
    ensures var t := Types(min, max, width, numClasses);
      forall i, j, v :: 0 <= i < j < numClasses && InClass(t[i], v) ==> !InClass(t[j], v)
  {
    var t := Types(min, max, width, numClasses);
    forall i, j | 0 <= i < j < numClasses ensures t[i].hi <= t[j].lo {
      MulMono((i + 1) as real, j as real, width);
    }
  }

  /**
   * Every value between min and max lies in some class, whatever the width:
   * each class starts where the previous one ends, so the classes together
   * run from min to max + 0.0001.
   */
  lemma TypesCover(min: real, max: real, width: real, numClasses: nat, v: real)
    requires numClasses >= 1 && min <= v <= max
    ensures var t := Types(min, max, width, numClasses);
      exists j :: 0 <= j < numClasses && InClass(t[j], v)
  {
    var t := Types(min, max, width, numClasses);
    var j := 0;
    while j < numClasses - 1 && !InClass(t[j], v)
      invariant 0 <= j <= numClasses - 1
      invariant t[j].lo <= v
    {
      j := j + 1;
    }
    assert InClass(t[j], v);
  }

  /** Every value of a sample inside [min, max] is counted. */
  lemma AllCounted(data: seq<real>, min: real, max: real, width: real, numClasses: nat)
    requires numClasses >= 1
    requires forall v :: v in data ==> min <= v <= max
    ensures Total(ClassCounts(data, Types(min, max, width, numClasses), InClass)) == |data|
  {
    var types := Types(min, max, width, numClasses);
    forall i | 0 <= i < |data| ensures exists j :: 0 <= j < |types| && InClass(types[j], data[i]) {
      assert data[i] in data;
      TypesCover(min, max, width, numClasses, data[i]);
    }
    TotalIsSize(data, types, InClass);
  }

  /** What the first half of the report holds. */
  datatype ClassTable = ClassTable(
    marks: seq<real>,
    numClasses: nat,
    min: real,
    max: real,
    rangeVal: real,
    width: real,
    types: seq<Class>,
    freq: seq<nat>,
    total: nat)

  /**
   * Sort the marks, clamp the class count (the rounded √n is a parameter),
   * take the range and width, build the classes, tally and add up.  Every
   * mark is counted once, so the printed total is n.
   */
  method FrequencyTable(data: seq<real>, roundedRoot: int) returns (t: ClassTable)
    requires |data| > 0
    ensures multiset(t.marks) == multiset(data) && |t.marks| == |data| && Sorted(t.marks)
    ensures t.numClasses >= 1 && (roundedRoot >= 1 ==> t.numClasses == roundedRoot)
    ensures t.min in data && t.max in data
    ensures forall v :: v in data ==> t.min <= v <= t.max
    ensures t.rangeVal == t.max - t.min >= 0.0
    ensures t.width == ClassWidth(t.rangeVal, t.numClasses)
    ensures t.types == Types(t.min, t.max, t.width, t.numClasses)
    ensures t.freq == ClassCounts(data, t.types, InClass)
    ensures t.total == Total(t.freq) == |data|
  {
    var marks := SortReals(data);
    var n := |marks|;
    var numClasses := roundedRoot;
    if numClasses < 1 {
      numClasses := 1;
    }
    var min := marks[0];
    var max := marks[n - 1];
    SortedEnds(data, marks);
    var rangeVal := max - min;
    var width := ClassWidth(rangeVal, numClasses);
    var types := BuildTypes(min, max, width, numClasses);
    var freq := Binning.Tally(marks, types, InClass);
    ClassCountsPermutation(marks, data, types, InClass);
    var total := SumClasses(freq);
    AllCounted(data, min, max, width, numClasses);
    t := ClassTable(marks, numClasses, min, max, rangeVal, width, types, freq, total);
  }

  // ---------------------------------------------------------------------
  // Measures

  /**
   * `quartile`: the (n+1)p rank with linear interpolation between the two
   * neighbouring order statistics, clamped to the first and last value.
   */
  function Quartile(a: seq<real>, p: real): real
    requires |a| > 0
  {
    Rank(a, p * (|a| + 1) as real)
  }

  /** The value at 1-based rank `pos`, interpolated between positions ⌊pos⌋ − 1 and ⌊pos⌋. */
  function Rank(a: seq<real>, pos: real): real
    requires |a| > 0
  {
    var n := |a|;
    if pos <= 1.0 then a[0]
    else if pos >= n as real then a[n - 1]
    else
      var lower := pos.Floor - 1;
      var upper := lower + 1;
      var frac := pos - pos.Floor as real;
      a[lower] + frac * (a[upper] - a[lower])
  }

  /**
   * Between the clamps the two positions are in range and the value lies
   * between theirs.
   */
  lemma RankBracketed(a: seq<real>, pos: real)
    requires |a| > 0 && Sorted(a) && 1.0 < pos < |a| as real
    ensures 0 <= pos.Floor - 1 <= |a| - 2
    ensures a[pos.Floor - 1] <= Rank(a, pos) <= a[pos.Floor]
  {
    var lower := pos.Floor - 1;
    Interpolate(a[lower], a[lower + 1], pos - pos.Floor as real);
  }

  lemma Interpolate(x: real, y: real, t: real)
    requires x <= y && 0.0 <= t <= 1.0
    ensures x <= x + t * (y - x) <= y
  {
    MulNonNegative(t, y - x);
    MulNonNegative(1.0 - t, y - x);
  }

  lemma MulNonNegative(a: real, b: real)
    requires a >= 0.0 && b >= 0.0
    ensures a * b >= 0.0
  {
  }

  /** On a sorted sample the value at any rank lies between the least and the greatest value. */
  lemma RankBetween(a: seq<real>, pos: real)
    requires |a| > 0 && Sorted(a)
    ensures a[0] <= Rank(a, pos) <= a[|a| - 1]
  {
    if 1.0 < pos < |a| as real {
      RankBracketed(a, pos);
    }
  }

  /** On a sorted sample the interpolated value does not decrease with the rank. */
  lemma RankMonotone(a: seq<real>, pos1: real, pos2: real)
    requires |a| > 0 && Sorted(a) && pos1 <= pos2
    ensures Rank(a, pos1) <= Rank(a, pos2)
  {
    var n := |a|;
    RankBetween(a, pos1);
    RankBetween(a, pos2);
    if 1.0 < pos1 && pos2 < n as real {
      var f1, f2 := pos1.Floor, pos2.Floor;
      RankBracketed(a, pos1);
      RankBracketed(a, pos2);
      if f1 == f2 {
        SameSegment(a[f1 - 1], a[f1], pos1 - f1 as real, pos2 - f2 as real);
      } else {
        assert a[f1] <= a[f2 - 1];
      }
    }
  }

  lemma SameSegment(x: real, y: real, t1: real, t2: real)
    requires x <= y && t1 <= t2
    ensures x + t1 * (y - x) <= x + t2 * (y - x)
  {
    MulNonNegative(t2 - t1, y - x);
  }

  /** On a sorted sample a quartile lies between the least and the greatest value. */
  lemma QuartileBetween(a: seq<real>, p: real)
    requires |a| > 0 && Sorted(a)
    ensures a[0] <= Quartile(a, p) <= a[|a| - 1]
  {
    RankBetween(a, p * (|a| + 1) as real);
  }

  /** On a sorted sample Q1 ≤ Q3, so the IQR is not negative. */
  lemma QuartilesOrdered(a: seq<real>)
    requires |a| > 0 && Sorted(a)
    ensures Quartile(a, 0.25) <= Quartile(a, 0.75)
  {
    RankMonotone(a, 0.25 * (|a| + 1) as real, 0.75 * (|a| + 1) as real);
  }

  /** `variancePopulation`: mean, then Σ (v − mean)² over the slice, divided by n. */
  method VariancePopulation(a: seq<real>) returns (v: real)
    requires |a| > 0
    ensures v == PopVariance(a)
  {
    var m := SampleMean(a);
    var s := SquaredDeviations(a, m);
    v := s / |a| as real;
  }

  /** `varianceSample`: the same sum divided by n − 1 (n = 1 would divide by zero). */
  method VarianceSample(a: seq<real>) returns (v: real)
    requires |a| > 1
    ensures v == SampleVariance(a)
    ensures v >= PopVariance(a)
  {
    var m := SampleMean(a);
    var s := SquaredDeviations(a, m);
    v := s / (|a| - 1) as real;
    SampleVarianceScaled(a);
  }

  /**
   * `skewness`: the third central moment over the cube of the population
   * standard deviation, and 0 when that deviation is 0.  `sqrt` is
   * `math.Sqrt`, of which only its sign is used: 0 at 0, positive above.
   */
  method Skewness(a: seq<real>, sqrt: real -> real) returns (skew: real)
    requires |a| > 0
    requires sqrt(0.0) == 0.0 && forall x :: 0.0 < x ==> sqrt(x) > 0.0
    ensures PopVariance(a) == 0.0 ==> skew == 0.0
    ensures (forall i, j :: 0 <= i < |a| && 0 <= j < |a| ==> a[i] == a[j]) ==> skew == 0.0
    ensures PopVariance(a) > 0.0 ==>
      var sd := sqrt(PopVariance(a));
      sd > 0.0 && skew == SumCubeDev(a, Mean(a)) / |a| as real / Cube(sd)
  {
    var m := SampleMean(a);
    var n := |a| as real;
    var s2, s3 := CentralSums(a, m);
    s2 := s2 / n;
    s3 := s3 / n;
    assert s2 == PopVariance(a);
    PopVarianceZero(a);
    var sd := sqrt(s2);
    if sd == 0.0 {
      return 0.0;
    }
    skew := s3 / Cube(sd);
  }

  /** The accumulation loop of `skewness`: Σ d² and Σ d³ with d = v − m. */
  method CentralSums(a: seq<real>, m: real) returns (s2: real, s3: real)
    ensures s2 == SumSqDev(a, m) && s3 == SumCubeDev(a, m)
  {
    s2, s3 := 0.0, 0.0;
    for i := 0 to |a|
      invariant s2 == SumSqDev(a[..i], m)
      invariant s3 == SumCubeDev(a[..i], m)
    {
      var d := a[i] - m;
      SquareOfDeviation(a[..i + 1], m, d);
      CubeOfDeviation(a[..i + 1], m, d);
      assert a[..i + 1][..i] == a[..i];
      s2 := s2 + d * d;
      s3 := s3 + d * d * d;
    }
    assert a[..|a|] == a;
  }

  /** What the second half of the report holds (the square roots of the variances are left out). */
  datatype Measures = Measures(
    mean: real,
    median: real,
    modes: seq<real>,
    varPop: real,
    varSample: Option<real>,
    q1: real,
    q3: real,
    iqr: real,
    skew: real)

  /**
   * The measures, computed on the marks as `main` holds them after the
   * in-place sort: `median` and `quartile` read positions and are right
   * only because the slice is sorted.  The sample variance is absent for a
   * single mark, where the script divides zero by zero.
   */
  method Summarise(marks: seq<real>, sqrt: real -> real) returns (m: Measures)
    requires |marks| > 0
    requires sqrt(0.0) == 0.0 && forall x :: 0.0 < x ==> sqrt(x) > 0.0
    ensures m.mean == Mean(marks)
    ensures m.median == Middle(marks)
    ensures m.modes == ModeList(marks, RealKey)
    ensures m.modes == [] <==> MaxCount(marks) <= 1
    ensures m.varPop == PopVariance(marks)
    ensures |marks| > 1 ==> m.varSample == Some(SampleVariance(marks))
    ensures |marks| == 1 ==> m.varSample == None
    ensures m.q1 == Quartile(marks, 0.25) && m.q3 == Quartile(marks, 0.75)
    ensures m.iqr == m.q3 - m.q1
    ensures Sorted(marks) ==>
      m.median == Median(marks) && marks[0] <= m.q1 <= m.q3 <= marks[|marks| - 1] && m.iqr >= 0.0
    ensures PopVariance(marks) == 0.0 ==> m.skew == 0.0
  {
    RealKeyInjective();
    var mean := SampleMean(marks);
    var median := Middle(marks);
    var modes, maxf := Modes(marks, RealKey);
    var varPop := VariancePopulation(marks);
    var varSample := None;
    if |marks| > 1 {
      var v := VarianceSample(marks);
      varSample := Some(v);
    }
    var q1 := Quartile(marks, 0.25);
    var q3 := Quartile(marks, 0.75);
    var iqr := q3 - q1;
    var skew := Skewness(marks, sqrt);
    if Sorted(marks) {
      MedianOfSorted(marks);
      QuartilesOrdered(marks);
      QuartileBetween(marks, 0.25);
      QuartileBetween(marks, 0.75);
    }
    m := Measures(mean, median, modes, varPop, varSample, q1, q3, iqr, skew);
  }

  /**
   * The whole report on the unsorted marks: every mark is counted once,
   * the median is the median of the sample, the mean and the population
   * variance do not depend on the order, and the IQR is not negative.
   */
  method Analyse(data: seq<real>, roundedRoot: int, sqrt: real -> real) returns (t: ClassTable, m: Measures)
    requires |data| > 0
    requires sqrt(0.0) == 0.0 && forall x :: 0.0 < x ==> sqrt(x) > 0.0
    ensures t.total == |data| && t.freq == ClassCounts(data, t.types, InClass)
    ensures m.mean == Mean(data)
    ensures m.median == Median(data)
    ensures m.varPop == PopVariance(data)
    ensures forall v :: v in m.modes <==> MaxCount(data) > 1 && v in data && multiset(data)[v] == MaxCount(data)
    ensures m.q1 <= m.q3 && m.iqr >= 0.0
  {
    t := FrequencyTable(data, roundedRoot);
    m := Summarise(t.marks, sqrt);
    MeanPermutation(data, t.marks);
    MedianPermutation(data, t.marks);
    PopVariancePermutation(data, t.marks);
    RealKeyInjective();
    ModeListMeaning(t.marks, RealKey);
    MaxCountPermutation(data, t.marks);
    forall v ensures v in t.marks <==> v in data {
      assert v in t.marks <==> v in multiset(t.marks);
    }
  }
}
