/**
 * The fertilizer yield report (cmd/fertilizer_stats/main.go): sort the
 * sample, then mean, median, modes, quartiles as medians of the two halves
 * (the middle value left out for odd n), IQR, range, the 1.5·IQR fences and
 * the values outside them.
 */
module FertilizerStats {
  import opened Order
  import opened Frequency
  import opened Moments
  import opened OrderStats

  /** The values of `s` strictly outside [lo, hi], in the order of `s`. */
  function Outside(s: seq<real>, lo: real, hi: real): (r: seq<real>)
    ensures |r| <= |s|
    ensures forall v :: v in r <==> v in s && (v < lo || v > hi)
  {
    if s == [] then []
    else
      var last := s[|s| - 1];
      assert s == s[..|s| - 1] + [last];
      Outside(s[..|s| - 1], lo, hi) + (if last < lo || last > hi then [last] else [])
  }

  /** Every outside value keeps its multiplicity; every inside value is dropped. */
  lemma {:induction false} OutsideCounts(s: seq<real>, lo: real, hi: real, v: real)
    ensures multiset(Outside(s, lo, hi))[v] == if v < lo || v > hi then multiset(s)[v] else 0
  {
    if s != [] {
      var last := s[|s| - 1];
      assert s == s[..|s| - 1] + [last];
      OutsideCounts(s[..|s| - 1], lo, hi, v);
    }
  }

  /** Filtering a sorted sample leaves it sorted. */
  lemma {:induction false} OutsideSorted(s: seq<real>, lo: real, hi: real)
    requires Sorted(s)
    ensures Sorted(Outside(s, lo, hi))
  {
    if s != [] {
      var init := s[..|s| - 1];
      var last := s[|s| - 1];
      var o := Outside(init, lo, hi);
      SortedSlice(s, 0, |s| - 1);
      OutsideSorted(init, lo, hi);
      if last < lo || last > hi {
        forall i | 0 <= i < |o| ensures o[i] <= last {
          assert o[i] in init;
          var k :| 0 <= k < |init| && init[k] == o[i];
        }
        assert Outside(s, lo, hi) == o + [last];
      }
    }
  }

  /** The outlier loop: every value outside the fences, in sample order. */
  method Outliers(data: seq<real>, lowFence: real, highFence: real) returns (outliers: seq<real>)
    ensures outliers == Outside(data, lowFence, highFence)
  {
    outliers := [];
    for i := 0 to |data|
      invariant outliers == Outside(data[..i], lowFence, highFence)
    {
      var v := data[i];
      assert data[..i + 1][..i] == data[..i];
      if v < lowFence || v > highFence {
        outliers := outliers + [v];
      }
    }
    assert data[..|data|] == data;
  }

  /** Everything the report prints. */
  datatype Report = Report(
    sorted: seq<real>, mean: real, median: real, modes: seq<real>, maxf: nat,
    q1: real, q3: real, iqr: real, rangeVal: real,
    lowFence: real, highFence: real, outliers: seq<real>)

  /** The mean loop, run over the sorted slice, stated on the sample as given. */
  method MeanOf(data: seq<real>, sorted: seq<real>) returns (mean: real)
    requires |data| > 0
    requires multiset(sorted) == multiset(data)
    ensures mean == Mean(data)
  {
    assert |sorted| == |multiset(data)| == |data|;
    mean := SampleMean(sorted);
    MeanPermutation(sorted, data);
  }

  /** The median of the sorted slice, which is the median of the sample. */
  method MedianOf(data: seq<real>, sorted: seq<real>) returns (median: real)
    requires |data| > 0
    requires sorted == Sort(data, RealKey)
    ensures median == Median(data) && median == Middle(sorted)
  {
    var n := |sorted|;
    if n % 2 == 0 {
      median := (sorted[n / 2 - 1] + sorted[n / 2]) / 2.0;
    } else {
      median := sorted[n / 2];
    }
  }

  /** The mode step on the sorted copy, stated on the sample as given. */
  method ModesOf(data: seq<real>, sorted: seq<real>) returns (modes: seq<real>, maxf: nat)
    requires multiset(sorted) == multiset(data)
    ensures maxf == MaxCount(data) && StrictlyAscending(modes, RealKey)
    ensures forall v :: v in modes <==> maxf > 1 && v in data && multiset(data)[v] == maxf
  {
    RealKeyInjective();
    modes, maxf := Modes(sorted, RealKey);
    MaxCountPermutation(sorted, data);
    forall v ensures v in sorted <==> v in data {
      assert v in sorted <==> v in multiset(sorted);
    }
  }

  /** Quartiles, IQR, range, fences and outliers of a sorted sample. */
  method Spread(sorted: seq<real>)
    returns (q1: real, q3: real, iqr: real, rangeVal: real, lowFence: real, highFence: real, outliers: seq<real>)
    requires |sorted| > 0 && Sorted(sorted)
    ensures q1 == MedianOfSlice(LowerHalf(sorted)) && q3 == MedianOfSlice(UpperHalfWithoutMiddle(sorted))
    ensures |sorted| == 1 ==> q1 == 0.0 && q3 == 0.0
    ensures |sorted| >= 2 ==> sorted[0] <= q1 <= Middle(sorted) <= q3 <= sorted[|sorted| - 1]
    ensures iqr == q3 - q1 && iqr >= 0.0
    ensures rangeVal == sorted[|sorted| - 1] - sorted[0] && rangeVal >= 0.0
    ensures lowFence == q1 - 1.5 * iqr && highFence == q3 + 1.5 * iqr
    ensures lowFence <= q1 && q3 <= highFence
    ensures outliers == Outside(sorted, lowFence, highFence) && Sorted(outliers)
  {
    var n := |sorted|;
    var lower, upper;
    lower, upper, q1, q3, iqr := QuartilesByHalves(sorted);
    rangeVal := sorted[n - 1] - sorted[0];
    lowFence := q1 - 1.5 * iqr;
    highFence := q3 + 1.5 * iqr;
    outliers := Outliers(sorted, lowFence, highFence);
    OutsideSorted(sorted, lowFence, highFence);
  }

  /**
   * The report on a non-empty sample (an empty one would index out of range
   * at the median).
   */
  method Describe(data: seq<real>) returns (r: Report)
    requires |data| > 0
    ensures |r.sorted| == |data| && multiset(r.sorted) == multiset(data) && Sorted(r.sorted)
    ensures r.sorted[0] in data && r.sorted[|data| - 1] in data
    ensures forall v :: v in data ==> r.sorted[0] <= v <= r.sorted[|data| - 1]
    ensures r.mean == Mean(data)
    ensures r.median == Median(data)
    ensures r.maxf == MaxCount(data) && StrictlyAscending(r.modes, RealKey)
    ensures forall v :: v in r.modes <==> r.maxf > 1 && v in data && multiset(data)[v] == r.maxf
    ensures r.q1 == MedianOfSlice(LowerHalf(r.sorted)) && r.q3 == MedianOfSlice(UpperHalfWithoutMiddle(r.sorted))
    ensures |data| == 1 ==> r.q1 == 0.0 && r.q3 == 0.0
    ensures |data| >= 2 ==> r.sorted[0] <= r.q1 <= r.median <= r.q3 <= r.sorted[|data| - 1]
    ensures r.iqr == r.q3 - r.q1 && r.iqr >= 0.0
    ensures r.rangeVal == r.sorted[|data| - 1] - r.sorted[0] && r.rangeVal >= 0.0
    ensures r.lowFence == r.q1 - 1.5 * r.iqr && r.highFence == r.q3 + 1.5 * r.iqr
    ensures r.lowFence <= r.q1 && r.q3 <= r.highFence
    ensures r.outliers == Outside(r.sorted, r.lowFence, r.highFence) && Sorted(r.outliers)
  {
    var sorted := SortReals(data);
    SortedEnds(data, sorted);
    var mean := MeanOf(data, sorted);
    var median := MedianOf(data, sorted);
    var modes, maxf := ModesOf(data, sorted);
    var q1, q3, iqr, rangeVal, lowFence, highFence, outliers := Spread(sorted);
    r := Report(sorted, mean, median, modes, maxf, q1, q3, iqr, rangeVal, lowFence, highFence, outliers);
  }
}
