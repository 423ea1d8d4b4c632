/**
 * The grouped frequency table of grain yields (cmd/freq/main.go): a raw
 * value → count table, then `numClasses` closed integer classes of a common
 * width starting at the minimum, a first-match tally, and a check that the
 * class counts add up to the number of observations.
 */
module Freq {
  import opened Optional
  import opened Order
  import opened Frequency
  import opened Binning

  /** The class count the script fixes. */
  const NumClasses: nat := 6

  /** A closed integer class [lo, hi]. */
  datatype Interval = Interval(lo: int, hi: int)

  predicate Contains(c: Interval, v: int) {
    c.lo <= v <= c.hi
  }

  /**
   * The class width: ⌈rng / numClasses⌉, at least 1.  On the non-negative
   * integer range the script's float division and ceiling are exact.
   */
  function ClassWidth(rng: int, numClasses: int): (width: int)
    requires rng >= 0 && numClasses >= 1
    ensures width >= 1
  {
    var w := (rng + numClasses - 1) / numClasses;
    if w < 1 then 1 else w
  }

  /** The width is the least positive one whose classes span the range. */
  lemma ClassWidthIsCeiling(rng: int, numClasses: int)
    requires rng >= 0 && numClasses >= 1
    ensures numClasses * ClassWidth(rng, numClasses) >= rng
    ensures ClassWidth(rng, numClasses) == 1 || numClasses * (ClassWidth(rng, numClasses) - 1) < rng
  {
    var k := numClasses;
    var w := (rng + k - 1) / k;
    assert rng + k - 1 == w * k + (rng + k - 1) % k;
  }

  /** Class i is [min + i·width, min + i·width + width − 1]. */
  function Classes(min: int, width: int, numClasses: nat): (cs: seq<Interval>)
    ensures |cs| == numClasses
  {
    seq(numClasses, i => Interval(min + i * width, min + i * width + width - 1))
  }

  /** The last value the classes cover. */
  function LastEnd(min: int, width: int, numClasses: nat): int {
    min + numClasses * width - 1
  }

  /** The loop that fills the class boundaries. */
  method BuildClasses(min: int, width: int, numClasses: nat) returns (intervals: seq<Interval>)
    ensures intervals == Classes(min, width, numClasses)
  {
    var buf := new Interval[numClasses](_ => Interval(0, 0));
    for i := 0 to numClasses
      invariant forall j :: 0 <= j < i ==> buf[j] == Classes(min, width, numClasses)[j]
    {
      var start := min + i * width;
      var end := start + width - 1;
      buf[i] := Interval(start, end);
    }
    intervals := buf[..];
  }

  /** Consecutive classes touch: each starts one past the end of the previous one. */
  lemma ClassesContiguous(min: int, width: int, numClasses: nat)
    requires width >= 1
    ensures var cs := Classes(min, width, numClasses);
      (numClasses > 0 ==> cs[0].lo == min && cs[numClasses - 1].hi == LastEnd(min, width, numClasses))
      && (forall i :: 0 <= i < numClasses ==> cs[i].lo <= cs[i].hi)
      && (forall i :: 0 <= i < numClasses - 1 ==> cs[i + 1].lo == cs[i].hi + 1)
  {
    var cs := Classes(min, width, numClasses);
    forall i | 0 <= i < numClasses - 1 ensures cs[i + 1].lo == cs[i].hi + 1 {
      assert (i + 1) * width == i * width + width;
    }
    if numClasses > 0 {
      assert (numClasses - 1) * width + width == numClasses * width;
    }
  }

  /** v lies in class (v − min) / width when it is in the covered range, and in no class otherwise. */
  lemma FirstMatchInClasses(v: int, min: int, width: int, numClasses: nat)
    requires width >= 1
    ensures min <= v <= LastEnd(min, width, numClasses) ==>
      FirstMatch(v, Classes(min, width, numClasses), Contains) == Some((v - min) / width)
    ensures !(min <= v <= LastEnd(min, width, numClasses)) ==>
      FirstMatch(v, Classes(min, width, numClasses), Contains).None?
  {
    var cs := Classes(min, width, numClasses);
    var d := v - min;
    forall j | 0 <= j < numClasses ensures Contains(cs[j], v) <==> d / width == j {
      DivByClass(d, width, j);
    }
    if 0 <= d <= numClasses * width - 1 {
      BelowCount(d, width, numClasses);
      FirstMatchIs(v, cs, Contains, d / width);
    } else {
      QuotientOutside(d, width, numClasses);
    }
  }

  /** An offset outside [0, k·width − 1] has a quotient outside [0, k). */
  lemma QuotientOutside(d: int, width: int, k: int)
    requires width >= 1 && !(0 <= d <= k * width - 1)
    ensures d / width < 0 || d / width >= k
  {
    var q, r := d / width, d % width;
    assert d == q * width + r && 0 <= r < width;
    if d < 0 {
      MulCancelLess(q, 0, width);
    } else {
      assert k * width < (q + 1) * width;
      MulCancelLess(k, q + 1, width);
    }
  }

  lemma DivByClass(d: int, width: int, j: int)
    requires width >= 1
    ensures j * width <= d <= j * width + width - 1 <==> d / width == j
  {
    var q, r := d / width, d % width;
    assert d == q * width + r && 0 <= r < width;
    if j * width <= d <= j * width + width - 1 {
      assert j * width < (q + 1) * width;
      MulCancelLess(j, q + 1, width);
      assert q * width < (j + 1) * width;
      MulCancelLess(q, j + 1, width);
    }
  }

  lemma MulCancelLess(a: int, b: int, w: int)
    requires w >= 1 && a * w < b * w
    ensures a < b
  {
  }

  lemma BelowCount(d: int, width: int, k: nat)
    requires width >= 1 && 0 <= d <= k * width - 1
    ensures 0 <= d / width < k
  {
    assert d == (d / width) * width + d % width;
    MulCancelLess(d / width, k, width);
  }

  /** The sanity check passes exactly when every observation lies in [min, last end]. */
  lemma CountedInRange(data: seq<int>, min: int, width: int, numClasses: nat)
    requires width >= 1
    ensures Total(ClassCounts(data, Classes(min, width, numClasses), Contains)) == |data| <==>
      forall i :: 0 <= i < |data| ==> min <= data[i] <= LastEnd(min, width, numClasses)
  {
    var cs := Classes(min, width, numClasses);
    TotalIsMatched(data, cs, Contains);
    MatchedAll(data, cs, Contains);
    forall i | 0 <= i < |data|
      ensures FirstMatch(data[i], cs, Contains).Some? <==> min <= data[i] <= LastEnd(min, width, numClasses)
    {
      FirstMatchInClasses(data[i], min, width, numClasses);
    }
  }

  /** What the script prints, as values. */
  datatype Report = Report(
    keys: seq<int>,
    rawFreq: map<int, nat>,
    min: int,
    max: int,
    width: int,
    intervals: seq<Interval>,
    counts: seq<nat>,
    total: nat,
    sane: bool)

  /** The raw value → count table and its keys in ascending order. */
  method RawTable(data: seq<int>) returns (rawFreq: map<int, nat>, keys: seq<int>)
    ensures forall v :: v in rawFreq <==> v in data
    ensures forall v :: v in rawFreq ==> rawFreq[v] == multiset(data)[v]
    ensures StrictlyAscending(keys, IntKey)
    ensures forall v :: v in keys <==> v in data
    ensures SumCounts(data, keys) == |data|
  {
    IntKeyInjective();
    rawFreq := Frequency.Tally(data);
    keys := SortedKeys(rawFreq, IntKey);
    StrictlyAscendingNoRepeats(keys, IntKey);
    CountsSumToSize(data, keys);
  }

  /**
   * The script's computation for a given class count: raw table with sorted
   * keys, sort, range, width, classes, tally, total and the sanity check.
   * `data[0]` is read after sorting, so the sample must not be empty.  The
   * check passes exactly when the range is 0 or not a multiple of the class
   * count (see `LastClassCoversMax`).
   */
  method FrequencyTable(data: seq<int>, numClasses: nat) returns (r: Report)
    requires |data| > 0 && numClasses >= 1
    ensures forall v :: v in r.rawFreq <==> v in data
    ensures forall v :: v in r.rawFreq ==> r.rawFreq[v] == multiset(data)[v]
    ensures StrictlyAscending(r.keys, IntKey)
    ensures forall v :: v in r.keys <==> v in data
    ensures SumCounts(data, r.keys) == |data|
    ensures r.min in data && r.max in data
    ensures forall v :: v in data ==> r.min <= v <= r.max
    ensures r.width == ClassWidth(r.max - r.min, numClasses)
    ensures r.intervals == Classes(r.min, r.width, numClasses)
    ensures r.counts == ClassCounts(data, r.intervals, Contains)
    ensures r.total == Total(r.counts)
    ensures r.sane <==> r.total == |data|
    ensures r.sane <==> r.max == r.min || (r.max - r.min) % numClasses != 0
  {
    var rawFreq, keys := RawTable(data);
    var sorted := SortInts(data);
    var n := |sorted|;
    var min := sorted[0];
    var max := sorted[n - 1];
    SortedBounds(data, sorted);
    var rng := max - min;
    var width := ClassWidth(rng, numClasses);
    var intervals, counts, total := GroupedTable(data, sorted, min, width, numClasses);
    SanityCheckAsWritten(data, min, max, numClasses);
    r := Report(keys, rawFreq, min, max, width, intervals, counts, total, total == n);
    assert r.width == ClassWidth(r.max - r.min, numClasses);
  }

  /**
   * From the sorted sample, its minimum and a width on: classes, tally and
   * total.  The counts are those of the unsorted sample too.
   */
  method GroupedTable(data: seq<int>, sorted: seq<int>, min: int, width: int, numClasses: nat)
    returns (intervals: seq<Interval>, counts: seq<nat>, total: nat)
    requires multiset(sorted) == multiset(data)
    ensures intervals == Classes(min, width, numClasses)
    ensures counts == ClassCounts(data, intervals, Contains)
    ensures total == Total(counts)
  {
    intervals := BuildClasses(min, width, numClasses);
    counts := Binning.Tally(sorted, intervals, Contains);
    ClassCountsPermutation(sorted, data, intervals, Contains);
    total := SumClasses(counts);
  }

  /** The first and last values of the sorted copy are the least and greatest values. */
  lemma SortedBounds(data: seq<int>, sorted: seq<int>)
    requires |sorted| > 0 && multiset(sorted) == multiset(data)
    requires forall i, j :: 0 <= i < j < |sorted| ==> sorted[i] <= sorted[j]
    ensures sorted[0] in data && sorted[|sorted| - 1] in data
    ensures forall v :: v in data ==> sorted[0] <= v <= sorted[|sorted| - 1]
  {
    assert sorted[0] in multiset(data) && sorted[|sorted| - 1] in multiset(data);
    forall v | v in data ensures sorted[0] <= v <= sorted[|sorted| - 1] {
      assert v in multiset(sorted);
      var j :| 0 <= j < |sorted| && sorted[j] == v;
    }
  }

  /**
   * The script's sanity check, as written: with classes of the script's
   * width starting at the minimum, the counts add up to n exactly when the
   * range is 0 or not a multiple of the class count.
   */
  lemma SanityCheckAsWritten(data: seq<int>, min: int, max: int, numClasses: int)
    requires min in data && max in data && numClasses >= 1
    requires forall v :: v in data ==> min <= v <= max
    ensures var width := ClassWidth(max - min, numClasses);
      Total(ClassCounts(data, Classes(min, width, numClasses), Contains)) == |data| <==>
        max == min || (max - min) % numClasses != 0
  {
    var width := ClassWidth(max - min, numClasses);
    SanityCheck(data, min, max, width, numClasses);
    LastClassCoversMax(min, max, numClasses);
  }

  /** On a sample lying between two of its values, the total equals n exactly when the upper one is covered. */
  lemma SanityCheck(data: seq<int>, min: int, max: int, width: int, numClasses: nat)
    requires min in data && max in data && width >= 1
    requires forall v :: v in data ==> min <= v <= max
    ensures Total(ClassCounts(data, Classes(min, width, numClasses), Contains)) == |data| <==>
      max <= LastEnd(min, width, numClasses)
  {
    CountedInRange(data, min, width, numClasses);
    var j :| 0 <= j < |data| && data[j] == max;
    forall i | 0 <= i < |data| ensures min <= data[i] <= max {
      assert data[i] in data;
    }
  }

  /**
   * The width rule the comment on the class loop relies on, as written: the
   * last class reaches the maximum exactly when the range is 0 or not a
   * multiple of the class count.
   */
  lemma {:induction false} LastClassCoversMax(min: int, max: int, numClasses: int)
    requires min <= max && numClasses >= 1
    ensures max <= LastEnd(min, ClassWidth(max - min, numClasses), numClasses) <==>
      max == min || (max - min) % numClasses != 0
  {
    var rng, k := max - min, numClasses;
    var q, r := rng / k, rng % k;
    assert rng == q * k + r;
    if rng == 0 {
      DivByClass(k - 1, k, 0);
    } else if r == 0 {
      DivByClass(rng + k - 1, k, q);
    } else {
      DivByClass(rng + k - 1, k, q + 1);
    }
  }

  /** The sample [0, 6] with six classes: width 1, classes [0,0] … [5,5], and 6 is not counted. */
  lemma MaxDroppedExample()
    ensures ClassWidth(6, NumClasses) == 1
    ensures LastEnd(0, 1, NumClasses) == 5
    ensures Total(ClassCounts([0, 6], Classes(0, 1, NumClasses), Contains)) == 1
  {
    var s := [0, 6];
    assert s[..1] == [0];
    FirstMatchInClasses(0, 0, 1, NumClasses);
    FirstMatchInClasses(6, 0, 1, NumClasses);
    TotalIsMatched(s, Classes(0, 1, NumClasses), Contains);
  }

  /** The corrected width ⌊rng / numClasses⌋ + 1: one more than the script's only where the range divides evenly. */
  function CoveringWidth(rng: int, numClasses: int): (width: int)
    requires rng >= 0 && numClasses >= 1
    ensures width >= 1
  {
    rng / numClasses + 1
  }

  /** The corrected width always reaches the maximum, and agrees with the script's otherwise. */
  lemma CoveringWidthCovers(min: int, max: int, numClasses: int)
    requires min <= max && numClasses >= 1
    ensures max <= LastEnd(min, CoveringWidth(max - min, numClasses), numClasses)
    ensures max == min || (max - min) % numClasses != 0 ==>
      CoveringWidth(max - min, numClasses) == ClassWidth(max - min, numClasses)
  {
    var rng, k := max - min, numClasses;
    var q, r := rng / k, rng % k;
    assert rng == q * k + r;
    assert k * (q + 1) == q * k + k;
    if rng == 0 {
      DivByClass(k - 1, k, 0);
    } else if r != 0 {
      DivByClass(rng + k - 1, k, q + 1);
    }
  }

  /** The script with the corrected width: every observation is counted. */
  method CorrectedFrequencyTable(data: seq<int>, numClasses: nat) returns (r: Report)
    requires |data| > 0 && numClasses >= 1
    ensures r.min in data && r.max in data
    ensures forall v :: v in data ==> r.min <= v <= r.max
    ensures r.width == CoveringWidth(r.max - r.min, numClasses)
    ensures r.intervals == Classes(r.min, r.width, numClasses)
    ensures r.counts == ClassCounts(data, r.intervals, Contains)
    ensures r.total == Total(r.counts)
    ensures r.sane && r.total == |data|
  {
    var rawFreq, keys := RawTable(data);
    var sorted := SortInts(data);
    var n := |sorted|;
    var min := sorted[0];
    var max := sorted[n - 1];
    SortedBounds(data, sorted);
    var width := CoveringWidth(max - min, numClasses);
    CoveringWidthCovers(min, max, numClasses);
    var intervals, counts, total := GroupedTable(data, sorted, min, width, numClasses);
    SanityCheck(data, min, max, width, numClasses);
    r := Report(keys, rawFreq, min, max, width, intervals, counts, total, total == n);
    assert r.width == CoveringWidth(r.max - r.min, numClasses);
  }

  /** The wheat-yield sample of the script, in its given order. */
  const GrainYields: seq<int> := [
    145, 152, 138, 167, 155, 161, 143, 158, 149, 172,
    162, 147, 154, 168, 141, 159, 165, 150, 163, 140,
    156, 169, 144, 160, 153, 166, 142, 157, 151, 164]

  /** Every yield lies in [138, 172], and both ends occur. */
  lemma GrainYieldsRange()
    ensures forall v :: v in GrainYields ==> 138 <= v <= 172
    ensures 138 in GrainYields && 172 in GrainYields
  {
    assert GrainYields[2] == 138 && GrainYields[9] == 172;
  }

  /** For that sample: width ⌈34/6⌉ = 6, classes [138,143] … [168,173], all 30 counted. */
  lemma GrainYieldsTable()
    ensures ClassWidth(172 - 138, NumClasses) == 6
    ensures LastEnd(138, 6, NumClasses) == 173
    ensures Total(ClassCounts(GrainYields, Classes(138, 6, NumClasses), Contains)) == |GrainYields| == 30
  {
    GrainYieldsRange();
    SanityCheck(GrainYields, 138, 172, 6, NumClasses);
  }
}
