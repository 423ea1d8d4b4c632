/**
 * Order statistics on a sorted sample: the even/odd middle rule every median
 * helper uses, the two ways the scripts split a sample into halves for the
 * quartiles, and the facts the box-plot style reports rely on.
 */
module OrderStats {
  import opened Order

  /**
   * The middle of a slice: the middle element for odd length, the mean of
   * the two middle elements for even length.  Meaningful on sorted slices.
   */
  function Middle(s: seq<real>): real
    requires |s| > 0
  {
    if |s| % 2 == 0 then (s[|s| / 2 - 1] + s[|s| / 2]) / 2.0 else s[|s| / 2]
  }

  /** The median of any sample: the middle of its sorted copy. */
  function Median(s: seq<real>): real
    requires |s| > 0
  {
    Middle(Sort(s, RealKey))
  }

  /** The lower half used for Q1: the first ⌊n/2⌋ values. */
  function LowerHalf(s: seq<real>): (h: seq<real>)
    ensures |h| == |s| / 2
  {
    s[..|s| / 2]
  }

  /** The upper half that keeps the middle value for odd n: the last ⌈n/2⌉ values. */
  function UpperHalfWithMiddle(s: seq<real>): (h: seq<real>)
    ensures |h| == |s| - |s| / 2
  {
    s[|s| / 2..]
  }

  /** The upper half that drops the middle value for odd n: the last ⌊n/2⌋ values. */
  function UpperHalfWithoutMiddle(s: seq<real>): (h: seq<real>)
    ensures |h| == |s| / 2
  {
    s[(|s| + 1) / 2..]
  }

  /** A sorted slice of a sorted sample is sorted. */
  lemma SortedSlice(s: seq<real>, lo: int, hi: int)
    requires Sorted(s) && 0 <= lo <= hi <= |s|
    ensures Sorted(s[lo..hi])
  {
  }

  /** The middle of a sorted slice lies between its first and last values. */
  lemma MiddleBetween(s: seq<real>)
    requires |s| > 0 && Sorted(s)
    ensures s[0] <= Middle(s) <= s[|s| - 1]
  {
  }

  /**
   * The median splits a sorted sample: the first ⌈n/2⌉ values are at most
   * the median and the last ⌈n/2⌉ are at least the median.
   */
  lemma MiddleSplits(s: seq<real>)
    requires |s| > 0 && Sorted(s)
    ensures forall i :: 0 <= i < (|s| + 1) / 2 ==> s[i] <= Middle(s)
    ensures forall i :: |s| / 2 <= i < |s| ==> Middle(s) <= s[i]
  {
  }

  /** Reordering a sample does not change its median. */
  lemma MedianPermutation(a: seq<real>, b: seq<real>)
    requires |a| > 0
    requires multiset(a) == multiset(b)
    ensures |b| > 0
    ensures Median(a) == Median(b)
  {
    assert |a| == |multiset(a)| == |multiset(b)| == |b|;
    RealKeyInjective();
    SortPermutationInvariant(a, b, RealKey);
  }

  /** On an already sorted sample the median is the middle. */
  lemma MedianOfSorted(s: seq<real>)
    requires |s| > 0 && Sorted(s)
    ensures Median(s) == Middle(s)
  {
    RealKeyInjective();
    SortOfAscending(s, RealKey);
  }

  /** The sorted copy of a sample is sorted. */
  lemma SortIsSorted(s: seq<real>)
    ensures Sorted(Sort(s, RealKey))
  {
    AscendingRealIsSorted(Sort(s, RealKey));
  }

  /** The median lies between the least and the greatest value. */
  lemma MedianBetween(s: seq<real>, lo: real, hi: real)
    requires |s| > 0
    requires forall i :: 0 <= i < |s| ==> lo <= s[i] <= hi
    ensures lo <= Median(s) <= hi
  {
    var t := Sort(s, RealKey);
    SortIsSorted(s);
    MiddleBetween(t);
    assert t[0] in multiset(s) && t[|t| - 1] in multiset(s);
  }

  /**
   * Median of the halves, lower half of ⌊n/2⌋ values and upper half keeping
   * the middle: Q1 ≤ median ≤ Q3 once n ≥ 2.
   */
  lemma QuartilesAroundMedianWithMiddle(s: seq<real>)
    requires |s| >= 2 && Sorted(s)
    ensures s[0] <= Middle(LowerHalf(s)) <= Middle(s) <= Middle(UpperHalfWithMiddle(s)) <= s[|s| - 1]
  {
    var lower, upper := LowerHalf(s), UpperHalfWithMiddle(s);
    SortedSlice(s, 0, |s| / 2);
    SortedSlice(s, |s| / 2, |s|);
    MiddleBetween(lower);
    MiddleBetween(upper);
    assert lower[0] == s[0];
    assert lower[|lower| - 1] == s[|s| / 2 - 1];
    assert upper[0] == s[|s| / 2];
    assert upper[|upper| - 1] == s[|s| - 1];
  }

  /**
   * Median of the halves with the middle value excluded for odd n: again
   * Q1 ≤ median ≤ Q3 once n ≥ 2.
   */
  lemma QuartilesAroundMedianWithoutMiddle(s: seq<real>)
    requires |s| >= 2 && Sorted(s)
    ensures Middle(LowerHalf(s)) <= Middle(s) <= Middle(UpperHalfWithoutMiddle(s))
  {
    var lower, upper := LowerHalf(s), UpperHalfWithoutMiddle(s);
    SortedSlice(s, 0, |s| / 2);
    SortedSlice(s, (|s| + 1) / 2, |s|);
    MiddleBetween(lower);
    MiddleBetween(upper);
    assert lower[|lower| - 1] == s[|s| / 2 - 1];
    assert upper[0] == s[(|s| + 1) / 2];
  }

  /** The ends of a sorted copy are the least and greatest values. */
  lemma SortedEnds(data: seq<real>, sorted: seq<real>)
    requires |sorted| > 0 && multiset(sorted) == multiset(data) && Sorted(sorted)
    ensures sorted[0] in data && sorted[|sorted| - 1] in data
    ensures forall v :: v in data ==> sorted[0] <= v <= sorted[|sorted| - 1]
  {
    assert sorted[0] in multiset(data) && sorted[|sorted| - 1] in multiset(data);
    forall v | v in data ensures sorted[0] <= v <= sorted[|sorted| - 1] {
      assert v in multiset(sorted);
    }
  }

  /**
   * The median helper of the quartile scripts (`medianOfSlice`, `getMedian`):
   * 0 for an empty slice, otherwise the middle rule.
   */
  function MedianOfSlice(s: seq<real>): real {
    if |s| == 0 then 0.0 else Middle(s)
  }

  /** On a sorted non-empty slice the result lies within the slice; an empty slice gives 0. */
  lemma MedianOfSliceBetween(s: seq<real>)
    requires Sorted(s)
    ensures |s| == 0 ==> MedianOfSlice(s) == 0.0
    ensures |s| > 0 ==> s[0] <= MedianOfSlice(s) <= s[|s| - 1]
  {
    if |s| > 0 {
      MiddleBetween(s);
    }
  }

  /**
   * The halves: `data[:mid]` and, for even n, `data[mid:]`, for odd n
   * `data[mid+1:]`.  Both branches take the last ⌊n/2⌋ values, and the two
   * halves with the middle value between them (odd n) make up the sample.
   */
  method Halves(data: seq<real>) returns (lower: seq<real>, upper: seq<real>)
    ensures lower == LowerHalf(data) && upper == UpperHalfWithoutMiddle(data)
    ensures |lower| == |upper| == |data| / 2
    ensures data == lower + (if |data| % 2 == 1 then [data[|data| / 2]] else []) + upper
  {
    var n := |data|;
    var mid := n / 2;
    if n % 2 == 0 {
      lower := data[..mid];
      upper := data[mid..];
      assert data == lower + upper;
    } else {
      lower := data[..mid];
      upper := data[mid + 1..];
      assert data == lower + [data[mid]] + upper;
    }
  }

  /**
   * Quartiles as medians of the halves: for n = 1 both halves are empty and
   * both quartiles 0; from n = 2 on they bracket the median and stay within
   * the sample.
   */
  lemma QuartilesOfHalves(s: seq<real>)
    requires |s| > 0 && Sorted(s)
    ensures |s| == 1 ==>
      MedianOfSlice(LowerHalf(s)) == 0.0 && MedianOfSlice(UpperHalfWithoutMiddle(s)) == 0.0
    ensures |s| >= 2 ==>
      s[0] <= MedianOfSlice(LowerHalf(s)) <= Middle(s) <= MedianOfSlice(UpperHalfWithoutMiddle(s)) <= s[|s| - 1]
  {
    if |s| >= 2 {
      var lower, upper := LowerHalf(s), UpperHalfWithoutMiddle(s);
      QuartilesAroundMedianWithoutMiddle(s);
      SortedSlice(s, 0, |s| / 2);
      SortedSlice(s, (|s| + 1) / 2, |s|);
      MiddleBetween(lower);
      MiddleBetween(upper);
      assert lower[0] == s[0];
      assert upper[|upper| - 1] == s[|s| - 1];
    }
  }

  /**
   * Q1 and Q3 as the medians of the two halves of a sorted sample, and the
   * IQR between them.
   */
  method QuartilesByHalves(sorted: seq<real>) returns (lower: seq<real>, upper: seq<real>, q1: real, q3: real, iqr: real)
    requires |sorted| > 0 && Sorted(sorted)
    ensures lower == LowerHalf(sorted) && upper == UpperHalfWithoutMiddle(sorted)
    ensures q1 == MedianOfSlice(lower) && q3 == MedianOfSlice(upper) && iqr == q3 - q1
    ensures |sorted| == 1 ==> q1 == 0.0 && q3 == 0.0
    ensures |sorted| >= 2 ==> sorted[0] <= q1 <= Middle(sorted) <= q3 <= sorted[|sorted| - 1]
    ensures iqr >= 0.0
  {
    lower, upper := Halves(sorted);
    q1 := MedianOfSlice(lower);
    q3 := MedianOfSlice(upper);
    QuartilesOfHalves(sorted);
    iqr := q3 - q1;
  }
}
