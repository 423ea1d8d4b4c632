/**
 * The quartile walk-through of the root program (main.go): a sorted copy,
 * split at n/2 into a lower half and an upper half that keeps the middle
 * value for odd n, and Q1/Q3 as the medians of the halves.
 */
module QuartileDemo {
  import opened Order
  import opened OrderStats

  /**
   * `getMedian`: the middle rule with no guard for an empty slice (it would
   * index out of range), so a caller must pass at least one value.
   */
  method GetMedian(arr: seq<real>) returns (median: real)
    requires |arr| > 0
    ensures median == Middle(arr)
    ensures Sorted(arr) ==> arr[0] <= median <= arr[|arr| - 1]
  {
    var n := |arr|;
    if n % 2 == 0 {
      var mid1 := arr[n / 2 - 1];
      var mid2 := arr[n / 2];
      median := (mid1 + mid2) / 2.0;
    } else {
      median := arr[n / 2];
    }
    if Sorted(arr) {
      MiddleBetween(arr);
    }
  }

  /**
   * Steps 2-4 on the sorted copy: split at n/2 and take the medians of the
   * halves.  Both halves must be non-empty for `getMedian`, so at least two
   * values.  For the 60 values of the script each half has 30 and the
   * quartiles are the averages of positions 14 and 15 of the halves, the
   * positions the script prints.
   */
  method SplitAndMedians(sortedData: seq<real>)
    returns (lowerHalf: seq<real>, upperHalf: seq<real>, q1: real, q3: real)
    requires |sortedData| >= 2 && Sorted(sortedData)
    ensures lowerHalf == LowerHalf(sortedData) && upperHalf == UpperHalfWithMiddle(sortedData)
    ensures lowerHalf + upperHalf == sortedData
    ensures |upperHalf| == |lowerHalf| + |sortedData| % 2
    ensures q1 == Middle(lowerHalf) && q3 == Middle(upperHalf)
    ensures sortedData[0] <= q1 <= Middle(sortedData) <= q3 <= sortedData[|sortedData| - 1]
    ensures |sortedData| == 60 ==>
      |lowerHalf| == 30 && |upperHalf| == 30 &&
      q1 == (lowerHalf[14] + lowerHalf[15]) / 2.0 && q3 == (upperHalf[14] + upperHalf[15]) / 2.0
  {
    var n := |sortedData|;
    var midpoint := n / 2;
    lowerHalf := sortedData[..midpoint];
    upperHalf := sortedData[midpoint..];
    assert lowerHalf + upperHalf == sortedData;
    q1 := GetMedian(lowerHalf);
    q3 := GetMedian(upperHalf);
    QuartilesAroundMedianWithMiddle(sortedData);
    if n == 60 {
      SixtyValues(sortedData);
    }
  }

  /** With 60 values both halves have 30, whose middle pair sits at positions 14 and 15. */
  lemma SixtyValues(s: seq<real>)
    requires |s| == 60
    ensures |LowerHalf(s)| == 30 && |UpperHalfWithMiddle(s)| == 30
    ensures Middle(LowerHalf(s)) == (LowerHalf(s)[14] + LowerHalf(s)[15]) / 2.0
    ensures Middle(UpperHalfWithMiddle(s)) == (UpperHalfWithMiddle(s)[14] + UpperHalfWithMiddle(s)[15]) / 2.0
  {
  }

  /** The walk-through on the data in its original order. */
  method Demo(data: seq<real>)
    returns (sortedData: seq<real>, lowerHalf: seq<real>, upperHalf: seq<real>, q1: real, q3: real)
    requires |data| >= 2
    ensures |sortedData| == |data| && multiset(sortedData) == multiset(data) && Sorted(sortedData)
    ensures lowerHalf + upperHalf == sortedData && |upperHalf| == |lowerHalf| + |data| % 2
    ensures q1 == Middle(lowerHalf) && q3 == Middle(upperHalf)
    ensures sortedData[0] <= q1 <= Median(data) <= q3 <= sortedData[|data| - 1]
  {
    sortedData := SortReals(data);
    lowerHalf, upperHalf, q1, q3 := SplitAndMedians(sortedData);
  }
}
