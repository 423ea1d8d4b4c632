/**
 * The annotated bar chart of weekly work hours (cmd/workhours_plot/main.go):
 * one bar per distinct hour value in ascending order, its height the count,
 * and vertical mean and median lines placed on the bar axis by the
 * piecewise-linear `hourToPos` map.  Drawing and saving the plot are not
 * modelled.
 */
module WorkhoursPlot {
  import opened Order
  import opened Frequency
  import opened Moments
  import opened OrderStats
  import Workhours

  // ---------------------------------------------------------------------
  // Bars

  /** The `values[i] = float64(freq[k])` loop over the sorted keys. */
  method BarValues(freq: map<int, nat>, keys: seq<int>) returns (values: array<real>)
    requires forall i :: 0 <= i < |keys| ==> keys[i] in freq
    ensures fresh(values) && values.Length == |keys|
    ensures forall i :: 0 <= i < |keys| ==> values[i] == freq[keys[i]] as real
  {
    values := new real[|keys|];
    for i := 0 to |keys|
      invariant forall j :: 0 <= j < i ==> values[j] == freq[keys[j]] as real
    {
      values[i] := freq[keys[i]] as real;
    }
  }

  /** The `maxY` loop: the tallest bar, starting from 0. */
  method MaxBar(values: array<real>) returns (maxY: real)
    ensures maxY >= 0.0
    ensures forall i :: 0 <= i < values.Length ==> values[i] <= maxY
    ensures maxY == 0.0 || exists i :: 0 <= i < values.Length && values[i] == maxY
  {
    maxY := 0.0;
    for i := 0 to values.Length
      invariant maxY >= 0.0
      invariant forall j :: 0 <= j < i ==> values[j] <= maxY
      invariant maxY == 0.0 || exists j :: 0 <= j < i && values[j] == maxY
    {
      if values[i] > maxY {
        maxY := values[i];
      }
    }
  }

  // ---------------------------------------------------------------------
  // hourToPos

  /**
   * The interpolation search from bracket j on: the first j with
   * keys[j] ≤ x ≤ keys[j+1] gives j + (x − keys[j]) / (keys[j+1] − keys[j]).
   */
  function Segment(keys: seq<int>, x: real, j: nat): (r: real)
    requires StrictlyAscending(keys, IntKey)
    requires j < |keys| - 1
    requires keys[j] as real <= x < keys[|keys| - 1] as real
    ensures j as real <= r <= (|keys| - 1) as real
    decreases |keys| - j
  {
    var a, b := keys[j] as real, keys[j + 1] as real;
    if x <= b then
      FractionBetween(x, a, b);
      j as real + (x - a) / (b - a)
    else
      Segment(keys, x, j + 1)
  }

  /** The position of x in a bracket lies between 0 and 1. */
  lemma FractionBetween(x: real, a: real, b: real)
    requires a <= x <= b && a < b
    ensures 0.0 <= (x - a) / (b - a) <= 1.0
  {
    DivMonotone(0.0, x - a, b - a);
    DivMonotone(x - a, b - a, b - a);
    assert 0.0 / (b - a) == 0.0 && (b - a) / (b - a) == 1.0;
  }

  /**
   * `hourToPos` on a strictly ascending key list: 0 with no keys or at or
   * below the first key, the last index at or above the last key, the
   * interpolated bracket in between.
   */
  function Position(keys: seq<int>, x: real): (p: real)
    requires StrictlyAscending(keys, IntKey)
    ensures |keys| == 0 ==> p == 0.0
    ensures |keys| > 0 ==> 0.0 <= p <= (|keys| - 1) as real
  {
    if |keys| == 0 then 0.0
    else if x <= keys[0] as real then 0.0
    else if x >= keys[|keys| - 1] as real then (|keys| - 1) as real
    else Segment(keys, x, 0)
  }

  /**
   * The closure as written: guards, then the bracket loop.  The final
   * `return 0` cannot be reached, because the loop only moves past a
   * bracket when x lies above it and x is below the last key.
   */
  method HourToPos(keys: seq<int>, x: real) returns (pos: real)
    requires StrictlyAscending(keys, IntKey)
    ensures pos == Position(keys, x)
  {
    if |keys| == 0 {
      return 0.0;
    }
    if x <= keys[0] as real {
      return 0.0;
    }
    var last := keys[|keys| - 1] as real;
    if x >= last {
      return (|keys| - 1) as real;
    }
    var j := 0;
    while j < |keys| - 1
      invariant 0 <= j < |keys|
      invariant keys[j] as real < x
      invariant j < |keys| - 1 ==> Segment(keys, x, 0) == Segment(keys, x, j)
    {
      var a := keys[j] as real;
      var b := keys[j + 1] as real;
      if x >= a && x <= b {
        var frac := (x - a) / (b - a);
        return j as real + frac;
      }
      j := j + 1;
    }
    assert false;
    pos := 0.0;
  }

  /** Each key sits exactly under its own bar: keys[j] maps to j. */
  lemma PositionOfKey(keys: seq<int>, j: nat)
    requires StrictlyAscending(keys, IntKey)
    requires j < |keys|
    ensures Position(keys, keys[j] as real) == j as real
  {
    var x := keys[j] as real;
    if 0 < j < |keys| - 1 {
      SegmentOfKey(keys, j, 0);
    }
  }

  lemma {:induction false} SegmentOfKey(keys: seq<int>, j: nat, i: nat)
    requires StrictlyAscending(keys, IntKey)
    requires i < j < |keys| - 1
    ensures Segment(keys, keys[j] as real, i) == j as real
    decreases j - i
  {
    var a, b := keys[i] as real, keys[i + 1] as real;
    assert a < b;
    if i + 1 < j {
      assert keys[j] as real > b;
      SegmentOfKey(keys, j, i + 1);
    } else {
      assert (b - a) / (b - a) == 1.0;
    }
  }

  /** A larger value is never placed left of a smaller one. */
  lemma PositionMonotone(keys: seq<int>, x: real, y: real)
    requires StrictlyAscending(keys, IntKey)
    requires x <= y
    ensures Position(keys, x) <= Position(keys, y)
  {
    if |keys| > 0 && keys[0] as real < x && y < keys[|keys| - 1] as real {
      SegmentMonotone(keys, x, y, 0);
    }
  }

  lemma {:induction false} SegmentMonotone(keys: seq<int>, x: real, y: real, j: nat)
    requires StrictlyAscending(keys, IntKey)
    requires j < |keys| - 1
    requires keys[j] as real <= x <= y < keys[|keys| - 1] as real
    ensures Segment(keys, x, j) <= Segment(keys, y, j)
    decreases |keys| - j
  {
    var a, b := keys[j] as real, keys[j + 1] as real;
    if y <= b {
      DivMonotone(x - a, y - a, b - a);
    } else if x <= b {
      FractionBetween(x, a, b);
    } else {
      SegmentMonotone(keys, x, y, j + 1);
    }
  }

  lemma DivMonotone(u: real, v: real, d: real)
    requires u <= v && d > 0.0
    ensures u / d <= v / d
  {
    assert v / d - u / d == (v - u) / d;
  }

  // ---------------------------------------------------------------------
  // The annotated chart

  /** What the chart is drawn from. */
  datatype Chart = Chart(
    keys: seq<int>, values: seq<real>, maxY: real,
    mean: real, median: real, meanPos: real, medianPos: real)

  /**
   * The computations of the script on a non-empty sample (the median would
   * index out of range on an empty one).
   */
  method Annotate(workHours: seq<int>) returns (c: Chart)
    requires |workHours| > 0
    ensures StrictlyAscending(c.keys, IntKey) && forall h :: h in c.keys <==> h in workHours
    ensures c.values == Heights(workHours, c.keys)
    ensures Sum(c.values) == |workHours| as real
    ensures c.maxY == MaxCount(workHours) as real
    ensures c.mean == Mean(Reals(workHours))
    ensures c.median == Median(Reals(workHours))
    ensures c.keys[0] as real <= c.mean <= c.keys[|c.keys| - 1] as real
    ensures c.keys[0] as real <= c.median <= c.keys[|c.keys| - 1] as real
    ensures c.meanPos == Position(c.keys, c.mean) && c.medianPos == Position(c.keys, c.median)
    ensures 0.0 <= c.meanPos <= (|c.keys| - 1) as real && 0.0 <= c.medianPos <= (|c.keys| - 1) as real
  {
    IntKeyInjective();
    var freq := Tally(workHours);
    var keys := SortedKeys(freq, IntKey);
    var values := BarValues(freq, keys);
    var maxY := MaxBar(values);
    assert values[..] == Heights(workHours, keys);
    Bars(workHours, keys, values[..], maxY);
    var mean := SampleMean(Reals(workHours));
    var median := Workhours.GetMedian(workHours);
    WithinKeys(workHours, keys);
    var meanPos := HourToPos(keys, mean);
    var medianPos := HourToPos(keys, median);
    c := Chart(keys, values[..], maxY, mean, median, meanPos, medianPos);
  }

  /** The bars count every hour once, and the tallest is the highest count. */
  lemma Bars(data: seq<int>, keys: seq<int>, values: seq<real>, maxY: real)
    requires StrictlyAscending(keys, IntKey) && forall h :: h in keys <==> h in data
    requires values == Heights(data, keys)
    requires forall i :: 0 <= i < |values| ==> values[i] <= maxY
    requires maxY == 0.0 || exists i :: 0 <= i < |values| && values[i] == maxY
    requires data != []
    ensures Sum(values) == |data| as real
    ensures maxY == MaxCount(data) as real
  {
    StrictlyAscendingNoRepeats(keys, IntKey);
    forall v | v in data ensures v in keys {
    }
    CountsSumToSize(data, keys);
    HeightsSum(data, keys);
    var v :| v in data && multiset(data)[v] == MaxCount(data);
    var k :| 0 <= k < |keys| && keys[k] == v;
    assert values[k] == MaxCount(data) as real;
    if maxY != 0.0 {
      var i :| 0 <= i < |values| && values[i] == maxY;
      assert keys[i] in data;
    }
  }

  /** Mean and median of the hours lie between the first and the last key. */
  lemma WithinKeys(data: seq<int>, keys: seq<int>)
    requires data != []
    requires StrictlyAscending(keys, IntKey) && forall h :: h in keys <==> h in data
    ensures keys != []
    ensures keys[0] as real <= Mean(Reals(data)) <= keys[|keys| - 1] as real
    ensures keys[0] as real <= Median(Reals(data)) <= keys[|keys| - 1] as real
  {
    assert data[0] in data;
    var xs := Reals(data);
    forall i | 0 <= i < |xs| ensures keys[0] as real <= xs[i] <= keys[|keys| - 1] as real {
      assert data[i] in data;
      var k :| 0 <= k < |keys| && keys[k] == data[i];
    }
    MeanBetween(xs, keys[0] as real, keys[|keys| - 1] as real);
    MedianBetween(xs, keys[0] as real, keys[|keys| - 1] as real);
  }
}
