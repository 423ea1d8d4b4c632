/**
 * The weekly work-hours report (cmd/workhours/main.go): the helper functions
 * that feed its summary table, and the frequency/mode step of the report.
 * Samples are Go `[]int`; results are `float64`, modelled as `real`.
 */
module Workhours {
  import opened Order
  import opened Frequency
  import opened Moments
  import opened OrderStats

  /** `getMean`: integer sum, converted, divided by the length (no empty guard). */
  method GetMean(data: seq<int>) returns (mean: real)
    requires |data| > 0
    ensures mean == Mean(Reals(data))
  {
    var sum := 0;
    for i := 0 to |data|
      invariant sum == SumInts(data[..i])
    {
      assert data[..i + 1][..i] == data[..i];
      sum := sum + data[i];
    }
    assert data[..|data|] == data;
    SumIntsAsReal(data);
    mean := sum as real / |data| as real;
  }

  /** `getMedian`: the even/odd middle of a sorted copy (empty input would index out of range). */
  method GetMedian(data: seq<int>) returns (median: real)
    requires |data| > 0
    ensures median == Median(Reals(data))
  {
    var n := |data|;
    var sorted := Sort(data, IntKey);
    if n % 2 == 0 {
      median := (sorted[n / 2 - 1] + sorted[n / 2]) as real / 2.0;
    } else {
      median := sorted[n / 2] as real;
    }
    MiddleOfInts(sorted);
    RealsOfSort(data);
  }

  /** The middle of an int slice, computed in ints and converted, as the model computes it. */
  lemma MiddleOfInts(t: seq<int>)
    requires |t| > 0
    ensures Middle(Reals(t)) ==
      if |t| % 2 == 0 then (t[|t| / 2 - 1] + t[|t| / 2]) as real / 2.0 else t[|t| / 2] as real
  {
  }

  /** `getModes`: the frequency map, its highest count, and the sorted values holding it. */
  method GetModes(data: seq<int>) returns (modes: seq<int>)
    ensures modes == ModeList(data, IntKey)
    ensures StrictlyAscending(modes, IntKey)
    ensures modes == [] <==> MaxCount(data) <= 1
    ensures forall v :: v in modes <==> MaxCount(data) > 1 && v in data && multiset(data)[v] == MaxCount(data)
  {
    IntKeyInjective();
    var maxFreq;
    modes, maxFreq := Modes(data, IntKey);
  }

  /** `getVariance`: 0 for an empty sample, otherwise the population variance. */
  method GetVariance(data: seq<int>) returns (variance: real)
    ensures |data| == 0 ==> variance == 0.0
    ensures |data| > 0 ==> variance == PopVariance(Reals(data))
    ensures variance >= 0.0
  {
    var n := |data|;
    if n == 0 {
      return 0.0;
    }
    var mean := GetMean(data);
    var xs := Reals(data);
    var sumSquaredDiff := 0.0;
    for i := 0 to n
      invariant sumSquaredDiff == SumSqDev(xs[..i], mean)
    {
      var diff := data[i] as real - mean;
      SquareOfDeviation(xs[..i + 1], mean, diff);
      assert xs[..i + 1][..i] == xs[..i];
      sumSquaredDiff := sumSquaredDiff + diff * diff;
    }
    assert xs[..n] == xs;
    variance := sumSquaredDiff / n as real;
  }

  /**
   * `getStdDev`: 0 when the variance is not positive, otherwise 20 Newton
   * steps from variance/2.  The iterate stays positive, so no step divides
   * by zero and the result is 0 exactly when all the values are equal.
   */
  method GetStdDev(data: seq<int>) returns (stdDev: real)
    ensures |data| == 0 ==> stdDev == 0.0
    ensures stdDev >= 0.0
    ensures stdDev == 0.0 <==> forall i, j :: 0 <= i < |data| && 0 <= j < |data| ==> data[i] == data[j]
  {
    var variance := GetVariance(data);
    if |data| > 0 {
      PopVarianceZero(Reals(data));
    }
    if variance <= 0.0 {
      return 0.0;
    }
    var guess := variance / 2.0;
    for i := 0 to 20
      invariant guess > 0.0
    {
      NewtonStepPositive(guess, variance);
      guess := (guess + variance / guess) / 2.0;
    }
    stdDev := guess;
  }

  lemma NewtonStepPositive(g: real, v: real)
    requires g > 0.0 && v > 0.0
    ensures (g + v / g) / 2.0 > 0.0
  {
    assert v / g > 0.0;
  }

  /**
   * The mode step of the report (`calculateMode`): tally, sort the keys,
   * take the highest count over the sorted keys, then keep the keys holding
   * it in key order.  When the highest count is 1 every value is listed and
   * the report prints "no mode" instead; otherwise the list is `getModes`'.
   */
  method CalculateMode(data: seq<int>) returns (modes: seq<int>, maxFreq: nat)
    ensures maxFreq == MaxCount(data)
    ensures StrictlyAscending(modes, IntKey)
    ensures forall v :: v in modes <==> v in data && multiset(data)[v] == maxFreq
    ensures maxFreq > 1 ==> modes == ModeList(data, IntKey)
  {
    IntKeyInjective();
    var frequency := Tally(data);
    var keys := SortedKeys(frequency, IntKey);
    maxFreq := HighestCountOver(frequency, keys);
    forall v | v in data ensures multiset(data)[v] <= maxFreq {
      assert v in frequency;
    }
    if data != [] {
      assert data[0] in frequency;
      var v :| v in keys && frequency[v] == maxFreq;
    }
    MaxCountIs(data, maxFreq);
    modes := KeysHolding(frequency, keys, maxFreq);
    if maxFreq > 1 {
      ModeListMeaning(data, IntKey);
      StrictlyAscendingUnique(modes, ModeList(data, IntKey), IntKey);
    }
  }

  /** The loop over the sorted keys that finds the highest count. */
  method HighestCountOver(frequency: map<int, nat>, keys: seq<int>) returns (maxFreq: nat)
    requires forall v :: v in keys <==> v in frequency
    requires forall v :: v in frequency ==> frequency[v] > 0
    ensures forall v :: v in keys ==> frequency[v] <= maxFreq
    ensures keys != [] ==> exists v :: v in keys && frequency[v] == maxFreq
    ensures keys == [] ==> maxFreq == 0
  {
    maxFreq := 0;
    for i := 0 to |keys|
      invariant forall v :: v in keys[..i] ==> frequency[v] <= maxFreq
      invariant maxFreq == 0 || exists v :: v in keys[..i] && frequency[v] == maxFreq
      invariant i > 0 ==> maxFreq > 0
    {
      var hours := keys[i];
      assert keys[..i + 1] == keys[..i] + [hours];
      assert hours in keys;
      var count := frequency[hours];
      if count > maxFreq {
        maxFreq := count;
      }
    }
    assert keys[..|keys|] == keys;
  }

  /** The loop over the sorted keys that collects those whose count is `c`, in key order. */
  method KeysHolding(frequency: map<int, nat>, keys: seq<int>, c: nat) returns (modes: seq<int>)
    requires forall v :: v in keys <==> v in frequency
    requires StrictlyAscending(keys, IntKey)
    ensures StrictlyAscending(modes, IntKey)
    ensures forall v :: v in modes <==> v in keys && frequency[v] == c
  {
    modes := [];
    for i := 0 to |keys|
      invariant StrictlyAscending(modes, IntKey)
      invariant forall v :: v in modes <==> v in keys[..i] && frequency[v] == c
    {
      assert keys[..i + 1] == keys[..i] + [keys[i]];
      assert keys[i] in keys;
      if frequency[keys[i]] == c {
        AppendKeepsAscending(modes, keys, i);
        modes := modes + [keys[i]];
      }
    }
    assert keys[..|keys|] == keys;
  }

  /** Appending a later key of a strictly ascending key list keeps a sub-list ascending. */
  lemma AppendKeepsAscending(modes: seq<int>, keys: seq<int>, i: int)
    requires 0 <= i < |keys| && StrictlyAscending(keys, IntKey)
    requires StrictlyAscending(modes, IntKey)
    requires forall v :: v in modes ==> v in keys[..i]
    ensures StrictlyAscending(modes + [keys[i]], IntKey)
  {
    forall k | 0 <= k < |modes| ensures modes[k] < keys[i] {
      assert modes[k] in modes;
      var j :| 0 <= j < i && keys[j] == modes[k];
    }
  }
}
