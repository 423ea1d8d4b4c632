/**
 * The bar charts of the three qualitative apple variables
 * (cmd/qual_analysis/main.go): for crunchiness, quality and ripeness a
 * value→count map is built over the records, and the bar values are read
 * off it in a fixed key order, a key that never occurs reading as Go's zero
 * count.  Drawing and saving the charts and the printed interpretation are
 * not modelled.
 */
module QualAnalysis {
  import opened Order
  import opened Frequency
  import opened Moments
  import opened Apples

  const CrunchKeys: seq<string> := ["high", "medium", "low"]
  const QualityKeys: seq<string> := ["good", "bad"]
  const RipenessKeys: seq<int> := [1, 2, 3, 4]

  /**
   * One chart: count the column into a map, then fill the values array in
   * key order, an absent key giving 0.
   */
  method CategoryCounts<K(==)>(column: seq<K>, keys: seq<K>) returns (vals: seq<real>)
    ensures vals == Heights(column, keys)
  {
    var freq := Tally(column);
    var buf := new real[|keys|];
    for i := 0 to |keys|
      invariant forall j :: 0 <= j < i ==> buf[j] == multiset(column)[keys[j]] as real
    {
      var c := if keys[i] in freq then freq[keys[i]] else 0;
      buf[i] := c as real;
    }
    vals := buf[..];
  }

  /** The three value arrays the charts are drawn from. */
  datatype Charts = Charts(crunchVals: seq<real>, qualityVals: seq<real>, ripenessVals: seq<real>)

  /**
   * The script on any sample of records.  Each chart holds the count of each
   * of its keys; its bars add up to the number of records exactly when no
   * record carries a value outside the chart's keys.
   */
  method Analyse(data: seq<Record>) returns (c: Charts)
    ensures c.crunchVals == Heights(Project(data, Crunchiness), CrunchKeys)
    ensures c.qualityVals == Heights(Project(data, Quality), QualityKeys)
    ensures c.ripenessVals == Heights(Project(data, Ripeness), RipenessKeys)
    ensures Sum(c.crunchVals) == |data| as real <==>
      forall i :: 0 <= i < |data| ==> data[i].crunchiness in CrunchKeys
    ensures Sum(c.qualityVals) == |data| as real <==>
      forall i :: 0 <= i < |data| ==> data[i].quality == "good" || data[i].quality == "bad"
    ensures Sum(c.ripenessVals) == |data| as real <==>
      forall i :: 0 <= i < |data| ==> 1 <= data[i].ripeness <= 4
  {
    var crunchVals := CategoryCounts(Project(data, Crunchiness), CrunchKeys);
    var qualityVals := CategoryCounts(Project(data, Quality), QualityKeys);
    var ripenessVals := CategoryCounts(Project(data, Ripeness), RipenessKeys);
    KeysDistinct();
    ChartCoversSample(data, Crunchiness, CrunchKeys);
    ChartCoversSample(data, Quality, QualityKeys);
    ChartCoversSample(data, Ripeness, RipenessKeys);
    forall i | 0 <= i < |data| ensures Ripeness(data[i]) in RipenessKeys <==> 1 <= data[i].ripeness <= 4 {
      RipenessScale(data[i].ripeness);
    }
    c := Charts(crunchVals, qualityVals, ripenessVals);
  }

  /** None of the three key lists repeats a key. */
  lemma KeysDistinct()
    ensures NoRepeats(CrunchKeys) && NoRepeats(QualityKeys) && NoRepeats(RipenessKeys)
  {
    IntKeyInjective();
    StrictlyAscendingNoRepeats(RipenessKeys, IntKey);
  }

  /** The ripeness keys are exactly the points 1 to 4 of the scale. */
  lemma RipenessScale(x: int)
    ensures x in RipenessKeys <==> 1 <= x <= 4
  {
    if 1 <= x <= 4 {
      assert RipenessKeys[x - 1] == x;
    }
  }

  /** A chart's bars add up to the sample size exactly when every record's value is a key. */
  lemma ChartCoversSample<K>(data: seq<Record>, f: Record -> K, keys: seq<K>)
    requires NoRepeats(keys)
    ensures Sum(Heights(Project(data, f), keys)) == |data| as real <==>
      forall i :: 0 <= i < |data| ==> f(data[i]) in keys
  {
    var col := Project(data, f);
    HeightsCoverSample(col, keys);
    assert forall i :: 0 <= i < |data| ==> col[i] == f(data[i]);
  }

  /** The charts do not depend on the order of the records. */
  lemma RecordOrderIrrelevant<K>(a: seq<Record>, b: seq<Record>, f: Record -> K, keys: seq<K>)
    requires multiset(a) == multiset(b)
    ensures Heights(Project(a, f), keys) == Heights(Project(b, f), keys)
  {
    ProjectPermutation(a, b, f);
  }
}
