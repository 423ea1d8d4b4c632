/**
 * Frequency tables.  Every script that counts builds a Go map from value to
 * count with `freq[v]++`, reads it back either in map-iteration order (which
 * Go leaves unspecified) or through a sorted list of its keys, and derives
 * the maximal frequency and the modes from it.  The number of occurrences of
 * `v` in `data` is written `multiset(data)[v]` throughout.
 */
module Frequency {
  import opened Order
  import opened Moments

  /** No value occurs twice. */
  ghost predicate NoRepeats<T>(s: seq<T>) {
    forall v :: v in multiset(s) ==> multiset(s)[v] == 1
  }

  lemma {:induction false} StrictlyAscendingNoRepeats<T>(s: seq<T>, key: T -> real)
    requires StrictlyAscending(s, key)
    ensures NoRepeats(s)
  {
    if s != [] {
      StrictlyAscendingNoRepeats(s[1..], key);
      assert s == [s[0]] + s[1..];
      assert forall k :: 0 <= k < |s[1..]| ==> key(s[0]) < key(s[1..][k]);
      assert s[0] !in s[1..];
    }
  }

  lemma TwoPositions<T>(s: seq<T>, i: int, j: int)
    requires 0 <= i < j < |s| && s[i] == s[j]
    ensures multiset(s)[s[i]] >= 2
  {
    assert s == s[..j] + [s[j]] + s[j + 1..];
    assert s[i] in s[..j];
    assert multiset(s) == multiset(s[..j]) + multiset{s[j]} + multiset(s[j + 1..]);
  }

  lemma NoRepeatsAscendingIsStrict<T(!new)>(s: seq<T>, key: T -> real)
    requires Injective(key)
    requires Ascending(s, key) && NoRepeats(s)
    ensures StrictlyAscending(s, key)
  {
    forall i, j | 0 <= i < j < |s| ensures key(s[i]) < key(s[j]) {
      if key(s[i]) == key(s[j]) {
        TwoPositions(s, i, j);
      }
    }
  }

  /**
   * The value-to-count map built by `for _, v := range data { freq[v]++ }`
   * (a missing key reads as Go's zero value).
   */
  method Tally<T(==)>(data: seq<T>) returns (freq: map<T, nat>)
    ensures forall v :: v in freq <==> v in data
    ensures forall v :: v in freq ==> freq[v] == multiset(data)[v]
  {
    freq := map[];
    for i := 0 to |data|
      invariant forall v :: v in freq <==> v in data[..i]
      invariant forall v :: v in freq ==> freq[v] == multiset(data[..i])[v]
    {
      var v := data[i];
      var c := if v in freq then freq[v] else 0;
      freq := freq[v := c + 1];
      assert data[..i + 1] == data[..i] + [v];
    }
    assert data[..|data|] == data;
  }

  /**
   * The keys of a frequency map in ascending order: Go collects them in
   * map-iteration order with `append`, then sorts them.
   */
  method SortedKeys<T(==,!new)>(freq: map<T, nat>, key: T -> real) returns (keys: seq<T>)
    requires Injective(key)
    ensures StrictlyAscending(keys, key)
    ensures forall v :: v in keys <==> v in freq
  {
    var collected: seq<T> := [];
    var rest := freq.Keys;
    while rest != {}
      invariant rest <= freq.Keys
      invariant forall v :: v in collected <==> v in freq && v !in rest
      invariant NoRepeats(collected)
      decreases |rest|
    {
      var v :| v in rest;
      collected := collected + [v];
      rest := rest - {v};
    }
    keys := Sort(collected, key);
    NoRepeatsAscendingIsStrict(keys, key);
    forall v ensures v in keys <==> v in collected {
      assert v in keys <==> v in multiset(keys);
      assert v in collected <==> v in multiset(collected);
    }
  }

  /** Sum of the counts of the listed keys. */
  ghost function SumCounts<T>(data: seq<T>, keys: seq<T>): nat {
    if keys == [] then 0 else multiset(data)[keys[0]] + SumCounts(data, keys[1..])
  }

  /** How many elements of `data` are among `keys`. */
  ghost function Covered<T>(data: seq<T>, keys: seq<T>): (c: nat)
    ensures c <= |data|
  {
    if data == [] then 0
    else Covered(data[..|data| - 1], keys) + (if data[|data| - 1] in keys then 1 else 0)
  }

  lemma {:induction false} SumCountsSnoc<T>(data: seq<T>, v: T, keys: seq<T>)
    ensures SumCounts(data + [v], keys) == SumCounts(data, keys) + multiset(keys)[v]
  {
    if keys != [] {
      SumCountsSnoc(data, v, keys[1..]);
      assert keys == [keys[0]] + keys[1..];
      assert multiset(data + [v]) == multiset(data) + multiset{v};
    }
  }

  /**
   * Summing the counts over a list of distinct keys counts exactly the
   * elements of the sample that are among the keys.
   */
  lemma {:induction false} SumCountsIsCovered<T>(data: seq<T>, keys: seq<T>)
    requires NoRepeats(keys)
    ensures SumCounts(data, keys) == Covered(data, keys)
  {
    if data == [] {
      ZeroCounts(keys);
    } else {
      var d, v := data[..|data| - 1], data[|data| - 1];
      assert data == d + [v];
      SumCountsIsCovered(d, keys);
      SumCountsSnoc(d, v, keys);
      assert multiset(keys)[v] == if v in keys then 1 else 0;
    }
  }

  lemma {:induction false} ZeroCounts<T>(keys: seq<T>)
    ensures SumCounts([], keys) == 0
  {
    if keys != [] {
      ZeroCounts(keys[1..]);
    }
  }

  /** Every element is covered exactly when none falls outside the keys. */
  lemma {:induction false} CoveredAll<T>(data: seq<T>, keys: seq<T>)
    ensures Covered(data, keys) == |data| <==> forall i :: 0 <= i < |data| ==> data[i] in keys
  {
    if data != [] {
      var d := data[..|data| - 1];
      CoveredAll(d, keys);
      assert forall i :: 0 <= i < |d| ==> d[i] == data[i];
    }
  }

  /**
   * The counts of a frequency table sum to the sample size when its keys
   * are the sample's distinct values.
   */
  lemma CountsSumToSize<T>(data: seq<T>, keys: seq<T>)
    requires NoRepeats(keys)
    requires forall v :: v in data ==> v in keys
    ensures SumCounts(data, keys) == |data|
  {
    SumCountsIsCovered(data, keys);
    CoveredAll(data, keys);
  }

  /** The largest count of any candidate (0 when there is none). */
  ghost function MaxCountAmong<T>(cands: seq<T>, data: seq<T>): (m: nat)
    ensures forall v :: v in cands ==> multiset(data)[v] <= m
    ensures cands != [] ==> exists v :: v in cands && multiset(data)[v] == m
    ensures cands == [] ==> m == 0
  {
    if cands == [] then 0
    else
      var rest := MaxCountAmong(cands[1..], data);
      var c := multiset(data)[cands[0]];
      assert cands == [cands[0]] + cands[1..];
      if c > rest then c else rest
  }

  /** The highest frequency in the sample (0 for an empty sample). */
  ghost function MaxCount<T>(data: seq<T>): (m: nat)
    ensures forall v :: v in data ==> multiset(data)[v] <= m
    ensures data != [] ==> exists v :: v in data && multiset(data)[v] == m
    ensures data == [] ==> m == 0
  {
    MaxCountAmong(data, data)
  }

  /** Values attaining a given count, in the order of `vals`. */
  ghost function WithCount<T(!new)>(vals: seq<T>, data: seq<T>, c: nat): (r: seq<T>)
    ensures forall v :: v in r <==> v in vals && multiset(data)[v] == c
  {
    if vals == [] then []
    else
      assert vals == [vals[0]] + vals[1..];
      (if multiset(data)[vals[0]] == c then [vals[0]] else []) + WithCount(vals[1..], data, c)
  }

  lemma {:induction false} WithCountAscending<T(!new)>(vals: seq<T>, data: seq<T>, c: nat, key: T -> real)
    requires StrictlyAscending(vals, key)
    ensures StrictlyAscending(WithCount(vals, data, c), key)
  {
    if vals != [] {
      WithCountAscending(vals[1..], data, c, key);
      var r := WithCount(vals[1..], data, c);
      forall j | 0 <= j < |r| ensures key(vals[0]) < key(r[j]) {
        assert r[j] in vals[1..];
        var k :| 0 <= k < |vals[1..]| && vals[1..][k] == r[j];
        assert vals[k + 1] == r[j];
      }
    }
  }

  /**
   * The scripts' mode rule, as a reference list: no mode when the highest
   * frequency is 1, otherwise every value of highest frequency, ascending.
   */
  ghost function ModeList<T(!new)>(data: seq<T>, key: T -> real): seq<T>
    requires Injective(key)
  {
    if MaxCount(data) == 1 then []
    else WithCount(DistinctAscending(data, key), data, MaxCount(data))
  }

  /** What the mode list means, independently of how it is listed. */
  lemma ModeListMeaning<T(!new)>(data: seq<T>, key: T -> real)
    requires Injective(key)
    ensures StrictlyAscending(ModeList(data, key), key)
    ensures ModeList(data, key) == [] <==> MaxCount(data) <= 1
    ensures forall v :: v in ModeList(data, key) <==>
      MaxCount(data) > 1 && v in data && multiset(data)[v] == MaxCount(data)
  {
    if MaxCount(data) != 1 {
      WithCountAscending(DistinctAscending(data, key), data, MaxCount(data), key);
      if MaxCount(data) > 1 {
        var v :| v in data && multiset(data)[v] == MaxCount(data);
        assert v in ModeList(data, key);
      }
    }
  }

  /** The highest count in a frequency map, found by iterating over it. */
  method HighestCount<T>(freq: map<T, nat>) returns (maxFreq: nat)
    ensures forall v :: v in freq ==> freq[v] <= maxFreq
    ensures maxFreq == 0 || exists v :: v in freq && freq[v] == maxFreq
    ensures freq != map[] ==> exists v :: v in freq && freq[v] == maxFreq
  {
    maxFreq := 0;
    var rest := freq.Keys;
    while rest != {}
      invariant rest <= freq.Keys
      invariant forall v :: v in freq && v !in rest ==> freq[v] <= maxFreq
      invariant maxFreq == 0 || exists v :: v in freq && v !in rest && freq[v] == maxFreq
      invariant rest != freq.Keys ==> exists v :: v in freq && v !in rest && freq[v] == maxFreq
      decreases |rest|
    {
      var v :| v in rest;
      if freq[v] > maxFreq {
        maxFreq := freq[v];
      }
      rest := rest - {v};
    }
    if freq != map[] {
      var w :| w in freq.Keys;
    }
  }

  /** The keys of a frequency map whose count is `c`, in iteration order. */
  method KeysWithCount<T(==)>(freq: map<T, nat>, c: nat) returns (found: seq<T>)
    ensures forall v :: v in found <==> v in freq && freq[v] == c
    ensures NoRepeats(found)
  {
    found := [];
    var rest := freq.Keys;
    while rest != {}
      invariant rest <= freq.Keys
      invariant forall v :: v in found <==> v in freq && v !in rest && freq[v] == c
      invariant NoRepeats(found)
      decreases |rest|
    {
      var v :| v in rest;
      if freq[v] == c {
        found := found + [v];
      }
      rest := rest - {v};
    }
  }

  /**
   * The mode computation of the scripts: tally, find the highest count over
   * the map, answer nothing when it is 1, otherwise collect the values of
   * highest count in map-iteration order and sort them.
   */
  method Modes<T(==,!new)>(data: seq<T>, key: T -> real) returns (modes: seq<T>, maxFreq: nat)
    requires Injective(key)
    ensures maxFreq == MaxCount(data)
    ensures modes == ModeList(data, key)
    ensures StrictlyAscending(modes, key)
    ensures modes == [] <==> maxFreq <= 1
    ensures forall v :: v in modes <==> maxFreq > 1 && v in data && multiset(data)[v] == maxFreq
  {
    var freq := Tally(data);
    maxFreq := HighestCount(freq);
    MaxCountIs(data, maxFreq);
    ModeListMeaning(data, key);
    if maxFreq == 1 {
      modes := [];
      return;
    }
    var found := KeysWithCount(freq, maxFreq);
    modes := Sort(found, key);
    NoRepeatsAscendingIsStrict(modes, key);
    forall v ensures v in modes <==> v in found {
      assert v in modes <==> v in multiset(modes);
      assert v in found <==> v in multiset(found);
    }
    StrictlyAscendingUnique(modes, ModeList(data, key), key);
  }

  /** The maximal count is determined by being an attained upper bound. */
  lemma MaxCountIs<T>(data: seq<T>, m: nat)
    requires forall v :: v in data ==> multiset(data)[v] <= m
    requires m == 0 || exists v :: v in data && multiset(data)[v] == m
    ensures m == MaxCount(data)
  {
    if data != [] {
      var v :| v in data && multiset(data)[v] == MaxCount(data);
      assert v in multiset(data);
    }
  }

  /** The highest count does not depend on the order of the sample. */
  lemma MaxCountPermutation<T>(a: seq<T>, b: seq<T>)
    requires multiset(a) == multiset(b)
    ensures MaxCount(a) == MaxCount(b)
  {
    forall v | v in b ensures multiset(b)[v] <= MaxCount(a) {
      assert v in multiset(a);
    }
    if a != [] {
      var v :| v in a && multiset(a)[v] == MaxCount(a);
      assert v in multiset(b);
    }
    MaxCountIs(b, MaxCount(a));
  }

  /** The mode list does not depend on the order of the sample. */
  lemma ModeListPermutation<T(!new)>(a: seq<T>, b: seq<T>, key: T -> real)
    requires Injective(key)
    requires multiset(a) == multiset(b)
    ensures ModeList(a, key) == ModeList(b, key)
  {
    MaxCountPermutation(a, b);
    ModeListMeaning(a, key);
    ModeListMeaning(b, key);
    forall v ensures v in a <==> v in b {
      assert v in a <==> v in multiset(a);
      assert v in b <==> v in multiset(b);
    }
    StrictlyAscendingUnique(ModeList(a, key), ModeList(b, key), key);
  }
  // ---------------------------------------------------------------------
  // Bar heights

  /** Bar heights over a list of keys: the count of each key, as `float64`. */
  function Heights<T(==)>(data: seq<T>, keys: seq<T>): (h: seq<real>)
    ensures |h| == |keys|
  {
    seq(|keys|, i requires 0 <= i < |keys| => multiset(data)[keys[i]] as real)
  }

  /** The heights add up to the total count of the keys. */
  lemma {:induction false} HeightsSum<T>(data: seq<T>, keys: seq<T>)
    ensures Sum(Heights(data, keys)) == SumCounts(data, keys) as real
  {
    if keys != [] {
      HeightsSum(data, keys[1..]);
      var h := Heights(data, keys);
      assert h == [h[0]] + Heights(data, keys[1..]);
      SumOfAppend([h[0]], Heights(data, keys[1..]), Id);
      assert SumOf([h[0]], Id) == h[0] by {
        assert [h[0]][..0] == [];
      }
    }
  }

  /**
   * With keys that do not repeat, the heights add up to the sample size
   * exactly when every observation is one of the keys; observations with
   * any other value are left out of the bars.
   */
  lemma HeightsCoverSample<T>(data: seq<T>, keys: seq<T>)
    requires NoRepeats(keys)
    ensures Sum(Heights(data, keys)) == |data| as real <==> forall i :: 0 <= i < |data| ==> data[i] in keys
  {
    HeightsSum(data, keys);
    SumCountsIsCovered(data, keys);
    CoveredAll(data, keys);
  }
}
