/**
 * First-match tallying, shared by the scripts that bin a sample: each
 * observation goes into the first bin that contains it (the inner loop with
 * `break`), observations in no bin are not counted, and the report adds the
 * bin counts up and compares the total with the sample size.  Bins are of
 * any type `B`; `inBin(b, v)` is the script's membership test.
 */
module Binning {
  import opened Optional
  import opened Order

  /** The index of the first bin containing v, if any. */
  function FirstMatch<B, V>(v: V, bins: seq<B>, inBin: (B, V) -> bool): (r: Option<nat>)
    ensures r.Some? ==> r.value < |bins| && inBin(bins[r.value], v)
    ensures r.Some? ==> forall j :: 0 <= j < r.value ==> !inBin(bins[j], v)
    ensures r.None? <==> forall j :: 0 <= j < |bins| ==> !inBin(bins[j], v)
  {
    if bins == [] then None
    else if inBin(bins[0], v) then Some(0)
    else
      match FirstMatch(v, bins[1..], inBin)
      case None => None
      case Some(i) => Some(i + 1)
  }

  /** The first match is determined by containment and by no earlier bin containing v. */
  lemma FirstMatchIs<B, V>(v: V, bins: seq<B>, inBin: (B, V) -> bool, i: nat)
    requires i < |bins| && inBin(bins[i], v)
    requires forall j :: 0 <= j < i ==> !inBin(bins[j], v)
    ensures FirstMatch(v, bins, inBin) == Some(i)
  {
  }

  /** The counts after adding v: its first matching bin goes up by one. */
  function AddMatch<B, V>(c: seq<nat>, v: V, bins: seq<B>, inBin: (B, V) -> bool): (r: seq<nat>)
    requires |c| == |bins|
    ensures |r| == |c|
  {
    match FirstMatch(v, bins, inBin)
    case None => c
    case Some(i) => c[i := c[i] + 1]
  }

  /** The bin counts after tallying `data` left to right. */
  function ClassCounts<B, V>(data: seq<V>, bins: seq<B>, inBin: (B, V) -> bool): (counts: seq<nat>)
    ensures |counts| == |bins|
  {
    if data == [] then seq(|bins|, _ => 0)
    else AddMatch(ClassCounts(data[..|data| - 1], bins, inBin), data[|data| - 1], bins, inBin)
  }

  /** One observation of the tally: its first matching bin, if any, goes up by one. */
  method Place<B, V>(counts: array<nat>, bins: seq<B>, inBin: (B, V) -> bool, v: V)
    requires counts.Length == |bins|
    modifies counts
    ensures counts[..] == AddMatch(old(counts[..]), v, bins, inBin)
  {
    var i := 0;
    while i < |bins|
      invariant 0 <= i <= |bins|
      invariant forall j :: 0 <= j < i ==> !inBin(bins[j], v)
      invariant counts[..] == old(counts[..])
    {
      if inBin(bins[i], v) {
        FirstMatchIs(v, bins, inBin, i);
        counts[i] := counts[i] + 1;
        return;
      }
      i := i + 1;
    }
  }

  /** The tally loop over the observations. */
  method Tally<B, V>(data: seq<V>, bins: seq<B>, inBin: (B, V) -> bool) returns (counts: seq<nat>)
    ensures counts == ClassCounts(data, bins, inBin)
  {
    var buf := new nat[|bins|](_ => 0);
    assert buf[..] == ClassCounts([], bins, inBin);
    for k := 0 to |data|
      invariant buf[..] == ClassCounts(data[..k], bins, inBin)
    {
      assert data[..k + 1][..k] == data[..k];
      Place(buf, bins, inBin, data[k]);
    }
    assert data[..|data|] == data;
    counts := buf[..];
  }

  /** Σ of a count sequence. */
  function Total(c: seq<nat>): nat {
    if c == [] then 0 else c[0] + Total(c[1..])
  }

  lemma {:induction false} TotalSnoc(c: seq<nat>, x: nat)
    ensures Total(c + [x]) == Total(c) + x
  {
    if c != [] {
      assert (c + [x])[1..] == c[1..] + [x];
      TotalSnoc(c[1..], x);
    }
  }

  /** The loop that adds up the bin counts. */
  method SumClasses(counts: seq<nat>) returns (total: nat)
    ensures total == Total(counts)
  {
    total := 0;
    for i := 0 to |counts|
      invariant total == Total(counts[..i])
    {
      assert counts[..i + 1] == counts[..i] + [counts[i]];
      TotalSnoc(counts[..i], counts[i]);
      total := total + counts[i];
    }
    assert counts[..|counts|] == counts;
  }

  /** Number of observations that fall in some bin. */
  function Matched<B, V>(data: seq<V>, bins: seq<B>, inBin: (B, V) -> bool): (m: nat)
    ensures m <= |data|
  {
    if data == [] then 0
    else Matched(data[..|data| - 1], bins, inBin) + (if FirstMatch(data[|data| - 1], bins, inBin).Some? then 1 else 0)
  }

  lemma {:induction false} TotalUpdate(c: seq<nat>, i: nat)
    requires i < |c|
    ensures Total(c[i := c[i] + 1]) == Total(c) + 1
  {
    var d := c[i := c[i] + 1];
    if i > 0 {
      assert d[1..] == c[1..][i - 1 := c[i] + 1];
      TotalUpdate(c[1..], i - 1);
    } else {
      assert d[1..] == c[1..];
    }
  }

  lemma {:induction false} TotalZeros(k: nat)
    ensures Total(seq(k, _ => 0)) == 0
  {
    if k > 0 {
      assert seq(k, _ => 0)[1..] == seq(k - 1, _ => 0);
      TotalZeros(k - 1);
    }
  }

  /** The bin counts add up to the number of observations that fall in some bin. */
  lemma {:induction false} TotalIsMatched<B, V>(data: seq<V>, bins: seq<B>, inBin: (B, V) -> bool)
    ensures Total(ClassCounts(data, bins, inBin)) == Matched(data, bins, inBin)
  {
    if data == [] {
      TotalZeros(|bins|);
    } else {
      var prefix := data[..|data| - 1];
      TotalIsMatched(prefix, bins, inBin);
      var m := FirstMatch(data[|data| - 1], bins, inBin);
      if m.Some? {
        TotalUpdate(ClassCounts(prefix, bins, inBin), m.value);
      }
    }
  }

  /** All observations are counted exactly when each falls in some bin. */
  lemma {:induction false} MatchedAll<B, V>(data: seq<V>, bins: seq<B>, inBin: (B, V) -> bool)
    ensures Matched(data, bins, inBin) == |data| <==>
      forall i :: 0 <= i < |data| ==> FirstMatch(data[i], bins, inBin).Some?
  {
    if data != [] {
      var prefix := data[..|data| - 1];
      MatchedAll(prefix, bins, inBin);
      if Matched(data, bins, inBin) == |data| {
        forall i | 0 <= i < |data| ensures FirstMatch(data[i], bins, inBin).Some? {
          if i < |data| - 1 {
            assert data[i] == prefix[i];
          }
        }
      }
      if forall i :: 0 <= i < |data| ==> FirstMatch(data[i], bins, inBin).Some? {
        forall i | 0 <= i < |prefix| ensures FirstMatch(prefix[i], bins, inBin).Some? {
          assert prefix[i] == data[i];
        }
      }
    }
  }

  /** The total is the sample size exactly when every observation lies in some bin. */
  lemma TotalIsSize<B, V>(data: seq<V>, bins: seq<B>, inBin: (B, V) -> bool)
    ensures Total(ClassCounts(data, bins, inBin)) == |data| <==>
      forall i :: 0 <= i < |data| ==> exists j :: 0 <= j < |bins| && inBin(bins[j], data[i])
  {
    TotalIsMatched(data, bins, inBin);
    MatchedAll(data, bins, inBin);
  }

  /** Tallying two observations in either order gives the same counts. */
  lemma AddMatchCommutes<B, V>(c: seq<nat>, x: V, y: V, bins: seq<B>, inBin: (B, V) -> bool)
    requires |c| == |bins|
    ensures AddMatch(AddMatch(c, x, bins, inBin), y, bins, inBin) ==
      AddMatch(AddMatch(c, y, bins, inBin), x, bins, inBin)
  {
  }

  /** Tallying one more observation at the end. */
  lemma ClassCountsSnoc<B, V>(p: seq<V>, y: V, bins: seq<B>, inBin: (B, V) -> bool)
    ensures ClassCounts(p + [y], bins, inBin) == AddMatch(ClassCounts(p, bins, inBin), y, bins, inBin)
  {
    assert (p + [y])[..|p|] == p;
  }

  /** Taking out one observation takes one off its first matching bin. */
  lemma {:induction false} ClassCountsRemove<B, V>(u: seq<V>, x: V, w: seq<V>, bins: seq<B>, inBin: (B, V) -> bool)
    ensures ClassCounts(u + [x] + w, bins, inBin) == AddMatch(ClassCounts(u + w, bins, inBin), x, bins, inBin)
  {
    if w == [] {
      assert u + [x] + w == u + [x];
      assert u + w == u;
      ClassCountsSnoc(u, x, bins, inBin);
    } else {
      var w' := w[..|w| - 1];
      var y := w[|w| - 1];
      ClassCountsRemove(u, x, w', bins, inBin);
      assert u + [x] + w == (u + [x] + w') + [y];
      assert u + w == (u + w') + [y];
      ClassCountsSnoc(u + [x] + w', y, bins, inBin);
      ClassCountsSnoc(u + w', y, bins, inBin);
      AddMatchCommutes(ClassCounts(u + w', bins, inBin), x, y, bins, inBin);
    }
  }

  /** The bin counts do not depend on the order of the observations. */
  lemma {:induction false} ClassCountsPermutation<B, V>(a: seq<V>, b: seq<V>, bins: seq<B>, inBin: (B, V) -> bool)
    requires multiset(a) == multiset(b)
    ensures ClassCounts(a, bins, inBin) == ClassCounts(b, bins, inBin)
  {
    if a == [] {
      assert |b| == |multiset(b)| == 0;
    } else {
      var a', x := a[..|a| - 1], a[|a| - 1];
      assert x in multiset(b);
      var j :| 0 <= j < |b| && b[j] == x;
      var u, w := b[..j], b[j + 1..];
      assert a == a' + [x];
      assert b == u + [x] + w;
      assert multiset(a') == multiset(a) - multiset{x};
      assert multiset(u + w) == multiset(u) + multiset(w) == multiset(b) - multiset{x};
      ClassCountsPermutation(a', u + w, bins, inBin);
      ClassCountsSnoc(a', x, bins, inBin);
      ClassCountsRemove(u, x, w, bins, inBin);
    }
  }
}
