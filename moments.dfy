/**
 * Moment arithmetic.  The scripts accumulate sums with `s += ...` in a range
 * loop over a slice and divide by the sample size; in exact real arithmetic
 * these are the functions below.  Sums are defined left to right (the last
 * element is added last) so that a loop invariant `s == SumOf(a[..i], f)`
 * matches one iteration of such a loop.
 */
module Moments {
  import opened Order

  /** Σ f(v) over the sample, accumulated left to right. */
  function SumOf(s: seq<real>, f: real -> real): real {
    if s == [] then 0.0 else SumOf(s[..|s| - 1], f) + f(s[|s| - 1])
  }

  function Id(x: real): real { x }

  /** v ↦ v − m */
  function Dev(m: real): real -> real { x => x - m }

  /** v ↦ (v − m)² */
  function SqDev(m: real): real -> real { x => (x - m) * (x - m) }

  function Sum(s: seq<real>): real { SumOf(s, Id) }

  /** Go's integer `sum += v`, left to right. */
  function SumInts(s: seq<int>): int {
    if s == [] then 0 else SumInts(s[..|s| - 1]) + s[|s| - 1]
  }

  /** The arithmetic mean; every script divides by `len` without an empty guard. */
  function Mean(s: seq<real>): real
    requires |s| > 0
  {
    Sum(s) / |s| as real
  }

  /** Σ (v − m)², never negative. */
  function SumSqDev(s: seq<real>, m: real): (r: real)
    ensures r >= 0.0
  {
    if s == [] then 0.0
    else
      SquareNonNegative(s[|s| - 1] - m);
      SumSqDev(s[..|s| - 1], m) + (s[|s| - 1] - m) * (s[|s| - 1] - m)
  }

  /** Σ (v − m)³ */
  function SumCubeDev(s: seq<real>, m: real): real {
    if s == [] then 0.0
    else SumCubeDev(s[..|s| - 1], m) + Cube(s[|s| - 1] - m)
  }

  /** Σ (v − mean)² / n */
  function PopVariance(s: seq<real>): (v: real)
    requires |s| > 0
    ensures v >= 0.0
  {
    SumSqDev(s, Mean(s)) / |s| as real
  }

  /** Σ (v − mean)² / (n − 1) */
  function SampleVariance(s: seq<real>): (v: real)
    requires |s| > 1
    ensures v >= 0.0
  {
    SumSqDev(s, Mean(s)) / (|s| - 1) as real
  }

  /** Σ (x − mx)(y − my) over paired samples. */
  function SumCross(xs: seq<real>, ys: seq<real>, mx: real, my: real): real
    requires |xs| == |ys|
  {
    if xs == [] then 0.0
    else
      SumCross(xs[..|xs| - 1], ys[..|ys| - 1], mx, my)
        + (xs[|xs| - 1] - mx) * (ys[|ys| - 1] - my)
  }

  // ---------------------------------------------------------------------
  // Sums

  lemma SquareNonNegative(d: real)
    ensures d * d >= 0.0
  {
  }

  lemma ProductZero(a: real, b: real)
    requires a * b == 0.0
    ensures a == 0.0 || b == 0.0
  {
  }

  /** Sums split over concatenation. */
  lemma {:induction false} SumOfAppend(a: seq<real>, b: seq<real>, f: real -> real)
    ensures SumOf(a + b, f) == SumOf(a, f) + SumOf(b, f)
  {
    if b == [] {
      assert a + b == a;
    } else {
      SumOfAppend(a, b[..|b| - 1], f);
      assert (a + b)[..|a + b| - 1] == a + b[..|b| - 1];
      assert (a + b)[|a + b| - 1] == b[|b| - 1];
      assert SumOf(a + b, f) == SumOf(a + b[..|b| - 1], f) + f(b[|b| - 1]);
    }
  }

  /** A sum does not depend on the order of the sample. */
  lemma {:induction false} SumOfPermutation(a: seq<real>, b: seq<real>, f: real -> real)
    requires multiset(a) == multiset(b)
    ensures SumOf(a, f) == SumOf(b, f)
  {
    assert |a| == |multiset(a)| == |multiset(b)| == |b|;
    if a != [] {
      var x := a[|a| - 1];
      assert a == a[..|a| - 1] + [x];
      assert x in multiset(b);
      var k :| 0 <= k < |b| && b[k] == x;
      var rest := b[..k] + b[k + 1..];
      assert b == b[..k] + [x] + b[k + 1..];
      assert multiset(a[..|a| - 1]) == multiset(a) - multiset{x};
      assert multiset(rest) == multiset(b) - multiset{x};
      SumOfPermutation(a[..|a| - 1], rest, f);
      SumOfAppend(b[..k] + [x], b[k + 1..], f);
      SumOfAppend(b[..k], [x], f);
      SumOfAppend(b[..k], b[k + 1..], f);
      assert SumOf([x], f) == f(x) by {
        assert [x][..0] == [];
      }
    }
  }

  /** Converting an integer sum to float64 is summing the converted values. */
  lemma {:induction false} SumIntsAsReal(s: seq<int>)
    ensures SumInts(s) as real == Sum(Reals(s))
  {
    if s != [] {
      SumIntsAsReal(s[..|s| - 1]);
      assert Reals(s)[..|s| - 1] == Reals(s[..|s| - 1]);
    }
  }

  /** A sum of values bounded below by `lo` is at least n·lo, and dually. */
  lemma {:induction false} SumBounds(s: seq<real>, lo: real, hi: real)
    requires forall i :: 0 <= i < |s| ==> lo <= s[i] <= hi
    ensures |s| as real * lo <= Sum(s) <= |s| as real * hi
  {
    if s != [] {
      SumBounds(s[..|s| - 1], lo, hi);
    }
  }

  /** Σ (v − m) == Σ v − n·m */
  lemma {:induction false} SumOfDev(s: seq<real>, m: real)
    ensures SumOf(s, Dev(m)) == Sum(s) - |s| as real * m
  {
    if s != [] {
      SumOfDev(s[..|s| - 1], m);
    }
  }

  // ---------------------------------------------------------------------
  // Mean and variance

  /** The mean lies between any lower and upper bound of the sample. */
  lemma MeanBetween(s: seq<real>, lo: real, hi: real)
    requires |s| > 0
    requires forall i :: 0 <= i < |s| ==> lo <= s[i] <= hi
    ensures lo <= Mean(s) <= hi
  {
    SumBounds(s, lo, hi);
    var n := |s| as real;
    assert n * lo <= Sum(s) <= n * hi;
    assert Sum(s) / n >= lo by {
      assert Sum(s) / n * n == Sum(s);
    }
    assert Sum(s) / n <= hi by {
      assert Sum(s) / n * n == Sum(s);
    }
  }

  /** Deviations from the mean cancel. */
  lemma DeviationsCancel(s: seq<real>)
    requires |s| > 0
    ensures SumOf(s, Dev(Mean(s))) == 0.0
  {
    SumOfDev(s, Mean(s));
    var n := |s| as real;
    assert n * (Sum(s) / n) == Sum(s);
  }

  /** A sum of squared deviations vanishes exactly when every value is the centre. */
  lemma {:induction false} SumSqDevZero(s: seq<real>, m: real)
    ensures SumSqDev(s, m) == 0.0 <==> forall i :: 0 <= i < |s| ==> s[i] == m
  {
    if s != [] {
      var p := s[..|s| - 1];
      SumSqDevZero(p, m);
      if SumSqDev(s, m) == 0.0 {
        assert (s[|s| - 1] - m) * (s[|s| - 1] - m) == 0.0;
        ProductZero(s[|s| - 1] - m, s[|s| - 1] - m);
        forall i | 0 <= i < |s| ensures s[i] == m {
          if i < |p| {
            assert s[i] == p[i];
          }
        }
      }
      if forall i :: 0 <= i < |s| ==> s[i] == m {
        assert forall i :: 0 <= i < |p| ==> p[i] == s[i];
      }
    }
  }

  /** The mean of a constant sample is that constant. */
  lemma MeanOfConstant(s: seq<real>, c: real)
    requires |s| > 0
    requires forall i :: 0 <= i < |s| ==> s[i] == c
    ensures Mean(s) == c
  {
    MeanBetween(s, c, c);
  }

  /** The population variance vanishes exactly when all values are equal. */
  lemma PopVarianceZero(s: seq<real>)
    requires |s| > 0
    ensures PopVariance(s) == 0.0 <==> forall i, j :: 0 <= i < |s| && 0 <= j < |s| ==> s[i] == s[j]
  {
    SumSqDevZero(s, Mean(s));
    if forall i, j :: 0 <= i < |s| && 0 <= j < |s| ==> s[i] == s[j] {
      MeanOfConstant(s, s[0]);
    }
  }

  /** The sample variance is the population variance scaled by n/(n − 1). */
  lemma SampleVarianceScaled(s: seq<real>)
    requires |s| > 1
    ensures SampleVariance(s) == PopVariance(s) * (|s| as real) / ((|s| - 1) as real)
    ensures SampleVariance(s) >= PopVariance(s)
  {
    var q, n := SumSqDev(s, Mean(s)), |s| as real;
    assert PopVariance(s) * n == q;
    assert q / (n - 1.0) >= q / n by {
      assert q / (n - 1.0) * (n - 1.0) == q;
      assert q / n * n == q;
      assert q / (n - 1.0) * n >= q;
    }
  }

  /** Reordering the sample changes neither the mean nor any sum of deviations. */
  lemma MeanPermutation(a: seq<real>, b: seq<real>)
    requires |a| > 0
    requires multiset(a) == multiset(b)
    ensures |b| == |a|
    ensures Mean(a) == Mean(b)
  {
    assert |a| == |multiset(a)| == |multiset(b)| == |b|;
    SumOfPermutation(a, b, Id);
  }

  lemma {:induction false} SumSqDevAsSumOf(s: seq<real>, m: real)
    ensures SumSqDev(s, m) == SumOf(s, SqDev(m))
  {
    if s != [] {
      SumSqDevAsSumOf(s[..|s| - 1], m);
    }
  }

  lemma SumSqDevPermutation(a: seq<real>, b: seq<real>, m: real)
    requires multiset(a) == multiset(b)
    ensures SumSqDev(a, m) == SumSqDev(b, m)
  {
    SumSqDevAsSumOf(a, m);
    SumSqDevAsSumOf(b, m);
    SumOfPermutation(a, b, SqDev(m));
  }

  lemma PopVariancePermutation(a: seq<real>, b: seq<real>)
    requires |a| > 0
    requires multiset(a) == multiset(b)
    ensures |b| == |a|
    ensures PopVariance(a) == PopVariance(b)
  {
    MeanPermutation(a, b);
    SumSqDevPermutation(a, b, Mean(a));
  }

  // ---------------------------------------------------------------------
  // Paired samples

  /** The mean of an exact linear image a·x + b is a·mean + b. */
  lemma {:induction false} SumOfLinear(xs: seq<real>, ys: seq<real>, a: real, b: real)
    requires OnLine(xs, ys, a, b)
    ensures Sum(ys) == a * Sum(xs) + |xs| as real * b
  {
    if xs != [] {
      PrefixOnLine(xs, ys, a, b);
      SumOfLinear(xs[..|xs| - 1], ys[..|ys| - 1], a, b);
    }
  }

  /** Points (x, y) lying on the line y = a·x + b. */
  ghost predicate OnLine(xs: seq<real>, ys: seq<real>, a: real, b: real) {
    |xs| == |ys| && forall i :: 0 <= i < |xs| ==> ys[i] == a * xs[i] + b
  }

  lemma PrefixOnLine(xs: seq<real>, ys: seq<real>, a: real, b: real)
    requires OnLine(xs, ys, a, b) && xs != []
    ensures OnLine(xs[..|xs| - 1], ys[..|ys| - 1], a, b)
  {
    var px, py := xs[..|xs| - 1], ys[..|ys| - 1];
    forall i | 0 <= i < |px| ensures py[i] == a * px[i] + b {
      assert px[i] == xs[i] && py[i] == ys[i];
    }
  }

  /** The deviations v − m of a sample, element by element. */
  function Devs(s: seq<real>, m: real): (d: seq<real>)
    ensures |d| == |s|
    ensures forall i :: 0 <= i < |s| ==> d[i] == s[i] - m
  {
    seq(|s|, i requires 0 <= i < |s| => s[i] - m)
  }

  /** Σ u·v over two sequences of the same length, left to right. */
  function SumProd(us: seq<real>, vs: seq<real>): real
    requires |us| == |vs|
  {
    if us == [] then 0.0 else SumProd(us[..|us| - 1], vs[..|vs| - 1]) + us[|us| - 1] * vs[|vs| - 1]
  }

  /** The cross-deviation sum is the sum of products of the two deviation sequences. */
  lemma {:induction false} SumCrossIsSumProd(xs: seq<real>, ys: seq<real>, mx: real, my: real)
    requires |xs| == |ys|
    ensures SumCross(xs, ys, mx, my) == SumProd(Devs(xs, mx), Devs(ys, my))
  {
    if xs != [] {
      SumCrossIsSumProd(xs[..|xs| - 1], ys[..|ys| - 1], mx, my);
      assert Devs(xs, mx)[..|xs| - 1] == Devs(xs[..|xs| - 1], mx);
      assert Devs(ys, my)[..|ys| - 1] == Devs(ys[..|ys| - 1], my);
      CrossTerm(xs[|xs| - 1], ys[|ys| - 1], mx, my, Devs(xs, mx)[|xs| - 1], Devs(ys, my)[|ys| - 1]);
    }
  }

  lemma CrossTerm(x: real, y: real, mx: real, my: real, dx: real, dy: real)
    requires dx == x - mx && dy == y - my
    ensures (x - mx) * (y - my) == dx * dy
  {
  }

  /** The second sequence is the first scaled by a. */
  ghost predicate Scaled(us: seq<real>, vs: seq<real>, a: real) {
    |us| == |vs| && forall i :: 0 <= i < |us| ==> vs[i] == a * us[i]
  }

  lemma ScaledPrefix(us: seq<real>, vs: seq<real>, a: real)
    requires Scaled(us, vs, a) && us != []
    ensures Scaled(us[..|us| - 1], vs[..|vs| - 1], a)
  {
    var pu, pv := us[..|us| - 1], vs[..|vs| - 1];
    forall i | 0 <= i < |pu| ensures pv[i] == a * pu[i] {
      assert pu[i] == us[i] && pv[i] == vs[i];
    }
  }

  lemma ScaledStep(u: real, v: real, a: real, t: real, q: real)
    requires v == a * u && t == u * v && q == u * u
    ensures t == a * q
  {
  }

  lemma Combine(c: real, pc: real, t: real, w: real, pw: real, q: real, a: real)
    requires pc == a * pw && t == a * q
    requires c == pc + t && w == pw + q
    ensures c == a * w
  {
  }

  /** Σ u·(a·u) = a · Σ u·u */
  lemma {:induction false} SumProdScaled(us: seq<real>, vs: seq<real>, a: real)
    requires Scaled(us, vs, a)
    ensures SumProd(us, vs) == a * SumProd(us, us)
  {
    if us != [] {
      var pu, pv := us[..|us| - 1], vs[..|vs| - 1];
      ScaledPrefix(us, vs, a);
      SumProdScaled(pu, pv, a);
      var u, v := us[|us| - 1], vs[|vs| - 1];
      var t, q := u * v, u * u;
      ScaledStep(u, v, a, t, q);
      Combine(SumProd(us, vs), SumProd(pu, pv), t, SumProd(us, us), SumProd(pu, pu), q, a);
    }
  }

  lemma LineDeviation(x: real, y: real, a: real, b: real, mx: real)
    requires y == a * x + b
    ensures y - (a * mx + b) == a * (x - mx)
  {
  }

  /** On the line y = a·x + b, the y deviations from a·mx + b are a times the x deviations from mx. */
  lemma DevsOnLine(xs: seq<real>, ys: seq<real>, a: real, b: real, mx: real)
    requires OnLine(xs, ys, a, b)
    ensures Scaled(Devs(xs, mx), Devs(ys, a * mx + b), a)
  {
    var dx, dy := Devs(xs, mx), Devs(ys, a * mx + b);
    forall i | 0 <= i < |dx| ensures dy[i] == a * dx[i] {
      LineDeviation(xs[i], ys[i], a, b, mx);
    }
  }

  /** For y = a·x + b the cross-deviation sum is a times the x squared deviations. */
  lemma SumCrossOfLinear(xs: seq<real>, ys: seq<real>, a: real, b: real, mx: real)
    requires OnLine(xs, ys, a, b)
    ensures SumCross(xs, ys, mx, a * mx + b) == a * SumSqDev(xs, mx)
  {
    var my := a * mx + b;
    var dx, dy := Devs(xs, mx), Devs(ys, my);
    SumCrossIsSumProd(xs, ys, mx, my);
    DevsOnLine(xs, ys, a, b, mx);
    SumProdScaled(dx, dy, a);
    SumCrossIsSumProd(xs, xs, mx, mx);
    SumCrossSelf(xs, mx);
    Chain(SumCross(xs, ys, mx, my), SumProd(dx, dy), SumProd(dx, dx), SumSqDev(xs, mx), a);
  }

  lemma Chain(c: real, p: real, q: real, w: real, a: real)
    requires c == p && p == a * q && q == w
    ensures c == a * w
  {
  }

  /** Pairing a sample with itself gives its squared deviations. */
  lemma {:induction false} SumCrossSelf(xs: seq<real>, m: real)
    ensures SumCross(xs, xs, m, m) == SumSqDev(xs, m)
  {
    if xs != [] {
      SumCrossSelf(xs[..|xs| - 1], m);
    }
  }

  // ---------------------------------------------------------------------
  // The accumulator loops

  /** One step of Σ (v − m)², with the deviation named as the loops name it. */
  lemma SquareOfDeviation(s: seq<real>, m: real, d: real)
    requires s != [] && d == s[|s| - 1] - m
    ensures SumSqDev(s, m) == SumSqDev(s[..|s| - 1], m) + d * d
  {
  }

  /** One step of Σ (x − mx)(y − my), with both deviations named. */
  lemma CrossOfDeviations(xs: seq<real>, ys: seq<real>, mx: real, my: real, dx: real, dy: real)
    requires |xs| == |ys| > 0
    requires dx == xs[|xs| - 1] - mx && dy == ys[|ys| - 1] - my
    ensures SumCross(xs, ys, mx, my) == SumCross(xs[..|xs| - 1], ys[..|ys| - 1], mx, my) + dx * dy
  {
  }

  /** One step of Σ (v − m)³, with the deviation named. */
  lemma CubeOfDeviation(s: seq<real>, m: real, d: real)
    requires s != [] && d == s[|s| - 1] - m
    ensures SumCubeDev(s, m) == SumCubeDev(s[..|s| - 1], m) + Cube(d)
  {
  }

  /** The `s += v` loop over a float64 slice, then division by its length. */
  method SampleMean(a: seq<real>) returns (mean: real)
    requires |a| > 0
    ensures mean == Mean(a)
  {
    var s := 0.0;
    for i := 0 to |a|
      invariant s == Sum(a[..i])
    {
      assert a[..i + 1][..i] == a[..i];
      s := s + a[i];
    }
    assert a[..|a|] == a;
    mean := s / |a| as real;
  }

  /** The `d := v - m; s += d * d` loop. */
  method SquaredDeviations(a: seq<real>, m: real) returns (s: real)
    ensures s == SumSqDev(a, m)
  {
    s := 0.0;
    for i := 0 to |a|
      invariant s == SumSqDev(a[..i], m)
    {
      var d := a[i] - m;
      SquareOfDeviation(a[..i + 1], m, d);
      assert a[..i + 1][..i] == a[..i];
      s := s + d * d;
    }
    assert a[..|a|] == a;
  }

  /** The `d := v - m; s += d * d * d` loop. */
  method CubedDeviations(a: seq<real>, m: real) returns (s: real)
    ensures s == SumCubeDev(a, m)
  {
    s := 0.0;
    for i := 0 to |a|
      invariant s == SumCubeDev(a[..i], m)
    {
      var d := a[i] - m;
      CubeOfDeviation(a[..i + 1], m, d);
      assert a[..i + 1][..i] == a[..i];
      s := s + d * d * d;
    }
    assert a[..|a|] == a;
  }

  /** sd · sd · sd, positive for a positive deviation. */
  function Cube(x: real): (c: real)
    ensures x > 0.0 ==> c > 0.0
  {
    x * x * x
  }
}
