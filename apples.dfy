/**
 * The apple records that the two qualitative scripts (cmd/qual_analysis and
 * cmd/qual_bivariate) declare locally: an id, a weight, a crunchiness label,
 * a sweetness score, an ordinal ripeness and a quality label.  Columns of a
 * sample are read off with `Project` and the field functions below.
 */
module Apples {
  datatype Record = Record(
    id: int, weight: real, crunchiness: string, sweetness: real, ripeness: int, quality: string)

  function Weight(r: Record): real { r.weight }
  function Sweetness(r: Record): real { r.sweetness }
  function Crunchiness(r: Record): string { r.crunchiness }
  function Ripeness(r: Record): int { r.ripeness }
  function Quality(r: Record): string { r.quality }

  /** The column `f(r)` of each record, in record order. */
  function Project<R, K>(data: seq<R>, f: R -> K): (col: seq<K>)
    ensures |col| == |data|
  {
    seq(|data|, i requires 0 <= i < |data| => f(data[i]))
  }

  /** Reordering the records reorders every column the same way. */
  lemma {:induction false} ProjectPermutation<R, K>(a: seq<R>, b: seq<R>, f: R -> K)
    requires multiset(a) == multiset(b)
    ensures multiset(Project(a, f)) == multiset(Project(b, f))
  {
    if a == [] {
      assert |b| == |multiset(b)| == 0;
    } else {
      var a', x := a[..|a| - 1], a[|a| - 1];
      assert x in multiset(b);
      var j :| 0 <= j < |b| && b[j] == x;
      var u, w := b[..j], b[j + 1..];
      assert a == a' + [x];
      assert b == u + [x] + w;
      assert multiset(a') == multiset(a) - multiset{x};
      assert multiset(u + w) == multiset(u) + multiset(w) == multiset(b) - multiset{x};
      ProjectPermutation(a', u + w, f);
      ProjectAppend(a', [x], f);
      ProjectAppend(u + [x], w, f);
      ProjectAppend(u, [x], f);
      ProjectAppend(u, w, f);
    }
  }

  /** Projecting a concatenation projects each part. */
  lemma ProjectAppend<R, K>(a: seq<R>, b: seq<R>, f: R -> K)
    ensures Project(a + b, f) == Project(a, f) + Project(b, f)
  {
  }

  /** Projecting one more record appends its field. */
  lemma ProjectSnoc<R, K>(a: seq<R>, x: R, f: R -> K)
    ensures Project(a + [x], f) == Project(a, f) + [f(x)]
  {
    ProjectAppend(a, [x], f);
    assert Project([x], f)[0] == f(x);
  }
}
