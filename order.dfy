/**
 * Ordering of samples.  Go sorts integer samples with `sort.Ints` and
 * floating-point samples with `sort.Float64s`; both are modelled here by one
 * insertion sort, generic in the element type and ordering by a real-valued
 * key (the value itself, as a real).  Only what the scripts rely on is
 * promised: the result is an ascending permutation of the input, and such a
 * permutation is unique.
 */
module Order {

  /** The key by which `sort.Ints` orders a Go int. */
  function IntKey(x: int): real { x as real }

  /** The key by which `sort.Float64s` orders a float64 (modelled as a real). */
  function RealKey(x: real): real { x }

  /** Distinct elements have distinct keys. */
  ghost predicate Injective<T(!new)>(key: T -> real) {
    forall x, y :: key(x) == key(y) ==> x == y
  }

  lemma IntKeyInjective()
    ensures Injective(IntKey)
  {
  }

  lemma RealKeyInjective()
    ensures Injective(RealKey)
  {
  }

  /** Non-decreasing by key. */
  predicate Ascending<T>(s: seq<T>, key: T -> real) {
    forall i, j :: 0 <= i < j < |s| ==> key(s[i]) <= key(s[j])
  }

  /** Strictly increasing by key (hence without repeated elements). */
  predicate StrictlyAscending<T>(s: seq<T>, key: T -> real) {
    forall i, j :: 0 <= i < j < |s| ==> key(s[i]) < key(s[j])
  }

  /** A non-decreasing sequence of real samples. */
  predicate Sorted(s: seq<real>) {
    forall i, j :: 0 <= i < j < |s| ==> s[i] <= s[j]
  }

  lemma AscendingRealIsSorted(s: seq<real>)
    requires Ascending(s, RealKey)
    ensures Sorted(s)
  {
  }

  /** An int sample ascending by `IntKey` is non-decreasing. */
  lemma AscendingInts(s: seq<int>)
    requires Ascending(s, IntKey)
    ensures forall i, j :: 0 <= i < j < |s| ==> s[i] <= s[j]
  {
    forall i, j | 0 <= i < j < |s| ensures s[i] <= s[j] {
      assert IntKey(s[i]) <= IntKey(s[j]);
    }
  }

  /** Places `x` in front of the first element whose key is not smaller. */
  function Insert<T>(x: T, s: seq<T>, key: T -> real): (r: seq<T>)
    requires Ascending(s, key)
    ensures Ascending(r, key)
    ensures multiset(r) == multiset(s) + multiset{x}
    ensures forall y :: y in r ==> y == x || y in s
  {
    if s == [] then [x]
    else if key(x) <= key(s[0]) then [x] + s
    else
      var t := Insert(x, s[1..], key);
      assert s == [s[0]] + s[1..];
      HeadBelowInsert(x, s, key, t);
      assert multiset([s[0]] + t) == multiset{s[0]} + multiset(t);
      [s[0]] + t
  }

  /** Inserting past the head keeps the head below every element. */
  lemma HeadBelowInsert<T>(x: T, s: seq<T>, key: T -> real, t: seq<T>)
    requires Ascending(s, key) && s != [] && key(s[0]) < key(x)
    requires forall y :: y in t ==> y == x || y in s[1..]
    ensures forall j :: 0 <= j < |t| ==> key(s[0]) <= key(t[j])
  {
    forall j | 0 <= j < |t| ensures key(s[0]) <= key(t[j]) {
      assert t[j] in t;
      if t[j] != x {
        var k :| 0 <= k < |s[1..]| && s[1..][k] == t[j];
        assert s[k + 1] == t[j];
      }
    }
  }

  /** The model of `sort.Ints` / `sort.Float64s`: an ascending permutation. */
  function Sort<T>(s: seq<T>, key: T -> real): (r: seq<T>)
    ensures Ascending(r, key)
    ensures multiset(r) == multiset(s)
    ensures |r| == |s|
  {
    if s == [] then []
    else
      assert s == [s[0]] + s[1..];
      Insert(s[0], Sort(s[1..], key), key)
  }

  /** The head of an ascending sequence has the least key. */
  lemma HeadIsLeast<T>(s: seq<T>, key: T -> real, x: T)
    requires Ascending(s, key)
    requires x in s
    ensures key(s[0]) <= key(x)
  {
    var j :| 0 <= j < |s| && s[j] == x;
  }

  /** An ascending permutation of a multiset is unique. */
  lemma {:induction false} AscendingPermutationUnique<T(!new)>(a: seq<T>, b: seq<T>, key: T -> real)
    requires Injective(key)
    requires Ascending(a, key) && Ascending(b, key)
    requires multiset(a) == multiset(b)
    ensures a == b
  {
    assert |a| == |multiset(a)| == |multiset(b)| == |b|;
    if a != [] {
      assert a[0] in multiset(b) && b[0] in multiset(a);
      HeadIsLeast(b, key, a[0]);
      HeadIsLeast(a, key, b[0]);
      assert a[0] == b[0];
      assert a == [a[0]] + a[1..];
      assert b == [b[0]] + b[1..];
      assert multiset(a[1..]) == multiset(a) - multiset{a[0]};
      assert multiset(b[1..]) == multiset(b) - multiset{b[0]};
      AscendingPermutationUnique(a[1..], b[1..], key);
    }
  }

  /** Sorting an already ascending sequence changes nothing. */
  lemma SortOfAscending<T(!new)>(s: seq<T>, key: T -> real)
    requires Injective(key)
    requires Ascending(s, key)
    ensures Sort(s, key) == s
  {
    AscendingPermutationUnique(Sort(s, key), s, key);
  }

  /** Sorting forgets the original order: permutations sort alike. */
  lemma SortPermutationInvariant<T(!new)>(a: seq<T>, b: seq<T>, key: T -> real)
    requires Injective(key)
    requires multiset(a) == multiset(b)
    ensures Sort(a, key) == Sort(b, key)
  {
    AscendingPermutationUnique(Sort(a, key), Sort(b, key), key);
  }

  /** An ascending sequence without repeated elements is strictly ascending. */
  lemma AscendingDistinctIsStrict<T(!new)>(s: seq<T>, key: T -> real)
    requires Injective(key)
    requires Ascending(s, key)
    requires forall i, j :: 0 <= i < j < |s| ==> s[i] != s[j]
    ensures StrictlyAscending(s, key)
  {
  }

  /** Two strictly ascending sequences with the same elements are equal. */
  lemma {:induction false} StrictlyAscendingUnique<T>(a: seq<T>, b: seq<T>, key: T -> real)
    requires StrictlyAscending(a, key) && StrictlyAscending(b, key)
    requires forall x :: x in a <==> x in b
    ensures a == b
  {
    if a == [] {
      assert forall i :: 0 <= i < |b| ==> b[i] in a;
    } else {
      assert a[0] in b;
      SameHeads(a, b, key);
      SameTails(a, b, key);
      StrictlyAscendingUnique(a[1..], b[1..], key);
      assert a == [a[0]] + a[1..];
      assert b == [b[0]] + b[1..];
    }
  }

  /** Strictly ascending sequences with the same elements start alike. */
  lemma SameHeads<T>(a: seq<T>, b: seq<T>, key: T -> real)
    requires StrictlyAscending(a, key) && StrictlyAscending(b, key)
    requires forall x :: x in a <==> x in b
    requires a != [] && b != []
    ensures a[0] == b[0]
  {
    assert a[0] in b && b[0] in a;
    var j :| 0 <= j < |b| && b[j] == a[0];
    var i :| 0 <= i < |a| && a[i] == b[0];
    assert key(a[0]) <= key(b[0]) <= key(a[0]);
  }

  /** ... and so, after the common head, they keep the same elements. */
  lemma SameTails<T>(a: seq<T>, b: seq<T>, key: T -> real)
    requires StrictlyAscending(a, key) && StrictlyAscending(b, key)
    requires forall x :: x in a <==> x in b
    requires a != [] && b != [] && a[0] == b[0]
    ensures StrictlyAscending(a[1..], key) && StrictlyAscending(b[1..], key)
    ensures forall x :: x in a[1..] <==> x in b[1..]
  {
    forall x | x in a[1..] ensures x in b[1..] {
      TailMember(a, b, key, x);
    }
    forall x | x in b[1..] ensures x in a[1..] {
      TailMember(b, a, key, x);
    }
  }

  lemma TailMember<T>(a: seq<T>, b: seq<T>, key: T -> real, x: T)
    requires StrictlyAscending(a, key) && StrictlyAscending(b, key)
    requires forall x :: x in a <==> x in b
    requires a != [] && b != [] && a[0] == b[0]
    requires x in a[1..]
    ensures x in b[1..]
  {
    var k :| 1 <= k < |a| && a[k] == x;
    assert key(a[0]) < key(x);
    assert x in b;
    var m :| 0 <= m < |b| && b[m] == x;
    assert m != 0;
    assert b[1..][m - 1] == x;
  }

  /** Removing one position removes one occurrence. */
  lemma RemoveAt<T>(s: seq<T>, j: int)
    requires 0 <= j < |s|
    ensures multiset(s) == multiset(s[..j] + s[j + 1..]) + multiset{s[j]}
  {
    assert s == s[..j] + [s[j]] + s[j + 1..];
  }

  /** Keeps the first of each run of equal adjacent elements. */
  ghost function Dedup<T(!new)>(s: seq<T>): (r: seq<T>)
    ensures forall x :: x in r <==> x in s
    ensures |r| <= |s|
    ensures |s| > 0 ==> |r| > 0 && r[0] == s[0]
  {
    if |s| <= 1 then s
    else if s[0] == s[1] then Dedup(s[1..])
    else
      assert s == [s[0]] + s[1..];
      [s[0]] + Dedup(s[1..])
  }

  lemma {:induction false} DedupOfAscending<T(!new)>(s: seq<T>, key: T -> real)
    requires Injective(key)
    requires Ascending(s, key)
    ensures StrictlyAscending(Dedup(s), key)
  {
    if |s| > 1 {
      DedupOfAscending(s[1..], key);
      var d := Dedup(s[1..]);
      if s[0] != s[1] {
        assert key(s[0]) < key(s[1]);
        forall j | 0 <= j < |d| ensures key(s[0]) < key(d[j]) {
          assert d[j] in s[1..];
          var k :| 0 <= k < |s[1..]| && s[1..][k] == d[j];
          assert key(s[1]) <= key(s[k + 1]);
        }
      }
    }
  }

  /**
   * The distinct values of a sample in ascending order: the reference for the
   * scripts' "collect the map keys, then sort them" idiom.
   */
  ghost function DistinctAscending<T(!new)>(s: seq<T>, key: T -> real): (r: seq<T>)
    requires Injective(key)
    ensures StrictlyAscending(r, key)
    ensures forall x :: x in r <==> x in s
  {
    var sorted := Sort(s, key);
    DedupOfAscending(sorted, key);
    assert forall x :: x in sorted <==> x in multiset(s);
    Dedup(sorted)
  }

  /** Go's `float64(x)` applied element-wise to an int sample. */
  function Reals(s: seq<int>): (r: seq<real>)
    ensures |r| == |s|
    ensures forall i :: 0 <= i < |s| ==> r[i] == s[i] as real
  {
    seq(|s|, i requires 0 <= i < |s| => s[i] as real)
  }

  /** Converting commutes with inserting. */
  lemma {:induction false} RealsOfInsert(x: int, t: seq<int>)
    requires Ascending(t, IntKey)
    ensures Ascending(Reals(t), RealKey)
    ensures Reals(Insert(x, t, IntKey)) == Insert(x as real, Reals(t), RealKey)
  {
    if t != [] && x > t[0] {
      assert Reals(t)[1..] == Reals(t[1..]);
      RealsOfInsert(x, t[1..]);
      assert Reals([t[0]] + Insert(x, t[1..], IntKey)) == [t[0] as real] + Reals(Insert(x, t[1..], IntKey));
    } else if t != [] {
      assert Reals([x] + t) == [x as real] + Reals(t);
    }
  }

  /** Converting after `sort.Ints` is sorting the converted sample. */
  lemma {:induction false} RealsOfSort(s: seq<int>)
    ensures Reals(Sort(s, IntKey)) == Sort(Reals(s), RealKey)
  {
    if s != [] {
      assert Reals(s)[1..] == Reals(s[1..]);
      RealsOfSort(s[1..]);
      RealsOfInsert(s[0], Sort(s[1..], IntKey));
    }
  }

  /**
   * `sort.Ints` as the scripts use it: the sample in non-decreasing order,
   * a permutation of the input.
   */
  method SortInts(data: seq<int>) returns (sorted: seq<int>)
    ensures multiset(sorted) == multiset(data) && |sorted| == |data|
    ensures forall i, j :: 0 <= i < j < |sorted| ==> sorted[i] <= sorted[j]
  {
    sorted := Sort(data, IntKey);
    AscendingInts(sorted);
  }

  /** `sort.Float64s`: the sorted copy of the sample. */
  method SortReals(data: seq<real>) returns (sorted: seq<real>)
    ensures sorted == Sort(data, RealKey)
    ensures multiset(sorted) == multiset(data) && |sorted| == |data|
    ensures Sorted(sorted)
  {
    sorted := Sort(data, RealKey);
    AscendingRealIsSorted(sorted);
  }
}
