/** Python's `list.sort(key=...)`: a stable sort by a key under a strict total order.

    The result of a stable sort is unique, so it is specified here by one particular
    stable algorithm, insertion sort (`SortBy`), and every property the pipeline needs
    (ordered, a permutation, stable for equal keys) is proved about that function.
    `SortInPlace` sorts an array in place and is proved to produce `SortBy` of the
    old contents. */
module Sorting {

  /** `lt` is irreflexive, transitive and total on distinct values. */
  ghost predicate StrictTotalOrder<K(!new)>(lt: (K, K) -> bool) {
    && (forall a :: !lt(a, a))
    && (forall a, b, c :: lt(a, b) && lt(b, c) ==> lt(a, c))
    && (forall a, b :: a != b ==> lt(a, b) || lt(b, a))
  }

  /** No element has a key below the key of an element before it. */
  predicate SortedBy<T, K>(s: seq<T>, key: T -> K, lt: (K, K) -> bool) {
    forall i, j :: 0 <= i < j < |s| ==> !lt(key(s[j]), key(s[i]))
  }

  /** The elements of `s` whose key is `k`, in their order in `s`. */
  function FilterKey<T, K(==)>(s: seq<T>, key: T -> K, k: K): (r: seq<T>)
    ensures |r| <= |s|
  {
    if s == [] then []
    else FilterKey(s[..|s| - 1], key, k) + (if key(s[|s| - 1]) == k then [s[|s| - 1]] else [])
  }

  /** Inserts `x` in front of the first element whose key is greater than its own. */
  function Insert<T, K>(x: T, s: seq<T>, key: T -> K, lt: (K, K) -> bool): seq<T> {
    if s == [] then [x]
    else if lt(key(x), key(s[0])) then [x] + s
    else [s[0]] + Insert(x, s[1..], key, lt)
  }

  /** Stable sort: the elements are inserted one by one, left to right. */
  function SortBy<T, K>(s: seq<T>, key: T -> K, lt: (K, K) -> bool): seq<T> {
    if s == [] then []
    else Insert(s[|s| - 1], SortBy(s[..|s| - 1], key, lt), key, lt)
  }

  lemma {:induction false} FilterKeyConcat<T, K>(a: seq<T>, b: seq<T>, key: T -> K, k: K)
    ensures FilterKey(a + b, key, k) == FilterKey(a, key, k) + FilterKey(b, key, k)
    decreases |b|
  {
    if b == [] {
      assert a + b == a;
    } else {
      var b' := b[..|b| - 1];
      assert (a + b)[..|a + b| - 1] == a + b';
      FilterKeyConcat(a, b', key, k);
    }
  }

  lemma {:induction false} InsertPermutes<T, K>(x: T, s: seq<T>, key: T -> K, lt: (K, K) -> bool)
    ensures multiset(Insert(x, s, key, lt)) == multiset(s) + multiset{x}
  {
    if s != [] && !lt(key(x), key(s[0])) {
      InsertPermutes(x, s[1..], key, lt);
      assert s == [s[0]] + s[1..];
    }
  }

  lemma {:induction false} InsertSorted<T, K(!new)>(x: T, s: seq<T>, key: T -> K, lt: (K, K) -> bool)
    requires StrictTotalOrder(lt)
    requires SortedBy(s, key, lt)
    ensures SortedBy(Insert(x, s, key, lt), key, lt)
  {
    if s == [] {
    } else if lt(key(x), key(s[0])) {
      var r := [x] + s;
      forall i, j | 0 <= i < j < |r| ensures !lt(key(r[j]), key(r[i])) {
        if i == 0 && j > 1 {
          assert !lt(key(s[j - 1]), key(s[0]));
        }
      }
    } else {
      InsertSorted(x, s[1..], key, lt);
      var t := Insert(x, s[1..], key, lt);
      InsertPermutes(x, s[1..], key, lt);
      var r := [s[0]] + t;
      forall i, j | 0 <= i < j < |r| ensures !lt(key(r[j]), key(r[i])) {
        if i == 0 {
          assert r[j] in multiset(t);
          assert r[j] in multiset(s[1..]) || r[j] == x;
          if r[j] != x {
            var m :| 0 <= m < |s[1..]| && s[1..][m] == r[j];
            assert s[m + 1] == r[j];
          }
        }
      }
    }
  }

  lemma {:induction false} InsertFilters<T, K(!new)>(x: T, s: seq<T>, key: T -> K, lt: (K, K) -> bool, k: K)
    requires StrictTotalOrder(lt)
    requires SortedBy(s, key, lt)
    ensures FilterKey(Insert(x, s, key, lt), key, k)
         == FilterKey(s, key, k) + (if key(x) == k then [x] else [])
  {
    if s == [] {
      assert FilterKey([x], key, k) == FilterKey([], key, k) + (if key(x) == k then [x] else []);
    } else if lt(key(x), key(s[0])) {
      InsertFiltersFront(x, s, key, lt, k);
    } else {
      SortedTail(s, key, lt);
      InsertFilters(x, s[1..], key, lt, k);
      FilterKeyConcat([s[0]], Insert(x, s[1..], key, lt), key, k);
      FilterKeyConcat([s[0]], s[1..], key, k);
      assert [s[0]] + s[1..] == s;
    }
  }

  /** `x` goes in front of a sorted `s` whose first key is above its own. */
  lemma InsertFiltersFront<T, K(!new)>(x: T, s: seq<T>, key: T -> K, lt: (K, K) -> bool, k: K)
    requires StrictTotalOrder(lt)
    requires SortedBy(s, key, lt)
    requires s != [] && lt(key(x), key(s[0]))
    ensures FilterKey([x] + s, key, k) == FilterKey(s, key, k) + (if key(x) == k then [x] else [])
  {
    FilterKeyConcat([x], s, key, k);
    assert FilterKey([x], key, k) == FilterKey([], key, k) + (if key(x) == k then [x] else []);
    if key(x) == k {
      // every element of s has a key above key(x), so none has key k
      forall j | 0 <= j < |s| ensures key(s[j]) != k {
        if j > 0 {
          assert !lt(key(s[j]), key(s[0]));
        }
      }
      NoneWithKey(s, key, k);
    }
  }

  lemma {:induction false} NoneWithKey<T, K>(s: seq<T>, key: T -> K, k: K)
    requires forall j :: 0 <= j < |s| ==> key(s[j]) != k
    ensures FilterKey(s, key, k) == []
  {
    if s != [] {
      NoneWithKey(s[..|s| - 1], key, k);
    }
  }

  lemma {:induction false} AllWithKey<T, K>(s: seq<T>, key: T -> K, k: K)
    requires forall j :: 0 <= j < |s| ==> key(s[j]) == k
    ensures FilterKey(s, key, k) == s
  {
    if s != [] {
      AllWithKey(s[..|s| - 1], key, k);
    }
  }

  /** Where the inner loop of an insertion sort stops is where `Insert` puts `x`. */
  lemma {:induction false} InsertAt<T, K(!new)>(x: T, s: seq<T>, j: nat, key: T -> K, lt: (K, K) -> bool)
    requires StrictTotalOrder(lt)
    requires SortedBy(s, key, lt)
    requires j <= |s|
    requires j == 0 || !lt(key(x), key(s[j - 1]))
    requires forall m :: j <= m < |s| ==> lt(key(x), key(s[m]))
    ensures Insert(x, s, key, lt) == s[..j] + [x] + s[j..]
  {
    if j == 0 {
      assert s[..0] + [x] + s[0..] == [x] + s;
    } else {
      if j > 1 {
        assert !lt(key(s[j - 1]), key(s[0]));
      }
      assert !lt(key(x), key(s[0]));
      InsertAt(x, s[1..], j - 1, key, lt);
      assert s[..j] + [x] + s[j..] == [s[0]] + (s[1..][..j - 1] + [x] + s[1..][j - 1..]);
    }
  }

  lemma {:induction false} SortByFacts<T, K(!new)>(s: seq<T>, key: T -> K, lt: (K, K) -> bool)
    requires StrictTotalOrder(lt)
    ensures SortedBy(SortBy(s, key, lt), key, lt)
    ensures multiset(SortBy(s, key, lt)) == multiset(s)
    ensures |SortBy(s, key, lt)| == |s|
  {
    if s != [] {
      var p := s[..|s| - 1];
      SortByFacts(p, key, lt);
      InsertSorted(s[|s| - 1], SortBy(p, key, lt), key, lt);
      InsertPermutes(s[|s| - 1], SortBy(p, key, lt), key, lt);
      assert s == p + [s[|s| - 1]];
    }
  }

  /** Stability: sorting keeps, for every key, the relative order of the elements with that key. */
  lemma {:induction false} SortByStable<T, K(!new)>(s: seq<T>, key: T -> K, lt: (K, K) -> bool, k: K)
    requires StrictTotalOrder(lt)
    ensures FilterKey(SortBy(s, key, lt), key, k) == FilterKey(s, key, k)
  {
    if s != [] {
      var p := s[..|s| - 1];
      SortByStable(p, key, lt, k);
      SortByFacts(p, key, lt);
      InsertFilters(s[|s| - 1], SortBy(p, key, lt), key, lt, k);
    }
  }

  /** Two sequences ordered by the same strict total order with the same elements are equal. */
  lemma {:induction false} SortedUnique<T(!new)>(s: seq<T>, t: seq<T>, lt: (T, T) -> bool)
    requires StrictTotalOrder(lt)
    requires SortedBy(s, Id, lt) && SortedBy(t, Id, lt)
    requires multiset(s) == multiset(t)
    ensures s == t
    decreases |s|
  {
    assert |s| == |multiset(s)| == |multiset(t)| == |t|;
    if s != [] {
      SortedHeadsEqual(s, t, lt);
      assert s == [s[0]] + s[1..] && t == [t[0]] + t[1..];
      assert multiset(s[1..]) == multiset(s) - multiset{s[0]};
      assert multiset(t[1..]) == multiset(t) - multiset{t[0]};
      SortedTail(s, Id, lt);
      SortedTail(t, Id, lt);
      SortedUnique(s[1..], t[1..], lt);
    }
  }

  lemma SortedTail<T, K>(s: seq<T>, key: T -> K, lt: (K, K) -> bool)
    requires s != [] && SortedBy(s, key, lt)
    ensures SortedBy(s[1..], key, lt)
  {
    forall i, j | 0 <= i < j < |s[1..]| ensures !lt(key(s[1..][j]), key(s[1..][i])) {
      assert s[1..][j] == s[j + 1] && s[1..][i] == s[i + 1];
    }
  }

  lemma SortedHeadsEqual<T(!new)>(s: seq<T>, t: seq<T>, lt: (T, T) -> bool)
    requires StrictTotalOrder(lt)
    requires SortedBy(s, Id, lt) && SortedBy(t, Id, lt)
    requires multiset(s) == multiset(t) && s != [] && t != []
    ensures s[0] == t[0]
  {
    assert s[0] in multiset(t);
    assert t[0] in multiset(s);
    var i :| 0 <= i < |t| && t[i] == s[0];
    var j :| 0 <= j < |s| && s[j] == t[0];
    assert !lt(Id(t[i]), Id(t[0]));
    assert !lt(Id(s[j]), Id(s[0]));
  }

  /** The identity key, for sorting values by themselves. */
  function Id<T>(x: T): T { x }

  /** The order of `int`, as Python's `<`. */
  predicate IntLt(a: int, b: int) { a < b }

  lemma IntLtIsStrictTotalOrder()
    ensures StrictTotalOrder(IntLt)
  {
  }

  /** Sorts `a` in place, stably, by `key`. */
  method SortInPlace<T, K(!new)>(a: array<T>, key: T -> K, lt: (K, K) -> bool)
    requires StrictTotalOrder(lt)
    modifies a
    ensures a[..] == SortBy(old(a[..]), key, lt)
  {
    ghost var s := a[..];
    var i := 0;
    while i < a.Length
      invariant 0 <= i <= a.Length
      invariant a[..i] == SortBy(s[..i], key, lt)
      invariant forall m :: i <= m < a.Length ==> a[m] == s[m]
    {
      SortByFacts(s[..i], key, lt);
      InsertNext(a, i, key, lt);
      assert s[..i + 1] == s[..i] + [s[i]];
      forall m | i + 1 <= m < a.Length ensures a[m] == s[m] {
        assert a[m] == a[i + 1..][m - i - 1];
      }
      i := i + 1;
    }
    assert a[..] == a[..i] && s[..i] == s;
  }

  /** One step of the insertion sort: moves `a[i]` into place within the sorted prefix `a[..i]`. */
  method InsertNext<T, K(!new)>(a: array<T>, i: nat, key: T -> K, lt: (K, K) -> bool)
    requires StrictTotalOrder(lt)
    requires i < a.Length
    requires SortedBy(a[..i], key, lt)
    modifies a
    ensures a[..i + 1] == Insert(old(a[i]), old(a[..i]), key, lt)
    ensures a[i + 1..] == old(a[i + 1..])
  {
    ghost var sorted := a[..i];
    var x := a[i];
    var j := i;
    while j > 0 && lt(key(x), key(a[j - 1]))
      invariant 0 <= j <= i
      invariant forall m :: 0 <= m < j ==> a[m] == sorted[m]
      invariant forall m :: j < m <= i ==> a[m] == sorted[m - 1]
      invariant forall m :: i < m < a.Length ==> a[m] == old(a[m])
      invariant forall m :: j <= m < i ==> lt(key(x), key(sorted[m]))
    {
      a[j] := a[j - 1];
      j := j - 1;
    }
    a[j] := x;
    InsertAt(x, sorted, j, key, lt);
    assert a[..i + 1] == sorted[..j] + [x] + sorted[j..] by {
      forall m | 0 <= m <= i ensures a[..i + 1][m] == (sorted[..j] + [x] + sorted[j..])[m] {
        if m > j {
          assert a[m] == sorted[m - 1];
        }
      }
    }
  }
}
