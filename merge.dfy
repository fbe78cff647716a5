/** `merge_data` (scripts/aggregate.py:75-86): the rows of one run's metric files are
    sorted stably by the string value of `gen`, grouped by equal `gen`, and each group is
    folded left to right with `|=`, so a later row overwrites an earlier one on a shared
    key. The result has one row per distinct `gen` string, in ascending string order
    (so "10" comes before "9", as in the script). */
module Merge {
  import opened Common
  import opened Sorting
  import opened Strings
  import opened Header

  /** `row["gen"]`, or "" for a row without it (only used where every row has it). */
  function GenOf(r: Row): string {
    if GEN in r then r[GEN] else ""
  }

  predicate AllHaveGen(rows: seq<Row>) {
    forall i :: 0 <= i < |rows| ==> GEN in rows[i]
  }

  /** The distinct `gen` values of some rows. */
  function GenSet(rows: seq<Row>): set<string> {
    set i | 0 <= i < |rows| :: GenOf(rows[i])
  }

  /** `full_line = {}; for line in g: full_line |= line`. */
  function FoldUnion(rows: seq<Row>): Row {
    if rows == [] then map[] else FoldUnion(rows[..|rows| - 1]) + rows[|rows| - 1]
  }

  /** The rows whose `gen` is `g`, in input order. */
  function RowsWithGen(rows: seq<Row>, g: string): seq<Row> {
    FilterKey(rows, GenOf, g)
  }

  /** The length of the leading run of rows whose `gen` is `g` (one `itertools.groupby` group). */
  function RunLen(s: seq<Row>, g: string): (n: nat)
    ensures n <= |s|
    ensures forall k :: 0 <= k < n ==> GenOf(s[k]) == g
    ensures n < |s| ==> GenOf(s[n]) != g
  {
    if s == [] || GenOf(s[0]) != g then 0 else 1 + RunLen(s[1..], g)
  }

  /** `itertools.groupby` over rows already sorted by `gen`, each group folded with `|=`. */
  function MergeRuns(s: seq<Row>): seq<Row>
    decreases |s|
  {
    if s == [] then []
    else
      var n := RunLen(s, GenOf(s[0]));
      [FoldUnion(s[..n])] + MergeRuns(s[n..])
  }

  /** `data_list.sort(key=lambda x: x["gen"])`. */
  function SortedByGen(rows: seq<Row>): seq<Row> {
    SortBy(rows, GenOf, StrLt)
  }

  /** What `merge_data` returns for rows that all have `gen`. */
  function Merged(rows: seq<Row>): seq<Row> {
    MergeRuns(SortedByGen(rows))
  }

  /** Row `j` of `rows` has `gen` equal to `g` and holds key `k`. */
  predicate HasKeyAt(rows: seq<Row>, g: string, k: string, j: int) {
    0 <= j < |rows| && GenOf(rows[j]) == g && k in rows[j]
  }

  /** Row `j` is the last row of `rows` with `gen` equal to `g` that holds key `k`. */
  predicate LastWithKey(rows: seq<Row>, g: string, k: string, j: int) {
    HasKeyAt(rows, g, k, j) && forall l :: j < l < |rows| ==> !HasKeyAt(rows, g, k, l)
  }

  /** One step of the fold: the last row joins the fold exactly when it has `gen` equal to `g`. */
  lemma FoldUnionStep(rows: seq<Row>, g: string)
    requires rows != []
    ensures var p, last := rows[..|rows| - 1], rows[|rows| - 1];
      FoldUnion(RowsWithGen(rows, g))
        == if GenOf(last) == g then FoldUnion(RowsWithGen(p, g)) + last else FoldUnion(RowsWithGen(p, g))
  {
    var p, last := rows[..|rows| - 1], rows[|rows| - 1];
    var fp := RowsWithGen(p, g);
    assert RowsWithGen(rows, g) == fp + (if GenOf(last) == g then [last] else []);
    if GenOf(last) == g {
      var f := fp + [last];
      assert f[..|f| - 1] == fp && f[|f| - 1] == last;
      assert FoldUnion(f) == FoldUnion(fp) + last;
    } else {
      assert fp + [] == fp;
    }
  }

  /** The fold of the rows with `gen` equal to `g` holds exactly the keys of those rows. */
  lemma {:induction false} FoldUnionKeys(rows: seq<Row>, g: string, k: string)
    ensures k in FoldUnion(RowsWithGen(rows, g)) <==> exists j :: HasKeyAt(rows, g, k, j)
  {
    if rows != [] {
      var p := rows[..|rows| - 1];
      FoldUnionStep(rows, g);
      FoldUnionKeys(p, g, k);
      if j :| HasKeyAt(p, g, k, j) {
        assert HasKeyAt(rows, g, k, j);
      }
      if j :| HasKeyAt(rows, g, k, j) {
        if j < |p| {
          assert HasKeyAt(p, g, k, j);
        }
      }
      var last := rows[|rows| - 1];
      if GenOf(last) == g && k in last {
        assert HasKeyAt(rows, g, k, |rows| - 1);
      }
    }
  }

  /** Right-biased union: a key of the fold holds the value of the last row (in input
      order) with `gen` equal to `g` that has the key. */
  lemma {:induction false} FoldUnionValues(rows: seq<Row>, g: string, k: string, j: int)
    requires LastWithKey(rows, g, k, j)
    ensures k in FoldUnion(RowsWithGen(rows, g))
    ensures FoldUnion(RowsWithGen(rows, g))[k] == rows[j][k]
  {
    var p := rows[..|rows| - 1];
    FoldUnionStep(rows, g);
    FoldUnionKeys(rows, g, k);
    if j < |p| {
      assert !HasKeyAt(rows, g, k, |rows| - 1);
      assert LastWithKey(p, g, k, j) by {
        forall l | j < l < |p| ensures !HasKeyAt(p, g, k, l) {
          assert !HasKeyAt(rows, g, k, l);
        }
      }
      FoldUnionValues(p, g, k, j);
    }
  }

  /** A fold of rows that all carry `gen` equal to `g` carries `gen` equal to `g`. */
  lemma {:induction false} FoldUnionGen(rows: seq<Row>, g: string)
    requires rows != []
    requires forall k :: 0 <= k < |rows| ==> GenOf(rows[k]) == g
    ensures GenOf(FoldUnion(rows)) == g
  {
    if |rows| > 1 {
      FoldUnionGen(rows[..|rows| - 1], g);
    }
  }

  lemma SortedDrop(s: seq<Row>, n: nat, lt: (string, string) -> bool)
    requires n <= |s| && SortedBy(s, GenOf, lt)
    ensures SortedBy(s[n..], GenOf, lt)
  {
    forall i, j | 0 <= i < j < |s[n..]| ensures !lt(GenOf(s[n..][j]), GenOf(s[n..][i])) {
      assert s[n..][j] == s[n + j] && s[n..][i] == s[n + i];
    }
  }

  /** In rows sorted by `gen`, every row after the first group has a greater `gen`. */
  lemma FirstRunBelowRest(s: seq<Row>, lt: (string, string) -> bool)
    requires StrictTotalOrder(lt)
    requires SortedBy(s, GenOf, lt) && s != []
    ensures forall x :: x in GenSet(s[RunLen(s, GenOf(s[0]))..]) ==> lt(GenOf(s[0]), x)
    ensures GenOf(s[0]) !in GenSet(s[RunLen(s, GenOf(s[0]))..])
  {
    var g0 := GenOf(s[0]);
    var n := RunLen(s, g0);
    var t := s[n..];
    forall x | x in GenSet(t) ensures lt(g0, x) {
      var p :| 0 <= p < |t| && GenOf(t[p]) == x;
      assert t[p] == s[n + p];
      assert !lt(GenOf(s[n]), g0);
      if p > 0 {
        assert !lt(GenOf(s[n + p]), GenOf(s[n]));
      }
    }
  }

  /** Splitting rows into a group with `gen` equal to `g0` and a rest without it. */
  lemma GroupAndRest(a: seq<Row>, t: seq<Row>, g0: string)
    requires a != [] && forall p :: 0 <= p < |a| ==> GenOf(a[p]) == g0
    requires g0 !in GenSet(t)
    ensures RowsWithGen(a + t, g0) == a
    ensures forall g :: g != g0 ==> RowsWithGen(a + t, g) == RowsWithGen(t, g)
    ensures GenSet(a + t) == {g0} + GenSet(t)
  {
    var s := a + t;
    FilterKeyConcat(a, t, GenOf, g0);
    AllWithKey(a, GenOf, g0);
    forall p | 0 <= p < |t| ensures GenOf(t[p]) != g0 {
      assert GenOf(t[p]) in GenSet(t);
    }
    NoneWithKey(t, GenOf, g0);
    forall g | g != g0 ensures RowsWithGen(s, g) == RowsWithGen(t, g) {
      FilterKeyConcat(a, t, GenOf, g);
      NoneWithKey(a, GenOf, g);
    }
    forall x | x in GenSet(s) ensures x in {g0} + GenSet(t) {
      var i :| 0 <= i < |s| && GenOf(s[i]) == x;
      if i >= |a| {
        assert t[i - |a|] == s[i];
      }
    }
    assert s[0] == a[0];
    forall x | x in GenSet(t) ensures x in GenSet(s) {
      var i :| 0 <= i < |t| && GenOf(t[i]) == x;
      assert s[|a| + i] == t[i];
    }
  }

  /** The first group of rows whose first `gen` does not come back later: it is every row
      with that `gen`, and it folds to a row with that `gen`. */
  lemma FirstRunGroup(s: seq<Row>)
    requires s != [] && GenOf(s[0]) !in GenSet(s[RunLen(s, GenOf(s[0]))..])
    ensures var g0, n := GenOf(s[0]), RunLen(s, GenOf(s[0]));
      && 0 < n
      && RowsWithGen(s, g0) == s[..n]
      && GenOf(FoldUnion(s[..n])) == g0
      && GenSet(s) == {g0} + GenSet(s[n..])
      && (forall g :: g != g0 ==> RowsWithGen(s, g) == RowsWithGen(s[n..], g))
  {
    var g0 := GenOf(s[0]);
    var n := RunLen(s, g0);
    FoldUnionGen(s[..n], g0);
    assert s == s[..n] + s[n..];
    GroupAndRest(s[..n], s[n..], g0);
  }

  /** The `gen` values of `m` are strictly ascending under `lt`. */
  predicate Ascending(m: seq<Row>, lt: (string, string) -> bool) {
    forall i, j :: 0 <= i < j < |m| ==> lt(GenOf(m[i]), GenOf(m[j]))
  }

  /** Each row of `m` is the fold of the rows of `s` with its `gen`. */
  predicate GroupsOf(m: seq<Row>, s: seq<Row>) {
    forall i :: 0 <= i < |m| ==> m[i] == FoldUnion(RowsWithGen(s, GenOf(m[i])))
  }

  lemma GenSetCons(h: Row, t: seq<Row>)
    ensures GenSet([h] + t) == {GenOf(h)} + GenSet(t)
  {
    var m := [h] + t;
    forall x | x in GenSet(m) ensures x in {GenOf(h)} + GenSet(t) {
      var i :| 0 <= i < |m| && GenOf(m[i]) == x;
      if i > 0 {
        assert m[i] == t[i - 1];
      }
    }
    forall x | x in GenSet(t) ensures x in GenSet(m) {
      var i :| 0 <= i < |t| && GenOf(t[i]) == x;
      assert m[i + 1] == t[i];
    }
    assert m[0] == h;
  }

  lemma AscendingCons(h: Row, t: seq<Row>, lt: (string, string) -> bool)
    requires Ascending(t, lt)
    requires forall x :: x in GenSet(t) ==> lt(GenOf(h), x)
    ensures Ascending([h] + t, lt)
  {
    var m := [h] + t;
    forall i, j | 0 <= i < j < |m| ensures lt(GenOf(m[i]), GenOf(m[j])) {
      assert m[j] == t[j - 1];
      if i == 0 {
        assert GenOf(t[j - 1]) in GenSet(t);
      } else {
        assert m[i] == t[i - 1];
      }
    }
  }

  /** For rows sorted by `gen` under a strict total order `lt`: the groups come out in
      strictly ascending `gen` order, cover exactly the `gen` values of the input, and each
      is the fold of all rows with its `gen`. */
  lemma {:induction false} MergeRunsSpec(s: seq<Row>, lt: (string, string) -> bool)
    requires StrictTotalOrder(lt)
    requires SortedBy(s, GenOf, lt)
    ensures Ascending(MergeRuns(s), lt)
    ensures GenSet(MergeRuns(s)) == GenSet(s)
    ensures GroupsOf(MergeRuns(s), s)
    decreases |s|
  {
    if s != [] {
      var g0 := GenOf(s[0]);
      var n := RunLen(s, g0);
      var t := s[n..];
      var h := FoldUnion(s[..n]);
      var mt := MergeRuns(t);
      var m := [h] + mt;
      assert MergeRuns(s) == m;
      SortedDrop(s, n, lt);
      FirstRunBelowRest(s, lt);
      FirstRunGroup(s);
      MergeRunsSpec(t, lt);
      GenSetCons(h, mt);
      AscendingCons(h, mt, lt);
      forall i | 0 <= i < |m| ensures m[i] == FoldUnion(RowsWithGen(s, GenOf(m[i]))) {
        if i > 0 {
          var g := GenOf(mt[i - 1]);
          assert m[i] == mt[i - 1];
          assert g in GenSet(t);
          assert g != g0;
          assert RowsWithGen(s, g) == RowsWithGen(t, g);
        }
      }
    }
  }

  /** Rows in strictly ascending `gen` order have pairwise distinct `gen` values. */
  lemma {:induction false} AscendingGensDistinct(m: seq<Row>, lt: (string, string) -> bool)
    requires forall x :: !lt(x, x)
    requires Ascending(m, lt)
    ensures |GenSet(m)| == |m|
  {
    if m != [] {
      var t := m[1..];
      assert Ascending(t, lt) by {
        forall i, j | 0 <= i < j < |t| ensures lt(GenOf(t[i]), GenOf(t[j])) {
          assert t[i] == m[i + 1] && t[j] == m[j + 1];
        }
      }
      AscendingGensDistinct(t, lt);
      assert m == [m[0]] + t;
      GenSetCons(m[0], t);
      assert GenOf(m[0]) !in GenSet(t) by {
        forall i | 0 <= i < |t| ensures GenOf(t[i]) != GenOf(m[0]) {
          assert t[i] == m[i + 1];
        }
      }
    }
  }

  /** Sorting by `gen` keeps the set of `gen` values. */
  lemma SortedGenSet(rows: seq<Row>)
    requires StrictTotalOrder(StrLt)
    ensures GenSet(SortedByGen(rows)) == GenSet(rows)
  {
    var s := SortedByGen(rows);
    SortByFacts(rows, GenOf, StrLt);
    forall x | x in GenSet(s) ensures x in GenSet(rows) {
      var i :| 0 <= i < |s| && GenOf(s[i]) == x;
      assert s[i] in multiset(rows);
    }
    forall x | x in GenSet(rows) ensures x in GenSet(s) {
      var i :| 0 <= i < |rows| && GenOf(rows[i]) == x;
      assert rows[i] in multiset(s);
    }
  }

  /** `merge_data` returns exactly one row per distinct `gen` string of its input, in
      ascending string order, every one of them keyed by its `gen`, and each the
      left-to-right `|=` fold of all input rows with that `gen`, in input order. */
  lemma MergedSpec(rows: seq<Row>)
    requires AllHaveGen(rows)
    ensures var m := Merged(rows);
      && |m| == |GenSet(rows)|
      && GenSet(m) == GenSet(rows)
      && (forall i, j :: 0 <= i < j < |m| ==> StrLt(GenOf(m[i]), GenOf(m[j])))
      && (forall i :: 0 <= i < |m| ==> GEN in m[i])
      && (forall i :: 0 <= i < |m| ==> m[i] == FoldUnion(RowsWithGen(rows, GenOf(m[i]))))
  {
    StrLtIsStrictTotalOrder();
    var s := SortedByGen(rows);
    var m := Merged(rows);
    SortByFacts(rows, GenOf, StrLt);
    MergeRunsSpec(s, StrLt);
    AscendingGensDistinct(m, StrLt);
    SortedGenSet(rows);
    forall i | 0 <= i < |m| ensures m[i] == FoldUnion(RowsWithGen(rows, GenOf(m[i]))) && GEN in m[i] {
      var g := GenOf(m[i]);
      SortByStable(rows, GenOf, StrLt, g);
      assert g in GenSet(rows);
      var j :| 0 <= j < |rows| && GenOf(rows[j]) == g;
      assert HasKeyAt(rows, g, GEN, j);
      FoldUnionKeys(rows, g, GEN);
    }
  }

  /** The merged row for a `gen` value holds a key exactly when some input row with that
      `gen` holds it, and then holds the value of the last such input row. */
  lemma MergedRowContents(rows: seq<Row>, i: nat, k: string, j: int)
    requires AllHaveGen(rows)
    requires i < |Merged(rows)|
    ensures var g := GenOf(Merged(rows)[i]);
      && (k in Merged(rows)[i] <==> exists j' :: HasKeyAt(rows, g, k, j'))
      && (LastWithKey(rows, g, k, j) ==> k in Merged(rows)[i] && Merged(rows)[i][k] == rows[j][k])
  {
    MergedSpec(rows);
    var g := GenOf(Merged(rows)[i]);
    FoldUnionKeys(rows, g, k);
    if LastWithKey(rows, g, k, j) {
      FoldUnionValues(rows, g, k, j);
    }
  }

  /** One `groupby` group: folds the rows from `start` while their `gen` equals that of
      the row at `start`, and says where the next group begins. */
  method FoldRun(a: array<Row>, start: nat) returns (fullLine: Row, next: nat)
    requires start < a.Length
    ensures next == start + RunLen(a[..][start..], GenOf(a[start]))
    ensures fullLine == FoldUnion(a[..][start..next])
  {
    var k := GenOf(a[start]);
    ghost var n := RunLen(a[..][start..], k);
    assert a[..][start..] == a[start..];
    fullLine := map[];
    next := start;
    while next < a.Length && GenOf(a[next]) == k
      invariant start <= next <= start + n
      invariant fullLine == FoldUnion(a[start..next])
    {
      assert a[start..next + 1][..next - start] == a[start..next];
      fullLine := fullLine + a[next];
      next := next + 1;
    }
    assert a[..][start..next] == a[start..next];
  }

  /** `MergeRuns` from position `i` is the fold of the group starting there, followed by
      `MergeRuns` from where the next group begins. */
  lemma MergeRunsFrom(s: seq<Row>, i: nat, line: Row, next: nat)
    requires i < |s|
    requires next == i + RunLen(s[i..], GenOf(s[i])) && line == FoldUnion(s[i..next])
    ensures MergeRuns(s[i..]) == [line] + MergeRuns(s[next..])
  {
    var n := next - i;
    assert s[i..][0] == s[i];
    assert s[i..][..n] == s[i..next] && s[i..][n..] == s[next..];
  }

  lemma Reassociate<T>(done: seq<T>, x: T, rest: seq<T>, whole: seq<T>)
    requires whole == [x] + rest
    ensures (done + [x]) + rest == done + whole
  {
  }

  /** The `for k, g in groupby(...)` loop of `merge_data` over rows sorted by `gen`. */
  method GroupRuns(a: array<Row>) returns (data: seq<Row>)
    ensures data == MergeRuns(a[..])
  {
    ghost var s := a[..];
    data := [];
    var i := 0;
    while i < a.Length
      invariant 0 <= i <= |s|
      invariant data + MergeRuns(s[i..]) == MergeRuns(s)
      decreases |s| - i
    {
      var fullLine, next := FoldRun(a, i);
      MergeRunsFrom(s, i, fullLine, next);
      Reassociate(data, fullLine, MergeRuns(s[next..]), MergeRuns(s[i..]));
      data := data + [fullLine];
      i := next;
    }
    assert s[i..] == [] && s[0..] == s;
  }

  /** `merge_data` itself: sorts `dataList` in place by `gen`, then folds each group of
      rows with equal `gen`. A row without `gen` makes the sort raise KeyError before
      anything moves. */
  method MergeData(dataList: array<Row>) returns (r: Result<seq<Row>>)
    modifies dataList
    ensures !AllHaveGen(old(dataList[..])) ==> r == Err(KeyMissing(GEN)) && dataList[..] == old(dataList[..])
    ensures AllHaveGen(old(dataList[..])) ==>
      && r == Ok(Merged(old(dataList[..])))
      && dataList[..] == SortedByGen(old(dataList[..]))
  {
    if exists i :: 0 <= i < dataList.Length && GEN !in dataList[i] {
      return Err(KeyMissing(GEN));
    }
    StrLtIsStrictTotalOrder();
    SortInPlace(dataList, GenOf, StrLt);
    var data := GroupRuns(dataList);
    r := Ok(data);
  }
}
