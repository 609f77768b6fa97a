/** The linked list of the CoreMark list benchmark (coremark/core_list_join.c): in-place
    bottom-up mergesort, reversal, and the remove / undo-remove pair.

    A list is described by the sequence of its nodes. A comparison may write to the data that it compares and to the results
    of the benchmark. `Merge`, `Pass` and `Sort` say on sequences, data and results what the loops of the sort do, with any
    comparison; the lemmas show that this sorts stably if the comparison goes by an order that its own writes respect. */
module CoreListSort {
  import opened Basics

  /** The bits of a 16-bit integer, as a number without sign. */
  type Word = x: int | 0 <= x < 0x1_0000

  datatype ListData = ListData(data16: Word, idx: int)

  class ListHead {
    var next: ListHead?
    var info: ListData

    constructor (info: ListData)
      ensures next == null && this.info == info
    {
      this.next := null;
      this.info := info;
    }
  }

  /** What a comparison passed by pointer gives back and writes: `verdict <= 0` means that the left node may stay in front, then
      the data of both nodes, and the results of the benchmark. */
  datatype Compared<S> = Compared(verdict: int, left: ListData, right: ListData, res: S)
  type Comparison<!S> = (ListData, ListData, S) -> Compared<S>

  // ----- comparisons that go by an order -----

  /** An order on data, and the data whose place in it no comparison changes any more. */
  datatype Order = Order(le: (ListData, ListData) -> bool, settled: ListData -> bool)

  ghost predicate TotalPreorder(o: Order) {
    && (forall a, b :: o.le(a, b) || o.le(b, a))
    && (forall a, b, c :: o.le(a, b) && o.le(b, c) ==> o.le(a, c))
  }

  lemma Reflexive(o: Order, a: ListData)
    requires TotalPreorder(o)
    ensures o.le(a, a)
  {
    var r := o.le(a, a) || o.le(a, a);
  }

  /** Data that is settled stays settled, and where it is. */
  ghost predicate Stays(o: Order, a: ListData, b: ListData) {
    o.settled(a) ==> o.settled(b) && o.le(a, b) && o.le(b, a)
  }

  /** The verdict is right for the data left behind, which is settled. */
  ghost predicate Settles<S>(o: Order, a: ListData, b: ListData, c: Compared<S>) {
    && (c.verdict <= 0 <==> o.le(c.left, c.right))
    && o.settled(c.left) && o.settled(c.right) && Stays(o, a, c.left) && Stays(o, b, c.right)
  }

  ghost predicate Obeys<S(!new)>(cmp: Comparison<S>, o: Order) {
    TotalPreorder(o) && forall a, b, r :: Settles(o, a, b, cmp(a, b, r))
  }

  /** A comparison that writes nothing goes by the preorder that it computes. */
  lemma PureObeys<S(!new)>(f: (ListData, ListData) -> int, o: Order)
    requires TotalPreorder(o) && (forall a, b :: o.le(a, b) <==> f(a, b) <= 0) && (forall a :: o.settled(a))
    ensures Obeys((a: ListData, b: ListData, r: S) => Compared(f(a, b), a, b, r), o)
  {
    forall a ensures o.le(a, a) { Reflexive(o, a); }
  }

  // ----- what a comparison writes -----

  /** The data of the nodes and the results of the benchmark. */
  datatype Store<S> = Store(info: map<ListHead, ListData>, res: S)

  /** The nodes in their order, and what the comparisons have written. */
  datatype Sorting<S> = Sorting(nodes: seq<ListHead>, store: Store<S>)

  ghost predicate Known<S>(st: Store<S>, s: seq<ListHead>) {
    forall k :: 0 <= k < |s| ==> s[k] in st.info
  }

  ghost function Compare<S>(cmp: Comparison<S>, st: Store<S>, x: ListHead, y: ListHead): (r: Store<S>)
    requires x in st.info && y in st.info
    ensures r.info.Keys == st.info.Keys
  {
    var c := cmp(st.info[x], st.info[y], st.res);
    Store(st.info[x := c.left][y := c.right], c.res)
  }

  ghost predicate MayStay<S>(cmp: Comparison<S>, st: Store<S>, x: ListHead, y: ListHead)
    requires x in st.info && y in st.info
  {
    cmp(st.info[x], st.info[y], st.res).verdict <= 0
  }

  /** Whatever was settled has stayed so, and where it was. */
  ghost predicate Grown<S>(o: Order, st: Store<S>, r: Store<S>) {
    r.info.Keys == st.info.Keys && forall x :: x in st.info ==> Stays(o, st.info[x], r.info[x])
  }

  lemma GrownTransitive<S>(o: Order, a: Store<S>, b: Store<S>, c: Store<S>)
    requires TotalPreorder(o) && Grown(o, a, b) && Grown(o, b, c)
    ensures Grown(o, a, c)
  {
    forall x | x in a.info ensures Stays(o, a.info[x], c.info[x]) {
      assert Stays(o, a.info[x], b.info[x]) && Stays(o, b.info[x], c.info[x]);
    }
  }

  /** A comparison settles its two nodes in the order that it reports. */
  lemma CompareSettles<S(!new)>(cmp: Comparison<S>, o: Order, st: Store<S>, x: ListHead, y: ListHead)
    requires Obeys(cmp, o) && x in st.info && y in st.info
    ensures var r := Compare(cmp, st, x, y);
      && Grown(o, st, r) && o.settled(r.info[x]) && o.settled(r.info[y])
      && (x != y ==> (MayStay(cmp, st, x, y) <==> o.le(r.info[x], r.info[y])))
  {
    assert Settles(o, st.info[x], st.info[y], cmp(st.info[x], st.info[y], st.res));
    var r := Compare(cmp, st, x, y);
    forall z | z in st.info ensures Stays(o, st.info[z], r.info[z]) {
      Reflexive(o, st.info[z]);
    }
  }

  // ----- the order of the nodes -----

  /** Where a node stands in the list `at`. */
  ghost function Position(at: seq<ListHead>, x: ListHead): nat {
    if at == [] || at[0] == x then 0 else 1 + Position(at[1..], x)
  }

  lemma {:induction false} PositionIs(at: seq<ListHead>, k: nat)
    requires Distinct(at) && k < |at|
    ensures Position(at, at[k]) == k
  {
    if k > 0 {
      PositionIs(at[1..], k - 1);
    }
  }

  /** `a` belongs before `b` in the stable order: smaller, or equivalent and earlier in `at`. */
  ghost predicate Precedes<S>(o: Order, at: seq<ListHead>, st: Store<S>, a: ListHead, b: ListHead)
    requires a in st.info && b in st.info
  {
    && o.le(st.info[a], st.info[b])
    && (o.le(st.info[b], st.info[a]) ==> Position(at, a) < Position(at, b))
  }

  ghost predicate SortedStably<S>(o: Order, at: seq<ListHead>, st: Store<S>, s: seq<ListHead>)
    requires Known(st, s)
  {
    forall j, k :: 0 <= j < k < |s| ==> Precedes(o, at, st, s[j], s[k])
  }

  ghost predicate AllSettled<S>(o: Order, st: Store<S>, s: seq<ListHead>)
    requires Known(st, s)
  {
    forall k :: 0 <= k < |s| ==> o.settled(st.info[s[k]])
  }

  /** Sorted, and settled unless it is a node that has not been compared. */
  ghost predicate Run<S>(o: Order, at: seq<ListHead>, st: Store<S>, s: seq<ListHead>)
    requires Known(st, s)
  {
    SortedStably(o, at, st, s) && (|s| > 1 ==> AllSettled(o, st, s))
  }

  /** Every node of `a` stands before every node of `b` in the list `at`. */
  ghost predicate Earlier(at: seq<ListHead>, a: seq<ListHead>, b: seq<ListHead>) {
    forall j, k :: 0 <= j < |a| && 0 <= k < |b| ==> Position(at, a[j]) < Position(at, b[k])
  }

  lemma PrecedesGrows<S>(o: Order, at: seq<ListHead>, st: Store<S>, r: Store<S>, a: ListHead, b: ListHead)
    requires TotalPreorder(o) && Grown(o, st, r) && a in st.info && b in st.info
    requires o.settled(st.info[a]) && o.settled(st.info[b]) && Precedes(o, at, st, a, b)
    ensures Precedes(o, at, r, a, b)
  {
    var x, y, x', y' := st.info[a], st.info[b], r.info[a], r.info[b];
    assert Stays(o, x, x') && Stays(o, y, y');
    assert o.le(x', y) && o.le(x', y');
    if o.le(y', x') {
      assert o.le(y, x') && o.le(y, x);
    }
  }

  /** What has been sorted stays sorted while other nodes are compared. */
  lemma RunGrows<S>(o: Order, at: seq<ListHead>, st: Store<S>, r: Store<S>, s: seq<ListHead>)
    requires TotalPreorder(o) && Grown(o, st, r) && Known(st, s) && Known(r, s) && Run(o, at, st, s)
    ensures Run(o, at, r, s)
  {
    hide Precedes;
    forall k | 0 <= k < |s| && |s| > 1 ensures o.settled(r.info[s[k]]) {
      assert Stays(o, st.info[s[k]], r.info[s[k]]);
    }
    forall j, k | 0 <= j < k < |s| ensures Precedes(o, at, r, s[j], s[k]) {
      PrecedesGrows(o, at, st, r, s[j], s[k]);
    }
  }

  lemma PrecedesTransitive<S>(o: Order, at: seq<ListHead>, st: Store<S>, x: ListHead, y: ListHead, z: ListHead)
    requires TotalPreorder(o) && x in st.info && y in st.info && z in st.info
    requires Precedes(o, at, st, x, y) && Precedes(o, at, st, y, z)
    ensures Precedes(o, at, st, x, z)
  {
    var a, b, c := st.info[x], st.info[y], st.info[z];
    if o.le(c, a) {
      assert o.le(c, b) && o.le(b, a);
    }
  }

  // ----- one merge -----

  ghost function Merge<S>(cmp: Comparison<S>, st: Store<S>, p: seq<ListHead>, q: seq<ListHead>): (r: Sorting<S>)
    requires Known(st, p) && Known(st, q)
    ensures |r.nodes| == |p| + |q| && r.store.info.Keys == st.info.Keys && Known(r.store, r.nodes)
    decreases |p| + |q|
  {
    if p == [] then Sorting(q, st)
    else if q == [] then Sorting(p, st)
    else
      var st' := Compare(cmp, st, p[0], q[0]);
      if MayStay(cmp, st, p[0], q[0]) then
        var r := Merge(cmp, st', p[1..], q);
        Sorting([p[0]] + r.nodes, r.store)
      else
        var r := Merge(cmp, st', p, q[1..]);
        Sorting([q[0]] + r.nodes, r.store)
  }

  lemma {:induction false} MergeKeepsNodes<S>(cmp: Comparison<S>, st: Store<S>, p: seq<ListHead>, q: seq<ListHead>)
    requires Known(st, p) && Known(st, q)
    ensures multiset(Merge(cmp, st, p, q).nodes) == multiset(p) + multiset(q)
    decreases |p| + |q|
  {
    if p != [] && q != [] {
      assert p == [p[0]] + p[1..] && q == [q[0]] + q[1..];
      var st' := Compare(cmp, st, p[0], q[0]);
      if MayStay(cmp, st, p[0], q[0]) {
        MergeKeepsNodes(cmp, st', p[1..], q);
      } else {
        MergeKeepsNodes(cmp, st', p, q[1..]);
      }
    }
  }

  lemma {:induction false} MergeGrows<S(!new)>(o: Order, cmp: Comparison<S>, st: Store<S>, p: seq<ListHead>, q: seq<ListHead>)
    requires Obeys(cmp, o) && Known(st, p) && Known(st, q)
    ensures Grown(o, st, Merge(cmp, st, p, q).store)
    decreases |p| + |q|
  {
    hide Grown, Obeys, Compare, MayStay;
    Nothing(cmp, o, st);
    if p != [] && q != [] {
      var st' := Compare(cmp, st, p[0], q[0]);
      CompareSettles(cmp, o, st, p[0], q[0]);
      if MayStay(cmp, st, p[0], q[0]) {
        MergeGrows(o, cmp, st', p[1..], q);
      } else {
        MergeGrows(o, cmp, st', p, q[1..]);
      }
      GrownTransitive(o, st, st', Merge(cmp, st, p, q).store);
    }
  }

  lemma Nothing<S(!new)>(cmp: Comparison<S>, o: Order, st: Store<S>)
    requires Obeys(cmp, o)
    ensures Grown(o, st, st) && TotalPreorder(o)
  {
    forall x | x in st.info ensures Stays(o, st.info[x], st.info[x]) {
      Reflexive(o, st.info[x]);
    }
  }

  /** Settled nodes that `x` precedes. */
  ghost predicate Ahead<S>(o: Order, at: seq<ListHead>, st: Store<S>, x: ListHead, s: seq<ListHead>)
    requires Known(st, s) && x in st.info
  {
    forall k :: 0 <= k < |s| ==> o.settled(st.info[s[k]]) && Precedes(o, at, st, x, s[k])
  }

  lemma AheadOfBoth<S>(o: Order, at: seq<ListHead>, st: Store<S>, x: ListHead, p: seq<ListHead>, q: seq<ListHead>, r: seq<ListHead>)
    requires Known(st, p) && Known(st, q) && x in st.info && Ahead(o, at, st, x, p) && Ahead(o, at, st, x, q)
    requires Known(st, r) && multiset(r) == multiset(p) + multiset(q)
    ensures Ahead(o, at, st, x, r)
  {
    hide Precedes;
    forall k | 0 <= k < |r| ensures o.settled(st.info[r[k]]) && Precedes(o, at, st, x, r[k]) {
      assert r[k] in multiset(r);
      assert r[k] in p || r[k] in q;
    }
  }

  /** A settled node goes in front of a run that it preceded before the run was merged. */
  lemma InFront<S>(o: Order, at: seq<ListHead>, st: Store<S>, st': Store<S>, x: ListHead, s: seq<ListHead>)
    requires TotalPreorder(o) && Grown(o, st, st') && x in st.info && o.settled(st.info[x])
    requires Known(st, s) && Known(st', s) && Known(st', [x] + s) && Ahead(o, at, st, x, s) && Run(o, at, st', s)
    ensures Run(o, at, st', [x] + s)
  {
    hide Precedes;
    var r := [x] + s;
    assert Stays(o, st.info[x], st'.info[x]);
    forall k | 0 <= k < |r| ensures o.settled(st'.info[r[k]]) {
      assert Stays(o, st.info[r[k]], st'.info[r[k]]);
      if k > 0 { assert r[k] == s[k - 1]; }
    }
    forall j, k | 0 <= j < k < |r| ensures Precedes(o, at, st', r[j], r[k]) {
      assert r[k] == s[k - 1];
      if j == 0 {
        PrecedesGrows(o, at, st, st', x, s[k - 1]);
      } else {
        assert r[j] == s[j - 1];
      }
    }
  }

  /** The two runs after the comparison of their first nodes: both settled throughout, and still sorted. */
  lemma BothSettled<S(!new)>(o: Order, at: seq<ListHead>, cmp: Comparison<S>, st: Store<S>, p: seq<ListHead>, q: seq<ListHead>)
    requires Obeys(cmp, o) && Known(st, p) && Known(st, q) && p != [] && q != []
    requires Run(o, at, st, p) && Run(o, at, st, q) && Earlier(at, p, q)
    ensures var st' := Compare(cmp, st, p[0], q[0]);
      && Known(st', p) && Known(st', q) && Run(o, at, st', p) && Run(o, at, st', q)
      && AllSettled(o, st', p) && AllSettled(o, st', q)
      && (MayStay(cmp, st, p[0], q[0]) <==> o.le(st'.info[p[0]], st'.info[q[0]]))
  {
    hide Precedes, Grown, Obeys, SortedStably, Compare, MayStay;
    var st' := Compare(cmp, st, p[0], q[0]);
    assert p[0] != q[0] by { assert Position(at, p[0]) < Position(at, q[0]); }
    Nothing(cmp, o, st);
    CompareSettles(cmp, o, st, p[0], q[0]);
    RunGrows(o, at, st, st', p);
    RunGrows(o, at, st, st', q);
  }

  /** The first node of a run precedes the others. */
  lemma RunAhead<S>(o: Order, at: seq<ListHead>, st: Store<S>, x: ListHead, s: seq<ListHead>)
    requires TotalPreorder(o) && x in st.info && Known(st, s) && SortedStably(o, at, st, s) && AllSettled(o, st, s)
    requires s != [] ==> Precedes(o, at, st, x, s[0])
    ensures Ahead(o, at, st, x, s)
  {
    hide Precedes;
    forall k | 0 <= k < |s| ensures o.settled(st.info[s[k]]) && Precedes(o, at, st, x, s[k]) {
      if k > 0 { PrecedesTransitive(o, at, st, x, s[0], s[k]); }
    }
  }

  /** Both runs without the first node of one: still two runs, and that node precedes all of them. */
  lemma FirstLeaves<S>(o: Order, at: seq<ListHead>, st: Store<S>, p: seq<ListHead>, q: seq<ListHead>)
    requires TotalPreorder(o) && Known(st, p) && Known(st, q) && p != [] && q != []
    requires SortedStably(o, at, st, p) && SortedStably(o, at, st, q) && AllSettled(o, st, p) && AllSettled(o, st, q)
    requires Precedes(o, at, st, p[0], q[0])
    ensures Known(st, p[1..]) && Run(o, at, st, p[1..])
    ensures Ahead(o, at, st, p[0], p[1..]) && Ahead(o, at, st, p[0], q)
  {
    hide Precedes;
    assert |p| > 1 ==> Precedes(o, at, st, p[0], p[1]);
    RunAhead(o, at, st, p[0], p[1..]);
    RunAhead(o, at, st, p[0], q);
  }

  /** What is left to merge after a comparison: if the rest becomes a run, so does the whole with the first node in front. */
  lemma MergeStep<S(!new)>(o: Order, at: seq<ListHead>, cmp: Comparison<S>, st: Store<S>, x: ListHead, p: seq<ListHead>, q: seq<ListHead>)
    requires Obeys(cmp, o) && Known(st, p) && Known(st, q) && x in st.info && o.settled(st.info[x])
    requires Ahead(o, at, st, x, p) && Ahead(o, at, st, x, q)
    requires var r := Merge(cmp, st, p, q); Run(o, at, r.store, r.nodes)
    ensures var r := Merge(cmp, st, p, q); Known(r.store, [x] + r.nodes) && Run(o, at, r.store, [x] + r.nodes)
  {
    hide Precedes, Grown, Obeys, Merge, Ahead, Run;
    var r := Merge(cmp, st, p, q);
    Nothing(cmp, o, st);
    MergeGrows(o, cmp, st, p, q);
    MergeKeepsNodes(cmp, st, p, q);
    KnownToo(st, r.store, x, r.nodes);
    AheadOfBoth(o, at, st, x, p, q, r.nodes);
    InFront(o, at, st, r.store, x, r.nodes);
  }

  lemma KnownToo<S>(st: Store<S>, st': Store<S>, x: ListHead, s: seq<ListHead>)
    requires st'.info.Keys == st.info.Keys && x in st.info && Known(st', s)
    ensures Known(st, s) && Known(st', [x] + s)
  {
  }

  /** Merging two neighbouring runs gives a run. */
  lemma {:induction false} MergeSorts<S(!new)>(o: Order, at: seq<ListHead>, cmp: Comparison<S>, st: Store<S>, p: seq<ListHead>, q: seq<ListHead>)
    requires Obeys(cmp, o) && Known(st, p) && Known(st, q)
    requires Run(o, at, st, p) && Run(o, at, st, q) && Earlier(at, p, q)
    ensures var r := Merge(cmp, st, p, q); Run(o, at, r.store, r.nodes)
    decreases |p| + |q|
  {
    hide Grown, Ahead, Compare, MayStay, Stays;
    if p != [] && q != [] {
      var st' := Compare(cmp, st, p[0], q[0]);
      BothSettled(o, at, cmp, st, p, q);
      if MayStay(cmp, st, p[0], q[0]) {
        FirstLeaves(o, at, st', p, q);
        MergeSorts(o, at, cmp, st', p[1..], q);
        MergeStep(o, at, cmp, st', p[0], p[1..], q);
      } else {
        FirstLeaves(o, at, st', q, p);
        MergeSorts(o, at, cmp, st', p, q[1..]);
        MergeStep(o, at, cmp, st', q[0], p, q[1..]);
      }
    }
  }

  // ----- one pass -----

  /** `s` is a sequence of runs of `w` nodes (the last may be shorter), each earlier than all that follow. */
  ghost predicate Runs<S>(o: Order, at: seq<ListHead>, st: Store<S>, w: nat, s: seq<ListHead>)
    requires w > 0 && Known(st, s)
    decreases |s|
  {
    s == [] ||
    (var n := Min(w, |s|);
     Run(o, at, st, s[..n]) && Earlier(at, s[..n], s[n..]) && Runs(o, at, st, w, s[n..]))
  }

  ghost function Pass<S>(cmp: Comparison<S>, st: Store<S>, w: nat, s: seq<ListHead>): (r: Sorting<S>)
    requires w > 0 && Known(st, s)
    ensures |r.nodes| == |s| && r.store.info.Keys == st.info.Keys && Known(r.store, r.nodes)
    decreases |s|
  {
    if s == [] then Sorting([], st)
    else
      var n, m := Min(w, |s|), Min(2 * w, |s|);
      var first := Merge(cmp, st, s[..n], s[n..m]);
      var rest := Pass(cmp, first.store, w, s[m..]);
      Sorting(first.nodes + rest.nodes, rest.store)
  }

  /** The number of merges a pass makes. */
  ghost function Merges(w: nat, n: nat): nat
    requires w > 0
    decreases n
  {
    if n == 0 then 0 else 1 + Merges(w, n - Min(2 * w, n))
  }

  lemma KnownSlices<S>(st: Store<S>, s: seq<ListHead>, n: nat, m: nat)
    requires Known(st, s) && n <= m <= |s|
    ensures Known(st, s[..n]) && Known(st, s[n..m]) && Known(st, s[m..]) && Known(st, s[..m]) && Known(st, s[n..])
  {
  }

  lemma {:induction false} PassKeepsNodes<S>(cmp: Comparison<S>, st: Store<S>, w: nat, s: seq<ListHead>)
    requires w > 0 && Known(st, s)
    ensures multiset(Pass(cmp, st, w, s).nodes) == multiset(s)
    decreases |s|
  {
    hide Merge;
    if s != [] {
      var n, m := Min(w, |s|), Min(2 * w, |s|);
      MergeKeepsNodes(cmp, st, s[..n], s[n..m]);
      PassKeepsNodes(cmp, Merge(cmp, st, s[..n], s[n..m]).store, w, s[m..]);
      assert s == s[..m] + s[m..] && s[..m] == s[..n] + s[n..m];
    }
  }

  lemma {:induction false} PassGrows<S(!new)>(o: Order, cmp: Comparison<S>, st: Store<S>, w: nat, s: seq<ListHead>)
    requires Obeys(cmp, o) && w > 0 && Known(st, s)
    ensures Grown(o, st, Pass(cmp, st, w, s).store)
    decreases |s|
  {
    hide Grown, Obeys, Merge;
    Nothing(cmp, o, st);
    if s != [] {
      var n, m := Min(w, |s|), Min(2 * w, |s|);
      var first := Merge(cmp, st, s[..n], s[n..m]);
      MergeGrows(o, cmp, st, s[..n], s[n..m]);
      PassGrows(o, cmp, first.store, w, s[m..]);
      GrownTransitive(o, st, first.store, Pass(cmp, st, w, s).store);
    }
  }

  lemma EarlierByNodes(at: seq<ListHead>, a: seq<ListHead>, b: seq<ListHead>, a': seq<ListHead>, b': seq<ListHead>)
    requires Earlier(at, a, b) && multiset(a') == multiset(a) && multiset(b') == multiset(b)
    ensures Earlier(at, a', b')
  {
    forall j, k | 0 <= j < |a'| && 0 <= k < |b'| ensures Position(at, a'[j]) < Position(at, b'[k]) {
      assert a'[j] in multiset(a) && b'[k] in multiset(b);
      assert a'[j] in a && b'[k] in b;
    }
  }

  /** Runs in order of first position: the first one is earlier than the second, and both are than the rest. */
  lemma EarlierBoth(at: seq<ListHead>, a: seq<ListHead>, b: seq<ListHead>, c: seq<ListHead>)
    requires Earlier(at, a, b + c) && Earlier(at, b, c)
    ensures Earlier(at, a, b) && Earlier(at, a + b, c)
  {
    forall j, k | 0 <= j < |a| && 0 <= k < |b| ensures Position(at, a[j]) < Position(at, b[k]) { assert (b + c)[k] == b[k]; }
    forall j, k | 0 <= j < |a + b| && 0 <= k < |c| ensures Position(at, (a + b)[j]) < Position(at, c[k]) {
      if j < |a| { assert (b + c)[|b| + k] == c[k]; }
    }
  }

  lemma NothingIsRun<S>(o: Order, at: seq<ListHead>, st: Store<S>, a: seq<ListHead>)
    ensures Run(o, at, st, []) && Earlier(at, a, [])
  {
  }

  /** Two neighbouring runs: sorted one by one, in order of first position, and earlier than the rest. */
  lemma TwoRuns<S>(o: Order, at: seq<ListHead>, st: Store<S>, w: nat, s: seq<ListHead>)
    requires w > 0 && Known(st, s) && s != [] && Runs(o, at, st, w, s)
    ensures var n, m := Min(w, |s|), Min(2 * w, |s|);
      && Run(o, at, st, s[..n]) && Run(o, at, st, s[n..m]) && Earlier(at, s[..n], s[n..m])
      && Earlier(at, s[..m], s[m..]) && Runs(o, at, st, w, s[m..])
  {
    hide Run, Earlier, Known;
    var n, m := Min(w, |s|), Min(2 * w, |s|);
    var rest := s[n..];
    KnownSlices(st, s, n, m);
    if rest == [] {
      NothingIsRun(o, at, st, s[..n]);
      NothingIsRun(o, at, st, s[..m]);
      assert s[n..m] == [] && s[m..] == [];
    } else {
      var n' := Min(w, |rest|);
      assert m == n + n' && rest[..n'] == s[n..m] && rest[n'..] == s[m..];
      assert s[..m] == s[..n] + s[n..m] && s[n..] == s[n..m] + s[m..];
      EarlierBoth(at, s[..n], s[n..m], s[m..]);
    }
  }

  lemma {:induction false} RunsGrow<S>(o: Order, at: seq<ListHead>, st: Store<S>, st': Store<S>, w: nat, s: seq<ListHead>)
    requires TotalPreorder(o) && Grown(o, st, st') && w > 0 && Known(st, s) && Known(st', s) && Runs(o, at, st, w, s)
    ensures Runs(o, at, st', w, s)
    decreases |s|
  {
    hide Grown, Run, Earlier;
    if s != [] {
      var n := Min(w, |s|);
      RunGrows(o, at, st, st', s[..n]);
      RunsGrow(o, at, st, st', w, s[n..]);
    }
  }

  /** Runs of width `w` in front of others: the first is a run by itself. */
  lemma RunsFrom<S>(o: Order, at: seq<ListHead>, st: Store<S>, w: nat, s: seq<ListHead>, a: seq<ListHead>, b: seq<ListHead>)
    requires w > 0 && Known(st, s) && s == a + b && |a| <= w && (b != [] ==> |a| == w)
    requires Known(st, a) && Known(st, b) && Run(o, at, st, a) && Earlier(at, a, b) && Runs(o, at, st, w, b)
    ensures Runs(o, at, st, w, s)
  {
    hide Run, Earlier, Known;
    if s != [] {
      var n := Min(w, |s|);
      assert n == |a| && s[..n] == a && s[n..] == b;
    }
  }

  /** The first turn of a pass: one run from the first two, earlier than the rest, which is still a sequence of runs. */
  lemma FirstTwo<S(!new)>(o: Order, at: seq<ListHead>, cmp: Comparison<S>, st: Store<S>, w: nat, s: seq<ListHead>)
    requires w > 0 && Obeys(cmp, o) && Known(st, s) && Runs(o, at, st, w, s) && s != []
    ensures var n, m := Min(w, |s|), Min(2 * w, |s|);
      var first := Merge(cmp, st, s[..n], s[n..m]);
      && Run(o, at, first.store, first.nodes) && multiset(first.nodes) == multiset(s[..m])
      && Earlier(at, s[..m], s[m..]) && Runs(o, at, first.store, w, s[m..])
  {
    hide Obeys, Grown, Merge, Run, Earlier, Known, Runs;
    var n, m := Min(w, |s|), Min(2 * w, |s|);
    KnownSlices(st, s, n, m);
    var first := Merge(cmp, st, s[..n], s[n..m]);
    Nothing(cmp, o, st);
    TwoRuns(o, at, st, w, s);
    MergeSorts(o, at, cmp, st, s[..n], s[n..m]);
    MergeGrows(o, cmp, st, s[..n], s[n..m]);
    KnownStill(st, first.store, s[m..]);
    RunsGrow(o, at, st, first.store, w, s[m..]);
    MergeKeepsNodes(cmp, st, s[..n], s[n..m]);
    assert s[..m] == s[..n] + s[n..m];
  }

  lemma KnownStill<S>(st: Store<S>, st': Store<S>, s: seq<ListHead>)
    requires Known(st, s) && st'.info.Keys == st.info.Keys
    ensures Known(st', s)
  {
  }

  /** A pass over runs of width `w` leaves runs of width `2 * w`. */
  lemma {:induction false} PassDoublesRuns<S(!new)>(o: Order, at: seq<ListHead>, cmp: Comparison<S>, st: Store<S>, w: nat, s: seq<ListHead>)
    requires w > 0 && Obeys(cmp, o) && Known(st, s) && Runs(o, at, st, w, s)
    ensures var r := Pass(cmp, st, w, s); Runs(o, at, r.store, 2 * w, r.nodes)
    decreases |s|
  {
    hide Obeys, Grown, Merge, Run, Earlier;
    if s != [] {
      var n, m := Min(w, |s|), Min(2 * w, |s|);
      var first := Merge(cmp, st, s[..n], s[n..m]);
      var rest, r := Pass(cmp, first.store, w, s[m..]), Pass(cmp, st, w, s);
      Nothing(cmp, o, st);
      FirstTwo(o, at, cmp, st, w, s);
      PassDoublesRuns(o, at, cmp, first.store, w, s[m..]);
      PassGrows(o, cmp, first.store, w, s[m..]);
      RunGrows(o, at, first.store, rest.store, first.nodes);
      PassKeepsNodes(cmp, first.store, w, s[m..]);
      EarlierByNodes(at, s[..m], s[m..], first.nodes, rest.nodes);
      RunsFrom(o, at, rest.store, 2 * w, r.nodes, first.nodes, rest.nodes);
    }
  }

  lemma MergesAtMostOne(w: nat, n: nat)
    requires w > 0
    ensures Merges(w, n) <= 1 <==> n <= 2 * w
  {
    if n > 2 * w {
      assert Merges(w, n) == 1 + Merges(w, n - 2 * w);
    }
  }

  lemma SingleRun<S>(o: Order, at: seq<ListHead>, st: Store<S>, w: nat, s: seq<ListHead>)
    requires w > 0 && Known(st, s) && Runs(o, at, st, w, s) && |s| <= w
    ensures Run(o, at, st, s)
  {
    if s != [] {
      assert s[..|s|] == s;
    }
  }

  /** Before the first pass every node is a run of its own. */
  lemma {:induction false} UnitRuns<S>(o: Order, at: seq<ListHead>, st: Store<S>, s: seq<ListHead>)
    requires Known(st, s)
    requires forall j, k :: 0 <= j < k < |s| ==> Position(at, s[j]) < Position(at, s[k])
    ensures Runs(o, at, st, 1, s)
    decreases |s|
  {
    if s != [] {
      UnitRuns(o, at, st, s[1..]);
    }
  }

  // ----- the sort -----

  /** Passes over ever wider runs until one merge is enough. The run width doubles, and more than one merge means that two
      runs do not cover the list: that is why the sort ends, whatever the comparison says. */
  ghost function Sort<S>(cmp: Comparison<S>, st: Store<S>, w: nat, s: seq<ListHead>): (r: Sorting<S>)
    requires w > 0 && Known(st, s)
    ensures |r.nodes| == |s| && r.store.info.Keys == st.info.Keys && Known(r.store, r.nodes)
    decreases |s| - w
  {
    var r := Pass(cmp, st, w, s);
    MergesAtMostOne(w, |s|);
    if Merges(w, |s|) <= 1 then r else Sort(cmp, r.store, w * 2, r.nodes)
  }

  lemma {:induction false} SortKeepsNodes<S>(cmp: Comparison<S>, st: Store<S>, w: nat, s: seq<ListHead>)
    requires w > 0 && Known(st, s)
    ensures multiset(Sort(cmp, st, w, s).nodes) == multiset(s)
    decreases |s| - w
  {
    hide Pass;
    var r := Pass(cmp, st, w, s);
    MergesAtMostOne(w, |s|);
    PassKeepsNodes(cmp, st, w, s);
    if Merges(w, |s|) > 1 {
      SortKeepsNodes(cmp, r.store, w * 2, r.nodes);
    }
  }

  /** What one pass achieves: the runs double; one merge means that the list is a single run, more of them that the new run
      width is below its length. */
  lemma PassProgress<S(!new)>(o: Order, at: seq<ListHead>, cmp: Comparison<S>, st: Store<S>, w: nat, s: seq<ListHead>)
    requires w > 0 && Obeys(cmp, o) && Known(st, s) && Runs(o, at, st, w, s)
    ensures var r := Pass(cmp, st, w, s);
      && Runs(o, at, r.store, w * 2, r.nodes) && multiset(r.nodes) == multiset(s)
      && (Merges(w, |s|) <= 1 ==> Run(o, at, r.store, r.nodes))
      && (Merges(w, |s|) > 1 ==> w * 2 < |s|)
  {
    hide Pass, Runs, Obeys, Run;
    var r := Pass(cmp, st, w, s);
    MergesAtMostOne(w, |s|);
    PassKeepsNodes(cmp, st, w, s);
    PassDoublesRuns(o, at, cmp, st, w, s);
    if |s| <= 2 * w {
      SingleRun(o, at, r.store, 2 * w, r.nodes);
    }
  }

  lemma {:induction false} RunsAreSorted<S(!new)>(o: Order, at: seq<ListHead>, cmp: Comparison<S>, st: Store<S>, w: nat, s: seq<ListHead>)
    requires w > 0 && Obeys(cmp, o) && Known(st, s) && Runs(o, at, st, w, s)
    ensures var r := Sort(cmp, st, w, s); Run(o, at, r.store, r.nodes)
    decreases |s| - w
  {
    hide Pass, Runs, Obeys, Run;
    var r := Pass(cmp, st, w, s);
    PassProgress(o, at, cmp, st, w, s);
    if Merges(w, |s|) > 1 {
      RunsAreSorted(o, at, cmp, r.store, w * 2, r.nodes);
    }
  }

  /** The sort leaves the same nodes, stably sorted for the data that the comparisons leave behind, and that data is settled
      as soon as there are two nodes to compare. */
  lemma SortSorts<S(!new)>(o: Order, cmp: Comparison<S>, st: Store<S>, s: seq<ListHead>)
    requires Obeys(cmp, o) && Known(st, s) && Distinct(s)
    ensures var r := Sort(cmp, st, 1, s);
      && multiset(r.nodes) == multiset(s) && SortedStably(o, s, r.store, r.nodes)
      && (|s| > 1 ==> AllSettled(o, r.store, r.nodes))
  {
    hide Obeys, Sort, Runs, Distinct;
    forall j, k | 0 <= j < k < |s| ensures Position(s, s[j]) < Position(s, s[k]) {
      PositionIs(s, j);
      PositionIs(s, k);
    }
    UnitRuns(o, s, st, s);
    RunsAreSorted(o, s, cmp, st, 1, s);
    SortKeepsNodes(cmp, st, 1, s);
  }

  lemma SameHead<S>(o: Order, at: seq<ListHead>, st: Store<S>, s: seq<ListHead>, t: seq<ListHead>)
    requires Known(st, s) && Known(st, t) && multiset(s) == multiset(t) && s != [] && t != []
    requires SortedStably(o, at, st, s) && SortedStably(o, at, st, t)
    ensures s[0] == t[0]
  {
    assert s[0] in multiset(t) && t[0] in multiset(s);
    var j :| 0 <= j < |t| && t[j] == s[0];
    var k :| 0 <= k < |s| && s[k] == t[0];
    if j > 0 && k > 0 {
      assert false;
    }
  }

  /** The stable order has no ties, so the nodes have only one stably sorted order. */
  lemma {:induction false} SortedStablyIsUnique<S>(o: Order, at: seq<ListHead>, st: Store<S>, s: seq<ListHead>, t: seq<ListHead>)
    requires Known(st, s) && Known(st, t) && multiset(s) == multiset(t)
    requires SortedStably(o, at, st, s) && SortedStably(o, at, st, t)
    ensures s == t
    decreases |s|
  {
    if s == [] || t == [] {
      assert |multiset(s)| == |multiset(t)|;
    } else {
      SameHead(o, at, st, s, t);
      assert s == [s[0]] + s[1..] && t == [t[0]] + t[1..];
      assert multiset(s[1..]) == multiset(s) - multiset{s[0]};
      assert multiset(t[1..]) == multiset(t) - multiset{t[0]};
      SortedStablyIsUnique(o, at, st, s[1..], t[1..]);
    }
  }

  // ----- what becomes of the data -----

  type Change = (ListData, ListData) -> bool

  /** All that a comparison does to data is of the kind `to`, which may be done any number of times, or not at all. */
  ghost predicate Only<S(!new)>(cmp: Comparison<S>, to: Change) {
    && (forall a :: to(a, a)) && (forall a, b, c :: to(a, b) && to(b, c) ==> to(a, c))
    && (forall a, b, r :: to(a, cmp(a, b, r).left) && to(b, cmp(a, b, r).right))
  }

  ghost predicate Changed<S>(to: Change, st: Store<S>, r: Store<S>) {
    r.info.Keys == st.info.Keys && forall x :: x in st.info ==> to(st.info[x], r.info[x])
  }

  lemma ChangedTwice<S(!new)>(cmp: Comparison<S>, to: Change, a: Store<S>, b: Store<S>, c: Store<S>)
    requires Only(cmp, to) && Changed(to, a, b) && Changed(to, b, c)
    ensures Changed(to, a, c)
  {
  }

  lemma {:induction false} MergeChanges<S(!new)>(cmp: Comparison<S>, to: Change, st: Store<S>, p: seq<ListHead>, q: seq<ListHead>)
    requires Only(cmp, to) && Known(st, p) && Known(st, q)
    ensures Changed(to, st, Merge(cmp, st, p, q).store)
    decreases |p| + |q|
  {
    if p != [] && q != [] {
      var st' := Compare(cmp, st, p[0], q[0]);
      assert Changed(to, st, st');
      if MayStay(cmp, st, p[0], q[0]) {
        MergeChanges(cmp, to, st', p[1..], q);
      } else {
        MergeChanges(cmp, to, st', p, q[1..]);
      }
      ChangedTwice(cmp, to, st, st', Merge(cmp, st, p, q).store);
    }
  }

  lemma {:induction false} PassChanges<S(!new)>(cmp: Comparison<S>, to: Change, st: Store<S>, w: nat, s: seq<ListHead>)
    requires Only(cmp, to) && w > 0 && Known(st, s)
    ensures Changed(to, st, Pass(cmp, st, w, s).store)
    decreases |s|
  {
    hide Merge;
    if s != [] {
      var n, m := Min(w, |s|), Min(2 * w, |s|);
      var first := Merge(cmp, st, s[..n], s[n..m]);
      MergeChanges(cmp, to, st, s[..n], s[n..m]);
      PassChanges(cmp, to, first.store, w, s[m..]);
      ChangedTwice(cmp, to, st, first.store, Pass(cmp, st, w, s).store);
    }
  }

  /** What the comparison does to data is all that the sort does to it. */
  lemma {:induction false} SortChanges<S(!new)>(cmp: Comparison<S>, to: Change, st: Store<S>, w: nat, s: seq<ListHead>)
    requires Only(cmp, to) && w > 0 && Known(st, s)
    ensures Changed(to, st, Sort(cmp, st, w, s).store)
    decreases |s| - w
  {
    hide Pass, Only, Changed;
    var r := Pass(cmp, st, w, s);
    MergesAtMostOne(w, |s|);
    PassChanges(cmp, to, st, w, s);
    if Merges(w, |s|) > 1 {
      SortChanges(cmp, to, r.store, w * 2, r.nodes);
      ChangedTwice(cmp, to, st, r.store, Sort(cmp, st, w, s).store);
    }
  }

  // ----- linked nodes -----

  ghost predicate Disjoint(s: seq<ListHead>, t: seq<ListHead>) {
    forall j, k :: 0 <= j < |s| && 0 <= k < |t| ==> s[j] != t[k]
  }

  /** Each node points to the one after it; where the last one points is left open. */
  ghost predicate Linked(s: seq<ListHead>)
    reads s`next
  {
    forall k {:trigger s[k].next} :: 0 <= k && k + 1 < |s| ==> s[k].next == s[k + 1]
  }

  /** `head` starts a null-terminated list with exactly the nodes `s`. */
  ghost predicate IsList(head: ListHead?, s: seq<ListHead>)
    reads s`next
  {
    && Distinct(s) && Linked(s)
    && (if s == [] then head == null else head == s[0] && s[|s| - 1].next == null)
  }

  /** The nodes hold the data of `st`. */
  ghost predicate Holds<S>(st: Store<S>)
    reads st.info.Keys`info
  {
    forall x :: x in st.info ==> x.info == st.info[x]
  }

  /** What is linked while a pass runs: the output so far, from `list` to `tail`. */
  ghost predicate Output(out: seq<ListHead>, list: ListHead?, tail: ListHead?)
    reads out`next
  {
    && Distinct(out) && Linked(out)
    && (if out == [] then list == null && tail == null else list == out[0] && tail == out[|out| - 1])
  }

  /** The rest of an input: linked from `head`, ending in null when `ends`. */
  ghost predicate Input(s: seq<ListHead>, head: ListHead?, ends: bool)
    reads s`next
  {
    && Distinct(s) && Linked(s)
    && (s != [] ==> head == s[0])
    && (ends ==> if s == [] then head == null else s[|s| - 1].next == null)
  }

  /** The three parts of the list while two runs are merged. */
  ghost predicate Merging<S>(st: Store<S>, out: seq<ListHead>, list: ListHead?, tail: ListHead?, ps: seq<ListHead>, p: ListHead?, qs: seq<ListHead>, q: ListHead?)
    reads st.info.Keys
  {
    && Known(st, out) && Known(st, ps) && Known(st, qs) && Holds(st)
    && Output(out, list, tail) && Input(ps, p, false) && Input(qs, q, true)
    && Disjoint(out, ps) && Disjoint(out, qs) && Disjoint(ps, qs)
  }

  /** Links `el` behind the output, as at the end of the innermost loop; both inputs stay as they are. */
  method Append<S>(el: ListHead, list: ListHead?, tail: ListHead?, ghost p: ListHead?, ghost q: ListHead?,
                   ghost st: Store<S>, ghost out: seq<ListHead>, ghost ps: seq<ListHead>, ghost qs: seq<ListHead>)
    returns (list': ListHead, tail': ListHead)
    requires Merging(st, out, list, tail, ps, p, qs, q) && el in st.info
    requires el !in out && el !in ps && el !in qs
    modifies st.info.Keys`next
    ensures Merging(st, out + [el], list', tail', ps, p, qs, q)
  {
    list' := if tail == null then el else list;
    if tail != null {
      tail.next := el;
    }
    tail' := el;
  }

  /** The next node comes from `p`: step along and link it behind the output. */
  method TakeP<S>(p: ListHead, list: ListHead?, tail: ListHead?, ghost q: ListHead?,
                  ghost st: Store<S>, ghost out: seq<ListHead>, ghost ps: seq<ListHead>, ghost qs: seq<ListHead>)
    returns (p': ListHead?, list': ListHead, tail': ListHead)
    requires Merging(st, out, list, tail, ps, p, qs, q) && ps != []
    modifies st.info.Keys`next
    ensures Merging(st, out + [ps[0]], list', tail', ps[1..], p', qs, q)
  {
    p' := p.next;
    list', tail' := Append(p, list, tail, p', q, st, out, ps[1..], qs);
  }

  /** The next node comes from `q`. */
  method TakeQ<S>(q: ListHead, list: ListHead?, tail: ListHead?, ghost p: ListHead?,
                  ghost st: Store<S>, ghost out: seq<ListHead>, ghost ps: seq<ListHead>, ghost qs: seq<ListHead>)
    returns (q': ListHead?, list': ListHead, tail': ListHead)
    requires Merging(st, out, list, tail, ps, p, qs, q) && qs != []
    modifies st.info.Keys`next
    ensures Merging(st, out + [qs[0]], list', tail', ps, p, qs[1..], q')
  {
    q' := q.next;
    list', tail' := Append(q, list, tail, p, q', st, out, ps, qs[1..]);
  }

  /** The state of a merge in progress: the output, what is left of both inputs, how many nodes may still come from the
      second one, and the store. */
  datatype Progress<S> = Progress(out: seq<ListHead>, ps: seq<ListHead>, qs: seq<ListHead>, size: nat, store: Store<S>)

  ghost predicate Fine<S>(g: Progress<S>) {
    Known(g.store, g.ps) && Known(g.store, g.qs)
  }

  /** What a merge in progress comes to: the output once it is complete, the store then, and the nodes left for later. */
  ghost function Outcome<S>(cmp: Comparison<S>, g: Progress<S>): (Sorting<S>, seq<ListHead>)
    requires Fine(g)
  {
    var e := Min(g.size, |g.qs|);
    var r := Merge(cmp, g.store, g.ps, g.qs[..e]);
    (Sorting(g.out + r.nodes, r.store), g.qs[e..])
  }

  /** Both inputs have a next node, and they are compared. */
  ghost predicate Compares<S>(g: Progress<S>) {
    g.ps != [] && g.qs != [] && g.size > 0
  }

  ghost function Tested<S>(cmp: Comparison<S>, g: Progress<S>): (r: Store<S>)
    requires Fine(g)
    ensures r.info.Keys == g.store.info.Keys
  {
    if Compares(g) then Compare(cmp, g.store, g.ps[0], g.qs[0]) else g.store
  }

  ghost predicate Front<S>(cmp: Comparison<S>, g: Progress<S>)
    requires Fine(g)
  {
    if Compares(g) then MayStay(cmp, g.store, g.ps[0], g.qs[0]) else g.ps != []
  }

  /** The next node comes from the one input or from the other. */
  ghost function Advanced<S>(cmp: Comparison<S>, g: Progress<S>): (r: Progress<S>)
    requires Fine(g) && (g.ps != [] || (g.qs != [] && g.size > 0))
    ensures Fine(r)
  {
    if Front(cmp, g) then Progress(g.out + [g.ps[0]], g.ps[1..], g.qs, g.size, Tested(cmp, g))
    else Progress(g.out + [g.qs[0]], g.ps, g.qs[1..], g.size - 1, Tested(cmp, g))
  }

  lemma StepP<S>(cmp: Comparison<S>, g: Progress<S>)
    requires Fine(g) && g.ps != [] && Front(cmp, g)
    ensures Outcome(cmp, Advanced(cmp, g)) == Outcome(cmp, g)
  {
    var e := Min(g.size, |g.qs|);
    var rest := Merge(cmp, Tested(cmp, g), g.ps[1..], g.qs[..e]);
    assert Merge(cmp, g.store, g.ps, g.qs[..e]) == Sorting([g.ps[0]] + rest.nodes, rest.store);
    assert (g.out + [g.ps[0]]) + rest.nodes == g.out + ([g.ps[0]] + rest.nodes);
  }

  lemma StepQ<S>(cmp: Comparison<S>, g: Progress<S>)
    requires Fine(g) && g.qs != [] && g.size > 0 && !Front(cmp, g)
    ensures Outcome(cmp, Advanced(cmp, g)) == Outcome(cmp, g)
  {
    var e := Min(g.size, |g.qs|);
    assert g.qs[1..][..e - 1] == g.qs[..e][1..];
    var rest := Merge(cmp, Tested(cmp, g), g.ps, g.qs[1..][..e - 1]);
    assert Merge(cmp, g.store, g.ps, g.qs[..e]) == Sorting([g.qs[0]] + rest.nodes, rest.store);
    assert (g.out + [g.qs[0]]) + rest.nodes == g.out + ([g.qs[0]] + rest.nodes) && g.qs[1..][e - 1..] == g.qs[e..];
  }

  /** The call of the comparison: it writes to the data of both nodes and to the results. */
  method CallCompare<S>(cmp: Comparison<S>, p: ListHead, q: ListHead, res: S, ghost st: Store<S>) returns (stay: bool, res': S)
    requires p != q && p in st.info && q in st.info && Holds(st) && st.res == res
    modifies p`info, q`info
    ensures Holds(Compare(cmp, st, p, q)) && res' == Compare(cmp, st, p, q).res
    ensures stay <==> MayStay(cmp, st, p, q)
  {
    var c := cmp(p.info, q.info, res);
    p.info := c.left;
    q.info := c.right;
    stay, res' := c.verdict <= 0, c.res;
  }

  /** Decides which input the next node comes from; on a tie it is `p`. */
  method FromP<S>(cmp: Comparison<S>, res: S, p: ListHead?, q: ListHead?, psize: nat, qsize: nat, ghost list: ListHead?, ghost tail: ListHead?,
                  ghost g: Progress<S>)
    returns (fromP: bool, res': S)
    requires Merging(g.store, g.out, list, tail, g.ps, p, g.qs, q) && |g.ps| == psize && g.size == qsize && g.store.res == res
    requires psize > 0 || (qsize > 0 && q != null)
    modifies g.store.info.Keys`info
    ensures Merging(Tested(cmp, g), g.out, list, tail, g.ps, p, g.qs, q) && res' == Tested(cmp, g).res
    ensures fromP <==> Front(cmp, g)
    ensures if fromP then g.ps != [] else g.qs != [] && g.size > 0
  {
    res' := res;
    if psize == 0 {
      fromP := false;
    } else if qsize == 0 || q == null {
      fromP := true;
    } else {
      fromP, res' := CallCompare(cmp, p, q, res, g.store);
    }
  }

  /** One turn of the innermost loop: the next node is the front of `p` or of `q`. */
  method MergeNext<S>(cmp: Comparison<S>, res: S, p: ListHead?, q: ListHead?, psize: nat, qsize: nat, list: ListHead?, tail: ListHead?,
                      ghost g: Progress<S>)
    returns (res': S, p': ListHead?, q': ListHead?, psize': nat, qsize': nat, list': ListHead, tail': ListHead, ghost g': Progress<S>)
    requires Merging(g.store, g.out, list, tail, g.ps, p, g.qs, q) && |g.ps| == psize && g.size == qsize && g.store.res == res
    requires psize > 0 || (qsize > 0 && q != null)
    modifies g.store.info.Keys
    ensures Merging(g'.store, g'.out, list', tail', g'.ps, p', g'.qs, q') && |g'.ps| == psize' && g'.size == qsize' && g'.store.res == res'
    ensures g'.store.info.Keys == g.store.info.Keys && psize' + qsize' < psize + qsize && g'.out != []
    ensures Outcome(cmp, g') == Outcome(cmp, g)
  {
    p', q', psize', qsize' := p, q, psize, qsize;
    var fromP;
    fromP, res' := FromP(cmp, res, p, q, psize, qsize, list, tail, g);
    g' := Advanced(cmp, g);
    if fromP {
      StepP(cmp, g);
      p', list', tail' := TakeP(p, list, tail, q, g'.store, g.out, g.ps, g.qs);
      psize' := psize - 1;
    } else {
      StepQ(cmp, g);
      q', list', tail' := TakeQ(q, list, tail, p, g'.store, g.out, g.ps, g.qs);
      qsize' := qsize - 1;
    }
  }

  /** When the innermost loop ends, the merge is complete. */
  lemma MergeEnds<S>(cmp: Comparison<S>, g: Progress<S>, list: ListHead?, tail: ListHead?, p: ListHead?, q: ListHead?)
    requires Merging(g.store, g.out, list, tail, g.ps, p, g.qs, q) && g.ps == [] && g.out != [] && (g.size == 0 || q == null)
    ensures list != null && tail != null
    ensures var o := Outcome(cmp, g); o.0.store == g.store && Merging(o.0.store, o.0.nodes, list, tail, [], null, o.1, q)
  {
    assert g.out + g.qs[..0] == g.out && g.qs[0..] == g.qs;
  }

  /** The innermost loop: merges the run of `psize0` nodes at `p0` with the one of at most `qsize0` nodes at `q0`
      behind `tail0`. Returns where the rest of the list starts. */
  method MergeRuns<S>(cmp: Comparison<S>, res0: S, p0: ListHead, q0: ListHead?, psize0: nat, qsize0: nat, list0: ListHead?, tail0: ListHead?,
                      ghost g0: Progress<S>)
    returns (res: S, rest: ListHead?, list: ListHead, tail: ListHead)
    requires Merging(g0.store, g0.out, list0, tail0, g0.ps, p0, g0.qs, q0) && g0.store.res == res0
    requires |g0.ps| == psize0 > 0 && g0.size == qsize0
    modifies g0.store.info.Keys
    ensures var o := Outcome(cmp, g0);
      Merging(o.0.store, o.0.nodes, list, tail, [], null, o.1, rest) && o.0.store.res == res
  {
    var p: ListHead?, q, psize, qsize: nat, l: ListHead?, t: ListHead? := p0, q0, psize0, qsize0, list0, tail0;
    res := res0;
    ghost var g := g0;
    while psize > 0 || (qsize > 0 && q != null)
      invariant Merging(g.store, g.out, l, t, g.ps, p, g.qs, q) && g.store.res == res && g.store.info.Keys == g0.store.info.Keys
      invariant psize == |g.ps| && qsize == g.size && (g.out != [] || psize > 0)
      invariant Outcome(cmp, g) == Outcome(cmp, g0)
      decreases psize + qsize
    {
      res, p, q, psize, qsize, l, t, g := MergeNext(cmp, res, p, q, psize, qsize, l, t, g);
    }
    MergeEnds(cmp, g, l, t, p, q);
    rest, list, tail := q, l, t;
  }

  /** Steps at most `insize` nodes along from `p`, counting them. */
  method StepAlong(p: ListHead, insize: nat, ghost s: seq<ListHead>) returns (q: ListHead?, psize: nat)
    requires insize > 0 && s != [] && Input(s, p, true)
    ensures psize == Min(insize, |s|)
    ensures q == if psize < |s| then s[psize] else null
  {
    var el: ListHead? := p;
    psize := 0;
    while psize < insize && el != null
      invariant psize <= insize && psize <= |s|
      invariant el == if psize < |s| then s[psize] else null
      decreases insize - psize
    {
      psize := psize + 1;
      el := el.next;
    }
    q := el;
  }

  lemma SplitInput<S>(st: Store<S>, out: seq<ListHead>, list: ListHead?, tail: ListHead?, s: seq<ListHead>, p: ListHead, n: nat, q: ListHead?)
    requires Merging(st, out, list, tail, [], null, s, p) && 0 < n <= |s|
    requires q == if n < |s| then s[n] else null
    ensures Merging(st, out, list, tail, s[..n], p, s[n..], q)
  {
  }

  lemma Slices(s: seq<ListHead>, n: nat, e: nat)
    requires n + e <= |s|
    ensures s[n..][..e] == s[n..n + e] && s[n..][e..] == s[n + e..]
  {
  }

  /** The first turn of a pass over `s`, behind the output `out`. */
  ghost function Turn<S>(out: seq<ListHead>, w: nat, s: seq<ListHead>, st: Store<S>): (g: Progress<S>)
    requires w > 0 && Known(st, s)
    ensures Fine(g)
  {
    var n := Min(w, |s|);
    Progress(out, s[..n], s[n..], w, st)
  }

  /** A pass over what is left of the list, behind the output so far. */
  ghost function PassFrom<S>(cmp: Comparison<S>, out: seq<ListHead>, w: nat, s: seq<ListHead>, st: Store<S>): Sorting<S>
    requires w > 0 && Known(st, s)
  {
    var r := Pass(cmp, st, w, s);
    Sorting(out + r.nodes, r.store)
  }

  /** One turn of a pass is one step of `Pass`. */
  lemma PassStep<S>(cmp: Comparison<S>, out: seq<ListHead>, w: nat, s: seq<ListHead>, st: Store<S>)
    requires w > 0 && Known(st, s) && s != []
    ensures var o := Outcome(cmp, Turn(out, w, s, st));
      && o.1 == s[Min(2 * w, |s|)..] && o.0.store.info.Keys == st.info.Keys && Known(o.0.store, o.1)
      && PassFrom(cmp, o.0.nodes, w, o.1, o.0.store) == PassFrom(cmp, out, w, s, st)
  {
    var n, m := Min(w, |s|), Min(2 * w, |s|);
    var e := Min(w, |s[n..]|);
    Slices(s, n, e);
    assert n + e == m;
    var first := Merge(cmp, st, s[..n], s[n..m]);
    var rest := Pass(cmp, first.store, w, s[m..]);
    assert (out + first.nodes) + rest.nodes == out + (first.nodes + rest.nodes);
  }

  /** One turn of a pass: steps along and merges the next two runs. */
  method PassTurn<S>(cmp: Comparison<S>, res: S, p: ListHead, list: ListHead?, tail: ListHead?, insize: nat,
                     ghost st: Store<S>, ghost out: seq<ListHead>, ghost s: seq<ListHead>)
    returns (res': S, rest: ListHead?, list': ListHead, tail': ListHead, ghost st': Store<S>, ghost out': seq<ListHead>)
    requires insize > 0 && s != [] && Merging(st, out, list, tail, [], null, s, p) && st.res == res
    modifies st.info.Keys
    ensures Merging(st', out', list', tail', [], null, s[Min(2 * insize, |s|)..], rest) && out' != []
    ensures st'.info.Keys == st.info.Keys && st'.res == res'
    ensures PassFrom(cmp, out', insize, s[Min(2 * insize, |s|)..], st') == PassFrom(cmp, out, insize, s, st)
  {
    var q, psize := StepAlong(p, insize, s);
    SplitInput(st, out, list, tail, s, p, psize, q);
    PassStep(cmp, out, insize, s, st);
    ghost var g := Turn(out, insize, s, st);
    out', st' := Outcome(cmp, g).0.nodes, Outcome(cmp, g).0.store;
    res', rest, list', tail' := MergeRuns(cmp, res, p, q, psize, insize, list, tail, g);
  }

  method Terminate<S>(list: ListHead?, tail: ListHead?, ghost st: Store<S>, ghost out: seq<ListHead>, ghost p: ListHead?)
    requires out != [] && Merging(st, out, list, tail, [], null, [], p)
    modifies st.info.Keys`next
    ensures IsList(list, out) && Holds(st)
  {
    tail.next := null;
  }

  /** The runs merged so far are `out`; those of `rem` are still to be merged. */
  ghost predicate PassSoFar<S>(cmp: Comparison<S>, w: nat, s: seq<ListHead>, st0: Store<S>, out: seq<ListHead>, rem: seq<ListHead>, st: Store<S>, nmerges: nat)
    requires w > 0 && Known(st0, s) && Known(st, rem)
  {
    && PassFrom(cmp, out, w, rem, st) == Pass(cmp, st0, w, s)
    && st.info.Keys == st0.info.Keys && nmerges + Merges(w, |rem|) == Merges(w, |s|)
  }

  lemma PassStarts<S>(cmp: Comparison<S>, st: Store<S>, s: seq<ListHead>, list: ListHead, w: nat)
    requires w > 0 && Known(st, s) && Holds(st) && IsList(list, s)
    ensures Merging(st, [], null, null, [], null, s, list) && PassSoFar(cmp, w, s, st, [], s, st, 0)
  {
    assert [] + Pass(cmp, st, w, s).nodes == Pass(cmp, st, w, s).nodes;
  }

  lemma PassEnds<S>(cmp: Comparison<S>, w: nat, s: seq<ListHead>, st0: Store<S>, out: seq<ListHead>, st: Store<S>, nmerges: nat)
    requires w > 0 && Known(st0, s) && PassSoFar(cmp, w, s, st0, out, [], st, nmerges)
    ensures Sorting(out, st) == Pass(cmp, st0, w, s) && nmerges == Merges(w, |s|)
  {
    assert out + [] == out;
  }

  lemma InputLeft<S>(st: Store<S>, out: seq<ListHead>, list: ListHead?, tail: ListHead?, rem: seq<ListHead>, p: ListHead?)
    requires Merging(st, out, list, tail, [], null, rem, p)
    ensures p == null <==> rem == []
  {
  }

  lemma TurnCounts(w: nat, n: nat)
    requires w > 0 && n > 0
    ensures Merges(w, n) == 1 + Merges(w, n - Min(2 * w, n))
  {
  }

  /** One pass of the sort over runs of `insize` nodes; returns the number of merges made. */
  method MergePass<S>(cmp: Comparison<S>, res0: S, list0: ListHead, insize: nat, ghost st0: Store<S>, ghost s: seq<ListHead>)
    returns (res: S, list: ListHead, nmerges: nat)
    requires insize > 0 && s != [] && Known(st0, s) && Holds(st0) && st0.res == res0 && IsList(list0, s)
    modifies st0.info.Keys
    ensures var r := Pass(cmp, st0, insize, s); IsList(list, r.nodes) && Holds(r.store) && r.store.res == res
    ensures nmerges == Merges(insize, |s|)
  {
    var p: ListHead?, l: ListHead?, t: ListHead? := list0, null, null;
    nmerges, res := 0, res0;
    ghost var out, rem, st := [], s, st0;
    PassStarts(cmp, st, s, list0, insize);
    while p != null
      invariant Merging(st, out, l, t, [], null, rem, p) && (out != [] || rem != []) && st.res == res
      invariant PassSoFar(cmp, insize, s, st0, out, rem, st, nmerges)
      decreases |rem|
    {
      InputLeft(st, out, l, t, rem, p);
      TurnCounts(insize, |rem|);
      nmerges := nmerges + 1;
      res, p, l, t, st, out := PassTurn(cmp, res, p, l, t, insize, st, out, rem);
      rem := rem[Min(2 * insize, |rem|)..];
    }
    InputLeft(st, out, l, t, rem, p);
    PassEnds(cmp, insize, s, st0, out, st, nmerges);
    Terminate(l, t, st, out, p);
    list := l;
  }

  /** The data of a list before the sort. */
  ghost function StoreOf<S>(s: seq<ListHead>, res: S): (st: Store<S>)
    reads s`info
    ensures st.info.Keys == Members(s) && Known(st, s) && st.res == res && Holds(st)
  {
    Store(map x | x in s :: x.info, res)
  }

  /** The outer loop: passes over ever wider runs until one merge is enough. */
  method SortPasses<S>(list0: ListHead, cmp: Comparison<S>, res0: S, ghost st0: Store<S>, ghost s: seq<ListHead>)
    returns (list: ListHead, res: S)
    requires s != [] && Known(st0, s) && Holds(st0) && st0.res == res0 && IsList(list0, s)
    modifies st0.info.Keys
    ensures var r := Sort(cmp, st0, 1, s); IsList(list, r.nodes) && Holds(r.store) && r.store.res == res
  {
    var insize, nmerges := 1, 2;
    list, res := list0, res0;
    ghost var g := Sorting(s, st0);
    while true
      invariant insize > 0 && g.nodes != [] && Known(g.store, g.nodes) && g.store.info.Keys == st0.info.Keys
      invariant IsList(list, g.nodes) && Holds(g.store) && g.store.res == res
      invariant Sort(cmp, g.store, insize, g.nodes) == Sort(cmp, st0, 1, s)
      decreases |g.nodes| - insize
    {
      MergesAtMostOne(insize, |g.nodes|);
      res, list, nmerges := MergePass(cmp, res, list, insize, g.store, g.nodes);
      g := Pass(cmp, g.store, insize, g.nodes);
      if nmerges <= 1 {
        return;
      }
      insize := insize * 2;
    }
  }

  /** Sorts a non-empty null-terminated list in place, with any comparison: the sort ends with exactly the same nodes, and with
      the data and results that the comparisons leave. If they go by an order, the list is stably sorted in it for that data,
      and no comparison changes the place of any of them any more once there are two nodes. */
  method MergeSort<S(!new)>(list0: ListHead, cmp: Comparison<S>, res0: S, ghost s: seq<ListHead>)
    returns (list: ListHead, res: S, ghost sorted: seq<ListHead>, ghost st: Store<S>)
    requires s != [] && IsList(list0, s)
    modifies s
    ensures Sorting(sorted, st) == Sort(cmp, old(StoreOf(s, res0)), 1, s)
    ensures IsList(list, sorted) && multiset(sorted) == multiset(s) && Known(st, sorted) && Holds(st) && st.res == res
    ensures forall o :: Obeys(cmp, o) ==> SortedStably(o, s, st, sorted) && (|s| > 1 ==> AllSettled(o, st, sorted))
  {
    ghost var st0 := StoreOf(s, res0);
    ghost var r := Sort(cmp, st0, 1, s);
    sorted, st := r.nodes, r.store;
    SortKeepsNodes(cmp, st0, 1, s);
    forall o | Obeys(cmp, o) ensures SortedStably(o, s, st, sorted) && (|s| > 1 ==> AllSettled(o, st, sorted)) {
      SortSorts(o, cmp, st0, s);
    }
    list, res := SortPasses(list0, cmp, res0, st0, s);
  }

  // ----- reversal, and remove with its undo -----

  ghost function Reversed(s: seq<ListHead>): (r: seq<ListHead>)
    ensures |r| == |s| && forall k :: 0 <= k < |s| ==> r[k] == s[|s| - 1 - k]
  {
    seq(|s|, k requires 0 <= k < |s| => s[|s| - 1 - k])
  }

  lemma TurnedRound(s: seq<ListHead>, r: ListHead?)
    requires Distinct(s) && (forall k {:trigger s[k].next} :: 0 < k < |s| ==> s[k].next == s[k - 1])
    requires if s == [] then r == null else s[0].next == null && r == s[|s| - 1]
    ensures IsList(r, Reversed(s))
  {
    var t := Reversed(s);
    forall k | 0 <= k && k + 1 < |t| ensures t[k].next == t[k + 1] {
      assert t[k] == s[|s| - 1 - k] && t[k + 1] == s[|s| - 2 - k];
    }
  }

  /** Reverses a list by turning its links round. */
  method Reverse(list0: ListHead?, ghost s: seq<ListHead>) returns (r: ListHead?)
    requires IsList(list0, s)
    modifies s`next
    ensures IsList(r, Reversed(s))
  {
    var list: ListHead?, next: ListHead? := list0, null;
    ghost var i := 0;
    while list != null
      invariant i <= |s| && list == if i < |s| then s[i] else null
      invariant next == if i == 0 then null else s[i - 1]
      invariant forall k {:trigger s[k].next} :: i <= k && k + 1 < |s| ==> s[k].next == s[k + 1]
      invariant i < |s| ==> s[|s| - 1].next == null
      invariant forall k {:trigger s[k].next} :: 0 < k < i ==> s[k].next == s[k - 1]
      invariant i > 0 ==> s[0].next == null
      decreases |s| - i
    {
      var tmp := list.next;
      list.next := next;
      next := list;
      list := tmp;
      i := i + 1;
    }
    r := next;
    TurnedRound(s, r);
  }

  /** Takes the item after `item` out of the list, after exchanging their data: the data of `item` leaves. */
  method Remove(item: ListHead, ghost s: seq<ListHead>, ghost k: nat) returns (ret: ListHead)
    requires k + 1 < |s| && item == s[k] && Distinct(s) && Linked(s)
    modifies item, s[k + 1]
    ensures ret == s[k + 1] && ret.next == null && item.next == old(ret.next)
    ensures item.info == old(ret.info) && ret.info == old(item.info)
  {
    ret := item.next;
    var tmp := item.info;
    item.info := ret.info;
    ret.info := tmp;
    item.next := item.next.next;
    ret.next := null;
  }

  method UndoRemove(removed: ListHead, modified: ListHead) returns (r: ListHead)
    requires removed != modified
    modifies removed, modified
    ensures r == removed && modified.next == removed && removed.next == old(modified.next)
    ensures removed.info == old(modified.info) && modified.info == old(removed.info)
  {
    var tmp := removed.info;
    removed.info := modified.info;
    modified.info := tmp;
    removed.next := modified.next;
    modified.next := removed;
    r := removed;
  }

  /** Undoing a removal restores every link and every datum of the list. */
  method RemoveThenUndo(item: ListHead, ghost s: seq<ListHead>, ghost k: nat)
    requires k + 1 < |s| && item == s[k] && Distinct(s) && Linked(s)
    modifies item, s[k + 1]
    ensures forall x :: x in s ==> x.next == old(x.next) && x.info == old(x.info)
  {
    var ret := Remove(item, s, k);
    var _ := UndoRemove(ret, item);
  }
}
