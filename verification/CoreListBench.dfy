/** The list benchmark of CoreMark (coremark/core_list_join.c): its two comparisons, which write to the data they compare, and
    the function that searches, reverses, sorts by data and sorts by index. The algorithms a comparison may run, and the
    checksum, are parameters. */
module CoreListBench {
  import opened Basics
  import opened CoreListSort

  /** The results of the benchmark; `memory` is what the algorithms work on. */
  datatype Results<M> = Results(crc: Word, crcstate: Word, crcmatrix: Word, memory: M)

  /** The state machine and the matrix algorithm, from an argument, the checksum so far and memory; and one step of the checksum. */
  datatype Algorithms<!M> = Algorithms(state: (Word, Word, M) -> (Word, M), matrix: (Word, Word, M) -> (Word, M),
                                       crcu16: (Word, Word) -> Word)

  predicate Cached(d: Word) {
    d / 128 % 2 == 1
  }

  function Value(d: Word): Word {
    d % 128
  }

  /** The byte from which the data is rebuilt. */
  function Backup(d: Word): Word {
    d - d % 256
  }

  /** The data with a value cached. */
  function Stamped(d: Word, v: Word): Word {
    Backup(d) + 128 + Value(v)
  }

  datatype Calculated<M> = Calculated(value: Word, data: Word, res: Results<M>)

  function RunState<M>(alg: Algorithms<M>, dtype: Word, res: Results<M>): (Word, Results<M>) {
    var (v, m) := alg.state(if dtype < 0x22 then 0x22 else dtype, res.crc, res.memory);
    (v, res.(memory := m, crcstate := if res.crcstate == 0 then v else res.crcstate))
  }

  function RunMatrix<M>(alg: Algorithms<M>, dtype: Word, res: Results<M>): (Word, Results<M>) {
    var (v, m) := alg.matrix(dtype, res.crc, res.memory);
    (v, res.(memory := m, crcmatrix := if res.crcmatrix == 0 then v else res.crcmatrix))
  }

  /** calc_func: the cached value, or the value of the function that the data names, which is then cached. */
  function CalcFunc<M>(alg: Algorithms<M>, data: Word, res: Results<M>): (r: Calculated<M>) {
    if Cached(data) then Calculated(Value(data), data, res)
    else
      var dtype := data / 8 % 16 * 17;
      var (v, res') :=
        if data % 8 == 0 then RunState(alg, dtype, res)
        else if data % 8 == 1 then RunMatrix(alg, dtype, res)
        else (data, res);
      Calculated(Value(v), Stamped(data, v), res'.(crc := alg.crcu16(v, res'.crc)))
  }

  function CmpComplex<M>(alg: Algorithms<M>, a: ListData, b: ListData, res: Results<M>): Compared<Results<M>> {
    var x := CalcFunc(alg, a.data16, res);
    var y := CalcFunc(alg, b.data16, x.res);
    Compared(x.value - y.value, a.(data16 := x.data), b.(data16 := y.data), y.res)
  }

  function Regenerated(d: Word): Word {
    d / 256 * 257
  }

  /** Without results passed, the data is rebuilt. */
  function CmpIdx<R>(noResults: bool, a: ListData, b: ListData, res: R): Compared<R> {
    Compared(a.idx - b.idx,
             if noResults then a.(data16 := Regenerated(a.data16)) else a,
             if noResults then b.(data16 := Regenerated(b.data16)) else b, res)
  }

  function Complex<M>(alg: Algorithms<M>): Comparison<Results<M>> {
    (a, b, res) => CmpComplex(alg, a, b, res)
  }

  function Idx<R>(noResults: bool): Comparison<R> {
    (a, b, res) => CmpIdx(noResults, a, b, res)
  }

  // ----- both comparisons go by an order -----

  ghost function ByValue(): Order {
    Order((a: ListData, b: ListData) => Value(a.data16) <= Value(b.data16), (a: ListData) => Cached(a.data16))
  }

  ghost function ByIdx(noResults: bool): Order {
    Order((a: ListData, b: ListData) => a.idx <= b.idx, (a: ListData) => noResults ==> Regenerated(a.data16) == a.data16)
  }

  lemma StampedIs(d: Word, v: Word)
    ensures Cached(Stamped(d, v)) && Value(Stamped(d, v)) == Value(v) && Backup(Stamped(d, v)) == Backup(d)
  {
    var b := d / 256;
    assert Stamped(d, v) == 256 * b + (128 + Value(v));
    assert Stamped(d, v) / 128 == 2 * b + 1;
  }

  /** What calc_func leaves is cached, with the value it returns; what was cached it does not touch. */
  lemma CachedIs<M>(alg: Algorithms<M>, data: Word, res: Results<M>)
    ensures var r := CalcFunc(alg, data, res);
      && Cached(r.data) && Value(r.data) == r.value && Backup(r.data) == Backup(data)
      && (Cached(data) ==> r.data == data && r.res == res)
  {
    hide Cached, Value, Backup, Stamped;
    forall v ensures Cached(Stamped(data, v)) && Value(Stamped(data, v)) == Value(v) && Backup(Stamped(data, v)) == Backup(data) {
      StampedIs(data, v);
    }
  }

  /** The value `v`, calculated from `data`, has gone into the checksum, and is kept if it is the first other than 0 of its algorithm. */
  ghost predicate Noted<M>(alg: Algorithms<M>, data: Word, v: Word, res: Results<M>, r: Results<M>) {
    && r.crc == alg.crcu16(v, res.crc)
    && r.crcstate == (if data % 8 == 0 && res.crcstate == 0 then v else res.crcstate)
    && r.crcmatrix == (if data % 8 == 1 && res.crcmatrix == 0 then v else res.crcmatrix)
  }

  /** What calc_func writes to the results: a value that was not cached is noted once, as it was before it was cut to seven bits, and
      memory changes only if an algorithm is run. */
  lemma CalcWrites<M>(alg: Algorithms<M>, data: Word, res: Results<M>)
    ensures var r := CalcFunc(alg, data, res);
      && (!Cached(data) ==> exists v: Word :: Value(v) == r.value && Noted(alg, data, v, res, r.res))
      && (Cached(data) || data % 8 > 1 ==> r.res.memory == res.memory)
  {
    hide Cached, Value, Stamped;
    var dtype := data / 8 % 16 * 17;
    var v := if data % 8 == 0 then RunState(alg, dtype, res).0 else if data % 8 == 1 then RunMatrix(alg, dtype, res).0 else data;
    assert !Cached(data) ==> CalcFunc(alg, data, res).value == Value(v);
  }

  /** cmp_complex goes by the values that it caches. */
  lemma ComplexObeys<M(!new)>(alg: Algorithms<M>)
    ensures Obeys(Complex(alg), ByValue())
  {
    hide CalcFunc, Cached, Value, Backup;
    var cmp, o := Complex(alg), ByValue();
    forall a, b, r ensures Settles(o, a, b, cmp(a, b, r)) {
      CachedIs(alg, a.data16, r);
      CachedIs(alg, b.data16, CalcFunc(alg, a.data16, r).res);
    }
  }

  /** cmp_idx goes by the index, and without results rebuilds the data. */
  lemma IdxObeys<R(!new)>(noResults: bool)
    ensures Obeys(Idx<R>(noResults), ByIdx(noResults))
  {
    hide Regenerated, Backup;
    forall d ensures Regenerated(Regenerated(d)) == Regenerated(d) { RegeneratedIs(d); }
  }

  lemma RegeneratedIs(d: Word)
    ensures Regenerated(Regenerated(d)) == Regenerated(d)
  {
    assert Regenerated(d) / 256 == d / 256;
  }

  // ----- what both comparisons do to data -----

  /** What cmp_complex does to data, if anything: it caches a value that was not cached, next to the same backup. Most data names
      no algorithm and is its own value. */
  ghost predicate Caches(a: ListData, b: ListData) {
    || b == a
    || (&& !Cached(a.data16) && Cached(b.data16) && Backup(b.data16) == Backup(a.data16) && b.idx == a.idx
        && (a.data16 % 8 >= 2 ==> Value(b.data16) == Value(a.data16)))
  }

  /** What cmp_idx without results does to data, if anything. */
  ghost predicate Rebuilds(a: ListData, b: ListData) {
    b == a || b == a.(data16 := Regenerated(a.data16))
  }

  lemma CachesOnce<M>(alg: Algorithms<M>, a: ListData, res: Results<M>)
    ensures Caches(a, a.(data16 := CalcFunc(alg, a.data16, res).data))
  {
    CachedIs(alg, a.data16, res);
    hide Cached, Value, Backup, Stamped;
    StampedIs(a.data16, a.data16);
  }

  lemma ComplexCaches<M(!new)>(alg: Algorithms<M>)
    ensures Only(Complex(alg), Caches)
  {
    hide CalcFunc, Caches;
    forall a ensures Caches(a, a) { CachesTwice(a, a, a); }
    forall a, b, c | Caches(a, b) && Caches(b, c) ensures Caches(a, c) { CachesTwice(a, b, c); }
    var cmp := Complex(alg);
    forall a, b, r ensures Caches(a, cmp(a, b, r).left) && Caches(b, cmp(a, b, r).right) {
      CachesOnce(alg, a, r);
      CachesOnce(alg, b, CalcFunc(alg, a.data16, r).res);
    }
  }

  lemma CachesTwice(a: ListData, b: ListData, c: ListData)
    ensures Caches(a, a) && (Caches(a, b) && Caches(b, c) ==> Caches(a, c))
  {
  }

  lemma IdxRebuilds<R(!new)>()
    ensures Only(Idx<R>(true), Rebuilds)
  {
    hide Regenerated;
    forall d ensures Regenerated(Regenerated(d)) == Regenerated(d) { RegeneratedIs(d); }
  }

  // ----- the two sorts of the benchmark -----

  /** In order of cached values, and of position in `at` among equal ones. */
  ghost predicate SortedByValue<S>(at: seq<ListHead>, st: Store<S>, s: seq<ListHead>)
    requires Known(st, s)
  {
    forall j, k :: 0 <= j < k < |s| ==>
      var v, w := Value(st.info[s[j]].data16), Value(st.info[s[k]].data16);
      v < w || (v == w && Position(at, s[j]) < Position(at, s[k]))
  }

  ghost predicate SortedByIdx<S>(at: seq<ListHead>, st: Store<S>, s: seq<ListHead>)
    requires Known(st, s)
  {
    forall j, k :: 0 <= j < k < |s| ==>
      var v, w := st.info[s[j]].idx, st.info[s[k]].idx;
      v < w || (v == w && Position(at, s[j]) < Position(at, s[k]))
  }

  /** The sort by data: stable, by the values that calc_func caches; with two nodes or more every node is cached. */
  lemma SortByData<M(!new)>(alg: Algorithms<M>, st: Store<Results<M>>, s: seq<ListHead>)
    requires Known(st, s) && Distinct(s)
    ensures var r := Sort(Complex(alg), st, 1, s);
      && multiset(r.nodes) == multiset(s) && SortedByValue(s, r.store, r.nodes) && Changed(Caches, st, r.store)
      && (|s| > 1 ==> forall k :: 0 <= k < |s| ==> Cached(r.store.info[r.nodes[k]].data16))
  {
    hide Obeys, Sort, Caches, Changed, Value, Cached, Position, Distinct, Only;
    ComplexObeys(alg);
    ComplexCaches(alg);
    SortSorts(ByValue(), Complex(alg), st, s);
    SortChanges(Complex(alg), Caches, st, 1, s);
    var r := Sort(Complex(alg), st, 1, s);
    forall j, k | 0 <= j < k < |s| ensures Precedes(ByValue(), s, r.store, r.nodes[j], r.nodes[k]) {}
  }

  /** The sort by index: stable; with two nodes or more all data is rebuilt from its backup. */
  lemma SortByIdx<R(!new)>(st: Store<R>, s: seq<ListHead>)
    requires Known(st, s) && Distinct(s)
    ensures var r := Sort(Idx<R>(true), st, 1, s);
      && multiset(r.nodes) == multiset(s) && SortedByIdx(s, r.store, r.nodes) && Changed(Rebuilds, st, r.store)
      && (|s| > 1 ==> forall k :: 0 <= k < |s| ==> r.store.info[r.nodes[k]] == st.info[r.nodes[k]].(data16 := Regenerated(st.info[r.nodes[k]].data16)))
  {
    hide Obeys, Sort, Regenerated, Position, Distinct, Only;
    IdxObeys<R>(true);
    IdxRebuilds<R>();
    SortSorts(ByIdx(true), Idx<R>(true), st, s);
    SortChanges(Idx<R>(true), Rebuilds, st, 1, s);
    var r := Sort(Idx<R>(true), st, 1, s);
    forall j, k | 0 <= j < k < |s| ensures Precedes(ByIdx(true), s, r.store, r.nodes[j], r.nodes[k]) {}
    if |s| > 1 {
      forall k | 0 <= k < |s| ensures r.store.info[r.nodes[k]] == st.info[r.nodes[k]].(data16 := Regenerated(st.info[r.nodes[k]].data16)) {
        var x := r.nodes[k];
        assert Rebuilds(st.info[x], r.store.info[x]);
        assert ByIdx(true).settled(r.store.info[x]);
      }
    }
  }

  // ----- the benchmark -----

  /** Whatever the order of the nodes before it, a sort by index gives back a list exactly if that is in order of index and, for equal
      ones, of the order before the sort. */
  lemma RestoresIff<S>(before: seq<ListHead>, st: Store<S>, s: seq<ListHead>, t: seq<ListHead>)
    requires Known(st, s) && Known(st, t) && multiset(s) == multiset(t) && SortedByIdx(before, st, t)
    ensures t == s <==> SortedByIdx(before, st, s)
  {
    if SortedByIdx(before, st, s) {
      SortedStablyIsUnique(ByIdx(true), before, st, s, t);
    }
  }

  ghost predicate IdxAscends<S>(st: Store<S>, s: seq<ListHead>)
    requires Known(st, s)
  {
    forall j, k :: 0 <= j < k < |s| ==> st.info[s[j]].idx <= st.info[s[k]].idx
  }

  ghost predicate NoTies<S>(st: Store<S>, s: seq<ListHead>)
    requires Known(st, s)
  {
    forall j, k :: 0 <= j < k < |s| ==> st.info[s[j]].idx != st.info[s[k]].idx
  }

  /** A list in order of index that is turned round and sorted by index is as it was if and only if no two indices are equal. */
  lemma TurnedRoundRestoresIff<S>(st: Store<S>, s: seq<ListHead>, t: seq<ListHead>)
    requires Known(st, s) && Known(st, t) && Distinct(s) && multiset(s) == multiset(t)
    requires IdxAscends(st, s) && SortedByIdx(Reversed(s), st, t)
    ensures t == s <==> NoTies(st, s)
  {
    hide Position;
    RestoresIff(Reversed(s), st, s, t);
    forall j, k | 0 <= j < k < |s| ensures Position(Reversed(s), s[j]) > Position(Reversed(s), s[k]) {
      ReversedPosition(s, j);
      ReversedPosition(s, k);
    }
  }

  lemma ReversedPosition(s: seq<ListHead>, k: nat)
    requires Distinct(s) && k < |s|
    ensures Position(Reversed(s), s[k]) == |s| - 1 - k
  {
    hide Position;
    var r := Reversed(s);
    assert r[|s| - 1 - k] == s[k];
    PositionIs(r, |s| - 1 - k);
  }

  /** With different indices every order of the nodes before the sort leads back to the same list. */
  lemma NoTiesRestores<S>(before: seq<ListHead>, st: Store<S>, s: seq<ListHead>, t: seq<ListHead>)
    requires Known(st, s) && Known(st, t) && multiset(s) == multiset(t) && SortedByIdx(before, st, t)
    requires IdxAscends(st, s) && NoTies(st, s)
    ensures t == s
  {
    RestoresIff(before, st, s, t);
  }

  /** The index that core_list_init gives to the `i`-th node between the first and the last one of a list of `size` places. */
  function InitialIdx(size: nat, seed: bv16, i: bv16): bv16 {
    if i as nat < size / 5 then i
    else 0x3fff & ((((i + 1) & 0x07) << 8) | (i ^ seed))
  }

  /** Ties occur: with seed 6 the nodes 1 and 7 have the same index, and with seed 7 node 7 has that of the first of all. */
  lemma InitialTies()
    ensures InitialIdx(31, 6, 1) == InitialIdx(31, 6, 7) == 1 && InitialIdx(31, 7, 7) == 0
  {
    assert 1 as bv16 as nat == 1 && 7 as bv16 as nat == 7;
  }

  predicate Matches(x: ListData, info: ListData) {
    if info.idx >= 0 then x.idx == info.idx else x.data16 % 256 == info.data16
  }

  ghost predicate FirstMatch(s: seq<ListHead>, k: int, info: ListData)
    reads s`info
  {
    0 <= k < |s| && Matches(s[k].info, info) && forall j {:trigger s[j].info} :: 0 <= j < k ==> !Matches(s[j].info, info)
  }

  /** The first node with the index searched for, or with the data if that is negative. */
  method Find(list: ListHead?, info: ListData, ghost s: seq<ListHead>) returns (r: ListHead?)
    requires IsList(list, s)
    ensures r == null <==> forall k {:trigger s[k].info} :: 0 <= k < |s| ==> !Matches(s[k].info, info)
    ensures r != null ==> exists k :: FirstMatch(s, k, info) && r == s[k]
  {
    r := list;
    ghost var i := 0;
    while r != null && !Matches(r.info, info)
      invariant i <= |s| && r == if i < |s| then s[i] else null
      invariant forall k {:trigger s[k].info} :: 0 <= k < i ==> !Matches(s[k].info, info)
      decreases |s| - i
    {
      r := r.next;
      i := i + 1;
    }
  }

  /** The node behind the one at `k` moves behind the first one. */
  ghost function Promoted(s: seq<ListHead>, k: nat): seq<ListHead>
    requires k + 1 < |s|
  {
    if k == 0 then s else [s[0]] + [s[k + 1]] + s[1..k + 1] + s[k + 2..]
  }

  lemma PromotedNodes(s: seq<ListHead>, k: nat)
    requires k + 1 < |s|
    ensures multiset(Promoted(s, k)) == multiset(s)
  {
    if k > 0 {
      Parts(s, k);
      Exchanged([s[0]], s[1..k + 1], [s[k + 1]], s[k + 2..]);
    }
  }

  lemma Parts(s: seq<ListHead>, k: nat)
    requires 0 < k && k + 1 < |s|
    ensures s == [s[0]] + s[1..k + 1] + [s[k + 1]] + s[k + 2..]
  {
  }

  lemma Exchanged(a: seq<ListHead>, b: seq<ListHead>, c: seq<ListHead>, d: seq<ListHead>)
    ensures multiset(a + b + c + d) == multiset(a + c + b + d)
  {
  }

  lemma PromotedIs(head: ListHead, s: seq<ListHead>, k: nat)
    requires 0 < k && k + 1 < |s| && Distinct(s) && head == s[0] && s[0].next == s[k + 1] && s[k + 1].next == s[1]
    requires s[k].next == if k + 2 < |s| then s[k + 2] else null
    requires forall i {:trigger s[i].next} :: 0 < i && i + 1 < |s| && i != k && i != k + 1 ==> s[i].next == s[i + 1]
    requires s[|s| - 1].next == if k + 2 == |s| then s[1] else null
    ensures IsList(head, Promoted(s, k))
  {
    var r := Promoted(s, k);
    forall i | 0 <= i < |r| ensures r[i] == s[if i == 0 then 0 else if i == 1 then k + 1 else if i < k + 2 then i - 1 else i] {}
  }

  /** What the benchmark does with the node behind the one it has found. */
  method Promote(list: ListHead, found: ListHead, ghost s: seq<ListHead>, ghost k: nat)
    requires IsList(list, s) && k + 1 < |s| && found == s[k]
    modifies s`next
    ensures IsList(list, Promoted(s, k))
  {
    var finder := found.next;
    found.next := finder.next;
    finder.next := list.next;
    list.next := finder;
    if k > 0 {
      PromotedIs(list, s, k);
    }
  }

  /** One turn of the search loop: searches, reverses the list, and moves the node behind the one found. */
  method SearchTurn(list0: ListHead, info: ListData, ghost s: seq<ListHead>) returns (list: ListHead, ghost t: seq<ListHead>)
    requires IsList(list0, s)
    modifies Members(s)`next
    ensures IsList(list, t) && multiset(t) == multiset(s)
  {
    hide Linked, Reversed, Promoted, Distinct;
    var found := Find(list0, info, s);
    ghost var r := Reversed(s);
    ReversedNodes(s);
    var turned := Reverse(list0, s);
    list := turned;
    t := r;
    if found != null && found.next != null {
      ghost var k :| 0 <= k < |s| && found == s[k];
      PlaceOf(list, r, |s| - 1 - k);
      PromotedNodes(r, |s| - 1 - k);
      Promote(list, found, r, |s| - 1 - k);
      t := Promoted(r, |s| - 1 - k);
    }
  }

  lemma {:induction false} ReversedNodes(s: seq<ListHead>)
    ensures multiset(Reversed(s)) == multiset(s)
  {
    if s != [] {
      ReversedNodes(s[1..]);
      assert Reversed(s) == Reversed(s[1..]) + [s[0]] && s == [s[0]] + s[1..];
    }
  }

  /** A node that leads to another one is not the last. */
  lemma PlaceOf(list: ListHead, s: seq<ListHead>, k: nat)
    requires IsList(list, s) && k < |s| && s[k].next != null
    ensures k + 1 < |s|
  {
  }

  lemma SameNodes(s: seq<ListHead>, t: seq<ListHead>)
    requires multiset(s) == multiset(t)
    ensures |t| == |s| && Members(t) == Members(s) && forall x :: x in s <==> x in t
  {
    assert |multiset(s)| == |multiset(t)|;
    forall x ensures x in s <==> x in t {
      assert x in multiset(s) <==> x in multiset(t);
    }
  }

  lemma NoPass<S>(cmp: Comparison<S>, st: Store<S>, s: seq<ListHead>)
    requires s == []
    ensures Pass(cmp, st, 1, s) == Sorting([], st)
  {
  }

  /** A single node is compared with nothing. */
  lemma OneNode<S>(cmp: Comparison<S>, st: Store<S>, s: seq<ListHead>)
    requires Known(st, s) && |s| == 1
    ensures Sort(cmp, st, 1, s) == Sorting(s, st)
  {
    assert s[..1] == s && s[1..1] == [];
    assert Merge(cmp, st, s[..1], s[1..1]) == Sorting(s, st);
    NoPass(cmp, st, s[1..]);
    assert s + [] == s;
    assert Pass(cmp, st, 1, s) == Sorting(s, st);
    assert Merges(1, 0) == 0;
    assert Merges(1, 1) == 1 + Merges(1, 0);
  }

  /** The sort by data, as the benchmark calls it. */
  method SortData<M(!new)>(list0: ListHead, alg: Algorithms<M>, res0: Results<M>, ghost s: seq<ListHead>)
    returns (list: ListHead, res: Results<M>, ghost t: seq<ListHead>, ghost st: Store<Results<M>>)
    requires s != [] && IsList(list0, s)
    modifies Members(s)
    ensures IsList(list, t) && multiset(t) == multiset(s) && Known(st, t) && Holds(st) && st.res == res
    ensures SortedByValue(s, st, t) && (|s| > 1 ==> forall x :: x in s ==> Cached(x.info.data16))
    ensures forall x :: x in s ==> Caches(old(x.info), x.info)
  {
    hide Caches, Cached, Position, Sort;
    ghost var st0 := StoreOf(s, res0);
    SortByData(alg, st0, s);
    list, res, t, st := MergeSort(list0, Complex(alg), res0, s);
    SameNodes(s, t);
    forall x | x in s ensures Caches(st0.info[x], x.info) && (|s| > 1 ==> Cached(x.info.data16)) {
      assert x in t;
    }
  }

  /** The sort by index, which passes no results. */
  method SortIdx(list0: ListHead, ghost s: seq<ListHead>) returns (list: ListHead, ghost t: seq<ListHead>, ghost st: Store<()>)
    requires s != [] && IsList(list0, s)
    modifies Members(s)
    ensures IsList(list, t) && multiset(t) == multiset(s) && Known(st, t) && Holds(st) && SortedByIdx(s, st, t)
    ensures forall x :: x in s ==> x.info == if |s| > 1 then old(x.info).(data16 := Regenerated(old(x.info.data16))) else old(x.info)
  {
    hide Regenerated, Position, Sort;
    ghost var st0 := StoreOf(s, ());
    SortByIdx(st0, s);
    var r;
    list, r, t, st := MergeSort(list0, Idx<()>(true), (), s);
    SameNodes(s, t);
    if |s| == 1 { OneNode(Idx<()>(true), st0, s); }
    forall x | x in s ensures x.info == if |s| > 1 then st0.info[x].(data16 := Regenerated(st0.info[x].data16)) else st0.info[x] {
      assert x in t;
    }
  }

  /** 16-bit addition of one, for the index searched for. */
  function Increased(n: int): int {
    if n == 0x7fff then -0x8000 else n + 1
  }

  /** The search loop: whatever is searched for and found, the list keeps its nodes and data. */
  method SearchAll(list0: ListHead, findNum: int, finderIdx: int, ghost s: seq<ListHead>) returns (list: ListHead, ghost t: seq<ListHead>)
    requires IsList(list0, s)
    modifies Members(s)`next
    ensures IsList(list, t) && multiset(t) == multiset(s)
  {
    list, t := list0, s;
    var i, idx := 0, finderIdx;
    while i < findNum
      invariant IsList(list, t) && multiset(t) == multiset(s)
    {
      SameNodes(s, t);
      list, t := SearchTurn(list, ListData(i % 256, idx), t);
      if idx >= 0 {
        idx := Increased(idx);
      }
      i := i + 1;
    }
  }

  /** The sort by data, if there is one, and the removal with its undo. */
  method SortAndRemove<M(!new)>(list0: ListHead, alg: Algorithms<M>, res0: Results<M>, finderIdx: int, ghost s: seq<ListHead>)
    returns (list: ListHead, res: Results<M>, ghost t: seq<ListHead>)
    requires IsList(list0, s) && |s| > 2
    modifies Members(s)
    ensures IsList(list, t) && multiset(t) == multiset(s)
    ensures forall x :: x in s ==> Caches(old(x.info), x.info)
  {
    hide Caches, SortedByValue;
    list, res, t := list0, res0, s;
    forall x | x in s ensures Caches(x.info, x.info) { CachesTwice(x.info, x.info, x.info); }
    if finderIdx > 0 {
      ghost var st;
      list, res, t, st := SortData(list0, alg, res0, s);
    }
    SameNodes(s, t);
    RemoveThenUndo(list.next, t, 1);
  }

  /** What is cached does not touch the backup. */
  lemma RebuiltAlike(a: ListData, b: ListData)
    requires Caches(a, b)
    ensures b.(data16 := Regenerated(b.data16)) == a.(data16 := Regenerated(a.data16))
  {
    assert Backup(a.data16) == a.data16 / 256 * 256 && Backup(b.data16) == b.data16 / 256 * 256;
  }

  /** The benchmark up to the checksum it returns. At the end the nodes are in stable order of index, relative to the order before
      the last sort, and every datum is rebuilt from its backup. If the list was in order of index, without ties, it is as before. */
  method BenchList<M(!new)>(list0: ListHead, alg: Algorithms<M>, res0: Results<M>, findNum: int, finderIdx: int, ghost s: seq<ListHead>)
    returns (list: ListHead, res: Results<M>, ghost t: seq<ListHead>, ghost before: seq<ListHead>, ghost st: Store<()>)
    requires IsList(list0, s) && |s| > 2
    modifies Members(s)
    ensures IsList(list, t) && multiset(t) == multiset(s) && Known(st, t) && Holds(st) && SortedByIdx(before, st, t)
    ensures forall x :: x in s ==> x.info == old(x.info).(data16 := Regenerated(old(x.info.data16)))
    ensures Known(st, s) && (t == s <==> SortedByIdx(before, st, s))
    ensures IdxAscends(st, s) && NoTies(st, s) ==> t == s && list == list0
  {
    hide Caches, Regenerated, SortedByIdx, IdxAscends, NoTies, Position;
    forall a, b | Caches(a, b) ensures b.(data16 := Regenerated(b.data16)) == a.(data16 := Regenerated(a.data16)) { RebuiltAlike(a, b); }
    list, t := SearchAll(list0, findNum, finderIdx, s);
    SameNodes(s, t);
    list, res, t := SortAndRemove(list, alg, res0, finderIdx, t);
    SameNodes(s, t);
    before := t;
    list, t, st := SortIdx(list, t);
    SameNodes(s, t);
    RestoresIff(before, st, s, t);
    if IdxAscends(st, s) && NoTies(st, s) {
      NoTiesRestores(before, st, s, t);
    }
  }
}
