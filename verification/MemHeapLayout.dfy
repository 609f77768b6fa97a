/** The pool of src/memheap.c seen as the sequence of its block headers, in address order and closed by the
    tail block: what an allocation, a release and the two in-place reallocations do to it. */
module MemHeapLayout {
  import opened Basics
  import opened Cycle

  /** sizeof(struct rt_memheap_item): six words. */
  const HDR := 24
  const MINIALLOC := 12

  function Payload(b: seq<Addr>, i: nat): int
    requires i + 1 < |b|
  {
    b[i + 1] - b[i] - HDR
  }

  ghost predicate FlagsKnown(b: seq<Addr>, used: map<Addr, bool>) {
    forall i :: 0 <= i < |b| ==> b[i] in used
  }

  ghost predicate Clear(b: seq<Addr>, i: nat, j: nat)
    requires i < |b| && j < |b|
  {
    b[i] + HDR <= b[j]
  }

  /** From `first` to the tail block at `last` the blocks tile the pool: each starts where its predecessor ends. */
  ghost predicate Tiling(b: seq<Addr>, first: Addr, last: Addr) {
    && |b| >= 2 && b[0] == first && b[|b| - 1] == last
    && (forall i, j :: 0 <= i < j < |b| ==> Clear(b, i, j))
  }

  /** Among the blocks `s` the tail block counts as used, and no two neighbours are free, except that a block
      of `open` may be free in front of a free one. */
  ghost predicate Solid(s: set<Addr>, used: map<Addr, bool>, nx: map<Addr, Addr>, last: Addr, open: set<Addr>) {
    && s <= used.Keys && last in s && used[last]
    && (forall a {:trigger nx[a]} :: a in s && a in nx && nx[a] in used ==> used[a] || used[nx[a]] || a in open)
  }

  /** `live` has exactly the allocated blocks of `s`, with their payload sizes. */
  ghost predicate Records(live: map<Addr, int>, s: set<Addr>, used: map<Addr, bool>, nx: map<Addr, Addr>, last: Addr) {
    && s <= used.Keys && s <= nx.Keys
    && (forall a :: a in live <==> a in s && used[a] && a != last)
    && (forall a :: a in live ==> live[a] == nx[a] - a - HDR)
  }

  ghost function Gap(b: seq<Addr>, used: map<Addr, bool>, i: nat): int
    requires FlagsKnown(b, used) && i + 1 < |b|
  {
    if used[b[i]] then 0 else Payload(b, i)
  }

  /** The free payload in the first `n` blocks. */
  ghost function FreeBytes(b: seq<Addr>, used: map<Addr, bool>, n: nat): int
    requires FlagsKnown(b, used) && n < |b|
  {
    if n == 0 then 0 else FreeBytes(b, used, n - 1) + Gap(b, used, n - 1)
  }

  ghost function AllFree(b: seq<Addr>, used: map<Addr, bool>): int
    requires FlagsKnown(b, used) && b != []
  {
    FreeBytes(b, used, |b| - 1)
  }

  // ----- byte counts under local changes -----

  lemma {:induction false} BytesAgree(b: seq<Addr>, used: map<Addr, bool>, c: seq<Addr>, used': map<Addr, bool>, n: nat)
    requires FlagsKnown(b, used) && FlagsKnown(c, used') && n < |b| && n < |c|
    requires forall i :: 0 <= i <= n ==> b[i] == c[i]
    requires forall i :: 0 <= i < n ==> used[b[i]] == used'[b[i]]
    ensures FreeBytes(b, used, n) == FreeBytes(c, used', n)
  {
    if n > 0 { BytesAgree(b, used, c, used', n - 1); }
  }

  /** Only the flag of block `k` may differ. */
  lemma {:induction false} BytesFlip(b: seq<Addr>, used: map<Addr, bool>, used': map<Addr, bool>, k: nat, n: nat)
    requires FlagsKnown(b, used) && FlagsKnown(b, used') && k < n < |b|
    requires forall i :: 0 <= i < n && i != k ==> used[b[i]] == used'[b[i]]
    ensures FreeBytes(b, used', n) == FreeBytes(b, used, n) - Gap(b, used, k) + Gap(b, used', k)
  {
    if n == k + 1 {
      BytesAgree(b, used, b, used', k);
    } else {
      BytesFlip(b, used, used', k, n - 1);
    }
  }

  /** `c` is `b` with one more block, at index `k + 1`. */
  ghost predicate OneMore(b: seq<Addr>, c: seq<Addr>, k: nat) {
    && |c| == |b| + 1 && k < |b|
    && (forall i {:trigger c[i]} :: 0 <= i <= k ==> c[i] == b[i])
    && (forall i {:trigger c[i]} :: k + 1 < i < |c| ==> c[i] == b[i - 1])
  }

  /** Block `k` of `b` is cut in two; only the flags of the two parts may differ from before. */
  lemma {:induction false} BytesCut(b: seq<Addr>, used: map<Addr, bool>, k: nat, c: seq<Addr>, used': map<Addr, bool>, n: nat)
    requires OneMore(b, c, k) && k < n < |b|
    requires FlagsKnown(b, used) && FlagsKnown(b, used') && FlagsKnown(c, used')
    requires forall i :: 0 <= i < n && i != k ==> used[b[i]] == used'[b[i]]
    ensures FreeBytes(c, used', n + 1) == FreeBytes(b, used, n) - Gap(b, used, k) + Gap(c, used', k) + Gap(c, used', k + 1)
    decreases n
  {
    if n == k + 1 {
      BytesAgree(b, used, c, used', k);
      assert FreeBytes(c, used', n + 1) == FreeBytes(c, used', k + 1) + Gap(c, used', k + 1);
    } else {
      BytesCut(b, used, k, c, used', n - 1);
      assert c[n] == b[n - 1] && c[n + 1] == b[n];
    }
  }

  // ----- the layout under local changes -----

  /** Everything about the block list. */
  ghost predicate Layout(b: seq<Addr>, used: map<Addr, bool>, nx: map<Addr, Addr>, pv: map<Addr, Addr>, first: Addr, last: Addr, open: set<Addr>) {
    Tiling(b, first, last) && IsCycle(nx, pv, b) && Solid(Members(b), used, nx, last, open)
  }

  /** The block list and the record of the allocated blocks. */
  ghost predicate Blocks(b: seq<Addr>, used: map<Addr, bool>, nx: map<Addr, Addr>, pv: map<Addr, Addr>, live: map<Addr, int>, first: Addr, last: Addr, open: set<Addr>) {
    && Layout(b, used, nx, pv, first, last, open) && FlagsKnown(b, used)
    && Records(live, Members(b), used, nx, last)
  }

  lemma Flags(b: seq<Addr>, used: map<Addr, bool>)
    requires Members(b) <= used.Keys
    ensures FlagsKnown(b, used)
  {
    forall i | 0 <= i < |b| ensures b[i] in used { assert b[i] in Members(b); }
  }

  /** The payload of block `i` lies inside the pool and apart from the header of block `j`. */
  lemma PayloadApart(b: seq<Addr>, first: Addr, last: Addr, i: nat, j: nat)
    requires Tiling(b, first, last) && i + 1 < |b| && j < |b| && i != j
    ensures first <= b[i] && b[i] + HDR <= b[i + 1] <= last
    ensures b[j] + HDR <= b[i] || b[i + 1] <= b[j]
  {
    assert Clear(b, i, i + 1);
    assert i > 0 ==> Clear(b, 0, i);
    assert i + 1 < |b| - 1 ==> Clear(b, i + 1, |b| - 1);
    assert i + 1 < j ==> Clear(b, i + 1, j);
    assert j < i ==> Clear(b, j, i);
  }

  /** Live payloads lie inside the pool and do not overlap each other or any header. */
  lemma LiveDisjoint(live: map<Addr, int>, b: seq<Addr>, used: map<Addr, bool>, nx: map<Addr, Addr>, first: Addr, last: Addr, x: Addr, h: Addr)
    requires Tiling(b, first, last) && Forward(nx, b) && Records(live, Members(b), used, nx, last) && x in live && h in b && h != x
    ensures live[x] >= 0 && first <= x && x + HDR + live[x] <= last
    ensures h + HDR <= x || x + HDR + live[x] <= h
  {
    var i: nat :| i < |b| && b[i] == x;
    var j: nat :| j < |b| && b[j] == h;
    ForwardAt(nx, b, i);
    PayloadApart(b, first, last, i, j);
  }

  /** No two live payloads share a byte. */
  lemma PayloadsDisjoint(live: map<Addr, int>, b: seq<Addr>, used: map<Addr, bool>, nx: map<Addr, Addr>, first: Addr, last: Addr, n: Addr)
    requires Tiling(b, first, last) && Forward(nx, b) && Records(live, Members(b), used, nx, last) && n in live
    ensures 0 <= live[n] && first <= n && n + HDR + live[n] <= last
    ensures forall x :: x in live && x != n ==> x + HDR + live[x] <= n || n + HDR + live[n] <= x
  {
    assert n in Members(b) && last in Members(b);
    LiveDisjoint(live, b, used, nx, first, last, n, last);
    forall x | x in live && x != n ensures x + HDR + live[x] <= n || n + HDR + live[n] <= x {
      assert x in Members(b);
      LiveDisjoint(live, b, used, nx, first, last, x, n);
      LiveDisjoint(live, b, used, nx, first, last, n, x);
    }
  }

  lemma NotLast(b: seq<Addr>, first: Addr, last: Addr, k: nat)
    requires Tiling(b, first, last) && k + 1 < |b|
    ensures b[k] != last && last in Members(b) && b[k] + HDR <= b[k + 1]
  {
    assert Clear(b, k, |b| - 1) && Clear(b, k, k + 1);
  }

  lemma IndexOf(b: seq<Addr>, nx: map<Addr, Addr>, h: Addr, last: Addr, first: Addr) returns (k: nat)
    requires Tiling(b, first, last) && Forward(nx, b) && h in Members(b) && h != last
    ensures k + 1 < |b| && b[k] == h && h in nx && b[k + 1] == nx[h]
  {
    k :| k < |b| && b[k] == h;
    ForwardAt(nx, b, k);
  }

  /** The neighbours of the block at `h`. */
  lemma Neighbours(b: seq<Addr>, nx: map<Addr, Addr>, pv: map<Addr, Addr>, h: Addr)
    requires IsCycle(nx, pv, b) && h in Members(b)
    ensures h in nx && h in pv && nx[h] in Members(b) && pv[h] in Members(b)
    ensures nx[h] in nx && nx[h] in pv && pv[h] in nx && nx[pv[h]] == h && pv[nx[h]] == h
    ensures forall a {:trigger nx[a]} :: a in Members(b) && a in nx && nx[a] == h ==> a == pv[h]
  {
    var k: nat :| k < |b| && b[k] == h;
    ForwardAt(nx, b, k);
    BackwardAt(pv, b, k);
    var p, n := if k > 0 then k - 1 else |b| - 1, if k + 1 < |b| then k + 1 else 0;
    ForwardAt(nx, b, p);
    BackwardAt(pv, b, n);
    ForwardAt(nx, b, n);
    assert b[p] in Members(b) && b[n] in Members(b);
    Pairwise(b);
    forall a | a in Members(b) && a in nx && nx[a] == h ensures a == b[p] {
      var i: nat :| i < |b| && b[i] == a;
      ForwardAt(nx, b, i);
    }
  }

  /** Every block but the tail ends behind its header. */
  lemma Order(b: seq<Addr>, nx: map<Addr, Addr>, first: Addr, last: Addr, h: Addr)
    requires Tiling(b, first, last) && Forward(nx, b) && h in Members(b)
    ensures h in nx && (if h == last then nx[h] == first else h + HDR <= nx[h])
  {
    var k: nat :| k < |b| && b[k] == h;
    ForwardAt(nx, b, k);
    if k + 1 < |b| { NotLast(b, first, last, k); }
  }

  lemma InPool(b: seq<Addr>, nx: map<Addr, Addr>, first: Addr, last: Addr, h: Addr)
    requires Tiling(b, first, last) && Forward(nx, b) && h in Members(b) && h != last
    ensures h in nx && first <= h && h + HDR <= nx[h] <= last && nx[h] in Members(b)
  {
    var k := IndexOf(b, nx, h, last, first);
    PayloadApart(b, first, last, k, if k == 0 then 1 else 0);
    assert b[k + 1] in Members(b);
  }

  /** Blocks that are gone, and a block behind which the next one is in use, need not be open. */
  lemma Close(b: seq<Addr>, used: map<Addr, bool>, nx: map<Addr, Addr>, pv: map<Addr, Addr>, live: map<Addr, int>, first: Addr, last: Addr, open: set<Addr>, open': set<Addr>)
    requires Blocks(b, used, nx, pv, live, first, last, open)
    requires forall a :: a in open && a !in open' ==> a !in Members(b) || (a in used && used[a]) || (a in nx && nx[a] in used && used[nx[a]])
    ensures Blocks(b, used, nx, pv, live, first, last, open')
  {
  }

  // ----- a block is cut in two -----

  lemma CutTiling(b: seq<Addr>, first: Addr, last: Addr, k: nat, x: Addr)
    requires Tiling(b, first, last) && k + 1 < |b| && b[k] + HDR <= x && x + HDR <= b[k + 1]
    ensures Tiling(Insert(b, k + 1, x), first, last) && x !in Members(b)
  {
    var c := Insert(b, k + 1, x);
    forall i | 0 <= i < |b| ensures if i <= k then b[i] + HDR <= x else x + HDR <= b[i] {
      assert i < k ==> Clear(b, i, k);
      assert i > k + 1 ==> Clear(b, k + 1, i);
    }
    forall i, j | 0 <= i < j < |c| ensures Clear(c, i, j) {
      var i', j' := if i <= k then i else i - 1, if j <= k then j else j - 1;
      assert i != k + 1 ==> c[i] == b[i'];
      assert j != k + 1 ==> c[j] == b[j'];
      assert i' < j' ==> Clear(b, i', j');
    }
  }

  lemma NothingPointsTo(b: seq<Addr>, nx: map<Addr, Addr>, x: Addr)
    requires Forward(nx, b) && x !in Members(b)
    ensures forall a {:trigger nx[a]} :: a in Members(b) && a in nx ==> nx[a] != x
  {
    forall a | a in Members(b) && a in nx ensures nx[a] != x {
      var i: nat :| i < |b| && b[i] == a;
      ForwardAt(nx, b, i);
      assert Succ(b, i) in Members(b);
    }
  }

  lemma CutSolid(s: set<Addr>, used: map<Addr, bool>, nx: map<Addr, Addr>, last: Addr, h: Addr, x: Addr)
    requires Solid(s, used, nx, last, {}) && x !in s && h in s && h in nx
    requires forall a {:trigger nx[a]} :: a in s && a in nx ==> nx[a] != x
    ensures Solid(s + {x}, used[x := false][h := true], nx[x := nx[h]][h := x], last, {x})
  {
  }

  lemma CutRecords(live: map<Addr, int>, s: set<Addr>, used: map<Addr, bool>, nx: map<Addr, Addr>, last: Addr, h: Addr, x: Addr)
    requires Records(live, s, used, nx, last) && x !in s && h in s && h != last
    ensures Records(live[h := x - h - HDR], s + {x}, used[x := false][h := true], nx[x := nx[h]][h := x], last)
  {
  }

  /** The free bytes after the cut of `b[k]` at `x`: the front part is in use, the rest is free. */
  lemma CutBytes(b: seq<Addr>, used: map<Addr, bool>, k: nat, x: Addr)
    requires FlagsKnown(b, used) && k + 1 < |b| && x !in Members(b) && AllDiffer(b)
    ensures var c, used' := Insert(b, k + 1, x), used[x := false][b[k] := true];
      FlagsKnown(c, used') && AllFree(c, used') == AllFree(b, used) - Gap(b, used, k) + (b[k + 1] - x - HDR)
  {
    var c, used' := Insert(b, k + 1, x), used[x := false][b[k] := true];
    InsertMembers(b, k + 1, x);
    Flags(c, used');
    Pairwise(b);
    BytesCut(b, used, k, c, used', |b| - 1);
    assert c[k] == b[k] && c[k + 1] == x && c[k + 2] == b[k + 1];
  }

  /** The block at `h` is cut at `x`: the front part is in use, the rest is free. */
  lemma CutAt(b: seq<Addr>, used: map<Addr, bool>, nx: map<Addr, Addr>, pv: map<Addr, Addr>, live: map<Addr, int>, first: Addr, last: Addr, h: Addr, x: Addr) returns (c: seq<Addr>)
    requires Blocks(b, used, nx, pv, live, first, last, {}) && h in Members(b) && h != last
    requires h + HDR <= x && x + HDR <= nx[h]
    ensures Members(c) == Members(b) + {x} && x !in Members(b)
    ensures var used' := used[x := false][h := true];
      && Blocks(c, used', nx[x := nx[h]][h := x], pv[x := h][nx[h] := x], live[h := x - h - HDR], first, last, {x})
      && AllFree(c, used') == AllFree(b, used) + (nx[h] - x - HDR) - (if used[h] then 0 else nx[h] - h - HDR)
  {
    var k := IndexOf(b, nx, h, last, first);
    c := Insert(b, k + 1, x);
    InsertMembers(b, k + 1, x);
    CutTiling(b, first, last, k, x);
    LinkBehind(nx, pv, b, k, x);
    NothingPointsTo(b, nx, x);
    CutSolid(Members(b), used, nx, last, h, x);
    CutRecords(live, Members(b), used, nx, last, h, x);
    CutBytes(b, used, k, x);
  }

  // ----- the flag of a block changes -----

  lemma OccupySolid(s: set<Addr>, used: map<Addr, bool>, nx: map<Addr, Addr>, last: Addr, h: Addr)
    requires Solid(s, used, nx, last, {}) && h in s
    ensures Solid(s, used[h := true], nx, last, {})
  {
  }

  lemma OccupyRecords(live: map<Addr, int>, s: set<Addr>, used: map<Addr, bool>, nx: map<Addr, Addr>, last: Addr, h: Addr)
    requires Records(live, s, used, nx, last) && h in s && h != last
    ensures Records(live[h := nx[h] - h - HDR], s, used[h := true], nx, last)
  {
  }

  /** A free block is given out whole. */
  lemma OccupyAt(b: seq<Addr>, used: map<Addr, bool>, nx: map<Addr, Addr>, pv: map<Addr, Addr>, live: map<Addr, int>, first: Addr, last: Addr, h: Addr)
    requires Blocks(b, used, nx, pv, live, first, last, {}) && h in Members(b) && h != last && h in nx && !used[h]
    ensures Blocks(b, used[h := true], nx, pv, live[h := nx[h] - h - HDR], first, last, {})
    ensures AllFree(b, used[h := true]) == AllFree(b, used) - (nx[h] - h - HDR)
  {
    OccupySolid(Members(b), used, nx, last, h);
    OccupyRecords(live, Members(b), used, nx, last, h);
    FlipBytes(b, used, nx, first, last, h, true);
  }

  lemma VacateSolid(s: set<Addr>, used: map<Addr, bool>, nx: map<Addr, Addr>, last: Addr, p: Addr, h: Addr)
    requires Solid(s, used, nx, last, {}) && h in s && h != last
    requires forall a {:trigger nx[a]} :: a in s && a in nx && nx[a] == h ==> a == p
    ensures Solid(s, used[h := false], nx, last, {p, h})
  {
  }

  lemma VacateRecords(live: map<Addr, int>, s: set<Addr>, used: map<Addr, bool>, nx: map<Addr, Addr>, last: Addr, h: Addr)
    requires Records(live, s, used, nx, last) && h in s
    ensures Records(live - {h}, s, used[h := false], nx, last)
  {
  }

  /** An allocated block becomes free. */
  lemma VacateAt(b: seq<Addr>, used: map<Addr, bool>, nx: map<Addr, Addr>, pv: map<Addr, Addr>, live: map<Addr, int>, first: Addr, last: Addr, h: Addr)
    requires Blocks(b, used, nx, pv, live, first, last, {}) && h in live && h in nx && h in pv && h in Members(b) && h != last
    ensures Blocks(b, used[h := false], nx, pv, live - {h}, first, last, {pv[h], h})
    ensures AllFree(b, used[h := false]) == AllFree(b, used) + (nx[h] - h - HDR)
  {
    Neighbours(b, nx, pv, h);
    VacateSolid(Members(b), used, nx, last, pv[h], h);
    VacateRecords(live, Members(b), used, nx, last, h);
    FlipBytes(b, used, nx, first, last, h, false);
  }

  /** The free bytes after the flag of the block at `h` has been set. */
  lemma FlipBytes(b: seq<Addr>, used: map<Addr, bool>, nx: map<Addr, Addr>, first: Addr, last: Addr, h: Addr, flag: bool)
    requires FlagsKnown(b, used) && Tiling(b, first, last) && Forward(nx, b) && AllDiffer(b) && h in Members(b) && h != last && h in nx
    ensures AllFree(b, used[h := flag]) == AllFree(b, used) - (if used[h] then 0 else nx[h] - h - HDR) + (if flag then 0 else nx[h] - h - HDR)
  {
    var k := IndexOf(b, nx, h, last, first);
    Pairwise(b);
    BytesFlip(b, used, used[h := flag], k, |b| - 1);
  }

  // ----- a free block is absorbed by the block in front of it -----

  lemma AbsorbTiling(b: seq<Addr>, first: Addr, last: Addr, k: nat)
    requires Tiling(b, first, last) && k + 2 < |b|
    ensures Tiling(Delete(b, k + 1), first, last)
  {
    var c := Delete(b, k + 1);
    forall i, j | 0 <= i < j < |c| ensures Clear(c, i, j) {
      var i', j' := if i <= k then i else i + 1, if j <= k then j else j + 1;
      assert c[i] == b[i'] && c[j] == b[j'] && Clear(b, i', j');
    }
  }

  /** Which blocks may be free in front of a free one after `h` has absorbed its successor. */
  ghost function StillOpen(open: set<Addr>, h: Addr, used: bool, nextUsed: bool): set<Addr> {
    if nextUsed then open - {h} else if used && h !in open then open else open + {h}
  }

  lemma AbsorbSolid(s: set<Addr>, used: map<Addr, bool>, nx: map<Addr, Addr>, last: Addr, h: Addr, open: set<Addr>)
    requires Solid(s, used, nx, last, open) && h in s && h in nx && nx[h] in nx && nx[nx[h]] in used
    requires nx[h] != last && nx[h] != h && nx[nx[h]] != nx[h]
    ensures Solid(s - {nx[h]}, used, nx[h := nx[nx[h]]], last, StillOpen(open, h, used[h], used[nx[nx[h]]]))
  {
  }

  lemma AbsorbRecords(live: map<Addr, int>, s: set<Addr>, used: map<Addr, bool>, nx: map<Addr, Addr>, last: Addr, h: Addr)
    requires Records(live, s, used, nx, last) && h in s && h != last && nx[h] in s && !used[nx[h]] && nx[h] != h
    ensures Records(if used[h] then live[h := nx[nx[h]] - h - HDR] else live, s - {nx[h]}, used, nx[h := nx[nx[h]]], last)
  {
  }

  lemma AbsorbBytes(b: seq<Addr>, used: map<Addr, bool>, k: nat)
    requires FlagsKnown(b, used) && k + 2 < |b| && AllDiffer(b)
    ensures var c := Delete(b, k + 1);
      && FlagsKnown(c, used)
      && AllFree(c, used) == AllFree(b, used) - Gap(b, used, k) - Gap(b, used, k + 1) + (if used[b[k]] then 0 else b[k + 2] - b[k] - HDR)
  {
    var c := Delete(b, k + 1);
    forall i | 0 <= i < |c| ensures c[i] in used {
      assert c[i] == b[if i < k + 1 then i else i + 1];
    }
    BytesCut(c, used, k, b, used, |c| - 1);
  }

  /** The free block that follows `h` becomes part of it. */
  lemma AbsorbAt(b: seq<Addr>, used: map<Addr, bool>, nx: map<Addr, Addr>, pv: map<Addr, Addr>, live: map<Addr, int>, first: Addr, last: Addr, h: Addr, open: set<Addr>)
    returns (c: seq<Addr>, live': map<Addr, int>)
    requires Blocks(b, used, nx, pv, live, first, last, open) && h in Members(b) && h != last && nx[h] in used && !used[nx[h]]
    ensures nx[h] in Members(b) && nx[h] in nx && nx[h] != h && Members(c) == Members(b) - {nx[h]}
    ensures live' == if used[h] then live[h := nx[nx[h]] - h - HDR] else live
    ensures var nx' := nx[h := nx[nx[h]]];
      && nx[nx[h]] in used && Blocks(c, used, nx', pv[nx[nx[h]] := h], live', first, last, StillOpen(open, h, used[h], used[nx[nx[h]]]))
    ensures c != [] && AllFree(c, used) == AllFree(b, used) - (nx[nx[h]] - nx[h] - HDR) + (if used[h] then 0 else nx[nx[h]] - nx[h])
  {
    var k := IndexOf(b, nx, h, last, first);
    c := Delete(b, k + 1);
    live' := if used[h] then live[h := nx[nx[h]] - h - HDR] else live;
    NotLast(b, first, last, k + 1);
    AbsorbLinks(b, nx, pv, k);
    AbsorbTiling(b, first, last, k);
    DeleteMembers(b, k + 1);
    AbsorbSolid(Members(b), used, nx, last, h, open);
    AbsorbRecords(live, Members(b), used, nx, last, h);
    AbsorbBytes(b, used, k);
  }

  lemma AbsorbLinks(b: seq<Addr>, nx: map<Addr, Addr>, pv: map<Addr, Addr>, k: nat)
    requires IsCycle(nx, pv, b) && k + 2 < |b|
    ensures b[k] in nx && b[k + 1] in nx && b[k + 1] in pv && nx[b[k]] == b[k + 1] && nx[b[k + 1]] == b[k + 2] && pv[b[k + 1]] == b[k]
    ensures IsCycle(nx[b[k] := b[k + 2]], pv[b[k + 2] := b[k]], Delete(b, k + 1))
  {
    ForwardAt(nx, b, k);
    ForwardAt(nx, b, k + 1);
    BackwardAt(pv, b, k + 1);
    Unlink(nx, pv, b, k + 1);
  }
}
