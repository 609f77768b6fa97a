/** The memory heap of src/memheap.c: a circular list of all blocks in address order and a circular list of the
    free ones, changed in place by init, alloc, realloc and free. Headers are stored field by field. */
module MemHeap {
  import opened Basics
  import opened Cycle
  import opened MemHeapLayout

  const ALIGN := 4

  /** RT_ALIGN(size, RT_ALIGN_SIZE), raised to the smallest allocation. */
  function Rounded(size: nat): (r: nat)
    ensures r >= size && r >= MINIALLOC && r % ALIGN == 0 && (r == MINIALLOC || r < size + ALIGN)
  {
    var s := (size + ALIGN - 1) / ALIGN * ALIGN;
    if s < MINIALLOC then MINIALLOC else s
  }

  lemma RoundedTwice(size: nat)
    ensures Rounded(Rounded(size)) == Rounded(size)
  {
  }

  ghost function FreeBlocks(s: set<Addr>, used: map<Addr, bool>): set<Addr>
    requires s <= used.Keys
  {
    set a | a in s && !used[a]
  }

  /** The free list: a cycle from `header` through exactly the free blocks. */
  ghost predicate FreeRing(ring: seq<Addr>, header: Addr, s: set<Addr>, used: map<Addr, bool>) {
    && s <= used.Keys && header !in s
    && ring != [] && ring[0] == header && Members(ring) == FreeBlocks(s, used) + {header}
  }

  /** What the free list has to lose and gain when the front of `h` is given out and `x` starts the rest. */
  lemma CutRing(ring: seq<Addr>, header: Addr, s: set<Addr>, used: map<Addr, bool>, h: Addr, x: Addr)
    requires FreeRing(ring, header, s, used) && h in s && x !in s && x != header
    ensures s + {x} <= used[x := false][h := true].Keys && x !in Members(ring)
    ensures FreeBlocks(s + {x}, used[x := false][h := true]) + {header} == Members(ring) - {h} + {x}
  {
  }

  lemma OccupyRing(ring: seq<Addr>, header: Addr, s: set<Addr>, used: map<Addr, bool>, h: Addr)
    requires FreeRing(ring, header, s, used) && h in s
    ensures s <= used[h := true].Keys && FreeBlocks(s, used[h := true]) + {header} == Members(ring) - {h}
  {
  }

  /** How much of a free block with `room` bytes an allocation of `size` bytes gets: all of it, unless the rest is
      large enough for a block of its own. */
  function Share(room: int, size: int): int {
    if room >= size + HDR + MINIALLOC then size else room
  }

  /** By how much the available bytes drop: a block that is cut needs one more header. */
  function Cost(room: int, size: int): int {
    if room >= size + HDR + MINIALLOC then size + HDR else room
  }

  /** Some listed block has room for `size` bytes. */
  ghost predicate Fits(ring: seq<Addr>, nx: map<Addr, Addr>, size: nat, k: nat)
    requires k < |ring|
  {
    ring[k] in nx && nx[ring[k]] - ring[k] - HDR >= size
  }

  /** `ring[k]` is the first listed block with room for `size` bytes. */
  ghost predicate FirstFit(ring: seq<Addr>, nx: map<Addr, Addr>, size: nat, k: nat) {
    && 0 < k < |ring| && Fits(ring, nx, size, k)
    && (forall j :: 0 < j < k ==> !Fits(ring, nx, size, j))
  }

  lemma InitialRing(header: Addr, item: Addr)
    requires header != item
    ensures IsCycle(map[header := item, item := header], map[header := item, item := header], [header, item])
  {
    var b, ends := [header, item], map[header := item, item := header];
    assert ends[b[0]] == item && ends[b[1]] == header;
  }

  lemma InitialLayout(item: Addr, tail: Addr)
    requires item + HDR <= tail
    ensures var b, used, ends := [item, tail], map[item := false, tail := true], map[item := tail, tail := item];
      && Layout(b, used, ends, ends, item, tail, {}) && FlagsKnown(b, used) && AllFree(b, used) == tail - item - HDR
      && Members(b) == {item, tail}
  {
    var b, used, ends := [item, tail], map[item := false, tail := true], map[item := tail, tail := item];
    assert FreeBytes(b, used, 1) == FreeBytes(b, used, 0) + Gap(b, used, 0);
    InitialRing(item, tail);
    assert Members(b) == {item, tail};
  }

  /** The payload of every block of `live` but `h` is the same in both. */
  ghost predicate OthersKeep(h: Addr, live: map<Addr, int>, data: seq<int>, data': seq<int>) {
    |data| == |data'| && forall x, a :: x in live && x != h && x + HDR <= a < x + HDR + live[x] && 0 <= a < |data| ==> data'[a] == data[a]
  }

  lemma OthersStill(n: Addr, h: Addr, live: map<Addr, int>, live': map<Addr, int>, data: seq<int>, data': seq<int>)
    requires n !in live && n in live' && live' == live[n := live'[n]] && OthersKeep(n, live', data, data')
    ensures OthersKeep(h, live, data, data')
  {
    forall x, a | x in live && x != h && x + HDR <= a < x + HDR + live[x] && 0 <= a < |data| ensures data'[a] == data[a] {
      assert x in live' && x != n;
    }
  }

  /** The first `size` bytes of the payload of `n` are those that the payload of `h` had. */
  ghost predicate Copied(n: Addr, h: Addr, size: int, data: seq<int>, data': seq<int>) {
    && |data| == |data'| && 0 <= h + HDR && h + HDR + size <= |data| && 0 <= n + HDR && n + HDR + size <= |data|
    && (forall a :: n + HDR <= a < n + HDR + size ==> data'[a] == data[a - n + h])
  }

  /** `m` is the largest of the numbers of bytes that were taken at one time or another, and the pool has as many. */
  ghost predicate HighWater(trace: seq<int>, m: int, pool: int) {
    m in trace && forall x :: x in trace ==> x <= m && x <= pool
  }

  lemma HighWaterMore(trace: seq<int>, m: int, pool: int, u: int)
    requires HighWater(trace, m, pool) && u <= pool
    ensures HighWater(trace + [u], Max(m, u), pool)
  {
    assert (trace + [u])[|trace|] == u;
    forall x | x in trace + [u] ensures x in trace || x == u {}
    forall x | x in trace ensures x in trace + [u] {}
  }

  class Heap {
    const header: Addr
    const first: Addr
    const last: Addr
    const poolSize: nat
    var next: map<Addr, Addr>
    var prev: map<Addr, Addr>
    var nextFree: map<Addr, Addr>
    var prevFree: map<Addr, Addr>
    var used: map<Addr, bool>
    var available: int
    var maxUsed: int
    var bytes: seq<int>
    ghost var blocks: seq<Addr>
    ghost var ring: seq<Addr>
    /** The allocated blocks, by header address, with their payload sizes; a user's pointer is HDR bytes further. */
    ghost var live: map<Addr, int>
    /** The bytes taken, `poolSize - available`, since the heap was made: one entry whenever a call has changed them. */
    ghost var trace: seq<int>

    /** The block list, with `open` as in `Solid`. */
    ghost predicate BlocksValid(open: set<Addr>)
      reads this
    {
      Blocks(blocks, used, next, prev, live, first, last, open)
    }

    ghost predicate Valid()
      reads this
    {
      && 0 < first && first + poolSize == last + HDR && (header < first || last < header)
      && BlocksValid({})
      && IsCycle(nextFree, prevFree, ring) && FreeRing(ring, header, Members(blocks), used)
      && available == AllFree(blocks, used)
      && Watched()
      && |bytes| >= last
    }

    ghost predicate Watched()
      reads this
    {
      HighWater(trace, maxUsed, poolSize) && trace != [] && trace[|trace| - 1] == poolSize - available <= maxUsed
    }

    /** A call has changed the available bytes. */
    ghost method Record()
      requires HighWater(trace, maxUsed, poolSize) || (maxUsed == poolSize - available && exists m :: m <= maxUsed && HighWater(trace, m, poolSize))
      requires poolSize - available <= maxUsed && 0 <= available
      modifies this`trace
      ensures trace == old(trace) + [poolSize - available] && Watched()
    {
      var m :| m <= maxUsed && HighWater(trace, m, poolSize) && (m == maxUsed || maxUsed == poolSize - available);
      HighWaterMore(trace, m, poolSize, poolSize - available);
      trace := trace + [poolSize - available];
    }

    /** The block behind `h`, or the one before it, is free. */
    ghost predicate FreeBehind(h: Addr)
      reads this
    {
      h in next && next[h] in used && !used[next[h]]
    }

    ghost predicate FreeBefore(h: Addr)
      reads this
    {
      h in prev && prev[h] in used && !used[prev[h]]
    }

    /** What a release wins: the payload, and a header for every neighbour that is merged. */
    ghost function Gain(h: Addr): int
      requires h in live
      reads this
    {
      live[h] + (if FreeBefore(h) then HDR else 0) + (if FreeBehind(h) then HDR else 0)
    }

    /** No allocation of `size` bytes is possible: the source asks for more available bytes than that, and for a listed block
        that is large enough. */
    ghost predicate Refuses(size: nat)
      reads this
    {
      size >= available || forall j :: 0 < j < |ring| ==> !Fits(ring, next, size, j)
    }

    /** rt_memheap_init: one free block, and the tail block in use. */
    constructor (header: Addr, start: Addr, size: nat)
      requires 0 < start && size / ALIGN * ALIGN >= 2 * HDR && (header < start || header >= start + size)
      ensures Valid() && live == map[]
      ensures poolSize == size / ALIGN * ALIGN && available == poolSize - 2 * HDR && maxUsed == poolSize - available
      ensures blocks == [start, start + poolSize - HDR] && ring == [header, start] && trace == [maxUsed]
    {
      this.header, first, poolSize := header, start, size / ALIGN * ALIGN;
      last := start + size / ALIGN * ALIGN - HDR;
      var item, tail := start, start + size / ALIGN * ALIGN - HDR;
      available := size / ALIGN * ALIGN - 2 * HDR;
      maxUsed := 2 * HDR;
      next := map[item := tail, tail := item];
      prev := map[item := tail, tail := item];
      nextFree := map[header := item, item := header];
      prevFree := map[header := item, item := header];
      used := map[item := false, tail := true];
      bytes := seq(start + size, _ => 0);
      blocks, ring, live, trace := [item, tail], [header, item], map[], [2 * HDR];
      new;
      InitialLayout(item, tail);
      InitialRing(header, item);
    }

    /** Takes a free block out of the free list. */
    method RemoveFree(x: Addr)
      requires IsCycle(nextFree, prevFree, ring) && x in Members(ring) && x != ring[0]
      modifies this`nextFree, this`prevFree, this`ring
      ensures IsCycle(nextFree, prevFree, ring) && ring[0] == old(ring)[0]
      ensures Members(ring) == old(Members(ring)) - {x}
    {
      ghost var r := TakeOut(nextFree, prevFree, ring, x);
      prevFree := prevFree[nextFree[x] := prevFree[x]];
      nextFree := nextFree[prevFree[x] := nextFree[x]];
      ring := r;
    }

    /** Puts a free block at the head of the free list. */
    method InsertFree(x: Addr)
      requires IsCycle(nextFree, prevFree, ring) && x !in Members(ring) && ring[0] == header
      modifies this`nextFree, this`prevFree, this`ring
      ensures IsCycle(nextFree, prevFree, ring) && ring[0] == header
      ensures Members(ring) == old(Members(ring)) + {x}
    {
      ghost var r := PushFront(nextFree, prevFree, ring, x);
      var after := nextFree[header];
      nextFree := nextFree[x := after];
      prevFree := prevFree[x := header];
      prevFree := prevFree[after := x];
      nextFree := nextFree[header := x];
      ring := r;
    }

    /** Cuts block `h` at `x`: the front part is in use, the rest is a free block that is not yet listed. */
    method Split(h: Addr, x: Addr)
      requires BlocksValid({}) && h in Members(blocks) && h != last && h in next && h in used
      requires h + HDR <= x && x + HDR <= next[h]
      modifies this`next, this`prev, this`used, this`blocks, this`live
      ensures BlocksValid({x}) && live == old(live)[h := x - h - HDR]
      ensures Members(blocks) == old(Members(blocks)) + {x} && x !in old(Members(blocks))
      ensures used == old(used)[x := false][h := true] && next == old(next)[x := old(next)[h]][h := x]
      ensures AllFree(blocks, used) == old(AllFree(blocks, used)) + (old(next)[h] - x - HDR) - (if old(used)[h] then 0 else old(next)[h] - h - HDR)
    {
      ghost var c := CutAt(blocks, used, next, prev, live, first, last, h, x);
      var after := next[h];
      prev := prev[x := h];
      next := next[x := after];
      prev := prev[after := x];
      next := next[h := x];
      used := used[x := false][h := true];
      blocks := c;
      live := live[h := x - h - HDR];
    }

    /** Makes the free block behind `h` part of it; the block has left the free list or is about to. */
    method Merge(h: Addr, ghost open: set<Addr>)
      requires BlocksValid(open) && h in Members(blocks) && h != last && h in next && next[h] in used && !used[next[h]] && h in used
      modifies this`next, this`prev, this`blocks, this`live
      ensures old(next)[h] in old(next) && old(next)[h] != h && next == old(next)[h := old(next)[old(next)[h]]]
      ensures Members(blocks) == old(Members(blocks)) - {old(next)[h]}
      ensures next[h] in used && BlocksValid(StillOpen(open, h, used[h], used[next[h]]))
      ensures live == if used[h] then old(live)[h := next[h] - h - HDR] else old(live)
      ensures AllFree(blocks, used) == old(AllFree(blocks, used)) - (next[h] - old(next)[h] - HDR) + (if used[h] then 0 else next[h] - old(next)[h])
    {
      ghost var c, l := AbsorbAt(blocks, used, next, prev, live, first, last, h, open);
      var after := next[next[h]];
      prev := prev[after := h];
      next := next[h := after];
      blocks, live := c, l;
    }

    /** The search of rt_memheap_alloc along the free list; `size` is found when the size returned is large enough. */
    method Search(size: nat) returns (h: Addr, freeSize: int, ghost k: nat)
      requires Valid() && size > 0
      ensures freeSize >= size ==> FirstFit(ring, next, size, k) && h == ring[k] && freeSize == next[h] - h - HDR
      ensures freeSize < size ==> forall j :: 0 < j < |ring| ==> !Fits(ring, next, size, j)
    {
      ForwardAt(nextFree, ring, 0);
      h := nextFree[header];
      freeSize, k := 0, 1;
      while h != header && freeSize < size
        invariant 1 <= k <= |ring| && h == (if k < |ring| then ring[k] else header)
        invariant forall j :: 0 < j < k ==> !Fits(ring, next, size, j)
        invariant freeSize >= size ==> k < |ring| && Fits(ring, next, size, k) && freeSize == next[h] - h - HDR
        decreases |ring| - k, size - freeSize
      {
        ListedIsFree(k);
        freeSize := next[h] - h - HDR;
        if freeSize < size {
          ForwardAt(nextFree, ring, k);
          h := nextFree[h];
          k := k + 1;
        }
      }
      if k < |ring| {
        ListedIsFree(k);
      }
    }

    lemma ListedIsFree(k: nat)
      requires Valid() && 0 < k < |ring|
      ensures ring[k] != header && ring[k] in Members(blocks) && ring[k] in next && ring[k] in used && !used[ring[k]] && ring[k] != last
      ensures ring[k] + HDR <= next[ring[k]]
    {
      assert Differ(ring, 0, k);
      assert ring[k] in Members(ring);
      Order(blocks, next, first, last, ring[k]);
    }

    /** The bookkeeping of the high-water mark. */
    method NoteUse()
      modifies this`maxUsed
      ensures maxUsed == Max(old(maxUsed), poolSize - available)
    {
      if poolSize - available > maxUsed {
        maxUsed := poolSize - available;
      }
    }

    /** What an allocation of `s` bytes (rounded) promises about the block `h` it gives out. */
    ghost predicate Given(h: Addr, s: nat, before: map<Addr, int>)
      reads this
    {
      && h !in before && h in live && live == before[h := live[h]]
      && s <= live[h] < s + HDR + MINIALLOC
    }

    lemma Apart(h: Addr, x: Addr)
      requires Valid() && h in Members(blocks) && h != last && h in next && h + HDR <= x && x + HDR <= next[h]
      ensures x !in Members(blocks)
    {
      var k := IndexOf(blocks, next, h, last, first);
      CutTiling(blocks, first, last, k, x);
    }

    /** The front part of the free block `h` is in use, and the rest is a free block that is not yet listed. */
    method CutFree(h: Addr, x: Addr)
      requires Valid() && h in Members(blocks) && h != last && h in next && h in used && !used[h]
      requires h + HDR <= x && x + HDR <= next[h] && x != header
      modifies this`next, this`prev, this`used, this`blocks, this`live
      ensures BlocksValid({}) && live == old(live)[h := x - h - HDR] && h !in old(live) && header !in Members(blocks)
      ensures Members(blocks) <= used.Keys && x !in Members(ring) && FreeBlocks(Members(blocks), used) + {header} == Members(ring) - {h} + {x}
      ensures AllFree(blocks, used) == old(available) - (x - h)
    {
      InPool(blocks, next, first, last, h);
      assert used[next[h]];
      Apart(h, x);
      CutRing(ring, header, Members(blocks), used, h, x);
      Split(h, x);
      Close(blocks, used, next, prev, live, first, last, {x}, {});
    }

    /** Gives out the front part of the free block `h`; the rest stays free. */
    method GiveFront(h: Addr, size: nat)
      requires Valid() && h in Members(ring) && h != header && h in next && next[h] - h - HDR >= size + HDR
      requires h in Members(blocks) && h != last && h in used && !used[h] && first <= h && next[h] <= last
      modifies this
      ensures Valid() && bytes == old(bytes) && live == old(live)[h := size] && h !in old(live)
      ensures maxUsed == Max(old(maxUsed), poolSize - available) && available == old(available) - size - HDR
      ensures trace == old(trace) + [poolSize - available]
    {
      hide IsCycle, AllFree, HighWater, Layout, Records, Solid, FlagsKnown;
      var x := h + size + HDR;
      CutFree(h, x);
      RemoveFree(h);
      InsertFree(x);
      available := available - size - HDR;
      NoteUse();
      AvailableIsNat();
      Record();
    }

    lemma AvailableIsNat()
      requires BlocksValid({})
      ensures FlagsKnown(blocks, used) && blocks != [] && AllFree(blocks, used) >= 0
    {
      FreeIsNat(blocks, used, first, last);
    }

    /** Gives out the whole free block `h`. */
    method GiveWhole(h: Addr, freeSize: int)
      requires Valid() && h in Members(ring) && h != header && h in next && freeSize == next[h] - h - HDR
      requires h in Members(blocks) && h != last && h in used && !used[h]
      modifies this
      ensures Valid() && bytes == old(bytes) && live == old(live)[h := freeSize] && h !in old(live)
      ensures maxUsed == Max(old(maxUsed), poolSize - available) && available == old(available) - freeSize
      ensures trace == old(trace) + [poolSize - available]
    {
      OccupyAt(blocks, used, next, prev, live, first, last, h);
      OccupyRing(ring, header, Members(blocks), used, h);
      assert h !in live;
      available := available - freeSize;
      NoteUse();
      RemoveFree(h);
      used := used[h := true];
      live := live[h := freeSize];
      AvailableIsNat();
      Record();
    }

    /** rt_memheap_alloc: 0 is the null pointer; otherwise `k` is the place of the block in the free list. */
    method Alloc(request: nat) returns (ptr: Addr, ghost k: nat)
      requires Valid()
      modifies this
      ensures Valid() && bytes == old(bytes)
      ensures ptr == 0 <==> old(Refuses(Rounded(request)))
      ensures ptr == 0 ==> live == old(live) && available == old(available) && maxUsed == old(maxUsed) && blocks == old(blocks) && ring == old(ring)
      ensures trace == old(trace) + if ptr == 0 then [] else [poolSize - available]
      ensures ptr != 0 ==> Rounded(request) < old(available) && FirstFit(old(ring), old(next), Rounded(request), k) && ptr - HDR == old(ring)[k]
      ensures ptr != 0 ==> Given(ptr - HDR, Rounded(request), old(live))
      ensures ptr != 0 ==> var room := old(next)[ptr - HDR] - ptr;
        live[ptr - HDR] == Share(room, Rounded(request)) && available == old(available) - Cost(room, Rounded(request))
      ensures maxUsed == Max(old(maxUsed), poolSize - available)
    {
      var size := Rounded(request);
      ptr, k := 0, 0;
      if size < available {
        var h, freeSize;
        h, freeSize, k := Search(size);
        if freeSize >= size {
          ListedIsFree(k);
          InPool(blocks, next, first, last, h);
          assert ring[k] in Members(ring);
          if freeSize >= size + HDR + MINIALLOC {
            GiveFront(h, size);
          } else {
            GiveWhole(h, freeSize);
          }
          ptr := h + HDR;
        }
      }
    }

    /** The heap while `h` is being released: `h` is free but maybe not listed, and blocks of `open` may have to merge. */
    ghost predicate Releasing(h: Addr, listed: bool, open: set<Addr>)
      reads this
    {
      && 0 < first && first + poolSize == last + HDR && (header < first || last < header)
      && BlocksValid(open) && h in Members(blocks) && h != last && h in used && !used[h]
      && IsCycle(nextFree, prevFree, ring) && ring[0] == header && header !in Members(blocks)
      && Members(blocks) <= used.Keys
      && Members(ring) == FreeBlocks(Members(blocks), used) - (if listed then {} else {h}) + {header}
      && available == AllFree(blocks, used)
      && |bytes| >= last
    }

    method Vacate(h: Addr)
      requires Valid() && h in live
      modifies this`used, this`available, this`live
      ensures h in next && h in prev && Releasing(h, false, {prev[h], h})
      ensures live == old(live) - {h} && used == old(used)[h := false] && available == old(available) + old(live)[h]
    {
      Neighbours(blocks, next, prev, h);
      InPool(blocks, next, first, last, h);
      VacateAt(blocks, used, next, prev, live, first, last, h);
      used := used[h := false];
      available := available + next[h] - h - HDR;
      live := live - {h};
    }

    /** Merges with the previous neighbour if that is free. */
    method MergeLeft(h: Addr) returns (h': Addr, listed: bool)
      requires h in prev && Releasing(h, false, {prev[h], h})
      modifies this`next, this`prev, this`blocks, this`live, this`available
      ensures Releasing(h', listed, {h'}) && live == old(live) && available == old(available) + if old(FreeBefore(h)) then HDR else 0
      ensures h in old(next) && h' in next && next[h'] == old(next)[h]
    {
      Neighbours(blocks, next, prev, h);
      var p := prev[h];
      assert p in used;
      if !used[p] {
        assert p != last;
        available := available + HDR;
        Merge(p, {p, h});
        Close(blocks, used, next, prev, live, first, last, StillOpen({p, h}, p, false, used[next[p]]), {p});
        h', listed := p, true;
      } else {
        Close(blocks, used, next, prev, live, first, last, {p, h}, {h});
        h', listed := h, false;
      }
    }

    /** Merges with the next neighbour if that is free. */
    method MergeRight(h: Addr, ghost listed: bool)
      requires Releasing(h, listed, {h})
      modifies this`next, this`prev, this`blocks, this`live, this`available, this`nextFree, this`prevFree, this`ring
      ensures Releasing(h, listed, {}) && live == old(live) && available == old(available) + if old(FreeBehind(h)) then HDR else 0
    {
      Neighbours(blocks, next, prev, h);
      InPool(blocks, next, first, last, h);
      var n := next[h];
      assert n in used;
      if !used[n] {
        Neighbours(blocks, next, prev, n);
        assert used[next[n]];
        available := available + HDR;
        Merge(h, {h});
        Close(blocks, used, next, prev, live, first, last, StillOpen({h}, h, false, used[next[h]]), {});
        RemoveFree(n);
      } else {
        Close(blocks, used, next, prev, live, first, last, {h}, {});
      }
    }

    /** Puts the released block into the free list, unless it already is there. */
    method List(h: Addr, listed: bool)
      requires Releasing(h, listed, {}) && HighWater(trace, maxUsed, poolSize) && maxUsed >= poolSize - available
      modifies this`nextFree, this`prevFree, this`ring, this`trace
      ensures Valid() && trace == old(trace) + [poolSize - available]
    {
      if !listed {
        InsertFree(h);
      }
      AvailableIsNat();
      Record();
    }

    lemma NeighboursOf(h: Addr)
      requires Valid() && h in live
      ensures h in next && h in prev && next[h] != h && prev[h] != h && live[h] >= 0 && live[h] == next[h] - h - HDR
      ensures h in Members(blocks) && h != last && h in used && used[h] && first <= h && h + HDR <= next[h] <= last
    {
      Neighbours(blocks, next, prev, h);
      InPool(blocks, next, first, last, h);
    }

    /** rt_memheap_free of an allocated block, or of the null pointer. */
    method Free(ptr: Addr)
      requires Valid() && (ptr != 0 ==> ptr - HDR in live)
      modifies this
      ensures Valid() && bytes == old(bytes) && maxUsed == old(maxUsed)
      ensures live == if ptr == 0 then old(live) else old(live) - {ptr - HDR}
      ensures available == old(available) + if ptr == 0 then 0 else old(Gain(ptr - HDR))
      ensures trace == old(trace) + if ptr == 0 then [] else [poolSize - available]
    {
      hide Heap.Releasing, Heap.BlocksValid, IsCycle, FreeRing, AllFree, HighWater;
      if ptr == 0 {
        return;
      }
      var h := ptr - HDR;
      NeighboursOf(h);
      var listed;
      Vacate(h);
      h, listed := MergeLeft(h);
      MergeRight(h, listed);
      List(h, listed);
    }

    /** rt_memcpy. */
    method Copy(dst: Addr, src: Addr, n: nat)
      requires 0 <= dst && dst + n <= |bytes| && 0 <= src && src + n <= |bytes|
      modifies this`bytes
      ensures |bytes| == |old(bytes)|
      ensures forall a {:trigger bytes[a]} :: 0 <= a < |bytes| ==> bytes[a] == if dst <= a < dst + n then old(bytes)[a - dst + src] else old(bytes)[a]
    {
      var b := bytes;
      bytes := seq(|b|, a requires 0 <= a < |b| => if dst <= a < dst + n then b[a - dst + src] else b[a]);
    }

    /** The free block behind `h` has room for `h` to grow to `size` bytes. */
    ghost predicate CanGrow(h: Addr, size: nat)
      reads this
    {
      && h in next && next[h] in used && !used[next[h]] && next[h] in next
      && (next[next[h]] - next[h] - HDR) + (next[h] - h - HDR) > size + MINIALLOC
    }

    /** The free block behind `h` leaves the free list and becomes part of `h`. */
    method TakeNext(h: Addr)
      requires BlocksValid({}) && IsCycle(nextFree, prevFree, ring) && FreeRing(ring, header, Members(blocks), used)
      requires h in live && h in next && next[h] in used && !used[next[h]]
      modifies this`next, this`prev, this`blocks, this`live, this`nextFree, this`prevFree, this`ring
      ensures BlocksValid({}) && IsCycle(nextFree, prevFree, ring) && FreeRing(ring, header, Members(blocks), used)
      ensures old(next)[h] in old(next) && next == old(next)[h := old(next)[old(next)[h]]] && next[h] in used && used[next[h]] && next[h] <= last
      ensures live == old(live)[h := next[h] - h - HDR]
      ensures AllFree(blocks, used) == old(AllFree(blocks, used)) - (next[h] - old(next)[h] - HDR)
    {
      var n := next[h];
      Neighbours(blocks, next, prev, h);
      Neighbours(blocks, next, prev, n);
      InPool(blocks, next, first, last, n);
      RemoveFree(n);
      Merge(h, {});
    }

    /** Growing in place: the free block behind `h` is taken out and a shorter one put behind the longer `h`. */
    method Grow(h: Addr, size: nat)
      requires Valid() && h in live && live[h] < size && CanGrow(h, size)
      modifies this
      ensures Valid() && bytes == old(bytes) && live == old(live)[h := size]
      ensures available == old(available) - (size - old(live)[h]) && maxUsed == Max(old(maxUsed), poolSize - available)
      ensures trace == old(trace) + [poolSize - available]
    {
      hide IsCycle, HighWater, AllFree, Tiling, Solid, FlagsKnown, Layout;
      NeighboursOf(h);
      available := available - (size - (next[h] - h - HDR));
      NoteUse();
      TakeNext(h);
      Regrow(h, h + HDR + size);
      AvailableIsNat();
      Record();
    }

    method Regrow(h: Addr, x: Addr)
      requires BlocksValid({}) && h in live && h in next && next[h] in used && used[next[h]] && h + HDR <= x && x + HDR <= next[h] <= last
      requires IsCycle(nextFree, prevFree, ring) && FreeRing(ring, header, Members(blocks), used) && (header < first || last < header)
      modifies this`next, this`prev, this`used, this`blocks, this`live, this`nextFree, this`prevFree, this`ring
      ensures BlocksValid({}) && IsCycle(nextFree, prevFree, ring) && FreeRing(ring, header, Members(blocks), used)
      ensures live == old(live)[h := x - h - HDR]
      ensures AllFree(blocks, used) == old(AllFree(blocks, used)) + (old(next)[h] - x - HDR)
    {
      SplitOff(h, x);
      InsertFree(x);
    }

    /** Splitting when the block behind is in use. */
    method SplitOff(h: Addr, x: Addr)
      requires BlocksValid({}) && h in Members(blocks) && h != last && h in next && h in used && used[h] && next[h] in used && used[next[h]]
      requires h + HDR <= x && x + HDR <= next[h]
      modifies this`next, this`prev, this`used, this`blocks, this`live
      ensures BlocksValid({}) && live == old(live)[h := x - h - HDR]
      ensures Members(blocks) == old(Members(blocks)) + {x} && x !in old(Members(blocks)) && first <= x < last
      ensures Members(blocks) <= used.Keys && Members(blocks) - {x} <= old(used).Keys
      ensures FreeBlocks(Members(blocks), used) == FreeBlocks(Members(blocks) - {x}, old(used)) + {x}
      ensures AllFree(blocks, used) == old(AllFree(blocks, used)) + (old(next)[h] - x - HDR)
    {
      InPool(blocks, next, first, last, h);
      Split(h, x);
      Close(blocks, used, next, prev, live, first, last, {x}, {});
    }

    /** The free block `x`, not yet listed, merges with the next one if that is free; returns the bytes that
        thereby leave the free list. */
    method MergeCut(x: Addr) returns (gone: int)
      requires BlocksValid({x}) && x in Members(blocks) && x != last && x in used && !used[x]
      requires IsCycle(nextFree, prevFree, ring) && ring[0] == header && header !in Members(blocks)
      requires Members(blocks) <= used.Keys && Members(ring) == FreeBlocks(Members(blocks), used) - {x} + {header}
      modifies this`next, this`prev, this`blocks, this`live, this`nextFree, this`prevFree, this`ring
      ensures BlocksValid({}) && x in Members(blocks) && x != last && live == old(live) && x in next
      ensures IsCycle(nextFree, prevFree, ring) && ring[0] == header && header !in Members(blocks)
      ensures Members(blocks) <= used.Keys && Members(ring) == FreeBlocks(Members(blocks), used) - {x} + {header}
      ensures x + HDR <= next[x] && x in old(next) && 0 <= gone <= next[x] - x - HDR
      ensures next[x] - gone == old(next)[x] + if old(FreeBehind(x)) then HDR else 0
      ensures AllFree(blocks, used) == old(AllFree(blocks, used)) - (old(next)[x] - x - HDR) - gone + (next[x] - x - HDR)
    {
      InPool(blocks, next, first, last, x);
      Neighbours(blocks, next, prev, x);
      var n := next[x];
      gone := 0;
      if !used[n] {
        Neighbours(blocks, next, prev, n);
        InPool(blocks, next, first, last, n);
        gone := next[n] - n - HDR;
        assert used[next[n]];
        Merge(x, {x});
        Close(blocks, used, next, prev, live, first, last, StillOpen({x}, x, false, used[next[x]]), {});
        RemoveFree(n);
      } else {
        Close(blocks, used, next, prev, live, first, last, {x}, {});
      }
    }

    /** Shrinking in place: the rest of `h` becomes a free block, merged with the next one if that is free. */
    method Shrink(h: Addr, size: nat)
      requires Valid() && h in live && size + HDR + MINIALLOC < live[h]
      modifies this
      ensures Valid() && bytes == old(bytes) && live == old(live)[h := size] && maxUsed == old(maxUsed)
      ensures available == old(available) + (old(live)[h] - size) - if old(FreeBehind(h)) then 0 else HDR
      ensures trace == old(trace) + [poolSize - available]
    {
      hide Forward, Backward, HighWater, AllFree, Tiling, Solid, Records, FlagsKnown;
      NeighboursOf(h);
      var x := h + HDR + size;
      Split(h, x);
      var gone := MergeCut(x);
      available := available - gone;
      ListCut(x);
    }

    method ListCut(x: Addr)
      requires 0 < first && first + poolSize == last + HDR && (header < first || last < header) && |bytes| >= last
      requires BlocksValid({}) && x in Members(blocks) && x in next && x + HDR <= next[x]
      requires IsCycle(nextFree, prevFree, ring) && ring[0] == header && header !in Members(blocks)
      requires Members(blocks) <= used.Keys && x in used && !used[x] && Members(ring) == FreeBlocks(Members(blocks), used) - {x} + {header}
      requires available + (next[x] - x - HDR) == AllFree(blocks, used)
      requires HighWater(trace, maxUsed, poolSize) && maxUsed >= poolSize - available - (next[x] - x - HDR)
      modifies this`nextFree, this`prevFree, this`ring, this`available, this`trace
      ensures Valid() && available == old(available) + (next[x] - x - HDR) && trace == old(trace) + [poolSize - available]
    {
      InsertFree(x);
      available := available + (next[x] - x - HDR);
      AvailableIsNat();
      Record();
    }

    /** Copies the front of the payload of `n` from that of `h`; no other payload changes. */
    method CopyPayload(n: Addr, h: Addr, size: nat)
      requires Valid() && n in live && h in live && size <= live[n] && size <= live[h]
      modifies this`bytes
      ensures OthersKeep(n, live, old(bytes), bytes) && Copied(n, h, size, old(bytes), bytes)
    {
      PayloadsDisjoint(live, blocks, used, next, first, last, n);
      PayloadsDisjoint(live, blocks, used, next, first, last, h);
      Copy(n + HDR, h + HDR, size);
    }

    /** Moving: a new block, the contents copied, the old block released. `low` is the number of available bytes
        while both blocks are allocated. */
    method Move(h: Addr, size: nat) returns (ptr: Addr, ghost low: int)
      requires Valid() && h in live && live[h] < size && Rounded(size) == size
      modifies this
      ensures Valid() && (ptr == 0 <==> old(Refuses(size)))
      ensures ptr == 0 ==> live == old(live) && bytes == old(bytes) && low == available == old(available) && maxUsed == old(maxUsed) && trace == old(trace)
      ensures ptr != 0 ==> ptr - HDR !in old(live) && ptr - HDR in live && live == (old(live) - {h})[ptr - HDR := live[ptr - HDR]]
      ensures ptr != 0 ==> live[ptr - HDR] >= size && OthersKeep(h, old(live), old(bytes), bytes) && Copied(ptr - HDR, h, old(live)[h], old(bytes), bytes)
      ensures ptr != 0 ==> ptr - HDR in old(next) && low == old(available) - Cost(old(next)[ptr - HDR] - ptr, size)
      ensures ptr != 0 ==> low + old(live)[h] <= available <= low + old(live)[h] + 2 * HDR
      ensures ptr != 0 ==> maxUsed == Max(old(maxUsed), poolSize - low) && trace == old(trace) + [poolSize - low, poolSize - available]
    {
      LiveDisjoint(live, blocks, used, next, first, last, h, last);
      var oldSize := next[h] - h - HDR;
      ghost var k;
      ptr, k := Alloc(size);
      low := available;
      if ptr != 0 {
        CopyPayload(ptr - HDR, h, oldSize);
        OthersStill(ptr - HDR, h, old(live), live, old(bytes), bytes);
        Free(h + HDR);
      }
    }

    /** What a reallocation of block `h` to `size` bytes leaves when the block does not grow: it stays as it is, or is cut when a
        further block fits behind it. */
    twostate predicate Kept(h: Addr, size: nat)
      requires h in old(live)
      reads this
    {
      if size + HDR + MINIALLOC >= old(live)[h] then live == old(live) && available == old(available) && trace == old(trace)
      else
        && live == old(live)[h := size] && trace == old(trace) + [poolSize - available]
        && available == old(available) + (old(live)[h] - size) - if old(FreeBehind(h)) then 0 else HDR
    }

    /** When it grows in place. */
    twostate predicate Grown(h: Addr, size: nat)
      requires h in old(live)
      reads this
    {
      live == old(live)[h := size] && available == old(available) - (size - old(live)[h]) && trace == old(trace) + [poolSize - available]
    }

    /** When it moves to `n`, which it does unless no allocation is possible. */
    twostate predicate Moved(h: Addr, size: nat, n: Addr, low: int)
      requires h in old(live)
      reads this
    {
      && n !in old(live) && n in live && live == (old(live) - {h})[n := live[n]]
      && live[n] >= size && OthersKeep(h, old(live), old(bytes), bytes) && Copied(n, h, old(live)[h], old(bytes), bytes)
      && n in old(next) && low == old(available) - Cost(old(next)[n] - n - HDR, size)
      && low + old(live)[h] <= available <= low + old(live)[h] + 2 * HDR
      && trace == old(trace) + [poolSize - low, poolSize - available]
    }

    /** Nothing has changed. */
    twostate predicate Same()
      reads this
    {
      live == old(live) && bytes == old(bytes) && available == old(available) && maxUsed == old(maxUsed) && trace == old(trace)
    }

    /** rt_memheap_realloc. `low` is the smallest number of available bytes on the way, which is that in the end or in the
        beginning unless the contents move: then both blocks are allocated for a while. */
    method Realloc(ptr: Addr, request: nat) returns (r: Addr, ghost low: int)
      requires Valid() && (ptr != 0 ==> ptr - HDR in live)
      modifies this
      ensures Valid() && maxUsed == Max(old(maxUsed), poolSize - low)
      // size 0 releases
      ensures request == 0 ==> r == 0 && low == old(available) && bytes == old(bytes)
      ensures request == 0 && ptr == 0 ==> Same()
      ensures request == 0 && ptr != 0 ==>
        live == old(live) - {ptr - HDR} && available == old(available) + old(Gain(ptr - HDR)) && trace == old(trace) + [poolSize - available]
      // the null pointer allocates
      ensures request > 0 && ptr == 0 ==> low == available && bytes == old(bytes) && (r == 0 <==> old(Refuses(Rounded(request))))
      ensures request > 0 && ptr == 0 ==>
        if r == 0 then Same()
        else
          && Given(r - HDR, Rounded(request), old(live)) && trace == old(trace) + [poolSize - available]
          && r - HDR in old(next) && available == old(available) - Cost(old(next)[r - HDR] - r, Rounded(request))
      // a block that does not grow stays
      ensures request > 0 && ptr != 0 && Rounded(request) <= old(live)[ptr - HDR] ==>
        r == ptr && bytes == old(bytes) && low == old(available) && Kept(ptr - HDR, Rounded(request))
      // one grows in place exactly when the next block is free and large enough
      ensures request > 0 && ptr != 0 && Rounded(request) > old(live)[ptr - HDR] && old(CanGrow(ptr - HDR, Rounded(request))) ==>
        r == ptr && bytes == old(bytes) && low == available && Grown(ptr - HDR, Rounded(request))
      // otherwise it moves, with the contents, or nothing changes
      ensures request > 0 && ptr != 0 && Rounded(request) > old(live)[ptr - HDR] && !old(CanGrow(ptr - HDR, Rounded(request))) ==>
        && (r == 0 <==> old(Refuses(Rounded(request))))
        && if r == 0 then Same() && low == available else Moved(ptr - HDR, Rounded(request), r - HDR, low)
    {
      hide Forward, Backward, HighWater, AllFree, Tiling, FreeRing, OthersKeep, Copied, Heap.Refuses;
      if request == 0 {
        low := available;
        Free(ptr);
        return 0, low;
      }
      var size := Rounded(request);
      RoundedTwice(request);
      if ptr == 0 {
        ghost var k;
        r, k := Alloc(size);
        low := available;
        return;
      }
      var h := ptr - HDR;
      NeighboursOf(h);
      var oldSize := next[h] - h - HDR;
      if size > oldSize {
        InPool(blocks, next, first, last, h);
        Neighbours(blocks, next, prev, h);
        var n := next[h];
        // the last block is never handed out, so the one behind lies higher
        assert n > h;
        if !used[n] && (next[n] - n - HDR) + oldSize > size + MINIALLOC {
          Grow(h, size);
          return ptr, available;
        }
        r, low := Move(h, size);
        return;
      }
      low := available;
      if size + HDR + MINIALLOC >= oldSize {
        return ptr, low;
      }
      Shrink(h, size);
      r := ptr;
    }

    /** In every run max_used_size is the largest number of bytes that were taken after any call, and no more than the pool
        has. */
    lemma MaxUsedIsHighWater()
      requires Valid()
      ensures maxUsed in trace && maxUsed <= poolSize && forall i :: 0 <= i < |trace| ==> trace[i] <= maxUsed
      ensures trace[|trace| - 1] == poolSize - available
    {
      assert forall i :: 0 <= i < |trace| ==> trace[i] in trace;
    }
  }

  lemma FreeIsNat(b: seq<Addr>, used: map<Addr, bool>, first: Addr, last: Addr)
    requires Tiling(b, first, last) && FlagsKnown(b, used)
    ensures AllFree(b, used) >= 0
  {
    FreeBytesNat(b, used, first, last, |b| - 1);
  }

  lemma {:induction false} FreeBytesNat(b: seq<Addr>, used: map<Addr, bool>, first: Addr, last: Addr, n: nat)
    requires Tiling(b, first, last) && FlagsKnown(b, used) && n < |b|
    ensures FreeBytes(b, used, n) >= 0
  {
    if n > 0 {
      FreeBytesNat(b, used, first, last, n - 1);
      assert Clear(b, n - 1, n);
    }
  }
}
