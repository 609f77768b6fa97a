/** The small-memory heap of src/mem.c: first fit from the lowest free block on. Each call is one step. */
module SmallMem {
  import opened SmallMemLayout

  const NOTHING := -1

  function Align(n: nat): (r: nat)
    ensures n <= r < n + 4 && r % 4 == 0
  {
    (n + 3) / 4 * 4
  }

  /** The index of the block at offset `a`, or the length of the list. */
  function Locate(bs: seq<Block>, a: int): (k: nat)
    ensures k <= |bs| && (k < |bs| ==> bs[k].at == a) && forall i :: 0 <= i < k ==> bs[i].at != a
  {
    if bs == [] || bs[0].at == a then 0 else 1 + Locate(bs[1..], a)
  }

  function NextFree(bs: seq<Block>, i: nat): (k: nat)
    requires i <= |bs|
    ensures i <= k <= |bs| && (k < |bs| ==> !bs[k].used) && forall j :: i <= j < k ==> bs[j].used
    decreases |bs| - i
  {
    if i == |bs| || !bs[i].used then i else NextFree(bs, i + 1)
  }

  predicate Suits(s: State, n: int, i: int) {
    0 <= i < |s.blocks| && !s.blocks[i].used && Payload(s, i) >= n
  }

  /** The loop of rt_malloc: from block `i` on, as long as the block starts below `size - n`. */
  function Search(s: State, n: int, i: nat): (k: nat)
    requires i <= |s.blocks|
    ensures i <= k <= |s.blocks| && (k < |s.blocks| ==> Suits(s, n, k) && s.blocks[k].at < s.size - n)
    decreases |s.blocks| - i
  {
    if i == |s.blocks| || s.blocks[i].at >= s.size - n then |s.blocks|
    else if Suits(s, n, i) then i
    else Search(s, n, i + 1)
  }

  function Count(s: State, bytes: int): State {
    s.(used := s.used + bytes, max := if s.used + bytes > s.max then s.used + bytes else s.max)
  }

  /** Hands out block `i`, of which the rest is split off if it can hold MIN_SIZE bytes. */
  function Give(s: State, i: nat, n: int): State
    requires i < |s.blocks|
  {
    var at := s.blocks[i].at;
    var split := Payload(s, i) >= n + HDR + MIN_SIZE;
    var bs := if split then Cut(s.blocks, i, at + HDR + n) else Flag(s.blocks, i, true);
    var lfree := if at == s.lfree then At(bs, End(s), NextFree(bs, i)) else s.lfree;
    Count(s.(blocks := bs, lfree := lfree), if split then n + HDR else Payload(s, i) + HDR)
  }

  /** What rt_malloc looks for. */
  function Request(size: nat): nat {
    if Align(size) < MIN_SIZE then MIN_SIZE else Align(size)
  }

  /** rt_malloc. */
  function Malloc(s: State, size: nat): (State, int) {
    if size == 0 || Align(size) > s.size then (s, NOTHING)
    else
      var k := Search(s, Request(size), Locate(s.blocks, s.lfree));
      if k == |s.blocks| then (s, NOTHING) else (Give(s, k, Request(size)), s.blocks[k].at + HDR)
  }

  /** plug_holes, forward. */
  function PlugForward(s: State, i: nat): State
    requires i < |s.blocks|
  {
    if i + 1 < |s.blocks| && !s.blocks[i + 1].used then
      s.(blocks := Join(s.blocks, i), lfree := if s.lfree == s.blocks[i + 1].at then s.blocks[i].at else s.lfree)
    else s
  }

  /** plug_holes, backward. */
  function PlugBackward(s: State, i: nat): State
    requires i < |s.blocks|
  {
    if i > 0 && !s.blocks[i - 1].used then
      s.(blocks := Join(s.blocks, i - 1), lfree := if s.lfree == s.blocks[i].at then s.blocks[i - 1].at else s.lfree)
    else s
  }

  function Plug(s: State, i: nat): State
    requires i < |s.blocks|
  {
    PlugBackward(PlugForward(s, i), i)
  }

  /** rt_free of block `i`, up to the call of plug_holes. */
  function Clear(s: State, i: nat): State
    requires i < |s.blocks|
  {
    var at := s.blocks[i].at;
    s.(blocks := Flag(s.blocks, i, false), lfree := if at < s.lfree then at else s.lfree, used := s.used - Payload(s, i) - HDR)
  }

  function Free(s: State, i: nat): State
    requires i < |s.blocks|
  {
    Plug(Clear(s, i), i)
  }

  /** rt_realloc of block `i` to a size so small that the rest makes a block, up to the call of plug_holes. */
  function SplitOff(s: State, i: nat, n: int): (r: State)
    requires i < |s.blocks|
    ensures i + 1 < |r.blocks|
  {
    s.(blocks := Cut(s.blocks, i, s.blocks[i].at + HDR + n), used := s.used - (Payload(s, i) - n))
  }

  /** Here `lfree` is not lowered. */
  function Shrink(s: State, i: nat, n: int): State
    requires i < |s.blocks|
  {
    Plug(SplitOff(s, i, n), i + 1)
  }

  // ----- the invariant -----

  /** `lfree` is a free block or the sentinel. */
  ghost predicate LfreeOk(s: State) {
    var k := Locate(s.blocks, s.lfree);
    At(s.blocks, End(s), k) == s.lfree && (k < |s.blocks| ==> !s.blocks[k].used)
  }

  /** No free block lies below `lfree`. */
  ghost predicate Lowest(s: State) {
    forall i :: 0 <= i < |s.blocks| && !s.blocks[i].used ==> s.lfree <= s.blocks[i].at
  }

  ghost predicate Sound(s: State) {
    && s.size % 4 == 0 && s.size >= MIN_SIZE && Tiled(s.blocks, End(s)) && s.used == UsedBytes(s.blocks, End(s)) <= s.max
  }

  ghost predicate Inv(s: State) {
    Sound(s) && Solid(s.blocks, {}) && LfreeOk(s)
  }

  lemma LocateIs(bs: seq<Block>, end: int, k: nat)
    requires Tiled(bs, end) && k <= |bs|
    ensures Locate(bs, At(bs, end, k)) == k
  {
    var a := At(bs, end, k);
    var o := Locate(bs, a);
    if o < k { Order(bs, end, o, k); }
  }

  lemma SetLfree(s: State, k: nat)
    requires Tiled(s.blocks, End(s)) && k <= |s.blocks| && s.lfree == At(s.blocks, End(s), k) && (k < |s.blocks| ==> !s.blocks[k].used)
    ensures LfreeOk(s)
  {
    LocateIs(s.blocks, End(s), k);
  }

  // ----- allocation -----

  /** A block found by the search is the first that suits; if none is found, none suits below the bound. */
  lemma {:induction false} SearchIsFirst(s: State, n: int, i: nat, j: nat)
    requires Tiled(s.blocks, End(s)) && i <= j < |s.blocks| && j < Search(s, n, i) && s.blocks[j].at < s.size - n
    ensures !Suits(s, n, j)
    decreases |s.blocks| - i
  {
    if s.blocks[i].at >= s.size - n {
      if i < j { Order(s.blocks, End(s), i, j); }
    } else if i < j {
      SearchIsFirst(s, n, i + 1, j);
    }
  }

  lemma CutFree(bs: seq<Block>, end: int, i: nat, x: int)
    requires Tiled(bs, end) && Solid(bs, {}) && i < |bs| && !bs[i].used
    requires bs[i].at + HDR <= x && x + HDR <= At(bs, end, i + 1) && x % 4 == 0
    ensures Tiled(Cut(bs, i, x), end) && Solid(Cut(bs, i, x), {}) && UsedBytes(Cut(bs, i, x), end) == UsedBytes(bs, end) + (x - bs[i].at)
  {
    CutTiled(bs, end, i, x);
    CutUsed(bs, end, i, x);
    NextUsed(bs, i);
    CutSolid(bs, i, x);
  }

  lemma UseFree(bs: seq<Block>, end: int, i: nat)
    requires Tiled(bs, end) && Solid(bs, {}) && i < |bs| && !bs[i].used
    ensures Tiled(Flag(bs, i, true), end) && Solid(Flag(bs, i, true), {})
    ensures UsedBytes(Flag(bs, i, true), end) == UsedBytes(bs, end) + (At(bs, end, i + 1) - bs[i].at)
  {
    FlagTiled(bs, end, i, true);
    FlagUsed(bs, end, i, true);
    FlagSolid(bs, i);
  }

  lemma GiveSound(s: State, i: nat, n: int)
    requires Inv(s) && Suits(s, n, i) && n >= MIN_SIZE && n % 4 == 0
    ensures Sound(Give(s, i, n)) && Solid(Give(s, i, n).blocks, {})
  {
    assert Fits(s.blocks, End(s), i);
    if Payload(s, i) >= n + HDR + MIN_SIZE {
      CutFree(s.blocks, End(s), i, s.blocks[i].at + HDR + n);
    } else {
      UseFree(s.blocks, End(s), i);
    }
  }

  lemma NextUsed(bs: seq<Block>, i: nat)
    requires Solid(bs, {}) && i < |bs| && !bs[i].used
    ensures i + 1 < |bs| ==> bs[i + 1].used
    ensures i > 0 ==> bs[i - 1].used
  {
    if i > 0 { assert bs[i - 1].used; }
  }

  lemma FlagSolid(bs: seq<Block>, i: nat)
    requires Solid(bs, {}) && i < |bs|
    ensures Solid(Flag(bs, i, true), {})
  {
    var c := Flag(bs, i, true);
    forall j | 0 <= j < |c| - 1 ensures c[j].used || c[j + 1].used { assert bs[j].used || bs[j + 1].used; }
  }

  /** The blocks in front of block `i` stay as they are, block `i` is now in use. */
  lemma GiveBlocks(s: State, i: nat, n: int)
    requires i < |s.blocks|
    ensures var r := Give(s, i, n);
      && |s.blocks| <= |r.blocks| && (forall j :: 0 <= j < i ==> r.blocks[j] == s.blocks[j]) && r.blocks[i] == Block(s.blocks[i].at, true)
      && r.size == s.size
  {
  }

  lemma GiveLfree(s: State, i: nat, n: int)
    requires Inv(s) && Suits(s, n, i) && n >= MIN_SIZE && n % 4 == 0 && Locate(s.blocks, s.lfree) <= i
    ensures LfreeOk(Give(s, i, n)) && (Lowest(s) ==> Lowest(Give(s, i, n)))
  {
    var r, k := Give(s, i, n), Locate(s.blocks, s.lfree);
    GiveSound(s, i, n);
    GiveBlocks(s, i, n);
    if k == i {
      SetLfree(r, NextFree(r.blocks, i));
      forall j | 0 <= j < |r.blocks| && !r.blocks[j].used && Lowest(s) ensures r.lfree <= r.blocks[j].at {
        if j < i { Order(s.blocks, End(s), j, i); }
        if NextFree(r.blocks, i) < j { Order(r.blocks, End(r), NextFree(r.blocks, i), j); }
      }
    } else {
      Order(s.blocks, End(s), k, i);
      SetLfree(r, k);
      forall j | 0 <= j < |r.blocks| && !r.blocks[j].used && Lowest(s) ensures r.lfree <= r.blocks[j].at {
        if k < j { Order(r.blocks, End(r), k, j); } else if j < k { assert !s.blocks[j].used; }
      }
    }
  }

  /** rt_malloc keeps the heap in order, and `lfree` the lowest free block if it was. */
  lemma MallocKeeps(s: State, size: nat)
    requires Inv(s)
    ensures Inv(Malloc(s, size).0) && (Lowest(s) ==> Lowest(Malloc(s, size).0))
  {
    if size > 0 && Align(size) <= s.size {
      var n := Request(size);
      var k := Search(s, n, Locate(s.blocks, s.lfree));
      if k < |s.blocks| {
        GiveSound(s, k, n);
        GiveLfree(s, k, n);
      }
    }
  }

  /** A free block that is large enough starts below the bound of the search unless it is the last one and fits exactly. */
  lemma BoundExcludes(s: State, n: int, i: nat)
    requires Inv(s) && Suits(s, n, i)
    ensures s.blocks[i].at <= s.size - n
    ensures s.blocks[i].at == s.size - n <==> i + 1 == |s.blocks| && Payload(s, i) == n
  {
    if i + 1 < |s.blocks| { InHeap(s.blocks, End(s), i + 1); }
  }

  /** A block that suits and that the bound of the search does not shut out. */
  predicate Serves(s: State, n: int, i: int) {
    Suits(s, n, i) && !(i + 1 == |s.blocks| && Payload(s, i) == n)
  }

  /** rt_malloc of up to the heap size fails exactly if no free block at or above `lfree` suits but perhaps the last one with an
      exact fit; else it hands out the first that suits of those. */
  lemma MallocFinds(s: State, size: nat)
    requires Inv(s) && 0 < size && Align(size) <= s.size
    ensures var n, a := Request(size), Malloc(s, size).1;
      && (a == NOTHING <==> forall i :: Serves(s, n, i) ==> s.blocks[i].at < s.lfree)
      && (a != NOTHING ==>
            var k := Locate(s.blocks, a - HDR);
            k < |s.blocks| && Suits(s, n, k) && s.lfree <= s.blocks[k].at
            && forall i :: Suits(s, n, i) && s.lfree <= s.blocks[i].at ==> k <= i)
  {
    var n, o := Request(size), Locate(s.blocks, s.lfree);
    var k := Search(s, n, o);
    forall i | Suits(s, n, i) && s.lfree <= s.blocks[i].at ensures o <= i && (i < k ==> !Serves(s, n, i)) {
      BoundExcludes(s, n, i);
      if i < o { Order(s.blocks, End(s), i, o); }
      if i < k && s.blocks[i].at < s.size - n { SearchIsFirst(s, n, o, i); }
    }
    if k < |s.blocks| { FoundServes(s, n, o, k); }
  }

  lemma FoundServes(s: State, n: int, o: nat, k: nat)
    requires Inv(s) && o == Locate(s.blocks, s.lfree) && k == Search(s, n, o) < |s.blocks|
    ensures Serves(s, n, k) && Locate(s.blocks, s.blocks[k].at) == k && 0 <= s.blocks[k].at && s.lfree <= s.blocks[k].at
  {
    InHeap(s.blocks, End(s), k);
    BoundExcludes(s, n, k);
    LocateIs(s.blocks, End(s), k);
    if o < k { Order(s.blocks, End(s), o, k); }
  }

  /** rt_malloc fails although a free block could serve if and only if there is one, and all there are lie below `lfree`; so it
      never does as long as `lfree` is the lowest free block. */
  lemma MallocMissesIff(s: State, size: nat)
    requires Inv(s) && 0 < size && Align(size) <= s.size
    ensures var n := Request(size);
      (Malloc(s, size).1 == NOTHING && exists i :: Serves(s, n, i))
      <==> (exists i :: Serves(s, n, i)) && forall i :: Serves(s, n, i) ==> s.blocks[i].at < s.lfree
    ensures Lowest(s) ==> (Malloc(s, size).1 == NOTHING <==> forall i :: !Serves(s, Request(size), i))
  {
    MallocFinds(s, size);
  }

  /** An empty heap does not hand out all of its bytes, but does so of any four less. */
  lemma WholeHeapIsRefused(s: State)
    requires Inv(s) && s.blocks == [Block(0, false)] && s.lfree == 0
    ensures Payload(s, 0) == s.size && Malloc(s, s.size).1 == NOTHING
    ensures s.size >= MIN_SIZE + 4 ==> Malloc(s, s.size - 4).1 == HDR
  {
    var n := s.size;
    assert Search(s, n, 0) == 1;
    if s.size >= MIN_SIZE + 4 { assert Search(s, n - 4, 0) == 0; }
  }

  // ----- release -----

  /** The state after a change that made block `i` free, before its neighbours are looked at. */
  ghost predicate Loose(s: State, i: nat, open: set<int>) {
    Sound(s) && i < |s.blocks| && !s.blocks[i].used && Solid(s.blocks, open) && LfreeOk(s)
  }

  lemma ForwardKeeps(s: State, i: nat)
    requires Loose(s, i, {i - 1, i})
    ensures Loose(PlugForward(s, i), i, {i - 1}) && (Lowest(s) ==> Lowest(PlugForward(s, i)))
    ensures var r := PlugForward(s, i); r.size == s.size && forall j :: 0 <= j <= i ==> r.blocks[j] == s.blocks[j]
  {
    var r, k := PlugForward(s, i), Locate(s.blocks, s.lfree);
    if r != s {
      JoinTiled(s.blocks, End(s), i);
      JoinUsed(s.blocks, End(s), i);
      JoinSolid(s.blocks, i, {i - 1, i});
      assert {i - 1, i} - {i} == {i - 1};
      Moved(s, i, k);
      if Lowest(s) { JoinLowest(s, i); }
    } else {
      forall j | 0 <= j < |s.blocks| - 1 ensures s.blocks[j].used || s.blocks[j + 1].used || j in {i - 1} {}
    }
  }

  /** After block `i` has taken in the next one, `lfree` is right again. */
  lemma Moved(s: State, i: nat, k: nat)
    requires Tiled(s.blocks, End(s)) && i + 1 < |s.blocks| && !s.blocks[i].used && !s.blocks[i + 1].used && LfreeOk(s) && k == Locate(s.blocks, s.lfree)
    ensures LfreeOk(s.(blocks := Join(s.blocks, i), lfree := if s.lfree == s.blocks[i + 1].at then s.blocks[i].at else s.lfree))
  {
    var r := s.(blocks := Join(s.blocks, i), lfree := if s.lfree == s.blocks[i + 1].at then s.blocks[i].at else s.lfree);
    JoinTiled(s.blocks, End(s), i);
    if k == i + 1 {
      SetLfree(r, i);
    } else {
      LocateIs(s.blocks, End(s), i + 1);
      SetLfree(r, if k <= i then k else k - 1);
    }
  }

  lemma JoinLowest(s: State, i: nat)
    requires Tiled(s.blocks, End(s)) && i + 1 < |s.blocks| && !s.blocks[i].used && Lowest(s)
    ensures Lowest(s.(blocks := Join(s.blocks, i), lfree := if s.lfree == s.blocks[i + 1].at then s.blocks[i].at else s.lfree))
  {
    Order(s.blocks, End(s), i, i + 1);
    var c := Join(s.blocks, i);
    assert forall j :: 0 <= j < |c| ==> c[j] == if j <= i then s.blocks[j] else s.blocks[j + 1];
  }

  lemma BackwardKeeps(s: State, i: nat)
    requires Loose(s, i, {i - 1})
    ensures Inv(PlugBackward(s, i)) && (Lowest(s) ==> Lowest(PlugBackward(s, i)))
  {
    var r, k := PlugBackward(s, i), Locate(s.blocks, s.lfree);
    if r != s {
      JoinTiled(s.blocks, End(s), i - 1);
      JoinUsed(s.blocks, End(s), i - 1);
      JoinSolid(s.blocks, i - 1, {i - 1});
      assert {i - 1} - {i - 1} == {};
      Moved(s, i - 1, k);
      if Lowest(s) { JoinLowest(s, i - 1); }
    } else {
      forall j | 0 <= j < |s.blocks| - 1 ensures s.blocks[j].used || s.blocks[j + 1].used || j in {} {}
    }
  }

  lemma PlugKeeps(s: State, i: nat)
    requires Loose(s, i, {i - 1, i})
    ensures Inv(Plug(s, i)) && (Lowest(s) ==> Lowest(Plug(s, i)))
  {
    ForwardKeeps(s, i);
    BackwardKeeps(PlugForward(s, i), i);
  }

  lemma FreeLoose(s: State, i: nat)
    requires Inv(s) && i < |s.blocks| && s.blocks[i].used
    ensures Loose(Clear(s, i), i, {i - 1, i}) && (Lowest(s) ==> Lowest(Clear(s, i)))
  {
    var at, k := s.blocks[i].at, Locate(s.blocks, s.lfree);
    var m := Clear(s, i);
    FlagTiled(s.blocks, End(s), i, false);
    FlagUsed(s.blocks, End(s), i, false);
    forall j | 0 <= j < |m.blocks| - 1 ensures m.blocks[j].used || m.blocks[j + 1].used || j in {i - 1, i} {
      assert s.blocks[j].used || s.blocks[j + 1].used;
    }
    assert Fits(s.blocks, End(s), i);
    SetLfree(m, if at < s.lfree then i else k);
    forall j | 0 <= j < |m.blocks| && !m.blocks[j].used && Lowest(s) ensures m.lfree <= m.blocks[j].at {
      assert j != i ==> !s.blocks[j].used;
    }
  }

  /** rt_free keeps the heap in order, and `lfree` the lowest free block if it was. */
  lemma FreeKeeps(s: State, i: nat)
    requires Inv(s) && i < |s.blocks| && s.blocks[i].used
    ensures Inv(Free(s, i)) && (Lowest(s) ==> Lowest(Free(s, i)))
  {
    FreeLoose(s, i);
    PlugKeeps(Clear(s, i), i);
  }

  // ----- reallocation in place -----

  /** The condition under which rt_realloc shrinks a block in place. */
  predicate Shrinks(s: State, i: nat, n: int) {
    i < |s.blocks| && s.blocks[i].used && 0 < n && n % 4 == 0 && n + HDR + MIN_SIZE < Payload(s, i)
  }

  lemma ShrinkLoose(s: State, i: nat, n: int)
    requires Inv(s) && Shrinks(s, i, n)
    ensures Loose(SplitOff(s, i, n), i + 1, {i, i + 1})
    ensures SplitOff(s, i, n).blocks[i] == s.blocks[i] && At(SplitOff(s, i, n).blocks, End(s), i + 1) == s.blocks[i].at + HDR + n
  {
    var x, k := s.blocks[i].at + HDR + n, Locate(s.blocks, s.lfree);
    var m := SplitOff(s, i, n);
    assert Fits(s.blocks, End(s), i);
    CutTiled(s.blocks, End(s), i, x);
    CutUsed(s.blocks, End(s), i, x);
    CutSolid(s.blocks, i, x);
    SetLfree(m, if k <= i then k else k + 1);
  }

  /** The block in front of the one that is plugged is in use, so only the next one can be joined. */
  lemma PlugInPlace(s: State, i: nat)
    requires 0 < i < |s.blocks| && s.blocks[i - 1].used
    ensures Plug(s, i) == PlugForward(s, i)
    ensures i < |Plug(s, i).blocks| && Plug(s, i).blocks[i - 1] == s.blocks[i - 1] && Plug(s, i).blocks[i] == s.blocks[i] && Plug(s, i).size == s.size
  {
  }

  /** Shrinking in place keeps the heap in order; the part in front stays in use, keeps its place and has the new size. */
  lemma ShrinkKeeps(s: State, i: nat, n: int)
    requires Inv(s) && Shrinks(s, i, n)
    ensures Inv(Shrink(s, i, n))
    ensures var r := Shrink(s, i, n); i < |r.blocks| && r.blocks[i] == s.blocks[i] && Payload(r, i) == n
  {
    ShrinkLoose(s, i, n);
    PlugKeeps(SplitOff(s, i, n), i + 1);
    PlugInPlace(SplitOff(s, i, n), i + 1);
  }

  /** After shrinking in place `lfree` is still the lowest free block exactly if it lies below the block that was shrunk, or
      is the block right behind it. */
  lemma ShrinkLowestIff(s: State, i: nat, n: int)
    requires Inv(s) && Lowest(s) && Shrinks(s, i, n)
    ensures Lowest(Shrink(s, i, n)) <==> s.lfree < s.blocks[i].at || (i + 1 < |s.blocks| && s.lfree == s.blocks[i + 1].at)
  {
    hide Shrink, Lowest;
    LfreeApart(s, i);
    if s.lfree < s.blocks[i].at {
      ShrunkBehindLfree(s, i, n);
    } else if i + 1 < |s.blocks| && s.lfree == s.blocks[i + 1].at {
      ShrunkBeforeFree(s, i, n);
    } else {
      ShrunkBelowLfree(s, i, n);
    }
  }

  /** `lfree` is not the block in use at index `i`, and behind it unless it is the next block it lies behind that one. */
  lemma LfreeApart(s: State, i: nat)
    requires Inv(s) && i < |s.blocks| && s.blocks[i].used
    ensures s.lfree != s.blocks[i].at
    ensures s.blocks[i].at < s.lfree && !(i + 1 < |s.blocks| && s.lfree == s.blocks[i + 1].at) ==> At(s.blocks, End(s), i + 1) <= s.lfree
    ensures s.blocks[i].at < s.lfree ==> i < Locate(s.blocks, s.lfree)
  {
    var k := Locate(s.blocks, s.lfree);
    if k < i { Order(s.blocks, End(s), k, i); } else { Order(s.blocks, End(s), i, k); }
    if k > i + 1 { Order(s.blocks, End(s), i + 1, k); }
  }

  lemma ShrunkBehindLfree(s: State, i: nat, n: int)
    requires Inv(s) && Lowest(s) && Shrinks(s, i, n) && s.lfree < s.blocks[i].at
    ensures Lowest(Shrink(s, i, n))
  {
    var m := SplitOff(s, i, n);
    ShrinkLoose(s, i, n);
    PlugInPlace(m, i + 1);
    SplitOffLowest(s, i, n);
    ForwardKeeps(m, i + 1);
  }

  lemma SplitOffLowest(s: State, i: nat, n: int)
    requires Inv(s) && Lowest(s) && Shrinks(s, i, n) && s.lfree < s.blocks[i].at
    ensures Lowest(SplitOff(s, i, n))
  {
    var m, x := SplitOff(s, i, n), s.blocks[i].at + HDR + n;
    assert m.blocks[i + 1] == Block(x, false) && m.blocks[i] == s.blocks[i];
    forall j | 0 <= j < |m.blocks| && !m.blocks[j].used ensures m.lfree <= m.blocks[j].at {
      if j > i + 1 { assert m.blocks[j] == s.blocks[j - 1]; } else if j < i { assert m.blocks[j] == s.blocks[j]; }
    }
  }

  /** The block cut off lies below `lfree`, which is not lowered. */
  lemma ShrunkBelowLfree(s: State, i: nat, n: int)
    requires Inv(s) && Shrinks(s, i, n) && At(s.blocks, End(s), i + 1) <= s.lfree && !(i + 1 < |s.blocks| && s.lfree == s.blocks[i + 1].at)
    ensures !Lowest(Shrink(s, i, n))
  {
    var m, x := SplitOff(s, i, n), s.blocks[i].at + HDR + n;
    ShrinkLoose(s, i, n);
    PlugInPlace(m, i + 1);
    assert Fits(s.blocks, End(s), i);
    assert m.blocks[i + 1] == Block(x, false);
    assert Shrink(s, i, n).blocks[i + 1] == Block(x, false);
    if i + 1 < |s.blocks| { assert m.blocks[i + 2] == s.blocks[i + 1]; }
    assert Shrink(s, i, n).lfree == s.lfree;
  }

  lemma ShrunkBeforeFree(s: State, i: nat, n: int)
    requires Inv(s) && Lowest(s) && Shrinks(s, i, n) && i + 1 < |s.blocks| && s.lfree == s.blocks[i + 1].at
    ensures Lowest(Shrink(s, i, n))
  {
    var m, r := SplitOff(s, i, n), Shrink(s, i, n);
    ShrinkLoose(s, i, n);
    PlugInPlace(m, i + 1);
    LocateIs(s.blocks, End(s), i + 1);
    assert m.blocks[i + 2] == s.blocks[i + 1];
    assert Fits(s.blocks, End(s), i);
    forall j | 0 <= j < |r.blocks| && !r.blocks[j].used ensures r.lfree <= r.blocks[j].at {
      if j > i + 1 {
        assert r.blocks[j] == s.blocks[j];
      } else if j < i {
        assert r.blocks[j] == s.blocks[j];
        Order(s.blocks, End(s), j, i + 1);
      }
    }
  }

  // ----- round trip, runs, and what callers rely on -----

  lemma CutJoin(bs: seq<Block>, i: nat, x: int)
    requires i < |bs| && !bs[i].used
    ensures Join(Flag(Cut(bs, i, x), i, false), i) == bs
  {
  }

  lemma FlagBack(bs: seq<Block>, i: nat)
    requires i < |bs| && !bs[i].used
    ensures Flag(Flag(bs, i, true), i, false) == bs
  {
  }

  /** A block between used ones, or with a free one behind it, is joined with that one only. */
  lemma PlugBetween(s: State, i: nat)
    requires i < |s.blocks| && (i > 0 ==> s.blocks[i - 1].used)
    ensures Plug(s, i) == PlugForward(s, i)
  {
  }

  /** The neighbours of a block that was free are in use, so nothing else is joined. */
  lemma GiveThenFree(s: State, i: nat, n: int)
    requires Inv(s) && Suits(s, n, i) && n >= MIN_SIZE && n % 4 == 0 && Locate(s.blocks, s.lfree) <= i
    ensures i < |Give(s, i, n).blocks| && Free(Give(s, i, n), i) == s.(max := Give(s, i, n).max)
  {
    var g, x := Give(s, i, n), s.blocks[i].at + HDR + n;
    var c := Clear(g, i);
    NextUsed(s.blocks, i);
    GiveBlocks(s, i, n);
    GivenLfree(s, i, n);
    PlugBetween(c, i);
    if Payload(s, i) >= n + HDR + MIN_SIZE {
      CutJoin(s.blocks, i, x);
      SplitBack(s, i, n);
    } else {
      FlagBack(s.blocks, i);
    }
  }

  lemma SplitBack(s: State, i: nat, n: int)
    requires Inv(s) && Suits(s, n, i) && n >= MIN_SIZE && n % 4 == 0 && Locate(s.blocks, s.lfree) <= i
    requires Payload(s, i) >= n + HDR + MIN_SIZE
    ensures i < |Give(s, i, n).blocks|
    ensures PlugForward(Clear(Give(s, i, n), i), i) == s.(max := Give(s, i, n).max)
  {
    var x := s.blocks[i].at + HDR + n;
    GivenLfree(s, i, n);
    CutJoin(s.blocks, i, x);
    var c := Clear(Give(s, i, n), i);
    assert c.blocks[i + 1] == Block(x, false) && c.blocks[i].at == s.blocks[i].at;
    assert c.lfree == s.lfree;
  }

  /** Where `lfree` is after block `i` has been given out. */
  lemma GivenLfree(s: State, i: nat, n: int)
    requires Inv(s) && Suits(s, n, i) && n >= MIN_SIZE && n % 4 == 0 && Locate(s.blocks, s.lfree) <= i
    ensures var g := Give(s, i, n); if s.lfree == s.blocks[i].at then g.lfree > s.lfree else g.lfree == s.lfree < s.blocks[i].at
  {
    var g, k := Give(s, i, n), Locate(s.blocks, s.lfree);
    GiveSound(s, i, n);
    GiveBlocks(s, i, n);
    if k < i { Order(s.blocks, End(s), k, i); } else { Order(g.blocks, End(g), i, NextFree(g.blocks, i)); }
  }

  /** Releasing what was just allocated restores the heap exactly, but for the high-water mark. */
  lemma MallocThenFree(s: State, size: nat)
    requires Inv(s) && Malloc(s, size).1 != NOTHING
    ensures var (r, a) := Malloc(s, size);
      var k := Locate(r.blocks, a - HDR);
      k < |r.blocks| && r.blocks[k].used && Free(r, k) == s.(max := r.max)
  {
    var n := Request(size);
    var k := Search(s, n, Locate(s.blocks, s.lfree));
    GiveSound(s, k, n);
    GiveBlocks(s, k, n);
    LocateIs(Give(s, k, n).blocks, End(s), k);
    GiveThenFree(s, k, n);
  }

  datatype Call = Get(size: nat) | Put(a: int) | Resize(a: int, size: nat)

  /** rt_realloc, but for the copy. `a` is NOTHING or an address inside the heap. */
  function Realloc(s: State, a: int, size: nat): (State, int) {
    var n, k := Align(size), Locate(s.blocks, a - HDR);
    if n > s.size then (s, NOTHING)
    else if n == 0 then (if Allocated(s, a) then Free(s, k) else s, NOTHING)
    else if a == NOTHING then Malloc(s, n)
    else if !Allocated(s, a) || Payload(s, k) == n then (s, a)
    else if Shrinks(s, k, n) then (Shrink(s, k, n), a)
    else
      var (r, b) := Malloc(s, n);
      var j := Locate(r.blocks, a - HDR);
      if b == NOTHING || j >= |r.blocks| then (r, b) else (Free(r, j), b)
  }

  predicate Allocated(s: State, a: int) {
    var k := Locate(s.blocks, a - HDR);
    k < |s.blocks| && s.blocks[k].used
  }

  /** A call with an address that is not allocated is not made. */
  function Apply(s: State, c: Call): State {
    match c
    case Get(size) => Malloc(s, size).0
    case Put(a) => if Allocated(s, a) then Free(s, Locate(s.blocks, a - HDR)) else s
    case Resize(a, size) => if a == NOTHING || Allocated(s, a) then Realloc(s, a, size).0 else s
  }

  lemma StaysGiven(s: State, k: nat, n: int, o: nat)
    requires Inv(s) && Suits(s, n, k) && n >= MIN_SIZE && n % 4 == 0 && o < |s.blocks| && s.blocks[o].used
    ensures var r := Give(s, k, n);
      var j := Locate(r.blocks, s.blocks[o].at);
      j < |r.blocks| && r.blocks[j].used && Payload(r, j) == Payload(s, o)
  {
    var r := Give(s, k, n);
    GiveSound(s, k, n);
    var j := if o < k || |r.blocks| == |s.blocks| then o else o + 1;
    assert r.blocks[j] == s.blocks[o] && At(r.blocks, End(r), j + 1) == At(s.blocks, End(s), o + 1);
    LocateIs(r.blocks, End(r), j);
  }

  /** Blocks in use stay where they are, and as long as they are, when another one is given out at another place. */
  lemma StaysAllocated(s: State, size: nat, a: int)
    requires Inv(s) && Allocated(s, a)
    ensures Allocated(Malloc(s, size).0, a) && Payload(Malloc(s, size).0, Locate(Malloc(s, size).0.blocks, a - HDR)) == Payload(s, Locate(s.blocks, a - HDR))
    ensures Malloc(s, size).1 != a
  {
    var n, o := Request(size), Locate(s.blocks, a - HDR);
    InHeap(s.blocks, End(s), o);
    var k := Search(s, n, Locate(s.blocks, s.lfree));
    if size > 0 && Align(size) <= s.size && k < |s.blocks| {
      StaysGiven(s, k, n, o);
      LocateIs(s.blocks, End(s), k);
    }
  }

  /** What rt_malloc hands out is a block in use from then on, large enough and inside the heap. */
  lemma MallocGives(s: State, size: nat)
    requires Inv(s) && Malloc(s, size).1 != NOTHING
    ensures var (r, a) := Malloc(s, size);
      var k := Locate(r.blocks, a - HDR);
      Allocated(r, a) && Payload(r, k) >= Request(size) && HDR <= a && a + Payload(r, k) <= End(r)
  {
    var n := Request(size);
    var k := Search(s, n, Locate(s.blocks, s.lfree));
    var r := Give(s, k, n);
    GiveSound(s, k, n);
    LocateIs(r.blocks, End(r), k);
    PayloadInHeap(r, k);
  }

  lemma PayloadInHeap(s: State, i: nat)
    requires Tiled(s.blocks, End(s)) && i < |s.blocks|
    ensures 0 <= s.blocks[i].at && 0 <= Payload(s, i) && s.blocks[i].at + HDR + Payload(s, i) <= End(s)
  {
    InHeap(s.blocks, End(s), i);
    assert Fits(s.blocks, End(s), i);
    if i + 1 < |s.blocks| { InHeap(s.blocks, End(s), i + 1); }
  }

  // ----- which blocks are in use -----

  ghost predicate IsUsed(s: State, i: nat, at: int, n: int) {
    i < |s.blocks| && s.blocks[i] == Block(at, true) && Payload(s, i) == n
  }

  /** A block of `n` bytes at `at` is in use. */
  ghost predicate InUse(s: State, at: int, n: int) {
    exists i: nat :: IsUsed(s, i, at, n)
  }

  lemma FlagInUse(s: State, r: State, i: nat, used: bool, at: int, n: int)
    requires Tiled(s.blocks, End(s)) && i < |s.blocks| && r.size == s.size && r.blocks == Flag(s.blocks, i, used)
    ensures InUse(r, at, n) <==> if at == s.blocks[i].at then used && n == Payload(s, i) else InUse(s, at, n)
  {
    LocateIs(s.blocks, End(s), i);
    if j: nat :| IsUsed(r, j, at, n) {
      LocateIs(s.blocks, End(s), j);
      assert j != i ==> IsUsed(s, j, at, n);
    }
    if j: nat :| IsUsed(s, j, at, n) {
      LocateIs(s.blocks, End(s), j);
      assert j != i ==> IsUsed(r, j, at, n);
    }
    if used { assert IsUsed(r, i, s.blocks[i].at, Payload(s, i)); }
  }

  lemma JoinInUse(s: State, r: State, i: nat, at: int, n: int)
    requires i + 1 < |s.blocks| && !s.blocks[i].used && !s.blocks[i + 1].used && r.size == s.size && r.blocks == Join(s.blocks, i)
    ensures InUse(r, at, n) <==> InUse(s, at, n)
  {
    if j: nat :| IsUsed(r, j, at, n) { assert IsUsed(s, if j <= i then j else j + 1, at, n); }
    if j: nat :| IsUsed(s, j, at, n) { assert IsUsed(r, if j <= i then j else j - 1, at, n); }
  }

  lemma CutInUse(s: State, r: State, i: nat, x: int, at: int, n: int)
    requires Tiled(s.blocks, End(s)) && i < |s.blocks| && r.size == s.size && r.blocks == Cut(s.blocks, i, x)
    ensures InUse(r, at, n) <==> if at == s.blocks[i].at then n == x - at - HDR else InUse(s, at, n)
  {
    assert r.blocks[i] == Block(s.blocks[i].at, true) && r.blocks[i + 1] == Block(x, false);
    assert IsUsed(r, i, s.blocks[i].at, x - s.blocks[i].at - HDR);
    if j: nat :| IsUsed(r, j, at, n) { CutUsedBefore(s, r, i, x, j, at, n); }
    if at != s.blocks[i].at {
      if j: nat :| IsUsed(s, j, at, n) { CutStillUsed(s, r, i, x, j, at, n); }
    }
  }

  lemma CutStillUsed(s: State, r: State, i: nat, x: int, j: nat, at: int, n: int)
    requires i < |s.blocks| && r.size == s.size && r.blocks == Cut(s.blocks, i, x) && IsUsed(s, j, at, n) && j != i
    ensures InUse(r, at, n)
  {
    assert r.blocks[i] == Block(s.blocks[i].at, true);
    assert IsUsed(r, if j < i then j else j + 1, at, n);
  }

  lemma CutUsedBefore(s: State, r: State, i: nat, x: int, j: nat, at: int, n: int)
    requires Tiled(s.blocks, End(s)) && i < |s.blocks| && r.size == s.size && r.blocks == Cut(s.blocks, i, x) && IsUsed(r, j, at, n)
    ensures if at == s.blocks[i].at then n == x - at - HDR else InUse(s, at, n)
  {
    var o := if j <= i then j else j - 1;
    LocateIs(s.blocks, End(s), i);
    LocateIs(s.blocks, End(s), o);
    assert r.blocks[i] == Block(s.blocks[i].at, true) && r.blocks[i + 1] == Block(x, false);
    if j != i { assert IsUsed(s, o, at, n); }
  }

  lemma PlugInUse(s: State, i: nat, at: int, n: int)
    requires i < |s.blocks| && !s.blocks[i].used
    ensures InUse(Plug(s, i), at, n) <==> InUse(s, at, n)
  {
    var f := PlugForward(s, i);
    if f != s { JoinInUse(s, f, i, at, n); }
    if Plug(s, i) != f { JoinInUse(f, Plug(s, i), i - 1, at, n); }
  }

  lemma GiveAdds(s: State, k: nat, m: int, at: int, n: int)
    requires Inv(s) && Suits(s, m, k) && m >= MIN_SIZE && m % 4 == 0
    ensures var r := Give(s, k, m);
      InUse(r, at, n) <==> if at == s.blocks[k].at then n == Payload(r, k) else InUse(s, at, n)
  {
    var r, x := Give(s, k, m), s.blocks[k].at + HDR + m;
    if Payload(s, k) >= m + HDR + MIN_SIZE { CutInUse(s, r, k, x, at, n); } else { FlagInUse(s, r, k, true, at, n); }
  }

  /** rt_malloc puts exactly the block it hands out in use; all others stay as they are. */
  lemma MallocAdds(s: State, size: nat, at: int, n: int)
    requires Inv(s) && Malloc(s, size).1 != NOTHING
    ensures var (r, a) := Malloc(s, size);
      && !InUse(s, a - HDR, n)
      && (InUse(r, at, n) <==> InUse(s, at, n) || (at == a - HDR && n == Payload(r, Locate(r.blocks, at))))
  {
    var m := Request(size);
    var k := Search(s, m, Locate(s.blocks, s.lfree));
    var r := Give(s, k, m);
    GiveSound(s, k, m);
    LocateIs(r.blocks, End(r), k);
    FlagInUse(s, s, k, false, s.blocks[k].at, n);
    GiveAdds(s, k, m, at, n);
  }

  /** rt_free takes exactly the block released out of use. */
  lemma FreeRemoves(s: State, i: nat, at: int, n: int)
    requires Inv(s) && i < |s.blocks| && s.blocks[i].used
    ensures InUse(Free(s, i), at, n) <==> InUse(s, at, n) && at != s.blocks[i].at
  {
    FlagInUse(s, Clear(s, i), i, false, at, n);
    PlugInUse(Clear(s, i), i, at, n);
  }

  /** Shrinking in place changes exactly the size of the block that is shrunk. */
  lemma ShrinkResizes(s: State, i: nat, m: int, at: int, n: int)
    requires Inv(s) && Shrinks(s, i, m)
    ensures InUse(Shrink(s, i, m), at, n) <==> if at == s.blocks[i].at then n == m else InUse(s, at, n)
  {
    CutInUse(s, SplitOff(s, i, m), i, s.blocks[i].at + HDR + m, at, n);
    PlugInUse(SplitOff(s, i, m), i + 1, at, n);
  }

  // ----- the contents -----

  ghost predicate InPayload(s: State, i: nat, c: int) {
    i < |s.blocks| && s.blocks[i].at + HDR <= c < s.blocks[i].at + HDR + Payload(s, i)
  }

  /** The payloads of different blocks do not overlap. */
  lemma PayloadsApart(s: State, i: nat, j: nat, c: int)
    requires Tiled(s.blocks, End(s)) && InPayload(s, i, c) && InPayload(s, j, c)
    ensures i == j
  {
    if i + 1 < j { Order(s.blocks, End(s), i + 1, j); }
    if j + 1 < i { Order(s.blocks, End(s), j + 1, i); }
  }

  /** The payloads of all allocated blocks but the one at `a` are the same in both memories. */
  ghost predicate OthersKeep(s: State, a: int, m: seq<int>, m': seq<int>) {
    && |m'| == |m|
    && forall i: nat, c {:trigger InPayload(s, i, c)} :: InPayload(s, i, c) && s.blocks[i].used && s.blocks[i].at + HDR != a && 0 <= c < |m| ==> m'[c] == m[c]
  }

  /** `n` bytes at `b` are those that were at `a`. */
  ghost predicate Carried(m: seq<int>, m': seq<int>, a: int, b: int, n: int) {
    0 <= a && a + n <= |m| && 0 <= b && b + n <= |m'| && forall c {:trigger m'[c]} :: b <= c < b + n ==> m'[c] == m[c - b + a]
  }

  /** The block in use at index `i` of `s` is in `r` as well, and is not the one at `b`. */
  ghost predicate StaysBeside(s: State, i: nat, r: State, b: int)
    requires i < |s.blocks|
  {
    var j := Locate(r.blocks, s.blocks[i].at);
    j < |r.blocks| && Payload(r, j) == Payload(s, i) && s.blocks[i].at + HDR != b
  }

  /** `b` is a new block of `r`, with room for `n` bytes. */
  ghost predicate NewIn(s: State, r: State, b: int, n: int) {
    && (forall i: nat :: i < |s.blocks| && s.blocks[i].used ==> StaysBeside(s, i, r, b))
    && Tiled(r.blocks, End(r)) && Locate(r.blocks, b - HDR) < |r.blocks| && n <= Payload(r, Locate(r.blocks, b - HDR))
  }

  lemma MallocSpares(s: State, size: nat, i: nat)
    requires Inv(s) && i < |s.blocks| && s.blocks[i].used
    ensures StaysBeside(s, i, Malloc(s, size).0, Malloc(s, size).1)
  {
    LocateIs(s.blocks, End(s), i);
    StaysAllocated(s, size, s.blocks[i].at + HDR);
  }

  lemma MallocIsNew(s: State, size: nat)
    requires Inv(s) && Malloc(s, size).1 != NOTHING
    ensures NewIn(s, Malloc(s, size).0, Malloc(s, size).1, size)
  {
    MallocKeeps(s, size);
    MallocGives(s, size);
    forall i: nat | i < |s.blocks| && s.blocks[i].used ensures StaysBeside(s, i, Malloc(s, size).0, Malloc(s, size).1) {
      MallocSpares(s, size, i);
    }
  }

  /** A copy into a block that was just handed out leaves all other blocks alone. */
  lemma CopySpares(s: State, r: State, a: int, b: int, n: int, m: seq<int>, m': seq<int>)
    requires NewIn(s, r, b, n) && |m'| == |m|
    requires forall c :: 0 <= c < |m| && !(b <= c < b + n) ==> m'[c] == m[c]
    ensures OthersKeep(s, a, m, m')
  {
    var k := Locate(r.blocks, b - HDR);
    forall i: nat, c | InPayload(s, i, c) && s.blocks[i].used && 0 <= c < |m| ensures m'[c] == m[c] {
      assert StaysBeside(s, i, r, b);
      var j := Locate(r.blocks, s.blocks[i].at);
      if b <= c < b + n { PayloadsApart(r, j, k, c); }
    }
  }

  /** The call shrinks a block in place. */
  predicate ShrinksInPlace(s: State, c: Call) {
    c.Resize? && Allocated(s, c.a) && Align(c.size) <= s.size && c.a != NOTHING && Shrinks(s, Locate(s.blocks, c.a - HDR), Align(c.size))
  }

  lemma ReallocKeeps(s: State, a: int, size: nat)
    requires Inv(s) && (a == NOTHING || Allocated(s, a))
    ensures Inv(Realloc(s, a, size).0)
    ensures Lowest(s) && !ShrinksInPlace(s, Resize(a, size)) ==> Lowest(Realloc(s, a, size).0)
  {
    var n, k := Align(size), Locate(s.blocks, a - HDR);
    if n <= s.size {
      if n == 0 {
        if Allocated(s, a) { FreeKeeps(s, k); }
      } else if a == NOTHING {
        MallocKeeps(s, n);
      } else if Payload(s, k) != n {
        if Shrinks(s, k, n) {
          ShrinkKeeps(s, k, n);
        } else {
          MallocKeeps(s, n);
          StaysAllocated(s, n, a);
          var r := Malloc(s, n).0;
          FreeKeeps(r, Locate(r.blocks, a - HDR));
        }
      }
    }
  }

  lemma ApplyKeeps(s: State, c: Call)
    requires Inv(s)
    ensures Inv(Apply(s, c)) && (Lowest(s) && !ShrinksInPlace(s, c) ==> Lowest(Apply(s, c)))
  {
    match c
    case Get(size) => MallocKeeps(s, size);
    case Put(a) => if Allocated(s, a) { FreeKeeps(s, Locate(s.blocks, a - HDR)); }
    case Resize(a, size) => if a == NOTHING || Allocated(s, a) { ReallocKeeps(s, a, size); }
  }

  function Run(s: State, cs: seq<Call>): State
    decreases |cs|
  {
    if cs == [] then s else Run(Apply(s, cs[0]), cs[1..])
  }

  /** In every run: the blocks tile the heap, no two neighbours are both free, the bytes counted as used are the lengths of
      the used blocks, and `lfree` is a free block or the sentinel. */
  lemma {:induction false} EveryHeapIsInOrder(s: State, cs: seq<Call>)
    requires Inv(s)
    ensures Inv(Run(s, cs))
    decreases |cs|
  {
    if cs != [] {
      ApplyKeeps(s, cs[0]);
      EveryHeapIsInOrder(Apply(s, cs[0]), cs[1..]);
    }
  }

  ghost predicate NeverShrinks(s: State, cs: seq<Call>)
    decreases |cs|
  {
    cs == [] || (!ShrinksInPlace(s, cs[0]) && NeverShrinks(Apply(s, cs[0]), cs[1..]))
  }

  /** In runs in which no block is shrunk in place, `lfree` is always the lowest free block. */
  lemma {:induction false} LfreeIsLowest(s: State, cs: seq<Call>)
    requires Inv(s) && Lowest(s) && NeverShrinks(s, cs)
    ensures Inv(Run(s, cs)) && Lowest(Run(s, cs))
    decreases |cs|
  {
    if cs != [] {
      ApplyKeeps(s, cs[0]);
      LfreeIsLowest(Apply(s, cs[0]), cs[1..]);
    }
  }

  /** A new heap with 88 bytes, and what two allocations and a reallocation leave of it. */
  const Heap88 := State(88, [Block(0, false)], 0, 0, 0)
  const Full88 := State(88, [Block(0, true), Block(64, true)], 100, 100, 100)
  const Shrunk88 := State(88, [Block(0, true), Block(24, false), Block(64, true)], 100, 60, 100)

  const Half88 := State(88, [Block(0, true), Block(64, false)], 64, 64, 64)

  lemma NewIsInOrder()
    ensures Inv(Heap88)
  {
    assert UsedBytes(Heap88.blocks[1..], End(Heap88)) == 0;
    LocateIs(Heap88.blocks, End(Heap88), 0);
  }

  lemma FirstGive()
    ensures Give(Heap88, 0, 52) == Half88
  {
    assert Payload(Heap88, 0) == 88;
    assert Cut(Heap88.blocks, 0, 64) == Half88.blocks;
    assert NextFree(Half88.blocks, 1) == 1;
    assert NextFree(Half88.blocks, 0) == 1;
  }

  lemma FirstGet()
    ensures Apply(Heap88, Get(52)) == Half88
  {
    hide Give, NextFree, Cut, Flag;
    assert Payload(Heap88, 0) == 88;
    assert Locate(Heap88.blocks, 0) == 0;
    assert Search(Heap88, 52, 0) == 0;
    assert Request(52) == 52;
    FirstGive();
  }

  lemma SecondGet()
    ensures Apply(Half88, Get(12)) == Full88
  {
    assert Locate(Half88.blocks[1..], 64) == 0;
    assert Locate(Half88.blocks, 64) == 1 && Search(Half88, 12, 1) == 1;
    assert Flag(Half88.blocks, 1, true) == Full88.blocks;
    assert NextFree(Full88.blocks, 2) == 2;
    assert Give(Half88, 1, 12) == Full88;
  }

  lemma LeavesAHole()
    ensures Apply(Full88, Resize(12, 12)) == Shrunk88
  {
    assert Locate(Full88.blocks, 0) == 0 && Shrinks(Full88, 0, 12);
    assert Cut(Full88.blocks, 0, 24) == Shrunk88.blocks;
    assert SplitOff(Full88, 0, 12) == Shrunk88;
    assert Plug(Shrunk88, 1) == Shrunk88;
  }

  lemma HoleIsMissed()
    ensures Serves(Shrunk88, 24, 1) && Malloc(Shrunk88, 24).1 == NOTHING
  {
    assert Locate(Shrunk88.blocks[1..], 100) == 2 by {
      assert Locate(Shrunk88.blocks[1..][1..][1..], 100) == 0;
    }
    assert Locate(Shrunk88.blocks, 100) == 3 && Search(Shrunk88, 24, 3) == 3;
  }

  lemma RunOfThree(s: State, a: Call, b: Call, c: Call)
    ensures Run(s, [a, b, c]) == Apply(Apply(Apply(s, a), b), c)
  {
    hide Apply;
    assert [a, b, c][1..] == [b, c] && [b, c][1..] == [c] && [c][1..] == [];
    assert Run(Apply(Apply(s, a), b), [c]) == Run(Apply(Apply(Apply(s, a), b), c), []);
    assert Run(Apply(s, a), [b, c]) == Run(Apply(Apply(s, a), b), [c]);
  }

  /** The input for which rt_malloc fails although a block is free that could serve: the first block is shrunk in place, which
      leaves 28 free bytes at offset 24 but `lfree` at the end of the heap. */
  lemma MallocMisses()
    ensures Inv(Heap88)
    ensures var r := Run(Heap88, [Get(52), Get(12), Resize(12, 12)]); r == Shrunk88 && Serves(r, 24, 1) && Malloc(r, 24).1 == NOTHING
  {
    hide *;
    NewIsInOrder();
    FirstGet();
    SecondGet();
    LeavesAHole();
    HoleIsMissed();
    RunOfThree(Heap88, Get(52), Get(12), Resize(12, 12));
  }

  // ----- the heap itself -----

  /** Block `i` in memory: its `next` leads to the next block or the sentinel, its `prev` back to the one in front (the first
      block is its own). The sentinel's `prev` is not kept up to date, and never read. */
  ghost predicate Header(next: map<int, int>, prev: map<int, int>, used: map<int, bool>, bs: seq<Block>, end: int, i: nat)
    requires i < |bs|
  {
    && bs[i].at in next && bs[i].at in prev && bs[i].at in used
    && next[bs[i].at] == At(bs, end, i + 1) && used[bs[i].at] == bs[i].used
    && prev[bs[i].at] == bs[if i == 0 then 0 else i - 1].at
  }

  ghost predicate HeadersAre(next: map<int, int>, prev: map<int, int>, used: map<int, bool>, bs: seq<Block>, end: int) {
    && end in next && end in used && next[end] == end && used[end]
    && forall i :: 0 <= i < |bs| ==> Header(next, prev, used, bs, end, i)
  }

  lemma CutLinked(next: map<int, int>, prev: map<int, int>, used: map<int, bool>, bs: seq<Block>, end: int, i: nat, x: int)
    requires HeadersAre(next, prev, used, bs, end) && Tiled(bs, end) && i < |bs| && bs[i].at + HDR <= x && x + HDR <= At(bs, end, i + 1) && x % 4 == 0
    ensures bs[i].at in next
    ensures var n := next[bs[i].at];
      HeadersAre(next[x := n][bs[i].at := x], if n == end then prev[x := bs[i].at] else prev[x := bs[i].at][n := x], used[x := false][bs[i].at := true], Cut(bs, i, x), end)
  {
    CutTiled(bs, end, i, x);
    assert Header(next, prev, used, bs, end, i);
    var c, n := Cut(bs, i, x), next[bs[i].at];
    var next', prev', used' := next[x := n][bs[i].at := x], if n == end then prev[x := bs[i].at] else prev[x := bs[i].at][n := x], used[x := false][bs[i].at := true];
    InHeap(c, end, i + 1);
    InHeap(bs, end, i);
    forall j | 0 <= j < |c| ensures Header(next', prev', used', c, end, j) {
      if j != i + 1 {
        var o := if j <= i then j else j - 1;
        assert Header(next, prev, used, bs, end, o) && c[j].at == bs[o].at;
        if j < i + 1 { Order(c, end, j, i + 1); } else { Order(c, end, i + 1, j); }
        if j < i { Order(c, end, j, i); } else if i < j { Order(c, end, i, j); }
        if i + 2 < j { Order(c, end, i + 2, j); } else if j < i + 2 < |c| { Order(c, end, j, i + 2); }
        InHeap(c, end, j);
      }
    }
  }

  lemma FlagLinked(next: map<int, int>, prev: map<int, int>, used: map<int, bool>, bs: seq<Block>, end: int, i: nat, flag: bool)
    requires HeadersAre(next, prev, used, bs, end) && Tiled(bs, end) && i < |bs|
    ensures HeadersAre(next, prev, used[bs[i].at := flag], Flag(bs, i, flag), end)
  {
    InHeap(bs, end, i);
    var c, used' := Flag(bs, i, flag), used[bs[i].at := flag];
    forall j | 0 <= j < |c| ensures Header(next, prev, used', c, end, j) {
      assert Header(next, prev, used, bs, end, j);
      if j < i { Order(bs, end, j, i); } else if i < j { Order(bs, end, i, j); }
    }
  }

  lemma JoinLinked(next: map<int, int>, prev: map<int, int>, used: map<int, bool>, bs: seq<Block>, end: int, i: nat)
    requires HeadersAre(next, prev, used, bs, end) && Tiled(bs, end) && i + 1 < |bs| && !bs[i].used
    ensures bs[i].at in next && bs[i + 1].at in next
    ensures var n := next[bs[i + 1].at]; HeadersAre(next[bs[i].at := n], prev[n := bs[i].at], used, Join(bs, i), end)
  {
    assert Header(next, prev, used, bs, end, i) && Header(next, prev, used, bs, end, i + 1);
    JoinTiled(bs, end, i);
    InHeap(bs, end, i);
    var c, n := Join(bs, i), next[bs[i + 1].at];
    var next', prev' := next[bs[i].at := n], prev[n := bs[i].at];
    forall j | 0 <= j < |c| ensures Header(next', prev', used, c, end, j) {
      var o := if j <= i then j else j + 1;
      assert Header(next, prev, used, bs, end, o) && c[j] == bs[o];
      if j < i { Order(c, end, j, i); } else if i < j { Order(c, end, i, j); }
      if i + 1 < j { Order(c, end, i + 1, j); } else if j < i + 1 < |c| { Order(c, end, j, i + 1); }
      InHeap(c, end, j);
    }
  }

  lemma NothingIsNoBlock(s: State)
    requires Inv(s)
    ensures !Allocated(s, NOTHING)
  {
    var k := Locate(s.blocks, NOTHING - HDR);
    if k < |s.blocks| { InHeap(s.blocks, End(s), k); }
  }

  /** The headers are kept in the heap; offsets stand for pointers. */
  class SmallHeap {
    const size: int
    var next: map<int, int>
    var prev: map<int, int>
    var used: map<int, bool>
    var lfree: int
    var usedMem: int
    var maxMem: int
    /** The payload bytes, by offset. */
    var data: seq<int>
    ghost var blocks: seq<Block>

    ghost function View(): State
      reads this
    {
      State(size, blocks, lfree, usedMem, maxMem)
    }

    /** The links and flags in memory are those of the blocks. */
    ghost predicate Linked()
      reads this
    {
      size > 0 && Tiled(blocks, size + HDR) && HeadersAre(next, prev, used, blocks, size + HDR)
    }

    ghost predicate Valid()
      reads this
    {
      Linked() && Inv(View()) && |data| == size + HDR
    }

    /** rt_system_heap_init with mem_size_aligned bytes between the two headers. */
    constructor (size: nat)
      requires size % 4 == 0 && size >= MIN_SIZE
      ensures Valid() && Lowest(View()) && this.size == size && blocks == [Block(0, false)]
    {
      this.size := size;
      next, prev, used := map[0 := size + HDR, size + HDR := size + HDR], map[0 := 0, size + HDR := size + HDR], map[0 := false, size + HDR := true];
      lfree, usedMem, maxMem := 0, 0, 0;
      data := seq(size + HDR, _ => 0);
      blocks := [Block(0, false)];
      new;
      assert UsedBytes(blocks[1..], size + HDR) == 0;
      LocateIs(blocks, size + HDR, 0);
    }

    /** The search loop of rt_malloc; the sentinel if it finds nothing. */
    method Find(n: int) returns (ptr: int, ghost k: nat)
      requires Valid() && n >= MIN_SIZE
      ensures k == Search(View(), n, Locate(blocks, lfree))
      ensures if k < |blocks| then ptr == blocks[k].at else ptr >= size - n
    {
      ptr := lfree;
      k := Locate(blocks, lfree);
      while ptr < size - n
        invariant k <= |blocks| && ptr == At(blocks, size + HDR, k)
        invariant Search(View(), n, k) == Search(View(), n, Locate(blocks, lfree))
        decreases |blocks| - k
      {
        assert Header(next, prev, used, blocks, size + HDR, k);
        if !used[ptr] && next[ptr] - (ptr + HDR) >= n { return; }
        ptr := next[ptr];
        k := k + 1;
      }
      k := |blocks|;
    }

    /** Cuts the block at `ptr`: the front stays or becomes used, the rest is free. */
    method Split(ptr: int, x: int, ghost i: nat)
      requires Linked() && i < |blocks| && blocks[i].at == ptr && ptr + HDR <= x && x + HDR <= At(blocks, size + HDR, i + 1) && x % 4 == 0
      modifies this`next, this`prev, this`used, this`blocks
      ensures Linked() && blocks == Cut(old(blocks), i, x)
    {
      CutLinked(next, prev, used, blocks, size + HDR, i, x);
      CutTiled(blocks, size + HDR, i, x);
      var n := next[ptr];
      used := used[x := false];
      next := next[x := n];
      prev := prev[x := ptr];
      next := next[ptr := x];
      used := used[ptr := true];
      if n != size + HDR {
        prev := prev[n := x];
      }
      blocks := Cut(blocks, i, x);
    }

    method SetUsed(ptr: int, flag: bool, ghost i: nat)
      requires Linked() && i < |blocks| && blocks[i].at == ptr
      modifies this`used, this`blocks
      ensures Linked() && blocks == Flag(old(blocks), i, flag)
    {
      FlagLinked(next, prev, used, blocks, size + HDR, i, flag);
      FlagTiled(blocks, size + HDR, i, flag);
      used := used[ptr := flag];
      blocks := Flag(blocks, i, flag);
    }

    /** The block at `ptr` takes in the next one. */
    method Merge(ptr: int, ghost i: nat)
      requires Linked() && i + 1 < |blocks| && blocks[i].at == ptr && !blocks[i].used
      modifies this`next, this`prev, this`blocks
      ensures Linked() && blocks == Join(old(blocks), i)
    {
      JoinLinked(next, prev, used, blocks, size + HDR, i);
      JoinTiled(blocks, size + HDR, i);
      assert Header(next, prev, used, blocks, size + HDR, i);
      var n := next[next[ptr]];
      next := next[ptr := n];
      prev := prev[n := ptr];
      blocks := Join(blocks, i);
    }

    method Account(bytes: int)
      modifies this`usedMem, this`maxMem
      ensures usedMem == old(usedMem) + bytes && maxMem == if usedMem > old(maxMem) then usedMem else old(maxMem)
    {
      usedMem := usedMem + bytes;
      if maxMem < usedMem { maxMem := usedMem; }
    }

    /** Moves `lfree` up to the next free block. */
    method Advance(ghost i: nat)
      requires Linked() && i <= |blocks| && lfree == At(blocks, size + HDR, i)
      modifies this`lfree
      ensures lfree == At(blocks, size + HDR, NextFree(blocks, i))
    {
      ghost var k := i;
      assert k < |blocks| ==> Header(next, prev, used, blocks, size + HDR, k);
      while used[lfree] && lfree != size + HDR
        invariant k <= |blocks| && lfree == At(blocks, size + HDR, k) && NextFree(blocks, k) == NextFree(blocks, i)
        invariant lfree in used
        decreases |blocks| - k
      {
        assert Header(next, prev, used, blocks, size + HDR, k);
        lfree := next[lfree];
        k := k + 1;
        assert k < |blocks| ==> Header(next, prev, used, blocks, size + HDR, k);
      }
      if k < |blocks| {
        assert Header(next, prev, used, blocks, size + HDR, k);
        InHeap(blocks, size + HDR, k);
      }
    }

    /** Hands out the block at `ptr`. */
    method GiveOut(ptr: int, n: int, ghost i: nat)
      requires Valid() && Suits(View(), n, i) && blocks[i].at == ptr && n >= MIN_SIZE && n % 4 == 0
      modifies this
      ensures Linked() && data == old(data) && View() == Give(old(View()), i, n)
    {
      assert Header(next, prev, used, blocks, size + HDR, i) && Fits(blocks, size + HDR, i);
      if next[ptr] - (ptr + HDR) >= n + HDR + MIN_SIZE {
        Split(ptr, ptr + HDR + n, i);
        Account(n + HDR);
      } else {
        Account(next[ptr] - ptr);
        SetUsed(ptr, true, i);
      }
      if ptr == lfree {
        Advance(i);
      }
    }

    /** rt_malloc. */
    method Allocate(bytes: nat) returns (a: int)
      requires Valid()
      modifies this
      ensures Valid() && data == old(data) && (View(), a) == Malloc(old(View()), bytes)
    {
      MallocKeeps(View(), bytes);
      if bytes == 0 || Align(bytes) > size { return NOTHING; }
      var n := Request(bytes);
      ghost var k;
      var ptr;
      ptr, k := Find(n);
      if ptr >= size - n {
        return NOTHING;
      }
      GiveOut(ptr, n, k);
      a := ptr + HDR;
    }

    /** plug_holes. */
    method PlugHoles(mem: int, ghost i: nat)
      requires Linked() && i < |blocks| && blocks[i].at == mem && !blocks[i].used
      modifies this
      ensures Linked() && data == old(data) && View() == Plug(old(View()), i)
    {
      assert Header(next, prev, used, blocks, size + HDR, i);
      assert i + 1 < |blocks| ==> Header(next, prev, used, blocks, size + HDR, i + 1);
      PlugNext(mem, i);
      PlugPrevious(mem, i);
    }

    method PlugNext(mem: int, ghost i: nat)
      requires Linked() && i < |blocks| && blocks[i].at == mem && !blocks[i].used
      modifies this
      ensures Linked() && data == old(data) && View() == PlugForward(old(View()), i)
    {
      assert Header(next, prev, used, blocks, size + HDR, i);
      if i + 1 < |blocks| {
        assert Header(next, prev, used, blocks, size + HDR, i + 1);
        InHeap(blocks, size + HDR, i + 1);
        Order(blocks, size + HDR, i, i + 1);
      }
      var n := next[mem];
      if mem != n && !used[n] && n != size + HDR {
        if lfree == n { lfree := mem; }
        Merge(mem, i);
      }
    }

    method PlugPrevious(mem: int, ghost i: nat)
      requires Linked() && i < |blocks| && blocks[i].at == mem
      modifies this
      ensures Linked() && data == old(data) && View() == PlugBackward(old(View()), i)
    {
      assert Header(next, prev, used, blocks, size + HDR, i);
      if i > 0 {
        assert Header(next, prev, used, blocks, size + HDR, i - 1);
        Order(blocks, size + HDR, i - 1, i);
      }
      var p := prev[mem];
      if p != mem && !used[p] {
        if lfree == mem { lfree := p; }
        Merge(p, i - 1);
      }
    }

    /** rt_free up to the call of plug_holes. */
    method ClearUsed(mem: int, ghost i: nat)
      requires Linked() && i < |blocks| && blocks[i].at == mem && blocks[i].used
      modifies this
      ensures Linked() && data == old(data) && View() == Clear(old(View()), i)
    {
      assert Header(next, prev, used, blocks, size + HDR, i);
      assert used[mem];
      if mem < lfree { lfree := mem; }
      usedMem := usedMem - (next[mem] - mem);
      SetUsed(mem, false, i);
    }

    /** rt_free of an allocated block or of the null pointer. The assertion that the block is in use holds. */
    method Release(a: int)
      requires Valid() && (a == NOTHING || Allocated(View(), a))
      modifies this
      ensures Valid() && data == old(data)
      ensures View() == if a == NOTHING then old(View()) else Free(old(View()), Locate(old(blocks), a - HDR))
    {
      if a == NOTHING { return; }
      ghost var i := Locate(blocks, a - HDR);
      FreeKeeps(View(), i);
      ClearUsed(a - HDR, i);
      PlugHoles(a - HDR, i);
    }

    /** rt_realloc to a size so small that the rest makes a block. */
    method CutBack(mem: int, n: int, ghost i: nat)
      requires Valid() && Shrinks(View(), i, n) && blocks[i].at == mem
      modifies this
      ensures Linked() && data == old(data) && View() == Shrink(old(View()), i, n)
    {
      ShrinkLoose(View(), i, n);
      assert Header(next, prev, used, blocks, size + HDR, i) && Fits(blocks, size + HDR, i);
      usedMem := usedMem - (next[mem] - mem - HDR - n);
      Split(mem, mem + HDR + n, i);
      PlugHoles(mem + HDR + n, i + 1);
    }

    /** rt_memcpy. */
    method Copy(dst: int, src: int, n: nat)
      requires 0 <= dst && dst + n <= |data| && 0 <= src && src + n <= |data|
      modifies this`data
      ensures |data| == |old(data)| && Carried(old(data), data, src, dst, n)
      ensures forall c :: 0 <= c < |data| && !(dst <= c < dst + n) ==> data[c] == old(data)[c]
    {
      data := data[..dst] + data[src..src + n] + data[dst + n..];
    }

    /** `n` bytes of the block at `a` go to the new block at `b`. */
    method CopyOver(a: int, b: int, n: nat, ghost s: State)
      requires NewIn(s, View(), b, n) && Tiled(s.blocks, End(s)) && |data| == End(View())
      requires Allocated(s, a) && n <= Payload(s, Locate(s.blocks, a - HDR))
      modifies this`data
      ensures OthersKeep(s, a, old(data), data) && Carried(old(data), data, a, b, n)
    {
      ghost var i := Locate(s.blocks, a - HDR);
      assert StaysBeside(s, i, View(), b);
      PayloadInHeap(View(), Locate(blocks, b - HDR));
      PayloadInHeap(View(), Locate(blocks, a - HDR));
      Copy(b, a, n);
      CopySpares(s, View(), a, b, n, old(data), data);
    }

    /** A new block, the contents copied, the old block released. */
    method MoveTo(a: int, n: nat, length: nat) returns (b: int)
      requires Valid() && Allocated(View(), a) && length == Payload(View(), Locate(blocks, a - HDR))
      modifies this
      ensures Valid()
      ensures var m := Malloc(old(View()), n);
        var j := Locate(m.0.blocks, a - HDR);
        b == m.1 && if b == NOTHING then View() == m.0 else j < |m.0.blocks| && View() == Free(m.0, j)
      ensures OthersKeep(old(View()), a, old(data), data)
      ensures b != NOTHING ==> Carried(old(data), data, a, b, if length < n then length else n)
    {
      StaysAllocated(View(), n, a);
      ghost var s := View();
      b := Allocate(n);
      if b != NOTHING {
        MallocIsNew(s, n);
        CopyOver(a, b, if length < n then length else n, s);
        Release(a);
      }
    }

    /** rt_realloc of an allocated block: it keeps as much of its contents as the new size holds, and all other blocks keep
        theirs. */
    method Reallocate(a: int, newsize: nat) returns (b: int)
      requires Valid() && (a == NOTHING || Allocated(View(), a))
      modifies this
      ensures Valid() && (View(), b) == Realloc(old(View()), a, newsize)
      ensures OthersKeep(old(View()), a, old(data), data)
      ensures a != NOTHING && b != NOTHING ==>
        var length := Payload(old(View()), Locate(old(blocks), a - HDR));
        Carried(old(data), data, a, b, if length < Align(newsize) then length else Align(newsize))
    {
      hide Malloc, Free, Shrink, Plug, Give, Search, Inv;
      var n := Align(newsize);
      ghost var i := Locate(blocks, a - HDR);
      if n > size { return NOTHING; }
      ReallocKeeps(View(), a, newsize);
      if n == 0 {
        NothingIsNoBlock(View());
        Release(a);
        return NOTHING;
      }
      if a == NOTHING {
        b := Allocate(n);
        return;
      }
      assert Header(next, prev, used, blocks, size + HDR, i);
      PayloadInHeap(View(), i);
      var mem := a - HDR;
      var length := next[mem] - mem - HDR;
      if length == n { return a; }
      if n + HDR + MIN_SIZE < length {
        CutBack(mem, n, i);
        return a;
      }
      b := MoveTo(a, n, length);
    }
  }
}
