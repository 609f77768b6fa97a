/** The small-memory heap of src/mem.c as the sequence of its blocks in address order: what an allocation, a release and a
    reallocation do to it. The sentinel at the end of the heap is not among the blocks. */
module SmallMemLayout {

  /** sizeof(struct heap_mem), and MIN_SIZE. */
  const HDR := 12
  const MIN_SIZE := 12

  /** A block is known by the offset of its header. */
  datatype Block = Block(at: int, used: bool)

  /** `size` is mem_size_aligned, `lfree` an offset; `used` and `max` are the statistics. */
  datatype State = State(size: int, blocks: seq<Block>, lfree: int, used: int, max: int)

  /** Where block `i` starts, or the sentinel for the index behind the last one. */
  function At(bs: seq<Block>, end: int, i: nat): int {
    if i < |bs| then bs[i].at else end
  }

  function End(s: State): int {
    s.size + HDR
  }

  function Payload(s: State, i: nat): int {
    At(s.blocks, End(s), i + 1) - At(s.blocks, End(s), i) - HDR
  }

  // ----- layout -----

  /** The blocks tile the heap: the first is at its start, each ends where the next begins, all are aligned. */
  ghost predicate Tiled(bs: seq<Block>, end: int) {
    && bs != [] && bs[0].at == 0 && end % 4 == 0
    && (forall i :: 0 <= i < |bs| ==> Fits(bs, end, i))
  }

  ghost predicate Fits(bs: seq<Block>, end: int, i: nat) {
    At(bs, end, i) + HDR <= At(bs, end, i + 1) && At(bs, end, i) % 4 == 0
  }

  /** No two neighbours are both free, but perhaps blocks `k` and `k + 1` for `k` in `open`. */
  ghost predicate Solid(bs: seq<Block>, open: set<int>) {
    forall i :: 0 <= i < |bs| - 1 ==> bs[i].used || bs[i + 1].used || i in open
  }

  lemma {:induction false} Order(bs: seq<Block>, end: int, i: nat, j: nat)
    requires Tiled(bs, end) && i < j <= |bs|
    ensures At(bs, end, i) + HDR <= At(bs, end, j)
    decreases j
  {
    assert Fits(bs, end, j - 1);
    if i < j - 1 { Order(bs, end, i, j - 1); }
  }

  lemma InHeap(bs: seq<Block>, end: int, i: nat)
    requires Tiled(bs, end) && i < |bs|
    ensures 0 <= bs[i].at && bs[i].at + HDR <= end
  {
    Order(bs, end, i, |bs|);
    if i > 0 { Order(bs, end, 0, i); }
  }

  /** The total length of the used blocks. */
  ghost function UsedBytes(bs: seq<Block>, end: int): int {
    if bs == [] then 0 else (if bs[0].used then At(bs, end, 1) - bs[0].at else 0) + UsedBytes(bs[1..], end)
  }

  lemma {:induction false} UsedCat(a: seq<Block>, b: seq<Block>, end: int)
    ensures UsedBytes(a + b, end) == UsedBytes(a, At(b, end, 0)) + UsedBytes(b, end)
  {
    if a == [] {
      assert a + b == b;
    } else {
      UsedCat(a[1..], b, end);
      assert (a + b)[1..] == a[1..] + b;
    }
  }

  /** Splitting off the block at index `i`. */
  lemma UsedAt(bs: seq<Block>, end: int, i: nat)
    requires i < |bs|
    ensures UsedBytes(bs, end) == UsedBytes(bs[..i], bs[i].at) + (if bs[i].used then At(bs, end, i + 1) - bs[i].at else 0) + UsedBytes(bs[i + 1..], end)
  {
    assert bs == bs[..i] + bs[i..] && bs[i..][1..] == bs[i + 1..];
    UsedCat(bs[..i], bs[i..], end);
  }

  // ----- the three changes -----

  /** Block `i` is cut at `x`: the front is in use, the rest is free. */
  function Cut(bs: seq<Block>, i: nat, x: int): seq<Block>
    requires i < |bs|
  {
    bs[..i] + [Block(bs[i].at, true), Block(x, false)] + bs[i + 1..]
  }

  function Flag(bs: seq<Block>, i: nat, used: bool): seq<Block>
    requires i < |bs|
  {
    bs[i := bs[i].(used := used)]
  }

  /** Block `i` takes in the block behind it. */
  function Join(bs: seq<Block>, i: nat): seq<Block>
    requires i + 1 < |bs|
  {
    bs[..i + 1] + bs[i + 2..]
  }

  lemma CutTiled(bs: seq<Block>, end: int, i: nat, x: int)
    requires Tiled(bs, end) && i < |bs| && bs[i].at + HDR <= x && x + HDR <= At(bs, end, i + 1) && x % 4 == 0
    ensures Tiled(Cut(bs, i, x), end)
  {
    var c := Cut(bs, i, x);
    forall j | 0 <= j < |c| ensures Fits(c, end, j) {
      if j <= i { assert Fits(bs, end, j); } else { assert Fits(bs, end, j - 1); }
    }
  }

  lemma CutUsed(bs: seq<Block>, end: int, i: nat, x: int)
    requires i < |bs|
    ensures UsedBytes(Cut(bs, i, x), end) == UsedBytes(bs, end) - (if bs[i].used then At(bs, end, i + 1) - bs[i].at else 0) + (x - bs[i].at)
  {
    var c := Cut(bs, i, x);
    UsedAt(bs, end, i);
    UsedAt(c, end, i);
    assert c[..i] == bs[..i] && c[i + 1..] == [Block(x, false)] + bs[i + 1..];
    assert c[i + 1..][1..] == bs[i + 1..];
  }

  /** Only the cut itself can leave two free neighbours. */
  lemma CutSolid(bs: seq<Block>, i: nat, x: int)
    requires i < |bs| && Solid(bs, {})
    ensures Solid(Cut(bs, i, x), {i + 1})
    ensures i + 1 < |bs| ==> bs[i + 1].used ==> Solid(Cut(bs, i, x), {})
    ensures i + 1 == |bs| ==> Solid(Cut(bs, i, x), {})
  {
    var c := Cut(bs, i, x);
    assert forall j :: 0 <= j < |c| ==> c[j] == if j < i then bs[j] else if j == i then Block(bs[i].at, true) else if j == i + 1 then Block(x, false) else bs[j - 1];
    forall j | 0 <= j < |c| - 1 ensures c[j].used || c[j + 1].used || j == i + 1 {
      if j < i - 1 { assert bs[j].used || bs[j + 1].used; }
      if j > i + 1 { assert bs[j - 1].used || bs[j].used; }
    }
  }

  lemma FlagTiled(bs: seq<Block>, end: int, i: nat, used: bool)
    requires Tiled(bs, end) && i < |bs|
    ensures Tiled(Flag(bs, i, used), end)
  {
    var c := Flag(bs, i, used);
    forall j | 0 <= j < |c| ensures Fits(c, end, j) { assert Fits(bs, end, j); }
  }

  lemma FlagUsed(bs: seq<Block>, end: int, i: nat, used: bool)
    requires i < |bs|
    ensures UsedBytes(Flag(bs, i, used), end) == UsedBytes(bs, end)
      + (if used then At(bs, end, i + 1) - bs[i].at else 0) - (if bs[i].used then At(bs, end, i + 1) - bs[i].at else 0)
  {
    var c := Flag(bs, i, used);
    UsedAt(bs, end, i);
    UsedAt(c, end, i);
    assert c[..i] == bs[..i] && c[i + 1..] == bs[i + 1..];
  }

  lemma JoinTiled(bs: seq<Block>, end: int, i: nat)
    requires Tiled(bs, end) && i + 1 < |bs|
    ensures Tiled(Join(bs, i), end)
  {
    var c := Join(bs, i);
    assert Fits(bs, end, i) && Fits(bs, end, i + 1);
    forall j | 0 <= j < |c| ensures Fits(c, end, j) {
      if j <= i { assert Fits(bs, end, j); } else { assert Fits(bs, end, j + 1); }
    }
  }

  lemma JoinUsed(bs: seq<Block>, end: int, i: nat)
    requires i + 1 < |bs| && !bs[i].used && !bs[i + 1].used
    ensures UsedBytes(Join(bs, i), end) == UsedBytes(bs, end)
  {
    var c := Join(bs, i);
    UsedAt(bs, end, i);
    UsedAt(c, end, i);
    assert c[..i] == bs[..i] && c[i + 1..] == bs[i + 2..] && bs[i + 1..][1..] == bs[i + 2..];
  }

  lemma JoinSolid(bs: seq<Block>, i: nat, open: set<int>)
    requires i + 1 < |bs| && !bs[i].used && !bs[i + 1].used && Solid(bs, open) && i in open && i + 1 !in open
    requires forall k :: k in open ==> k <= i
    ensures Solid(Join(bs, i), open - {i})
  {
    var c := Join(bs, i);
    forall j | 0 <= j < |c| - 1 ensures c[j].used || c[j + 1].used || j in open - {i} {
      if j < i { assert bs[j].used || bs[j + 1].used || j in open; }
      if j == i { assert bs[i + 1].used || bs[i + 2].used || i + 1 in open; }
      if j > i { assert bs[j + 1].used || bs[j + 2].used || j + 1 in open; }
    }
  }
}
