/** The slab heap of src/slab.c: zones of equal chunks over the page allocator. Each call is one step, but one that needs a new zone
    gives up the lock while it gets the pages, and so may be two. */
module Slab {
  import opened Basics
  import opened PageAlloc
  import opened SlabSizes

  /** struct slab_zone. `chunks` is the list that starts at `z_freechunk`, as addresses; `z_next` is in the lists below. */
  datatype Zone = Zone(nfree: int, nmax: nat, base: int, uindex: nat, size: nat, index: nat, chunks: seq<int>)

  /** struct memusage, one per page. */
  datatype Usage = FreePage | Small(offset: nat) | Large(pages: nat)

  /** What an allocation stands on: a chunk of a zone, or pages of its own. */
  datatype Grant = InZone(z: Page, bytes: nat) | Own(p: Page, bytes: nat)

  /** `held` has the pages that were taken from the page allocator, `live` the allocations; the kernel keeps neither. */
  datatype State = State(zoneSize: nat, runs: seq<Run>, zone: map<Page, Zone>, lists: seq<seq<Page>>, spare: seq<Page>,
                         usage: map<Page, Usage>, used: int, max: int, held: map<Page, nat>, live: map<int, Grant>)

  // ----- used chunks -----

  /** The addresses of the first `n` chunks. */
  ghost function Cells(base: int, size: nat, n: nat): set<int> {
    if n == 0 then {} else Cells(base, size, n - 1) + {base + (n - 1) * size}
  }

  /** The chunks in use: handed out at least once and not on the free list. */
  ghost function Used(r: Zone): set<int> {
    Cells(r.base, r.size, r.uindex + 1) - Members(r.chunks)
  }

  lemma {:induction false} CellIn(base: int, size: nat, n: nat, c: nat)
    requires c < n
    ensures base + c * size in Cells(base, size, n)
  {
    if c < n - 1 { CellIn(base, size, n - 1, c); }
  }

  lemma {:induction false} CellOf(base: int, size: nat, n: nat, a: int) returns (c: nat)
    requires a in Cells(base, size, n)
    ensures c < n && a == base + c * size
  {
    if a == base + (n - 1) * size { c := n - 1; } else { c := CellOf(base, size, n - 1, a); }
  }

  lemma MulMono(a: nat, b: nat, m: nat)
    requires a < b
    ensures a * m + m <= b * m
  {
    MulLe(a + 1, b, m);
    assert (a + 1) * m == a * m + m;
  }

  lemma {:induction false} CellCount(base: int, size: nat, n: nat)
    requires size > 0
    ensures |Cells(base, size, n)| == n
  {
    if n > 0 {
      CellCount(base, size, n - 1);
      if base + (n - 1) * size in Cells(base, size, n - 1) {
        var c := CellOf(base, size, n - 1, base + (n - 1) * size);
        MulMono(c, n - 1, size);
      }
    }
  }

  /** The next chunk that was never used is none of those that were. */
  lemma NextCell(base: int, size: nat, n: nat)
    requires size > 0
    ensures base + n * size !in Cells(base, size, n)
  {
    if base + n * size in Cells(base, size, n) {
      var c := CellOf(base, size, n, base + n * size);
      MulMono(c, n, size);
    }
  }

  lemma CountRest<T>(a: set<T>, b: set<T>)
    requires b <= a
    ensures |a - b| == |a| - |b|
  {
    assert a == b + (a - b);
  }

  // ----- the invariant -----

  ghost predicate ZoneOk(zoneSize: nat, z: Page, r: Zone) {
    && r.index < NZONES && r.size == ChunkOf(r.index) > 0 && Offset(r.size) <= zoneSize
    && r.base == z * PAGE + Offset(r.size) && r.nmax == ChunkCount(zoneSize, r.size) >= 2
    && Offset(r.size) + r.nmax * r.size <= zoneSize
    && r.uindex < r.nmax && r.nfree == r.nmax - 1 - r.uindex + |r.chunks|
    && Distinct(r.chunks) && Members(r.chunks) <= Cells(r.base, r.size, r.uindex + 1)
  }

  /** A zone with all its chunks free has none in use. */
  lemma AllFree(zoneSize: nat, z: Page, r: Zone)
    requires ZoneOk(zoneSize, z, r)
    ensures |Used(r)| == r.nmax - r.nfree >= 0 && (r.nfree == r.nmax ==> Used(r) == {})
  {
    CellCount(r.base, r.size, r.uindex + 1);
    MemberCount(r.chunks);
    CountRest(Cells(r.base, r.size, r.uindex + 1), Members(r.chunks));
  }

  ghost predicate ZonesOk(zoneSize: nat, zone: map<Page, Zone>) {
    forall z :: z in zone ==> ZoneOk(zoneSize, z, zone[z])
  }

  ghost predicate Apart(p: Page, n: nat, q: Page, m: nat) {
    p + n <= q || q + m <= p
  }

  /** Stretches of pages in use do not overlap each other or the free pages. */
  ghost predicate HeldOk(held: map<Page, nat>, runs: seq<Run>) {
    && Canonical(runs) && (forall p :: p in Pages(runs) ==> p >= 0)
    && (forall p :: p in held ==> p >= 0 && held[p] > 0 && Range(p, held[p]) !! Pages(runs))
    && (forall p, q :: p in held && q in held && p != q ==> Apart(p, held[p], q, held[q]))
  }

  /** Zones in use and spare zones are different stretches of the right size. */
  ghost predicate Places(held: map<Page, nat>, zone: map<Page, Zone>, spare: seq<Page>, pages: nat) {
    && zone.Keys !! Members(spare) && Distinct(spare)
    && (forall z :: z in zone ==> z in held && held[z] == pages)
    && (forall z :: z in spare ==> z in held && held[z] == pages)
  }

  /** A zone is on the list of its chunk size exactly if it has free chunks. */
  ghost predicate ListsOk(lists: seq<seq<Page>>, zone: map<Page, Zone>) {
    && |lists| == NZONES
    && (forall i :: 0 <= i < NZONES ==> Distinct(lists[i]))
    && (forall i, z :: 0 <= i < NZONES ==> (z in lists[i] <==> z in zone && zone[z].index == i && zone[z].nfree > 0))
  }

  /** The pages of a zone tell how far it is to its first one. */
  ghost predicate Marked(usage: map<Page, Usage>, z: Page, pages: nat) {
    forall i :: 0 <= i < pages ==> MarkedAt(usage, z, i)
  }

  ghost predicate MarkedAt(usage: map<Page, Usage>, z: Page, i: nat) {
    z + i in usage && usage[z + i] == Small(i)
  }

  ghost predicate UsageOk(usage: map<Page, Usage>, zone: map<Page, Zone>, spare: seq<Page>, pages: nat) {
    && (forall z :: z in zone ==> Marked(usage, z, pages))
    && (forall z :: z in spare ==> Marked(usage, z, pages))
  }

  ghost predicate Granted(s: State, a: int) {
    && a in s.live
    && match s.live[a]
       case InZone(z, bytes) => z in s.zone && a in Used(s.zone[z]) && bytes == s.zone[z].size
       case Own(p, bytes) =>
         && p in s.held && p !in s.zone && p !in s.spare && a == p * PAGE && bytes == s.held[p] * PAGE
         && p in s.usage && s.usage[p] == Large(s.held[p])
  }

  /** `live` has exactly the chunks in use and the stretches of pages handed out. */
  ghost predicate LiveOk(s: State) {
    && (forall a :: a in s.live ==> Granted(s, a))
    && (forall z, a :: z in s.zone && a in Used(s.zone[z]) ==> a in s.live && s.live[a] == InZone(z, s.zone[z].size))
  }

  ghost function Total(live: map<int, Grant>): nat
    decreases |live.Keys|
  {
    if exists a :: a in live then
      var a :| a in live;
      live[a].bytes + Total(live - {a})
    else 0
  }

  lemma {:induction false} TotalWithout(live: map<int, Grant>, a: int)
    requires a in live
    ensures Total(live) == live[a].bytes + Total(live - {a})
    decreases |live.Keys|
  {
    var b :| b in live && Total(live) == live[b].bytes + Total(live - {b});
    if a != b {
      TotalWithout(live - {b}, a);
      TotalWithout(live - {a}, b);
      assert live - {b} - {a} == live - {a} - {b};
    }
  }

  lemma TotalWith(live: map<int, Grant>, a: int, g: Grant)
    requires a !in live
    ensures Total(live[a := g]) == Total(live) + g.bytes
  {
    TotalWithout(live[a := g], a);
    assert live[a := g] - {a} == live;
  }

  ghost predicate Inv(s: State) {
    && ZoneSize(s.zoneSize) && ZonesOk(s.zoneSize, s.zone) && HeldOk(s.held, s.runs)
    && Places(s.held, s.zone, s.spare, s.zoneSize / PAGE) && ListsOk(s.lists, s.zone) && |s.spare| <= 2
    && UsageOk(s.usage, s.zone, s.spare, s.zoneSize / PAGE) && LiveOk(s)
    && s.used == Total(s.live) <= s.max
  }

  // ----- the operations -----

  /** Takes a chunk from zone `z`, the first on its list: one that was never used as long as there is one. */
  function TakeChunk(s: State, z: Page): (State, int)
    requires z in s.zone && s.zone[z].index < |s.lists| && s.lists[s.zone[z].index] != []
    requires s.zone[z].uindex + 1 == s.zone[z].nmax ==> s.zone[z].chunks != []
  {
    var r := s.zone[z];
    var lists := if r.nfree == 1 then s.lists[r.index := s.lists[r.index][1..]] else s.lists;
    var unused := r.uindex + 1 != r.nmax;
    var a := if unused then r.base + (r.uindex + 1) * r.size else r.chunks[0];
    var t := r.(nfree := r.nfree - 1, uindex := if unused then r.uindex + 1 else r.uindex, chunks := if unused then r.chunks else r.chunks[1..]);
    (Charge(s.(zone := s.zone[z := t], lists := lists, live := s.live[a := InZone(z, r.size)]), r.size), a)
  }

  /** The statistics of an allocation. */
  function Charge(s: State, bytes: nat): State {
    s.(used := s.used + bytes, max := if s.used + bytes > s.max then s.used + bytes else s.max)
  }

  /** Lays out zone `z` for chunks of `size` and takes the first one. */
  function OpenZone(s: State, z: Page, index: nat, size: nat): (State, int)
    requires index < |s.lists| && size > 0 && Offset(size) <= s.zoneSize
  {
    var base, nmax := z * PAGE + Offset(size), ChunkCount(s.zoneSize, size);
    var t := Zone(nmax - 1, nmax, base, 0, size, index, []);
    (Charge(s.(zone := s.zone[z := t], lists := s.lists[index := [z] + s.lists[index]], live := s.live[base := InZone(z, size)]), size), base)
  }

  const NOTHING := -1

  function MarkZone(usage: map<Page, Usage>, z: Page, n: nat): map<Page, Usage> {
    if n == 0 then usage else MarkZone(usage, z, n - 1)[z + n - 1 := Small(n - 1)]
  }

  function TakePages(s: State, k: nat, n: nat): State
    requires k < |s.runs| && s.runs[k].n >= n
  {
    s.(runs := Cut(s.runs, k, n), held := s.held[s.runs[k].start := n])
  }

  /** rt_malloc of at least `zone_limit` bytes. */
  function MallocLarge(s: State, size: nat): (State, int) {
    var n := Up(size, PAGE) / PAGE;
    var k := Fit(s.runs, n);
    if k == |s.runs| then (s, NOTHING)
    else
      var p := s.runs[k].start;
      (Charge(TakePages(s, k, n).(usage := s.usage[p := Large(n)], live := s.live[p * PAGE := Own(p, n * PAGE)]), Up(size, PAGE)), p * PAGE)
  }

  /** rt_malloc of less: from the first zone with a free chunk, else from a spare zone, else from a new zone. */
  function MallocSmall(s: State, size: nat): (State, int)
    requires Inv(s) && 0 < size < Limit(s.zoneSize)
  {
    ZoneIndexIs(size);
    TwoChunks(s.zoneSize, size);
    var c := ZoneIndex(size);
    if s.lists[c.index] != [] then
      ListedHasFree(s, c.index);
      TakeChunk(s, s.lists[c.index][0])
    else if s.spare != [] then
      OpenZone(s.(spare := s.spare[1..]), s.spare[0], c.index, c.chunk)
    else
      var n := s.zoneSize / PAGE;
      var k := Fit(s.runs, n);
      if k == |s.runs| then (s, NOTHING)
      else
        var z := s.runs[k].start;
        OpenZone(TakePages(s, k, n).(usage := MarkZone(s.usage, z, n)), z, c.index, c.chunk)
  }

  lemma IndexIn(s: State, z: Page)
    requires Inv(s) && z in s.zone
    ensures s.zone[z].index < NZONES == |s.lists|
  {
  }

  lemma ListedHasFree(s: State, i: nat)
    requires Inv(s) && i < NZONES && s.lists[i] != []
    ensures var z := s.lists[i][0];
      && z in s.zone && s.zone[z].index == i && s.zone[z].nfree > 0
      && (s.zone[z].uindex + 1 == s.zone[z].nmax ==> s.zone[z].chunks != [])
  {
    var z := s.lists[i][0];
    assert z in s.lists[i];
  }

  /** rt_malloc. */
  function Malloc(s: State, size: nat): (State, int)
    requires Inv(s)
  {
    if size == 0 then (s, NOTHING)
    else if size >= Limit(s.zoneSize) then MallocLarge(s, size)
    else MallocSmall(s, size)
  }

  function Unmark(usage: map<Page, Usage>, z: Page, n: nat): map<Page, Usage> {
    if n == 0 then usage else Unmark(usage, z, n - 1)[z + n - 1 := FreePage]
  }

  function GivePages(s: State, p: Page): State
    requires p in s.held
  {
    s.(runs := Freed(s.runs, p, s.held[p]), held := s.held - {p})
  }

  /** rt_free of pages. */
  function FreeLarge(s: State, a: int): State
    requires a in s.live && s.live[a].Own? && s.live[a].p in s.held
  {
    var p := s.live[a].p;
    GivePages(s, p).(usage := s.usage[p := Large(0)], used := s.used - s.held[p] * PAGE, live := s.live - {a})
  }

  /** rt_free of a chunk, up to the point where its zone is looked at. */
  function PutChunk(s: State, z: Page, a: int): State
    requires z in s.zone && s.zone[z].index < |s.lists|
  {
    var r := s.zone[z];
    var t := r.(nfree := r.nfree + 1, chunks := [a] + r.chunks);
    s.(zone := s.zone[z := t], lists := if r.nfree == 0 then s.lists[r.index := [z] + s.lists[r.index]] else s.lists,
       used := s.used - r.size, live := s.live - {a})
  }

  /** A zone whose chunks are all free, and which is not the only one on its list, becomes a spare zone; of three spare
      zones the newest goes back to the page allocator. */
  function Retire(s: State, z: Page): State
    requires z in s.zone && s.zone[z].index < |s.lists| && (|s.spare| >= 2 ==> z in s.held)
  {
    var r := s.zone[z];
    if r.nfree == r.nmax && s.lists[r.index] != [z] then
      var t := s.(zone := s.zone - {z}, lists := s.lists[r.index := Without(s.lists[r.index], z)]);
      if |s.spare| < 2 then t.(spare := [z] + s.spare)
      else GivePages(t, z).(usage := Unmark(s.usage, z, s.zoneSize / PAGE))
    else s
  }

  /** rt_free of an allocation; the page's record tells which kind it is. */
  function Free(s: State, a: int): State
    requires Inv(s) && a in s.live
  {
    assert Granted(s, a);
    match s.live[a]
    case Own(_, _) => FreeLarge(s, a)
    case InZone(z, _) => Retire(PutChunk(s, z, a), z)
  }

  // ----- taking a chunk -----

  /** Every chunk lies inside its zone, behind the header. */
  lemma ZoneBytes(zoneSize: nat, z: Page, r: Zone, a: int)
    requires ZoneOk(zoneSize, z, r) && a in Cells(r.base, r.size, r.uindex + 1)
    ensures z * PAGE + ZONE_HDR <= a && a + r.size <= z * PAGE + zoneSize
  {
    hide ChunkOf, Offset, ChunkCount, Cells;
    var c := CellOf(r.base, r.size, r.uindex + 1, a);
    MulLe(c + 1, r.nmax, r.size);
    assert (c + 1) * r.size == c * r.size + r.size;
  }

  lemma TailMembers<T>(s: seq<T>)
    requires s != [] && Distinct(s)
    ensures Distinct(s[1..]) && Members(s[1..]) == Members(s) - {s[0]} && s[0] in Members(s)
  {
    assert s == [s[0]] + s[1..] && s[0] !in s[1..];
  }

  /** The chunk that `TakeChunk` finds was not in use, and is the only one that now is. */
  lemma ChunkTaken(zoneSize: nat, z: Page, r: Zone, t: Zone, a: int)
    requires ZoneOk(zoneSize, z, r) && r.nfree > 0
    requires if r.uindex + 1 != r.nmax then a == r.base + (r.uindex + 1) * r.size && t == r.(nfree := r.nfree - 1, uindex := r.uindex + 1)
             else r.chunks != [] && a == r.chunks[0] && t == r.(nfree := r.nfree - 1, chunks := r.chunks[1..])
    ensures ZoneOk(zoneSize, z, t) && a !in Used(r) && Used(t) == Used(r) + {a} && a in Cells(t.base, t.size, t.uindex + 1)
  {
    if r.uindex + 1 != r.nmax {
      NextCell(r.base, r.size, r.uindex + 1);
    } else {
      TailMembers(r.chunks);
    }
  }

  lemma OneHolder(held: map<Page, nat>, runs: seq<Run>, p: Page, q: Page)
    requires HeldOk(held, runs) && p in held && q in held
    ensures p == q || (p + held[p]) * PAGE <= q * PAGE || (q + held[q]) * PAGE <= p * PAGE
  {
    if p != q { assert Apart(p, held[p], q, held[q]); }
  }

  /** The bytes of a zone hold no other allocation. */
  lemma NotGranted(s: State, z: Page, a: int)
    requires ZonesOk(s.zoneSize, s.zone) && Places(s.held, s.zone, s.spare, s.zoneSize / PAGE) && HeldOk(s.held, s.runs) && LiveOk(s) && ZoneSize(s.zoneSize)
    requires z in s.held && s.held[z] == s.zoneSize / PAGE && z * PAGE <= a < z * PAGE + s.zoneSize
    requires a in s.live
    ensures s.live[a].InZone? ==> s.live[a].z == z
    ensures s.live[a].Own? ==> s.live[a].p == z
  {
    hide ChunkOf, Offset, ChunkCount, Canonical, Cells, Used, ZoneOk, Marked;
    assert Granted(s, a);
    AtHome(s, a);
    OneHolder(s.held, s.runs, Home(s.live[a]), z);
  }

  lemma SameGrants(s: State, r: State)
    requires LiveOk(s) && r.live == s.live && r.zone == s.zone
    requires forall p :: p in s.held && p !in s.zone && p !in s.spare && p in s.usage && s.usage[p].Large? ==>
               p in r.held && r.held[p] == s.held[p] && p !in r.spare && p in r.usage && r.usage[p] == s.usage[p]
    ensures LiveOk(r)
  {
    forall a | a in r.live ensures Granted(r, a) { assert Granted(s, a); }
  }

  lemma TakeLive(s: State, r: State, z: Page, t: Zone, a: int)
    requires LiveOk(s) && z in s.zone && a !in s.live && Used(t) == Used(s.zone[z]) + {a} && t.size == s.zone[z].size
    requires r.zone == s.zone[z := t] && r.live == s.live[a := InZone(z, t.size)]
    requires r.held == s.held && r.spare == s.spare && r.usage == s.usage
    ensures LiveOk(r)
  {
    forall b | b in r.live ensures Granted(r, b) {
      if b != a { assert Granted(s, b); }
    }
  }

  lemma TakeLists(lists: seq<seq<Page>>, zone: map<Page, Zone>, z: Page, t: Zone)
    requires ListsOk(lists, zone) && z in zone && zone[z].index < NZONES && lists[zone[z].index] != [] && lists[zone[z].index][0] == z
    requires zone[z].nfree > 0 && t.nfree == zone[z].nfree - 1 && t.index == zone[z].index
    ensures ListsOk(if zone[z].nfree == 1 then lists[t.index := lists[t.index][1..]] else lists, zone[z := t])
  {
    TailMembers(lists[t.index]);
    assert forall x :: x in lists[t.index][1..] <==> x in Members(lists[t.index][1..]);
    assert forall x :: x in lists[t.index] <==> x in Members(lists[t.index]);
  }

  lemma TakeKeeps(s: State, z: Page)
    requires Inv(s) && z in s.zone && s.lists[s.zone[z].index] != [] && s.lists[s.zone[z].index][0] == z && s.zone[z].nfree > 0
    requires s.zone[z].uindex + 1 == s.zone[z].nmax ==> s.zone[z].chunks != []
    ensures Inv(TakeChunk(s, z).0) && TakeChunk(s, z).1 !in s.live
  {
    hide ChunkOf, Offset, ChunkCount, Canonical, Cells, Total, Marked, Range, Pages;
    var (r, a) := TakeChunk(s, z);
    var t := r.zone[z];
    ChunkTaken(s.zoneSize, z, s.zone[z], t, a);
    ZoneBytes(s.zoneSize, z, t, a);
    if a in s.live {
      assert Granted(s, a);
      NotGranted(s, z, a);
    }
    TakeLive(s, r, z, t, a);
    TakeLists(s.lists, s.zone, z, t);
    TotalWith(s.live, a, InZone(z, t.size));
  }

  // ----- opening a zone -----

  /** `z` is a stretch of pages for a zone that is not in use. */
  ghost predicate Unopened(s: State, z: Page) {
    && z in s.held && s.held[z] == s.zoneSize / PAGE && z !in s.zone && z !in s.spare && Marked(s.usage, z, s.zoneSize / PAGE)
  }

  lemma NewZoneOk(zoneSize: nat, z: Page, n: nat)
    requires ZoneSize(zoneSize) && 0 < n < Limit(zoneSize)
    ensures var c := ZoneIndex(n);
      && 0 <= c.index < NZONES && c.chunk > 0 && Offset(c.chunk) <= zoneSize
      && var base := z * PAGE + Offset(c.chunk);
         var t := Zone(ChunkCount(zoneSize, c.chunk) - 1, ChunkCount(zoneSize, c.chunk), base, 0, c.chunk, c.index, []);
         ZoneOk(zoneSize, z, t) && Used(t) == {base} && t.nfree > 0
  {
    hide ChunkOf, Offset, ChunkCount, ZoneIndex;
    ZoneIndexIs(n);
    TwoChunks(zoneSize, n);
    var c := ZoneIndex(n);
    var base := z * PAGE + Offset(c.chunk);
    assert Cells(base, c.chunk, 1) == Cells(base, c.chunk, 0) + {base};
  }

  lemma OpenLive(s: State, r: State, z: Page, t: Zone, a: int)
    requires LiveOk(s) && z !in s.zone && z !in s.spare && a !in s.live && Used(t) == {a}
    requires z in s.usage && s.usage[z].Small?
    requires r.zone == s.zone[z := t] && r.live == s.live[a := InZone(z, t.size)]
    requires r.held == s.held && r.spare == s.spare && r.usage == s.usage
    ensures LiveOk(r)
  {
    forall b | b in r.live ensures Granted(r, b) {
      if b != a { assert Granted(s, b); }
    }
  }

  lemma OpenLists(lists: seq<seq<Page>>, zone: map<Page, Zone>, z: Page, t: Zone)
    requires ListsOk(lists, zone) && z !in zone && t.index < NZONES && t.nfree > 0
    ensures ListsOk(lists[t.index := [z] + lists[t.index]], zone[z := t])
  {
  }

  lemma OpenKeeps(s: State, z: Page, n: nat)
    requires Inv(s) && Unopened(s, z) && 0 < n < Limit(s.zoneSize)
    ensures var c := ZoneIndex(n);
      && 0 <= c.index < NZONES && c.chunk > 0 && Offset(c.chunk) <= s.zoneSize
      && Inv(OpenZone(s, z, c.index, c.chunk).0) && OpenZone(s, z, c.index, c.chunk).1 !in s.live
  {
    hide ChunkOf, Offset, ChunkCount, Canonical, Cells, Total, Range, Pages;
    NewZoneOk(s.zoneSize, z, n);
    var c := ZoneIndex(n);
    var (r, a) := OpenZone(s, z, c.index, c.chunk);
    var t := r.zone[z];
    assert MarkedAt(s.usage, z, 0);
    assert a in Used(t);
    ZoneBytes(s.zoneSize, z, t, a);
    if a in s.live {
      assert Granted(s, a);
      NotGranted(s, z, a);
    }
    OpenLive(s, r, z, t, a);
    OpenLists(s.lists, s.zone, z, t);
    TotalWith(s.live, a, InZone(z, t.size));
    OpenPlaces(s, z, t);
  }

  lemma OpenPlaces(s: State, z: Page, t: Zone)
    requires Places(s.held, s.zone, s.spare, s.zoneSize / PAGE) && UsageOk(s.usage, s.zone, s.spare, s.zoneSize / PAGE) && Unopened(s, z)
    ensures Places(s.held, s.zone[z := t], s.spare, s.zoneSize / PAGE) && UsageOk(s.usage, s.zone[z := t], s.spare, s.zoneSize / PAGE)
  {
  }

  // ----- taking pages -----

  lemma {:induction false} MarkZoneIs(usage: map<Page, Usage>, z: Page, n: nat)
    ensures Marked(MarkZone(usage, z, n), z, n)
    ensures forall p :: p in usage ==> p in MarkZone(usage, z, n) && (p < z || p >= z + n ==> MarkZone(usage, z, n)[p] == usage[p])
    decreases n
  {
    if n > 0 {
      MarkZoneIs(usage, z, n - 1);
      var m := MarkZone(usage, z, n - 1);
      forall i | 0 <= i < n ensures MarkedAt(MarkZone(usage, z, n), z, i) {
        if i < n - 1 { assert MarkedAt(m, z, i); }
      }
    }
  }

  lemma RangeApart(p: Page, n: nat, q: Page, m: nat)
    requires n > 0 && m > 0 && Range(p, n) !! Range(q, m)
    ensures Apart(p, n, q, m)
  {
    assert InRange(p, p, n) && InRange(q, q, m);
    assert InRange(p, q, m) ==> p in Range(q, m);
    assert InRange(q, p, n) ==> q in Range(p, n);
  }

  /** Pages cut from the free list belong to nobody else. */
  lemma TakenHeld(held: map<Page, nat>, runs: seq<Run>, k: nat, n: nat)
    requires HeldOk(held, runs) && k < |runs| && runs[k].n >= n > 0
    ensures runs[k].start !in held && runs[k].start >= 0 && HeldOk(held[runs[k].start := n], Cut(runs, k, n))
    ensures forall p :: p in held ==> Apart(p, held[p], runs[k].start, n)
  {
    var q := runs[k].start;
    CutIs(runs, k, n);
    assert InRange(q, q, n) && q in Range(q, n);
    forall p | p in held ensures Apart(p, held[p], q, n) {
      RangeApart(p, held[p], q, n);
    }
  }

  /** The records of a stretch that lies elsewhere are not touched. */
  lemma StaysMarked(usage: map<Page, Usage>, usage': map<Page, Usage>, z: Page, pages: nat, q: Page, n: nat)
    requires Marked(usage, z, pages) && Apart(z, pages, q, n)
    requires forall p :: p in usage && (p < q || p >= q + n) ==> p in usage' && usage'[p] == usage[p]
    ensures Marked(usage', z, pages)
  {
    forall i | 0 <= i < pages ensures MarkedAt(usage', z, i) { assert MarkedAt(usage, z, i); }
  }

  /** Taking pages changes nothing about the zones; nobody else's record is in the pages taken. */
  lemma TakePagesKeeps(s: State, k: nat, n: nat, usage: map<Page, Usage>)
    requires Inv(s) && k < |s.runs| && s.runs[k].n >= n > 0
    requires forall p :: p in s.usage ==> p in usage && (p < s.runs[k].start || p >= s.runs[k].start + n ==> usage[p] == s.usage[p])
    ensures Inv(TakePages(s, k, n).(usage := usage)) && s.runs[k].start >= 0
    ensures s.runs[k].start !in s.held
  {
    hide ChunkOf, Offset, ChunkCount, Canonical, Used, Total, Cut, Range, Pages, ListsOk, ZoneOk;
    var r, q := TakePages(s, k, n).(usage := usage), s.runs[k].start;
    TakenHeld(s.held, s.runs, k, n);
    forall z | z in s.zone || z in s.spare ensures Marked(usage, z, s.zoneSize / PAGE) {
      StaysMarked(s.usage, usage, z, s.zoneSize / PAGE, q, n);
    }
    forall a | a in r.live ensures Granted(r, a) { assert Granted(s, a); }
  }

  /** rt_malloc of less than `zone_limit` bytes keeps the heap in order, and hands out an address that was not in use. */
  lemma MallocSmallKeeps(s: State, n: nat)
    requires Inv(s) && 0 < n < Limit(s.zoneSize)
    ensures var (r, a) := MallocSmall(s, n); Inv(r) && (a != NOTHING ==> a !in s.live)
  {
    ZoneIndexIs(n);
    TwoChunks(s.zoneSize, n);
    var c := ZoneIndex(n);
    if s.lists[c.index] != [] {
      ListedHasFree(s, c.index);
      TakeKeeps(s, s.lists[c.index][0]);
    } else if s.spare != [] {
      SpareKeeps(s);
      OpenKeeps(s.(spare := s.spare[1..]), s.spare[0], n);
    } else {
      var m := s.zoneSize / PAGE;
      var k := Fit(s.runs, m);
      if k < |s.runs| {
        var z := s.runs[k].start;
        MarkZoneIs(s.usage, z, m);
        TakePagesKeeps(s, k, m, MarkZone(s.usage, z, m));
        OpenKeeps(TakePages(s, k, m).(usage := MarkZone(s.usage, z, m)), z, n);
      }
    }
  }

  lemma SpareKeeps(s: State)
    requires Inv(s) && s.spare != []
    ensures Inv(s.(spare := s.spare[1..])) && Unopened(s.(spare := s.spare[1..]), s.spare[0])
  {
    var r := s.(spare := s.spare[1..]);
    TailMembers(s.spare);
    assert s.spare[0] in s.spare && s.spare[0] !in r.spare;
    assert forall x :: x in r.spare ==> x in s.spare;
    SameGrants(s, r);
  }

  lemma PagesUp(size: nat)
    requires size > 0
    ensures var n := Up(size, PAGE) / PAGE; n > 0 && n * PAGE == Up(size, PAGE)
  {
  }

  lemma LargeLive(s: State, r: State, p: Page, n: nat)
    requires LiveOk(s) && p !in s.zone && p !in s.spare && p * PAGE !in s.live && p in s.held && s.held[p] == n
    requires p in s.usage && s.usage[p] == Large(n)
    requires r.live == s.live[p * PAGE := Own(p, n * PAGE)]
    requires r.held == s.held && r.spare == s.spare && r.zone == s.zone && r.usage == s.usage
    ensures LiveOk(r)
  {
    forall b | b in r.live ensures Granted(r, b) {
      if b != p * PAGE { assert Granted(s, b); }
    }
  }

  lemma FreshPage(s: State, p: Page)
    requires Inv(s) && p !in s.held && forall q :: q in s.held ==> Apart(q, s.held[q], p, 1)
    ensures p * PAGE !in s.live
  {
    hide ChunkOf, Offset, ChunkCount, Canonical, Cells, Total, ListsOk, Marked;
    if p * PAGE in s.live {
      assert Granted(s, p * PAGE);
      match s.live[p * PAGE]
      case InZone(y, _) =>
        assert Apart(y, s.held[y], p, 1);
        ZoneBytes(s.zoneSize, y, s.zone[y], p * PAGE);
      case Own(_, _) =>
    }
  }

  /** rt_malloc of at least `zone_limit` bytes. */
  lemma MallocLargeKeeps(s: State, size: nat)
    requires Inv(s) && size > 0
    ensures var (r, a) := MallocLarge(s, size); Inv(r) && (a != NOTHING ==> a !in s.live)
  {
    PagesUp(size);
    var n := Up(size, PAGE) / PAGE;
    var k := Fit(s.runs, n);
    if k < |s.runs| {
      var p := s.runs[k].start;
      TakePagesKeeps(s, k, n, s.usage[p := Large(n)]);
      TakenHeld(s.held, s.runs, k, n);
      FreshPage(s, p);
      var m := TakePages(s, k, n).(usage := s.usage[p := Large(n)]);
      var r := m.(live := m.live[p * PAGE := Own(p, n * PAGE)]);
      LargeLive(m, r, p, n);
      TotalWith(s.live, p * PAGE, Own(p, n * PAGE));
    }
  }

  /** rt_malloc keeps the heap in order; what it hands out was not in use. */
  lemma MallocKeeps(s: State, size: nat)
    requires Inv(s)
    ensures var (r, a) := Malloc(s, size); Inv(r) && (a != NOTHING ==> a !in s.live)
  {
    if size >= Limit(s.zoneSize) {
      MallocLargeKeeps(s, size);
    } else if size > 0 {
      MallocSmallKeeps(s, size);
    }
  }

  // ----- releasing -----

  lemma ChunkPut(zoneSize: nat, z: Page, r: Zone, t: Zone, a: int)
    requires ZoneOk(zoneSize, z, r) && a in Used(r) && t == r.(nfree := r.nfree + 1, chunks := [a] + r.chunks)
    ensures ZoneOk(zoneSize, z, t) && Used(t) == Used(r) - {a}
  {
    assert Members(t.chunks) == Members(r.chunks) + {a};
    assert a !in r.chunks;
  }

  lemma PutLive(s: State, r: State, z: Page, t: Zone, a: int)
    requires LiveOk(s) && z in s.zone && a in Used(s.zone[z]) && Used(t) == Used(s.zone[z]) - {a} && t.size == s.zone[z].size
    requires r.zone == s.zone[z := t] && r.live == s.live - {a}
    requires r.held == s.held && r.spare == s.spare && r.usage == s.usage
    ensures LiveOk(r)
  {
    forall b | b in r.live ensures Granted(r, b) { assert Granted(s, b); }
    forall y, b | y in r.zone && b in Used(r.zone[y]) ensures b in r.live && r.live[b] == InZone(y, r.zone[y].size) {
      assert b in Used(s.zone[y]);
      assert s.live[b] == InZone(y, s.zone[y].size) && s.live[a] == InZone(z, s.zone[z].size);
    }
  }

  lemma PutKeeps(s: State, z: Page, a: int)
    requires Inv(s) && z in s.zone && a in Used(s.zone[z])
    ensures Inv(PutChunk(s, z, a))
  {
    hide ChunkOf, Offset, ChunkCount, Canonical, Cells, Total, Marked, Range, Pages;
    var r := PutChunk(s, z, a);
    var t := r.zone[z];
    ChunkPut(s.zoneSize, z, s.zone[z], t, a);
    AllFree(s.zoneSize, z, s.zone[z]);
    PutLive(s, r, z, t, a);
    PutLists(s.lists, s.zone, z, t);
    TotalWithout(s.live, a);
  }

  lemma PutLists(lists: seq<seq<Page>>, zone: map<Page, Zone>, z: Page, t: Zone)
    requires ListsOk(lists, zone) && z in zone && zone[z].index < NZONES && zone[z].nfree >= 0
    requires t.nfree == zone[z].nfree + 1 && t.index == zone[z].index
    ensures ListsOk(if zone[z].nfree == 0 then lists[t.index := [z] + lists[t.index]] else lists, zone[z := t])
  {
  }

  lemma DropLists(lists: seq<seq<Page>>, zone: map<Page, Zone>, z: Page)
    requires ListsOk(lists, zone) && z in zone && zone[z].index < NZONES
    ensures ListsOk(lists[zone[z].index := Without(lists[zone[z].index], z)], zone - {z})
  {
    WithoutDistinct(lists[zone[z].index], z);
  }

  /** Pages given back belong to nobody any more. */
  lemma GivenHeld(held: map<Page, nat>, runs: seq<Run>, p: Page)
    requires HeldOk(held, runs) && p in held
    ensures HeldOk(held - {p}, Freed(runs, p, held[p]))
  {
    FreedIs(runs, p, held[p]);
    forall q | q in held && q != p ensures Range(q, held[q]) !! Range(p, held[p]) {
      assert Apart(q, held[q], p, held[p]);
    }
  }

  lemma {:induction false} UnmarkIs(usage: map<Page, Usage>, z: Page, n: nat)
    ensures forall p :: p in usage ==> p in Unmark(usage, z, n) && (p < z || p >= z + n ==> Unmark(usage, z, n)[p] == usage[p])
    decreases n
  {
    if n > 0 { UnmarkIs(usage, z, n - 1); }
  }

  lemma CloseLive(s: State, r: State, z: Page)
    requires LiveOk(s) && z in s.zone && Used(s.zone[z]) == {} && r.zone == s.zone - {z} && r.live == s.live
    requires forall p :: p in s.held && p !in s.zone && p !in s.spare && p in s.usage ==>
               p in r.held && r.held[p] == s.held[p] && p !in r.spare && p in r.usage && r.usage[p] == s.usage[p]
    ensures LiveOk(r)
  {
    forall b | b in r.live ensures Granted(r, b) { assert Granted(s, b); }
  }

  lemma RetireKeeps(s: State, z: Page)
    requires Inv(s) && z in s.zone
    ensures Inv(Retire(s, z))
  {
    var r := s.zone[z];
    if r.nfree == r.nmax && s.lists[r.index] != [z] {
      AllFree(s.zoneSize, z, r);
      DropLists(s.lists, s.zone, z);
      if |s.spare| < 2 { RetireToSpare(s, z); } else { RetireToPages(s, z); }
    }
  }

  lemma RetireToSpare(s: State, z: Page)
    requires Inv(s) && z in s.zone && Used(s.zone[z]) == {} && |s.spare| < 2
    requires ListsOk(s.lists[s.zone[z].index := Without(s.lists[s.zone[z].index], z)], s.zone - {z})
    ensures Inv(s.(zone := s.zone - {z}, lists := s.lists[s.zone[z].index := Without(s.lists[s.zone[z].index], z)], spare := [z] + s.spare))
  {
    hide ChunkOf, Offset, ChunkCount, Canonical, Used, Total, Range, Pages, ListsOk, ZoneOk, Marked;
    IndexIn(s, z);
    var r := s.(zone := s.zone - {z}, lists := s.lists[s.zone[z].index := Without(s.lists[s.zone[z].index], z)], spare := [z] + s.spare);
    CloseLive(s, r, z);
    assert Members(r.spare) == Members(s.spare) + {z};
  }

  lemma RetireToPages(s: State, z: Page)
    requires Inv(s) && z in s.zone && Used(s.zone[z]) == {}
    requires ListsOk(s.lists[s.zone[z].index := Without(s.lists[s.zone[z].index], z)], s.zone - {z})
    ensures Inv(GivePages(s.(zone := s.zone - {z}, lists := s.lists[s.zone[z].index := Without(s.lists[s.zone[z].index], z)]), z)
                  .(usage := Unmark(s.usage, z, s.zoneSize / PAGE)))
  {
    hide ChunkOf, Offset, ChunkCount, Canonical, Used, Total, Range, Pages, ListsOk, ZoneOk, Freed, LiveOk, UsageOk;
    IndexIn(s, z);
    var n := s.zoneSize / PAGE;
    var t := s.(zone := s.zone - {z}, lists := s.lists[s.zone[z].index := Without(s.lists[s.zone[z].index], z)]);
    var r := GivePages(t, z).(usage := Unmark(s.usage, z, n));
    GivenHeld(s.held, s.runs, z);
    RetiredPlaces(s, z, n);
    ElsewhereUsed(s, z, n);
    CloseLive(s, r, z);
  }

  /** The other zones and their records, once the pages of zone `z` have been given back. */
  lemma RetiredPlaces(s: State, z: Page, n: nat)
    requires Inv(s) && z in s.zone && n == s.zoneSize / PAGE
    ensures z in s.held && Places(s.held - {z}, s.zone - {z}, s.spare, n) && UsageOk(Unmark(s.usage, z, n), s.zone - {z}, s.spare, n)
  {
    hide ChunkOf, Offset, ChunkCount, Canonical, Used, Total, Range, Pages, ListsOk, ZoneOk, Freed, LiveOk, Marked;
    UnmarkIs(s.usage, z, n);
    forall y | y in s.held && y != z ensures Apart(y, s.held[y], z, n) {}
    forall y | (y in s.zone && y != z) || y in s.spare ensures Marked(Unmark(s.usage, z, n), y, n) {
      StaysMarked(s.usage, Unmark(s.usage, z, n), y, n, z, n);
    }
  }

  /** Nor are the records of pages that are neither in a zone nor spare. */
  lemma ElsewhereUsed(s: State, z: Page, n: nat)
    requires Inv(s) && z in s.zone && n == s.zoneSize / PAGE
    ensures forall p :: p in s.held && p !in s.zone && p !in s.spare && p in s.usage ==>
              p in Unmark(s.usage, z, n) && Unmark(s.usage, z, n)[p] == s.usage[p] && p != z
  {
    hide ChunkOf, Offset, ChunkCount, Canonical, Used, Total, Range, Pages, ListsOk, ZoneOk, Freed, LiveOk, Marked, UsageOk;
    UnmarkIs(s.usage, z, n);
    forall p | p in s.held && p !in s.zone && p !in s.spare ensures p < z || p >= z + n { assert Apart(p, s.held[p], z, s.held[z]); }
  }

  lemma LargeGone(s: State, r: State, a: int, p: Page)
    requires LiveOk(s) && a in s.live && s.live[a] == Own(p, s.live[a].bytes)
    requires r.zone == s.zone && r.spare == s.spare && r.live == s.live - {a} && r.held == s.held - {p}
    requires a == p * PAGE && forall q :: q in s.usage && q != p ==> q in r.usage && r.usage[q] == s.usage[q]
    ensures LiveOk(r)
  {
    forall b | b in r.live ensures Granted(r, b) { assert Granted(s, b); }
    forall y, b | y in r.zone && b in Used(r.zone[y]) ensures b in r.live && r.live[b] == InZone(y, r.zone[y].size) {
      assert s.live[b] == InZone(y, s.zone[y].size);
    }
  }

  lemma FreeLargeKeeps(s: State, a: int)
    requires Inv(s) && a in s.live && s.live[a].Own?
    ensures s.live[a].p in s.held && Inv(FreeLarge(s, a))
  {
    assert Granted(s, a);
    var p, n := s.live[a].p, s.zoneSize / PAGE;
    var r := FreeLarge(s, a);
    GivenHeld(s.held, s.runs, p);
    TotalWithout(s.live, a);
    forall y | y in r.zone || y in r.spare ensures Marked(r.usage, y, n) {
      assert Apart(y, s.held[y], p, s.held[p]);
      StaysMarked(s.usage, r.usage, y, n, p, 1);
    }
    LargeGone(s, r, a, p);
  }

  /** rt_free ends exactly one allocation. */
  lemma FreeLive(s: State, a: int)
    requires Inv(s) && a in s.live
    ensures Free(s, a).live == s.live - {a}
  {
    assert Granted(s, a);
  }

  /** rt_free keeps the heap in order. */
  lemma FreeKeeps(s: State, a: int)
    requires Inv(s) && a in s.live
    ensures Inv(Free(s, a))
  {
    assert Granted(s, a);
    match s.live[a]
    case Own(_, _) => FreeLargeKeeps(s, a);
    case InZone(z, _) =>
      PutKeeps(s, z, a);
      RetireKeeps(PutChunk(s, z, a), z);
  }

  // ----- what callers rely on -----

  /** The record of the page that holds an allocation tells rt_free what it is: its own pages, or the zone it is in. */
  lemma RecordFinds(s: State, a: int)
    requires Inv(s) && a in s.live
    ensures a / PAGE in s.usage
    ensures match s.live[a]
      case Own(p, bytes) => a == p * PAGE && s.usage[a / PAGE] == Large(bytes / PAGE)
      case InZone(z, _) => s.usage[a / PAGE].Small? && a / PAGE - s.usage[a / PAGE].offset == z
  {
    hide ChunkOf, Offset, ChunkCount, Canonical, Cells, Total, ListsOk, Range, Pages;
    assert Granted(s, a);
    match s.live[a]
    case Own(p, _) =>
    case InZone(z, _) =>
      ZoneBytes(s.zoneSize, z, s.zone[z], a);
      assert MarkedAt(s.usage, z, a / PAGE - z);
  }

  /** The stretch of pages an allocation lies in. */
  function Home(g: Grant): Page {
    match g
    case InZone(z, _) => z
    case Own(p, _) => p
  }

  lemma AtHome(s: State, a: int)
    requires Granted(s, a) && ZoneSize(s.zoneSize) && ZonesOk(s.zoneSize, s.zone) && Places(s.held, s.zone, s.spare, s.zoneSize / PAGE)
    requires HeldOk(s.held, s.runs)
    ensures var h := Home(s.live[a]); h in s.held && h * PAGE <= a && a + s.live[a].bytes <= (h + s.held[h]) * PAGE
    ensures s.live[a].bytes > 0
  {
    hide ChunkOf, Offset, ChunkCount, Canonical, Cells, Range, Pages;
    if s.live[a].InZone? { ZoneBytes(s.zoneSize, s.live[a].z, s.zone[s.live[a].z], a); }
  }

  lemma SameHome(s: State, a: int, b: int)
    requires Inv(s) && a in s.live && b in s.live && a < b && Home(s.live[a]) == Home(s.live[b])
    ensures a + s.live[a].bytes <= b
  {
    assert Granted(s, a) && Granted(s, b);
    var h := Home(s.live[a]);
    if s.live[a].InZone? { CellsApart(s.zone[h].base, s.zone[h].size, s.zone[h].uindex + 1, a, b); }
  }

  /** No two allocations share a byte. */
  lemma LiveApart(s: State, a: int, b: int)
    requires Inv(s) && a in s.live && b in s.live && a < b
    ensures a + s.live[a].bytes <= b
  {
    hide ChunkOf, Offset, ChunkCount, Canonical, Cells, Range, Pages, Used, Total, ListsOk;
    var h, k := Home(s.live[a]), Home(s.live[b]);
    assert Granted(s, a) && Granted(s, b);
    AtHome(s, a);
    AtHome(s, b);
    if h == k { SameHome(s, a, b); } else { assert Apart(h, s.held[h], k, s.held[k]); }
  }

  /** How a chunk of zone `z` is aligned: at a multiple of 8; and, if its size is a power of two, at a multiple of that size if and
      only if its zone is, so always as far as the size does not exceed a page. */
  ghost predicate Aligned(a: int, z: Page, size: nat) {
    && z >= 0 && size > 0 && a % 8 == 0
    && (PowerOfTwo(size) ==> (a % size == 0 <==> z * PAGE % size == 0) && (size <= PAGE ==> a % size == 0))
  }

  /** Where every allocation begins. The source means chunks of 2^k bytes to be aligned to their size. */
  lemma ChunksAreAligned(s: State, a: int)
    requires Inv(s) && a in s.live
    ensures s.live[a].Own? ==> a % PAGE == 0
    ensures s.live[a].InZone? ==> Aligned(a, s.live[a].z, s.live[a].bytes)
  {
    hide Aligned, PowerOfTwo, Offset, ChunkOf, ChunkCount, Canonical, ListsOk, Total, Range, Pages, Marked;
    assert Granted(s, a);
    if s.live[a].InZone? {
      var r := s.zone[s.live[a].z];
      var c := CellOf(r.base, r.size, r.uindex + 1, a);
      ChunkIsEight(r.index);
      ChunkAligned(s.live[a].z, r.size, c);
    }
  }

  lemma ChunkAligned(z: nat, size: nat, c: nat)
    requires 0 < size <= 16384 && size % 8 == 0
    ensures Aligned(z * PAGE + Offset(size) + c * size, z, size)
  {
    hide PowerOfTwo, Offset;
    OffsetIs(size);
    EightAligned(z * PAGE, Offset(size), c, size);
    if PowerOfTwo(size) {
      var q :| Offset(size) == q * size;
      SumAligned(z * PAGE, q, c, size);
      if size <= PAGE {
        var d := DividesPage(size);
        TimesAligned(z, d, size);
      }
    }
  }

  lemma EightAligned(b: nat, off: nat, c: nat, size: nat)
    requires b % 8 == 0 && off % 8 == 0 && size % 8 == 0
    ensures (b + off + c * size) % 8 == 0
  {
    var e := size / 8;
    assert c * size == 8 * (c * e);
  }

  lemma ChunkIsEight(i: nat)
    requires i < NZONES
    ensures ChunkOf(i) % 8 == 0 && 0 < ChunkOf(i) <= 16384
  {
  }

  lemma SumAligned(b: nat, q: nat, c: nat, m: nat)
    requires m > 0
    ensures (b + q * m + c * m) % m == 0 <==> b % m == 0
  {
    var k, r := b / m, b % m;
    assert b + q * m + c * m == (k + q + c) * m + r;
    Remainder(k + q + c, m, r);
  }

  lemma TimesAligned(z: nat, d: nat, m: nat)
    requires m > 0 && PAGE == d * m
    ensures z * PAGE % m == 0
  {
    assert z * PAGE == (z * d) * m + 0;
    Remainder(z * d, m, 0);
  }

  lemma Remainder(k: nat, m: nat, r: nat)
    requires r < m
    ensures (k * m + r) % m == r
  {
    var x := k * m + r;
    var q := x / m;
    assert x == q * m + x % m;
    if q < k { MulLe(q + 1, k, m); } else if k < q { MulLe(k + 1, q, m); }
  }

  lemma CellsApart(base: int, size: nat, n: nat, a: int, b: int)
    requires a in Cells(base, size, n) && b in Cells(base, size, n) && a < b
    ensures a + size <= b
  {
    var c := CellOf(base, size, n, a);
    var d := CellOf(base, size, n, b);
    if d <= c { MulLe(d, c, size); } else { MulMono(c, d, size); }
  }

  /** The allocation `a` of at least `size` bytes is the only change from `s` to `r`. */
  ghost predicate Served(s: State, r: State, a: int, size: nat) {
    a in r.live && r.live - {a} == s.live - {a} && r.live[a].bytes >= size
  }

  ghost predicate NoPages(s: State, n: nat) {
    Fit(s.runs, n) == |s.runs|
  }

  /** rt_malloc fails exactly if nothing was asked for or neither the list of the chunk size, nor a spare zone, nor the free
      pages can serve the request; what it hands out is large enough, and is the only change to the allocations. */
  lemma MallocServes(s: State, size: nat)
    requires Inv(s)
    ensures var (r, a) := Malloc(s, size);
      && (size == 0 ==> a == NOTHING)
      && (size >= Limit(s.zoneSize) ==> (a == NOTHING <==> NoPages(s, Up(size, PAGE) / PAGE)))
      && (0 < size < Limit(s.zoneSize) ==>
            && 0 <= ZoneIndex(size).index < NZONES
            && (a == NOTHING <==> s.lists[ZoneIndex(size).index] == [] && s.spare == [] && NoPages(s, s.zoneSize / PAGE)))
      && (if a == NOTHING then r == s else Served(s, r, a, size))
  {
    if size >= Limit(s.zoneSize) {
      PagesUp(size);
      NothingIsNoPage(s, Up(size, PAGE) / PAGE);
    } else if size > 0 {
      ZoneIndexIs(size);
      MallocSmallServes(s, size);
    }
  }

  lemma NothingIsNoPage(s: State, n: nat)
    requires Inv(s) && n > 0
    ensures !NoPages(s, n) ==> s.runs[Fit(s.runs, n)].start >= 0
  {
    var k := Fit(s.runs, n);
    if k < |s.runs| { TakenHeld(s.held, s.runs, k, n); }
  }

  lemma TakeServes(s: State, z: Page)
    requires Inv(s) && z in s.zone && s.lists[s.zone[z].index] != [] && s.lists[s.zone[z].index][0] == z && s.zone[z].nfree > 0
    requires s.zone[z].uindex + 1 == s.zone[z].nmax ==> s.zone[z].chunks != []
    ensures var (r, a) := TakeChunk(s, z); a != NOTHING && Served(s, r, a, s.zone[z].size)
  {
    hide ChunkOf, Offset, ChunkCount, Canonical, Total, ListsOk, Range, Pages, Marked;
    IndexIn(s, z);
    var (r, a) := TakeChunk(s, z);
    ChunkTaken(s.zoneSize, z, s.zone[z], r.zone[z], a);
    ZoneBytes(s.zoneSize, z, r.zone[z], a);
    assert z in s.held && z >= 0;
  }

  lemma MallocSmallServes(s: State, size: nat)
    requires Inv(s) && 0 < size < Limit(s.zoneSize)
    ensures var (r, a) := MallocSmall(s, size);
      && (a == NOTHING <==> s.lists[ZoneIndex(size).index] == [] && s.spare == [] && NoPages(s, s.zoneSize / PAGE))
      && (if a == NOTHING then r == s else Served(s, r, a, size))
  {
    ZoneIndexIs(size);
    TwoChunks(s.zoneSize, size);
    var c := ZoneIndex(size);
    if s.lists[c.index] != [] {
      ListedHasFree(s, c.index);
      TakeServes(s, s.lists[c.index][0]);
    } else if s.spare != [] {
      assert s.spare[0] in s.spare;
    } else {
      NothingIsNoPage(s, s.zoneSize / PAGE);
    }
  }

  // ----- a new zone in two steps -----

  /** The pages for a new zone are taken from the page allocator, without the lock. */
  function ReserveZone(s: State): (State, Page) {
    var n := s.zoneSize / PAGE;
    var k := Fit(s.runs, n);
    if n == 0 || k == |s.runs| then (s, NOTHING) else (TakePages(s, k, n), s.runs[k].start)
  }

  /** With the lock again: the pages are recorded and laid out as a zone for chunks of `size` bytes, and the first one is taken. */
  function OpenReserved(s: State, z: Page, size: nat): (State, int)
    requires Inv(s) && 0 < size < Limit(s.zoneSize)
  {
    ZoneIndexIs(size);
    TwoChunks(s.zoneSize, size);
    OpenZone(s.(usage := MarkZone(s.usage, z, s.zoneSize / PAGE)), z, ZoneIndex(size).index, ZoneIndex(size).chunk)
  }

  /** The pages from `z` on are held, but nobody uses them yet. */
  predicate Reserved(s: State, z: Page) {
    && z in s.held && s.held[z] == s.zoneSize / PAGE && z !in s.zone && z !in s.spare
    && forall a :: a in s.live ==> Home(s.live[a]) != z
  }

  lemma ReserveKeeps(s: State)
    requires Inv(s)
    ensures var (r, z) := ReserveZone(s); Inv(r) && (z != NOTHING ==> Reserved(r, z) && z !in s.held)
    ensures ReserveZone(s).1 == NOTHING <==> NoPages(s, s.zoneSize / PAGE)
  {
    hide ChunkOf, Offset, ChunkCount, Canonical, Cells, Total, Range, Pages, ListsOk, ZoneOk, Marked;
    var n := s.zoneSize / PAGE;
    var k := Fit(s.runs, n);
    NothingIsNoPage(s, n);
    if k < |s.runs| {
      TakePagesKeeps(s, k, n, s.usage);
      forall a | a in s.live ensures Home(s.live[a]) in s.held { HomeHeld(s, a); }
    }
  }

  lemma HomeHeld(s: State, a: int)
    requires Inv(s) && a in s.live
    ensures Home(s.live[a]) in s.held && (s.live[a].Own? ==> s.live[a].p !in s.zone && s.live[a].p !in s.spare)
    ensures s.live[a].InZone? ==> s.live[a].z in s.zone
  {
    assert Granted(s, a);
  }

  /** Nothing but the layout itself is changed by it. */
  lemma OpenReservedKeeps(s: State, z: Page, size: nat)
    requires Inv(s) && Reserved(s, z) && 0 < size < Limit(s.zoneSize)
    ensures var (r, a) := OpenReserved(s, z, size); Inv(r) && a !in s.live && Served(s, r, a, size)
  {
    MarkKeeps(s, z);
    ZoneIndexIs(size);
    OpenKeeps(s.(usage := MarkZone(s.usage, z, s.zoneSize / PAGE)), z, size);
    hide Inv, Reserved;
  }

  lemma MarkKeeps(s: State, z: Page)
    requires Inv(s) && Reserved(s, z)
    ensures var r := s.(usage := MarkZone(s.usage, z, s.zoneSize / PAGE)); Inv(r) && Unopened(r, z)
  {
    hide ChunkOf, Offset, ChunkCount, Canonical, Used, Total, Range, Pages, ListsOk, ZoneOk;
    var n := s.zoneSize / PAGE;
    var r := s.(usage := MarkZone(s.usage, z, n));
    MarkZoneIs(s.usage, z, n);
    forall y | y in s.held && y != z ensures Apart(y, s.held[y], z, n) {}
    forall y | y in s.zone || y in s.spare ensures Marked(r.usage, y, n) { StaysMarked(s.usage, r.usage, y, n, z, n); }
    forall a | a in r.live ensures Granted(r, a) {
      assert Granted(s, a) && Home(s.live[a]) != z;
      if s.live[a].Own? { assert Apart(s.live[a].p, s.held[s.live[a].p], z, n); }
    }
  }

  /** With nothing in between, the two steps make the call. */
  lemma StepsMakeTheCall(s: State, size: nat)
    requires Inv(s) && 0 < size < Limit(s.zoneSize) && 0 <= ZoneIndex(size).index < |s.lists|
    requires s.lists[ZoneIndex(size).index] == [] && s.spare == []
    ensures Inv(ReserveZone(s).0)
    ensures MallocSmall(s, size) == if ReserveZone(s).1 == NOTHING then (s, NOTHING) else OpenReserved(ReserveZone(s).0, ReserveZone(s).1, size)
  {
    ReserveKeeps(s);
    hide OpenZone, MarkZone;
  }

  // ----- whole runs -----

  /** `Reserve` and `Open` are the two steps of a call of rt_malloc that needs a new zone. */
  datatype Call = Get(size: nat) | Put(a: int) | Reserve | Open(z: Page, size: nat)

  /** A release of something that is not allocated is not made, nor is a zone laid out on pages that were not reserved. */
  function Apply(s: State, c: Call): State
    requires Inv(s)
  {
    match c
    case Get(size) => Malloc(s, size).0
    case Put(a) => if a in s.live then Free(s, a) else s
    case Reserve => ReserveZone(s).0
    case Open(z, size) => if Reserved(s, z) && 0 < size < Limit(s.zoneSize) then OpenReserved(s, z, size).0 else s
  }

  lemma ApplyKeeps(s: State, c: Call)
    requires Inv(s)
    ensures Inv(Apply(s, c))
  {
    match c
    case Get(size) => MallocKeeps(s, size);
    case Put(a) => if a in s.live { FreeKeeps(s, a); }
    case Reserve => ReserveKeeps(s);
    case Open(z, size) => if Reserved(s, z) && 0 < size < Limit(s.zoneSize) { OpenReservedKeeps(s, z, size); }
  }

  function Apps(s: State, cs: seq<Call>): State
    requires Inv(s)
    decreases |cs|
  {
    if cs == [] then s else
      ApplyKeeps(s, cs[0]);
      Apps(Apply(s, cs[0]), cs[1..])
  }

  lemma {:induction false} AppsKeep(s: State, cs: seq<Call>)
    requires Inv(s)
    ensures Inv(Apps(s, cs))
    decreases |cs|
  {
    if cs != [] {
      ApplyKeeps(s, cs[0]);
      AppsKeep(Apply(s, cs[0]), cs[1..]);
    }
  }

  lemma OpenStays(s: State, y: Page, index: nat, size: nat, z: Page)
    requires index < |s.lists| && size > 0 && Offset(size) <= s.zoneSize && Reserved(s, z) && y != z
    ensures Reserved(OpenZone(s, y, index, size).0, z)
  {
    hide Offset, ChunkCount;
  }

  lemma MallocStays(s: State, size: nat, z: Page)
    requires Inv(s) && Reserved(s, z)
    ensures Reserved(Malloc(s, size).0, z)
  {
    hide ChunkOf, Offset, ChunkCount, Canonical, Cells, Total, Range, Pages, Marked, OpenZone, ZoneOk;
    var n := if size >= Limit(s.zoneSize) then Up(size, PAGE) / PAGE else s.zoneSize / PAGE;
    if size >= Limit(s.zoneSize) { PagesUp(size); }
    var k := Fit(s.runs, n);
    if k < |s.runs| { TakenHeld(s.held, s.runs, k, n); }
    if 0 < size < Limit(s.zoneSize) {
      ZoneIndexIs(size);
      TwoChunks(s.zoneSize, size);
      var c := ZoneIndex(size);
      if s.lists[c.index] != [] {
        ListedHasFree(s, c.index);
      } else if s.spare != [] {
        assert s.spare[0] in s.spare && forall x :: x in s.spare[1..] ==> x in s.spare;
        OpenStays(s.(spare := s.spare[1..]), s.spare[0], c.index, c.chunk, z);
      } else if k < |s.runs| {
        OpenStays(TakePages(s, k, n).(usage := MarkZone(s.usage, s.runs[k].start, n)), s.runs[k].start, c.index, c.chunk, z);
      }
    }
  }

  lemma FreeStays(s: State, a: int, z: Page)
    requires Inv(s) && a in s.live && Reserved(s, z)
    ensures Reserved(Free(s, a), z)
  {
    hide ChunkOf, Offset, ChunkCount, Canonical, Cells, Used, Total, Range, Pages, Marked, ZoneOk, Freed, Unmark;
    FreeLive(s, a);
    HomeHeld(s, a);
  }

  lemma ApplyStays(s: State, c: Call, z: Page)
    requires Inv(s) && Reserved(s, z) && !(c.Open? && c.z == z)
    ensures Reserved(Apply(s, c), z)
  {
    hide Malloc, Free, OpenZone, Reserved, Canonical, Cells, Total, Range, Pages;
    match c
    case Get(size) => MallocStays(s, size, z);
    case Put(a) => if a in s.live { FreeStays(s, a, z); }
    case Reserve => ReserveStays(s, z);
    case Open(y, size) => if Reserved(s, y) && 0 < size < Limit(s.zoneSize) { OpenReservedStays(s, y, size, z); }
  }

  lemma ReserveStays(s: State, z: Page)
    requires Inv(s) && Reserved(s, z)
    ensures Reserved(ReserveZone(s).0, z)
  {
    ReserveKeeps(s);
    hide Inv;
  }

  lemma OpenReservedStays(s: State, y: Page, size: nat, z: Page)
    requires Inv(s) && Reserved(s, z) && y != z && 0 < size < Limit(s.zoneSize)
    ensures Reserved(OpenReserved(s, y, size).0, z)
  {
    ZoneIndexIs(size);
    TwoChunks(s.zoneSize, size);
    OpenStays(s.(usage := MarkZone(s.usage, y, s.zoneSize / PAGE)), y, ZoneIndex(size).index, ZoneIndex(size).chunk, z);
    hide OpenZone, Offset, ZoneIndex;
  }

  /** Whatever other calls come between the two steps, the pages stay reserved and the zone can be laid out on them. */
  lemma {:induction false} ReservedUntilOpened(s: State, cs: seq<Call>, z: Page)
    requires Inv(s) && Reserved(s, z) && forall i :: 0 <= i < |cs| ==> !(cs[i].Open? && cs[i].z == z)
    ensures Inv(Apps(s, cs)) && Reserved(Apps(s, cs), z)
    decreases |cs|
  {
    hide Apply, Reserved, Inv;
    if cs != [] {
      ApplyKeeps(s, cs[0]);
      assert !(cs[0].Open? && cs[0].z == z);
      ApplyStays(s, cs[0], z);
      ReservedUntilOpened(Apply(s, cs[0]), cs[1..], z);
    }
  }

  /** In every run: a zone's count of free chunks is that of its never-used ones and its free list, and the rest is in use; a
      zone is on the list of its chunk size exactly if it has a free chunk; at most two zones are spare; the bytes
      counted as used are those of the allocations; and allocations do not overlap. */
  lemma EveryHeapIsInOrder(s: State, cs: seq<Call>, z: Page, a: int, b: int)
    requires Inv(s)
    ensures var r := Apps(s, cs);
      && |r.spare| <= 2 && r.used == Total(r.live) <= r.max
      && (z in r.zone ==>
            var t := r.zone[z];
            && t.nfree == t.nmax - 1 - t.uindex + |t.chunks| && |Used(t)| == t.nmax - t.nfree
            && t.index < |r.lists| && (z in r.lists[t.index] <==> t.nfree > 0))
      && (a in r.live && b in r.live && a < b ==> a + r.live[a].bytes <= b)
  {
    AppsKeep(s, cs);
    var r := Apps(s, cs);
    if z in r.zone { AllFree(r.zoneSize, z, r.zone[z]); }
    if a in r.live && b in r.live && a < b { LiveApart(r, a, b); }
  }

  // ----- the heap itself -----

  // ----- a new heap -----

  /** rt_system_heap_init over `n` pages from page `start` on: all of them free but one in 1024, rounded up, at the front, which it
      keeps for memusage. */
  function NewHeap(start: nat, n: nat, zoneSize: nat): State {
    var m := Up(n * 4, PAGE) / PAGE;
    State(zoneSize, if m < n then [Run(start + m, n - m)] else [], map[], seq(NZONES, _ => []), [], map[], 0, 0, map[start as Page := m], map[])
  }

  lemma NewIsInOrder(s: State, start: nat, n: nat)
    requires s.runs == [Run(start, n)] && n > 0 && ZoneSize(s.zoneSize) && s.zone == map[] && s.spare == [] && s.held == map[] && s.live == map[]
    requires s.lists == seq(NZONES, _ => []) && s.used == s.max == 0
    ensures Inv(s)
  {
    assert [Run(start, n)][1..] == [];
    assert forall a :: a !in s.live;
    assert Total(s.live) == 0;
  }

  lemma NewHeapInOrder(start: nat, n: nat, zoneSize: nat)
    requires n > 0 && ZoneSize(zoneSize)
    ensures Inv(NewHeap(start, n, zoneSize))
  {
    var m := Up(n * 4, PAGE) / PAGE;
    var s := State(zoneSize, [Run(start, n)], map[], seq(NZONES, _ => []), [], map[], 0, 0, map[], map[]);
    PagesUp(n * 4);
    NewIsInOrder(s, start, n);
    TakePagesKeeps(s, 0, m, s.usage);
    assert TakePages(s, 0, m) == NewHeap(start, n, zoneSize) by { hide Inv; }
  }

  /** The input for which a chunk is not aligned to its size although that is a power of two: the first 8 KiB from a new heap of up to
      1024 pages that begins with an even page. */
  lemma BigChunkMisaligned(start: nat, n: nat, zoneSize: nat)
    requires 9 <= n <= 1024 && start % 2 == 0 && ZoneSizeIs(zoneSize, n * PAGE)
    ensures var s := NewHeap(start, n, zoneSize);
      Inv(s) && var (r, a) := Malloc(s, 8000);
      Apps(s, [Get(8000)]) == r && a in r.live && r.live[a].bytes == 8192 && PowerOfTwo(8192) && a % 8192 == 4096
  {
    hide PowerOfTwo, Inv, Malloc;
    assert zoneSize == 0x8000;
    var s := NewHeap(start, n, zoneSize);
    NewHeapInOrder(start, n, zoneSize);
    assert Up(n * 4, PAGE) == 4096;
    FirstEightKilobytes(s, start + 1, n - 1);
    ApplyKeeps(s, Get(8000));
    assert [Get(8000)][1..] == [];
    assert Apps(Apply(s, Get(8000)), []) == Apply(s, Get(8000));
  }

  lemma FirstEightKilobytes(s: State, p: nat, n: nat)
    requires Inv(s) && s.zoneSize == 0x8000 && s.lists == seq(NZONES, _ => []) && s.spare == [] && s.runs == [Run(p, n)] && n >= 8 && p % 2 == 1
    ensures var (r, a) := Malloc(s, 8000); a in r.live && r.live[a].bytes == 8192 && PowerOfTwo(8192) && a % 8192 == 4096
  {
    hide PowerOfTwo, Offset, ZoneIndex, OpenZone, ChunkCount, ChunkOf, MarkZone, Cut;
    EightKilobytes();
    assert Fit(s.runs, 8) == 0;
    var t := TakePages(s, 0, 8).(usage := MarkZone(s.usage, p, 8));
    OpenedAt(t, p, 63, 8192);
    assert Malloc(s, 8000) == OpenZone(t, p, 63, 8192);
    assert p * PAGE + 8192 == 8192 * (p / 2 + 1) + 4096;
  }

  lemma EightKilobytes()
    ensures ZoneIndex(8000) == Class(63, 8192) && PowerOfTwo(8192) && Offset(8192) == 8192
  {
    hide PowerOfTwo;
    EightIsPower();
  }

  lemma EightIsPower()
    ensures PowerOfTwo(8192)
  {
    PowerOfTwoIff(8192);
    hide PowerOfTwo;
    var k: nat := 13;
    assert Pow2(k) == 8192 by { assert Pow2(4) == 16; assert Pow2(8) == 256; assert Pow2(12) == 4096; }
  }

  lemma OpenedAt(s: State, z: Page, index: nat, size: nat)
    requires index < |s.lists| && size > 0 && Offset(size) <= s.zoneSize
    ensures var (r, a) := OpenZone(s, z, index, size); a == z * PAGE + Offset(size) && a in r.live && r.live[a].bytes == size
  {
  }

  /** The static variables of src/slab.c: the zones with their headers, zone_array, zone_free and memusage. */
  class SlabHeap {
    const zoneSize: nat
    const pages: PageHeap
    var zone: map<Page, Zone>
    var lists: seq<seq<Page>>
    var spare: seq<Page>
    var spareCount: nat
    var usage: map<Page, Usage>
    var used: int
    var max: int
    ghost var held: map<Page, nat>
    ghost var live: map<int, Grant>

    ghost function View(): State
      reads this, pages
    {
      State(zoneSize, pages.runs, zone, lists, spare, usage, used, max, held, live)
    }

    ghost predicate Valid()
      reads this, pages
    {
      Inv(View()) && pages.Valid() && spareCount == |spare|
    }

    /** rt_system_heap_init over `n` pages from page `start` on, of which it keeps one in 1024, rounded up, for memusage. */
    constructor (start: nat, n: nat)
      requires n > 0
      ensures Valid() && fresh(pages) && View() == NewHeap(start, n, zoneSize) && ZoneSizeIs(zoneSize, n * PAGE)
    {
      var size := ZoneSizeFor(n * PAGE);
      zoneSize := size;
      pages := new PageHeap(start, n);
      zone, lists, spare, spareCount, usage := map[], seq(NZONES, _ => []), [], 0, map[];
      used, max, live, held := 0, 0, map[], map[];
      new;
      NewIsInOrder(View(), start, n);
      PagesUp(n * 4);
      ghost var s := View();
      var m := Cut(Up(n * 4, PAGE) / PAGE);
      if m != NULL { TakePagesKeeps(s, Fit(s.runs, Up(n * 4, PAGE) / PAGE), Up(n * 4, PAGE) / PAGE, s.usage); }
    }

    /** The statistics of an allocation. */
    method Count(bytes: nat)
      modifies this`used, this`max
      ensures used == old(used) + bytes && max == if used > old(max) then used else old(max)
    {
      used := used + bytes;
      if used > max { max := used; }
    }

    /** Records for every page of a new zone how far it is to the first one. */
    method MarkPages(z: Page)
      modifies this`usage
      ensures usage == MarkZone(old(usage), z, zoneSize / PAGE)
    {
      var off: nat := 0;
      while off < zoneSize / PAGE
        invariant off <= zoneSize / PAGE && usage == MarkZone(old(usage), z, off)
      {
        usage := usage[z + off := Small(off)];
        off := off + 1;
      }
    }

    method UnmarkPages(z: Page)
      modifies this`usage
      ensures usage == Unmark(old(usage), z, zoneSize / PAGE)
    {
      var i: nat := 0;
      while i < zoneSize / PAGE
        invariant i <= zoneSize / PAGE && usage == Unmark(old(usage), z, i)
      {
        usage := usage[z + i := FreePage];
        i := i + 1;
      }
    }

    /** A chunk from the first zone on its list. */
    method Take(z: Page) returns (chunk: int)
      requires z in zone && zone[z].index < |lists| && lists[zone[z].index] != [] && lists[zone[z].index][0] == z
      requires zone[z].uindex + 1 == zone[z].nmax ==> zone[z].chunks != []
      modifies this
      ensures (View(), chunk) == TakeChunk(old(View()), z) && spareCount == old(spareCount)
    {
      var r := zone[z];
      r := r.(nfree := r.nfree - 1);
      if r.nfree == 0 {
        lists := lists[r.index := lists[r.index][1..]];
      }
      if r.uindex + 1 != r.nmax {
        r := r.(uindex := r.uindex + 1);
        chunk := r.base + r.uindex * r.size;
      } else {
        chunk := r.chunks[0];
        r := r.(chunks := r.chunks[1..]);
      }
      zone := zone[z := r];
      live := live[chunk := InZone(z, r.size)];
      Count(r.size);
    }

    /** Lays out the zone at `z` and takes its first chunk. */
    method Open(z: Page, index: nat, size: nat) returns (chunk: int)
      requires index < |lists| && size > 0 && Offset(size) <= zoneSize
      modifies this
      ensures (View(), chunk) == OpenZone(old(View()), z, index, size) && spareCount == old(spareCount)
    {
      hide Offset;
      var off := Offset(size);
      var nmax := (zoneSize - off) / size;
      chunk := z * PAGE + off;
      zone := zone[z := Zone(nmax - 1, nmax, chunk, 0, size, index, [])];
      lists := lists[index := [z] + lists[index]];
      live := live[chunk := InZone(z, size)];
      Count(size);
    }

    /** Pages cut from the free list. */
    method Cut(n: nat) returns (p: Page)
      requires pages.Valid() && n > 0
      modifies this`held, pages
      ensures pages.Valid() && if Fit(old(pages.runs), n) == |old(pages.runs)| then p == NULL && View() == old(View())
              else p == old(pages.runs)[Fit(old(pages.runs), n)].start && View() == TakePages(old(View()), Fit(old(pages.runs), n), n)
    {
      ghost var k := Fit(pages.runs, n);
      assert k < |pages.runs| ==> Header(pages.next, pages.page, pages.runs, k);
      p := pages.Alloc(n);
      if p != NULL { held := held[p := n]; }
    }

    method MallocPages(size: nat) returns (chunk: int)
      requires Valid() && size > 0
      modifies this, pages
      ensures pages.Valid() && spareCount == |spare| && (View(), chunk) == MallocLarge(old(View()), size)
    {
      PagesUp(size);
      NothingIsNoPage(View(), Up(size, PAGE) / PAGE);
      var n := Up(size, PAGE) / PAGE;
      var p := Cut(n);
      if p == NULL { return NOTHING; }
      usage := usage[p := Large(n)];
      chunk := p * PAGE;
      live := live[chunk := Own(p, n * PAGE)];
      Count(Up(size, PAGE));
    }

    /** The two steps of a call that needs a new zone, when other calls may come in between. */
    method ReservePages() returns (z: Page)
      requires Valid()
      modifies this`held, pages
      ensures Valid() && (View(), z) == ReserveZone(old(View()))
    {
      ReserveKeeps(View());
      z := Cut(zoneSize / PAGE);
    }

    method OpenPages(z: Page, size: nat) returns (chunk: int)
      requires Valid() && Reserved(View(), z) && 0 < size < Limit(zoneSize)
      modifies this
      ensures Valid() && (View(), chunk) == OpenReserved(old(View()), z, size)
    {
      OpenReservedKeeps(View(), z, size);
      ZoneIndexIs(size);
      TwoChunks(zoneSize, size);
      var c := ZoneIndex(size);
      MarkPages(z);
      chunk := Open(z, c.index, c.chunk);
    }

    /** A chunk of a zone that the page allocator provides. */
    method NewZone(index: nat, size: nat) returns (chunk: int)
      requires pages.Valid() && index < |lists| && size > 0 && Offset(size) <= zoneSize && PAGE <= zoneSize && spareCount == |spare|
      requires !NoPages(View(), zoneSize / PAGE) ==> pages.runs[Fit(pages.runs, zoneSize / PAGE)].start >= 0
      modifies this, pages
      ensures pages.Valid() && spareCount == |spare|
      ensures var n, s := zoneSize / PAGE, old(View());
        if NoPages(s, n) then View() == s && chunk == NOTHING
        else var z := s.runs[Fit(s.runs, n)].start;
          (View(), chunk) == OpenZone(TakePages(s, Fit(s.runs, n), n).(usage := MarkZone(s.usage, z, n)), z, index, size)
    {
      var z := Cut(zoneSize / PAGE);
      if z == NULL { return NOTHING; }
      MarkPages(z);
      chunk := Open(z, index, size);
    }

    method MallocChunk(size: nat) returns (chunk: int)
      requires Valid() && 0 < size < Limit(zoneSize)
      modifies this, pages
      ensures pages.Valid() && spareCount == |spare| && (View(), chunk) == MallocSmall(old(View()), size)
    {
      ZoneIndexIs(size);
      TwoChunks(zoneSize, size);
      var c := ZoneIndex(size);
      if lists[c.index] != [] {
        ListedHasFree(View(), c.index);
        chunk := Take(lists[c.index][0]);
      } else if spare != [] {
        var z := spare[0];
        spare, spareCount := spare[1..], spareCount - 1;
        chunk := Open(z, c.index, c.chunk);
      } else {
        NothingIsNoPage(View(), zoneSize / PAGE);
        chunk := NewZone(c.index, c.chunk);
      }
    }

    /** rt_malloc. */
    method Allocate(size: nat) returns (chunk: int)
      requires Valid()
      modifies this, pages
      ensures Valid() && (View(), chunk) == Malloc(old(View()), size)
    {
      MallocKeeps(View(), size);
      if size == 0 { return NOTHING; }
      if size >= Limit(zoneSize) {
        chunk := MallocPages(size);
      } else {
        chunk := MallocChunk(size);
      }
    }

    /** Returns pages to the free list. */
    method Restore(p: Page, n: nat)
      requires pages.Valid() && p in held && held[p] == n > 0 && p >= 0 && Range(p, n) !! Pages(pages.runs)
      modifies this`held, pages
      ensures pages.Valid() && View() == GivePages(old(View()), p)
    {
      pages.Free(p, n);
      held := held - {p};
    }

    method FreePages(ptr: int, ghost p: Page)
      requires Valid() && ptr in live && live[ptr] == Own(p, live[ptr].bytes) && p == ptr / PAGE && p in usage && p in held && usage[p] == Large(held[p])
      modifies this, pages
      ensures pages.Valid() && spareCount == |spare| && View() == FreeLarge(old(View()), ptr)
    {
      var size := usage[ptr / PAGE].pages;
      usage := usage[ptr / PAGE := Large(0)];
      used := used - size * PAGE;
      live := live - {ptr};
      Restore(ptr / PAGE, size);
    }

    method PutBack(z: Page, ptr: int)
      requires z in zone && zone[z].index < |lists|
      modifies this
      ensures View() == PutChunk(old(View()), z, ptr) && spareCount == old(spareCount) && spare == old(spare)
    {
      var r := zone[z];
      used := used - r.size;
      if r.nfree == 0 {
        lists := lists[r.index := [z] + lists[r.index]];
      }
      zone := zone[z := r.(nfree := r.nfree + 1, chunks := [ptr] + r.chunks)];
      live := live - {ptr};
    }

    /** Takes zone `z` off its list: a walk along the links. */
    method Unlink(i: nat, z: Page)
      requires i < |lists| && Distinct(lists[i])
      modifies this`lists
      ensures lists == old(lists)[i := Without(old(lists)[i], z)]
    {
      var k := 0;
      while k < |lists[i]| && lists[i][k] != z
        invariant k <= |lists[i]| && lists == old(lists) && z !in lists[i][..k]
        decreases |lists[i]| - k
      {
        assert lists[i][..k + 1] == lists[i][..k] + [lists[i][k]];
        k := k + 1;
      }
      if k < |lists[i]| {
        WithoutAt(lists[i], k);
        lists := lists[i := lists[i][..k] + lists[i][k + 1..]];
      } else {
        WithoutAbsent(lists[i], z);
        assert lists[i := lists[i]] == lists;
      }
    }

    /** What happens to a zone whose chunks have all come back. */
    method RetireZone(z: Page)
      requires Valid() && z in zone
      modifies this, pages
      ensures pages.Valid() && spareCount == |spare| && View() == Retire(old(View()), z)
    {
      var r := zone[z];
      if r.nfree == r.nmax && lists[r.index] != [z] {
        Unlink(r.index, z);
        zone := zone - {z};
        if spareCount + 1 > 2 {
          UnmarkPages(z);
          Restore(z, zoneSize / PAGE);
        } else {
          spare, spareCount := [z] + spare, spareCount + 1;
        }
      }
    }

    /** rt_free of a zone's chunk. */
    method FreeChunk(ptr: int, z: Page)
      requires Valid() && z in zone && ptr in Used(zone[z])
      modifies this, pages
      ensures pages.Valid() && spareCount == |spare| && View() == Retire(PutChunk(old(View()), z, ptr), z)
    {
      PutKeeps(View(), z, ptr);
      PutBack(z, ptr);
      RetireZone(z);
    }

    /** rt_free of something that was allocated: the record of its page leads to its zone. */
    method Release(ptr: int)
      requires Valid() && ptr in live
      modifies this, pages
      ensures Valid() && View() == Free(old(View()), ptr)
    {
      hide ChunkOf, Offset, ChunkCount, Canonical, Total, ListsOk, Range, Pages, Marked, Used, Retire, PutChunk, FreeLarge;
      FreeKeeps(View(), ptr);
      RecordFinds(View(), ptr);
      assert Granted(View(), ptr);
      match usage[ptr / PAGE]
      case Large(_) => FreePages(ptr, ptr / PAGE);
      case Small(offset) => FreeChunk(ptr, ptr / PAGE - offset);
    }
  }

}
