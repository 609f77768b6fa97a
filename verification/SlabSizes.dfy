/** Chunk sizes and zone layout of the slab allocator (src/slab.c). */
module SlabSizes {
  import opened Basics

  const PAGE := 4096
  const NZONES := 72
  /** sizeof(slab_zone): nine words. */
  const ZONE_HDR := 36

  /** What zoneindex returns and what it leaves in `*bytes`. */
  datatype Class = Class(index: int, chunk: nat)

  /** `(n + m - 1) & ~(m - 1)` for a power of two `m`. */
  function Up(n: nat, m: nat): (r: nat)
    requires m > 0
    ensures n <= r < n + m
  {
    (n + m - 1) / m * m
  }

  /** zoneindex. A request it does not expect is left as it is. */
  function ZoneIndex(n: nat): Class {
    if n < 128 then Class(Up(n, 8) / 8 - 1, Up(n, 8))
    else if n < 256 then Class(Up(n, 16) / 16 + 7, Up(n, 16))
    else if n < 8192 then
      if n < 512 then Class(Up(n, 32) / 32 + 15, Up(n, 32))
      else if n < 1024 then Class(Up(n, 64) / 64 + 23, Up(n, 64))
      else if n < 2048 then Class(Up(n, 128) / 128 + 31, Up(n, 128))
      else if n < 4096 then Class(Up(n, 256) / 256 + 39, Up(n, 256))
      else Class(Up(n, 512) / 512 + 47, Up(n, 512))
    else if n < 16384 then Class(Up(n, 1024) / 1024 + 55, Up(n, 1024))
    else Class(0, n)
  }

  /** The chunk size of each of the zones: eight steps of every power of two. */
  function ChunkOf(i: nat): nat
    requires i < NZONES
  {
    if i < 16 then (i + 1) * 8
    else if i < 24 then (i - 7) * 16
    else if i < 32 then (i - 15) * 32
    else if i < 40 then (i - 23) * 64
    else if i < 48 then (i - 31) * 128
    else if i < 56 then (i - 39) * 256
    else if i < 64 then (i - 47) * 512
    else (i - 55) * 1024
  }

  /** From `8 * m` to `16 * m` chunks grow in steps of `m`. */
  lemma StepIs(n: nat, m: nat) returns (q: nat)
    requires m in {16, 32, 64, 128, 256, 512, 1024} && 8 * m <= n < 16 * m
    ensures 8 <= q <= 16 && Up(n, m) == q * m && Up(n, m) / m == q && n <= q * m < n + m
  {
    q := Up(n, m) / m;
    if m == 16 {
      assert Up(n, 16) % 16 == 0;
    } else if m == 32 {
      assert Up(n, 32) % 32 == 0;
    } else if m == 64 {
      assert Up(n, 64) % 64 == 0;
    } else if m == 128 {
      assert Up(n, 128) % 128 == 0;
    } else if m == 256 {
      assert Up(n, 256) % 256 == 0;
    } else if m == 512 {
      assert Up(n, 512) % 512 == 0;
    } else {
      assert Up(n, 1024) % 1024 == 0;
    }
  }

  /** Every request below 16 KiB gets a zone of its own chunk size, which is large enough and wastes less than an eighth (or
      less than 8 bytes). */
  lemma ZoneIndexIs(n: nat)
    requires 0 < n < 16384
    ensures var c := ZoneIndex(n);
      && 0 <= c.index < NZONES && c.chunk == ChunkOf(c.index) && n <= c.chunk && (c.chunk - n < 8 || 8 * (c.chunk - n) < n)
      && c.chunk % 8 == 0 && (n <= 8192 ==> c.chunk <= 8192) && c.chunk <= 16384
  {
    if n >= 128 {
      var m := if n < 256 then 16 else if n < 512 then 32 else if n < 1024 then 64 else if n < 2048 then 128
               else if n < 4096 then 256 else if n < 8192 then 512 else 1024;
      var q := StepIs(n, m);
    }
  }

  lemma ZoneIndexOfChunk(i: nat)
    requires i < NZONES
    ensures ChunkOf(i) < 16384 ==> ZoneIndex(ChunkOf(i)) == Class(i, ChunkOf(i))
  {
    hide Up;
    var n := ChunkOf(i);
    if i < 16 { UpExact(n, 8); }
    if 16 <= i < 24 { UpExact(n, 16); }
    if 24 <= i < 32 { UpExact(n, 32); }
    if 32 <= i < 40 { UpExact(n, 64); }
    if 40 <= i < 48 { UpExact(n, 128); }
    if 48 <= i < 56 { UpExact(n, 256); }
    if 56 <= i < 64 { UpExact(n, 512); }
    if 64 <= i { UpExact(n, 1024); }
    if i == 15 { UpExact(n, 16); }
    if i == 23 { UpExact(n, 32); }
    if i == 31 { UpExact(n, 64); }
    if i == 39 { UpExact(n, 128); }
    if i == 47 { UpExact(n, 256); }
    if i == 55 { UpExact(n, 512); }
    if i == 63 { UpExact(n, 1024); }
  }

  lemma UpExact(n: nat, m: nat)
    requires m in {8, 16, 32, 64, 128, 256, 512, 1024} && n % m == 0
    ensures Up(n, m) == n
  {
    if m == 8 {
    } else if m == 16 {
    } else if m == 32 {
    } else if m == 64 {
    } else if m == 128 {
    } else if m == 256 {
    } else if m == 512 {
    } else {
    }
  }

  /** Larger zones have larger chunks, so the zone index determines the chunk size and vice versa. */
  lemma ChunkGrows(i: nat, j: nat)
    requires i < j < NZONES
    ensures ChunkOf(i) < ChunkOf(j)
  {
  }

  /** Larger requests get larger chunks. */
  lemma ZoneIndexGrows(m: nat, n: nat)
    requires 0 < m <= n < 16384
    ensures ZoneIndex(m).index <= ZoneIndex(n).index && ZoneIndex(m).chunk <= ZoneIndex(n).chunk
  {
    ZoneIndexIs(m);
    ZoneIndexIs(n);
    var i, j := ZoneIndex(m).index, ZoneIndex(n).index;
    if j < i {
      ChunkGrows(j, i);
      Tight(m, j);
    }
    if i < j { ChunkGrows(i, j); }
  }

  /** A zone with smaller chunks would not do. */
  lemma Tight(n: nat, j: nat)
    requires 0 < n < 16384 && j < NZONES && j < ZoneIndex(n).index
    ensures ChunkOf(j) < n
  {
    ZoneIndexIs(n);
    var i := ZoneIndex(n).index;
    if j < i - 1 { ChunkGrows(j, i - 1); }
    if n >= 128 {
      var m := if n < 256 then 16 else if n < 512 then 32 else if n < 1024 then 64 else if n < 2048 then 128
               else if n < 4096 then 256 else if n < 8192 then 512 else 1024;
      var q := StepIs(n, m);
    }
  }

  /** The zone size for a heap of `limsize` bytes: 32 KiB, or the largest of 64 and 128 KiB that is less than a 1024th of it. */
  method ZoneSizeFor(limsize: nat) returns (zoneSize: nat)
    ensures ZoneSizeIs(zoneSize, limsize)
  {
    zoneSize := 0x8000;
    while zoneSize < 0x2_0000 && zoneSize * 2 < limsize / 1024
      invariant ZoneSize(zoneSize) && (zoneSize > 0x8000 ==> zoneSize < limsize / 1024)
      decreases 0x2_0000 - zoneSize
    {
      zoneSize := zoneSize * 2;
    }
  }

  /** The zone size for a heap of `limsize` bytes. */
  predicate ZoneSizeIs(zoneSize: nat, limsize: nat) {
    && ZoneSize(zoneSize)
    && (zoneSize > 0x8000 ==> 1024 * zoneSize < limsize / 1024 * 1024)
    && (zoneSize < 0x2_0000 ==> 2 * zoneSize >= limsize / 1024)
  }

  predicate ZoneSize(s: nat) {
    s == 0x8000 || s == 0x1_0000 || s == 0x2_0000
  }

  /** zone_limit: requests from this size on get pages of their own. */
  function Limit(zoneSize: nat): nat {
    if zoneSize / 4 > 16384 then 16384 else zoneSize / 4
  }

  /** Bitwise or. */
  function BitOr(a: nat, b: nat): nat {
    if a == 0 then b else if b == 0 then a
    else 2 * BitOr(a / 2, b / 2) + (if a % 2 == 1 || b % 2 == 1 then 1 else 0)
  }

  /** The test of rt_malloc: `(size | (size - 1)) + 1 == (size << 1)`. */
  predicate PowerOfTwo(size: nat)
    requires size > 0
  {
    BitOr(size, size - 1) + 1 == 2 * size
  }

  lemma {:induction false} OrSelf(n: nat)
    ensures BitOr(n, n) == n
  {
    if n > 0 { OrSelf(n / 2); }
  }

  /** The test is that for a power of two. */
  lemma {:induction false} PowerOfTwoIff(size: nat)
    requires size > 0
    ensures PowerOfTwo(size) <==> exists k: nat :: size == Pow2(k)
  {
    if size == 1 {
      assert BitOr(1, 0) == 1 && size == Pow2(0);
    } else if size % 2 == 1 {
      OddIsNone(size);
    } else {
      var m := size / 2;
      assert size == 2 * m;
      PowerOfTwoIff(m);
      HalfOr(m);
      assert PowerOfTwo(size) <==> PowerOfTwo(m);
      if k: nat :| m == Pow2(k) { assert size == Pow2(k + 1); }
      if k: nat :| size == Pow2(k) { assert k > 0 && m == Pow2(k - 1); }
    }
  }

  lemma OddIsNone(size: nat)
    requires size > 1 && size % 2 == 1
    ensures !PowerOfTwo(size) && !exists k: nat :: size == Pow2(k)
  {
    OrSelf(size / 2);
    assert (size - 1) / 2 == size / 2 && BitOr(size, size - 1) == 2 * BitOr(size / 2, size / 2) + 1;
    forall k: nat ensures size != Pow2(k) {
      if k > 0 { assert Pow2(k) == 2 * Pow2(k - 1); }
    }
  }

  lemma HalfOr(m: nat)
    requires m > 0
    ensures BitOr(2 * m, 2 * m - 1) == 2 * BitOr(m, m - 1) + 1
  {
    assert (2 * m) / 2 == m && (2 * m - 1) / 2 == m - 1 && (2 * m - 1) % 2 == 1;
  }

  /** A power of two divides every larger one. */
  lemma {:induction false} PowersDivide(i: nat, j: nat) returns (q: nat)
    requires i <= j
    ensures Pow2(j) == q * Pow2(i)
  {
    if i == j {
      q := 1;
    } else {
      var r := PowersDivide(i, j - 1);
      q := 2 * r;
      assert 2 * (r * Pow2(i)) == q * Pow2(i);
    }
  }

  lemma {:induction false} PowersGrow(i: nat, j: nat)
    requires i < j
    ensures Pow2(i) < Pow2(j)
  {
    if i < j - 1 { PowersGrow(i, j - 1); }
  }

  /** A page is a multiple of every power of two that does not exceed it. */
  lemma DividesPage(size: nat) returns (q: nat)
    requires 0 < size <= PAGE && PowerOfTwo(size)
    ensures PAGE == q * size
  {
    PowerOfTwoIff(size);
    var k: nat :| size == Pow2(k);
    assert PAGE == Pow2(12) by { assert Pow2(4) == 16; assert Pow2(8) == 256; }
    if k > 12 { PowersGrow(12, k); }
    q := PowersDivide(k, 12);
  }

  /** Where the chunks of a zone begin. */
  function Offset(size: nat): (off: nat)
    requires size > 0
    ensures ZONE_HDR <= off
  {
    if PowerOfTwo(size) then Up(ZONE_HDR, size) else Up(ZONE_HDR, 8)
  }

  function ChunkCount(zoneSize: nat, size: nat): nat
    requires size > 0 && Offset(size) <= zoneSize
  {
    (zoneSize - Offset(size)) / size
  }

  lemma MulLe(a: nat, b: nat, m: nat)
    requires a <= b
    ensures a * m <= b * m
  {
  }

  lemma DivBound(x: nat, m: nat, k: nat)
    requires m > 0 && k * m <= x
    ensures x / m >= k && x / m * m <= x
  {
    var q := x / m;
    assert x == q * m + x % m;
    if q < k { MulLe(q + 1, k, m); }
  }

  lemma OffsetIs(size: nat)
    requires 0 < size <= 16384 && size % 8 == 0
    ensures PowerOfTwo(size) ==> exists q :: Offset(size) == q * size
    ensures Offset(size) <= size || Offset(size) <= 64
    ensures Offset(size) % 8 == 0
  {
    hide BitOr, PowerOfTwo;
    var q := (ZONE_HDR + size - 1) / size;
    assert Up(ZONE_HDR, size) == q * size;
    if size >= ZONE_HDR {
      OneStep(size);
    } else {
      assert size in {8, 16, 24, 32};
    }
  }

  lemma OneStep(size: nat)
    requires size >= ZONE_HDR
    ensures (ZONE_HDR + size - 1) / size == 1
  {
  }

  /** Every zone has room for at least two chunks, so there is one left when its first chunk has been handed out. */
  lemma TwoChunks(zoneSize: nat, n: nat)
    requires ZoneSize(zoneSize) && 0 < n < Limit(zoneSize)
    ensures var size := ZoneIndex(n).chunk;
      && n <= size && Offset(size) <= zoneSize && ChunkCount(zoneSize, size) >= 2
      && Offset(size) + ChunkCount(zoneSize, size) * size <= zoneSize
      && Offset(size) % 8 == 0 && size % 8 == 0 && (PowerOfTwo(size) ==> exists q :: Offset(size) == q * size)
  {
    ZoneIndexIs(n);
    var size := ZoneIndex(n).chunk;
    OffsetIs(size);
    assert size <= zoneSize / 4;
    DivBound(zoneSize - Offset(size), size, 2);
  }
}
