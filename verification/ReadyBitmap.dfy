/** The bitmap of ready priorities (src/scheduler.c) and the table-driven search for its least set bit
    (src/kservice.c). A word is the number it stands for. */
module ReadyBitmap {
  import opened Basics

  const WORDS := 0x1_0000_0000

  predicate Bit(w: nat, i: nat) {
    if i == 0 then w % 2 == 1 else Bit(w / 2, i - 1)
  }

  /** `w | 1 << i` */
  function SetBit(w: nat, i: nat): nat {
    if i == 0 then w / 2 * 2 + 1 else SetBit(w / 2, i - 1) * 2 + w % 2
  }

  /** `w & ~(1 << i)` */
  function ClearBit(w: nat, i: nat): nat {
    if i == 0 then w / 2 * 2 else ClearBit(w / 2, i - 1) * 2 + w % 2
  }

  lemma {:induction false} SetBitIs(w: nat, i: nat, j: nat)
    ensures Bit(SetBit(w, i), j) <==> j == i || Bit(w, j)
  {
    if i > 0 && j > 0 { SetBitIs(w / 2, i - 1, j - 1); }
  }

  lemma {:induction false} ClearBitIs(w: nat, i: nat, j: nat)
    ensures Bit(ClearBit(w, i), j) <==> j != i && Bit(w, j)
  {
    if i > 0 && j > 0 { ClearBitIs(w / 2, i - 1, j - 1); }
  }

  lemma {:induction false} BitsBound(w: nat, i: nat, n: nat)
    requires w < Pow2(n) && i < n
    ensures SetBit(w, i) < Pow2(n) && ClearBit(w, i) <= w
  {
    if i > 0 { BitsBound(w / 2, i - 1, n - 1); }
  }

  lemma {:induction false} NoBitAbove(w: nat, i: nat, n: nat)
    requires w < Pow2(n) && n <= i
    ensures !Bit(w, i)
  {
    if n > 0 { NoBitAbove(w / 2, i - 1, n - 1); } else { ZeroBit(i); }
  }

  lemma {:induction false} ZeroBit(i: nat)
    ensures !Bit(0, i)
  {
    if i > 0 { ZeroBit(i - 1); }
  }

  // ----- the least set bit -----

  function Lowest(w: nat): (i: nat)
    requires w > 0
    ensures Bit(w, i)
  {
    if w % 2 == 1 then 0 else 1 + Lowest(w / 2)
  }

  lemma {:induction false} LowestIsLeast(w: nat, i: nat)
    requires Bit(w, i)
    ensures w > 0 && Lowest(w) <= i
  {
    if w == 0 { ZeroBit(i); }
    if i > 0 { LowestIsLeast(w / 2, i - 1); }
  }

  /** One row of `__lowest_bit_bitmap`; the rows differ in their first entry only. */
  function Row(first: nat): (r: seq<nat>)
    ensures |r| == 16
  {
    [first, 0, 1, 0, 2, 0, 1, 0, 3, 0, 1, 0, 2, 0, 1, 0]
  }

  /** The first entries, for the rows 00, 10, ... F0. */
  const COLUMN: seq<nat> := [0, 4, 5, 4, 6, 4, 5, 4, 7, 4, 5, 4, 6, 4, 5, 4]

  /** `__lowest_bit_bitmap[v]` */
  function LowestBitBitmap(v: nat): nat
    requires v < 0x100
  {
    Row(COLUMN[v / 16])[v % 16]
  }

  lemma NibbleIs(c: nat)
    requires 0 < c < 16
    ensures Row(0)[c] == Lowest(c)
  {
    if c % 2 == 0 {
      var d := c / 2;
      if d % 2 == 0 {
        var e := d / 2;
        assert e % 2 == 1 || e == 2;
        assert c == 4 || c == 8 || c == 12;
        assert Lowest(1) == 0 && Lowest(2) == 1 && Lowest(3) == 0;
      }
    }
  }

  lemma ColumnIs(r: nat)
    requires 0 < r < 16
    ensures COLUMN[r] == 4 + Lowest(r)
  {
    NibbleIs(r);
    assert forall i :: 0 < i < 16 ==> COLUMN[i] == 4 + Row(0)[i];
  }

  /** Halving four times. */
  lemma SixteenTimes(w: nat)
    requires w > 0 && w % 16 == 0
    ensures w / 16 > 0 && Lowest(w) == 4 + Lowest(w / 16)
  {
    var a := w / 2;
    var b := a / 2;
    var c := b / 2;
    assert w % 2 == 0 && a % 2 == 0 && b % 2 == 0 && c % 2 == 0;
    assert Lowest(w) == 1 + Lowest(a) && Lowest(a) == 1 + Lowest(b) && Lowest(b) == 1 + Lowest(c) && Lowest(c) == 1 + Lowest(c / 2);
    assert c / 2 == w / 16;
  }

  /** `m` is 2, 4 or 8. */
  lemma Halved(w: nat, m: nat)
    requires m == 2 || m == 4 || m == 8
    ensures w % (2 * m) / 2 == w / 2 % m && w % (2 * m) % 2 == w % 2
  {
    if m == 2 {
      HalvedWith(w, 4, w / 4, w % 4);
    } else if m == 4 {
      HalvedWith(w, 8, w / 8, w % 8);
    } else {
      HalvedWith(w, 16, w / 16, w % 16);
    }
  }

  lemma HalvedWith(w: nat, n: nat, q: nat, r: nat)
    requires n == 4 || n == 8 || n == 16
    requires r < n && (n == 4 ==> w == 4 * q + r) && (n == 8 ==> w == 8 * q + r) && (n == 16 ==> w == 16 * q + r)
    ensures w / 2 % (n / 2) == r / 2 && w % 2 == r % 2
  {
    var h := r / 2;
    if n == 4 {
      assert w / 2 == 2 * q + h;
    } else if n == 8 {
      assert w / 2 == 4 * q + h;
    } else {
      assert w / 2 == 8 * q + h;
    }
  }

  lemma LowBits(w: nat, m: nat)
    requires (m == 2 || m == 4 || m == 8) && w % (2 * m) != 0
    ensures Lowest(w) == Lowest(w % (2 * m))
  {
    Halved(w, m);
    if w % 2 == 0 && m > 2 { LowBits(w / 2, m / 2); }
  }

  lemma LowNibble(w: nat)
    requires w % 16 != 0
    ensures Lowest(w) == Lowest(w % 16)
  {
    LowBits(w, 8);
  }

  /** The table holds the least set bit of every byte. */
  lemma TableIs(v: nat)
    requires 0 < v < 0x100
    ensures LowestBitBitmap(v) == Lowest(v)
  {
    if v % 16 != 0 {
      LowNibble(v);
      NibbleIs(v % 16);
    } else {
      SixteenTimes(v);
      ColumnIs(v / 16);
    }
  }

  lemma Nibbles(w: nat, v: nat)
    requires v == w % 0x100
    ensures v % 16 == w % 16 && (w / 16) % 16 == v / 16
  {
    var q, a, b := w / 0x100, v / 16, v % 16;
    assert w == 16 * (16 * q + a) + b;
    assert w / 16 == 16 * q + a;
  }

  lemma LowByte(w: nat)
    requires w % 0x100 != 0
    ensures Lowest(w) == Lowest(w % 0x100)
  {
    var v := w % 0x100;
    hide Lowest;
    Nibbles(w, v);
    if w % 16 != 0 {
      LowNibble(w);
      LowNibble(v);
    } else {
      SixteenTimes(w);
      SixteenTimes(v);
      LowNibble(w / 16);
    }
  }

  lemma ByteUp(w: nat)
    requires w > 0 && w % 0x100 == 0
    ensures w / 0x100 > 0 && Lowest(w) == 8 + Lowest(w / 0x100)
  {
    SixteenTimes(w);
    hide Lowest;
    assert w / 16 / 16 == w / 0x100 && w / 16 % 16 == 0 && w / 16 > 0;
    SixteenTimes(w / 16);
  }

  /** __rt_ffs on a 32-bit word: its bytes are tried from the lowest up. */
  function Ffs(w: nat): nat
    requires w < WORDS
  {
    if w == 0 then 0
    else if w % 0x100 != 0 then LowestBitBitmap(w % 0x100) + 1
    else if w / 0x100 % 0x100 != 0 then LowestBitBitmap(w / 0x100 % 0x100) + 9
    else if w / 0x1_0000 % 0x100 != 0 then LowestBitBitmap(w / 0x1_0000 % 0x100) + 17
    else LowestBitBitmap(w / 0x100_0000) + 25
  }

  lemma ByteIs(w: nat)
    requires w % 0x100 != 0
    ensures LowestBitBitmap(w % 0x100) == Lowest(w)
  {
    LowByte(w);
    TableIs(w % 0x100);
  }

  /** __rt_ffs gives 0 for an empty word and otherwise one more than its least set bit. */
  lemma FfsIs(w: nat)
    requires w < WORDS
    ensures w == 0 ==> Ffs(w) == 0
    ensures w > 0 ==> Ffs(w) == Lowest(w) + 1 <= 32
  {
    if w == 0 {
    } else if w % 0x100 != 0 {
      ByteIs(w);
    } else {
      var a := w / 0x100;
      ByteUp(w);
      if a % 0x100 != 0 {
        ByteIs(a);
      } else {
        var b := a / 0x100;
        ByteUp(a);
        assert b == w / 0x1_0000;
        if b % 0x100 != 0 {
          ByteIs(b);
        } else {
          ByteUp(b);
          assert b / 0x100 == w / 0x100_0000 && b / 0x100 < 0x100;
          TableIs(b / 0x100);
        }
      }
    }
    if w > 0 {
      WordPow();
      LowestBound(w, 32);
    }
  }

  lemma WordPow()
    ensures Pow2(8) == 0x100 && Pow2(32) == WORDS
  {
    assert Pow2(4) == 16 && Pow2(8) == 0x100;
    assert Pow2(12) == 0x1000 && Pow2(16) == 0x1_0000;
    assert Pow2(20) == 0x10_0000 && Pow2(24) == 0x100_0000;
    assert Pow2(28) == 0x1000_0000;
  }

  lemma {:induction false} LowestBound(w: nat, n: nat)
    requires 0 < w < Pow2(n)
    ensures Lowest(w) < n
  {
    if Lowest(w) >= n { NoBitAbove(w, Lowest(w), n); }
  }

  // ----- the bitmap -----

  /** `rt_thread_ready_priority_group`, and above 32 priorities `rt_thread_ready_table` under it. */
  datatype Bitmap = One(group: nat) | Two(group: nat, table: seq<nat>)

  predicate Sized(b: Bitmap, prios: nat) {
    && b.group < WORDS
    && (if b.One? then prios <= 32 else 32 < prios <= 256 && |b.table| == 32 && forall n :: 0 <= n < 32 ==> b.table[n] < 0x100)
  }

  /** A bit of the group stands for a byte of the table that is not zero. */
  ghost predicate Agrees(b: Bitmap) {
    b.Two? ==> |b.table| == 32 && forall n :: 0 <= n < 32 ==> (Bit(b.group, n) <==> b.table[n] != 0)
  }

  predicate Has(b: Bitmap, p: nat) {
    match b
    case One(group) => Bit(group, p)
    case Two(_, table) => p / 8 < |table| && Bit(table[p / 8], p % 8)
  }

  /** As in rt_schedule_insert_thread. */
  function Include(b: Bitmap, p: nat): Bitmap
    requires b.Two? ==> p / 8 < |b.table|
  {
    match b
    case One(group) => One(SetBit(group, p))
    case Two(group, table) => Two(SetBit(group, p / 8), table[p / 8 := SetBit(table[p / 8], p % 8)])
  }

  /** As in rt_schedule_remove_thread. */
  function Exclude(b: Bitmap, p: nat): Bitmap
    requires b.Two? ==> p / 8 < |b.table|
  {
    match b
    case One(group) => One(ClearBit(group, p))
    case Two(group, table) =>
      var byte := ClearBit(table[p / 8], p % 8);
      Two(if byte == 0 then ClearBit(group, p / 8) else group, table[p / 8 := byte])
  }

  /** As in rt_schedule. */
  function Highest(b: Bitmap): int
    requires b.group < WORDS && (b.Two? ==> |b.table| == 32 && forall n :: 0 <= n < 32 ==> b.table[n] < 0x100)
  {
    match b
    case One(group) => Ffs(group) - 1
    case Two(group, table) =>
      var number := Ffs(group) - 1;
      if 0 <= number < 32 then number * 8 + Ffs(table[number]) - 1 else -1
  }

  lemma SetByteIs(w: nat, i: nat)
    requires w < 0x100 && i < 8
    ensures SetBit(w, i) < 0x100 && SetBit(w, i) != 0 && ClearBit(w, i) < 0x100
  {
    WordPow();
    BitsBound(w, i, 8);
    SetBitIs(w, i, i);
    ZeroBit(i);
  }

  lemma SetWordIs(w: nat, i: nat)
    requires w < WORDS && i < 32
    ensures SetBit(w, i) < WORDS && ClearBit(w, i) < WORDS
  {
    WordPow();
    BitsBound(w, i, 32);
  }

  lemma StaysSized(b: Bitmap, prios: nat, p: nat)
    requires Sized(b, prios) && p < prios
    ensures Sized(Include(b, p), prios) && Sized(Exclude(b, p), prios)
  {
    if b.One? {
      SetWordIs(b.group, p);
    } else {
      SetWordIs(b.group, p / 8);
      SetByteIs(b.table[p / 8], p % 8);
    }
  }

  lemma IncludeAgrees(b: Bitmap, prios: nat, p: nat)
    requires Sized(b, prios) && Agrees(b) && p < prios
    ensures Agrees(Include(b, p))
  {
    if b.Two? {
      SetByteIs(b.table[p / 8], p % 8);
      var r := Include(b, p);
      forall n | 0 <= n < 32 ensures Bit(r.group, n) <==> r.table[n] != 0 {
        SetBitIs(b.group, p / 8, n);
      }
    }
  }

  lemma ExcludeAgrees(b: Bitmap, prios: nat, p: nat)
    requires Sized(b, prios) && Agrees(b) && p < prios
    ensures Agrees(Exclude(b, p))
  {
    if b.Two? {
      var r := Exclude(b, p);
      forall n | 0 <= n < 32 ensures Bit(r.group, n) <==> r.table[n] != 0 {
        ClearBitIs(b.group, p / 8, n);
        if n == p / 8 && r.table[n] != 0 { ClearedByte(b.table[n], p % 8); }
      }
    }
  }

  lemma ClearedByte(w: nat, i: nat)
    ensures w == 0 ==> ClearBit(w, i) == 0
  {
    if i > 0 { ClearedByte(w / 2, i - 1); }
  }

  lemma IncludeHas(b: Bitmap, prios: nat, p: nat, q: nat)
    requires Sized(b, prios) && p < prios && q < prios
    ensures Has(Include(b, p), q) <==> q == p || Has(b, q)
  {
    if b.One? {
      SetBitIs(b.group, p, q);
    } else if q / 8 == p / 8 {
      SetBitIs(b.table[p / 8], p % 8, q % 8);
    }
  }

  lemma ExcludeHas(b: Bitmap, prios: nat, p: nat, q: nat)
    requires Sized(b, prios) && p < prios && q < prios
    ensures Has(Exclude(b, p), q) <==> q != p && Has(b, q)
  {
    if b.One? {
      ClearBitIs(b.group, p, q);
    } else if q / 8 == p / 8 {
      ClearBitIs(b.table[p / 8], p % 8, q % 8);
    }
  }

  lemma ByteSearch(b: Bitmap, prios: nat)
    requires b.Two? && Sized(b, prios) && Agrees(b) && b.group > 0
    ensures Lowest(b.group) < 32 && b.table[Lowest(b.group)] > 0
    ensures var n := Lowest(b.group); Lowest(b.table[n]) < 8 && Highest(b) == n * 8 + Lowest(b.table[n])
  {
    var n := Lowest(b.group);
    FfsIs(b.group);
    FfsIs(b.table[n]);
    WordPow();
    LowestBound(b.table[n], 8);
  }

  /** The search finds the most urgent priority that is marked, in both variants. */
  lemma HighestIsLeast(b: Bitmap, prios: nat, p: nat)
    requires Sized(b, prios) && Agrees(b) && p < prios && Has(b, p)
    ensures 0 <= Highest(b) <= p && Has(b, Highest(b))
  {
    if b.One? {
      LowestIsLeast(b.group, p);
      FfsIs(b.group);
    } else {
      ZeroBit(p % 8);
      LowestIsLeast(b.group, p / 8);
      ByteSearch(b, prios);
      var n := Lowest(b.group);
      var i := Lowest(b.table[n]);
      assert Highest(b) / 8 == n && Highest(b) % 8 == i;
      if n == p / 8 { LowestIsLeast(b.table[n], p % 8); }
    }
  }
}
