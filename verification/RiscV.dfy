/** The instructions that libcpu/trap_entry.S and libcpu/context_gcc.S use, on a 32-bit RISC-V hart, and what the parts of
    those files do: saving the registers in a frame, restoring them, and copying the frame. */
module RiscV {
  import opened Basics
  import opened ReadyBitmap

  type Addr = int
  type Word = n: nat | n < WORDS
  type Reg = n: nat | n < 32

  datatype Csr = Mepc | Mstatus | Mscratch | Mcause | Mtval

  /** Words of memory that were never written read as 0. */
  datatype Cpu = Cpu(x: seq<Word>, mem: map<Addr, Word>, mepc: Word, mstatus: Word, mscratch: Word, mcause: Word, mtval: Word)

  datatype Instr =
    | Store(rs: Reg, offset: int, base: Reg) | Load(rd: Reg, offset: int, base: Reg)
    | Addi(rd: Reg, rs: Reg, imm: int) | Andi(rd: Reg, rs: Reg, mask: Word) | Or(rd: Reg, rs: Reg, rt: Reg)
    | Li(rd: Reg, value: Word) | Mv(rd: Reg, rs: Reg)
    | Csrr(rd: Reg, csr: Csr) | Csrw(csr: Csr, rs: Reg) | Csrs(csr: Csr, rs: Reg) | Csrrw(rd: Reg, csr: Csr, rs: Reg)

  const ZERO: Reg := 0
  const RA: Reg := 1
  const SP: Reg := 2
  const GP: Reg := 3
  const T0: Reg := 5
  const T1: Reg := 6
  const T2: Reg := 7
  const A0: Reg := 10
  const A1: Reg := 11
  const A2: Reg := 12
  const T3: Reg := 28
  const T4: Reg := 29
  const T5: Reg := 30
  const T6: Reg := 31

  /** 32 words. */
  const FRAME := 128

  function Peek(mem: map<Addr, Word>, a: Addr): Word {
    if a in mem then mem[a] else 0
  }

  /** x0 is always 0. */
  function Put(x: seq<Word>, r: Reg, w: Word): (y: seq<Word>)
    requires |x| == 32
    ensures |y| == 32
  {
    if r == 0 then x else x[r := w]
  }

  function BitOp(a: nat, b: nat, n: nat, both: bool): (r: nat)
    ensures r < Pow2(n)
  {
    if n == 0 then 0
    else
      var bit := if both then a % 2 == 1 && b % 2 == 1 else a % 2 == 1 || b % 2 == 1;
      2 * BitOp(a / 2, b / 2, n - 1, both) + (if bit then 1 else 0)
  }

  function BitOr(a: Word, b: Word): Word {
    WordPow();
    BitOp(a, b, 32, false)
  }

  function BitAnd(a: Word, b: Word): Word {
    WordPow();
    BitOp(a, b, 32, true)
  }

  function Get(c: Cpu, csr: Csr): Word {
    match csr
    case Mepc => c.mepc
    case Mstatus => c.mstatus
    case Mscratch => c.mscratch
    case Mcause => c.mcause
    case Mtval => c.mtval
  }

  function Set(c: Cpu, csr: Csr, w: Word): Cpu {
    match csr
    case Mepc => c.(mepc := w)
    case Mstatus => c.(mstatus := w)
    case Mscratch => c.(mscratch := w)
    case Mcause => c.(mcause := w)
    case Mtval => c.(mtval := w)
  }

  function Plus(w: Word, n: int): Word {
    (w + n) % WORDS
  }

  function Exec(i: Instr, c: Cpu): (r: Cpu)
    requires |c.x| == 32
    ensures |r.x| == 32
  {
    match i
    case Store(rs, offset, base) => c.(mem := c.mem[Plus(c.x[base], offset) := c.x[rs]])
    case Load(rd, offset, base) => c.(x := Put(c.x, rd, Peek(c.mem, Plus(c.x[base], offset))))
    case Addi(rd, rs, imm) => c.(x := Put(c.x, rd, Plus(c.x[rs], imm)))
    case Andi(rd, rs, mask) => c.(x := Put(c.x, rd, BitAnd(c.x[rs], mask)))
    case Or(rd, rs, rt) => c.(x := Put(c.x, rd, BitOr(c.x[rs], c.x[rt])))
    case Li(rd, value) => c.(x := Put(c.x, rd, value))
    case Mv(rd, rs) => c.(x := Put(c.x, rd, c.x[rs]))
    case Csrr(rd, csr) => c.(x := Put(c.x, rd, Get(c, csr)))
    case Csrw(csr, rs) => Set(c, csr, c.x[rs])
    case Csrs(csr, rs) => Set(c, csr, BitOr(Get(c, csr), c.x[rs]))
    case Csrrw(rd, csr, rs) => Set(c, csr, c.x[rs]).(x := Put(c.x, rd, Get(c, csr)))
  }

  // ----- saving and restoring x4 to x31 -----

  /** STORE xk, k * REGBYTES(sp) up to x31. */
  function SaveFrom(c: Cpu, k: nat): (r: Cpu)
    requires |c.x| == 32 && k <= 32
    ensures |r.x| == 32
    decreases 32 - k
  {
    if k == 32 then c else SaveFrom(Exec(Store(k, 4 * k, SP), c), k + 1)
  }

  /** LOAD xk, k * REGBYTES(sp) up to x31. */
  function LoadFrom(c: Cpu, k: nat): (r: Cpu)
    requires |c.x| == 32 && k <= 32
    ensures |r.x| == 32
    decreases 32 - k
  {
    if k == 32 then c else LoadFrom(Exec(Load(k, 4 * k, SP), c), k + 1)
  }

  /** The word in slot `i` of the frame at `base`. */
  function Slot(mem: map<Addr, Word>, base: Addr, i: nat): Word {
    Peek(mem, base + 4 * i)
  }

  ghost predicate Within(a: Addr, base: Addr) {
    base <= a < base + FRAME
  }

  /** Memory outside the frame at `base` is the same. */
  ghost predicate SameOutside(mem: map<Addr, Word>, mem': map<Addr, Word>, base: Addr) {
    forall a {:trigger Peek(mem', a)} :: !Within(a, base) ==> Peek(mem', a) == Peek(mem, a)
  }

  lemma {:induction false} SaveFromIs(c: Cpu, k: nat, base: Word)
    requires |c.x| == 32 && k <= 32 && c.x[SP] == base && base + FRAME <= WORDS
    ensures SaveFrom(c, k) == c.(mem := SaveFrom(c, k).mem)
    ensures forall i {:trigger Slot(SaveFrom(c, k).mem, base, i)} :: k <= i < 32 ==> Slot(SaveFrom(c, k).mem, base, i) == c.x[i]
    ensures forall i {:trigger Slot(SaveFrom(c, k).mem, base, i)} :: 0 <= i < k ==> Slot(SaveFrom(c, k).mem, base, i) == Slot(c.mem, base, i)
    ensures SameOutside(c.mem, SaveFrom(c, k).mem, base)
    decreases 32 - k
  {
    if k < 32 {
      var d := Exec(Store(k, 4 * k, SP), c);
      assert d.mem == c.mem[base + 4 * k := c.x[k]];
      SaveFromIs(d, k + 1, base);
      var r := SaveFrom(c, k);
      forall i | 0 <= i < 32 ensures Slot(r.mem, base, i) == if i >= k then c.x[i] else Slot(c.mem, base, i) {
        if i <= k { assert Slot(r.mem, base, i) == Slot(d.mem, base, i); }
      }
    }
  }

  lemma {:induction false} LoadFromIs(c: Cpu, k: nat, base: Word)
    requires |c.x| == 32 && 3 <= k <= 32 && c.x[SP] == base && base + FRAME <= WORDS
    ensures LoadFrom(c, k) == c.(x := LoadFrom(c, k).x)
    ensures forall i :: 0 <= i < k ==> LoadFrom(c, k).x[i] == c.x[i]
    ensures forall i :: k <= i < 32 ==> LoadFrom(c, k).x[i] == Slot(c.mem, base, i)
    decreases 32 - k
  {
    if k < 32 {
      var d := Exec(Load(k, 4 * k, SP), c);
      assert d.x == c.x[k := Slot(c.mem, base, k)];
      LoadFromIs(d, k + 1, base);
    }
  }
}
