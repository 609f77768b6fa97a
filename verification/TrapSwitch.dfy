/** Traps and context switches of libcpu/: a thread that was interrupted or switched away from resumes, however many others ran
    in between, exactly where and as it was. */
module TrapSwitch {
  import opened ReadyBitmap
  import opened RiscV

  type Tid = nat

  /** The addresses of rt_thread_switch_interrupt_flag, rt_interrupt_from_thread, rt_interrupt_to_thread and __stack_top. */
  datatype Symbols = Symbols(flag: Word, from: Word, to: Word, top: Word)

  /** What a thread sees of the hart: pc, sp, x1 and x4 to x31. */
  datatype Context = Context(pc: Word, sp: Word, ra: Word, x: seq<Word>)

  function ContextOf(c: Cpu, pc: Word): Context
    requires |c.x| == 32
  {
    Context(pc, c.x[SP], c.x[RA], c.x[4..])
  }

  /** The frame at `base` holds the context of a thread whose stack pointer was just above it. */
  ghost predicate Holds(mem: map<Addr, Word>, base: Addr, k: Context) {
    && k.sp == base + FRAME && |k.x| == 28
    && Slot(mem, base, 0) == k.pc && Slot(mem, base, 1) == k.ra
    && forall i {:trigger Slot(mem, base, i)} :: 4 <= i < 32 ==> Slot(mem, base, i) == k.x[i - 4]
  }

  lemma HoldsSame(mem: map<Addr, Word>, mem': map<Addr, Word>, base: Addr, k: Context)
    requires Holds(mem, base, k)
    requires forall a {:trigger Peek(mem', a)} :: Within(a, base) ==> Peek(mem', a) == Peek(mem, a)
    ensures Holds(mem', base, k)
  {
    forall i | 4 <= i < 32 ensures Slot(mem', base, i) == k.x[i - 4] { assert Slot(mem, base, i) == k.x[i - 4]; }
    assert Slot(mem', base, 0) == Slot(mem, base, 0) && Slot(mem', base, 1) == Slot(mem, base, 1);
  }

  // ----- trap_entry up to the call of the handler -----

  /** Steps 1 and 2 up to x3. */
  method SaveHead(c: Cpu) returns (r: Cpu)
    requires |c.x| == 32 && FRAME <= c.mscratch
    ensures var base := c.mscratch - FRAME;
      && r == c.(x := c.x[SP := base], mem := r.mem, mscratch := c.x[SP])
      && Slot(r.mem, base, 1) == c.x[RA] && SameOutside(c.mem, r.mem, base)
  {
    r := Exec(Csrrw(SP, Mscratch, SP), c);
    r := Exec(Addi(SP, SP, -FRAME), r);
    r := Exec(Store(ZERO, 0, SP), r);
    r := Exec(Store(RA, 4, SP), r);
    r := Exec(Store(ZERO, 8, SP), r);
    r := Exec(Store(GP, 12, SP), r);
  }

  /** Step 3 and the arguments of the handler. */
  method SaveCsrs(c: Cpu, ghost base: Word) returns (r: Cpu)
    requires |c.x| == 32 && c.x[SP] == base && base + FRAME <= WORDS
    ensures |r.x| == 32 && r.x[SP] == base && r.mscratch == c.mscratch
    ensures Slot(r.mem, base, 0) == c.mepc
    ensures forall a {:trigger Peek(r.mem, a)} :: a != base && a != base + 8 ==> Peek(r.mem, a) == Peek(c.mem, a)
  {
    r := Exec(Csrr(T0, Mepc), c);
    r := Exec(Store(T0, 0, SP), r);
    r := Exec(Csrr(T0, Mstatus), r);
    r := Exec(Li(T1, 0x1800), r);
    r := Exec(Or(T0, T0, T1), r);
    r := Exec(Store(T0, 8, SP), r);
    r := Exec(Mv(A0, SP), r);
    r := Exec(Csrr(A1, Mcause), r);
    r := Exec(Csrr(A2, Mtval), r);
  }

  /** `d`, `e` and `r` are the states after the three parts of the entry. */
  lemma Saved(c: Cpu, d: Cpu, e: Cpu, r: Cpu, base: Word)
    requires |c.x| == |d.x| == |e.x| == |r.x| == 32 && base + FRAME < WORDS
    requires d == c.(x := c.x[SP := base], mem := d.mem, mscratch := d.mscratch)
    requires Slot(d.mem, base, 1) == c.x[RA] && SameOutside(c.mem, d.mem, base)
    requires forall i {:trigger Slot(e.mem, base, i)} :: 4 <= i < 32 ==> Slot(e.mem, base, i) == d.x[i]
    requires Slot(e.mem, base, 1) == Slot(d.mem, base, 1) && SameOutside(d.mem, e.mem, base)
    requires Slot(r.mem, base, 0) == c.mepc
    requires forall a {:trigger Peek(r.mem, a)} :: a != base && a != base + 8 ==> Peek(r.mem, a) == Peek(e.mem, a)
    ensures SameOutside(c.mem, r.mem, base) && Holds(r.mem, base, ContextOf(c, c.mepc).(sp := base + FRAME))
  {
    forall i | 4 <= i < 32 ensures Slot(r.mem, base, i) == c.x[4..][i - 4] { assert Slot(e.mem, base, i) == d.x[i]; }
    forall a | !Within(a, base) ensures Peek(r.mem, a) == Peek(c.mem, a) { assert Peek(e.mem, a) == Peek(d.mem, a); }
    assert Slot(r.mem, base, 1) == Slot(e.mem, base, 1);
  }

  /** The entry leaves the registers in a frame on the system stack and the stack pointer in mscratch. */
  method TrapSave(c: Cpu) returns (r: Cpu)
    requires |c.x| == 32 && FRAME <= c.mscratch
    ensures |r.x| == 32 && r.x[SP] == c.mscratch - FRAME && r.mscratch == c.x[SP]
    ensures SameOutside(c.mem, r.mem, c.mscratch - FRAME)
    ensures Holds(r.mem, c.mscratch - FRAME, ContextOf(c, c.mepc).(sp := c.mscratch))
  {
    ghost var base := c.mscratch - FRAME;
    var d := SaveHead(c);
    SaveFromIs(d, 4, base);
    var e := SaveFrom(d, 4);
    r := SaveCsrs(e, base);
    Saved(c, d, e, r, base);
  }

  // ----- the exits -----

  /** mstatus only gains bits. */
  method RestoreStatus(c: Cpu) returns (r: Cpu)
    requires |c.x| == 32
    ensures |r.x| == 32 && r == c.(x := r.x, mstatus := r.mstatus) && forall i :: 0 <= i < 32 && i != T0 && i != A0 ==> r.x[i] == c.x[i]
  {
    r := Exec(Li(T0, 0x1800), c);
    r := Exec(Csrs(Mstatus, T0), r);
    r := Exec(Load(A0, 8, SP), r);
    r := Exec(Csrs(Mstatus, A0), r);
  }

  method RestoreCsrs(c: Cpu, ghost base: Word) returns (r: Cpu)
    requires |c.x| == 32 && c.x[SP] == base && base + FRAME < WORDS
    ensures |r.x| == 32 && r.x[SP] == base && r.mem == c.mem && r.mscratch == c.mscratch && r.x[ZERO] == c.x[ZERO]
    ensures r.x[RA] == Slot(c.mem, base, 1) && r.mepc == Slot(c.mem, base, 0)
  {
    r := Exec(Load(A0, 0, SP), c);
    r := Exec(Csrw(Mepc, A0), r);
    r := Exec(Load(RA, 4, SP), r);
    r := RestoreStatus(r);
  }

  lemma Restored(mem: map<Addr, Word>, base: Word, k: Context, x: seq<Word>)
    requires |x| == 32 && base + FRAME < WORDS && Holds(mem, base, k)
    requires forall i :: 4 <= i < 32 ==> x[i] == Slot(mem, base, i)
    ensures x[SP := base + FRAME][4..] == k.x
  {
    forall i | 0 <= i < 28 ensures x[SP := base + FRAME][4..][i] == k.x[i] { assert Slot(mem, base, i + 4) == k.x[i]; }
  }

  method LoadRegs(c: Cpu, ghost base: Word) returns (r: Cpu)
    requires |c.x| == 32 && c.x[SP] == base && base + FRAME < WORDS
    ensures |r.x| == 32 && r == c.(x := r.x) && (forall i :: 0 <= i < 4 ==> r.x[i] == c.x[i])
    ensures forall i :: 4 <= i < 32 ==> r.x[i] == Slot(c.mem, base, i)
  {
    LoadFromIs(c, 4, base);
    r := LoadFrom(c, 4);
  }

  /** rt_hw_context_switch_exit up to its mret: loads the context in the frame at sp. */
  method Restore(c: Cpu, ghost base: Word, ghost k: Context) returns (r: Cpu)
    requires |c.x| == 32 && c.x[SP] == base && base + FRAME < WORDS && Holds(c.mem, base, k)
    ensures |r.x| == 32 && ContextOf(r, r.mepc) == k && r.mem == c.mem && r.mscratch == c.mscratch && r.x[ZERO] == c.x[ZERO]
  {
    var d := RestoreCsrs(c, base);
    var e := LoadRegs(d, base);
    r := Exec(Addi(SP, SP, FRAME), e);
    Restored(c.mem, base, k, e.x);
  }

  /** rt_hw_interrupt_exit up to its mret: the thread gets its stack pointer back from mscratch, and mscratch the system stack. */
  method InterruptExit(c: Cpu, ghost base: Word, ghost k: Context) returns (r: Cpu)
    requires |c.x| == 32 && c.x[SP] == base && base + FRAME < WORDS && Holds(c.mem, base, k)
    ensures |r.x| == 32 && ContextOf(r, r.mepc) == k.(sp := c.mscratch) && r.mem == c.mem && r.mscratch == base + FRAME && r.x[ZERO] == c.x[ZERO]
  {
    var d := Restore(c, base, k);
    r := Exec(Csrrw(SP, Mscratch, SP), d);
    assert r.x[4..] == d.x[4..];
  }

  /** One turn of the loop that copies the frame to the stack of the interrupted thread. */
  method CopyWord(c: Cpu) returns (r: Cpu)
    requires |c.x| == 32 && c.x[T3] > 0 && c.x[T4] + 4 < WORDS && c.x[T5] + 4 < WORDS
    ensures |r.x| == 32 && r == c.(x := r.x, mem := c.mem[c.x[T5] := Peek(c.mem, c.x[T4])])
    ensures r.x[T3] == c.x[T3] - 1 && r.x[T4] == c.x[T4] + 4 && r.x[T5] == c.x[T5] + 4 && forall i :: 0 <= i < 28 ==> r.x[i] == c.x[i]
  {
    r := Exec(Load(T6, 0, T4), c);
    r := Exec(Store(T6, 0, T5), r);
    r := Exec(Addi(T4, T4, 4), r);
    r := Exec(Addi(T5, T5, 4), r);
    r := Exec(Addi(T3, T3, -1), r);
  }

  /** The loop that copies `n` words from `s` to `d`; t3 counts them, t4 and t5 point to them. */
  method CopyLoop(c: Cpu, ghost n: nat, ghost s: Addr, ghost d: Addr) returns (r: Cpu)
    requires |c.x| == 32 && 0 < n <= 32 && c.x[T3] == n && c.x[T4] == s && c.x[T5] == d
    requires s + 4 * n < WORDS && d + 4 * n < WORDS && (s + 4 * n <= d || d + 4 * n <= s)
    ensures |r.x| == 32 && r == c.(x := r.x, mem := r.mem) && forall i :: 0 <= i < 28 ==> r.x[i] == c.x[i]
    ensures forall i {:trigger Slot(r.mem, d, i)} :: 0 <= i < n ==> Slot(r.mem, d, i) == Slot(c.mem, s, i)
    ensures forall a {:trigger Peek(r.mem, a)} :: !(d <= a < d + 4 * n) ==> Peek(r.mem, a) == Peek(c.mem, a)
  {
    r := c;
    ghost var j := 0;
    while true
      invariant 0 <= j < n && |r.x| == 32 && r == c.(x := r.x, mem := r.mem) && forall i :: 0 <= i < 28 ==> r.x[i] == c.x[i]
      invariant r.x[T3] == n - j && r.x[T4] == s + 4 * j && r.x[T5] == d + 4 * j
      invariant forall i {:trigger Slot(r.mem, d, i)} :: 0 <= i < j ==> Slot(r.mem, d, i) == Slot(c.mem, s, i)
      invariant forall a {:trigger Peek(r.mem, a)} :: !(d <= a < d + 4 * n) ==> Peek(r.mem, a) == Peek(c.mem, a)
      decreases n - j
    {
      ghost var m := r.mem;
      r := CopyWord(r);
      assert r.mem == m[d + 4 * j := Peek(m, s + 4 * j)];
      forall i | 0 <= i <= j ensures Slot(r.mem, d, i) == Slot(c.mem, s, i) {
        if i < j { assert Slot(m, d, i) == Slot(c.mem, s, i); } else { assert Peek(m, s + 4 * j) == Peek(c.mem, s + 4 * j); }
      }
      forall a | !(d <= a < d + 4 * n) ensures Peek(r.mem, a) == Peek(c.mem, a) { assert Peek(m, a) == Peek(c.mem, a); }
      j := j + 1;
      if r.x[T3] == 0 { break; }
    }
  }

  /** Clears the flag, fixes where the frame goes and stores that place as the stack pointer of the interrupted thread. */
  method MoveHead(y: Symbols, c: Cpu, ghost at: Addr, ghost cell: Addr) returns (r: Cpu)
    requires |c.x| == 32 && c.x[ZERO] == 0 && c.x[T0] == y.flag && c.mscratch == at + FRAME && 0 <= at
    requires y.flag != y.from && Peek(c.mem, y.from) == cell
    ensures |r.x| == 32 && r.mem == c.mem[y.flag := 0][cell := at] && r == c.(x := r.x, mem := r.mem) && r.x[ZERO] == 0
    ensures r.x[SP] == c.x[SP] && r.x[T3] == 32 && r.x[T4] == c.x[SP] && r.x[T5] == at
  {
    r := Exec(Store(ZERO, 0, T0), c);
    r := Exec(Csrr(T2, Mscratch), r);
    r := Exec(Addi(T2, T2, -FRAME), r);
    r := Exec(Li(T0, y.from), r);
    r := Exec(Load(T1, 0, T0), r);
    r := Exec(Store(T2, 0, T1), r);
    r := Exec(Li(T3, 32), r);
    r := Exec(Mv(T4, SP), r);
    r := Exec(Mv(T5, T2), r);
  }

  /** Loads the stack pointer of the next thread and resets mscratch. */
  method TakeNext(y: Symbols, c: Cpu, ghost cell: Addr) returns (r: Cpu)
    requires |c.x| == 32 && Peek(c.mem, y.to) == cell
    ensures |r.x| == 32 && r.mem == c.mem && r.mscratch == y.top && r.x[SP] == Peek(c.mem, cell) && r.x[ZERO] == c.x[ZERO]
  {
    r := Exec(Addi(SP, SP, FRAME), c);
    r := Exec(Li(T0, y.to), r);
    r := Exec(Load(T1, 0, T0), r);
    r := Exec(Load(T2, 0, T1), r);
    r := Exec(Mv(SP, T2), r);
    r := Exec(Li(T3, y.top), r);
    r := Exec(Csrw(Mscratch, T3), r);
  }

  /** rt_hw_context_switch up to the load of the next stack pointer: the caller's registers, but for a0, in a frame
      on its stack. */
  method SwitchHead(c: Cpu, ghost base: Word) returns (r: Cpu)
    requires |c.x| == 32 && c.x[SP] == base + FRAME
    ensures |r.x| == 32 && r == c.(x := r.x, mem := c.mem[c.x[A0] := base][base := c.x[RA]][base + 4 := c.x[RA]][base + 8 := r.x[A0]])
    ensures r.x[SP] == base && forall i :: 0 <= i < 32 && i != SP && i != A0 ==> r.x[i] == c.x[i]
  {
    r := Exec(Addi(SP, SP, -FRAME), c);
    r := Exec(Store(SP, 0, A0), r);
    r := Exec(Store(RA, 0, SP), r);
    r := Exec(Store(RA, 4, SP), r);
    r := Exec(Csrr(A0, Mstatus), r);
    r := Exec(Andi(A0, A0, 8), r);
    if r.x[A0] != 0 {
      r := Exec(Li(A0, 0x80), r);
    }
    r := Exec(Store(A0, 8, SP), r);
  }

  /** The frame at `base` is moved to `at`, on the stack of the interrupted thread. */
  method MoveFrame(y: Symbols, c: Cpu, ghost base: Addr, ghost at: Addr, ghost cell: Addr, ghost k: Context) returns (r: Cpu)
    requires |c.x| == 32 && c.x[ZERO] == 0 && c.x[T0] == y.flag && c.x[SP] == base && c.mscratch == at + FRAME && 0 <= at
    requires y.flag != y.from && Peek(c.mem, y.from) == cell
    requires base + FRAME < WORDS && at + FRAME < WORDS && (base + FRAME <= at || at + FRAME <= base)
    requires !Within(y.flag, base) && !Within(cell, base) && !Within(y.flag, at) && !Within(cell, at) && y.flag != cell
    requires Holds(c.mem, base, k)
    ensures |r.x| == 32 && r.x[ZERO] == 0 && Holds(r.mem, at, k.(sp := c.mscratch))
    ensures Peek(r.mem, y.flag) == 0 && Peek(r.mem, cell) == at
    ensures forall a {:trigger Peek(r.mem, a)} :: !Within(a, at) && a != y.flag && a != cell ==> Peek(r.mem, a) == Peek(c.mem, a)
  {
    var d := MoveHead(y, c, at, cell);
    HoldsSame(c.mem, d.mem, base, k);
    r := CopyLoop(d, 32, base, at);
    forall i | 0 <= i < 32 ensures Slot(r.mem, at, i) == Slot(d.mem, base, i) {}
    assert Slot(r.mem, at, 0) == k.pc && Slot(r.mem, at, 1) == k.ra;
    forall a | !Within(a, at) && a != y.flag && a != cell ensures Peek(r.mem, a) == Peek(c.mem, a) {
      assert Peek(r.mem, a) == Peek(d.mem, a);
    }
  }

  // ----- the memory of the system -----

  /** Where the linker and the kernel put things: the switch variables, for each thread its `sp` field and its stack. */
  datatype Layout = Layout(y: Symbols, cell: map<Tid, Word>, low: map<Tid, nat>, high: map<Tid, nat>)

  ghost predicate OnStack(l: Layout, t: Tid, a: Addr) {
    t in l.low && t in l.high && l.low[t] <= a < l.high[t]
  }

  ghost predicate OnSystemStack(l: Layout, a: Addr) {
    l.y.top - FRAME <= a < l.y.top
  }

  ghost function Variables(l: Layout): set<Addr> {
    {l.y.flag as Addr, l.y.from, l.y.to} + set t | t in l.cell :: l.cell[t]
  }

  /** Nothing overlaps. */
  ghost predicate Sound(l: Layout) {
    && l.low.Keys == l.cell.Keys && l.high.Keys == l.cell.Keys && FRAME <= l.y.top
    && (forall t :: t in l.high ==> l.high[t] < WORDS)
    && l.y.flag != l.y.from && l.y.flag != l.y.to && l.y.from != l.y.to
    && (forall t :: t in l.cell ==> l.cell[t] != l.y.flag && l.cell[t] != l.y.from && l.cell[t] != l.y.to)
    && (forall t, u :: t in l.cell && u in l.cell && t != u ==> l.cell[t] != l.cell[u])
    && (forall a :: a in Variables(l) ==> !OnSystemStack(l, a))
    && (forall t, a :: OnStack(l, t, a) ==> a !in Variables(l) && !OnSystemStack(l, a))
    && (forall t, u, a :: t != u && OnStack(l, t, a) ==> !OnStack(l, u, a))
  }

  /** Thread `t` is not running: its `sp` field points to a frame on its stack that holds the context `k`. */
  ghost predicate Parked(mem: map<Addr, Word>, l: Layout, t: Tid, k: Context) {
    && t in l.cell && t in l.low && t in l.high
    && l.low[t] <= Peek(mem, l.cell[t]) && Peek(mem, l.cell[t]) + FRAME <= l.high[t]
    && Holds(mem, Peek(mem, l.cell[t]), k)
  }

  /** All threads but `current` are parked. */
  ghost predicate AllParked(mem: map<Addr, Word>, l: Layout, saved: map<Tid, Context>, current: Tid) {
    forall t :: t in l.cell && t != current ==> t in saved && Parked(mem, l, t, saved[t])
  }

  /** The frames of the parked threads and the variables are the same in both memories. */
  ghost predicate Spared(mem: map<Addr, Word>, mem': map<Addr, Word>, l: Layout, current: Tid) {
    && (forall a {:trigger Peek(mem', a)} :: a in Variables(l) ==> Peek(mem', a) == Peek(mem, a))
    && (forall t, a {:trigger OnStack(l, t, a)} :: t in l.cell && t != current && OnStack(l, t, a) && Within(a, Peek(mem, l.cell[t])) ==>
          Peek(mem', a) == Peek(mem, a))
  }

  lemma StaysParked(mem: map<Addr, Word>, mem': map<Addr, Word>, l: Layout, t: Tid, k: Context)
    requires Sound(l) && Parked(mem, l, t, k) && Peek(mem', l.cell[t]) == Peek(mem, l.cell[t])
    requires forall a {:trigger OnStack(l, t, a)} :: OnStack(l, t, a) && Within(a, Peek(mem, l.cell[t])) ==> Peek(mem', a) == Peek(mem, a)
    ensures Parked(mem', l, t, k)
  {
    forall a | Within(a, Peek(mem, l.cell[t])) ensures Peek(mem', a) == Peek(mem, a) { assert OnStack(l, t, a); }
    HoldsSame(mem, mem', Peek(mem, l.cell[t]), k);
  }

  lemma AllStayParked(mem: map<Addr, Word>, mem': map<Addr, Word>, l: Layout, saved: map<Tid, Context>, current: Tid)
    requires Sound(l) && AllParked(mem, l, saved, current) && Spared(mem, mem', l, current)
    ensures AllParked(mem', l, saved, current)
  {
    forall t | t in l.cell && t != current ensures Parked(mem', l, t, saved[t]) {
      assert l.cell[t] in Variables(l);
      StaysParked(mem, mem', l, t, saved[t]);
    }
  }

  // ----- the system -----

  /** One thread runs, the others are parked with the contexts they will resume with. */
  datatype View = View(running: Context, current: Tid, saved: map<Tid, Context>)

  /** `Compute` is what the current thread does on its own. `Trap` is an interrupt during which rt_schedule was called for
      the threads `calls`, one after the other. `Switch` is a voluntary switch, which saves `a0` as it is then. */
  datatype Event = Compute(next: Context) | Trap(calls: seq<Tid>) | Switch(to: Tid, a0: Word)

  /** The caller of rt_hw_context_switch will continue behind the call, with another a0. */
  function AtCall(k: Context, a0: Word): Context {
    if |k.x| == 28 then k.(pc := k.ra, x := k.x[6 := a0]) else k
  }

  function Step(v: View, e: Event): View {
    match e
    case Compute(next) => v.(running := next)
    case Trap(calls) =>
      if calls == [] then v
      else
        var saved := v.saved[v.current := v.running];
        var to := calls[|calls| - 1];
        if to in saved then View(saved[to], to, saved) else v
    case Switch(to, a0) =>
      var saved := v.saved[v.current := AtCall(v.running, a0)];
      if to in saved then View(saved[to], to, saved) else v
  }

  /** The place of a frame below `sp` on the stack of thread `was`. */
  lemma FramePlace(l: Layout, was: Tid, sp: nat)
    requires Sound(l) && was in l.cell && l.low[was] + FRAME <= sp <= l.high[was]
    ensures sp <= l.y.top - FRAME || l.y.top <= sp - FRAME
    ensures forall a :: Within(a, sp - FRAME) ==> OnStack(l, was, a)
    ensures !Within(l.y.flag, sp - FRAME) && !Within(l.y.to, sp - FRAME) && !Within(l.cell[was], sp - FRAME)
    ensures !OnSystemStack(l, l.y.flag) && !OnSystemStack(l, l.cell[was])
  {
    var at := sp - FRAME;
    assert OnStack(l, was, at) && OnStack(l, was, at + FRAME - 1);
    assert l.cell[was] in Variables(l) && (l.y.flag as Addr) in Variables(l) && (l.y.to as Addr) in Variables(l);
    assert OnStack(l, was, l.y.top - FRAME) ==> !OnSystemStack(l, l.y.top - FRAME);
    assert Within(l.y.flag, at) ==> OnStack(l, was, l.y.flag);
    assert Within(l.y.to, at) ==> OnStack(l, was, l.y.to);
    assert Within(l.cell[was], at) ==> OnStack(l, was, l.cell[was]);
  }

  /** Moves the frame of the interrupted thread `was` to its stack; now every thread is parked. */
  method ParkFrame(l: Layout, c: Cpu, ghost saved: map<Tid, Context>, ghost was: Tid, ghost k: Context) returns (r: Cpu)
    requires Sound(l) && |c.x| == 32 && c.x[ZERO] == 0 && c.x[T0] == l.y.flag && c.x[SP] == l.y.top - FRAME && c.mscratch == k.sp
    requires Holds(c.mem, l.y.top - FRAME, k.(sp := l.y.top)) && was in l.cell && AllParked(c.mem, l, saved, was)
    requires Peek(c.mem, l.y.from) == l.cell[was] && l.low[was] + FRAME <= k.sp <= l.high[was]
    ensures |r.x| == 32 && r.x[ZERO] == 0 && Peek(r.mem, l.y.flag) == 0 && Peek(r.mem, l.y.to) == Peek(c.mem, l.y.to)
    ensures forall t :: t in l.cell ==> t in saved[was := k] && Parked(r.mem, l, t, saved[was := k][t])
  {
    FramePlace(l, was, k.sp);
    r := MoveFrame(l.y, c, l.y.top - FRAME, k.sp - FRAME, l.cell[was], k.(sp := l.y.top));
    ParkOne(c.mem, r.mem, l, saved, was, k);
  }

  /** rt_hw_context_switch up to the load of the next stack pointer: the caller is parked like all others. */
  method ParkCaller(l: Layout, c: Cpu, ghost saved: map<Tid, Context>, ghost was: Tid, ghost k: Context) returns (r: Cpu, ghost a0: Word)
    requires Sound(l) && |c.x| == 32 && k == ContextOf(c, k.pc) && was in l.cell && AllParked(c.mem, l, saved, was)
    requires c.x[A0] == l.cell[was] && l.low[was] + FRAME <= c.x[SP] <= l.high[was]
    ensures |r.x| == 32 && r == c.(x := r.x, mem := r.mem) && r.x[ZERO] == c.x[ZERO] && r.x[A1] == c.x[A1]
    ensures Peek(r.mem, l.y.flag) == Peek(c.mem, l.y.flag)
    ensures forall t :: t in l.cell ==> t in saved[was := AtCall(k, a0)] && Parked(r.mem, l, t, saved[was := AtCall(k, a0)][t])
  {
    ghost var base := c.x[SP] - FRAME;
    FramePlace(l, was, c.x[SP]);
    var d := SwitchHead(c, base);
    a0 := d.x[A0];
    SaveFromIs(d, 4, base);
    r := SaveFrom(d, 4);
    CallerSaved(l, c, d, r, base, k, a0);
    ParkOne(c.mem, r.mem, l, saved, was, AtCall(k, a0));
  }

  /** Writes that leave alone the kernel's variables and the frames of all threads but `current`. */
  ghost predicate Harmless(l: Layout, mem: map<Addr, Word>, current: Tid, writes: map<Addr, Word>) {
    && (forall a :: a in writes ==> a !in Variables(l))
    && (forall t, a :: t in l.cell && t != current && OnStack(l, t, a) && Within(a, Peek(mem, l.cell[t])) ==> a !in writes)
  }

  lemma HarmlessSpares(l: Layout, mem: map<Addr, Word>, current: Tid, writes: map<Addr, Word>)
    requires Harmless(l, mem, current, writes)
    ensures Spared(mem, mem + writes, l, current)
  {
  }

  lemma StaysHarmless(l: Layout, mem: map<Addr, Word>, mem': map<Addr, Word>, current: Tid, writes: map<Addr, Word>)
    requires Harmless(l, mem, current, writes) && Spared(mem, mem', l, current)
    ensures Harmless(l, mem', current, writes)
  {
    forall t | t in l.cell ensures Peek(mem', l.cell[t]) == Peek(mem, l.cell[t]) { assert l.cell[t] in Variables(l); }
  }

  class Machine {
    const l: Layout
    var cpu: Cpu
    var pc: Word
    var current: Tid
    ghost var saved: map<Tid, Context>

    ghost predicate Valid()
      reads this
    {
      && Sound(l) && |cpu.x| == 32 && cpu.x[ZERO] == 0 && current in l.cell
      && cpu.mscratch == l.y.top && Peek(cpu.mem, l.y.flag) == 0
      && AllParked(cpu.mem, l, saved, current)
    }

    ghost function Abs(): View
      requires |cpu.x| == 32
      reads this
    {
      View(ContextOf(cpu, pc), current, saved)
    }

    /** rt_hw_context_switch_to: the first thread starts; all threads were parked by rt_hw_stack_init. */
    constructor (l: Layout, boot: Cpu, first: Tid, ghost saved: map<Tid, Context>)
      requires Sound(l) && |boot.x| == 32 && boot.x[ZERO] == 0 && first in l.cell && boot.x[A0] == l.cell[first]
      requires boot.mscratch == l.y.top && Peek(boot.mem, l.y.flag) == 0
      requires forall t :: t in l.cell ==> t in saved && Parked(boot.mem, l, t, saved[t])
      ensures Valid() && this.l == l && first in saved && Abs() == View(saved[first], first, saved)
    {
      var c := Exec(Load(SP, 0, A0), boot);
      c := Exec(Load(A0, 8, SP), c);
      c := Exec(Csrw(Mstatus, A0), c);
      c := Restore(c, Peek(boot.mem, l.cell[first]), saved[first]);
      this.l, cpu, pc, current := l, c, c.mepc, first;
      this.saved := saved;
    }

    /** rt_hw_context_switch_interrupt. */
    method RequestSwitch(from: Word, to: Word)
      requires Sound(l)
      modifies this`cpu
      ensures cpu == old(cpu).(mem := cpu.mem)
      ensures Peek(cpu.mem, l.y.flag) == 1 && Peek(cpu.mem, l.y.to) == to
      ensures Peek(cpu.mem, l.y.from) == if Peek(old(cpu.mem), l.y.flag) == 0 then from else Peek(old(cpu.mem), l.y.from)
      ensures forall a {:trigger Peek(cpu.mem, a)} :: a != l.y.flag && a != l.y.from && a != l.y.to ==> Peek(cpu.mem, a) == Peek(old(cpu.mem), a)
    {
      if Peek(cpu.mem, l.y.flag) == 0 {
        cpu := cpu.(mem := cpu.mem[l.y.from := from]);
      }
      cpu := cpu.(mem := cpu.mem[l.y.to := to]);
      cpu := cpu.(mem := cpu.mem[l.y.flag := 1]);
    }

    /** The switches that rt_schedule requests during the interrupt: the first fixes `from`, the last `to`. */
    method RequestAll(calls: seq<Tid>)
      requires Sound(l) && current in l.cell && Peek(cpu.mem, l.y.flag) == 0 && forall t :: t in calls ==> t in l.cell
      modifies this`cpu, this`current
      ensures cpu == old(cpu).(mem := cpu.mem)
      ensures forall a {:trigger Peek(cpu.mem, a)} :: a != l.y.flag && a != l.y.from && a != l.y.to ==> Peek(cpu.mem, a) == Peek(old(cpu.mem), a)
      ensures calls == [] ==> Peek(cpu.mem, l.y.flag) == 0 && current == old(current)
      ensures calls != [] ==> current == calls[|calls| - 1] && Peek(cpu.mem, l.y.flag) == 1
      ensures calls != [] ==> Peek(cpu.mem, l.y.from) == l.cell[old(current)] && Peek(cpu.mem, l.y.to) == l.cell[current]
    {
      var i := 0;
      while i < |calls|
        invariant i <= |calls| && current in l.cell && cpu == old(cpu).(mem := cpu.mem)
        invariant forall a {:trigger Peek(cpu.mem, a)} :: a != l.y.flag && a != l.y.from && a != l.y.to ==> Peek(cpu.mem, a) == Peek(old(cpu.mem), a)
        invariant i == 0 ==> Peek(cpu.mem, l.y.flag) == 0 && current == old(current)
        invariant i > 0 ==> current == calls[i - 1] && Peek(cpu.mem, l.y.flag) == 1
        invariant i > 0 ==> Peek(cpu.mem, l.y.from) == l.cell[old(current)] && Peek(cpu.mem, l.y.to) == l.cell[current]
      {
        ghost var before := cpu.mem;
        assert calls[i] in calls;
        RequestSwitch(l.cell[current], l.cell[calls[i]]);
        forall a | a != l.y.flag && a != l.y.from && a != l.y.to ensures Peek(cpu.mem, a) == Peek(old(cpu.mem), a) {
          assert Peek(cpu.mem, a) == Peek(before, a);
        }
        current := calls[i];
        i := i + 1;
      }
    }

    /** After the handler: the flag chooses the exit. */
    method TrapExit(ghost k: Context, ghost was: Tid)
      requires Sound(l) && |cpu.x| == 32 && cpu.x[ZERO] == 0 && cpu.x[SP] == l.y.top - FRAME && cpu.mscratch == k.sp
      requires Holds(cpu.mem, l.y.top - FRAME, k.(sp := l.y.top)) && current in l.cell && was in l.cell
      requires AllParked(cpu.mem, l, saved, was)
      requires Peek(cpu.mem, l.y.flag) == 0 ==> current == was
      requires Peek(cpu.mem, l.y.flag) != 0 ==> Peek(cpu.mem, l.y.from) == l.cell[was] && Peek(cpu.mem, l.y.to) == l.cell[current]
      requires Peek(cpu.mem, l.y.flag) != 0 ==> l.low[was] + FRAME <= k.sp <= l.high[was]
      modifies this`cpu, this`pc, this`saved
      ensures Valid()
      ensures Peek(old(cpu.mem), l.y.flag) == 0 ==> ContextOf(cpu, pc) == k && saved == old(saved)
      ensures Peek(old(cpu.mem), l.y.flag) != 0 ==> saved == old(saved)[was := k] && current in saved && ContextOf(cpu, pc) == saved[current]
    {
      hide Holds, Parked;
      var c := Exec(Li(T0, l.y.flag), cpu);
      c := Exec(Load(T1, 0, T0), c);
      if c.x[T1] == 0 {
        cpu := InterruptExit(c, l.y.top - FRAME, k.(sp := l.y.top));
      } else {
        SwitchExit(c, k, was);
      }
      pc := cpu.mepc;
    }

    /** With the flag set: the interrupted thread is parked, and the next one resumed. */
    method SwitchExit(c0: Cpu, ghost k: Context, ghost was: Tid)
      requires Sound(l) && |c0.x| == 32 && c0.x[ZERO] == 0 && c0.x[T0] == l.y.flag && c0.x[SP] == l.y.top - FRAME && c0.mscratch == k.sp
      requires Holds(c0.mem, l.y.top - FRAME, k.(sp := l.y.top)) && current in l.cell && was in l.cell && AllParked(c0.mem, l, saved, was)
      requires Peek(c0.mem, l.y.from) == l.cell[was] && Peek(c0.mem, l.y.to) == l.cell[current] && l.low[was] + FRAME <= k.sp <= l.high[was]
      modifies this`cpu, this`saved
      ensures saved == old(saved)[was := k] && current in saved && |cpu.x| == 32 && ContextOf(cpu, cpu.mepc) == saved[current]
      ensures cpu.mscratch == l.y.top && cpu.x[ZERO] == 0 && Peek(cpu.mem, l.y.flag) == 0 && AllParked(cpu.mem, l, saved, current)
    {
      hide Holds;
      var c := ParkFrame(l, c0, saved, was, k);
      saved := saved[was := k];
      c := TakeNext(l.y, c, l.cell[current]);
      cpu := Restore(c, Peek(c.mem, l.cell[current]), saved[current]);
    }

    /** During a trap: the frame of the interrupted thread `was` is on the system stack, its stack pointer in mscratch. */
    ghost predicate InTrap(k: Context, was: Tid)
      reads this
    {
      && Sound(l) && |cpu.x| == 32 && cpu.x[SP] == l.y.top - FRAME && cpu.mscratch == k.sp
      && Holds(cpu.mem, l.y.top - FRAME, k.(sp := l.y.top)) && was in l.cell
      && AllParked(cpu.mem, l, saved, was)
    }

    method Enter(status: Word, cause: Word, value: Word)
      requires Valid()
      modifies this`cpu
      ensures InTrap(old(ContextOf(cpu, pc)), current) && Peek(cpu.mem, l.y.flag) == 0 && Spared(old(cpu.mem), cpu.mem, l, current)
    {
      var c := TrapSave(cpu.(mepc := pc, mstatus := status, mcause := cause, mtval := value));
      SystemFrameSpares(cpu.mem, c.mem, l, current);
      AllStayParked(cpu.mem, c.mem, l, saved, current);
      assert (l.y.flag as Addr) in Variables(l);
      cpu := c;
    }

    /** The handler uses the registers as it likes, and leaves alone the kernel's variables and the saved frames. */
    method Handle(regs: seq<Word>, writes: map<Addr, Word>, ghost k: Context, ghost was: Tid)
      requires InTrap(k, was) && |regs| == 32 && regs[ZERO] == 0 && Peek(cpu.mem, l.y.flag) == 0
      requires Harmless(l, cpu.mem, was, writes) && forall a :: a in writes ==> !OnSystemStack(l, a)
      modifies this`cpu
      ensures InTrap(k, was) && cpu.x[ZERO] == 0 && Peek(cpu.mem, l.y.flag) == 0
    {
      ghost var m := cpu.mem;
      cpu := cpu.(x := regs[SP := cpu.x[SP]], mem := cpu.mem + writes);
      assert (l.y.flag as Addr) in Variables(l);
      HarmlessSpares(l, m, was, writes);
      AllStayParked(m, cpu.mem, l, saved, was);
      HoldsSame(m, cpu.mem, l.y.top - FRAME, k.(sp := l.y.top));
    }

    /** rt_schedule is called for the threads `calls`, and trap_entry leaves. */
    method Leave(calls: seq<Tid>, ghost k: Context)
      requires InTrap(k, current) && cpu.x[ZERO] == 0 && Peek(cpu.mem, l.y.flag) == 0 && forall t :: t in calls ==> t in l.cell
      requires calls != [] ==> l.low[current] + FRAME <= k.sp <= l.high[current]
      modifies this
      ensures Valid()
      ensures calls == [] ==> Abs() == View(k, old(current), old(saved))
      ensures calls != [] ==> saved == old(saved)[old(current) := k] && current == calls[|calls| - 1] && current in saved
      ensures calls != [] ==> ContextOf(cpu, pc) == saved[current]
    {
      ghost var was, n := current, cpu.mem;
      RequestAll(calls);
      RequestsSpare(n, cpu.mem, l, saved, was);
      SwitchVariablesApart(l);
      HoldsSame(n, cpu.mem, l.y.top - FRAME, k.(sp := l.y.top));
      TrapExit(k, was);
    }

    /** An interrupt: the hart enters trap_entry, the handler runs on the system stack, rt_schedule is called for the threads
        `calls`, and trap_entry leaves again. */
    method Trap(calls: seq<Tid>, status: Word, cause: Word, value: Word, regs: seq<Word>, writes: map<Addr, Word>)
      requires Valid() && (forall t :: t in calls ==> t in l.cell) && |regs| == 32 && regs[ZERO] == 0
      requires Harmless(l, cpu.mem, current, writes) && forall a :: a in writes ==> !OnSystemStack(l, a)
      requires calls != [] ==> l.low[current] + FRAME <= cpu.x[SP] <= l.high[current]
      modifies this
      ensures Valid() && Abs() == Step(old(Abs()), Event.Trap(calls))
    {
      ghost var k, was, m := ContextOf(cpu, pc), current, cpu.mem;
      Enter(status, cause, value);
      StaysHarmless(l, m, cpu.mem, was, writes);
      Handle(regs, writes, k, was);
      Leave(calls, k);
    }

    /** rt_hw_context_switch, called with the addresses of the two `sp` fields. */
    method Switch(to: Tid) returns (ghost a0: Word)
      requires Valid() && to in l.cell && to != current && l.low[current] + FRAME <= cpu.x[SP] <= l.high[current]
      requires cpu.x[A0] == l.cell[current] && cpu.x[A1] == l.cell[to]
      modifies this
      ensures Valid() && Abs() == Step(old(Abs()), Event.Switch(to, a0))
    {
      hide Holds;
      ghost var k, was := ContextOf(cpu, pc), current;
      var c;
      c, a0 := ParkCaller(l, cpu, saved, was, k);
      saved := saved[was := AtCall(k, a0)];
      current := to;
      c := Exec(Load(SP, 0, A1), c);
      cpu := Restore(c, Peek(c.mem, l.cell[to]), saved[to]);
      pc := cpu.mepc;
    }

    /** The current thread computes: it leaves alone the kernel's variables and the frames of others. */
    method Compute(pc': Word, regs: seq<Word>, writes: map<Addr, Word>)
      requires Valid() && |regs| == 32 && regs[ZERO] == 0
      requires Harmless(l, cpu.mem, current, writes)
      modifies this`cpu, this`pc
      ensures Valid() && Abs() == Step(old(Abs()), Event.Compute(Context(pc', regs[SP], regs[RA], regs[4..])))
    {
      ghost var m := cpu.mem;
      cpu := cpu.(x := regs, mem := cpu.mem + writes);
      assert (l.y.flag as Addr) in Variables(l);
      HarmlessSpares(l, m, current, writes);
      AllStayParked(m, cpu.mem, l, saved, current);
      pc := pc';
    }
  }

  /** What rt_hw_context_switch leaves in the caller's frame: `d` is the state after the head, `e` after the registers. */
  lemma CallerSaved(l: Layout, c: Cpu, d: Cpu, e: Cpu, base: Word, k: Context, a0: Word)
    requires |c.x| == |d.x| == 32 && base + FRAME < WORDS && c.x[SP] == base + FRAME && k == ContextOf(c, k.pc) && d.x[A0] == a0
    requires d.mem == c.mem[c.x[A0] := base][base := c.x[RA]][base + 4 := c.x[RA]][base + 8 := a0]
    requires forall i :: 0 <= i < 32 && i != SP && i != A0 ==> d.x[i] == c.x[i]
    requires forall i {:trigger Slot(e.mem, base, i)} :: 4 <= i < 32 ==> Slot(e.mem, base, i) == d.x[i]
    requires forall i {:trigger Slot(e.mem, base, i)} :: 0 <= i < 4 ==> Slot(e.mem, base, i) == Slot(d.mem, base, i)
    requires SameOutside(d.mem, e.mem, base) && !Within(c.x[A0], base)
    ensures Holds(e.mem, base, AtCall(k, a0)) && Peek(e.mem, c.x[A0]) == base
    ensures forall a {:trigger Peek(e.mem, a)} :: !Within(a, base) && a != c.x[A0] ==> Peek(e.mem, a) == Peek(c.mem, a)
  {
    var h := AtCall(k, a0);
    forall i | 4 <= i < 32 ensures Slot(e.mem, base, i) == h.x[i - 4] { assert Slot(e.mem, base, i) == d.x[i]; }
    assert Slot(e.mem, base, 0) == Slot(d.mem, base, 0) && Slot(e.mem, base, 1) == Slot(d.mem, base, 1);
    forall a | !Within(a, base) && a != c.x[A0] ensures Peek(e.mem, a) == Peek(c.mem, a) { assert Peek(e.mem, a) == Peek(d.mem, a); }
  }

  /** rt_hw_stack_init: the frame with which a new thread enters `entry`, and returns to `exit`. */
  method StackInit(mem: map<Addr, Word>, entry: Word, parameter: Word, stack: nat, exit: Word) returns (r: map<Addr, Word>, sp: int)
    requires stack + 4 < WORDS
    ensures sp + FRAME <= stack + 4 < sp + FRAME + 4 && sp % 4 == 0
    ensures Holds(r, sp, Context(entry, if sp + FRAME < 0 then 0 else sp + FRAME, exit, seq(28, i => if i == A0 - 4 then parameter else 0xdead_beef)))
    ensures SameOutside(mem, r, sp)
  {
    sp := (stack + 4) / 4 * 4 - FRAME;
    r := mem;
    for i := 0 to 32
      invariant forall j {:trigger Slot(r, sp, j)} :: 0 <= j < i ==> Slot(r, sp, j) == 0xdead_beef
      invariant SameOutside(mem, r, sp)
    {
      ghost var before := r;
      r := r[sp + 4 * i := 0xdead_beef];
      forall j | 0 <= j <= i ensures Slot(r, sp, j) == 0xdead_beef { if j < i { assert Slot(before, sp, j) == 0xdead_beef; } }
      forall a | !Within(a, sp) ensures Peek(r, a) == Peek(mem, a) { assert Peek(before, a) == Peek(mem, a); }
    }
    ghost var full := r;
    r := r[sp + 4 := exit];
    r := r[sp + 4 * A0 := parameter];
    r := r[sp := entry];
    r := r[sp + 8 := 0x7880];
    forall i | 4 <= i < 32 ensures Slot(r, sp, i) == if i == A0 then parameter else 0xdead_beef {
      assert Slot(full, sp, i) == 0xdead_beef;
    }
    forall a | !Within(a, sp) ensures Peek(r, a) == Peek(mem, a) { assert Peek(full, a) == Peek(mem, a); }
  }

  // ----- whole runs -----

  function Run(v: View, es: seq<Event>): View
    decreases |es|
  {
    if es == [] then v else Run(Step(v, es[0]), es[1..])
  }

  /** During `es` thread `t` never runs. */
  ghost predicate Away(v: View, es: seq<Event>, t: Tid)
    decreases |es|
  {
    v.current != t && (es == [] || Away(Step(v, es[0]), es[1..], t))
  }

  lemma {:induction false} KeepsContext(v: View, es: seq<Event>, t: Tid)
    requires t in v.saved && Away(v, es, t)
    ensures t in Run(v, es).saved && Run(v, es).saved[t] == v.saved[t] && Run(v, es).current != t
    decreases |es|
  {
    if es != [] { KeepsContext(Step(v, es[0]), es[1..], t); }
  }

  /** Event `e` takes the processor away from the current thread `t`; others run; then an event gives it back. The thread
      continues at the pc and with the registers it was interrupted with, or, after a voluntary switch, behind
      the call with all registers but a0. */
  lemma ResumesAsItWas(v: View, e: Event, es: seq<Event>, f: Event)
    requires Step(v, e).current != v.current && Away(Step(v, e), es, v.current)
    requires Step(Run(Step(v, e), es), f).current == v.current
    ensures Step(Run(Step(v, e), es), f).running == if e.Switch? then AtCall(v.running, e.a0) else v.running
  {
    KeepsContext(Step(v, e), es, v.current);
  }

  lemma SwitchVariablesApart(l: Layout)
    requires Sound(l)
    ensures !OnSystemStack(l, l.y.flag) && !OnSystemStack(l, l.y.from) && !OnSystemStack(l, l.y.to)
  {
    assert (l.y.flag as Addr) in Variables(l) && (l.y.from as Addr) in Variables(l) && (l.y.to as Addr) in Variables(l);
  }

  lemma SystemFrameSpares(mem: map<Addr, Word>, mem': map<Addr, Word>, l: Layout, current: Tid)
    requires Sound(l) && SameOutside(mem, mem', l.y.top - FRAME)
    ensures Spared(mem, mem', l, current)
  {
    forall a | a in Variables(l) ensures Peek(mem', a) == Peek(mem, a) { assert !OnSystemStack(l, a); }
    forall t, a | OnStack(l, t, a) ensures Peek(mem', a) == Peek(mem, a) { assert !OnSystemStack(l, a); }
  }

  /** The three switch variables are on no stack and no thread's `sp` field. */
  lemma RequestsSpare(mem: map<Addr, Word>, mem': map<Addr, Word>, l: Layout, saved: map<Tid, Context>, current: Tid)
    requires Sound(l) && AllParked(mem, l, saved, current)
    requires forall a {:trigger Peek(mem', a)} :: a != l.y.flag && a != l.y.from && a != l.y.to ==> Peek(mem', a) == Peek(mem, a)
    ensures AllParked(mem', l, saved, current)
  {
    forall t | t in l.cell && t != current ensures Parked(mem', l, t, saved[t]) {
      forall a | OnStack(l, t, a) ensures Peek(mem', a) == Peek(mem, a) { assert a !in Variables(l); }
      StaysParked(mem, mem', l, t, saved[t]);
    }
  }

  /** Once its frame has been moved, the interrupted thread is parked as well. */
  lemma ParkOne(mem: map<Addr, Word>, mem': map<Addr, Word>, l: Layout, saved: map<Tid, Context>, was: Tid, k: Context)
    requires Sound(l) && AllParked(mem, l, saved, was) && was in l.cell && l.low[was] + FRAME <= k.sp <= l.high[was]
    requires Holds(mem', k.sp - FRAME, k) && Peek(mem', l.cell[was]) == k.sp - FRAME
    requires forall a {:trigger Peek(mem', a)} :: !Within(a, k.sp - FRAME) && a != l.y.flag && a != l.cell[was] ==> Peek(mem', a) == Peek(mem, a)
    ensures forall t :: t in l.cell ==> t in saved[was := k] && Parked(mem', l, t, saved[was := k][t])
  {
    forall t | t in l.cell && t != was ensures Parked(mem', l, t, saved[t]) {
      assert l.cell[t] in Variables(l) && l.cell[was] in Variables(l);
      assert Within(l.cell[t], k.sp - FRAME) ==> OnStack(l, was, l.cell[t]);
      forall a | OnStack(l, t, a) && Within(a, Peek(mem, l.cell[t])) ensures Peek(mem', a) == Peek(mem, a) {
        assert Within(a, k.sp - FRAME) ==> OnStack(l, was, a);
      }
      StaysParked(mem, mem', l, t, saved[t]);
    }
  }
}
