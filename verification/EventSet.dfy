/** The event object of src/ipc.c: 32 flags, and threads waiting for all or any of some of them. A region with
    interrupts disabled is one step. */
module EventSet {
  import opened Basics
  import opened RtList
  import opened WaitQueue
  import opened ThreadLists

  type Flag = n: nat | n < 32

  /** A 32-bit word, as the set of its bits: `&`, `|` and `& ~` are intersection, union and difference. */
  type Bits = set<Flag>

  /** RT_EVENT_FLAG_AND or RT_EVENT_FLAG_OR, and RT_EVENT_FLAG_CLEAR. With both of the former the source takes AND;
      with neither it stops at an assertion. */
  datatype Mode = All | Any

  datatype Wish = Wish(want: Bits, mode: Mode, clear: bool)

  /** A waiting thread is in the queue; a woken or failing one has left it but has not run yet. */
  datatype Phase = Idle | Waiting(wish: Wish, left: int, since: nat) | Woken(wish: Wish, got: Bits) | Failing(error: Result)

  datatype Result = Received(got: Bits) | ETIMEOUT | ERROR

  datatype State = State(policy: Policy, flags: Bits, now: nat, waiters: seq<Tid>, prio: map<Tid, nat>, phase: map<Tid, Phase>, result: map<Tid, Result>)

  datatype Event = Recv(t: Tid, wish: Wish, timeout: int) | Send(bits: Bits) | Resume(t: Tid) | Expire(t: Tid) | SetPriority(t: Tid, p: nat) | Reset | Tick

  predicate Satisfied(w: Wish, flags: Bits) {
    match w.mode
    case All => w.want <= flags
    case Any => w.want * flags != {}
  }

  /** What a thread gets: for a satisfied AND this is everything it wants. */
  function Got(w: Wish, flags: Bits): Bits {
    w.want * flags
  }

  function Cleared(w: Wish, flags: Bits): Bits {
    if w.clear then flags - Got(w, flags) else flags
  }

  ghost predicate Waits(phase: map<Tid, Phase>, q: seq<Tid>) {
    forall x :: x in q ==> x in phase && phase[x].Waiting?
  }

  ghost predicate Known(s: State) {
    s.phase.Keys <= s.prio.Keys && Waits(s.phase, s.waiters)
  }

  datatype Outcome = Outcome(flags: Bits, phase: map<Tid, Phase>, waiters: seq<Tid>)

  /** The walk of rt_event_send over the waiting threads `q`: each satisfied one is woken and may clear its flags
      before the next one is looked at. */
  function Walk(flags: Bits, phase: map<Tid, Phase>, q: seq<Tid>): (r: Outcome)
    requires Waits(phase, q) && Distinct(q)
    ensures forall x :: x in r.waiters ==> x in q
    decreases |q|
  {
    if q == [] then Outcome(flags, phase, [])
    else
      var w := phase[q[0]].wish;
      if Satisfied(w, flags) then
        assert q[0] !in q[1..];
        Walk(Cleared(w, flags), phase[q[0] := Woken(w, Got(w, flags))], q[1..])
      else
        var r := Walk(flags, phase, q[1..]);
        r.(waiters := [q[0]] + r.waiters)
  }

  function SendBits(s: State, bits: Bits): State
    requires Known(s) && Distinct(s.waiters)
  {
    if bits == {} then s
    else
      var r := Walk(s.flags + bits, s.phase, s.waiters);
      s.(flags := r.flags, phase := r.phase, waiters := r.waiters)
  }

  /** rt_event_recv up to the point where the thread is suspended or returns. */
  function RecvBy(s: State, t: Tid, w: Wish, timeout: int): State
    requires Known(s) && t in s.phase
  {
    if w.want == {} then s.(result := s.result[t := ERROR])
    else if Satisfied(w, s.flags) then
      s.(flags := if w.clear then s.flags - w.want else s.flags, result := s.result[t := Received(w.want * s.flags)])
    else if timeout == 0 then s.(result := s.result[t := ETIMEOUT])
    else s.(waiters := Enqueue(s.policy, s.prio, s.waiters, t), phase := s.phase[t := Waiting(w, timeout, s.now)])
  }

  /** rt_event_recv after rt_schedule has returned. */
  function RunOn(s: State, t: Tid): State
    requires t in s.phase
  {
    match s.phase[t]
    case Woken(_, got) => s.(phase := s.phase[t := Idle], result := s.result[t := Received(got)])
    case Failing(error) => s.(phase := s.phase[t := Idle], result := s.result[t := error])
    case _ => s
  }

  /** rt_thread_timeout. */
  function TimeOut(s: State, t: Tid): State
    requires Known(s) && t in s.phase
  {
    if s.phase[t].Waiting? && 0 < s.phase[t].left <= s.now - s.phase[t].since then
      s.(waiters := Without(s.waiters, t), phase := s.phase[t := Failing(ETIMEOUT)])
    else s
  }

  /** rt_event_control with RT_IPC_CMD_RESET. */
  function ResetAll(s: State): State {
    s.(flags := {}, waiters := [], phase := SetAll(s.phase, s.waiters, Failing(ERROR)))
  }

  /** An event that does not apply to the thread's phase does nothing. */
  function Step(s: State, e: Event): State
    requires Known(s) && Distinct(s.waiters)
  {
    match e
    case Recv(t, w, timeout) => if t in s.phase && s.phase[t].Idle? then RecvBy(s, t, w, timeout) else s
    case Send(bits) => SendBits(s, bits)
    case Resume(t) => if t in s.phase then RunOn(s, t) else s
    case Expire(t) => if t in s.phase then TimeOut(s, t) else s
    case SetPriority(t, p) => s.(prio := s.prio[t := p])
    case Reset => ResetAll(s)
    case Tick => s.(now := s.now + 1)
  }

  // ----- the flags -----

  /** A wish that is not satisfied stays so when flags are cleared. */
  lemma ClearedLess(w: Wish, v: Wish, flags: Bits)
    requires !Satisfied(w, flags)
    ensures !Satisfied(w, Cleared(v, flags))
  {
    assert w.want * Cleared(v, flags) <= w.want * flags;
  }

  /** What a thread woken by a send has received: all of an AND, a non-empty part of an OR. */
  ghost predicate Served(w: Wish, got: Bits) {
    got <= w.want && (if w.mode == All then got == w.want else got != {})
  }

  // ----- one send -----

  ghost predicate Hungry(phase: map<Tid, Phase>, q: seq<Tid>, flags: Bits)
    requires Waits(phase, q)
  {
    forall x :: x in q ==> !Satisfied(phase[x].wish, flags)
  }

  /** After the walk over `q` that started with `flags`: who is still waiting, unchanged and unsatisfied; who was woken,
      and with what. */
  ghost predicate Walked(flags: Bits, phase: map<Tid, Phase>, q: seq<Tid>, r: Outcome)
    requires Waits(phase, q)
  {
    && r.phase.Keys == phase.Keys && Distinct(r.waiters) && r.flags <= flags
    && (forall x :: x in phase && x !in q ==> r.phase[x] == phase[x])
    && (forall x :: x in r.waiters ==> x in q && r.phase[x] == phase[x] && !Satisfied(phase[x].wish, r.flags))
    && (forall x :: x in q && x !in r.waiters ==>
          r.phase[x].Woken? && r.phase[x].wish == phase[x].wish && Served(r.phase[x].wish, r.phase[x].got) && r.phase[x].got <= flags)
  }

  /** No flag goes to two clearing threads, nor stays set after one has taken it. */
  ghost predicate Shared(q: seq<Tid>, r: Outcome)
    requires forall x :: x in q ==> x in r.phase
  {
    && (forall x :: x in q && r.phase[x].Woken? && r.phase[x].wish.clear ==> r.phase[x].got !! r.flags)
    && (forall x, y :: x in q && y in q && x != y && r.phase[x].Woken? && r.phase[y].Woken? && r.phase[x].wish.clear && r.phase[y].wish.clear ==>
          r.phase[x].got !! r.phase[y].got)
  }

  lemma WalkSkips(flags: Bits, phase: map<Tid, Phase>, q: seq<Tid>)
    requires q != [] && Waits(phase, q) && Distinct(q) && !Satisfied(phase[q[0]].wish, flags)
    requires Walked(flags, phase, q[1..], Walk(flags, phase, q[1..])) && Shared(q[1..], Walk(flags, phase, q[1..]))
    requires !Satisfied(phase[q[0]].wish, Walk(flags, phase, q[1..]).flags)
    ensures Walked(flags, phase, q, Walk(flags, phase, q)) && Shared(q, Walk(flags, phase, q))
  {
    var r := Walk(flags, phase, q[1..]);
    assert q[0] !in q[1..];
    DistinctCons(q[0], r.waiters);
    assert q == [q[0]] + q[1..];
  }

  /** Flags only ever go while a send walks along, so whoever was passed by stays unsatisfied. */
  lemma {:induction false} WalkShrinks(w: Wish, flags: Bits, phase: map<Tid, Phase>, q: seq<Tid>)
    requires Waits(phase, q) && Distinct(q) && !Satisfied(w, flags)
    ensures !Satisfied(w, Walk(flags, phase, q).flags)
    decreases |q|
  {
    if q != [] {
      var v := phase[q[0]].wish;
      if Satisfied(v, flags) {
        assert q[0] !in q[1..];
        ClearedLess(w, v, flags);
        WalkShrinks(w, Cleared(v, flags), phase[q[0] := Woken(v, Got(v, flags))], q[1..]);
      } else {
        WalkShrinks(w, flags, phase, q[1..]);
      }
    }
  }

  /** The thread at the front of `q` is served and the walk over the rest ends in `r`. */
  ghost predicate ServesFirst(flags: Bits, phase: map<Tid, Phase>, q: seq<Tid>, r: Outcome) {
    && q != [] && Waits(phase, q) && Distinct(q) && Satisfied(phase[q[0]].wish, flags)
    && var w := phase[q[0]].wish;
       var phase' := phase[q[0] := Woken(w, Got(w, flags))];
       && Waits(phase', q[1..])
       && Walked(Cleared(w, flags), phase', q[1..], r)
  }

  lemma WalkedOn(flags: Bits, phase: map<Tid, Phase>, q: seq<Tid>, r: Outcome)
    requires ServesFirst(flags, phase, q, r)
    ensures Walked(flags, phase, q, r) && q[0] !in r.waiters
  {
    assert q[0] !in q[1..] && q == [q[0]] + q[1..];
    var w := phase[q[0]].wish;
    assert Cleared(w, flags) <= flags;
  }

  lemma SharedOn(flags: Bits, phase: map<Tid, Phase>, q: seq<Tid>, r: Outcome)
    requires ServesFirst(flags, phase, q, r) && Shared(q[1..], r)
    ensures (forall x :: x in q ==> x in r.phase) && Shared(q, r)
  {
    assert q[0] !in q[1..] && q == [q[0]] + q[1..];
    var w := phase[q[0]].wish;
    var f := Cleared(w, flags);
    assert r.phase[q[0]] == Woken(w, Got(w, flags));
    if w.clear {
      assert Got(w, flags) !! f;
      forall x | x in q[1..] && r.phase[x].Woken? ensures r.phase[x].got <= f {
        assert x !in r.waiters;
      }
    }
  }

  lemma {:induction false} WalkIs(flags: Bits, phase: map<Tid, Phase>, q: seq<Tid>)
    requires Waits(phase, q) && Distinct(q)
    ensures Walked(flags, phase, q, Walk(flags, phase, q)) && Shared(q, Walk(flags, phase, q))
    decreases |q|
  {
    if q == [] {
    } else {
      assert q[0] !in q[1..];
      var w := phase[q[0]].wish;
      if Satisfied(w, flags) {
        var phase' := phase[q[0] := Woken(w, Got(w, flags))];
        WalkIs(Cleared(w, flags), phase', q[1..]);
        WalkedOn(flags, phase, q, Walk(flags, phase, q));
        SharedOn(flags, phase, q, Walk(flags, phase, q));
      } else {
        WalkIs(flags, phase, q[1..]);
        WalkShrinks(w, flags, phase, q[1..]);
        WalkSkips(flags, phase, q);
      }
    }
  }

  // ----- what every step keeps -----

  /** Between calls nobody waits for a condition that the flags satisfy, and whoever was woken got what it asked for. */
  ghost predicate Inv(s: State) {
    && Known(s) && Distinct(s.waiters)
    && (forall x :: x in s.phase && s.phase[x].Waiting? ==> x in s.waiters)
    && Hungry(s.phase, s.waiters, s.flags)
    && (forall x :: x in s.phase && s.phase[x].Woken? ==> Served(s.phase[x].wish, s.phase[x].got))
  }

  lemma SendKeeps(s: State, bits: Bits)
    requires Inv(s)
    ensures Inv(SendBits(s, bits))
  {
    if bits != {} { WalkIs(s.flags + bits, s.phase, s.waiters); }
  }

  lemma RecvKeeps(s: State, t: Tid, w: Wish, timeout: int)
    requires Inv(s) && t in s.phase && s.phase[t].Idle?
    ensures Inv(RecvBy(s, t, w, timeout))
  {
    if w.want != {} && Satisfied(w, s.flags) {
      assert RecvBy(s, t, w, timeout).flags == Cleared(w, s.flags);
      forall x | x in s.waiters ensures !Satisfied(s.phase[x].wish, Cleared(w, s.flags)) { ClearedLess(s.phase[x].wish, w, s.flags); }
    } else if w.want != {} && timeout != 0 {
      EnqueueDistinct(s.policy, s.prio, s.waiters, t);
    }
  }

  lemma TimeOutKeeps(s: State, t: Tid)
    requires Inv(s) && t in s.phase
    ensures Inv(TimeOut(s, t))
  {
    WithoutDistinct(s.waiters, t);
  }

  lemma StepKeeps(s: State, e: Event)
    requires Inv(s)
    ensures Inv(Step(s, e))
  {
    match e
    case Recv(t, w, timeout) => if t in s.phase && s.phase[t].Idle? { RecvKeeps(s, t, w, timeout); }
    case Send(bits) => SendKeeps(s, bits);
    case Resume(t) =>
    case Expire(t) => if t in s.phase { TimeOutKeeps(s, t); }
    case SetPriority(t, p) =>
    case Reset =>
    case Tick =>
  }

  // ----- whole runs -----

  function Run(s: State, es: seq<Event>): (r: State)
    requires Inv(s)
    decreases |es|
  {
    if es == [] then s else
      StepKeeps(s, es[0]);
      Run(Step(s, es[0]), es[1..])
  }

  ghost predicate Fresh(s: State) {
    s.flags == {} && s.waiters == [] && s.phase.Keys <= s.prio.Keys && forall x :: x in s.phase ==> s.phase[x].Idle?
  }

  lemma {:induction false} RunKeeps(s: State, es: seq<Event>)
    requires Inv(s)
    ensures Inv(Run(s, es))
    decreases |es|
  {
    if es != [] {
      StepKeeps(s, es[0]);
      RunKeeps(Step(s, es[0]), es[1..]);
    }
  }

  /** In every run no thread waits for a condition that the flags satisfy, and a thread that was woken has received
      all flags of an AND or some of an OR. */
  lemma NobodyWaitsInVain(s: State, es: seq<Event>, x: Tid)
    requires Fresh(s)
    ensures Inv(s)
    ensures var r := Run(s, es);
      && (x in r.waiters ==> x in r.phase && r.phase[x].Waiting? && !Satisfied(r.phase[x].wish, r.flags))
      && (x in r.phase && r.phase[x].Woken? ==> Served(r.phase[x].wish, r.phase[x].got))
  {
    RunKeeps(s, es);
  }

  /** One send: whoever could not be satisfied keeps waiting; flags handed to clearing threads go to one each. */
  lemma SendServes(s: State, bits: Bits)
    requires Inv(s) && bits != {}
    ensures var r := SendBits(s, bits);
      && Walked(s.flags + bits, s.phase, s.waiters, Outcome(r.flags, r.phase, r.waiters))
      && Shared(s.waiters, Outcome(r.flags, r.phase, r.waiters))
  {
    WalkIs(s.flags + bits, s.phase, s.waiters);
  }

  // ----- the event object itself -----

  lemma WalkStep(flags: Bits, phase: map<Tid, Phase>, kept: seq<Tid>, q: seq<Tid>)
    requires q != [] && Waits(phase, q) && Distinct(q) && !Satisfied(phase[q[0]].wish, flags)
    ensures kept + Walk(flags, phase, q).waiters == (kept + [q[0]]) + Walk(flags, phase, q[1..]).waiters
    ensures Walk(flags, phase, q).flags == Walk(flags, phase, q[1..]).flags && Walk(flags, phase, q).phase == Walk(flags, phase, q[1..]).phase
  {
  }

  lemma WakeStep(flags: Bits, phase: map<Tid, Phase>, q: seq<Tid>)
    requires q != [] && Waits(phase, q) && Distinct(q) && Satisfied(phase[q[0]].wish, flags)
    ensures var w := phase[q[0]].wish;
      var m := phase[q[0] := Woken(w, Got(w, flags))];
      Waits(m, q[1..]) && Distinct(q[1..]) && Walk(flags, phase, q) == Walk(Cleared(w, flags), m, q[1..])
  {
    assert q[0] !in q[1..];
  }

  lemma DistinctFrom(q: seq<Tid>, k: nat)
    requires Distinct(q) && k <= |q|
    ensures Distinct(q[k..])
  {
  }

  lemma WalkEnds(flags: Bits, phase: map<Tid, Phase>)
    ensures Walk(flags, phase, []) == Outcome(flags, phase, [])
  {
  }

  /** struct rt_event with the threads that use it. */
  class RtEvent {
    const policy: Policy
    /** The list suspend_thread, and the nodes of the threads. */
    const wait: ListTable<Side>
    var flags: Bits
    var prio: map<Tid, nat>
    var phase: map<Tid, Phase>
    var result: map<Tid, Result>
    var now: nat

    ghost function View(): State
      reads this, wait
    {
      State(policy, flags, now, wait.Of(Takers), prio, phase, result)
    }

    /** The waiting threads are linked in a ring. */
    ghost predicate Linked()
      reads this, wait, wait.Cells()
    {
      wait.Valid() && wait.list.Keys == {Takers} && Distinct(Waiting()) && phase.Keys <= wait.node.Keys && Known(View())
    }

    /** rt_event_init. */
    constructor (policy: Policy, prio: map<Tid, nat>)
      ensures Linked() && Inv(View()) && Fresh(View()) && fresh(wait) && fresh(wait.Cells())
      ensures this.policy == policy && this.prio == prio && phase.Keys == prio.Keys
    {
      hide ListTable<Side>.Valid;
      this.policy, this.prio := policy, prio;
      wait := new ListTable({Takers}, prio.Keys);
      flags, phase, result, now := {}, map t | t in prio :: Idle, map[], 0;
    }

    lemma Outside(t: Tid)
      requires Linked() && t in phase && !phase[t].Waiting?
      ensures Unlisted(wait.list, t)
    {
      hide ListTable<Side>.Valid;
    }

    ghost function Waiting(): seq<Tid>
      reads this, wait
    {
      wait.Of(Takers)
    }

    /** The node `at` is that of the thread with `k` threads in front of it, or the head behind all of them. */
    ghost predicate Place(at: ListNode, k: nat)
      requires wait.Valid() && Takers in wait.list
      reads this, wait, wait.Cells()
    {
      k <= |wait.list[Takers]| && at == At(wait.head[Takers], wait.Row(wait.list[Takers]), k)
    }

    /** What the walk of rt_event_send leaves, when it has passed by `k` waiting threads so far. */
    ghost function WalkFrom(k: nat): Outcome
      requires Linked() && k <= |Waiting()|
      reads this, wait, wait.Cells()
    {
      var r := Walk(flags, phase, Waiting()[k..]);
      r.(waiters := Waiting()[..k] + r.waiters)
    }

    /** The thread at place `k` is resumed and gets its flags. */
    method Wake(t: Tid, ghost k: nat)
      requires Linked() && k < |Waiting()| && t == Waiting()[k] && Satisfied(phase[t].wish, flags)
      modifies this`flags, this`phase, wait, wait.Cells()
      ensures Linked() && Waiting() == Removed(old(Waiting()), k) && WalkFrom(k) == old(WalkFrom(k))
    {
      hide ListTable<Side>.Valid, Walk, Satisfied, Got, Cleared;
      ghost var q, rest := Waiting(), Waiting()[k..];
      WakeStep(flags, phase, rest);
      OffAllIs(wait.list, t, Takers);
      WithoutAt(q, k);
      wait.TakeOut(t);
      var w := phase[t].wish;
      phase := phase[t := Woken(w, Got(w, flags))];
      flags := Cleared(w, flags);
      assert Waiting()[k..] == rest[1..] && Waiting()[..k] == q[..k];
    }

    /** A turn of the loop in rt_event_send. */
    method Visit(at: ListNode, ghost k: nat) returns (next: ListNode, ghost j: nat)
      requires Linked() && k < |Waiting()| && Place(at, k)
      modifies this`flags, this`phase, wait, wait.Cells()
      ensures Linked() && Place(next, j) && WalkFrom(j) == old(WalkFrom(k)) && |Waiting()| - j < old(|Waiting()|) - k
    {
      hide ListTable<Side>.Valid, Walk, Distinct;
      wait.Along(Takers, k + 1);
      ghost var q := Waiting();
      var t := wait.entry[at];
      next, j := at.next, k;
      if Satisfied(phase[t].wish, flags) {
        wait.RowRemoved(q, k);
        Wake(t, k);
      } else {
        assert Distinct(q[k..]) by { DistinctFrom(q, k); }
        WalkStep(flags, phase, q[..k], q[k..]);
        assert q[..k + 1] == q[..k] + [t];
        j := k + 1;
      }
    }

    /** The loop of rt_event_send over the ring of waiting threads. */
    method WalkRing() returns (ghost k: nat)
      requires Linked()
      modifies this`flags, this`phase, wait, wait.Cells()
      ensures Linked() && k == |Waiting()| && WalkFrom(k) == old(WalkFrom(0))
    {
      hide ListTable<Side>.Valid, Walk, Distinct, OneList, Unlisted, Apart, Satisfied;
      wait.Along(Takers, 0);
      var n := wait.head[Takers].next;
      k := 0;
      while n != wait.head[Takers]
        invariant Linked() && Place(n, k) && WalkFrom(k) == old(WalkFrom(0))
        decreases |Waiting()| - k
      {
        wait.Along(Takers, k);
        n, k := Visit(n, k);
      }
      wait.Along(Takers, k);
    }

    /** rt_event_send, with its walk over the ring of waiting threads. */
    method SendFlags(bits: Bits)
      requires Linked()
      modifies this`flags, this`phase, wait, wait.Cells()
      ensures Linked() && View() == SendBits(old(View()), bits)
    {
      hide ListTable<Side>.Valid, Walk, Distinct, Place, OneList, Unlisted, Apart, Satisfied;
      if bits == {} { return; }
      flags := flags + bits;
      ghost var all := WalkFrom(0);
      assert Waiting()[0..] == Waiting() && Waiting()[..0] + all.waiters == all.waiters;
      ghost var k := WalkRing();
      WalkEnds(flags, phase);
      assert Waiting()[k..] == [] && Waiting()[..k] + [] == Waiting();
    }

    method RecvFlags(t: Tid, w: Wish, timeout: int)
      requires Linked() && t in phase && phase[t].Idle?
      modifies this, wait, wait.Cells()
      ensures Linked() && View() == RecvBy(old(View()), t, w, timeout)
    {
      hide ListTable<Side>.Valid, Unlisted, Enqueue;
      if w.want == {} {
        result := result[t := ERROR];
      } else if Satisfied(w, flags) {
        result := result[t := Received(w.want * flags)];
        if w.clear { flags := flags - w.want; }
      } else if timeout == 0 {
        result := result[t := ETIMEOUT];
      } else {
        Outside(t);
        EnqueueDistinct(policy, prio, Waiting(), t);
        wait.Suspend(Takers, t, policy, prio);
        phase := phase[t := Phase.Waiting(w, timeout, now)];
      }
    }

    /** rt_event_recv after rt_schedule has returned. */
    method RunAgain(t: Tid)
      requires Linked() && t in phase
      modifies this, wait, wait.Cells()
      ensures Linked() && View() == RunOn(old(View()), t)
    {
      hide ListTable<Side>.Valid;
      if phase[t].Woken? {
        phase, result := phase[t := Idle], result[t := Received(phase[t].got)];
      } else if phase[t].Failing? {
        phase, result := phase[t := Idle], result[t := phase[t].error];
      }
    }

    /** rt_thread_timeout. */
    method ExpireFor(t: Tid)
      requires Linked() && t in phase
      modifies this, wait, wait.Cells()
      ensures Linked() && View() == TimeOut(old(View()), t)
    {
      hide ListTable<Side>.Valid;
      if phase[t].Waiting? && 0 < phase[t].left <= now - phase[t].since {
        WithoutDistinct(Waiting(), t);
        wait.TakeOut(t);
        phase := phase[t := Failing(ETIMEOUT)];
      }
    }

    /** rt_event_control with RT_IPC_CMD_RESET. */
    method ResetFlags()
      requires Linked()
      modifies this, wait, wait.Cells()
      ensures Linked() && View() == ResetAll(old(View()))
    {
      hide ListTable<Side>.Valid;
      var woken := wait.ResumeAll(Takers);
      flags, phase := {}, SetAll(phase, woken, Failing(ERROR));
    }

    /** Every step of the event object is a step of the model. */
    method Perform(e: Event)
      requires Linked() && Inv(View())
      modifies this, wait, wait.Cells()
      ensures Linked() && Inv(View()) && View() == Step(old(View()), e)
    {
      hide ListTable<Side>.Valid;
      StepKeeps(View(), e);
      match e
      case Recv(t, w, timeout) => if t in phase && phase[t].Idle? { RecvFlags(t, w, timeout); }
      case Send(bits) => SendFlags(bits);
      case Resume(t) => if t in phase { RunAgain(t); }
      case Expire(t) => if t in phase { ExpireFor(t); }
      case SetPriority(t, p) => prio := prio[t := p];
      case Reset => ResetFlags();
      case Tick => now := now + 1;
    }
  }
}
