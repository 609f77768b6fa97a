/** The counting semaphore of src/ipc.c. A region with interrupts disabled is one step. */
module Semaphore {
  import opened Basics
  import opened WaitQueue
  import opened ThreadLists

  /** `sem->value` has 16 bits. */
  const VALUES := 0x1_0000

  /** A waiting thread is in the queue; a granted or failing one has left it but has not run yet. */
  datatype Phase = Idle | Waiting(left: int, since: nat) | Granted | Failing(error: Result)

  datatype Result = OK | ETIMEOUT | ERROR

  /** What happened since the semaphore was created or reset; the kernel keeps none of it. `grants` counts the takes
      that were or will be successful, at once or by a release, `wraps` the releases that overflowed the
      value, and `stale` tells whether a waiting thread changed its priority. */
  datatype History = History(initial: nat, releases: nat, wraps: nat, takes: nat, grants: nat, refused: nat, expired: nat, failed: nat,
                             arrival: map<Tid, nat>, stale: bool)

  datatype State = State(policy: Policy, value: nat, now: nat, waiters: seq<Tid>, prio: map<Tid, nat>, phase: map<Tid, Phase>,
                         result: map<Tid, Result>, past: History)

  datatype Event = Take(t: Tid, time: int) | Release | Resume(t: Tid) | Expire(t: Tid) | SetPriority(t: Tid, p: nat) | Reset(v: nat) | Tick

  ghost predicate Known(s: State) {
    s.phase.Keys <= s.prio.Keys && forall x :: x in s.waiters ==> x in s.phase && s.phase[x].Waiting?
  }

  /** rt_sem_take up to the point where the thread is suspended or returns. */
  function TakeBy(s: State, t: Tid, time: int): State
    requires Known(s) && t in s.phase
  {
    var h := s.past.(takes := s.past.takes + 1);
    if s.value > 0 then
      s.(value := s.value - 1, result := s.result[t := OK], past := h.(grants := h.grants + 1))
    else if time == 0 then
      s.(result := s.result[t := ETIMEOUT], past := h.(refused := h.refused + 1))
    else
      s.(waiters := Enqueue(s.policy, s.prio, s.waiters, t), phase := s.phase[t := Waiting(time, s.now)],
         past := h.(arrival := h.arrival[t := h.takes]))
  }

  /** rt_sem_release: the value is handed to the first waiter, or added, modulo 16 bits. */
  function ReleaseOne(s: State): State
    requires Known(s)
  {
    var h := s.past.(releases := s.past.releases + 1);
    if s.waiters != [] then
      s.(waiters := s.waiters[1..], phase := s.phase[s.waiters[0] := Granted], past := h.(grants := h.grants + 1))
    else
      s.(value := (s.value + 1) % VALUES, past := if s.value + 1 == VALUES then h.(wraps := h.wraps + 1) else h)
  }

  /** rt_sem_take after rt_schedule has returned. */
  function RunOn(s: State, t: Tid): State
    requires t in s.phase
  {
    match s.phase[t]
    case Granted => s.(phase := s.phase[t := Idle], result := s.result[t := OK])
    case Failing(error) => s.(phase := s.phase[t := Idle], result := s.result[t := error])
    case _ => s
  }

  /** rt_thread_timeout. */
  function TimeOut(s: State, t: Tid): State
    requires Known(s) && t in s.phase
  {
    if s.phase[t].Waiting? && 0 < s.phase[t].left <= s.now - s.phase[t].since then
      s.(waiters := Without(s.waiters, t), phase := s.phase[t := Failing(ETIMEOUT)], past := s.past.(expired := s.past.expired + 1))
    else s
  }

  /** rt_sem_control with RT_IPC_CMD_RESET; the books are opened anew. */
  function ResetTo(s: State, v: nat): State {
    s.(value := v % VALUES, waiters := [], phase := SetAll(s.phase, s.waiters, Failing(ERROR)),
       past := History(v % VALUES, 0, 0, 0, 0, 0, 0, 0, map[], false))
  }

  /** An event that does not apply to the thread's phase does nothing. */
  function Step(s: State, e: Event): State
    requires Known(s)
  {
    match e
    case Take(t, time) => if t in s.phase && s.phase[t].Idle? then TakeBy(s, t, time) else s
    case Release => ReleaseOne(s)
    case Resume(t) => if t in s.phase then RunOn(s, t) else s
    case Expire(t) => if t in s.phase then TimeOut(s, t) else s
    case SetPriority(t, p) => s.(prio := s.prio[t := p], past := s.past.(stale := s.past.stale || t in s.waiters))
    case Reset(v) => ResetTo(s, v)
    case Tick => s.(now := s.now + 1)
  }

  // ----- what every step keeps -----

  ghost predicate Queue(s: State) {
    && Known(s) && Distinct(s.waiters)
    && (forall x :: x in s.phase && s.phase[x].Waiting? ==> x in s.waiters)
    && (s.value > 0 ==> s.waiters == []) && s.value < VALUES
  }

  ghost predicate Books(s: State) {
    && s.past.initial + s.past.releases == s.value + s.past.grants + VALUES * s.past.wraps
    && s.past.takes == s.past.grants + s.past.refused + s.past.expired + s.past.failed + |s.waiters|
  }

  ghost predicate Order(s: State) {
    && (forall x :: x in s.waiters ==> x in s.past.arrival && s.past.arrival[x] <= s.past.takes)
    && (!s.past.stale ==> InOrder(s.policy, s.prio, s.past.arrival, s.waiters))
  }

  ghost predicate Inv(s: State) {
    Queue(s) && Books(s) && Order(s)
  }

  lemma OrderSame(policy: Policy, prio: map<Tid, nat>, arrival: map<Tid, nat>, prio': map<Tid, nat>, arrival': map<Tid, nat>, q: seq<Tid>)
    requires InOrder(policy, prio, arrival, q)
    requires forall x :: x in q ==> x in prio' && x in arrival' && prio'[x] == prio[x] && arrival'[x] == arrival[x]
    ensures InOrder(policy, prio', arrival', q)
  {
    forall i, j | 0 <= i < j < |q| ensures Before(policy, prio', arrival', q[i], q[j]) {
      assert Before(policy, prio, arrival, q[i], q[j]);
    }
  }

  lemma TakeKeeps(s: State, t: Tid, time: int)
    requires Inv(s) && t in s.phase && s.phase[t].Idle?
    ensures Inv(TakeBy(s, t, time))
  {
    var r := TakeBy(s, t, time);
    if s.value == 0 && time != 0 {
      EnqueueDistinct(s.policy, s.prio, s.waiters, t);
      if !s.past.stale {
        OrderSame(s.policy, s.prio, s.past.arrival, s.prio, r.past.arrival, s.waiters);
        EnqueueKeepsOrder(s.policy, s.prio, r.past.arrival, s.waiters, t);
      }
    }
  }

  lemma ReleaseOrder(s: State)
    requires Inv(s) && s.waiters != []
    ensures Order(ReleaseOne(s))
  {
    WithoutHead(s.waiters);
    if !s.past.stale { LeaveKeepsOrder(s.policy, s.prio, s.past.arrival, s.waiters, s.waiters[0]); }
  }

  lemma ReleaseKeeps(s: State)
    requires Inv(s)
    ensures Inv(ReleaseOne(s))
  {
    if s.waiters != [] {
      assert s.waiters == [s.waiters[0]] + s.waiters[1..];
      ReleaseOrder(s);
    }
  }

  lemma {:induction false} LeaveLength(q: seq<Tid>, t: Tid)
    requires Distinct(q) && t in q
    ensures |Without(q, t)| == |q| - 1
  {
    if q[0] == t { WithoutHead(q); } else { LeaveLength(q[1..], t); }
  }

  lemma TimeOutKeeps(s: State, t: Tid)
    requires Inv(s) && t in s.phase
    ensures Inv(TimeOut(s, t))
  {
    if TimeOut(s, t) != s {
      WithoutDistinct(s.waiters, t);
      LeaveLength(s.waiters, t);
      if !s.past.stale { LeaveKeepsOrder(s.policy, s.prio, s.past.arrival, s.waiters, t); }
    }
  }

  lemma StepKeeps(s: State, e: Event)
    requires Inv(s)
    ensures Inv(Step(s, e))
  {
    match e
    case Take(t, time) => if t in s.phase && s.phase[t].Idle? { TakeKeeps(s, t, time); }
    case Release => ReleaseKeeps(s);
    case Resume(t) =>
    case Expire(t) => if t in s.phase { TimeOutKeeps(s, t); }
    case SetPriority(t, p) =>
      if !s.past.stale && t !in s.waiters {
        OrderSame(s.policy, s.prio, s.past.arrival, s.prio[t := p], s.past.arrival, s.waiters);
      }
    case Reset(v) =>
    case Tick =>
  }

  // ----- whole runs -----

  function Run(s: State, es: seq<Event>): (r: State)
    requires Inv(s)
    decreases |es|
  {
    if es == [] then s else
      StepKeeps(s, es[0]);
      Run(Step(s, es[0]), es[1..])
  }

  ghost predicate Fresh(s: State) {
    && s.value < VALUES && s.waiters == [] && s.past == History(s.value, 0, 0, 0, 0, 0, 0, 0, map[], false)
    && s.phase.Keys <= s.prio.Keys && forall x :: x in s.phase ==> s.phase[x].Idle?
  }

  lemma {:induction false} RunKeeps(s: State, es: seq<Event>)
    requires Inv(s)
    ensures Inv(Run(s, es))
    decreases |es|
  {
    if es != [] {
      StepKeeps(s, es[0]);
      RunKeeps(Step(s, es[0]), es[1..]);
    }
  }

  /** In every run: a positive value means that nobody waits; every take was granted, refused, timed out, failed by a
      reset, or is still waiting; and what was put in (the initial value and the releases) is the value and the
      grants exactly as long as no release overflowed the 16-bit value. */
  lemma Conservation(s: State, es: seq<Event>)
    requires Fresh(s)
    ensures Inv(s)
    ensures var r := Run(s, es);
      && (r.value > 0 ==> r.waiters == [])
      && r.past.takes == r.past.grants + r.past.refused + r.past.expired + r.past.failed + |r.waiters|
      && (r.past.initial + r.past.releases == r.value + r.past.grants <==> r.past.wraps == 0)
  {
    RunKeeps(s, es);
  }

  /** A release loses count exactly when it finds the value at its maximum (and so nobody waiting). */
  lemma ReleaseLosesIff(s: State)
    requires Inv(s)
    ensures var r := ReleaseOne(s);
      r.past.wraps > s.past.wraps <==> s.value == VALUES - 1
    ensures s.value == VALUES - 1 ==> ReleaseOne(s).value == 0
  {
  }

  /** The input for which a release loses count: the first one on a semaphore with the largest initial value. */
  lemma FirstReleaseLoses(s: State)
    requires Fresh(s) && s.value == VALUES - 1
    ensures Inv(s)
    ensures var r := Run(s, [Release]);
      r.value == 0 && r.past.releases == 1 && r.past.initial + r.past.releases != r.value + r.past.grants
  {
    StepKeeps(s, Release);
    assert [Release][1..] == [];
  }

  /** Unless a waiting thread changed its priority, a release wakes the one that comes first: by arrival in a FIFO
      semaphore, by priority and then arrival otherwise. */
  lemma ReleaseServesFirst(s: State, es: seq<Event>, t: Tid)
    requires Fresh(s) && Inv(s)
    requires var r := Run(s, es); !r.past.stale && r.waiters != [] && t in r.waiters && t != r.waiters[0]
    ensures Inv(Run(s, es))
    ensures var r := Run(s, es);
      && ReleaseOne(r).phase[r.waiters[0]].Granted? && ReleaseOne(r).waiters == r.waiters[1..] && ReleaseOne(r).value == r.value == 0
      && r.waiters[0] in r.prio && t in r.prio && r.waiters[0] in r.past.arrival && t in r.past.arrival
      && Before(r.policy, r.prio, r.past.arrival, r.waiters[0], t)
  {
    RunKeeps(s, es);
    var r := Run(s, es);
    assert r.waiters[0] in r.waiters;
    HeadIsFirst(r.policy, r.prio, r.past.arrival, r.waiters, t);
  }

  // ----- the semaphore itself -----

  /** struct rt_semaphore with the threads that use it. */
  class Sem {
    const policy: Policy
    /** The list suspend_thread, and the nodes of the threads. */
    const wait: ListTable<Side>
    var value: nat
    var prio: map<Tid, nat>
    var phase: map<Tid, Phase>
    var result: map<Tid, Result>
    var now: nat
    ghost var past: History

    ghost function View(): State
      reads this, wait
    {
      State(policy, value, now, wait.Of(Takers), prio, phase, result, past)
    }

    /** The waiting threads are linked in a ring. */
    ghost predicate Linked()
      reads this, wait, wait.Cells()
    {
      wait.Valid() && wait.list.Keys == {Takers} && phase.Keys <= wait.node.Keys && Known(View())
    }

    /** rt_sem_init; the assertion there bounds the value. */
    constructor (value: nat, policy: Policy, prio: map<Tid, nat>)
      requires value < VALUES
      ensures Linked() && Inv(View()) && Fresh(View()) && fresh(wait) && fresh(wait.Cells())
      ensures this.value == value && this.policy == policy && this.prio == prio
    {
      this.value, this.policy, this.prio := value, policy, prio;
      wait := new ListTable({Takers}, prio.Keys);
      phase, result, now := map t | t in prio :: Idle, map[], 0;
      past := History(value, 0, 0, 0, 0, 0, 0, 0, map[], false);
    }

    lemma Outside(t: Tid)
      requires Linked() && t in phase && !phase[t].Waiting?
      ensures Unlisted(wait.list, t)
    {
      hide ListTable<Side>.Valid;
    }

    method TakeFor(t: Tid, time: int)
      requires Linked() && t in phase && phase[t].Idle?
      modifies this, wait, wait.Cells()
      ensures Linked() && View() == TakeBy(old(View()), t, time)
    {
      hide ListTable<Side>.Valid;
      if value > 0 {
        value := value - 1;
        result := result[t := OK];
        past := past.(takes := past.takes + 1, grants := past.grants + 1);
      } else if time == 0 {
        result := result[t := ETIMEOUT];
        past := past.(takes := past.takes + 1, refused := past.refused + 1);
      } else {
        WaitFor(t, time);
      }
    }

    method WaitFor(t: Tid, time: int)
      requires Linked() && t in phase && phase[t].Idle? && value == 0 && time != 0
      modifies this, wait, wait.Cells()
      ensures Linked() && View() == TakeBy(old(View()), t, time)
    {
      hide ListTable<Side>.Valid, Unlisted, Enqueue;
      Outside(t);
      wait.Suspend(Takers, t, policy, prio);
      phase := phase[t := Waiting(time, now)];
      past := past.(takes := past.takes + 1, arrival := past.arrival[t := past.takes + 1]);
    }

    method ReleaseIt()
      requires Linked()
      modifies this, wait, wait.Cells()
      ensures Linked() && View() == ReleaseOne(old(View()))
    {
      hide ListTable<Side>.Valid;
      var empty := wait.Empty(Takers);
      if !empty {
        HandOver();
      } else {
        past := past.(releases := past.releases + 1, wraps := if value + 1 == VALUES then past.wraps + 1 else past.wraps);
        value := (value + 1) % VALUES;
      }
    }

    /** The first waiting thread is resumed instead of the value being increased. */
    method HandOver()
      requires Linked() && wait.Of(Takers) != []
      modifies this, wait, wait.Cells()
      ensures Linked() && View() == ReleaseOne(old(View()))
    {
      hide ListTable<Side>.Valid;
      var t := wait.Resume(Takers);
      phase := phase[t := Granted];
      past := past.(releases := past.releases + 1, grants := past.grants + 1);
    }

    /** rt_sem_take after rt_schedule has returned. */
    method RunAgain(t: Tid)
      requires Linked() && t in phase
      modifies this, wait, wait.Cells()
      ensures Linked() && View() == RunOn(old(View()), t)
    {
      hide ListTable<Side>.Valid;
      if phase[t].Granted? {
        phase, result := phase[t := Idle], result[t := OK];
      } else if phase[t].Failing? {
        phase, result := phase[t := Idle], result[t := phase[t].error];
      }
    }

    /** rt_thread_timeout. */
    method ExpireFor(t: Tid)
      requires Linked() && t in phase
      modifies this, wait, wait.Cells()
      ensures Linked() && View() == TimeOut(old(View()), t)
    {
      hide ListTable<Side>.Valid;
      if phase[t].Waiting? && 0 < phase[t].left <= now - phase[t].since {
        wait.TakeOut(t);
        phase := phase[t := Failing(ETIMEOUT)];
        past := past.(expired := past.expired + 1);
      }
    }

    /** rt_sem_control with RT_IPC_CMD_RESET. */
    method Reset(v: nat)
      requires Linked()
      modifies this, wait, wait.Cells()
      ensures Linked() && View() == ResetTo(old(View()), v)
    {
      hide ListTable<Side>.Valid;
      var woken := wait.ResumeAll(Takers);
      phase, value := SetAll(phase, woken, Failing(ERROR)), v % VALUES;
      past := History(v % VALUES, 0, 0, 0, 0, 0, 0, 0, map[], false);
    }

    /** Every step of the semaphore is a step of the model. */
    method Perform(e: Event)
      requires Linked() && Inv(View())
      modifies this, wait, wait.Cells()
      ensures Linked() && Inv(View()) && View() == Step(old(View()), e)
    {
      hide ListTable<Side>.Valid;
      StepKeeps(View(), e);
      match e
      case Take(t, time) => if t in phase && phase[t].Idle? { TakeFor(t, time); }
      case Release => ReleaseIt();
      case Resume(t) => if t in phase { RunAgain(t); }
      case Expire(t) => if t in phase { ExpireFor(t); }
      case SetPriority(t, p) =>
        prio := prio[t := p];
        past := past.(stale := past.stale || t in wait.Of(Takers));
      case Reset(v) => Reset(v);
      case Tick => now := now + 1;
    }
  }
}
