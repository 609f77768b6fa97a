/** The mutex of src/ipc.c, with priority inheritance. A region with interrupts disabled is one step. */
module Mutex {
  import opened Basics
  import opened WaitQueue
  import opened ThreadLists

  /** `mutex->hold` has 8 bits. */
  const HOLDS := 0x100
  const NO_PRIORITY := 0xFF

  datatype Owner = Nobody | Thread(id: Tid)

  datatype Phase = Idle | Waiting(left: int, since: nat) | Granted | Failing(error: Result)

  datatype Result = OK | ETIMEOUT | ERROR

  /** What the kernel does not keep: the priority each thread had at first, how many of the owner's takes are not yet
      released, the arrival of the waiters, and whether anyone changed a priority from outside. */
  datatype History = History(home: map<Tid, nat>, depth: nat, arrivals: nat, arrival: map<Tid, nat>, touched: bool)

  datatype State = State(policy: Policy, value: nat, owner: Owner, original: nat, hold: nat, now: nat, waiters: seq<Tid>,
                         prio: map<Tid, nat>, phase: map<Tid, Phase>, result: map<Tid, Result>, past: History)

  datatype Event = Take(t: Tid, time: int) | Release(t: Tid) | Resume(t: Tid) | Expire(t: Tid) | SetPriority(t: Tid, p: nat) | Tick

  ghost predicate Known(s: State) {
    && s.phase.Keys <= s.prio.Keys
    && (forall x :: x in s.waiters ==> x in s.phase && s.phase[x].Waiting?)
    && (s.owner.Thread? ==> s.owner.id in s.phase)
    && (s.value == 0 ==> s.owner.Thread?)
  }

  function Answer(s: State, t: Tid, r: Result): State {
    s.(phase := s.phase[t := Idle], result := s.result[t := r])
  }

  function OwnedBy(s: State, t: Tid): State
    requires t in s.prio
  {
    s.(owner := Thread(t), original := s.prio[t], hold := (s.hold + 1) % HOLDS, past := s.past.(depth := 1))
  }

  /** A thread that has to wait lends its priority to the owner, if it is the more urgent one. */
  function Inherit(prio: map<Tid, nat>, owner: Tid, t: Tid): map<Tid, nat>
    requires owner in prio && t in prio
  {
    if prio[t] < prio[owner] then prio[owner := prio[t]] else prio
  }

  /** rt_mutex_take up to the point where the thread is suspended or returns. */
  function TakeBy(s: State, t: Tid, time: int): State
    requires Known(s) && t in s.phase
  {
    if s.owner == Thread(t) then
      Answer(s.(hold := (s.hold + 1) % HOLDS, past := s.past.(depth := s.past.depth + 1)), t, OK)
    else if s.value > 0 then
      Answer(OwnedBy(s, t).(value := s.value - 1), t, OK)
    else if time == 0 then
      Answer(s, t, ETIMEOUT)
    else
      var prio := Inherit(s.prio, s.owner.id, t);
      s.(prio := prio, waiters := Enqueue(s.policy, prio, s.waiters, t), phase := s.phase[t := Waiting(time, s.now)],
         past := s.past.(arrivals := s.past.arrivals + 1, arrival := s.past.arrival[t := s.past.arrivals]))
  }

  /** The owner lets go: it gets its priority back and the first waiter, if any, becomes the owner. */
  function LetGo(s: State): State
    requires Known(s) && s.owner.Thread?
  {
    var m := s.(prio := s.prio[s.owner.id := s.original]);
    if s.waiters != [] then
      var next := s.waiters[0];
      OwnedBy(m, next).(waiters := s.waiters[1..], phase := s.phase[next := Granted])
    else
      m.(value := s.value + 1, owner := Nobody, original := NO_PRIORITY, past := s.past.(depth := 0))
  }

  /** rt_mutex_release; the subtraction is one of 8 bits. */
  function ReleaseBy(s: State, t: Tid): State
    requires Known(s) && t in s.phase
  {
    if s.owner != Thread(t) then s.(result := s.result[t := ERROR])
    else
      var hold := (s.hold + HOLDS - 1) % HOLDS;
      var r := s.(hold := hold, result := s.result[t := OK], past := s.past.(depth := if s.past.depth > 0 then s.past.depth - 1 else 0));
      if hold == 0 then LetGo(r) else r
  }

  /** rt_mutex_take after rt_schedule has returned. */
  function RunOn(s: State, t: Tid): State
    requires t in s.phase
  {
    match s.phase[t]
    case Granted => Answer(s, t, OK)
    case Failing(error) => Answer(s, t, error)
    case _ => s
  }

  /** rt_thread_timeout. The owner keeps a priority inherited from the thread that gives up. */
  function TimeOut(s: State, t: Tid): State
    requires Known(s) && t in s.phase
  {
    if s.phase[t].Waiting? && 0 < s.phase[t].left <= s.now - s.phase[t].since then
      s.(waiters := Without(s.waiters, t), phase := s.phase[t := Failing(ETIMEOUT)])
    else s
  }

  /** An event that does not apply to the thread's phase does nothing. */
  function Step(s: State, e: Event): State
    requires Known(s)
  {
    match e
    case Take(t, time) => if t in s.phase && s.phase[t].Idle? then TakeBy(s, t, time) else s
    case Release(t) => if t in s.phase && s.phase[t].Idle? then ReleaseBy(s, t) else s
    case Resume(t) => if t in s.phase then RunOn(s, t) else s
    case Expire(t) => if t in s.phase then TimeOut(s, t) else s
    case SetPriority(t, p) => s.(prio := s.prio[t := p], past := s.past.(touched := true))
    case Tick => s.(now := s.now + 1)
  }

  // ----- ownership -----

  ghost predicate Queue(s: State) {
    && Known(s) && Distinct(s.waiters)
    && (forall x :: x in s.phase && s.phase[x].Waiting? ==> x in s.waiters)
    && (forall x :: x in s.phase && s.phase[x].Granted? ==> s.owner == Thread(x))
  }

  /** The value is 1 exactly without an owner; then nobody waits. `hold` counts the takes, but only modulo 256. */
  ghost predicate Owned(s: State)
    requires Known(s)
  {
    && s.value == (if s.owner.Nobody? then 1 else 0)
    && s.hold == s.past.depth % HOLDS && (s.past.depth == 0 <==> s.owner.Nobody?)
    && (s.owner.Nobody? ==> s.waiters == [])
    && (s.owner.Thread? ==> s.phase[s.owner.id].Idle? || s.phase[s.owner.id].Granted?)
  }

  // ----- priorities -----

  ghost predicate Waiters(s: State) {
    && (forall x :: x in s.waiters ==> x in s.past.arrival && s.past.arrival[x] < s.past.arrivals)
    && InOrder(s.policy, s.prio, s.past.arrival, s.waiters)
  }

  /** The owner is at least as urgent as every waiter, and nobody else has a borrowed priority. */
  ghost predicate Lent(s: State)
    requires Known(s)
  {
    && (forall x :: x in s.phase ==> x in s.past.home && (s.owner != Thread(x) ==> s.prio[x] == s.past.home[x]))
    && (s.owner.Thread? ==> s.original == s.past.home[s.owner.id] >= s.prio[s.owner.id])
    && (s.owner.Thread? ==> forall x :: x in s.waiters ==> s.prio[s.owner.id] <= s.prio[x])
  }

  ghost predicate Inv(s: State) {
    Queue(s) && Owned(s) && (s.policy == Prio && !s.past.touched ==> Waiters(s) && Lent(s))
  }

  lemma WaitersSame(s: State, r: State)
    requires Waiters(s) && r.waiters == s.waiters && r.policy == s.policy
    requires s.past.arrivals <= r.past.arrivals
    requires forall x :: x in s.waiters ==> x in r.prio && r.prio[x] == s.prio[x] && x in r.past.arrival && r.past.arrival[x] == s.past.arrival[x]
    ensures Waiters(r)
  {
    forall i, j | 0 <= i < j < |r.waiters| ensures Before(r.policy, r.prio, r.past.arrival, r.waiters[i], r.waiters[j]) {
      assert Before(s.policy, s.prio, s.past.arrival, s.waiters[i], s.waiters[j]);
    }
  }

  lemma WaitOrder(s: State, t: Tid, time: int)
    requires Queue(s) && Owned(s) && Waiters(s) && t in s.phase && s.phase[t].Idle?
    requires s.owner != Thread(t) && s.value == 0 && time != 0
    ensures Waiters(TakeBy(s, t, time))
  {
    var r := TakeBy(s, t, time);
    var m := r.(waiters := s.waiters);
    WaitersSame(s, m);
    EnqueueKeepsOrder(s.policy, r.prio, r.past.arrival, s.waiters, t);
  }

  lemma WaitKeeps(s: State, t: Tid, time: int)
    requires Inv(s) && t in s.phase && s.phase[t].Idle?
    requires s.owner != Thread(t) && s.value == 0 && time != 0
    ensures Inv(TakeBy(s, t, time))
  {
    var r := TakeBy(s, t, time);
    EnqueueDistinct(s.policy, r.prio, s.waiters, t);
    if s.policy == Prio && !s.past.touched { WaitOrder(s, t, time); }
  }

  lemma TakeKeeps(s: State, t: Tid, time: int)
    requires Inv(s) && t in s.phase && s.phase[t].Idle?
    ensures Inv(TakeBy(s, t, time))
  {
    if s.owner != Thread(t) && s.value == 0 && time != 0 {
      WaitKeeps(s, t, time);
    } else if s.policy == Prio && !s.past.touched {
      WaitersSame(s, TakeBy(s, t, time));
    }
  }

  /** Of the threads that wait, the first is the most urgent. */
  lemma FirstIsUrgent(s: State, x: Tid)
    requires Waiters(s) && s.policy == Prio && x in s.waiters
    ensures s.prio[s.waiters[0]] <= s.prio[x]
  {
    if x != s.waiters[0] { HeadIsFirst(s.policy, s.prio, s.past.arrival, s.waiters, x); }
  }

  lemma LetGoLent(s: State)
    requires Queue(s) && Waiters(s) && Lent(s) && s.owner.Thread? && s.policy == Prio && s.owner.id !in s.waiters
    ensures Waiters(LetGo(s)) && Lent(LetGo(s))
  {
    var r := LetGo(s);
    if s.waiters != [] {
      WithoutHead(s.waiters);
      LeaveKeepsOrder(s.policy, s.prio, s.past.arrival, s.waiters, s.waiters[0]);
      WaitersSame(s.(waiters := r.waiters), r);
      forall x | x in r.waiters ensures r.prio[r.owner.id] <= r.prio[x] { FirstIsUrgent(s, x); }
    }
  }

  lemma LetGoKeeps(s: State)
    requires Queue(s) && s.owner.Thread? && s.phase[s.owner.id].Idle? && s.value == 0 && s.hold == 0
    requires s.policy == Prio && !s.past.touched ==> Waiters(s) && Lent(s)
    ensures Inv(LetGo(s))
  {
    assert s.waiters != [] ==> s.waiters == [s.waiters[0]] + s.waiters[1..];
    if s.policy == Prio && !s.past.touched { LetGoLent(s); }
  }

  /** One hold less. */
  function Less(s: State, t: Tid, hold: nat): State {
    s.(hold := hold, result := s.result[t := OK], past := s.past.(depth := if s.past.depth > 0 then s.past.depth - 1 else 0))
  }

  lemma OneLess(s: State, t: Tid, hold: nat)
    requires Inv(s) && s.owner == Thread(t) && hold == (s.hold + HOLDS - 1) % HOLDS
    ensures var m := Less(s, t, hold);
      Queue(m) && (s.policy == Prio && !s.past.touched ==> Waiters(m) && Lent(m)) && (hold > 0 ==> Owned(m))
  {
    if s.policy == Prio && !s.past.touched { WaitersSame(s, Less(s, t, hold)); }
  }

  lemma ReleaseKeeps(s: State, t: Tid)
    requires Inv(s) && t in s.phase && s.phase[t].Idle?
    ensures Inv(ReleaseBy(s, t))
  {
    var r := ReleaseBy(s, t);
    if s.owner == Thread(t) {
      var hold := (s.hold + HOLDS - 1) % HOLDS;
      OneLess(s, t, hold);
      if hold == 0 { LetGoKeeps(Less(s, t, hold)); }
    } else if s.policy == Prio && !s.past.touched {
      WaitersSame(s, r);
    }
  }

  lemma TimeOutKeeps(s: State, t: Tid)
    requires Inv(s) && t in s.phase
    ensures Inv(TimeOut(s, t))
  {
    if TimeOut(s, t) != s {
      WithoutDistinct(s.waiters, t);
      if s.policy == Prio && !s.past.touched { LeaveKeepsOrder(s.policy, s.prio, s.past.arrival, s.waiters, t); }
    }
  }

  lemma StepKeeps(s: State, e: Event)
    requires Inv(s)
    ensures Inv(Step(s, e)) && Step(s, e).policy == s.policy
  {
    match e
    case Take(t, time) => if t in s.phase && s.phase[t].Idle? { TakeKeeps(s, t, time); }
    case Release(t) => if t in s.phase && s.phase[t].Idle? { ReleaseKeeps(s, t); }
    case Resume(t) => if s.policy == Prio && !s.past.touched { WaitersSame(s, Step(s, e)); }
    case Expire(t) => if t in s.phase { TimeOutKeeps(s, t); }
    case SetPriority(t, p) =>
    case Tick => if s.policy == Prio && !s.past.touched { WaitersSame(s, Step(s, e)); }
  }

  // ----- whole runs -----

  function Run(s: State, es: seq<Event>): (r: State)
    requires Inv(s)
    decreases |es|
  {
    if es == [] then s else
      StepKeeps(s, es[0]);
      Run(Step(s, es[0]), es[1..])
  }

  ghost predicate Fresh(s: State) {
    && s.value == 1 && s.owner == Nobody && s.original == NO_PRIORITY && s.hold == 0 && s.waiters == []
    && s.past == History(s.prio, 0, 0, map[], false)
    && s.phase.Keys <= s.prio.Keys && forall x :: x in s.phase ==> s.phase[x].Idle?
  }

  lemma FreshKeeps(s: State)
    requires Fresh(s)
    ensures Inv(s)
  {
  }

  lemma {:induction false} RunKeeps(s: State, es: seq<Event>)
    requires Inv(s)
    ensures Inv(Run(s, es)) && Run(s, es).policy == s.policy
    decreases |es|
  {
    hide Step, Owned, Waiters, Lent, Distinct;
    if es != [] {
      StepKeeps(s, es[0]);
      RunKeeps(Step(s, es[0]), es[1..]);
    }
  }

  /** In every run, in either queueing mode: the value is 1 exactly without an owner, waiters imply an owner, and `hold`
      is 0 exactly without an owner unless the owner holds the mutex a multiple of 256 times. */
  lemma OwnershipIsConsistent(s: State, es: seq<Event>)
    requires Fresh(s)
    ensures Inv(s)
    ensures var r := Run(s, es);
      && (r.value == 1 <==> r.owner == Nobody) && r.value <= 1
      && (r.waiters != [] ==> r.owner != Nobody)
      && ((r.hold == 0 <==> r.owner == Nobody) <==> !(r.owner != Nobody && r.past.depth % HOLDS == 0))
  {
    RunKeeps(s, es);
  }

  /** In every run of a mutex in priority mode in which nobody else changes priorities, the owner is at least as urgent
      as every waiter, and all others have their own priority. */
  lemma PriorityIsInherited(s: State, es: seq<Event>, x: Tid)
    requires Fresh(s) && s.policy == Prio && Inv(s) && !Run(s, es).past.touched && x in Run(s, es).phase
    ensures Inv(Run(s, es))
    ensures var r := Run(s, es);
      && (r.owner.Thread? && x in r.waiters ==> r.prio[r.owner.id] <= r.prio[x])
      && x in r.past.home && (r.owner != Thread(x) ==> r.prio[x] == r.past.home[x])
  {
    RunKeeps(s, es);
  }

  /** A release by the owner ends its ownership exactly when it holds the mutex once modulo 256, so it ends too early
      exactly for an owner that holds it 257, 513, ... times. */
  lemma LastReleaseIff(s: State, t: Tid)
    requires Inv(s) && s.owner == Thread(t)
    ensures ReleaseBy(s, t).owner != Thread(t) <==> s.past.depth % HOLDS == 1
    ensures s.past.depth < HOLDS ==> (ReleaseBy(s, t).owner != Thread(t) <==> s.past.depth == 1)
  {
    var m := s.(hold := (s.hold + HOLDS - 1) % HOLDS);
    assert t !in s.waiters;
  }

  /** Its last release gives the owner back the priority it had on acquiring, and the mutex goes to the waiter that is
      the most urgent and, of those, the one that has waited longest. */
  lemma LastReleaseHandsOver(s: State, t: Tid, x: Tid)
    requires Inv(s) && s.policy == Prio && !s.past.touched && s.owner == Thread(t) && s.past.depth == 1
    requires x in s.waiters
    ensures var r := ReleaseBy(s, t);
      && t in r.prio && t in s.past.home && r.prio[t] == s.past.home[t]
      && r.owner == Thread(s.waiters[0]) && r.hold == 1 && r.waiters == s.waiters[1..]
      && r.phase[s.waiters[0]] == Granted && r.original == s.past.home[s.waiters[0]]
      && (x != s.waiters[0] ==> Before(s.policy, s.prio, s.past.arrival, s.waiters[0], x))
  {
    assert s.waiters[0] in s.waiters;
    if x != s.waiters[0] { HeadIsFirst(s.policy, s.prio, s.past.arrival, s.waiters, x); }
  }

  /** In FIFO mode the hand-over keeps the new owner at least as urgent as the waiters exactly when the first waiter
      happens to be the most urgent one. */
  lemma FifoHandOverIff(s: State)
    requires Queue(s) && Owned(s) && Lent(s) && s.policy == Fifo && s.owner.Thread? && s.waiters != []
    ensures Known(LetGo(s))
    ensures Lent(LetGo(s)) <==> forall x :: x in s.waiters ==> s.prio[s.waiters[0]] <= s.prio[x]
  {
    var r := LetGo(s);
    assert s.waiters == [s.waiters[0]] + r.waiters;
    if Lent(r) {
      forall x | x in s.waiters ensures s.prio[s.waiters[0]] <= s.prio[x] {
        if x != s.waiters[0] { assert x in r.waiters; }
      }
    }
  }

  /** A mutex that nobody has used yet, with idle threads of the given priorities. */
  function NewMutex(policy: Policy, prio: map<Tid, nat>): (s: State)
    ensures Fresh(s) && Inv(s)
  {
    State(policy, 1, Nobody, NO_PRIORITY, 0, 0, [], prio, map t | t in prio :: Idle, map[], History(prio, 0, 0, map[], false))
  }

  lemma {:induction false} RunAppend(s: State, es: seq<Event>, e: Event)
    requires Inv(s)
    ensures Inv(Run(s, es)) && Run(s, es + [e]) == Step(Run(s, es), e)
    decreases |es|
  {
    hide Owned, Waiters, Lent, Distinct, Step;
    RunKeeps(s, es);
    var fs := es + [e];
    if es == [] {
      StepKeeps(s, e);
      assert fs == [e] && fs[1..] == [];
    } else {
      StepKeeps(s, es[0]);
      RunAppend(Step(s, es[0]), es[1..], e);
      assert fs[1..] == es[1..] + [e];
    }
  }

  /** Thread 0 takes the mutex `n` times. */
  function Takes(n: nat): (es: seq<Event>)
    ensures |es| == n
  {
    if n == 0 then [] else Takes(n - 1) + [Take(0, 0)]
  }

  ghost predicate TakenBy0(s: State, n: nat) {
    Inv(s) && 0 in s.phase && s.phase[0].Idle? && s.owner == Thread(0) && s.past.depth == n
  }

  lemma TakenOnceMore(s: State, n: nat)
    requires Inv(s) && if n == 0 then Fresh(s) && 0 in s.phase else TakenBy0(s, n)
    ensures TakenBy0(Step(s, Take(0, 0)), n + 1)
  {
    StepKeeps(s, Take(0, 0));
    hide Inv;
  }

  lemma {:induction false} OwnedAfter(s: State, n: nat)
    requires Fresh(s) && Inv(s) && 0 in s.phase && n > 0
    ensures TakenBy0(Run(s, Takes(n)), n)
  {
    hide Inv, Fresh, Step, TakenBy0;
    RunAppend(s, Takes(n - 1), Take(0, 0));
    if n > 1 {
      OwnedAfter(s, n - 1);
    }
    TakenOnceMore(Run(s, Takes(n - 1)), n - 1);
  }

  /** The input for which `hold` is too narrow: after 256 takes by one thread `hold` is 0 although the mutex has an owner,
      and after 257 the thread's first release lets the mutex go, with 256 takes not released. */
  lemma ReleasedTooEarly(policy: Policy)
    ensures var s := NewMutex(policy, map[0 := 10]);
      && Run(s, Takes(257) + [Release(0)]).owner != Thread(0)
      && Run(s, Takes(256)).owner == Thread(0) && Run(s, Takes(256)).hold == 0
  {
    hide Fresh, Run;
    var s := NewMutex(policy, map[0 := 10]);
    OwnedAfter(s, 256);
    OwnedAfter(s, 257);
    RunAppend(s, Takes(257), Release(0));
    LastReleaseIff(Run(s, Takes(257)), 0);
    hide LetGo, Inv;
  }

  const Three: map<Tid, nat> := map[0 := 3, 1 := 9, 2 := 5]

  /** Thread 0 has the mutex, and the less urgent thread 1 and then thread 2 wait for it. */
  const Queueing: seq<Event> := [Take(0, -1), Take(1, -1), Take(2, -1)]

  const New3 := NewMutex(Fifo, Three)
  const Taken3 := State(Fifo, 0, Thread(0), 3, 1, 0, [], Three, map[0 := Idle, 1 := Idle, 2 := Idle], map[0 := OK], History(Three, 1, 0, map[], false))
  const Queued1 := State(Fifo, 0, Thread(0), 3, 1, 0, [1], Three, map[0 := Idle, 1 := Waiting(-1, 0), 2 := Idle], map[0 := OK],
                         History(Three, 1, 1, map[1 := 0], false))
  const Queued2 := State(Fifo, 0, Thread(0), 3, 1, 0, [1, 2], Three, map[0 := Idle, 1 := Waiting(-1, 0), 2 := Waiting(-1, 0)], map[0 := OK],
                         History(Three, 1, 2, map[1 := 0, 2 := 1], false))

  lemma FirstTakes()
    ensures Known(New3) && Step(New3, Take(0, -1)) == Taken3
  {
    hide Inv, Fresh, Enqueue;
  }

  lemma SecondWaits()
    ensures Known(Taken3) && Step(Taken3, Take(1, -1)) == Queued1
  {
    assert Enqueue(Fifo, Three, [], 1) == [1];
  }

  lemma ThirdWaits()
    ensures Known(Queued1) && Step(Queued1, Take(2, -1)) == Queued2
  {
    assert Enqueue(Fifo, Three, [1], 2) == [1, 2];
  }

  lemma QueueingSteps()
    ensures Inv(New3) && Inv(Taken3) && Inv(Queued1) && Inv(Queued2)
  {
    hide Step, NewMutex;
    FreshKeeps(New3);
    FirstTakes();
    StepKeeps(New3, Take(0, -1));
    SecondWaits();
    StepKeeps(Taken3, Take(1, -1));
    ThirdWaits();
    StepKeeps(Queued1, Take(2, -1));
  }

  lemma QueueingRuns()
    ensures Inv(New3) && Run(New3, Queueing) == Queued2
  {
    QueueingSteps();
    FirstTakes();
    SecondWaits();
    ThirdWaits();
    hide Step, NewMutex;
    var es := Queueing[1..];
    assert es[0] == Queueing[1] && es[1..] == [Queueing[2]] && es[1..][1..] == [];
  }

  /** The input for which FIFO mode inverts priorities: thread 0 releases, thread 1 becomes the owner, and the more
      urgent thread 2 waits for it. */
  lemma FifoInverts()
    ensures var r := Run(NewMutex(Fifo, Three), Queueing + [Release(0)]);
      r.owner == Thread(1) && r.waiters == [2] && r.prio == Three && !r.past.touched
  {
    hide NewMutex, Run, Fresh, Owned, Waiters, Lent, Distinct;
    QueueingRuns();
    RunAppend(New3, Queueing, Release(0));
  }

  // ----- the mutex itself -----

  /** struct rt_mutex with the threads that use it. */
  class RtMutex {
    const policy: Policy
    /** The list suspend_thread, and the nodes of the threads. */
    const wait: ListTable<Side>
    var value: nat
    var owner: Owner
    var original: nat
    var hold: nat
    var prio: map<Tid, nat>
    var phase: map<Tid, Phase>
    var result: map<Tid, Result>
    var now: nat
    ghost var past: History

    ghost function View(): State
      reads this, wait
    {
      State(policy, value, owner, original, hold, now, wait.Of(Takers), prio, phase, result, past)
    }

    /** The waiting threads are linked in a ring. */
    ghost predicate Linked()
      reads this, wait, wait.Cells()
    {
      wait.Valid() && wait.list.Keys == {Takers} && phase.Keys <= wait.node.Keys && Known(View())
    }

    /** rt_mutex_init. */
    constructor (policy: Policy, prio: map<Tid, nat>)
      ensures Linked() && Inv(View()) && Fresh(View()) && fresh(wait) && fresh(wait.Cells())
      ensures this.policy == policy && this.prio == prio && phase.Keys == prio.Keys
    {
      hide ListTable<Side>.Valid, Inv;
      this.policy, this.prio := policy, prio;
      wait := new ListTable({Takers}, prio.Keys);
      value, owner, original, hold := 1, Nobody, NO_PRIORITY, 0;
      phase, result, now := map t | t in prio :: Idle, map[], 0;
      past := History(prio, 0, 0, map[], false);
      new;
      FreshKeeps(View());
    }

    lemma Outside(t: Tid)
      requires Linked() && t in phase && !phase[t].Waiting?
      ensures Unlisted(wait.list, t)
    {
      hide ListTable<Side>.Valid;
    }

    method ReturnTo(t: Tid, r: Result)
      requires Linked() && t in phase && !phase[t].Waiting?
      modifies this, wait, wait.Cells()
      ensures Linked() && View() == Answer(old(View()), t, r)
    {
      hide ListTable<Side>.Valid;
      phase, result := phase[t := Idle], result[t := r];
    }

    /** `t` becomes the owner. */
    method Own(t: Tid)
      requires Linked() && t in phase
      modifies this, wait, wait.Cells()
      ensures Linked() && View() == OwnedBy(old(View()), t)
    {
      hide ListTable<Side>.Valid;
      owner, original, hold := Thread(t), prio[t], (hold + 1) % HOLDS;
      past := past.(depth := 1);
    }

    method TakeFor(t: Tid, time: int)
      requires Linked() && t in phase && phase[t].Idle?
      modifies this, wait, wait.Cells()
      ensures Linked() && View() == TakeBy(old(View()), t, time)
    {
      hide ListTable<Side>.Valid, Enqueue;
      if owner == Thread(t) {
        hold := (hold + 1) % HOLDS;
        past := past.(depth := past.depth + 1);
        ReturnTo(t, OK);
      } else if value > 0 {
        Own(t);
        value := value - 1;
        ReturnTo(t, OK);
      } else if time == 0 {
        ReturnTo(t, ETIMEOUT);
      } else {
        WaitFor(t, time);
      }
    }

    /** The part of rt_mutex_take for a thread that has to wait: it may lend its priority to the owner. */
    method WaitFor(t: Tid, time: int)
      requires Linked() && t in phase && phase[t].Idle? && owner != Thread(t) && value == 0 && time != 0
      modifies this, wait, wait.Cells()
      ensures Linked() && View() == TakeBy(old(View()), t, time)
    {
      hide ListTable<Side>.Valid, Unlisted, Enqueue;
      Outside(t);
      LendTo(t);
      wait.Suspend(Takers, t, policy, prio);
      phase := phase[t := Waiting(time, now)];
      past := past.(arrival := past.arrival[t := past.arrivals], arrivals := past.arrivals + 1);
    }

    /** The owner gets the priority of `t`, if that is the more urgent one. */
    method LendTo(t: Tid)
      requires Linked() && t in phase && value == 0
      modifies this`prio, wait, wait.Cells()
      ensures Linked() && prio == Inherit(old(prio), owner.id, t) && wait.list == old(wait.list)
    {
      hide ListTable<Side>.Valid;
      if prio[t] < prio[owner.id] {
        prio := prio[owner.id := prio[t]];
      }
    }

    /** The part of rt_mutex_release for an owner that no longer holds the mutex. */
    method HandOver()
      requires Linked() && owner.Thread?
      modifies this, wait, wait.Cells()
      ensures Linked() && View() == LetGo(old(View()))
    {
      hide ListTable<Side>.Valid;
      GiveBack();
      var empty := wait.Empty(Takers);
      if !empty {
        NextOwner();
      } else {
        SetFree();
      }
    }

    method SetFree()
      requires Linked() && owner.Thread? && prio[owner.id] == original && wait.Of(Takers) == []
      modifies this, wait, wait.Cells()
      ensures Linked() && View() == LetGo(old(View()))
    {
      hide ListTable<Side>.Valid;
      assert prio[owner.id := original] == prio;
      value := value + 1;
      owner, original := Nobody, NO_PRIORITY;
      past := past.(depth := 0);
    }

    /** The owner gets the priority back that it had when it took the mutex. */
    method GiveBack()
      requires Linked() && owner.Thread?
      modifies this, wait, wait.Cells()
      ensures Linked() && owner.Thread? && prio[owner.id] == original && wait.Of(Takers) == old(wait.Of(Takers))
      ensures LetGo(View()) == LetGo(old(View()))
    {
      hide ListTable<Side>.Valid;
      if original != prio[owner.id] {
        prio := prio[owner.id := original];
      } else {
        assert prio[owner.id := original] == prio;
      }
      assert prio[owner.id := original] == prio;
    }

    /** The first waiting thread becomes the owner and is resumed. */
    method NextOwner()
      requires Linked() && owner.Thread? && prio[owner.id] == original && wait.Of(Takers) != []
      modifies this, wait, wait.Cells()
      ensures Linked() && View() == LetGo(old(View()))
    {
      hide ListTable<Side>.Valid, Unlisted;
      assert prio[owner.id := original] == prio;
      var next := wait.First(Takers);
      Own(next);
      next := wait.Resume(Takers);
      phase := phase[next := Granted];
    }

    method ReleaseFor(t: Tid)
      requires Linked() && t in phase
      modifies this, wait, wait.Cells()
      ensures Linked() && View() == ReleaseBy(old(View()), t)
    {
      hide ListTable<Side>.Valid;
      if owner != Thread(t) {
        result := result[t := ERROR];
        return;
      }
      hold := (hold + HOLDS - 1) % HOLDS;
      result := result[t := OK];
      past := past.(depth := if past.depth > 0 then past.depth - 1 else 0);
      if hold == 0 {
        HandOver();
      }
    }

    /** rt_mutex_take after rt_schedule has returned. */
    method RunAgain(t: Tid)
      requires Linked() && t in phase
      modifies this, wait, wait.Cells()
      ensures Linked() && View() == RunOn(old(View()), t)
    {
      hide ListTable<Side>.Valid;
      if phase[t].Granted? {
        ReturnTo(t, OK);
      } else if phase[t].Failing? {
        ReturnTo(t, phase[t].error);
      }
    }

    /** rt_thread_timeout. */
    method ExpireFor(t: Tid)
      requires Linked() && t in phase
      modifies this, wait, wait.Cells()
      ensures Linked() && View() == TimeOut(old(View()), t)
    {
      hide ListTable<Side>.Valid;
      if phase[t].Waiting? && 0 < phase[t].left <= now - phase[t].since {
        wait.TakeOut(t);
        phase := phase[t := Failing(ETIMEOUT)];
      }
    }

    /** Every step of the mutex is a step of the model. */
    method Perform(e: Event)
      requires Linked() && Inv(View())
      modifies this, wait, wait.Cells()
      ensures Linked() && Inv(View()) && View() == Step(old(View()), e)
    {
      hide ListTable<Side>.Valid;
      StepKeeps(View(), e);
      match e
      case Take(t, time) => if t in phase && phase[t].Idle? { TakeFor(t, time); }
      case Release(t) => if t in phase && phase[t].Idle? { ReleaseFor(t); }
      case Resume(t) => if t in phase { RunAgain(t); }
      case Expire(t) => if t in phase { ExpireFor(t); }
      case SetPriority(t, p) => prio, past := prio[t := p], past.(touched := true);
      case Tick => now := now + 1;
    }
  }
}
