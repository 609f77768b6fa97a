/** The message queue of src/ipc.c. Senders and receivers copy messages with interrupts enabled, while they hold a node
    that is in no list. A region with interrupts disabled is one step, and so is each copy. */
module MessageQueue {
  import opened Basics
  import opened WaitQueue
  import opened ThreadLists

  type Byte = n: nat | n < 0x100
  type Node = nat

  /** Where a thread is in a call. A filling, filled, draining or drained thread holds a node; a waiting one is in the
      queue of threads; a woken one has left it but has not run yet. An interrupt handler counts as a thread that
      never waits. */
  datatype Phase =
    | Idle
    | Filling(node: Node, data: seq<Byte>, urgent: bool)
    | Filled(node: Node, data: seq<Byte>, urgent: bool)
    | Waiting(size: nat, left: int, since: nat)
    | Woken(size: nat, left: int, since: nat)
    | Draining(node: Node, size: nat, seen: seq<Byte>)
    | Drained(node: Node, out: seq<Byte>)
    | Failing(error: Result)

  datatype Result = Sent | Received(out: seq<Byte>) | EFULL | ETIMEOUT | ERROR

  /** `slots` holds the bytes behind each node. */
  datatype State = State(maxMsgs: nat, msgSize: nat, policy: Policy, now: nat, free: seq<Node>, queue: seq<Node>, slots: seq<seq<Byte>>,
                         waiters: seq<Tid>, prio: map<Tid, nat>, phase: map<Tid, Phase>, result: map<Tid, Result>)

  /** `Proceed` lets a thread that does not wait take the next step of its call. */
  datatype Event =
    | Send(t: Tid, data: seq<Byte>, urgent: bool) | Recv(t: Tid, size: nat, timeout: int) | Proceed(t: Tid)
    | Expire(t: Tid) | SetPriority(t: Tid, p: nat) | Reset | Tick

  predicate Holding(p: Phase) {
    p.Filling? || p.Filled? || p.Draining? || p.Drained?
  }

  ghost function InFlight(phase: map<Tid, Phase>): set<Node> {
    set t | t in phase && Holding(phase[t]) :: phase[t].node
  }

  /** Exactly the nodes of the pool. */
  ghost predicate Whole(nodes: set<Node>, n: nat) {
    forall x: Node :: x in nodes <==> x < n
  }

  ghost predicate Known(s: State) {
    && s.phase.Keys <= s.prio.Keys && |s.slots| == s.maxMsgs
    && (forall x :: x in s.waiters ==> x in s.phase && s.phase[x].Waiting?)
    && (forall n :: n in s.free ==> n < s.maxMsgs) && (forall n :: n in s.queue ==> n < s.maxMsgs)
    && (forall n :: n in InFlight(s.phase) ==> n < s.maxMsgs)
    && (forall n :: 0 <= n < s.maxMsgs ==> |s.slots[n]| == s.msgSize)
  }

  function Enter(s: State, t: Tid, p: Phase): State {
    s.(phase := s.phase[t := p])
  }

  function Return(s: State, t: Tid, r: Result): State {
    Enter(s, t, Idle).(result := s.result[t := r])
  }

  /** The first critical region of rt_mq_send and rt_mq_urgent: take a free node. */
  function Grab(s: State, t: Tid, data: seq<Byte>, urgent: bool): State
    requires Known(s) && t in s.phase
  {
    if |data| > s.msgSize then s.(result := s.result[t := ERROR])
    else if s.free == [] then s.(result := s.result[t := EFULL])
    else Enter(s, t, Filling(s.free[0], data, urgent)).(free := s.free[1..])
  }

  /** The copy into the node; what lies behind a shorter message stays there. */
  function Fill(s: State, t: Tid): State
    requires Known(s) && t in s.phase && s.phase[t].Filling? && |s.phase[t].data| <= s.msgSize
  {
    var p := s.phase[t];
    assert p.node in InFlight(s.phase);
    Enter(s, t, Filled(p.node, p.data, p.urgent)).(slots := s.slots[p.node := p.data + s.slots[p.node][|p.data|..]])
  }

  function WakeOne(s: State): State
    requires Known(s)
  {
    if s.waiters == [] then s
    else
      var w := s.phase[s.waiters[0]];
      s.(waiters := s.waiters[1..], phase := s.phase[s.waiters[0] := Woken(w.size, w.left, w.since)])
  }

  /** The second critical region: link the node at the end, or in front if it is urgent, and wake a receiver. */
  function Link(s: State, t: Tid): State
    requires Known(s) && t in s.phase && s.phase[t].Filled? && t !in s.waiters
  {
    var p := s.phase[t];
    var r := Return(s, t, Sent).(queue := if p.urgent then [p.node] + s.queue else s.queue + [p.node]);
    LinkKnown(s, t, r);
    WakeOne(r)
  }

  lemma LinkKnown(s: State, t: Tid, r: State)
    requires Known(s) && t in s.phase && s.phase[t].Filled? && t !in s.waiters
    requires r == Return(s, t, Sent).(queue := if s.phase[t].urgent then [s.phase[t].node] + s.queue else s.queue + [s.phase[t].node])
    ensures Known(r)
  {
    assert s.phase[t].node in InFlight(s.phase);
    assert InFlight(r.phase) <= InFlight(s.phase);
  }

  /** rt_mq_recv from its loop head: unlink the first message, give up, or wait. */
  function RecvOn(s: State, t: Tid, size: nat, left: int): State
    requires Known(s) && t in s.phase
  {
    if s.queue != [] then
      assert s.queue[0] in s.queue;
      Enter(s, t, Draining(s.queue[0], size, s.slots[s.queue[0]])).(queue := s.queue[1..])
    else if left == 0 then Return(s, t, ETIMEOUT)
    else Enter(s, t, Waiting(size, left, s.now)).(waiters := Enqueue(s.policy, s.prio, s.waiters, t))
  }

  /** The copy out of the node. */
  function Drain(s: State, t: Tid): State
    requires Known(s) && t in s.phase && s.phase[t].Draining?
  {
    var p := s.phase[t];
    assert p.node in InFlight(s.phase);
    Enter(s, t, Drained(p.node, s.slots[p.node][..if p.size > s.msgSize then s.msgSize else p.size]))
  }

  /** The last critical region of rt_mq_recv: put the node on the free list. */
  function GiveBack(s: State, t: Tid): State
    requires t in s.phase && s.phase[t].Drained?
  {
    Return(s, t, Received(s.phase[t].out)).(free := [s.phase[t].node] + s.free)
  }

  function RunOn(s: State, t: Tid): State
    requires Known(s) && t in s.phase && (s.phase[t].Filling? ==> |s.phase[t].data| <= s.msgSize)
  {
    match s.phase[t]
    case Filling(_, _, _) => Fill(s, t)
    case Filled(_, _, _) => Link(s, t)
    case Woken(size, left, since) => RecvOn(s, t, size, Left(left, since, s.now))
    case Draining(_, _, _) => Drain(s, t)
    case Drained(_, _) => GiveBack(s, t)
    case Failing(error) => Return(s, t, error)
    case _ => s
  }

  /** rt_thread_timeout. */
  function TimeOut(s: State, t: Tid): State
    requires Known(s) && t in s.phase
  {
    if s.phase[t].Waiting? && 0 < s.phase[t].left <= s.now - s.phase[t].since then
      Enter(s, t, Failing(ETIMEOUT)).(waiters := Without(s.waiters, t))
    else s
  }

  /** The queued nodes, first to last, each put in front of the free list. */
  function FreeAll(free: seq<Node>, queue: seq<Node>): (r: seq<Node>)
    ensures forall n :: n in r <==> n in free || n in queue
    decreases |queue|
  {
    if queue == [] then free else FreeAll([queue[0]] + free, queue[1..])
  }

  /** rt_mq_control with RT_IPC_CMD_RESET. Nodes in flight stay where they are. */
  function ResetAll(s: State): State {
    s.(free := FreeAll(s.free, s.queue), queue := [], waiters := [], phase := SetAll(s.phase, s.waiters, Failing(ERROR)))
  }

  ghost predicate Fits(s: State) {
    forall t :: t in s.phase && s.phase[t].Filling? ==> |s.phase[t].data| <= s.msgSize
  }

  /** An event that does not apply to the thread's phase does nothing. */
  function Step(s: State, e: Event): State
    requires Known(s) && Fits(s)
  {
    match e
    case Send(t, data, urgent) => if t in s.phase && s.phase[t].Idle? then Grab(s, t, data, urgent) else s
    case Recv(t, size, timeout) => if t in s.phase && s.phase[t].Idle? then RecvOn(s, t, size, timeout) else s
    case Proceed(t) => if t in s.phase then RunOn(s, t) else s
    case Expire(t) => if t in s.phase then TimeOut(s, t) else s
    case SetPriority(t, p) => s.(prio := s.prio[t := p])
    case Reset => ResetAll(s)
    case Tick => s.(now := s.now + 1)
  }

  // ----- the nodes -----

  /** No two threads hold the same node. */
  ghost predicate OneEach(phase: map<Tid, Phase>) {
    forall t, u :: t in phase && u in phase && t != u && Holding(phase[t]) && Holding(phase[u]) ==> phase[t].node != phase[u].node
  }

  /** Every node of the pool is free, queued or in flight, and only one of these. */
  ghost predicate Partition(s: State) {
    && Distinct(s.free) && Distinct(s.queue) && OneEach(s.phase)
    && Members(s.free) !! Members(s.queue) && Members(s.free) !! InFlight(s.phase) && Members(s.queue) !! InFlight(s.phase)
    && Whole(Members(s.free) + Members(s.queue) + InFlight(s.phase), s.maxMsgs)
  }

  /** Nobody touches a node in flight but its holder. */
  ghost predicate Private(s: State)
    requires Known(s)
  {
    && Fits(s)
    && (forall t :: t in s.phase && s.phase[t].Filled? ==> s.phase[t].node in InFlight(s.phase) && s.phase[t].data <= s.slots[s.phase[t].node])
    && (forall t :: t in s.phase && s.phase[t].Draining? ==> s.phase[t].node in InFlight(s.phase) && s.phase[t].seen == s.slots[s.phase[t].node])
  }

  ghost function WokenOnes(phase: map<Tid, Phase>): set<Tid> {
    set t | t in phase && phase[t].Woken?
  }

  /** No lost wakeup, up to `r` receivers that are on their way. */
  ghost predicate Awake(s: State, r: int) {
    && Distinct(s.waiters) && (forall x :: x in s.phase && s.phase[x].Waiting? ==> x in s.waiters)
    && (s.waiters != [] ==> |s.queue| <= |WokenOnes(s.phase)| + r)
  }

  ghost predicate Inv(s: State) {
    Known(s) && Partition(s) && Private(s) && Awake(s, 0)
  }

  // ----- sets of nodes under a change of one phase -----

  lemma FlightIn(phase: map<Tid, Phase>, t: Tid, p: Phase)
    requires t in phase && !Holding(phase[t]) && Holding(p) && OneEach(phase) && p.node !in InFlight(phase)
    ensures InFlight(phase[t := p]) == InFlight(phase) + {p.node} && OneEach(phase[t := p])
  {
    var r := phase[t := p];
    forall n | n in InFlight(phase) ensures n in InFlight(r) {
      var u :| u in phase && Holding(phase[u]) && phase[u].node == n;
      assert r[u] == phase[u];
    }
    assert r[t].node in InFlight(r);
    forall u | u in phase && Holding(phase[u]) ensures phase[u].node in InFlight(phase) {}
  }

  lemma FlightOut(phase: map<Tid, Phase>, t: Tid, p: Phase)
    requires t in phase && Holding(phase[t]) && !Holding(p) && OneEach(phase)
    ensures InFlight(phase[t := p]) == InFlight(phase) - {phase[t].node} && phase[t].node in InFlight(phase) && OneEach(phase[t := p])
  {
    var r := phase[t := p];
    forall n | n in InFlight(phase) && n != phase[t].node ensures n in InFlight(r) {
      var u :| u in phase && Holding(phase[u]) && phase[u].node == n;
      assert r[u] == phase[u];
    }
  }

  lemma FlightStays(phase: map<Tid, Phase>, t: Tid, p: Phase)
    requires t in phase && OneEach(phase)
    requires if Holding(p) then Holding(phase[t]) && phase[t].node == p.node else !Holding(phase[t])
    ensures InFlight(phase[t := p]) == InFlight(phase) && OneEach(phase[t := p])
  {
    var r := phase[t := p];
    forall n | n in InFlight(phase) ensures n in InFlight(r) {
      var u :| u in phase && Holding(phase[u]) && phase[u].node == n;
      assert r[u].node == n;
    }
    forall n | n in InFlight(r) ensures n in InFlight(phase) {
      var u :| u in r && Holding(r[u]) && r[u].node == n;
      assert phase[u].node == n;
    }
  }

  lemma WokenCount(phase: map<Tid, Phase>, t: Tid, p: Phase)
    requires t in phase
    ensures |WokenOnes(phase[t := p])| == |WokenOnes(phase)| - (if phase[t].Woken? then 1 else 0) + (if p.Woken? then 1 else 0)
  {
    var a, b := WokenOnes(phase), WokenOnes(phase[t := p]);
    assert a - {t} == b - {t};
    assert t in a ==> a == (a - {t}) + {t};
    assert t in b ==> b == (b - {t}) + {t};
  }

  lemma Tail(q: seq<Node>)
    requires q != [] && Distinct(q)
    ensures Members(q[1..]) == Members(q) - {q[0]} && Distinct(q[1..]) && q[0] in Members(q)
  {
    assert q == [q[0]] + q[1..];
  }

  // ----- every step keeps the invariant -----

  lemma GrabKeeps(s: State, t: Tid, data: seq<Byte>, urgent: bool)
    requires Inv(s) && t in s.phase && s.phase[t].Idle?
    ensures Inv(Grab(s, t, data, urgent))
  {
    if |data| <= s.msgSize && s.free != [] {
      var p := Filling(s.free[0], data, urgent);
      Tail(s.free);
      assert s.free[0] in s.free && forall n :: n in s.free[1..] ==> n in s.free;
      FlightIn(s.phase, t, p);
      WokenCount(s.phase, t, p);
    }
  }

  lemma FillKeeps(s: State, t: Tid)
    requires Inv(s) && t in s.phase && s.phase[t].Filling?
    ensures Inv(Fill(s, t))
  {
    var p := s.phase[t];
    var q := Filled(p.node, p.data, p.urgent);
    FlightStays(s.phase, t, q);
    WokenCount(s.phase, t, q);
    assert p.node in InFlight(s.phase);
  }

  lemma WakeKeeps(s: State)
    requires Known(s) && Partition(s) && Private(s) && Awake(s, 1)
    ensures Inv(WakeOne(s))
  {
    if s.waiters != [] {
      var t := s.waiters[0];
      var w := Woken(s.phase[t].size, s.phase[t].left, s.phase[t].since);
      FlightStays(s.phase, t, w);
      WokenCount(s.phase, t, w);
      assert s.waiters == [t] + s.waiters[1..];
    }
  }

  lemma LinkKeeps(s: State, t: Tid)
    requires Inv(s) && t in s.phase && s.phase[t].Filled?
    ensures t !in s.waiters && Inv(Link(s, t))
  {
    var p := s.phase[t];
    var r := Return(s, t, Sent).(queue := if p.urgent then [p.node] + s.queue else s.queue + [p.node]);
    LinkKnown(s, t, r);
    FlightOut(s.phase, t, Idle);
    WokenCount(s.phase, t, Idle);
    assert p.node !in Members(s.queue);
    assert Members(r.queue) == Members(s.queue) + {p.node};
    WakeKeeps(r);
  }

  lemma UnlinkKeeps(s: State, t: Tid, size: nat, left: int)
    requires Inv(s) && t in s.phase && (s.phase[t].Idle? || s.phase[t].Woken?) && s.queue != []
    ensures Inv(RecvOn(s, t, size, left))
  {
    var r := RecvOn(s, t, size, left);
    Tail(s.queue);
    assert s.queue[0] in s.queue && forall n :: n in r.queue ==> n in s.queue;
    FlightIn(s.phase, t, r.phase[t]);
    WokenCount(s.phase, t, r.phase[t]);
  }

  lemma WaitKeeps(s: State, t: Tid, size: nat, left: int)
    requires Inv(s) && t in s.phase && (s.phase[t].Idle? || s.phase[t].Woken?) && s.queue == [] && left != 0
    ensures Inv(RecvOn(s, t, size, left))
  {
    var r := RecvOn(s, t, size, left);
    FlightStays(s.phase, t, r.phase[t]);
    WokenCount(s.phase, t, r.phase[t]);
    assert Partition(r) && Private(r);
    assert t !in s.waiters;
    EnqueueDistinct(s.policy, s.prio, s.waiters, t);
  }

  lemma RecvOnKeeps(s: State, t: Tid, size: nat, left: int)
    requires Inv(s) && t in s.phase && (s.phase[t].Idle? || s.phase[t].Woken?)
    ensures Inv(RecvOn(s, t, size, left))
  {
    if s.queue != [] {
      UnlinkKeeps(s, t, size, left);
    } else if left == 0 {
      FlightStays(s.phase, t, Idle);
      WokenCount(s.phase, t, Idle);
    } else {
      WaitKeeps(s, t, size, left);
    }
  }

  lemma DrainKeeps(s: State, t: Tid)
    requires Inv(s) && t in s.phase && s.phase[t].Draining?
    ensures Inv(Drain(s, t))
  {
    var p := Drain(s, t).phase[t];
    FlightStays(s.phase, t, p);
    WokenCount(s.phase, t, p);
  }

  lemma GiveBackKeeps(s: State, t: Tid)
    requires Inv(s) && t in s.phase && s.phase[t].Drained?
    ensures Inv(GiveBack(s, t))
  {
    var p := s.phase[t];
    FlightOut(s.phase, t, Idle);
    WokenCount(s.phase, t, Idle);
    assert p.node !in Members(s.free);
    assert Members(GiveBack(s, t).free) == Members(s.free) + {p.node};
  }

  lemma FailKeeps(s: State, t: Tid, r: Result)
    requires Inv(s) && t in s.phase && s.phase[t].Failing?
    ensures Inv(Return(s, t, r))
  {
    FlightStays(s.phase, t, Idle);
    WokenCount(s.phase, t, Idle);
  }

  lemma TimeOutKeeps(s: State, t: Tid)
    requires Inv(s) && t in s.phase
    ensures Inv(TimeOut(s, t))
  {
    if TimeOut(s, t) != s {
      FlightStays(s.phase, t, Failing(ETIMEOUT));
      WokenCount(s.phase, t, Failing(ETIMEOUT));
      WithoutDistinct(s.waiters, t);
    }
  }

  lemma {:induction false} FreeAllDiffer(free: seq<Node>, queue: seq<Node>)
    requires Distinct(free) && Distinct(queue) && Members(free) !! Members(queue)
    ensures Distinct(FreeAll(free, queue)) && Members(FreeAll(free, queue)) == Members(free) + Members(queue)
    decreases |queue|
  {
    if queue != [] {
      Tail(queue);
      assert queue[0] !in Members(free);
      assert Members([queue[0]] + free) == Members(free) + {queue[0]};
      FreeAllDiffer([queue[0]] + free, queue[1..]);
    }
  }

  lemma FailedFlight(phase: map<Tid, Phase>, q: seq<Tid>)
    requires OneEach(phase) && forall x :: x in q ==> x in phase && phase[x].Waiting?
    ensures InFlight(SetAll(phase, q, Failing(ERROR))) == InFlight(phase) && OneEach(SetAll(phase, q, Failing(ERROR)))
  {
    var r := SetAll(phase, q, Failing(ERROR));
    forall n | n in InFlight(phase) ensures n in InFlight(r) {
      var u :| u in phase && Holding(phase[u]) && phase[u].node == n;
      assert r[u] == phase[u];
    }
  }

  lemma ResetKeeps(s: State)
    requires Inv(s)
    ensures Inv(ResetAll(s))
  {
    FreeAllDiffer(s.free, s.queue);
    FailedFlight(s.phase, s.waiters);
  }

  lemma ProceedKeeps(s: State, t: Tid)
    requires Inv(s) && t in s.phase
    ensures Inv(RunOn(s, t))
  {
    match s.phase[t]
    case Filling(_, _, _) => FillKeeps(s, t);
    case Filled(_, _, _) => LinkKeeps(s, t);
    case Woken(size, left, since) => RecvOnKeeps(s, t, size, Left(left, since, s.now));
    case Draining(_, _, _) => DrainKeeps(s, t);
    case Drained(_, _) => GiveBackKeeps(s, t);
    case Failing(error) => FailKeeps(s, t, error);
    case _ =>
  }

  lemma StepKeeps(s: State, e: Event)
    requires Inv(s)
    ensures Inv(Step(s, e))
  {
    match e
    case Send(t, data, urgent) => if t in s.phase && s.phase[t].Idle? { GrabKeeps(s, t, data, urgent); }
    case Recv(t, size, timeout) => if t in s.phase && s.phase[t].Idle? { RecvOnKeeps(s, t, size, timeout); }
    case Proceed(t) => if t in s.phase { ProceedKeeps(s, t); }
    case Expire(t) => if t in s.phase { TimeOutKeeps(s, t); }
    case SetPriority(t, p) =>
    case Reset => ResetKeeps(s);
    case Tick =>
  }

  // ----- the deque of messages -----

  ghost function Texts(slots: seq<seq<Byte>>, q: seq<Node>): (c: seq<seq<Byte>>)
    requires forall i :: 0 <= i < |q| ==> q[i] < |slots|
    ensures |c| == |q| && forall i :: 0 <= i < |q| ==> c[i] == slots[q[i]]
  {
    seq(|q|, i requires 0 <= i < |q| => slots[q[i]])
  }

  /** The queued messages, first to last. */
  ghost function Contents(s: State): (c: seq<seq<Byte>>)
    requires Known(s)
  {
    assert forall i :: 0 <= i < |s.queue| ==> s.queue[i] in s.queue;
    Texts(s.slots, s.queue)
  }

  lemma TextsPush(slots: seq<seq<Byte>>, q: seq<Node>, n: Node)
    requires n < |slots| && forall i :: 0 <= i < |q| ==> q[i] < |slots|
    ensures Texts(slots, q + [n]) == Texts(slots, q) + [slots[n]] && Texts(slots, [n] + q) == [slots[n]] + Texts(slots, q)
  {
  }

  /** The thread is about to unlink the first message. */
  predicate Receives(s: State, e: Event) {
    && s.queue != []
    && match e
       case Recv(t, _, _) => t in s.phase && s.phase[t].Idle?
       case Proceed(t) => t in s.phase && s.phase[t].Woken?
       case _ => false
  }

  /** The thread is about to link its message. */
  predicate Links(s: State, e: Event) {
    e.Proceed? && e.t in s.phase && s.phase[e.t].Filled?
  }

  /** What a step does to the deque: linking pushes at the back, or in front if urgent; receiving pops the front;
      a reset clears it; nothing else touches it, whoever is copying meanwhile. */
  ghost function OnDeque(s: State, e: Event): seq<seq<Byte>>
    requires Inv(s)
  {
    var c := Contents(s);
    if Links(s, e) then
      var slot := s.slots[s.phase[e.t].node];
      if s.phase[e.t].urgent then [slot] + c else c + [slot]
    else if Receives(s, e) then c[1..]
    else if e.Reset? then []
    else c
  }

  lemma FillElsewhere(s: State, t: Tid)
    requires Inv(s) && t in s.phase && s.phase[t].Filling?
    ensures Inv(Fill(s, t)) && Contents(Fill(s, t)) == Contents(s)
  {
    FillKeeps(s, t);
    var n := s.phase[t].node;
    assert n in InFlight(s.phase);
    assert forall i :: 0 <= i < |s.queue| ==> s.queue[i] in Members(s.queue);
  }

  lemma LinkPushes(s: State, t: Tid)
    requires Inv(s) && t in s.phase && s.phase[t].Filled?
    ensures Inv(Link(s, t))
    ensures Contents(Link(s, t)) == OnDeque(s, Proceed(t))
  {
    LinkKeeps(s, t);
    assert s.phase[t].node in InFlight(s.phase);
    assert forall i :: 0 <= i < |s.queue| ==> s.queue[i] in s.queue;
    TextsPush(s.slots, s.queue, s.phase[t].node);
  }

  lemma ReceivePops(s: State, t: Tid, size: nat, left: int)
    requires Inv(s) && t in s.phase && (s.phase[t].Idle? || s.phase[t].Woken?)
    ensures Inv(RecvOn(s, t, size, left))
    ensures Contents(RecvOn(s, t, size, left)) == if s.queue == [] then Contents(s) else Contents(s)[1..]
    ensures s.queue != [] ==> RecvOn(s, t, size, left).phase[t] == Draining(s.queue[0], size, Contents(s)[0])
  {
    RecvOnKeeps(s, t, size, left);
  }

  lemma OthersKeep(s: State, e: Event)
    requires Inv(s) && !Receives(s, e) && !Links(s, e) && !e.Reset?
    requires e.Proceed? && e.t in s.phase ==> !s.phase[e.t].Filling?
    ensures Step(s, e).queue == s.queue && Step(s, e).slots == s.slots
  {
    if e.Proceed? && e.t in s.phase { RunKeepsQueue(s, e.t); }
  }

  lemma RunKeepsQueue(s: State, t: Tid)
    requires Inv(s) && t in s.phase && !s.phase[t].Filling? && !s.phase[t].Filled? && (s.phase[t].Woken? ==> s.queue == [])
    ensures RunOn(s, t).queue == s.queue && RunOn(s, t).slots == s.slots
  {
  }

  /** Every step of the linked queue is the step of the deque. */
  lemma StepIsDequeStep(s: State, e: Event)
    requires Inv(s)
    ensures Inv(Step(s, e))
    ensures Contents(Step(s, e)) == OnDeque(s, e)
  {
    StepKeeps(s, e);
    if e.Proceed? && e.t in s.phase && s.phase[e.t].Filling? {
      FillElsewhere(s, e.t);
    } else if Links(s, e) {
      LinkPushes(s, e.t);
    } else if Receives(s, e) {
      ReceivedIs(s, e);
    } else if !e.Reset? {
      OthersKeep(s, e);
    }
  }

  lemma ReceivedIs(s: State, e: Event)
    requires Inv(s) && Receives(s, e)
    ensures Inv(Step(s, e)) && Contents(Step(s, e)) == OnDeque(s, e)
  {
    match e
    case Recv(t, size, timeout) => ReceivePops(s, t, size, timeout);
    case Proceed(t) => ReceivePops(s, t, s.phase[t].size, Left(s.phase[t].left, s.phase[t].since, s.now));
  }

  // ----- whole runs -----

  function Run(s: State, es: seq<Event>): (r: State)
    requires Inv(s)
    decreases |es|
  {
    if es == [] then s else
      StepKeeps(s, es[0]);
      Run(Step(s, es[0]), es[1..])
  }

  /** After rt_mq_init: all nodes are free and no thread is in a call. */
  ghost predicate Fresh(s: State) {
    && Known(s) && s.queue == [] && s.waiters == [] && Distinct(s.free) && Whole(Members(s.free), s.maxMsgs)
    && forall x :: x in s.phase ==> s.phase[x].Idle?
  }

  lemma SizeKept(s: State, e: Event)
    requires Inv(s)
    ensures Inv(Step(s, e)) && Step(s, e).maxMsgs == s.maxMsgs
  {
    StepKeeps(s, e);
  }

  lemma {:induction false} RunKeeps(s: State, es: seq<Event>)
    requires Inv(s)
    ensures Inv(Run(s, es)) && Run(s, es).maxMsgs == s.maxMsgs
    decreases |es|
  {
    if es != [] {
      SizeKept(s, es[0]);
      RunKeeps(Step(s, es[0]), es[1..]);
    }
  }

  lemma {:induction false} WholeCount(nodes: set<Node>, n: nat)
    requires Whole(nodes, n)
    ensures |nodes| == n
    decreases n
  {
    if n > 0 {
      assert n - 1 in nodes;
      WholeCount(nodes - {n - 1}, n - 1);
    }
  }

  /** In every run every node is free, queued or held by one thread; a waiting receiver faces an empty queue unless woken
      ones are still to run; and a thread in the middle of a copy has its node to itself. */
  lemma NodesAreConserved(s: State, es: seq<Event>)
    requires Fresh(s)
    ensures Inv(s)
    ensures var r := Run(s, es);
      && Partition(r) && |r.free| + |r.queue| + |InFlight(r.phase)| == s.maxMsgs
      && (r.waiters != [] ==> |r.queue| <= |WokenOnes(r.phase)|)
  {
    assert InFlight(s.phase) == {};
    RunKeeps(s, es);
    var r := Run(s, es);
    MemberCount(r.free);
    MemberCount(r.queue);
    WholeCount(Members(r.free) + Members(r.queue) + InFlight(r.phase), r.maxMsgs);
  }

  /** A message arrives intact, whatever others did during the copies: a linked slot begins with the bytes the sender passed,
      and a receiver gets the slot as it was when it was first in the queue. */
  lemma MessagesAreIntact(s: State, es: seq<Event>, t: Tid)
    requires Fresh(s) && Inv(s) && t in Run(s, es).phase
    ensures Inv(Run(s, es))
    ensures var r := Run(s, es);
      && (r.phase[t].Filled? ==> r.phase[t].node < |r.slots| && r.phase[t].data <= r.slots[r.phase[t].node])
      && (r.phase[t].Draining? ==>
            var n := if r.phase[t].size > r.msgSize then r.msgSize else r.phase[t].size;
            n <= |r.phase[t].seen| && RunOn(r, t).phase[t] == Drained(r.phase[t].node, r.phase[t].seen[..n]))
  {
    RunKeeps(s, es);
    var r := Run(s, es);
    assert Holding(r.phase[t]) ==> r.phase[t].node in InFlight(r.phase);
  }

  // ----- the linked lists -----

  const NULL := -1

  ghost function First(s: seq<Node>): int {
    if s == [] then NULL else s[0]
  }

  ghost function Last(s: seq<Node>): int {
    if s == [] then NULL else s[|s| - 1]
  }

  /** From `p` on, `next` visits the nodes of `s` in order. */
  ghost predicate Chain(next: seq<int>, p: int, s: seq<Node>) {
    && p == First(s)
    && forall i {:trigger s[i]} :: 0 <= i < |s| ==> s[i] < |next| && next[s[i]] == if i + 1 < |s| then s[i + 1] else NULL
  }

  lemma ChainEmpty(next: seq<int>)
    ensures Chain(next, NULL, []) && Last([]) == NULL
  {
  }

  lemma ChainElsewhere(next: seq<int>, p: int, s: seq<Node>, n: Node, v: int)
    requires Chain(next, p, s) && n < |next| && n !in s
    ensures Chain(next[n := v], p, s)
  {
  }

  lemma ChainPush(next: seq<int>, p: int, s: seq<Node>, n: Node)
    requires Chain(next, p, s) && n < |next| && n !in s
    ensures Chain(next[n := p], n, [n] + s) && Last([n] + s) == if s == [] then n else Last(s)
  {
    var r := [n] + s;
    forall i | 0 <= i < |r| ensures r[i] < |next| && next[n := p][r[i]] == if i + 1 < |r| then r[i + 1] else NULL {
      if i > 0 { assert r[i] == s[i - 1]; }
    }
  }

  lemma ChainPop(next: seq<int>, p: int, s: seq<Node>)
    requires Chain(next, p, s) && s != []
    ensures 0 <= p < |next| && Chain(next, next[p], s[1..])
  {
    var r := s[1..];
    forall i | 0 <= i < |r| ensures r[i] < |next| && next[r[i]] == if i + 1 < |r| then r[i + 1] else NULL {
      assert r[i] == s[i + 1];
    }
    assert s[0] == p;
  }

  lemma ChainAppend(next: seq<int>, p: int, s: seq<Node>, n: Node)
    requires Chain(next, p, s) && n < |next| && n !in s && Distinct(s) && next[n] == NULL
    ensures s == [] ==> Chain(next, n, [n])
    ensures s != [] ==> 0 <= Last(s) < |next| && Chain(next[Last(s) := n], p, s + [n])
  {
    if s != [] {
      var r, m := s + [n], next[Last(s) := n];
      forall i | 0 <= i < |r| ensures r[i] < |m| && m[r[i]] == if i + 1 < |r| then r[i + 1] else NULL {
        if i < |s| { assert r[i] == s[i]; }
      }
    }
  }

  /** Everything about the links of a message queue. */
  ghost predicate Chains(next: seq<int>, free: int, head: int, tail: int, s: State) {
    && |next| == s.maxMsgs && Chain(next, free, s.free) && Chain(next, head, s.queue) && tail == Last(s.queue)
    && (forall t :: t in s.phase && s.phase[t].Filled? && !s.phase[t].urgent ==> s.phase[t].node < |next| && next[s.phase[t].node] == NULL)
  }

  lemma NewIsValid(s: State)
    requires s.queue == [] && s.waiters == [] && Distinct(s.free) && Whole(Members(s.free), s.maxMsgs) && |s.slots| == s.maxMsgs
    requires s.phase.Keys <= s.prio.Keys && (forall x :: x in s.phase ==> s.phase[x].Idle?)
    requires forall n :: 0 <= n < s.maxMsgs ==> |s.slots[n]| == s.msgSize
    ensures Inv(s) && Fresh(s)
  {
    assert InFlight(s.phase) == {};
    assert forall n :: n in s.free ==> n in Members(s.free);
  }

  lemma NewIsLinked(next: seq<int>, free: int, s: State)
    requires Chain(next, free, s.free) && s.queue == [] && |next| == s.maxMsgs && forall t :: t in s.phase ==> s.phase[t].Idle?
    ensures Chains(next, free, NULL, NULL, s)
  {
  }

  lemma CountDown(q: seq<Node>)
    requires forall i :: 0 <= i < |q| ==> q[i] == |q| - 1 - i
    ensures Distinct(q) && Whole(Members(q), |q|)
  {
    var all := Members(q);
    forall x | x in all ensures x < |q| {
      var i :| 0 <= i < |q| && q[i] == x;
    }
    forall x: Node | x < |q| ensures x in all { assert q[|q| - 1 - x] == x; }
  }

  /** A node that thread `t` holds is in neither list and with no other thread. */
  lemma HeldApart(s: State, t: Tid)
    requires Inv(s) && t in s.phase && Holding(s.phase[t])
    ensures s.phase[t].node < s.maxMsgs && s.phase[t].node !in s.queue && s.phase[t].node !in s.free
    ensures forall u :: u in s.phase && u != t && s.phase[u].Filled? ==> s.phase[u].node != s.phase[t].node
  {
    assert s.phase[t].node in InFlight(s.phase);
    assert s.phase[t].node !in Members(s.queue) && s.phase[t].node !in Members(s.free);
  }

  lemma FilledNotQueued(s: State)
    requires Inv(s)
    ensures forall u :: u in s.phase && s.phase[u].Filled? ==> s.phase[u].node !in s.queue
    ensures forall m :: m in s.queue ==> m !in s.free
  {
    forall u | u in s.phase && s.phase[u].Filled? ensures s.phase[u].node !in s.queue { HeldApart(s, u); }
    assert forall m :: m in s.queue ==> m in Members(s.queue);
  }

  /** What is known when thread `t` links its node; `r` is the state before a receiver is woken. */
  lemma Linking(s: State, t: Tid) returns (r: State)
    requires Inv(s) && t in s.phase && s.phase[t].Filled?
    ensures t !in s.waiters && Known(r) && Link(s, t) == WakeOne(r)
    ensures var p := s.phase[t];
      && r == Return(s, t, Sent).(queue := if p.urgent then [p.node] + s.queue else s.queue + [p.node])
      && p.node < s.maxMsgs && p.node !in s.queue && p.node !in s.free && Distinct(s.queue)
    ensures forall u :: u in r.phase && r.phase[u].Filled? ==> r.phase[u].node !in s.queue && r.phase[u].node != s.phase[t].node
    ensures forall m :: m in s.queue ==> m !in s.free
  {
    HeldApart(s, t);
    FilledNotQueued(s);
    var p := s.phase[t];
    r := Return(s, t, Sent).(queue := if p.urgent then [p.node] + s.queue else s.queue + [p.node]);
    LinkKnown(s, t, r);
  }

  /** The bytes behind the nodes; rt_mq_create does not set them to anything in particular. */
  method NewPool(maxMsgs: nat, msgSize: nat) returns (slots: array<seq<Byte>>)
    ensures fresh(slots) && slots.Length == maxMsgs && forall n :: 0 <= n < maxMsgs ==> |slots[..][n]| == msgSize
  {
    slots := new seq<Byte>[maxMsgs](_ => seq(msgSize, _ => 0));
  }

  /** struct rt_messagequeue over the nodes `0 .. next.Length - 1` of its pool, with the threads that use it. */
  class MsgQueue {
    const next: array<int>
    const slots: array<seq<Byte>>
    const msgSize: nat
    const policy: Policy
    /** The list suspend_thread, and the nodes of the threads. */
    const wait: ListTable<Side>
    var free: int
    var head: int
    var tail: int
    var entry: nat
    var prio: map<Tid, nat>
    var phase: map<Tid, Phase>
    var result: map<Tid, Result>
    var now: nat
    ghost var frees: seq<Node>
    ghost var queue: seq<Node>

    ghost function View(): State
      reads this, slots, wait
    {
      State(slots.Length, msgSize, policy, now, frees, queue, slots[..], wait.Of(Takers), prio, phase, result)
    }

    /** The links of the nodes. */
    ghost predicate Linked()
      reads this, next, slots, wait
    {
      Chains(next[..], free, head, tail, View()) && entry == |queue|
    }

    /** The links of the waiting threads. */
    ghost predicate Ringed()
      reads this, wait, wait.Cells()
    {
      wait.Valid() && wait.list.Keys == {Takers} && phase.Keys <= wait.node.Keys
    }

    ghost predicate Valid()
      reads this, next, slots, wait, wait.Cells()
    {
      Linked() && Ringed() && Inv(View())
    }

    /** rt_mq_init. */
    constructor (maxMsgs: nat, msgSize: nat, policy: Policy, prio: map<Tid, nat>)
      ensures Valid() && fresh(next) && fresh(slots) && fresh(wait) && fresh(wait.Cells()) && Fresh(View()) && next.Length == maxMsgs
      ensures this.msgSize == msgSize && this.policy == policy && this.prio == prio
    {
      hide ListTable<Side>.Valid, Inv, Fresh, Distinct, Whole, Members, Chain, Chains;
      next := new int[maxMsgs];
      var pool := NewPool(maxMsgs, msgSize);
      slots := pool;
      this.msgSize, this.policy, this.prio := msgSize, policy, prio;
      head, tail, entry, free := NULL, NULL, 0, NULL;
      wait := new ListTable({Takers}, prio.Keys);
      phase, result, now := map t | t in prio :: Idle, map[], 0;
      frees, queue := [], [];
      new;
      ChainEmpty(next[..]);
      BuildFree();
      NewIsLinked(next[..], free, View());
      NewIsValid(View());
    }

    /** Pushes every node on the free list in turn. */
    method BuildFree()
      requires frees == [] && free == NULL
      modifies this`free, this`frees, next
      ensures Chain(next[..], free, frees) && Distinct(frees) && Whole(Members(frees), next.Length)
    {
      var n: nat := 0;
      while n < next.Length
        invariant n <= next.Length && |frees| == n && (forall i :: 0 <= i < n ==> frees[i] == n - 1 - i) && Chain(next[..], free, frees)
      {
        ChainPush(next[..], free, frees, n);
        ghost var links := next[..];
        next[n] := free;
        assert next[..] == links[n := free];
        free, frees, n := n, [n] + frees, n + 1;
      }
      CountDown(frees);
    }

    /** Takes a node off the free list for a sender. */
    method GrabFor(t: Tid, data: seq<Byte>, urgent: bool)
      requires Valid() && t in phase && phase[t].Idle?
      modifies this, wait, wait.Cells()
      ensures Linked() && Ringed() && View() == Grab(old(View()), t, data, urgent)
    {
      hide ListTable<Side>.Valid, Private, Awake, Partition;
      if |data| > msgSize {
        result := result[t := ERROR];
      } else if free == NULL {
        result := result[t := EFULL];
      } else {
        ChainPop(next[..], free, frees);
        phase := phase[t := Filling(free, data, urgent)];
        free := next[free];
        frees := frees[1..];
      }
    }

    /** The sender's copy, with interrupts enabled. */
    method FillFor(t: Tid)
      requires Valid() && t in phase && phase[t].Filling?
      modifies this`phase, next, slots, wait, wait.Cells()
      ensures Linked() && Ringed() && View() == Fill(old(View()), t)
    {
      hide ListTable<Side>.Valid, Chain, Partition, Awake, Distinct;
      var p := phase[t];
      var n := p.node;
      HeldApart(View(), t);
      ghost var texts := slots[..];
      if !p.urgent { ClearLink(n); }
      slots[n] := p.data + slots[n][|p.data|..];
      assert slots[..] == texts[n := p.data + texts[n][|p.data|..]];
      phase := phase[t := Filled(n, p.data, p.urgent)];
    }

    method ClearLink(n: Node)
      requires Linked() && n < next.Length && n !in queue && n !in frees
      modifies next
      ensures Linked() && next[n] == NULL
    {
      hide Chain;
      ghost var links := next[..];
      ChainElsewhere(links, free, frees, n, NULL);
      ChainElsewhere(links, head, queue, n, NULL);
      next[n] := NULL;
      assert next[..] == links[n := NULL];
    }

    method ReturnTo(t: Tid, r: Result)
      requires Linked() && Ringed() && t in phase
      modifies this`phase, this`result, wait, wait.Cells()
      ensures Linked() && Ringed() && View() == Return(old(View()), t, r)
    {
      hide ListTable<Side>.Valid, Chain;
      phase, result := phase[t := Idle], result[t := r];
    }

    /** The links of the second critical region of rt_mq_send. */
    method PushBack(n: Node)
      requires Linked() && Distinct(queue) && n < next.Length && n !in queue && n !in frees && next[n] == NULL
      requires forall m :: m in queue ==> m !in frees
      requires forall u :: u in phase && phase[u].Filled? ==> phase[u].node !in queue
      modifies this`head, this`tail, this`entry, this`queue, next
      ensures Linked() && queue == old(queue) + [n]
    {
      ghost var links := next[..];
      ChainAppend(links, head, queue, n);
      if tail != NULL {
        assert tail == Last(queue) && Last(queue) in queue;
        ChainElsewhere(links, free, frees, tail, n);
        next[tail] := n;
        assert next[..] == links[tail := n];
      }
      tail := n;
      if head == NULL { head := n; }
      entry := entry + 1;
      queue := queue + [n];
    }

    /** The links of the second critical region of rt_mq_urgent. */
    method PushFront(n: Node)
      requires Linked() && n < next.Length && n !in queue && n !in frees
      requires forall u :: u in phase && phase[u].Filled? && !phase[u].urgent ==> phase[u].node != n
      modifies this`head, this`tail, this`entry, this`queue, next
      ensures Linked() && queue == [n] + old(queue)
    {
      ghost var links := next[..];
      ChainPush(links, head, queue, n);
      ChainElsewhere(links, free, frees, n, head);
      next[n] := head;
      assert next[..] == links[n := head];
      head := n;
      if tail == NULL { tail := n; }
      entry := entry + 1;
      queue := [n] + queue;
    }

    method Enlist(n: Node, urgent: bool)
      requires Linked() && Distinct(queue) && n < next.Length && n !in queue && n !in frees && (!urgent ==> next[n] == NULL)
      requires forall m :: m in queue ==> m !in frees
      requires forall u :: u in phase && phase[u].Filled? ==> phase[u].node !in queue && phase[u].node != n
      modifies this`head, this`tail, this`entry, this`queue, next
      ensures Linked() && queue == if urgent then [n] + old(queue) else old(queue) + [n]
    {
      if urgent {
        PushFront(n);
      } else {
        PushBack(n);
      }
    }

    method WakeFirst()
      requires Linked() && Ringed() && Known(View())
      modifies this`phase, wait, wait.Cells()
      ensures Linked() && Ringed() && View() == WakeOne(old(View()))
    {
      hide ListTable<Side>.Valid;
      var empty := wait.Empty(Takers);
      if !empty {
        var t := wait.Resume(Takers);
        phase := phase[t := Woken(phase[t].size, phase[t].left, phase[t].since)];
      }
    }

    /** Links the sender's node into the queue. */
    method AttachFor(t: Tid) returns (ghost r: State)
      requires Valid() && t in phase && phase[t].Filled?
      modifies this, next, wait, wait.Cells()
      ensures Linked() && Ringed() && View() == r && Known(r)
      ensures old(t !in wait.Of(Takers)) && Link(old(View()), t) == WakeOne(r)
    {
      hide ListTable<Side>.Valid, Chain, Partition, Private, Awake, Distinct, Known, Link, WakeOne, InFlight;
      var p := phase[t];
      r := Linking(View(), t);
      ReturnTo(t, Sent);
      Enlist(p.node, p.urgent);
    }

    /** Links the sender's node into the queue and wakes a receiver. */
    method LinkFor(t: Tid)
      requires Valid() && t in phase && phase[t].Filled?
      modifies this, next, wait, wait.Cells()
      ensures Linked() && Ringed() && old(t !in wait.Of(Takers)) && View() == Link(old(View()), t)
    {
      hide ListTable<Side>.Valid;
      ghost var r := AttachFor(t);
      WakeFirst();
    }

    /** Takes the first message out of the queue. */
    method Unlink() returns (n: Node)
      requires Linked() && Distinct(queue) && queue != []
      modifies this`head, this`tail, this`entry, this`queue
      ensures n == old(queue[0]) && queue == old(queue[1..]) && Linked()
    {
      ChainPop(next[..], head, queue);
      Tail(queue);
      n := head;
      head := next[n];
      if tail == n { tail := NULL; }
      entry := entry - 1;
      queue := queue[1..];
      assert queue != [] ==> Last(queue) in queue;
    }

    /** rt_ipc_list_suspend, with the rest of the timeout. */
    method WaitFor(t: Tid, size: nat, left: int)
      requires Valid() && t in phase && (phase[t].Idle? || phase[t].Woken?) && queue == [] && left != 0
      modifies this`phase, wait, wait.Cells()
      ensures Linked() && Ringed() && View() == RecvOn(old(View()), t, size, left)
    {
      hide ListTable<Side>.Valid, Enqueue, Partition, Private, Awake;
      assert Unlisted(wait.list, t);
      wait.Suspend(Takers, t, policy, prio);
      phase := phase[t := Waiting(size, left, now)];
    }

    /** rt_mq_recv from its loop head to the next point where other threads may run. */
    method RecvFrom(t: Tid, size: nat, left: int)
      requires Valid() && t in phase && (phase[t].Idle? || phase[t].Woken?)
      modifies this, wait, wait.Cells()
      ensures Linked() && Ringed() && View() == RecvOn(old(View()), t, size, left)
    {
      hide ListTable<Side>.Valid, Enqueue, Chain, Private, Awake;
      if entry == 0 {
        if left == 0 {
          phase, result := phase[t := Idle], result[t := ETIMEOUT];
        } else {
          WaitFor(t, size, left);
        }
      } else {
        assert queue[0] in queue;
        var n := Unlink();
        phase := phase[t := Draining(n, size, slots[n])];
      }
    }

    /** Puts a node in front of the free list. */
    method Release(n: Node)
      requires Linked() && n < next.Length && n !in queue && n !in frees
      requires forall u :: u in phase && phase[u].Filled? ==> phase[u].node != n
      modifies this`free, this`frees, next
      ensures Linked() && frees == [n] + old(frees)
    {
      ghost var links := next[..];
      ChainPush(links, free, frees, n);
      ChainElsewhere(links, head, queue, n, free);
      next[n] := free;
      assert next[..] == links[n := free];
      free := n;
      frees := [n] + frees;
    }

    /** The receiver puts its node on the free list. */
    method GiveBackFor(t: Tid)
      requires Valid() && t in phase && phase[t].Drained?
      modifies this, next, wait, wait.Cells()
      ensures Linked() && Ringed() && View() == GiveBack(old(View()), t)
    {
      hide ListTable<Side>.Valid, Chain, Private, Awake, Partition;
      var p := phase[t];
      HeldApart(View(), t);
      phase, result := phase[t := Idle], result[t := Received(p.out)];
      Release(p.node);
    }

    /** Moves the first queued node to the free list. */
    method Discard()
      requires Linked() && Distinct(queue) && queue != [] && Members(frees) !! Members(queue)
      requires forall u :: u in phase && phase[u].Filled? ==> phase[u].node !in queue
      modifies this`free, this`head, this`tail, this`entry, this`frees, this`queue, next
      ensures Linked() && Distinct(queue) && Members(frees) !! Members(queue)
      ensures frees == [old(queue)[0]] + old(frees) && queue == old(queue)[1..]
    {
      Tail(queue);
      var n := Unlink();
      assert n !in Members(frees) && n !in Members(queue);
      Release(n);
      assert Members(frees) == Members(old(frees)) + {n};
    }

    /** The loop of a reset: moves all queued nodes to the free list. */
    method DiscardAll()
      requires Linked() && Distinct(queue) && Members(frees) !! Members(queue)
      requires forall u :: u in phase && phase[u].Filled? ==> phase[u].node !in queue
      modifies this`free, this`head, this`tail, this`entry, this`frees, this`queue, next
      ensures Linked() && queue == [] && frees == FreeAll(old(frees), old(queue))
    {
      while head != NULL
        invariant Linked() && Distinct(queue) && Members(frees) !! Members(queue)
        invariant forall u :: u in phase && phase[u].Filled? ==> phase[u].node !in queue
        invariant FreeAll(frees, queue) == FreeAll(old(frees), old(queue))
        decreases |queue|
      {
        Discard();
      }
    }

    /** Wakes all waiting threads, which then fail. */
    method FailAll()
      requires Linked() && Ringed() && Known(View())
      modifies this`phase, wait, wait.Cells()
      ensures Linked() && Ringed() && wait.list == old(wait.list)[Takers := []]
      ensures phase == old(SetAll(phase, wait.Of(Takers), Failing(ERROR)))
    {
      hide ListTable<Side>.Valid;
      var woken := wait.ResumeAll(Takers);
      phase := SetAll(phase, woken, Failing(ERROR));
    }

    /** rt_mq_control with RT_IPC_CMD_RESET. */
    method Reset()
      requires Valid()
      modifies this, next, wait, wait.Cells()
      ensures Linked() && Ringed() && View() == ResetAll(old(View()))
    {
      hide ListTable<Side>.Valid, Chain, Private, Awake, SetAll, FreeAll;
      FilledNotQueued(View());
      FailAll();
      DiscardAll();
    }

    /** rt_thread_timeout. */
    method ExpireFor(t: Tid)
      requires Linked() && Ringed() && Known(View()) && t in phase
      modifies this, wait, wait.Cells()
      ensures Linked() && Ringed() && View() == TimeOut(old(View()), t)
    {
      hide ListTable<Side>.Valid;
      if phase[t].Waiting? && 0 < phase[t].left <= now - phase[t].since {
        wait.TakeOut(t);
        phase := phase[t := Failing(ETIMEOUT)];
      }
    }

    /** The receiver's copy, with interrupts enabled. */
    method DrainFor(t: Tid)
      requires Valid() && t in phase && phase[t].Draining?
      modifies this`phase, wait, wait.Cells()
      ensures Linked() && Ringed() && View() == Drain(old(View()), t)
    {
      hide ListTable<Side>.Valid;
      var p := phase[t];
      assert p.node in InFlight(phase);
      phase := phase[t := Drained(p.node, slots[p.node][..if p.size > msgSize then msgSize else p.size])];
    }

    /** The next step of the call that thread `t` is in. */
    method ProceedFor(t: Tid)
      requires Valid() && t in phase
      modifies this, next, slots, wait, wait.Cells()
      ensures Linked() && Ringed() && View() == RunOn(old(View()), t)
    {
      hide ListTable<Side>.Valid, RecvOn, Link, Fill, Drain, GiveBack, Partition, Awake;
      var p := phase[t];
      if p.Filling? {
        FillFor(t);
      } else if p.Filled? {
        LinkFor(t);
      } else if p.Woken? {
        RecvFrom(t, p.size, Left(p.left, p.since, now));
      } else if p.Draining? {
        DrainFor(t);
      } else if p.Drained? {
        GiveBackFor(t);
      } else if p.Failing? {
        phase, result := phase[t := Idle], result[t := p.error];
      }
    }

    /** Every step of the real queue is the step of the model. */
    method Perform(e: Event)
      requires Valid()
      modifies this, next, slots, wait, wait.Cells()
      ensures Valid() && View() == Step(old(View()), e)
    {
      hide ListTable<Side>.Valid, RecvOn, Grab, RunOn, TimeOut, ResetAll, Chain, Partition, Awake;
      StepKeeps(View(), e);
      match e
      case Send(t, data, urgent) => if t in phase && phase[t].Idle? { GrabFor(t, data, urgent); }
      case Recv(t, size, timeout) => if t in phase && phase[t].Idle? { RecvFrom(t, size, timeout); }
      case Proceed(t) => if t in phase { ProceedFor(t); }
      case Expire(t) => if t in phase { ExpireFor(t); }
      case SetPriority(t, p) => prio := prio[t := p];
      case Reset => Reset();
      case Tick => now := now + 1;
    }
  }
}
