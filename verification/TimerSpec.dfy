/** What the timers of src/timer.c are for, in unbounded time: a queue of started timers in order of
    deadline, and of start for equal deadlines; a check fires the timers whose deadline has come.
    TimerQueue.dfy shows that the skip list over 32-bit ticks does exactly this. */
module TimerSpec {
  import opened Basics

  const TICK_MAX := 0xFFFF_FFFF

  type Tid = nat
  /** A start asserts `init_tick < RT_TICK_MAX / 2`; a zero interval is not modelled. */
  type Interval = n: nat | 1 <= n < TICK_MAX / 2 witness 1

  /** `stamp` numbers the starts and `linked` is the tick in which the timer was put into the queue; the kernel keeps neither. */
  datatype Timer = Timer(init: Interval, periodic: bool, active: bool, due: nat, stamp: nat, linked: nat)

  datatype Firing = Firing(id: Tid, at: nat, due: nat, stamp: nat, linked: nat)

  /** `starts` counts the starts so far and `log` the firings, oldest first; the kernel keeps neither. `torn` says that a timer has
      been linked in while it was in the queue, which leaves no ring of that (TimerQueue.LinkRow). */
  datatype State = State(now: nat, starts: nat, timer: map<Tid, Timer>, queue: seq<Tid>, log: seq<Firing>, torn: bool)

  /** What a thread, or a timeout function while it runs, may do to any timer. */
  datatype Action = Start(id: Tid) | Stop(id: Tid) | SetTime(id: Tid, interval: Interval) | SetPeriodic(id: Tid, periodic: bool)

  /** With interrupts enabled rt_timer_start and rt_timer_stop are not one step: a start takes the timer out of the queue,
      computes its deadline and puts it into the queue, a stop takes it out and then clears its flag, and anything may happen
      in between. */
  datatype Part = Begins | Computes | Links | Unlinks | Clears

  /** In `Tick(script)` the k-th timeout function that the check calls performs `script[k]`. `Do` is a call made with
      interrupts disabled. */
  datatype Event = Tick(script: seq<seq<Action>>) | Do(action: Action) | Partial(part: Part, id: Tid)

  /** `id` goes behind every timer that is due no later than itself. */
  function Insert(timer: map<Tid, Timer>, q: seq<Tid>, id: Tid): (r: seq<Tid>)
    requires id in timer && forall x :: x in q ==> x in timer
    ensures |r| == |q| + 1 && forall x :: x in r <==> x in q || x == id
  {
    if q == [] || timer[q[0]].due > timer[id].due then [id] + q
    else [q[0]] + Insert(timer, q[1..], id)
  }

  ghost predicate QueueKnown(s: State) {
    forall x :: x in s.queue ==> x in s.timer
  }

  /** _rt_timer_remove. */
  function TakeOut(s: State, id: Tid): (r: State)
    requires QueueKnown(s)
    ensures QueueKnown(r) && r.now == s.now && r.timer == s.timer && r.log == s.log
  {
    s.(queue := Without(s.queue, id))
  }

  function ClearFlag(s: State, id: Tid): (r: State)
    requires QueueKnown(s) && id in s.timer
    ensures QueueKnown(r) && r.now == s.now && r.queue == s.queue && r.log == s.log
  {
    s.(timer := s.timer[id := s.timer[id].(active := false)])
  }

  /** The first region of rt_timer_start with interrupts disabled. */
  function Begin(s: State, id: Tid): (r: State)
    requires QueueKnown(s) && id in s.timer
    ensures QueueKnown(r) && r.now == s.now && r.log == s.log
  {
    ClearFlag(TakeOut(s, id), id)
  }

  /** The line between the two regions. */
  function Compute(s: State, id: Tid): (r: State)
    requires QueueKnown(s) && id in s.timer
    ensures QueueKnown(r) && r.now == s.now && r.queue == s.queue && r.log == s.log
  {
    s.(timer := s.timer[id := s.timer[id].(due := s.now + s.timer[id].init)])
  }

  function Linked(s: State, id: Tid): map<Tid, Timer>
    requires id in s.timer
  {
    s.timer[id := s.timer[id].(stamp := s.starts, linked := s.now, active := true)]
  }

  /** The second region. A timer that is in the queue already must not be linked in again. */
  function Link(s: State, id: Tid): (r: State)
    requires QueueKnown(s) && id in s.timer
    ensures QueueKnown(r) && r.now == s.now && r.log == s.log
  {
    s.(starts := s.starts + 1, timer := Linked(s, id), queue := if id in s.queue then s.queue else Insert(Linked(s, id), s.queue, id),
       torn := s.torn || id in s.queue)
  }

  /** rt_timer_start. */
  function StartTimer(s: State, id: Tid): (r: State)
    requires QueueKnown(s)
    ensures QueueKnown(r) && r.now == s.now
  {
    if id !in s.timer then s else Link(Compute(Begin(s, id), id), id)
  }

  /** rt_timer_stop: stopping a timer that is not active does nothing (the source returns an error). */
  function StopTimer(s: State, id: Tid): (r: State)
    requires QueueKnown(s)
    ensures QueueKnown(r) && r.now == s.now
  {
    if id !in s.timer || !s.timer[id].active then s else ClearFlag(TakeOut(s, id), id)
  }

  /** One part of a start or a stop. */
  function DoPart(s: State, p: Part, id: Tid): (r: State)
    requires QueueKnown(s)
    ensures QueueKnown(r) && r.now == s.now && r.log == s.log
  {
    if id !in s.timer then s
    else
      match p
      case Begins => Begin(s, id)
      case Computes => Compute(s, id)
      case Links => Link(s, id)
      case Unlinks => TakeOut(s, id)
      case Clears => ClearFlag(s, id)
  }

  function Apply(s: State, a: Action): (r: State)
    requires QueueKnown(s)
    ensures QueueKnown(r) && r.now == s.now
  {
    match a
    case Start(id) => StartTimer(s, id)
    case Stop(id) => StopTimer(s, id)
    case SetTime(id, n) => if id in s.timer then s.(timer := s.timer[id := s.timer[id].(init := n)]) else s
    case SetPeriodic(id, p) => if id in s.timer then s.(timer := s.timer[id := s.timer[id].(periodic := p)]) else s
  }

  function ApplyAll(s: State, actions: seq<Action>): (r: State)
    requires QueueKnown(s)
    ensures QueueKnown(r) && r.now == s.now
    decreases |actions|
  {
    if actions == [] then s else ApplyAll(Apply(s, actions[0]), actions[1..])
  }

  /** The head leaves the queue. */
  function Fire(s: State): (r: State)
    requires QueueKnown(s) && s.queue != []
    ensures QueueKnown(r) && r.now == s.now
  {
    var t := s.timer[s.queue[0]];
    s.(queue := Without(s.queue, s.queue[0]), log := s.log + [Firing(s.queue[0], s.now, t.due, t.stamp, t.linked)])
  }

  /** After its timeout function a periodic timer that is still active starts again; any other one is marked inactive. */
  function Finish(s: State, id: Tid): (r: State)
    requires QueueKnown(s)
    ensures QueueKnown(r) && r.now == s.now
  {
    if id !in s.timer then s
    else if s.timer[id].periodic && s.timer[id].active then StartTimer(s, id)
    else ClearFlag(s, id)
  }

  function Served(s: State, script: seq<seq<Action>>): (r: State)
    requires QueueKnown(s) && s.queue != []
    ensures QueueKnown(r) && r.now == s.now
  {
    Finish(ApplyAll(Fire(s), if script == [] then [] else script[0]), s.queue[0])
  }

  predicate HeadDue(s: State)
    requires QueueKnown(s)
  {
    s.queue != [] && s.timer[s.queue[0]].due <= s.now
  }

  function Rest<T>(script: seq<T>): seq<T> {
    if script == [] then [] else script[1..]
  }

  /** rt_timer_check: serves due timers from the head until the head is not due. */
  function Check(s: State, script: seq<seq<Action>>): (r: State)
    requires QueueKnown(s)
    ensures QueueKnown(r) && !HeadDue(r) && r.now == s.now
    decreases DueCount(s.timer, s.queue, s.now)
  {
    if !HeadDue(s) then s
    else
      ServedDueCount(s, script);
      Check(Served(s, script), Rest(script))
  }

  function Step(s: State, e: Event): (r: State)
    requires QueueKnown(s)
    ensures QueueKnown(r)
  {
    match e
    case Tick(script) => Check(s.(now := s.now + 1), script)
    case Do(a) => Apply(s, a)
    case Partial(p, id) => DoPart(s, p, id)
  }

  function Run(s: State, es: seq<Event>): (r: State)
    requires QueueKnown(s)
    ensures QueueKnown(r)
    decreases |es|
  {
    if es == [] then s else Run(Step(s, es[0]), es[1..])
  }

  // ----- the check loop ends -----

  ghost function DueCount(timer: map<Tid, Timer>, q: seq<Tid>, now: nat): nat
    requires forall x :: x in q ==> x in timer
  {
    if q == [] then 0 else (if timer[q[0]].due <= now then 1 else 0) + DueCount(timer, q[1..], now)
  }

  lemma {:induction false} DueCountWithout(timer: map<Tid, Timer>, q: seq<Tid>, id: Tid, now: nat)
    requires forall x :: x in q ==> x in timer
    ensures DueCount(timer, Without(q, id), now) <= DueCount(timer, q, now)
    ensures q != [] && q[0] == id && timer[id].due <= now ==> DueCount(timer, Without(q, id), now) < DueCount(timer, q, now)
  {
    if q != [] {
      DueCountWithout(timer, q[1..], id, now);
      if q[0] != id {
        assert Without(q, id)[1..] == Without(q[1..], id);
      }
    }
  }

  lemma {:induction false} DueCountInsert(timer: map<Tid, Timer>, q: seq<Tid>, id: Tid, now: nat)
    requires id in timer && timer[id].due > now && forall x :: x in q ==> x in timer
    ensures DueCount(timer, Insert(timer, q, id), now) == DueCount(timer, q, now)
  {
    if q == [] || timer[q[0]].due > timer[id].due {
      assert ([id] + q)[1..] == q;
    } else {
      DueCountInsert(timer, q[1..], id, now);
      assert ([q[0]] + Insert(timer, q[1..], id))[1..] == Insert(timer, q[1..], id);
    }
  }

  lemma {:induction false} DueCountSame(timer: map<Tid, Timer>, timer': map<Tid, Timer>, q: seq<Tid>, now: nat)
    requires forall x :: x in q ==> x in timer && x in timer' && timer[x].due == timer'[x].due
    ensures DueCount(timer, q, now) == DueCount(timer', q, now)
  {
    if q != [] { DueCountSame(timer, timer', q[1..], now); }
  }

  ghost function Due(s: State): nat
    requires QueueKnown(s)
  {
    DueCount(s.timer, s.queue, s.now)
  }

  lemma StartDue(s: State, id: Tid)
    requires QueueKnown(s)
    ensures Due(StartTimer(s, id)) <= Due(s)
  {
    if id in s.timer {
      var r := StartTimer(s, id);
      DueCountWithout(s.timer, s.queue, id, s.now);
      DueCountSame(s.timer, r.timer, Without(s.queue, id), s.now);
      DueCountInsert(r.timer, Without(s.queue, id), id, s.now);
    }
  }

  lemma ApplyDue(s: State, a: Action)
    requires QueueKnown(s)
    ensures Due(Apply(s, a)) <= Due(s)
  {
    match a
    case Start(id) => StartDue(s, id);
    case Stop(id) =>
      var r := StopTimer(s, id);
      DueCountWithout(s.timer, s.queue, id, s.now);
      DueCountSame(s.timer, r.timer, Without(s.queue, id), s.now);
    case SetTime(_, _) => DueCountSame(s.timer, Apply(s, a).timer, s.queue, s.now);
    case SetPeriodic(_, _) => DueCountSame(s.timer, Apply(s, a).timer, s.queue, s.now);
  }

  lemma {:induction false} ApplyAllDue(s: State, actions: seq<Action>)
    requires QueueKnown(s)
    ensures Due(ApplyAll(s, actions)) <= Due(s)
    decreases |actions|
  {
    if actions != [] {
      ApplyDue(s, actions[0]);
      ApplyAllDue(Apply(s, actions[0]), actions[1..]);
    }
  }

  /** Whatever the timeout function does, fewer timers are due after it. */
  lemma ServedDueCount(s: State, script: seq<seq<Action>>)
    requires QueueKnown(s) && HeadDue(s)
    ensures Due(Served(s, script)) < Due(s)
  {
    var id := s.queue[0];
    DueCountWithout(s.timer, s.queue, id, s.now);
    var f := Fire(s);
    var actions := if script == [] then [] else script[0];
    ApplyAllDue(f, actions);
    var c := ApplyAll(f, actions);
    StartDue(c, id);
    if id in c.timer {
      DueCountSame(c.timer, c.timer[id := c.timer[id].(active := false)], c.queue, c.now);
    }
  }
}
