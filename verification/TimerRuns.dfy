/** What holds in every run of the timers of src/timer.c, for any timeout functions. */
module TimerRuns {
  import opened Basics
  import opened TimerSpec

  /** The order in which timers are served: by deadline, then by start. */
  ghost predicate Before(due: nat, stamp: nat, due': nat, stamp': nat) {
    due < due' || (due == due' && stamp < stamp')
  }

  ghost predicate Sorted(timer: map<Tid, Timer>, q: seq<Tid>)
    requires forall x :: x in q ==> x in timer
  {
    q == [] ||
    ((forall x :: x in q[1..] ==> Before(timer[q[0]].due, timer[q[0]].stamp, timer[x].due, timer[x].stamp))
     && Sorted(timer, q[1..]))
  }

  /** The furthest a deadline can be away. */
  const HORIZON := TICK_MAX / 2 - 1

  /** When a timer fires: at its deadline, or in the first tick after it was put into the queue if it was put there too late. */
  function FireTick(due: nat, linked: nat): nat {
    Max(due, linked + 1)
  }

  ghost predicate Inv(s: State) {
    && QueueKnown(s) && Sorted(s.timer, s.queue) && !s.torn
    && (forall x :: x in s.timer ==> s.timer[x].due <= s.now + HORIZON)
    && (forall x :: x in s.queue ==> s.timer[x].linked <= s.now && s.timer[x].stamp < s.starts)
  }

  /** One firing came before another one: in an earlier tick, or in the same one but earlier in the serving order. */
  ghost predicate Earlier(f: Firing, g: Firing) {
    f.at < g.at || (f.at == g.at && Before(f.due, f.stamp, g.due, g.stamp))
  }

  /** Every timer fired in its tick, and in the right order. */
  ghost predicate LogInv(s: State) {
    && (forall i :: 0 <= i < |s.log| ==> s.log[i].at == FireTick(s.log[i].due, s.log[i].linked) <= s.now)
    && (forall i, j :: 0 <= i < j < |s.log| ==> Earlier(s.log[i], s.log[j]))
  }

  /** During a check: nothing is overdue, what has been put into the queue in this tick is not due yet, and what has fired in this
      tick came before all that is still queued. */
  ghost predicate Checking(s: State)
    requires QueueKnown(s)
  {
    && (forall x :: x in s.queue ==> s.now <= FireTick(s.timer[x].due, s.timer[x].linked) && (s.timer[x].linked < s.now || s.now < s.timer[x].due))
    && (forall i, x :: 0 <= i < |s.log| && x in s.queue && s.log[i].at == s.now ==>
          Before(s.log[i].due, s.log[i].stamp, s.timer[x].due, s.timer[x].stamp))
  }

  ghost predicate Mid(s: State) {
    Inv(s) && LogInv(s) && Checking(s)
  }

  /** Between ticks nothing is left that should have fired. */
  ghost predicate Settled(s: State)
    requires QueueKnown(s)
  {
    forall x :: x in s.queue ==> s.now < FireTick(s.timer[x].due, s.timer[x].linked)
  }

  ghost predicate Good(s: State) {
    Inv(s) && LogInv(s) && Settled(s)
  }

  // ----- the queue order -----

  lemma {:induction false} SortedWithout(timer: map<Tid, Timer>, q: seq<Tid>, id: Tid)
    requires forall x :: x in q ==> x in timer
    requires Sorted(timer, q)
    ensures Sorted(timer, Without(q, id))
  {
    if q != [] {
      SortedWithout(timer, q[1..], id);
      if q[0] != id {
        assert Without(q, id)[1..] == Without(q[1..], id);
      }
    }
  }

  lemma {:induction false} SortedInsert(timer: map<Tid, Timer>, q: seq<Tid>, id: Tid)
    requires id in timer && forall x :: x in q ==> x in timer && timer[x].stamp < timer[id].stamp
    requires Sorted(timer, q)
    ensures Sorted(timer, Insert(timer, q, id))
  {
    var r := Insert(timer, q, id);
    if q == [] || timer[q[0]].due > timer[id].due {
      assert r[1..] == q;
      forall x | x in q ensures timer[x].due > timer[id].due {
        if x != q[0] { assert x in q[1..]; }
      }
    } else {
      SortedInsert(timer, q[1..], id);
      assert r[1..] == Insert(timer, q[1..], id);
    }
  }

  lemma {:induction false} SortedSame(timer: map<Tid, Timer>, timer': map<Tid, Timer>, q: seq<Tid>)
    requires forall x :: x in q ==> x in timer && x in timer' && timer[x].due == timer'[x].due && timer[x].stamp == timer'[x].stamp
    requires Sorted(timer, q)
    ensures Sorted(timer', q)
  {
    if q != [] { SortedSame(timer, timer', q[1..]); }
  }

  // ----- every step keeps the invariant -----

  lemma TakeOutKeeps(s: State, id: Tid)
    requires Inv(s) && LogInv(s)
    ensures Inv(TakeOut(s, id)) && LogInv(TakeOut(s, id))
    ensures (Settled(s) ==> Settled(TakeOut(s, id))) && (Checking(s) ==> Checking(TakeOut(s, id)))
  {
    SortedWithout(s.timer, s.queue, id);
  }

  /** Changes to timers that leave deadlines and starts alone. */
  lemma SameKeeps(s: State, timer: map<Tid, Timer>)
    requires Inv(s) && LogInv(s) && timer.Keys == s.timer.Keys
    requires forall x :: x in timer ==> timer[x].due == s.timer[x].due && timer[x].stamp == s.timer[x].stamp && timer[x].linked == s.timer[x].linked
    ensures var r := s.(timer := timer); Inv(r) && LogInv(r) && (Settled(s) ==> Settled(r)) && (Checking(s) ==> Checking(r))
  {
    SortedSame(s.timer, timer, s.queue);
  }

  lemma ClearKeeps(s: State, id: Tid)
    requires Inv(s) && LogInv(s) && id in s.timer
    ensures Inv(ClearFlag(s, id)) && LogInv(ClearFlag(s, id))
    ensures (Settled(s) ==> Settled(ClearFlag(s, id))) && (Checking(s) ==> Checking(ClearFlag(s, id)))
  {
    SameKeeps(s, ClearFlag(s, id).timer);
  }

  lemma BeginKeeps(s: State, id: Tid)
    requires Inv(s) && LogInv(s) && id in s.timer
    ensures Inv(Begin(s, id)) && LogInv(Begin(s, id)) && id !in Begin(s, id).queue
    ensures (Settled(s) ==> Settled(Begin(s, id))) && (Checking(s) ==> Checking(Begin(s, id)))
  {
    TakeOutKeeps(s, id);
    ClearKeeps(TakeOut(s, id), id);
  }

  lemma ComputeKeeps(s: State, id: Tid)
    requires Inv(s) && LogInv(s) && id in s.timer && id !in s.queue
    ensures Inv(Compute(s, id)) && LogInv(Compute(s, id))
    ensures (Settled(s) ==> Settled(Compute(s, id))) && (Checking(s) ==> Checking(Compute(s, id)))
  {
    SortedSame(s.timer, Compute(s, id).timer, s.queue);
  }

  lemma LinkKeeps(s: State, id: Tid)
    requires Inv(s) && LogInv(s) && id in s.timer && id !in s.queue
    ensures Inv(Link(s, id)) && LogInv(Link(s, id))
    ensures (Settled(s) ==> Settled(Link(s, id))) && (Checking(s) && s.now < s.timer[id].due ==> Checking(Link(s, id)))
  {
    hide Sorted, Insert;
    LinkSorted(s, id);
  }

  lemma LinkSorted(s: State, id: Tid)
    requires Inv(s) && id in s.timer && id !in s.queue
    ensures Sorted(Linked(s, id), Link(s, id).queue)
  {
    SortedSame(s.timer, Linked(s, id), s.queue);
    SortedInsert(Linked(s, id), s.queue, id);
  }

  lemma StartKeeps(s: State, id: Tid)
    requires Inv(s) && LogInv(s)
    ensures Inv(StartTimer(s, id)) && LogInv(StartTimer(s, id))
    ensures (Settled(s) ==> Settled(StartTimer(s, id))) && (Checking(s) ==> Checking(StartTimer(s, id)))
  {
    if id in s.timer {
      BeginKeeps(s, id);
      ComputeKeeps(Begin(s, id), id);
      LinkKeeps(Compute(Begin(s, id), id), id);
    }
  }

  lemma ApplyKeeps(s: State, a: Action)
    requires Inv(s) && LogInv(s)
    ensures Inv(Apply(s, a)) && LogInv(Apply(s, a))
    ensures (Settled(s) ==> Settled(Apply(s, a))) && (Checking(s) ==> Checking(Apply(s, a)))
  {
    match a
    case Start(id) => StartKeeps(s, id);
    case Stop(id) => if id in s.timer { BeginKeeps(s, id); }
    case SetTime(id, _) => if id in s.timer { SameKeeps(s, Apply(s, a).timer); }
    case SetPeriodic(id, _) => if id in s.timer { SameKeeps(s, Apply(s, a).timer); }
  }

  lemma {:induction false} ApplyAllKeeps(s: State, actions: seq<Action>)
    requires Mid(s)
    ensures Mid(ApplyAll(s, actions))
    decreases |actions|
  {
    if actions != [] {
      ApplyKeeps(s, actions[0]);
      ApplyAllKeeps(Apply(s, actions[0]), actions[1..]);
    }
  }

  lemma HeadFirst(s: State, x: Tid)
    requires Inv(s) && x in s.queue && x != s.queue[0]
    ensures Before(s.timer[s.queue[0]].due, s.timer[s.queue[0]].stamp, s.timer[x].due, s.timer[x].stamp)
  {
    assert x in s.queue[1..];
  }

  lemma FireKeeps(s: State)
    requires Mid(s) && HeadDue(s)
    ensures Mid(Fire(s))
  {
    SortedWithout(s.timer, s.queue, s.queue[0]);
    forall x | x in Fire(s).queue ensures Before(s.timer[s.queue[0]].due, s.timer[s.queue[0]].stamp, s.timer[x].due, s.timer[x].stamp) {
      HeadFirst(s, x);
    }
  }

  lemma FinishKeeps(s: State, id: Tid)
    requires Mid(s)
    ensures Mid(Finish(s, id))
  {
    StartKeeps(s, id);
    if id in s.timer { ClearKeeps(s, id); }
  }

  lemma ServedKeeps(s: State, script: seq<seq<Action>>)
    requires Mid(s) && HeadDue(s)
    ensures Mid(Served(s, script))
  {
    FireKeeps(s);
    var actions := if script == [] then [] else script[0];
    ApplyAllKeeps(Fire(s), actions);
    FinishKeeps(ApplyAll(Fire(s), actions), s.queue[0]);
  }

  lemma NothingDue(s: State)
    requires Mid(s) && !HeadDue(s)
    ensures Good(s)
  {
    forall x | x in s.queue ensures s.now < s.timer[x].due {
      if x != s.queue[0] { HeadFirst(s, x); }
    }
  }

  /** A check leaves nothing due, whatever the timeout functions do. */
  lemma {:induction false} CheckKeeps(s: State, script: seq<seq<Action>>)
    requires Mid(s)
    ensures Good(Check(s, script))
    decreases Due(s)
  {
    if HeadDue(s) {
      ServedKeeps(s, script);
      ServedDueCount(s, script);
      CheckKeeps(Served(s, script), Rest(script));
    } else {
      NothingDue(s);
    }
  }

  lemma TickStarts(s: State)
    requires Good(s)
    ensures Mid(s.(now := s.now + 1))
  {
  }

  /** `x` is served before `y`. */
  ghost predicate Ahead(timer: map<Tid, Timer>, x: Tid, y: Tid)
    requires x in timer && y in timer
  {
    Before(timer[x].due, timer[x].stamp, timer[y].due, timer[y].stamp)
  }

  /** A queue is sorted if and only if its neighbours are in order. */
  lemma {:induction false} SortedByNeighbours(timer: map<Tid, Timer>, q: seq<Tid>)
    requires forall x :: x in q ==> x in timer
    ensures Sorted(timer, q) <==> forall i :: 0 <= i < |q| - 1 ==> Ahead(timer, q[i], q[i + 1])
  {
    if |q| > 1 {
      var t := q[1..];
      SortedByNeighbours(timer, t);
      assert q[1] == t[0] && t[0] in t;
      if forall i :: 0 <= i < |q| - 1 ==> Ahead(timer, q[i], q[i + 1]) {
        forall i | 0 <= i < |t| - 1 ensures Ahead(timer, t[i], t[i + 1]) { assert t[i] == q[i + 1] && t[i + 1] == q[i + 2]; }
        assert Ahead(timer, q[0], q[1]);
        forall x | x in t ensures Ahead(timer, q[0], x) {
          if x != t[0] { assert x in t[1..]; }
        }
      } else if Sorted(timer, q) {
        forall i | 0 <= i < |q| - 1 ensures Ahead(timer, q[i], q[i + 1]) {
          if i > 0 { assert q[i] == t[i - 1] && q[i + 1] == t[i]; }
        }
      }
    }
  }

  /** The deadline that is computed for a timer would keep it between its neighbours, if it is in the queue. */
  ghost predicate Fits(s: State, id: Tid)
    requires QueueKnown(s) && id in s.timer
  {
    var timer := Compute(s, id).timer;
    forall i :: 0 <= i < |s.queue| - 1 && (s.queue[i] == id || s.queue[i + 1] == id) ==> Ahead(timer, s.queue[i], s.queue[i + 1])
  }

  /** When a part of a start comes at the right moment: a timer is linked in while it is in no queue, and its deadline is computed
      then too, or is one that leaves it in its place. */
  ghost predicate Orderly(s: State, e: Event)
    requires QueueKnown(s)
  {
    e.Partial? && e.id in s.timer ==> (e.part.Links? ==> e.id !in s.queue) && (e.part.Computes? ==> Fits(s, e.id))
  }

  /** Computing a deadline keeps the queue in order if and only if the timer keeps its place in it, or is not in it. */
  lemma ComputeKeepsIff(s: State, id: Tid)
    requires Inv(s) && LogInv(s) && id in s.timer
    ensures Inv(Compute(s, id)) <==> Fits(s, id)
    ensures Inv(Compute(s, id)) ==> LogInv(Compute(s, id)) && (Settled(s) ==> Settled(Compute(s, id)))
    ensures id !in s.queue ==> Fits(s, id)
  {
    var r, q := Compute(s, id), s.queue;
    SortedByNeighbours(s.timer, q);
    SortedByNeighbours(r.timer, q);
    forall i | 0 <= i < |q| - 1 && q[i] != id && q[i + 1] != id
      ensures Ahead(r.timer, q[i], q[i + 1])
    {
      assert Ahead(s.timer, q[i], q[i + 1]);
    }
    hide Sorted;
  }

  lemma StepKeeps(s: State, e: Event)
    requires Good(s) && Orderly(s, e)
    ensures Good(Step(s, e))
  {
    match e
    case Tick(script) =>
      TickStarts(s);
      CheckKeeps(s.(now := s.now + 1), script);
    case Do(a) => ApplyKeeps(s, a);
    case Partial(p, id) =>
      if id in s.timer {
        match p
        case Begins => BeginKeeps(s, id);
        case Computes => ComputeKeepsIff(s, id);
        case Links => LinkKeeps(s, id);
        case Unlinks => TakeOutKeeps(s, id);
        case Clears => ClearKeeps(s, id);
      }
  }

  /** Linking a timer in keeps the queue in order if and only if it is not there already. */
  lemma LinkKeepsIff(s: State, id: Tid)
    requires Good(s) && id in s.timer
    ensures Good(Link(s, id)) <==> id !in s.queue
    ensures id in s.queue ==> Link(s, id).torn
  {
    if id !in s.queue {
      LinkKeeps(s, id);
    }
  }

  /** A step leaves the queue in order if and only if it is no part of a start, or one that comes at the right moment. */
  lemma StepKeepsIff(s: State, e: Event)
    requires Good(s)
    ensures Good(Step(s, e)) <==> Orderly(s, e)
  {
    if Orderly(s, e) {
      StepKeeps(s, e);
    } else if e.part.Links? {
      LinkKeepsIff(s, e.id);
    } else {
      ComputeKeepsIff(s, e.id);
    }
  }

  ghost predicate OrderlyRun(s: State, es: seq<Event>)
    requires QueueKnown(s)
    decreases |es|
  {
    es == [] || (Orderly(s, es[0]) && OrderlyRun(Step(s, es[0]), es[1..]))
  }

  /** The queue is in order before and after every step of the run. */
  ghost predicate Throughout(s: State, es: seq<Event>)
    requires QueueKnown(s)
    decreases |es|
  {
    Good(s) && (es == [] || Throughout(Step(s, es[0]), es[1..]))
  }

  /** That is so if and only if every part of a start comes at the right moment. */
  lemma {:induction false} RunKeepsIff(s: State, es: seq<Event>)
    requires Good(s)
    ensures Throughout(s, es) <==> OrderlyRun(s, es)
    decreases |es|
  {
    hide LogInv, Settled, Sorted, Step, Orderly;
    if es != [] {
      StepKeepsIff(s, es[0]);
      if Good(Step(s, es[0])) {
        RunKeepsIff(Step(s, es[0]), es[1..]);
      }
    }
  }

  /** In every orderly run: the queue is in serving order, and every firing so far happened in the tick of its deadline, or in the
      first one after the timer was put into the queue if that was later; earlier ticks before later ones and, in the same
      tick, in the order of deadlines and, for equal deadlines, of starts. */
  lemma {:induction false} EveryRunIsGood(s: State, es: seq<Event>)
    requires Good(s) && OrderlyRun(s, es)
    ensures Good(Run(s, es))
    decreases |es|
  {
    if es != [] {
      StepKeeps(s, es[0]);
      EveryRunIsGood(Step(s, es[0]), es[1..]);
    }
  }

  // ----- when a started timer fires -----

  ghost predicate Touches(actions: seq<Action>, id: Tid) {
    Start(id) in actions || Stop(id) in actions
  }

  ghost predicate EventTouches(e: Event, id: Tid) {
    match e
    case Tick(script) => exists k :: 0 <= k < |script| && Touches(script[k], id)
    case Do(a) => Touches([a], id)
    case Partial(_, x) => x == id
  }

  /** Nobody starts or stops the timer. */
  ghost predicate Untouched(es: seq<Event>, id: Tid) {
    forall k :: 0 <= k < |es| ==> !EventTouches(es[k], id)
  }

  ghost function Ticks(es: seq<Event>): nat {
    if es == [] then 0 else (if es[0].Tick? then 1 else 0) + Ticks(es[1..])
  }

  /** The timer is in the queue, and `f` is how it will fire. */
  ghost predicate Awaits(s: State, f: Firing)
    requires QueueKnown(s)
  {
    && f.id in s.queue && s.timer[f.id].due == f.due && s.timer[f.id].stamp == f.stamp && s.timer[f.id].linked == f.linked
    && f.at == FireTick(f.due, f.linked)
  }

  lemma ApplyElsewhere(s: State, a: Action, f: Firing)
    requires QueueKnown(s) && Awaits(s, f) && a != Start(f.id) && a != Stop(f.id)
    ensures Awaits(Apply(s, a), f) && Apply(s, a).log == s.log
  {
  }

  lemma {:induction false} ApplyAllElsewhere(s: State, actions: seq<Action>, f: Firing)
    requires QueueKnown(s) && Awaits(s, f) && !Touches(actions, f.id)
    ensures Awaits(ApplyAll(s, actions), f) && ApplyAll(s, actions).log == s.log
    decreases |actions|
  {
    if actions != [] {
      ApplyElsewhere(s, actions[0], f);
      ApplyAllElsewhere(Apply(s, actions[0]), actions[1..], f);
    }
  }

  lemma ServedElsewhere(s: State, script: seq<seq<Action>>, f: Firing)
    requires QueueKnown(s) && s.queue != [] && s.queue[0] != f.id && Awaits(s, f)
    requires forall k :: 0 <= k < |script| ==> !Touches(script[k], f.id)
    ensures Awaits(Served(s, script), f)
  {
    ApplyAllElsewhere(Fire(s), if script == [] then [] else script[0], f);
  }

  lemma {:induction false} ApplyAllLog(s: State, actions: seq<Action>)
    requires QueueKnown(s)
    ensures ApplyAll(s, actions).log == s.log
    decreases |actions|
  {
    if actions != [] { ApplyAllLog(Apply(s, actions[0]), actions[1..]); }
  }

  lemma ServedLog(s: State, script: seq<seq<Action>>)
    requires QueueKnown(s) && s.queue != []
    ensures Served(s, script).log == Fire(s).log
  {
    ApplyAllLog(Fire(s), if script == [] then [] else script[0]);
  }

  lemma {:induction false} CheckLogGrows(s: State, script: seq<seq<Action>>)
    requires QueueKnown(s)
    ensures s.log <= Check(s, script).log
    decreases Due(s)
  {
    if HeadDue(s) {
      ServedDueCount(s, script);
      ServedLog(s, script);
      CheckLogGrows(Served(s, script), Rest(script));
    }
  }

  lemma {:induction false} CheckServes(s: State, script: seq<seq<Action>>, f: Firing)
    requires Mid(s) && Awaits(s, f)
    requires forall k :: 0 <= k < |script| ==> !Touches(script[k], f.id)
    ensures if f.at <= s.now then f in Check(s, script).log else Awaits(Check(s, script), f)
    decreases Due(s)
  {
    if HeadDue(s) {
      ServedDueCount(s, script);
      ServedKeeps(s, script);
      if s.queue[0] == f.id {
        ServedLog(s, script);
        CheckLogGrows(Served(s, script), Rest(script));
        assert Fire(s).log[|s.log|] == f;
      } else {
        ServedElsewhere(s, script, f);
        CheckServes(Served(s, script), Rest(script), f);
      }
    } else {
      NothingDue(s);
    }
  }

  lemma {:induction false} RunLogGrows(s: State, es: seq<Event>)
    requires QueueKnown(s)
    ensures s.log <= Run(s, es).log
    decreases |es|
  {
    if es != [] {
      if es[0].Tick? { CheckLogGrows(s.(now := s.now + 1), es[0].script); }
      RunLogGrows(Step(s, es[0]), es[1..]);
    }
  }

  lemma {:induction false} RunNow(s: State, es: seq<Event>)
    requires QueueKnown(s)
    ensures Run(s, es).now == s.now + Ticks(es)
    decreases |es|
  {
    if es != [] { RunNow(Step(s, es[0]), es[1..]); }
  }

  lemma StepServes(s: State, e: Event, f: Firing)
    requires Good(s) && Orderly(s, e) && Awaits(s, f) && !EventTouches(e, f.id)
    ensures if f.at <= Step(s, e).now then f in Step(s, e).log else Awaits(Step(s, e), f)
  {
    match e
    case Tick(script) =>
      TickStarts(s);
      CheckServes(s.(now := s.now + 1), script, f);
    case Do(a) =>
      assert a in [a];
      ApplyElsewhere(s, a, f);
    case Partial(_, _) =>
  }

  /** A queued timer that nobody starts or stops fires in its tick: before that tick it still waits, and from it on the log
      shows the firing. */
  lemma {:induction false} FiresInItsTick(s: State, es: seq<Event>, f: Firing)
    requires Good(s) && OrderlyRun(s, es) && Awaits(s, f) && Untouched(es, f.id)
    ensures if s.now + Ticks(es) < f.at then Awaits(Run(s, es), f) else f in Run(s, es).log
    decreases |es|
  {
    if es != [] {
      var m := Step(s, es[0]);
      StepKeeps(s, es[0]);
      assert !EventTouches(es[0], f.id);
      StepServes(s, es[0], f);
      if f.at <= m.now {
        RunLogGrows(m, es[1..]);
      } else {
        FiresInItsTick(m, es[1..], f);
      }
    }
  }

  lemma LinkAwaits(s: State, id: Tid)
    requires QueueKnown(s) && id in s.timer
    ensures Awaits(Link(s, id), Firing(id, FireTick(s.timer[id].due, s.now), s.timer[id].due, s.starts, s.now))
  {
  }

  lemma StartAwaits(s: State, id: Tid)
    requires QueueKnown(s) && id in s.timer
    ensures var due := s.now + s.timer[id].init; Awaits(StartTimer(s, id), Firing(id, due, due, s.starts, s.now))
  {
    LinkAwaits(Compute(Begin(s, id), id), id);
    hide Link, Awaits;
  }

  /** A timer started with interrupts disabled, that nobody restarts or stops, fires in the tick that makes its interval full,
      and in no other. */
  lemma StartedTimerFires(s: State, id: Tid, es: seq<Event>)
    requires Good(s) && id in s.timer && OrderlyRun(StartTimer(s, id), es) && Untouched(es, id)
    ensures var due := s.now + s.timer[id].init;
      var f := Firing(id, due, due, s.starts, s.now);
      if Ticks(es) < s.timer[id].init then Awaits(Run(StartTimer(s, id), es), f) else f in Run(StartTimer(s, id), es).log
  {
    StartKeeps(s, id);
    StartAwaits(s, id);
    hide StartTimer, Inv, LogInv, Settled, Awaits;
    var due := s.now + s.timer[id].init;
    FiresInItsTick(StartTimer(s, id), es, Firing(id, due, due, s.starts, s.now));
  }

  // ----- a timer started with interrupts enabled -----

  /** The parts make the whole call, with nothing in between. */
  lemma PartsMakeTheCalls(s: State, id: Tid)
    requires QueueKnown(s) && id in s.timer
    ensures Run(s, [Partial(Begins, id), Partial(Computes, id), Partial(Links, id)]) == Step(s, Do(Start(id)))
    ensures s.timer[id].active ==> Run(s, [Partial(Unlinks, id), Partial(Clears, id)]) == Step(s, Do(Stop(id)))
  {
    StartInParts(s, id);
    StopInParts(s, id);
    hide Step, Run;
    RunOfThree(s, Partial(Begins, id), Partial(Computes, id), Partial(Links, id));
    RunOfTwo(s, Partial(Unlinks, id), Partial(Clears, id));
  }

  lemma StartInParts(s: State, id: Tid)
    requires QueueKnown(s) && id in s.timer
    ensures Step(Step(Step(s, Partial(Begins, id)), Partial(Computes, id)), Partial(Links, id)) == Step(s, Do(Start(id)))
  {
    assert id in Begin(s, id).timer && id in Compute(Begin(s, id), id).timer;
    hide Begin, Compute, Link, QueueKnown;
  }

  lemma StopInParts(s: State, id: Tid)
    requires QueueKnown(s) && id in s.timer
    ensures s.timer[id].active ==> Step(Step(s, Partial(Unlinks, id)), Partial(Clears, id)) == Step(s, Do(Stop(id)))
  {
    hide TakeOut, ClearFlag, QueueKnown;
  }

  lemma RunOfTwo(s: State, a: Event, b: Event)
    requires QueueKnown(s)
    ensures Run(s, [a, b]) == Step(Step(s, a), b)
  {
    hide Step, QueueKnown;
    assert [a, b][1..] == [b] && [b][1..] == [];
    assert Run(Step(s, a), [b]) == Run(Step(Step(s, a), b), []);
  }

  lemma RunOfThree(s: State, a: Event, b: Event, c: Event)
    requires QueueKnown(s)
    ensures Run(s, [a, b, c]) == Step(Step(Step(s, a), b), c)
  {
    hide Step, QueueKnown;
    assert [a, b, c][1..] == [b, c];
    RunOfTwo(Step(s, a), b, c);
  }

  /** Out of the queue, with the deadline, the interval and the mode that it had. */
  ghost predicate OutWith(s: State, id: Tid, due: nat) {
    Good(s) && id in s.timer && id !in s.queue && s.timer[id].due == due
  }

  lemma StartOutside(s: State, x: Tid, id: Tid)
    requires QueueKnown(s) && id in s.timer && id !in s.queue && x != id
    ensures id !in StartTimer(s, x).queue && id in StartTimer(s, x).timer && StartTimer(s, x).timer[id] == s.timer[id]
  {
  }

  lemma ApplyOutside(s: State, a: Action, id: Tid)
    requires QueueKnown(s) && id in s.timer && id !in s.queue && a != Start(id) && a != Stop(id)
    ensures id in Apply(s, a).timer && id !in Apply(s, a).queue && Apply(s, a).timer[id].due == s.timer[id].due
  {
    if a.Start? { StartOutside(s, a.id, id); }
  }

  lemma {:induction false} ApplyAllOutside(s: State, actions: seq<Action>, id: Tid)
    requires QueueKnown(s) && id in s.timer && id !in s.queue && !Touches(actions, id)
    ensures var r := ApplyAll(s, actions); id in r.timer && id !in r.queue && r.timer[id].due == s.timer[id].due
    decreases |actions|
  {
    if actions != [] {
      ApplyOutside(s, actions[0], id);
      ApplyAllOutside(Apply(s, actions[0]), actions[1..], id);
    }
  }

  lemma FinishOutside(s: State, x: Tid, id: Tid)
    requires QueueKnown(s) && id in s.timer && id !in s.queue && x != id
    ensures var r := Finish(s, x); id in r.timer && id !in r.queue && r.timer[id].due == s.timer[id].due
  {
    StartOutside(s, x, id);
  }

  lemma {:induction false} CheckOutside(s: State, script: seq<seq<Action>>, id: Tid)
    requires QueueKnown(s) && id in s.timer && id !in s.queue && forall k :: 0 <= k < |script| ==> !Touches(script[k], id)
    ensures var r := Check(s, script); id in r.timer && id !in r.queue && r.timer[id].due == s.timer[id].due
    decreases Due(s)
  {
    if HeadDue(s) {
      var actions := if script == [] then [] else script[0];
      ServedDueCount(s, script);
      ApplyAllOutside(Fire(s), actions, id);
      FinishOutside(ApplyAll(Fire(s), actions), s.queue[0], id);
      CheckOutside(Served(s, script), Rest(script), id);
    }
  }

  lemma StepOutside(s: State, e: Event, id: Tid)
    requires QueueKnown(s) && id in s.timer && id !in s.queue && !EventTouches(e, id)
    ensures var r := Step(s, e); id in r.timer && id !in r.queue && r.timer[id].due == s.timer[id].due
  {
    match e
    case Tick(script) => CheckOutside(s.(now := s.now + 1), script, id);
    case Do(a) =>
      assert a in [a];
      ApplyOutside(s, a, id);
    case Partial(_, _) =>
  }

  lemma {:induction false} StaysOut(s: State, es: seq<Event>, id: Tid, due: nat)
    requires OutWith(s, id, due) && OrderlyRun(s, es) && Untouched(es, id)
    ensures OutWith(Run(s, es), id, due)
    decreases |es|
  {
    if es != [] {
      StepKeeps(s, es[0]);
      assert !EventTouches(es[0], id);
      StepOutside(s, es[0], id);
      StaysOut(Step(s, es[0]), es[1..], id, due);
    }
  }

  lemma ComputedIsOut(s: State, id: Tid)
    requires Good(s) && id in s.timer && id !in s.queue
    ensures QueueKnown(s) && OutWith(Compute(s, id), id, s.now + s.timer[id].init)
  {
    ComputeKeeps(s, id);
  }

  lemma LinkedFires(m: State, id: Tid, due: nat, es: seq<Event>, r: State)
    requires OutWith(m, id, due) && OrderlyRun(Link(m, id), es) && Untouched(es, id) && r == Run(Link(m, id), es)
    ensures Good(m) && Good(Link(m, id)) && (Max(due, m.now + 1) == due <==> m.now < due)
    ensures var f := Firing(id, Max(due, m.now + 1), due, m.starts, m.now);
      if r.now < f.at then Awaits(r, f) else f in r.log
  {
    LinkKeeps(m, id);
    LinkAwaits(m, id);
    hide Link, Inv, LogInv, Settled, Awaits;
    RunNow(Link(m, id), es);
    FiresInItsTick(Link(m, id), es, Firing(id, Max(due, m.now + 1), due, m.starts, m.now));
  }

  /** Between the parts of a start anything may happen, ticks included, but for starts and stops of the same timer; then it is put
      into the queue in order, and fires in the later of its deadline and the first tick after that. That is its deadline if and
      only if fewer ticks than its interval has came in between. */
  lemma SplitStartFires(s: State, id: Tid, between: seq<Event>, m: State, es: seq<Event>, r: State)
    requires Good(s) && id in s.timer && id !in s.queue
    requires OrderlyRun(Compute(s, id), between) && Untouched(between, id) && m == Run(Compute(s, id), between)
    requires id in m.timer && OrderlyRun(Link(m, id), es) && Untouched(es, id) && r == Run(Link(m, id), es)
    ensures Good(m) && Good(Link(m, id)) && m.now == s.now + Ticks(between)
    ensures var due := s.now + s.timer[id].init;
      var f := Firing(id, Max(due, m.now + 1), due, m.starts, m.now);
      && (if r.now < f.at then Awaits(r, f) else f in r.log)
      && (f.at == due <==> Ticks(between) < s.timer[id].init)
  {
    hide *;
    ComputedIsOut(s, id);
    StaysOut(Compute(s, id), between, id, s.now + s.timer[id].init);
    RunNow(Compute(s, id), between);
    LinkedFires(m, id, s.now + s.timer[id].init, es, r);
  }

  /** Tick 10, with one timer of interval 1 that has never been started. */
  const Ten := State(10, 0, map[0 := Timer(1, false, false, 0, 0, 0)], [], [], false)

  const Eleven := State(11, 1, map[0 := Timer(1, false, true, 11, 0, 11)], [0], [], false)

  lemma LinkedLate()
    ensures Good(Ten) && QueueKnown(Ten) && QueueKnown(Eleven)
    ensures Step(Step(Step(Step(Ten, Partial(Begins, 0)), Partial(Computes, 0)), Tick([])), Partial(Links, 0)) == Eleven
  {
    assert Begin(Ten, 0) == Ten;
    var c := Compute(Ten, 0);
    assert c == Ten.(timer := map[0 := Timer(1, false, false, 11, 0, 0)]);
    var d := Step(c, Tick([]));
    assert d == c.(now := 11);
    assert Link(d, 0) == Eleven;
  }

  lemma RunOfFive(s: State, a: Event, b: Event, c: Event, d: Event, e: Event)
    requires QueueKnown(s)
    ensures Run(s, [a, b, c, d, e]) == Step(Step(Step(Step(Step(s, a), b), c), d), e)
  {
    hide Step, QueueKnown;
    assert [a, b, c, d, e][1..] == [b, c, d, e] && [b, c, d, e][1..] == [c, d, e];
    assert Run(Step(s, a), [b, c, d, e]) == Run(Step(Step(s, a), b), [c, d, e]);
    RunOfThree(Step(Step(s, a), b), c, d, e);
  }

  /** The input for which a timer fires after its deadline: the timer is started, the tick interrupt comes before it is in the
      queue, and it fires at tick 12 instead of 11. */
  lemma LateLinkFiresLate()
    ensures Good(Ten)
    ensures var r := Run(Ten, [Partial(Begins, 0), Partial(Computes, 0), Tick([]), Partial(Links, 0), Tick([])]);
      r.now == 12 && r.queue == [] && r.log == [Firing(0, 12, 11, 0, 11)]
  {
    hide *;
    LinkedLate();
    RunOfFive(Ten, Partial(Begins, 0), Partial(Computes, 0), Tick([]), Partial(Links, 0), Tick([]));
    LastTick();
  }

  lemma LastTick()
    ensures QueueKnown(Eleven)
    ensures var r := Step(Eleven, Tick([])); r.now == 12 && r.queue == [] && r.log == [Firing(0, 12, 11, 0, 11)]
  {
    var n := Eleven.(now := 12);
    assert Without([0], 0) == [] by { assert [0][1..] == []; }
    assert Fire(n).queue == [] && HeadDue(n) && Rest<seq<Action>>([]) == [];
    assert Served(n, []).queue == [];
  }

  lemma LinkedTwice(s: State, id: Tid)
    requires Good(s) && id in s.timer
    ensures QueueKnown(s)
    ensures var m := StartTimer(Compute(Begin(s, id), id), id);
      id in m.timer && Good(m) && id in m.queue && Link(m, id).torn && !Good(Link(m, id))
  {
    BeginKeeps(s, id);
    ComputeKeeps(Begin(s, id), id);
    var m := StartTimer(Compute(Begin(s, id), id), id);
    StartKeeps(Compute(Begin(s, id), id), id);
    StartAwaits(Compute(Begin(s, id), id), id);
    LinkKeepsIff(m, id);
  }

  lemma StepsOfStart(s: State, id: Tid)
    requires QueueKnown(s) && id in s.timer
    ensures Step(s, Partial(Begins, id)) == Begin(s, id) && Step(s, Partial(Computes, id)) == Compute(s, id)
    ensures Step(s, Do(Start(id))) == StartTimer(s, id) && Step(s, Partial(Links, id)) == Link(s, id)
    ensures id in Begin(s, id).timer && id in Compute(s, id).timer && id in StartTimer(s, id).timer
  {
  }

  /** The input for which the queue breaks: a second start of the timer comes between the parts of the first one, which then links
      it in once more while it is in the queue. */
  lemma SecondStartBreaks(s: State, id: Tid)
    requires Good(s) && id in s.timer
    ensures var m := Run(s, [Partial(Begins, id), Partial(Computes, id), Do(Start(id))]); Good(m) && id in m.queue
    ensures var r := Run(s, [Partial(Begins, id), Partial(Computes, id), Do(Start(id)), Partial(Links, id)]); r.torn && !Good(r)
  {
    hide Run, Step, Inv, LogInv, Settled, StartTimer, Begin, Compute, Link;
    LinkedTwice(s, id);
    StepsOfStart(s, id);
    StepsOfStart(Begin(s, id), id);
    StepsOfStart(Compute(Begin(s, id), id), id);
    var m := StartTimer(Compute(Begin(s, id), id), id);
    StepsOfStart(m, id);
    RunOfThree(s, Partial(Begins, id), Partial(Computes, id), Do(Start(id)));
    var rest := [Partial(Computes, id), Do(Start(id)), Partial(Links, id)];
    RunCons(s, Partial(Begins, id), rest);
    assert [Partial(Begins, id)] + rest == [Partial(Begins, id), Partial(Computes, id), Do(Start(id)), Partial(Links, id)];
    RunOfThree(Begin(s, id), Partial(Computes, id), Do(Start(id)), Partial(Links, id));
  }

  lemma RunCons(s: State, e: Event, es: seq<Event>)
    requires QueueKnown(s)
    ensures Run(s, [e] + es) == Run(Step(s, e), es)
  {
    hide Step, QueueKnown;
    assert ([e] + es)[1..] == es;
  }

  // ----- the active flag -----

  /** A timer is marked active exactly while it is queued. */
  ghost predicate Consistent(s: State) {
    forall x :: x in s.timer ==> (s.timer[x].active <==> x in s.queue)
  }

  /** The same for all timers but the one being served, which is active when queued. */
  ghost predicate ConsistentBut(s: State, id: Tid) {
    && (forall x :: x in s.timer && x != id ==> (s.timer[x].active <==> x in s.queue))
    && (id in s.timer && id in s.queue ==> s.timer[id].active)
  }

  /** Of the starts and stops of `id` among the actions the last one is a start. */
  ghost predicate Restarts(actions: seq<Action>, id: Tid) {
    actions != [] &&
    (var last := actions[|actions| - 1];
     last == Start(id) || (last != Stop(id) && Restarts(actions[..|actions| - 1], id)))
  }

  lemma {:induction false} ApplyAllSnoc(s: State, actions: seq<Action>, a: Action)
    requires QueueKnown(s)
    ensures ApplyAll(s, actions + [a]) == Apply(ApplyAll(s, actions), a)
    decreases |actions|
  {
    if actions == [] {
      assert ApplyAll(Apply(s, a), []) == Apply(s, a);
    } else {
      assert (actions + [a])[1..] == actions[1..] + [a];
      ApplyAllSnoc(Apply(s, actions[0]), actions[1..], a);
    }
  }

  lemma {:induction false} QueuedIffRestarted(s: State, actions: seq<Action>, id: Tid)
    requires QueueKnown(s) && ConsistentBut(s, id) && id in s.timer && id !in s.queue
    ensures var r := ApplyAll(s, actions);
      ConsistentBut(r, id) && id in r.timer && (id in r.queue <==> Restarts(actions, id))
    decreases |actions|
  {
    if actions != [] {
      var init, last := actions[..|actions| - 1], actions[|actions| - 1];
      assert actions == init + [last];
      QueuedIffRestarted(s, init, id);
      ApplyAllSnoc(s, init, last);
      ApplyRestarts(ApplyAll(s, init), last, id);
      hide Apply, ConsistentBut;
    }
  }

  lemma ApplyRestarts(s: State, a: Action, id: Tid)
    requires QueueKnown(s) && ConsistentBut(s, id) && id in s.timer
    ensures var r := Apply(s, a);
      ConsistentBut(r, id) && id in r.timer && (id in r.queue <==> a == Start(id) || (a != Stop(id) && id in s.queue))
  {
  }

  /** Serving a timer keeps the flags right if and only if the timer is periodic when its timeout function
      returns, or the function did not leave it started. */
  lemma ServedConsistentIff(s: State, script: seq<seq<Action>>)
    requires QueueKnown(s) && s.queue != [] && Consistent(s)
    ensures var actions := if script == [] then [] else script[0];
      var id := s.queue[0];
      id in ApplyAll(Fire(s), actions).timer &&
      (Consistent(Served(s, script)) <==> ApplyAll(Fire(s), actions).timer[id].periodic || !Restarts(actions, id))
  {
    var actions := if script == [] then [] else script[0];
    var id := s.queue[0];
    QueuedIffRestarted(Fire(s), actions, id);
    var c := ApplyAll(Fire(s), actions);
    assert Served(s, script) == Finish(c, id);
  }

  /** No one-shot timer that fires in the check is left started by its own timeout function. */
  ghost predicate CalmCheck(s: State, script: seq<seq<Action>>)
    requires QueueKnown(s)
    decreases Due(s)
  {
    HeadDue(s) ==>
      var actions := if script == [] then [] else script[0];
      var id := s.queue[0];
      var c := ApplyAll(Fire(s), actions);
      && id in c.timer && (c.timer[id].periodic || !Restarts(actions, id))
      && (ServedDueCount(s, script); CalmCheck(Served(s, script), Rest(script)))
  }

  /** The same for a step; and a stop whose parts come apart leaves the flag of its timer wrong in between. */
  ghost predicate Calm(s: State, e: Event)
    requires QueueKnown(s)
  {
    match e
    case Tick(script) => CalmCheck(s.(now := s.now + 1), script)
    case Do(_) => true
    case Partial(p, id) => id in s.timer ==> (p.Unlinks? ==> !s.timer[id].active) && (p.Clears? ==> id !in s.queue)
  }

  ghost predicate CalmRun(s: State, es: seq<Event>)
    requires QueueKnown(s)
    decreases |es|
  {
    es == [] || (Calm(s, es[0]) && CalmRun(Step(s, es[0]), es[1..]))
  }

  lemma {:induction false} CheckConsistent(s: State, script: seq<seq<Action>>)
    requires QueueKnown(s) && Consistent(s) && CalmCheck(s, script)
    ensures Consistent(Check(s, script))
    decreases Due(s)
  {
    if HeadDue(s) {
      ServedDueCount(s, script);
      ServedConsistentIff(s, script);
      CheckConsistent(Served(s, script), Rest(script));
    }
  }

  /** Outside a check a step leaves every timer active exactly while it is queued if and only if it is not a part of a stop that
      comes apart from the other one. */
  lemma StepConsistentIff(s: State, e: Event)
    requires QueueKnown(s) && Consistent(s)
    ensures Calm(s, e) ==> Consistent(Step(s, e))
    ensures !e.Tick? && Consistent(Step(s, e)) ==> Calm(s, e)
  {
    match e
    case Tick(script) =>
      var n := s.(now := s.now + 1);
      assert Consistent(n);
      if CalmCheck(n, script) { CheckConsistent(n, script); }
    case Do(a) => ApplyConsistent(s, a);
    case Partial(p, id) =>
  }

  lemma ApplyConsistent(s: State, a: Action)
    requires QueueKnown(s) && Consistent(s)
    ensures Consistent(Apply(s, a))
  {
  }

  /** In every run in which no one-shot timer is left started by its own timeout function, a timer is active exactly while it is
      queued. */
  lemma {:induction false} ActiveWhileQueued(s: State, es: seq<Event>)
    requires QueueKnown(s) && Consistent(s) && CalmRun(s, es)
    ensures Consistent(Run(s, es))
    decreases |es|
  {
    if es != [] {
      StepConsistentIff(s, es[0]);
      ActiveWhileQueued(Step(s, es[0]), es[1..]);
    }
  }

  /** A stop ends with the flag right if and only if nobody has started the timer again meanwhile. */
  lemma StopEndsConsistentIff(s: State, id: Tid)
    requires QueueKnown(s) && id in s.timer && forall x :: x in s.timer && x != id ==> (s.timer[x].active <==> x in s.queue)
    ensures Consistent(ClearFlag(s, id)) <==> id !in s.queue
  {
  }

  /** The input for which the flag is lost: a one-shot timer with interval 1 is started, and its timeout function starts it again.
      It stays queued but is marked inactive, so that it cannot be stopped any more. */
  lemma OneShotRestartLosesFlag()
    ensures var s := State(0, 0, map[0 := Timer(1, false, false, 0, 0, 0)], [], [], false);
      var r := Run(s, [Do(Start(0)), Tick([[Start(0)]])]);
      Good(s) && Consistent(s) && r.queue == [0] && 0 in r.timer && !r.timer[0].active && Step(r, Do(Stop(0))) == r
  {
    var s := State(0, 0, map[0 := Timer(1, false, false, 0, 0, 0)], [], [], false);
    var t := StartTimer(s, 0);
    assert t == State(0, 1, map[0 := Timer(1, false, true, 1, 0, 0)], [0], [], false);
    RestartInCheck(t);
    var es := [Do(Start(0)), Tick([[Start(0)]])];
    assert es[1..] == [Tick([[Start(0)]])] && es[1..][1..] == [];
  }

  lemma RestartInCheck(s: State)
    requires s == State(0, 1, map[0 := Timer(1, false, true, 1, 0, 0)], [0], [], false)
    ensures var r := Step(s, Tick([[Start(0)]])); r.queue == [0] && 0 in r.timer && !r.timer[0].active
  {
    var script := [[Start(0)]];
    var n := s.(now := 1);
    var f := Fire(n);
    assert Without([0], 0) == [] by { assert [0][1..] == []; }
    assert f.queue == [] && f.timer == s.timer;
    var c := ApplyAll(f, [Start(0)]);
    assert [Start(0)][1..] == [];
    assert c == StartTimer(f, 0) && c.queue == [0];
    var r := Served(n, script);
    assert r == Finish(c, 0) && r.queue == [0] && r.timer[0].due == 2;
    assert Check(r, Rest(script)) == r;
  }
}
