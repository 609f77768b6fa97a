/** Time slicing among the threads of one priority (src/clock.c, src/thread.c, src/scheduler.c): how long a ready thread waits
    for its turn. A call and the rescheduling that follows it are one step here. */
module RoundRobin {
  import opened Basics
  import opened WaitQueue
  import opened ThreadLists
  import opened ReadyBitmap
  import opened Threads

  function Turn(s: State, e: Event): State
    requires Inv(s) && Orderly(s, e)
  {
    StepKeeps(s, e);
    Dispatch(Step(s, e))
  }

  lemma TurnKeeps(s: State, e: Event)
    requires Inv(s) && Orderly(s, e)
    ensures Inv(Turn(s, e))
  {
    StepKeeps(s, e);
    DispatchKeeps(Step(s, e));
  }

  /** The threads in front of `x` in a ready list. */
  function Ahead(q: seq<Tid>, x: Tid): seq<Tid> {
    if q == [] || q[0] == x then [] else [q[0]] + Ahead(q[1..], x)
  }

  /** The ticks that the threads of `q` have left. */
  function Ticks(thread: map<Tid, Thread>, q: seq<Tid>): nat {
    if q == [] then 0 else (if q[0] in thread then thread[q[0]].left else 0) + Ticks(thread, q[1..])
  }

  /** Thread `x` is ready at the priority of the current thread, which heads that list. */
  ghost predicate Contends(s: State, x: Tid) {
    && Inv(s) && s.lock == 0 && x in s.thread && !Idling(s, x)
    && ReadyAt(s.thread[x].prio) in s.list && s.list[ReadyAt(s.thread[x].prio)] != [] && s.list[ReadyAt(s.thread[x].prio)][0] == s.current
  }

  /** Everybody has a time slice. */
  ghost predicate Slices(s: State) {
    forall t :: t in s.thread ==> s.thread[t].left > 0 && s.thread[t].slice > 0
  }

  ghost function Wait(s: State, x: Tid): nat
    requires Contends(s, x)
  {
    Ticks(s.thread, Ahead(s.list[ReadyAt(s.thread[x].prio)], x))
  }

  ghost function Rivals(s: State, x: Tid): seq<Tid>
    requires Contends(s, x)
  {
    Ahead(s.list[ReadyAt(s.thread[x].prio)], x)
  }

  // ----- lists -----

  lemma {:induction false} AheadAppend(q: seq<Tid>, t: Tid, x: Tid)
    requires x in q
    ensures Ahead(q + [t], x) == Ahead(q, x)
  {
    if q[0] != x {
      AheadAppend(q[1..], t, x);
      assert (q + [t])[1..] == q[1..] + [t];
    }
  }

  lemma {:induction false} AheadLeave(q: seq<Tid>, t: Tid, x: Tid)
    requires t != x
    ensures Ahead(Without(q, t), x) == Without(Ahead(q, x), t)
  {
    if q != [] && q[0] != x {
      AheadLeave(q[1..], t, x);
      assert ([q[0]] + Ahead(q[1..], x))[1..] == Ahead(q[1..], x);
      if q[0] != t { assert ([q[0]] + Without(q[1..], t))[1..] == Without(q[1..], t); }
    } else if q != [] {
      assert ([q[0]] + Without(q[1..], t))[0] == x;
    }
  }

  lemma {:induction false} TicksLeave(thread: map<Tid, Thread>, q: seq<Tid>, t: Tid)
    ensures Ticks(thread, Without(q, t)) <= Ticks(thread, q)
    ensures t in q && t in thread ==> Ticks(thread, Without(q, t)) + thread[t].left <= Ticks(thread, q)
  {
    if q != [] {
      TicksLeave(thread, q[1..], t);
      if q[0] != t { assert ([q[0]] + Without(q[1..], t))[1..] == Without(q[1..], t); }
    }
  }

  lemma {:induction false} TicksSame(thread: map<Tid, Thread>, thread': map<Tid, Thread>, q: seq<Tid>)
    requires forall t :: t in q ==> t in thread && t in thread' && thread'[t].left == thread[t].left
    ensures Ticks(thread', q) == Ticks(thread, q)
  {
    if q != [] { TicksSame(thread, thread', q[1..]); }
  }

  lemma {:induction false} AheadIn(q: seq<Tid>, x: Tid)
    ensures forall t :: t in Ahead(q, x) ==> t in q && t != x
  {
    if q != [] && q[0] != x { AheadIn(q[1..], x); }
  }

  // ----- what an event does to the list of `x` -----

  /** The list without one of its threads `gone` (or none), and with another one `came` (or none) at the end. */
  datatype Change = Change(gone: seq<Tid>, came: seq<Tid>)

  ghost predicate Changed(q: seq<Tid>, r: seq<Tid>, x: Tid, c: Change) {
    && |c.gone| <= 1 && |c.came| <= 1 && x !in c.gone
    && r == (if c.gone == [] then q else Without(q, c.gone[0])) + c.came
  }

  lemma ChangedAhead(q: seq<Tid>, r: seq<Tid>, x: Tid, c: Change)
    requires Changed(q, r, x, c) && x in q
    ensures x in r && Ahead(r, x) == if c.gone == [] then Ahead(q, x) else Without(Ahead(q, x), c.gone[0])
  {
    var m := if c.gone == [] then q else Without(q, c.gone[0]);
    if c.gone != [] { AheadLeave(q, c.gone[0], x); }
    if c.came != [] {
      assert c.came == [c.came[0]];
      AheadAppend(m, c.came[0], x);
    } else {
      assert r == m;
    }
  }

  ghost predicate Undisturbed(s: State, e: Event, x: Tid) {
    !e.Lock? && !(e.SetPriority? && e.t == x) && !Blocks(e, x) && !Ends(e, x)
  }

  /** The change of ready list `p` between two states. */
  ghost predicate ListChange(s: State, r: State, p: nat, x: Tid, c: Change) {
    ReadyAt(p) in s.list && ReadyAt(p) in r.list && Changed(s.list[ReadyAt(p)], r.list[ReadyAt(p)], x, c)
  }

  lemma NoChange(s: State, r: State, p: nat, x: Tid)
    requires ReadyAt(p) in s.list && ReadyAt(p) in r.list && r.list[ReadyAt(p)] == s.list[ReadyAt(p)]
    ensures ListChange(s, r, p, x, Change([], []))
  {
    assert s.list[ReadyAt(p)] + [] == s.list[ReadyAt(p)];
  }

  lemma GoneChange(s: State, r: State, p: nat, x: Tid, t: Tid)
    requires ReadyAt(p) in s.list && ReadyAt(p) in r.list && r.list[ReadyAt(p)] == Without(s.list[ReadyAt(p)], t) && t != x
    ensures ListChange(s, r, p, x, Change([t], []))
  {
    assert Without(s.list[ReadyAt(p)], t) + [] == Without(s.list[ReadyAt(p)], t);
  }

  /** A thread that joins in the second half of rt_thread_resume. */
  lemma InsertChange(s: State, t: Tid, p: nat, x: Tid) returns (c: Change)
    requires Known(s) && t in s.thread && ReadyAt(p) in s.list
    ensures ListChange(s, Insert(s, t), p, x, c)
  {
    if s.thread[t].prio == p && Unlisted(s.list, t) {
      c := Change([], [t]);
    } else {
      c := Change([], []);
      NoChange(s, Insert(s, t), p, x);
    }
  }

  lemma LoosenChange(s: State, t: Tid, p: nat, x: Tid) returns (c: Change)
    requires Inv(s) && Idling(s, t) && ReadyAt(p) in s.list
    ensures ListChange(s, Loosen(s, t), p, x, c)
  {
    NotReadyNotListed(s, t, p);
    c := Change([], []);
    NoChange(s, Loosen(s, t), p, x);
  }

  lemma WakeChange(s: State, t: Tid, p: nat, x: Tid) returns (c: Change)
    requires Inv(s) && t in s.thread && s.thread[t].stat != Ready && ReadyAt(p) in s.list
    ensures ListChange(s, Wake(s, t), p, x, c)
  {
    NotReadyNotListed(s, t, p);
    var l := Loosen(s, t);
    assert ReadyAt(p) in l.list && l.list[ReadyAt(p)] == s.list[ReadyAt(p)];
    hide Inv, Known, Loosen, Insert;
    c := InsertChange(l, t, p, x);
  }

  lemma StartChange(s: State, t: Tid, p: nat, x: Tid) returns (c: Change)
    requires Inv(s) && t in s.thread && s.thread[t].stat == Init && ReadyAt(p) in s.list
    ensures ListChange(s, Start(s, t), p, x, c)
  {
    var m := s.(thread := s.thread[t := s.thread[t].(prio := s.thread[t].initPrio, stat := Suspended)]);
    forall w, y | w in m.list && y in m.list[w] ensures Belongs(m, w, y) { assert Belongs(s, w, y); }
    c := WakeChange(m, t, p, x);
  }

  lemma PriorityChange(s: State, t: Tid, n: nat, p: nat, x: Tid) returns (c: Change)
    requires Inv(s) && t in s.thread && n < s.prios && ReadyAt(p) in s.list && t != x
    ensures ListChange(s, ChangePriority(s, t, n), p, x, c)
  {
    hide Placed, Mapped, OneList, Sized, Include, Exclude;
    OffAllOneList(s.list, t);
    if s.thread[t].stat == Ready {
      if n == p {
        c := Change([t], [t]);
      } else {
        c := Change([t], []);
        GoneChange(s, ChangePriority(s, t, n), p, x, t);
      }
    } else {
      c := Change([], []);
      NoChange(s, ChangePriority(s, t, n), p, x);
    }
  }

  lemma YieldChange(s: State, p: nat, x: Tid) returns (c: Change)
    requires Contends(s, x) && x != s.current && p == s.thread[x].prio
    ensures ListChange(s, YieldCurrent(s), p, x, c) && c.gone == [s.current]
  {
    YieldMoves(s, x);
    c := Change([s.current], [s.current]);
  }

  lemma SliceChange(s: State, p: nat, x: Tid) returns (c: Change)
    requires Contends(s, x) && x != s.current && p == s.thread[x].prio
    ensures ListChange(s, Slice(s), p, x, c) && c.gone == if s.thread[s.current].left == 1 then [s.current] else []
  {
    if s.thread[s.current].left == 1 {
      YieldMoves(s, x);
      c := Change([s.current], [s.current]);
    } else {
      c := Change([], []);
      NoChange(s, Slice(s), p, x);
    }
  }

  lemma StepChange(s: State, e: Event, x: Tid) returns (c: Change)
    requires Contends(s, x) && x != s.current && Undisturbed(s, e, x) && Orderly(s, e)
    ensures ListChange(s, Step(s, e), s.thread[x].prio, x, c)
    ensures e.Tick? ==> c.gone == if s.thread[s.current].left == 1 then [s.current] else []
  {
    hide Known, Start, SuspendOn, Wake, YieldCurrent, ChangePriority, End, Slice, Loosen, Insert, Unlisted, OneList, Placed, Mapped;
    var p := s.thread[x].prio;
    var r := Step(s, e);
    if r.list == s.list && !e.Tick? {
      c := Change([], []);
      NoChange(s, r, p, x);
    } else {
      match e
      case Startup(t) => c := StartChange(s, t, p, x);
      case Resume(t) => c := WakeChange(s, t, p, x);
      case Expire(t) => c := WakeChange(s, t, p, x);
      case Block(t, _, _) => c := BlockChange(s, t, e.on, e.timed, p, x);
      case Close(t, _) => c := CloseChange(s, t, e.defunct, p, x);
      case SetPriority(t, n) => c := PriorityChange(s, t, n, p, x);
      case Join(t) => c := InsertChange(s, t, p, x);
      case Detach(t) => c := LoosenChange(s, t, p, x);
      case Withdraw(t) => c := BlockChange(s, t, Nothing, false, p, x);
      case Leave(t) => c := LeaveChange(s, t, p, x);
      case Bury(t) => c := BuryChange(s, t, p, x);
      case Yield => c := YieldChange(s, p, x);
      case Tick => c := SliceChange(s, p, x);
      case _ =>
        c := Change([], []);
        NoChange(s, r, p, x);
    }
  }

  lemma BlockChange(s: State, t: Tid, on: Target, timed: bool, p: nat, x: Tid) returns (c: Change)
    requires Known(s) && t in s.thread && ReadyAt(p) in s.list && t != x
    ensures ListChange(s, SuspendOn(s, t, on, timed), p, x, c)
  {
    c := Change([t], []);
    GoneChange(s, SuspendOn(s, t, on, timed), p, x, t);
  }

  lemma LeaveChange(s: State, t: Tid, p: nat, x: Tid) returns (c: Change)
    requires Known(s) && t in s.thread && ReadyAt(p) in s.list && t != x
    ensures ListChange(s, TakenOut(s, t), p, x, c)
  {
    c := Change([t], []);
    GoneChange(s, TakenOut(s, t), p, x, t);
  }

  lemma BuryChange(s: State, t: Tid, p: nat, x: Tid) returns (c: Change)
    requires Known(s) && t in s.thread && ReadyAt(p) in s.list
    ensures ListChange(s, PutAway(s, t), p, x, c)
  {
    c := Change([], []);
    NoChange(s, PutAway(s, t), p, x);
  }

  lemma CloseChange(s: State, t: Tid, defunct: bool, p: nat, x: Tid) returns (c: Change)
    requires Inv(s) && t in s.thread && ReadyAt(p) in s.list && t != x
    ensures ListChange(s, End(s, t, defunct), p, x, c)
  {
    if s.thread[t].stat == Init {
      c := Change([], []);
      NoChange(s, End(s, t, defunct), p, x);
    } else {
      c := Change([t], []);
      GoneChange(s, End(s, t, defunct), p, x, t);
    }
  }

  /** With `x` behind it, a yielding thread goes to the end. */
  lemma YieldMoves(s: State, x: Tid)
    requires Contends(s, x) && x != s.current
    ensures |s.list[ReadyAt(s.thread[x].prio)]| > 1
    ensures s.thread[s.current].stat == Ready && s.thread[s.current].prio == s.thread[x].prio
  {
    var q := s.list[ReadyAt(s.thread[x].prio)];
    assert x in q && s.current in q && q[0] == s.current;
    assert Belongs(s, ReadyAt(s.thread[x].prio), s.current);
  }

  // ----- what an event does to the time slices -----

  /** Only a tick changes what threads have left. */
  lemma StepSameLeft(s: State, e: Event)
    requires Known(s) && !e.Tick?
    ensures SameLeft(s.thread, Step(s, e).thread)
  {
    assert SameLeft(s.thread, s.thread);
    hide SameLeft, Known, Start, SuspendOn, Wake, TimeOut, YieldCurrent, ChangePriority, End, Dispatch, Restored, Readied, Loosen, Insert;
  }

  lemma TickLeft(s: State)
    requires Known(s) && Slices(s)
    ensures Slice(s).thread == s.thread[s.current := Slice(s).thread[s.current]] && Slices(Slice(s))
    ensures s.thread[s.current].left > 1 ==> Slice(s).thread[s.current].left == s.thread[s.current].left - 1
  {
  }

  /** After the event nobody more urgent is ready and the scheduler is still unlocked. */
  ghost predicate SamePriority(s: State, e: Event, x: Tid)
    requires Inv(s)
  {
    && Undisturbed(s, e, x) && x in s.thread && Orderly(s, e)
    && Turn(s, e).current in Turn(s, e).thread && Turn(s, e).thread[Turn(s, e).current].prio == s.thread[x].prio
  }

  lemma StepSlices(s: State, e: Event)
    requires Known(s) && Slices(s)
    ensures Slices(Step(s, e))
  {
    if e.Tick? { TickLeft(s); } else { StepSameLeft(s, e); }
  }

  lemma StaysUnlocked(s: State, e: Event)
    requires Inv(s) && s.lock == 0 && !e.Lock?
    ensures Step(s, e).lock == 0
  {
  }

  lemma StillContends(s: State, e: Event, x: Tid)
    requires Contends(s, x) && x != s.current && Slices(s) && SamePriority(s, e, x)
    ensures Contends(Turn(s, e), x) && Slices(Turn(s, e)) && Turn(s, e).thread == Step(s, e).thread && Turn(s, e).list == Step(s, e).list
    ensures Turn(s, e).thread[x].prio == s.thread[x].prio
  {
    ReadyStays(s, e, x);
    TurnKeeps(s, e);
    StepKeeps(s, e);
    StepSlices(s, e);
    StaysUnlocked(s, e);
    DispatchIsRight(Step(s, e));
  }

  lemma TicksDrop(thread: map<Tid, Thread>, thread': map<Tid, Thread>, q: seq<Tid>, t: Tid)
    requires q != [] && q[0] == t && t !in q[1..] && t in thread && t in thread' && thread'[t].left == thread[t].left - 1
    requires forall u :: u in q && u != t ==> u in thread && u in thread' && thread'[u].left == thread[u].left
    ensures Ticks(thread', q) == Ticks(thread, q) - 1
  {
    TicksSame(thread, thread', q[1..]);
  }

  lemma AheadOfCurrent(s: State, x: Tid)
    requires Contends(s, x) && x != s.current
    ensures var a := Rivals(s, x); a != [] && a[0] == s.current && s.current !in a[1..] && forall t :: t in a ==> t in s.thread
  {
    var q := s.list[ReadyAt(s.thread[x].prio)];
    AheadIn(q, x);
    AheadIn(q[1..], x);
    forall t | t in q ensures t in s.thread { assert Belongs(s, ReadyAt(s.thread[x].prio), t); }
    assert s.current !in q[1..];
  }

  /** What `a`, the threads in front of `x`, have left once the change `c` has made `b` of them. */
  lemma AheadShrinks(m: map<Tid, Thread>, m': map<Tid, Thread>, a: seq<Tid>, b: seq<Tid>, c: Change, cur: Tid, tick: bool)
    requires a != [] && a[0] == cur && cur !in a[1..] && (forall t :: t in a ==> t in m && m[t].left > 0) && |c.gone| <= 1
    requires b == if c.gone == [] then a else Without(a, c.gone[0])
    requires !tick ==> SameLeft(m, m')
    requires tick ==> m'.Keys == m.Keys && forall t :: t in m && t != cur ==> m'[t] == m[t]
    requires tick ==> if m[cur].left == 1 then c.gone == [cur] else c.gone == [] && m'[cur].left == m[cur].left - 1
    ensures Ticks(m', b) + (if tick then 1 else 0) <= Ticks(m, a)
  {
    if c.gone != [] { TicksLeave(m, a, c.gone[0]); }
    if tick && m[cur].left > 1 {
      TicksDrop(m, m', a, cur);
    } else {
      TicksSame(m, m', b);
    }
  }

  /** What is in front of `x` after the event, with the change that made it so. */
  lemma RivalsAfter(s: State, e: Event, x: Tid) returns (c: Change)
    requires Contends(s, x) && x != s.current && Slices(s) && SamePriority(s, e, x)
    ensures Contends(Turn(s, e), x) && |c.gone| <= 1
    ensures Rivals(Turn(s, e), x) == if c.gone == [] then Rivals(s, x) else Without(Rivals(s, x), c.gone[0])
    ensures e.Tick? ==> c.gone == if s.thread[s.current].left == 1 then [s.current] else []
  {
    StillContends(s, e, x);
    var p := s.thread[x].prio;
    c := StepChange(s, e, x);
    hide Step, Undisturbed, Orderly;
    ChangedAhead(s.list[ReadyAt(p)], Turn(s, e).list[ReadyAt(p)], x, c);
  }

  lemma TicksAfter(s: State, e: Event)
    requires Known(s) && Slices(s)
    ensures Step(s, e).thread.Keys == s.thread.Keys
    ensures !e.Tick? ==> SameLeft(s.thread, Step(s, e).thread)
    ensures e.Tick? ==> forall t :: t in s.thread && t != s.current ==> Step(s, e).thread[t] == s.thread[t]
    ensures e.Tick? && s.thread[s.current].left > 1 ==> Step(s, e).thread[s.current].left == s.thread[s.current].left - 1
  {
    if e.Tick? { TickLeft(s); } else { StepSameLeft(s, e); }
    DeadStays(s, e);
  }

  /** One step: newcomers do not overtake `x`, and every tick shortens its wait. */
  lemma TurnShrinks(s: State, e: Event, x: Tid)
    requires Contends(s, x) && x != s.current && Slices(s) && SamePriority(s, e, x)
    ensures Contends(Turn(s, e), x) && Slices(Turn(s, e))
    ensures Wait(Turn(s, e), x) + (if e.Tick? then 1 else 0) <= Wait(s, x)
    ensures forall t :: t in Rivals(Turn(s, e), x) ==> t in Rivals(s, x)
  {
    assert Known(s);
    hide Step, Turn, SamePriority, Contends, SameLeft, Known, Inv;
    StillContends(s, e, x);
    TicksAfter(s, e);
    AheadOfCurrent(s, x);
    var c := RivalsAfter(s, e, x);
    AheadShrinks(s.thread, Step(s, e).thread, Rivals(s, x), Rivals(Turn(s, e), x), c, s.current, e.Tick?);
  }

  // ----- whole runs -----

  /** No event of the run makes a more urgent thread ready, locks the scheduler, or blocks, ends or re-prioritizes `x`,
      until `x` has had its turn. */
  ghost predicate Calm(s: State, es: seq<Event>, x: Tid)
    requires Inv(s)
    decreases |es|
  {
    es == [] || s.current == x || (SamePriority(s, es[0], x) && (TurnKeeps(s, es[0]); Calm(Turn(s, es[0]), es[1..], x)))
  }

  /** Somewhere in the run `x` is the current thread. */
  ghost predicate GetsTurn(s: State, es: seq<Event>, x: Tid)
    requires Inv(s)
    decreases |es|
  {
    s.current == x || (es != [] && Orderly(s, es[0]) && (TurnKeeps(s, es[0]); GetsTurn(Turn(s, es[0]), es[1..], x)))
  }

  function TickCount(es: seq<Event>): nat {
    if es == [] then 0 else (if es[0].Tick? then 1 else 0) + TickCount(es[1..])
  }

  /** A ready thread gets its turn no later than after as many ticks as the threads in front of it have left. */
  lemma {:induction false} TurnComesInTime(s: State, es: seq<Event>, x: Tid)
    requires Contends(s, x) && Slices(s) && Calm(s, es, x)
    ensures GetsTurn(s, es, x) || TickCount(es) < Wait(s, x)
    decreases |es|
  {
    if s.current != x {
      if es == [] {
        AheadOfCurrent(s, x);
        assert s.thread[s.current].left > 0;
      } else {
        TurnShrinks(s, es[0], x);
        TurnComesInTime(Turn(s, es[0]), es[1..], x);
      }
    }
  }
}
