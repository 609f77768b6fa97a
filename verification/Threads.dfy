/** Threads and the lists they are in: src/thread.c and src/scheduler.c. A region with interrupts disabled is one step. Calls made
    with interrupts enabled look at the state of a thread first and do their work in one region or more, with other steps in
    between: a thread that is suspended, one that is resumed or started up, which leaves its list in one region and joins the
    ready list in another one, and one that is deleted. */
module Threads {
  import opened Basics
  import opened WaitQueue
  import opened ThreadLists
  import opened ReadyBitmap
  import RtList

  datatype Stat = Init | Ready | Suspended | Closed

  /** `timer` tells whether the thread timer is running; `left` is `remaining_tick`. */
  datatype Thread = Thread(stat: Stat, prio: nat, initPrio: nat, timer: bool, slice: nat, left: nat)

  /** The lists a thread's node can be in: a ready list, the list of an IPC object, or that of the defunct threads. */
  datatype Where = ReadyAt(p: nat) | WaitFor(id: nat) | Defunct

  /** `failed` records a failed assertion of rt_thread_timeout, and `dead` the threads that have been closed; `leaving` are those that
      a deletion has taken out of the ready list and that are still marked ready. `torn` says that a node has been linked in
      while it was in a list, which leaves no ring of that list (ListTable.Append). The idle thread never blocks or ends. */
  datatype State = State(prios: nat, list: map<Where, seq<Tid>>, bitmap: Bitmap, thread: map<Tid, Thread>,
                         current: Tid, lock: nat, idle: Tid, failed: bool, dead: set<Tid>, leaving: set<Tid>, torn: bool)

  /** `Block` is a call that suspends a thread, perhaps in the list of an object, perhaps with its timer started. `Close` is
      the exit of a thread, or its detachment or deletion in one piece, which may put it on the defunct list. `Resume` and
      `Startup` are calls in a region with interrupts disabled, as the IPC objects make them.

      With interrupts enabled rt_thread_startup begins with `Restore`, of the priority, and `Prepare`; then that call, like
      rt_thread_resume, is `Detach` and `Join`. rt_thread_suspend is `Withdraw`. rt_thread_detach and rt_thread_delete are `Leave`,
      unless the thread has not been started, then `Unarm`, `Retire` and, with the defunct list, `Bury`. These come at any time
      after the call has looked at the thread's state. */
  datatype Event =
    | Startup(t: Tid) | Block(t: Tid, on: Target, timed: bool) | Resume(t: Tid) | Expire(t: Tid) | Yield
    | SetPriority(t: Tid, p: nat) | Close(t: Tid, defunct: bool) | Tick | Lock | Unlock | Schedule
    | Restore(t: Tid) | Prepare(t: Tid) | Detach(t: Tid) | Join(t: Tid) | Withdraw(t: Tid)
    | Leave(t: Tid) | Unarm(t: Tid) | Retire(t: Tid) | Bury(t: Tid)

  datatype Target = Nothing | Object(id: nat, policy: Policy)

  ghost predicate Known(s: State) {
    && Sized(s.bitmap, s.prios) && Defunct in s.list
    && (forall p :: 0 <= p < s.prios ==> ReadyAt(p) in s.list)
    && (forall t :: t in s.thread ==> s.thread[t].prio < s.prios && s.thread[t].initPrio < s.prios)
    && (forall w, x :: w in s.list && x in s.list[w] ==> x in s.thread)
    && s.current in s.thread && s.idle in s.thread
  }

  /** Nobody's time slice or rest of it changes. */
  ghost predicate SameLeft(m: map<Tid, Thread>, n: map<Tid, Thread>) {
    n.Keys == m.Keys && forall t :: t in m ==> n[t].left == m[t].left && n[t].slice == m[t].slice
  }

  /** A step for thread `t`: no other thread changes, nobody's time slice does, and no dead thread comes back. */
  ghost predicate Only(s: State, r: State, t: Tid) {
    && SameLeft(s.thread, r.thread) && (forall x :: x in s.thread && x != t ==> r.thread[x] == s.thread[x])
    && s.dead <= r.dead <= s.dead + {t} && r.leaving - {t} == s.leaving - {t} && r.idle == s.idle
  }

  /** rt_schedule_remove_thread: takes the node out of whatever list it is in. */
  function Remove(s: State, t: Tid): (r: State)
    requires Known(s) && t in s.thread
    ensures Known(r) && Only(s, r, t) && r.thread == s.thread && r.dead == s.dead && r.leaving == s.leaving
  {
    var list := OffAll(s.list, t);
    var p := s.thread[t].prio;
    StaysSized(s.bitmap, s.prios, p);
    s.(list := list, bitmap := if list[ReadyAt(p)] == [] then Exclude(s.bitmap, p) else s.bitmap)
  }

  /** The lists once `t`, if it was in none, has made `q` of list `w`. */
  function Tied(list: map<Where, seq<Tid>>, w: Where, q: seq<Tid>, t: Tid): (r: map<Where, seq<Tid>>)
    requires w in list && forall x :: x in q ==> x in list[w] || x == t
    ensures r.Keys == list.Keys && forall v, x :: v in r && x in r[v] ==> x in list[v] || x == t
  {
    if Unlisted(list, t) then list[w := q] else list
  }

  /** rt_schedule_insert_thread. A thread that is in a list already must not be linked in again. */
  function Insert(s: State, t: Tid): (r: State)
    requires Known(s) && t in s.thread
    ensures Known(r) && Only(s, r, t)
  {
    var p := s.thread[t].prio;
    StaysSized(s.bitmap, s.prios, p);
    s.(thread := s.thread[t := s.thread[t].(stat := Ready)], bitmap := Include(s.bitmap, p), leaving := s.leaving - {t},
       list := Tied(s.list, ReadyAt(p), s.list[ReadyAt(p)] + [t], t), torn := s.torn || !Unlisted(s.list, t))
  }

  /** The first critical region of rt_thread_resume. */
  function Loosen(s: State, t: Tid): (r: State)
    requires Known(s) && t in s.thread
    ensures Known(r) && Only(s, r, t)
  {
    s.(list := OffAll(s.list, t), thread := s.thread[t := s.thread[t].(timer := false)])
  }

  /** rt_thread_resume of a suspended thread. */
  function Wake(s: State, t: Tid): (r: State)
    requires Known(s) && t in s.thread
    ensures Known(r) && Only(s, r, t)
  {
    Insert(Loosen(s, t), t)
  }

  function Prios(thread: map<Tid, Thread>): map<Tid, nat> {
    map t | t in thread :: thread[t].prio
  }

  /** The region of rt_thread_suspend, whatever has become of the thread since its state was tested. */
  function Withdrawn(s: State, t: Tid, timed: bool): (r: State)
    requires Known(s) && t in s.thread
    ensures Known(r) && Only(s, r, t)
  {
    Remove(s, t).(thread := s.thread[t := s.thread[t].(stat := Suspended, timer := timed)], leaving := s.leaving - {t})
  }

  /** The same, and the place of the thread in the list of an object. */
  function SuspendOn(s: State, t: Tid, on: Target, timed: bool): (r: State)
    requires Known(s) && t in s.thread
    ensures Known(r) && Only(s, r, t)
  {
    var r := Withdrawn(s, t, timed);
    match on
    case Nothing => r
    case Object(id, policy) =>
      var w := WaitFor(id);
      if w in r.list then r.(list := r.list[w := Enqueue(policy, Prios(s.thread), r.list[w], t)]) else r
  }

  /** rt_thread_timeout. */
  function TimeOut(s: State, t: Tid): (r: State)
    requires Known(s) && t in s.thread
    ensures Known(r) && Only(s, r, t)
  {
    if s.thread[t].stat != Suspended then s.(failed := true)
    else Wake(s, t)
  }

  /** rt_thread_yield. */
  function YieldCurrent(s: State): (r: State)
    requires Known(s)
    ensures Known(r) && r.thread == s.thread && r.dead == s.dead && r.leaving == s.leaving
  {
    var t := s.thread[s.current];
    if t.stat == Ready && s.current in s.list[ReadyAt(t.prio)] && |s.list[ReadyAt(t.prio)]| > 1 then
      var list := OffAll(s.list, s.current);
      s.(list := list[ReadyAt(t.prio) := list[ReadyAt(t.prio)] + [s.current]])
    else s
  }

  function WithPriority(s: State, t: Tid, p: nat): (r: State)
    requires Known(s) && t in s.thread && p < s.prios
    ensures Known(r) && Only(s, r, t) && r.thread[t] == s.thread[t].(prio := p)
  {
    s.(thread := s.thread[t := s.thread[t].(prio := p)])
  }

  /** RT_THREAD_CTRL_CHANGE_PRIORITY. */
  function ChangePriority(s: State, t: Tid, p: nat): (r: State)
    requires Known(s) && t in s.thread && p < s.prios
    ensures Known(r) && Only(s, r, t) && r.thread[t].stat == s.thread[t].stat
  {
    if s.thread[t].stat == Ready then Insert(WithPriority(Remove(s, t), t, p), t)
    else WithPriority(s, t, p)
  }

  function Unhook(s: State, t: Tid): (r: State)
    requires Known(s) && t in s.thread
    ensures Known(r) && Only(s, r, t)
  {
    if s.thread[t].stat == Init then s else Remove(s, t)
  }

  /** The first region of a deletion: the thread leaves its list, and its state stays as it was. */
  function TakenOut(s: State, t: Tid): (r: State)
    requires Known(s) && t in s.thread
    ensures Known(r) && Only(s, r, t)
  {
    Remove(s, t).(leaving := if s.thread[t].stat == Ready then s.leaving + {t} else s.leaving)
  }

  /** rt_timer_detach. */
  function Unarmed(s: State, t: Tid): (r: State)
    requires Known(s) && t in s.thread
    ensures Known(r) && Only(s, r, t)
  {
    s.(thread := s.thread[t := s.thread[t].(timer := false)])
  }

  function Ended(s: State, t: Tid): (r: State)
    requires Known(s) && t in s.thread
    ensures Known(r) && Only(s, r, t)
  {
    s.(thread := s.thread[t := s.thread[t].(stat := Closed)], dead := s.dead + {t}, leaving := s.leaving - {t})
  }

  /** The last region of a deletion. */
  function PutAway(s: State, t: Tid): (r: State)
    requires Known(s) && t in s.thread
    ensures Known(r) && Only(s, r, t)
  {
    s.(list := Tied(s.list, Defunct, [t] + s.list[Defunct], t), torn := s.torn || !Unlisted(s.list, t))
  }

  /** rt_thread_exit, and rt_thread_detach or rt_thread_delete in one piece. */
  function End(s: State, t: Tid, defunct: bool): (r: State)
    requires Known(s) && t in s.thread
    ensures Known(r) && Only(s, r, t)
  {
    var c := Ended(Unarmed(Unhook(s, t), t), t);
    if defunct then PutAway(c, t) else c
  }

  /** The time slice in rt_tick_increase. */
  function Slice(s: State): (r: State)
    requires Known(s)
    ensures Known(r) && r.thread.Keys == s.thread.Keys && r.thread == s.thread[s.current := r.thread[s.current]] && r.dead == s.dead && r.leaving == s.leaving && r.thread[s.current].(left := s.thread[s.current].left) == s.thread[s.current]
  {
    var t := s.thread[s.current];
    if t.left == 1 then YieldCurrent(s.(thread := s.thread[s.current := t.(left := t.slice)]))
    else s.(thread := s.thread[s.current := t.(left := if t.left > 0 then t.left - 1 else 0xFFFF_FFFF)])
  }

  /** rt_schedule: the head of the ready list that the bitmap names becomes current, unless the scheduler is locked. */
  function Dispatch(s: State): (r: State)
    requires Known(s)
    ensures Known(r) && r.thread == s.thread && r.dead == s.dead && r.leaving == s.leaving
  {
    var p := Highest(s.bitmap);
    if s.lock == 0 && 0 <= p < s.prios && s.list[ReadyAt(p)] != [] then s.(current := s.list[ReadyAt(p)][0]) else s
  }

  /** The first part of rt_thread_startup. */
  function Restored(s: State, t: Tid): (r: State)
    requires Known(s) && t in s.thread
    ensures Known(r) && Only(s, r, t) && r.thread[t] == s.thread[t].(prio := s.thread[t].initPrio)
  {
    WithPriority(s, t, s.thread[t].initPrio)
  }

  /** The part before rt_thread_resume. */
  function Readied(s: State, t: Tid): (r: State)
    requires Known(s) && t in s.thread
    ensures Known(r) && Only(s, r, t)
  {
    s.(thread := s.thread[t := s.thread[t].(stat := Suspended)], leaving := s.leaving - {t})
  }

  /** rt_thread_startup. */
  function Start(s: State, t: Tid): (r: State)
    requires Known(s) && t in s.thread
    ensures Known(r) && Only(s, r, t)
  {
    Wake(Readied(Restored(s, t), t), t)
  }

  /** The object exists. */
  predicate Exists(s: State, on: Target) {
    on.Object? ==> WaitFor(on.id) in s.list
  }

  /** A call that the thread's state does not allow returns an error or stops at an assertion; it does nothing here. */
  function Step(s: State, e: Event): (r: State)
    requires Known(s)
    ensures Known(r)
  {
    match e
    case Startup(t) => if t in s.thread && s.thread[t].stat == Init then Start(s, t) else s
    case Block(t, on, timed) =>
      if t in s.thread && s.thread[t].stat == Ready && t != s.idle && Exists(s, on) then SuspendOn(s, t, on, timed) else s
    case Resume(t) => if t in s.thread && s.thread[t].stat == Suspended then Wake(s, t) else s
    case Expire(t) => if t in s.thread && s.thread[t].timer then TimeOut(s, t) else s
    case Yield => YieldCurrent(s)
    case SetPriority(t, p) => if t in s.thread && p < s.prios then ChangePriority(s, t, p) else s
    case Close(t, defunct) => if t in s.thread && t != s.idle then End(s, t, defunct) else s
    case Tick => Slice(s)
    case Lock => s.(lock := s.lock + 1)
    case Unlock => if s.lock > 1 then s.(lock := s.lock - 1) else Dispatch(s.(lock := 0))
    case Schedule => Dispatch(s)
    case Restore(t) => if t in s.thread then Restored(s, t) else s
    case Prepare(t) => if t in s.thread then Readied(s, t) else s
    case Detach(t) => if t in s.thread then Loosen(s, t) else s
    case Join(t) => if t in s.thread then Insert(s, t) else s
    case Withdraw(t) => if t in s.thread then SuspendOn(s, t, Nothing, false) else s
    case Leave(t) => if t in s.thread then TakenOut(s, t) else s
    case Unarm(t) => if t in s.thread then Unarmed(s, t) else s
    case Retire(t) => if t in s.thread then Ended(s, t) else s
    case Bury(t) => if t in s.thread then PutAway(s, t) else s
  }

  // ----- what every step keeps -----

  /** What a thread's state says about the list `w`. */
  ghost predicate Belongs(s: State, w: Where, x: Tid) {
    && x in s.thread && x !in s.leaving
    && match w
       case ReadyAt(p) => s.thread[x].stat == Ready && s.thread[x].prio == p
       case WaitFor(_) => s.thread[x].stat == Suspended
       case Defunct => s.thread[x].stat == Closed
  }

  ghost predicate Placed(s: State) {
    && (forall w, x :: w in s.list && x in s.list[w] ==> Belongs(s, w, x))
    && (forall x :: x in s.thread && s.thread[x].stat == Ready && x !in s.leaving && ReadyAt(s.thread[x].prio) in s.list ==> x in s.list[ReadyAt(s.thread[x].prio)])
  }

  /** Who is leaving is marked ready. */
  ghost predicate Departing(s: State) {
    forall x :: x in s.leaving ==> x in s.thread && s.thread[x].stat == Ready
  }

  /** Bit `p` is set exactly if ready list `p` is not empty. */
  ghost predicate Mapped(s: State) {
    && Agrees(s.bitmap)
    && (forall p :: 0 <= p < s.prios && ReadyAt(p) in s.list ==> (Has(s.bitmap, p) <==> s.list[ReadyAt(p)] != []))
  }

  ghost predicate Timed(s: State) {
    forall x :: x in s.thread && s.thread[x].timer ==> s.thread[x].stat == Suspended
  }

  /** Exactly the threads that have been closed are in that state. */
  ghost predicate Buried(s: State) {
    forall x :: x in s.thread ==> (s.thread[x].stat == Closed <==> x in s.dead)
  }

  ghost predicate Inv(s: State) {
    && Known(s) && OneList(s.list) && Placed(s) && Mapped(s) && Timed(s) && Buried(s) && Departing(s)
    && s.thread[s.idle].stat == Ready && s.idle !in s.leaving && !s.failed && !s.torn
  }

  // ----- the two list operations -----

  /** Only the list that held `t` can become empty. */
  lemma WithoutOthers(list: map<Where, seq<Tid>>, t: Tid, w: Where)
    requires w in list && t !in list[w]
    ensures OffAll(list, t)[w] == list[w]
  {
    WithoutAbsent(list[w], t);
  }

  /** Everything but the state of `t`, which is in no list. */
  ghost predicate Out(s: State, t: Tid) {
    && Known(s) && OneList(s.list) && Mapped(s) && t in s.thread
    && Unlisted(s.list, t)
    && (forall w, x :: w in s.list && x in s.list[w] ==> Belongs(s, w, x))
    && (forall x :: x in s.thread && x != t && s.thread[x].stat == Ready && x !in s.leaving && ReadyAt(s.thread[x].prio) in s.list ==> x in s.list[ReadyAt(s.thread[x].prio)])
    && (forall x :: x in s.leaving && x != t ==> x in s.thread && s.thread[x].stat == Ready)
    && (forall x :: x in s.thread && x != t && s.thread[x].timer ==> s.thread[x].stat == Suspended)
    && (forall x :: x in s.thread && x != t ==> (s.thread[x].stat == Closed <==> x in s.dead))
    && !s.failed && !s.torn && (s.idle != t ==> s.thread[s.idle].stat == Ready && s.idle !in s.leaving)
  }

  lemma RemoveMapped(s: State, t: Tid)
    requires Inv(s) && t in s.thread
    ensures Mapped(Remove(s, t))
  {
    var r, p := Remove(s, t), s.thread[t].prio;
    OffAllOneList(s.list, t);
    ExcludeAgrees(s.bitmap, s.prios, p);
    forall q | 0 <= q < s.prios ensures Has(r.bitmap, q) <==> r.list[ReadyAt(q)] != [] {
      ExcludeHas(s.bitmap, s.prios, p, q);
      if q != p {
        assert t in s.list[ReadyAt(q)] ==> Belongs(s, ReadyAt(q), t);
        WithoutOthers(s.list, t, ReadyAt(q));
      } else if t !in s.list[ReadyAt(p)] {
        WithoutOthers(s.list, t, ReadyAt(p));
      } else {
        assert s.list[ReadyAt(p)] != [];
      }
    }
  }

  lemma RemoveOut(s: State, t: Tid)
    requires Inv(s) && t in s.thread
    ensures Out(Remove(s, t), t)
  {
    RemoveMapped(s, t);
    OffAllOneList(s.list, t);
    var r := Remove(s, t);
    forall w, x | w in r.list && x in r.list[w] ensures Belongs(r, w, x) { assert Belongs(s, w, x); }
  }

  /** Not in a ready list. */
  ghost predicate Idling(s: State, t: Tid) {
    t in s.thread && (s.thread[t].stat != Ready || t in s.leaving)
  }

  /** A thread that is not ready, or is leaving, is not in a ready list. */
  lemma NotReadyNotListed(s: State, t: Tid, p: nat)
    requires Inv(s) && Idling(s, t) && ReadyAt(p) in s.list
    ensures OffAll(s.list, t)[ReadyAt(p)] == s.list[ReadyAt(p)]
  {
    assert t in s.list[ReadyAt(p)] ==> Belongs(s, ReadyAt(p), t);
    WithoutOthers(s.list, t, ReadyAt(p));
  }

  /** A suspended thread leaves the ready lists alone. */
  lemma SuspendedOut(s: State, t: Tid)
    requires Inv(s) && Idling(s, t)
    ensures Out(s.(list := OffAll(s.list, t)), t)
  {
    OffAllOneList(s.list, t);
    var r := s.(list := OffAll(s.list, t));
    forall w, x | w in r.list && x in r.list[w] ensures Belongs(r, w, x) { assert Belongs(s, w, x); }
    forall q | 0 <= q < s.prios ensures Has(r.bitmap, q) <==> r.list[ReadyAt(q)] != [] {
      assert t in s.list[ReadyAt(q)] ==> Belongs(s, ReadyAt(q), t);
      WithoutOthers(s.list, t, ReadyAt(q));
    }
  }

  lemma InsertMapped(s: State, t: Tid)
    requires Out(s, t)
    ensures Sized(Insert(s, t).bitmap, s.prios) && Mapped(Insert(s, t))
  {
    var r, p := Insert(s, t), s.thread[t].prio;
    IncludeAgrees(s.bitmap, s.prios, p);
    StaysSized(s.bitmap, s.prios, p);
    forall q | 0 <= q < s.prios ensures Has(r.bitmap, q) <==> r.list[ReadyAt(q)] != [] {
      IncludeHas(s.bitmap, s.prios, p, q);
    }
  }

  lemma InsertListed(s: State, t: Tid)
    requires Out(s, t)
    ensures OneList(Insert(s, t).list)
  {
    var w := ReadyAt(s.thread[t].prio);
    DistinctAppend(s.list[w], t);
    JoinOneList(s.list, w, s.list[w] + [t], t);
  }

  /** From the point where `t` is in no list and its timer is off, inserting it restores the invariant. */
  lemma InsertKeeps(s: State, t: Tid)
    requires Out(s, t) && !s.thread[t].timer && t !in s.dead
    ensures Inv(Insert(s, t))
  {
    hide Mapped, OneList, Include, Sized;
    var r := Insert(s, t);
    InsertMapped(s, t);
    InsertListed(s, t);
    forall v, x | v in r.list && x in r.list[v] ensures Belongs(r, v, x) {
      if x != t { assert Belongs(s, v, x); }
    }
  }

  // ----- every step keeps the invariant -----

  lemma OutTimer(s: State, t: Tid)
    requires Out(s, t)
    ensures Out(s.(thread := s.thread[t := s.thread[t].(timer := false)]), t)
  {
    var m := s.(thread := s.thread[t := s.thread[t].(timer := false)]);
    hide OneList;
    forall w, x | w in m.list && x in m.list[w] ensures Belongs(m, w, x) { assert Belongs(s, w, x); }
  }

  lemma LoosenKeeps(s: State, t: Tid)
    requires Inv(s) && Idling(s, t)
    ensures Inv(Loosen(s, t)) && Out(Loosen(s, t), t)
  {
    SuspendedOut(s, t);
    OutTimer(s.(list := OffAll(s.list, t)), t);
    hide OneList, Unlisted;
  }

  lemma WakeKeeps(s: State, t: Tid)
    requires Inv(s) && t in s.thread && s.thread[t].stat == Suspended
    ensures Inv(Wake(s, t))
  {
    LoosenKeeps(s, t);
    InsertKeeps(Loosen(s, t), t);
  }

  lemma ReadiedKeeps(s: State, t: Tid)
    requires Inv(s) && Idling(s, t) && t !in s.dead
    ensures Inv(Readied(s, t))
  {
    var m := Readied(s, t);
    hide OneList;
    forall w, x | w in m.list && x in m.list[w] ensures Belongs(m, w, x) { assert Belongs(s, w, x); }
  }

  lemma StartKeeps(s: State, t: Tid)
    requires Inv(s) && t in s.thread && s.thread[t].stat == Init
    ensures Inv(Start(s, t))
  {
    RestoredKeeps(s, t);
    ReadiedKeeps(Restored(s, t), t);
    WakeKeeps(Readied(Restored(s, t), t), t);
  }

  lemma RestoredKeeps(s: State, t: Tid)
    requires Inv(s) && t in s.thread && (Idling(s, t) || s.thread[t].prio == s.thread[t].initPrio)
    ensures Inv(Restored(s, t))
  {
    hide OneList, Has, Agrees, Sized;
    var m := Restored(s, t);
    forall w, x | w in m.list && x in m.list[w] ensures Belongs(m, w, x) { assert Belongs(s, w, x); }
  }

  lemma UnarmedKeeps(s: State, t: Tid)
    requires Inv(s) && t in s.thread
    ensures Inv(Unarmed(s, t))
  {
    hide OneList, Has, Agrees, Sized;
    var m := Unarmed(s, t);
    forall w, x | w in m.list && x in m.list[w] ensures Belongs(m, w, x) { assert Belongs(s, w, x); }
  }

  /** What a thread that is in no list may become without joining one. */
  ghost predicate Fits(s: State, t: Tid, th: Thread, dead: set<Tid>) {
    && t != s.idle && th.prio < s.prios && th.initPrio < s.prios && th.stat != Ready && (th.timer ==> th.stat == Suspended)
    && (th.stat == Closed <==> t in dead) && forall x :: x in s.thread && x != t ==> (x in dead <==> x in s.dead)
  }

  /** A thread that is in no list is given a new state and joins the list that goes with it. */
  lemma JoinKeeps(s: State, t: Tid, th: Thread, dead: set<Tid>, w: Where, q: seq<Tid>)
    requires Out(s, t) && Fits(s, t, th, dead) && w in s.list && !w.ReadyAt? && (if w.Defunct? then th.stat == Closed else th.stat == Suspended)
    requires Distinct(q) && forall x :: x in q <==> x in s.list[w] || x == t
    ensures Inv(s.(thread := s.thread[t := th], dead := dead, list := s.list[w := q], leaving := s.leaving - {t}))
  {
    hide OneList, Has, Agrees, Sized;
    var r := s.(thread := s.thread[t := th], dead := dead, list := s.list[w := q], leaving := s.leaving - {t});
    JoinOneList(s.list, w, q, t);
    forall v, x | v in r.list && x in r.list[v] ensures Belongs(r, v, x) {
      if x != t { assert Belongs(s, v, x); }
    }
  }

  lemma StayOutKeeps(s: State, t: Tid, th: Thread, dead: set<Tid>)
    requires Out(s, t) && Fits(s, t, th, dead)
    ensures Inv(s.(thread := s.thread[t := th], dead := dead, leaving := s.leaving - {t}))
  {
    var r := s.(thread := s.thread[t := th], dead := dead, leaving := s.leaving - {t});
    hide OneList;
    forall v, x | v in r.list && x in r.list[v] ensures Belongs(r, v, x) { assert Belongs(s, v, x); }
    hide Unlisted;
  }

  /** What the region of rt_thread_suspend takes: the thread is not closed. */
  lemma SuspendKeeps(s: State, t: Tid, on: Target, timed: bool)
    requires Inv(s) && t in s.thread && t !in s.dead && t != s.idle
    ensures Inv(SuspendOn(s, t, on, timed))
  {
    RemoveOut(s, t);
    var r, th := Remove(s, t), s.thread[t].(stat := Suspended, timer := timed);
    assert forall w :: w in r.list ==> Distinct(r.list[w]);
    hide Mapped, OneList, Placed;
    if on.Object? && WaitFor(on.id) in r.list {
      var w := WaitFor(on.id);
      EnqueueDistinct(on.policy, Prios(s.thread), r.list[w], t);
      JoinKeeps(r, t, th, s.dead, w, Enqueue(on.policy, Prios(s.thread), r.list[w], t));
      assert r.(thread := r.thread[t := th], dead := s.dead, list := r.list[w := Enqueue(on.policy, Prios(s.thread), r.list[w], t)], leaving := s.leaving - {t})
        == SuspendOn(s, t, on, timed);
    } else {
      StayOutKeeps(r, t, th, s.dead);
      assert r.(thread := r.thread[t := th], dead := s.dead, leaving := s.leaving - {t}) == SuspendOn(s, t, on, timed);
    }
  }

  lemma InitOut(s: State, t: Tid)
    requires Inv(s) && t in s.thread && s.thread[t].stat == Init
    ensures Out(s, t)
  {
    forall w | w in s.list ensures t !in s.list[w] { assert t in s.list[w] ==> Belongs(s, w, t); }
  }

  lemma UnhookOut(s: State, t: Tid)
    requires Inv(s) && t in s.thread
    ensures Out(Unhook(s, t), t) && Unhook(s, t).thread == s.thread && Unhook(s, t).idle == s.idle && Unhook(s, t).dead == s.dead
  {
    if s.thread[t].stat == Init { InitOut(s, t); } else { RemoveOut(s, t); }
  }

  lemma UnlistedOut(s: State, t: Tid)
    requires Inv(s) && t in s.thread && Unlisted(s.list, t)
    ensures Out(s, t)
  {
  }

  /** From the point where it is in no list and its timer is off, closing a thread restores the invariant. */
  lemma EndedFromOut(s: State, t: Tid)
    requires Out(s, t) && t != s.idle && !s.thread[t].timer
    ensures Inv(Ended(s, t))
  {
    hide OneList, Mapped, Unlisted;
    StayOutKeeps(s, t, s.thread[t].(stat := Closed), s.dead + {t});
  }

  lemma PutAwayKeeps(s: State, t: Tid)
    requires Inv(s) && t in s.thread && Unlisted(s.list, t) && t in s.dead
    ensures Inv(PutAway(s, t))
  {
    UnlistedOut(s, t);
    assert Distinct(s.list[Defunct]) && t !in s.list[Defunct];
    DistinctCons(t, s.list[Defunct]);
    JoinKeeps(s, t, s.thread[t], s.dead, Defunct, [t] + s.list[Defunct]);
    assert s.thread[t := s.thread[t]] == s.thread && s.leaving - {t} == s.leaving;
  }

  lemma EndKeeps(s: State, t: Tid, defunct: bool)
    requires Inv(s) && t in s.thread && t != s.idle
    ensures Inv(End(s, t, defunct))
  {
    hide Inv, Out, Known, Unhook, Ended, PutAway, Unlisted;
    InvKnown(s);
    UnhookOut(s, t);
    var u := Unhook(s, t);
    OutTimer(u, t);
    UnarmedIs(u, t);
    var v := Unarmed(u, t);
    EndedFromOut(v, t);
    OutUnlisted(v, t);
    EndedIsDead(v, t);
    if defunct { PutAwayKeeps(Ended(v, t), t); }
  }

  lemma UnarmedIs(s: State, t: Tid)
    requires Known(s) && t in s.thread
    ensures var r := Unarmed(s, t);
      r == s.(thread := s.thread[t := s.thread[t].(timer := false)]) && t in r.thread && !r.thread[t].timer && r.idle == s.idle
  {
    hide Known;
  }

  lemma OutUnlisted(s: State, t: Tid)
    requires Out(s, t)
    ensures Unlisted(s.list, t) && t in s.thread && Known(s)
  {
  }

  lemma EndedIsDead(s: State, t: Tid)
    requires Known(s) && t in s.thread
    ensures var r := Ended(s, t); r.list == s.list && t in r.dead && t in r.thread
  {
    hide Known;
  }

  lemma TimeOutKeeps(s: State, t: Tid)
    requires Inv(s) && t in s.thread && s.thread[t].timer
    ensures Inv(TimeOut(s, t))
  {
    WakeKeeps(s, t);
  }

  /** While it is in no list a thread's priority may change. */
  lemma OutChange(s: State, t: Tid, p: nat)
    requires Out(s, t) && p < s.prios
    ensures Out(s.(thread := s.thread[t := s.thread[t].(prio := p)]), t)
  {
    var m := s.(thread := s.thread[t := s.thread[t].(prio := p)]);
    hide OneList;
    forall w, x | w in m.list && x in m.list[w] ensures Belongs(m, w, x) { assert Belongs(s, w, x); }
  }

  lemma ChangeKeeps(s: State, t: Tid, p: nat)
    requires Inv(s) && t in s.thread && p < s.prios
    ensures Inv(ChangePriority(s, t, p))
  {
    var r := Remove(s, t);
    if s.thread[t].stat == Ready {
      RemoveOut(s, t);
      OutChange(r, t, p);
      InsertKeeps(r.(thread := r.thread[t := r.thread[t].(prio := p)]), t);
    } else {
      hide OneList;
      var r := ChangePriority(s, t, p);
      forall w, x | w in r.list && x in r.list[w] ensures Belongs(r, w, x) { assert Belongs(s, w, x); }
    }
  }

  lemma SameThreads(s: State, thread: map<Tid, Thread>)
    requires Inv(s) && thread.Keys == s.thread.Keys
    requires forall x :: x in thread ==> thread[x].(left := s.thread[x].left) == s.thread[x]
    ensures Inv(s.(thread := thread))
  {
    var r := s.(thread := thread);
    forall x | x in thread ensures thread[x].stat == s.thread[x].stat && thread[x].prio == s.thread[x].prio {}
    forall x | x in thread ensures thread[x].timer == s.thread[x].timer && thread[x].initPrio == s.thread[x].initPrio {}
    forall w, x | w in r.list && x in r.list[w] ensures Belongs(r, w, x) { assert Belongs(s, w, x); }
  }

  lemma YieldListed(s: State)
    requires Inv(s) && YieldCurrent(s) != s
    ensures OneList(YieldCurrent(s).list)
  {
    var w, list := ReadyAt(s.thread[s.current].prio), OffAll(s.list, s.current);
    OffAllOneList(s.list, s.current);
    DistinctAppend(list[w], s.current);
    JoinOneList(list, w, list[w] + [s.current], s.current);
  }

  lemma YieldKeeps(s: State)
    requires Inv(s)
    ensures Inv(YieldCurrent(s))
  {
    var r := YieldCurrent(s);
    if r != s {
      YieldListed(s);
      YieldMapped(s);
      hide OneList, Mapped;
      forall v, x | v in r.list && x in r.list[v] ensures Belongs(r, v, x) { assert Belongs(s, v, x); }
    }
  }

  lemma YieldMapped(s: State)
    requires Inv(s) && YieldCurrent(s) != s
    ensures Mapped(YieldCurrent(s))
  {
    var r, p := YieldCurrent(s), s.thread[s.current].prio;
    forall q | 0 <= q < s.prios ensures Has(r.bitmap, q) <==> r.list[ReadyAt(q)] != [] {
      if q != p {
        assert s.current in s.list[ReadyAt(q)] ==> Belongs(s, ReadyAt(q), s.current);
        WithoutOthers(s.list, s.current, ReadyAt(q));
      }
    }
  }

  lemma SliceKeeps(s: State)
    requires Inv(s)
    ensures Inv(Slice(s))
  {
    var t := s.thread[s.current];
    var left := if t.left == 1 then t.slice else if t.left > 0 then t.left - 1 else 0xFFFF_FFFF;
    var m := s.thread[s.current := t.(left := left)];
    SameThreads(s, m);
    if t.left == 1 { YieldKeeps(s.(thread := m)); }
  }

  lemma DispatchKeeps(s: State)
    requires Inv(s)
    ensures Inv(Dispatch(s))
  {
    var p := Highest(s.bitmap);
    if Dispatch(s) != s {
      assert s.list[ReadyAt(p)][0] in s.list[ReadyAt(p)];
      assert Belongs(s, ReadyAt(p), s.list[ReadyAt(p)][0]);
      SameButCurrent(s, s.list[ReadyAt(p)][0]);
    }
  }

  lemma SameButCurrent(s: State, t: Tid)
    requires Inv(s) && t in s.thread
    ensures Inv(s.(current := t))
  {
    var r := s.(current := t);
    forall w, x | w in r.list && x in r.list[w] ensures Belongs(r, w, x) { assert Belongs(s, w, x); }
  }

  lemma LockKeeps(s: State, n: nat)
    requires Inv(s)
    ensures Inv(s.(lock := n))
  {
    var r := s.(lock := n);
    forall w, x | w in r.list && x in r.list[w] ensures Belongs(r, w, x) { assert Belongs(s, w, x); }
  }

  /** When a part of a call that runs in pieces is right. A thread in a ready list is neither prepared nor detached, and its priority
      is not restored unless it is the same; one joins a list that is in none, the ready list without a timer running and unless
      it is closed, the list of defunct threads if it is; a thread that is suspended is not closed; one that is closed is in no
      other list, and its timer is off. Nobody suspends or deletes the idle thread. */
  ghost predicate Orderly(s: State, e: Event) {
    match e
    case Restore(t) => t in s.thread ==> Idling(s, t) || s.thread[t].prio == s.thread[t].initPrio
    case Prepare(t) => t in s.thread ==> Idling(s, t) && t !in s.dead
    case Detach(t) => t in s.thread ==> Idling(s, t)
    case Join(t) => t in s.thread ==> Unlisted(s.list, t) && !s.thread[t].timer && t !in s.dead
    case Withdraw(t) => t in s.thread ==> t != s.idle && t !in s.dead
    case Leave(t) => t in s.thread ==> t != s.idle
    case Retire(t) => t in s.thread ==> t != s.idle && !s.thread[t].timer && forall w :: w in s.list && t in s.list[w] ==> w.Defunct?
    case Bury(t) => t in s.thread ==> Unlisted(s.list, t) && t in s.dead
    case _ => true
  }

  /** Such a part. */
  predicate IsPart(e: Event) {
    e.Restore? || e.Prepare? || e.Detach? || e.Join? || e.Withdraw? || e.Leave? || e.Unarm? || e.Retire? || e.Bury?
  }

  lemma TakenOutKeeps(s: State, t: Tid)
    requires Inv(s) && t in s.thread && t != s.idle
    ensures Inv(TakenOut(s, t))
  {
    hide OneList, Exclude, Unlisted, Has, Agrees, Sized;
    RemoveOut(s, t);
    var m, r := Remove(s, t), TakenOut(s, t);
    forall w, x | w in r.list && x in r.list[w] ensures Belongs(r, w, x) { assert Belongs(m, w, x); }
  }

  lemma EndedKeeps(s: State, t: Tid)
    requires Inv(s) && t in s.thread && t != s.idle && !s.thread[t].timer && forall w :: w in s.list && t in s.list[w] ==> w.Defunct?
    ensures Inv(Ended(s, t))
  {
    if t in s.list[Defunct] {
      assert Belongs(s, Defunct, t);
      assert Ended(s, t) == s;
    } else {
      UnlistedOut(s, t);
      EndedFromOut(s, t);
    }
  }

  lemma ReadyIsAlive(s: State, t: Tid)
    requires Inv(s) && t in s.thread && s.thread[t].stat == Ready
    ensures t !in s.dead
  {
  }

  /** A call in one piece keeps the invariant always. */
  lemma CallKeeps(s: State, e: Event)
    requires Inv(s) && !IsPart(e)
    ensures Inv(Step(s, e))
  {
    hide Inv, Start, SuspendOn, Wake, TimeOut, YieldCurrent, ChangePriority, End, Slice, Dispatch;
    match e
    case Startup(t) => if t in s.thread && s.thread[t].stat == Init { StartKeeps(s, t); }
    case Block(t, on, timed) =>
      if t in s.thread && s.thread[t].stat == Ready && t != s.idle && Exists(s, on) { ReadyIsAlive(s, t); SuspendKeeps(s, t, on, timed); }
    case Resume(t) => if t in s.thread && s.thread[t].stat == Suspended { WakeKeeps(s, t); }
    case Expire(t) => if t in s.thread && s.thread[t].timer { TimeOutKeeps(s, t); }
    case Yield => YieldKeeps(s);
    case SetPriority(t, p) => if t in s.thread && p < s.prios { ChangeKeeps(s, t, p); }
    case Close(t, defunct) => if t in s.thread && t != s.idle { EndKeeps(s, t, defunct); }
    case Tick => SliceKeeps(s);
    case Lock => LockKeeps(s, s.lock + 1);
    case Unlock =>
      if s.lock > 1 {
        LockKeeps(s, s.lock - 1);
      } else {
        LockKeeps(s, 0);
        DispatchKeeps(s.(lock := 0));
      }
    case Schedule => DispatchKeeps(s);
  }

  /** A part keeps it at the right moment. */
  lemma PartKeeps(s: State, e: Event)
    requires Inv(s) && IsPart(e) && Orderly(s, e) && e.t in s.thread
    ensures Inv(Step(s, e))
  {
    hide Inv, Restored, Readied, Loosen, Insert, SuspendOn, TakenOut, Unarmed, Ended, PutAway, Unlisted;
    match e
    case Restore(t) => RestoredKeeps(s, t);
    case Prepare(t) => ReadiedKeeps(s, t);
    case Detach(t) => LoosenKeeps(s, t);
    case Join(t) => UnlistedOut(s, t); InsertKeeps(s, t);
    case Withdraw(t) => SuspendKeeps(s, t, Nothing, false);
    case Leave(t) => TakenOutKeeps(s, t);
    case Unarm(t) => UnarmedKeeps(s, t);
    case Retire(t) => EndedKeeps(s, t);
    case Bury(t) => PutAwayKeeps(s, t);
  }

  lemma PartOfNobody(s: State, e: Event)
    requires Known(s) && IsPart(e) && e.t !in s.thread
    ensures Step(s, e) == s && Orderly(s, e)
  {
  }

  lemma StepKeeps(s: State, e: Event)
    requires Inv(s) && Orderly(s, e)
    ensures Inv(Step(s, e))
  {
    hide Orderly, Step, OneList, Placed, Mapped, Timed, Buried, Departing;
    if !IsPart(e) {
      CallKeeps(s, e);
    } else if e.t in s.thread {
      PartKeeps(s, e);
    } else {
      PartOfNobody(s, e);
    }
  }

  lemma JoinBreaks(s: State, t: Tid)
    requires Inv(s) && t in s.thread && !Orderly(s, Join(t))
    ensures !Inv(Insert(s, t))
  {
    var r := Insert(s, t);
    assert t in r.thread && r.thread[t].stat == Ready && r.thread[t].timer == s.thread[t].timer && r.dead == s.dead;
    hide OneList, Placed, Mapped, Unlisted;
  }

  lemma RetireBreaks(s: State, t: Tid)
    requires Inv(s) && t in s.thread && !Orderly(s, Retire(t))
    ensures !Inv(Ended(s, t))
  {
    var r := Ended(s, t);
    if t != s.idle && !s.thread[t].timer {
      var w :| w in s.list && t in s.list[w] && !w.Defunct?;
      assert !Belongs(r, w, t);
    }
  }

  lemma BuryBreaks(s: State, t: Tid)
    requires Inv(s) && t in s.thread && !Orderly(s, Bury(t))
    ensures !Inv(PutAway(s, t))
  {
    var r := PutAway(s, t);
    if Unlisted(s.list, t) {
      assert r.list[Defunct][0] == t && t in r.list[Defunct];
      assert !Belongs(r, Defunct, t);
    }
  }

  lemma RestoreBreaks(s: State, t: Tid)
    requires Inv(s) && t in s.thread && !Orderly(s, Restore(t))
    ensures !Inv(Restored(s, t))
  {
    var w := ReadyAt(s.thread[t].prio);
    assert t in s.list[w] && !Belongs(Restored(s, t), w, t);
  }

  lemma PrepareBreaks(s: State, t: Tid)
    requires Inv(s) && t in s.thread && !Orderly(s, Prepare(t))
    ensures !Inv(Readied(s, t))
  {
    var w := ReadyAt(s.thread[t].prio);
    if !Idling(s, t) { assert t in s.list[w] && !Belongs(Readied(s, t), w, t); }
  }

  lemma DetachBreaks(s: State, t: Tid)
    requires Inv(s) && t in s.thread && !Orderly(s, Detach(t))
    ensures !Inv(Loosen(s, t))
  {
    var r := Loosen(s, t);
    assert t !in r.list[ReadyAt(r.thread[t].prio)];
  }

  lemma SuspendBreaks(s: State, t: Tid)
    requires Inv(s) && t in s.thread && (t == s.idle || t in s.dead)
    ensures !Inv(SuspendOn(s, t, Nothing, false)) && !Inv(TakenOut(s, s.idle))
  {
    var r := SuspendOn(s, t, Nothing, false);
    assert t in r.thread && r.thread[t].stat == Suspended && r.dead == s.dead && r.idle == s.idle;
    assert s.idle in TakenOut(s, s.idle).leaving;
    hide OneList, Placed, Mapped, Unlisted;
  }

  /** A part that comes at the wrong moment breaks the invariant. */
  lemma PartBreaks(s: State, e: Event)
    requires Inv(s) && IsPart(e) && e.t in s.thread && !Orderly(s, e)
    ensures !Inv(Step(s, e))
  {
    hide Inv, Restored, Readied, Loosen, Insert, SuspendOn, TakenOut, Unarmed, Ended, PutAway, Unlisted;
    match e
    case Restore(t) => RestoreBreaks(s, t);
    case Prepare(t) => PrepareBreaks(s, t);
    case Detach(t) => DetachBreaks(s, t);
    case Join(t) => JoinBreaks(s, t);
    case Withdraw(t) => SuspendBreaks(s, t);
    case Leave(t) => SuspendBreaks(s, t);
    case Retire(t) => RetireBreaks(s, t);
    case Bury(t) => BuryBreaks(s, t);
  }

  /** A step breaks the invariant exactly if it is one of these parts and comes at the wrong moment. */
  lemma StepKeepsIff(s: State, e: Event)
    requires Inv(s)
    ensures Inv(Step(s, e)) <==> Orderly(s, e)
  {
    if Orderly(s, e) {
      StepKeeps(s, e);
    } else {
      hide Inv, Step, Unlisted;
      PartBreaks(s, e);
    }
  }

  // ----- whole runs -----

  function Run(s: State, es: seq<Event>): (r: State)
    requires Known(s)
    ensures Known(r)
    decreases |es|
  {
    if es == [] then s else
      Run(Step(s, es[0]), es[1..])
  }

  /** Every part of a call comes at the right moment. */
  ghost predicate OrderlyRun(s: State, es: seq<Event>)
    requires Known(s)
    decreases |es|
  {
    es == [] || (Orderly(s, es[0]) && OrderlyRun(Step(s, es[0]), es[1..]))
  }

  /** The invariant holds before and after every step of the run. */
  ghost predicate Throughout(s: State, es: seq<Event>)
    requires Known(s)
    decreases |es|
  {
    Inv(s) && (es == [] || Throughout(Step(s, es[0]), es[1..]))
  }

  lemma {:induction false} RunKeepsIff(s: State, es: seq<Event>)
    requires Inv(s)
    ensures Throughout(s, es) <==> OrderlyRun(s, es)
    ensures OrderlyRun(s, es) ==> Inv(Run(s, es))
    decreases |es|
  {
    hide Orderly, Step, OneList, Placed, Mapped, Timed, Buried, Departing;
    if es != [] {
      StepKeepsIff(s, es[0]);
      if Inv(Step(s, es[0])) {
        RunKeepsIff(Step(s, es[0]), es[1..]);
      }
    }
  }

  lemma RunOfTwo(s: State, a: Event, b: Event)
    requires Known(s)
    ensures Run(s, [a, b]) == Step(Step(s, a), b)
  {
    hide Step, Known;
    assert [a, b][1..] == [b] && [b][1..] == [];
    assert Run(Step(s, a), [b]) == Run(Step(Step(s, a), b), []);
  }

  lemma RunOfThree(s: State, a: Event, b: Event, c: Event)
    requires Known(s)
    ensures Run(s, [a, b, c]) == Step(Step(Step(s, a), b), c)
  {
    hide Step, Known;
    assert [a, b, c][1..] == [b, c];
    RunOfTwo(Step(s, a), b, c);
  }

  lemma RunOfFour(s: State, a: Event, b: Event, c: Event, d: Event)
    requires Known(s)
    ensures Run(s, [a, b, c, d]) == Step(Step(Step(Step(s, a), b), c), d)
  {
    hide Step, Known;
    assert [a, b, c, d][1..] == [b, c, d];
    RunOfThree(Step(s, a), b, c, d);
  }

  // ----- a thread resumed with interrupts enabled -----

  lemma OneStep(s: State, t: Tid)
    requires Known(s) && t in s.thread
    ensures s.thread[t].stat == Suspended ==> Step(s, Resume(t)) == Wake(s, t)
    ensures Step(s, Join(t)) == Insert(s, t)
  {
  }

  lemma TwoRegions(s: State, t: Tid)
    requires Known(s) && t in s.thread
    ensures Step(s, Detach(t)) == Loosen(s, t) && t in Loosen(s, t).thread && Step(Loosen(s, t), Join(t)) == Wake(s, t)
    ensures Loosen(s, t).thread[t] == s.thread[t].(timer := false)
  {
    hide Known;
  }

  /** The two critical regions of rt_thread_resume make the whole call, with nothing in between; and with the first parts of
      rt_thread_startup, that one. */
  lemma HalvesMakeTheCall(s: State, t: Tid)
    requires Known(s) && t in s.thread
    ensures s.thread[t].stat == Suspended ==> Run(s, [Detach(t), Join(t)]) == Step(s, Resume(t))
    ensures s.thread[t].stat == Init ==> Run(s, [Restore(t), Prepare(t), Detach(t), Join(t)]) == Step(s, Startup(t))
  {
    hide Known, Step, Run, Restored, Readied, Loosen, Insert, Wake;
    RunOfTwo(s, Detach(t), Join(t));
    RunOfFour(s, Restore(t), Prepare(t), Detach(t), Join(t));
    TwoRegions(s, t);
    OneStep(s, t);
    PreparedIs(s, t);
    TwoRegions(Readied(Restored(s, t), t), t);
  }

  lemma PreparedIs(s: State, t: Tid)
    requires Known(s) && t in s.thread
    ensures Step(s, Restore(t)) == Restored(s, t) && t in Restored(s, t).thread
    ensures Step(Restored(s, t), Prepare(t)) == Readied(Restored(s, t), t) && t in Readied(Restored(s, t), t).thread
    ensures s.thread[t].stat == Init ==> Step(s, Startup(t)) == Wake(Readied(Restored(s, t), t), t)
  {
    hide Known, Wake, Readied;
  }

  /** Between the two regions: suspended, in no list and without a timer. */
  ghost predicate Aside(s: State, t: Tid) {
    t in s.thread && s.thread[t].stat == Suspended && Unlisted(s.list, t) && !s.thread[t].timer
  }

  ghost predicate Halfway(s: State, t: Tid) {
    Inv(s) && Aside(s, t)
  }

  /** Someone else has made the thread ready or has closed it. */
  ghost predicate Overtaken(s: State, t: Tid) {
    Inv(s) && t in s.thread && (!Idling(s, t) || t in s.dead)
  }

  /** The end of the thread, or the middle part of its deletion. */
  predicate Ends(e: Event, t: Tid) {
    (e.Close? || e.Retire?) && e.t == t
  }

  /** A second resumption of the thread (which is also the end of a second startup), or its end. */
  predicate Meddles(e: Event, t: Tid) {
    ((e.Resume? || e.Join?) && e.t == t) || Ends(e, t)
  }

  /** The thread is taken out of the ready list again: it blocks, is suspended, or its deletion begins. */
  predicate Blocks(e: Event, t: Tid) {
    (e.Block? || e.Withdraw? || e.Leave?) && e.t == t
  }

  lemma {:induction false} UntouchedUntilJoin(s: State, es: seq<Event>, t: Tid)
    requires Halfway(s, t) && OrderlyRun(s, es) && forall i :: 0 <= i < |es| ==> !Meddles(es[i], t)
    ensures Halfway(Run(s, es), t)
    decreases |es|
  {
    if es != [] {
      StepKeeps(s, es[0]);
      HalfwayStays(s, es[0], t);
      UntouchedUntilJoin(Step(s, es[0]), es[1..], t);
    }
  }

  lemma {:induction false} OvertakenForGood(s: State, es: seq<Event>, t: Tid)
    requires Overtaken(s, t) && OrderlyRun(s, es) && forall i :: 0 <= i < |es| ==> !Blocks(es[i], t)
    ensures Overtaken(Run(s, es), t)
    decreases |es|
  {
    if es != [] {
      StepKeeps(s, es[0]);
      OvertakenStays(s, es[0], t);
      OvertakenForGood(Step(s, es[0]), es[1..], t);
    }
  }

  lemma {:induction false} MeddledBeforeJoin(s: State, es: seq<Event>, t: Tid, i: nat)
    requires Halfway(s, t) && OrderlyRun(s, es) && forall j :: 0 <= j < |es| ==> !Blocks(es[j], t)
    requires i < |es| && Meddles(es[i], t) && forall j :: 0 <= j < i ==> !Meddles(es[j], t)
    ensures Overtaken(Run(s, es), t)
    decreases |es|
  {
    hide Orderly, Step, OneList, Placed, Mapped, Timed, Buried, Departing, Aside;
    StepKeeps(s, es[0]);
    if i == 0 {
      MeddlerOvertakes(s, es[0], t);
      OvertakenForGood(Step(s, es[0]), es[1..], t);
    } else {
      assert !Meddles(es[0], t);
      HalfwayStays(s, es[0], t);
      MeddledBeforeJoin(Step(s, es[0]), es[1..], t, i - 1);
    }
  }

  lemma FirstMeddler(es: seq<Event>, t: Tid) returns (i: nat)
    ensures i <= |es| && (i < |es| ==> Meddles(es[i], t)) && forall j :: 0 <= j < i ==> !Meddles(es[j], t)
  {
    i := 0;
    while i < |es| && !Meddles(es[i], t)
      invariant i <= |es| && forall j :: 0 <= j < i ==> !Meddles(es[j], t)
    {
      i := i + 1;
    }
  }

  lemma SetAside(s: State, t: Tid)
    requires Inv(s) && t in s.thread && s.thread[t].stat == Suspended
    ensures Aside(Loosen(s, t), t)
  {
    OffAllOneList(s.list, t);
  }

  lemma MayJoin(s: State, t: Tid)
    requires Halfway(s, t)
    ensures Orderly(s, Join(t))
  {
  }

  /** Whatever happens between the two regions of rt_thread_resume, as long as the thread is not taken out of the ready list again:
      the second region keeps the invariant exactly if nobody else has resumed, started up or closed the thread. */
  lemma JoinIsRightIff(s: State, es: seq<Event>, t: Tid)
    requires Inv(s) && t in s.thread && s.thread[t].stat == Suspended
    ensures Inv(Loosen(s, t))
    ensures OrderlyRun(Loosen(s, t), es) && (forall i :: 0 <= i < |es| ==> !Blocks(es[i], t)) ==>
      var m := Run(Loosen(s, t), es);
      Inv(m) && (Inv(Step(m, Join(t))) <==> forall i :: 0 <= i < |es| ==> !Meddles(es[i], t))
  {
    hide Inv, Known, Loosen, Aside, Run, OrderlyRun, Throughout, Step, Orderly;
    InvKnown(s);
    Suspends(s, t);
    SetAside(s, t);
    LoosenKeeps(s, t);
    var h := Loosen(s, t);
    if OrderlyRun(h, es) && forall i :: 0 <= i < |es| ==> !Blocks(es[i], t) {
      var m := Run(h, es);
      RunKeepsIff(h, es);
      StepKeepsIff(m, Join(t));
      var i := FirstMeddler(es, t);
      if i < |es| {
        MeddledBeforeJoin(h, es, t, i);
        OvertakenListed(m, t);
      } else {
        UntouchedUntilJoin(h, es, t);
        MayJoin(m, t);
      }
    }
  }

  /** An event that may make the thread ready. */
  predicate Wakes(e: Event, t: Tid) {
    (e.Startup? || e.Resume? || e.Join? || e.Expire?) && e.t == t
  }

  lemma NotReadyStays(s: State, e: Event, t: Tid)
    requires Known(s) && t in s.thread && s.thread[t].stat != Ready && !Wakes(e, t)
    ensures t in Step(s, e).thread && Step(s, e).thread[t].stat != Ready
  {
    hide Known, Step;
    if !Names(e) {
      StepNames(s, e, t);
    } else if e.t == t {
      NotReadySelf(s, e, t);
    } else {
      StepOnly(s, e);
    }
  }

  lemma NotReadySelf(s: State, e: Event, t: Tid)
    requires Known(s) && t in s.thread && s.thread[t].stat != Ready && !Wakes(e, t) && Names(e) && e.t == t
    ensures t in Step(s, e).thread && Step(s, e).thread[t].stat != Ready
  {
    hide Known, SuspendOn, Insert, Remove, PutAway, TakenOut, OffAll;
    SuspendedIs(s, t, false);
    TakenOutIs(s, t);
    PutAwayIs(s, t);
    if e.Close? { PutAwayIs(Ended(Unarmed(Unhook(s, t), t), t), t); }
  }

  lemma TakenOutIs(s: State, t: Tid)
    requires Known(s) && t in s.thread
    ensures TakenOut(s, t).thread == s.thread
  {
    hide Remove;
  }

  lemma PutAwayIs(s: State, t: Tid)
    requires Known(s) && t in s.thread
    ensures PutAway(s, t).thread == s.thread
  {
  }

  /** Between the moment when rt_thread_resume has found the thread suspended and its first region: unless an event wakes the
      thread, that region keeps the invariant. */
  lemma {:induction false} DetachIsRight(s: State, es: seq<Event>, t: Tid)
    requires Inv(s) && t in s.thread && s.thread[t].stat != Ready && OrderlyRun(s, es) && forall i :: 0 <= i < |es| ==> !Wakes(es[i], t)
    ensures Inv(Run(s, es)) && Inv(Step(Run(s, es), Detach(t)))
    decreases |es|
  {
    if es == [] {
      StepKeeps(s, Detach(t));
    } else {
      StepKeeps(s, es[0]);
      NotReadyStays(s, es[0], t);
      DetachIsRight(Step(s, es[0]), es[1..], t);
    }
  }

  // ----- what an event leaves alone -----

  /** An event that concerns one thread. */
  predicate Names(e: Event) {
    !e.Yield? && !e.Tick? && !e.Lock? && !e.Unlock? && !e.Schedule?
  }

  lemma StepOnly(s: State, e: Event)
    requires Known(s) && Names(e)
    ensures Only(s, Step(s, e), e.t)
  {
    hide Known, Start, SuspendOn, Wake, TimeOut, ChangePriority, End, Restored, Readied, Loosen, Insert, TakenOut, Unarmed, Ended, PutAway, Unlisted;
  }

  lemma OffAllUnlisted(list: map<Where, seq<Tid>>, u: Tid, t: Tid)
    requires Unlisted(list, t)
    ensures Unlisted(OffAll(list, u), t)
  {
  }

  lemma RemoveUnlists(s: State, u: Tid, t: Tid)
    requires Known(s) && u in s.thread && Unlisted(s.list, t)
    ensures Unlisted(Remove(s, u).list, t) && Unlisted(Loosen(s, u).list, t)
  {
    OffAllUnlisted(s.list, u, t);
    hide Known, Unlisted, OffAll;
  }

  lemma InsertUnlists(s: State, u: Tid, t: Tid)
    requires Known(s) && u in s.thread && Unlisted(s.list, t) && u != t
    ensures Unlisted(Insert(s, u).list, t) && Unlisted(PutAway(s, u).list, t)
  {
    hide Include;
  }

  lemma WakeUnlists(s: State, u: Tid, t: Tid)
    requires Known(s) && u in s.thread && Unlisted(s.list, t) && u != t
    ensures Unlisted(Wake(s, u).list, t)
  {
    RemoveUnlists(s, u, t);
    InsertUnlists(Loosen(s, u), u, t);
    hide Known, Unlisted, Insert, Loosen;
  }

  lemma SuspendUnlists(s: State, u: Tid, on: Target, timed: bool, t: Tid)
    requires Known(s) && u in s.thread && Unlisted(s.list, t) && u != t
    ensures Unlisted(SuspendOn(s, u, on, timed).list, t)
  {
    RemoveUnlists(s, u, t);
    hide Remove;
  }

  lemma ChangeUnlists(s: State, u: Tid, p: nat, t: Tid)
    requires Known(s) && u in s.thread && p < s.prios && Unlisted(s.list, t) && u != t
    ensures Unlisted(ChangePriority(s, u, p).list, t)
  {
    if s.thread[u].stat == Ready {
      RemoveUnlists(s, u, t);
      var r := Remove(s, u);
      InsertUnlists(r.(thread := r.thread[u := r.thread[u].(prio := p)]), u, t);
    }
    hide Remove, Insert, Unlisted;
  }

  lemma EndUnlists(s: State, u: Tid, defunct: bool, t: Tid)
    requires Known(s) && u in s.thread && Unlisted(s.list, t) && u != t
    ensures Unlisted(End(s, u, defunct).list, t)
  {
    RemoveUnlists(s, u, t);
    var c := Ended(Unarmed(Unhook(s, u), u), u);
    if defunct { InsertUnlists(c, u, t); }
    hide Remove, PutAway, Unlisted;
  }

  /** A step for one thread makes no other one join a list. */
  lemma OthersUnlisted(s: State, e: Event, t: Tid)
    requires Known(s) && Names(e) && e.t != t && Unlisted(s.list, t)
    ensures Unlisted(Step(s, e).list, t)
  {
    hide Known, Wake, SuspendOn, ChangePriority, End, Loosen, Insert, TakenOut, PutAway, Unlisted;
    var u := e.t;
    if u in s.thread {
      match e
      case Startup(_) => WakeUnlists(Readied(Restored(s, u), u), u, t);
      case Block(_, on, timed) => SuspendUnlists(s, u, on, timed, t);
      case Resume(_) => WakeUnlists(s, u, t);
      case Expire(_) => WakeUnlists(s, u, t);
      case SetPriority(_, p) => if p < s.prios { ChangeUnlists(s, u, p, t); }
      case Close(_, defunct) => EndUnlists(s, u, defunct, t);
      case Restore(_) =>
      case Prepare(_) =>
      case Detach(_) => RemoveUnlists(s, u, t);
      case Join(_) => InsertUnlists(s, u, t);
      case Withdraw(_) => SuspendUnlists(s, u, Nothing, false, t);
      case Leave(_) => TakenUnlists(s, u, t);
      case Unarm(_) =>
      case Retire(_) =>
      case Bury(_) => InsertUnlists(s, u, t);
    }
  }

  lemma TakenUnlists(s: State, u: Tid, t: Tid)
    requires Known(s) && u in s.thread && Unlisted(s.list, t)
    ensures Unlisted(TakenOut(s, u).list, t)
  {
    RemoveUnlists(s, u, t);
    hide Remove, Unlisted;
  }

  /** Nobody joins a list when the current thread goes to the end of its own. */
  lemma YieldUnlists(s: State, t: Tid)
    requires Known(s) && Unlisted(s.list, t)
    ensures Unlisted(YieldCurrent(s).list, t)
  {
    OffAllUnlisted(s.list, s.current, t);
  }

  lemma SliceUnlists(s: State, t: Tid)
    requires Known(s) && Unlisted(s.list, t)
    ensures Unlisted(Slice(s).list, t)
  {
    var c := s.thread[s.current];
    YieldUnlists(s.(thread := s.thread[s.current := c.(left := c.slice)]), t);
    hide YieldCurrent, Unlisted;
  }

  /** The events that concern no thread in particular make nobody join a list, and leave all states as they are. */
  lemma StepNames(s: State, e: Event, t: Tid)
    requires Known(s) && !Names(e) && t in s.thread
    ensures Unlisted(s.list, t) ==> Unlisted(Step(s, e).list, t)
    ensures t in Step(s, e).thread && Step(s, e).thread[t].(left := s.thread[t].left) == s.thread[t] && Step(s, e).thread.Keys == s.thread.Keys
    ensures Step(s, e).dead == s.dead && Step(s, e).leaving == s.leaving && Step(s, e).idle == s.idle
  {
    if e.Yield? && Unlisted(s.list, t) { YieldUnlists(s, t); }
    if e.Tick? && Unlisted(s.list, t) { SliceUnlists(s, t); }
    hide Known, YieldCurrent, Slice, Highest, Unlisted;
  }

  lemma AsideRemove(s: State, t: Tid)
    requires Known(s) && Aside(s, t)
    ensures Aside(Remove(s, t), t) && Aside(Loosen(s, t), t) && Aside(Readied(s, t), t) && Aside(Unarmed(s, t), t) && Aside(Restored(s, t), t)
  {
    hide Known, Exclude;
  }

  lemma AsideTaken(s: State, t: Tid)
    requires Known(s) && Aside(s, t)
    ensures Aside(TakenOut(s, t), t) && Aside(SuspendOn(s, t, Nothing, false), t)
  {
    AsideRemove(s, t);
    SuspendedIs(s, t, false);
    TakenOutIs(s, t);
    hide SuspendOn, Unlisted, Remove, Known;
  }

  /** A step for the thread itself that neither wakes nor ends it. */
  lemma AsideSelf(s: State, e: Event, t: Tid)
    requires Known(s) && Aside(s, t) && Names(e) && e.t == t && !Meddles(e, t) && !e.Bury?
    ensures Aside(Step(s, e), t)
  {
    AsideRemove(s, t);
    AsideTaken(s, t);
    hide Known, Restored, Readied, Loosen, SuspendOn, TakenOut, Unarmed, Unlisted;
  }

  lemma AsideStep(s: State, e: Event, t: Tid)
    requires Known(s) && Aside(s, t) && !Meddles(e, t) && !(e.Bury? && e.t == t)
    ensures Aside(Step(s, e), t)
  {
    if !Names(e) {
      StepNames(s, e, t);
    } else if e.t == t {
      AsideSelf(s, e, t);
    } else {
      StepOnly(s, e);
      OthersUnlisted(s, e, t);
    }
    hide Step, Known, Unlisted;
  }

  lemma HalfwayStays(s: State, e: Event, t: Tid)
    requires Halfway(s, t) && Orderly(s, e) && !Meddles(e, t)
    ensures Halfway(Step(s, e), t)
  {
    StepKeeps(s, e);
    AsideStep(s, e, t);
    hide Step, Aside, OneList, Placed, Mapped;
  }

  lemma DeadStays(s: State, e: Event)
    requires Known(s)
    ensures s.dead <= Step(s, e).dead && Step(s, e).thread.Keys == s.thread.Keys && Step(s, e).idle == s.idle
  {
    hide Known, Step, Only;
    if Names(e) {
      StepOnly(s, e);
      OnlyIs(s, Step(s, e), e.t);
    } else {
      CurrentExists(s);
      StepNames(s, e, s.current);
    }
  }

  lemma OnlyIs(s: State, r: State, t: Tid)
    requires Only(s, r, t)
    ensures s.dead <= r.dead && r.thread.Keys == s.thread.Keys && r.idle == s.idle
  {
  }

  lemma CurrentExists(s: State)
    requires Known(s)
    ensures s.current in s.thread
  {
  }

  /** A thread in a ready list stays so, with its priority, unless it is taken out of that, ends or is given another one. */
  lemma ReadyStays(s: State, e: Event, t: Tid)
    requires Known(s) && Timed(s) && Orderly(s, e) && t in s.thread && !Idling(s, t) && !Blocks(e, t) && !Ends(e, t)
    ensures t in Step(s, e).thread && !Idling(Step(s, e), t)
    ensures !(e.SetPriority? && e.t == t) ==> Step(s, e).thread[t].prio == s.thread[t].prio
  {
    if !Names(e) {
      StepNames(s, e, t);
    } else if e.t == t {
      ReadyStaysSelf(s, e, t);
    } else {
      StepOnly(s, e);
      assert t in s.leaving - {e.t} <==> t in Step(s, e).leaving - {e.t};
    }
    hide Step, Known, Unlisted, Orderly;
  }

  lemma ReadyStaysSelf(s: State, e: Event, t: Tid)
    requires Known(s) && Timed(s) && Orderly(s, e) && t in s.thread && !Idling(s, t) && !Blocks(e, t) && !Ends(e, t) && Names(e) && e.t == t
    ensures t in Step(s, e).thread && !Idling(Step(s, e), t)
    ensures !e.SetPriority? ==> Step(s, e).thread[t].prio == s.thread[t].prio
  {
    hide Known, Start, SuspendOn, Wake, TimeOut, End, Readied, Loosen, Include, Exclude, Unlisted, OffAll;
  }

  lemma CloseIs(s: State, e: Event, t: Tid)
    requires Known(s) && t in s.thread && Ends(e, t)
    ensures if t != s.idle || e.Retire? then t in Step(s, e).dead else Step(s, e) == s
  {
    hide Known, Unhook, Unlisted;
  }

  lemma OvertakenStays(s: State, e: Event, t: Tid)
    requires Overtaken(s, t) && Orderly(s, e) && !Blocks(e, t)
    ensures Overtaken(Step(s, e), t)
  {
    StepKeeps(s, e);
    DeadStays(s, e);
    assert Known(s) && Timed(s);
    hide Inv, Known, Timed, Step;
    if Ends(e, t) {
      CloseIs(s, e, t);
    } else if t !in s.dead {
      ReadyStays(s, e, t);
    }
  }

  lemma MeddlerOvertakes(s: State, e: Event, t: Tid)
    requires Halfway(s, t) && Orderly(s, e) && Meddles(e, t)
    ensures Overtaken(Step(s, e), t)
  {
    StepKeeps(s, e);
    DeadStays(s, e);
    assert Known(s) && t != s.idle;
    hide Inv, Known, Loosen, Include, Unlisted, Start, SuspendOn, TimeOut, YieldCurrent, ChangePriority, Slice, Dispatch, Restored, Readied, End, TakenOut, Unarmed, Ended, PutAway;
    if Ends(e, t) {
      CloseIs(s, e, t);
    }
  }

  lemma OvertakenListed(s: State, t: Tid)
    requires Overtaken(s, t)
    ensures !Orderly(s, Join(t))
  {
    if !Idling(s, t) { assert t in s.list[ReadyAt(s.thread[t].prio)]; }
  }

  lemma InOrder(s: State, a: Event, b: Event)
    requires Inv(s) && Inv(Step(s, a)) && Inv(Step(Step(s, a), b))
    ensures Throughout(s, [a, b])
  {
    hide *;
    InvKnown(s);
    assert [a, b][1..] == [b] && [b][1..] == [];
    ThroughoutEmpty(Step(Step(s, a), b));
    ThroughoutCons(Step(s, a), [b]);
    ThroughoutCons(s, [a, b]);
  }

  lemma InvKnown(s: State)
    requires Inv(s)
    ensures Known(s)
  {
  }

  lemma ThroughoutEmpty(s: State)
    requires Inv(s)
    ensures Known(s) && Throughout(s, [])
  {
  }

  lemma ThroughoutCons(s: State, es: seq<Event>)
    requires Inv(s) && es != [] && Throughout(Step(s, es[0]), es[1..])
    ensures Throughout(s, es)
  {
    hide Step, Known;
  }

  /** The input for which the invariant fails: the thread is resumed a second time between the two regions. Every state before
      the last step is in order. In that step the thread is linked in once more while it is in its ready list. */
  lemma SecondResumeBreaks(s: State, t: Tid)
    requires Inv(s) && t in s.thread && s.thread[t].stat == Suspended
    ensures Throughout(s, [Detach(t), Resume(t)]) && Run(s, [Detach(t), Resume(t)]) == Wake(Loosen(s, t), t)
    ensures var m := Wake(Loosen(s, t), t);
      && t in m.thread && ReadyAt(m.thread[t].prio) in m.list && t in m.list[ReadyAt(m.thread[t].prio)]
      && Run(s, [Detach(t), Resume(t), Join(t)]) == Insert(m, t) && Insert(m, t).torn && !Inv(Insert(m, t))
  {
    InvKnown(s);
    hide *;
    var h := Loosen(s, t);
    TwoRegions(s, t);
    LoosenKeeps(s, t) by { Suspends(s, t); }
    OneStep(h, t);
    WakeKeeps(h, t);
    OneStep(Wake(h, t), t);
    RunOfTwo(s, Detach(t), Resume(t));
    RunOfThree(s, Detach(t), Resume(t), Join(t));
    InOrder(s, Detach(t), Resume(t));
    InvKnown(h);
    WokenIsListed(h, t);
  }

  lemma Suspends(s: State, t: Tid)
    requires t in s.thread && s.thread[t].stat == Suspended
    ensures Idling(s, t)
  {
  }

  lemma WokenIsListed(s: State, t: Tid)
    requires Known(s) && t in s.thread && Inv(Wake(s, t))
    ensures var m := Wake(s, t);
      && t in m.thread && ReadyAt(m.thread[t].prio) in m.list && t in m.list[ReadyAt(m.thread[t].prio)]
      && Insert(m, t).torn && !Inv(Insert(m, t))
  {
    var m := Wake(s, t);
    assert m.thread[t].stat == Ready && t !in m.leaving;
    hide OneList, Mapped, Known, Include;
  }

  lemma StartupIs(s: State, t: Tid)
    requires Known(s) && t in s.thread && s.thread[t].stat == Init
    ensures var a := Step(s, Startup(t)); t in a.thread && a.thread[t].stat == Ready && a.idle == s.idle
  {
    hide Known, Include, Unlisted;
  }

  lemma BlockIs(s: State, t: Tid, timed: bool)
    requires Known(s) && t in s.thread && s.thread[t].stat == Ready && t != s.idle
    ensures var m := Step(s, Block(t, Nothing, timed)); t in m.thread && m.thread[t].stat == Suspended && m.thread[t].timer == timed
  {
    SuspendedIs(s, t, timed);
    hide Known, Remove, SuspendOn;
  }

  lemma StartedThenBlocked(s: State, t: Tid, timed: bool)
    requires Inv(s) && t in s.thread && s.thread[t].stat == Init
    ensures var m := Step(Step(s, Startup(t)), Block(t, Nothing, timed)); Inv(m) && t in m.thread && m.thread[t].stat == Suspended && m.thread[t].timer == timed
  {
    hide Inv, Known, Step;
    InvKnown(s);
    InitIsNotIdle(s, t);
    CallKeeps(s, Startup(t));
    StartupIs(s, t);
    var a := Step(s, Startup(t));
    CallKeeps(a, Block(t, Nothing, timed));
    BlockIs(a, t, timed);
  }

  lemma RunOfFive(s: State, a: Event, b: Event, c: Event, d: Event, e: Event)
    requires Known(s)
    ensures Run(s, [a, b, c, d, e]) == Run(Step(Step(s, a), b), [c, d, e])
  {
    hide Known, Step;
    assert [a, b, c, d, e][1..] == [b, c, d, e] && [b, c, d, e][1..] == [c, d, e];
    assert Run(Step(s, a), [b, c, d, e]) == Run(Step(Step(s, a), b), [c, d, e]);
  }

  /** A run that leads there, for any thread that has only been initialized. */
  lemma SecondResumeIsReached(s: State, t: Tid)
    requires Inv(s) && t in s.thread && s.thread[t].stat == Init
    ensures Run(s, [Startup(t), Block(t, Nothing, false), Detach(t), Resume(t), Join(t)]).torn
  {
    hide Inv, Known, Step, Run, Throughout, Insert, Wake, Loosen;
    InvKnown(s);
    StartedThenBlocked(s, t, false);
    SecondResumeBreaks(Step(Step(s, Startup(t)), Block(t, Nothing, false)), t);
    RunOfFive(s, Startup(t), Block(t, Nothing, false), Detach(t), Resume(t), Join(t));
  }

  // ----- a thread suspended with interrupts enabled -----

  lemma WithdrawnIs(s: State, t: Tid)
    requires Known(s) && t in s.thread
    ensures Step(s, Withdraw(t)) == SuspendOn(s, t, Nothing, false)
    ensures s.thread[t].stat == Ready && t != s.idle ==> Step(s, Block(t, Nothing, false)) == Step(s, Withdraw(t))
  {
    hide Known, SuspendOn;
  }

  /** Only its end, or the middle part of its deletion, closes a thread. */
  lemma StillAlive(s: State, e: Event, t: Tid)
    requires Known(s) && t in s.thread && t !in s.dead && !Ends(e, t)
    ensures t !in Step(s, e).dead
  {
    if !Names(e) {
      StepNames(s, e, t);
    } else {
      StepOnly(s, e);
      hide Known, Start, SuspendOn, Wake, TimeOut, ChangePriority, Loosen, Insert, TakenOut, PutAway;
      if e.t == t && t in s.thread { AliveSelf(s, e); }
    }
  }

  lemma AliveSelf(s: State, e: Event)
    requires Known(s) && Names(e) && e.t in s.thread && !Ends(e, e.t)
    ensures Step(s, e).dead == s.dead
  {
    hide Known, Include, Exclude, OffAll, Unlisted, Enqueue;
  }

  lemma {:induction false} DeadForGood(s: State, es: seq<Event>, t: Tid)
    requires Known(s) && t in s.dead
    ensures Known(Run(s, es)) && t in Run(s, es).dead
    decreases |es|
  {
    if es != [] {
      DeadStays(s, es[0]);
      DeadForGood(Step(s, es[0]), es[1..], t);
    }
  }

  /** A thread other than the idle thread is closed exactly if it has ended. */
  lemma {:induction false} DeadIffEnded(s: State, es: seq<Event>, t: Tid)
    requires Known(s) && t in s.thread && t != s.idle && t !in s.dead
    ensures var r := Run(s, es); Known(r) && t in r.thread && r.idle == s.idle
    ensures t in Run(s, es).dead <==> exists i :: 0 <= i < |es| && Ends(es[i], t)
    decreases |es|
  {
    hide Known, Step;
    if es != [] {
      DeadStays(s, es[0]);
      var m, rest := Step(s, es[0]), es[1..];
      if Ends(es[0], t) {
        CloseIs(s, es[0], t);
        DeadForGood(m, rest, t);
        SameIdle(m, rest);
      } else {
        StillAlive(s, es[0], t);
        DeadIffEnded(m, rest, t);
        forall i | 0 <= i < |es| && Ends(es[i], t) ensures exists j :: 0 <= j < |rest| && Ends(rest[j], t) { assert rest[i - 1] == es[i]; }
        forall j | 0 <= j < |rest| && Ends(rest[j], t) ensures exists i :: 0 <= i < |es| && Ends(es[i], t) { assert es[j + 1] == rest[j]; }
      }
    }
  }

  lemma {:induction false} SameIdle(s: State, es: seq<Event>)
    requires Known(s)
    ensures Known(Run(s, es)) && Run(s, es).idle == s.idle && Run(s, es).thread.Keys == s.thread.Keys
    decreases |es|
  {
    hide Known, Step;
    if es != [] {
      DeadStays(s, es[0]);
      SameIdle(Step(s, es[0]), es[1..]);
    }
  }

  /** Whatever happens between the moment when rt_thread_suspend has found the thread ready and its region: that keeps the invariant
      exactly if the thread has not been ended. */
  lemma WithdrawIsRightIff(s: State, es: seq<Event>, t: Tid)
    requires Inv(s) && OrderlyRun(s, es) && t in s.thread && s.thread[t].stat == Ready && t != s.idle
    ensures Inv(Run(s, es))
    ensures Inv(Step(Run(s, es), Withdraw(t))) <==> forall i :: 0 <= i < |es| ==> !Ends(es[i], t)
  {
    hide Inv, Run, OrderlyRun, Throughout, Step;
    InvKnown(s);
    ReadyIsAlive(s, t);
    RunKeepsIff(s, es);
    DeadIffEnded(s, es, t);
    StepKeepsIff(Run(s, es), Withdraw(t));
  }

  /** The input for which it does not: the thread is deleted in between. Then it is closed, marked suspended and in no list, and the
      next resumption puts it into a ready list. */
  lemma SuspendAfterEndBreaks(s: State, t: Tid, p: nat)
    requires Inv(s) && t in s.thread && s.thread[t].stat == Ready && t != s.idle && p == s.thread[t].prio
    ensures Inv(Step(s, Close(t, true)))
    ensures var m := Run(s, [Close(t, true), Withdraw(t)]); !Inv(m) && t in m.thread && t in m.dead && m.thread[t].stat == Suspended
    ensures var r := Run(s, [Close(t, true), Withdraw(t), Resume(t)]); t in r.dead && ReadyAt(p) in r.list && t in r.list[ReadyAt(p)]
  {
    hide Inv, Known, Step, Run, SuspendOn, Wake, Unlisted;
    InvKnown(s);
    var c := Step(s, Close(t, true));
    CallKeeps(s, Close(t, true));
    DeadStays(s, Close(t, true));
    CloseIs(s, Close(t, true), t);
    ClosedPriority(s, t);
    WithdrawnIs(c, t);
    SuspendBreaks(c, t);
    SuspendedThread(c, t);
    var m := SuspendOn(c, t, Nothing, false);
    OneStep(m, t);
    WokenThread(m, t);
    RunOfTwo(s, Close(t, true), Withdraw(t));
    RunOfThree(s, Close(t, true), Withdraw(t), Resume(t));
  }

  lemma ClosedPriority(s: State, t: Tid)
    requires Known(s) && t in s.thread && t != s.idle
    ensures var r := Step(s, Close(t, true)); t in r.thread && r.thread[t].prio == s.thread[t].prio
  {
    hide Known, Remove, Unlisted;
  }

  lemma SuspendedThread(s: State, t: Tid)
    requires Known(s) && t in s.thread
    ensures var m := SuspendOn(s, t, Nothing, false);
      t in m.thread && m.thread[t].stat == Suspended && m.thread[t].prio == s.thread[t].prio && m.dead == s.dead
  {
    SuspendedIs(s, t, false);
    hide Known, SuspendOn, Remove;
  }

  lemma WokenThread(s: State, t: Tid)
    requires Known(s) && t in s.thread
    ensures var r, w := Wake(s, t), ReadyAt(s.thread[t].prio); r.dead == s.dead && w in r.list && t in r.list[w]
  {
    hide Include;
  }

  /** A run that leads there. */
  lemma SuspendAfterEndIsReached(s: State, t: Tid)
    requires Inv(s) && t in s.thread && s.thread[t].stat == Init
    ensures var r := Run(s, [Startup(t), Close(t, true), Withdraw(t), Resume(t)]);
      exists w :: t in r.dead && w in r.list && w.ReadyAt? && t in r.list[w]
  {
    InvKnown(s);
    InitIsNotIdle(s, t);
    hide Inv, Known, Step, Run;
    CallKeeps(s, Startup(t));
    StartupIs(s, t);
    var a := Step(s, Startup(t));
    SuspendAfterEndBreaks(a, t, a.thread[t].prio);
    var rest := [Close(t, true), Withdraw(t), Resume(t)];
    RunCons(s, Startup(t), rest);
    assert ReadyAt(a.thread[t].prio) in Run(a, rest).list;
  }

  lemma InitIsNotIdle(s: State, t: Tid)
    requires Inv(s) && t in s.thread && s.thread[t].stat == Init
    ensures t != s.idle
  {
  }

  lemma RunCons(s: State, e: Event, es: seq<Event>)
    requires Known(s)
    ensures Run(s, [e] + es) == Run(Step(s, e), es)
  {
    hide Step, Known;
    assert ([e] + es)[1..] == es;
  }

  // ----- a thread deleted with interrupts enabled -----

  /** The parts of rt_thread_detach and rt_thread_delete make the whole call, with nothing in between. */
  lemma PartsMakeTheEnd(s: State, t: Tid)
    requires Known(s) && t in s.thread && t != s.idle
    ensures s.thread[t].stat != Init ==> Run(s, [Leave(t), Unarm(t), Retire(t)]) == Step(s, Close(t, false))
    ensures s.thread[t].stat != Init ==> Run(s, [Leave(t), Unarm(t), Retire(t), Bury(t)]) == Step(s, Close(t, true))
    ensures s.thread[t].stat == Init ==> Run(s, [Unarm(t), Retire(t)]) == Step(s, Close(t, false))
    ensures s.thread[t].stat == Init ==> Run(s, [Unarm(t), Retire(t), Bury(t)]) == Step(s, Close(t, true))
  {
    hide *;
    RunOfThree(s, Leave(t), Unarm(t), Retire(t));
    RunOfFour(s, Leave(t), Unarm(t), Retire(t), Bury(t));
    RunOfTwo(s, Unarm(t), Retire(t));
    RunOfThree(s, Unarm(t), Retire(t), Bury(t));
    EndParts(s, t);
  }

  lemma EndParts(s: State, t: Tid)
    requires Known(s) && t in s.thread && t != s.idle
    ensures var u := if s.thread[t].stat == Init then s else Step(s, Leave(t));
      && Step(Step(u, Unarm(t)), Retire(t)) == Step(s, Close(t, false))
      && Step(Step(Step(u, Unarm(t)), Retire(t)), Bury(t)) == Step(s, Close(t, true))
  {
    hide Known, Step, TakenOut, Unhook, PutAway, Unarmed, Ended;
    EndedEither(s, t);
    LeaveIs(s, t);
    var u := if s.thread[t].stat == Init then s else TakenOut(s, t);
    var v := Unarmed(u, t);
    EndPartsAre(s, t);
    EndPartsAre(u, t);
    EndPartsAre(v, t);
    RetireIs(v, t);
    EndPartsAre(Ended(v, t), t);
  }

  lemma EndPartsAre(s: State, t: Tid)
    requires Known(s) && t in s.thread
    ensures Step(s, Unarm(t)) == Unarmed(s, t) && Step(s, Retire(t)) == Ended(s, t) && Step(s, Bury(t)) == PutAway(s, t)
    ensures t != s.idle ==> Step(s, Close(t, false)) == End(s, t, false) && Step(s, Close(t, true)) == End(s, t, true)
    ensures t in Unarmed(s, t).thread
  {
    hide *;
    UnarmIs(s, t);
    RetireIsEnded(s, t);
    BuryIs(s, t);
    CloseIsEnd(s, t, false);
    CloseIsEnd(s, t, true);
    UnarmedIs(s, t);
  }

  lemma UnarmIs(s: State, t: Tid)
    requires Known(s) && t in s.thread
    ensures Step(s, Unarm(t)) == Unarmed(s, t)
  {
    hide Known, Unarmed;
  }

  lemma RetireIsEnded(s: State, t: Tid)
    requires Known(s) && t in s.thread
    ensures Step(s, Retire(t)) == Ended(s, t)
  {
    hide Known, Ended;
  }

  lemma BuryIs(s: State, t: Tid)
    requires Known(s) && t in s.thread
    ensures Step(s, Bury(t)) == PutAway(s, t)
  {
    hide Known, PutAway;
  }

  lemma CloseIsEnd(s: State, t: Tid, defunct: bool)
    requires Known(s) && t in s.thread
    ensures t != s.idle ==> Step(s, Close(t, defunct)) == End(s, t, defunct)
  {
    hide Known, End;
  }

  lemma EndedEither(s: State, t: Tid)
    requires Known(s) && t in s.thread
    ensures var u := if s.thread[t].stat == Init then s else TakenOut(s, t);
      t in u.thread && t in Unarmed(u, t).thread && Ended(Unarmed(u, t), t) == Ended(Unarmed(Unhook(s, t), t), t)
  {
    var u := if s.thread[t].stat == Init then s else TakenOut(s, t);
    hide Known, Remove;
    assert u.leaving - {t} == s.leaving - {t};
  }

  /** An event that may put the thread into a list. */
  predicate Lists(e: Event, t: Tid) {
    (e.Startup? || e.Block? || e.Resume? || e.Expire? || e.SetPriority? || e.Close? || e.Join? || e.Bury?) && e.t == t
  }

  /** Neither in a list nor with its timer running. */
  ghost predicate Loose(s: State, t: Tid) {
    t in s.thread && Unlisted(s.list, t) && !s.thread[t].timer
  }

  lemma UnlistedSelf(s: State, e: Event)
    requires Known(s) && Names(e) && Unlisted(s.list, e.t) && !Lists(e, e.t)
    ensures Unlisted(Step(s, e).list, e.t) && (Loose(s, e.t) ==> Loose(Step(s, e), e.t))
  {
    var t := e.t;
    if t in s.thread {
      RemoveUnlists(s, t, t);
      TakenUnlists(s, t, t);
      SuspendedIs(s, t, false);
      TakenOutIs(s, t);
      StepOnly(s, e);
    }
    hide Known, Loosen, Remove, SuspendOn, TakenOut, Unlisted;
    if t in s.thread && e.Detach? { assert Loosen(s, t).thread[t] == s.thread[t].(timer := false) by { TwoRegions(s, t); } }
  }

  lemma {:induction false} StaysUnlisted(s: State, es: seq<Event>, t: Tid)
    requires Known(s) && t in s.thread && Unlisted(s.list, t) && forall i :: 0 <= i < |es| ==> !Lists(es[i], t)
    ensures Known(Run(s, es)) && Unlisted(Run(s, es).list, t) && t in Run(s, es).thread && Run(s, es).idle == s.idle
    ensures Loose(s, t) ==> Loose(Run(s, es), t)
    decreases |es|
  {
    hide Known, Step, Unlisted;
    if es != [] {
      var e := es[0];
      DeadStays(s, e);
      if !Names(e) {
        StepNames(s, e, t);
      } else if e.t == t {
        UnlistedSelf(s, e);
      } else {
        StepOnly(s, e);
        OthersUnlisted(s, e, t);
      }
      StaysUnlisted(Step(s, e), es[1..], t);
    }
  }

  lemma TakenOutUnlists(s: State, t: Tid)
    requires Inv(s) && t in s.thread
    ensures var m := TakenOut(s, t); Unlisted(m.list, t) && t in m.thread && m.idle == s.idle
  {
    RemoveOut(s, t);
    hide Inv, Remove;
  }

  /** Whatever happens between the parts of a deletion: as long as nothing puts the thread into a list again, or suspends it with its
      timer started, they keep the invariant. */
  lemma DeletionIsRight(s: State, es: seq<Event>, fs: seq<Event>, gs: seq<Event>, t: Tid)
    requires Inv(s) && t in s.thread && t != s.idle
    requires forall i :: 0 <= i < |es| ==> !Lists(es[i], t)
    requires forall i :: 0 <= i < |fs| ==> !Lists(fs[i], t)
    requires forall i :: 0 <= i < |gs| ==> !Lists(gs[i], t)
    requires OrderlyRun(Step(s, Leave(t)), es) && OrderlyRun(Step(Run(Step(s, Leave(t)), es), Unarm(t)), fs)
    ensures var u := Step(Run(Step(s, Leave(t)), es), Unarm(t));
      var c := Step(Run(u, fs), Retire(t));
      && Inv(Step(s, Leave(t))) && Inv(u) && Inv(Run(u, fs)) && Inv(c)
      && (OrderlyRun(c, gs) ==> Inv(Run(c, gs)) && Inv(Step(Run(c, gs), Bury(t))))
  {
    hide Inv, Known, Step, Run, OrderlyRun, Unlisted, Throughout, Unarmed, TakenOut, PutAway, End, Loose, Lists;
    InvKnown(s);
    LeaveIs(s, t);
    StepKeepsIff(s, Leave(t));
    TakenOutUnlists(s, t);
    var l := Step(s, Leave(t));
    RunKeepsIff(l, es);
    StaysUnlisted(l, es, t);
    var m := Run(l, es);
    EndPartsAre(m, t);
    StepKeepsIff(m, Unarm(t));
    UnarmedIsLoose(m, t);
    var u := Step(m, Unarm(t));
    RunKeepsIff(u, fs);
    StaysUnlisted(u, fs, t);
    RetiredThenBuried(Run(u, fs), gs, t);
  }

  lemma UnarmedIsLoose(s: State, t: Tid)
    requires Known(s) && t in s.thread && Unlisted(s.list, t)
    ensures var r := Unarmed(s, t); Loose(r, t) && t in r.thread && Unlisted(r.list, t) && r.idle == s.idle
  {
    hide Known, Unlisted;
  }

  lemma RetiredThenBuried(s: State, gs: seq<Event>, t: Tid)
    requires Inv(s) && t != s.idle && Loose(s, t) && forall i :: 0 <= i < |gs| ==> !Lists(gs[i], t)
    ensures var c := Step(s, Retire(t)); Inv(c) && (OrderlyRun(c, gs) ==> Inv(Run(c, gs)) && Inv(Step(Run(c, gs), Bury(t))))
  {
    hide Inv, Known, Step, Run, OrderlyRun, Unlisted, Throughout;
    InvKnown(s);
    MayRetire(s, t);
    StepKeepsIff(s, Retire(t));
    var c := Step(s, Retire(t));
    RetireIs(s, t);
    if OrderlyRun(c, gs) {
      RunKeepsIff(c, gs);
      StaysUnlisted(c, gs, t);
      DeadForGood(c, gs, t);
      StepKeepsIff(Run(c, gs), Bury(t));
    }
  }

  lemma LeaveIs(s: State, t: Tid)
    requires Known(s) && t in s.thread
    ensures Step(s, Leave(t)) == TakenOut(s, t)
  {
    hide TakenOut, Known;
  }

  lemma RetireIs(s: State, t: Tid)
    requires Known(s) && t in s.thread
    ensures var c := Step(s, Retire(t)); c.list == s.list && t in c.dead && t in c.thread && c.idle == s.idle
  {
    hide Known;
  }

  lemma MayRetire(s: State, t: Tid)
    requires t != s.idle && Loose(s, t)
    ensures Orderly(s, Retire(t))
  {
  }

  /** The input for which they do not: the thread waits with its timer running and times out after the first part. It is closed in its
      ready list then, and the last part links it in once more. */
  lemma TimeoutInDeletionBreaks(s: State, t: Tid)
    requires Inv(s) && t in s.thread && s.thread[t].stat == Suspended && s.thread[t].timer
    ensures Throughout(s, [Leave(t), Expire(t)]) && Inv(Run(s, [Leave(t), Expire(t), Unarm(t)]))
    ensures var c := Run(s, [Leave(t), Expire(t), Unarm(t), Retire(t)]);
      !Inv(c) && t in c.thread && t in c.dead && !Unlisted(c.list, t) && PutAway(c, t).torn
  {
    hide *;
    InvKnown(s);
    SuspendedIsNotIdle(s, t);
    LeaveIs(s, t);
    TakenOutKeeps(s, t);
    TakenOutIs(s, t);
    var l := TakenOut(s, t);
    InvKnown(l);
    ExpiredIs(l, t);
    WakeKeeps(l, t);
    WokenIsListed(l, t);
    var m := Wake(l, t);
    InvKnown(m);
    EndPartsAre(m, t);
    UnarmedKeeps(m, t);
    UnarmedListed(m, t);
    RetiredWhileListed(Unarmed(m, t), t);
    InOrder(s, Leave(t), Expire(t));
    RunOfThree(s, Leave(t), Expire(t), Unarm(t));
    RunOfFour(s, Leave(t), Expire(t), Unarm(t), Retire(t));
  }

  lemma UnarmedListed(s: State, t: Tid)
    requires Known(s) && t in s.thread && ReadyAt(s.thread[t].prio) in s.list && t in s.list[ReadyAt(s.thread[t].prio)]
    ensures var r := Unarmed(s, t); t in r.thread && ReadyAt(r.thread[t].prio) in r.list && t in r.list[ReadyAt(r.thread[t].prio)]
  {
    hide Known;
  }

  /** A run that leads there. */
  lemma TimeoutInDeletionIsReached(s: State, t: Tid)
    requires Inv(s) && t in s.thread && s.thread[t].stat == Init
    ensures var c := Run(s, [Startup(t), Block(t, Nothing, true), Leave(t), Expire(t), Unarm(t), Retire(t)]);
      !Inv(c) && t in c.thread && t in c.dead && !Unlisted(c.list, t) && Step(c, Bury(t)).torn
  {
    hide Inv, Known, Step, Run, Throughout, PutAway, Unlisted;
    InvKnown(s);
    StartedThenBlocked(s, t, true);
    var a := Step(s, Startup(t));
    var b := Step(a, Block(t, Nothing, true));
    TimeoutInDeletionBreaks(b, t);
    var rest := [Leave(t), Expire(t), Unarm(t), Retire(t)];
    RunCons(a, Block(t, Nothing, true), rest);
    RunCons(s, Startup(t), [Block(t, Nothing, true)] + rest);
    assert [Startup(t)] + ([Block(t, Nothing, true)] + rest) == [Startup(t), Block(t, Nothing, true), Leave(t), Expire(t), Unarm(t), Retire(t)];
    EndPartsAre(Run(b, rest), t);
  }

  lemma SuspendedIsNotIdle(s: State, t: Tid)
    requires Inv(s) && t in s.thread && s.thread[t].stat == Suspended
    ensures t != s.idle
  {
  }

  lemma ExpiredIs(s: State, t: Tid)
    requires Known(s) && t in s.thread && s.thread[t].timer && s.thread[t].stat == Suspended
    ensures Step(s, Expire(t)) == Wake(s, t)
  {
    hide Wake, Known;
  }

  lemma RetiredWhileListed(s: State, t: Tid)
    requires Inv(s) && t in s.thread && ReadyAt(s.thread[t].prio) in s.list && t in s.list[ReadyAt(s.thread[t].prio)]
    ensures var c := Step(s, Retire(t)); !Inv(c) && t in c.thread && t in c.dead && !Unlisted(c.list, t) && PutAway(c, t).torn
  {
    StepKeepsIff(s, Retire(t));
    RetireIs(s, t);
    hide Inv, Step, Known;
  }

  /** In every orderly run: a thread is in the ready list of its current priority exactly while it is ready, and no deletion of it
      has begun, and otherwise in at most
      one list, which its state names; bit `p` is set exactly if ready list `p` is not empty; thread timers run only for
      suspended threads, so the assertion in rt_thread_timeout has not failed. */
  lemma EveryThreadIsInOneList(s: State, es: seq<Event>, x: Tid, w: Where, v: Where)
    requires Inv(s) && OrderlyRun(s, es)
    requires w in Run(s, es).list && v in Run(s, es).list && x in Run(s, es).thread
    ensures var r := Run(s, es);
      && (x in r.list[w] && x in r.list[v] ==> w == v)
      && (w.ReadyAt? && w.p < r.prios ==> (x in r.list[w] <==> r.thread[x].stat == Ready && r.thread[x].prio == w.p && x !in r.leaving))
      && (w.WaitFor? && x in r.list[w] ==> r.thread[x].stat == Suspended)
      && (w.Defunct? && x in r.list[w] ==> r.thread[x].stat == Closed)
      && (w.ReadyAt? && w.p < r.prios ==> (Has(r.bitmap, w.p) <==> r.list[w] != []))
      && (r.thread[x].timer ==> r.thread[x].stat == Suspended) && !r.failed
  {
    RunKeepsIff(s, es);
    var r := Run(s, es);
    if w != v { assert Apart(r.list, w, v); }
    assert x in r.list[w] ==> Belongs(r, w, x);
  }

  /** In every orderly run, rt_schedule with the scheduler unlocked makes the head of the most urgent ready list that is not empty
      the current thread, and changes nothing else. */
  lemma ScheduleIsRight(s: State, es: seq<Event>)
    requires Inv(s) && OrderlyRun(s, es) && Run(s, es).lock == 0
    ensures Inv(Run(s, es))
    ensures var q := Run(s, es);
      var r := Dispatch(q);
      && r == q.(current := r.current) && r.current in q.thread && q.thread[r.current].stat == Ready
      && ReadyAt(q.thread[r.current].prio) in q.list
      && q.list[ReadyAt(q.thread[r.current].prio)] != [] && q.list[ReadyAt(q.thread[r.current].prio)][0] == r.current
      && forall p :: 0 <= p < q.thread[r.current].prio && ReadyAt(p) in q.list ==> q.list[ReadyAt(p)] == []
  {
    RunKeepsIff(s, es);
    DispatchIsRight(Run(s, es));
  }

  /** The search finds a list that is not empty. */
  lemma HighestIsReady(s: State)
    requires Inv(s)
    ensures 0 <= Highest(s.bitmap) < s.prios && ReadyAt(Highest(s.bitmap)) in s.list && s.list[ReadyAt(Highest(s.bitmap))] != []
  {
    var i := s.thread[s.idle].prio;
    assert s.idle in s.list[ReadyAt(i)];
    HighestIsLeast(s.bitmap, s.prios, i);
  }

  lemma DispatchIsRight(s: State)
    requires Inv(s) && s.lock == 0
    ensures var r := Dispatch(s);
      && r == s.(current := r.current) && r.current in s.thread && s.thread[r.current].stat == Ready
      && ReadyAt(s.thread[r.current].prio) in s.list
      && s.list[ReadyAt(s.thread[r.current].prio)] != [] && s.list[ReadyAt(s.thread[r.current].prio)][0] == r.current
      && forall p :: 0 <= p < s.thread[r.current].prio && ReadyAt(p) in s.list ==> s.list[ReadyAt(p)] == []
  {
    HighestIsReady(s);
    var h := Highest(s.bitmap);
    var head := s.list[ReadyAt(h)][0];
    assert head in s.list[ReadyAt(h)];
    assert Belongs(s, ReadyAt(h), head);
    forall p | 0 <= p < h && ReadyAt(p) in s.list ensures s.list[ReadyAt(p)] == [] {
      if s.list[ReadyAt(p)] != [] { HighestIsLeast(s.bitmap, s.prios, p); }
    }
  }

  // ----- the scheduler itself -----

  method NewTable() returns (table: array<nat>)
    ensures fresh(table) && table[..] == seq(32, _ => 0)
  {
    table := new nat[32](_ => 0);
  }

  /** The globals of src/scheduler.c with the threads. `table` is used above 32 priorities only. */
  class Scheduler {
    const prios: nat
    const idle: Tid
    const table: array<nat>
    /** rt_thread_priority_table, rt_thread_defunct and the lists of the IPC objects, with the nodes of the threads. */
    const lists: ListTable<Where>
    var group: nat
    var thread: map<Tid, Thread>
    var current: Tid
    var lock: nat
    var failed: bool
    ghost var dead: set<Tid>
    ghost var leaving: set<Tid>

    ghost function View(): State
      reads this, table, lists
    {
      State(prios, lists.list, if prios <= 32 then One(group) else Two(group, table[..]), thread, current, lock, idle, failed, dead, leaving, false)
    }

    /** The threads are linked in rings. */
    ghost predicate Linked()
      reads this, table, lists, lists.Cells()
    {
      lists.Valid() && lists.list.Keys == lists.head.Keys && thread.Keys <= lists.node.Keys && Known(View())
    }

    /** rt_system_scheduler_init and the start-up of the idle thread, with the other threads initialized. */
    constructor (prios: nat, idle: Tid, threads: map<Tid, Thread>, objects: set<nat>)
      requires 0 < prios <= 256 && idle in threads
      requires forall t :: t in threads ==> threads[t].stat == Init && !threads[t].timer && threads[t].prio < prios && threads[t].initPrio < prios
      ensures Linked() && Inv(View()) && fresh(table) && fresh(lists) && fresh(lists.Cells())
      ensures current == idle && lock == 0 && thread == threads[idle := threads[idle].(stat := Ready)]
      ensures forall id :: id in objects ==> WaitFor(id) in lists.list
    {
      hide ListTable<Where>.Valid, Inv, Sized, Out, Unlisted, Known, Insert, Include;
      this.prios, this.idle := prios, idle;
      var zeros := NewTable();
      table := zeros;
      lists := new ListTable(Wheres(prios, objects), threads.Keys);
      group := 0;
      thread := threads;
      current, lock, failed, dead, leaving := idle, 0, false, {}, {};
      new;
      NewIsOut(View());
      InsertKeeps(View(), idle);
      InsertedIs(View(), idle);
      InsertThread(idle);
    }

    /** Marks a priority in the bitmap. */
    method Mark(p: nat)
      requires Sized(View().bitmap, prios) && p < prios
      modifies this`group, table
      ensures View() == old(View()).(bitmap := Include(old(View().bitmap), p))
    {
      if prios > 32 {
        ghost var before := table[..];
        table[p / 8] := SetBit(table[p / 8], p % 8);
        group := SetBit(group, p / 8);
        assert table[..] == before[p / 8 := SetBit(before[p / 8], p % 8)];
      } else {
        group := SetBit(group, p);
      }
    }

    method Unmark(p: nat)
      requires Sized(View().bitmap, prios) && p < prios
      modifies this`group, table
      ensures View() == old(View()).(bitmap := Exclude(old(View().bitmap), p))
    {
      if prios > 32 {
        ghost var before := table[..];
        table[p / 8] := ClearBit(table[p / 8], p % 8);
        assert table[..] == before[p / 8 := ClearBit(before[p / 8], p % 8)];
        if table[p / 8] == 0 { group := ClearBit(group, p / 8); }
      } else {
        group := ClearBit(group, p);
      }
    }

    /** rt_schedule_insert_thread. If the thread is in a list already, no ring is left of that one. */
    method InsertThread(t: Tid)
      requires Linked() && t in thread
      modifies this, table, lists, lists.Cells()
      ensures Unlisted(old(lists.list), t) ==> Linked() && View() == Insert(old(View()), t)
      ensures forall w :: w in old(lists.list) && t in old(lists.list)[w] ==> forall r :: !RtList.Ring(lists.head[w], r)
    {
      hide ListTable<Where>.Valid, Unlisted, Include, Insert, Known, Sized, RtList.Ring;
      var p := thread[t].prio;
      InsertedIs(View(), t);
      thread := thread[t := thread[t].(stat := Ready)];
      leaving := leaving - {t};
      Mark(p);
      lists.Append(t, ReadyAt(p));
    }

    /** rt_schedule_remove_thread. */
    method RemoveThread(t: Tid)
      requires Linked() && t in thread
      modifies this, table, lists, lists.Cells()
      ensures Linked() && View() == Remove(old(View()), t) && Unlisted(lists.list, t)
    {
      hide ListTable<Where>.Valid, Unlisted, Exclude, Remove, OffAll, Known, Sized;
      var p := thread[t].prio;
      RemovedIs(View(), t);
      lists.TakeOut(t);
      UnmarkEmpty(p);
    }

    /** A priority whose ready list is empty is unmarked. */
    method UnmarkEmpty(p: nat)
      requires lists.Valid() && Sized(View().bitmap, prios) && p < prios && ReadyAt(p) in lists.list
      modifies this`group, table, lists, lists.Cells()
      ensures lists.list == old(lists.list) && View() == old(View()).(bitmap := if lists.list[ReadyAt(p)] == [] then Exclude(old(View().bitmap), p) else old(View().bitmap))
      ensures lists.Valid()
    {
      hide ListTable<Where>.Valid, Exclude, Sized;
      var empty := lists.Empty(ReadyAt(p));
      if empty { Unmark(p); }
    }

    /** The first region of rt_thread_resume. */
    method DetachThread(t: Tid)
      requires Linked() && t in thread
      modifies this, table, lists, lists.Cells()
      ensures Linked() && View() == Loosen(old(View()), t) && Unlisted(lists.list, t)
    {
      hide ListTable<Where>.Valid, Unlisted, Sized;
      ghost var r := Loosen(View(), t);
      lists.TakeOut(t);
      thread := thread[t := thread[t].(timer := false)];
    }

    /** rt_thread_resume with interrupts disabled. */
    method ResumeThread(t: Tid)
      requires Linked() && t in thread
      modifies this, table, lists, lists.Cells()
      ensures Linked() && View() == Wake(old(View()), t)
    {
      hide ListTable<Where>.Valid, Unlisted, Loosen, Insert, Known;
      DetachThread(t);
      InsertThread(t);
    }

    /** rt_thread_startup sets the priority and then the state before it calls rt_thread_resume. */
    method RestorePriority(t: Tid)
      requires Linked() && t in thread
      modifies this`thread, lists, lists.Cells()
      ensures Linked() && View() == Restored(old(View()), t) && lists.list == old(lists.list)
    {
      hide ListTable<Where>.Valid, Known;
      SetPriority(t, thread[t].initPrio) by { InitPriority(View(), t); }
    }

    method PrepareThread(t: Tid)
      requires Linked() && t in thread
      modifies this, table, lists, lists.Cells()
      ensures Linked() && View() == Readied(old(View()), t)
    {
      hide ListTable<Where>.Valid, Sized;
      thread := thread[t := thread[t].(stat := Suspended)];
      leaving := leaving - {t};
    }

    method StartupThread(t: Tid)
      requires Linked() && t in thread
      modifies this, table, lists, lists.Cells()
      ensures Linked() && View() == Start(old(View()), t)
    {
      hide ListTable<Where>.Valid, Restored, Readied, Wake, Known;
      RestorePriority(t);
      PrepareThread(t);
      ResumeThread(t);
    }

    /** The callback of the thread timer; its assertion holds whenever the timer can fire. */
    method Timeout(t: Tid)
      requires Linked() && Inv(View()) && t in thread && thread[t].timer
      modifies this, table, lists, lists.Cells()
      ensures Linked() && View() == TimeOut(old(View()), t)
    {
      hide ListTable<Where>.Valid, Wake, OneList, Placed, Mapped;
      assert thread[t].stat == Suspended;
      ResumeThread(t);
    }

    /** rt_thread_suspend of a ready thread. */
    method SuspendThread(t: Tid, timed: bool)
      requires Linked() && t in thread
      modifies this, table, lists, lists.Cells()
      ensures Linked() && View() == SuspendOn(old(View()), t, Nothing, timed) && Unlisted(lists.list, t)
    {
      hide ListTable<Where>.Valid, Unlisted, Remove, SuspendOn, Known, Sized;
      SuspendedIs(View(), t, timed);
      RemoveThread(t);
      thread := thread[t := thread[t].(stat := Suspended, timer := timed)];
      leaving := leaving - {t};
    }

    /** rt_ipc_list_suspend. */
    method WaitIn(t: Tid, id: nat, policy: Policy, timed: bool)
      requires Linked() && t in thread && WaitFor(id) in lists.list
      modifies this, table, lists, lists.Cells()
      ensures Linked() && View() == SuspendOn(old(View()), t, Object(id, policy), timed)
    {
      hide ListTable<Where>.Valid, Unlisted, Enqueue, SuspendOn, Known, Prios;
      BlockedIn(View(), t, id, policy, timed);
      var prio := Prios(thread);
      SuspendThread(t, timed);
      lists.Suspend(WaitFor(id), t, policy, prio);
    }

    method BlockThread(t: Tid, on: Target, timed: bool)
      requires Linked() && t in thread && Exists(View(), on)
      modifies this, table, lists, lists.Cells()
      ensures Linked() && View() == SuspendOn(old(View()), t, on, timed)
    {
      hide ListTable<Where>.Valid, SuspendOn, Known;
      if on.Object? {
        WaitIn(t, on.id, on.policy, timed);
      } else {
        SuspendThread(t, timed);
      }
    }

    /** rt_thread_control with RT_THREAD_CTRL_CHANGE_PRIORITY. */
    method Control(t: Tid, p: nat)
      requires Linked() && t in thread && p < prios
      modifies this, table, lists, lists.Cells()
      ensures Linked() && View() == ChangePriority(old(View()), t, p)
    {
      hide ListTable<Where>.Valid, Unlisted, Remove, Insert, Known;
      if thread[t].stat == Ready {
        RemoveThread(t);
        SetPriority(t, p);
        InsertThread(t);
      } else {
        SetPriority(t, p);
      }
    }

    method SetPriority(t: Tid, p: nat)
      requires Linked() && t in thread && p < prios
      modifies this`thread, lists, lists.Cells()
      ensures Linked() && View() == old(View()).(thread := old(thread)[t := old(thread)[t].(prio := p)]) && lists.list == old(lists.list)
    {
      hide ListTable<Where>.Valid, Sized;
      thread := thread[t := thread[t].(prio := p)];
    }

    method UnhookThread(t: Tid)
      requires Linked() && Inv(View()) && t in thread
      modifies this, table, lists, lists.Cells()
      ensures Linked() && View() == Unhook(old(View()), t) && Unlisted(lists.list, t)
    {
      hide ListTable<Where>.Valid, Unlisted, Remove, Inv, Known;
      UnhookOut(View(), t);
      if thread[t].stat != Init {
        RemoveThread(t);
      }
    }

    /** rt_timer_detach. */
    method StopTimer(t: Tid)
      requires Linked() && t in thread
      modifies this`thread, lists, lists.Cells()
      ensures Linked() && View() == Unarmed(old(View()), t) && lists.list == old(lists.list)
    {
      hide ListTable<Where>.Valid, Sized;
      thread := thread[t := thread[t].(timer := false)];
    }

    method MarkClosed(t: Tid)
      requires Linked() && t in thread
      modifies this, lists, lists.Cells()
      ensures Linked() && View() == Ended(old(View()), t) && lists.list == old(lists.list)
    {
      hide ListTable<Where>.Valid, Sized;
      thread := thread[t := thread[t].(stat := Closed)];
      dead, leaving := dead + {t}, leaving - {t};
    }

    /** The first region of rt_thread_detach and rt_thread_delete. */
    method LeaveThread(t: Tid)
      requires Linked() && t in thread
      modifies this, table, lists, lists.Cells()
      ensures Linked() && View() == TakenOut(old(View()), t) && Unlisted(lists.list, t)
    {
      hide ListTable<Where>.Valid, Unlisted, Remove, Sized;
      RemoveThread(t);
      if thread[t].stat == Ready {
        leaving := leaving + {t};
      }
    }

    /** The last one. If the thread is in a list already, no ring is left of that one. */
    method BuryThread(t: Tid)
      requires Linked() && t in thread
      modifies lists, lists.Cells()
      ensures Unlisted(old(lists.list), t) ==> Linked() && View() == PutAway(old(View()), t)
      ensures forall w :: w in old(lists.list) && t in old(lists.list)[w] ==> forall r :: !RtList.Ring(lists.head[w], r)
    {
      hide ListTable<Where>.Valid, Unlisted, RtList.Ring, PutAway, Sized;
      PutAwayWhole(View(), t);
      lists.Push(t, Defunct);
    }

    /** rt_thread_exit, or rt_thread_detach or rt_thread_delete in one piece. */
    method Terminate(t: Tid, defunct: bool)
      requires Linked() && Inv(View()) && t in thread
      modifies this, table, lists, lists.Cells()
      ensures Linked() && View() == End(old(View()), t, defunct)
    {
      hide ListTable<Where>.Valid, Unlisted, Unhook, Inv, Unarmed, Ended, End, Known;
      EndedIs(View(), t, defunct);
      UnhookThread(t);
      StopTimer(t);
      MarkClosed(t);
      if defunct {
        BuryThread(t);
      }
    }

    /** rt_thread_yield. */
    method YieldNow()
      requires Linked() && Inv(View())
      modifies this, table, lists, lists.Cells()
      ensures Linked() && View() == YieldCurrent(old(View()))
    {
      hide ListTable<Where>.Valid, Unlisted, Sized, Known, Inv, OffAll, YieldCurrent;
      CurrentExists(View());
      var t := thread[current];
      var alone := lists.Alone(current);
      YieldIs(View(), alone);
      if t.stat == Ready && !alone {
        lists.TakeOut(current);
        lists.Append(current, ReadyAt(t.prio));
      }
    }

    /** The time slice in rt_tick_increase. */
    method TickIncrease()
      requires Linked() && Inv(View())
      modifies this, table, lists, lists.Cells()
      ensures Linked() && View() == Slice(old(View()))
    {
      hide ListTable<Where>.Valid, YieldCurrent, Sized, OneList, Placed, Mapped;
      var t := thread[current];
      if t.left == 1 {
        SameThreads(View(), thread[current := t.(left := t.slice)]);
        thread := thread[current := t.(left := t.slice)];
        YieldNow();
      } else {
        thread := thread[current := t.(left := if t.left > 0 then t.left - 1 else 0xFFFF_FFFF)];
      }
    }

    /** The search of rt_schedule, over two levels above 32 priorities. */
    method HighestReady() returns (p: int)
      requires Sized(View().bitmap, prios)
      ensures p == Highest(View().bitmap)
    {
      if prios <= 32 {
        p := Ffs(group) - 1;
      } else {
        assert table[..] == View().bitmap.table;
        var number := Ffs(group) - 1;
        if 0 <= number < 32 {
          p := number * 8 + Ffs(table[number]) - 1;
        } else {
          p := -1;
        }
      }
    }

    /** rt_schedule. */
    method ScheduleNow()
      requires Linked() && Inv(View())
      modifies this`current, lists, lists.Cells()
      ensures Linked() && View() == Dispatch(old(View()))
    {
      hide ListTable<Where>.Valid, Highest, Mapped, Placed, OneList, Sized;
      if lock == 0 {
        HighestIsReady(View());
        var p := HighestReady();
        current := lists.First(ReadyAt(p));
      }
    }

    /** The calls in one piece that name a thread. */
    method PerformCall(e: Event)
      requires Linked() && Inv(View()) && Names(e) && !IsPart(e)
      modifies this, table, lists, lists.Cells()
      ensures Linked() && View() == Step(old(View()), e)
    {
      hide ListTable<Where>.Valid, Inv, Unlisted, Start, SuspendOn, Wake, TimeOut, ChangePriority, End;
      match e
      case Startup(t) => if t in thread && thread[t].stat == Init { StartupThread(t); }
      case Block(t, on, timed) => if t in thread && thread[t].stat == Ready && t != idle && (on.Object? ==> WaitFor(on.id) in lists.head) { BlockThread(t, on, timed); }
      case Resume(t) => if t in thread && thread[t].stat == Suspended { ResumeThread(t); }
      case Expire(t) => if t in thread && thread[t].timer { Timeout(t); }
      case SetPriority(t, p) => if t in thread && p < prios { Control(t, p); }
      case Close(t, defunct) => if t in thread && t != idle { Terminate(t, defunct); }
    }

    /** The parts of calls. */
    method PerformPart(e: Event)
      requires Linked() && IsPart(e) && Orderly(View(), e)
      modifies this, table, lists, lists.Cells()
      ensures Linked() && View() == Step(old(View()), e)
    {
      hide ListTable<Where>.Valid, Known, Sized, Idling, Unlisted, SuspendOn, Restored, Readied, Loosen, Insert, TakenOut, Unarmed, Ended, PutAway;
      match e
      case Restore(t) => if t in thread { RestorePriority(t); }
      case Prepare(t) => if t in thread { PrepareThread(t); }
      case Detach(t) => if t in thread { DetachThread(t); }
      case Join(t) => if t in thread { InsertThread(t); }
      case Withdraw(t) => if t in thread { SuspendThread(t, false); }
      case Leave(t) => if t in thread { LeaveThread(t); }
      case Unarm(t) => if t in thread { StopTimer(t); }
      case Retire(t) => if t in thread { MarkClosed(t); }
      case Bury(t) => if t in thread { BuryThread(t); }
    }

    /** Every step of the kernel is a step of the model. */
    method Perform(e: Event)
      requires Linked() && Inv(View()) && Orderly(View(), e)
      modifies this, table, lists, lists.Cells()
      ensures Linked() && Inv(View()) && View() == Step(old(View()), e)
    {
      hide ListTable<Where>.Valid, Inv, Orderly, YieldCurrent, Slice, Dispatch, Known;
      StepKeeps(View(), e);
      if e.Yield? {
        YieldNow();
      } else if e.Tick? {
        TickIncrease();
      } else if e.Lock? {
        SetLock(lock + 1);
      } else if e.Unlock? {
        if lock > 1 {
          SetLock(lock - 1);
        } else {
          SetLock(0);
          ScheduleNow();
        }
      } else if e.Schedule? {
        ScheduleNow();
      } else if IsPart(e) {
        PerformPart(e);
      } else {
        PerformCall(e);
      }
    }

    method SetLock(n: nat)
      requires Linked() && Inv(View())
      modifies this`lock, lists, lists.Cells()
      ensures Linked() && Inv(View()) && View() == old(View()).(lock := n)
    {
      hide ListTable<Where>.Valid, Inv;
      LockKeeps(View(), n);
      lock := n;
    }
  }

  /** The lists of a kernel with the given IPC objects. */
  function Wheres(prios: nat, objects: set<nat>): set<Where> {
    {Defunct} + (set id | id in objects :: WaitFor(id)) + (set p: nat | p < prios :: ReadyAt(p))
  }

  lemma InsertedIs(s: State, t: Tid)
    requires Known(s) && t in s.thread
    ensures var p := s.thread[t].prio;
      && Sized(s.bitmap, s.prios) && p < s.prios && ReadyAt(p) in s.list
      && (Unlisted(s.list, t) ==>
            Insert(s, t) == s.(thread := s.thread[t := s.thread[t].(stat := Ready)], list := s.list[ReadyAt(p) := s.list[ReadyAt(p)] + [t]],
                               bitmap := Include(s.bitmap, p), leaving := s.leaving - {t}))
  {
  }

  lemma RemovedIs(s: State, t: Tid)
    requires Known(s) && t in s.thread
    ensures var p, list := s.thread[t].prio, OffAll(s.list, t);
      && Sized(s.bitmap, s.prios) && p < s.prios && ReadyAt(p) in list && list.Keys == s.list.Keys
      && Remove(s, t) == s.(list := list, bitmap := if list[ReadyAt(p)] == [] then Exclude(s.bitmap, p) else s.bitmap)
  {
  }

  lemma EndedIs(s: State, t: Tid, defunct: bool)
    requires Known(s) && t in s.thread
    ensures var c := Ended(Unarmed(Unhook(s, t), t), t);
      && Defunct in c.list && End(s, t, defunct) == (if defunct then PutAway(c, t) else c)
      && (Unlisted(c.list, t) ==> PutAway(c, t) == c.(list := c.list[Defunct := [t] + c.list[Defunct]]))
  {
    hide Unhook, Unlisted;
  }

  lemma InitPriority(s: State, t: Tid)
    requires Known(s) && t in s.thread
    ensures s.thread[t].initPrio < s.prios
  {
  }

  lemma PutAwayWhole(s: State, t: Tid)
    requires Known(s) && t in s.thread
    ensures Defunct in s.list && (Unlisted(s.list, t) ==> PutAway(s, t) == s.(list := s.list[Defunct := [t] + s.list[Defunct]]))
    ensures Known(PutAway(s, t))
  {
    hide Sized, Unlisted;
  }

  lemma SuspendedIs(s: State, t: Tid, timed: bool)
    requires Known(s) && t in s.thread
    ensures SuspendOn(s, t, Nothing, timed) == Remove(s, t).(thread := s.thread[t := s.thread[t].(stat := Suspended, timer := timed)], leaving := s.leaving - {t})
  {
  }

  lemma BlockedIn(s: State, t: Tid, id: nat, policy: Policy, timed: bool)
    requires Known(s) && t in s.thread && WaitFor(id) in s.list
    ensures var m, w, prio := SuspendOn(s, t, Nothing, timed), WaitFor(id), Prios(s.thread);
      && w in m.list && t in prio && (forall x :: x in m.list[w] ==> x in prio)
      && SuspendOn(s, t, Object(id, policy), timed) == m.(list := m.list[w := Enqueue(policy, prio, m.list[w], t)])
  {
  }

  lemma OnlyInItsList(s: State, t: Tid)
    requires Inv(s) && t in s.thread && s.thread[t].stat == Ready
    ensures ReadyAt(s.thread[t].prio) in s.list && (t !in s.leaving ==> t in s.list[ReadyAt(s.thread[t].prio)])
    ensures forall w :: w in s.list && t in s.list[w] ==> w == ReadyAt(s.thread[t].prio)
  {
    forall w | w in s.list && t in s.list[w] ensures w == ReadyAt(s.thread[t].prio) { assert Belongs(s, w, t); }
  }

  /** Yielding, by the test of the code. */
  lemma YieldIs(s: State, alone: bool)
    requires Inv(s) && (alone <==> forall w :: w in s.list && s.current in s.list[w] ==> |s.list[w]| == 1)
    ensures var p, list := s.thread[s.current].prio, OffAll(s.list, s.current);
      && Sized(s.bitmap, s.prios) && ReadyAt(p) in s.list && list.Keys == s.list.Keys && Known(YieldCurrent(s))
      && YieldCurrent(s) == if s.thread[s.current].stat == Ready && !alone then s.(list := list[ReadyAt(p) := list[ReadyAt(p)] + [s.current]]) else s
  {
    if s.thread[s.current].stat == Ready { OnlyInItsList(s, s.current); }
    hide Mapped, Placed, OneList, Sized, Unlisted;
  }

  lemma NewIsOut(s: State)
    requires 0 < s.prios <= 256 && (forall w :: w in s.list ==> s.list[w] == []) && Defunct in s.list
    requires s.bitmap == if s.prios <= 32 then One(0) else Two(0, seq(32, _ => 0))
    requires (forall p :: 0 <= p < s.prios ==> ReadyAt(p) in s.list) && s.idle in s.thread && s.current in s.thread && !s.failed && s.dead == {} && s.leaving == {} && !s.torn
    requires forall t :: t in s.thread ==> s.thread[t].stat == Init && !s.thread[t].timer && s.thread[t].prio < s.prios && s.thread[t].initPrio < s.prios
    ensures Known(s) && Out(s, s.idle) && Unlisted(s.list, s.idle)
  {
    forall p: nat ensures !Bit(0, p) { ZeroBit(p); }
  }
}
