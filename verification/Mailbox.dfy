/** The mailbox of src/ipc.c: a bounded ring of words with threads waiting on both sides. A region with interrupts
    disabled is one step, so a step is what one thread does between two points at which others may run. */
module Mailbox {
  import opened Basics
  import opened WaitQueue
  import opened ThreadLists

  type Word = n: nat | n < 0x1_0000_0000

  /** Where a thread is in a call. A waiting thread is in one of the two queues; a woken one has left it but
      has not run yet. `left` is the rest of its timeout (negative: forever) as of tick `since`. */
  datatype Phase =
    | Idle
    | RecvWait(left: int, since: nat)
    | RecvWoken(left: int, since: nat)
    | SendWait(mail: Word, left: int, since: nat)
    | SendWoken(mail: Word, left: int, since: nat)
    | Failing(error: Result)

  datatype Result = Received(mail: Word) | Sent | EFULL | ETIMEOUT | ERROR

  /** `result` holds what a thread's last call returned; `sent` and `taken` are the mails accepted and handed out
      since the last reset. The kernel keeps neither. */
  datatype State = State(size: nat, policy: Policy, now: nat, mails: seq<Word>, receivers: seq<Tid>, senders: seq<Tid>,
                         prio: map<Tid, nat>, phase: map<Tid, Phase>, result: map<Tid, Result>, sent: seq<Word>, taken: seq<Word>)

  /** `Post` is a send from an interrupt. `Resume` lets a woken thread run on, `Expire` is its thread timer. */
  datatype Event =
    | Recv(t: Tid, timeout: int) | Send(t: Tid, mail: Word, timeout: int) | Post(mail: Word)
    | Resume(t: Tid) | Expire(t: Tid) | SetPriority(t: Tid, p: nat) | Reset | Tick

  ghost predicate Known(s: State) {
    && s.phase.Keys <= s.prio.Keys
    && (forall x :: x in s.receivers ==> x in s.phase && s.phase[x].RecvWait?)
    && (forall x :: x in s.senders ==> x in s.phase && s.phase[x].SendWait?)
  }

  function WakeReceiver(s: State): State
    requires Known(s)
  {
    if s.receivers == [] then s
    else
      var t := s.receivers[0];
      s.(receivers := s.receivers[1..], phase := s.phase[t := RecvWoken(s.phase[t].left, s.phase[t].since)])
  }

  function WakeSender(s: State): State
    requires Known(s)
  {
    if s.senders == [] then s
    else
      var t := s.senders[0];
      s.(senders := s.senders[1..], phase := s.phase[t := SendWoken(s.phase[t].mail, s.phase[t].left, s.phase[t].since)])
  }

  function Put(s: State, mail: Word): State
    requires Known(s)
  {
    WakeReceiver(s.(mails := s.mails + [mail], sent := s.sent + [mail]))
  }

  function Take(s: State): State
    requires Known(s) && s.mails != []
  {
    WakeSender(s.(mails := s.mails[1..], taken := s.taken + [s.mails[0]]))
  }

  function Return(s: State, t: Tid, r: Result): State {
    s.(phase := s.phase[t := Idle], result := s.result[t := r])
  }

  /** Thread `t`, in neither queue, goes on with rt_mb_recv. */
  function RecvOn(s: State, t: Tid, left: int): State
    requires Known(s) && t in s.phase && t !in s.receivers && t !in s.senders
  {
    if s.mails != [] then Take(Return(s, t, Received(s.mails[0])))
    else if left == 0 then Return(s, t, ETIMEOUT)
    else s.(receivers := Enqueue(s.policy, s.prio, s.receivers, t), phase := s.phase[t := RecvWait(left, s.now)])
  }

  /** The same for rt_mb_send_wait. */
  function SendOn(s: State, t: Tid, mail: Word, left: int): State
    requires Known(s) && t in s.phase && t !in s.receivers && t !in s.senders
  {
    if |s.mails| != s.size then Put(Return(s, t, Sent), mail)
    else if left == 0 then Return(s, t, EFULL)
    else s.(senders := Enqueue(s.policy, s.prio, s.senders, t), phase := s.phase[t := SendWait(mail, left, s.now)])
  }

  function RunOn(s: State, t: Tid): State
    requires Known(s) && t in s.phase
  {
    match s.phase[t]
    case RecvWoken(left, since) => RecvOn(s, t, Left(left, since, s.now))
    case SendWoken(mail, left, since) => SendOn(s, t, mail, Left(left, since, s.now))
    case Failing(error) => Return(s, t, error)
    case _ => s
  }

  /** rt_thread_timeout. */
  function TimeOut(s: State, t: Tid): State
    requires Known(s) && t in s.phase
  {
    var w := s.phase[t];
    if (w.RecvWait? || w.SendWait?) && 0 < w.left <= s.now - w.since then
      s.(receivers := Without(s.receivers, t), senders := Without(s.senders, t), phase := s.phase[t := Failing(ETIMEOUT)])
    else s
  }

  /** rt_mb_control with RT_IPC_CMD_RESET. */
  function ResetAll(s: State): State
    requires Known(s)
  {
    s.(mails := [], receivers := [], senders := [], phase := SetAll(SetAll(s.phase, s.receivers, Failing(ERROR)), s.senders, Failing(ERROR)), sent := [], taken := [])
  }

  /** An event that does not apply to the thread's phase does nothing. */
  function Step(s: State, e: Event): State
    requires Known(s)
  {
    match e
    case Recv(t, timeout) => if t in s.phase && s.phase[t].Idle? then RecvOn(s, t, timeout) else s
    case Send(t, mail, timeout) => if t in s.phase && s.phase[t].Idle? then SendOn(s, t, mail, timeout) else s
    case Post(mail) => if |s.mails| != s.size then Put(s, mail) else s
    case Resume(t) => if t in s.phase then RunOn(s, t) else s
    case Expire(t) => if t in s.phase then TimeOut(s, t) else s
    case SetPriority(t, p) => s.(prio := s.prio[t := p])
    case Reset => ResetAll(s)
    case Tick => s.(now := s.now + 1)
  }

  // ----- what every step keeps -----

  ghost function WokenReceivers(s: State): set<Tid> {
    set t | t in s.phase && s.phase[t].RecvWoken?
  }

  ghost function WokenSenders(s: State): set<Tid> {
    set t | t in s.phase && s.phase[t].SendWoken?
  }

  ghost predicate Shape(s: State) {
    && Known(s) && Distinct(s.receivers) && Distinct(s.senders)
    && (forall x :: x in s.phase && s.phase[x].RecvWait? ==> x in s.receivers)
    && (forall x :: x in s.phase && s.phase[x].SendWait? ==> x in s.senders)
    && |s.mails| <= s.size && s.sent == s.taken + s.mails
    && forall x :: x in s.phase && !s.phase[x].Idle? && !s.phase[x].Failing? ==> s.phase[x].since <= s.now
  }

  /** No lost wakeup, up to `r` receivers and `w` senders that are on their way. */
  ghost predicate Awake(s: State, r: int, w: int) {
    && (s.receivers != [] ==> |s.mails| <= |WokenReceivers(s)| + r)
    && (s.senders != [] ==> s.size - |s.mails| <= |WokenSenders(s)| + w)
  }

  /** While a receiver waits, no more mails are stored than woken receivers are still to run, and the
      same for senders and free slots. */
  ghost predicate Inv(s: State) {
    Shape(s) && Awake(s, 0, 0)
  }

  lemma CountOne(a: set<Tid>, b: set<Tid>, t: Tid)
    requires a - {t} == b - {t}
    ensures |a| - (if t in a then 1 else 0) == |b| - (if t in b then 1 else 0)
  {
    assert t in a ==> a == (a - {t}) + {t};
    assert t in b ==> b == (b - {t}) + {t};
  }

  lemma Counted(s: State, s': State, t: Tid)
    requires s'.phase.Keys == s.phase.Keys && t in s.phase && s'.phase == s.phase[t := s'.phase[t]]
    ensures |WokenReceivers(s')| == |WokenReceivers(s)| - (if s.phase[t].RecvWoken? then 1 else 0) + (if s'.phase[t].RecvWoken? then 1 else 0)
    ensures |WokenSenders(s')| == |WokenSenders(s)| - (if s.phase[t].SendWoken? then 1 else 0) + (if s'.phase[t].SendWoken? then 1 else 0)
  {
    CountOne(WokenReceivers(s), WokenReceivers(s'), t);
    CountOne(WokenSenders(s), WokenSenders(s'), t);
  }

  lemma WakeReceiverKeeps(s: State)
    requires Shape(s) && Awake(s, 1, 0)
    ensures Shape(WakeReceiver(s)) && Awake(WakeReceiver(s), 0, 0)
  {
    if s.receivers != [] {
      var t, s' := s.receivers[0], WakeReceiver(s);
      Counted(s, s', t);
      assert s.receivers == [t] + s'.receivers;
    }
  }

  lemma WakeSenderKeeps(s: State)
    requires Shape(s) && Awake(s, 0, 1)
    ensures Shape(WakeSender(s)) && Awake(WakeSender(s), 0, 0)
  {
    if s.senders != [] {
      var t, s' := s.senders[0], WakeSender(s);
      Counted(s, s', t);
      assert s.senders == [t] + s'.senders;
    }
  }

  lemma PutKeeps(s: State, mail: Word)
    requires Shape(s) && Awake(s, 0, 1) && |s.mails| < s.size
    ensures Inv(Put(s, mail))
  {
    var s1 := s.(mails := s.mails + [mail], sent := s.sent + [mail]);
    assert s1.sent == s1.taken + s1.mails;
    assert WokenReceivers(s1) == WokenReceivers(s) && WokenSenders(s1) == WokenSenders(s);
    WakeReceiverKeeps(s1);
  }

  lemma TakeKeeps(s: State)
    requires Shape(s) && Awake(s, 1, 0) && s.mails != []
    ensures Inv(Take(s))
  {
    var s1 := s.(mails := s.mails[1..], taken := s.taken + [s.mails[0]]);
    assert s.mails == [s.mails[0]] + s.mails[1..];
    assert s1.sent == s1.taken + s1.mails;
    assert WokenReceivers(s1) == WokenReceivers(s) && WokenSenders(s1) == WokenSenders(s);
    WakeSenderKeeps(s1);
  }

  lemma ReturnKeeps(s: State, t: Tid, r: Result)
    requires Inv(s) && t in s.phase && !s.phase[t].RecvWait? && !s.phase[t].SendWait?
    requires s.phase[t].RecvWoken? ==> s.mails == []
    requires s.phase[t].SendWoken? ==> |s.mails| == s.size
    ensures Inv(Return(s, t, r))
  {
    Counted(s, Return(s, t, r), t);
  }

  lemma RecvWaits(s: State, t: Tid, left: int)
    requires Inv(s) && t in s.phase && (s.phase[t].Idle? || s.phase[t].RecvWoken?) && s.mails == [] && left != 0
    ensures Inv(RecvOn(s, t, left))
  {
    Counted(s, RecvOn(s, t, left), t);
    EnqueueDistinct(s.policy, s.prio, s.receivers, t);
  }

  lemma SendWaits(s: State, t: Tid, mail: Word, left: int)
    requires Inv(s) && t in s.phase && (s.phase[t].Idle? || s.phase[t].SendWoken?) && |s.mails| == s.size && left != 0
    ensures Inv(SendOn(s, t, mail, left))
  {
    Counted(s, SendOn(s, t, mail, left), t);
    EnqueueDistinct(s.policy, s.prio, s.senders, t);
  }

  lemma RecvOnKeeps(s: State, t: Tid, left: int)
    requires Inv(s) && t in s.phase && (s.phase[t].Idle? || s.phase[t].RecvWoken?)
    ensures Inv(RecvOn(s, t, left))
  {
    if s.mails != [] {
      var s1 := Return(s, t, Received(s.mails[0]));
      Counted(s, s1, t);
      TakeKeeps(s1);
    } else if left == 0 {
      ReturnKeeps(s, t, ETIMEOUT);
    } else {
      RecvWaits(s, t, left);
    }
  }

  lemma SendOnKeeps(s: State, t: Tid, mail: Word, left: int)
    requires Inv(s) && t in s.phase && (s.phase[t].Idle? || s.phase[t].SendWoken?)
    ensures Inv(SendOn(s, t, mail, left))
  {
    if |s.mails| != s.size {
      var s1 := Return(s, t, Sent);
      Counted(s, s1, t);
      PutKeeps(s1, mail);
    } else if left == 0 {
      ReturnKeeps(s, t, EFULL);
    } else {
      SendWaits(s, t, mail, left);
    }
  }

  lemma TimeOutKeeps(s: State, t: Tid)
    requires Inv(s) && t in s.phase
    ensures Inv(TimeOut(s, t))
  {
    if TimeOut(s, t) != s {
      Counted(s, TimeOut(s, t), t);
      WithoutDistinct(s.receivers, t);
      WithoutDistinct(s.senders, t);
    }
  }

  lemma ResetKeeps(s: State)
    requires Inv(s)
    ensures Inv(ResetAll(s))
  {
    var r := ResetAll(s);
    assert forall x :: x in s.phase && s.phase[x].RecvWait? ==> r.phase[x].Failing?;
  }

  /** In every interleaving of sends, receives, timeouts, priority changes and resets no wakeup is lost. */
  lemma StepKeeps(s: State, e: Event)
    requires Inv(s)
    ensures Inv(Step(s, e)) && Step(s, e).size == s.size
  {
    match e
    case Recv(t, timeout) => if t in s.phase && s.phase[t].Idle? { RecvOnKeeps(s, t, timeout); }
    case Send(t, mail, timeout) => if t in s.phase && s.phase[t].Idle? { SendOnKeeps(s, t, mail, timeout); }
    case Post(mail) => if |s.mails| != s.size { PutKeeps(s, mail); }
    case Resume(t) =>
      if t in s.phase {
        match s.phase[t]
        case RecvWoken(left, since) => RecvOnKeeps(s, t, Left(left, since, s.now));
        case SendWoken(mail, left, since) => SendOnKeeps(s, t, mail, Left(left, since, s.now));
        case Failing(error) => ReturnKeeps(s, t, error);
        case _ =>
      }
    case Expire(t) => if t in s.phase { TimeOutKeeps(s, t); }
    case SetPriority(t, p) =>
      assert WokenReceivers(Step(s, e)) == WokenReceivers(s) && WokenSenders(Step(s, e)) == WokenSenders(s);
    case Reset => ResetKeeps(s);
    case Tick =>
      assert WokenReceivers(Step(s, e)) == WokenReceivers(s) && WokenSenders(Step(s, e)) == WokenSenders(s);
  }

  // ----- whole runs -----

  function Run(s: State, es: seq<Event>): (r: State)
    requires Inv(s)
    decreases |es|
  {
    if es == [] then s else
      StepKeeps(s, es[0]);
      Run(Step(s, es[0]), es[1..])
  }

  /** A new mailbox: empty, with all threads outside. */
  ghost predicate Fresh(s: State) {
    && s.mails == [] && s.receivers == [] && s.senders == [] && s.sent == [] && s.taken == []
    && s.phase.Keys <= s.prio.Keys && forall x :: x in s.phase ==> s.phase[x].Idle?
  }

  lemma FreshKeeps(s: State)
    requires Fresh(s)
    ensures Inv(s)
  {
  }

  lemma {:induction false} RunKeeps(s: State, es: seq<Event>)
    requires Inv(s)
    ensures Inv(Run(s, es)) && Run(s, es).size == s.size
    decreases |es|
  {
    hide Awake, Distinct, Step;
    if es != [] {
      StepKeeps(s, es[0]);
      RunKeeps(Step(s, es[0]), es[1..]);
    }
  }

  /** In every run: mails are handed out in the order in which they were accepted, at most `size` are stored, and a
      waiting receiver is either about to be overtaken by woken ones or facing an empty mailbox, as is a
      waiting sender facing a full one. In particular, once all woken threads have run, nobody waits in vain. */
  lemma NoLostWakeup(s: State, es: seq<Event>)
    requires Fresh(s)
    ensures Inv(s)
    ensures var r := Run(s, es);
      && r.sent == r.taken + r.mails && |r.mails| <= s.size
      && (r.receivers != [] ==> |r.mails| <= |WokenReceivers(r)|)
      && (r.senders != [] ==> s.size - |r.mails| <= |WokenSenders(r)|)
      && (WokenReceivers(r) == {} && WokenSenders(r) == {} ==>
            (r.receivers == [] || r.mails == []) && (r.senders == [] || |r.mails| == s.size))
  {
    RunKeeps(s, es);
  }

  /** A thread waits in at most one queue, once, and only while it is suspended in the matching call. */
  lemma WaitsOnce(s: State, es: seq<Event>, i: nat, j: nat)
    requires Fresh(s) && Inv(s)
    ensures var r := Run(s, es);
      && (i < j < |r.receivers| ==> r.receivers[i] != r.receivers[j])
      && (i < j < |r.senders| ==> r.senders[i] != r.senders[j])
      && (i < |r.receivers| && j < |r.senders| ==> r.receivers[i] != r.senders[j])
  {
    RunKeeps(s, es);
    var r := Run(s, es);
    assert i < |r.receivers| ==> r.receivers[i] in r.receivers;
    assert j < |r.senders| ==> r.senders[j] in r.senders;
  }

  /** A thread that waits again after it was woken in vain keeps the deadline of its call. */
  lemma DeadlineKept(s: State, t: Tid)
    requires Inv(s) && t in s.phase && (s.phase[t].RecvWoken? || s.phase[t].SendWoken?)
    requires s.phase[t].left > 0
    requires RunOn(s, t).phase[t].RecvWait? || RunOn(s, t).phase[t].SendWait?
    ensures var w := RunOn(s, t).phase[t]; w.since + w.left == s.phase[t].since + s.phase[t].left > s.now
  {
  }

  // ----- the mailbox itself -----

  function Wrapped(i: nat, size: nat): nat {
    if i >= size then i - size else i
  }

  /** The `n` mails of a ring from offset `first` on. */
  ghost function Window(pool: seq<Word>, first: nat, n: nat): (m: seq<Word>)
    requires n <= |pool| && (|pool| > 0 ==> first < |pool|)
    ensures |m| == n && forall i :: 0 <= i < n ==> m[i] == pool[Wrapped(first + i, |pool|)]
  {
    seq(n, i requires 0 <= i < n => pool[Wrapped(first + i, |pool|)])
  }

  lemma WindowPut(pool: seq<Word>, first: nat, n: nat, mail: Word)
    requires n < |pool| && first < |pool|
    ensures Window(pool[Wrapped(first + n, |pool|) := mail], first, n + 1) == Window(pool, first, n) + [mail]
  {
  }

  lemma WindowTake(pool: seq<Word>, first: nat, n: nat)
    requires 0 < n <= |pool| && first < |pool|
    ensures Window(pool, Wrapped(first + 1, |pool|), n - 1) == Window(pool, first, n)[1..]
    ensures Wrapped(Wrapped(first + 1, |pool|) + (n - 1), |pool|) == Wrapped(first + n, |pool|)
  {
  }

  /** struct rt_mailbox with the threads that use it. The mails are kept in a ring: `outOffset` is the oldest
      one, `inOffset` the next free slot, `entry` their number. */
  class MailBox {
    const pool: array<Word>
    const policy: Policy
    /** The lists suspend_thread and suspend_sender_thread, and the nodes of the threads. */
    const wait: ListTable<Side>
    var entry: nat
    var inOffset: nat
    var outOffset: nat
    var prio: map<Tid, nat>
    var phase: map<Tid, Phase>
    var result: map<Tid, Result>
    var now: nat
    ghost var sent: seq<Word>
    ghost var taken: seq<Word>

    ghost predicate Offsets()
      reads this, pool
    {
      && entry <= pool.Length
      && (pool.Length > 0 ==> outOffset < pool.Length && inOffset == Wrapped(outOffset + entry, pool.Length))
      && (pool.Length == 0 ==> inOffset == outOffset == 0)
    }

    ghost function View(): State
      requires Offsets()
      reads this, pool, wait
    {
      State(pool.Length, policy, now, Window(pool[..], outOffset, entry), wait.Of(Takers), wait.Of(Givers), prio, phase, result, sent, taken)
    }

    /** The waiting threads are linked in two rings. */
    ghost predicate Linked()
      reads this, pool, wait, wait.Cells()
    {
      wait.Valid() && wait.list.Keys == {Takers, Givers} && phase.Keys <= wait.node.Keys && Offsets() && Known(View())
    }

    ghost predicate Valid()
      reads this, pool, wait, wait.Cells()
    {
      Linked() && Inv(View())
    }

    /** rt_mb_init with `size` slots, used by threads of the given priorities. */
    constructor (size: nat, policy: Policy, prio: map<Tid, nat>)
      ensures Valid() && fresh(pool) && fresh(wait) && fresh(wait.Cells()) && Fresh(View()) && pool.Length == size
      ensures this.policy == policy && this.prio == prio && phase.Keys == prio.Keys
    {
      hide ListTable<Side>.Valid, Inv;
      pool := new Word[size];
      wait := new ListTable({Takers, Givers}, prio.Keys);
      this.policy, this.prio := policy, prio;
      entry, inOffset, outOffset, now := 0, 0, 0, 0;
      phase, result := map t | t in prio :: Idle, map[];
      sent, taken := [], [];
      new;
      FreshKeeps(View());
    }

    /** Resumes the first receiver, if there is one. */
    method ResumeReceiver()
      requires Linked()
      modifies this`phase, wait, wait.Cells()
      ensures Linked() && View() == WakeReceiver(old(View()))
    {
      hide ListTable<Side>.Valid, Window;
      var empty := wait.Empty(Takers);
      if !empty {
        var t := wait.Resume(Takers);
        phase := phase[t := RecvWoken(phase[t].left, phase[t].since)];
      }
    }

    method ResumeSender()
      requires Linked()
      modifies this`phase, wait, wait.Cells()
      ensures Linked() && View() == WakeSender(old(View()))
    {
      hide ListTable<Side>.Valid, Window;
      var empty := wait.Empty(Givers);
      if !empty {
        var t := wait.Resume(Givers);
        phase := phase[t := SendWoken(phase[t].mail, phase[t].left, phase[t].since)];
      }
    }

    /** Stores a mail in a free slot. */
    method StoreMail(mail: Word)
      requires Linked() && entry < pool.Length
      modifies this, pool, wait, wait.Cells()
      ensures Linked() && View() == old(View()).(mails := old(View()).mails + [mail], sent := old(sent) + [mail])
    {
      hide ListTable<Side>.Valid, Window;
      ghost var before := pool[..];
      pool[inOffset] := mail;
      assert pool[..] == before[inOffset := mail];
      WindowPut(before, outOffset, entry, mail);
      inOffset := inOffset + 1;
      if inOffset >= pool.Length { inOffset := 0; }
      entry := entry + 1;
      sent := sent + [mail];
    }

    /** Stores a mail in a free slot and wakes the first receiver. */
    method Store(mail: Word)
      requires Linked() && entry < pool.Length
      modifies this, pool, wait, wait.Cells()
      ensures Linked() && View() == Put(old(View()), mail)
    {
      hide ListTable<Side>.Valid, Window;
      StoreMail(mail);
      ResumeReceiver();
    }

    /** Takes the oldest mail out of its slot. */
    method FetchMail() returns (mail: Word)
      requires Linked() && entry > 0
      modifies this, wait, wait.Cells()
      ensures Linked() && mail == old(View()).mails[0]
      ensures View() == old(View()).(mails := old(View()).mails[1..], taken := old(taken) + [mail])
    {
      hide ListTable<Side>.Valid, Window;
      WindowTake(pool[..], outOffset, entry);
      mail := pool[outOffset];
      outOffset := outOffset + 1;
      if outOffset >= pool.Length { outOffset := 0; }
      entry := entry - 1;
      taken := taken + [mail];
    }

    /** Hands out the oldest mail and wakes the first sender. */
    method Fetch() returns (mail: Word)
      requires Linked() && entry > 0
      modifies this, wait, wait.Cells()
      ensures Linked() && mail == old(View()).mails[0] && View() == Take(old(View()))
    {
      hide ListTable<Side>.Valid, Window;
      mail := FetchMail();
      ResumeSender();
    }

    method ReturnTo(t: Tid, r: Result)
      requires Linked() && t in phase && t !in wait.Of(Takers) && t !in wait.Of(Givers)
      modifies this, wait, wait.Cells()
      ensures Linked() && View() == Return(old(View()), t, r)
    {
      hide ListTable<Side>.Valid, Window;
      phase, result := phase[t := Idle], result[t := r];
    }

    /** rt_ipc_list_suspend, with the rest of the timeout. */
    method WaitFor(t: Tid, side: Side, p: Phase)
      requires Linked() && t in phase && t !in wait.Of(Takers) && t !in wait.Of(Givers) && (if side == Takers then p.RecvWait? else p.SendWait?)
      modifies this`phase, wait, wait.Cells()
      ensures Linked() && phase == old(phase)[t := p]
      ensures wait.list == old(wait.list)[side := Enqueue(policy, prio, old(wait.Of(side)), t)]
    {
      hide ListTable<Side>.Valid, Enqueue, Window;
      assert Unlisted(wait.list, t);
      wait.Suspend(side, t, policy, prio);
      phase := phase[t := p];
    }

    /** rt_mb_send_wait from its loop head to the next point where other threads may run. */
    method SendFrom(t: Tid, mail: Word, left: int)
      requires Linked() && t in phase && t !in wait.Of(Takers) && t !in wait.Of(Givers)
      modifies this, pool, wait, wait.Cells()
      ensures Linked() && View() == SendOn(old(View()), t, mail, left)
    {
      hide ListTable<Side>.Valid, Enqueue, Window;
      if entry == pool.Length {
        if left == 0 {
          ReturnTo(t, EFULL);
        } else {
          WaitFor(t, Givers, SendWait(mail, left, now));
        }
      } else {
        ReturnTo(t, Sent);
        Store(mail);
      }
    }

    /** The same for rt_mb_recv. */
    method RecvFrom(t: Tid, left: int)
      requires Linked() && t in phase && t !in wait.Of(Takers) && t !in wait.Of(Givers)
      modifies this, wait, wait.Cells()
      ensures Linked() && View() == RecvOn(old(View()), t, left)
    {
      hide ListTable<Side>.Valid, Enqueue;
      if entry == 0 {
        if left == 0 {
          ReturnTo(t, ETIMEOUT);
        } else {
          WaitFor(t, Takers, RecvWait(left, now));
        }
      } else {
        ReturnTo(t, Received(pool[outOffset]));
        var mail := Fetch();
      }
    }

    /** rt_mb_recv or rt_mb_send_wait after rt_schedule has returned. */
    method RunAgain(t: Tid)
      requires Linked() && t in phase
      modifies this, pool, wait, wait.Cells()
      ensures Linked() && View() == RunOn(old(View()), t)
    {
      hide ListTable<Side>.Valid, Window, RecvOn, SendOn;
      var p := phase[t];
      if p.RecvWoken? {
        RecvFrom(t, Left(p.left, p.since, now));
      } else if p.SendWoken? {
        SendFrom(t, p.mail, Left(p.left, p.since, now));
      } else if p.Failing? {
        ReturnTo(t, p.error);
      }
    }

    /** rt_thread_timeout. */
    method Expire(t: Tid)
      requires Linked() && t in phase
      modifies this, wait, wait.Cells()
      ensures Linked() && View() == TimeOut(old(View()), t)
    {
      hide ListTable<Side>.Valid, Window;
      var w := phase[t];
      if (w.RecvWait? || w.SendWait?) && 0 < w.left <= now - w.since {
        wait.TakeOut(t);
        phase := phase[t := Failing(ETIMEOUT)];
      }
    }

    /** Wakes all threads of one list, which then fail. */
    method FailAll(side: Side)
      requires Linked()
      modifies this`phase, wait, wait.Cells()
      ensures Linked() && wait.list == old(wait.list)[side := []] && phase == old(SetAll(phase, wait.Of(side), Failing(ERROR)))
    {
      hide ListTable<Side>.Valid, Window, SetAll;
      var woken := wait.ResumeAll(side);
      phase := SetAll(phase, woken, Failing(ERROR));
    }

    method Discard()
      requires Linked()
      modifies this, wait, wait.Cells()
      ensures Linked() && View() == old(View()).(mails := [], sent := [], taken := [])
    {
      hide ListTable<Side>.Valid, Window;
      entry, inOffset, outOffset := 0, 0, 0;
      sent, taken := [], [];
    }

    /** rt_mb_control with RT_IPC_CMD_RESET. */
    method Reset()
      requires Linked()
      modifies this, wait, wait.Cells()
      ensures Linked() && View() == ResetAll(old(View()))
    {
      hide ListTable<Side>.Valid, Window, SetAll;
      FailAll(Takers);
      FailAll(Givers);
      Discard();
    }

    /** Every step of the real mailbox is the step of the bounded FIFO. */
    method Perform(e: Event)
      requires Valid()
      modifies this, pool, wait, wait.Cells()
      ensures Valid() && View() == Step(old(View()), e)
    {
      hide ListTable<Side>.Valid, Window, RecvOn, SendOn, RunOn, Awake, Shape;
      StepKeeps(View(), e);
      match e
      case Recv(t, timeout) => if t in phase && phase[t].Idle? { RecvFrom(t, timeout); }
      case Send(t, mail, timeout) => if t in phase && phase[t].Idle? { SendFrom(t, mail, timeout); }
      case Post(mail) => if entry != pool.Length { Store(mail); }
      case Resume(t) => if t in phase { RunAgain(t); }
      case Expire(t) => if t in phase { Expire(t); }
      case SetPriority(t, p) => prio := prio[t := p];
      case Reset => Reset();
      case Tick => now := now + 1;
    }
  }
}
