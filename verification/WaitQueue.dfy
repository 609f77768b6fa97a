/** The queue of threads that wait for an IPC object (src/ipc.c), and its order. */
module WaitQueue {
  import opened Basics

  type Tid = nat

  /** RT_IPC_FLAG_FIFO and RT_IPC_FLAG_PRIO. A smaller number is a more urgent priority. */
  datatype Policy = Fifo | Prio

  /** The lists of waiting threads that an object has: for those that take something out of it, and for those that put
      something in. */
  datatype Side = Takers | Givers

  /** Where rt_ipc_list_suspend puts `t`: at the end, or in front of the first less urgent thread. */
  function Enqueue(policy: Policy, prio: map<Tid, nat>, q: seq<Tid>, t: Tid): (r: seq<Tid>)
    requires t in prio && forall x :: x in q ==> x in prio
    ensures |r| == |q| + 1 && forall x :: x in r <==> x in q || x == t
  {
    if q == [] || (policy == Prio && prio[t] < prio[q[0]]) then [t] + q
    else [q[0]] + Enqueue(policy, prio, q[1..], t)
  }

  /** Every thread of `q` gets the phase `p`. */
  function SetAll<P>(phase: map<Tid, P>, q: seq<Tid>, p: P): (r: map<Tid, P>)
    ensures r.Keys == phase.Keys + set x | x in q
    ensures forall x :: x in r ==> r[x] == if x in q then p else phase[x]
    decreases |q|
  {
    if q == [] then phase else SetAll(phase[q[0] := p], q[1..], p)
  }

  /** The timeout that is left when a thread runs again at `now` that was suspended at `since`. */
  function Left(left: int, since: nat, now: nat): int {
    if left <= 0 then left else if left - (now - since) < 0 then 0 else left - (now - since)
  }

  lemma {:induction false} EnqueueDistinct(policy: Policy, prio: map<Tid, nat>, q: seq<Tid>, t: Tid)
    requires t in prio && t !in q && forall x :: x in q ==> x in prio
    requires Distinct(q)
    ensures Distinct(Enqueue(policy, prio, q, t))
  {
    if q == [] || (policy == Prio && prio[t] < prio[q[0]]) {
      DistinctCons(t, q);
    } else {
      EnqueueDistinct(policy, prio, q[1..], t);
      DistinctCons(q[0], Enqueue(policy, prio, q[1..], t));
    }
  }

  /** Enqueueing once the scan has found the place. */
  lemma {:induction false} EnqueueAt(policy: Policy, prio: map<Tid, nat>, q: seq<Tid>, t: Tid, k: nat)
    requires t in prio && (forall x :: x in q ==> x in prio) && k <= |q|
    requires policy == Fifo ==> k == |q|
    requires policy == Prio ==> (forall i :: 0 <= i < k ==> prio[q[i]] <= prio[t]) && (k < |q| ==> prio[t] < prio[q[k]])
    ensures Enqueue(policy, prio, q, t) == q[..k] + [t] + q[k..]
  {
    if k > 0 {
      EnqueueAt(policy, prio, q[1..], t, k - 1);
      assert q[..k] == [q[0]] + q[1..][..k - 1] && q[k..] == q[1..][k - 1..];
    }
  }

  // ----- the order in which threads are woken -----

  /** `a` is served before `b`: by arrival, or by priority and then arrival. */
  ghost predicate Before(policy: Policy, prio: map<Tid, nat>, arrival: map<Tid, nat>, a: Tid, b: Tid)
    requires a in prio && b in prio && a in arrival && b in arrival
  {
    if policy == Prio && prio[a] != prio[b] then prio[a] < prio[b] else arrival[a] < arrival[b]
  }

  ghost predicate InOrder(policy: Policy, prio: map<Tid, nat>, arrival: map<Tid, nat>, q: seq<Tid>) {
    && (forall x :: x in q ==> x in prio && x in arrival)
    && (forall i, j :: 0 <= i < j < |q| ==> Before(policy, prio, arrival, q[i], q[j]))
  }

  lemma OrderCons(policy: Policy, prio: map<Tid, nat>, arrival: map<Tid, nat>, x: Tid, q: seq<Tid>)
    requires InOrder(policy, prio, arrival, q) && x in prio && x in arrival
    requires forall y :: y in q ==> Before(policy, prio, arrival, x, y)
    ensures InOrder(policy, prio, arrival, [x] + q)
  {
    var r := [x] + q;
    forall i, j | 0 <= i < j < |r| ensures Before(policy, prio, arrival, r[i], r[j]) {
      assert r[j] == q[j - 1];
    }
  }

  /** A queue in serving order stays so when the latest arrival joins it. */
  lemma {:induction false} EnqueueKeepsOrder(policy: Policy, prio: map<Tid, nat>, arrival: map<Tid, nat>, q: seq<Tid>, t: Tid)
    requires InOrder(policy, prio, arrival, q) && t in prio && t in arrival
    requires forall x :: x in q ==> arrival[x] < arrival[t]
    ensures InOrder(policy, prio, arrival, Enqueue(policy, prio, q, t))
  {
    if q == [] || (policy == Prio && prio[t] < prio[q[0]]) {
      forall y | y in q ensures Before(policy, prio, arrival, t, y) {
        if y != q[0] { HeadIsFirst(policy, prio, arrival, q, y); }
      }
      OrderCons(policy, prio, arrival, t, q);
    } else {
      EnqueueKeepsOrder(policy, prio, arrival, q[1..], t);
      forall y | y in q[1..] ensures Before(policy, prio, arrival, q[0], y) {
        var i :| 0 <= i < |q[1..]| && q[1..][i] == y;
        assert Before(policy, prio, arrival, q[0], q[i + 1]);
      }
      OrderCons(policy, prio, arrival, q[0], Enqueue(policy, prio, q[1..], t));
    }
  }

  lemma {:induction false} LeaveKeepsOrder(policy: Policy, prio: map<Tid, nat>, arrival: map<Tid, nat>, q: seq<Tid>, t: Tid)
    requires InOrder(policy, prio, arrival, q)
    ensures InOrder(policy, prio, arrival, Without(q, t))
  {
    if q != [] {
      LeaveKeepsOrder(policy, prio, arrival, q[1..], t);
      var rest := Without(q[1..], t);
      forall j | 0 <= j < |rest| ensures Before(policy, prio, arrival, q[0], rest[j]) {
        assert rest[j] in q[1..];
        var i :| 0 < i < |q| && q[i] == rest[j];
      }
    }
  }

  /** The thread that is woken first is the most urgent one, and of those the one that has waited longest. */
  lemma HeadIsFirst(policy: Policy, prio: map<Tid, nat>, arrival: map<Tid, nat>, q: seq<Tid>, t: Tid)
    requires InOrder(policy, prio, arrival, q) && t in q && t != q[0]
    ensures Before(policy, prio, arrival, q[0], t)
  {
    var i :| 0 <= i < |q| && q[i] == t;
  }
}
