/** The circular doubly linked list of include/rtservice.h. Every kernel queue is such a ring around a head
    node. The other modules write a queue as the sequence of its members; this one proves, on the
    links, that the list operations are the sequence operations used there. */
module RtList {

  class ListNode {
    var next: ListNode
    var prev: ListNode

    /** rt_list_init: a node on its own points to itself both ways. */
    constructor ()
      ensures Ring(this, [])
    {
      next, prev := this, this;
    }
  }

  /** Starting at `head`, `next` visits exactly the nodes of `s` in order and comes back, and `prev` is its inverse. */
  ghost predicate Ring(head: ListNode, s: seq<ListNode>)
    reads head, s
  {
    && head !in s && (forall j, k :: 0 <= j < k < |s| ==> s[j] != s[k])
    && head.next == At(head, s, 0) && head.prev == At(head, s, |s| - 1)
    && (forall k {:trigger s[k].next} :: 0 <= k < |s| ==> s[k].next == At(head, s, k + 1))
    && (forall k {:trigger s[k].prev} :: 0 <= k < |s| ==> s[k].prev == At(head, s, k - 1))
  }

  /** The member at index `k`, or the head just before the first and just after the last. */
  ghost function At(head: ListNode, s: seq<ListNode>, k: int): ListNode
    requires -1 <= k <= |s|
  {
    if 0 <= k < |s| then s[k] else head
  }

  ghost function Inserted<T>(s: seq<T>, k: nat, x: T): (r: seq<T>)
    requires k <= |s|
    ensures |r| == |s| + 1 && r[k] == x
    ensures (forall j :: 0 <= j < k ==> r[j] == s[j]) && (forall j :: k < j < |r| ==> r[j] == s[j - 1])
  {
    s[..k] + [x] + s[k..]
  }

  ghost function Removed<T>(s: seq<T>, k: nat): (r: seq<T>)
    requires k < |s|
    ensures |r| == |s| - 1
    ensures (forall j :: 0 <= j < k ==> r[j] == s[j]) && (forall j :: k <= j < |r| ==> r[j] == s[j + 1])
  {
    s[..k] + s[k + 1..]
  }

  /** From `head` the links lead along `t`, and not back yet. */
  ghost predicate Leads(head: ListNode, t: seq<ListNode>)
    reads head, t
  {
    && t != [] && head !in t && head.next == t[0]
    && (forall k {:trigger t[k].next} :: 0 <= k && k + 1 < |t| ==> t[k].next == t[k + 1])
  }

  /** A ring begins with every path from its head. */
  lemma {:induction false} RingFollows(head: ListNode, s: seq<ListNode>, t: seq<ListNode>)
    requires Ring(head, s) && Leads(head, t)
    ensures |t| <= |s| && t == s[..|t|]
    decreases |t|
  {
    if |t| > 1 {
      var n := |t| - 1;
      var b := t[..n];
      assert b[0] == t[0];
      RingFollows(head, s, b);
      assert b[n - 1] == s[n - 1] && t[n - 1].next == t[n];
      assert s[n - 1].next == At(head, s, n);
      assert t == b + [t[n]];
    }
  }

  /** A path that comes back to a node other than the head is part of no ring. */
  lemma NoRingRound(head: ListNode, t: seq<ListNode>, i: nat, s: seq<ListNode>)
    requires Leads(head, t) && i < |t| - 1 && t[i] == t[|t| - 1]
    ensures !Ring(head, s)
  {
    if Ring(head, s) { RingFollows(head, s, t); }
  }

  /** The last node of a path from the head of a ring leads back the way it came. */
  lemma RingBack(head: ListNode, s: seq<ListNode>, t: seq<ListNode>)
    requires Ring(head, s) && Leads(head, t)
    ensures t[|t| - 1].prev == At(head, t, |t| - 2)
  {
    RingFollows(head, s, t);
    assert s[|t| - 1].prev == At(head, s, |t| - 2);
  }

  /** The path to the member at `i` after it has been inserted at `k` once more. */
  ghost function Detour(s: seq<ListNode>, k: nat, i: nat): seq<ListNode>
    requires k <= |s| && i < |s|
  {
    if k < i then s[..k] + [s[i]] + s[k..i + 1] else s[..i + 1]
  }

  /** The links up to the member `n` at `i`, when that has been linked in at `k` once more. */
  ghost predicate Detoured(head: ListNode, s: seq<ListNode>, k: nat, i: nat)
    requires k <= |s| && i < |s|
    reads head, s
  {
    && head !in s && head.next == (if k == 0 then s[i] else s[0])
    && (forall j {:trigger s[j].next} :: 0 <= j < i && j != k - 1 ==> s[j].next == s[j + 1])
    && (k <= i && k > 0 ==> s[k - 1].next == s[i])
    && (k < i ==> s[i].next == s[k])
  }

  lemma DetourLeads(head: ListNode, s: seq<ListNode>, k: nat, i: nat)
    requires k <= |s| && i < |s| && Detoured(head, s, k, i)
    ensures Leads(head, Detour(s, k, i))
  {
    var t := Detour(s, k, i);
    assert k < i ==> forall j :: 0 <= j < |t| ==> t[j] == if j < k then s[j] else if j == k then s[i] else s[j - 1];
  }

  /** A member that is linked in again earlier makes a circle without the head, at its own place it leads to itself, and later or
      elsewhere it does not lead back to the node before it. */
  lemma NoRingLeft(head: ListNode, s: seq<ListNode>, k: nat, i: nat)
    requires k <= |s| && i < |s| && Detoured(head, s, k, i)
    requires (k == i ==> s[i].next == s[i]) && (i < k ==> s[i].prev != At(head, s, i - 1))
    ensures forall r :: !Ring(head, r)
  {
    DetourLeads(head, s, k, i);
    var t := Detour(s, k, i);
    forall r ensures !Ring(head, r) {
      if k < i {
        assert t[k] == s[i] && t[|t| - 1] == s[i];
        NoRingRound(head, t, k, r);
      } else if k == i {
        NoRingRound(head, t + [s[i]], i, r);
      } else if Ring(head, r) {
        RingBack(head, r, t);
      }
    }
  }

  /** The links of a ring once `n` has been linked in at `k`. */
  ghost predicate Joined(head: ListNode, s: seq<ListNode>, k: nat, n: ListNode)
    requires k <= |s|
    reads head, s, n
  {
    && n.next == At(head, s, k) && n.prev == At(head, s, k - 1)
    && head.next == (if k == 0 then n else At(head, s, 0)) && head.prev == (if k == |s| then n else At(head, s, |s| - 1))
    && (forall j {:trigger s[j].next} :: 0 <= j < |s| ==> s[j].next == if j == k - 1 then n else At(head, s, j + 1))
    && (forall j {:trigger s[j].prev} :: 0 <= j < |s| ==> s[j].prev == if j == k then n else At(head, s, j - 1))
  }

  lemma JoinedIsRing(head: ListNode, s: seq<ListNode>, k: nat, n: ListNode)
    requires k <= |s| && head !in s && (forall i, j :: 0 <= i < j < |s| ==> s[i] != s[j]) && n != head && n !in s
    requires Joined(head, s, k, n)
    ensures Ring(head, Inserted(s, k, n))
  {
    assert head !in Inserted(s, k, n);
  }

  /** Links a node in behind `l`. If it is not in the ring, it is in that place then. If it is in the ring already, there is no ring
      around the head any more; `l` may also belong to another ring than that one. */
  method InsertAfter(l: ListNode, n: ListNode, ghost head: ListNode, ghost s: seq<ListNode>, ghost k: nat)
    requires Ring(head, s) && k <= |s| && n != head
    requires l == At(head, s, k - 1) || (n in s && l != head && l !in s && l.next != head && l.next !in s)
    modifies l, l.next, n
    ensures n !in s ==> Ring(head, Inserted(s, k, n))
    ensures n in s ==> forall r :: !Ring(head, r)
    ensures n.prev == l && l.next == n && n.next == if l == n then n else old(l.next)
  {
    ghost var elsewhere := l != head && l !in s;
    l.next.prev := n;
    n.next := l.next;
    l.next := n;
    n.prev := l;
    if n !in s {
      JoinedIsRing(head, s, k, n);
    } else {
      ghost var i :| 0 <= i < |s| && s[i] == n;
      NoRingLeft(head, s, if elsewhere then |s| else k, i);
    }
  }

  /** Links a node in before `l`, likewise. */
  method InsertBefore(l: ListNode, n: ListNode, ghost head: ListNode, ghost s: seq<ListNode>, ghost k: nat)
    requires Ring(head, s) && k <= |s| && n != head
    requires l == At(head, s, k) || (n in s && l != head && l !in s && l.prev != head && l.prev !in s)
    modifies l, l.prev, n
    ensures n !in s ==> Ring(head, Inserted(s, k, n))
    ensures n in s ==> forall r :: !Ring(head, r)
    ensures n.next == l && l.prev == n && n.prev == if l == n then n else old(l.prev)
  {
    ghost var elsewhere := l != head && l !in s;
    l.prev.next := n;
    n.prev := l.prev;
    l.prev := n;
    n.next := l;
    if n !in s {
      JoinedIsRing(head, s, k, n);
    } else {
      ghost var i :| 0 <= i < |s| && s[i] == n;
      NoRingLeft(head, s, if elsewhere then |s| else k, i);
    }
  }

  /** Takes a member out and leaves it as a ring of its own. The node may also be in no list, which is said by an index that no
      member has. */
  method Remove(n: ListNode, ghost head: ListNode, ghost s: seq<ListNode>, ghost k: nat)
    requires if k < |s| then Ring(head, s) && n == s[k] else Ring(n, [])
    modifies n, n.next, n.prev
    ensures Ring(n, []) && (k < |s| ==> Ring(head, Removed(s, k)))
  {
    n.next.prev := n.prev;
    n.prev.next := n.next;
    n.next, n.prev := n, n;
    if k < |s| {
      assert head !in Removed(s, k);
    }
  }

  /** Removing a node that is in no list changes nothing, so a timer or thread may be removed twice. */
  method RemoveAgain(n: ListNode)
    requires Ring(n, [])
    modifies n
    ensures n.next == old(n.next) && n.prev == old(n.prev)
  {
    n.next.prev := n.prev;
    n.prev.next := n.next;
    n.next, n.prev := n, n;
  }

  /** The same; it changes nothing but the node and the ring it is in. */
  method Unhook(n: ListNode, ghost head: ListNode, ghost s: seq<ListNode>, ghost k: nat)
    requires if k < |s| then Ring(head, s) && n == s[k] else Ring(n, [])
    modifies n, head, s
    ensures Ring(n, []) && (k < |s| ==> Ring(head, Removed(s, k)))
  {
    Remove(n, head, s, k);
  }

  /** Either insertion, told apart by `after`; it changes nothing but the ring and the node. */
  method Hook(l: ListNode, n: ListNode, after: bool, ghost head: ListNode, ghost s: seq<ListNode>, ghost k: nat)
    requires Ring(head, s) && k <= |s| && l == At(head, s, if after then k - 1 else k) && n != head && n !in s
    modifies head, s, n
    ensures Ring(head, Inserted(s, k, n))
  {
    if after {
      InsertAfter(l, n, head, s, k);
    } else {
      InsertBefore(l, n, head, s, k);
    }
  }

  method IsEmpty(l: ListNode, ghost s: seq<ListNode>) returns (empty: bool)
    requires Ring(l, s)
    ensures empty <==> s == []
  {
    empty := l.next == l;
  }

  method Len(l: ListNode, ghost s: seq<ListNode>) returns (len: nat)
    requires Ring(l, s)
    ensures len == |s|
  {
    len := 0;
    var p := l;
    while p.next != l
      invariant len <= |s| && p == At(l, s, len - 1)
      decreases |s| - len
    {
      p := p.next;
      len := len + 1;
    }
  }

  /** The links determine the members and their order. */
  lemma {:induction false} RingIsUnique(head: ListNode, s: seq<ListNode>, t: seq<ListNode>, n: nat)
    requires Ring(head, s) && Ring(head, t) && n <= |s|
    ensures n <= |t| && s[..n] == t[..n]
    ensures n == |s| ==> s == t
  {
    if n > 0 {
      RingIsUnique(head, s, t, n - 1);
      assert s[n - 1] == At(head, s, n - 2).next;
      assert At(head, s, n - 2) == At(head, t, n - 2) by {
        if n >= 2 { assert s[..n - 1][n - 2] == t[..n - 1][n - 2]; }
      }
      assert s[..n] == s[..n - 1] + [s[n - 1]];
    }
    if n == |s| {
      assert At(head, s, n - 1) == At(head, t, n - 1) by {
        if n >= 1 { assert s[..n][n - 1] == t[..n][n - 1]; }
      }
    }
  }

  /** The neighbours of a member are the same node exactly if it is the only one. */
  lemma AloneIff(head: ListNode, s: seq<ListNode>, k: nat)
    requires Ring(head, s) && k < |s|
    ensures s[k].next == s[k].prev <==> |s| == 1
  {
    if |s| > 1 { assert At(head, s, k + 1) != At(head, s, k - 1); }
  }

  /** Remove followed by insert before the head, as when a thread yields: the member goes to the end. */
  method MoveToEnd(n: ListNode, head: ListNode, ghost s: seq<ListNode>, ghost k: nat)
    requires Ring(head, s) && k < |s| && n == s[k]
    modifies head, s
    ensures Ring(head, Removed(s, k) + [n])
  {
    Remove(n, head, s, k);
    ghost var r := Removed(s, k);
    assert forall j :: 0 <= j < |r| ==> r[j] != n;
    InsertBefore(head, n, head, r, |r|);
    assert Inserted(r, |r|, n) == r + [n];
  }

  /** Moving a member from one ring to the end of another one with other nodes. */
  method Transfer(n: ListNode, ghost from: ListNode, ghost s: seq<ListNode>, ghost k: nat, to: ListNode, ghost t: seq<ListNode>)
    requires Ring(from, s) && k < |s| && n == s[k] && Ring(to, t)
    requires from != to && from !in t && to !in s && forall j {:trigger t[j]} :: 0 <= j < |t| ==> t[j] !in s
    modifies from, s, to, t
    ensures Ring(from, Removed(s, k)) && Ring(to, t + [n])
  {
    Remove(n, from, s, k);
    assert Ring(to, t);
    assert n !in t;
    InsertBefore(to, n, to, t, |t|);
    assert Inserted(t, |t|, n) == t + [n];
  }
}
