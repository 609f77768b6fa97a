/** The lists that hold threads: the ready lists of src/scheduler.c, the lists of waiting threads of src/ipc.c and the list of
    defunct threads. Every thread has one node, `tlist`, which is in one of these rings or on its own. */
module ThreadLists {
  import opened Basics
  import opened RtList
  import opened WaitQueue

  ghost predicate Apart<L>(list: map<L, seq<Tid>>, w: L, v: L)
    requires w in list && v in list
  {
    forall x :: x in list[w] ==> x !in list[v]
  }

  /** A thread is in at most one list, and there once. */
  ghost predicate OneList<L(!new)>(list: map<L, seq<Tid>>) {
    && (forall w :: w in list ==> Distinct(list[w]))
    && (forall w, v :: w in list && v in list && w != v ==> Apart(list, w, v))
  }

  predicate Unlisted<L(==, !new)>(list: map<L, seq<Tid>>, t: Tid) {
    forall w :: w in list ==> t !in list[w]
  }

  /** The thread taken out of whatever list it is in. */
  function OffAll<L(==)>(list: map<L, seq<Tid>>, t: Tid): map<L, seq<Tid>> {
    map w | w in list :: Without(list[w], t)
  }

  lemma NobodyListed<L(!new)>(lists: set<L>)
    ensures OneList(map w | w in lists :: [])
  {
  }

  lemma OffAllOneList<L(!new)>(list: map<L, seq<Tid>>, t: Tid)
    requires OneList(list)
    ensures OneList(OffAll(list, t)) && OffAll(list, t).Keys == list.Keys && Unlisted(OffAll(list, t), t)
  {
    var r := OffAll(list, t);
    forall w | w in r ensures Distinct(r[w]) { WithoutDistinct(list[w], t); }
    forall w, v | w in r && v in r && w != v ensures Apart(r, w, v) { assert Apart(list, w, v); }
  }

  /** Only the list that the thread is in changes. */
  lemma OffAllIs<L(!new)>(list: map<L, seq<Tid>>, t: Tid, w: L)
    requires OneList(list) && w in list && t in list[w]
    ensures OffAll(list, t) == list[w := Without(list[w], t)]
  {
    forall v | v in list && v != w ensures Without(list[v], t) == list[v] {
      assert Apart(list, w, v);
      WithoutAbsent(list[v], t);
    }
  }

  lemma InNoOther<L(!new)>(list: map<L, seq<Tid>>, t: Tid, w: L)
    requires OneList(list) && w in list && t in list[w]
    ensures forall v :: v in list && t in list[v] ==> v == w
  {
    forall v | v in list && t in list[v] ensures v == w { assert v != w ==> Apart(list, w, v); }
  }

  lemma OffAllSame<L(!new)>(list: map<L, seq<Tid>>, t: Tid)
    requires Unlisted(list, t)
    ensures OffAll(list, t) == list
  {
    forall v | v in list ensures Without(list[v], t) == list[v] { WithoutAbsent(list[v], t); }
  }

  /** A thread from outside joins a list, anywhere in it. */
  lemma JoinOneList<L(!new)>(list: map<L, seq<Tid>>, w: L, q: seq<Tid>, t: Tid)
    requires OneList(list) && w in list && Unlisted(list, t) && Distinct(q) && forall x :: x in q <==> x in list[w] || x == t
    ensures OneList(list[w := q])
  {
    var r := list[w := q];
    forall u, v | u in r && v in r && u != v ensures Apart(r, u, v) {
      assert Apart(list, u, v);
    }
  }

  /** Where a thread is: in list `w[0]` at index `k`, or in none. */
  ghost predicate Stands<L(!new)>(list: map<L, seq<Tid>>, t: Tid, w: seq<L>, k: nat) {
    |w| <= 1 && if w == [] then Unlisted(list, t) else w[0] in list && k < |list[w[0]]| && list[w[0]][k] == t
  }

  lemma Find<L(!new)>(list: map<L, seq<Tid>>, t: Tid) returns (w: seq<L>, k: nat)
    ensures Stands(list, t, w, k)
  {
    if v :| v in list && t in list[v] {
      w := [v];
      k :| k < |list[v]| && list[v][k] == t;
    } else {
      w, k := [], 0;
    }
  }

  lemma OffAllAt<L(!new)>(list: map<L, seq<Tid>>, t: Tid, w: seq<L>, k: nat, v: L)
    requires OneList(list) && Stands(list, t, w, k) && v in list
    ensures v in w ==> OffAll(list, t)[v] == Removed(list[v], k)
    ensures v !in w ==> OffAll(list, t)[v] == list[v] && t !in list[v]
  {
    if v in w {
      WithoutAt(list[v], k);
    } else {
      if w != [] { assert Apart(list, w[0], v) && list[w[0]][k] in list[w[0]]; }
      WithoutAbsent(list[v], t);
    }
  }

  lemma OffAllUnlists<L(!new)>(list: map<L, seq<Tid>>, t: Tid, u: Tid)
    requires u != t && Unlisted(OffAll(list, t), u)
    ensures Unlisted(list, u)
  {
    forall v | v in list ensures u !in list[v] { assert u !in OffAll(list, t)[v]; }
  }

  lemma InsertedOnce<L(!new)>(list: map<L, seq<Tid>>, w: L, k: nat, t: Tid)
    requires OneList(list) && w in list && Unlisted(list, t) && k <= |list[w]|
    ensures OneList(list[w := Inserted(list[w], k, t)])
  {
    var q := Inserted(list[w], k, t);
    assert forall i :: 0 <= i < |q| ==> q[i] == if i < k then list[w][i] else if i == k then t else list[w][i - 1];
    JoinOneList(list, w, q, t);
  }

  /** Who is in no list afterwards was in none before, and is not `t`. */
  lemma StillUnlisted<L(!new)>(list: map<L, seq<Tid>>, w: L, k: nat, t: Tid, u: Tid)
    requires w in list && k <= |list[w]| && Unlisted(list[w := Inserted(list[w], k, t)], u)
    ensures u != t && Unlisted(list, u)
  {
    var q := Inserted(list[w], k, t);
    assert list[w := q][w] == q && q[k] in q && q[k] == t;
    forall v | v in list ensures u !in list[v] {
      assert v in list[w := q];
      if v == w { assert forall i :: 0 <= i < |list[w]| ==> list[w][i] == q[if i < k then i else i + 1]; }
    }
  }

  /** A node for every key, each on its own; `back` leads from a node to its key. */
  method NewNodes<K(==, !new)>(keys: set<K>) returns (m: map<K, ListNode>, back: map<ListNode, K>)
    ensures m.Keys == keys && fresh(back.Keys)
    ensures forall k {:trigger m[k]} :: k in m ==> m[k] in back && back[m[k]] == k && Ring(m[k], [])
  {
    m, back := map[], map[];
    var rest := keys;
    while rest != {}
      invariant rest <= keys && m.Keys == keys - rest && fresh(back.Keys)
      invariant forall k {:trigger m[k]} :: k in m ==> m[k] in back && back[m[k]] == k && Ring(m[k], [])
      decreases |rest|
    {
      var k :| k in rest;
      var n := new ListNode();
      m, back, rest := m[k := n], back[n := k], rest - {k};
    }
  }

  /** The lists with the given heads, for threads with the given nodes. */
  class ListTable<L(==, !new)> {
    const head: map<L, ListNode>
    const node: map<Tid, ListNode>
    /** rt_list_entry finds a thread from its node. */
    const entry: map<ListNode, Tid>
    ghost const owner: map<ListNode, L>
    ghost var list: map<L, seq<Tid>>

    /** The threads in list `w`, first to last. */
    ghost function Of(w: L): seq<Tid>
      reads this
    {
      if w in list then list[w] else []
    }

    ghost function Cells(): set<ListNode> {
      head.Values + node.Values
    }

    ghost predicate Known(q: seq<Tid>) {
      forall i :: 0 <= i < |q| ==> q[i] in node
    }

    ghost function Row(q: seq<Tid>): (s: seq<ListNode>)
      requires Known(q)
      ensures |s| == |q| && forall i :: 0 <= i < |s| ==> s[i] == node[q[i]]
    {
      seq(|q|, i requires 0 <= i < |q| => node[q[i]])
    }

    /** All nodes are different. */
    ghost predicate Nodes() {
      && (forall t {:trigger node[t]} :: t in node ==> node[t] in entry && entry[node[t]] == t)
      && (forall w {:trigger head[w]} :: w in head ==> head[w] !in entry && head[w] in owner && owner[head[w]] == w)
    }

    ghost predicate Shape(list: map<L, seq<Tid>>) {
      Nodes() && list.Keys == head.Keys && OneList(list) && forall w :: w in list ==> Known(list[w])
    }

    ghost predicate RingOf(h: ListNode, q: seq<Tid>)
      reads Cells()
    {
      h in Cells() && Known(q) && Ring(h, Row(q))
    }

    ghost predicate Valid()
      reads this, Cells()
    {
      && Shape(list)
      && (forall w :: w in list ==> RingOf(head[w], list[w]))
      && (forall t :: t in node && Unlisted(list, t) ==> RingOf(node[t], []))
    }

    /** Empty lists, and all threads outside. */
    constructor (lists: set<L>, threads: set<Tid>)
      ensures Valid() && list == (map w | w in lists :: []) && head.Keys == lists && node.Keys == threads && fresh(Cells())
    {
      hide Ring, Row, OneList, Unlisted;
      NobodyListed(lists);
      var n, e := NewNodes(threads);
      var h, o := NewNodes(lists);
      head, node, entry, owner := h, n, e, o;
      list := map w | w in lists :: [];
      new;
      assert Row([]) == [];
    }

    // ----- which nodes an operation leaves alone -----

    /** `x` is not the node of `t` and not in the ring that `t` is in. */
    ghost predicate Spared(l: map<L, seq<Tid>>, w: seq<L>, t: Tid, x: ListNode)
      requires Shape(l) && t in node && |w| <= 1 && (w != [] ==> w[0] in l)
    {
      x != node[t] && (w != [] ==> x != head[w[0]] && x !in Row(l[w[0]]))
    }

    lemma OutsideRow(q: seq<Tid>, t: Tid)
      requires Nodes() && Known(q) && t in node && t !in q
      ensures node[t] !in Row(q)
    {
    }

    lemma HeadOutside(w: L, q: seq<Tid>)
      requires Nodes() && Known(q) && w in head
      ensures head[w] !in Row(q)
    {
    }

    lemma Elsewhere(l: map<L, seq<Tid>>, w: seq<L>, t: Tid, v: L)
      requires Shape(l) && t in node && |w| <= 1 && (w != [] ==> w[0] in l) && v in l && v !in w && t !in l[v]
      ensures Spared(l, w, t, head[v]) && forall i :: 0 <= i < |l[v]| ==> Spared(l, w, t, Row(l[v])[i])
    {
      hide Distinct, Row;
      if w != [] {
        assert Apart(l, w[0], v);
        HeadOutside(v, l[w[0]]);
      }
      forall i | 0 <= i < |l[v]| ensures Spared(l, w, t, Row(l[v])[i]) {
        assert l[v][i] in l[v];
        if w != [] { OutsideRow(l[w[0]], l[v][i]); }
      }
    }

    lemma AwayFrom(l: map<L, seq<Tid>>, w: seq<L>, t: Tid, u: Tid)
      requires Shape(l) && t in node && u in node && u != t && Unlisted(l, u) && |w| <= 1 && (w != [] ==> w[0] in l)
      ensures Spared(l, w, t, node[u])
    {
      hide Distinct, Row;
      if w != [] { OutsideRow(l[w[0]], u); }
    }

    // ----- taking a thread out -----

    lemma RowRemoved(q: seq<Tid>, k: nat)
      requires Known(q) && k < |q|
      ensures Known(Removed(q, k)) && Row(Removed(q, k)) == Removed(Row(q), k)
    {
      hide Row;
    }

    /** rt_list_remove of the node of a thread, on the links alone. */
    method Loosen(t: Tid, ghost w: seq<L>, ghost k: nat)
      requires Valid() && t in node && Stands(list, t, w, k)
      modifies Cells()
      ensures RingOf(node[t], []) && (w != [] ==> RingOf(head[w[0]], Removed(list[w[0]], k)))
      ensures forall v :: v in list && v !in w ==> RingOf(head[v], list[v])
      ensures forall u :: u in node && u != t && Unlisted(list, u) ==> RingOf(node[u], [])
    {
      hide Ring, Distinct, OneList, Unlisted, Apart, Row, Removed;
      ghost var h, q := node[t], [];
      if w != [] {
        h, q := head[w[0]], list[w[0]];
        RowRemoved(q, k);
      }
      assert Row([]) == [];
      Unhook(node[t], h, Row(q), k);
      forall v | v in list && v !in w ensures RingOf(head[v], list[v]) {
        OffAllAt(list, t, w, k, v);
        Elsewhere(list, w, t, v);
      }
      forall u | u in node && u != t && Unlisted(list, u) ensures RingOf(node[u], []) {
        AwayFrom(list, w, t, u);
      }
    }

    /** rt_list_remove of the node of a thread: it leaves whatever list it is in. */
    method TakeOut(t: Tid)
      requires Valid() && t in node
      modifies this`list, Cells()
      ensures Valid() && list == OffAll(old(list), t) && Unlisted(list, t)
    {
      hide Ring, Distinct, OneList, Unlisted, Apart, Row, Removed, RingOf, OffAll;
      ghost var w, k := Find(list, t);
      Loosen(t, w, k);
      ghost var l := list;
      list := OffAll(l, t);
      OffAllOneList(l, t);
      forall v | v in l ensures Known(list[v]) && RingOf(head[v], list[v]) {
        OffAllAt(l, t, w, k, v);
        if v in w { RowRemoved(l[v], k); }
      }
      forall u | u in node && Unlisted(list, u) ensures RingOf(node[u], []) {
        if u != t { OffAllUnlists(l, t, u); }
      }
    }

    // ----- putting a thread in -----

    lemma RowInserted(q: seq<Tid>, k: nat, t: Tid)
      requires Known(q) && k <= |q| && t in node
      ensures Known(Inserted(q, k, t)) && Row(Inserted(q, k, t)) == Inserted(Row(q), k, node[t])
    {
      hide Row;
    }

    /** rt_list_insert_before, or rt_list_insert_after the head, on the links alone. */
    method Tie(t: Tid, at: ListNode, after: bool, ghost w: L, ghost k: nat)
      requires Valid() && t in node && Unlisted(list, t) && w in list && k <= |list[w]|
      requires at == At(head[w], Row(list[w]), if after then k - 1 else k)
      modifies Cells()
      ensures RingOf(head[w], Inserted(list[w], k, t))
      ensures forall v :: v in list && v != w ==> RingOf(head[v], list[v])
      ensures forall u :: u in node && u != t && Unlisted(list, u) ==> RingOf(node[u], [])
    {
      hide Ring, Distinct, OneList, Apart, Row, Inserted;
      ghost var q := list[w];
      RowInserted(q, k, t);
      OutsideRow(q, t);
      assert RingOf(head[w], q);
      Hook(at, node[t], after, head[w], Row(q), k);
      forall v | v in list && v != w ensures RingOf(head[v], list[v]) {
        Elsewhere(list, [w], t, v);
      }
      forall u | u in node && u != t && Unlisted(list, u) ensures RingOf(node[u], []) {
        AwayFrom(list, [w], t, u);
      }
    }

    /** The table once `t` has joined list `w` at index `k`. */
    method Insert(t: Tid, at: ListNode, after: bool, ghost w: L, ghost k: nat)
      requires Valid() && t in node && Unlisted(list, t) && w in list && k <= |list[w]|
      requires at == At(head[w], Row(list[w]), if after then k - 1 else k)
      modifies this`list, Cells()
      ensures Valid() && list == old(list)[w := Inserted(old(list)[w], k, t)]
    {
      hide Ring, Distinct, OneList, Unlisted, Apart, Row, Inserted, RingOf, At;
      Tie(t, at, after, w, k);
      ghost var l, q := list, Inserted(list[w], k, t);
      list := l[w := q];
      RowInserted(l[w], k, t);
      InsertedOnce(l, w, k, t);
      forall u | u in node && Unlisted(list, u) ensures RingOf(node[u], []) {
        StillUnlisted(l, w, k, t, u);
      }
    }

    /** The neighbours of a head are in the ring of that head. */
    lemma Ends(w: L)
      requires Valid() && w in list
      ensures head[w] in Cells() && head[w].prev in Cells() && head[w].next in Cells()
      ensures head[w].prev == head[w] || head[w].prev in Row(list[w])
      ensures head[w].next == head[w] || head[w].next in Row(list[w])
    {
      hide OneList, Distinct, Unlisted;
      assert RingOf(head[w], list[w]);
      var q := list[w];
      if q != [] { assert Row(q)[|q| - 1] == node[q[|q| - 1]] && Row(q)[0] == node[q[0]]; }
    }

    /** The node of a listed thread is in one ring, and the rings of other heads have no node in common with it. */
    lemma RingsApart(w: L, v: L, t: Tid)
      requires Valid() && w in list && v in list && t in list[v]
      ensures node[t] != head[v] && node[t] in Row(list[v])
      ensures w != v ==> head[w] != head[v] && head[w] !in Row(list[v])
      ensures w != v ==> forall x :: x in Row(list[w]) ==> x != head[v] && x !in Row(list[v])
    {
      hide OneList, Distinct, Unlisted, Ring;
      HeadOutside(v, list[v]);
      HeadOutside(w, list[v]);
      HeadOutside(v, list[w]);
      assert exists i :: 0 <= i < |list[v]| && list[v][i] == t && Row(list[v])[i] == node[t];
      if w != v {
        LoneList(w, v);
        forall x | x in Row(list[w]) ensures x !in Row(list[v]) {
          var i :| 0 <= i < |list[w]| && Row(list[w])[i] == x;
          assert list[w][i] in list[w];
          OutsideRow(list[v], list[w][i]);
        }
      }
    }

    lemma LoneList(w: L, v: L)
      requires OneList(list) && w in list && v in list && w != v
      ensures Apart(list, w, v)
    {
    }

    /** rt_list_insert_before or rt_list_insert_after a head, on the links alone: the node becomes the last or the first one. If the
        thread is in a list already, no ring is left of that one. */
    method TieToHead(t: Tid, w: L, first: bool)
      requires Valid() && t in node && w in list
      modifies Cells()
      ensures Unlisted(list, t) ==> RingOf(head[w], Inserted(list[w], if first then 0 else |list[w]|, t))
      ensures Unlisted(list, t) ==> forall v :: v in list && v != w ==> RingOf(head[v], list[v])
      ensures Unlisted(list, t) ==> forall u :: u in node && u != t && Unlisted(list, u) ==> RingOf(node[u], [])
      ensures forall v :: v in list && t in list[v] ==> forall r :: !Ring(head[v], r)
    {
      hide Ring, Distinct, OneList, Apart, Row, Inserted;
      ghost var v, i := Find(list, t);
      ghost var o := if v == [] then w else v[0];
      ghost var q := list[o];
      ghost var k := if first then 0 else |q|;
      assert RingOf(head[o], q);
      if v == [] {
        RowInserted(q, k, t);
        OutsideRow(q, t);
      } else {
        assert t in q;
        RingsApart(w, o, t);
        InNoOther(list, t, o);
      }
      Ends(w);
      if first {
        InsertAfter(head[w], node[t], head[o], Row(q), k);
      } else {
        InsertBefore(head[w], node[t], head[o], Row(q), k);
      }
      if v == [] {
        forall v | v in list && v != w ensures RingOf(head[v], list[v]) {
          Elsewhere(list, [w], t, v);
        }
        forall u | u in node && u != t && Unlisted(list, u) ensures RingOf(node[u], []) {
          AwayFrom(list, [w], t, u);
        }
      }
    }

    /** The same. If the thread was in a list already, no ring is left of that one, whatever sequence of nodes one takes. */
    method AddAtEnd(t: Tid, w: L, first: bool)
      requires Valid() && t in node && w in list
      modifies this`list, Cells()
      ensures Unlisted(old(list), t) ==> Valid() && list == old(list)[w := if first then [t] + old(list)[w] else old(list)[w] + [t]]
      ensures forall v :: v in old(list) && t in old(list)[v] ==> forall r :: !Ring(head[v], r)
    {
      hide Ring, Distinct, OneList, Unlisted, Row, RingOf;
      ghost var l, k := list, if first then 0 else |list[w]|;
      assert Inserted(l[w], k, t) == if first then [t] + l[w] else l[w] + [t];
      TieToHead(t, w, first);
      list := l[w := Inserted(l[w], k, t)];
      if Unlisted(l, t) {
        RowInserted(l[w], k, t);
        InsertedOnce(l, w, k, t);
        forall u | u in node && Unlisted(list, u) ensures RingOf(node[u], []) {
          StillUnlisted(l, w, k, t, u);
        }
      }
    }

    /** rt_list_insert_before the head. */
    method Append(t: Tid, w: L)
      requires Valid() && t in node && w in list
      modifies this`list, Cells()
      ensures Unlisted(old(list), t) ==> Valid() && list == old(list)[w := old(list)[w] + [t]]
      ensures forall v :: v in old(list) && t in old(list)[v] ==> forall r :: !Ring(head[v], r)
    {
      hide *;
      AddAtEnd(t, w, false);
    }

    /** rt_list_insert_after the head. */
    method Push(t: Tid, w: L)
      requires Valid() && t in node && w in list
      modifies this`list, Cells()
      ensures Unlisted(old(list), t) ==> Valid() && list == old(list)[w := [t] + old(list)[w]]
      ensures forall v :: v in old(list) && t in old(list)[v] ==> forall r :: !Ring(head[v], r)
    {
      hide *;
      AddAtEnd(t, w, true);
    }

    /** rt_list_isempty. */
    method Empty(w: L) returns (empty: bool)
      requires Valid() && w in list
      ensures empty <==> list[w] == []
    {
      hide Ring, Row;
      assert RingOf(head[w], list[w]);
      empty := IsEmpty(head[w], Row(list[w]));
    }

    /** The test of rt_thread_yield: `next` and `prev` of the node are the same exactly if no other thread is in its list. */
    method Alone(t: Tid) returns (alone: bool)
      requires Valid() && t in node
      ensures alone <==> forall w :: w in list && t in list[w] ==> |list[w]| == 1
    {
      hide Distinct, OneList, Apart;
      ghost var w, k := Find(list, t);
      if w != [] {
        InNoOther(list, t, w[0]);
        assert RingOf(head[w[0]], list[w[0]]) && Row(list[w[0]])[k] == node[t];
        hide Ring;
        AloneIff(head[w[0]], Row(list[w[0]]), k);
      } else {
        assert RingOf(node[t], []);
      }
      alone := node[t].next == node[t].prev;
    }

    /** The thread whose node comes first. */
    method First(w: L) returns (t: Tid)
      requires Valid() && w in list && list[w] != []
      ensures t == list[w][0]
    {
      hide Distinct, OneList;
      assert RingOf(head[w], list[w]);
      t := entry[head[w].next];
    }

    /** `next` leads from one place of a list to the following one, and only the head is no thread's node. */
    lemma Along(w: L, k: nat)
      requires Valid() && w in list && k <= |list[w]|
      ensures w in head && Known(list[w]) && At(head[w], Row(list[w]), k - 1).next == At(head[w], Row(list[w]), k)
      ensures (k < |list[w]| ==> node[list[w][k]] != head[w]) && (k > 0 ==> node[list[w][k - 1]] in entry && entry[node[list[w][k - 1]]] == list[w][k - 1])
    {
      hide Distinct, OneList;
      var q := list[w];
      assert RingOf(head[w], q);
      assert k > 0 ==> Row(q)[k - 1].next == At(head[w], Row(q), k);
      assert k < |q| ==> Row(q)[k] in Row(q);
    }

    // ----- waiting -----

    /** The scan of rt_ipc_list_suspend for the place of a thread of priority `p`; the head when it goes to the end. */
    method Scan(w: L, prio: map<Tid, nat>, p: nat) returns (at: ListNode, ghost k: nat)
      requires Valid() && w in list && forall x :: x in list[w] ==> x in prio
      ensures k <= |list[w]| && at == At(head[w], Row(list[w]), k)
      ensures (forall i :: 0 <= i < k ==> prio[list[w][i]] <= p) && (k < |list[w]| ==> p < prio[list[w][k]])
    {
      hide Ring, Distinct, OneList, Row, RingOf;
      ghost var q := list[w];
      Along(w, 0);
      at, k := head[w].next, 0;
      while at != head[w]
        invariant Valid() && k <= |q| && at == At(head[w], Row(q), k)
        invariant forall i :: 0 <= i < k ==> prio[q[i]] <= p
        decreases |q| - k
      {
        assert q[k] in q && at == Row(q)[k];
        Along(w, k + 1);
        if p < prio[entry[at]] { break; }
        at := at.next;
        k := k + 1;
      }
    }

    /** rt_ipc_list_suspend, once the thread has left the ready list. */
    method Suspend(w: L, t: Tid, policy: Policy, prio: map<Tid, nat>)
      requires Valid() && w in list && t in node && Unlisted(list, t) && t in prio && forall x :: x in list[w] ==> x in prio
      modifies this`list, Cells()
      ensures Valid() && list == old(list)[w := Enqueue(policy, prio, old(list)[w], t)]
    {
      hide Ring, Distinct, OneList, Unlisted, Row, RingOf;
      var at := head[w];
      ghost var k := |list[w]|;
      if policy == Prio {
        at, k := Scan(w, prio, prio[t]);
      }
      EnqueueAt(policy, prio, list[w], t, k);
      Insert(t, at, false, w, k);
    }

    /** rt_ipc_list_resume: takes the first thread out of a list that is not empty. */
    method Resume(w: L) returns (t: Tid)
      requires Valid() && w in list && list[w] != []
      modifies this`list, Cells()
      ensures Valid() && t == old(list)[w][0] && list == old(list)[w := old(list)[w][1..]] && Unlisted(list, t)
    {
      OffAllOneList(list, list[w][0]);
      t := First(w);
      OffAllIs(list, t, w);
      WithoutHead(list[w]);
      TakeOut(t);
    }

    /** rt_ipc_list_resume_all: wakes every thread, from the front. */
    method ResumeAll(w: L) returns (woken: seq<Tid>)
      requires Valid() && w in list
      modifies this`list, Cells()
      ensures Valid() && woken == old(list)[w] && list == old(list)[w := []]
    {
      hide ListTable.Valid;
      woken := [];
      var empty := Empty(w);
      while !empty
        invariant Valid() && w in list && (empty <==> list[w] == [])
        invariant old(list)[w] == woken + list[w] && list == old(list)[w := list[w]]
        decreases |list[w]|
      {
        var t := Resume(w);
        woken := woken + [t];
        empty := Empty(w);
      }
    }
  }
}
