/** Circular doubly linked lists whose nodes are addresses and whose links are stored per field: the block list
    and the free list of src/memheap.c. */
module Cycle {
  import opened Basics

  type Addr = int

  ghost function Succ(c: seq<Addr>, i: nat): Addr
    requires i < |c|
  {
    if i + 1 < |c| then c[i + 1] else c[0]
  }

  ghost function Pred(c: seq<Addr>, i: nat): Addr
    requires i < |c|
  {
    if i > 0 then c[i - 1] else c[|c| - 1]
  }

  /** Stated through this predicate so that only the pairs a proof names are looked at. */
  ghost predicate Differ(c: seq<Addr>, i: nat, j: nat)
    requires i < |c| && j < |c|
  {
    c[i] != c[j]
  }

  ghost predicate AllDiffer(c: seq<Addr>) {
    forall i, j :: 0 <= i < j < |c| ==> Differ(c, i, j)
  }

  lemma Pairwise(c: seq<Addr>)
    requires AllDiffer(c)
    ensures forall i, j :: 0 <= i < j < |c| ==> c[i] != c[j]
  {
    forall i, j | 0 <= i < j < |c| ensures c[i] != c[j] { assert Differ(c, i, j); }
  }

  ghost predicate NextIs(nx: map<Addr, Addr>, c: seq<Addr>, i: nat)
    requires i < |c|
  {
    c[i] in nx && nx[c[i]] == Succ(c, i)
  }

  ghost predicate PrevIs(pv: map<Addr, Addr>, c: seq<Addr>, i: nat)
    requires i < |c|
  {
    c[i] in pv && pv[c[i]] == Pred(c, i)
  }

  ghost predicate Forward(nx: map<Addr, Addr>, c: seq<Addr>) {
    forall i :: 0 <= i < |c| ==> NextIs(nx, c, i)
  }

  ghost predicate Backward(pv: map<Addr, Addr>, c: seq<Addr>) {
    forall i :: 0 <= i < |c| ==> PrevIs(pv, c, i)
  }

  lemma ForwardAt(nx: map<Addr, Addr>, c: seq<Addr>, i: nat)
    requires Forward(nx, c) && i < |c|
    ensures c[i] in nx && nx[c[i]] == Succ(c, i)
  {
    assert NextIs(nx, c, i);
  }

  lemma BackwardAt(pv: map<Addr, Addr>, c: seq<Addr>, i: nat)
    requires Backward(pv, c) && i < |c|
    ensures c[i] in pv && pv[c[i]] == Pred(c, i)
  {
    assert PrevIs(pv, c, i);
  }

  /** `nx` visits the addresses of `c` in order and returns to the first; `pv` is its inverse. */
  ghost predicate IsCycle(nx: map<Addr, Addr>, pv: map<Addr, Addr>, c: seq<Addr>) {
    c != [] && AllDiffer(c) && Forward(nx, c) && Backward(pv, c)
  }

  ghost function Insert(c: seq<Addr>, k: nat, x: Addr): (r: seq<Addr>)
    requires k <= |c|
    ensures |r| == |c| + 1 && r[k] == x
    ensures (forall j {:trigger r[j]} :: 0 <= j < k ==> r[j] == c[j]) && (forall j {:trigger r[j]} :: k < j < |r| ==> r[j] == c[j - 1])
  {
    seq(|c| + 1, j requires 0 <= j <= |c| => if j < k then c[j] else if j == k then x else c[j - 1])
  }

  ghost function Delete(c: seq<Addr>, k: nat): (r: seq<Addr>)
    requires k < |c|
    ensures |r| == |c| - 1
    ensures (forall j {:trigger r[j]} :: 0 <= j < k ==> r[j] == c[j]) && (forall j {:trigger r[j]} :: k <= j < |r| ==> r[j] == c[j + 1])
  {
    seq(|c| - 1, j requires 0 <= j < |c| - 1 => if j < k then c[j] else c[j + 1])
  }

  lemma InsertMembers(c: seq<Addr>, k: nat, x: Addr)
    requires k <= |c|
    ensures Members(Insert(c, k, x)) == Members(c) + {x}
  {
    var r := Insert(c, k, x);
    forall y | y in c ensures y in r {
      var j: nat :| j < |c| && c[j] == y;
      assert r[if j < k then j else j + 1] == y;
    }
    assert r[k] == x;
  }

  lemma DeleteMembers(c: seq<Addr>, k: nat)
    requires k < |c| && AllDiffer(c)
    ensures Members(Delete(c, k)) == Members(c) - {c[k]}
  {
    Pairwise(c);
    var r := Delete(c, k);
    forall y | y in c && y != c[k] ensures y in r {
      var j: nat :| j < |c| && c[j] == y;
      assert r[if j < k then j else j - 1] == y;
    }
    forall y | y in r ensures y in c && y != c[k] {
      var j: nat :| j < |r| && r[j] == y;
      assert c[if j < k then j else j + 1] == y;
    }
  }

  lemma InsertForward(nx: map<Addr, Addr>, c: seq<Addr>, k: nat, x: Addr, nx': map<Addr, Addr>)
    requires AllDiffer(c) && Forward(nx, c) && k < |c| && x !in Members(c)
    requires nx' == nx[x := Succ(c, k)][c[k] := x]
    ensures AllDiffer(Insert(c, k + 1, x)) && Forward(nx', Insert(c, k + 1, x))
  {
    var r := Insert(c, k + 1, x);
    Pairwise(c);
    InsertMembers(c, k + 1, x);
    forall i | 0 <= i < |r| ensures NextIs(nx', r, i) {
      if i < k { ForwardAt(nx, c, i); }
      if i > k + 1 { ForwardAt(nx, c, i - 1); }
    }
  }

  lemma InsertBackward(pv: map<Addr, Addr>, c: seq<Addr>, k: nat, x: Addr, pv': map<Addr, Addr>)
    requires AllDiffer(c) && Backward(pv, c) && k < |c| && x !in Members(c)
    requires pv' == pv[x := c[k]][Succ(c, k) := x]
    ensures Backward(pv', Insert(c, k + 1, x))
  {
    var r := Insert(c, k + 1, x);
    Pairwise(c);
    InsertMembers(c, k + 1, x);
    forall i | 0 <= i < |r| ensures PrevIs(pv', r, i) {
      if i <= k { BackwardAt(pv, c, i); }
      if i > k + 1 { BackwardAt(pv, c, i - 1); }
    }
  }

  /** The four stores that link `x` in behind `c[k]`. */
  lemma LinkBehind(nx: map<Addr, Addr>, pv: map<Addr, Addr>, c: seq<Addr>, k: nat, x: Addr)
    requires IsCycle(nx, pv, c) && k < |c| && x !in Members(c)
    ensures c[k] in nx && IsCycle(nx[x := nx[c[k]]][c[k] := x], pv[x := c[k]][nx[c[k]] := x], Insert(c, k + 1, x))
  {
    ForwardAt(nx, c, k);
    InsertForward(nx, c, k, x, nx[x := nx[c[k]]][c[k] := x]);
    InsertBackward(pv, c, k, x, pv[x := c[k]][nx[c[k]] := x]);
  }

  lemma DeleteForward(nx: map<Addr, Addr>, c: seq<Addr>, k: nat, nx': map<Addr, Addr>)
    requires AllDiffer(c) && Forward(nx, c) && 0 < k < |c|
    requires nx' == nx[c[k - 1] := Succ(c, k)]
    ensures AllDiffer(Delete(c, k)) && Forward(nx', Delete(c, k))
  {
    var r := Delete(c, k);
    Pairwise(c);
    DeleteMembers(c, k);
    forall i | 0 <= i < |r| ensures NextIs(nx', r, i) {
      var o := if i < k then i else i + 1;
      assert r[i] == c[o];
      ForwardAt(nx, c, o);
    }
  }

  lemma DeleteBackward(pv: map<Addr, Addr>, c: seq<Addr>, k: nat, pv': map<Addr, Addr>)
    requires AllDiffer(c) && Backward(pv, c) && 0 < k < |c|
    requires pv' == pv[Succ(c, k) := c[k - 1]]
    ensures Backward(pv', Delete(c, k))
  {
    var r := Delete(c, k);
    Pairwise(c);
    DeleteMembers(c, k);
    forall i | 0 <= i < |r| ensures PrevIs(pv', r, i) {
      var o := if i < k then i else i + 1;
      assert r[i] == c[o];
      BackwardAt(pv, c, o);
    }
  }

  /** The two stores that take `c[k]` out. */
  lemma Unlink(nx: map<Addr, Addr>, pv: map<Addr, Addr>, c: seq<Addr>, k: nat)
    requires IsCycle(nx, pv, c) && 0 < k < |c|
    ensures c[k] in nx && c[k] in pv && IsCycle(nx[pv[c[k]] := nx[c[k]]], pv[nx[c[k]] := pv[c[k]]], Delete(c, k))
  {
    ForwardAt(nx, c, k);
    BackwardAt(pv, c, k);
    DeleteForward(nx, c, k, nx[c[k - 1] := Succ(c, k)]);
    DeleteBackward(pv, c, k, pv[Succ(c, k) := c[k - 1]]);
  }

  /** Linking `x` in behind the first node. */
  lemma PushFront(nx: map<Addr, Addr>, pv: map<Addr, Addr>, c: seq<Addr>, x: Addr) returns (r: seq<Addr>)
    requires IsCycle(nx, pv, c) && x !in Members(c)
    ensures c[0] in nx && IsCycle(nx[x := nx[c[0]]][c[0] := x], pv[x := c[0]][nx[c[0]] := x], r)
    ensures r[0] == c[0] && Members(r) == Members(c) + {x}
  {
    r := Insert(c, 1, x);
    LinkBehind(nx, pv, c, 0, x);
    InsertMembers(c, 1, x);
  }

  /** Taking any node but the first out. */
  lemma TakeOut(nx: map<Addr, Addr>, pv: map<Addr, Addr>, c: seq<Addr>, x: Addr) returns (r: seq<Addr>)
    requires IsCycle(nx, pv, c) && x in Members(c) && x != c[0]
    ensures x in nx && x in pv && nx[x] != x && pv[x] != x && IsCycle(nx[pv[x] := nx[x]], pv[nx[x] := pv[x]], r)
    ensures r[0] == c[0] && Members(r) == Members(c) - {x}
  {
    var k: nat :| k < |c| && c[k] == x;
    Pairwise(c);
    ForwardAt(nx, c, k);
    BackwardAt(pv, c, k);
    r := Delete(c, k);
    Unlink(nx, pv, c, k);
    DeleteMembers(c, k);
  }
}
