/** The timer list of src/timer.c as it is: a skip list of `levels` rows, ordered by comparing 32-bit ticks
    that wrap around. Each operation is proved to be the one of TimerSpec, which knows no wrap-around. */
module TimerQueue {
  import opened Basics
  import opened TimerSpec
  import opened TimerRuns
  import opened RtList

  const WRAP := 0x1_0000_0000

  /** Unsigned 32-bit subtraction. */
  function Sub32(a: int, b: int): (r: nat)
    ensures r < WRAP
  {
    (a - b) % WRAP
  }

  /** While deadlines are at most half a wrap apart, the 32-bit comparisons of the source decide the real ones. */
  lemma WrapCompare(a: int, b: int)
    requires -(HORIZON + 1) <= a - b <= HORIZON
    ensures Sub32(a % WRAP, b % WRAP) == 0 <==> a == b
    ensures Sub32(a % WRAP, b % WRAP) < TICK_MAX / 2 <==> a >= b
  {
    var qa, qb := a / WRAP, b / WRAP;
    assert a % WRAP - b % WRAP == (a - b) - WRAP * (qa - qb);
    var d := a - b;
    SubMod(d, qa - qb);
  }

  lemma SubMod(d: int, k: int)
    ensures (d - WRAP * k) % WRAP == d % WRAP
  {
    var q, r := d / WRAP, d % WRAP;
    assert d - WRAP * k == WRAP * (q - k) + r;
    ModUnique(d - WRAP * k, q - k, r);
  }

  lemma ModUnique(x: int, q: int, r: int)
    requires x == WRAP * q + r && 0 <= r < WRAP
    ensures x % WRAP == r
  {
  }

  /** The comparison stops being right just beyond the range the start assertion allows. */
  lemma WrapCompareIsTight()
    ensures exists a: int, b: int :: a - b == HORIZON + 1 && !(Sub32(a % WRAP, b % WRAP) < TICK_MAX / 2)
  {
    var a, b := HORIZON + 1, 0;
    assert a % WRAP == a && Sub32(a % WRAP, b % WRAP) == HORIZON + 1;
  }

  /** The tower of `x` is at least `k` rows high. */
  predicate Reaches(height: map<Tid, nat>, x: Tid, k: nat) {
    x in height && height[x] >= k
  }

  /** The timers of `q` whose tower is at least `k` rows high, in order. */
  function Tower(q: seq<Tid>, height: map<Tid, nat>, k: nat): (r: seq<Tid>)
    ensures forall x :: x in r <==> x in q && Reaches(height, x, k)
  {
    if q == [] then []
    else if Reaches(height, q[0], k) then [q[0]] + Tower(q[1..], height, k)
    else Tower(q[1..], height, k)
  }

  lemma {:induction false} TowerWithout(q: seq<Tid>, height: map<Tid, nat>, k: nat, id: Tid)
    ensures Tower(Without(q, id), height, k) == Without(Tower(q, height, k), id)
  {
    if q != [] {
      TowerWithout(q[1..], height, k, id);
      var t := Tower(q[1..], height, k);
      if q[0] != id {
        assert Without(q, id)[1..] == Without(q[1..], id);
      }
      if Reaches(height, q[0], k) {
        assert Tower(q, height, k)[1..] == t;
      } else {
        assert Tower(q, height, k) == t;
      }
    }
  }

  lemma TowerCons(x: Tid, q: seq<Tid>, height: map<Tid, nat>, k: nat)
    ensures Tower([x] + q, height, k) == if Reaches(height, x, k) then [x] + Tower(q, height, k) else Tower(q, height, k)
  {
    assert ([x] + q)[1..] == q;
  }

  lemma InsertCons(timer: map<Tid, Timer>, x: Tid, q: seq<Tid>, id: Tid)
    requires id in timer && x in timer && forall y :: y in q ==> y in timer
    ensures Insert(timer, [x] + q, id) == if timer[x].due > timer[id].due then [id] + ([x] + q) else [x] + Insert(timer, q, id)
  {
    assert ([x] + q)[1..] == q;
  }

  /** All of `q` is due later, so `id` goes in front. */
  lemma InsertFront(timer: map<Tid, Timer>, q: seq<Tid>, id: Tid)
    requires id in timer && forall x :: x in q ==> x in timer && timer[x].due > timer[id].due
    ensures Insert(timer, q, id) == [id] + q
  {
  }

  lemma {:induction false} TowerInsert(timer: map<Tid, Timer>, q: seq<Tid>, height: map<Tid, nat>, k: nat, id: Tid)
    requires id in timer && forall x :: x in q ==> x in timer
    requires Sorted(timer, q)
    ensures Tower(Insert(timer, q, id), height, k)
         == if Reaches(height, id, k) then Insert(timer, Tower(q, height, k), id) else Tower(q, height, k)
  {
    if q == [] || timer[q[0]].due > timer[id].due {
      forall x | x in q ensures timer[x].due > timer[id].due {
        if x != q[0] { assert x in q[1..]; }
      }
      TowerCons(id, q, height, k);
      InsertFront(timer, Tower(q, height, k), id);
    } else {
      TowerInsert(timer, q[1..], height, k, id);
      TowerCons(q[0], Insert(timer, q[1..], id), height, k);
      InsertCons(timer, q[0], Tower(q[1..], height, k), id);
    }
  }

  lemma {:induction false} TowerSame(q: seq<Tid>, height: map<Tid, nat>, height': map<Tid, nat>, k: nat)
    requires forall x :: x in q ==> (Reaches(height, x, k) <==> Reaches(height', x, k))
    ensures Tower(q, height, k) == Tower(q, height', k)
  {
    if q != [] { TowerSame(q[1..], height, height', k); }
  }

  lemma SortedCons(timer: map<Tid, Timer>, x: Tid, q: seq<Tid>)
    requires x in timer && (forall y :: y in q ==> y in timer && Before(timer[x].due, timer[x].stamp, timer[y].due, timer[y].stamp))
    requires Sorted(timer, q)
    ensures Sorted(timer, [x] + q)
  {
    assert ([x] + q)[1..] == q;
  }

  lemma {:induction false} TowerSorted(timer: map<Tid, Timer>, q: seq<Tid>, height: map<Tid, nat>, k: nat)
    requires forall x :: x in q ==> x in timer
    requires Sorted(timer, q)
    ensures Sorted(timer, Tower(q, height, k))
  {
    if q != [] {
      TowerSorted(timer, q[1..], height, k);
      if Reaches(height, q[0], k) {
        SortedCons(timer, q[0], Tower(q[1..], height, k));
      }
    }
  }

  lemma {:induction false} TowerFull(q: seq<Tid>, height: map<Tid, nat>, k: nat)
    requires forall x :: x in q ==> Reaches(height, x, k)
    ensures Tower(q, height, k) == q
  {
    if q != [] { TowerFull(q[1..], height, k); }
  }

  /** `a` is `b` with some members left out. */
  ghost predicate SubList(a: seq<Tid>, b: seq<Tid>) {
    a == [] || (b != [] && if a[0] == b[0] then SubList(a[1..], b[1..]) else SubList(a, b[1..]))
  }

  lemma {:induction false} TowerSubList(q: seq<Tid>, height: map<Tid, nat>, k: nat)
    requires forall i, j :: 0 <= i < j < |q| ==> q[i] != q[j]
    ensures SubList(Tower(q, height, k + 1), Tower(q, height, k))
  {
    if q != [] {
      TowerSubList(q[1..], height, k);
      var a, b := Tower(q[1..], height, k + 1), Tower(q[1..], height, k);
      if Reaches(height, q[0], k + 1) {
        assert Tower(q, height, k + 1)[1..] == a && Tower(q, height, k)[1..] == b;
      } else if Reaches(height, q[0], k) {
        assert Tower(q, height, k + 1) == a && Tower(q, height, k)[1..] == b;
        assert a == [] || a[0] in q[1..];
      } else {
        assert Tower(q, height, k + 1) == a && Tower(q, height, k) == b;
      }
    }
  }

  lemma {:induction false} SortedPrefix(timer: map<Tid, Timer>, q: seq<Tid>, i: nat)
    requires (forall x :: x in q ==> x in timer) && Sorted(timer, q) && i < |q|
    ensures forall k :: 0 <= k <= i ==> timer[q[k]].due <= timer[q[i]].due
  {
    if i > 0 {
      SortedPrefix(timer, q[1..], i - 1);
      assert q[i] in q[1..];
      forall k | 0 <= k <= i ensures timer[q[k]].due <= timer[q[i]].due {
        if k > 0 { assert q[k] == q[1..][k - 1]; }
      }
    }
  }

  lemma InsertHere(timer: map<Tid, Timer>, q: seq<Tid>, id: Tid)
    requires id in timer && (forall x :: x in q ==> x in timer) && (q != [] ==> timer[q[0]].due > timer[id].due)
    ensures Insert(timer, q, id) == q[..0] + [id] + q[0..]
  {
  }

  lemma FirstInFront(q: seq<Tid>, id: Tid, pos: nat)
    requires 0 < pos <= |q|
    ensures q == [q[0]] + q[1..] && q[..pos] + [id] + q[pos..] == [q[0]] + (q[1..][..pos - 1] + [id] + q[1..][pos - 1..])
  {
    var t := q[1..];
    assert t[pos - 1..] == q[pos..];
    assert q[..pos] == [q[0]] + t[..pos - 1];
  }

  /** Inserting behind the last timer that is due no later, once the search has found it. */
  lemma {:induction false} InsertAt(timer: map<Tid, Timer>, q: seq<Tid>, id: Tid, pos: nat)
    requires id in timer && (forall x :: x in q ==> x in timer) && pos <= |q|
    requires forall k :: 0 <= k < pos ==> timer[q[k]].due <= timer[id].due
    requires pos < |q| ==> timer[q[pos]].due > timer[id].due
    ensures Insert(timer, q, id) == q[..pos] + [id] + q[pos..]
  {
    hide Insert;
    if pos > 0 {
      forall k | 0 <= k < pos - 1 ensures timer[q[1..][k]].due <= timer[id].due { assert q[1..][k] == q[k + 1]; }
      InsertAt(timer, q[1..], id, pos - 1);
      InsertCons(timer, q[0], q[1..], id);
      FirstInFront(q, id, pos);
    } else {
      InsertHere(timer, q, id);
    }
  }

  function IndexOf(q: seq<Tid>, id: Tid): (i: nat)
    requires id in q
    ensures i < |q| && q[i] == id
  {
    if q[0] == id then 0 else 1 + IndexOf(q[1..], id)
  }

  /** The fields of `struct rt_timer`; the row links are in `rows`. */
  datatype Cell = Cell(init: Interval, timeoutTick: nat, periodic: bool, active: bool)

  /** Row `r` of the skip list holds the timers whose tower reaches it; the last row holds all of them. */
  ghost predicate RowsOf(rows: seq<seq<Tid>>, q: seq<Tid>, height: map<Tid, nat>, levels: nat) {
    && |rows| == levels
    && Standing(q, height)
    && (forall r :: 0 <= r < levels ==> RowIs(rows[r], q, height, levels - r))
  }

  ghost predicate Standing(q: seq<Tid>, height: map<Tid, nat>) {
    forall x :: x in q ==> Reaches(height, x, 1)
  }

  ghost predicate RowIs(row: seq<Tid>, q: seq<Tid>, height: map<Tid, nat>, k: nat) {
    row == Tower(q, height, k)
  }

  ghost predicate CellsOf(cell: map<Tid, Cell>, timer: map<Tid, Timer>) {
    && cell.Keys == timer.Keys
    && (forall x :: x in cell ==> CellOf(cell[x], timer[x]))
  }

  ghost predicate CellOf(c: Cell, t: Timer) {
    c.init == t.init && c.periodic == t.periodic && c.active == t.active && c.timeoutTick == t.due % WRAP
  }

  lemma CellIs(cell: map<Tid, Cell>, timer: map<Tid, Timer>, id: Tid)
    requires CellsOf(cell, timer) && id in timer
    ensures id in cell && CellOf(cell[id], timer[id])
  {
  }

  lemma CellSet(cell: map<Tid, Cell>, timer: map<Tid, Timer>, id: Tid, c: Cell, t: Timer)
    requires CellsOf(cell, timer) && id in timer && CellOf(c, t)
    ensures CellsOf(cell[id := c], timer[id := t])
  {
  }

  /** What keeps deadlines comparable on 32 bits when a start may put its timer into the queue up to `slack` ticks after the
      deadline: intervals and `slack` together do not exceed HORIZON. */
  ghost predicate Punctual(s: State, slack: nat)
    requires QueueKnown(s)
  {
    && (forall x :: x in s.timer ==> s.timer[x].init + slack <= HORIZON && s.timer[x].due + slack <= s.now + HORIZON)
    && (forall x :: x in s.queue ==> s.timer[x].linked <= s.timer[x].due + slack && s.now <= FireTick(s.timer[x].due, s.timer[x].linked))
  }

  ghost predicate SetsPunctual(a: Action, slack: nat) {
    a.SetTime? ==> a.interval + slack <= HORIZON
  }

  ghost predicate RowsWithout(rows: seq<seq<Tid>>, rows': seq<seq<Tid>>, id: Tid) {
    |rows'| == |rows| && forall r :: 0 <= r < |rows| ==> rows'[r] == Without(rows[r], id)
  }

  lemma RemovedRows(rows: seq<seq<Tid>>, rows': seq<seq<Tid>>, q: seq<Tid>, height: map<Tid, nat>, levels: nat, id: Tid)
    requires RowsOf(rows, q, height, levels) && RowsWithout(rows, rows', id)
    ensures RowsOf(rows', Without(q, id), height, levels)
  {
    StandingWithout(q, height, id);
    forall r | 0 <= r < levels ensures RowIs(rows'[r], Without(q, id), height, levels - r) {
      RemovedRow(rows[r], q, height, levels - r, id);
    }
  }

  lemma StandingWithout(q: seq<Tid>, height: map<Tid, nat>, id: Tid)
    requires Standing(q, height)
    ensures Standing(Without(q, id), height)
  {
  }

  lemma RemovedRow(row: seq<Tid>, q: seq<Tid>, height: map<Tid, nat>, k: nat, id: Tid)
    requires RowIs(row, q, height, k)
    ensures RowIs(Without(row, id), Without(q, id), height, k)
  {
    TowerWithout(q, height, k, id);
  }

  /** `rows'` is `rows` with `id` inserted into the rows its tower of height `h` reaches. */
  ghost predicate RowsWith(timer: map<Tid, Timer>, rows: seq<seq<Tid>>, rows': seq<seq<Tid>>, id: Tid, h: nat)
    requires id in timer && forall r, x :: 0 <= r < |rows| && x in rows[r] ==> x in timer
  {
    && |rows'| == |rows|
    && (forall r :: 0 <= r < |rows| ==> rows'[r] == if h >= |rows| - r then Insert(timer, rows[r], id) else rows[r])
  }

  lemma InsertedRows(timer: map<Tid, Timer>, rows: seq<seq<Tid>>, rows': seq<seq<Tid>>, q: seq<Tid>, height: map<Tid, nat>, levels: nat, id: Tid, h: nat)
    requires RowsOf(rows, q, height, levels) && id in timer && id !in q && h >= 1
    requires (forall x :: x in q ==> x in timer) && Sorted(timer, q)
    requires RowsWith(timer, rows, rows', id, h)
    ensures RowsOf(rows', Insert(timer, q, id), height[id := h], levels)
  {
    forall r | 0 <= r < levels ensures RowIs(rows'[r], Insert(timer, q, id), height[id := h], levels - r) {
      InsertedRow(timer, rows[r], rows'[r], q, height, levels - r, id, h);
    }
  }

  lemma InsertedRow(timer: map<Tid, Timer>, row: seq<Tid>, row': seq<Tid>, q: seq<Tid>, height: map<Tid, nat>, k: nat, id: Tid, h: nat)
    requires RowIs(row, q, height, k) && id in timer && id !in q && (forall x :: x in q ==> x in timer) && Sorted(timer, q)
    requires row' == if h >= k then Insert(timer, row, id) else row
    ensures RowIs(row', Insert(timer, q, id), height[id := h], k)
  {
    var height' := height[id := h];
    TowerSame(q, height, height', k);
    TowerInsert(timer, q, height', k, id);
  }

  /** The rows of the queue, one below the other: each sorted, known, and with all members in the row below. */
  ghost predicate Searchable(timer: map<Tid, Timer>, rows: seq<seq<Tid>>) {
    && (forall r, x :: 0 <= r < |rows| && x in rows[r] ==> x in timer)
    && (forall r :: 0 <= r < |rows| ==> Sorted(timer, rows[r]))
    && (forall r :: 0 <= r && r + 1 < |rows| ==> Below(rows, r))
  }

  ghost predicate Below(rows: seq<seq<Tid>>, r: nat)
    requires r + 1 < |rows|
  {
    forall x :: x in rows[r] ==> x in rows[r + 1]
  }

  lemma RowsSearchable(timer: map<Tid, Timer>, rows: seq<seq<Tid>>, q: seq<Tid>, height: map<Tid, nat>, levels: nat)
    requires RowsOf(rows, q, height, levels) && (forall x :: x in q ==> x in timer) && Sorted(timer, q)
    ensures Searchable(timer, rows)
  {
    hide Sorted;
    forall r, x | 0 <= r < |rows| && x in rows[r] ensures x in timer {
      assert x in Tower(q, height, levels - r);
    }
    forall r | 0 <= r < levels ensures Sorted(timer, rows[r]) {
      TowerSorted(timer, q, height, levels - r);
    }
    forall r | 0 <= r && r + 1 < levels ensures Below(rows, r) {
      assert rows[r + 1] == Tower(q, height, levels - (r + 1));
    }
  }

  /** What the interface promises of the rows: every row is a sorted sub-list of the row below it, the last is the queue. */
  lemma RowsAreSubLists(timer: map<Tid, Timer>, rows: seq<seq<Tid>>, q: seq<Tid>, height: map<Tid, nat>, levels: nat)
    requires levels >= 1 && RowsOf(rows, q, height, levels) && (forall x :: x in q ==> x in timer) && Sorted(timer, q)
    ensures rows[levels - 1] == q
    ensures forall r :: 0 <= r && r + 1 < levels ==> SubList(rows[r], rows[r + 1])
    ensures forall r :: 0 <= r < levels ==> Sorted(timer, rows[r])
  {
    TowerFull(q, height, 1);
    SortedDistinct(timer, q);
    forall r | 0 <= r && r + 1 < levels ensures SubList(rows[r], rows[r + 1]) {
      assert rows[r + 1] == Tower(q, height, levels - (r + 1));
      TowerSubList(q, height, levels - (r + 1));
    }
    RowsSearchable(timer, rows, q, height, levels);
  }

  lemma {:induction false} SortedDistinct(timer: map<Tid, Timer>, q: seq<Tid>)
    requires (forall x :: x in q ==> x in timer) && Sorted(timer, q)
    ensures forall i, j :: 0 <= i < j < |q| ==> q[i] != q[j]
  {
    if q != [] {
      SortedDistinct(timer, q[1..]);
      forall i, j | 0 <= i < j < |q| ensures q[i] != q[j] {
        assert q[j] in q[1..];
        if i > 0 { assert q[i] == q[1..][i - 1] && q[j] == q[1..][j - 1]; }
      }
    }
  }

  /** The place of a new timer in one row: behind `row[pos - 1]`. */
  ghost predicate PlaceIn(timer: map<Tid, Timer>, row: seq<Tid>, due: nat, pos: nat)
    requires forall x :: x in row ==> x in timer
  {
    && pos <= |row|
    && (forall k :: 0 <= k < pos ==> timer[row[k]].due <= due)
    && (pos < |row| ==> timer[row[pos]].due > due)
  }

  /** All deadlines of the row lie so close to `due` that 32-bit comparison decides them. */
  ghost predicate InWindow(cell: map<Tid, Cell>, timer: map<Tid, Timer>, row: seq<Tid>, due: nat) {
    forall x :: x in row ==>
      x in cell && x in timer && cell[x].timeoutTick == timer[x].due % WRAP && -(HORIZON + 1) <= timer[x].due - due <= HORIZON
  }

  /** The timers that a timeout function names exist. */
  ghost predicate ActionsKnown(actions: seq<Action>, timer: map<Tid, Timer>, slack: nat) {
    forall k :: 0 <= k < |actions| ==> actions[k].id in timer && SetsPunctual(actions[k], slack)
  }

  ghost predicate ScriptKnown(script: seq<seq<Action>>, timer: map<Tid, Timer>, slack: nat) {
    forall k :: 0 <= k < |script| ==> ActionsKnown(script[k], timer, slack)
  }

  /** The links in one row of the timers in it. */
  ghost function Links(link: map<Tid, ListNode>, row: seq<Tid>): (s: seq<ListNode>)
    requires forall k :: 0 <= k < |row| ==> row[k] in link
    ensures |s| == |row| && forall k :: 0 <= k < |s| ==> s[k] == link[row[k]]
  {
    seq(|row|, k requires 0 <= k < |row| => link[row[k]])
  }

  /** The insertion into a row as the links have it: the timer joins the row in that place. A timer that is in the queue is in the
      last row already, and linking it in there again, wherever the search has led, leaves no ring of that row. */
  method LinkRow(head: ListNode, at: ListNode, link: map<Tid, ListNode>, id: Tid, ghost row: seq<Tid>, ghost pos: nat)
    requires id in link && (forall k :: 0 <= k < |row| ==> row[k] in link) && (forall x, y :: x in link && y in link && x != y ==> link[x] != link[y])
    requires Ring(head, Links(link, row)) && pos <= |row| && at == At(head, Links(link, row), pos - 1) && link[id] != head
    modifies at, at.next, link[id]
    ensures id !in row ==> Ring(head, Links(link, row[..pos] + [id] + row[pos..]))
    ensures id in row ==> forall r :: !Ring(head, r)
  {
    ghost var s := Links(link, row);
    if id in row {
      ghost var k :| 0 <= k < |row| && row[k] == id;
      assert s[k] == link[id];
    } else {
      assert Links(link, row[..pos] + [id] + row[pos..]) == Inserted(s, pos, link[id]);
    }
    hide Ring;
    InsertAfter(at, link[id], head, s, pos);
  }

  class TimerList {
    const levels: nat
    const mask: nat
    /** How late a timer may be put into the queue. */
    ghost const slack: nat
    var tick: nat
    var randomNr: nat
    var cell: map<Tid, Cell>
    var rows: seq<seq<Tid>>
    ghost var s: State
    ghost var height: map<Tid, nat>

    ghost predicate Valid()
      reads this
    {
      && levels >= 1 && (mask == 1 || mask == 3)
      && Inv(s) && LogInv(s) && Punctual(s, slack)
      && tick == s.now % WRAP
      && CellsOf(cell, s.timer)
      && |rows| == levels && RowsOf(rows, s.queue, height, levels)
    }

    /** No timers yet; the tick may start anywhere. */
    constructor (levels: nat, mask: nat, now: nat, ghost slack: nat)
      requires levels >= 1 && (mask == 1 || mask == 3)
      ensures Valid() && s == State(now, 0, map[], [], [], false) && this.slack == slack
    {
      this.levels, this.mask, this.slack := levels, mask, slack;
      tick, randomNr := now % WRAP, 0;
      cell, height := map[], map[];
      rows := seq(levels, _ => []);
      s := State(now, 0, map[], [], [], false);
    }

    /** rt_timer_init of a timer that does not exist yet. */
    method Init(id: Tid, init: Interval, periodic: bool)
      requires Valid() && id !in s.timer && init + slack <= HORIZON
      modifies this
      ensures Valid()
      ensures s == old(s).(timer := old(s).timer[id := Timer(init, periodic, false, 0, 0, 0)])
    {
      cell := cell[id := Cell(init, 0, periodic, false)];
      ghost var timer := s.timer[id := Timer(init, periodic, false, 0, 0, 0)];
      SortedSame(s.timer, timer, s.queue);
      s := s.(timer := timer);
    }

    /** _rt_timer_remove: rt_list_remove on the link of every row. */
    method RemoveRows(id: Tid)
      modifies this`rows
      requires |rows| == levels
      ensures RowsWithout(old(rows), rows, id)
    {
      for i := 0 to levels
        invariant |rows| == levels
        invariant forall r :: 0 <= r < i ==> rows[r] == Without(old(rows)[r], id)
        invariant forall r :: i <= r < levels ==> rows[r] == old(rows)[r]
      {
        rows := rows[i := Without(rows[i], id)];
      }
    }

    /** The search loop of rt_timer_start in one row, from the place found in the row above. */
    method FindInRow(row: seq<Tid>, from: nat, timeoutTick: nat, ghost timer: map<Tid, Timer>, ghost due: nat) returns (pos: nat)
      requires InWindow(cell, timer, row, due) && timeoutTick == due % WRAP
      requires from <= |row| && forall k :: 0 <= k < from ==> timer[row[k]].due <= due
      requires Sorted(timer, row)
      ensures PlaceIn(timer, row, due, pos)
    {
      pos := from;
      while pos < |row|
        invariant from <= pos <= |row|
        invariant forall k :: 0 <= k < pos ==> timer[row[k]].due <= due
      {
        var t := cell[row[pos]];
        assert row[pos] in row;
        WrapCompare(timer[row[pos]].due, due);
        if Sub32(t.timeoutTick, timeoutTick) == 0 {
        } else if Sub32(t.timeoutTick, timeoutTick) < TICK_MAX / 2 {
          break;
        }
        pos := pos + 1;
      }
    }

    /** The step from the place found in row `r` to where the search goes on in the next row: the link of
        the same timer, or of the head. */
    method DownFrom(r: nat, p: nat, ghost timer: map<Tid, Timer>, ghost due: nat) returns (from: nat)
      requires Searchable(timer, rows) && r + 1 < |rows| && PlaceIn(timer, rows[r], due, p)
      ensures from <= |rows[r + 1]|
      ensures var row := rows[r + 1]; forall k :: 0 <= k < from ==> timer[row[k]].due <= due
    {
      if p == 0 {
        return 0;
      }
      assert Below(rows, r) && rows[r][p - 1] in rows[r];
      from := IndexOf(rows[r + 1], rows[r][p - 1]) + 1;
      SortedPrefix(timer, rows[r + 1], from - 1);
    }

    /** The search of rt_timer_start over all rows: `pos[r]` is where the new timer goes in row `r`. */
    method FindRows(timeoutTick: nat, ghost timer: map<Tid, Timer>, ghost due: nat) returns (pos: seq<nat>)
      requires Searchable(timer, rows) && timeoutTick == due % WRAP
      requires forall r :: 0 <= r < |rows| ==> InWindow(cell, timer, rows[r], due)
      ensures |pos| == |rows| && forall r :: 0 <= r < |rows| ==> PlaceIn(timer, rows[r], due, pos[r])
    {
      pos := [];
      var from: nat := 0;
      for r := 0 to |rows|
        invariant |pos| == r && forall k :: 0 <= k < r ==> PlaceIn(timer, rows[k], due, pos[k])
        invariant r < |rows| ==> from <= |rows[r]| && forall k :: 0 <= k < from ==> timer[rows[r][k]].due <= due
      {
        var p := FindInRow(rows[r], from, timeoutTick, timer, due);
        pos := pos + [p];
        if r != |rows| - 1 {
          from := DownFrom(r, p, timer, due);
        }
      }
    }

    /** The insertions of rt_timer_start, from the last row upwards for as long as the counter's bits are zero. */
    method InsertRows(id: Tid, pos: seq<nat>, ghost timer: map<Tid, Timer>) returns (ghost h: nat)
      requires |rows| == levels >= 1 && |pos| == levels && id in timer && (mask == 1 || mask == 3)
      requires forall r, x :: 0 <= r < |rows| && x in rows[r] ==> x in timer
      requires forall r :: 0 <= r < levels ==> PlaceIn(timer, rows[r], timer[id].due, pos[r])
      modifies this`rows, this`randomNr
      ensures h >= 1 && RowsWith(timer, old(rows), rows, id, h)
    {
      randomNr := (randomNr + 1) % WRAP;
      var tst := randomNr;
      var lvl := levels - 1;
      InsertAt(timer, rows[lvl], id, pos[lvl]);
      rows := rows[lvl := rows[lvl][..pos[lvl]] + [id] + rows[lvl][pos[lvl]..]];
      h := 1;
      while lvl > 0
        invariant 0 <= lvl < levels && h == levels - lvl && |rows| == levels
        invariant forall r :: lvl <= r < levels ==> rows[r] == Insert(timer, old(rows)[r], id)
        invariant forall r :: 0 <= r < lvl ==> rows[r] == old(rows)[r]
      {
        if tst % (mask + 1) != 0 {
          break;
        }
        lvl := lvl - 1;
        InsertAt(timer, rows[lvl], id, pos[lvl]);
        rows := rows[lvl := rows[lvl][..pos[lvl]] + [id] + rows[lvl][pos[lvl]..]];
        h := h + 1;
        tst := tst / (if mask == 1 then 2 else 4);
      }
    }

    /** The search and the insertions, on rows that hold `q` without the timer. */
    method PutInRows(id: Tid, timeoutTick: nat, ghost timer: map<Tid, Timer>, ghost q: seq<Tid>)
      requires levels >= 1 && (mask == 1 || mask == 3) && RowsOf(rows, q, height, levels)
      requires id in timer && id !in q && timeoutTick == timer[id].due % WRAP
      requires (forall x :: x in q ==> x in timer) && Sorted(timer, q) && InWindow(cell, timer, q, timer[id].due)
      modifies this`rows, this`randomNr, this`height
      ensures |rows| == levels && RowsOf(rows, Insert(timer, q, id), height, levels)
    {
      hide RowsOf, InWindow, Searchable, Insert, Sorted;
      RowsInWindow(cell, timer, rows, q, height, levels, timer[id].due);
      var pos := FindRows(timeoutTick, timer, timer[id].due);
      ghost var rows1 := rows;
      ghost var h := InsertRows(id, pos, timer);
      InsertedRows(timer, rows1, rows, q, height, levels, id, h);
      height := height[id := h];
    }

    /** _rt_timer_remove. */
    method Detach(id: Tid)
      requires Valid() && id in s.timer
      modifies this`rows, this`s
      ensures Valid() && s == TakeOut(old(s), id)
    {
      hide RowsOf, Sorted, LogInv;
      RemoveRows(id);
      RemovedRows(old(rows), rows, s.queue, height, levels, id);
      TakeOutKeeps(s, id);
      s := TakeOut(s, id);
    }

    method ClearActive(id: Tid)
      requires Valid() && id in s.timer
      modifies this`cell, this`s
      ensures Valid() && s == ClearFlag(old(s), id)
    {
      hide RowsOf, Sorted, LogInv, CellsOf;
      CellIs(cell, s.timer, id);
      CellSet(cell, s.timer, id, cell[id].(active := false), s.timer[id].(active := false));
      ClearKeeps(s, id);
      cell := cell[id := cell[id].(active := false)];
      s := ClearFlag(s, id);
    }

    /** The first region of rt_timer_start with interrupts disabled. */
    method BeginStart(id: Tid)
      requires Valid() && id in s.timer
      modifies this`rows, this`cell, this`s
      ensures Valid() && s == Begin(old(s), id)
    {
      hide TimerList.Valid;
      Detach(id);
      ClearActive(id);
    }

    /** The timeout tick is computed with interrupts enabled. */
    method ComputeDue(id: Tid)
      requires Valid() && id in s.timer && Fits(s, id)
      modifies this`cell, this`s
      ensures Valid() && s == Compute(old(s), id)
    {
      hide RowsOf, Sorted, LogInv, CellsOf, Fits;
      CellIs(cell, s.timer, id);
      ComputeKeepsIff(s, id);
      AddWrap(s.now, cell[id].init);
      CellSet(cell, s.timer, id, cell[id].(timeoutTick := (tick + cell[id].init) % WRAP), s.timer[id].(due := s.now + s.timer[id].init));
      cell := cell[id := cell[id].(timeoutTick := (tick + cell[id].init) % WRAP)];
      s := Compute(s, id);
    }

    /** The second region. */
    method LinkIn(id: Tid)
      requires Valid() && id in s.timer && id !in s.queue && s.now <= s.timer[id].due + slack
      modifies this`cell, this`s, this`rows, this`randomNr, this`height
      ensures Valid() && s == Link(old(s), id)
    {
      hide RowsOf, Sorted, LogInv, Insert, InWindow, CellsOf;
      LinkKeeps(s, id);
      CellIs(cell, s.timer, id);
      CellSet(cell, s.timer, id, cell[id].(active := true), Linked(s, id)[id]);
      LinkWindow(cell, s, id, slack);
      PutInRows(id, cell[id].timeoutTick, Linked(s, id), s.queue);
      cell := cell[id := cell[id].(active := true)];
      s := Link(s, id);
    }

    /** One part of a start or a stop. */
    method Piece(p: Part, id: Tid)
      requires Valid() && id in s.timer && Orderly(s, Partial(p, id)) && (p.Links? ==> s.now <= s.timer[id].due + slack)
      modifies this
      ensures Valid() && s == DoPart(old(s), p, id) && tick == old(tick)
    {
      hide TimerList.Valid, Begin, Compute, Link, TakeOut, ClearFlag;
      match p
      case Begins => BeginStart(id);
      case Computes => ComputeDue(id);
      case Links => LinkIn(id);
      case Unlinks => Detach(id);
      case Clears => ClearActive(id);
    }

    lemma StartFits(id: Tid)
      requires Valid() && id in s.timer && id !in s.queue
      ensures QueueKnown(s) && Fits(s, id)
    {
      ComputeKeepsIff(s, id);
    }

    /** rt_timer_start with interrupts disabled. */
    method Start(id: Tid)
      requires Valid() && id in s.timer
      modifies this
      ensures Valid() && s == StartTimer(old(s), id)
      ensures tick == old(tick)
    {
      hide TimerList.Valid, Link;
      BeginStart(id);
      StartFits(id);
      ComputeDue(id);
      LinkIn(id);
    }

    /** rt_timer_stop; false stands for the error return. */
    method Stop(id: Tid) returns (ok: bool)
      requires Valid() && id in s.timer
      modifies this
      ensures Valid() && s == StopTimer(old(s), id)
      ensures ok == old(s).timer[id].active && tick == old(tick)
    {
      hide RowsOf, Sorted, LogInv, Inv, Punctual;
      if !cell[id].active {
        return false;
      }
      Detach(id);
      ClearActive(id);
      ok := true;
    }

    /** RT_TIMER_CTRL_SET_TIME. */
    method SetTime(id: Tid, n: Interval)
      requires Valid() && id in s.timer && n + slack <= HORIZON
      modifies this
      ensures Valid() && s == Apply(old(s), Action.SetTime(id, n)) && tick == old(tick)
    {
      hide RowsOf, Sorted, LogInv, CellsOf;
      CellIs(cell, s.timer, id);
      CellSet(cell, s.timer, id, cell[id].(init := n), s.timer[id].(init := n));
      cell := cell[id := cell[id].(init := n)];
      ApplyKeeps(s, Action.SetTime(id, n));
      s := Apply(s, Action.SetTime(id, n));
    }

    /** RT_TIMER_CTRL_SET_ONESHOT and RT_TIMER_CTRL_SET_PERIODIC. */
    method SetPeriodic(id: Tid, p: bool)
      requires Valid() && id in s.timer
      modifies this
      ensures Valid() && s == Apply(old(s), Action.SetPeriodic(id, p)) && tick == old(tick)
    {
      hide RowsOf, Sorted, LogInv, CellsOf;
      CellIs(cell, s.timer, id);
      CellSet(cell, s.timer, id, cell[id].(periodic := p), s.timer[id].(periodic := p));
      cell := cell[id := cell[id].(periodic := p)];
      ApplyKeeps(s, Action.SetPeriodic(id, p));
      s := Apply(s, Action.SetPeriodic(id, p));
    }

    method Perform(a: Action)
      requires Valid() && a.id in s.timer && SetsPunctual(a, slack)
      modifies this
      ensures Valid() && s == Apply(old(s), a) && tick == old(tick)
    {
      hide TimerList.Valid, StartTimer, StopTimer;
      match a {
        case Start(id) => Start(id);
        case Stop(id) => var _ := Stop(id);
        case SetTime(id, n) => SetTime(id, n);
        case SetPeriodic(id, p) => SetPeriodic(id, p);
      }
    }

    /** The call of a timeout function, which may do anything to existing timers. */
    method Callback(actions: seq<Action>)
      requires Valid() && ActionsKnown(actions, s.timer, slack)
      modifies this
      ensures Valid() && s == ApplyAll(old(s), actions) && tick == old(tick)
    {
      hide RowsOf, Sorted, LogInv, Punctual, CellsOf, Apply, SetsPunctual;
      ApplyAllKeys(s, actions);
      if actions != [] {
        ApplyKeys(s, actions[0]);
        Perform(actions[0]);
        Callback(actions[1..]);
      }
    }

    lemma LastRow()
      requires Valid()
      ensures levels >= 1 && |rows| == levels && rows[levels - 1] == s.queue
    {
      TowerFull(s.queue, height, 1);
    }

    /** The test at the head of the list, on 32-bit ticks. */
    method HeadIsDue() returns (due: bool)
      requires Valid()
      ensures due <==> HeadDue(s)
    {
      hide RowsOf, Sorted, LogInv;
      LastRow();
      if rows[levels - 1] == [] {
        return false;
      }
      var t := rows[levels - 1][0];
      WrapCompare(s.now, s.timer[t].due);
      due := Sub32(tick, cell[t].timeoutTick) < TICK_MAX / 2;
    }

    /** Takes the head out of all rows. */
    method Unlink() returns (t: Tid)
      requires Valid() && Checking(s) && HeadDue(s)
      modifies this
      ensures Valid() && Checking(s) && s == Fire(old(s)) && t == old(s).queue[0] && tick == old(tick)
    {
      hide RowsOf, Sorted, LogInv, Checking;
      LastRow();
      t := rows[levels - 1][0];
      RemoveRows(t);
      RemovedRows(old(rows), rows, s.queue, height, levels, t);
      FireKeeps(s);
      s := Fire(s);
    }

    /** After the timeout function: start a periodic timer again, or mark the timer inactive. */
    method Conclude(t: Tid)
      requires Valid() && t in s.timer
      modifies this
      ensures Valid() && s == Finish(old(s), t) && tick == old(tick)
    {
      hide RowsOf, Sorted, LogInv, Inv, Punctual, StartTimer, ClearFlag;
      if cell[t].periodic && cell[t].active {
        Start(t);
      } else {
        ClearActive(t);
      }
    }

    /** One turn of the loop of rt_timer_check. */
    method ServeHead(script: seq<seq<Action>>)
      requires Valid() && Checking(s) && HeadDue(s) && ScriptKnown(script, s.timer, slack)
      modifies this
      ensures Valid() && Checking(s) && s == Served(old(s), script)
    {
      hide RowsOf, Sorted, LogInv, Punctual, Checking, CellsOf, Finish;
      ServedKeys(s, script);
      ServedKeeps(s, script);
      var t := Unlink();
      Callback(if script == [] then [] else script[0]);
      Conclude(t);
    }

    /** The same, and the test for the next turn. */
    method ServeAndLook(script: seq<seq<Action>>) returns (due: bool)
      requires Valid() && Checking(s) && HeadDue(s) && ScriptKnown(script, s.timer, slack)
      modifies this
      ensures Valid() && Checking(s) && s == Served(old(s), script) && (due <==> HeadDue(s))
      ensures ScriptKnown(Rest(script), s.timer, slack) && Due(s) < Due(old(s))
    {
      hide RowsOf, Sorted, LogInv, Punctual, Checking, CellsOf, Served, Due, SetsPunctual;
      ServedDueCount(s, script);
      ServedKeys(s, script);
      ServeHead(script);
      due := HeadIsDue();
    }

    /** rt_timer_check. It ends although the timeout functions may start timers, since these are not yet due. */
    method CheckTimers(script: seq<seq<Action>>)
      requires Valid() && Checking(s) && ScriptKnown(script, s.timer, slack)
      modifies this
      ensures Valid() && s == Check(old(s), script)
    {
      hide RowsOf, Sorted, LogInv, Punctual, Checking, CellsOf, Served, Due, ScriptKnown;
      var rest := script;
      var due := HeadIsDue();
      while due
        invariant Valid() && Checking(s) && (due <==> HeadDue(s))
        invariant ScriptKnown(rest, s.timer, slack)
        invariant Check(s, rest) == Check(old(s), script)
        decreases Due(s)
      {
        due := ServeAndLook(rest);
        rest := Rest(rest);
      }
    }

    /** The timer part of rt_tick_increase: one more tick, then the check. */
    method TickIncrease(script: seq<seq<Action>>)
      requires Valid() && Settled(s)
      requires ScriptKnown(script, s.timer, slack)
      modifies this
      ensures Valid() && s == Step(old(s), Tick(script)) && Settled(s)
    {
      hide RowsOf, Sorted, LogInv, CellsOf, Check, ScriptKnown;
      TickStarts(s);
      StepKeeps(s, Tick(script));
      tick := (tick + 1) % WRAP;
      AddWrap(s.now, 1);
      s := s.(now := s.now + 1);
      CheckTimers(script);
    }

    /** rt_timer_next_timeout_tick: the earliest deadline as a 32-bit tick. RT_TICK_MAX stands for an empty
        list, but is also what a deadline just before a wrap looks like. */
    method NextTimeout() returns (r: nat)
      requires Valid()
      ensures s.queue == [] ==> r == TICK_MAX
      ensures s.queue != [] ==> r == s.timer[s.queue[0]].due % WRAP
      ensures s.queue != [] ==> forall x :: x in s.queue ==> s.timer[s.queue[0]].due <= s.timer[x].due
      ensures r == TICK_MAX <==> s.queue == [] || s.timer[s.queue[0]].due % WRAP == TICK_MAX
    {
      hide RowsOf, LogInv;
      LastRow();
      if rows[levels - 1] == [] {
        return TICK_MAX;
      }
      var t := rows[levels - 1][0];
      forall x | x in s.queue ensures s.timer[t].due <= s.timer[x].due {
        if x != t { assert x in s.queue[1..]; }
      }
      r := cell[t].timeoutTick;
    }
  }

  lemma ApplyKeys(s: State, a: Action)
    requires QueueKnown(s)
    ensures Apply(s, a).timer.Keys == s.timer.Keys
  {
  }

  lemma {:induction false} ApplyAllKeys(s: State, actions: seq<Action>)
    requires QueueKnown(s)
    ensures ApplyAll(s, actions).timer.Keys == s.timer.Keys
    decreases |actions|
  {
    if actions != [] {
      ApplyKeys(s, actions[0]);
      ApplyAllKeys(Apply(s, actions[0]), actions[1..]);
    }
  }

  lemma ServedKeys(s: State, script: seq<seq<Action>>)
    requires QueueKnown(s) && s.queue != []
    ensures Served(s, script).timer.Keys == s.timer.Keys && s.queue[0] in s.timer
    ensures ApplyAll(Fire(s), if script == [] then [] else script[0]).timer.Keys == s.timer.Keys
  {
    ApplyAllKeys(Fire(s), if script == [] then [] else script[0]);
  }

  lemma AddWrap(a: nat, b: nat)
    ensures (a % WRAP + b) % WRAP == (a + b) % WRAP
  {
    SubMod(a + b, a / WRAP);
  }

  /** All queued deadlines can be compared with that of a timer which is put into the queue no later than `slack` ticks after it. */
  lemma LinkWindow(cell: map<Tid, Cell>, s: State, id: Tid, slack: nat)
    requires Inv(s) && Punctual(s, slack) && CellsOf(cell, s.timer) && id in s.timer && id !in s.queue && s.now <= s.timer[id].due + slack
    ensures (forall x :: x in s.queue ==> x in Linked(s, id)) && Sorted(Linked(s, id), s.queue)
    ensures InWindow(cell, Linked(s, id), s.queue, s.timer[id].due)
  {
    SortedSame(s.timer, Linked(s, id), s.queue);
  }

  lemma RowsInWindow(cell: map<Tid, Cell>, timer: map<Tid, Timer>, rows: seq<seq<Tid>>, q: seq<Tid>, height: map<Tid, nat>, levels: nat, due: nat)
    requires RowsOf(rows, q, height, levels) && InWindow(cell, timer, q, due) && (forall x :: x in q ==> x in timer) && Sorted(timer, q)
    ensures |rows| == levels && Searchable(timer, rows) && forall r :: 0 <= r < |rows| ==> InWindow(cell, timer, rows[r], due)
    ensures forall r, x :: 0 <= r < |rows| && x in rows[r] ==> x in timer
  {
    RowsSearchable(timer, rows, q, height, levels);
  }
}
