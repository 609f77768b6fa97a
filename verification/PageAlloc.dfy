/** The page allocator under the slab heap (src/slab.c). A page is known by its number. */
module PageAlloc {

  type Page = int

  /** A stretch of free pages. */
  datatype Run = Run(start: Page, n: nat)

  predicate InRange(p: Page, s: Page, n: nat) {
    s <= p < s + n
  }

  ghost function Range(s: Page, n: nat): set<Page> {
    set p | s <= p < s + n && InRange(p, s, n)
  }

  lemma InTheRange(p: Page, s: Page, n: nat)
    ensures p in Range(s, n) <==> s <= p < s + n
  {
    if s <= p < s + n { assert InRange(p, s, n); }
  }

  lemma RangeJoin(s: Page, a: nat, b: nat)
    ensures Range(s, a) + Range(s + a, b) == Range(s, a + b) && Range(s, a) !! Range(s + a, b)
  {
  }

  ghost function Pages(rs: seq<Run>): set<Page> {
    if rs == [] then {} else Range(rs[0].start, rs[0].n) + Pages(rs[1..])
  }

  /** Between neighbours at least one page is not free. */
  ghost predicate Gap(rs: seq<Run>, i: nat, j: nat)
    requires i < |rs| && j < |rs|
  {
    rs[i].start + rs[i].n < rs[j].start
  }

  /** In order of address, without empty, overlapping or touching runs. */
  ghost predicate Canonical(rs: seq<Run>) {
    && (forall i :: 0 <= i < |rs| ==> rs[i].n > 0)
    && (forall i, j :: 0 <= i < j < |rs| ==> Gap(rs, i, j))
  }

  // ----- canonical lists -----

  lemma Tail(rs: seq<Run>)
    requires Canonical(rs) && rs != []
    ensures Canonical(rs[1..])
  {
    var t := rs[1..];
    forall i, j | 0 <= i < j < |t| ensures Gap(t, i, j) { assert Gap(rs, i + 1, j + 1); }
  }

  lemma Cons(r: Run, rs: seq<Run>)
    requires Canonical(rs) && r.n > 0 && (rs != [] ==> r.start + r.n < rs[0].start)
    ensures Canonical([r] + rs) && Pages([r] + rs) == Range(r.start, r.n) + Pages(rs)
  {
    var c := [r] + rs;
    assert c[1..] == rs;
    forall i, j | 0 <= i < j < |c| ensures Gap(c, i, j) {
      if i > 0 { assert Gap(rs, i - 1, j - 1); } else if j > 1 { assert Gap(rs, 0, j - 1); }
    }
  }

  /** All pages of the rest lie behind the page that ends the first run. */
  lemma {:induction false} Beyond(rs: seq<Run>, a: Page)
    requires Canonical(rs) && (rs != [] ==> a < rs[0].start)
    ensures forall p :: p in Pages(rs) ==> p > a
    decreases |rs|
  {
    if rs != [] {
      Tail(rs);
      if |rs| > 1 { assert Gap(rs, 0, 1); }
      Beyond(rs[1..], a);
    }
  }

  lemma First(rs: seq<Run>)
    requires Canonical(rs) && rs != []
    ensures forall p :: p in Pages(rs[1..]) ==> p > rs[0].start + rs[0].n
    ensures rs[0].start in Pages(rs) && rs[0].start + rs[0].n !in Pages(rs) && forall p :: p in Pages(rs) ==> p >= rs[0].start
  {
    Tail(rs);
    if |rs| > 1 { assert Gap(rs, 0, 1); }
    Beyond(rs[1..], rs[0].start + rs[0].n);
  }

  /** A set of free pages has one canonical list. */
  lemma {:induction false} CanonicalIsUnique(rs: seq<Run>, qs: seq<Run>)
    requires Canonical(rs) && Canonical(qs) && Pages(rs) == Pages(qs)
    ensures rs == qs
    decreases |rs|
  {
    if rs == [] || qs == [] {
      if rs != [] { First(rs); }
      if qs != [] { First(qs); }
    } else {
      First(rs);
      First(qs);
      var r, q := rs[0], qs[0];
      assert r.start == q.start;
      assert !InRange(r.start + r.n, q.start, q.n) && !InRange(q.start + q.n, r.start, r.n);
      assert Pages(rs[1..]) == Pages(rs) - Range(r.start, r.n);
      assert Pages(qs[1..]) == Pages(qs) - Range(q.start, q.n);
      Tail(rs);
      Tail(qs);
      CanonicalIsUnique(rs[1..], qs[1..]);
    }
  }

  // ----- allocation and release -----

  /** First fit: the index of the first run with at least `n` pages, or the length of the list. */
  function Fit(rs: seq<Run>, n: nat): (k: nat)
    ensures k <= |rs| && (forall i :: 0 <= i < k ==> rs[i].n < n) && (k < |rs| ==> rs[k].n >= n)
  {
    if rs == [] || rs[0].n >= n then 0 else 1 + Fit(rs[1..], n)
  }

  /** The list once `n` pages have been cut from the front of run `k`. */
  function Cut(rs: seq<Run>, k: nat, n: nat): seq<Run>
    requires k < |rs| && rs[k].n >= n
  {
    if rs[k].n > n then rs[k := Run(rs[k].start + n, rs[k].n - n)] else rs[..k] + rs[k + 1..]
  }

  /** The list once the pages from `s` on have been put back. */
  function Freed(rs: seq<Run>, s: Page, n: nat): seq<Run> {
    if rs == [] then [Run(s, n)]
    else if rs[0].start + rs[0].n == s then
      if |rs| > 1 && s + n == rs[1].start then [Run(rs[0].start, rs[0].n + n + rs[1].n)] + rs[2..]
      else [Run(rs[0].start, rs[0].n + n)] + rs[1..]
    else if rs[0].start == s + n then [Run(s, rs[0].n + n)] + rs[1..]
    else if rs[0].start > s + n then [Run(s, n)] + rs
    else [rs[0]] + Freed(rs[1..], s, n)
  }

  lemma Minus(a: set<Page>, b: set<Page>, c: set<Page>)
    requires a !! b && forall p :: p in a ==> p !in c
    ensures a + b + c - a == b + c
  {
    forall p ensures p in a + b + c - a <==> p in b + c {
      assert p in a ==> p !in b && p !in c;
    }
  }

  lemma MinusRest(a: set<Page>, b: set<Page>, c: set<Page>)
    requires c <= b && forall p :: p in a ==> p !in b
    ensures a + b - c == a + (b - c)
  {
    forall p ensures p in a + b - c <==> p in a + (b - c) {
      assert p in c ==> p in b && p !in a;
    }
  }

  lemma CutSome(rs: seq<Run>, n: nat)
    requires Canonical(rs) && rs != [] && rs[0].n > n > 0
    ensures Canonical(Cut(rs, 0, n)) && Pages(Cut(rs, 0, n)) == Pages(rs) - Range(rs[0].start, n) && Range(rs[0].start, n) <= Pages(rs)
  {
    hide Canonical, Range, InRange;
    var r := rs[0];
    var a, b, c := Range(r.start, n), Range(r.start + n, r.n - n), Pages(rs[1..]);
    RangeJoin(r.start, n, r.n - n);
    assert Pages(rs) == a + b + c;
    assert Cut(rs, 0, n) == [Run(r.start + n, r.n - n)] + rs[1..];
    First(rs);
    RangeBefore(rs, n);
    Minus(a, b, c);
    Tail(rs);
    FirstGap(rs);
    Cons(Run(r.start + n, r.n - n), rs[1..]);
  }

  lemma FirstGap(rs: seq<Run>)
    requires Canonical(rs) && rs != []
    ensures rs[0].n > 0 && (|rs| > 1 ==> rs[0].start + rs[0].n < rs[1].start && rs[1].n > 0)
  {
    assert |rs| > 1 ==> Gap(rs, 0, 1);
  }

  lemma RangeBefore(rs: seq<Run>, n: nat)
    requires Canonical(rs) && rs != [] && n <= rs[0].n
    ensures forall p :: p in Range(rs[0].start, n) ==> p !in Pages(rs[1..])
  {
    First(rs);
  }

  lemma CutWhole(rs: seq<Run>, n: nat)
    requires Canonical(rs) && rs != [] && rs[0].n == n
    ensures Canonical(Cut(rs, 0, n)) && Pages(Cut(rs, 0, n)) == Pages(rs) - Range(rs[0].start, n) && Range(rs[0].start, n) <= Pages(rs)
  {
    Tail(rs);
    First(rs);
    Minus(Range(rs[0].start, n), {}, Pages(rs[1..]));
    assert Cut(rs, 0, n) == rs[1..];
  }

  /** Cutting takes exactly the pages handed out away and keeps the list canonical. */
  lemma {:induction false} CutIs(rs: seq<Run>, k: nat, n: nat)
    requires Canonical(rs) && k < |rs| && rs[k].n >= n > 0
    ensures Canonical(Cut(rs, k, n)) && Pages(Cut(rs, k, n)) == Pages(rs) - Range(rs[k].start, n) && Range(rs[k].start, n) <= Pages(rs)
    decreases k
  {
    hide Canonical, Range, InRange;
    if k == 0 {
      if rs[0].n > n { CutSome(rs, n); } else { CutWhole(rs, n); }
    } else {
      var r, t := rs[0], Cut(rs[1..], k - 1, n);
      Tail(rs);
      RangeBefore(rs, r.n);
      CutIs(rs[1..], k - 1, n);
      assert Cut(rs, k, n) == [r] + t;
      FirstGap(rs);
      if t != [] { CutFirst(rs[1..], k - 1, n); }
      Cons(r, t);
      MinusRest(Range(r.start, r.n), Pages(rs[1..]), Range(rs[k].start, n));
    }
  }

  lemma CutFirst(rs: seq<Run>, k: nat, n: nat)
    requires Canonical(rs) && k < |rs| && rs[k].n >= n > 0 && Cut(rs, k, n) != []
    ensures Cut(rs, k, n)[0].start >= rs[0].start
  {
    if |rs| > 1 { assert Gap(rs, 0, 1); }
  }

  ghost predicate FreedRight(rs: seq<Run>, s: Page, n: nat) {
    && Canonical(Freed(rs, s, n)) && Pages(Freed(rs, s, n)) == Pages(rs) + Range(s, n)
    && Freed(rs, s, n) != [] && Freed(rs, s, n)[0].start == if rs == [] || s < rs[0].start then s else rs[0].start
  }

  /** The pages go right behind the first run, and perhaps close the gap to the second one. */
  lemma FreedAtEnd(rs: seq<Run>, s: Page, n: nat)
    requires Canonical(rs) && n > 0 && Range(s, n) !! Pages(rs) && rs != [] && rs[0].start + rs[0].n == s
    ensures FreedRight(rs, s, n)
  {
    hide Canonical, Range, InRange;
    Tail(rs);
    var r := rs[0];
    RangeJoin(r.start, r.n, n);
    if |rs| > 1 {
      NextBehind(rs, s, n);
      if s + n == rs[1].start {
        FreedBetween(rs, s, n);
      } else {
        Cons(Run(r.start, r.n + n), rs[1..]);
      }
    } else {
      Cons(Run(r.start, r.n + n), rs[1..]);
    }
  }

  lemma NextBehind(rs: seq<Run>, s: Page, n: nat)
    requires Canonical(rs) && n > 0 && Range(s, n) !! Pages(rs) && |rs| > 1 && rs[0].start + rs[0].n == s
    ensures s + n <= rs[1].start
  {
    Tail(rs);
    First(rs[1..]);
    FirstGap(rs);
    var q := rs[1].start;
    assert q in Pages(rs);
    InTheRange(q, s, n);
  }

  lemma FreedBetween(rs: seq<Run>, s: Page, n: nat)
    requires Canonical(rs) && n > 0 && |rs| > 1 && rs[0].start + rs[0].n == s && s + n == rs[1].start
    ensures FreedRight(rs, s, n)
  {
    var r, q := rs[0], rs[1];
    Tail(rs);
    Tail(rs[1..]);
    assert rs[1..][1..] == rs[2..];
    if |rs| > 2 { assert Gap(rs, 1, 2); }
    RangeJoin(r.start, r.n, n);
    RangeJoin(r.start, r.n + n, q.n);
    Cons(Run(r.start, r.n + n + q.n), rs[2..]);
    assert Pages(rs) == Range(r.start, r.n) + (Range(q.start, q.n) + Pages(rs[2..]));
  }

  lemma FreedInFront(rs: seq<Run>, s: Page, n: nat)
    requires Canonical(rs) && n > 0 && rs != [] && rs[0].start >= s + n
    ensures FreedRight(rs, s, n)
  {
    if rs[0].start == s + n {
      Tail(rs);
      if |rs| > 1 { assert Gap(rs, 0, 1); }
      RangeJoin(s, n, rs[0].n);
      Cons(Run(s, rs[0].n + n), rs[1..]);
    } else {
      Cons(Run(s, n), rs);
    }
  }

  /** Pages that are not free and do not lie in front of the first run lie behind it. */
  lemma Behind(rs: seq<Run>, s: Page, n: nat)
    requires Canonical(rs) && n > 0 && Range(s, n) !! Pages(rs) && rs != [] && rs[0].start < s + n
    ensures s >= rs[0].start + rs[0].n && Range(s, n) !! Pages(rs[1..])
  {
    var r := rs[0];
    assert InRange(r.start, r.start, r.n) && r.start in Pages(rs);
    assert InRange(r.start, s, n) ==> r.start in Range(s, n);
    assert InRange(s, s, n) && s in Range(s, n);
    assert InRange(s, r.start, r.n) ==> s in Range(r.start, r.n);
  }

  /** Releasing adds exactly the pages given back and keeps the list canonical. */
  lemma {:induction false} FreedIs(rs: seq<Run>, s: Page, n: nat)
    requires Canonical(rs) && n > 0 && Range(s, n) !! Pages(rs)
    ensures FreedRight(rs, s, n)
    decreases |rs|
  {
    if rs == [] {
      Cons(Run(s, n), []);
      assert [Run(s, n)] + [] == [Run(s, n)];
    } else if rs[0].start >= s + n {
      FreedInFront(rs, s, n);
    } else {
      Behind(rs, s, n);
      if rs[0].start + rs[0].n == s {
        FreedAtEnd(rs, s, n);
      } else {
        Tail(rs);
        if |rs| > 1 { assert Gap(rs, 0, 1); }
        FreedIs(rs[1..], s, n);
        Cons(rs[0], Freed(rs[1..], s, n));
        assert Pages(rs) == Range(rs[0].start, rs[0].n) + Pages(rs[1..]);
      }
    }
  }

  /** Releasing what was just allocated restores the list exactly. */
  lemma AllocThenFree(rs: seq<Run>, k: nat, n: nat)
    requires Canonical(rs) && k < |rs| && rs[k].n >= n > 0
    ensures Freed(Cut(rs, k, n), rs[k].start, n) == rs
  {
    CutIs(rs, k, n);
    FreedIs(Cut(rs, k, n), rs[k].start, n);
    CanonicalIsUnique(Freed(Cut(rs, k, n), rs[k].start, n), rs);
  }

  function FreedAll(rs: seq<Run>, fs: seq<Run>): seq<Run>
    decreases |fs|
  {
    if fs == [] then rs else FreedAll(Freed(rs, fs[0].start, fs[0].n), fs[1..])
  }

  /** Stretches that can be released one after the other. */
  ghost predicate Releasable(free: set<Page>, fs: seq<Run>)
    decreases |fs|
  {
    fs == [] || (fs[0].n > 0 && Range(fs[0].start, fs[0].n) !! free && Releasable(free + Range(fs[0].start, fs[0].n), fs[1..]))
  }

  lemma {:induction false} FreedAllIs(rs: seq<Run>, fs: seq<Run>)
    requires Canonical(rs) && Releasable(Pages(rs), fs)
    ensures Canonical(FreedAll(rs, fs)) && Pages(FreedAll(rs, fs)) == Pages(rs) + Pages(fs)
    decreases |fs|
  {
    if fs != [] {
      FreedIs(rs, fs[0].start, fs[0].n);
      FreedAllIs(Freed(rs, fs[0].start, fs[0].n), fs[1..]);
    }
  }

  /** The order in which pages are released, and the pieces in which they are, make no difference. */
  lemma OrderDoesNotMatter(rs: seq<Run>, fs: seq<Run>, gs: seq<Run>)
    requires Canonical(rs) && Releasable(Pages(rs), fs) && Releasable(Pages(rs), gs) && Pages(fs) == Pages(gs)
    ensures FreedAll(rs, fs) == FreedAll(rs, gs)
  {
    FreedAllIs(rs, fs);
    FreedAllIs(rs, gs);
    CanonicalIsUnique(FreedAll(rs, fs), FreedAll(rs, gs));
  }

  // ----- the list in memory -----

  const NULL: Page := -1

  ghost function StartAt(rs: seq<Run>, i: nat): Page {
    if i < |rs| then rs[i].start else NULL
  }

  /** The header in the first page of run `i`. */
  ghost predicate Header(next: map<Page, Page>, page: map<Page, nat>, rs: seq<Run>, i: nat)
    requires i < |rs|
  {
    && rs[i].start in next && rs[i].start in page && rs[i].start >= 0
    && page[rs[i].start] == rs[i].n && next[rs[i].start] == StartAt(rs, i + 1)
  }

  ghost predicate Listed(next: map<Page, Page>, page: map<Page, nat>, head: Page, rs: seq<Run>) {
    head == StartAt(rs, 0) && forall i :: 0 <= i < |rs| ==> Header(next, page, rs, i)
  }

  lemma StartsDiffer(rs: seq<Run>, i: nat, j: nat)
    requires Canonical(rs) && i < |rs| && j < |rs| && i != j
    ensures rs[i].start != rs[j].start
  {
    assert Gap(rs, if i < j then i else j, if i < j then j else i);
  }

  lemma FitIs(rs: seq<Run>, n: nat, k: nat)
    requires k <= |rs| && (forall i :: 0 <= i < k ==> rs[i].n < n) && (k < |rs| ==> rs[k].n >= n)
    ensures Fit(rs, n) == k
  {
  }

  /** `link` is `*prev`: the head of the list in front of run 0, else the `next` of run `k - 1`, set to `to`. */
  ghost predicate Relinked(next: map<Page, Page>, head: Page, rs: seq<Run>, k: nat, to: Page, next': map<Page, Page>, head': Page)
    requires k <= |rs|
  {
    if k == 0 then head' == to && next' == next else head' == head && next' == next[rs[k - 1].start := to]
  }

  lemma CutListed(next: map<Page, Page>, page: map<Page, nat>, head: Page, rs: seq<Run>, k: nat, n: nat,
                  next': map<Page, Page>, page': map<Page, nat>, head': Page)
    requires Canonical(rs) && Listed(next, page, head, rs) && k < |rs| && rs[k].n >= n > 0
    requires rs[k].start in next
    requires var b := rs[k].start;
      if rs[k].n > n then Relinked(next[b + n := next[b]], head, rs, k, b + n, next', head') && page' == page[b + n := (rs[k].n - n) as nat]
      else Relinked(next, head, rs, k, next[b], next', head') && page' == page
    ensures Listed(next', page', head', Cut(rs, k, n))
  {
    var ts := Cut(rs, k, n);
    assert Header(next, page, rs, k);
    forall j | 0 <= j < |ts| ensures Header(next', page', ts, j) {
      var o := if j < k || rs[k].n > n then j else j + 1;
      assert Header(next, page, rs, o);
      if o != k {
        assert ts[j] == rs[o];
        assert rs[k].n > n ==> rs[o].start != rs[k].start + n by {
          if o < k { assert Gap(rs, o, k); } else { assert Gap(rs, k, o); }
        }
        if k > 0 && o != k - 1 { StartsDiffer(rs, o, k - 1); }
      } else if k > 0 {
        assert Gap(rs, k - 1, k);
      }
    }
  }

  /** The loop of rt_page_free goes on past this run. */
  predicate Passed(r: Run, s: Page, n: nat) {
    r.start + r.n != s && r.start != s + n && r.start <= s + n
  }

  lemma {:induction false} FreedSkips(rs: seq<Run>, s: Page, n: nat, k: nat)
    requires k <= |rs| && forall i :: 0 <= i < k ==> Passed(rs[i], s, n)
    ensures Freed(rs, s, n) == rs[..k] + Freed(rs[k..], s, n)
    decreases k
  {
    if k > 0 {
      FreedSkips(rs[1..], s, n, k - 1);
      assert rs[1..][k - 1..] == rs[k..] && rs[..k] == [rs[0]] + rs[1..][..k - 1];
    } else {
      assert rs[0..] == rs;
    }
  }

  lemma {:induction false} StartIn(rs: seq<Run>, i: nat)
    requires i < |rs| && rs[i].n > 0
    ensures rs[i].start in Pages(rs)
    decreases i
  {
    if i > 0 { StartIn(rs[1..], i - 1); } else { assert InRange(rs[0].start, rs[0].start, rs[0].n); }
  }

  lemma {:induction false} RunIn(rs: seq<Run>, i: nat, p: Page)
    requires i < |rs| && InRange(p, rs[i].start, rs[i].n)
    ensures p in Pages(rs)
    decreases i
  {
    if i > 0 { RunIn(rs[1..], i - 1, p); }
  }

  lemma NotInside(rs: seq<Run>, s: Page, n: nat, i: nat)
    requires n > 0 && Range(s, n) !! Pages(rs) && i < |rs|
    ensures !InRange(s, rs[i].start, rs[i].n)
  {
    assert InRange(s, s, n) && s in Range(s, n);
    if InRange(s, rs[i].start, rs[i].n) { RunIn(rs, i, s); }
  }

  /** No header is in the pages that are released. */
  lemma NotAmong(rs: seq<Run>, s: Page, n: nat)
    requires Canonical(rs) && n > 0 && Range(s, n) !! Pages(rs)
    ensures forall i :: 0 <= i < |rs| ==> rs[i].start != s
  {
    forall i | 0 <= i < |rs| ensures rs[i].start != s {
      StartIn(rs, i);
      assert InRange(s, s, n) && s in Range(s, n);
    }
  }

  /** Run `k` grows by the pages behind it. */
  lemma GrowListed(next: map<Page, Page>, page: map<Page, nat>, head: Page, rs: seq<Run>, s: Page, n: nat, k: nat)
    requires Canonical(rs) && Listed(next, page, head, rs) && k < |rs| && rs[k].start + rs[k].n == s
    requires (forall i :: 0 <= i < k ==> Passed(rs[i], s, n)) && (k + 1 < |rs| ==> s + n != rs[k + 1].start)
    ensures Listed(next, page[rs[k].start := rs[k].n + n], head, Freed(rs, s, n))
  {
    FreedSkips(rs, s, n, k);
    var ts, page' := rs[k := Run(rs[k].start, rs[k].n + n)], page[rs[k].start := rs[k].n + n];
    assert Freed(rs, s, n) == ts by {
      assert k + 1 < |rs| ==> rs[k..][1] == rs[k + 1];
      assert Freed(rs[k..], s, n) == [Run(rs[k].start, rs[k].n + n)] + rs[k..][1..];
    }
    forall j | 0 <= j < |ts| ensures Header(next, page', ts, j) {
      assert Header(next, page, rs, j);
      if j != k { StartsDiffer(rs, j, k); }
    }
  }

  lemma FreedJoins(rs: seq<Run>, s: Page, n: nat, k: nat)
    requires k + 1 < |rs| && rs[k].start + rs[k].n == s && s + n == rs[k + 1].start && forall i :: 0 <= i < k ==> Passed(rs[i], s, n)
    ensures Freed(rs, s, n) == rs[..k] + [Run(rs[k].start, rs[k].n + n + rs[k + 1].n)] + rs[k + 2..]
  {
    FreedSkips(rs, s, n, k);
    assert rs[k..][1] == rs[k + 1] && rs[k..][2..] == rs[k + 2..];
  }

  /** Run `k` grows by the pages behind it and by the run behind those. */
  lemma JoinListed(next: map<Page, Page>, page: map<Page, nat>, head: Page, rs: seq<Run>, s: Page, n: nat, k: nat)
    requires Canonical(rs) && Listed(next, page, head, rs) && k + 1 < |rs| && rs[k].start + rs[k].n == s && s + n == rs[k + 1].start
    requires (forall i :: 0 <= i < k ==> Passed(rs[i], s, n)) && rs[k + 1].start in next
    ensures Listed(next[rs[k].start := next[rs[k + 1].start]], page[rs[k].start := rs[k].n + n + rs[k + 1].n], head, Freed(rs, s, n))
  {
    hide Freed, Canonical;
    var r := Run(rs[k].start, rs[k].n + n + rs[k + 1].n);
    var ts, next', page' := rs[..k] + [r] + rs[k + 2..], next[r.start := next[rs[k + 1].start]], page[r.start := r.n];
    FreedJoins(rs, s, n, k);
    assert Header(next, page, rs, k + 1);
    forall j | 0 <= j < |ts| ensures Header(next', page', ts, j) {
      var o := if j <= k then j else j + 1;
      assert Header(next, page, rs, o);
      if o != k { StartsDiffer(rs, o, k); }
    }
  }

  lemma FreedPrepends(rs: seq<Run>, s: Page, n: nat, k: nat)
    requires Canonical(rs) && k < |rs| && rs[k].start == s + n && n > 0 && forall i :: 0 <= i < k ==> Passed(rs[i], s, n)
    ensures Freed(rs, s, n) == rs[k := Run(s, rs[k].n + n)]
  {
    hide Freed, Canonical;
    FreedSkips(rs, s, n, k);
    assert rs[k..][0] == rs[k] && rs[k..][1..] == rs[k + 1..];
    FreedPrependsFirst(rs[k..], s, n);
  }

  lemma FreedPrependsFirst(rs: seq<Run>, s: Page, n: nat)
    requires rs != [] && rs[0].start == s + n && n > 0
    ensures Freed(rs, s, n) == [Run(s, rs[0].n + n)] + rs[1..]
  {
  }

  lemma FreedInserts(rs: seq<Run>, s: Page, n: nat, k: nat)
    requires k <= |rs| && forall i :: 0 <= i < k ==> Passed(rs[i], s, n)
    requires k < |rs| ==> rs[k].start + rs[k].n != s && rs[k].start > s + n
    ensures Freed(rs, s, n) == rs[..k] + [Run(s, n)] + rs[k..]
  {
    FreedSkips(rs, s, n, k);
    assert Freed(rs[k..], s, n) == [Run(s, n)] + rs[k..];
  }

  /** The pages in front of run `k` are joined to it. */
  lemma PrependListed(next: map<Page, Page>, page: map<Page, nat>, head: Page, rs: seq<Run>, s: Page, n: nat, k: nat,
                      next': map<Page, Page>, head': Page)
    requires Canonical(rs) && Listed(next, page, head, rs) && k < |rs| && n > 0 && s >= 0 && Range(s, n) !! Pages(rs)
    requires rs[k].start == s + n && rs[k].start in next
    requires Relinked(next[s := next[rs[k].start]], head, rs, k, s, next', head')
    ensures Listed(next', page[s := rs[k].n + n], head', rs[k := Run(s, rs[k].n + n)])
  {
    NotAmong(rs, s, n);
    var ts, page' := rs[k := Run(s, rs[k].n + n)], page[s := rs[k].n + n];
    assert Header(next, page, rs, k);
    forall j | 0 <= j < |ts| ensures Header(next', page', ts, j) {
      assert Header(next, page, rs, j);
      if k > 0 && j != k - 1 { StartsDiffer(rs, j, k - 1); }
    }
  }

  /** The pages become a run of their own in front of run `k`, or at the end. */
  lemma InsertListed(next: map<Page, Page>, page: map<Page, nat>, head: Page, rs: seq<Run>, s: Page, n: nat, k: nat,
                     next': map<Page, Page>, head': Page)
    requires Canonical(rs) && Listed(next, page, head, rs) && k <= |rs| && n > 0 && s >= 0 && Range(s, n) !! Pages(rs)
    requires Relinked(next[s := StartAt(rs, k)], head, rs, k, s, next', head')
    ensures Listed(next', page[s := n], head', rs[..k] + [Run(s, n)] + rs[k..])
  {
    NotAmong(rs, s, n);
    var ts, page' := rs[..k] + [Run(s, n)] + rs[k..], page[s := n];
    forall j | 0 <= j < |ts| ensures Header(next', page', ts, j) {
      if j != k {
        var o := if j < k then j else j - 1;
        assert Header(next, page, rs, o) && ts[j] == rs[o];
        if k > 0 && o != k - 1 { StartsDiffer(rs, o, k - 1); }
      }
    }
  }

  /** rt_page_list with the headers kept in the free pages themselves. */
  class PageHeap {
    var head: Page
    var next: map<Page, Page>
    var page: map<Page, nat>
    ghost var runs: seq<Run>

    ghost predicate Valid()
      reads this
    {
      Canonical(runs) && Listed(next, page, head, runs)
    }

    /** rt_page_init: an empty list, to which all pages are released. */
    constructor (start: nat, n: nat)
      requires n > 0
      ensures Valid() && runs == [Run(start, n)]
    {
      head, next, page, runs := start, map[start := NULL], map[start := n], [Run(start, n)];
    }

    /** Stores through `prev`, which is NULL for the head of the list. */
    method SetLink(prev: Page, to: Page, ghost k: nat)
      requires k <= |runs| && if k == 0 then prev == NULL else prev == runs[k - 1].start != NULL
      modifies this`head, this`next
      ensures Relinked(old(next), old(head), runs, k, to, next, head)
    {
      if prev == NULL { head := to; } else { next := next[prev := to]; }
    }

    /** Takes `npages` from the front of run `k` at `b`. */
    method Take(b: Page, prev: Page, npages: nat, ghost k: nat)
      requires Valid() && k < |runs| && b == runs[k].start && runs[k].n >= npages > 0
      requires if k == 0 then prev == NULL else prev == runs[k - 1].start != NULL
      modifies this
      ensures Valid() && runs == Cut(old(runs), k, npages)
    {
      assert Header(next, page, runs, k);
      CutIs(runs, k, npages);
      if page[b] > npages {
        next := next[b + npages := next[b]];
        page := page[b + npages := page[b] - npages];
        SetLink(prev, b + npages, k);
      } else {
        SetLink(prev, next[b], k);
      }
      CutListed(old(next), old(page), old(head), runs, k, npages, next, page, head);
      runs := Cut(runs, k, npages);
    }

    /** rt_page_alloc. */
    method Alloc(npages: nat) returns (b: Page)
      requires Valid()
      modifies this
      ensures Valid()
      ensures npages == 0 || Fit(old(runs), npages) == |old(runs)| ==> b == NULL && runs == old(runs)
      ensures npages > 0 && Fit(old(runs), npages) < |old(runs)| ==>
        var k := Fit(old(runs), npages);
        b == old(runs)[k].start && runs == Cut(old(runs), k, npages)
      ensures b != NULL ==> Range(b, npages) <= Pages(old(runs)) && Pages(runs) == Pages(old(runs)) - Range(b, npages)
      ensures npages > 0 && b == NULL ==> forall i :: 0 <= i < |runs| ==> runs[i].n < npages
    {
      if npages == 0 { return NULL; }
      var prev := NULL;
      ghost var k: nat := 0;
      b := head;
      while b != NULL
        invariant Valid() && runs == old(runs) && k <= |runs| && b == StartAt(runs, k)
        invariant if k == 0 then prev == NULL else prev == runs[k - 1].start != NULL
        invariant forall i :: 0 <= i < k ==> runs[i].n < npages
        decreases |runs| - k
      {
        assert Header(next, page, runs, k);
        if page[b] >= npages {
          FitIs(runs, npages, k);
          CutIs(runs, k, npages);
          Take(b, prev, npages, k);
          return;
        }
        prev := b;
        b := next[b];
        k := k + 1;
      }
      assert k < |runs| ==> Header(next, page, runs, k);
      FitIs(runs, npages, k);
    }

    /** rt_page_free of pages that are not free. The assertion in the loop holds. */
    method Free(n: Page, npages: nat)
      requires Valid() && n >= 0 && npages > 0 && Range(n, npages) !! Pages(runs)
      modifies this
      ensures Valid() && runs == Freed(old(runs), n, npages) && Pages(runs) == Pages(old(runs)) + Range(n, npages)
    {
      FreedIs(runs, n, npages);
      var prev := NULL;
      ghost var k: nat := 0;
      var b := head;
      while b != NULL
        invariant Valid() && runs == old(runs) && k <= |runs| && b == StartAt(runs, k)
        invariant if k == 0 then prev == NULL else prev == runs[k - 1].start != NULL
        invariant forall i :: 0 <= i < k ==> Passed(runs[i], n, npages)
        invariant next == old(next) && page == old(page) && head == old(head)
        decreases |runs| - k
      {
        assert Header(next, page, runs, k);
        NotInside(runs, n, npages, k);
        assert b > n || b + page[b] <= n;
        if b + page[b] == n {
          Extend(b, npages, n, k);
          return;
        }
        if b == n + npages {
          Prepend(b, prev, n, npages, k);
          return;
        }
        if b > n + npages { break; }
        prev := b;
        b := next[b];
        k := k + 1;
      }
      assert k < |runs| ==> Header(next, page, runs, k);
      InsertRun(b, prev, n, npages, k);
    }

    /** The run at `b` begins right behind the pages. */
    method Prepend(b: Page, prev: Page, n: Page, npages: nat, ghost k: nat)
      requires Valid() && n >= 0 && npages > 0 && Range(n, npages) !! Pages(runs) && k < |runs| && b == runs[k].start == n + npages
      requires (if k == 0 then prev == NULL else prev == runs[k - 1].start != NULL) && forall i :: 0 <= i < k ==> Passed(runs[i], n, npages)
      modifies this
      ensures Valid() && runs == Freed(old(runs), n, npages)
    {
      FreedIs(runs, n, npages);
      assert Header(next, page, runs, k);
      NotInside(runs, n, npages, k);
      next := next[n := next[b]];
      page := page[n := page[b] + npages];
      SetLink(prev, n, k);
      FreedPrepends(runs, n, npages, k);
      PrependListed(old(next), old(page), old(head), runs, n, npages, k, next, head);
      runs := Freed(runs, n, npages);
    }

    /** The pages become a run of their own in front of the run at `b`, or at the end. */
    method InsertRun(b: Page, prev: Page, n: Page, npages: nat, ghost k: nat)
      requires Valid() && n >= 0 && npages > 0 && Range(n, npages) !! Pages(runs) && k <= |runs| && b == StartAt(runs, k)
      requires (if k == 0 then prev == NULL else prev == runs[k - 1].start != NULL) && forall i :: 0 <= i < k ==> Passed(runs[i], n, npages)
      requires k < |runs| ==> b > n + npages
      modifies this
      ensures Valid() && runs == Freed(old(runs), n, npages)
    {
      FreedIs(runs, n, npages);
      assert k < |runs| ==> Header(next, page, runs, k);
      page := page[n := npages];
      next := next[n := b];
      SetLink(prev, n, k);
      FreedInserts(runs, n, npages, k);
      InsertListed(old(next), old(page), old(head), runs, n, npages, k, next, head);
      runs := Freed(runs, n, npages);
    }

    /** The pages lie right behind the run at `b`. */
    method Extend(b: Page, npages: nat, ghost n: Page, ghost k: nat)
      requires Valid() && npages > 0 && Range(n, npages) !! Pages(runs)
      requires k < |runs| && b == runs[k].start && b + runs[k].n == n && forall i :: 0 <= i < k ==> Passed(runs[i], n, npages)
      modifies this
      ensures Valid() && runs == Freed(old(runs), n, npages)
    {
      FreedIs(runs, n, npages);
      assert Header(next, page, runs, k);
      assert k + 1 < |runs| ==> Header(next, page, runs, k + 1) && Gap(runs, k, k + 1);
      page := page[b := page[b] + npages];
      if b + page[b] == next[b] {
        page := page[b := page[b] + page[next[b]]];
        next := next[b := next[next[b]]];
        assert page == old(page)[b := runs[k].n + npages + runs[k + 1].n];
        JoinListed(old(next), old(page), head, runs, n, npages, k);
      } else {
        GrowListed(next, old(page), head, runs, n, npages, k);
      }
      runs := Freed(runs, n, npages);
    }
  }
}
