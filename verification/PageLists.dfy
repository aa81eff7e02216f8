/** struct Page's next links: the lists mmuused and mmufree as they lie in memory. */
module PageLists {
  import opened Sv39
  import opened Lists

  /** The Page structure of one physical page. */
  class PageRec {
    const pa: Page
    var next: PageRec?

    constructor (pa: Page)
      ensures this.pa == pa
    {
      this.pa, next := pa, null;
    }
  }

  type PageRecs = map<Page, PageRec>

  /** The next field of every Page structure. */
  type Nexts = map<Page, PageRec?>

  ghost function NextsOf(pages: PageRecs): (n: Nexts)
    reads pages.Values`next
    ensures n.Keys == pages.Keys
  {
    map p | p in pages :: pages[p].next
  }

  ghost predicate Named(pages: PageRecs) { forall p :: p in pages ==> pages[p].pa == p }

  /** The k-th record of s, or nil after the last. */
  function RecAt(pages: PageRecs, s: seq<Page>, k: nat): PageRec? {
    if k < |s| && s[k] in pages then pages[s[k]] else null
  }

  /** From head, the next fields lead through the records of s, in order, to nil. */
  ghost predicate Chain(pages: PageRecs, next: Nexts, head: PageRec?, s: seq<Page>) {
    && (forall k :: 0 <= k < |s| ==> s[k] in pages && s[k] in next)
    && head == RecAt(pages, s, 0)
    && forall k :: 0 <= k < |s| ==> next[s[k]] == RecAt(pages, s, k + 1)
  }

  /** pg->next = to */
  method SetNext(pages: PageRecs, pg: PageRec, to: PageRec?)
    requires Named(pages) && pg.pa in pages && pages[pg.pa] == pg
    modifies pg`next
    ensures NextsOf(pages) == old(NextsOf(pages))[pg.pa := to]
  {
    pg.next := to;
    assert forall q :: q in pages && q != pg.pa ==> pages[q] != pg;
  }

  lemma ChainHead(pages: PageRecs, next: Nexts, head: PageRec?, s: seq<Page>)
    requires Named(pages) && Chain(pages, next, head, s)
    ensures head == null <==> s == []
    ensures head != null ==> s[0] in pages && s[0] in next && head == pages[s[0]] && head.pa == s[0]
    ensures head != null ==> pages[head.pa] == head && head in pages.Values && Chain(pages, next, next[s[0]], s[1..])
  {
    if s != [] {
      assert forall k :: 0 <= k < |s| - 1 ==> s[1..][k] == s[k + 1];
    }
  }

  lemma ChainNil(pages: PageRecs, next: Nexts)
    ensures Chain(pages, next, null, [])
  {
  }

  /** A record stored in front of a list it is not on. */
  lemma ChainPush(pages: PageRecs, next: Nexts, pg: PageRec, head: PageRec?, s: seq<Page>)
    requires pg.pa in pages && pages[pg.pa] == pg && Chain(pages, next, head, s) && pg.pa !in s
    ensures Chain(pages, next[pg.pa := head], pg, [pg.pa] + s)
  {
    var t := [pg.pa] + s;
    forall k | 0 <= k < |t| ensures t[k] in pages && next[pg.pa := head][t[k]] == RecAt(pages, t, k + 1) {
      if k > 0 { assert t[k] == s[k - 1]; }
    }
  }

  /** Storing into a record that is not on a list leaves the list as it was. */
  lemma ChainKept(pages: PageRecs, next: Nexts, head: PageRec?, s: seq<Page>, p: Page, to: PageRec?)
    requires Chain(pages, next, head, s) && p !in s
    ensures Chain(pages, next[p := to], head, s)
  {
  }

  lemma NextOf(pages: PageRecs, p: Page)
    requires p in pages
    ensures p in NextsOf(pages) && NextsOf(pages)[p] == pages[p].next
  {
  }

  // ----- every process's two lists -----

  /** A process's list heads, and the pages they link. */
  datatype Heads = Heads(mmuused: PageRec?, mmufree: PageRec?, used: seq<Page>, free: seq<Page>)

  function Listed(h: Heads): seq<Page> { h.used + h.free }

  ghost predicate Chained(pages: PageRecs, next: Nexts, h: Heads) {
    Chain(pages, next, h.mmuused, h.used) && Chain(pages, next, h.mmufree, h.free)
  }

  ghost predicate AllLinked(pages: PageRecs, next: Nexts, hs: map<nat, Heads>) {
    Named(pages) && next.Keys == pages.Keys && forall i :: i in hs ==> Chained(pages, next, hs[i])
  }

  /** No page is on two lists, or twice on one. */
  ghost predicate AllApart(hs: map<nat, Heads>) {
    && (forall i :: i in hs ==> Distinct(Listed(hs[i])))
    && (forall i, j :: i in hs && j in hs && i != j ==> Elems(Listed(hs[i])) !! Elems(Listed(hs[j])))
  }

  /** A store to a record on no other process's list leaves those lists right. */
  lemma OthersKept(pages: PageRecs, next: Nexts, hs: map<nat, Heads>, i: nat, p: Page, to: PageRec?, h: Heads)
    requires AllLinked(pages, next, hs) && p in pages && i in hs
    requires forall j :: j in hs && j != i ==> p !in Listed(hs[j])
    requires Chained(pages, next[p := to], h)
    ensures AllLinked(pages, next[p := to], hs[i := h])
  {
    forall j | j in hs && j != i ensures Chained(pages, next[p := to], hs[j]) {
      ChainKept(pages, next, hs[j].mmuused, hs[j].used, p, to);
      ChainKept(pages, next, hs[j].mmufree, hs[j].free, p, to);
    }
    hide Chain, Named, Listed;
  }

  /** What the heads say: nil for an empty list, else the record of its first page. */
  lemma HeadsSay(pages: PageRecs, next: Nexts, hs: map<nat, Heads>, i: nat)
    requires AllLinked(pages, next, hs) && i in hs
    ensures var h := hs[i];
      && (h.mmufree == null <==> h.free == []) && (h.mmuused == null <==> h.used == [])
      && (h.mmufree != null ==>
            h.mmufree in pages.Values && h.mmufree.pa == h.free[0] && h.free[0] in pages
              && pages[h.free[0]] == h.mmufree)
  {
    assert Chained(pages, next, hs[i]);
    hide Chain;
    ChainHead(pages, next, hs[i].mmufree, hs[i].free);
    ChainHead(pages, next, hs[i].mmuused, hs[i].used);
  }

  /** The head of mmufree, moved to mmuused. */
  lemma PopLinks(pages: PageRecs, next: Nexts, hs: map<nat, Heads>, i: nat)
    requires AllLinked(pages, next, hs) && AllApart(hs) && i in hs && hs[i].mmufree != null
    ensures var h := hs[i];
      && h.free != [] && h.free[0] in next
      && AllLinked(pages, next[h.free[0] := h.mmuused],
          hs[i := Heads(h.mmufree, next[h.free[0]], [h.free[0]] + h.used, h.free[1..])])
  {
    HeadsSay(pages, next, hs, i);
    var h, p := hs[i], hs[i].free[0];
    assert Chained(pages, next, h);
    ListApart(hs, i);
    hide Chain;
    ChainHead(pages, next, h.mmufree, h.free);
    ChainKept(pages, next, next[p], h.free[1..], p, h.mmuused);
    ChainPush(pages, next, h.mmufree, h.mmuused, h.used);
    OthersKept(pages, next, hs, i, p, h.mmuused, Heads(h.mmufree, next[p], [p] + h.used, h.free[1..]));
  }

  lemma ListApart(hs: map<nat, Heads>, i: nat)
    requires AllApart(hs) && i in hs && hs[i].free != []
    ensures var h := hs[i]; h.free[0] !in h.free[1..] && h.free[0] !in h.used
    ensures forall j :: j in hs && j != i ==> hs[i].free[0] !in Listed(hs[j])
  {
    var h := hs[i];
    var s := Listed(h);
    assert Distinct(s) && s[|h.used|] == h.free[0];
    assert forall k :: 0 <= k < |h.used| ==> s[k] == h.used[k];
    assert forall k :: 0 <= k < |h.free[1..]| ==> s[|h.used| + 1 + k] == h.free[1..][k];
    assert h.free[0] in Elems(s);
  }

  /** A page on no list, pushed onto mmufree. */
  lemma PushLinks(pages: PageRecs, next: Nexts, hs: map<nat, Heads>, i: nat, rec: PageRec)
    requires AllLinked(pages, next, hs) && i in hs && rec.pa in pages && pages[rec.pa] == rec
    requires forall j :: j in hs ==> rec.pa !in Listed(hs[j])
    ensures AllLinked(pages, next[rec.pa := hs[i].mmufree],
      hs[i := Heads(hs[i].mmuused, rec, hs[i].used, [rec.pa] + hs[i].free)])
  {
    var h := hs[i];
    assert Chained(pages, next, h) && rec.pa !in Listed(h);
    hide Chain;
    ChainKept(pages, next, h.mmuused, h.used, rec.pa, h.mmufree);
    ChainPush(pages, next, rec, h.mmufree, h.free);
    OthersKept(pages, next, hs, i, rec.pa, h.mmufree, h.(mmufree := rec, free := [rec.pa] + h.free));
  }

  /** The whole of mmufree, taken off. */
  lemma EmptyKeeps(pages: PageRecs, next: Nexts, hs: map<nat, Heads>, i: nat)
    requires AllLinked(pages, next, hs) && i in hs
    ensures Chain(pages, next, hs[i].mmufree, hs[i].free)
    ensures AllLinked(pages, next, hs[i := Heads(hs[i].mmuused, null, hs[i].used, [])])
  {
    assert Chained(pages, next, hs[i]);
    ChainNil(pages, next);
    hide Chain, Named;
  }

  // ----- mmufree's loop -----

  /** pg leads through rest, still to be moved; with mmufree's pages these are apart from every other list. */
  ghost predicate Splicing(pages: PageRecs, next: Nexts, hs: map<nat, Heads>, i: nat, pg: PageRec?, rest: seq<Page>)
    requires i in hs
  {
    AllLinked(pages, next, hs[i := Moved(hs[i], pg, rest)]) && AllApart(hs[i := Moved(hs[i], pg, rest)])
  }

  /** The list heads with what is left of mmuused in its place. */
  function Moved(h: Heads, pg: PageRec?, rest: seq<Page>): Heads { h.(mmuused := pg, used := rest) }

  lemma SpliceTurns(pages: PageRecs, next: Nexts, hs: map<nat, Heads>, i: nat, pg: PageRec, rest: seq<Page>)
    requires i in hs && Splicing(pages, next, hs, i, pg, rest)
    ensures rest != [] && rest[0] == pg.pa && pg.pa in pages && pages[pg.pa] == pg && pg.pa in next
      && pg in pages.Values
    ensures var h := Heads(hs[i].mmuused, pg, hs[i].used, [pg.pa] + hs[i].free);
      Splicing(pages, next[pg.pa := hs[i].mmufree], hs[i := h], i, next[pg.pa], rest[1..])
  {
    var gs := hs[i := Moved(hs[i], pg, rest)];
    var h := Heads(hs[i].mmuused, pg, hs[i].used, [pg.pa] + hs[i].free);
    assert Chained(pages, next, gs[i]);
    ChainHead(pages, next, pg, rest);
    hide Chain;
    RestApart(gs, i);
    ChainKept(pages, next, next[pg.pa], rest[1..], pg.pa, hs[i].mmufree);
    ChainPush(pages, next, pg, hs[i].mmufree, hs[i].free);
    OthersKept(pages, next, gs, i, pg.pa, hs[i].mmufree, Moved(h, next[pg.pa], rest[1..]));
    hide Chained, Distinct, AllApart;
    assert gs[i := Moved(h, next[pg.pa], rest[1..])] == hs[i := h][i := Moved(h, next[pg.pa], rest[1..])];
    StillApart(gs, i, Moved(h, next[pg.pa], rest[1..]));
  }

  lemma RestApart(hs: map<nat, Heads>, i: nat)
    requires AllApart(hs) && i in hs && hs[i].used != []
    ensures var h := hs[i];
      && h.used[0] !in h.used[1..] && h.used[0] !in h.free && Distinct(h.used[1..] + ([h.used[0]] + h.free))
      && Elems(h.used[1..] + ([h.used[0]] + h.free)) == Elems(Listed(h))
    ensures forall j :: j in hs && j != i ==> hs[i].used[0] !in Listed(hs[j])
  {
    MoveHead(hs[i].used, hs[i].free);
    assert hs[i].used[0] in Elems(Listed(hs[i]));
  }

  lemma StillApart(hs: map<nat, Heads>, i: nat, h: Heads)
    requires AllApart(hs) && i in hs && Distinct(Listed(h)) && Elems(Listed(h)) == Elems(Listed(hs[i]))
    ensures AllApart(hs[i := h])
  {
    hide Distinct, Listed, Elems;
  }

  lemma SpliceStarts(pages: PageRecs, next: Nexts, hs: map<nat, Heads>, i: nat)
    requires AllLinked(pages, next, hs) && AllApart(hs) && i in hs
    ensures Splicing(pages, next, hs, i, hs[i].mmuused, hs[i].used)
  {
    assert hs[i := Moved(hs[i], hs[i].mmuused, hs[i].used)] == hs;
  }

  lemma SpliceEnds(pages: PageRecs, next: Nexts, hs: map<nat, Heads>, i: nat, rest: seq<Page>)
    requires i in hs && Splicing(pages, next, hs, i, null, rest)
    ensures rest == [] && AllLinked(pages, next, hs[i := Heads(null, hs[i].mmufree, [], hs[i].free)])
  {
    assert Chained(pages, next, hs[i := Moved(hs[i], null, rest)][i]);
    ChainHead(pages, next, null, rest);
  }

  /** Moving the head of one sequence to the front of another. */
  lemma MoveHead(rest: seq<Page>, free: seq<Page>)
    requires rest != [] && Distinct(rest + free)
    ensures rest[0] !in rest[1..] && rest[0] !in free && Distinct(rest[1..] + ([rest[0]] + free))
    ensures Elems(rest[1..] + ([rest[0]] + free)) == Elems(rest + free)
  {
    var a, b := rest + free, rest[1..] + ([rest[0]] + free);
    var n := |rest| - 1;
    assert a[0] == rest[0] && Distinct(a);
    assert forall k :: 0 <= k < |b| ==> b[k] == if k < n then a[k + 1] else if k == n then a[0] else a[k];
    assert forall k :: 0 <= k < n ==> rest[1..][k] == a[k + 1];
    assert forall k :: 0 <= k < |free| ==> free[k] == a[|rest| + k];
    forall x | x in Elems(a) ensures x in Elems(b) {
      var k :| 0 <= k < |a| && a[k] == x;
      assert x == if k == 0 then b[n] else if k <= n then b[k - 1] else b[k];
    }
  }

  lemma ReversedTurn(rest: seq<Page>, free: seq<Page>)
    requires rest != []
    ensures Reversed(rest) + free == Reversed(rest[1..]) + ([rest[0]] + free)
  {
  }
}
