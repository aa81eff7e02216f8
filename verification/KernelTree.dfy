/** The kernel half every root shares, and mmu.c's splitblock and mmuuncache on it. */
module KernelTree {
  import opened Sv39
  import opened Lists
  import opened UserTree

  function KOwned(root: Page, tab: Tables): set<Page> { {root} + tab.Values }

  /** A tree of boot tables: level-1 entries may be 2 MB leaves, and every table hangs in one place. */
  ghost predicate BTree(mem: Mem, root: Page, tab: Tables) {
    && root in mem
    && (forall s :: s in tab ==> tab[s] in mem && tab[s] != root)
    && (forall s, s' :: s in tab && s' in tab && s != s' ==> tab[s] != tab[s'])
    && (forall s :: s in tab && s.Mid? ==> Top(s.x2) in tab)
    && (forall x2: Index :: Entry(mem, root, x2) == Link(tab, Top(x2)))
    && (forall x2: Index, x1: Index :: Top(x2) in tab ==>
          var e := Entry(mem, tab[Top(x2)], x1);
          if Mid(x2, x1) in tab then e == Next(tab[Mid(x2, x1)]) else e.Empty? || (e.Leaf? && Aligned(e.frame, 1)))
    && (forall x2: Index, x1: Index, x0: Index :: Mid(x2, x1) in tab ==>
          var e := Entry(mem, tab[Mid(x2, x1)], x0); e.Empty? || e.Leaf?)
  }

  /** The boot tree after mmulowdrop: nothing hangs from the low half. */
  ghost predicate KTree(mem: Mem, root: Page, tab: Tables) {
    BTree(mem, root, tab) && forall s :: s in tab && s.Top? ==> s.x2 >= 256
  }

  /** A root whose high half was copied from the boot root. */
  ghost predicate SharesHigh(mem: Mem, kroot: Page, r: Page) {
    forall x: Index :: x >= 256 ==> Entry(mem, r, x) == Entry(mem, kroot, x)
  }

  lemma SharedWalk(mem: Mem, kroot: Page, r: Page, v: Vpn)
    requires SharesHigh(mem, kroot, r) && !v.User()
    ensures Walk(mem, r, v) == Walk(mem, kroot, v)
  {
  }

  /** The entry that decides a kernel translation, and whether it is a 2 MB leaf. */
  function Deciding(mem: Mem, tab: Tables, v: Vpn): Pte {
    if Mid(v.x2, v.x1) in tab then Entry(mem, tab[Mid(v.x2, v.x1)], v.x0)
    else if Top(v.x2) in tab then
      match Entry(mem, tab[Top(v.x2)], v.x1)
      case Leaf(f, a) => Leaf(InBlock(f, v.x0), a)
      case _ => Empty
    else Empty
  }

  lemma WalkOnBTree(mem: Mem, root: Page, tab: Tables, v: Vpn)
    requires BTree(mem, root, tab)
    ensures Walk(mem, root, v) == match Deciding(mem, tab, v) case Leaf(f, a) => Maps(f, a) case _ => Fault
  {
    hide InBlock, Aligned;
  }

  /** Kernel translations depend on kernel table pages only. */
  lemma KernelFrame(mem: Mem, mem': Mem, root: Page, tab: Tables)
    requires KTree(mem, root, tab)
    requires forall q :: q in KOwned(root, tab) ==> q in mem' && mem'[q] == mem[q]
    ensures KTree(mem', root, tab)
    ensures forall v: Vpn :: Walk(mem', root, v) == Walk(mem, root, v)
  {
    hide InBlock, Aligned;
    forall s | s in tab ensures tab[s] in KOwned(root, tab) { assert tab[s] in tab.Values; }
    assert forall x: Index :: Entry(mem', root, x) == Entry(mem, root, x);
    assert forall s, x: Index :: s in tab ==> Entry(mem', tab[s], x) == Entry(mem, tab[s], x);
    assert KTree(mem', root, tab);
    forall v: Vpn ensures Walk(mem', root, v) == Walk(mem, root, v) {
      WalkOnBTree(mem, root, tab, v);
      WalkOnBTree(mem', root, tab, v);
    }
  }

  // ----- splitblock -----

  /** The 512 page leaves that replace a 2 MB leaf. */
  function SplitTable(f: Page, a: Attr): Table {
    seq(512, i requires 0 <= i < 512 => Leaf(InBlock(f, i), a))
  }

  datatype Split = Split(mem: Mem, tab: Tables, table: Option<Page>)

  /** l0 is what mallocalign returned; it is consulted only when a table is needed. */
  function SplitBlock(mem: Mem, root: Page, tab: Tables, v: Vpn, l0: Option<Page>): Split {
    match Entry(mem, root, v.x2)
    case Next(l1) => (
      match Entry(mem, l1, v.x1)
      case Next(t) => Split(mem, tab, Some(t))
      case Leaf(f, a) =>
        if l0.None? || l1 !in mem then Split(mem, tab, None)
        else Split(Store(mem[l0.value := SplitTable(f, a)], l1, v.x1, Next(l0.value)),
          tab[Mid(v.x2, v.x1) := l0.value], l0)
      case _ => Split(mem, tab, None))
    case _ => Split(mem, tab, None)
  }

  /** The memory change made when a 2 MB leaf is really split. */
  ghost predicate SplitAt(mem: Mem, mem': Mem, l1: Page, x1: Index, t: Page) {
    && Entry(mem, l1, x1).Leaf?
    && mem'.Keys == mem.Keys
    && var e := Entry(mem, l1, x1);
       forall q, x: Index :: Entry(mem', q, x) == (
         if q == l1 && x == x1 then Next(t)
         else if q == t then Leaf(InBlock(e.frame, x), e.attr)
         else Entry(mem, q, x))
  }

  lemma SplitAtKeeps(mem: Mem, mem': Mem, root: Page, tab: Tables, v: Vpn, t: Page)
    requires KTree(mem, root, tab)
    requires Top(v.x2) in tab && Mid(v.x2, v.x1) !in tab
    requires t in mem && t != root && (forall k :: k in tab ==> tab[k] != t)
    requires SplitAt(mem, mem', tab[Top(v.x2)], v.x1, t)
    ensures KTree(mem', root, tab[Mid(v.x2, v.x1) := t])
    ensures forall u: Vpn :: Deciding(mem', tab[Mid(v.x2, v.x1) := t], u) == Deciding(mem, tab, u)
  {
    SplitTree(mem, mem', root, tab, v, t);
    forall u: Vpn ensures Deciding(mem', tab[Mid(v.x2, v.x1) := t], u) == Deciding(mem, tab, u) {
      SplitDeciding(mem, mem', root, tab, v, t, u);
    }
    hide BTree, Deciding;
  }

  lemma SplitTree(mem: Mem, mem': Mem, root: Page, tab: Tables, v: Vpn, t: Page)
    requires BTree(mem, root, tab)
    requires Top(v.x2) in tab && Mid(v.x2, v.x1) !in tab
    requires t in mem && t != root && (forall k :: k in tab ==> tab[k] != t)
    requires SplitAt(mem, mem', tab[Top(v.x2)], v.x1, t)
    ensures BTree(mem', root, tab[Mid(v.x2, v.x1) := t])
  {
    hide InBlock, Aligned;
  }

  lemma SplitDeciding(mem: Mem, mem': Mem, root: Page, tab: Tables, v: Vpn, t: Page, u: Vpn)
    requires BTree(mem, root, tab)
    requires Top(v.x2) in tab && Mid(v.x2, v.x1) !in tab
    requires t in mem && t != root && (forall k :: k in tab ==> tab[k] != t)
    requires SplitAt(mem, mem', tab[Top(v.x2)], v.x1, t)
    ensures Deciding(mem', tab[Mid(v.x2, v.x1) := t], u) == Deciding(mem, tab, u)
  {
    hide InBlock, Aligned;
  }

  /** Splitting stores a table exactly when the entry is a 2 MB leaf and mallocalign gave a page. */
  lemma SplitCases(mem: Mem, root: Page, tab: Tables, v: Vpn, l0: Option<Page>)
    requires KTree(mem, root, tab)
    requires l0.Some? ==> l0.value in mem && l0.value !in KOwned(root, tab)
    ensures var s := SplitBlock(mem, root, tab, v, l0);
      if Top(v.x2) in tab && Mid(v.x2, v.x1) !in tab && Entry(mem, tab[Top(v.x2)], v.x1).Leaf? && l0.Some? then
        && SplitAt(mem, s.mem, tab[Top(v.x2)], v.x1, l0.value)
        && s.table == l0 && s.tab == tab[Mid(v.x2, v.x1) := l0.value]
        && (forall q :: q in mem && q != tab[Top(v.x2)] && q != l0.value ==> s.mem[q] == mem[q])
      else
        && s.mem == mem && s.tab == tab
        && s.table == if Mid(v.x2, v.x1) in tab then Some(tab[Mid(v.x2, v.x1)]) else None
  {
    hide InBlock, Aligned;
    if Top(v.x2) in tab {
      assert tab[Top(v.x2)] in tab.Values;
    }
  }

  /** splitblock keeps the tree, touches kernel tables only, and changes no translation. */
  lemma SplitKeeps(mem: Mem, root: Page, tab: Tables, v: Vpn, l0: Option<Page>)
    requires KTree(mem, root, tab)
    requires l0.Some? ==> l0.value in mem && l0.value !in KOwned(root, tab)
    ensures var s := SplitBlock(mem, root, tab, v, l0);
      && KTree(s.mem, root, s.tab)
      && s.mem.Keys == mem.Keys
      && (s.table.None? ==> s.mem == mem && s.tab == tab)
      && (s.table.Some? ==> Mid(v.x2, v.x1) in s.tab && s.tab[Mid(v.x2, v.x1)] == s.table.value)
      && (Mid(v.x2, v.x1) in tab ==> s.mem == mem && s.tab == tab && s.table.Some?)
      && (s.table.Some? <==> Mid(v.x2, v.x1) in tab || (Walk(mem, root, v).Maps? && l0.Some?))
      && (forall u: Vpn :: Walk(s.mem, root, u) == Walk(mem, root, u))
  {
    hide InBlock, Aligned, SplitBlock;
    SplitCases(mem, root, tab, v, l0);
    var s := SplitBlock(mem, root, tab, v, l0);
    if s.tab != tab {
      forall k | k in tab ensures tab[k] != l0.value { assert tab[k] in tab.Values; }
      SplitAtKeeps(mem, s.mem, root, tab, v, l0.value);
    }
    forall u: Vpn ensures Walk(s.mem, root, u) == Walk(mem, root, u) {
      WalkOnBTree(mem, root, tab, u);
      WalkOnBTree(s.mem, root, s.tab, u);
    }
    WalkOnBTree(mem, root, tab, v);
  }

  lemma SplitPages(mem: Mem, root: Page, tab: Tables, v: Vpn, l0: Option<Page>)
    requires KTree(mem, root, tab)
    requires l0.Some? ==> l0.value in mem && l0.value !in KOwned(root, tab)
    ensures var s := SplitBlock(mem, root, tab, v, l0);
      && KOwned(root, s.tab) <= KOwned(root, tab) + (if l0.Some? then {l0.value} else {})
      && KOwned(root, tab) <= KOwned(root, s.tab)
      && (forall q :: q in mem && q !in KOwned(root, s.tab) ==> s.mem[q] == mem[q])
      && (forall x: Index :: Entry(s.mem, root, x) == Entry(mem, root, x))
  {
    hide InBlock, Aligned, SplitBlock;
    SplitCases(mem, root, tab, v, l0);
    var s := SplitBlock(mem, root, tab, v, l0);
    if s.tab != tab {
      var t := l0.value;
      forall q | q in tab.Values + {t} ensures q in s.tab.Values {
        if q == t { assert s.tab[Mid(v.x2, v.x1)] == t; }
        else { var k :| k in tab && tab[k] == q; assert s.tab[k] == q; }
      }
      assert s.tab.Values == tab.Values + {t};
    }
  }

  // ----- mmuuncache -----

  function ClearC(e: Pte): Pte {
    if e.Leaf? then e.(attr := e.attr.(cacheable := false)) else e
  }

  function ClearCX(x: Xlat): Xlat {
    if x.Maps? then x.(attr := x.attr.(cacheable := false)) else x
  }

  /** Clear C in n entries of a level-0 table, from x0 up. */
  function ClearRun(mem: Mem, t0: Page, x0: Index, n: nat): Mem
    requires t0 in mem
  {
    mem[t0 := seq(512, i requires 0 <= i < 512 => if x0 <= i < x0 + n then ClearC(mem[t0][i]) else mem[t0][i])]
  }

  predicate InRun(v: Vpn, x0: Index, n: nat, u: Vpn) {
    u.x2 == v.x2 && u.x1 == v.x1 && x0 <= u.x0 < x0 + n
  }

  /** mem' is mem with C cleared in the run. */
  ghost predicate Cleared(mem: Mem, mem': Mem, t0: Page, x0: Index, n: nat) {
    && mem'.Keys == mem.Keys
    && forall q, x: Index ::
         Entry(mem', q, x) == if q == t0 && x0 <= x < x0 + n then ClearC(Entry(mem, q, x)) else Entry(mem, q, x)
  }

  lemma ClearRunEntries(mem: Mem, t0: Page, x0: Index, n: nat)
    requires t0 in mem
    ensures Cleared(mem, ClearRun(mem, t0, x0, n), t0, x0, n)
  {
  }

  /** C goes from exactly the n pages above v; every other translation, and every other bit, stays. */
  lemma ClearRunKeeps(mem: Mem, root: Page, tab: Tables, v: Vpn, n: nat)
    requires KTree(mem, root, tab) && Mid(v.x2, v.x1) in tab && !v.User()
    ensures var mem' := ClearRun(mem, tab[Mid(v.x2, v.x1)], v.x0, n);
      && KTree(mem', root, tab)
      && (forall x: Index :: Entry(mem', root, x) == Entry(mem, root, x))
      && (forall u: Vpn :: Walk(mem', root, u) ==
            if InRun(v, v.x0, n, u) then ClearCX(Walk(mem, root, u)) else Walk(mem, root, u))
  {
    hide *;
    var t0 := tab[Mid(v.x2, v.x1)];
    InBTree(mem, root, tab, v);
    var mem' := ClearRun(mem, t0, v.x0, n);
    ClearRunEntries(mem, t0, v.x0, n);
    ClearTree(mem, mem', root, tab, v, n);
    forall u: Vpn ensures Walk(mem', root, u) ==
            if InRun(v, v.x0, n, u) then ClearCX(Walk(mem, root, u)) else Walk(mem, root, u) {
      WalkOnBTree(mem, root, tab, u);
      WalkOnBTree(mem', root, tab, u);
      ClearDeciding(mem, mem', root, tab, v, n, u);
      ClearedXlat(Deciding(mem, tab, u));
    }
  }

  lemma InBTree(mem: Mem, root: Page, tab: Tables, v: Vpn)
    requires KTree(mem, root, tab) && Mid(v.x2, v.x1) in tab
    ensures BTree(mem, root, tab) && tab[Mid(v.x2, v.x1)] in mem && tab[Mid(v.x2, v.x1)] != root
  {
    hide Aligned;
  }

  lemma ClearTree(mem: Mem, mem': Mem, root: Page, tab: Tables, v: Vpn, n: nat)
    requires KTree(mem, root, tab) && Mid(v.x2, v.x1) in tab && Cleared(mem, mem', tab[Mid(v.x2, v.x1)], v.x0, n)
    ensures KTree(mem', root, tab) && BTree(mem', root, tab)
    ensures forall x: Index :: Entry(mem', root, x) == Entry(mem, root, x)
  {
    hide Aligned, InBlock;
  }

  lemma ClearDeciding(mem: Mem, mem': Mem, root: Page, tab: Tables, v: Vpn, n: nat, u: Vpn)
    requires BTree(mem, root, tab) && Mid(v.x2, v.x1) in tab && Cleared(mem, mem', tab[Mid(v.x2, v.x1)], v.x0, n)
    ensures Deciding(mem', tab, u) == if InRun(v, v.x0, n, u) then ClearC(Deciding(mem, tab, u))
      else Deciding(mem, tab, u)
  {
    hide Aligned, InBlock, ClearC;
  }

  lemma ClearedXlat(e: Pte)
    ensures (match ClearC(e) case Leaf(f, a) => Maps(f, a) case _ => Fault)
            == ClearCX(match e case Leaf(f, a) => Maps(f, a) case _ => Fault)
  {
  }
}
