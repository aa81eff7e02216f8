/** The stores inside a step, and the fields each step leaves: what the code that runs the steps relies on. */
module StepParts {
  import opened Sv39
  import opened Lists
  import opened UserTree
  import opened KernelTree
  import opened ProcTables
  import opened Machine
  import opened Steps

  // ----- a page being filled -----

  /** mem with page pg holding T. */
  function With(mem: Mem, pg: Page, T: Table): Mem { mem[pg := T] }

  lemma WithIs(mem: Mem, pg: Page, T: Table)
    ensures With(mem, pg, T) == mem[pg := T]
  {
  }

  /** No walk from satp depends on what pg holds. */
  ghost predicate Unread(mem: Mem, pg: Page, satp: Option<Page>) {
    forall T: Table, v: Vpn :: WalkVia(With(mem, pg, T), satp, v) == WalkVia(mem, satp, v)
  }

  // ----- the stores inside mmuwalk, one at a time -----

  /** The entry a walk reads is the link its tree records. */
  lemma PathEntry(mem: Mem, p: Pmmu, t: Page, v: Vpn, l: nat)
    requires ProcOk(mem, p) && p.root.Some? && v.User() && 1 <= l <= 2 && OnPath(p, t, v, l)
    ensures t in mem && Entry(mem, t, Field(v, l)) == Link(p.tab, SlotAt(v, l))
    ensures SlotAt(v, l) in p.tab ==> OnPath(p, p.tab[SlotAt(v, l)], v, l - 1)
    ensures l == 1 ==> Top(v.x2) in p.tab
  {
  }

  /** Zeroing the free page, then hanging it: no walk changes at either store. */
  lemma HangStores(s: Sys, i: Pid, t: Page, v: Vpn, l: nat)
    requires Inv(s) && i in s.procs && v.User() && 1 <= l <= 2
    requires var p := s.procs[i]; p.root.Some? && OnPath(p, t, v, l) && SlotAt(v, l) !in p.tab && p.free != []
    ensures var p := s.procs[i];
      var pg := p.free[0];
      var s2 := Change(s, i, Hang(s.mem, t, Field(v, l), pg), Take(p, SlotAt(v, l)));
      && pg in s.mem && pg != t
      && Unread(s.mem, pg, s.satp)
      && Inv(s2) && (forall u: Vpn :: WalkVia(Hang(s.mem, t, Field(v, l), pg), s.satp, u) == WalkVia(s.mem, s.satp, u))
      && OnPath(Take(p, SlotAt(v, l)), pg, v, l - 1)
  {
    hide *;
    var p := s.procs[i];
    var pg := p.free[0];
    InvTables(s);
    ProcOkOf(s, i);
    FreeHead(s, i, t, v, l);
    FreeUnread(s, i, pg);
    PathEntry(s.mem, p, t, v, l);
    HangKeeps(s.mem, p, t, v, l);
    HangConfined(s, i, t, v, l);
    KeptParts(s.mem, p, Hang(s.mem, t, Field(v, l), pg), Take(p, SlotAt(v, l)));
    CurrentKeeps(s, i, Hang(s.mem, t, Field(v, l), pg), Take(p, SlotAt(v, l)));
  }

  lemma FreeHead(s: Sys, i: Pid, t: Page, v: Vpn, l: nat)
    requires Inv(s) && i in s.procs && 1 <= l <= 2
    requires var p := s.procs[i]; p.root.Some? && OnPath(p, t, v, l) && p.free != []
    ensures var pg := s.procs[i].free[0]; pg in s.mem && pg != t && pg in s.procs[i].free
  {
    var p := s.procs[i];
    assert ProcFits(s.mem, s.kroot, s.ktab, p);
    hide KTree, Tree, TlbOk, SatpOk;
    assert p.free[0] in Elems(p.free);
    if l == 1 { assert p.tab[Top(v.x2)] in p.tab.Values; }
  }

  lemma FreePage(s: Sys, i: Pid, pg: Page, T: Table)
    requires Inv(s) && i in s.procs && pg in s.procs[i].free
    ensures forall u: Vpn :: WalkVia(s.mem[pg := T], s.satp, u) == WalkVia(s.mem, s.satp, u)
  {
    var p := s.procs[i];
    var mem1 := s.mem[pg := T];
    assert ProcFits(s.mem, s.kroot, s.ktab, p);
    assert pg in Elems(p.free);
    FillFree(s.mem, p, pg, T);
    KOwnedInMem(s, s.kroot);
    assert forall q, x: Index :: q != pg ==> Entry(mem1, q, x) == Entry(s.mem, q, x);
    assert p.root.Some? ==> SharesHigh(mem1, s.kroot, p.root.value);
    assert Confined(s, i, mem1, p);
    hide ProcOk, KTree, Owned, Walk, TablesOk, SharesHigh;
    CurrentKeeps(s, i, mem1, p);
  }

  lemma FreeUnread(s: Sys, i: Pid, pg: Page)
    requires Inv(s) && i in s.procs && pg in s.procs[i].free
    ensures Unread(s.mem, pg, s.satp)
  {
    forall T: Table, u: Vpn ensures WalkVia(With(s.mem, pg, T), s.satp, u) == WalkVia(s.mem, s.satp, u) {
      hide *;
      FreePage(s, i, pg, T);
      WithIs(s.mem, pg, T);
    }
  }

  lemma FillFree(mem: Mem, p: Pmmu, pg: Page, T: Table)
    requires ProcOk(mem, p) && pg in Elems(p.free)
    ensures ProcOk(mem[pg := T], p)
    ensures forall u: Vpn :: LeafEntry(mem[pg := T], p.tab, u) == LeafEntry(mem, p.tab, u)
  {
    forall s | s in p.tab ensures p.tab[s] in Elems(p.used) { assert p.tab[s] in p.tab.Values; }
    if p.root.Some? {
      TreeFrame(mem, mem[pg := T], p.root.value, p.tab);
    }
  }

  lemma HangConfined(s: Sys, i: Pid, t: Page, v: Vpn, l: nat)
    requires TablesOk(s) && i in s.procs && 1 <= l <= 2
    requires s.procs[i].root.Some? && s.procs[i].free != [] && t in s.mem
    requires var p := s.procs[i];
             WalkKeeps(s.mem, p, Hang(s.mem, t, Field(v, l), p.free[0]), Take(p, SlotAt(v, l)))
    ensures var p := s.procs[i];
      var mem' := Hang(s.mem, t, Field(v, l), p.free[0]);
      Confined(s, i, mem', Take(p, SlotAt(v, l))) && SharesHigh(mem', s.kroot, p.root.value)
  {
    var p := s.procs[i];
    assert ProcFits(s.mem, s.kroot, s.ktab, p);
    KOwnedInMem(s, s.kroot);
    var mem' := Hang(s.mem, t, Field(v, l), p.free[0]);
    hide Hang, Tree, KTree;
    assert forall x: Index :: Entry(mem', s.kroot, x) == Entry(s.mem, s.kroot, x);
  }

  // ----- the parts of a step's outcome -----

  lemma ChangeParts(s: Sys, i: Pid, mem: Mem, p: Pmmu)
    ensures var s' := Change(s, i, mem, p);
      s'.mem == mem && s'.procs == s.procs[i := p] && s'.satp == s.satp && s'.kroot == s.kroot && s'.ktab == s.ktab
          && s'.tlb == s.tlb
  {
  }

  lemma TryEnabled(s: Sys, i: Pid, v: Vpn, m: Mapping)
    requires Inv(s) && i in s.procs && s.procs[i].root.Some? && v.User()
    ensures Enabled(s, Try(i, v, m)) && Inv(TryStep(s, i, v, m))
  {
    TryEffect(s, i, v, m);
    hide Inv;
  }

  lemma TryParts(s: Sys, i: Pid, v: Vpn, m: Mapping)
    requires Inv(s) && Enabled(s, Try(i, v, m))
    ensures var w := MmuWalk(s.mem, s.procs[i], v);
      var s' := TryStep(s, i, v, m);
      && Landed(s, Try(i, v, m)) == w.table.Some?
      && s'.procs == s.procs[i := w.p] && s'.satp == s.satp && s'.kroot == s.kroot && s'.ktab == s.ktab
      && (w.table.None? ==> s' == Change(s, i, w.mem, w.p))
      && (w.table.Some? ==>
            w.table.value in w.mem && s'.mem == Store(w.mem, w.table.value, v.x0, Leaf(m.frame, UserAttr(m))))
  {
    WalkConfined(s, i, v);
    hide MmuWalk, Inv, TablesOk;
  }

  lemma RootParts(s: Sys, i: Pid, pg: Page)
    requires Inv(s) && Enabled(s, RootAlloc(i, pg))
    ensures s.kroot in s.mem && pg in s.mem && pg != s.kroot
    ensures var s' := RootStep(s, i, pg);
      && Inv(s') && s'.mem == RootMem(s.mem, s.kroot, pg) && s'.procs == s.procs[i := RootProc(s.procs[i], pg)]
      && s'.satp == s.satp && s'.kroot == s.kroot && s'.ktab == s.ktab
      && forall v: Vpn :: WalkVia(s'.mem, s.satp, v) == WalkVia(s.mem, s.satp, v)
    ensures Unread(s.mem, pg, s.satp)
  {
    hide Inv, TablesOk, WalkVia, RootMem, RootProc;
    RootEffect(s, i, pg);
    NewUnread(s, pg);
    assert s.kroot in KOwned(s.kroot, s.ktab);
  }

  lemma NewUnread(s: Sys, pg: Page)
    requires Inv(s) && Unowned(s, pg)
    ensures Unread(s.mem, pg, s.satp)
  {
    hide *;
    UnreadIf(s.mem, pg, s.satp) by {
      forall T: Table, u: Vpn ensures WalkVia(With(s.mem, pg, T), s.satp, u) == WalkVia(s.mem, s.satp, u) {
        UnownedUnread(s, pg, T);
        WithIs(s.mem, pg, T);
      }
    }
  }

  lemma UnreadIf(mem: Mem, pg: Page, satp: Option<Page>)
    requires forall T: Table, v: Vpn :: WalkVia(With(mem, pg, T), satp, v) == WalkVia(mem, satp, v)
    ensures Unread(mem, pg, satp)
  {
    hide WalkVia, With;
  }

  lemma LoadParts(s: Sys, i: Pid)
    requires Inv(s) && Enabled(s, Load(i))
    ensures s.procs[i].satp == s.procs[i].root && s.procs[i].root.value in s.mem
    ensures var s' := LoadStep(s, i);
      && Inv(s') && s'.procs == s.procs && s'.mem == s.mem && s'.kroot == s.kroot && s'.ktab == s.ktab
      && s'.satp == s.procs[i].root
  {
    hide *;
    LoadNeeds(s, i);
    LoadEffect(s, i);
    ProcSatp(s, i);
    LoadIs(s, i);
  }

  lemma LoadNeeds(s: Sys, i: Pid)
    requires Enabled(s, Load(i))
    ensures i in s.procs && s.procs[i].root.Some?
  {
  }

  lemma LoadIs(s: Sys, i: Pid)
    requires i in s.procs
    ensures var s' := LoadStep(s, i); s'.kroot == s.kroot && s'.ktab == s.ktab
  {
  }

  lemma SwitchParts(s: Sys, i: Pid)
    requires Inv(s) && i in s.procs
    ensures s.procs[i].root.Some? ==> s.procs[i].root.value in s.mem && s.procs[i].satp == s.procs[i].root
    ensures var s' := SwitchStep(s, i);
      var p := s.procs[i];
      && Inv(s') && s'.procs == s.procs[i := Switched(p)] && s'.kroot == s.kroot && s'.ktab == s.ktab
      && s'.mem == (if p.root.Some? && p.newtlb then FreedMem(s.mem, p) else s.mem)
      && s'.satp == (if p.root.Some? then p.root else Some(s.kroot))
  {
    hide *;
    SwitchEffect(s, i);
    ProcSatp(s, i);
    SwitchIs(s, i);
  }

  lemma ProcSatp(s: Sys, i: Pid)
    requires Inv(s) && i in s.procs
    ensures s.procs[i].satp == s.procs[i].root && (s.procs[i].root.Some? ==> s.procs[i].root.value in s.mem)
  {
    assert ProcFits(s.mem, s.kroot, s.ktab, s.procs[i]);
    hide KTree, Tree, Owned;
  }

  lemma SwitchIs(s: Sys, i: Pid)
    requires i in s.procs && s.procs[i].satp == s.procs[i].root
    ensures var s' := SwitchStep(s, i);
      var p := s.procs[i];
      && s'.procs == s.procs[i := Switched(p)] && s'.kroot == s.kroot && s'.ktab == s.ktab
      && s'.mem == (if p.root.Some? && p.newtlb then FreedMem(s.mem, p) else s.mem)
      && s'.satp == (if p.root.Some? then p.root else Some(s.kroot))
  {
    hide FreedMem, FreedProc;
    if !s.procs[i].newtlb {
      assert s.procs[i := s.procs[i]] == s.procs;
    }
  }

  lemma ReleaseParts(s: Sys, i: Pid)
    requires Inv(s) && i in s.procs
    ensures var s' := ReleaseStep(s, i);
      && Inv(s') && s'.procs == s.procs[i := NO_TABLES.(newtlb := s.procs[i].newtlb)] && s'.kroot == s.kroot
          && s'.ktab == s.ktab
      && s'.mem == FreedMem(s.mem, s.procs[i]) && s'.satp == Some(s.kroot)
      && (forall v: Vpn :: WalkVia(s'.mem, Some(s.kroot), v) == WalkVia(s.mem, Some(s.kroot), v))
  {
    ReleaseEffect(s, i);
    hide Inv, TablesOk, Walk, FreedMem;
  }

  /** No walk from the boot root reads a process's root, whatever it holds. */
  lemma RootUnread(s: Sys, i: Pid)
    requires Inv(s) && i in s.procs && s.procs[i].root.Some?
    ensures Unread(s.mem, s.procs[i].root.value, Some(s.kroot))
  {
    assert ProcFits(s.mem, s.kroot, s.ktab, s.procs[i]);
    var r := s.procs[i].root.value;
    assert r in Owned(s.procs[i]);
    hide ProcFits, Inv, TablesOk, Owned, KTree, Walk;
    KOwnedAll(s);
    forall T: Table, v: Vpn ensures WalkVia(With(s.mem, r, T), Some(s.kroot), v) == WalkVia(s.mem, Some(s.kroot), v) {
      KernelFrame(s.mem, s.mem[r := T], s.kroot, s.ktab);
    }
  }

  lemma KOwnedAll(s: Sys)
    requires Inv(s)
    ensures KTree(s.mem, s.kroot, s.ktab) && forall q :: q in KOwned(s.kroot, s.ktab) ==> q in s.mem
  {
    forall q | q in KOwned(s.kroot, s.ktab) ensures q in s.mem { KOwnedInMem(s, q); }
    hide KTree, KOwned;
  }

  lemma OwnLists(s: Sys, i: Pid)
    requires Inv(s) && i in s.procs
    ensures Distinct(s.procs[i].used + s.procs[i].free)
    ensures Elems(s.procs[i].used + s.procs[i].free) <= Owned(s.procs[i])
  {
    assert ProcFits(s.mem, s.kroot, s.ktab, s.procs[i]);
    hide KTree, Tree, TlbOk, SatpOk;
    var p := s.procs[i];
    forall a, b | 0 <= a < b < |p.used + p.free| ensures (p.used + p.free)[a] != (p.used + p.free)[b] {
      if a < |p.used| <= b {
        assert (p.used + p.free)[a] in Elems(p.used) && (p.used + p.free)[b] in Elems(p.free);
      }
    }
  }

  lemma OwnApart(s: Sys, i: Pid, j: Pid)
    requires Inv(s) && i in s.procs && j in s.procs && i != j
    ensures Owned(s.procs[i]) !! Owned(s.procs[j])
  {
    hide KTree, ProcFits, TlbOk, SatpOk, Owned;
  }

  // ----- what is cached never steers a step -----

  predicate UpToTlb(s: Sys, t: Sys) {
    t.mem == s.mem && t.kroot == s.kroot && t.ktab == s.ktab && t.satp == s.satp && t.procs == s.procs
  }

  lemma EnabledUpToTlb(s: Sys, t: Sys, e: Event)
    requires UpToTlb(s, t) && Enabled(s, e)
    ensures Enabled(t, e)
  {
  }

  lemma SwitchUpToTlb(s: Sys, t: Sys, i: Pid)
    requires UpToTlb(s, t) && i in s.procs
    ensures UpToTlb(SwitchStep(s, i), SwitchStep(t, i))
  {
    hide FreedMem, FreedProc;
  }

  lemma StepUpToTlb(s: Sys, t: Sys, e: Event)
    requires UpToTlb(s, t) && Enabled(s, e) && s.kroot in s.mem
    ensures Enabled(t, e) && UpToTlb(Step(s, e), Step(t, e))
    ensures e.Try? ==> Landed(s, e) == Landed(t, e)
  {
    hide *;
    EnabledUpToTlb(s, t, e);
    if e.Switch? || e.Flush? {
      SwitchesUpToTlb(s, t, e);
    } else if e.Try? {
      TryUpToTlb(s, t, e);
    } else {
      OthersUpToTlb(s, t, e);
    }
  }

  lemma TryUpToTlb(s: Sys, t: Sys, e: Event)
    requires UpToTlb(s, t) && Enabled(s, e) && Enabled(t, e) && s.kroot in s.mem && e.Try?
    ensures UpToTlb(Step(s, e), Step(t, e)) && Landed(s, e) == Landed(t, e)
  {
    hide MmuWalk, Store, UserAttr;
  }

  lemma OthersUpToTlb(s: Sys, t: Sys, e: Event)
    requires UpToTlb(s, t) && Enabled(s, e) && Enabled(t, e) && s.kroot in s.mem
    requires !e.Switch? && !e.Flush? && !e.Try?
    ensures UpToTlb(Step(s, e), Step(t, e))
  {
    hide FreedMem, FreedProc, SplitBlock, ClearRun, RootMem, RootProc, Push, CurrentWalk, Unowned, Enabled;
  }

  lemma SwitchesUpToTlb(s: Sys, t: Sys, e: Event)
    requires UpToTlb(s, t) && Enabled(s, e) && Enabled(t, e) && s.kroot in s.mem && (e.Switch? || e.Flush?)
    ensures UpToTlb(Step(s, e), Step(t, e))
  {
    hide FreedMem, FreedProc, SwitchStep;
    if e.Switch? {
      SwitchUpToTlb(s, t, e.i);
    } else {
      SwitchUpToTlb(StaleStep(s, e.i), StaleStep(t, e.i), e.i);
    }
  }

  lemma StaleParts(s: Sys, i: Pid)
    requires Inv(s) && i in s.procs
    ensures var s' := StaleStep(s, i);
      && Inv(s') && s'.procs == s.procs[i := s.procs[i].(newtlb := true)]
      && s'.mem == s.mem && s'.satp == s.satp && s'.kroot == s.kroot && s'.ktab == s.ktab
          && s'.procs.Keys == s.procs.Keys
  {
    hide Inv;
    StaleEffect(s, i);
  }

  lemma RefillNeeds(s: Sys, i: Pid, pg: Page)
    requires Enabled(s, Refill(i, pg))
    ensures i in s.procs && Unowned(s, pg)
  {
    hide Unowned;
  }

  lemma RefillParts(s: Sys, i: Pid, pg: Page)
    requires Inv(s) && Enabled(s, Refill(i, pg))
    ensures var s' := RefillStep(s, i, pg);
      && Inv(s') && s'.procs == s.procs[i := Push(s.procs[i], pg)]
      && s'.mem == s.mem && s'.satp == s.satp && s'.kroot == s.kroot && s'.ktab == s.ktab
  {
    hide Inv;
    RefillEffect(s, i, pg);
  }

  // ----- the stores inside splitblock and mmuuncache -----

  /** Whatever a page no one owns holds, no walk reads it. */
  lemma UnownedUnread(s: Sys, pg: Page, t: Table)
    requires Inv(s) && Unowned(s, pg)
    ensures forall u: Vpn :: WalkVia(s.mem[pg := t], s.satp, u) == WalkVia(s.mem, s.satp, u)
  {
    ScribbleEffect(s, pg, t);
    var s' := s.(mem := s.mem[pg := t]);
    hide TablesOk, Walk;
    SatpSteady(s, s');
  }

  /** splitblock on its own: the machine stays sound and nothing cached goes stale. */
  lemma SplitEffect(s: Sys, v: Vpn, l0: Option<Page>)
    requires Inv(s) && (l0.Some? ==> Unowned(s, l0.value))
    ensures var b := SplitBlock(s.mem, s.kroot, s.ktab, v, l0);
      && Inv(s.(mem := b.mem, ktab := b.tab)) && b.mem.Keys == s.mem.Keys
      && (b.table.None? ==> b.mem == s.mem && b.tab == s.ktab)
      && (b.table.Some? ==> b.table.value in b.mem)
      && (forall u: Vpn :: WalkVia(b.mem, s.satp, u) == WalkVia(s.mem, s.satp, u))
  {
    SplitKeeps(s.mem, s.kroot, s.ktab, v, l0);
    SplitPages(s.mem, s.kroot, s.ktab, v, l0);
    hide SplitBlock, Walk;
    var b := SplitBlock(s.mem, s.kroot, s.ktab, v, l0);
    SplitSound(s, b);
  }

  lemma SplitSound(s: Sys, b: Split)
    requires Inv(s) && KTree(b.mem, s.kroot, b.tab) && b.mem.Keys == s.mem.Keys
    requires forall q :: q in KOwned(s.kroot, b.tab) ==> q in KOwned(s.kroot, s.ktab) || Unowned(s, q)
    requires forall q :: q in s.mem && q !in KOwned(s.kroot, b.tab) ==> b.mem[q] == s.mem[q]
    requires forall x: Index :: Entry(b.mem, s.kroot, x) == Entry(s.mem, s.kroot, x)
    requires forall u: Vpn :: Walk(b.mem, s.kroot, u) == Walk(s.mem, s.kroot, u)
    ensures Inv(s.(mem := b.mem, ktab := b.tab))
    ensures forall u: Vpn :: WalkVia(b.mem, s.satp, u) == WalkVia(s.mem, s.satp, u)
  {
    KernelOnly(s, b.mem, b.tab);
    hide KTree, TablesOk, Walk, KOwned, Unowned;
    SatpSteady(s, s.(mem := b.mem, ktab := b.tab));
  }

  /** What splitblock finds on v's path in the boot root. */
  lemma KernelEntries(s: Sys, v: Vpn)
    requires Inv(s)
    ensures s.kroot in s.mem
    ensures var e2 := Entry(s.mem, s.kroot, v.x2);
      && (e2.Empty? || (e2.Next? && e2.table in s.mem && e2.table != s.kroot))
      && (e2.Next? ==>
            var e1 := Entry(s.mem, e2.table, v.x1);
            e1.Empty? || (e1.Next? && e1.table in s.mem) || (e1.Leaf? && Aligned(e1.frame, 1)))
      && (e2.Next? ==> e2.table in KOwned(s.kroot, s.ktab))
  {
    hide Aligned;
    if Top(v.x2) in s.ktab {
      assert s.ktab[Top(v.x2)] in s.ktab.Values;
    }
  }

  /** splitblock's outcome, by the two entries on v's path. */
  lemma SplitOutcome(s: Sys, v: Vpn, l0: Option<Page>)
    requires Inv(s)
    ensures var b := SplitBlock(s.mem, s.kroot, s.ktab, v, l0);
      match Entry(s.mem, s.kroot, v.x2)
      case Empty => b == Split(s.mem, s.ktab, None)
      case Next(l1) => (
        match Entry(s.mem, l1, v.x1)
        case Empty => b == Split(s.mem, s.ktab, None)
        case Next(t) => b == Split(s.mem, s.ktab, Some(t))
        case Leaf(f, a) =>
          if l0.None? then b == Split(s.mem, s.ktab, None)
          else b.table == l0 && b.tab == s.ktab[Mid(v.x2, v.x1) := l0.value] && l1 in s.mem &&
               b.mem == Store(s.mem[l0.value := SplitTable(f, a)], l1, v.x1, Next(l0.value))
        case Reserved => false)
      case _ => false
  {
    KernelEntries(s, v);
    hide Inv, Aligned, SplitTable;
  }

  lemma UncacheParts(s: Sys, v: Vpn, n: nat, l0: Option<Page>)
    requires Inv(s) && Enabled(s, Uncache(v, n, l0))
    ensures var b := SplitBlock(s.mem, s.kroot, s.ktab, v, l0);
      var s' := UncacheStep(s, v, n, l0);
      && Inv(s') && s'.procs == s.procs && s'.satp == s.satp && s'.kroot == s.kroot
      && Uncached(s, Uncache(v, n, l0)) == b.table.Some?
      && (b.table.None? ==> s'.mem == b.mem && s'.ktab == b.tab)
      && (b.table.Some? ==>
            b.table.value in b.mem && s'.mem == ClearRun(b.mem, b.table.value, v.x0, n) && s'.ktab == b.tab)
      && (b.table.Some? ==> forall x: Index :: !Entry(b.mem, b.table.value, x).Reserved?)
  {
    hide *;
    UncacheEffect(s, v, n, l0);
    KernelTables(s, v, n, l0);
    SplitKeeps(s.mem, s.kroot, s.ktab, v, l0);
    UncacheIs(s, v, n, l0);
    var b := SplitBlock(s.mem, s.kroot, s.ktab, v, l0);
    if b.table.Some? {
      MidHigh(b.mem, s.kroot, b.tab, v);
      NoReserved(b.mem, s.kroot, b.tab, v);
    }
  }

  lemma NoReserved(mem: Mem, root: Page, tab: Tables, v: Vpn)
    requires KTree(mem, root, tab) && Mid(v.x2, v.x1) in tab
    ensures forall x: Index :: !Entry(mem, tab[Mid(v.x2, v.x1)], x).Reserved?
  {
    hide Aligned;
  }

  lemma ClearNext(mem: Mem, t0: Page, x0: Index, k: nat)
    requires t0 in mem && x0 + k < 512
    ensures t0 in ClearRun(mem, t0, x0, k) && Entry(ClearRun(mem, t0, x0, k), t0, x0 + k) == Entry(mem, t0, x0 + k)
    ensures Store(ClearRun(mem, t0, x0, k), t0, x0 + k, ClearC(Entry(mem, t0, x0 + k))) == ClearRun(mem, t0, x0, k + 1)
  {
    hide ClearC;
    var a, b := Store(ClearRun(mem, t0, x0, k), t0, x0 + k, ClearC(Entry(mem, t0, x0 + k))),
      ClearRun(mem, t0, x0, k + 1);
    assert a[t0] == b[t0];
  }

  lemma ClearNone(mem: Mem, t0: Page, x0: Index)
    requires t0 in mem
    ensures ClearRun(mem, t0, x0, 0) == mem
  {
    assert ClearRun(mem, t0, x0, 0)[t0] == mem[t0];
  }

  lemma IdleParts(s: Sys)
    requires Inv(s)
    ensures var s' := SetSatp(s, Some(s.kroot));
      Inv(s') && s'.procs == s.procs && s'.mem == s.mem && s'.satp == Some(s.kroot) && s'.kroot == s.kroot
          && s'.ktab == s.ktab
  {
    FencedKeeps(s, Some(s.kroot));
  }

  lemma ScribbleParts(s: Sys, pg: Page, t: Table)
    requires Inv(s) && Unowned(s, pg)
    ensures pg in s.mem && Inv(s.(mem := s.mem[pg := t]))
    ensures Unread(s.mem, pg, s.satp)
    ensures forall u: Vpn :: WalkVia(s.mem[pg := t], s.satp, u) == WalkVia(s.mem, s.satp, u)
  {
    UnownedUnread(s, pg, t);
    ScribbleEffect(s, pg, t);
    NewUnread(s, pg);
    hide Inv;
  }
}
