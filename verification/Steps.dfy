/** The steps of the machine, and what every run of them keeps. */
module Steps {
  import opened Sv39
  import opened Lists
  import opened UserTree
  import opened KernelTree
  import opened ProcTables
  import opened Machine

  datatype Event =
    | Cache(v: Vpn)                                   // the hardware caches a translation
    | Scribble(pg: Page, t: Table)                    // a store to a page that is no table
    | MarkStale(i: Pid)                               // the pager sets newtlb
    | RootAlloc(i: Pid, pg: Page)                     // putmmu's first call: mmurootalloc
    | Load(i: Pid)                                    // and then satpset(up->satp)
    | Try(i: Pid, v: Vpn, m: Mapping)                 // mmuwalk and, when it succeeds, the leaf store and fence
    | Refill(i: Pid, pg: Page)                        // newpage's page goes on the free list
    | Switch(i: Pid)                                  // mmuswitch(p)
    | SwitchIdle                                      // mmuswitch(nil)
    | Flush(i: Pid)                                   // flushmmu
    | Release(i: Pid)                                 // mmurelease
    | Uncache(v: Vpn, n: nat, l0: Option<Page>)       // mmuuncache of n pages from v

  ghost predicate Enabled(s: Sys, e: Event) {
    match e
    case Cache(v) => true
    case Scribble(pg, t) => Unowned(s, pg)
    case RootAlloc(i, pg) => i in s.procs && s.procs[i].root.None? && Unowned(s, pg)
    case Load(i) => i in s.procs && s.procs[i].root.Some?
    case Try(i, v, m) => i in s.procs && s.procs[i].root.Some? && v.User()
    case Refill(i, pg) => i in s.procs && Unowned(s, pg)
    case SwitchIdle => true
    case Uncache(v, n, l0) => l0.Some? ==> Unowned(s, l0.value)
    case _ => e.i in s.procs
  }

  // ----- the steps -----

  /** satpset: write satp and fence. */
  function SetSatp(s: Sys, root: Option<Page>): Sys { s.(satp := root, tlb := {}) }

  function Landed(s: Sys, e: Event): bool
    requires e.Try? && e.i in s.procs && s.procs[e.i].root.Some?
  {
    MmuWalk(s.mem, s.procs[e.i], e.v).table.Some?
  }

  function TryStep(s: Sys, i: Pid, v: Vpn, m: Mapping): Sys
    requires i in s.procs && s.procs[i].root.Some?
  {
    var w := MmuWalk(s.mem, s.procs[i], v);
    if w.table.Some? && w.table.value in w.mem then
      Change(s, i, Store(w.mem, w.table.value, v.x0, Leaf(m.frame, UserAttr(m))), w.p).(tlb := {})
    else Change(s, i, w.mem, w.p)
  }

  function SwitchStep(s: Sys, i: Pid): Sys
    requires i in s.procs
  {
    var p := s.procs[i];
    if p.root.None? then SetSatp(Change(s, i, s.mem, p.(newtlb := false)), Some(s.kroot))
    else if p.newtlb then SetSatp(Change(s, i, FreedMem(s.mem, p), FreedProc(p).(newtlb := false)), p.satp)
    else SetSatp(s, p.satp)
  }

  function ReleaseStep(s: Sys, i: Pid): Sys
    requires i in s.procs
  {
    SetSatp(Change(s, i, FreedMem(s.mem, s.procs[i]), NO_TABLES.(newtlb := s.procs[i].newtlb)), Some(s.kroot))
  }

  function RootStep(s: Sys, i: Pid, pg: Page): Sys
    requires i in s.procs && s.kroot in s.mem
  {
    Change(s, i, RootMem(s.mem, s.kroot, pg), RootProc(s.procs[i], pg))
  }

  function LoadStep(s: Sys, i: Pid): Sys
    requires i in s.procs
  {
    SetSatp(s, s.procs[i].satp)
  }

  function StaleStep(s: Sys, i: Pid): Sys
    requires i in s.procs
  {
    Change(s, i, s.mem, s.procs[i].(newtlb := true))
  }

  function RefillStep(s: Sys, i: Pid, pg: Page): Sys
    requires i in s.procs
  {
    Change(s, i, s.mem, Push(s.procs[i], pg))
  }

  function UncacheStep(s: Sys, v: Vpn, n: nat, l0: Option<Page>): Sys {
    var b := SplitBlock(s.mem, s.kroot, s.ktab, v, l0);
    if b.table.Some? && b.table.value in b.mem then
      s.(mem := ClearRun(b.mem, b.table.value, v.x0, n), ktab := b.tab, tlb := {})
    else s.(mem := b.mem, ktab := b.tab)
  }

  function Step(s: Sys, e: Event): Sys
    requires Enabled(s, e) && s.kroot in s.mem
  {
    match e
    case Cache(v) => s.(tlb := s.tlb + {Cached(v, CurrentWalk(s, v))})
    case Scribble(pg, t) => s.(mem := s.mem[pg := t])
    case MarkStale(i) => StaleStep(s, i)
    case RootAlloc(i, pg) => RootStep(s, i, pg)
    case Load(i) => LoadStep(s, i)
    case Try(i, v, m) => TryStep(s, i, v, m)
    case Refill(i, pg) => RefillStep(s, i, pg)
    case Switch(i) => SwitchStep(s, i)
    case SwitchIdle => SetSatp(s, Some(s.kroot))
    case Flush(i) => SwitchStep(StaleStep(s, i), i)
    case Release(i) => ReleaseStep(s, i)
    case Uncache(v, n, l0) => UncacheStep(s, v, n, l0)
  }

  // ----- what each step does to the user half of process i -----

  /** The translation of user page v of process i after the step, from those before it. */
  function UserAfter(s: Sys, e: Event, i: Pid, v: Vpn): Xlat
    requires i in s.procs && Enabled(s, e)
  {
    match e
    case Try(j, u, m) => if j == i && u == v && Landed(s, e) then Maps(m.frame, UserAttr(m)) else UserWalk(s, i, v)
    case Switch(j) => if j == i && s.procs[i].newtlb then Fault else UserWalk(s, i, v)
    case Flush(j) => if j == i then Fault else UserWalk(s, i, v)
    case Release(j) => if j == i then Fault else UserWalk(s, i, v)
    case _ => UserWalk(s, i, v)
  }

  /** mmuuncache succeeds unless there is nothing to split or no page for the split. */
  function Uncached(s: Sys, e: Event): bool
    requires e.Uncache?
  {
    SplitBlock(s.mem, s.kroot, s.ktab, e.v, e.l0).table.Some?
  }

  /** The translation of kernel page v under the boot root after the step. */
  function KernelAfter(s: Sys, e: Event, v: Vpn): Xlat {
    var x := Walk(s.mem, s.kroot, v);
    if e.Uncache? && Uncached(s, e) && InRun(e.v, e.v.x0, e.n, v) then ClearCX(x) else x
  }

  ghost predicate Effect(s: Sys, e: Event, s': Sys)
    requires Enabled(s, e)
  {
    && Inv(s')
    && s'.kroot == s.kroot && s'.procs.Keys == s.procs.Keys && s'.mem.Keys == s.mem.Keys
    && (forall i, v: Vpn :: i in s.procs && v.User() ==> UserWalk(s', i, v) == UserAfter(s, e, i, v))
    && (forall v: Vpn :: !v.User() ==> Walk(s'.mem, s.kroot, v) == KernelAfter(s, e, v))
  }

  // ----- each step keeps the invariant and has just that effect -----

  lemma CacheEffect(s: Sys, v: Vpn)
    requires Inv(s)
    ensures var s' := s.(tlb := s.tlb + {Cached(v, CurrentWalk(s, v))}); Inv(s') && Quiet(s, s')
  {
    var s' := s.(tlb := s.tlb + {Cached(v, CurrentWalk(s, v))});
    assert TablesOk(s') by {
      forall i | i in s'.procs ensures ProcFits(s'.mem, s'.kroot, s'.ktab, s'.procs[i]) {
        assert ProcFits(s.mem, s.kroot, s.ktab, s.procs[i]);
      }
    }
    hide TablesOk, Walk;
    SatpSteady(s, s'.(tlb := s.tlb));
  }

  lemma StaleEffect(s: Sys, i: Pid)
    requires Inv(s) && i in s.procs
    ensures Inv(StaleStep(s, i)) && Quiet(s, StaleStep(s, i))
  {
    assert ProcFits(s.mem, s.kroot, s.ktab, s.procs[i]);
    hide ProcOk, Walk, KTree, Owned;
    MarkKeeps(s.mem, s.procs[i], true);
    CurrentKeeps(s, i, s.mem, s.procs[i].(newtlb := true));
  }

  lemma RefillEffect(s: Sys, i: Pid, pg: Page)
    requires Inv(s) && i in s.procs && Unowned(s, pg)
    ensures Inv(RefillStep(s, i, pg)) && Quiet(s, RefillStep(s, i, pg))
  {
    assert ProcFits(s.mem, s.kroot, s.ktab, s.procs[i]);
    hide ProcOk, Walk, KTree, Owned;
    PushKeeps(s.mem, s.procs[i], pg);
    CurrentKeeps(s, i, s.mem, Push(s.procs[i], pg));
  }

  lemma ScribbleEffect(s: Sys, pg: Page, t: Table)
    requires Inv(s) && Unowned(s, pg)
    ensures var s' := s.(mem := s.mem[pg := t]); Inv(s') && Quiet(s, s')
  {
    var mem' := s.mem[pg := t];
    var s' := s.(mem := mem');
    KernelFrame(s.mem, mem', s.kroot, s.ktab);
    forall i | i in s.procs ensures ProcFits(mem', s.kroot, s.ktab, s.procs[i]) && SameUser(s, s', i) {
      assert ProcFits(s.mem, s.kroot, s.ktab, s.procs[i]);
      ProcFrame(s.mem, mem', s.procs[i]);
      SameLeaves(s, s', i);
    }
    SatpSteady(s, s');
  }

  // ----- mmuwalk and the leaf store -----

  lemma WalkConfined(s: Sys, i: Pid, v: Vpn)
    requires TablesOk(s) && i in s.procs && s.procs[i].root.Some? && v.User()
    ensures var p := s.procs[i];
      var w := MmuWalk(s.mem, p, v);
      && WalkKeeps(s.mem, p, w.mem, w.p)
      && Confined(s, i, w.mem, w.p)
      && SharesHigh(w.mem, s.kroot, w.p.root.value)
      && (w.table.Some? ==> w.table.value in w.mem && OnPath(w.p, w.table.value, v, 0))
      && (w.table.None? ==> w.p.free == [] && Missing(w.p.tab, v) > 0)
      && Missing(w.p.tab, v) - |w.p.free| == Missing(p.tab, v) - |p.free|
  {
    hide *;
    var p := s.procs[i];
    var w := MmuWalk(s.mem, p, v);
    ProcOkIn(s, i);
    WalkFromRoot(s.mem, p, v);
    KeptParts(s.mem, p, w.mem, w.p);
    KeptConfined(s, i, w.mem, w.p);
    if w.table.Some? { PathInMem(w.mem, w.p, w.table.value, v); }
  }

  lemma ProcOkIn(s: Sys, i: Pid)
    requires TablesOk(s) && i in s.procs
    ensures ProcOk(s.mem, s.procs[i])
  {
    assert ProcFits(s.mem, s.kroot, s.ktab, s.procs[i]);
    hide ProcOk, KTree, Owned;
  }

  lemma ProcOkOf(s: Sys, i: Pid)
    requires Inv(s) && i in s.procs
    ensures ProcOk(s.mem, s.procs[i])
  {
    ProcOkIn(s, i);
    hide ProcOk, TablesOk;
  }

  lemma InvTables(s: Sys)
    requires Inv(s)
    ensures TablesOk(s)
  {
    hide TablesOk;
  }

  lemma WalkFromRoot(mem: Mem, p: Pmmu, v: Vpn)
    requires ProcOk(mem, p) && p.root.Some? && v.User()
    ensures var w := MmuWalk(mem, p, v);
      && WalkKeeps(mem, p, w.mem, w.p)
      && (w.table.None? ==> w.p.free == [] && Missing(w.p.tab, v) > 0)
      && (w.table.Some? ==> OnPath(w.p, w.table.value, v, 0))
      && Missing(w.p.tab, v) - |w.p.free| == Missing(p.tab, v) - |p.free|
  {
    hide ProcOk, Descend, WalkKeeps, Missing;
    DescendKeeps(mem, p, p.root.value, v, 2);
  }

  lemma KeptParts(mem: Mem, p: Pmmu, mem': Mem, p': Pmmu)
    requires WalkKeeps(mem, p, mem', p')
    ensures ProcOk(mem', p') && Owned(p') == Owned(p) && mem'.Keys == mem.Keys && p'.root == p.root
        && p'.newtlb == p.newtlb
    ensures forall u: Vpn :: LeafEntry(mem', p'.tab, u) == LeafEntry(mem, p.tab, u)
  {
    hide ProcOk, Owned, LeafEntry;
  }

  lemma KeptConfined(s: Sys, i: Pid, mem': Mem, p': Pmmu)
    requires TablesOk(s) && i in s.procs && s.procs[i].root.Some? && WalkKeeps(s.mem, s.procs[i], mem', p')
    ensures p'.root.Some? && Confined(s, i, mem', p') && SharesHigh(mem', s.kroot, p'.root.value)
  {
    var p := s.procs[i];
    assert ProcFits(s.mem, s.kroot, s.ktab, p);
    hide KTree, ProcOk, Owned, LeafEntry;
    KOwnedInMem(s, s.kroot);
    assert forall x: Index :: Entry(mem', s.kroot, x) == Entry(s.mem, s.kroot, x);
  }

  lemma PathInMem(mem: Mem, p: Pmmu, t: Page, v: Vpn)
    requires ProcOk(mem, p) && p.root.Some? && OnPath(p, t, v, 0)
    ensures t in mem
  {
    hide ListsOk;
  }

  lemma TryFails(s: Sys, i: Pid, v: Vpn, m: Mapping)
    requires Inv(s) && Enabled(s, Try(i, v, m)) && !Landed(s, Try(i, v, m))
    ensures Inv(TryStep(s, i, v, m)) && Quiet(s, TryStep(s, i, v, m))
  {
    WalkConfined(s, i, v);
    hide ProcOk, Walk, KTree, Owned, MmuWalk;
    var w := MmuWalk(s.mem, s.procs[i], v);
    CurrentKeeps(s, i, w.mem, w.p);
  }

  lemma LeafConfined(s: Sys, i: Pid, w: Walked, v: Vpn, e: Pte)
    requires Confined(s, i, w.mem, w.p) && w.table.Some? && w.table.value in w.mem && w.table.value in Owned(w.p)
    ensures Confined(s, i, Store(w.mem, w.table.value, v.x0, e), w.p)
  {
  }

  /** putmmu's store: exactly one page of exactly one process changes. */
  lemma TryLands(s: Sys, i: Pid, v: Vpn, m: Mapping)
    requires Inv(s) && Enabled(s, Try(i, v, m)) && Landed(s, Try(i, v, m))
    ensures var s' := TryStep(s, i, v, m);
      && Inv(s') && OnlyProc(s, s', i)
      && forall u: Vpn :: u.User() ==>
           UserWalk(s', i, u) == if u == v then Maps(m.frame, UserAttr(m)) else UserWalk(s, i, u)
  {
    WalkConfined(s, i, v);
    hide MmuWalk;
    var w := MmuWalk(s.mem, s.procs[i], v);
    assert w.p.tab[Mid(v.x2, v.x1)] == w.table.value;
    LandedStore(s, i, v, m, w);
  }

  lemma LandedStore(s: Sys, i: Pid, v: Vpn, m: Mapping, w: Walked)
    requires Inv(s) && i in s.procs && v.User() && w.p.root.Some?
    requires WalkKeeps(s.mem, s.procs[i], w.mem, w.p) && Confined(s, i, w.mem, w.p)
    requires SharesHigh(w.mem, s.kroot, w.p.root.value)
    requires w.table.Some? && w.table.value in w.mem && OnPath(w.p, w.table.value, v, 0)
    ensures var s' := Change(s, i, Store(w.mem, w.table.value, v.x0, Leaf(m.frame, UserAttr(m))), w.p).(tlb := {});
      && Inv(s') && OnlyProc(s, s', i)
      && forall u: Vpn :: u.User() ==>
           UserWalk(s', i, u) == if u == v then Maps(m.frame, UserAttr(m)) else UserWalk(s, i, u)
  {
    LandedTables(s, i, v, m, w);
    FenceAfterPut(s, Change(s, i, Store(w.mem, w.table.value, v.x0, Leaf(m.frame, UserAttr(m))), w.p), i, v, m);
  }

  lemma FenceAfterPut(s: Sys, s1: Sys, i: Pid, v: Vpn, m: Mapping)
    requires Inv(s) && TablesOk(s1) && i in s.procs && i in s1.procs
    requires OnlyProc(s, s1, i) && s1.satp == s.satp
    requires forall j :: j in s.procs ==> s1.procs[j].root == s.procs[j].root
    requires ProcOk(s.mem, s.procs[i]) && ProcOk(s1.mem, s1.procs[i])
    requires forall u: Vpn :: LeafEntry(s1.mem, s1.procs[i].tab, u) ==
               if u == v then Leaf(m.frame, UserAttr(m)) else LeafEntry(s.mem, s.procs[i].tab, u)
    ensures var s' := s1.(tlb := {});
      && Inv(s') && OnlyProc(s, s', i)
      && forall u: Vpn :: u.User() ==>
           UserWalk(s', i, u) == if u == v then Maps(m.frame, UserAttr(m)) else UserWalk(s, i, u)
  {
    hide TablesOk, ProcOk, Walk, LeafEntry;
    var s' := s1.(tlb := {});
    SameRoots(s, s1);
    FencedKeeps(s1, s.satp);
    ThenQuiet(s, s1, s', i);
    forall u: Vpn | u.User() ensures UserWalk(s', i, u) == if u == v then Maps(m.frame, UserAttr(m))
      else UserWalk(s, i, u) {
      UserWalkLeaf(s, i, u);
      UserWalkLeaf(s', i, u);
    }
  }

  lemma LandedTables(s: Sys, i: Pid, v: Vpn, m: Mapping, w: Walked)
    requires Inv(s) && i in s.procs && v.User() && w.p.root.Some?
    requires WalkKeeps(s.mem, s.procs[i], w.mem, w.p) && Confined(s, i, w.mem, w.p)
    requires SharesHigh(w.mem, s.kroot, w.p.root.value)
    requires w.table.Some? && w.table.value in w.mem && OnPath(w.p, w.table.value, v, 0)
    ensures var mem' := Store(w.mem, w.table.value, v.x0, Leaf(m.frame, UserAttr(m)));
      && TablesOk(Change(s, i, mem', w.p)) && OnlyProc(s, Change(s, i, mem', w.p), i)
      && ProcOk(s.mem, s.procs[i]) && ProcOk(mem', w.p)
      && w.p.root == s.procs[i].root
      && forall u: Vpn :: LeafEntry(mem', w.p.tab, u) ==
           if u == v then Leaf(m.frame, UserAttr(m)) else LeafEntry(s.mem, s.procs[i].tab, u)
  {
    PutKeeps(w.mem, w.p, v, m);
    var e := Leaf(m.frame, UserAttr(m));
    var mem' := Store(w.mem, w.table.value, v.x0, e);
    assert ProcFits(s.mem, s.kroot, s.ktab, s.procs[i]);
    LeafConfined(s, i, w, v, e);
    StoreElsewhere(s.kroot, w, v, e);
    hide Owned, ProcOk, Tree, KTree, Walk, Store, Entry, SharesHigh, TablesOk;
    ConfinedKeeps(s, i, mem', w.p);
  }

  /** The leaf store misses the boot root, and the high half of the process root. */
  lemma StoreElsewhere(kroot: Page, w: Walked, v: Vpn, e: Pte)
    requires w.table.Some? && w.table.value in w.mem && w.p.root.Some?
    requires w.table.value != kroot && w.table.value != w.p.root.value
    requires SharesHigh(w.mem, kroot, w.p.root.value)
    ensures SharesHigh(Store(w.mem, w.table.value, v.x0, e), kroot, w.p.root.value)
  {
    var mem' := Store(w.mem, w.table.value, v.x0, e);
    forall x: Index | x >= 256 ensures Entry(mem', w.p.root.value, x) == Entry(mem', kroot, x) {
      assert Entry(mem', w.p.root.value, x) == Entry(w.mem, w.p.root.value, x);
      assert Entry(mem', kroot, x) == Entry(w.mem, kroot, x);
    }
  }

  // ----- mmuswitch, flushmmu, mmurelease, mmurootalloc -----

  lemma RecycleTables(s: Sys, i: Pid, p': Pmmu)
    requires TablesOk(s) && i in s.procs
    requires ProcOk(FreedMem(s.mem, s.procs[i]), p') && Owned(p') <= Owned(s.procs[i])
    requires p'.tab == map[] && (p'.root.None? || p'.root == s.procs[i].root)
    ensures var s' := Change(s, i, FreedMem(s.mem, s.procs[i]), p');
      && TablesOk(s') && OnlyProc(s, s', i)
      && forall v: Vpn :: v.User() ==> UserWalk(s', i, v) == Fault
  {
    var p := s.procs[i];
    assert ProcFits(s.mem, s.kroot, s.ktab, p);
    FreeKeeps(s.mem, p);
    var mem' := FreedMem(s.mem, p);
    assert p'.root.Some? ==> SharesHigh(mem', s.kroot, p'.root.value) by { KOwnedInMem(s, s.kroot); }
    assert Confined(s, i, mem', p');
    hide ProcOk, KTree, SharesHigh, Owned, TablesOk, FreedMem;
    ConfinedKeeps(s, i, mem', p');
    var s' := Change(s, i, mem', p');
    forall v: Vpn | v.User() ensures UserWalk(s', i, v) == Fault {
      UserWalkLeaf(s', i, v);
    }
  }

  /** mmuswitch: a stale process loses its user half; satp moves; nothing else changes. */
  lemma SwitchEffect(s: Sys, i: Pid)
    requires Inv(s) && i in s.procs
    ensures var s' := SwitchStep(s, i);
      && Inv(s') && OnlyProc(s, s', i)
      && s'.satp == (if s.procs[i].root.Some? then s.procs[i].root else Some(s.kroot))
      && !s'.procs[i].newtlb
      && forall v: Vpn :: v.User() ==> UserWalk(s', i, v) == if s.procs[i].newtlb then Fault else UserWalk(s, i, v)
  {
    var p := s.procs[i];
    var s' := SwitchStep(s, i);
    assert ProcFits(s.mem, s.kroot, s.ktab, p);
    if p.root.None? {
      MarkKeeps(s.mem, p, false);
      hide ProcOk, Walk, KTree;
      var s1 := Change(s, i, s.mem, p.(newtlb := false));
      CurrentKeeps(s, i, s.mem, p.(newtlb := false));
      FencedKeeps(s1, Some(s.kroot));
      ThenQuiet(s, s1, s', i);
    } else if p.newtlb {
      FreeKeeps(s.mem, p);
      MarkKeeps(FreedMem(s.mem, p), FreedProc(p), false);
      RecycleTables(s, i, FreedProc(p).(newtlb := false));
      var s1 := Change(s, i, FreedMem(s.mem, p), FreedProc(p).(newtlb := false));
      SwitchFence(s, s1, s', i);
    } else {
      SwitchFence(s, s, s', i);
    }
  }

  lemma SwitchFence(s: Sys, s1: Sys, s': Sys, i: Pid)
    requires TablesOk(s1) && OnlyProc(s, s1, i) && i in s.procs
    requires s1.procs[i].root.Some? && s' == SetSatp(s1, s1.procs[i].root)
    ensures Inv(s') && OnlyProc(s, s', i) && SameUser(s1, s', i)
  {
    hide TablesOk;
    FencedKeeps(s1, s1.procs[i].root);
    ThenQuiet(s, s1, s', i);
  }

  /** mmurelease: the process keeps nothing and the boot root is current. */
  lemma ReleaseEffect(s: Sys, i: Pid)
    requires Inv(s) && i in s.procs
    ensures var s' := ReleaseStep(s, i);
      && Inv(s') && OnlyProc(s, s', i) && s'.satp == Some(s.kroot)
      && s'.procs[i].root.None? && s'.procs[i].used == [] && s'.procs[i].free == []
      && forall v: Vpn :: v.User() ==> UserWalk(s', i, v) == Fault
  {
    var p := s.procs[i];
    var p' := NO_TABLES.(newtlb := p.newtlb);
    assert ProcFits(s.mem, s.kroot, s.ktab, p);
    assert Elems<Page>([]) == {};
    RecycleTables(s, i, p');
    var s1 := Change(s, i, FreedMem(s.mem, p), p');
    hide TablesOk;
    FencedKeeps(s1, Some(s.kroot));
    ThenQuiet(s, s1, ReleaseStep(s, i), i);
  }

  /** A new root has an empty user half and the boot root's high half; no walk from satp changes. */
  lemma RootEffect(s: Sys, i: Pid, pg: Page)
    requires Inv(s) && i in s.procs && s.procs[i].root.None? && Unowned(s, pg)
    ensures s.kroot in s.mem
    ensures var s' := RootStep(s, i, pg);
      && Inv(s') && OnlyProc(s, s', i)
      && (forall v: Vpn :: v.User() ==> UserWalk(s', i, v) == Fault)
      && forall v: Vpn :: WalkVia(s'.mem, s.satp, v) == WalkVia(s.mem, s.satp, v)
  {
    var p := s.procs[i];
    KOwnedInMem(s, s.kroot);
    assert ProcFits(s.mem, s.kroot, s.ktab, p);
    RootKeeps(s.mem, p, s.kroot, pg);
    var mem' := RootMem(s.mem, s.kroot, pg);
    var p' := RootProc(p, pg);
    var s1 := Change(s, i, mem', p');
    assert SharesHigh(mem', s.kroot, pg) by {
      assert forall x: Index :: Entry(mem', s.kroot, x) == Entry(s.mem, s.kroot, x);
    }
    assert Confined(s, i, mem', p');
    hide ProcOk, KTree, SharesHigh, Owned, TablesOk, RootMem;
    ConfinedKeeps(s, i, mem', p');
    forall v: Vpn | v.User() ensures UserWalk(s1, i, v) == Fault {
      UserWalkLeaf(s1, i, v);
    }
    assert Quiet(s, s1) by {
      forall j | j in s.procs ensures SameUser(s, s1, j) { }
    }
    hide Walk;
    SatpSteady(s, s1);
  }

  /** satpset: satp names the process's root, and the cache agrees with it. */
  lemma LoadEffect(s: Sys, i: Pid)
    requires Inv(s) && Enabled(s, Load(i))
    ensures var s' := LoadStep(s, i);
      Inv(s') && Quiet(s, s') && s'.satp == s.procs[i].root && s'.procs == s.procs && s'.mem == s.mem
  {
    assert ProcFits(s.mem, s.kroot, s.ktab, s.procs[i]);
    hide ProcFits, TablesOk, Walk, Quiet;
    FencedKeeps(s, s.procs[i].root);
  }

  /** Between the two stores that publish a root: mmuroot is set, satp is not yet. */
  function TornStep(s: Sys, i: Pid, pg: Page): Sys
    requires i in s.procs && s.kroot in s.mem
  {
    Change(s, i, RootMem(s.mem, s.kroot, pg), RootProc(s.procs[i], pg).(satp := s.procs[i].satp))
  }

  /** Run there, mmuswitch leaves satp on a root, the boot root or a process's, if and only if it is for another. */
  lemma TornSwitch(s: Sys, i: Pid, pg: Page, j: Pid)
    requires Inv(s) && Enabled(s, RootAlloc(i, pg)) && j in s.procs
    ensures s.kroot in s.mem && j in TornStep(s, i, pg).procs
    ensures SatpOk(SwitchStep(TornStep(s, i, pg), j)) <==> i != j
  {
    KOwnedInMem(s, s.kroot);
    assert ProcFits(s.mem, s.kroot, s.ktab, s.procs[i]) && ProcFits(s.mem, s.kroot, s.ktab, s.procs[j]);
    hide TablesOk, KTree, Tree, Owned, FreedMem, RootMem;
    var s' := SwitchStep(TornStep(s, i, pg), j);
    if i != j && s.procs[j].root.Some? {
      assert s'.procs[j].root == s'.satp;
    }
  }

  // ----- mmuuncache -----

  /** Kernel tables may change, and grow by an unowned page, without disturbing any process. */
  lemma KernelOnly(s: Sys, mem': Mem, ktab': Tables)
    requires TablesOk(s) && KTree(mem', s.kroot, ktab') && mem'.Keys == s.mem.Keys
    requires forall q :: q in KOwned(s.kroot, ktab') ==> q in KOwned(s.kroot, s.ktab) || Unowned(s, q)
    requires forall q :: q in s.mem && q !in KOwned(s.kroot, ktab') ==> mem'[q] == s.mem[q]
    requires forall x: Index :: Entry(mem', s.kroot, x) == Entry(s.mem, s.kroot, x)
    ensures TablesOk(s.(mem := mem', ktab := ktab'))
    ensures forall i :: i in s.procs ==> SameUser(s, s.(mem := mem', ktab := ktab'), i)
  {
    var s' := s.(mem := mem', ktab := ktab');
    forall i | i in s.procs ensures ProcFits(mem', s.kroot, ktab', s.procs[i]) && SameUser(s, s', i) {
      var p := s.procs[i];
      assert ProcFits(s.mem, s.kroot, s.ktab, p);
      ProcFrame(s.mem, mem', p);
      SameLeaves(s, s', i);
      if p.root.Some? {
        assert forall x: Index :: Entry(mem', p.root.value, x) == Entry(s.mem, p.root.value, x);
      }
    }
  }

  /** mmuuncache clears C on its pages under the boot root, hence under every root; a nil return changes nothing. */
  lemma UncacheEffect(s: Sys, v: Vpn, n: nat, l0: Option<Page>)
    requires Inv(s) && Enabled(s, Uncache(v, n, l0))
    ensures var s' := UncacheStep(s, v, n, l0);
      && Inv(s') && SameFrame(s, s')
      && (forall i :: i in s.procs ==> SameUser(s, s', i))
      && (!Uncached(s, Uncache(v, n, l0)) ==> s' == s)
      && forall u: Vpn :: Walk(s'.mem, s.kroot, u) == KernelAfter(s, Uncache(v, n, l0), u)
  {
    hide *;
    var b := SplitBlock(s.mem, s.kroot, s.ktab, v, l0);
    KernelTables(s, v, n, l0);
    SplitKeeps(s.mem, s.kroot, s.ktab, v, l0);
    SplitPages(s.mem, s.kroot, s.ktab, v, l0);
    UncacheIs(s, v, n, l0);
    if b.table.Some? {
      MidHigh(b.mem, s.kroot, b.tab, v);
      ClearRunKeeps(b.mem, s.kroot, b.tab, v, n);
      ClearedPages(s, v, n, b);
      NewKernelPages(s, v, n, l0);
      FenceAfterUncache(s, ClearRun(b.mem, b.table.value, v.x0, n), b.tab);
    } else {
      SameState(s);
    }
  }

  /** mmuuncache succeeds when the block is split already, or is mapped and there is a page for the split. */
  lemma UncachedIff(s: Sys, v: Vpn, n: nat, l0: Option<Page>)
    requires Inv(s) && Enabled(s, Uncache(v, n, l0))
    ensures Uncached(s, Uncache(v, n, l0)) <==>
      Mid(v.x2, v.x1) in s.ktab || (Walk(s.mem, s.kroot, v).Maps? && l0.Some?)
  {
    hide *;
    KernelTables(s, v, n, l0);
    SplitKeeps(s.mem, s.kroot, s.ktab, v, l0);
    UncacheIs(s, v, n, l0);
  }

  lemma KernelTables(s: Sys, v: Vpn, n: nat, l0: Option<Page>)
    requires Inv(s) && Enabled(s, Uncache(v, n, l0))
    ensures KTree(s.mem, s.kroot, s.ktab)
    ensures l0.Some? ==> l0.value in s.mem && l0.value !in KOwned(s.kroot, s.ktab) && Unowned(s, l0.value)
  {
    hide KTree, KOwned, ProcFits;
  }

  lemma NewKernelPages(s: Sys, v: Vpn, n: nat, l0: Option<Page>)
    requires Enabled(s, Uncache(v, n, l0))
    ensures forall q :: q in KOwned(s.kroot, s.ktab) + (if l0.Some? then {l0.value} else {}) ==>
      q in KOwned(s.kroot, s.ktab) || Unowned(s, q)
  {
    hide KOwned, Unowned;
  }

  lemma UncacheIs(s: Sys, v: Vpn, n: nat, l0: Option<Page>)
    ensures var b, s', e := SplitBlock(s.mem, s.kroot, s.ktab, v, l0), UncacheStep(s, v, n, l0), Uncache(v, n, l0);
      && Uncached(s, e) == b.table.Some?
      && (b.table.Some? && b.table.value in b.mem ==>
            s' == s.(mem := ClearRun(b.mem, b.table.value, v.x0, n), ktab := b.tab, tlb := {}))
      && (b.table.None? ==> s' == s.(mem := b.mem, ktab := b.tab))
      && forall u: Vpn :: KernelAfter(s, e, u) ==
           if b.table.Some? && InRun(v, v.x0, n, u) then ClearCX(Walk(s.mem, s.kroot, u)) else Walk(s.mem, s.kroot, u)
  {
    hide SplitBlock, ClearRun, InRun, ClearCX, Walk;
  }

  /** Kernel tables hang from the high half only. */
  lemma MidHigh(mem: Mem, root: Page, tab: Tables, v: Vpn)
    requires KTree(mem, root, tab) && Mid(v.x2, v.x1) in tab
    ensures !v.User() && Top(v.x2) in tab && tab[Mid(v.x2, v.x1)] in mem
  {
    hide Aligned;
  }

  lemma SameState(s: Sys)
    ensures SameFrame(s, s) && forall i :: i in s.procs ==> SameUser(s, s, i)
  {
    hide Walk, UserWalk;
  }

  lemma FenceAfterUncache(s: Sys, mem': Mem, ktab': Tables)
    requires Inv(s) && KTree(mem', s.kroot, ktab') && mem'.Keys == s.mem.Keys
    requires forall q :: q in KOwned(s.kroot, ktab') ==> q in KOwned(s.kroot, s.ktab) || Unowned(s, q)
    requires forall q :: q in s.mem && q !in KOwned(s.kroot, ktab') ==> mem'[q] == s.mem[q]
    requires forall x: Index :: Entry(mem', s.kroot, x) == Entry(s.mem, s.kroot, x)
    ensures var s' := s.(mem := mem', ktab := ktab', tlb := {});
      Inv(s') && SameFrame(s, s') && forall i :: i in s.procs ==> SameUser(s, s', i)
  {
    var s1 := s.(mem := mem', ktab := ktab');
    KernelOnly(s, mem', ktab');
    hide TablesOk, KTree, Walk, KOwned, Unowned;
    SameRoots(s, s1);
    FencedKeeps(s1, s.satp);
    forall i | i in s.procs ensures SameUser(s, s1.(tlb := {}), i) {
      assert SameUser(s, s1, i) && SameUser(s1, s1.(satp := s.satp, tlb := {}), i);
    }
  }

  lemma ClearedPages(s: Sys, v: Vpn, n: nat, b: Split)
    requires b.table.Some? && Mid(v.x2, v.x1) in b.tab && b.tab[Mid(v.x2, v.x1)] == b.table.value
    requires b.mem.Keys == s.mem.Keys && b.table.value in b.mem
    requires forall q :: q in s.mem && q !in KOwned(s.kroot, b.tab) ==> b.mem[q] == s.mem[q]
    ensures b.table.value in KOwned(s.kroot, b.tab)
    ensures forall q :: q in s.mem && q !in KOwned(s.kroot, b.tab) ==>
      ClearRun(b.mem, b.table.value, v.x0, n)[q] == s.mem[q]
    ensures ClearRun(b.mem, b.table.value, v.x0, n).Keys == s.mem.Keys
  {
    assert b.table.value in b.tab.Values;
  }

  // ----- all steps -----

  lemma QuietEffect(s: Sys, e: Event, s': Sys)
    requires Enabled(s, e) && Inv(s') && Quiet(s, s')
    requires e.Cache? || e.Scribble? || e.MarkStale? || e.Load? || e.Refill? || e.SwitchIdle? || (e.Try?
      && !Landed(s, e))
    ensures Effect(s, e, s')
  {
    hide Inv, Walk, UserWalk;
    forall i, v: Vpn | i in s.procs && v.User() ensures UserWalk(s', i, v) == UserAfter(s, e, i, v) {
      assert SameUser(s, s', i);
    }
  }

  lemma OnlyProcEffect(s: Sys, e: Event, s': Sys, i: Pid)
    requires Enabled(s, e) && Inv(s') && OnlyProc(s, s', i) && i in s.procs
    requires (e.Try? || e.Switch? || e.Flush? || e.Release? || e.RootAlloc?) && e.i == i
    requires forall v: Vpn :: v.User() ==> UserWalk(s', i, v) == UserAfter(s, e, i, v)
    ensures Effect(s, e, s')
  {
    hide Inv, Walk, UserWalk;
    forall j, v: Vpn | j in s.procs && v.User() ensures UserWalk(s', j, v) == UserAfter(s, e, j, v) {
      if j != i { assert SameUser(s, s', j); }
    }
  }

  lemma FlushEffect(s: Sys, i: Pid)
    requires Inv(s) && i in s.procs
    ensures var e := Flush(i);
      Enabled(s, e) && i in StaleStep(s, i).procs && Effect(s, e, SwitchStep(StaleStep(s, i), i))
  {
    hide Inv, Walk, UserWalk, SwitchStep, Effect;
    StaleEffect(s, i);
    var s1 := StaleStep(s, i);
    SwitchEffect(s1, i);
    var s' := SwitchStep(s1, i);
    assert OnlyProc(s, s', i) by {
      assert SameKernel(s, s');
      forall j | j in s.procs && j != i ensures SameUser(s, s', j) {
        assert SameUser(s, s1, j) && SameUser(s1, s', j);
      }
    }
    OnlyProcEffect(s, Flush(i), s', i);
  }

  lemma QuietSteps(s: Sys, e: Event)
    requires Inv(s) && Enabled(s, e) && s.kroot in s.mem
    requires e.Cache? || e.Scribble? || e.MarkStale? || e.Load? || e.Refill? || e.SwitchIdle?
    ensures Effect(s, e, Step(s, e))
  {
    hide Walk, UserWalk, Effect, TablesOk;
    match e {
      case Cache(v) => CacheEffect(s, v);
      case Scribble(pg, t) => ScribbleEffect(s, pg, t);
      case MarkStale(i) => StaleEffect(s, i);
      case Load(i) => LoadEffect(s, i);
      case Refill(i, pg) => RefillEffect(s, i, pg);
      case SwitchIdle => FencedKeeps(s, Some(s.kroot));
    }
    QuietEffect(s, e, Step(s, e));
  }

  lemma TryEffect(s: Sys, i: Pid, v: Vpn, m: Mapping)
    requires Inv(s) && Enabled(s, Try(i, v, m))
    ensures Effect(s, Try(i, v, m), TryStep(s, i, v, m))
  {
    var e := Try(i, v, m);
    hide Inv, Walk, UserWalk, Effect, TryStep;
    if Landed(s, e) {
      TryLands(s, i, v, m);
      OnlyProcEffect(s, e, TryStep(s, i, v, m), i);
    } else {
      TryFails(s, i, v, m);
      QuietEffect(s, e, TryStep(s, i, v, m));
    }
  }

  lemma ProcSteps(s: Sys, e: Event)
    requires Inv(s) && Enabled(s, e) && s.kroot in s.mem
    requires e.RootAlloc? || e.Switch? || e.Release?
    ensures Effect(s, e, Step(s, e))
  {
    hide Inv, Walk, Effect, SwitchStep, ReleaseStep, RootStep;
    match e {
      case RootAlloc(i, pg) => RootEffect(s, i, pg);
      case Switch(i) => SwitchEffect(s, i);
      case Release(i) => ReleaseEffect(s, i);
    }
    OnlyProcEffect(s, e, Step(s, e), e.i);
  }

  /** Every step keeps the invariant and changes just the translations it should. */
  lemma StepEffect(s: Sys, e: Event)
    requires Inv(s) && Enabled(s, e)
    ensures s.kroot in s.mem && Effect(s, e, Step(s, e))
  {
    KOwnedInMem(s, s.kroot);
    hide Inv, Effect, SwitchStep, ReleaseStep, RootStep, StaleStep, TryStep, RefillStep, UncacheStep;
    match e {
      case Uncache(v, n, l0) => UncacheAll(s, v, n, l0);
      case Flush(i) => FlushEffect(s, i);
      case Try(i, v, m) => TryEffect(s, i, v, m);
      case RootAlloc(_, _) => ProcSteps(s, e);
      case Switch(_) => ProcSteps(s, e);
      case Release(_) => ProcSteps(s, e);
      case _ => QuietSteps(s, e);
    }
  }

  lemma UncacheAll(s: Sys, v: Vpn, n: nat, l0: Option<Page>)
    requires Inv(s) && Enabled(s, Uncache(v, n, l0))
    ensures Effect(s, Uncache(v, n, l0), UncacheStep(s, v, n, l0))
  {
    hide Inv, Walk, UserWalk, UncacheStep;
    UncacheEffect(s, v, n, l0);
    var s' := UncacheStep(s, v, n, l0);
    forall i, u: Vpn | i in s.procs && u.User() ensures UserWalk(s', i, u) == UserWalk(s, i, u) {
      assert SameUser(s, s', i);
    }
  }

  /** Where satp points after a step: only satpset, mmuswitch, flushmmu and mmurelease move it. */
  lemma StepSatp(s: Sys, e: Event)
    requires Inv(s) && Enabled(s, e)
    ensures s.kroot in s.mem
    ensures Step(s, e).satp == match e
      case Load(i) => s.procs[i].root
      case Switch(i) => if s.procs[i].root.Some? then s.procs[i].root else Some(s.kroot)
      case Flush(i) => if s.procs[i].root.Some? then s.procs[i].root else Some(s.kroot)
      case SwitchIdle => Some(s.kroot)
      case Release(i) => Some(s.kroot)
      case _ => s.satp
  {
    KOwnedInMem(s, s.kroot);
    hide Inv, SwitchStep, MmuWalk, SplitBlock, RootMem, FreedMem, Store, ClearRun;
    if e.Switch? {
      SwitchEffect(s, e.i);
    } else if e.Flush? {
      StaleEffect(s, e.i);
      SwitchEffect(StaleStep(s, e.i), e.i);
    } else if e.Load? {
      LoadEffect(s, e.i);
    }
  }

  // ----- one process's record after a step -----

  function ProcAfter(s: Sys, e: Event, i: Pid): Pmmu
    requires i in s.procs && (e.Try? && e.i == i ==> s.procs[i].root.Some?)
  {
    var p := s.procs[i];
    match e
    case MarkStale(j) => if j == i then p.(newtlb := true) else p
    case RootAlloc(j, pg) => if j == i then RootProc(p, pg) else p
    case Try(j, v, m) => if j == i then MmuWalk(s.mem, p, v).p else p
    case Refill(j, pg) => if j == i then Push(p, pg) else p
    case Switch(j) => if j == i then Switched(p) else p
    case Flush(j) => if j == i then Switched(p.(newtlb := true)) else p
    case Release(j) => if j == i then NO_TABLES.(newtlb := p.newtlb) else p
    case _ => p
  }

  function Switched(p: Pmmu): Pmmu {
    if p.root.Some? && p.newtlb then FreedProc(p).(newtlb := false) else p.(newtlb := false)
  }

  lemma SwitchProc(s: Sys, j: Pid, i: Pid)
    requires i in s.procs && j in s.procs
    ensures i in SwitchStep(s, j).procs
    ensures SwitchStep(s, j).procs[i] == if i == j then Switched(s.procs[i]) else s.procs[i]
  {
  }

  lemma StepProc(s: Sys, e: Event, i: Pid)
    requires Enabled(s, e) && i in s.procs && s.kroot in s.mem
    ensures i in Step(s, e).procs && Step(s, e).procs[i] == ProcAfter(s, e, i)
  {
    hide MmuWalk, SplitBlock, ClearRun, FreedMem, RootMem, Store, FreedProc, SwitchStep, Switched;
    if e.Switch? {
      SwitchProc(s, e.i, i);
    } else if e.Flush? {
      SwitchProc(StaleStep(s, e.i), e.i, i);
    }
  }
}
