/**
 The whole machine: physical memory, the boot root, satp, a translation cache and every process's tables.
 A run is a sequence of the pieces of mmu.c that run whole, in any interleaving, with the hardware caching any
 translation between any two of them.  Most run with interrupts off; mmurootalloc fills a page no one else knows,
 and calls of mmuuncache are taken not to overlap.
 */
module Machine {
  import opened Sv39
  import opened Lists
  import opened UserTree
  import opened KernelTree
  import opened ProcTables

  type Pid = nat

  /** A translation (or a fault) remembered by the hardware. */
  datatype Cached = Cached(v: Vpn, x: Xlat)

  datatype Sys = Sys(mem: Mem, kroot: Page, ktab: Tables, satp: Option<Page>, procs: map<Pid, Pmmu>, tlb: set<Cached>)

  // ----- what is asked of every state -----

  /** A page no one owns: what newpage and mallocalign may return. */
  ghost predicate Unowned(s: Sys, pg: Page) {
    && pg in s.mem && pg !in KOwned(s.kroot, s.ktab)
    && forall i :: i in s.procs ==> pg !in Owned(s.procs[i])
  }

  ghost predicate ProcFits(mem: Mem, kroot: Page, ktab: Tables, p: Pmmu) {
    && ProcOk(mem, p)
    && Owned(p) !! KOwned(kroot, ktab)
    && (p.root.Some? ==> SharesHigh(mem, kroot, p.root.value))
  }

  ghost predicate TablesOk(s: Sys) {
    && KTree(s.mem, s.kroot, s.ktab)
    && (forall i :: i in s.procs ==> ProcFits(s.mem, s.kroot, s.ktab, s.procs[i]))
    && (forall i, j :: i in s.procs && j in s.procs && i != j ==> Owned(s.procs[i]) !! Owned(s.procs[j]))
  }

  /** satp names the boot root or the root of a live process. */
  ghost predicate SatpOk(s: Sys) {
    s.satp == Some(s.kroot) || (s.satp.Some? && exists i :: i in s.procs && s.procs[i].root == s.satp)
  }

  /** The walk the hardware makes for a satp root; bare mode is outside the model and faults. */
  function WalkVia(mem: Mem, satp: Option<Page>, v: Vpn): Xlat {
    if satp.Some? then Walk(mem, satp.value, v) else Fault
  }

  function CurrentWalk(s: Sys, v: Vpn): Xlat { WalkVia(s.mem, s.satp, v) }

  /** Every cached translation agrees with a walk from the current satp. */
  ghost predicate TlbOk(s: Sys) {
    forall c :: c in s.tlb ==> c.x == CurrentWalk(s, c.v)
  }

  ghost predicate Inv(s: Sys) { TablesOk(s) && SatpOk(s) && TlbOk(s) }

  /** What process i's tables give the hardware for a user page. */
  function UserWalk(s: Sys, i: Pid, v: Vpn): Xlat
    requires i in s.procs
  {
    if s.procs[i].root.Some? then Walk(s.mem, s.procs[i].root.value, v) else Fault
  }

  function LeafXlat(e: Pte): Xlat { if e.Leaf? then Maps(e.frame, e.attr) else Fault }

  lemma UserWalkLeaf(s: Sys, i: Pid, v: Vpn)
    requires i in s.procs && ProcOk(s.mem, s.procs[i]) && v.User()
    ensures UserWalk(s, i, v) == LeafXlat(LeafEntry(s.mem, s.procs[i].tab, v))
  {
    if s.procs[i].root.Some? {
      WalkOnTree(s.mem, s.procs[i].root.value, s.procs[i].tab, v);
    }
  }

  lemma SameLeaves(s: Sys, s': Sys, i: Pid)
    requires i in s.procs && ProcOk(s.mem, s.procs[i])
    requires i in s'.procs && ProcOk(s'.mem, s'.procs[i])
    requires forall v: Vpn :: LeafEntry(s'.mem, s'.procs[i].tab, v) == LeafEntry(s.mem, s.procs[i].tab, v)
    ensures SameUser(s, s', i)
  {
    forall v: Vpn | v.User() ensures UserWalk(s', i, v) == UserWalk(s, i, v) {
      UserWalkLeaf(s, i, v);
      UserWalkLeaf(s', i, v);
    }
  }

  // ----- a change confined to one process -----

  function Change(s: Sys, i: Pid, mem': Mem, p': Pmmu): Sys {
    s.(mem := mem', procs := s.procs[i := p'])
  }

  ghost predicate Confined(s: Sys, i: Pid, mem': Mem, p': Pmmu) {
    && i in s.procs
    && mem'.Keys == s.mem.Keys
    && (forall q :: q in Owned(p') ==> q in Owned(s.procs[i]) || Unowned(s, q))
    && (forall q :: q in s.mem && q !in Owned(s.procs[i]) && q !in Owned(p') ==> mem'[q] == s.mem[q])
  }

  // ----- how two states compare -----

  ghost predicate SameFrame(s: Sys, s': Sys) {
    s'.kroot == s.kroot && s'.procs.Keys == s.procs.Keys && s'.mem.Keys == s.mem.Keys
  }

  ghost predicate SameKernel(s: Sys, s': Sys) {
    forall v: Vpn :: Walk(s'.mem, s'.kroot, v) == Walk(s.mem, s.kroot, v)
  }

  ghost predicate SameUser(s: Sys, s': Sys, i: Pid)
    requires i in s.procs && i in s'.procs
  {
    forall v: Vpn :: v.User() ==> UserWalk(s', i, v) == UserWalk(s, i, v)
  }

  /** Only process i's user half may have changed. */
  ghost predicate OnlyProc(s: Sys, s': Sys, i: Pid) {
    && SameFrame(s, s') && SameKernel(s, s')
    && forall j :: j in s.procs && j != i ==> SameUser(s, s', j)
  }

  /** No translation changed. */
  ghost predicate Quiet(s: Sys, s': Sys) {
    && SameFrame(s, s') && SameKernel(s, s')
    && forall j :: j in s.procs ==> SameUser(s, s', j)
  }

  lemma ConfinedKeeps(s: Sys, i: Pid, mem': Mem, p': Pmmu)
    requires TablesOk(s) && Confined(s, i, mem', p')
    requires ProcOk(mem', p')
    requires p'.root.Some? ==> SharesHigh(mem', s.kroot, p'.root.value)
    ensures TablesOk(Change(s, i, mem', p')) && OnlyProc(s, Change(s, i, mem', p'), i)
  {
    hide *;
    var s' := Change(s, i, mem', p');
    ChangeFields(s, i, mem', p');
    ConfinedKernel(s, i, mem', p');
    KernelFrame(s.mem, mem', s.kroot, s.ktab);
    ConfinedFits(s, i, mem', p');
    forall j | j in s.procs && j != i ensures ProcFits(mem', s.kroot, s.ktab, s.procs[j]) && SameUser(s, s', j) {
      ConfinedOther(s, i, mem', p', j);
    }
    ConfinedApart(s, i, mem', p');
    TablesIf(s');
    OnlyIf(s, s', i);
  }

  lemma ChangeFields(s: Sys, i: Pid, mem': Mem, p': Pmmu)
    ensures var s' := Change(s, i, mem', p');
      && s'.mem == mem' && s'.procs == s.procs[i := p'] && s'.kroot == s.kroot && s'.ktab == s.ktab
  {
  }

  lemma ConfinedKernel(s: Sys, i: Pid, mem': Mem, p': Pmmu)
    requires TablesOk(s) && Confined(s, i, mem', p')
    ensures i in s.procs && mem'.Keys == s.mem.Keys && KTree(s.mem, s.kroot, s.ktab)
    ensures forall q :: q in KOwned(s.kroot, s.ktab) ==> q in mem' && mem'[q] == s.mem[q]
    ensures forall q :: q in Owned(p') ==> q !in KOwned(s.kroot, s.ktab)
  {
    hide KTree, KOwned, Owned, ProcFits;
    forall q | q in KOwned(s.kroot, s.ktab) ensures q in mem' && mem'[q] == s.mem[q]
        && q !in Owned(p') { KOwnedInMem(s, q); }
  }

  lemma ConfinedFits(s: Sys, i: Pid, mem': Mem, p': Pmmu)
    requires TablesOk(s) && Confined(s, i, mem', p') && ProcOk(mem', p')
    requires p'.root.Some? ==> SharesHigh(mem', s.kroot, p'.root.value)
    ensures ProcFits(mem', s.kroot, s.ktab, p')
  {
    ConfinedKernel(s, i, mem', p');
    hide KTree, KOwned, Owned, ProcOk, SharesHigh, TablesOk;
  }

  lemma ConfinedOther(s: Sys, i: Pid, mem': Mem, p': Pmmu, j: Pid)
    requires TablesOk(s) && Confined(s, i, mem', p') && j in s.procs && j != i
    requires forall q :: q in KOwned(s.kroot, s.ktab) ==> q in mem' && mem'[q] == s.mem[q]
    ensures ProcFits(mem', s.kroot, s.ktab, s.procs[j]) && SameUser(s, Change(s, i, mem', p'), j)
  {
    assert ProcFits(s.mem, s.kroot, s.ktab, s.procs[j]);
    OwnedUntouched(s, i, mem', p', j);
    hide KTree, KOwned, Owned, ProcOk, TablesOk;
    ProcFrame(s.mem, mem', s.procs[j]);
    SameLeaves(s, Change(s, i, mem', p'), j);
    StillShares(s, mem', j);
  }

  lemma OwnedUntouched(s: Sys, i: Pid, mem': Mem, p': Pmmu, j: Pid)
    requires TablesOk(s) && Confined(s, i, mem', p') && j in s.procs && j != i
    ensures forall q :: q in Owned(s.procs[j]) ==> q in mem' && mem'[q] == s.mem[q]
    ensures Owned(p') !! Owned(s.procs[j])
  {
    assert ProcFits(s.mem, s.kroot, s.ktab, s.procs[j]);
    hide KTree, KOwned, Owned, Tree;
  }

  lemma StillShares(s: Sys, mem': Mem, j: Pid)
    requires TablesOk(s) && j in s.procs
    requires forall q :: q in KOwned(s.kroot, s.ktab) + Owned(s.procs[j]) ==> q in mem' && mem'[q] == s.mem[q]
    ensures s.procs[j].root.Some? ==> SharesHigh(mem', s.kroot, s.procs[j].root.value)
  {
    assert ProcFits(s.mem, s.kroot, s.ktab, s.procs[j]);
    hide KTree, ProcOk;
    KOwnedInMem(s, s.kroot);
    if s.procs[j].root.Some? {
      var r := s.procs[j].root.value;
      assert forall x: Index ::
        Entry(mem', r, x) == Entry(s.mem, r, x) && Entry(mem', s.kroot, x) == Entry(s.mem, s.kroot, x);
    }
  }

  lemma ConfinedApart(s: Sys, i: Pid, mem': Mem, p': Pmmu)
    requires TablesOk(s) && Confined(s, i, mem', p')
    ensures var procs' := s.procs[i := p'];
      forall j, k :: j in procs' && k in procs' && j != k ==> Owned(procs'[j]) !! Owned(procs'[k])
  {
    forall j | j in s.procs && j != i ensures Owned(p') !! Owned(s.procs[j]) { OwnedUntouched(s, i, mem', p', j); }
    hide Owned, ProcFits, KTree, Unowned;
  }

  lemma TablesIf(s: Sys)
    requires KTree(s.mem, s.kroot, s.ktab)
    requires forall i :: i in s.procs ==> ProcFits(s.mem, s.kroot, s.ktab, s.procs[i])
    requires forall i, j :: i in s.procs && j in s.procs && i != j ==> Owned(s.procs[i]) !! Owned(s.procs[j])
    ensures TablesOk(s)
  {
    hide KTree, ProcFits, Owned;
  }

  lemma OnlyIf(s: Sys, s': Sys, i: Pid)
    requires s'.kroot == s.kroot && s'.procs.Keys == s.procs.Keys && s'.mem.Keys == s.mem.Keys
    requires forall v: Vpn :: Walk(s'.mem, s.kroot, v) == Walk(s.mem, s.kroot, v)
    requires forall j :: j in s.procs && j != i ==> SameUser(s, s', j)
    ensures OnlyProc(s, s', i)
  {
    hide Walk, UserWalk;
  }

  lemma KOwnedInMem(s: Sys, q: Page)
    requires TablesOk(s) && q in KOwned(s.kroot, s.ktab)
    ensures q in s.mem && forall i :: i in s.procs ==> q !in Owned(s.procs[i])
  {
    forall i | i in s.procs ensures q !in Owned(s.procs[i]) {
      assert ProcFits(s.mem, s.kroot, s.ktab, s.procs[i]);
    }
  }

  /** Kernel addresses translate alike under every live root. */
  lemma KernelShared(s: Sys, i: Pid, v: Vpn)
    requires TablesOk(s) && i in s.procs && s.procs[i].root.Some? && !v.User()
    ensures Walk(s.mem, s.procs[i].root.value, v) == Walk(s.mem, s.kroot, v)
  {
    assert ProcFits(s.mem, s.kroot, s.ktab, s.procs[i]);
    SharedWalk(s.mem, s.kroot, s.procs[i].root.value, v);
  }

  /** Same satp, same roots and same walks: what is cached still agrees. */
  lemma SatpSteady(s: Sys, s': Sys)
    requires Inv(s) && TablesOk(s')
    requires Quiet(s, s') && s'.satp == s.satp && s'.tlb == s.tlb
    requires forall i :: i in s.procs && s.procs[i].root.Some? ==> s'.procs[i].root == s.procs[i].root
    ensures SatpOk(s') && TlbOk(s')
    ensures forall v: Vpn :: WalkVia(s'.mem, s.satp, v) == WalkVia(s.mem, s.satp, v)
  {
    hide TablesOk, Walk;
    if s.satp != Some(s.kroot) {
      var j :| j in s.procs && s.procs[j].root == s.satp;
      assert j in s'.procs && s'.procs[j].root == s'.satp;
      forall v: Vpn ensures WalkVia(s'.mem, s.satp, v) == WalkVia(s.mem, s.satp, v) {
        if v.User() {
          assert SameUser(s, s', j);
        } else {
          KernelShared(s, j, v);
          KernelShared(s', j, v);
        }
      }
    }
  }

  /** When no walk of process i changes either, nothing the hardware has cached goes stale. */
  lemma CurrentKeeps(s: Sys, i: Pid, mem': Mem, p': Pmmu)
    requires Inv(s) && Confined(s, i, mem', p')
    requires ProcOk(mem', p') && p'.root == s.procs[i].root
    requires p'.root.Some? ==> SharesHigh(mem', s.kroot, p'.root.value)
    requires forall u: Vpn :: LeafEntry(mem', p'.tab, u) == LeafEntry(s.mem, s.procs[i].tab, u)
    ensures Inv(Change(s, i, mem', p')) && Quiet(s, Change(s, i, mem', p'))
    ensures forall v: Vpn :: WalkVia(mem', s.satp, v) == WalkVia(s.mem, s.satp, v)
  {
    var s' := Change(s, i, mem', p');
    ConfinedKeeps(s, i, mem', p');
    assert ProcFits(s.mem, s.kroot, s.ktab, s.procs[i]);
    hide TablesOk, Walk, ProcOk, KTree;
    SameLeaves(s, s', i);
    SatpSteady(s, s');
  }

  /** After a fence only the tables and satp matter. */
  lemma FencedKeeps(s: Sys, satp: Option<Page>)
    requires TablesOk(s)
    requires satp == Some(s.kroot) || exists i :: i in s.procs && s.procs[i].root == satp && satp.Some?
    ensures Inv(s.(satp := satp, tlb := {})) && Quiet(s, s.(satp := satp, tlb := {}))
  {
    var s' := s.(satp := satp, tlb := {});
    assert TablesOk(s') by {
      forall i | i in s'.procs ensures ProcFits(s'.mem, s'.kroot, s'.ktab, s'.procs[i]) {
        assert ProcFits(s.mem, s.kroot, s.ktab, s.procs[i]);
      }
    }
    hide TablesOk, Walk;
    if satp != Some(s.kroot) {
      var i :| i in s.procs && s.procs[i].root == satp;
      assert i in s'.procs && s'.procs[i].root == s'.satp;
    }
  }

  lemma ThenQuiet(s: Sys, s1: Sys, s2: Sys, i: Pid)
    requires OnlyProc(s, s1, i) && Quiet(s1, s2)
    ensures OnlyProc(s, s2, i)
    ensures i in s1.procs ==> SameUser(s1, s2, i)
  {
    hide Walk, UserWalk;
    assert SameKernel(s, s2);
    forall j | j in s.procs && j != i ensures SameUser(s, s2, j) {
      assert SameUser(s, s1, j) && SameUser(s1, s2, j);
    }
  }

  /** What is cached matters only through its agreement with the current walk. */
  lemma OtherTlb(s: Sys, tlb: set<Cached>)
    requires Inv(s) && forall c :: c in tlb ==> c.x == CurrentWalk(s, c.v)
    ensures Inv(s.(tlb := tlb))
  {
    var s' := s.(tlb := tlb);
    assert TablesOk(s') by {
      forall i | i in s'.procs ensures ProcFits(s'.mem, s'.kroot, s'.ktab, s'.procs[i]) {
        assert ProcFits(s.mem, s.kroot, s.ktab, s.procs[i]);
      }
    }
    hide TablesOk, Walk;
    SameRoots(s, s');
  }

  lemma SameRoots(s: Sys, s': Sys)
    requires SatpOk(s) && s'.satp == s.satp && SameFrame(s, s')
    requires forall i :: i in s.procs ==> s'.procs[i].root == s.procs[i].root
    ensures SatpOk(s')
    ensures s'.satp == Some(s'.kroot) || exists i :: i in s'.procs && s'.procs[i].root == s'.satp && s'.satp.Some?
  {
    if s.satp != Some(s.kroot) {
      var j :| j in s.procs && s.procs[j].root == s.satp;
      assert j in s'.procs && s'.procs[j].root == s'.satp;
    }
  }
}
