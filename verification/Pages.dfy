/** Pages over a run: who owns them, what reaches them, and that none is lost or returned twice. */
module Pages {
  import opened Sv39
  import opened Lists
  import opened UserTree
  import opened KernelTree
  import opened ProcTables
  import opened Machine
  import opened Steps
  import opened Runs

  // ----- tree ownership -----

  /** A table hangs from a root slot 0-255, directly or through one level-1 table; path tells how. */
  ghost predicate HangsAt(mem: Mem, root: Page, path: Slot, t: Page) {
    path.x2 < 256 &&
    match path
    case Top(x2) => Entry(mem, root, x2) == Next(t)
    case Mid(x2, x1) => var e := Entry(mem, root, x2); e.Next? && Entry(mem, e.table, x1) == Next(t)
  }

  /** mmuused is exactly the set of tables reachable from root slots 0-255, each by one path. */
  lemma UsedIsReachable(s: Sys, i: Pid, t: Page)
    requires TablesOk(s) && i in s.procs && s.procs[i].root.Some?
    ensures t in s.procs[i].used <==> exists path :: HangsAt(s.mem, s.procs[i].root.value, path, t)
    ensures var r := s.procs[i].root.value;
      forall a, b :: HangsAt(s.mem, r, a, t) && HangsAt(s.mem, r, b, t) ==> a == b
    ensures t in s.procs[i].used ==> t !in s.procs[i].free && t != s.procs[i].root.value
  {
    var p := s.procs[i];
    assert ProcFits(s.mem, s.kroot, s.ktab, p);
    assert t in p.used <==> t in p.tab.Values;
    forall path | HangsAt(s.mem, p.root.value, path, t) ensures path in p.tab && p.tab[path] == t {
      assert Entry(s.mem, p.root.value, path.x2) == Link(p.tab, Top(path.x2));
    }
    if t in p.used {
      var path :| path in p.tab && p.tab[path] == t;
      assert HangsAt(s.mem, p.root.value, path, t);
    }
  }

  /** A page the hardware may read as a table while satp holds its present value. */
  ghost predicate Reaches(mem: Mem, root: Page, t: Page) {
    || t == root
    || (exists x2: Index :: Entry(mem, root, x2) == Next(t))
    || (exists x2: Index, x1: Index ::
      Entry(mem, root, x2).Next? && Entry(mem, Entry(mem, root, x2).table, x1) == Next(t))
  }

  /** No free page, and no page of another process, is reachable from satp. */
  lemma ReachedIsOwned(s: Sys, t: Page)
    requires Inv(s) && s.satp.Some? && Reaches(s.mem, s.satp.value, t)
    ensures t in KOwned(s.kroot, s.ktab) || exists i ::
      i in s.procs && s.procs[i].root == s.satp && t in Owned(s.procs[i])
    ensures !Unowned(s, t)
  {
    if s.satp == Some(s.kroot) {
      KernelReach(s.mem, s.kroot, s.ktab, s.kroot, t);
    } else {
      var i :| i in s.procs && s.procs[i].root == s.satp;
      assert ProcFits(s.mem, s.kroot, s.ktab, s.procs[i]);
      UserReach(s.mem, s.kroot, s.ktab, s.procs[i], t);
    }
  }

  lemma KernelReach(mem: Mem, kroot: Page, ktab: Tables, root: Page, t: Page)
    requires KTree(mem, kroot, ktab) && root == kroot && Reaches(mem, root, t)
    ensures t in KOwned(kroot, ktab)
  {
    if t != root {
      if x2: Index :| Entry(mem, root, x2) == Next(t) {
        assert ktab[Top(x2)] in ktab.Values;
      } else {
        var x2: Index, x1: Index :| Entry(mem, root, x2).Next? && Entry(mem, Entry(mem, root, x2).table, x1) == Next(t);
        assert ktab[Mid(x2, x1)] in ktab.Values;
      }
    }
  }

  lemma UserReach(mem: Mem, kroot: Page, ktab: Tables, p: Pmmu, t: Page)
    requires ProcOk(mem, p) && KTree(mem, kroot, ktab) && p.root.Some? && SharesHigh(mem, kroot, p.root.value)
    requires Reaches(mem, p.root.value, t)
    ensures t in Owned(p) || t in KOwned(kroot, ktab)
  {
    var root := p.root.value;
    if t != root {
      if x2: Index :| Entry(mem, root, x2) == Next(t) {
        if x2 < 256 { assert p.tab[Top(x2)] in p.tab.Values; } else { assert ktab[Top(x2)] in ktab.Values; }
      } else {
        var x2: Index, x1: Index :| Entry(mem, root, x2).Next? && Entry(mem, Entry(mem, root, x2).table, x1) == Next(t);
        if x2 < 256 { assert p.tab[Mid(x2, x1)] in p.tab.Values; } else { assert ktab[Mid(x2, x1)] in ktab.Values; }
      }
    }
  }

  // ----- conservation -----

  /** Pages newpage hands to process i in a step. */
  function Given(e: Event, i: Pid): multiset<Page> {
    match e
    case RootAlloc(j, pg) => if j == i then multiset{pg} else multiset{}
    case Refill(j, pg) => if j == i then multiset{pg} else multiset{}
    case _ => multiset{}
  }

  /** mmurelease's argument to freepages, then the page it passes to putpage. */
  function ReleasedPages(p: Pmmu): seq<Page> {
    FreedProc(p).free + (if p.root.Some? then [p.root.value] else [])
  }

  ghost function Returned(s: Sys, e: Event, i: Pid): multiset<Page> {
    if e.Release? && e.i == i && i in s.procs then multiset(ReleasedPages(s.procs[i])) else multiset{}
  }

  lemma {:induction false} DistinctMultiset<T>(q: seq<T>)
    requires Distinct(q)
    ensures multiset(q) == multiset(Elems(q))
  {
    if q != [] {
      var last := q[|q| - 1];
      var init := q[..|q| - 1];
      assert q == init + [last];
      DistinctMultiset(init);
      assert Elems(q) == Elems(init) + {last};
      assert last !in Elems(init);
    }
  }

  /** A release returns every page the process owned, each once. */
  lemma ReleasedOnce(mem: Mem, p: Pmmu)
    requires ProcOk(mem, p)
    ensures Distinct(ReleasedPages(p)) && Elems(ReleasedPages(p)) == Owned(p)
    ensures multiset(ReleasedPages(p)) == multiset(Owned(p))
  {
    FreeKeeps(mem, p);
    var f := FreedProc(p).free;
    var q := ReleasedPages(p);
    assert Elems(FreedProc(p).used) == {};
    assert Elems(q) == Elems(f) + (if p.root.Some? then {p.root.value} else {});
    forall a, b | 0 <= a < b < |q| ensures q[a] != q[b] {
      if b == |f| { assert q[a] in Elems(f); }
    }
    DistinctMultiset(q);
  }

  lemma SwitchedOwned(mem: Mem, p: Pmmu)
    requires ProcOk(mem, p)
    ensures Owned(Switched(p)) == Owned(p) && Owned(Switched(p.(newtlb := true))) == Owned(p)
  {
    FreeKeeps(mem, p);
  }

  lemma GivenOwned(s: Sys, e: Event, i: Pid)
    requires TablesOk(s) && Enabled(s, e) && i in s.procs && (e.Refill? || e.RootAlloc?) && e.i == i
    ensures Owned(ProcAfter(s, e, i)) == Owned(s.procs[i]) + {e.pg} && e.pg !in Owned(s.procs[i])
  {
    assert ProcFits(s.mem, s.kroot, s.ktab, s.procs[i]);
    if e.Refill? { PushKeeps(s.mem, s.procs[i], e.pg); }
  }

  /** The pages process i owns after a step. */
  lemma OwnedAfter(s: Sys, e: Event, i: Pid)
    requires Inv(s) && Enabled(s, e) && i in s.procs
    ensures var p := s.procs[i];
      Owned(ProcAfter(s, e, i)) ==
        if e.Release? && e.i == i then {}
        else if (e.Refill? || e.RootAlloc?) && e.i == i then Owned(p) + {e.pg}
        else Owned(p)
  {
    hide *;
    InvTables(s);
    ProcOkOf(s, i);
    RecordIs(s, e, i);
    var p := s.procs[i];
    if e.Switch? || e.Flush? {
      SwitchedOwned(s.mem, p);
    } else if (e.Refill? || e.RootAlloc?) && e.i == i {
      GivenOwned(s, e, i);
    } else if e.Try? && e.i == i {
      TryReady(s, e);
      WalkConfined(s, i, e.v);
      KeptParts(s.mem, p, MmuWalk(s.mem, p, e.v).mem, MmuWalk(s.mem, p, e.v).p);
    }
    NothingOwned(p.newtlb);
    MarkOwned(p);
  }

  lemma NothingOwned(newtlb: bool)
    ensures Owned(NO_TABLES.(newtlb := newtlb)) == {}
  {
  }

  lemma MarkOwned(p: Pmmu)
    ensures Owned(p.(newtlb := true)) == Owned(p)
  {
  }

  lemma TryReady(s: Sys, e: Event)
    requires Enabled(s, e) && e.Try?
    ensures e.i in s.procs && s.procs[e.i].root.Some? && e.v.User()
  {
  }

  /** A process's record after a step, by the kind of step. */
  lemma RecordIs(s: Sys, e: Event, i: Pid)
    requires Enabled(s, e) && i in s.procs
    ensures var p := s.procs[i];
      ProcAfter(s, e, i) == (
        if e.MarkStale? && e.i == i then p.(newtlb := true)
        else if e.RootAlloc? && e.i == i then RootProc(p, e.pg)
        else if e.Try? && e.i == i then MmuWalk(s.mem, p, e.v).p
        else if e.Refill? && e.i == i then Push(p, e.pg)
        else if e.Switch? && e.i == i then Switched(p)
        else if e.Flush? && e.i == i then Switched(p.(newtlb := true))
        else if e.Release? && e.i == i then NO_TABLES.(newtlb := p.newtlb)
        else p)
  {
    hide RootProc, MmuWalk, Push, Switched, Unowned;
  }

  lemma StepOwned(s: Sys, e: Event, i: Pid)
    requires Inv(s) && Enabled(s, e) && i in s.procs && s.kroot in s.mem
    ensures i in Step(s, e).procs
    ensures Given(e, i) + multiset(Owned(s.procs[i])) == Returned(s, e, i) + multiset(Owned(Step(s, e).procs[i]))
  {
    StepProc(s, e, i);
    OwnedAfter(s, e, i);
    GivenReturned(s, e, i);
    hide Step, Inv, Owned, ProcAfter, Given, Returned, Enabled;
    var o := Owned(s.procs[i]);
    if e.Refill? || e.RootAlloc? {
      AddedOnce(o, e.pg);
    }
  }

  lemma GivenReturned(s: Sys, e: Event, i: Pid)
    requires Inv(s) && Enabled(s, e) && i in s.procs
    ensures Returned(s, e, i) == if e.Release? && e.i == i then multiset(Owned(s.procs[i])) else multiset{}
    ensures Given(e, i) == if (e.Refill? || e.RootAlloc?) && e.i == i then multiset{e.pg} else multiset{}
    ensures (e.Refill? || e.RootAlloc?) && e.i == i ==> e.pg !in Owned(s.procs[i])
  {
    assert ProcFits(s.mem, s.kroot, s.ktab, s.procs[i]);
    hide Owned, ProcOk, KTree, ReleasedPages;
    ReleasedOnce(s.mem, s.procs[i]);
  }

  lemma AddedOnce<T>(o: set<T>, x: T)
    ensures x !in o ==> multiset(o + {x}) == multiset(o) + multiset{x}
  {
  }

  ghost function GivenIn(es: seq<Event>, i: Pid): multiset<Page> {
    if es == [] then multiset{} else Given(es[0], i) + GivenIn(es[1..], i)
  }

  ghost function ReturnedIn(s: Sys, es: seq<Event>, i: Pid): multiset<Page>
    requires CanRun(s, es)
    decreases |es|
  {
    if es == [] then multiset{} else Returned(s, es[0], i) + ReturnedIn(Step(s, es[0]), es[1..], i)
  }

  /** Over every run, what a process was given plus what it had is what it gave back plus what it has. */
  lemma {:induction false} PagesConserved(s: Sys, es: seq<Event>, i: Pid)
    requires Inv(s) && CanRun(s, es) && i in s.procs
    ensures i in Run(s, es).procs
    ensures GivenIn(es, i) + multiset(Owned(s.procs[i])) == ReturnedIn(s, es, i) + multiset(Owned(Run(s, es).procs[i]))
    decreases |es|
  {
    if es != [] {
      StepEffect(s, es[0]);
      StepOwned(s, es[0], i);
      var s1 := Step(s, es[0]);
      hide Inv, Effect, Step, Owned, Given, Returned;
      PagesConserved(s1, es[1..], i);
      Telescopes(Given(es[0], i), multiset(Owned(s.procs[i])), Returned(s, es[0], i), multiset(Owned(s1.procs[i])),
                 GivenIn(es[1..], i), ReturnedIn(s1, es[1..], i), multiset(Owned(Run(s, es).procs[i])));
    }
  }

  lemma Telescopes<T>(g: multiset<T>, o: multiset<T>, r: multiset<T>, o1: multiset<T>,
                      g1: multiset<T>, r1: multiset<T>, o2: multiset<T>)
    requires g + o == r + o1 && g1 + o1 == r1 + o2
    ensures (g + g1) + o == (r + r1) + o2
  {
    assert (g + g1) + o == (g + o) + g1 == (r + o1) + g1 == r + (g1 + o1) == r + (r1 + o2);
  }

  // ----- the kernel half -----

  /** Some successful mmuuncache in the run covered kernel page v. */
  ghost predicate EverUncached(s: Sys, es: seq<Event>, v: Vpn)
    requires CanRun(s, es)
    decreases |es|
  {
    es != [] &&
    ( (es[0].Uncache? && Uncached(s, es[0]) && InRun(es[0].v, es[0].v.x0, es[0].n, v))
      || EverUncached(Step(s, es[0]), es[1..], v))
  }

  lemma {:induction false} KernelWalkAfter(s: Sys, es: seq<Event>, v: Vpn)
    requires Inv(s) && CanRun(s, es) && !v.User()
    ensures var x := Walk(s.mem, s.kroot, v);
            Walk(Run(s, es).mem, s.kroot, v) == if EverUncached(s, es, v) then ClearCX(x) else x
    ensures Run(s, es).kroot == s.kroot
    decreases |es|
  {
    if es != [] {
      StepEffect(s, es[0]);
      assert Walk(Step(s, es[0]).mem, s.kroot, v) == KernelAfter(s, es[0], v);
      hide Inv, Effect, Step, Walk, Uncached;
      KernelWalkAfter(Step(s, es[0]), es[1..], v);
    }
  }

  /**
   After any run, every live root gives each kernel address the boot root's translation, less the C bits cleared
   since.
   */
  lemma KernelHalfShared(s: Sys, es: seq<Event>, i: Pid, v: Vpn)
    requires Inv(s) && CanRun(s, es) && !v.User()
    requires i in Run(s, es).procs && Run(s, es).procs[i].root.Some?
    ensures var x := Walk(s.mem, s.kroot, v);
            Walk(Run(s, es).mem, Run(s, es).procs[i].root.value, v) == if EverUncached(s, es, v) then ClearCX(x) else x
  {
    RunKeepsInv(s, es);
    KernelWalkAfter(s, es, v);
    hide EverUncached;
    KernelShared(Run(s, es), i, v);
  }
}
