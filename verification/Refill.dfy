/** putmmu's refill-and-retry loop, with anything allowed to happen while newpage has interrupts on. */
module Refill {
  import opened Sv39
  import opened Lists
  import opened UserTree
  import opened KernelTree
  import opened ProcTables
  import opened Machine
  import opened Steps
  import opened Runs
  import opened Pages

  /** What may happen while process i is inside newpage: anything but i's own putmmu, flush or release. */
  predicate Background(e: Event, i: Pid) {
    match e
    case RootAlloc(j, _) => j != i
    case Load(j) => j != i
    case Try(j, _, _) => j != i
    case Refill(j, _) => j != i
    case Flush(j) => j != i
    case Release(j) => j != i
    case _ => true
  }

  /** Pages the walk to v still has to be given. */
  function Demand(p: Pmmu, v: Vpn): int { Missing(p.tab, v) - |p.free| }

  lemma BackgroundDemand(s: Sys, e: Event, i: Pid, v: Vpn)
    requires Inv(s) && Enabled(s, e) && Background(e, i) && i in s.procs && s.procs[i].root.Some? && s.kroot in s.mem
    ensures i in Step(s, e).procs && Step(s, e).procs[i].root == s.procs[i].root
    ensures Demand(Step(s, e).procs[i], v) <= Demand(s.procs[i], v)
  {
    assert ProcFits(s.mem, s.kroot, s.ktab, s.procs[i]);
    StepProc(s, e, i);
    hide Step, Inv, ProcOk, MmuWalk;
    FreeMissing(s.mem, s.procs[i], v);
  }

  lemma {:induction false} WindowDemand(s: Sys, es: seq<Event>, i: Pid, v: Vpn)
    requires Inv(s) && CanRun(s, es) && i in s.procs && s.procs[i].root.Some?
    requires forall e :: e in es ==> Background(e, i)
    ensures i in Run(s, es).procs && Run(s, es).procs[i].root == s.procs[i].root
    ensures Demand(Run(s, es).procs[i], v) <= Demand(s.procs[i], v)
    decreases |es|
  {
    if es != [] {
      StepEffect(s, es[0]);
      BackgroundDemand(s, es[0], i, v);
      hide Inv, Effect, Step;
      WindowDemand(Step(s, es[0]), es[1..], i, v);
    }
  }

  /** One turn of the loop: what happened while newpage slept, and the page it returned. */
  datatype Round = Round(window: seq<Event>, page: Page)

  /** The rounds are possible: each window can run, and each page is no one's. */
  ghost predicate RoundsOk(s: Sys, i: Pid, v: Vpn, m: Mapping, rs: seq<Round>)
    decreases |rs|
  {
    && Enabled(s, Try(i, v, m)) && s.kroot in s.mem
    && (rs != [] && !Landed(s, Try(i, v, m)) ==>
          var s1 := Step(s, Try(i, v, m));
          && (forall e :: e in rs[0].window ==> Background(e, i))
          && CanRun(s1, rs[0].window)
          && Enabled(Run(s1, rs[0].window), Refill(i, rs[0].page))
          && RoundsOk(RefillStep(Run(s1, rs[0].window), i, rs[0].page), i, v, m, rs[1..]))
  }

  datatype Outcome = Outcome(s: Sys, calls: nat, landed: bool)

  /** The loop: try; on nil, sleep in newpage, push its page and try again. */
  ghost function Putmmu(s: Sys, i: Pid, v: Vpn, m: Mapping, rs: seq<Round>): Outcome
    requires RoundsOk(s, i, v, m, rs)
    decreases |rs|
  {
    var s1 := Step(s, Try(i, v, m));
    if Landed(s, Try(i, v, m)) then Outcome(s1, 0, true)
    else if rs == [] then Outcome(s1, 0, false)
    else
      var o := Putmmu(RefillStep(Run(s1, rs[0].window), i, rs[0].page), i, v, m, rs[1..]);
      o.(calls := o.calls + 1)
  }

  /** A walk that fails lacked pages, and still lacks as many. */
  lemma FailedTry(s: Sys, i: Pid, v: Vpn, m: Mapping)
    requires Inv(s) && Enabled(s, Try(i, v, m)) && !Landed(s, Try(i, v, m))
    ensures s.kroot in s.mem
    ensures var s1 := Step(s, Try(i, v, m));
      && Inv(s1) && i in s1.procs && s1.procs[i].root == s.procs[i].root
      && Demand(s1.procs[i], v) == Demand(s.procs[i], v) > 0
  {
    hide *;
    InvTables(s);
    TryDefined(s, i, v, m);
    StepEffect(s, Try(i, v, m));
    EffectInv(s, Try(i, v, m), Step(s, Try(i, v, m)));
    StepProc(s, Try(i, v, m), i);
    RecordIs(s, Try(i, v, m), i);
    WalkConfined(s, i, v);
    var w := MmuWalk(s.mem, s.procs[i], v);
    KeptParts(s.mem, s.procs[i], w.mem, w.p);
    DemandIs(w.p, v);
    DemandIs(s.procs[i], v);
  }

  lemma TryDefined(s: Sys, i: Pid, v: Vpn, m: Mapping)
    requires Enabled(s, Try(i, v, m))
    ensures i in s.procs && s.procs[i].root.Some? && v.User()
    ensures Landed(s, Try(i, v, m)) == MmuWalk(s.mem, s.procs[i], v).table.Some?
  {
    hide MmuWalk;
  }

  lemma EffectInv(s: Sys, e: Event, s': Sys)
    requires Enabled(s, e) && Effect(s, e, s')
    ensures Inv(s') && s'.procs.Keys == s.procs.Keys
  {
    hide Inv, Walk, UserWalk, UserAfter, KernelAfter;
  }

  lemma DemandIs(p: Pmmu, v: Vpn)
    ensures Demand(p, v) == Missing(p.tab, v) - |p.free|
  {
    hide Missing;
  }

  lemma PushDemand(s: Sys, i: Pid, pg: Page, v: Vpn)
    requires Inv(s) && Enabled(s, Refill(i, pg))
    ensures var s' := RefillStep(s, i, pg);
      && Inv(s') && i in s'.procs && s'.procs[i].root == s.procs[i].root
      && Demand(s'.procs[i], v) == Demand(s.procs[i], v) - 1
  {
    RefillEffect(s, i, pg);
    hide Inv;
  }

  /** A failed round leaves the walk at least one page closer, whatever the window did. */
  lemma FailedRound(s: Sys, i: Pid, v: Vpn, m: Mapping, r: Round)
    requires Inv(s) && RoundsOk(s, i, v, m, [r]) && !Landed(s, Try(i, v, m))
    ensures var s2 := RefillStep(Run(Step(s, Try(i, v, m)), r.window), i, r.page);
      && Inv(s2) && i in s2.procs && s2.procs[i].root == s.procs[i].root
      && Demand(s.procs[i], v) > 0
      && Demand(s2.procs[i], v) <= Demand(s.procs[i], v) - 1
  {
    FailedTry(s, i, v, m);
    var s1 := Step(s, Try(i, v, m));
    hide Inv, Step, Demand, Landed;
    WindowDemand(s1, r.window, i, v);
    RunKeepsInv(s1, r.window);
    PushDemand(Run(s1, r.window), i, r.page, v);
  }

  /**
   The loop calls newpage at most as often as the walk lacks pages, hence at most twice, and then lands.
   */
  lemma {:induction false} RefillBound(s: Sys, i: Pid, v: Vpn, m: Mapping, rs: seq<Round>)
    requires Inv(s) && RoundsOk(s, i, v, m, rs) && |rs| >= Demand(s.procs[i], v)
    ensures var o := Putmmu(s, i, v, m, rs);
      && o.landed && o.calls <= 2
      && (o.calls > 0 ==> o.calls <= Demand(s.procs[i], v))
      && Inv(o.s) && i in o.s.procs
      && UserWalk(o.s, i, v) == Maps(m.frame, UserAttr(m))
    decreases |rs|
  {
    hide *;
    var e := Try(i, v, m);
    RoundsParts(s, i, v, m, rs);
    TryDefined(s, i, v, m);
    MissingBound(s.procs[i].tab, v);
    DemandIs(s.procs[i], v);
    if Landed(s, e) {
      TryLands(s, i, v, m);
      TryIs(s, i, v, m);
      LandsAtOnce(s, i, v, m, rs);
    } else if rs == [] {
      FailedTry(s, i, v, m);
    } else {
      RoundAlone(s, i, v, m, rs);
      FailedRound(s, i, v, m, rs[0]);
      LoopAgain(s, i, v, m, rs);
      var s2 := RefillStep(Run(Step(s, e), rs[0].window), i, rs[0].page);
      RefillBound(s2, i, v, m, rs[1..]);
    }
  }

  lemma RoundsParts(s: Sys, i: Pid, v: Vpn, m: Mapping, rs: seq<Round>)
    requires RoundsOk(s, i, v, m, rs)
    ensures Enabled(s, Try(i, v, m)) && s.kroot in s.mem
  {
    hide Enabled;
  }

  lemma TryIs(s: Sys, i: Pid, v: Vpn, m: Mapping)
    requires Enabled(s, Try(i, v, m)) && s.kroot in s.mem
    ensures i in s.procs && Step(s, Try(i, v, m)) == TryStep(s, i, v, m)
        && TryStep(s, i, v, m).procs.Keys == s.procs.Keys
  {
    hide MmuWalk, Store, UserAttr;
  }

  lemma LandsAtOnce(s: Sys, i: Pid, v: Vpn, m: Mapping, rs: seq<Round>)
    requires RoundsOk(s, i, v, m, rs) && Enabled(s, Try(i, v, m)) && Landed(s, Try(i, v, m))
    ensures s.kroot in s.mem && Putmmu(s, i, v, m, rs) == Outcome(Step(s, Try(i, v, m)), 0, true)
  {
    hide Step, Landed, Enabled;
  }

  lemma RoundAlone(s: Sys, i: Pid, v: Vpn, m: Mapping, rs: seq<Round>)
    requires RoundsOk(s, i, v, m, rs) && rs != [] && Enabled(s, Try(i, v, m)) && !Landed(s, Try(i, v, m))
    ensures RoundsOk(s, i, v, m, [rs[0]])
  {
    hide Step, Landed, RefillStep, Run, CanRun;
    var s2 := RefillStep(Run(Step(s, Try(i, v, m)), rs[0].window), i, rs[0].page);
    assert RoundsOk(s2, i, v, m, []);
  }

  lemma LoopAgain(s: Sys, i: Pid, v: Vpn, m: Mapping, rs: seq<Round>)
    requires RoundsOk(s, i, v, m, rs) && rs != [] && Enabled(s, Try(i, v, m)) && !Landed(s, Try(i, v, m))
    ensures s.kroot in s.mem && CanRun(Step(s, Try(i, v, m)), rs[0].window)
    ensures i in Run(Step(s, Try(i, v, m)), rs[0].window).procs
    ensures var s2 := RefillStep(Run(Step(s, Try(i, v, m)), rs[0].window), i, rs[0].page);
      && RoundsOk(s2, i, v, m, rs[1..])
      && var o := Putmmu(s2, i, v, m, rs[1..]); Putmmu(s, i, v, m, rs) == o.(calls := o.calls + 1)
  {
    hide Step, Landed, RefillStep, Run, CanRun;
  }

  /** Whatever runs after mmurootalloc published pg, satpset finds it still published. */
  lemma RootStays(s: Sys, i: Pid, pg: Page, es: seq<Event>)
    requires Inv(s) && Enabled(s, RootAlloc(i, pg)) && s.kroot in s.mem && i in s.procs
    requires CanRun(RootStep(s, i, pg), es) && forall e :: e in es ==> Background(e, i)
    ensures var s' := Run(RootStep(s, i, pg), es);
      Inv(s') && Enabled(s', Load(i)) && i in s'.procs && LoadStep(s', i).satp == Some(pg)
  {
    hide *;
    RootRecord(s, i, pg);
    var s1 := RootStep(s, i, pg);
    RootEffect(s, i, pg);
    WindowDemand(s1, es, i, Vpn(0, 0, 0));
    RunKeepsInv(s1, es);
    LoadIf(Run(s1, es), i);
    LoadEffect(Run(s1, es), i);
  }

  lemma RootRecord(s: Sys, i: Pid, pg: Page)
    requires Enabled(s, RootAlloc(i, pg)) && s.kroot in s.mem
    ensures i in s.procs && s.procs[i].root.None? && Unowned(s, pg)
    ensures var s' := RootStep(s, i, pg);
      && s'.mem.Keys == s.mem.Keys + {pg} && s'.kroot == s.kroot && s'.ktab == s.ktab && i in s'.procs
      && s'.procs == s.procs[i := s'.procs[i]] && s'.procs[i].root == Some(pg)
      && Owned(s'.procs[i]) <= Owned(s.procs[i]) + {pg}
  {
    hide Unowned;
  }

  lemma LoadIf(s: Sys, i: Pid)
    requires i in s.procs && s.procs[i].root.Some?
    ensures Enabled(s, Load(i))
  {
  }

  /** Rounds in which nothing else runs and newpage returns these pages. */
  function QuietRounds(pages: seq<Page>): seq<Round> {
    seq(|pages|, n requires 0 <= n < |pages| => Round([], pages[n]))
  }

  /** What the bound assumes of newpage can be met: any distinct pages no one owns will do. */
  lemma {:induction false} QuietRoundsOk(s: Sys, i: Pid, v: Vpn, m: Mapping, pages: seq<Page>)
    requires Inv(s) && Enabled(s, Try(i, v, m)) && Distinct(pages)
    requires forall n :: 0 <= n < |pages| ==> Unowned(s, pages[n])
    ensures RoundsOk(s, i, v, m, QuietRounds(pages))
    decreases |pages|
  {
    hide *;
    KernelRootIn(s);
    QuietRoundsAt(pages);
    TryDefined(s, i, v, m);
    if pages != [] && !Landed(s, Try(i, v, m)) {
      var pg := pages[0];
      QuietTurn(s, i, v, m, pg);
      var s2 := RefillStep(Step(s, Try(i, v, m)), i, pg);
      DistinctTail(pages);
      forall n | 0 <= n < |pages[1..]| ensures Unowned(s2, pages[1..][n]) {
        StillUnowned(s, i, v, m, pg, pages[1..][n]);
      }
      QuietRoundsOk(s2, i, v, m, pages[1..]);
    }
    QuietRoundsIf(s, i, v, m, pages);
  }

  lemma KernelRootIn(s: Sys)
    requires Inv(s)
    ensures s.kroot in s.mem
  {
    hide TlbOk, SatpOk, ProcFits;
  }

  lemma QuietRoundsAt(pages: seq<Page>)
    ensures pages != [] ==> QuietRounds(pages) == [Round([], pages[0])] + QuietRounds(pages[1..])
    ensures pages == [] ==> QuietRounds(pages) == []
  {
  }

  lemma DistinctTail(pages: seq<Page>)
    requires Distinct(pages) && pages != []
    ensures Distinct(pages[1..]) && forall n :: 0 <= n < |pages[1..]| ==>
      pages[1..][n] == pages[n + 1] && pages[1..][n] != pages[0]
  {
  }

  lemma QuietTurn(s: Sys, i: Pid, v: Vpn, m: Mapping, pg: Page)
    requires Inv(s) && Enabled(s, Try(i, v, m)) && !Landed(s, Try(i, v, m)) && Unowned(s, pg)
    ensures s.kroot in s.mem
    ensures var s1 := Step(s, Try(i, v, m));
      && Enabled(s1, Event.Refill(i, pg)) && i in s1.procs
      && Inv(RefillStep(s1, i, pg)) && Enabled(RefillStep(s1, i, pg), Try(i, v, m))
  {
    hide *;
    FailedTry(s, i, v, m);
    TryDefined(s, i, v, m);
    UnownedAfterTry(s, i, v, m, pg);
    EnabledIf(Step(s, Try(i, v, m)), i, v, m, pg);
    PushDemand(Step(s, Try(i, v, m)), i, pg, v);
    EnabledIf(RefillStep(Step(s, Try(i, v, m)), i, pg), i, v, m, pg);
  }

  lemma EnabledIf(s: Sys, i: Pid, v: Vpn, m: Mapping, pg: Page)
    requires i in s.procs && s.procs[i].root.Some? && v.User()
    ensures Enabled(s, Try(i, v, m)) && (Unowned(s, pg) ==> Enabled(s, Event.Refill(i, pg)))
  {
    hide Unowned;
  }

  lemma UnownedAfterTry(s: Sys, i: Pid, v: Vpn, m: Mapping, q: Page)
    requires Inv(s) && Enabled(s, Try(i, v, m)) && !Landed(s, Try(i, v, m)) && Unowned(s, q)
    ensures s.kroot in s.mem && Unowned(Step(s, Try(i, v, m)), q)
  {
    hide *;
    KernelRootIn(s);
    TryDefined(s, i, v, m);
    InvTables(s);
    WalkConfined(s, i, v);
    var w := MmuWalk(s.mem, s.procs[i], v);
    KeptParts(s.mem, s.procs[i], w.mem, w.p);
    TryIs(s, i, v, m);
    TryFailedIs(s, i, v, m);
    UnownedSame(s, Change(s, i, w.mem, w.p), i, q, {});
  }

  lemma TryFailedIs(s: Sys, i: Pid, v: Vpn, m: Mapping)
    requires Enabled(s, Try(i, v, m)) && !Landed(s, Try(i, v, m))
    ensures i in s.procs
    ensures var w, s' := MmuWalk(s.mem, s.procs[i], v), TryStep(s, i, v, m);
      s' == Change(s, i, w.mem, w.p) && s'.mem == w.mem && s'.procs == s.procs[i := w.p] && s'.kroot == s.kroot
          && s'.ktab == s.ktab
  {
    hide MmuWalk;
  }

  lemma UnownedSame(s: Sys, s': Sys, i: Pid, q: Page, more: set<Page>)
    requires Unowned(s, q) && q !in more && i in s.procs && i in s'.procs
    requires s'.mem.Keys == s.mem.Keys && s'.kroot == s.kroot && s'.ktab == s.ktab
        && s'.procs == s.procs[i := s'.procs[i]]
    requires Owned(s'.procs[i]) <= Owned(s.procs[i]) + more
    ensures Unowned(s', q)
  {
    hide Owned, KOwned;
  }

  lemma StillUnowned(s: Sys, i: Pid, v: Vpn, m: Mapping, pg: Page, q: Page)
    requires Inv(s) && Enabled(s, Try(i, v, m)) && !Landed(s, Try(i, v, m)) && Unowned(s, pg) && Unowned(s, q)
        && q != pg
    ensures s.kroot in s.mem && i in Step(s, Try(i, v, m)).procs && Unowned(RefillStep(Step(s, Try(i, v, m)), i, pg), q)
  {
    hide *;
    FailedTry(s, i, v, m);
    UnownedAfterTry(s, i, v, m, q);
    var s1 := Step(s, Try(i, v, m));
    RefillIs(s1, i, pg);
    UnownedSame(s1, RefillStep(s1, i, pg), i, q, {pg});
  }

  lemma RefillIs(s: Sys, i: Pid, pg: Page)
    requires i in s.procs
    ensures var s' := RefillStep(s, i, pg);
      && s'.mem == s.mem && s'.kroot == s.kroot && s'.ktab == s.ktab && i in s'.procs
      && s'.procs == s.procs[i := s'.procs[i]] && Owned(s'.procs[i]) <= Owned(s.procs[i]) + {pg}
  {
    assert Elems([pg] + s.procs[i].free) == {pg} + Elems(s.procs[i].free);
  }

  lemma QuietRoundsIf(s: Sys, i: Pid, v: Vpn, m: Mapping, pages: seq<Page>)
    requires Enabled(s, Try(i, v, m)) && s.kroot in s.mem
    requires pages == [] ==> QuietRounds(pages) == []
    requires pages != [] ==> QuietRounds(pages) == [Round([], pages[0])] + QuietRounds(pages[1..])
    requires pages != [] && !Landed(s, Try(i, v, m)) ==>
      var s1 := Step(s, Try(i, v, m));
      Enabled(s1, Event.Refill(i, pages[0])) && i in s1.procs
      && RoundsOk(RefillStep(s1, i, pages[0]), i, v, m, QuietRounds(pages[1..]))
    ensures RoundsOk(s, i, v, m, QuietRounds(pages))
  {
    hide QuietRounds, Step, Landed, RefillStep, Unowned;
    if pages != [] {
      assert QuietRounds(pages)[0] == Round([], pages[0]) && QuietRounds(pages)[1..] == QuietRounds(pages[1..]);
    }
  }

  lemma MissingBound(tab: Tables, v: Vpn)
    ensures Missing(tab, v) <= 2
  {
  }

  /** A first putmmu can go through when nothing else runs: any distinct pages no one owns will do. */
  lemma FirstPutOk(s: Sys, i: Pid, v: Vpn, m: Mapping, pg: Page, pages: seq<Page>)
    requires Inv(s) && i in s.procs && s.procs[i].root.None? && v.User() && Distinct([pg] + pages)
    requires Unowned(s, pg) && forall n :: 0 <= n < |pages| ==> Unowned(s, pages[n])
    ensures var es := [RootAlloc(i, pg), Load(i)];
      CanRun(s, es) && RoundsOk(Run(s, es), i, v, m, QuietRounds(pages))
  {
    hide *;
    KernelRootIn(s);
    RootIf(s, i, pg);
    RootRecord(s, i, pg);
    RootEffect(s, i, pg);
    var s1 := RootStep(s, i, pg);
    LoadIf(s1, i);
    LoadEffect(s1, i);
    var s2 := LoadStep(s1, i);
    LoadRecord(s1, i);
    FirstRun(s, i, pg);
    DistinctTail([pg] + pages);
    assert ([pg] + pages)[1..] == pages;
    forall n | 0 <= n < |pages| ensures Unowned(s2, pages[n]) {
      MemKept(s, pg);
      UnownedSame(s, s2, i, pages[n], {pg});
    }
    EnabledIf(s2, i, v, m, pg);
    QuietRoundsOk(s2, i, v, m, pages);
  }

  lemma MemKept(s: Sys, pg: Page)
    requires Unowned(s, pg)
    ensures s.mem.Keys + {pg} == s.mem.Keys
  {
    hide Owned, KOwned;
  }

  lemma RootIf(s: Sys, i: Pid, pg: Page)
    requires i in s.procs && s.procs[i].root.None? && Unowned(s, pg)
    ensures Enabled(s, RootAlloc(i, pg))
  {
    hide Unowned;
  }

  lemma LoadRecord(s: Sys, i: Pid)
    requires i in s.procs
    ensures var s' := LoadStep(s, i); s'.mem == s.mem && s'.procs == s.procs && s'.kroot == s.kroot && s'.ktab == s.ktab
  {
  }

  lemma FirstRun(s: Sys, i: Pid, pg: Page)
    requires Enabled(s, RootAlloc(i, pg)) && s.kroot in s.mem && i in s.procs
    requires var s1 := RootStep(s, i, pg); Enabled(s1, Load(i)) && s1.kroot in s1.mem && i in s1.procs
    ensures var es := [RootAlloc(i, pg), Load(i)]; CanRun(s, es) && Run(s, es) == LoadStep(RootStep(s, i, pg), i)
  {
    hide Enabled, RootStep, LoadStep;
    var es := [RootAlloc(i, pg), Load(i)];
    assert es[1..] == [Load(i)] && es[1..][1..] == [];
    var s1 := Step(s, es[0]);
    assert s1 == RootStep(s, i, pg);
    var s2 := Step(s1, Load(i));
    assert s2 == LoadStep(s1, i) && Run(s2, []) == s2 && CanRun(s2, []);
    assert CanRun(s1, es[1..]) && Run(s1, es[1..]) == s2;
  }
}
