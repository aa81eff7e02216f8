/**
 putmmu whole: the first root, with interrupts on but for satpset, and the refill loop,
   with interrupts on inside newpage.
 What happens while interrupts are on is a parameter: any sequence of calls the machine could make.
 */
module PutmmuLoop {
  import opened Sv39
  import opened Lists
  import opened KernelTree
  import opened ProcTables
  import opened Machine
  import opened Steps
  import opened StepParts
  import opened Runs
  import opened Refill
  import opened PteWords
  import opened RamWords
  import opened BlockRuns
  import opened Mmu
  import opened HwWalk

  /** A piece of mmu.c that runs whole, with the arguments the C code has, or a step of the world around it. */
  datatype Call =
    | DoCache(v: Vpn)
    | DoScribble(pg: Page, ws: Words)
    | DoMark(i: Pid)
    | DoFirstRoot(i: Pid, pg: Page)
    | DoLoad(i: Pid)
    | DoTry(i: Pid, va: Word, pa: Word)
    | DoPush(i: Pid, pg: Page)
    | DoSwitch(i: Pid)
    | DoIdle
    | DoFlush(i: Pid)
    | DoRelease(i: Pid)
    | DoUncache(va: Word, size: Word, l0: Option<Page>)

  function EventOf(c: Call): Event {
    match c
    case DoCache(v) => Cache(v)
    case DoScribble(pg, ws) => Scribble(pg, DecodeTable(ws))
    case DoMark(i) => MarkStale(i)
    case DoFirstRoot(i, pg) => RootAlloc(i, pg)
    case DoLoad(i) => Load(i)
    case DoTry(i, va, pa) => Try(i, VpnOf(va), MappingOf(pa))
    case DoPush(i, pg) => Event.Refill(i, pg)
    case DoSwitch(i) => Switch(i)
    case DoIdle => SwitchIdle
    case DoFlush(i) => Flush(i)
    case DoRelease(i) => Release(i)
    case DoUncache(va, size, l0) => Uncache(VpnOf(va), PagesBelow(size), l0)
  }

  /** Arguments mmu.c can be given: user addresses, 56-bit physical addresses, one 2 MB block. */
  predicate ArgsOk(c: Call) {
    match c
    case DoTry(i, va, pa) => va >> 38 == 0 && pa >> 56 == 0
    case DoUncache(va, size, l0) => size >> 32 == 0 && OneBlock(va, size)
    case _ => true
  }

  function Events(cs: seq<Call>): (es: seq<Event>)
    ensures |es| == |cs|
  {
    if cs == [] then [] else [EventOf(cs[0])] + Events(cs[1..])
  }

  lemma {:induction false} RunUpToTlb(s: Sys, t: Sys, es: seq<Event>)
    requires UpToTlb(s, t) && CanRun(s, es)
    ensures CanRun(t, es) && UpToTlb(Run(s, es), Run(t, es))
    decreases |es|
  {
    if es != [] {
      StepUpToTlb(s, t, es[0]);
      hide Step, Enabled, UpToTlb;
      RunUpToTlb(Step(s, es[0]), Step(t, es[0]), es[1..]);
    }
  }

  lemma KrootInMem(s: Sys)
    requires Inv(s)
    ensures s.kroot in s.mem
  {
    assert s.kroot in KOwned(s.kroot, s.ktab);
    hide KTree;
    KOwnedInMem(s, s.kroot);
  }

  lemma CacheUpToTlb(s: Sys, v: Vpn)
    ensures UpToTlb(s.(tlb := s.tlb + {Cached(v, CurrentWalk(s, v))}), s)
  {
  }

  /** The pieces that concern no one process. */
  method PerformShared(k: Kernel, c: Call)
    requires k.Valid() && ArgsOk(c) && Enabled(k.State(), EventOf(c))
    requires c.DoCache? || c.DoScribble? || c.DoIdle? || c.DoUncache?
    modifies k, k.procs.Values, k.pages.Values, k.dcache
    ensures k.Valid() && old(k.State()).kroot in old(k.State()).mem
    ensures k.Reached(Step(old(k.State()), EventOf(c)))
  {
    hide *;
    ghost var s := k.State();
    k.Opened();
    KrootInMem(s);
    SharedStepIs(s, c);
    match c {
      case DoUncache(va, size, l0) =>
        var _ := k.Mmuuncache(va, size, l0);
      case DoCache(v) =>
        k.Cache(v);
        CacheUpToTlb(s, v);
        k.ReachedMeans(s);
        UpToTlbTrans(Step(s, Cache(v)), s, k.State());
        k.ReachedIf(Step(s, Cache(v)));
      case DoScribble(pg, ws) => k.Scribble(pg, ws);
      case DoIdle => k.MmuswitchNil();
    }
  }

  lemma SharedStepIs(s: Sys, c: Call)
    requires Enabled(s, EventOf(c)) && s.kroot in s.mem && ArgsOk(c)
    requires c.DoCache? || c.DoScribble? || c.DoIdle? || c.DoUncache?
    ensures var s' := Step(s, EventOf(c));
      match c
      case DoCache(v) => s' == s.(tlb := s.tlb + {Cached(v, CurrentWalk(s, v))}) && EventOf(c) == Cache(v)
      case DoScribble(pg, ws) => Unowned(s, pg) && s' == s.(mem := s.mem[pg := DecodeTable(ws)])
      case DoIdle => s' == SetSatp(s, Some(s.kroot))
      case DoUncache(va, size, l0) =>
        size >> 32 == 0 && OneBlock(va, size) && (l0.Some? ==> Unowned(s, l0.value))
        && s' == UncacheStep(s, VpnOf(va), PagesBelow(size), l0)
      case _ => true
  {
    hide UncacheStep, DecodeTable, CurrentWalk, VpnOf, PagesBelow, OneBlock;
  }

  lemma ProcStepIs(s: Sys, c: Call)
    requires Enabled(s, EventOf(c)) && s.kroot in s.mem
    requires !(c.DoCache? || c.DoScribble? || c.DoIdle? || c.DoUncache?)
    ensures c.i in s.procs
    ensures var s' := Step(s, EventOf(c));
      match c
      case DoMark(i) => s' == StaleStep(s, i)
      case DoFirstRoot(i, pg) => Enabled(s, RootAlloc(i, pg)) && s' == RootStep(s, i, pg)
      case DoLoad(i) => s.procs[i].root.Some? && s' == LoadStep(s, i)
      case DoTry(i, va, pa) => s.procs[i].root.Some? && s' == TryStep(s, i, VpnOf(va), MappingOf(pa))
      case DoPush(i, pg) => Enabled(s, Event.Refill(i, pg)) && s' == RefillStep(s, i, pg)
      case DoSwitch(i) => s' == SwitchStep(s, i)
      case DoFlush(i) => s' == SwitchStep(StaleStep(s, i), i)
      case DoRelease(i) => s' == ReleaseStep(s, i)
      case _ => true
  {
    hide SwitchStep, ReleaseStep, RootStep, LoadStep, TryStep, StaleStep, RefillStep, MmuWalk, VpnOf, MappingOf;
  }

  /** The pieces that work on one process's record. */
  method PerformProc(k: Kernel, c: Call)
    requires k.Valid() && ArgsOk(c) && Enabled(k.State(), EventOf(c))
    requires !(c.DoCache? || c.DoScribble? || c.DoIdle? || c.DoUncache?)
    modifies k, k.procs.Values, k.pages.Values, k.dcache
    ensures k.Valid() && old(k.State()).kroot in old(k.State()).mem
    ensures k.Reached(Step(old(k.State()), EventOf(c)))
  {
    ghost var s := k.State();
    assert c.DoTry? ==> c.va >> 38 == 0 && c.pa >> 56 == 0;
    hide *;
    k.Opened();
    KrootInMem(s);
    ProcStepIs(s, c);
    k.procs[c.i].Fields();
    assert k.procs[c.i] in k.procs.Values;
    match c {
      case DoMark(i) => k.MarkNewtlb(i);
      case DoFirstRoot(i, pg) => k.FirstRoot(i, pg);
      case DoLoad(i) => k.LoadSatp(i);
      case DoTry(i, va, pa) => var _ := k.TryPut(i, va, pa);
      case DoPush(i, pg) => k.PushFree(i, pg);
      case DoSwitch(i) => k.Mmuswitch(i);
      case DoFlush(i) => k.Flushmmu(i);
      case DoRelease(i) => var _, _ := k.Mmurelease(i);
    }
  }

  /** Every piece does to the machine what its step says. */
  method Perform(k: Kernel, c: Call)
    requires k.Valid() && ArgsOk(c) && Enabled(k.State(), EventOf(c))
    modifies k, k.procs.Values, k.pages.Values, k.dcache
    ensures k.Valid() && old(k.State()).kroot in old(k.State()).mem
    ensures k.Reached(Step(old(k.State()), EventOf(c)))
  {
    hide *;
    if c.DoCache? || c.DoScribble? || c.DoIdle? || c.DoUncache? {
      PerformShared(k, c);
    } else {
      PerformProc(k, c);
    }
  }

  /** Interrupts are on: cs happens. */
  method Window(k: Kernel, cs: seq<Call>)
    requires k.Valid() && (forall c :: c in cs ==> ArgsOk(c)) && CanRun(k.State(), Events(cs))
    modifies k, k.procs.Values, k.pages.Values, k.dcache
    ensures k.Valid() && k.Reached(Run(old(k.State()), Events(cs)))
    decreases |cs|
  {
    ghost var s := k.State();
    ghost var es := Events(cs);
    if cs == [] {
      return;
    }
    Perform(k, cs[0]);
    ghost var t := k.State();
    RunUpToTlb(Step(s, es[0]), t, es[1..]);
    hide Step, Enabled;
    Window(k, cs[1..]);
  }

  // ----- the loop -----

  /** One turn of the loop: what happens while newpage sleeps, and the page it gives. */
  datatype Turn = Turn(window: seq<Call>, page: Page)

  function RoundsOf(ts: seq<Turn>): (rs: seq<Round>)
    ensures |rs| == |ts|
    ensures forall n :: 0 <= n < |ts| ==> rs[n] == Round(Events(ts[n].window), ts[n].page)
  {
    if ts == [] then [] else [Round(Events(ts[0].window), ts[0].page)] + RoundsOf(ts[1..])
  }

  lemma {:induction false} LoopUpToTlb(s: Sys, t: Sys, i: Pid, v: Vpn, m: Mapping, rs: seq<Round>)
    requires UpToTlb(s, t) && RoundsOk(s, i, v, m, rs)
    ensures RoundsOk(t, i, v, m, rs)
    ensures var a, b := Putmmu(s, i, v, m, rs), Putmmu(t, i, v, m, rs);
      UpToTlb(a.s, b.s) && a.calls == b.calls && a.landed == b.landed
    decreases |rs|
  {
    var e := Try(i, v, m);
    StepUpToTlb(s, t, e);
    if rs != [] && !Landed(s, e) {
      var s1, t1 := Step(s, e), Step(t, e);
      RunUpToTlb(s1, t1, rs[0].window);
      var s2, t2 := Run(s1, rs[0].window), Run(t1, rs[0].window);
      PushUpToTlb(s2, t2, i, rs[0].page);
      hide Step, Enabled, UpToTlb, RefillStep, Landed;
      LoopUpToTlb(RefillStep(s2, i, rs[0].page), RefillStep(t2, i, rs[0].page), i, v, m, rs[1..]);
    }
  }

  lemma PushUpToTlb(s: Sys, t: Sys, i: Pid, pg: Page)
    requires UpToTlb(s, t) && Enabled(s, Event.Refill(i, pg))
    ensures Enabled(t, Event.Refill(i, pg)) && UpToTlb(RefillStep(s, i, pg), RefillStep(t, i, pg))
  {
    hide Unowned;
    EnabledUpToTlb(s, t, Event.Refill(i, pg));
  }

  /** The loop stands before its next walk in state s, having taken n of its turns. */
  ghost predicate Standing(s0: Sys, s: Sys, i: Pid, v: Vpn, m: Mapping, rs: seq<Round>, n: nat) {
    && n <= |rs| && RoundsOk(s0, i, v, m, rs) && RoundsOk(s, i, v, m, rs[n..]) && Inv(s)
    && var a, b := Putmmu(s0, i, v, m, rs), Putmmu(s, i, v, m, rs[n..]);
       UpToTlb(a.s, b.s) && a.calls == n + b.calls && a.landed == b.landed
  }

  ghost predicate LoopLands(s: Sys, i: Pid, v: Vpn, m: Mapping, rs: seq<Round>) {
    RoundsOk(s, i, v, m, rs) && Putmmu(s, i, v, m, rs).landed
  }

  lemma StandFirst(s: Sys, i: Pid, v: Vpn, m: Mapping, rs: seq<Round>)
    requires RoundsOk(s, i, v, m, rs) && Inv(s)
    ensures Standing(s, s, i, v, m, rs, 0)
  {
    assert rs[0..] == rs;
    hide Inv, RoundsOk, Putmmu;
  }

  /** A walk that lands ends the loop where the specification ends. */
  lemma StandLanded(s0: Sys, s: Sys, i: Pid, v: Vpn, m: Mapping, rs: seq<Round>, n: nat)
    requires Standing(s0, s, i, v, m, rs, n) && Enabled(s, Try(i, v, m)) && Landed(s, Try(i, v, m))
    ensures RoundsOk(s0, i, v, m, rs)
    ensures var a := Putmmu(s0, i, v, m, rs); UpToTlb(a.s, TryStep(s, i, v, m)) && a.calls == n
  {
    hide TryStep, Landed, UpToTlb;
  }

  /** A walk that fails has a turn left, and the turn can be taken. */
  lemma StandFailed(s0: Sys, s: Sys, i: Pid, v: Vpn, m: Mapping, rs: seq<Round>, n: nat)
    requires Standing(s0, s, i, v, m, rs, n) && LoopLands(s0, i, v, m, rs)
    requires Enabled(s, Try(i, v, m)) && !Landed(s, Try(i, v, m))
    ensures n < |rs|
    ensures var s1 := TryStep(s, i, v, m);
      && CanRun(s1, rs[n].window)
      && var s2 := Run(s1, rs[n].window);
         Enabled(s2, Event.Refill(i, rs[n].page))
  {
    hide TryStep, Landed, UpToTlb, Inv;
  }

  lemma StandNext(s0: Sys, s: Sys, t: Sys, i: Pid, v: Vpn, m: Mapping, rs: seq<Round>, n: nat)
    requires Standing(s0, s, i, v, m, rs, n) && n < |rs| && Inv(t)
    requires Enabled(s, Try(i, v, m)) && !Landed(s, Try(i, v, m))
    requires CanRun(TryStep(s, i, v, m), rs[n].window)
    requires Enabled(Run(TryStep(s, i, v, m), rs[n].window), Event.Refill(i, rs[n].page))
    requires UpToTlb(RefillStep(Run(TryStep(s, i, v, m), rs[n].window), i, rs[n].page), t)
    ensures Standing(s0, t, i, v, m, rs, n + 1)
  {
    hide *;
    StandParts(s0, s, i, v, m, rs, n);
    TailIs(rs, n);
    LoopAgain(s, i, v, m, rs[n..]);
    TryDefined(s, i, v, m);
    TryIs(s, i, v, m);
    var s2 := RefillStep(Run(TryStep(s, i, v, m), rs[n].window), i, rs[n].page);
    LoopUpToTlb(s2, t, i, v, m, rs[n + 1..]);
    UpToTlbTrans(Putmmu(s0, i, v, m, rs).s, Putmmu(s2, i, v, m, rs[n + 1..]).s, Putmmu(t, i, v, m, rs[n + 1..]).s);
    StandIf(s0, t, i, v, m, rs, n + 1);
  }

  lemma TailIs(rs: seq<Round>, n: nat)
    requires n < |rs|
    ensures rs[n..] != [] && rs[n..][1..] == rs[n + 1..] && rs[n..][0] == rs[n]
  {
  }

  lemma StandParts(s0: Sys, s: Sys, i: Pid, v: Vpn, m: Mapping, rs: seq<Round>, n: nat)
    requires Standing(s0, s, i, v, m, rs, n)
    ensures n <= |rs| && RoundsOk(s0, i, v, m, rs) && RoundsOk(s, i, v, m, rs[n..]) && Inv(s)
    ensures var a, b := Putmmu(s0, i, v, m, rs), Putmmu(s, i, v, m, rs[n..]);
       UpToTlb(a.s, b.s) && a.calls == n + b.calls && a.landed == b.landed
  {
    hide RoundsOk, Putmmu, Inv, UpToTlb;
  }

  lemma StandIf(s0: Sys, s: Sys, i: Pid, v: Vpn, m: Mapping, rs: seq<Round>, n: nat)
    requires n <= |rs| && RoundsOk(s0, i, v, m, rs) && RoundsOk(s, i, v, m, rs[n..]) && Inv(s)
    requires var a, b := Putmmu(s0, i, v, m, rs), Putmmu(s, i, v, m, rs[n..]);
       UpToTlb(a.s, b.s) && a.calls == n + b.calls && a.landed == b.landed
    ensures Standing(s0, s, i, v, m, rs, n)
  {
    hide RoundsOk, Putmmu, Inv, UpToTlb;
  }

  /** What every call of the loop needs of its parameters. */
  ghost predicate LoopReady(k: Kernel, i: Pid, va: Word, pa: Word, ts: seq<Turn>)
    reads k, k.procs.Values, k.pages.Values
  {
    && k.Valid() && i in k.procs && k.procs[i].mmuroot.Some? && va >> 38 == 0 && pa >> 56 == 0
    && (forall n :: 0 <= n < |ts| ==> forall c :: c in ts[n].window ==> ArgsOk(c))
    && |ts| == 2
    && RoundsOk(k.State(), i, VpnOf(va), MappingOf(pa), RoundsOf(ts))
  }

  /** A turn may be taken from s: its window, and then newpage's page. */
  ghost predicate CanSleep(s: Sys, i: Pid, turn: Turn) {
    CanRun(s, Events(turn.window)) && Enabled(Run(s, Events(turn.window)), Event.Refill(i, turn.page))
  }

  ghost function Slept(s: Sys, i: Pid, turn: Turn): Sys
    requires CanSleep(s, i, turn)
  {
    RefillStep(Run(s, Events(turn.window)), i, turn.page)
  }

  lemma SleepParts(s: Sys, i: Pid, turn: Turn)
    requires CanSleep(s, i, turn)
    ensures CanRun(s, Events(turn.window)) && Enabled(Run(s, Events(turn.window)), Event.Refill(i, turn.page))
    ensures i in Run(s, Events(turn.window)).procs
    ensures Slept(s, i, turn) == RefillStep(Run(s, Events(turn.window)), i, turn.page)
  {
    hide RefillStep, Unowned, CanRun, Run;
  }

  /** spllo, newpage with everything it lets in, splhi, and the push. */
  method SleepAndPush(k: Kernel, i: Pid, turn: Turn)
    requires k.Valid() && i in k.procs && (forall c :: c in turn.window ==> ArgsOk(c))
    requires CanSleep(k.State(), i, turn)
    modifies k, k.procs.Values, k.pages.Values, k.dcache
    ensures k.Valid()
    ensures k.Reached(Slept(old(k.State()), i, turn))
  {
    hide *;
    SleepParts(k.State(), i, turn);
    ghost var s2 := Run(k.State(), Events(turn.window));
    Window(k, turn.window);
    k.ReachedMeans(s2);
    ghost var t2 := k.State();
    PushUpToTlb(s2, t2, i, turn.page);
    k.PushFree(i, turn.page);
    k.ReachedMeans(RefillStep(t2, i, turn.page));
    UpToTlbTrans(RefillStep(s2, i, turn.page), RefillStep(t2, i, turn.page), k.State());
    k.ReachedIf(RefillStep(s2, i, turn.page));
  }

  lemma SleepIf(s: Sys, i: Pid, turn: Turn)
    requires CanRun(s, Events(turn.window)) && Enabled(Run(s, Events(turn.window)), Event.Refill(i, turn.page))
    ensures CanSleep(s, i, turn)
  {
    hide CanRun, Run, Enabled;
  }

  lemma UpToTlbTrans(a: Sys, b: Sys, c: Sys)
    requires UpToTlb(a, b) && UpToTlb(b, c)
    ensures UpToTlb(a, c)
  {
  }

  lemma RunAfter(s1: Sys, t1: Sys, i: Pid, r: Round)
    requires UpToTlb(s1, t1) && CanRun(s1, r.window) && Enabled(Run(s1, r.window), Event.Refill(i, r.page))
    ensures CanRun(t1, r.window) && Enabled(Run(t1, r.window), Event.Refill(i, r.page))
    ensures i in Run(s1, r.window).procs && i in Run(t1, r.window).procs
    ensures UpToTlb(RefillStep(Run(s1, r.window), i, r.page), RefillStep(Run(t1, r.window), i, r.page))
  {
    RunUpToTlb(s1, t1, r.window);
    hide UpToTlb, RefillStep, Enabled;
    PushUpToTlb(Run(s1, r.window), Run(t1, r.window), i, r.page);
  }

  lemma LoopStart(k: Kernel, i: Pid, va: Word, pa: Word, ts: seq<Turn>)
    requires LoopReady(k, i, va, pa, ts)
    ensures k.Valid() && i in k.procs && k.procs[i].mmuroot.Some? && va >> 38 == 0 && pa >> 56 == 0 && |ts| == 2
    ensures forall n :: 0 <= n < |ts| ==> forall c :: c in ts[n].window ==> ArgsOk(c)
    ensures var s, v, m, rs := k.State(), VpnOf(va), MappingOf(pa), RoundsOf(ts);
      && Inv(s) && RoundsOk(s, i, v, m, rs) && Enabled(s, Try(i, v, m))
      && var o := Putmmu(s, i, v, m, rs);
         LoopLands(s, i, v, m, rs) && o.calls <= 2 && i in o.s.procs
             && UserWalk(o.s, i, v) == Maps(m.frame, UserAttr(m))
  {
    ghost var v, m, rs := VpnOf(va), MappingOf(pa), RoundsOf(ts);
    ReadyNow(k, i, va, pa, ts);
    hide *;
    k.Opened();
    ghost var s := k.State();
    RoundsParts(s, i, v, m, rs);
    TryDefined(s, i, v, m);
    MissingBound(s.procs[i].tab, v);
    DemandIs(s.procs[i], v);
    RefillBound(s, i, v, m, rs);
    LandsIf(s, i, v, m, rs);
  }

  lemma ReadyNow(k: Kernel, i: Pid, va: Word, pa: Word, ts: seq<Turn>)
    requires LoopReady(k, i, va, pa, ts)
    ensures k.Valid() && i in k.procs && k.procs[i].mmuroot.Some? && va >> 38 == 0 && pa >> 56 == 0 && |ts| == 2
    ensures forall n :: 0 <= n < |ts| ==> forall c :: c in ts[n].window ==> ArgsOk(c)
    ensures RoundsOk(k.State(), i, VpnOf(va), MappingOf(pa), RoundsOf(ts))
  {
    hide RoundsOk, ArgsOk, VpnOf, MappingOf;
  }

  lemma LandsIf(s: Sys, i: Pid, v: Vpn, m: Mapping, rs: seq<Round>)
    requires RoundsOk(s, i, v, m, rs) && Putmmu(s, i, v, m, rs).landed
    ensures LoopLands(s, i, v, m, rs)
  {
    hide RoundsOk, Putmmu;
  }

  lemma StandReady(k: Kernel, s0: Sys, s: Sys, i: Pid, v: Vpn, m: Mapping, rs: seq<Round>, n: nat)
    requires Standing(s0, s, i, v, m, rs, n) && s == k.State() && k.Valid()
    ensures Enabled(s, Try(i, v, m)) && i in k.procs && k.procs[i].mmuroot.Some?
    ensures i in s.procs && s.procs[i].root.Some?
  {
    hide *;
    StandParts(s0, s, i, v, m, rs, n);
    RoundsParts(s, i, v, m, rs[n..]);
    TryDefined(s, i, v, m);
    k.Opened();
    k.procs[i].Fields();
  }

  lemma LoopEnd(k: Kernel, s0: Sys, s: Sys, i: Pid, v: Vpn, m: Mapping, rs: seq<Round>, calls: nat)
    requires RoundsOk(s0, i, v, m, rs) && k.Valid()
    requires var o := Putmmu(s0, i, v, m, rs);
      && i in o.s.procs && UpToTlb(o.s, s) && UpToTlb(s, k.State())
      && UserWalk(o.s, i, v) == Maps(m.frame, UserAttr(m))
    ensures k.Reached(Putmmu(s0, i, v, m, rs).s) && i in k.State().procs
    ensures UserWalk(k.State(), i, v) == Maps(m.frame, UserAttr(m))
  {
    hide Putmmu, RoundsOk, Inv;
  }

  /** putmmu's walk has just been tried from s. */
  ghost predicate Tried(k: Kernel, s: Sys, i: Pid, v: Vpn, m: Mapping, landed: bool)
    reads k, k.procs.Values, k.pages.Values
  {
    Enabled(s, Try(i, v, m)) && landed == Landed(s, Try(i, v, m)) && UpToTlb(TryStep(s, i, v, m), k.State())
  }

  lemma TriedParts(k: Kernel, s: Sys, i: Pid, v: Vpn, m: Mapping, landed: bool)
    requires Tried(k, s, i, v, m, landed)
    ensures Enabled(s, Try(i, v, m)) && i in s.procs && s.procs[i].root.Some?
    ensures landed == Landed(s, Try(i, v, m)) && UpToTlb(TryStep(s, i, v, m), k.State())
  {
    hide TryStep, Landed, UpToTlb;
  }

  /** The walk, from a state ready for it. */
  method TryOnce(k: Kernel, i: Pid, va: Word, pa: Word, ghost v: Vpn, ghost m: Mapping) returns (landed: bool)
    requires k.Valid() && i in k.procs && k.procs[i].mmuroot.Some? && va >> 38 == 0 && pa >> 56 == 0
    requires v == VpnOf(va) && m == MappingOf(pa)
    modifies k, k.procs.Values, k.pages.Values, k.dcache
    ensures k.Valid() && Tried(k, old(k.State()), i, v, m, landed)
  {
    hide VpnOf, MappingOf, Inv, TryStep, Landed;
    ghost var s := k.State();
    assert k.procs[i] in k.procs.Values;
    landed := k.TryPut(i, va, pa);
  }

  /** One turn of the loop: sleep in newpage, push its page, walk again. */
  method LoopTurn(k: Kernel, i: Pid, va: Word, pa: Word, turn: Turn,
                  ghost v: Vpn, ghost m: Mapping, ghost s0: Sys, ghost s: Sys, ghost rs: seq<Round>, ghost n: nat)
    returns (landed: bool, ghost s': Sys)
    requires k.Valid() && i in k.procs && va >> 38 == 0 && pa >> 56 == 0
    requires forall c :: c in turn.window ==> ArgsOk(c)
    requires v == VpnOf(va) && m == MappingOf(pa)
    requires Standing(s0, s, i, v, m, rs, n) && LoopLands(s0, i, v, m, rs)
    requires n < |rs| && rs[n] == Round(Events(turn.window), turn.page)
    requires Tried(k, s, i, v, m, false)
    modifies k, k.procs.Values, k.pages.Values, k.dcache
    ensures k.Valid() && Standing(s0, s', i, v, m, rs, n + 1) && Tried(k, s', i, v, m, landed)
  {
    hide *;
    TriedParts(k, s, i, v, m, false);
    ghost var s1, t1 := TryStep(s, i, v, m), k.State();
    StandFailed(s0, s, i, v, m, rs, n);
    RunAfter(s1, t1, i, rs[n]);
    SleepIf(t1, i, turn);
    SleepParts(t1, i, turn);
    SleepAndPush(k, i, turn);
    s' := k.State();
    k.ReachedMeans(RefillStep(Run(t1, rs[n].window), i, rs[n].page));
    UpToTlbTrans(RefillStep(Run(s1, rs[n].window), i, rs[n].page), RefillStep(Run(t1, rs[n].window), i, rs[n].page),
      s');
    k.Opened();
    StandNext(s0, s, s', i, v, m, rs, n);
    StandReady(k, s0, s', i, v, m, rs, n + 1);
    landed := TryOnce(k, i, va, pa, v, m);
  }

  /**
   The retry loop: at most two calls of newpage, whatever runs meanwhile, and then the page is mapped.
   */
  method RetryLoop(k: Kernel, i: Pid, va: Word, pa: Word, ts: seq<Turn>) returns (calls: nat)
    requires LoopReady(k, i, va, pa, ts)
    modifies k, k.procs.Values, k.pages.Values, k.dcache
    ensures k.Valid() && i in k.State().procs
    ensures UserWalk(k.State(), i, VpnOf(va)) == Maps(MappingOf(pa).frame, UserAttr(MappingOf(pa)))
    ensures calls <= 2
    ensures RoundsOk(old(k.State()), i, VpnOf(va), MappingOf(pa), RoundsOf(ts))
    ensures var o := Putmmu(old(k.State()), i, VpnOf(va), MappingOf(pa), RoundsOf(ts));
      k.Reached(o.s) && calls == o.calls
  {
    hide *;
    ghost var v, m, rs := VpnOf(va), MappingOf(pa), RoundsOf(ts);
    ghost var s0 := k.State();
    LoopStart(k, i, va, pa, ts);
    ghost var s := s0;
    StandFirst(s, i, v, m, rs);
    calls := 0;
    var landed := TryOnce(k, i, va, pa, v, m);
    while !landed
      invariant k.Valid() && Standing(s0, s, i, v, m, rs, calls) && Tried(k, s, i, v, m, landed)
      decreases |ts| - calls
    {
      TriedParts(k, s, i, v, m, landed);
      StandFailed(s0, s, i, v, m, rs, calls);
      landed, s := LoopTurn(k, i, va, pa, ts[calls], v, m, s0, s, rs, calls);
      calls := calls + 1;
    }
    TriedParts(k, s, i, v, m, landed);
    StandLanded(s0, s, i, v, m, rs, calls);
    LoopEnd(k, s0, TryStep(s, i, v, m), i, v, m, rs, calls);
  }

  // ----- putmmu -----

  /**
   A first root: what happens while newpage sleeps, its page, and what happens, interrupts on, between publishing
   the root and satpset, and between satpset and the loop.
   */
  datatype Opening = Opening(sleep: seq<Call>, page: Page, published: seq<Call>, loaded: seq<Call>)

  function Windows(o: Opening): set<Call> {
    (set c | c in o.sleep) + (set c | c in o.published) + (set c | c in o.loaded)
  }

  function OpeningEvents(i: Pid, o: Opening): seq<Event> {
    Events(o.sleep) + ([RootAlloc(i, o.page)] + (Events(o.published) + ([Load(i)] + Events(o.loaded))))
  }

  /** The first root, if it is needed, can be made so. */
  ghost predicate StartOk(s: Sys, i: Pid, o: Opening) {
    i in s.procs && (s.procs[i].root.None? ==> CanRun(s, OpeningEvents(i, o)))
  }

  /** The state in which the retry loop starts: with a new root if there was none. */
  ghost function LoopState(s: Sys, i: Pid, o: Opening): Sys
    requires StartOk(s, i, o)
  {
    if s.procs[i].root.Some? then s else Run(s, OpeningEvents(i, o))
  }

  ghost predicate PutReady(k: Kernel, i: Pid, va: Word, pa: Word, first: Opening, ts: seq<Turn>)
    reads k, k.procs.Values, k.pages.Values
  {
    && k.Valid() && i in k.procs && va >> 38 == 0 && pa >> 56 == 0 && |ts| == 2
    && (forall c :: c in Windows(first) ==> ArgsOk(c))
    && (forall n :: 0 <= n < |ts| ==> forall c :: c in ts[n].window ==> ArgsOk(c))
    && StartOk(k.State(), i, first)
    && RoundsOk(LoopState(k.State(), i, first), i, VpnOf(va), MappingOf(pa), RoundsOf(ts))
  }

  lemma {:induction false} RunAppend(s: Sys, a: seq<Event>, b: seq<Event>)
    requires CanRun(s, a + b)
    ensures CanRun(s, a) && CanRun(Run(s, a), b) && Run(s, a + b) == Run(Run(s, a), b)
    decreases |a|
  {
    hide Step, Enabled;
    if a == [] {
      assert a + b == b;
    } else {
      assert (a + b)[0] == a[0] && (a + b)[1..] == a[1..] + b;
      RunAppend(Step(s, a[0]), a[1..], b);
    }
  }

  /** The machine stands before the events rest, which take it to goal. */
  ghost predicate Ahead(k: Kernel, goal: Sys, rest: seq<Event>)
    reads k, k.procs.Values, k.pages.Values
  {
    k.Valid() && CanRun(k.State(), rest) && UpToTlb(goal, Run(k.State(), rest))
  }

  /** The machine may stand in t for s. */
  lemma AheadIf(k: Kernel, goal: Sys, s: Sys, rest: seq<Event>)
    requires k.Valid() && k.Reached(s) && CanRun(s, rest) && UpToTlb(goal, Run(s, rest))
    ensures Ahead(k, goal, rest)
  {
    hide *;
    k.ReachedMeans(s);
    RunUpToTlb(s, k.State(), rest);
    UpToTlbTrans(goal, Run(s, rest), Run(k.State(), rest));
    AheadNow(k, goal, rest);
  }

  lemma AheadNow(k: Kernel, goal: Sys, rest: seq<Event>)
    requires k.Valid() && CanRun(k.State(), rest) && UpToTlb(goal, Run(k.State(), rest))
    ensures Ahead(k, goal, rest)
  {
    hide CanRun, Run, UpToTlb;
  }

  lemma AheadParts(k: Kernel, goal: Sys, rest: seq<Event>)
    requires Ahead(k, goal, rest)
    ensures k.Valid() && CanRun(k.State(), rest) && UpToTlb(goal, Run(k.State(), rest))
  {
    hide CanRun, Run, UpToTlb;
  }

  lemma OneStep(s: Sys, e: Event, rest: seq<Event>)
    requires CanRun(s, [e] + rest)
    ensures Enabled(s, e) && s.kroot in s.mem && CanRun(Step(s, e), rest) && Run(s, [e] + rest) == Run(Step(s, e), rest)
  {
    hide Step, Enabled;
    assert ([e] + rest)[1..] == rest;
  }

  /** Interrupts are on: cs happens, and rest is still ahead. */
  method Elapse(k: Kernel, cs: seq<Call>, ghost goal: Sys, ghost rest: seq<Event>)
    requires Ahead(k, goal, Events(cs) + rest) && forall c :: c in cs ==> ArgsOk(c)
    modifies k, k.procs.Values, k.pages.Values, k.dcache
    ensures Ahead(k, goal, rest)
  {
    hide *;
    AheadParts(k, goal, Events(cs) + rest);
    ghost var s := k.State();
    RunAppend(s, Events(cs), rest);
    Window(k, cs);
    AheadIf(k, goal, Run(s, Events(cs)), rest);
  }

  /** One piece of the code that is the next event. */
  method Advance(k: Kernel, c: Call, ghost goal: Sys, ghost rest: seq<Event>)
    requires Ahead(k, goal, [EventOf(c)] + rest) && ArgsOk(c)
    modifies k, k.procs.Values, k.pages.Values, k.dcache
    ensures Ahead(k, goal, rest)
  {
    hide *;
    AheadParts(k, goal, [EventOf(c)] + rest);
    ghost var s := k.State();
    OneStep(s, EventOf(c), rest);
    Perform(k, c);
    AheadIf(k, goal, Step(s, EventOf(c)), rest);
  }

  /** A process's first root: mmurootalloc, and satpset, with whatever happens while interrupts are on. */
  method StartRoot(k: Kernel, i: Pid, o: Opening)
    requires k.Valid() && i in k.procs && k.procs[i].mmuroot.None?
    requires (forall c :: c in Windows(o) ==> ArgsOk(c)) && StartOk(k.State(), i, o)
    modifies k, k.procs.Values, k.pages.Values, k.dcache
    ensures k.Valid() && UpToTlb(LoopState(old(k.State()), i, o), k.State())
  {
    ghost var goal := LoopState(k.State(), i, o);
    StartParts(k, i, o);
    hide *;
    ghost var after := [Load(i)] + Events(o.loaded);
    Elapse(k, o.sleep, goal, [RootAlloc(i, o.page)] + (Events(o.published) + after));
    Advance(k, DoFirstRoot(i, o.page), goal, Events(o.published) + after);
    Elapse(k, o.published, goal, after);
    Advance(k, DoLoad(i), goal, Events(o.loaded));
    NoMore(o.loaded);
    Elapse(k, o.loaded, goal, []);
    AheadParts(k, goal, []);
    RunNone(k.State());
  }

  lemma NoMore(cs: seq<Call>)
    ensures Events(cs) == Events(cs) + []
  {
  }

  lemma RunNone(s: Sys)
    ensures CanRun(s, []) && Run(s, []) == s
  {
  }

  lemma StartParts(k: Kernel, i: Pid, o: Opening)
    requires k.Valid() && i in k.procs && k.procs[i].mmuroot.None? && StartOk(k.State(), i, o)
    requires forall c :: c in Windows(o) ==> ArgsOk(c)
    ensures Ahead(k, LoopState(k.State(), i, o), OpeningEvents(i, o))
    ensures OpeningEvents(i, o) ==
      Events(o.sleep) + ([RootAlloc(i, o.page)] + (Events(o.published) + ([Load(i)] + Events(o.loaded))))
    ensures EventOf(DoFirstRoot(i, o.page)) == RootAlloc(i, o.page) && EventOf(DoLoad(i)) == Load(i)
    ensures ArgsOk(DoFirstRoot(i, o.page)) && ArgsOk(DoLoad(i))
    ensures forall c :: c in o.sleep || c in o.published || c in o.loaded ==> ArgsOk(c)
  {
    OpeningParts(i, o);
    hide *;
    k.Opened();
    k.procs[i].Fields();
    OpeningIs(k.State(), i, o);
    AheadNow(k, LoopState(k.State(), i, o), OpeningEvents(i, o));
  }

  lemma OpeningIs(s: Sys, i: Pid, o: Opening)
    requires StartOk(s, i, o) && s.procs[i].root.None?
    ensures CanRun(s, OpeningEvents(i, o)) && LoopState(s, i, o) == Run(s, OpeningEvents(i, o))
    ensures UpToTlb(LoopState(s, i, o), Run(s, OpeningEvents(i, o)))
  {
    hide Run, CanRun, OpeningEvents;
  }

  lemma OpeningParts(i: Pid, o: Opening)
    requires forall c :: c in Windows(o) ==> ArgsOk(c)
    ensures OpeningEvents(i, o) ==
      Events(o.sleep) + ([RootAlloc(i, o.page)] + (Events(o.published) + ([Load(i)] + Events(o.loaded))))
    ensures EventOf(DoFirstRoot(i, o.page)) == RootAlloc(i, o.page) && EventOf(DoLoad(i)) == Load(i)
    ensures ArgsOk(DoFirstRoot(i, o.page)) && ArgsOk(DoLoad(i))
    ensures forall c :: c in o.sleep || c in o.published || c in o.loaded ==> ArgsOk(c)
  {
    hide Events;
    forall c | c in o.sleep || c in o.published || c in o.loaded ensures ArgsOk(c) {
      assert c in Windows(o);
    }
  }

  /**
   putmmu(va, pa, pg): afterwards va maps to pa's page with just the access asked for; newpage is called at
   most three times, once for a root and twice for tables, whatever runs while it sleeps.
   */
  method DoPutmmu(k: Kernel, i: Pid, va: Word, pa: Word, first: Opening, ts: seq<Turn>) returns (calls: nat)
    requires PutReady(k, i, va, pa, first, ts)
    modifies k, k.procs.Values, k.pages.Values, k.dcache
    ensures k.Valid() && i in k.State().procs
    ensures UserWalk(k.State(), i, VpnOf(va)) == Maps(MappingOf(pa).frame, UserAttr(MappingOf(pa)))
    ensures Granted(Translate(k.ram, k.procs[i].satp, va), va, pa)
    ensures calls <= if old(k.procs[i].mmuroot).Some? then 2 else 3
    ensures StartOk(old(k.State()), i, first)
    ensures var s := LoopState(old(k.State()), i, first);
      && RoundsOk(s, i, VpnOf(va), MappingOf(pa), RoundsOf(ts))
      && k.Reached(Putmmu(s, i, VpnOf(va), MappingOf(pa), RoundsOf(ts)).s)
  {
    ghost var s := LoopState(k.State(), i, first);
    ghost var v, m, rs := VpnOf(va), MappingOf(pa), RoundsOf(ts);
    ReadyParts(k, i, va, pa, first, ts);
    calls := 0;
    hide *;
    if k.procs[i].mmuroot == None {
      StartRoot(k, i, first);
      calls := 1;
    }
    ghost var t := k.State();
    LoopUpToTlb(s, t, i, v, m, rs);
    LoopReadyFor(k, i, va, pa, ts);
    var more := RetryLoop(k, i, va, pa, ts);
    calls := calls + more;
    k.ReachedMeans(Putmmu(t, i, v, m, rs).s);
    UpToTlbTrans(Putmmu(s, i, v, m, rs).s, Putmmu(t, i, v, m, rs).s, k.State());
    k.ReachedIf(Putmmu(s, i, v, m, rs).s);
    WordsGrant(k, i, va, pa);
  }

  /** What the hardware reads in the words when the process runs. */
  lemma WordsGrant(k: Kernel, i: Pid, va: Word, pa: Word)
    requires k.Valid() && i in k.procs && i in k.State().procs && pa >> 56 == 0
    requires UserWalk(k.State(), i, VpnOf(va)) == Maps(MappingOf(pa).frame, UserAttr(MappingOf(pa)))
    ensures Granted(Translate(k.ram, k.procs[i].satp, va), va, pa)
  {
    hide *;
    k.Opened();
    k.procs[i].Fields();
    ProcSatp(k.State(), i);
    ViaSatp(k.State(), i, VpnOf(va));
    WalkIs(k.ram, k.procs[i].satp, va);
    GrantedIf(Translate(k.ram, k.procs[i].satp, va), va, pa);
  }

  lemma ViaSatp(s: Sys, i: Pid, v: Vpn)
    requires i in s.procs && s.procs[i].satp == s.procs[i].root
    ensures WalkVia(s.mem, s.procs[i].satp, v) == UserWalk(s, i, v)
  {
    hide Walk;
  }

  lemma ReadyParts(k: Kernel, i: Pid, va: Word, pa: Word, first: Opening, ts: seq<Turn>)
    requires PutReady(k, i, va, pa, first, ts)
    ensures var s := LoopState(k.State(), i, first);
      && k.Valid() && i in k.procs && va >> 38 == 0 && pa >> 56 == 0
      && RoundsOk(s, i, VpnOf(va), MappingOf(pa), RoundsOf(ts))
      && (k.procs[i].mmuroot.Some? ==> UpToTlb(s, k.State()))
  {
    hide Inv, RoundsOk, Run, CanRun;
    k.Opened();
    k.procs[i].Fields();
  }

  lemma LoopReadyFor(k: Kernel, i: Pid, va: Word, pa: Word, ts: seq<Turn>)
    requires k.Valid() && i in k.procs && va >> 38 == 0 && pa >> 56 == 0 && |ts| == 2
    requires forall n :: 0 <= n < |ts| ==> forall c :: c in ts[n].window ==> ArgsOk(c)
    requires RoundsOk(k.State(), i, VpnOf(va), MappingOf(pa), RoundsOf(ts))
    ensures LoopReady(k, i, va, pa, ts)
  {
    ghost var v, m := VpnOf(va), MappingOf(pa);
    hide *;
    RoundsParts(k.State(), i, v, m, RoundsOf(ts));
    TryDefined(k.State(), i, v, m);
    k.Opened();
    k.procs[i].Fields();
    LoopReadyIf(k, i, va, pa, ts);
  }

  lemma LoopReadyIf(k: Kernel, i: Pid, va: Word, pa: Word, ts: seq<Turn>)
    requires k.Valid() && i in k.procs && k.procs[i].mmuroot.Some? && va >> 38 == 0 && pa >> 56 == 0 && |ts| == 2
    requires forall n :: 0 <= n < |ts| ==> forall c :: c in ts[n].window ==> ArgsOk(c)
    requires RoundsOk(k.State(), i, VpnOf(va), MappingOf(pa), RoundsOf(ts))
    ensures LoopReady(k, i, va, pa, ts)
  {
    hide RoundsOk, ArgsOk, VpnOf, MappingOf;
  }
}
