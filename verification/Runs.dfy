/** What holds over every run of the machine: safety, refinement of a page map, conservation of pages. */
module Runs {
  import opened Sv39
  import opened ProcTables
  import opened Machine
  import opened Steps

  /** es can happen from s, in order. */
  ghost predicate CanRun(s: Sys, es: seq<Event>)
    decreases |es|
  {
    es == [] || (Enabled(s, es[0]) && s.kroot in s.mem && CanRun(Step(s, es[0]), es[1..]))
  }

  ghost function Run(s: Sys, es: seq<Event>): Sys
    requires CanRun(s, es)
    decreases |es|
  {
    if es == [] then s else Run(Step(s, es[0]), es[1..])
  }

  /** The invariant, and with it tree ownership, satp safety and TLB agreement, holds after every run. */
  lemma {:induction false} RunKeepsInv(s: Sys, es: seq<Event>)
    requires Inv(s) && CanRun(s, es)
    ensures Inv(Run(s, es)) && SameFrame(s, Run(s, es))
    decreases |es|
  {
    if es != [] {
      StepEffect(s, es[0]);
      RunKeepsInv(Step(s, es[0]), es[1..]);
    }
  }

  // ----- refinement of an abstract page map per process -----

  datatype AProc = AProc(pages: map<Vpn, Mapping>, stale: bool)

  type AState = map<Pid, AProc>

  /** The specification of one process's user half: a map that putmmu extends and a recycle empties. */
  function AProcStep(p: AProc, e: Event, i: Pid, landed: bool): AProc {
    match e
    case MarkStale(j) => if j == i then p.(stale := true) else p
    case Try(j, v, m) => if j == i && landed then p.(pages := p.pages[v := m]) else p
    case Switch(j) => if j == i then AProc(if p.stale then map[] else p.pages, false) else p
    case Flush(j) => if j == i then AProc(map[], false) else p
    case Release(j) => if j == i then p.(pages := map[]) else p
    case _ => p
  }

  function AStep(a: AState, e: Event, landed: bool): AState {
    map i | i in a :: AProcStep(a[i], e, i, landed)
  }

  ghost predicate Shows(s: Sys, i: Pid, pages: map<Vpn, Mapping>)
    requires i in s.procs
  {
    forall v: Vpn :: v.User() ==> UserWalk(s, i, v) == PageXlat(pages, v)
  }

  function PageXlat(pages: map<Vpn, Mapping>, v: Vpn): Xlat {
    if v in pages then Maps(pages[v].frame, UserAttr(pages[v])) else Fault
  }

  ghost predicate Refines(s: Sys, a: AState) {
    && a.Keys == s.procs.Keys
    && forall i :: i in s.procs ==> ProcShows(s, i, a[i])
  }

  ghost function StepLanded(s: Sys, e: Event): bool
    requires Enabled(s, e)
  {
    e.Try? && Landed(s, e)
  }

  function NewtlbAfter(newtlb: bool, e: Event, i: Pid): bool {
    match e
    case MarkStale(j) => j == i || newtlb
    case Switch(j) => j != i && newtlb
    case Flush(j) => j != i && newtlb
    case _ => newtlb
  }

  lemma StepNewtlb(s: Sys, e: Event, i: Pid)
    requires Inv(s) && Enabled(s, e) && i in s.procs && s.kroot in s.mem
    ensures i in Step(s, e).procs && Step(s, e).procs[i].newtlb == NewtlbAfter(s.procs[i].newtlb, e, i)
  {
    StepProc(s, e, i);
    hide MmuWalk, Step, Inv, TablesOk;
    if e.Try? && e.i == i {
      WalkConfined(s, i, e.v);
    }
  }

  lemma ProcRefines(s: Sys, e: Event, s': Sys, i: Pid, p: AProc)
    requires Enabled(s, e) && Effect(s, e, s') && i in s.procs && i in s'.procs
    requires s.procs[i].newtlb == p.stale && Shows(s, i, p.pages)
    ensures Shows(s', i, AProcStep(p, e, i, StepLanded(s, e)).pages)
  {
    hide Inv, Walk, UserWalk, Landed, UserAttr;
    forall v: Vpn | v.User() ensures UserWalk(s', i, v) == PageXlat(AProcStep(p, e, i, StepLanded(s, e)).pages, v) {
      assert UserWalk(s', i, v) == UserAfter(s, e, i, v);
      assert UserWalk(s, i, v) == PageXlat(p.pages, v);
    }
  }

  ghost predicate ProcShows(s: Sys, i: Pid, p: AProc)
    requires i in s.procs
  {
    s.procs[i].newtlb == p.stale && Shows(s, i, p.pages)
  }

  lemma ProcStepRefines(s: Sys, e: Event, i: Pid, p: AProc)
    requires Inv(s) && Enabled(s, e) && i in s.procs && ProcShows(s, i, p) && s.kroot in s.mem
    ensures i in Step(s, e).procs && ProcShows(Step(s, e), i, AProcStep(p, e, i, StepLanded(s, e)))
  {
    hide *;
    StepNewtlb(s, e, i);
    StepEffect(s, e);
    ShowsParts(s, i, p);
    ProcRefines(s, e, Step(s, e), i, p);
    AStale(p, e, i, StepLanded(s, e));
    ShowsIf(Step(s, e), i, AProcStep(p, e, i, StepLanded(s, e)));
  }

  lemma ShowsParts(s: Sys, i: Pid, p: AProc)
    requires i in s.procs && ProcShows(s, i, p)
    ensures s.procs[i].newtlb == p.stale && Shows(s, i, p.pages)
  {
    hide Shows;
  }

  lemma ShowsIf(s: Sys, i: Pid, p: AProc)
    requires i in s.procs && s.procs[i].newtlb == p.stale && Shows(s, i, p.pages)
    ensures ProcShows(s, i, p)
  {
    hide Shows;
  }

  lemma AStale(p: AProc, e: Event, i: Pid, landed: bool)
    ensures AProcStep(p, e, i, landed).stale == NewtlbAfter(p.stale, e, i)
  {
  }

  lemma StepRefines(s: Sys, a: AState, e: Event)
    requires Inv(s) && Enabled(s, e) && Refines(s, a)
    ensures s.kroot in s.mem && Refines(Step(s, e), AStep(a, e, StepLanded(s, e)))
  {
    hide *;
    StepEffect(s, e);
    EffectKeys(s, e, Step(s, e));
    RefinesParts(s, a);
    AStepIs(a, e, StepLanded(s, e));
    forall i | i in s.procs ensures i in Step(s, e).procs
        && ProcShows(Step(s, e), i, AStep(a, e, StepLanded(s, e))[i]) {
      ProcStepRefines(s, e, i, a[i]);
    }
    RefinesIf(Step(s, e), AStep(a, e, StepLanded(s, e)));
  }

  lemma EffectKeys(s: Sys, e: Event, s': Sys)
    requires Enabled(s, e) && Effect(s, e, s')
    ensures s'.procs.Keys == s.procs.Keys
  {
    hide Inv, Walk, UserWalk, UserAfter, KernelAfter;
  }

  lemma RefinesParts(s: Sys, a: AState)
    requires Refines(s, a)
    ensures a.Keys == s.procs.Keys && forall i :: i in s.procs ==> ProcShows(s, i, a[i])
  {
    hide ProcShows;
  }

  lemma RefinesIf(s: Sys, a: AState)
    requires a.Keys == s.procs.Keys && forall i :: i in s.procs ==> ProcShows(s, i, a[i])
    ensures Refines(s, a)
  {
    hide ProcShows;
  }

  lemma AStepIs(a: AState, e: Event, landed: bool)
    ensures AStep(a, e, landed).Keys == a.Keys
    ensures forall i :: i in a ==> AStep(a, e, landed)[i] == AProcStep(a[i], e, i, landed)
  {
    hide AProcStep;
  }

  ghost function ARun(s: Sys, a: AState, es: seq<Event>): AState
    requires CanRun(s, es)
    decreases |es|
  {
    if es == [] then a else ARun(Step(s, es[0]), AStep(a, es[0], StepLanded(s, es[0])), es[1..])
  }

  /** Over every run, each process's Sv39 walk is its abstract page map. */
  lemma {:induction false} RunRefines(s: Sys, a: AState, es: seq<Event>)
    requires Inv(s) && CanRun(s, es) && Refines(s, a)
    ensures Refines(Run(s, es), ARun(s, a, es))
    decreases |es|
  {
    if es != [] {
      StepEffect(s, es[0]);
      StepRefines(s, a, es[0]);
      RunRefines(Step(s, es[0]), AStep(a, es[0], StepLanded(s, es[0])), es[1..]);
    }
  }
}
