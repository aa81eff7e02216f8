/** fpu.c without notes: where each process's floating-point context is, and who may change it. */
module FpSwitch {
  import opened Lists
  import opened NoteFrames

  type Pid = nat

  /** F0-F31 and fcsr; jc's four constants live in F28-F31. */
  datatype Context = Context(f: seq<U64>, fcsr: U64)

  function InitFp(): Context {
    Context(seq(28, _ => 0) + [0, 0x3FE0_0000_0000_0000, 0x3FF0_0000_0000_0000, 0x4000_0000_0000_0000], 0)
  }

  datatype Kind = FPinit | FPactive | FPinactive

  /** struct PFPU, with the FPnotify bit and the process's Moribund state apart. */
  datatype Pfpu = Pfpu(kind: Kind, notify: bool, save: Context, moribund: bool)

  /** Where gotolabel(&p->sched) goes: a kernel process's start, a child's, or sched's return. */
  datatype Entry = Linkproc | Forkretfp | Sched

  /** user: has entered user mode; setup: between the two halves of procsetup(up). */
  datatype Task = Task(fp: Pfpu, entry: Entry, user: bool, setup: bool)

  /** The live registers, the running process and every process. */
  datatype Fpus = Fpus(live: Context, up: Option<Pid>, procs: map<Pid, Task>)

  // ----- the hooks -----

  function Saved(p: Pfpu, live: Context): Pfpu {
    if p.kind != FPactive then p
    else if p.moribund then p.(kind := FPinit, notify := false)
    else p.(save := live, kind := FPinactive)
  }

  /** What procrestore loads, and the state it leaves. */
  function Loaded(p: Pfpu, live: Context): Context {
    match p.kind
    case FPinit => InitFp()
    case FPinactive => p.save
    case FPactive => live
  }

  function Restored(p: Pfpu): Pfpu { p.(kind := FPactive) }

  // ----- steps -----

  datatype Event =
    | UserFp(ctx: Context)            // user code changes its registers
    | SwitchOut                       // sched: procsave(up) and setlabel
    | Resume(p: Pid)                  // gotolabel(&p->sched)
    | Kproc(p: Pid, save: Context)    // a kernel process, or the first process
    | Fork(child: Pid, save: Context) // procsetup(child), forkchild
    | Touser(found: Context)          // the first process enters user mode with what the registers hold
    | ExecBegin                       // procsetup(up): fpstate = FPinit
    | ExecEnd                         // procsetup(up): procrestore(up) at splhi
    | Die                             // up is Moribund
    | Reap(p: Pid)

  /** User code runs wherever the kernel may have returned to it, whatever fpstate says. */
  ghost predicate CanStep(s: Fpus, e: Event) {
    match e
    case UserFp(_) => UserRuns(s)
    case SwitchOut => Running(s)
    case Resume(p) => s.up == None && Live(s, p)
    case Kproc(c, _) => c !in s.procs
    case Fork(c, _) => Running(s) && Up(s).user && c !in s.procs
    case Touser(found) => Running(s) && !Up(s).user && !Up(s).fp.moribund && found == s.live
    case ExecBegin => UserRuns(s)
    case ExecEnd => Running(s) && Up(s).setup
    case Die => Running(s) && !Up(s).setup
    case Reap(p) => p in s.procs && s.up != Some(p) && s.procs[p].fp.moribund
  }

  predicate Running(s: Fpus) { s.up.Some? && s.up.value in s.procs }

  function Up(s: Fpus): Task
    requires Running(s)
  {
    s.procs[s.up.value]
  }

  /** up may be in user mode. */
  predicate UserRuns(s: Fpus) { Running(s) && Up(s).user && !Up(s).setup && !Up(s).fp.moribund }

  function SetUp(s: Fpus, t: Task): Fpus
    requires Running(s)
  {
    s.(procs := s.procs[s.up.value := t])
  }

  function Step(s: Fpus, e: Event): Fpus
    requires CanStep(s, e)
  {
    match e
    case UserFp(ctx) => s.(live := ctx)
    case SwitchOut => SetUp(s, Up(s).(fp := Saved(Up(s).fp, s.live), entry := Sched)).(up := None)
    case Resume(p) => Resumed(s, p)
    case Kproc(c, save) => s.(procs := s.procs[c := Task(Pfpu(FPinit, false, save, false), Linkproc, false, false)])
    case Fork(c, save) => s.(procs := s.procs[c := Task(Pfpu(FPinit, false, save, false), Forkretfp, false, false)])
    case Touser(_) => SetUp(s, Up(s).(user := true))
    case ExecBegin => SetUp(s, Up(s).(fp := Up(s).fp.(kind := FPinit, notify := false), setup := true))
    case ExecEnd => SetUp(s, Up(s).(fp := Restored(Up(s).fp), setup := false)).(live := Loaded(Up(s).fp, s.live))
    case Die => SetUp(s, Up(s).(fp := Up(s).fp.(moribund := true)))
    case Reap(p) => s.(procs := map q | q in s.procs && q != p :: s.procs[q])
  }

  /**
   sched's return and forkretfp call procrestore, forkretfp on the way to user mode; a kernel process's start does
   not.
   */
  function Resumed(s: Fpus, p: Pid): Fpus
    requires p in s.procs
  {
    var t := s.procs[p];
    match t.entry
    case Linkproc => s.(up := Some(p))
    case Forkretfp => Fpus(Loaded(t.fp, s.live), Some(p), s.procs[p := t.(fp := Restored(t.fp), user := true)])
    case Sched => Fpus(Loaded(t.fp, s.live), Some(p), s.procs[p := t.(fp := Restored(t.fp))])
  }

  // ----- what holds -----

  /**
   Only the running process is FPactive; and the running process is FPactive unless it is between the halves of
   procsetup, or began as a kernel process and has not been switched out since.
   */
  ghost predicate Inv(s: Fpus) {
    && (forall p :: p in s.procs && s.procs[p].fp.kind == FPactive ==> s.up == Some(p))
    && (forall p :: p in s.procs && s.up != Some(p) ==> TaskWaits(s.procs[p]))
    && (Running(s) ==> TaskRuns(Up(s)))
  }

  predicate TaskRuns(t: Task) {
    && (!t.setup && t.entry != Linkproc ==> t.fp.kind == FPactive)
    && (t.entry == Forkretfp || t.setup ==> t.user)
    && (t.entry == Linkproc ==> t.fp.kind != FPinactive && (t.user || t.fp.kind == FPinit))
  }

  /** A process not yet started has its initial state. */
  predicate TaskWaits(t: Task) {
    && (t.entry != Sched ==> t.fp.kind == FPinit && !t.user && !t.setup)
    && (t.setup ==> t.user)
  }

  lemma StepKeeps(s: Fpus, e: Event)
    requires Inv(s) && CanStep(s, e)
    ensures Inv(Step(s, e))
  {
    hide InitFp;
  }

  /** At boot there is no process. */
  lemma BootHolds(live: Context)
    ensures Inv(Fpus(live, None, map[])) && Refines(Fpus(live, None, map[]), Plain(map[], None, {}))
  {
  }

  /** A process that has not begun to exit. */
  predicate Live(s: Fpus, p: Pid) { p in s.procs && !s.procs[p].fp.moribund }

  /** p's context: what its user code finds in the registers while it runs, else what procrestore will load. */
  function ContextOf(s: Fpus, p: Pid): Context
    requires p in s.procs
  {
    var t := s.procs[p];
    if s.up == Some(p) && t.user && !t.setup then s.live else Loaded(t.fp, s.live)
  }

  /** Began as a kernel process and has not met procrestore since. */
  predicate Raw(t: Task) { t.entry == Linkproc && t.fp.kind == FPinit && !t.setup }

  /**
   What one step may do to p's context: only p's own user code and p's own exec change it, except that a raw process
   enters user mode with whatever is in the registers, and its first switch sets them aside for initfp.
   */
  function ContextAfter(s: Fpus, e: Event, p: Pid): Context
    requires Live(s, p)
  {
    if s.up != Some(p) then ContextOf(s, p)
    else match e
      case UserFp(ctx) => ctx
      case ExecBegin => InitFp()
      case Touser(found) => if Raw(s.procs[p]) then found else ContextOf(s, p)
      case SwitchOut => if Raw(s.procs[p]) then InitFp() else ContextOf(s, p)
      case _ => ContextOf(s, p)
  }

  lemma StepContext(s: Fpus, e: Event, p: Pid)
    requires Inv(s) && CanStep(s, e) && Live(s, p)
    ensures p in Step(s, e).procs && ContextOf(Step(s, e), p) == ContextAfter(s, e, p)
    ensures Raw(Step(s, e).procs[p]) <==> Raw(s.procs[p]) && !(s.up == Some(p) && (e.SwitchOut? || e.ExecBegin?))
  {
    hide InitFp;
  }

  // ----- runs: the registers, save areas and initfp implement one context per process -----

  ghost predicate CanRun(s: Fpus, es: seq<Event>)
    decreases |es|
  {
    es == [] || (CanStep(s, es[0]) && CanRun(Step(s, es[0]), es[1..]))
  }

  function Run(s: Fpus, es: seq<Event>): Fpus
    requires CanRun(s, es)
    decreases |es|
  {
    if es == [] then s else Run(Step(s, es[0]), es[1..])
  }

  /** One private context per process, who is running, and the raw processes. */
  datatype Plain = Plain(ctx: map<Pid, Context>, up: Option<Pid>, raw: set<Pid>)

  function SetCtx(a: Plain, c: Context): Plain { if a.up.Some? then a.(ctx := a.ctx[a.up.value := c]) else a }

  function Met(a: Plain): Plain { if a.up.Some? then a.(raw := a.raw - {a.up.value}) else a }

  predicate UpRaw(a: Plain) { a.up.Some? && a.up.value in a.raw }

  function PlainStep(a: Plain, e: Event): Plain {
    match e
    case UserFp(ctx) => SetCtx(a, ctx)
    case ExecBegin => Met(SetCtx(a, InitFp()))
    case Kproc(c, _) => a.(ctx := a.ctx[c := InitFp()], raw := a.raw + {c})
    case Fork(c, _) => a.(ctx := a.ctx[c := InitFp()], raw := a.raw - {c})
    case Touser(found) => if UpRaw(a) then SetCtx(a, found) else a
    case SwitchOut => (if UpRaw(a) then Met(SetCtx(a, InitFp())) else a).(up := None)
    case Resume(p) => a.(up := Some(p))
    case _ => a
  }

  function PlainRun(a: Plain, es: seq<Event>): Plain
    decreases |es|
  {
    if es == [] then a else PlainRun(PlainStep(a, es[0]), es[1..])
  }

  ghost predicate Refines(s: Fpus, a: Plain) {
    && s.up == a.up
    && forall p :: Live(s, p) ==> p in a.ctx && a.ctx[p] == ContextOf(s, p) && (p in a.raw <==> Raw(s.procs[p]))
  }

  lemma StepRefines(s: Fpus, a: Plain, e: Event)
    requires Inv(s) && Refines(s, a) && CanStep(s, e)
    ensures Refines(Step(s, e), PlainStep(a, e))
  {
    hide InitFp;
    var s', a' := Step(s, e), PlainStep(a, e);
    forall p | Live(s', p)
      ensures p in a'.ctx && a'.ctx[p] == ContextOf(s', p) && (p in a'.raw <==> Raw(s'.procs[p]))
    {
      if p in s.procs {
        StepContext(s, e, p);
      }
    }
  }

  /**
   In every run of note-free steps each live process has the context its own steps and execs gave it; user code finds
   it in the registers, and is FPactive unless its process is raw.
   */
  lemma {:induction false} RunRefines(s: Fpus, a: Plain, es: seq<Event>)
    requires Inv(s) && Refines(s, a) && CanRun(s, es)
    ensures Inv(Run(s, es)) && Refines(Run(s, es), PlainRun(a, es))
    ensures var t, b := Run(s, es), PlainRun(a, es);
      UserRuns(t) ==> t.up.value in b.ctx && t.live == b.ctx[t.up.value] && (Up(t).fp.kind == FPactive <==> !UpRaw(b))
    decreases |es|
  {
    if es != [] {
      StepKeeps(s, es[0]);
      StepRefines(s, a, es[0]);
      hide Inv, Refines, Step, CanStep, PlainStep;
      RunRefines(Step(s, es[0]), PlainStep(a, es[0]), es[1..]);
    } else {
      hide InitFp;
    }
  }

  // ----- switched out and back -----

  /** p is not resumed, reaped or dead during es. */
  ghost predicate Away(s: Fpus, es: seq<Event>, p: Pid)
    requires CanRun(s, es)
    decreases |es|
  {
    Live(s, p) && s.up != Some(p) && (es != [] ==> Away(Step(s, es[0]), es[1..], p))
  }

  lemma {:induction false} AwayKeeps(s: Fpus, es: seq<Event>, p: Pid)
    requires CanRun(s, es) && Away(s, es, p)
    ensures Live(Run(s, es), p) && Run(s, es).procs[p] == s.procs[p] && Run(s, es).up != Some(p)
    decreases |es|
  {
    hide InitFp;
    if es != [] {
      AwayKeeps(Step(s, es[0]), es[1..], p);
    }
  }

  /** up is switched out, es happens, and up is back. */
  ghost predicate CanReturn(s: Fpus, es: seq<Event>) {
    && Running(s) && !Up(s).fp.moribund && CanRun(Step(s, SwitchOut), es) && Away(Step(s, SwitchOut), es, s.up.value)
    && CanStep(Run(Step(s, SwitchOut), es), Resume(s.up.value))
  }

  function Back(s: Fpus, es: seq<Event>): Fpus
    requires CanReturn(s, es)
  {
    Step(Run(Step(s, SwitchOut), es), Resume(s.up.value))
  }

  /**
   Whatever others do meanwhile, user code comes back to the registers it left if it is FPactive, and to initfp if it is
   not; it is FPactive unless it began as a kernel process and has not been switched out or made an image since.
   */
  lemma UserSeesOwn(s: Fpus, es: seq<Event>)
    requires Inv(s) && UserRuns(s) && CanReturn(s, es)
    ensures Back(s, es).live == if Raw(Up(s)) then InitFp() else s.live
    ensures Up(s).fp.kind == FPactive <==> !Raw(Up(s))
    ensures UserRuns(Back(s, es)) && Up(Back(s, es)).fp.kind == FPactive
  {
    hide InitFp;
    AwayKeeps(Step(s, SwitchOut), es, s.up.value);
  }

  /** A child starts from initfp, whatever is in the registers. */
  lemma ChildStarts(s: Fpus, c: Pid, save: Context, es: seq<Event>)
    requires Inv(s) && CanStep(s, Fork(c, save)) && CanRun(Step(s, Fork(c, save)), es)
    requires Away(Step(s, Fork(c, save)), es, c) && CanStep(Run(Step(s, Fork(c, save)), es), Resume(c))
    ensures var t := Step(Run(Step(s, Fork(c, save)), es), Resume(c));
      UserRuns(t) && t.live == InitFp() && Up(t).fp.kind == FPactive
    ensures ContextOf(Step(s, Fork(c, save)), c) == InitFp()
    ensures InitFp().f[28] == 0 && InitFp().f[29] == 0x3FE0_0000_0000_0000 && InitFp().f[30] == 0x3FF0_0000_0000_0000
    ensures InitFp().f[31] == 0x4000_0000_0000_0000 && |InitFp().f| == 32 && InitFp().fcsr == 0
  {
    AwayKeeps(Step(s, Fork(c, save)), es, c);
  }

  // ----- the process that enters user mode by touser -----

  /** up runs on without a switch and without exec. */
  ghost predicate Stays(s: Fpus, es: seq<Event>, p: Pid)
    requires CanRun(s, es)
    decreases |es|
  {
    s.up == Some(p) && p in s.procs && !s.procs[p].setup && (es != [] ==> Stays(Step(s, es[0]), es[1..], p))
  }

  lemma {:induction false} StaysKeeps(s: Fpus, es: seq<Event>, p: Pid)
    requires CanRun(s, es) && Stays(s, es, p) && s.procs[p].user
    ensures Run(s, es).up == Some(p) && p in Run(s, es).procs
    ensures var t, u := s.procs[p], Run(s, es).procs[p];
      u.user && !u.setup && u.entry == t.entry && u.fp.kind == t.fp.kind
    decreases |es|
  {
    hide InitFp;
    if es != [] {
      StaysKeeps(Step(s, es[0]), es[1..], p);
    }
  }

  /** The state after touser, and user code's run up to its first switch. */
  ghost predicate FirstTurn(s: Fpus, es: seq<Event>) {
    && Inv(s) && CanStep(s, Touser(s.live)) && CanRun(Step(s, Touser(s.live)), es)
    && Stays(Step(s, Touser(s.live)), es, s.up.value)
  }

  /**
   touser does not call procrestore.  The registers of the process it starts survive their first switch if and only if
   fpstate was already FPactive at touser, or they happen to be initfp; and it was FPactive just when init0 had been
   switched out since it began.
   */
  lemma TouserKeepsIff(s: Fpus, es: seq<Event>, others: seq<Event>)
    requires FirstTurn(s, es) && CanReturn(Run(Step(s, Touser(s.live)), es), others)
    ensures var t := Run(Step(s, Touser(s.live)), es);
      Back(t, others).live == t.live <==> Up(s).fp.kind == FPactive || t.live == InitFp()
    ensures Up(s).fp.kind == FPactive <==> Up(s).entry == Sched
  {
    hide InitFp;
    var s1 := Step(s, Touser(s.live));
    StepKeeps(s, Touser(s.live));
    RunInv(s1, es);
    StaysKeeps(s1, es, s.up.value);
    UserSeesOwn(Run(s1, es), others);
  }

  lemma {:induction false} RunInv(s: Fpus, es: seq<Event>)
    requires Inv(s) && CanRun(s, es)
    ensures Inv(Run(s, es))
    decreases |es|
  {
    hide InitFp, Inv, Step, CanStep;
    if es != [] {
      StepKeeps(s, es[0]);
      RunInv(Step(s, es[0]), es[1..]);
    }
  }

  /** Such a loss: the first process computes, is switched out, and comes back to initfp. */
  lemma TouserLoses(found: Context, c: Context, save: Context)
    requires c != InitFp()
    ensures var s := Fpus(found, Some(1), map[1 := Task(Pfpu(FPinit, false, save, false), Linkproc, false, false)]);
      && FirstTurn(s, [UserFp(c)]) && var t := Run(Step(s, Touser(found)), [UserFp(c)]);
      t.live == c && CanReturn(t, []) && Back(t, []).live == InitFp()
  {
    hide InitFp;
    var s := Fpus(found, Some(1), map[1 := Task(Pfpu(FPinit, false, save, false), Linkproc, false, false)]);
    var s1 := Step(s, Touser(found));
    var s2 := Step(s1, UserFp(c));
    assert CanRun(s2, []) && Stays(s2, [], 1);
    assert [UserFp(c)][1..] == [];
    assert Run(s1, [UserFp(c)]) == s2;
    var s3 := Step(s2, SwitchOut);
    assert CanRun(s3, []) && Away(s3, [], 1) && Run(s3, []) == s3;
  }

  // ----- procsetup, preempted between its two halves -----

  /** Preempted between its two halves, procsetup still leaves a fresh image with initfp in the registers. */
  lemma SetupPreempted(s: Fpus, es: seq<Event>)
    requires Inv(s) && CanStep(s, ExecBegin)
    requires CanRun(Step(s, ExecBegin), es) && CanStep(Run(Step(s, ExecBegin), es), ExecEnd)
    requires Run(Step(s, ExecBegin), es).up == s.up
    requires Untouched(Step(s, ExecBegin), es, s.up.value)
    ensures var t := Step(Run(Step(s, ExecBegin), es), ExecEnd);
      Running(t) && Up(t).fp.kind == FPactive && t.live == InitFp()
  {
    StepKeeps(s, ExecBegin);
    SetupHolds(Step(s, ExecBegin), es, s.up.value);
  }

  /** p neither exits nor is reaped during es. */
  ghost predicate Untouched(s: Fpus, es: seq<Event>, p: Pid)
    requires CanRun(s, es)
    decreases |es|
  {
    Live(s, p) && s.procs[p].setup && (es != [] ==> Untouched(Step(s, es[0]), es[1..], p))
  }

  lemma {:induction false} SetupHolds(s: Fpus, es: seq<Event>, p: Pid)
    requires Inv(s) && CanRun(s, es) && Untouched(s, es, p) && ContextOf(s, p) == InitFp()
    ensures Inv(Run(s, es)) && Live(Run(s, es), p) && ContextOf(Run(s, es), p) == InitFp() && Run(s, es).procs[p].setup
    decreases |es|
  {
    hide InitFp;
    if es != [] {
      StepKeeps(s, es[0]);
      StepContext(s, es[0], p);
      hide Step, CanStep, ContextOf;
      SetupHolds(Step(s, es[0]), es[1..], p);
    }
  }
}
