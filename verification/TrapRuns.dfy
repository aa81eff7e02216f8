/** Every run of nested traps and context switches: which branch trapvec takes, and what each return restores. */
module TrapRuns {
  import opened NoteFrames
  import opened TrapFrames

  /** A kernel stack: the boot stack, where the scheduler runs, or the one below a Proc. */
  datatype Stack = Boot | Kstack(proc: U64)

  /** A Ureg on a kernel stack: where it is, the mode it interrupted, and the words trapvec stored. */
  datatype Frame = Frame(at: int, mode: Mode, saved: seq<U64>)

  /** p->sched of a process that waits: the sp it left, or its Ureg's address and forkretfp as its pc. */
  datatype Label = Label(sp: int, born: bool)

  /** The hart, the stack it runs on, every stack's Uregs oldest first, and the label of each stack that waits. */
  datatype World = World(h: Hart, cur: Stack, stacks: map<Stack, seq<Frame>>, parked: map<Stack, Label>)

  const KSTACK: int := 8192
  const BOOTSTACK: int := 16384
  const GAP: int := 16
  const UENTRY: U64 := 4128

  function Top(l: Layout, k: Stack): int { match k case Boot => l.boot case Kstack(p) => p }

  function Low(l: Layout, k: Stack): int { Top(l, k) - (match k case Boot => BOOTSTACK case Kstack(_) => KSTACK) }

  function ProcOf(k: Stack): U64 { match k case Boot => 0 case Kstack(p) => p }

  /** The highest sp kernel code has: below its stack's Uregs and their argument gap. */
  function Bound(l: Layout, k: Stack, fs: seq<Frame>): int {
    if fs == [] then Top(l, k) else fs[|fs| - 1].at - GAP
  }

  /** The sp with which a waiting stack runs on; forkretfp's first instruction makes room below the Ureg. */
  function Rest(b: Label): int { if b.born then b.sp - GAP else b.sp }

  // ----- what every state keeps -----

  /**
   A kernel Ureg is as trapvec stored it; a user's may have been changed, but not its status; SIE is clear in both.
   */
  ghost predicate FrameOk(mem: Ram, f: Frame) {
    && Holds(mem, f.at) && |f.saved| == 37
    && (Fields(f.saved[STATUS]).spp <==> f.mode == S) && !Fields(f.saved[STATUS]).sie
    && (if f.mode == S then UregAt(mem, f.at) == f.saved else UregAt(mem, f.at)[STATUS] == f.saved[STATUS])
  }

  /** Frames lie in their stack, each below the one before; only the first of a process's can be a user's. */
  ghost predicate StackOk(l: Layout, k: Stack, fs: seq<Frame>) {
    && (forall i :: 0 <= i < |fs| ==> Low(l, k) <= fs[i].at && fs[i].at + UREGSIZE <= Top(l, k))
    && (forall i, j :: 0 <= i < j < |fs| ==> fs[j].at + UREGSIZE <= fs[i].at - GAP)
    && (forall i :: 0 <= i < |fs| && fs[i].mode == U ==> i == 0 && k.Kstack?)
    && (forall i :: 0 <= i < |fs| && fs[i].mode == S ==> KernelSaved(l, k, fs[i]))
  }

  /** A kernel Ureg holds the sp it was pushed below, and the kernel's up and m. */
  ghost predicate KernelSaved(l: Layout, k: Stack, f: Frame) {
    |f.saved| == 37 && f.saved[SP] == f.at + UREGSIZE && f.saved[6] == ProcOf(k) && f.saved[7] == l.m
  }

  /** Stacks are backed by memory and lie apart. */
  ghost predicate LayoutOk(l: Layout, mem: Ram, stacks: map<Stack, seq<Frame>>) {
    && (forall k :: k in stacks ==> Low(l, k) >= GAP && Backs(l, mem, k))
    && (forall k, k' :: k in stacks && k' in stacks && k != k' ==> Apart(l, k, k'))
  }

  ghost predicate Backs(l: Layout, mem: Ram, k: Stack) { forall a :: Low(l, k) <= a < Top(l, k) ==> a in mem }

  predicate Apart(l: Layout, k: Stack, k': Stack) { Top(l, k) <= Low(l, k') || Top(l, k') <= Low(l, k) }

  /** sscratch is 0 in the kernel and m in user mode; in the kernel up, m and sp are the current stack's own. */
  ghost predicate HartOk(l: Layout, h: Hart, k: Stack, fs: seq<Frame>) {
    && h.proc == ProcOf(k)
    && (h.mode == U ==> h.sscratch == l.m && k.Kstack? && fs == [])
    && (h.mode == S ==>
          h.sscratch == 0 && h.x[6] == ProcOf(k) && h.x[7] == l.m && Low(l, k) <= h.x[SP] <= Bound(l, k, fs))
  }

  ghost predicate Inv(l: Layout, w: World) {
    && l.m != 0 && w.cur in w.stacks
    && LayoutOk(l, w.h.mem, w.stacks)
    && (forall k :: k in w.stacks ==> StackOk(l, k, w.stacks[k]))
    && (forall k, i :: k in w.stacks && 0 <= i < |w.stacks[k]| ==> FrameOk(w.h.mem, w.stacks[k][i]))
    && (forall k :: k in w.stacks && k != w.cur ==>
          k in w.parked && Low(l, k) <= Rest(w.parked[k]) <= Bound(l, k, w.stacks[k]))
    && HartOk(l, w.h, w.cur, w.stacks[w.cur])
  }

  // ----- steps -----

  datatype Event =
    | User(x: Regfile, pc: U64)              // user code runs
    | Trap(cause: U64, tval: U64)            // any interrupt or exception, up to the call of trap()
    | Kernel(h: Hart)                        // kernel code runs, with the CSRs as it leaves them
    | Switch(to: Stack, x: Regfile)          // setlabel and gotolabel
    | Spawn(proc: U64, sp: U64)              // a process that has not been in user mode
    | Fork(child: U64)                       // forkchild
    | Exit(dead: Stack)                      // a waiting process is gone
    | Return                                 // forkret and SRET
    | Touser(x: Regfile, sstatus: U64)       // the first entry to user mode, with what touser leaves in registers

  /** Kernel code keeps up, m and sscratch, stays on its stack, and leaves saved Uregs as FrameOk says. */
  ghost predicate KernelMay(l: Layout, w: World, h: Hart)
    requires w.cur in w.stacks
  {
    && h.mode == S && h.sscratch == w.h.sscratch && h.proc == w.h.proc && h.x[6] == w.h.x[6] && h.x[7] == w.h.x[7]
    && Low(l, w.cur) <= h.x[SP] <= Bound(l, w.cur, w.stacks[w.cur])
    && h.mem.Keys == w.h.mem.Keys
    && (forall k, i :: k in w.stacks && 0 <= i < |w.stacks[k]| ==> FrameOk(h.mem, w.stacks[k][i]))
  }

  ghost predicate NewStack(l: Layout, w: World, k: Stack) {
    k !in w.stacks && Low(l, k) >= GAP && Backs(l, w.h.mem, k) && forall k' :: k' in w.stacks ==>
      Apart(l, k, k') && Apart(l, k', k)
  }

  ghost predicate CanStep(l: Layout, w: World, e: Event)
    requires w.cur in w.stacks
  {
    match e
    case User(_, _) => w.h.mode == U
    case Trap(cause, tval) => Base(Take(w.h, cause, tval)) - GAP >= Low(l, w.cur)      // room for one more Ureg
    case Kernel(h) => w.h.mode == S && KernelMay(l, w, h)
    case Switch(to, x) =>
      && w.h.mode == S && to in w.stacks && to != w.cur && to in w.parked
      && x[SP] == Rest(w.parked[to]) && x[6] == ProcOf(to) && x[7] == l.m
    case Spawn(p, sp) => w.h.mode == S && NewStack(l, w, Kstack(p)) && Low(l, Kstack(p)) <= sp <= p
    case Fork(p) =>
      w.h.mode == S && NewStack(l, w, Kstack(p)) && w.stacks[w.cur] != [] && w.stacks[w.cur][0].mode == U
      && Holds(w.h.mem, w.stacks[w.cur][0].at)
    case Exit(k) => w.h.mode == S && k in w.stacks && k != w.cur
    case Return =>
      && w.h.mode == S && w.stacks[w.cur] != [] && !Fields(w.h.sstatus).sie
      && w.h.x[SP] == w.stacks[w.cur][|w.stacks[w.cur]| - 1].at - GAP && Holds(w.h.mem, w.h.x[SP] + GAP)
    case Touser(_, _) => w.h.mode == S && w.stacks[w.cur] == [] && w.cur.Kstack? && !Fields(w.h.sstatus).sie
  }

  function Step(l: Layout, w: World, e: Event): World
    requires w.cur in w.stacks && CanStep(l, w, e) && Low(l, w.cur) >= GAP
  {
    match e
    case User(x, pc) => w.(h := w.h.(x := x, pc := pc))
    case Trap(cause, tval) =>
      var t := Take(w.h, cause, tval);
      w.(h := Enter(t, l), stacks := w.stacks[w.cur := w.stacks[w.cur] + [Frame(Base(t), w.h.mode, SavedWords(t))]])
    case Kernel(h) => w.(h := h)
    case Switch(to, x) => w.(h := w.h.(x := x, proc := ProcOf(to)), cur := to,
      parked := w.parked[w.cur := Label(w.h.x[SP], false)])
    case Spawn(p, sp) => w.(stacks := w.stacks[Kstack(p) := []], parked := w.parked[Kstack(p) := Label(sp, false)])
    case Fork(p) =>
      var ws := UregAt(w.h.mem, w.stacks[w.cur][0].at)[ARG := 0];
      var at := p - UREGSIZE;
      w.(h := w.h.(mem := StoreUreg(w.h.mem, at, ws)), stacks := w.stacks[Kstack(p) := [Frame(at, U, ws)]],
         parked := w.parked[Kstack(p) := Label(at, true)])
    case Exit(k) => w.(stacks := map j | j in w.stacks && j != k :: w.stacks[j])
    case Return =>
      var fs := w.stacks[w.cur];
      w.(h := Leave(w.h, l, fs[|fs| - 1].at), stacks := w.stacks[w.cur := fs[..|fs| - 1]])
    case Touser(x, sstatus) => w.(h := w.h.(mode := U, pc := UENTRY, sepc := UENTRY, sscratch := l.m,
      sstatus := sstatus, x := x))
  }

  // ----- frames and stores -----

  lemma UregSame(mem: Ram, mem': Ram, at: int)
    requires Holds(mem, at) && mem'.Keys == mem.Keys
    requires forall k :: at <= k < at + UREGSIZE ==> mem'[k] == mem[k]
    ensures Holds(mem', at) && UregAt(mem', at) == UregAt(mem, at)
  {
  }

  lemma StoreKeepsFrame(mem: Ram, base: int, ws: seq<U64>, f: Frame)
    requires |ws| == 37 && Holds(mem, base) && FrameOk(mem, f)
    requires f.at + UREGSIZE <= base || base + UREGSIZE <= f.at
    ensures FrameOk(StoreUreg(mem, base, ws), f)
  {
    StoreReads(mem, base, ws);
    UregSame(mem, StoreUreg(mem, base, ws), f.at);
    hide StoreUreg, UregAt, Fields;
  }

  /** Room for a Ureg inside stack k, below its frames. */
  ghost predicate Free(l: Layout, w: World, k: Stack, base: int) {
    && k in w.stacks && Low(l, k) <= base
    && base + UREGSIZE <= (if w.stacks[k] == [] then Top(l, k) else w.stacks[k][|w.stacks[k]| - 1].at - GAP)
  }

  lemma InStack(l: Layout, w: World, j: Stack, i: int)
    requires Inv(l, w) && j in w.stacks && 0 <= i < |w.stacks[j]|
    ensures Low(l, j) <= w.stacks[j][i].at && w.stacks[j][i].at + UREGSIZE <= Top(l, j)
    ensures w.stacks[j][|w.stacks[j]| - 1].at <= w.stacks[j][i].at
  {
    hide FrameOk, HartOk, LayoutOk;
    assert StackOk(l, j, w.stacks[j]);
    hide KernelSaved, Low, Top;
  }

  lemma StacksApart(l: Layout, w: World, j: Stack, k: Stack)
    requires Inv(l, w) && j in w.stacks && k in w.stacks && j != k
    ensures Top(l, k) <= Low(l, j) || Top(l, j) <= Low(l, k)
  {
    hide FrameOk, HartOk, StackOk, Backs;
    assert Apart(l, k, j);
    hide Top, Low;
  }

  lemma FreeApart(l: Layout, w: World, k: Stack, base: int, j: Stack, i: int)
    requires Inv(l, w) && Free(l, w, k, base) && j in w.stacks && 0 <= i < |w.stacks[j]|
    ensures w.stacks[j][i].at + UREGSIZE <= base || base + UREGSIZE <= w.stacks[j][i].at
  {
    hide *;
    GapIs();
    FreeMeans(l, w, k, base);
    InStack(l, w, j, i);
    if w.stacks[k] != [] { InStack(l, w, k, |w.stacks[k]| - 1); }
    if j != k { StacksApart(l, w, j, k); }
  }

  lemma GapIs()
    ensures GAP == 16 && UREGSIZE == 296 && SP == 2 && ARG == 8 && STATUS == 32 && PC == 0
  {
  }

  lemma FreeHolds(l: Layout, w: World, k: Stack, base: int)
    requires Inv(l, w) && Free(l, w, k, base)
    ensures Holds(w.h.mem, base)
  {
    hide FrameOk, HartOk, Apart;
    assert Backs(l, w.h.mem, k) && StackOk(l, k, w.stacks[k]);
    hide KernelSaved;
  }

  /** A Ureg stored in free room harms no frame. */
  lemma PushHarmless(l: Layout, w: World, k: Stack, base: int, ws: seq<U64>)
    requires Inv(l, w) && Free(l, w, k, base) && |ws| == 37
    ensures Holds(w.h.mem, base)
    ensures var mem := StoreUreg(w.h.mem, base, ws);
      && mem.Keys == w.h.mem.Keys && Holds(mem, base) && UregAt(mem, base) == ws
      && forall j, i :: j in w.stacks && 0 <= i < |w.stacks[j]| ==> FrameOk(mem, w.stacks[j][i])
  {
    hide *;
    FreeHolds(l, w, k, base);
    StoreReads(w.h.mem, base, ws);
    forall j, i | j in w.stacks
        && 0 <= i < |w.stacks[j]| ensures FrameOk(StoreUreg(w.h.mem, base, ws), w.stacks[j][i]) {
      FramesOk(l, w, j, i);
      FreeApart(l, w, k, base, j, i);
      StoreKeepsFrame(w.h.mem, base, ws, w.stacks[j][i]);
    }
  }

  lemma FramesOk(l: Layout, w: World, j: Stack, i: int)
    requires Inv(l, w) && j in w.stacks && 0 <= i < |w.stacks[j]|
    ensures FrameOk(w.h.mem, w.stacks[j][i])
  {
    hide FrameOk, HartOk, StackOk, LayoutOk;
  }

  // ----- a trap -----

  /** trapvec's test of sscratch tells the interrupted mode. */
  lemma BranchMatches(l: Layout, w: World, cause: U64, tval: U64)
    requires Inv(l, w)
    ensures var t := Take(w.h, cause, tval);
      && (t.sscratch != 0 <==> w.h.mode == U)
      && (t.sscratch != 0 ==> t.sscratch == l.m && t.proc == ProcOf(w.cur))
      && (Fields(t.sstatus).spp <==> w.h.mode == S) && !Fields(t.sstatus).sie
  {
    WordOf(w.h.sstatus);
    StatusWordFields(Trapped(Fields(w.h.sstatus), w.h.mode));
    hide Fields, StatusWord, LayoutOk, StackOk, FrameOk;
  }

  lemma TrapRoom(l: Layout, w: World, cause: U64, tval: U64)
    requires Inv(l, w) && CanStep(l, w, Trap(cause, tval))
    ensures var t := Take(w.h, cause, tval);
      && Free(l, w, w.cur, Base(t)) && Base(t) >= GAP && Base(t) - GAP >= Low(l, w.cur)
      && Base(t) == (if w.h.mode == U then ProcOf(w.cur) else w.h.x[SP]) - UREGSIZE
  {
    BranchMatches(l, w, cause, tval);
    assert LayoutOk(l, w.h.mem, w.stacks) && HartOk(l, w.h, w.cur, w.stacks[w.cur]);
    hide Fields, StatusWord, StackOk, FrameOk, Backs, Apart;
  }

  /** The Ureg a trap leaves. */
  lemma NewFrame(l: Layout, w: World, cause: U64, tval: U64)
    requires Inv(l, w)
    ensures var ws := SavedWords(Take(w.h, cause, tval));
      && |ws| == 37 && ws[PC] == w.h.pc && (forall i :: 1 <= i < 32 ==> ws[i] == w.h.x[i])
      && ws[STATUS] == Take(w.h, cause, tval).sstatus
      && (Fields(ws[STATUS]).spp <==> w.h.mode == S) && !Fields(ws[STATUS]).sie
  {
    BranchMatches(l, w, cause, tval);
    hide Fields, StatusWord, Inv;
  }

  lemma TrapHart(l: Layout, w: World, cause: U64, tval: U64)
    requires Inv(l, w) && CanStep(l, w, Trap(cause, tval))
    ensures var t := Take(w.h, cause, tval); Base(t) >= GAP
    ensures var t := Take(w.h, cause, tval); var h := Enter(t, l);
      && h.mode == S && h.sscratch == 0 && h.proc == ProcOf(w.cur) && h.x[6] == ProcOf(w.cur) && h.x[7] == l.m
      && h.x[SP] == Base(t) - GAP && h.x[ARG] == Base(t) && h.mem == StoreUreg(w.h.mem, Base(t), SavedWords(t))
  {
    hide *;
    GapIs();
    TrapRoom(l, w, cause, tval);
    BranchMatches(l, w, cause, tval);
    KernelRegs(l, w);
    TakeKeeps(w.h, cause, tval);
    EnterParts(Take(w.h, cause, tval), l);
  }

  lemma EnterParts(t: Hart, l: Layout)
    requires Base(t) >= GAP
    ensures var h := Enter(t, l);
      && h.mode == t.mode && h.sscratch == 0 && h.proc == t.proc && h.x[SP] == Base(t) - GAP && h.x[ARG] == Base(t)
      && h.mem == StoreUreg(t.mem, Base(t), SavedWords(t))
      && (if Fields(t.sstatus).spp then h.x[6] == t.x[6] && h.x[7] == t.x[7] else h.x[6] == t.proc && h.x[7] == l.m)
  {
    hide Fields, StoreUreg, SavedWords, Base;
  }

  lemma KernelRegs(l: Layout, w: World)
    requires Inv(l, w)
    ensures w.h.proc == ProcOf(w.cur) && (w.h.mode == S ==> w.h.x[6] == ProcOf(w.cur) && w.h.x[7] == l.m)
  {
    hide StackOk, FrameOk, LayoutOk;
  }

  lemma TakeKeeps(h: Hart, cause: U64, tval: U64)
    ensures var t := Take(h, cause, tval); t.mode == S && t.x == h.x && t.proc == h.proc && t.mem == h.mem
  {
    hide Fields, StatusWord;
  }

  // ----- putting Inv back together -----

  lemma InvParts(l: Layout, w: World)
    requires Inv(l, w)
    ensures l.m != 0 && w.cur in w.stacks && LayoutOk(l, w.h.mem, w.stacks) && Low(l, w.cur) >= GAP
    ensures forall k :: k in w.stacks ==> StackOk(l, k, w.stacks[k])
    ensures forall k, i :: k in w.stacks && 0 <= i < |w.stacks[k]| ==> FrameOk(w.h.mem, w.stacks[k][i])
    ensures forall k :: k in w.stacks && k != w.cur ==>
      k in w.parked && Low(l, k) <= Rest(w.parked[k]) <= Bound(l, k, w.stacks[k])
    ensures HartOk(l, w.h, w.cur, w.stacks[w.cur])
  {
    hide StackOk, FrameOk, HartOk, Bound, Low;
  }

  lemma LayoutSame(l: Layout, mem: Ram, mem': Ram, stacks: map<Stack, seq<Frame>>, stacks': map<Stack, seq<Frame>>)
    requires LayoutOk(l, mem, stacks) && mem'.Keys == mem.Keys && stacks'.Keys <= stacks.Keys
    ensures LayoutOk(l, mem', stacks')
  {
    forall k | k in stacks' ensures Backs(l, mem', k) { assert Backs(l, mem, k); }
    hide Low, Top, Apart;
  }

  lemma Pushed(l: Layout, k: Stack, fs: seq<Frame>, f: Frame)
    requires StackOk(l, k, fs)
    requires Low(l, k) <= f.at && f.at + UREGSIZE <= (if fs == [] then Top(l, k) else fs[|fs| - 1].at - GAP)
    requires if f.mode == U then fs == [] && k.Kstack? else KernelSaved(l, k, f)
    ensures StackOk(l, k, fs + [f]) && Bound(l, k, fs + [f]) == f.at - GAP
  {
    hide KernelSaved, Low, Top;
  }

  lemma TrapIs(l: Layout, w: World, cause: U64, tval: U64)
    requires w.cur in w.stacks && CanStep(l, w, Trap(cause, tval)) && Low(l, w.cur) >= GAP
    ensures var t := Take(w.h, cause, tval); Base(t) >= GAP
    ensures var t, w' := Take(w.h, cause, tval), Step(l, w, Trap(cause, tval));
      && w'.h == Enter(t, l) && w'.cur == w.cur && w'.parked == w.parked
      && w'.stacks == w.stacks[w.cur := w.stacks[w.cur] + [Frame(Base(t), w.h.mode, SavedWords(t))]]
  {
    hide Enter, Take, Base, SavedWords, Low;
  }

  lemma FreeMeans(l: Layout, w: World, k: Stack, base: int)
    requires Free(l, w, k, base)
    ensures k in w.stacks && Low(l, k) <= base
    ensures base + UREGSIZE <= (if w.stacks[k] == [] then Top(l, k) else w.stacks[k][|w.stacks[k]| - 1].at - GAP)
  {
    hide Low, Top;
  }

  /** What trapvec stored is a frame of the right kind. */
  lemma TrapFrameOk(l: Layout, w: World, cause: U64, tval: U64)
    requires Inv(l, w) && CanStep(l, w, Trap(cause, tval))
    requires var t := Take(w.h, cause, tval);
      && Base(t) == (if w.h.mode == U then ProcOf(w.cur) else w.h.x[SP]) - UREGSIZE
      && Holds(StoreUreg(w.h.mem, Base(t), SavedWords(t)), Base(t))
      && UregAt(StoreUreg(w.h.mem, Base(t), SavedWords(t)), Base(t)) == SavedWords(t)
    ensures var t := Take(w.h, cause, tval);
      var f := Frame(Base(t), w.h.mode, SavedWords(t));
      && FrameOk(StoreUreg(w.h.mem, Base(t), SavedWords(t)), f)
      && (if f.mode == U then w.stacks[w.cur] == [] && w.cur.Kstack? else KernelSaved(l, w.cur, f))
  {
    NewFrame(l, w, cause, tval);
    assert HartOk(l, w.h, w.cur, w.stacks[w.cur]);
    hide Fields, StackOk, LayoutOk, StoreUreg, UregAt, SavedWords, Base, Take, Inv, Bound, Low;
  }

  lemma HartIf(l: Layout, h: Hart, k: Stack, fs: seq<Frame>)
    requires h.proc == ProcOf(k) && h.mode == S && h.sscratch == 0 && h.x[6] == ProcOf(k) && h.x[7] == l.m
    requires Low(l, k) <= h.x[SP] <= Bound(l, k, fs)
    ensures HartOk(l, h, k, fs)
  {
    hide Low, Bound;
  }

  lemma InvIf(l: Layout, w: World)
    requires l.m != 0 && w.cur in w.stacks && LayoutOk(l, w.h.mem, w.stacks)
    requires forall k :: k in w.stacks ==> StackOk(l, k, w.stacks[k])
    requires forall k, i :: k in w.stacks && 0 <= i < |w.stacks[k]| ==> FrameOk(w.h.mem, w.stacks[k][i])
    requires forall k :: k in w.stacks && k != w.cur ==>
      k in w.parked && Low(l, k) <= Rest(w.parked[k]) <= Bound(l, k, w.stacks[k])
    requires HartOk(l, w.h, w.cur, w.stacks[w.cur])
    ensures Inv(l, w)
  {
    hide StackOk, FrameOk, HartOk, Bound, Low, LayoutOk;
  }

  lemma TrapKeeps(l: Layout, w: World, cause: U64, tval: U64)
    requires Inv(l, w) && CanStep(l, w, Trap(cause, tval))
    ensures Low(l, w.cur) >= GAP && Inv(l, Step(l, w, Trap(cause, tval)))
  {
    hide *;
    InvParts(l, w);
    TrapRoom(l, w, cause, tval);
    TrapHart(l, w, cause, tval);
    NewFrame(l, w, cause, tval);
    TrapIs(l, w, cause, tval);
    var t := Take(w.h, cause, tval);
    var f := Frame(Base(t), w.h.mode, SavedWords(t));
    FreeMeans(l, w, w.cur, Base(t));
    PushHarmless(l, w, w.cur, Base(t), SavedWords(t));
    TrapFrameOk(l, w, cause, tval);
    Pushed(l, w.cur, w.stacks[w.cur], f);
    var w' := Step(l, w, Trap(cause, tval));
    LayoutSame(l, w.h.mem, w'.h.mem, w.stacks, w'.stacks);
    HartIf(l, w'.h, w'.cur, w'.stacks[w'.cur]);
    InvIf(l, w');
  }

  // ----- the other steps -----

  lemma HartParts(l: Layout, h: Hart, k: Stack, fs: seq<Frame>)
    requires HartOk(l, h, k, fs) && h.mode == S
    ensures h.proc == ProcOf(k) && h.sscratch == 0 && h.x[6] == ProcOf(k) && h.x[7] == l.m
    ensures Low(l, k) <= h.x[SP] <= Bound(l, k, fs)
  {
    hide Low, Bound;
  }

  lemma KernelIs(l: Layout, w: World, h: Hart)
    requires w.cur in w.stacks && CanStep(l, w, Kernel(h)) && Low(l, w.cur) >= GAP
    ensures Step(l, w, Kernel(h)) == w.(h := h) && w.h.mode == S
    ensures h.mode == S && h.sscratch == w.h.sscratch && h.proc == w.h.proc && h.x[6] == w.h.x[6] && h.x[7] == w.h.x[7]
    ensures Low(l, w.cur) <= h.x[SP] <= Bound(l, w.cur, w.stacks[w.cur]) && h.mem.Keys == w.h.mem.Keys
    ensures forall k, i :: k in w.stacks && 0 <= i < |w.stacks[k]| ==> FrameOk(h.mem, w.stacks[k][i])
  {
    hide FrameOk, Bound, Low;
  }

  lemma KernelKeeps(l: Layout, w: World, h: Hart)
    requires Inv(l, w) && CanStep(l, w, Kernel(h))
    ensures Low(l, w.cur) >= GAP && Inv(l, Step(l, w, Kernel(h)))
  {
    hide *;
    GapIs();
    InvParts(l, w);
    KernelIs(l, w, h);
    HartParts(l, w.h, w.cur, w.stacks[w.cur]);
    LayoutSame(l, w.h.mem, h.mem, w.stacks, w.stacks);
    HartIf(l, h, w.cur, w.stacks[w.cur]);
    InvIf(l, w.(h := h));
  }

  lemma UserIs(l: Layout, w: World, x: Regfile, pc: U64)
    requires w.cur in w.stacks && CanStep(l, w, User(x, pc)) && Low(l, w.cur) >= GAP
    ensures Step(l, w, User(x, pc)) == w.(h := w.h.(x := x, pc := pc)) && w.h.mode == U
  {
    hide Low;
  }

  lemma UserStays(l: Layout, h: Hart, x: Regfile, pc: U64, k: Stack, fs: seq<Frame>)
    requires HartOk(l, h, k, fs) && h.mode == U
    ensures HartOk(l, h.(x := x, pc := pc), k, fs)
  {
    hide Bound, Low;
  }

  lemma UserKeeps(l: Layout, w: World, x: Regfile, pc: U64)
    requires Inv(l, w) && CanStep(l, w, User(x, pc))
    ensures Low(l, w.cur) >= GAP && Inv(l, Step(l, w, User(x, pc)))
  {
    hide *;
    InvParts(l, w);
    UserIs(l, w, x, pc);
    UserStays(l, w.h, x, pc, w.cur, w.stacks[w.cur]);
    InvIf(l, w.(h := w.h.(x := x, pc := pc)));
  }

  lemma SwitchIs(l: Layout, w: World, to: Stack, x: Regfile)
    requires w.cur in w.stacks && CanStep(l, w, Switch(to, x)) && Low(l, w.cur) >= GAP
    ensures Step(l, w, Switch(to, x)) ==
      w.(h := w.h.(x := x, proc := ProcOf(to)), cur := to, parked := w.parked[w.cur := Label(w.h.x[SP], false)])
    ensures w.h.mode == S && to in w.stacks && to != w.cur && to in w.parked && x[SP] == Rest(w.parked[to])
        && x[6] == ProcOf(to) && x[7] == l.m && Rest(Label(w.h.x[SP], false)) == w.h.x[SP]
  {
    hide Low;
  }

  lemma SwitchKeeps(l: Layout, w: World, to: Stack, x: Regfile)
    requires Inv(l, w) && CanStep(l, w, Switch(to, x))
    ensures Low(l, w.cur) >= GAP && Inv(l, Step(l, w, Switch(to, x)))
  {
    hide *;
    InvParts(l, w);
    SwitchIs(l, w, to, x);
    HartParts(l, w.h, w.cur, w.stacks[w.cur]);
    var w' := Step(l, w, Switch(to, x));
    HartIf(l, w'.h, to, w.stacks[to]);
    InvIf(l, w');
  }

  lemma SpawnIs(l: Layout, w: World, p: U64, sp: U64)
    requires w.cur in w.stacks && CanStep(l, w, Spawn(p, sp)) && Low(l, w.cur) >= GAP
    ensures Step(l, w, Spawn(p, sp)) ==
      w.(stacks := w.stacks[Kstack(p) := []], parked := w.parked[Kstack(p) := Label(sp, false)])
    ensures NewStack(l, w, Kstack(p)) && Kstack(p) !in w.stacks && Low(l, Kstack(p)) <= sp <= Bound(l, Kstack(p), [])
    ensures StackOk(l, Kstack(p), []) && Rest(Label(sp, false)) == sp
  {
  }

  lemma SpawnKeeps(l: Layout, w: World, p: U64, sp: U64)
    requires Inv(l, w) && CanStep(l, w, Spawn(p, sp))
    ensures Low(l, w.cur) >= GAP && Inv(l, Step(l, w, Spawn(p, sp)))
  {
    hide *;
    InvParts(l, w);
    SpawnIs(l, w, p, sp);
    LayoutGrows(l, w, Kstack(p), []);
    InvIf(l, Step(l, w, Spawn(p, sp)));
  }

  lemma LayoutGrows(l: Layout, w: World, k: Stack, fs: seq<Frame>)
    requires LayoutOk(l, w.h.mem, w.stacks) && NewStack(l, w, k)
    ensures LayoutOk(l, w.h.mem, w.stacks[k := fs])
  {
    hide Low, Top, Apart, Backs;
  }

  lemma ExitIs(l: Layout, w: World, dead: Stack)
    requires w.cur in w.stacks && CanStep(l, w, Exit(dead)) && Low(l, w.cur) >= GAP
    ensures Step(l, w, Exit(dead)) == w.(stacks := map j | j in w.stacks && j != dead :: w.stacks[j]) && dead != w.cur
  {
  }

  lemma ExitKeeps(l: Layout, w: World, dead: Stack)
    requires Inv(l, w) && CanStep(l, w, Exit(dead))
    ensures Low(l, w.cur) >= GAP && Inv(l, Step(l, w, Exit(dead)))
  {
    hide *;
    InvParts(l, w);
    ExitIs(l, w, dead);
    var w' := Step(l, w, Exit(dead));
    LayoutSame(l, w.h.mem, w.h.mem, w.stacks, w'.stacks);
    InvIf(l, w');
  }

  lemma TouserIs(l: Layout, w: World, x: Regfile, sstatus: U64)
    requires w.cur in w.stacks && CanStep(l, w, Touser(x, sstatus)) && Low(l, w.cur) >= GAP
    ensures Step(l, w, Touser(x, sstatus)) ==
      w.(h := w.h.(mode := U, pc := UENTRY, sepc := UENTRY, sscratch := l.m, sstatus := sstatus, x := x))
    ensures w.h.mode == S && w.stacks[w.cur] == [] && w.cur.Kstack?
  {
  }

  lemma UserHart(l: Layout, h: Hart, k: Stack)
    requires h.mode == U && h.proc == ProcOf(k) && h.sscratch == l.m && k.Kstack?
    ensures HartOk(l, h, k, [])
  {
  }

  /** The first user instruction is the one after the 32-byte a.out header of the text at 4096, with m in sscratch. */
  lemma TouserStarts(l: Layout, w: World, x: Regfile, sstatus: U64)
    requires w.cur in w.stacks && CanStep(l, w, Touser(x, sstatus)) && Low(l, w.cur) >= GAP
    ensures var w' := Step(l, w, Touser(x, sstatus));
      && w'.h.mode == U && w'.h.pc == 4128 && w'.h.sscratch == l.m && w'.h.x == x && w'.h.mem == w.h.mem
      && w'.cur == w.cur && w'.stacks == w.stacks
  {
    TouserIs(l, w, x, sstatus);
    hide Step, CanStep, Low;
  }

  lemma TouserKeeps(l: Layout, w: World, x: Regfile, sstatus: U64)
    requires Inv(l, w) && CanStep(l, w, Touser(x, sstatus))
    ensures Low(l, w.cur) >= GAP && Inv(l, Step(l, w, Touser(x, sstatus)))
  {
    hide *;
    InvParts(l, w);
    TouserIs(l, w, x, sstatus);
    HartParts(l, w.h, w.cur, w.stacks[w.cur]);
    var w' := Step(l, w, Touser(x, sstatus));
    UserHart(l, w'.h, w.cur);
    InvIf(l, w');
  }

  // ----- return -----

  /** What the return gives the code it interrupted: the Ureg's words, its mode, and the sscratch that mode needs. */
  lemma ReturnGives(l: Layout, w: World)
    requires Inv(l, w) && CanStep(l, w, Return)
    ensures w.stacks[w.cur] != [] && Holds(w.h.mem, Newest(w).at) && |Newest(w).saved| == 37
    ensures var f, h := Newest(w), Leave(w.h, l, Newest(w).at);
      && h.mode == f.mode && h.sscratch == (if f.mode == U then l.m else 0)
      && h.pc == UregAt(w.h.mem, f.at)[PC] && (forall i :: 1 <= i < 32 ==> h.x[i] == UregAt(w.h.mem, f.at)[i])
      && Fields(h.sstatus) == Returned(Fields(f.saved[STATUS]))
      && (f.mode == S ==> h.pc == f.saved[PC] && forall i :: 1 <= i < 32 ==> h.x[i] == f.saved[i])
      && h.mem == w.h.mem && h.proc == w.h.proc
  {
    NewestOk(l, w);
    var f := Newest(w);
    var ws := UregAt(w.h.mem, f.at);
    WordOf(ws[STATUS]);
    StatusWordFields(Returned(Fields(ws[STATUS])));
    hide Fields, StatusWord, UregAt, Inv, CanStep, Newest;
  }

  /** A return by offset and bit: pc, registers, mode and status come from the Ureg 16 above sp. */
  lemma ReturnLoads(l: Layout, w: World)
    requires Inv(l, w) && CanStep(l, w, Return)
    ensures Low(l, w.cur) >= GAP && Holds(w.h.mem, w.h.x[2] + 16)
    ensures Left(w.h, Step(l, w, Return).h, l, w.h.x[2] + 16)
  {
    hide *;
    GapIs();
    InvParts(l, w);
    ReturnIs(l, w);
    NewestIs(w);
    ReturnQuiet(l, w);
    LeaveIsLeft(w.h, l, Newest(w).at);
  }

  /**
   Interrupts stay off through a return: they are off as forkret is entered, and the Ureg whose status it reloads saved
   SIE clear.  So the return is one step.
   */
  lemma ReturnQuiet(l: Layout, w: World)
    requires Inv(l, w) && CanStep(l, w, Return)
    ensures w.stacks[w.cur] != [] && Holds(w.h.mem, Newest(w).at) && w.h.x[SP] + GAP == Newest(w).at
    ensures ReturnsQuietly(w.h, Newest(w).at)
  {
    NewestOk(l, w);
    assert UregAt(w.h.mem, Newest(w).at)[STATUS] == Newest(w).saved[STATUS];
    hide Fields, UregAt, Inv, Holds, Low;
  }

  lemma NewestOk(l: Layout, w: World)
    requires Inv(l, w) && CanStep(l, w, Return)
    ensures w.stacks[w.cur] != [] && FrameOk(w.h.mem, Newest(w)) && w.h.sscratch == 0
  {
    hide FrameOk, StackOk, LayoutOk, Fields;
  }

  /** The Ureg a return uses. */
  function Newest(w: World): Frame
    requires w.cur in w.stacks && w.stacks[w.cur] != []
  {
    w.stacks[w.cur][|w.stacks[w.cur]| - 1]
  }

  lemma Popped(l: Layout, k: Stack, fs: seq<Frame>)
    requires StackOk(l, k, fs) && fs != []
    ensures var init, f := fs[..|fs| - 1], fs[|fs| - 1];
      && StackOk(l, k, init) && Low(l, k) <= f.at && f.at + UREGSIZE <= Bound(l, k, init)
      && (f.mode == U ==> init == [] && k.Kstack?) && (f.mode == S ==> KernelSaved(l, k, f))
  {
    hide KernelSaved, Low, Top;
  }

  lemma ReturnIs(l: Layout, w: World)
    requires w.cur in w.stacks && CanStep(l, w, Return) && Low(l, w.cur) >= GAP
    ensures w.stacks[w.cur] != [] && w.h.mode == S && Holds(w.h.mem, Newest(w).at)
    ensures var fs, w' := w.stacks[w.cur], Step(l, w, Return);
      w'.h == Leave(w.h, l, Newest(w).at) && w'.stacks == w.stacks[w.cur := fs[..|fs| - 1]] && w'.cur == w.cur
          && w'.parked == w.parked
  {
    hide Leave, Low, Fields;
  }

  lemma SavedParts(l: Layout, k: Stack, f: Frame)
    requires KernelSaved(l, k, f)
    ensures |f.saved| == 37 && f.saved[SP] == f.at + UREGSIZE && f.saved[6] == ProcOf(k) && f.saved[7] == l.m
  {
  }

  lemma ReturnKeeps(l: Layout, w: World)
    requires Inv(l, w) && CanStep(l, w, Return)
    ensures Low(l, w.cur) >= GAP && Inv(l, Step(l, w, Return))
  {
    hide *;
    GapIs();
    InvParts(l, w);
    ReturnGives(l, w);
    ReturnIs(l, w);
    HartParts(l, w.h, w.cur, w.stacks[w.cur]);
    Popped(l, w.cur, w.stacks[w.cur]);
    var w', f := Step(l, w, Return), Newest(w);
    NewestIs(w);
    LayoutSame(l, w.h.mem, w'.h.mem, w.stacks, w'.stacks);
    if f.mode == U {
      UserHart(l, w'.h, w.cur);
    } else {
      SavedParts(l, w.cur, f);
      HartIf(l, w'.h, w.cur, w'.stacks[w.cur]);
    }
    InvIf(l, w');
  }

  lemma NewestIs(w: World)
    requires w.cur in w.stacks && w.stacks[w.cur] != []
    ensures Newest(w) == w.stacks[w.cur][|w.stacks[w.cur]| - 1]
  {
  }

  // ----- fork -----

  lemma ForkIs(l: Layout, w: World, p: U64)
    requires w.cur in w.stacks && CanStep(l, w, Fork(p)) && Low(l, w.cur) >= GAP
    ensures w.stacks[w.cur] != [] && w.stacks[w.cur][0].mode == U && Holds(w.h.mem, w.stacks[w.cur][0].at)
        && w.h.mode == S
    ensures NewStack(l, w, Kstack(p)) && Low(l, Kstack(p)) <= p
    ensures Rest(Label(p - UREGSIZE, true)) == p - UREGSIZE - GAP
    ensures Step(l, w, Fork(p)) == Forked(w, p, UregAt(w.h.mem, w.stacks[w.cur][0].at)[ARG := 0])
  {
    hide UregAt, StoreUreg;
  }

  /** The child gets the parent's user Ureg at the top of its stack, with fork's return value 0. */
  function Forked(w: World, p: U64, ws: seq<U64>): World
    requires |ws| == 37
  {
    var at := p - UREGSIZE;
    w.(h := w.h.(mem := StoreUreg(w.h.mem, at, ws)), stacks := w.stacks[Kstack(p) := [Frame(at, U, ws)]],
       parked := w.parked[Kstack(p) := Label(at, true)])
  }

  lemma ForkWords(l: Layout, w: World)
    requires Inv(l, w) && w.stacks[w.cur] != [] && w.stacks[w.cur][0].mode == U
    ensures Holds(w.h.mem, w.stacks[w.cur][0].at)
    ensures var ws := UregAt(w.h.mem, w.stacks[w.cur][0].at)[ARG := 0];
      |ws| == 37 && !Fields(ws[STATUS]).spp && !Fields(ws[STATUS]).sie
  {
    assert FrameOk(w.h.mem, w.stacks[w.cur][0]);
    hide Fields, UregAt, Holds, Inv;
  }

  lemma ChildRoom(l: Layout, w: World, p: U64)
    requires NewStack(l, w, Kstack(p))
    ensures Free(l, w.(stacks := w.stacks[Kstack(p) := []]), Kstack(p), p - UREGSIZE)
        && Low(l, Kstack(p)) <= p - UREGSIZE - GAP
  {
    hide Backs, Apart;
  }

  lemma ChildStack(l: Layout, p: U64, f: Frame)
    requires f.mode == U && f.at == p - UREGSIZE && |f.saved| == 37
    ensures StackOk(l, Kstack(p), [f]) && Bound(l, Kstack(p), [f]) == p - UREGSIZE - GAP
  {
  }

  lemma UserFrame(mem: Ram, f: Frame)
    requires Holds(mem, f.at) && |f.saved| == 37 && UregAt(mem, f.at) == f.saved && f.mode == U
        && !Fields(f.saved[STATUS]).spp && !Fields(f.saved[STATUS]).sie
    ensures FrameOk(mem, f)
  {
    hide Fields, UregAt, Holds;
  }

  lemma SpawnSame(l: Layout, w: World, p: U64)
    requires w.cur in w.stacks && w.h.mode == S && NewStack(l, w, Kstack(p)) && Low(l, Kstack(p)) <= p
    ensures CanStep(l, w, Spawn(p, p))
  {
    hide NewStack, Low;
  }

  lemma ForkKeeps(l: Layout, w: World, p: U64)
    requires Inv(l, w) && CanStep(l, w, Fork(p))
    ensures Low(l, w.cur) >= GAP && Inv(l, Step(l, w, Fork(p)))
  {
    hide *;
    GapIs();
    InvParts(l, w);
    ForkIs(l, w, p);
    ForkWords(l, w);
    var ws := UregAt(w.h.mem, w.stacks[w.cur][0].at)[ARG := 0];
    var at, f := p - UREGSIZE, Frame(p - UREGSIZE, U, ws);
    SpawnSame(l, w, p);
    SpawnKeeps(l, w, p, p);
    SpawnIs(l, w, p, p);
    var w1 := Step(l, w, Spawn(p, p));
    ChildRoom(l, w, p);
    FreeSame(l, w.(stacks := w.stacks[Kstack(p) := []]), w1, Kstack(p), at);
    PushHarmless(l, w1, Kstack(p), at, ws);
    InvParts(l, w1);
    var w' := Forked(w, p, ws);
    ForkedIs(w, p, ws);
    UserFrame(w'.h.mem, f);
    ChildStack(l, p, f);
    LayoutSame(l, w1.h.mem, w'.h.mem, w1.stacks, w'.stacks);
    HartMem(l, w.h, w'.h, w.cur, w.stacks[w.cur]);
    ForkedFrames(w1, w', Kstack(p), f);
    InvIf(l, w');
  }

  /** The child's Ureg, word by word: fork returns 0 in R8, everything else is the parent's, whose own stays. */
  ghost predicate ForkLeaves(mem: Ram, mem': Ram, parent: int, child: int) {
    && Holds(mem, parent) && Holds(mem', parent) && Holds(mem', child)
    && (forall i :: 0 <= i < 37 ==> mem'[child + 8 * i] == if i == 8 then 0 else mem[parent + 8 * i])
    && (forall i :: 0 <= i < 37 ==> mem'[parent + 8 * i] == mem[parent + 8 * i])
  }

  /** forkchild: the copy lies at the top of the child's stack, and the child waits there. */
  lemma ForkCopies(l: Layout, w: World, p: U64)
    requires Inv(l, w) && CanStep(l, w, Fork(p))
    ensures Low(l, w.cur) >= GAP && w.stacks[w.cur] != []
    ensures var w' := Step(l, w, Fork(p));
      && ForkLeaves(w.h.mem, w'.h.mem, w.stacks[w.cur][0].at, p - 296)
      && Kstack(p) in w'.parked && w'.parked[Kstack(p)] == Label(p - 296, true)
  {
    hide *;
    GapIs();
    InvParts(l, w);
    ForkIs(l, w, p);
    ForkWords(l, w);
    var at := w.stacks[w.cur][0].at;
    var ws := UregAt(w.h.mem, at)[ARG := 0];
    ForkedIs(w, p, ws);
    SpawnSame(l, w, p);
    SpawnKeeps(l, w, p, p);
    SpawnIs(l, w, p, p);
    var w1 := Step(l, w, Spawn(p, p));
    ChildRoom(l, w, p);
    FreeSame(l, w.(stacks := w.stacks[Kstack(p) := []]), w1, Kstack(p), p - UREGSIZE);
    PushHarmless(l, w1, Kstack(p), p - UREGSIZE, ws);
    StoreKeepsWords(l, w1, Kstack(p), p - UREGSIZE, ws, w.cur, 0);
    CopiedWords(w.h.mem, Step(l, w, Fork(p)).h.mem, at, p - UREGSIZE);
  }

  lemma CopiedWords(mem: Ram, mem': Ram, parent: int, child: int)
    requires Holds(mem, parent) && Holds(mem', parent) && Holds(mem', child)
    requires UregAt(mem', child) == UregAt(mem, parent)[ARG := 0] && UregAt(mem', parent) == UregAt(mem, parent)
    ensures ForkLeaves(mem, mem', parent, child)
  {
    forall i | 0 <= i < 37
      ensures mem'[child + 8 * i] == if i == 8 then 0 else mem[parent + 8 * i]
      ensures mem'[parent + 8 * i] == mem[parent + 8 * i]
    {
      WordAt(mem, parent, i);
      WordAt(mem', parent, i);
      WordAt(mem', child, i);
    }
    hide UregAt, Holds;
  }

  lemma ForkedIs(w: World, p: U64, ws: seq<U64>)
    requires |ws| == 37
    ensures Forked(w, p, ws) == w.(h := w.h.(mem := StoreUreg(w.h.mem, p - UREGSIZE, ws)),
              stacks := w.stacks[Kstack(p) := [Frame(p - UREGSIZE, U, ws)]],
                parked := w.parked[Kstack(p) := Label(p - UREGSIZE, true)])
  {
  }

  lemma FreeSame(l: Layout, w: World, w': World, k: Stack, base: int)
    requires Free(l, w, k, base) && w'.stacks == w.stacks
    ensures Free(l, w', k, base)
  {
    hide Low, Top;
  }

  lemma HartMem(l: Layout, h: Hart, h': Hart, k: Stack, fs: seq<Frame>)
    requires HartOk(l, h, k, fs) && h' == h.(mem := h'.mem)
    ensures HartOk(l, h', k, fs)
  {
    hide Low, Bound;
  }

  lemma ForkedFrames(w: World, w': World, c: Stack, f: Frame)
    requires c in w.stacks && w.stacks[c] == [] && w'.stacks == w.stacks[c := [f]] && FrameOk(w'.h.mem, f)
    requires forall k, i :: k in w.stacks && 0 <= i < |w.stacks[k]| ==> FrameOk(w'.h.mem, w.stacks[k][i])
    ensures forall k, i :: k in w'.stacks && 0 <= i < |w'.stacks[k]| ==> FrameOk(w'.h.mem, w'.stacks[k][i])
  {
    hide FrameOk;
  }

  // ----- runs -----

  lemma StepKeeps(l: Layout, w: World, e: Event)
    requires Inv(l, w) && CanStep(l, w, e)
    ensures Low(l, w.cur) >= GAP && Inv(l, Step(l, w, e))
  {
    hide *;
    match e {
      case User(x, pc) => UserKeeps(l, w, x, pc);
      case Trap(cause, tval) => TrapKeeps(l, w, cause, tval);
      case Kernel(h) => KernelKeeps(l, w, h);
      case Switch(to, x) => SwitchKeeps(l, w, to, x);
      case Spawn(p, sp) => SpawnKeeps(l, w, p, sp);
      case Fork(p) => ForkKeeps(l, w, p);
      case Exit(k) => ExitKeeps(l, w, k);
      case Return => ReturnKeeps(l, w);
      case Touser(x, sstatus) => TouserKeeps(l, w, x, sstatus);
    }
  }

  ghost predicate CanRun(l: Layout, w: World, es: seq<Event>)
    decreases |es|
  {
    es == [] || (w.cur in w.stacks && Low(l, w.cur) >= GAP && CanStep(l, w, es[0])
      && CanRun(l, Step(l, w, es[0]), es[1..]))
  }

  function Run(l: Layout, w: World, es: seq<Event>): World
    requires CanRun(l, w, es)
    decreases |es|
  {
    if es == [] then w else Run(l, Step(l, w, es[0]), es[1..])
  }

  /** Every invariant holds in every run, with traps, switches, forks and returns in any order. */
  lemma {:induction false} RunKeeps(l: Layout, w: World, es: seq<Event>)
    requires Inv(l, w) && CanRun(l, w, es)
    ensures Inv(l, Run(l, w, es))
    decreases |es|
  {
    hide Inv, CanStep, Step, Low;
    if es != [] {
      StepKeeps(l, w, es[0]);
      RunKeeps(l, Step(l, w, es[0]), es[1..]);
    }
  }

  /** Throughout the run stack k has at least n Uregs: the n-th is not returned from. */
  ghost predicate StaysAbove(l: Layout, w: World, es: seq<Event>, k: Stack, n: nat)
    requires CanRun(l, w, es)
    decreases |es|
  {
    && k in w.stacks && |w.stacks[k]| >= n
    && (es != [] ==> StaysAbove(l, Step(l, w, es[0]), es[1..], k, n))
  }

  lemma StepKeepsFrame(l: Layout, w: World, e: Event, k: Stack, n: nat)
    requires w.cur in w.stacks && Low(l, w.cur) >= GAP && CanStep(l, w, e)
    requires k in w.stacks && 0 < n <= |w.stacks[k]|
    requires k in Step(l, w, e).stacks && n <= |Step(l, w, e).stacks[k]|
    ensures Step(l, w, e).stacks[k][n - 1] == w.stacks[k][n - 1]
  {
    hide Low, Enter, Leave, Take, SavedWords, Base, StoreUreg, UregAt, Backs, Apart, KernelMay, Fields, Holds;
  }

  lemma {:induction false} RunKeepsFrame(l: Layout, w: World, es: seq<Event>, k: Stack, n: nat)
    requires CanRun(l, w, es) && n > 0 && StaysAbove(l, w, es, k, n)
    ensures k in Run(l, w, es).stacks && |Run(l, w, es).stacks[k]| >= n
        && Run(l, w, es).stacks[k][n - 1] == w.stacks[k][n - 1]
    decreases |es|
  {
    hide CanStep, Step, Low;
    if es != [] {
      var w' := Step(l, w, es[0]);
      assert StaysAbove(l, w', es[1..], k, n);
      StepKeepsFrame(l, w, es[0], k, n);
      RunKeepsFrame(l, w', es[1..], k, n);
    }
  }

  /** No step but kernel code's own stores touches a saved Ureg: all 37 words stay. */
  lemma StepKeepsWords(l: Layout, w: World, e: Event, k: Stack, i: nat)
    requires Inv(l, w) && CanStep(l, w, e) && !e.Kernel? && k in w.stacks && i < |w.stacks[k]|
    ensures Low(l, w.cur) >= GAP
    ensures var at, mem := w.stacks[k][i].at, Step(l, w, e).h.mem;
      Holds(w.h.mem, at) && Holds(mem, at) && UregAt(mem, at) == UregAt(w.h.mem, at)
  {
    hide *;
    GapIs();
    InvParts(l, w);
    FrameHolds(w.h.mem, w.stacks[k][i]);
    match e {
      case Trap(cause, tval) =>
        TrapRoom(l, w, cause, tval);
        TrapHart(l, w, cause, tval);
        TrapIs(l, w, cause, tval);
        var t := Take(w.h, cause, tval);
        StoreKeepsWords(l, w, w.cur, Base(t), SavedWords(t), k, i);
      case Fork(p) =>
        ForkIs(l, w, p);
        ForkWords(l, w);
        ForkedIs(w, p, UregAt(w.h.mem, w.stacks[w.cur][0].at)[ARG := 0]);
        SpawnSame(l, w, p);
        SpawnKeeps(l, w, p, p);
        SpawnIs(l, w, p, p);
        var w1 := Step(l, w, Spawn(p, p));
        ChildRoom(l, w, p);
        FreeSame(l, w.(stacks := w.stacks[Kstack(p) := []]), w1, Kstack(p), p - UREGSIZE);
        StoreKeepsWords(l, w1, Kstack(p), p - UREGSIZE, UregAt(w.h.mem, w.stacks[w.cur][0].at)[ARG := 0], k, i);
      case _ => MemSame(l, w, e);
    }
  }

  lemma MemSame(l: Layout, w: World, e: Event)
    requires w.cur in w.stacks && CanStep(l, w, e) && Low(l, w.cur) >= GAP && !e.Trap? && !e.Kernel? && !e.Fork?
    ensures Step(l, w, e).h.mem == w.h.mem
  {
    hide Low, Fields, UregAt, Holds, Backs, Apart;
  }

  lemma FrameHolds(mem: Ram, f: Frame)
    requires FrameOk(mem, f)
    ensures Holds(mem, f.at)
  {
  }

  lemma StoreKeepsWords(l: Layout, w: World, j: Stack, base: int, ws: seq<U64>, k: Stack, i: nat)
    requires Inv(l, w) && Free(l, w, j, base) && |ws| == 37 && k in w.stacks && i < |w.stacks[k]|
    ensures var at, mem := w.stacks[k][i].at, StoreUreg(w.h.mem, base, ws);
      Holds(w.h.mem, at) && Holds(mem, at) && UregAt(mem, at) == UregAt(w.h.mem, at)
  {
    hide *;
    FreeHolds(l, w, j, base);
    StoreReads(w.h.mem, base, ws);
    FreeApart(l, w, j, base, k, i);
    FramesOk(l, w, k, i);
    FrameHolds(w.h.mem, w.stacks[k][i]);
    InKeys(w.h.mem, w.stacks[k][i].at);
    UregSame(w.h.mem, StoreUreg(w.h.mem, base, ws), w.stacks[k][i].at);
  }

  lemma InKeys(mem: Ram, at: int)
    requires Holds(mem, at)
    ensures forall k :: at <= k < at + UREGSIZE ==> k in mem
  {
  }

  /** Kernel code - system calls, notes, debuggers - leaves the Ureg at `at` alone during es. */
  ghost predicate KernelLeaves(l: Layout, w: World, es: seq<Event>, at: int)
    requires CanRun(l, w, es)
    decreases |es|
  {
    es == [] || (
      && (es[0].Kernel? ==>
            Holds(w.h.mem, at) && Holds(es[0].h.mem, at) && UregAt(es[0].h.mem, at) == UregAt(w.h.mem, at))
      && KernelLeaves(l, Step(l, w, es[0]), es[1..], at))
  }

  lemma StepWords(l: Layout, w: World, e: Event, k: Stack, i: nat)
    requires Inv(l, w) && CanStep(l, w, e) && k in w.stacks && i < |w.stacks[k]| && Holds(w.h.mem, w.stacks[k][i].at)
    requires var at := w.stacks[k][i].at;
      e.Kernel? ==> Holds(e.h.mem, at) && UregAt(e.h.mem, at) == UregAt(w.h.mem, at)
    ensures Low(l, w.cur) >= GAP
    ensures var at, mem := w.stacks[k][i].at, Step(l, w, e).h.mem;
      Holds(mem, at) && UregAt(mem, at) == UregAt(w.h.mem, at)
  {
    hide *;
    InvParts(l, w);
    if e.Kernel? { KernelIs(l, w, e.h); } else { StepKeepsWords(l, w, e, k, i); }
  }

  /** Inner traps, returns, switches, forks and exits leave every word of a Ureg that is not returned from. */
  lemma {:induction false} RunKeepsWords(l: Layout, w: World, es: seq<Event>, k: Stack, n: nat)
    requires Inv(l, w) && CanRun(l, w, es) && n > 0 && StaysAbove(l, w, es, k, n)
    requires KernelLeaves(l, w, es, w.stacks[k][n - 1].at)
    ensures var at, mem := w.stacks[k][n - 1].at, Run(l, w, es).h.mem;
      Holds(w.h.mem, at) && Holds(mem, at) && UregAt(mem, at) == UregAt(w.h.mem, at)
    decreases |es|
  {
    hide Inv, CanStep, Low, FrameOk, Holds, UregAt, Step;
    FramesOk(l, w, k, n - 1);
    FrameHolds(w.h.mem, w.stacks[k][n - 1]);
    if es != [] {
      var w' := Step(l, w, es[0]);
      assert StaysAbove(l, w', es[1..], k, n);
      StepKeeps(l, w, es[0]);
      StepKeepsFrame(l, w, es[0], k, n);
      StepWords(l, w, es[0], k, n - 1);
      RunKeepsWords(l, w', es[1..], k, n);
    }
  }

  /**
   A trap, then anything at all, then the return from that trap's own Ureg: the interrupted mode, status and sscratch
   are back.  Interrupted kernel code gets back its pc, its sp and every register; so does a user, whatever inner traps,
   switches, forks and exits did, unless kernel code itself changed its Ureg, and then it gets the words put there.
   */
  lemma TrapThenReturn(l: Layout, w: World, cause: U64, tval: U64, es: seq<Event>)
    requires Inv(l, w) && CanStep(l, w, Trap(cause, tval)) && Low(l, w.cur) >= GAP
    requires Resumable(l, w, Step(l, w, Trap(cause, tval)), es)
    ensures var w1 := Step(l, w, Trap(cause, tval));
      var w2 := Run(l, w1, es);
      && w2.cur in w2.stacks && Low(l, w2.cur) >= GAP && w2.stacks[w2.cur] != [] && Holds(w2.h.mem, Newest(w2).at)
      && var h := Step(l, w2, Return).h;
         && h.mode == w.h.mode && h.sscratch == w.h.sscratch && SameButPrevious(Fields(w.h.sstatus), Fields(h.sstatus))
         && (w.h.mode == S || KernelLeaves(l, w1, es, Newest(w2).at) ==> h.pc == w.h.pc && h.x == w.h.x)
         && h.pc == UregAt(w2.h.mem, Newest(w2).at)[PC]
         && forall i :: 1 <= i < 32 ==> h.x[i] == UregAt(w2.h.mem, Newest(w2).at)[i]
  {
    hide *;
    GapIs();
    InvParts(l, w);
    var k, n := w.cur, |w.stacks[w.cur]| + 1;
    var w1 := Step(l, w, Trap(cause, tval));
    ResumableIs(l, w, w1, es);
    var w2 := Run(l, w1, es);
    var t := Take(w.h, cause, tval);
    TrapIs(l, w, cause, tval);
    NewFrame(l, w, cause, tval);
    RunKeepsFrame(l, w1, es, k, n);
    StepKeeps(l, w, Trap(cause, tval));
    RunKeeps(l, w1, es);
    InvParts(l, w2);
    ReturnIs(l, w2);
    ReturnGives(l, w2);
    NewestIs(w2);
    StatusBack(w.h, cause, tval);
    ScratchTells(l, w);
    assert w2.stacks[k][n - 1] == Frame(Base(t), w.h.mode, SavedWords(t));
    if KernelLeaves(l, w1, es, Base(t)) {
      StoredWords(l, w, cause, tval);
      RunKeepsWords(l, w1, es, k, n);
    }
  }

  /** es runs from w1, just after a trap in w, up to the return from that trap. */
  ghost predicate Resumable(l: Layout, w: World, w1: World, es: seq<Event>)
    requires w.cur in w.stacks
  {
    && CanRun(l, w1, es) && StaysAbove(l, w1, es, w.cur, |w.stacks[w.cur]| + 1)
    && var w2 := Run(l, w1, es);
       && w2.cur == w.cur && w.cur in w2.stacks && |w2.stacks[w.cur]| == |w.stacks[w.cur]| + 1 && CanStep(l, w2, Return)
  }

  lemma ResumableIs(l: Layout, w: World, w1: World, es: seq<Event>)
    requires w.cur in w.stacks && Resumable(l, w, w1, es)
    ensures CanRun(l, w1, es) && StaysAbove(l, w1, es, w.cur, |w.stacks[w.cur]| + 1)
    ensures var w2 := Run(l, w1, es);
      w2.cur == w.cur && w.cur in w2.stacks && |w2.stacks[w.cur]| == |w.stacks[w.cur]| + 1 && CanStep(l, w2, Return)
  {
    hide CanStep, CanRun, Run;
  }

  /** The words trapvec left in memory. */
  lemma StoredWords(l: Layout, w: World, cause: U64, tval: U64)
    requires Inv(l, w) && CanStep(l, w, Trap(cause, tval))
    ensures var t := Take(w.h, cause, tval);
      && Low(l, w.cur) >= GAP && Holds(Step(l, w, Trap(cause, tval)).h.mem, Base(t))
      && UregAt(Step(l, w, Trap(cause, tval)).h.mem, Base(t)) == SavedWords(t)
  {
    hide *;
    InvParts(l, w);
    TrapRoom(l, w, cause, tval);
    TrapHart(l, w, cause, tval);
    TrapIs(l, w, cause, tval);
    PushHarmless(l, w, w.cur, Base(Take(w.h, cause, tval)), SavedWords(Take(w.h, cause, tval)));
  }

  /**
   What a trap does, by offset and bit: the Ureg goes below the stack top of an interrupted process or below the
   interrupted kernel sp; it holds pc at 0, R1 to R31 at 8 to 248, then status, ie, cause, tval and 0; status is the
   interrupted one with SIE in SPIE, SIE clear and SPP the mode; trap is called with it, and with up and m.
   */
  ghost predicate TrapLeaves(h: Hart, g: Hart, l: Layout, cause: U64, tval: U64) {
    var base := (if h.mode == U then h.proc else h.x[2]) - 296;
    && Holds(g.mem, base)
    && g.mem[base] == h.pc && (forall i :: 1 <= i < 32 ==> g.mem[base + 8 * i] == h.x[i])
    && StatusIs(g.mem[base + 256], h.sstatus, false, h.sstatus / 2 % 2 == 1, h.mode == S)
    && g.mem[base + 264] == h.sie && g.mem[base + 272] == cause && g.mem[base + 280] == tval
    && g.mem[base + 288] == 0
    && g.mode == S && g.pc == l.trap && g.sscratch == 0 && g.x[8] == base && g.x[2] == base - 16
    && g.x[6] == h.proc && g.x[7] == l.m && g.x[3] == if h.mode == U then l.sb else h.x[3]
  }

  lemma TrapStores(l: Layout, w: World, cause: U64, tval: U64)
    requires Inv(l, w) && CanStep(l, w, Trap(cause, tval))
    ensures Low(l, w.cur) >= GAP && TrapLeaves(w.h, Step(l, w, Trap(cause, tval)).h, l, cause, tval)
  {
    hide *;
    GapIs();
    InvParts(l, w);
    var t := Take(w.h, cause, tval);
    TrapRoom(l, w, cause, tval);
    BranchMatches(l, w, cause, tval);
    FreeHolds(l, w, w.cur, Base(t));
    TakeParts(w.h, cause, tval);
    TrapIs(l, w, cause, tval);
    KernelRegs(l, w);
    EnterIsEntered(t, l);
    FieldBits(t.sstatus);
    LeavesIf(w.h, t, Enter(t, l), l, cause, tval);
  }

  lemma LeavesIf(h: Hart, t: Hart, g: Hart, l: Layout, cause: U64, tval: U64)
    requires Entered(t, g, l) && (t.sscratch != 0 <==> h.mode == U) && (t.sstatus / 256 % 2 == 1 <==> h.mode == S)
    requires t.mode == S && t.x == h.x && t.proc == h.proc && t.sepc == h.pc && t.sie == h.sie && t.scause == cause
    requires t.stval == tval && StatusIs(t.sstatus, h.sstatus, false, h.sstatus / 2 % 2 == 1, h.mode == S)
    requires h.mode == S ==> h.x[6] == h.proc && h.x[7] == l.m
    ensures TrapLeaves(h, g, l, cause, tval)
  {
    hide StatusIs;
    EnteredMeans(t, g, l);
  }

  lemma TakeParts(h: Hart, cause: U64, tval: U64)
    ensures var t := Take(h, cause, tval);
      && t.mode == S && t.x == h.x && t.proc == h.proc && t.mem == h.mem && t.sepc == h.pc && t.sie == h.sie
      && t.scause == cause && t.stval == tval && t.sscratch == h.sscratch
      && StatusIs(t.sstatus, h.sstatus, false, h.sstatus / 2 % 2 == 1, h.mode == S)
  {
    StatusMoves(h.sstatus, h.mode);
    hide Fields, StatusWord, StatusIs;
  }

  lemma EnteredMeans(h: Hart, g: Hart, l: Layout)
    requires Entered(h, g, l)
    ensures var base := (if h.sscratch != 0 then h.proc else h.x[2]) - 296;
      && Holds(g.mem, base) && g.mode == h.mode
      && g.mem[base] == h.sepc && (forall i :: 1 <= i < 32 ==> g.mem[base + 8 * i] == h.x[i])
      && g.mem[base + 256] == h.sstatus && g.mem[base + 264] == h.sie && g.mem[base + 272] == h.scause
      && g.mem[base + 280] == h.stval && g.mem[base + 288] == 0
      && g.pc == l.trap && g.sscratch == 0 && g.x[2] == base - 16 && g.x[8] == base
      && (if h.sstatus / 256 % 2 == 1 then g.x[3] == h.x[3] && g.x[6] == h.x[6] && g.x[7] == h.x[7]
          else g.x[3] == l.sb && g.x[6] == h.proc && g.x[7] == l.m)
  {
  }

  lemma StatusBack(h: Hart, cause: U64, tval: U64)
    ensures SameButPrevious(Fields(h.sstatus), Returned(Fields(Take(h, cause, tval).sstatus)))
  {
    WordOf(h.sstatus);
    StatusWordFields(Trapped(Fields(h.sstatus), h.mode));
    hide Fields, StatusWord;
  }

  /** Outside trapvec and forkret sscratch is m in user mode and 0 in the kernel. */
  lemma ScratchTells(l: Layout, w: World)
    requires Inv(l, w)
    ensures w.h.sscratch == if w.h.mode == U then l.m else 0
  {
    hide LayoutOk, StackOk, FrameOk;
  }

  /** Uregs never overlap, on one stack or on two. */
  lemma FramesNeverOverlap(l: Layout, w: World, j: Stack, i: nat, k: Stack, n: nat)
    requires Inv(l, w) && j in w.stacks && i < |w.stacks[j]| && k in w.stacks && n < |w.stacks[k]|
    requires j != k || i != n
    ensures w.stacks[j][i].at + UREGSIZE <= w.stacks[k][n].at || w.stacks[k][n].at + UREGSIZE <= w.stacks[j][i].at
  {
    hide *;
    GapIs();
    if j == k {
      InvParts(l, w);
      if i < n { Descends(l, j, w.stacks[j], i, n); } else { Descends(l, j, w.stacks[j], n, i); }
    } else {
      InStack(l, w, j, i);
      InStack(l, w, k, n);
      StacksApart(l, w, j, k);
    }
  }

  lemma Descends(l: Layout, k: Stack, fs: seq<Frame>, i: nat, j: nat)
    requires StackOk(l, k, fs) && i < j < |fs|
    ensures fs[j].at + UREGSIZE <= fs[i].at
  {
    hide KernelSaved, Low, Top;
  }

  /** highstart: in the kernel on the boot stack, sscratch cleared, no process and no Ureg yet. */
  lemma BootWorld(l: Layout, w: World)
    requires l.m != 0 && Low(l, Boot) >= GAP && Backs(l, w.h.mem, Boot)
    requires w.cur == Boot && w.stacks == map[Boot := []]
    requires w.h.mode == S && w.h.sscratch == 0 && w.h.proc == 0 && w.h.x[6] == 0 && w.h.x[7] == l.m
    requires w.h.x[SP] == l.boot - GAP
    ensures Inv(l, w)
  {
    hide Backs;
  }
}
