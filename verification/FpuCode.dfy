/** fpu.c and the two FP routines of l.s, storing into the registers and the save areas. */
module FpuCode {
  import opened NoteFrames
  import opened FpSwitch
  import opened FpNotes

  const FPINIT: bv32 := 0
  const FPACTIVE: bv32 := 1
  const FPINACTIVE: bv32 := 2
  const FPNOTIFY: bv32 := 0x100

  /** fpstate & ~FPnotify */
  function Masked(w: bv32): bv32 { w & !FPNOTIFY }

  predicate Noting(w: bv32) { w & FPNOTIFY != 0 }

  /** kind | (fpstate & FPnotify) */
  function With(kind: bv32, w: bv32): bv32 { kind | (w & FPNOTIFY) }

  /** fpstate | FPnotify */
  function Marked(w: bv32): bv32 { w | FPNOTIFY }

  /** Bit 8 is FPnotify, the rest the state. */
  lemma StateBits(w: bv32, kind: bv32)
    ensures Masked(w) == w & 0xFFFF_FEFF && (Noting(w) <==> w & 0x100 != 0)
    ensures With(kind, w) == kind | (w & 0x100) && Marked(w) == w | 0x100
  {
    hide *;
    MaskedBits(w);
    WithBits(w, kind);
    NotingBits(w);
    MarkedBits(w);
  }

  lemma NotingBits(w: bv32)
    ensures Noting(w) <==> w & 0x100 != 0
  {
  }

  lemma MarkedBits(w: bv32)
    ensures Marked(w) == w | 0x100
  {
  }

  lemma MaskedBits(w: bv32)
    ensures Masked(w) == w & 0xFFFF_FEFF
  {
  }

  lemma WithBits(w: bv32, kind: bv32)
    ensures With(kind, w) == kind | (w & 0x100)
  {
  }

  lemma WithActive(w: bv32)
    ensures Masked(With(1, w)) == 1 && Noting(With(1, w)) == Noting(w)
  {
  }

  lemma WithInactive(w: bv32)
    ensures Masked(With(2, w)) == 2 && Noting(With(2, w)) == Noting(w)
  {
  }

  lemma ActiveIs(w: bv32)
    requires Masked(w) == 1
    ensures w == With(1, w)
  {
  }

  lemma StateNumbers()
    ensures Masked(0) == 0 && !Noting(0) && Masked(2) == 2 && !Noting(2) && Masked(1) == 1 && !Noting(1)
    ensures FPINIT == 0 && FPACTIVE == 1 && FPINACTIVE == 2
  {
  }

  /** Setting and clearing FPnotify. */
  lemma Marking(w: bv32)
    ensures Masked(Marked(w)) == Masked(w) && Noting(Marked(w))
  {
    MarkMasks(w);
    MarkNotes(w);
    hide *;
  }

  lemma MarkMasks(w: bv32)
    ensures Masked(Marked(w)) == Masked(w)
  {
  }

  lemma MarkNotes(w: bv32)
    ensures Noting(Marked(w))
  {
  }

  lemma Unmarking(w: bv32)
    ensures Masked(Masked(w)) == Masked(w) && !Noting(Masked(w))
  {
  }

  lemma OnlyActive(w: bv32)
    ensures w == 1 <==> Masked(w) == 1 && !Noting(w)
  {
  }

  /** sstatus.FS */
  datatype Fs = Off | Initial | Clean | Dirty

  class FPsave {
    const regs: array<U64>
    var fcsr: U64

    constructor ()
      ensures regs.Length == 32 && fresh(regs)
    {
      regs := new U64[32](_ => 0);
      fcsr := 0;
    }

    function Context(): Context
      reads this, regs
    {
      FpSwitch.Context(regs[..], fcsr)
    }
  }

  class Proc {
    var fpstate: bv32
    const fpsave: FPsave
    var moribund: bool

    constructor ()
      ensures fresh(fpsave) && fresh(fpsave.regs) && fpsave.regs.Length == 32
    {
      fpsave := new FPsave();
      fpstate, moribund := FPINIT, false;
    }

    /** The states fpu.c stores, with or without FPnotify. */
    predicate Known()
      reads this
    {
      Masked(fpstate) == FPINIT || Masked(fpstate) == FPACTIVE || Masked(fpstate) == FPINACTIVE
    }

    function View(): Pfpu
      reads this, fpsave, fpsave.regs
    {
      var kind := Masked(fpstate);
      Pfpu(if kind == FPACTIVE then FPactive else if kind == FPINACTIVE then FPinactive else FPinit, Noting(fpstate),
           fpsave.Context(), moribund)
    }
  }

  class Fpu {
    const f: array<U64>
    var fcsr: U64
    var fs: Fs
    const initfp: FPsave

    constructor ()
      ensures fresh(f) && fresh(initfp) && fresh(initfp.regs) && f.Length == 32 && initfp.regs.Length == 32
      ensures f != initfp.regs && initfp.Context() == InitFp()
    {
      f := new U64[32](_ => 0);
      initfp := new FPsave();
      fcsr, fs := 0, Off;
      new;
      Fpuinit();
    }

    function Live(): Context
      reads this, f
    {
      FpSwitch.Context(f[..], fcsr)
    }

    /** The registers, initfp and p's save area are three buffers; initfp holds the constants. */
    ghost predicate Valid(p: Proc)
      reads this, initfp, initfp.regs, p, p.fpsave
    {
      && f.Length == 32 && initfp.regs.Length == 32 && p.fpsave.regs.Length == 32
      && f != initfp.regs && f != p.fpsave.regs && initfp.regs != p.fpsave.regs && initfp != p.fpsave
      && initfp.Context() == InitFp() && p.Known()
    }

    /** fpuinit */
    method Fpuinit()
      requires initfp.regs.Length == 32
      modifies initfp, initfp.regs
      ensures initfp.Context() == InitFp()
    {
      forall i | 0 <= i < 32 {
        initfp.regs[i] := 0;
      }
      initfp.regs[28] := 0;
      initfp.regs[29] := 0x3FE0_0000_0000_0000;
      initfp.regs[30] := 0x3FF0_0000_0000_0000;
      initfp.regs[31] := 0x4000_0000_0000_0000;
      initfp.fcsr := 0;
      assert initfp.regs[..] == InitFp().f;
    }

    /** fpsetfs */
    method Fpsetfs(to: Fs)
      modifies this`fs
      ensures fs == to
    {
      fs := to;
    }

    /** fpsave: the stores trap unless FS is on. */
    method Fpsave(save: FPsave)
      requires fs != Off && f.Length == 32 && save.regs.Length == 32 && save.regs != f
      modifies save, save.regs
      ensures save.Context() == Live()
    {
      forall i | 0 <= i < 32 {
        save.regs[i] := f[i];
      }
      save.fcsr := fcsr;
      assert save.regs[..] == f[..];
    }

    /** fprestore */
    method Fprestore(save: FPsave)
      requires fs != Off && f.Length == 32 && save.regs.Length == 32 && save.regs != f
      modifies this`fcsr, f
      ensures Live() == save.Context()
    {
      fcsr := save.fcsr;
      forall i | 0 <= i < 32 {
        f[i] := save.regs[i];
      }
      assert f[..] == save.regs[..];
    }

    method Procsave(p: Proc)
      requires Valid(p)
      modifies this`fs, p`fpstate, p.fpsave, p.fpsave.regs
      ensures Valid(p) && Live() == old(Live())
      ensures p.View() == Saved(old(p.View()), old(Live()))
      ensures var was := old(p.fpstate);
        if Masked(was) == 1 && !p.moribund then
          fs == Clean && p.fpstate == With(2, was) && p.fpsave.Context() == Live()
        else
          p.fpstate == (if Masked(was) == 1 then 0 else was) && p.fpsave.Context() == old(p.fpsave.Context())
    {
      hide InitFp, Masked, Noting, With;
      StateNumbers();
      WithInactive(p.fpstate);
      if Masked(p.fpstate) != FPACTIVE {
        return;
      }
      if p.moribund {
        p.fpstate := FPINIT;
        return;
      }
      Fpsetfs(Clean);
      Fpsave(p.fpsave);
      p.fpstate := With(FPINACTIVE, p.fpstate);
    }

    method Procrestore(p: Proc)
      requires Valid(p)
      modifies this`fs, this`fcsr, f, p`fpstate
      ensures Valid(p)
      ensures Live() == Loaded(old(p.View()), old(Live())) && p.View() == Restored(old(p.View()))
      ensures var was := old(p.fpstate);
        && p.fpstate == With(1, was)
        && (Masked(was) == 0 ==> fs == Clean && Live() == InitFp())
        && (Masked(was) == 2 ==> fs == Clean && Live() == p.fpsave.Context())
        && (Masked(was) == 1 ==> fs == old(fs) && Live() == old(Live()))
    {
      hide InitFp, Masked, Noting, With;
      StateNumbers();
      WithActive(p.fpstate);
      if Masked(p.fpstate) == FPINIT {
        Fpsetfs(Clean);
        Fprestore(initfp);
      } else if Masked(p.fpstate) == FPINACTIVE {
        Fpsetfs(Clean);
        Fprestore(p.fpsave);
      } else {
        ActiveIs(p.fpstate);
        return;
      }
      p.fpstate := With(FPACTIVE, p.fpstate);
    }

    /** procsetup not preempted: a child is marked; the running process also gets initfp at once. */
    method Procsetup(p: Proc, up: Proc)
      requires Valid(p)
      modifies this`fs, this`fcsr, f, p`fpstate
      ensures Valid(p)
      ensures p != up ==> Live() == old(Live()) && p.View() == old(p.View()).(kind := FPinit, notify := false)
      ensures p == up ==> Live() == InitFp() && p.View() == old(p.View()).(kind := FPactive, notify := false)
      ensures p.fpstate == if p == up then 1 else 0
    {
      hide InitFp, Masked, Noting;
      StateNumbers();
      p.fpstate := FPINIT;
      if p == up {
        Procrestore(p);
      }
    }

    method Fpunotify(p: Proc)
      requires Valid(p)
      modifies this`fs, p`fpstate, p.fpsave, p.fpsave.regs
      ensures Valid(p) && Live() == old(Live())
      ensures p.View() == Unotified(old(p.View()), old(Live()))
      ensures if old(p.fpstate) == 1 then fs == Clean && p.fpstate == Marked(2) && p.fpsave.Context() == Live()
              else p.fpstate == Marked(old(p.fpstate)) && p.fpsave.Context() == old(p.fpsave.Context())
    {
      hide InitFp, Masked, Noting, Marked;
      StateNumbers();
      OnlyActive(p.fpstate);
      if p.fpstate == FPACTIVE {
        Fpsetfs(Clean);
        Fpsave(p.fpsave);
        p.fpstate := FPINACTIVE;
      }
      Marking(p.fpstate);
      p.fpstate := Marked(p.fpstate);
    }

    method Fpunoted(p: Proc)
      requires Valid(p)
      modifies p`fpstate
      ensures Valid(p) && Live() == old(Live())
      ensures p.View() == Unoted(old(p.View())) && p.fpstate == Masked(old(p.fpstate))
    {
      hide InitFp, Noting;
      hide Masked;
      Unmarking(p.fpstate);
      p.fpstate := Masked(p.fpstate);
    }
  }
}
