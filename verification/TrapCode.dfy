/** trapvec and forkret instruction by instruction. */
module TrapCode {
  import opened NoteFrames
  import opened TrapFrames

  /** The slots of registers 3 to n - 1 written, every other word as it was. */
  function Slots(mem: Ram, base: int, x: Regfile, n: nat): Ram
    requires n <= 32
  {
    map k | k in mem :: if base + 24 <= k < base + 8 * n && (k - base) % 8 == 0 then x[(k - base) / 8] else mem[k]
  }

  lemma NextSlot(mem: Ram, base: int, x: Regfile, n: nat)
    requires 3 <= n < 32 && Holds(mem, base)
    ensures Slots(mem, base, x, n)[base + 8 * n := x[n]] == Slots(mem, base, x, n + 1)
    ensures Slots(mem, base, x, n).Keys == mem.Keys
  {
  }

  lemma NoSlot(mem: Ram, base: int, x: Regfile)
    ensures Slots(mem, base, x, 3) == mem
  {
  }

  class Cpu {
    var mode: Mode
    var pc: U64
    var x: Regfile
    var sepc: U64
    var sstatus: U64
    var sscratch: U64
    var sie: U64
    var scause: U64
    var stval: U64
    var proc: U64      // m->proc
    var mem: Ram
    const l: Layout

    function State(): Hart
      reads this
    {
      Hart(mode, pc, x, sepc, sstatus, sscratch, sie, scause, stval, proc, mem)
    }

    /** The address off(R2). */
    function At(off: nat): int
      reads this
    {
      x[SP] + off
    }

    /** MOV Rn, 8n(R2) */
    method Sd(n: nat, ghost was: Ram)
      requires 3 <= n < 32 && Holds(was, x[SP]) && mem == Slots(was, x[SP], x, n)
      modifies this`mem
      ensures mem == Slots(was, x[SP], x, n + 1)
    {
      NextSlot(was, x[SP], x, n);
      mem := mem[At(8 * n) := x[n]];
    }

    /** R3 to R31, each to its own slot. */
    method SaveRegisters()
      requires Holds(mem, x[SP])
      modifies this`mem
      ensures mem == Slots(old(mem), x[SP], x, 32)
    {
      hide Slots, Holds;
      ghost var was := mem;
      NoSlot(was, x[SP], x);
      Sd(3, was); Sd(4, was); Sd(5, was); Sd(6, was); Sd(7, was); Sd(8, was);
      Sd(9, was); Sd(10, was); Sd(11, was); Sd(12, was); Sd(13, was); Sd(14, was);
      Sd(15, was); Sd(16, was); Sd(17, was); Sd(18, was); Sd(19, was); Sd(20, was);
      Sd(21, was); Sd(22, was); Sd(23, was); Sd(24, was); Sd(25, was); Sd(26, was);
      Sd(27, was); Sd(28, was); Sd(29, was); Sd(30, was); Sd(31, was);
    }

    /** R1 and R3 to Rn-1 are back from the Ureg at base, and R2 still points to it. */
    predicate Loaded(base: int, n: nat)
      requires Holds(mem, base) && n <= 32
      reads this
    {
      x[SP] == base && x[1] == UregAt(mem, base)[1] && forall i :: 3 <= i < n ==> x[i] == UregAt(mem, base)[i]
    }

    /** MOV 8n(R2), Rn */
    method Ld(n: nat, ghost base: int)
      requires 3 <= n < 32 && Holds(mem, base) && Loaded(base, n)
      modifies this`x
      ensures Loaded(base, n + 1)
    {
      x := x[n := mem[At(8 * n)]];
    }

    /** R1 and R3 to R31 back, then R2. */
    method LoadRegisters()
      requires Holds(mem, x[SP])
      modifies this`x
      ensures x == [0] + UregAt(mem, old(x[SP]))[1..32]
    {
      ghost var base: int := x[SP];
      LoadFirst();
      hide Loaded, Holds, UregAt;
      Ld(3, base); Ld(4, base); Ld(5, base); Ld(6, base); Ld(7, base); Ld(8, base);
      Ld(9, base); Ld(10, base); Ld(11, base); Ld(12, base); Ld(13, base); Ld(14, base);
      Ld(15, base); Ld(16, base); Ld(17, base); Ld(18, base); Ld(19, base); Ld(20, base);
      Ld(21, base); Ld(22, base); Ld(23, base); Ld(24, base); Ld(25, base); Ld(26, base);
      Ld(27, base); Ld(28, base); Ld(29, base); Ld(30, base); Ld(31, base);
      LoadLast(base);
    }

    method LoadFirst()
      requires Holds(mem, x[SP])
      modifies this`x
      ensures Loaded(old(x[SP]), 3)
    {
      x := x[1 := mem[At(8)]];
    }

    method LoadLast(ghost base: int)
      requires Holds(mem, base) && Loaded(base, 32)
      modifies this`x
      ensures x == [0] + UregAt(mem, base)[1..32]
    {
      x := x[SP := mem[At(16)]];
    }

    /**
     The restore sequence and SRET, from forkret with R2 at the Ureg.  trail is the hart as it is on entry, around each
     CSR write and before SRET; the loads between those points write registers only.
     */
    method Forkret() returns (ghost trail: seq<Hart>)
      requires mode == S && Holds(mem, x[SP])
      modifies this
      ensures State() == Leave(old(State()), l, old(x[SP])) && Left(old(State()), State(), l, old(x[2]))
      ensures |trail| == 5 && trail[0] == old(State()) && trail[4].sstatus == old(UregAt(mem, x[SP]))[STATUS]
      ensures ReturnsQuietly(old(State()), old(x[SP])) ==> forall h :: h in trail ==> !Interruptible(h)
    {
      hide Fields, StatusWord, UregAt, Left;
      ghost var h, base := State(), x[SP];
      LeaveIs(h, l, base);
      LeaveIsLeft(h, l, base);
      trail := [h];
      LoadPc();
      trail := trail + [State()];
      x := x[1 := mem[At(256)]];
      sstatus := x[1];
      trail := trail + [State()];
      if !Fields(x[1]).spp {
        x := x[1 := l.m];
        sscratch := x[1];
      }
      trail := trail + [State()];
      LoadRegisters();
      trail := trail + [State()];
      Sret();
    }

    /**
     forkretfp, from gotolabel with R2 at the child's Ureg: procrestore(up) in a frame below it, then forkret.  after is
     the hart as procrestore, which keeps its caller's sp and frames, comes back; call is the hart as it is called.
     */
    method Forkretfp(after: Hart) returns (call: Hart)
      requires mode == S && x[SP] >= 16 && Holds(mem, x[SP])
      requires after.mode == S && after.x[SP] == x[SP] - 16
      requires Holds(after.mem, x[SP]) && UregAt(after.mem, x[SP]) == UregAt(mem, x[SP])
      modifies this
      ensures call.x[8] == old(x[6]) && call.x[SP] == old(x[SP]) - 16 && call.mem == old(mem)
      ensures State() == Leave(after, l, old(x[SP]))
      ensures pc == old(UregAt(mem, x[SP]))[PC] && x == [0] + old(UregAt(mem, x[SP]))[1..32]
    {
      hide *;
      StateParts();
      ghost var base: int := x[SP];
      x := x[SP := x[SP] - 16];
      x := x[8 := x[6]];
      call := State();
      StateParts();
      Become(after);
      StateParts();
      x := x[SP := x[SP] + 16];
      x := x[9 := l.forkret];
      pc := x[9];
      StateParts();
      LeaveSame(after, l, base, x, pc);
      ghost var _ := Forkret();
      StateParts();
    }

    method Become(h: Hart)
      modifies this
      ensures State() == h
    {
      mode, pc, x, sepc, sstatus, sscratch := h.mode, h.pc, h.x, h.sepc, h.sstatus, h.sscratch;
      sie, scause, stval, proc, mem := h.sie, h.scause, h.stval, h.proc, h.mem;
    }

    method LoadPc()
      requires Holds(mem, x[SP])
      modifies this`x, this`sepc
      ensures x == old(x)[1 := sepc] && sepc == UregAt(mem, old(x[SP]))[PC]
    {
      x := x[1 := mem[At(0)]];
      sepc := x[1];
    }

    /** The hardware's part of the return. */
    method Sret()
      modifies this`mode, this`pc, this`sstatus
      ensures Wellformed(Fields(old(sstatus)))
      ensures pc == sepc && mode == (if Fields(old(sstatus)).spp then S else U)
      ensures sstatus == StatusWord(Returned(Fields(old(sstatus))))
    {
      WordOf(sstatus);
      pc := sepc;
      mode := if Fields(sstatus).spp then S else U;
      sstatus := StatusWord(Returned(Fields(sstatus)));
    }

    /** touser(sp): SPP clear, FS clean and SPIE set, m in sscratch, and SRET to user code at UENTRY. */
    method Touser()
      requires mode == S
      modifies this
      ensures mode == U && pc == 4128 && x[2] == old(x[8]) && sscratch == l.m
      ensures Clean(sstatus, old(sstatus)) && sstatus / 2 % 2 == 1
      ensures mem == old(mem) && proc == old(proc) && sie == old(sie)
      ensures forall i :: 3 <= i < 32 && i != 9 && i != 10 ==> x[i] == old(x[i])
    {
      hide *;
      StateParts();
      UserBits(sstatus);
      ToUserStatus();
      ghost var v := sstatus;
      StatusMoves(v, U);
      CleanUser(v, old(sstatus));
      ToUserEntry();
      Sret();
      CleanStill(v, sstatus, old(sstatus));
    }

    method ToUserEntry()
      modifies this`x, this`sscratch, this`sepc
      ensures sscratch == l.m && sepc == 4128 && x[2] == old(x[8])
      ensures forall i :: 3 <= i < 32 && i != 9 ==> x[i] == old(x[i])
    {
      x := x[9 := l.m];
      sscratch := x[9];
      x := x[9 := 4128];
      sepc := x[9];
      x := x[SP := x[8]];
    }

    method ToUserStatus()
      modifies this`x, this`sstatus
      ensures sstatus == SetSpie(UserStatus(old(sstatus)))
      ensures forall i :: 2 <= i < 32 && i != 9 && i != 10 ==> x[i] == old(x[i])
    {
      hide UserStatus, SetSpie;
      var r: U64 := UserStatus(sstatus);
      x := x[9 := r];
      x := x[10 := 0x4000];
      sstatus := x[9];
      x := x[9 := 0x20];
      sstatus := SetSpie(sstatus);
    }

    /** trapvec to the call of trap(), from the state the hardware leaves. */
    method Trapvec()
      requires mode == S && Base(State()) >= 16 && Holds(mem, Base(State()))
      modifies this
      ensures State() == Enter(old(State()), l) && Entered(old(State()), State(), l)
    {
      hide *;
      ghost var h := State();
      StateParts();
      EnterIsEntered(h, l);
      FindFrame();
      ghost var base: int := x[SP];
      SameKeys(h.mem, base, h.x[1], h.x[SP], x);
      ghost var r := x;
      SaveRegisters();
      SaveCsrs();
      AllSlots(h, base, r);
      EnterIs(h, l);
      CallTrap();
      StateParts();
    }

    /** From a user trap the kernel's own R3, R6 and R7; then the call trap(ureg). */
    method CallTrap()
      requires x[SP] >= 16
      modifies this`x, this`pc
      ensures pc == l.trap
      ensures x == (if Fields(sstatus).spp then old(x)[1 := sstatus]
                    else old(x)[1 := sstatus][3 := l.sb][7 := l.m][6 := proc])
                   [8 := old(x[SP])][SP := old(x[SP]) - 16][1 := l.link]
    {
      hide Fields;
      ToR1(sstatus);
      if !Fields(x[1]).spp {
        x := x[3 := l.sb];
        x := x[7 := l.m];
        var up: U64 := proc;
        x := x[6 := up];
      }
      x := x[8 := x[SP]];
      x := x[SP := x[SP] - 16];
      x := x[1 := l.link];
      pc := l.trap;
    }

    lemma StateParts()
      ensures State() == Hart(mode, pc, x, sepc, sstatus, sscratch, sie, scause, stval, proc, mem)
      ensures SP == 2 && UREGSIZE == 296
    {
    }

    /** The test of sscratch: R2 ends at the Ureg's base, with R1 and the pre-trap sp already stored. */
    method FindFrame()
      requires Base(State()) >= 16 && Holds(mem, Base(State()))
      modifies this`x, this`mem, this`sscratch
      ensures x == old(x)[SP := Base(old(State()))][1 := old(x[SP])] && sscratch == 0
      ensures mem == Begun(old(mem), Base(old(State())), old(x[1]), old(x[SP]))
    {
      hide Holds, Begun;
      Swap();
      if x[SP] != 0 {
        FromUser();
      } else {
        Swap();
        FromKernel();
      }
    }

    /** CSRRW CSR(sscratch), R2, R2 */
    method Swap()
      modifies this`x, this`sscratch
      ensures x == old(x)[SP := old(sscratch)] && sscratch == old(x[SP])
    {
      var r := sscratch;
      sscratch := x[SP];
      x := x[SP := r];
    }

    /** MOVW CSR(v), R1 */
    method ToR1(v: U64)
      modifies this`x
      ensures x == old(x)[1 := v]
    {
      x := x[1 := v];
    }

    /** From user mode: the Ureg goes to the top of the process's kernel stack, R2 comes back from sscratch. */
    method FromUser()
      requires proc >= UREGSIZE && Holds(mem, proc - UREGSIZE)
      modifies this`x, this`mem, this`sscratch
      ensures x == old(x)[SP := proc - UREGSIZE][1 := old(sscratch)] && sscratch == 0
      ensures mem == Begun(old(mem), proc - UREGSIZE, old(x[1]), old(sscratch))
    {
      x := x[SP := proc];
      x := x[SP := x[SP] - UREGSIZE];
      mem := mem[At(8) := x[1]];
      ToR1(sscratch);
      mem := mem[At(16) := x[1]];
      sscratch := 0;
    }

    /** From the kernel: the Ureg goes just below the interrupted sp. */
    method FromKernel()
      requires x[SP] >= UREGSIZE && Holds(mem, x[SP] - UREGSIZE)
      modifies this`x, this`mem
      ensures x == old(x)[SP := old(x[SP]) - UREGSIZE][1 := old(x[SP])]
      ensures mem == Begun(old(mem), old(x[SP]) - UREGSIZE, old(x[1]), old(x[SP]))
    {
      x := x[SP := x[SP] - UREGSIZE];
      mem := mem[At(8) := x[1]];
      x := x[1 := x[SP]];
      x := x[1 := x[1] + UREGSIZE];
      mem := mem[At(16) := x[1]];
    }

    /** pc, status, ie, cause, tval and curmode, through R1. */
    method SaveCsrs()
      requires Holds(mem, x[SP])
      modifies this`x, this`mem
      ensures x == old(x)[1 := 0]
      ensures mem == Finished(old(mem), x[SP], sepc, sstatus, sie, scause, stval)
    {
      hide Holds;
      StoreCsr(sepc, 0);
      StoreCsr(sstatus, 256);
      StoreCsr(sie, 264);
      StoreCsr(scause, 272);
      StoreCsr(stval, 280);
      StoreCsr(0, 288);
    }

    /** A CSR, or zero, to R1 and from there to off(R2). */
    method StoreCsr(v: U64, off: nat)
      modifies this`x, this`mem
      ensures x == old(x)[1 := v] && mem == old(mem)[x[SP] + off := v]
    {
      ToR1(v);
      mem := mem[At(off) := x[1]];
    }
  }

  /** The bits of sstatus from 9 up with FS, bits 14:13, made Clean. */
  function CleanFs(high: nat): nat { high % 16 + 32 + high / 64 * 64 }

  lemma CleanBits(high: nat)
    requires high < 0x80_0000_0000_0000
    ensures var c := CleanFs(high);
      c < 0x80_0000_0000_0000 && c % 16 == high % 16 && c / 16 % 4 == 2 && c / 64 == high / 64
  {
    Placed(high % 16, high / 64);
  }

  lemma Placed(r: nat, q: nat)
    requires r < 16
    ensures var c := r + 32 + q * 64; c % 16 == r && c / 16 == 2 + 4 * q && c / 16 % 4 == 2 && c / 64 == q
  {
    assert r + 32 + q * 64 == 16 * (2 + 4 * q) + r;
  }

  /** sstatus as touser makes it: SPP clear, FS Clean; then SPIE set. */
  function UserStatus(w: U64): U64 {
    WordOf(w);
    CleanBits(Fields(w).high);
    StatusWord(Fields(w).(spp := false, high := CleanFs(Fields(w).high)))
  }

  function SetSpie(w: U64): U64 {
    WordOf(w);
    StatusWord(Fields(w).(spie := true))
  }

  lemma Nested(w: U64)
    ensures w / 512 % 16 == (w / 512) % 16 && w / 0x2000 == (w / 512) / 16 && w / 0x8000 == (w / 512) / 64
  {
    Halved(w, 512, 16, 0x2000);
    Halved(w, 512, 64, 0x8000);
  }

  /** By position: bit 5 set, bit 8 clear, bits 14:13 Clean, all the rest as it was. */
  predicate Clean(v: U64, w: U64) {
    && v % 2 == w % 2 && v / 4 % 8 == w / 4 % 8 && v / 32 % 2 == 1 && v / 64 % 4 == w / 64 % 4 && v / 256 % 2 == 0
    && v / 512 % 16 == w / 512 % 16 && v / 0x2000 % 4 == 2 && v / 0x8000 == w / 0x8000
  }

  lemma CleanUser(v: U64, w: U64)
    requires Clean(v, w)
    ensures !Fields(v).spp
  {
    FieldBits(v);
    hide Fields;
  }

  /** SRET moves SPIE to SIE, sets it and clears SPP. */
  lemma CleanStill(v: U64, g: U64, w: U64)
    requires Clean(v, w) && StatusIs(g, v, v / 32 % 2 == 1, true, false)
    ensures Clean(g, w) && g / 2 % 2 == 1
  {
    Nested(v);
    Nested(g);
  }

  lemma UserBits(w: U64)
    ensures Clean(SetSpie(UserStatus(w)), w)
  {
    var u, v := UserStatus(w), SetSpie(UserStatus(w));
    WordOf(w);
    CleanBits(Fields(w).high);
    StatusWordFields(Fields(w).(spp := false, high := CleanFs(Fields(w).high)));
    WordOf(u);
    StatusWordFields(Fields(u).(spie := true));
    hide Fields, StatusWord, CleanFs, Word;
    FieldBits(w);
    FieldBits(v);
    Nested(w);
    Nested(v);
  }

  /** R1's and R2's slots. */
  function Begun(mem: Ram, base: int, r1: U64, sp: U64): Ram { mem[base + 8 := r1][base + 16 := sp] }

  /** The slots that come from CSRs. */
  function Finished(mem: Ram, base: int, sepc: U64, sstatus: U64, sie: U64, scause: U64, stval: U64): Ram {
    var m := mem[base := sepc][base + 256 := sstatus][base + 264 := sie];
    m[base + 272 := scause][base + 280 := stval][base + 288 := 0]
  }

  lemma SameKeys(mem: Ram, base: int, r1: U64, sp: U64, x: Regfile)
    requires Holds(mem, base)
    ensures Begun(mem, base, r1, sp).Keys == mem.Keys && Holds(Begun(mem, base, r1, sp), base)
    ensures Slots(Begun(mem, base, r1, sp), base, x, 32).Keys == mem.Keys
        && Holds(Slots(Begun(mem, base, r1, sp), base, x, 32), base)
  {
  }

  /** The slots one by one are the whole Ureg. */
  lemma AllSlots(h: Hart, base: int, x: Regfile)
    requires Holds(h.mem, base) && forall i :: 3 <= i < 32 ==> x[i] == h.x[i]
    ensures var m1 := Slots(Begun(h.mem, base, h.x[1], h.x[SP]), base, x, 32);
      Finished(m1, base, h.sepc, h.sstatus, h.sie, h.scause, h.stval) == StoreUreg(h.mem, base, SavedWords(h))
  {
    hide Slots, Begun, Finished, StoreUreg, SavedWords, Holds;
    var m1 := Slots(Begun(h.mem, base, h.x[1], h.x[SP]), base, x, 32);
    var m2 := Finished(m1, base, h.sepc, h.sstatus, h.sie, h.scause, h.stval);
    var m3 := StoreUreg(h.mem, base, SavedWords(h));
    FinishedKeys(h, base, x);
    var ws := SavedWords(h);
    forall k | k in h.mem ensures m2[k] == m3[k] {
      if base <= k < base + UREGSIZE && (k - base) % 8 == 0 {
        assert 0 <= (k - base) / 8 < 37 && k == base + 8 * ((k - base) / 8);
        OneSlot(h, base, x, (k - base) / 8);
      } else {
        NotSlot(h, base, x, k);
      }
      StoredWord(h.mem, base, ws, k);
    }
  }

  lemma FinishedKeys(h: Hart, base: int, x: Regfile)
    requires Holds(h.mem, base)
    ensures var m1 := Slots(Begun(h.mem, base, h.x[1], h.x[SP]), base, x, 32);
      Finished(m1, base, h.sepc, h.sstatus, h.sie, h.scause, h.stval).Keys == h.mem.Keys
    ensures StoreUreg(h.mem, base, SavedWords(h)).Keys == h.mem.Keys && UREGSIZE == 296
  {
    SameKeys(h.mem, base, h.x[1], h.x[SP], x);
    hide Begun, Slots, SavedWords;
  }

  lemma StoredWord(mem: Ram, base: int, ws: seq<U64>, k: int)
    requires |ws| == 37 && k in mem
    ensures k in StoreUreg(mem, base, ws)
    ensures StoreUreg(mem, base, ws)[k] == if base <= k < base + UREGSIZE
        && (k - base) % 8 == 0 then ws[(k - base) / 8] else mem[k]
  {
  }

  lemma NotSlot(h: Hart, base: int, x: Regfile, k: int)
    requires Holds(h.mem, base) && k in h.mem && !(base <= k < base + UREGSIZE && (k - base) % 8 == 0)
    ensures var m1 := Slots(Begun(h.mem, base, h.x[1], h.x[SP]), base, x, 32);
      var m2 := Finished(m1, base, h.sepc, h.sstatus, h.sie, h.scause, h.stval);
      k in m2 && m2[k] == h.mem[k]
  {
  }

  lemma OneSlot(h: Hart, base: int, x: Regfile, i: nat)
    requires Holds(h.mem, base) && i < 37 && forall i :: 3 <= i < 32 ==> x[i] == h.x[i]
    ensures var m1 := Slots(Begun(h.mem, base, h.x[1], h.x[SP]), base, x, 32);
      var m2 := Finished(m1, base, h.sepc, h.sstatus, h.sie, h.scause, h.stval);
      |SavedWords(h)| == 37 && base + 8 * i in m2 && m2[base + 8 * i] == SavedWords(h)[i]
  {
    if 3 <= i < 32 { assert SavedWords(h)[i] == h.x[i]; }
  }

  lemma EnterIs(h: Hart, l: Layout)
    requires Base(h) >= 16
    ensures var base := Base(h);
      var x := if Fields(h.sstatus).spp then h.x else h.x[3 := l.sb][7 := l.m][6 := h.proc];
      Enter(h, l) == h.(mem := StoreUreg(h.mem, base, SavedWords(h)), sscratch := 0, pc := l.trap,
        x := x[8 := base][2 := base - 16][1 := l.link])
  {
    hide Base, Fields, StoreUreg, SavedWords;
  }

  /** The return reads neither the registers nor pc. */
  lemma LeaveSame(h: Hart, l: Layout, base: int, x: Regfile, pc: U64)
    requires Holds(h.mem, base)
    ensures Leave(h, l, base) == Leave(h.(x := x, pc := pc), l, base)
    ensures Leave(h, l, base).pc == UregAt(h.mem, base)[PC] && Leave(h, l, base).x == [0] + UregAt(h.mem, base)[1..32]
  {
    hide Fields, StatusWord, UregAt, Holds;
  }

  lemma LeaveIs(h: Hart, l: Layout, base: int)
    requires Holds(h.mem, base)
    ensures var ws := UregAt(h.mem, base);
      && Wellformed(Fields(ws[STATUS]))
      && Leave(h, l, base) == h.(pc := ws[0], sepc := ws[0], sstatus := StatusWord(Returned(Fields(ws[STATUS]))),
           mode := if Fields(ws[STATUS]).spp then S else U,
           sscratch := if Fields(ws[STATUS]).spp then h.sscratch else l.m, x := [0] + ws[1..32])
      && ws[STATUS] == h.mem[base + 256]
  {
    WordOf(UregAt(h.mem, base)[STATUS]);
    hide Fields, StatusWord;
  }
}
