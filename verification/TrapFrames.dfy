/** l.s's trapvec and forkret as functions of the hart: what a trap saves, and what the return restores. */
module TrapFrames {
  import opened NoteFrames

  datatype Mode = U | S

  type Regfile = x: seq<U64> | |x| == 32 && x[0] == 0 witness seq(32, _ => 0)

  type Ram = map<int, U64>

  /**
   Where the linker put mach0, the static base, trap(), the return point of its call, forkret, and the boot stack's
   top.
   */
  datatype Layout = Layout(m: U64, sb: U64, trap: U64, link: U64, forkret: U64, boot: U64)

  /** One hart; proc is m->proc. */
  datatype Hart = Hart(mode: Mode, pc: U64, x: Regfile, sepc: U64, sstatus: U64, sscratch: U64, sie: U64,
                       scause: U64, stval: U64, proc: U64, mem: Ram)

  // ----- sstatus -----

  /** sstatus as SIE (bit 1), SPIE (bit 5), SPP (bit 8) and what lies between and above them. */
  datatype Status = Status(low: nat, sie: bool, mid1: nat, spie: bool, mid2: nat, spp: bool, high: nat)

  function Fields(w: U64): Status {
    var q1 := w / 2;
    var q2 := q1 / 2;
    var q3 := q2 / 8;
    var q4 := q3 / 2;
    var q5 := q4 / 4;
    Status(w % 2, q1 % 2 == 1, q2 % 8, q3 % 2 == 1, q4 % 4, q5 % 2 == 1, q5 / 2)
  }

  predicate Wellformed(f: Status) { f.low < 2 && f.mid1 < 8 && f.mid2 < 4 && f.high < 0x80_0000_0000_0000 }

  function Join(r: nat, n: nat, q: nat): nat { r + n * q }

  function One(b: bool): nat { if b then 1 else 0 }

  function Word(f: Status): nat {
    var above := Join(One(f.spie), 2, Join(f.mid2, 4, Join(One(f.spp), 2, f.high)));
    Join(f.low, 2, Join(One(f.sie), 2, Join(f.mid1, 8, above)))
  }

  lemma Split(r: nat, n: nat, q: nat)
    requires r < n && (n == 2 || n == 4 || n == 8)
    ensures Join(r, n, q) / n == q && Join(r, n, q) % n == r
  {
  }

  lemma Joined(w: nat, n: nat)
    requires n == 2 || n == 4 || n == 8
    ensures Join(w % n, n, w / n) == w
  {
  }

  lemma WordBound(f: Status)
    requires Wellformed(f)
    ensures Word(f) < TWO64
  {
  }

  lemma FieldsOf(f: Status)
    requires Wellformed(f)
    ensures Word(f) < TWO64 && Fields(Word(f)) == f
  {
    WordBound(f);
    var w5 := Join(One(f.spp), 2, f.high);
    var w4 := Join(f.mid2, 4, w5);
    var w3 := Join(One(f.spie), 2, w4);
    var w2 := Join(f.mid1, 8, w3);
    var w1 := Join(One(f.sie), 2, w2);
    Split(One(f.spp), 2, f.high);
    Split(f.mid2, 4, w5);
    Split(One(f.spie), 2, w4);
    Split(f.mid1, 8, w3);
    Split(One(f.sie), 2, w2);
    Split(f.low, 2, w1);
    hide Join;
  }

  lemma WordOf(w: U64)
    ensures Wellformed(Fields(w)) && Word(Fields(w)) == w
  {
    var q1 := w / 2;
    var q2 := q1 / 2;
    var q3 := q2 / 8;
    var q4 := q3 / 2;
    var q5 := q4 / 4;
    Joined(w, 2);
    Joined(q1, 2);
    Joined(q2, 8);
    Joined(q3, 2);
    Joined(q4, 4);
    Joined(q5, 2);
    hide Join;
  }

  /** What taking a trap does to sstatus (section 4.1.1 of the privileged architecture). */
  function Trapped(f: Status, mode: Mode): Status { f.(sie := false, spie := f.sie, spp := mode == S) }

  /** What SRET does to sstatus. */
  function Returned(f: Status): Status { f.(sie := f.spie, spie := true, spp := false) }

  function StatusWord(f: Status): U64
    requires Wellformed(f)
  {
    WordBound(f);
    Word(f)
  }

  lemma StatusWordFields(f: Status)
    requires Wellformed(f)
    ensures Fields(StatusWord(f)) == f
  {
    FieldsOf(f);
    hide Fields, Word;
  }

  /** The same sstatus but for SPIE and SPP, which SRET leaves set and clear. */
  predicate SameButPrevious(f: Status, g: Status) { g == f.(spie := true, spp := false) }

  // ----- Uregs in kernel memory -----

  predicate Holds(mem: Ram, base: int) { forall k :: base <= k < base + UREGSIZE ==> k in mem }

  /** The 37 words at base, each in its own slot. */
  function UregAt(mem: Ram, base: int): (ws: seq<U64>)
    requires Holds(mem, base)
    ensures |ws| == 37
  {
    seq(37, i requires 0 <= i < 37 => mem[base + 8 * i])
  }

  function StoreUreg(mem: Ram, base: int, ws: seq<U64>): Ram
    requires |ws| == 37
  {
    map k | k in mem :: if base <= k < base + UREGSIZE && (k - base) % 8 == 0 then ws[(k - base) / 8] else mem[k]
  }

  lemma StoreReads(mem: Ram, base: int, ws: seq<U64>)
    requires |ws| == 37 && Holds(mem, base)
    ensures Holds(StoreUreg(mem, base, ws), base) && UregAt(StoreUreg(mem, base, ws), base) == ws
    ensures StoreUreg(mem, base, ws).Keys == mem.Keys
    ensures forall k :: k in mem && !(base <= k < base + UREGSIZE) ==> StoreUreg(mem, base, ws)[k] == mem[k]
  {
  }

  // ----- entry -----

  /** The hardware's part: pc, cause and the previous mode and interrupt enable are recorded, interrupts go off. */
  function Take(h: Hart, cause: U64, tval: U64): Hart {
    WordOf(h.sstatus);
    h.(mode := S, sepc := h.pc, sstatus := StatusWord(Trapped(Fields(h.sstatus), h.mode)), scause := cause,
      stval := tval)
  }

  /** The words of the Ureg: pc, R1-R31 with the pre-trap sp, status, ie, cause, tval, curmode. */
  function SavedWords(h: Hart): (ws: seq<U64>)
    ensures |ws| == 37
  {
    [h.sepc] + h.x[1..] + [h.sstatus, h.sie, h.scause, h.stval, 0]
  }

  /** Where trapvec puts the Ureg: sscratch tells where the trap came from. */
  function Base(h: Hart): int { (if h.sscratch != 0 then h.proc else h.x[2]) - UREGSIZE }

  /** trapvec up to the call of trap(). */
  function Enter(h: Hart, l: Layout): Hart
    requires Base(h) >= 16
  {
    var base := Base(h);
    var x := if Fields(h.sstatus).spp then h.x else h.x[3 := l.sb][7 := l.m][6 := h.proc];
    h.(mem := StoreUreg(h.mem, base, SavedWords(h)), sscratch := 0, pc := l.trap,
      x := x[8 := base][2 := base - 16][1 := l.link])
  }

  /** The bits of sstatus by position: SIE is bit 1, SPIE bit 5, SPP bit 8. */
  lemma FieldBits(w: U64)
    ensures var f := Fields(w);
      && f.low == w % 2 && f.sie == (w / 2 % 2 == 1) && f.mid1 == w / 4 % 8 && f.spie == (w / 32 % 2 == 1)
      && f.mid2 == w / 64 % 4 && f.spp == (w / 256 % 2 == 1) && f.high == w / 512
  {
    Halved(w, 2, 2, 4);
    Halved(w, 4, 8, 32);
    Halved(w, 32, 2, 64);
    Halved(w, 64, 4, 256);
    Halved(w, 256, 2, 512);
  }

  lemma Halved(w: nat, a: nat, b: nat, c: nat)
    requires (a, b, c) in {(2, 2, 4), (4, 8, 32), (32, 2, 64), (64, 4, 256), (256, 2, 512), (512, 16, 0x2000),
                           (512, 64, 0x8000)}
    ensures w / a / b == w / c
  {
  }

  /** w with SIE, SPIE and SPP as given and every other bit v's. */
  predicate StatusIs(w: U64, v: U64, sie: bool, spie: bool, spp: bool) {
    && w % 2 == v % 2 && w / 4 % 8 == v / 4 % 8 && w / 64 % 4 == v / 64 % 4 && w / 512 == v / 512
    && (w / 2 % 2 == 1 <==> sie) && (w / 32 % 2 == 1 <==> spie) && (w / 256 % 2 == 1 <==> spp)
  }

  /** What the hardware does to sstatus at a trap and at SRET, bit by bit. */
  lemma StatusMoves(w: U64, mode: Mode)
    ensures Wellformed(Trapped(Fields(w), mode)) && Wellformed(Returned(Fields(w)))
    ensures StatusIs(StatusWord(Trapped(Fields(w), mode)), w, false, w / 2 % 2 == 1, mode == S)
    ensures StatusIs(StatusWord(Returned(Fields(w))), w, w / 32 % 2 == 1, true, false)
  {
    WordOf(w);
    StatusWordFields(Trapped(Fields(w), mode));
    StatusWordFields(Returned(Fields(w)));
    FieldBits(w);
    FieldBits(StatusWord(Trapped(Fields(w), mode)));
    FieldBits(StatusWord(Returned(Fields(w))));
    hide Fields, StatusWord;
  }

  /** ureg.h by offsets: what trapvec must leave at base, from the hart as the hardware hands it over. */
  predicate Stored(h: Hart, mem: Ram, base: int) {
    && Holds(mem, base)
    && mem[base] == h.sepc && (forall i :: 1 <= i < 32 ==> mem[base + 8 * i] == h.x[i])
    && mem[base + 256] == h.sstatus && mem[base + 264] == h.sie && mem[base + 272] == h.scause
    && mem[base + 280] == h.stval && mem[base + 288] == 0
  }

  /** The registers with which trap(ureg) is called: gp, m and up are replaced only for a trap from user mode. */
  predicate Called(h: Hart, g: Hart, l: Layout, base: int) {
    && g.pc == l.trap && g.sscratch == 0 && g.x[1] == l.link && g.x[2] == base - 16 && g.x[8] == base
    && (if h.sstatus / 256 % 2 == 1 then g.x[3] == h.x[3] && g.x[6] == h.x[6] && g.x[7] == h.x[7]
        else g.x[3] == l.sb && g.x[6] == h.proc && g.x[7] == l.m)
    && (forall i :: 4 <= i < 32 && i != 6 && i != 7 && i != 8 ==> g.x[i] == h.x[i])
    && g.mode == h.mode && g.sepc == h.sepc && g.sstatus == h.sstatus && g.sie == h.sie && g.scause == h.scause
    && g.stval == h.stval && g.proc == h.proc
  }

  /** trapvec: the Ureg below the process's stack top or the interrupted sp, every word in its place, and the call. */
  predicate Entered(h: Hart, g: Hart, l: Layout) {
    var base := (if h.sscratch != 0 then h.proc else h.x[2]) - 296;
    && Stored(h, g.mem, base) && Called(h, g, l, base)
    && g.mem.Keys == h.mem.Keys
    && forall k :: k in h.mem && !(base <= k < base + 296 && (k - base) % 8 == 0) ==> g.mem[k] == h.mem[k]
  }

  lemma EnterIsEntered(h: Hart, l: Layout)
    requires Base(h) >= 16 && Holds(h.mem, Base(h))
    ensures Entered(h, Enter(h, l), l)
  {
    hide *;
    BaseIs(h);
    EnterStores(h, l);
    EnterCalls(h, l);
    StoreOnly(h.mem, Base(h), SavedWords(h));
    EnteredIf(h, Enter(h, l), l);
  }

  lemma BaseIs(h: Hart)
    ensures Base(h) == (if h.sscratch != 0 then h.proc else h.x[2]) - 296
  {
  }

  lemma EnteredIf(h: Hart, g: Hart, l: Layout)
    requires var base := (if h.sscratch != 0 then h.proc else h.x[2]) - 296;
      && Stored(h, g.mem, base) && Called(h, g, l, base) && g.mem.Keys == h.mem.Keys
      && forall k :: k in h.mem && !(base <= k < base + 296 && (k - base) % 8 == 0) ==> g.mem[k] == h.mem[k]
    ensures Entered(h, g, l)
  {
    hide Stored, Called;
  }

  lemma EnterStores(h: Hart, l: Layout)
    requires Base(h) >= 16 && Holds(h.mem, Base(h))
    ensures Enter(h, l).mem == StoreUreg(h.mem, Base(h), SavedWords(h)) && Stored(h, Enter(h, l).mem, Base(h))
  {
    hide *;
    var base, ws := Base(h), SavedWords(h);
    StoreReads(h.mem, base, ws);
    WordsSaved(h);
    EnterMem(h, l);
    StoredIf(h, StoreUreg(h.mem, base, ws), base);
  }

  lemma EnterMem(h: Hart, l: Layout)
    requires Base(h) >= 16
    ensures Enter(h, l).mem == StoreUreg(h.mem, Base(h), SavedWords(h))
  {
    hide Fields, StoreUreg, SavedWords, Base;
  }

  lemma StoredIf(h: Hart, mem: Ram, base: int)
    requires Holds(mem, base)
    requires var ws := UregAt(mem, base);
      && ws[0] == h.sepc && (forall i :: 1 <= i < 32 ==> ws[i] == h.x[i])
      && ws[32] == h.sstatus && ws[33] == h.sie && ws[34] == h.scause && ws[35] == h.stval && ws[36] == 0
    ensures Stored(h, mem, base)
  {
    forall i | 1 <= i < 32 ensures mem[base + 8 * i] == h.x[i] { WordAt(mem, base, i); }
    WordAt(mem, base, 0);
    WordAt(mem, base, 32);
    WordAt(mem, base, 33);
    WordAt(mem, base, 34);
    WordAt(mem, base, 35);
    WordAt(mem, base, 36);
    hide UregAt;
  }

  /** A Ureg's words by their offsets. */
  lemma WordAt(mem: Ram, base: int, i: nat)
    requires Holds(mem, base) && i < 37
    ensures base + 8 * i in mem && UregAt(mem, base)[i] == mem[base + 8 * i]
  {
  }

  lemma EnterCalls(h: Hart, l: Layout)
    requires Base(h) >= 16
    ensures Called(h, Enter(h, l), l, Base(h))
  {
    FieldBits(h.sstatus);
    hide Fields, StoreUreg, SavedWords, Base;
  }

  lemma StoreOnly(mem: Ram, base: int, ws: seq<U64>)
    requires |ws| == 37
    ensures StoreUreg(mem, base, ws).Keys == mem.Keys
    ensures forall k :: k in mem && !(base <= k < base + 296 && (k - base) % 8 == 0) ==>
      StoreUreg(mem, base, ws)[k] == mem[k]
  {
  }

  lemma WordsSaved(h: Hart)
    ensures var ws := SavedWords(h);
      && ws[0] == h.sepc && (forall i :: 1 <= i < 32 ==> ws[i] == h.x[i])
      && ws[32] == h.sstatus && ws[33] == h.sie && ws[34] == h.scause && ws[35] == h.stval && ws[36] == 0
  {
  }

  // ----- return -----

  /** forkret with R2 = base, and SRET. */
  function Leave(h: Hart, l: Layout, base: int): Hart
    requires Holds(h.mem, base)
  {
    var ws := UregAt(h.mem, base);
    var f := Fields(ws[STATUS]);
    WordOf(ws[STATUS]);
    h.(pc := ws[0], sepc := ws[0], sstatus := StatusWord(Returned(f)), mode := if f.spp then S else U,
       sscratch := if f.spp then h.sscratch else l.m, x := [0] + ws[1..32])
  }

  /** forkret and SRET by offsets: everything comes from the Ureg at base, and sscratch is m again for a user. */
  predicate Left(h: Hart, g: Hart, l: Layout, base: int)
    requires Holds(h.mem, base)
  {
    WordAt(h.mem, base, 32);
    var status := h.mem[base + 256];
    && g.pc == h.mem[base] && g.sepc == h.mem[base] && (forall i :: 1 <= i < 32 ==> g.x[i] == h.mem[base + 8 * i])
    && (if status / 256 % 2 == 1 then g.mode == S && g.sscratch == h.sscratch else g.mode == U && g.sscratch == l.m)
    && StatusIs(g.sstatus, status, status / 32 % 2 == 1, true, false)
    && g.sie == h.sie && g.scause == h.scause && g.stval == h.stval && g.proc == h.proc && g.mem == h.mem
  }

  lemma LeaveIsLeft(h: Hart, l: Layout, base: int)
    requires Holds(h.mem, base)
    ensures Left(h, Leave(h, l, base), l, base)
  {
    WordAt(h.mem, base, 0);
    WordAt(h.mem, base, 32);
    var status := UregAt(h.mem, base)[32];
    WordOf(status);
    StatusMoves(status, S);
    FieldBits(status);
    hide Fields, StatusWord, UregAt, Holds;
    var g := Leave(h, l, base);
    forall i | 1 <= i < 32 ensures g.x[i] == h.mem[base + 8 * i] { WordAt(h.mem, base, i); }
  }

  /** Whether the hart takes an interrupt: always in user mode, in the kernel when SIE is set. */
  predicate Interruptible(h: Hart) { h.mode == U || Fields(h.sstatus).sie }

  /** No interrupt can come between forkret's entry with R2 = base and its SRET. */
  predicate ReturnsQuietly(h: Hart, base: int)
    requires Holds(h.mem, base)
  {
    !Interruptible(h) && !Fields(UregAt(h.mem, base)[STATUS]).sie
  }

  /** Left alone in between, the return undoes the trap: pc, sp, every register, the mode and the interrupt enable. */
  lemma LeaveUndoes(h: Hart, l: Layout, cause: U64, tval: U64, g: Hart)
    requires Base(Take(h, cause, tval)) >= 16
    requires var base := Base(Take(h, cause, tval));
      Holds(h.mem, base) && Holds(g.mem, base) && g.sscratch == 0
      && UregAt(g.mem, base) == UregAt(Enter(Take(h, cause, tval), l).mem, base)
    ensures var r := Leave(g, l, Base(Take(h, cause, tval)));
      && r.pc == h.pc && r.x == h.x && r.mode == h.mode
      && SameButPrevious(Fields(h.sstatus), Fields(r.sstatus))
      && r.sscratch == if h.mode == S then 0 else l.m
  {
    var t := Take(h, cause, tval);
    var base := Base(t);
    WordOf(h.sstatus);
    StatusWordFields(Trapped(Fields(h.sstatus), h.mode));
    StoreReads(t.mem, base, SavedWords(t));
    StatusWordFields(Returned(Fields(t.sstatus)));
    hide Fields, StatusWord, StoreUreg, UregAt, Holds, Base;
    SavedAre(t);
  }

  lemma SavedAre(t: Hart)
    ensures var ws := SavedWords(t); ws[0] == t.sepc && ws[STATUS] == t.sstatus && [0] + ws[1..32] == t.x
  {
    assert [0] + SavedWords(t)[1..32] == t.x;
  }
}
