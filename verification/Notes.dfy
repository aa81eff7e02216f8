/** notify and noted: the frame a note leaves on the user stack, and what undoing it restores. */
module Notes {
  import opened Lists
  import opened NoteFrames

  const USTKTOP: int := 0x3F_FFFF_0000

  /** The user bytes okaddr accepts for reading and for writing; okaddr accepts a range when it accepts every byte. */
  datatype Space = Space(readable: set<int>, writable: set<int>)

  predicate Okaddr(space: Space, a: int, n: nat, write: bool) {
    var bytes := if write then space.writable else space.readable;
    a + n <= USTKTOP && forall k :: a <= k < a + n ==> k in bytes
  }

  /** What okaddr accepts can be stored to. */
  ghost predicate Accessible(mem: UserMem, space: Space) { space.writable <= mem.Keys }

  function Sub(a: U64, d: nat): U64 { (a - d) % TWO64 }

  datatype NoteArg = NCONT | NRSTR | NSAVE | OtherArg

  datatype Outcome = Outcome(regs: Regs, mem: UserMem, nureg: Option<U64>)

  datatype Answer = Answer(regs: Regs, mem: UserMem, code: int)

  /** Where the saved Ureg goes. */
  function SaveAt(regs: Regs): U64 { Sub(Get(regs, SP), 256 + UREGSIZE) }

  predicate Accepts(regs: Regs, space: Space, handler: U64) {
    && Okaddr(space, Sub(SaveAt(regs), ERRMAX + 4 * BY2WD), UREGSIZE + ERRMAX + 4 * BY2WD, true)
    && handler % 2 == 0 && SaveAt(regs) % 8 == 0
  }

  /** The four stores, in order: the Ureg, the message, its address, the Ureg's address. */
  function FrameMem(mem: UserMem, at: int, regs: Regs, msg: seq<Byte>): UserMem
    requires |msg| == ERRMAX && 160 <= at < TWO64 && Backed(mem, at - 160, 456)
  {
    var m1 := Write(mem, at, regs);
    var m2 := Write(m1, at - 136, msg);
    var m3 := Write(m2, at - 144, Le8(at - 136));
    Write(m3, at - 152, Le8(at))
  }

  function HandlerRegs(regs: Regs, at: U64, handler: U64): Regs
    requires at >= 160
  {
    Set(Set(Set(Set(regs, ARG, at), SP, at - 160), PC, handler), R1, 0)
  }

  /** An accepted frame does not wrap round. */
  lemma FrameFits(regs: Regs, mem: UserMem, space: Space, handler: U64)
    requires Accessible(mem, space) && Accepts(regs, space, handler)
    ensures var at := SaveAt(regs);
      && at >= 160 && Sub(at, 160) == at - 160 && at + UREGSIZE <= USTKTOP && Backed(mem, at - 160, 456)
  {
  }

  function Notify(regs: Regs, mem: UserMem, space: Space, handler: U64, msg: seq<Byte>): Outcome
    requires Accessible(mem, space) && |msg| == ERRMAX
  {
    if !Accepts(regs, space, handler) then Outcome(regs, mem, None)
    else
      FrameFits(regs, mem, space, handler);
      var at := SaveAt(regs);
      Outcome(HandlerRegs(regs, at, handler), FrameMem(mem, at, regs, msg), Some(at))
  }

  predicate Resumable(regs: Regs, space: Space) {
    && Okaddr(space, Get(regs, PC), BY2WD, false) && Okaddr(space, Get(regs, SP), BY2WD, false)
    && Get(regs, PC) % 2 == 0 && Get(regs, SP) % 8 == 0
  }

  predicate Resavable(regs: Regs, space: Space, nureg: U64) {
    var sp := Sub(nureg, 4 * BY2WD + ERRMAX);
    && Okaddr(space, Get(regs, PC), BY2WD, false) && Okaddr(space, sp, 4 * BY2WD, true)
    && Get(regs, PC) % 2 == 0 && sp % 8 == 0
  }

  /** NSAVE, the saved registers being back. */
  function Resaved(back: Regs, mem: UserMem, space: Space, nureg: U64): Answer
    requires Accessible(mem, space)
  {
    if !Resavable(back, space, nureg) then Answer(back, mem, -1)
    else
      var sp := Sub(nureg, 4 * BY2WD + ERRMAX);
      assert Backed(mem, sp, 4 * BY2WD);
      Answer(Set(Set(back, SP, sp), ARG, nureg), Write(Write(mem, sp + BY2WD, Le8(nureg)), sp, Le8(0)), 0)
  }

  function Noted(regs: Regs, mem: UserMem, space: Space, nureg: U64, arg0: NoteArg): Answer
    requires Accessible(mem, space) && Backed(mem, nureg, UREGSIZE)
  {
    if nureg % 8 != 0 then Answer(regs, mem, -1)
    else
      var back := SetRegisters(regs, 0, Bytes(mem, nureg, UREGSIZE));
      match arg0
      case NCONT => Answer(back, mem, if Resumable(back, space) then 0 else -1)
      case NRSTR => Answer(back, mem, if Resumable(back, space) then 0 else -1)
      case NSAVE => Resaved(back, mem, space, nureg)
      case OtherArg => Answer(back, mem, 0)
  }

  // ----- the frame -----

  function Load(mem: UserMem, a: int): U64
    requires Backed(mem, a, 8)
  {
    Word8(Bytes(mem, a, 8))
  }

  /** Every store lies in the range okaddr checked, and none overwrites another: each is read back afterwards. */
  lemma FrameHolds(mem: UserMem, at: int, regs: Regs, msg: seq<Byte>)
    requires |msg| == ERRMAX && 160 <= at < TWO64 && Backed(mem, at - 160, 456)
    ensures var m := FrameMem(mem, at, regs, msg);
      && m.Keys == mem.Keys
      && (forall k :: k in mem && !(at - 160 <= k < at + 296) ==> m[k] == mem[k])
      && Backed(m, at - 160, 456)
      && Bytes(m, at, 296) == regs && Bytes(m, at - 136, 128) == msg
      && Load(m, at - 144) == at - 136 && Load(m, at - 152) == at
      && Bytes(m, at - 160, 8) == Bytes(mem, at - 160, 8) && Bytes(m, at - 8, 8) == Bytes(mem, at - 8, 8)
  {
    var m1 := Write(mem, at, regs);
    var m2 := Write(m1, at - 136, msg);
    var m3 := Write(m2, at - 144, Le8(at - 136));
    var m4 := Write(m3, at - 152, Le8(at));
    WordBack(at);
    WordBack(at - 136);
    WriteReads(mem, at, regs, at, UREGSIZE);
    WriteReads(m1, at - 136, msg, at, UREGSIZE);
    WriteReads(m2, at - 144, Le8(at - 136), at, UREGSIZE);
    WriteReads(m3, at - 152, Le8(at), at, UREGSIZE);
    WriteReads(m1, at - 136, msg, at - 136, ERRMAX);
    WriteReads(m2, at - 144, Le8(at - 136), at - 136, ERRMAX);
    WriteReads(m3, at - 152, Le8(at), at - 136, ERRMAX);
    WriteReads(m2, at - 144, Le8(at - 136), at - 144, 8);
    WriteReads(m3, at - 152, Le8(at), at - 144, 8);
    WriteReads(m3, at - 152, Le8(at), at - 152, 8);
  }

  /** The handler gets the frame's addresses, and keeps status and every other register. */
  lemma HandlerStarts(regs: Regs, at: U64, handler: U64, i: nat)
    requires at >= 160 && i < 37
    ensures Get(HandlerRegs(regs, at, handler), i) == (
      if i == 8 then at else if i == 2 then at - 160 else if i == 0 then handler else if i == 1 then 0
        else Get(regs, i))
  {
    var r1 := Set(regs, ARG, at);
    var r2 := Set(r1, SP, at - 160);
    var r3 := Set(r2, PC, handler);
    GetSet(regs, ARG, i, at);
    GetSet(r1, SP, i, at - 160);
    GetSet(r2, PC, i, handler);
    GetSet(r3, R1, i, 0);
    hide Set, Get;
  }

  lemma Sizes()
    ensures PC == 0 && R1 == 1 && SP == 2 && ARG == 8 && STATUS == 32 && UREGSIZE == 296 && ERRMAX == 128 && BY2WD == 8
    ensures TWO64 == 0x1_0000_0000_0000_0000 && USTKTOP == 0x3F_FFFF_0000
  {
  }

  /** What an accepted note leaves. */
  lemma Delivered(regs: Regs, mem: UserMem, space: Space, handler: U64, msg: seq<Byte>)
    requires Accessible(mem, space) && |msg| == ERRMAX
    requires Notify(regs, mem, space, handler, msg).nureg.Some?
    ensures var n, at := Notify(regs, mem, space, handler, msg), SaveAt(regs);
      && 160 <= at && at % 8 == 0 && at + UREGSIZE <= USTKTOP && Backed(mem, at - 160, 456)
      && n == Outcome(HandlerRegs(regs, at, handler), FrameMem(mem, at, regs, msg), Some(at))
  {
    FrameFits(regs, mem, space, handler);
    hide Backed, HandlerRegs, FrameMem, Okaddr, SaveAt, Accessible;
  }

  /**
   notify delivers exactly when the 456 bytes from 712 below sp may be stored to, the handler's address is even and sp
   is aligned; the Ureg goes 552 below sp, the frame's bottom, the handler's sp, 160 lower.
   */
  lemma NotifyIff(regs: Regs, mem: UserMem, space: Space, handler: U64, msg: seq<Byte>)
    requires Accessible(mem, space) && |msg| == ERRMAX
    ensures var n, sp := Notify(regs, mem, space, handler, msg), Get(regs, 2);
      && (n.nureg.Some? <==> sp >= 712 && Okaddr(space, sp - 712, 456, true) && handler % 2 == 0 && sp % 8 == 0)
      && (n.nureg.Some? ==>
            n.nureg.value == sp - 552 == SaveAt(regs) && NotifyLeaves(regs, mem, n, sp - 552, handler, msg))
      && (n.nureg.None? ==> n == Outcome(regs, mem, None))
  {
    FrameAt(Get(regs, 2));
    BelowTop(space, Sub(SaveAt(regs), 160), 456);
    hide Get, Okaddr, Write, HandlerRegs, FrameMem, Accessible, Sub;
    if Notify(regs, mem, space, handler, msg).nureg.Some? {
      Delivered(regs, mem, space, handler, msg);
      DeliveredWords(regs, mem, SaveAt(regs), handler, msg);
    }
  }

  /** The handler's registers, and the frame: the Ureg, the message below it, and the two pointers to them. */
  ghost predicate NotifyLeaves(regs: Regs, mem: UserMem, n: Outcome, at: int, handler: U64, msg: seq<Byte>) {
    && n.mem.Keys == mem.Keys && Backed(n.mem, at - 160, 456)
    && (forall i :: 0 <= i < 37 ==>
          Get(n.regs, i) == (if i == 8 then at else if i == 2 then at - 160 else if i == 0 then handler
                             else if i == 1 then 0 else Get(regs, i)))
    && Bytes(n.mem, at, 296) == regs && Bytes(n.mem, at - 136, 128) == msg
    && Load(n.mem, at - 144) == at - 136 && Load(n.mem, at - 152) == at
    && (forall k :: k in mem && !(at - 152 <= k < at - 8 || at <= k < at + 296) ==> n.mem[k] == mem[k])
  }

  lemma DeliveredWords(regs: Regs, mem: UserMem, at: U64, handler: U64, msg: seq<Byte>)
    requires |msg| == ERRMAX && at >= 160 && Backed(mem, at - 160, 456)
    ensures NotifyLeaves(regs, mem, Outcome(HandlerRegs(regs, at, handler), FrameMem(mem, at, regs, msg), Some(at)), at,
      handler, msg)
  {
    FrameHolds(mem, at, regs, msg);
    FrameOnly(mem, at, regs, msg);
    forall i | 0 <= i < 37
      ensures Get(HandlerRegs(regs, at, handler), i) ==
        if i == 8 then at else if i == 2 then at - 160 else if i == 0 then handler else if i == 1 then 0
        else Get(regs, i)
    {
      HandlerStarts(regs, at, handler, i);
    }
    hide Get, HandlerRegs, FrameMem, Bytes, Load;
  }

  lemma FrameOnly(mem: UserMem, at: int, regs: Regs, msg: seq<Byte>)
    requires |msg| == ERRMAX && 160 <= at < TWO64 && Backed(mem, at - 160, 456)
    ensures forall k :: k in mem && !(at - 152 <= k < at - 8 || at <= k < at + 296) ==>
      k in FrameMem(mem, at, regs, msg) && FrameMem(mem, at, regs, msg)[k] == mem[k]
  {
    hide Le8;
  }

  lemma FrameAt(sp: U64)
    ensures var at := Sub(sp, 552);
      && (sp >= 712 ==> at == sp - 552 && Sub(at, 160) == sp - 712)
      && (sp < 712 ==> Sub(at, 160) > USTKTOP)
      && (at % 8 == 0 <==> sp % 8 == 0)
  {
  }

  lemma BelowTop(space: Space, a: int, n: nat)
    ensures Okaddr(space, a, n, true) ==> a + n <= USTKTOP
  {
  }

  // ----- the round trip -----

  /** regs with another Ureg's status. */
  function WithStatus(regs: Regs, status: U64): Regs { Set(regs, STATUS, status) }

  lemma StatusBytes(r: Regs, regs: Regs)
    ensures SetRegisters(r, 0, regs) == WithStatus(regs, Get(r, STATUS))
  {
    assert Put(r, 0, regs) == regs;
  }

  lemma SameStatus(regs: Regs, status: U64)
    ensures WithStatus(regs, status) == regs <==> status == Get(regs, STATUS)
  {
    GetSet(regs, STATUS, STATUS, status);
    if status == Get(regs, STATUS) {
      LeValue(regs[8 * STATUS..8 * STATUS + 8]);
    }
  }

  /**
   With the saved frame as notify left it, noted gives back the Ureg from before the note, byte for byte but for
   status, which stays the caller's; so exactly that Ureg iff the two statuses are equal.  NCONT and NRSTR succeed
   iff the interrupted pc and sp may be resumed, an unknown argument always, and none of them writes user memory.
   */
  lemma RoundTrip(regs: Regs, mem: UserMem, space: Space, handler: U64, msg: seq<Byte>,
                  cur: Regs, mem': UserMem, space': Space, arg0: NoteArg)
    requires Accessible(mem, space) && Accessible(mem', space') && |msg| == ERRMAX && arg0 != NSAVE
    requires Notify(regs, mem, space, handler, msg).nureg.Some?
    requires var at := SaveAt(regs);
      Backed(mem', at, UREGSIZE) && Backed(mem, at, UREGSIZE)
      && Bytes(mem', at, UREGSIZE) == Bytes(Notify(regs, mem, space, handler, msg).mem, at, UREGSIZE)
    ensures var a := Noted(cur, mem', space', SaveAt(regs), arg0);
      && a.regs == WithStatus(regs, Get(cur, STATUS)) && a.mem == mem'
      && (a.regs == regs <==> Get(cur, STATUS) == Get(regs, STATUS))
      && (a.code == 0 || a.code == -1)
      && (a.code == 0 <==>
            || arg0 == OtherArg
            || (Okaddr(space', Get(regs, 0), 8, false) && Okaddr(space', Get(regs, 2), 8, false)
                && Get(regs, 0) % 2 == 0 && Get(regs, 2) % 8 == 0))
  {
    hide *;
    Sizes();
    var at := SaveAt(regs);
    Delivered(regs, mem, space, handler, msg);
    FrameHolds(mem, at, regs, msg);
    Continued(cur, mem', space', at, arg0);
    StatusBytes(cur, regs);
    SameStatus(regs, Get(cur, STATUS));
    SameResume(regs, Get(cur, STATUS), space');
    ResumableIff(regs, space');
  }

  /** A pc that is readable for 8 bytes and even, and an sp that is readable for 8 bytes and aligned. */
  lemma ResumableIff(regs: Regs, space: Space)
    ensures Resumable(regs, space) <==>
      && Okaddr(space, Get(regs, 0), 8, false) && Okaddr(space, Get(regs, 2), 8, false)
      && Get(regs, 0) % 2 == 0 && Get(regs, 2) % 8 == 0
  {
  }

  lemma Continued(cur: Regs, mem: UserMem, space: Space, nureg: U64, arg0: NoteArg)
    requires Accessible(mem, space) && Backed(mem, nureg, UREGSIZE) && nureg % 8 == 0 && arg0 != NSAVE
    ensures var back := SetRegisters(cur, 0, Bytes(mem, nureg, UREGSIZE));
      Noted(cur, mem, space, nureg, arg0) ==
        Answer(back, mem, if arg0 == OtherArg || Resumable(back, space) then 0 else -1)
  {
    hide SetRegisters, Bytes, Resumable, Backed, Accessible;
  }

  /** NSAVE succeeds iff the interrupted pc may be resumed and the frame's four words may still be stored. */
  lemma SaveIff(regs: Regs, mem: UserMem, space: Space, handler: U64, msg: seq<Byte>,
                cur: Regs, mem': UserMem, space': Space)
    requires Accessible(mem, space) && Accessible(mem', space') && |msg| == ERRMAX
    requires Notify(regs, mem, space, handler, msg).nureg.Some?
    requires var at := SaveAt(regs);
      Backed(mem', at, UREGSIZE) && Backed(mem, at, UREGSIZE)
      && Bytes(mem', at, UREGSIZE) == Bytes(Notify(regs, mem, space, handler, msg).mem, at, UREGSIZE)
    ensures var at, pc := SaveAt(regs), Get(regs, PC);
      Noted(cur, mem', space', at, NSAVE).code == 0 <==>
        Okaddr(space', pc, BY2WD, false) && pc % 2 == 0 && Okaddr(space', at - 160, 4 * BY2WD, true)
  {
    hide *;
    Sizes();
    var at := SaveAt(regs);
    Delivered(regs, mem, space, handler, msg);
    FrameHolds(mem, at, regs, msg);
    StatusBytes(cur, regs);
    GetSet(regs, STATUS, PC, Get(cur, STATUS));
    WithStatusIs(regs, Get(cur, STATUS));
    SaveDecides(cur, mem', space', at);
  }

  lemma WithStatusIs(regs: Regs, status: U64)
    ensures WithStatus(regs, status) == Set(regs, STATUS, status)
  {
  }

  lemma SaveDecides(cur: Regs, mem: UserMem, space: Space, nureg: U64)
    requires Accessible(mem, space) && Backed(mem, nureg, UREGSIZE) && nureg % 8 == 0 && nureg >= 160
    ensures var pc := Get(SetRegisters(cur, 0, Bytes(mem, nureg, UREGSIZE)), PC);
      Noted(cur, mem, space, nureg, NSAVE).code == 0 <==>
        Okaddr(space, pc, BY2WD, false) && pc % 2 == 0 && Okaddr(space, nureg - 160, 4 * BY2WD, true)
  {
    SubIs(nureg);
    assert (nureg - 160) % 8 == 0;
    var back := SetRegisters(cur, 0, Bytes(mem, nureg, UREGSIZE));
    SaveRoom(back, mem, space, nureg);
    hide SetRegisters, Bytes, Get, Set, Okaddr, Sub, Write, Le8;
  }

  /** Word i of the Ureg at nureg; status is the caller's. */
  function Copied(cur: Regs, mem: UserMem, nureg: int, i: nat): U64
    requires i < 37 && Backed(mem, nureg, 296)
  {
    if i == 32 then Get(cur, 32) else assert Backed(mem, nureg + 8 * i, 8); Load(mem, nureg + 8 * i)
  }

  /**
   noted, for every argument and any bytes in the Ureg: its words are copied but for status, then checked.  NCONT and
   NRSTR ask for a readable even pc and a readable aligned sp.  NSAVE asks for the pc and for 32 writable bytes from 160
   below the Ureg on, and then alone sets sp and arg and stores two words.
   */
  ghost predicate NotedDoes(cur: Regs, mem: UserMem, space: Space, nureg: int, arg0: NoteArg, a: Answer) {
    && Backed(mem, nureg, 296)
    && var pc, sp := Copied(cur, mem, nureg, 0), Copied(cur, mem, nureg, 2);
       var pcOk := Okaddr(space, pc, 8, false) && pc % 2 == 0;
       var saves := arg0 == NSAVE && pcOk && nureg >= 160 && Okaddr(space, nureg - 160, 32, true);
       && (a.code == 0 || a.code == -1)
       && (a.code == 0 <==>
             match arg0
             case NSAVE => saves
             case OtherArg => true
             case _ => pcOk && Okaddr(space, sp, 8, false) && sp % 8 == 0)
       && (forall i :: 0 <= i < 37 ==>
             Get(a.regs, i) == (if saves && i == 2 then nureg - 160 else if saves && i == 8 then nureg
                                else Copied(cur, mem, nureg, i)))
       && a.mem.Keys == mem.Keys
       && (forall k :: k in mem && !(saves && nureg - 160 <= k < nureg - 144) ==> a.mem[k] == mem[k])
       && (saves ==>
             Backed(a.mem, nureg - 160, 16) && Load(a.mem, nureg - 160) == 0 && Load(a.mem, nureg - 152) == nureg)
  }

  lemma NotedIs(cur: Regs, mem: UserMem, space: Space, nureg: U64, arg0: NoteArg)
    requires Accessible(mem, space) && Backed(mem, nureg, UREGSIZE)
    ensures nureg % 8 != 0 ==> Noted(cur, mem, space, nureg, arg0) == Answer(cur, mem, -1)
    ensures nureg % 8 == 0 ==> NotedDoes(cur, mem, space, nureg, arg0, Noted(cur, mem, space, nureg, arg0))
  {
    if nureg % 8 == 0 {
      var back := SetRegisters(cur, 0, Bytes(mem, nureg, UREGSIZE));
      forall i | 0 <= i < 37 ensures Get(back, i) == Copied(cur, mem, nureg, i) { CopiedWord(cur, mem, nureg, i); }
      if arg0 == NSAVE {
        ResavedIs(cur, back, mem, space, nureg);
      } else {
        hide SetRegisters, Copied, Get, Okaddr, Bytes, Load;
      }
    }
  }

  lemma CopiedWord(cur: Regs, mem: UserMem, nureg: int, i: nat)
    requires i < 37 && Backed(mem, nureg, UREGSIZE)
    ensures Get(SetRegisters(cur, 0, Bytes(mem, nureg, UREGSIZE)), i) == Copied(cur, mem, nureg, i)
  {
    var data := Bytes(mem, nureg, UREGSIZE);
    GetSet(Put(cur, 0, data), STATUS, i, Get(cur, STATUS));
    if i != 32 {
      assert Put(cur, 0, data) == data;
      assert data[8 * i..8 * i + 8] == Bytes(mem, nureg + 8 * i, 8);
    }
  }

  lemma ResavedIs(cur: Regs, back: Regs, mem: UserMem, space: Space, nureg: U64)
    requires Accessible(mem, space) && Backed(mem, nureg, UREGSIZE) && nureg % 8 == 0
    requires forall i :: 0 <= i < 37 ==> Get(back, i) == Copied(cur, mem, nureg, i)
    ensures NotedDoes(cur, mem, space, nureg, NSAVE, Resaved(back, mem, space, nureg))
  {
    hide Get, Copied, Okaddr, Load, Resavable, Resaved, Bytes, Accessible;
    ResavableIff(back, space, nureg);
    if Resavable(back, space, nureg) {
      SavedIs(back, mem, space, nureg);
    } else {
      RefusedIs(back, mem, space, nureg);
    }
  }

  lemma ResavableIff(back: Regs, space: Space, nureg: U64)
    requires nureg % 8 == 0
    ensures Resavable(back, space, nureg) <==>
      && Okaddr(space, Get(back, 0), 8, false) && Get(back, 0) % 2 == 0
      && nureg >= 160 && Okaddr(space, nureg - 160, 32, true)
  {
    SaveWraps(space, nureg);
    SaveSub(nureg);
    hide Get, Okaddr, Sub;
  }

  lemma RefusedIs(back: Regs, mem: UserMem, space: Space, nureg: U64)
    requires Accessible(mem, space) && !Resavable(back, space, nureg)
    ensures Resaved(back, mem, space, nureg) == Answer(back, mem, -1)
  {
    hide Resavable;
  }

  lemma SavedIs(back: Regs, mem: UserMem, space: Space, nureg: U64)
    requires Accessible(mem, space) && nureg >= 160 && Resavable(back, space, nureg) && Backed(mem, nureg, UREGSIZE)
    ensures var a := Resaved(back, mem, space, nureg);
      && a.code == 0 && a.mem.Keys == mem.Keys
      && (forall i :: 0 <= i < 37 ==>
            Get(a.regs, i) == (if i == 2 then nureg - 160 else if i == 8 then nureg else Get(back, i)))
      && (forall k :: k in mem && !(nureg - 160 <= k < nureg - 144) ==> a.mem[k] == mem[k])
      && Backed(a.mem, nureg - 160, 16) && Load(a.mem, nureg - 160) == 0 && Load(a.mem, nureg - 152) == nureg
  {
    SubIs(nureg);
    SaveRoom(back, mem, space, nureg);
    assert Backed(mem, nureg - 160, 16);
    SaveStores(mem, nureg);
    SavedBytes(mem, nureg);
    SavedRegs(back, nureg);
    hide Get, Set, Okaddr, Load, Sub, Write, Le8, Resavable;
  }

  lemma SavedRegs(back: Regs, nureg: U64)
    requires nureg >= 160
    ensures forall i :: 0 <= i < 37 ==>
      Get(Set(Set(back, SP, nureg - 160), ARG, nureg), i) ==
        (if i == 2 then nureg - 160 else if i == 8 then nureg else Get(back, i))
  {
    forall i | 0 <= i < 37
      ensures Get(Set(Set(back, SP, nureg - 160), ARG, nureg), i) ==
        (if i == 2 then nureg - 160 else if i == 8 then nureg else Get(back, i))
    {
      GetSet(back, SP, i, nureg - 160);
      GetSet(Set(back, SP, nureg - 160), ARG, i, nureg);
    }
    hide Get, Set;
  }

  /** Below 160 the frame would wrap round, which okaddr refuses. */
  lemma SaveWraps(space: Space, nureg: U64)
    ensures nureg < 160 ==> !Okaddr(space, Sub(nureg, 4 * BY2WD + ERRMAX), 4 * BY2WD, true)
  {
  }

  lemma SaveSub(nureg: U64)
    ensures nureg >= 160 ==> Sub(nureg, 4 * BY2WD + ERRMAX) == nureg - 160
    ensures nureg % 8 == 0 ==> Sub(nureg, 4 * BY2WD + ERRMAX) % 8 == 0
  {
  }

  lemma SavedBytes(mem: UserMem, nureg: int)
    requires 160 <= nureg < TWO64 && Backed(mem, nureg - 152, 8) && Backed(mem, nureg - 160, 16)
    ensures var m := Write(Write(mem, nureg - 152, Le8(nureg)), nureg - 160, Le8(0));
      m.Keys == mem.Keys && forall k :: k in mem && !(nureg - 160 <= k < nureg - 144) ==> m[k] == mem[k]
  {
    hide Le8;
  }

  lemma SameResume(regs: Regs, status: U64, space: Space)
    ensures Resumable(WithStatus(regs, status), space) == Resumable(regs, space)
  {
    GetSet(regs, STATUS, PC, status);
    GetSet(regs, STATUS, SP, status);
    hide Get, Set, Okaddr;
  }

  /** NSAVE delivers again where notify did: same sp, same arg, the saved frame untouched, a Ureg pointer at 0(FP). */
  lemma SaveAgain(regs: Regs, mem: UserMem, space: Space, handler: U64, msg: seq<Byte>, cur: Regs, mem': UserMem,
    space': Space)
    requires Accessible(mem, space) && Accessible(mem', space') && |msg| == ERRMAX
    requires Notify(regs, mem, space, handler, msg).nureg.Some?
    requires Backed(mem', SaveAt(regs), UREGSIZE)
    requires Noted(cur, mem', space', SaveAt(regs), NSAVE).code == 0
    ensures var n, a := Notify(regs, mem, space, handler, msg), Noted(cur, mem', space', SaveAt(regs), NSAVE);
      && Get(a.regs, SP) == Get(n.regs, SP) && Get(a.regs, ARG) == Get(n.regs, ARG)
      && Get(a.regs, STATUS) == Get(cur, STATUS)
      && Backed(a.mem, SaveAt(regs), UREGSIZE)
          && Bytes(a.mem, SaveAt(regs), UREGSIZE) == Bytes(mem', SaveAt(regs), UREGSIZE)
      && Backed(a.mem, Get(a.regs, SP), 16) && Load(a.mem, Get(a.regs, SP)) == 0
          && Load(a.mem, Get(a.regs, SP) + 8) == SaveAt(regs)
  {
    hide *;
    Sizes();
    var at := SaveAt(regs);
    Delivered(regs, mem, space, handler, msg);
    HandlerStarts(regs, at, handler, SP);
    HandlerStarts(regs, at, handler, ARG);
    Saved(cur, mem', space', at);
    var back := SetRegisters(cur, 0, Bytes(mem', at, UREGSIZE));
    StatusKept(cur, 0, Bytes(mem', at, UREGSIZE));
    SaveRegs(back, at - 160, at);
    SaveStores(mem', at);
  }

  lemma SaveRegs(back: Regs, sp: U64, at: U64)
    ensures var r := Set(Set(back, SP, sp), ARG, at);
      Get(r, SP) == sp && Get(r, ARG) == at && Get(r, STATUS) == Get(back, STATUS)
  {
    GetSet(back, SP, STATUS, sp);
    GetSet(back, SP, SP, sp);
    GetSet(Set(back, SP, sp), ARG, STATUS, at);
    GetSet(Set(back, SP, sp), ARG, SP, at);
    GetSet(Set(back, SP, sp), ARG, ARG, at);
    hide Get, Set;
  }

  lemma SaveStores(mem: UserMem, at: U64)
    requires at >= 160 && Backed(mem, at - 160, 32) && Backed(mem, at, UREGSIZE)
    ensures Backed(mem, at - 152, 8) && Backed(Write(mem, at - 152, Le8(at)), at - 160, 8)
    ensures var m := Write(Write(mem, at - 152, Le8(at)), at - 160, Le8(0));
      && Backed(m, at, UREGSIZE) && Bytes(m, at, UREGSIZE) == Bytes(mem, at, UREGSIZE)
      && Backed(m, at - 160, 16) && Load(m, at - 160) == 0 && Load(m, at - 152) == at
  {
    var sp := at - 160;
    var m1 := Write(mem, sp + 8, Le8(at));
    WordBack(at);
    WordBack(0);
    WriteReads(mem, sp + 8, Le8(at), sp + 8, 8);
    WriteReads(mem, sp + 8, Le8(at), at, UREGSIZE);
    WriteReads(m1, sp, Le8(0), sp, 8);
    WriteReads(m1, sp, Le8(0), sp + 8, 8);
    WriteReads(m1, sp, Le8(0), at, UREGSIZE);
    hide Bytes, Write, Le8, Word8;
  }

  lemma Saved(cur: Regs, mem: UserMem, space: Space, nureg: U64)
    requires Accessible(mem, space) && Backed(mem, nureg, UREGSIZE) && nureg % 8 == 0 && nureg >= 160
    requires Noted(cur, mem, space, nureg, NSAVE).code == 0
    ensures var back, sp := SetRegisters(cur, 0, Bytes(mem, nureg, UREGSIZE)), nureg - 160;
      && Backed(mem, sp, 32) && Backed(mem, sp + 8, 8) && Backed(Write(mem, sp + 8, Le8(nureg)), sp, 8)
      && Noted(cur, mem, space, nureg, NSAVE) ==
           Answer(Set(Set(back, SP, sp), ARG, nureg), Write(Write(mem, sp + 8, Le8(nureg)), sp, Le8(0)), 0)
  {
    SubIs(nureg);
    var back := SetRegisters(cur, 0, Bytes(mem, nureg, UREGSIZE));
    SaveRoom(back, mem, space, nureg);
    hide SetRegisters, Bytes, Get, Set, Okaddr, Sub, Write, Le8;
  }

  lemma SubIs(at: U64)
    requires at >= 160
    ensures Sub(at, 4 * BY2WD + ERRMAX) == at - 160 && Sub(at, 160) == at - 160
  {
  }

  lemma SaveRoom(back: Regs, mem: UserMem, space: Space, nureg: U64)
    requires Accessible(mem, space) && nureg >= 160
    ensures Resavable(back, space, nureg) ==> Backed(mem, nureg - 160, 32) && Backed(mem, nureg - 152, 8)
    ensures Backed(mem, nureg - 160, 32) ==> Backed(Write(mem, nureg - 152, Le8(nureg)), nureg - 160, 8)
  {
    SubIs(nureg);
    hide Get, Le8;
  }

  /** status never changes: not through notify, and not through noted whatever bytes the handler left. */
  lemma StatusNeverChanges(regs: Regs, mem: UserMem, space: Space, handler: U64, msg: seq<Byte>, nureg: U64,
    arg0: NoteArg)
    requires Accessible(mem, space) && |msg| == ERRMAX && Backed(mem, nureg, UREGSIZE)
    ensures Get(Notify(regs, mem, space, handler, msg).regs, STATUS) == Get(regs, STATUS)
    ensures Get(Noted(regs, mem, space, nureg, arg0).regs, STATUS) == Get(regs, STATUS)
  {
    if Accepts(regs, space, handler) {
      FrameFits(regs, mem, space, handler);
      HandlerStarts(regs, SaveAt(regs), handler, STATUS);
    }
    StatusKept(regs, 0, Bytes(mem, nureg, UREGSIZE));
    var back := SetRegisters(regs, 0, Bytes(mem, nureg, UREGSIZE));
    SaveRegs(back, Sub(nureg, 160), nureg);
    hide Get, Set, Bytes, Write, HandlerRegs, SetRegisters, FrameMem, Resavable, Resumable, Accepts, SaveAt;
  }

  /** A note taken while a handler runs at or below the sp it was given leaves the outer frame alone. */
  lemma NestedFrame(regs: Regs, inner: Regs, mem: UserMem, space: Space, space': Space, handler: U64, msg: seq<Byte>,
    mem': UserMem)
    requires Accessible(mem, space) && Accessible(mem', space') && |msg| == ERRMAX
    requires Notify(regs, mem, space, handler, msg).nureg.Some?
    requires Get(inner, SP) <= Get(Notify(regs, mem, space, handler, msg).regs, SP)
    requires Notify(inner, mem', space', handler, msg).nureg.Some?
    requires Backed(mem', SaveAt(regs) - 160, 456)
    ensures var out, at := Notify(inner, mem', space', handler, msg).mem, SaveAt(regs);
      && SaveAt(inner) + UREGSIZE <= at - 160
      && Backed(out, at - 160, 456) && Bytes(out, at - 160, 456) == Bytes(mem', at - 160, 456)
  {
    hide *;
    Sizes();
    Delivered(regs, mem, space, handler, msg);
    Delivered(inner, mem', space', handler, msg);
    HandlerStarts(regs, SaveAt(regs), handler, SP);
    BelowSp(inner);
    FrameHolds(mem', SaveAt(inner), inner, msg);
    KeptBytes(mem', Notify(inner, mem', space', handler, msg).mem, SaveAt(regs) - 160, 456);
  }

  /** Near the bottom of the address space the frame would wrap to the top. */
  lemma BelowSp(regs: Regs)
    ensures SaveAt(regs) == Get(regs, SP) - 552 || SaveAt(regs) >= TWO64 - 552
  {
    hide Get;
    var sp := Get(regs, SP);
    if sp >= 552 {
      assert (sp - 552) % TWO64 == sp - 552;
    } else {
      assert (sp - 552) % TWO64 == sp - 552 + TWO64;
    }
  }

  lemma KeptBytes(mem: UserMem, out: UserMem, a: int, n: nat)
    requires Backed(mem, a, n) && out.Keys == mem.Keys && forall k :: k in mem && a <= k < a + n ==> out[k] == mem[k]
    ensures Backed(out, a, n) && Bytes(out, a, n) == Bytes(mem, a, n)
  {
  }
}
