/** notify, noted and setregisters as trap.c runs them, storing into the Ureg and into user memory. */
module NoteCalls {
  import opened Lists
  import opened NoteFrames
  import opened Notes

  /** A process as its notes see it: user memory, what okaddr accepts, and up->notify. */
  class Up {
    var mem: UserMem
    var space: Space
    var notify: U64

    ghost predicate Valid()
      reads this
    {
      Accessible(mem, space)
    }

    /** memmove to user memory. */
    method Copyout(a: int, data: seq<Byte>)
      requires Backed(mem, a, |data|)
      modifies this`mem
      ensures mem == Write(old(mem), a, data) && mem.Keys == old(mem).Keys
    {
      var i := 0;
      while i < |data|
        invariant 0 <= i <= |data| && mem.Keys == old(mem).Keys
        invariant forall k :: k in mem ==> mem[k] == if a <= k < a + i then data[k - a] else old(mem)[k]
      {
        mem := mem[a + i := data[i]];
        i := i + 1;
      }
    }

    method StoreWord(a: int, w: U64)
      requires Backed(mem, a, 8)
      modifies this`mem
      ensures mem == Write(old(mem), a, Le8(w)) && mem.Keys == old(mem).Keys
    {
      Copyout(a, Le8(w));
    }

    /** The Ureg, the message and the two pointers, from the top down. */
    method PushFrame(at: U64, regs: Regs, msg: seq<Byte>)
      requires |msg| == ERRMAX && 160 <= at && Backed(mem, at - 160, 456)
      modifies this`mem
      ensures mem == FrameMem(old(mem), at, regs, msg) && mem.Keys == old(mem).Keys
    {
      hide Write, Le8;
      Copyout(at, regs);
      var sp := at - (BY2WD + ERRMAX);
      Copyout(sp, msg);
      sp := sp - 3 * BY2WD;
      StoreWord(sp + 2 * BY2WD, sp + 3 * BY2WD);
      StoreWord(sp + BY2WD, at);
    }

    /** Deliver a note: None when the frame may not be stored or the handler's address is odd. */
    method Notify(ureg: array<Byte>, msg: seq<Byte>) returns (nureg: Option<U64>)
      requires Valid() && ureg.Length == UREGSIZE && |msg| == ERRMAX
      modifies this`mem, ureg
      ensures Valid()
      ensures Notes.Notify(old(ureg[..]), old(mem), space, notify, msg) == Outcome(ureg[..], mem, nureg)
    {
      hide *;
      Sizes();
      Opened();
      ghost var regs: Regs, was := ureg[..], mem;
      var at := Sub(Sub(Field(ureg, SP), 256), UREGSIZE);
      SaveAtIs(ureg, at);
      NotifyIs(regs, was, space, notify, msg);
      if !Okaddr(space, Sub(at, ERRMAX + 4 * BY2WD), UREGSIZE + ERRMAX + 4 * BY2WD, true)
        || notify % 2 != 0 || at % 8 != 0
      {
        return None;
      }
      FrameFits(regs, was, space, notify);
      PushFrame(at, ureg[..], msg);
      EnterHandler(ureg, at, at - 160, notify);
      Closed(was);
      nureg := Some(at);
    }

    lemma Opened()
      requires Valid()
      ensures Accessible(mem, space)
    {
    }

    lemma Closed(was: UserMem)
      requires Accessible(was, space) && mem.Keys == was.Keys
      ensures Valid()
    {
    }

    /** NSAVE: the handler of the Ureg at nureg is to run again. */
    method Resave(ureg: array<Byte>, nureg: U64) returns (r: int)
      requires Valid() && ureg.Length == UREGSIZE && Backed(mem, nureg, UREGSIZE)
      modifies this`mem, ureg
      ensures Valid()
      ensures Resaved(old(ureg[..]), old(mem), space, nureg) == Answer(ureg[..], mem, r)
    {
      ghost var back: Regs := ureg[..];
      var sp := Sub(nureg, 4 * BY2WD + ERRMAX);
      hide Get, Set, Okaddr, Backed, Bytes, Write, Le8, Sub;
      if !Okaddr(space, Field(ureg, PC), BY2WD, false) || !Okaddr(space, sp, 4 * BY2WD, true)
        || Field(ureg, PC) % 2 != 0 || sp % 8 != 0 {
        return -1;
      }
      SetField(ureg, SP, sp);
      SetField(ureg, ARG, nureg);
      SaveBacked(mem, space, sp);
      StoreWord(sp + BY2WD, nureg);
      SaveBacked(mem, space, sp);
      StoreWord(sp, 0);
      return 0;
    }

    /** Return from a note; a Ureg pointer that is not aligned is refused before anything is copied. */
    method Noted(ureg: array<Byte>, nureg: U64, arg0: NoteArg) returns (r: int)
      requires Valid() && ureg.Length == UREGSIZE && Backed(mem, nureg, UREGSIZE)
      modifies this`mem, ureg
      ensures Valid()
      ensures Notes.Noted(old(ureg[..]), old(mem), space, nureg, arg0) == Answer(ureg[..], mem, r)
      ensures nureg % 8 != 0 ==> r == -1 && ureg[..] == old(ureg[..]) && mem == old(mem)
      ensures nureg % 8 == 0 && (arg0 == NCONT || arg0 == NRSTR) ==>
                var pc, sp := Get(ureg[..], 0), Get(ureg[..], 2);
                r == 0 <==> Okaddr(space, pc, 8, false) && Okaddr(space, sp, 8, false) && pc % 2 == 0 && sp % 8 == 0
    {
      hide SetRegisters, Get, Okaddr, Backed, Bytes, Resaved;
      if nureg % 8 != 0 {
        return -1;
      }
      Setregisters(ureg, 0, Bytes(mem, nureg, UREGSIZE));
      match arg0 {
        case OtherArg =>
        case NSAVE => r := Resave(ureg, nureg); return;
        case _ =>
          if !Okaddr(space, Field(ureg, PC), BY2WD, false) || !Okaddr(space, Field(ureg, SP), BY2WD, false)
            || Field(ureg, PC) % 2 != 0 || Field(ureg, SP) % 8 != 0 {
            return -1;
          }
      }
      return 0;
    }
  }

  lemma SaveBacked(mem: UserMem, space: Space, sp: U64)
    requires Accessible(mem, space) && Okaddr(space, sp, 4 * BY2WD, true)
    ensures Backed(mem, sp, 4 * BY2WD) && Backed(mem, sp, 8) && Backed(mem, sp + BY2WD, 8)
  {
  }

  /** notify's two outcomes. */
  lemma NotifyIs(regs: Regs, mem: UserMem, space: Space, handler: U64, msg: seq<Byte>)
    requires Accessible(mem, space) && |msg| == ERRMAX
    ensures var at := SaveAt(regs);
      && Accepts(regs, space, handler) ==
           (Okaddr(space, Sub(at, ERRMAX + 4 * BY2WD), UREGSIZE + ERRMAX + 4 * BY2WD, true) && handler % 2 == 0
             && at % 8 == 0)
      && (!Accepts(regs, space, handler) ==> Notify(regs, mem, space, handler, msg) == Outcome(regs, mem, None))
      && (Accepts(regs, space, handler) ==>
            && at >= 160 && Backed(mem, at - 160, 456)
            && Notify(regs, mem, space, handler, msg) ==
                Outcome(HandlerRegs(regs, at, handler), FrameMem(mem, at, regs, msg), Some(at)))
  {
    if Accepts(regs, space, handler) {
      FrameFits(regs, mem, space, handler);
    }
    hide Okaddr, HandlerRegs, FrameMem, SaveAt, Backed, Accessible, Sub;
  }

  method EnterHandler(ureg: array<Byte>, at: U64, sp: U64, notify: U64)
    requires ureg.Length == UREGSIZE && at >= 160 && sp == at - 160
    modifies ureg
    ensures ureg[..] == HandlerRegs(old(ureg[..]), at, notify)
  {
    hide Set;
    SetField(ureg, ARG, at);
    SetField(ureg, SP, sp);
    SetField(ureg, PC, notify);
    SetField(ureg, R1, 0);
  }

  function Field(ureg: array<Byte>, i: nat): U64
    requires ureg.Length == UREGSIZE && i < 37
    reads ureg
  {
    Get(ureg[..], i)
  }

  /** memmove into a Ureg. */
  method Memmove(ureg: array<Byte>, off: nat, data: seq<Byte>)
    requires off + |data| <= ureg.Length
    modifies ureg
    ensures ureg[..] == Put(old(ureg[..]), off, data)
  {
    var i := 0;
    while i < |data|
      invariant 0 <= i <= |data|
      invariant forall k :: 0 <= k < ureg.Length ==>
        ureg[k] == if off <= k < off + i then data[k - off] else old(ureg[k])
    {
      ureg[off + i] := data[i];
      i := i + 1;
    }
  }

  method SetField(ureg: array<Byte>, i: nat, w: U64)
    requires ureg.Length == UREGSIZE && i < 37
    modifies ureg
    ensures ureg[..] == Set(old(ureg[..]), i, w)
  {
    Memmove(ureg, 8 * i, Le8(w));
  }

  /** Copy n bytes into a Ureg, putting status back. */
  method Setregisters(ureg: array<Byte>, off: nat, data: seq<Byte>)
    requires ureg.Length == UREGSIZE && off + |data| <= UREGSIZE
    modifies ureg
    ensures ureg[..] == SetRegisters(old(ureg[..]), off, data)
  {
    var status := Field(ureg, STATUS);
    Memmove(ureg, off, data);
    SetField(ureg, STATUS, status);
  }

  lemma SaveAtIs(ureg: array<Byte>, at: U64)
    requires ureg.Length == UREGSIZE && at == Sub(Sub(Field(ureg, SP), 256), UREGSIZE)
    ensures at == SaveAt(ureg[..])
  {
    hide Get;
  }
}
