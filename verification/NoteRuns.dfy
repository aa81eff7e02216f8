/** Notes inside notes: whatever the nesting, each return gives back the Ureg its own note interrupted. */
module NoteRuns {
  import opened NoteFrames
  import opened Notes

  /** The Uregs saved by the notes not yet returned from, oldest first, user memory, and what okaddr accepts now. */
  datatype Nest = Nest(saved: seq<Regs>, mem: UserMem, space: Space)

  /** A note interrupts regs; user code stores to memory; segments change; the youngest handler calls noted. */
  datatype NoteEvent =
    | Deliver(regs: Regs, handler: U64, msg: seq<Byte>)
    | UserStores(mem: UserMem)
    | Segments(space: Space)
    | Save(cur: Regs)           // noted(NSAVE)
    | Return                    // noted(NCONT)

  /** The lowest byte of a saved frame. */
  function Bottom(r: Regs): int { SaveAt(r) - 160 }

  function Youngest(s: Nest): Regs
    requires s.saved != []
  {
    s.saved[|s.saved| - 1]
  }

  /** User code may store anywhere, and take a note with any sp notify accepts. */
  ghost predicate CanStep(s: Nest, e: NoteEvent) {
    match e
    case Deliver(regs, handler, msg) => |msg| == ERRMAX && Accepts(regs, s.space, handler)
    case UserStores(mem) => mem.Keys == s.mem.Keys
    case Segments(space) => Accessible(s.mem, space)
    case Save(_) => s.saved != [] && Backed(s.mem, SaveAt(Youngest(s)), UREGSIZE)
    case Return => s.saved != []
  }

  /** r's saved copy is where notify put it. */
  ghost predicate Intact(mem: UserMem, r: Regs) {
    Backed(mem, SaveAt(r), UREGSIZE) && Bytes(mem, SaveAt(r), UREGSIZE) == r
  }

  function Step(s: Nest, e: NoteEvent): Nest
    requires Accessible(s.mem, s.space) && CanStep(s, e)
  {
    match e
    case Deliver(regs, handler, msg) =>
      s.(saved := s.saved + [regs], mem := Notify(regs, s.mem, s.space, handler, msg).mem)
    case UserStores(mem) => s.(mem := mem)
    case Segments(space) => s.(space := space)
    case Save(cur) => s.(mem := Noted(cur, s.mem, s.space, SaveAt(Youngest(s)), NSAVE).mem)
    case Return => s.(saved := s.saved[..|s.saved| - 1])
  }

  // ----- what every state keeps -----

  /** Every saved frame is aligned and in memory. */
  ghost predicate NestOk(s: Nest) {
    Accessible(s.mem, s.space) && forall i :: 0 <= i < |s.saved| ==> FrameOk(s.mem, s.saved[i])
  }

  ghost predicate FrameOk(mem: UserMem, r: Regs) {
    Backed(mem, Bottom(r), 456) && SaveAt(r) % 8 == 0 && Bottom(r) >= 0
  }

  lemma StepKeeps(s: Nest, e: NoteEvent)
    requires NestOk(s) && CanStep(s, e)
    ensures NestOk(Step(s, e))
  {
    hide *;
    NestIs(s);
    StepKeys(s, e);
    match e {
      case Deliver(regs, handler, msg) =>
        Sizes();
        Accepted(s, regs, handler, msg);
        FrameOkIf(s.mem, regs);
        Pushed(s, regs, Step(s, e).mem);
      case Segments(space) => SameNest(s, s.mem, space);
      case Return => Popped(s);
      case _ => SameNest(s, Step(s, e).mem, s.space);
    }
  }

  /** What a step does apart from the bytes it stores. */
  lemma StepKeys(s: Nest, e: NoteEvent)
    requires NestOk(s) && CanStep(s, e) && Accessible(s.mem, s.space)
    ensures var s' := Step(s, e);
      && s'.mem.Keys == s.mem.Keys
      && (e.Deliver? ==> s' == Nest(s.saved + [e.regs], s'.mem, s.space))
      && (e.UserStores? || e.Save? ==> s' == Nest(s.saved, s'.mem, s.space))
      && (e.Segments? ==> s' == Nest(s.saved, s.mem, e.space) && Accessible(s.mem, e.space))
      && (e.Return? ==> s.saved != [] && s' == Nest(s.saved[..|s.saved| - 1], s.mem, s.space))
  {
    if e.Deliver? {
      hide *;
      Sizes();
      Accepted(s, e.regs, e.handler, e.msg);
      FrameHolds(s.mem, SaveAt(e.regs), e.regs, e.msg);
    } else if e.Save? {
      hide *;
      SaveIs(s, e.cur);
      SaveStoresIn(s, e.cur);
    } else {
      hide NestOk, Accessible, Backed, SaveAt, Noted, Notify, Accepts;
    }
  }

  lemma NestIs(s: Nest)
    requires NestOk(s)
    ensures Accessible(s.mem, s.space)
  {
  }

  lemma SaveIs(s: Nest, cur: Regs)
    requires Accessible(s.mem, s.space) && CanStep(s, Save(cur))
    ensures s.saved != [] && Backed(s.mem, SaveAt(s.saved[|s.saved| - 1]), UREGSIZE)
    ensures Step(s, Save(cur)) ==
      Nest(s.saved, Noted(cur, s.mem, s.space, SaveAt(s.saved[|s.saved| - 1]), NSAVE).mem, s.space)
  {
    hide Noted, SaveAt, Backed;
  }

  /** What NSAVE stores lies between the youngest frame's bottom and its saved Ureg. */
  lemma SaveStoresIn(s: Nest, cur: Regs)
    requires NestOk(s) && s.saved != [] && Backed(s.mem, SaveAt(s.saved[|s.saved| - 1]), UREGSIZE)
    requires Accessible(s.mem, s.space)
    ensures var at := SaveAt(s.saved[|s.saved| - 1]);
      var mem := Noted(cur, s.mem, s.space, at, NSAVE).mem;
      mem.Keys == s.mem.Keys && forall k :: k in s.mem && !(at - 160 <= k < at) ==> mem[k] == s.mem[k]
  {
    hide *;
    Sizes();
    var n := |s.saved| - 1;
    SavedParts(s, n);
    var at := SaveAt(s.saved[n]);
    if Noted(cur, s.mem, s.space, at, NSAVE).code == 0 {
      Notes.Saved(cur, s.mem, s.space, at);
      WriteOnly(s.mem, at - 152, Le8(at));
      WriteOnly(Write(s.mem, at - 152, Le8(at)), at - 160, Le8(0));
    } else {
      SaveRefused(cur, s.mem, s.space, at);
    }
  }

  lemma WriteOnly(mem: UserMem, a: int, bs: seq<Byte>)
    requires Backed(mem, a, |bs|)
    ensures Write(mem, a, bs).Keys == mem.Keys
    ensures forall k :: k in mem && !(a <= k < a + |bs|) ==> Write(mem, a, bs)[k] == mem[k]
  {
  }

  lemma SaveRefused(cur: Regs, mem: UserMem, space: Space, nureg: U64)
    requires Accessible(mem, space) && Backed(mem, nureg, UREGSIZE) && Noted(cur, mem, space, nureg, NSAVE).code != 0
    ensures Noted(cur, mem, space, nureg, NSAVE).mem == mem
  {
    hide SetRegisters, Bytes, Resavable, Backed, Write, Set;
  }

  lemma BackedStill(mem: UserMem, out: UserMem, a: int, n: nat)
    requires Backed(mem, a, n) && out.Keys == mem.Keys
    ensures Backed(out, a, n)
  {
  }

  lemma SavedParts(s: Nest, i: nat)
    requires NestOk(s) && i < |s.saved|
    ensures var r := s.saved[i];
      && Backed(s.mem, SaveAt(r), UREGSIZE) && Backed(s.mem, Bottom(r), 456)
      && SaveAt(r) % 8 == 0 && Bottom(r) == SaveAt(r) - 160 && Bottom(r) >= 0
  {
    assert FrameOk(s.mem, s.saved[i]);
    hide SaveAt;
  }

  lemma FrameOkIf(mem: UserMem, r: Regs)
    requires Backed(mem, SaveAt(r) - 160, 456) && SaveAt(r) % 8 == 0 && SaveAt(r) >= 160
    ensures FrameOk(mem, r)
  {
    hide SaveAt, Backed;
  }

  lemma SameFrames(s: Nest, mem: UserMem)
    requires NestOk(s) && mem.Keys == s.mem.Keys
    ensures forall i :: 0 <= i < |s.saved| ==> FrameOk(mem, s.saved[i])
  {
    forall i | 0 <= i < |s.saved| ensures FrameOk(mem, s.saved[i]) {
      assert FrameOk(s.mem, s.saved[i]);
      BackedStill(s.mem, mem, Bottom(s.saved[i]), 456);
      hide Backed, SaveAt;
    }
  }

  lemma SameNest(s: Nest, mem: UserMem, space: Space)
    requires NestOk(s) && mem.Keys == s.mem.Keys && Accessible(s.mem, space)
    ensures NestOk(Nest(s.saved, mem, space))
  {
    SameFrames(s, mem);
    hide FrameOk;
  }

  lemma Pushed(s: Nest, regs: Regs, mem: UserMem)
    requires NestOk(s) && mem.Keys == s.mem.Keys && FrameOk(s.mem, regs)
    ensures NestOk(Nest(s.saved + [regs], mem, s.space))
  {
    SameFrames(s, mem);
    BackedStill(s.mem, mem, Bottom(regs), 456);
    hide Backed, SaveAt, Bottom;
  }

  lemma Popped(s: Nest)
    requires NestOk(s) && s.saved != []
    ensures NestOk(Nest(s.saved[..|s.saved| - 1], s.mem, s.space))
  {
    hide FrameOk;
  }

  lemma Accepted(s: Nest, regs: Regs, handler: U64, msg: seq<Byte>)
    requires NestOk(s) && CanStep(s, Deliver(regs, handler, msg))
    ensures |msg| == ERRMAX && 160 <= SaveAt(regs) && SaveAt(regs) % 8 == 0 && SaveAt(regs) + UREGSIZE <= USTKTOP
    ensures Backed(s.mem, SaveAt(regs) - 160, 456)
    ensures Step(s, Deliver(regs, handler, msg)) ==
      Nest(s.saved + [regs], FrameMem(s.mem, SaveAt(regs), regs, msg), s.space)
  {
    FrameFits(regs, s.mem, s.space, handler);
    assert Notify(regs, s.mem, s.space, handler, msg).nureg.Some?;
    Delivered(regs, s.mem, s.space, handler, msg);
    hide Notify, FrameMem, HandlerRegs, SaveAt, Okaddr, Bytes, Get;
  }

  // ----- who may harm a saved Ureg -----

  predicate AwayFrom(a: int, n: nat, b: int, m: nat) { a + n <= b || b + m <= a }

  /** The event stores nothing over the k-th saved Ureg. */
  ghost predicate Leaves(s: Nest, e: NoteEvent, k: nat)
    requires k < |s.saved|
  {
    var at := SaveAt(s.saved[k]);
    match e
    case UserStores(mem) => Backed(mem, at, UREGSIZE) && Backed(s.mem, at, UREGSIZE)
        && Bytes(mem, at, UREGSIZE) == Bytes(s.mem, at, UREGSIZE)
    case Deliver(regs, _, _) => AwayFrom(Bottom(regs), 456, at, UREGSIZE)
    case Save(_) => AwayFrom(Bottom(Youngest(s)), 160, at, UREGSIZE)
    case _ => true
  }

  /** What an event leaves alone stays as it was. */
  lemma StepKeepsSaved(s: Nest, e: NoteEvent, k: nat)
    requires NestOk(s) && CanStep(s, e) && k < |s.saved| && Leaves(s, e, k)
    ensures Accessible(s.mem, s.space)
    ensures var at, mem := SaveAt(s.saved[k]), Step(s, e).mem;
      && Backed(s.mem, at, UREGSIZE) && Backed(mem, at, UREGSIZE)
      && Bytes(mem, at, UREGSIZE) == Bytes(s.mem, at, UREGSIZE)
  {
    NestIs(s);
    var at := SaveAt(s.saved[k]);
    match e {
      case Deliver(regs, handler, msg) =>
        hide *;
        Sizes();
        SavedParts(s, k);
        Accepted(s, regs, handler, msg);
        FrameHolds(s.mem, SaveAt(regs), regs, msg);
        LeftByDeliver(s, regs, handler, msg, k);
        KeptBytes(s.mem, Step(s, e).mem, at, UREGSIZE);
      case Save(cur) =>
        hide *;
        SavedParts(s, k);
        SaveIs(s, cur);
        SaveStoresIn(s, cur);
        LeftBySave(s, cur, k);
        KeptBytes(s.mem, Step(s, e).mem, at, UREGSIZE);
      case _ =>
        SavedParts(s, k);
        hide NestOk, Accessible, Backed, Bytes, SaveAt, Noted, Notify, Accepts;
    }
  }

  lemma LeftByDeliver(s: Nest, regs: Regs, handler: U64, msg: seq<Byte>, k: nat)
    requires k < |s.saved| && Leaves(s, Deliver(regs, handler, msg), k)
    ensures SaveAt(regs) + 296 <= SaveAt(s.saved[k]) || SaveAt(s.saved[k]) + UREGSIZE <= SaveAt(regs) - 160
  {
    hide SaveAt;
  }

  lemma LeftBySave(s: Nest, cur: Regs, k: nat)
    requires k < |s.saved| && Leaves(s, Save(cur), k)
    ensures var top, at := SaveAt(s.saved[|s.saved| - 1]), SaveAt(s.saved[k]); top <= at || at + UREGSIZE <= top - 160
  {
    hide SaveAt;
  }

  // ----- runs -----

  ghost predicate CanRun(s: Nest, es: seq<NoteEvent>)
    decreases |es|
  {
    es == [] || (Accessible(s.mem, s.space) && CanStep(s, es[0])
      && CanRun(Step(s, es[0]), es[1..]))
  }

  function Run(s: Nest, es: seq<NoteEvent>): Nest
    requires CanRun(s, es)
    decreases |es|
  {
    if es == [] then s else Run(Step(s, es[0]), es[1..])
  }

  /** Throughout the run the k-th saved Ureg is not returned from, and nothing stores over it. */
  ghost predicate LeavesAll(s: Nest, es: seq<NoteEvent>, k: nat)
    requires CanRun(s, es)
    decreases |es|
  {
    k < |s.saved| && (es != [] ==> Leaves(s, es[0], k) && LeavesAll(Step(s, es[0]), es[1..], k))
  }

  lemma StepSaved(s: Nest, e: NoteEvent, k: nat)
    requires Accessible(s.mem, s.space) && CanStep(s, e) && k < |s.saved| && k < |Step(s, e).saved|
    ensures Step(s, e).saved[k] == s.saved[k]
  {
    hide Accessible, Backed, SaveAt, Noted, Notify, Accepts;
  }

  /** In every run every frame stays in memory, and a saved Ureg nothing stores over keeps every byte. */
  lemma {:induction false} RunKeeps(s: Nest, es: seq<NoteEvent>, k: nat)
    requires NestOk(s) && CanRun(s, es)
    ensures NestOk(Run(s, es))
    ensures LeavesAll(s, es, k) ==>
      && k < |Run(s, es).saved| && Run(s, es).saved[k] == s.saved[k]
      && var at := SaveAt(s.saved[k]);
         && Backed(s.mem, at, UREGSIZE) && Backed(Run(s, es).mem, at, UREGSIZE)
         && Bytes(Run(s, es).mem, at, UREGSIZE) == Bytes(s.mem, at, UREGSIZE)
    decreases |es|
  {
    hide NestOk, SaveAt, Backed, Bytes, Accessible, CanStep, Step, Leaves;
    if es != [] {
      StepKeeps(s, es[0]);
      RunKeeps(Step(s, es[0]), es[1..], k);
      if LeavesAll(s, es, k) {
        assert LeavesAll(Step(s, es[0]), es[1..], k);
        StepKeepsSaved(s, es[0], k);
        StepSaved(s, es[0], k);
      }
    } else if k < |s.saved| {
      SavedParts(s, k);
    }
  }

  // ----- handlers on the stack they were given -----

  /** A note finds user code at or below the sp the youngest handler was given. */
  ghost predicate Orderly(s: Nest, e: NoteEvent) {
    e.Deliver? && s.saved != [] ==> Get(e.regs, SP) <= Bottom(Youngest(s))
  }

  ghost predicate Stacked(s: Nest) {
    forall i, j :: 0 <= i < j < |s.saved| ==> SaveAt(s.saved[j]) + UREGSIZE <= Bottom(s.saved[i])
  }

  lemma StackedTop(s: Nest, k: nat)
    requires Stacked(s) && k < |s.saved|
    ensures k < |s.saved| - 1 ==> SaveAt(Youngest(s)) + UREGSIZE <= Bottom(s.saved[k])
    ensures Bottom(Youngest(s)) <= Bottom(s.saved[k])
  {
    hide SaveAt;
  }

  /** Such a note's frame lies below every other, and neither it nor NSAVE touches a saved Ureg. */
  lemma OrderlyLeaves(s: Nest, e: NoteEvent, k: nat)
    requires NestOk(s) && Stacked(s) && CanStep(s, e) && Orderly(s, e) && k < |s.saved|
    ensures !e.UserStores? ==> Leaves(s, e, k)
    ensures e.Deliver? ==> SaveAt(e.regs) + UREGSIZE <= Bottom(s.saved[k])
  {
    StackedTop(s, k);
    NestIs(s);
    if e.Deliver? {
      assert Get(e.regs, SP) <= Bottom(Youngest(s));
      Accepted(s, e.regs, e.handler, e.msg);
      BelowSp(e.regs);
    }
    hide SaveAt, NestOk, Stacked, Accessible, Accepts, Get, Backed;
  }

  lemma StackedKeeps(s: Nest, e: NoteEvent)
    requires NestOk(s) && Stacked(s) && CanStep(s, e) && Orderly(s, e)
    ensures Accessible(s.mem, s.space) && Stacked(Step(s, e))
  {
    hide *;
    NestIs(s);
    StepKeys(s, e);
    if e.Deliver? {
      forall i | 0 <= i < |s.saved| ensures SaveAt(e.regs) + UREGSIZE <= Bottom(s.saved[i]) {
        OrderlyLeaves(s, e, i);
      }
      StackedPush(s, e.regs, Step(s, e).mem);
    } else {
      StackedSame(s, Step(s, e));
    }
  }

  lemma StackedPush(s: Nest, regs: Regs, mem: UserMem)
    requires Stacked(s) && forall i :: 0 <= i < |s.saved| ==> SaveAt(regs) + UREGSIZE <= Bottom(s.saved[i])
    ensures Stacked(Nest(s.saved + [regs], mem, s.space))
  {
    hide SaveAt, Bottom;
  }

  lemma StackedSame(s: Nest, s': Nest)
    requires Stacked(s) && (s'.saved == s.saved || (s.saved != [] && s'.saved == s.saved[..|s.saved| - 1]))
    ensures Stacked(s')
  {
    hide SaveAt, Bottom;
  }

  /**
   Handlers stay on the stack they were given, user stores leave the k-th saved Ureg alone, no return goes past it.
   */
  ghost predicate Disciplined(s: Nest, es: seq<NoteEvent>, k: nat)
    requires CanRun(s, es)
    decreases |es|
  {
    k < |s.saved| && (es != [] ==>
      && Orderly(s, es[0]) && (es[0].UserStores? ==> Leaves(s, es[0], k))
      && Disciplined(Step(s, es[0]), es[1..], k))
  }

  /** Then the kernel's own stores, for any notes and any NSAVE, leave it alone too. */
  lemma {:induction false} DisciplinedLeaves(s: Nest, es: seq<NoteEvent>, k: nat)
    requires NestOk(s) && Stacked(s) && CanRun(s, es) && Disciplined(s, es, k)
    ensures LeavesAll(s, es, k)
    decreases |es|
  {
    hide NestOk, Stacked, SaveAt, Accessible, CanStep, Step, Leaves, Orderly;
    if es != [] {
      if !es[0].UserStores? { OrderlyLeaves(s, es[0], k); }
      StepKeeps(s, es[0]);
      StackedKeeps(s, es[0]);
      DisciplinedLeaves(Step(s, es[0]), es[1..], k);
    }
  }

  // ----- returns -----

  /** A handler whose saved Ureg is intact gets back, status apart, what its note interrupted. */
  lemma ReturnRestores(s: Nest, cur: Regs)
    requires NestOk(s) && s.saved != [] && Intact(s.mem, s.saved[|s.saved| - 1])
    ensures var top := s.saved[|s.saved| - 1];
      && Backed(s.mem, SaveAt(top), UREGSIZE)
      && var a := Noted(cur, s.mem, s.space, SaveAt(top), NCONT);
         && a.regs == WithStatus(top, Get(cur, STATUS)) && a.mem == s.mem
         && (a.code == 0 <==>
               && Okaddr(s.space, Get(top, 0), 8, false) && Okaddr(s.space, Get(top, 2), 8, false)
               && Get(top, 0) % 2 == 0 && Get(top, 2) % 8 == 0)
  {
    var top := s.saved[|s.saved| - 1];
    hide *;
    IntactParts(s.mem, top);
    TopAligned(s);
    Continued(cur, s.mem, s.space, SaveAt(top), NCONT);
    StatusBytes(cur, top);
    SameResume(top, Get(cur, STATUS), s.space);
    ResumableIff(top, s.space);
  }

  /** At any depth of nesting NSAVE restarts the youngest handler with the sp and arg its own note gave it. */
  lemma SaveRestarts(s: Nest, cur: Regs)
    requires NestOk(s) && s.saved != [] && Intact(s.mem, s.saved[|s.saved| - 1])
    ensures var top := s.saved[|s.saved| - 1];
      && Backed(s.mem, SaveAt(top), UREGSIZE)
      && var a := Noted(cur, s.mem, s.space, SaveAt(top), NSAVE);
         && (a.code == 0 ==> Get(a.regs, SP) == Bottom(top) && Get(a.regs, ARG) == SaveAt(top))
         && (a.code == 0 <==> Okaddr(s.space, Get(top, PC), BY2WD, false) && Get(top, PC) % 2 == 0
                              && Okaddr(s.space, Bottom(top), 4 * BY2WD, true))
  {
    hide *;
    Sizes();
    var top, at := s.saved[|s.saved| - 1], SaveAt(s.saved[|s.saved| - 1]);
    SavedParts(s, |s.saved| - 1);
    IntactParts(s.mem, top);
    NestIs(s);
    SaveDecides(cur, s.mem, s.space, at);
    StatusBytes(cur, top);
    WithStatusIs(top, Get(cur, STATUS));
    GetSet(top, STATUS, PC, Get(cur, STATUS));
    if Noted(cur, s.mem, s.space, at, NSAVE).code == 0 {
      Notes.Saved(cur, s.mem, s.space, at);
      SaveRegs(WithStatus(top, Get(cur, STATUS)), at - 160, at);
    }
  }

  lemma IntactParts(mem: UserMem, r: Regs)
    requires Intact(mem, r)
    ensures Backed(mem, SaveAt(r), UREGSIZE) && Bytes(mem, SaveAt(r), UREGSIZE) == r
  {
  }

  lemma TopAligned(s: Nest)
    requires NestOk(s) && s.saved != []
    ensures SaveAt(s.saved[|s.saved| - 1]) % 8 == 0 && Accessible(s.mem, s.space)
  {
    assert FrameOk(s.mem, s.saved[|s.saved| - 1]);
  }

  /**
   A note, then anything that does not store over the Ureg it saved - notes within notes, NSAVE, returns from them,
   changes of segments - then its own return: the interrupted Ureg is back, status apart.
   */
  lemma NoteThenReturn(s: Nest, regs: Regs, handler: U64, msg: seq<Byte>, es: seq<NoteEvent>, cur: Regs)
    requires NestOk(s) && Accessible(s.mem, s.space) && CanStep(s, Deliver(regs, handler, msg))
    requires var s1 := Step(s, Deliver(regs, handler, msg));
      CanRun(s1, es) && LeavesAll(s1, es, |s.saved|) && |Run(s1, es).saved| == |s.saved| + 1
    ensures var s2 := Run(Step(s, Deliver(regs, handler, msg)), es);
      && NestOk(s2) && s2.saved[|s.saved|] == regs && Backed(s2.mem, SaveAt(regs), UREGSIZE)
      && var a := Noted(cur, s2.mem, s2.space, SaveAt(regs), NCONT);
         && a.regs == WithStatus(regs, Get(cur, STATUS)) && a.mem == s2.mem
         && (a.code == 0 <==>
               && Okaddr(s2.space, Get(regs, 0), 8, false) && Okaddr(s2.space, Get(regs, 2), 8, false)
               && Get(regs, 0) % 2 == 0 && Get(regs, 2) % 8 == 0)
  {
    hide *;
    Sizes();
    var e := Deliver(regs, handler, msg);
    var s1 := Step(s, e);
    var s2 := Run(s1, es);
    Accepted(s, regs, handler, msg);
    FrameHolds(s.mem, SaveAt(regs), regs, msg);
    StepKeeps(s, e);
    RunKeeps(s1, es, |s.saved|);
    IntactIf(s2.mem, regs);
    ReturnRestores(s2, cur);
  }

  lemma IntactIf(mem: UserMem, r: Regs)
    requires Backed(mem, SaveAt(r), UREGSIZE) && Bytes(mem, SaveAt(r), UREGSIZE) == r
    ensures Intact(mem, r)
  {
  }
}
