/** fpunotify and fpunoted: what a note does to the floating-point context of the code it interrupts. */
module FpNotes {
  import opened FpSwitch

  /** One process while it runs: its save area and state, and the registers. */
  datatype Turn = Turn(fp: Pfpu, live: Context)

  /** What can reach its context between fpunotify and fpunoted, or between two notes. */
  datatype Event =
    | Write(ctx: Context)         // its own code changes its registers
    | Switched(found: Context)    // procsave, others leave found in the registers, procrestore

  function Step(s: Turn, e: Event): Turn {
    match e
    case Write(ctx) => s.(live := ctx)
    case Switched(found) =>
      var p := Saved(s.fp, s.live);
      Turn(Restored(p), Loaded(p, found))
  }

  function Run(s: Turn, es: seq<Event>): Turn
    decreases |es|
  {
    if es == [] then s else Run(Step(s, es[0]), es[1..])
  }

  function Unotified(p: Pfpu, live: Context): Pfpu {
    (if p.kind == FPactive && !p.notify then p.(save := live, kind := FPinactive) else p).(notify := true)
  }

  function Unoted(p: Pfpu): Pfpu { p.(notify := false) }

  /** The handler of a note taken in s runs es. */
  function InHandler(s: Turn, es: seq<Event>): Turn { Run(s.(fp := Unotified(s.fp, s.live)), es) }

  /** And has returned. */
  function AfterNote(s: Turn, es: seq<Event>): Turn {
    var t := InHandler(s, es);
    t.(fp := Unoted(t.fp))
  }

  // ----- what happened, said without fpstate -----

  predicate Switches(es: seq<Event>) { exists n :: 0 <= n < |es| && es[n].Switched? }

  /** What came after the first switch, or everything if there was none. */
  function Since(es: seq<Event>): (r: seq<Event>)
    ensures |r| <= |es|
  {
    if !Switches(es) then es else if es[0].Switched? then es[1..] else Since(es[1..])
  }

  /** The registers as code that owned them would have left them. */
  function Written(c: Context, es: seq<Event>): Context
    decreases |es|
  {
    if es == [] then c else Written(if es[0].Write? then es[0].ctx else c, es[1..])
  }

  /** Ordinary running: FPactive, not in a handler, not exiting. */
  predicate Ordinary(s: Turn) { s.fp.kind == FPactive && !s.fp.notify && !s.fp.moribund }

  // ----- what the code does -----

  /** While it is FPactive code finds its own registers across any switches. */
  lemma {:induction false} ActiveKeeps(s: Turn, es: seq<Event>)
    requires s.fp.kind == FPactive && !s.fp.moribund
    ensures Run(s, es).live == Written(s.live, es)
    ensures Run(s, es).fp.kind == FPactive && !Run(s, es).fp.moribund && Run(s, es).fp.notify == s.fp.notify
    decreases |es|
  {
    hide InitFp;
    if es != [] {
      ActiveKeeps(Step(s, es[0]), es[1..]);
    }
  }

  /** While it is FPinactive its registers are lost at the first switch, which loads the save area over them. */
  lemma {:induction false} InactiveLoses(s: Turn, es: seq<Event>)
    requires s.fp.kind == FPinactive && !s.fp.moribund
    ensures var t := Run(s, es);
      && t.live == Written(if Switches(es) then s.fp.save else s.live, Since(es))
      && t.fp.kind == (if Switches(es) then FPactive else FPinactive) && !t.fp.moribund && t.fp.notify == s.fp.notify
      && (!Switches(es) ==> t.fp.save == s.fp.save)
    decreases |es|
  {
    hide InitFp;
    if es == [] {
      return;
    }
    if es[0].Switched? {
      ActiveKeeps(Step(s, es[0]), es[1..]);
    } else {
      SwitchesTail(es);
      InactiveLoses(Step(s, es[0]), es[1..]);
    }
  }

  lemma SwitchesTail(es: seq<Event>)
    requires es != [] && !es[0].Switched?
    ensures Switches(es) <==> Switches(es[1..])
  {
    if Switches(es) {
      var n :| 0 <= n < |es| && es[n].Switched?;
      assert es[1..][n - 1].Switched?;
    }
    if Switches(es[1..]) {
      var n :| 0 <= n < |es[1..]| && es[1..][n].Switched?;
      assert es[n + 1].Switched?;
    }
  }

  /**
   fpunoted loads nothing, so the interrupted code finds its registers after the note if and only if what the handler
   wrote to them since its first switch, or at all if it was not switched, left them so.
   */
  lemma NoteKeepsIff(s: Turn, es: seq<Event>)
    requires Ordinary(s)
    ensures AfterNote(s, es).live == Written(s.live, Since(es))
    ensures AfterNote(s, es).live == s.live <==> Written(s.live, Since(es)) == s.live
  {
    InactiveLoses(s.(fp := Unotified(s.fp, s.live)), es);
  }

  /** The handler's own registers survive its first switch if and only if they are those it was entered with. */
  lemma HandlerKeepsIff(s: Turn, es: seq<Event>, found: Context)
    requires Ordinary(s) && !Switches(es)
    ensures Step(InHandler(s, es), Switched(found)).live == s.live
    ensures Step(InHandler(s, es), Switched(found)).live == InHandler(s, es).live <==> Written(s.live, es) == s.live
  {
    InactiveLoses(s.(fp := Unotified(s.fp, s.live)), es);
  }

  /**
   After the note the interrupted code's registers survive its own next switch if and only if the handler was switched,
   or they are still those the note interrupted.
   */
  lemma ResumedKeepsIff(s: Turn, es: seq<Event>, more: seq<Event>, found: Context)
    requires Ordinary(s) && !Switches(more)
    ensures var t := Run(AfterNote(s, es), more);
      && t.live == Written(Written(s.live, Since(es)), more)
      && (Step(t, Switched(found)).live == t.live <==> Switches(es) || t.live == s.live)
  {
    hide InitFp;
    InactiveLoses(s.(fp := Unotified(s.fp, s.live)), es);
    var t := AfterNote(s, es);
    if Switches(es) {
      ActiveKeeps(t, more);
    } else {
      InactiveLoses(t, more);
    }
  }

  /** The save area after es, from registers live and a save area save, if every switch stores into it. */
  function LastSaved(save: Context, live: Context, es: seq<Event>): Context
    decreases |es|
  {
    if es == [] then save
    else if es[0].Write? then LastSaved(save, es[0].ctx, es[1..])
    else LastSaved(live, live, es[1..])
  }

  lemma {:induction false} ActiveSaves(s: Turn, es: seq<Event>)
    requires s.fp.kind == FPactive && !s.fp.moribund
    ensures Run(s, es).fp.save == LastSaved(s.fp.save, s.live, es)
    decreases |es|
  {
    hide InitFp;
    if es != [] {
      ActiveSaves(Step(s, es[0]), es[1..]);
    }
  }

  lemma {:induction false} InactiveSaves(s: Turn, es: seq<Event>)
    requires s.fp.kind == FPinactive && !s.fp.moribund
    ensures Run(s, es).fp.save == if Switches(es) then LastSaved(s.fp.save, s.fp.save, Since(es)) else s.fp.save
    decreases |es|
  {
    hide InitFp;
    if es == [] {
      return;
    }
    if es[0].Switched? {
      ActiveSaves(Step(s, es[0]), es[1..]);
    } else {
      SwitchesTail(es);
      InactiveSaves(Step(s, es[0]), es[1..]);
    }
  }

  /**
   FPnotify is set while a handler runs, so a note inside it saves nothing: state, registers and save area stay.  The
   save area holds the interrupted registers until the handler's second switch, and from then on what the handler had
   in the registers at its latest; the inner fpunoted clears FPnotify for the outer handler too.
   */
  lemma NestedNote(s: Turn, es: seq<Event>)
    requires Ordinary(s)
    ensures var t := InHandler(s, es);
      && t.fp.notify && Unotified(t.fp, t.live) == t.fp
      && t.fp.save == (if Switches(es) then LastSaved(s.live, s.live, Since(es)) else s.live)
      && !AfterNote(t, []).fp.notify && AfterNote(t, []).live == t.live && AfterNote(t, []).fp.save == t.fp.save
  {
    InactiveLoses(s.(fp := Unotified(s.fp, s.live)), es);
    InactiveSaves(s.(fp := Unotified(s.fp, s.live)), es);
  }

  /** A note whose handler computes and is not switched: its registers reach the interrupted code. */
  lemma NoteLoses(s: Turn, c: Context)
    requires Ordinary(s) && c != s.live
    ensures AfterNote(s, [Write(c)]).live == c != s.live
  {
    NoteKeepsIff(s, [Write(c)]);
    assert [Write(c)][1..] == [];
    assert !Switches([Write(c)]);
  }
}
