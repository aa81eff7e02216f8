/** maprange's and mapblock's loops over words: the calls they make, offset by offset. */
module BootRegions {
  import opened Sv39
  import opened PteWords
  import opened BootTables

  const BLOCK: Word := 0x20_0000

  function LeafWord(pa: Word, attr: Word): Word { PaPte(pa) | attr }

  /** The loop `for(o; o < size; o += step)` makes exactly n turns; for no n when o wraps round for ever. */
  predicate Turns(o: Word, size: Word, step: Word, n: nat)
    decreases n
  {
    if Below(o, size) then n > 0 && Turns(Plus(o, step), size, step, n - 1) else n == 0
  }

  predicate Below(o: Word, size: Word) { o < size }

  function Plus(o: Word, step: Word): Word { o + step }

  predicate Whole(o: Word, unit: Word) { o & (unit - 1) == 0 }

  /** The calls of maprange's n turns from offset o on. */
  function RangeOps(va: Word, pa: Word, attr: Word, o: Word, n: nat): seq<Op>
    decreases n
  {
    if n == 0 then []
    else
      [PageAt(VpnOf(Plus(va, o)), Decode(LeafWord(Plus(pa, o), attr)))]
      + RangeOps(va, pa, attr, Plus(o, BY2PG), n - 1)
  }

  /** The entries written by mapblock's n turns from offset o on. */
  function BlockOps(va: Word, pa: Word, attr: Word, o: Word, n: nat): seq<Op>
    decreases n
  {
    if n == 0 then []
    else
      [BlockAt(VpnOf(Plus(va, o)), Decode(LeafWord(Plus(pa, o), attr)))]
      + BlockOps(va, pa, attr, Plus(o, BLOCK), n - 1)
  }

  // ----- which calls those are: one for each aligned offset below size -----

  predicate Offset(d: Page, size: Word, unit: Word) { Below(d.pa, size) && Whole(d.pa, unit) }

  predicate MadeAt(op: Op, va: Word, pa: Word, attr: Word, d: Page) {
    op.v == VpnOf(Plus(va, d.pa)) && op.leaf == Decode(LeafWord(Plus(pa, d.pa), attr))
  }

  lemma NextWhole(o: Word)
    ensures Whole(o, BY2PG) ==> Whole(Plus(o, BY2PG), BY2PG)
    ensures Whole(o, BLOCK) ==> Whole(Plus(o, BLOCK), BLOCK)
  {
  }

  lemma {:induction false} RangeSound(va: Word, pa: Word, attr: Word, size: Word, o: Word, n: nat, op: Op)
    requires Turns(o, size, BY2PG, n) && Whole(o, BY2PG)
    requires op in RangeOps(va, pa, attr, o, n)
    ensures op.PageAt? && exists d: Page :: Offset(d, size, BY2PG) && MadeAt(op, va, pa, attr, d)
    decreases n
  {
    hide VpnOf, Decode, LeafWord, Below, Plus, Whole;
    if op == PageAt(VpnOf(Plus(va, o)), Decode(LeafWord(Plus(pa, o), attr))) {
      assert Offset(Page(o), size, BY2PG) && MadeAt(op, va, pa, attr, Page(o));
    } else {
      NextWhole(o);
      RangeSound(va, pa, attr, size, Plus(o, BY2PG), n - 1, op);
    }
  }

  lemma {:induction false} BlockSound(va: Word, pa: Word, attr: Word, size: Word, o: Word, n: nat, op: Op)
    requires Turns(o, size, BLOCK, n) && Whole(o, BLOCK)
    requires op in BlockOps(va, pa, attr, o, n)
    ensures op.BlockAt? && exists d: Page :: Offset(d, size, BLOCK) && MadeAt(op, va, pa, attr, d)
    decreases n
  {
    hide VpnOf, Decode, LeafWord, Below, Plus, Whole;
    if op == BlockAt(VpnOf(Plus(va, o)), Decode(LeafWord(Plus(pa, o), attr))) {
      assert Offset(Page(o), size, BLOCK) && MadeAt(op, va, pa, attr, Page(o));
    } else {
      NextWhole(o);
      BlockSound(va, pa, attr, size, Plus(o, BLOCK), n - 1, op);
    }
  }

  /** The offset of turn k. */
  function Nth(o: Word, step: Word, k: nat): Word
    decreases k
  {
    if k == 0 then o else Nth(Plus(o, step), step, k - 1)
  }

  lemma {:induction false} RangeHas(va: Word, pa: Word, attr: Word, o: Word, n: nat, k: nat)
    requires k < n
    ensures var d := Nth(o, BY2PG, k);
      PageAt(VpnOf(Plus(va, d)), Decode(LeafWord(Plus(pa, d), attr))) in RangeOps(va, pa, attr, o, n)
    decreases n
  {
    hide VpnOf, Decode, LeafWord, Plus;
    if k > 0 {
      RangeHas(va, pa, attr, Plus(o, BY2PG), n - 1, k - 1);
    }
  }

  lemma {:induction false} BlockHas(va: Word, pa: Word, attr: Word, o: Word, n: nat, k: nat)
    requires k < n
    ensures var d := Nth(o, BLOCK, k);
      BlockAt(VpnOf(Plus(va, d)), Decode(LeafWord(Plus(pa, d), attr))) in BlockOps(va, pa, attr, o, n)
    decreases n
  {
    hide VpnOf, Decode, LeafWord, Plus;
    if k > 0 {
      BlockHas(va, pa, attr, Plus(o, BLOCK), n - 1, k - 1);
    }
  }

  // ----- how many turns the boot regions take -----

  function BlocksIn(o: Word): nat { (o >> 21) as nat }

  lemma PageStep(o: Word)
    requires o < 0x60_0000 && o & 0xFFF == 0
    ensures PagesBelow(o + BY2PG) == PagesBelow(o) + 1
  {
  }

  lemma PageLast(o: Word)
    requires o <= 0x60_0000 && o & 0xFFF == 0
    ensures PagesBelow(o) <= 1536 && (o < 0x60_0000 <==> PagesBelow(o) < 1536)
  {
  }

  lemma PageNext(o: Word)
    requires o < 0x60_0000 && o & 0xFFF == 0
    ensures o + BY2PG <= 0x60_0000 && (o + BY2PG) & 0xFFF == 0
  {
  }

  lemma {:induction false} PioTurns(o: Word)
    requires o <= 0x60_0000 && o & 0xFFF == 0
    ensures PagesBelow(o) <= 1536 && Turns(o, 0x60_0000, BY2PG, 1536 - PagesBelow(o))
    decreases 1536 - PagesBelow(o)
  {
    PageLast(o);
    if o < 0x60_0000 {
      PageStep(o);
      PageNext(o);
      hide PagesBelow;
      PioTurns(o + BY2PG);
    }
  }

  lemma BlockStep(o: Word)
    requires o < 0x4000_0000 && o & 0x1F_FFFF == 0
    ensures BlocksIn(o + BLOCK) == BlocksIn(o) + 1
  {
  }

  lemma BlockLast(o: Word)
    requires o <= 0x4000_0000 && o & 0x1F_FFFF == 0
    ensures BlocksIn(o) <= 512 && (o < 0x4000_0000 <==> BlocksIn(o) < 512)
  {
  }

  lemma BlockNext(o: Word)
    requires o < 0x4000_0000 && o & 0x1F_FFFF == 0
    ensures o + BLOCK <= 0x4000_0000 && (o + BLOCK) & 0x1F_FFFF == 0
  {
  }

  lemma {:induction false} DramTurns(o: Word)
    requires o <= 0x4000_0000 && o & 0x1F_FFFF == 0
    ensures BlocksIn(o) <= 512 && Turns(o, 0x4000_0000, BLOCK, 512 - BlocksIn(o))
    decreases 512 - BlocksIn(o)
  {
    BlockLast(o);
    if o < 0x4000_0000 {
      BlockStep(o);
      BlockNext(o);
      hide BlocksIn;
      DramTurns(o + BLOCK);
    }
  }

  lemma {:induction false} NthMore(o: Word, step: Word, k: nat)
    ensures Nth(o, step, k + 1) == Plus(Nth(o, step, k), step)
    decreases k
  {
    hide Plus;
    if k > 0 { NthMore(Plus(o, step), step, k - 1); }
  }

  predicate PioOffset(d: Word) { d < 0x60_0000 && d & 0xFFF == 0 }

  predicate DramOffset(d: Word) { d < 0x4000_0000 && d & 0x1F_FFFF == 0 }

  function Minus(d: Word, step: Word): Word { d - step }

  lemma PageBack(d: Word)
    requires PioOffset(d) && d != 0
    ensures PioOffset(Minus(d, BY2PG)) && Plus(Minus(d, BY2PG), BY2PG) == d
  {
  }

  lemma PageCount(d: Word)
    requires PioOffset(d)
    ensures PagesBelow(d) < 1536 && PagesBelow(Plus(d, BY2PG)) == PagesBelow(d) + 1 && PagesBelow(0) == 0
  {
    PageLast(d);
    PageStep(d);
    assert PagesBelow(0) == 0;
    hide PagesBelow;
  }

  lemma BlockBack(d: Word)
    requires DramOffset(d) && d != 0
    ensures DramOffset(Minus(d, BLOCK)) && Plus(Minus(d, BLOCK), BLOCK) == d
  {
  }

  lemma BlockCount(d: Word)
    requires DramOffset(d)
    ensures BlocksIn(d) < 512 && BlocksIn(Plus(d, BLOCK)) == BlocksIn(d) + 1 && BlocksIn(0) == 0
  {
    BlockLast(d);
    BlockStep(d);
    assert BlocksIn(0) == 0;
    hide BlocksIn;
  }

  lemma NthZero(o: Word, step: Word)
    ensures Nth(o, step, 0) == o
  {
  }

  /** Every page offset of PIO is the offset of some turn. */
  lemma {:induction false} PioNth(d: Word)
    requires PioOffset(d)
    ensures PagesBelow(d) < 1536 && Nth(0, BY2PG, PagesBelow(d)) == d
    decreases PagesBelow(d)
  {
    hide *;
    PageCount(d);
    if d == 0 {
      NthZero(0, BY2PG);
    } else {
      var e := Minus(d, BY2PG);
      PageBack(d);
      PageCount(e);
      PioNth(e);
      NthMore(0, BY2PG, PagesBelow(e));
    }
  }

  lemma {:induction false} DramNth(d: Word)
    requires DramOffset(d)
    ensures BlocksIn(d) < 512 && Nth(0, BLOCK, BlocksIn(d)) == d
    decreases BlocksIn(d)
  {
    hide *;
    BlockCount(d);
    if d == 0 {
      NthZero(0, BLOCK);
    } else {
      var e := Minus(d, BLOCK);
      BlockBack(d);
      BlockCount(e);
      DramNth(e);
      NthMore(0, BLOCK, BlocksIn(e));
    }
  }

  lemma OnePageTurn()
    ensures Turns(0, BY2PG, BY2PG, 1)
  {
    assert Turns(BY2PG, BY2PG, BY2PG, 0);
  }

  lemma FromZero()
    ensures Turns(0, 0x60_0000, BY2PG, 1536) && Turns(0, 0x4000_0000, BLOCK, 512)
  {
    assert PagesBelow(0) == 0 && BlocksIn(0) == 0;
    hide PagesBelow, BlocksIn;
    PioTurns(0);
    DramTurns(0);
  }
}
