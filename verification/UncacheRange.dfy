/** mmuuncache's run of table entries, and the bytes [v, v+size) it stands for. */
module UncacheRange {
  import opened Sv39
  import opened Lists
  import opened KernelTree
  import opened Machine
  import opened Steps
  import opened PteWords
  import opened BlockRuns
  import opened BootMap

  /** Bits 63:39 repeat bit 38, as Sv39 demands of an address (section 4.4.1). */
  predicate Canonical(a: Word) { a >> 38 == 0 || a >> 38 == 0x3FF_FFFF }

  predicate SameBlock(a: Word, b: Word) { a & !0x1F_FFFF == b & !0x1F_FFFF }

  predicate AtMost(a: Word, b: Word) { a <= b }

  predicate Short(size: Word) { size >> 32 == 0 }

  /** The last byte of the range. */
  function End(va: Word, size: Word): Word { va + size - 1 }

  function Less(size: Word): Word { size - BY2PG }

  // ----- the last entry of the run -----

  lemma Shorter(va: Word, size: Word)
    requires OneBlock(va, size) && Short(size) && size != BY2PG
    ensures Short(Less(size)) && Less(size) != 0 && (va | Less(size)) & (BY2PG - 1) == 0
    ensures !NoField(End(va, size))
  {
  }

  predicate NoField(a: Word) { (a >> 12) & 0x1FF == 0 }

  function Next(a: Word): Word { a + BY2PG }

  lemma EndBack(va: Word, size: Word)
    ensures End(va, size) == Next(End(va, Less(size)))
  {
    hide *;
    EndWords(va, size);
    LessIs(size);
    NextIs(End(va, size - 4096));
  }

  lemma LessIs(size: Word)
    ensures Less(size) == size - 4096
  {
  }

  lemma NextIs(a: Word)
    ensures Next(a) == a + 4096
  {
  }

  lemma EndWords(va: Word, size: Word)
    ensures End(va, size) == End(va, size - 4096) + 4096
  {
  }

  lemma BackBlock(e: Word)
    requires !NoField(Next(e))
    ensures SameBlock(e, Next(e)) && Ptlx(Next(e), 0) == Ptlx(e, 0) + 1
  {
    BackField(e);
    hide NoField, SameBlock, Ptlx;
    IndexBelow(e);
    IndexNext(e, Next(e));
  }

  lemma BackField(e: Word)
    requires !NoField(Next(e))
    ensures SameBlock(e, Next(e)) && (e >> 12) & 0x1FF < 511
  {
  }

  lemma BlockIs(va: Word, size: Word)
    ensures OneBlock(va, size) <==>
      size != 0 && (va | size) & (BY2PG - 1) == 0 && SameBlock(va, End(va, size))
  {
  }

  lemma BlockTrans(a: Word, b: Word, c: Word)
    requires SameBlock(a, b) && SameBlock(c, b)
    ensures SameBlock(a, c)
  {
  }

  /** One page less still ends in the block, one entry before. */
  lemma OnePageLess(va: Word, size: Word)
    requires OneBlock(va, size) && Short(size) && size != BY2PG
    ensures OneBlock(va, Less(size)) && Short(Less(size))
    ensures Ptlx(End(va, size), 0) == Ptlx(End(va, Less(size)), 0) + 1
  {
    hide *;
    Shorter(va, size);
    EndBack(va, size);
    BackBlock(End(va, Less(size)));
    BlockIs(va, size);
    BlockIs(va, Less(size));
    BlockTrans(va, End(va, size), End(va, Less(size)));
  }

  lemma OnePage(va: Word)
    requires OneBlock(va, BY2PG)
    ensures Ptlx(End(va, BY2PG), 0) == Ptlx(va, 0) && PagesBelow(BY2PG) == 1
  {
    PtlxBits(va, 0);
    PtlxBits(End(va, BY2PG), 0);
    OneField(va);
    hide Ptlx, FieldBits, End, OneBlock;
  }

  lemma OneField(va: Word)
    requires OneBlock(va, BY2PG)
    ensures FieldBits(End(va, BY2PG), 0) == FieldBits(va, 0)
  {
  }

  lemma PagesLess(va: Word, size: Word)
    requires OneBlock(va, size) && Short(size)
    ensures PagesBelow(size) == PagesBelow(Less(size)) + 1
  {
    BlockSize(va, size);
    hide OneBlock;
    OnePageFewer(size);
  }

  lemma OnePageFewer(size: Word)
    requires size != 0 && size <= 0x20_0000
    ensures size & 0xFFF == 0 ==> PagesBelow(size) == PagesBelow(Less(size)) + 1
  {
  }

  /** The last byte's entry is the run's last. */
  lemma {:induction false} LastEntry(va: Word, size: Word)
    requires OneBlock(va, size) && Short(size)
    ensures Ptlx(End(va, size), 0) + 1 == Ptlx(va, 0) + PagesBelow(size)
    decreases PagesBelow(size)
  {
    hide *;
    if size == BY2PG {
      OnePage(va);
    } else {
      OnePageLess(va, size);
      PagesLess(va, size);
      LastEntry(va, Less(size));
    }
  }

  // ----- entries are in the order of addresses -----

  lemma IndexOrder(x: Word, y: Word)
    requires x < 512 && y < 512 && AtMost(x, y)
    ensures x as Index <= y as Index
  {
  }

  lemma FieldOrder(p: Word, q: Word, l: nat)
    requires l < 3 && AtMost(FieldBits(p, l), FieldBits(q, l))
    ensures Ptlx(p, l) <= Ptlx(q, l)
  {
    PtlxBits(p, l);
    PtlxBits(q, l);
    hide Ptlx, FieldBits;
    IndexOrder(FieldBits(p, l), FieldBits(q, l));
  }

  lemma TopOrder(p: Word, q: Word)
    requires Canonical(p) && Canonical(q) && AtMost(p, q)
    ensures Ptlx(p, 2) <= Ptlx(q, 2)
  {
    TopBits(p, q);
    hide Ptlx, FieldBits, AtMost, Canonical;
    FieldOrder(p, q, 2);
  }

  lemma TopBits(p: Word, q: Word)
    requires Canonical(p) && Canonical(q) && AtMost(p, q)
    ensures AtMost(FieldBits(p, 2), FieldBits(q, 2))
  {
  }

  lemma MidOrder(p: Word, q: Word)
    requires Canonical(p) && Canonical(q) && AtMost(p, q) && Ptlx(p, 2) == Ptlx(q, 2)
    ensures Ptlx(p, 1) <= Ptlx(q, 1)
  {
    FieldApart(p, q, 2);
    hide Ptlx;
    MidBits(p, q);
    hide FieldBits, AtMost, Canonical;
    FieldOrder(p, q, 1);
  }

  lemma MidBits(p: Word, q: Word)
    requires Canonical(p) && Canonical(q) && AtMost(p, q) && FieldBits(p, 2) == FieldBits(q, 2)
    ensures AtMost(FieldBits(p, 1), FieldBits(q, 1))
  {
  }

  lemma LowOrder(p: Word, q: Word)
    requires SameBlock(p, q) && AtMost(p, q)
    ensures Ptlx(p, 0) <= Ptlx(q, 0)
  {
    LowBits(p, q);
    hide Ptlx, FieldBits, AtMost, SameBlock;
    FieldOrder(p, q, 0);
  }

  lemma LowBits(p: Word, q: Word)
    requires SameBlock(p, q) && AtMost(p, q)
    ensures AtMost(FieldBits(p, 0), FieldBits(q, 0))
  {
  }

  // ----- blocks -----

  lemma BlockIf(a: Word, b: Word)
    requires Canonical(a) && Canonical(b) && Ptlx(a, 2) == Ptlx(b, 2) && Ptlx(a, 1) == Ptlx(b, 1)
    ensures SameBlock(a, b)
  {
    FieldApart(a, b, 2);
    FieldApart(a, b, 1);
    hide Ptlx;
    BlockBits(a, b);
  }

  lemma BlockBits(a: Word, b: Word)
    requires Canonical(a) && Canonical(b) && FieldBits(a, 2) == FieldBits(b, 2) && FieldBits(a, 1) == FieldBits(b, 1)
    ensures SameBlock(a, b)
  {
  }

  lemma BlockFields(a: Word, b: Word)
    requires SameBlock(a, b)
    ensures Ptlx(a, 2) == Ptlx(b, 2) && Ptlx(a, 1) == Ptlx(b, 1)
  {
    PtlxBits(a, 2);
    PtlxBits(b, 2);
    PtlxBits(a, 1);
    PtlxBits(b, 1);
    BlockShift(a, b);
    ShiftFields(a, b);
    hide Ptlx, FieldBits;
  }

  lemma BlockShift(a: Word, b: Word)
    requires SameBlock(a, b)
    ensures a >> 21 == b >> 21
  {
  }

  lemma ShiftFields(a: Word, b: Word)
    requires a >> 21 == b >> 21
    ensures FieldBits(a, 2) == FieldBits(b, 2) && FieldBits(a, 1) == FieldBits(b, 1)
  {
  }

  lemma CanonicalToo(p: Word, q: Word)
    requires Canonical(p) && SameBlock(p, q)
    ensures Canonical(q)
  {
  }

  /** Bytes between two of one block are in it. */
  lemma Between(p: Word, a: Word, q: Word)
    requires Canonical(p) && Canonical(a) && SameBlock(p, q) && AtMost(p, a) && AtMost(a, q)
    ensures SameBlock(a, p)
  {
    hide *;
    CanonicalToo(p, q);
    BlockFields(p, q);
    TopOrder(p, a);
    TopOrder(a, q);
    MidOrder(p, a);
    MidOrder(a, q);
    BlockIf(a, p);
  }

  // ----- the range -----

  lemma Edges(va: Word, size: Word)
    requires OneBlock(va, size)
    ensures va & 0xFFF == 0 && End(va, size) & 0xFFF == 0xFFF && SameBlock(va, End(va, size))
  {
  }

  lemma Other(p: Word, q: Word)
    requires !AtMost(p, q)
    ensures AtMost(q, p)
  {
  }

  lemma FirstOfPage(p: Word, a: Word)
    requires SameBlock(p, a) && FieldBits(p, 0) == FieldBits(a, 0) && p & 0xFFF == 0
    ensures AtMost(p, a)
  {
  }

  lemma LastOfPage(a: Word, q: Word)
    requires SameBlock(a, q) && FieldBits(a, 0) == FieldBits(q, 0) && q & 0xFFF == 0xFFF
    ensures AtMost(a, q)
  {
  }

  lemma BlockBack(a: Word, b: Word)
    requires SameBlock(a, b)
    ensures SameBlock(b, a)
  {
  }

  lemma FromFirst(va: Word, a: Word)
    requires SameBlock(a, va) && va & 0xFFF == 0
    ensures AtMost(va, a) <==> Ptlx(va, 0) <= Ptlx(a, 0)
  {
    hide *;
    BlockBack(a, va);
    if AtMost(va, a) {
      LowOrder(va, a);
    } else {
      Other(va, a);
      LowOrder(a, va);
      if Ptlx(va, 0) == Ptlx(a, 0) {
        FieldApart(va, a, 0);
        FirstOfPage(va, a);
      }
    }
  }

  lemma ToLast(a: Word, e: Word)
    requires SameBlock(a, e) && e & 0xFFF == 0xFFF
    ensures AtMost(a, e) <==> Ptlx(a, 0) <= Ptlx(e, 0)
  {
    hide *;
    BlockBack(a, e);
    if AtMost(a, e) {
      LowOrder(a, e);
    } else {
      Other(a, e);
      LowOrder(e, a);
      if Ptlx(a, 0) == Ptlx(e, 0) {
        FieldApart(a, e, 0);
        LastOfPage(a, e);
      }
    }
  }

  lemma RunIs(va: Word, n: nat, a: Word)
    ensures InRun(VpnOf(va), VpnOf(va).x0, n, VpnOf(a)) <==>
      Ptlx(a, 2) == Ptlx(va, 2) && Ptlx(a, 1) == Ptlx(va, 1) && Ptlx(va, 0) <= Ptlx(a, 0) < Ptlx(va, 0) + n
  {
    hide Ptlx;
  }

  lemma RangeIs(va: Word, size: Word, a: Word)
    ensures AtMost(va, a) && AtMost(a, End(va, size)) <==> va <= a <= va + size - 1
    ensures Short(size) <==> size >> 32 == 0
  {
  }

  /** The entries mmuuncache clears are those of the bytes of [v, v+size), and of no other address. */
  lemma RunIsRange(va: Word, size: Word, a: Word)
    requires OneBlock(va, size) && size >> 32 == 0 && Canonical(va) && Canonical(a)
    ensures InRun(VpnOf(va), VpnOf(va).x0, PagesBelow(size), VpnOf(a)) <==> va <= a <= va + size - 1
  {
    hide *;
    RangeIs(va, size, a);
    RunIs(va, PagesBelow(size), a);
    LastEntry(va, size);
    Edges(va, size);
    var e := End(va, size);
    if AtMost(va, a) && AtMost(a, e) {
      Between(va, a, e);
      BlockFields(a, va);
    }
    if Ptlx(a, 2) == Ptlx(va, 2) && Ptlx(a, 1) == Ptlx(va, 1) {
      BlockIf(a, va);
      FromFirst(va, a);
      BlockBack(va, e);
      BlockTrans(a, va, e);
      ToLast(a, e);
    }
  }

  /** mmuuncache clears C for the bytes of [v, v+size), and changes the translation of no other kernel address. */
  lemma UncachedBytes(s: Sys, va: Word, size: Word, l0: Option<Page>, a: Word)
    requires Inv(s) && OneBlock(va, size) && size >> 32 == 0 && Canonical(va) && Canonical(a)
    requires l0.Some? ==> Unowned(s, l0.value)
    ensures var e, x := Uncache(VpnOf(va), PagesBelow(size), l0), Walk(s.mem, s.kroot, VpnOf(a));
      Walk(UncacheStep(s, VpnOf(va), PagesBelow(size), l0).mem, s.kroot, VpnOf(a)) ==
        if Uncached(s, e) && va <= a <= va + size - 1 then ClearCX(x) else x
  {
    var v, n := VpnOf(va), PagesBelow(size);
    RunIsRange(va, size, a);
    hide OneBlock, VpnOf, PagesBelow, Canonical, Inv, Walk, UncacheStep, Unowned, SplitBlock;
    UncacheEffect(s, v, n, l0);
    hide *;
    AfterIs(s, v, n, l0, VpnOf(a));
  }

  lemma AfterIs(s: Sys, v: Vpn, n: nat, l0: Option<Page>, u: Vpn)
    ensures var e, x := Uncache(v, n, l0), Walk(s.mem, s.kroot, u);
      KernelAfter(s, e, u) == if Uncached(s, e) && InRun(v, v.x0, n, u) then ClearCX(x) else x
  {
    hide Walk, InRun, ClearCX, Uncached;
  }
}
