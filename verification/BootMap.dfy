/** The sixteen calls mmubootstrap makes: what they map, and how many tables they take. */
module BootMap {
  import opened Sv39
  import opened PteWords
  import opened BootTables
  import opened BootRuns
  import opened BootRegions

  const PHYSDRAM: Word := 0x4000_0000
  const DRAMMAX: Word := 0x4000_0000
  const PHYSPIO: Word := 0x0200_0000
  const PHYSPIOSIZE: Word := 0x60_0000
  const PHYSWDTRISCV: Word := 0x0601_1000
  const PHYSMMC0: Word := 0x0402_0000
  const PHYSEHCI1: Word := 0x0420_0000
  const PHYSPLIC: Word := 0x1000_0000
  const PHYSPLICEN: Word := 0x1000_2080
  const PHYSPLICCTL: Word := 0x1020_1000
  const NTABLES: nat := 24

  /** The two aliases a physical address gets: itself, and KADDR of it. */
  function Alias(high: bool, pa: Word): Word { if high then Kaddr(pa) else pa }

  function OnePage(high: bool, pa: Word): seq<Op> { RangeOps(Alias(high, pa), pa, PTELEAFDEV, 0, 1) }

  function PioOps(high: bool): seq<Op> { RangeOps(Alias(high, PHYSPIO), PHYSPIO, PTELEAFDEV, 0, 1536) }

  function DramOps(high: bool): seq<Op> { BlockOps(Alias(high, PHYSDRAM), PHYSDRAM, PTELEAFMEM, 0, 512) }

  /** The one-page device regions, in mmubootstrap's order. */
  function SingleOps(high: bool): seq<Op> {
    OnePage(high, PHYSWDTRISCV) + OnePage(high, PHYSMMC0) + OnePage(high, PHYSEHCI1)
    + OnePage(high, PHYSPLIC) + OnePage(high, PHYSPLICEN) + OnePage(high, PHYSPLICCTL)
  }

  function HalfOps(high: bool): seq<Op> { DramOps(high) + PioOps(high) + SingleOps(high) }

  function BootstrapOps(): seq<Op> { HalfOps(true) + HalfOps(false) }

  // ----- what should be mapped -----

  predicate InDram(pg: Page) { pg.pa & 0xFFF == 0 && PHYSDRAM <= pg.pa < 0x8000_0000 }

  predicate InPio(pg: Page) { pg.pa & 0xFFF == 0 && PHYSPIO <= pg.pa < 0x0260_0000 }

  predicate InDevice(pg: Page) {
    InPio(pg) || pg.pa == PHYSWDTRISCV || pg.pa == PHYSMMC0 || pg.pa == PHYSEHCI1
    || pg.pa == PHYSPLIC || pg.pa == 0x1000_2000 || pg.pa == PHYSPLICCTL
  }

  /** DRAM is cacheable and shareable, devices strongly ordered; all of it is global and S-mode only. */
  function MemoryType(pg: Page): Attr { if InDram(pg) then MemAttr() else DevAttr() }

  function MemAttr(): Attr { Attr(true, true, true, false, true, true, true, false, true, false, true, 0) }

  function DevAttr(): Attr { Attr(true, true, true, false, true, true, true, true, false, false, false, 0) }

  // ----- leaf words -----

  lemma LeafBits(p: Word, attr: Word)
    requires Small(p) && (attr == PTELEAFMEM || attr == PTELEAFDEV)
    ensures HwPa(LeafWord(p, attr)) == Ppn(p) && LeafWord(p, attr) & !PTEPPNMASK == attr
  {
  }

  lemma AttrBitsOf(w: Word, attr: Word)
    requires w & !PTEPPNMASK == attr && (attr == PTELEAFMEM || attr == PTELEAFDEV)
    ensures Bit(w, PTEVALID) && Bit(w, PTEREAD)
  {
  }

  lemma AttrDecodes()
    ensures AttrBits(PTELEAFMEM) == MemAttr() && AttrBits(PTELEAFDEV) == DevAttr()
  {
  }

  lemma LeafDecodes(p: Word, attr: Word)
    requires Small(p) && (attr == PTELEAFMEM || attr == PTELEAFDEV)
    ensures Decode(LeafWord(p, attr)) == Leaf(Page(Ppn(p)), if attr == PTELEAFMEM then MemAttr() else DevAttr())
  {
    LeafBits(p, attr);
    AttrBitsOf(LeafWord(p, attr), attr);
    AttrDecodes();
    hide LeafWord, HwPa, Ppn, Bit, AttrBits, MemAttr, DevAttr;
  }

  // ----- virtual page numbers as words -----

  function PageNumber(a: Word): Word { a >> 12 }

  lemma SameVpn(a: Word, b: Word)
    requires PageNumber(a) == PageNumber(b)
    ensures VpnOf(a) == VpnOf(b)
  {
    SameFields(a, b);
  }

  lemma SameFields(a: Word, b: Word)
    requires a >> 12 == b >> 12
    ensures (a >> 12) & 0x1FF == (b >> 12) & 0x1FF && (a >> 21) & 0x1FF == (b >> 21) & 0x1FF
    ensures (a >> 30) & 0x1FF == (b >> 30) & 0x1FF
  {
    assert a >> 21 == (a >> 12) >> 9 && b >> 21 == (b >> 12) >> 9;
    assert a >> 30 == (a >> 12) >> 18 && b >> 30 == (b >> 12) >> 18;
  }

  lemma FieldEqual(f: Word, g: Word)
    requires f < 512 && g < 512 && f as Index == g as Index
    ensures f == g
  {
    IndexBack(f);
    IndexBack(g);
  }

  /** PTLX before it becomes an index. */
  function FieldBits(v: Word, l: nat): (f: Word)
    requires l < 3
    ensures f < 512
  {
    if l == 2 then (v >> 30) & 0x1FF else if l == 1 then (v >> 21) & 0x1FF else (v >> 12) & 0x1FF
  }

  lemma PtlxBits(v: Word, l: nat)
    requires l < 3
    ensures Ptlx(v, l) == FieldBits(v, l) as Index
  {
  }

  lemma FieldApart(a: Word, b: Word, l: nat)
    requires l < 3 && Ptlx(a, l) == Ptlx(b, l)
    ensures FieldBits(a, l) == FieldBits(b, l)
  {
    PtlxBits(a, l);
    PtlxBits(b, l);
    hide Ptlx, FieldBits;
    FieldEqual(FieldBits(a, l), FieldBits(b, l));
  }

  // ----- the aliases -----

  /** A physical address the boot map can reach: below 2 GB. */
  predicate Small(p: Word) { p >> 31 == 0 }

  /** Below 2 GB KADDR only sets high bits. */
  lemma KaddrOr(p: Word)
    requires p >> 31 == 0
    ensures p + 0xFFFF_FFFF_8000_0000 == p | 0xFFFF_FFFF_8000_0000
  {
  }

  lemma AliasBits(high: bool, p: Word)
    requires Small(p)
    ensures Alias(high, p) == if high then p | KZERO else p
  {
    if high { KaddrOr(p); }
  }

  lemma OrPage(q: Word)
    ensures PageNumber(q | KZERO) == PageNumber(Ppn(q) | KZERO)
  {
  }

  lemma SamePage(q: Word)
    ensures PageNumber(q) == PageNumber(Ppn(q))
    ensures Small(q) ==> Small(Ppn(q))
  {
  }

  lemma KaddrOffset(pa: Word, d: Word)
    ensures Plus(Kaddr(pa), d) == Kaddr(Plus(pa, d))
  {
    PlusSwaps(pa, KZERO, d);
    KaddrPlus(pa);
    KaddrPlus(Plus(pa, d));
    hide Plus, Kaddr;
  }

  lemma KaddrPlus(pa: Word)
    ensures Kaddr(pa) == Plus(pa, KZERO)
  {
  }

  lemma PlusSwaps(a: Word, b: Word, c: Word)
    ensures Plus(Plus(a, b), c) == Plus(Plus(a, c), b)
  {
    assert Plus(a, b) == a + b;
    assert Plus(a, c) == a + c;
    hide Plus;
    OuterPlus(a + b, c);
    OuterPlus(a + c, b);
    Swap(a, b, c);
  }

  lemma OuterPlus(a: Word, b: Word)
    ensures Plus(a, b) == a + b
  {
  }

  lemma Swap(a: Word, b: Word, c: Word)
    ensures (a + b) + c == (a + c) + b
  {
  }

  lemma AliasPlus(high: bool, pa: Word, d: Word)
    ensures Plus(Alias(high, pa), d) == Alias(high, Plus(pa, d))
  {
    KaddrOffset(pa, d);
    hide Kaddr, Plus;
  }

  lemma AliasPage(high: bool, q: Word)
    requires Small(q)
    ensures PageNumber(Alias(high, q)) == PageNumber(Alias(high, Ppn(q)))
    ensures Small(Ppn(q))
  {
    hide *;
    OrPage(q);
    SamePage(q);
    AliasBits(high, q);
    AliasBits(high, Ppn(q));
  }

  lemma OrFields(p: Word)
    ensures FieldBits(p | KZERO, 0) == (p >> 12) & 0x1FF
    ensures p >> 31 == 0 ==> FieldBits(p | KZERO, 1) == (p >> 21) & 0x1FF
  {
  }

  lemma AliasLow(high: bool, p: Word)
    requires Small(p)
    ensures FieldBits(Alias(high, p), 0) == (p >> 12) & 0x1FF && FieldBits(Alias(high, p), 1) == (p >> 21) & 0x1FF
  {
    AliasBits(high, p);
    OrFields(p);
    hide Alias;
  }

  lemma AliasTop(high: bool, p: Word)
    requires Small(p)
    ensures FieldBits(Alias(high, p), 2) == (if high then 510 else 0) + (p >> 30)
  {
  }

  lemma BlockApart(h: bool, p: Word, h': bool, p': Word)
    requires Small(p) && Small(p')
    requires Ptlx(Alias(h, p), 2) == Ptlx(Alias(h', p'), 2) && Ptlx(Alias(h, p), 1) == Ptlx(Alias(h', p'), 1)
    ensures h == h' && p >> 21 == p' >> 21
  {
    FieldApart(Alias(h, p), Alias(h', p'), 2);
    FieldApart(Alias(h, p), Alias(h', p'), 1);
    AliasTop(h, p);
    AliasTop(h', p');
    AliasLow(h, p);
    AliasLow(h', p');
    hide Ptlx, FieldBits, Alias;
    BlockBits(h, p, h', p');
  }

  lemma BlockBits(h: bool, p: Word, h': bool, p': Word)
    requires Small(p) && Small(p')
    requires (if h then 510 as Word else 0) + (p >> 30) == (if h' then 510 as Word else 0) + (p' >> 30)
    requires (p >> 21) & 0x1FF == (p' >> 21) & 0x1FF
    ensures h == h' && p >> 21 == p' >> 21
  {
  }

  lemma PageApart(h: bool, p: Word, h': bool, p': Word)
    requires Small(p) && Small(p') && p & 0xFFF == 0 && p' & 0xFFF == 0
    requires VpnOf(Alias(h, p)) == VpnOf(Alias(h', p'))
    ensures h == h' && p == p'
  {
    BlockApart(h, p, h', p');
    FieldApart(Alias(h, p), Alias(h', p'), 0);
    AliasLow(h, p);
    AliasLow(h', p');
    hide Ptlx, FieldBits, Alias;
    PageBits(p, p');
  }

  lemma PageBits(p: Word, p': Word)
    requires p & 0xFFF == 0 && p' & 0xFFF == 0
    requires (p >> 12) & 0x1FF == (p' >> 12) & 0x1FF && p >> 21 == p' >> 21
    ensures p == p'
  {
  }

  // ----- every call places one covered page or block, and every covered page has its call -----

  ghost predicate PageFor(op: Op, high: bool, pg: Page) {
    op == PageAt(VpnOf(Alias(high, pg.pa)), Leaf(pg, DevAttr())) && InDevice(pg)
  }

  ghost predicate BlockFor(op: Op, high: bool, pg: Page) {
    op == BlockAt(VpnOf(Alias(high, pg.pa)), Leaf(pg, MemAttr())) && InDram(pg) && pg.pa & 0x1F_FFFF == 0
  }

  ghost predicate Sound(op: Op, high: bool) {
    exists pg: Page :: PageFor(op, high, pg) || BlockFor(op, high, pg)
  }

  /** What a loop turn writes for physical address pa + d. */
  lemma TurnPlaces(op: Op, high: bool, pa: Word, attr: Word, d: Page)
    requires MadeAt(op, Alias(high, pa), pa, attr, d) && Small(Plus(pa, d.pa))
    requires attr == PTELEAFMEM || attr == PTELEAFDEV
    ensures var pg := Page(Ppn(Plus(pa, d.pa)));
      && op.v == VpnOf(Alias(high, pg.pa))
      && op.leaf == Leaf(pg, if attr == PTELEAFMEM then MemAttr() else DevAttr())
  {
    hide *;
    MadeParts(op, Alias(high, pa), pa, attr, d);
    AliasPlus(high, pa, d.pa);
    AliasPage(high, Plus(pa, d.pa));
    SameVpn(Alias(high, Plus(pa, d.pa)), Alias(high, Ppn(Plus(pa, d.pa))));
    LeafDecodes(Plus(pa, d.pa), attr);
  }

  lemma MadeParts(op: Op, va: Word, pa: Word, attr: Word, d: Page)
    requires MadeAt(op, va, pa, attr, d)
    ensures op.v == VpnOf(Plus(va, d.pa)) && op.leaf == Decode(LeafWord(Plus(pa, d.pa), attr))
  {
  }

  lemma SingleOffset(d: Page)
    requires Offset(d, BY2PG, BY2PG)
    ensures d.pa == 0
  {
  }

  lemma PioOffsetPage(d: Page)
    requires Offset(d, 0x60_0000, BY2PG)
    ensures Small(Plus(PHYSPIO, d.pa)) && InPio(Page(Ppn(Plus(PHYSPIO, d.pa))))
  {
  }

  lemma DramOffsetPage(d: Page)
    requires Offset(d, 0x4000_0000, BLOCK)
    ensures Small(Plus(PHYSDRAM, d.pa))
    ensures var p := Ppn(Plus(PHYSDRAM, d.pa)); InDram(Page(p)) && p & 0x1F_FFFF == 0
  {
  }

  lemma SingleSound(high: bool, pa: Word, op: Op)
    requires op in OnePage(high, pa) && Small(pa) && InDevice(Page(Ppn(pa)))
    ensures Sound(op, high)
  {
    OnePageTurn();
    AtZero(pa);
    assert op in RangeOps(Alias(high, pa), pa, PTELEAFDEV, 0, 1);
    hide *;
    RangeSound(Alias(high, pa), pa, PTELEAFDEV, BY2PG, 0, 1, op);
    var d: Page :| Offset(d, BY2PG, BY2PG) && MadeAt(op, Alias(high, pa), pa, PTELEAFDEV, d);
    SingleOffset(d);
    TurnPlaces(op, high, pa, PTELEAFDEV, d);
    SoundPage(op, high, Page(Ppn(pa)));
  }

  lemma AtZero(pa: Word)
    ensures Plus(pa, 0) == pa && Whole(0, BY2PG) && Whole(0, BLOCK)
  {
  }

  lemma SoundPage(op: Op, high: bool, pg: Page)
    requires op.PageAt? && op.v == VpnOf(Alias(high, pg.pa)) && op.leaf == Leaf(pg, DevAttr()) && InDevice(pg)
    ensures Sound(op, high)
  {
    assert PageFor(op, high, pg);
  }

  lemma SoundBlock(op: Op, high: bool, pg: Page)
    requires op.BlockAt? && op.v == VpnOf(Alias(high, pg.pa)) && op.leaf == Leaf(pg, MemAttr())
    requires InDram(pg) && pg.pa & 0x1F_FFFF == 0
    ensures Sound(op, high)
  {
    assert BlockFor(op, high, pg);
  }

  lemma PioDevice(pg: Page)
    requires InPio(pg)
    ensures InDevice(pg)
  {
  }

  lemma PioSound(high: bool, op: Op)
    requires op in PioOps(high)
    ensures Sound(op, high)
  {
    FromZero();
    AtZero(0);
    assert op in RangeOps(Alias(high, PHYSPIO), PHYSPIO, PTELEAFDEV, 0, 1536);
    hide *;
    RangeSound(Alias(high, PHYSPIO), PHYSPIO, PTELEAFDEV, 0x60_0000, 0, 1536, op);
    var d: Page :| Offset(d, 0x60_0000, BY2PG) && MadeAt(op, Alias(high, PHYSPIO), PHYSPIO, PTELEAFDEV, d);
    PioOffsetPage(d);
    TurnPlaces(op, high, PHYSPIO, PTELEAFDEV, d);
    PioDevice(Page(Ppn(Plus(PHYSPIO, d.pa))));
    SoundPage(op, high, Page(Ppn(Plus(PHYSPIO, d.pa))));
  }

  lemma DramSound(high: bool, op: Op)
    requires op in DramOps(high)
    ensures Sound(op, high)
  {
    FromZero();
    AtZero(0);
    assert op in BlockOps(Alias(high, PHYSDRAM), PHYSDRAM, PTELEAFMEM, 0, 512);
    hide *;
    BlockSound(Alias(high, PHYSDRAM), PHYSDRAM, PTELEAFMEM, 0x4000_0000, 0, 512, op);
    var d: Page :| Offset(d, 0x4000_0000, BLOCK) && MadeAt(op, Alias(high, PHYSDRAM), PHYSDRAM, PTELEAFMEM, d);
    DramOffsetPage(d);
    TurnPlaces(op, high, PHYSDRAM, PTELEAFMEM, d);
    SoundBlock(op, high, Page(Ppn(Plus(PHYSDRAM, d.pa))));
  }

  lemma SinglePages()
    ensures forall pa: Page :: SinglePage(pa) ==> Small(pa.pa) && InDevice(Page(Ppn(pa.pa)))
  {
  }

  /** The physical addresses the one-page calls name. */
  predicate SinglePage(at: Page) {
    at.pa == PHYSWDTRISCV || at.pa == PHYSMMC0 || at.pa == PHYSEHCI1
    || at.pa == PHYSPLIC || at.pa == PHYSPLICEN || at.pa == PHYSPLICCTL
  }

  lemma SingleParts(high: bool, op: Op)
    ensures op in SingleOps(high) <==> exists at: Page :: SinglePage(at) && op in OnePage(high, at.pa)
  {
    hide OnePage;
    if op in SingleOps(high) {
      assert (SinglePage(Page(PHYSWDTRISCV)) && op in OnePage(high, Page(PHYSWDTRISCV).pa))
        || (SinglePage(Page(PHYSMMC0)) && op in OnePage(high, Page(PHYSMMC0).pa))
        || (SinglePage(Page(PHYSEHCI1)) && op in OnePage(high, Page(PHYSEHCI1).pa))
        || (SinglePage(Page(PHYSPLIC)) && op in OnePage(high, Page(PHYSPLIC).pa))
        || (SinglePage(Page(PHYSPLICEN)) && op in OnePage(high, Page(PHYSPLICEN).pa))
        || (SinglePage(Page(PHYSPLICCTL)) && op in OnePage(high, Page(PHYSPLICCTL).pa));
    }
  }

  lemma HalfSound(high: bool, op: Op)
    requires op in HalfOps(high)
    ensures Sound(op, high)
  {
    HalfParts(high, op);
    hide *;
    if op in DramOps(high) {
      DramSound(high, op);
    } else if op in PioOps(high) {
      PioSound(high, op);
    } else {
      SingleParts(high, op);
      var at: Page :| SinglePage(at) && op in OnePage(high, at.pa);
      SinglePages();
      SingleSound(high, at.pa, op);
    }
  }

  lemma HalfParts(high: bool, op: Op)
    ensures op in HalfOps(high) <==> op in DramOps(high) || op in PioOps(high) || op in SingleOps(high)
  {
    hide DramOps, PioOps, SingleOps;
  }

  // ----- coverage -----

  /** The 2 MB block a page lies in. */
  function BlockOf(pg: Page): Page { Page(pg.pa & !0x1F_FFFF) }

  lemma PioOffsetOf(pg: Page)
    requires InPio(pg)
    ensures PioOffset(Minus(pg.pa, PHYSPIO)) && Plus(PHYSPIO, Minus(pg.pa, PHYSPIO)) == pg.pa
  {
  }

  lemma MappedSmall(pg: Page)
    requires InDram(pg) || InDevice(pg)
    ensures Small(pg.pa) && Ppn(pg.pa) == pg.pa
  {
  }

  lemma DramOffsetOf(pg: Page)
    requires InDram(pg)
    ensures var b := BlockOf(pg);
      DramOffset(Minus(b.pa, PHYSDRAM)) && Plus(PHYSDRAM, Minus(b.pa, PHYSDRAM)) == b.pa && Small(b.pa)
          && Ppn(b.pa) == b.pa
  {
  }

  lemma PioCovered(high: bool, pg: Page)
    requires InPio(pg)
    ensures PageAt(VpnOf(Alias(high, pg.pa)), Leaf(pg, DevAttr())) in PioOps(high)
  {
    var d := Minus(pg.pa, PHYSPIO);
    var op := PageAt(VpnOf(Plus(Alias(high, PHYSPIO), d)), Decode(LeafWord(Plus(PHYSPIO, d), PTELEAFDEV)));
    PioOffsetOf(pg);
    PioDevice(pg);
    MappedSmall(pg);
    PioNth(d);
    RangeHas(Alias(high, PHYSPIO), PHYSPIO, PTELEAFDEV, 0, 1536, PagesBelow(d));
    assert op in PioOps(high);
    hide *;
    AliasPlus(high, PHYSPIO, d);
    LeafDecodes(pg.pa, PTELEAFDEV);
  }

  lemma DramCovered(high: bool, pg: Page)
    requires InDram(pg)
    ensures BlockAt(VpnOf(Alias(high, BlockOf(pg).pa)), Leaf(BlockOf(pg), MemAttr())) in DramOps(high)
  {
    var b := BlockOf(pg);
    var d := Minus(b.pa, PHYSDRAM);
    var op := BlockAt(VpnOf(Plus(Alias(high, PHYSDRAM), d)), Decode(LeafWord(Plus(PHYSDRAM, d), PTELEAFMEM)));
    DramOffsetOf(pg);
    DramNth(d);
    BlockHas(Alias(high, PHYSDRAM), PHYSDRAM, PTELEAFMEM, 0, 512, BlocksIn(d));
    assert op in DramOps(high);
    hide *;
    AliasPlus(high, PHYSDRAM, d);
    LeafDecodes(b.pa, PTELEAFMEM);
  }

  lemma SingleCovered(high: bool, at: Page)
    requires SinglePage(at)
    ensures var pg := Page(Ppn(at.pa)); PageAt(VpnOf(Alias(high, pg.pa)), Leaf(pg, DevAttr())) in OnePage(high, at.pa)
  {
    var op := PageAt(VpnOf(Plus(Alias(high, at.pa), 0)), Decode(LeafWord(Plus(at.pa, 0), PTELEAFDEV)));
    AtZero(at.pa);
    NthZero(0, BY2PG);
    RangeHas(Alias(high, at.pa), at.pa, PTELEAFDEV, 0, 1, 0);
    assert op in OnePage(high, at.pa);
    hide *;
    SinglePages();
    AliasPlus(high, at.pa, 0);
    AliasPage(high, at.pa);
    SameVpn(Alias(high, at.pa), Alias(high, Ppn(at.pa)));
    LeafDecodes(at.pa, PTELEAFDEV);
  }

  lemma SingleOf(pg: Page)
    requires InDevice(pg) && !InPio(pg)
    ensures exists at: Page :: SinglePage(at) && Ppn(at.pa) == pg.pa
  {
    if pg.pa == 0x1000_2000 {
      assert SinglePage(Page(PHYSPLICEN)) && Ppn(Page(PHYSPLICEN).pa) == pg.pa;
    } else {
      assert SinglePage(pg) && Ppn(pg.pa) == pg.pa;
    }
  }

  lemma DeviceCovered(high: bool, pg: Page)
    requires InDevice(pg)
    ensures PageAt(VpnOf(Alias(high, pg.pa)), Leaf(pg, DevAttr())) in HalfOps(high)
  {
    hide *;
    var op := PageAt(VpnOf(Alias(high, pg.pa)), Leaf(pg, DevAttr()));
    HalfParts(high, op);
    if InPio(pg) {
      PioCovered(high, pg);
    } else {
      SingleOf(pg);
      var at: Page :| SinglePage(at) && Ppn(at.pa) == pg.pa;
      SingleCovered(high, at);
      SingleParts(high, op);
    }
  }

  // ----- what the last covering call says -----

  lemma {:induction false} CoveringIs(ops: seq<Op>, v: Vpn, e: Pte)
    requires forall op :: op in ops ==> op.leaf.Leaf?
    requires forall op :: op in ops && Covers(op, v) ==> LeafFor(op, v) == e
    requires exists op :: op in ops && Covers(op, v)
    ensures Covering(ops, v) == e
    decreases |ops|
  {
    hide LeafFor;
    var last := ops[|ops| - 1];
    if !Covers(last, v) {
      var op :| op in ops && Covers(op, v);
      assert op in ops[..|ops| - 1];
      CoveringIs(ops[..|ops| - 1], v, e);
    }
  }

  lemma PageBlocks(pg: Page, b: Page)
    requires pg.pa >> 21 == b.pa >> 21 && b.pa & 0x1F_FFFF == 0 && pg.pa & 0xFFF == 0
    ensures b.pa | (((pg.pa >> 12) & 0x1FF) << 12) == pg.pa
  {
  }

  /** A block's page picked by the low field of an alias. */
  lemma InBlockAlias(high: bool, pg: Page, b: Page)
    requires Small(pg.pa) && pg.pa >> 21 == b.pa >> 21 && b.pa & 0x1F_FFFF == 0 && pg.pa & 0xFFF == 0
    ensures InBlock(b, Ptlx(Alias(high, pg.pa), 0)) == pg
  {
    PtlxBits(Alias(high, pg.pa), 0);
    AliasLow(high, pg.pa);
    PageBlocks(pg, b);
    hide Ptlx, Alias;
    BlockFrame(b, FieldBits(Alias(high, pg.pa), 0));
    hide InBlock;
  }

  lemma VpnParts(v: Word)
    ensures VpnOf(v) == Vpn(Ptlx(v, 2), Ptlx(v, 1), Ptlx(v, 0))
  {
  }

  lemma DramBlock(b: Page, pg: Page)
    requires InDram(b) && b.pa & 0x1F_FFFF == 0 && pg.pa >> 21 == b.pa >> 21 && pg.pa & 0xFFF == 0
    ensures InDram(pg)
  {
  }

  /** Every call that covers an alias of pg maps it to pg, with pg's memory type. */
  lemma Agrees(op: Op, h': bool, high: bool, pg: Page)
    requires Sound(op, h') && Covers(op, VpnOf(Alias(high, pg.pa))) && (InDram(pg) || InDevice(pg))
    ensures op.leaf.Leaf? && LeafFor(op, VpnOf(Alias(high, pg.pa))) == Leaf(pg, MemoryType(pg))
  {
    hide *;
    MappedSmall(pg);
    MappedWhole(pg);
    VpnParts(Alias(high, pg.pa));
    var b: Page := SoundOp(op, h');
    MappedSmall(b);
    MappedWhole(b);
    VpnParts(Alias(h', b.pa));
    CoversParts(op, VpnOf(Alias(high, pg.pa)));
    if PageFor(op, h', b) {
      PageParts(op, h', b);
      PageApart(h', b.pa, high, pg.pa);
      DeviceType(pg);
    } else {
      BlockParts(op, h', b);
      BlockApart(h', b.pa, high, pg.pa);
      DramBlock(b, pg);
      InBlockAlias(high, pg, b);
      DramType(pg);
    }
  }

  lemma SoundOp(op: Op, h: bool) returns (pg: Page)
    requires Sound(op, h)
    ensures PageFor(op, h, pg) || BlockFor(op, h, pg)
    ensures InDram(pg) || InDevice(pg)
  {
    pg :| PageFor(op, h, pg) || BlockFor(op, h, pg);
  }

  lemma MappedWhole(pg: Page)
    requires InDram(pg) || InDevice(pg)
    ensures pg.pa & 0xFFF == 0
  {
  }

  lemma CoversParts(op: Op, v: Vpn)
    requires Covers(op, v)
    ensures op.v.x2 == v.x2 && op.v.x1 == v.x1 && (op.PageAt? ==> op.v == v)
    ensures op.leaf.Leaf? ==>
      LeafFor(op, v) == if op.PageAt? then op.leaf else Leaf(InBlock(op.leaf.frame, v.x0), op.leaf.attr)
  {
  }

  lemma PageParts(op: Op, h: bool, pg: Page)
    requires PageFor(op, h, pg)
    ensures op.PageAt? && op.v == VpnOf(Alias(h, pg.pa)) && op.leaf == Leaf(pg, DevAttr()) && InDevice(pg)
  {
  }

  lemma BlockParts(op: Op, h: bool, pg: Page)
    requires BlockFor(op, h, pg)
    ensures op.BlockAt? && op.v == VpnOf(Alias(h, pg.pa)) && op.leaf == Leaf(pg, MemAttr()) && InDram(pg)
    ensures pg.pa & 0x1F_FFFF == 0
  {
  }

  lemma DeviceType(pg: Page)
    requires InDevice(pg)
    ensures MemoryType(pg) == DevAttr()
  {
    hide DevAttr, MemAttr;
  }

  lemma DramType(pg: Page)
    requires InDram(pg)
    ensures MemoryType(pg) == MemAttr()
  {
  }

  // ----- the sixteen calls together -----

  lemma InBootstrap(op: Op)
    ensures op in BootstrapOps() <==> op in HalfOps(true) || op in HalfOps(false)
  {
    hide HalfOps;
  }

  lemma BootSound(op: Op) returns (high: bool)
    requires op in BootstrapOps()
    ensures Sound(op, high)
  {
    InBootstrap(op);
    hide HalfOps, Sound;
    high := op in HalfOps(true);
    HalfSound(high, op);
  }

  /** The root slot an op touches tells its half and whether it is DRAM. */
  lemma SoundSlots(op: Op, high: bool)
    requires Sound(op, high)
    ensures op.leaf.Leaf? && (op.BlockAt? ==> Aligned(op.leaf.frame, 1))
    ensures op.v.x2 == (if high then 510 else 0) + (if op.BlockAt? then 1 else 0)
    ensures op.PageAt? ==> op.v.x1 in {16, 17, 18, 48, 32, 33, 128, 129}
  {
    hide *;
    var pg := SoundOp(op, high);
    MappedSmall(pg);
    VpnParts(Alias(high, pg.pa));
    PtlxBits(Alias(high, pg.pa), 2);
    AliasTop(high, pg.pa);
    if PageFor(op, high, pg) {
      PageParts(op, high, pg);
      DeviceGiga(pg);
      DeviceSlot(high, pg);
    } else {
      BlockParts(op, high, pg);
      DramGiga(pg);
      AlignedBlock(pg);
    }
    TopIndex(high);
  }

  lemma TopIndex(high: bool)
    ensures ((if high then 510 as Word else 0) + 0) as Index == (if high then 510 else 0)
    ensures ((if high then 510 as Word else 0) + 1) as Index == (if high then 511 else 1)
  {
  }

  lemma DeviceGiga(pg: Page)
    requires InDevice(pg)
    ensures pg.pa >> 30 == 0
  {
  }

  lemma DramGiga(pg: Page)
    requires InDram(pg)
    ensures pg.pa >> 30 == 1
  {
  }

  lemma AlignedBlock(pg: Page)
    requires pg.pa & 0x1F_FFFF == 0
    ensures Aligned(pg, 1)
  {
  }

  lemma DeviceField(pg: Page)
    requires InDevice(pg)
    ensures var f := (pg.pa >> 21) & 0x1FF;
      f == 16 || f == 17 || f == 18 || f == 48 || f == 32 || f == 33 || f == 128 || f == 129
  {
  }

  lemma DeviceSlot(high: bool, pg: Page)
    requires InDevice(pg)
    ensures Ptlx(Alias(high, pg.pa), 1) in {16, 17, 18, 48, 32, 33, 128, 129}
  {
    MappedSmall(pg);
    AliasLow(high, pg.pa);
    PtlxBits(Alias(high, pg.pa), 1);
    DeviceField(pg);
    hide Ptlx, Alias, FieldBits, InDevice;
  }
}
