/** What mmubootstrap leaves: both aliases of every covered page, 21 tables; and what mmulowdrop leaves of that. */
module BootResult {
  import opened Sv39
  import opened Lists
  import opened UserTree
  import opened KernelTree
  import opened Machine
  import opened ProcTables
  import opened PteWords
  import opened BootTables
  import opened BootRuns
  import opened BootMap

  lemma BootLeaves()
    ensures forall op :: op in BootstrapOps() ==> op.leaf.Leaf? && (op.BlockAt? ==> Aligned(op.leaf.frame, 1))
  {
    hide *;
    forall op | op in BootstrapOps() ensures op.leaf.Leaf? && (op.BlockAt? ==> Aligned(op.leaf.frame, 1)) {
      var high := BootSound(op);
      SoundSlots(op, high);
    }
  }

  /** DRAM blocks and device pages share no root slot, let alone a level-1 slot. */
  lemma BootCompatible()
    ensures Compatible(BootstrapOps())
  {
    BootLeaves();
    hide BootstrapOps, Aligned;
    forall a, c | a in BootstrapOps() && c in BootstrapOps() && a.BlockAt? && c.PageAt? ensures a.v.x2 != c.v.x2 {
      var h := BootSound(a);
      SoundSlots(a, h);
      var h' := BootSound(c);
      SoundSlots(c, h');
    }
  }

  // ----- the table budget -----

  function HalfMids(x2: Index): set<Slot> {
    {Mid(x2, 16), Mid(x2, 17), Mid(x2, 18), Mid(x2, 48), Mid(x2, 32), Mid(x2, 33), Mid(x2, 128), Mid(x2, 129)}
  }

  lemma HalfMidsSize(x2: Index)
    ensures |HalfMids(x2)| == 8
  {
  }

  /** A device page whose 2 MB slot is x1. */
  function DeviceAt(x1: Index): Page
    requires x1 in {16, 17, 18, 48, 32, 33, 128, 129}
  {
    if x1 == 16 then Page(0x0200_0000) else if x1 == 17 then Page(0x0220_0000) else if x1 == 18 then Page(0x0240_0000)
    else if x1 == 48 then Page(PHYSWDTRISCV) else if x1 == 32 then Page(PHYSMMC0) else if x1 == 33 then Page(PHYSEHCI1)
    else if x1 == 128 then Page(PHYSPLIC) else Page(PHYSPLICCTL)
  }

  lemma DeviceAtBits(x1: Index)
    requires x1 in {16, 17, 18, 48, 32, 33, 128, 129}
    ensures InDevice(DeviceAt(x1))
    ensures (DeviceAt(x1).pa >> 21) & 0x1FF == (
      if x1 == 16 then 16 else if x1 == 17 then 17 else if x1 == 18 then 18 else if x1 == 48 then 48
      else if x1 == 32 then 32 else if x1 == 33 then 33 else if x1 == 128 then 128 else 129)
  {
  }

  lemma SmallIndex(x1: Index)
    requires x1 in {16, 17, 18, 48, 32, 33, 128, 129}
    ensures (if x1 == 16 then 16 as Word else if x1 == 17 then 17 else if x1 == 18 then 18 else if x1 == 48 then 48
      else if x1 == 32 then 32 else if x1 == 33 then 33 else if x1 == 128 then 128 else 129) as Index == x1
  {
  }

  lemma DeviceAtSlots(high: bool, x1: Index)
    requires x1 in {16, 17, 18, 48, 32, 33, 128, 129}
    ensures var v := VpnOf(Alias(high, DeviceAt(x1).pa)); v.x2 == (if high then 510 else 0) && v.x1 == x1
    ensures InDevice(DeviceAt(x1))
  {
    hide *;
    var pg := DeviceAt(x1);
    DeviceAtBits(x1);
    SmallIndex(x1);
    MappedSmall(pg);
    VpnParts(Alias(high, pg.pa));
    PtlxBits(Alias(high, pg.pa), 2);
    PtlxBits(Alias(high, pg.pa), 1);
    AliasTop(high, pg.pa);
    AliasLow(high, pg.pa);
    DeviceGiga(pg);
    TopIndex(high);
  }

  lemma BootMids()
    ensures Mids(BootstrapOps()) == HalfMids(0) + HalfMids(510)
  {
    hide BootstrapOps, Sound, DeviceAt;
    forall s | s in Mids(BootstrapOps()) ensures s in HalfMids(0) + HalfMids(510) {
      var op :| op in BootstrapOps() && op.PageAt? && s == Mid(op.v.x2, op.v.x1);
      var high := BootSound(op);
      SoundSlots(op, high);
    }
    forall s | s in HalfMids(0) + HalfMids(510) ensures s in Mids(BootstrapOps()) {
      var high := s.x2 == 510;
      var op := DeviceOp(high, s.x1);
      assert op in BootstrapOps();
    }
  }

  lemma DeviceOp(high: bool, x1: Index) returns (op: Op)
    requires x1 in {16, 17, 18, 48, 32, 33, 128, 129}
    ensures op in BootstrapOps() && op.PageAt? && op.v.x2 == (if high then 510 else 0) && op.v.x1 == x1
  {
    hide *;
    var pg := DeviceAt(x1);
    op := PageAt(VpnOf(Alias(high, pg.pa)), Leaf(pg, DevAttr()));
    DeviceAtSlots(high, x1);
    DeviceCovered(high, pg);
    InBootstrap(op);
  }

  lemma BootTops()
    ensures Tops(BootstrapOps()) == {Top(0), Top(1), Top(510), Top(511)}
  {
    hide BootstrapOps, Sound;
    forall s | s in Tops(BootstrapOps()) ensures s in {Top(0), Top(1), Top(510), Top(511)} {
      var op :| op in BootstrapOps() && s == Top(op.v.x2);
      var high := BootSound(op);
      SoundSlots(op, high);
    }
    forall s | s in {Top(0), Top(1), Top(510), Top(511)} ensures s in Tops(BootstrapOps()) {
      var high := s.x2 >= 510;
      if s.x2 == 0 || s.x2 == 510 {
        var op := DeviceOp(high, 16);
        assert op in BootstrapOps();
      } else {
        var op := DramOp(high);
        assert op in BootstrapOps();
      }
    }
  }

  lemma DramOp(high: bool) returns (op: Op)
    ensures op in BootstrapOps() && op.v.x2 == (if high then 511 else 1)
  {
    var pg := Page(PHYSDRAM);
    assert InDram(pg) && BlockOf(pg) == pg;
    hide *;
    op := BlockAt(VpnOf(Alias(high, pg.pa)), Leaf(pg, MemAttr()));
    DramCovered(high, pg);
    HalfParts(high, op);
    InBootstrap(op);
    var h := BootSound(op);
    SoundSlots(op, h);
    MappedSmall(pg);
    VpnParts(Alias(high, pg.pa));
    PtlxBits(Alias(high, pg.pa), 2);
    AliasTop(high, pg.pa);
    DramGiga(pg);
    TopIndex(high);
  }

  lemma HalvesApart()
    ensures |HalfMids(0) + HalfMids(510)| == 16
  {
    HalfMidsSize(0);
    HalfMidsSize(510);
    forall s | s in HalfMids(0) ensures s.x2 == 0 {}
    forall s | s in HalfMids(510) ensures s.x2 == 510 {}
    hide HalfMids;
    assert HalfMids(0) !! HalfMids(510);
  }

  /** 1 + 4 + 16 of the 24 tables. */
  lemma BootBudget()
    ensures |Tops(BootstrapOps())| == 4 && |Mids(BootstrapOps())| == 16
  {
    BootTops();
    BootMids();
    HalvesApart();
    hide *;
  }

  // ----- the map -----

  ghost predicate Mapped(pg: Page) { InDram(pg) || InDevice(pg) }

  lemma MappedCovered(high: bool, pg: Page)
    requires Mapped(pg)
    ensures exists op :: op in BootstrapOps() && Covers(op, VpnOf(Alias(high, pg.pa)))
  {
    var v := VpnOf(Alias(high, pg.pa));
    var op: Op;
    if InDevice(pg) {
      op := PageAt(v, Leaf(pg, DevAttr()));
      DeviceCovered(high, pg);
    } else {
      op := BlockAt(VpnOf(Alias(high, BlockOf(pg).pa)), Leaf(BlockOf(pg), MemAttr()));
      DramCovered(high, pg);
      HalfParts(high, op);
      BlockFields(high, pg);
    }
    InBootstrap(op);
    hide *;
    CoversIf(op, v);
    assert op in BootstrapOps() && Covers(op, v);
  }

  lemma CoversIf(op: Op, v: Vpn)
    requires op.v.x2 == v.x2 && op.v.x1 == v.x1 && (op.PageAt? ==> op.v == v)
    ensures Covers(op, v)
  {
  }

  lemma BlockFields(high: bool, pg: Page)
    requires InDram(pg)
    ensures VpnOf(Alias(high, BlockOf(pg).pa)).x2 == VpnOf(Alias(high, pg.pa)).x2
    ensures VpnOf(Alias(high, BlockOf(pg).pa)).x1 == VpnOf(Alias(high, pg.pa)).x1
  {
    hide *;
    var b := BlockOf(pg);
    DramOffsetOf(pg);
    MappedSmall(pg);
    VpnParts(Alias(high, pg.pa));
    VpnParts(Alias(high, b.pa));
    SameBlockBits(pg);
    PtlxBits(Alias(high, pg.pa), 2);
    PtlxBits(Alias(high, pg.pa), 1);
    PtlxBits(Alias(high, b.pa), 2);
    PtlxBits(Alias(high, b.pa), 1);
    AliasTop(high, pg.pa);
    AliasLow(high, pg.pa);
    AliasTop(high, b.pa);
    AliasLow(high, b.pa);
  }

  lemma SameBlockBits(pg: Page)
    ensures BlockOf(pg).pa >> 30 == pg.pa >> 30 && (BlockOf(pg).pa >> 21) & 0x1FF == (pg.pa >> 21) & 0x1FF
  {
  }

  /** The calls map both aliases of every covered page to it, with its memory type. */
  lemma BootCovering(high: bool, pg: Page)
    requires Mapped(pg)
    ensures (forall op :: op in BootstrapOps() ==> op.leaf.Leaf?)
    ensures Covering(BootstrapOps(), VpnOf(Alias(high, pg.pa))) == Leaf(pg, MemoryType(pg))
  {
    BootLeaves();
    MappedCovered(high, pg);
    hide *;
    var v := VpnOf(Alias(high, pg.pa));
    MappedParts(pg);
    forall op | op in BootstrapOps() && Covers(op, v) ensures LeafFor(op, v) == Leaf(pg, MemoryType(pg)) {
      var h := BootSound(op);
      Agrees(op, h, high, pg);
    }
    CoveringIs(BootstrapOps(), v, Leaf(pg, MemoryType(pg)));
  }

  lemma MappedParts(pg: Page)
    ensures Mapped(pg) == (InDram(pg) || InDevice(pg))
  {
  }

  /** Nothing else is mapped. */
  lemma BootCoversOnly(v: Vpn)
    requires forall op :: op in BootstrapOps() ==> op.leaf.Leaf?
    requires Covering(BootstrapOps(), v) != Empty
    ensures exists high: bool, pg: Page :: Mapped(pg) && v == VpnOf(Alias(high, pg.pa))
  {
    hide *;
    if forall op :: op in BootstrapOps() ==> !Covers(op, v) {
      UncoveredEmpty(BootstrapOps(), v);
    }
    var op :| op in BootstrapOps() && Covers(op, v);
    var high := BootSound(op);
    var b := SoundOp(op, high);
    MappedParts(b);
    CoversParts(op, v);
    if PageFor(op, high, b) {
      PageParts(op, high, b);
      assert Mapped(b) && v == VpnOf(Alias(high, b.pa));
    } else {
      BlockParts(op, high, b);
      var pg := InBlock(b, v.x0);
      BlockPage(high, b, v);
      MappedParts(pg);
      assert Mapped(pg) && v == VpnOf(Alias(high, pg.pa));
    }
  }

  lemma BlockPage(high: bool, b: Page, v: Vpn)
    requires InDram(b) && b.pa & 0x1F_FFFF == 0
    requires VpnOf(Alias(high, b.pa)).x2 == v.x2 && VpnOf(Alias(high, b.pa)).x1 == v.x1
    ensures var pg := InBlock(b, v.x0); InDram(pg) && v == VpnOf(Alias(high, pg.pa))
  {
    hide *;
    var i: Word := IndexWord(v.x0);
    BlockFrame(b, i);
    BlockPageBits(b, i);
    var pg := InBlock(b, v.x0);
    DramBlock(b, pg);
    BlockFields(high, pg);
    MappedSmall(pg);
    VpnParts(Alias(high, pg.pa));
    PtlxBits(Alias(high, pg.pa), 0);
    AliasLow(high, pg.pa);
  }

  lemma {:induction false} IndexWord(x: Index) returns (i: Word)
    ensures i < 512 && i as Index == x
    decreases x
  {
    if x == 0 {
      i := 0;
    } else {
      var j := IndexWord(x - 1);
      NextWord(j);
      i := j + 1;
    }
  }

  lemma NextWord(j: Word)
    requires j < 512 && j as Index < 511
    ensures j + 1 < 512 && (j + 1) as Index == j as Index + 1
  {
  }

  lemma BlockPageBits(b: Page, i: Word)
    requires b.pa & 0x1F_FFFF == 0 && i < 512
    ensures var p := b.pa | (i << 12);
      p >> 21 == b.pa >> 21 && p & 0xFFF == 0 && (p >> 12) & 0x1FF == i && BlockOf(Page(p)) == b
  {
    hide *;
    var p := b.pa | (i << 12);
    UpperBits(b.pa, i);
    MiddleBits(b.pa, i);
    BlockBack(b, i);
  }

  lemma UpperBits(b: Word, i: Word)
    requires i < 512
    ensures (b | (i << 12)) >> 21 == b >> 21
  {
  }

  lemma MiddleBits(b: Word, i: Word)
    requires b & 0x1F_FFFF == 0 && i < 512
    ensures (b | (i << 12)) & 0xFFF == 0 && ((b | (i << 12)) >> 12) & 0x1FF == i
  {
  }

  lemma BlockBack(b: Page, i: Word)
    requires b.pa & 0x1F_FFFF == 0 && i < 512
    ensures BlockOf(Page(b.pa | (i << 12))) == b
  {
  }

  /** Both aliases of every covered page walk to it with the same memory type, and nothing else is mapped. */
  ghost predicate BootMapped(mem: Mem, root: Page) {
    && (forall high: bool, pg: Page :: Mapped(pg) ==>
        Walk(mem, root, VpnOf(Alias(high, pg.pa))) == Maps(pg, MemoryType(pg)))
    && (forall v: Vpn :: Walk(mem, root, v) != Fault ==> exists high: bool, pg: Page ::
          Mapped(pg) && v == VpnOf(Alias(high, pg.pa)))
  }

  /** From an empty root and 24 pages: 21 are taken, and the map is the boot map. */
  lemma BootMapIs(b: Boot)
    requires EmptyBoot(b) && |b.store| == NTABLES
    ensures var c := ApplyAll(b, BootstrapOps());
      && c.ntable == 21 && BootOk(c) && c.tab.Keys == Tops(BootstrapOps()) + Mids(BootstrapOps())
      && BootMapped(c.mem, c.store[0])
  {
    BootBudget();
    BootCompatible();
    BootLeaves();
    BudgetAndMap(b, BootstrapOps());
    hide *;
    BuiltIsMap(ApplyAll(b, BootstrapOps()));
  }

  // ----- the same by address -----

  predicate RamPage(p: Word) { p & 0xFFF == 0 && 0x4000_0000 <= p < 0x8000_0000 }

  predicate PioPage(p: Word) { p & 0xFFF == 0 && 0x0200_0000 <= p < 0x0260_0000 }

  /** PIO, and the watchdog, MMC0, EHCI1 and three PLIC pages. */
  predicate DevicePage(p: Word) {
    || PioPage(p) || p == 0x0601_1000 || p == 0x0402_0000 || p == 0x0420_0000
    || p == 0x1000_0000 || p == 0x1000_2000 || p == 0x1020_1000
  }

  /** 2 GB below the top of the address space. */
  function High(p: Word): Word { p + 0xFFFF_FFFF_8000_0000 }

  /** R, W, X, G, A and D; memory is cacheable and shareable, a device strongly ordered. */
  function KernelAttr(device: bool): Attr {
    Attr(true, true, true, false, true, true, true, device, !device, false, !device, 0)
  }

  /** v is the page number of a covered page, or of its address 2 GB below the top. */
  ghost predicate Source(v: Vpn) {
    exists p: Word :: (RamPage(p) || DevicePage(p)) && (v == VpnOf(p) || v == VpnOf(High(p)))
  }

  /** mmubootstrap's map: each page at its own address and 2 GB below the top, and nothing else. */
  ghost predicate MapsByAddress(mem: Mem, root: Page) {
    && (forall p: Word :: RamPage(p) || DevicePage(p) ==>
          && Walk(mem, root, VpnOf(p)) == Maps(Page(p), KernelAttr(DevicePage(p)))
          && Walk(mem, root, VpnOf(High(p))) == Maps(Page(p), KernelAttr(DevicePage(p))))
    && (forall v: Vpn :: Walk(mem, root, v) != Fault ==> Source(v))
  }

  lemma CoveredIs(pg: Page)
    ensures Mapped(pg) <==> RamPage(pg.pa) || DevicePage(pg.pa)
    ensures Mapped(pg) ==> MemoryType(pg) == KernelAttr(DevicePage(pg.pa))
  {
    RamIs(pg.pa);
    DeviceIs(pg.pa);
    Disjoint(pg.pa);
    TypeIs(pg);
    hide InDram, InDevice, RamPage, DevicePage;
  }

  lemma RamIs(p: Word)
    ensures InDram(Page(p)) <==> RamPage(p)
  {
  }

  lemma DeviceIs(p: Word)
    ensures InDevice(Page(p)) <==> DevicePage(p)
  {
    PioIs(p);
    hide InPio, PioPage;
  }

  lemma PioIs(p: Word)
    ensures InPio(Page(p)) <==> PioPage(p)
  {
  }

  lemma Disjoint(p: Word)
    ensures !(RamPage(p) && DevicePage(p))
  {
  }

  lemma TypeIs(pg: Page)
    ensures MemoryType(pg) == KernelAttr(!InDram(pg))
  {
    hide InDram;
  }

  lemma AliasesAre(p: Word)
    ensures Alias(false, p) == p && Alias(true, p) == High(p)
  {
  }

  lemma ByAddress(mem: Mem, root: Page)
    requires BootMapped(mem, root)
    ensures MapsByAddress(mem, root)
  {
    hide *;
    forall p: Word | RamPage(p) || DevicePage(p)
      ensures Walk(mem, root, VpnOf(p)) == Maps(Page(p), KernelAttr(DevicePage(p)))
      ensures Walk(mem, root, VpnOf(High(p))) == Maps(Page(p), KernelAttr(DevicePage(p)))
    {
      CoveredIs(Page(p));
      AliasesAre(p);
      MappedAt(mem, root, false, Page(p));
      MappedAt(mem, root, true, Page(p));
    }
    forall v: Vpn | Walk(mem, root, v) != Fault ensures Source(v) {
      SourceOf(mem, root, v);
    }
    ByAddressIf(mem, root);
  }

  lemma MappedAt(mem: Mem, root: Page, high: bool, pg: Page)
    requires BootMapped(mem, root) && Mapped(pg)
    ensures Walk(mem, root, VpnOf(Alias(high, pg.pa))) == Maps(pg, MemoryType(pg))
  {
    hide Walk, VpnOf, Mapped, MemoryType, Alias;
  }

  lemma SourceIf(v: Vpn, p: Word)
    requires (RamPage(p) || DevicePage(p)) && (v == VpnOf(p) || v == VpnOf(High(p)))
    ensures Source(v)
  {
    hide RamPage, DevicePage, VpnOf;
  }

  lemma BootSource(mem: Mem, root: Page, v: Vpn) returns (high: bool, pg: Page)
    requires BootMapped(mem, root) && Walk(mem, root, v) != Fault
    ensures Mapped(pg) && v == VpnOf(Alias(high, pg.pa))
  {
    hide Mapped, Walk, VpnOf, Alias, MemoryType;
    high, pg :| Mapped(pg) && v == VpnOf(Alias(high, pg.pa));
  }

  lemma SourceOf(mem: Mem, root: Page, v: Vpn)
    requires BootMapped(mem, root) && Walk(mem, root, v) != Fault
    ensures Source(v)
  {
    var high, pg := BootSource(mem, root, v);
    hide *;
    CoveredIs(pg);
    AliasesAre(pg.pa);
    SourceIf(v, pg.pa);
  }

  lemma ByAddressIf(mem: Mem, root: Page)
    requires forall p: Word :: RamPage(p) || DevicePage(p) ==>
      && Walk(mem, root, VpnOf(p)) == Maps(Page(p), KernelAttr(DevicePage(p)))
      && Walk(mem, root, VpnOf(High(p))) == Maps(Page(p), KernelAttr(DevicePage(p)))
    requires forall v: Vpn :: Walk(mem, root, v) != Fault ==> Source(v)
    ensures MapsByAddress(mem, root)
  {
    hide Walk, VpnOf, RamPage, DevicePage, KernelAttr, Source;
  }

  /** The boot map by address. */
  lemma BootMapByAddress(b: Boot)
    requires EmptyBoot(b) && |b.store| == 24
    ensures var c := ApplyAll(b, BootstrapOps()); |c.store| > 0 && MapsByAddress(c.mem, c.store[0])
  {
    BootMapIs(b);
    var c := ApplyAll(b, BootstrapOps());
    hide *;
    ByAddress(c.mem, c.store[0]);
    StoreSize(b);
  }

  lemma BuiltIsMap(c: Boot)
    requires (forall op :: op in BootstrapOps() ==> op.leaf.Leaf?) && Built(c, BootstrapOps())
    ensures |c.store| > 0
    ensures c.ntable == 21 && BootOk(c) && c.tab.Keys == Tops(BootstrapOps()) + Mids(BootstrapOps())
    ensures BootMapped(c.mem, c.store[0])
  {
    hide *;
    BootBudget();
    BuiltParts(c, BootstrapOps());
    BootOkParts(c);
    forall high: bool, pg: Page | Mapped(pg)
      ensures Walk(c.mem, c.store[0], VpnOf(Alias(high, pg.pa))) == Maps(pg, MemoryType(pg))
    {
      BootCovering(high, pg);
      WalkOnBTree(c.mem, c.store[0], c.tab, VpnOf(Alias(high, pg.pa)));
    }
    forall v: Vpn | Walk(c.mem, c.store[0], v) != Fault
      ensures exists high: bool, pg: Page :: Mapped(pg) && v == VpnOf(Alias(high, pg.pa))
    {
      WalkOnBTree(c.mem, c.store[0], c.tab, v);
      BootCoversOnly(v);
    }
    BootMappedIf(c.mem, c.store[0]);
  }

  lemma BootMappedIf(mem: Mem, root: Page)
    requires forall high: bool, pg: Page :: Mapped(pg) ==>
      Walk(mem, root, VpnOf(Alias(high, pg.pa))) == Maps(pg, MemoryType(pg))
    requires forall v: Vpn :: Walk(mem, root, v) != Fault ==> exists high: bool, pg: Page ::
      Mapped(pg) && v == VpnOf(Alias(high, pg.pa))
    ensures BootMapped(mem, root)
  {
  }

  // ----- mmulowdrop -----

  /** r[PTLX(PHYSTEXT, 2)] = 0; r[PTLX(PHYSPIO, 2)] = 0 */
  function LowDrop(mem: Mem, root: Page): Mem
    requires root in mem
  {
    Store(Store(mem, root, 1, Empty), root, 0, Empty)
  }

  function HighTables(tab: Tables): Tables { map s | s in tab && s.x2 >= 256 :: tab[s] }

  /** Exactly the translations of the low half go: none is left there, and the high half is as before. */
  lemma LowDropKeeps(mem: Mem, root: Page, tab: Tables)
    requires BTree(mem, root, tab)
    requires forall s :: s in tab && s.Top? && s.x2 < 256 ==> s.x2 == 0 || s.x2 == 1
    ensures var mem' := LowDrop(mem, root);
      && KTree(mem', root, HighTables(tab))
      && forall v: Vpn :: Walk(mem', root, v) == if v.User() then Fault else Walk(mem, root, v)
  {
    assert root in mem;
    hide *;
    LowDropTree(mem, root, tab);
    forall v: Vpn ensures Walk(LowDrop(mem, root), root, v) == if v.User() then Fault else Walk(mem, root, v) {
      WalkOnBTree(mem, root, tab, v);
      WalkOnBTree(LowDrop(mem, root), root, HighTables(tab), v);
      LowDropDeciding(mem, root, tab, v);
    }
  }

  lemma LowDropEntries(mem: Mem, root: Page)
    requires root in mem
    ensures LowDrop(mem, root).Keys == mem.Keys
    ensures forall p, y: Index ::
      Entry(LowDrop(mem, root), p, y) == if p == root && y <= 1 then Empty else Entry(mem, p, y)
  {
  }

  lemma LowDropTree(mem: Mem, root: Page, tab: Tables)
    requires BTree(mem, root, tab)
    requires forall s :: s in tab && s.Top? && s.x2 < 256 ==> s.x2 == 0 || s.x2 == 1
    ensures KTree(LowDrop(mem, root), root, HighTables(tab))
    ensures BTree(LowDrop(mem, root), root, HighTables(tab))
  {
    LowDropEntries(mem, root);
    hide InBlock, Aligned, LowDrop;
  }

  lemma LowDropDeciding(mem: Mem, root: Page, tab: Tables, v: Vpn)
    requires BTree(mem, root, tab)
    requires forall s :: s in tab && s.Top? && s.x2 < 256 ==> s.x2 == 0 || s.x2 == 1
    ensures Deciding(LowDrop(mem, root), HighTables(tab), v) == if v.User() then Empty else Deciding(mem, tab, v)
  {
    LowDropEntries(mem, root);
    hide InBlock, Aligned, LowDrop;
  }

  const PHYSTEXT: Word := 0x4100_0000

  lemma DropSlots()
    ensures Ptlx(PHYSTEXT, 2) == 1 && Ptlx(PHYSPIO, 2) == 0
  {
    assert (PHYSTEXT >> 30) & 0x1FF == 1 && (PHYSPIO >> 30) & 0x1FF == 0;
  }

  lemma DropIs(mem: Mem, root: Page)
    requires root in mem
    ensures LowDrop(mem, root) == Store(Store(mem, root, 1, Empty), root, 0, Empty)
  {
  }

  /** Only root slots 0 and 1 of the low half have tables. */
  ghost predicate LowTops(tab: Tables) { forall s :: s in tab && s.Top? && s.x2 < 256 ==> s.x2 == 0 || s.x2 == 1 }

  /** The machine main() starts with: the high half only, and process records that own nothing. */
  function Dropped(mem: Mem, root: Page, tab: Tables, pids: set<Pid>): Sys
    requires root in mem
  {
    Sys(LowDrop(mem, root), root, HighTables(tab), Some(root), map i | i in pids :: NO_TABLES, {})
  }

  /** mmulowdrop leaves every invariant of the machine true. */
  lemma DroppedInv(mem: Mem, root: Page, tab: Tables, pids: set<Pid>)
    requires BTree(mem, root, tab) && LowTops(tab)
    ensures root in mem && Inv(Dropped(mem, root, tab, pids))
    ensures forall v: Vpn :: Walk(LowDrop(mem, root), root, v) == if v.User() then Fault else Walk(mem, root, v)
  {
    LowDropKeeps(mem, root, tab);
    assert root in mem;
    hide KTree, BTree, LowDrop, HighTables, Walk, LowTops;
    var s := Dropped(mem, root, tab, pids);
    forall i | i in s.procs ensures ProcFits(s.mem, s.kroot, s.ktab, s.procs[i]) && Owned(s.procs[i]) == {} {
      assert s.procs[i] == NO_TABLES;
    }
  }

  /**
   After mmubootstrap and mmulowdrop every invariant holds, and kernel addresses translate as mmubootstrap left
   them.
   */
  lemma BootedInv(b: Boot, pids: set<Pid>)
    requires EmptyBoot(b) && |b.store| == NTABLES
    ensures var c := ApplyAll(b, BootstrapOps());
      && BootOk(c) && LowTops(c.tab) && c.store[0] in c.mem
      && Inv(Dropped(c.mem, c.store[0], c.tab, pids))
      && forall v: Vpn :: Walk(LowDrop(c.mem, c.store[0]), c.store[0], v) ==
           if v.User() then Fault else Walk(c.mem, c.store[0], v)
  {
    BootMapIs(b);
    hide *;
    StoreSize(b);
    var c := ApplyAll(b, BootstrapOps());
    BootOkParts(c);
    LowSlots(c.tab);
    DroppedInv(c.mem, c.store[0], c.tab, pids);
  }

  /** The booted machine owns tables of tablestore only: any other page may be handed out. */
  lemma OutsideUnowned(b: Boot, pids: set<Pid>, pg: Page)
    requires BootOk(b) && |b.store| > 0 && b.store[0] in b.mem && pg in b.mem && pg !in b.store
    ensures Unowned(Dropped(b.mem, b.store[0], b.tab, pids), pg)
  {
    hide *;
    TabInStore(b);
    NothingOwned();
    DroppedOwns(b.mem, b.store[0], b.tab, pids, pg);
  }

  lemma TabInStore(b: Boot)
    requires BootOk(b) && |b.store| > 0
    ensures b.store[0] in b.store && forall s :: s in b.tab ==> b.tab[s] in b.store
  {
    assert forall s :: s in b.tab ==> InUse(b, b.tab[s]);
    hide BTree;
  }

  lemma DroppedOwns(mem: Mem, root: Page, tab: Tables, pids: set<Pid>, pg: Page)
    requires root in mem && pg in mem && pg != root && (forall s :: s in tab ==> tab[s] != pg) && Owned(NO_TABLES) == {}
    ensures Unowned(Dropped(mem, root, tab, pids), pg)
  {
    hide Owned;
  }

  lemma NothingOwned()
    ensures Owned(NO_TABLES) == {}
  {
  }

  lemma LowSlots(tab: Tables)
    requires tab.Keys == Tops(BootstrapOps()) + Mids(BootstrapOps())
    ensures LowTops(tab)
  {
    hide Tops, Mids, BootstrapOps;
    forall s | s in tab && s.Top? && s.x2 < 256 ensures s.x2 == 0 || s.x2 == 1 {
      assert s in tab.Keys;
      TopSlots(s);
    }
  }

  lemma TopSlots(s: Slot)
    requires s in Tops(BootstrapOps()) + Mids(BootstrapOps()) && s.Top?
    ensures s.x2 == 0 || s.x2 == 1 || s.x2 >= 256
  {
    hide *;
    BootTops();
    NotMid(BootstrapOps(), s);
  }

  lemma NotMid(ops: seq<Op>, s: Slot)
    requires s.Top?
    ensures s !in Mids(ops)
  {
  }
}
