/**
 mem.h's page-table arithmetic on 64-bit words with C's wrap-around, and the entry the hardware
 decodes from each word mmu.c composes.
 */
module PteWords {
  import opened Lists
  import opened Sv39
  import opened ProcTables
  import opened KernelTree

  type Word = bv64

  const BY2PG: Word := 4096
  const KZERO: Word := 0xFFFF_FFFF_8000_0000

  const PTEVALID: Word := 0x1
  const PTEREAD: Word := 0x2
  const PTEWRITE: Word := 0x4
  const PTEEXEC: Word := 0x8
  const PTEUSER: Word := 0x10
  const PTEGLOBAL: Word := 0x20
  const PTEACCESSED: Word := 0x40
  const PTEDIRTY: Word := 0x80
  const PTEUNCACHED: Word := 0x100
  const PTENOEXEC: Word := 0x200
  const PTEDEVICE: Word := 0x400
  const PTE_THEAD_SO: Word := 0x8000_0000_0000_0000
  const PTE_THEAD_C: Word := 0x4000_0000_0000_0000
  const PTE_THEAD_B: Word := 0x2000_0000_0000_0000
  const PTE_THEAD_SH: Word := 0x1000_0000_0000_0000
  const PTEPTR: Word := PTEVALID
  const PTEPPNMASK: Word := 0x003F_FFFF_FFFF_FC00
  const PTELEAF: Word := 0xEF
  const PTELEAFMEM: Word := PTELEAF | PTE_THEAD_C | PTE_THEAD_SH
  const PTELEAFDEV: Word := PTELEAF | PTE_THEAD_SO
  const SATPMODE_SV39: Word := 0x8000_0000_0000_0000

  // ----- the macros -----

  function Kaddr(pa: Word): Word { pa + KZERO }

  /** The number of pages below offset o. */
  function PagesBelow(o: Word): nat { (o >> 12) as nat }

  /** PTLX(v, l) */
  function Ptlx(v: Word, l: nat): Index
    requires l < 3
  {
    if l == 2 then ((v >> 30) & 0x1FF) as Index
    else if l == 1 then ((v >> 21) & 0x1FF) as Index
    else ((v >> 12) & 0x1FF) as Index
  }

  function VpnOf(va: Word): Vpn { Vpn(Ptlx(va, 2), Ptlx(va, 1), Ptlx(va, 0)) }

  /** PPN(x): drop the page offset. */
  function Ppn(x: Word): Word { x & !(BY2PG - 1) }

  /** PTEPA(pte): the macro does not mask bits 63:54. */
  function PtePa(pte: Word): Word { (pte >> 10) << 12 }

  function PaPte(pa: Word): Word { (pa >> 12) << 10 }

  function MkSatp(rootPa: Word): Word { SATPMODE_SV39 | (rootPa >> 12) }

  function LinkWord(pa: Word): Word { PaPte(pa) | PTEPTR }

  /** A page-aligned physical address inside the 56 bits a PTE can name. */
  predicate PageAddr(pa: Word) { pa & 0xFF00_0000_0000_0FFF == 0 }

  // ----- what the hardware reads (sections 4.1.11 and 4.4.1) -----

  function HwPa(pte: Word): Word { (pte & PTEPPNMASK) << 2 }

  predicate Bit(w: Word, mask: Word) { w & mask != 0 }

  function AttrBits(w: Word): Attr {
    Attr(Bit(w, PTEREAD), Bit(w, PTEWRITE), Bit(w, PTEEXEC), Bit(w, PTEUSER), Bit(w, PTEGLOBAL), Bit(w, PTEACCESSED),
         Bit(w, PTEDIRTY), Bit(w, PTE_THEAD_SO), Bit(w, PTE_THEAD_C), Bit(w, PTE_THEAD_B), Bit(w, PTE_THEAD_SH),
         w & 0x0FC0_0000_0000_0300)
  }

  /** Everything outside the PPN field. */
  function AttrOf(w: Word): Attr { AttrBits(w & !PTEPPNMASK) }

  function Decode(w: Word): Pte {
    if !Bit(w, PTEVALID) then Empty
    else if !Bit(w, PTEREAD) && Bit(w, PTEWRITE) then Reserved
    else if Bit(w, PTEREAD) || Bit(w, PTEEXEC) then Leaf(Page(HwPa(w)), AttrOf(w))
    else if w >> 54 != 0 then Reserved
    else Next(Page(HwPa(w)))
  }

  /** The root a satp value selects, None in bare mode. */
  function SatpRoot(satp: Word): Option<Page> {
    if satp >> 60 == 8 then Some(Page((satp & 0xFFF_FFFF_FFFF) << 12)) else None
  }

  // ----- the words mmu.c composes -----

  lemma LinkBits(pa: Word)
    requires PageAddr(pa)
    ensures LinkWord(pa) & 0xF == 1
  {
  }

  lemma LinkPa(pa: Word)
    requires PageAddr(pa)
    ensures HwPa(LinkWord(pa)) == pa
  {
  }

  lemma LinkPtePa(pa: Word)
    requires PageAddr(pa)
    ensures PtePa(LinkWord(pa)) == pa
  {
  }

  lemma LinkHigh(pa: Word)
    requires PageAddr(pa)
    ensures LinkWord(pa) >> 54 == 0
  {
  }

  lemma LinkDecodes(pa: Word)
    requires PageAddr(pa)
    ensures Decode(LinkWord(pa)) == Next(Page(pa)) && PtePa(LinkWord(pa)) == pa
  {
    LinkBits(pa);
    LinkPa(pa);
    LinkPtePa(pa);
    LinkHigh(pa);
    LowBits(LinkWord(pa));
    hide LinkWord, HwPa, PtePa, AttrOf;
  }

  /** V set with R, W and X clear, from the low four bits. */
  lemma LowBits(w: Word)
    requires w & 0xF == 1
    ensures Bit(w, PTEVALID) && !Bit(w, PTEREAD) && !Bit(w, PTEWRITE) && !Bit(w, PTEEXEC)
  {
  }

  lemma SatpMode(pa: Word)
    requires PageAddr(pa)
    ensures MkSatp(pa) >> 60 == 8
  {
  }

  lemma SatpPpn(pa: Word)
    requires PageAddr(pa)
    ensures (MkSatp(pa) & 0xFFF_FFFF_FFFF) << 12 == pa
  {
  }

  lemma SatpDecodes(pa: Word)
    requires PageAddr(pa)
    ensures SatpRoot(MkSatp(pa)) == Some(Page(pa)) && SatpRoot(0) == None
  {
    SatpMode(pa);
    SatpPpn(pa);
    hide MkSatp;
  }

  /** The leaf attributes putmmu derives from the flags in its pa argument. */
  function PutAttr(pa: Word): Word {
    var attr := PTEVALID | PTEREAD | PTEUSER | PTEACCESSED | PTEDIRTY;
    var attr := if Bit(pa, PTEWRITE) then attr | PTEWRITE else attr;
    var attr := if !Bit(pa, PTENOEXEC) then attr | PTEEXEC else attr;
    if Bit(pa, PTEUNCACHED | PTEDEVICE) then attr | PTE_THEAD_SO else attr | PTE_THEAD_C | PTE_THEAD_SH
  }

  function PutWord(pa: Word): Word { PaPte(Ppn(pa)) | PutAttr(pa) }

  /** What fault.c asks for with pa: its page, writable, executable, and uncached or a device. */
  function MappingOf(pa: Word): Mapping {
    Mapping(Page(Ppn(pa)), Bit(pa, PTEWRITE), !Bit(pa, PTENOEXEC), Bit(pa, PTEUNCACHED | PTEDEVICE))
  }

  lemma PutDecodes(pa: Word)
    requires pa >> 56 == 0
    ensures Decode(PutWord(pa)) == Leaf(MappingOf(pa).frame, UserAttr(MappingOf(pa)))
  {
    PutFrame(pa);
    PutFlags(pa);
    PutType(pa);
  }

  lemma PutFrame(pa: Word)
    requires pa >> 56 == 0
    ensures HwPa(PutWord(pa)) == Ppn(pa) && Bit(PutWord(pa), PTEVALID) && Bit(PutWord(pa), PTEREAD)
  {
    PutPpn(pa);
    PutAttrClear(pa);
    OrFrame(PaPte(Ppn(pa)), PutAttr(pa));
    hide PutAttr;
  }

  lemma PutPpn(pa: Word)
    requires pa >> 56 == 0
    ensures PaPte(Ppn(pa)) & !PTEPPNMASK == 0 && HwPa(PaPte(Ppn(pa))) == Ppn(pa)
  {
  }

  lemma PutAttrClear(pa: Word)
    ensures PutAttr(pa) & PTEPPNMASK == 0 && PutAttr(pa) & 3 == 3
  {
  }

  lemma OrFrame(w: Word, attr: Word)
    requires w & !PTEPPNMASK == 0 && attr & PTEPPNMASK == 0 && attr & 3 == 3
    ensures HwPa(w | attr) == HwPa(w) && Bit(w | attr, PTEVALID) && Bit(w | attr, PTEREAD)
  {
  }

  lemma PutFlags(pa: Word)
    requires pa >> 56 == 0
    ensures var a := AttrOf(PutWord(pa));
      && a.write == Bit(pa, PTEWRITE) && a.exec == !Bit(pa, PTENOEXEC)
      && a.user && !a.global && a.accessed && a.dirty
  {
    assert PaPte(Ppn(pa)) & 0xFF == 0;
  }

  lemma PutType(pa: Word)
    requires pa >> 56 == 0
    ensures var a := AttrOf(PutWord(pa));
      && a.ordered == Bit(pa, PTEUNCACHED | PTEDEVICE) && a.cacheable == !a.ordered && a.shareable == !a.ordered
      && !a.bufferable && a.rest == 0
  {
    assert PaPte(Ppn(pa)) & 0xFFC0_0000_0000_0300 == 0;
  }

  // ----- splitblock's words -----

  /** splitblock's i-th page leaf, with PTEPA's unmasked high bits. */
  function SplitWord(pte: Word, i: Word): Word {
    PaPte(PtePa(pte) + i * BY2PG) | (pte & !PTEPPNMASK)
  }

  /** The high bits leak into the address and back to where they were: only the PPN changes. */
  lemma SplitWordExact(pte: Word, i: Word)
    requires pte & 0x7FC00 == 0 && i < 512
    ensures SplitWord(pte, i) == pte | (i << 10)
  {
  }

  lemma SplitDecodes(pte: Word, i: Word)
    requires Decode(pte).Leaf? && Aligned(Decode(pte).frame, 1) && i < 512
    ensures Decode(SplitWord(pte, i)) == Leaf(InBlock(Decode(pte).frame, i as Index), Decode(pte).attr)
  {
    AlignedPpn(pte);
    SplitWordExact(pte, i);
    SplitFrame(pte, i);
    SameKind(pte, pte | (i << 10));
    BlockFrame(Page(HwPa(pte)), i);
    hide SplitWord, AttrOf, HwPa, Decode, InBlock, Aligned;
  }

  lemma BlockFrame(f: Page, i: Word)
    requires i < 512
    ensures InBlock(f, i as Index) == Page(f.pa | (i << 12))
  {
    IndexBack(i);
  }

  /** Bits outside the PPN decide everything but the frame. */
  lemma SameKind(w: Word, u: Word)
    requires u & !PTEPPNMASK == w & !PTEPPNMASK && Decode(w).Leaf?
    ensures Decode(u) == Leaf(Page(HwPa(u)), Decode(w).attr) && Decode(w).frame == Page(HwPa(w))
  {
    SameBits(w, u);
    SameFlag(w, u, PTEVALID);
    SameFlag(w, u, PTEREAD);
    SameFlag(w, u, PTEWRITE);
    SameFlag(w, u, PTEEXEC);
    hide HwPa, Bit, AttrBits;
  }

  lemma SameFlag(w: Word, u: Word, mask: Word)
    requires u & 0xFF == w & 0xFF && mask & 0xFF == mask
    ensures Bit(u, mask) == Bit(w, mask)
  {
    assert u & mask == (u & 0xFF) & mask;
  }

  lemma AlignedPpn(pte: Word)
    requires HwPa(pte) & 0x1F_FFFF == 0
    ensures pte & 0x7FC00 == 0
  {
  }

  lemma SplitFrame(pte: Word, i: Word)
    requires i < 512
    ensures HwPa(pte | (i << 10)) == HwPa(pte) | (i << 12)
    ensures (pte | (i << 10)) & !PTEPPNMASK == pte & !PTEPPNMASK
  {
  }

  lemma IndexBack(i: Word)
    requires i < 512
    ensures (i as Index) as bv64 == i
  {
  }

  lemma SameBits(w: Word, u: Word)
    requires u & !PTEPPNMASK == w & !PTEPPNMASK
    ensures u & 0xFF == w & 0xFF
  {
  }

  // ----- mmuuncache's words -----

  lemma ClearDecodes(w: Word)
    requires !Decode(w).Reserved?
    ensures Decode(w & !PTE_THEAD_C) == ClearC(Decode(w))
  {
    var u := w & !PTE_THEAD_C;
    ClearFrame(w);
    ClearKeeps(w, PTEVALID);
    ClearKeeps(w, PTEREAD);
    ClearKeeps(w, PTEWRITE);
    ClearKeeps(w, PTEEXEC);
    ClearAttr(w);
    hide HwPa, Bit, AttrOf;
  }

  lemma ClearFrame(w: Word)
    ensures HwPa(w & !PTE_THEAD_C) == HwPa(w)
    ensures w >> 54 == 0 ==> (w & !PTE_THEAD_C) >> 54 == 0
  {
  }

  lemma ClearKeeps(w: Word, mask: Word)
    requires mask & PTE_THEAD_C == 0
    ensures Bit(w & !PTE_THEAD_C, mask) == Bit(w, mask)
  {
    assert (w & !PTE_THEAD_C) & mask == w & mask;
  }

  lemma ClearAttr(w: Word)
    ensures AttrOf(w & !PTE_THEAD_C) == AttrOf(w).(cacheable := false)
  {
    ClearCommutes(w);
    hide AttrBits, Bit;
    ClearBits(w & !PTEPPNMASK);
  }

  lemma ClearBits(u: Word)
    ensures AttrBits(u & !PTE_THEAD_C) == AttrBits(u).(cacheable := false)
  {
    ClearLow(u);
    ClearHigh(u);
    hide Bit;
  }

  lemma ClearCommutes(w: Word)
    ensures (w & !PTE_THEAD_C) & !PTEPPNMASK == (w & !PTEPPNMASK) & !PTE_THEAD_C
  {
  }

  lemma ClearLow(u: Word)
    ensures var c := u & !PTE_THEAD_C;
      && Bit(c, PTEREAD) == Bit(u, PTEREAD) && Bit(c, PTEWRITE) == Bit(u, PTEWRITE)
          && Bit(c, PTEEXEC) == Bit(u, PTEEXEC)
      && Bit(c, PTEUSER) == Bit(u, PTEUSER) && Bit(c, PTEGLOBAL) == Bit(u, PTEGLOBAL)
      && Bit(c, PTEACCESSED) == Bit(u, PTEACCESSED) && Bit(c, PTEDIRTY) == Bit(u, PTEDIRTY)
  {
    ClearKeeps(u, PTEREAD);
    ClearKeeps(u, PTEWRITE);
    ClearKeeps(u, PTEEXEC);
    ClearKeeps(u, PTEUSER);
    ClearKeeps(u, PTEGLOBAL);
    ClearKeeps(u, PTEACCESSED);
    ClearKeeps(u, PTEDIRTY);
    hide Bit;
  }

  lemma ClearHigh(u: Word)
    ensures var c := u & !PTE_THEAD_C;
      && Bit(c, PTE_THEAD_SO) == Bit(u, PTE_THEAD_SO) && !Bit(c, PTE_THEAD_C)
      && Bit(c, PTE_THEAD_B) == Bit(u, PTE_THEAD_B) && Bit(c, PTE_THEAD_SH) == Bit(u, PTE_THEAD_SH)
      && c & 0x0FC0_0000_0000_0300 == u & 0x0FC0_0000_0000_0300
  {
    ClearKeeps(u, PTE_THEAD_SO);
    ClearKeeps(u, PTE_THEAD_B);
    ClearKeeps(u, PTE_THEAD_SH);
    ClearRest(u);
    hide Bit;
  }

  lemma ClearRest(u: Word)
    ensures !Bit(u & !PTE_THEAD_C, PTE_THEAD_C)
    ensures (u & !PTE_THEAD_C) & 0x0FC0_0000_0000_0300 == u & 0x0FC0_0000_0000_0300
  {
  }

  // ----- how mmu.c reads words -----

  /** mmu.c's V test, its R|W|X test and PTEPA agree with the hardware on every word it can meet. */
  lemma SoftwareReads(w: Word)
    ensures Bit(w, PTEVALID) <==> !Decode(w).Empty?
    ensures Decode(w).Leaf? ==> w & (PTEREAD | PTEWRITE | PTEEXEC) != 0
    ensures Decode(w).Next? ==> w & (PTEREAD | PTEWRITE | PTEEXEC) == 0
    ensures Decode(w).Next? ==> Page(PtePa(w)) == Decode(w).table
    ensures Decode(0) == Empty
  {
    if Decode(w).Next? { NoHighBits(w); }
  }

  lemma NoHighBits(w: Word)
    requires w >> 54 == 0
    ensures PtePa(w) == HwPa(w)
  {
  }

  lemma UserVpn(va: Word)
    requires va >> 38 == 0
    ensures VpnOf(va).User()
  {
  }
}
