/**
 Sv39 once more, on the words themselves with every bit position written out (RISC-V Privileged Architecture 20211203,
 sections 4.1.11, 4.3.2, 4.4.1 and 4.4.2; bits 63:60 as the C906 defines them): a check on the constants of mem.h.
 */
module HwWalk {
  import opened Sv39
  import opened ProcTables
  import opened Machine
  import opened PteWords
  import opened RamWords

  /** The physical address of one byte, and the leaf word that gave it. */
  datatype Hit = Miss | Hit(pa: Word, pte: Word)

  /** Entry x of the table at a physical address; there is nothing where there is no memory. */
  function Fetch(ram: Ram, table: Word, x: Word): Word
    requires x < 512
  {
    if Page(table) in ram then ram[Page(table)][x as Index] else 0
  }

  /** V set, and not W without R. */
  predicate Usable(w: Word) { w & 1 == 1 && w & 6 != 4 }

  /** R or X set. */
  predicate IsLeaf(w: Word) { w & 0xA != 0 }

  /** The bits a pointer must have clear. */
  predicate NoHigh(w: Word) { w >> 54 == 0 }

  /** The PPN field, 53:10, as an address. */
  function Pa(w: Word): Word { (w & 0x3F_FFFF_FFFF_FC00) << 2 }

  /** VPN[l] */
  function Field(va: Word, l: nat): (x: Word)
    requires l < 3
    ensures x < 512
  {
    if l == 2 then (va >> 30) & 0x1FF else if l == 1 then (va >> 21) & 0x1FF else (va >> 12) & 0x1FF
  }

  /** The PPN bits a leaf at level l must have clear. */
  predicate Whole(w: Word, l: nat) {
    if l == 2 then w & 0xFFF_FC00 == 0 else if l == 1 then w & 0x7_FC00 == 0 else true
  }

  /** The byte of va in the page, 2 MB page or 1 GB page at p. */
  function Under(p: Word, va: Word, l: nat): Word {
    p | (va & (if l == 2 then 0x3FFF_FFFF else if l == 1 then 0x1F_FFFF else 0xFFF))
  }

  function Translate(ram: Ram, satp: Word, va: Word): Hit {
    if satp >> 60 == 8 then From(ram, (satp & 0xFFF_FFFF_FFFF) << 12, va, 2) else Miss
  }

  function From(ram: Ram, table: Word, va: Word, l: nat): Hit
    requires l < 3
    decreases l
  {
    var w := Fetch(ram, table, Field(va, l));
    if !Usable(w) then Miss
    else if IsLeaf(w) then if Whole(w, l) then Hit(Under(Pa(w), va, l), w) else Miss
    else if l > 0 && NoHigh(w) then From(ram, Pa(w), va, l - 1)
    else Miss
  }

  // ----- the words -----

  predicate Set(w: Word, k: nat)
    requires k < 64
  {
    (w >> k) & 1 == 1
  }

  /** Each attribute is its own bit. */
  lemma AttrIs(w: Word)
    ensures var a := AttrOf(w);
      && a.read == Set(w, 1) && a.write == Set(w, 2) && a.exec == Set(w, 3) && a.user == Set(w, 4)
      && a.global == Set(w, 5) && a.accessed == Set(w, 6) && a.dirty == Set(w, 7)
      && a.ordered == Set(w, 63) && a.cacheable == Set(w, 62) && a.bufferable == Set(w, 61) && a.shareable == Set(w, 60)
      && a.rest == w & 0x0FC0_0000_0000_0300
  {
  }

  /** Which entry a word decodes to. */
  lemma DecodeIs(w: Word)
    ensures Decode(w).Leaf? <==> Usable(w) && IsLeaf(w)
    ensures Decode(w).Leaf? ==> Decode(w) == Leaf(Page(Pa(w)), AttrOf(w))
    ensures Decode(w).Next? <==> Usable(w) && !IsLeaf(w) && NoHigh(w)
    ensures Decode(w).Next? ==> Decode(w) == Next(Page(Pa(w)))
  {
  }

  lemma EntryIs(ram: Ram, table: Word, x: Word)
    requires x < 512
    ensures Entry(Decoded(ram), Page(table), x as Index) == Decode(Fetch(ram, table, x))
  {
    hide *;
    EntryAt(ram, table, x as Index);
    FetchIs(ram, table, x, x as Index);
  }

  function WordAt(ram: Ram, table: Word, i: Index): Word {
    if Page(table) in ram then ram[Page(table)][i] else 0
  }

  lemma FetchIs(ram: Ram, table: Word, x: Word, i: Index)
    requires x < 512 && i == x as Index
    ensures Fetch(ram, table, x) == WordAt(ram, table, i)
  {
  }

  lemma EntryAt(ram: Ram, table: Word, i: Index)
    ensures Entry(Decoded(ram), Page(table), i) == Decode(WordAt(ram, table, i))
  {
    NoWord();
    hide Decode;
  }

  lemma NoWord()
    ensures Decode(0) == Empty
  {
  }

  // ----- the walk -----

  /** What a hit says, as a translation of its page. */
  ghost predicate Agrees(h: Hit, x: Xlat, va: Word) {
    match x
    case Fault => h == Miss
    case Maps(f, a) => h.Hit? && h.pa == Under(f.pa, va, 0) && a == AttrOf(h.pte) && Usable(h.pte)
  }

  predicate FieldsAre(v: Vpn, va: Word) {
    v.x2 == Field(va, 2) as Index && v.x1 == Field(va, 1) as Index && v.x0 == Field(va, 0) as Index
  }

  lemma LowAgrees(ram: Ram, table: Word, va: Word, v: Vpn)
    requires FieldsAre(v, va)
    ensures Agrees(From(ram, table, va, 0), Walk0(Decoded(ram), Page(table), v), va)
  {
    EntryIs(ram, table, Field(va, 0));
    DecodeIs(Fetch(ram, table, Field(va, 0)));
    hide Decode, Entry, Fetch, AttrOf, Decoded, Pa, Usable, IsLeaf, Field, Under;
  }

  lemma MidAgrees(ram: Ram, table: Word, va: Word, v: Vpn)
    requires FieldsAre(v, va)
    ensures Agrees(From(ram, table, va, 1), Walk1(Decoded(ram), Page(table), v), va)
  {
    var w := Fetch(ram, table, Field(va, 1));
    EntryIs(ram, table, Field(va, 1));
    DecodeIs(w);
    MidFrame(Pa(w), va, v);
    MidAligned(w);
    Down(ram, table, va, 1);
    hide *;
    LowAgrees(ram, Pa(w), va, v);
    MidCases(ram, table, va, v, w);
  }

  /** One level of the walk on words. */
  lemma Down(ram: Ram, table: Word, va: Word, l: nat)
    requires 1 <= l < 3
    ensures var w := Fetch(ram, table, Field(va, l));
      From(ram, table, va, l) ==
        if !Usable(w) then Miss
        else if IsLeaf(w) then if Whole(w, l) then Hit(Under(Pa(w), va, l), w) else Miss
        else if NoHigh(w) then From(ram, Pa(w), va, l - 1)
        else Miss
  {
    hide Fetch, Field, Usable, IsLeaf, Whole, Under, Pa, NoHigh;
  }

  lemma MidCases(ram: Ram, table: Word, va: Word, v: Vpn, w: Word)
    requires FieldsAre(v, va) && w == Fetch(ram, table, Field(va, 1))
    requires Entry(Decoded(ram), Page(table), v.x1) == Decode(w)
    requires Decode(w).Leaf? <==> Usable(w) && IsLeaf(w)
    requires Decode(w).Leaf? ==> Decode(w) == Leaf(Page(Pa(w)), AttrOf(w))
    requires Decode(w).Next? <==> Usable(w) && !IsLeaf(w) && NoHigh(w)
    requires Decode(w).Next? ==> Decode(w) == Next(Page(Pa(w)))
    requires Under(InBlock(Page(Pa(w)), v.x0).pa, va, 0) == Under(Pa(w), va, 1)
    requires Aligned(Page(Pa(w)), 1) <==> Whole(w, 1)
    requires Agrees(From(ram, Pa(w), va, 0), Walk0(Decoded(ram), Page(Pa(w)), v), va)
    ensures Agrees(From(ram, table, va, 1), Walk1(Decoded(ram), Page(table), v), va)
  {
    hide Fetch, Field, Usable, IsLeaf, Whole, Under, Pa, NoHigh, From, Entry, Decoded, Decode, AttrOf, InBlock, Aligned,
      Walk0, FieldsAre;
    Down(ram, table, va, 1);
  }

  lemma MidAligned(w: Word)
    ensures Aligned(Page(Pa(w)), 1) <==> Whole(w, 1)
  {
  }

  lemma MidFrame(p: Word, va: Word, v: Vpn)
    requires FieldsAre(v, va)
    ensures Under(InBlock(Page(p), v.x0).pa, va, 0) == Under(p, va, 1)
  {
    hide *;
    MidBits(p, va);
    FieldsMean(v, va);
    BlockIs(p, Field(va, 0));
  }

  lemma FieldsMean(v: Vpn, va: Word)
    requires FieldsAre(v, va)
    ensures v.x2 == Field(va, 2) as Index && v.x1 == Field(va, 1) as Index && v.x0 == Field(va, 0) as Index
  {
    hide Field;
  }

  lemma BlockIs(p: Word, x: Word)
    requires x < 512
    ensures InBlock(Page(p), x as Index).pa == Page4K(p, x)
  {
    IndexBack(x);
  }

  /** The x-th 4 KB page of the 2 MB page at p, and the x-th 2 MB page of the 1 GB page at p. */
  function Page4K(p: Word, x: Word): Word { p | (x << 12) }

  function Page2M(p: Word, x: Word): Word { p | (x << 21) }

  lemma MidBits(p: Word, va: Word)
    ensures Under(Page4K(p, Field(va, 0)), va, 0) == Under(p, va, 1)
  {
  }

  // ----- the root level -----

  lemma RootAligned(w: Word)
    ensures Aligned(Page(Pa(w)), 2) <==> Whole(w, 2)
  {
  }

  lemma GigaIs(p: Word, x: Word)
    requires x < 512
    ensures InGiga(Page(p), x as Index) == Page(Page2M(p, x))
  {
    IndexBack(x);
  }

  lemma RootBits(p: Word, va: Word)
    ensures Under(Page2M(p, Field(va, 1)), va, 1) == Under(p, va, 2)
  {
  }

  lemma RootFrame(p: Word, va: Word, v: Vpn)
    requires FieldsAre(v, va)
    ensures Under(InBlock(InGiga(Page(p), v.x1), v.x0).pa, va, 0) == Under(p, va, 2)
  {
    hide *;
    FieldsMean(v, va);
    GigaIs(p, Field(va, 1));
    MidFrame(Page2M(p, Field(va, 1)), va, v);
    RootBits(p, va);
  }

  lemma RootAgrees(ram: Ram, table: Word, va: Word, v: Vpn)
    requires FieldsAre(v, va)
    ensures Agrees(From(ram, table, va, 2), Walk(Decoded(ram), Page(table), v), va)
  {
    var w := Fetch(ram, table, Field(va, 2));
    EntryIs(ram, table, Field(va, 2));
    DecodeIs(w);
    RootFrame(Pa(w), va, v);
    RootAligned(w);
    Down(ram, table, va, 2);
    hide *;
    MidAgrees(ram, Pa(w), va, v);
    RootCases(ram, table, va, v, w);
  }

  lemma RootCases(ram: Ram, table: Word, va: Word, v: Vpn, w: Word)
    requires FieldsAre(v, va) && w == Fetch(ram, table, Field(va, 2))
    requires Entry(Decoded(ram), Page(table), v.x2) == Decode(w)
    requires Decode(w).Leaf? <==> Usable(w) && IsLeaf(w)
    requires Decode(w).Leaf? ==> Decode(w) == Leaf(Page(Pa(w)), AttrOf(w))
    requires Decode(w).Next? <==> Usable(w) && !IsLeaf(w) && NoHigh(w)
    requires Decode(w).Next? ==> Decode(w) == Next(Page(Pa(w)))
    requires Under(InBlock(InGiga(Page(Pa(w)), v.x1), v.x0).pa, va, 0) == Under(Pa(w), va, 2)
    requires Aligned(Page(Pa(w)), 2) <==> Whole(w, 2)
    requires Agrees(From(ram, Pa(w), va, 1), Walk1(Decoded(ram), Page(Pa(w)), v), va)
    ensures Agrees(From(ram, table, va, 2), Walk(Decoded(ram), Page(table), v), va)
  {
    hide Fetch, Field, Usable, IsLeaf, Whole, Under, Pa, NoHigh, From, Entry, Decoded, Decode, AttrOf, InBlock, InGiga,
      Aligned, Walk1, FieldsAre;
    Down(ram, table, va, 2);
  }

  /** PTLX at levels 2, 1 and 0 is VPN[2], VPN[1] and VPN[0]. */
  lemma VpnIs(va: Word)
    ensures FieldsAre(VpnOf(va), va)
  {
  }

  /** The walk on decoded tables is the walk on words, bit for bit. */
  lemma WalkIs(ram: Ram, satp: Word, va: Word)
    ensures Agrees(Translate(ram, satp, va), WalkVia(Decoded(ram), SatpRoot(satp), VpnOf(va)), va)
  {
    VpnIs(va);
    RootAgrees(ram, (satp & 0xFFF_FFFF_FFFF) << 12, va, VpnOf(va));
    hide From, Walk, Decoded, VpnOf, AttrOf, FieldsAre, Under;
  }

  // ----- putmmu's leaf -----

  /**
   What putmmu(va, pa) is asked for: pa's page, readable in user mode, accessed and dirty; writable if bit 2 of pa is
   set, executable unless bit 9 is; strongly ordered if bit 8 or 10 is set, else cacheable and shareable.
   */
  predicate Granted(h: Hit, va: Word, pa: Word) {
    && h.Hit? && h.pa == (pa & 0xFF_FFFF_FFFF_F000) | (va & 0xFFF)
    && h.pte & 0xF3 == 0xD3 && (h.pte & 0x4 != 0 <==> pa & 0x4 != 0) && (h.pte & 0x8 != 0 <==> pa & 0x200 == 0)
    && h.pte >> 60 == if pa & 0x500 != 0 then 8 else 5
  }

  /** The word itself. */
  lemma PutBits(pa: Word)
    requires pa >> 56 == 0
    ensures var w := PutWord(pa);
      && w & 0xF3 == 0xD3 && (w & 0x4 != 0 <==> pa & 0x4 != 0) && (w & 0x8 != 0 <==> pa & 0x200 == 0)
      && w >> 54 == (if pa & 0x500 != 0 then 0x200 else 0x140) && w & 0x300 == 0
      && (w & 0x3F_FFFF_FFFF_FC00) << 2 == pa & 0xFF_FFFF_FFFF_F000
  {
  }

  lemma FlagsAre(pa: Word)
    ensures MappingOf(pa) ==
      Mapping(Page(pa & 0xFFFF_FFFF_FFFF_F000), pa & 0x4 != 0, pa & 0x200 == 0, pa & 0x500 != 0)
  {
  }

  lemma LeafBits(w: Word, write: bool, exec: bool, ordered: bool)
    requires Usable(w) && Set(w, 1) && Set(w, 2) == write && Set(w, 3) == exec && Set(w, 4) && !Set(w, 5)
    requires Set(w, 6) && Set(w, 7)
    requires Set(w, 63) == ordered && Set(w, 62) == !ordered && !Set(w, 61) && Set(w, 60) == !ordered
    ensures w & 0xF3 == 0xD3 && (w & 0x4 != 0 <==> write) && (w & 0x8 != 0 <==> exec)
    ensures w >> 60 == if ordered then 8 else 5
  {
    LowBits(w);
    RightBits(w);
    TypeBits(w, ordered);
    hide Set, Usable;
  }

  lemma LowBits(w: Word)
    requires Usable(w) && Set(w, 1) && Set(w, 4) && !Set(w, 5) && Set(w, 6) && Set(w, 7)
    ensures w & 0xF3 == 0xD3
  {
  }

  lemma RightBits(w: Word)
    ensures (w & 0x4 != 0 <==> Set(w, 2)) && (w & 0x8 != 0 <==> Set(w, 3))
  {
  }

  lemma TypeBits(w: Word, ordered: bool)
    requires Set(w, 63) == ordered && Set(w, 62) == !ordered && !Set(w, 61) && Set(w, 60) == !ordered
    ensures w >> 60 == if ordered then 8 else 5
  {
    TopBits(w);
    hide Set;
    TopValue(w >> 60, ordered);
  }

  lemma TopBits(w: Word)
    ensures (Set(w, 63) <==> (w >> 60) & 8 == 8) && (Set(w, 62) <==> (w >> 60) & 4 == 4)
    ensures (Set(w, 61) <==> (w >> 60) & 2 == 2) && (Set(w, 60) <==> (w >> 60) & 1 == 1) && (w >> 60) & 15 == w >> 60
  {
  }

  lemma TopValue(x: Word, ordered: bool)
    requires x & 15 == x && (x & 8 == 8 <==> ordered) && (x & 4 == 4 <==> !ordered) && x & 2 != 2
    requires x & 1 == 1 <==> !ordered
    ensures x == if ordered then 8 else 5
  {
  }

  lemma FrameBits(pa: Word)
    requires pa >> 56 == 0
    ensures pa & 0xFFFF_FFFF_FFFF_F000 == pa & 0xFF_FFFF_FFFF_F000
  {
  }

  /** A user translation to what was asked for is, in the words, just that. */
  lemma GrantedIf(h: Hit, va: Word, pa: Word)
    requires pa >> 56 == 0 && Agrees(h, Maps(MappingOf(pa).frame, UserAttr(MappingOf(pa))), va)
    ensures Granted(h, va, pa)
  {
    FlagsAre(pa);
    FrameBits(pa);
    AttrIs(h.pte);
    hide AttrOf, MappingOf, Set, Usable;
    LeafBits(h.pte, pa & 0x4 != 0, pa & 0x200 == 0, pa & 0x500 != 0);
  }
}
