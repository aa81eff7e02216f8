/** The pages mmuuncache visits: va+o for o below size, all inside one 2 MB block. */
module BlockRuns {
  import opened Lists
  import opened PteWords

  import opened NoteFrames
  import CacheLines

  /** mmuuncache's two checks. */
  predicate OneBlock(va: Word, size: Word) {
    && size != 0 && (va | size) & (BY2PG - 1) == 0
    && va & !0x1F_FFFF == (va + size - 1) & !0x1F_FFFF
  }

  predicate OnPages(va: Word, size: Word) { va & 0xFFF == 0 && size & 0xFFF == 0 }

  /** Both bytes lie in one 2 MB block. */
  predicate SameBlock(a: Word, b: Word) { BlockNumber(a) == BlockNumber(b) }

  function BlockNumber(a: Word): Word { a >> 21 }

  function BlockBase(a: Word): Word { a & !0x1F_FFFF }

  function Numbered(b: Word): Word { b << 21 }

  predicate Masked(a: Word, b: Word) { BlockBase(a) == BlockBase(b) }

  /** mmuuncache's checks: whole pages, at least one, in one 2 MB block. */
  lemma OneBlockIs(va: Word, size: Word)
    ensures OneBlock(va, size) <==> size != 0 && OnPages(va, size) && SameBlock(va, va + size - 1)
  {
    CheckIs(va, size, va + size - 1);
    SameHigh(va, va + size - 1);
    PagesOnly(va, size);
    hide SameBlock, Masked, OnPages, OneBlock, Unaligned;
  }

  predicate Unaligned(va: Word, size: Word) { (va | size) & (BY2PG - 1) != 0 }

  lemma CheckIs(va: Word, size: Word, end: Word)
    requires end == va + size - 1
    ensures OneBlock(va, size) <==> size != 0 && !Unaligned(va, size) && Masked(va, end)
  {
  }

  lemma SameHigh(a: Word, b: Word)
    ensures Masked(a, b) <==> SameBlock(a, b)
  {
    BaseNumber(a);
    BaseNumber(b);
    hide BlockNumber, BlockBase, Numbered;
  }

  lemma BaseNumber(a: Word)
    ensures BlockBase(a) == Numbered(BlockNumber(a)) && BlockNumber(BlockBase(a)) == BlockNumber(a)
  {
  }

  lemma PagesOnly(va: Word, size: Word)
    ensures Unaligned(va, size) <==> !OnPages(va, size)
  {
  }

  predicate RunFits(va: Word, size: Word) {
    (va & 0x1F_FFFF) + size <= 0x20_0000 && size <= 0x20_0000 && va & 0xFFF == 0 && size & 0xFFF == 0
  }

  lemma BlockFits(va: Word, size: Word)
    requires OneBlock(va, size) && size >> 32 == 0
    ensures RunFits(va, size)
  {
  }

  /** A word as the number it stands for. */
  function Num(w: Word): U64 { w as int }

  lemma SizeBound(size: Word)
    requires size <= 0x20_0000
    ensures Num(size) <= 0x20_0000
  {
  }

  lemma SomeSize(size: Word)
    requires size != 0
    ensures Num(size) != 0
  {
  }

  lemma BlockSize(va: Word, size: Word)
    requires OneBlock(va, size) && size >> 32 == 0
    ensures size != 0 && size <= 0x20_0000
  {
  }

  /** mmuuncache asks dcflush for at most 2 MB, so exactly the lines of its pages are cleaned, each once. */
  lemma UncacheFlushes(va: Word, size: Word)
    requires OneBlock(va, size) && size >> 32 == 0 && Num(va) >= 0xFFFF_FFFF_8000_0000
    ensures 0 < Num(size) <= 0x20_0000 && CacheLines.Fits(CacheLines.Paddr(Num(va)), Num(size))
    ensures var pa, n, lines := CacheLines.Paddr(Num(va)), Num(size),
      CacheLines.Flushed(CacheLines.Paddr(Num(va)), Num(size));
      (forall line :: line in lines <==> CacheLines.Meets(line, pa, n)) && Distinct(lines)
  {
    hide *;
    BlockSize(va, size);
    SizeBound(size);
    SomeSize(size);
    CacheLines.SmallFits(Num(va), Num(size));
    CacheLines.FlushExact(CacheLines.Paddr(Num(va)), Num(size));
  }

  lemma PagesNext(size: Word, o: Word)
    requires size <= 0x20_0000 && size & 0xFFF == 0 && o < size && o & 0xFFF == 0
    ensures o + BY2PG <= size && (o + BY2PG) & 0xFFF == 0
    ensures PagesBelow(o + BY2PG) == PagesBelow(o) + 1
  {
  }

  lemma PagesMonotone(va: Word, size: Word, o: Word)
    requires RunFits(va, size) && o <= size && o & 0xFFF == 0
    ensures PagesBelow(o) <= PagesBelow(size)
  {
  }

  lemma IndexNext(u: Word, w: Word)
    requires Ptlx(u, 0) < 511 && w == u + BY2PG
    ensures Ptlx(w, 0) == Ptlx(u, 0) + 1
  {
  }

  /** Only a block's last page has index 511. */
  lemma NotLast(va: Word, size: Word, o: Word)
    requires RunFits(va, size) && o & 0xFFF == 0 && o < size && o + BY2PG < size
    ensures Ptlx(va + o, 0) < 511
  {
    NotLastBits(va, size, o);
    hide Ptlx, RunFits;
    IndexBelow(va + o);
  }

  lemma NotLastBits(va: Word, size: Word, o: Word)
    requires RunFits(va, size) && o & 0xFFF == 0 && o < size && o + BY2PG < size
    ensures ((va + o) >> 12) & 0x1FF < 511
  {
  }

  lemma IndexBelow(u: Word)
    requires (u >> 12) & 0x1FF < 511
    ensures Ptlx(u, 0) < 511
  {
  }

  lemma Reassociate(a: Word, b: Word)
    ensures (a + b) + BY2PG == a + (b + BY2PG)
  {
  }

  /** Where the loop stands after k pages. */
  predicate AtPage(va: Word, size: Word, o: Word, k: nat) {
    && RunFits(va, size) && o <= size && o & 0xFFF == 0 && PagesBelow(o) == k
    && (o < size ==> Ptlx(va + o, 0) == Ptlx(va, 0) + k)
  }

  lemma FirstTurn(va: Word, size: Word)
    requires RunFits(va, size)
    ensures AtPage(va, size, 0, 0)
  {
    assert va + 0 == va;
    assert PagesBelow(0) == 0;
  }

  lemma IndexTurn(va: Word, size: Word, o: Word, k: nat)
    requires RunFits(va, size) && o < size && o & 0xFFF == 0 && o + BY2PG < size && Ptlx(va + o, 0) == Ptlx(va, 0) + k
    ensures Ptlx(va + (o + BY2PG), 0) == Ptlx(va, 0) + k + 1
  {
    hide Ptlx, RunFits;
    NotLast(va, size, o);
    Reassociate(va, o);
    IndexNext(va + o, va + (o + BY2PG));
  }

  /** The next entry of the loop is the next index, and its step is one page. */
  lemma NextTurn(va: Word, size: Word, o: Word, k: nat)
    requires AtPage(va, size, o, k) && o < size
    ensures AtPage(va, size, o + BY2PG, k + 1) && k < PagesBelow(size)
    ensures Ptlx(va + o, 0) == Ptlx(va, 0) + k
  {
    hide PagesBelow, Ptlx;
    PagesNext(size, o);
    PagesMonotone(va, size, o + BY2PG);
    if o + BY2PG < size {
      IndexTurn(va, size, o, k);
    }
  }

  lemma LastTurn(va: Word, size: Word, o: Word, k: nat)
    requires AtPage(va, size, o, k) && !(o < size)
    ensures k == PagesBelow(size)
  {
    hide PagesBelow, Ptlx;
    assert o == size;
  }
}
