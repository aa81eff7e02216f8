/** The cache lines a flush cleans, as the bytes the page tables give its addresses. */
module FlushFrames {
  import opened Lists
  import opened NoteFrames
  import opened Sv39
  import opened PteWords
  import opened BlockRuns
  import CacheLines

  /** The kernel's addresses: the last 2 GB. */
  predicate Top(a: Word) { a >> 31 == 0x1_FFFF_FFFF }

  lemma IsTop(a: Word)
    requires a >> 31 == 0x1_FFFF_FFFF
    ensures Top(a)
  {
  }

  /** The address 2 GB on, from the top of the address space to its start. */
  function Down(a: Word): Word { a + 0x8000_0000 }

  function Up(p: Word): Word { p + 0xFFFF_FFFF_8000_0000 }

  // ----- words and the numbers they stand for -----

  function Back(n: U64): Word { n as bv64 }

  lemma NumBack(w: Word)
    ensures Back(Num(w)) == w
  {
  }

  lemma SameNum(a: Word, b: Word)
    requires Num(a) == Num(b)
    ensures a == b
  {
    hide *;
    NumBack(a);
    NumBack(b);
  }

  function Double(w: Word): Word { w << 1 }

  function DoubleOne(w: Word): Word { (w << 1) | 1 }

  lemma Doubled(w: Word)
    requires w >> 63 == 0
    ensures Num(Double(w)) == 2 * Num(w) && Num(DoubleOne(w)) == 2 * Num(w) + 1
  {
  }

  lemma DoubledNum(w: Word)
    requires Num(w) < 0x8000_0000_0000_0000
    ensures Num(Double(w)) == 2 * Num(w) && Num(DoubleOne(w)) == 2 * Num(w) + 1
  {
    Halves(w);
    Doubled(w);
  }

  lemma Halves(w: Word)
    requires Num(w) < 0x8000_0000_0000_0000
    ensures w >> 63 == 0
  {
  }

  /** The word of a number, bit by bit. */
  function WordOf(n: nat): Word {
    if n == 0 then 0 else if n % 2 == 0 then Double(WordOf(n / 2)) else DoubleOne(WordOf(n / 2))
  }

  lemma NoNum()
    ensures Num(0) == 0 && TWO64 == 0x1_0000_0000_0000_0000
  {
  }

  lemma {:induction false} WordNum(n: nat)
    requires n < TWO64
    ensures Num(WordOf(n)) == n
  {
    NoNum();
    if n != 0 {
      hide Num, Double, DoubleOne;
      WordNum(n / 2);
      DoubledNum(WordOf(n / 2));
    }
  }

  function Half(w: Word): Word { w >> 1 }

  predicate Odd(w: Word) { w & 1 == 1 }

  lemma HalfIs(w: Word)
    ensures w == if Odd(w) then DoubleOne(Half(w)) else Double(Half(w))
    ensures Half(w) >> 63 == 0
  {
  }

  lemma HalfNum(w: Word)
    ensures Num(w) == 2 * Num(Half(w)) + if Odd(w) then 1 else 0
  {
    HalfIs(w);
    Doubled(Half(w));
    hide Num, Odd, Half;
  }

  function Sum(a: Word, b: Word): Word { a + b }

  lemma SumBits(a: Word, b: Word)
    ensures Sum(Double(a), Double(b)) == Double(Sum(a, b)) && Sum(DoubleOne(a), Double(b)) == DoubleOne(Sum(a, b))
    ensures Sum(Double(a), DoubleOne(b)) == DoubleOne(Sum(a, b))
    ensures Sum(DoubleOne(a), DoubleOne(b)) == Double(Sum(Sum(a, b), 1))
  {
    hide *;
    Evens(a, b);
    OddIs(a);
    OddIs(b);
    OddIs(Sum(a, b));
    MoveOne(Double(a), Double(b));
    TwoMore(Sum(a, b));
  }

  lemma Evens(a: Word, b: Word)
    ensures Sum(Double(a), Double(b)) == Double(Sum(a, b))
  {
    assert Double(a) == a << 1 && Double(b) == b << 1 && Sum(a, b) == a + b;
    hide Sum, Double;
    SumIs(a << 1, b << 1);
    DoubleIs(a + b);
    EvenBits(a, b);
  }

  lemma EvenBits(a: Word, b: Word)
    ensures (a << 1) + (b << 1) == (a + b) << 1
  {
  }

  lemma SumIs(a: Word, b: Word)
    ensures Sum(a, b) == a + b
  {
  }

  lemma DoubleIs(a: Word)
    ensures Double(a) == a << 1
  {
  }

  lemma OddIs(a: Word)
    ensures DoubleOne(a) == Sum(Double(a), 1)
  {
  }

  lemma MoveOne(x: Word, y: Word)
    ensures Sum(Sum(x, 1), y) == Sum(Sum(x, y), 1) && Sum(x, Sum(y, 1)) == Sum(Sum(x, y), 1)
    ensures Sum(Sum(x, 1), Sum(y, 1)) == Sum(Sum(x, y), 2)
  {
    hide *;
    MoveLeft(x, y);
    MoveLeft(y, x);
    SumTurns(x, y);
    SumTurns(x, Sum(y, 1));
    MoveLeft(x, Sum(y, 1));
    OneAndOne(Sum(x, y));
  }

  lemma SumTurns(x: Word, y: Word)
    ensures Sum(x, y) == Sum(y, x)
  {
  }

  lemma MoveLeft(x: Word, y: Word)
    ensures Sum(Sum(x, 1), y) == Sum(Sum(x, y), 1)
  {
    assert Sum(x, 1) == x + 1 && Sum(x, y) == x + y;
    hide Sum;
    SumIs(x + 1, y);
    SumIs(x + y, 1);
    OneLeft(x, y);
  }

  lemma OneAndOne(s: Word)
    ensures Sum(Sum(s, 1), 1) == Sum(s, 2)
  {
  }

  lemma OneLeft(x: Word, y: Word)
    ensures (x + 1) + y == (x + y) + 1
  {
  }

  lemma TwoMore(s: Word)
    ensures Sum(Double(s), 2) == Double(Sum(s, 1))
  {
  }

  /** Words add as their numbers while the sum fits. */
  lemma {:induction false} NumSum(a: Word, b: Word)
    requires Num(a) + Num(b) < TWO64
    ensures Num(Sum(a, b)) == Num(a) + Num(b)
    decreases Num(a) + Num(b)
  {
    NoNum();
    HalfNum(a);
    HalfNum(b);
    HalfIs(a);
    HalfIs(b);
    SumBits(Half(a), Half(b));
    NoSum();
    OneIs();
    hide *;
    if Num(a) == 0 {
      SameNum(a, 0);
    } else if Num(b) == 0 {
      SameNum(b, 0);
    } else {
      var h := Sum(Half(a), Half(b));
      NumSum(Half(a), Half(b));
      DoubledNum(h);
      if Odd(a) && Odd(b) {
        NumSum(h, 1);
        DoubledNum(Sum(h, 1));
      }
    }
  }

  lemma NoSum()
    ensures forall w: Word :: Sum(w, 0) == w && Sum(0, w) == w
  {
  }

  lemma OneIs()
    ensures Num(1) == 1
  {
  }

  lemma SmallNum(p: Word)
    ensures p >> 31 == 0 <==> Num(p) < 0x8000_0000
  {
  }

  lemma UpNum(p: Word)
    requires p >> 31 == 0
    ensures Num(Up(p)) == Num(p) + 0xFFFF_FFFF_8000_0000
  {
  }

  lemma UpDown(a: Word, p: Word)
    ensures Up(Down(a)) == a && Down(Up(p)) == p && (p >> 31 == 0 ==> Top(Up(p))) && (Top(a) ==> Down(a) >> 31 == 0)
  {
  }

  /** An address is in the last 2 GB when its number is. */
  lemma TopNum(a: Word)
    ensures Top(a) <==> Num(a) >= 0xFFFF_FFFF_8000_0000
    ensures Top(a) ==> Num(Down(a)) == Num(a) - 0xFFFF_FFFF_8000_0000 && Down(a) >> 31 == 0
  {
    hide *;
    UpDown(a, 0);
    if Top(a) {
      UpNum(Down(a));
    }
    if Num(a) >= 0xFFFF_FFFF_8000_0000 {
      var p := WordOf(Num(a) - 0xFFFF_FFFF_8000_0000);
      NumBound(a);
      WordNum(Num(a) - 0xFFFF_FFFF_8000_0000);
      SmallNum(p);
      UpNum(p);
      SameNum(Up(p), a);
      UpDown(a, p);
    } else if Top(a) {
      NumBound(Down(a));
    }
  }

  lemma NumBound(a: Word)
    ensures 0 <= Num(a) < 0x1_0000_0000_0000_0000 && TWO64 == 0x1_0000_0000_0000_0000
  {
  }

  // ----- lines -----

  /** The bytes from va on, size of them. */
  predicate Within(a: Word, va: Word, size: Word) { va as int <= a as int < va as int + size as int }

  /** The physical address of a byte whose page is f. */
  function Byte(f: Page, a: Word): Word { f.pa | (a & 0xFFF) }

  /** line is the cache line of the byte some address in the range translates to. */
  ghost predicate FrameLine(mem: Mem, root: Page, va: Word, size: Word, line: int) {
    exists a: Word :: Within(a, va, size) && LineOfByte(mem, root, a, line)
  }

  predicate LineOfByte(mem: Mem, root: Page, a: Word, line: int) {
    var x := Walk(mem, root, VpnOf(a));
    x.Maps? && line == Byte(x.frame, a) as int / 64 * 64
  }

  /** Every address in the range translates, to the byte 2 GB on. */
  ghost predicate Offset(mem: Mem, root: Page, va: Word, size: Word) {
    forall a: Word :: Within(a, va, size) ==> OffsetAt(mem, root, a)
  }

  predicate OffsetAt(mem: Mem, root: Page, a: Word) {
    var x := Walk(mem, root, VpnOf(a));
    x.Maps? && Byte(x.frame, a) == a + 0x8000_0000
  }

  lemma OffsetLine(mem: Mem, root: Page, a: Word, line: int)
    requires OffsetAt(mem, root, a)
    ensures LineOfByte(mem, root, a, line) <==> line == Num(Down(a)) / 64 * 64
  {
    hide Walk, VpnOf, Byte;
  }

  // ----- the range -----

  function Pages(va: Word): Word { va >> 12 }

  predicate Small52(w: Word) { w >> 52 == 0 }

  function Times4096(w: Word): Word { w << 12 }

  lemma PagesBack(va: Word)
    requires OnPage(va)
    ensures Times4096(Pages(va)) == va && Small52(Pages(va))
  {
  }

  lemma NumTimes(w: Word)
    requires Small52(w)
    ensures Num(Times4096(w)) == 4096 * Num(w)
  {
  }

  lemma Aligned(va: Word, size: Word)
    requires OneBlock(va, size)
    ensures Num(va) % 64 == 0
  {
    hide *;
    AlignedBits(va, size);
    PagesBack(va);
    NumTimes(Pages(va));
    Multiple(Num(Pages(va)));
  }

  lemma Multiple(n: nat)
    ensures 4096 * n % 64 == 0
  {
  }

  predicate OnPage(va: Word) { va & 0xFFF == 0 }

  lemma AlignedBits(va: Word, size: Word)
    requires OneBlock(va, size)
    ensures OnPage(va)
  {
  }

  function BlockStart(p: Word): Word { p & 0xFFFF_FFFF_FFE0_0000 }

  function InBlock2M(p: Word): Word { p & 0x1F_FFFF }

  lemma BlockSum(p: Word)
    ensures Sum(BlockStart(p), InBlock2M(p)) == p && InBlock2M(p) <= 0x1F_FFFF
    ensures p >> 31 == 0 ==> BlockStart(p) >> 31 == 0
  {
  }

  lemma StartNum(p: Word)
    requires p >> 31 == 0
    ensures Num(BlockStart(p)) <= 0x7FE0_0000
  {
  }

  lemma Fits(va: Word, size: Word)
    requires RunFits(va, size) && Top(va)
    ensures size <= 0x20_0000 && Sum(InBlock2M(Down(va)), size) <= 0x20_0000 && InBlock2M(Down(va)) <= 0x20_0000
    ensures Down(va) >> 31 == 0
  {
  }

  /** The range does not reach past the end of the address space. */
  lemma NoWrap(va: Word, size: Word)
    requires OneBlock(va, size) && size >> 32 == 0 && Top(va)
    ensures Num(Down(va)) + Num(size) <= 0x8000_0000
  {
    hide *;
    BlockFits(va, size);
    Fits(va, size);
    var p := Down(va);
    var lo, hi := InBlock2M(p), BlockStart(p);
    BlockSum(p);
    StartNum(p);
    SizeBound(size);
    SizeBound(lo);
    SizeBound(Sum(lo, size));
    NoNum();
    NumSum(lo, size);
    NumSum(hi, lo);
  }

  /** At a kernel address whose range translates 2 GB down, the lines flushed are those of the bytes translated to. */
  lemma LinesAreFrames(mem: Mem, root: Page, va: Word, size: Word)
    requires OneBlock(va, size) && size >> 32 == 0 && Top(va) && Offset(mem, root, va, size)
    ensures forall line :: line in CacheLines.Flushed(CacheLines.Paddr(Num(va)), Num(size)) <==>
      FrameLine(mem, root, va, size, line)
    ensures Distinct(CacheLines.Flushed(CacheLines.Paddr(Num(va)), Num(size)))
  {
    hide *;
    TopNum(va);
    UncacheFlushes(va, size);
    Aligned(va, size);
    NoWrap(va, size);
    PaddrIs(va);
    var pa, n := Num(Down(va)), Num(size);
    forall line ensures CacheLines.Meets(line, pa, n) <==> FrameLine(mem, root, va, size, line) {
      if CacheLines.Meets(line, pa, n) {
        LineHasFrame(mem, root, va, size, line);
      }
      if FrameLine(mem, root, va, size, line) {
        FrameHasLine(mem, root, va, size, line);
      }
    }
  }

  /** PADDR is the hardware's offset. */
  lemma PaddrIs(va: Word)
    requires Top(va)
    ensures CacheLines.Paddr(Num(va)) == Num(Down(va))
  {
    TopNum(va);
    NumBound(va);
    hide Num, Down, Top;
  }

  /** PADDR undoes KADDR below 2 GB. */
  lemma PaddrOfKaddr(pa: Word)
    requires pa >> 31 == 0
    ensures CacheLines.Paddr(Num(pa + 0xFFFF_FFFF_8000_0000)) == Num(pa)
    ensures Kaddr(pa) == pa + 0xFFFF_FFFF_8000_0000
  {
    UpNum(pa);
    UpDown(0, pa);
    assert Up(pa) == pa + 0xFFFF_FFFF_8000_0000;
    hide Top, Up;
    PaddrIs(Up(pa));
  }

  lemma MeetsMeans(line: int, pa: int, n: int)
    ensures CacheLines.Meets(line, pa, n) <==> line % 64 == 0 && line < pa + n && pa < line + 64
  {
  }

  lemma WithinMeans(a: Word, va: Word, size: Word)
    ensures Within(a, va, size) <==> Num(va) <= Num(a) < Num(va) + Num(size)
  {
  }

  lemma LineHasFrame(mem: Mem, root: Page, va: Word, size: Word, line: int)
    requires OneBlock(va, size) && Top(va) && Offset(mem, root, va, size) && Num(Down(va)) + Num(size) <= 0x8000_0000
    requires Num(va) % 64 == 0 && CacheLines.Meets(line, Num(Down(va)), Num(size))
    ensures FrameLine(mem, root, va, size, line)
  {
    hide *;
    TopNum(va);
    MeetsMeans(line, Num(Down(va)), Num(size));
    LineAbove(line, Num(Down(va)), Num(va));
    var q := WordOf(line);
    var a := Up(q);
    NoNum();
    WordNum(line);
    SmallNum(q);
    UpNum(q);
    UpDown(va, q);
    WithinMeans(a, va, size);
    OffsetMeans(mem, root, va, size, a);
    OffsetLine(mem, root, a, line);
    LineIf(mem, root, va, size, a, line);
  }

  lemma LineAbove(line: int, pa: int, va: int)
    requires va % 64 == 0 && pa == va - 0xFFFF_FFFF_8000_0000 && line % 64 == 0 && pa < line + 64
    ensures pa <= line && line / 64 * 64 == line
  {
  }

  lemma OffsetIf(mem: Mem, root: Page, va: Word, size: Word)
    requires forall a: Word :: Within(a, va, size) ==> OffsetAt(mem, root, a)
    ensures Offset(mem, root, va, size)
  {
    hide Within, OffsetAt;
  }

  lemma OffsetMeans(mem: Mem, root: Page, va: Word, size: Word, a: Word)
    requires Offset(mem, root, va, size) && Within(a, va, size)
    ensures OffsetAt(mem, root, a)
  {
    hide OffsetAt, Within;
  }

  lemma LineIf(mem: Mem, root: Page, va: Word, size: Word, a: Word, line: int)
    requires Within(a, va, size) && LineOfByte(mem, root, a, line)
    ensures FrameLine(mem, root, va, size, line)
  {
    hide Within, LineOfByte;
  }

  lemma FrameHasLine(mem: Mem, root: Page, va: Word, size: Word, line: int)
    requires OneBlock(va, size) && Top(va) && Offset(mem, root, va, size) && FrameLine(mem, root, va, size, line)
    ensures CacheLines.Meets(line, Num(Down(va)), Num(size))
  {
    var a := LineAddress(mem, root, va, size, line);
    hide *;
    TopNum(va);
    TopNum(a);
    WithinMeans(a, va, size);
    OffsetMeans(mem, root, va, size, a);
    OffsetLine(mem, root, a, line);
    MeetsMeans(line, Num(Down(va)), Num(size));
    LineOf(line, Num(Down(a)));
  }

  lemma LineAddress(mem: Mem, root: Page, va: Word, size: Word, line: int) returns (a: Word)
    requires FrameLine(mem, root, va, size, line)
    ensures Within(a, va, size) && LineOfByte(mem, root, a, line)
  {
    hide Within, LineOfByte;
    a :| Within(a, va, size) && LineOfByte(mem, root, a, line);
  }

  lemma LineOf(line: int, pa: int)
    requires line == pa / 64 * 64
    ensures line % 64 == 0 && line <= pa < line + 64
  {
  }
}
