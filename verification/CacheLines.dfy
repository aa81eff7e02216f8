/** dcflush and dcacheciparange: which cache lines are cleaned for n bytes at v. */
module CacheLines {
  import opened Lists
  import opened NoteFrames

  const CACHELINE: int := 64
  const LINEMAX: int := TWO64 - CACHELINE    // the last line there is

  function Wrap(w: int): U64 { w % TWO64 }

  /** PADDR */
  function Paddr(v: U64): U64 { Wrap(v - 0xFFFF_FFFF_8000_0000) }

  /** ROUND(n, CACHELINE) on 64 bits. */
  function Round(n: U64): U64 { Wrap(n + 63) / 64 * 64 }

  /** MOVWU */
  function Low32(n: U64): U64 { n % 0x1_0000_0000 }

  /** The lines that meet [pa, pa+n), by the address of their first byte. */
  predicate Meets(line: int, pa: int, n: int) { line % CACHELINE == 0 && line < pa + n && pa < line + CACHELINE }

  /** The lines cleaned: from start on, len / CACHELINE of them. */
  function LinesFrom(start: int, len: int): seq<int>
    requires len >= 0
  {
    seq(len / CACHELINE, i requires 0 <= i < len / CACHELINE => start + CACHELINE * i)
  }

  /** The lines the loop cleans for len bytes at pa: a range that reaches the last line wraps. */
  function Cleaned(pa: U64, len: U64): seq<int> {
    if pa + len < TWO64 || len == 0 then LinesFrom(pa, len)
    else if pa == LINEMAX then [pa] + LinesFrom(0, len - CACHELINE)
    else [pa]
  }

  // ----- the loop -----

  /** The lines cleaned from the loop's head on, with R8 and R9 as they are. */
  function Rest(r8: U64, r9: U64): seq<int>
    requires r8 % CACHELINE == 0 && r9 % CACHELINE == 0
    decreases if r8 < r9 then r9 - r8 else TWO64
  {
    var next := Wrap(r8 + CACHELINE);
    NextLine(r8);
    [r8] + if next < r9 then Rest(next, r9) else []
  }

  lemma NextLine(r8: U64)
    requires r8 % CACHELINE == 0
    ensures Wrap(r8 + CACHELINE) % CACHELINE == 0
    ensures Wrap(r8 + CACHELINE) == if r8 == LINEMAX then 0 else r8 + CACHELINE
    ensures LINEMAX == TWO64 - CACHELINE && CACHELINE == 64
  {
  }

  /** Below its end the loop takes each line in turn. */
  lemma {:induction false} RestIs(r8: U64, r9: U64)
    requires r8 % CACHELINE == 0 && r9 % CACHELINE == 0 && r8 < r9
    ensures Rest(r8, r9) == LinesFrom(r8, r9 - r8)
    decreases r9 - r8
  {
    NextLine(r8);
    LineFits(r8, r9);
    LinesFirst(r8, r9 - r8);
    hide LinesFrom, Wrap;
    if r8 + CACHELINE < r9 {
      RestIs(r8 + CACHELINE, r9);
    } else {
      LinesNone(r8 + CACHELINE);
    }
  }

  lemma LineFits(a: int, b: int)
    requires a % CACHELINE == 0 && b % CACHELINE == 0 && a < b
    ensures a + CACHELINE <= b && (b - a) % CACHELINE == 0
  {
  }

  lemma LinesFirst(start: int, len: int)
    requires len >= CACHELINE && len % CACHELINE == 0
    ensures LinesFrom(start, len) == [start] + LinesFrom(start + CACHELINE, len - CACHELINE)
  {
  }

  lemma LinesNone(start: int)
    ensures LinesFrom(start, 0) == []
  {
  }

  lemma CleanedIs(pa: U64, len: U64)
    requires pa % CACHELINE == 0 && len % CACHELINE == 0 && 0 < len < 0x1_0000_0000
    ensures Wrap(pa + len) % CACHELINE == 0 && Cleaned(pa, len) == Rest(pa, Wrap(pa + len))
  {
    SumWhole(pa, len);
    NextLine(pa);
    hide LinesFrom, Rest;
    if pa + len < TWO64 {
      RestIs(pa, pa + len);
    } else {
      assert Wrap(pa + len) == pa + len - TWO64;
      RestOnce(pa, Wrap(pa + len));
      if pa == LINEMAX && len > CACHELINE {
        RestIs(0, len - CACHELINE);
      } else {
        LinesNone(0);
      }
    }
  }

  lemma RestOnce(r8: U64, r9: U64)
    requires r8 % CACHELINE == 0 && r9 % CACHELINE == 0
    ensures Wrap(r8 + CACHELINE) % CACHELINE == 0
    ensures Rest(r8, r9) == [r8] + if Wrap(r8 + CACHELINE) < r9 then Rest(Wrap(r8 + CACHELINE), r9) else []
  {
    NextLine(r8);
  }

  lemma SumWhole(pa: U64, len: U64)
    requires pa % CACHELINE == 0 && len % CACHELINE == 0
    ensures Wrap(pa + len) % CACHELINE == 0
  {
    var i, j := pa / CACHELINE, len / CACHELINE;
    assert pa == CACHELINE * i && len == CACHELINE * j;
    WholeLines(i + j);
    WrapWhole(pa + len);
  }

  lemma WholeLines(k: int)
    ensures (CACHELINE * k) % CACHELINE == 0
  {
  }

  lemma WrapWhole(w: int)
    requires 0 <= w < 2 * TWO64 && w % CACHELINE == 0
    ensures Wrap(w) % CACHELINE == 0
  {
  }

  lemma LowWhole(n: U64)
    requires n % CACHELINE == 0
    ensures Low32(n) % CACHELINE == 0
  {
    var j, c := n / CACHELINE, n / 0x1_0000_0000;
    assert n == CACHELINE * j && Low32(n) == n - 0x1_0000_0000 * c;
    WholeLines(j - 0x400_0000 * c);
  }

  /** The hart's cache operations, in order. */
  class Dcache {
    var cleaned: seq<int>

    /** Clean and invalidate the lines of [pa, pa+n), n read as 32 bits. */
    method Dcacheciparange(pa: U64, n: U64)
      requires pa % CACHELINE == 0 && n % CACHELINE == 0
      modifies this
      ensures cleaned == old(cleaned) + Cleaned(pa, Low32(n))
    {
      LowWhole(n);
      LowBound(n);
      hide Low32, Rest, Cleaned;
      var r9 := Low32(n);
      if r9 == 0 {
        CleanedNone(pa);
        return;
      }
      CleanedIs(pa, r9);
      r9 := Wrap(pa + r9);
      Loop(pa, r9);
    }

    /** Clean R8's line, and go on while the next is below R9. */
    method Loop(start: U64, r9: U64)
      requires start % CACHELINE == 0 && r9 % CACHELINE == 0
      modifies this
      ensures cleaned == old(cleaned) + Rest(start, r9)
    {
      hide Wrap, Rest;
      var r8: U64 := start;
      while true
        invariant r8 % CACHELINE == 0 && cleaned + Rest(r8, r9) == old(cleaned) + Rest(start, r9)
        decreases if r8 < r9 then r9 - r8 else TWO64
      {
        RestOnce(r8, r9);
        NextLine(r8);
        if r8 < r9 { LineBelow(r8, r9); }
        cleaned := cleaned + [r8];
        r8 := Wrap(r8 + CACHELINE);
        if !(r8 < r9) {
          break;
        }
      }
    }

    /** dcflush */
    method Dcflush(v: U64, n: U64)
      modifies this
      ensures cleaned == old(cleaned) + Flushed(Paddr(v), n)
    {
      var pa := Paddr(v);
      var off := pa % CACHELINE;
      FlushCall(pa, n);
      hide Wrap, Round, Low32, Cleaned, Paddr;
      Dcacheciparange(pa - off, Round(Wrap(n + off)));
    }
  }

  lemma CleanedNone(pa: U64)
    ensures Cleaned(pa, 0) == []
  {
  }

  lemma LineBelow(r8: U64, r9: U64)
    requires r8 % CACHELINE == 0 && r9 % CACHELINE == 0 && r8 < r9
    ensures r8 + CACHELINE <= r9 && r8 != LINEMAX
  {
  }

  lemma LowBound(n: U64)
    ensures Low32(n) < 0x1_0000_0000
  {
  }

  lemma FlushCall(pa: U64, n: U64)
    ensures var off := pa % CACHELINE;
      0 <= pa - off && (pa - off) % CACHELINE == 0 && Round(Wrap(n + off)) % CACHELINE == 0
  {
    hide Round;
    RoundWhole(Wrap(n + pa % CACHELINE));
  }

  lemma RoundWhole(n: U64)
    ensures Round(n) % CACHELINE == 0
  {
  }

  // ----- what is cleaned -----

  /** The lines dcflush cleans for n bytes at physical address pa. */
  function Flushed(pa: U64, n: U64): seq<int> {
    Cleaned(pa - pa % CACHELINE, Low32(Round(Wrap(n + pa % CACHELINE))))
  }

  /**
   The rounded length fits the 32 bits dcacheciparange reads, and the range ends below the last line unless it lies in
   a single line.
   */
  predicate Fits(pa: U64, n: U64) {
    n + pa % CACHELINE + 63 < 0x1_0000_0000 && (pa + n <= LINEMAX || pa % CACHELINE + n <= CACHELINE)
  }

  /** A flush of up to 2 MB at a KADDR address fits. */
  lemma SmallFits(v: U64, n: U64)
    requires v >= 0xFFFF_FFFF_8000_0000 && n <= 0x20_0000
    ensures Fits(Paddr(v), n)
  {
    assert Paddr(v) == v - 0xFFFF_FFFF_8000_0000;
  }

  lemma LineAt(start: int, len: nat, i: nat)
    requires i < len / CACHELINE
    ensures start + CACHELINE * i in LinesFrom(start, len)
  {
    assert LinesFrom(start, len)[i] == start + CACHELINE * i;
  }

  lemma InLines(start: int, len: nat, line: int)
    ensures line in LinesFrom(start, len) <==> exists i: nat :: i < len / CACHELINE && line == start + CACHELINE * i
    ensures line in LinesFrom(start, len) ==> start <= line < start + len
    ensures Distinct(LinesFrom(start, len))
  {
    if i: nat :| i < len / CACHELINE && line == start + CACHELINE * i {
      LineAt(start, len, i);
    }
  }

  lemma MeetsAt(pa: U64, n: U64, line: int)
    requires n > 0 && Meets(line, pa, n)
    ensures var start, len := pa - pa % CACHELINE, (n + pa % CACHELINE + 63) / 64 * 64;
      var i := (line - start) / CACHELINE;
      0 <= i < len / CACHELINE && line == start + CACHELINE * i
  {
    assert (line - (pa - pa % CACHELINE)) % CACHELINE == 0;
  }

  lemma LineMeets(pa: U64, n: U64, i: nat)
    requires n > 0 && i < (n + pa % CACHELINE + 63) / 64 * 64 / CACHELINE
    ensures Meets(pa - pa % CACHELINE + CACHELINE * i, pa, n)
  {
  }

  lemma FlushedIs(pa: U64, n: U64)
    requires n > 0 && Fits(pa, n)
    ensures Flushed(pa, n) == LinesFrom(pa - pa % CACHELINE, (n + pa % CACHELINE + 63) / 64 * 64)
  {
    var off := pa % CACHELINE;
    assert Wrap(n + off) == n + off && Wrap(n + off + 63) == n + off + 63;
    if pa + n > LINEMAX {
      assert pa - off <= LINEMAX && (n + off + 63) / 64 * 64 == 64;
      LinesNone(0);
      LinesFirst(pa - off, 64);
      LinesNone(pa - off + 64);
    }
    hide LinesFrom;
  }

  /** Each line that meets [pa, pa+n) is cleaned once, and no other. */
  lemma FlushExact(pa: U64, n: U64)
    requires n > 0 && Fits(pa, n)
    ensures forall line :: line in Flushed(pa, n) <==> Meets(line, pa, n)
    ensures Distinct(Flushed(pa, n))
  {
    hide Flushed, Fits, Meets, LinesFrom;
    var start, len := pa - pa % CACHELINE, (n + pa % CACHELINE + 63) / 64 * 64;
    FlushedIs(pa, n);
    InLines(start, len, 0);
    forall line ensures line in Flushed(pa, n) <==> Meets(line, pa, n) {
      InLines(start, len, line);
      if i: nat :| i < len / CACHELINE && line == start + CACHELINE * i {
        LineMeets(pa, n, i);
      }
      if Meets(line, pa, n) {
        MeetsAt(pa, n, line);
      }
    }
  }

  /** The first line the loop leaves out, when the length is cut or the range wraps. */
  function Missed(pa: U64, n: U64): int {
    var start, len := pa - pa % CACHELINE, Low32(Round(Wrap(n + pa % CACHELINE)));
    if start + len < TWO64 || len == 0 then start + len else start + CACHELINE
  }

  lemma CutLength(pa: U64, n: U64)
    requires n > 0 && n + pa % CACHELINE + 63 >= 0x1_0000_0000
    ensures var len := Low32(Round(Wrap(n + pa % CACHELINE)));
      len % CACHELINE == 0 && len <= 0xFFFF_FFC0 && len < n
  {
    var off := pa % CACHELINE;
    var q := Round(Wrap(n + off));
    RoundWhole(Wrap(n + off));
    LowWhole(q);
    if n < 0x1_0000_0000 {
      assert q == (n + off + 63) / 64 * 64;
      assert q == 0x1_0000_0000 || q == 0x1_0000_0040;
    }
  }

  lemma WholeLength(pa: U64, n: U64)
    requires n > 0 && n + pa % CACHELINE + 63 < 0x1_0000_0000
    ensures var len := Low32(Round(Wrap(n + pa % CACHELINE)));
      len % CACHELINE == 0 && n + pa % CACHELINE <= len
  {
    var off := pa % CACHELINE;
    assert Wrap(n + off) == n + off && Wrap(n + off + 63) == n + off + 63;
    RoundWhole(n + off);
  }

  lemma MissedMeets(pa: U64, n: U64)
    requires n > 0 && !Fits(pa, n)
    ensures Meets(Missed(pa, n), pa, n)
  {
    var len := Low32(Round(Wrap(n + pa % CACHELINE)));
    if n + pa % CACHELINE + 63 >= 0x1_0000_0000 { CutLength(pa, n); } else { WholeLength(pa, n); }
    hide Round, Low32, Wrap, Meets, Missed;
    MissedAt(pa, n);
    if Missed(pa, n) == pa - pa % CACHELINE + len {
      LineOf(pa, n, len);
    } else {
      LineOf(pa, n, CACHELINE);
    }
  }

  lemma MissedAt(pa: U64, n: U64)
    ensures var start, len := pa - pa % CACHELINE, Low32(Round(Wrap(n + pa % CACHELINE)));
      Missed(pa, n) == if start + len < TWO64 || len == 0 then start + len else start + CACHELINE
  {
  }

  lemma LineOf(pa: U64, n: U64, len: nat)
    requires len % CACHELINE == 0 && len < n + pa % CACHELINE
    ensures Meets(pa - pa % CACHELINE + len, pa, n)
  {
  }

  lemma MissedIs(pa: U64, n: U64)
    ensures Missed(pa, n) !in Flushed(pa, n)
  {
    var start, len := pa - pa % CACHELINE, Low32(Round(Wrap(n + pa % CACHELINE)));
    LowBound(Round(Wrap(n + pa % CACHELINE)));
    hide Round, Low32, Wrap;
    InLines(start, len, Missed(pa, n));
    if len >= CACHELINE {
      InLines(0, len - CACHELINE, Missed(pa, n));
    }
    hide LinesFrom;
  }

  /** Exactly the lines of the range are cleaned if and only if its rounded length fits and it does not wrap. */
  lemma FlushExactIff(pa: U64, n: U64)
    requires n > 0
    ensures (forall line :: line in Flushed(pa, n) <==> Meets(line, pa, n)) <==> Fits(pa, n)
  {
    hide *;
    if Fits(pa, n) {
      FlushExact(pa, n);
    } else {
      MissedMeets(pa, n);
      MissedIs(pa, n);
    }
  }

  /** A length 32 bits can hold but whose rounding they cannot: of 4 GB less a byte nothing is cleaned. */
  lemma CountIsCut()
    ensures Flushed(0, 0xFFFF_FFFF) == [] && Meets(0, 0, 0xFFFF_FFFF)
  {
    assert Round(0xFFFF_FFFF) == 0x1_0000_0000;
    LinesNone(0);
  }
}
