/** The pages newtable hands out: distinct, aligned and inside tablestore. */
module TableStore {
  import opened Sv39
  import opened Lists
  import opened PteWords
  import opened BootRegions
  import opened BootMap

  /** PGROUND */
  function Pground(s: Word): Word { (s + (BY2PG - 1)) & !(BY2PG - 1) }

  /** The i-th page newtable hands out. */
  function TablePage(tablestore: Word, i: nat): Page { Page(Nth(Pground(tablestore), BY2PG, i)) }

  function TablePages(tablestore: Word): seq<Page> {
    seq(NTABLES, i requires 0 <= i < NTABLES => TablePage(tablestore, i))
  }

  /** The whole page lies in the (NTABLES+1)*512 words of tablestore. */
  predicate InStore(tablestore: Word, pg: Page) { Minus(pg.pa, tablestore) <= 0x1_8000 }

  lemma {:induction false} NthOffset(o: Word, k: nat)
    ensures Nth(o, BY2PG, k) == Plus(o, Nth(0, BY2PG, k))
    decreases k
  {
    hide *;
    if k == 0 {
      NthZero(o, BY2PG);
      NthZero(0, BY2PG);
      AtZero(o);
    } else {
      NthOffset(o, k - 1);
      NthMore(o, BY2PG, k - 1);
      NthMore(0, BY2PG, k - 1);
      PlusGroups(o, Nth(0, BY2PG, k - 1), BY2PG);
    }
  }

  lemma PlusGroups(a: Word, b: Word, c: Word)
    ensures Plus(Plus(a, b), c) == Plus(a, Plus(b, c))
  {
    hide *;
    PlusCommutes(a, b);
    PlusSwaps(b, a, c);
    PlusCommutes(Plus(b, c), a);
  }

  lemma PlusCommutes(a: Word, b: Word)
    ensures Plus(a, b) == Plus(b, a)
  {
  }

  /** The k-th page offset, below 24 pages. */
  lemma {:induction false} NthCounts(k: nat)
    requires k < NTABLES
    ensures PioOffset(Nth(0, BY2PG, k)) && PagesBelow(Nth(0, BY2PG, k)) == k
  {
    hide *;
    NthZero(0, BY2PG);
    if k == 0 {
      PioZero();
      PageCount(0);
    } else {
      var d := Nth(0, BY2PG, k - 1);
      NthCounts(k - 1);
      NthMore(0, BY2PG, k - 1);
      PageCount(d);
      PioMore(d);
    }
  }

  lemma PioZero()
    ensures PioOffset(0)
  {
  }

  lemma PioMore(d: Word)
    requires PioOffset(d) && PagesBelow(d) < NTABLES
    ensures PioOffset(Plus(d, BY2PG))
  {
  }

  lemma Cancel(a: Word, b: Word, c: Word)
    requires Plus(a, b) == Plus(a, c)
    ensures b == c
  {
    PlusMinus(a, b);
    PlusMinus(a, c);
    hide *;
  }

  lemma PlusMinus(a: Word, b: Word)
    ensures Minus(Plus(a, b), a) == b
  {
    hide *;
    Shifted(a, a, b);
    Nothing(a);
    PlusCommutes(0, b);
    AtZero(b);
  }

  lemma Nothing(a: Word)
    ensures Minus(a, a) == 0
  {
  }

  lemma OuterMinus(a: Word, b: Word)
    ensures Minus(a, b) == a - b
  {
  }

  lemma PagesDistinct(tablestore: Word, i: nat, j: nat)
    requires i < j < NTABLES
    ensures TablePage(tablestore, i) != TablePage(tablestore, j)
  {
    var base := Pground(tablestore);
    if TablePage(tablestore, i) == TablePage(tablestore, j) {
      hide *;
      NthOffset(base, i);
      NthOffset(base, j);
      Cancel(base, Nth(0, BY2PG, i), Nth(0, BY2PG, j));
      NthCounts(i);
      NthCounts(j);
    }
  }

  lemma RoundUp(s: Word)
    ensures Minus(Pground(s), s) & !0xFFF == 0
  {
  }

  lemma Within(x: Word, d: Word)
    requires x & !0xFFF == 0 && d & 0xFFF == 0 && d <= 0x1_7000
    ensures Plus(x, d) <= 0x1_8000
  {
  }

  lemma CountBound(d: Word)
    requires PioOffset(d) && PagesBelow(d) < NTABLES
    ensures d <= 0x1_7000 && d & 0xFFF == 0
  {
  }

  lemma Shifted(s: Word, base: Word, d: Word)
    ensures Minus(Plus(base, d), s) == Plus(Minus(base, s), d)
  {
    assert Plus(base, d) == base + d;
    assert Minus(base, s) == base - s;
    hide Plus, Minus;
    OuterMinus(base + d, s);
    OuterPlus(base - s, d);
    Moved(s, base, d);
  }

  lemma Moved(s: Word, base: Word, d: Word)
    ensures (base + d) - s == (base - s) + d
  {
  }

  /** Aligned, and inside tablestore whatever its own alignment. */
  lemma PageInStore(tablestore: Word, i: nat)
    requires i < NTABLES
    ensures InStore(tablestore, TablePage(tablestore, i))
  {
    hide *;
    var base := Pground(tablestore);
    var d := Nth(0, BY2PG, i);
    NthOffset(base, i);
    NthCounts(i);
    CountBound(d);
    RoundUp(tablestore);
    Within(Minus(base, tablestore), d);
    Shifted(tablestore, base, d);
    InStoreIf(tablestore, i);
  }

  lemma InStoreIf(tablestore: Word, i: nat)
    requires Minus(Nth(Pground(tablestore), BY2PG, i), tablestore) <= 0x1_8000
    ensures InStore(tablestore, TablePage(tablestore, i))
  {
  }

  /** A store below 2 GB gives pages a pointer entry can name. */
  lemma PageNamed(tablestore: Word, i: nat)
    requires i < NTABLES && tablestore >> 31 == 0
    ensures PageAddr(TablePage(tablestore, i).pa)
  {
    var base := Pground(tablestore);
    var d := Nth(0, BY2PG, i);
    NthOffset(base, i);
    NthCounts(i);
    CountBound(d);
    hide Nth;
    NamedBits(tablestore, d);
    hide Pground;
  }

  lemma NamedBits(s: Word, d: Word)
    requires s >> 31 == 0 && d & 0xFFF == 0 && d <= 0x1_7000
    ensures PageAddr(Plus(Pground(s), d))
  {
  }

  lemma StorePages(tablestore: Word)
    requires tablestore >> 31 == 0
    ensures |TablePages(tablestore)| == NTABLES && Distinct(TablePages(tablestore))
    ensures forall i :: 0 <= i < NTABLES ==>
      var pg := TablePages(tablestore)[i]; PageAddr(pg.pa) && InStore(tablestore, pg) && pg == TablePage(tablestore, i)
  {
    hide PageAddr, InStore, TablePage;
    forall i | 0 <= i < NTABLES
      ensures PageAddr(TablePage(tablestore, i).pa) && InStore(tablestore, TablePage(tablestore, i))
    {
      PageNamed(tablestore, i);
      PageInStore(tablestore, i);
    }
    forall i, j | 0 <= i < j < NTABLES ensures TablePage(tablestore, i) != TablePage(tablestore, j) {
      PagesDistinct(tablestore, i, j);
    }
  }
}
