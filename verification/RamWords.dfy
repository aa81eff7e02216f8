/** Physical memory as words, and the decoded table pages it stands for. */
module RamWords {
  import opened Sv39
  import opened ProcTables
  import opened PteWords

  type Words = s: seq<Word> | |s| == 512 witness seq(512, _ => 0)

  type Ram = map<Page, Words>

  function DecodeTable(ws: Words): Table { seq(512, i requires 0 <= i < 512 => Decode(ws[i])) }

  function Decoded(ram: Ram): Mem { map pg | pg in ram :: DecodeTable(ram[pg]) }

  /** memset(page, 0, BY2PG) */
  function ZeroWords(): Words { seq(512, _ => 0) }

  /** memset of the user half of a root */
  function ZeroLow(ws: Words): Words { seq(512, i requires 0 <= i < 512 => if i < 256 then 0 else ws[i]) }

  /** was with words lo to hi - 1 taken from ws. */
  function Spliced(was: Words, lo: nat, hi: nat, ws: Words): Words
    requires lo <= hi <= 512
  {
    was[..lo] + ws[lo..hi] + was[hi..]
  }

  lemma SpliceNone(ws: Words, lo: nat, from: Words)
    requires lo <= 512
    ensures Spliced(ws, lo, lo, from) == ws
  {
  }

  lemma SpliceNext(ws: Words, lo: nat, x: nat, from: Words)
    requires lo <= x < 512
    ensures Spliced(ws, lo, x, from)[x := from[x]] == Spliced(ws, lo, x + 1, from)
  {
  }

  lemma SpliceAll(ws: Words, from: Words)
    ensures Spliced(ws, 0, 512, from) == from
  {
  }

  lemma SpliceLow(ws: Words)
    ensures Spliced(ws, 0, 256, ZeroWords()) == ZeroLow(ws)
  {
  }

  /** A zeroed low half, then a copied high half. */
  lemma SpliceRoot(ws: Words, from: Words)
    ensures Spliced(Spliced(ws, 0, 256, ZeroWords()), 256, 512, from) == ZeroLow(from)
  {
  }

  lemma StoreDecodes(ram: Ram, pg: Page, x: Index, w: Word)
    requires pg in ram
    ensures Decoded(ram[pg := ram[pg][x := w]]) == Store(Decoded(ram), pg, x, Decode(w))
  {
    hide Decode;
    assert DecodeTable(ram[pg][x := w]) == DecodeTable(ram[pg])[x := Decode(w)];
  }

  lemma ZeroDecodes(ram: Ram, pg: Page)
    requires pg in ram
    ensures Decoded(ram[pg := ZeroWords()]) == Decoded(ram)[pg := ZeroTable()]
  {
    SoftwareReads(0);
    hide Decode;
    assert DecodeTable(ZeroWords()) == ZeroTable();
  }

  lemma ClearDecodesPage(ram: Ram, pg: Page)
    requires pg in ram
    ensures Decoded(ram[pg := ZeroLow(ram[pg])]) == Decoded(ram)[pg := ClearUser(Decoded(ram)[pg])]
  {
    SoftwareReads(0);
    hide Decode;
    assert DecodeTable(ZeroLow(ram[pg])) == ClearUser(DecodeTable(ram[pg]));
  }

  lemma CopyDecodes(ram: Ram, kroot: Page, pg: Page)
    requires kroot in ram
    ensures Decoded(ram[pg := ZeroLow(ram[kroot])]) == RootMem(Decoded(ram), kroot, pg)
  {
    SoftwareReads(0);
    hide Decode;
    assert DecodeTable(ZeroLow(ram[kroot])) == RootMem(Decoded(ram), kroot, pg)[pg];
  }

  lemma PageDecodes(ram: Ram, pg: Page, ws: Words)
    requires pg in ram
    ensures Decoded(ram[pg := ws]) == Decoded(ram)[pg := DecodeTable(ws)]
  {
    hide Decode;
  }
}
