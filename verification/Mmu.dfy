/**
 mmu.c as it runs: words in physical memory, satp, and the process records it updates in place.
 Hardware() stands wherever the hardware may walk and cache; it may cache anything it can walk.
 */
module Mmu {
  import opened Sv39
  import opened Lists
  import opened UserTree
  import opened KernelTree
  import opened ProcTables
  import opened Machine
  import opened Steps
  import opened StepParts
  import opened PageLists
  import opened PteWords
  import opened RamWords
  import opened BlockRuns
  import opened BootMap
  import opened BootResult
  import opened CacheLines
  import FlushFrames

  /** The PMMU part of struct Proc, and newtlb. */
  class Proc {
    var satp: Word
    var mmuroot: Option<Page>
    var mmuused: PageRec?
    var mmufree: PageRec?
    var newtlb: bool
    ghost var used: seq<Page>   // the pages mmuused links, and mmufree
    ghost var free: seq<Page>
    ghost var tab: Tables       // where each page of mmuused hangs

    ghost function View(): Pmmu
      reads this
    {
      Pmmu(SatpRoot(satp), mmuroot, used, free, newtlb, tab)
    }

    ghost function Lists(): Heads
      reads `mmuused, `mmufree, `used, `free
    {
      Heads(mmuused, mmufree, used, free)
    }

    lemma Fields()
      ensures Lists() == Heads(mmuused, mmufree, used, free)
      ensures View().root == mmuroot && View().used == used && View().free == free
      ensures View().newtlb == newtlb && View().tab == tab && View().satp == SatpRoot(satp)
    {
    }
  }

  class Kernel {
    var ram: Ram
    var satp: Word
    const root: Page
    const kernelsatp: Word
    const procs: map<Pid, Proc>
    const pages: PageRecs
    const dcache: Dcache
    ghost var ktab: Tables
    ghost var tlb: set<Cached>

    ghost function State(): Sys
      reads this, procs.Values
    {
      Sys(Decoded(ram), root, ktab, SatpRoot(satp), map i | i in procs :: procs[i].View(), tlb)
    }

    /** What holds at every instruction: fixed values, and no two pids share a record. */
    ghost predicate Fixed()
      reads `ram
    {
      && kernelsatp == MkSatp(root.pa)
      && (forall pg :: pg in ram ==> PageAddr(pg.pa))
      && root in ram && ram.Keys <= pages.Keys
      && (forall i, j :: i in procs && j in procs && procs[i] == procs[j] ==> i == j)
    }

    ghost function AllHeads(): (hs: map<Pid, Heads>)
      reads procs.Values`mmuused, procs.Values`mmufree, procs.Values`used, procs.Values`free
      ensures hs.Keys == procs.Keys && forall i :: i in procs ==> hs[i] == procs[i].Lists()
    {
      map i | i in procs :: procs[i].Lists()
    }

    /** Every process's lists lie in the Page structures, as next links them. */
    ghost predicate Links()
      reads procs.Values`mmuused, procs.Values`mmufree, procs.Values`used, procs.Values`free, pages.Values`next
    {
      AllLinked(pages, NextsOf(pages), AllHeads())
    }

    ghost predicate Apart()
      reads procs.Values`mmuused, procs.Values`mmufree, procs.Values`used, procs.Values`free
    {
      AllApart(AllHeads())
    }

    ghost predicate Valid()
      reads this, procs.Values, pages.Values
    {
      Fixed() && Links() && Inv(State())
    }

    /** The state reached is s', whatever the hardware has cached meanwhile. */
    ghost predicate Reached(s': Sys)
      reads this, procs.Values
    {
      UpToTlb(s', State())
    }

    constructor (ram: Ram, root: Page, kernelsatp: Word, procs: map<Pid, Proc>, pages: PageRecs, dcache: Dcache,
                 ghost ktab: Tables)
      requires kernelsatp == MkSatp(root.pa) && root in ram && forall pg :: pg in ram ==> PageAddr(pg.pa)
      requires ram.Keys <= pages.Keys
      requires forall i, j :: i in procs && j in procs && procs[i] == procs[j] ==> i == j
      ensures Fixed() && this.ram == ram && this.root == root && this.kernelsatp == kernelsatp && this.procs == procs
      ensures satp == kernelsatp && this.ktab == ktab && this.pages == pages
    {
      this.ram, this.root, this.kernelsatp, this.procs, this.ktab := ram, root, kernelsatp, procs, ktab;
      this.pages, this.dcache := pages, dcache;
      satp, tlb := kernelsatp, {};
    }

    /** The hardware may walk any page and remember the outcome. */
    ghost method Hardware()
      modifies this`tlb
      ensures old(tlb) <= tlb
      ensures forall c :: c in tlb ==> c in old(tlb) || c.x == WalkVia(Decoded(ram), SatpRoot(satp), c.v)
    {
      var vs: set<Vpn> := *;
      tlb := tlb + set v | v in vs :: Cached(v, WalkVia(Decoded(ram), SatpRoot(satp), v));
    }

    /** One store to memory, after which the hardware may walk. */
    method StoreWord(pg: Page, x: Index, w: Word)
      requires pg in ram && Fixed()
      modifies this`ram, this`tlb
      ensures Fixed() && ram == old(ram)[pg := old(ram)[pg][x := w]]
      ensures Decoded(ram) == Store(Decoded(old(ram)), pg, x, Decode(w))
      ensures forall c :: c in tlb ==> c in old(tlb) || c.x == WalkVia(Decoded(ram), SatpRoot(satp), c.v)
    {
      hide PageAddr, Decode;
      StoreDecodes(ram, pg, x, w);
      ram := ram[pg := ram[pg][x := w]];
      Hardware();
    }

    /** Something a walk finds while page pg is being filled, whatever it holds by then. */
    ghost predicate Passing(mem: Mem, pg: Page, c: Cached)
      reads `satp
    {
      exists T: Table :: c.x == WalkVia(With(mem, pg, T), SatpRoot(satp), c.v)
    }

    /** While a page no walk reads is filled, walks find what they always did. */
    lemma PassingUnread(mem: Mem, pg: Page)
      requires Unread(mem, pg, SatpRoot(satp))
      ensures forall c: Cached :: Passing(mem, pg, c) ==> c.x == WalkVia(mem, SatpRoot(satp), c.v)
    {
      hide WalkVia, SatpRoot, With;
    }

    /** What passes while a page is filled again passed already. */
    lemma PassingAgain(mem: Mem, pg: Page, T: Table)
      ensures forall c: Cached :: Passing(With(mem, pg, T), pg, c) ==> Passing(mem, pg, c)
    {
      hide WalkVia, SatpRoot;
      forall c: Cached | Passing(With(mem, pg, T), pg, c) ensures Passing(mem, pg, c) {
        var U: Table :| c.x == WalkVia(With(With(mem, pg, T), pg, U), SatpRoot(satp), c.v);
        assert With(With(mem, pg, T), pg, U) == With(mem, pg, U);
      }
    }

    /** memset or memmove, word by word: words lo to hi - 1 of the page are ws's. */
    method StoreWords(pg: Page, lo: nat, hi: nat, ws: Words)
      requires pg in ram && Fixed() && lo <= hi <= 512
      modifies this`ram, this`tlb
      ensures Fixed() && ram == old(ram)[pg := Spliced(old(ram)[pg], lo, hi, ws)]
      ensures forall c :: c in tlb ==> c in old(tlb) || Passing(Decoded(old(ram)), pg, c)
    {
      hide *;
      SpliceNone(ram[pg], lo, ws);
      assert ram == ram[pg := ram[pg]];
      var x := lo;
      while x < hi
        invariant lo <= x <= hi <= 512 && Fixed() && pg in old(ram)
        invariant ram == old(ram)[pg := Spliced(old(ram)[pg], lo, x, ws)]
        invariant forall c :: c in tlb ==> c in old(tlb) || Passing(Decoded(old(ram)), pg, c)
      {
        SpliceNext(old(ram)[pg], lo, x, ws);
        StoreWord(pg, x, ws[x]);
        x := x + 1;
        FillPasses(old(ram), pg, Spliced(old(ram)[pg], lo, x, ws));
      }
    }

    lemma FillPasses(was: Ram, pg: Page, ws: Words)
      requires pg in was && ram == was[pg := ws]
      ensures forall c :: c in tlb && c.x == WalkVia(Decoded(ram), SatpRoot(satp), c.v) ==> Passing(Decoded(was), pg, c)
    {
      PageDecodes(was, pg, ws);
      WithIs(Decoded(was), pg, DecodeTable(ws));
      hide Decoded, WalkVia, SatpRoot, With;
    }

    /** memset(pg), then the parent's entry; pg is on no walk's path. */
    method ZeroAndHang(t: Page, x: Index, pg: Page)
      requires pg in ram && t in ram && t != pg && Fixed()
      requires Unread(Decoded(ram), pg, SatpRoot(satp))
      modifies this`ram, this`tlb
      ensures Fixed() && ram.Keys == old(ram).Keys
      ensures Decoded(ram) == Hang(Decoded(old(ram)), t, x, pg)
      ensures forall c :: c in tlb ==>
        || c in old(tlb)
        || c.x == WalkVia(Decoded(old(ram)), SatpRoot(satp), c.v) || c.x == WalkVia(Decoded(ram), SatpRoot(satp), c.v)
    {
      hide Decode, WalkVia, LinkWord, SatpRoot, Spliced;
      LinkDecodes(pg.pa);
      hide PageAddr;
      ZeroDecodes(ram, pg);
      SpliceAll(ram[pg], ZeroWords());
      PassingUnread(Decoded(ram), pg);
      StoreWords(pg, 0, 512, ZeroWords());
      StoreWord(t, x, LinkWord(pg.pa));
    }

    /** sfence.vma x0, x0 */
    method Sfencevma()
      modifies this`tlb
      ensures forall c :: c in tlb ==> c.x == WalkVia(Decoded(ram), SatpRoot(satp), c.v)
    {
      tlb := {};
      Hardware();
    }

    /** satpset: the CSR write and the fence after it. */
    method Satpset(w: Word)
      modifies this`satp, this`tlb
      ensures satp == w
      ensures forall c :: c in tlb ==> c.x == WalkVia(Decoded(ram), SatpRoot(satp), c.v)
    {
      satp := w;
      Hardware();
      Sfencevma();
    }

    lemma NoLists()
      requires Named(pages) && forall i :: i in procs ==>
        procs[i].View() == NO_TABLES && procs[i].mmuused == procs[i].mmufree == null
      ensures Links()
    {
      forall i | i in procs ensures Chained(pages, NextsOf(pages), AllHeads()[i]) {
        procs[i].Fields();
        ChainNil(pages, NextsOf(pages));
      }
    }

    // ----- mmulowdrop -----

    /** Retire the identity map: from here on every invariant holds. */
    method Mmulowdrop()
      requires Fixed() && Links() && satp == kernelsatp && BTree(Decoded(ram), root, ktab) && LowTops(ktab)
      requires forall i :: i in procs ==> procs[i].View() == NO_TABLES
      modifies this`ram, this`tlb, this`ktab
      ensures Valid() && root in Decoded(old(ram))
      ensures Reached(Dropped(Decoded(old(ram)), root, old(ktab), procs.Keys))
    {
      hide *;
      ghost var s := DropReady();
      StoreWord(root, Ptlx(PHYSTEXT, 2), 0);
      StoreWord(root, Ptlx(PHYSPIO, 2), 0);
      Sfencevma();
      ktab := HighTables(ktab);
      MatchesDropped(s);
      Settled(s);
    }

    lemma DropReady() returns (s: Sys)
      requires Fixed() && satp == kernelsatp && BTree(Decoded(ram), root, ktab) && LowTops(ktab)
      requires forall i :: i in procs ==> procs[i].View() == NO_TABLES
      ensures Ptlx(PHYSTEXT, 2) == 1 && Ptlx(PHYSPIO, 2) == 0 && Decode(0) == Empty
      ensures root in ram && root in Decoded(ram) && s == Dropped(Decoded(ram), root, ktab, procs.Keys) && Inv(s)
      ensures s.mem == Store(Store(Decoded(ram), root, 1, Empty), root, 0, Empty)
      ensures s.satp == SatpRoot(satp) && s.kroot == root && s.procs.Keys == procs.Keys && s.ktab == HighTables(ktab)
      ensures forall i :: i in procs ==> s.procs[i] == procs[i].View()
    {
      DropSlots();
      SatpDecodes(root.pa);
      SoftwareReads(0);
      DroppedInv(Decoded(ram), root, ktab, procs.Keys);
      DropIs(Decoded(ram), root);
      s := Dropped(Decoded(ram), root, ktab, procs.Keys);
      hide Inv, BTree, LowTops, Decoded, SatpRoot, PageAddr, HighTables, LowDrop, Ptlx, Decode;
    }

    lemma RamKeys()
      ensures State().mem.Keys == ram.Keys
    {
    }

    lemma ReachedMem(s: Sys)
      requires Reached(s)
      ensures Decoded(ram) == s.mem
    {
      assert State().mem == s.mem;
    }

    lemma MatchesDropped(s: Sys)
      requires Decoded(ram) == s.mem && SatpRoot(satp) == s.satp && root == s.kroot && ktab == s.ktab
      requires s.procs.Keys == procs.Keys && (forall j :: j in procs ==> procs[j].View() == s.procs[j])
      requires forall c :: c in tlb ==> c.x == WalkVia(s.mem, s.satp, c.v)
      ensures Matches(s)
    {
      hide WalkVia;
    }

    /** Reading an entry of a table on v's path: V is clear, or PTEPA names the next table. */
    lemma ReadEntry(i: Pid, t: Page, va: Word, l: nat)
      requires Valid() && i in procs && procs[i].mmuroot.Some? && va >> 38 == 0 && 1 <= l <= 2
      requires OnPath(procs[i].View(), t, VpnOf(va), l)
      ensures t in ram && Ptlx(va, l) == Field(VpnOf(va), l)
      ensures var pte := ram[t][Ptlx(va, l)];
        var s := SlotAt(VpnOf(va), l);
        && Decode(pte) == Entry(State().mem, t, Field(VpnOf(va), l))
        && Bit(pte, PTEVALID) == (s in procs[i].tab)
        && (s in procs[i].tab ==>
              Decode(pte) == Next(Page(PtePa(pte))) && OnPath(procs[i].View(), Page(PtePa(pte)), VpnOf(va), l - 1))
    {
      hide *;
      var s, v := State(), VpnOf(va);
      UserVpn(va);
      Opened();
      procs[i].Fields();
      ProcOkOf(s, i);
      PathEntry(s.mem, s.procs[i], t, v, l);
      VpnField(va, l);
      EntryWord(ram, t, Field(v, l));
      LinkIs(procs[i].tab, SlotAt(v, l));
      SoftwareReads(ram[t][Field(v, l)]);
    }

    static lemma VpnField(va: Word, l: nat)
      requires l < 3
      ensures Ptlx(va, l) == Field(VpnOf(va), l)
    {
      hide Ptlx;
    }

    static lemma EntryWord(ram: Ram, t: Page, x: Index)
      requires t in Decoded(ram)
      ensures t in ram && Entry(Decoded(ram), t, x) == Decode(ram[t][x])
    {
      hide Decode;
    }

    static lemma LinkIs(tab: Tables, s: Slot)
      ensures Link(tab, s) == if s in tab then Next(tab[s]) else Empty
    {
    }

    /** Memory and records as s has them, with a cache that agrees. */
    ghost predicate Matches(s: Sys)
      reads this, procs.Values
    {
      && Decoded(ram) == s.mem && SatpRoot(satp) == s.satp && root == s.kroot && ktab == s.ktab
      && s.procs.Keys == procs.Keys
      && (forall j :: j in procs ==> procs[j].View() == s.procs[j])
      && (forall c :: c in tlb ==> c.x == WalkVia(s.mem, s.satp, c.v))
    }

    lemma MatchesAfter(s: Sys, i: Pid, s': Sys)
      requires i in procs && s.procs.Keys == procs.Keys && s'.procs == s.procs[i := procs[i].View()]
      requires Decoded(ram) == s'.mem
      requires forall j :: j in procs && j != i ==> procs[j].View() == s.procs[j]
      requires SatpRoot(satp) == s'.satp && root == s'.kroot && ktab == s'.ktab
      requires forall c :: c in tlb ==> c.x == WalkVia(s'.mem, s'.satp, c.v)
      ensures Matches(s')
    {
      hide Decoded, SatpRoot, WalkVia;
    }

    /** What Valid says of the fields. */
    lemma Opened()
      requires Valid()
      ensures var s := State();
        && Inv(s) && Fixed() && Links()
        && s.mem == Decoded(ram) && s.mem.Keys == ram.Keys
        && s.satp == SatpRoot(satp) && s.kroot == root && s.ktab == ktab
        && s.procs.Keys == procs.Keys && (forall j :: j in procs ==> s.procs[j] == procs[j].View())
        && (forall c :: c in tlb ==> c.x == WalkVia(s.mem, s.satp, c.v))
    {
      hide TablesOk, SatpOk, SatpRoot, Links;
    }

    /** The lists of a sound machine are apart. */
    lemma Separate()
      requires Valid()
      ensures Links() && Apart()
    {
      hide Links;
      var s := State();
      var hs := AllHeads();
      forall i | i in procs ensures Distinct(Listed(hs[i])) && Elems(Listed(hs[i])) <= Owned(s.procs[i]) {
        OwnLists(s, i);
        procs[i].Fields();
      }
      hide Inv, State, Owned;
      forall i, j | i in procs && j in procs && i != j ensures Elems(Listed(hs[i])) !! Elems(Listed(hs[j])) {
        OwnApart(s, i, j);
      }
    }

    /** A state that satisfies the invariant apart from what is cached, and whose cache agrees with it. */
    lemma Settled(s: Sys)
      requires Fixed() && Links() && Inv(s) && Matches(s)
      ensures Valid() && Reached(s)
    {
      hide Inv, Decoded, Links;
      assert State() == s.(tlb := tlb);
      OtherTlb(s, tlb);
    }

    lemma LinksAre()
      ensures Links() <==> AllLinked(pages, NextsOf(pages), AllHeads())
      ensures Apart() <==> AllApart(AllHeads())
      ensures AllHeads().Keys == procs.Keys && forall i :: i in procs ==> AllHeads()[i] == procs[i].Lists()
    {
      hide AllLinked, AllApart;
    }

    /** After a change to process i's record. */
    lemma SettledAfter(s: Sys, i: Pid, s': Sys)
      requires Fixed() && Links() && Inv(s')
      requires i in procs && s.procs.Keys == procs.Keys && s'.procs == s.procs[i := procs[i].View()]
      requires Decoded(ram) == s'.mem
      requires forall j :: j in procs && j != i ==> procs[j].View() == s.procs[j]
      requires SatpRoot(satp) == s'.satp && root == s'.kroot && ktab == s'.ktab
      requires forall c :: c in tlb ==> c.x == WalkVia(s'.mem, s'.satp, c.v)
      ensures Valid() && Reached(s')
    {
      hide *;
      MatchesAfter(s, i, s');
      Settled(s');
    }

    /** What a process's list heads say. */
    lemma ProcHeads(i: Pid)
      requires i in procs && Links()
      ensures var p := procs[i];
        && (p.mmufree == null <==> p.free == []) && (p.mmuused == null <==> p.used == [])
        && (p.mmufree != null ==> p.mmufree in pages.Values && p.mmufree.pa == p.free[0] && p.free[0] in pages)
    {
      HeadsSay(pages, NextsOf(pages), AllHeads(), i);
    }

    lemma OwnRecord(i: Pid)
      requires Fixed() && i in procs
      ensures forall j :: j in procs && j != i ==> procs[j] != procs[i]
    {
      hide PageAddr;
    }

    /** pg = up->mmufree, off that list and onto mmuused. */
    method PopTable(i: Pid, ghost slot: Slot) returns (pg: PageRec)
      requires i in procs && Fixed() && Links() && Apart() && procs[i].mmufree != null
      modifies procs[i], pages.Values
      ensures Links()
      ensures old(procs[i].free) != [] && pg.pa == old(procs[i].free)[0]
      ensures procs[i].View() == Take(old(procs[i].View()), slot)
      ensures forall j :: j in procs && j != i ==> procs[j].View() == old(procs[j].View())
    {
      hide *;
      procs[i].Fields();
      ProcHeads(i);
      LinksAre();
      PopLinks(pages, NextsOf(pages), AllHeads(), i);
      TakeIs(procs[i].View(), slot);
      var up := procs[i];
      up.Fields();
      pg := up.mmufree;
      NextOf(pages, pg.pa);
      PageNamed(pg);
      Relink(i, up, pg, up.mmuused, pg, pg.next, [pg.pa] + up.used, up.free[1..], up.tab[slot := pg.pa]);
    }

    /** rec->next = to, and process i's list heads. */
    method Relink(i: Pid, up: Proc, rec: PageRec, to: PageRec?, mmuused: PageRec?, mmufree: PageRec?,
                  ghost used: seq<Page>, ghost free: seq<Page>, ghost tab: Tables)
      requires i in procs && up == procs[i] && Fixed() && Named(pages) && rec.pa in pages && pages[rec.pa] == rec
      modifies rec, up`mmuused, up`mmufree, up`used, up`free, up`tab
      ensures NextsOf(pages) == old(NextsOf(pages))[rec.pa := to]
      ensures AllHeads() == old(AllHeads())[i := Heads(mmuused, mmufree, used, free)]
      ensures Links() <==> AllLinked(pages, NextsOf(pages), AllHeads())
      ensures up.mmuused == mmuused && up.mmufree == mmufree
      ensures up.View() == old(up.View()).(used := used, free := free, tab := tab)
      ensures forall j :: j in procs && j != i ==> procs[j].View() == old(procs[j].View())
    {
      hide *;
      OwnRecord(i);
      SetNext(pages, rec, to);
      SetHeads(i, up, mmuused, mmufree, used, free, tab);
      LinksAre();
    }

    static lemma TakeIs(p: Pmmu, slot: Slot)
      requires p.free != []
      ensures Take(p, slot) == p.(used := [p.free[0]] + p.used, free := p.free[1..], tab := p.tab[slot := p.free[0]])
    {
    }

    method SetHeads(i: Pid, up: Proc, mmuused: PageRec?, mmufree: PageRec?,
                    ghost used: seq<Page>, ghost free: seq<Page>, ghost tab: Tables)
      requires i in procs && up == procs[i] && Fixed()
      modifies up`mmuused, up`mmufree, up`used, up`free, up`tab
      ensures AllHeads() == old(AllHeads())[i := Heads(mmuused, mmufree, used, free)]
      ensures up.mmuused == mmuused && up.mmufree == mmufree
      ensures up.View() == old(up.View()).(used := used, free := free, tab := tab)
    {
      hide *;
      OwnRecord(i);
      LinksAre();
      up.Fields();
      ghost var hs := AllHeads();
      up.mmuused, up.mmufree, up.used, up.free, up.tab := mmuused, mmufree, used, free, tab;
      LinksAre();
      up.Fields();
      assert AllHeads()[i] == Heads(mmuused, mmufree, used, free);
      assert forall j :: j in procs && j != i ==> AllHeads()[j] == hs[j];
    }

    lemma PageNamed(pg: PageRec)
      requires Links() && pg in pages.Values
      ensures Named(pages) && pg.pa in pages && pages[pg.pa] == pg
    {
      var p :| p in pages && pages[p] == pg;
    }

    /** The body of mmuwalk's loop when a level is missing: pop a page, zero it, hang it. */
    method HangTable(i: Pid, t: Page, x: Index, ghost v: Vpn, ghost l: nat) returns (pg: Page)
      requires Valid() && i in procs && v.User() && 1 <= l <= 2 && x == Field(v, l) && t in ram
      requires procs[i].mmuroot.Some? && OnPath(procs[i].View(), t, v, l) && SlotAt(v, l) !in procs[i].tab
      requires procs[i].mmufree != null
      modifies this`ram, this`tlb, procs[i], pages.Values
      ensures Valid() && old(procs[i].free) != [] && pg == old(procs[i].free)[0]
      ensures var s := old(State());
        Reached(Change(s, i, Hang(s.mem, t, x, pg), Take(s.procs[i], SlotAt(v, l))))
      ensures OnPath(procs[i].View(), pg, v, l - 1)
    {
      hide *;
      ghost var s := State();
      Opened();
      procs[i].Fields();
      Separate();
      ProcHeads(i);
      HangStores(s, i, t, v, l);
      var rec := PopTable(i, SlotAt(v, l));
      pg := rec.pa;
      ZeroAndHang(t, x, pg);
      ghost var mem, p := Hang(s.mem, t, x, pg), Take(s.procs[i], SlotAt(v, l));
      ghost var s' := Change(s, i, mem, p);
      ChangeParts(s, i, mem, p);
      SettledAfter(s, i, s');
    }

    /** A second change to process i's record hides the first. */
    lemma ChangeTwice(s0: Sys, s: Sys, i: Pid, mem0: Mem, p0: Pmmu, mem: Mem, p: Pmmu)
      requires UpToTlb(Change(s0, i, mem0, p0), s) && Reached(Change(s, i, mem, p))
      ensures Reached(Change(s0, i, mem, p))
    {
      hide State;
      assert s.procs[i := p] == s0.procs[i := p];
    }

    lemma ReachedParts(s: Sys, i: Pid, mem: Mem, p: Pmmu)
      requires Reached(Change(s, i, mem, p)) && i in procs && i in s.procs
      ensures State().mem == mem && procs[i].View() == p && State().procs == s.procs[i := p]
      ensures mem.Keys == ram.Keys && State().satp == s.satp
      ensures UpToTlb(Change(s, i, mem, p), State())
    {
      ghost var a, b := State(), Change(s, i, mem, p);
      assert a.procs[i] == procs[i].View();
    }

    lemma ReachedSelf(i: Pid)
      requires i in procs
      ensures Reached(Change(State(), i, State().mem, procs[i].View()))
      ensures State().procs.Keys == procs.Keys && State().procs[i] == procs[i].View()
    {
      assert State().procs[i := procs[i].View()] == State().procs;
    }

    /** Where the walk stands: process i's record and memory are p and mem, t is the level-l table on v's path. */
    ghost predicate WalkAt(s0: Sys, i: Pid, t: Page, v: Vpn, l: nat, mem: Mem, p: Pmmu)
      reads this, procs.Values, pages.Values
    {
      && 0 <= l <= 2 && i in procs && i in s0.procs && s0.procs[i].root.Some?
      && Valid() && procs[i].mmuroot.Some? && OnPath(p, t, v, l)
      && State().procs.Keys == procs.Keys
      && Reached(Change(s0, i, mem, p)) && ProcTables.MmuWalk(s0.mem, s0.procs[i], v) == Descend(mem, p, t, v, l)
      && State().mem == mem && procs[i].View() == p
    }

    /** One turn of mmuwalk's loop. */
    method WalkTurn(ghost s0: Sys, i: Pid, va: Word, t: Page, l: nat, ghost mem: Mem, ghost p: Pmmu)
      returns (next: Option<Page>, ghost mem': Mem, ghost p': Pmmu)
      requires va >> 38 == 0 && 1 <= l && WalkAt(s0, i, t, VpnOf(va), l, mem, p)
      modifies this`ram, this`tlb, procs[i], pages.Values
      ensures next.Some? ==> WalkAt(s0, i, next.value, VpnOf(va), l - 1, mem', p')
      ensures next.None? ==>
        Valid() && State().procs.Keys == procs.Keys && mem' == mem && p' == p && Reached(Change(s0, i, mem, p))
      ensures next.None? ==> l <= 2 && Descend(mem, p, t, VpnOf(va), l) == Walked(mem, p, None)
    {
      ghost var v := VpnOf(va);
      mem', p' := mem, p;
      UserVpn(va);
      ReadEntry(i, t, va, l);
      DescendTurn(mem, p, t, v, l);
      var x := Ptlx(va, l);
      var pte := ram[t][x];
      procs[i].Fields();
      Opened();
      ProcHeads(i);
      hide *;
      if Bit(pte, PTEVALID) {
        next := Some(Page(PtePa(pte)));
      } else if procs[i].mmufree == null {
        next := None;
      } else {
        ghost var s := State();
        ReachedParts(s0, i, mem, p);
        var pg := HangTable(i, t, x, v, l);
        mem', p' := Hang(mem, t, x, pg), Take(p, SlotAt(v, l));
        ChangeTwice(s0, s, i, mem, p, mem', p');
        ReachedParts(s0, i, mem', p');
        next := Some(pg);
      }
      if next.Some? {
        AtNext(s0, i, next.value, v, l - 1, mem', p');
      }
    }

    lemma AtNext(s0: Sys, i: Pid, t: Page, v: Vpn, l: nat, mem: Mem, p: Pmmu)
      requires 0 <= l <= 2 && i in procs && i in s0.procs && s0.procs[i].root.Some?
      requires Valid() && procs[i].mmuroot.Some? && OnPath(p, t, v, l)
      requires State().procs.Keys == procs.Keys
      requires Reached(Change(s0, i, mem, p)) && ProcTables.MmuWalk(s0.mem, s0.procs[i], v) == Descend(mem, p, t, v, l)
      requires State().mem == mem && procs[i].View() == p
      ensures WalkAt(s0, i, t, v, l, mem, p)
    {
    }

    lemma AtParts(s0: Sys, i: Pid, t: Page, v: Vpn, l: nat, mem: Mem, p: Pmmu)
      requires WalkAt(s0, i, t, v, l, mem, p)
      ensures l <= 2 && i in s0.procs && s0.procs[i].root.Some?
      ensures Valid() && State().procs.Keys == procs.Keys && Reached(Change(s0, i, mem, p))
      ensures ProcTables.MmuWalk(s0.mem, s0.procs[i], v) == Descend(mem, p, t, v, l)
    {
    }

    lemma WalkStart(i: Pid, va: Word)
      requires Valid() && i in procs && procs[i].mmuroot.Some? && va >> 38 == 0
      ensures i in State().procs
      ensures WalkAt(State(), i, procs[i].mmuroot.value, VpnOf(va), 2, State().mem, State().procs[i])
    {
      ReachedSelf(i);
      procs[i].Fields();
      UserVpn(va);
    }

    /** mmuwalk for level 0. */
    method MmuWalk(i: Pid, va: Word) returns (table: Option<Page>)
      requires Valid() && i in procs && procs[i].mmuroot.Some? && va >> 38 == 0
      modifies this`ram, this`tlb, procs[i], pages.Values
      ensures Valid()
      ensures State().procs.Keys == procs.Keys && i in old(State()).procs && old(State()).procs[i].root.Some?
      ensures var w := ProcTables.MmuWalk(old(State()).mem, old(State()).procs[i], VpnOf(va));
              Reached(Change(old(State()), i, w.mem, w.p)) && table == w.table
    {
      hide *;
      ghost var s0 := State();
      ghost var v := VpnOf(va);
      WalkStart(i, va);
      ghost var mem, p := s0.mem, s0.procs[i];
      table := Some(procs[i].mmuroot.value);
      var l := 2;
      while l > 0
        invariant 0 <= l <= 2 && table.Some? && WalkAt(s0, i, table.value, v, l, mem, p)
      {
        AtParts(s0, i, table.value, v, l, mem, p);
        table, mem, p := WalkTurn(s0, i, va, table.value, l, mem, p);
        if table.None? {
          return;
        }
        l := l - 1;
      }
      AtParts(s0, i, table.value, v, 0, mem, p);
      DescendHere(mem, p, table.value, v);
    }

    /** The leaf word, from fault.c's flags. */
    method LeafWord(pa: Word) returns (w: Word)
      ensures w == PutWord(pa)
    {
      hide Bit, PaPte, Ppn;
      var attr := PTEVALID | PTEREAD | PTEUSER | PTEACCESSED | PTEDIRTY;
      if Bit(pa, PTEWRITE) {
        attr := attr | PTEWRITE;
      }
      if !Bit(pa, PTENOEXEC) {
        attr := attr | PTEEXEC;
      }
      if Bit(pa, PTEUNCACHED | PTEDEVICE) {
        attr := attr | PTE_THEAD_SO;
      } else {
        attr := attr | PTE_THEAD_C | PTE_THEAD_SH;
      }
      w := PaPte(Ppn(pa)) | attr;
    }

    lemma TryReady(i: Pid, va: Word, pa: Word)
      requires Valid() && i in procs && procs[i].mmuroot.Some? && va >> 38 == 0 && pa >> 56 == 0
      ensures var s, v, m := State(), VpnOf(va), MappingOf(pa);
        && Inv(s) && Enabled(s, Try(i, v, m)) && Inv(TryStep(s, i, v, m)) && s.procs.Keys == procs.Keys
        && (forall j :: j in procs ==> s.procs[j] == procs[j].View())
        && Ptlx(va, 0) == v.x0 && Decode(PutWord(pa)) == Leaf(m.frame, UserAttr(m))
    {
      UserVpn(va);
      PutDecodes(pa);
      procs[i].Fields();
      Opened();
      hide Decode, PutWord, Inv, Ptlx, MappingOf, UserAttr, TryStep, State, Valid;
      TryEnabled(State(), i, VpnOf(va), MappingOf(pa));
    }

    /** putmmu's critical section: walk, and when the walk succeeds store the leaf and fence. */
    method TryPut(i: Pid, va: Word, pa: Word) returns (landed: bool)
      requires Valid() && i in procs && procs[i].mmuroot.Some? && va >> 38 == 0 && pa >> 56 == 0
      modifies this`ram, this`tlb, procs[i], pages.Values
      ensures Valid()
      ensures var s := old(State());
        && Enabled(s, Try(i, VpnOf(va), MappingOf(pa)))
        && landed == Landed(s, Try(i, VpnOf(va), MappingOf(pa)))
        && Reached(TryStep(s, i, VpnOf(va), MappingOf(pa)))
    {
      hide *;
      ghost var s := State();
      ghost var v, m := VpnOf(va), MappingOf(pa);
      TryReady(i, va, pa);
      TryParts(s, i, v, m);
      var table := MmuWalk(i, va);
      ghost var w := ProcTables.MmuWalk(s.mem, s.procs[i], v);
      ChangeParts(s, i, w.mem, w.p);
      ReachedParts(s, i, w.mem, w.p);
      Opened();
      if table.Some? {
        StoreLeaf(table.value, va, pa);
      }
      SettledAfter(s, i, TryStep(s, i, v, m));
      return table.Some?;
    }

    /** The leaf and the fence. */
    method StoreLeaf(table: Page, va: Word, pa: Word)
      requires table in ram && Fixed() && table in Decoded(ram)
      modifies this`ram, this`tlb
      ensures Fixed() && Decoded(ram) == Store(Decoded(old(ram)), table, Ptlx(va, 0), Decode(PutWord(pa)))
      ensures forall c :: c in tlb ==> c.x == WalkVia(Decoded(ram), SatpRoot(satp), c.v)
    {
      hide *;
      var word := LeafWord(pa);
      StoreWord(table, Ptlx(va, 0), word);
      Sfencevma();
    }

    // ----- mmurootalloc -----

    /** Clear the user half of the new root, copy the kernel half, then publish it in the record. */
    method Mmurootalloc(i: Pid, pg: Page)
      requires i in procs && Fixed() && Links() && pg in ram && pg != root
      modifies this`ram, this`tlb, procs[i]
      ensures Fixed() && Links() && Decoded(ram) == RootMem(Decoded(old(ram)), root, pg)
      ensures procs[i].View() == RootProc(old(procs[i].View()), pg)
      ensures forall c :: c in tlb ==> c in old(tlb) || Passing(Decoded(old(ram)), pg, c)
      ensures forall j :: j in procs && j != i ==> procs[j].View() == old(procs[j].View())
    {
      hide *;
      PageSatp(pg);
      RootProcIs(procs[i].View(), pg);
      FillRoot(pg);
      SetRoot(i, procs[i], Some(pg), MkSatp(pg.pa));
    }

    static lemma RootProcIs(p: Pmmu, pg: Page)
      ensures RootProc(p, pg) == p.(root := Some(pg), satp := Some(pg))
    {
    }

    /** memset of the user half, memmove of the kernel half. */
    method FillRoot(pg: Page)
      requires Fixed() && pg in ram && pg != root
      modifies this`ram, this`tlb
      ensures Fixed() && PageAddr(pg.pa) && Decoded(ram) == RootMem(Decoded(old(ram)), root, pg)
      ensures forall c :: c in tlb ==> c in old(tlb) || Passing(Decoded(old(ram)), pg, c)
    {
      CopyDecodes(ram, root, pg);
      SpliceRoot(ram[pg], ram[root]);
      hide Decode, WalkVia, PageAddr, SatpRoot, Decoded, RootMem, Spliced, Passing;
      StoreWords(pg, 0, 256, ZeroWords());
      ghost var half := ram[pg];
      PageDecodes(old(ram), pg, half);
      WithIs(Decoded(old(ram)), pg, DecodeTable(half));
      PassingAgain(Decoded(old(ram)), pg, DecodeTable(half));
      StoreWords(pg, 256, 512, ram[root]);
      assert ram == old(ram)[pg := ZeroLow(old(ram)[root])];
    }

    // ----- mmufree -----

    /** Empty the user half of the root and splice mmuused, page by page, onto mmufree. */
    method Mmufree(i: Pid)
      requires i in procs && Fixed() && Links() && Apart() && (procs[i].mmuroot.Some? ==> procs[i].mmuroot.value in ram)
      modifies this`ram, this`tlb, procs[i], pages.Values
      ensures Fixed() && Links() && ram.Keys == old(ram).Keys
      ensures Decoded(ram) == FreedMem(Decoded(old(ram)), old(procs[i].View()))
      ensures procs[i].View() == FreedProc(old(procs[i].View()))
      ensures procs[i].satp == old(procs[i].satp) && procs[i].mmuroot == old(procs[i].mmuroot)
      ensures procs[i].newtlb == old(procs[i].newtlb)
      ensures forall j :: j in procs && j != i ==> procs[j].View() == old(procs[j].View())
      ensures forall c :: c in tlb ==>
        c in old(tlb) || (old(procs[i].mmuroot).Some? && Passing(Decoded(old(ram)), old(procs[i].mmuroot).value, c))
    {
      hide *;
      procs[i].Fields();
      FreedIs(Decoded(ram), procs[i].View());
      if procs[i].mmuroot.Some? {
        ClearRoot(procs[i].mmuroot.value);
      }
      OwnRecord(i);
      Splice(i, procs[i]);
    }

    static lemma FreedIs(mem: Mem, p: Pmmu)
      ensures FreedProc(p) == p.(used := [], free := Reversed(p.used) + p.free, tab := map[])
      ensures p.root.Some? && p.root.value in mem ==>
        FreedMem(mem, p) == mem[p.root.value := ClearUser(mem[p.root.value])]
      ensures p.root.None? ==> FreedMem(mem, p) == mem
    {
      hide ClearUser;
    }

    /** memset of the user half of a root */
    method ClearRoot(pg: Page)
      requires pg in ram && Fixed()
      modifies this`ram, this`tlb
      ensures Fixed() && ram.Keys == old(ram).Keys
      ensures pg in Decoded(old(ram)) && Decoded(ram) == Decoded(old(ram))[pg := ClearUser(Decoded(old(ram))[pg])]
      ensures forall c :: c in tlb ==> c in old(tlb) || Passing(Decoded(old(ram)), pg, c)
    {
      hide Decode, PageAddr, SatpRoot, WalkVia, ClearUser, ZeroLow, Spliced, Passing;
      ClearDecodesPage(ram, pg);
      SpliceLow(ram[pg]);
      StoreWords(pg, 0, 256, ZeroWords());
    }

    /** One turn of mmufree's loop. */
    method SpliceTurn(i: Pid, up: Proc, pg: PageRec, ghost rest: seq<Page>) returns (next: PageRec?)
      requires i in procs && up == procs[i] && Fixed() && Splicing(pages, NextsOf(pages), AllHeads(), i, pg, rest)
      modifies up`mmuused, up`mmufree, up`used, up`free, up`tab, pages.Values
      ensures rest != [] && Splicing(pages, NextsOf(pages), AllHeads(), i, next, rest[1..])
      ensures up.View() == old(up.View()).(free := [rest[0]] + old(up.free))
      ensures forall j :: j in procs && j != i ==> procs[j].View() == old(procs[j].View())
    {
      hide *;
      ghost var nexts, hs := NextsOf(pages), AllHeads();
      LinksAre();
      up.Fields();
      SpliceTurns(pages, nexts, hs, i, pg, rest);
      NextOf(pages, pg.pa);
      SpliceNamed(nexts, hs, i, pg, rest);
      next := pg.next;
      Relink(i, up, pg, up.mmufree, up.mmuused, pg, up.used, [pg.pa] + up.free, up.tab);
      up.Fields();
    }

    lemma SpliceNamed(nexts: Nexts, hs: map<Pid, Heads>, i: Pid, pg: PageRec?, rest: seq<Page>)
      requires i in hs && Splicing(pages, nexts, hs, i, pg, rest)
      ensures Named(pages)
    {
    }

    /** for(pg = p->mmuused; pg != nil; pg = next), and mmuused = nil. */
    method Splice(i: Pid, up: Proc)
      requires i in procs && up == procs[i] && Fixed() && Links() && Apart()
      modifies up`mmuused, up`mmufree, up`used, up`free, up`tab, pages.Values
      ensures Links()
      ensures up.View() == old(up.View()).(used := [], free := Reversed(old(up.used)) + old(up.free), tab := map[])
      ensures forall j :: j in procs && j != i ==> procs[j].View() == old(procs[j].View())
    {
      hide *;
      LinksAre();
      up.Fields();
      SpliceStarts(pages, NextsOf(pages), AllHeads(), i);
      ghost var p := up.View();
      var pg := up.mmuused;
      ghost var rest := up.used;
      while pg != null
        invariant Splicing(pages, NextsOf(pages), AllHeads(), i, pg, rest)
        invariant up.View() == p.(free := up.free) && Reversed(rest) + up.free == Reversed(p.used) + p.free
        invariant forall j :: j in procs && j != i ==> procs[j].View() == old(procs[j].View())
        decreases |rest|
      {
        SpliceTurns(pages, NextsOf(pages), AllHeads(), i, pg, rest);
        ReversedTurn(rest, up.free);
        pg := SpliceTurn(i, up, pg, rest);
        up.Fields();
        rest := rest[1..];
      }
      NoneReversed();
      SpliceEnd(i, up, rest);
    }

    /** mmuused = nil */
    method SpliceEnd(i: Pid, up: Proc, ghost rest: seq<Page>)
      requires i in procs && up == procs[i] && Fixed() && Splicing(pages, NextsOf(pages), AllHeads(), i, null, rest)
      modifies up`mmuused, up`mmufree, up`used, up`free, up`tab
      ensures rest == [] && Links() && up.View() == old(up.View()).(used := [], free := old(up.free), tab := map[])
      ensures forall j :: j in procs && j != i ==> procs[j].View() == old(procs[j].View())
    {
      hide *;
      OwnRecord(i);
      LinksAre();
      up.Fields();
      SpliceEnds(pages, NextsOf(pages), AllHeads(), i, rest);
      SetHeads(i, up, null, up.mmufree, [], up.free, map[]);
      LinksAre();
    }

    static lemma NoneReversed()
      ensures Reversed<Page>([]) == []
    {
    }

    /** mmurootalloc with the page newpage gave it; satp is not written yet. */
    method FirstRoot(i: Pid, pg: Page)
      requires Valid() && Enabled(State(), RootAlloc(i, pg)) && i in procs
      modifies this`ram, this`tlb, procs[i]
      ensures Valid() && old(State()).kroot in old(State()).mem
      ensures Reached(RootStep(old(State()), i, pg))
    {
      hide *;
      ghost var s := State();
      Opened();
      RootParts(s, i, pg);
      PassingUnread(Decoded(ram), pg);
      Mmurootalloc(i, pg);
      SettledAfter(s, i, RootStep(s, i, pg));
    }

    /** putmmu's satpset(up->satp), under splhi. */
    method LoadSatp(i: Pid)
      requires Valid() && i in procs && procs[i].mmuroot.Some?
      modifies this`satp, this`tlb
      ensures Valid() && i in old(State()).procs
      ensures Reached(LoadStep(old(State()), i))
    {
      hide *;
      ghost var s := State();
      Opened();
      procs[i].Fields();
      LoadReady(s, i);
      LoadParts(s, i);
      Satpset(procs[i].satp);
      SettledAfter(s, i, LoadStep(s, i));
    }

    static lemma LoadReady(s: Sys, i: Pid)
      requires i in s.procs && s.procs[i].root.Some?
      ensures Enabled(s, Load(i)) && s.procs == s.procs[i := s.procs[i]]
    {
    }

    /** mmuswitch(p) */
    method Mmuswitch(i: Pid)
      requires Valid() && i in procs
      modifies this, procs[i], pages.Values
      ensures Valid() && i in old(State()).procs
      ensures Reached(SwitchStep(old(State()), i))
    {
      hide *;
      ghost var s := State();
      Opened();
      Separate();
      SwitchParts(s, i);
      KernelSatp();
      procs[i].Fields();
      SwitchCode(i);
      SettledAfter(s, i, SwitchStep(s, i));
    }

    /** mmuswitch's branches. */
    method SwitchCode(i: Pid)
      requires i in procs && Fixed() && Links() && Apart() && SatpRoot(kernelsatp) == Some(root)
      requires procs[i].mmuroot.Some? ==> procs[i].mmuroot.value in ram && SatpRoot(procs[i].satp) == procs[i].mmuroot
      modifies this`ram, this`satp, this`tlb, procs[i], pages.Values
      ensures Fixed() && Links() && procs[i].View() == Switched(old(procs[i].View()))
      ensures Decoded(ram) == (if old(procs[i].mmuroot).Some? && old(procs[i].newtlb)
                               then FreedMem(Decoded(old(ram)), old(procs[i].View())) else Decoded(old(ram)))
      ensures SatpRoot(satp) == if old(procs[i].mmuroot).Some? then old(procs[i].mmuroot) else Some(root)
      ensures forall j :: j in procs && j != i ==> procs[j].View() == old(procs[j].View())
      ensures forall c :: c in tlb ==> c.x == WalkVia(Decoded(ram), SatpRoot(satp), c.v)
    {
      hide *;
      procs[i].Fields();
      SwitchedView(procs[i].View());
      if procs[i].mmuroot.None? {
        SetNewtlb(i, false);
        Satpset(kernelsatp);
      } else {
        if procs[i].newtlb {
          Mmufree(i);
          SetNewtlb(i, false);
        }
        procs[i].Fields();
        Satpset(procs[i].satp);
      }
    }

    lemma PageSatp(pg: Page)
      requires Fixed() && pg in ram
      ensures SatpRoot(MkSatp(pg.pa)) == Some(pg)
    {
      hide PageAddr, SatpRoot, MkSatp;
      SatpDecodes(pg.pa);
    }

    lemma KernelSatp()
      requires Fixed()
      ensures SatpRoot(kernelsatp) == Some(root)
    {
      SatpDecodes(root.pa);
    }

    lemma SwitchedView(p: Pmmu)
      ensures Switched(p) == if p.root.Some? && p.newtlb then FreedProc(p).(newtlb := false) else p.(newtlb := false)
      ensures p.newtlb == false ==> p.(newtlb := false) == p
      ensures FreedProc(p).root == p.root && FreedProc(p).satp == p.satp
      ensures FreedProc(p).used == [] && FreedProc(p).tab == map[]
    {
    }

    method SetNewtlb(i: Pid, b: bool)
      requires i in procs && Fixed() && Links()
      modifies procs[i]
      ensures Links()
      ensures procs[i].View() == old(procs[i].View()).(newtlb := b)
      ensures forall j :: j in procs && j != i ==> procs[j].View() == old(procs[j].View())
    {
      hide SatpRoot, AllLinked, NextsOf, Fixed;
      OwnRecord(i);
      procs[i].newtlb := b;
      assert AllHeads() == old(AllHeads());
    }

    /** flushmmu: the pager has changed i's segments. */
    method Flushmmu(i: Pid)
      requires Valid() && i in procs
      modifies this, procs[i], pages.Values
      ensures Valid() && i in old(State()).procs
      ensures Reached(SwitchStep(StaleStep(old(State()), i), i))
    {
      hide *;
      ghost var s := State();
      Opened();
      ghost var s1 := StaleStep(s, i);
      MarkNewtlb(i);
      ghost var s2 := State();
      Mmuswitch(i);
      ReachedAfterSwitch(s1, s2, i);
    }

    lemma ReachedAfterSwitch(s1: Sys, s2: Sys, i: Pid)
      requires UpToTlb(s1, s2) && i in s1.procs && Reached(SwitchStep(s2, i))
      ensures Reached(SwitchStep(s1, i))
    {
      hide State, SwitchStep;
      SwitchUpToTlb(s1, s2, i);
    }

    /** The pager, or flushmmu, sets newtlb. */
    method MarkNewtlb(i: Pid)
      requires Valid() && i in procs
      modifies procs[i]
      ensures Valid() && i in old(State()).procs
      ensures Reached(StaleStep(old(State()), i))
      ensures UpToTlb(StaleStep(old(State()), i), State()) && i in StaleStep(old(State()), i).procs
    {
      hide *;
      ghost var s := State();
      Opened();
      StaleParts(s, i);
      SetNewtlb(i, true);
      SettledAfter(s, i, StaleStep(s, i));
      ReachedMeans(StaleStep(s, i));
    }

    lemma ReachedMeans(s: Sys)
      requires Reached(s)
      ensures UpToTlb(s, State())
    {
    }

    lemma ReachedIf(s: Sys)
      requires UpToTlb(s, State())
      ensures Reached(s)
    {
    }

    /** The refill: newpage's page goes on mmufree. */
    method PushFree(i: Pid, pg: Page)
      requires Valid() && i in procs && Enabled(State(), Refill(i, pg))
      modifies procs[i], pages.Values
      ensures Valid() && i in old(State()).procs
      ensures Reached(RefillStep(old(State()), i, pg))
    {
      hide *;
      ghost var s := State();
      Opened();
      Separate();
      PushReady(i, pg);
      LinkFree(i, pages[pg]);
      SettledAfter(s, i, RefillStep(s, i, pg));
    }

    lemma PushReady(i: Pid, pg: Page)
      requires Valid() && i in procs && Enabled(State(), Refill(i, pg))
      ensures i in State().procs && pg in pages && pages[pg].pa == pg && pages[pg] in pages.Values
      ensures forall j :: j in procs ==> pg !in Listed(AllHeads()[j])
      ensures var s, s' := State(), RefillStep(State(), i, pg);
        && Inv(s') && s'.procs == s.procs[i := Push(s.procs[i], pg)]
        && s'.mem == s.mem && s'.satp == s.satp && s'.kroot == s.kroot && s'.ktab == s.ktab
    {
      hide *;
      Opened();
      RefillNeeds(State(), i, pg);
      RefillParts(State(), i, pg);
      NewPage(pg);
    }

    lemma NewPage(pg: Page)
      requires Valid() && Unowned(State(), pg)
      ensures pg in pages && pages[pg].pa == pg
      ensures forall j :: j in procs ==> pg !in Listed(AllHeads()[j])
    {
      hide Chain;
      forall j | j in procs ensures pg !in Listed(AllHeads()[j]) {
        assert pg !in Owned(State().procs[j]);
        procs[j].Fields();
      }
    }

    /** new->next = up->mmufree; up->mmufree = new */
    method LinkFree(i: Pid, rec: PageRec)
      requires i in procs && Fixed() && Links() && rec.pa in pages && pages[rec.pa] == rec
      requires forall j :: j in procs ==> rec.pa !in Listed(AllHeads()[j])
      modifies procs[i], pages.Values
      ensures Links() && procs[i].View() == Push(old(procs[i].View()), rec.pa)
      ensures forall j :: j in procs && j != i ==> procs[j].View() == old(procs[j].View())
    {
      hide *;
      LinksAre();
      PushIs(procs[i].View(), rec.pa);
      PushLinks(pages, NextsOf(pages), AllHeads(), i, rec);
      PageNamed(rec);
      var up := procs[i];
      up.Fields();
      Relink(i, up, rec, up.mmufree, up.mmuused, rec, up.used, [rec.pa] + up.free, up.tab);
      up.Fields();
    }

    static lemma PushIs(p: Pmmu, pg: Page)
      ensures Push(p, pg) == p.(free := [pg] + p.free)
    {
    }

    /** mmurelease: the list for freepages, then the root page for putpage. */
    method Mmurelease(i: Pid) returns (list: PageRec?, rootPage: Option<Page>)
      requires Valid() && i in procs
      modifies this, procs[i], pages.Values
      ensures Valid() && i in old(State()).procs
      ensures Reached(ReleaseStep(old(State()), i))
      ensures Chain(pages, NextsOf(pages), list, FreedProc(old(procs[i].View())).free)
        && rootPage == old(procs[i].mmuroot)
    {
      hide *;
      ghost var s := State();
      Opened();
      Separate();
      ReleaseParts(s, i);
      SwitchParts(s, i);
      KernelSatp();
      procs[i].Fields();
      if procs[i].mmuroot.Some? { RootUnread(s, i); }
      list, rootPage := ReleaseCode(i);
      SettledAfter(s, i, ReleaseStep(s, i));
    }

    /** Off the process's tables; then its user half and lists are emptied. */
    method ReleaseCode(i: Pid) returns (list: PageRec?, rootPage: Option<Page>)
      requires i in procs && Fixed() && Links() && Apart() && SatpRoot(kernelsatp) == Some(root)
      requires procs[i].mmuroot.Some? ==>
        procs[i].mmuroot.value in ram && Unread(Decoded(ram), procs[i].mmuroot.value, Some(root))
      modifies this`ram, this`satp, this`tlb, procs[i], pages.Values
      ensures Fixed() && Links() && Decoded(ram) == FreedMem(Decoded(old(ram)), old(procs[i].View()))
      ensures procs[i].View() == NO_TABLES.(newtlb := old(procs[i].newtlb)) && SatpRoot(satp) == Some(root)
      ensures Chain(pages, NextsOf(pages), list, FreedProc(old(procs[i].View())).free)
        && rootPage == old(procs[i].mmuroot)
      ensures forall j :: j in procs && j != i ==> procs[j].View() == old(procs[j].View())
      ensures forall c :: c in tlb ==>
        c.x == WalkVia(Decoded(ram), Some(root), c.v) || c.x == WalkVia(Decoded(old(ram)), Some(root), c.v)
    {
      hide *;
      procs[i].Fields();
      SwitchedView(procs[i].View());
      Satpset(kernelsatp);
      if procs[i].mmuroot.Some? {
        PassingUnread(Decoded(ram), procs[i].mmuroot.value);
      }
      Mmufree(i);
      procs[i].Fields();
      list, rootPage := TakeAll(i);
    }

    /** The list and the root, taken out of the record. */
    method TakeAll(i: Pid) returns (list: PageRec?, rootPage: Option<Page>)
      requires i in procs && Fixed() && Links()
      modifies procs[i]
      ensures Links() && Chain(pages, NextsOf(pages), list, old(procs[i].free)) && rootPage == old(procs[i].mmuroot)
      ensures old(procs[i].View()).used == [] && old(procs[i].View()).tab == map[] ==>
                procs[i].View() == NO_TABLES.(newtlb := old(procs[i].newtlb))
      ensures forall j :: j in procs && j != i ==> procs[j].View() == old(procs[j].View())
    {
      NoSatp();
      hide *;
      LinksAre();
      EmptyKeeps(pages, NextsOf(pages), AllHeads(), i);
      OwnRecord(i);
      var p := procs[i];
      p.Fields();
      list := p.mmufree;
      SetHeads(i, p, p.mmuused, null, p.used, [], p.tab);
      LinksAre();
      rootPage := p.mmuroot;
      SetRoot(i, p, None, 0);
    }

    static lemma NoSatp()
      ensures SatpRoot(0) == None && NO_TABLES == Pmmu(None, None, [], [], false, map[])
    {
      SatpDecodes(0);
    }

    /** The root and its satp value. */
    method SetRoot(i: Pid, up: Proc, mmuroot: Option<Page>, satp: Word)
      requires i in procs && up == procs[i] && Fixed()
      modifies up`mmuroot, up`satp
      ensures up.mmuroot == mmuroot && up.satp == satp
      ensures up.View() == old(up.View()).(root := mmuroot, satp := SatpRoot(satp))
      ensures forall j :: j in procs && j != i ==> procs[j].View() == old(procs[j].View())
    {
      hide SatpRoot, Fixed;
      OwnRecord(i);
      up.mmuroot := mmuroot;
      up.satp := satp;
    }

    // ----- splitblock -----

    /** Memory is s's but for pg, which holds T and which no walk reads. */
    ghost predicate Filling(s: Sys, pg: Page, T: Table)
      reads `ram, `satp, `tlb
    {
      && Fixed() && pg in ram && Inv(s) && Unowned(s, pg)
      && Decoded(ram) == s.mem[pg := T] && SatpRoot(satp) == s.satp
      && forall c :: c in tlb ==> c.x == WalkVia(s.mem, s.satp, c.v)
    }

    /** One store of splitblock's loop. */
    method FillEntry(pg: Page, x: Index, w: Word, ghost s: Sys, ghost T: Table)
      requires Filling(s, pg, T)
      modifies this`ram, this`tlb
      ensures ram.Keys == old(ram).Keys && Filling(s, pg, T[x := Decode(w)])
    {
      assert pg in s.mem;
      hide Decode, Inv, Unowned, WalkVia, SatpRoot, PageAddr;
      StoreOver(s.mem, pg, T, x, Decode(w));
      UnownedUnread(s, pg, T[x := Decode(w)]);
      StoreWord(pg, x, w);
    }

    /** The first n entries are the page leaves of the block. */
    static ghost predicate Filled(T: Table, e: Pte, n: nat) {
      e.Leaf? && forall x: Index :: x < n ==> T[x] == Leaf(InBlock(e.frame, x), e.attr)
    }

    static method AsIndex(i: Word) returns (x: Index)
      requires i < 512
      ensures x == Count(i) && Count(i + 1) == x + 1 && i + 1 <= 512
    {
      CountNext(i);
      x := i as Index;
    }

    static lemma SplitEntry(pte: Word, i: Word, x: Index)
      requires Decode(pte).Leaf? && Aligned(Decode(pte).frame, 1) && i < 512 && x == Count(i)
      ensures Decode(SplitWord(pte, i)) == Leaf(InBlock(Decode(pte).frame, x), Decode(pte).attr)
    {
      hide Decode, Aligned, InBlock, SplitWord;
      SplitDecodes(pte, i);
    }

    static lemma FilledLeaf(T: Table, e: Pte, n: nat)
      requires Filled(T, e, n)
      ensures e.Leaf?
    {
    }

    static lemma FilledNext(T: Table, e: Pte, n: nat)
      requires Filled(T, e, n) && n < 512 && e.Leaf?
      ensures Filled(T[n := Leaf(InBlock(e.frame, n), e.attr)], e, n + 1)
    {
      hide InBlock;
    }

    method FillStep(pg: Page, pte: Word, i: Word, ghost s: Sys, ghost T: Table) returns (ghost T': Table)
      requires i < 512 && Filling(s, pg, T) && Filled(T, Decode(pte), Count(i)) && Aligned(Decode(pte).frame, 1)
      modifies this`ram, this`tlb
      ensures ram.Keys == old(ram).Keys && Filling(s, pg, T') && Filled(T', Decode(pte), Count(i + 1))
      ensures i + 1 <= 512 && Count(i + 1) == Count(i) + 1
    {
      hide *;
      var x := AsIndex(i);
      FilledLeaf(T, Decode(pte), x);
      SplitEntry(pte, i, x);
      FilledNext(T, Decode(pte), x);
      FillEntry(pg, x, SplitWord(pte, i), s, T);
      T' := T[x := Leaf(InBlock(Decode(pte).frame, x), Decode(pte).attr)];
    }

    /** The loop that fills a fresh level-0 table from a 2 MB leaf. */
    method FillSplit(pg: Page, pte: Word, ghost s: Sys)
      requires pg in s.mem && Filling(s, pg, s.mem[pg])
      requires Decode(pte).Leaf? && Aligned(Decode(pte).frame, 1)
      modifies this`ram, this`tlb
      ensures ram.Keys == old(ram).Keys
      ensures Filling(s, pg, SplitTable(Decode(pte).frame, Decode(pte).attr))
    {
      ghost var T: Table := s.mem[pg];
      var i: Word := 0;
      CountZero();
      hide Decode, Filling, InBlock, Aligned, Count, Inv;
      assert Filled(T, Decode(pte), 0);
      hide *;
      while i < 512
        invariant i <= 512 && ram.Keys == old(ram).Keys && Filling(s, pg, T) && Filled(T, Decode(pte), Count(i))
        decreases 512 - Count(i)
      {
        T := FillStep(pg, pte, i, s, T);
        i := i + 1;
      }
      CountAll(i);
      SplitTableIs(Decode(pte), T);
    }

    static function Count(i: Word): nat { i as nat }

    static lemma CountZero()
      ensures Count(0) == 0
    {
    }

    static lemma CountNext(i: Word)
      requires i < 512
      ensures Count(i) < 512 && i as Index == Count(i) && Count(i + 1) == Count(i) + 1 && i + 1 <= 512
    {
    }

    static lemma CountAll(i: Word)
      requires !(i < 512) && i <= 512
      ensures Count(i) == 512
    {
      assert i == 512;
    }

    static lemma StoreOver(mem: Mem, pg: Page, T: Table, x: Index, e: Pte)
      requires pg in mem
      ensures Store(mem[pg := T], pg, x, e) == mem[pg := T[x := e]]
    {
    }

    static lemma SplitTableIs(e: Pte, T: Table)
      requires Filled(T, e, 512)
      ensures T == SplitTable(e.frame, e.attr)
    {
      hide InBlock;
    }

    /** Reading a word of a page, decoded. */
    method ReadWord(pg: Page, va: Word, l: nat) returns (w: Word)
      requires pg in ram && l < 3
      ensures Decode(w) == Entry(Decoded(ram), pg, Field(VpnOf(va), l))
      ensures Bit(w, PTEVALID) <==> !Decode(w).Empty?
      ensures Decode(w).Next? ==> w & (PTEREAD | PTEWRITE | PTEEXEC) == 0 && Page(PtePa(w)) == Decode(w).table
      ensures Decode(w).Leaf? ==> w & (PTEREAD | PTEWRITE | PTEEXEC) != 0
    {
      w := ram[pg][Ptlx(va, l)];
      SoftwareReads(w);
      hide Decode, PtePa, Ptlx;
    }

    static lemma FieldsOf(v: Vpn)
      ensures Field(v, 2) == v.x2 && Field(v, 1) == v.x1 && Field(v, 0) == v.x0
    {
    }

    lemma Unmoved()
      ensures var s := State(); Reached(s.(mem := s.mem, ktab := s.ktab))
    {
    }

    lemma FillStart(s: Sys, pg: Page)
      requires Fixed() && Inv(s) && Unowned(s, pg) && s.mem == Decoded(ram) && s.satp == SatpRoot(satp)
      requires forall c :: c in tlb ==> c.x == WalkVia(s.mem, s.satp, c.v)
      ensures pg in s.mem && Filling(s, pg, s.mem[pg])
    {
      assert s.mem == s.mem[pg := s.mem[pg]];
      hide Inv, Decoded, SatpRoot, WalkVia;
    }

    lemma FillParts(s: Sys, pg: Page, T: Table)
      requires Filling(s, pg, T)
      ensures Fixed() && pg in ram && PageAddr(pg.pa) && Inv(s) && Unowned(s, pg) && Decoded(ram) == s.mem[pg := T]
          && SatpRoot(satp) == s.satp
      ensures forall c :: c in tlb ==> c.x == WalkVia(s.mem, s.satp, c.v)
    {
      hide Inv, Unowned, Decoded, SatpRoot, WalkVia, PageAddr;
    }

    lemma MatchesKernel(s: Sys, s': Sys)
      requires s.procs.Keys == procs.Keys && s'.procs == s.procs
          && (forall j :: j in procs ==> s.procs[j] == procs[j].View())
      requires Decoded(ram) == s'.mem && SatpRoot(satp) == s'.satp && root == s'.kroot && ktab == s'.ktab
      requires forall c :: c in tlb ==> c.x == WalkVia(s'.mem, s'.satp, c.v)
      ensures Matches(s')
    {
      hide Decoded, SatpRoot, WalkVia;
    }

    /** l1[x1] takes the new table; then the fence. */
    method FinishSplit(va: Word, l1: Page, l0: Page, ghost s: Sys, ghost e: Pte)
      requires s.procs.Keys == procs.Keys && (forall j :: j in procs ==> s.procs[j] == procs[j].View())
      requires s.kroot == root && s.ktab == ktab && Links()
      requires e.Leaf? && Filling(s, l0, SplitTable(e.frame, e.attr)) && l1 in ram
      requires var b := SplitBlock(s.mem, s.kroot, s.ktab, VpnOf(va), Some(l0));
        && b.tab == s.ktab[Mid(VpnOf(va).x2, VpnOf(va).x1) := l0] && l1 in s.mem && l0 in s.mem
        && b.mem == Store(s.mem[l0 := SplitTable(e.frame, e.attr)], l1, Field(VpnOf(va), 1), Next(l0))
        && Inv(s.(mem := b.mem, ktab := b.tab))
      modifies this`ram, this`tlb, this`ktab
      ensures Valid() && ram.Keys == old(ram).Keys
      ensures var b := SplitBlock(s.mem, s.kroot, s.ktab, VpnOf(va), Some(l0)); Reached(s.(mem := b.mem, ktab := b.tab))
    {
      hide *;
      ghost var b := SplitBlock(s.mem, s.kroot, s.ktab, VpnOf(va), Some(l0));
      FillParts(s, l0, SplitTable(e.frame, e.attr));
      LinkDecodes(l0.pa);
      StoreAt(l1, va, 1, LinkWord(l0.pa));
      ktab := b.tab;
      Sfencevma();
      MatchesKernel(s, s.(mem := b.mem, ktab := b.tab));
      Settled(s.(mem := b.mem, ktab := b.tab));
    }

    /** A store at the index PTLX(va, l). */
    method StoreAt(pg: Page, va: Word, l: nat, w: Word)
      requires pg in ram && Fixed() && l < 3
      modifies this`ram, this`tlb
      ensures Fixed() && ram.Keys == old(ram).Keys
      ensures pg in Decoded(old(ram)) && Decoded(ram) == Store(Decoded(old(ram)), pg, Field(VpnOf(va), l), Decode(w))
    {
      hide Decode, Fixed;
      StoreWord(pg, Ptlx(va, l), w);
    }

    /** The part of splitblock that has a leaf to split and a page to split it into. */
    method SplitLeaf(va: Word, l1: Page, l0: Page, pte: Word)
      requires Valid() && Unowned(State(), l0)
      requires Entry(State().mem, root, VpnOf(va).x2) == Next(l1) && Entry(State().mem, l1, VpnOf(va).x1) == Decode(pte)
      requires Decode(pte).Leaf? && Aligned(Decode(pte).frame, 1)
      modifies this`ram, this`tlb, this`ktab
      ensures Valid() && ram.Keys == old(ram).Keys
      ensures var s := old(State());
        var b := SplitBlock(s.mem, s.kroot, s.ktab, VpnOf(va), Some(l0));
        b.table == Some(l0) && Reached(s.(mem := b.mem, ktab := b.tab))
    {
      hide *;
      ghost var s := State();
      Opened();
      SplitEffect(s, VpnOf(va), Some(l0));
      SplitOutcome(s, VpnOf(va), Some(l0));
      FieldsOf(VpnOf(va));
      FillStart(s, l0);
      FillSplit(l0, pte, s);
      FinishSplit(va, l1, l0, s, Decode(pte));
    }

    /** splitblock(kernelroot(), va); l0 is what mallocalign returns if it is called. */
    method Splitblock(va: Word, l0: Option<Page>) returns (table: Option<Page>)
      requires Valid() && (l0.Some? ==> Unowned(State(), l0.value))
      modifies this`ram, this`tlb, this`ktab
      ensures Valid() && ram.Keys == old(ram).Keys
      ensures var s := old(State());
        var b := SplitBlock(s.mem, s.kroot, s.ktab, VpnOf(va), l0);
        table == b.table && Reached(s.(mem := b.mem, ktab := b.tab))
    {
      hide *;
      ghost var s := State();
      ghost var v := VpnOf(va);
      Opened();
      SplitOutcome(s, v, l0);
      KernelEntries(s, v);
      FieldsOf(v);
      Unmoved();
      var pte2 := ReadWord(root, va, 2);
      if !Bit(pte2, PTEVALID) {
        return None;
      }
      var l1 := Page(PtePa(pte2));
      var pte := ReadWord(l1, va, 1);
      if !Bit(pte, PTEVALID) {
        return None;
      }
      if pte & (PTEREAD | PTEWRITE | PTEEXEC) == 0 {
        return Some(Page(PtePa(pte)));
      }
      if l0.None? {
        return None;
      }
      SplitLeaf(va, l1, l0.value, pte);
      return l0;
    }

    // ----- mmuuncache -----

    /** l0[PTLX(va+o, 0)] &= ~PTE_THEAD_C */
    method ClearAt(t0: Page, va: Word, ghost mem: Mem, ghost x0: Index, ghost k: nat)
      requires t0 in ram && Fixed() && t0 in mem && x0 + k < 512 && Ptlx(va, 0) == x0 + k
      requires Decoded(ram) == ClearRun(mem, t0, x0, k) && !Entry(mem, t0, x0 + k).Reserved?
      modifies this`ram, this`tlb
      ensures Fixed() && ram.Keys == old(ram).Keys && Decoded(ram) == ClearRun(mem, t0, x0, k + 1)
    {
      ClearNext(mem, t0, x0, k);
      var x := Ptlx(va, 0);
      var w := ram[t0][x];
      assert Decode(w) == Entry(Decoded(ram), t0, x);
      ClearDecodes(w);
      hide *;
      StoreWord(t0, x, w & !PTE_THEAD_C);
    }

    /** One turn of mmuuncache's loop. */
    method ClearTurn(t0: Page, va: Word, size: Word, o: Word, ghost mem: Mem, ghost k: nat) returns (next: Word)
      requires t0 in ram && Fixed() && t0 in mem && o < size && AtPage(va, size, o, k)
      requires Decoded(ram) == ClearRun(mem, t0, Ptlx(va, 0), k)
      requires forall x: Index :: !Entry(mem, t0, x).Reserved?
      modifies this`ram, this`tlb
      ensures Fixed() && ram.Keys == old(ram).Keys && Decoded(ram) == ClearRun(mem, t0, Ptlx(va, 0), k + 1)
      ensures AtPage(va, size, next, k + 1) && k < PagesBelow(size)
    {
      NextTurn(va, size, o, k);
      hide *;
      ClearAt(t0, va + o, mem, Ptlx(va, 0), k);
      next := o + BY2PG;
    }

    /** The loop over the pages of [va, va+size). */
    method ClearPages(t0: Page, va: Word, size: Word)
      requires t0 in ram && Fixed() && RunFits(va, size)
      requires forall x: Index :: !Entry(Decoded(ram), t0, x).Reserved?
      modifies this`ram, this`tlb
      ensures Fixed() && t0 in Decoded(old(ram))
      ensures Decoded(ram) == ClearRun(Decoded(old(ram)), t0, Ptlx(va, 0), PagesBelow(size))
    {
      ghost var mem := Decoded(ram);
      assert t0 in mem;
      ClearNone(mem, t0, Ptlx(va, 0));
      FirstTurn(va, size);
      hide *;
      var o: Word := 0;
      ghost var k := 0;
      while o < size
        invariant t0 in ram && Fixed() && AtPage(va, size, o, k) && k <= PagesBelow(size)
        invariant Decoded(ram) == ClearRun(mem, t0, Ptlx(va, 0), k)
        decreases PagesBelow(size) - k
      {
        o := ClearTurn(t0, va, size, o, mem, k);
        k := k + 1;
      }
      LastTurn(va, size, o, k);
    }

    /** mmuuncache(v, size): clear C on the pages of [va, va+size) and flush them, or do nothing and say so. */
    method Mmuuncache(va: Word, size: Word, l0: Option<Page>) returns (ok: bool)
      requires Valid() && (l0.Some? ==> Unowned(State(), l0.value)) && size >> 32 == 0
      modifies this`ram, this`tlb, this`ktab, dcache
      ensures Valid()
      ensures !OneBlock(va, size) ==> !ok && State() == old(State())
      ensures OneBlock(va, size) ==>
                var s, e := old(State()), Uncache(VpnOf(va), PagesBelow(size), l0);
                && Enabled(s, e) && ok == Uncached(s, e)
                && Reached(UncacheStep(s, VpnOf(va), PagesBelow(size), l0))
      ensures dcache.cleaned == old(dcache.cleaned) + if ok then Flushed(Paddr(Num(va)), Num(size)) else []
      ensures ok && va >> 31 == 0x1_FFFF_FFFF && FlushFrames.Offset(old(State()).mem, root, va, size) ==>
                forall line :: line in dcache.cleaned[|old(dcache.cleaned)|..] <==>
                  FlushFrames.FrameLine(old(State()).mem, root, va, size, line)
    {
      hide *;
      if !OneBlock(va, size) {
        return false;
      }
      ghost var mem := State().mem;
      ok := UncacheBlock(va, size, l0);
      if ok {
        dcache.Dcflush(Num(va), Num(size));
        assert dcache.cleaned[|old(dcache.cleaned)|..] == Flushed(Paddr(Num(va)), Num(size));
        FlushedFrames(mem, va, size);
      }
    }

    lemma FlushedFrames(mem: Mem, va: Word, size: Word)
      requires OneBlock(va, size) && size >> 32 == 0
      ensures va >> 31 == 0x1_FFFF_FFFF && FlushFrames.Offset(mem, root, va, size) ==>
                forall line :: line in Flushed(Paddr(Num(va)), Num(size)) <==>
                  FlushFrames.FrameLine(mem, root, va, size, line)
    {
      hide *;
      if va >> 31 == 0x1_FFFF_FFFF && FlushFrames.Offset(mem, root, va, size) {
        FlushFrames.IsTop(va);
        FlushFrames.LinesAreFrames(mem, root, va, size);
      }
    }

    method UncacheBlock(va: Word, size: Word, l0: Option<Page>) returns (ok: bool)
      requires Valid() && (l0.Some? ==> Unowned(State(), l0.value)) && size >> 32 == 0 && OneBlock(va, size)
      modifies this`ram, this`tlb, this`ktab
      ensures Valid()
      ensures var s, e := old(State()), Uncache(VpnOf(va), PagesBelow(size), l0);
              && Enabled(s, e) && ok == Uncached(s, e)
              && Reached(UncacheStep(s, VpnOf(va), PagesBelow(size), l0))
    {
      hide *;
      ghost var s := State();
      ghost var v, n := VpnOf(va), PagesBelow(size);
      Opened();
      BlockFits(va, size);
      UncacheReady(s, va, size, l0);
      UncacheParts(s, v, n, l0);
      ghost var s' := UncacheStep(s, v, n, l0);
      ghost var b := SplitBlock(s.mem, s.kroot, s.ktab, v, l0);
      var table := Splitblock(va, l0);
      ReachedFields(s.(mem := b.mem, ktab := b.tab));
      Opened();
      if table.None? {
        Moved(s.(mem := b.mem, ktab := b.tab), s');
        return false;
      }
      ClearPages(table.value, va, size);
      Sfencevma();
      MatchesKernel(s, s');
      Settled(s');
      return true;
    }

    lemma UncacheReady(s: Sys, va: Word, size: Word, l0: Option<Page>)
      requires RunFits(va, size) && (l0.Some? ==> Unowned(s, l0.value))
      ensures Enabled(s, Uncache(VpnOf(va), PagesBelow(size), l0)) && VpnOf(va).x0 == Ptlx(va, 0)
    {
      hide PagesBelow, Ptlx;
    }

    lemma ReachedFields(s: Sys)
      requires Reached(s)
      ensures var t := State();
        t.mem == s.mem && t.kroot == s.kroot && t.ktab == s.ktab && t.satp == s.satp && t.procs == s.procs
    {
    }

    lemma Moved(s: Sys, s': Sys)
      requires Reached(s) && UpToTlb(s', s)
      ensures Reached(s')
    {
    }

    // ----- the rest of the machine -----

    /** mmuswitch(nil) */
    method MmuswitchNil()
      requires Valid()
      modifies this`satp, this`tlb
      ensures Valid() && Reached(SetSatp(old(State()), Some(root)))
    {
      hide *;
      ghost var s := State();
      Opened();
      IdleParts(s);
      KernelSatp();
      Satpset(kernelsatp);
      MatchesKernel(s, SetSatp(s, Some(root)));
      Settled(SetSatp(s, Some(root)));
    }

    /** Anyone may write a page that holds no table. */
    method Scribble(pg: Page, ws: Words)
      requires Valid() && Unowned(State(), pg)
      modifies this`ram, this`tlb
      ensures Valid() && var s := old(State()); Reached(s.(mem := s.mem[pg := DecodeTable(ws)]))
    {
      hide *;
      ghost var s := State();
      Opened();
      ghost var s' := s.(mem := s.mem[pg := DecodeTable(ws)]);
      ScribbleParts(s, pg, DecodeTable(ws));
      PageDecodes(ram, pg, ws);
      SpliceAll(ram[pg], ws);
      StoreWords(pg, 0, 512, ws);
      PassingUnread(s.mem, pg);
      MatchesKernel(s, s');
      Settled(s');
    }

    /** Between pieces the hardware may cache any walk. */
    method Cache(ghost v: Vpn)
      requires Valid()
      modifies this`tlb
      ensures Valid() && Reached(old(State()))
    {
      hide *;
      ghost var s := State();
      Opened();
      Hardware();
      MatchesKernel(s, s);
      Settled(s);
    }
  }
}
