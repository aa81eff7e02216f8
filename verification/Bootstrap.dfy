/** mmu.c's boot half as it runs: newtable to mmubootstrap on identity-mapped memory, then mmulowdrop. */
module Bootstrap {
  import opened Sv39
  import opened Lists
  import opened UserTree
  import opened KernelTree
  import opened Machine
  import opened PteWords
  import opened RamWords
  import opened BootTables
  import opened BootRuns
  import opened BootRegions
  import opened BootMap
  import opened BootResult
  import opened ProcTables
  import opened PageLists
  import opened CacheLines
  import opened Mmu
  import opened TableStore

  class BootMmu {
    var ram: Ram
    const tablestore: Word
    var ntable: nat
    var root: Page
    var kernelsatp: Word
    ghost var tab: Tables
    ghost var ops: seq<Op>     // the calls made so far

    ghost function State(): Boot
      reads `ram, `ntable, `tab
    {
      Boot(Decoded(ram), TablePages(tablestore), ntable, tab)
    }

    /** What holds after every store. */
    ghost predicate Fixed()
      reads `ram, `ntable, `tab, `root
    {
      && tablestore >> 31 == 0 && root == TablePage(tablestore, 0)
      && BootOk(State())
    }

    /** The tables hold what the calls made so far asked for. */
    ghost predicate Valid()
      reads `ram, `ntable, `tab, `root, `ops
    {
      Fixed() && Compatible(ops) && Built(State(), ops)
    }

    lemma Opened()
      requires Fixed()
      ensures var b := State();
        && b.mem == Decoded(ram) && b.mem.Keys == ram.Keys && b.ntable == ntable && b.tab == tab
        && b.store == TablePages(tablestore) && |b.store| == NTABLES && |b.store| > 0 && b.store[0] == root
        && (forall i :: 0 <= i < NTABLES ==> b.store[i] == TablePage(tablestore, i) && PageAddr(b.store[i].pa))
        && BootOk(b) && ntable <= NTABLES && tablestore >> 31 == 0 && root == TablePage(tablestore, 0)
    {
      StorePages(tablestore);
      hide BTree, InUse, PageAddr, TablePage, InStore;
    }

    /** newtable; None stands for the loop it never leaves. */
    method Newtable() returns (t: Option<Page>)
      modifies this`ntable
      ensures old(ntable) >= NTABLES ==> t == None && ntable == old(ntable)
      ensures old(ntable) < NTABLES ==> t == Some(TablePage(tablestore, old(ntable))) && ntable == old(ntable) + 1
    {
      if ntable >= NTABLES {
        return None;
      }
      t := Some(TablePage(tablestore, ntable));
      ntable := ntable + 1;
    }

    /**
     root[x2] or l1[x1], given a table first if it has none: the table it points to, None if newtable never returns.
     */
    method TableAt(t: Page, x: Index, ghost s: Slot) returns (next: Option<Page>)
      requires Fixed() && HangsAt(State(), s, t, x)
      modifies this`ram, this`ntable, this`tab
      ensures ram.Keys == old(ram).Keys
      ensures next == None <==> s !in old(tab) && old(ntable) >= NTABLES
      ensures next.Some? ==> Fixed() && State() == Ensure(old(State()), s, t, x) && s in tab && next.value == tab[s]
    {
      hide *;
      ghost var b := State();
      Opened();
      SlotReads(b, s, t, x);
      var pte := ram[t][x];
      EntryReads(ram, t, x);
      SoftwareReads(pte);
      if Bit(pte, PTEVALID) {
        next := Some(Page(PtePa(pte)));
        EnsureHere(b, s, t, x);
        return;
      }
      EnsureNew(b, s, t, x);
      next := Newtable();
      if next == None {
        return;
      }
      HangNew(t, x, next.value, s);
      StateIs(Ensure(b, s, t, x));
      FixedIf();
    }

    /** root[x2] = PAPTE(t) | PTEPTR, or l1[x1] likewise. */
    method HangNew(t: Page, x: Index, pg: Page, ghost s: Slot)
      requires t in ram && PageAddr(pg.pa)
      modifies this`ram, this`tab
      ensures ram.Keys == old(ram).Keys && t in Decoded(old(ram))
      ensures Decoded(ram) == Store(Decoded(old(ram)), t, x, Next(pg)) && tab == old(tab)[s := pg]
    {
      hide Decode, LinkWord, PageAddr;
      StoreDecodes(ram, t, x, LinkWord(pg.pa));
      LinkDecodes(pg.pa);
      ram := ram[t := ram[t][x := LinkWord(pg.pa)]];
      tab := tab[s := pg];
    }

    /** l0[x0] = PAPTE(pa) | attr, or l1[x1] likewise. */
    method StoreLeaf(t: Page, x: Index, pa: Word, attr: Word, ghost s: Slot)
      requires Fixed() && s in tab && t == tab[s]
      modifies this`ram
      ensures ram.Keys == old(ram).Keys
      ensures State() == SetAt(old(State()), s, x, Decode(LeafWord(pa, attr)))
    {
      ghost var b := State();
      Opened();
      InMem(b, s);
      hide *;
      StoreDecodes(ram, t, x, LeafWord(pa, attr));
      ram := ram[t := ram[t][x := LeafWord(pa, attr)]];
      SetAtIs(b, s, x, Decode(LeafWord(pa, attr)));
      StateIs(SetAt(b, s, x, Decode(LeafWord(pa, attr))));
    }

    lemma ValidParts()
      requires Valid()
      ensures Fixed() && Compatible(ops) && (forall op :: op in ops ==> op.leaf.Leaf?) && Built(State(), ops)
    {
    }

    lemma ValidIf()
      requires tablestore >> 31 == 0 && root == TablePage(tablestore, 0)
      requires Compatible(ops) && (forall op :: op in ops ==> op.leaf.Leaf?) && Built(State(), ops)
      ensures Valid()
    {
    }

    /** mapleaf's loads and stores; false stands for newtable's endless loop. */
    method PlacePage(va: Word, pa: Word, attr: Word) returns (ok: bool)
      requires Fixed() && OpOk(State(), PageAt(VpnOf(va), Decode(LeafWord(pa, attr))))
      modifies this`ram, this`ntable, this`tab
      ensures ram.Keys == old(ram).Keys
      ensures var b, op := old(State()), PageAt(VpnOf(va), Decode(LeafWord(pa, attr)));
        && |b.store| > 0 && ok == (b.ntable + Needs(b, op) <= NTABLES) && (ok ==> State() == Apply(b, op))
    {
      hide *;
      ghost var b, v := State(), VpnOf(va);
      ghost var op := PageAt(v, Decode(LeafWord(pa, attr)));
      VpnParts(va);
      Opened();
      NeedsIs(b, op);
      RootHangs(b, v);
      CallIs(b, op);
      var x2 := Ptlx(va, 2);
      var l1 := TableAt(root, x2, Top(v.x2));
      if l1 == None {
        return false;
      }
      Opened();
      MidHangs(b, op);
      var x1 := Ptlx(va, 1);
      var l0 := TableAt(l1.value, x1, Mid(v.x2, v.x1));
      if l0 == None {
        return false;
      }
      var x0 := Ptlx(va, 0);
      StoreLeaf(l0.value, x0, pa, attr, Mid(v.x2, v.x1));
      ok := true;
    }

    /** mapleaf: the page is mapped, unless a table is needed and none is left. */
    method Mapleaf(va: Word, pa: Word, attr: Word) returns (ok: bool)
      requires Valid() && Compatible(ops + [PageAt(VpnOf(va), Decode(LeafWord(pa, attr)))])
      modifies this`ram, this`ntable, this`tab, this`ops
      ensures ram.Keys == old(ram).Keys
      ensures var asked := old(ops) + [PageAt(VpnOf(va), Decode(LeafWord(pa, attr)))];
        ok == (Budget(asked) <= NTABLES) && (ok ==> Valid() && ops == asked)
    {
      hide *;
      ghost var b, op := State(), PageAt(VpnOf(va), Decode(LeafWord(pa, attr)));
      ValidParts();
      Opened();
      CallReady(b, ops, op);
      ok := PlacePage(va, pa, attr);
      if ok {
        OneMore(b, ops, op);
        Leaves(ops + [op]);
        ops := ops + [op];
        ValidIf();
      }
    }

    /** The same for one turn of mapblock's loop. */
    method PlaceBlock(va: Word, pa: Word, attr: Word) returns (ok: bool)
      requires Fixed() && OpOk(State(), BlockAt(VpnOf(va), Decode(LeafWord(pa, attr))))
      modifies this`ram, this`ntable, this`tab
      ensures ram.Keys == old(ram).Keys
      ensures var b, op := old(State()), BlockAt(VpnOf(va), Decode(LeafWord(pa, attr)));
        && |b.store| > 0 && ok == (b.ntable + Needs(b, op) <= NTABLES) && (ok ==> State() == Apply(b, op))
    {
      hide *;
      ghost var b, v := State(), VpnOf(va);
      ghost var op := BlockAt(v, Decode(LeafWord(pa, attr)));
      VpnParts(va);
      Opened();
      NeedsIs(b, op);
      RootHangs(b, v);
      CallIs(b, op);
      var x2 := Ptlx(va, 2);
      var l1 := TableAt(root, x2, Top(v.x2));
      if l1 == None {
        return false;
      }
      Opened();
      var x1 := Ptlx(va, 1);
      StoreLeaf(l1.value, x1, pa, attr, Top(v.x2));
      ok := true;
    }

    /** One turn of mapblock's loop. */
    method MapOneBlock(va: Word, pa: Word, attr: Word) returns (ok: bool)
      requires Valid() && Compatible(ops + [BlockAt(VpnOf(va), Decode(LeafWord(pa, attr)))])
      modifies this`ram, this`ntable, this`tab, this`ops
      ensures ram.Keys == old(ram).Keys
      ensures var asked := old(ops) + [BlockAt(VpnOf(va), Decode(LeafWord(pa, attr)))];
        ok == (Budget(asked) <= NTABLES) && (ok ==> Valid() && ops == asked)
    {
      hide *;
      ghost var b, op := State(), BlockAt(VpnOf(va), Decode(LeafWord(pa, attr)));
      ValidParts();
      Opened();
      CallReady(b, ops, op);
      ok := PlaceBlock(va, pa, attr);
      if ok {
        OneMore(b, ops, op);
        Leaves(ops + [op]);
        ops := ops + [op];
        ValidIf();
      }
    }

    /** maprange; its loop ends after n turns. */
    method Maprange(va: Word, pa: Word, size: Word, attr: Word, ghost n: nat) returns (ok: bool)
      requires Valid() && Turns(0, size, BY2PG, n) && Compatible(ops + RangeOps(va, pa, attr, 0, n))
      modifies this`ram, this`ntable, this`tab, this`ops
      ensures ram.Keys == old(ram).Keys
      ensures var asked := old(ops) + RangeOps(va, pa, attr, 0, n);
        ok == (Budget(asked) <= NTABLES) && (ok ==> Valid() && ops == asked)
    {
      hide *;
      ghost var asked, k := ops + RangeOps(va, pa, attr, 0, n), n;
      var o: Word := 0;
      while o < size
        invariant ram.Keys == old(ram).Keys && Valid() && Turns(o, size, BY2PG, k)
            && asked == ops + RangeOps(va, pa, attr, o, k)
        decreases k
      {
        RangeTurn(va, pa, attr, size, o, k, ops);
        ok := Mapleaf(va + o, pa + o, attr);
        if !ok {
          return;
        }
        o := o + BY2PG;
        k := k - 1;
      }
      RangeDone(va, pa, attr, size, o, k);
      assert ops + [] == ops;
      WithinBudget();
      ok := true;
    }

    /** mapblock likewise. */
    method Mapblock(va: Word, pa: Word, size: Word, attr: Word, ghost n: nat) returns (ok: bool)
      requires Valid() && Turns(0, size, BLOCK, n) && Compatible(ops + BlockOps(va, pa, attr, 0, n))
      modifies this`ram, this`ntable, this`tab, this`ops
      ensures ram.Keys == old(ram).Keys
      ensures var asked := old(ops) + BlockOps(va, pa, attr, 0, n);
        ok == (Budget(asked) <= NTABLES) && (ok ==> Valid() && ops == asked)
    {
      hide *;
      ghost var asked, k := ops + BlockOps(va, pa, attr, 0, n), n;
      var o: Word := 0;
      while o < size
        invariant ram.Keys == old(ram).Keys && Valid() && Turns(o, size, BLOCK, k)
            && asked == ops + BlockOps(va, pa, attr, o, k)
        decreases k
      {
        BlockTurn(va, pa, attr, size, o, k, ops);
        ok := MapOneBlock(va + o, pa + o, attr);
        if !ok {
          return;
        }
        o := o + BLOCK;
        k := k - 1;
      }
      BlockDone(va, pa, attr, size, o, k);
      assert ops + [] == ops;
      WithinBudget();
      ok := true;
    }

    lemma WithinBudget()
      requires Valid()
      ensures Budget(ops) <= NTABLES
    {
      ValidParts();
      Opened();
      BuiltParts(State(), ops);
      BudgetIs(ops);
      hide *;
    }

    /** maphigh, and mapident. */
    method MapAlias(high: bool, pa: Word, size: Word, attr: Word, ghost n: nat) returns (ok: bool)
      requires Valid() && Turns(0, size, BY2PG, n) && Compatible(ops + RangeOps(Alias(high, pa), pa, attr, 0, n))
      modifies this`ram, this`ntable, this`tab, this`ops
      ensures ram.Keys == old(ram).Keys
      ensures var asked := old(ops) + RangeOps(Alias(high, pa), pa, attr, 0, n);
        ok == (Budget(asked) <= NTABLES) && (ok ==> Valid() && ops == asked)
    {
      hide *;
      AliasIs(high, pa);
      ok := Maprange(if high then Kaddr(pa) else pa, pa, size, attr, n);
    }

    /** The eight calls mmubootstrap makes for one half. */
    method MapHalf(high: bool) returns (ok: bool)
      requires Valid() && FitsTables(ops + HalfOps(high))
      modifies this`ram, this`ntable, this`tab, this`ops
      ensures ram.Keys == old(ram).Keys
      ensures ok && Valid() && ops == old(ops) + HalfOps(high)
    {
      hide *;
      BootTurns();
      HalfIs(high);
      ThreeParts(ops, DramOps(high), PioOps(high), SingleOps(high));
      AliasIs(high, PHYSDRAM);
      ok := Mapblock(if high then Kaddr(PHYSDRAM) else PHYSDRAM, PHYSDRAM, DRAMMAX, PTELEAFMEM, 512);
      ok := MapAlias(high, PHYSPIO, PHYSPIOSIZE, PTELEAFDEV, 1536);
      ok := MapSingles(high);
    }

    method MapSingles(high: bool) returns (ok: bool)
      requires Valid() && FitsTables(ops + SingleOps(high))
      modifies this`ram, this`ntable, this`tab, this`ops
      ensures ram.Keys == old(ram).Keys
      ensures ok && Valid() && ops == old(ops) + SingleOps(high)
    {
      hide *;
      BootTurns();
      SinglesAre(high);
      SixParts(ops, OnePage(high, PHYSWDTRISCV), OnePage(high, PHYSMMC0), OnePage(high, PHYSEHCI1),
        OnePage(high, PHYSPLIC), OnePage(high, PHYSPLICEN), OnePage(high, PHYSPLICCTL));
      OnePageIs(high, PHYSWDTRISCV);
      ok := MapAlias(high, PHYSWDTRISCV, BY2PG, PTELEAFDEV, 1);
      OnePageIs(high, PHYSMMC0);
      ok := MapAlias(high, PHYSMMC0, BY2PG, PTELEAFDEV, 1);
      OnePageIs(high, PHYSEHCI1);
      ok := MapAlias(high, PHYSEHCI1, BY2PG, PTELEAFDEV, 1);
      OnePageIs(high, PHYSPLIC);
      ok := MapAlias(high, PHYSPLIC, BY2PG, PTELEAFDEV, 1);
      OnePageIs(high, PHYSPLICEN);
      ok := MapAlias(high, PHYSPLICEN, BY2PG, PTELEAFDEV, 1);
      OnePageIs(high, PHYSPLICCTL);
      ok := MapAlias(high, PHYSPLICCTL, BY2PG, PTELEAFDEV, 1);
    }

    /** Before mmubootstrap: BSS is zero. */
    ghost predicate Zeroed()
      reads `ram, `ntable
    {
      && ntable == 0 && tablestore >> 31 == 0
      && (forall pg :: pg in ram ==> PageAddr(pg.pa))
      && (forall i :: 0 <= i < NTABLES ==>
            TablePage(tablestore, i) in ram && ram[TablePage(tablestore, i)] == ZeroWords())
    }

    /** newtable never runs out: 21 of 24 tables, both aliases of every covered page, and nothing else. */
    method Mmubootstrap() returns (satp: Word)
      requires Zeroed()
      modifies this
      ensures Valid() && ops == BootstrapOps() && ntable == 21 && ram.Keys == old(ram).Keys
      ensures satp == kernelsatp == MkSatp(root.pa)
      ensures BootMapped(Decoded(ram), root) && LowTops(tab)
    {
      hide *;
      ZeroedParts();
      var t := Newtable();
      root := t.value;
      tab, ops := map[], [];
      RootEmpty();
      BootstrapFits();
      StartEmpty();
      var ok := MapHalf(true);
      ok := MapHalf(false);
      satp := MkSatp(root.pa);
      kernelsatp := satp;
      Finished();
    }

    lemma ZeroedParts()
      requires Zeroed()
      ensures ntable == 0 < NTABLES && tablestore >> 31 == 0
      ensures forall i :: 0 <= i < NTABLES ==>
        TablePage(tablestore, i) in ram && ram[TablePage(tablestore, i)] == ZeroWords()
    {
    }

    lemma RootEmpty()
      requires ntable == 1 && root == TablePage(tablestore, 0) && tab == map[] && ops == []
      requires tablestore >> 31 == 0
      requires forall i :: 0 <= i < NTABLES ==>
        TablePage(tablestore, i) in ram && ram[TablePage(tablestore, i)] == ZeroWords()
      ensures Valid()
    {
      hide *;
      PagesZero();
      ZeroedEmpty(State());
      EmptyBuilt(State());
      EmptyBootOk(State());
      NoCalls();
      FixedIf();
      ValidIf();
    }

    lemma PagesZero()
      requires ntable == 1 && tab == map[] && tablestore >> 31 == 0
      requires forall i :: 0 <= i < NTABLES ==>
        TablePage(tablestore, i) in ram && ram[TablePage(tablestore, i)] == ZeroWords()
      ensures var b := State();
        && b.ntable == 1 && b.tab == map[] && |b.store| >= 1 && Distinct(b.store)
        && forall i :: 0 <= i < |b.store| ==> b.store[i] in b.mem && b.mem[b.store[i]] == ZeroTable()
    {
      StorePages(tablestore);
      ZeroWordsDecode();
      hide TablePage, ZeroWords, ZeroTable, DecodeTable, InStore, PageAddr;
    }

    lemma Finished()
      requires Valid() && ops == BootstrapOps()
      ensures ntable == 21 && BootMapped(Decoded(ram), root) && LowTops(tab) && BTree(Decoded(ram), root, tab)
    {
      ValidParts();
      Opened();
      hide *;
      BuiltIsMap(State());
      LowSlots(tab);
      BootOkParts(State());
    }

    /** _start to main: the boot map goes into satp, and the identity half is retired. */
    method Start(procs: map<Pid, Proc>, pages: PageRecs, dcache: Dcache) returns (k: Kernel)
      requires Zeroed()
      requires forall i :: i in procs ==> procs[i].View() == NO_TABLES && procs[i].mmuused == procs[i].mmufree == null
      requires Named(pages) && ram.Keys <= pages.Keys
      requires forall i, j :: i in procs && j in procs && procs[i] == procs[j] ==> i == j
      modifies this
      ensures fresh(k) && k.Valid() && k.root == root && k.procs == procs && k.pages == pages
      ensures BootMapped(Decoded(ram), root)
      ensures forall v: Vpn :: Walk(Decoded(k.ram), k.root, v) == if v.User() then Fault
        else Walk(Decoded(ram), root, v)
      ensures forall pg :: pg in k.ram && pg !in TablePages(tablestore) ==> Unowned(k.State(), pg)
    {
      hide *;
      ZeroedAddrs();
      var satp := Mmubootstrap();
      StartReady();
      DroppedInv(Decoded(ram), root, tab, procs.Keys);
      DroppedMem(Decoded(ram), root, tab, procs.Keys);
      k := new Kernel(ram, root, satp, procs, pages, dcache, tab);
      k.NoLists();
      k.Mmulowdrop();
      k.ReachedMem(Dropped(Decoded(ram), root, tab, procs.Keys));
      RestUnowned(k, procs.Keys);
    }

    /** Memory outside tablestore is free for newpage and mallocalign. */
    lemma RestUnowned(k: Kernel, pids: set<Pid>)
      requires Valid() && root in Decoded(ram) && k.Reached(Dropped(Decoded(ram), root, tab, pids))
      ensures forall pg :: pg in k.ram && pg !in TablePages(tablestore) ==> Unowned(k.State(), pg)
    {
      hide *;
      ValidParts();
      Opened();
      k.ReachedFields(Dropped(Decoded(ram), root, tab, pids));
      k.RamKeys();
      DroppedMem(Decoded(ram), root, tab, pids);
      LowDropKeys(Decoded(ram), root);
      forall pg | pg in k.ram && pg !in TablePages(tablestore) ensures Unowned(k.State(), pg) {
        OutsideUnowned(State(), pids, pg);
        UnownedSame(Dropped(Decoded(ram), root, tab, pids), k.State(), pg);
      }
    }

    lemma ZeroedAddrs()
      requires Zeroed()
      ensures forall pg :: pg in ram ==> PageAddr(pg.pa)
    {
    }

    lemma StartReady()
      requires Valid() && ops == BootstrapOps()
      ensures root in ram && BTree(Decoded(ram), root, tab) && LowTops(tab)
    {
      hide *;
      Finished();
      ValidParts();
      Opened();
      BootOkParts(State());
    }

    lemma StateIs(b: Boot)
      requires b.mem == Decoded(ram) && b.store == TablePages(tablestore) && b.ntable == ntable && b.tab == tab
      ensures State() == b
    {
    }

    lemma FixedIf()
      requires tablestore >> 31 == 0 && root == TablePage(tablestore, 0) && BootOk(State())
      ensures Fixed()
    {
    }
  }

  /** Where a slot's entry lies, once its parent hangs. */
  ghost predicate HangsAt(b: Boot, s: Slot, t: Page, x: Index)
    requires |b.store| > 0
  {
    if s.Top? then t == b.store[0] && x == s.x2
    else
      && Top(s.x2) in b.tab && t == b.tab[Top(s.x2)] && x == s.x1
      && (s in b.tab || Entry(b.mem, t, x).Empty?)
  }

  lemma SlotReads(b: Boot, s: Slot, t: Page, x: Index)
    requires BootOk(b) && HangsAt(b, s, t, x)
    ensures t in b.mem && Entry(b.mem, t, x) == if s in b.tab then Next(b.tab[s]) else Empty
  {
    hide Aligned;
  }

  lemma EntryReads(ram: Ram, t: Page, x: Index)
    requires t in ram
    ensures Entry(Decoded(ram), t, x) == Decode(ram[t][x])
  {
    hide Decode;
  }

  lemma EnsureNew(b: Boot, s: Slot, t: Page, x: Index)
    requires BootOk(b) && HangsAt(b, s, t, x) && s !in b.tab && t in b.mem
    ensures b.ntable <= |b.store|
    ensures b.ntable < |b.store| ==> var c := Ensure(b, s, t, x);
      && c.mem == Store(b.mem, t, x, Next(b.store[b.ntable])) && c.store == b.store && c.ntable == b.ntable + 1
      && c.tab == b.tab[s := b.store[b.ntable]] && BootOk(c)
  {
    if b.ntable < |b.store| {
      EnsureKeeps(b, s, t, x);
    }
    hide BTree, InUse;
  }

  /** Before a call: it may be made, and how many tables it takes. */
  lemma CallReady(b: Boot, init: seq<Op>, op: Op)
    requires Compatible(init + [op]) && (forall o :: o in init ==> o.leaf.Leaf?) && Built(b, init)
    ensures OpOk(b, op) && BootOk(b) && Budget(init + [op]) == b.ntable + Needs(b, op)
    ensures Needs(b, op) == (if Top(op.v.x2) in b.tab then 0 else 1)
      + (if op.PageAt? && Mid(op.v.x2, op.v.x1) !in b.tab then 1 else 0)
  {
    OpReady(b, init, op);
    SlotCounts(init, op);
    BudgetIs(init + [op]);
    BuiltParts(b, init);
    NeedsIs(b, op);
    hide *;
  }

  lemma RootHangs(b: Boot, v: Vpn)
    requires |b.store| > 0
    ensures HangsAt(b, Top(v.x2), b.store[0], v.x2)
    ensures EnsureTop(b, v) == Ensure(b, Top(v.x2), b.store[0], v.x2)
  {
  }

  lemma MidHangs(b: Boot, op: Op)
    requires BootOk(b) && OpOk(b, op) && op.PageAt? && (Top(op.v.x2) in b.tab || b.ntable < |b.store|)
    ensures |b.store| > 0
    ensures var c, s := Ensure(b, Top(op.v.x2), b.store[0], op.v.x2), Mid(op.v.x2, op.v.x1);
      && Top(op.v.x2) in c.tab && |c.store| > 0 && HangsAt(c, s, c.tab[Top(op.v.x2)], op.v.x1)
      && (s in c.tab <==> s in b.tab) && c.ntable == b.ntable + (if Top(op.v.x2) in b.tab then 0 else 1)
      && EnsureMid(c, op.v) == Ensure(c, s, c.tab[Top(op.v.x2)], op.v.x1)
  {
    EnsureTopKeeps(b, op.v);
    RootHangs(b, op.v);
    var c := EnsureTop(b, op.v);
    assert c == Ensure(b, Top(op.v.x2), b.store[0], op.v.x2);
    var at := Vpn(op.v.x2, op.v.x1, 0);
    assert Deciding(c.mem, c.tab, at) == Deciding(b.mem, b.tab, at);
    assert BTree(c.mem, c.store[0], c.tab);
    hide Ensure, EnsureTop, BTree, Aligned;
  }

  lemma CallIs(b: Boot, op: Op)
    requires |b.store| > 0
    ensures op.BlockAt? ==>
      Apply(b, op) == SetAt(Ensure(b, Top(op.v.x2), b.store[0], op.v.x2), Top(op.v.x2), op.v.x1, op.leaf)
    ensures op.PageAt? ==>
      Apply(b, op) == SetAt(EnsureMid(Ensure(b, Top(op.v.x2), b.store[0], op.v.x2), op.v), Mid(op.v.x2, op.v.x1),
        op.v.x0, op.leaf)
  {
    hide SetAt, Ensure, EnsureMid;
  }

  lemma RangeTurn(va: Word, pa: Word, attr: Word, size: Word, o: Word, k: nat, done: seq<Op>)
    requires o < size && Turns(o, size, BY2PG, k) && Compatible(done + RangeOps(va, pa, attr, o, k))
    ensures k > 0 && Turns(o + BY2PG, size, BY2PG, k - 1)
    ensures var op := PageAt(VpnOf(va + o), Decode(LeafWord(pa + o, attr)));
      && done + RangeOps(va, pa, attr, o, k) == done + [op] + RangeOps(va, pa, attr, o + BY2PG, k - 1)
      && Compatible(done + [op])
      && Budget(done + [op]) <= Budget(done + RangeOps(va, pa, attr, o, k))
  {
    RangeUnfold(va, pa, attr, size, o, k);
    hide *;
    var op := PageAt(VpnOf(va + o), Decode(LeafWord(pa + o, attr)));
    var rest := RangeOps(va, pa, attr, o + BY2PG, k - 1);
    assert done + ([op] + rest) == done + [op] + rest;
    CompatibleInit(done + [op], rest);
    BudgetGrows(done + [op], rest);
  }

  lemma RangeUnfold(va: Word, pa: Word, attr: Word, size: Word, o: Word, k: nat)
    requires o < size && Turns(o, size, BY2PG, k)
    ensures k > 0 && Turns(o + BY2PG, size, BY2PG, k - 1)
    ensures RangeOps(va, pa, attr, o, k) ==
            [PageAt(VpnOf(va + o), Decode(LeafWord(pa + o, attr)))] + RangeOps(va, pa, attr, o + BY2PG, k - 1)
  {
    hide VpnOf, Decode, LeafWord;
  }

  lemma RangeDone(va: Word, pa: Word, attr: Word, size: Word, o: Word, k: nat)
    requires !(o < size) && Turns(o, size, BY2PG, k)
    ensures RangeOps(va, pa, attr, o, k) == []
  {
  }

  lemma BlockTurn(va: Word, pa: Word, attr: Word, size: Word, o: Word, k: nat, done: seq<Op>)
    requires o < size && Turns(o, size, BLOCK, k) && Compatible(done + BlockOps(va, pa, attr, o, k))
    ensures k > 0 && Turns(o + BLOCK, size, BLOCK, k - 1)
    ensures var op := BlockAt(VpnOf(va + o), Decode(LeafWord(pa + o, attr)));
      && done + BlockOps(va, pa, attr, o, k) == done + [op] + BlockOps(va, pa, attr, o + BLOCK, k - 1)
      && Compatible(done + [op])
      && Budget(done + [op]) <= Budget(done + BlockOps(va, pa, attr, o, k))
  {
    BlockUnfold(va, pa, attr, size, o, k);
    hide *;
    var op := BlockAt(VpnOf(va + o), Decode(LeafWord(pa + o, attr)));
    var rest := BlockOps(va, pa, attr, o + BLOCK, k - 1);
    assert done + ([op] + rest) == done + [op] + rest;
    CompatibleInit(done + [op], rest);
    BudgetGrows(done + [op], rest);
  }

  lemma BlockUnfold(va: Word, pa: Word, attr: Word, size: Word, o: Word, k: nat)
    requires o < size && Turns(o, size, BLOCK, k)
    ensures k > 0 && Turns(o + BLOCK, size, BLOCK, k - 1)
    ensures BlockOps(va, pa, attr, o, k) ==
            [BlockAt(VpnOf(va + o), Decode(LeafWord(pa + o, attr)))] + BlockOps(va, pa, attr, o + BLOCK, k - 1)
  {
    hide VpnOf, Decode, LeafWord;
  }

  lemma BlockDone(va: Word, pa: Word, attr: Word, size: Word, o: Word, k: nat)
    requires !(o < size) && Turns(o, size, BLOCK, k)
    ensures BlockOps(va, pa, attr, o, k) == []
  {
  }

  lemma CompatibleInit(init: seq<Op>, rest: seq<Op>)
    requires Compatible(init + rest)
    ensures Compatible(init)
  {
    hide Aligned;
    assert forall op :: op in init ==> op in init + rest;
  }

  lemma BudgetGrows(init: seq<Op>, rest: seq<Op>)
    ensures Budget(init) <= Budget(init + rest)
  {
    assert forall op :: op in init ==> op in init + rest;
    assert Tops(init) <= Tops(init + rest);
    assert Mids(init) <= Mids(init + rest);
    hide Tops, Mids;
    SubsetSize(Tops(init), Tops(init + rest));
    SubsetSize(Mids(init), Mids(init + rest));
  }

  lemma SubsetSize(a: set<Slot>, b: set<Slot>)
    requires a <= b
    ensures |a| <= |b|
  {
    assert b == a + (b - a);
  }

  lemma AliasIs(high: bool, pa: Word)
    ensures Alias(high, pa) == if high then Kaddr(pa) else pa
  {
  }

  lemma BootTurns()
    ensures Turns(0, PHYSPIOSIZE, BY2PG, 1536) && Turns(0, DRAMMAX, BLOCK, 512) && Turns(0, BY2PG, BY2PG, 1)
  {
    FromZero();
    OnePageTurn();
  }

  lemma HalfIs(high: bool)
    ensures HalfOps(high) == DramOps(high) + PioOps(high) + SingleOps(high)
    ensures DramOps(high) == BlockOps(Alias(high, PHYSDRAM), PHYSDRAM, PTELEAFMEM, 0, 512)
    ensures PioOps(high) == RangeOps(Alias(high, PHYSPIO), PHYSPIO, PTELEAFDEV, 0, 1536)
  {
    hide BlockOps, RangeOps, Alias;
  }

  lemma SinglesAre(high: bool)
    ensures SingleOps(high) == OnePage(high, PHYSWDTRISCV) + OnePage(high, PHYSMMC0) + OnePage(high, PHYSEHCI1)
                               + OnePage(high, PHYSPLIC) + OnePage(high, PHYSPLICEN) + OnePage(high, PHYSPLICCTL)
  {
    hide OnePage;
  }

  lemma OnePageIs(high: bool, pa: Word)
    ensures OnePage(high, pa) == RangeOps(Alias(high, pa), pa, PTELEAFDEV, 0, 1)
  {
  }

  ghost predicate FitsTables(ops: seq<Op>) { Compatible(ops) && Budget(ops) <= NTABLES }

  lemma FitsStart(init: seq<Op>, rest: seq<Op>)
    requires FitsTables(init + rest)
    ensures FitsTables(init) && Compatible(init) && Budget(init) <= NTABLES
  {
    CompatibleInit(init, rest);
    BudgetGrows(init, rest);
    hide Compatible, Budget;
  }

  lemma ThreeParts(done: seq<Op>, a: seq<Op>, b: seq<Op>, c: seq<Op>)
    requires FitsTables(done + (a + b + c))
    ensures done + a + b + c == done + (a + b + c)
    ensures FitsTables(done + a + b + c)
    ensures Compatible(done + a) && Budget(done + a) <= NTABLES
    ensures Compatible(done + a + b) && Budget(done + a + b) <= NTABLES
  {
    hide *;
    assert done + a + b + c == done + (a + b + c);
    assert done + a + b + c == done + a + (b + c);
    FitsStart(done + a + b, c);
    FitsStart(done + a, b + c);
  }

  lemma SixParts(done: seq<Op>, a: seq<Op>, b: seq<Op>, c: seq<Op>, d: seq<Op>, e: seq<Op>, f: seq<Op>)
    requires FitsTables(done + (a + b + c + d + e + f))
    ensures done + a + b + c + d + e + f == done + (a + b + c + d + e + f)
    ensures Compatible(done + a) && Budget(done + a) <= NTABLES
    ensures Compatible(done + a + b) && Budget(done + a + b) <= NTABLES
    ensures Compatible(done + a + b + c) && Budget(done + a + b + c) <= NTABLES
    ensures Compatible(done + a + b + c + d) && Budget(done + a + b + c + d) <= NTABLES
    ensures Compatible(done + a + b + c + d + e) && Budget(done + a + b + c + d + e) <= NTABLES
    ensures Compatible(done + a + b + c + d + e + f) && Budget(done + a + b + c + d + e + f) <= NTABLES
  {
    hide *;
    var all := done + (a + b + c + d + e + f);
    assert all == (done + a) + (b + c + d + e + f);
    FitsStart(done + a, b + c + d + e + f);
    assert all == (done + a + b) + (c + d + e + f);
    FitsStart(done + a + b, c + d + e + f);
    assert all == (done + a + b + c) + (d + e + f);
    FitsStart(done + a + b + c, d + e + f);
    assert all == (done + a + b + c + d) + (e + f);
    FitsStart(done + a + b + c + d, e + f);
    assert all == (done + a + b + c + d + e) + f;
    FitsStart(done + a + b + c + d + e, f);
    assert all == done + a + b + c + d + e + f;
    assert all + [] == all;
    FitsStart(all, []);
  }

  lemma BootstrapFits()
    ensures FitsTables(HalfOps(true)) && FitsTables(HalfOps(true) + HalfOps(false))
        && HalfOps(true) + HalfOps(false) == BootstrapOps()
  {
    BootCompatible();
    BootBudget();
    BudgetIs(BootstrapOps());
    BootstrapIs();
    hide Compatible, Budget, BootstrapOps, HalfOps;
    FitsStart(HalfOps(true), HalfOps(false));
  }

  lemma BootstrapIs()
    ensures HalfOps(true) + HalfOps(false) == BootstrapOps()
  {
    hide HalfOps;
  }

  lemma ZeroWordsDecode()
    ensures DecodeTable(ZeroWords()) == ZeroTable()
  {
    SoftwareReads(0);
    hide Decode;
  }

  lemma EmptyBootOk(b: Boot)
    requires EmptyBoot(b)
    ensures BootOk(b)
  {
  }

  lemma NoCalls()
    ensures Compatible([])
  {
  }

  lemma StartEmpty()
    ensures [] + HalfOps(true) == HalfOps(true)
  {
  }

  lemma LowDropKeys(mem: Mem, root: Page)
    requires root in mem
    ensures LowDrop(mem, root).Keys == mem.Keys
  {
  }

  lemma UnownedSame(s: Sys, t: Sys, pg: Page)
    requires Unowned(s, pg) && t.mem.Keys == s.mem.Keys && t.kroot == s.kroot && t.ktab == s.ktab && t.procs == s.procs
    ensures Unowned(t, pg)
  {
    hide KOwned, Owned;
  }

  lemma DroppedMem(mem: Mem, root: Page, tab: Tables, pids: set<Pid>)
    requires root in mem
    ensures Dropped(mem, root, tab, pids).mem == LowDrop(mem, root)
  {
  }
}
