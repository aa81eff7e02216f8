/** From the first instruction on: what every run that starts at boot keeps. */
module FromBoot {
  import opened Sv39
  import opened Lists
  import opened KernelTree
  import opened ProcTables
  import opened Machine
  import opened Steps
  import opened Runs
  import opened Pages
  import opened Refill
  import opened PteWords
  import opened BootTables
  import opened BootRuns
  import opened BootMap
  import opened BootResult
  import opened TableStore
  import opened BlockRuns
  import CacheLines
  import FlushFrames

  /** The machine when main() starts, with the process records pids blank. */
  function Start(b: Boot, pids: set<Pid>): Sys
    requires |b.store| > 0 && ApplyAll(b, BootstrapOps()).store[0] in ApplyAll(b, BootstrapOps()).mem
  {
    var c := ApplyAll(b, BootstrapOps());
    Dropped(c.mem, c.store[0], c.tab, pids)
  }

  ghost predicate FreshStore(b: Boot) { EmptyBoot(b) && |b.store| == NTABLES }

  /** Memory as BSS clearing leaves it: the pages of tablestore zero, the first of them the root. */
  function Cleared(tablestore: Word): Boot {
    Boot(map pg | pg in TablePages(tablestore) :: ZeroTable(), TablePages(tablestore), 1, map[])
  }

  lemma ClearedIsFresh(tablestore: Word)
    requires tablestore >> 31 == 0
    ensures FreshStore(Cleared(tablestore))
  {
    StorePages(tablestore);
    hide TablePages, TablePage, EmptyBoot, InStore, PageAddr, ZeroTable;
    ZeroedEmpty(Cleared(tablestore));
  }

  lemma ApplyKeys(b: Boot, op: Op)
    requires |b.store| > 0
    ensures Apply(b, op).mem.Keys == b.mem.Keys
  {
  }

  lemma {:induction false} AllKeys(b: Boot, ops: seq<Op>)
    requires |b.store| > 0
    ensures ApplyAll(b, ops).mem.Keys == b.mem.Keys
    decreases |ops|
  {
    hide Apply;
    if ops != [] {
      AllKeys(b, ops[..|ops| - 1]);
      ApplyKeys(ApplyAll(b, ops[..|ops| - 1]), ops[|ops| - 1]);
    }
  }

  /**
   After boot newpage and mallocalign may return any page outside tablestore, and any process's first root can be
   made.
   */
  lemma StartOpen(b: Boot, pids: set<Pid>, i: Pid, pg: Page)
    requires FreshStore(b) && pg in b.mem && pg !in b.store && i in pids
    ensures |b.store| > 0 && ApplyAll(b, BootstrapOps()).store[0] in ApplyAll(b, BootstrapOps()).mem
    ensures Unowned(Start(b, pids), pg) && Enabled(Start(b, pids), RootAlloc(i, pg))
  {
    hide *;
    FreshParts(b);
    BootedInv(b, pids);
    StartIs(b, pids);
    AllKeys(b, BootstrapOps());
    OutsideUnowned(ApplyAll(b, BootstrapOps()), pids, pg);
    RootIf(Start(b, pids), i, pg);
  }

  /** So the first putmmu after boot can go through, given any three such pages. */
  lemma FirstPutmmu(b: Boot, pids: set<Pid>, i: Pid, v: Vpn, m: Mapping, pg: Page, pages: seq<Page>)
    requires FreshStore(b) && i in pids && v.User() && |pages| == 2 && Distinct([pg] + pages)
    requires forall q :: q in [pg] + pages ==> q in b.mem && q !in b.store
    ensures |b.store| > 0 && ApplyAll(b, BootstrapOps()).store[0] in ApplyAll(b, BootstrapOps()).mem
    ensures var s, es := Start(b, pids), [RootAlloc(i, pg), Load(i)];
      && CanRun(s, es) && RoundsOk(Run(s, es), i, v, m, QuietRounds(pages))
      && var o := Putmmu(Run(s, es), i, v, m, QuietRounds(pages));
         o.landed && i in o.s.procs && UserWalk(o.s, i, v) == Maps(m.frame, UserAttr(m))
  {
    hide *;
    StartDefined(b, pids);
    var s := Start(b, pids);
    forall q | q in [pg] + pages ensures Unowned(s, q) { StartOpen(b, pids, i, q); }
    StartOpen(b, pids, i, pg);
    assert pg in [pg] + pages && forall n :: 0 <= n < |pages| ==> pages[n] in [pg] + pages;
    KernelRootIn(s);
    RootRecord(s, i, pg);
    FirstPutOk(s, i, v, m, pg, pages);
    var es := [RootAlloc(i, pg), Load(i)];
    RunKeepsInv(s, es);
    var s1 := Run(s, es);
    RoundsParts(s1, i, v, m, QuietRounds(pages));
    TryDefined(s1, i, v, m);
    MissingBound(s1.procs[i].tab, v);
    DemandIs(s1.procs[i], v);
    assert |QuietRounds(pages)| == 2 by { QuietLength(pages); }
    RefillBound(s1, i, v, m, QuietRounds(pages));
  }

  lemma QuietLength(pages: seq<Page>)
    ensures |QuietRounds(pages)| == |pages|
  {
  }

  function Blank(pids: set<Pid>): AState { map i | i in pids :: AProc(map[], false) }

  lemma StartDefined(b: Boot, pids: set<Pid>)
    requires FreshStore(b)
    ensures |b.store| > 0 && ApplyAll(b, BootstrapOps()).store[0] in ApplyAll(b, BootstrapOps()).mem
    ensures Inv(Start(b, pids)) && Refines(Start(b, pids), Blank(pids))
  {
    hide *;
    FreshParts(b);
    BootedInv(b, pids);
    StartIs(b, pids);
    BlankRefines(Start(b, pids), pids);
  }

  lemma FreshParts(b: Boot)
    requires FreshStore(b)
    ensures EmptyBoot(b) && |b.store| == NTABLES && |b.store| > 0
  {
    hide EmptyBoot;
  }

  lemma StartIs(b: Boot, pids: set<Pid>)
    requires |b.store| > 0 && ApplyAll(b, BootstrapOps()).store[0] in ApplyAll(b, BootstrapOps()).mem
    ensures var c, s := ApplyAll(b, BootstrapOps()), Start(b, pids);
      && s == Dropped(c.mem, c.store[0], c.tab, pids) && s.kroot == c.store[0] && s.mem == LowDrop(c.mem, c.store[0])
      && s.procs.Keys == pids && (forall i :: i in pids ==> s.procs[i] == NO_TABLES && s.procs[i].root.None?)
  {
    hide ApplyAll, BootstrapOps, LowDrop, HighTables;
  }

  lemma BlankRefines(s: Sys, pids: set<Pid>)
    requires s.procs.Keys == pids && forall i :: i in pids ==> s.procs[i] == NO_TABLES
    ensures Refines(s, Blank(pids))
  {
    forall i | i in pids ensures ProcShows(s, i, AProc(map[], false)) {
      assert s.procs[i] == NO_TABLES;
    }
  }

  /** From boot, over every run: the invariant holds and every process's walk is its abstract page map. */
  lemma BootRunRefines(b: Boot, pids: set<Pid>, es: seq<Event>)
    requires FreshStore(b)
    ensures |b.store| > 0 && ApplyAll(b, BootstrapOps()).store[0] in ApplyAll(b, BootstrapOps()).mem
    ensures CanRun(Start(b, pids), es) ==>
      Inv(Run(Start(b, pids), es)) && Refines(Run(Start(b, pids), es), ARun(Start(b, pids), Blank(pids), es))
  {
    hide *;
    StartDefined(b, pids);
    if CanRun(Start(b, pids), es) {
      RunKeepsInv(Start(b, pids), es);
      RunRefines(Start(b, pids), Blank(pids), es);
    }
  }

  lemma KaddrHigh(pg: Page)
    requires Mapped(pg)
    ensures !VpnOf(Kaddr(pg.pa)).User() && Alias(true, pg.pa) == Kaddr(pg.pa)
  {
    hide *;
    MappedParts(pg);
    MappedSmall(pg);
    AliasIsKaddr(pg.pa);
    VpnParts(Kaddr(pg.pa));
    PtlxBits(Kaddr(pg.pa), 2);
    AliasTop(true, pg.pa);
    if InDevice(pg) { DeviceGiga(pg); } else { DramGiga(pg); }
    TopIndex(true);
    HighField(VpnOf(Kaddr(pg.pa)));
  }

  lemma AliasIsKaddr(pa: Word)
    ensures Alias(true, pa) == Kaddr(pa)
  {
  }

  lemma HighField(v: Vpn)
    requires v.x2 >= 256
    ensures !v.User()
  {
  }

  /**
   KADDR keeps working: after any run from boot, under the boot root and every live process root, the KADDR alias of
   a page mmubootstrap covers walks to that page with its memory type, less C where mmuuncache cleared it.
   */
  lemma KaddrHolds(b: Boot, pids: set<Pid>, es: seq<Event>, pg: Page, root: Page)
    requires FreshStore(b) && Mapped(pg)
    ensures |b.store| > 0 && ApplyAll(b, BootstrapOps()).store[0] in ApplyAll(b, BootstrapOps()).mem
    ensures CanRun(Start(b, pids), es) ==>
      var s, v := Run(Start(b, pids), es), VpnOf(Kaddr(pg.pa));
      var x := Maps(pg, MemoryType(pg));
      root == s.kroot || (exists i :: i in s.procs && s.procs[i].root == Some(root)) ==>
        Walk(s.mem, root, v) == if EverUncached(Start(b, pids), es, v) then ClearCX(x) else x
  {
    hide *;
    FreshParts(b);
    StartDefined(b, pids);
    BootedInv(b, pids);
    StartIs(b, pids);
    BootMapIs(b);
    var c, s0, v := ApplyAll(b, BootstrapOps()), Start(b, pids), VpnOf(Kaddr(pg.pa));
    KaddrHigh(pg);
    MappedAt(c.mem, c.store[0], true, pg);
    if CanRun(s0, es) {
      var s := Run(s0, es);
      KernelWalkAfter(s0, es, v);
      if root != s.kroot && exists i :: i in s.procs && s.procs[i].root == Some(root) {
        var i :| i in s.procs && s.procs[i].root == Some(root);
        KernelHalfShared(s0, es, i, v);
      }
    }
  }

  // ----- what mmuuncache flushes -----

  lemma HighUser(a: Word)
    requires FlushFrames.Top(a)
    ensures !VpnOf(a).User()
  {
    hide *;
    HighField2(a);
    VpnParts(a);
    PtlxBits(a, 2);
    IndexFrom(FieldBits(a, 2));
    HighField(VpnOf(a));
  }

  lemma HighField2(a: Word)
    requires FlushFrames.Top(a)
    ensures FieldBits(a, 2) == 510 || FieldBits(a, 2) == 511
  {
  }

  lemma IndexFrom(f: Word)
    requires f == 510 || f == 511
    ensures f < 512 && f as Index >= 256
  {
  }

  /** A kernel address as the alias of the byte 2 GB on. */
  lemma TopAlias(a: Word)
    requires FlushFrames.Top(a)
    ensures Alias(true, FlushFrames.Down(a)) == a && Small(FlushFrames.Down(a))
    ensures var p := Ppn(FlushFrames.Down(a)); Small(p) && p & 0xFFF == 0
  {
  }

  lemma ByteBack(a: Word)
    ensures FlushFrames.Byte(Page(Ppn(FlushFrames.Down(a))), a) == a + 0x8000_0000
  {
  }

  lemma PageStarts(pg: Page)
    requires Mapped(pg)
    ensures Small(pg.pa) && pg.pa & 0xFFF == 0
  {
    MappedSmall(pg);
    PpnStarts(pg.pa);
    hide *;
  }

  lemma PpnStarts(p: Word)
    ensures Ppn(p) & 0xFFF == 0
  {
  }

  /** The page a kernel address has in the boot map is the one 2 GB on. */
  lemma BootPage(mem: Mem, root: Page, a: Word)
    requires BootMapped(mem, root) && FlushFrames.Top(a) && Walk(mem, root, VpnOf(a)) != Fault
    ensures Mapped(Page(Ppn(FlushFrames.Down(a)))) && VpnOf(a) == VpnOf(Kaddr(Ppn(FlushFrames.Down(a))))
  {
    var q := FlushFrames.Down(a);
    var high, pg := BootSource(mem, root, VpnOf(a));
    hide *;
    TopAlias(a);
    AliasPage(true, q);
    SameVpn(Alias(true, q), Alias(true, Ppn(q)));
    PageStarts(pg);
    PageApart(high, pg.pa, true, Ppn(q));
    AliasIsKaddr(Ppn(q));
  }

  /** After any run from boot a kernel address that translates at all translates to the byte 2 GB on. */
  lemma BootOffset(b: Boot, pids: set<Pid>, es: seq<Event>, a: Word)
    requires FreshStore(b) && FlushFrames.Top(a)
    ensures |b.store| > 0 && ApplyAll(b, BootstrapOps()).store[0] in ApplyAll(b, BootstrapOps()).mem
    ensures CanRun(Start(b, pids), es) ==>
      var s := Run(Start(b, pids), es);
      Walk(s.mem, s.kroot, VpnOf(a)).Maps? ==> FlushFrames.OffsetAt(s.mem, s.kroot, a)
  {
    hide *;
    FreshParts(b);
    StartDefined(b, pids);
    BootedInv(b, pids);
    StartIs(b, pids);
    BootMapIs(b);
    var c, s0, v := ApplyAll(b, BootstrapOps()), Start(b, pids), VpnOf(a);
    HighUser(a);
    if CanRun(s0, es) && Walk(Run(s0, es).mem, Run(s0, es).kroot, v).Maps? {
      var s := Run(s0, es);
      KernelWalkAfter(s0, es, v);
      ClearedMaps(Walk(s0.mem, s0.kroot, v));
      BootPage(c.mem, c.store[0], a);
      var pg := Page(Ppn(FlushFrames.Down(a)));
      KaddrHolds(b, pids, es, pg, s.kroot);
      ClearedMaps(Maps(pg, MemoryType(pg)));
      ByteBack(a);
      OffsetAtIf(s.mem, s.kroot, a, pg);
    }
  }

  lemma ClearedMaps(x: Xlat)
    ensures ClearCX(x).Maps? == x.Maps? && (x.Maps? ==> ClearCX(x).frame == x.frame)
  {
  }

  lemma OffsetAtIf(mem: Mem, root: Page, a: Word, pg: Page)
    requires Walk(mem, root, VpnOf(a)).Maps? && Walk(mem, root, VpnOf(a)).frame == pg
    requires FlushFrames.Byte(pg, a) == a + 0x8000_0000
    ensures FlushFrames.OffsetAt(mem, root, a)
  {
    hide Walk, VpnOf;
  }

  /**
   Whatever has run since boot, if every byte of a kernel range in one 2 MB block translates, the lines mmuuncache
   flushes for it are exactly the lines of the bytes the boot root's walk gives, each once.
   */
  lemma FlushIsFrames(b: Boot, pids: set<Pid>, es: seq<Event>, va: Word, size: Word)
    requires FreshStore(b) && OneBlock(va, size) && size >> 32 == 0 && va >> 31 == 0x1_FFFF_FFFF
    ensures |b.store| > 0 && ApplyAll(b, BootstrapOps()).store[0] in ApplyAll(b, BootstrapOps()).mem
    ensures CanRun(Start(b, pids), es) ==>
      var s := Run(Start(b, pids), es);
      (forall a: Word :: FlushFrames.Within(a, va, size) ==> Walk(s.mem, s.kroot, VpnOf(a)).Maps?) ==>
        && FlushFrames.Offset(s.mem, s.kroot, va, size)
        && var lines := CacheLines.Flushed(CacheLines.Paddr(Num(va)), Num(size));
           && Distinct(lines)
           && forall line :: line in lines <==> FlushFrames.FrameLine(s.mem, s.kroot, va, size, line)
  {
    hide *;
    FlushFrames.IsTop(va);
    StartDefined(b, pids);
    var s0 := Start(b, pids);
    if CanRun(s0, es) {
      var s := Run(s0, es);
      if forall a: Word :: FlushFrames.Within(a, va, size) ==> Walk(s.mem, s.kroot, VpnOf(a)).Maps? {
        RangeOffset(b, pids, es, va, size);
        FlushFrames.LinesAreFrames(s.mem, s.kroot, va, size);
      }
    }
  }

  lemma RangeOffset(b: Boot, pids: set<Pid>, es: seq<Event>, va: Word, size: Word)
    requires FreshStore(b) && FlushFrames.Top(va)
    requires |b.store| > 0 && ApplyAll(b, BootstrapOps()).store[0] in ApplyAll(b, BootstrapOps()).mem
    requires CanRun(Start(b, pids), es)
    requires var s := Run(Start(b, pids), es);
      forall a: Word :: FlushFrames.Within(a, va, size) ==> Walk(s.mem, s.kroot, VpnOf(a)).Maps?
    ensures var s := Run(Start(b, pids), es); FlushFrames.Offset(s.mem, s.kroot, va, size)
  {
    hide *;
    var s := Run(Start(b, pids), es);
    forall a: Word | FlushFrames.Within(a, va, size) ensures FlushFrames.OffsetAt(s.mem, s.kroot, a) {
      FlushFrames.WithinMeans(a, va, size);
      FlushFrames.TopNum(va);
      FlushFrames.TopNum(a);
      BootOffset(b, pids, es, a);
    }
    FlushFrames.OffsetIf(s.mem, s.kroot, va, size);
  }
}
