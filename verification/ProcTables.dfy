/** One process's page tables: mmu.c's mmuwalk, mmufree and the leaf store of putmmu, as functions of memory. */
module ProcTables {
  import opened Sv39
  import opened Lists
  import opened UserTree

  /** struct PMMU and newtlb; tab records where each page of `used` hangs. */
  datatype Pmmu = Pmmu(satp: Option<Page>, root: Option<Page>, used: seq<Page>, free: seq<Page>, newtlb: bool,
    tab: Tables)

  const NO_TABLES := Pmmu(None, None, [], [], false, map[])

  function Owned(p: Pmmu): set<Page> {
    Elems(p.used) + Elems(p.free) + (if p.root.Some? then {p.root.value} else {})
  }

  ghost predicate ListsOk(mem: Mem, p: Pmmu) {
    && Distinct(p.used) && Distinct(p.free)
    && Elems(p.used) !! Elems(p.free)
    && Owned(p) <= mem.Keys
  }

  ghost predicate ProcOk(mem: Mem, p: Pmmu) {
    && ListsOk(mem, p)
    && p.satp == p.root
    && match p.root
       case None => p.used == [] && p.tab == map[]
       case Some(r) =>
         && r !in Elems(p.used) && r !in Elems(p.free)
         && Tree(mem, r, p.tab) && p.tab.Values == Elems(p.used)
  }

  // ----- mmuwalk -----

  /** The VPN field used at a level, and the slot it selects in a table of that level. */
  function Field(v: Vpn, i: nat): Index {
    if i == 2 then v.x2 else if i == 1 then v.x1 else v.x0
  }

  function SlotAt(v: Vpn, i: nat): Slot {
    if i == 2 then Top(v.x2) else Mid(v.x2, v.x1)
  }

  datatype Walked = Walked(mem: Mem, p: Pmmu, table: Option<Page>)

  /** Move the head of the free list to the used list, recording its slot. */
  function Take(p: Pmmu, s: Slot): Pmmu
    requires p.free != []
  {
    p.(used := [p.free[0]] + p.used, free := p.free[1..], tab := p.tab[s := p.free[0]])
  }

  function Hang(mem: Mem, parent: Page, x: Index, pg: Page): Mem
    requires parent in mem
  {
    Store(mem[pg := ZeroTable()], parent, x, Next(pg))
  }

  /** The level-0 table for v, or None when the free list runs out on the way. */
  function Descend(mem: Mem, p: Pmmu, table: Page, v: Vpn, i: nat): Walked
    requires i <= 2
    decreases i
  {
    if i == 0 then Walked(mem, p, Some(table))
    else
      match Entry(mem, table, Field(v, i))
      case Next(t) => Descend(mem, p, t, v, i - 1)
      case _ =>
        if p.free == [] || table !in mem then Walked(mem, p, None)
        else Descend(Hang(mem, table, Field(v, i), p.free[0]), Take(p, SlotAt(v, i)), p.free[0], v, i - 1)
  }

  /** One turn of the loop: follow the link, hang a page, or give up. */
  lemma DescendTurn(mem: Mem, p: Pmmu, t: Page, v: Vpn, i: nat)
    requires 1 <= i <= 2 && t in mem
    ensures var e := Entry(mem, t, Field(v, i));
      && (e.Next? ==> Descend(mem, p, t, v, i) == Descend(mem, p, e.table, v, i - 1))
      && (!e.Next? && p.free == [] ==> Descend(mem, p, t, v, i) == Walked(mem, p, None))
      && (!e.Next? && p.free != [] ==>
            Descend(mem, p, t, v, i) ==
            Descend(Hang(mem, t, Field(v, i), p.free[0]), Take(p, SlotAt(v, i)), p.free[0], v, i - 1))
  {
  }

  lemma DescendHere(mem: Mem, p: Pmmu, t: Page, v: Vpn)
    ensures Descend(mem, p, t, v, 0) == Walked(mem, p, Some(t))
  {
  }

  function MmuWalk(mem: Mem, p: Pmmu, v: Vpn): Walked
    requires p.root.Some?
  {
    Descend(mem, p, p.root.value, v, 2)
  }

  /** Table levels that v's path still lacks. */
  function Missing(tab: Tables, v: Vpn): nat {
    if Mid(v.x2, v.x1) in tab then 0 else if Top(v.x2) in tab then 1 else 2
  }

  ghost predicate OnPath(p: Pmmu, table: Page, v: Vpn, i: nat) {
    if i == 2 then p.root == Some(table)
    else if i == 1 then Top(v.x2) in p.tab && p.tab[Top(v.x2)] == table
    else Mid(v.x2, v.x1) in p.tab && p.tab[Mid(v.x2, v.x1)] == table
  }

  /** Everything a walk keeps. */
  ghost predicate WalkKeeps(mem: Mem, p: Pmmu, mem': Mem, p': Pmmu) {
    && ProcOk(mem', p')
    && Owned(p') == Owned(p) && mem'.Keys == mem.Keys
    && p'.root == p.root && p'.newtlb == p.newtlb
    && (forall pg :: pg in mem && pg !in Owned(p) ==> mem'[pg] == mem[pg])
    && (p.root.Some? ==> forall x: Index :: x >= 256 ==> Entry(mem', p.root.value, x) == Entry(mem, p.root.value, x))
    && (forall u: Vpn :: LeafEntry(mem', p'.tab, u) == LeafEntry(mem, p.tab, u))
  }

  lemma TakeLists(mem: Mem, p: Pmmu, s: Slot)
    requires ListsOk(mem, p) && p.free != [] && s !in p.tab
    requires p.tab.Values == Elems(p.used)
    ensures ListsOk(mem, Take(p, s)) && Owned(Take(p, s)) == Owned(p)
    ensures Take(p, s).tab.Values == Elems(Take(p, s).used)
    ensures p.free[0] !in Elems(p.used)
    ensures p.root.Some? && p.root.value !in Elems(p.used) + Elems(p.free) ==>
              p.root.value !in Elems(Take(p, s).used) + Elems(Take(p, s).free)
  {
    var pg := p.free[0];
    var p' := Take(p, s);
    assert p.free == [pg] + p.free[1..];
    assert Elems(p.free) == {pg} + Elems(p.free[1..]);
    assert Elems(p'.used) == {pg} + Elems(p.used);
    forall q | q in p.tab.Values + {pg} ensures q in p'.tab.Values {
      if q == pg { assert p'.tab[s] == pg; }
      else { var k :| k in p.tab && p.tab[k] == q; assert p'.tab[k] == q; }
    }
    assert p'.tab.Values == p.tab.Values + {pg};
  }

  lemma HangMem(mem: Mem, parent: Page, x: Index, pg: Page)
    requires parent in mem && pg in mem && parent != pg
    ensures Linked(mem, Hang(mem, parent, x, pg), parent, x, pg)
    ensures forall q :: q in mem && q != parent && q != pg ==> Hang(mem, parent, x, pg)[q] == mem[q]
  {
  }

  lemma HangKeeps(mem: Mem, p: Pmmu, table: Page, v: Vpn, i: nat)
    requires ProcOk(mem, p) && p.root.Some? && v.User() && 1 <= i <= 2
    requires OnPath(p, table, v, i) && SlotAt(v, i) !in p.tab && p.free != []
    ensures WalkKeeps(mem, p, Hang(mem, table, Field(v, i), p.free[0]), Take(p, SlotAt(v, i)))
    ensures OnPath(Take(p, SlotAt(v, i)), p.free[0], v, i - 1)
    ensures Missing(Take(p, SlotAt(v, i)).tab, v) == Missing(p.tab, v) - 1
  {
    var pg := p.free[0];
    var mem' := Hang(mem, table, Field(v, i), pg);
    TakeLists(mem, p, SlotAt(v, i));
    assert pg in Elems(p.free);
    forall s | s in p.tab ensures p.tab[s] != pg { assert p.tab[s] in p.tab.Values; }
    assert table in Owned(p) by { if i == 1 { assert p.tab[Top(v.x2)] in p.tab.Values; } }
    HangMem(mem, table, Field(v, i), pg);
    if i == 2 {
      LinkTop(mem, p.root.value, p.tab, pg, v.x2, mem');
    } else {
      LinkMid(mem, p.root.value, p.tab, pg, v.x2, v.x1, mem');
    }
  }

  lemma {:induction false} DescendKeeps(mem: Mem, p: Pmmu, table: Page, v: Vpn, i: nat)
    requires ProcOk(mem, p) && p.root.Some? && v.User() && i <= 2 && OnPath(p, table, v, i)
    requires i == 1 ==> Top(v.x2) in p.tab
    ensures var w := Descend(mem, p, table, v, i);
      && WalkKeeps(mem, p, w.mem, w.p)
      && (w.table.None? ==> w.p.free == [] && Missing(w.p.tab, v) > 0)
      && (w.table.Some? ==> OnPath(w.p, w.table.value, v, 0))
      && Missing(w.p.tab, v) - |w.p.free| == Missing(p.tab, v) - |p.free|
    decreases i
  {
    if i > 0 {
      var s := SlotAt(v, i);
      if s in p.tab {
        assert Entry(mem, table, Field(v, i)) == Link(p.tab, s);
        DescendKeeps(mem, p, p.tab[s], v, i - 1);
      } else if p.free != [] {
        HangKeeps(mem, p, table, v, i);
        var mem1 := Hang(mem, table, Field(v, i), p.free[0]);
        DescendKeeps(mem1, Take(p, s), p.free[0], v, i - 1);
      }
    }
  }

  // ----- the leaf store of putmmu -----

  /** What putmmu is asked for: a frame and fault.c's flags. */
  datatype Mapping = Mapping(frame: Page, write: bool, exec: bool, ordered: bool)

  /** R, U, A and D always; C and SH unless the page is uncached or a device. */
  function UserAttr(m: Mapping): Attr {
    Attr(true, m.write, m.exec, true, false, true, true, m.ordered, !m.ordered, false, !m.ordered, 0)
  }

  lemma PutKeeps(mem: Mem, p: Pmmu, v: Vpn, m: Mapping)
    requires ProcOk(mem, p) && p.root.Some? && Mid(v.x2, v.x1) in p.tab
    ensures var t0 := p.tab[Mid(v.x2, v.x1)];
      var mem' := Store(mem, t0, v.x0, Leaf(m.frame, UserAttr(m)));
      && t0 in Elems(p.used)
      && ProcOk(mem', p)
      && (forall x: Index :: Entry(mem', p.root.value, x) == Entry(mem, p.root.value, x))
      && (forall u: Vpn :: LeafEntry(mem', p.tab, u) ==
            if u == v then Leaf(m.frame, UserAttr(m)) else LeafEntry(mem, p.tab, u))
  {
    var t0 := p.tab[Mid(v.x2, v.x1)];
    assert t0 in p.tab.Values;
    var mem' := Store(mem, t0, v.x0, Leaf(m.frame, UserAttr(m)));
    assert Wrote(mem, mem', t0, v.x0, Leaf(m.frame, UserAttr(m)));
    SetLeaf(mem, p.root.value, p.tab, v, Leaf(m.frame, UserAttr(m)), mem');
  }

  // ----- mmufree -----

  function ClearUser(t: Table): Table {
    seq(512, i requires 0 <= i < 512 => if i < 256 then Empty else t[i])
  }

  function FreedMem(mem: Mem, p: Pmmu): Mem {
    if p.root.Some? && p.root.value in mem then mem[p.root.value := ClearUser(mem[p.root.value])] else mem
  }

  function FreedProc(p: Pmmu): Pmmu {
    p.(used := [], free := Reversed(p.used) + p.free, tab := map[])
  }

  lemma FreeKeeps(mem: Mem, p: Pmmu)
    requires ProcOk(mem, p)
    ensures ProcOk(FreedMem(mem, p), FreedProc(p)) && Owned(FreedProc(p)) == Owned(p)
    ensures |FreedProc(p).free| == |p.used| + |p.free|
    ensures forall q :: q in mem && p.root != Some(q) ==> FreedMem(mem, p)[q] == mem[q]
    ensures p.root.Some? ==> forall x: Index ::
              Entry(FreedMem(mem, p), p.root.value, x) == if x < 256 then Empty else Entry(mem, p.root.value, x)
  {
    FreeLists(p);
    FreeRoot(mem, p);
    if p.root.Some? { EmptyTree(FreedMem(mem, p), p.root.value); }
    hide FreedMem, Tree, Reversed, Distinct;
  }

  lemma FreeLists(p: Pmmu)
    requires Distinct(p.used) && Distinct(p.free) && Elems(p.used) !! Elems(p.free)
    ensures var f := FreedProc(p).free;
      Distinct(f) && Elems(f) == Elems(p.used) + Elems(p.free) && |f| == |p.used| + |p.free|
    ensures Elems(FreedProc(p).used) == {}
  {
    ReversedElems(p.used);
    hide Reversed;
    var free := Reversed(p.used) + p.free;
    assert Elems(free) == Elems(p.used) + Elems(p.free);
    forall i, j | 0 <= i < j < |free| ensures free[i] != free[j] {
      if i < |p.used| <= j {
        assert free[i] in Elems(Reversed(p.used)) && free[j] in Elems(p.free);
      }
    }
  }

  lemma FreeRoot(mem: Mem, p: Pmmu)
    requires p.root.Some? ==> p.root.value in mem
    ensures FreedMem(mem, p).Keys == mem.Keys
    ensures forall q :: q in mem && p.root != Some(q) ==> FreedMem(mem, p)[q] == mem[q]
    ensures p.root.Some? ==> forall x: Index ::
              Entry(FreedMem(mem, p), p.root.value, x) == if x < 256 then Empty else Entry(mem, p.root.value, x)
  {
  }

  lemma EmptyTree(mem: Mem, root: Page)
    requires root in mem && forall x: Index :: x < 256 ==> Entry(mem, root, x) == Empty
    ensures Tree(mem, root, map[])
  {
  }

  /** Recycling never leaves a walk needing more pages than before. */
  lemma FreeMissing(mem: Mem, p: Pmmu, v: Vpn)
    requires ProcOk(mem, p) && p.root.Some?
    ensures Missing(FreedProc(p).tab, v) - |FreedProc(p).free| <= Missing(p.tab, v) - |p.free|
  {
    FreeKeeps(mem, p);
    if Mid(v.x2, v.x1) in p.tab {
      var a, b := p.tab[Top(v.x2)], p.tab[Mid(v.x2, v.x1)];
      assert a in p.tab.Values && b in p.tab.Values && a != b;
      var i :| 0 <= i < |p.used| && p.used[i] == a;
      var j :| 0 <= j < |p.used| && p.used[j] == b;
    } else if Top(v.x2) in p.tab {
      assert p.tab[Top(v.x2)] in p.tab.Values;
    }
  }

  // ----- mmurootalloc -----

  function RootMem(mem: Mem, kroot: Page, pg: Page): Mem
    requires kroot in mem
  {
    mem[pg := seq(512, i requires 0 <= i < 512 => if i < 256 then Empty else mem[kroot][i])]
  }

  function RootProc(p: Pmmu, pg: Page): Pmmu {
    p.(root := Some(pg), satp := Some(pg))
  }

  lemma RootKeeps(mem: Mem, p: Pmmu, kroot: Page, pg: Page)
    requires ProcOk(mem, p) && p.root.None? && kroot in mem && pg in mem && pg !in Owned(p) && pg != kroot
    ensures var mem' := RootMem(mem, kroot, pg);
      && ProcOk(mem', RootProc(p, pg)) && Owned(RootProc(p, pg)) == Owned(p) + {pg}
      && (forall x: Index :: Entry(mem', pg, x) == if x < 256 then Empty else Entry(mem, kroot, x))
  {
  }

  // ----- putmmu's refill, and the pager's mark -----

  function Push(p: Pmmu, pg: Page): Pmmu { p.(free := [pg] + p.free) }

  lemma PushKeeps(mem: Mem, p: Pmmu, pg: Page)
    requires ProcOk(mem, p) && pg in mem && pg !in Owned(p)
    ensures ProcOk(mem, Push(p, pg)) && Owned(Push(p, pg)) == Owned(p) + {pg}
  {
    assert Elems([pg] + p.free) == {pg} + Elems(p.free);
  }

  lemma MarkKeeps(mem: Mem, p: Pmmu, newtlb: bool)
    requires ProcOk(mem, p)
    ensures ProcOk(mem, p.(newtlb := newtlb)) && Owned(p.(newtlb := newtlb)) == Owned(p)
  {
  }

  // ----- pages a process does not own do not matter to it -----

  lemma ProcFrame(mem: Mem, mem': Mem, p: Pmmu)
    requires ProcOk(mem, p)
    requires forall q :: q in Owned(p) ==> q in mem' && mem'[q] == mem[q]
    ensures ProcOk(mem', p)
    ensures forall u: Vpn :: LeafEntry(mem', p.tab, u) == LeafEntry(mem, p.tab, u)
  {
    assert Owned(p) <= mem'.Keys;
    forall s | s in p.tab ensures p.tab[s] in Owned(p) { assert p.tab[s] in p.tab.Values; }
    if p.root.Some? {
      TreeFrame(mem, mem', p.root.value, p.tab);
    }
  }
}
