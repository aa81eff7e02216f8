/** The boot-time table builder of mmu.c as a function of the leaves it is asked to place. */
module BootTables {
  import opened Sv39
  import opened Lists
  import opened UserTree
  import opened KernelTree

  /** One call of mapleaf, or one turn of mapblock's loop. */
  datatype Op = PageAt(v: Vpn, leaf: Pte) | BlockAt(v: Vpn, leaf: Pte)

  /** The root, the pages of tablestore in order, how many newtable has handed out, and where they hang. */
  datatype Boot = Boot(mem: Mem, store: seq<Page>, ntable: nat, tab: Tables) {
    function Root(): Page
      requires |store| > 0
    {
      store[0]
    }
  }

  /** newtable, and the pointer entry that uses it, unless the slot is taken. */
  function Ensure(b: Boot, s: Slot, parent: Page, x: Index): Boot {
    if s in b.tab || b.ntable >= |b.store| || parent !in b.mem then b
    else b.(mem := Store(b.mem, parent, x, Next(b.store[b.ntable])), ntable := b.ntable + 1,
      tab := b.tab[s := b.store[b.ntable]])
  }

  function EnsureTop(b: Boot, v: Vpn): Boot
    requires |b.store| > 0
  {
    Ensure(b, Top(v.x2), b.Root(), v.x2)
  }

  function EnsureMid(b: Boot, v: Vpn): Boot {
    if Top(v.x2) in b.tab then Ensure(b, Mid(v.x2, v.x1), b.tab[Top(v.x2)], v.x1) else b
  }

  function SetAt(b: Boot, s: Slot, x: Index, e: Pte): Boot {
    if s in b.tab && b.tab[s] in b.mem then b.(mem := Store(b.mem, b.tab[s], x, e)) else b
  }

  function Apply(b: Boot, op: Op): Boot
    requires |b.store| > 0
  {
    match op
    case PageAt(v, leaf) => SetAt(EnsureMid(EnsureTop(b, v), v), Mid(v.x2, v.x1), v.x0, leaf)
    case BlockAt(v, leaf) => SetAt(EnsureTop(b, v), Top(v.x2), v.x1, leaf)
  }

  // ----- what is true between calls -----

  ghost predicate BootOk(b: Boot) {
    PoolOk(b) && BTree(b.mem, b.store[0], b.tab) && b.ntable == 1 + |b.tab|
  }

  /** The pages in use are the first ntable of tablestore, each once; the rest are still zero. */
  ghost predicate PoolOk(b: Boot) {
    && 1 <= b.ntable <= |b.store| && Distinct(b.store)
    && (forall i :: 0 <= i < |b.store| ==> b.store[i] in b.mem)
    && (forall s :: s in b.tab ==> InUse(b, b.tab[s]))
    && (forall i, x: Index :: b.ntable <= i < |b.store| ==> Entry(b.mem, b.store[i], x) == Empty)
  }

  ghost predicate InUse(b: Boot, pg: Page) {
    exists i :: 0 <= i < b.ntable && i < |b.store| && b.store[i] == pg
  }

  /** A block leaf is aligned, and never lands where page tables hang, nor the other way. */
  ghost predicate OpOk(b: Boot, op: Op) {
    && op.leaf.Leaf?
    && (op.BlockAt? ==> Aligned(op.leaf.frame, 1) && Mid(op.v.x2, op.v.x1) !in b.tab)
    && (op.PageAt? ==> Deciding(b.mem, b.tab, Vpn(op.v.x2, op.v.x1, 0)).Empty? || Mid(op.v.x2, op.v.x1) in b.tab)
  }

  /** Table pages an op still needs. */
  function Needs(b: Boot, op: Op): nat {
    (if Top(op.v.x2) in b.tab then 0 else 1) + (if op.PageAt? && Mid(op.v.x2, op.v.x1) !in b.tab then 1 else 0)
  }

  predicate Covers(op: Op, v: Vpn) {
    op.v.x2 == v.x2 && op.v.x1 == v.x1 && (op.PageAt? ==> op.v.x0 == v.x0)
  }

  /** What an op maps a page it covers to. */
  function LeafFor(op: Op, v: Vpn): Pte
    requires op.leaf.Leaf?
  {
    if op.PageAt? then op.leaf else Leaf(InBlock(op.leaf.frame, v.x0), op.leaf.attr)
  }

  // ----- each primitive -----

  ghost predicate Hung(mem: Mem, mem': Mem, parent: Page, x: Index, pg: Page) {
    && mem'.Keys == mem.Keys
    && forall p, y: Index :: Entry(mem', p, y) == if p == parent && y == x then Next(pg) else Entry(mem, p, y)
  }

  lemma HangTop(mem: Mem, root: Page, tab: Tables, pg: Page, x2: Index, mem': Mem)
    requires BTree(mem, root, tab) && Top(x2) !in tab
    requires pg in mem && pg != root && (forall s :: s in tab ==> tab[s] != pg)
    requires forall x: Index :: Entry(mem, pg, x) == Empty
    requires Hung(mem, mem', root, x2, pg)
    ensures BTree(mem', root, tab[Top(x2) := pg])
    ensures forall u: Vpn :: Deciding(mem', tab[Top(x2) := pg], u) == Deciding(mem, tab, u)
  {
    hide InBlock, Aligned;
  }

  lemma HangMid(mem: Mem, root: Page, tab: Tables, pg: Page, x2: Index, x1: Index, mem': Mem)
    requires BTree(mem, root, tab) && Top(x2) in tab && Mid(x2, x1) !in tab
    requires Entry(mem, tab[Top(x2)], x1).Empty?
    requires pg in mem && pg != root && (forall s :: s in tab ==> tab[s] != pg)
    requires forall x: Index :: Entry(mem, pg, x) == Empty
    requires Hung(mem, mem', tab[Top(x2)], x1, pg)
    ensures BTree(mem', root, tab[Mid(x2, x1) := pg])
    ensures forall u: Vpn :: Deciding(mem', tab[Mid(x2, x1) := pg], u) == Deciding(mem, tab, u)
  {
    hide InBlock, Aligned;
  }

  /** What newtable hands out is no table yet. */
  lemma NextIsNew(b: Boot)
    requires PoolOk(b) && b.ntable < |b.store|
    ensures var pg := b.store[b.ntable];
      pg in b.mem && pg != b.store[0] && !InUse(b, pg) && (forall s :: s in b.tab ==> b.tab[s] != pg)
      && forall x: Index :: Entry(b.mem, pg, x) == Empty
  {
  }

  lemma EnsurePool(b: Boot, s: Slot, parent: Page, x: Index)
    requires PoolOk(b) && b.ntable < |b.store| && s !in b.tab && InUse(b, parent) && parent in b.mem
    ensures PoolOk(Ensure(b, s, parent, x))
    ensures Hung(b.mem, Ensure(b, s, parent, x).mem, parent, x, b.store[b.ntable])
  {
    var c := Ensure(b, s, parent, x);
    forall k | k in c.tab ensures InUse(c, c.tab[k]) {
      if k == s {
        assert c.store[b.ntable] == c.tab[k];
      } else {
        var i :| 0 <= i < b.ntable && b.store[i] == b.tab[k];
        assert c.store[i] == c.tab[k];
      }
    }
    var j :| 0 <= j < b.ntable && b.store[j] == parent;
    assert forall q, y: Index :: q != parent ==> Entry(c.mem, q, y) == Entry(b.mem, q, y);
  }

  lemma EnsureKeeps(b: Boot, s: Slot, parent: Page, x: Index)
    requires BootOk(b) && b.ntable < |b.store| && s !in b.tab
    requires s.Top? ==> parent == b.store[0] && x == s.x2
    requires s.Mid? ==> Top(s.x2) in b.tab && parent == b.tab[Top(s.x2)] && x == s.x1 && Entry(b.mem, parent, x).Empty?
    ensures var c := Ensure(b, s, parent, x);
      && BootOk(c) && c.tab == b.tab[s := b.store[b.ntable]] && c.store == b.store && c.ntable == b.ntable + 1
      && forall u: Vpn :: Deciding(c.mem, c.tab, u) == Deciding(b.mem, b.tab, u)
  {
    var pg := b.store[b.ntable];
    var c := Ensure(b, s, parent, x);
    assert InUse(b, parent) by { if s.Top? { assert b.store[0] == parent; } }
    assert parent in b.mem;
    assert |c.tab| == |b.tab| + 1 by { assert c.tab.Keys == b.tab.Keys + {s}; }
    NextIsNew(b);
    EnsurePool(b, s, parent, x);
    hide PoolOk, InUse, Hung;
    if s.Top? {
      HangTop(b.mem, b.store[0], b.tab, pg, s.x2, c.mem);
    } else {
      HangMid(b.mem, b.store[0], b.tab, pg, s.x2, s.x1, c.mem);
    }
  }

  // ----- leaves -----

  lemma PutPage(mem: Mem, root: Page, tab: Tables, v: Vpn, e: Pte)
    requires BTree(mem, root, tab) && Mid(v.x2, v.x1) in tab && e.Leaf?
    ensures var mem' := Store(mem, tab[Mid(v.x2, v.x1)], v.x0, e);
      && BTree(mem', root, tab)
      && forall u: Vpn :: Deciding(mem', tab, u) == if u == v then e else Deciding(mem, tab, u)
  {
    hide InBlock, Aligned;
    var t := tab[Mid(v.x2, v.x1)];
    var mem' := Store(mem, t, v.x0, e);
    assert forall p, y: Index :: Entry(mem', p, y) == if p == t && y == v.x0 then e else Entry(mem, p, y);
  }

  lemma PutBlock(mem: Mem, root: Page, tab: Tables, v: Vpn, e: Pte)
    requires BTree(mem, root, tab) && Top(v.x2) in tab && Mid(v.x2, v.x1) !in tab && e.Leaf? && Aligned(e.frame, 1)
    ensures var mem' := Store(mem, tab[Top(v.x2)], v.x1, e);
      && BTree(mem', root, tab)
      && forall u: Vpn :: Deciding(mem', tab, u) ==
           if u.x2 == v.x2 && u.x1 == v.x1 then Leaf(InBlock(e.frame, u.x0), e.attr) else Deciding(mem, tab, u)
  {
    hide InBlock, Aligned;
    var t := tab[Top(v.x2)];
    var mem' := Store(mem, t, v.x1, e);
    assert forall p, y: Index :: Entry(mem', p, y) == if p == t && y == v.x1 then e else Entry(mem, p, y);
  }

  lemma SetPool(b: Boot, s: Slot, x: Index, e: Pte)
    requires PoolOk(b)
    ensures PoolOk(SetAt(b, s, x, e))
  {
    var c := SetAt(b, s, x, e);
    if s in b.tab {
      var t := b.tab[s];
      assert InUse(b, t);
      assert forall q, y: Index :: q != t ==> Entry(c.mem, q, y) == Entry(b.mem, q, y);
      forall k | k in c.tab ensures InUse(c, c.tab[k]) {
        var i :| 0 <= i < b.ntable && b.store[i] == b.tab[k];
        assert c.store[i] == c.tab[k];
      }
    }
  }

  // ----- one call -----

  lemma EnsureTopKeeps(b: Boot, v: Vpn)
    requires BootOk(b) && (Top(v.x2) in b.tab || b.ntable < |b.store|)
    ensures var c := EnsureTop(b, v);
      && BootOk(c) && c.store == b.store && c.tab.Keys == b.tab.Keys + {Top(v.x2)}
      && c.ntable == b.ntable + (if Top(v.x2) in b.tab then 0 else 1)
      && forall u: Vpn :: Deciding(c.mem, c.tab, u) == Deciding(b.mem, b.tab, u)
  {
    hide *;
    StoreNonempty(b);
    TopHangs(b, v);
    if Top(v.x2) !in b.tab {
      EnsureKeeps(b, Top(v.x2), b.store[0], v.x2);
    } else {
      EnsureHere(b, Top(v.x2), b.store[0], v.x2);
    }
  }

  lemma StoreNonempty(b: Boot)
    requires BootOk(b)
    ensures |b.store| > 0
  {
  }

  lemma TopHangs(b: Boot, v: Vpn)
    requires |b.store| > 0
    ensures EnsureTop(b, v) == Ensure(b, Top(v.x2), b.store[0], v.x2)
  {
  }

  lemma EnsureHere(b: Boot, s: Slot, t: Page, x: Index)
    requires s in b.tab
    ensures Ensure(b, s, t, x) == b
  {
  }

  lemma MidUnlinked(b: Boot, v: Vpn)
    requires BootOk(b) && Top(v.x2) in b.tab && Mid(v.x2, v.x1) !in b.tab
    requires Deciding(b.mem, b.tab, Vpn(v.x2, v.x1, 0)).Empty?
    ensures Entry(b.mem, b.tab[Top(v.x2)], v.x1).Empty?
  {
    hide PoolOk, InBlock, Aligned;
  }

  lemma EnsureMidIs(b: Boot, v: Vpn)
    requires Top(v.x2) in b.tab
    ensures EnsureMid(b, v) == Ensure(b, Mid(v.x2, v.x1), b.tab[Top(v.x2)], v.x1)
  {
  }

  lemma EnsureMidKeeps(b: Boot, v: Vpn)
    requires BootOk(b) && Top(v.x2) in b.tab && (Mid(v.x2, v.x1) in b.tab || b.ntable < |b.store|)
    requires Mid(v.x2, v.x1) in b.tab || Deciding(b.mem, b.tab, Vpn(v.x2, v.x1, 0)).Empty?
    ensures var c := EnsureMid(b, v);
      && BootOk(c) && c.store == b.store && c.tab.Keys == b.tab.Keys + {Mid(v.x2, v.x1)}
      && c.ntable == b.ntable + (if Mid(v.x2, v.x1) in b.tab then 0 else 1)
      && forall u: Vpn :: Deciding(c.mem, c.tab, u) == Deciding(b.mem, b.tab, u)
  {
    hide *;
    EnsureMidIs(b, v);
    if Mid(v.x2, v.x1) !in b.tab {
      MidUnlinked(b, v);
      EnsureKeeps(b, Mid(v.x2, v.x1), b.tab[Top(v.x2)], v.x1);
    } else {
      EnsureHere(b, Mid(v.x2, v.x1), b.tab[Top(v.x2)], v.x1);
    }
  }

  lemma SetAtIs(b: Boot, s: Slot, x: Index, e: Pte)
    requires s in b.tab && b.tab[s] in b.mem
    ensures var c := SetAt(b, s, x, e);
      c.mem == Store(b.mem, b.tab[s], x, e) && c.store == b.store && c.ntable == b.ntable && c.tab == b.tab
  {
  }

  lemma NeedsIs(b: Boot, op: Op)
    ensures Needs(b, op) == (if Top(op.v.x2) in b.tab then 0 else 1)
      + (if op.PageAt? && Mid(op.v.x2, op.v.x1) !in b.tab then 1 else 0)
  {
  }

  lemma OpParts(b: Boot, op: Op)
    requires OpOk(b, op)
    ensures op.leaf.Leaf? && (op.BlockAt? ==> Aligned(op.leaf.frame, 1) && Mid(op.v.x2, op.v.x1) !in b.tab)
    ensures op.PageAt? ==> Deciding(b.mem, b.tab, Vpn(op.v.x2, op.v.x1, 0)).Empty? || Mid(op.v.x2, op.v.x1) in b.tab
  {
  }

  lemma CoversIs(op: Op, u: Vpn)
    requires op.leaf.Leaf?
    ensures op.PageAt? ==> (Covers(op, u) <==> u == op.v) && LeafFor(op, u) == op.leaf
    ensures op.BlockAt? ==>
      (Covers(op, u) <==> u.x2 == op.v.x2 && u.x1 == op.v.x1)
          && LeafFor(op, u) == Leaf(InBlock(op.leaf.frame, u.x0), op.leaf.attr)
  {
  }

  lemma BootOkParts(b: Boot)
    requires BootOk(b)
    ensures |b.store| > 0 && PoolOk(b) && BTree(b.mem, b.store[0], b.tab) && b.ntable == 1 + |b.tab|
    ensures forall s :: s in b.tab ==> b.tab[s] in b.mem
  {
  }

  lemma BootOkIf(b: Boot)
    requires |b.store| > 0 && PoolOk(b) && BTree(b.mem, b.store[0], b.tab) && b.ntable == 1 + |b.tab|
    ensures BootOk(b)
  {
  }

  lemma ApplyIs(b: Boot, op: Op)
    requires |b.store| > 0
    ensures op.BlockAt? ==> Apply(b, op) == SetAt(EnsureTop(b, op.v), Top(op.v.x2), op.v.x1, op.leaf)
    ensures op.PageAt? ==>
      Apply(b, op) == SetAt(EnsureMid(EnsureTop(b, op.v), op.v), Mid(op.v.x2, op.v.x1), op.v.x0, op.leaf)
  {
    hide SetAt, EnsureTop, EnsureMid;
  }

  /** Same translations, more tables. */
  ghost predicate Grew(b: Boot, c: Boot, slots: set<Slot>) {
    && BootOk(c) && c.store == b.store && c.tab.Keys == b.tab.Keys + slots
    && forall u: Vpn :: Deciding(c.mem, c.tab, u) == Deciding(b.mem, b.tab, u)
  }

  lemma PagePath(b: Boot, v: Vpn)
    requires BootOk(b) && (Deciding(b.mem, b.tab, Vpn(v.x2, v.x1, 0)).Empty? || Mid(v.x2, v.x1) in b.tab)
    requires b.ntable + (if Top(v.x2) in b.tab then 0 else 1) + (if Mid(v.x2, v.x1) in b.tab then 0 else 1) <= |b.store|
    ensures |b.store| > 0
    ensures var c := EnsureMid(EnsureTop(b, v), v);
      && Grew(b, c, {Top(v.x2), Mid(v.x2, v.x1)}) && Mid(v.x2, v.x1) in c.tab
      && c.ntable == b.ntable + (if Top(v.x2) in b.tab then 0 else 1) + (if Mid(v.x2, v.x1) in b.tab then 0 else 1)
  {
    hide *;
    StoreNonempty(b);
    EnsureTopKeeps(b, v);
    var c, at := EnsureTop(b, v), Vpn(v.x2, v.x1, 0);
    assert Mid(v.x2, v.x1) in c.tab.Keys <==> Mid(v.x2, v.x1) in b.tab.Keys;
    assert Top(v.x2) in c.tab.Keys;
    assert Deciding(c.mem, c.tab, at) == Deciding(b.mem, b.tab, at);
    EnsureMidKeeps(c, v);
    var d := EnsureMid(c, v);
    assert Mid(v.x2, v.x1) in d.tab.Keys;
    assert d.tab.Keys == b.tab.Keys + {Top(v.x2), Mid(v.x2, v.x1)};
    GrewIf(b, d, {Top(v.x2), Mid(v.x2, v.x1)});
  }

  lemma GrewIf(b: Boot, c: Boot, slots: set<Slot>)
    requires BootOk(c) && c.store == b.store && c.tab.Keys == b.tab.Keys + slots
    requires forall u: Vpn :: Deciding(c.mem, c.tab, u) == Deciding(b.mem, b.tab, u)
    ensures Grew(b, c, slots)
  {
    hide BootOk, Deciding;
  }

  lemma BlockPath(b: Boot, v: Vpn)
    requires BootOk(b) && Mid(v.x2, v.x1) !in b.tab && b.ntable + (if Top(v.x2) in b.tab then 0 else 1) <= |b.store|
    ensures |b.store| > 0
    ensures var c := EnsureTop(b, v);
      && Grew(b, c, {Top(v.x2)}) && Top(v.x2) in c.tab && Mid(v.x2, v.x1) !in c.tab
      && c.ntable == b.ntable + (if Top(v.x2) in b.tab then 0 else 1)
  {
    StoreNonempty(b);
    EnsureTopKeeps(b, v);
    hide BootOk, Deciding, EnsureTop;
    var c := EnsureTop(b, v);
    assert Mid(v.x2, v.x1) !in c.tab.Keys && Top(v.x2) in c.tab.Keys;
  }

  /** SetAt's store keeps everything but the pages it maps. */
  lemma SetPage(c: Boot, op: Op)
    requires BootOk(c) && op.PageAt? && op.leaf.Leaf? && Mid(op.v.x2, op.v.x1) in c.tab
    ensures var d := SetAt(c, Mid(op.v.x2, op.v.x1), op.v.x0, op.leaf);
      && BootOk(d) && d.store == c.store && d.ntable == c.ntable && d.tab == c.tab
      && forall u: Vpn :: Deciding(d.mem, d.tab, u) == if Covers(op, u) then LeafFor(op, u)
          else Deciding(c.mem, c.tab, u)
  {
    var s := Mid(op.v.x2, op.v.x1);
    forall u: Vpn ensures (Covers(op, u) <==> u == op.v) && LeafFor(op, u) == op.leaf { CoversIs(op, u); }
    hide *;
    BootOkParts(c);
    SetAtIs(c, s, op.v.x0, op.leaf);
    SetPool(c, s, op.v.x0, op.leaf);
    PutPage(c.mem, c.store[0], c.tab, op.v, op.leaf);
    BootOkIf(SetAt(c, s, op.v.x0, op.leaf));
  }

  lemma SetBlock(c: Boot, op: Op)
    requires BootOk(c) && op.BlockAt? && op.leaf.Leaf? && Aligned(op.leaf.frame, 1)
    requires Top(op.v.x2) in c.tab && Mid(op.v.x2, op.v.x1) !in c.tab
    ensures var d := SetAt(c, Top(op.v.x2), op.v.x1, op.leaf);
      && BootOk(d) && d.store == c.store && d.ntable == c.ntable && d.tab == c.tab
      && forall u: Vpn :: Deciding(d.mem, d.tab, u) == if Covers(op, u) then LeafFor(op, u)
          else Deciding(c.mem, c.tab, u)
  {
    var s := Top(op.v.x2);
    forall u: Vpn ensures (Covers(op, u) <==> u.x2 == op.v.x2 && u.x1 == op.v.x1)
                          && LeafFor(op, u) == Leaf(InBlock(op.leaf.frame, u.x0), op.leaf.attr) {
      CoversIs(op, u);
    }
    hide *;
    BootOkParts(c);
    SetAtIs(c, s, op.v.x1, op.leaf);
    SetPool(c, s, op.v.x1, op.leaf);
    PutBlock(c.mem, c.store[0], c.tab, op.v, op.leaf);
    BootOkIf(SetAt(c, s, op.v.x1, op.leaf));
  }

  /** mapleaf and mapblock: exactly the covered pages change, and exactly the missing tables are taken. */
  lemma ApplyKeeps(b: Boot, op: Op)
    requires BootOk(b) && OpOk(b, op) && b.ntable + Needs(b, op) <= |b.store|
    ensures var c := Apply(b, op);
      && BootOk(c) && c.store == b.store && c.ntable == b.ntable + Needs(b, op)
      && c.tab.Keys == b.tab.Keys + {Top(op.v.x2)} + (if op.PageAt? then {Mid(op.v.x2, op.v.x1)} else {})
      && forall u: Vpn :: Deciding(c.mem, c.tab, u) == if Covers(op, u) then LeafFor(op, u)
          else Deciding(b.mem, b.tab, u)
  {
    hide *;
    StoreNonempty(b);
    OpParts(b, op);
    NeedsIs(b, op);
    ApplyIs(b, op);
    if op.PageAt? {
      PagePath(b, op.v);
      GrewParts(b, EnsureMid(EnsureTop(b, op.v), op.v), {Top(op.v.x2), Mid(op.v.x2, op.v.x1)});
      SetPage(EnsureMid(EnsureTop(b, op.v), op.v), op);
    } else {
      BlockPath(b, op.v);
      GrewParts(b, EnsureTop(b, op.v), {Top(op.v.x2)});
      SetBlock(EnsureTop(b, op.v), op);
    }
  }

  lemma GrewParts(b: Boot, c: Boot, slots: set<Slot>)
    requires Grew(b, c, slots)
    ensures BootOk(c) && c.store == b.store && c.tab.Keys == b.tab.Keys + slots
    ensures forall u: Vpn :: Deciding(c.mem, c.tab, u) == Deciding(b.mem, b.tab, u)
  {
  }

  lemma InMem(b: Boot, s: Slot)
    requires BootOk(b) && s in b.tab
    ensures b.tab[s] in b.mem
  {
  }
}
