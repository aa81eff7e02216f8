/** Any sequence of mapleaf and mapblock calls from an empty root: what it maps and how many tables it takes. */
module BootRuns {
  import opened Sv39
  import opened Lists
  import opened UserTree
  import opened KernelTree
  import opened BootTables

  function ApplyAll(b: Boot, ops: seq<Op>): (c: Boot)
    requires |b.store| > 0
    ensures c.store == b.store
    decreases |ops|
  {
    if ops == [] then b else Apply(ApplyAll(b, ops[..|ops| - 1]), ops[|ops| - 1])
  }

  /** What the sequence maps v to: the last op that covers it decides. */
  function Covering(ops: seq<Op>, v: Vpn): Pte
    requires forall op :: op in ops ==> op.leaf.Leaf?
    decreases |ops|
  {
    if ops == [] then Empty
    else if Covers(ops[|ops| - 1], v) then LeafFor(ops[|ops| - 1], v)
    else Covering(ops[..|ops| - 1], v)
  }

  /** The root slots touched, and the level-1 slots under which page leaves go. */
  function Tops(ops: seq<Op>): set<Slot> { set op | op in ops :: Top(op.v.x2) }

  function Mids(ops: seq<Op>): set<Slot> { set op | op in ops && op.PageAt? :: Mid(op.v.x2, op.v.x1) }

  /** Table pages: the root, one per root slot touched, one per level-1 slot touched by a page. */
  function Budget(ops: seq<Op>): nat { 1 + |Tops(ops)| + |Mids(ops)| }

  /** Leaves are leaves, block leaves are aligned, and block and page regions share no level-1 slot. */
  ghost predicate Compatible(ops: seq<Op>) {
    && (forall op :: op in ops ==> op.leaf.Leaf? && (op.BlockAt? ==> Aligned(op.leaf.frame, 1)))
    && (forall a, c :: a in ops && c in ops && a.BlockAt? && c.PageAt? ==> a.v.x2 != c.v.x2 || a.v.x1 != c.v.x1)
  }

  ghost predicate EmptyBoot(b: Boot) {
    BootOk(b) && b.ntable == 1 && b.tab == map[]
  }

  /** The root newtable hands out first, in a zeroed store. */
  lemma ZeroedEmpty(b: Boot)
    requires b.ntable == 1 && b.tab == map[] && |b.store| >= 1 && Distinct(b.store)
    requires forall i :: 0 <= i < |b.store| ==> b.store[i] in b.mem && b.mem[b.store[i]] == ZeroTable()
    ensures EmptyBoot(b)
  {
    assert forall i, x: Index :: 0 <= i < |b.store| ==> Entry(b.mem, b.store[i], x) == Empty;
  }

  lemma EmptyBuilt(b: Boot)
    requires EmptyBoot(b) && |b.store| >= 1
    ensures Built(b, [])
  {
    assert Compatible([]) && Budget([]) == 1 by {
      assert Tops([]) == {} && Mids([]) == {};
    }
    BudgetAndMap(b, []);
  }

  lemma {:induction false} UncoveredEmpty(ops: seq<Op>, v: Vpn)
    requires forall op :: op in ops ==> op.leaf.Leaf?
    requires forall op :: op in ops ==> !Covers(op, v)
    ensures Covering(ops, v) == Empty
    decreases |ops|
  {
    if ops != [] {
      UncoveredEmpty(ops[..|ops| - 1], v);
    }
  }

  lemma SlotsSplit(init: seq<Op>, op: Op)
    ensures Tops(init + [op]) == Tops(init) + {Top(op.v.x2)}
    ensures Mids(init + [op]) == Mids(init) + (if op.PageAt? then {Mid(op.v.x2, op.v.x1)} else {})
    ensures Tops(init) !! Mids(init)
  {
    assert forall x :: x in init + [op] <==> x in init || x == op;
  }

  lemma CompatiblePrefix(init: seq<Op>, op: Op)
    requires Compatible(init + [op])
    ensures Compatible(init) && op.leaf.Leaf? && (op.BlockAt? ==> Aligned(op.leaf.frame, 1))
    ensures op.BlockAt? ==> Mid(op.v.x2, op.v.x1) !in Mids(init)
    ensures op.PageAt? ==> forall a :: a in init && Covers(a, Vpn(op.v.x2, op.v.x1, 0)) ==>
      Mid(op.v.x2, op.v.x1) in Mids(init)
  {
    hide Aligned;
    assert forall x :: x in init + [op] <==> x in init || x == op;
  }

  /** A fresh boot has no translation at all. */
  lemma EmptyMapsNothing(b: Boot, v: Vpn)
    requires EmptyBoot(b)
    ensures Deciding(b.mem, b.tab, v) == Empty
  {
  }

  /**
   From an empty root, the tables taken are one for the root, one for each VPN[2] touched and one for each
   (VPN[2], VPN[1]) touched by a page; the translations are those of the last covering call.
   */
  lemma {:induction false} BudgetAndMap(b: Boot, ops: seq<Op>)
    requires EmptyBoot(b) && Compatible(ops)
    requires Budget(ops) <= |b.store|
    ensures Built(ApplyAll(b, ops), ops)
    decreases |ops|
  {
    if ops == [] {
      forall v: Vpn ensures Deciding(b.mem, b.tab, v) == Empty { EmptyMapsNothing(b, v); }
    } else {
      var init, op := ops[..|ops| - 1], ops[|ops| - 1];
      assert ops == init + [op];
      SlotsSplit(init, op);
      CompatiblePrefix(init, op);
      SlotCounts(init, op);
      BudgetAndMap(b, init);
      OneMore(ApplyAll(b, init), init, op);
      AppliedIs(b, init, op);
    }
  }

  lemma SlotCounts(init: seq<Op>, op: Op)
    ensures |Tops(init + [op])| == |Tops(init)| + (if Top(op.v.x2) in Tops(init) then 0 else 1)
    ensures |Mids(init + [op])| == |Mids(init)| + (if op.PageAt? && Mid(op.v.x2, op.v.x1) !in Mids(init) then 1 else 0)
  {
    SlotsSplit(init, op);
    hide Tops, Mids;
    AddSize(Tops(init), Top(op.v.x2));
    AddSize(Mids(init), Mid(op.v.x2, op.v.x1));
    assert Mids(init) + {} == Mids(init);
  }

  lemma AddSize(a: set<Slot>, s: Slot)
    ensures |a + {s}| == |a| + (if s in a then 0 else 1)
  {
    if s in a { assert a + {s} == a; }
  }

  /** What the tables of a run say about the run. */
  ghost predicate Built(c: Boot, ops: seq<Op>)
    requires forall op :: op in ops ==> op.leaf.Leaf?
  {
    && BootOk(c) && c.tab.Keys == Tops(ops) + Mids(ops) && c.ntable == 1 + |Tops(ops)| + |Mids(ops)|
    && forall v: Vpn :: Deciding(c.mem, c.tab, v) == Covering(ops, v)
  }

  lemma KeysOf(init: seq<Op>, tab: Tables)
    requires tab.Keys == Tops(init) + Mids(init)
    ensures forall x2: Index :: Top(x2) in tab <==> Top(x2) in Tops(init)
    ensures forall x2: Index, x1: Index :: Mid(x2, x1) in tab <==> Mid(x2, x1) in Mids(init)
  {
  }

  lemma OpReady(c: Boot, init: seq<Op>, op: Op)
    requires Compatible(init + [op])
    requires (forall o :: o in init ==> o.leaf.Leaf?) && Built(c, init)
    ensures OpOk(c, op)
    ensures Needs(c, op) == (if Top(op.v.x2) in Tops(init) then 0 else 1)
                            + (if op.PageAt? && Mid(op.v.x2, op.v.x1) !in Mids(init) then 1 else 0)
  {
    hide *;
    CompatiblePrefix(init, op);
    BuiltParts(c, init);
    KeysOf(init, c.tab);
    NeedsIs(c, op);
    if op.PageAt? && Mid(op.v.x2, op.v.x1) !in c.tab {
      var at := Vpn(op.v.x2, op.v.x1, 0);
      UncoveredEmpty(init, at);
      assert Deciding(c.mem, c.tab, at) == Empty;
    }
    OpOkIf(c, op);
  }

  lemma OpOkIf(b: Boot, op: Op)
    requires op.leaf.Leaf? && (op.BlockAt? ==> Aligned(op.leaf.frame, 1) && Mid(op.v.x2, op.v.x1) !in b.tab)
    requires op.PageAt? ==> Deciding(b.mem, b.tab, Vpn(op.v.x2, op.v.x1, 0)).Empty? || Mid(op.v.x2, op.v.x1) in b.tab
    ensures OpOk(b, op)
  {
  }

  /** One more call of mapleaf, or turn of mapblock, on tables that say what init asked for. */
  lemma OneMore(c: Boot, init: seq<Op>, op: Op)
    requires Compatible(init + [op]) && Compatible(init)
    requires Budget(init + [op]) <= |c.store| && |c.store| > 0
    requires Built(c, init)
    ensures Built(Apply(c, op), init + [op]) && Apply(c, op).store == c.store
  {
    hide *;
    var ops := init + [op];
    Leaves(ops);
    Leaves(init);
    BudgetIs(ops);
    BuiltParts(c, init);
    OpReady(c, init, op);
    SlotCounts(init, op);
    AllSlots(init, op);
    CoveringNext(init, op);
    ApplyKeeps(c, op);
    BuiltIf(Apply(c, op), ops);
  }

  lemma BudgetIs(ops: seq<Op>)
    ensures Budget(ops) == 1 + |Tops(ops)| + |Mids(ops)|
  {
  }

  lemma Leaves(ops: seq<Op>)
    requires Compatible(ops)
    ensures forall op :: op in ops ==> op.leaf.Leaf?
  {
  }

  lemma StoreSize(b: Boot)
    requires EmptyBoot(b)
    ensures |b.store| > 0
  {
  }

  lemma AllSlots(init: seq<Op>, op: Op)
    ensures Tops(init + [op]) + Mids(init + [op]) ==
            Tops(init) + Mids(init) + {Top(op.v.x2)} + (if op.PageAt? then {Mid(op.v.x2, op.v.x1)} else {})
  {
    SlotsSplit(init, op);
    hide Tops, Mids;
  }

  lemma AppliedIs(b: Boot, init: seq<Op>, op: Op)
    requires |b.store| > 0
    ensures ApplyAll(b, init + [op]) == Apply(ApplyAll(b, init), op)
  {
    assert (init + [op])[..|init|] == init;
  }

  lemma CoveringNext(init: seq<Op>, op: Op)
    requires forall o :: o in init + [op] ==> o.leaf.Leaf?
    ensures forall o :: o in init ==> o.leaf.Leaf?
    ensures op.leaf.Leaf?
    ensures forall v: Vpn :: Covering(init + [op], v) == if Covers(op, v) then LeafFor(op, v) else Covering(init, v)
  {
    assert (init + [op])[..|init|] == init;
    assert op in init + [op];
    forall o | o in init ensures o in init + [op] {}
  }

  lemma BuiltParts(c: Boot, ops: seq<Op>)
    requires (forall op :: op in ops ==> op.leaf.Leaf?) && Built(c, ops)
    ensures BootOk(c) && c.tab.Keys == Tops(ops) + Mids(ops) && c.ntable == 1 + |Tops(ops)| + |Mids(ops)|
    ensures forall v: Vpn :: Deciding(c.mem, c.tab, v) == Covering(ops, v)
  {
  }

  lemma BuiltIf(c: Boot, ops: seq<Op>)
    requires forall op :: op in ops ==> op.leaf.Leaf?
    requires BootOk(c) && c.tab.Keys == Tops(ops) + Mids(ops) && c.ntable == 1 + |Tops(ops)| + |Mids(ops)|
    requires forall v: Vpn :: Deciding(c.mem, c.tab, v) == Covering(ops, v)
    ensures Built(c, ops)
  {
  }
}
