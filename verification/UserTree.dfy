module Lists {
  datatype Option<T> = None | Some(value: T)

  function Elems<T>(s: seq<T>): set<T> { set x | x in s }

  predicate Distinct<T(==)>(s: seq<T>) { forall i, j :: 0 <= i < j < |s| ==> s[i] != s[j] }

  function Reversed<T>(s: seq<T>): seq<T> {
    if s == [] then [] else Reversed(s[1..]) + [s[0]]
  }

  lemma {:induction false} ReversedElems<T>(s: seq<T>)
    ensures |Reversed(s)| == |s| && Elems(Reversed(s)) == Elems(s)
    ensures Distinct(s) ==> Distinct(Reversed(s))
  {
    if s != [] {
      ReversedElems(s[1..]);
      assert s == [s[0]] + s[1..];
      assert Elems(s) == {s[0]} + Elems(s[1..]);
      if Distinct(s) {
        assert s[0] !in Elems(s[1..]);
        assert forall x :: x in Reversed(s[1..]) ==> x in Elems(s[1..]);
      }
    }
  }
}

module UserTree {
  import opened Sv39

  /** Where a table page hangs: under a root slot, or under a slot of a level-1 table. */
  datatype Slot = Top(x2: Index) | Mid(x2: Index, x1: Index)

  type Tables = map<Slot, Page>

  /** What a parent's entry holds for a slot. */
  function Link(tab: Tables, s: Slot): Pte {
    if s in tab then Next(tab[s]) else Empty
  }

  ghost predicate Placed(mem: Mem, root: Page, tab: Tables) {
    && root in mem
    && (forall s :: s in tab ==> tab[s] in mem && tab[s] != root)
    && (forall s, s' :: s in tab && s' in tab && s != s' ==> tab[s] != tab[s'])
    && (forall s :: s in tab && s.Top? ==> s.x2 < 256)
    && (forall s :: s in tab && s.Mid? ==> Top(s.x2) in tab)
  }

  ghost predicate Tree(mem: Mem, root: Page, tab: Tables) {
    && Placed(mem, root, tab)
    && (forall x2: Index :: x2 < 256 ==> Entry(mem, root, x2) == Link(tab, Top(x2)))
    && (forall x2: Index, x1: Index :: Top(x2) in tab ==> Entry(mem, tab[Top(x2)], x1) == Link(tab, Mid(x2, x1)))
    && (forall x2: Index, x1: Index, x0: Index :: Mid(x2, x1) in tab ==>
          var e := Entry(mem, tab[Mid(x2, x1)], x0); e.Empty? || e.Leaf?)
  }

  // ----- what the hardware walk does on a tree -----

  /** The level-0 entry on v's path, Empty when a level is missing. */
  function LeafEntry(mem: Mem, tab: Tables, v: Vpn): Pte {
    if Mid(v.x2, v.x1) in tab then Entry(mem, tab[Mid(v.x2, v.x1)], v.x0) else Empty
  }

  lemma WalkOnTree(mem: Mem, root: Page, tab: Tables, v: Vpn)
    requires Tree(mem, root, tab) && v.User()
    ensures Walk(mem, root, v) ==
            match LeafEntry(mem, tab, v) case Leaf(f, a) => Maps(f, a) case _ => Fault
  {
  }

  /** A zeroed page hung under one slot of its parent; nothing else changed. */
  ghost predicate Linked(mem: Mem, mem': Mem, parent: Page, x: Index, pg: Page) {
    && mem'.Keys == mem.Keys
    && forall p, y: Index :: Entry(mem', p, y) ==
         if p == parent && y == x then Next(pg) else if p == pg then Empty else Entry(mem, p, y)
  }

  ghost predicate Wrote(mem: Mem, mem': Mem, pg: Page, x: Index, e: Pte) {
    && mem'.Keys == mem.Keys
    && forall p, y: Index :: Entry(mem', p, y) == if p == pg && y == x then e else Entry(mem, p, y)
  }

  lemma LinkTop(mem: Mem, root: Page, tab: Tables, pg: Page, x2: Index, mem': Mem)
    requires Tree(mem, root, tab)
    requires pg in mem && pg != root && (forall s :: s in tab ==> tab[s] != pg)
    requires x2 < 256 && Top(x2) !in tab
    requires Linked(mem, mem', root, x2, pg)
    ensures Tree(mem', root, tab[Top(x2) := pg])
    ensures forall v: Vpn :: LeafEntry(mem', tab[Top(x2) := pg], v) == LeafEntry(mem, tab, v)
  {
  }

  lemma LinkMid(mem: Mem, root: Page, tab: Tables, pg: Page, x2: Index, x1: Index, mem': Mem)
    requires Tree(mem, root, tab)
    requires pg in mem && pg != root && (forall s :: s in tab ==> tab[s] != pg)
    requires Top(x2) in tab && Mid(x2, x1) !in tab
    requires Linked(mem, mem', tab[Top(x2)], x1, pg)
    ensures Tree(mem', root, tab[Mid(x2, x1) := pg])
    ensures forall v: Vpn :: LeafEntry(mem', tab[Mid(x2, x1) := pg], v) == LeafEntry(mem, tab, v)
  {
  }

  lemma SetLeaf(mem: Mem, root: Page, tab: Tables, v: Vpn, e: Pte, mem': Mem)
    requires Tree(mem, root, tab) && Mid(v.x2, v.x1) in tab && e.Leaf?
    requires Wrote(mem, mem', tab[Mid(v.x2, v.x1)], v.x0, e)
    ensures Tree(mem', root, tab)
    ensures LeafEntry(mem', tab, v) == e
    ensures forall u: Vpn :: u != v ==> LeafEntry(mem', tab, u) == LeafEntry(mem, tab, u)
  {
  }

  lemma TreeFrame(mem: Mem, mem': Mem, root: Page, tab: Tables)
    requires Tree(mem, root, tab)
    requires root in mem' && forall x: Index :: x < 256 ==> Entry(mem', root, x) == Entry(mem, root, x)
    requires forall s :: s in tab ==> tab[s] in mem' && mem'[tab[s]] == mem[tab[s]]
    ensures Tree(mem', root, tab)
    ensures forall v: Vpn :: LeafEntry(mem', tab, v) == LeafEntry(mem, tab, v)
  {
    assert forall s, x: Index :: s in tab ==> Entry(mem', tab[s], x) == Entry(mem, tab[s], x);
  }
}
