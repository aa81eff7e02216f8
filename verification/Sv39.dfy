/**
 Sv39 translation (RISC-V Privileged Architecture 20211203, sections 4.3.2 and 4.4) over table
 pages whose entries are kept as the hardware decodes them.  Module PteWords relates these entries
 to the 64-bit words mmu.c stores and reads.
 */
module Sv39 {
  /** A physical page, named by its address. */
  datatype Page = Page(pa: bv64)

  /** An index into a 512-entry table: one VPN field. */
  type Index = x: int | 0 <= x < 512

  /** Every bit of a leaf outside the PPN field; bits 63:60 are the C906 memory type. */
  datatype Attr = Attr(read: bool, write: bool, exec: bool, user: bool, global: bool, accessed: bool, dirty: bool,
                       ordered: bool, cacheable: bool, bufferable: bool, shareable: bool, rest: bv64)

  datatype Pte =
    | Empty                           // V = 0
    | Reserved                        // W without R, or a pointer with bits 63:54 set
    | Next(table: Page)               // R = W = X = 0
    | Leaf(frame: Page, attr: Attr)

  type Table = t: seq<Pte> | |t| == 512 witness seq(512, _ => Empty)

  type Mem = map<Page, Table>

  /** Absent memory reads as an invalid entry: the hardware faults either way. */
  function Entry(mem: Mem, pg: Page, x: Index): Pte {
    if pg in mem then mem[pg][x] else Empty
  }

  function Store(mem: Mem, pg: Page, x: Index, e: Pte): Mem
    requires pg in mem
  {
    mem[pg := mem[pg][x := e]]
  }

  function ZeroTable(): Table { seq(512, _ => Empty) }

  /** The three VPN fields of a virtual page. */
  datatype Vpn = Vpn(x2: Index, x1: Index, x0: Index) {
    /** The Sv39 low half: root slots 0-255. */
    predicate User() { x2 < 256 }
  }

  /** What a translation gives for one 4 KB virtual page. */
  datatype Xlat = Fault | Maps(frame: Page, attr: Attr)

  function Walk(mem: Mem, root: Page, v: Vpn): Xlat {
    match Entry(mem, root, v.x2)
    case Next(t1) => Walk1(mem, t1, v)
    case Leaf(f, a) => if Aligned(f, 2) then Maps(InBlock(InGiga(f, v.x1), v.x0), a) else Fault
    case _ => Fault
  }

  function Walk1(mem: Mem, t1: Page, v: Vpn): Xlat {
    match Entry(mem, t1, v.x1)
    case Next(t0) => Walk0(mem, t0, v)
    case Leaf(f, a) => if Aligned(f, 1) then Maps(InBlock(f, v.x0), a) else Fault
    case _ => Fault
  }

  function Walk0(mem: Mem, t0: Page, v: Vpn): Xlat {
    match Entry(mem, t0, v.x0)
    case Leaf(f, a) => Maps(f, a)
    case _ => Fault
  }

  /** A superpage's frame must be aligned to its size (step 6). */
  predicate Aligned(f: Page, level: nat) {
    if level == 2 then f.pa & 0x3FFF_FFFF == 0 else f.pa & 0x1F_FFFF == 0
  }

  /** The 4 KB frame of a 2 MB page picked by VPN[0] (step 8). */
  function InBlock(f: Page, x0: Index): Page { Page(f.pa | ((x0 as bv64) << 12)) }

  /** The 2 MB frame of a 1 GB page picked by VPN[1]. */
  function InGiga(f: Page, x1: Index): Page { Page(f.pa | ((x1 as bv64) << 21)) }
}
