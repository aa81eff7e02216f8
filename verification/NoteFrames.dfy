/** Bytes, little-endian words and the user-stack frame trap.c builds for a note. */
module NoteFrames {

  type Byte = b: int | 0 <= b < 256
  type U64 = w: int | 0 <= w < TWO64

  const TWO64: int := 0x1_0000_0000_0000_0000
  const UREGSIZE: nat := 296
  const ERRMAX: nat := 128
  const BY2WD: nat := 8

  // Word numbers in a Ureg.
  const PC: nat := 0
  const R1: nat := 1
  const SP: nat := 2
  const ARG: nat := 8
  const STATUS: nat := 32

  type Regs = r: seq<Byte> | |r| == UREGSIZE witness seq(UREGSIZE, _ => 0)

  // ----- words as bytes -----

  function Le(w: int, n: nat): (s: seq<Byte>)
    requires 0 <= w
    ensures |s| == n
  {
    if n == 0 then [] else [w % 256] + Le(w / 256, n - 1)
  }

  function Value(s: seq<Byte>): nat {
    if s == [] then 0 else s[0] + 256 * Value(s[1..])
  }

  function Pow(n: nat): nat { if n == 0 then 1 else 256 * Pow(n - 1) }

  lemma {:induction false} ValueLe(w: nat, n: nat)
    requires w < Pow(n)
    ensures Value(Le(w, n)) == w
  {
    if n > 0 {
      ValueLe(w / 256, n - 1);
      assert Le(w, n)[1..] == Le(w / 256, n - 1);
    }
  }

  lemma {:induction false} ValueBound(s: seq<Byte>)
    ensures Value(s) < Pow(|s|)
  {
    if s != [] { ValueBound(s[1..]); }
  }

  lemma PowEight()
    ensures Pow(8) == TWO64
  {
    assert Pow(1) == 256 && Pow(2) == 0x1_0000 && Pow(3) == 0x100_0000 && Pow(4) == 0x1_0000_0000;
    assert Pow(5) == 0x100_0000_0000 && Pow(6) == 0x1_0000_0000_0000 && Pow(7) == 0x100_0000_0000_0000;
  }

  function Word8(s: seq<Byte>): U64
    requires |s| == 8
  {
    ValueBound(s);
    PowEight();
    Value(s)
  }

  function Le8(w: U64): (s: seq<Byte>)
    ensures |s| == 8
  {
    Le(w, 8)
  }

  lemma WordBack(w: U64)
    ensures Word8(Le8(w)) == w
  {
    PowEight();
    ValueLe(w, 8);
  }

  // ----- a Ureg -----

  /** memmove into a buffer. */
  function Put(s: seq<Byte>, off: nat, data: seq<Byte>): (t: seq<Byte>)
    requires off + |data| <= |s|
    ensures |t| == |s|
  {
    s[..off] + data + s[off + |data|..]
  }

  function Get(r: Regs, i: nat): U64
    requires i < 37
  {
    Word8(r[8 * i..8 * i + 8])
  }

  function Set(r: Regs, i: nat, w: U64): Regs
    requires i < 37
  {
    Put(r, 8 * i, Le8(w))
  }

  lemma GetSet(r: Regs, i: nat, j: nat, w: U64)
    requires i < 37 && j < 37
    ensures Get(Set(r, i, w), j) == if i == j then w else Get(r, j)
  {
    WordBack(w);
    var t := Set(r, i, w);
    if i == j {
      assert t[8 * i..8 * i + 8] == Le8(w);
    } else {
      assert t[8 * j..8 * j + 8] == r[8 * j..8 * j + 8];
    }
  }

  lemma {:induction false} LeValue(s: seq<Byte>)
    ensures Le(Value(s), |s|) == s
  {
    if s != [] { LeValue(s[1..]); }
  }

  /** setregisters: bytes from user space, but never status. */
  function SetRegisters(r: Regs, off: nat, data: seq<Byte>): Regs
    requires off + |data| <= UREGSIZE
  {
    Set(Put(r, off, data), STATUS, Get(r, STATUS))
  }

  lemma StatusKept(r: Regs, off: nat, data: seq<Byte>)
    requires off + |data| <= UREGSIZE
    ensures Get(SetRegisters(r, off, data), STATUS) == Get(r, STATUS)
    ensures forall k :: 0 <= k < 296 && !(256 <= k < 264) ==>
      SetRegisters(r, off, data)[k] == if off <= k < off + |data| then data[k - off] else r[k]
  {
    GetSet(Put(r, off, data), STATUS, STATUS, Get(r, STATUS));
  }

  // ----- user memory -----

  type UserMem = map<int, Byte>

  predicate Backed(mem: UserMem, a: int, n: nat) { forall k :: a <= k < a + n ==> k in mem }

  function Bytes(mem: UserMem, a: int, n: nat): (s: seq<Byte>)
    requires Backed(mem, a, n)
    ensures |s| == n
  {
    seq(n, i requires 0 <= i < n => mem[a + i])
  }

  function Write(mem: UserMem, a: int, data: seq<Byte>): UserMem
    requires Backed(mem, a, |data|)
  {
    map k | k in mem :: if a <= k < a + |data| then data[k - a] else mem[k]
  }

  /** A write is read back, and reads elsewhere are not touched. */
  lemma WriteReads(mem: UserMem, a: int, data: seq<Byte>, b: int, n: nat)
    requires Backed(mem, a, |data|) && Backed(mem, b, n)
    ensures Backed(Write(mem, a, data), b, n)
    ensures b == a && n == |data| ==> Bytes(Write(mem, a, data), b, n) == data
    ensures b + n <= a || a + |data| <= b ==> Bytes(Write(mem, a, data), b, n) == Bytes(mem, b, n)
  {
  }
}
