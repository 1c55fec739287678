/** Bytes, bits and little-endian words inside a disk block, as xv6/fs.h lays them out. */
module FsBytes {

  const BSIZE: nat := 512

  type byte = x: int | 0 <= x < 256
  type Block = b: seq<byte> | |b| == BSIZE witness seq(BSIZE, _ => 0)

  function ZeroBlock(): (b: Block)
    ensures forall i :: 0 <= i < BSIZE ==> b[i] == 0
  {
    seq(BSIZE, _ => 0)
  }

  /** memmove into the middle of a buffer. */
  function Splice<T>(b: seq<T>, o: nat, s: seq<T>): (r: seq<T>)
    requires o + |s| <= |b|
    ensures |r| == |b|
    ensures forall i :: 0 <= i < |b| ==> r[i] == if o <= i < o + |s| then s[i - o] else b[i]
  {
    b[..o] + s + b[o + |s|..]
  }

  // Bits.  Bit k of x is what x & (1 << k) tests.

  predicate TestBit(x: nat, k: nat) {
    if k == 0 then x % 2 == 1 else TestBit(x / 2, k - 1)
  }

  /** x | (1 << k) */
  function SetBit(x: nat, k: nat): nat {
    if k == 0 then x / 2 * 2 + 1 else SetBit(x / 2, k - 1) * 2 + x % 2
  }

  /** x & ~(1 << k) */
  function ClearBit(x: nat, k: nat): nat {
    if k == 0 then x / 2 * 2 else ClearBit(x / 2, k - 1) * 2 + x % 2
  }

  function Pow2(n: nat): nat {
    if n == 0 then 1 else 2 * Pow2(n - 1)
  }

  lemma {:induction false} BitOps(x: nat, k: nat, j: nat)
    ensures TestBit(SetBit(x, k), j) <==> j == k || TestBit(x, j)
    ensures TestBit(ClearBit(x, k), j) <==> j != k && TestBit(x, j)
  {
    assert k != 0 ==> SetBit(x, k) / 2 == SetBit(x / 2, k - 1) && ClearBit(x, k) / 2 == ClearBit(x / 2, k - 1);
    if k != 0 && j != 0 { BitOps(x / 2, k - 1, j - 1); }
  }

  lemma {:induction false} BitBounds(x: nat, k: nat, n: nat)
    requires x < Pow2(n) && k < n
    ensures SetBit(x, k) < Pow2(n) && ClearBit(x, k) < Pow2(n)
  {
    if k != 0 { BitBounds(x / 2, k - 1, n - 1); }
  }

  lemma ByteBits(x: byte, k: nat)
    requires k < 8
    ensures SetBit(x, k) < 256 && ClearBit(x, k) < 256
  {
    assert Pow2(8) == 256;
    BitBounds(x, k, 8);
  }

  // Words

  const LIMIT16: nat := 0x1_0000
  const LIMIT32: nat := 0x1_0000_0000

  function U16(b: seq<byte>, o: nat): (v: nat)
    requires o + 2 <= |b|
    ensures v < LIMIT16
  {
    var lo: nat, hi: nat := b[o], b[o + 1];
    lo + 0x100 * hi
  }

  function U32(b: seq<byte>, o: nat): (v: nat)
    requires o + 4 <= |b|
    ensures v < LIMIT32
  {
    U16(b, o) + 0x1_0000 * U16(b, o + 2)
  }

  function E16(v: nat): (s: seq<byte>)
    ensures |s| == 2
    ensures v < LIMIT16 ==> U16(s, 0) == v
  {
    [v % 0x100, v / 0x100 % 0x100]
  }

  function E32(v: nat): (s: seq<byte>)
    ensures |s| == 4
    ensures v < LIMIT32 ==> U32(s, 0) == v
  {
    E16(v % LIMIT16) + E16(v / LIMIT16 % LIMIT16)
  }

  /** A word only depends on its own bytes. */
  lemma SameWord(b: seq<byte>, o: nat, c: seq<byte>, p: nat)
    requires o + 4 <= |b| && p + 4 <= |c| && b[o..o + 4] == c[p..p + 4]
    ensures U32(b, o) == U32(c, p) && U16(b, o) == U16(c, p)
  {
    assert b[o] == b[o..o + 4][0] == c[p] && b[o + 1] == b[o..o + 4][1] == c[p + 1];
    assert b[o + 2] == b[o..o + 4][2] == c[p + 2] && b[o + 3] == b[o..o + 4][3] == c[p + 3];
  }

  lemma PutU32(b: seq<byte>, o: nat, v: nat, p: nat)
    requires o + 4 <= |b| && p + 4 <= |b| && v < LIMIT32
    requires p == o || p + 4 <= o || o + 4 <= p
    ensures U32(Splice(b, o, E32(v)), p) == if p == o then v else U32(b, p)
  {
  }

  lemma ZeroWords(o: nat)
    requires o + 4 <= BSIZE
    ensures U32(ZeroBlock(), o) == 0
  {
  }
}
