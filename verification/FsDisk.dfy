/** The on-disk format of xv6/fs.h: superblock, inode blocks, bitmap blocks, data blocks.

    A disk is a sequence of blocks of bytes.  bread and bwrite are reading and replacing
    one block of it; module Bio justifies that view.
 */
module FsDisk {
  import opened FsBytes

  const NDIRECT: nat := 12
  const INDIRECT: nat := 12
  const NINDIRECT: nat := 128
  const MAXFILE: nat := 140
  const NADDRS: nat := 13
  const DINODE: nat := 64   // sizeof(struct dinode)
  const IPB: nat := 8       // BSIZE / sizeof(struct dinode)
  const BPB: nat := 4096    // BSIZE * 8

  const T_DIR: nat := 1
  const T_FILE: nat := 2
  const T_DEV: nat := 3

  type Disk = seq<Block>

  datatype Superblock = Superblock(size: nat, nblocks: nat, ninodes: nat)

  datatype DInode = DInode(typ: nat, major: nat, minor: nat, nlink: nat, size: nat, addrs: seq<nat>)

  function IBlock(i: nat): nat { i / IPB + 2 }

  function BBlock(b: nat, ninodes: nat): nat { b / BPB + ninodes / IPB + 3 }

  /** First data block, as mkfs computes it. */
  function DataStart(g: Superblock): nat { g.ninodes / IPB + 3 + (g.size / BPB + 1) }

  function ReadSb(disk: Disk): Superblock
    requires 1 < |disk|
  {
    Superblock(U32(disk[1], 0), U32(disk[1], 4), U32(disk[1], 8))
  }

  /** The disk has the shape its superblock g describes. */
  ghost predicate Geometry(g: Superblock, disk: Disk) {
    |disk| == g.size && DataStart(g) <= g.size && 1 < g.ninodes && ReadSb(disk) == g
  }

  // Inodes on disk

  ghost predicate Fits(d: DInode) {
    && d.typ < LIMIT16 && d.major < LIMIT16 && d.minor < LIMIT16 && d.nlink < LIMIT16 && d.size < LIMIT32
    && |d.addrs| == NADDRS
    && forall k :: 0 <= k < NADDRS ==> d.addrs[k] < LIMIT32
  }

  function DecodeInode(s: seq<byte>): (d: DInode)
    requires |s| == DINODE
    ensures Fits(d)
  {
    DInode(U16(s, 0), U16(s, 2), U16(s, 4), U16(s, 6), U32(s, 8),
           seq(NADDRS, k requires 0 <= k < NADDRS => U32(s, 12 + 4 * k)))
  }

  function EncodeInode(d: DInode): (s: seq<byte>)
    requires |d.addrs| == NADDRS
    ensures |s| == DINODE
  {
    E16(d.typ) + E16(d.major) + E16(d.minor) + E16(d.nlink) + E32(d.size) + EncodeAddrs(d.addrs)
  }

  function EncodeAddrs(a: seq<nat>): (s: seq<byte>)
    ensures |s| == 4 * |a|
    ensures forall k :: 0 <= k < |a| && a[k] < LIMIT32 ==> U32(s, 4 * k) == a[k]
  {
    if a == [] then []
    else
      var h, t := E32(a[0]), EncodeAddrs(a[1..]);
      assert forall k :: 1 <= k < |a| && a[k] < LIMIT32 ==> U32(h + t, 4 * k) == a[k] by {
        forall k | 1 <= k < |a| && a[k] < LIMIT32 ensures U32(h + t, 4 * k) == a[k] {
          assert a[1..][k - 1] == a[k];
          assert (h + t)[4 * k..4 * k + 4] == t[4 * (k - 1)..4 * (k - 1) + 4];
          SameWord(h + t, 4 * k, t, 4 * (k - 1));
        }
      }
      assert (h + t)[0..4] == h[0..4];
      SameWord(h + t, 0, h, 0);
      h + t
  }

  /** What iupdate stores is what ilock loads. */
  lemma InodeRoundTrip(d: DInode)
    requires Fits(d)
    ensures DecodeInode(EncodeInode(d)) == d
  {
    var s := EncodeInode(d);
    var a := EncodeAddrs(d.addrs);
    HeaderRoundTrip(d);
    var e := DecodeInode(s);
    forall k | 0 <= k < NADDRS ensures e.addrs[k] == d.addrs[k] {
      assert s[12 + 4 * k..12 + 4 * k + 4] == a[4 * k..4 * k + 4];
      SameWord(s, 12 + 4 * k, a, 4 * k);
    }
    assert e.addrs == d.addrs;
  }

  lemma HeaderRoundTrip(d: DInode)
    requires Fits(d)
    ensures var s := EncodeInode(d);
            && U16(s, 0) == d.typ && U16(s, 2) == d.major && U16(s, 4) == d.minor
            && U16(s, 6) == d.nlink && U32(s, 8) == d.size
  {
    var s := EncodeInode(d);
    assert s[0] == E16(d.typ)[0] && s[1] == E16(d.typ)[1];
    assert s[2] == E16(d.major)[0] && s[3] == E16(d.major)[1];
    assert s[4] == E16(d.minor)[0] && s[5] == E16(d.minor)[1];
    assert s[6] == E16(d.nlink)[0] && s[7] == E16(d.nlink)[1];
    assert s[8..12] == E32(d.size)[0..4];
    SameWord(s, 8, E32(d.size), 0);
  }

  /** Inode i as the disk holds it. */
  function InodeOn(disk: Disk, i: nat): (d: DInode)
    requires IBlock(i) < |disk|
    ensures Fits(d)
  {
    var o := i % IPB * DINODE;
    DecodeInode(disk[IBlock(i)][o..o + DINODE])
  }

  /** The disk after iupdate of inode i. */
  function PutInode(disk: Disk, i: nat, d: DInode): (r: Disk)
    requires IBlock(i) < |disk| && |d.addrs| == NADDRS
    ensures |r| == |disk|
    ensures forall b :: 0 <= b < |disk| && b != IBlock(i) ==> r[b] == disk[b]
  {
    disk[IBlock(i) := Splice(disk[IBlock(i)], i % IPB * DINODE, EncodeInode(d))]
  }

  lemma PutInodeReads(disk: Disk, i: nat, d: DInode, j: nat)
    requires IBlock(i) < |disk| && IBlock(j) < |disk| && Fits(d)
    ensures InodeOn(PutInode(disk, i, d), j) == if i == j then d else InodeOn(disk, j)
  {
    var r := PutInode(disk, i, d);
    var o, p := i % IPB * DINODE, j % IPB * DINODE;
    if i == j {
      assert r[IBlock(i)][o..o + DINODE] == EncodeInode(d);
      InodeRoundTrip(d);
    } else if IBlock(i) == IBlock(j) {
      assert p + DINODE <= o || o + DINODE <= p;
      assert r[IBlock(j)][p..p + DINODE] == disk[IBlock(j)][p..p + DINODE];
    }
  }

  // The block bitmap

  /** Block b is marked in use. */
  predicate Marked(g: Superblock, disk: Disk, b: nat) {
    BBlock(b, g.ninodes) < |disk| && TestBit(disk[BBlock(b, g.ninodes)][b % BPB / 8], b % 8)
  }

  function Mark(g: Superblock, disk: Disk, b: nat): (r: Disk)
    requires BBlock(b, g.ninodes) < |disk|
    ensures |r| == |disk|
    ensures forall c :: 0 <= c < |disk| && c != BBlock(b, g.ninodes) ==> r[c] == disk[c]
  {
    var bb, k := BBlock(b, g.ninodes), b % BPB / 8;
    ByteBits(disk[bb][k], b % 8);
    disk[bb := disk[bb][k := SetBit(disk[bb][k], b % 8)]]
  }

  function Unmark(g: Superblock, disk: Disk, b: nat): (r: Disk)
    requires BBlock(b, g.ninodes) < |disk|
    ensures |r| == |disk|
    ensures forall c :: 0 <= c < |disk| && c != BBlock(b, g.ninodes) ==> r[c] == disk[c]
  {
    var bb, k := BBlock(b, g.ninodes), b % BPB / 8;
    ByteBits(disk[bb][k], b % 8);
    disk[bb := disk[bb][k := ClearBit(disk[bb][k], b % 8)]]
  }

  lemma MarkReads(g: Superblock, disk: Disk, b: nat, c: nat)
    requires BBlock(b, g.ninodes) < |disk| && BBlock(c, g.ninodes) < |disk|
    ensures Marked(g, Mark(g, disk, b), c) <==> c == b || Marked(g, disk, c)
    ensures Marked(g, Unmark(g, disk, b), c) <==> c != b && Marked(g, disk, c)
  {
    SameBit(g, b, c);
    BitOps(disk[BBlock(b, g.ninodes)][b % BPB / 8], b % 8, c % 8);
  }

  /** Distinct blocks have distinct bits. */
  lemma SameBit(g: Superblock, b: nat, c: nat)
    ensures BBlock(b, g.ninodes) == BBlock(c, g.ninodes) && b % BPB / 8 == c % BPB / 8 && b % 8 == c % 8 <==> b == c
  {
    assert b % 8 == b % BPB % 8 && c % 8 == c % BPB % 8;
  }

  /** Where the parts of the disk lie. */
  lemma Regions(g: Superblock, disk: Disk)
    requires Geometry(g, disk)
    ensures forall i :: 0 <= i < g.ninodes ==> 1 < IBlock(i) < g.ninodes / IPB + 3
    ensures forall b :: 0 <= b < g.size ==>
              g.ninodes / IPB + 3 <= BBlock(b, g.ninodes) < DataStart(g) <= |disk|
  {
  }
}
