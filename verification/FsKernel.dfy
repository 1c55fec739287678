/** The in-core side of xv6/fs.c: block allocation, the inode cache, reading and writing files.

    `disk` is what bread and bwrite see.  `icache` is icache.inode[].  The ghost table `ino`
    holds every inode as the kernel sees it: the cached copy where there is a valid one,
    else the copy on disk.
 */
module FsKernel {
  import opened FsBytes
  import opened FsDisk
  import opened FsFiles
  import opened FsTrunc

  const NINODE: nat := 50

  /** struct inode; d is its copy of the disk inode. */
  datatype Inode = Inode(inum: nat, ref: nat, busy: bool, valid: bool, d: DInode)

  type Cache = seq<Inode>

  ghost predicate HoldsDirty(c: Inode, i: nat) {
    0 < c.ref && c.valid && c.busy && c.inum == i
  }

  /** The cache, the disk and the table agree; only a locked inode may be ahead of the disk. */
  ghost predicate Coherent(g: Superblock, disk: Disk, ic: Cache, ino: Table)
  {
    && Geometry(g, disk) && |ic| == NINODE && |ino| == g.ninodes
    && (forall s :: 0 <= s < NINODE && 0 < ic[s].ref ==>
          0 < ic[s].inum < g.ninodes && ino[ic[s].inum].typ != 0 && (ic[s].valid ==> ic[s].d == ino[ic[s].inum]))
    && (forall s, t :: 0 <= s < NINODE && 0 <= t < NINODE && 0 < ic[s].ref && 0 < ic[t].ref && s != t ==>
          ic[s].inum != ic[t].inum)
    && (forall i :: 0 <= i < g.ninodes ==>
          (InodeOn(disk, i) == ino[i] || exists s :: 0 <= s < NINODE && HoldsDirty(ic[s], i)))
    && (forall i :: 0 <= i < g.ninodes ==> InodeOn(disk, i).typ == ino[i].typ)
  }

  /** A free inode has no blocks. */
  ghost predicate FreeEmpty(ino: Table) {
    forall i :: 0 <= i < |ino| && ino[i].typ == 0 ==> ino[i].size == 0
  }

  ghost predicate KernelInv(g: Superblock, disk: Disk, ic: Cache, ino: Table) {
    FsInv(g, disk, ino) && Coherent(g, disk, ic, ino) && FreeEmpty(ino)
  }

  /** Slot s holds a locked inode. */
  ghost predicate Locked(ic: Cache, s: nat) {
    s < |ic| && 0 < ic[s].ref && ic[s].busy && ic[s].valid
  }

  // The bitmap scan

  lemma BitAddress(g: Superblock, base: nat, bi: nat)
    requires base % BPB == 0 && bi < BPB
    ensures BBlock(base + bi, g.ninodes) == BBlock(base, g.ninodes)
    ensures (base + bi) % BPB == bi && (base + bi) % 8 == bi % 8
  {
    BitMod(base / BPB, bi);
  }

  /** Bit bi of the bitmap block for base is the bit of block base + bi. */
  lemma BitIs(g: Superblock, disk: Disk, base: nat, bi: nat)
    requires Geometry(g, disk) && base % BPB == 0 && base < g.size && bi < BPB
    ensures BBlock(base, g.ninodes) < |disk| && BBlock(base + bi, g.ninodes) == BBlock(base, g.ninodes)
    ensures var x := disk[BBlock(base, g.ninodes)][bi / 8];
            && (Marked(g, disk, base + bi) <==> TestBit(x, bi % 8)) && 0 <= SetBit(x, bi % 8) < 256
            && Mark(g, disk, base + bi) ==
                 disk[BBlock(base, g.ninodes) := disk[BBlock(base, g.ninodes)][bi / 8 := SetBit(x, bi % 8)]]
  {
    Regions(g, disk);
    BitAddress(g, base, bi);
    ByteBits(disk[BBlock(base, g.ninodes)][bi / 8], bi % 8);
    hide TestBit, SetBit;
  }

  lemma BitMod(q: nat, bi: nat)
    requires bi < BPB
    ensures (BPB * q + bi) / BPB == q && (BPB * q + bi) % BPB == bi && (BPB * q + bi) % 8 == bi % 8
  {
    assert BPB * q + bi == 8 * (512 * q) + bi;
  }

  /** A locked inode may change in the cache alone. */
  lemma CoherentStep(g: Superblock, disk: Disk, ic: Cache, ino: Table, disk2: Disk, s: nat, d: DInode)
    requires Geometry(g, disk) && Geometry(g, disk2) && Coherent(g, disk, ic, ino) && Locked(ic, s)
    requires forall c :: 0 <= c < g.ninodes / IPB + 3 ==> At(disk2, c) == At(disk, c)
    requires d.typ == ino[ic[s].inum].typ
    ensures Coherent(g, disk2, ic[s := ic[s].(d := d)], ino[ic[s].inum := d])
  {
    var ic2, ino2 := ic[s := ic[s].(d := d)], ino[ic[s].inum := d];
    Regions(g, disk);
    forall i | 0 <= i < g.ninodes
      ensures InodeOn(disk2, i) == ino2[i] || exists t :: 0 <= t < NINODE && HoldsDirty(ic2[t], i)
      ensures InodeOn(disk2, i).typ == ino2[i].typ
    {
      assert At(disk2, IBlock(i)) == At(disk, IBlock(i));
      if i == ic[s].inum {
        assert HoldsDirty(ic2[s], i);
      } else if InodeOn(disk, i) != ino[i] {
        var t :| 0 <= t < NINODE && HoldsDirty(ic[t], i);
        assert HoldsDirty(ic2[t], i);
      }
    }
  }

  /** After iupdate the disk has caught up with inode i0. */
  lemma CoherentPut(g: Superblock, disk: Disk, ic: Cache, ino: Table, i0: nat)
    requires Geometry(g, disk) && Coherent(g, disk, ic, ino) && TableOk(g, ino) && i0 < g.ninodes
    requires IBlock(i0) < |disk| && Geometry(g, PutInode(disk, i0, ino[i0]))
    ensures Coherent(g, PutInode(disk, i0, ino[i0]), ic, ino)
    ensures InodeOn(PutInode(disk, i0, ino[i0]), i0) == ino[i0]
  {
    Regions(g, disk);
    var disk2 := PutInode(disk, i0, ino[i0]);
    forall i | 0 <= i < g.ninodes
      ensures InodeOn(disk2, i) == if i == i0 then ino[i0] else InodeOn(disk, i)
    {
      PutInodeReads(disk, i0, ino[i0], i);
    }
  }

  /** bmap found or made block bn of the inode in slot s, returned a, and did nothing else. */
  ghost predicate BmapDone(g: Superblock, disk1: Disk, ic1: Cache, ino1: Table, disk2: Disk, ic2: Cache, ino2: Table,
                           s: nat, bn: nat, a: nat)
  {
    && Locked(ic1, s) && s < |ic2|
    && Bmapped(g, disk1, ino1, disk2, ino2, ic1[s].inum, bn, a)
    && Coherent(g, disk2, ic2, ino2)
    && ic2 == ic1[s := ic1[s].(d := ic2[s].d)]
    && ic2[s].d == ino2[ic1[s].inum]
  }

  lemma BmapHitDone(g: Superblock, disk: Disk, ic: Cache, ino: Table, s: nat, bn: nat)
    requires AllocInv(g, disk, ino) && Coherent(g, disk, ic, ino) && Locked(ic, s) && bn < MAXFILE
    requires Ptr(disk, ino[ic[s].inum], DataPtr(bn)) != 0
    ensures BmapDone(g, disk, ic, ino, disk, ic, ino, s, bn, Ptr(disk, ino[ic[s].inum], DataPtr(bn)))
  {
    BmapHit(g, disk, ino, ic[s].inum, bn);
    assert ic == ic[s := ic[s].(d := ic[s].d)];
  }

  lemma BmapDirectDone(g: Superblock, disk: Disk, ic: Cache, ino: Table, s: nat, bn: nat, b: nat)
    requires AllocInv(g, disk, ino) && Coherent(g, disk, ic, ino) && Locked(ic, s) && bn < NDIRECT
    requires ino[ic[s].inum].addrs[bn] == 0 && Data(g, b) && !Marked(g, disk, b)
    ensures |ic[s].d.addrs| == NADDRS
    ensures BmapDone(g, disk, ic, ino, Mark(g, disk, b),
                     ic[s := ic[s].(d := ic[s].d.(addrs := ic[s].d.addrs[bn := b]))],
                     SetAddr(ino, ic[s].inum, bn, b), s, bn, b)
  {
    var i := ic[s].inum;
    BmapDirect(g, disk, ino, i, bn, b);
    CoherentStep(g, disk, ic, ino, Mark(g, disk, b), s, SetAddr(ino, i, bn, b)[i]);
  }

  lemma BmapEntryDone(g: Superblock, disk: Disk, ic: Cache, ino: Table, s: nat, bn: nat, b: nat)
    requires AllocInv(g, disk, ino) && Coherent(g, disk, ic, ino) && Locked(ic, s) && NDIRECT <= bn < MAXFILE
    requires ino[ic[s].inum].addrs[INDIRECT] != 0 && Ptr(disk, ino[ic[s].inum], DataPtr(bn)) == 0
    requires Data(g, b) && !Marked(g, disk, b)
    ensures Data(g, ino[ic[s].inum].addrs[INDIRECT])
    ensures BmapDone(g, disk, ic, ino, PutEntry(g, disk, ino[ic[s].inum].addrs[INDIRECT], bn - NDIRECT, b), ic, ino,
                     s, bn, b)
  {
    var i := ic[s].inum;
    BmapEntry(g, disk, ino, i, bn, b);
    assert ic == ic[s := ic[s].(d := ic[s].d)] && ino[i := ino[i]] == ino;
    CoherentStep(g, disk, ic, ino, PutEntry(g, disk, ino[i].addrs[INDIRECT], bn - NDIRECT, b), s, ino[i]);
  }

  /** A block taken to be the indirect block of the inode in slot s. */
  lemma GivenIndirect(g: Superblock, disk: Disk, ic: Cache, ino: Table, s: nat, x: nat)
    requires AllocInv(g, disk, ino) && Coherent(g, disk, ic, ino) && Locked(ic, s) && ic[s].d.addrs[INDIRECT] == 0
    requires Data(g, x) && !Marked(g, disk, x) && |ic[s].d.addrs| == NADDRS
    ensures ic[s].inum < |ino| && x < LIMIT32 && AllocInv(g, Mark(g, disk, x), SetAddr(ino, ic[s].inum, INDIRECT, x))
    ensures Coherent(g, Mark(g, disk, x), ic[s := ic[s].(d := ic[s].d.(addrs := ic[s].d.addrs[INDIRECT := x]))],
                     SetAddr(ino, ic[s].inum, INDIRECT, x))
  {
    var i := ic[s].inum;
    AddAddr(g, disk, ino, i, INDIRECT, x);
    MarkFrame(g, disk, x);
    CoherentStep(g, disk, ic, ino, Mark(g, disk, x), s, SetAddr(ino, i, INDIRECT, x)[i]);
  }

  lemma EntryIs(disk: Disk, d: DInode, bn: nat)
    requires |d.addrs| == NADDRS && NDIRECT <= bn < MAXFILE && 0 < d.addrs[INDIRECT] < |disk|
    ensures Ptr(disk, d, DataPtr(bn)) == U32(disk[d.addrs[INDIRECT]], 4 * (bn - NDIRECT))
  {
  }

  lemma IndirectFacts(g: Superblock, disk: Disk, ic: Cache, ino: Table, s: nat)
    requires AllocInv(g, disk, ino) && Coherent(g, disk, ic, ino) && Locked(ic, s)
    ensures ic[s].inum < |ino| && ic[s].d == ino[ic[s].inum] && |ic[s].d.addrs| == NADDRS
  {
  }

  ghost predicate SameInodeArea(g: Superblock, disk1: Disk, disk2: Disk) {
    forall c :: 0 <= c < g.ninodes / IPB + 3 ==> At(disk2, c) == At(disk1, c)
  }

  lemma SameAreaRefl(g: Superblock, disk: Disk)
    ensures SameInodeArea(g, disk, disk)
  {
  }

  lemma SameAreaTrans(g: Superblock, disk1: Disk, disk2: Disk, disk3: Disk)
    requires SameInodeArea(g, disk1, disk2) && SameInodeArea(g, disk2, disk3)
    ensures SameInodeArea(g, disk1, disk3)
  {
  }

  /** Within writei: t has been written at off, but the size of the file has not been set yet. */
  ghost predicate Writing(g: Superblock, files: seq<seq<byte>>, ino0: Table, disk: Disk, ino: Table,
                          i: nat, off: nat, t: seq<byte>)
  {
    && |files| == |ino0| == |ino| && i < |ino0| && off <= |files[i]|
    && ino == ino0[i := ino0[i].(addrs := ino[i].addrs)]
    && Holds(g, disk, Grow(ino, i, off + |t|), files[i := Written(files[i], off, t)])
    && (off + |t| <= ino0[i].size ==> ino == ino0)
  }

  lemma WritingStarts(g: Superblock, files: seq<seq<byte>>, disk: Disk, ino: Table, i: nat, off: nat)
    requires Holds(g, disk, ino, files) && i < |ino| && off <= ino[i].size
    ensures Writing(g, files, ino, disk, ino, i, off, [])
  {
    assert Grow(ino, i, off) == ino && ino == ino[i := ino[i].(addrs := ino[i].addrs)];
    assert Content(disk, ino[i]) == files[i];
    assert Written(files[i], off, []) == files[i];
    assert files[i := files[i]] == files;
  }

  /** One turn of the loop. */
  lemma WritingStep(g: Superblock, files: seq<seq<byte>>, ino0: Table, disk1: Disk, ino1: Table, disk2: Disk, ino2: Table,
                    i: nat, off: nat, t: seq<byte>, p: seq<byte>, a: nat)
    requires Writing(g, files, ino0, disk1, ino1, i, off, t)
    requires Bmapped(g, disk1, ino1, disk2, ino2, i, (off + |t|) / BSIZE, a)
    requires 0 < |p| && (off + |t|) % BSIZE + |p| <= BSIZE && off + |t| + |p| <= MAXFILE * BSIZE
    ensures Writing(g, files, ino0, PutBytes(disk2, a, (off + |t|) % BSIZE, p), ino2, i, off, t + p)
  {
    hide Bmapped, AllocInv, FileOk, Written;
    var o := off + |t|;
    BmappedAddr(g, disk1, ino1, disk2, ino2, i, o / BSIZE, a);
    WritingTable(g, files, ino0, disk1, ino1, disk2, ino2, i, off, t, p, a);
    WritingChunk(g, files, ino0, disk1, ino1, disk2, ino2, i, off, t, p, a);
    WrittenTwice(files[i], off, t, p);
    var h2 := Grow(ino2, i, o);
    var files1 := files[i := Written(files[i], off, t)];
    assert files1[i := Written(files1[i], o, p)] == files[i := Written(files[i], off, t + p)];
    assert Grow(h2, i, o + |p|) == Grow(ino2, i, off + |t + p|);
    hide Holds;
  }

  lemma BmappedAddr(g: Superblock, disk1: Disk, ino1: Table, disk2: Disk, ino2: Table, i: nat, n: nat, a: nat)
    requires Bmapped(g, disk1, ino1, disk2, ino2, i, n, a)
    ensures a < |disk2| && i < |ino1| == |ino2| && ino2[i].size == ino1[i].size
  {
  }

  /** The turn is a write of its own to the file as grown so far. */
  lemma WritingChunk(g: Superblock, files: seq<seq<byte>>, ino0: Table, disk1: Disk, ino1: Table, disk2: Disk, ino2: Table,
                     i: nat, off: nat, t: seq<byte>, p: seq<byte>, a: nat)
    requires Writing(g, files, ino0, disk1, ino1, i, off, t)
    requires Bmapped(g, disk1, ino1, disk2, ino2, i, (off + |t|) / BSIZE, a)
    requires 0 < |p| && (off + |t|) % BSIZE + |p| <= BSIZE && off + |t| + |p| <= MAXFILE * BSIZE
    ensures a < |disk2| && i < |ino2| && i < |files| && off <= |files[i]|
    ensures var o := off + |t|;
            var files1 := files[i := Written(files[i], off, t)];
            && o <= |files1[i]|
            && Holds(g, PutBytes(disk2, a, o % BSIZE, p), Grow(Grow(ino2, i, o), i, o + |p|),
                     files1[i := Written(files1[i], o, p)])
  {
    hide Bmapped, AllocInv, NoHoles, ZeroTail, Content, Written, PutBytes;
    var o := off + |t|;
    BmappedAddr(g, disk1, ino1, disk2, ino2, i, o / BSIZE, a);
    var h1, h2 := Grow(ino1, i, o), Grow(ino2, i, o);
    BmappedGrow(g, disk1, ino1, disk2, ino2, i, o / BSIZE, a, o);
    ChunkHolds(g, disk1, h1, disk2, h2, i, o, p, a, files[i := Written(files[i], off, t)]);
  }

  lemma WritingTable(g: Superblock, files: seq<seq<byte>>, ino0: Table, disk1: Disk, ino1: Table, disk2: Disk, ino2: Table,
                     i: nat, off: nat, t: seq<byte>, p: seq<byte>, a: nat)
    requires Writing(g, files, ino0, disk1, ino1, i, off, t)
    requires Bmapped(g, disk1, ino1, disk2, ino2, i, (off + |t|) / BSIZE, a) && 0 < |p|
    ensures ino2 == ino0[i := ino0[i].(addrs := ino2[i].addrs)]
    ensures off + |t| + |p| <= ino0[i].size ==> ino2 == ino0
  {
    var o := off + |t|;
    if o + |p| <= ino0[i].size {
      assert FileOk(disk1, Grow(ino1, i, o)[i]);
      assert o / BSIZE < NBlocks(ino0[i].size);
      assert Ptr(disk1, ino1[i], DataPtr(o / BSIZE)) == Ptr(disk1, Grow(ino1, i, o)[i], DataPtr(o / BSIZE)) != 0;
    }
  }

  lemma WritingAlloc(g: Superblock, files: seq<seq<byte>>, ino0: Table, disk: Disk, ino: Table, i: nat, off: nat, t: seq<byte>)
    requires Writing(g, files, ino0, disk, ino, i, off, t) && ino0[i].size < LIMIT32
    ensures AllocInv(g, disk, ino)
  {
    var h := Grow(ino, i, off + |t|);
    assert Fits(h[i]);
    SetMetaKeepsAllocInv(g, disk, h, i, ino[i]);
    assert h[i := ino[i]] == ino;
  }

  lemma PutBytesCoherent(g: Superblock, disk: Disk, ic: Cache, ino: Table, s: nat, a: nat, o: nat, p: seq<byte>)
    requires AllocInv(g, disk, ino) && Coherent(g, disk, ic, ino) && Locked(ic, s) && Data(g, a)
    requires o + |p| <= BSIZE
    ensures Coherent(g, PutBytes(disk, a, o, p), ic, ino) && SameInodeArea(g, disk, PutBytes(disk, a, o, p))
  {
    SetBlockFrame(g, disk, a, Splice(disk[a], o, p));
    var i := ic[s].inum;
    CoherentStep(g, disk, ic, ino, PutBytes(disk, a, o, p), s, ino[i]);
    assert ic[s := ic[s].(d := ino[i])] == ic && ino[i := ino[i]] == ino;
  }

  lemma WritePartDone(g: Superblock, files: seq<seq<byte>>, ino0: Table, disk1: Disk, ic1: Cache, ino1: Table,
                      disk2: Disk, ic2: Cache, ino2: Table, s: nat, off: nat, t: seq<byte>, p: seq<byte>, a: nat)
    requires Locked(ic1, s) && Writing(g, files, ino0, disk1, ino1, ic1[s].inum, off, t)
    requires BmapDone(g, disk1, ic1, ino1, disk2, ic2, ino2, s, (off + |t|) / BSIZE, a)
    requires 0 < |p| && (off + |t|) % BSIZE + |p| <= BSIZE && off + |t| + |p| <= MAXFILE * BSIZE
    ensures a < |disk2| && s < |ic2| && Locked(ic2, s) && ic2 == ic1[s := ic1[s].(d := ic2[s].d)]
    ensures var disk3 := PutBytes(disk2, a, (off + |t|) % BSIZE, p);
            && Coherent(g, disk3, ic2, ino2) && SameInodeArea(g, disk1, disk3)
            && Writing(g, files, ino0, disk3, ino2, ic1[s].inum, off, t + p)
  {
    WritingStep(g, files, ino0, disk1, ino1, disk2, ino2, ic1[s].inum, off, t, p, a);
    PutBytesCoherent(g, disk2, ic2, ino2, s, a, (off + |t|) % BSIZE, p);
  }

  /** What a completed writei leaves behind, besides the bytes: one inode changed, kept in step with the disk. */
  ghost predicate OnlySlot(disk0: Disk, ic0: Cache, ino0: Table, disk: Disk, ic: Cache, ino: Table, s: nat)
  {
    && s < |ic0| && |ino| == |ino0|
    && var i := ic0[s].inum;
    && i < |ino0| && IBlock(i) < |disk0| && IBlock(i) < |disk|
    && ino == ino0[i := ino0[i].(size := ino[i].size, addrs := ino[i].addrs)]
    && ic == ic0[s := ic0[s].(d := ino[i])]
    && (InodeOn(disk0, i) == ino0[i] ==> InodeOn(disk, i) == ino[i])
    && OthersOnDisk(disk0, disk, |ino0|, i)
  }

  /** The other inodes are on disk as they were. */
  ghost predicate OthersOnDisk(disk0: Disk, disk: Disk, n: nat, i: nat) {
    forall j :: 0 <= j < n && j != i ==>
      IBlock(j) < |disk0| && IBlock(j) < |disk| && InodeOn(disk, j) == InodeOn(disk0, j)
  }

  lemma AreaOthers(g: Superblock, disk0: Disk, disk: Disk, i: nat, d: DInode)
    requires Geometry(g, disk0) && Geometry(g, disk) && SameInodeArea(g, disk0, disk) && i < g.ninodes && Fits(d)
    ensures IBlock(i) < |disk| && OthersOnDisk(disk0, disk, g.ninodes, i)
    ensures OthersOnDisk(disk0, PutInode(disk, i, d), g.ninodes, i)
  {
    Regions(g, disk0);
    forall j | 0 <= j < g.ninodes && j != i
      ensures InodeOn(disk, j) == InodeOn(disk0, j) == InodeOn(PutInode(disk, i, d), j)
    {
      assert At(disk, IBlock(j)) == At(disk0, IBlock(j));
      PutInodeReads(disk, i, d, j);
    }
  }

  lemma WritingFacts(g: Superblock, files: seq<seq<byte>>, disk0: Disk, ic0: Cache, ino0: Table,
                     disk: Disk, ic: Cache, ino: Table, s: nat, off: nat, t: seq<byte>)
    requires Coherent(g, disk, ic, ino) && Locked(ic0, s) && Locked(ic, s)
    requires ic == ic0[s := ic0[s].(d := ic[s].d)] && FreeEmpty(ino0)
    requires Writing(g, files, ino0, disk, ino, ic0[s].inum, off, t)
    ensures |ino| == |ino0| && ic0[s].inum < |ino| && ic[s].d == ino[ic0[s].inum] && |ic[s].d.addrs| == NADDRS
    ensures ino[ic0[s].inum].size == ino0[ic0[s].inum].size && (off + |t| <= ino0[ic0[s].inum].size ==> ino == ino0)
    ensures FreeEmpty(ino)
  {
    assert Fits(Grow(ino, ic0[s].inum, off + |t|)[ic0[s].inum]);
  }

  /** A write inside the file needs no new size and no new block. */
  lemma WriteNoGrowth(g: Superblock, files: seq<seq<byte>>, disk0: Disk, ic0: Cache, ino0: Table,
                      disk: Disk, ic: Cache, ino: Table, s: nat, off: nat, t: seq<byte>)
    requires Coherent(g, disk0, ic0, ino0) && Coherent(g, disk, ic, ino) && Locked(ic0, s)
    requires ic == ic0[s := ic0[s].(d := ino[ic0[s].inum])] && SameInodeArea(g, disk0, disk)
    requires Writing(g, files, ino0, disk, ino, ic0[s].inum, off, t) && off + |t| <= ino0[ic0[s].inum].size
    ensures |files| == |ino| && ic0[s].inum < |files| && off <= |files[ic0[s].inum]|
    ensures Holds(g, disk, ino, files[ic0[s].inum := Written(files[ic0[s].inum], off, t)])
    ensures OnlySlot(disk0, ic0, ino0, disk, ic, ino, s)
  {
    var i := ic0[s].inum;
    assert Grow(ino, i, off + |t|) == ino;
    Regions(g, disk0);
    assert At(disk, IBlock(i)) == At(disk0, IBlock(i));
    AreaOthers(g, disk0, disk, i, ino[i]);
    hide OthersOnDisk, SameInodeArea;
    assert ino0 == ino0[i := ino0[i].(size := ino[i].size, addrs := ino[i].addrs)];
  }

  /** A write past the end: the size is set and the inode goes to disk. */
  lemma WriteGrowth(g: Superblock, files: seq<seq<byte>>, disk0: Disk, ic0: Cache, ino0: Table,
                    disk: Disk, ic: Cache, ino: Table, s: nat, off: nat, t: seq<byte>)
    requires Coherent(g, disk0, ic0, ino0) && Coherent(g, disk, ic, ino) && Locked(ic0, s) && Locked(ic, s)
    requires ic == ic0[s := ic0[s].(d := ino[ic0[s].inum])] && FreeEmpty(ino0) && SameInodeArea(g, disk0, disk)
    requires Writing(g, files, ino0, disk, ino, ic0[s].inum, off, t)
    ensures IBlock(ic0[s].inum) < |disk|
    ensures var i := ic0[s].inum;
            var ino2 := Grow(ino, i, off + |t|);
            var disk2, ic2 := PutInode(disk, i, ino2[i]), ic[s := ic[s].(d := ino2[i])];
            && Holds(g, disk2, ino2, files[i := Written(files[i], off, t)])
            && Coherent(g, disk2, ic2, ino2) && FreeEmpty(ino2)
            && OnlySlot(disk0, ic0, ino0, disk2, ic2, ino2, s)
  {
    hide OthersOnDisk, SameInodeArea, Written, FilesOk, Content, Marked, Ptr;
    var i := ic0[s].inum;
    var ino2 := Grow(ino, i, off + |t|);
    var ic2 := ic[s := ic[s].(d := ino2[i])];
    AreaOthers(g, disk0, disk, i, ino2[i]);
    CoherentStep(g, disk, ic, ino, disk, s, ino2[i]);
    PutInodeKeepsFsInv(g, disk, ino2, i, ino2[i]);
    CoherentPut(g, disk, ic2, ino2, i);
  }

  function NoAddrs(): seq<nat> { seq(NADDRS, _ => 0) }

  /** The end of itrunc: the size becomes 0 and the inode goes to disk. */
  lemma TruncDone(g: Superblock, disk0: Disk, ic0: Cache, ino0: Table, disk: Disk, ino: Table, s: nat, files: seq<seq<byte>>)
    requires Coherent(g, disk0, ic0, ino0) && FreeEmpty(ino0) && Locked(ic0, s) && Holds(g, disk0, ino0, files)
    requires Truncating(g, disk0, ino0, disk, ino, ic0[s].inum, NPTRS)
    ensures |ino| == |ino0| && ic0[s].inum < |ino| && IBlock(ic0[s].inum) < |disk|
    ensures |ino[ic0[s].inum].addrs| == NADDRS
    ensures var i := ic0[s].inum;
            var d2 := ino[i].(size := 0);
            var disk2, ic2, ino2 := PutInode(disk, i, d2), ic0[s := ic0[s].(d := d2)], ino[i := d2];
            && Coherent(g, disk2, ic2, ino2) && FreeEmpty(ino2) && Holds(g, disk2, ino2, files[i := []])
            && ino2 == ino0[i := ino0[i].(size := 0, addrs := NoAddrs())]
            && InodeOn(disk2, i) == d2
            && forall c :: 0 <= c < g.size ==>
                 (Marked(g, disk2, c) <==> Marked(g, disk0, c) && !Freed(disk0, ino0[i], NPTRS, c))
  {
    var i := ic0[s].inum;
    TruncFacts(g, disk0, ino0, disk, ino, i, NPTRS);
    assert ino[i].addrs == NoAddrs();
    var ino2 := ino[i := ino[i].(size := 0)];
    var ic2 := ic0[s := ic0[s].(d := ino2[i])];
    TruncEnds(g, disk0, ino0, disk, ino, i, files);
    assert Coherent(g, disk, ic2, ino2) by {
      CoherentStep(g, disk0, ic0, ino0, disk, s, ino2[i]);
      assert ino2 == ino0[i := ino2[i]];
    }
    PutInodeKeepsFsInv(g, disk, ino2, i, ino2[i]);
    CoherentPut(g, disk, ic2, ino2, i);
  }

  lemma TruncOthers(g: Superblock, disk0: Disk, ic0: Cache, ino0: Table, disk: Disk, ino: Table, s: nat)
    requires Coherent(g, disk0, ic0, ino0) && Locked(ic0, s) && Truncating(g, disk0, ino0, disk, ino, ic0[s].inum, NPTRS)
    ensures |ino| == |ino0| && ic0[s].inum < |ino| && IBlock(ic0[s].inum) < |disk| && Fits(ino[ic0[s].inum].(size := 0))
    ensures OthersOnDisk(disk0, PutInode(disk, ic0[s].inum, ino[ic0[s].inum].(size := 0)), |ino|, ic0[s].inum)
  {
    var i := ic0[s].inum;
    TruncFacts(g, disk0, ino0, disk, ino, i, NPTRS);
    assert SameInodeArea(g, disk0, disk) && Geometry(g, disk);
    hide Truncating, OthersOnDisk, SameInodeArea;
    AreaOthers(g, disk0, disk, i, ino[i].(size := 0));
  }

  lemma OthersTrans(disk0: Disk, disk1: Disk, disk2: Disk, n: nat, i: nat)
    requires OthersOnDisk(disk0, disk1, n, i) && OthersOnDisk(disk1, disk2, n, i)
    ensures OthersOnDisk(disk0, disk2, n, i)
  {
    hide InodeOn, IBlock;
  }

  lemma HoldsFacts(g: Superblock, disk: Disk, ic: Cache, ino: Table, s: nat, files: seq<seq<byte>>)
    requires Coherent(g, disk, ic, ino) && Holds(g, disk, ino, files) && Locked(ic, s)
    ensures AllocInv(g, disk, ino) && FileOk(disk, ino[ic[s].inum]) && |files| == |ino|
    ensures 0 < ic[s].inum < |ino| && ic[s].d == ino[ic[s].inum] && Fits(ic[s].d)
    ensures Content(disk, ic[s].d) == files[ic[s].inum] && |files[ic[s].inum]| == ic[s].d.size
  {
  }

  /** Only a locked inode is ahead of the disk. */
  lemma CleanUnlessBusy(g: Superblock, disk: Disk, ic: Cache, ino: Table, s: nat)
    requires Coherent(g, disk, ic, ino) && s < NINODE && 0 < ic[s].ref && !(ic[s].valid && ic[s].busy)
    ensures InodeOn(disk, ic[s].inum) == ino[ic[s].inum]
  {
    if t :| 0 <= t < NINODE && HoldsDirty(ic[t], ic[s].inum) && t == s {
      assert false;
    }
  }

  /** Changing the bookkeeping of slot s, but neither whose inode it is nor a copy that is ahead of the disk. */
  lemma CoherentSlot(g: Superblock, disk: Disk, ic: Cache, ino: Table, s: nat, c: Inode)
    requires Coherent(g, disk, ic, ino) && s < NINODE
    requires 0 < c.ref ==> 0 < c.inum < g.ninodes && ino[c.inum].typ != 0 && (c.valid ==> c.d == ino[c.inum])
    requires 0 < c.ref ==> forall t :: 0 <= t < NINODE && t != s && 0 < ic[t].ref ==> ic[t].inum != c.inum
    requires 0 < ic[s].ref && ic[s].valid && ic[s].busy ==> InodeOn(disk, ic[s].inum) == ino[ic[s].inum]
    ensures Coherent(g, disk, ic[s := c], ino)
  {
    var ic2 := ic[s := c];
    forall i | 0 <= i < g.ninodes
      ensures InodeOn(disk, i) == ino[i] || exists t :: 0 <= t < NINODE && HoldsDirty(ic2[t], i)
    {
      if InodeOn(disk, i) != ino[i] {
        var t :| 0 <= t < NINODE && HoldsDirty(ic[t], i);
        assert HoldsDirty(ic2[t], i);
      }
    }
  }

  lemma CoherentBusy(g: Superblock, disk: Disk, ic: Cache, ino: Table, s: nat)
    requires Coherent(g, disk, ic, ino) && s < |ic| && 0 < ic[s].ref && !ic[s].busy
    ensures Coherent(g, disk, ic[s := ic[s].(busy := true)], ino)
    ensures ic[s].valid ==> Locked(ic[s := ic[s].(busy := true)], s)
  {
    CoherentSlot(g, disk, ic, ino, s, ic[s].(busy := true));
  }

  lemma CoherentLen(g: Superblock, disk: Disk, ic: Cache, ino: Table)
    requires Coherent(g, disk, ic, ino)
    ensures |ic| == NINODE && |ino| == g.ninodes
  {
  }

  lemma CoherentFresh(g: Superblock, disk: Disk, ic: Cache, ino: Table, s: nat, inum: nat, d: DInode)
    requires Coherent(g, disk, ic, ino) && s < |ic| && ic[s].ref == 0
    requires 0 < inum < |ino| && ino[inum].typ != 0
    requires forall t :: 0 <= t < |ic| ==> !(0 < ic[t].ref && ic[t].inum == inum)
    ensures Coherent(g, disk, ic[s := Inode(inum, 1, false, false, d)], ino)
  {
    CoherentSlot(g, disk, ic, ino, s, Inode(inum, 1, false, false, d));
  }

  /** A free inode reaches no block, so zeroing it and giving it a type changes no file. */
  lemma IallocDone(g: Superblock, disk: Disk, ic: Cache, ino: Table, i: nat, d: DInode, files: seq<seq<byte>>)
    requires Coherent(g, disk, ic, ino) && FreeEmpty(ino) && Holds(g, disk, ino, files)
    requires 0 < i < |ino| && ino[i].typ == 0 && 0 < d.typ < LIMIT16
    requires d == DInode(d.typ, 0, 0, 0, 0, NoAddrs())
    ensures IBlock(i) < |disk| && |files| == |ino| && files[i] == []
    ensures forall t :: 0 <= t < |ic| ==> !(0 < ic[t].ref && ic[t].inum == i)
    ensures SlotOf(ic, i) == NINODE
    ensures var disk2, ino2 := PutInode(disk, i, d), ino[i := d];
            Coherent(g, disk2, ic, ino2) && FreeEmpty(ino2) && Holds(g, disk2, ino2, files) && FsInv(g, disk2, ino2)
  {
    hide Holds, FsInv, AllocInv, Coherent, SlotOf, PutInode;
    IallocNotCached(g, disk, ic, ino, i);
    FreeInode(g, disk, ino, i, files);
    SetInodeHolds(g, disk, ino, files, i, d);
    HoldsFsInv(g, disk, ino[i := d], files);
    PutInodeKeepsFsInv(g, disk, ino[i := d], i, d);
    HoldsFsInv(g, PutInode(disk, i, d), ino[i := d], files);
    IallocCoherent(g, disk, ic, ino, i, d);
  }

  lemma IallocOthers(g: Superblock, disk: Disk, ic: Cache, ino: Table, i: nat, d: DInode)
    requires Coherent(g, disk, ic, ino) && i < |ino| && Fits(d)
    ensures IBlock(i) < |disk| && OthersOnDisk(disk, PutInode(disk, i, d), |ino|, i)
  {
    SameAreaRefl(g, disk);
    AreaOthers(g, disk, disk, i, d);
  }

  lemma IallocNotCached(g: Superblock, disk: Disk, ic: Cache, ino: Table, i: nat)
    requires Coherent(g, disk, ic, ino) && 0 < i < |ino| && ino[i].typ == 0
    ensures forall t :: 0 <= t < |ic| ==> !(0 < ic[t].ref && ic[t].inum == i)
    ensures SlotOf(ic, i) == NINODE
  {
    NoSlot(ic, i);
  }

  lemma FreeInode(g: Superblock, disk: Disk, ino: Table, i: nat, files: seq<seq<byte>>)
    requires FreeEmpty(ino) && Holds(g, disk, ino, files) && i < |ino| && ino[i].typ == 0
    ensures ino[i].addrs == NoAddrs() && ino[i].size == 0 && files[i] == [] && |files| == |ino|
  {
    assert FileOk(disk, ino[i]) && Content(disk, ino[i]) == files[i];
    forall k | 0 <= k < NADDRS ensures ino[i].addrs[k] == 0 {
      assert k < NDIRECT ==> Ptr(disk, ino[i], DataPtr(k)) == ino[i].addrs[k];
    }
  }

  lemma IallocCoherent(g: Superblock, disk: Disk, ic: Cache, ino: Table, i: nat, d: DInode)
    requires Coherent(g, disk, ic, ino) && 0 < i < |ino| && ino[i].typ == 0 && Fits(d) && IBlock(i) < |disk|
    requires AllocInv(g, PutInode(disk, i, d), ino[i := d])
    ensures Coherent(g, PutInode(disk, i, d), ic, ino[i := d])
  {
    hide Owned, Unshared, FreeIsZero, MetaMarked;
    Regions(g, disk);
    forall j | 0 <= j < g.ninodes
      ensures InodeOn(PutInode(disk, i, d), j) == if j == i then d else InodeOn(disk, j)
    {
      PutInodeReads(disk, i, d, j);
    }
  }

  lemma CoherentRef(g: Superblock, disk: Disk, ic: Cache, ino: Table, s: nat, ref: nat)
    requires Coherent(g, disk, ic, ino) && s < |ic| && 0 < ic[s].ref && (ic[s].busy ==> 0 < ref)
    ensures Coherent(g, disk, ic[s := ic[s].(ref := ref)], ino)
  {
    var ic2 := ic[s := ic[s].(ref := ref)];
    forall i | 0 <= i < g.ninodes
      ensures InodeOn(disk, i) == ino[i] || exists t :: 0 <= t < NINODE && HoldsDirty(ic2[t], i)
    {
      if InodeOn(disk, i) != ino[i] {
        var t :| 0 <= t < NINODE && HoldsDirty(ic[t], i);
        assert HoldsDirty(ic2[t], i);
      }
    }
  }

  lemma HoldsFsInv(g: Superblock, disk: Disk, ino: Table, files: seq<seq<byte>>)
    requires Holds(g, disk, ino, files)
    ensures FsInv(g, disk, ino) && AllocInv(g, disk, ino) && |files| == |ino|
  {
  }

  lemma LockedSlot(ic: Cache, s: nat, d: DInode)
    requires Locked(ic, s)
    ensures Locked(ic[s := ic[s].(d := d)], s)
  {
  }

  /** The last step of freeing an inode: its type becomes 0, on disk too, and its slot is given up. */
  lemma IputFrees(g: Superblock, disk: Disk, ic: Cache, ino: Table, s: nat, files: seq<seq<byte>>)
    requires Coherent(g, disk, ic, ino) && FreeEmpty(ino) && Holds(g, disk, ino, files) && Locked(ic, s)
    requires ino[ic[s].inum].size == 0
    ensures IBlock(ic[s].inum) < |disk| && |ino[ic[s].inum].addrs| == NADDRS
    ensures var i := ic[s].inum;
            var d2 := ino[i].(typ := 0);
            var disk2, ic2, ino2 := PutInode(disk, i, d2), ic[s := ic[s].(ref := 0, busy := false, d := d2)], ino[i := d2];
            Coherent(g, disk2, ic2, ino2) && FreeEmpty(ino2) && Holds(g, disk2, ino2, files)
  {
    var i := ic[s].inum;
    var d2 := ino[i].(typ := 0);
    SetInodeHolds(g, disk, ino, files, i, d2);
    PutInodeKeepsFsInv(g, disk, ino[i := d2], i, d2);
    FreedCoherent(g, disk, ic, ino, s);
  }

  lemma FreedOthers(g: Superblock, disk: Disk, ic: Cache, ino: Table, s: nat, files: seq<seq<byte>>)
    requires Coherent(g, disk, ic, ino) && Locked(ic, s) && Holds(g, disk, ino, files)
    ensures ic[s].inum < |ino| && IBlock(ic[s].inum) < |disk|
    ensures OthersOnDisk(disk, PutInode(disk, ic[s].inum, ic[s].d.(typ := 0)), |ino|, ic[s].inum)
  {
    HoldsFacts(g, disk, ic, ino, s, files);
    SameAreaRefl(g, disk);
    hide OthersOnDisk, SameInodeArea, Holds;
    AreaOthers(g, disk, disk, ic[s].inum, ic[s].d.(typ := 0));
  }

  lemma FreedInodes(g: Superblock, disk: Disk, ino: Table, i: nat, d2: DInode, j: nat)
    requires Geometry(g, disk) && TableOk(g, ino) && i < g.ninodes && j < g.ninodes && i < |ino| && d2 == ino[i].(typ := 0)
    ensures IBlock(i) < |disk| && IBlock(j) < |disk|
    ensures InodeOn(PutInode(disk, i, d2), j) == if j == i then d2 else InodeOn(disk, j)
  {
    Regions(g, disk);
    PutInodeReads(disk, i, d2, j);
  }

  lemma FreedCoherent(g: Superblock, disk: Disk, ic: Cache, ino: Table, s: nat)
    requires Coherent(g, disk, ic, ino) && TableOk(g, ino) && Locked(ic, s)
    requires IBlock(ic[s].inum) < |disk| && Geometry(g, PutInode(disk, ic[s].inum, ino[ic[s].inum].(typ := 0)))
    ensures var i := ic[s].inum;
            var d2 := ino[i].(typ := 0);
            Coherent(g, PutInode(disk, i, d2), ic[s := ic[s].(ref := 0, busy := false, d := d2)], ino[i := d2])
  {
    hide InodeOn, PutInode, IBlock, Geometry;
    var i := ic[s].inum;
    var d2 := ino[i].(typ := 0);
    var disk2, ic2 := PutInode(disk, i, d2), ic[s := ic[s].(ref := 0, busy := false, d := d2)];
    forall j | 0 <= j < g.ninodes
      ensures IBlock(j) < |disk| && InodeOn(disk2, j) == if j == i then d2 else InodeOn(disk, j)
    {
      FreedInodes(g, disk, ino, i, d2, j);
    }
    forall j | 0 <= j < g.ninodes && j != i
      ensures InodeOn(disk, j) == ino[j] || exists t :: 0 <= t < NINODE && HoldsDirty(ic2[t], j)
    {
      if InodeOn(disk, j) != ino[j] {
        var t :| 0 <= t < NINODE && HoldsDirty(ic[t], j);
        assert HoldsDirty(ic2[t], j);
      }
    }
  }

  /** Changing an inode's type or link count leaves every file alone. */
  lemma SetInodeHolds(g: Superblock, disk: Disk, ino: Table, files: seq<seq<byte>>, i: nat, d: DInode)
    requires Holds(g, disk, ino, files) && i < |ino| && Fits(d) && d.addrs == ino[i].addrs && d.size == ino[i].size
    ensures Holds(g, disk, ino[i := d], files)
  {
    SetMetaKeepsAllocInv(g, disk, ino, i, d);
    assert FileOk(disk, ino[i]) && Content(disk, ino[i]) == files[i];
    assert NoHoles(disk, d) by {
      forall n | 0 <= n < MAXFILE ensures Ptr(disk, d, DataPtr(n)) == Ptr(disk, ino[i], DataPtr(n)) {}
    }
    assert forall j :: 0 <= j < MAXFILE * BSIZE ==> ByteAt(disk, d, j) == ByteAt(disk, ino[i], j);
    assert Content(disk, d) == Content(disk, ino[i]);
  }

  lemma JoinParts(s: seq<byte>, i: nat, j: nat, k: nat)
    requires i <= j <= k <= |s|
    ensures s[i..j] + s[j..k] == s[i..k]
  {
  }

  /** The slot that caches inode inum, or NINODE. */
  function SlotOf(ic: Cache, inum: nat): (s: nat)
    ensures s <= |ic|
    ensures s < |ic| ==> 0 < ic[s].ref && ic[s].inum == inum
    ensures forall t :: 0 <= t < s ==> !(0 < ic[t].ref && ic[t].inum == inum)
  {
    if ic == [] then 0
    else if 0 < ic[0].ref && ic[0].inum == inum then 0
    else
      var s := SlotOf(ic[1..], inum);
      assert forall t :: 1 <= t < s + 1 ==> ic[t] == ic[1..][t - 1];
      s + 1
  }

  /** How many references the kernel holds to inode inum. */
  function Refs(ic: Cache, inum: nat): nat {
    var s := SlotOf(ic, inum);
    if s < |ic| then ic[s].ref else 0
  }

  /** ic is ic0 with one more reference to inode inum, held in slot s. */
  ghost predicate GotRef(ic0: Cache, ic: Cache, s: nat, inum: nat) {
    && s < |ic0| == |ic| && ic == ic0[s := ic[s]]
    && ic[s].inum == inum && ic[s].ref == Refs(ic0, inum) + 1
    && (Refs(ic0, inum) != 0 ==> 0 < ic0[s].ref && ic0[s].inum == inum && ic[s] == ic0[s].(ref := ic[s].ref))
    && (Refs(ic0, inum) == 0 ==> ic0[s].ref == 0 && !ic[s].busy && !ic[s].valid)
  }

  lemma RefsAt(g: Superblock, disk: Disk, ic: Cache, ino: Table, s: nat)
    requires Coherent(g, disk, ic, ino) && s < NINODE && 0 < ic[s].ref
    ensures SlotOf(ic, ic[s].inum) == s && Refs(ic, ic[s].inum) == ic[s].ref
  {
  }

  /** Zeroing a data block touches neither the superblock nor the bitmap. */
  lemma BfreeZeroes(g: Superblock, disk: Disk, b: nat)
    requires Geometry(g, disk) && Data(g, b)
    ensures b < |disk| && 1 != b && ReadSb(disk[b := ZeroBlock()]) == g
    ensures BBlock(b, g.ninodes) < |disk| && BBlock(b, g.ninodes) != b
    ensures FreeBlock(g, disk, b) == Unmark(g, disk[b := ZeroBlock()], b)
  {
    hide Marked, Unmark, U32;
    Regions(g, disk);
  }

  /** The bit bfree tests and clears, once it has zeroed the block. */
  lemma BfreeBits(g: Superblock, disk: Disk, b: nat)
    requires Geometry(g, disk) && Data(g, b)
    ensures b < |disk| && ReadSb(disk[b := ZeroBlock()]) == g
    ensures var bb, k, z := BBlock(b, g.ninodes), b % BPB / 8, disk[b := ZeroBlock()];
            && bb < |disk| && ClearBit(z[bb][k], b % BPB % 8) < 256
            && (TestBit(z[bb][k], b % BPB % 8) <==> Marked(g, disk, b))
            && z[bb := z[bb][k := ClearBit(z[bb][k], b % BPB % 8)]] == FreeBlock(g, disk, b)
  {
    hide TestBit, ClearBit, FreeBlock, Geometry, Data, ReadSb;
    BfreeZeroes(g, disk, b);
    assert b % BPB % 8 == b % 8;
    ByteBits(disk[BBlock(b, g.ninodes)][b % BPB / 8], b % 8);
  }

  /** iput of this reference frees the inode. */
  predicate LastUse(c: Inode) { c.ref == 1 && c.valid && c.d.nlink == 0 }

  /** All is in order, but slot s, which is not locked any more, may be ahead of the disk. */
  ghost predicate Settling(g: Superblock, disk: Disk, ic: Cache, ino: Table, s: nat) {
    s < |ic| && FsInv(g, disk, ino) && FreeEmpty(ino) && Coherent(g, disk, ic[s := ic[s].(busy := true)], ino)
  }

  lemma SettlingFacts(g: Superblock, disk: Disk, ic: Cache, ino: Table, s: nat)
    requires Settling(g, disk, ic, ino, s) && 0 < ic[s].ref && ic[s].valid
    ensures FreeEmpty(ino) && Coherent(g, disk, ic[s := ic[s].(busy := true)], ino)
    ensures Locked(ic[s := ic[s].(busy := true)], s) && ic[s].inum < |ino|
  {
  }

  lemma SlotInum(g: Superblock, disk: Disk, ic: Cache, ino: Table, s: nat, files: seq<seq<byte>>)
    requires Coherent(g, disk, ic, ino) && Holds(g, disk, ino, files) && s < |ic| && 0 < ic[s].ref
    ensures ic[s].inum < |ino| == |files|
  {
  }

  lemma SizeKept(ino: Table, i: nat, d: DInode)
    requires FreeEmpty(ino) && i < |ino| && d.typ == ino[i].typ && d.size == ino[i].size
    ensures FreeEmpty(ino[i := d])
  {
  }

  /** The inode in slot s has no block bn. */
  ghost predicate Unmapped(disk: Disk, ic: Cache, ino: Table, s: nat, bn: nat) {
    && s < |ic| && ic[s].inum < |ino| && |ino[ic[s].inum].addrs| == NADDRS && bn < MAXFILE
    && Ptr(disk, ino[ic[s].inum], DataPtr(bn)) == 0
  }

  lemma AddrIs(g: Superblock, disk: Disk, ic: Cache, ino: Table, s: nat, bn: nat)
    requires AllocInv(g, disk, ino) && Coherent(g, disk, ic, ino) && Locked(ic, s) && bn < MAXFILE
    ensures ic[s].d == ino[ic[s].inum] && |ic[s].d.addrs| == NADDRS
    ensures bn < NDIRECT ==> (Unmapped(disk, ic, ino, s, bn) <==> ic[s].d.addrs[bn] == 0)
    ensures NDIRECT <= bn && ic[s].d.addrs[INDIRECT] == 0 ==> Unmapped(disk, ic, ino, s, bn)
    ensures Ptr(disk, ic[s].d, DataPtr(bn)) == 0 ==> Unmapped(disk, ic, ino, s, bn)
  {
  }

  /** A block that is missing while a file is being written lies at or past the old end. */
  lemma UnmappedPastEnd(g: Superblock, files: seq<seq<byte>>, ino0: Table, disk: Disk, ic: Cache, ino: Table, s: nat,
                        off: nat, t: seq<byte>, o: nat)
    requires s < |ic| && Writing(g, files, ino0, disk, ino, ic[s].inum, off, t) && Unmapped(disk, ic, ino, s, o / BSIZE)
    ensures ino0[ic[s].inum].size <= o
  {
    var i := ic[s].inum;
    var big := Grow(ino, i, off + |t|);
    assert FileOk(disk, big[i]);
    assert Ptr(disk, big[i], DataPtr(o / BSIZE)) == Ptr(disk, ino[i], DataPtr(o / BSIZE));
    hide AllocInv;
    assert NBlocks(big[i].size) <= o / BSIZE;
    PastBlocks(ino0[i].size, big[i].size, o);
  }

  lemma PastBlocks(size: nat, big: nat, o: nat)
    requires size <= big && NBlocks(big) <= o / BSIZE
    ensures size <= o
  {
  }

  datatype BmapResult =
    | Mapped(addr: nat)
    | NoBlock        // -1: not there and not asked to allocate
    | OutOfBlocks    // no block below sb.size is free
    | OutOfRange     // panic: block number not below MAXFILE

  class FileSystem {
    var disk: Disk
    var icache: Cache
    ghost var g: Superblock
    ghost var ino: Table

    ghost predicate Valid()
      reads this
    {
      KernelInv(g, disk, icache, ino)
    }

    /** The kernel on disk d, with inode cache ic. */
    constructor (d: Disk, ic: Cache, ghost g0: Superblock, ghost tab: Table)
      requires KernelInv(g0, d, ic, tab)
      ensures Valid() && disk == d && icache == ic && g == g0 && ino == tab
    {
      disk, icache, g, ino := d, ic, g0, tab;
    }

    /** balloc: the first block whose bit is clear.  `ok` is false where the source panics. */
    method Balloc() returns (ok: bool, b: nat)
      requires Geometry(g, disk)
      modifies this`disk
      ensures ok ==> BBlock(b, g.ninodes) < |old(disk)| && !Marked(g, old(disk), b) && disk == Mark(g, old(disk), b)
      ensures !ok ==> disk == old(disk)
      ensures ok ==> forall c :: 0 <= c < b ==> Marked(g, old(disk), c)
      ensures !ok ==> forall c :: 0 <= c < g.size ==> Marked(g, old(disk), c)
      ensures ok ==> (b < g.size <==> exists c :: 0 <= c < g.size && !Marked(g, old(disk), c))
    {
      hide TestBit, SetBit, Marked, Mark, BBlock;
      var sb := ReadSb(disk);
      var base := 0;
      while base < sb.size
        invariant base % BPB == 0 && disk == old(disk)
        invariant forall c :: 0 <= c < base ==> Marked(g, disk, c)
      {
        var bb := BBlock(base, sb.ninodes);
        var bi := 0;
        while bi < BPB
          invariant 0 <= bi <= BPB && disk == old(disk)
          invariant forall c :: 0 <= c < base + bi ==> Marked(g, disk, c)
        {
          BitIs(g, disk, base, bi);
          if !TestBit(disk[bb][bi / 8], bi % 8) {
            disk := disk[bb := disk[bb][bi / 8 := SetBit(disk[bb][bi / 8], bi % 8)]];
            return true, base + bi;
          }
          bi := bi + 1;
        }
        base := base + BPB;
      }
      return false, 0;
    }

    /** bfree.  `ok` is false where the source panics: the block was free already. */
    method Bfree(b: nat) returns (ok: bool)
      requires Geometry(g, disk) && Data(g, b)
      modifies this`disk
      ensures ok <==> Marked(g, old(disk), b)
      ensures ok ==> disk == FreeBlock(g, old(disk), b)
    {
      hide TestBit, ClearBit, FreeBlock, Marked, Geometry, Data;
      BfreeBits(g, disk, b);
      disk := disk[b := ZeroBlock()];
      var sb := ReadSb(disk);
      var bb, bi := BBlock(b, sb.ninodes), b % BPB;
      if !TestBit(disk[bb][bi / 8], bi % 8) { return false; }
      disk := disk[bb := disk[bb][bi / 8 := ClearBit(disk[bb][bi / 8], bi % 8)]];
      return true;
    }

    /** balloc for a file.  If no block below sb.size is free the source panics, or goes on with a
        block past the end of the disk; the model stops there. */
    method BallocData() returns (ok: bool, b: nat)
      requires AllocInv(g, disk, ino)
      modifies this`disk
      ensures ok ==> Data(g, b) && !Marked(g, old(disk), b) && disk == Mark(g, old(disk), b)
      ensures ok <==> exists c :: 0 <= c < g.size && !Marked(g, old(disk), c)
      ensures !ok ==> forall c :: 0 <= c < g.size ==> Marked(g, disk, c)
    {
      var size := ReadSb(disk).size;
      ok, b := Balloc();
      if ok && size <= b {
        forall c | 0 <= c < g.size ensures Marked(g, disk, c) {
          Regions(g, old(disk));
          MarkReads(g, old(disk), b, c);
        }
        ok := false;
      } else if ok {
        assert Data(g, b) by { assert MetaMarked(g, old(disk)); }
      }
    }

    /** bmap with alloc = 0 on the locked inode in slot s.  The source returns -1 for NoBlock. */
    method BmapLookup(s: nat, bn: nat) returns (r: BmapResult)
      requires AllocInv(g, disk, ino) && Coherent(g, disk, icache, ino) && Locked(icache, s)
      ensures r == if MAXFILE <= bn then OutOfRange
                   else if Ptr(disk, ino[icache[s].inum], DataPtr(bn)) == 0 then NoBlock
                   else Mapped(Ptr(disk, ino[icache[s].inum], DataPtr(bn)))
      ensures r.Mapped? ==> Data(g, r.addr)
    {
      if bn < NDIRECT {
        var addr := icache[s].d.addrs[bn];
        assert addr == Ptr(disk, ino[icache[s].inum], DataPtr(bn));
        if addr == 0 { return NoBlock; }
        return Mapped(addr);
      }
      if bn < MAXFILE {
        var x := icache[s].d.addrs[INDIRECT];
        if x == 0 { return NoBlock; }
        IndirectIsData(g, disk, ino, icache[s].inum);
        var addr := U32(disk[x], 4 * (bn - NDIRECT));
        assert addr == Ptr(disk, ino[icache[s].inum], DataPtr(bn));
        if addr == 0 { return NoBlock; }
        return Mapped(addr);
      }
      return OutOfRange;
    }

    /** bmap with alloc = 1 on the locked inode in slot s. */
    method Bmap(s: nat, bn: nat) returns (r: BmapResult)
      requires AllocInv(g, disk, ino) && Coherent(g, disk, icache, ino) && Locked(icache, s)
      modifies this`disk, this`icache, this`ino
      ensures !r.NoBlock? && (r.OutOfRange? <==> MAXFILE <= bn)
      ensures r.OutOfRange? ==> disk == old(disk) && icache == old(icache) && ino == old(ino)
      ensures r.OutOfBlocks? ==> Unmapped(old(disk), old(icache), old(ino), s, bn)
      ensures r.OutOfBlocks? ==> forall c :: 0 <= c < g.size ==> Marked(g, disk, c)
      ensures r.Mapped? ==> BmapDone(g, old(disk), old(icache), old(ino), disk, icache, ino, s, bn, r.addr)
    {
      if bn < NDIRECT {
        r := BmapDirectOf(s, bn);
        return;
      }
      if bn < MAXFILE {
        r := BmapIndirect(s, bn);
        return;
      }
      return OutOfRange;
    }

    method BmapDirectOf(s: nat, bn: nat) returns (r: BmapResult)
      requires AllocInv(g, disk, ino) && Coherent(g, disk, icache, ino) && Locked(icache, s) && bn < NDIRECT
      modifies this`disk, this`icache, this`ino
      ensures r.Mapped? || r.OutOfBlocks?
      ensures r.OutOfBlocks? ==> Unmapped(old(disk), old(icache), old(ino), s, bn)
      ensures r.OutOfBlocks? ==> forall c :: 0 <= c < g.size ==> Marked(g, disk, c)
      ensures r.Mapped? ==> BmapDone(g, old(disk), old(icache), old(ino), disk, icache, ino, s, bn, r.addr)
    {
      var addr := icache[s].d.addrs[bn];
      AddrIs(g, disk, icache, ino, s, bn);
      if addr != 0 {
        BmapHitDone(g, disk, icache, ino, s, bn);
        return Mapped(addr);
      }
      ghost var disk0, ic0, ino0 := disk, icache, ino;
      var ok, b := BallocData();
      if !ok { return OutOfBlocks; }
      icache := icache[s := icache[s].(d := icache[s].d.(addrs := icache[s].d.addrs[bn := b]))];
      ino := SetAddr(ino, icache[s].inum, bn, b);
      assert BmapDone(g, disk0, ic0, ino0, disk, icache, ino, s, bn, b) by { BmapDirectDone(g, disk0, ic0, ino0, s, bn, b); }
      return Mapped(b);
    }

    /** bmap beyond the direct blocks. */
    method BmapIndirect(s: nat, bn: nat) returns (r: BmapResult)
      requires AllocInv(g, disk, ino) && Coherent(g, disk, icache, ino) && Locked(icache, s)
      requires NDIRECT <= bn < MAXFILE
      modifies this`disk, this`icache, this`ino
      ensures r.Mapped? || r.OutOfBlocks?
      ensures r.OutOfBlocks? ==> Unmapped(old(disk), old(icache), old(ino), s, bn)
      ensures r.OutOfBlocks? ==> forall c :: 0 <= c < g.size ==> Marked(g, disk, c)
      ensures r.Mapped? ==> BmapDone(g, old(disk), old(icache), old(ino), disk, icache, ino, s, bn, r.addr)
    {
      IndirectFacts(g, disk, icache, ino, s);
      AddrIs(g, disk, icache, ino, s, bn);
      hide AllocInv, Coherent, Bmapped, Marked, Mark, Unmapped;
      if icache[s].d.addrs[INDIRECT] == 0 {
        var ok, x := GiveIndirect(s);
        if !ok { return OutOfBlocks; }
        r := BmapEntryOf(s, bn);
        assert old(icache[s].d.addrs[INDIRECT]) == 0;
        if r.Mapped? { BmapBoth(g, old(disk), old(ino), icache[s].inum, bn, x, disk, ino, r.addr); }
      } else {
        r := BmapEntryOf(s, bn);
      }
    }

    /** Allocates the indirect block.  It is not zeroed: a free block already is. */
    method GiveIndirect(s: nat) returns (ok: bool, x: nat)
      requires AllocInv(g, disk, ino) && Coherent(g, disk, icache, ino) && Locked(icache, s)
      requires icache[s].d.addrs[INDIRECT] == 0
      modifies this`disk, this`icache, this`ino
      ensures !ok ==> forall c :: 0 <= c < g.size ==> Marked(g, disk, c)
      ensures ok ==> Data(g, x) && !Marked(g, old(disk), x) && disk == Mark(g, old(disk), x)
      ensures ok ==> ino == SetAddr(old(ino), old(icache[s].inum), INDIRECT, x)
      ensures ok ==> icache == old(icache)[s := old(icache[s]).(d := old(icache[s].d).(addrs := old(icache[s].d.addrs)[INDIRECT := x]))]
      ensures ok ==> AllocInv(g, disk, ino) && Coherent(g, disk, icache, ino)
    {
      hide AllocInv, Coherent, Marked, Mark;
      ghost var i, disk0 := icache[s].inum, disk;
      IndirectFacts(g, disk, icache, ino, s);
      ok, x := BallocData();
      if !ok { return; }
      GivenIndirect(g, disk0, icache, ino, s, x);
      icache := icache[s := icache[s].(d := icache[s].d.(addrs := icache[s].d.addrs[INDIRECT := x]))];
      ino := SetAddr(ino, i, INDIRECT, x);
    }

    /** The word of the indirect block for block bn, filled in if need be. */
    method BmapEntryOf(s: nat, bn: nat) returns (r: BmapResult)
      requires AllocInv(g, disk, ino) && Coherent(g, disk, icache, ino) && Locked(icache, s)
      requires NDIRECT <= bn < MAXFILE && icache[s].d.addrs[INDIRECT] != 0
      modifies this`disk
      ensures r.Mapped? || r.OutOfBlocks?
      ensures r.OutOfBlocks? ==> Unmapped(old(disk), old(icache), old(ino), s, bn)
      ensures r.OutOfBlocks? ==> forall c :: 0 <= c < g.size ==> Marked(g, disk, c)
      ensures r.Mapped? ==> BmapDone(g, old(disk), icache, ino, disk, icache, ino, s, bn, r.addr)
    {
      ghost var i := icache[s].inum;
      IndirectFacts(g, disk, icache, ino, s);
      IndirectIsData(g, disk, ino, i);
      EntryIs(disk, ino[i], bn);
      AddrIs(g, disk, icache, ino, s, bn);
      hide AllocInv, Coherent, Bmapped, Marked, BmapDone, Ptr, Unmapped;
      var x, j := icache[s].d.addrs[INDIRECT], bn - NDIRECT;
      var buf := disk[x];
      var addr := U32(buf, 4 * j);
      if addr == 0 {
        var ok, b := BallocData();
        if !ok { return OutOfBlocks; }
        BmapEntryDone(g, old(disk), icache, ino, s, bn, b);
        disk := disk[x := Splice(buf, 4 * j, E32(b))];
        addr := b;
      } else {
        BmapHitDone(g, disk, icache, ino, s, bn);
      }
      return Mapped(addr);
    }

    /** iupdate: writes slot s back to its place on disk. */
    method Iupdate(s: nat)
      requires AllocInv(g, disk, ino) && Coherent(g, disk, icache, ino) && Locked(icache, s)
      modifies this`disk
      ensures IBlock(icache[s].inum) < |old(disk)| && |icache[s].d.addrs| == NADDRS
      ensures disk == PutInode(old(disk), icache[s].inum, icache[s].d)
      ensures AllocInv(g, disk, ino) && Coherent(g, disk, icache, ino)
      ensures InodeOn(disk, icache[s].inum) == ino[icache[s].inum]
    {
      ghost var i := icache[s].inum;
      PutInodeKeepsFsInv(g, disk, ino, i, ino[i]);
      CoherentPut(g, disk, icache, ino, i);
      disk := PutInode(disk, icache[s].inum, icache[s].d);
    }

    /** readi on a file or directory: the bytes from off on, at most n of them, up to the end of the file. */
    method Readi(s: nat, off: nat, n: nat) returns (r: int, dst: seq<byte>)
      requires Valid() && Locked(icache, s) && icache[s].d.typ != T_DEV
      ensures ino[icache[s].inum].size < off || LIMIT32 <= off + n ==> r == -1 && dst == []
      ensures off <= ino[icache[s].inum].size && off + n < LIMIT32 ==>
                && r == |dst|
                && dst == Content(disk, ino[icache[s].inum])[off..Min(off + n, ino[icache[s].inum].size)]
    {
      var size := icache[s].d.size;
      if size < off || LIMIT32 <= off + n { return -1, []; }
      assert FileOk(disk, ino[icache[s].inum]);
      var left := if size < off + n then size - off else n;
      dst := ReadBlocks(s, off, left);
      return left, dst;
    }

    /** The loop of readi. */
    method ReadBlocks(s: nat, off: nat, n: nat) returns (dst: seq<byte>)
      requires AllocInv(g, disk, ino) && Coherent(g, disk, icache, ino) && Locked(icache, s)
      requires FileOk(disk, icache[s].d) && off + n <= icache[s].d.size
      ensures dst == Content(disk, icache[s].d)[off..off + n]
    {
      hide Coherent, AllocInv, NoHoles, ZeroTail, Content, ChunkLen;
      ghost var file := Content(disk, icache[s].d);
      var tot, o := 0, off;
      dst := [];
      while tot < n
        invariant 0 <= tot <= n && o == off + tot && dst == file[off..o]
      {
        var m := ChunkLen(o, n - tot);
        var part := ReadPart(s, o, m);
        dst := dst + part;
        JoinParts(file, off, o, o + m);
        tot, o := tot + m, o + m;
      }
    }

    /** The part of a file that lies in one block. */
    method ReadPart(s: nat, o: nat, m: nat) returns (part: seq<byte>)
      requires AllocInv(g, disk, ino) && Coherent(g, disk, icache, ino) && Locked(icache, s)
      requires FileOk(disk, icache[s].d) && o + m <= icache[s].d.size && 0 < m && o % BSIZE + m <= BSIZE
      ensures part == Content(disk, icache[s].d)[o..o + m]
    {
      ReadChunk(disk, icache[s].d, o, m);
      var a := BmapLookup(s, o / BSIZE);
      part := disk[a.addr][o % BSIZE..o % BSIZE + m];
    }

    /** writei on a file or directory.  `full` when the disk ran out of blocks and the model stops. */
    method Writei(s: nat, src: seq<byte>, off: nat, ghost files: seq<seq<byte>>) returns (full: bool, r: int)
      requires Valid() && Locked(icache, s) && icache[s].d.typ != T_DEV && off <= icache[s].d.size
      requires Holds(g, disk, ino, files)
      modifies this`disk, this`icache, this`ino
      ensures full ==> old(icache[s].d.size) < off + |src|
      ensures off + |src| <= old(icache[s].d.size) ==> ino == old(ino)
      ensures full ==> forall c :: 0 <= c < g.size ==> Marked(g, disk, c)
      ensures LIMIT32 <= off + |src| ==>
                !full && r == -1 && disk == old(disk) && icache == old(icache) && ino == old(ino)
      ensures !full && off + |src| < LIMIT32 ==>
                && Valid() && r == Min(|src|, MAXFILE * BSIZE - off)
                && off <= |files[old(icache[s].inum)]|
                && Holds(g, disk, ino, files[old(icache[s].inum) := Written(files[old(icache[s].inum)], off, src[..r])])
                && OnlySlot(old(disk), old(icache), old(ino), disk, icache, ino, s)
    {
      if LIMIT32 <= off + |src| { return false, -1; }
      assert FileOk(disk, ino[icache[s].inum]);
      var n := if MAXFILE * BSIZE < off + |src| then MAXFILE * BSIZE - off else |src|;
      full := WriteClipped(s, src[..n], off, files);
      return full, if full then -1 else n;
    }

    /** writei once n has been clipped. */
    method WriteClipped(s: nat, src: seq<byte>, off: nat, ghost files: seq<seq<byte>>) returns (full: bool)
      requires Coherent(g, disk, icache, ino) && FreeEmpty(ino) && Locked(icache, s)
      requires Holds(g, disk, ino, files) && off <= icache[s].d.size && off + |src| <= MAXFILE * BSIZE
      modifies this`disk, this`icache, this`ino
      ensures full ==> old(icache[s].d.size) < off + |src|
      ensures off + |src| <= old(icache[s].d.size) ==> ino == old(ino)
      ensures full ==> forall c :: 0 <= c < g.size ==> Marked(g, disk, c)
      ensures off <= |files[old(icache[s].inum)]|
      ensures !full ==>
                && Coherent(g, disk, icache, ino) && FreeEmpty(ino)
                && Holds(g, disk, ino, files[old(icache[s].inum) := Written(files[old(icache[s].inum)], off, src)])
                && OnlySlot(old(disk), old(icache), old(ino), disk, icache, ino, s)
    {
      hide Holds, Coherent, FreeEmpty, Writing, SameInodeArea, OnlySlot, AllocInv, FileOk, Marked, Written, PutInode, IBlock, Content;
      ghost var i, disk0, ic0, ino0 := icache[s].inum, disk, icache, ino;
      HoldsFacts(g, disk, icache, ino, s, files);
      WritingStarts(g, files, disk, ino, i, off);
      full := WriteBlocks(s, src, off, files);
      if full { return true; }
      WritingFacts(g, files, disk0, ic0, ino0, disk, icache, ino, s, off, src);
      if 0 < |src| && icache[s].d.size < off + |src| {
        WriteGrowth(g, files, disk0, ic0, ino0, disk, icache, ino, s, off, src);
        ino := Grow(ino, i, off + |src|);
        icache := icache[s := icache[s].(d := icache[s].d.(size := off + |src|))];
        disk := PutInode(disk, icache[s].inum, icache[s].d);
      } else {
        WriteNoGrowth(g, files, disk0, ic0, ino0, disk, icache, ino, s, off, src);
      }
      return false;
    }

    /** The loop of writei. */
    method WriteBlocks(s: nat, src: seq<byte>, off: nat, ghost files: seq<seq<byte>>) returns (full: bool)
      requires Coherent(g, disk, icache, ino) && Locked(icache, s) && off + |src| <= MAXFILE * BSIZE
      requires Writing(g, files, ino, disk, ino, icache[s].inum, off, []) && ino[icache[s].inum].size < LIMIT32
      modifies this`disk, this`icache, this`ino
      ensures full ==> old(ino)[old(icache[s].inum)].size < off + |src|
      ensures full ==> forall c :: 0 <= c < g.size ==> Marked(g, disk, c)
      ensures !full ==> Coherent(g, disk, icache, ino) && Locked(icache, s)
      ensures !full ==> icache == old(icache)[s := old(icache[s]).(d := icache[s].d)]
      ensures !full ==> Writing(g, files, old(ino), disk, ino, icache[s].inum, off, src)
      ensures !full ==> SameInodeArea(g, old(disk), disk)
    {
      assert icache == icache[s := icache[s].(d := icache[s].d)];
      assert s < |icache|;
      hide Writing, Coherent, SameInodeArea, Locked, Marked, ChunkLen;
      var tot, o := 0, off;
      ghost var t, ino0, disk0 := [], ino, disk;
      SameAreaRefl(g, disk);
      while tot < |src|
        invariant 0 <= tot <= |src| && o == off + tot && t == src[..tot]
        invariant Coherent(g, disk, icache, ino) && Locked(icache, s)
        invariant s < |icache| && icache == old(icache)[s := old(icache[s]).(d := icache[s].d)]
        invariant Writing(g, files, ino0, disk, ino, icache[s].inum, off, t)
        invariant SameInodeArea(g, old(disk), disk)
      {
        var m := ChunkLen(o, |src| - tot);
        ghost var disk1 := disk;
        TakeMore(src, tot, m);
        full := WritePart(s, src[tot..tot + m], o, files, ino0, off, t);
        if full { return true; }
        SameAreaTrans(g, disk0, disk1, disk);
        tot, o, t := tot + m, o + m, t + src[tot..tot + m];
      }
      assert t == src;
      return false;
    }

    /** One turn of the loop of writei. */
    method WritePart(s: nat, p: seq<byte>, o: nat, ghost files: seq<seq<byte>>, ghost ino0: Table, ghost off: nat,
                     ghost t: seq<byte>) returns (full: bool)
      requires Coherent(g, disk, icache, ino) && Locked(icache, s)
      requires Writing(g, files, ino0, disk, ino, icache[s].inum, off, t) && o == off + |t|
      requires ino0[icache[s].inum].size < LIMIT32
      requires 0 < |p| && o % BSIZE + |p| <= BSIZE && o + |p| <= MAXFILE * BSIZE
      modifies this`disk, this`icache, this`ino
      ensures full ==> ino0[old(icache[s].inum)].size <= o
      ensures full ==> forall c :: 0 <= c < g.size ==> Marked(g, disk, c)
      ensures !full ==> Coherent(g, disk, icache, ino) && Locked(icache, s)
      ensures !full ==> icache == old(icache)[s := old(icache[s]).(d := icache[s].d)]
      ensures !full ==> Writing(g, files, ino0, disk, ino, icache[s].inum, off, t + p)
      ensures !full ==> SameInodeArea(g, old(disk), disk)
    {
      ghost var i, disk1, ic1, ino1 := icache[s].inum, disk, icache, ino;
      hide Writing, Coherent, AllocInv, SameInodeArea, Locked, Marked, BmapDone, PutBytes, Unmapped;
      WritingAlloc(g, files, ino0, disk, ino, i, off, t);
      ChunkBlock(o, |p|);
      var b := Bmap(s, o / BSIZE);
      if b.OutOfBlocks? {
        UnmappedPastEnd(g, files, ino0, disk1, ic1, ino1, s, off, t, o);
        return true;
      }
      WritePartDone(g, files, ino0, disk1, ic1, ino1, disk, icache, ino, s, off, t, p, b.addr);
      disk := PutBytes(disk, b.addr, o % BSIZE, p);
      return false;
    }

    /** itrunc of the locked inode in slot s.  The source's panic in bfree is never reached. */
    method Itrunc(s: nat, ghost files: seq<seq<byte>>) returns (ok: bool)
      requires Coherent(g, disk, icache, ino) && FreeEmpty(ino) && Locked(icache, s) && Holds(g, disk, ino, files)
      modifies this`disk, this`icache, this`ino
      ensures ok && Coherent(g, disk, icache, ino) && FreeEmpty(ino)
      ensures Holds(g, disk, ino, files[old(icache[s].inum) := []])
      ensures ino == old(ino)[old(icache[s].inum) := old(ino)[old(icache[s].inum)].(size := 0, addrs := NoAddrs())]
      ensures icache == old(icache)[s := old(icache[s]).(d := ino[old(icache[s].inum)])]
      ensures InodeOn(disk, icache[s].inum) == ino[icache[s].inum] && OthersOnDisk(old(disk), disk, |ino|, old(icache[s].inum))
      ensures forall c :: 0 <= c < g.size ==>
                (Marked(g, disk, c) <==>
                 Marked(g, old(disk), c) && !Freed(old(disk), old(ino)[old(icache[s].inum)], NPTRS, c))
    {
      ghost var i, disk0, ic0, ino0 := icache[s].inum, disk, icache, ino;
      hide *;
      HoldsFacts(g, disk, icache, ino, s, files);
      TruncStarts(g, disk, ino, i);
      ok := TruncDirect(s);
      TruncFacts(g, disk0, ino0, disk, ino, i, INDIRECT);
      LockedSlot(ic0, s, ino[i]);
      if icache[s].d.addrs[INDIRECT] != 0 {
        ok := TruncEntries(s, disk0, ino0);
        TruncFacts(g, disk0, ino0, disk, ino, i, NPTRS);
      } else {
        TruncNoIndirect(g, disk0, ino0, disk, ino, i);
      }
      assert icache == ic0[s := ic0[s].(d := ino[i])];
      TruncFinish(s, disk0, ic0, ino0, files);
    }

    /** The end of itrunc: the size becomes 0 and the inode goes to disk. */
    method TruncFinish(s: nat, ghost disk0: Disk, ghost ic0: Cache, ghost ino0: Table, ghost files: seq<seq<byte>>)
      requires Coherent(g, disk0, ic0, ino0) && FreeEmpty(ino0) && Locked(ic0, s) && Holds(g, disk0, ino0, files)
      requires Truncating(g, disk0, ino0, disk, ino, ic0[s].inum, NPTRS)
      requires icache == ic0[s := ic0[s].(d := ino[ic0[s].inum])]
      modifies this`disk, this`icache, this`ino
      ensures Coherent(g, disk, icache, ino) && FreeEmpty(ino)
      ensures Holds(g, disk, ino, files[ic0[s].inum := []])
      ensures ino == ino0[ic0[s].inum := ino0[ic0[s].inum].(size := 0, addrs := NoAddrs())]
      ensures icache == ic0[s := ic0[s].(d := ino[ic0[s].inum])]
      ensures InodeOn(disk, ic0[s].inum) == ino[ic0[s].inum] && OthersOnDisk(disk0, disk, |ino|, ic0[s].inum)
      ensures forall c :: 0 <= c < g.size ==>
                (Marked(g, disk, c) <==> Marked(g, disk0, c) && !Freed(disk0, ino0[ic0[s].inum], NPTRS, c))
    {
      hide Truncating, Holds, Coherent, Marked, Freed, FreeEmpty, PutInode, OthersOnDisk;
      TruncDone(g, disk0, ic0, ino0, disk, ino, s, files);
      TruncOthers(g, disk0, ic0, ino0, disk, ino, s);
      ghost var i := ic0[s].inum;
      ino := ino[i := ino[i].(size := 0)];
      icache := icache[s := icache[s].(d := icache[s].d.(size := 0))];
      assert icache == ic0[s := ic0[s].(d := ino[i])];
      disk := PutInode(disk, icache[s].inum, icache[s].d);
    }

    /** The loop over the direct blocks. */
    method TruncDirect(s: nat) returns (ok: bool)
      requires Locked(icache, s) && Truncating(g, disk, ino, disk, ino, icache[s].inum, 0)
      requires icache[s].d == ino[icache[s].inum]
      modifies this`disk, this`icache, this`ino
      ensures ok && Truncating(g, old(disk), old(ino), disk, ino, old(icache[s].inum), INDIRECT)
      ensures icache == old(icache)[s := old(icache[s]).(d := ino[old(icache[s].inum)])]
    {
      hide Truncating, Geometry, FreeBlock, Marked;
      ghost var i, disk0, ino0 := icache[s].inum, disk, ino;
      var k := 0;
      ok := true;
      TruncFacts(g, disk, ino, disk, ino, i, 0);
      assert icache == icache[s := icache[s].(d := ino[i])];
      while k < NDIRECT
        invariant 0 <= k <= NDIRECT && ok && Truncating(g, disk0, ino0, disk, ino, i, k) && i < |ino|
        invariant icache == old(icache)[s := old(icache[s]).(d := ino[i])]
      {
        TruncFacts(g, disk0, ino0, disk, ino, i, k);
        var b := icache[s].d.addrs[k];
        if b != 0 {
          TruncOrphan(g, disk0, ino0, disk, ino, i, k);
          TruncFree(g, disk0, ino0, disk, ino, i, k);
          ok := Bfree(b);
          icache := icache[s := icache[s].(d := icache[s].d.(addrs := icache[s].d.addrs[k := 0]))];
          ino := SetAddr(ino, i, k, 0);
        } else {
          TruncSkip(g, disk0, ino0, disk, ino, i, k);
        }
        k := k + 1;
      }
    }

    /** The loop over the entries of the indirect block. */
    method TruncEntries(s: nat, ghost disk0: Disk, ghost ino0: Table) returns (ok: bool)
      requires Locked(icache, s) && Truncating(g, disk0, ino0, disk, ino, icache[s].inum, INDIRECT)
      requires icache[s].d == ino[icache[s].inum] && icache[s].d.addrs[INDIRECT] != 0
      modifies this`disk, this`icache, this`ino
      ensures ok && Truncating(g, disk0, ino0, disk, ino, old(icache[s].inum), NPTRS)
      ensures icache == old(icache)[s := old(icache[s]).(d := ino[old(icache[s].inum)])]
    {
      hide Truncating, FreeBlock, Marked, AllocInv;
      ghost var i := icache[s].inum;
      TruncFacts(g, disk0, ino0, disk, ino, i, INDIRECT);
      TruncReadsEntries(g, disk0, ino0, disk, ino, i);
      var buf := disk[icache[s].d.addrs[INDIRECT]];
      TruncIndirect(g, disk0, ino0, disk, ino, i);
      ino := SetAddr(ino, i, INDIRECT, 0);
      var j := 0;
      ok := true;
      while j < NINDIRECT
        invariant 0 <= j <= NINDIRECT && ok && Truncating(g, disk0, ino0, disk, ino, i, NADDRS + j)
        invariant icache == old(icache)
      {
        TruncFacts(g, disk0, ino0, disk, ino, i, NADDRS + j);
        var b := U32(buf, 4 * j);
        assert b == Ptr(disk0, ino0[i], NADDRS + j);
        if b != 0 {
          TruncOrphan(g, disk0, ino0, disk, ino, i, NADDRS + j);
          TruncFree(g, disk0, ino0, disk, ino, i, NADDRS + j);
          ok := Bfree(b);
        } else {
          TruncSkip(g, disk0, ino0, disk, ino, i, NADDRS + j);
        }
        j := j + 1;
      }
      TruncFacts(g, disk0, ino0, disk, ino, i, NPTRS);
      icache := icache[s := icache[s].(d := icache[s].d.(addrs := icache[s].d.addrs[INDIRECT := 0]))];
      assert icache[s].d.addrs == ino[i].addrs;
    }

    /** iput: drops a reference.  The last reference to an inode without links frees it.
        Only a reference that is not the last may be dropped while the inode is locked.  An inode about to be freed
        may be ahead of the disk. */
    method Iput(s: nat, ghost files: seq<seq<byte>>)
      requires Holds(g, disk, ino, files) && s < |icache| && 0 < icache[s].ref
      requires Valid() || (Settling(g, disk, icache, ino, s) && LastUse(icache[s]) && !icache[s].busy)
      requires icache[s].busy ==> 1 < icache[s].ref
      modifies this`disk, this`icache, this`ino
      ensures Valid() && old(icache[s].inum) < |files| == |old(ino)|
      ensures var c := old(icache[s]);
              if LastUse(c) then
                && Holds(g, disk, ino, files[c.inum := []])
                && ino == old(ino)[c.inum := c.d.(typ := 0, size := 0, addrs := NoAddrs())]
                && icache == old(icache)[s := c.(ref := 0, d := ino[c.inum])] && OthersOnDisk(old(disk), disk, |ino|, c.inum)
              else
                disk == old(disk) && ino == old(ino) && icache == old(icache)[s := c.(ref := c.ref - 1)]
    {
      hide Holds, Coherent, FreeEmpty, Marked, Freed, AllocInv, FsInv, OthersOnDisk;
      if icache[s].ref == 1 && icache[s].valid && icache[s].d.nlink == 0 {
        ghost var i := icache[s].inum;
        if Coherent(g, disk, icache, ino) { CoherentBusy(g, disk, icache, ino, s); }
        IputFree(s, files);
        HoldsFsInv(g, disk, ino, files[i := []]);
      } else {
        SlotInum(g, disk, icache, ino, s, files);
        CoherentRef(g, disk, icache, ino, s, icache[s].ref - 1);
        icache := icache[s := icache[s].(ref := icache[s].ref - 1)];
      }
    }

    /** The part of iput that truncates and frees the inode. */
    method IputFree(s: nat, ghost files: seq<seq<byte>>)
      requires s < |icache| && icache[s].ref == 1 && icache[s].valid && !icache[s].busy
      requires Settling(g, disk, icache, ino, s) && Holds(g, disk, ino, files)
      modifies this`disk, this`icache, this`ino
      ensures Coherent(g, disk, icache, ino) && FreeEmpty(ino)
      ensures var c := old(icache[s]);
              && c.inum < |files| == |old(ino)|
              && Holds(g, disk, ino, files[c.inum := []])
              && ino == old(ino)[c.inum := c.d.(typ := 0, size := 0, addrs := NoAddrs())]
              && icache == old(icache)[s := c.(ref := 0, d := ino[c.inum])] && OthersOnDisk(old(disk), disk, |ino|, c.inum)
    {
      hide *;
      ghost var i, ic0, ino0 := icache[s].inum, icache, ino;
      SettlingFacts(g, disk, icache, ino, s);
      icache := icache[s := icache[s].(busy := true)];
      HoldsFacts(g, disk, icache, ino, s, files);
      ghost var icb := icache;
      var ok := Itrunc(s, files);
      ghost var ic1 := icache;
      LockedSlot(icb, s, ino[i]);
      IputFrees(g, disk, icache, ino, s, files[i := []]);
      ghost var disk1 := disk;
      FreedOthers(g, disk, icache, ino, s, files[i := []]);
      ino := ino[i := ino[i].(typ := 0)];
      icache := icache[s := icache[s].(d := icache[s].d.(typ := 0))];
      disk := PutInode(disk, icache[s].inum, icache[s].d);
      icache := icache[s := icache[s].(busy := false, ref := icache[s].ref - 1)];
      assert icache == ic1[s := ic1[s].(ref := 0, busy := false, d := ino[i])];
      assert icache == ic0[s := ic0[s].(ref := 0, d := ino[i])];
      OthersTrans(old(disk), disk1, disk, |ino|, i);
    }

    /** iget: a reference to inode inum.  `ok` is false where the source panics: no slot left. */
    method Iget(inum: nat) returns (ok: bool, s: nat)
      requires Valid() && 0 < inum < |ino| && ino[inum].typ != 0
      modifies this`icache
      ensures Valid()
      ensures ok <==> SlotOf(old(icache), inum) < NINODE || exists t :: 0 <= t < NINODE && old(icache)[t].ref == 0
      ensures !ok ==> icache == old(icache)
      ensures ok ==> GotRef(old(icache), icache, s, inum)
    {
      hide FsInv, FreeEmpty, Coherent;
      CoherentLen(g, disk, icache, ino);
      var t, empty := FindSlot(inum);
      if t < NINODE {
        CoherentRef(g, disk, icache, ino, t, icache[t].ref + 1);
        icache := icache[t := icache[t].(ref := icache[t].ref + 1)];
        return true, t;
      }
      if empty == NINODE { return false, 0; }
      CoherentFresh(g, disk, icache, ino, empty, inum, icache[empty].d);
      icache := icache[empty := Inode(inum, 1, false, false, icache[empty].d)];
      return true, empty;
    }

    /** The scan of iget: the slot of inode inum, and else the first slot not in use. */
    method FindSlot(inum: nat) returns (t: nat, empty: nat)
      requires |icache| == NINODE
      ensures t == SlotOf(icache, inum) && empty <= NINODE
      ensures t == NINODE && empty < NINODE ==> icache[empty].ref == 0
      ensures t == NINODE && empty == NINODE ==> forall u :: 0 <= u < NINODE ==> icache[u].ref != 0
    {
      empty := NINODE;
      t := 0;
      while t < NINODE
        invariant 0 <= t <= NINODE
        invariant forall u :: 0 <= u < t ==> !(0 < icache[u].ref && icache[u].inum == inum)
        invariant empty <= NINODE && (empty < NINODE ==> icache[empty].ref == 0)
        invariant empty == NINODE ==> forall u :: 0 <= u < t ==> icache[u].ref != 0
      {
        if 0 < icache[t].ref && icache[t].inum == inum { return; }
        if empty == NINODE && icache[t].ref == 0 { empty := t; }
        t := t + 1;
      }
      NoSlot(icache, inum);
    }

    /** idup */
    method Idup(s: nat)
      requires Valid() && s < NINODE && 0 < icache[s].ref
      modifies this`icache
      ensures Valid() && icache == old(icache)[s := old(icache[s]).(ref := old(icache[s].ref) + 1)]
    {
      hide FsInv, FreeEmpty;
      CoherentRef(g, disk, icache, ino, s, icache[s].ref + 1);
      icache := icache[s := icache[s].(ref := icache[s].ref + 1)];
    }

    /** ilock, up to its first sleep: `waits` if somebody has the inode locked.  Otherwise it loads the inode if need be,
        and never finds it without a type. */
    method Ilock(s: nat) returns (waits: bool, typed: bool)
      requires Valid() && s < NINODE && 0 < icache[s].ref
      modifies this`icache
      ensures (waits <==> old(icache[s].busy)) && typed && Valid()
      ensures waits ==> icache == old(icache)
      ensures !waits ==> Locked(icache, s) && InodeOn(disk, icache[s].inum) == ino[icache[s].inum]
      ensures old(icache[s].inum) < |ino|
      ensures !waits ==>
                icache == old(icache)[s := old(icache[s]).(busy := true, valid := true, d := ino[old(icache[s].inum)])]
    {
      hide FsInv, FreeEmpty;
      if icache[s].busy { return true, true; }
      CleanUnlessBusy(g, disk, icache, ino, s);
      ghost var ic0 := icache;
      CoherentSlot(g, disk, ic0, ino, s, ic0[s].(busy := true, valid := true, d := ino[ic0[s].inum]));
      waits, typed := false, true;
      icache := icache[s := icache[s].(busy := true)];
      if !icache[s].valid {
        var d := InodeOn(disk, icache[s].inum);
        icache := icache[s := icache[s].(d := d, valid := true)];
        typed := d.typ != 0;
      }
      assert icache == ic0[s := ic0[s].(busy := true, valid := true, d := ino[ic0[s].inum])];
    }

    /** iunlock.  An inode that is ahead of the disk stays so, and must be freed by the iput that follows. */
    method Iunlock(s: nat)
      requires Valid() && Locked(icache, s)
      modifies this`icache
      ensures icache == old(icache)[s := old(icache[s]).(busy := false)]
      ensures old(icache[s].inum) < |ino| && Settling(g, disk, icache, ino, s)
      ensures InodeOn(disk, old(icache[s].inum)) == ino[old(icache[s].inum)] ==> Valid()
    {
      hide FsInv, FreeEmpty;
      ghost var ic0 := icache;
      if InodeOn(disk, icache[s].inum) == ino[icache[s].inum] {
        CoherentSlot(g, disk, icache, ino, s, icache[s].(busy := false));
      }
      icache := icache[s := icache[s].(busy := false)];
      assert icache[s := icache[s].(busy := true)] == ic0;
    }

    /** Assigns to major, minor and nlink of the locked inode in slot s, in core only. */
    method SetMeta(s: nat, major: nat, minor: nat, nlink: nat, ghost files: seq<seq<byte>>)
      requires Valid() && Locked(icache, s) && Holds(g, disk, ino, files)
      requires major < LIMIT16 && minor < LIMIT16 && nlink < LIMIT16
      modifies this`icache, this`ino
      ensures Valid() && Holds(g, disk, ino, files) && Locked(icache, s)
      ensures old(icache[s].inum) < |old(ino)|
      ensures ino == old(ino)[old(icache[s].inum) :=
                       old(ino)[old(icache[s].inum)].(major := major, minor := minor, nlink := nlink)]
      ensures icache == old(icache)[s := old(icache[s]).(d := ino[old(icache[s].inum)])]
    {
      hide Holds, FsInv, AllocInv, FreeEmpty;
      HoldsFacts(g, disk, icache, ino, s, files);
      ghost var i := icache[s].inum;
      ghost var d := ino[i].(major := major, minor := minor, nlink := nlink);
      SetInodeHolds(g, disk, ino, files, i, d);
      HoldsFsInv(g, disk, ino[i := d], files);
      CoherentStep(g, disk, icache, ino, disk, s, d);
      SizeKept(ino, i, d);
      hide Coherent;
      icache := icache[s := icache[s].(d := icache[s].d.(major := major, minor := minor, nlink := nlink))];
      ino := ino[i := d];
    }

    /** ialloc: the first inode whose type on disk is 0.  `ok` is false where the source panics. */
    method Ialloc(typ: nat, ghost files: seq<seq<byte>>) returns (ok: bool, s: nat)
      requires Valid() && Holds(g, disk, ino, files) && 0 < typ < LIMIT16
      modifies this`disk, this`icache, this`ino
      ensures ok ==> s < NINODE
      ensures ok ==> Valid() && Holds(g, disk, ino, files)
      ensures ok ==> var i := icache[s].inum;
                     && 0 < i < |files| == |old(ino)| && old(ino)[i].typ == 0 && files[i] == []
                     && (forall j :: 0 < j < i ==> old(ino)[j].typ != 0)
                     && ino == old(ino)[i := DInode(typ, 0, 0, 0, 0, NoAddrs())]
                     && old(icache)[s].ref == 0 && icache == old(icache)[s := Inode(i, 1, false, false, icache[s].d)]
      ensures ok ==> OthersOnDisk(old(disk), disk, |ino|, icache[s].inum)
      ensures !ok ==> icache == old(icache)
      ensures ok <==> (exists j :: 0 < j < |old(ino)| && old(ino)[j].typ == 0) &&
                      (exists t :: 0 <= t < |old(icache)| && old(icache)[t].ref == 0)
    {
      hide FsInv, FreeEmpty, Holds, Coherent, PutInode, IBlock, SlotOf, OthersOnDisk;
      CoherentLen(g, disk, icache, ino);
      var inum := FindFreeInode();
      if inum == 0 { return false, 0; }
      var d := DInode(typ, 0, 0, 0, 0, NoAddrs());
      IallocDone(g, disk, icache, ino, inum, d, files);
      IallocOthers(g, disk, icache, ino, inum, d);
      disk := PutInode(disk, inum, d);
      ino := ino[inum := d];
      ok, s := Iget(inum);
    }

    /** The scan of ialloc: the first inode whose type on disk is 0, and 0 if there is none. */
    method FindFreeInode() returns (inum: nat)
      requires Coherent(g, disk, icache, ino)
      ensures inum < |ino| && forall j :: 0 < j < inum ==> ino[j].typ != 0
      ensures inum == 0 ==> forall j :: 0 < j < |ino| ==> ino[j].typ != 0
      ensures inum != 0 ==> ino[inum].typ == 0
    {
      var sb := ReadSb(disk);
      inum := 1;
      while inum < sb.ninodes
        invariant 1 <= inum <= g.ninodes
        invariant forall j :: 0 < j < inum ==> ino[j].typ != 0
      {
        var dip := InodeOn(disk, inum);
        if dip.typ == 0 { return; }
        inum := inum + 1;
      }
      return 0;
    }
  }

  lemma ChunkBlock(o: nat, n: nat)
    requires 0 < n && o + n <= MAXFILE * BSIZE
    ensures o / BSIZE < MAXFILE
  {
  }

  function Min(a: nat, b: nat): nat { if a < b then a else b }

  /** How much of what is left lies in the block of offset o. */
  function ChunkLen(o: nat, left: nat): (m: nat)
    requires 0 < left
    ensures 0 < m <= left && o % BSIZE + m <= BSIZE
    ensures m == left || (o + m) % BSIZE == 0
  {
    Min(left, BSIZE - o % BSIZE)
  }

  lemma {:induction false} NoSlot(ic: Cache, inum: nat)
    requires forall t :: 0 <= t < |ic| ==> !(0 < ic[t].ref && ic[t].inum == inum)
    ensures SlotOf(ic, inum) == |ic|
  {
    if ic != [] {
      forall t | 0 <= t < |ic[1..]| ensures !(0 < ic[1..][t].ref && ic[1..][t].inum == inum) { assert ic[1..][t] == ic[t + 1]; }
      NoSlot(ic[1..], inum);
    }
  }

  lemma TakeMore(s: seq<byte>, k: nat, m: nat)
    requires k + m <= |s|
    ensures s[..k] + s[k..k + m] == s[..k + m]
  {
  }

  /** The bytes readi copies out of one block. */
  lemma ReadChunk(disk: Disk, d: DInode, off: nat, m: nat)
    requires FileOk(disk, d) && 0 < m && off + m <= d.size && off % BSIZE + m <= BSIZE
    ensures off / BSIZE < MAXFILE && Ptr(disk, d, DataPtr(off / BSIZE)) != 0
    ensures At(disk, Ptr(disk, d, DataPtr(off / BSIZE)))[off % BSIZE..off % BSIZE + m] == Content(disk, d)[off..off + m]
  {
    var q := off / BSIZE;
    assert q < NBlocks(d.size);
    var l := At(disk, Ptr(disk, d, DataPtr(q)))[off % BSIZE..off % BSIZE + m];
    var c := Content(disk, d)[off..off + m];
    forall j | 0 <= j < m ensures l[j] == c[j] {
      assert c[j] == ByteAt(disk, d, off + j);
      SameBlock(off, m, j);
    }
  }

  lemma SameBlock(off: nat, m: nat, j: nat)
    requires j < m && off % BSIZE + m <= BSIZE
    ensures (off + j) / BSIZE == off / BSIZE && (off + j) % BSIZE == off % BSIZE + j
  {
  }
}
