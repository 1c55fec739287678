/** mkfs: builds the first file system image (xv6/mkfs.c).

    While the image is being built its bitmap is still empty; the blocks below `freeblock` are
    the ones in use.  WithBitmap(disk, n) is the image as it would be if the bitmap of the first n
    blocks were written now: mkfs keeps the invariants of the kernel on that disk, and its last
    step makes it real.
 */
module Mkfs {
  import opened Options
  import opened FsBytes
  import opened FsDisk
  import opened FsFiles
  import opened FsKernel
  import opened FsDirs
  import opened FsPaths
  import opened FsTree
  import opened Counting

  const G: Superblock := Superblock(1024, 995, 200)
  const FIRST: nat := 29     // ninodes / IPB + 3 + bitblocks
  const BITMAP: nat := 28    // ninodes / IPB + 3

  /** The bitmap block with the first n bits set, as balloc's loop builds it. */
  function BitmapOf(n: nat): Block
    requires n <= BPB
  {
    if n == 0 then ZeroBlock()
    else
      var b := BitmapOf(n - 1);
      ByteBits(b[(n - 1) / 8], (n - 1) % 8);
      b[(n - 1) / 8 := SetBit(b[(n - 1) / 8], (n - 1) % 8)]
  }

  function WithBitmap(disk: Disk, n: nat): (r: Disk)
    requires BITMAP < |disk| && n <= BPB
    ensures |r| == |disk| && r[BITMAP] == BitmapOf(n)
    ensures forall b :: 0 <= b < |disk| && b != BITMAP ==> r[b] == disk[b]
  {
    disk[BITMAP := BitmapOf(n)]
  }

  /** Taking the next free block is marking it. */
  lemma NextIsMark(disk: Disk, n: nat)
    requires |disk| == G.size && n < G.size
    ensures WithBitmap(disk, n + 1) == Mark(G, WithBitmap(disk, n), n)
  {
    assert BBlock(n, G.ninodes) == BITMAP && n % BPB == n;
  }

  lemma {:induction false} MarkedBelow(disk: Disk, n: nat, b: nat)
    requires |disk| == G.size && n <= G.size && b < BPB
    ensures Marked(G, WithBitmap(disk, n), b) <==> b < n
  {
    assert BBlock(b, G.ninodes) == BITMAP;
    if n == 0 {
      NoBits(b % 8);
    } else {
      NextIsMark(disk, n - 1);
      assert BBlock(n - 1, G.ninodes) == BITMAP;
      MarkReads(G, WithBitmap(disk, n - 1), n - 1, b);
      MarkedBelow(disk, n - 1, b);
    }
  }

  /** balloc does not notice that a disk is full: with every block of the disk marked, the first clear bit is that of the
      block after the last. */
  lemma FullDiskRunsOver(disk: Disk)
    requires |disk| == G.size
    ensures var full := WithBitmap(disk, G.size);
            && BBlock(G.size, G.ninodes) < |full| && !Marked(G, full, G.size)
            && forall c :: 0 <= c < G.size ==> Marked(G, full, c)
  {
    var full := WithBitmap(disk, G.size);
    forall c | 0 <= c < G.size ensures Marked(G, full, c) { MarkedBelow(disk, G.size, c); }
    MarkedBelow(disk, G.size, G.size);
  }

  lemma {:induction false} NoBits(k: nat)
    ensures !TestBit(0, k)
  {
    if k != 0 { NoBits(k - 1); }
  }

  // The image under construction

  function ZeroInode(): DInode { DInode(0, 0, 0, 0, 0, NoAddrs()) }

  ghost predicate OnDisk(disk: Disk, ino: Table) {
    |disk| == G.size && |ino| == G.ninodes && forall i :: 0 <= i < G.ninodes ==> InodeOn(disk, i) == ino[i]
  }

  ghost predicate Building(disk: Disk, n: nat, freeinode: nat, ino: Table, files: seq<seq<byte>>) {
    && |disk| == G.size && FIRST <= n <= G.size
    && Holds(G, WithBitmap(disk, n), ino, files) && OnDisk(disk, ino)
    && (forall i :: 0 <= i < |ino| && (i == 0 || freeinode <= i) ==> ino[i] == ZeroInode())
  }

  function ZeroDisk(): (d: Disk)
    ensures |d| == G.size && forall b :: 0 <= b < G.size ==> d[b] == ZeroBlock()
  {
    seq(G.size, _ => ZeroBlock())
  }

  function SbBlock(): Block {
    Splice(Splice(Splice(ZeroBlock(), 0, E32(G.size)), 4, E32(G.nblocks)), 8, E32(G.ninodes))
  }

  function EmptyTable(): (t: Table)
    ensures |t| == G.ninodes && forall i :: 0 <= i < |t| ==> t[i] == ZeroInode()
  {
    seq(G.ninodes, _ => ZeroInode())
  }

  function NoFiles(): (f: seq<seq<byte>>)
    ensures |f| == G.ninodes && forall i :: 0 <= i < |f| ==> f[i] == []
  {
    seq(G.ninodes, _ => [])
  }

  lemma SbReads(disk: Disk)
    requires 1 < |disk| && disk[1] == SbBlock()
    ensures ReadSb(disk) == G
  {
    var b0 := ZeroBlock();
    var b1 := Splice(b0, 0, E32(G.size));
    var b2 := Splice(b1, 4, E32(G.nblocks));
    PutU32(b0, 0, G.size, 0);
    PutU32(b1, 4, G.nblocks, 0);
    PutU32(b1, 4, G.nblocks, 4);
    PutU32(b2, 8, G.ninodes, 0);
    PutU32(b2, 8, G.ninodes, 4);
    PutU32(b2, 8, G.ninodes, 8);
  }

  lemma ZeroDecodes(s: seq<byte>)
    requires |s| == DINODE && forall i :: 0 <= i < DINODE ==> s[i] == 0
    ensures DecodeInode(s) == ZeroInode()
  {
    assert DecodeInode(s).addrs == NoAddrs();
  }

  /** The empty image: every block zero, the superblock written. */
  lemma StartHolds()
    ensures Building(ZeroDisk()[1 := SbBlock()], FIRST, 1, EmptyTable(), NoFiles())
  {
    var disk := ZeroDisk()[1 := SbBlock()];
    var v := WithBitmap(disk, FIRST);
    SbReads(v);
    assert Geometry(G, v);
    forall i | 0 <= i < G.ninodes ensures InodeOn(disk, i) == ZeroInode() {
      assert 1 < IBlock(i) < BITMAP;
      ZeroDecodes(disk[IBlock(i)][i % IPB * DINODE..i % IPB * DINODE + DINODE]);
    }
    StartAlloc(v);
    forall i | 0 <= i < G.ninodes
      ensures FileOk(v, EmptyTable()[i]) && Content(v, EmptyTable()[i]) == []
    {
      EmptyFileOk(v);
    }
  }

  lemma EmptyFileOk(disk: Disk)
    ensures FileOk(disk, ZeroInode()) && Content(disk, ZeroInode()) == []
  {
    assert NoHoles(disk, ZeroInode());
  }

  lemma StartAlloc(v: Disk)
    requires Geometry(G, v) && v == WithBitmap(ZeroDisk()[1 := SbBlock()], FIRST)
    ensures AllocInv(G, v, EmptyTable())
  {
    var disk := ZeroDisk()[1 := SbBlock()];
    forall b | 0 <= b < G.size ensures Marked(G, v, b) <==> b < FIRST { MarkedBelow(disk, FIRST, b); }
    assert FreeIsZero(G, v);
    assert MetaMarked(G, v);
  }

  // Blocks are handed out in order

  lemma NextIsFree(disk: Disk, n: nat)
    requires |disk| == G.size && FIRST <= n < G.size
    ensures Data(G, n) && !Marked(G, WithBitmap(disk, n), n)
  {
    MarkedBelow(disk, n, n);
  }

  lemma TakeDirect(disk: Disk, n: nat, ino: Table, i: nat, fbn: nat)
    requires |disk| == G.size && FIRST <= n < G.size && AllocInv(G, WithBitmap(disk, n), ino)
    requires i < |ino| && fbn < NDIRECT && ino[i].addrs[fbn] == 0
    ensures Bmapped(G, WithBitmap(disk, n), ino, WithBitmap(disk, n + 1), SetAddr(ino, i, fbn, n), i, fbn, n)
  {
    NextIsFree(disk, n);
    NextIsMark(disk, n);
    BmapDirect(G, WithBitmap(disk, n), ino, i, fbn, n);
  }

  lemma TakeIndirect(disk: Disk, n: nat, ino: Table, i: nat)
    requires |disk| == G.size && FIRST <= n < G.size && AllocInv(G, WithBitmap(disk, n), ino)
    requires i < |ino| && ino[i].addrs[INDIRECT] == 0
    ensures AllocInv(G, WithBitmap(disk, n + 1), SetAddr(ino, i, INDIRECT, n))
    ensures WithBitmap(disk, n + 1) == Mark(G, WithBitmap(disk, n), n) && Data(G, n) && !Marked(G, WithBitmap(disk, n), n)
  {
    NextIsFree(disk, n);
    NextIsMark(disk, n);
    AddAddr(G, WithBitmap(disk, n), ino, i, INDIRECT, n);
  }

  lemma TakeEntry(disk: Disk, n: nat, ino: Table, i: nat, fbn: nat)
    requires |disk| == G.size && FIRST <= n < G.size && AllocInv(G, WithBitmap(disk, n), ino)
    requires i < |ino| && NDIRECT <= fbn < MAXFILE && ino[i].addrs[INDIRECT] != 0
    requires Ptr(WithBitmap(disk, n), ino[i], DataPtr(fbn)) == 0
    ensures Data(G, ino[i].addrs[INDIRECT])
    ensures var x := ino[i].addrs[INDIRECT];
            var disk2 := disk[x := Splice(disk[x], 4 * (fbn - NDIRECT), E32(n))];
            Bmapped(G, WithBitmap(disk, n), ino, WithBitmap(disk2, n + 1), ino, i, fbn, n)
  {
    NextIsFree(disk, n);
    NextIsMark(disk, n);
    BmapEntry(G, WithBitmap(disk, n), ino, i, fbn, n);
    var x := ino[i].addrs[INDIRECT];
    var disk2 := disk[x := Splice(disk[x], 4 * (fbn - NDIRECT), E32(n))];
    assert WithBitmap(disk2, n + 1) == PutEntry(G, WithBitmap(disk, n), x, fbn - NDIRECT, n);
  }

  /** An inode written to the image is an inode written under the bitmap to come. */
  lemma PutInodeCommutes(disk: Disk, n: nat, i: nat, d: DInode)
    requires |disk| == G.size && n <= G.size && i < G.ninodes && |d.addrs| == NADDRS
    ensures IBlock(i) < BITMAP
    ensures WithBitmap(PutInode(disk, i, d), n) == PutInode(WithBitmap(disk, n), i, d)
  {
  }

  /** winode of inode i, keeping its blocks. */
  lemma WinodeBuilds(disk: Disk, n: nat, freeinode: nat, ino: Table, files: seq<seq<byte>>, i: nat, d: DInode, files2: seq<seq<byte>>)
    requires |disk| == G.size && FIRST <= n <= G.size && OnDisk(disk, ino) && 0 < i < G.ninodes && i < freeinode && Fits(d)
    requires forall j :: 0 <= j < |ino| && (j == 0 || freeinode <= j) ==> ino[j] == ZeroInode()
    requires Holds(G, WithBitmap(disk, n), ino[i := d], files2)
    ensures IBlock(i) < |disk|
    ensures Building(PutInode(disk, i, d), n, freeinode, ino[i := d], files2)
  {
    var v := WithBitmap(disk, n);
    HoldsFsInv(G, v, ino[i := d], files2);
    PutInodeKeepsFsInv(G, v, ino[i := d], i, d);
    PutInodeCommutes(disk, n, i, d);
    forall j | 0 <= j < G.ninodes ensures InodeOn(PutInode(disk, i, d), j) == if j == i then d else ino[j] {
      assert IBlock(j) < BITMAP;
      PutInodeReads(disk, i, d, j);
    }
  }

  class Image {
    var disk: Disk
    var freeblock: nat
    var usedblocks: nat
    var freeinode: nat
    ghost var ino: Table

    /** The image so far holds these files. */
    ghost predicate Valid(files: seq<seq<byte>>)
      reads this
    {
      Building(disk, freeblock, freeinode, ino, files) && usedblocks == freeblock && 0 < freeinode <= G.ninodes
    }

    /** The zeroed image with its superblock. */
    constructor ()
      ensures Valid(NoFiles()) && freeinode == 1
    {
      disk := ZeroDisk()[1 := SbBlock()];
      freeblock, usedblocks, freeinode := FIRST, FIRST, 1;
      ino := EmptyTable();
      new;
      StartHolds();
    }

    /** ialloc: inodes are handed out in order. */
    method Ialloc(typ: nat, ghost files: seq<seq<byte>>) returns (inum: nat)
      requires Valid(files) && freeinode < G.ninodes && 0 < typ < LIMIT16
      modifies this
      ensures Valid(files) && inum == old(freeinode) && freeinode == inum + 1
      ensures inum < |old(ino)| && ino == old(ino)[inum := DInode(typ, 0, 0, 1, 0, NoAddrs())]
      ensures freeblock == old(freeblock)
    {
      hide Building, PutInode, IBlock;
      inum := freeinode;
      freeinode := freeinode + 1;
      var din := DInode(typ, 0, 0, 1, 0, NoAddrs());
      IallocBuilds(disk, freeblock, inum, ino, files, din);
      ino := ino[inum := din];
      disk := PutInode(disk, inum, din);
    }

    /** The block that holds block fbn of a file, taken from the free ones if need be.  `ok` is false when the
        image is full; the source then fails its assertion in balloc. */
    method MapBlock(din: DInode, fbn: nat, ghost i: nat, ghost tab: Table) returns (ok: bool, d: DInode, x: nat)
      requires |disk| == G.size && FIRST <= freeblock <= G.size && AllocInv(G, WithBitmap(disk, freeblock), tab)
      requires i < |tab| && tab[i] == din && fbn < MAXFILE
      modifies this`disk, this`freeblock, this`usedblocks
      ensures usedblocks - old(usedblocks) == freeblock - old(freeblock)
      ensures |disk| == G.size && FIRST <= freeblock <= G.size
      ensures !ok ==> freeblock == G.size
      ensures ok ==> Bmapped(G, WithBitmap(old(disk), old(freeblock)), tab, WithBitmap(disk, freeblock), tab[i := d], i, fbn, x)
    {
      hide Bmapped, AllocInv;
      if fbn < NDIRECT {
        ok, d, x := MapDirect(din, fbn, i, tab);
      } else {
        ok, d, x := MapIndirect(din, fbn, i, tab);
      }
    }

    method MapDirect(din: DInode, fbn: nat, ghost i: nat, ghost tab: Table) returns (ok: bool, d: DInode, x: nat)
      requires |disk| == G.size && FIRST <= freeblock <= G.size && AllocInv(G, WithBitmap(disk, freeblock), tab)
      requires i < |tab| && tab[i] == din && fbn < NDIRECT
      modifies this`freeblock, this`usedblocks
      ensures usedblocks - old(usedblocks) == freeblock - old(freeblock)
      ensures FIRST <= freeblock <= G.size
      ensures !ok ==> freeblock == G.size
      ensures ok ==> Bmapped(G, WithBitmap(disk, old(freeblock)), tab, WithBitmap(disk, freeblock), tab[i := d], i, fbn, x)
    {
      hide AllocInv, Bmapped, WithBitmap;
      TableAddrs(G, WithBitmap(disk, freeblock), tab, i);
      x := din.addrs[fbn];
      if x == 0 {
        if freeblock == G.size { return false, din, 0; }
        TakeDirect(disk, freeblock, tab, i, fbn);
        x := freeblock;
        d := din.(addrs := din.addrs[fbn := x]);
        freeblock, usedblocks := freeblock + 1, usedblocks + 1;
      } else {
        BmapHit(G, WithBitmap(disk, freeblock), tab, i, fbn);
        d := din;
        assert tab[i := d] == tab;
      }
      ok := true;
    }

    method MapIndirect(din: DInode, fbn: nat, ghost i: nat, ghost tab: Table) returns (ok: bool, d: DInode, x: nat)
      requires |disk| == G.size && FIRST <= freeblock <= G.size && AllocInv(G, WithBitmap(disk, freeblock), tab)
      requires i < |tab| && tab[i] == din && NDIRECT <= fbn < MAXFILE
      modifies this`disk, this`freeblock, this`usedblocks
      ensures usedblocks - old(usedblocks) == freeblock - old(freeblock)
      ensures |disk| == G.size && FIRST <= freeblock <= G.size
      ensures !ok ==> freeblock == G.size
      ensures ok ==> Bmapped(G, WithBitmap(old(disk), old(freeblock)), tab, WithBitmap(disk, freeblock), tab[i := d], i, fbn, x)
    {
      hide AllocInv, Bmapped, WithBitmap;
      TableAddrs(G, WithBitmap(disk, freeblock), tab, i);
      if din.addrs[INDIRECT] == 0 {
        if freeblock == G.size { return false, din, 0; }
        ghost var disk0, n := disk, freeblock;
        TakeIndirect(disk, freeblock, tab, i);
        d := din.(addrs := din.addrs[INDIRECT := freeblock]);
        freeblock, usedblocks := freeblock + 1, usedblocks + 1;
        ok, x := MapEntry(d, fbn, i, tab[i := d]);
        if ok {
          BmapBoth(G, WithBitmap(disk0, n), tab, i, fbn, n, WithBitmap(disk, freeblock), tab[i := d], x);
        }
      } else {
        d := din;
        assert tab[i := d] == tab;
        ok, x := MapEntry(d, fbn, i, tab);
      }
    }

    method MapEntry(d: DInode, fbn: nat, ghost i: nat, ghost tab: Table) returns (ok: bool, x: nat)
      requires |disk| == G.size && FIRST <= freeblock <= G.size && AllocInv(G, WithBitmap(disk, freeblock), tab)
      requires i < |tab| && tab[i] == d && NDIRECT <= fbn < MAXFILE && |d.addrs| == NADDRS && d.addrs[INDIRECT] != 0
      modifies this`disk, this`freeblock, this`usedblocks
      ensures usedblocks - old(usedblocks) == freeblock - old(freeblock)
      ensures |disk| == G.size && FIRST <= freeblock <= G.size
      ensures !ok ==> freeblock == G.size
      ensures ok ==> Bmapped(G, WithBitmap(old(disk), old(freeblock)), tab, WithBitmap(disk, freeblock), tab, i, fbn, x)
    {
      EntryRead(disk, freeblock, tab, i, fbn);
      hide AllocInv, Bmapped, WithBitmap, Ptr;
      var a, j := d.addrs[INDIRECT], fbn - NDIRECT;
      var indirect := disk[a];
      x := U32(indirect, 4 * j);
      if x == 0 {
        if freeblock == G.size { return false, 0; }
        TakeEntry(disk, freeblock, tab, i, fbn);
        x := freeblock;
        freeblock, usedblocks := freeblock + 1, usedblocks + 1;
        disk := disk[a := Splice(indirect, 4 * j, E32(x))];
      } else {
        BmapHit(G, WithBitmap(disk, freeblock), tab, i, fbn);
      }
      ok := true;
    }

    /** iappend: adds p to the end of file inum. */
    method Iappend(inum: nat, p: seq<byte>, ghost files: seq<seq<byte>>) returns (ok: bool)
      requires Valid(files) && 0 < inum < freeinode
      modifies this`disk, this`freeblock, this`usedblocks, this`ino
      ensures inum < |files| == |old(ino)|
      ensures usedblocks == freeblock
      ensures !ok ==> freeblock == G.size || MAXFILE * BSIZE < |files[inum]| + |p|
      ensures ok ==> Valid(files[inum := files[inum] + p])
      ensures ok ==> |ino| == |old(ino)| && |files[inum]| + |p| <= MAXFILE * BSIZE
      ensures ok ==> ino == old(ino)[inum := old(ino)[inum].(size := |files[inum]| + |p|, addrs := ino[inum].addrs)]
    {
      hide Building, Writing, OnDisk, SameInodeArea, WithBitmap, InodeOn, PutInode, IBlock;
      ghost var ino0, disk0, n0 := ino, disk, freeblock;
      AppendStarts(disk, freeblock, freeinode, ino, files, inum);
      var din := InodeOn(disk, inum);
      var off := din.size;
      ok, din := AppendAll(din, p, inum, files);
      if !ok { return; }
      AppendEnds(disk0, n0, disk, freeblock, freeinode, ino0, files, inum, din, off, p);
      din := din.(size := off + |p|);
      ino := ino0[inum := din];
      disk := PutInode(disk, inum, din);
    }

    /** The loop of iappend. */
    method AppendAll(din0: DInode, p: seq<byte>, ghost i: nat, ghost files: seq<seq<byte>>) returns (ok: bool, din: DInode)
      requires |disk| == G.size && FIRST <= freeblock <= G.size && usedblocks == freeblock
      requires i < |ino| && ino[i] == din0 && |din0.addrs| == NADDRS && din0.size <= MAXFILE * BSIZE
      requires Writing(G, files, ino, WithBitmap(disk, freeblock), ino, i, din0.size, [])
      modifies this`disk, this`freeblock, this`usedblocks
      ensures |disk| == G.size && FIRST <= freeblock <= G.size && usedblocks == freeblock
      ensures !ok ==> freeblock == G.size || MAXFILE * BSIZE < din0.size + |p|
      ensures ok ==> Writing(G, files, ino, WithBitmap(disk, freeblock), ino[i := din], i, din0.size, p)
      ensures ok ==> SameInodeArea(G, old(disk), disk) && din.size == din0.size
    {
      hide Writing, SameInodeArea, WithBitmap, ChunkLen;
      var done, o := 0, din0.size;
      din := din0;
      ghost var t, disk0 := [], disk;
      SameAreaRefl(G, disk);
      assert ino[i := din] == ino;
      while done < |p|
        invariant 0 <= done <= |p| && t == p[..done] && o == din0.size + done <= MAXFILE * BSIZE && usedblocks == freeblock
        invariant |disk| == G.size && FIRST <= freeblock <= G.size && din.size == din0.size && |din.addrs| == NADDRS
        invariant Writing(G, files, ino, WithBitmap(disk, freeblock), ino[i := din], i, din0.size, t)
        invariant SameInodeArea(G, disk0, disk)
      {
        if MAXFILE <= o / BSIZE { return false, din; }
        var m := ChunkLen(o, |p| - done);
        ChunkInFile(o, m);
        ghost var disk1 := disk;
        TakeMore(p, done, m);
        ok, din := AppendPart(din, p[done..done + m], o, i, files, ino, din0.size, t);
        if !ok { return; }
        SameAreaTrans(G, disk0, disk1, disk);
        done, o, t := done + m, o + m, t + p[done..done + m];
      }
      assert t == p;
      ok := true;
    }

    /** One turn of the loop of iappend. */
    method AppendPart(din: DInode, part: seq<byte>, o: nat, ghost i: nat, ghost files: seq<seq<byte>>, ghost ino0: Table,
                      ghost off: nat, ghost t: seq<byte>)
      returns (ok: bool, d: DInode)
      requires |disk| == G.size && FIRST <= freeblock <= G.size && i < |ino0|
      requires Writing(G, files, ino0, WithBitmap(disk, freeblock), ino0[i := din], i, off, t) && o == off + |t|
      requires din.size == ino0[i].size < LIMIT32 && |din.addrs| == NADDRS
      requires 0 < |part| && o % BSIZE + |part| <= BSIZE && o + |part| <= MAXFILE * BSIZE
      modifies this`disk, this`freeblock, this`usedblocks
      ensures usedblocks - old(usedblocks) == freeblock - old(freeblock)
      ensures |disk| == G.size && FIRST <= freeblock <= G.size
      ensures !ok ==> freeblock == G.size
      ensures ok ==> Writing(G, files, ino0, WithBitmap(disk, freeblock), ino0[i := d], i, off, t + part)
      ensures ok ==> SameInodeArea(G, old(disk), disk) && d.size == ino0[i].size && |d.addrs| == NADDRS
    {
      hide Writing, Bmapped, AllocInv, SameInodeArea, WithBitmap;
      ghost var disk1, n1, tab1 := disk, freeblock, ino0[i := din];
      WritingAlloc(G, files, ino0, WithBitmap(disk, freeblock), tab1, i, off, t);
      var x;
      ok, d, x := MapBlock(din, o / BSIZE, i, tab1);
      if !ok { return; }
      assert tab1[i := d] == ino0[i := d];
      AppendStep(files, ino0, disk1, n1, disk, freeblock, din, d, i, off, t, part, x);
      var buf := disk[x];
      disk := disk[x := Splice(buf, o % BSIZE, part)];
    }

    /** A file given on the command line, read 512 bytes or fewer at a time. */
    method AddData(inum: nat, data: seq<byte>, ghost files: seq<seq<byte>>) returns (ok: bool)
      requires Valid(files) && 0 < inum < freeinode && inum < |files| && files[inum] == []
      modifies this`disk, this`freeblock, this`usedblocks, this`ino
      ensures usedblocks == freeblock
      ensures !ok ==> freeblock == G.size || MAXFILE * BSIZE < |data|
      ensures ok ==> Valid(files[inum := data]) && SameKinds(old(ino), ino)
    {
      hide Building;
      var done := 0;
      ghost var now := files;
      assert files[inum := data[..0]] == files;
      while done < |data|
        invariant 0 <= done <= |data| && Valid(files[inum := data[..done]]) && SameKinds(old(ino), ino)
      {
        var cc :| 0 < cc <= 512 && done + cc <= |data|;
        now := files[inum := data[..done]];
        ok := Iappend(inum, data[done..done + cc], now);
        if !ok { return; }
        assert data[..done] + data[done..done + cc] == data[..done + cc];
        assert now[inum := data[..done + cc]] == files[inum := data[..done + cc]];
        done := done + cc;
      }
      assert data[..done] == data;
      ok := true;
    }

    /** One file of the command line: its inode, its entry in the root directory, its bytes. */
    method AddFile(arg: seq<byte>, data: seq<byte>, ghost named: seq<(seq<byte>, seq<byte>)>) returns (ok: bool)
      requires |named| + 2 < G.ninodes && Valid(Layout(named)) && freeinode == |named| + 2 && Kinds(ino, freeinode)
      modifies this
      ensures usedblocks == freeblock
      ensures !ok ==> SLASH in arg || freeblock == G.size || MAXFILE * BSIZE < |data|
      ensures ok ==> SLASH !in arg && freeinode == |named| + 3 && Kinds(ino, freeinode)
      ensures ok ==> Valid(Layout(named + [(arg, data)]))
    {
      hide Building, Kinds, Layout, Dirent, RootBytes;
      if SLASH in arg { return false; }
      var name := ArgName(arg);
      ghost var files := Layout(named);
      LayoutFacts(named);
      ghost var ino0 := ino;
      var inum := Ialloc(T_FILE, files);
      KindsAdded(ino0, inum, ino);
      ghost var ino1 := ino;
      ok := Iappend(1, Dirent(inum, NameBuf(name)), files);
      if !ok { return; }
      files := files[1 := files[1] + Dirent(inum, NameBuf(name))];
      ok := AddData(inum, data, files);
      if !ok { return; }
      KindsKept(ino1, ino, inum + 1);
      LayoutGrows(named, arg, data);
    }

    /** The root directory, with its entries for itself. */
    method AddRoot() returns (ok: bool)
      requires Valid(NoFiles()) && freeinode == 1
      modifies this
      ensures usedblocks == freeblock && (!ok ==> freeblock == G.size)
      ensures ok ==> Valid(Layout([])) && freeinode == 2 && Kinds(ino, 2)
    {
      hide Building, Dirent;
      ghost var files := NoFiles();
      var rootino := Ialloc(T_DIR, files);
      ghost var ino1 := ino;
      ok := Iappend(rootino, Dirent(rootino, NameBuf(DOT)), files);
      if !ok { return; }
      files := files[1 := files[1] + Dirent(rootino, NameBuf(DOT))];
      ok := Iappend(rootino, Dirent(rootino, NameBuf(DOTDOT)), files);
      if !ok { return; }
      files := files[1 := files[1] + Dirent(rootino, NameBuf(DOTDOT))];
      FirstLayout();
    }

    /** The size of the root directory goes up to the next block boundary beyond it. */
    method FixRoot(ghost files: seq<seq<byte>>)
      requires Valid(files) && 1 < freeinode && |files| == G.ninodes && |files[1]| < MAXFILE * BSIZE
      modifies this`disk, this`ino
      ensures |ino| == G.ninodes && ino[1].size == RoundUp(|files[1]|)
      ensures |files[1]| % BSIZE != 0 ==> Valid(files[1 := files[1] + Zeros(RoundUp(|files[1]|) - |files[1]|)])
      ensures SameKinds(old(ino), ino) && |disk| == G.size
    {
      hide Building, PutInode, IBlock, InodeOn;
      FixStarts(disk, freeblock, freeinode, ino, files);
      var din := InodeOn(disk, 1);
      var off := RoundUp(din.size);
      if din.size % BSIZE != 0 {
        FixBuilds(disk, freeblock, freeinode, ino, files);
      }
      din := din.(size := off);
      ino := ino[1 := din];
      disk := PutInode(disk, 1, din);
    }

    /** balloc: writes the bitmap.  `ok` is false where the source fails its assertion. */
    method Balloc(used: nat) returns (ok: bool)
      requires |disk| == G.size
      modifies this`disk
      ensures ok <==> used < 512
      ensures ok ==> disk == WithBitmap(old(disk), used)
    {
      hide SetBit;
      if 512 <= used { return false; }
      var buf := ZeroBlock();
      for i := 0 to used
        invariant buf == BitmapOf(i) && disk == old(disk)
      {
        ByteBits(buf[i / 8], i % 8);
        buf := buf[i / 8 := SetBit(buf[i / 8], i % 8)];
      }
      disk := disk[BITMAP := buf];
      ok := true;
    }

    /** main, once the zeroed image and its superblock are written.  Unless the directory exactly fills its blocks,
        the kernel can mount the result: its invariants hold, and it has the given files and the root directory that
        names them. */
    method Build(named: seq<(seq<byte>, seq<byte>)>) returns (ok: bool)
      requires Valid(NoFiles()) && freeinode == 1 && |named| + 2 <= G.ninodes
      modifies this
      ensures !ok ==> 512 <= usedblocks || exists k :: 0 <= k < |named| && Refused(named[k])
      ensures ok ==> |disk| == G.size && Kinds(ino, |named| + 2)
      ensures ok && RootHasTail(|named|) ==> KernelInv(G, disk, ColdCache(), ino) && Holds(G, disk, ino, Shipped(named))
      ensures ok && RootHasTail(|named|) ==> DirsOk(ino, Shipped(named))
      ensures ok && RootHasTail(|named|) && CStrings(named) ==> (TreeInv(ino, Shipped(named)) <==> DistinctNames(named))
    {
      hide Building, Kinds, Layout, Refused, Shipped, Holds, KernelInv, DirsOk, TreeInv, DistinctNames, CStrings;
      ok := AddRoot();
      if !ok { return; }
      var i := 0;
      assert named[..0] == [];
      while i < |named|
        invariant 0 <= i <= |named| && Valid(Layout(named[..i])) && freeinode == i + 2 && Kinds(ino, freeinode)
      {
        ok := AddFile(named[i].0, named[i].1, named[..i]);
        if !ok {
          assert freeblock < 512 ==> Refused(named[i]) by { RefusedIs(named[i]); }
          return;
        }
        assert named[..i] + [(named[i].0, named[i].1)] == named[..i + 1];
        i := i + 1;
      }
      assert named[..i] == named;
      LayoutFacts(named);
      ghost var files := Layout(named);
      ghost var ino1 := ino;
      FixRoot(files);
      KindsKept(ino1, ino, freeinode);
      ghost var disk1 := disk;
      ok := Balloc(usedblocks);
      if ok && RootHasTail(|named|) {
        RootTail(named);
        Mountable(disk1, freeblock, freeinode, ino, named);
      }
    }
  }

  // What is on the image

  const UNDERSCORE: byte := 95

  /** The name under which an argument is stored. */
  function ArgName(arg: seq<byte>): seq<byte> {
    if arg != [] && arg[0] == UNDERSCORE then arg[1..] else arg
  }

  /** strncpy into a zeroed name. */
  function NameBuf(name: seq<byte>): (r: seq<byte>)
    ensures |r| == DIRSIZ
  {
    Cut(name) + Zeros(DIRSIZ - |Cut(name)|)
  }

  function RootBytes(named: seq<(seq<byte>, seq<byte>)>): (c: seq<byte>)
    ensures |c| == DIRENT * (|named| + 2)
  {
    if named == [] then Dirent(1, NameBuf(DOT)) + Dirent(1, NameBuf(DOTDOT))
    else
      var n := |named| - 1;
      RootBytes(named[..n]) + Dirent(n + 2, NameBuf(ArgName(named[n].0)))
  }

  /** The files on the image before the size of the root is fixed, by inode number. */
  function Layout(named: seq<(seq<byte>, seq<byte>)>): (files: seq<seq<byte>>)
    requires |named| + 2 <= G.ninodes
    ensures |files| == G.ninodes
  {
    seq(G.ninodes, j requires 0 <= j < G.ninodes =>
      if j == 1 then RootBytes(named) else if 2 <= j < |named| + 2 then named[j - 2].1 else [])
  }

  function RoundUp(n: nat): nat { (n / BSIZE + 1) * BSIZE }

  /** The files on the finished image. */
  function Shipped(named: seq<(seq<byte>, seq<byte>)>): (files: seq<seq<byte>>)
    requires |named| + 2 <= G.ninodes
    ensures |files| == G.ninodes
  {
    var root := RootBytes(named);
    Layout(named)[1 := root + Zeros(RoundUp(|root|) - |root|)]
  }

  /** The last block of a root directory of n files is not full. */
  predicate RootHasTail(n: nat) { (n + 2) % EPB != 0 }

  predicate Refused(file: (seq<byte>, seq<byte>)) {
    SLASH in file.0 || MAXFILE * BSIZE < |file.1|
  }

  lemma RefusedIs(file: (seq<byte>, seq<byte>))
    ensures Refused(file) <==> SLASH in file.0 || MAXFILE * BSIZE < |file.1|
  {
  }

  ghost predicate SameKinds(a: Table, b: Table) {
    |a| == |b| && forall i :: 0 <= i < |a| ==> a[i].typ == b[i].typ && a[i].nlink == b[i].nlink
  }

  /** Inode 1 is a directory and the other m - 2 are files, each with one link. */
  ghost predicate Kinds(ino: Table, m: nat) {
    && |ino| == G.ninodes
    && forall i :: 0 < i < m && i < |ino| ==> ino[i].nlink == 1 && ino[i].typ == if i == 1 then T_DIR else T_FILE
  }

  lemma KindsKept(a: Table, b: Table, m: nat)
    requires Kinds(a, m) && SameKinds(a, b)
    ensures Kinds(b, m)
  {
  }

  lemma KindsAdded(a: Table, m: nat, b: Table)
    requires Kinds(a, m) && 1 < m < |a| && b == a[m := DInode(T_FILE, 0, 0, 1, 0, NoAddrs())]
    ensures Kinds(b, m + 1)
  {
  }

  lemma LayoutFacts(named: seq<(seq<byte>, seq<byte>)>)
    requires |named| + 2 <= G.ninodes
    ensures Layout(named)[1] == RootBytes(named) && |RootBytes(named)| < MAXFILE * BSIZE
    ensures forall j :: |named| + 2 <= j < G.ninodes ==> Layout(named)[j] == []
  {
  }

  lemma FirstLayout()
    ensures var a, b := Dirent(1, NameBuf(DOT)), Dirent(1, NameBuf(DOTDOT));
            var files := NoFiles()[1 := NoFiles()[1] + a];
            Layout([]) == files[1 := files[1] + b]
  {
    hide Dirent;
    var a, b := Dirent(1, NameBuf(DOT)), Dirent(1, NameBuf(DOTDOT));
    assert NoFiles()[1] + a == a;
    assert RootBytes([]) == a + b;
  }

  lemma LayoutGrows(named: seq<(seq<byte>, seq<byte>)>, arg: seq<byte>, data: seq<byte>)
    requires |named| + 2 < G.ninodes
    ensures var n, old0 := |named|, Layout(named);
            Layout(named + [(arg, data)]) == old0[1 := old0[1] + Dirent(n + 2, NameBuf(ArgName(arg)))][n + 2 := data]
  {
    hide Dirent;
    var more := named + [(arg, data)];
    assert more[..|named|] == named;
    assert RootBytes(more) == RootBytes(named) + Dirent(|named| + 2, NameBuf(ArgName(arg)));
  }

  lemma RootTail(named: seq<(seq<byte>, seq<byte>)>)
    requires |named| + 2 <= G.ninodes && RootHasTail(|named|)
    ensures |RootBytes(named)| % BSIZE != 0
    ensures var c := Layout(named)[1]; Shipped(named) == Layout(named)[1 := c + Zeros(RoundUp(|c|) - |c|)]
  {
    hide RootBytes, Layout, Zeros, RoundUp;
    LayoutFacts(named);
    DirentsFill(|named| + 2);
  }

  lemma DirentsFill(n: nat)
    ensures DIRENT * n % BSIZE == 0 <==> n % EPB == 0
  {
    assert DIRENT * n == BSIZE * (n / EPB) + DIRENT * (n % EPB);
  }

  // The size of the root directory

  /** Rounding the size up is harmless exactly when the last block is not full: if it is full, the file gains a hole. */
  lemma RoundUpIsOk(disk: Disk, d: DInode)
    requires FileOk(disk, d) && d.size < MAXFILE * BSIZE
    ensures FileOk(disk, d.(size := RoundUp(d.size))) <==> d.size % BSIZE != 0
    ensures d.size % BSIZE != 0 ==>
              Content(disk, d.(size := RoundUp(d.size))) == Content(disk, d) + Zeros(RoundUp(d.size) - d.size)
  {
    var e := d.(size := RoundUp(d.size));
    var n := d.size / BSIZE;
    forall k | 0 <= k < MAXFILE ensures Ptr(disk, e, DataPtr(k)) == Ptr(disk, d, DataPtr(k)) {}
    if d.size % BSIZE == 0 {
      assert NBlocks(e.size) == n + 1 && NBlocks(d.size) == n;
      assert Ptr(disk, d, DataPtr(n)) == 0;
    } else {
      assert NBlocks(e.size) == NBlocks(d.size) == n + 1;
      assert forall j :: 0 <= j < MAXFILE * BSIZE ==> ByteAt(disk, e, j) == ByteAt(disk, d, j);
      assert NoHoles(disk, e) && ZeroTail(disk, e);
    }
  }

  /** A directory of 32 entries fills its block; rounded up it is a block longer, and that block is a hole. */
  lemma FullBlockGainsHole(disk: Disk, d: DInode)
    requires d.size == BSIZE && d.addrs == NoAddrs()[0 := FIRST]
    ensures FileOk(disk, d) && RoundUp(d.size) == 2 * BSIZE && !FileOk(disk, d.(size := RoundUp(d.size)))
  {
    forall n | 0 <= n < MAXFILE ensures Ptr(disk, d, DataPtr(n)) == if n == 0 then FIRST else 0 {}
    assert NBlocks(d.size) == 1;
    RoundUpIsOk(disk, d);
  }

  lemma FixStarts(disk: Disk, n: nat, freeinode: nat, ino: Table, files: seq<seq<byte>>)
    requires Building(disk, n, freeinode, ino, files)
    ensures |disk| == G.size && |ino| == |files| == G.ninodes && FIRST <= n <= G.size
    ensures IBlock(1) < |disk| && InodeOn(disk, 1) == ino[1] && ino[1].size == |files[1]| && |ino[1].addrs| == NADDRS
  {
    assert Content(WithBitmap(disk, n), ino[1]) == files[1];
    assert FileOk(WithBitmap(disk, n), ino[1]);
  }

  lemma FixBuilds(disk: Disk, n: nat, freeinode: nat, ino: Table, files: seq<seq<byte>>)
    requires Building(disk, n, freeinode, ino, files) && 1 < freeinode && |ino| == |files| == G.ninodes
    requires |files[1]| % BSIZE != 0 && |files[1]| < MAXFILE * BSIZE
    ensures IBlock(1) < |disk| && ino[1].size == |files[1]| && |ino[1].addrs| == NADDRS
    ensures var m := RoundUp(|files[1]|);
            var d := ino[1].(size := m);
            Building(PutInode(disk, 1, d), n, freeinode, ino[1 := d], files[1 := files[1] + Zeros(m - |files[1]|)])
  {
    FixStarts(disk, n, freeinode, ino, files);
    var v := WithBitmap(disk, n);
    var m := RoundUp(|files[1]|);
    var d := ino[1].(size := m);
    var files2 := files[1 := files[1] + Zeros(m - |files[1]|)];
    assert Content(v, ino[1]) == files[1] && FileOk(v, ino[1]);
    RoundUpIsOk(v, ino[1]);
    SetMetaKeepsAllocInv(G, v, ino, 1, d);
    assert Holds(G, v, ino[1 := d], files2);
    WinodeBuilds(disk, n, freeinode, ino, files, 1, d, files2);
  }

  // The finished image, as the kernel finds it

  function ColdCache(): (c: Cache)
    ensures |c| == NINODE && forall s :: 0 <= s < NINODE ==> c[s].ref == 0
  {
    seq(NINODE, _ => Inode(0, 0, false, false, ZeroInode()))
  }

  lemma Mountable(disk: Disk, n: nat, freeinode: nat, ino: Table, named: seq<(seq<byte>, seq<byte>)>)
    requires |named| + 2 <= G.ninodes && freeinode == |named| + 2
    requires Building(disk, n, freeinode, ino, Shipped(named)) && Kinds(ino, freeinode)
    ensures KernelInv(G, WithBitmap(disk, n), ColdCache(), ino)
    ensures Holds(G, WithBitmap(disk, n), ino, Shipped(named)) && DirsOk(ino, Shipped(named))
    ensures CStrings(named) ==> (TreeInv(ino, Shipped(named)) <==> DistinctNames(named))
  {
    hide Shipped, TreeInv, DistinctNames;
    if CStrings(named) { ImageIsTree(ino, named); }
    var v := WithBitmap(disk, n);
    HoldsFsInv(G, v, ino, Shipped(named));
    forall i | 0 <= i < G.ninodes ensures InodeOn(v, i) == ino[i] {
      assert IBlock(i) < BITMAP;
    }
    RootIsDir(ino, named);
  }

  /** Storing the bytes in the block that MapBlock gave. */
  lemma AppendStep(files: seq<seq<byte>>, ino0: Table, disk1: Disk, n1: nat, disk2: Disk, n2: nat, din: DInode, d: DInode,
                   i: nat, off: nat, t: seq<byte>, part: seq<byte>, x: nat)
    requires |disk1| == |disk2| == G.size && FIRST <= n1 <= G.size && FIRST <= n2 <= G.size && i < |ino0|
    requires Writing(G, files, ino0, WithBitmap(disk1, n1), ino0[i := din], i, off, t) && din.size == ino0[i].size
    requires Bmapped(G, WithBitmap(disk1, n1), ino0[i := din], WithBitmap(disk2, n2), ino0[i := d], i, (off + |t|) / BSIZE, x)
    requires 0 < |part| && (off + |t|) % BSIZE + |part| <= BSIZE && off + |t| + |part| <= MAXFILE * BSIZE
    ensures x < |disk2| && d.size == ino0[i].size && |d.addrs| == NADDRS
    ensures var disk3 := disk2[x := Splice(disk2[x], (off + |t|) % BSIZE, part)];
            && Writing(G, files, ino0, WithBitmap(disk3, n2), ino0[i := d], i, off, t + part)
            && SameInodeArea(G, disk1, disk3)
  {
    hide Writing, Bmapped;
    var o := off + |t|;
    WritingStep(G, files, ino0, WithBitmap(disk1, n1), ino0[i := din], WithBitmap(disk2, n2), ino0[i := d], i, off, t, part, x);
    BmappedFacts(G, WithBitmap(disk1, n1), ino0[i := din], WithBitmap(disk2, n2), ino0[i := d], i, o / BSIZE, x);
    var disk3 := disk2[x := Splice(disk2[x], o % BSIZE, part)];
    assert WithBitmap(disk3, n2) == PutBytes(WithBitmap(disk2, n2), x, o % BSIZE, part);
    forall c | 0 <= c < G.ninodes / IPB + 3 ensures At(disk3, c) == At(disk1, c) {
      assert At(WithBitmap(disk2, n2), c) == At(WithBitmap(disk1, n1), c);
    }
  }

  lemma BmappedFacts(g: Superblock, disk1: Disk, ino1: Table, disk2: Disk, ino2: Table, i: nat, n: nat, a: nat)
    requires Bmapped(g, disk1, ino1, disk2, ino2, i, n, a)
    ensures Data(g, a) && |disk2| == g.size && |ino2[i].addrs| == NADDRS && ino2[i].size == ino1[i].size
    ensures forall c :: 0 <= c < g.ninodes / IPB + 3 ==> At(disk2, c) == At(disk1, c)
  {
  }

  lemma AppendStarts(disk: Disk, n: nat, freeinode: nat, ino: Table, files: seq<seq<byte>>, i: nat)
    requires Building(disk, n, freeinode, ino, files) && 0 < i < G.ninodes
    ensures |files| == |ino| == G.ninodes && |disk| == G.size && FIRST <= n <= G.size
    ensures IBlock(i) < |disk| && InodeOn(disk, i) == ino[i] && ino[i].size == |files[i]| <= MAXFILE * BSIZE
    ensures ino[i := ino[i]] == ino && SameInodeArea(G, disk, disk)
    ensures Writing(G, files, ino, WithBitmap(disk, n), ino, i, ino[i].size, [])
  {
    assert Content(WithBitmap(disk, n), ino[i]) == files[i];
    assert FileOk(WithBitmap(disk, n), ino[i]);
    WritingStarts(G, files, WithBitmap(disk, n), ino, i, ino[i].size);
  }

  lemma ChunkInFile(o: nat, m: nat)
    requires o / BSIZE < MAXFILE && o % BSIZE + m <= BSIZE
    ensures o + m <= MAXFILE * BSIZE
  {
  }

  lemma AppendEnds(disk0: Disk, n0: nat, disk: Disk, n: nat, freeinode: nat, ino0: Table, files: seq<seq<byte>>, i: nat, din: DInode,
                   off: nat, p: seq<byte>)
    requires Building(disk0, n0, freeinode, ino0, files) && |disk| == G.size && SameInodeArea(G, disk0, disk)
    requires FIRST <= n <= G.size && 0 < i < freeinode && i < G.ninodes && i < |ino0|
    requires Writing(G, files, ino0, WithBitmap(disk, n), ino0[i := din], i, off, p) && din.size == off == ino0[i].size
    ensures off == |files[i]|
    ensures IBlock(i) < |disk| && |din.addrs| == NADDRS && off + |p| <= MAXFILE * BSIZE
    ensures var d := din.(size := off + |p|);
            && Building(PutInode(disk, i, d), n, freeinode, ino0[i := d], files[i := files[i] + p])
            && d == ino0[i].(size := off + |p|, addrs := d.addrs)
  {
    var d := din.(size := off + |p|);
    var v := WithBitmap(disk, n);
    AppendStarts(disk0, n0, freeinode, ino0, files, i);
    assert Grow(ino0[i := din], i, off + |p|) == ino0[i := d];
    assert Written(files[i], off, p) == files[i] + p;
    HoldsFsInv(G, v, ino0[i := d], files[i := files[i] + p]);
    assert FileOk(v, ino0[i := d][i]) && Fits(ino0[i := d][i]);
    assert OnDisk(disk, ino0) by {
      forall j | 0 <= j < G.ninodes ensures InodeOn(disk, j) == ino0[j] {
        assert At(disk, IBlock(j)) == At(disk0, IBlock(j));
      }
    }
    assert din == ino0[i].(addrs := din.addrs) by { assert ino0[i := din][i] == din; }
    WinodeBuilds(disk, n, freeinode, ino0, files, i, d, files[i := files[i] + p]);
  }

  lemma TableAddrs(g: Superblock, disk: Disk, tab: Table, i: nat)
    requires AllocInv(g, disk, tab) && i < |tab|
    ensures Fits(tab[i]) && |tab[i].addrs| == NADDRS
  {
  }

  lemma EntryRead(disk: Disk, n: nat, tab: Table, i: nat, fbn: nat)
    requires |disk| == G.size && FIRST <= n <= G.size && AllocInv(G, WithBitmap(disk, n), tab)
    requires i < |tab| && NDIRECT <= fbn < MAXFILE && tab[i].addrs[INDIRECT] != 0
    ensures Data(G, tab[i].addrs[INDIRECT])
    ensures U32(disk[tab[i].addrs[INDIRECT]], 4 * (fbn - NDIRECT)) == Ptr(WithBitmap(disk, n), tab[i], DataPtr(fbn))
  {
    IndirectIsData(G, WithBitmap(disk, n), tab, i);
  }

  lemma IallocBuilds(disk: Disk, n: nat, i: nat, ino: Table, files: seq<seq<byte>>, d: DInode)
    requires Building(disk, n, i, ino, files) && 0 < i < G.ninodes && 0 < d.typ < LIMIT16
    requires d == DInode(d.typ, 0, 0, 1, 0, NoAddrs())
    ensures IBlock(i) < |disk| && i < |ino|
    ensures Building(PutInode(disk, i, d), n, i + 1, ino[i := d], files)
  {
    SetInodeHolds(G, WithBitmap(disk, n), ino, files, i, d);
    WinodeBuilds(disk, n, i + 1, ino, files, i, d, files);
  }

  // The root directory

  ghost predicate CStrings(named: seq<(seq<byte>, seq<byte>)>) {
    forall k :: 0 <= k < |named| ==> 0 !in named[k].0
  }

  function EntryInum(e: nat): nat { if e < 2 then 1 else e }

  function EntryName(named: seq<(seq<byte>, seq<byte>)>, e: nat): Name
    requires e < |named| + 2
  {
    if e == 0 then DOT else if e == 1 then DOTDOT else Cut(ArgName(named[e - 2].0))
  }

  lemma BufHolds(name: seq<byte>)
    requires 0 !in name
    ensures CName(NameBuf(name)) == Cut(name)
  {
    CNameOfPadded(Cut(name), DIRSIZ - |Cut(name)|);
  }

  /** Entries of a directory made of two parts. */
  lemma EntryOfParts(a: seq<byte>, b: seq<byte>, e: nat)
    requires IsDir(a) && e < Count(a + b) && |b| % DIRENT == 0
    ensures e < Count(a) ==> InumAt(a + b, e) == InumAt(a, e) && NameAt(a + b, e) == NameAt(a, e)
    ensures Count(a) <= e ==>
              && e - Count(a) < Count(b) && InumAt(a + b, e) == InumAt(b, e - Count(a))
              && NameAt(a + b, e) == NameAt(b, e - Count(a))
  {
    var c := a + b;
    if e < Count(a) {
      assert c[DIRENT * e + 2..DIRENT * e + DIRENT] == a[DIRENT * e + 2..DIRENT * e + DIRENT];
    } else {
      var k := e - Count(a);
      assert c[DIRENT * e + 2..DIRENT * e + DIRENT] == b[DIRENT * k + 2..DIRENT * k + DIRENT];
    }
  }

  lemma DirentIs(inum: nat, name: seq<byte>)
    requires inum < LIMIT16
    ensures var de := Dirent(inum, NameBuf(name));
            InumAt(de, 0) == inum && (0 !in name ==> NameAt(de, 0) == Cut(name))
  {
    DirentReads(inum, NameBuf(name));
    if 0 !in name { BufHolds(name); }
  }

  lemma {:induction false} RootEntry(named: seq<(seq<byte>, seq<byte>)>, e: nat)
    requires e < |named| + 2 <= G.ninodes
    ensures InumAt(RootBytes(named), e) == EntryInum(e)
    ensures CStrings(named) ==> NameAt(RootBytes(named), e) == EntryName(named, e)
  {
    hide Dirent, NameBuf, Cut, InumAt, NameAt;
    var n := |named| - 1;
    if named == [] {
      DirentIs(1, DOT);
      DirentIs(1, DOTDOT);
      CutDots();
      EntryOfParts(Dirent(1, NameBuf(DOT)), Dirent(1, NameBuf(DOTDOT)), e);
    } else {
      var name := ArgName(named[n].0);
      DirentIs(n + 2, name);
      EntryOfParts(RootBytes(named[..n]), Dirent(n + 2, NameBuf(name)), e);
      if e < n + 2 { RootEntry(named[..n], e); }
    }
  }

  lemma CutDots()
    ensures Cut(DOT) == DOT && Cut(DOTDOT) == DOTDOT
  {
  }

  /** The entries of the root directory of the finished image. */
  lemma ShippedEntry(named: seq<(seq<byte>, seq<byte>)>, e: nat)
    requires |named| + 2 <= G.ninodes && e < Count(Shipped(named)[1])
    ensures InumAt(Shipped(named)[1], e) == if e < |named| + 2 then EntryInum(e) else 0
    ensures e < |named| + 2 && CStrings(named) ==> NameAt(Shipped(named)[1], e) == EntryName(named, e)
  {
    hide RootBytes;
    var root := RootBytes(named);
    EntryOfParts(root, Zeros(RoundUp(|root|) - |root|), e);
    if e < |named| + 2 { RootEntry(named, e); }
  }

  lemma ShippedRoot(named: seq<(seq<byte>, seq<byte>)>)
    requires |named| + 2 <= G.ninodes
    ensures IsDir(Shipped(named)[1]) && |named| + 2 <= Count(Shipped(named)[1])
    ensures forall k :: 0 <= k < |named| ==> Shipped(named)[k + 2] == named[k].1
  {
  }

  lemma RootIsDir(ino: Table, named: seq<(seq<byte>, seq<byte>)>)
    requires |named| + 2 <= G.ninodes && Kinds(ino, |named| + 2)
    requires forall i :: |named| + 2 <= i < |ino| ==> ino[i].typ == 0
    requires ino[0].typ == 0
    ensures DirsOk(ino, Shipped(named))
  {
    var c := Shipped(named)[1];
    ShippedRoot(named);
    hide Shipped;
    forall e | 0 <= e < Count(c) && InumAt(c, e) != 0
      ensures InumAt(c, e) < |ino| && ino[InumAt(c, e)].typ != 0 && ino[InumAt(c, e)].nlink != 0
    {
      ShippedEntry(named, e);
    }
  }

  ghost predicate DistinctNames(named: seq<(seq<byte>, seq<byte>)>) {
    forall e, k :: 0 <= e < |named| + 2 && 0 <= k < |named| + 2 && e != k ==> EntryName(named, e) != EntryName(named, k)
  }

  /** mkfs makes a directory without duplicates exactly when the names, cut to DIRSIZ bytes, differ from each other and
      from "." and "..". */
  lemma RootNamesOnce(named: seq<(seq<byte>, seq<byte>)>)
    requires |named| + 2 <= G.ninodes && CStrings(named)
    ensures NamesOnce(Shipped(named)[1]) <==> DistinctNames(named)
  {
    var c := Shipped(named)[1];
    ShippedRoot(named);
    hide Shipped, EntryName, InumAt, NameAt, Count;
    forall e | 0 <= e < Count(c)
      ensures InumAt(c, e) == if e < |named| + 2 then EntryInum(e) else 0
      ensures e < |named| + 2 ==> NameAt(c, e) == EntryName(named, e)
    {
      ShippedEntry(named, e);
    }
  }

  /** The argument "_cat" is stored as "cat", and so is "cat". */
  predicate StoredAs(arg: seq<byte>, name: seq<byte>) {
    arg == [95] + name || (arg == name && (name == [] || name[0] != 95))
  }

  /** The path "/" and the name of an argument, without its underscore, leads to the inode of that file, and the inode
      holds the bytes given. */
  lemma FileFound(ino: Table, named: seq<(seq<byte>, seq<byte>)>, k: nat, name: seq<byte>)
    requires |named| + 2 <= G.ninodes && CStrings(named) && DistinctNames(named) && k < |named|
    requires DirsOk(ino, Shipped(named)) && Kinds(ino, |named| + 2)
    requires StoredAs(named[k].0, name) && name != [] && SLASH !in name
    ensures Resolve(ino, Shipped(named), 1, Components([SLASH] + name)) == Some(k + 2)
    ensures Shipped(named)[k + 2] == named[k].1
  {
    var c, nm := Shipped(named)[1], Cut(name);
    assert ArgName(named[k].0) == name;
    ShippedRoot(named);
    RootNamesOnce(named);
    ShippedEntry(named, k + 2);
    OneComponent(name);
    hide Shipped, InumAt, NameAt, Count, DirsOk, NamesOnce, FindFrom, Components;
    assert Matches(c, k + 2, nm);
    LookupIs(c, nm, k + 2);
    ghost var path: seq<Name> := [nm];
    assert path[1..] == [];
  }

  lemma OneComponent(name: seq<byte>)
    requires name != [] && SLASH !in name
    ensures Components([SLASH] + name) == [Cut(name)]
  {
    FirstOfRendered([name], [1, 0]);
    var none: seq<seq<byte>> := [];
    assert [name][1..] == none;
    assert Render(none, [1, 0][1..]) == [];
    assert Render([name], [1, 0]) == [SLASH] + name;
    assert Components([]) == [];
  }

  // The image as a tree with link counts

  /** Nobody has more than one name, and the names are those of the root directory. */
  lemma RootCounts(named: seq<(seq<byte>, seq<byte>)>, j: nat)
    requires |named| + 2 <= G.ninodes && CStrings(named)
    ensures CountIn(DirMap(Shipped(named)[1]), j) <= if 1 <= j < |named| + 2 then 1 else 0
  {
    var c := Shipped(named)[1];
    var names := NamesFor(DirMap(c), j);
    var only: set<Name> := if 1 <= j < |named| + 2 then {EntryName(named, if j == 1 then 1 else j)} else {};
    hide Shipped, DirMap, Lookup, EntryName;
    forall nm | nm in names ensures nm in only { RootName(named, nm, j); }
    Subset(names, only);
  }

  lemma Subset(a: set<Name>, b: set<Name>)
    requires forall x :: x in a ==> x in b
    ensures |a| <= |b|
  {
    if a != {} {
      var x :| x in a;
      Subset(a - {x}, b - {x});
    }
  }

  lemma RootName(named: seq<(seq<byte>, seq<byte>)>, nm: Name, j: nat)
    requires |named| + 2 <= G.ninodes && CStrings(named) && nm in NamesFor(DirMap(Shipped(named)[1]), j)
    ensures 1 <= j < |named| + 2 && nm == EntryName(named, if j == 1 then 1 else j)
  {
    var c := Shipped(named)[1];
    DirMapIs(c, nm);
    hide Shipped, DirMap, InumAt, NameAt;
    var e := FindFrom(c, nm, 0);
    ShippedEntry(named, e);
  }

  /** What every entry of the root names. */
  lemma RootLookup(named: seq<(seq<byte>, seq<byte>)>, nm: Name)
    requires |named| + 2 <= G.ninodes && CStrings(named) && Lookup(Shipped(named)[1], nm).Some?
    ensures var j := Lookup(Shipped(named)[1], nm).value;
            1 <= j < |named| + 2 && (nm == DOT ==> j == 1) && (j == 1 ==> nm == DOT || nm == DOTDOT)
  {
    var c := Shipped(named)[1];
    ShippedRoot(named);
    ShippedEntry(named, 0);
    hide Shipped, InumAt, NameAt;
    assert Matches(c, 0, DOT);
    ShippedEntry(named, FindFrom(c, nm, 0));
  }

  lemma OnlyRoot(ino: Table, named: seq<(seq<byte>, seq<byte>)>, j: nat)
    requires |named| + 2 <= G.ninodes && CStrings(named) && Kinds(ino, |named| + 2)
    requires ino[0].typ == 0 && forall i :: |named| + 2 <= i < |ino| ==> ino[i].typ == 0
    ensures Named(Maps(ino, Shipped(named)), j) <= if 1 <= j < |named| + 2 then 1 else 0
  {
    var maps := Maps(ino, Shipped(named));
    RootCounts(named, j);
    hide Shipped, DirMap, NamesFor;
    assert maps[1] == DirMap(Shipped(named)[1]);
    forall d | 0 <= d < |maps| && d != 1 ensures CountIn(maps[d], j) == 0 {
      assert maps[d] == map[];
      NoNames(j);
    }
    hide Maps, Kinds;
    SumOne(seq(|maps|, d requires 0 <= d < |maps| => CountIn(maps[d], j)), 1);
  }

  lemma NoNames(j: nat)
    ensures CountIn(map[], j) == 0
  {
    assert NamesFor(map[], j) == {};
  }

  lemma ImageCounted(ino: Table, named: seq<(seq<byte>, seq<byte>)>)
    requires |named| + 2 <= G.ninodes && CStrings(named) && Kinds(ino, |named| + 2) && NamesOnce(Shipped(named)[1])
    requires forall i :: 0 <= i < |ino| && (i == 0 || |named| + 2 <= i) ==> ino[i] == ZeroInode()
    ensures Counted(ino, Shipped(named))
  {
    var files := Shipped(named);
    ShippedRoot(named);
    hide Shipped, Named, Maps, NamesOnce, Lookup;
    forall i | 0 <= i < |ino| ensures Named(Maps(ino, files), i) <= ino[i].nlink < SHRT { OnlyRoot(ino, named, i); }
    forall nm | Lookup(files[1], nm).Some? ensures EntryWell(ino, 1, nm, Lookup(files[1], nm).value) { RootLookup(named, nm); }
    assert DirWell(ino, 1, files[1]);
  }

  /** The image is a sound tree, with link counts that cover the names, exactly when the names differ. */
  lemma ImageIsTree(ino: Table, named: seq<(seq<byte>, seq<byte>)>)
    requires |named| + 2 <= G.ninodes && CStrings(named) && Kinds(ino, |named| + 2)
    requires forall i :: 0 <= i < |ino| && (i == 0 || |named| + 2 <= i) ==> ino[i] == ZeroInode()
    ensures TreeInv(ino, Shipped(named)) <==> DistinctNames(named)
  {
    var files := Shipped(named);
    RootNamesOnce(named);
    if DistinctNames(named) {
      ImageCounted(ino, named);
      ImageDots(named);
      hide Shipped, Counted, Lookup, Dotted;
    } else {
      hide Shipped, DistinctNames, Lookup, NamesOnce, Dotted;
      if TreeInv(ino, files) { DirIsOnce(ino, files, 1); }
    }
  }

  lemma ImageDots(named: seq<(seq<byte>, seq<byte>)>)
    requires |named| + 2 <= G.ninodes && CStrings(named) && NamesOnce(Shipped(named)[1])
    ensures Dotted(1, Shipped(named)[1]) && Lookup(Shipped(named)[1], DOTDOT) == Some(1)
  {
    var c := Shipped(named)[1];
    ShippedRoot(named);
    ShippedEntry(named, 0);
    ShippedEntry(named, 1);
    hide Shipped, InumAt, NameAt, NamesOnce;
    LookupIs(c, DOTDOT, 1);
  }
}
