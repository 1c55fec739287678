/** Files on the block disk: which blocks an inode reaches, and the bytes it holds.

    `ino` is the table of inodes as the running kernel sees them.  Each inode has 141 block
    pointers: its 12 direct ones, the indirect block, and the 128 words of the indirect block.
 */
module FsFiles {
  import opened FsBytes
  import opened FsDisk

  const NPTRS: nat := 141

  type Table = seq<DInode>

  function At(disk: Disk, a: nat): Block {
    if a < |disk| then disk[a] else ZeroBlock()
  }

  /** Pointer k of inode d; 0 when there is none. */
  function Ptr(disk: Disk, d: DInode, k: nat): nat
    requires |d.addrs| == NADDRS && k < NPTRS
  {
    if k <= INDIRECT then d.addrs[k]
    else if d.addrs[INDIRECT] == 0 then 0
    else U32(At(disk, d.addrs[INDIRECT]), 4 * (k - NADDRS))
  }

  /** The pointer that leads to block n of a file. */
  function DataPtr(n: nat): nat {
    if n < NDIRECT then n else n + 1
  }

  ghost predicate TableOk(g: Superblock, ino: Table) {
    |ino| == g.ninodes && forall i :: 0 <= i < |ino| ==> Fits(ino[i])
  }

  ghost predicate Data(g: Superblock, b: nat) { DataStart(g) <= b < g.size }

  /** Every block an inode reaches is a data block marked in use. */
  ghost predicate Owned(g: Superblock, disk: Disk, ino: Table)
    requires TableOk(g, ino)
  {
    forall i, k :: 0 <= i < |ino| && 0 <= k < NPTRS && Ptr(disk, ino[i], k) != 0 ==>
      Data(g, Ptr(disk, ino[i], k)) && Marked(g, disk, Ptr(disk, ino[i], k))
  }

  /** No block is reached in two ways. */
  ghost predicate Unshared(g: Superblock, disk: Disk, ino: Table)
    requires TableOk(g, ino)
  {
    forall i, k, j, l ::
      0 <= i < |ino| && 0 <= k < NPTRS && 0 <= j < |ino| && 0 <= l < NPTRS ==>
      Ptr(disk, ino[i], k) != 0 && Ptr(disk, ino[i], k) == Ptr(disk, ino[j], l) ==> i == j && k == l
  }

  /** Free blocks hold zeroes. */
  ghost predicate FreeIsZero(g: Superblock, disk: Disk) {
    forall b :: Data(g, b) && !Marked(g, disk, b) ==> At(disk, b) == ZeroBlock()
  }

  /** Blocks that are not data blocks are never free. */
  ghost predicate MetaMarked(g: Superblock, disk: Disk) {
    forall b :: 0 <= b < DataStart(g) ==> Marked(g, disk, b)
  }

  /** What block allocation relies on and keeps. */
  ghost predicate AllocInv(g: Superblock, disk: Disk, ino: Table) {
    && Geometry(g, disk) && TableOk(g, ino)
    && Owned(g, disk, ino) && Unshared(g, disk, ino)
    && FreeIsZero(g, disk) && MetaMarked(g, disk)
  }

  // The bytes of a file

  function NBlocks(size: nat): nat { (size + BSIZE - 1) / BSIZE }

  function ByteAt(disk: Disk, d: DInode, j: nat): byte
    requires |d.addrs| == NADDRS && j < MAXFILE * BSIZE
  {
    At(disk, Ptr(disk, d, DataPtr(j / BSIZE)))[j % BSIZE]
  }

  /** The file: what readi returns of it. */
  function Content(disk: Disk, d: DInode): (s: seq<byte>)
    requires |d.addrs| == NADDRS && d.size <= MAXFILE * BSIZE
    ensures |s| == d.size
  {
    seq(d.size, j requires 0 <= j < d.size => ByteAt(disk, d, j))
  }

  /** A file has exactly the blocks its size calls for. */
  ghost predicate NoHoles(disk: Disk, d: DInode)
    requires |d.addrs| == NADDRS
  {
    && (forall n :: 0 <= n < MAXFILE ==> (Ptr(disk, d, DataPtr(n)) != 0 <==> n < NBlocks(d.size)))
    && (d.addrs[INDIRECT] != 0 <==> NDIRECT < NBlocks(d.size))
  }

  /** Bytes past the end of the file, in its last block, are zero. */
  ghost predicate ZeroTail(disk: Disk, d: DInode)
    requires |d.addrs| == NADDRS && d.size <= MAXFILE * BSIZE
  {
    forall j :: d.size <= j < NBlocks(d.size) * BSIZE ==> ByteAt(disk, d, j) == 0
  }

  ghost predicate FileOk(disk: Disk, d: DInode) {
    |d.addrs| == NADDRS && d.size <= MAXFILE * BSIZE && NoHoles(disk, d) && ZeroTail(disk, d)
  }

  ghost predicate FilesOk(disk: Disk, ino: Table) {
    forall i :: 0 <= i < |ino| ==> FileOk(disk, ino[i])
  }

  /** The invariant between file system operations. */
  ghost predicate FsInv(g: Superblock, disk: Disk, ino: Table) {
    AllocInv(g, disk, ino) && FilesOk(disk, ino)
  }

  /** The disk and the inode table represent these files, one byte sequence per inode. */
  ghost predicate Holds(g: Superblock, disk: Disk, ino: Table, files: seq<seq<byte>>) {
    && FsInv(g, disk, ino) && |files| == |ino|
    && forall i :: 0 <= i < |ino| ==> Content(disk, ino[i]) == files[i]
  }

  // Adding one pointer

  /** (disk2, ino2) differs from (disk1, ino1) in pointer (i0, k0) only: it now is b, which was free. */
  ghost predicate AddsPointer(g: Superblock, disk1: Disk, ino1: Table, disk2: Disk, ino2: Table,
                              i0: nat, k0: nat, b: nat)
    requires TableOk(g, ino1) && TableOk(g, ino2)
  {
    && i0 < |ino1| && k0 < NPTRS && Data(g, b) && !Marked(g, disk1, b) && Ptr(disk1, ino1[i0], k0) == 0
    && (forall c :: 0 <= c < g.size ==> (Marked(g, disk2, c) <==> c == b || Marked(g, disk1, c)))
    && (forall i, k :: 0 <= i < |ino1| && 0 <= k < NPTRS ==>
          Ptr(disk2, ino2[i], k) == if i == i0 && k == k0 then b else Ptr(disk1, ino1[i], k))
    && (forall c :: Data(g, c) && !Marked(g, disk2, c) ==> At(disk2, c) == At(disk1, c))
  }

  lemma AddPointerKeepsAllocInv(g: Superblock, disk1: Disk, ino1: Table, disk2: Disk, ino2: Table,
                                i0: nat, k0: nat, b: nat)
    requires AllocInv(g, disk1, ino1) && Geometry(g, disk2) && TableOk(g, ino2)
    requires AddsPointer(g, disk1, ino1, disk2, ino2, i0, k0, b)
    ensures AllocInv(g, disk2, ino2)
  {
    assert Owned(g, disk2, ino2);
    assert FreeIsZero(g, disk2);
  }

  // Changing blocks

  /** disk2 agrees with disk1 on everything but bitmap blocks and the data block x. */
  ghost predicate SameBut(g: Superblock, disk1: Disk, disk2: Disk, x: nat) {
    && |disk2| == |disk1|
    && (forall c :: 0 <= c < g.ninodes / IPB + 3 ==> At(disk2, c) == At(disk1, c))
    && (forall c :: DataStart(g) <= c && c != x ==> At(disk2, c) == At(disk1, c))
  }

  lemma MarkFrame(g: Superblock, disk: Disk, b: nat)
    requires Geometry(g, disk) && b < g.size
    ensures Geometry(g, Mark(g, disk, b)) && SameBut(g, disk, Mark(g, disk, b), 0)
    ensures forall c :: 0 <= c < g.size ==> (Marked(g, Mark(g, disk, b), c) <==> c == b || Marked(g, disk, c))
    ensures Geometry(g, Unmark(g, disk, b)) && SameBut(g, disk, Unmark(g, disk, b), 0)
    ensures forall c :: 0 <= c < g.size ==> (Marked(g, Unmark(g, disk, b), c) <==> c != b && Marked(g, disk, c))
  {
    Regions(g, disk);
    forall c | 0 <= c < g.size
      ensures Marked(g, Mark(g, disk, b), c) <==> c == b || Marked(g, disk, c)
      ensures Marked(g, Unmark(g, disk, b), c) <==> c != b && Marked(g, disk, c)
    {
      MarkReads(g, disk, b, c);
    }
  }

  lemma SetBlockFrame(g: Superblock, disk: Disk, x: nat, v: Block)
    requires Geometry(g, disk) && Data(g, x)
    ensures Geometry(g, disk[x := v]) && SameBut(g, disk, disk[x := v], x)
    ensures forall c :: 0 <= c < g.size ==> (Marked(g, disk[x := v], c) <==> Marked(g, disk, c))
  {
    Regions(g, disk);
  }

  lemma SamePtr(g: Superblock, disk1: Disk, disk2: Disk, x: nat, d: DInode, k: nat)
    requires SameBut(g, disk1, disk2, x) && |d.addrs| == NADDRS && k < NPTRS
    requires d.addrs[INDIRECT] == 0 || (DataStart(g) <= d.addrs[INDIRECT] && d.addrs[INDIRECT] != x)
    ensures Ptr(disk2, d, k) == Ptr(disk1, d, k)
  {
  }

  lemma IndirectIsData(g: Superblock, disk: Disk, ino: Table, i: nat)
    requires TableOk(g, ino) && Owned(g, disk, ino) && i < |ino|
    ensures ino[i].addrs[INDIRECT] == 0 || Data(g, ino[i].addrs[INDIRECT])
  {
    assert Ptr(disk, ino[i], INDIRECT) == ino[i].addrs[INDIRECT];
  }

  function SetAddr(ino: Table, i: nat, k: nat, b: nat): Table
    requires i < |ino| && |ino[i].addrs| == NADDRS && k < NADDRS
  {
    ino[i := ino[i].(addrs := ino[i].addrs[k := b])]
  }

  /** bmap gives a file a direct block, or an empty indirect block. */
  lemma AddAddr(g: Superblock, disk: Disk, ino: Table, i0: nat, k0: nat, b: nat)
    requires AllocInv(g, disk, ino) && i0 < |ino| && k0 < NADDRS && ino[i0].addrs[k0] == 0
    requires Data(g, b) && !Marked(g, disk, b)
    ensures TableOk(g, SetAddr(ino, i0, k0, b))
    ensures AddsPointer(g, disk, ino, Mark(g, disk, b), SetAddr(ino, i0, k0, b), i0, k0, b)
    ensures AllocInv(g, Mark(g, disk, b), SetAddr(ino, i0, k0, b))
  {
    var disk2, ino2 := Mark(g, disk, b), SetAddr(ino, i0, k0, b);
    MarkFrame(g, disk, b);
    forall i, k | 0 <= i < |ino| && 0 <= k < NPTRS
      ensures Ptr(disk2, ino2[i], k) == if i == i0 && k == k0 then b else Ptr(disk, ino[i], k)
    {
      if i == i0 && k0 == INDIRECT {
        if INDIRECT < k { ZeroWords(4 * (k - NADDRS)); }
      } else {
        IndirectIsData(g, disk, ino, i);
        SamePtr(g, disk, disk2, 0, ino[i], k);
      }
    }
    AddPointerKeepsAllocInv(g, disk, ino, disk2, ino2, i0, k0, b);
  }

  /** bmap writes block b into word j of the indirect block. */
  function PutEntry(g: Superblock, disk: Disk, x: nat, j: nat, b: nat): (r: Disk)
    requires Geometry(g, disk) && Data(g, x) && j < NINDIRECT && b < g.size
  {
    Regions(g, disk);
    var m := Mark(g, disk, b);
    m[x := Splice(disk[x], 4 * j, E32(b))]
  }

  /** Storing an entry into an indirect block, apart from what it means for the pointers. */
  lemma AddEntryFrame(g: Superblock, disk: Disk, ino: Table, i0: nat, j: nat, b: nat)
    requires AllocInv(g, disk, ino) && i0 < |ino| && ino[i0].addrs[INDIRECT] != 0
    requires j < NINDIRECT && Data(g, b) && !Marked(g, disk, b)
    ensures TableOk(g, ino) && b < LIMIT32
    ensures Data(g, ino[i0].addrs[INDIRECT]) && ino[i0].addrs[INDIRECT] != b && ino[i0].addrs[INDIRECT] < |disk|
    ensures var x := ino[i0].addrs[INDIRECT];
            var disk2 := PutEntry(g, disk, x, j, b);
            && Geometry(g, disk2) && SameBut(g, disk, disk2, x) && At(disk2, x) == Splice(disk[x], 4 * j, E32(b))
            && (forall c :: 0 <= c < g.size ==> (Marked(g, disk2, c) <==> c == b || Marked(g, disk, c)))
            && (forall c :: Data(g, c) && !Marked(g, disk2, c) ==> At(disk2, c) == At(disk, c))
  {
    var x := ino[i0].addrs[INDIRECT];
    IndirectIsData(g, disk, ino, i0);
    assert Ptr(disk, ino[i0], INDIRECT) == x && Marked(g, disk, x);
    Regions(g, disk);
    MarkFrame(g, disk, b);
    SetBlockFrame(g, Mark(g, disk, b), x, Splice(disk[x], 4 * j, E32(b)));
  }

  lemma AddEntry(g: Superblock, disk: Disk, ino: Table, i0: nat, j: nat, b: nat)
    requires AllocInv(g, disk, ino) && i0 < |ino| && ino[i0].addrs[INDIRECT] != 0
    requires j < NINDIRECT && Ptr(disk, ino[i0], NADDRS + j) == 0
    requires Data(g, b) && !Marked(g, disk, b)
    ensures Data(g, ino[i0].addrs[INDIRECT]) && ino[i0].addrs[INDIRECT] != b
    ensures var disk2 := PutEntry(g, disk, ino[i0].addrs[INDIRECT], j, b);
            && SameBut(g, disk, disk2, ino[i0].addrs[INDIRECT])
            && AddsPointer(g, disk, ino, disk2, ino, i0, NADDRS + j, b)
            && AllocInv(g, disk2, ino)
  {
    AddEntryFrame(g, disk, ino, i0, j, b);
    var x := ino[i0].addrs[INDIRECT];
    var disk2 := PutEntry(g, disk, x, j, b);
    hide AllocInv, Ptr, Marked, PutEntry, SameBut, Geometry;
    forall i, k | 0 <= i < |ino| && 0 <= k < NPTRS
      ensures Ptr(disk2, ino[i], k) == if i == i0 && k == NADDRS + j then b else Ptr(disk, ino[i], k)
    {
      EntryPtrs(g, disk, ino, disk2, i0, j, b, i, k);
    }
    AddPointerKeepsAllocInv(g, disk, ino, disk2, ino, i0, NADDRS + j, b);
  }

  lemma EntryPtrs(g: Superblock, disk: Disk, ino: Table, disk2: Disk, i0: nat, j: nat, b: nat, i: nat, k: nat)
    requires AllocInv(g, disk, ino) && i0 < |ino| && i < |ino| && k < NPTRS && j < NINDIRECT && b < LIMIT32
    requires ino[i0].addrs[INDIRECT] != 0 && ino[i0].addrs[INDIRECT] < |disk|
    requires SameBut(g, disk, disk2, ino[i0].addrs[INDIRECT])
    requires At(disk2, ino[i0].addrs[INDIRECT]) == Splice(disk[ino[i0].addrs[INDIRECT]], 4 * j, E32(b))
    ensures Ptr(disk2, ino[i], k) == if i == i0 && k == NADDRS + j then b else Ptr(disk, ino[i], k)
  {
    var x := ino[i0].addrs[INDIRECT];
    if i == i0 {
      if INDIRECT < k { PutU32(disk[x], 4 * j, b, 4 * (k - NADDRS)); }
    } else {
      IndirectIsData(g, disk, ino, i);
      assert Ptr(disk, ino[i], INDIRECT) == ino[i].addrs[INDIRECT];
      assert Ptr(disk, ino[i0], INDIRECT) == x;
      SamePtr(g, disk, disk2, x, ino[i], k);
    }
  }

  // bmap

  /** bmap(ip, n, 1) took (disk1, ino1) to (disk2, ino2) and returned a. */
  ghost predicate Bmapped(g: Superblock, disk1: Disk, ino1: Table, disk2: Disk, ino2: Table,
                          i0: nat, n: nat, a: nat)
  {
    && AllocInv(g, disk1, ino1) && AllocInv(g, disk2, ino2) && i0 < |ino1| && n < MAXFILE
    && ino2 == ino1[i0 := ino1[i0].(addrs := ino2[i0].addrs)]
    && Data(g, a) && a == Ptr(disk2, ino2[i0], DataPtr(n))
    && (Ptr(disk1, ino1[i0], DataPtr(n)) != 0 ==>
          ino2 == ino1 && disk2 == disk1)
    && (Ptr(disk1, ino1[i0], DataPtr(n)) == 0 ==>
          !Marked(g, disk1, a) && Marked(g, disk2, a) && At(disk2, a) == ZeroBlock())
    && (forall i, k :: 0 <= i < |ino1| && 0 <= k < NPTRS && (i != i0 || (k != DataPtr(n) && k != INDIRECT)) ==>
          Ptr(disk2, ino2[i], k) == Ptr(disk1, ino1[i], k))
    && (ino2[i0].addrs[INDIRECT] != 0 <==> ino1[i0].addrs[INDIRECT] != 0 || NDIRECT <= n)
    && SameFileData(g, disk1, ino1, disk2)
    && (forall c :: 0 <= c < g.ninodes / IPB + 3 ==> At(disk2, c) == At(disk1, c))
  }

  /** The blocks that hold file bytes are as they were. */
  ghost predicate SameFileData(g: Superblock, disk1: Disk, ino1: Table, disk2: Disk)
    requires TableOk(g, ino1)
  {
    forall i, k :: 0 <= i < |ino1| && 0 <= k < NPTRS && k != INDIRECT && Ptr(disk1, ino1[i], k) != 0 ==>
      At(disk2, Ptr(disk1, ino1[i], k)) == At(disk1, Ptr(disk1, ino1[i], k))
  }

  lemma BmapHit(g: Superblock, disk: Disk, ino: Table, i0: nat, n: nat)
    requires AllocInv(g, disk, ino) && i0 < |ino| && n < MAXFILE && Ptr(disk, ino[i0], DataPtr(n)) != 0
    ensures Bmapped(g, disk, ino, disk, ino, i0, n, Ptr(disk, ino[i0], DataPtr(n)))
  {
  }

  lemma BmapDirect(g: Superblock, disk: Disk, ino: Table, i0: nat, n: nat, b: nat)
    requires AllocInv(g, disk, ino) && i0 < |ino| && n < NDIRECT && ino[i0].addrs[n] == 0
    requires Data(g, b) && !Marked(g, disk, b)
    ensures Bmapped(g, disk, ino, Mark(g, disk, b), SetAddr(ino, i0, n, b), i0, n, b)
  {
    AddAddr(g, disk, ino, i0, n, b);
    MarkFrame(g, disk, b);
    var disk2, ino2 := Mark(g, disk, b), SetAddr(ino, i0, n, b);
    assert SameFileData(g, disk, ino, disk2);
    assert Ptr(disk, ino[i0], DataPtr(n)) == 0;
    assert ino2[i0].addrs[INDIRECT] == ino[i0].addrs[INDIRECT];
  }

  lemma BmapEntry(g: Superblock, disk: Disk, ino: Table, i0: nat, n: nat, b: nat)
    requires AllocInv(g, disk, ino) && i0 < |ino| && NDIRECT <= n < MAXFILE && ino[i0].addrs[INDIRECT] != 0
    requires Ptr(disk, ino[i0], DataPtr(n)) == 0 && Data(g, b) && !Marked(g, disk, b)
    ensures Data(g, ino[i0].addrs[INDIRECT])
    ensures Bmapped(g, disk, ino, PutEntry(g, disk, ino[i0].addrs[INDIRECT], n - NDIRECT, b), ino, i0, n, b)
  {
    var x := ino[i0].addrs[INDIRECT];
    AddEntry(g, disk, ino, i0, n - NDIRECT, b);
    var disk2 := PutEntry(g, disk, x, n - NDIRECT, b);
    assert Ptr(disk, ino[i0], INDIRECT) == x;
    assert SameFileData(g, disk, ino, disk2);
    assert ino == ino[i0 := ino[i0].(addrs := ino[i0].addrs)];
  }

  /** First an empty indirect block x, then an entry in it. */
  lemma BmapBoth(g: Superblock, disk: Disk, ino: Table, i0: nat, n: nat, x: nat, disk2: Disk, ino2: Table, b: nat)
    requires AllocInv(g, disk, ino) && i0 < |ino| && NDIRECT <= n < MAXFILE && ino[i0].addrs[INDIRECT] == 0
    requires Data(g, x) && !Marked(g, disk, x)
    requires Bmapped(g, Mark(g, disk, x), SetAddr(ino, i0, INDIRECT, x), disk2, ino2, i0, n, b)
    ensures Bmapped(g, disk, ino, disk2, ino2, i0, n, b)
  {
    var disk1, ino1 := Mark(g, disk, x), SetAddr(ino, i0, INDIRECT, x);
    AddAddr(g, disk, ino, i0, INDIRECT, x);
    MarkFrame(g, disk, x);
    assert Ptr(disk1, ino1[i0], DataPtr(n)) == Ptr(disk, ino[i0], DataPtr(n)) == 0;
    BmapBothData(g, disk, ino, disk1, ino1, disk2, i0, x);
  }

  lemma BmapBothData(g: Superblock, disk: Disk, ino: Table, disk1: Disk, ino1: Table, disk2: Disk, i0: nat, x: nat)
    requires AllocInv(g, disk, ino) && TableOk(g, ino1)
    requires AddsPointer(g, disk, ino, disk1, ino1, i0, INDIRECT, x)
    requires SameBut(g, disk, disk1, 0) && SameFileData(g, disk1, ino1, disk2)
    ensures SameFileData(g, disk, ino, disk2)
  {
    forall i, k | 0 <= i < |ino| && 0 <= k < NPTRS && k != INDIRECT && Ptr(disk, ino[i], k) != 0
      ensures At(disk2, Ptr(disk, ino[i], k)) == At(disk, Ptr(disk, ino[i], k))
    {
      assert Ptr(disk1, ino1[i], k) == Ptr(disk, ino[i], k);
    }
  }

  // Writing bytes into one block

  function Max(a: nat, b: nat): nat { if a < b then b else a }

  /** The table once file i0 has grown to reach end. */
  function Grow(ino: Table, i0: nat, end: nat): Table
    requires i0 < |ino|
  {
    ino[i0 := ino[i0].(size := Max(ino[i0].size, end))]
  }

  /** Storing into a block of file data moves no pointer. */
  lemma SetDataKeepsAllocInv(g: Superblock, disk: Disk, ino: Table, i0: nat, k0: nat, v: Block)
    requires AllocInv(g, disk, ino) && i0 < |ino| && k0 < NPTRS && k0 != INDIRECT && Ptr(disk, ino[i0], k0) != 0
    ensures Data(g, Ptr(disk, ino[i0], k0))
    ensures var disk2 := disk[Ptr(disk, ino[i0], k0) := v];
            && AllocInv(g, disk2, ino)
            && SameBut(g, disk, disk2, Ptr(disk, ino[i0], k0))
            && forall i, k :: 0 <= i < |ino| && 0 <= k < NPTRS ==> Ptr(disk2, ino[i], k) == Ptr(disk, ino[i], k)
  {
    var a := Ptr(disk, ino[i0], k0);
    var disk2 := disk[a := v];
    SetBlockFrame(g, disk, a, v);
    forall i, k | 0 <= i < |ino| && 0 <= k < NPTRS ensures Ptr(disk2, ino[i], k) == Ptr(disk, ino[i], k) {
      IndirectIsData(g, disk, ino, i);
      assert Ptr(disk, ino[i], INDIRECT) == ino[i].addrs[INDIRECT];
      SamePtr(g, disk, disk2, a, ino[i], k);
    }
    assert Owned(g, disk2, ino);
    assert Unshared(g, disk2, ino);
    forall b | 0 <= b < DataStart(g) ensures Marked(g, disk2, b) { assert Marked(g, disk, b); }
    assert FreeIsZero(g, disk2);
  }

  /** Sizes play no part in allocation. */
  lemma GrowKeepsAllocInv(g: Superblock, disk: Disk, ino: Table, i0: nat, end: nat)
    requires AllocInv(g, disk, ino) && i0 < |ino| && end < LIMIT32
    ensures AllocInv(g, disk, Grow(ino, i0, end))
    ensures forall i, k :: 0 <= i < |ino| && 0 <= k < NPTRS ==> Ptr(disk, Grow(ino, i0, end)[i], k) == Ptr(disk, ino[i], k)
  {
    var ino2 := Grow(ino, i0, end);
    assert forall i, k :: 0 <= i < |ino| && 0 <= k < NPTRS ==> Ptr(disk, ino2[i], k) == Ptr(disk, ino[i], k);
    assert Owned(g, disk, ino2);
    assert Unshared(g, disk, ino2);
  }

  /** One turn of writei's loop: bmap, then bytes t at offset off, inside one block. */
  ghost predicate ChunkWritten(g: Superblock, disk1: Disk, ino1: Table, disk2: Disk, ino2: Table,
                               i0: nat, off: nat, t: seq<byte>, a: nat)
  {
    && FsInv(g, disk1, ino1) && Bmapped(g, disk1, ino1, disk2, ino2, i0, off / BSIZE, a)
    && off <= ino1[i0].size && 0 < |t| && off % BSIZE + |t| <= BSIZE
  }

  function PutBytes(disk: Disk, a: nat, o: nat, t: seq<byte>): Disk
    requires a < |disk| && o + |t| <= BSIZE
  {
    disk[a := Splice(disk[a], o, t)]
  }

  lemma ChunkSizes(size: nat, off: nat, m: nat)
    requires off <= size && 0 < m && off % BSIZE + m <= BSIZE
    ensures (off + m - 1) / BSIZE == off / BSIZE <= NBlocks(size)
    ensures NBlocks(Max(size, off + m)) == Max(NBlocks(size), off / BSIZE + 1)
  {
    var q := off / BSIZE;
    assert q * BSIZE <= off + m - 1 < (q + 1) * BSIZE;
  }

  /** Bytes of the block that was written. */
  lemma SplicedByte(disk: Disk, d: DInode, a: nat, base: Block, off: nat, t: seq<byte>, j: nat)
    requires |d.addrs| == NADDRS && j < MAXFILE * BSIZE && j / BSIZE == off / BSIZE && off % BSIZE + |t| <= BSIZE
    requires Ptr(disk, d, DataPtr(j / BSIZE)) == a < |disk| && disk[a] == Splice(base, off % BSIZE, t)
    ensures ByteAt(disk, d, j) == if off <= j < off + |t| then t[j - off] else base[j % BSIZE]
  {
    assert j - off == j % BSIZE - off % BSIZE;
  }

  /** Pointers and blocks other than the one written. */
  lemma OtherBlock(g: Superblock, disk: Disk, ino: Table, i0: nat, k0: nat, v: Block, i: nat, k: nat)
    requires AllocInv(g, disk, ino) && i0 < |ino| && k0 < NPTRS && k0 != INDIRECT && Ptr(disk, ino[i0], k0) != 0
    requires i < |ino| && k < NPTRS
    ensures Data(g, Ptr(disk, ino[i0], k0))
    ensures var disk2 := disk[Ptr(disk, ino[i0], k0) := v];
            && Ptr(disk2, ino[i], k) == Ptr(disk, ino[i], k)
            && ((i != i0 || k != k0) && Ptr(disk, ino[i], k) != 0 ==>
                  At(disk2, Ptr(disk, ino[i], k)) == At(disk, Ptr(disk, ino[i], k)))
  {
    SetDataKeepsAllocInv(g, disk, ino, i0, k0, v);
  }

  /** The bytes of the written file, in the block that was written. */
  lemma ChunkBytesHere(g: Superblock, disk1: Disk, ino1: Table, disk2: Disk, ino2: Table,
                       i0: nat, off: nat, t: seq<byte>, a: nat, j: nat)
    requires ChunkWritten(g, disk1, ino1, disk2, ino2, i0, off, t, a)
    requires j < MAXFILE * BSIZE && j / BSIZE == off / BSIZE
    ensures ByteAt(PutBytes(disk2, a, off % BSIZE, t), ino2[i0], j) ==
              if off <= j < off + |t| then t[j - off]
              else if j / BSIZE < NBlocks(ino1[i0].size) then ByteAt(disk1, ino1[i0], j)
              else 0
  {
    var k := DataPtr(j / BSIZE);
    OtherBlock(g, disk2, ino2, i0, k, Splice(disk2[a], off % BSIZE, t), i0, k);
    SplicedByte(PutBytes(disk2, a, off % BSIZE, t), ino2[i0], a, disk2[a], off, t, j);
    assert FileOk(disk1, ino1[i0]);
  }

  /** All other file bytes. */
  lemma ChunkBlocksElsewhere(g: Superblock, disk1: Disk, ino1: Table, disk2: Disk, ino2: Table,
                             i0: nat, off: nat, t: seq<byte>, a: nat, i: nat, k: nat)
    requires ChunkWritten(g, disk1, ino1, disk2, ino2, i0, off, t, a) && i < |ino1| && k < NPTRS
    requires i != i0 || (k != DataPtr(off / BSIZE) && k != INDIRECT)
    ensures var disk3 := PutBytes(disk2, a, off % BSIZE, t);
            && Ptr(disk3, ino2[i], k) == Ptr(disk1, ino1[i], k)
            && (k != INDIRECT && Ptr(disk1, ino1[i], k) != 0 ==>
                  At(disk3, Ptr(disk1, ino1[i], k)) == At(disk1, Ptr(disk1, ino1[i], k)))
  {
    OtherBlock(g, disk2, ino2, i0, DataPtr(off / BSIZE), Splice(disk2[a], off % BSIZE, t), i, k);
  }

  /** The bytes of the written file after the chunk. */
  lemma ChunkBytes(g: Superblock, disk1: Disk, ino1: Table, disk2: Disk, ino2: Table,
                   i0: nat, off: nat, t: seq<byte>, a: nat, j: nat)
    requires ChunkWritten(g, disk1, ino1, disk2, ino2, i0, off, t, a)
    requires j < MAXFILE * BSIZE
    requires j / BSIZE < NBlocks(ino1[i0].size) || j / BSIZE == off / BSIZE
    ensures ByteAt(PutBytes(disk2, a, off % BSIZE, t), ino2[i0], j) ==
              if off <= j < off + |t| then t[j - off]
              else if j / BSIZE < NBlocks(ino1[i0].size) then ByteAt(disk1, ino1[i0], j)
              else 0
  {
    if j / BSIZE == off / BSIZE {
      ChunkBytesHere(g, disk1, ino1, disk2, ino2, i0, off, t, a, j);
    } else {
      ChunkBlocksElsewhere(g, disk1, ino1, disk2, ino2, i0, off, t, a, i0, DataPtr(j / BSIZE));
      ChunkElsewhere(off, |t|, j);
      assert FileOk(disk1, ino1[i0]);
    }
  }

  lemma ChunkElsewhere(off: nat, m: nat, j: nat)
    requires 0 < m && off % BSIZE + m <= BSIZE && j / BSIZE != off / BSIZE
    ensures !(off <= j < off + m)
  {
  }

  /** The file after t is written at off. */
  function Written(s: seq<byte>, off: nat, t: seq<byte>): (r: seq<byte>)
    requires off <= |s|
    ensures |r| == Max(|s|, off + |t|)
    ensures forall j :: 0 <= j < |r| ==> r[j] == if off <= j < off + |t| then t[j - off] else s[j]
  {
    s[..off] + t + if off + |t| < |s| then s[off + |t|..] else []
  }

  /** After one turn of writei's loop: which pointers of the written file are set. */
  lemma ChunkPointers(g: Superblock, disk1: Disk, ino1: Table, disk2: Disk, ino2: Table,
                      i0: nat, off: nat, t: seq<byte>, a: nat, n: nat)
    requires Bmapped(g, disk1, ino1, disk2, ino2, i0, off / BSIZE, a) && off % BSIZE + |t| <= BSIZE && n < MAXFILE
    ensures Ptr(PutBytes(disk2, a, off % BSIZE, t), Grow(ino2, i0, off + |t|)[i0], DataPtr(n)) != 0 <==>
            n == off / BSIZE || Ptr(disk1, ino1[i0], DataPtr(n)) != 0
  {
    var disk3 := PutBytes(disk2, a, off % BSIZE, t);
    assert Ptr(disk3, Grow(ino2, i0, off + |t|)[i0], DataPtr(n)) == Ptr(disk3, ino2[i0], DataPtr(n));
    OtherBlock(g, disk2, ino2, i0, DataPtr(off / BSIZE), Splice(disk2[a], off % BSIZE, t), i0, DataPtr(n));
  }

  lemma GapSizes(size: nat, off: nat, m: nat)
    requires 0 < m && off % BSIZE + m <= BSIZE
    ensures NBlocks(Max(size, off + m)) == Max(NBlocks(size), off / BSIZE + 1)
  {
    var q := off / BSIZE;
    assert q * BSIZE <= off + m - 1 < (q + 1) * BSIZE;
  }

  /** A turn of writei's loop at any offset keeps a file without holes exactly when it leaves no block out. */
  lemma GapIsHole(g: Superblock, disk1: Disk, ino1: Table, disk2: Disk, ino2: Table,
                  i0: nat, off: nat, t: seq<byte>, a: nat)
    requires Bmapped(g, disk1, ino1, disk2, ino2, i0, off / BSIZE, a) && FileOk(disk1, ino1[i0])
    requires 0 < |t| && off % BSIZE + |t| <= BSIZE
    ensures NoHoles(PutBytes(disk2, a, off % BSIZE, t), Grow(ino2, i0, off + |t|)[i0]) <==>
            off / BSIZE <= NBlocks(ino1[i0].size)
  {
    var disk3, q, b := PutBytes(disk2, a, off % BSIZE, t), off / BSIZE, NBlocks(ino1[i0].size);
    var d3 := Grow(ino2, i0, off + |t|)[i0];
    GapSizes(ino1[i0].size, off, |t|);
    forall n | 0 <= n < MAXFILE ensures Ptr(disk3, d3, DataPtr(n)) != 0 <==> n == q || n < b {
      ChunkPointers(g, disk1, ino1, disk2, ino2, i0, off, t, a, n);
    }
    hide Ptr, PutBytes, NBlocks, AllocInv, ZeroTail;
    if q > b { assert Ptr(disk3, d3, DataPtr(b)) == 0; }
  }

  lemma ChunkNoHoles(g: Superblock, disk1: Disk, ino1: Table, disk2: Disk, ino2: Table,
                     i0: nat, off: nat, t: seq<byte>, a: nat)
    requires ChunkWritten(g, disk1, ino1, disk2, ino2, i0, off, t, a)
    ensures NoHoles(PutBytes(disk2, a, off % BSIZE, t), Grow(ino2, i0, off + |t|)[i0])
  {
    ChunkSizes(ino1[i0].size, off, |t|);
    assert FileOk(disk1, ino1[i0]);
    GapIsHole(g, disk1, ino1, disk2, ino2, i0, off, t, a);
  }

  lemma ChunkZeroTail(g: Superblock, disk1: Disk, ino1: Table, disk2: Disk, ino2: Table,
                      i0: nat, off: nat, t: seq<byte>, a: nat, j: nat)
    requires ChunkWritten(g, disk1, ino1, disk2, ino2, i0, off, t, a) && off + |t| <= MAXFILE * BSIZE
    requires var size := Max(ino1[i0].size, off + |t|); size <= j < NBlocks(size) * BSIZE
    ensures j < MAXFILE * BSIZE && ByteAt(PutBytes(disk2, a, off % BSIZE, t), ino2[i0], j) == 0
  {
    assert FileOk(disk1, ino1[i0]);
    ChunkSizes(ino1[i0].size, off, |t|);
    ChunkBytes(g, disk1, ino1, disk2, ino2, i0, off, t, a, j);
    hide AllocInv, Bmapped, NoHoles;
  }

  lemma ChunkFileOk(g: Superblock, disk1: Disk, ino1: Table, disk2: Disk, ino2: Table,
                    i0: nat, off: nat, t: seq<byte>, a: nat)
    requires ChunkWritten(g, disk1, ino1, disk2, ino2, i0, off, t, a) && off + |t| <= MAXFILE * BSIZE
    ensures FileOk(PutBytes(disk2, a, off % BSIZE, t), Grow(ino2, i0, off + |t|)[i0])
  {
    hide ChunkWritten, PutBytes, NoHoles, ByteAt;
    ChunkGrown(g, disk1, ino1, disk2, ino2, i0, off, t, a);
    var disk3 := PutBytes(disk2, a, off % BSIZE, t);
    var d3 := Grow(ino2, i0, off + |t|)[i0];
    ChunkNoHoles(g, disk1, ino1, disk2, ino2, i0, off, t, a);
    forall j | d3.size <= j < NBlocks(d3.size) * BSIZE ensures ByteAt(disk3, d3, j) == 0 {
      ChunkZeroTail(g, disk1, ino1, disk2, ino2, i0, off, t, a, j);
      SameAddrsByte(disk3, d3, ino2[i0], j);
    }
  }

  lemma ChunkGrown(g: Superblock, disk1: Disk, ino1: Table, disk2: Disk, ino2: Table, i0: nat, off: nat, t: seq<byte>, a: nat)
    requires ChunkWritten(g, disk1, ino1, disk2, ino2, i0, off, t, a)
    ensures i0 < |ino1| == |ino2| && |ino2[i0].addrs| == NADDRS && ino2[i0].size == ino1[i0].size <= MAXFILE * BSIZE
    ensures a < |disk2| && off % BSIZE + |t| <= BSIZE
  {
    assert FileOk(disk1, ino1[i0]);
  }

  lemma SameAddrsByte(disk: Disk, d: DInode, e: DInode, j: nat)
    requires |d.addrs| == NADDRS && d.addrs == e.addrs && j < MAXFILE * BSIZE
    ensures ByteAt(disk, d, j) == ByteAt(disk, e, j)
  {
  }

  lemma ChunkOthersOk(g: Superblock, disk1: Disk, ino1: Table, disk2: Disk, ino2: Table,
                      i0: nat, off: nat, t: seq<byte>, a: nat, i: nat)
    requires ChunkWritten(g, disk1, ino1, disk2, ino2, i0, off, t, a) && i < |ino1| && i != i0
    ensures ino2[i] == ino1[i]
    ensures FileOk(PutBytes(disk2, a, off % BSIZE, t), ino2[i])
    ensures Content(PutBytes(disk2, a, off % BSIZE, t), ino2[i]) == Content(disk1, ino1[i])
  {
    var disk3 := PutBytes(disk2, a, off % BSIZE, t);
    forall k | 0 <= k < NPTRS
      ensures Ptr(disk3, ino1[i], k) == Ptr(disk1, ino1[i], k)
      ensures k != INDIRECT && Ptr(disk1, ino1[i], k) != 0 ==>
                At(disk3, Ptr(disk1, ino1[i], k)) == At(disk1, Ptr(disk1, ino1[i], k))
    {
      ChunkBlocksElsewhere(g, disk1, ino1, disk2, ino2, i0, off, t, a, i, k);
    }
    SameDataSameFile(g, disk1, ino1, disk3, i);
  }

  lemma ChunkAlloc(g: Superblock, disk1: Disk, ino1: Table, disk2: Disk, ino2: Table,
                   i0: nat, off: nat, t: seq<byte>, a: nat)
    requires ChunkWritten(g, disk1, ino1, disk2, ino2, i0, off, t, a) && off + |t| <= MAXFILE * BSIZE
    ensures AllocInv(g, PutBytes(disk2, a, off % BSIZE, t), Grow(ino2, i0, off + |t|))
    ensures a < |disk2| && off % BSIZE + |t| <= BSIZE && i0 < |ino1| == |ino2| && off <= ino1[i0].size
  {
    SetDataKeepsAllocInv(g, disk2, ino2, i0, DataPtr(off / BSIZE), Splice(disk2[a], off % BSIZE, t));
    GrowKeepsAllocInv(g, PutBytes(disk2, a, off % BSIZE, t), ino2, i0, off + |t|);
  }

  /** A turn of writei's loop changes one file, as asked, and nothing else. */
  lemma ChunkHolds(g: Superblock, disk1: Disk, ino1: Table, disk2: Disk, ino2: Table,
                   i0: nat, off: nat, t: seq<byte>, a: nat, files: seq<seq<byte>>)
    requires ChunkWritten(g, disk1, ino1, disk2, ino2, i0, off, t, a) && off + |t| <= MAXFILE * BSIZE
    requires Holds(g, disk1, ino1, files)
    ensures off <= |files[i0]|
    ensures Holds(g, PutBytes(disk2, a, off % BSIZE, t), Grow(ino2, i0, off + |t|), files[i0 := Written(files[i0], off, t)])
  {
    hide ChunkWritten, AllocInv, NoHoles, ZeroTail, Bmapped, PutBytes, Written;
    ChunkAlloc(g, disk1, ino1, disk2, ino2, i0, off, t, a);
    var disk3, ino3 := PutBytes(disk2, a, off % BSIZE, t), Grow(ino2, i0, off + |t|);
    ChunkFileOk(g, disk1, ino1, disk2, ino2, i0, off, t, a);
    ChunkContent(g, disk1, ino1, disk2, ino2, i0, off, t, a);
    assert Content(disk1, ino1[i0]) == files[i0];
    hide Content;
    forall i | 0 <= i < |ino1| && i != i0
      ensures FileOk(disk3, ino3[i]) && Content(disk3, ino3[i]) == files[i]
    {
      ChunkOthersOk(g, disk1, ino1, disk2, ino2, i0, off, t, a, i);
    }
  }

  lemma ChunkContent(g: Superblock, disk1: Disk, ino1: Table, disk2: Disk, ino2: Table,
                     i0: nat, off: nat, t: seq<byte>, a: nat)
    requires ChunkWritten(g, disk1, ino1, disk2, ino2, i0, off, t, a) && off + |t| <= MAXFILE * BSIZE
    ensures Content(PutBytes(disk2, a, off % BSIZE, t), Grow(ino2, i0, off + |t|)[i0]) ==
            Written(Content(disk1, ino1[i0]), off, t)
  {
    var disk3, d3 := PutBytes(disk2, a, off % BSIZE, t), Grow(ino2, i0, off + |t|)[i0];
    ChunkSizes(ino1[i0].size, off, |t|);
    var w := Written(Content(disk1, ino1[i0]), off, t);
    forall j | 0 <= j < d3.size ensures ByteAt(disk3, d3, j) == w[j] {
      ChunkBytes(g, disk1, ino1, disk2, ino2, i0, off, t, a, j);
    }
    assert Content(disk3, d3) == w;
  }

  // Freeing blocks

  /** Nobody points at b. */
  ghost predicate Unreached(g: Superblock, disk: Disk, ino: Table, b: nat)
    requires TableOk(g, ino)
  {
    forall i, k :: 0 <= i < |ino| && 0 <= k < NPTRS ==> Ptr(disk, ino[i], k) != b
  }

  /** bfree: zero the block, then clear its bit. */
  function FreeBlock(g: Superblock, disk: Disk, b: nat): Disk
    requires Geometry(g, disk) && Data(g, b)
  {
    Regions(g, disk);
    Unmark(g, disk[b := ZeroBlock()], b)
  }

  lemma FreeBlockKeepsAllocInv(g: Superblock, disk: Disk, ino: Table, b: nat)
    requires AllocInv(g, disk, ino) && Data(g, b) && Unreached(g, disk, ino, b)
    ensures var disk2 := FreeBlock(g, disk, b);
            && AllocInv(g, disk2, ino)
            && SameBut(g, disk, disk2, b)
            && (forall c :: 0 <= c < g.size ==> (Marked(g, disk2, c) <==> c != b && Marked(g, disk, c)))
            && (forall i, k :: 0 <= i < |ino| && 0 <= k < NPTRS ==> Ptr(disk2, ino[i], k) == Ptr(disk, ino[i], k))
  {
    var disk1 := disk[b := ZeroBlock()];
    var disk2 := FreeBlock(g, disk, b);
    Regions(g, disk);
    SetBlockFrame(g, disk, b, ZeroBlock());
    MarkFrame(g, disk1, b);
    forall i, k | 0 <= i < |ino| && 0 <= k < NPTRS ensures Ptr(disk2, ino[i], k) == Ptr(disk, ino[i], k) {
      IndirectIsData(g, disk, ino, i);
      assert Ptr(disk, ino[i], INDIRECT) == ino[i].addrs[INDIRECT];
      SamePtr(g, disk, disk2, b, ino[i], k);
    }
    FreeBlockParts(g, disk, ino, disk2, b);
  }

  lemma FreeBlockParts(g: Superblock, disk: Disk, ino: Table, disk2: Disk, b: nat)
    requires AllocInv(g, disk, ino) && Data(g, b) && Unreached(g, disk, ino, b) && Geometry(g, disk2)
    requires SameBut(g, disk, disk2, b) && At(disk2, b) == ZeroBlock()
    requires forall c :: 0 <= c < g.size ==> (Marked(g, disk2, c) <==> c != b && Marked(g, disk, c))
    requires forall i, k :: 0 <= i < |ino| && 0 <= k < NPTRS ==> Ptr(disk2, ino[i], k) == Ptr(disk, ino[i], k)
    ensures AllocInv(g, disk2, ino)
  {
    assert Owned(g, disk2, ino);
    assert Unshared(g, disk2, ino);
    forall c | Data(g, c) && !Marked(g, disk2, c) ensures At(disk2, c) == ZeroBlock() {
      if c != b { assert !Marked(g, disk, c); }
    }
    forall c | 0 <= c < DataStart(g) ensures Marked(g, disk2, c) { assert Marked(g, disk, c); }
  }

  /** Forgetting address k of inode i0.  Forgetting the indirect block forgets its entries too. */
  lemma DropAddr(g: Superblock, disk: Disk, ino: Table, i0: nat, k0: nat)
    requires AllocInv(g, disk, ino) && i0 < |ino| && k0 < NADDRS
    ensures var ino2 := SetAddr(ino, i0, k0, 0);
            && AllocInv(g, disk, ino2)
            && (forall i, k :: 0 <= i < |ino| && 0 <= k < NPTRS ==>
                  Ptr(disk, ino2[i], k) ==
                    if i == i0 && (k == k0 || (k0 == INDIRECT && INDIRECT < k)) then 0 else Ptr(disk, ino[i], k))
  {
    var ino2 := SetAddr(ino, i0, k0, 0);
    assert forall i, k :: 0 <= i < |ino| && 0 <= k < NPTRS ==>
             Ptr(disk, ino2[i], k) ==
               if i == i0 && (k == k0 || (k0 == INDIRECT && INDIRECT < k)) then 0 else Ptr(disk, ino[i], k);
    assert Owned(g, disk, ino2);
    assert Unshared(g, disk, ino2);
  }

  /** Changing an inode's type, link count or size leaves its blocks alone. */
  lemma SetMetaKeepsAllocInv(g: Superblock, disk: Disk, ino: Table, i0: nat, d: DInode)
    requires AllocInv(g, disk, ino) && i0 < |ino| && Fits(d) && d.addrs == ino[i0].addrs
    ensures AllocInv(g, disk, ino[i0 := d])
    ensures forall k :: 0 <= k < NPTRS ==> Ptr(disk, d, k) == Ptr(disk, ino[i0], k)
  {
    var ino2 := ino[i0 := d];
    assert forall i, k :: 0 <= i < |ino| && 0 <= k < NPTRS ==> Ptr(disk, ino2[i], k) == Ptr(disk, ino[i], k);
    assert Owned(g, disk, ino2);
    assert Unshared(g, disk, ino2);
  }

  /** Writing an inode block changes neither block allocation nor the bytes of any file. */
  lemma PutInodeKeepsFsInv(g: Superblock, disk: Disk, ino: Table, i0: nat, d: DInode)
    requires AllocInv(g, disk, ino) && i0 < |ino| && Fits(d)
    ensures IBlock(i0) < |disk|
    ensures AllocInv(g, PutInode(disk, i0, d), ino)
    ensures forall i, k :: 0 <= i < |ino| && 0 <= k < NPTRS ==>
              Ptr(PutInode(disk, i0, d), ino[i], k) == Ptr(disk, ino[i], k)
    ensures forall c :: DataStart(g) <= c ==> At(PutInode(disk, i0, d), c) == At(disk, c)
    ensures forall c :: 0 <= c < g.size ==> (Marked(g, PutInode(disk, i0, d), c) <==> Marked(g, disk, c))
    ensures forall files :: Holds(g, disk, ino, files) ==> Holds(g, PutInode(disk, i0, d), ino, files)
  {
    Regions(g, disk);
    var disk2 := PutInode(disk, i0, d);
    assert Geometry(g, disk2);
    forall c | 0 <= c < g.size ensures Marked(g, disk2, c) <==> Marked(g, disk, c) {
      assert BBlock(c, g.ninodes) != IBlock(i0);
    }
    forall i, k | 0 <= i < |ino| && 0 <= k < NPTRS ensures Ptr(disk2, ino[i], k) == Ptr(disk, ino[i], k) {
      IndirectIsData(g, disk, ino, i);
    }
    assert Owned(g, disk2, ino);
    assert Unshared(g, disk2, ino);
    forall c | 0 <= c < DataStart(g) ensures Marked(g, disk2, c) { assert Marked(g, disk, c); }
    forall c | Data(g, c) && !Marked(g, disk2, c) ensures At(disk2, c) == ZeroBlock() { assert !Marked(g, disk, c); }
    forall files | Holds(g, disk, ino, files) ensures Holds(g, disk2, ino, files) {
      SameDataSameFiles(g, disk, ino, disk2, files);
    }
  }

  /** Files are determined by their pointers and the blocks these lead to. */
  lemma SameDataSameFiles(g: Superblock, disk: Disk, ino: Table, disk2: Disk, files: seq<seq<byte>>)
    requires Holds(g, disk, ino, files) && AllocInv(g, disk2, ino)
    requires forall i, k :: 0 <= i < |ino| && 0 <= k < NPTRS ==> Ptr(disk2, ino[i], k) == Ptr(disk, ino[i], k)
    requires SameFileData(g, disk, ino, disk2)
    ensures Holds(g, disk2, ino, files)
  {
    forall i | 0 <= i < |ino| ensures FileOk(disk2, ino[i]) && Content(disk2, ino[i]) == files[i] {
      assert FileOk(disk, ino[i]);
      SameDataSameFile(g, disk, ino, disk2, i);
    }
  }

  lemma SameDataSameFile(g: Superblock, disk: Disk, ino: Table, disk2: Disk, i: nat)
    requires AllocInv(g, disk, ino) && i < |ino| && FileOk(disk, ino[i])
    requires forall k :: 0 <= k < NPTRS ==> Ptr(disk2, ino[i], k) == Ptr(disk, ino[i], k)
    requires forall k :: 0 <= k < NPTRS && k != INDIRECT && Ptr(disk, ino[i], k) != 0 ==>
               At(disk2, Ptr(disk, ino[i], k)) == At(disk, Ptr(disk, ino[i], k))
    ensures FileOk(disk2, ino[i]) && Content(disk2, ino[i]) == Content(disk, ino[i])
  {
    var d := ino[i];
    assert NoHoles(disk2, d) by {
      forall n | 0 <= n < MAXFILE ensures Ptr(disk2, d, DataPtr(n)) != 0 <==> n < NBlocks(d.size) {
        assert Ptr(disk2, d, DataPtr(n)) == Ptr(disk, d, DataPtr(n));
      }
    }
    forall j | 0 <= j < NBlocks(d.size) * BSIZE && j < MAXFILE * BSIZE ensures ByteAt(disk2, d, j) == ByteAt(disk, d, j) {
      var k := DataPtr(j / BSIZE);
      assert Ptr(disk, d, k) != 0;
    }
    assert d.size <= NBlocks(d.size) * BSIZE <= MAXFILE * BSIZE;
    assert ZeroTail(disk2, d);
    assert Content(disk2, d) == Content(disk, d);
  }

  /** bmap does not look at the size of a file. */
  lemma BmappedGrow(g: Superblock, disk1: Disk, ino1: Table, disk2: Disk, ino2: Table,
                    i0: nat, n: nat, a: nat, end: nat)
    requires Bmapped(g, disk1, ino1, disk2, ino2, i0, n, a) && end < LIMIT32
    ensures Bmapped(g, disk1, Grow(ino1, i0, end), disk2, Grow(ino2, i0, end), i0, n, a)
  {
    GrowKeepsAllocInv(g, disk1, ino1, i0, end);
    GrowKeepsAllocInv(g, disk2, ino2, i0, end);
    var h1, h2 := Grow(ino1, i0, end), Grow(ino2, i0, end);
    assert SameFileData(g, disk1, h1, disk2);
    assert h2 == h1[i0 := h1[i0].(addrs := h2[i0].addrs)];
  }

  lemma WrittenTwice(s: seq<byte>, off: nat, t: seq<byte>, p: seq<byte>)
    requires off <= |s|
    ensures Written(Written(s, off, t), off + |t|, p) == Written(s, off, t + p)
  {
  }
}
