/** itrunc, pointer by pointer (xv6/fs.c:360-387).

    Pointer k of the truncated inode is forgotten and, unless it is the indirect block, its
    block is freed.  The indirect block itself is never freed: its bit stays set for good.
 */
module FsTrunc {
  import opened FsBytes
  import opened FsDisk
  import opened FsFiles

  /** c is a block of d that itrunc has freed once it is past pointer k. */
  ghost predicate Freed(disk: Disk, d: DInode, k: nat, c: nat)
    requires |d.addrs| == NADDRS && k <= NPTRS
  {
    c != 0 && exists l :: 0 <= l < k && l != INDIRECT && Ptr(disk, d, l) == c
  }

  /** itrunc of inode i has dealt with its pointers below k. */
  ghost predicate Truncating(g: Superblock, disk0: Disk, ino0: Table, disk: Disk, ino: Table, i: nat, k: nat)
  {
    && AllocInv(g, disk0, ino0) && AllocInv(g, disk, ino) && i < |ino0| && k <= NPTRS
    && ino == ino0[i := ino0[i].(addrs := ino[i].addrs)]
    && (forall l :: 0 <= l < NADDRS ==> ino[i].addrs[l] == if l < k then 0 else ino0[i].addrs[l])
    && (forall l :: 0 <= l < NPTRS ==>
          Ptr(disk, ino[i], l) == if l < k || INDIRECT < k then 0 else Ptr(disk0, ino0[i], l))
    && (forall j, l :: 0 <= j < |ino0| && 0 <= l < NPTRS && j != i ==>
          Ptr(disk, ino[j], l) == Ptr(disk0, ino0[j], l))
    && (forall c :: 0 <= c < g.size ==> (Marked(g, disk, c) <==> Marked(g, disk0, c) && !Freed(disk0, ino0[i], k, c)))
    && (forall c :: Data(g, c) && !Freed(disk0, ino0[i], k, c) ==> At(disk, c) == At(disk0, c))
    && (forall c :: 0 <= c < g.ninodes / IPB + 3 ==> At(disk, c) == At(disk0, c))
  }

  lemma TruncStarts(g: Superblock, disk: Disk, ino: Table, i: nat)
    requires AllocInv(g, disk, ino) && i < |ino|
    ensures Truncating(g, disk, ino, disk, ino, i, 0)
  {
    assert ino == ino[i := ino[i].(addrs := ino[i].addrs)];
  }

  /** The set of freed blocks grows by pointer k, if that is a block of data. */
  lemma FreedStep(disk: Disk, d: DInode, k: nat, c: nat)
    requires |d.addrs| == NADDRS && k < NPTRS
    ensures Freed(disk, d, k + 1, c) <==>
              Freed(disk, d, k, c) || (c != 0 && k != INDIRECT && Ptr(disk, d, k) == c)
  {
  }

  /** Nothing to free at pointer k. */
  lemma TruncSkip(g: Superblock, disk0: Disk, ino0: Table, disk: Disk, ino: Table, i: nat, k: nat)
    requires Truncating(g, disk0, ino0, disk, ino, i, k) && k < NPTRS && k != INDIRECT
    requires Ptr(disk0, ino0[i], k) == 0
    ensures Truncating(g, disk0, ino0, disk, ino, i, k + 1)
  {
    forall c ensures Freed(disk0, ino0[i], k + 1, c) <==> Freed(disk0, ino0[i], k, c) { FreedStep(disk0, ino0[i], k, c); }
    assert k < NADDRS ==> ino0[i].addrs[k] == 0;
  }

  /** The indirect block is forgotten, not freed. */
  lemma TruncIndirect(g: Superblock, disk0: Disk, ino0: Table, disk: Disk, ino: Table, i: nat)
    requires Truncating(g, disk0, ino0, disk, ino, i, INDIRECT)
    ensures Truncating(g, disk0, ino0, disk, SetAddr(ino, i, INDIRECT, 0), i, NADDRS)
  {
    DropAddr(g, disk, ino, i, INDIRECT);
    forall c ensures Freed(disk0, ino0[i], NADDRS, c) <==> Freed(disk0, ino0[i], INDIRECT, c) {
      FreedStep(disk0, ino0[i], INDIRECT, c);
    }
  }

  /** The block at pointer k is in use, and once the pointer is forgotten nobody reaches it. */
  lemma TruncOrphan(g: Superblock, disk0: Disk, ino0: Table, disk: Disk, ino: Table, i: nat, k: nat)
    requires Truncating(g, disk0, ino0, disk, ino, i, k) && k < NPTRS && k != INDIRECT
    requires Ptr(disk0, ino0[i], k) != 0
    ensures Data(g, Ptr(disk0, ino0[i], k)) && Marked(g, disk, Ptr(disk0, ino0[i], k))
    ensures var ino2 := if k < NADDRS then SetAddr(ino, i, k, 0) else ino;
            AllocInv(g, disk, ino2) && Unreached(g, disk, ino2, Ptr(disk0, ino0[i], k))
  {
    var b := Ptr(disk0, ino0[i], k);
    var ino2 := if k < NADDRS then SetAddr(ino, i, k, 0) else ino;
    assert !Freed(disk0, ino0[i], k, b);
    if k < NADDRS { DropAddr(g, disk, ino, i, k); }
    forall j, l | 0 <= j < |ino| && 0 <= l < NPTRS ensures Ptr(disk, ino2[j], l) != b {
      if j != i {
        assert Ptr(disk, ino2[j], l) == Ptr(disk0, ino0[j], l);
      } else if k < NADDRS && l != k {
        assert Ptr(disk, ino2[i], l) == Ptr(disk, ino[i], l);
      }
    }
  }

  /** bfree of the block at pointer k. */
  lemma TruncFree(g: Superblock, disk0: Disk, ino0: Table, disk: Disk, ino: Table, i: nat, k: nat)
    requires Truncating(g, disk0, ino0, disk, ino, i, k) && k < NPTRS && k != INDIRECT
    requires Ptr(disk0, ino0[i], k) != 0
    ensures Data(g, Ptr(disk0, ino0[i], k))
    ensures var ino2 := if k < NADDRS then SetAddr(ino, i, k, 0) else ino;
            Truncating(g, disk0, ino0, FreeBlock(g, disk, Ptr(disk0, ino0[i], k)), ino2, i, k + 1)
  {
    hide Freed;
    var b := Ptr(disk0, ino0[i], k);
    var ino2 := if k < NADDRS then SetAddr(ino, i, k, 0) else ino;
    TruncOrphan(g, disk0, ino0, disk, ino, i, k);
    FreeBlockKeepsAllocInv(g, disk, ino2, b);
    var disk2 := FreeBlock(g, disk, b);
    if k < NADDRS { DropAddr(g, disk, ino, i, k); }
    forall c ensures Freed(disk0, ino0[i], k + 1, c) <==> Freed(disk0, ino0[i], k, c) || c == b {
      FreedStep(disk0, ino0[i], k, c);
    }
    forall l | 0 <= l < NPTRS
      ensures Ptr(disk2, ino2[i], l) == if l < k + 1 || INDIRECT < k + 1 then 0 else Ptr(disk0, ino0[i], l)
    {
      assert Ptr(disk2, ino2[i], l) == Ptr(disk, ino2[i], l);
    }
  }

  /** After itrunc the inode reaches nothing, and all other files are as they were. */
  lemma TruncEnds(g: Superblock, disk0: Disk, ino0: Table, disk: Disk, ino: Table, i: nat, files: seq<seq<byte>>)
    requires Truncating(g, disk0, ino0, disk, ino, i, NPTRS) && Holds(g, disk0, ino0, files)
    ensures var ino2 := ino[i := ino[i].(size := 0)];
            Holds(g, disk, ino2, files[i := []])
  {
    var ino2 := ino[i := ino[i].(size := 0)];
    SetMetaKeepsAllocInv(g, disk, ino, i, ino2[i]);
    forall j | 0 <= j < |ino| && j != i ensures FileOk(disk, ino2[j]) && Content(disk, ino2[j]) == files[j] {
      assert FileOk(disk0, ino0[j]);
      forall l | 0 <= l < NPTRS && l != INDIRECT && Ptr(disk0, ino0[j], l) != 0
        ensures At(disk, Ptr(disk0, ino0[j], l)) == At(disk0, Ptr(disk0, ino0[j], l))
      {
        assert !Freed(disk0, ino0[i], NPTRS, Ptr(disk0, ino0[j], l));
      }
      SameDataSameFile(g, disk0, ino0, disk, j);
    }
    assert FileOk(disk, ino2[i]) by {
      forall n | 0 <= n < MAXFILE ensures Ptr(disk, ino2[i], DataPtr(n)) == 0 {
        assert Ptr(disk, ino2[i], DataPtr(n)) == Ptr(disk, ino[i], DataPtr(n));
      }
    }
    assert Content(disk, ino2[i]) == [];
  }

  /** A file without an indirect block has no entries to free. */
  lemma {:induction false} TruncSkipRest(g: Superblock, disk0: Disk, ino0: Table, disk: Disk, ino: Table, i: nat, k: nat)
    requires Truncating(g, disk0, ino0, disk, ino, i, k) && INDIRECT < k && ino0[i].addrs[INDIRECT] == 0
    ensures Truncating(g, disk0, ino0, disk, ino, i, NPTRS)
    decreases NPTRS - k
  {
    if k < NPTRS {
      TruncSkip(g, disk0, ino0, disk, ino, i, k);
      TruncSkipRest(g, disk0, ino0, disk, ino, i, k + 1);
    }
  }

  lemma TruncNoIndirect(g: Superblock, disk0: Disk, ino0: Table, disk: Disk, ino: Table, i: nat)
    requires Truncating(g, disk0, ino0, disk, ino, i, INDIRECT) && ino[i].addrs[INDIRECT] == 0
    ensures Truncating(g, disk0, ino0, disk, ino, i, NPTRS)
  {
    TruncIndirect(g, disk0, ino0, disk, ino, i);
    assert ino[i].addrs[INDIRECT := 0] == ino[i].addrs;
    assert SetAddr(ino, i, INDIRECT, 0) == ino;
    TruncSkipRest(g, disk0, ino0, disk, ino, i, NADDRS);
  }

  /** The indirect block still holds the entries. */
  lemma TruncReadsEntries(g: Superblock, disk0: Disk, ino0: Table, disk: Disk, ino: Table, i: nat)
    requires Truncating(g, disk0, ino0, disk, ino, i, INDIRECT) && ino0[i].addrs[INDIRECT] != 0
    ensures Data(g, ino0[i].addrs[INDIRECT])
    ensures At(disk, ino0[i].addrs[INDIRECT]) == At(disk0, ino0[i].addrs[INDIRECT])
  {
    var x := ino0[i].addrs[INDIRECT];
    IndirectIsData(g, disk0, ino0, i);
    assert Ptr(disk0, ino0[i], INDIRECT) == x;
    assert !Freed(disk0, ino0[i], INDIRECT, x);
  }

  /** What the loops of itrunc need to know. */
  lemma TruncFacts(g: Superblock, disk0: Disk, ino0: Table, disk: Disk, ino: Table, i: nat, k: nat)
    requires Truncating(g, disk0, ino0, disk, ino, i, k)
    ensures Geometry(g, disk) && |ino| == |ino0| == g.ninodes && i < |ino|
    ensures Fits(ino[i]) && |ino[i].addrs| == NADDRS && Fits(ino0[i]) && ino == ino0[i := ino0[i].(addrs := ino[i].addrs)]
    ensures forall l :: 0 <= l < NADDRS ==> ino[i].addrs[l] == if l < k then 0 else ino0[i].addrs[l]
  {
  }

  // What itrunc leaks

  ghost predicate Reached(disk: Disk, ino: Table, b: nat)
    requires forall i :: 0 <= i < |ino| ==> |ino[i].addrs| == NADDRS
  {
    exists i, k :: 0 <= i < |ino| && 0 <= k < NPTRS && Ptr(disk, ino[i], k) == b
  }

  /** Every data block marked in use belongs to some inode. */
  ghost predicate NothingLost(g: Superblock, disk: Disk, ino: Table)
    requires TableOk(g, ino)
  {
    forall b :: Data(g, b) && Marked(g, disk, b) ==> Reached(disk, ino, b)
  }

  /** itrunc keeps that exactly when the file has no indirect block, that is when it fits its direct blocks. */
  lemma TruncLosesIndirect(g: Superblock, disk0: Disk, ino0: Table, disk: Disk, ino: Table, i: nat)
    requires Truncating(g, disk0, ino0, disk, ino, i, NPTRS) && NothingLost(g, disk0, ino0) && FileOk(disk0, ino0[i])
    ensures NothingLost(g, disk, ino) <==> ino0[i].size <= NDIRECT * BSIZE
  {
    var x := ino0[i].addrs[INDIRECT];
    assert x != 0 <==> NDIRECT * BSIZE < ino0[i].size;
    if x == 0 {
      hide AllocInv, FileOk;
      forall b | Data(g, b) && Marked(g, disk, b) ensures Reached(disk, ino, b) {
        var j, l :| 0 <= j < |ino0| && 0 <= l < NPTRS && Ptr(disk0, ino0[j], l) == b;
        assert !Freed(disk0, ino0[i], NPTRS, b);
        assert Ptr(disk, ino[j], l) == b;
      }
    } else {
      IndirectLost(g, disk0, ino0, disk, ino, i);
    }
  }

  /** A file one byte longer than its direct blocks: its indirect block is lost. */
  lemma OneByteOver(g: Superblock, disk0: Disk, ino0: Table, disk: Disk, ino: Table, i: nat)
    requires Truncating(g, disk0, ino0, disk, ino, i, NPTRS) && FileOk(disk0, ino0[i]) && ino0[i].size == NDIRECT * BSIZE + 1
    ensures !NothingLost(g, disk, ino)
  {
    assert NBlocks(ino0[i].size) == NDIRECT + 1;
    IndirectLost(g, disk0, ino0, disk, ino, i);
  }

  lemma IndirectLost(g: Superblock, disk0: Disk, ino0: Table, disk: Disk, ino: Table, i: nat)
    requires Truncating(g, disk0, ino0, disk, ino, i, NPTRS) && ino0[i].addrs[INDIRECT] != 0
    ensures Data(g, ino0[i].addrs[INDIRECT]) && Marked(g, disk, ino0[i].addrs[INDIRECT])
    ensures !Reached(disk, ino, ino0[i].addrs[INDIRECT])
  {
    var x := ino0[i].addrs[INDIRECT];
    IndirectIsData(g, disk0, ino0, i);
    assert Ptr(disk0, ino0[i], INDIRECT) == x && Marked(g, disk0, x);
    assert !Freed(disk0, ino0[i], NPTRS, x);
    forall j, l | 0 <= j < |ino| && 0 <= l < NPTRS ensures Ptr(disk, ino[j], l) != x {
      assert j != i ==> Ptr(disk, ino[j], l) == Ptr(disk0, ino0[j], l);
    }
  }
}
