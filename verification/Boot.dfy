/** From mkfs to a running kernel (xv6/mkfs.c:68-144, xv6/proc.c:150-180): an image is built, the kernel starts on it with
    nothing cached, and the files that were put on the image are found under their names and read back. */
module Boot {
  import opened Options
  import opened FsBytes
  import opened FsDisk
  import opened FsFiles
  import opened FsKernel
  import opened FsDirs
  import opened FsPaths
  import opened FsNames
  import opened Mkfs

  /** The kernel runs on an image with these files, whatever it has cached. */
  ghost predicate OnImage(g: Superblock, disk: Disk, ic: Cache, ino: Table, named: seq<(seq<byte>, seq<byte>)>) {
    && |named| + 2 <= G.ninodes && CStrings(named) && DistinctNames(named)
    && KernelInv(g, disk, ic, ino) && Holds(g, disk, ino, Shipped(named)) && DirsOk(ino, Shipped(named)) && Kinds(ino, |named| + 2)
  }

  /** namei of "/" and the name of a file on the image, from any current directory: the inode of that file, unless an
      inode is locked or fewer than two slots of the inode cache are free. */
  method FindShipped(fs: FileSystem, ghost named: seq<(seq<byte>, seq<byte>)>, ghost k: nat, name: seq<byte>, cwd: nat)
    returns (r: NameiResult)
    requires OnImage(fs.g, fs.disk, fs.icache, fs.ino, named)
    requires k < |named| && StoredAs(named[k].0, name) && name != [] && SLASH !in name
    modifies fs`disk, fs`icache, fs`ino
    ensures fs.disk == old(fs.disk) && fs.ino == old(fs.ino) && !r.Missing?
    ensures r.Found? ==>
              && r.slot < |fs.icache| && fs.icache[r.slot].inum == k + 2 && 0 < fs.icache[r.slot].ref
              && OnImage(fs.g, fs.disk, fs.icache, fs.ino, named)
              && forall i :: Busy(fs.icache, i) <==> Busy(old(fs.icache), i)
    ensures r.Waits? ==> exists i :: Busy(old(fs.icache), i)
    ensures r.NoSlots? ==> NearlyFull(old(fs.icache))
  {
    hide KernelInv, Holds, DirsOk, Kinds, Shipped, Components, Resolve, Busy, CacheFull, NearlyFull, DistinctNames;
    RootIs(fs.g, fs.disk, fs.icache, fs.ino, named);
    NameIsCString(named, k, name);
    FileFound(fs.ino, named, k, name);
    var buf;
    r, buf := Namei(fs, [SLASH] + name, false, Zeros(DIRSIZ), cwd, Shipped(named));
  }

  lemma RootIs(g: Superblock, disk: Disk, ic: Cache, ino: Table, named: seq<(seq<byte>, seq<byte>)>)
    requires OnImage(g, disk, ic, ino, named)
    ensures 1 < |ino| == |Shipped(named)| && ino[1].typ == T_DIR && ino[1].nlink != 0
  {
  }

  lemma NameIsCString(named: seq<(seq<byte>, seq<byte>)>, k: nat, name: seq<byte>)
    requires CStrings(named) && k < |named| && StoredAs(named[k].0, name)
    ensures 0 !in [SLASH] + name
  {
    forall x | x in name ensures x in named[k].0 {}
  }

  /** The kernel starts with an empty inode cache; userinit's namei("/") is the first. */
  lemma ColdIsIdle(i: nat)
    ensures !Busy(ColdCache(), i) && Refs(ColdCache(), i) == 0
  {
  }

  lemma ColdIsFree()
    ensures !NearlyFull(ColdCache())
  {
    assert ColdCache()[0].ref == 0 && ColdCache()[1].ref == 0;
  }

  lemma RootFound(disk: Disk, ino: Table, named: seq<(seq<byte>, seq<byte>)>, ic0: Cache, ic: Cache, r: NameiResult, name: seq<byte>)
    requires OnImage(G, disk, ic0, ino, named) && (forall i :: !Busy(ic0, i)) && 1 < |ino|
    requires NameiSpec(G, disk, ino, Shipped(named), ic0, 1, Components([SLASH]), false, ic, r, name)
    requires !NearlyFull(ic0) && forall i :: Refs(ic0, i) == 0
    ensures r.Found? && r.slot < |ic| && ic[r.slot].inum == 1 && OnImage(G, disk, ic, ino, named)
    ensures (forall i :: !Busy(ic, i)) && !NearlyFull(ic)
  {
    hide Coherent, FsInv, FreeEmpty, Holds, DirsOk, Kinds, Shipped, Busy, CacheFull, NearlyFull, DistinctNames, SlotOf, OnPath, Refs;
    assert Strip([SLASH]) == [];
    assert r.Found?;
    OneInUse(disk, ino, ic0, ic);
  }

  /** With one reference in all, one slot is in use. */
  lemma OneInUse(disk: Disk, ino: Table, ic0: Cache, ic: Cache)
    requires Coherent(G, disk, ic, ino) && Extra(ic0, ic, multiset{1}) && forall i :: Refs(ic0, i) == 0
    ensures !NearlyFull(ic)
  {
    CoherentLen(G, disk, ic, ino);
    forall s | 0 <= s < |ic| && 0 < ic[s].ref ensures ic[s].inum == 1 && SlotOf(ic, 1) == s { RefsAt(G, disk, ic, ino, s); }
    hide Coherent, Extra, SlotOf, Refs;
    var u := SlotOf(ic, 1);
    var a, b := if u == 0 then 1 else 0, if u == 2 then 1 else if u == 0 then 2 else if u == 1 then 2 else 1;
    assert a != b && ic[a].ref == 0 && ic[b].ref == 0;
  }

  /** ilock and readi of the whole file. */
  method ReadAll(fs: FileSystem, s: nat, ghost named: seq<(seq<byte>, seq<byte>)>, ghost k: nat) returns (data: seq<byte>)
    requires OnImage(fs.g, fs.disk, fs.icache, fs.ino, named) && k < |named|
    requires s < |fs.icache| && fs.icache[s].inum == k + 2 && 0 < fs.icache[s].ref && !Busy(fs.icache, k + 2)
    modifies fs`icache
    ensures data == named[k].1
  {
    hide DirsOk, Shipped, DistinctNames, Coherent, FreeEmpty, FsInv, Busy, CStrings;
    CoherentLen(fs.g, fs.disk, fs.icache, fs.ino);
    BusyAt(fs.g, fs.disk, fs.icache, fs.ino, s);
    ShippedRoot(named);
    FileSize(fs.g, fs.disk, fs.ino, named, k);
    var waits, typed := fs.Ilock(s);
    var n;
    n, data := fs.Readi(s, 0, fs.icache[s].d.size);
  }

  lemma FileSize(g: Superblock, disk: Disk, ino: Table, named: seq<(seq<byte>, seq<byte>)>, k: nat)
    requires k < |named| && |named| + 2 <= G.ninodes && Holds(g, disk, ino, Shipped(named)) && Kinds(ino, |named| + 2)
    ensures k + 2 < |ino| && ino[k + 2].typ == T_FILE && ino[k + 2].size < LIMIT32
    ensures |ino[k + 2].addrs| == NADDRS && ino[k + 2].size <= MAXFILE * BSIZE
    ensures Content(disk, ino[k + 2]) == Shipped(named)[k + 2] && ino[k + 2].size == |Shipped(named)[k + 2]|
  {
    hide Shipped, AllocInv;
    assert FileOk(disk, ino[k + 2]);
    assert Content(disk, ino[k + 2]) == Shipped(named)[k + 2];
  }

  /** mkfs of any files, then a kernel that starts on the image, opens "/" and one of the names, and reads: unless the
      image could not be built, it gets the bytes that were put there. */
  method BuildThenRead(named: seq<(seq<byte>, seq<byte>)>, k: nat, name: seq<byte>)
    returns (built: bool, used: nat, data: seq<byte>)
    requires |named| + 2 <= G.ninodes && CStrings(named) && DistinctNames(named) && RootHasTail(|named|)
    requires k < |named| && StoredAs(named[k].0, name) && name != [] && SLASH !in name
    ensures built ==> data == named[k].1
    ensures !built ==> 512 <= used || exists j :: 0 <= j < |named| && Refused(named[j])
  {
    hide KernelInv, Holds, Kinds, DistinctNames, Busy, DirsOk, Shipped, NameiSpec, CStrings, StoredAs, Refused, Components, NearlyFull, Refs;
    data := [];
    var image := new Image();
    built := image.Build(named);
    used := image.usedblocks;
    if !built { return; }
    var fs := new FileSystem(image.disk, ColdCache(), G, image.ino);
    forall i ensures !Busy(fs.icache, i) && Refs(fs.icache, i) == 0 { ColdIsIdle(i); }
    ColdIsFree();
    RootIs(G, fs.disk, fs.icache, fs.ino, named);
    var root, buf := Namei(fs, [SLASH], false, Zeros(DIRSIZ), 0, Shipped(named));
    RootFound(fs.disk, fs.ino, named, ColdCache(), fs.icache, root, buf);
    var r := FindShipped(fs, named, k, name, root.slot);
    data := ReadAll(fs, r.slot, named, k);
  }
}
