/** link, unlink and create, one at a time, over the inode layer (xv6/sysfile.c:110-256).  How they interleave is the
    subject of Links.
 */
module FsCalls {
  import opened Options
  import opened FsBytes
  import opened FsDisk
  import opened FsFiles
  import opened FsKernel
  import opened FsDirs
  import opened FsPaths
  import opened FsNames
  import opened FsTree
  import opened Counting

  // A system call under way

  /** Nothing is locked. */
  ghost predicate Idle(ic: Cache) { forall i :: !Busy(ic, i) }

  /** The call that began with cache ic0 holds references m and locks l. */
  ghost predicate During(g: Superblock, disk: Disk, ic: Cache, ino: Table, files: seq<seq<byte>>, ic0: Cache,
                         m: multiset<nat>, l: set<nat>)
  {
    && KernelInv(g, disk, ic, ino) && Holds(g, disk, ino, files)
    && Extra(ic0, ic, m) && Locks(ic0, ic, l) && Idle(ic0)
  }

  /** Slot s is inode i, locked and in step with the disk. */
  ghost predicate Owns(disk: Disk, ic: Cache, ino: Table, s: nat, i: nat) {
    && Locked(ic, s) && ic[s].inum == i < |ino| && ic[s].d == ino[i]
    && IBlock(i) < |disk| && InodeOn(disk, i) == ino[i]
  }

  lemma DuringFacts(g: Superblock, disk: Disk, ic: Cache, ino: Table, files: seq<seq<byte>>, ic0: Cache,
                    m: multiset<nat>, l: set<nat>)
    requires During(g, disk, ic, ino, files, ic0, m, l)
    ensures Coherent(g, disk, ic, ino) && KernelInv(g, disk, ic, ino) && Holds(g, disk, ino, files)
    ensures |ic| == |ic0| == NINODE && |files| == |ino|
  {
  }

  lemma SlotState(g: Superblock, disk: Disk, ic: Cache, ino: Table, files: seq<seq<byte>>, ic0: Cache,
                  m: multiset<nat>, l: set<nat>, s: nat)
    requires During(g, disk, ic, ino, files, ic0, m, l) && s < |ic| && 0 < ic[s].ref
    ensures 0 < ic[s].inum < |ino| == |files| && ino[ic[s].inum].typ != 0 && IBlock(ic[s].inum) < |disk|
    ensures ic[s].ref == Refs(ic0, ic[s].inum) + m[ic[s].inum] && (ic[s].busy <==> ic[s].inum in l)
    ensures (ic[s].valid ==> ic[s].d == ino[ic[s].inum]) && Fits(ino[ic[s].inum])
  {
    BusyAt(g, disk, ic, ino, s);
    hide Refs, Busy;
    Regions(g, disk);
  }

  /** Slot s is locked or unlocked, or its inode changes with the disk. */
  lemma DuringSame(g: Superblock, disk: Disk, ic: Cache, ino: Table, files: seq<seq<byte>>,
                   disk2: Disk, ic2: Cache, ino2: Table, files2: seq<seq<byte>>, ic0: Cache, m: multiset<nat>, l: set<nat>, s: nat)
    requires During(g, disk, ic, ino, files, ic0, m, l)
    requires KernelInv(g, disk2, ic2, ino2) && Holds(g, disk2, ino2, files2)
    requires s < |ic| == |ic2| && ic2 == ic[s := ic2[s]] && ic2[s].ref == ic[s].ref && ic2[s].inum == ic[s].inum && 0 < ic[s].ref
    ensures During(g, disk2, ic2, ino2, files2, ic0, m, if ic2[s].busy then l + {ic[s].inum} else l - {ic[s].inum})
  {
    hide Coherent, FsInv, FreeEmpty, Holds, Extra, Busy;
    ExtraSame(g, disk, ino, ic0, m, ic, disk2, ino2, ic2, s);
  }

  method TakeLock(fs: FileSystem, s: nat, ghost files: seq<seq<byte>>, ghost ic0: Cache, ghost m: multiset<nat>, ghost l: set<nat>)
    requires During(fs.g, fs.disk, fs.icache, fs.ino, files, ic0, m, l)
    requires s < |fs.icache| && 0 < fs.icache[s].ref && fs.icache[s].inum !in l
    modifies fs`icache
    ensures During(fs.g, fs.disk, fs.icache, fs.ino, files, ic0, m, l + {old(fs.icache[s].inum)})
    ensures Owns(fs.disk, fs.icache, fs.ino, s, old(fs.icache[s].inum)) && fs.icache == old(fs.icache)[s := fs.icache[s]]
  {
    hide Coherent, FsInv, FreeEmpty, Holds, Extra, Locks, Idle, Refs;
    SlotState(fs.g, fs.disk, fs.icache, fs.ino, files, ic0, m, l, s);
    DuringFacts(fs.g, fs.disk, fs.icache, fs.ino, files, ic0, m, l);
    ghost var ic := fs.icache;
    var waits, typed := fs.Ilock(s);
    DuringSame(fs.g, fs.disk, ic, fs.ino, files, fs.disk, fs.icache, fs.ino, files, ic0, m, l, s);
  }

  method DropLock(fs: FileSystem, s: nat, ghost files: seq<seq<byte>>, ghost ic0: Cache, ghost m: multiset<nat>, ghost l: set<nat>)
    requires During(fs.g, fs.disk, fs.icache, fs.ino, files, ic0, m, l)
    requires s < |fs.icache| && Owns(fs.disk, fs.icache, fs.ino, s, fs.icache[s].inum)
    modifies fs`icache
    ensures During(fs.g, fs.disk, fs.icache, fs.ino, files, ic0, m, l - {old(fs.icache[s].inum)})
    ensures fs.icache == old(fs.icache)[s := old(fs.icache[s]).(busy := false)]
  {
    hide Coherent, FsInv, FreeEmpty, Holds, Extra, Locks, Idle, Refs, Settling;
    DuringFacts(fs.g, fs.disk, fs.icache, fs.ino, files, ic0, m, l);
    ghost var ic := fs.icache;
    fs.Iunlock(s);
    DuringSame(fs.g, fs.disk, ic, fs.ino, files, fs.disk, fs.icache, fs.ino, files, ic0, m, l, s);
  }

  function FreedInode(d: DInode): DInode { d.(typ := 0, size := 0, addrs := NoAddrs()) }

  /** What giving up a reference to inode i does to the table and the files. */
  ghost predicate PutDone(ino: Table, files: seq<seq<byte>>, ic0: Cache, m: multiset<nat>, i: nat,
                          ino2: Table, files2: seq<seq<byte>>)
    requires i < |ino| == |files|
  {
    if Refs(ic0, i) + m[i] == 1 && ino[i].nlink == 0
    then ino2 == ino[i := FreedInode(ino[i])] && files2 == files[i := []]
    else ino2 == ino && files2 == files
  }

  /** The references and locks after slot s has been unlocked and given up. */
  lemma UnlockPutRefs(g: Superblock, disk: Disk, ino: Table, ic0: Cache, m: multiset<nat>, l: set<nat>, ic: Cache,
                      disk2: Disk, ino2: Table, ic2: Cache, s: nat)
    requires Extra(ic0, ic, m) && Locks(ic0, ic, l) && Idle(ic0) && Coherent(g, disk, ic, ino) && Coherent(g, disk2, ic2, ino2)
    requires s < |ic| == |ic2| && 0 < ic[s].ref && ic[s].inum in m
    requires ic2 == ic[s := ic2[s]] && ic2[s].ref == ic[s].ref - 1 && ic2[s].inum == ic[s].inum && !ic2[s].busy
    ensures Extra(ic0, ic2, m - multiset{ic[s].inum}) && Locks(ic0, ic2, l - {ic[s].inum})
  {
    hide Coherent, SlotOf, Refs, Busy;
    var i := ic[s].inum;
    forall j
      ensures Refs(ic2, j) == Refs(ic0, j) + (m - multiset{i})[j]
      ensures Busy(ic2, j) <==> Busy(ic0, j) || j in l - {i}
    {
      UnlockPutAt(g, disk, ino, ic, disk2, ino2, ic2, s, j);
    }
    PutStays(g, disk, ino, ic0, m, ic, ic2, s);
  }

  lemma UnlockPutAt(g: Superblock, disk: Disk, ino: Table, ic: Cache, disk2: Disk, ino2: Table, ic2: Cache, s: nat, j: nat)
    requires Coherent(g, disk, ic, ino) && Coherent(g, disk2, ic2, ino2) && s < |ic| == |ic2| && 0 < ic[s].ref
    requires ic2 == ic[s := ic2[s]] && ic2[s].ref == ic[s].ref - 1 && ic2[s].inum == ic[s].inum && !ic2[s].busy
    ensures Refs(ic2, j) == Refs(ic, j) - (if j == ic[s].inum then 1 else 0)
    ensures Busy(ic2, j) <==> j != ic[s].inum && Busy(ic, j)
  {
    CoherentLen(g, disk, ic, ino);
    BusyAt(g, disk, ic, ino, s);
    SlotChange(g, disk, ic, ino, disk2, ic2, ino2, s, j);
    hide Coherent, SlotOf;
  }

  /** iunlockput.  An inode that is ahead of the disk must be about to be freed. */
  method UnlockPut(fs: FileSystem, s: nat, ghost files: seq<seq<byte>>, ghost ic0: Cache, ghost m: multiset<nat>, ghost l: set<nat>)
    returns (ghost files2: seq<seq<byte>>)
    requires During(fs.g, fs.disk, fs.icache, fs.ino, files, ic0, m, l)
    requires Locked(fs.icache, s) && fs.icache[s].inum in m
    requires Owns(fs.disk, fs.icache, fs.ino, s, fs.icache[s].inum) || LastUse(fs.icache[s])
    modifies fs`disk, fs`icache, fs`ino
    ensures old(fs.icache[s].inum) < |old(fs.ino)| == |files|
    ensures PutDone(old(fs.ino), files, ic0, m, old(fs.icache[s].inum), fs.ino, files2)
    ensures During(fs.g, fs.disk, fs.icache, fs.ino, files2, ic0, m - multiset{old(fs.icache[s].inum)}, l - {old(fs.icache[s].inum)})
    ensures fs.ino == old(fs.ino) ==> fs.disk == old(fs.disk)
    ensures fs.icache == old(fs.icache)[s := fs.icache[s]]
    ensures fs.icache[s].ref == old(fs.icache[s].ref) - 1 && fs.icache[s].inum == old(fs.icache[s].inum)
    ensures OthersOnDisk(old(fs.disk), fs.disk, |fs.ino|, old(fs.icache[s].inum))
  {
    hide Coherent, FsInv, FreeEmpty, Holds, Extra, Locks, Idle, Refs, Settling, OthersOnDisk;
    ghost var ic, disk, ino, i := fs.icache, fs.disk, fs.ino, fs.icache[s].inum;
    SameOnDisk(fs.g, fs.disk, fs.icache, fs.ino, files, ic0, m, l, i);
    SlotState(fs.g, fs.disk, fs.icache, fs.ino, files, ic0, m, l, s);
    DuringFacts(fs.g, fs.disk, fs.icache, fs.ino, files, ic0, m, l);
    fs.Iunlock(s);
    files2 := if LastUse(ic[s]) then files[i := []] else files;
    fs.Iput(s, files);
    HoldsFsInv(fs.g, fs.disk, fs.ino, files2);
    UnlockPutRefs(fs.g, disk, ino, ic0, m, l, ic, fs.disk, fs.ino, fs.icache, s);
    DifferentType(ino, i);
  }

  lemma SameOnDisk(g: Superblock, disk: Disk, ic: Cache, ino: Table, files: seq<seq<byte>>, ic0: Cache, m: multiset<nat>, l: set<nat>,
                   i: nat)
    requires During(g, disk, ic, ino, files, ic0, m, l)
    ensures OthersOnDisk(disk, disk, |ino|, i)
  {
    Regions(g, disk);
  }

  lemma DifferentType(ino: Table, i: nat)
    requires i < |ino| && ino[i].typ != 0
    ensures ino[i := FreedInode(ino[i])] != ino
  {
    assert ino[i := FreedInode(ino[i])][i].typ != ino[i].typ;
  }

  /** iput of an inode that is not locked. */
  method Put(fs: FileSystem, s: nat, ghost files: seq<seq<byte>>, ghost ic0: Cache, ghost m: multiset<nat>, ghost l: set<nat>)
    requires During(fs.g, fs.disk, fs.icache, fs.ino, files, ic0, m, l)
    requires s < |fs.icache| && 0 < fs.icache[s].ref && fs.icache[s].inum in m && fs.icache[s].inum !in l
    requires fs.icache[s].inum < |fs.ino| && fs.ino[fs.icache[s].inum].nlink != 0
    modifies fs`disk, fs`icache, fs`ino
    ensures During(fs.g, fs.disk, fs.icache, fs.ino, files, ic0, m - multiset{old(fs.icache[s].inum)}, l)
    ensures fs.ino == old(fs.ino) && fs.disk == old(fs.disk) && fs.icache == old(fs.icache)[s := fs.icache[s]]
  {
    hide Coherent, FsInv, FreeEmpty, Holds, Extra, Locks, Idle, Refs, Busy;
    ghost var ic := fs.icache;
    SlotState(fs.g, fs.disk, fs.icache, fs.ino, files, ic0, m, l, s);
    DuringFacts(fs.g, fs.disk, fs.icache, fs.ino, files, ic0, m, l);
    fs.Iput(s, files);
    ExtraPut(fs.g, fs.disk, fs.ino, ic0, m, l, ic, fs.disk, fs.ino, fs.icache, s);
  }

  /** dirlookup in the locked directory in slot s. */
  method LookIn(fs: FileSystem, s: nat, name: seq<byte>, ghost files: seq<seq<byte>>, ghost ic0: Cache, ghost m: multiset<nat>,
                ghost l: set<nat>)
    returns (ok: bool, found: bool, t: nat, off: nat)
    requires During(fs.g, fs.disk, fs.icache, fs.ino, files, ic0, m, l) && DirsOk(fs.ino, files)
    requires s < |fs.icache| && Owns(fs.disk, fs.icache, fs.ino, s, fs.icache[s].inum)
    requires fs.icache[s].d.typ == T_DIR && |name| == DIRSIZ
    modifies fs`icache
    ensures |fs.icache| == |old(fs.icache)| && old(fs.icache[s].inum) < |files|
    ensures found <==> ok && Lookup(files[old(fs.icache[s].inum)], CName(name)).Some?
    ensures !ok ==> Lookup(files[old(fs.icache[s].inum)], CName(name)).Some? && CacheFull(fs.icache)
    ensures !found ==> fs.icache == old(fs.icache)
    ensures found ==> var j := Lookup(files[old(fs.icache[s].inum)], CName(name)).value;
                      && t < |fs.icache| && 0 < fs.icache[t].ref && fs.icache[t].inum == j
                      && During(fs.g, fs.disk, fs.icache, fs.ino, files, ic0, m + multiset{j}, l)
                      && off == DIRENT * FindFrom(files[old(fs.icache[s].inum)], CName(name), 0)
    ensures Owns(fs.disk, fs.icache, fs.ino, s, old(fs.icache[s].inum))
  {
    hide Coherent, FsInv, FreeEmpty, Holds, Extra, Locks, Idle, Refs, CName, Lookup, FindFrom, DirsOk, CacheFull, SlotOf;
    ghost var ic := fs.icache;
    DuringFacts(fs.g, fs.disk, fs.icache, fs.ino, files, ic0, m, l);
    ok, found, t, off := Dirlookup(fs, s, name, files);
    if found {
      ghost var j := fs.icache[t].inum;
      ExtraGot(fs.g, fs.disk, fs.ino, ic0, m, l, ic, fs.disk, fs.ino, fs.icache, t, j);
      GotKeeps(fs.g, fs.disk, fs.ino, ic, fs.icache, s, t, j);
    }
  }

  lemma GotKeeps(g: Superblock, disk: Disk, ino: Table, ic0: Cache, ic: Cache, s: nat, t: nat, j: nat)
    requires GotRef(ic0, ic, t, j) && s < |ic0| && Owns(disk, ic0, ino, s, ic0[s].inum)
    ensures t < |ic| == |ic0| && 0 < ic[t].ref && ic[t].inum == j && s < |ic| && Owns(disk, ic, ino, s, ic0[s].inum)
  {
    hide Refs, InodeOn;
  }

  /** Slot u is as it was, locked, with an inode that is on disk as it was. */
  lemma OwnsKept(disk: Disk, ic: Cache, ino: Table, disk2: Disk, ic2: Cache, ino2: Table, s: nat, i: nat, u: nat, k: nat)
    requires Owns(disk, ic, ino, u, k) && u != s && s < |ic| == |ic2| && ic2 == ic[s := ic2[s]] && i < |ino| == |ino2| && k != i
    requires ino2 == ino[i := ino2[i]] && OthersOnDisk(disk, disk2, |ino|, i)
    ensures Owns(disk2, ic2, ino2, u, k)
  {
    hide InodeOn, IBlock;
  }

  /** ip->major, ip->minor and ip->nlink are set, then iupdate. */
  method StoreMeta(fs: FileSystem, s: nat, major: nat, minor: nat, nlink: nat, ghost files: seq<seq<byte>>, ghost ic0: Cache,
                   ghost m: multiset<nat>, ghost l: set<nat>)
    requires During(fs.g, fs.disk, fs.icache, fs.ino, files, ic0, m, l) && Locked(fs.icache, s)
    requires major < LIMIT16 && minor < LIMIT16 && nlink < LIMIT16
    modifies fs`disk, fs`icache, fs`ino
    ensures old(fs.icache[s].inum) < |old(fs.ino)|
    ensures fs.ino == old(fs.ino)[old(fs.icache[s].inum) :=
                        old(fs.ino)[old(fs.icache[s].inum)].(major := major, minor := minor, nlink := nlink)]
    ensures During(fs.g, fs.disk, fs.icache, fs.ino, files, ic0, m, l)
    ensures fs.icache == old(fs.icache)[s := fs.icache[s]] && Owns(fs.disk, fs.icache, fs.ino, s, old(fs.icache[s].inum))
    ensures OthersOnDisk(old(fs.disk), fs.disk, |fs.ino|, old(fs.icache[s].inum))
  {
    hide Coherent, FsInv, FreeEmpty, Holds, Extra, Locks, Idle, Refs, AllocInv, PutInode, InodeOn, OthersOnDisk;
    ghost var ic, ino, i, disk := fs.icache, fs.ino, fs.icache[s].inum, fs.disk;
    SlotState(fs.g, fs.disk, fs.icache, fs.ino, files, ic0, m, l, s);
    DuringFacts(fs.g, fs.disk, fs.icache, fs.ino, files, ic0, m, l);
    fs.SetMeta(s, major, minor, nlink, files);
    HoldsFsInv(fs.g, fs.disk, fs.ino, files);
    StoredOthers(fs.g, fs.disk, fs.icache, fs.ino, s);
    ghost var disk1 := fs.disk;
    fs.Iupdate(s);
    PutInodeHolds(fs.g, disk1, fs.ino, i, fs.icache[s].d, files);
    DuringSame(fs.g, disk, ic, ino, files, fs.disk, fs.icache, fs.ino, files, ic0, m, l, s);
    assert l + {i} == l;
  }

  lemma PutInodeHolds(g: Superblock, disk: Disk, ino: Table, i: nat, d: DInode, files: seq<seq<byte>>)
    requires Holds(g, disk, ino, files) && i < |ino| && Fits(d) && IBlock(i) < |disk|
    ensures Holds(g, PutInode(disk, i, d), ino, files) && FsInv(g, PutInode(disk, i, d), ino)
  {
    HoldsFsInv(g, disk, ino, files);
    hide FsInv, AllocInv, Holds, PutInode;
    PutInodeKeepsFsInv(g, disk, ino, i, d);
    HoldsFsInv(g, PutInode(disk, i, d), ino, files);
  }

  lemma StoredOthers(g: Superblock, disk: Disk, ic: Cache, ino: Table, s: nat)
    requires Coherent(g, disk, ic, ino) && Locked(ic, s) && AllocInv(g, disk, ino)
    ensures ic[s].inum < |ino| && IBlock(ic[s].inum) < |disk| && Fits(ic[s].d)
    ensures OthersOnDisk(disk, PutInode(disk, ic[s].inum, ic[s].d), |ino|, ic[s].inum)
  {
    Regions(g, disk);
    SameAreaRefl(g, disk);
    AreaOthers(g, disk, disk, ic[s].inum, ic[s].d);
  }

  // unlink

  datatype CallResult =
    | Success
    | Failure    // -1
    | Panics     // no slot in the inode cache, or no block or room for a directory entry
    | Overflows  // nlink would exceed what the inode can hold

  /** unlink, from clearing the entry on. */
  method UnlinkClear(fs: FileSystem, s: nat, t: nat, off: nat, ghost nm: Name, ghost files: seq<seq<byte>>, ghost ic0: Cache)
    returns (ghost files2: seq<seq<byte>>)
    requires s < |fs.icache| && t < |fs.icache| && fs.icache[s].inum != fs.icache[t].inum
    requires During(fs.g, fs.disk, fs.icache, fs.ino, files, ic0, multiset{fs.icache[s].inum, fs.icache[t].inum},
                    {fs.icache[s].inum, fs.icache[t].inum})
    requires Owns(fs.disk, fs.icache, fs.ino, s, fs.icache[s].inum) && Locked(fs.icache, t)
    requires TreeInv(fs.ino, files) && fs.icache[s].inum < |fs.ino| && fs.ino[fs.icache[s].inum].typ == T_DIR
    requires nm != DOT && nm != DOTDOT && Lookup(files[fs.icache[s].inum], nm) == Some(fs.icache[t].inum)
    requires Kept(ic0, fs.ino, fs.icache[s].inum) && off == DIRENT * FindFrom(files[fs.icache[s].inum], nm, 0)
    modifies fs`disk, fs`icache, fs`ino
    ensures During(fs.g, fs.disk, fs.icache, fs.ino, files2, ic0, multiset{}, {})
    ensures old(fs.icache[t].inum) < |old(fs.ino)|
    ensures Unlinked(old(fs.ino), files, old(fs.icache[s].inum), nm,
                     old(fs.ino[fs.icache[t].inum].nlink) == 1 && Refs(ic0, old(fs.icache[t].inum)) == 0, fs.ino, files2)
  {
    hide Coherent, FsInv, FreeEmpty, Holds, Extra, Locks, Idle, Refs, Lookup, TreeInv, FindFrom, PutDone, Kept, Unlinked, Written;
    ghost var d, j, ino0 := fs.icache[s].inum, fs.icache[t].inum, fs.ino;
    SlotState(fs.g, fs.disk, fs.icache, fs.ino, files, ic0, multiset{d, j}, {d, j}, t);
    UnlinkStarts(fs.ino, files, d, nm);
    ghost var files1 := ClearEntry(fs, s, t, off, nm, files, ic0);
    ghost var files1b := UnlockPut(fs, s, files1, ic0, multiset{d, j}, {d, j});
    PutKept(ino0, files1, ic0, multiset{d, j}, d, fs.ino, files1b);
    assert multiset{d, j} - multiset{d} == multiset{j} && {d, j} - {d} == {j};
    SlotState(fs.g, fs.disk, fs.icache, fs.ino, files1, ic0, multiset{j}, {j}, t);
    StoreMeta(fs, t, fs.icache[t].d.major, fs.icache[t].d.minor, fs.icache[t].d.nlink - 1, files1, ic0, multiset{j}, {j});
    ghost var ino1 := fs.ino;
    files2 := UnlockPut(fs, t, files1, ic0, multiset{j}, {j});
    assert multiset{j} - multiset{j} == multiset{} && {j} - {j} == {};
    UnlinkDone(ino0, files, ic0, d, nm, j, ino1, files1, fs.ino, files2);
  }

  lemma UnlinkStarts(ino: Table, files: seq<seq<byte>>, d: nat, nm: Name)
    requires TreeInv(ino, files) && d < |ino| && ino[d].typ == T_DIR && Lookup(files[d], nm).Some? && nm != DOT && nm != DOTDOT
    ensures |files| == |ino| && IsDir(files[d]) && Lookup(files[d], nm).value < |ino|
    ensures Lookup(files[d], nm).value != d && 0 < ino[Lookup(files[d], nm).value].nlink
    ensures FindFrom(files[d], nm, 0) < Count(files[d])
  {
    TreeFacts(ino, files);
    DirIsOnce(ino, files, d);
    EntryCounted(ino, files, d, nm);
    MapsAt(ino, files, d);
    hide TreeInv, Counted, Maps, NamesOnce, Named;
    assert EntryWell(ino, d, nm, Lookup(files[d], nm).value);
  }

  /** A reference that is not the last, or to an inode with links, is given up without consequence. */
  lemma PutKept(ino: Table, files: seq<seq<byte>>, ic0: Cache, m: multiset<nat>, d: nat, ino2: Table, files2: seq<seq<byte>>)
    requires Kept(ic0, ino, d) && d in m && |ino| == |files| && PutDone(ino, files, ic0, m, d, ino2, files2)
    ensures ino2 == ino && files2 == files
  {
  }

  /** The writei of unlink. */
  method ClearEntry(fs: FileSystem, s: nat, ghost t: nat, off: nat, ghost nm: Name, ghost files: seq<seq<byte>>, ghost ic0: Cache)
    returns (ghost files1: seq<seq<byte>>)
    requires s < |fs.icache| && t < |fs.icache| && fs.icache[s].inum != fs.icache[t].inum
    requires During(fs.g, fs.disk, fs.icache, fs.ino, files, ic0, multiset{fs.icache[s].inum, fs.icache[t].inum},
                    {fs.icache[s].inum, fs.icache[t].inum})
    requires Owns(fs.disk, fs.icache, fs.ino, s, fs.icache[s].inum) && fs.icache[s].inum < |files|
    requires fs.ino[fs.icache[s].inum].typ == T_DIR && IsDir(files[fs.icache[s].inum])
    requires Lookup(files[fs.icache[s].inum], nm).Some?
    requires off == DIRENT * FindFrom(files[fs.icache[s].inum], nm, 0) && FindFrom(files[fs.icache[s].inum], nm, 0) < Count(files[fs.icache[s].inum])
    modifies fs`disk, fs`icache, fs`ino
    ensures files1 == files[old(fs.icache[s].inum) := Cleared(files[old(fs.icache[s].inum)], nm)]
    ensures fs.ino == old(fs.ino) && fs.icache == old(fs.icache)
    ensures During(fs.g, fs.disk, fs.icache, fs.ino, files1, ic0, multiset{fs.icache[s].inum, fs.icache[t].inum},
                   {fs.icache[s].inum, fs.icache[t].inum})
    ensures Owns(fs.disk, fs.icache, fs.ino, s, fs.icache[s].inum)
  {
    hide Coherent, FsInv, FreeEmpty, Holds, Extra, Locks, Idle, Refs, Lookup, FindFrom, Written, Cleared, OnlySlot, InodeOn, IBlock,
         AllocInv, FileOk, Content, Marked;
    ghost var d, j, c, ic, disk := fs.icache[s].inum, fs.icache[t].inum, files[fs.icache[s].inum], fs.icache, fs.disk;
    DuringFacts(fs.g, fs.disk, fs.icache, fs.ino, files, ic0, multiset{d, j}, {d, j});
    HoldsFacts(fs.g, fs.disk, fs.icache, fs.ino, s, files);
    files1 := files[d := Cleared(c, nm)];
    var de := Zeros(DIRENT);
    var full, n := fs.Writei(s, de, off, files);
    assert de[..n] == de;
    ClearedIsWritten(c, nm);
    WroteInside(disk, ic, fs.ino, fs.disk, fs.icache, s, d);
    DuringSame(fs.g, disk, ic, fs.ino, files, fs.disk, fs.icache, fs.ino, files1, ic0, multiset{d, j}, {d, j}, s);
    assert {d, j} + {d} == {d, j};
  }

  lemma ClearedIsWritten(c: seq<byte>, nm: Name)
    requires IsDir(c) && Lookup(c, nm).Some?
    ensures DIRENT * FindFrom(c, nm, 0) <= |c| && Cleared(c, nm) == Written(c, DIRENT * FindFrom(c, nm, 0), Zeros(DIRENT))
  {
    hide Lookup, Written;
  }

  lemma WroteInside(disk: Disk, ic: Cache, ino: Table, disk2: Disk, ic2: Cache, s: nat, d: nat)
    requires Owns(disk, ic, ino, s, d) && OnlySlot(disk, ic, ino, disk2, ic2, ino, s)
    ensures ic2 == ic && Owns(disk2, ic2, ino, s, d)
  {
    hide OthersOnDisk;
  }

  lemma UnlinkDone(ino: Table, files: seq<seq<byte>>, ic0: Cache, d: nat, nm: Name, j: nat, ino1: Table, files1: seq<seq<byte>>,
                   ino2: Table, files2: seq<seq<byte>>)
    requires d < |ino| == |files| && IsDir(files[d]) && Lookup(files[d], nm) == Some(j) && j < |ino| && 0 < ino[j].nlink
    requires files1 == files[d := Cleared(files[d], nm)]
    requires |ino1| == |ino| && ino1 == ino[j := ino1[j]] && ino1[j] == ino[j].(nlink := ino[j].nlink - 1, major := ino1[j].major, minor := ino1[j].minor)
    requires |ino1| == |files1| && PutDone(ino1, files1, ic0, multiset{j}, j, ino2, files2)
    ensures Unlinked(ino, files, d, nm, ino[j].nlink == 1 && Refs(ic0, j) == 0, ino2, files2)
  {
    hide Lookup, Cleared, Refs;
  }

  /** isdirempty says whether the directory has names besides its dots. */
  lemma EmptyIs(ino: Table, files: seq<seq<byte>>, j: nat)
    requires TreeInv(ino, files) && j < |ino| && ino[j].typ == T_DIR
    ensures |files| == |ino| && IsDir(files[j])
    ensures (forall e :: 2 <= e < Count(files[j]) ==> InumAt(files[j], e) == 0) <==> !HasNames(files[j])
  {
    TreeFacts(ino, files);
    DirIsOnce(ino, files, j);
    hide TreeInv, Counted, Lookup, NamesOnce, InumAt, NameAt, Count;
    EmptyHasOnlyDots(files[j]);
  }

  /** iunlockput(dp) on a way out that changes nothing. */
  method GiveUp(fs: FileSystem, s: nat, ghost files: seq<seq<byte>>, ghost ic0: Cache)
    requires s < |fs.icache| && During(fs.g, fs.disk, fs.icache, fs.ino, files, ic0, multiset{fs.icache[s].inum}, {fs.icache[s].inum})
    requires Owns(fs.disk, fs.icache, fs.ino, s, fs.icache[s].inum) && Kept(ic0, fs.ino, fs.icache[s].inum)
    modifies fs`disk, fs`icache, fs`ino
    ensures During(fs.g, fs.disk, fs.icache, fs.ino, files, ic0, multiset{}, {})
    ensures fs.ino == old(fs.ino) && fs.disk == old(fs.disk)
  {
    hide During, Kept, PutDone;
    ghost var d, ino := fs.icache[s].inum, fs.ino;
    ghost var files2 := UnlockPut(fs, s, files, ic0, multiset{d}, {d});
    PutKept(ino, files, ic0, multiset{d}, d, fs.ino, files2);
    assert multiset{d} - multiset{d} == multiset{} && {d} - {d} == {};
  }

  /** unlink, once the parent directory is known. */
  method UnlinkIn(fs: FileSystem, s: nat, name: seq<byte>, ghost files: seq<seq<byte>>, ghost ic0: Cache)
    returns (r: CallResult, ghost files2: seq<seq<byte>>)
    requires s < |fs.icache| && 0 < fs.icache[s].ref && |name| == DIRSIZ
    requires During(fs.g, fs.disk, fs.icache, fs.ino, files, ic0, multiset{fs.icache[s].inum}, {})
    requires TreeInv(fs.ino, files) && fs.icache[s].inum < |fs.ino| == |files| && fs.ino[fs.icache[s].inum].typ == T_DIR
    requires Kept(ic0, fs.ino, fs.icache[s].inum)
    modifies fs`disk, fs`icache, fs`ino
    ensures !r.Overflows?
    ensures r.Panics? ==> CacheFull(fs.icache) && Lookup(files[old(fs.icache[s].inum)], CName(name)).Some?
    ensures r.Failure? ==> && Refuses(old(fs.ino), files, old(fs.icache[s].inum), CName(name)) && files2 == files
                           && During(fs.g, fs.disk, fs.icache, fs.ino, files, ic0, multiset{}, {})
                           && fs.ino == old(fs.ino) && fs.disk == old(fs.disk)
    ensures r.Success? ==> && !Refuses(old(fs.ino), files, old(fs.icache[s].inum), CName(name))
                           && During(fs.g, fs.disk, fs.icache, fs.ino, files2, ic0, multiset{}, {})
                           && UnlinkedFrom(old(fs.ino), files, ic0, old(fs.icache[s].inum), CName(name), fs.ino, files2)
  {
    hide During, Kept, PutDone, TreeInv, Lookup, CName, HasNames, UnlinkedFrom, Unlinked, CacheFull, DirsOk, FindFrom;
    ghost var d, ino := fs.icache[s].inum, fs.ino;
    files2 := files;
    TreeDirsOk(fs.ino, files);
    TakeLock(fs, s, files, ic0, multiset{d}, {});
    assert {} + {d} == {d};
    if CName(name) == DOT || CName(name) == DOTDOT {
      GiveUp(fs, s, files, ic0);
      return Failure, files2;
    }
    var ok, found, t, off := LookIn(fs, s, name, files, ic0, multiset{d}, {d});
    if !ok { return Panics, files2; }
    if !found {
      GiveUp(fs, s, files, ic0);
      return Failure, files2;
    }
    ghost var j := fs.icache[t].inum;
    UnlinkStarts(fs.ino, files, d, CName(name));
    assert multiset{d} + multiset{j} == multiset{d, j};
    TakeLock(fs, t, files, ic0, multiset{d, j}, {d});
    assert {d} + {j} == {d, j};
    var busy := BusyDir(fs, t, files, ic0, multiset{d, j}, {d, j});
    if busy {
      ghost var files3 := UnlockPut(fs, t, files, ic0, multiset{d, j}, {d, j});
      LinkedKept(ino, files, ic0, multiset{d, j}, j, fs.ino, files3);
      assert multiset{d, j} - multiset{j} == multiset{d} && {d, j} - {j} == {d};
      GiveUp(fs, s, files, ic0);
      return Failure, files2;
    }
    files2 := UnlinkClear(fs, s, t, off, CName(name), files, ic0);
    UnlinkedFromIs(ino, files, ic0, d, CName(name), fs.ino, files2);
    r := Success;
  }

  /** unlink has been done, and the inode is free if that was its last link and nobody refers to it. */
  ghost predicate UnlinkedFrom(ino: Table, files: seq<seq<byte>>, ic0: Cache, d: nat, nm: Name, ino2: Table, files2: seq<seq<byte>>) {
    && d < |files| == |ino| && Lookup(files[d], nm).Some? && Lookup(files[d], nm).value < |ino|
    && var j := Lookup(files[d], nm).value;
       Unlinked(ino, files, d, nm, ino[j].nlink == 1 && Refs(ic0, j) == 0, ino2, files2)
  }

  lemma UnlinkedFromIs(ino: Table, files: seq<seq<byte>>, ic0: Cache, d: nat, nm: Name, ino2: Table, files2: seq<seq<byte>>)
    requires d < |files| == |ino| && Lookup(files[d], nm).Some? && Lookup(files[d], nm).value < |ino|
    requires var j := Lookup(files[d], nm).value;
             Unlinked(ino, files, d, nm, ino[j].nlink == 1 && Refs(ic0, j) == 0, ino2, files2)
    ensures UnlinkedFrom(ino, files, ic0, d, nm, ino2, files2)
  {
  }

  lemma TreeDirsOk(ino: Table, files: seq<seq<byte>>)
    requires TreeInv(ino, files)
    ensures DirsOk(ino, files) && ROOT < |ino| && ino[ROOT].typ == T_DIR && ino[ROOT].nlink != 0
  {
    TreeFacts(ino, files);
    hide TreeInv, Counted, Lookup;
    CountedDirsOk(ino, files);
    RootLinked(ino, files);
  }

  lemma LinkedKept(ino: Table, files: seq<seq<byte>>, ic0: Cache, m: multiset<nat>, j: nat, ino2: Table, files2: seq<seq<byte>>)
    requires j < |ino| == |files| && ino[j].nlink != 0 && PutDone(ino, files, ic0, m, j, ino2, files2)
    ensures ino2 == ino && files2 == files
  {
  }

  /** Whether the locked inode in slot t is a directory with names besides its dots. */
  method BusyDir(fs: FileSystem, t: nat, ghost files: seq<seq<byte>>, ghost ic0: Cache, ghost m: multiset<nat>, ghost l: set<nat>)
    returns (r: bool)
    requires During(fs.g, fs.disk, fs.icache, fs.ino, files, ic0, m, l) && t < |fs.icache| && fs.icache[t].inum < |fs.ino| == |files|
    requires Owns(fs.disk, fs.icache, fs.ino, t, fs.icache[t].inum) && TreeInv(fs.ino, files)
    ensures r <==> fs.ino[fs.icache[t].inum].typ == T_DIR && HasNames(files[fs.icache[t].inum])
  {
    hide Coherent, FsInv, FreeEmpty, Holds, Extra, Locks, Idle, Refs, Lookup, TreeInv, HasNames, InumAt, AllocInv, FileOk, Content,
         InodeOn, IBlock;
    DuringFacts(fs.g, fs.disk, fs.icache, fs.ino, files, ic0, m, l);
    HoldsFacts(fs.g, fs.disk, fs.icache, fs.ino, t, files);
    if fs.icache[t].d.typ != T_DIR { return false; }
    EmptyIs(fs.ino, files, fs.icache[t].inum);
    var empty := Isdirempty(fs, t);
    return !empty;
  }

  /** Nothing is locked while namei runs, so it does not wait. */
  lemma NoWait(g: Superblock, disk: Disk, ino: Table, files: seq<seq<byte>>, ic0: Cache, start: nat, names: seq<Name>,
               parent: bool, ic: Cache, r: NameiResult, name: seq<byte>)
    requires DirsOk(ino, files) && start < |ino| && Idle(ic0)
    requires NameiSpec(g, disk, ino, files, ic0, start, names, parent, ic, r, name)
    ensures !r.Waits? && (r.NoSlots? ==> CacheFull(ic))
    ensures r.Found? ==>
              && r.slot < |ic| && 0 < ic[r.slot].ref && ic[r.slot].inum < |ino|
              && Want(ino, files, start, names, parent) == Some(ic[r.slot].inum)
              && During(g, disk, ic, ino, files, ic0, multiset{ic[r.slot].inum}, {}) && Kept(ic0, ino, ic[r.slot].inum)
              && (parent ==> names != [] && CName(name) == names[|names| - 1])
    ensures r.Missing? ==> Want(ino, files, start, names, parent) == None && (Holds(g, disk, ino, files) ==>
              During(g, disk, ic, ino, files, ic0, multiset{}, {}))
  {
    hide Coherent, FsInv, FreeEmpty, Holds, Extra, Locks, Want, CName, Busy, CacheFull, OnPath, SlotOf, DirsOk;
  }

  /** The parent that nameiparent finds is a directory. */
  lemma {:induction false} ParentIsDir(ino: Table, files: seq<seq<byte>>, i: nat, names: seq<Name>)
    requires DirsOk(ino, files) && i < |ino| && ResolveParent(ino, files, i, names).Some?
    ensures ResolveParent(ino, files, i, names).value < |ino| && ino[ResolveParent(ino, files, i, names).value].typ == T_DIR
    decreases |names|
  {
    hide Lookup;
    if |names| != 1 {
      assert DirOk(ino, i, files[i]);
      LookupInRange(ino, i, files[i], names[0]);
      ParentIsDir(ino, files, Lookup(files[i], names[0]).value, names[1..]);
    }
  }

  /** What unlink does, and when.  Once it is done, namei of the path finds nothing. */
  ghost predicate UnlinkSpec(g: Superblock, ino0: Table, files: seq<seq<byte>>, ic0: Cache, start: nat, names: seq<Name>,
                             disk: Disk, ic: Cache, ino: Table, files2: seq<seq<byte>>, r: CallResult)
    requires DirsOk(ino0, files) && start < |ino0|
  {
    var parent := ResolveParent(ino0, files, start, names);
    match r
    case Overflows => false
    case Panics => CacheFull(ic)
    case Failure =>
      && (parent.Some? ==> names != [] && parent.value < |ino0| && Refuses(ino0, files, parent.value, names[|names| - 1]))
      && During(g, disk, ic, ino, files, ic0, multiset{}, {}) && ino == ino0 && files2 == files
    case Success =>
      && parent.Some? && names != [] && parent.value < |ino0| && !Refuses(ino0, files, parent.value, names[|names| - 1])
      && During(g, disk, ic, ino, files2, ic0, multiset{}, {})
      && UnlinkedFrom(ino0, files, ic0, parent.value, names[|names| - 1], ino, files2)
      && TreeInv(ino, files2) && DirsOk(ino, files2) && start < |ino| && Resolve(ino, files2, start, names) == None
  }

  /** sys_unlink.  cwd is the slot of cp->cwd, name0 the stack buffer for the name. */
  method Unlink(fs: FileSystem, path: seq<byte>, name0: seq<byte>, cwd: nat, ghost files: seq<seq<byte>>)
    returns (r: CallResult, ghost files2: seq<seq<byte>>)
    requires fs.Valid() && Holds(fs.g, fs.disk, fs.ino, files) && TreeInv(fs.ino, files) && Idle(fs.icache)
    requires 0 !in path && |name0| == DIRSIZ && cwd < |fs.icache| && 0 < fs.icache[cwd].ref
    modifies fs`disk, fs`icache, fs`ino
    ensures DirsOk(old(fs.ino), files) && 1 < |old(fs.ino)| && old(fs.icache[cwd].inum) < |old(fs.ino)|
    ensures UnlinkSpec(fs.g, old(fs.ino), files, old(fs.icache),
                       if path != [] && path[0] == SLASH then 1 else old(fs.icache[cwd].inum), Components(path),
                       fs.disk, fs.icache, fs.ino, files2, r)
  {
    hide Coherent, FsInv, FreeEmpty, Holds, During, Kept, TreeInv, Lookup, CName, Components, UnlinkedFrom, CacheFull, DirsOk,
         ResolveParent, Resolve, NameiSpec, Refuses, Idle, UnlinkSpec, Want;
    ghost var ic0, ino, names := fs.icache, fs.ino, Components(path);
    ghost var start := if path != [] && path[0] == SLASH then 1 else ic0[cwd].inum;
    TreeDirsOk(fs.ino, files);
    StartsInRange(fs.g, fs.disk, fs.icache, fs.ino, cwd);
    var p, name := Namei(fs, path, true, name0, cwd, files);
    NoWait(fs.g, fs.disk, fs.ino, files, ic0, start, names, true, fs.icache, p, name);
    files2 := files;
    if !p.Found? {
      r := if p.NoSlots? then Panics else Failure;
      UnlinkNoParent(fs.g, ino, files, ic0, start, names, fs.disk, fs.icache, r);
      return;
    }
    ghost var d := fs.icache[p.slot].inum;
    WantParent(ino, files, start, names, d);
    r, files2 := UnlinkIn(fs, p.slot, name, files, ic0);
    UnlinkSpecIs(fs.g, ino, files, ic0, start, names, d, fs.disk, fs.icache, fs.ino, files2, r);
  }

  lemma WantParent(ino: Table, files: seq<seq<byte>>, start: nat, names: seq<Name>, d: nat)
    requires DirsOk(ino, files) && start < |ino| && Want(ino, files, start, names, true) == Some(d)
    ensures ResolveParent(ino, files, start, names) == Some(d) && d < |ino| == |files| && ino[d].typ == T_DIR
  {
    hide ResolveParent, DirOk;
    ParentIsDir(ino, files, start, names);
  }

  lemma UnlinkNoParent(g: Superblock, ino: Table, files: seq<seq<byte>>, ic0: Cache, start: nat, names: seq<Name>,
                       disk: Disk, ic: Cache, r: CallResult)
    requires DirsOk(ino, files) && start < |ino| && (r.Panics? || r.Failure?) && (r.Panics? ==> CacheFull(ic))
    requires r.Failure? ==> Want(ino, files, start, names, true) == None && During(g, disk, ic, ino, files, ic0, multiset{}, {})
    ensures UnlinkSpec(g, ino, files, ic0, start, names, disk, ic, ino, files, r)
  {
    hide DirsOk, CacheFull, During, ResolveParent, Resolve, Refuses, UnlinkedFrom, TreeInv;
  }

  lemma UnlinkSpecIs(g: Superblock, ino: Table, files: seq<seq<byte>>, ic0: Cache, start: nat, names: seq<Name>, d: nat,
                     disk: Disk, ic: Cache, ino2: Table, files2: seq<seq<byte>>, r: CallResult)
    requires DirsOk(ino, files) && start < |ino| && TreeInv(ino, files) && names != []
    requires ResolveParent(ino, files, start, names) == Some(d) && d < |ino| == |files| && ino[d].typ == T_DIR
    requires !r.Overflows? && (r.Panics? ==> CacheFull(ic))
    requires r.Failure? ==> && Refuses(ino, files, d, names[|names| - 1]) && files2 == files && ino2 == ino
                            && During(g, disk, ic, ino2, files, ic0, multiset{}, {})
    requires r.Success? ==> && !Refuses(ino, files, d, names[|names| - 1])
                            && During(g, disk, ic, ino2, files2, ic0, multiset{}, {})
                            && UnlinkedFrom(ino, files, ic0, d, names[|names| - 1], ino2, files2)
    ensures UnlinkSpec(g, ino, files, ic0, start, names, disk, ic, ino2, files2, r)
  {
    hide DirsOk, CacheFull, During, ResolveParent, Resolve, TreeInv, Lookup, HasNames, Unlinked;
    if r.Success? {
      var nm := names[|names| - 1];
      var j := Lookup(files[d], nm).value;
      UnlinkedKeeps(ino, files, d, nm, ino[j].nlink == 1 && Refs(ic0, j) == 0, ino2, files2);
      TreeDirsOk(ino2, files2);
      WithinSizes(ino2, files2, ino, files);
      hide Refuses, UnlinkedFrom, Within;
      DroppedIsGone(ino, files, ino2, files2, start, names, d);
    }
  }

  // link

  /** A table with the same types and enough links is as sound. */
  lemma TreeMeta(ino: Table, ino2: Table, files: seq<seq<byte>>)
    requires TreeInv(ino, files) && |ino2| == |ino|
    requires forall i :: 0 <= i < |ino| ==> ino2[i].typ == ino[i].typ && ino[i].nlink <= ino2[i].nlink < SHRT
    ensures TreeInv(ino2, files) && Maps(ino2, files) == Maps(ino, files)
  {
    hide Counted, Maps, Named, Lookup, Dotted;
    CountedNlinks(ino, files);
    MetaKeeps(ino, ino2, files);
  }

  /** Paths depend on types and contents only. */
  lemma SamePaths(ino: Table, ino2: Table, files: seq<seq<byte>>, i: nat, names: seq<Name>)
    requires DirsOk(ino, files) && DirsOk(ino2, files) && i < |ino| == |ino2|
    requires forall k :: 0 <= k < |ino| ==> ino2[k].typ == ino[k].typ
    ensures Resolve(ino2, files, i, names) == Resolve(ino, files, i, names)
    ensures ResolveParent(ino2, files, i, names) == ResolveParent(ino, files, i, names)
  {
    SameWithin(ino, ino2, files);
    hide Within, Resolve, ResolveParent, DirOk;
    ResolveWithin(ino, files, ino2, files, i, names);
    ResolveWithin(ino2, files, ino, files, i, names);
  }

  lemma SameWithin(ino: Table, ino2: Table, files: seq<seq<byte>>)
    requires |ino| == |ino2| == |files| && forall k :: 0 <= k < |ino| ==> ino2[k].typ == ino[k].typ
    ensures Within(ino, files, ino2, files) && Within(ino2, files, ino, files)
  {
    hide Lookup;
  }

  /** A call within the call: references and locks add up. */
  lemma Rebase(g: Superblock, disk: Disk, ic: Cache, ino: Table, files: seq<seq<byte>>, ic0: Cache, m: multiset<nat>,
               ic1: Cache, m1: multiset<nat>, l1: set<nat>)
    requires Extra(ic0, ic1, m1) && Locks(ic0, ic1, l1) && Idle(ic0)
    requires KernelInv(g, disk, ic, ino) && Holds(g, disk, ino, files) && Extra(ic1, ic, m) && Locks(ic1, ic, {})
    ensures During(g, disk, ic, ino, files, ic0, m1 + m, l1)
  {
    hide Coherent, FsInv, FreeEmpty, Holds, Busy, Refs, Stays;
    ExtraTransStays(ic0, ic1, ic);
  }

  lemma ExtraTransStays(ic0: Cache, ic1: Cache, ic2: Cache)
    requires Stays(ic0, ic1) && Stays(ic1, ic2)
    ensures Stays(ic0, ic2)
  {
  }

  lemma DuringParts(g: Superblock, disk: Disk, ic: Cache, ino: Table, files: seq<seq<byte>>, ic0: Cache, m: multiset<nat>, l: set<nat>)
    requires During(g, disk, ic, ino, files, ic0, m, l)
    ensures KernelInv(g, disk, ic, ino) && Holds(g, disk, ino, files) && Extra(ic0, ic, m) && Locks(ic0, ic, l) && Idle(ic0)
    ensures l == {} ==> Idle(ic)
  {
    hide Coherent, FsInv, FreeEmpty, Holds, Extra, Busy;
  }

  /** Inode d may differ in its size and addresses; the others do not differ. */
  ghost predicate SameMeta(ino: Table, ino2: Table, d: nat) {
    && |ino2| == |ino|
    && forall i :: 0 <= i < |ino| ==>
         && ino2[i].typ == ino[i].typ && ino2[i].nlink == ino[i].nlink && ino2[i].major == ino[i].major && ino2[i].minor == ino[i].minor
         && (i != d ==> ino2[i] == ino[i])
  }

  /** What dirlink did, as seen from the call. */
  lemma AddedDuring(g: Superblock, disk: Disk, ic: Cache, ino: Table, files: seq<seq<byte>>, disk2: Disk, ic2: Cache, ino2: Table,
                    ic0: Cache, m: multiset<nat>, l: set<nat>, s: nat, name: seq<byte>, j: nat)
    requires During(g, disk, ic, ino, files, ic0, m, l) && s < |ic| && ic[s].inum < |files| && Owns(disk, ic, ino, s, ic[s].inum)
    requires KernelInv(g, disk2, ic2, ino2) && Added(g, disk, ic, ino, files, disk2, ic2, ino2, s, name, j) && ic[s].inum in l
    ensures IsDir(files[ic[s].inum]) && |name| == DIRSIZ
    ensures During(g, disk2, ic2, ino2, files[ic[s].inum := Entered(files[ic[s].inum], name, j)], ic0, m, l)
    ensures Owns(disk2, ic2, ino2, s, ic[s].inum) && |ic2| == |ic| && ic2 == ic[s := ic2[s]]
    ensures SameMeta(ino, ino2, ic[s].inum)
    ensures OthersOnDisk(disk, disk2, |ino|, ic[s].inum)
  {
    hide Coherent, FsInv, FreeEmpty, Holds, Extra, Locks, Idle, Refs, DirsOk, PutDirent, Dirent, FirstUnused, OthersOnDisk, InodeOn,
         IBlock;
    DuringSame(g, disk, ic, ino, files, disk2, ic2, ino2, files[ic[s].inum := Entered(files[ic[s].inum], name, j)], ic0, m, l, s);
    assert l + {ic[s].inum} == l;
  }

  /** dirlink in the locked directory in slot s, within a call. */
  method EnterIn(fs: FileSystem, s: nat, name: seq<byte>, inum: nat, ghost files: seq<seq<byte>>, ghost ic0: Cache,
                 ghost m: multiset<nat>, ghost l: set<nat>)
    returns (r: LinkResult, ghost files2: seq<seq<byte>>)
    requires During(fs.g, fs.disk, fs.icache, fs.ino, files, ic0, m, l) && DirsOk(fs.ino, files)
    requires s < |fs.icache| && Owns(fs.disk, fs.icache, fs.ino, s, fs.icache[s].inum) && fs.icache[s].inum in l
    requires fs.icache[s].d.typ == T_DIR && |name| == DIRSIZ && 0 < inum < LIMIT16
    modifies fs`disk, fs`icache, fs`ino
    ensures old(fs.icache[s].inum) < |files| == |old(fs.ino)| && IsDir(files[old(fs.icache[s].inum)])
    ensures !r.Stopped? ==> |fs.ino| == |files|
    ensures r.Stopped? ==> LinkStops(fs.g, fs.disk, fs.icache, files[old(fs.icache[s].inum)], CName(name))
    ensures !r.Stopped? ==> |fs.icache| == |old(fs.icache)|
    ensures !r.Stopped? ==> Owns(fs.disk, fs.icache, fs.ino, s, old(fs.icache[s].inum))
    ensures r.Exists? ==> && Lookup(files[old(fs.icache[s].inum)], CName(name)).Some? && files2 == files
                          && fs.disk == old(fs.disk) && fs.ino == old(fs.ino) && Unmoved(old(fs.icache), fs.icache)
                          && During(fs.g, fs.disk, fs.icache, fs.ino, files, ic0, m, l)
    ensures r.Linked? ==> && Lookup(files[old(fs.icache[s].inum)], CName(name)).None?
                          && files2 == files[old(fs.icache[s].inum) := Entered(files[old(fs.icache[s].inum)], name, inum)]
                          && During(fs.g, fs.disk, fs.icache, fs.ino, files2, ic0, m, l)
                          && fs.icache == old(fs.icache)[s := fs.icache[s]]
                          && OthersOnDisk(old(fs.disk), fs.disk, |fs.ino|, old(fs.icache[s].inum))
                          && SameMeta(old(fs.ino), fs.ino, old(fs.icache[s].inum))
  {
    hide Coherent, FsInv, FreeEmpty, Holds, Extra, Locks, Idle, During, CName, Lookup, DirsOk, LinkStops, OthersOnDisk, Added, Entered,
         InodeOn, IBlock;
    ghost var d, ic, disk, ino := fs.icache[s].inum, fs.icache, fs.disk, fs.ino;
    DuringFacts(fs.g, fs.disk, fs.icache, fs.ino, files, ic0, m, l);
    DuringParts(fs.g, fs.disk, fs.icache, fs.ino, files, ic0, m, l);
    files2 := files;
    r := Dirlink(fs, s, name, inum, files);
    if r.Linked? {
      files2 := files[d := Entered(files[d], name, inum)];
      AddedDuring(fs.g, disk, ic, ino, files, fs.disk, fs.icache, fs.ino, ic0, m, l, s, name, inum);
    } else if r.Exists? {
      Rebase(fs.g, fs.disk, fs.icache, fs.ino, files, ic0, multiset{}, ic, m, l);
      assert m + multiset{} == m;
    }
  }

  /** link gives back the link it counted in advance. */
  method LinkBad(fs: FileSystem, t: nat, ghost ino0: Table, ghost files: seq<seq<byte>>, ghost ic0: Cache)
    requires t < |fs.icache| && 0 < fs.icache[t].ref && fs.icache[t].inum < |ino0| == |fs.ino| == |files|
    requires During(fs.g, fs.disk, fs.icache, fs.ino, files, ic0, multiset{fs.icache[t].inum}, {})
    requires fs.ino == ino0[fs.icache[t].inum := ino0[fs.icache[t].inum].(nlink := ino0[fs.icache[t].inum].nlink + 1)]
    requires Kept(ic0, ino0, fs.icache[t].inum)
    modifies fs`disk, fs`icache, fs`ino
    ensures During(fs.g, fs.disk, fs.icache, fs.ino, files, ic0, multiset{}, {}) && fs.ino == ino0
  {
    hide During, Kept, PutDone, OthersOnDisk, InodeOn, IBlock;
    ghost var j := fs.icache[t].inum;
    TakeLock(fs, t, files, ic0, multiset{j}, {});
    assert {} + {j} == {j};
    SlotState(fs.g, fs.disk, fs.icache, fs.ino, files, ic0, multiset{j}, {j}, t);
    StoreMeta(fs, t, fs.icache[t].d.major, fs.icache[t].d.minor, fs.icache[t].d.nlink - 1, files, ic0, multiset{j}, {j});
    assert fs.ino == ino0;
    ghost var files2 := UnlockPut(fs, t, files, ic0, multiset{j}, {j});
    PutKept(ino0, files, ic0, multiset{j}, j, fs.ino, files2);
    assert multiset{j} - multiset{j} == multiset{} && {j} - {j} == {};
  }

  /** link, once the inode is known and its link counted, and the parent of the new name found in slot s. */
  method LinkIn(fs: FileSystem, s: nat, t: nat, name: seq<byte>, ghost ino0: Table, ghost files: seq<seq<byte>>, ghost ic0: Cache)
    returns (r: CallResult, ghost files2: seq<seq<byte>>)
    requires s < |fs.icache| && t < |fs.icache| && 0 < fs.icache[s].ref && 0 < fs.icache[t].ref && |name| == DIRSIZ
    requires fs.icache[s].inum < |ino0| == |fs.ino| == |files| && fs.icache[t].inum < |ino0|
    requires During(fs.g, fs.disk, fs.icache, fs.ino, files, ic0, multiset{fs.icache[t].inum, fs.icache[s].inum}, {})
    requires fs.ino == ino0[fs.icache[t].inum := ino0[fs.icache[t].inum].(nlink := ino0[fs.icache[t].inum].nlink + 1)]
    requires TreeInv(ino0, files) && ino0[fs.icache[s].inum].typ == T_DIR && ino0[fs.icache[t].inum].typ != T_DIR
    requires Kept(ic0, ino0, fs.icache[t].inum) && Kept(ic0, ino0, fs.icache[s].inum) && fs.ino[fs.icache[t].inum].nlink < SHRT
    modifies fs`disk, fs`icache, fs`ino
    ensures !r.Overflows?
    ensures r.Panics? ==> LinkStops(fs.g, fs.disk, fs.icache, files[old(fs.icache[s].inum)], CName(name))
    ensures r.Failure? ==> && Lookup(files[old(fs.icache[s].inum)], CName(name)).Some?
                           && During(fs.g, fs.disk, fs.icache, fs.ino, files, ic0, multiset{}, {}) && fs.ino == ino0 && files2 == files
    ensures r.Success? ==> && Lookup(files[old(fs.icache[s].inum)], CName(name)).None?
                           && During(fs.g, fs.disk, fs.icache, fs.ino, files2, ic0, multiset{}, {})
                           && NewName(ino0, files, old(fs.icache[s].inum), name, old(fs.icache[t].inum), fs.ino, files2)
  {
    hide During, Kept, PutDone, OthersOnDisk, InodeOn, IBlock, CName, Lookup, LinkStops, TreeInv, DirsOk, Entered;
    ghost var d, j, ino1 := fs.icache[s].inum, fs.icache[t].inum, fs.ino;
    TreeShort(ino0, files);
    TreeMeta(ino0, ino1, files);
    TreeDirsOk(ino1, files);
    SlotState(fs.g, fs.disk, fs.icache, fs.ino, files, ic0, multiset{j, d}, {}, t);
    TreeSizes(ino0, files);
    TakeLock(fs, s, files, ic0, multiset{j, d}, {});
    assert {} + {d} == {d};
    var e;
    e, files2 := EnterIn(fs, s, name, fs.icache[t].inum, files, ic0, multiset{j, d}, {d});
    if e.Stopped? { return Panics, files2; }
    assert t < |fs.icache| && fs.icache[t].inum == j && 0 < fs.icache[t].ref;
    ghost var ino2 := fs.ino;
    KeptSame(ic0, ino0, ino2, d);
    ghost var files3 := UnlockPut(fs, s, files2, ic0, multiset{j, d}, {d});
    PutKept(ino2, files2, ic0, multiset{j, d}, d, fs.ino, files3);
    assert multiset{j, d} - multiset{d} == multiset{j} && {d} - {d} == {};
    if e.Exists? {
      LinkBad(fs, t, ino0, files, ic0);
      return Failure, files2;
    }
    Put(fs, t, files2, ic0, multiset{j}, {});
    assert multiset{j} - multiset{j} == multiset{};
    return Success, files2;
  }

  lemma KeptSame(ic0: Cache, ino: Table, ino2: Table, d: nat)
    requires Kept(ic0, ino, d) && |ino2| == |ino| && ino[d].nlink <= ino2[d].nlink
    ensures Kept(ic0, ino2, d)
  {
  }

  lemma TreeShort(ino: Table, files: seq<seq<byte>>)
    requires TreeInv(ino, files)
    ensures forall i :: 0 <= i < |ino| ==> ino[i].nlink < SHRT
  {
    TreeFacts(ino, files);
    CountedNlinks(ino, files);
  }

  lemma TreeSizes(ino: Table, files: seq<seq<byte>>)
    requires TreeInv(ino, files)
    ensures |files| == |ino| <= LIMIT16
  {
    TreeFacts(ino, files);
  }

  /** When link succeeds: the old path names something that is not a directory, and the new one a free name. */
  ghost predicate LinkAllowed(ino: Table, files: seq<seq<byte>>, start: nat, old0: seq<Name>, start2: nat, new0: seq<Name>)
    requires DirsOk(ino, files) && start < |ino| && start2 < |ino|
  {
    var target, parent := Resolve(ino, files, start, old0), ResolveParent(ino, files, start2, new0);
    && target.Some? && target.value < |ino| && ino[target.value].typ != T_DIR
    && parent.Some? && parent.value < |ino| && new0 != [] && Lookup(files[parent.value], new0[|new0| - 1]).None?
  }

  /** What link does, and when.  Once it is done, namei of the new path finds the inode of the old one. */
  ghost predicate LinkSpec(g: Superblock, ino0: Table, files: seq<seq<byte>>, ic0: Cache, start: nat, old0: seq<Name>,
                           start2: nat, new0: seq<Name>, disk: Disk, ic: Cache, ino: Table, files2: seq<seq<byte>>,
                           name: seq<byte>, r: CallResult)
    requires DirsOk(ino0, files) && start < |ino0| && start2 < |ino0|
  {
    var target, parent := Resolve(ino0, files, start, old0), ResolveParent(ino0, files, start2, new0);
    match r
    case Overflows => target.Some? && target.value < |ino0| && ino0[target.value].typ != T_DIR && SHRT <= ino0[target.value].nlink + 1
    case Panics =>
      || CacheFull(ic)
      || (parent.Some? && parent.value < |ino0| && new0 != [] && LinkStops(g, disk, ic, files[parent.value], new0[|new0| - 1]))
    case Failure =>
      && !LinkAllowed(ino0, files, start, old0, start2, new0)
      && During(g, disk, ic, ino, files, ic0, multiset{}, {}) && ino == ino0 && files2 == files
    case Success =>
      && LinkAllowed(ino0, files, start, old0, start2, new0)
      && During(g, disk, ic, ino, files2, ic0, multiset{}, {})
      && |name| == DIRSIZ && CName(name) == new0[|new0| - 1]
      && NewName(ino0, files, parent.value, name, target.value, ino, files2)
      && TreeInv(ino, files2) && DirsOk(ino, files2) && start2 < |ino| && Resolve(ino, files2, start2, new0) == target
  }

  /** sys_link.  cwd is the slot of cp->cwd, name0 the stack buffer for the name. */
  method Link(fs: FileSystem, oldPath: seq<byte>, newPath: seq<byte>, name0: seq<byte>, cwd: nat, ghost files: seq<seq<byte>>)
    returns (r: CallResult, name: seq<byte>, ghost files2: seq<seq<byte>>)
    requires fs.Valid() && Holds(fs.g, fs.disk, fs.ino, files) && TreeInv(fs.ino, files) && Idle(fs.icache)
    requires 0 !in oldPath && 0 !in newPath && |name0| == DIRSIZ && cwd < |fs.icache| && 0 < fs.icache[cwd].ref
    modifies fs`disk, fs`icache, fs`ino
    ensures DirsOk(old(fs.ino), files) && 1 < |old(fs.ino)| && old(fs.icache[cwd].inum) < |old(fs.ino)|
    ensures LinkSpec(fs.g, old(fs.ino), files, old(fs.icache),
                     if oldPath != [] && oldPath[0] == SLASH then 1 else old(fs.icache[cwd].inum), Components(oldPath),
                     if newPath != [] && newPath[0] == SLASH then 1 else old(fs.icache[cwd].inum), Components(newPath),
                     fs.disk, fs.icache, fs.ino, files2, name, r)
  {
    hide Coherent, FsInv, FreeEmpty, Holds, During, Kept, TreeInv, Lookup, CName, Components, CacheFull, DirsOk,
         ResolveParent, Resolve, NameiSpec, Idle, LinkSpec, LinkAllowed, Want, LinkStops, NewName, InodeOn, IBlock, OthersOnDisk;
    ghost var ic0, ino, names, names2 := fs.icache, fs.ino, Components(oldPath), Components(newPath);
    ghost var start := if oldPath != [] && oldPath[0] == SLASH then 1 else ic0[cwd].inum;
    ghost var start2 := if newPath != [] && newPath[0] == SLASH then 1 else ic0[cwd].inum;
    files2 := files;
    TreeDirsOk(fs.ino, files);
    StartsInRange(fs.g, fs.disk, fs.icache, fs.ino, cwd);
    var p;
    p, name := Namei(fs, oldPath, false, name0, cwd, files);
    NoWait(fs.g, fs.disk, fs.ino, files, ic0, start, names, false, fs.icache, p, name);
    if !p.Found? {
      r := if p.NoSlots? then Panics else Failure;
      LinkNoTarget(fs.g, ino, files, ic0, start, names, start2, names2, fs.disk, fs.icache, name, r);
      return;
    }
    ghost var j := fs.icache[p.slot].inum;
    WantTarget(ino, files, start, names, j);
    TakeLock(fs, p.slot, files, ic0, multiset{j}, {});
    assert {} + {j} == {j};
    if fs.icache[p.slot].d.typ == T_DIR {
      GiveUp(fs, p.slot, files, ic0);
      r := Failure;
      LinkRefused(fs.g, ino, files, ic0, start, names, start2, names2, fs.disk, fs.icache, name);
      return;
    }
    if SHRT <= fs.icache[p.slot].d.nlink + 1 {
      r := Overflows;
      LinkOverflows(fs.g, ino, files, ic0, start, names, start2, names2, fs.disk, fs.icache, fs.ino, files2, name, j);
      return;
    }
    TreeSizes(ino, files);
    r, name, files2 := LinkFrom(fs, p.slot, newPath, name, cwd, files, ic0, start, names);
  }

  lemma StartsInRange(g: Superblock, disk: Disk, ic: Cache, ino: Table, cwd: nat)
    requires Coherent(g, disk, ic, ino) && cwd < |ic| && 0 < ic[cwd].ref
    ensures ic[cwd].inum < |ino| && 1 < |ino|
  {
  }

  lemma WantTarget(ino: Table, files: seq<seq<byte>>, start: nat, names: seq<Name>, j: nat)
    requires DirsOk(ino, files) && start < |ino| && Want(ino, files, start, names, false) == Some(j)
    ensures Resolve(ino, files, start, names) == Some(j)
  {
  }

  lemma LinkNoTarget(g: Superblock, ino: Table, files: seq<seq<byte>>, ic0: Cache, start: nat, names: seq<Name>, start2: nat,
                     names2: seq<Name>, disk: Disk, ic: Cache, name: seq<byte>, r: CallResult)
    requires DirsOk(ino, files) && start < |ino| && start2 < |ino| && (r.Panics? || r.Failure?) && (r.Panics? ==> CacheFull(ic))
    requires r.Failure? ==> Want(ino, files, start, names, false) == None && During(g, disk, ic, ino, files, ic0, multiset{}, {})
    ensures LinkSpec(g, ino, files, ic0, start, names, start2, names2, disk, ic, ino, files, name, r)
  {
    hide DirsOk, CacheFull, During, ResolveParent, Resolve, TreeInv, LinkStops, NewName, Lookup, CName;
  }

  lemma LinkRefused(g: Superblock, ino: Table, files: seq<seq<byte>>, ic0: Cache, start: nat, names: seq<Name>, start2: nat,
                    names2: seq<Name>, disk: Disk, ic: Cache, name: seq<byte>)
    requires DirsOk(ino, files) && start < |ino| && start2 < |ino| && During(g, disk, ic, ino, files, ic0, multiset{}, {})
    requires !LinkAllowed(ino, files, start, names, start2, names2) ||
             (Resolve(ino, files, start, names).Some? && Resolve(ino, files, start, names).value < |ino| &&
              ino[Resolve(ino, files, start, names).value].typ == T_DIR)
    ensures LinkSpec(g, ino, files, ic0, start, names, start2, names2, disk, ic, ino, files, name, Failure)
  {
    hide DirsOk, CacheFull, During, ResolveParent, Resolve, TreeInv, LinkStops, NewName, Lookup, CName;
  }

  lemma LinkOverflows(g: Superblock, ino: Table, files: seq<seq<byte>>, ic0: Cache, start: nat, names: seq<Name>, start2: nat,
                      names2: seq<Name>, disk: Disk, ic: Cache, ino2: Table, files2: seq<seq<byte>>, name: seq<byte>, j: nat)
    requires DirsOk(ino, files) && start < |ino| && start2 < |ino| && Resolve(ino, files, start, names) == Some(j) && j < |ino|
    requires ino[j].typ != T_DIR && SHRT <= ino[j].nlink + 1
    ensures LinkSpec(g, ino, files, ic0, start, names, start2, names2, disk, ic, ino2, files2, name, Overflows)
  {
    hide DirsOk, CacheFull, During, ResolveParent, Resolve, TreeInv, LinkStops, NewName, Lookup, CName;
  }

  /** nlink of the locked inode in slot t is raised and stored, and the inode unlocked. */
  method RaiseLink(fs: FileSystem, t: nat, ghost files: seq<seq<byte>>, ghost ic0: Cache)
    requires t < |fs.icache| && During(fs.g, fs.disk, fs.icache, fs.ino, files, ic0, multiset{fs.icache[t].inum}, {fs.icache[t].inum})
    requires Owns(fs.disk, fs.icache, fs.ino, t, fs.icache[t].inum) && fs.icache[t].inum < |fs.ino| == |files|
    requires TreeInv(fs.ino, files) && fs.icache[t].d.nlink + 1 < SHRT
    modifies fs`disk, fs`icache, fs`ino
    ensures var ino, j := old(fs.ino), old(fs.icache[t].inum);
            && fs.ino == ino[j := ino[j].(nlink := ino[j].nlink + 1)] && TreeInv(fs.ino, files) && DirsOk(fs.ino, files)
            && During(fs.g, fs.disk, fs.icache, fs.ino, files, ic0, multiset{j}, {})
            && t < |fs.icache| && 0 < fs.icache[t].ref && fs.icache[t].inum == j
  {
    hide Coherent, FsInv, FreeEmpty, Holds, During, Kept, TreeInv, DirsOk, InodeOn, IBlock, OthersOnDisk;
    ghost var ino, j := fs.ino, fs.icache[t].inum;
    SlotState(fs.g, fs.disk, fs.icache, fs.ino, files, ic0, multiset{j}, {j}, t);
    StoreMeta(fs, t, fs.icache[t].d.major, fs.icache[t].d.minor, fs.icache[t].d.nlink + 1, files, ic0, multiset{j}, {j});
    DropLock(fs, t, files, ic0, multiset{j}, {j});
    assert {j} - {j} == {};
    assert fs.ino == ino[j := ino[j].(nlink := ino[j].nlink + 1)];
    TreeShort(ino, files);
    TreeMeta(ino, fs.ino, files);
    TreeDirsOk(fs.ino, files);
  }

  /** link, from raising nlink of the locked inode in slot t on. */
  method LinkFrom(fs: FileSystem, t: nat, newPath: seq<byte>, name0: seq<byte>, cwd: nat, ghost files: seq<seq<byte>>,
                  ghost ic0: Cache, ghost start: nat, ghost names: seq<Name>)
    returns (r: CallResult, name: seq<byte>, ghost files2: seq<seq<byte>>)
    requires t < |fs.icache| && During(fs.g, fs.disk, fs.icache, fs.ino, files, ic0, multiset{fs.icache[t].inum}, {fs.icache[t].inum})
    requires Owns(fs.disk, fs.icache, fs.ino, t, fs.icache[t].inum) && fs.icache[t].inum < |fs.ino| == |files|
    requires TreeInv(fs.ino, files) && DirsOk(fs.ino, files) && start < |fs.ino| && fs.icache[t].d.nlink + 1 < SHRT
    requires fs.ino[fs.icache[t].inum].typ != T_DIR && Resolve(fs.ino, files, start, names) == Some(fs.icache[t].inum)
    requires Kept(ic0, fs.ino, fs.icache[t].inum)
    requires 0 !in newPath && |name0| == DIRSIZ && cwd < |ic0| && 0 < ic0[cwd].ref
    modifies fs`disk, fs`icache, fs`ino
    ensures 1 < |old(fs.ino)| && ic0[cwd].inum < |old(fs.ino)|
    ensures LinkSpec(fs.g, old(fs.ino), files, ic0, start, names,
                     if newPath != [] && newPath[0] == SLASH then 1 else ic0[cwd].inum, Components(newPath),
                     fs.disk, fs.icache, fs.ino, files2, name, r)
  {
    hide Coherent, FsInv, FreeEmpty, Holds, During, Kept, TreeInv, Lookup, CName, Components, CacheFull, DirsOk, Extra, Locks,
         ResolveParent, Resolve, NameiSpec, Idle, LinkSpec, LinkAllowed, Want, LinkStops, NewName, InodeOn, IBlock, OthersOnDisk, Refs;
    ghost var ino, j := fs.ino, fs.icache[t].inum;
    files2 := files;
    TreeShort(ino, files);
    SlotState(fs.g, fs.disk, fs.icache, fs.ino, files, ic0, multiset{j}, {j}, t);
    RaiseLink(fs, t, files, ic0);
    ghost var ino1, ic1 := fs.ino, fs.icache;
    TreeDirsOk(ino1, files);
    DuringParts(fs.g, fs.disk, fs.icache, fs.ino, files, ic0, multiset{j}, {});
    StartStays(ic0, ic1, multiset{j}, cwd);
    StartsInRange(fs.g, fs.disk, fs.icache, fs.ino, cwd);
    ghost var start2 := if newPath != [] && newPath[0] == SLASH then 1 else ic0[cwd].inum;
    ghost var names2 := Components(newPath);
    var q;
    q, name := Namei(fs, newPath, true, name0, cwd, files);
    NoWait(fs.g, fs.disk, fs.ino, files, ic1, start2, names2, true, fs.icache, q, name);
    SamePaths(ino, ino1, files, start2, names2);
    if q.NoSlots? {
      r := Panics;
      LinkPanics(fs.g, ino, files, ic0, start, names, start2, names2, fs.disk, fs.icache, fs.ino, files2, name);
      return;
    }
    if q.Missing? {
      Rejoin(fs.g, fs.disk, fs.icache, fs.ino, files, ic0, ic1, multiset{j}, multiset{}, t, j);
      assert multiset{j} + multiset{} == multiset{j};
      LinkBad(fs, t, ino, files, ic0);
      r := Failure;
      LinkNoParent(ino, ino1, files, start, names, start2, names2);
      LinkRefused(fs.g, ino, files, ic0, start, names, start2, names2, fs.disk, fs.icache, name);
      return;
    }
    ghost var d := fs.icache[q.slot].inum;
    WantParent(ino1, files, start2, names2, d);
    Rejoin(fs.g, fs.disk, fs.icache, fs.ino, files, ic0, ic1, multiset{j}, multiset{d}, t, j);
    assert multiset{j} + multiset{d} == multiset{j, d};
    KeptRebased(ic0, ic1, ino, ino1, j, d);
    r, files2 := LinkIn(fs, q.slot, t, name, ino, files, ic0);
    LinkSpecIs(fs.g, ino, files, ic0, start, names, start2, names2, d, j, fs.disk, fs.icache, fs.ino, files2, name, r);
  }

  lemma LinkPanics(g: Superblock, ino: Table, files: seq<seq<byte>>, ic0: Cache, start: nat, names: seq<Name>, start2: nat,
                   names2: seq<Name>, disk: Disk, ic: Cache, ino2: Table, files2: seq<seq<byte>>, name: seq<byte>)
    requires DirsOk(ino, files) && start < |ino| && start2 < |ino| && CacheFull(ic)
    ensures LinkSpec(g, ino, files, ic0, start, names, start2, names2, disk, ic, ino2, files2, name, Panics)
  {
    hide DirsOk, CacheFull, During, ResolveParent, Resolve, TreeInv, LinkStops, NewName, Lookup, CName;
  }

  lemma StartStays(ic0: Cache, ic: Cache, m: multiset<nat>, cwd: nat)
    requires Extra(ic0, ic, m) && cwd < |ic0| && 0 < ic0[cwd].ref
    ensures cwd < |ic| && 0 < ic[cwd].ref && ic[cwd].inum == ic0[cwd].inum
  {
    hide Refs;
  }

  /** After namei, slot t still holds inode j. */
  lemma Rejoin(g: Superblock, disk: Disk, ic: Cache, ino: Table, files: seq<seq<byte>>, ic0: Cache, ic1: Cache,
               m1: multiset<nat>, m: multiset<nat>, t: nat, j: nat)
    requires Extra(ic0, ic1, m1) && Locks(ic0, ic1, {}) && Idle(ic0) && t < |ic1| && 0 < ic1[t].ref && ic1[t].inum == j
    requires During(g, disk, ic, ino, files, ic1, m, {})
    ensures During(g, disk, ic, ino, files, ic0, m1 + m, {}) && t < |ic| && 0 < ic[t].ref && ic[t].inum == j
  {
    hide Coherent, FsInv, FreeEmpty, Holds, Locks, Idle, Refs;
    Rebase(g, disk, ic, ino, files, ic0, m, ic1, m1, {});
  }

  lemma KeptRebased(ic0: Cache, ic1: Cache, ino: Table, ino1: Table, j: nat, d: nat)
    requires Extra(ic0, ic1, multiset{j}) && Kept(ic1, ino1, d) && d != j && |ino1| == |ino| && ino1[d].nlink == ino[d].nlink
    ensures Kept(ic0, ino, d)
  {
    hide Refs, Stays;
  }

  lemma LinkNoParent(ino: Table, ino1: Table, files: seq<seq<byte>>, start: nat, names: seq<Name>, start2: nat, names2: seq<Name>)
    requires DirsOk(ino, files) && DirsOk(ino1, files) && start < |ino| && start2 < |ino| == |ino1|
    requires Want(ino1, files, start2, names2, true) == None
    requires ResolveParent(ino1, files, start2, names2) == ResolveParent(ino, files, start2, names2)
    ensures !LinkAllowed(ino, files, start, names, start2, names2)
  {
    hide DirsOk, ResolveParent, Resolve, Lookup;
  }

  lemma LinkSpecIs(g: Superblock, ino: Table, files: seq<seq<byte>>, ic0: Cache, start: nat, names: seq<Name>, start2: nat,
                   names2: seq<Name>, d: nat, j: nat, disk: Disk, ic: Cache, ino2: Table, files2: seq<seq<byte>>, name: seq<byte>,
                   r: CallResult)
    requires DirsOk(ino, files) && TreeInv(ino, files) && start < |ino| && start2 < |ino| == |files| && names2 != [] && 0 < j
    requires Resolve(ino, files, start, names) == Some(j) && j < |ino| && ino[j].typ != 0 && ino[j].typ != T_DIR
    requires ResolveParent(ino, files, start2, names2) == Some(d) && d < |ino| && ino[d].typ == T_DIR
    requires |name| == DIRSIZ && CName(name) == names2[|names2| - 1] && !r.Overflows?
    requires r.Panics? ==> LinkStops(g, disk, ic, files[d], CName(name))
    requires r.Failure? ==> && Lookup(files[d], CName(name)).Some? && During(g, disk, ic, ino2, files, ic0, multiset{}, {})
                            && ino2 == ino && files2 == files
    requires r.Success? ==> && Lookup(files[d], CName(name)).None? && During(g, disk, ic, ino2, files2, ic0, multiset{}, {})
                            && NewName(ino, files, d, name, j, ino2, files2)
    ensures LinkSpec(g, ino, files, ic0, start, names, start2, names2, disk, ic, ino2, files2, name, r)
  {
    hide DirsOk, CacheFull, During, ResolveParent, Resolve, TreeInv, LinkStops, Lookup, CName, NewName;
    if r.Success? {
      LinkedKeeps(ino, files, d, name, j, ino2, files2);
      TreeDirsOk(ino2, files2);
      WithinSizes(ino, files, ino2, files2);
      hide Within;
      AddedIsFound(ino, files, ino2, files2, start2, names2, d, j);
    }
  }

  // create

  datatype CreateResult =
    | Created(slot: nat)    // the new inode, locked
    | Existing(slot: nat)   // the inode of that name, locked
    | Refused               // 0
    | Stops                 // panic
    | TooMany               // nlink of the parent would exceed what the inode can hold

  ghost predicate DiskFull(g: Superblock, disk: Disk) { forall b :: 0 <= b < g.size ==> Marked(g, disk, b) }

  /** Where create panics: no inode or no slot left, or dirlink cannot add the name or the dots. */
  ghost predicate CreateStops(g: Superblock, ino0: Table, files: seq<seq<byte>>, d: nat, nm: Name, disk: Disk, ic: Cache)
    requires d < |files|
  {
    || (forall j :: 0 < j < |ino0| ==> ino0[j].typ != 0)
    || CacheFull(ic) || DiskFull(g, disk) || LinkStops(g, disk, ic, files[d], nm)
  }

  /** Inode i was free and still is; no other inode differs. */
  ghost predicate OnlyFree(ino: Table, ino2: Table) {
    |ino2| == |ino| && exists i :: 0 <= i < |ino| && ino[i].typ == 0 && ino2[i].typ == 0 && ino2[i].nlink == 0 && ino2 == ino[i := ino2[i]]
  }

  /** A small directory has room as long as the disk has. */
  lemma StopsIsFull(g: Superblock, disk: Disk, ic: Cache, c: seq<byte>, nm: Name)
    requires LinkStops(g, disk, ic, c, nm) && Lookup(c, nm).None? && |c| < MAXFILE * BSIZE
    ensures DiskFull(g, disk)
  {
    hide Lookup, Marked, CacheFull, SlotOf;
  }

  /** Taking a fresh inode into a slot that was free. */
  lemma DuringAlloc(g: Superblock, disk: Disk, ic: Cache, ino: Table, files: seq<seq<byte>>, disk2: Disk, ic2: Cache, ino2: Table,
                    ic0: Cache, m: multiset<nat>, l: set<nat>, t: nat, i: nat)
    requires During(g, disk, ic, ino, files, ic0, m, l) && 0 < i < |ino| && ino[i].typ == 0
    requires KernelInv(g, disk2, ic2, ino2) && Holds(g, disk2, ino2, files)
    requires t < |ic| && ic[t].ref == 0 && ic2 == ic[t := Inode(i, 1, false, false, ic2[t].d)]
    ensures During(g, disk2, ic2, ino2, files, ic0, m + multiset{i}, l) && Refs(ic0, i) == 0 && i !in m
  {
    IallocNotCached(g, disk, ic, ino, i);
    assert Refs(ic, i) == Refs(ic0, i) + m[i];
    hide Coherent, FsInv, FreeEmpty, Holds, Locks, SlotOf, Extra;
    assert GotRef(ic, ic2, t, i);
    ExtraGot(g, disk, ino, ic0, m, l, ic, disk2, ino2, ic2, t, i);
  }

  /** ialloc and the first writes to the new inode: it is locked, linked once, and on disk. */
  method CreateInode(fs: FileSystem, s: nat, typ: nat, major: nat, minor: nat, ghost files: seq<seq<byte>>, ghost ic0: Cache)
    returns (ok: bool, t: nat)
    requires s < |fs.icache| && Owns(fs.disk, fs.icache, fs.ino, s, fs.icache[s].inum)
    requires During(fs.g, fs.disk, fs.icache, fs.ino, files, ic0, multiset{fs.icache[s].inum}, {fs.icache[s].inum})
    requires 0 < typ < LIMIT16 && major < LIMIT16 && minor < LIMIT16
    modifies fs`disk, fs`icache, fs`ino
    ensures !ok ==> (forall j :: 0 < j < |old(fs.ino)| ==> old(fs.ino)[j].typ != 0) || CacheFull(fs.icache)
    ensures ok ==> t < |fs.icache| == |old(fs.icache)|
    ensures ok ==> var d, i := old(fs.icache[s].inum), fs.icache[t].inum;
                   && 0 < i < |files| == |old(fs.ino)| == |fs.ino| && i != d
                   && old(fs.ino)[i].typ == 0 && files[i] == [] && Refs(ic0, i) == 0
                   && fs.ino == old(fs.ino)[i := fs.ino[i]] && fs.ino[i].typ == typ && fs.ino[i].nlink == 1
                   && fs.ino[i].major == major && fs.ino[i].minor == minor
                   && During(fs.g, fs.disk, fs.icache, fs.ino, files, ic0, multiset{d, i}, {d, i})
                   && Owns(fs.disk, fs.icache, fs.ino, s, d) && Owns(fs.disk, fs.icache, fs.ino, t, i) && s != t
  {
    hide Coherent, FsInv, FreeEmpty, Holds, Extra, Locks, Idle, Refs, During, InodeOn, IBlock, OthersOnDisk, SlotOf;
    ghost var d, ic, ino, disk := fs.icache[s].inum, fs.icache, fs.ino, fs.disk;
    DuringParts(fs.g, fs.disk, fs.icache, fs.ino, files, ic0, multiset{d}, {d});
    DuringFacts(fs.g, fs.disk, fs.icache, fs.ino, files, ic0, multiset{d}, {d});
    ok, t := fs.Ialloc(typ, files);
    if !ok { return; }
    ghost var i := fs.icache[t].inum;
    DuringAlloc(fs.g, disk, ic, ino, files, fs.disk, fs.icache, fs.ino, ic0, multiset{d}, {d}, t, i);
    assert multiset{d} + multiset{i} == multiset{d, i};
    OwnsKept(disk, ic, ino, fs.disk, fs.icache, fs.ino, t, i, s, d);
    TakeLock(fs, t, files, ic0, multiset{d, i}, {d});
    assert {d} + {i} == {d, i};
    ghost var ic1, disk1, ino1 := fs.icache, fs.disk, fs.ino;
    assert Owns(fs.disk, fs.icache, fs.ino, s, d);
    StoreMeta(fs, t, major, minor, 1, files, ic0, multiset{d, i}, {d, i});
    OwnsKept(disk1, ic1, ino1, fs.disk, fs.icache, fs.ino, t, i, s, d);
  }

  /** create gives the new inode up again: its link is taken back in core only, and iput frees it. */
  method CreateAbort(fs: FileSystem, s: nat, t: nat, ghost ino0: Table, ghost files: seq<seq<byte>>, ghost ic0: Cache)
    requires s < |fs.icache| && t < |fs.icache| && s != t && fs.icache[s].inum != fs.icache[t].inum
    requires During(fs.g, fs.disk, fs.icache, fs.ino, files, ic0, multiset{fs.icache[s].inum, fs.icache[t].inum},
                    {fs.icache[s].inum, fs.icache[t].inum})
    requires Owns(fs.disk, fs.icache, fs.ino, s, fs.icache[s].inum) && Locked(fs.icache, t)
    requires Kept(ic0, ino0, fs.icache[s].inum) && Refs(ic0, fs.icache[t].inum) == 0
    requires fs.icache[t].inum < |files| == |ino0| == |fs.ino| && files[fs.icache[t].inum] == [] && ino0[fs.icache[t].inum].typ == 0
    requires fs.ino == ino0[fs.icache[t].inum := fs.ino[fs.icache[t].inum]]
    modifies fs`disk, fs`icache, fs`ino
    ensures During(fs.g, fs.disk, fs.icache, fs.ino, files, ic0, multiset{}, {}) && OnlyFree(ino0, fs.ino)
  {
    hide Coherent, FsInv, FreeEmpty, Holds, Extra, Locks, Idle, During, Kept, InodeOn, IBlock, Refs, OnlyFree, OthersOnDisk;
    ghost var d, i, ic, ino := fs.icache[s].inum, fs.icache[t].inum, fs.icache, fs.ino;
    DuringFacts(fs.g, fs.disk, fs.icache, fs.ino, files, ic0, multiset{d, i}, {d, i});
    SlotState(fs.g, fs.disk, fs.icache, fs.ino, files, ic0, multiset{d, i}, {d, i}, t);
    fs.SetMeta(t, fs.icache[t].d.major, fs.icache[t].d.minor, 0, files);
    DuringSame(fs.g, fs.disk, ic, ino, files, fs.disk, fs.icache, fs.ino, files, ic0, multiset{d, i}, {d, i}, t);
    assert {d, i} + {i} == {d, i};
    SlotState(fs.g, fs.disk, fs.icache, fs.ino, files, ic0, multiset{d, i}, {d, i}, t);
    ghost var ic1, ino1, disk1 := fs.icache, fs.ino, fs.disk;
    assert Owns(disk1, ic1, ino1, s, d);
    ghost var files2 := UnlockPut(fs, t, files, ic0, multiset{d, i}, {d, i});
    assert files2 == files;
    assert multiset{d, i} - multiset{i} == multiset{d} && {d, i} - {i} == {d};
    OnlyFreeIs(ino0, fs.ino, i);
    OwnsKept(disk1, ic1, ino1, fs.disk, fs.icache, fs.ino, t, i, s, d);
    KeptSame(ic0, ino0, fs.ino, d);
    GiveUp(fs, s, files, ic0);
  }

  lemma OnlyFreeIs(ino: Table, ino2: Table, i: nat)
    requires i < |ino| == |ino2| && ino[i].typ == 0 && ino2[i].typ == 0 && ino2[i].nlink == 0 && ino2 == ino[i := ino2[i]]
    ensures OnlyFree(ino, ino2)
  {
  }

  /** For a directory: dp->nlink++, then "." and "..". */
  method CreateDots(fs: FileSystem, s: nat, t: nat, ghost files: seq<seq<byte>>, ghost ic0: Cache)
    returns (r: CreateResult, ghost files2: seq<seq<byte>>)
    requires s < |fs.icache| && t < |fs.icache| && s != t && fs.icache[s].inum != fs.icache[t].inum
    requires During(fs.g, fs.disk, fs.icache, fs.ino, files, ic0, multiset{fs.icache[s].inum, fs.icache[t].inum},
                    {fs.icache[s].inum, fs.icache[t].inum})
    requires Owns(fs.disk, fs.icache, fs.ino, s, fs.icache[s].inum) && Owns(fs.disk, fs.icache, fs.ino, t, fs.icache[t].inum)
    requires Counted(fs.ino, files) && files[fs.icache[t].inum] == [] && fs.ino[fs.icache[t].inum].typ == T_DIR
    modifies fs`disk, fs`icache, fs`ino
    ensures r.Stops? || r.TooMany? || r == Created(t)
    ensures r.Stops? ==> DiskFull(fs.g, fs.disk)
    ensures r.TooMany? ==> SHRT <= old(fs.ino)[old(fs.icache[s].inum)].nlink + 1
    ensures r.Created? ==>
              var d, i := old(fs.icache[s].inum), old(fs.icache[t].inum);
              && d < |files| && i < |files| && files2 == files[i := DotsOf(i, d)] && |fs.icache| == |old(fs.icache)|
              && During(fs.g, fs.disk, fs.icache, fs.ino, files2, ic0, multiset{d, i}, {d, i})
              && Owns(fs.disk, fs.icache, fs.ino, s, d) && Owns(fs.disk, fs.icache, fs.ino, t, i)
              && |fs.ino| == |old(fs.ino)| && fs.ino[d].nlink == old(fs.ino)[d].nlink + 1 < SHRT && fs.ino[d].typ == old(fs.ino)[d].typ
              && fs.ino[i].major == old(fs.ino)[i].major && fs.ino[i].minor == old(fs.ino)[i].minor
              && forall x :: 0 <= x < |fs.ino| && x != d ==>
                   fs.ino[x].typ == old(fs.ino)[x].typ && fs.ino[x].nlink == old(fs.ino)[x].nlink
  {
    hide During, InodeOn, IBlock, OthersOnDisk, Counted, DirsOk, Lookup, LinkStops, CName, Entered, DotBuf, DotDotBuf, DiskFull;
    ghost var d, i, ino := fs.icache[s].inum, fs.icache[t].inum, fs.ino;
    ghost var m, l := multiset{d, i}, {d, i};
    files2 := files;
    SlotState(fs.g, fs.disk, fs.icache, fs.ino, files, ic0, m, l, s);
    SlotState(fs.g, fs.disk, fs.icache, fs.ino, files, ic0, m, l, t);
    if SHRT <= fs.icache[s].d.nlink + 1 { return TooMany, files; }
    ghost var disk1, ic1, ino1 := fs.disk, fs.icache, fs.ino;
    StoreMeta(fs, s, fs.icache[s].d.major, fs.icache[s].d.minor, fs.icache[s].d.nlink + 1, files, ic0, m, l);
    OwnsKept(disk1, ic1, ino1, fs.disk, fs.icache, fs.ino, s, d, t, i);
    DotsStart(ino, fs.ino, files, d, i);
    ghost var disk2, ic2, ino2 := fs.disk, fs.icache, fs.ino;
    var e;
    e, files2 := EnterIn(fs, t, DotBuf(), fs.icache[t].inum, files, ic0, m, l);
    if e.Stopped? {
      StopsIsFull(fs.g, fs.disk, fs.icache, [], DOT);
      return Stops, files2;
    }
    OwnsKept(disk2, ic2, ino2, fs.disk, fs.icache, fs.ino, t, i, s, d);
    DotsNext(ino2, fs.ino, files, d, i);
    ghost var disk3, ic3, ino3, files3 := fs.disk, fs.icache, fs.ino, files2;
    e, files2 := EnterIn(fs, t, DotDotBuf(), fs.icache[s].inum, files2, ic0, m, l);
    if e.Stopped? {
      StopsIsFull(fs.g, fs.disk, fs.icache, files3[i], DOTDOT);
      return Stops, files2;
    }
    OwnsKept(disk3, ic3, ino3, fs.disk, fs.icache, fs.ino, t, i, s, d);
    assert files2 == files[i := DotsOf(i, d)];
    return Created(t), files2;
  }

  /** The parent has its link counted. */
  lemma DotsStart(ino: Table, ino2: Table, files: seq<seq<byte>>, d: nat, i: nat)
    requires Counted(ino, files) && 0 < d < |ino| && 0 < i < |ino| && i != d && ino[i].typ == T_DIR && files[i] == [] && ino[d].typ != 0
    requires |ino2| == |ino| && ino2 == ino[d := ino2[d]] && ino2[d].typ == ino[d].typ && ino2[d].nlink == ino[d].nlink + 1 < SHRT
    ensures Counted(ino2, files) && DirsOk(ino2, files) && Lookup([], DOT) == None && CName(DotBuf()) == DOT && CName(DotDotBuf()) == DOTDOT
    ensures Named(Maps(ino2, files), d) < ino2[d].nlink && |ino| <= LIMIT16
  {
    DotBufs();
    EmptyLookup();
    TreeSize(ino, files);
    hide Counted, Maps, Named, DirsOk, CName, Lookup, DotBuf, DotDotBuf;
    CountedNlinks(ino, files);
    MetaKeeps(ino, ino2, files);
    CountedDirsOk(ino2, files);
  }

  /** The new directory has its ".". */
  lemma DotsNext(ino: Table, ino2: Table, files: seq<seq<byte>>, d: nat, i: nat)
    requires Counted(ino, files) && 0 < d < |ino| && 0 < i < |ino| && i != d && ino[i].typ == T_DIR && files[i] == []
    requires ino[d].typ != 0 && Named(Maps(ino, files), d) < ino[d].nlink
    requires |ino2| == |ino| && forall x :: 0 <= x < |ino| ==> ino2[x].typ == ino[x].typ && ino2[x].nlink == ino[x].nlink
    ensures IsDir([]) && DirsOk(ino2, files[i := Entered([], DotBuf(), i)])
    ensures Lookup(Entered([], DotBuf(), i), DOTDOT) == None && |Entered([], DotBuf(), i)| < MAXFILE * BSIZE
  {
    TreeSize(ino, files);
    DotsAre(i, d);
    DotSize(i);
    hide Counted, Maps, Named, DirsOk, CName, Lookup, DotBuf, DotDotBuf, Entered, NamesOnce, Dotted, DotsOf;
    DotsCounted(ino, files, d, i);
    var files2 := files[i := Entered([], DotBuf(), i)];
    CountedNlinks(ino, files2);
    MetaKeeps(ino, ino2, files2);
    CountedDirsOk(ino2, files2);
  }

  lemma DotSize(i: nat)
    ensures IsDir([]) && |Entered([], DotBuf(), i)| == DIRENT
  {
    hide DotBuf, Dirent;
  }

  /** create, from ialloc on. */
  method CreateNew(fs: FileSystem, s: nat, name: seq<byte>, typ: nat, major: nat, minor: nat, ghost files: seq<seq<byte>>, ghost ic0: Cache)
    returns (r: CreateResult, ghost files2: seq<seq<byte>>)
    requires s < |fs.icache| && Owns(fs.disk, fs.icache, fs.ino, s, fs.icache[s].inum) && |name| == DIRSIZ
    requires During(fs.g, fs.disk, fs.icache, fs.ino, files, ic0, multiset{fs.icache[s].inum}, {fs.icache[s].inum})
    requires TreeInv(fs.ino, files) && fs.icache[s].inum < |fs.ino| == |files| && fs.ino[fs.icache[s].inum].typ == T_DIR
    requires Kept(ic0, fs.ino, fs.icache[s].inum) && 0 < typ < LIMIT16 && major < LIMIT16 && minor < LIMIT16
    modifies fs`disk, fs`icache, fs`ino
    ensures !r.Existing?
    ensures r.Stops? ==> CreateStops(fs.g, old(fs.ino), files, old(fs.icache[s].inum), CName(name), fs.disk, fs.icache)
    ensures r.TooMany? ==> typ == T_DIR && SHRT <= old(fs.ino)[old(fs.icache[s].inum)].nlink + 1
    ensures r.Refused? ==> && Lookup(files[old(fs.icache[s].inum)], CName(name)).Some? && files2 == files
                           && During(fs.g, fs.disk, fs.icache, fs.ino, files, ic0, multiset{}, {}) && OnlyFree(old(fs.ino), fs.ino)
    ensures r.Created? ==> && Lookup(files[old(fs.icache[s].inum)], CName(name)).None?
                           && CreatedAt(fs.g, old(fs.ino), files, ic0, old(fs.icache[s].inum), name, typ, major, minor,
                                        fs.disk, fs.icache, fs.ino, files2, r.slot)
  {
    hide During, InodeOn, IBlock, OthersOnDisk, Counted, DirsOk, Lookup, LinkStops, CName, Entered, DiskFull, CacheFull, TreeInv,
         Kept, OnlyFree, CreatedAt, NewFile, CreateStops, Refs;
    ghost var d, ino0 := fs.icache[s].inum, fs.ino;
    files2 := files;
    var ok, t := CreateInode(fs, s, typ, major, minor, files, ic0);
    if !ok {
      StopsEarly(fs.g, ino0, files, d, CName(name), fs.disk, fs.icache);
      return Stops, files;
    }
    ghost var i, ino1, disk1, ic1 := fs.icache[t].inum, fs.ino, fs.disk, fs.icache;
    NewInodeDirs(ino0, files, i, ino1);
    var e;
    e, files2 := EnterIn(fs, s, name, fs.icache[t].inum, files, ic0, multiset{d, i}, {d, i});
    if e.Stopped? {
      StopsAtLink(fs.g, ino0, files, d, CName(name), fs.disk, fs.icache);
      return Stops, files2;
    }
    if e.Exists? {
      UnmovedOwns(disk1, ic1, ino1, fs.icache, t, i);
      CreateAbort(fs, s, t, ino0, files, ic0);
      return Refused, files2;
    }
    OwnsKept(disk1, ic1, ino1, fs.disk, fs.icache, fs.ino, s, d, t, i);
    ghost var files1, ino2 := files2, fs.ino;
    if typ == T_DIR {
      NewNameCounted(ino0, files, d, name, i, ino2);
      r, files2 := CreateDots(fs, s, t, files1, ic0);
      if !r.Created? {
        if r.Stops? { StopsFull(fs.g, ino0, files, d, CName(name), fs.disk, fs.icache); }
        return;
      }
    } else {
      NewNamePlain(ino0, files, d);
    }
    ghost var ino3, disk3, ic3 := fs.ino, fs.disk, fs.icache;
    NewFileIs(ino0, files, d, name, i, typ, ino3, files2);
    KeptSame(ic0, ino0, ino3, d);
    ghost var files3 := UnlockPut(fs, s, files2, ic0, multiset{d, i}, {d, i});
    CreateEnds(fs.g, ino0, files, ic0, d, name, i, typ, major, minor, ino3, files2, disk3, ic3, fs.disk, fs.icache, fs.ino, files3, s, t);
    return Created(t), files2;
  }

  /** The new inode is in slot t, locked, with its name in directory d. */
  ghost predicate CreatedAt(g: Superblock, ino0: Table, files: seq<seq<byte>>, ic0: Cache, d: nat, name: seq<byte>, typ: nat,
                            major: nat, minor: nat, disk: Disk, ic: Cache, ino: Table, files2: seq<seq<byte>>, t: nat)
  {
    && t < |ic| && Owns(disk, ic, ino, t, ic[t].inum) && 0 < ic[t].inum
    && During(g, disk, ic, ino, files2, ic0, multiset{ic[t].inum}, {ic[t].inum})
    && NewFile(ino0, files, d, name, ic[t].inum, typ, ino, files2)
    && ino[ic[t].inum].major == major && ino[ic[t].inum].minor == minor
  }

  lemma CreateEnds(g: Superblock, ino0: Table, files: seq<seq<byte>>, ic0: Cache, d: nat, name: seq<byte>, i: nat, typ: nat,
                   major: nat, minor: nat, ino1: Table, files1: seq<seq<byte>>, disk1: Disk, ic1: Cache,
                   disk: Disk, ic: Cache, ino: Table, files2: seq<seq<byte>>, s: nat, t: nat)
    requires d < |ino1| == |files1| && d != i && 0 < i && s < |ic1| == |ic| && s != t && ic == ic1[s := ic[s]]
    requires Owns(disk1, ic1, ino1, t, i) && Kept(ic0, ino1, d) && PutDone(ino1, files1, ic0, multiset{d, i}, d, ino, files2)
    requires OthersOnDisk(disk1, disk, |ino|, d) && NewFile(ino0, files, d, name, i, typ, ino1, files1)
    requires During(g, disk, ic, ino, files2, ic0, multiset{d, i} - multiset{d}, {d, i} - {d})
    requires ino1[i].major == major && ino1[i].minor == minor
    ensures files2 == files1 && CreatedAt(g, ino0, files, ic0, d, name, typ, major, minor, disk, ic, ino, files2, t)
  {
    hide During, NewFile, Kept, PutDone, OthersOnDisk, InodeOn, IBlock;
    PutKept(ino1, files1, ic0, multiset{d, i}, d, ino, files2);
    OwnsKept(disk1, ic1, ino1, disk, ic, ino, s, d, t, i);
    assert multiset{d, i} - multiset{d} == multiset{i} && {d, i} - {d} == {i};
  }

  lemma StopsEarly(g: Superblock, ino0: Table, files: seq<seq<byte>>, d: nat, nm: Name, disk: Disk, ic: Cache)
    requires d < |files| && ((forall j :: 0 < j < |ino0| ==> ino0[j].typ != 0) || CacheFull(ic))
    ensures CreateStops(g, ino0, files, d, nm, disk, ic)
  {
  }

  lemma StopsAtLink(g: Superblock, ino0: Table, files: seq<seq<byte>>, d: nat, nm: Name, disk: Disk, ic: Cache)
    requires d < |files| && LinkStops(g, disk, ic, files[d], nm)
    ensures CreateStops(g, ino0, files, d, nm, disk, ic)
  {
  }

  lemma StopsFull(g: Superblock, ino0: Table, files: seq<seq<byte>>, d: nat, nm: Name, disk: Disk, ic: Cache)
    requires d < |files| && DiskFull(g, disk)
    ensures CreateStops(g, ino0, files, d, nm, disk, ic)
  {
  }

  lemma NewInodeDirs(ino: Table, files: seq<seq<byte>>, i: nat, ino2: Table)
    requires TreeInv(ino, files) && 0 < i < |ino| == |files| == |ino2| && ino[i].typ == 0 && files[i] == []
    requires ino2 == ino[i := ino2[i]] && ino2[i].typ != 0 && ino2[i].nlink == 1
    ensures DirsOk(ino2, files) && |ino| <= LIMIT16
  {
    hide TreeInv, Counted, Maps, Named, DirsOk;
    TreeFacts(ino, files);
    CountedNlinks(ino, files);
    NewInodeCounted(ino, files, i, ino2);
    CountedDirsOk(ino2, files);
  }

  /** dirlink that finds the name leaves the new inode's slot alone. */
  lemma UnmovedOwns(disk: Disk, ic: Cache, ino: Table, ic2: Cache, t: nat, i: nat)
    requires Owns(disk, ic, ino, t, i) && Unmoved(ic, ic2)
    ensures Owns(disk, ic2, ino, t, i)
  {
    hide InodeOn, IBlock;
  }

  /** The counts once the new inode has its name. */
  lemma NewNameCounted(ino: Table, files: seq<seq<byte>>, d: nat, name: seq<byte>, i: nat, ino2: Table)
    requires TreeInv(ino, files) && d < |ino| == |files| == |ino2| && 0 < i < |ino| && i != d && ino[i].typ == 0 && files[i] == []
    requires ino[d].typ == T_DIR && |name| == DIRSIZ && Lookup(files[d], CName(name)).None? && IsDir(files[d])
    requires ino2[i].typ != 0 && ino2[i].nlink == 1
    requires forall x :: 0 <= x < |ino| && x != i ==> ino2[x].typ == ino[x].typ && ino2[x].nlink == ino[x].nlink
    ensures Counted(ino2, files[d := Entered(files[d], name, i)])
  {
    hide TreeInv, Counted, Maps, Named, Lookup, CName, Entered, NamesOnce, Dotted;
    TreeFacts(ino, files);
    CountedNlinks(ino, files);
    DirIsOnce(ino, files, d);
    DotTaken(d, files[d]);
    NewInodeCounted(ino, files, i, ino2);
    EnterKeeps(ino2, files, d, name, i);
  }

  lemma NewNamePlain(ino: Table, files: seq<seq<byte>>, d: nat)
    requires TreeInv(ino, files) && d < |ino|
    ensures ino[d].nlink < SHRT
  {
    TreeShort(ino, files);
  }

  lemma NewFileIs(ino: Table, files: seq<seq<byte>>, d: nat, name: seq<byte>, i: nat, k: nat, ino2: Table, files2: seq<seq<byte>>)
    requires d < |ino| == |files| == |ino2| && i < |ino| && i != d && ino[i].typ == 0 && files[i] == []
    requires IsDir(files[d]) && |name| == DIRSIZ && ino2[i].typ == k && ino2[i].nlink == 1 && ino2[d].typ == ino[d].typ
    requires ino2[d].nlink == (if k == T_DIR then ino[d].nlink + 1 else ino[d].nlink) < SHRT
    requires forall x :: 0 <= x < |ino| && x != i && x != d ==> ino2[x].typ == ino[x].typ && ino2[x].nlink == ino[x].nlink
    requires var files1 := files[d := Entered(files[d], name, i)];
             files2 == if k == T_DIR then files1[i := DotsOf(i, d)] else files1
    ensures NewFile(ino, files, d, name, i, k, ino2, files2)
  {
    hide Entered, DotsOf;
  }

  /** create found the name, and may hand out its inode. */
  method CreateFound(fs: FileSystem, s: nat, t: nat, typ: nat, major: nat, minor: nat, ghost files: seq<seq<byte>>, ghost ic0: Cache)
    returns (r: CreateResult)
    requires s < |fs.icache| && t < |fs.icache| && 0 < fs.icache[t].ref
    requires During(fs.g, fs.disk, fs.icache, fs.ino, files, ic0, multiset{fs.icache[s].inum} + multiset{fs.icache[t].inum},
                    {fs.icache[s].inum})
    requires Owns(fs.disk, fs.icache, fs.ino, s, fs.icache[s].inum) && fs.icache[t].inum < |fs.ino|
    requires Kept(ic0, fs.ino, fs.icache[s].inum) && Kept(ic0, fs.ino, fs.icache[t].inum)
    modifies fs`disk, fs`icache, fs`ino
    ensures fs.ino == old(fs.ino) && fs.disk == old(fs.disk)
    ensures var d := fs.ino[old(fs.icache[t].inum)];
            r == if d.typ == typ && d.major == major && d.minor == minor then Existing(t) else Refused
    ensures r.Refused? ==> During(fs.g, fs.disk, fs.icache, fs.ino, files, ic0, multiset{}, {})
    ensures r.Existing? ==> && During(fs.g, fs.disk, fs.icache, fs.ino, files, ic0, multiset{old(fs.icache[t].inum)}, {old(fs.icache[t].inum)})
                            && Owns(fs.disk, fs.icache, fs.ino, t, old(fs.icache[t].inum))
  {
    hide During, Kept, PutDone, OthersOnDisk, InodeOn, IBlock, Refs;
    ghost var d, j, ino := fs.icache[s].inum, fs.icache[t].inum, fs.ino;
    ghost var m := multiset{d} + multiset{j};
    SlotState(fs.g, fs.disk, fs.icache, fs.ino, files, ic0, m, {d}, s);
    ghost var files2 := UnlockPut(fs, s, files, ic0, m, {d});
    PutKept(ino, files, ic0, m, d, fs.ino, files2);
    assert m - multiset{d} == multiset{j} && {d} - {d} == {};
    TakeLock(fs, t, files, ic0, multiset{j}, {});
    assert {} + {j} == {j};
    if fs.icache[t].d.typ != typ || fs.icache[t].d.major != major || fs.icache[t].d.minor != minor {
      GiveUp(fs, t, files, ic0);
      return Refused;
    }
    return Existing(t);
  }

  /** The inode of that name can be handed out. */
  ghost predicate Reusable(ino: Table, files: seq<seq<byte>>, d: nat, nm: Name, typ: nat, major: nat, minor: nat)
    requires d < |ino| == |files|
  {
    && Lookup(files[d], nm).Some? && Lookup(files[d], nm).value < |ino|
    && var x := ino[Lookup(files[d], nm).value]; x.typ == typ && x.major == major && x.minor == minor
  }

  /** What create does in directory d. */
  ghost predicate CreateInSpec(g: Superblock, ino0: Table, files: seq<seq<byte>>, ic0: Cache, d: nat, name: seq<byte>, canexist: bool,
                               typ: nat, major: nat, minor: nat, disk: Disk, ic: Cache, ino: Table, files2: seq<seq<byte>>, r: CreateResult)
    requires d < |ino0| == |files|
  {
    match r
    case Stops => CreateStops(g, ino0, files, d, CName(name), disk, ic)
    case TooMany => typ == T_DIR && SHRT <= ino0[d].nlink + 1
    case Refused =>
      && Lookup(files[d], CName(name)).Some? && (canexist ==> !Reusable(ino0, files, d, CName(name), typ, major, minor))
      && During(g, disk, ic, ino, files, ic0, multiset{}, {}) && (ino == ino0 || OnlyFree(ino0, ino)) && files2 == files
    case Existing(t) =>
      && canexist && Reusable(ino0, files, d, CName(name), typ, major, minor)
      && t < |ic| && Lookup(files[d], CName(name)) == Some(ic[t].inum) && Owns(disk, ic, ino, t, ic[t].inum)
      && During(g, disk, ic, ino, files, ic0, multiset{ic[t].inum}, {ic[t].inum}) && ino == ino0 && files2 == files
    case Created(t) =>
      && Lookup(files[d], CName(name)).None?
      && CreatedAt(g, ino0, files, ic0, d, name, typ, major, minor, disk, ic, ino, files2, t)
  }

  /** create, once the parent directory is known. */
  method CreateIn(fs: FileSystem, s: nat, name: seq<byte>, canexist: bool, typ: nat, major: nat, minor: nat,
                  ghost files: seq<seq<byte>>, ghost ic0: Cache)
    returns (r: CreateResult, ghost files2: seq<seq<byte>>)
    requires s < |fs.icache| && 0 < fs.icache[s].ref && |name| == DIRSIZ
    requires During(fs.g, fs.disk, fs.icache, fs.ino, files, ic0, multiset{fs.icache[s].inum}, {})
    requires TreeInv(fs.ino, files) && fs.icache[s].inum < |fs.ino| == |files| && fs.ino[fs.icache[s].inum].typ == T_DIR
    requires Kept(ic0, fs.ino, fs.icache[s].inum) && 0 < typ < LIMIT16 && major < LIMIT16 && minor < LIMIT16
    modifies fs`disk, fs`icache, fs`ino
    ensures CreateInSpec(fs.g, old(fs.ino), files, ic0, old(fs.icache[s].inum), name, canexist, typ, major, minor,
                         fs.disk, fs.icache, fs.ino, files2, r)
  {
    hide During, Kept, TreeInv, Lookup, CName, CacheFull, DirsOk, FindFrom, CreatedAt, OnlyFree, CreateStops, InodeOn, IBlock;
    ghost var d, ino := fs.icache[s].inum, fs.ino;
    files2 := files;
    TreeDirsOk(fs.ino, files);
    TakeLock(fs, s, files, ic0, multiset{d}, {});
    assert {} + {d} == {d};
    if canexist {
      var ok, found, t, off := LookIn(fs, s, name, files, ic0, multiset{d}, {d});
      if !ok {
        StopsEarly(fs.g, ino, files, d, CName(name), fs.disk, fs.icache);
        return Stops, files2;
      }
      if found {
        LookupKept(fs.ino, files, d, CName(name), ic0);
        FoundInRange(fs.ino, files, d, CName(name));
        r := CreateFound(fs, s, t, typ, major, minor, files, ic0);
        return;
      }
    }
    r, files2 := CreateNew(fs, s, name, typ, major, minor, files, ic0);
  }

  lemma FoundInRange(ino: Table, files: seq<seq<byte>>, d: nat, nm: Name)
    requires DirsOk(ino, files) && d < |ino| && ino[d].typ == T_DIR && Lookup(files[d], nm).Some?
    ensures Lookup(files[d], nm).value < |ino|
  {
    assert DirOk(ino, d, files[d]);
    LookupInRange(ino, d, files[d], nm);
  }

  /** What create does, and when.  Once it is done, namei of the path finds the new inode and, for a directory, its dots
      lead where they should. */
  ghost predicate CreateSpec(g: Superblock, ino0: Table, files: seq<seq<byte>>, ic0: Cache, start: nat, names: seq<Name>,
                             name: seq<byte>, canexist: bool, typ: nat, major: nat, minor: nat,
                             disk: Disk, ic: Cache, ino: Table, files2: seq<seq<byte>>, r: CreateResult)
    requires DirsOk(ino0, files) && start < |ino0|
  {
    var parent := ResolveParent(ino0, files, start, names);
    if r.Stops? && CacheFull(ic) then true
    else if parent.Some? then
      && parent.value < |ino0| && names != [] && |name| == DIRSIZ && CName(name) == names[|names| - 1]
      && CreateInSpec(g, ino0, files, ic0, parent.value, name, canexist, typ, major, minor, disk, ic, ino, files2, r)
      && (r.Refused? ==> TreeInv(ino, files))
      && (r.Created? ==> r.slot < |ic| && Reachable(ino, files2, start, names, parent.value, ic[r.slot].inum, typ))
    else
      r.Refused? && During(g, disk, ic, ino, files, ic0, multiset{}, {}) && ino == ino0 && files2 == files
  }

  ghost predicate Reachable(ino: Table, files: seq<seq<byte>>, start: nat, names: seq<Name>, d: nat, i: nat, typ: nat) {
    && TreeInv(ino, files) && DirsOk(ino, files) && start < |ino| && Resolve(ino, files, start, names) == Some(i)
    && (typ == T_DIR ==> && Resolve(ino, files, start, names + [DOT]) == Some(i)
                         && Resolve(ino, files, start, names + [DOTDOT]) == Some(d))
  }

  /** create of sysfile.c.  cwd is the slot of cp->cwd, name0 the stack buffer for the name. */
  method Create(fs: FileSystem, path: seq<byte>, canexist: bool, typ: nat, major: nat, minor: nat, name0: seq<byte>, cwd: nat,
                ghost files: seq<seq<byte>>)
    returns (r: CreateResult, name: seq<byte>, ghost files2: seq<seq<byte>>)
    requires fs.Valid() && Holds(fs.g, fs.disk, fs.ino, files) && TreeInv(fs.ino, files) && Idle(fs.icache)
    requires 0 !in path && |name0| == DIRSIZ && cwd < |fs.icache| && 0 < fs.icache[cwd].ref
    requires 0 < typ < LIMIT16 && major < LIMIT16 && minor < LIMIT16
    modifies fs`disk, fs`icache, fs`ino
    ensures DirsOk(old(fs.ino), files) && 1 < |old(fs.ino)| && old(fs.icache[cwd].inum) < |old(fs.ino)|
    ensures CreateSpec(fs.g, old(fs.ino), files, old(fs.icache),
                       if path != [] && path[0] == SLASH then 1 else old(fs.icache[cwd].inum), Components(path), name,
                       canexist, typ, major, minor, fs.disk, fs.icache, fs.ino, files2, r)
  {
    hide Coherent, FsInv, FreeEmpty, Holds, During, Kept, TreeInv, Lookup, CName, Components, CacheFull, DirsOk,
         ResolveParent, Resolve, NameiSpec, Idle, CreateSpec, CreateInSpec, Want;
    ghost var ic0, ino, names := fs.icache, fs.ino, Components(path);
    ghost var start := if path != [] && path[0] == SLASH then 1 else ic0[cwd].inum;
    TreeDirsOk(fs.ino, files);
    StartsInRange(fs.g, fs.disk, fs.icache, fs.ino, cwd);
    var p;
    p, name := Namei(fs, path, true, name0, cwd, files);
    NoWait(fs.g, fs.disk, fs.ino, files, ic0, start, names, true, fs.icache, p, name);
    files2 := files;
    if !p.Found? {
      r := if p.NoSlots? then Stops else Refused;
      CreateNoParent(fs.g, ino, files, ic0, start, names, name, canexist, typ, major, minor, fs.disk, fs.icache, r);
      return;
    }
    ghost var d := fs.icache[p.slot].inum;
    WantParent(ino, files, start, names, d);
    r, files2 := CreateIn(fs, p.slot, name, canexist, typ, major, minor, files, ic0);
    CreateSpecIs(fs.g, ino, files, ic0, start, names, d, name, canexist, typ, major, minor, fs.disk, fs.icache, fs.ino, files2, r);
  }

  /** Where there is no parent, create fails, or panics because it could not be found; either way it says why. */
  lemma CreateNoParent(g: Superblock, ino: Table, files: seq<seq<byte>>, ic0: Cache, start: nat, names: seq<Name>, name: seq<byte>,
                       canexist: bool, typ: nat, major: nat, minor: nat, disk: Disk, ic: Cache, r: CreateResult)
    requires DirsOk(ino, files) && start < |ino| && (r.Stops? || r.Refused?) && (r.Stops? ==> CacheFull(ic))
    requires r.Refused? ==> Want(ino, files, start, names, true) == None && During(g, disk, ic, ino, files, ic0, multiset{}, {})
    ensures CreateSpec(g, ino, files, ic0, start, names, name, canexist, typ, major, minor, disk, ic, ino, files, r)
  {
    hide DirsOk, CacheFull, During, ResolveParent, Resolve, TreeInv, CreateInSpec, CName;
  }

  /** A free inode that was taken and given back leaves the tree as sound as it was. */
  lemma OnlyFreeTree(ino: Table, ino2: Table, files: seq<seq<byte>>)
    requires TreeInv(ino, files) && OnlyFree(ino, ino2)
    ensures TreeInv(ino2, files)
  {
    var i :| 0 <= i < |ino| && ino[i].typ == 0 && ino2[i].typ == 0 && ino2[i].nlink == 0 && ino2 == ino[i := ino2[i]];
    hide Counted, Maps, Named, Lookup, Dotted, OnlyFree;
    CountedNlinks(ino, files);
    FreeUnnamed(ino, files, i);
    MetaKeeps(ino, ino2, files);
  }

  lemma CreatedReachable(ino: Table, files: seq<seq<byte>>, start: nat, names: seq<Name>, d: nat, name: seq<byte>, i: nat, typ: nat,
                         ino2: Table, files2: seq<seq<byte>>)
    requires DirsOk(ino, files) && TreeInv(ino, files) && start < |ino| && names != [] && d < |ino| == |files| && ino[d].typ == T_DIR
    requires ResolveParent(ino, files, start, names) == Some(d) && |name| == DIRSIZ && CName(name) == names[|names| - 1]
    requires Lookup(files[d], CName(name)).None? && 0 < i && typ != 0 && NewFile(ino, files, d, name, i, typ, ino2, files2)
    ensures Reachable(ino2, files2, start, names, d, i, typ)
  {
    hide DirsOk, ResolveParent, Resolve, TreeInv, Lookup, CName, DotsOf, Entered;
    NewFileKeeps(ino, files, d, name, i, typ, ino2, files2);
    TreeDirsOk(ino2, files2);
    WithinSizes(ino, files, ino2, files2);
    assert i < |ino2| && d < |ino2| && ino2[i].typ == typ;
    hide Within, NewFile;
    AddedIsFound(ino, files, ino2, files2, start, names, d, i);
    if typ == T_DIR {
      OneMore(ino2, files2, start, names, i, DOT, i);
      OneMore(ino2, files2, start, names, i, DOTDOT, d);
    }
  }

  lemma OneMore(ino: Table, files: seq<seq<byte>>, start: nat, names: seq<Name>, i: nat, nm: Name, j: nat)
    requires DirsOk(ino, files) && start < |ino| && Resolve(ino, files, start, names) == Some(i) && i < |ino| == |files|
    requires ino[i].typ == T_DIR && Lookup(files[i], nm) == Some(j) && j < |ino|
    ensures Resolve(ino, files, start, names + [nm]) == Some(j)
  {
    hide Resolve, Lookup, DirsOk;
    ResolveAppend(ino, files, start, names, [nm]);
    ResolveCons(ino, files, i, nm, []);
    assert [nm] + [] == [nm];
    ResolveNothing(ino, files, j);
  }

  lemma CreateSpecIs(g: Superblock, ino: Table, files: seq<seq<byte>>, ic0: Cache, start: nat, names: seq<Name>, d: nat,
                     name: seq<byte>, canexist: bool, typ: nat, major: nat, minor: nat, disk: Disk, ic: Cache, ino2: Table,
                     files2: seq<seq<byte>>, r: CreateResult)
    requires DirsOk(ino, files) && TreeInv(ino, files) && start < |ino| && names != [] && d < |ino| == |files| && ino[d].typ == T_DIR
    requires ResolveParent(ino, files, start, names) == Some(d) && |name| == DIRSIZ && CName(name) == names[|names| - 1] && typ != 0
    requires CreateInSpec(g, ino, files, ic0, d, name, canexist, typ, major, minor, disk, ic, ino2, files2, r)
    ensures CreateSpec(g, ino, files, ic0, start, names, name, canexist, typ, major, minor, disk, ic, ino2, files2, r)
  {
    hide DirsOk, During, ResolveParent, Resolve, TreeInv, Lookup, CName, NewFile, CreateStops, CacheFull, OnlyFree, Reachable, Reusable;
    if r.Refused? && ino2 != ino { OnlyFreeTree(ino, ino2, files); }
    if r.Created? { CreatedReachable(ino, files, start, names, d, name, ic[r.slot].inum, typ, ino2, files2); }
  }
}
