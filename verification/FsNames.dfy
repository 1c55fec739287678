/** The directory and path routines of xv6/fs.c, run on the inode layer. */
module FsNames {
  import opened Options
  import opened FsBytes
  import opened FsDisk
  import opened FsFiles
  import opened FsKernel
  import opened FsDirs
  import opened FsPaths

  lemma FindIs(c: seq<byte>, nm: Name, e: nat)
    requires e < Count(c) && Matches(c, e, nm) && forall x :: 0 <= x < e ==> !Matches(c, x, nm)
    ensures FindFrom(c, nm, 0) == e
  {
  }

  lemma FindNone(c: seq<byte>, nm: Name)
    requires forall x :: 0 <= x < Count(c) ==> !Matches(c, x, nm)
    ensures FindFrom(c, nm, 0) == Count(c)
  {
  }

  /** Entry k of block buf has name nm. */
  ghost predicate Hit(buf: Block, k: nat, nm: Name)
    requires k < EPB
  {
    InumAt(buf, k) != 0 && NameAt(buf, k) == nm
  }

  /** The inner loop of dirlookup: the first entry of the block that matches, or EPB. */
  method ScanBlock(buf: Block, name: seq<byte>) returns (k: nat)
    requires |name| == DIRSIZ
    ensures k <= EPB && (k < EPB ==> Hit(buf, k, CName(name)))
    ensures forall x :: 0 <= x < k ==> !Hit(buf, x, CName(name))
  {
    hide CName, NameEq;
    k := 0;
    while k < EPB
      invariant 0 <= k <= EPB
      invariant forall x :: 0 <= x < k ==> !Hit(buf, x, CName(name))
    {
      NameEqIsSameName(name, buf[DIRENT * k + 2..DIRENT * k + DIRENT]);
      if U16(buf, DIRENT * k) != 0 && NameEq(name, buf[DIRENT * k + 2..DIRENT * k + DIRENT]) { return; }
      k := k + 1;
    }
  }

  /** An entry of a block matches exactly when the entry of the directory exists and matches. */
  lemma EntryScanned(disk: Disk, d: DInode, q: nat, nm: Name, k: nat)
    requires FileOk(disk, d) && d.size % DIRENT == 0 && q < NBlocks(d.size) <= MAXFILE && k < EPB
    ensures var c, e := Content(disk, d), EPB * q + k;
            Hit(At(disk, Ptr(disk, d, DataPtr(q))), k, nm) <==> e < Count(c) && Matches(c, e, nm)
  {
    DirBlock(disk, d, q, k);
    hide Content, FileOk, Ptr, At, InumAt, NameAt, NBlocks, Count;
  }

  /** A block of the directory, scanned, against the entries it holds. */
  lemma BlockScanned(disk: Disk, d: DInode, q: nat, nm: Name, k: nat)
    requires FileOk(disk, d) && d.size % DIRENT == 0 && q < NBlocks(d.size) <= MAXFILE && k <= EPB
    requires var buf := At(disk, Ptr(disk, d, DataPtr(q)));
             (k < EPB ==> Hit(buf, k, nm)) && forall x :: 0 <= x < k ==> !Hit(buf, x, nm)
    ensures var c := Content(disk, d);
            && (k < EPB ==> EPB * q + k < Count(c) && Matches(c, EPB * q + k, nm))
            && forall x :: EPB * q <= x < EPB * q + k && x < Count(c) ==> !Matches(c, x, nm)
  {
    var c := Content(disk, d);
    hide Content, FileOk, Ptr, At, InumAt, NameAt, NBlocks, Count;
    if k < EPB { EntryScanned(disk, d, q, nm, k); }
    forall x | EPB * q <= x < EPB * q + k && x < Count(c) ensures !Matches(c, x, nm) {
      EntryScanned(disk, d, q, nm, x - EPB * q);
      assert !Hit(At(disk, Ptr(disk, d, DataPtr(q))), x - EPB * q, nm);
    }
  }

  /** Block q of a directory, for the scan. */
  method DirBlockOf(fs: FileSystem, s: nat, q: nat) returns (buf: Block)
    requires AllocInv(fs.g, fs.disk, fs.ino) && Coherent(fs.g, fs.disk, fs.icache, fs.ino) && Locked(fs.icache, s)
    requires FileOk(fs.disk, fs.icache[s].d) && q < NBlocks(fs.icache[s].d.size) <= MAXFILE
    ensures buf == At(fs.disk, Ptr(fs.disk, fs.icache[s].d, DataPtr(q)))
  {
    var a := fs.BmapLookup(s, q);
    buf := fs.disk[a.addr];
  }

  /** The scan of dirlookup.  It goes by whole blocks, past the end of the directory. */
  method ScanDir(fs: FileSystem, s: nat, name: seq<byte>) returns (e: nat)
    requires AllocInv(fs.g, fs.disk, fs.ino) && Coherent(fs.g, fs.disk, fs.icache, fs.ino) && Locked(fs.icache, s)
    requires FileOk(fs.disk, fs.icache[s].d) && fs.icache[s].d.size % DIRENT == 0 && |name| == DIRSIZ
    ensures e == FindFrom(Content(fs.disk, fs.icache[s].d), CName(name), 0)
  {
    hide AllocInv, Coherent, CName, FindFrom, Matches, Hit, Ptr, At, NBlocks, Count, NoHoles, ZeroTail;
    ghost var d, nm := fs.icache[s].d, CName(name);
    ghost var c := Content(fs.disk, d);
    var size, off, q := fs.icache[s].d.size, 0, 0;
    hide FileOk, Content;
    while off < size
      invariant off == BSIZE * q
      invariant forall x :: 0 <= x < EPB * q && x < Count(c) ==> !Matches(c, x, nm)
    {
      BlockIndex(size, q);
      var buf := DirBlockOf(fs, s, q);
      var k := ScanBlock(buf, name);
      BlockScanned(fs.disk, d, q, nm, k);
      if k < EPB {
        FindIs(c, nm, EPB * q + k);
        return EPB * q + k;
      }
      off, q := off + BSIZE, q + 1;
    }
    AllScanned(c, q);
    FindNone(c, nm);
    return size / DIRENT;
  }

  lemma BlockIndex(size: nat, q: nat)
    requires BSIZE * q < size <= MAXFILE * BSIZE
    ensures q < NBlocks(size) <= MAXFILE
  {
  }

  lemma AllScanned(c: seq<byte>, q: nat)
    requires |c| <= BSIZE * q
    ensures Count(c) <= EPB * q && Count(c) == |c| / DIRENT
  {
  }

  // References and locks

  /** Somebody has inode i locked. */
  ghost predicate Busy(ic: Cache, i: nat) {
    var s := SlotOf(ic, i);
    s < |ic| && ic[s].busy
  }

  /** Every slot is in use. */
  ghost predicate CacheFull(ic: Cache) { forall s :: 0 <= s < |ic| ==> ic[s].ref != 0 }

  lemma BusyAt(g: Superblock, disk: Disk, ic: Cache, ino: Table, s: nat)
    requires Coherent(g, disk, ic, ino) && s < NINODE && 0 < ic[s].ref
    ensures Refs(ic, ic[s].inum) == ic[s].ref && (Busy(ic, ic[s].inum) <==> ic[s].busy)
  {
    RefsAt(g, disk, ic, ino, s);
  }

  /** The reference counts and locks after one slot has changed. */
  lemma SlotChange(g: Superblock, disk: Disk, ic: Cache, ino: Table, disk2: Disk, ic2: Cache, ino2: Table, s: nat, i: nat)
    requires Coherent(g, disk, ic, ino) && Coherent(g, disk2, ic2, ino2) && s < NINODE && ic2 == ic[s := ic2[s]]
    requires 0 < ic[s].ref && 0 < ic2[s].ref ==> ic2[s].inum == ic[s].inum
    ensures Refs(ic2, i) == if 0 < ic2[s].ref && ic2[s].inum == i then ic2[s].ref
                            else if 0 < ic[s].ref && ic[s].inum == i then 0
                            else Refs(ic, i)
    ensures Busy(ic2, i) <==> if 0 < ic2[s].ref && ic2[s].inum == i then ic2[s].busy
                              else if 0 < ic[s].ref && ic[s].inum == i then false
                              else Busy(ic, i)
  {
    var t := SlotOf(ic, i);
    if 0 < ic2[s].ref && ic2[s].inum == i {
      RefsAt(g, disk2, ic2, ino2, s);
    } else if t < NINODE && t != s {
      RefsAt(g, disk2, ic2, ino2, t);
    } else {
      NoSlot(ic2, i);
    }
  }

  /** ic2 holds the references of ic, in the same slots, and one more for each element of m. */
  ghost predicate Extra(ic: Cache, ic2: Cache, m: multiset<nat>) {
    Stays(ic, ic2) && forall i :: Refs(ic2, i) == Refs(ic, i) + m[i]
  }

  /** A slot in use keeps its inode. */
  ghost predicate Stays(ic: Cache, ic2: Cache) {
    |ic| == |ic2| && forall s :: 0 <= s < |ic| && 0 < ic[s].ref ==> 0 < ic2[s].ref && ic2[s].inum == ic[s].inum
  }

  /** The inodes locked in ic2 are those locked in ic and those of l. */
  ghost predicate Locks(ic: Cache, ic2: Cache, l: set<nat>) {
    forall i :: Busy(ic2, i) <==> Busy(ic, i) || i in l
  }

  lemma ExtraGot(g: Superblock, disk: Disk, ino: Table, ic0: Cache, m: multiset<nat>, l: set<nat>, ic: Cache,
                 disk2: Disk, ino2: Table, ic2: Cache, s: nat, i: nat)
    requires Extra(ic0, ic, m) && Locks(ic0, ic, l)
    requires Coherent(g, disk, ic, ino) && Coherent(g, disk2, ic2, ino2) && GotRef(ic, ic2, s, i)
    ensures Extra(ic0, ic2, m + multiset{i}) && Locks(ic0, ic2, l)
  {
    hide Coherent, SlotOf, Refs, Busy, Stays;
    StaysGot(ic0, ic, ic2, s, i);
    forall j ensures Refs(ic2, j) == Refs(ic0, j) + (m + multiset{i})[j] && (Busy(ic2, j) <==> Busy(ic0, j) || j in l) {
      GotAt(g, disk, ino, ic, disk2, ino2, ic2, s, i, j);
    }
  }

  lemma StaysGot(ic0: Cache, ic: Cache, ic2: Cache, s: nat, i: nat)
    requires Stays(ic0, ic) && GotRef(ic, ic2, s, i)
    ensures Stays(ic0, ic2)
  {
    hide Refs;
  }

  lemma GotAt(g: Superblock, disk: Disk, ino: Table, ic: Cache, disk2: Disk, ino2: Table, ic2: Cache, s: nat, i: nat, j: nat)
    requires Coherent(g, disk, ic, ino) && Coherent(g, disk2, ic2, ino2) && GotRef(ic, ic2, s, i)
    ensures Refs(ic2, j) == Refs(ic, j) + (if j == i then 1 else 0) && (Busy(ic2, j) <==> Busy(ic, j))
  {
    CoherentLen(g, disk, ic, ino);
    if 0 < ic[s].ref { BusyAt(g, disk, ic, ino, s); }
    SlotChange(g, disk, ic, ino, disk2, ic2, ino2, s, j);
    hide Coherent, SlotOf;
  }

  /** Slot s keeps its inode and its count. */
  lemma ExtraSame(g: Superblock, disk: Disk, ino: Table, ic0: Cache, m: multiset<nat>, ic: Cache,
                  disk2: Disk, ino2: Table, ic2: Cache, s: nat)
    requires Extra(ic0, ic, m) && Coherent(g, disk, ic, ino) && Coherent(g, disk2, ic2, ino2)
    requires s < |ic| == |ic2| && ic2 == ic[s := ic2[s]] && ic2[s].ref == ic[s].ref && ic2[s].inum == ic[s].inum && 0 < ic[s].ref
    ensures Extra(ic0, ic2, m)
    ensures forall j :: Busy(ic2, j) <==> if j == ic[s].inum then ic2[s].busy else Busy(ic, j)
  {
    hide Coherent, SlotOf, Refs, Busy;
    forall j
      ensures Refs(ic2, j) == Refs(ic, j)
      ensures Busy(ic2, j) <==> if j == ic[s].inum then ic2[s].busy else Busy(ic, j)
    {
      SameAt(g, disk, ino, ic, disk2, ino2, ic2, s, j);
    }
  }

  lemma SameAt(g: Superblock, disk: Disk, ino: Table, ic: Cache, disk2: Disk, ino2: Table, ic2: Cache, s: nat, j: nat)
    requires Coherent(g, disk, ic, ino) && Coherent(g, disk2, ic2, ino2)
    requires s < |ic| == |ic2| && ic2 == ic[s := ic2[s]] && ic2[s].ref == ic[s].ref && ic2[s].inum == ic[s].inum && 0 < ic[s].ref
    ensures Refs(ic2, j) == Refs(ic, j)
    ensures Busy(ic2, j) <==> if j == ic[s].inum then ic2[s].busy else Busy(ic, j)
  {
    CoherentLen(g, disk, ic, ino);
    BusyAt(g, disk, ic, ino, s);
    SlotChange(g, disk, ic, ino, disk2, ic2, ino2, s, j);
    hide Coherent, SlotOf;
  }

  /** Slot s gives up a reference, and is in use by nobody if that was the last. */
  ghost predicate PutRef(ic: Cache, ic2: Cache, s: nat) {
    && s < |ic| == |ic2| && 0 < ic[s].ref && (ic[s].busy ==> 1 < ic[s].ref)
    && ic2 == ic[s := ic2[s]] && ic2[s].ref == ic[s].ref - 1 && ic2[s].inum == ic[s].inum && ic2[s].busy == ic[s].busy
  }

  lemma ExtraPut(g: Superblock, disk: Disk, ino: Table, ic0: Cache, m: multiset<nat>, l: set<nat>, ic: Cache,
                 disk2: Disk, ino2: Table, ic2: Cache, s: nat)
    requires Extra(ic0, ic, m) && Locks(ic0, ic, l) && Coherent(g, disk, ic, ino) && Coherent(g, disk2, ic2, ino2)
    requires PutRef(ic, ic2, s) && ic[s].inum in m
    ensures Extra(ic0, ic2, m - multiset{ic[s].inum}) && Locks(ic0, ic2, l)
  {
    hide Coherent, SlotOf, Refs, Busy;
    forall j
      ensures Refs(ic2, j) == Refs(ic0, j) + (m - multiset{ic[s].inum})[j]
      ensures Busy(ic2, j) <==> Busy(ic0, j) || j in l
    {
      PutAt(g, disk, ino, ic, disk2, ino2, ic2, s, j);
    }
    PutStays(g, disk, ino, ic0, m, ic, ic2, s);
  }

  lemma PutAt(g: Superblock, disk: Disk, ino: Table, ic: Cache, disk2: Disk, ino2: Table, ic2: Cache, s: nat, j: nat)
    requires Coherent(g, disk, ic, ino) && Coherent(g, disk2, ic2, ino2) && PutRef(ic, ic2, s)
    ensures Refs(ic2, j) == Refs(ic, j) - (if j == ic[s].inum then 1 else 0) && (Busy(ic2, j) <==> Busy(ic, j))
  {
    CoherentLen(g, disk, ic, ino);
    BusyAt(g, disk, ic, ino, s);
    SlotChange(g, disk, ic, ino, disk2, ic2, ino2, s, j);
    hide Coherent, SlotOf;
  }

  lemma PutStays(g: Superblock, disk: Disk, ino: Table, ic0: Cache, m: multiset<nat>, ic: Cache, ic2: Cache, s: nat)
    requires Extra(ic0, ic, m) && Coherent(g, disk, ic, ino) && s < |ic| == |ic2| && 0 < ic[s].ref && ic[s].inum in m
    requires ic2 == ic[s := ic2[s]] && ic2[s].ref == ic[s].ref - 1 && ic2[s].inum == ic[s].inum
    ensures Stays(ic0, ic2)
  {
    CoherentLen(g, disk, ic, ino);
    BusyAt(g, disk, ic, ino, s);
    hide Coherent, Busy;
    if 0 < ic0[s].ref { InUse(ic0, s); }
    hide Refs;
  }

  lemma InUse(ic: Cache, s: nat)
    requires s < |ic| && 0 < ic[s].ref
    ensures 0 < Refs(ic, ic[s].inum)
  {
  }

  /** Dropping a reference from m does not free the inode: it has a link, or somebody else refers to it. */
  ghost predicate Kept(ic0: Cache, ino: Table, i: nat) {
    i < |ino| && (ino[i].nlink != 0 || 0 < Refs(ic0, i))
  }

  /** dirlookup: a reference to the inode that name has in the directory locked in slot s.
      `ok` is false where the source panics for want of a slot. */
  method Dirlookup(fs: FileSystem, s: nat, name: seq<byte>, ghost files: seq<seq<byte>>)
    returns (ok: bool, found: bool, t: nat, off: nat)
    requires fs.Valid() && Holds(fs.g, fs.disk, fs.ino, files) && DirsOk(fs.ino, files)
    requires Locked(fs.icache, s) && fs.icache[s].d.typ == T_DIR && |name| == DIRSIZ
    modifies fs`icache
    ensures fs.Valid()
    ensures old(fs.icache[s].inum) < |files|
    ensures found <==> ok && Lookup(files[old(fs.icache[s].inum)], CName(name)).Some?
    ensures found ==> Lookup(files[old(fs.icache[s].inum)], CName(name)).value < |fs.ino|
    ensures found ==> GotRef(old(fs.icache), fs.icache, t, Lookup(files[old(fs.icache[s].inum)], CName(name)).value)
    ensures found ==> off == DIRENT * FindFrom(files[old(fs.icache[s].inum)], CName(name), 0)
    ensures !found ==> fs.icache == old(fs.icache)
    ensures !ok <==> (&& Lookup(files[old(fs.icache[s].inum)], CName(name)).Some?
                      && SlotOf(old(fs.icache), Lookup(files[old(fs.icache[s].inum)], CName(name)).value) == NINODE
                      && CacheFull(old(fs.icache)))
  {
    ghost var i := fs.icache[s].inum;
    HoldsFacts(fs.g, fs.disk, fs.icache, fs.ino, s, files);
    assert DirOk(fs.ino, i, files[i]);
    assert fs.icache[s].d.size % DIRENT == 0;
    hide AllocInv, Coherent, FsInv, FreeEmpty, Holds, CName, InumAt, FileOk, Content, GotRef;
    var e := ScanDir(fs, s, name);
    ghost var c := files[i];
    if e == fs.icache[s].d.size / DIRENT { return true, false, 0, 0; }
    var inum := EntryInum(fs, s, e);
    ok, t := fs.Iget(inum);
    return ok, ok, t, DIRENT * e;
  }

  /** The inode number in entry e. */
  method EntryInum(fs: FileSystem, s: nat, e: nat) returns (inum: nat)
    requires AllocInv(fs.g, fs.disk, fs.ino) && Coherent(fs.g, fs.disk, fs.icache, fs.ino) && Locked(fs.icache, s)
    requires FileOk(fs.disk, fs.icache[s].d) && fs.icache[s].d.size % DIRENT == 0
    requires e < fs.icache[s].d.size / DIRENT
    ensures inum == InumAt(Content(fs.disk, fs.icache[s].d), e)
  {
    hide AllocInv, Coherent, FileOk, Content, Locked;
    var de := fs.ReadBlocks(s, DIRENT * e, DIRENT);
    inum := U16(de, 0);
  }

  datatype LinkResult =
    | Linked
    | Exists     // -1: the name is there already
    | Stopped    // panic: no slot, no block, or no room in the directory

  /** dirlink: adds (name, inum) to the directory locked in slot s. */
  method Dirlink(fs: FileSystem, s: nat, name: seq<byte>, inum: nat, ghost files: seq<seq<byte>>) returns (r: LinkResult)
    requires fs.Valid() && Holds(fs.g, fs.disk, fs.ino, files) && DirsOk(fs.ino, files)
    requires Locked(fs.icache, s) && fs.icache[s].d.typ == T_DIR && |name| == DIRSIZ && 0 < inum < LIMIT16
    modifies fs`disk, fs`icache, fs`ino
    ensures old(fs.icache[s].inum) < |files| && IsDir(files[old(fs.icache[s].inum)])
    ensures r.Exists? ==> Lookup(files[old(fs.icache[s].inum)], CName(name)).Some?
    ensures r.Linked? ==> Lookup(files[old(fs.icache[s].inum)], CName(name)).None?
    ensures r.Stopped? ==> LinkStops(fs.g, fs.disk, fs.icache, files[old(fs.icache[s].inum)], CName(name))
    ensures r.Exists? ==> fs.Valid() && fs.disk == old(fs.disk) && fs.ino == old(fs.ino)
    ensures r.Exists? ==> Extra(old(fs.icache), fs.icache, multiset{}) && Locks(old(fs.icache), fs.icache, {})
    ensures r.Exists? ==> Unmoved(old(fs.icache), fs.icache)
    ensures r.Linked? ==> fs.Valid() && Added(fs.g, old(fs.disk), old(fs.icache), old(fs.ino), files, fs.disk, fs.icache, fs.ino,
                                              s, name, inum)
  {
    ghost var i, ic0 := fs.icache[s].inum, fs.icache;
    DirlinkStarts(fs.g, fs.disk, fs.icache, fs.ino, s, files);
    hide AllocInv, Coherent, FsInv, FreeEmpty, Holds, CName, InumAt, FileOk, Content, GotRef, Extra, DirsOk, OnlySlot,
         Lookup, FirstUnused, Dirent, Locks, SlotOf, Refs, Kept, LinkStops, DirOk, PutDirent, CacheFull;
    var ok, found, t, off := Dirlookup(fs, s, name, files);
    if !ok {
      StopsNoSlot(fs.g, fs.disk, fs.icache, files[i], CName(name));
      return Stopped;
    }
    if found {
      LookupFacts(fs.ino, i, files[i], CName(name), ic0, fs.icache, t);
      GotLocked(ic0, fs.icache, s, t, fs.icache[t].inum);
      DropLookup(fs, t, files, ic0, s);
      return Exists;
    }
    r := DirlinkAdd(fs, s, name, inum, files);
  }

  /** dirlink, once the name is known to be new. */
  method DirlinkAdd(fs: FileSystem, s: nat, name: seq<byte>, inum: nat, ghost files: seq<seq<byte>>) returns (r: LinkResult)
    requires fs.Valid() && Holds(fs.g, fs.disk, fs.ino, files) && DirsOk(fs.ino, files)
    requires Locked(fs.icache, s) && fs.icache[s].d.typ == T_DIR && |name| == DIRSIZ && 0 < inum < LIMIT16
    requires fs.icache[s].inum < |files| && Lookup(files[fs.icache[s].inum], CName(name)).None?
    modifies fs`disk, fs`icache, fs`ino
    ensures !r.Exists? && IsDir(files[old(fs.icache[s].inum)])
    ensures r.Stopped? ==> LinkStops(fs.g, fs.disk, fs.icache, files[old(fs.icache[s].inum)], CName(name))
    ensures r.Linked? ==> fs.Valid() && Added(fs.g, old(fs.disk), old(fs.icache), old(fs.ino), files, fs.disk, fs.icache, fs.ino,
                                              s, name, inum)
  {
    DirlinkStarts(fs.g, fs.disk, fs.icache, fs.ino, s, files);
    hide AllocInv, Coherent, FsInv, FreeEmpty, Holds, CName, InumAt, FileOk, Content, DirsOk, OnlySlot,
         Lookup, FirstUnused, Dirent, Written, LinkStops, DirOk, Marked, Added, PutDirent;
    ghost var i, ic0, ino0, disk0 := fs.icache[s].inum, fs.icache, fs.ino, fs.disk;
    var e := ScanUnused(fs, s);
    var de := Dirent(inum, name);
    var full, n := fs.Writei(s, de, DIRENT * e, files);
    if full || n != DIRENT {
      StopsNoRoom(fs.g, fs.disk, fs.icache, files[i], CName(name), full);
      return Stopped;
    }
    assert de[..n] == de;
    AddedIs(fs.g, disk0, ic0, ino0, files, fs.disk, fs.icache, fs.ino, s, name, inum, de);
    return Linked;
  }

  /** The directory in slot s with the entry (name, inum) in its first unused place. */
  ghost function WithEntry(ic: Cache, s: nat, files: seq<seq<byte>>, name: seq<byte>, inum: nat): seq<seq<byte>>
    requires s < |ic| && ic[s].inum < |files| && IsDir(files[ic[s].inum]) && |name| == DIRSIZ
  {
    var c := files[ic[s].inum];
    files[ic[s].inum := PutDirent(c, FirstUnused(c, 0), Dirent(inum, name))]
  }

  /** dirlink has added the entry, and nothing else has changed.  If inum is in use and linked, or is the directory
      itself, all directories are still sound. */
  ghost predicate Added(g: Superblock, disk0: Disk, ic0: Cache, ino0: Table, files: seq<seq<byte>>,
                        disk: Disk, ic: Cache, ino: Table, s: nat, name: seq<byte>, inum: nat)
  {
    && s < |ic0| && ic0[s].inum < |files| == |ino0| && IsDir(files[ic0[s].inum]) && |name| == DIRSIZ
    && Holds(g, disk, ino, WithEntry(ic0, s, files, name, inum)) && OnlySlot(disk0, ic0, ino0, disk, ic, ino, s)
    && (inum < |ino0| && ino0[inum].typ != 0 && (ino0[inum].nlink != 0 || inum == ic0[s].inum) ==>
          DirsOk(ino, WithEntry(ic0, s, files, name, inum)))
  }

  lemma AddedIs(g: Superblock, disk0: Disk, ic0: Cache, ino0: Table, files: seq<seq<byte>>,
                disk: Disk, ic: Cache, ino: Table, s: nat, name: seq<byte>, inum: nat, de: seq<byte>)
    requires s < |ic0| && ic0[s].inum < |files| == |ino0| && IsDir(files[ic0[s].inum]) && |name| == DIRSIZ
    requires 0 < inum < LIMIT16 && DirsOk(ino0, files) && ino0[ic0[s].inum].typ == T_DIR && de == Dirent(inum, name)
    requires var c := files[ic0[s].inum];
             Holds(g, disk, ino, files[ic0[s].inum := Written(c, DIRENT * FirstUnused(c, 0), de)])
    requires OnlySlot(disk0, ic0, ino0, disk, ic, ino, s)
    ensures Added(g, disk0, ic0, ino0, files, disk, ic, ino, s, name, inum)
  {
    hide Holds, DirsOk, OnlySlot, FirstUnused, Dirent, Written;
    var i := ic0[s].inum;
    LinkKeepsDirs(disk, ic, ino0, ino, files, i, FirstUnused(files[i], 0), inum, name, ic0, disk0, s);
  }

  /** Where dirlink stops: the name is there but its inode is not cached and the cache is full; or all entries are used
      and every block of the disk is too, or the directory has its maximal size. */
  ghost predicate LinkStops(g: Superblock, disk: Disk, ic: Cache, c: seq<byte>, nm: Name) {
    || (Lookup(c, nm).Some? && SlotOf(ic, Lookup(c, nm).value) == NINODE && CacheFull(ic))
    || (&& Lookup(c, nm).None? && FirstUnused(c, 0) == Count(c)
        && (|c| == MAXFILE * BSIZE || forall b :: 0 <= b < g.size ==> Marked(g, disk, b)))
  }

  lemma StopsNoSlot(g: Superblock, disk: Disk, ic: Cache, c: seq<byte>, nm: Name)
    requires Lookup(c, nm).Some? && SlotOf(ic, Lookup(c, nm).value) == NINODE && CacheFull(ic)
    ensures LinkStops(g, disk, ic, c, nm)
  {
  }

  lemma StopsNoRoom(g: Superblock, disk: Disk, ic: Cache, c: seq<byte>, nm: Name, full: bool)
    requires Lookup(c, nm).None? && IsDir(c) && |c| <= MAXFILE * BSIZE
    requires full ==> (|c| < DIRENT * FirstUnused(c, 0) + DIRENT) && forall b :: 0 <= b < g.size ==> Marked(g, disk, b)
    requires !full ==> MAXFILE * BSIZE < DIRENT * FirstUnused(c, 0) + DIRENT
    ensures LinkStops(g, disk, ic, c, nm)
  {
    hide Lookup, InumAt, NameAt, Marked, SlotOf, CacheFull;
  }

  lemma DirlinkStarts(g: Superblock, disk: Disk, ic: Cache, ino: Table, s: nat, files: seq<seq<byte>>)
    requires Coherent(g, disk, ic, ino) && Holds(g, disk, ino, files) && DirsOk(ino, files)
    requires Locked(ic, s) && ic[s].d.typ == T_DIR
    ensures 0 < ic[s].inum < |ino| == |files| && ic[s].d == ino[ic[s].inum] && AllocInv(g, disk, ino)
    ensures FileOk(disk, ic[s].d) && Content(disk, ic[s].d) == files[ic[s].inum]
    ensures DirOk(ino, ic[s].inum, files[ic[s].inum]) && IsDir(files[ic[s].inum])
    ensures |files[ic[s].inum]| == ic[s].d.size <= MAXFILE * BSIZE && 0 < Refs(ic, ic[s].inum)
  {
    HoldsFacts(g, disk, ic, ino, s, files);
    RefsAt(g, disk, ic, ino, s);
  }

  /** An entry more, naming an inode that is in use and linked. */
  lemma LinkKeepsDirs(disk: Disk, ic: Cache, ino0: Table, ino: Table, files: seq<seq<byte>>, i: nat, e: nat, inum: nat,
                      name: seq<byte>, ic0: Cache, disk0: Disk, s: nat)
    requires DirsOk(ino0, files) && i < |ino0| && ino0[i].typ == T_DIR && OnlySlot(disk0, ic0, ino0, disk, ic, ino, s)
    requires s < |ic0| && ic0[s].inum == i && |name| == DIRSIZ && 0 < inum < LIMIT16
    requires IsDir(files[i]) && e <= Count(files[i])
    ensures inum < |ino0| && ino0[inum].typ != 0 && (ino0[inum].nlink != 0 || inum == i) ==>
              DirsOk(ino, files[i := PutDirent(files[i], e, Dirent(inum, name))])
  {
    if inum < |ino0| && ino0[inum].typ != 0 && (ino0[inum].nlink != 0 || inum == i) {
      PutIsEntryPut(files[i], e, name, inum);
      hide InumAt, NameAt, PutDirent, Dirent, CName;
      assert DirOk(ino0, i, files[i]);
      PutKeepsDirOk(ino0, i, files[i], PutDirent(files[i], e, Dirent(inum, name)), e, inum, CName(name));
      SameMetaKeepsDirs(ino0, ino, files[i := PutDirent(files[i], e, Dirent(inum, name))]);
    }
  }

  lemma PutKeepsDirOk(ino: Table, i: nat, c: seq<byte>, r: seq<byte>, e: nat, inum: nat, nm: Name)
    requires DirOk(ino, i, c) && EntryPut(c, r, e, inum, nm) && IsDir(r)
    requires inum != 0 ==> inum < |ino| && ino[inum].typ != 0 && (ino[inum].nlink != 0 || inum == i)
    ensures DirOk(ino, i, r)
  {
    hide InumAt, NameAt, Count;
  }

  /** DirsOk looks at types and link counts only. */
  lemma SameMetaKeepsDirs(ino: Table, ino2: Table, files: seq<seq<byte>>)
    requires DirsOk(ino, files) && |ino2| == |ino|
    requires forall j :: 0 <= j < |ino| ==> ino2[j].typ == ino[j].typ && (ino[j].nlink != 0 ==> ino2[j].nlink != 0)
    ensures DirsOk(ino2, files)
  {
    hide InumAt, Count;
    forall i | 0 <= i < |ino2| && ino2[i].typ == T_DIR ensures DirOk(ino2, i, files[i]) { assert DirOk(ino, i, files[i]); }
  }

  /** The inode a lookup found is linked, or is the directory itself. */
  lemma LookupFacts(ino: Table, i: nat, c: seq<byte>, nm: Name, ic0: Cache, ic: Cache, t: nat)
    requires DirOk(ino, i, c) && Lookup(c, nm).Some? && GotRef(ic0, ic, t, Lookup(c, nm).value) && 0 < Refs(ic0, i)
    ensures t < |ic| && ic[t].inum == Lookup(c, nm).value
    ensures 0 < ic[t].inum < |ino| && Kept(ic0, ino, ic[t].inum)
  {
  }

  lemma GotLocked(ic0: Cache, ic: Cache, s: nat, t: nat, i: nat)
    requires GotRef(ic0, ic, t, i) && Locked(ic0, s)
    ensures Locked(ic, s) && ic[s].inum == ic0[s].inum && (s == t ==> 1 < ic[t].ref)
    ensures |ic0| == |ic| && ic == ic0[t := ic[t]]
  {
  }

  /** iput of the inode dirlink looked up, while slot s is locked. */
  method DropLookup(fs: FileSystem, t: nat, ghost files: seq<seq<byte>>, ghost ic0: Cache, ghost s: nat)
    requires fs.Valid() && Holds(fs.g, fs.disk, fs.ino, files) && t < |fs.icache| && Locked(ic0, s)
    requires Coherent(fs.g, fs.disk, ic0, fs.ino) && GotRef(ic0, fs.icache, t, fs.icache[t].inum)
    requires 0 < fs.icache[t].inum < |fs.ino| && Kept(ic0, fs.ino, fs.icache[t].inum)
    modifies fs`disk, fs`icache, fs`ino
    ensures fs.Valid() && fs.disk == old(fs.disk) && fs.ino == old(fs.ino)
    ensures Extra(ic0, fs.icache, multiset{}) && Locks(ic0, fs.icache, {})
    ensures Unmoved(ic0, fs.icache)
  {
    hide FsInv, FreeEmpty, Holds, Coherent, Refs, Busy, SlotOf, Kept, Unmoved;
    ghost var i := fs.icache[t].inum;
    SlotFacts(fs.g, fs.disk, fs.icache, fs.ino, t);
    GotLocked(ic0, fs.icache, s, t, i);
    GotBusy(ic0, fs.icache, t, i);
    assert Extra(ic0, ic0, multiset{}) && Locks(ic0, ic0, {});
    hide Extra, Locks;
    ExtraGot(fs.g, fs.disk, fs.ino, ic0, multiset{}, {}, ic0, fs.disk, fs.ino, fs.icache, t, i);
    assert multiset{} + multiset{i} == multiset{i} && multiset{i} - multiset{i} == multiset{};
    ghost var ic := fs.icache;
    NotLast(fs.g, fs.disk, fs.ino, ic0, ic, multiset{i}, t);
    fs.Iput(t, files);
    ExtraPut(fs.g, fs.disk, fs.ino, ic0, multiset{i}, {}, ic, fs.disk, fs.ino, fs.icache, t);
    GotThenPut(fs.g, fs.disk, fs.ino, ic0, ic, fs.icache, t, i);
  }

  /** Slots in use are as they were. */
  ghost predicate Unmoved(ic: Cache, ic2: Cache) {
    |ic| == |ic2| && forall s :: 0 <= s < |ic| && 0 < ic[s].ref ==> ic2[s] == ic[s]
  }

  lemma GotThenPut(g: Superblock, disk: Disk, ino: Table, ic0: Cache, ic: Cache, ic2: Cache, t: nat, i: nat)
    requires Coherent(g, disk, ic0, ino) && GotRef(ic0, ic, t, i) && 0 < ic[t].ref && ic2 == ic[t := ic[t].(ref := ic[t].ref - 1)]
    ensures Unmoved(ic0, ic2)
  {
    CoherentLen(g, disk, ic0, ino);
    if 0 < ic0[t].ref { RefsAt(g, disk, ic0, ino, t); }
    hide Refs, Coherent;
  }

  lemma GotBusy(ic0: Cache, ic: Cache, t: nat, i: nat)
    requires GotRef(ic0, ic, t, i)
    ensures 0 < ic[t].ref && (ic[t].busy ==> 1 < ic[t].ref)
  {
  }

  lemma SlotFacts(g: Superblock, disk: Disk, ic: Cache, ino: Table, s: nat)
    requires Coherent(g, disk, ic, ino) && s < |ic| && 0 < ic[s].ref
    ensures 0 < ic[s].inum < |ino| && ino[ic[s].inum].typ != 0 && (ic[s].valid ==> ic[s].d == ino[ic[s].inum])
  {
  }

  /** The loop of dirlink that looks for an unused entry. */
  method ScanUnused(fs: FileSystem, s: nat) returns (e: nat)
    requires AllocInv(fs.g, fs.disk, fs.ino) && Coherent(fs.g, fs.disk, fs.icache, fs.ino) && Locked(fs.icache, s)
    requires FileOk(fs.disk, fs.icache[s].d) && fs.icache[s].d.size % DIRENT == 0
    ensures e == FirstUnused(Content(fs.disk, fs.icache[s].d), 0)
  {
    hide AllocInv, Coherent, InumAt, FirstUnused, NoHoles, ZeroTail;
    ghost var c := Content(fs.disk, fs.icache[s].d);
    var size, off := fs.icache[s].d.size, 0;
    hide FileOk, Content;
    e := 0;
    while off < size
      invariant off == DIRENT * e <= size
      invariant forall k :: 0 <= k < e ==> InumAt(c, k) != 0
    {
      var inum := EntryInum(fs, s, e);
      if inum == 0 { break; }
      off, e := off + DIRENT, e + 1;
    }
    UnusedIs(c, e);
  }

  /** isdirempty: whether every entry after the first two is unused. */
  method Isdirempty(fs: FileSystem, s: nat) returns (r: bool)
    requires AllocInv(fs.g, fs.disk, fs.ino) && Coherent(fs.g, fs.disk, fs.icache, fs.ino) && Locked(fs.icache, s)
    requires FileOk(fs.disk, fs.icache[s].d) && fs.icache[s].d.size % DIRENT == 0
    ensures r <==> var c := Content(fs.disk, fs.icache[s].d); forall e :: 2 <= e < Count(c) ==> InumAt(c, e) == 0
  {
    hide AllocInv, Coherent, InumAt, NoHoles, ZeroTail;
    ghost var c := Content(fs.disk, fs.icache[s].d);
    var size, off, e := fs.icache[s].d.size, 2 * DIRENT, 2;
    hide FileOk, Content;
    while off < size
      invariant off == DIRENT * e && 2 <= e && (e <= Count(c) || e == 2)
      invariant forall k :: 2 <= k < e && k < Count(c) ==> InumAt(c, k) == 0
    {
      var inum := EntryInum(fs, s, e);
      if inum != 0 { return false; }
      off, e := off + DIRENT, e + 1;
    }
    return true;
  }

  lemma OtherName(c: seq<byte>, e: nat)
    requires NamesOnce(c) && 2 <= e < Count(c) && InumAt(c, 0) != 0 && InumAt(c, 1) != 0 && InumAt(c, e) != 0
    ensures Lookup(c, NameAt(c, e)).Some? && NameAt(c, e) != NameAt(c, 0) && NameAt(c, e) != NameAt(c, 1)
  {
    LookupIs(c, NameAt(c, e), e);
  }

  /** For a directory that starts with "." and "..", this says that it has no other names. */
  lemma EmptyHasOnlyDots(c: seq<byte>)
    requires IsDir(c) && NamesOnce(c) && 2 <= Count(c) && InumAt(c, 0) != 0 && InumAt(c, 1) != 0
    requires NameAt(c, 0) == DOT && NameAt(c, 1) == DOTDOT
    ensures (forall e :: 2 <= e < Count(c) ==> InumAt(c, e) == 0) <==>
            (forall nm :: Lookup(c, nm).Some? ==> nm == DOT || nm == DOTDOT)
  {
    hide InumAt, NameAt;
    if forall nm :: Lookup(c, nm).Some? ==> nm == DOT || nm == DOTDOT {
      forall e | 2 <= e < Count(c) ensures InumAt(c, e) == 0 {
        if InumAt(c, e) != 0 { OtherName(c, e); }
      }
    }
  }

  lemma UnusedIs(c: seq<byte>, e: nat)
    requires e <= Count(c) && (forall k :: 0 <= k < e ==> InumAt(c, k) != 0) && (e < Count(c) ==> InumAt(c, e) == 0)
    ensures FirstUnused(c, 0) == e
  {
  }

  // namei

  /** What _namei has done so far: it holds one reference, to the inode in slot t, and has changed nothing else. */
  ghost predicate Walking(g: Superblock, disk: Disk, ino: Table, files: seq<seq<byte>>, ic0: Cache, ic: Cache, t: nat) {
    && KernelInv(g, disk, ic, ino) && Holds(g, disk, ino, files) && DirsOk(ino, files) && Locks(ic0, ic, {})
    && t < |ic| && 0 < ic[t].ref
    && Extra(ic0, ic, multiset{ic[t].inum}) && Kept(ic0, ino, ic[t].inum)
  }

  /** _namei has given up its reference. */
  ghost predicate Walked(g: Superblock, disk: Disk, ino: Table, ic0: Cache, ic: Cache) {
    KernelInv(g, disk, ic, ino) && Locks(ic0, ic, {}) && Extra(ic0, ic, multiset{})
  }

  lemma WalkingFacts(g: Superblock, disk: Disk, ino: Table, files: seq<seq<byte>>, ic0: Cache, ic: Cache, t: nat)
    requires Walking(g, disk, ino, files, ic0, ic, t)
    ensures KernelInv(g, disk, ic, ino) && Holds(g, disk, ino, files) && DirsOk(ino, files) && |files| == |ino|
    ensures |ic| == NINODE && t < |ic| && 0 < ic[t].ref && 0 < ic[t].inum < |ino|
    ensures (ic[t].busy <==> Busy(ic0, ic[t].inum)) && (ic[t].busy ==> 1 < ic[t].ref)
  {
    BusyAt(g, disk, ic, ino, t);
  }

  /** With the inode in slot t locked, the references are the same. */
  ghost predicate LockedWalk(g: Superblock, disk: Disk, ino: Table, files: seq<seq<byte>>, ic0: Cache, ic: Cache, t: nat) {
    && KernelInv(g, disk, ic, ino) && Holds(g, disk, ino, files) && DirsOk(ino, files)
    && Locked(ic, t) && Locks(ic0, ic, {ic[t].inum}) && !Busy(ic0, ic[t].inum)
    && InodeOn(disk, ic[t].inum) == ino[ic[t].inum]
    && ic[t].d == ino[ic[t].inum]
    && Kept(ic0, ino, ic[t].inum)
  }

  /** ilock, unless somebody has the inode. */
  method WalkLock(fs: FileSystem, t: nat, ghost files: seq<seq<byte>>, ghost ic0: Cache) returns (waits: bool)
    requires Walking(fs.g, fs.disk, fs.ino, files, ic0, fs.icache, t)
    modifies fs`icache
    ensures waits <==> Busy(ic0, old(fs.icache[t].inum))
    ensures waits ==> fs.icache == old(fs.icache)
    ensures !waits ==> LockedWalk(fs.g, fs.disk, fs.ino, files, ic0, fs.icache, t)
    ensures !waits ==> Extra(ic0, fs.icache, multiset{fs.icache[t].inum}) && fs.icache[t].inum == old(fs.icache[t].inum)
  {
    hide Coherent, FsInv, FreeEmpty, Holds, DirsOk, Refs, Extra, Kept, Busy;
    WalkingFacts(fs.g, fs.disk, fs.ino, files, ic0, fs.icache, t);
    ghost var ic := fs.icache;
    var typed;
    waits, typed := fs.Ilock(t);
    if !waits {
      ExtraSame(fs.g, fs.disk, fs.ino, ic0, multiset{ic[t].inum}, ic, fs.disk, fs.ino, fs.icache, t);
    }
  }

  /** iunlock, then iput. */
  method WalkPut(fs: FileSystem, t: nat, ghost files: seq<seq<byte>>, ghost ic0: Cache, ghost m: multiset<nat>)
    requires LockedWalk(fs.g, fs.disk, fs.ino, files, ic0, fs.icache, t)
    requires fs.icache[t].inum in m && Extra(ic0, fs.icache, m)
    modifies fs`disk, fs`icache, fs`ino
    ensures fs.disk == old(fs.disk) && fs.ino == old(fs.ino)
    ensures KernelInv(fs.g, fs.disk, fs.icache, fs.ino) && Locks(ic0, fs.icache, {})
    ensures Extra(ic0, fs.icache, m - multiset{old(fs.icache[t].inum)})
    ensures fs.icache == old(fs.icache)[t := old(fs.icache[t]).(busy := false, ref := old(fs.icache[t].ref) - 1)]
  {
    hide Coherent, FsInv, FreeEmpty, Holds, DirsOk, Refs, Extra, Busy, Kept, Settling;
    ghost var ic := fs.icache;
    fs.Iunlock(t);
    ghost var ic1 := fs.icache;
    ExtraSame(fs.g, fs.disk, fs.ino, ic0, m, ic, fs.disk, fs.ino, ic1, t);
    NotLast(fs.g, fs.disk, fs.ino, ic0, ic1, m, t);
    fs.Iput(t, files);
    ExtraPut(fs.g, fs.disk, fs.ino, ic0, m, {}, ic1, fs.disk, fs.ino, fs.icache, t);
  }

  /** Whoever holds a reference besides keeps the inode from being freed. */
  lemma NotLast(g: Superblock, disk: Disk, ino: Table, ic0: Cache, ic: Cache, m: multiset<nat>, t: nat)
    requires Coherent(g, disk, ic, ino) && t < |ic| && 0 < ic[t].ref && ic[t].inum in m
    requires Extra(ic0, ic, m) && Kept(ic0, ino, ic[t].inum)
    ensures !LastUse(ic[t])
  {
    RefsAt(g, disk, ic, ino, t);
  }

  /** One level down: dirlookup, then let go of the directory. */
  method WalkDown(fs: FileSystem, t: nat, name: seq<byte>, ghost files: seq<seq<byte>>, ghost ic0: Cache)
    returns (ok: bool, found: bool, next: nat)
    requires LockedWalk(fs.g, fs.disk, fs.ino, files, ic0, fs.icache, t) && fs.icache[t].d.typ == T_DIR && |name| == DIRSIZ
    requires Extra(ic0, fs.icache, multiset{fs.icache[t].inum})
    modifies fs`disk, fs`icache, fs`ino
    ensures fs.disk == old(fs.disk) && fs.ino == old(fs.ino) && old(fs.icache[t].inum) < |files|
    ensures found ==> ok && Lookup(files[old(fs.icache[t].inum)], CName(name)).Some?
    ensures found ==> Walking(fs.g, fs.disk, fs.ino, files, ic0, fs.icache, next)
    ensures found ==> fs.icache[next].inum == Lookup(files[old(fs.icache[t].inum)], CName(name)).value
    ensures ok && !found ==> Lookup(files[old(fs.icache[t].inum)], CName(name)).None?
    ensures ok && !found ==> Walked(fs.g, fs.disk, fs.ino, ic0, fs.icache)
    ensures !ok ==> Lookup(files[old(fs.icache[t].inum)], CName(name)).Some? && CacheFull(fs.icache)
                    && SlotOf(fs.icache, Lookup(files[old(fs.icache[t].inum)], CName(name)).value) == NINODE && NearlyFull(ic0)
  {
    hide Coherent, FsInv, FreeEmpty, Holds, DirsOk, Refs, Extra, CName, Lookup, Locks, Busy, Kept, SlotOf, CacheFull, NearlyFull;
    ghost var ic, i := fs.icache, fs.icache[t].inum;
    var off;
    SlotFacts(fs.g, fs.disk, ic, fs.ino, t);
    ok, found, next, off := Dirlookup(fs, t, name, files);
    if !ok {
      FewWereFree(fs.g, fs.disk, fs.ino, ic0, fs.icache, i);
      return;
    }
    if found {
      ghost var j := fs.icache[next].inum;
      ExtraGot(fs.g, fs.disk, fs.ino, ic0, multiset{i}, {i}, ic, fs.disk, fs.ino, fs.icache, next, j);
      LookupKept(fs.ino, files, i, CName(name), ic0);
      ghost var ic1 := fs.icache;
      LockedWalkGot(fs.g, fs.disk, fs.ino, files, ic0, ic, ic1, t, next, j);
      WalkPut(fs, t, files, ic0, multiset{i} + multiset{j});
      assert multiset{i} + multiset{j} - multiset{i} == multiset{j};
      StillThere(fs.g, fs.disk, fs.ino, ic0, ic, ic1, fs.icache, t, next, j);
    } else {
      WalkPut(fs, t, files, ic0, multiset{i});
      assert multiset{i} - multiset{i} == multiset{};
    }
  }

  lemma LockedWalkGot(g: Superblock, disk: Disk, ino: Table, files: seq<seq<byte>>, ic0: Cache, ic: Cache, ic1: Cache,
                      t: nat, next: nat, j: nat)
    requires LockedWalk(g, disk, ino, files, ic0, ic, t) && GotRef(ic, ic1, next, j) && KernelInv(g, disk, ic1, ino)
    requires Locks(ic0, ic1, {ic[t].inum})
    ensures LockedWalk(g, disk, ino, files, ic0, ic1, t) && ic1[t].inum == ic[t].inum
  {
    hide FsInv, FreeEmpty, Holds, DirsOk, Kept, Refs, Coherent, Locks, Busy;
    GotLocked(ic, ic1, t, next, j);
  }

  /** What a directory entry names has a link, or is the directory itself. */
  lemma LookupKept(ino: Table, files: seq<seq<byte>>, i: nat, nm: Name, ic0: Cache)
    requires DirsOk(ino, files) && i < |ino| && ino[i].typ == T_DIR && Lookup(files[i], nm).Some? && Kept(ic0, ino, i)
    ensures Kept(ic0, ino, Lookup(files[i], nm).value)
  {
    assert DirOk(ino, i, files[i]);
  }

  /** The reference dirlookup took survives putting the directory, even if it is to the directory itself. */
  lemma StillThere(g: Superblock, disk: Disk, ino: Table, ic0: Cache, ic: Cache, ic1: Cache, ic2: Cache, t: nat, next: nat, j: nat)
    requires Coherent(g, disk, ic, ino) && Coherent(g, disk, ic1, ino) && GotRef(ic, ic1, next, j) && t < |ic| && 0 < ic[t].ref
    requires ic2 == ic1[t := ic1[t].(busy := false, ref := ic1[t].ref - 1)]
    ensures next < |ic2| && 0 < ic2[next].ref && ic2[next].inum == j
  {
    if t == next { RefsAt(g, disk, ic, ino, t); }
  }

  /** At most one slot is unused. */
  ghost predicate NearlyFull(ic: Cache) {
    forall a, b :: 0 <= a < |ic| && 0 <= b < |ic| && ic[a].ref == 0 && ic[b].ref == 0 ==> a == b
  }

  /** A cache that one reference has made full had at most one free slot. */
  lemma FewWereFree(g: Superblock, disk: Disk, ino: Table, ic0: Cache, ic: Cache, i: nat)
    requires Coherent(g, disk, ic, ino) && Extra(ic0, ic, multiset{i}) && CacheFull(ic)
    ensures NearlyFull(ic0)
  {
    forall a, b | 0 <= a < |ic0| && 0 <= b < |ic0| && ic0[a].ref == 0 && ic0[b].ref == 0 ensures a == b {
      TakenSlot(g, disk, ino, ic0, ic, i, a);
      TakenSlot(g, disk, ino, ic0, ic, i, b);
      RefsAt(g, disk, ic, ino, a);
      RefsAt(g, disk, ic, ino, b);
    }
  }

  lemma TakenSlot(g: Superblock, disk: Disk, ino: Table, ic0: Cache, ic: Cache, i: nat, a: nat)
    requires Coherent(g, disk, ic, ino) && Extra(ic0, ic, multiset{i}) && CacheFull(ic) && a < |ic0| && ic0[a].ref == 0
    ensures a < |ic| && ic[a].inum == i && 0 < ic[a].ref
  {
    var x := ic[a].inum;
    RefsAt(g, disk, ic, ino, a);
    assert x != i ==> Refs(ic0, x) == Refs(ic, x);
  }

  datatype NameiResult =
    | Found(slot: nat)
    | Missing            // 0
    | Waits(slot: nat)   // asleep in ilock: somebody has the inode locked
    | NoSlots            // panic in iget

  ghost function Want(ino: Table, files: seq<seq<byte>>, i: nat, names: seq<Name>, parent: bool): Option<nat>
    requires DirsOk(ino, files) && i < |ino|
  {
    if parent then ResolveParent(ino, files, i, names) else Resolve(ino, files, i, names)
  }

  /** One turn of the loop of _namei. */
  lemma WantStep(ino: Table, files: seq<seq<byte>>, i: nat, p: seq<byte>, parent: bool)
    requires DirsOk(ino, files) && i < |ino| && NextElem(p).Some?
    ensures var (elem, rest) := NextElem(p).value;
            && Components(p) == [elem] + Components(rest) && |rest| < |p|
            && (rest == [] <==> Components(rest) == [])
            && (ino[i].typ != T_DIR ==> Want(ino, files, i, Components(p), parent) == None)
            && (ino[i].typ == T_DIR && parent && rest == [] ==> Want(ino, files, i, Components(p), parent) == Some(i))
            && (ino[i].typ == T_DIR && !(parent && rest == []) ==>
                  Want(ino, files, i, Components(p), parent) ==
                    match Lookup(files[i], elem)
                    case None => None
                    case Some(j) => if j < |ino| then Want(ino, files, j, Components(rest), parent) else None)
  {
    NextElemIsHead(p);
    hide Components, NextElem, Lookup, Resolve, ResolveParent;
    var (elem, rest) := NextElem(p).value;
    ResolveCons(ino, files, i, elem, Components(rest));
  }

  lemma ResolveCons(ino: Table, files: seq<seq<byte>>, i: nat, elem: Name, more: seq<Name>)
    requires DirsOk(ino, files) && i < |ino|
    ensures ino[i].typ != T_DIR ==>
              Resolve(ino, files, i, [elem] + more) == None && ResolveParent(ino, files, i, [elem] + more) == None
    ensures ino[i].typ == T_DIR ==>
              Resolve(ino, files, i, [elem] + more) ==
                match Lookup(files[i], elem)
                case None => None
                case Some(j) => if j < |ino| then Resolve(ino, files, j, more) else None
    ensures ino[i].typ == T_DIR ==>
              ResolveParent(ino, files, i, [elem] + more) ==
                if more == [] then Some(i)
                else match Lookup(files[i], elem)
                     case None => None
                     case Some(j) => if j < |ino| then ResolveParent(ino, files, j, more) else None
  {
    var names := [elem] + more;
    assert names[0] == elem && names[1..] == more;
    if ino[i].typ == T_DIR { assert DirOk(ino, i, files[i]); }
    hide Lookup;
  }

  /** Inode j is met on the way from start along names. */
  ghost predicate OnPath(ino: Table, files: seq<seq<byte>>, start: nat, names: seq<Name>, j: nat)
    requires DirsOk(ino, files) && start < |ino|
  {
    exists k :: 0 <= k <= |names| && Resolve(ino, files, start, names[..k]) == Some(j)
  }

  /** What _namei promises: the inode the path means, with exactly one new reference and no new lock.  It waits only for
      an inode on the path that somebody else has locked, and panics only if the cache is full and an inode on the path
      is not in it; since it has one reference at a time, at most one slot was free when it began. */
  ghost predicate NameiSpec(g: Superblock, disk: Disk, ino: Table, files: seq<seq<byte>>, ic0: Cache,
                            start: nat, names: seq<Name>, parent: bool, ic: Cache, r: NameiResult, name: seq<byte>)
    requires DirsOk(ino, files) && start < |ino|
  {
    var want := Want(ino, files, start, names, parent);
    match r
    case NoSlots => CacheFull(ic) && NearlyFull(ic0) && exists j :: OnPath(ino, files, start, names, j) && SlotOf(ic, j) == NINODE
    case Waits(t) =>
      && t < |ic| && Walking(g, disk, ino, files, ic0, ic, t)
      && Busy(ic0, ic[t].inum) && OnPath(ino, files, start, names, ic[t].inum)
    case Missing => want.None? && Walked(g, disk, ino, ic0, ic)
    case Found(t) =>
      && t < |ic| && want == Some(ic[t].inum) && Walking(g, disk, ino, files, ic0, ic, t)
      && (parent ==> names != [] && CName(name) == names[|names| - 1])
  }

  /** _namei: cwd is the slot of cp->cwd, which is not looked at if the path begins with a slash.  Such a path is followed
      from inode 1, and any other from the current directory. */
  method Namei(fs: FileSystem, path: seq<byte>, parent: bool, name0: seq<byte>, cwd: nat, ghost files: seq<seq<byte>>)
    returns (r: NameiResult, name: seq<byte>)
    requires fs.Valid() && Holds(fs.g, fs.disk, fs.ino, files) && DirsOk(fs.ino, files)
    requires 0 !in path && |name0| == DIRSIZ
    requires path == [] || path[0] != SLASH ==> cwd < |fs.icache| && 0 < fs.icache[cwd].ref
    requires fs.ino[1].typ == T_DIR && fs.ino[1].nlink != 0
    modifies fs`disk, fs`icache, fs`ino
    ensures fs.disk == old(fs.disk) && fs.ino == old(fs.ino) && |name| == DIRSIZ
    ensures path != [] && path[0] == SLASH ==>
              NameiSpec(fs.g, fs.disk, fs.ino, files, old(fs.icache), 1, Components(path), parent, fs.icache, r, name)
    ensures path == [] || path[0] != SLASH ==>
              && old(fs.icache[cwd].inum) < |fs.ino|
              && NameiSpec(fs.g, fs.disk, fs.ino, files, old(fs.icache), old(fs.icache[cwd].inum), Components(path), parent,
                           fs.icache, r, name)
  {
    assert 1 < |fs.ino|;
    hide Coherent, FsInv, FreeEmpty, Holds, DirsOk, Refs, Extra, CName, Components, Walking, NameiSpec, Want, Busy,
         Locks, SlotOf, CacheFull, NearlyFull, OnPath;
    ghost var ic0 := fs.icache;
    var ok, t := NameiStart(fs, path, cwd, files);
    if !ok {
      r, name := NoSlots, name0;
      StartsOnPath(fs.ino, files, 1, Components(path));
      NoSlotsSpec(fs.g, fs.disk, fs.ino, files, ic0, 1, Components(path), parent, fs.icache, name, 1);
    } else {
      r, name := NameiLoop(fs, t, path, parent, name0, files, ic0);
    }
  }

  lemma StartsOnPath(ino: Table, files: seq<seq<byte>>, start: nat, names: seq<Name>)
    requires DirsOk(ino, files) && start < |ino|
    ensures OnPath(ino, files, start, names, start)
  {
    assert Resolve(ino, files, start, names[..0]) == Some(start);
  }

  lemma NoSlotsSpec(g: Superblock, disk: Disk, ino: Table, files: seq<seq<byte>>, ic0: Cache, start: nat,
                    names: seq<Name>, parent: bool, ic: Cache, name: seq<byte>, j: nat)
    requires DirsOk(ino, files) && start < |ino|
    requires CacheFull(ic) && NearlyFull(ic0) && OnPath(ino, files, start, names, j) && SlotOf(ic, j) == NINODE
    ensures NameiSpec(g, disk, ino, files, ic0, start, names, parent, ic, NoSlots, name)
  {
    hide OnPath, CacheFull, NearlyFull, SlotOf, Want;
  }

  /** iget of the root, or idup of the current directory. */
  method NameiStart(fs: FileSystem, path: seq<byte>, cwd: nat, ghost files: seq<seq<byte>>) returns (ok: bool, t: nat)
    requires fs.Valid() && Holds(fs.g, fs.disk, fs.ino, files) && DirsOk(fs.ino, files)
    requires path == [] || path[0] != SLASH ==> cwd < |fs.icache| && 0 < fs.icache[cwd].ref
    requires fs.ino[1].typ == T_DIR && fs.ino[1].nlink != 0
    modifies fs`icache
    ensures ok ==> Walking(fs.g, fs.disk, fs.ino, files, old(fs.icache), fs.icache, t)
    ensures ok ==> t < |fs.icache| && fs.icache[t].inum < |fs.ino|
    ensures ok && path != [] && path[0] == SLASH ==> fs.icache[t].inum == 1
    ensures path == [] || path[0] != SLASH ==> ok && fs.icache[t].inum == old(fs.icache[cwd].inum)
    ensures !ok ==> CacheFull(fs.icache) && SlotOf(fs.icache, 1) == NINODE && NearlyFull(old(fs.icache))
  {
    assert 1 < |fs.ino|;
    hide Coherent, FsInv, FreeEmpty, Holds, DirsOk, Refs, SlotOf, Busy, Extra, Locks, Kept;
    ghost var ic0 := fs.icache;
    CoherentLen(fs.g, fs.disk, fs.icache, fs.ino);
    if path != [] && path[0] == SLASH {
      ok, t := fs.Iget(1);
      if !ok { return; }
    } else {
      SlotFacts(fs.g, fs.disk, fs.icache, fs.ino, cwd);
      fs.Idup(cwd);
      ok, t := true, cwd;
      DupGot(fs.g, fs.disk, ic0, fs.ino, cwd);
    }
    StartWalks(fs.g, fs.disk, fs.ino, files, ic0, fs.icache, t);
  }

  /** One reference more than when the call began. */
  lemma StartWalks(g: Superblock, disk: Disk, ino: Table, files: seq<seq<byte>>, ic0: Cache, ic: Cache, t: nat)
    requires KernelInv(g, disk, ic0, ino) && KernelInv(g, disk, ic, ino) && Holds(g, disk, ino, files) && DirsOk(ino, files)
    requires t < |ic| && GotRef(ic0, ic, t, ic[t].inum) && Kept(ic0, ino, ic[t].inum)
    ensures Walking(g, disk, ino, files, ic0, ic, t)
  {
    hide Coherent, FsInv, FreeEmpty, Holds, DirsOk, Refs, SlotOf, Busy, Kept;
    var i := ic[t].inum;
    assert Extra(ic0, ic0, multiset{}) && Locks(ic0, ic0, {});
    hide Extra, Locks;
    ExtraGot(g, disk, ino, ic0, multiset{}, {}, ic0, disk, ino, ic, t, i);
    assert multiset{} + multiset{i} == multiset{i};
  }

  lemma DupGot(g: Superblock, disk: Disk, ic: Cache, ino: Table, s: nat)
    requires Coherent(g, disk, ic, ino) && s < |ic| && 0 < ic[s].ref
    ensures GotRef(ic, ic[s := ic[s].(ref := ic[s].ref + 1)], s, ic[s].inum)
    ensures 0 < Refs(ic, ic[s].inum)
  {
    RefsAt(g, disk, ic, ino, s);
  }

  /** The loop of _namei. */
  method NameiLoop(fs: FileSystem, t0: nat, path: seq<byte>, parent: bool, name0: seq<byte>, ghost files: seq<seq<byte>>,
                   ghost ic0: Cache)
    returns (r: NameiResult, name: seq<byte>)
    requires Walking(fs.g, fs.disk, fs.ino, files, ic0, fs.icache, t0) && 0 !in path && |name0| == DIRSIZ
    requires DirsOk(fs.ino, files) && t0 < |fs.icache| && fs.icache[t0].inum < |fs.ino|
    modifies fs`disk, fs`icache, fs`ino
    ensures fs.disk == old(fs.disk) && fs.ino == old(fs.ino) && |name| == DIRSIZ
    ensures NameiSpec(fs.g, fs.disk, fs.ino, files, ic0, old(fs.icache[t0].inum), Components(path), parent,
                      fs.icache, r, name)
  {
    hide Coherent, FsInv, FreeEmpty, Holds, DirsOk, Refs, Extra, CName, Components, Walking, Want, NextElem, Lookup, NameiSpec,
         Resolve, OnPath, Busy, Locks, SlotOf, CacheFull;
    var p: seq<byte>, t: nat, fin := path, t0, false;
    ghost var start, names := fs.icache[t0].inum, Components(path);
    name := name0;
    r := NoSlots;
    ghost var before := [];
    assert names == before + Components(p);
    ResolveNothing(fs.ino, files, start);
    while !fin
      invariant fs.disk == old(fs.disk) && fs.ino == old(fs.ino) && DirsOk(fs.ino, files) && |name| == DIRSIZ
      invariant fin ==> NameiSpec(fs.g, fs.disk, fs.ino, files, ic0, start, names, parent, fs.icache, r, name)
      invariant !fin ==> Walking(fs.g, fs.disk, fs.ino, files, ic0, fs.icache, t)
      invariant !fin ==> t < |fs.icache| && fs.icache[t].inum < |fs.ino|
      invariant !fin ==> Want(fs.ino, files, start, names, parent) ==
                         Want(fs.ino, files, fs.icache[t].inum, Components(p), parent)
      invariant !fin ==> 0 !in p && names == before + Components(p)
      invariant !fin ==> Resolve(fs.ino, files, start, before) == Some(fs.icache[t].inum)
      decreases !fin, |p|
    {
      var rest, buf := Skipelem(p, name);
      name := buf;
      if rest.None? {
        NoMoreNames(fs.ino, files, fs.icache[t].inum, p, parent);
        r := NameiEnd(fs, t, parent, files, ic0, start, names, name);
        fin := true;
      } else {
        LastName(path, before, p);
        ghost var elem := NextElem(p).value.0;
        PathStep(fs.ino, files, start, names, before, fs.icache[t].inum, elem, Components(rest.value));
        fin, r, t := NameiTurn(fs, t, rest.value, parent, name, files, ic0, start, names, p);
        before, p := before + [elem], rest.value;
      }
    }
  }

  lemma ResolveNothing(ino: Table, files: seq<seq<byte>>, start: nat)
    requires DirsOk(ino, files) && start < |ino|
    ensures Resolve(ino, files, start, []) == Some(start)
  {
  }

  /** The inode reached so far, and the next, are on the path. */
  lemma PathStep(ino: Table, files: seq<seq<byte>>, start: nat, names: seq<Name>, before: seq<Name>, i: nat, elem: Name,
                 more: seq<Name>)
    requires DirsOk(ino, files) && start < |ino| && i < |ino|
    requires names == before + [elem] + more && Resolve(ino, files, start, before) == Some(i)
    ensures OnPath(ino, files, start, names, i)
    ensures ino[i].typ == T_DIR && Lookup(files[i], elem).Some? ==>
              var j := Lookup(files[i], elem).value;
              OnPath(ino, files, start, names, j) && Resolve(ino, files, start, before + [elem]) == Some(j)
  {
    assert names[..|before|] == before;
    if ino[i].typ == T_DIR && Lookup(files[i], elem).Some? {
      assert DirOk(ino, i, files[i]);
      ResolveAppend(ino, files, start, before, [elem]);
      ResolveCons(ino, files, i, elem, []);
      ResolveNothing(ino, files, Lookup(files[i], elem).value);
      hide Resolve, Lookup, DirsOk;
      assert [elem] + [] == [elem];
      assert names[..|before| + 1] == before + [elem];
    }
  }

  lemma NoMoreNames(ino: Table, files: seq<seq<byte>>, i: nat, p: seq<byte>, parent: bool)
    requires DirsOk(ino, files) && i < |ino| && NextElem(p).None?
    ensures Want(ino, files, i, Components(p), parent) == if parent then None else Some(i)
  {
    NextElemIsHead(p);
  }

  /** When the rest is empty, the element is the last component of the whole path. */
  lemma LastName(path: seq<byte>, before: seq<Name>, p: seq<byte>)
    requires Components(path) == before + Components(p) && NextElem(p).Some?
    ensures var (elem, rest) := NextElem(p).value;
            && Components(path) == (before + [elem]) + Components(rest)
            && (rest == [] ==> Components(path)[|Components(path)| - 1] == elem)
            && Components(path) != []
  {
    NextElemIsHead(p);
    hide Components;
    var (elem, rest) := NextElem(p).value;
    assert before + ([elem] + Components(rest)) == (before + [elem]) + Components(rest);
  }

  /** One turn of the loop of _namei: from inode t down to the inode called name, or out of the loop. */
  method NameiTurn(fs: FileSystem, t: nat, rest: seq<byte>, parent: bool, name: seq<byte>, ghost files: seq<seq<byte>>,
                   ghost ic0: Cache, ghost start: nat, ghost names: seq<Name>, ghost p: seq<byte>)
    returns (fin: bool, r: NameiResult, next: nat)
    requires Walking(fs.g, fs.disk, fs.ino, files, ic0, fs.icache, t) && |name| == DIRSIZ
    requires DirsOk(fs.ino, files) && t < |fs.icache| && fs.icache[t].inum < |fs.ino| && start < |fs.ino|
    requires NextElem(p) == Some((CName(name), rest))
    requires Want(fs.ino, files, start, names, parent) == Want(fs.ino, files, fs.icache[t].inum, Components(p), parent)
    requires rest == [] ==> names != [] && CName(name) == names[|names| - 1]
    requires OnPath(fs.ino, files, start, names, fs.icache[t].inum)
    requires fs.ino[fs.icache[t].inum].typ == T_DIR && Lookup(files[fs.icache[t].inum], CName(name)).Some? ==>
               OnPath(fs.ino, files, start, names, Lookup(files[fs.icache[t].inum], CName(name)).value)
    modifies fs`disk, fs`icache, fs`ino
    ensures fs.disk == old(fs.disk) && fs.ino == old(fs.ino)
    ensures fin ==> NameiSpec(fs.g, fs.disk, fs.ino, files, ic0, start, names, parent, fs.icache, r, name)
    ensures !fin ==> Walking(fs.g, fs.disk, fs.ino, files, ic0, fs.icache, next)
    ensures !fin ==> next < |fs.icache| && fs.icache[next].inum < |fs.ino|
    ensures !fin ==> fs.ino[old(fs.icache[t].inum)].typ == T_DIR &&
                     Lookup(files[old(fs.icache[t].inum)], CName(name)) == Some(fs.icache[next].inum)
    ensures !fin ==> Want(fs.ino, files, start, names, parent) ==
                     Want(fs.ino, files, fs.icache[next].inum, Components(rest), parent)
  {
    hide Coherent, FsInv, FreeEmpty, Holds, DirsOk, Refs, Extra, CName, Components, Walking, Want, NextElem, Lookup, Busy,
         Locks, SlotOf, CacheFull, NearlyFull, OnPath;
    ghost var i, ic1 := fs.icache[t].inum, fs.icache;
    WantStep(fs.ino, files, i, p, parent);
    var waits := WalkLock(fs, t, files, ic0);
    if waits { return true, Waits(t), t; }
    ghost var ic := fs.icache;
    next := t;
    if fs.icache[t].d.typ != T_DIR {
      WalkPut(fs, t, files, ic0, multiset{i});
      assert multiset{i} - multiset{i} == multiset{};
      return true, Missing, t;
    }
    if parent && rest == [] {
      fs.Iunlock(t);
      UnlockWalks(fs.g, fs.disk, fs.ino, files, ic0, ic, fs.icache, t);
      return true, Found(t), t;
    }
    var ok, found;
    ok, found, next := WalkDown(fs, t, name, files, ic0);
    if !ok { return true, NoSlots, t; }
    if !found { return true, Missing, t; }
    WalkingFacts(fs.g, fs.disk, fs.ino, files, ic0, fs.icache, next);
    return false, NoSlots, next;
  }

  lemma UnlockWalks(g: Superblock, disk: Disk, ino: Table, files: seq<seq<byte>>, ic0: Cache, ic: Cache, ic2: Cache, t: nat)
    requires LockedWalk(g, disk, ino, files, ic0, ic, t) && Extra(ic0, ic, multiset{ic[t].inum}) && KernelInv(g, disk, ic2, ino)
    requires ic2 == ic[t := ic[t].(busy := false)]
    ensures Walking(g, disk, ino, files, ic0, ic2, t)
  {
    hide Coherent, FsInv, FreeEmpty, Holds, DirsOk, Refs, Extra, Busy, Kept;
    ExtraSame(g, disk, ino, ic0, multiset{ic[t].inum}, ic, disk, ino, ic2, t);
  }

  /** The path is used up. */
  method NameiEnd(fs: FileSystem, t: nat, parent: bool, ghost files: seq<seq<byte>>, ghost ic0: Cache,
                  ghost start: nat, ghost names: seq<Name>, ghost name: seq<byte>) returns (r: NameiResult)
    requires Walking(fs.g, fs.disk, fs.ino, files, ic0, fs.icache, t) && DirsOk(fs.ino, files) && start < |fs.ino|
    requires Want(fs.ino, files, start, names, parent) == if parent then None else Some(fs.icache[t].inum)
    modifies fs`disk, fs`icache, fs`ino
    ensures fs.disk == old(fs.disk) && fs.ino == old(fs.ino)
    ensures NameiSpec(fs.g, fs.disk, fs.ino, files, ic0, start, names, parent, fs.icache, r, name)
  {
    hide Coherent, FsInv, FreeEmpty, Holds, DirsOk, Refs, Extra, CName, Want, Busy, Locks, Kept;
    if parent {
      ghost var i, ic := fs.icache[t].inum, fs.icache;
      WalkingFacts(fs.g, fs.disk, fs.ino, files, ic0, fs.icache, t);
      NotLast(fs.g, fs.disk, fs.ino, ic0, ic, multiset{i}, t);
      fs.Iput(t, files);
      ExtraPut(fs.g, fs.disk, fs.ino, ic0, multiset{i}, {}, ic, fs.disk, fs.ino, fs.icache, t);
      assert multiset{i} - multiset{i} == multiset{};
      return Missing;
    }
    return Found(t);
  }
}
