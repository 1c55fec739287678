/** Directories as byte sequences, and the finite maps from names to inode numbers they stand for
    (xv6/fs.c:460-530, xv6/fs.h:49-55).
 */
module FsDirs {
  import opened Options
  import opened FsBytes
  import opened FsDisk
  import opened FsFiles

  const DIRSIZ: nat := 14
  const DIRENT: nat := 16   // sizeof(struct dirent)
  const EPB: nat := 32      // entries per block

  // Names.  A name is a buffer of DIRSIZ bytes, ended by a NUL if it is shorter.

  type Name = seq<byte>

  const DOT: Name := [46]
  const DOTDOT: Name := [46, 46]

  /** The bytes of a C string up to its NUL. */
  function CName(s: seq<byte>): (r: Name)
    ensures |r| <= |s| && r == s[..|r|] && 0 !in r
    ensures |r| < |s| ==> s[|r|] == 0
  {
    if s == [] || s[0] == 0 then [] else [s[0]] + CName(s[1..])
  }

  /** strncmp(p, q, n) == 0 on buffers of n bytes. */
  predicate NameEq(p: seq<byte>, q: seq<byte>)
    requires |p| == |q|
  {
    p == [] || (p[0] == q[0] && (p[0] == 0 || NameEq(p[1..], q[1..])))
  }

  /** namecmp compares names, not what follows their NUL. */
  lemma {:induction false} NameEqIsSameName(p: seq<byte>, q: seq<byte>)
    requires |p| == |q|
    ensures NameEq(p, q) <==> CName(p) == CName(q)
  {
    if p != [] {
      NameEqIsSameName(p[1..], q[1..]);
      if p[0] != 0 && q[0] != 0 {
        assert CName(p)[0] == p[0] && CName(q)[0] == q[0];
        assert CName(p)[1..] == CName(p[1..]) && CName(q)[1..] == CName(q[1..]);
      }
    }
  }

  function Zeros(n: nat): (z: seq<byte>)
    ensures |z| == n && forall i :: 0 <= i < n ==> z[i] == 0
  {
    seq(n, _ => 0)
  }

  /** strncpy(de.name, name, DIRSIZ): the name, padded with zeroes. */
  function PadName(name: seq<byte>): (r: seq<byte>)
    requires |name| == DIRSIZ
    ensures |r| == DIRSIZ
  {
    CName(name) + Zeros(DIRSIZ - |CName(name)|)
  }

  lemma {:induction false} CNameOfPadded(nm: Name, z: nat)
    requires 0 !in nm
    ensures CName(nm + Zeros(z)) == nm
  {
    if nm != [] {
      assert (nm + Zeros(z))[1..] == nm[1..] + Zeros(z);
      CNameOfPadded(nm[1..], z);
    }
  }

  // Entries

  function InumAt(c: seq<byte>, e: nat): nat
    requires DIRENT * e + DIRENT <= |c|
  {
    U16(c, DIRENT * e)
  }

  function NameAt(c: seq<byte>, e: nat): Name
    requires DIRENT * e + DIRENT <= |c|
  {
    CName(c[DIRENT * e + 2..DIRENT * e + DIRENT])
  }

  ghost predicate IsDir(c: seq<byte>) { |c| % DIRENT == 0 }

  function Count(c: seq<byte>): nat { |c| / DIRENT }

  predicate Matches(c: seq<byte>, e: nat, nm: Name)
    requires e < Count(c)
  {
    InumAt(c, e) != 0 && NameAt(c, e) == nm
  }

  /** The first entry from e on that has name nm, or Count(c). */
  function FindFrom(c: seq<byte>, nm: Name, e: nat): (r: nat)
    requires e <= Count(c)
    ensures e <= r <= Count(c)
    ensures forall k :: e <= k < r ==> !Matches(c, k, nm)
    ensures r < Count(c) ==> Matches(c, r, nm)
    decreases Count(c) - e
  {
    if e == Count(c) then e else if Matches(c, e, nm) then e else FindFrom(c, nm, e + 1)
  }

  /** The map a directory stands for. */
  function Lookup(c: seq<byte>, nm: Name): (r: Option<nat>) {
    var e := FindFrom(c, nm, 0);
    if e < Count(c) then Some(InumAt(c, e)) else None
  }

  /** No name occurs twice. */
  ghost predicate NamesOnce(c: seq<byte>) {
    forall e, k :: 0 <= e < Count(c) && 0 <= k < Count(c) && InumAt(c, e) != 0 && InumAt(c, k) != 0 && e != k ==>
      NameAt(c, e) != NameAt(c, k)
  }

  function Dirent(inum: nat, name: seq<byte>): (r: seq<byte>)
    requires |name| == DIRSIZ
    ensures |r| == DIRENT
  {
    E16(inum) + PadName(name)
  }

  lemma DirentReads(inum: nat, name: seq<byte>)
    requires |name| == DIRSIZ && inum < LIMIT16
    ensures InumAt(Dirent(inum, name), 0) == inum && NameAt(Dirent(inum, name), 0) == CName(name)
  {
    var de := Dirent(inum, name);
    assert de[0] == E16(inum)[0] && de[1] == E16(inum)[1];
    assert de[2..16] == PadName(name);
    CNameOfPadded(CName(name), DIRSIZ - |CName(name)|);
  }

  /** The directory once entry e has been overwritten, or added at the end. */
  function PutDirent(c: seq<byte>, e: nat, de: seq<byte>): (r: seq<byte>)
    requires IsDir(c) && e <= Count(c) && |de| == DIRENT
    ensures IsDir(r) && Count(r) == if e == Count(c) then e + 1 else Count(c)
  {
    Written(c, DIRENT * e, de)
  }

  lemma PutDirentReads(c: seq<byte>, e: nat, de: seq<byte>, k: nat)
    requires IsDir(c) && e <= Count(c) && |de| == DIRENT && k < Count(PutDirent(c, e, de))
    ensures k != e ==> k < Count(c)
    ensures InumAt(PutDirent(c, e, de), k) == if k == e then InumAt(de, 0) else InumAt(c, k)
    ensures NameAt(PutDirent(c, e, de), k) == if k == e then NameAt(de, 0) else NameAt(c, k)
  {
    var r := PutDirent(c, e, de);
    if k == e {
      assert r[DIRENT * k + 2..DIRENT * k + DIRENT] == de[2..DIRENT];
    } else {
      assert r[DIRENT * k + 2..DIRENT * k + DIRENT] == c[DIRENT * k + 2..DIRENT * k + DIRENT];
    }
  }

  // dirlink and unlink on the map

  /** The entry dirlink overwrites: the first unused one, or a new one at the end. */
  function FirstUnused(c: seq<byte>, e: nat): (r: nat)
    requires e <= Count(c)
    ensures e <= r <= Count(c)
    ensures forall k :: e <= k < r ==> InumAt(c, k) != 0
    ensures r < Count(c) ==> InumAt(c, r) == 0
    decreases Count(c) - e
  {
    if e == Count(c) then e else if InumAt(c, e) == 0 then e else FirstUnused(c, e + 1)
  }

  /** Looking up nm finds what any entry of that name holds, if names occur once. */
  lemma LookupIs(c: seq<byte>, nm: Name, e: nat)
    requires NamesOnce(c) && e < Count(c) && Matches(c, e, nm)
    ensures Lookup(c, nm) == Some(InumAt(c, e)) && FindFrom(c, nm, 0) == e
  {
  }

  lemma LookupNone(c: seq<byte>, nm: Name)
    requires forall e :: 0 <= e < Count(c) ==> !Matches(c, e, nm)
    ensures Lookup(c, nm) == None
  {
  }

  /** r is c with entry e replaced, or added, by (inum, nm). */
  ghost predicate EntryPut(c: seq<byte>, r: seq<byte>, e: nat, inum: nat, nm: Name) {
    && Count(r) == (if e == Count(c) then e + 1 else Count(c)) && e < Count(r)
    && InumAt(r, e) == inum && (inum != 0 ==> NameAt(r, e) == nm)
    && forall k :: 0 <= k < Count(r) && k != e ==>
         k < Count(c) && InumAt(r, k) == InumAt(c, k) && NameAt(r, k) == NameAt(c, k)
  }

  lemma PutIsEntryPut(c: seq<byte>, e: nat, name: seq<byte>, inum: nat)
    requires IsDir(c) && e <= Count(c) && |name| == DIRSIZ && inum < LIMIT16
    ensures EntryPut(c, PutDirent(c, e, Dirent(inum, name)), e, inum, CName(name))
  {
    var de := Dirent(inum, name);
    var r := PutDirent(c, e, de);
    DirentReads(inum, name);
    PutDirentReads(c, e, de, e);
    forall k | 0 <= k < Count(r) && k != e
      ensures k < Count(c) && InumAt(r, k) == InumAt(c, k) && NameAt(r, k) == NameAt(c, k)
    {
      PutDirentReads(c, e, de, k);
    }
  }

  lemma ZeroIsEntryPut(c: seq<byte>, e: nat)
    requires IsDir(c) && e < Count(c)
    ensures EntryPut(c, PutDirent(c, e, Zeros(DIRENT)), e, 0, [])
  {
    var r := PutDirent(c, e, Zeros(DIRENT));
    PutDirentReads(c, e, Zeros(DIRENT), e);
    forall k | 0 <= k < Count(r) && k != e
      ensures k < Count(c) && InumAt(r, k) == InumAt(c, k) && NameAt(r, k) == NameAt(c, k)
    {
      PutDirentReads(c, e, Zeros(DIRENT), k);
    }
  }

  lemma EntryPutKeepsOnce(c: seq<byte>, r: seq<byte>, e: nat, inum: nat, nm: Name)
    requires EntryPut(c, r, e, inum, nm) && NamesOnce(c) && (inum != 0 ==> Lookup(c, nm) == None)
    ensures NamesOnce(r)
  {
    assert inum != 0 ==> forall k :: 0 <= k < Count(c) ==> !Matches(c, k, nm);
    hide InumAt, NameAt, Count, Lookup, FindFrom;
    forall x, y | 0 <= x < Count(r) && 0 <= y < Count(r) && InumAt(r, x) != 0 && InumAt(r, y) != 0 && x != y
      ensures NameAt(r, x) != NameAt(r, y)
    {
      if x == e {
        assert !Matches(c, y, nm);
      } else if y == e {
        assert !Matches(c, x, nm);
      }
    }
  }

  /** Adding an entry under a new name adds one pair to the map. */
  lemma LinkAddsName(c: seq<byte>, e: nat, name: seq<byte>, inum: nat)
    requires IsDir(c) && NamesOnce(c) && e <= Count(c) && (e < Count(c) ==> InumAt(c, e) == 0)
    requires |name| == DIRSIZ && 0 < inum < LIMIT16 && Lookup(c, CName(name)) == None
    ensures var r := PutDirent(c, e, Dirent(inum, name));
            && NamesOnce(r)
            && forall nm :: Lookup(r, nm) == if nm == CName(name) then Some(inum) else Lookup(c, nm)
  {
    var r := PutDirent(c, e, Dirent(inum, name));
    PutIsEntryPut(c, e, name, inum);
    EntryPutKeepsOnce(c, r, e, inum, CName(name));
    hide InumAt, NameAt, Count, CName, NamesOnce, Lookup, PutDirent;
    forall nm ensures Lookup(r, nm) == if nm == CName(name) then Some(inum) else Lookup(c, nm) {
      if nm == CName(name) { LookupIs(r, nm, e); } else { LinkKeepsOthers(c, r, e, inum, CName(name), nm); }
    }
  }

  lemma LinkKeepsOthers(c: seq<byte>, r: seq<byte>, e: nat, inum: nat, added: Name, nm: Name)
    requires NamesOnce(c) && NamesOnce(r) && EntryPut(c, r, e, inum, added)
    requires !Matches(r, e, nm) && (e < Count(c) ==> !Matches(c, e, nm))
    ensures Lookup(r, nm) == Lookup(c, nm)
  {
    hide InumAt, NameAt, Count;
    var f := FindFrom(c, nm, 0);
    if f < Count(c) {
      assert Matches(c, f, nm) && f != e && f < Count(r);
      LookupIs(r, nm, f);
      LookupIs(c, nm, f);
    } else {
      forall k | 0 <= k < Count(r) ensures !Matches(r, k, nm) { assert k == e || !Matches(c, k, nm); }
      LookupNone(r, nm);
    }
  }

  /** Zeroing the entry of nm takes exactly nm out of the map. */
  lemma UnlinkRemovesName(c: seq<byte>, nm: Name)
    requires IsDir(c) && NamesOnce(c) && Lookup(c, nm).Some?
    ensures var r := PutDirent(c, FindFrom(c, nm, 0), Zeros(DIRENT));
            && NamesOnce(r)
            && forall m :: Lookup(r, m) == if m == nm then None else Lookup(c, m)
  {
    var e := FindFrom(c, nm, 0);
    var r := PutDirent(c, e, Zeros(DIRENT));
    ZeroIsEntryPut(c, e);
    EntryPutKeepsOnce(c, r, e, 0, []);
    assert forall m :: !Matches(r, e, m);
    hide InumAt, NameAt, Count, PutDirent;
    forall m ensures Lookup(r, m) == if m == nm then None else Lookup(c, m) {
      if m == nm { LookupNone(r, m); } else { LinkKeepsOthers(c, r, e, 0, [], m); }
    }
  }

  /** unlink after link: the names are back to what they were. */
  lemma LinkThenUnlink(c: seq<byte>, e: nat, name: seq<byte>, inum: nat, nm: Name)
    requires IsDir(c) && NamesOnce(c) && e <= Count(c) && (e < Count(c) ==> InumAt(c, e) == 0)
    requires |name| == DIRSIZ && 0 < inum < LIMIT16 && Lookup(c, CName(name)) == None
    ensures var r := PutDirent(c, e, Dirent(inum, name));
            && FindFrom(r, CName(name), 0) < Count(r)
            && Lookup(PutDirent(r, FindFrom(r, CName(name), 0), Zeros(DIRENT)), nm) == Lookup(c, nm)
  {
    hide PutDirent, Dirent, InumAt, NamesOnce, CName, IsDir;
    LinkAddsName(c, e, name, inum);
    UnlinkRemovesName(PutDirent(c, e, Dirent(inum, name)), CName(name));
  }

  // A directory on disk

  lemma DirByte(disk: Disk, d: DInode, q: nat, k: nat, j: nat)
    requires FileOk(disk, d) && d.size % DIRENT == 0 && q < NBlocks(d.size) <= MAXFILE && k < EPB && j < DIRENT
    ensures var c, e := Content(disk, d), EPB * q + k;
            && (e < Count(c) <==> DIRENT * e < |c|)
            && At(disk, Ptr(disk, d, DataPtr(q)))[DIRENT * k + j] == if e < Count(c) then c[DIRENT * e + j] else 0
  {
    var c, e := Content(disk, d), EPB * q + k;
    var o := DIRENT * e + j;
    assert o == BSIZE * q + (DIRENT * k + j);
    assert o / BSIZE == q && o % BSIZE == DIRENT * k + j;
    assert At(disk, Ptr(disk, d, DataPtr(q)))[DIRENT * k + j] == ByteAt(disk, d, o);
  }

  lemma DirName(disk: Disk, d: DInode, q: nat, k: nat, buf: Block, c: seq<byte>)
    requires FileOk(disk, d) && d.size % DIRENT == 0 && q < NBlocks(d.size) <= MAXFILE && k < EPB
    requires buf == At(disk, Ptr(disk, d, DataPtr(q))) && c == Content(disk, d)
    requires EPB * q + k < Count(c)
    ensures NameAt(buf, k) == NameAt(c, EPB * q + k)
  {
    hide FileOk, CName, Ptr, At;
    var e := EPB * q + k;
    var l, r := buf[DIRENT * k + 2..DIRENT * k + DIRENT], c[DIRENT * e + 2..DIRENT * e + DIRENT];
    hide Content;
    forall j | 0 <= j < DIRSIZ ensures l[j] == r[j] {
      DirByte(disk, d, q, k, j + 2);
    }
    assert l == r;
  }

  /** One block of a directory, entry by entry.  Entries past the end of the directory read as unused. */
  lemma DirBlock(disk: Disk, d: DInode, q: nat, k: nat)
    requires FileOk(disk, d) && d.size % DIRENT == 0 && q < NBlocks(d.size) && k < EPB
    ensures q < MAXFILE
    ensures var c, buf := Content(disk, d), At(disk, Ptr(disk, d, DataPtr(q)));
            var e := EPB * q + k;
            if e < Count(c) then InumAt(buf, k) == InumAt(c, e) && NameAt(buf, k) == NameAt(c, e)
            else InumAt(buf, k) == 0
  {
    var c, buf := Content(disk, d), At(disk, Ptr(disk, d, DataPtr(q)));
    var e := EPB * q + k;
    DirByte(disk, d, q, k, 0);
    DirByte(disk, d, q, k, 1);
    hide FileOk, Content, CName, Ptr, NameAt, At, U16, InumAt;
    if e < Count(c) {
      DirName(disk, d, q, k, buf, c);
      SameInum(buf, k, c, e);
    } else {
      ZeroInum(buf, k);
    }
  }

  lemma SameInum(b: seq<byte>, k: nat, c: seq<byte>, e: nat)
    requires DIRENT * k + DIRENT <= |b| && DIRENT * e + DIRENT <= |c|
    requires b[DIRENT * k + 0] == c[DIRENT * e + 0] && b[DIRENT * k + 1] == c[DIRENT * e + 1]
    ensures InumAt(b, k) == InumAt(c, e)
  {
  }

  lemma ZeroInum(b: seq<byte>, k: nat)
    requires DIRENT * k + DIRENT <= |b| && b[DIRENT * k + 0] == 0 && b[DIRENT * k + 1] == 0
    ensures InumAt(b, k) == 0
  {
  }
}
