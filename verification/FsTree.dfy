/** Directories and link counts together: what link, unlink and create keep between them, on the bytes of the files
    (xv6/sysfile.c:110-256).  Each directory stands for a finite map, and nlink covers the entries of all of them.
 */
module FsTree {
  import opened Options
  import opened FsBytes
  import opened FsDisk
  import opened FsFiles
  import opened FsDirs
  import opened FsPaths
  import opened Counting

  const ROOT: nat := 1
  const SHRT: nat := 0x8000   // nlink is a short

  // The map of a directory

  ghost function NamesOf(c: seq<byte>): set<Name> {
    set e | 0 <= e < Count(c) && InumAt(c, e) != 0 :: NameAt(c, e)
  }

  ghost function DirMap(c: seq<byte>): Entries {
    map nm | nm in NamesOf(c) && Lookup(c, nm).Some? :: Lookup(c, nm).value
  }

  lemma DirMapIs(c: seq<byte>, nm: Name)
    ensures nm in DirMap(c) <==> Lookup(c, nm).Some?
    ensures nm in DirMap(c) ==> DirMap(c)[nm] == Lookup(c, nm).value
  {
    if Lookup(c, nm).Some? {
      var e := FindFrom(c, nm, 0);
      assert Matches(c, e, nm);
      assert nm in NamesOf(c);
    }
  }

  lemma SameMap(c: seq<byte>, m: Entries)
    requires forall nm :: nm in m <==> Lookup(c, nm).Some?
    requires forall nm :: nm in m ==> m[nm] == Lookup(c, nm).value
    ensures DirMap(c) == m
  {
    hide Lookup, DirMap;
    forall nm ensures nm in DirMap(c) <==> nm in m { DirMapIs(c, nm); }
    forall nm | nm in m ensures nm in DirMap(c) && DirMap(c)[nm] == m[nm] { DirMapIs(c, nm); }
  }

  /** The maps of all directories. */
  ghost function Maps(ino: Table, files: seq<seq<byte>>): (r: seq<Entries>)
    requires |files| == |ino|
    ensures |r| == |ino|
  {
    seq(|ino|, d requires 0 <= d < |ino| => if ino[d].typ == T_DIR then DirMap(files[d]) else map[])
  }

  // What holds between system calls

  /** An entry names an inode in use.  A directory names itself as ".", and only so, but for the root's "..". */
  ghost predicate EntryWell(ino: Table, d: nat, nm: Name, j: nat) {
    && 0 < j < |ino| && ino[j].typ != 0
    && (nm == DOT ==> j == d)
    && (j == d ==> nm == DOT || (nm == DOTDOT && d == ROOT))
  }

  ghost predicate DirWell(ino: Table, d: nat, c: seq<byte>) {
    && IsDir(c) && NamesOnce(c)
    && forall nm :: Lookup(c, nm).Some? ==> EntryWell(ino, d, nm, Lookup(c, nm).value)
  }

  /** Every nlink covers the entries that name the inode, "." not counted. */
  ghost predicate Counted(ino: Table, files: seq<seq<byte>>) {
    && |files| == |ino| <= LIMIT16
    && (forall d :: 0 <= d < |ino| && ino[d].typ == T_DIR ==> DirWell(ino, d, files[d]))
    && forall i :: 0 <= i < |ino| ==> Named(Maps(ino, files), i) <= ino[i].nlink < SHRT
  }

  /** The first two entries of a directory are its dots. */
  ghost predicate Dotted(d: nat, c: seq<byte>) {
    0 < d && 2 <= Count(c) && InumAt(c, 0) == d && NameAt(c, 0) == DOT && InumAt(c, 1) != 0 && NameAt(c, 1) == DOTDOT
  }

  ghost predicate RootOk(ino: Table, files: seq<seq<byte>>) {
    ROOT < |ino| == |files| && ino[ROOT].typ == T_DIR && Lookup(files[ROOT], DOTDOT) == Some(ROOT)
  }

  ghost predicate TreeInv(ino: Table, files: seq<seq<byte>>) {
    && Counted(ino, files) && RootOk(ino, files)
    && forall d :: 0 <= d < |ino| && ino[d].typ == T_DIR ==> Dotted(d, files[d])
  }

  lemma TreeFacts(ino: Table, files: seq<seq<byte>>)
    requires TreeInv(ino, files)
    ensures Counted(ino, files) && RootOk(ino, files) && |files| == |ino| <= LIMIT16
  {
  }

  lemma MapsAt(ino: Table, files: seq<seq<byte>>, d: nat)
    requires Counted(ino, files) && d < |ino| && ino[d].typ == T_DIR
    ensures Maps(ino, files)[d] == DirMap(files[d]) && DirWell(ino, d, files[d])
  {
  }

  /** A name counts. */
  lemma EntryCounted(ino: Table, files: seq<seq<byte>>, d: nat, nm: Name)
    requires Counted(ino, files) && d < |ino| && ino[d].typ == T_DIR && Lookup(files[d], nm).Some? && nm != DOT
    ensures var j := Lookup(files[d], nm).value;
            0 < j < |ino| && 0 < Named(Maps(ino, files), j) <= ino[j].nlink < SHRT
  {
    var j := Lookup(files[d], nm).value;
    MapsAt(ino, files, d);
    assert EntryWell(ino, d, nm, j);
    hide Lookup, DirMap, Named, DirWell, Maps;
    DirMapIs(files[d], nm);
    assert nm in NamesFor(DirMap(files[d]), j);
    NamedBound(Maps(ino, files), d, j);
  }

  lemma RootLinked(ino: Table, files: seq<seq<byte>>)
    requires Counted(ino, files) && RootOk(ino, files)
    ensures ino[ROOT].nlink != 0 && 0 < Named(Maps(ino, files), ROOT)
  {
    hide Counted, Lookup;
    EntryCounted(ino, files, ROOT, DOTDOT);
  }

  /** The link counts make every entry safe to follow. */
  lemma CountedDirsOk(ino: Table, files: seq<seq<byte>>)
    requires Counted(ino, files)
    ensures DirsOk(ino, files)
  {
    forall d | 0 <= d < |ino| && ino[d].typ == T_DIR ensures DirOk(ino, d, files[d]) {
      CountedDirOk(ino, files, d);
    }
  }

  lemma CountedDirOk(ino: Table, files: seq<seq<byte>>, d: nat)
    requires Counted(ino, files) && d < |ino| && ino[d].typ == T_DIR
    ensures DirOk(ino, d, files[d])
  {
    MapsAt(ino, files, d);
    var c := files[d];
    hide Counted, Lookup, InumAt, NameAt, Count;
    forall e | 0 <= e < Count(c) && InumAt(c, e) != 0
      ensures InumAt(c, e) < |ino| && ino[InumAt(c, e)].typ != 0 && (ino[InumAt(c, e)].nlink != 0 || InumAt(c, e) == d)
    {
      LookupIs(c, NameAt(c, e), e);
      if NameAt(c, e) != DOT { EntryCounted(ino, files, d, NameAt(c, e)); }
    }
  }

  // One change at a time

  /** The entry (nm, j) is added to directory d. */
  lemma AddKeeps(ino: Table, files: seq<seq<byte>>, d: nat, r: seq<byte>, nm: Name, j: nat)
    requires Counted(ino, files) && d < |ino| && ino[d].typ == T_DIR && EntryWell(ino, d, nm, j)
    requires Lookup(files[d], nm).None? && IsDir(r) && NamesOnce(r)
    requires forall m :: Lookup(r, m) == if m == nm then Some(j) else Lookup(files[d], m)
    requires nm != DOT ==> Named(Maps(ino, files), j) < ino[j].nlink
    ensures Counted(ino, files[d := r])
    ensures Maps(ino, files[d := r]) == Maps(ino, files)[d := DirMap(files[d])[nm := j]]
  {
    MapsAt(ino, files, d);
    assert DirWell(ino, d, r) by { hide Counted, Named, Maps; }
    var m := DirMap(files[d]);
    AddedMap(files[d], r, nm, j);
    MapsPut(ino, files, d, r);
    hide Lookup, DirMap, DirWell, EntryWell, NamesOnce;
    DirMapIs(files[d], nm);
    forall i | 0 <= i < |ino| ensures Named(Maps(ino, files[d := r]), i) <= ino[i].nlink < SHRT {
      NamedUpdate(Maps(ino, files), d, m[nm := j], i);
      CountPut(m, nm, j, i);
      hide Named;
    }
    hide Named, Maps;
    forall x | 0 <= x < |ino| && ino[x].typ == T_DIR ensures DirWell(ino, x, files[d := r][x]) {
      if x != d { assert DirWell(ino, x, files[x]); }
    }
  }

  lemma AddedMap(c: seq<byte>, r: seq<byte>, nm: Name, j: nat)
    requires forall m :: Lookup(r, m) == if m == nm then Some(j) else Lookup(c, m)
    ensures DirMap(r) == DirMap(c)[nm := j]
  {
    hide Lookup, DirMap;
    var m := DirMap(c)[nm := j];
    forall x ensures x in m <==> Lookup(r, x).Some? { DirMapIs(c, x); }
    forall x | x in m ensures m[x] == Lookup(r, x).value { DirMapIs(c, x); }
    SameMap(r, m);
  }

  lemma MapsPut(ino: Table, files: seq<seq<byte>>, d: nat, r: seq<byte>)
    requires |files| == |ino| && d < |ino| && ino[d].typ == T_DIR
    ensures Maps(ino, files[d := r]) == Maps(ino, files)[d := DirMap(r)]
  {
    hide DirMap;
  }

  /** The entry nm is taken out of directory d. */
  lemma DropKeeps(ino: Table, files: seq<seq<byte>>, d: nat, r: seq<byte>, nm: Name)
    requires Counted(ino, files) && d < |ino| && ino[d].typ == T_DIR && nm != DOT
    requires Lookup(files[d], nm).Some? && IsDir(r) && NamesOnce(r)
    requires forall m :: Lookup(r, m) == if m == nm then None else Lookup(files[d], m)
    ensures Counted(ino, files[d := r])
    ensures Maps(ino, files[d := r]) == Maps(ino, files)[d := DirMap(files[d]) - {nm}]
    ensures Lookup(files[d], nm).value < |ino| &&
            Named(Maps(ino, files[d := r]), Lookup(files[d], nm).value) < ino[Lookup(files[d], nm).value].nlink
  {
    MapsAt(ino, files, d);
    assert DirWell(ino, d, r) by { hide Counted, Named, Maps; }
    var m, j := DirMap(files[d]), Lookup(files[d], nm).value;
    EntryCounted(ino, files, d, nm);
    DroppedMap(files[d], r, nm);
    MapsPut(ino, files, d, r);
    hide Lookup, DirMap, DirWell, NamesOnce;
    DirMapIs(files[d], nm);
    forall i | 0 <= i < |ino|
      ensures Named(Maps(ino, files[d := r]), i) <= ino[i].nlink < SHRT
      ensures i == j ==> Named(Maps(ino, files[d := r]), i) < ino[i].nlink
    {
      NamedUpdate(Maps(ino, files), d, m - {nm}, i);
      CountDrop(m, nm, i);
      hide Named;
    }
    hide Named, Maps;
    forall x | 0 <= x < |ino| && ino[x].typ == T_DIR ensures DirWell(ino, x, files[d := r][x]) {
      if x != d { assert DirWell(ino, x, files[x]); }
    }
  }

  lemma DroppedMap(c: seq<byte>, r: seq<byte>, nm: Name)
    requires forall m :: Lookup(r, m) == if m == nm then None else Lookup(c, m)
    ensures DirMap(r) == DirMap(c) - {nm}
  {
    hide Lookup, DirMap;
    var m := DirMap(c) - {nm};
    forall x ensures x in m <==> Lookup(r, x).Some? { DirMapIs(c, x); }
    forall x | x in m ensures m[x] == Lookup(r, x).value { DirMapIs(c, x); }
    SameMap(r, m);
  }

  /** A table that differs in sizes, addresses and the like, and in link counts that still cover the names. */
  lemma MetaKeeps(ino: Table, ino2: Table, files: seq<seq<byte>>)
    requires Counted(ino, files) && |ino2| == |ino|
    requires forall i :: 0 <= i < |ino| ==> ino2[i].typ == ino[i].typ
    requires forall i :: 0 <= i < |ino| ==> Named(Maps(ino, files), i) <= ino2[i].nlink < SHRT
    ensures Counted(ino2, files) && Maps(ino2, files) == Maps(ino, files)
  {
    hide Lookup, DirMap, Named, NamesOnce;
    assert Maps(ino2, files) == Maps(ino, files);
    hide Maps;
    forall d | 0 <= d < |ino2| && ino2[d].typ == T_DIR ensures DirWell(ino2, d, files[d]) {
      assert DirWell(ino, d, files[d]);
      SameTypesWell(ino, ino2, d, files[d]);
    }
  }

  lemma SameTypesWell(ino: Table, ino2: Table, d: nat, c: seq<byte>)
    requires DirWell(ino, d, c) && |ino2| == |ino|
    requires forall i :: 0 <= i < |ino| && ino[i].typ != 0 ==> ino2[i].typ != 0
    ensures DirWell(ino2, d, c)
  {
    hide Lookup, NamesOnce;
  }

  /** ialloc: an inode that was free comes into use, without contents and without links. */
  lemma AllocKeeps(ino: Table, files: seq<seq<byte>>, i: nat, d: DInode)
    requires Counted(ino, files) && 0 < i < |ino| && ino[i].typ == 0 && d.typ != 0 && d.nlink < SHRT && files[i] == []
    ensures Counted(ino[i := d], files) && Maps(ino[i := d], files) == Maps(ino, files)
    ensures Named(Maps(ino, files), i) == 0
  {
    FreeUnnamed(ino, files, i);
    var ino2 := ino[i := d];
    EmptyWell(ino2, i);
    hide Lookup, DirMap, Named, NamesOnce;
    assert Maps(ino2, files) == Maps(ino, files);
    hide Maps;
    forall x | 0 <= x < |ino2| && ino2[x].typ == T_DIR ensures DirWell(ino2, x, files[x]) {
      if x != i {
        assert DirWell(ino, x, files[x]);
        SameTypesWell(ino, ino2, x, files[x]);
      }
    }
  }

  lemma EmptyWell(ino: Table, d: nat)
    ensures DirWell(ino, d, []) && DirMap([]) == map[]
  {
    assert DirMap([]) == map[];
  }

  /** Nobody names an inode that is not in use. */
  lemma FreeUnnamed(ino: Table, files: seq<seq<byte>>, i: nat)
    requires Counted(ino, files) && i < |ino| && ino[i].typ == 0
    ensures Named(Maps(ino, files), i) == 0
  {
    var maps := Maps(ino, files);
    forall d | 0 <= d < |maps| ensures CountIn(maps[d], i) == 0 {
      if ino[d].typ == T_DIR {
        assert DirWell(ino, d, files[d]);
        hide Counted, Lookup, DirMap;
        forall nm ensures nm !in NamesFor(maps[d], i) { DirMapIs(files[d], nm); }
        assert NamesFor(maps[d], i) == {};
      } else {
        assert NamesFor(maps[d], i) == {};
      }
    }
    SumZero(seq(|maps|, d requires 0 <= d < |maps| => CountIn(maps[d], i)));
  }

  /** iput frees inode i, which nobody names: its own entries go too. */
  lemma FreeKeeps(ino: Table, files: seq<seq<byte>>, i: nat, d: DInode)
    requires Counted(ino, files) && i < |ino| && Named(Maps(ino, files), i) == 0 && d.typ == 0 && d.nlink < SHRT
    ensures Counted(ino[i := d], files[i := []])
    ensures Maps(ino[i := d], files[i := []]) == Maps(ino, files)[i := map[]]
  {
    var ino2, files2 := ino[i := d], files[i := []];
    hide Lookup, NamesOnce;
    assert Maps(ino2, files2) == Maps(ino, files)[i := map[]] by { hide Named, DirMap; }
    forall k | 0 <= k < |ino2| ensures Named(Maps(ino2, files2), k) <= ino2[k].nlink < SHRT {
      NamedUpdate(Maps(ino, files), i, map[], k);
      assert NamesFor(map[], k) == {};
      NamedBound(Maps(ino, files), i, k);
      hide Named, Maps;
    }
    hide Maps, DirMap;
    forall x | 0 <= x < |ino2| && ino2[x].typ == T_DIR ensures DirWell(ino2, x, files2[x]) {
      OthersWell(ino, files, i, d, x);
    }
  }

  lemma OthersWell(ino: Table, files: seq<seq<byte>>, i: nat, d: DInode, x: nat)
    requires Counted(ino, files) && i < |ino| && Named(Maps(ino, files), i) == 0 && d.typ == 0
    requires x < |ino| && x != i && ino[x].typ == T_DIR
    ensures DirWell(ino[i := d], x, files[x])
  {
    assert DirWell(ino, x, files[x]);
    hide Lookup, NamesOnce, Named, Maps;
    forall nm | Lookup(files[x], nm).Some? ensures EntryWell(ino[i := d], x, nm, Lookup(files[x], nm).value) {
      assert EntryWell(ino, x, nm, Lookup(files[x], nm).value);
      if nm != DOT { EntryCounted(ino, files, x, nm); }
    }
  }

  // Dots

  lemma PutKeepsDotted(d: nat, c: seq<byte>, r: seq<byte>, e: nat, inum: nat, nm: Name)
    requires Dotted(d, c) && EntryPut(c, r, e, inum, nm) && 2 <= e
    ensures Dotted(d, r)
  {
    hide InumAt, NameAt, Count;
  }

  /** The entry that unlink clears is not a dot. */
  lemma NotADot(d: nat, c: seq<byte>, nm: Name)
    requires Dotted(d, c) && NamesOnce(c) && Lookup(c, nm).Some? && nm != DOT && nm != DOTDOT
    ensures 2 <= FindFrom(c, nm, 0) < Count(c)
  {
    hide InumAt, NameAt;
  }

  lemma UnusedNotDot(d: nat, c: seq<byte>)
    requires Dotted(d, c)
    ensures 2 <= FirstUnused(c, 0)
  {
  }

  // Following paths before and after

  /** All that can be looked up in the first tree can be looked up in the second, with the same result. */
  ghost predicate Within(ino: Table, files: seq<seq<byte>>, ino2: Table, files2: seq<seq<byte>>) {
    && |ino| == |files| == |ino2| == |files2|
    && forall d :: 0 <= d < |ino| && ino[d].typ == T_DIR ==>
         ino2[d].typ == T_DIR && forall nm :: Lookup(files[d], nm).Some? ==> Lookup(files2[d], nm) == Lookup(files[d], nm)
  }

  lemma {:induction false} ResolveWithin(ino: Table, files: seq<seq<byte>>, ino2: Table, files2: seq<seq<byte>>, i: nat,
                                         names: seq<Name>)
    requires DirsOk(ino, files) && DirsOk(ino2, files2) && Within(ino, files, ino2, files2) && i < |ino|
    ensures Resolve(ino, files, i, names).Some? ==> Resolve(ino2, files2, i, names) == Resolve(ino, files, i, names)
    ensures ResolveParent(ino, files, i, names).Some? ==>
              ResolveParent(ino2, files2, i, names) == ResolveParent(ino, files, i, names)
    decreases |names|
  {
    hide Lookup;
    if names != [] && ino[i].typ == T_DIR && Lookup(files[i], names[0]).Some? {
      assert DirOk(ino, i, files[i]);
      LookupInRange(ino, i, files[i], names[0]);
      ResolveWithin(ino, files, ino2, files2, Lookup(files[i], names[0]).value, names[1..]);
    }
  }

  lemma LookupInRange(ino: Table, i: nat, c: seq<byte>, nm: Name)
    requires DirOk(ino, i, c) && Lookup(c, nm).Some?
    ensures Lookup(c, nm).value < |ino|
  {
  }

  /** After a name has been added to the directory that nameiparent finds, namei finds what it names. */
  lemma AddedIsFound(ino: Table, files: seq<seq<byte>>, ino2: Table, files2: seq<seq<byte>>, i: nat, names: seq<Name>,
                     d: nat, j: nat)
    requires DirsOk(ino, files) && DirsOk(ino2, files2) && Within(ino, files, ino2, files2) && i < |ino| && d < |ino|
    requires names != [] && ResolveParent(ino, files, i, names) == Some(d)
    requires Lookup(files2[d], names[|names| - 1]) == Some(j)
    ensures Resolve(ino2, files2, i, names) == Some(j)
  {
    hide Lookup, Within, Resolve, ResolveParent, DirsOk;
    WithinSizes(ino, files, ino2, files2);
    ResolveWithin(ino, files, ino2, files2, i, names);
    ParentThenLookup(ino2, files2, i, names);
  }

  lemma WithinSizes(ino: Table, files: seq<seq<byte>>, ino2: Table, files2: seq<seq<byte>>)
    requires Within(ino, files, ino2, files2)
    ensures |ino| == |files| == |ino2| == |files2|
  {
  }

  /** After a name has been taken out of the directory that nameiparent finds, namei finds nothing, by whatever route. */
  lemma DroppedIsGone(ino: Table, files: seq<seq<byte>>, ino2: Table, files2: seq<seq<byte>>, i: nat, names: seq<Name>,
                      d: nat)
    requires DirsOk(ino, files) && DirsOk(ino2, files2) && Within(ino2, files2, ino, files) && i < |ino| && d < |ino|
    requires names != [] && ResolveParent(ino, files, i, names) == Some(d)
    requires Lookup(files2[d], names[|names| - 1]) == None
    ensures Resolve(ino2, files2, i, names) == None
  {
    hide Lookup, Within, Resolve, ResolveParent, DirsOk;
    WithinSizes(ino2, files2, ino, files);
    ResolveWithin(ino2, files2, ino, files, i, names);
    ParentThenLookup(ino2, files2, i, names);
  }

  // unlink

  /** A directory with other names than its dots. */
  ghost predicate HasNames(c: seq<byte>) {
    exists nm :: nm != DOT && nm != DOTDOT && Lookup(c, nm).Some?
  }

  /** unlink refuses the dots, a name that is not there, and a directory that is not empty. */
  ghost predicate Refuses(ino: Table, files: seq<seq<byte>>, d: nat, nm: Name)
    requires d < |ino| == |files|
  {
    || nm == DOT || nm == DOTDOT || Lookup(files[d], nm).None?
    || (var j := Lookup(files[d], nm).value; j < |ino| && ino[j].typ == T_DIR && HasNames(files[j]))
  }

  ghost function Cleared(c: seq<byte>, nm: Name): seq<byte>
    requires IsDir(c) && Lookup(c, nm).Some?
  {
    PutDirent(c, FindFrom(c, nm, 0), Zeros(DIRENT))
  }

  /** The entry nm of directory d is cleared, its inode has one link less and, if gone, is free; nothing else differs. */
  ghost predicate Unlinked(ino: Table, files: seq<seq<byte>>, d: nat, nm: Name, gone: bool, ino2: Table, files2: seq<seq<byte>>) {
    && d < |ino| == |files| == |ino2| && IsDir(files[d]) && Lookup(files[d], nm).Some?
    && var j := Lookup(files[d], nm).value;
    && j < |ino| && ino2[j].nlink == ino[j].nlink - 1 && ino2[j].typ == (if gone then 0 else ino[j].typ)
    && (gone ==> ino2[j].nlink == 0)
    && (forall i :: 0 <= i < |ino| && i != j ==> ino2[i].typ == ino[i].typ && ino2[i].nlink == ino[i].nlink)
    && files2 == if gone then files[d := Cleared(files[d], nm)][j := []] else files[d := Cleared(files[d], nm)]
  }

  lemma ClearedIs(d: nat, c: seq<byte>, nm: Name)
    requires IsDir(c) && NamesOnce(c) && Lookup(c, nm).Some? && nm != DOT && nm != DOTDOT
    ensures IsDir(Cleared(c, nm)) && NamesOnce(Cleared(c, nm))
    ensures forall m :: Lookup(Cleared(c, nm), m) == if m == nm then None else Lookup(c, m)
    ensures Dotted(d, c) ==> Dotted(d, Cleared(c, nm))
  {
    UnlinkRemovesName(c, nm);
    if Dotted(d, c) {
      NotADot(d, c, nm);
      ZeroIsEntryPut(c, FindFrom(c, nm, 0));
      PutKeepsDotted(d, c, Cleared(c, nm), FindFrom(c, nm, 0), 0, []);
    }
  }

  /** The tree before the inode is freed, if it is. */
  lemma UnlinkedCounts(ino: Table, files: seq<seq<byte>>, d: nat, nm: Name, gone: bool, ino2: Table, files2: seq<seq<byte>>)
    requires TreeInv(ino, files) && d < |ino| && ino[d].typ == T_DIR && nm != DOT && nm != DOTDOT
    requires Unlinked(ino, files, d, nm, gone, ino2, files2)
    ensures var j := Lookup(files[d], nm).value;
            var mid := if gone then ino2[j := ino2[j].(typ := ino[j].typ)] else ino2;
            && Counted(mid, files[d := Cleared(files[d], nm)]) && j != d
            && Maps(mid, files[d := Cleared(files[d], nm)]) == Maps(ino, files)[d := DirMap(files[d]) - {nm}]
  {
    hide Lookup, Cleared, NamesOnce, Counted, DirMap, Maps, Dotted, TreeInv, Named;
    var j, c := Lookup(files[d], nm).value, Cleared(files[d], nm);
    UnlinkedDiffer(ino, files, d, nm, gone, ino2, files2);
    TreeFacts(ino, files);
    DirIsOnce(ino, files, d);
    ClearedIs(d, files[d], nm);
    DropKeeps(ino, files, d, c, nm);
    var mid := if gone then ino2[j := ino2[j].(typ := ino[j].typ)] else ino2;
    CountedNlinks(ino, files[d := c]);
    MetaKeeps(ino, mid, files[d := c]);
  }

  lemma CountedNlinks(ino: Table, files: seq<seq<byte>>)
    requires Counted(ino, files)
    ensures |files| == |ino| && forall i :: 0 <= i < |ino| ==> Named(Maps(ino, files), i) <= ino[i].nlink < SHRT
  {
  }

  lemma UnlinkedCounted(ino: Table, files: seq<seq<byte>>, d: nat, nm: Name, gone: bool, ino2: Table, files2: seq<seq<byte>>)
    requires TreeInv(ino, files) && d < |ino| && ino[d].typ == T_DIR && nm != DOT && nm != DOTDOT
    requires Unlinked(ino, files, d, nm, gone, ino2, files2)
    ensures Counted(ino2, files2) && RootOk(ino2, files2)
    ensures Maps(ino2, files2) == var m := Maps(ino, files)[d := DirMap(files[d]) - {nm}];
                                  if gone then m[Lookup(files[d], nm).value := map[]] else m
  {
    hide Lookup, Cleared, NamesOnce, Counted, DirMap, Maps, Named, Dotted, TreeInv;
    var j, c := Lookup(files[d], nm).value, Cleared(files[d], nm);
    UnlinkedCounts(ino, files, d, nm, gone, ino2, files2);
    TreeFacts(ino, files);
    DirIsOnce(ino, files, d);
    ClearedIs(d, files[d], nm);
    var mid := if gone then ino2[j := ino2[j].(typ := ino[j].typ)] else ino2;
    assert RootOk(mid, files[d := c]);
    if gone {
      RootLinked(mid, files[d := c]);
      UnlinkedFrees(mid, files[d := c], j, ino2[j]);
      assert mid[j := ino2[j]] == ino2;
    }
  }

  lemma DirIsOnce(ino: Table, files: seq<seq<byte>>, d: nat)
    requires TreeInv(ino, files) && d < |ino| && ino[d].typ == T_DIR
    ensures IsDir(files[d]) && NamesOnce(files[d]) && Dotted(d, files[d])
  {
    hide Lookup, NamesOnce;
  }

  lemma UnlinkedDiffer(ino: Table, files: seq<seq<byte>>, d: nat, nm: Name, gone: bool, ino2: Table, files2: seq<seq<byte>>)
    requires TreeInv(ino, files) && d < |ino| && ino[d].typ == T_DIR && nm != DOT && nm != DOTDOT
    requires Unlinked(ino, files, d, nm, gone, ino2, files2)
    ensures |ino2| == |files2| == |ino| == |files| && Lookup(files[d], nm).Some? && Lookup(files[d], nm).value != d
    ensures ino2[d].typ == T_DIR
  {
    TreeFacts(ino, files);
    MapsAt(ino, files, d);
    hide Counted, Maps, TreeInv, Lookup, NamesOnce;
  }

  /** Apart from directory d and an inode that is gone, directories are the same. */
  lemma UnlinkedElsewhere(ino: Table, files: seq<seq<byte>>, d: nat, nm: Name, gone: bool, ino2: Table, files2: seq<seq<byte>>,
                          x: nat)
    requires Unlinked(ino, files, d, nm, gone, ino2, files2) && Lookup(files[d], nm).value != d && NamesOnce(files[d])
    requires nm != DOT && nm != DOTDOT && x < |ino2| && ino2[x].typ == T_DIR
    ensures ino[x].typ == T_DIR && (Dotted(x, files[x]) ==> Dotted(x, files2[x]))
    ensures forall m :: Lookup(files2[x], m) == if x == d && m == nm then None else Lookup(files[x], m)
  {
    hide Lookup, Cleared, NamesOnce, Dotted;
    ClearedIs(d, files[d], nm);
  }

  /** unlink keeps the tree sound; and only the one name is gone. */
  lemma UnlinkedKeeps(ino: Table, files: seq<seq<byte>>, d: nat, nm: Name, gone: bool, ino2: Table, files2: seq<seq<byte>>)
    requires TreeInv(ino, files) && d < |ino| && ino[d].typ == T_DIR && nm != DOT && nm != DOTDOT
    requires Unlinked(ino, files, d, nm, gone, ino2, files2)
    ensures TreeInv(ino2, files2) && Within(ino2, files2, ino, files) && Lookup(files2[d], nm) == None
    ensures Maps(ino2, files2) == var m := Maps(ino, files)[d := DirMap(files[d]) - {nm}];
                                  if gone then m[Lookup(files[d], nm).value := map[]] else m
  {
    hide Lookup, Cleared, NamesOnce, Counted, DirMap, Maps, Dotted, RootOk, Unlinked;
    TreeFacts(ino, files);
    UnlinkedCounted(ino, files, d, nm, gone, ino2, files2);
    UnlinkedDiffer(ino, files, d, nm, gone, ino2, files2);
    DirIsOnce(ino, files, d);
    forall x | 0 <= x < |ino2| && ino2[x].typ == T_DIR
      ensures ino[x].typ == T_DIR && Dotted(x, files2[x])
      ensures forall m :: Lookup(files2[x], m) == if x == d && m == nm then None else Lookup(files[x], m)
    {
      UnlinkedElsewhere(ino, files, d, nm, gone, ino2, files2, x);
    }
  }

  lemma UnlinkedFrees(ino: Table, files: seq<seq<byte>>, j: nat, d: DInode)
    requires Counted(ino, files) && j < |ino| && ino[j].nlink == 0 && d.typ == 0 && d.nlink < SHRT
    ensures Counted(ino[j := d], files[j := []])
    ensures Maps(ino[j := d], files[j := []]) == Maps(ino, files)[j := map[]]
  {
    CountedNlinks(ino, files);
    hide Counted, DirMap, Maps;
    NamedBound(Maps(ino, files), j, j);
    hide Named;
    FreeKeeps(ino, files, j, d);
  }

  // link

  ghost function Entered(c: seq<byte>, name: seq<byte>, j: nat): seq<byte>
    requires IsDir(c) && |name| == DIRSIZ
  {
    PutDirent(c, FirstUnused(c, 0), Dirent(j, name))
  }

  lemma EnteredIs(d: nat, c: seq<byte>, name: seq<byte>, j: nat)
    requires IsDir(c) && NamesOnce(c) && |name| == DIRSIZ && 0 < j < LIMIT16 && Lookup(c, CName(name)).None?
    ensures IsDir(Entered(c, name, j)) && NamesOnce(Entered(c, name, j))
    ensures forall m :: Lookup(Entered(c, name, j), m) == if m == CName(name) then Some(j) else Lookup(c, m)
    ensures Dotted(d, c) ==> Dotted(d, Entered(c, name, j))
  {
    LinkAddsName(c, FirstUnused(c, 0), name, j);
    if Dotted(d, c) {
      UnusedNotDot(d, c);
      PutIsEntryPut(c, FirstUnused(c, 0), name, j);
      PutKeepsDotted(d, c, Entered(c, name, j), FirstUnused(c, 0), j, CName(name));
    }
  }

  /** Inode j has a new name in directory d, and one link more; nothing else differs. */
  ghost predicate NewName(ino: Table, files: seq<seq<byte>>, d: nat, name: seq<byte>, j: nat, ino2: Table, files2: seq<seq<byte>>) {
    && d < |ino| == |files| == |ino2| && IsDir(files[d]) && |name| == DIRSIZ
    && j < |ino| && ino2[j].nlink == ino[j].nlink + 1 < SHRT && ino2[j].typ == ino[j].typ
    && (forall i :: 0 <= i < |ino| && i != j ==> ino2[i].typ == ino[i].typ && ino2[i].nlink == ino[i].nlink)
    && files2 == files[d := Entered(files[d], name, j)]
  }

  lemma LinkedCounted(ino: Table, files: seq<seq<byte>>, d: nat, name: seq<byte>, j: nat, ino2: Table, files2: seq<seq<byte>>)
    requires TreeInv(ino, files) && NewName(ino, files, d, name, j, ino2, files2) && ino[d].typ == T_DIR
    requires 0 < j && ino[j].typ != 0 && ino[j].typ != T_DIR && Lookup(files[d], CName(name)).None?
    ensures Counted(ino2, files2)
    ensures Maps(ino2, files2) == Maps(ino, files)[d := DirMap(files[d])[CName(name) := j]]
  {
    hide Lookup, Entered, NamesOnce, Counted, DirMap, Maps, DirWell, Named, CName, Dotted, TreeInv, RootOk;
    var nm, c := CName(name), Entered(files[d], name, j);
    TreeFacts(ino, files);
    DirIsOnce(ino, files, d);
    DotTaken(d, files[d]);
    EnteredIs(d, files[d], name, j);
    CountedNlinks(ino, files);
    MetaKeeps(ino, ino2, files);
    AddKeeps(ino2, files, d, c, nm, j);
  }

  lemma LinkedElsewhere(ino: Table, files: seq<seq<byte>>, d: nat, name: seq<byte>, j: nat, ino2: Table, files2: seq<seq<byte>>,
                        x: nat)
    requires NewName(ino, files, d, name, j, ino2, files2) && NamesOnce(files[d]) && Lookup(files[d], CName(name)).None?
    requires x < |ino2| && 0 < j < LIMIT16
    ensures Dotted(x, files[x]) ==> Dotted(x, files2[x])
    ensures forall m :: Lookup(files2[x], m) == if x == d && m == CName(name) then Some(j) else Lookup(files[x], m)
  {
    hide Lookup, Entered, NamesOnce, Dotted, CName;
    EnteredIs(d, files[d], name, j);
  }

  /** link keeps the tree sound, and adds only the one name. */
  lemma LinkedKeeps(ino: Table, files: seq<seq<byte>>, d: nat, name: seq<byte>, j: nat, ino2: Table, files2: seq<seq<byte>>)
    requires TreeInv(ino, files) && NewName(ino, files, d, name, j, ino2, files2) && ino[d].typ == T_DIR
    requires 0 < j && ino[j].typ != 0 && ino[j].typ != T_DIR && Lookup(files[d], CName(name)).None?
    ensures TreeInv(ino2, files2) && Within(ino, files, ino2, files2) && Lookup(files2[d], CName(name)) == Some(j)
    ensures Maps(ino2, files2) == Maps(ino, files)[d := DirMap(files[d])[CName(name) := j]]
  {
    hide Lookup, Entered, NamesOnce, Counted, DirMap, Maps, Dotted, CName;
    TreeFacts(ino, files);
    LinkedCounted(ino, files, d, name, j, ino2, files2);
    DirIsOnce(ino, files, d);
    DotTaken(d, files[d]);
    forall x | 0 <= x < |ino2|
      ensures Dotted(x, files[x]) ==> Dotted(x, files2[x])
      ensures forall m :: Lookup(files2[x], m) == if x == d && m == CName(name) then Some(j) else Lookup(files[x], m)
    {
      LinkedElsewhere(ino, files, d, name, j, ino2, files2, x);
    }
  }

  lemma DotTaken(d: nat, c: seq<byte>)
    requires Dotted(d, c) && NamesOnce(c)
    ensures Lookup(c, DOT) == Some(d) && Lookup(c, DOTDOT).Some?
  {
    LookupIs(c, DOT, 0);
    LookupIs(c, DOTDOT, 1);
  }

  // create

  /** One more name, in the counts. */
  lemma NamedAdded(maps: seq<Entries>, d: nat, nm: Name, j: nat, k: nat)
    requires d < |maps| && nm !in maps[d]
    ensures var m: Entries := maps[d][nm := j];
            Named(maps[d := m], k) == Named(maps, k) + if nm != DOT && j == k then 1 else 0
  {
    var m: Entries := maps[d][nm := j];
    NamedUpdate(maps, d, m, k);
    CountPut(maps[d], nm, j, k);
  }

  /** AddKeeps for the entry dirlink writes. */
  lemma EnterKeeps(ino: Table, files: seq<seq<byte>>, d: nat, name: seq<byte>, j: nat)
    requires Counted(ino, files) && d < |ino| && ino[d].typ == T_DIR && |name| == DIRSIZ && EntryWell(ino, d, CName(name), j)
    requires Lookup(files[d], CName(name)).None?
    requires CName(name) != DOT ==> Named(Maps(ino, files), j) < ino[j].nlink
    ensures IsDir(files[d]) && Counted(ino, files[d := Entered(files[d], name, j)])
    ensures forall k :: Named(Maps(ino, files[d := Entered(files[d], name, j)]), k) ==
                        Named(Maps(ino, files), k) + if CName(name) != DOT && j == k then 1 else 0
    ensures forall m :: Lookup(Entered(files[d], name, j), m) == if m == CName(name) then Some(j) else Lookup(files[d], m)
  {
    MapsAt(ino, files, d);
    assert IsDir(files[d]) && NamesOnce(files[d]) && j < LIMIT16;
    hide Lookup, Counted, Maps, Named, NamesOnce, CName, Entered, DirWell, DirMap;
    EnteredIs(d, files[d], name, j);
    AddKeeps(ino, files, d, Entered(files[d], name, j), CName(name), j);
    DirMapIs(files[d], CName(name));
    forall k ensures Named(Maps(ino, files[d := Entered(files[d], name, j)]), k) ==
                     Named(Maps(ino, files), k) + if CName(name) != DOT && j == k then 1 else 0
    {
      NamedAdded(Maps(ino, files), d, CName(name), j, k);
    }
  }

  /** The buffers that strncpy makes of "." and "..". */
  function DotBuf(): (r: seq<byte>)
    ensures |r| == DIRSIZ
  {
    DOT + Zeros(DIRSIZ - |DOT|)
  }

  function DotDotBuf(): (r: seq<byte>)
    ensures |r| == DIRSIZ
  {
    DOTDOT + Zeros(DIRSIZ - |DOTDOT|)
  }

  lemma DotBufs()
    ensures CName(DotBuf()) == DOT && CName(DotDotBuf()) == DOTDOT
  {
    CNameOfPadded(DOT, DIRSIZ - |DOT|);
    CNameOfPadded(DOTDOT, DIRSIZ - |DOTDOT|);
  }

  /** The contents of a new directory i in directory d. */
  ghost function DotsOf(i: nat, d: nat): seq<byte> {
    Entered(Entered([], DotBuf(), i), DotDotBuf(), d)
  }

  lemma DotsAre(i: nat, d: nat)
    requires 0 < i < LIMIT16 && 0 < d < LIMIT16
    ensures var one := Entered([], DotBuf(), i);
            && IsDir([]) && IsDir(one) && NamesOnce(one) && (forall m :: Lookup(one, m) == if m == DOT then Some(i) else None)
            && IsDir(DotsOf(i, d)) && NamesOnce(DotsOf(i, d))
            && (forall m :: Lookup(DotsOf(i, d), m) == if m == DOT then Some(i) else if m == DOTDOT then Some(d) else None)
            && Dotted(i, DotsOf(i, d))
  {
    DotBufs();
    var one := Entered([], DotBuf(), i);
    DotEntries(i, d);
    hide CName, DotBuf, DotDotBuf;
    EnteredIs(i, [], DotBuf(), i);
    EnteredIs(i, one, DotDotBuf(), d);
  }

  lemma DotEntries(i: nat, d: nat)
    requires 0 < i < LIMIT16 && 0 < d < LIMIT16
    ensures Dotted(i, DotsOf(i, d))
  {
    DotBufs();
    var one, two := Entered([], DotBuf(), i), DotsOf(i, d);
    hide CName, DotBuf, DotDotBuf, InumAt, NameAt, Dirent, PutDirent;
    PutIsEntryPut([], 0, DotBuf(), i);
    assert Count(one) == 1 && FirstUnused([], 0) == 0 && FirstUnused(one, 0) == 1;
    PutIsEntryPut(one, 1, DotDotBuf(), d);
  }

  /** A new inode i of type k, named in directory d; a directory gets its dots and counts as a link to d. */
  ghost predicate NewFile(ino: Table, files: seq<seq<byte>>, d: nat, name: seq<byte>, i: nat, k: nat, ino2: Table, files2: seq<seq<byte>>) {
    && d < |ino| == |files| == |ino2| && i < |ino| && i != d && ino[i].typ == 0 && files[i] == []
    && IsDir(files[d]) && |name| == DIRSIZ && ino2[i].typ == k && ino2[i].nlink == 1
    && ino2[d].typ == ino[d].typ && ino2[d].nlink == (if k == T_DIR then ino[d].nlink + 1 else ino[d].nlink) < SHRT
    && (forall x :: 0 <= x < |ino| && x != i && x != d ==> ino2[x].typ == ino[x].typ && ino2[x].nlink == ino[x].nlink)
    && files2 == files[d := Entered(files[d], name, i)][i := if k == T_DIR then DotsOf(i, d) else []]
  }

  /** The counts once the inode is allocated and has its link. */
  lemma NewInodeCounted(ino: Table, files: seq<seq<byte>>, i: nat, ino2: Table)
    requires Counted(ino, files) && 0 < i < |ino| == |ino2| && ino[i].typ == 0 && files[i] == []
    requires ino2[i].typ != 0 && ino2[i].nlink < SHRT
    requires forall x :: 0 <= x < |ino| && x != i ==> ino2[x].typ == ino[x].typ && ino[x].nlink <= ino2[x].nlink < SHRT
    ensures Counted(ino2, files) && (forall k :: Named(Maps(ino2, files), k) == Named(Maps(ino, files), k))
    ensures Named(Maps(ino2, files), i) == 0
  {
    hide Counted, Maps, Named;
    var mid := ino[i := ino2[i]];
    AllocKeeps(ino, files, i, ino2[i]);
    CountedNlinks(mid, files);
    MetaKeeps(mid, ino2, files);
  }

  lemma NewFileCounted(ino: Table, files: seq<seq<byte>>, d: nat, name: seq<byte>, i: nat, k: nat, ino2: Table, files2: seq<seq<byte>>)
    requires TreeInv(ino, files) && NewFile(ino, files, d, name, i, k, ino2, files2) && ino[d].typ == T_DIR && 0 < i && k != 0
    requires Lookup(files[d], CName(name)).None?
    ensures Counted(ino2, files2)
    ensures forall x :: Named(Maps(ino2, files2), x) ==
                        Named(Maps(ino, files), x) + (if x == i then 1 else 0) + (if k == T_DIR && x == d then 1 else 0)
  {
    hide TreeInv, Counted, Maps, Named, Lookup, CName, DirWell, Entered, NamesOnce, Dotted, DotsOf;
    TreeFacts(ino, files);
    CountedNlinks(ino, files);
    DirIsOnce(ino, files, d);
    DotTaken(d, files[d]);
    NewInodeCounted(ino, files, i, ino2);
    EnterKeeps(ino2, files, d, name, i);
    var files1 := files[d := Entered(files[d], name, i)];
    if k == T_DIR {
      DirInRange(ino, files, d);
      DotsCounted(ino2, files1, d, i);
    } else {
      assert files2 == files1;
    }
  }

  lemma DirInRange(ino: Table, files: seq<seq<byte>>, d: nat)
    requires TreeInv(ino, files) && d < |ino| && ino[d].typ == T_DIR
    ensures 0 < d < LIMIT16
  {
    TreeFacts(ino, files);
    DirIsOnce(ino, files, d);
  }

  lemma DotsCounted(ino: Table, files: seq<seq<byte>>, d: nat, i: nat)
    requires Counted(ino, files) && 0 < d < |ino| && 0 < i < |ino| && i != d && ino[i].typ == T_DIR && files[i] == []
    requires ino[d].typ != 0 && Named(Maps(ino, files), d) < ino[d].nlink
    ensures Counted(ino, files[i := DotsOf(i, d)]) && Counted(ino, files[i := Entered([], DotBuf(), i)])
    ensures forall x :: Named(Maps(ino, files[i := DotsOf(i, d)]), x) == Named(Maps(ino, files), x) + if x == d then 1 else 0
  {
    hide Counted, Maps, Named, Lookup, CName, DirWell, Entered, NamesOnce, Dotted, DotBuf, DotDotBuf;
    TreeSize(ino, files);
    DotCounted(ino, files, i);
    DotsAre(i, d);
    DotBufs();
    var one := files[i := Entered([], DotBuf(), i)];
    EnterKeeps(ino, one, i, DotDotBuf(), d);
    assert one[i := DotsOf(i, d)] == files[i := DotsOf(i, d)];
  }

  lemma DotCounted(ino: Table, files: seq<seq<byte>>, i: nat)
    requires Counted(ino, files) && 0 < i < |ino| && i < |files| && ino[i].typ == T_DIR && files[i] == []
    ensures IsDir([]) && Counted(ino, files[i := Entered([], DotBuf(), i)])
    ensures forall x :: Named(Maps(ino, files[i := Entered([], DotBuf(), i)]), x) == Named(Maps(ino, files), x)
  {
    hide Counted, Maps, Named, Lookup, CName, DirWell, Entered, NamesOnce, Dotted, DotBuf, DotDotBuf;
    TreeSize(ino, files);
    EmptyLookup();
    DotBufs();
    EnterKeeps(ino, files, i, DotBuf(), i);
  }

  lemma TreeSize(ino: Table, files: seq<seq<byte>>)
    requires Counted(ino, files)
    ensures |ino| == |files| <= LIMIT16
  {
  }

  lemma EmptyLookup()
    ensures forall m :: Lookup([], m) == None
  {
  }

  lemma NewFileElsewhere(ino: Table, files: seq<seq<byte>>, d: nat, name: seq<byte>, i: nat, k: nat, ino2: Table,
                         files2: seq<seq<byte>>, x: nat)
    requires NewFile(ino, files, d, name, i, k, ino2, files2) && NamesOnce(files[d]) && Lookup(files[d], CName(name)).None?
    requires 0 < i < LIMIT16 && 0 < d < LIMIT16 && x < |ino| && x != i
    ensures ino2[x].typ == ino[x].typ && (Dotted(x, files[x]) ==> Dotted(x, files2[x]))
    ensures forall m :: Lookup(files2[x], m) == if x == d && m == CName(name) then Some(i) else Lookup(files[x], m)
  {
    hide Lookup, Entered, NamesOnce, Dotted, CName, DotsOf;
    EnteredIs(d, files[d], name, i);
  }

  /** create keeps the tree sound, and adds only the new name and, for a directory, its dots. */
  lemma NewFileKeeps(ino: Table, files: seq<seq<byte>>, d: nat, name: seq<byte>, i: nat, k: nat, ino2: Table, files2: seq<seq<byte>>)
    requires TreeInv(ino, files) && NewFile(ino, files, d, name, i, k, ino2, files2) && ino[d].typ == T_DIR && 0 < i && k != 0
    requires Lookup(files[d], CName(name)).None?
    ensures TreeInv(ino2, files2) && Within(ino, files, ino2, files2) && Lookup(files2[d], CName(name)) == Some(i)
    ensures k == T_DIR ==> Lookup(files2[i], DOT) == Some(i) && Lookup(files2[i], DOTDOT) == Some(d)
  {
    hide Lookup, Entered, NamesOnce, Counted, Dotted, CName, DotsOf;
    TreeFacts(ino, files);
    TreeSize(ino, files);
    DirIsOnce(ino, files, d);
    DirInRange(ino, files, d);
    DotTaken(d, files[d]);
    NewFileCounted(ino, files, d, name, i, k, ino2, files2);
    if k == T_DIR { DotsAre(i, d); }
    forall x | 0 <= x < |ino2| && x != i
      ensures ino2[x].typ == ino[x].typ && (Dotted(x, files[x]) ==> Dotted(x, files2[x]))
      ensures forall m :: Lookup(files2[x], m) == if x == d && m == CName(name) then Some(i) else Lookup(files[x], m)
    {
      NewFileElsewhere(ino, files, d, name, i, k, ino2, files2, x);
    }
  }

  // Links that no entry uses

  /** How far nlink is above the number of entries that name the inode. */
  ghost function Spare(ino: Table, files: seq<seq<byte>>, x: nat): int
    requires |files| == |ino| && x < |ino|
  {
    ino[x].nlink - Named(Maps(ino, files), x)
  }

  /** link gives no inode a link to spare, and takes none. */
  lemma LinkSpares(ino: Table, files: seq<seq<byte>>, d: nat, name: seq<byte>, j: nat, ino2: Table, files2: seq<seq<byte>>, x: nat)
    requires TreeInv(ino, files) && NewName(ino, files, d, name, j, ino2, files2) && ino[d].typ == T_DIR
    requires 0 < j && ino[j].typ != 0 && ino[j].typ != T_DIR && Lookup(files[d], CName(name)).None? && x < |ino|
    ensures |files2| == |ino2| && Spare(ino2, files2, x) == Spare(ino, files, x)
  {
    hide Lookup, Counted, DirMap, Maps, Named, CName, Dotted, TreeInv, Entered, NamesOnce;
    TreeFacts(ino, files);
    LinkedKeeps(ino, files, d, name, j, ino2, files2);
    DirIsOnce(ino, files, d);
    DotTaken(d, files[d]);
    MapsAt(ino, files, d);
    DirMapIs(files[d], CName(name));
    NamedAdded(Maps(ino, files), d, CName(name), j, x);
  }

  /** Nor does create: the new inode has just its name, and the parent's new link is for "..". */
  lemma CreateSpares(ino: Table, files: seq<seq<byte>>, d: nat, name: seq<byte>, i: nat, k: nat, ino2: Table, files2: seq<seq<byte>>,
                     x: nat)
    requires TreeInv(ino, files) && NewFile(ino, files, d, name, i, k, ino2, files2) && ino[d].typ == T_DIR && 0 < i && k != 0
    requires Lookup(files[d], CName(name)).None? && x < |ino|
    ensures |files2| == |ino2| && Spare(ino2, files2, x) == if x == i then 0 else Spare(ino, files, x)
  {
    hide Lookup, Counted, DirMap, Maps, Named, CName, Dotted, TreeInv, Entered, NamesOnce, DotsOf;
    TreeFacts(ino, files);
    NewFileCounted(ino, files, d, name, i, k, ino2, files2);
    FreeUnnamed(ino, files, i);
  }

  /** The only name in an empty directory that counts is "..". */
  lemma EmptyDirNames(c: seq<byte>, x: nat)
    requires !HasNames(c)
    ensures CountIn(DirMap(c), x) == if Lookup(c, DOTDOT) == Some(x) then 1 else 0
  {
    var names := NamesFor(DirMap(c), x);
    var only: set<Name> := if Lookup(c, DOTDOT) == Some(x) then {DOTDOT} else {};
    hide Lookup, DirMap;
    forall nm ensures nm in names <==> nm in only {
      DirMapIs(c, nm);
    }
    assert names == only;
  }

  /** unlink, the same: except that when a directory goes, the link of its parent for ".." is not taken back. */
  lemma UnlinkSpares(ino: Table, files: seq<seq<byte>>, d: nat, nm: Name, gone: bool, ino2: Table, files2: seq<seq<byte>>, x: nat)
    requires TreeInv(ino, files) && d < |ino| && ino[d].typ == T_DIR && !Refuses(ino, files, d, nm)
    requires Unlinked(ino, files, d, nm, gone, ino2, files2) && x < |ino|
    ensures |files2| == |ino2| == |files|
    ensures var j := Lookup(files[d], nm).value;
            Spare(ino2, files2, x) ==
              Spare(ino, files, x) + if gone && ino[j].typ == T_DIR && Lookup(files[j], DOTDOT) == Some(x) then 1 else 0
  {
    hide Lookup, Cleared, NamesOnce, Counted, DirMap, Maps, Dotted, RootOk, Named, TreeInv, HasNames;
    TreeFacts(ino, files);
    UnlinkedKeeps(ino, files, d, nm, gone, ino2, files2);
    UnlinkedDiffer(ino, files, d, nm, gone, ino2, files2);
    var j := Lookup(files[d], nm).value;
    var maps := Maps(ino, files);
    MapsAt(ino, files, d);
    DirMapIs(files[d], nm);
    DroppedCount(maps, d, nm, x);
    if gone {
      var m: Entries := maps[d] - {nm};
      ErasedCount(maps[d := m], j, x);
      MapsElse(ino, files, j);
      if ino[j].typ == T_DIR { EmptyDirNames(files[j], x); }
    }
  }

  lemma DroppedCount(maps: seq<Entries>, d: nat, nm: Name, x: nat)
    requires d < |maps| && nm in maps[d] && nm != DOT
    ensures var m: Entries := maps[d] - {nm};
            Named(maps[d := m], x) == Named(maps, x) - if maps[d][nm] == x then 1 else 0
  {
    var m: Entries := maps[d] - {nm};
    NamedUpdate(maps, d, m, x);
    CountDrop(maps[d], nm, x);
  }

  lemma ErasedCount(maps: seq<Entries>, j: nat, x: nat)
    requires j < |maps|
    ensures Named(maps[j := map[]], x) == Named(maps, x) - CountIn(maps[j], x)
  {
    NamedUpdate(maps, j, map[], x);
    assert NamesFor(map[], x) == {};
  }

  lemma MapsElse(ino: Table, files: seq<seq<byte>>, j: nat)
    requires |files| == |ino| && j < |ino|
    ensures Maps(ino, files)[j] == if ino[j].typ == T_DIR then DirMap(files[j]) else map[]
    ensures forall x :: CountIn(map[], x) == 0
  {
    hide DirMap;
    forall x ensures CountIn(map[], x) == 0 { assert NamesFor(map[], x) == {}; }
  }

  /** No inode in use has a link to spare. */
  ghost predicate Exact(ino: Table, files: seq<seq<byte>>) {
    |files| == |ino| && forall x :: 0 <= x < |ino| && ino[x].typ != 0 ==> Spare(ino, files, x) == 0
  }

  /** Exact link counts stay exact through unlink if and only if it does not free a directory. */
  lemma UnlinkExactly(ino: Table, files: seq<seq<byte>>, d: nat, nm: Name, gone: bool, ino2: Table, files2: seq<seq<byte>>)
    requires TreeInv(ino, files) && d < |ino| && ino[d].typ == T_DIR && !Refuses(ino, files, d, nm)
    requires Unlinked(ino, files, d, nm, gone, ino2, files2) && Exact(ino, files)
    ensures var j := Lookup(files[d], nm).value; Exact(ino2, files2) <==> !(gone && ino[j].typ == T_DIR)
  {
    hide Lookup, Cleared, NamesOnce, Counted, DirMap, Maps, Dotted, RootOk, Named, TreeInv, HasNames, Spare;
    TreeFacts(ino, files);
    UnlinkSpares(ino, files, d, nm, gone, ino2, files2, 0);
    var j := Lookup(files[d], nm).value;
    forall x | 0 <= x < |ino|
      ensures Spare(ino2, files2, x) ==
                Spare(ino, files, x) + if gone && ino[j].typ == T_DIR && Lookup(files[j], DOTDOT) == Some(x) then 1 else 0
    {
      UnlinkSpares(ino, files, d, nm, gone, ino2, files2, x);
    }
    if gone && ino[j].typ == T_DIR {
      ParentOf(ino, files, j);
      UnlinkedKeeps(ino, files, d, nm, gone, ino2, files2);
      RootTyped(ino2, files2);
      assert Spare(ino2, files2, Lookup(files[j], DOTDOT).value) != 0;
    }
  }

  /** mkdir and then rmdir: the parent names what it named before, and has a link too many. */
  lemma MkdirThenRmdir(ino: Table, files: seq<seq<byte>>, d: nat, name: seq<byte>, i: nat, ino1: Table, files1: seq<seq<byte>>,
                       ino2: Table, files2: seq<seq<byte>>)
    requires TreeInv(ino, files) && NewFile(ino, files, d, name, i, T_DIR, ino1, files1) && ino[d].typ == T_DIR && 0 < i
    requires Lookup(files[d], CName(name)).None? && CName(name) != DOT && CName(name) != DOTDOT
    requires Unlinked(ino1, files1, d, CName(name), true, ino2, files2)
    ensures |files2| == |ino2| == |ino| && Spare(ino2, files2, d) == Spare(ino, files, d) + 1
  {
    hide TreeInv, Lookup, CName, Spare, Entered, Cleared, NamesOnce, DotsOf;
    TreeFacts(ino, files);
    TreeSize(ino, files);
    DirInRange(ino, files, d);
    NewFileKeeps(ino, files, d, name, i, T_DIR, ino1, files1);
    CreateSpares(ino, files, d, name, i, T_DIR, ino1, files1, d);
    assert !HasNames(files1[i]) by { DotsAre(i, d); }
    UnlinkSpares(ino1, files1, d, CName(name), true, ino2, files2, d);
  }

  lemma RootTyped(ino: Table, files: seq<seq<byte>>)
    requires TreeInv(ino, files)
    ensures ROOT < |ino| && ino[ROOT].typ == T_DIR
  {
  }

  /** A directory's parent is another directory in use, but for the root. */
  lemma ParentOf(ino: Table, files: seq<seq<byte>>, j: nat)
    requires TreeInv(ino, files) && j < |ino| && ino[j].typ == T_DIR
    ensures Lookup(files[j], DOTDOT).Some? && Lookup(files[j], DOTDOT).value < |ino|
    ensures ino[Lookup(files[j], DOTDOT).value].typ != 0 && (j != ROOT ==> Lookup(files[j], DOTDOT).value != j)
  {
    TreeFacts(ino, files);
    DirIsOnce(ino, files, j);
    DotTaken(j, files[j]);
    MapsAt(ino, files, j);
    hide Lookup, Counted, TreeInv, Maps, NamesOnce;
  }
}
