/** Path names: skipelem, and what namei and nameiparent mean (xv6/fs.c:532-619). */
module FsPaths {
  import opened Options
  import opened FsBytes
  import opened FsDisk
  import opened FsFiles
  import opened FsDirs

  const SLASH: byte := 47

  /** The path behind its leading slashes. */
  function Strip(path: seq<byte>): (r: seq<byte>)
    ensures |r| <= |path| && (r != [] ==> r[0] != SLASH)
  {
    if path != [] && path[0] == SLASH then Strip(path[1..]) else path
  }

  /** How long the element is that the path starts with. */
  function ElemLen(path: seq<byte>): (n: nat)
    ensures n <= |path| && SLASH !in path[..n] && (n < |path| ==> path[n] == SLASH)
    ensures path != [] && path[0] != SLASH ==> 0 < n
  {
    if path == [] || path[0] == SLASH then 0
    else
      var n := ElemLen(path[1..]);
      assert path[..n + 1] == [path[0]] + path[1..][..n];
      n + 1
  }

  function Cut(elem: seq<byte>): (r: Name)
    ensures |r| <= DIRSIZ
  {
    if DIRSIZ <= |elem| then elem[..DIRSIZ] else elem
  }

  /** The elements of a path, each cut to DIRSIZ bytes. */
  function Components(path: seq<byte>): seq<Name>
    decreases |path|
  {
    var p := Strip(path);
    if p == [] then [] else [Cut(p[..ElemLen(p)])] + Components(p[ElemLen(p)..])
  }

  lemma {:induction false} StripTwice(path: seq<byte>)
    ensures Strip(Strip(path)) == Strip(path) && Components(Strip(path)) == Components(path)
  {
    if path != [] && path[0] == SLASH { StripTwice(path[1..]); }
  }

  /** Slashes in front do not matter. */
  lemma {:induction false} LeadingSlashes(n: nat, path: seq<byte>)
    ensures Components(seq(n, _ => SLASH) + path) == Components(path)
  {
    if n == 0 {
      assert seq(n, _ => SLASH) + path == path;
    } else {
      var p := seq(n, _ => SLASH) + path;
      assert p[0] == SLASH && p[1..] == seq(n - 1, _ => SLASH) + path;
      LeadingSlashes(n - 1, path);
      StripTwice(p);
      StripTwice(p[1..]);
    }
  }

  // A path is a list of elements with slashes between them, at least one.

  ghost predicate Elements(names: seq<seq<byte>>) {
    forall k :: 0 <= k < |names| ==> names[k] != [] && SLASH !in names[k]
  }

  /** Writes a path out: slashes[k] slashes in front of element k, slashes[|names|] at the end. */
  function Render(names: seq<seq<byte>>, slashes: seq<nat>): seq<byte>
    requires |slashes| == |names| + 1
  {
    if names == [] then seq(slashes[0], _ => SLASH)
    else seq(slashes[0], _ => SLASH) + names[0] + Render(names[1..], slashes[1..])
  }

  lemma {:induction false} ElemLenIs(name: seq<byte>, rest: seq<byte>)
    requires SLASH !in name && (rest != [] ==> rest[0] == SLASH)
    ensures ElemLen(name + rest) == |name|
  {
    if name == [] {
      assert name + rest == rest;
    } else {
      assert (name + rest)[1..] == name[1..] + rest;
      ElemLenIs(name[1..], rest);
    }
  }

  /** Whatever the number of slashes, the elements come back in order: each in full if it has at most 14 bytes, and
      otherwise its first 14. */
  lemma {:induction false} ComponentsOfRendered(names: seq<seq<byte>>, slashes: seq<nat>)
    requires |slashes| == |names| + 1 && Elements(names)
    requires forall k :: 0 < k < |names| ==> 0 < slashes[k]
    ensures |Components(Render(names, slashes))| == |names|
    ensures forall k :: 0 <= k < |names| ==> Components(Render(names, slashes))[k] <= names[k]
    ensures forall k :: 0 <= k < |names| ==>
              |Components(Render(names, slashes))[k]| == if |names[k]| <= 14 then |names[k]| else 14
  {
    if names == [] {
      LeadingSlashes(slashes[0], []);
      assert seq(slashes[0], _ => SLASH) + [] == Render(names, slashes);
    } else {
      var tail := Render(names[1..], slashes[1..]);
      assert forall k :: 0 <= k < |names[1..]| ==> names[1..][k] == names[k + 1];
      ComponentsOfRendered(names[1..], slashes[1..]);
      FirstOfRendered(names, slashes);
      hide Components, Render;
      forall k | 0 < k < |names|
        ensures Components(Render(names, slashes))[k] == Components(tail)[k - 1] && names[k] == names[1..][k - 1]
      {
      }
    }
  }

  lemma FirstOfRendered(names: seq<seq<byte>>, slashes: seq<nat>)
    requires names != [] && |slashes| == |names| + 1 && Elements(names) && (1 < |names| ==> 0 < slashes[1])
    ensures Components(Render(names, slashes)) == [Cut(names[0])] + Components(Render(names[1..], slashes[1..]))
  {
    var tail := Render(names[1..], slashes[1..]);
    assert Render(names, slashes) == seq(slashes[0], _ => SLASH) + (names[0] + tail);
    LeadingSlashes(slashes[0], names[0] + tail);
    RenderStarts(names[1..], slashes[1..]);
    ElemLenIs(names[0], tail);
    var p := names[0] + tail;
    assert Strip(p) == p && p[..|names[0]|] == names[0] && p[|names[0]|..] == tail;
  }

  /** Components undoes Render if no element is longer than 14 bytes. */
  lemma ShortNamesComeBack(names: seq<seq<byte>>, slashes: seq<nat>)
    requires |slashes| == |names| + 1 && Elements(names)
    requires forall k :: 0 < k < |names| ==> 0 < slashes[k]
    requires forall k :: 0 <= k < |names| ==> |names[k]| <= 14
    ensures Components(Render(names, slashes)) == names
  {
    ComponentsOfRendered(names, slashes);
    var c := Components(Render(names, slashes));
    hide Components, Render;
    forall k | 0 <= k < |names| ensures c[k] == names[k] {}
  }

  lemma RenderStarts(names: seq<seq<byte>>, slashes: seq<nat>)
    requires |slashes| == |names| + 1 && (names != [] ==> 0 < slashes[0])
    ensures Render(names, slashes) != [] ==> Render(names, slashes)[0] == SLASH
  {
  }

  // What a path means

  /** Every used directory entry names an inode that is in use, and has a link unless it is the directory itself: an
      unlinked directory that somebody still refers to keeps its ".". */
  ghost predicate DirsOk(ino: Table, files: seq<seq<byte>>) {
    && |files| == |ino|
    && forall i :: 0 <= i < |ino| && ino[i].typ == T_DIR ==> DirOk(ino, i, files[i])
  }

  ghost predicate DirOk(ino: Table, i: nat, c: seq<byte>) {
    && IsDir(c)
    && forall e :: 0 <= e < Count(c) && InumAt(c, e) != 0 ==>
         InumAt(c, e) < |ino| && ino[InumAt(c, e)].typ != 0 && (ino[InumAt(c, e)].nlink != 0 || InumAt(c, e) == i)
  }

  /** The inode reached from i by following names, one directory at a time. */
  ghost function Resolve(ino: Table, files: seq<seq<byte>>, i: nat, names: seq<Name>): Option<nat>
    requires DirsOk(ino, files) && i < |ino|
    decreases |names|
  {
    if names == [] then Some(i)
    else if ino[i].typ != T_DIR then None
    else match Lookup(files[i], names[0])
      case None => None
      case Some(j) => Resolve(ino, files, j, names[1..])
  }

  /** nameiparent: the directory that should hold the last element. */
  ghost function ResolveParent(ino: Table, files: seq<seq<byte>>, i: nat, names: seq<Name>): Option<nat>
    requires DirsOk(ino, files) && i < |ino|
    decreases |names|
  {
    if names == [] || ino[i].typ != T_DIR then None
    else if |names| == 1 then Some(i)
    else match Lookup(files[i], names[0])
      case None => None
      case Some(j) => ResolveParent(ino, files, j, names[1..])
  }

  /** nameiparent is namei of all but the last element, if that is a directory. */
  lemma {:induction false} ParentIsPrefix(ino: Table, files: seq<seq<byte>>, i: nat, names: seq<Name>)
    requires DirsOk(ino, files) && i < |ino| && names != []
    ensures ResolveParent(ino, files, i, names) ==
              match Resolve(ino, files, i, names[..|names| - 1])
              case Some(p) => if p < |ino| && ino[p].typ == T_DIR then Some(p) else None
              case None => None
    decreases |names|
  {
    if 1 < |names| && ino[i].typ == T_DIR {
      var init := names[..|names| - 1];
      assert init[0] == names[0] && init[1..] == names[1..][..|names[1..]| - 1];
      match Lookup(files[i], names[0])
      case None =>
      case Some(j) => ParentIsPrefix(ino, files, j, names[1..]);
    }
  }

  /** A successful nameiparent followed by dirlookup is namei. */
  lemma {:induction false} ParentThenLookup(ino: Table, files: seq<seq<byte>>, i: nat, names: seq<Name>)
    requires DirsOk(ino, files) && i < |ino| && names != []
    ensures match ResolveParent(ino, files, i, names)
            case Some(p) => p < |ino| && Resolve(ino, files, i, names) == Lookup(files[p], names[|names| - 1])
            case None => Resolve(ino, files, i, names) == None
    decreases |names|
  {
    if ino[i].typ == T_DIR {
      if |names| == 1 {
        match Lookup(files[i], names[0])
        case None =>
        case Some(j) => assert Resolve(ino, files, j, names[1..]) == Some(j);
      } else {
        match Lookup(files[i], names[0])
        case None =>
        case Some(j) => ParentThenLookup(ino, files, j, names[1..]);
      }
    }
  }

  /** Following a path can be cut in two anywhere. */
  lemma {:induction false} ResolveAppend(ino: Table, files: seq<seq<byte>>, i: nat, a: seq<Name>, b: seq<Name>)
    requires DirsOk(ino, files) && i < |ino|
    ensures Resolve(ino, files, i, a + b) ==
              match Resolve(ino, files, i, a)
              case Some(j) => if j < |ino| then Resolve(ino, files, j, b) else None
              case None => None
    decreases |a|
  {
    if a == [] {
      assert a + b == b;
    } else {
      assert (a + b)[0] == a[0] && (a + b)[1..] == a[1..] + b;
      if ino[i].typ == T_DIR {
        match Lookup(files[i], a[0])
        case None =>
        case Some(j) => ResolveAppend(ino, files, j, a[1..], b);
      }
    }
  }

  // skipelem

  /** What skipelem returns: the next element and the path after it, without leading slashes. */
  function NextElem(path: seq<byte>): Option<(Name, seq<byte>)> {
    var p := Strip(path);
    if p == [] then None else Some((Cut(p[..ElemLen(p)]), Strip(p[ElemLen(p)..])))
  }

  /** Iterating skipelem yields the components of the path; an empty rest means the element was the last. */
  lemma NextElemIsHead(path: seq<byte>)
    ensures match NextElem(path)
            case None => Components(path) == []
            case Some((elem, rest)) =>
              && Components(path) == [elem] + Components(rest) && |rest| < |path|
              && (rest == [] <==> Components(rest) == [])
  {
    var p := Strip(path);
    StripTwice(path);
    if p != [] {
      StripTwice(p[ElemLen(p)..]);
      var rest := Strip(p[ElemLen(p)..]);
      assert Strip(rest) == rest;
    }
  }

  lemma {:induction false} StripFrom(path: seq<byte>, k: nat)
    requires k <= |path| && (forall j :: 0 <= j < k ==> path[j] == SLASH) && (k < |path| ==> path[k] != SLASH)
    ensures Strip(path) == path[k..]
  {
    if k != 0 {
      assert forall j :: 0 <= j < k - 1 ==> path[1..][j] == path[j + 1];
      StripFrom(path[1..], k - 1);
      assert path[1..][k - 1..] == path[k..];
    }
  }

  lemma ElemLenFrom(path: seq<byte>, n: nat)
    requires n <= |path| && SLASH !in path[..n] && (n < |path| ==> path[n] == SLASH)
    ensures ElemLen(path) == n
  {
    assert path == path[..n] + path[n..];
    ElemLenIs(path[..n], path[n..]);
  }

  /** The buffer skipelem leaves: the element, ended by a NUL if there is room for one. */
  function NameBuffer(elem: seq<byte>, name: seq<byte>): (r: seq<byte>)
    requires |name| == DIRSIZ
    ensures |r| == DIRSIZ
  {
    if DIRSIZ <= |elem| then elem[..DIRSIZ] else elem + [0] + name[|elem| + 1..]
  }

  lemma NameBufferHolds(elem: seq<byte>, name: seq<byte>)
    requires |name| == DIRSIZ && 0 !in elem
    ensures CName(NameBuffer(elem, name)) == Cut(elem)
  {
    if DIRSIZ <= |elem| {
      assert 0 !in elem[..DIRSIZ];
      CNameWhole(elem[..DIRSIZ]);
    } else {
      CNameEnds(elem, name[|elem| + 1..]);
    }
  }

  lemma CutIsPrefix(p: seq<byte>, n: nat)
    requires n <= |p|
    ensures Cut(p[..n]) <= p && |Cut(p[..n])| == if n <= 14 then n else 14
  {
  }

  /** skipelem.  The path is a C string, so it has no NUL inside; name is a buffer of DIRSIZ bytes. */
  method Skipelem(path: seq<byte>, name: seq<byte>) returns (r: Option<seq<byte>>, buf: seq<byte>)
    requires 0 !in path && |name| == DIRSIZ
    ensures |buf| == DIRSIZ && (r.None? <==> NextElem(path).None?)
    ensures r.Some? ==> r.value == NextElem(path).value.1 && CName(buf) == NextElem(path).value.0
    ensures r.Some? ==>
              && CName(buf) <= Strip(path)
              && |CName(buf)| == if ElemLen(Strip(path)) <= 14 then ElemLen(Strip(path)) else 14
    ensures r.Some? ==> 0 !in r.value && |r.value| < |path|
    ensures r.None? ==> buf == name
  {
    hide CName, Components, Strip, ElemLen, Cut, NameBuffer;
    var k := SkipSlashes(path);
    var p := path[k..];
    if p == [] { return None, name; }
    var n := SkipName(p);
    var rest := p[n..];
    NoNul(path, k);
    NoNul(p, n);
    NameBufferHolds(p[..n], name);
    CutIsPrefix(p, n);
    var m := SkipSlashes(rest);
    NoNul(rest, m);
    return Some(rest[m..]), NameBuffer(p[..n], name);
  }

  lemma NoNul(s: seq<byte>, k: nat)
    requires 0 !in s && k <= |s|
    ensures 0 !in s[k..] && 0 !in s[..k]
  {
  }

  /** skipelem's loops over slashes. */
  method SkipSlashes(path: seq<byte>) returns (k: nat)
    ensures k <= |path| && path[k..] == Strip(path)
  {
    k := 0;
    while k < |path| && path[k] == SLASH
      invariant 0 <= k <= |path| && forall j :: 0 <= j < k ==> path[j] == SLASH
    {
      k := k + 1;
    }
    StripFrom(path, k);
  }

  /** skipelem's loop over an element. */
  method SkipName(p: seq<byte>) returns (n: nat)
    ensures n == ElemLen(p)
  {
    n := 0;
    while n < |p| && p[n] != SLASH
      invariant 0 <= n <= |p| && SLASH !in p[..n]
    {
      n := n + 1;
    }
    ElemLenFrom(p, n);
  }

  lemma {:induction false} CNameWhole(s: seq<byte>)
    requires 0 !in s
    ensures CName(s) == s
  {
    if s != [] {
      CNameWhole(s[1..]);
      assert s == [s[0]] + s[1..];
    }
  }

  lemma {:induction false} CNameEnds(s: seq<byte>, rest: seq<byte>)
    requires 0 !in s
    ensures CName(s + [0] + rest) == s
  {
    if s == [] {
      assert s + [0] + rest == [0] + rest;
    } else {
      assert (s + [0] + rest)[1..] == s[1..] + [0] + rest;
      CNameEnds(s[1..], rest);
      assert s == [s[0]] + s[1..];
    }
  }
}
