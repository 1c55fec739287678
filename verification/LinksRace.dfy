/** A run of Links in which an iput and an ialloc meet (xv6/fs.c:233-255, xv6/fs.c:264-286): one process
    unlinks the only name of a file and frees it while another creates the same name.

    iput stores type 0 before it gives its reference up, so that ialloc can take the inode, and its iget find it,
    with the type 0 that iput left in the cached copy.
 */
module LinksRace {
  import opened Options
  import opened FsDisk
  import opened FsDirs
  import opened Counting
  import opened Links

  /** Inode 1 is the root and inode 2 the file. */
  const FILE: nat := 2

  function Names(nm: Name, there: bool): Entries {
    if there then map[DOT := ROOT, DOTDOT := ROOT][nm := FILE] else map[DOT := ROOT, DOTDOT := ROOT]
  }

  /** The file: its type in core and on disk, nlink in core, and whether it has its name. */
  predicate File(s: State, nm: Name, typ: nat, stored: nat, core: nat, there: bool) {
    && |s.typ| == |s.stored| == |s.core| == |s.disk| == |s.spare| == |s.dirs| == 3 && s.typ[ROOT] == T_DIR
    && s.typ[FILE] == typ && s.stored[FILE] == stored && s.core[FILE] == core && s.dirs[ROOT] == Names(nm, there)
  }

  /** Its reference count, whether its cached copy is valid, and the locks of the root and of the file. */
  predicate Cached(s: State, ref: nat, valid: bool, root: Option<nat>, file: Option<nat>) {
    && |s.ref| == |s.valid| == |s.lock| == 3 && s.ref[FILE] == ref && s.valid[FILE] == valid && s.lock[ROOT] == root && s.lock[FILE] == file
  }

  predicate Is(q: Proc, base: multiset<nat>, op: Op, free: Freeing) {
    q.base == base && q.walk == None && q.op == op && q.free == free
  }

  /** The two processes. */
  predicate Are(s: State, b1: multiset<nat>, op1: Op, f1: Freeing, b2: multiset<nat>, op2: Op) {
    |s.procs| == 2 && Is(s.procs[0], b1, op1, f1) && Is(s.procs[1], b2, op2, NotFreeing)
  }

  const ONLY: multiset<nat> := multiset{ROOT}
  const NONE: multiset<nat> := multiset{}

  /** A run that ends in s. */
  ghost predicate Reached(ss: seq<State>, es: seq<Event>, s: State) { Run(ss, es) && ss[|es|] == s && Sizes(s) }

  lemma Extend(states: seq<State>, events: seq<Event>, s: State, t: State, e: Event) returns (ss: seq<State>, es: seq<Event>)
    requires Reached(states, events, s) && StepOf(s, t, e) && Sizes(t)
    ensures Reached(ss, es, t) && |es| == |events| + 1 && |ss| == |es| + 1 && ss[|events|] == s && es[|events|] == e
    ensures ss[|es|] == t
  {
    hide StepOf, Init;
    ss, es := states + [t], events + [e];
    forall k | 0 <= k < |es| ensures StepOf(ss[k], ss[k + 1], es[k]) {
      if k < |events| { assert StepOf(states[k], states[k + 1], events[k]); }
    }
  }

  lemma Few(nm: Name, i: nat)
    requires nm != DOT && nm != DOTDOT && i < 3
    ensures Named([map[], Names(nm, true), map[]], i) == if i == 0 then 0 else 1
  {
    var none: Entries := map[];
    assert CountIn(none, i) == 0;
    CountPut(none, DOT, ROOT, i);
    CountPut(none[DOT := ROOT], DOTDOT, ROOT, i);
    CountPut(Names(nm, false), nm, FILE, i);
    assert none[DOT := ROOT][DOTDOT := ROOT] == Names(nm, false);
    var dirs := [map[], Names(nm, true), map[]];
    assert seq(3, d requires 0 <= d < 3 => CountIn(dirs[d], i)) == [0, CountIn(Names(nm, true), i), 0];
    SumOne([0, CountIn(Names(nm, true), i), 0], 1);
  }

  /** The file has one name, and nobody refers to it. */
  lemma Start(nm: Name) returns (s: State)
    requires nm != DOT && nm != DOTDOT
    ensures Init(s) && File(s, nm, T_FILE, T_FILE, 1, true) && Cached(s, 0, false, None, None)
    ensures Are(s, NONE, Idle, NotFreeing, NONE, Idle)
  {
    var dirs := [map[], Names(nm, true), map[]];
    var idle := Proc(multiset{}, None, Idle, NotFreeing);
    s := State([0, T_DIR, T_FILE], [0, T_DIR, T_FILE], [0, 1, 1], [0, 1, 1], [0, 0, 0], dirs, [0, 0, 0], [false, false, false],
               [None, None, None], [idle, idle]);
    assert Sizes(s);
    forall i | 0 <= i < 3 ensures Named(s.dirs, i) + s.spare[i] == s.core[i] { Few(nm, i); }
    forall d | 0 <= d < 3 ensures DirAt(s, d) {}
  }

  /** The first process locks the root. */
  lemma Starts(nm: Name) returns (ss: seq<State>, es: seq<Event>, s: State)
    requires nm != DOT && nm != DOTDOT
    ensures Reached(ss, es, s) && File(s, nm, T_FILE, T_FILE, 1, true) && Cached(s, 0, false, Some(0), None)
    ensures Are(s, NONE, UnlinkDir(ROOT), NotFreeing, NONE, Idle)
  {
    hide Init;
    s := Start(nm);
    ss, es := [s], [];
    assert Reached(ss, es, s);
    hide Reached, NextCreate;
    var t: State;
    t := SetProc(AddRef(s, ROOT), 0, Given(s.procs[0], ROOT));
    assert Are(t, ONLY, Idle, NotFreeing, NONE, Idle);
    ss, es := Extend(ss, es, s, t, Event(0, GetRoot));
    s := t;
    t := SetProc(Take(s, ROOT, 0), 0, Kept(s.procs[0], ROOT).(op := UnlinkDir(ROOT)));
    assert Are(t, NONE, UnlinkDir(ROOT), NotFreeing, NONE, Idle);
    ss, es := Extend(ss, es, s, t, Event(0, UnlinkLock(ROOT)));
    s := t;
  }

  /** It finds the file, and locks it. */
  lemma Finds(nm: Name) returns (ss: seq<State>, es: seq<Event>, s: State)
    requires nm != DOT && nm != DOTDOT
    ensures Reached(ss, es, s) && File(s, nm, T_FILE, T_FILE, 1, true) && Cached(s, 1, true, Some(0), Some(0))
    ensures Are(s, NONE, UnlinkBoth(ROOT, nm, FILE), NotFreeing, NONE, Idle)
  {
    hide Reached, Init, NextCreate;
    ss, es, s := Starts(nm);
    var t: State;
    t := SetProc(AddRef(s, FILE), 0, s.procs[0].(op := UnlinkFound(ROOT, nm, FILE)));
    ss, es := Extend(ss, es, s, t, Event(0, UnlinkFind(nm)));
    s := t;
    t := SetProc(Take(s, FILE, 0), 0, s.procs[0].(op := UnlinkBoth(ROOT, nm, FILE)));
    ss, es := Extend(ss, es, s, t, Event(0, UnlinkIpLock));
    s := t;
  }

  /** It clears the name. */
  lemma Clears(nm: Name) returns (ss: seq<State>, es: seq<Event>, s: State)
    requires nm != DOT && nm != DOTDOT
    ensures Reached(ss, es, s) && File(s, nm, T_FILE, T_FILE, 1, false) && Cached(s, 1, true, Some(0), Some(0))
    ensures Are(s, NONE, UnlinkGone(ROOT, FILE), NotFreeing, NONE, Idle)
  {
    hide Reached, Init, NextCreate;
    ss, es, s := Finds(nm);
    var t: State;
    var m: Entries := s.dirs[ROOT] - {nm};
    assert m == Names(nm, false);
    t := SetProc(s.(dirs := s.dirs[ROOT := m]), 0, s.procs[0].(op := UnlinkGone(ROOT, FILE)));
    ss, es := Extend(ss, es, s, t, Event(0, UnlinkClear));
    s := t;
  }

  /** It unlocks the root. */
  lemma Leaves(nm: Name) returns (ss: seq<State>, es: seq<Event>, s: State)
    requires nm != DOT && nm != DOTDOT
    ensures Reached(ss, es, s) && File(s, nm, T_FILE, T_FILE, 1, false) && Cached(s, 1, true, None, Some(0))
    ensures Are(s, ONLY, Owed(FILE), NotFreeing, NONE, Idle)
  {
    hide Reached, Init, NextCreate;
    ss, es, s := Clears(nm);
    var t: State;
    t := SetProc(Release(s, ROOT), 0, Given(s.procs[0], ROOT).(op := Owed(FILE)));
    assert Are(t, ONLY, Owed(FILE), NotFreeing, NONE, Idle);
    ss, es := Extend(ss, es, s, t, Event(0, UnlinkParent));
    s := t;
  }

  /** It lowers nlink to 0. */
  lemma Lowers(nm: Name) returns (ss: seq<State>, es: seq<Event>, s: State)
    requires nm != DOT && nm != DOTDOT
    ensures Reached(ss, es, s) && File(s, nm, T_FILE, T_FILE, 0, false) && Cached(s, 1, true, None, Some(0))
    ensures Are(s, ONLY, Lowered(FILE), NotFreeing, NONE, Idle)
  {
    hide Reached, Init, NextCreate;
    ss, es, s := Leaves(nm);
    var t: State;
    t := SetProc(Drop(s, FILE), 0, s.procs[0].(op := Lowered(FILE)));
    ss, es := Extend(ss, es, s, t, Event(0, Lower));
    s := t;
  }

  /** It stores that. */
  lemma Writes(nm: Name) returns (ss: seq<State>, es: seq<Event>, s: State)
    requires nm != DOT && nm != DOTDOT
    ensures Reached(ss, es, s) && File(s, nm, T_FILE, T_FILE, 0, false) && Cached(s, 1, true, None, Some(0))
    ensures Are(s, ONLY, Done(FILE), NotFreeing, NONE, Idle)
  {
    hide Reached, Init, NextCreate;
    ss, es, s := Lowers(nm);
    var t: State;
    t := SetProc(Iupdate(s, FILE), 0, s.procs[0].(op := Done(FILE)));
    ss, es := Extend(ss, es, s, t, Event(0, Store));
    s := t;
  }

  /** It unlocks the file, and iput sets I_BUSY. */
  lemma Puts(nm: Name) returns (ss: seq<State>, es: seq<Event>, s: State)
    requires nm != DOT && nm != DOTDOT
    ensures Reached(ss, es, s) && File(s, nm, T_FILE, T_FILE, 0, false) && Cached(s, 1, true, None, Some(0))
    ensures Are(s, ONLY, Idle, Busy(FILE), NONE, Idle)
  {
    hide Reached, Init, NextCreate;
    ss, es, s := Writes(nm);
    var t: State;
    t := SetProc(Release(s, FILE), 0, Given(s.procs[0], FILE).(op := Idle));
    assert Are(t, multiset{ROOT, FILE}, Idle, NotFreeing, NONE, Idle);
    ss, es := Extend(ss, es, s, t, Event(0, Finish));
    s := t;
    t := SetProc(Take(s, FILE, 0), 0, Kept(s.procs[0], FILE).(free := Busy(FILE)));
    assert Are(t, ONLY, Idle, Busy(FILE), NONE, Idle);
    ss, es := Extend(ss, es, s, t, Event(0, FreeStart(FILE)));
    s := t;
  }

  /** iput stores type 0, and the second process comes to the root. */
  lemma Erases(nm: Name) returns (ss: seq<State>, es: seq<Event>, s: State)
    requires nm != DOT && nm != DOTDOT
    ensures Reached(ss, es, s) && File(s, nm, 0, 0, 0, false) && Cached(s, 1, true, None, Some(0))
    ensures Are(s, ONLY, Idle, Gone(FILE), ONLY, Idle)
  {
    hide Reached, Init, NextCreate;
    ss, es, s := Puts(nm);
    var t: State;
    t := SetProc(Erase(s, FILE), 0, s.procs[0].(free := Gone(FILE)));
    ss, es := Extend(ss, es, s, t, Event(0, FreeStore));
    s := t;
    t := SetProc(AddRef(s, ROOT), 1, Given(s.procs[1], ROOT));
    assert Are(t, ONLY, Idle, Gone(FILE), ONLY, Idle);
    ss, es := Extend(ss, es, s, t, Event(1, GetRoot));
    s := t;
  }

  /** Its create locks the root, and ialloc takes the inode. */
  lemma Takes(nm: Name) returns (ss: seq<State>, es: seq<Event>, s: State)
    requires nm != DOT && nm != DOTDOT
    ensures Reached(ss, es, s) && File(s, nm, 0, T_FILE, 0, false) && Cached(s, 1, true, Some(1), Some(0))
    ensures Are(s, ONLY, Idle, Gone(FILE), NONE, CreateTook(ROOT, FILE, T_FILE))
  {
    hide Reached, Init;
    ss, es, s := Erases(nm);
    var t: State;
    t := SetProc(Take(s, ROOT, 1), 1, Kept(s.procs[1], ROOT).(op := CreateDir(ROOT, T_FILE)));
    assert Are(t, ONLY, Idle, Gone(FILE), NONE, CreateDir(ROOT, T_FILE));
    ss, es := Extend(ss, es, s, t, Event(1, CreateLock(ROOT, T_FILE)));
    s := t;
    t := SetProc(s.(stored := s.stored[FILE := T_FILE], disk := s.disk[FILE := 0]), 1, s.procs[1].(op := CreateTook(ROOT, FILE, T_FILE)));
    ss, es := Extend(ss, es, s, t, Event(1, CreateTake(FILE)));
    s := t;
  }

  /** iget finds it in the cache, where iput has left type 0. */
  lemma Meets(nm: Name) returns (ss: seq<State>, es: seq<Event>, s: State)
    requires nm != DOT && nm != DOTDOT
    ensures Reached(ss, es, s) && File(s, nm, 0, T_FILE, 0, false) && Cached(s, 2, true, Some(1), Some(0))
    ensures Are(s, ONLY, Idle, Gone(FILE), NONE, CreateGot(ROOT, FILE, T_FILE))
    ensures 0 < |es| < |ss| && Collides(ss[|es| - 1], es[|es| - 1])
  {
    hide Reached, Init;
    ss, es, s := Takes(nm);
    var t := SetProc(AddRef(s, FILE), 1, s.procs[1].(op := CreateGot(ROOT, FILE, T_FILE)));
    assert Collides(s, Event(1, CreateGet));
    ss, es := Extend(ss, es, s, t, Event(1, CreateGet));
    s := t;
  }

  /** The first process gives up its reference. */
  lemma Ends(nm: Name) returns (ss: seq<State>, es: seq<Event>, s: State)
    requires nm != DOT && nm != DOTDOT
    ensures Reached(ss, es, s) && File(s, nm, 0, T_FILE, 0, false) && Cached(s, 1, true, Some(1), None)
    ensures Are(s, ONLY, Idle, NotFreeing, NONE, CreateGot(ROOT, FILE, T_FILE))
  {
    hide Reached, Init, NextCreate;
    ss, es, s := Meets(nm);
    var t: State;
    t := SetProc(Unref(Release(s, FILE), FILE), 0, s.procs[0].(free := NotFreeing));
    ss, es := Extend(ss, es, s, t, Event(0, FreeEnd));
    s := t;
  }

  /** ilock does not read the disk again. */
  lemma Relocks(nm: Name) returns (ss: seq<State>, es: seq<Event>, s: State)
    requires nm != DOT && nm != DOTDOT
    ensures Reached(ss, es, s) && File(s, nm, 0, T_FILE, 0, false) && Cached(s, 1, true, Some(1), Some(1))
    ensures Are(s, ONLY, Idle, NotFreeing, NONE, CreateLocked(ROOT, FILE, T_FILE))
  {
    hide Reached, Init;
    ss, es, s := Ends(nm);
    var t: State;
    t := SetProc(Take(s, FILE, 1), 1, s.procs[1].(op := CreateLocked(ROOT, FILE, T_FILE)));
    ss, es := Extend(ss, es, s, t, Event(1, CreateIlock));
    s := t;
  }

  /** create sets nlink. */
  lemma Raises(nm: Name) returns (ss: seq<State>, es: seq<Event>, s: State)
    requires nm != DOT && nm != DOTDOT
    ensures Reached(ss, es, s) && File(s, nm, 0, T_FILE, 1, false) && Cached(s, 1, true, Some(1), Some(1))
    ensures Are(s, ONLY, Idle, NotFreeing, NONE, CreateRaised(ROOT, FILE, T_FILE))
  {
    hide Reached, Init;
    ss, es, s := Relocks(nm);
    var t: State;
    t := SetProc(s.(core := s.core[FILE := 1]), 1, s.procs[1].(op := CreateRaised(ROOT, FILE, T_FILE)));
    ss, es := Extend(ss, es, s, t, Event(1, CreateRaise));
    s := t;
  }

  /** iupdate writes type 0 back. */
  lemma Stores(nm: Name) returns (ss: seq<State>, es: seq<Event>, s: State)
    requires nm != DOT && nm != DOTDOT
    ensures Reached(ss, es, s) && File(s, nm, 0, 0, 1, false) && Cached(s, 1, true, Some(1), Some(1))
    ensures Are(s, ONLY, Idle, NotFreeing, NONE, CreateStored(ROOT, FILE, T_FILE))
  {
    hide Reached, Init;
    ss, es, s := Raises(nm);
    var t: State;
    t := SetProc(Iupdate(s, FILE), 1, s.procs[1].(op := CreateStored(ROOT, FILE, T_FILE)));
    ss, es := Extend(ss, es, s, t, Event(1, CreateStore));
    s := t;
  }

  /** The new name names an inode that is free: the next ialloc will take it again. */
  lemma NamesFree(nm: Name) returns (ss: seq<State>, es: seq<Event>, s: State)
    requires nm != DOT && nm != DOTDOT
    ensures Run(ss, es) && |ss| == |es| + 1 && s == ss[|es|] && Sizes(s) && !Safe(s)
    ensures nm in s.dirs[ROOT] && s.dirs[ROOT][nm] == FILE < NInodes(s) && s.typ[FILE] == 0 == s.stored[FILE]
  {
    hide Init, Run, Safe;
    ss, es, s := Stores(nm);
    var t := SetProc(AddName(s, ROOT, nm, FILE), 1, s.procs[1].(op := CreateNamed(ROOT, FILE, T_FILE)));
    ss, es := Extend(ss, es, s, t, Event(1, CreateLink(nm)));
    s := t;
    Unsafe(s, nm);
  }

  lemma Unsafe(s: State, nm: Name)
    requires Sizes(s) && nm in s.dirs[ROOT] && s.dirs[ROOT][nm] < NInodes(s) && s.typ[s.dirs[ROOT][nm]] == 0
    ensures !Safe(s)
  {
    hide Panics, Named, RefsOf;
  }
}
