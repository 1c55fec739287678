/** Link counts while system calls interleave (xv6/sysfile.c:110-256, xv6/fs.c:190-255).

    Every step below is one write to an inode, a directory or a lock, by one process.  Directories are
    the finite maps that FsDirs gives them.  `typ` and `core` are type and nlink as a process that refers to the inode
    finds them: the cached copy or, if there is none, what ilock would read.  `stored` and `disk` are
    type and nlink on disk.  A type that ialloc has stored shows in `typ` once it has called iget.  `spare` is a
    history: the links of each inode that were used by entries of directories that have been freed.
 */
module Links {
  import opened Options
  import opened FsDisk
  import opened FsDirs
  import opened Counting

  /** Where a process is in link, unlink or create.  ip and dp are the source's variables. */
  datatype Op =
    | Idle
    | LinkLocked(ip: nat)                            // ip locked
    | LinkRaised(ip: nat)                            // nlink++ done, iupdate not yet
    | LinkStored(ip: nat)                            // iupdate done
    | LinkMid(ip: nat)                               // ip unlocked; walking the new path
    | LinkDir(ip: nat, dp: nat)                      // dp locked
    | LinkAdded(ip: nat, dp: nat)                    // the entry is written
    | Owed(ip: nat)                                  // ip locked, with one link too many
    | Lowered(ip: nat)                               // nlink-- done, iupdate not yet
    | Done(ip: nat)                                  // ip locked, nothing left to do
    | UnlinkDir(dp: nat)                             // dp locked
    | UnlinkFound(dp: nat, nm: Name, ip: nat)        // entry nm of dp names ip
    | UnlinkBoth(dp: nat, nm: Name, ip: nat)         // ip locked too
    | UnlinkGone(dp: nat, ip: nat)                   // the entry is cleared
    | CreateDir(dp: nat, typ: nat)                   // dp locked
    | CreateTook(dp: nat, ip: nat, typ: nat)         // ialloc has stored the type of ip, and has not called iget
    | CreateGot(dp: nat, ip: nat, typ: nat)          // iget found ip in the cache; ip not locked yet
    | CreateLocked(dp: nat, ip: nat, typ: nat)       // ip allocated and locked
    | CreateRaised(dp: nat, ip: nat, typ: nat)       // nlink = 1, iupdate not yet
    | CreateStored(dp: nat, ip: nat, typ: nat)       // iupdate done
    | CreateFailed(dp: nat, ip: nat)                 // dirlink failed, nlink = 0
    | CreateNamed(dp: nat, ip: nat, typ: nat)        // the entry in dp is written
    | ParentRaised(dp: nat, ip: nat)                 // dp nlink++ done, iupdate not yet
    | ParentStored(dp: nat, ip: nat)                 // iupdate done
    | DotAdded(dp: nat, ip: nat)                     // "." written
    | CreateDone(dp: nat, ip: nat)

  /** Where a process is in the freeing part of iput: I_BUSY is set, or type 0 is stored too. */
  datatype Freeing = NotFreeing | Busy(i: nat) | Gone(i: nat)

  /** A process: references it keeps (its cwd, open files, results of namei), an inode it has locked while
      reading it or walking a path, its place in a system call, and in iput. */
  datatype Proc = Proc(base: multiset<nat>, walk: Option<nat>, op: Op, free: Freeing)

  datatype State = State(typ: seq<nat>, stored: seq<nat>, core: seq<nat>, disk: seq<nat>, spare: seq<nat>, dirs: seq<Entries>,
                         ref: seq<nat>, valid: seq<bool>, lock: seq<Option<nat>>, procs: seq<Proc>)

  // What a place in a system call stands for

  /** Links counted in nlink that no directory entry uses yet, or any more. */
  function Credit(op: Op, i: nat): nat {
    match op
    case LinkRaised(ip) => if ip == i then 1 else 0
    case LinkStored(ip) => if ip == i then 1 else 0
    case LinkMid(ip) => if ip == i then 1 else 0
    case LinkDir(ip, _) => if ip == i then 1 else 0
    case Owed(ip) => if ip == i then 1 else 0
    case UnlinkGone(_, ip) => if ip == i then 1 else 0
    case CreateRaised(_, ip, _) => if ip == i then 1 else 0
    case CreateStored(_, ip, _) => if ip == i then 1 else 0
    case ParentRaised(dp, _) => if dp == i then 1 else 0
    case ParentStored(dp, _) => if dp == i then 1 else 0
    case DotAdded(dp, _) => if dp == i then 1 else 0
    case _ => 0
  }

  /** How far the cached nlink is ahead of the stored one. */
  function Ahead(op: Op, i: nat): int {
    match op
    case LinkRaised(ip) => if ip == i then 1 else 0
    case Lowered(ip) => if ip == i then -1 else 0
    case CreateRaised(_, ip, _) => if ip == i then 1 else 0
    case CreateFailed(_, ip) => if ip == i then -1 else 0
    case ParentRaised(dp, _) => if dp == i then 1 else 0
    case _ => 0
  }

  /** The inode a system call works on, and the directory, if it has them. */
  function Ip(op: Op): Option<nat> {
    match op
    case Idle => None
    case UnlinkDir(_) => None
    case CreateDir(_, _) => None
    case CreateTook(_, _, _) => None
    case _ => Some(op.ip)
  }

  function Dp(op: Op): Option<nat> {
    match op
    case LinkDir(_, dp) => Some(dp)
    case LinkAdded(_, dp) => Some(dp)
    case UnlinkDir(dp) => Some(dp)
    case UnlinkFound(dp, _, _) => Some(dp)
    case UnlinkBoth(dp, _, _) => Some(dp)
    case UnlinkGone(dp, _) => Some(dp)
    case CreateDir(dp, _) => Some(dp)
    case CreateTook(dp, _, _) => Some(dp)
    case CreateGot(dp, _, _) => Some(dp)
    case CreateLocked(dp, _, _) => Some(dp)
    case CreateRaised(dp, _, _) => Some(dp)
    case CreateStored(dp, _, _) => Some(dp)
    case CreateFailed(dp, _) => Some(dp)
    case CreateNamed(dp, _, _) => Some(dp)
    case ParentRaised(dp, _) => Some(dp)
    case ParentStored(dp, _) => Some(dp)
    case DotAdded(dp, _) => Some(dp)
    case CreateDone(dp, _) => Some(dp)
    case _ => None
  }

  function FreeIp(f: Freeing): Option<nat> { if f.NotFreeing? then None else Some(f.i) }

  /** Both are referenced throughout.  dp is locked throughout; ip except where the source has it unlocked. */
  function RefsOf(q: Proc, i: nat): nat {
    q.base[i] + (if q.walk == Some(i) then 1 else 0) + (if Ip(q.op) == Some(i) then 1 else 0) +
    (if Dp(q.op) == Some(i) then 1 else 0) + (if FreeIp(q.free) == Some(i) then 1 else 0)
  }

  predicate IpLocked(op: Op) {
    !op.LinkMid? && !op.LinkDir? && !op.LinkAdded? && !op.UnlinkFound? && !op.CreateGot?
  }

  predicate HasLock(q: Proc, i: nat) {
    q.walk == Some(i) || Dp(q.op) == Some(i) || (Ip(q.op) == Some(i) && IpLocked(q.op)) || FreeIp(q.free) == Some(i)
  }

  /** An inode just allocated by create, which nobody else can have found. */
  predicate Private(op: Op, i: nat) {
    match op
    case CreateLocked(_, ip, _) => ip == i
    case CreateRaised(_, ip, _) => ip == i
    case CreateStored(_, ip, _) => ip == i
    case CreateFailed(_, ip) => ip == i
    case _ => false
  }

  /** Nobody else has a reference to i, or can find it. */
  predicate Claims(q: Proc, i: nat) { Private(q.op, i) || FreeIp(q.free) == Some(i) }

  /** A directory that create has not given its "." yet. */
  predicate Making(op: Op, i: nat) {
    Private(op, i) || (op.CreateNamed? && op.ip == i) || ((op.ParentRaised? || op.ParentStored?) && op.ip == i)
  }

  // Counting over processes

  function Credits(procs: seq<Proc>, i: nat): int {
    Sum(seq(|procs|, p requires 0 <= p < |procs| => Credit(procs[p].op, i)))
  }

  function Aheads(procs: seq<Proc>, i: nat): int {
    Sum(seq(|procs|, p requires 0 <= p < |procs| => Ahead(procs[p].op, i)))
  }

  function Refs(procs: seq<Proc>, i: nat): int {
    Sum(seq(|procs|, p requires 0 <= p < |procs| => RefsOf(procs[p], i)))
  }

  lemma ProcsUpdate(procs: seq<Proc>, p: nat, q: Proc, i: nat)
    requires p < |procs|
    ensures Credits(procs[p := q], i) == Credits(procs, i) - Credit(procs[p].op, i) + Credit(q.op, i)
    ensures Aheads(procs[p := q], i) == Aheads(procs, i) - Ahead(procs[p].op, i) + Ahead(q.op, i)
    ensures Refs(procs[p := q], i) == Refs(procs, i) - RefsOf(procs[p], i) + RefsOf(q, i)
  {
    hide Credit, Ahead, RefsOf, Sum;
    var t := procs[p := q];
    var cs := seq(|procs|, k requires 0 <= k < |procs| => Credit(procs[k].op, i));
    assert seq(|t|, k requires 0 <= k < |t| => Credit(t[k].op, i)) == cs[p := Credit(q.op, i)];
    SumUpdate(cs, p, Credit(q.op, i));
    var ah := seq(|procs|, k requires 0 <= k < |procs| => Ahead(procs[k].op, i));
    assert seq(|t|, k requires 0 <= k < |t| => Ahead(t[k].op, i)) == ah[p := Ahead(q.op, i)];
    SumUpdate(ah, p, Ahead(q.op, i));
    var rs := seq(|procs|, k requires 0 <= k < |procs| => RefsOf(procs[k], i));
    assert seq(|t|, k requires 0 <= k < |t| => RefsOf(t[k], i)) == rs[p := RefsOf(q, i)];
    SumUpdate(rs, p, RefsOf(q, i));
  }

  lemma ProcsBound(procs: seq<Proc>, p: nat, i: nat)
    requires p < |procs|
    ensures 0 <= Credit(procs[p].op, i) <= Credits(procs, i)
    ensures RefsOf(procs[p], i) <= Refs(procs, i)
    ensures forall q :: 0 <= q < |procs| && q != p ==> RefsOf(procs[p], i) + RefsOf(procs[q], i) <= Refs(procs, i)
  {
    hide Credit, RefsOf, Sum;
    SumAtLeast(seq(|procs|, k requires 0 <= k < |procs| => Credit(procs[k].op, i)), p);
    var rs := seq(|procs|, k requires 0 <= k < |procs| => RefsOf(procs[k], i));
    SumAtLeast(rs, p);
    forall q | 0 <= q < |procs| && q != p ensures RefsOf(procs[p], i) + RefsOf(procs[q], i) <= Refs(procs, i) {
      assert rs[q] == RefsOf(procs[q], i);
    }
  }

  // The steps

  datatype Action =
    | Dup(i: nat, to: nat) | GetRoot | WalkLock(i: nat) | WalkGet(nm: Name) | WalkUnlock | Put(i: nat)
    | FreeStart(i: nat) | FreeStore | FreeEnd
    | LinkLock(i: nat) | LinkIsDir | LinkRaise | LinkStore | LinkUnlock | LinkDirLock(i: nat) | LinkAdd(nm: Name)
    | LinkRefused | LinkFinish | LinkBad | Lower | Store | Finish
    | UnlinkLock(i: nat) | UnlinkNone | UnlinkFind(nm: Name) | UnlinkIpLock | UnlinkBusyDir | UnlinkClear | UnlinkParent
    | CreateLock(i: nat, t: nat) | CreateFound(nm: Name) | CreateTake(i: nat) | CreateGet | CreateIlock
    | CreateRaise | CreateStore
    | CreateLink(nm: Name) | CreateRefuse | CreateAbort | CreatePlain | ParentRaise | ParentStore
    | DotAdd | DotDotAdd | CreateFinish

  const ROOT: nat := 1

  function NInodes(s: State): nat { |s.typ| }

  ghost predicate Sizes(s: State) {
    && |s.spare| == |s.stored| == |s.core| == |s.disk| == |s.dirs| == |s.ref| == |s.valid| == |s.lock| == |s.typ| && ROOT < |s.typ|
    && forall p :: 0 <= p < |s.procs| ==> ProcFits(s.procs[p], |s.typ|)
  }

  ghost predicate ProcFits(q: Proc, n: nat) {
    && (forall i :: i in q.base ==> i < n) && (q.walk.Some? ==> q.walk.value < n)
    && (Ip(q.op).Some? ==> Ip(q.op).value < n) && (Dp(q.op).Some? ==> Dp(q.op).value < n)
    && (q.op.CreateTook? ==> q.op.ip < n) && (FreeIp(q.free).Some? ==> FreeIp(q.free).value < n)
  }

  function SetProc(s: State, p: nat, q: Proc): State
    requires p < |s.procs|
  {
    s.(procs := s.procs[p := q])
  }

  /** A lock is taken by ilock, which also reads the inode in if it has to. */
  function Take(s: State, i: nat, p: nat): State
    requires i < |s.lock| && i < |s.valid|
  {
    s.(lock := s.lock[i := Some(p)], valid := s.valid[i := true])
  }

  function Release(s: State, i: nat): State
    requires i < |s.lock|
  {
    s.(lock := s.lock[i := None])
  }

  function AddRef(s: State, i: nat): State
    requires i < |s.ref|
  {
    s.(ref := s.ref[i := s.ref[i] + 1])
  }

  /** iput: the last reference to an inode without links frees it. */
  predicate Frees(s: State, i: nat)
    requires i < |s.ref| && i < |s.core| && i < |s.valid|
  {
    s.ref[i] == 1 && s.valid[i] && s.core[i] == 0
  }

  /** iput, otherwise. */
  function Unref(s: State, i: nat): State
    requires i < |s.ref| == |s.valid| && 0 < s.ref[i]
  {
    s.(ref := s.ref[i := s.ref[i] - 1], valid := s.valid[i := s.valid[i] && s.ref[i] != 1])
  }

  /** itrunc, type 0 and iupdate */
  function Erase(s: State, i: nat): State
    requires i < |s.typ| == |s.stored| == |s.core| == |s.disk| == |s.dirs|
  {
    s.(typ := s.typ[i := 0], stored := s.stored[i := 0], disk := s.disk[i := s.core[i]], dirs := s.dirs[i := map[]],
       spare := Lost(s.spare, s.dirs[i]))
  }

  /** The links that the entries of m used have none any more. */
  function Lost(spare: seq<nat>, m: Entries): (r: seq<nat>)
    ensures |r| == |spare| && forall x :: 0 <= x < |spare| ==> r[x] == spare[x] + CountIn(m, x)
  {
    seq(|spare|, x requires 0 <= x < |spare| => spare[x] + CountIn(m, x))
  }

  predicate IsFree(s: State, i: nat) { i < |s.lock| && s.lock[i] == None }

  predicate EmptyDir(m: Entries) { forall nm :: nm in m ==> nm == DOT || nm == DOTDOT }

  /** The process may lock an inode: it holds no other lock. */
  predicate MayWalk(q: Proc) { q.free.NotFreeing? && q.walk == None && (q.op.Idle? || q.op.LinkMid?) }

  predicate AtRest(q: Proc) { q.free.NotFreeing? && q.walk == None && q.op.Idle? }

  /** Process p takes step a.  In the freeing part of iput it does that and nothing else. */
  ghost predicate Next(s: State, t: State, p: nat, a: Action)
    requires Sizes(s) && p < |s.procs|
  {
    var q := s.procs[p];
    match q.free
    case NotFreeing => NextCall(s, t, p, a)
    case Busy(i) => a.FreeStore? && t == SetProc(Erase(s, i), p, q.(free := Gone(i)))
    case Gone(i) => a.FreeEnd? && 0 < s.ref[i] && t == SetProc(Unref(Release(s, i), i), p, q.(free := NotFreeing))
  }

  /** Steps that any process may take: it gets, gives away, locks or drops an inode it refers to. */
  predicate Walking(a: Action) {
    a.Dup? || a.GetRoot? || a.WalkLock? || a.WalkGet? || a.WalkUnlock? || a.Put? || a.FreeStart?
  }

  ghost predicate NextCall(s: State, t: State, p: nat, a: Action)
    requires Sizes(s) && p < |s.procs|
  {
    if Walking(a) then NextWalk(s, t, p, a)
    else if a.LinkLock? || a.UnlinkLock? || a.CreateLock? then NextStart(s, t, p, a)
    else NextOp(s, t, p, a)
  }

  ghost predicate NextWalk(s: State, t: State, p: nat, a: Action)
    requires Sizes(s) && p < |s.procs|
  {
    var q := s.procs[p];
    match a
    case Dup(i, to) => i in q.base && to < |s.procs| && t == SetProc(AddRef(s, i), to, Given(s.procs[to], i))
    case GetRoot => MayWalk(q) && t == SetProc(AddRef(s, ROOT), p, Given(q, ROOT))
    case WalkLock(i) =>
      MayWalk(q) && i in q.base && IsFree(s, i) && t == SetProc(Take(s, i, p), p, Kept(q, i).(walk := Some(i)))
    case WalkGet(nm) =>
      && q.walk.Some? && nm in s.dirs[q.walk.value] && s.dirs[q.walk.value][nm] < NInodes(s)
      && t == SetProc(AddRef(s, s.dirs[q.walk.value][nm]), p, Given(q, s.dirs[q.walk.value][nm]))
    case WalkUnlock => q.walk.Some? && t == SetProc(Release(s, q.walk.value), p, Given(q, q.walk.value).(walk := None))
    case Put(i) => i in q.base && 0 < s.ref[i] && !Frees(s, i) && t == SetProc(Unref(s, i), p, Kept(q, i))
    case FreeStart(i) =>
      i in q.base && Frees(s, i) && IsFree(s, i) && t == SetProc(Take(s, i, p), p, Kept(q, i).(free := Busy(i)))
    case _ => false
  }

  function Given(q: Proc, i: nat): Proc { q.(base := q.base + multiset{i}) }
  function Kept(q: Proc, i: nat): Proc { q.(base := q.base - multiset{i}) }

  /** A system call locks the inode it was given. */
  ghost predicate NextStart(s: State, t: State, p: nat, a: Action)
    requires Sizes(s) && p < |s.procs| && (a.LinkLock? || a.UnlinkLock? || a.CreateLock?)
  {
    var q := s.procs[p];
    && AtRest(q) && a.i in q.base && IsFree(s, a.i)
    && match a
       case LinkLock(i) => t == SetProc(Take(s, i, p), p, Kept(q, i).(op := LinkLocked(i)))
       case UnlinkLock(i) => s.typ[i] == T_DIR && t == SetProc(Take(s, i, p), p, Kept(q, i).(op := UnlinkDir(i)))
       case CreateLock(i, k) =>
         s.typ[i] == T_DIR && k != 0 && t == SetProc(Take(s, i, p), p, Kept(q, i).(op := CreateDir(i, k)))
  }

  predicate Linking(op: Op) {
    op.LinkLocked? || op.LinkRaised? || op.LinkStored? || op.LinkMid? || op.LinkDir? || op.LinkAdded?
  }

  predicate Unlinking(op: Op) {
    op.Owed? || op.Lowered? || op.Done? || op.UnlinkDir? || op.UnlinkFound? || op.UnlinkBoth? || op.UnlinkGone?
  }

  ghost predicate NextOp(s: State, t: State, p: nat, a: Action)
    requires Sizes(s) && p < |s.procs|
  {
    if Linking(s.procs[p].op) then NextLink(s, t, p, a)
    else if Unlinking(s.procs[p].op) then NextUnlink(s, t, p, a)
    else NextCreate(s, t, p, a)
  }

  ghost predicate NextLink(s: State, t: State, p: nat, a: Action)
    requires Sizes(s) && p < |s.procs|
  {
    var q := s.procs[p];
    match q.op
    case LinkLocked(ip) =>
      || (a.LinkIsDir? && s.typ[ip] == T_DIR && t == SetProc(s, p, q.(op := Done(ip))))
      || (a.LinkRaise? && s.typ[ip] != T_DIR && t == SetProc(Bump(s, ip), p, q.(op := LinkRaised(ip))))
    case LinkRaised(ip) => a.LinkStore? && t == SetProc(Iupdate(s, ip), p, q.(op := LinkStored(ip)))
    case LinkStored(ip) => a.LinkUnlock? && t == SetProc(Release(s, ip), p, q.(op := LinkMid(ip)))
    case LinkMid(ip) =>
      && q.walk == None
      && ((a.LinkDirLock? && a.i in q.base && IsFree(s, a.i) && s.typ[a.i] == T_DIR &&
           t == SetProc(Take(s, a.i, p), p, Kept(q, a.i).(op := LinkDir(ip, a.i))))
          || (a.LinkBad? && IsFree(s, ip) && t == SetProc(Take(s, ip, p), p, q.(op := Owed(ip)))))
    case LinkDir(ip, dp) =>
      || (a.LinkAdd? && a.nm !in s.dirs[dp] && t == SetProc(AddName(s, dp, a.nm, ip), p, q.(op := LinkAdded(ip, dp))))
      || (a.LinkRefused? && t == SetProc(Release(s, dp), p, Given(q, dp).(op := LinkMid(ip))))
    case LinkAdded(ip, dp) => a.LinkFinish? && t == SetProc(Release(s, dp), p, Given(Given(q, dp), ip).(op := Idle))
    case _ => false
  }

  /** The end of a link that failed, and unlink. */
  ghost predicate NextUnlink(s: State, t: State, p: nat, a: Action)
    requires Sizes(s) && p < |s.procs|
  {
    var q := s.procs[p];
    match q.op
    case Owed(ip) => a.Lower? && 0 < s.core[ip] && t == SetProc(Drop(s, ip), p, q.(op := Lowered(ip)))
    case Lowered(ip) => a.Store? && t == SetProc(Iupdate(s, ip), p, q.(op := Done(ip)))
    case Done(ip) => a.Finish? && t == SetProc(Release(s, ip), p, Given(q, ip).(op := Idle))
    case UnlinkDir(dp) =>
      || (a.UnlinkNone? && t == SetProc(Release(s, dp), p, Given(q, dp).(op := Idle)))
      || (a.UnlinkFind? && a.nm != DOT && a.nm != DOTDOT && a.nm in s.dirs[dp] && s.dirs[dp][a.nm] < NInodes(s) &&
          t == SetProc(AddRef(s, s.dirs[dp][a.nm]), p, q.(op := UnlinkFound(dp, a.nm, s.dirs[dp][a.nm]))))
    case UnlinkFound(dp, nm, ip) =>
      a.UnlinkIpLock? && IsFree(s, ip) && t == SetProc(Take(s, ip, p), p, q.(op := UnlinkBoth(dp, nm, ip)))
    case UnlinkBoth(dp, nm, ip) =>
      || (a.UnlinkBusyDir? && s.typ[ip] == T_DIR && !EmptyDir(s.dirs[ip]) &&
          t == SetProc(Release(s, ip), p, Given(q, ip).(op := Done(dp))))
      || (a.UnlinkClear? && (s.typ[ip] != T_DIR || EmptyDir(s.dirs[ip])) && 0 < s.core[ip] &&
          t == SetProc(s.(dirs := s.dirs[dp := s.dirs[dp] - {nm}]), p, q.(op := UnlinkGone(dp, ip))))
    case UnlinkGone(dp, ip) => a.UnlinkParent? && t == SetProc(Release(s, dp), p, Given(q, dp).(op := Owed(ip)))
    case _ => false
  }

  function Bump(s: State, i: nat): State
    requires i < |s.core|
  {
    s.(core := s.core[i := s.core[i] + 1])
  }

  function Drop(s: State, i: nat): State
    requires i < |s.core| && 0 < s.core[i]
  {
    s.(core := s.core[i := s.core[i] - 1])
  }

  function Iupdate(s: State, i: nat): State
    requires i < |s.core| == |s.disk| == |s.typ| == |s.stored|
  {
    s.(disk := s.disk[i := s.core[i]], stored := s.stored[i := s.typ[i]])
  }

  /** dirlink of a name that is not there yet. */
  function AddName(s: State, d: nat, nm: Name, i: nat): State
    requires d < |s.dirs|
  {
    var m: Entries := s.dirs[d][nm := i];
    s.(dirs := s.dirs[d := m])
  }

  ghost predicate NextCreate(s: State, t: State, p: nat, a: Action)
    requires Sizes(s) && p < |s.procs|
  {
    var q := s.procs[p];
    match q.op
    case CreateDir(dp, k) =>
      || (a.CreateFound? && a.nm in s.dirs[dp] && s.dirs[dp][a.nm] < NInodes(s) &&
          t == SetProc(AddRef(s, s.dirs[dp][a.nm]), p, Given(q, s.dirs[dp][a.nm]).(op := Done(dp))))
      || (a.CreateTake? && 0 < a.i < NInodes(s) && s.stored[a.i] == 0 &&
          t == SetProc(s.(stored := s.stored[a.i := k], disk := s.disk[a.i := 0]), p, q.(op := CreateTook(dp, a.i, k))))
    case CreateTook(dp, ip, k) =>
      // a slot that is not in the cache: ilock finds it unlocked, and reads the disk
      && a.CreateGet?
      && t == if s.ref[ip] == 0 then SetProc(Take(AddRef(Iread(s, ip), ip), ip, p), p, q.(op := CreateLocked(dp, ip, k)))
              else SetProc(AddRef(s, ip), p, q.(op := CreateGot(dp, ip, k)))
    case CreateGot(dp, ip, k) =>
      a.CreateIlock? && IsFree(s, ip) && s.valid[ip] && t == SetProc(Take(s, ip, p), p, q.(op := CreateLocked(dp, ip, k)))
    case CreateLocked(dp, ip, k) =>
      a.CreateRaise? && t == SetProc(s.(core := s.core[ip := 1]), p, q.(op := CreateRaised(dp, ip, k)))
    case CreateRaised(dp, ip, k) => a.CreateStore? && t == SetProc(Iupdate(s, ip), p, q.(op := CreateStored(dp, ip, k)))
    case CreateStored(dp, ip, k) =>
      || (a.CreateLink? && a.nm !in s.dirs[dp] &&
          t == SetProc(AddName(s, dp, a.nm, ip), p, q.(op := CreateNamed(dp, ip, k))))
      || (a.CreateRefuse? && t == SetProc(s.(core := s.core[ip := 0]), p, q.(op := CreateFailed(dp, ip))))
    case CreateFailed(dp, ip) =>
      // nobody can get at ip between iunlock and iput's setting I_BUSY
      a.CreateAbort? && Frees(s, ip) && t == SetProc(Erase(s, ip), p, q.(op := Done(dp), free := Gone(ip)))
    case CreateNamed(dp, ip, k) =>
      || (a.CreatePlain? && k != T_DIR && t == SetProc(s, p, q.(op := CreateDone(dp, ip))))
      || (a.ParentRaise? && k == T_DIR && t == SetProc(Bump(s, dp), p, q.(op := ParentRaised(dp, ip))))
    case ParentRaised(dp, ip) => a.ParentStore? && t == SetProc(Iupdate(s, dp), p, q.(op := ParentStored(dp, ip)))
    case ParentStored(dp, ip) =>
      a.DotAdd? && DOT !in s.dirs[ip] && t == SetProc(AddName(s, ip, DOT, ip), p, q.(op := DotAdded(dp, ip)))
    case DotAdded(dp, ip) =>
      a.DotDotAdd? && DOTDOT !in s.dirs[ip] && t == SetProc(AddName(s, ip, DOTDOT, dp), p, q.(op := CreateDone(dp, ip)))
    case CreateDone(dp, ip) =>
      a.CreateFinish? && t == SetProc(Release(s, dp), p, Given(q, dp).(op := Idle, walk := Some(ip)))
    case _ => false
  }

  /** ilock reads an inode that ialloc has stored. */
  function Iread(s: State, i: nat): State
    requires i < |s.typ| == |s.stored| == |s.core| == |s.disk|
  {
    s.(typ := s.typ[i := s.stored[i]], core := s.core[i := s.disk[i]])
  }

  // What every step keeps

  ghost predicate Counts(s: State)
    requires Sizes(s)
  {
    forall i :: 0 <= i < NInodes(s) ==> CountsAt(s, i)
  }

  ghost predicate CountsAt(s: State, i: nat)
    requires Sizes(s) && i < NInodes(s)
  {
    && Named(s.dirs, i) + Credits(s.procs, i) + s.spare[i] == s.core[i]
    && s.core[i] == s.disk[i] + Aheads(s.procs, i)
    && s.ref[i] == Refs(s.procs, i)
  }

  ghost predicate Locks(s: State)
    requires Sizes(s)
  {
    && (forall i :: 0 <= i < NInodes(s) && s.lock[i].Some? ==> s.lock[i].value < |s.procs| && s.valid[i])
    && forall p, i :: 0 <= p < |s.procs| && 0 <= i < NInodes(s) ==> (HasLock(s.procs[p], i) <==> s.lock[i] == Some(p))
  }

  /** What a process may rely on about inodes it has locked. */
  ghost predicate Note(s: State, q: Proc)
    requires Sizes(s) && ProcFits(q, NInodes(s))
  {
    && (q.walk.Some? ==> q.op.Idle? || q.op.LinkMid?)
    && (Ip(q.op).Some? && Dp(q.op).Some? && IpLocked(q.op) ==> Ip(q.op) != Dp(q.op))
    && (Dp(q.op).Some? ==> s.typ[Dp(q.op).value] == T_DIR)
    && (match q.free
        case NotFreeing => true
        case Busy(i) => s.ref[i] == 1 && s.core[i] == 0
        case Gone(i) => s.ref[i] == 1 && s.core[i] == 0 && s.typ[i] == 0)
    && match q.op
       case UnlinkFound(dp, nm, ip) => Entry(s, dp, nm, ip)
       case UnlinkBoth(dp, nm, ip) => Entry(s, dp, nm, ip)
       case CreateDir(_, k) => k != 0
       case CreateTook(_, ip, k) => k != 0 && s.stored[ip] == k && s.typ[ip] == 0
       case CreateGot(_, _, _) => false
       case CreateLocked(dp, ip, k) => Fresh(s, ip) && s.core[ip] == 0 && s.typ[ip] == k
       case CreateRaised(dp, ip, k) => Fresh(s, ip) && s.core[ip] == 1 && s.typ[ip] == k
       case CreateStored(dp, ip, k) => Fresh(s, ip) && s.core[ip] == 1 && s.typ[ip] == k
       case CreateFailed(dp, ip) => Fresh(s, ip) && s.core[ip] == 0
       case CreateNamed(dp, ip, k) => s.dirs[ip] == map[] && s.typ[ip] == k
       case ParentRaised(dp, ip) => s.dirs[ip] == map[] && s.typ[ip] == T_DIR
       case ParentStored(dp, ip) => s.dirs[ip] == map[] && s.typ[ip] == T_DIR
       case DotAdded(dp, ip) => s.dirs[ip] == map[DOT := ip] && s.typ[ip] == T_DIR
       case _ => true
  }

  ghost predicate Entry(s: State, dp: nat, nm: Name, ip: nat) {
    dp < |s.dirs| && nm != DOT && nm != DOTDOT && nm in s.dirs[dp] && s.dirs[dp][nm] == ip
  }

  ghost predicate Fresh(s: State, ip: nat) {
    ip < |s.ref| && ip < |s.dirs| && s.ref[ip] == 1 && s.dirs[ip] == map[]
  }

  ghost predicate Notes(s: State)
    requires Sizes(s)
  {
    forall p :: 0 <= p < |s.procs| ==> Note(s, s.procs[p])
  }

  /** The process that has d locked has stored type 0 and is still to drop its reference. */
  ghost predicate GoneAt(s: State, d: nat)
    requires d < |s.lock|
  {
    s.lock[d].Some? && s.lock[d].value < |s.procs| && s.procs[s.lock[d].value].free == Gone(d)
  }

  ghost predicate DirAt(s: State, d: nat)
    requires Sizes(s) && d < NInodes(s)
  {
    && (forall nm :: nm in s.dirs[d] ==> s.dirs[d][nm] < NInodes(s))
    && (DOT in s.dirs[d] ==> s.dirs[d][DOT] == d)
    && (s.typ[d] != T_DIR ==> s.dirs[d] == map[])
    && (s.typ[d] == 0 ==> s.core[d] == 0 && s.disk[d] == 0 && (s.ref[d] == 0 || GoneAt(s, d)))
    && (s.typ[d] == 0 || s.stored[d] == s.typ[d])
    && (s.typ[d] == T_DIR && DOT !in s.dirs[d] ==>
          s.lock[d].Some? && s.lock[d].value < |s.procs| && Making(s.procs[s.lock[d].value].op, d))
  }

  ghost predicate Dirs(s: State)
    requires Sizes(s)
  {
    && (forall d :: 0 <= d < NInodes(s) ==> DirAt(s, d))
    && s.typ[ROOT] == T_DIR && DOTDOT in s.dirs[ROOT] && s.dirs[ROOT][DOTDOT] == ROOT
  }

  ghost predicate Inv(s: State) {
    Sizes(s) && Counts(s) && Locks(s) && Notes(s) && Dirs(s) && Takers(s)
  }

  predicate SameTaken(a: Op, b: Op) { a.CreateTook? && b.CreateTook? && a.ip == b.ip }

  /** Two processes do not take the same inode. */
  ghost predicate Takers(s: State) {
    forall p, k :: 0 <= p < |s.procs| && 0 <= k < |s.procs| && p != k ==> !SameTaken(s.procs[p].op, s.procs[k].op)
  }

  /** The inode has a type, the same in core and on disk. */
  predicate Typed(s: State, i: nat)
    requires i < |s.typ| == |s.stored|
  {
    s.typ[i] != 0 && s.stored[i] == s.typ[i]
  }

  // Process p changes one thing at a time

  ghost predicate OneProc(s: State, t: State, p: nat) {
    && Sizes(s) && Sizes(t) && NInodes(s) == NInodes(t) && p < |s.procs| == |t.procs|
    && t.procs == s.procs[p := t.procs[p]]
    && (t.procs[p].op.CreateTook? ==> t.procs[p].op == s.procs[p].op || s.stored[t.procs[p].op.ip] == 0)
  }

  /** p takes no inode, and does not end iput. */
  predicate Steady(q: Proc, r: Proc) {
    (r.op.CreateTook? ==> r.op == q.op) && (q.free.Gone? ==> r.free == q.free)
  }

  lemma TakersKeep(s: State, t: State, p: nat)
    requires OneProc(s, t, p) && Takers(s) && Notes(s)
    ensures Takers(t)
  {
    forall k | 0 <= k < |s.procs| && s.procs[k].op.CreateTook? ensures s.stored[s.procs[k].op.ip] != 0 {
      assert Note(s, s.procs[k]);
    }
    hide Notes;
  }

  /** The counts change by what the process now stands for. */
  ghost predicate Local(s: State, t: State, p: nat, i: nat)
    requires OneProc(s, t, p) && i < NInodes(s)
  {
    var q, r := s.procs[p], t.procs[p];
    && Named(t.dirs, i) + Credit(r.op, i) + t.spare[i] - t.core[i] == Named(s.dirs, i) + Credit(q.op, i) + s.spare[i] - s.core[i]
    && (0 - t.disk[i]) + t.core[i] - Ahead(r.op, i) == (0 - s.disk[i]) + s.core[i] - Ahead(q.op, i)
    && (0 - RefsOf(r, i)) + t.ref[i] == (0 - RefsOf(q, i)) + s.ref[i]
  }

  lemma CountsKeep(s: State, t: State, p: nat)
    requires OneProc(s, t, p) && Counts(s) && forall i :: 0 <= i < NInodes(s) ==> Local(s, t, p, i)
    ensures Counts(t)
  {
    hide Credit, Ahead, RefsOf, Named, Credits, Aheads, Refs;
    forall i | 0 <= i < NInodes(t) ensures CountsAt(t, i) {
      assert CountsAt(s, i) && Local(s, t, p, i);
      ProcsUpdate(s.procs, p, t.procs[p], i);
    }
  }

  ghost predicate LockAt(s: State, t: State, p: nat, i: nat)
    requires OneProc(s, t, p) && i < NInodes(s)
  {
    && (t.lock[i].Some? ==> t.valid[i])
    && (|| (t.lock[i] == s.lock[i] && (HasLock(t.procs[p], i) <==> HasLock(s.procs[p], i)))
        || (s.lock[i] == None && t.lock[i] == Some(p) && HasLock(t.procs[p], i))
        || (s.lock[i] == Some(p) && t.lock[i] == None && !HasLock(t.procs[p], i)))
  }

  lemma LocksKeep(s: State, t: State, p: nat)
    requires OneProc(s, t, p) && Locks(s) && forall i :: 0 <= i < NInodes(s) ==> LockAt(s, t, p, i)
    ensures Locks(t)
  {
    hide HasLock;
    forall k, i | 0 <= k < |t.procs| && 0 <= i < NInodes(t) ensures HasLock(t.procs[k], i) <==> t.lock[i] == Some(k) {
      assert LockAt(s, t, p, i);
      assert HasLock(s.procs[k], i) <==> s.lock[i] == Some(k);
      assert HasLock(s.procs[p], i) <==> s.lock[i] == Some(p);
    }
    forall i | 0 <= i < NInodes(t) && t.lock[i].Some? ensures t.lock[i].value < |t.procs| && t.valid[i] {
      assert LockAt(s, t, p, i);
    }
  }

  /** Inodes that another process has locked or taken are left alone. */
  ghost predicate Apart(s: State, t: State, p: nat, i: nat)
    requires OneProc(s, t, p) && i < NInodes(s)
  {
    && (s.lock[i].Some? && s.lock[i] != Some(p) ==>
          && t.typ[i] == s.typ[i] && t.core[i] == s.core[i] && t.dirs[i] == s.dirs[i]
          && (s.lock[i].value < |s.procs| && Claims(s.procs[s.lock[i].value], i) ==> t.ref[i] == s.ref[i]))
    && (s.typ[i] == 0 && s.stored[i] != 0 && !(s.procs[p].op.CreateTook? && s.procs[p].op.ip == i) ==>
          t.typ[i] == 0 && t.stored[i] == s.stored[i])
  }

  lemma NoteKeeps(s: State, t: State, p: nat, k: nat)
    requires OneProc(s, t, p) && Locks(s) && k < |s.procs| && k != p && Note(s, s.procs[k])
    requires forall i :: 0 <= i < NInodes(s) ==> Apart(s, t, p, i)
    requires s.procs[p].op.CreateTook? && s.procs[k].op.CreateTook? ==> s.procs[p].op.ip != s.procs[k].op.ip
    ensures Note(t, s.procs[k])
  {
    var op := s.procs[k].op;
    if op.CreateTook? { assert Apart(s, t, p, op.ip); }
    if FreeIp(s.procs[k].free).Some? {
      assert HasLock(s.procs[k], s.procs[k].free.i);
      assert Apart(s, t, p, s.procs[k].free.i);
    }
    if Dp(op).Some? {
      assert HasLock(s.procs[k], Dp(op).value);
      assert Apart(s, t, p, Dp(op).value);
    }
    if Ip(op).Some? && IpLocked(op) {
      assert HasLock(s.procs[k], op.ip);
      assert Apart(s, t, p, op.ip);
    }
  }

  lemma NotesKeep(s: State, t: State, p: nat)
    requires OneProc(s, t, p) && Locks(s) && Notes(s) && Note(t, t.procs[p]) && Takers(s)
    requires forall i :: 0 <= i < NInodes(s) ==> Apart(s, t, p, i)
    ensures Notes(t)
  {
    hide Note, Apart, Locks;
    forall k | 0 <= k < |t.procs| ensures Note(t, t.procs[k]) {
      if k != p { NoteKeeps(s, t, p, k); }
    }
  }

  /** Directories are as they were, and p goes on making what it was making. */
  ghost predicate SameDirAt(s: State, t: State, p: nat, d: nat)
    requires OneProc(s, t, p) && d < NInodes(s)
  {
    && t.dirs[d] == s.dirs[d] && t.typ[d] == s.typ[d]
    && (s.typ[d] == 0 ==> t.core[d] == s.core[d] && t.disk[d] == s.disk[d] && t.ref[d] == s.ref[d])
    && (t.stored[d] == s.stored[d] || t.stored[d] == t.typ[d])
    && (s.lock[d] == Some(p) && s.procs[p].free == Gone(d) ==> t.lock[d] == Some(p) && t.procs[p].free == Gone(d))
    && (s.typ[d] == T_DIR && s.lock[d] == Some(p) && Making(s.procs[p].op, d) ==>
          t.lock[d] == Some(p) && Making(t.procs[p].op, d))
    && (s.lock[d].Some? && s.lock[d] != Some(p) ==> t.lock[d] == s.lock[d])
  }

  lemma DirsKeep(s: State, t: State, p: nat)
    requires OneProc(s, t, p) && Dirs(s) && Locks(s) && forall d :: 0 <= d < NInodes(s) ==> SameDirAt(s, t, p, d)
    ensures Dirs(t)
  {
    hide Making;
    forall d | 0 <= d < NInodes(t) ensures DirAt(t, d) {
      assert DirAt(s, d) && SameDirAt(s, t, p, d);
    }
    assert SameDirAt(s, t, p, ROOT);
  }

  lemma Keeps(s: State, t: State, p: nat)
    requires OneProc(s, t, p) && Inv(s) && Note(t, t.procs[p]) && Dirs(t)
    requires forall i :: 0 <= i < NInodes(s) ==> Local(s, t, p, i) && LockAt(s, t, p, i) && Apart(s, t, p, i)
    ensures Inv(t)
  {
    hide Local, LockAt, Apart, Note, Dirs, Counts, Locks, Notes, Takers, Takers;
    CountsKeep(s, t, p);
    LocksKeep(s, t, p);
    NotesKeep(s, t, p);
    TakersKeep(s, t, p);
  }

  /** Steps that only move references and locks about. */
  lemma QuietKeeps(s: State, t: State, p: nat)
    requires OneProc(s, t, p) && Inv(s) && t == s.(lock := t.lock, valid := t.valid, procs := t.procs)
    requires Note(s, t.procs[p])
    requires forall i :: 0 <= i < NInodes(s) ==> QuietAt(s, t, p, i)
    ensures Inv(t)
  {
    forall i | 0 <= i < NInodes(s)
      ensures Local(s, t, p, i) && LockAt(s, t, p, i) && Apart(s, t, p, i) && SameDirAt(s, t, p, i)
    {
      assert QuietAt(s, t, p, i);
      assert HasLock(s.procs[p], i) <==> s.lock[i] == Some(p);
    }
    hide Local, LockAt, Apart, SameDirAt, Note, Dirs, Counts, Locks, Notes, Takers, Takers;
    assert Note(t, t.procs[p]) by { NoteSame(s, t, t.procs[p]); }
    DirsKeep(s, t, p);
    Keeps(s, t, p);
  }

  lemma NoteSame(s: State, t: State, q: Proc)
    requires Sizes(s) && Sizes(t) && t == s.(lock := t.lock, valid := t.valid, procs := t.procs)
    requires ProcFits(q, NInodes(s)) && Note(s, q)
    ensures Note(t, q)
  {
  }

  ghost predicate QuietAt(s: State, t: State, p: nat, i: nat)
    requires OneProc(s, t, p) && i < NInodes(s)
  {
    var q, r := s.procs[p], t.procs[p];
    && Credit(q.op, i) == Credit(r.op, i) && Ahead(q.op, i) == Ahead(r.op, i) && RefsOf(q, i) == RefsOf(r, i)
    && (Making(q.op, i) ==> Making(r.op, i) && HasLock(r, i))
    && t.lock[i] == (if HasLock(r, i) then Some(p) else if HasLock(q, i) then None else s.lock[i])
    && (HasLock(r, i) && !HasLock(q, i) ==> s.lock[i] == None) && (t.lock[i].Some? ==> t.valid[i])
    && Steady(q, r)
  }

  // Locks and references move

  lemma FitsAll(s: State, p: nat, q: Proc)
    requires Sizes(s) && p < |s.procs| && ProcFits(q, NInodes(s)) && Steady(s.procs[p], q)
    ensures Sizes(SetProc(s, p, q)) && OneProc(s, SetProc(s, p, q), p)
  {
  }

  /** p takes or drops locks, and nothing else that matters changes. */
  lemma MoveKeeps(s: State, t: State, p: nat, q: Proc)
    requires Inv(s) && p < |s.procs| && ProcFits(q, NInodes(s)) && Note(s, q) && Steady(s.procs[p], q)
    requires t == s.(lock := t.lock, valid := t.valid, procs := s.procs[p := q])
    requires |t.lock| == |t.valid| == NInodes(s)
    requires forall i :: 0 <= i < NInodes(s) ==> MoveAt(s, t, p, q, i)
    ensures Inv(t)
  {
    assert OneProc(s, t, p) by { FitsAll(s, p, q); }
    forall i | 0 <= i < NInodes(s) ensures QuietAt(s, t, p, i) { assert MoveAt(s, t, p, q, i); }
    QuietKeeps(s, t, p);
  }

  ghost predicate MoveAt(s: State, t: State, p: nat, r: Proc, i: nat)
    requires Sizes(s) && p < |s.procs| && i < NInodes(s) == |t.lock| == |t.valid|
  {
    var q := s.procs[p];
    && Credit(q.op, i) == Credit(r.op, i) && Ahead(q.op, i) == Ahead(r.op, i) && RefsOf(q, i) == RefsOf(r, i)
    && (Making(q.op, i) ==> Making(r.op, i) && HasLock(r, i))
    && t.lock[i] == (if HasLock(r, i) then Some(p) else if HasLock(q, i) then None else s.lock[i])
    && (HasLock(r, i) && !HasLock(q, i) ==> s.lock[i] == None) && (t.lock[i].Some? ==> t.valid[i])
    && Steady(q, r)
  }

  /** r stands for the same as q, but for the lock on i0. */
  ghost predicate Shift(q: Proc, r: Proc, i0: nat, up: bool) {
    forall i: nat :: ShiftAt(q, r, i0, up, i)
  }

  ghost predicate ShiftAt(q: Proc, r: Proc, i0: nat, up: bool, i: nat) {
    && Credit(q.op, i) == Credit(r.op, i) && Ahead(q.op, i) == Ahead(r.op, i) && RefsOf(q, i) == RefsOf(r, i)
    && (Making(q.op, i) ==> Making(r.op, i) && HasLock(r, i))
    && (HasLock(r, i) <==> if i == i0 then up else HasLock(q, i)) && Steady(q, r)
  }

  lemma TakeKeeps(s: State, p: nat, r: Proc, i0: nat)
    requires Inv(s) && p < |s.procs| && ProcFits(r, NInodes(s)) && Note(s, r) && i0 < NInodes(s) && IsFree(s, i0)
    requires Shift(s.procs[p], r, i0, true)
    ensures Inv(SetProc(Take(s, i0, p), p, r))
  {
    var t := SetProc(Take(s, i0, p), p, r);
    assert ShiftAt(s.procs[p], r, i0, true, i0);
    forall i | 0 <= i < NInodes(s) ensures MoveAt(s, t, p, r, i) {
      assert ShiftAt(s.procs[p], r, i0, true, i);
      assert HasLock(s.procs[p], i) <==> s.lock[i] == Some(p);
    }
    MoveKeeps(s, t, p, r);
  }

  lemma ReleaseKeeps(s: State, p: nat, r: Proc, i0: nat)
    requires Inv(s) && p < |s.procs| && ProcFits(r, NInodes(s)) && Note(s, r) && i0 < NInodes(s)
    requires HasLock(s.procs[p], i0) && Shift(s.procs[p], r, i0, false)
    ensures Inv(SetProc(Release(s, i0), p, r))
  {
    var t := SetProc(Release(s, i0), p, r);
    assert ShiftAt(s.procs[p], r, i0, false, i0);
    forall i | 0 <= i < NInodes(s) ensures MoveAt(s, t, p, r, i) {
      assert ShiftAt(s.procs[p], r, i0, false, i);
      assert HasLock(s.procs[p], i) <==> s.lock[i] == Some(p);
    }
    MoveKeeps(s, t, p, r);
  }

  /** The op changes, and nothing it stands for does. */
  lemma SameKeeps(s: State, p: nat, r: Proc)
    requires Inv(s) && p < |s.procs| && ProcFits(r, NInodes(s)) && Note(s, r)
    requires forall i: nat :: ShiftAt(s.procs[p], r, i, HasLock(s.procs[p], i), i)
    ensures Inv(SetProc(s, p, r))
  {
    var t := SetProc(s, p, r);
    assert ShiftAt(s.procs[p], r, 0, HasLock(s.procs[p], 0), 0);
    forall i | 0 <= i < NInodes(s) ensures MoveAt(s, t, p, r, i) {
      assert ShiftAt(s.procs[p], r, i, HasLock(s.procs[p], i), i);
      assert HasLock(s.procs[p], i) <==> s.lock[i] == Some(p);
    }
    MoveKeeps(s, t, p, r);
  }

  lemma ProcFacts(s: State, p: nat)
    requires Inv(s) && p < |s.procs|
    ensures Sizes(s) && ProcFits(s.procs[p], NInodes(s)) && Note(s, s.procs[p])
  {
  }

  lemma LockFact(s: State, p: nat, i: nat)
    requires Inv(s) && p < |s.procs| && i < NInodes(s) && HasLock(s.procs[p], i)
    ensures s.lock[i] == Some(p)
  {
  }

  lemma WalkLockKeeps(s: State, p: nat, i: nat)
    requires Inv(s) && p < |s.procs| && i in s.procs[p].base && MayWalk(s.procs[p]) && IsFree(s, i)
    ensures Inv(SetProc(Take(s, i, p), p, Kept(s.procs[p], i).(walk := Some(i))))
  {
    hide Inv;
    ProcFacts(s, p);
    var q := s.procs[p];
    TakeKeeps(s, p, Kept(q, i).(walk := Some(i)), i);
  }

  lemma WalkUnlockKeeps(s: State, p: nat)
    requires Inv(s) && p < |s.procs| && s.procs[p].walk.Some? && s.procs[p].free.NotFreeing?
    ensures Inv(SetProc(Release(s, s.procs[p].walk.value), p, Given(s.procs[p], s.procs[p].walk.value).(walk := None)))
  {
    hide Inv;
    ProcFacts(s, p);
    var q := s.procs[p];
    ReleaseKeeps(s, p, Given(q, q.walk.value).(walk := None), q.walk.value);
  }

  lemma LinkLockKeeps(s: State, p: nat, i: nat)
    requires Inv(s) && p < |s.procs| && i in s.procs[p].base && AtRest(s.procs[p]) && IsFree(s, i)
    ensures Inv(SetProc(Take(s, i, p), p, Kept(s.procs[p], i).(op := LinkLocked(i))))
  {
    hide Inv;
    ProcFacts(s, p);
    var q := s.procs[p];
    TakeKeeps(s, p, Kept(q, i).(op := LinkLocked(i)), i);
  }

  lemma LinkIsDirKeeps(s: State, p: nat)
    requires Inv(s) && p < |s.procs| && s.procs[p].op.LinkLocked? && s.procs[p].free.NotFreeing?
    ensures Inv(SetProc(s, p, s.procs[p].(op := Done(s.procs[p].op.ip))))
  {
    hide Inv;
    ProcFacts(s, p);
    var q := s.procs[p];
    SameKeeps(s, p, q.(op := Done(q.op.ip)));
  }

  lemma LinkUnlockKeeps(s: State, p: nat)
    requires Inv(s) && p < |s.procs| && s.procs[p].op.LinkStored? && s.procs[p].free.NotFreeing?
    ensures Inv(SetProc(Release(s, s.procs[p].op.ip), p, s.procs[p].(op := LinkMid(s.procs[p].op.ip))))
  {
    hide Inv;
    ProcFacts(s, p);
    var q := s.procs[p];
    ReleaseKeeps(s, p, q.(op := LinkMid(q.op.ip)), q.op.ip);
  }

  lemma LinkDirLockKeeps(s: State, p: nat, i: nat)
    requires Inv(s) && p < |s.procs| && s.procs[p].op.LinkMid? && s.procs[p].free.NotFreeing? && s.procs[p].walk == None
      && i in s.procs[p].base && IsFree(s, i) && i < |s.typ| && s.typ[i] == T_DIR
    ensures Inv(SetProc(Take(s, i, p), p, Kept(s.procs[p], i).(op := LinkDir(s.procs[p].op.ip, i))))
  {
    hide Inv;
    ProcFacts(s, p);
    var q := s.procs[p];
    TakeKeeps(s, p, Kept(q, i).(op := LinkDir(q.op.ip, i)), i);
  }

  lemma LinkRefusedKeeps(s: State, p: nat)
    requires Inv(s) && p < |s.procs| && s.procs[p].op.LinkDir? && s.procs[p].free.NotFreeing?
    ensures Inv(SetProc(Release(s, s.procs[p].op.dp), p, Given(s.procs[p], s.procs[p].op.dp).(op := LinkMid(s.procs[p].op.ip))))
  {
    hide Inv;
    ProcFacts(s, p);
    var q := s.procs[p];
    ReleaseKeeps(s, p, Given(q, q.op.dp).(op := LinkMid(q.op.ip)), q.op.dp);
  }

  lemma LinkFinishKeeps(s: State, p: nat)
    requires Inv(s) && p < |s.procs| && s.procs[p].op.LinkAdded? && s.procs[p].free.NotFreeing?
    ensures Inv(SetProc(Release(s, s.procs[p].op.dp), p, Given(Given(s.procs[p], s.procs[p].op.dp), s.procs[p].op.ip).(op := Idle)))
  {
    hide Inv;
    ProcFacts(s, p);
    var q := s.procs[p];
    ReleaseKeeps(s, p, Given(Given(q, q.op.dp), q.op.ip).(op := Idle), q.op.dp);
  }

  lemma LinkBadKeeps(s: State, p: nat)
    requires Inv(s) && p < |s.procs| && s.procs[p].op.LinkMid? && s.procs[p].free.NotFreeing? && s.procs[p].walk == None && IsFree(s, s.procs[p].op.ip)
    ensures Inv(SetProc(Take(s, s.procs[p].op.ip, p), p, s.procs[p].(op := Owed(s.procs[p].op.ip))))
  {
    hide Inv;
    ProcFacts(s, p);
    var q := s.procs[p];
    TakeKeeps(s, p, q.(op := Owed(q.op.ip)), q.op.ip);
  }

  lemma FinishKeeps(s: State, p: nat)
    requires Inv(s) && p < |s.procs| && s.procs[p].op.Done? && s.procs[p].free.NotFreeing?
    ensures Inv(SetProc(Release(s, s.procs[p].op.ip), p, Given(s.procs[p], s.procs[p].op.ip).(op := Idle)))
  {
    hide Inv;
    ProcFacts(s, p);
    var q := s.procs[p];
    ReleaseKeeps(s, p, Given(q, q.op.ip).(op := Idle), q.op.ip);
  }

  lemma UnlinkLockKeeps(s: State, p: nat, i: nat)
    requires Inv(s) && p < |s.procs| && i in s.procs[p].base && AtRest(s.procs[p]) && IsFree(s, i)
      && i < |s.typ| && s.typ[i] == T_DIR
    ensures Inv(SetProc(Take(s, i, p), p, Kept(s.procs[p], i).(op := UnlinkDir(i))))
  {
    hide Inv;
    ProcFacts(s, p);
    var q := s.procs[p];
    TakeKeeps(s, p, Kept(q, i).(op := UnlinkDir(i)), i);
  }

  lemma UnlinkNoneKeeps(s: State, p: nat)
    requires Inv(s) && p < |s.procs| && s.procs[p].op.UnlinkDir? && s.procs[p].free.NotFreeing?
    ensures Inv(SetProc(Release(s, s.procs[p].op.dp), p, Given(s.procs[p], s.procs[p].op.dp).(op := Idle)))
  {
    hide Inv;
    ProcFacts(s, p);
    var q := s.procs[p];
    ReleaseKeeps(s, p, Given(q, q.op.dp).(op := Idle), q.op.dp);
  }

  lemma UnlinkIpLockKeeps(s: State, p: nat)
    requires Inv(s) && p < |s.procs| && s.procs[p].op.UnlinkFound? && s.procs[p].free.NotFreeing? && IsFree(s, s.procs[p].op.ip)
    ensures Inv(SetProc(Take(s, s.procs[p].op.ip, p), p, s.procs[p].(op := UnlinkBoth(s.procs[p].op.dp, s.procs[p].op.nm, s.procs[p].op.ip))))
  {
    hide Inv;
    ProcFacts(s, p);
    LockFact(s, p, s.procs[p].op.dp);
    var q := s.procs[p];
    TakeKeeps(s, p, q.(op := UnlinkBoth(q.op.dp, q.op.nm, q.op.ip)), q.op.ip);
  }

  lemma UnlinkBusyKeeps(s: State, p: nat)
    requires Inv(s) && p < |s.procs| && s.procs[p].op.UnlinkBoth? && s.procs[p].free.NotFreeing?
    ensures Inv(SetProc(Release(s, s.procs[p].op.ip), p, Given(s.procs[p], s.procs[p].op.ip).(op := Done(s.procs[p].op.dp))))
  {
    hide Inv;
    ProcFacts(s, p);
    var q := s.procs[p];
    ReleaseKeeps(s, p, Given(q, q.op.ip).(op := Done(q.op.dp)), q.op.ip);
  }

  lemma UnlinkParentKeeps(s: State, p: nat)
    requires Inv(s) && p < |s.procs| && s.procs[p].op.UnlinkGone? && s.procs[p].free.NotFreeing?
    ensures Inv(SetProc(Release(s, s.procs[p].op.dp), p, Given(s.procs[p], s.procs[p].op.dp).(op := Owed(s.procs[p].op.ip))))
  {
    hide Inv;
    ProcFacts(s, p);
    var q := s.procs[p];
    ReleaseKeeps(s, p, Given(q, q.op.dp).(op := Owed(q.op.ip)), q.op.dp);
  }

  lemma CreateLockKeeps(s: State, p: nat, i: nat, k: nat)
    requires Inv(s) && p < |s.procs| && i in s.procs[p].base && AtRest(s.procs[p]) && IsFree(s, i)
      && i < |s.typ| && s.typ[i] == T_DIR && k != 0
    ensures Inv(SetProc(Take(s, i, p), p, Kept(s.procs[p], i).(op := CreateDir(i, k))))
  {
    hide Inv;
    ProcFacts(s, p);
    var q := s.procs[p];
    TakeKeeps(s, p, Kept(q, i).(op := CreateDir(i, k)), i);
  }

  lemma CreatePlainKeeps(s: State, p: nat)
    requires Inv(s) && p < |s.procs| && s.procs[p].op.CreateNamed? && s.procs[p].free.NotFreeing? && s.procs[p].op.typ != T_DIR
    ensures Inv(SetProc(s, p, s.procs[p].(op := CreateDone(s.procs[p].op.dp, s.procs[p].op.ip))))
  {
    ProcFacts(s, p);
    var q := s.procs[p];
    var r := q.(op := CreateDone(q.op.dp, q.op.ip));
    var t := SetProc(s, p, r);
    assert OneProc(s, t, p) && Note(t, r);
    forall i | 0 <= i < NInodes(s)
      ensures Local(s, t, p, i) && LockAt(s, t, p, i) && Apart(s, t, p, i) && SameDirAt(s, t, p, i)
    {
    }
    hide Local, LockAt, Apart, SameDirAt, Note, Dirs, Counts, Locks, Notes, Takers, Takers;
    DirsKeep(s, t, p);
    Keeps(s, t, p);
  }

  lemma CreateFinishKeeps(s: State, p: nat)
    requires Inv(s) && p < |s.procs| && s.procs[p].op.CreateDone? && s.procs[p].free.NotFreeing?
    ensures Inv(SetProc(Release(s, s.procs[p].op.dp), p, Given(s.procs[p], s.procs[p].op.dp).(op := Idle, walk := Some(s.procs[p].op.ip))))
  {
    hide Inv;
    ProcFacts(s, p);
    var q := s.procs[p];
    ReleaseKeeps(s, p, Given(q, q.op.dp).(op := Idle, walk := Some(q.op.ip)), q.op.dp);
  }

  // nlink changes, in the cache and then on disk

  /** r stands for the same as q, but for the credit on i0 and its being ahead of the disk. */
  ghost predicate Adjusts(q: Proc, r: Proc, i0: nat, dc: int, da: int) {
    forall i: nat :: AdjustsAt(q, r, i0, dc, da, i)
  }

  ghost predicate AdjustsAt(q: Proc, r: Proc, i0: nat, dc: int, da: int, i: nat) {
    && RefsOf(q, i) == RefsOf(r, i) && (HasLock(q, i) <==> HasLock(r, i)) && (Making(q.op, i) ==> Making(r.op, i))
    && Steady(q, r) && Credit(r.op, i) == Credit(q.op, i) + (if i == i0 then dc else 0)
    && Ahead(r.op, i) == Ahead(q.op, i) + (if i == i0 then da else 0)
  }

  /** What a process refers to is in use, but for the inode it has just freed. */
  lemma LockedInUse(s: State, p: nat, i: nat)
    requires Inv(s) && p < |s.procs| && i < NInodes(s) && 0 < RefsOf(s.procs[p], i) && s.procs[p].free != Gone(i)
    ensures Typed(s, i) && RefsOf(s.procs[p], i) <= s.ref[i]
  {
    hide RefsOf, HasLock, Refs;
    ProcsBound(s.procs, p, i);
    assert CountsAt(s, i) && DirAt(s, i);
    if s.typ[i] == 0 {
      var k := s.lock[i].value;
      assert Note(s, s.procs[k]);
      FreeIsRef(s.procs[k], i);
      assert false;
    }
  }

  lemma FreeIsRef(q: Proc, i: nat)
    requires FreeIp(q.free) == Some(i)
    ensures q.base[i] < RefsOf(q, i)
    ensures RefsOf(q, i) == 1 ==> q.walk != Some(i) && Ip(q.op) != Some(i) && Dp(q.op) != Some(i)
  {
  }

  lemma SetNlinkKeeps(s: State, p: nat, r: Proc, i0: nat, v: nat)
    requires Inv(s) && p < |s.procs| && ProcFits(r, NInodes(s)) && i0 < NInodes(s) && HasLock(s.procs[p], i0)
    requires s.procs[p].free.NotFreeing?
    requires Adjusts(s.procs[p], r, i0, v as int - s.core[i0] as int, v as int - s.core[i0] as int)
    requires var t := SetProc(s.(core := s.core[i0 := v]), p, r); Sizes(t) && Note(t, r)
    ensures Inv(SetProc(s.(core := s.core[i0 := v]), p, r))
  {
    var t, d := SetProc(s.(core := s.core[i0 := v]), p, r), v as int - s.core[i0] as int;
    assert AdjustsAt(s.procs[p], r, i0, d, d, i0);
    assert OneProc(s, t, p);
    LockedInUse(s, p, i0);
    forall i | 0 <= i < NInodes(s)
      ensures Local(s, t, p, i) && LockAt(s, t, p, i) && Apart(s, t, p, i) && SameDirAt(s, t, p, i)
    {
      assert AdjustsAt(s.procs[p], r, i0, d, d, i);
      assert HasLock(s.procs[p], i) <==> s.lock[i] == Some(p);
    }
    hide Local, LockAt, Apart, SameDirAt, Note, Dirs, Counts, Locks, Notes, Takers, AdjustsAt;
    DirsKeep(s, t, p);
    Keeps(s, t, p);
  }

  lemma AheadHasLock(q: Proc, i: nat)
    requires Ahead(q.op, i) != 0
    ensures HasLock(q, i)
  {
  }

  lemma OnlyAhead(procs: seq<Proc>, p: nat, i: nat)
    requires p < |procs| && forall k :: 0 <= k < |procs| && k != p ==> Ahead(procs[k].op, i) == 0
    ensures Aheads(procs, i) == Ahead(procs[p].op, i)
  {
    hide Ahead, Sum;
    SumOne(seq(|procs|, k requires 0 <= k < |procs| => Ahead(procs[k].op, i)), p);
  }

  /** Only the process that has the inode locked can be ahead of the disk. */
  lemma AheadIs(s: State, p: nat, i: nat)
    requires Inv(s) && p < |s.procs| && i < NInodes(s) && (HasLock(s.procs[p], i) || s.lock[i] == None)
    ensures s.core[i] == s.disk[i] + Ahead(s.procs[p].op, i)
    ensures s.lock[i] == None ==> Ahead(s.procs[p].op, i) == 0
  {
    hide Ahead, HasLock, Sum;
    assert HasLock(s.procs[p], i) <==> s.lock[i] == Some(p);
    forall k | 0 <= k < |s.procs| && (k != p || s.lock[i] == None) ensures Ahead(s.procs[k].op, i) == 0 {
      if Ahead(s.procs[k].op, i) != 0 { AheadHasLock(s.procs[k], i); }
      assert HasLock(s.procs[k], i) <==> s.lock[i] == Some(k);
    }
    OnlyAhead(s.procs, p, i);
    assert CountsAt(s, i);
  }

  lemma IupdateAt(s: State, t: State, p: nat, r: Proc, i0: nat, i: nat)
    requires Inv(s) && p < |s.procs| && i0 < NInodes(s) && i < NInodes(s) && t == SetProc(Iupdate(s, i0), p, r) && OneProc(s, t, p)
    requires s.lock[i0] == Some(p) && Typed(s, i0) && s.core[i0] == s.disk[i0] + Ahead(s.procs[p].op, i0)
    requires AdjustsAt(s.procs[p], r, i0, 0, 0 - Ahead(s.procs[p].op, i0), i)
    ensures Local(s, t, p, i) && LockAt(s, t, p, i) && Apart(s, t, p, i) && SameDirAt(s, t, p, i)
  {
    hide Inv, Named, Credit, Ahead, RefsOf, Making, Claims, HasLock;
    InodeFacts(s, p, i);
  }

  lemma IupdateKeeps(s: State, p: nat, r: Proc, i0: nat)
    requires Inv(s) && p < |s.procs| && ProcFits(r, NInodes(s)) && i0 < NInodes(s) && HasLock(s.procs[p], i0)
    requires s.procs[p].free.NotFreeing?
    requires Adjusts(s.procs[p], r, i0, 0, 0 - Ahead(s.procs[p].op, i0))
    requires Note(s, r)
    ensures Inv(SetProc(Iupdate(s, i0), p, r))
  {
    hide Named, Credit, Ahead, RefsOf, Making, Claims, Local, LockAt, Apart, SameDirAt, Counts, Locks, Takers;
    var t, d := SetProc(Iupdate(s, i0), p, r), 0 - Ahead(s.procs[p].op, i0);
    assert AdjustsAt(s.procs[p], r, i0, 0, d, i0);
    assert OneProc(s, t, p);
    LockHasRef(s.procs[p], i0);
    LockedInUse(s, p, i0);
    LockFact(s, p, i0);
    AheadIs(s, p, i0);
    assert Note(t, r);
    hide Note, HasLock, Dirs, Notes;
    forall i | 0 <= i < NInodes(s)
      ensures Local(s, t, p, i) && LockAt(s, t, p, i) && Apart(s, t, p, i) && SameDirAt(s, t, p, i)
    {
      assert AdjustsAt(s.procs[p], r, i0, 0, d, i);
      IupdateAt(s, t, p, r, i0, i);
    }
    DirsKeep(s, t, p);
    Keeps(s, t, p);
  }

  lemma LinkRaiseKeeps(s: State, p: nat)
    requires Inv(s) && p < |s.procs| && s.procs[p].op.LinkLocked? && s.procs[p].free.NotFreeing? && s.procs[p].op.ip < |s.core|
    ensures Inv(SetProc(Bump(s, s.procs[p].op.ip), p, s.procs[p].(op := LinkRaised(s.procs[p].op.ip))))
  {
    hide Inv;
    ProcFacts(s, p);
    var q := s.procs[p];
    SetNlinkKeeps(s, p, q.(op := LinkRaised(q.op.ip)), q.op.ip, s.core[q.op.ip] + 1);
  }

  lemma LowerKeeps(s: State, p: nat)
    requires Inv(s) && p < |s.procs| && s.procs[p].op.Owed? && s.procs[p].free.NotFreeing? && s.procs[p].op.ip < |s.core| && 0 < s.core[s.procs[p].op.ip]
    ensures Inv(SetProc(Drop(s, s.procs[p].op.ip), p, s.procs[p].(op := Lowered(s.procs[p].op.ip))))
  {
    hide Inv;
    ProcFacts(s, p);
    var q := s.procs[p];
    SetNlinkKeeps(s, p, q.(op := Lowered(q.op.ip)), q.op.ip, s.core[q.op.ip] - 1);
  }

  lemma CreateRaiseKeeps(s: State, p: nat)
    requires Inv(s) && p < |s.procs| && s.procs[p].op.CreateLocked? && s.procs[p].free.NotFreeing? && s.procs[p].op.ip < |s.core|
    ensures var q := s.procs[p];
            Inv(SetProc(s.(core := s.core[q.op.ip := 1]), p, q.(op := CreateRaised(q.op.dp, q.op.ip, q.op.typ))))
  {
    hide Inv;
    ProcFacts(s, p);
    var q := s.procs[p];
    SetNlinkKeeps(s, p, q.(op := CreateRaised(q.op.dp, q.op.ip, q.op.typ)), q.op.ip, 1);
  }

  lemma CreateRefuseKeeps(s: State, p: nat)
    requires Inv(s) && p < |s.procs| && s.procs[p].op.CreateStored? && s.procs[p].free.NotFreeing? && s.procs[p].op.ip < |s.core|
    ensures var q := s.procs[p];
            Inv(SetProc(s.(core := s.core[q.op.ip := 0]), p, q.(op := CreateFailed(q.op.dp, q.op.ip))))
  {
    hide Inv;
    ProcFacts(s, p);
    var q := s.procs[p];
    SetNlinkKeeps(s, p, q.(op := CreateFailed(q.op.dp, q.op.ip)), q.op.ip, 0);
  }

  lemma ParentRaiseKeeps(s: State, p: nat)
    requires Inv(s) && p < |s.procs| && s.procs[p].op.CreateNamed? && s.procs[p].free.NotFreeing? && s.procs[p].op.typ == T_DIR
    requires s.procs[p].op.dp < |s.core|
    ensures var q := s.procs[p]; Inv(SetProc(Bump(s, q.op.dp), p, q.(op := ParentRaised(q.op.dp, q.op.ip))))
  {
    hide Inv;
    ProcFacts(s, p);
    var q := s.procs[p];
    SetNlinkKeeps(s, p, q.(op := ParentRaised(q.op.dp, q.op.ip)), q.op.dp, s.core[q.op.dp] + 1);
  }

  /** The op after an iupdate. */
  function Stored(op: Op): Op
    requires op.LinkRaised? || op.Lowered? || op.CreateRaised? || op.ParentRaised?
  {
    match op
    case LinkRaised(ip) => LinkStored(ip)
    case Lowered(ip) => Done(ip)
    case CreateRaised(dp, ip, k) => CreateStored(dp, ip, k)
    case ParentRaised(dp, ip) => ParentStored(dp, ip)
  }

  lemma StoreKeeps(s: State, p: nat, i0: nat)
    requires Inv(s) && p < |s.procs| && i0 < |s.core| == |s.disk| == |s.typ| == |s.stored|
    requires var op := s.procs[p].op;
             s.procs[p].free.NotFreeing? && (op.LinkRaised? || op.Lowered? || op.CreateRaised? || op.ParentRaised?) &&
             i0 == if op.ParentRaised? then op.dp else op.ip
    ensures Inv(SetProc(Iupdate(s, i0), p, s.procs[p].(op := Stored(s.procs[p].op))))
  {
    hide Inv;
    ProcFacts(s, p);
    var q := s.procs[p];
    IupdateKeeps(s, p, q.(op := Stored(q.op)), i0);
  }

  // Directory entries come and go

  function Uses(nm: Name, i: nat, i0: nat): nat { if nm != DOT && i == i0 then 1 else 0 }

  /** r stands for the same as q, less the credit that an entry nm for i0 uses up. */
  ghost predicate SpendsAt(q: Proc, r: Proc, nm: Name, i0: nat, i: nat) {
    && RefsOf(q, i) == RefsOf(r, i) && (HasLock(q, i) <==> HasLock(r, i)) && Ahead(r.op, i) == Ahead(q.op, i)
    && Credit(r.op, i) + Uses(nm, i, i0) == Credit(q.op, i) && Steady(q, r)
  }

  lemma NamedAdd(s: State, d: nat, nm: Name, i0: nat, i: nat)
    requires d < |s.dirs| && nm !in s.dirs[d]
    ensures Named(AddName(s, d, nm, i0).dirs, i) == Named(s.dirs, i) + Uses(nm, i, i0)
  {
    CountPut(s.dirs[d], nm, i0, i);
    NamedUpdate(s.dirs, d, s.dirs[d][nm := i0], i);
  }

  lemma AddNameKeeps(s: State, p: nat, r: Proc, d: nat, nm: Name, i0: nat)
    requires Inv(s) && p < |s.procs| && ProcFits(r, NInodes(s)) && i0 < NInodes(s) && d < NInodes(s)
    requires HasLock(s.procs[p], d) && s.typ[d] == T_DIR && nm !in s.dirs[d] && (nm == DOT ==> i0 == d)
    requires forall i: nat :: SpendsAt(s.procs[p], r, nm, i0, i)
    requires forall i: nat :: Making(s.procs[p].op, i) ==> Making(r.op, i) || (i == d && nm == DOT) || !IsDirIn(s, i)
    requires var t := SetProc(AddName(s, d, nm, i0), p, r); Sizes(t) && Note(t, r)
    ensures Inv(SetProc(AddName(s, d, nm, i0), p, r))
  {
    var t := SetProc(AddName(s, d, nm, i0), p, r);
    assert SpendsAt(s.procs[p], r, nm, i0, i0);
    assert OneProc(s, t, p);
    forall i | 0 <= i < NInodes(s) ensures Local(s, t, p, i) && LockAt(s, t, p, i) && Apart(s, t, p, i) {
      assert SpendsAt(s.procs[p], r, nm, i0, i);
      NamedAdd(s, d, nm, i0, i);
      assert HasLock(s.procs[p], i) <==> s.lock[i] == Some(p);
    }
    assert Dirs(t) by { AddNameDirs(s, t, p, r, d, nm, i0); }
    hide Local, LockAt, Apart, Note, Dirs, Counts, Locks, Notes, Takers, SpendsAt;
    Keeps(s, t, p);
  }

  ghost predicate IsDirIn(s: State, i: nat) { i < |s.typ| && s.typ[i] == T_DIR }

  lemma AddNameDirs(s: State, t: State, p: nat, r: Proc, d: nat, nm: Name, i0: nat)
    requires Inv(s) && p < |s.procs| && i0 < NInodes(s) && d < NInodes(s) && nm !in s.dirs[d] && (nm == DOT ==> i0 == d)
    requires s.typ[d] == T_DIR && t == SetProc(AddName(s, d, nm, i0), p, r) && OneProc(s, t, p)
    requires Steady(s.procs[p], r)
    requires forall i: nat :: Making(s.procs[p].op, i) ==> Making(r.op, i) || (i == d && nm == DOT) || !IsDirIn(s, i)
    ensures Dirs(t)
  {
    hide Making;
    forall e | 0 <= e < NInodes(t) ensures DirAt(t, e) { assert DirAt(s, e); }
  }

  /** A directory that is not being made has its ".". */
  lemma HasDot(s: State, p: nat, d: nat)
    requires Inv(s) && p < |s.procs| && d < NInodes(s) && s.typ[d] == T_DIR && HasLock(s.procs[p], d)
    requires !Making(s.procs[p].op, d)
    ensures DOT in s.dirs[d]
  {
    assert DirAt(s, d);
    LockFact(s, p, d);
  }

  lemma LinkAddKeeps(s: State, p: nat, nm: Name)
    requires Inv(s) && p < |s.procs| && s.procs[p].op.LinkDir? && s.procs[p].free.NotFreeing?
    requires s.procs[p].op.dp < |s.dirs| && nm !in s.dirs[s.procs[p].op.dp]
    ensures var q := s.procs[p]; Inv(SetProc(AddName(s, q.op.dp, nm, q.op.ip), p, q.(op := LinkAdded(q.op.ip, q.op.dp))))
  {
    hide Inv;
    ProcFacts(s, p);
    var q := s.procs[p];
    HasDot(s, p, q.op.dp);
    AddNameKeeps(s, p, q.(op := LinkAdded(q.op.ip, q.op.dp)), q.op.dp, nm, q.op.ip);
  }

  lemma CreateLinkKeeps(s: State, p: nat, nm: Name)
    requires Inv(s) && p < |s.procs| && s.procs[p].op.CreateStored? && s.procs[p].free.NotFreeing?
    requires s.procs[p].op.dp < |s.dirs| && nm !in s.dirs[s.procs[p].op.dp]
    ensures var q := s.procs[p];
            Inv(SetProc(AddName(s, q.op.dp, nm, q.op.ip), p, q.(op := CreateNamed(q.op.dp, q.op.ip, q.op.typ))))
  {
    hide Inv;
    ProcFacts(s, p);
    var q := s.procs[p];
    HasDot(s, p, q.op.dp);
    AddNameKeeps(s, p, q.(op := CreateNamed(q.op.dp, q.op.ip, q.op.typ)), q.op.dp, nm, q.op.ip);
  }

  lemma DotAddKeeps(s: State, p: nat)
    requires Inv(s) && p < |s.procs| && s.procs[p].op.ParentStored? && s.procs[p].free.NotFreeing?
    requires s.procs[p].op.ip < |s.dirs| && DOT !in s.dirs[s.procs[p].op.ip]
    ensures var q := s.procs[p]; Inv(SetProc(AddName(s, q.op.ip, DOT, q.op.ip), p, q.(op := DotAdded(q.op.dp, q.op.ip))))
  {
    hide Inv;
    ProcFacts(s, p);
    var q := s.procs[p];
    AddNameKeeps(s, p, q.(op := DotAdded(q.op.dp, q.op.ip)), q.op.ip, DOT, q.op.ip);
  }

  lemma DotDotAddKeeps(s: State, p: nat)
    requires Inv(s) && p < |s.procs| && s.procs[p].op.DotAdded? && s.procs[p].free.NotFreeing?
    requires s.procs[p].op.ip < |s.dirs| && DOTDOT !in s.dirs[s.procs[p].op.ip]
    ensures var q := s.procs[p];
            Inv(SetProc(AddName(s, q.op.ip, DOTDOT, q.op.dp), p, q.(op := CreateDone(q.op.dp, q.op.ip))))
  {
    hide Inv;
    ProcFacts(s, p);
    var q := s.procs[p];
    AddNameKeeps(s, p, q.(op := CreateDone(q.op.dp, q.op.ip)), q.op.ip, DOTDOT, q.op.dp);
  }

  lemma UnlinkClearAt(s: State, t: State, p: nat, m: Entries, e: nat)
    requires Inv(s) && p < |s.procs| && s.procs[p].op.UnlinkBoth? && s.procs[p].free.NotFreeing? && Note(s, s.procs[p])
    requires var op := s.procs[p].op;
             && op.dp < NInodes(s) && s.lock[op.dp] == Some(p) && m == s.dirs[op.dp] - {op.nm}
             && t == SetProc(s.(dirs := s.dirs[op.dp := m]), p, s.procs[p].(op := UnlinkGone(op.dp, op.ip)))
    requires OneProc(s, t, p) && e < NInodes(s)
    ensures Local(s, t, p, e) && LockAt(s, t, p, e) && Apart(s, t, p, e) && DirAt(t, e)
  {
    hide Inv, Named, NamesFor;
    InodeFacts(s, p, e);
    CountDrop(s.dirs[s.procs[p].op.dp], s.procs[p].op.nm, e);
    NamedUpdate(s.dirs, s.procs[p].op.dp, m, e);
  }

  lemma UnlinkClearKeeps(s: State, p: nat)
    requires Inv(s) && p < |s.procs| && s.procs[p].op.UnlinkBoth? && s.procs[p].free.NotFreeing? && s.procs[p].op.dp < |s.dirs|
    ensures var q := s.procs[p];
            var m: Entries := s.dirs[q.op.dp] - {q.op.nm};
            Inv(SetProc(s.(dirs := s.dirs[q.op.dp := m]), p, q.(op := UnlinkGone(q.op.dp, q.op.ip))))
  {
    hide Inv;
    ProcFacts(s, p);
    var q := s.procs[p];
    var d, r := q.op.dp, q.(op := UnlinkGone(q.op.dp, q.op.ip));
    var m: Entries := s.dirs[d] - {q.op.nm};
    var t := SetProc(s.(dirs := s.dirs[d := m]), p, r);
    LockFact(s, p, d);
    InodeFacts(s, p, d);
    assert OneProc(s, t, p) && Note(t, r);
    hide Local, LockAt, Apart, Note, DirAt, OneProc;
    forall e | 0 <= e < NInodes(s) ensures Local(s, t, p, e) && LockAt(s, t, p, e) && Apart(s, t, p, e) && DirAt(t, e) {
      UnlinkClearAt(s, t, p, m, e);
    }
    KeepsAll(s, t, p);
  }

  // References

  lemma {:induction false} NamedPositive(dirs: seq<Entries>, d: nat, nm: Name)
    requires d < |dirs| && nm in dirs[d] && nm != DOT
    ensures 1 <= Named(dirs, dirs[d][nm])
  {
    var i := dirs[d][nm];
    NamedBound(dirs, d, i);
    assert nm in NamesFor(dirs[d], i);
  }

  /** What an entry names is in use, and linked unless the entry is ".". */
  lemma EntryInUse(s: State, d: nat, nm: Name)
    requires Inv(s) && d < NInodes(s) && nm in s.dirs[d]
    ensures s.dirs[d][nm] < NInodes(s) && Typed(s, s.dirs[d][nm])
    ensures nm != DOT ==> 0 < s.core[s.dirs[d][nm]]
  {
    assert DirAt(s, d);
    var i := s.dirs[d][nm];
    assert DirAt(s, i);
    if nm != DOT {
      NamedPositive(s.dirs, d, nm);
      CreditsNonNeg(s.procs, i);
      assert CountsAt(s, i);
    }
  }

  lemma CreditsNonNeg(procs: seq<Proc>, i: nat)
    ensures 0 <= Credits(procs, i)
  {
    hide Sum, Credit;
    SumNonNeg(seq(|procs|, k requires 0 <= k < |procs| => Credit(procs[k].op, i)));
  }

  /** Nobody else has a reference to an inode that create has just allocated, and no entry names it. */
  lemma PrivateIs(s: State, k: nat, i: nat)
    requires Inv(s) && k < |s.procs| && i < NInodes(s) && Private(s.procs[k].op, i)
    ensures Named(s.dirs, i) == 0 && s.dirs[i] == map[]
    ensures forall p :: 0 <= p < |s.procs| && p != k ==> RefsOf(s.procs[p], i) == 0
    ensures s.procs[k].base[i] == 0 && s.procs[k].walk != Some(i) && FreeIp(s.procs[k].free) != Some(i)
  {
    ProcFacts(s, k);
    ProcsBound(s.procs, k, i);
    assert CountsAt(s, i);
    NamedBound(s.dirs, i, i);
  }

  /** The same of an inode that iput is freeing, but that it may be a directory still. */
  lemma FreeingIs(s: State, k: nat, i: nat)
    requires Inv(s) && k < |s.procs| && i < NInodes(s) && FreeIp(s.procs[k].free) == Some(i)
    ensures Named(s.dirs, i) == 0 && s.core[i] == 0 && s.ref[i] == 1 && s.lock[i] == Some(k) && RefsOf(s.procs[k], i) == 1
    ensures forall p :: 0 <= p < |s.procs| && p != k ==> RefsOf(s.procs[p], i) == 0
    ensures s.procs[k].base[i] == 0 && s.procs[k].walk != Some(i) && Ip(s.procs[k].op) != Some(i) && Dp(s.procs[k].op) != Some(i)
  {
    hide RefsOf, Refs;
    ProcFacts(s, k);
    FreeIsRef(s.procs[k], i);
    ProcsBound(s.procs, k, i);
    assert CountsAt(s, i);
    NamedBound(s.dirs, i, i);
    LockFact(s, k, i);
  }

  /** An inode someone can get hold of is not private to anybody. */
  lemma NotPrivate(s: State, i: nat, k: nat)
    requires Inv(s) && i < NInodes(s) && k < |s.procs|
    requires || (exists p :: 0 <= p < |s.procs| && i in s.procs[p].base) || 0 < Named(s.dirs, i)
             || (s.dirs[i] != map[] && s.lock[i] != Some(k))
    ensures !Claims(s.procs[k], i)
  {
    if Private(s.procs[k].op, i) { PrivateIs(s, k, i); LockFact(s, k, i); }
    if FreeIp(s.procs[k].free) == Some(i) { FreeingIs(s, k, i); }
  }

  ghost predicate GainsAt(q: Proc, r: Proc, i0: nat, i: nat) {
    && RefsOf(r, i) == RefsOf(q, i) + (if i == i0 then 1 else 0) && (HasLock(q, i) <==> HasLock(r, i))
    && Ahead(r.op, i) == Ahead(q.op, i) && Credit(r.op, i) == Credit(q.op, i) && (Making(q.op, i) ==> Making(r.op, i))
    && Steady(q, r)
  }

  lemma AddRefAt(s: State, t: State, p: nat, r: Proc, i0: nat, i: nat)
    requires Inv(s) && p < |s.procs| && i0 < NInodes(s) && i < NInodes(s) && s.typ[i0] != 0
    requires t == SetProc(AddRef(s, i0), p, r) && OneProc(s, t, p) && GainsAt(s.procs[p], r, i0, i)
    requires forall k :: 0 <= k < |s.procs| ==> !Claims(s.procs[k], i0)
    ensures Local(s, t, p, i) && LockAt(s, t, p, i) && Apart(s, t, p, i) && SameDirAt(s, t, p, i)
  {
    hide Inv, Named, Credit, Ahead, RefsOf, Making, Claims, HasLock;
    InodeFacts(s, p, i);
  }

  lemma AddRefNote(s: State, t: State, p: nat, r: Proc, i0: nat)
    requires Sizes(s) && p < |s.procs| && i0 < NInodes(s) && t == SetProc(AddRef(s, i0), p, r) && Sizes(t)
    requires ProcFits(r, NInodes(s)) && Note(s, r) && !Claims(r, i0)
    ensures Note(t, r)
  {
  }

  lemma AddRefKeeps(s: State, p: nat, r: Proc, i0: nat)
    requires Inv(s) && p < |s.procs| && ProcFits(r, NInodes(s)) && i0 < NInodes(s) && s.typ[i0] != 0
    requires forall i: nat :: GainsAt(s.procs[p], r, i0, i)
    requires forall k :: 0 <= k < |s.procs| ==> !Claims(s.procs[k], i0)
    requires Note(s, r) && !Claims(r, i0)
    ensures Inv(SetProc(AddRef(s, i0), p, r))
  {
    hide Claims, Note, Private, RefsOf, HasLock, Credit, Ahead, Making, Local, LockAt, Apart, SameDirAt, Counts, Locks, Takers;
    var t := SetProc(AddRef(s, i0), p, r);
    assert GainsAt(s.procs[p], r, i0, i0);
    assert OneProc(s, t, p);
    assert Note(t, r) by { AddRefNote(s, t, p, r, i0); }
    forall i | 0 <= i < NInodes(s)
      ensures Local(s, t, p, i) && LockAt(s, t, p, i) && Apart(s, t, p, i) && SameDirAt(s, t, p, i)
    {
      assert GainsAt(s.procs[p], r, i0, i);
      AddRefAt(s, t, p, r, i0, i);
    }
    hide Dirs, Notes, GainsAt;
    DirsKeep(s, t, p);
    Keeps(s, t, p);
  }

  lemma GivenClaims(q: Proc, i: nat)
    ensures Claims(Given(q, i), i) <==> Claims(q, i)
  {
  }

  lemma GivenKeeps(s: State, p: nat, i0: nat)
    requires Inv(s) && p < |s.procs| && i0 < NInodes(s) && s.typ[i0] != 0
    requires forall k :: 0 <= k < |s.procs| ==> !Claims(s.procs[k], i0)
    ensures Inv(SetProc(AddRef(s, i0), p, Given(s.procs[p], i0)))
  {
    hide Inv;
    ProcFacts(s, p);
    var r := Given(s.procs[p], i0);
    assert Note(s, r);
    hide Note, Credit, Ahead, Making, Claims, IpLocked;
    forall i: nat ensures GainsAt(s.procs[p], r, i0, i) {}
    assert !Claims(r, i0) by { GivenClaims(s.procs[p], i0); }
    AddRefKeeps(s, p, r, i0);
  }

  /** What dirlookup finds can be given a reference. */
  lemma EntryKeeps(s: State, p: nat, d: nat, nm: Name)
    requires Inv(s) && p < |s.procs| && d < NInodes(s) && nm in s.dirs[d]
    requires HasLock(s.procs[p], d) && s.procs[p].free.NotFreeing? && !Private(s.procs[p].op, d)
    ensures s.dirs[d][nm] < NInodes(s)
    ensures Inv(SetProc(AddRef(s, s.dirs[d][nm]), p, Given(s.procs[p], s.dirs[d][nm])))
    ensures forall k :: 0 <= k < |s.procs| ==> !Claims(s.procs[k], s.dirs[d][nm])
  {
    EntryInUse(s, d, nm);
    var i := s.dirs[d][nm];
    if nm != DOT { NamedPositive(s.dirs, d, nm); } else { assert DirAt(s, d); }
    LockFact(s, p, d);
    hide Inv;
    forall k | 0 <= k < |s.procs| ensures !Claims(s.procs[k], i) { if k != p || nm != DOT { NotPrivate(s, i, k); } }
    GivenKeeps(s, p, i);
  }

  lemma DupKeeps(s: State, p: nat, i: nat, to: nat)
    requires Inv(s) && p < |s.procs| && to < |s.procs| && i in s.procs[p].base && s.procs[p].free.NotFreeing?
    ensures i < NInodes(s) && Inv(SetProc(AddRef(s, i), to, Given(s.procs[to], i)))
  {
    ProcFacts(s, p);
    LockedInUse(s, p, i);
    forall k | 0 <= k < |s.procs| ensures !Claims(s.procs[k], i) { NotPrivate(s, i, k); }
    GivenKeeps(s, to, i);
  }

  /** The root is always in use: its ".." names it. */
  lemma RootInUse(s: State)
    requires Inv(s)
    ensures s.typ[ROOT] == T_DIR && 0 < s.core[ROOT] && 0 < Named(s.dirs, ROOT)
  {
    EntryInUse(s, ROOT, DOTDOT);
    NamedPositive(s.dirs, ROOT, DOTDOT);
  }

  lemma UnlinkFindKeeps(s: State, p: nat, nm: Name)
    requires Inv(s) && p < |s.procs| && s.procs[p].op.UnlinkDir? && s.procs[p].free.NotFreeing? && nm != DOT && nm != DOTDOT
    requires s.procs[p].op.dp < |s.dirs| && nm in s.dirs[s.procs[p].op.dp]
    ensures var q := s.procs[p];
            var i := s.dirs[q.op.dp][nm];
            i < |s.ref| && Inv(SetProc(AddRef(s, i), p, q.(op := UnlinkFound(q.op.dp, nm, i))))
  {
    ProcFacts(s, p);
    var q := s.procs[p];
    var i := s.dirs[q.op.dp][nm];
    EntryInUse(s, q.op.dp, nm);
    EntryKeeps(s, p, q.op.dp, nm);
    hide Inv;
    AddRefKeeps(s, p, q.(op := UnlinkFound(q.op.dp, nm, i)), i);
  }

  lemma CreateFoundKeeps(s: State, p: nat, nm: Name)
    requires Inv(s) && p < |s.procs| && s.procs[p].op.CreateDir? && s.procs[p].free.NotFreeing?
    requires s.procs[p].op.dp < |s.dirs| && nm in s.dirs[s.procs[p].op.dp]
    ensures var q := s.procs[p];
            var i := s.dirs[q.op.dp][nm];
            i < |s.ref| && Inv(SetProc(AddRef(s, i), p, Given(q, i).(op := Done(q.op.dp))))
  {
    ProcFacts(s, p);
    var q := s.procs[p];
    var i := s.dirs[q.op.dp][nm];
    EntryInUse(s, q.op.dp, nm);
    EntryKeeps(s, p, q.op.dp, nm);
    hide Inv;
    AddRefKeeps(s, p, Given(q, i).(op := Done(q.op.dp)), i);
  }

  // Inodes are allocated and freed

  lemma LockHasRef(q: Proc, i: nat)
    requires HasLock(q, i)
    ensures q.base[i] < RefsOf(q, i)
  {
  }

  /** If p could drop the last reference to i, or nobody has one, nobody has i locked. */
  lemma Unlocked(s: State, p: nat, i: nat)
    requires Inv(s) && p < |s.procs| && i < NInodes(s)
    requires s.ref[i] == 0 || (s.ref[i] == 1 && i in s.procs[p].base)
    ensures s.lock[i] == None
  {
    hide RefsOf, HasLock, Dirs, Notes;
    if s.lock[i].Some? {
      var k := s.lock[i].value;
      assert HasLock(s.procs[k], i);
      LockHasRef(s.procs[k], i);
      ProcsBound(s.procs, k, i);
      assert CountsAt(s, i);
      if k != p { BaseIsRef(s.procs[p], i); }
      assert false;
    }
  }

  lemma BaseIsRef(q: Proc, i: nat)
    ensures q.base[i] <= RefsOf(q, i)
  {
  }

  /** Keeps, with the directories looked at one by one. */
  lemma KeepsAll(s: State, t: State, p: nat)
    requires OneProc(s, t, p) && Inv(s) && Note(t, t.procs[p]) && RootStays(t)
    requires forall i :: 0 <= i < NInodes(s) ==> Local(s, t, p, i) && LockAt(s, t, p, i) && Apart(s, t, p, i) && DirAt(t, i)
    ensures Inv(t)
  {
    hide Local, LockAt, Apart, Note, DirAt, Counts, Locks, Notes;
    Keeps(s, t, p);
  }

  ghost predicate RootStays(t: State)
    requires Sizes(t)
  {
    t.typ[ROOT] == T_DIR && DOTDOT in t.dirs[ROOT] && t.dirs[ROOT][DOTDOT] == ROOT
  }

  lemma InodeFacts(s: State, p: nat, i: nat)
    requires Inv(s) && p < |s.procs| && i < NInodes(s)
    ensures Sizes(s) && DirAt(s, i) && (HasLock(s.procs[p], i) <==> s.lock[i] == Some(p)) && RootStays(s)
    ensures s.lock[i].Some? ==> s.lock[i].value < |s.procs| && s.valid[i]
  {
  }

  lemma CreateTakeKeeps(s: State, p: nat, i: nat)
    requires Inv(s) && p < |s.procs| && s.procs[p].op.CreateDir? && s.procs[p].free.NotFreeing? && i < NInodes(s)
    requires i < |s.stored| && i < |s.disk| && s.stored[i] == 0
    ensures var q := s.procs[p];
            Inv(SetProc(s.(stored := s.stored[i := q.op.typ], disk := s.disk[i := 0]), p, q.(op := CreateTook(q.op.dp, i, q.op.typ))))
  {
    hide Inv;
    ProcFacts(s, p);
    InodeFacts(s, p, i);
    var q := s.procs[p];
    var r := q.(op := CreateTook(q.op.dp, i, q.op.typ));
    var t := SetProc(s.(stored := s.stored[i := q.op.typ], disk := s.disk[i := 0]), p, r);
    assert t.disk == s.disk;
    assert OneProc(s, t, p) && Note(t, r);
    hide Note;
    forall e | 0 <= e < NInodes(s)
      ensures Local(s, t, p, e) && LockAt(s, t, p, e) && Apart(s, t, p, e) && DirAt(t, e)
    {
      InodeFacts(s, p, e);
    }
    hide Local, LockAt, Apart, DirAt, OneProc;
    KeepsAll(s, t, p);
  }

  /** The state after iget of an inode that nobody refers to, and ilock. */
  function Fetched(s: State, p: nat, dp: nat, i: nat, k: nat): State
    requires Sizes(s) && p < |s.procs| && i < NInodes(s)
  {
    SetProc(Take(AddRef(Iread(s, i), i), i, p), p, s.procs[p].(op := CreateLocked(dp, i, k)))
  }

  lemma CreateGetAt(s: State, t: State, p: nat, e: nat)
    requires Inv(s) && p < |s.procs| && s.procs[p].op.CreateTook? && s.procs[p].free.NotFreeing? && Note(s, s.procs[p])
    requires var op := s.procs[p].op;
             op.ip < NInodes(s) && s.ref[op.ip] == 0 && s.lock[op.ip] == None && t == Fetched(s, p, op.dp, op.ip, op.typ)
    requires OneProc(s, t, p) && e < NInodes(s)
    ensures Local(s, t, p, e) && LockAt(s, t, p, e) && Apart(s, t, p, e) && DirAt(t, e)
  {
    hide Inv, Named;
    InodeFacts(s, p, s.procs[p].op.ip);
    InodeFacts(s, p, e);
  }

  lemma CreateGetKeeps(s: State, p: nat)
    requires Inv(s) && p < |s.procs| && s.procs[p].op.CreateTook? && s.procs[p].free.NotFreeing?
    requires Sizes(s) && s.ref[s.procs[p].op.ip] == 0
    ensures var op := s.procs[p].op; Inv(Fetched(s, p, op.dp, op.ip, op.typ))
  {
    hide Inv;
    ProcFacts(s, p);
    var op := s.procs[p].op;
    InodeFacts(s, p, op.ip);
    Unlocked(s, p, op.ip);
    var t := Fetched(s, p, op.dp, op.ip, op.typ);
    assert OneProc(s, t, p) && Note(t, t.procs[p]);
    hide Local, LockAt, Apart, Note, DirAt, OneProc;
    forall e | 0 <= e < NInodes(s)
      ensures Local(s, t, p, e) && LockAt(s, t, p, e) && Apart(s, t, p, e) && DirAt(t, e)
    {
      CreateGetAt(s, t, p, e);
    }
    KeepsAll(s, t, p);
  }

  lemma NamedEmpty(dirs: seq<Entries>, d: nat, i: nat)
    requires d < |dirs|
    ensures Named(dirs[d := map[]], i) == Named(dirs, i) - CountIn(dirs[d], i)
  {
    NamedUpdate(dirs, d, map[], i);
    assert NamesFor(map[], i) == {};
  }

  /** An inode is freed only when no entry names it and nobody else refers to it. */
  lemma FreeIsSafe(s: State, p: nat, i: nat)
    requires Inv(s) && p < |s.procs| && i in s.procs[p].base && i < NInodes(s) && Frees(s, i)
    ensures s.lock[i] == None && Named(s.dirs, i) == 0 && s.disk[i] == 0 && i != ROOT
    ensures forall k :: 0 <= k < |s.procs| && k != p ==> RefsOf(s.procs[k], i) == 0
  {
    Unlocked(s, p, i);
    AheadIs(s, p, i);
    ProcsBound(s.procs, p, i);
    BaseIsRef(s.procs[p], i);
    NamedBound(s.dirs, i, i);
    assert CountsAt(s, i);
    RootInUse(s);
  }

  lemma MakingLocks(q: Proc, i: nat)
    requires Making(q.op, i)
    ensures HasLock(q, i)
  {
  }

  lemma FreeStartNote(s: State, q: Proc, i: nat)
    requires Sizes(s) && ProcFits(q, NInodes(s)) && Note(s, q) && i < NInodes(s) && Frees(s, i) && q.free.NotFreeing?
    ensures var r := Kept(q, i).(free := Busy(i)); ProcFits(r, NInodes(s)) && Note(s, r)
  {
  }

  lemma FreeShifts(q: Proc, i: nat)
    requires i in q.base && q.free.NotFreeing?
    ensures Shift(q, Kept(q, i).(free := Busy(i)), i, true)
  {
    hide Credit, Ahead, Making, IpLocked;
    var r := Kept(q, i).(free := Busy(i));
    forall e: nat ensures ShiftAt(q, r, i, true, e) { if Making(q.op, e) { MakingLocks(q, e); } }
  }

  lemma FreeStartKeeps(s: State, p: nat, i: nat)
    requires Inv(s) && p < |s.procs| && i in s.procs[p].base && i < NInodes(s) && Frees(s, i) && s.procs[p].free.NotFreeing?
    ensures Inv(SetProc(Take(s, i, p), p, Kept(s.procs[p], i).(free := Busy(i))))
  {
    hide Inv, Note, Named, Shift;
    ProcFacts(s, p);
    FreeIsSafe(s, p, i);
    var q := s.procs[p];
    FreeStartNote(s, q, i);
    FreeShifts(q, i);
    TakeKeeps(s, p, Kept(q, i).(free := Busy(i)), i);
  }

  /** r is to q as after storing type 0 in i. */
  ghost predicate ErasesAt(q: Proc, r: Proc, i: nat, e: nat) {
    && RefsOf(r, e) == RefsOf(q, e) && (HasLock(r, e) <==> HasLock(q, e)) && Credit(r.op, e) == Credit(q.op, e)
    && (e == i ==> Ahead(r.op, e) == 0) && (e != i ==> Ahead(r.op, e) == Ahead(q.op, e) && (Making(q.op, e) ==> Making(r.op, e)))
  }

  lemma EraseAt(s: State, t: State, p: nat, r: Proc, i: nat, e: nat)
    requires Inv(s) && p < |s.procs| && i < NInodes(s) && t == SetProc(Erase(s, i), p, r) && OneProc(s, t, p) && e < NInodes(s)
    requires s.lock[i] == Some(p) && s.core[i] == 0 && s.typ[i] != 0 && r.free == Gone(i) && !s.procs[p].free.Gone?
    requires s.core[i] == s.disk[i] + Ahead(s.procs[p].op, i) && ErasesAt(s.procs[p], r, i, e)
    ensures Local(s, t, p, e) && LockAt(s, t, p, e) && Apart(s, t, p, e) && DirAt(t, e)
  {
    hide Inv, Named, RefsOf, HasLock, Credit, Ahead, Making;
    InodeFacts(s, p, e);
    NamedEmpty(s.dirs, i, e);
  }

  /** itrunc, type 0 and iupdate, by the only process that refers to i. */
  lemma EraseKeeps(s: State, p: nat, r: Proc, i: nat)
    requires Inv(s) && p < |s.procs| && i < NInodes(s) && ProcFits(r, NInodes(s)) && (r.op.CreateTook? ==> r.op == s.procs[p].op)
    requires HasLock(s.procs[p], i) && s.ref[i] == 1 && s.core[i] == 0 && r.free == Gone(i) && !s.procs[p].free.Gone?
    requires forall e: nat :: ErasesAt(s.procs[p], r, i, e)
    requires Note(SetProc(Erase(s, i), p, r), r)
    ensures Inv(SetProc(Erase(s, i), p, r))
  {
    var t := SetProc(Erase(s, i), p, r);
    LockHasRef(s.procs[p], i);
    LockedInUse(s, p, i);
    AheadIs(s, p, i);
    LockFact(s, p, i);
    RootInUse(s);
    InodeFacts(s, p, i);
    hide Inv;
    assert OneProc(s, t, p);
    hide Local, LockAt, Apart, Note, DirAt, OneProc;
    forall e | 0 <= e < NInodes(s)
      ensures Local(s, t, p, e) && LockAt(s, t, p, e) && Apart(s, t, p, e) && DirAt(t, e)
    {
      assert ErasesAt(s.procs[p], r, i, e);
      EraseAt(s, t, p, r, i, e);
    }
    KeepsAll(s, t, p);
  }

  lemma FreeStoreKeeps(s: State, p: nat)
    requires Inv(s) && p < |s.procs| && s.procs[p].free.Busy? && s.procs[p].free.i < |s.typ| && Sizes(s)
    ensures var i := s.procs[p].free.i; Inv(SetProc(Erase(s, i), p, s.procs[p].(free := Gone(i))))
  {
    hide Inv, Named;
    ProcFacts(s, p);
    var q := s.procs[p];
    var r := q.(free := Gone(q.free.i));
    FreeingIs(s, p, q.free.i);
    LockedInUse(s, p, q.free.i);
    FreedNote(s, p);
    forall e: nat ensures ErasesAt(q, r, q.free.i, e) { if e == q.free.i { NotAhead(q.op, e); } }
    hide ErasesAt, Note;
    EraseKeeps(s, p, r, q.free.i);
  }

  lemma NotAhead(op: Op, i: nat)
    requires Ip(op) != Some(i) && Dp(op) != Some(i)
    ensures Ahead(op, i) == 0
  {
  }

  /** p's own system call does not work on the inode p frees. */
  lemma FreedNote(s: State, p: nat)
    requires Sizes(s) && p < |s.procs| && s.procs[p].free.Busy? && Note(s, s.procs[p])
    requires var i := s.procs[p].free.i;
             && i < NInodes(s) && s.typ[i] != 0 && s.ref[i] == 1
             && Ip(s.procs[p].op) != Some(i) && Dp(s.procs[p].op) != Some(i)
    ensures var r := s.procs[p].(free := Gone(s.procs[p].free.i));
            var t := SetProc(Erase(s, s.procs[p].free.i), p, r); Sizes(t) && Note(t, r)
  {
  }

  lemma FreeEndAt(s: State, t: State, p: nat, e: nat)
    requires Inv(s) && p < |s.procs| && s.procs[p].free.Gone? && e < NInodes(s)
    requires var i := s.procs[p].free.i;
             && i < NInodes(s) && s.ref[i] == 1 && s.lock[i] == Some(p) && s.typ[i] == 0 && s.procs[p].base[i] == 0
             && s.procs[p].walk != Some(i) && Ip(s.procs[p].op) != Some(i) && Dp(s.procs[p].op) != Some(i)
             && t == SetProc(Unref(Release(s, i), i), p, s.procs[p].(free := NotFreeing)) && OneProc(s, t, p)
    ensures Local(s, t, p, e) && LockAt(s, t, p, e) && Apart(s, t, p, e) && DirAt(t, e)
  {
    hide Inv, Named, Credit, Ahead, Making;
    InodeFacts(s, p, e);
  }

  lemma FreeEndKeeps(s: State, p: nat)
    requires Inv(s) && p < |s.procs| && s.procs[p].free.Gone? && s.procs[p].free.i < |s.ref| == |s.lock| == |s.valid|
    requires 0 < s.ref[s.procs[p].free.i]
    ensures var i := s.procs[p].free.i;
            Inv(SetProc(Unref(Release(s, i), i), p, s.procs[p].(free := NotFreeing)))
  {
    hide Inv, Named;
    ProcFacts(s, p);
    var q := s.procs[p];
    var i, r := q.free.i, q.(free := NotFreeing);
    FreeingIs(s, p, i);
    InodeFacts(s, p, i);
    var t := SetProc(Unref(Release(s, i), i), p, r);
    assert OneProc(s, t, p);
    FreeEndNote(s, p);
    hide Local, LockAt, Apart, Note, DirAt, OneProc;
    forall e | 0 <= e < NInodes(s)
      ensures Local(s, t, p, e) && LockAt(s, t, p, e) && Apart(s, t, p, e) && DirAt(t, e)
    {
      FreeEndAt(s, t, p, e);
    }
    KeepsAll(s, t, p);
  }

  lemma FreeEndNote(s: State, p: nat)
    requires Sizes(s) && p < |s.procs| && s.procs[p].free.Gone? && Note(s, s.procs[p])
    requires var i := s.procs[p].free.i;
             i < NInodes(s) && s.ref[i] == 1 && Ip(s.procs[p].op) != Some(i) && Dp(s.procs[p].op) != Some(i)
    ensures var i, r := s.procs[p].free.i, s.procs[p].(free := NotFreeing);
            var t := SetProc(Unref(Release(s, i), i), p, r); Sizes(t) && Note(t, r)
  {
  }

  lemma PutKeepLocal(s: State, t: State, p: nat, i: nat, e: nat)
    requires Sizes(s) && p < |s.procs| && i in s.procs[p].base && i < NInodes(s) && 0 < s.ref[i]
    requires t == SetProc(Unref(s, i), p, Kept(s.procs[p], i)) && OneProc(s, t, p) && e < NInodes(s)
    ensures Local(s, t, p, e)
  {
    hide Named, Credit, Ahead;
  }

  lemma PutKeepAt(s: State, t: State, p: nat, i: nat, e: nat)
    requires Inv(s) && p < |s.procs| && i in s.procs[p].base && i < NInodes(s) && 0 < s.ref[i] && !Frees(s, i)
    requires s.procs[p].free.NotFreeing?
    requires t == SetProc(Unref(s, i), p, Kept(s.procs[p], i)) && (s.ref[i] == 1 ==> s.lock[i] == None) && s.typ[i] != 0
    requires OneProc(s, t, p) && e < NInodes(s)
    requires forall k :: 0 <= k < |s.procs| ==> !Claims(s.procs[k], i)
    ensures Local(s, t, p, e) && LockAt(s, t, p, e) && Apart(s, t, p, e) && DirAt(t, e)
  {
    hide Inv, Named, Credit, Ahead, Making, Claims, Local;
    InodeFacts(s, p, e);
    PutKeepLocal(s, t, p, i, e);
  }

  lemma PutKeepKeeps(s: State, p: nat, i: nat)
    requires Inv(s) && p < |s.procs| && i in s.procs[p].base && i < NInodes(s) && 0 < s.ref[i] && !Frees(s, i)
    requires s.procs[p].free.NotFreeing?
    ensures Inv(SetProc(Unref(s, i), p, Kept(s.procs[p], i)))
  {
    hide Inv;
    ProcFacts(s, p);
    InodeFacts(s, p, i);
    var q := s.procs[p];
    var t := SetProc(Unref(s, i), p, Kept(q, i));
    LockedInUse(s, p, i);
    if s.ref[i] == 1 { Unlocked(s, p, i); }
    forall k | 0 <= k < |s.procs| ensures !Claims(s.procs[k], i) { NotPrivate(s, i, k); }
    assert OneProc(s, t, p);
    assert Note(t, Kept(q, i));
    hide Local, LockAt, Apart, Note, DirAt, OneProc, Claims;
    forall e | 0 <= e < NInodes(s) ensures Local(s, t, p, e) && LockAt(s, t, p, e) && Apart(s, t, p, e) && DirAt(t, e) {
      PutKeepAt(s, t, p, i, e);
    }
    KeepsAll(s, t, p);
  }

  /** When create gives up, its iput does free the inode. */
  lemma AbortFrees(s: State, p: nat)
    requires Inv(s) && p < |s.procs| && s.procs[p].op.CreateFailed?
    ensures var ip := s.procs[p].op.ip;
            && ip < NInodes(s) && Frees(s, ip) && Named(s.dirs, ip) == 0 && ip != ROOT && s.disk[ip] == 1
            && s.lock[ip] == Some(p) && s.lock[s.procs[p].op.dp] == Some(p) && ip != s.procs[p].op.dp
  {
    ProcFacts(s, p);
    var ip := s.procs[p].op.ip;
    LockFact(s, p, ip);
    LockFact(s, p, s.procs[p].op.dp);
    PrivateIs(s, p, ip);
    AheadIs(s, p, ip);
    RootInUse(s);
  }

  lemma CreateAbortKeeps(s: State, p: nat)
    requires Inv(s) && p < |s.procs| && s.procs[p].op.CreateFailed? && s.procs[p].free.NotFreeing? && Sizes(s)
    ensures var q := s.procs[p];
            Inv(SetProc(Erase(s, q.op.ip), p, q.(op := Done(q.op.dp), free := Gone(q.op.ip))))
  {
    hide Inv, Named;
    ProcFacts(s, p);
    AbortFrees(s, p);
    var q := s.procs[p];
    EraseKeeps(s, p, q.(op := Done(q.op.dp), free := Gone(q.op.ip)), q.op.ip);
  }

  // Every step, every run

  lemma WalkingKeeps(s: State, t: State, p: nat, a: Action)
    requires Inv(s) && p < |s.procs| && s.procs[p].free.NotFreeing? && NextWalk(s, t, p, a)
    ensures Inv(t)
  {
    hide Inv;
    ProcFacts(s, p);
    match a
    case Dup(i, to) => DupKeeps(s, p, i, to);
    case GetRoot =>
      RootInUse(s);
      forall k | 0 <= k < |s.procs| ensures !Claims(s.procs[k], ROOT) { NotPrivate(s, ROOT, k); }
      GivenKeeps(s, p, ROOT);
    case WalkLock(i) => WalkLockKeeps(s, p, i);
    case WalkGet(nm) => EntryKeeps(s, p, s.procs[p].walk.value, nm);
    case WalkUnlock => WalkUnlockKeeps(s, p);
    case Put(i) => PutKeepKeeps(s, p, i);
    case FreeStart(i) => FreeStartKeeps(s, p, i);
  }

  lemma StartKeeps(s: State, t: State, p: nat, a: Action)
    requires Inv(s) && p < |s.procs| && (a.LinkLock? || a.UnlinkLock? || a.CreateLock?) && NextStart(s, t, p, a)
    ensures Inv(t)
  {
    hide Inv;
    ProcFacts(s, p);
    match a
    case LinkLock(i) => LinkLockKeeps(s, p, i);
    case UnlinkLock(i) => UnlinkLockKeeps(s, p, i);
    case CreateLock(i, k) => CreateLockKeeps(s, p, i, k);
  }

  lemma LinkKeeps(s: State, t: State, p: nat, a: Action)
    requires Inv(s) && p < |s.procs| && s.procs[p].free.NotFreeing? && NextLink(s, t, p, a)
    ensures Inv(t)
  {
    hide Inv, Note;
    ProcFacts(s, p);
    match s.procs[p].op
    case LinkLocked(ip) => if a.LinkIsDir? { LinkIsDirKeeps(s, p); } else { LinkRaiseKeeps(s, p); }
    case LinkRaised(ip) => StoreKeeps(s, p, ip);
    case LinkStored(ip) => LinkUnlockKeeps(s, p);
    case LinkMid(ip) => if a.LinkDirLock? { LinkDirLockKeeps(s, p, a.i); } else { LinkBadKeeps(s, p); }
    case LinkDir(ip, dp) => if a.LinkAdd? { LinkAddKeeps(s, p, a.nm); } else { LinkRefusedKeeps(s, p); }
    case LinkAdded(ip, dp) => LinkFinishKeeps(s, p);
  }

  lemma UnlinkKeeps(s: State, t: State, p: nat, a: Action)
    requires Inv(s) && p < |s.procs| && s.procs[p].free.NotFreeing? && NextUnlink(s, t, p, a)
    ensures Inv(t)
  {
    hide Inv, Note;
    ProcFacts(s, p);
    match s.procs[p].op
    case Owed(ip) => LowerKeeps(s, p);
    case Lowered(ip) => StoreKeeps(s, p, ip);
    case Done(ip) => FinishKeeps(s, p);
    case UnlinkDir(dp) => if a.UnlinkNone? { UnlinkNoneKeeps(s, p); } else { UnlinkFindKeeps(s, p, a.nm); }
    case UnlinkFound(dp, nm, ip) => UnlinkIpLockKeeps(s, p);
    case UnlinkBoth(dp, nm, ip) => if a.UnlinkBusyDir? { UnlinkBusyKeeps(s, p); } else { UnlinkClearKeeps(s, p); }
    case UnlinkGone(dp, ip) => UnlinkParentKeeps(s, p);
  }

  lemma OpKeeps(s: State, t: State, p: nat, a: Action)
    requires Inv(s) && p < |s.procs| && s.procs[p].free.NotFreeing? && NextOp(s, t, p, a)
    requires !CollidesAt(s, p, a)
    ensures Inv(t)
  {
    InvSizes(s);
    hide Inv, NextCreate, NextLink, NextUnlink;
    if Linking(s.procs[p].op) { LinkKeeps(s, t, p, a); }
    else if Unlinking(s.procs[p].op) { UnlinkKeeps(s, t, p, a); }
    else { CreateKeeps(s, t, p, a); }
  }

  lemma AllocatingKeeps(s: State, t: State, p: nat, a: Action)
    requires Inv(s) && p < |s.procs| && s.procs[p].free.NotFreeing? && NextCreate(s, t, p, a)
    requires var op := s.procs[p].op; op.CreateDir? || op.CreateTook? || op.CreateGot? || op.CreateLocked? || op.CreateRaised?
    requires !CollidesAt(s, p, a)
    ensures Inv(t)
  {
    hide Inv;
    ProcFacts(s, p);
    match s.procs[p].op
    case CreateDir(dp, k) => if a.CreateFound? { CreateFoundKeeps(s, p, a.nm); } else { CreateTakeKeeps(s, p, a.i); }
    case CreateTook(dp, ip, k) => CreateGetKeeps(s, p);
    case CreateGot(dp, ip, k) => assert false;
    case CreateLocked(dp, ip, k) => CreateRaiseKeeps(s, p);
    case CreateRaised(dp, ip, k) => StoreKeeps(s, p, ip);
  }

  lemma NamingKeeps(s: State, t: State, p: nat, a: Action)
    requires Inv(s) && p < |s.procs| && s.procs[p].free.NotFreeing? && NextCreate(s, t, p, a)
    requires var op := s.procs[p].op; op.CreateStored? || op.CreateFailed? || op.CreateNamed?
    ensures Inv(t)
  {
    hide Inv, Note;
    ProcFacts(s, p);
    match s.procs[p].op
    case CreateStored(dp, ip, k) => if a.CreateLink? { CreateLinkKeeps(s, p, a.nm); } else { CreateRefuseKeeps(s, p); }
    case CreateFailed(dp, ip) => CreateAbortKeeps(s, p);
    case CreateNamed(dp, ip, k) => if a.CreatePlain? { CreatePlainKeeps(s, p); } else { ParentRaiseKeeps(s, p); }
  }

  lemma DotsKeep(s: State, t: State, p: nat, a: Action)
    requires Inv(s) && p < |s.procs| && s.procs[p].free.NotFreeing? && NextCreate(s, t, p, a)
    requires var op := s.procs[p].op; op.ParentRaised? || op.ParentStored? || op.DotAdded? || op.CreateDone?
    ensures Inv(t)
  {
    hide Inv, Note;
    ProcFacts(s, p);
    match s.procs[p].op
    case ParentRaised(dp, ip) => StoreKeeps(s, p, dp);
    case ParentStored(dp, ip) => DotAddKeeps(s, p);
    case DotAdded(dp, ip) => DotDotAddKeeps(s, p);
    case CreateDone(dp, ip) => CreateFinishKeeps(s, p);
  }

  lemma CreateKeeps(s: State, t: State, p: nat, a: Action)
    requires Inv(s) && p < |s.procs| && s.procs[p].free.NotFreeing? && NextCreate(s, t, p, a)
    requires !CollidesAt(s, p, a)
    ensures Inv(t)
  {
    CreatePlaces(s, t, p, a);
    hide Inv, NextCreate;
    var op := s.procs[p].op;
    if op.CreateDir? || op.CreateTook? || op.CreateGot? || op.CreateLocked? || op.CreateRaised? {
      AllocatingKeeps(s, t, p, a);
    } else if op.CreateStored? || op.CreateFailed? || op.CreateNamed? {
      NamingKeeps(s, t, p, a);
    } else {
      DotsKeep(s, t, p, a);
    }
  }

  lemma CreatePlaces(s: State, t: State, p: nat, a: Action)
    requires Sizes(s) && p < |s.procs| && NextCreate(s, t, p, a)
    ensures var op := s.procs[p].op;
            || op.CreateDir? || op.CreateTook? || op.CreateGot? || op.CreateLocked? || op.CreateRaised? || op.CreateStored?
            || op.CreateFailed? || op.CreateNamed?
            || op.ParentRaised? || op.ParentStored? || op.DotAdded? || op.CreateDone?
  {
    hide AddName, Release, Bump, Iupdate, Erase;
  }

  /** iget finds the inode that ialloc has taken in the cache: an iput that stored its type 0 still refers to it. */
  ghost predicate CollidesAt(s: State, p: nat, a: Action) {
    && Sizes(s) && p < |s.procs| && a.CreateGet? && s.procs[p].op.CreateTook? && s.ref[s.procs[p].op.ip] != 0
  }

  lemma NextKeeps(s: State, t: State, p: nat, a: Action)
    requires Inv(s) && p < |s.procs| && Next(s, t, p, a) && !CollidesAt(s, p, a)
    ensures Inv(t)
  {
    hide Inv, NextOp, NextStart, NextCall, CollidesAt;
    InvSizes(s);
    match s.procs[p].free
    case Busy(i) => FreeStoreKeeps(s, p);
    case Gone(i) => FreeEndKeeps(s, p);
    case NotFreeing => CallKeeps(s, t, p, a);
  }

  lemma CallKeeps(s: State, t: State, p: nat, a: Action)
    requires Inv(s) && p < |s.procs| && s.procs[p].free.NotFreeing? && NextCall(s, t, p, a) && !CollidesAt(s, p, a)
    ensures Inv(t)
  {
    hide Inv, NextOp, NextStart, NextWalk, CollidesAt;
    if Walking(a) {
      WalkingKeeps(s, t, p, a);
    } else if a.LinkLock? || a.UnlinkLock? || a.CreateLock? {
      StartKeeps(s, t, p, a);
    } else {
      OpKeeps(s, t, p, a);
    }
  }

  /** No system call is under way, every nlink covers the entries, and the root is a directory. */
  ghost predicate Init(s: State) {
    && Sizes(s) && Dirs(s) && s.core == s.disk && s.typ == s.stored
    && (forall p :: 0 <= p < |s.procs| ==> s.procs[p] == Proc(multiset{}, None, Idle, NotFreeing))
    && forall i :: 0 <= i < NInodes(s) ==> s.ref[i] == 0 && s.lock[i] == None && Named(s.dirs, i) + s.spare[i] == s.core[i]
  }

  lemma InitInv(s: State)
    requires Init(s)
    ensures Inv(s)
  {
    hide Named, Dirs;
    forall i | 0 <= i < NInodes(s) ensures CountsAt(s, i) { NobodyHolds(s.procs, i); }
  }

  lemma NobodyHolds(procs: seq<Proc>, i: nat)
    requires forall p :: 0 <= p < |procs| ==> procs[p] == Proc(multiset{}, None, Idle, NotFreeing)
    ensures Credits(procs, i) == 0 && Aheads(procs, i) == 0 && Refs(procs, i) == 0
  {
    hide Sum;
    SumZero(seq(|procs|, p requires 0 <= p < |procs| => Credit(procs[p].op, i)));
    SumZero(seq(|procs|, p requires 0 <= p < |procs| => Ahead(procs[p].op, i)));
    SumZero(seq(|procs|, p requires 0 <= p < |procs| => RefsOf(procs[p], i)));
  }

  /** The points at which the source would panic, or take nlink below zero. */
  ghost predicate Panics(s: State, p: nat)
    requires Sizes(s) && p < |s.procs|
  {
    var q := s.procs[p];
    || (exists i :: i in q.base && s.typ[i] == 0)                                      // ilock: no type
    || (exists i :: i in q.base && q.free.NotFreeing? && Frees(s, i) && s.lock[i].Some?) // iput busy
    || (q.op.UnlinkBoth? && s.core[q.op.ip] < 1)                                       // unlink: nlink < 1
    || (q.op.Owed? && s.core[q.op.ip] < 1)
    || (q.op.ParentStored? && DOT in s.dirs[q.op.ip])                                  // create dots
    || (q.op.DotAdded? && DOTDOT in s.dirs[q.op.ip])
  }

  ghost predicate Safe(s: State) {
    && Sizes(s)
    && (forall i :: 0 <= i < NInodes(s) ==> Named(s.dirs, i) <= s.disk[i] && Named(s.dirs, i) <= s.core[i])
    && (forall d, nm :: 0 <= d < NInodes(s) && nm in s.dirs[d] ==>
          s.dirs[d][nm] < NInodes(s) && Typed(s, s.dirs[d][nm]))
    && (forall p, i :: 0 <= p < |s.procs| && 0 <= i < NInodes(s) && 0 < RefsOf(s.procs[p], i) && s.procs[p].free != Gone(i) ==>
          Typed(s, i))
    && forall p :: 0 <= p < |s.procs| ==> !Panics(s, p)
  }

  lemma StoredCovers(s: State, i: nat)
    requires Inv(s) && i < NInodes(s)
    ensures Named(s.dirs, i) <= s.disk[i] && Named(s.dirs, i) <= s.core[i]
  {
    hide Sum;
    assert CountsAt(s, i);
    CreditsNonNeg(s.procs, i);
    if s.lock[i].Some? {
      var p := s.lock[i].value;
      AheadIs(s, p, i);
      ProcsBound(s.procs, p, i);
    } else if 0 < |s.procs| {
      AheadIs(s, 0, i);
    } else {
      NobodyHolds(s.procs, i);
    }
  }

  lemma NoPanic(s: State, p: nat)
    requires Inv(s) && p < |s.procs|
    ensures !Panics(s, p)
  {
    var q := s.procs[p];
    ProcFacts(s, p);
    forall i | i in q.base ensures s.typ[i] != 0 && (Frees(s, i) ==> s.lock[i] == None) {
      if FreeIp(q.free) == Some(i) { FreeingIs(s, p, i); }
      LockedInUse(s, p, i);
      if Frees(s, i) { Unlocked(s, p, i); }
    }
    if q.op.UnlinkBoth? { EntryInUse(s, q.op.dp, q.op.nm); }
    if q.op.Owed? { OwedCovered(s, p); }
  }

  lemma OwedCovered(s: State, p: nat)
    requires Inv(s) && p < |s.procs| && s.procs[p].op.Owed? && s.procs[p].op.ip < NInodes(s)
    ensures 1 <= s.core[s.procs[p].op.ip]
  {
    var i := s.procs[p].op.ip;
    ProcsBound(s.procs, p, i);
    NamedBound(s.dirs, i, i);
    assert CountsAt(s, i);
  }

  lemma InvSafe(s: State)
    requires Inv(s)
    ensures Safe(s)
  {
    hide Inv, Panics, Named;
    if 0 < |s.procs| { ProcFacts(s, 0); }
    assert Sizes(s) by { InvSizes(s); }
    forall i | 0 <= i < NInodes(s) ensures Named(s.dirs, i) <= s.disk[i] && Named(s.dirs, i) <= s.core[i] {
      StoredCovers(s, i);
    }
    forall d, nm | 0 <= d < NInodes(s) && nm in s.dirs[d]
      ensures s.dirs[d][nm] < NInodes(s) && Typed(s, s.dirs[d][nm])
    {
      EntryInUse(s, d, nm);
    }
    forall p, i | 0 <= p < |s.procs| && 0 <= i < NInodes(s) && 0 < RefsOf(s.procs[p], i) && s.procs[p].free != Gone(i)
      ensures Typed(s, i)
    {
      LockedInUse(s, p, i);
    }
    forall p | 0 <= p < |s.procs| ensures !Panics(s, p) { NoPanic(s, p); }
  }

  lemma InvSizes(s: State)
    requires Inv(s)
    ensures Sizes(s)
  {
  }

  datatype Event = Event(proc: nat, act: Action)

  ghost predicate Run(states: seq<State>, events: seq<Event>) {
    && |states| == |events| + 1 && Init(states[0])
    && forall k :: 0 <= k < |events| ==> StepOf(states[k], states[k + 1], events[k])
  }

  ghost predicate StepOf(s: State, t: State, e: Event) {
    Sizes(s) && e.proc < |s.procs| && Next(s, t, e.proc, e.act)
  }

  ghost predicate Collides(s: State, e: Event) { CollidesAt(s, e.proc, e.act) }

  lemma {:induction false} RunInv(states: seq<State>, events: seq<Event>, k: nat)
    requires Run(states, events) && k < |states| && forall j :: 0 <= j < k ==> !Collides(states[j], events[j])
    ensures Inv(states[k])
  {
    hide Inv, Next, Init, CollidesAt;
    if k == 0 {
      InitInv(states[0]);
    } else {
      RunInv(states, events, k - 1);
      assert StepOf(states[k - 1], states[k], events[k - 1]);
      assert !Collides(states[k - 1], events[k - 1]);
      NextKeeps(states[k - 1], states[k], events[k - 1].proc, events[k - 1].act);
    }
  }

  /** Under every interleaving of link, unlink, create, path walks and iput in which ialloc's iget finds no slot in use:
      the stored nlink of every inode is at least the number of entries that name it, every entry names an inode in use, as
      does every reference, and none of the panics is reached. */
  lemma LinkCountsHold(states: seq<State>, events: seq<Event>, k: nat)
    requires Run(states, events) && k < |states| && forall j :: 0 <= j < k ==> !Collides(states[j], events[j])
    ensures Safe(states[k])
  {
    hide Safe, Inv, Run, Collides;
    RunInv(states, events, k);
    InvSafe(states[k]);
  }

  lemma CreateGetIs(s: State, t: State, p: nat)
    requires Sizes(s) && p < |s.procs| && s.procs[p].free.NotFreeing? && NextCall(s, t, p, CreateGet)
    ensures var q := s.procs[p];
            && q.op.CreateTook? && NextCreate(s, t, p, CreateGet)
            && t == if s.ref[q.op.ip] == 0 then Fetched(s, p, q.op.dp, q.op.ip, q.op.typ)
                    else SetProc(AddRef(s, q.op.ip), p, q.(op := CreateGot(q.op.dp, q.op.ip, q.op.typ)))
  {
    hide AddName, Iupdate, Bump, Release, Erase, Drop;
  }

  /** Up to such a collision, nlink is exact at every point: one for every entry that names the inode, one for every system
      call that has raised it in advance or is still to lower it, and those that were lost with a freed directory. */
  lemma LinkCountsExact(states: seq<State>, events: seq<Event>, k: nat, i: nat)
    requires Run(states, events) && k < |states| && forall j :: 0 <= j < k ==> !Collides(states[j], events[j])
    requires i < |states[k].core|
    ensures i < |states[k].spare| && states[k].core[i] == Named(states[k].dirs, i) + Credits(states[k].procs, i) + states[k].spare[i]
  {
    RunInv(states, events, k);
    hide Run, Named, Credits;
    assert CountsAt(states[k], i);
  }

  ghost predicate FreesWith(s: State, t: State, i: nat) {
    i < |s.typ| && i < |t.typ| && i < |s.dirs| && s.typ[i] != 0 && t.typ[i] == 0 && t.spare == Lost(s.spare, s.dirs[i])
  }

  ghost predicate Loses(s: State, t: State) { t.spare == s.spare || exists i :: FreesWith(s, t, i) }

  /** Links are lost only when an inode is freed, and then exactly those of the entries it had: the ".." of a directory, and
      what was put there after it was unlinked. */
  lemma LinksLost(s: State, t: State, e: Event)
    requires StepOf(s, t, e) && Inv(s)
    ensures Loses(s, t)
  {
    ProcFacts(s, e.proc);
    hide Inv, NextCall, Lost, Note;
    match s.procs[e.proc].free
    case Busy(i) =>
      FreeingIs(s, e.proc, i);
      LockedInUse(s, e.proc, i);
      assert FreesWith(s, t, i);
    case Gone(i) =>
    case NotFreeing => CallLoses(s, t, e.proc, e.act);
  }

  lemma CallLoses(s: State, t: State, p: nat, a: Action)
    requires Inv(s) && p < |s.procs| && s.procs[p].free.NotFreeing? && Sizes(s) && NextCall(s, t, p, a)
    ensures Loses(s, t)
  {
    hide Inv, NextWalk, NextStart, NextLink, NextUnlink, NextCreate, Lost;
    if Walking(a) { WalkLoses(s, t, p, a); }
    else if a.LinkLock? || a.UnlinkLock? || a.CreateLock? { StartLoses(s, t, p, a); }
    else if Linking(s.procs[p].op) { LinkLoses(s, t, p, a); }
    else if Unlinking(s.procs[p].op) { UnlinkLoses(s, t, p, a); }
    else { CreateLoses(s, t, p, a); }
  }

  lemma WalkLoses(s: State, t: State, p: nat, a: Action)
    requires Sizes(s) && p < |s.procs| && NextWalk(s, t, p, a)
    ensures t.spare == s.spare
  {
  }

  lemma StartLoses(s: State, t: State, p: nat, a: Action)
    requires Sizes(s) && p < |s.procs| && (a.LinkLock? || a.UnlinkLock? || a.CreateLock?) && NextStart(s, t, p, a)
    ensures t.spare == s.spare
  {
  }

  lemma LinkLoses(s: State, t: State, p: nat, a: Action)
    requires Sizes(s) && p < |s.procs| && NextLink(s, t, p, a)
    ensures t.spare == s.spare
  {
  }

  lemma UnlinkLoses(s: State, t: State, p: nat, a: Action)
    requires Sizes(s) && p < |s.procs| && NextUnlink(s, t, p, a)
    ensures t.spare == s.spare
  {
  }

  lemma CreateLoses(s: State, t: State, p: nat, a: Action)
    requires Inv(s) && Sizes(s) && p < |s.procs| && s.procs[p].free.NotFreeing? && NextCreate(s, t, p, a)
    ensures Loses(s, t)
  {
    hide Inv, Lost, NextCreate, Erase;
    if s.procs[p].op.CreateFailed? {
      var ip := s.procs[p].op.ip;
      AbortFrees(s, p);
      LockedInUse(s, p, ip);
      AbortErases(s, t, p, a);
      assert FreesWith(s, t, ip);
    } else {
      CreateKeepsLinks(s, t, p, a);
    }
  }

  lemma AbortErases(s: State, t: State, p: nat, a: Action)
    requires Sizes(s) && p < |s.procs| && NextCreate(s, t, p, a) && s.procs[p].op.CreateFailed?
    ensures var ip := s.procs[p].op.ip; |t.typ| == |s.typ| && t.typ[ip] == 0 && t.spare == Lost(s.spare, s.dirs[ip])
  {
    hide Lost;
  }

  lemma CreateKeepsLinks(s: State, t: State, p: nat, a: Action)
    requires Sizes(s) && p < |s.procs| && NextCreate(s, t, p, a) && !s.procs[p].op.CreateFailed?
    ensures t.spare == s.spare
  {
    hide NextCreate;
    var op := s.procs[p].op;
    if op.CreateDir? || op.CreateTook? || op.CreateGot? { AllocatingKeepsLinks(s, t, p, a); } else { NamingKeepsLinks(s, t, p, a); }
  }

  lemma AllocatingKeepsLinks(s: State, t: State, p: nat, a: Action)
    requires Sizes(s) && p < |s.procs| && NextCreate(s, t, p, a)
    requires s.procs[p].op.CreateDir? || s.procs[p].op.CreateTook? || s.procs[p].op.CreateGot?
    ensures t.spare == s.spare
  {
  }

  lemma NamingKeepsLinks(s: State, t: State, p: nat, a: Action)
    requires Sizes(s) && p < |s.procs| && NextCreate(s, t, p, a) && !s.procs[p].op.CreateFailed?
    requires !(s.procs[p].op.CreateDir? || s.procs[p].op.CreateTook? || s.procs[p].op.CreateGot?)
    ensures t.spare == s.spare
  {
    hide Take, AddRef, Iread, Erase;
  }

  /** The inode that ialloc gives create has its type exactly if iget did not find it in the cache. */
  lemma GetTypes(s: State, t: State, p: nat)
    requires Inv(s) && p < |s.procs| && Next(s, t, p, CreateGet)
    ensures s.procs[p].op.CreateTook? && s.procs[p].op.ip < NInodes(s) == NInodes(t) == |t.stored|
    ensures Typed(t, s.procs[p].op.ip) <==> s.ref[s.procs[p].op.ip] == 0
    ensures |t.procs| == |s.procs| && 0 < RefsOf(t.procs[p], s.procs[p].op.ip) && t.procs[p].free.NotFreeing?
  {
    hide Inv, NextCall;
    ProcFacts(s, p);
    CreateGetIs(s, t, p);
  }

  lemma CollisionShows(s: State, t: State, e: Event)
    requires Inv(s) && StepOf(s, t, e) && Collides(s, e)
    ensures !Safe(t)
  {
    GetTypes(s, t, e.proc);
    hide Inv, Next, Panics, Named;
  }

  /** A run keeps link counts and types exactly if no iget of ialloc finds its inode in the cache. */
  lemma LinksSafeExactly(states: seq<State>, events: seq<Event>)
    requires Run(states, events)
    ensures (forall k :: 0 <= k < |states| ==> Safe(states[k])) <==>
            (forall j :: 0 <= j < |events| ==> !Collides(states[j], events[j]))
  {
    hide Safe, Inv, Init, StepOf, Collides;
    if forall k :: 0 <= k < |states| ==> Safe(states[k]) {
      if j :| 0 <= j < |events| && Collides(states[j], events[j]) { FirstCollision(states, events, j); assert false; }
    }
    if forall j :: 0 <= j < |events| ==> !Collides(states[j], events[j]) {
      forall k | 0 <= k < |states| ensures Safe(states[k]) { LinkCountsHold(states, events, k); }
    }
  }

  lemma {:induction false} FirstCollision(states: seq<State>, events: seq<Event>, j: nat)
    requires Run(states, events) && j < |events| && Collides(states[j], events[j])
    ensures exists k :: 0 <= k < |states| && !Safe(states[k])
    decreases j
  {
    hide Safe, Inv, Init, StepOf, Collides;
    if i :| 0 <= i < j && Collides(states[i], events[i]) {
      FirstCollision(states, events, i);
    } else {
      RunInv(states, events, j);
      assert StepOf(states[j], states[j + 1], events[j]);
      CollisionShows(states[j], states[j + 1], events[j]);
    }
  }

  /** An inode freed during a run is not named by any entry and not referred to by any process but the one that frees it. */
  lemma OnlyUnusedFreed(states: seq<State>, events: seq<Event>, k: nat, i: nat)
    requires Run(states, events) && 0 < k < |states| && forall j :: 0 <= j < k ==> !Collides(states[j], events[j])
    requires i < |states[k - 1].typ| && i < |states[k].typ| && states[k - 1].typ[i] != 0 && states[k].typ[i] == 0
    ensures Named(states[k].dirs, i) == 0
    ensures forall p :: 0 <= p < |states[k].procs| && states[k].procs[p].free != Gone(i) ==> RefsOf(states[k].procs[p], i) == 0
  {
    hide Run, Named;
    RunInv(states, events, k);
    var t := states[k];
    forall p | 0 <= p < |t.procs| && t.procs[p].free != Gone(i) ensures RefsOf(t.procs[p], i) == 0 {
      if 0 < RefsOf(t.procs[p], i) { LockedInUse(t, p, i); }
    }
    NamedBound(t.dirs, i, i);
    CreditsNonNeg(t.procs, i);
    assert CountsAt(t, i) && DirAt(t, i);
  }
}
