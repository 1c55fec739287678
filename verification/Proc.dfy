/** Processes and CPUs (xv6/proc.c, xv6/spinlock.c:25-64).

    A step is what one CPU does between two points where another CPU could tell the difference: it takes or
    releases proc_table_lock, changes the table while it has the lock, changes an entry of its own without
    it, or moves from one stack to another in swtch.
 */
module Proc {
  import opened Options

  datatype PState = UNUSED | EMBRYO | SLEEPING | RUNNABLE | RUNNING | ZOMBIE

  /** What a process can sleep on: a process (wait sleeps on cp) or anything else. */
  datatype Chan = NoChan | ProcChan(p: nat) | Other(n: nat)

  /** struct proc */
  datatype Proc = Proc(state: PState, pid: nat, parent: Option<nat>, chan: Chan, killed: bool)

  type Table = seq<Proc>

  const INIT: nat := 0   // initproc is the first entry userinit gets

  // The loops over proc[]

  /** wakeup1 */
  function Wakeup1(t: Table, ch: Chan): (r: Table)
    ensures |r| == |t|
    ensures forall i :: 0 <= i < |t| ==> r[i] == Awake(t[i], ch)
  {
    seq(|t|, i requires 0 <= i < |t| => Awake(t[i], ch))
  }

  function Awake(x: Proc, ch: Chan): Proc {
    if x.state == SLEEPING && x.chan == ch then x.(state := RUNNABLE) else x
  }

  /** exit passes the children of c to init. */
  function Reparent(t: Table, c: nat): (r: Table)
    ensures |r| == |t|
    ensures forall i :: 0 <= i < |t| ==> r[i] == Adopted(t[i], c)
  {
    seq(|t|, i requires 0 <= i < |t| => Adopted(t[i], c))
  }

  function Adopted(x: Proc, c: nat): Proc {
    if x.parent == Some(c) then x.(parent := Some(INIT)) else x
  }

  predicate ZombieChild(x: Proc, c: nat) { x.parent == Some(c) && x.state == ZOMBIE }

  predicate Child(x: Proc, c: nat) { x.parent == Some(c) && x.state != UNUSED }

  predicate HasZombie(t: Table, c: nat) { exists i :: 0 <= i < |t| && ZombieChild(t[i], c) }

  predicate HasChild(t: Table, c: nat) { exists i :: 0 <= i < |t| && Child(t[i], c) }

  /** exit, from taking the lock to calling sched. */
  function Exit(t: Table, c: nat): (r: Table)
    requires c < |t|
    ensures |r| == |t|
  {
    var t1 := if t[c].parent.Some? then Wakeup1(t, ProcChan(t[c].parent.value)) else t;
    var t2 := Reparent(t1, c);
    var t3 := if HasZombie(t1, c) then Wakeup1(t2, ProcChan(INIT)) else t2;
    t3[c := t3[c].(killed := false, state := ZOMBIE)]
  }

  /** kill: the first entry with that pid. */
  function FirstPid(t: Table, pid: nat): (i: nat)
    ensures i <= |t| && (i < |t| ==> t[i].pid == pid) && forall j :: 0 <= j < i ==> t[j].pid != pid
  {
    if t == [] then 0 else if t[0].pid == pid then 0
    else
      var i := FirstPid(t[1..], pid);
      assert forall j :: 1 <= j < i + 1 ==> t[j] == t[1..][j - 1];
      i + 1
  }

  function Kill(t: Table, i: nat): Table
    requires i < |t|
  {
    t[i := t[i].(killed := true, state := if t[i].state == SLEEPING then RUNNABLE else t[i].state)]
  }

  /** allocproc: the first UNUSED entry. */
  function FirstUnused(t: Table): (i: nat)
    ensures i <= |t| && (i < |t| ==> t[i].state == UNUSED) && forall j :: 0 <= j < i ==> t[j].state != UNUSED
  {
    if t == [] then 0 else if t[0].state == UNUSED then 0
    else
      var i := FirstUnused(t[1..]);
      assert forall j :: 1 <= j < i + 1 ==> t[j] == t[1..][j - 1];
      i + 1
  }

  function Reap(t: Table, z: nat): Table
    requires z < |t|
  {
    t[z := t[z].(state := UNUSED, pid := 0, parent := None)]
  }

  // CPUs

  /** Running: on a process's stack without the lock.  Arrived: the same, with the lock the scheduler took.
      Locked: the process took the lock.  Leaving: it has changed its state and calls swtch. */
  datatype Phase = Running | Arrived | Locked | Leaving

  /** Where a CPU executes: in its scheduler, on its own stack, or on the kernel stack of a process. */
  datatype Where = SchedIdle | SchedScan | Picked(p: nat) | On(p: nat, phase: Phase) | Back(p: nat)

  datatype Cpu = Cpu(curproc: Option<nat>, at: Where)

  /** inWait: the process sleeps in wait, so it goes on scanning when it runs again.  making: the entry fork is filling;
      filled: fork has stored its parent.  clearing: the entry a failed fork has freed, whose parent it is still to
      clear.  cpu: where it is RUNNING. */
  datatype Aux = Aux(inWait: bool, making: Option<nat>, filled: bool, clearing: Option<nat>, cpu: Option<nat>)

  /** strayed: a failed fork has cleared the parent of an entry that another fork had filled by then. */
  datatype State = State(procs: Table, aux: seq<Aux>, nextpid: nat, cpus: seq<Cpu>, lock: Option<nat>,
                         reaped: seq<(nat, nat)>, strayed: bool)

  datatype Action =
    | SchedAcquire | SchedPick(p: nat) | SwtchIn | Arrive | SwtchOut | SchedBack | SchedRelease | IdleWakeup(ch: Chan)
    | Acquire | Release | Wakeup(ch: Chan) | DoKill(pid: nat) | Alloc(e: nat)
    | Yield | Sleep(ch: Chan) | WaitSleep | WaitReap(z: nat) | WaitNone | DoExit
    | ForkFill | ForkNoStack | ForkNoMem | ForkClear | ForkDone

  ghost predicate Shape(s: State) {
    && |s.aux| == |s.procs| && INIT < |s.procs|
    && (forall c :: 0 <= c < |s.cpus| ==> CpuFits(s.cpus[c], |s.procs|))
    && (forall p :: 0 <= p < |s.procs| ==> (s.aux[p].making.Some? ==> s.aux[p].making.value < |s.procs|))
    && (forall p :: 0 <= p < |s.procs| ==> (s.aux[p].clearing.Some? ==> s.aux[p].clearing.value < |s.procs|))
  }

  ghost predicate CpuFits(c: Cpu, n: nat) {
    (c.at.Picked? || c.at.On? || c.at.Back? ==> c.at.p < n) && (c.curproc.Some? ==> c.curproc.value < n)
  }

  function SetAt(s: State, c: nat, w: Where): State
    requires c < |s.cpus|
  {
    s.(cpus := s.cpus[c := s.cpus[c].(at := w)])
  }

  function SetState(s: State, p: nat, st: PState): State
    requires p < |s.procs|
  {
    s.(procs := s.procs[p := s.procs[p].(state := st)])
  }

  function SetAux(s: State, p: nat, a: Aux): State
    requires p < |s.aux|
  {
    s.(aux := s.aux[p := a])
  }

  /** CPU c takes step a. */
  ghost predicate Next(s: State, t: State, c: nat, a: Action)
    requires Shape(s) && c < |s.cpus|
  {
    match s.cpus[c].at
    case SchedIdle =>
      || (a.SchedAcquire? && s.lock == None && t == SetAt(s, c, SchedScan).(lock := Some(c)))
      || (a.IdleWakeup? && s.lock == None && t == s.(procs := Wakeup1(s.procs, a.ch)))
    case SchedScan =>
      || (a.SchedPick? && a.p < |s.procs| && s.procs[a.p].state == RUNNABLE && t == Pick(s, c, a.p))
      || (a.SchedRelease? && t == SetAt(s, c, SchedIdle).(lock := None))
    case Picked(p) => a.SwtchIn? && t == SetAt(s, c, On(p, Arrived))
    case Back(p) => a.SchedBack? && t == s.(cpus := s.cpus[c := Cpu(None, SchedScan)])
    case On(p, Arrived) => a.Arrive? && t == Resume(s, c, p)
    case On(p, Leaving) => a.SwtchOut? && t == SetAt(s, c, Back(p))
    case On(p, Running) => NextRunning(s, t, c, p, a)
    case On(p, Locked) => NextLocked(s, t, c, p, a)
  }

  function Pick(s: State, c: nat, p: nat): State
    requires c < |s.cpus| && p < |s.procs| == |s.aux|
  {
    SetAux(SetState(s, p, RUNNING), p, s.aux[p].(cpu := Some(c))).(cpus := s.cpus[c := Cpu(Some(p), Picked(p))])
  }

  /** The end of sleep, yield or forkret: release the lock; in wait, go on scanning. */
  function Resume(s: State, c: nat, p: nat): State
    requires c < |s.cpus| && p < |s.procs| == |s.aux|
  {
    var t := SetAux(s.(procs := s.procs[p := s.procs[p].(chan := NoChan)]), p, s.aux[p].(inWait := false));
    if s.aux[p].inWait then SetAt(t, c, On(p, Locked)) else SetAt(t, c, On(p, Running)).(lock := None)
  }

  predicate InUse(st: PState) { st != UNUSED && st != EMBRYO }

  /** Some fork has stored the parent of e, or is done with e. */
  ghost predicate Taken(s: State, e: nat)
    requires Shape(s) && e < |s.procs|
  {
    InUse(s.procs[e].state) || exists r :: 0 <= r < |s.procs| && Filling(s.aux[r], e)
  }

  predicate Filling(a: Aux, e: nat) { a.making == Some(e) && a.filled }

  /** Fork works on its entry without the lock.  It gives the entry back for want of a stack before it has stored
      the parent; for want of memory after, and clears the parent once the entry is free for others. */
  ghost predicate NextRunning(s: State, t: State, c: nat, p: nat, a: Action)
    requires Shape(s) && c < |s.cpus| && p < |s.procs|
  {
    match a
    case Acquire => s.lock == None && t == SetAt(s, c, On(p, Locked)).(lock := Some(c))
    case ForkFill =>
      && s.aux[p].making.Some? && !s.aux[p].filled
      && t == SetAux(s.(procs := s.procs[s.aux[p].making.value := s.procs[s.aux[p].making.value].(parent := Some(p))]),
                     p, s.aux[p].(filled := true))
    case ForkNoStack =>
      && s.aux[p].making.Some? && !s.aux[p].filled
      && t == SetAux(SetState(s, s.aux[p].making.value, UNUSED), p, s.aux[p].(making := None))
    case ForkNoMem =>
      && s.aux[p].making.Some? && s.aux[p].filled
      && t == SetAux(SetState(s, s.aux[p].making.value, UNUSED), p,
                     s.aux[p].(making := None, filled := false, clearing := s.aux[p].making))
    case ForkClear =>
      && s.aux[p].clearing.Some?
      && t == SetAux(s.(procs := s.procs[s.aux[p].clearing.value := s.procs[s.aux[p].clearing.value].(parent := None)],
                        strayed := s.strayed || Taken(s, s.aux[p].clearing.value)), p, s.aux[p].(clearing := None))
    case ForkDone =>
      && s.aux[p].making.Some? && s.aux[p].filled
      && t == SetAux(SetState(s, s.aux[p].making.value, RUNNABLE), p, s.aux[p].(making := None, filled := false))
    case _ => false
  }

  /** The critical sections.  allocproc takes an UNUSED entry; not always the first, as forks free entries without the
      lock while it scans. */
  ghost predicate NextLocked(s: State, t: State, c: nat, p: nat, a: Action)
    requires Shape(s) && c < |s.cpus| && p < |s.procs|
  {
    match a
    case Release => t == Unlock(s, c, p)
    case Wakeup(ch) => t == s.(procs := Wakeup1(s.procs, ch))
    case DoKill(pid) => FirstPid(s.procs, pid) < |s.procs| && t == s.(procs := Kill(s.procs, FirstPid(s.procs, pid)))
    case Alloc(e) =>
      && s.aux[p].making == None == s.aux[p].clearing && e < |s.procs| && s.procs[e].state == UNUSED
      && t == Allocate(s, p, e)
    case Yield => t == Leave(SetState(s, p, RUNNABLE), c, p, false)
    case Sleep(ch) =>
      && !ch.ProcChan? && !ch.NoChan?
      && t == Leave(s.(procs := s.procs[p := s.procs[p].(state := SLEEPING, chan := ch)]), c, p, false)
    case WaitSleep =>
      && s.aux[p].making == None == s.aux[p].clearing && HasChild(s.procs, p) && !HasZombie(s.procs, p) && !s.procs[p].killed
      && t == Leave(s.(procs := s.procs[p := s.procs[p].(state := SLEEPING, chan := ProcChan(p))]), c, p, true)
    case WaitReap(z) =>
      && z < |s.procs| && ZombieChild(s.procs[z], p)
      && t == Unlock(s.(procs := Reap(s.procs, z), reaped := s.reaped + [(s.procs[z].pid, p)]), c, p)
    case WaitNone => (!HasChild(s.procs, p) || s.procs[p].killed) && !HasZombie(s.procs, p) && t == Unlock(s, c, p)
    case DoExit =>
      p != INIT && s.aux[p].making == None == s.aux[p].clearing && t == Leave(s.(procs := Exit(s.procs, p)), c, p, false)
    case _ => false
  }

  function Allocate(s: State, p: nat, e: nat): State
    requires e < |s.procs| && p < |s.aux|
  {
    SetAux(s.(procs := s.procs[e := s.procs[e].(state := EMBRYO, pid := s.nextpid)], nextpid := s.nextpid + 1),
           p, s.aux[p].(making := Some(e), filled := false))
  }

  function Unlock(s: State, c: nat, p: nat): State
    requires c < |s.cpus|
  {
    SetAt(s, c, On(p, Running)).(lock := None)
  }

  function Leave(s: State, c: nat, p: nat, inWait: bool): State
    requires c < |s.cpus| && p < |s.aux|
  {
    SetAt(SetAux(s, p, s.aux[p].(inWait := inWait, cpu := None)), c, On(p, Leaving))
  }

  // What every step keeps

  predicate HoldsLock(w: Where) {
    w.SchedScan? || w.Picked? || w.Back? || (w.On? && w.phase != Running)
  }

  /** The process that a CPU runs or is about to run. */
  predicate Runs(w: Where, p: nat) {
    (w.Picked? && w.p == p) || (w.On? && w.phase != Leaving && w.p == p)
  }

  function Current(w: Where): Option<nat> {
    if w.Picked? || w.On? || w.Back? then Some(w.p) else None
  }

  ghost predicate CpusOk(s: State)
    requires Shape(s)
  {
    && (forall c :: 0 <= c < |s.cpus| ==> (s.lock == Some(c) <==> HoldsLock(s.cpus[c].at)))
    && (s.lock.Some? ==> s.lock.value < |s.cpus|)
    && (forall c :: 0 <= c < |s.cpus| ==> s.cpus[c].curproc == Current(s.cpus[c].at))
    && (forall c, p :: 0 <= c < |s.cpus| && 0 <= p < |s.procs| ==> (s.aux[p].cpu == Some(c) <==> Runs(s.cpus[c].at, p)))
    && (forall p :: 0 <= p < |s.procs| && s.aux[p].cpu.Some? ==> s.aux[p].cpu.value < |s.cpus|)
    && (forall c :: 0 <= c < |s.cpus| ==> NotInWait(s.cpus[c].at, s.aux))
    && (forall c, d :: 0 <= c < |s.cpus| && 0 <= d < |s.cpus| && c != d && Current(s.cpus[c].at).Some? ==>
          Current(s.cpus[c].at) != Current(s.cpus[d].at))
  }

  /** A process that runs its own code has come back from its sleep. */
  ghost predicate NotInWait(w: Where, aux: seq<Aux>) {
    w.On? && (w.phase == Running || w.phase == Locked) && w.p < |aux| ==> !aux[w.p].inWait
  }

  predicate Alive(st: PState) { st == SLEEPING || st == RUNNABLE || st == RUNNING }

  /** One entry of the table. */
  ghost predicate EntryOk(s: State, p: nat)
    requires Shape(s) && p < |s.procs|
  {
    ParentOk(s, p) && ForkOk(s, p) && (s.procs[p].state == RUNNING <==> s.aux[p].cpu.Some?) && s.procs[p].pid < s.nextpid
  }

  ghost predicate ParentOk(s: State, p: nat)
    requires Shape(s) && p < |s.procs|
  {
    var x := s.procs[p];
    && (p == INIT ==> x.parent == None) && x.parent != Some(p)
    && (x.parent.Some? ==> x.parent.value < |s.procs| && Alive(s.procs[x.parent.value].state))
    && (!s.strayed && p != INIT && InUse(x.state) ==> x.parent.Some?)
    && (x.state == UNUSED && x.parent.Some? ==> s.aux[x.parent.value].clearing == Some(p))
    && (x.state == EMBRYO && x.parent.Some? ==>
          Filling(s.aux[x.parent.value], p) || s.aux[x.parent.value].clearing == Some(p))
  }

  /** The entry that p is filling, or has given up. */
  ghost predicate ForkOk(s: State, p: nat)
    requires Shape(s) && p < |s.procs|
  {
    var x, a := s.procs[p], s.aux[p];
    && (a.making.Some? ==> s.procs[a.making.value].state == EMBRYO && Alive(x.state))
    && (!s.strayed && a.making.Some? && a.filled ==> s.procs[a.making.value].parent == Some(p))
    && (a.clearing.Some? ==> a.clearing != Some(INIT) && Alive(x.state) && a.making == None)
  }

  /** A process asleep in wait has a child, and none that has exited. */
  ghost predicate WaitOk(s: State, p: nat)
    requires Shape(s) && p < |s.procs|
  {
    && (s.aux[p].inWait ==> s.aux[p].making == None == s.aux[p].clearing && Alive(s.procs[p].state))
    && (s.procs[p].state == SLEEPING && s.aux[p].inWait ==>
          s.procs[p].chan == ProcChan(p) && (!s.strayed ==> HasChild(s.procs, p)) && !HasZombie(s.procs, p))
  }

  ghost predicate PidsOk(s: State) {
    && (forall p, q :: 0 <= p < |s.procs| && 0 <= q < |s.procs| && p != q && s.procs[p].pid != 0 ==>
          s.procs[p].pid != s.procs[q].pid)
    && (forall i, j :: 0 <= i < j < |s.reaped| ==> s.reaped[i].0 != s.reaped[j].0)
    && (forall i, p :: 0 <= i < |s.reaped| && 0 <= p < |s.procs| ==> s.procs[p].pid != s.reaped[i].0)
    && (forall i :: 0 <= i < |s.reaped| ==> 0 < s.reaped[i].0 < s.nextpid)
    && (forall p :: 0 <= p < |s.procs| && s.procs[p].state != UNUSED ==> s.procs[p].pid != 0)
    && 0 < s.nextpid
  }

  /** Two processes do not fill the same entry. */
  ghost predicate MakersOk(s: State)
    requires Shape(s)
  {
    forall p, q :: 0 <= p < |s.procs| && 0 <= q < |s.procs| && p != q && s.aux[p].making.Some? ==>
      s.aux[p].making != s.aux[q].making
  }

  /** A CPU is only ever on its way to or from a process that exists. */
  ghost predicate OnLive(s: State)
    requires Shape(s)
  {
    forall c :: 0 <= c < |s.cpus| && Current(s.cpus[c].at).Some? ==> InUse(s.procs[Current(s.cpus[c].at).value].state)
  }

  ghost predicate Inv(s: State) {
    && Shape(s) && CpusOk(s) && OnLive(s) && PidsOk(s) && MakersOk(s) && Alive(s.procs[INIT].state)
    && (forall p :: 0 <= p < |s.procs| ==> EntryOk(s, p) && WaitOk(s, p))
  }

  // Steps that only move a CPU

  ghost predicate SameTable(s: State, t: State) {
    t.procs == s.procs && t.aux == s.aux && t.nextpid == s.nextpid && t.reaped == s.reaped && t.strayed == s.strayed
  }

  lemma MoveKeeps(s: State, t: State)
    requires Inv(s) && SameTable(s, t) && Shape(t) && CpusOk(t) && OnLive(t)
    ensures Inv(t)
  {
    hide CpusOk;
    forall p | 0 <= p < |t.procs| ensures EntryOk(t, p) && WaitOk(t, p) { assert EntryOk(s, p) && WaitOk(s, p); }
  }

  lemma CpusFacts(s: State)
    requires Inv(s)
    ensures Shape(s) && CpusOk(s) && OnLive(s)
  {
  }

  /** CPU c moves, and the lock goes with it. */
  ghost predicate OneCpu(s: State, t: State, c: nat)
    requires Shape(s)
  {
    && Shape(t) && c < |s.cpus| && |t.cpus| == |s.cpus| && t.cpus == s.cpus[c := t.cpus[c]] && |t.procs| == |s.procs|
    && (t.lock == Some(c) <==> HoldsLock(t.cpus[c].at)) && (t.lock == s.lock || t.lock == None || t.lock == Some(c))
    && (t.lock != s.lock ==> s.lock == None || s.lock == Some(c))
    && t.cpus[c].curproc == Current(t.cpus[c].at) && NotInWait(t.cpus[c].at, t.aux)
    && (forall p :: 0 <= p < |s.procs| ==> t.aux[p].inWait == s.aux[p].inWait || Current(t.cpus[c].at) == Some(p))
  }

  /** The processes that c runs, before and after. */
  ghost predicate RunsMove(s: State, t: State, c: nat)
    requires Shape(s) && OneCpu(s, t, c)
  {
    && (forall p :: 0 <= p < |s.procs| ==>
          t.aux[p].cpu == if Runs(t.cpus[c].at, p) then Some(c) else if Runs(s.cpus[c].at, p) then None else s.aux[p].cpu)
    && (Current(t.cpus[c].at).Some? && Current(t.cpus[c].at) != Current(s.cpus[c].at) ==>
          forall d :: 0 <= d < |s.cpus| && d != c ==> Current(s.cpus[d].at) != Current(t.cpus[c].at))
  }

  lemma RunsMoveAt(s: State, t: State, c: nat, d: nat, p: nat)
    requires Shape(s) && CpusOk(s) && OneCpu(s, t, c) && RunsMove(s, t, c) && d < |s.cpus| && p < |s.procs|
    ensures t.aux[p].cpu == Some(d) <==> Runs(t.cpus[d].at, p)
  {
    CpuFacts(s, c);
    CpuFacts(s, d);
    if c != d { DistinctFacts(s, c, d); }
    hide CpusOk, Shape, NotInWait, HoldsLock;
    assert Runs(t.cpus[c].at, p) ==> Current(t.cpus[c].at) == Some(p);
    assert Runs(s.cpus[d].at, p) ==> Current(s.cpus[d].at) == Some(p);
  }

  lemma DistinctFacts(s: State, c: nat, d: nat)
    requires Shape(s) && CpusOk(s) && c < |s.cpus| && d < |s.cpus| && c != d
    ensures Current(s.cpus[c].at).Some? ==> Current(s.cpus[c].at) != Current(s.cpus[d].at)
  {
  }

  lemma NotInWaitAt(s: State, t: State, c: nat, d: nat)
    requires Shape(s) && CpusOk(s) && OneCpu(s, t, c) && RunsMove(s, t, c) && d < |s.cpus|
    ensures NotInWait(t.cpus[d].at, t.aux)
  {
    CpuFacts(s, d);
    if d != c { DistinctFacts(s, d, c); }
    hide CpusOk, HoldsLock;
  }

  lemma OneCpuKeeps(s: State, t: State, c: nat)
    requires Shape(s) && CpusOk(s) && OneCpu(s, t, c) && RunsMove(s, t, c)
    ensures CpusOk(t)
  {
    forall d, p | 0 <= d < |t.cpus| && 0 <= p < |t.procs| ensures t.aux[p].cpu == Some(d) <==> Runs(t.cpus[d].at, p) {
      RunsMoveAt(s, t, c, d, p);
    }
    forall d | 0 <= d < |t.cpus| ensures NotInWait(t.cpus[d].at, t.aux) { NotInWaitAt(s, t, c, d); }
    hide NotInWait, Runs;
  }

  lemma OnLiveKeeps(s: State, t: State, c: nat)
    requires Shape(s) && OnLive(s) && OneCpu(s, t, c)
    requires forall p :: 0 <= p < |s.procs| && InUse(s.procs[p].state) ==> InUse(t.procs[p].state)
    requires Current(t.cpus[c].at).Some? && Current(t.cpus[c].at) != Current(s.cpus[c].at) ==>
               InUse(t.procs[Current(t.cpus[c].at).value].state)
    ensures OnLive(t)
  {
  }

  lemma SchedCpus(s: State, t: State, c: nat, a: Action)
    requires Shape(s) && CpusOk(s) && OnLive(s) && c < |s.cpus| && Next(s, t, c, a)
    requires a.SchedAcquire? || a.SchedRelease? || a.SwtchIn? || a.SwtchOut? || a.SchedBack?
    ensures Shape(t) && CpusOk(t) && OnLive(t) && SameTable(s, t)
  {
    hide CpusOk, OnLive, HasChild, HasZombie;
    CpuFacts(s, c);
    OneCpuKeeps(s, t, c);
    OnLiveKeeps(s, t, c);
  }

  lemma SchedKeeps(s: State, t: State, c: nat, a: Action)
    requires Inv(s) && c < |s.cpus| && Next(s, t, c, a)
    requires a.SchedAcquire? || a.SchedRelease? || a.SwtchIn? || a.SwtchOut? || a.SchedBack?
    ensures Inv(t)
  {
    hide Inv, OnLive, Next, CpusOk;
    CpusFacts(s);
    SchedCpus(s, t, c, a);
    MoveKeeps(s, t);
  }

  lemma CpuFacts(s: State, c: nat)
    requires Shape(s) && CpusOk(s) && c < |s.cpus|
    ensures (s.lock == Some(c) <==> HoldsLock(s.cpus[c].at)) && s.cpus[c].curproc == Current(s.cpus[c].at)
    ensures forall p :: 0 <= p < |s.procs| ==> (s.aux[p].cpu == Some(c) <==> Runs(s.cpus[c].at, p))
    ensures NotInWait(s.cpus[c].at, s.aux)
  {
  }

  lemma LockKeeps(s: State, t: State, c: nat, a: Action)
    requires Inv(s) && c < |s.cpus| && s.cpus[c].at.On? && Next(s, t, c, a) && (a.Acquire? || a.Release? || a.WaitNone?)
    ensures Inv(t)
  {
    hide Inv, HasChild, HasZombie;
    CpusFacts(s);
    CpuFacts(s, c);
    hide CpusOk;
    OneCpuKeeps(s, t, c);
    OnLiveKeeps(s, t, c);
    MoveKeeps(s, t);
  }

  // Steps that only change the table

  lemma CpusSame(s: State, t: State)
    requires Shape(s) && Shape(t) && CpusOk(s) && t.cpus == s.cpus && t.lock == s.lock && |t.procs| == |s.procs|
    requires forall p :: 0 <= p < |s.procs| ==> t.aux[p].cpu == s.aux[p].cpu && t.aux[p].inWait == s.aux[p].inWait
    ensures CpusOk(t)
  {
    forall c | 0 <= c < |t.cpus| ensures NotInWait(t.cpus[c].at, t.aux) { assert NotInWait(s.cpus[c].at, s.aux); }
  }

  lemma EntryFacts(s: State, p: nat)
    requires Inv(s) && p < |s.procs|
    ensures Shape(s) && EntryOk(s, p) && WaitOk(s, p) && PidsOk(s) && MakersOk(s) && Alive(s.procs[INIT].state)
  {
  }

  /** Entries keep everything but that some sleepers may become runnable. */
  ghost predicate Roused(a: Table, b: Table) {
    && |a| == |b|
    && forall i :: 0 <= i < |a| ==>
         || b[i] == a[i].(killed := b[i].killed)
         || (a[i].state == SLEEPING && b[i] == a[i].(state := RUNNABLE, killed := b[i].killed))
  }

  lemma RousedWait(a: Table, b: Table, c: nat)
    requires Roused(a, b)
    ensures HasChild(a, c) ==> HasChild(b, c)
    ensures HasZombie(b, c) ==> HasZombie(a, c)
  {
    if HasChild(a, c) { var i :| 0 <= i < |a| && Child(a[i], c); assert Child(b[i], c); }
    if HasZombie(b, c) { var i :| 0 <= i < |b| && ZombieChild(b[i], c); assert ZombieChild(a[i], c); }
  }

  lemma RousedPids(s: State, t: State)
    requires PidsOk(s) && Roused(s.procs, t.procs) && t.nextpid == s.nextpid && t.reaped == s.reaped
    ensures PidsOk(t)
  {
  }

  lemma RouseKeeps(s: State, t: State)
    requires Inv(s) && t == s.(procs := t.procs) && Roused(s.procs, t.procs)
    ensures Inv(t)
  {
    hide CpusOk, PidsOk, MakersOk, HasChild, HasZombie;
    assert Shape(t);
    forall p | 0 <= p < |t.procs| ensures EntryOk(t, p) && WaitOk(t, p) {
      assert EntryOk(s, p) && WaitOk(s, p);
      RousedWait(s.procs, t.procs, p);
    }
    assert CpusOk(t) by { CpusSame(s, t); }
    assert PidsOk(t) by { RousedPids(s, t); }
    assert MakersOk(t) by { MakersSame(s, t); }
  }

  lemma MakersSame(s: State, t: State)
    requires Shape(s) && Shape(t) && MakersOk(s) && |t.procs| == |s.procs|
    requires forall p :: 0 <= p < |s.procs| ==> t.aux[p].making == s.aux[p].making
    ensures MakersOk(t)
  {
  }

  lemma WakeupKeeps(s: State, t: State, c: nat, a: Action)
    requires Inv(s) && c < |s.cpus| && Next(s, t, c, a) && (a.Wakeup? || a.IdleWakeup? || a.DoKill?)
    ensures Inv(t)
  {
    hide Inv, FirstPid, HasChild, HasZombie;
    RouseKeeps(s, t);
  }

  // The scheduler picks, and a process arrives

  lemma PickCpus(s: State, c: nat, p: nat)
    requires Inv(s) && c < |s.cpus| && s.cpus[c].at.SchedScan? && p < |s.procs| && s.procs[p].state == RUNNABLE
    ensures Shape(Pick(s, c, p)) && CpusOk(Pick(s, c, p)) && OnLive(Pick(s, c, p))
  {
    hide Inv, OnLive, PidsOk, MakersOk, WaitOk, CpusOk;
    CpusFacts(s);
    CpuFacts(s, c);
    EntryFacts(s, p);
    NobodyOn(s, c, p);
    var t := Pick(s, c, p);
    PickMoves(s, t, c, p);
    hide OneCpu, RunsMove;
    OneCpuKeeps(s, t, c);
    OnLiveKeeps(s, t, c);
  }

  lemma PickMoves(s: State, t: State, c: nat, p: nat)
    requires Shape(s) && c < |s.cpus| && s.cpus[c].at.SchedScan? && p < |s.procs| && t == Pick(s, c, p)
    requires s.lock == Some(c) && s.procs[p].state == RUNNABLE
    requires forall d :: 0 <= d < |s.cpus| ==> Current(s.cpus[d].at) != Some(p)
    ensures OneCpu(s, t, c) && RunsMove(s, t, c)
    ensures forall q :: 0 <= q < |s.procs| && InUse(s.procs[q].state) ==> InUse(t.procs[q].state)
    ensures Current(t.cpus[c].at) == Some(p) && InUse(t.procs[p].state)
  {
  }

  /** While c has the lock, a process that is not running is on no CPU. */
  lemma NobodyOn(s: State, c: nat, p: nat)
    requires Inv(s) && c < |s.cpus| && s.lock == Some(c) && p < |s.procs| && s.procs[p].state != RUNNING
    requires Current(s.cpus[c].at) != Some(p)
    ensures forall d :: 0 <= d < |s.cpus| ==> Current(s.cpus[d].at) != Some(p)
  {
    CpusFacts(s);
    EntryFacts(s, p);
    hide Inv;
    forall d | 0 <= d < |s.cpus| ensures Current(s.cpus[d].at) != Some(p) {
      assert s.lock == Some(d) <==> HoldsLock(s.cpus[d].at);
      assert s.aux[p].cpu == Some(d) <==> Runs(s.cpus[d].at, p);
    }
  }

  ghost predicate SameButState(a: Table, b: Table, p: nat) {
    && |a| == |b| && p < |a| && (forall i :: 0 <= i < |a| && i != p ==> b[i] == a[i])
    && b[p].pid == a[p].pid && b[p].parent == a[p].parent && Alive(a[p].state)
  }

  lemma StateWait(a: Table, b: Table, p: nat, c: nat)
    requires SameButState(a, b, p) && Alive(b[p].state)
    ensures HasChild(a, c) ==> HasChild(b, c)
    ensures HasZombie(b, c) ==> HasZombie(a, c)
  {
    if HasChild(a, c) { var i :| 0 <= i < |a| && Child(a[i], c); assert Child(b[i], c); }
    if HasZombie(b, c) { var i :| 0 <= i < |b| && ZombieChild(b[i], c); assert ZombieChild(a[i], c); }
  }

  lemma StateEntry(s: State, t: State, p: nat, q: nat)
    requires Shape(s) && Shape(t) && SameButState(s.procs, t.procs, p) && Alive(t.procs[p].state) && q < |s.procs| && EntryOk(s, q)
    requires |t.aux| == |s.aux| && t.nextpid == s.nextpid && t.strayed == s.strayed
    requires forall r :: 0 <= r < |s.aux| && r != p ==> t.aux[r] == s.aux[r]
    requires t.aux[p] == s.aux[p].(inWait := t.aux[p].inWait, cpu := t.aux[p].cpu)
    requires t.procs[p].state == RUNNING <==> t.aux[p].cpu.Some?
    ensures EntryOk(t, q)
  {
    assert ParentOk(t, q);
    assert ForkOk(t, q);
  }

  lemma StateWaits(s: State, t: State, p: nat, q: nat)
    requires Shape(s) && Shape(t) && SameButState(s.procs, t.procs, p) && Alive(t.procs[p].state) && q < |s.procs| && WaitOk(s, q)
    requires |t.aux| == |s.aux| && t.strayed == s.strayed
    requires forall r :: 0 <= r < |s.aux| && r != p ==> t.aux[r] == s.aux[r]
    requires t.aux[p] == s.aux[p].(inWait := t.aux[p].inWait, cpu := t.aux[p].cpu)
    requires t.aux[p].inWait ==> s.aux[p].making == None == s.aux[p].clearing
    requires t.procs[p].state == SLEEPING && t.aux[p].inWait ==>
               t.procs[p].chan == ProcChan(p) && (!s.strayed ==> HasChild(s.procs, p)) && !HasZombie(s.procs, p)
    ensures WaitOk(t, q)
  {
    hide HasChild, HasZombie;
    StateWait(s.procs, t.procs, p, q);
  }

  /** One live process changes between running, runnable and sleeping. */
  lemma StateKeeps(s: State, t: State, p: nat)
    requires Inv(s) && Shape(t) && CpusOk(t) && SameButState(s.procs, t.procs, p) && Alive(t.procs[p].state) && OnLive(t)
    requires |t.aux| == |s.aux| && t.nextpid == s.nextpid && t.reaped == s.reaped && t.strayed == s.strayed
    requires forall q :: 0 <= q < |s.aux| && q != p ==> t.aux[q] == s.aux[q]
    requires t.aux[p] == s.aux[p].(inWait := t.aux[p].inWait, cpu := t.aux[p].cpu)
    requires t.procs[p].state == RUNNING <==> t.aux[p].cpu.Some?
    requires t.aux[p].inWait ==> s.aux[p].making == None == s.aux[p].clearing
    requires t.procs[p].state == SLEEPING && t.aux[p].inWait ==>
               t.procs[p].chan == ProcChan(p) && (!s.strayed ==> HasChild(s.procs, p)) && !HasZombie(s.procs, p)
    ensures Inv(t)
  {
    hide CpusOk, PidsOk, MakersOk, HasChild, HasZombie, EntryOk, WaitOk;
    forall q | 0 <= q < |t.procs| ensures EntryOk(t, q) && WaitOk(t, q) {
      assert EntryOk(s, q) && WaitOk(s, q);
      StateEntry(s, t, p, q);
      StateWaits(s, t, p, q);
    }
    assert PidsOk(t) by { StatePids(s, t, p); }
    assert MakersOk(t) by { MakersSame(s, t); }
  }

  lemma StatePids(s: State, t: State, p: nat)
    requires PidsOk(s) && SameButState(s.procs, t.procs, p) && t.nextpid == s.nextpid && t.reaped == s.reaped
    ensures PidsOk(t)
  {
  }

  lemma PickKeeps(s: State, t: State, c: nat, p: nat)
    requires Inv(s) && c < |s.cpus| && s.cpus[c].at.SchedScan? && p < |s.procs| && s.procs[p].state == RUNNABLE
    requires t == Pick(s, c, p)
    ensures Inv(t)
  {
    hide Inv, CpusOk;
    PickCpus(s, c, p);
    EntryFacts(s, p);
    StateKeeps(s, t, p);
  }

  lemma ArriveCpus(s: State, t: State, c: nat, p: nat)
    requires Shape(s) && CpusOk(s) && OnLive(s) && c < |s.cpus| && s.cpus[c].at == On(p, Arrived) && p < |s.procs|
    requires t == Resume(s, c, p)
    ensures Shape(t) && CpusOk(t) && OnLive(t) && s.aux[p].cpu == Some(c)
  {
    hide CpusOk, OnLive;
    CpuFacts(s, c);
    OneCpuKeeps(s, t, c);
    OnLiveKeeps(s, t, c);
  }

  lemma ArriveKeeps(s: State, t: State, c: nat, p: nat)
    requires Inv(s) && c < |s.cpus| && s.cpus[c].at == On(p, Arrived) && p < |s.procs| && t == Resume(s, c, p)
    ensures Inv(t)
  {
    hide Inv, OnLive, PidsOk, MakersOk, HasChild, HasZombie, CpusOk;
    CpusFacts(s);
    ArriveCpus(s, t, c, p);
    EntryFacts(s, p);
    StateKeeps(s, t, p);
  }

  lemma LeaveCpus(s: State, t: State, c: nat, p: nat, w: bool)
    requires Inv(s) && c < |s.cpus| && s.cpus[c].at == On(p, Locked) && p < |s.procs|
    requires t.aux == s.aux[p := s.aux[p].(inWait := w, cpu := None)] && |t.procs| == |s.procs|
    requires t.cpus == s.cpus[c := s.cpus[c].(at := On(p, Leaving))] && t.lock == s.lock
    requires forall q :: 0 <= q < |s.procs| && InUse(s.procs[q].state) ==> InUse(t.procs[q].state)
    ensures Shape(t) && CpusOk(t) && OnLive(t) && s.procs[p].state == RUNNING
  {
    hide Inv;
    CpusFacts(s);
    CpuFacts(s, c);
    hide CpusOk;
    EntryFacts(s, p);
    OneCpuKeeps(s, t, c);
    OnLiveKeeps(s, t, c);
  }

  lemma LeaveKeeps(s: State, t: State, c: nat, p: nat, a: Action)
    requires Inv(s) && c < |s.cpus| && s.cpus[c].at == On(p, Locked) && p < |s.procs|
    requires NextLocked(s, t, c, p, a) && (a.Yield? || a.Sleep? || a.WaitSleep?)
    ensures Inv(t)
  {
    hide Inv, CpusOk, HasChild, HasZombie;
    LeaveCpus(s, t, c, p, a.WaitSleep?);
    EntryFacts(s, p);
    StateKeeps(s, t, p);
  }

  // exit

  /** Exit, entry by entry. */
  lemma ExitAt(t: Table, c: nat, i: nat)
    requires c < |t| && i < |t|
    ensures var r, x := Exit(t, c)[i], t[i];
            && r.pid == x.pid && r.chan == x.chan && r.killed == (if i == c then false else x.killed)
            && r.parent == (if x.parent == Some(c) then Some(INIT) else x.parent)
            && r.state == (if i == c then ZOMBIE else if x.state == SLEEPING && Wakes(t, c, x.chan) then RUNNABLE else x.state)
  {
    hide HasZombie;
    var t1 := if t[c].parent.Some? then Wakeup1(t, ProcChan(t[c].parent.value)) else t;
    RousedWaitZ(t, t1, c);
  }

  lemma RousedWaitZ(a: Table, b: Table, c: nat)
    requires Roused(a, b)
    ensures HasZombie(b, c) <==> HasZombie(a, c)
  {
    RousedWait(a, b, c);
    if HasZombie(a, c) { var i :| 0 <= i < |a| && ZombieChild(a[i], c); assert ZombieChild(b[i], c); }
  }

  /** The channels exit wakes: its parent's, and init's if it leaves init a zombie. */
  ghost predicate Wakes(t: Table, c: nat, ch: Chan)
    requires c < |t|
  {
    (t[c].parent.Some? && ch == ProcChan(t[c].parent.value)) || (HasZombie(t, c) && ch == ProcChan(INIT))
  }

  lemma ExitWait(s: State, t: State, p: nat, q: nat)
    requires Inv(s) && p < |s.procs| && q < |s.procs| && p != INIT && t.procs == Exit(s.procs, p)
    requires q != p && Shape(t) && t.aux[q] == s.aux[q] && t.strayed == s.strayed
    ensures WaitOk(t, q)
  {
    hide Exit, HasChild, HasZombie, CpusOk, PidsOk, MakersOk;
    ExitAt(s.procs, p, q);
    EntryFacts(s, q);
    EntryFacts(s, p);
    if t.procs[q].state == SLEEPING && t.aux[q].inWait {
      if !s.strayed { ExitChild(s.procs, p, q); }
      ExitNoZombie(s.procs, p, q);
    }
  }

  lemma ExitChild(t: Table, p: nat, q: nat)
    requires p < |t| && q < |t| && q != p && HasChild(t, q)
    ensures HasChild(Exit(t, p), q)
  {
    var i :| 0 <= i < |t| && Child(t[i], q);
    ExitAt(t, p, i);
    hide Exit;
    assert Child(Exit(t, p)[i], q);
  }

  /** A sleeper that exit does not wake has no zombie child after it. */
  lemma ExitNoZombie(t: Table, p: nat, q: nat)
    requires p < |t| && q < |t| && q != p && !HasZombie(t, q) && !Wakes(t, p, ProcChan(q)) && t[p].parent != Some(p)
    ensures !HasZombie(Exit(t, p), q)
  {
    forall i | 0 <= i < |t| ensures !ZombieChild(Exit(t, p)[i], q) {
      ExitAt(t, p, i);
      assert !ZombieChild(t[i], q);
      if ZombieChild(t[i], p) { assert HasZombie(t, p); }
    }
  }

  lemma ExitEntry(s: State, t: State, p: nat, q: nat)
    requires Inv(s) && p < |s.procs| && q < |s.procs| && p != INIT && t.procs == Exit(s.procs, p)
    requires s.procs[p].state == RUNNING && s.aux[p].making == None == s.aux[p].clearing && t.strayed == s.strayed
    requires Shape(t) && t.aux == s.aux[p := s.aux[p].(inWait := false, cpu := None)] && t.nextpid == s.nextpid
    ensures EntryOk(t, q)
  {
    hide Inv, Exit, Wakes, HasChild, HasZombie, WaitOk, PidsOk, MakersOk;
    ExitAt(s.procs, p, q);
    EntryFacts(s, q);
    if s.procs[q].parent.Some? { ExitAt(s.procs, p, s.procs[q].parent.value); }
    ExitAt(s.procs, p, INIT);
    if s.aux[q].making.Some? { ExitAt(s.procs, p, s.aux[q].making.value); }
    assert ParentOk(t, q);
    assert ForkOk(t, q);
  }

  lemma ExitPids(s: State, t: State, p: nat)
    requires PidsOk(s) && p < |s.procs| && t.procs == Exit(s.procs, p) && s.procs[p].state == RUNNING
    requires t.nextpid == s.nextpid && t.reaped == s.reaped
    ensures PidsOk(t)
  {
    hide Exit, Wakes;
    forall q | 0 <= q < |t.procs|
      ensures t.procs[q].pid == s.procs[q].pid && (t.procs[q].state != UNUSED ==> s.procs[q].state != UNUSED)
    {
      ExitAt(s.procs, p, q);
    }
  }

  lemma ExitKeeps(s: State, t: State, c: nat, p: nat)
    requires Inv(s) && c < |s.cpus| && s.cpus[c].at == On(p, Locked) && p < |s.procs| && NextLocked(s, t, c, p, DoExit)
    ensures Inv(t)
  {
    hide Exit, CpusOk, PidsOk, HasChild, HasZombie;
    forall q | 0 <= q < |s.procs| && InUse(s.procs[q].state) ensures InUse(t.procs[q].state) { ExitAt(s.procs, p, q); }
    LeaveCpus(s, t, c, p, false);
    forall q | 0 <= q < |t.procs| ensures EntryOk(t, q) && WaitOk(t, q) {
      ExitEntry(s, t, p, q);
      if q != p { ExitWait(s, t, p, q); } else { ExitAt(s.procs, p, p); }
    }
    ExitPids(s, t, p);
    ExitAt(s.procs, p, INIT);
    assert MakersOk(t) by { MakersSame(s, t); }
  }

  // wait frees an entry

  /** A process that runs kernel code is not asleep, and an entry it is filling is not yet in use. */
  lemma KernelFacts(s: State, c: nat, p: nat)
    requires Inv(s) && c < |s.cpus| && (s.cpus[c].at == On(p, Running) || s.cpus[c].at == On(p, Locked)) && p < |s.procs|
    ensures s.procs[p].state == RUNNING && !s.aux[p].inWait
    ensures s.aux[p].making.Some? ==> s.procs[s.aux[p].making.value].state == EMBRYO
  {
    hide Inv, CpusOk, WaitOk, OnLive, PidsOk, MakersOk;
    CpusFacts(s);
    CpuFacts(s, c);
    EntryFacts(s, p);
  }

  lemma ReapWait(t: Table, z: nat, q: nat)
    requires z < |t| && t[z].parent != Some(q)
    ensures HasChild(t, q) ==> HasChild(Reap(t, z), q)
    ensures HasZombie(Reap(t, z), q) ==> HasZombie(t, q)
  {
    if HasChild(t, q) { var i :| 0 <= i < |t| && Child(t[i], q); assert Child(Reap(t, z)[i], q); }
    if HasZombie(Reap(t, z), q) { var i :| 0 <= i < |t| && ZombieChild(Reap(t, z)[i], q); assert ZombieChild(t[i], q); }
  }

  lemma ReapAt(s: State, t: State, p: nat, z: nat, q: nat)
    requires Inv(s) && z < |s.procs| && p < |s.procs| && ZombieChild(s.procs[z], p) && q < |s.procs|
    requires Shape(t) && t.procs == Reap(s.procs, z) && t.aux == s.aux && t.nextpid == s.nextpid && t.strayed == s.strayed
    requires s.procs[p].state == RUNNING
    ensures EntryOk(t, q) && WaitOk(t, q)
  {
    hide HasChild, HasZombie, CpusOk, PidsOk, MakersOk;
    EntryFacts(s, q);
    EntryFacts(s, z);
    hide Inv;
    if q != p { ReapWait(s.procs, z, q); }
  }

  lemma ReapPids(s: State, t: State, p: nat, z: nat)
    requires PidsOk(s) && z < |s.procs| && ZombieChild(s.procs[z], p)
    requires t.procs == Reap(s.procs, z) && t.nextpid == s.nextpid && t.reaped == s.reaped + [(s.procs[z].pid, p)]
    requires forall q :: 0 <= q < |s.procs| ==> s.procs[q].pid < s.nextpid
    ensures PidsOk(t)
  {
    forall i, j | 0 <= i < j < |t.reaped| ensures t.reaped[i].0 != t.reaped[j].0 {
      assert s.procs[z].pid != s.reaped[i].0;
    }
    forall i, q | 0 <= i < |t.reaped| && 0 <= q < |t.procs| ensures t.procs[q].pid != t.reaped[i].0 {
      if i < |s.reaped| { assert s.procs[q].pid != s.reaped[i].0; }
    }
  }

  lemma ReapCpus(s: State, t: State, c: nat, p: nat, z: nat)
    requires Inv(s) && c < |s.cpus| && s.cpus[c].at == On(p, Locked) && p < |s.procs|
    requires NextLocked(s, t, c, p, WaitReap(z))
    ensures Shape(t) && CpusOk(t) && OnLive(t) && s.procs[p].state == RUNNING
  {
    hide Inv, CpusOk, OnLive, PidsOk, MakersOk, EntryOk, WaitOk;
    CpusFacts(s);
    CpuFacts(s, c);
    KernelFacts(s, c, p);
    OneCpuKeeps(s, t, c);
    NobodyOn(s, c, z);
    ReapOnLive(s, t, c, p, z);
  }

  lemma ReapOnLive(s: State, t: State, c: nat, p: nat, z: nat)
    requires Shape(s) && OnLive(s) && c < |s.cpus| && s.cpus[c].at == On(p, Locked) && p < |s.procs| && z < |s.procs| && Shape(t)
    requires t.procs == Reap(s.procs, z) && t.cpus == s.cpus[c := s.cpus[c].(at := On(p, Running))]
    requires forall d :: 0 <= d < |s.cpus| ==> Current(s.cpus[d].at) != Some(z)
    ensures OnLive(t)
  {
    assert Current(s.cpus[c].at) == Some(p);
  }

  lemma ReapKeeps(s: State, t: State, c: nat, p: nat, z: nat)
    requires Inv(s) && c < |s.cpus| && s.cpus[c].at == On(p, Locked) && p < |s.procs|
    requires NextLocked(s, t, c, p, WaitReap(z))
    ensures Inv(t)
  {
    hide CpusOk, OnLive, PidsOk, HasChild, HasZombie;
    ReapCpus(s, t, c, p, z);
    forall q | 0 <= q < |t.procs| ensures EntryOk(t, q) && WaitOk(t, q) { ReapAt(s, t, p, z, q); }
    forall q | 0 <= q < |s.procs| ensures s.procs[q].pid < s.nextpid { EntryFacts(s, q); }
    hide EntryOk, WaitOk;
    ReapPids(s, t, p, z);
    assert MakersOk(t) by { MakersSame(s, t); }
    assert Alive(t.procs[INIT].state);
  }

  // fork

  ghost predicate Unrelated(a: Table, b: Table, e: nat) {
    && |a| == |b| && e < |a| && (forall i :: 0 <= i < |a| && i != e ==> b[i] == a[i])
    && a[e].state != ZOMBIE && b[e].state != ZOMBIE
  }

  lemma UnrelatedWait(a: Table, b: Table, e: nat, q: nat)
    requires Unrelated(a, b, e) && (a[e].parent == Some(q) && a[e].state != UNUSED ==> Child(b[e], q))
    ensures HasChild(a, q) ==> HasChild(b, q)
    ensures HasZombie(b, q) ==> HasZombie(a, q)
  {
    if HasChild(a, q) { var i :| 0 <= i < |a| && Child(a[i], q); assert Child(b[i], q); }
    if HasZombie(b, q) { var i :| 0 <= i < |b| && ZombieChild(b[i], q); assert ZombieChild(a[i], q); }
  }

  lemma AllocAt(s: State, t: State, p: nat, e: nat, q: nat)
    requires Shape(s) && p < |s.procs| && e < |s.procs| && q < |s.procs| && t == Allocate(s, p, e) && s.procs[e].state == UNUSED
    requires s.aux[p].making == None == s.aux[p].clearing
    requires EntryOk(s, q) && EntryOk(s, e) && EntryOk(s, p) && Alive(s.procs[p].state) && Shape(t)
    ensures EntryOk(t, q)
  {
    assert ParentOk(t, q);
    assert ForkOk(t, q);
  }

  lemma AllocWait(s: State, t: State, p: nat, e: nat, q: nat)
    requires Shape(s) && p < |s.procs| && e < |s.procs| && q < |s.procs| && t == Allocate(s, p, e) && s.procs[e].state == UNUSED
    requires WaitOk(s, q) && !s.aux[p].inWait && Shape(t)
    ensures WaitOk(t, q)
  {
    hide HasChild, HasZombie;
    UnrelatedWait(s.procs, t.procs, e, q);
  }

  lemma AllocKeeps(s: State, t: State, c: nat, p: nat, e: nat)
    requires Inv(s) && c < |s.cpus| && s.cpus[c].at == On(p, Locked) && p < |s.procs| && NextLocked(s, t, c, p, Alloc(e))
    ensures Inv(t)
  {
    hide CpusOk, PidsOk, MakersOk, HasChild, HasZombie, EntryOk, WaitOk;
    CpusFacts(s);
    KernelFacts(s, c, p);
    assert Shape(t);
    forall q | 0 <= q < |t.procs| ensures EntryOk(t, q) && WaitOk(t, q) {
      EntryFacts(s, q);
      EntryFacts(s, p);
      EntryFacts(s, e);
      AllocAt(s, t, p, e, q);
      AllocWait(s, t, p, e, q);
    }
    assert CpusOk(t) by { CpusSame(s, t); }
    assert PidsOk(t) by { AllocPids(s, t, c, p, e); }
    assert MakersOk(t) by { AllocMakers(s, t, c, p, e); }
  }

  lemma AllocPids(s: State, t: State, c: nat, p: nat, e: nat)
    requires Inv(s) && c < |s.cpus| && p < |s.procs| && NextLocked(s, t, c, p, Alloc(e))
    ensures PidsOk(t)
  {
    forall q | 0 <= q < |s.procs| ensures s.procs[q].pid < s.nextpid { EntryFacts(s, q); }
    hide CpusOk, MakersOk;
    assert PidsOk(s);
    hide Inv;
  }

  lemma AllocMakers(s: State, t: State, c: nat, p: nat, e: nat)
    requires Inv(s) && c < |s.cpus| && p < |s.procs| && NextLocked(s, t, c, p, Alloc(e)) && Shape(t)
    ensures MakersOk(t)
  {
    forall q | 0 <= q < |s.procs| ensures s.aux[q].making != Some(e) { EntryFacts(s, q); }
    assert MakersOk(s);
    hide Inv;
  }

  /** p changes the entry e it is filling: it stores the parent, gives up, or is done. */
  ghost predicate Fills(s: State, t: State, p: nat, e: nat)
    requires Shape(s) && p < |s.procs|
  {
    && s.aux[p].making == Some(e) && Shape(t) && |t.procs| == |s.procs|
    && var x, y := s.procs[e], t.procs[e];
       && t == s.(procs := s.procs[e := y], aux := s.aux[p := t.aux[p]])
       && y == x.(parent := y.parent, state := y.state)
       && (|| (&& y.state == EMBRYO && y.parent == Some(p) && t.aux[p] == s.aux[p].(filled := true))
           || (&& !s.aux[p].filled && y.state == UNUSED && y.parent == x.parent && t.aux[p] == s.aux[p].(making := None))
           || (&& s.aux[p].filled && y.state == UNUSED && y.parent == x.parent
               && t.aux[p] == s.aux[p].(making := None, filled := false, clearing := Some(e)))
           || (&& s.aux[p].filled && y.state == RUNNABLE && y.parent == x.parent
               && t.aux[p] == s.aux[p].(making := None, filled := false)))
  }

  lemma FillAt(s: State, t: State, p: nat, e: nat, q: nat)
    requires Shape(s) && p < |s.procs| && q < |s.procs| && Fills(s, t, p, e) && MakersOk(s)
    requires EntryOk(s, q) && EntryOk(s, e) && EntryOk(s, p) && Alive(s.procs[INIT].state)
    ensures EntryOk(t, q)
  {
    assert ParentOk(t, q);
    assert ForkOk(t, q);
  }

  lemma FillWait(s: State, t: State, p: nat, e: nat, q: nat)
    requires Shape(s) && p < |s.procs| && q < |s.procs| && Fills(s, t, p, e) && MakersOk(s)
    requires EntryOk(s, e) && EntryOk(s, p) && WaitOk(s, q) && WaitOk(s, p) && !s.aux[p].inWait
    ensures WaitOk(t, q)
  {
    hide HasChild, HasZombie;
    if q != p && s.aux[q].inWait { UnrelatedWait(s.procs, t.procs, e, q); }
  }

  lemma FillPids(s: State, t: State, p: nat, e: nat)
    requires Shape(s) && p < |s.procs| && Fills(s, t, p, e) && PidsOk(s) && s.procs[e].state == EMBRYO
    ensures PidsOk(t)
  {
  }

  lemma FillMakers(s: State, t: State, p: nat, e: nat)
    requires Shape(s) && p < |s.procs| && Fills(s, t, p, e) && MakersOk(s)
    ensures MakersOk(t)
  {
  }

  lemma FillKeeps(s: State, t: State, c: nat, p: nat, e: nat)
    requires Inv(s) && c < |s.cpus| && s.cpus[c].at == On(p, Running) && p < |s.procs| && Fills(s, t, p, e)
    ensures Inv(t)
  {
    hide CpusOk, PidsOk, MakersOk, EntryOk, WaitOk, NotInWait;
    CpusFacts(s);
    KernelFacts(s, c, p);
    forall q | 0 <= q < |t.procs| ensures EntryOk(t, q) && WaitOk(t, q) {
      EntryFacts(s, q);
      EntryFacts(s, p);
      EntryFacts(s, e);
      FillAt(s, t, p, e, q);
      FillWait(s, t, p, e, q);
    }
    assert CpusOk(t) by { CpusSame(s, t); }
    assert PidsOk(t) by { FillPids(s, t, p, e); }
    assert MakersOk(t) by { FillMakers(s, t, p, e); }
  }

  lemma ForkKeeps(s: State, t: State, c: nat, p: nat, a: Action)
    requires Inv(s) && c < |s.cpus| && s.cpus[c].at == On(p, Running) && p < |s.procs| && NextRunning(s, t, c, p, a)
    requires a.ForkFill? || a.ForkNoStack? || a.ForkNoMem? || a.ForkDone?
    ensures Inv(t)
  {
    EntryFacts(s, p);
    hide Inv;
    FillKeeps(s, t, c, p, s.aux[p].making.value);
  }

  // The last store of a fork that fails

  /** p clears the parent of the entry e it has freed. */
  ghost predicate Clears(s: State, t: State, p: nat, e: nat)
    requires Shape(s) && p < |s.procs|
  {
    && s.aux[p].clearing == Some(e) && Shape(t)
    && t == SetAux(s.(procs := s.procs[e := s.procs[e].(parent := None)], strayed := t.strayed), p, s.aux[p].(clearing := None))
    && (s.strayed || InUse(s.procs[e].state) || (exists r :: 0 <= r < |s.procs| && Filling(s.aux[r], e)) ==> t.strayed)
  }

  lemma ClearStep(s: State, t: State, c: nat, p: nat)
    requires Shape(s) && c < |s.cpus| && p < |s.procs| && NextRunning(s, t, c, p, ForkClear)
    ensures Clears(s, t, p, s.aux[p].clearing.value)
  {
  }

  lemma ClearAt(s: State, t: State, p: nat, e: nat, q: nat)
    requires Shape(s) && p < |s.procs| && q < |s.procs| && Clears(s, t, p, e)
    requires EntryOk(s, q) && EntryOk(s, e) && EntryOk(s, p)
    ensures EntryOk(t, q)
  {
    assert Filling(s.aux[q], e) ==> t.strayed;
  }

  lemma ClearWait(s: State, t: State, p: nat, e: nat, q: nat)
    requires Shape(s) && p < |s.procs| && q < |s.procs| && Clears(s, t, p, e)
    requires EntryOk(s, e) && WaitOk(s, p) && WaitOk(s, q)
    ensures WaitOk(t, q)
  {
    if t.procs[q].state == SLEEPING && t.aux[q].inWait {
      ClearedChildren(s, t, p, e, q);
      hide HasChild, HasZombie, EntryOk;
    }
  }

  lemma ClearedChildren(s: State, t: State, p: nat, e: nat, q: nat)
    requires Shape(s) && p < |s.procs| && q < |s.procs| && Clears(s, t, p, e) && EntryOk(s, e)
    requires s.aux[q].clearing == None && s.aux[q].making == None
    ensures !t.strayed && HasChild(s.procs, q) ==> HasChild(t.procs, q)
    ensures HasZombie(t.procs, q) ==> HasZombie(s.procs, q)
  {
    if HasZombie(t.procs, q) {
      var i :| 0 <= i < |t.procs| && ZombieChild(t.procs[i], q);
      assert ZombieChild(s.procs[i], q);
    }
    if !t.strayed && HasChild(s.procs, q) {
      var i :| 0 <= i < |s.procs| && Child(s.procs[i], q);
      assert Child(t.procs[i], q);
    }
  }

  lemma ClearKeeps(s: State, t: State, c: nat, p: nat)
    requires Inv(s) && c < |s.cpus| && s.cpus[c].at == On(p, Running) && p < |s.procs| && NextRunning(s, t, c, p, ForkClear)
    ensures Inv(t)
  {
    hide CpusOk, PidsOk, MakersOk, EntryOk, WaitOk, NextRunning;
    CpusFacts(s);
    ClearStep(s, t, c, p);
    var e := s.aux[p].clearing.value;
    forall q | 0 <= q < |t.procs| ensures EntryOk(t, q) && WaitOk(t, q) {
      EntryFacts(s, q);
      EntryFacts(s, p);
      EntryFacts(s, e);
      ClearAt(s, t, p, e, q);
      ClearWait(s, t, p, e, q);
    }
    assert CpusOk(t) by { CpusSame(s, t); }
    assert MakersOk(t) by { MakersSame(s, t); }
    assert PidsOk(t) by { ClearPids(s, t, p, e); }
  }

  lemma ClearPids(s: State, t: State, p: nat, e: nat)
    requires PidsOk(s) && Shape(s) && p < |s.procs| && Clears(s, t, p, e)
    ensures PidsOk(t)
  {
  }

  // Every step, every run

  lemma NextKeeps(s: State, t: State, c: nat, a: Action)
    requires Inv(s) && c < |s.cpus| && Next(s, t, c, a)
    ensures Inv(t)
  {
    hide Inv, HasChild, HasZombie, FirstPid, Exit, Taken;
    CpusFacts(s);
    match a
    case SchedPick(p) => PickKeeps(s, t, c, p);
    case Arrive => ArriveKeeps(s, t, c, s.cpus[c].at.p);
    case IdleWakeup(_) => WakeupKeeps(s, t, c, a);
    case Wakeup(_) => WakeupKeeps(s, t, c, a);
    case DoKill(_) => WakeupKeeps(s, t, c, a);
    case Acquire => LockKeeps(s, t, c, a);
    case Release => LockKeeps(s, t, c, a);
    case WaitNone => LockKeeps(s, t, c, a);
    case Alloc(e) => AllocKeeps(s, t, c, s.cpus[c].at.p, e);
    case Yield => LeaveKeeps(s, t, c, s.cpus[c].at.p, a);
    case Sleep(_) => LeaveKeeps(s, t, c, s.cpus[c].at.p, a);
    case WaitSleep => LeaveKeeps(s, t, c, s.cpus[c].at.p, a);
    case WaitReap(z) => ReapKeeps(s, t, c, s.cpus[c].at.p, z);
    case DoExit => ExitKeeps(s, t, c, s.cpus[c].at.p);
    case ForkFill => ForkKeeps(s, t, c, s.cpus[c].at.p, a);
    case ForkNoStack => ForkKeeps(s, t, c, s.cpus[c].at.p, a);
    case ForkNoMem => ForkKeeps(s, t, c, s.cpus[c].at.p, a);
    case ForkClear => ClearKeeps(s, t, c, s.cpus[c].at.p);
    case ForkDone => ForkKeeps(s, t, c, s.cpus[c].at.p, a);
    case _ => SchedKeeps(s, t, c, a);
  }

  /** After userinit, before any CPU has entered its scheduler. */
  ghost predicate Init(s: State) {
    && |s.aux| == |s.procs| && INIT < |s.procs| && s.lock == None && s.reaped == []
    && s.procs[INIT] == Proc(RUNNABLE, 1, None, NoChan, false) && s.nextpid == 2
    && (forall p :: 0 <= p < |s.procs| && p != INIT ==> s.procs[p] == Proc(UNUSED, 0, None, NoChan, false))
    && (forall p :: 0 <= p < |s.aux| ==> s.aux[p] == Aux(false, None, false, None, None)) && !s.strayed
    && forall c :: 0 <= c < |s.cpus| ==> s.cpus[c] == Cpu(None, SchedIdle)
  }

  lemma InitInv(s: State)
    requires Init(s)
    ensures Inv(s)
  {
    assert Shape(s);
    forall p | 0 <= p < |s.procs| ensures EntryOk(s, p) && WaitOk(s, p) {}
    assert CpusOk(s);
  }

  datatype Event = Event(cpu: nat, act: Action)

  ghost predicate Run(states: seq<State>, events: seq<Event>) {
    && |states| == |events| + 1 && Init(states[0])
    && forall k :: 0 <= k < |events| ==> StepOf(states[k], states[k + 1], events[k])
  }

  ghost predicate StepOf(s: State, t: State, e: Event) { Shape(s) && e.cpu < |s.cpus| && Next(s, t, e.cpu, e.act) }

  lemma {:induction false} RunInv(states: seq<State>, events: seq<Event>, k: nat)
    requires Run(states, events) && k < |states|
    ensures Inv(states[k])
  {
    hide Inv, Next, Init;
    if k == 0 {
      InitInv(states[0]);
    } else {
      RunInv(states, events, k - 1);
      assert StepOf(states[k - 1], states[k], events[k - 1]);
      NextKeeps(states[k - 1], states[k], events[k - 1].cpu, events[k - 1].act);
    }
  }

  /** The process whose kernel stack a CPU executes on. */
  function Stack(w: Where): Option<nat> { if w.On? then Some(w.p) else None }

  /** A CPU between choosing a process and that process's first instruction, or between sched and the scheduler. */
  predicate Switching(w: Where) { w.Picked? || w.Back? || (w.On? && (w.phase == Arrived || w.phase == Leaving)) }

  /** RUNNING means current on exactly one CPU, whenever nobody has the lock. */
  ghost predicate RunningIsCurrent(s: State)
    requires Shape(s)
  {
    forall p :: 0 <= p < |s.procs| ==>
      && (s.procs[p].state == RUNNING <==> exists c :: 0 <= c < |s.cpus| && s.cpus[c].curproc == Some(p))
      && forall c, d :: 0 <= c < |s.cpus| && 0 <= d < |s.cpus| && s.cpus[c].curproc == Some(p) == s.cpus[d].curproc ==> c == d
  }

  ghost predicate Safe(s: State) {
    && Shape(s) && (s.lock == None ==> RunningIsCurrent(s))
    && (forall c, d :: 0 <= c < |s.cpus| && 0 <= d < |s.cpus| && c != d && Stack(s.cpus[c].at).Some? ==>
          Stack(s.cpus[c].at) != Stack(s.cpus[d].at))
    && (forall c :: 0 <= c < |s.cpus| && Switching(s.cpus[c].at) ==> s.lock == Some(c))
    && (forall c :: 0 <= c < |s.cpus| && s.cpus[c].at.On? ==>
          (s.procs[s.cpus[c].at.p].state == RUNNING <==> s.cpus[c].at.phase != Leaving))
    && (forall p :: 0 <= p < |s.procs| ==> s.procs[p].pid < s.nextpid)
    && (forall p :: 0 <= p < |s.procs| && s.procs[p].state == SLEEPING && s.aux[p].inWait ==> !HasZombie(s.procs, p))
    && PidsOk(s)
  }

  lemma RunningIsCurrentHolds(s: State)
    requires Inv(s) && s.lock == None
    ensures RunningIsCurrent(s)
  {
    forall p | 0 <= p < |s.procs|
      ensures s.procs[p].state == RUNNING <==> exists c :: 0 <= c < |s.cpus| && s.cpus[c].curproc == Some(p)
      ensures forall c, d :: 0 <= c < |s.cpus| && 0 <= d < |s.cpus| && s.cpus[c].curproc == Some(p) == s.cpus[d].curproc ==> c == d
    {
      EntryFacts(s, p);
      CpusFacts(s);
      CurrentIs(s, p);
    }
  }

  lemma CurrentIs(s: State, p: nat)
    requires Inv(s) && s.lock == None && p < |s.procs|
    ensures s.aux[p].cpu.Some? <==> exists c :: 0 <= c < |s.cpus| && s.cpus[c].curproc == Some(p)
  {
    CpusFacts(s);
    hide Inv;
    if s.aux[p].cpu.Some? {
      var c := s.aux[p].cpu.value;
      CpuFacts(s, c);
      assert s.cpus[c].curproc == Some(p);
    }
    forall c | 0 <= c < |s.cpus| && s.cpus[c].curproc == Some(p) ensures s.aux[p].cpu == Some(c) { CpuFacts(s, c); }
  }

  lemma CpuSafe(s: State, c: nat)
    requires Inv(s) && c < |s.cpus|
    ensures Shape(s) && (Switching(s.cpus[c].at) ==> s.lock == Some(c))
    ensures s.cpus[c].at.On? ==> (s.procs[s.cpus[c].at.p].state == RUNNING <==> s.cpus[c].at.phase != Leaving)
  {
    hide Inv, CpusOk, OnLive, WaitOk, PidsOk, MakersOk;
    CpusFacts(s);
    CpuFacts(s, c);
    if s.cpus[c].at.On? {
      EntryFacts(s, s.cpus[c].at.p);
      OnlyHere(s, c);
    }
  }

  lemma InvSafe(s: State)
    requires Inv(s)
    ensures Safe(s)
  {
    hide RunningIsCurrent, HasChild, HasZombie, PidsOk, MakersOk, OnLive;
    if s.lock == None { RunningIsCurrentHolds(s); }
    forall c | 0 <= c < |s.cpus|
      ensures Switching(s.cpus[c].at) ==> s.lock == Some(c)
      ensures s.cpus[c].at.On? ==> (s.procs[s.cpus[c].at.p].state == RUNNING <==> s.cpus[c].at.phase != Leaving)
    {
      CpuSafe(s, c);
    }
    forall c, d | 0 <= c < |s.cpus| && 0 <= d < |s.cpus| && c != d && Stack(s.cpus[c].at).Some?
      ensures Stack(s.cpus[c].at) != Stack(s.cpus[d].at)
    {
      DistinctFacts(s, c, d);
    }
    forall p | 0 <= p < |s.procs| ensures s.procs[p].pid < s.nextpid && WaitOk(s, p) { EntryFacts(s, p); }
  }

  lemma OnlyHere(s: State, c: nat)
    requires Inv(s) && c < |s.cpus| && s.cpus[c].at.On?
    ensures s.aux[s.cpus[c].at.p].cpu.Some? <==> s.cpus[c].at.phase != Leaving
  {
    CpusFacts(s);
    var p := s.cpus[c].at.p;
    CpuFacts(s, c);
    if s.aux[p].cpu.Some? {
      var d := s.aux[p].cpu.value;
      CpuFacts(s, d);
      assert Runs(s.cpus[d].at, p);
      assert Current(s.cpus[d].at) == Some(p) == Current(s.cpus[c].at);
    }
  }

  /** What holds at every point of every run. */
  lemma ProcessesAreSafe(states: seq<State>, events: seq<Event>, k: nat)
    requires Run(states, events) && k < |states|
    ensures Safe(states[k])
  {
    hide Run, Inv, Safe;
    RunInv(states, events, k);
    InvSafe(states[k]);
  }

  // What becomes of a process

  /** The process that takes the step. */
  function Mover(s: State, e: Event): Option<nat> {
    if e.cpu < |s.cpus| && s.cpus[e.cpu].at.On? then Some(s.cpus[e.cpu].at.p) else None
  }

  /** The ways a process changes state, and the steps that make it.  A sleeper keeps its channel until it is woken. */
  predicate Edge(a: Action, mine: bool, p: nat, x: Proc, y: Proc) {
    match (x.state, y.state)
    case (UNUSED, EMBRYO) => a == Alloc(p)
    case (EMBRYO, RUNNABLE) => a.ForkDone?
    case (EMBRYO, UNUSED) => a.ForkNoStack? || a.ForkNoMem?
    case (RUNNABLE, RUNNING) => a == SchedPick(p)
    case (RUNNING, RUNNABLE) => a.Yield? && mine
    case (RUNNING, SLEEPING) => mine && (a == Sleep(y.chan) || (a.WaitSleep? && y.chan == ProcChan(p)))
    case (RUNNING, ZOMBIE) => a.DoExit? && mine
    case (SLEEPING, RUNNABLE) =>
      a == Wakeup(x.chan) || a == IdleWakeup(x.chan) || a == DoKill(x.pid) || (a.DoExit? && x.chan.ProcChan?)
    case (ZOMBIE, UNUSED) => a == WaitReap(p)
    case (SLEEPING, SLEEPING) => y.chan == x.chan
    case _ => x.state == y.state
  }

  /** The steps of a scheduler, and of a process that is switched to or from. */
  predicate Scheduling(w: Where) { !w.On? || w.phase == Arrived || w.phase == Leaving }

  lemma SchedulingStep(s: State, t: State, c: nat, a: Action, p: nat)
    requires Shape(s) && c < |s.cpus| && Next(s, t, c, a) && Scheduling(s.cpus[c].at) && p < |s.procs|
    ensures |t.procs| == |s.procs| && |t.aux| == |s.aux| && t.procs[p].killed == s.procs[p].killed
    ensures !a.DoKill? && !a.DoExit? && !a.Yield? && !a.Sleep? && !a.Wakeup? && !a.WaitSleep?
    ensures t.procs[p].state == SLEEPING ==> s.procs[p].state == SLEEPING
    ensures s.cpus[c].at == On(p, Arrived) || (t.aux[p].inWait == s.aux[p].inWait && t.procs[p].chan == s.procs[p].chan)
    ensures a.IdleWakeup? ==> t.procs == Wakeup1(s.procs, a.ch)
    ensures a == SchedPick(p) || a.IdleWakeup? || t.procs[p].state == s.procs[p].state
    ensures a == SchedPick(p) ==> s.procs[p].state == RUNNABLE && t.procs[p].state == RUNNING
  {
  }

  /** Every step of every process is one of these. */
  lemma LifeCycle(s: State, t: State, e: Event, p: nat)
    requires Inv(s) && StepOf(s, t, e) && p < |s.procs|
    ensures p < |t.procs| && Edge(e.act, Mover(s, e) == Some(p), p, s.procs[p], t.procs[p])
  {
    hide Inv, Next, NextRunning, NextLocked, CpusOk, OnLive;
    CpusFacts(s);
    if Scheduling(s.cpus[e.cpu].at) {
      SchedulingStep(s, t, e.cpu, e.act, p);
      if s.cpus[e.cpu].at.On? && s.cpus[e.cpu].at.phase == Arrived { ArrivedRuns(s, e.cpu); }
    } else {
      NextIs(s, t, e.cpu, e.act);
      KernelFacts(s, e.cpu, s.cpus[e.cpu].at.p);
      if s.cpus[e.cpu].at.phase == Running { LifeRunning(s, t, e.cpu, s.cpus[e.cpu].at.p, e.act, p); }
      else { LifeLocked(s, t, e.cpu, s.cpus[e.cpu].at.p, e.act, p); }
    }
  }

  lemma NextIs(s: State, t: State, c: nat, a: Action)
    requires Shape(s) && c < |s.cpus| && Next(s, t, c, a) && !Scheduling(s.cpus[c].at)
    ensures s.cpus[c].at.phase == Running ==> NextRunning(s, t, c, s.cpus[c].at.p, a)
    ensures s.cpus[c].at.phase == Locked ==> NextLocked(s, t, c, s.cpus[c].at.p, a)
  {
    hide NextRunning, NextLocked;
  }

  lemma ArrivedRuns(s: State, c: nat)
    requires Inv(s) && c < |s.cpus| && s.cpus[c].at.On? && s.cpus[c].at.phase != Leaving
    ensures s.cpus[c].at.p < |s.procs| && s.procs[s.cpus[c].at.p].state == RUNNING
  {
    CpuSafe(s, c);
  }

  /** fork's stores. */
  lemma LifeRunning(s: State, t: State, c: nat, q: nat, a: Action, p: nat)
    requires Shape(s) && c < |s.cpus| && q < |s.procs| && NextRunning(s, t, c, q, a) && p < |s.procs|
    requires s.aux[q].making.Some? ==> s.procs[s.aux[q].making.value].state == EMBRYO
    ensures p < |t.procs| && Edge(a, q == p, p, s.procs[p], t.procs[p])
  {
    hide Taken;
  }

  /** The critical sections. */
  lemma LifeLocked(s: State, t: State, c: nat, q: nat, a: Action, p: nat)
    requires Shape(s) && c < |s.cpus| && q < |s.procs| && NextLocked(s, t, c, q, a) && p < |s.procs| && s.procs[q].state == RUNNING
    ensures p < |t.procs| && Edge(a, q == p, p, s.procs[p], t.procs[p])
  {
    hide HasChild, HasZombie, Exit, Edge;
    if a.DoExit? { LifeExit(s.procs, q, p); } else { LifeSection(s, t, c, q, a, p); }
  }

  lemma LifeSection(s: State, t: State, c: nat, q: nat, a: Action, p: nat)
    requires Shape(s) && c < |s.cpus| && q < |s.procs| && NextLocked(s, t, c, q, a) && p < |s.procs| && s.procs[q].state == RUNNING
    requires !a.DoExit?
    ensures p < |t.procs| && Edge(a, q == p, p, s.procs[p], t.procs[p])
  {
    hide HasChild, HasZombie, Exit;
  }

  lemma LifeExit(t: Table, q: nat, p: nat)
    requires q < |t| && p < |t| && t[q].state == RUNNING
    ensures Edge(DoExit, q == p, p, t[p], Exit(t, q)[p])
  {
    hide HasZombie, Exit;
    ExitAt(t, q, p);
  }

  /** What the steps are for: yield leaves the process runnable, sleep asleep on its channel, exit a zombie that is no longer
      killed, and a wakeup nobody asleep on the channel. */
  lemma StepsTake(s: State, t: State, e: Event)
    requires Inv(s) && StepOf(s, t, e)
    ensures |t.procs| == |s.procs| && (Mover(s, e).Some? ==> Mover(s, e).value < |s.procs|)
    ensures e.act.Yield? ==> Mover(s, e).Some? && t.procs[Mover(s, e).value] == s.procs[Mover(s, e).value].(state := RUNNABLE)
    ensures e.act.Sleep? ==>
              && Mover(s, e).Some?
              && t.procs[Mover(s, e).value] == s.procs[Mover(s, e).value].(state := SLEEPING, chan := e.act.ch)
    ensures e.act.DoExit? ==> Mover(s, e).Some? && t.procs[Mover(s, e).value].state == ZOMBIE && !t.procs[Mover(s, e).value].killed
    ensures e.act.Wakeup? || e.act.IdleWakeup? ==>
              forall p :: 0 <= p < |s.procs| ==>
                t.procs[p] == if s.procs[p].state == SLEEPING && s.procs[p].chan == e.act.ch
                              then s.procs[p].(state := RUNNABLE) else s.procs[p]
  {
    hide Inv, Next, NextRunning, NextLocked, CpusOk, OnLive, Wakeup1;
    CpusFacts(s);
    if Scheduling(s.cpus[e.cpu].at) {
      SchedulingStep(s, t, e.cpu, e.act, INIT);
      WakesAll(s.procs, if e.act.IdleWakeup? then e.act.ch else NoChan);
    } else {
      NextIs(s, t, e.cpu, e.act);
      if s.cpus[e.cpu].at.phase == Running { RunningTakes(s, t, e.cpu, s.cpus[e.cpu].at.p, e.act); }
      else {
        LockedTakes(s, t, e.cpu, s.cpus[e.cpu].at.p, e.act);
        WakesAll(s.procs, if e.act.Wakeup? then e.act.ch else NoChan);
      }
    }
  }

  lemma WakesAll(t: Table, ch: Chan)
    ensures |Wakeup1(t, ch)| == |t|
    ensures forall p :: 0 <= p < |t| ==>
              Wakeup1(t, ch)[p] == if t[p].state == SLEEPING && t[p].chan == ch then t[p].(state := RUNNABLE) else t[p]
  {
  }

  lemma RunningTakes(s: State, t: State, c: nat, q: nat, a: Action)
    requires Shape(s) && c < |s.cpus| && q < |s.procs| && NextRunning(s, t, c, q, a)
    ensures |t.procs| == |s.procs| && !a.DoKill? && !a.DoExit? && !a.Yield? && !a.Sleep? && !a.Wakeup? && !a.IdleWakeup? && !a.WaitSleep?
    ensures forall p :: 0 <= p < |s.procs| ==> t.procs[p].killed == s.procs[p].killed
    ensures forall p :: 0 <= p < |s.procs| && t.procs[p].state == SLEEPING ==> s.procs[p].state == SLEEPING
    ensures |t.aux| == |s.aux| && forall p :: 0 <= p < |s.aux| ==> t.aux[p].inWait == s.aux[p].inWait
  {
    hide Taken;
  }

  lemma LockedTakes(s: State, t: State, c: nat, q: nat, a: Action)
    requires Shape(s) && c < |s.cpus| && q < |s.procs| && NextLocked(s, t, c, q, a)
    ensures |t.procs| == |s.procs| && !a.IdleWakeup?
    ensures a.Yield? ==> t.procs[q] == s.procs[q].(state := RUNNABLE)
    ensures a.Sleep? ==> t.procs[q] == s.procs[q].(state := SLEEPING, chan := a.ch)
    ensures a.DoExit? ==> t.procs[q].state == ZOMBIE && !t.procs[q].killed
    ensures a.Wakeup? ==> t.procs == Wakeup1(s.procs, a.ch)
  {
    hide HasChild, HasZombie, Exit, FirstPid, Wakeup1;
    if a.DoExit? { ExitAt(s.procs, q, q); }
  }

  // kill

  /** kill finds p: the first entry with that pid. */
  ghost predicate Hits(s: State, e: Event, p: nat) {
    && e.act.DoKill? && p < |s.procs| && s.procs[p].pid == e.act.pid
    && forall q :: 0 <= q < p ==> s.procs[q].pid != e.act.pid
  }

  ghost predicate Exits(s: State, e: Event, p: nat) { e.act.DoExit? && Mover(s, e) == Some(p) }

  lemma KilledStep(s: State, t: State, e: Event, p: nat)
    requires Inv(s) && StepOf(s, t, e) && p < |s.procs|
    ensures p < |t.procs| && (t.procs[p].killed <==> Hits(s, e, p) || (s.procs[p].killed && !Exits(s, e, p)))
    ensures Hits(s, e, p) ==> t.procs[p].state != SLEEPING && t.procs[p] == s.procs[p].(state := t.procs[p].state, killed := true)
  {
    hide Inv, Next, NextRunning, NextLocked, CpusOk, OnLive;
    CpusFacts(s);
    if Scheduling(s.cpus[e.cpu].at) {
      SchedulingStep(s, t, e.cpu, e.act, p);
    } else {
      NextIs(s, t, e.cpu, e.act);
      if s.cpus[e.cpu].at.phase == Running { RunningTakes(s, t, e.cpu, s.cpus[e.cpu].at.p, e.act); }
      else { KilledLocked(s, t, e, s.cpus[e.cpu].at.p, p); }
    }
  }

  lemma KilledLocked(s: State, t: State, e: Event, q: nat, p: nat)
    requires Shape(s) && e.cpu < |s.cpus| && q < |s.procs| && p < |s.procs| && s.cpus[e.cpu].at == On(q, Locked)
    requires NextLocked(s, t, e.cpu, q, e.act)
    ensures p < |t.procs| && (t.procs[p].killed <==> Hits(s, e, p) || (s.procs[p].killed && !Exits(s, e, p)))
    ensures Hits(s, e, p) ==> t.procs[p].state != SLEEPING && t.procs[p] == s.procs[p].(state := t.procs[p].state, killed := true)
  {
    hide HasChild, HasZombie, Exit, FirstPid;
    if e.act.DoExit? { ExitAt(s.procs, q, p); }
    if e.act.DoKill? { FirstIs(s.procs, e.act.pid, p); }
  }

  lemma FirstIs(t: Table, pid: nat, p: nat)
    requires p < |t|
    ensures FirstPid(t, pid) == p <==> t[p].pid == pid && forall q :: 0 <= q < p ==> t[q].pid != pid
  {
  }

  /** In every run: an entry is marked killed exactly if kill has found it since it last exited. */
  lemma {:induction false} KilledExactly(states: seq<State>, events: seq<Event>, k: nat, p: nat)
    requires Run(states, events) && k < |states| && p < |states[k].procs|
    ensures states[k].procs[p].killed <==>
              exists j :: 0 <= j < k && Hits(states[j], events[j], p) && forall i :: j < i < k ==> !Exits(states[i], events[i], p)
  {
    hide StepOf, Hits, Exits, Inv;
    if k != 0 {
      RunInv(states, events, k - 1);
      var s, t, e := states[k - 1], states[k], events[k - 1];
      assert StepOf(s, t, e);
      StepsTake(s, t, e);
      KilledExactly(states, events, k - 1, p);
      KilledStep(s, t, e, p);
      HitsNotExits(s, e, p);
      if s.procs[p].killed && !Exits(s, e, p) {
        var j :| 0 <= j < k - 1 && Hits(states[j], events[j], p) && forall i :: j < i < k - 1 ==> !Exits(states[i], events[i], p);
        assert forall i :: j < i < k ==> !Exits(states[i], events[i], p);
      }
    }
  }

  lemma HitsNotExits(s: State, e: Event, p: nat)
    ensures Hits(s, e, p) ==> !Exits(s, e, p)
  {
  }

  /** Nobody who is killed sleeps in wait. */
  ghost predicate WaitersLive(s: State) {
    forall p :: 0 <= p < |s.procs| && p < |s.aux| && s.procs[p].state == SLEEPING && s.aux[p].inWait ==> !s.procs[p].killed
  }

  /** A sleeper in wait was one before, or has just found itself not killed. */
  lemma WaitStep(s: State, t: State, e: Event, p: nat)
    requires Inv(s) && StepOf(s, t, e) && p < |s.procs| && p < |t.procs| && p < |t.aux| && p < |s.aux|
    requires t.procs[p].state == SLEEPING && t.aux[p].inWait
    ensures (s.procs[p].state == SLEEPING && s.aux[p].inWait) || (e.act.WaitSleep? && !s.procs[p].killed)
  {
    hide Inv, Next, NextRunning, NextLocked, CpusOk, OnLive;
    CpusFacts(s);
    if Scheduling(s.cpus[e.cpu].at) {
      SchedulingStep(s, t, e.cpu, e.act, p);
      if s.cpus[e.cpu].at == On(p, Arrived) { ArrivedRuns(s, e.cpu); }
    } else {
      NextIs(s, t, e.cpu, e.act);
      if s.cpus[e.cpu].at.phase == Running { RunningTakes(s, t, e.cpu, s.cpus[e.cpu].at.p, e.act); }
      else { WaitLocked(s, t, e.cpu, s.cpus[e.cpu].at.p, e.act, p); }
    }
  }

  lemma WaitLocked(s: State, t: State, c: nat, q: nat, a: Action, p: nat)
    requires Shape(s) && c < |s.cpus| && q < |s.procs| && NextLocked(s, t, c, q, a) && p < |s.procs| && p < |t.procs| && p < |t.aux|
    requires t.procs[p].state == SLEEPING && t.aux[p].inWait
    ensures (s.procs[p].state == SLEEPING && s.aux[p].inWait) || (a.WaitSleep? && !s.procs[p].killed)
  {
    hide HasChild, HasZombie, Exit, FirstPid;
    if a.DoExit? { ExitAt(s.procs, q, p); }
  }

  lemma {:induction false} KilledDoNotWait(states: seq<State>, events: seq<Event>, k: nat)
    requires Run(states, events) && k < |states|
    ensures WaitersLive(states[k])
  {
    hide StepOf, Inv, Hits, Exits;
    if k != 0 {
      KilledDoNotWait(states, events, k - 1);
      RunInv(states, events, k - 1);
      RunInv(states, events, k);
      var s, t, e := states[k - 1], states[k], events[k - 1];
      assert StepOf(s, t, e);
      StepsTake(s, t, e);
      CpusFacts(s);
      CpusFacts(t);
      forall p | 0 <= p < |t.procs| && p < |t.aux| && t.procs[p].state == SLEEPING && t.aux[p].inWait ensures !t.procs[p].killed {
        KilledStep(s, t, e, p);
        WaitStep(s, t, e, p);
      }
    }
  }

  // Parents and children

  /** Every process that runs, can run, sleeps or has exited has a parent that lives, and so has an entry whose fork has
      stored the parent. */
  ghost predicate HasParent(s: State, p: nat)
    requires Shape(s) && p < |s.procs|
  {
    p != INIT && Taken(s, p) ==>
      s.procs[p].parent.Some? && s.procs[p].parent.value < |s.procs| && Alive(s.procs[s.procs[p].parent.value].state)
  }

  /** Besides, nobody sleeps in wait without children. */
  ghost predicate Families(s: State) {
    && Shape(s) && (forall p :: 0 <= p < |s.procs| ==> HasParent(s, p))
    && forall p :: 0 <= p < |s.procs| && s.procs[p].state == SLEEPING && s.aux[p].inWait ==> HasChild(s.procs, p)
  }

  /** A fork that failed clears the parent of its entry, after another fork has stored one there. */
  ghost predicate Strays(s: State, e: Event) {
    && Shape(s) && e.act.ForkClear? && e.cpu < |s.cpus| && s.cpus[e.cpu].at.On?
    && s.aux[s.cpus[e.cpu].at.p].clearing.Some? && Taken(s, s.aux[s.cpus[e.cpu].at.p].clearing.value)
  }

  lemma StrayedIs(s: State, t: State, e: Event)
    requires StepOf(s, t, e)
    ensures t.strayed <==> s.strayed || Strays(s, e)
  {
    hide HasChild, HasZombie, Exit, FirstPid, Taken, Reap;
    match s.cpus[e.cpu].at
    case On(p, Running) => assert t.strayed == (s.strayed || (e.act.ForkClear? && Taken(s, s.aux[p].clearing.value)));
    case _ => assert t.strayed == s.strayed;
  }

  lemma {:induction false} StrayedSoFar(states: seq<State>, events: seq<Event>, k: nat)
    requires Run(states, events) && k < |states|
    ensures states[k].strayed <==> exists j :: 0 <= j < k && Strays(states[j], events[j])
  {
    hide StepOf, Strays;
    if k != 0 {
      StrayedSoFar(states, events, k - 1);
      assert StepOf(states[k - 1], states[k], events[k - 1]);
      StrayedIs(states[k - 1], states[k], events[k - 1]);
    }
  }

  lemma ParentFacts(s: State, p: nat)
    requires Inv(s) && !s.strayed && p < |s.procs|
    ensures HasParent(s, p)
  {
    EntryFacts(s, p);
    if p != INIT && !InUse(s.procs[p].state) && Taken(s, p) {
      var r :| 0 <= r < |s.procs| && Filling(s.aux[r], p);
      EntryFacts(s, r);
    }
  }

  lemma FamiliesHold(s: State)
    requires Inv(s) && !s.strayed
    ensures Families(s)
  {
    hide HasParent, HasChild, HasZombie, CpusOk, PidsOk, MakersOk, EntryOk;
    forall p | 0 <= p < |s.procs| ensures HasParent(s, p) { ParentFacts(s, p); }
    forall p | 0 <= p < |s.procs| && s.procs[p].state == SLEEPING && s.aux[p].inWait ensures HasChild(s.procs, p) {
      EntryFacts(s, p);
    }
  }

  lemma StrayOrphans(s: State, t: State, e: Event)
    requires Inv(s) && StepOf(s, t, e) && Strays(s, e)
    ensures !Families(t)
  {
    var p := s.cpus[e.cpu].at.p;
    var i := s.aux[p].clearing.value;
    hide Inv, HasChild, HasZombie, CpusOk, OnLive, WaitOk, PidsOk, MakersOk, ParentOk, Exit, FirstPid, Wakeup1, NextLocked;
    CpusFacts(s);
    EntryFacts(s, p);
    ClearStep(s, t, e.cpu, p);
    hide NextRunning;
    if !InUse(s.procs[i].state) {
      var r :| 0 <= r < |s.procs| && Filling(s.aux[r], i);
      assert Filling(t.aux[r], i);
    }
    assert Taken(t, i);
    assert !HasParent(t, i);
  }

  /** Throughout a run every process has a living parent and no one waits without children, exactly if no failed fork
      clears the parent of its entry after another fork has stored one there. */
  lemma FamiliesExactly(states: seq<State>, events: seq<Event>)
    requires Run(states, events)
    ensures (forall k :: 0 <= k < |states| ==> Families(states[k])) <==>
            (forall j :: 0 <= j < |events| ==> !Strays(states[j], events[j]))
  {
    hide Families, Strays, Inv, Init, StepOf;
    if forall k :: 0 <= k < |states| ==> Families(states[k]) {
      forall j | 0 <= j < |events| ensures !Strays(states[j], events[j]) {
        RunInv(states, events, j);
        assert StepOf(states[j], states[j + 1], events[j]);
        if Strays(states[j], events[j]) { StrayOrphans(states[j], states[j + 1], events[j]); }
      }
    }
    if forall j :: 0 <= j < |events| ==> !Strays(states[j], events[j]) {
      forall k | 0 <= k < |states| ensures Families(states[k]) {
        RunInv(states, events, k);
        StrayedSoFar(states, events, k);
        FamiliesHold(states[k]);
      }
    }
  }

  // A run with an orphan: init and its child fork at once, with room for one more process

  lemma RunOn(states: seq<State>, events: seq<Event>, t: State, e: Event)
    requires Run(states, events) && StepOf(states[|events|], t, e)
    ensures Run(states + [t], events + [e])
  {
    hide StepOf, Init;
    forall k | 0 <= k < |events + [e]| ensures StepOf((states + [t])[k], (states + [t])[k + 1], (events + [e])[k]) {
      if k < |events| { assert StepOf(states[k], states[k + 1], events[k]); }
    }
  }

  lemma Extend(states: seq<State>, events: seq<Event>, t: State, e: Event) returns (ss: seq<State>, es: seq<Event>)
    requires Run(states, events) && StepOf(states[|events|], t, e)
    ensures Run(ss, es) && |es| == |events| + 1 && ss[|es|] == t && ss[|events|] == states[|events|] && es[|events|] == e
    ensures states <= ss && events <= es
  {
    RunOn(states, events, t, e);
    ss, es := states + [t], events + [e];
  }

  /** CPU c picks p, which goes on running. */
  function Scheduled(s: State, c: nat, p: nat): State
    requires c < |s.cpus| && p < |s.procs| == |s.aux|
  {
    s.(procs := s.procs[p := s.procs[p].(state := RUNNING, chan := NoChan)],
       aux := s.aux[p := s.aux[p].(inWait := false, cpu := Some(c))], cpus := s.cpus[c := Cpu(Some(p), On(p, Running))])
  }

  lemma Schedule(states: seq<State>, events: seq<Event>, s: State, c: nat, p: nat)
    returns (ss: seq<State>, es: seq<Event>)
    requires Run(states, events) && s == states[|events|] && Shape(s) && c < |s.cpus| && p < |s.procs|
    requires s.cpus[c].at == SchedIdle && s.lock == None && s.procs[p].state == RUNNABLE && !s.aux[p].inWait
    ensures Run(ss, es) && ss[|es|] == Scheduled(s, c, p) && states <= ss && events <= es
  {
    hide Run, Next;
    var s1 := SetAt(s, c, SchedScan).(lock := Some(c));
    var s2 := Pick(s1, c, p);
    ss, es := ScheduleStart(states, events, s, c, p);
    var s3 := SetAt(s2, c, On(p, Arrived));
    assert Next(s2, s3, c, SwtchIn) by { SwtchesIn(s2, c, p); }
    ss, es := Extend(ss, es, s3, Event(c, SwtchIn));
    assert Next(s3, Resume(s3, c, p), c, Arrive) by { Arrives(s3, c, p); }
    ss, es := Extend(ss, es, Resume(s3, c, p), Event(c, Arrive));
    assert Resume(s3, c, p) == Scheduled(s, c, p);
  }

  lemma ScheduleStart(states: seq<State>, events: seq<Event>, s: State, c: nat, p: nat)
    returns (ss: seq<State>, es: seq<Event>)
    requires Run(states, events) && s == states[|events|] && Shape(s) && c < |s.cpus| && p < |s.procs|
    requires s.cpus[c].at == SchedIdle && s.lock == None && s.procs[p].state == RUNNABLE
    ensures Run(ss, es) && ss[|es|] == Pick(SetAt(s, c, SchedScan).(lock := Some(c)), c, p) && states <= ss && events <= es
  {
    hide Run, NextRunning, NextLocked, Wakeup1;
    var s1 := SetAt(s, c, SchedScan).(lock := Some(c));
    ss, es := Extend(states, events, s1, Event(c, SchedAcquire));
    ss, es := Extend(ss, es, Pick(s1, c, p), Event(c, SchedPick(p)));
  }

  lemma SwtchesIn(s: State, c: nat, p: nat)
    requires Shape(s) && c < |s.cpus| && s.cpus[c].at == Picked(p)
    ensures Next(s, SetAt(s, c, On(p, Arrived)), c, SwtchIn)
  {
  }

  lemma Arrives(s: State, c: nat, p: nat)
    requires Shape(s) && c < |s.cpus| && s.cpus[c].at == On(p, Arrived)
    ensures Next(s, Resume(s, c, p), c, Arrive)
  {
  }

  /** p takes entry e and stores its parent. */
  function Forking(s: State, p: nat, e: nat): State
    requires p < |s.procs| == |s.aux| && e < |s.procs|
  {
    s.(procs := s.procs[e := s.procs[e].(state := EMBRYO, pid := s.nextpid, parent := Some(p))], nextpid := s.nextpid + 1,
       aux := s.aux[p := s.aux[p].(making := Some(e), filled := true)])
  }

  lemma TakeEntry(states: seq<State>, events: seq<Event>, s: State, c: nat, p: nat, e: nat)
    returns (ss: seq<State>, es: seq<Event>)
    requires Run(states, events) && s == states[|events|] && Shape(s) && c < |s.cpus| && p < |s.procs| && e < |s.procs|
    requires s.cpus[c].at == On(p, Running) && s.lock == None && s.procs[e].state == UNUSED
    requires s.aux[p].making == None == s.aux[p].clearing
    ensures Run(ss, es) && ss[|es|] == Allocate(s, p, e) && states <= ss && events <= es
  {
    hide Run, HasChild, HasZombie, Exit, FirstPid, Taken, Wakeup1;
    var s1 := SetAt(s, c, On(p, Locked)).(lock := Some(c));
    ss, es := Extend(states, events, s1, Event(c, Acquire));
    var s2 := Allocate(s1, p, e);
    ss, es := Extend(ss, es, s2, Event(c, Alloc(e)));
    var s3 := Unlock(s2, c, p);
    ss, es := Extend(ss, es, s3, Event(c, Release));
    assert s3 == Allocate(s, p, e);
  }

  lemma Fork(states: seq<State>, events: seq<Event>, s: State, c: nat, p: nat, e: nat)
    returns (ss: seq<State>, es: seq<Event>)
    requires Run(states, events) && s == states[|events|] && Shape(s) && c < |s.cpus| && p < |s.procs| && e < |s.procs|
    requires s.cpus[c].at == On(p, Running) && s.lock == None && s.procs[e].state == UNUSED
    requires s.aux[p].making == None == s.aux[p].clearing
    ensures Run(ss, es) && ss[|es|] == Forking(s, p, e) && states <= ss && events <= es
  {
    hide Run, HasChild, HasZombie, Exit, FirstPid, Taken, Wakeup1;
    ss, es := TakeEntry(states, events, s, c, p, e);
    ss, es := Extend(ss, es, Forking(s, p, e), Event(c, ForkFill));
  }

  /** p gives up the entry it has filled, or is done with it. */
  function Forked(s: State, p: nat, e: nat, done: bool): State
    requires p < |s.procs| == |s.aux| && e < |s.procs|
  {
    SetAux(SetState(s, e, if done then RUNNABLE else UNUSED), p,
           s.aux[p].(making := None, filled := false, clearing := if done then s.aux[p].clearing else Some(e)))
  }

  lemma ForkAll(states: seq<State>, events: seq<Event>, s: State, c: nat, p: nat, e: nat, done: bool)
    returns (ss: seq<State>, es: seq<Event>)
    requires Run(states, events) && s == states[|events|] && Shape(s) && c < |s.cpus| && p < |s.procs| && e < |s.procs|
    requires s.cpus[c].at == On(p, Running) && s.lock == None && s.procs[e].state == UNUSED
    requires s.aux[p].making == None == s.aux[p].clearing
    ensures Run(ss, es) && ss[|es|] == Forked(Forking(s, p, e), p, e, done) && states <= ss && events <= es
  {
    hide Run;
    ss, es := Fork(states, events, s, c, p, e);
    var t := Forking(s, p, e);
    assert Shape(t);
    ss, es := Extend(ss, es, Forked(t, p, e, done), Event(c, if done then ForkDone else ForkNoMem));
  }

  const FRESH: Aux := Aux(false, None, false, None, None)
  const NOBODY: Proc := Proc(UNUSED, 0, None, NoChan, false)

  /** Three entries, of which init has one, and two CPUs. */
  const BOOTED: State :=
    State([Proc(RUNNABLE, 1, None, NoChan, false), NOBODY, NOBODY], [FRESH, FRESH, FRESH], 2,
          [Cpu(None, SchedIdle), Cpu(None, SchedIdle)], None, [], false)

  /** init has forked, and both run. */
  const PAIR: State :=
    State([Proc(RUNNING, 1, None, NoChan, false), Proc(RUNNING, 2, Some(0), NoChan, false), NOBODY],
          [FRESH.(cpu := Some(0)), FRESH.(cpu := Some(1)), FRESH], 3,
          [Cpu(Some(0), On(0, Running)), Cpu(Some(1), On(1, Running))], None, [], false)

  lemma PairRuns() returns (ss: seq<State>, es: seq<Event>)
    ensures Run(ss, es) && ss[|es|] == PAIR
  {
    ss, es := [BOOTED], [];
    ss, es := Schedule(ss, es, BOOTED, 0, 0);
    hide Run;
    var s := Scheduled(BOOTED, 0, 0);
    ss, es := ForkAll(ss, es, s, 0, 0, 1, true);
    var t := Forked(Forking(s, 0, 1), 0, 1, true);
    ss, es := Schedule(ss, es, t, 1, 1);
    assert Scheduled(t, 1, 1) == PAIR;
  }

  /** init's second fork has found no memory and freed its entry, its child's fork has taken the entry and is done. */
  const CROSSED: State :=
    PAIR.(procs := PAIR.procs[2 := Proc(RUNNABLE, 4, Some(1), NoChan, false)],
          aux := PAIR.aux[0 := PAIR.aux[0].(clearing := Some(2))], nextpid := 5)

  lemma CrossedRuns() returns (ss: seq<State>, es: seq<Event>)
    ensures Run(ss, es) && ss[|es|] == CROSSED
  {
    hide Run;
    ss, es := PairRuns();
    ss, es := ForkAll(ss, es, PAIR, 0, 0, 2, false);
    var s := Forked(Forking(PAIR, 0, 2), 0, 2, false);
    ss, es := ForkAll(ss, es, s, 1, 1, 2, true);
    assert Forked(Forking(s, 1, 2), 1, 2, true) == CROSSED;
  }

  /** Then init's fork clears the parent: a process that can run has none, and nobody's wait will find it. */
  lemma OrphanRun() returns (ss: seq<State>, es: seq<Event>, n: nat)
    ensures Run(ss, es) && |es| == n + 1 && Strays(ss[n], es[n])
    ensures |ss[n + 1].procs| == 3 && ss[n + 1].procs[2].state == RUNNABLE && ss[n + 1].procs[2].parent == None
  {
    ss, es := CrossedRuns();
    n := |es|;
    var t := SetAux(CROSSED.(procs := CROSSED.procs[2 := CROSSED.procs[2].(parent := None)], strayed := true),
                    0, CROSSED.aux[0].(clearing := None));
    ss, es := Extend(ss, es, t, Event(0, ForkClear));
  }

  // A process that is killed before it exists: kill(0) finds the first free entry

  lemma InitOn() returns (ss: seq<State>, es: seq<Event>)
    ensures Run(ss, es) && ss[|es|] == Scheduled(BOOTED, 0, 0)
  {
    ss, es := [BOOTED], [];
    ss, es := Schedule(ss, es, BOOTED, 0, 0);
  }

  lemma Locks(states: seq<State>, events: seq<Event>, s: State, c: nat, p: nat) returns (ss: seq<State>, es: seq<Event>)
    requires Run(states, events) && s == states[|events|] && Shape(s) && c < |s.cpus| && p < |s.procs|
    requires s.cpus[c].at == On(p, Running) && s.lock == None
    ensures Run(ss, es) && ss[|es|] == SetAt(s, c, On(p, Locked)).(lock := Some(c)) && states <= ss && events <= es
  {
    hide Run;
    ss, es := Extend(states, events, SetAt(s, c, On(p, Locked)).(lock := Some(c)), Event(c, Acquire));
  }

  lemma KillsNobody() returns (ss: seq<State>, es: seq<Event>, n: nat, s: State)
    ensures Run(ss, es) && n < |es| && es[n].act == DoKill(0) && Hits(ss[n], es[n], 1) && ss[n].procs[1].state == UNUSED
    ensures s == ss[|es|] && Shape(s) && |s.procs| == 3 && |s.cpus| == 2 && s.cpus[0].at == On(0, Running) && s.lock == None
    ensures s.procs[1] == NOBODY.(killed := true) && s.aux[0] == FRESH.(cpu := Some(0)) && s.nextpid == 2
  {
    hide Run, NextRunning, HasChild, HasZombie, Exit, Taken, FirstPid;
    ss, es := InitOn();
    s := Scheduled(BOOTED, 0, 0);
    var s1 := SetAt(s, 0, On(0, Locked)).(lock := Some(0));
    ss, es := Locks(ss, es, s, 0, 0);
    n := |es|;
    FirstIs(s1.procs, 0, 1);
    var s2 := s1.(procs := Kill(s1.procs, 1));
    ss, es := Extend(ss, es, s2, Event(0, DoKill(0)));
    s := Unlock(s2, 0, 0);
    ss, es := Extend(ss, es, s, Event(0, Release));
  }

  /** The next process to get the entry can run, and is killed, though no kill was for its pid. */
  lemma BornKilled() returns (ss: seq<State>, es: seq<Event>, n: nat)
    ensures Run(ss, es) && n < |es| && es[n].act == DoKill(0) && Hits(ss[n], es[n], 1) && ss[n].procs[1].state == UNUSED
    ensures var s := ss[|es|]; |s.procs| == 3 && s.procs[1].state == RUNNABLE && s.procs[1].pid == 2 && s.procs[1].killed
  {
    hide StepOf, Init, Hits;
    var s;
    ss, es, n, s := KillsNobody();
    ss, es := ForkAll(ss, es, s, 0, 0, 1, true);
  }

  /** wait and a failing fork free a kernel stack that no CPU executes on, or is about to. */
  lemma FreedStackIsIdle(states: seq<State>, events: seq<Event>, k: nat, z: nat, d: nat)
    requires Run(states, events) && 0 < k < |states| && z < |states[k - 1].procs| == |states[k].procs|
    requires states[k - 1].procs[z].state != UNUSED && states[k].procs[z].state == UNUSED && d < |states[k - 1].cpus|
    ensures Current(states[k - 1].cpus[d].at) != Some(z)
  {
    hide Run, Inv, Next;
    RunInv(states, events, k - 1);
    RunStep(states, events, k);
    FreeStep(states[k - 1], states[k], events[k - 1].cpu, events[k - 1].act, z, d);
  }

  lemma RunStep(states: seq<State>, events: seq<Event>, k: nat)
    requires Run(states, events) && 0 < k < |states|
    ensures k <= |events| && StepOf(states[k - 1], states[k], events[k - 1])
  {
  }

  /** Under the lock, only wait frees an entry. */
  lemma LockedFrees(s: State, t: State, c: nat, p: nat, a: Action, z: nat)
    requires Shape(s) && c < |s.cpus| && p < |s.procs| && NextLocked(s, t, c, p, a) && z < |s.procs| == |t.procs|
    requires s.procs[z].state != UNUSED && t.procs[z].state == UNUSED
    ensures a == WaitReap(z) && ZombieChild(s.procs[z], p)
  {
    hide HasChild, HasZombie, FirstPid, Exit;
    if a.DoExit? { ExitAt(s.procs, p, z); }
  }

  /** Without it, only a fork that fails. */
  lemma RunningFrees(s: State, t: State, c: nat, p: nat, a: Action, z: nat)
    requires Shape(s) && c < |s.cpus| && p < |s.procs| && NextRunning(s, t, c, p, a) && z < |s.procs| == |t.procs|
    requires s.procs[z].state != UNUSED && t.procs[z].state == UNUSED
    ensures s.aux[p].making == Some(z)
  {
  }

  lemma ZombieIdle(s: State, c: nat, z: nat, d: nat)
    requires Inv(s) && c < |s.cpus| && d < |s.cpus| && z < |s.procs| && s.procs[z].state == ZOMBIE
    requires s.cpus[c].at.On? && s.cpus[c].at.phase == Locked
    ensures Current(s.cpus[d].at) != Some(z)
  {
    hide Inv, CpusOk, OnLive, WaitOk, PidsOk, MakersOk;
    CpusFacts(s);
    CpuFacts(s, c);
    EntryFacts(s, s.cpus[c].at.p);
    EntryFacts(s, z);
    NobodyOn(s, c, z);
  }

  lemma EmbryoIdle(s: State, p: nat, z: nat, d: nat)
    requires Inv(s) && d < |s.cpus| && p < |s.procs| && s.aux[p].making == Some(z)
    ensures Current(s.cpus[d].at) != Some(z)
  {
    hide Inv, CpusOk, WaitOk, PidsOk, MakersOk;
    CpusFacts(s);
    EntryFacts(s, p);
  }

  lemma FreeStep(s: State, t: State, c: nat, a: Action, z: nat, d: nat)
    requires Inv(s) && c < |s.cpus| && Next(s, t, c, a) && z < |s.procs| == |t.procs| && d < |s.cpus|
    requires s.procs[z].state != UNUSED && t.procs[z].state == UNUSED
    ensures Current(s.cpus[d].at) != Some(z)
  {
    hide Inv, NextLocked, NextRunning, CpusOk, OnLive;
    CpusFacts(s);
    if s.cpus[c].at.On? && s.cpus[c].at.phase == Locked {
      LockedFrees(s, t, c, s.cpus[c].at.p, a, z);
      ZombieIdle(s, c, z, d);
    } else if s.cpus[c].at.On? && s.cpus[c].at.phase == Running {
      RunningFrees(s, t, c, s.cpus[c].at.p, a, z);
      EmbryoIdle(s, s.cpus[c].at.p, z, d);
    }
  }
}
