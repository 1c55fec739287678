/** ilock and iunlock down to single lock operations (xv6/fs.c:190-233, xv6/proc.c:276-332).

    Two spin locks are at work: icache.lock guards I_BUSY, and proc_table_lock guards the sleeping state.
    sleep takes the second before it gives up the first, and wakeup needs the second; the result is that no
    wakeup falls between a process's test of I_BUSY and its going to sleep.  A process may lock any number of inodes.
 */
module SleepLock {
  import opened Options
  import Sleep

  /** Where a process is, for inode i. */
  datatype Pc =
    | Out                     // neither in ilock nor in iunlock
    | WantIcache(i: nat)      // ilock: before acquire(&icache.lock)
    | Testing(i: nat)         // has icache.lock, about to test I_BUSY
    | InSleep(i: nat)         // saw I_BUSY; in sleep, before acquire(&proc_table_lock)
    | HasBoth(i: nat)         // has both, about to release icache.lock
    | Dozing(i: nat)          // has proc_table_lock, about to become SLEEPING
    | Switching(i: nat)       // SLEEPING, and its CPU still has proc_table_lock
    | Asleep(i: nat)          // SLEEPING
    | Runnable(i: nat)        // woken; will release proc_table_lock and take icache.lock again
    | Took(i: nat)            // has icache.lock and has set I_BUSY
    | WantUnlock(i: nat)      // iunlock: before acquire(&icache.lock)
    | Cleared(i: nat)         // has icache.lock, has cleared I_BUSY, about to call wakeup
    | Waking(i: nat)          // in wakeup, has proc_table_lock too
    | Woke(i: nat)            // wakeup has returned; has icache.lock

  /** busy is I_BUSY of each inode, with the process that set it; the locks too name the process that has them.  held is
      the inodes that each process has locked: ilock has returned, and iunlock has not been called. */
  datatype State = State(busy: seq<Option<nat>>, icache: Option<nat>, table: Option<nat>, procs: seq<Pc>, held: seq<set<nat>>)

  datatype Action = Go(p: nat) | Start(p: nat, i: nat) | StartUnlock(p: nat, i: nat) | Kill(p: nat) | Scheduler

  function Set(s: State, p: nat, pc: Pc): State
    requires p < |s.procs|
  {
    s.(procs := s.procs[p := pc])
  }

  /** wakeup1(ip) */
  function WakeAll(procs: seq<Pc>, i: nat): (r: seq<Pc>)
    ensures |r| == |procs|
    ensures forall p :: 0 <= p < |procs| ==> r[p] == if procs[p] == Asleep(i) then Runnable(i) else procs[p]
  {
    seq(|procs|, p requires 0 <= p < |procs| => if procs[p] == Asleep(i) then Runnable(i) else procs[p])
  }

  ghost predicate Fits(s: State) {
    && |s.held| == |s.procs|
    && forall p :: 0 <= p < |s.procs| ==> (s.procs[p].Out? || s.procs[p].i < |s.busy|)
  }

  function Hold(s: State, p: nat, h: set<nat>): State
    requires p < |s.held|
  {
    s.(held := s.held[p := h])
  }

  ghost predicate Next(s: State, t: State, a: Action)
    requires Fits(s)
  {
    match a
    case Start(p, i) => p < |s.procs| && s.procs[p].Out? && i < |s.busy| && t == Set(s, p, WantIcache(i))
    case StartUnlock(p, i) =>
      p < |s.procs| && s.procs[p].Out? && i < |s.busy| && i in s.held[p] && t == Hold(Set(s, p, WantUnlock(i)), p, s.held[p] - {i})
    case Kill(p) => p < |s.procs| && s.procs[p].Asleep? && s.table == None && t == Set(s, p, Runnable(s.procs[p].i))
    case Scheduler => s.table == None && t == s
    case Go(p) => p < |s.procs| && Step(s, t, p)
  }

  /** The next operation of process p. */
  ghost predicate Step(s: State, t: State, p: nat)
    requires Fits(s) && p < |s.procs|
  {
    match s.procs[p]
    case Out => false
    case WantIcache(i) => s.icache == None && t == Set(s, p, Testing(i)).(icache := Some(p))
    case Testing(i) =>
      if s.busy[i].Some? then t == Set(s, p, InSleep(i)) else t == Set(s, p, Took(i)).(busy := s.busy[i := Some(p)])
    case InSleep(i) => s.table == None && t == Set(s, p, HasBoth(i)).(table := Some(p))
    case HasBoth(i) => t == Set(s, p, Dozing(i)).(icache := None)
    case Dozing(i) => t == Set(s, p, Switching(i))
    case Switching(i) => t == Set(s, p, Asleep(i)).(table := None)
    case Asleep(i) => false
    case Runnable(i) => s.table == None && t == Set(s, p, WantIcache(i))
    case Took(i) => t == Hold(Set(s, p, Out), p, s.held[p] + {i}).(icache := None)
    case WantUnlock(i) => s.icache == None && t == Set(s, p, Cleared(i)).(icache := Some(p), busy := s.busy[i := None])
    case Cleared(i) => s.table == None && t == Set(s, p, Waking(i)).(table := Some(p))
    case Waking(i) => t == Set(s.(procs := WakeAll(s.procs, i)), p, Woke(i)).(table := None)
    case Woke(i) => t == Set(s, p, Out).(icache := None)
  }

  // What every step keeps

  predicate HasIcache(pc: Pc) {
    pc.Testing? || pc.InSleep? || pc.HasBoth? || pc.Took? || pc.Cleared? || pc.Waking? || pc.Woke?
  }

  predicate HasTable(pc: Pc) { pc.HasBoth? || pc.Dozing? || pc.Switching? || pc.Waking? }

  /** The process whose I_BUSY it is. */
  predicate Owns(s: State, p: nat, i: nat)
    requires p < |s.procs| == |s.held|
  {
    s.procs[p] == Took(i) || s.procs[p] == WantUnlock(i) || i in s.held[p]
  }

  /** A process that has decided to sleep, or does. */
  predicate Waits(pc: Pc, i: nat) {
    pc == InSleep(i) || pc == HasBoth(i) || pc == Dozing(i) || pc == Switching(i) || pc == Asleep(i)
  }

  /** Somebody is about to wake the sleepers on i. */
  ghost predicate WakeComing(s: State, i: nat) {
    s.icache.Some? && s.icache.value < |s.procs| && (s.procs[s.icache.value] == Cleared(i) || s.procs[s.icache.value] == Waking(i))
  }

  ghost predicate LocksOk(s: State, p: nat)
    requires p < |s.procs|
  {
    (HasIcache(s.procs[p]) <==> s.icache == Some(p)) && (HasTable(s.procs[p]) <==> s.table == Some(p))
  }

  ghost predicate OwnsOk(s: State, p: nat)
    requires p < |s.procs| == |s.held|
  {
    && (forall i :: 0 <= i < |s.busy| ==> (Owns(s, p, i) <==> s.busy[i] == Some(p)))
    && (s.procs[p].WantUnlock? ==> s.procs[p].i !in s.held[p])
  }

  ghost predicate WaitsOk(s: State, p: nat)
    requires p < |s.procs|
  {
    forall i :: 0 <= i < |s.busy| && Waits(s.procs[p], i) ==> s.busy[i].Some? || WakeComing(s, i)
  }

  ghost predicate ProcOk(s: State, p: nat)
    requires p < |s.procs| == |s.held|
  {
    LocksOk(s, p) && OwnsOk(s, p) && WaitsOk(s, p)
  }

  ghost predicate Inv(s: State) {
    && Fits(s) && (forall p :: 0 <= p < |s.procs| ==> ProcOk(s, p))
    && (s.icache.Some? ==> s.icache.value < |s.procs|) && (s.table.Some? ==> s.table.value < |s.procs|)
    && forall i :: 0 <= i < |s.busy| && s.busy[i].Some? ==> s.busy[i].value < |s.procs|
  }

  // Proofs

  /** What a step of p does to the others and to the locks. */
  lemma StepShape(s: State, t: State, p: nat)
    requires Fits(s) && p < |s.procs| && LocksOk(s, p) && Step(s, t, p)
    ensures Fits(t) && |t.procs| == |s.procs| && |t.busy| == |s.busy|
    ensures forall q :: 0 <= q < |s.procs| && q != p ==> t.held[q] == s.held[q]
    ensures forall q :: 0 <= q < |s.procs| && q != p ==>
              t.procs[q] == s.procs[q] || (s.procs[q].Asleep? && t.procs[q] == Runnable(s.procs[q].i))
    ensures t.icache == s.icache || (s.icache == None && t.icache == Some(p)) || (s.icache == Some(p) && t.icache == None)
    ensures t.table == s.table || (s.table == None && t.table == Some(p)) || (s.table == Some(p) && t.table == None)
  {
  }

  lemma StepLocks(s: State, t: State, p: nat)
    requires Fits(s) && p < |s.procs| && LocksOk(s, p) && Step(s, t, p)
    ensures p < |t.procs| && LocksOk(t, p)
  {
  }

  /** I_BUSY is set by a process that finds it clear, and cleared by the process that set it. */
  lemma StepBusy(s: State, t: State, p: nat, i: nat)
    requires Fits(s) && p < |s.procs| && OwnsOk(s, p) && Step(s, t, p) && i < |s.busy| == |t.busy|
    ensures p < |t.procs| == |t.held| && (t.procs[p].WantUnlock? ==> t.procs[p].i !in t.held[p])
    ensures || (t.busy[i] == s.busy[i] && (Owns(t, p, i) <==> Owns(s, p, i)))
            || (s.busy[i] == None && t.busy[i] == Some(p) && Owns(t, p, i))
            || (s.busy[i] == Some(p) && t.busy[i] == None && t.procs[p] == Cleared(i) && !Owns(t, p, i) && t.icache == Some(p))
  {
  }

  lemma StepOwns(s: State, t: State, p: nat, q: nat)
    requires Inv(s) && p < |s.procs| == |t.procs| && q < |s.procs| && Step(s, t, p) && |t.busy| == |s.busy|
    requires q != p ==> t.procs[q] == s.procs[q] || (s.procs[q].Asleep? && t.procs[q] == Runnable(s.procs[q].i))
    requires |t.held| == |s.held| && (q != p ==> t.held[q] == s.held[q])
    requires t.procs[q].WantUnlock? ==> t.procs[q].i !in t.held[q]
    ensures OwnsOk(t, q)
  {
    hide Step, LocksOk, WaitsOk;
    assert ProcOk(s, p) && ProcOk(s, q);
    forall i | 0 <= i < |t.busy| ensures Owns(t, q, i) <==> t.busy[i] == Some(q) { StepBusy(s, t, p, i); }
  }

  /** A wakeup that was coming comes, or still is. */
  lemma StepWake(s: State, t: State, p: nat, i: nat)
    requires Fits(s) && p < |s.procs| && LocksOk(s, p) && Step(s, t, p) && WakeComing(s, i)
    ensures || WakeComing(t, i)
            || (s.table == Some(p) && |t.procs| == |s.procs| &&
                forall q :: 0 <= q < |s.procs| && q != p ==> t.procs[q] != Asleep(i))
    ensures !Waits(s.procs[p], i) ==> !Waits(t.procs[p], i)
  {
  }

  lemma StepWaits(s: State, t: State, p: nat, q: nat)
    requires Inv(s) && p < |s.procs| == |t.procs| && q < |s.procs| && q != p && Step(s, t, p) && |t.busy| == |s.busy|
    requires t.procs[q] == s.procs[q] || (s.procs[q].Asleep? && t.procs[q] == Runnable(s.procs[q].i))
    ensures WaitsOk(t, q)
  {
    hide Step;
    assert ProcOk(s, p) && ProcOk(s, q);
    hide Inv;
    forall i | 0 <= i < |t.busy| && Waits(t.procs[q], i) ensures t.busy[i].Some? || WakeComing(t, i) {
      StepBusy(s, t, p, i);
      if WakeComing(s, i) { StepWake(s, t, p, i); }
    }
  }

  /** Only a process that has just seen I_BUSY begins to wait, and waiting changes neither flags nor icache.lock's use. */
  lemma StepEnters(s: State, t: State, p: nat, i: nat)
    requires Fits(s) && p < |s.procs| && LocksOk(s, p) && Step(s, t, p) && i < |s.busy| && p < |t.procs| && Waits(t.procs[p], i)
    ensures t.busy == s.busy && (s.busy[i].Some? || Waits(s.procs[p], i))
    ensures WakeComing(s, i) ==> WakeComing(t, i)
  {
  }

  lemma StepWaitsSelf(s: State, t: State, p: nat)
    requires Fits(s) && p < |s.procs| == |t.procs| && ProcOk(s, p) && Step(s, t, p) && |t.busy| == |s.busy|
    ensures WaitsOk(t, p)
  {
    hide Step, OwnsOk, WakeComing;
    forall i | 0 <= i < |t.busy| && Waits(t.procs[p], i) ensures t.busy[i].Some? || WakeComing(t, i) {
      StepEnters(s, t, p, i);
    }
  }

  lemma StepOther(s: State, t: State, p: nat, q: nat)
    requires Inv(s) && p < |s.procs| && q < |s.procs| && q != p && Step(s, t, p)
    ensures q < |t.procs| && ProcOk(t, q)
  {
    hide Step, WaitsOk;
    assert ProcOk(s, p) && ProcOk(s, q);
    StepShape(s, t, p);
    StepOwns(s, t, p, q);
    StepWaits(s, t, p, q);
  }

  lemma StepUnlocking(s: State, t: State, p: nat)
    requires Fits(s) && p < |s.procs| && Step(s, t, p)
    ensures p < |t.procs| == |t.held| && !t.procs[p].WantUnlock?
  {
  }

  lemma StepSelf(s: State, t: State, p: nat)
    requires Inv(s) && p < |s.procs| && Step(s, t, p)
    ensures Fits(t) && |t.procs| == |s.procs| && |t.busy| == |s.busy| && ProcOk(t, p)
    ensures (t.icache.Some? ==> t.icache.value < |s.procs|) && (t.table.Some? ==> t.table.value < |s.procs|)
  {
    hide Step, OwnsOk, WaitsOk, LocksOk;
    assert ProcOk(s, p);
    StepShape(s, t, p);
    StepLocks(s, t, p);
    StepUnlocking(s, t, p);
    StepOwns(s, t, p, p);
    StepWaitsSelf(s, t, p);
  }

  lemma StepKeeps(s: State, t: State, p: nat)
    requires Inv(s) && p < |s.procs| && Step(s, t, p)
    ensures Inv(t)
  {
    hide Step, ProcOk;
    StepSelf(s, t, p);
    forall q | 0 <= q < |s.procs| ensures ProcOk(t, q) { if q != p { StepOther(s, t, p, q); } }
    forall i | 0 <= i < |t.busy| && t.busy[i].Some? ensures t.busy[i].value < |t.procs| {
      assert OwnsOk(s, p) by { assert ProcOk(s, p); OwnsPart(s, p); }
      StepBusy(s, t, p, i);
    }
  }

  lemma OwnsPart(s: State, p: nat)
    requires p < |s.procs| == |s.held| && ProcOk(s, p)
    ensures OwnsOk(s, p)
  {
  }

  lemma OtherKeeps(s: State, t: State, p: nat, pc: Pc)
    requires Inv(s) && p < |s.procs| && (s.procs[p].Out? || s.procs[p].Asleep?) && (pc.WantIcache? || pc.Runnable?)
    requires pc.i < |s.busy| && t == Set(s, p, pc)
    ensures Inv(t)
  {
    forall q | 0 <= q < |s.procs| ensures ProcOk(t, q) {
      assert ProcOk(s, q) && ProcOk(s, p);
      forall i | 0 <= i < |s.busy| ensures Owns(t, q, i) <==> Owns(s, q, i) {}
    }
  }

  lemma UnlockKeeps(s: State, t: State, p: nat, i: nat)
    requires Inv(s) && p < |s.procs| && Next(s, t, StartUnlock(p, i))
    ensures Inv(t)
  {
    forall q | 0 <= q < |s.procs| ensures ProcOk(t, q) {
      assert ProcOk(s, q) && ProcOk(s, p);
      forall j | 0 <= j < |s.busy| ensures Owns(t, q, j) <==> Owns(s, q, j) {}
    }
  }

  lemma NextKeeps(s: State, t: State, a: Action)
    requires Inv(s) && Next(s, t, a)
    ensures Inv(t)
  {
    hide Step, ProcOk;
    match a
    case Start(p, i) => OtherKeeps(s, t, p, WantIcache(i));
    case StartUnlock(p, i) => UnlockKeeps(s, t, p, i);
    case Kill(p) => OtherKeeps(s, t, p, Runnable(s.procs[p].i));
    case Scheduler =>
    case Go(p) => StepKeeps(s, t, p);
  }

  ghost predicate Init(s: State) {
    && |s.held| == |s.procs| && s.icache == None && s.table == None && (forall i :: 0 <= i < |s.busy| ==> s.busy[i] == None)
    && forall p :: 0 <= p < |s.procs| ==> s.procs[p].Out? && s.held[p] == {}
  }

  ghost predicate Run(states: seq<State>, acts: seq<Action>) {
    && |states| == |acts| + 1 && Init(states[0])
    && forall k :: 0 <= k < |acts| ==> StepOf(states[k], states[k + 1], acts[k])
  }

  ghost predicate StepOf(s: State, t: State, a: Action) { Fits(s) && Next(s, t, a) }

  lemma {:induction false} RunInv(states: seq<State>, acts: seq<Action>, k: nat)
    requires Run(states, acts) && k < |states|
    ensures Inv(states[k])
  {
    if k == 0 {
      assert Inv(states[0]);
    } else {
      hide Inv, Next;
      RunInv(states, acts, k - 1);
      assert StepOf(states[k - 1], states[k], acts[k - 1]);
      NextKeeps(states[k - 1], states[k], acts[k - 1]);
    }
  }

  /** No lost wakeup: whenever icache.lock is free, a process asleep in ilock waits for an inode that is busy, and some
      process has it.  At most one process has an inode locked. */
  lemma NoLostWakeup(states: seq<State>, acts: seq<Action>, k: nat, p: nat, q: nat)
    requires Run(states, acts) && k < |states| && p < |states[k].procs| && q < |states[k].procs|
    ensures Fits(states[k])
    ensures var s := states[k];
            && (s.procs[p].Asleep? && s.icache == None ==>
                  && s.procs[p].i < |s.busy| && s.busy[s.procs[p].i].Some?
                  && s.busy[s.procs[p].i].value < |s.procs| && Owns(s, s.busy[s.procs[p].i].value, s.procs[p].i))
            && forall i :: 0 <= i < |s.busy| && i in s.held[p] && i in s.held[q] ==> p == q
  {
    RunInv(states, acts, k);
    hide Run;
    var s := states[k];
    assert ProcOk(s, p) && ProcOk(s, q);
    forall i | 0 <= i < |s.busy| && i in s.held[p] && i in s.held[q] ensures p == q { assert Owns(s, p, i) && Owns(s, q, i); }
    if s.procs[p].Asleep? && s.icache == None { assert ProcOk(s, s.busy[s.procs[p].i].value); }
  }

  // An instance of Sleep: the conditions are that an inode is not busy, and each inode is its own channel

  function AbsPc(pc: Pc): Sleep.Pc {
    match pc
    case Out => Sleep.Out
    case WantIcache(i) => Sleep.Want(i)
    case Testing(i) => Sleep.Testing(i)
    case InSleep(i) => Sleep.InSleep(i)
    case HasBoth(i) => Sleep.HasBoth(i)
    case Dozing(i) => Sleep.Dozing(i)
    case Switching(i) => Sleep.Switching(i)
    case Asleep(i) => Sleep.Asleep(i)
    case Runnable(i) => Sleep.Runnable(i)
    case WantUnlock(_) => Sleep.WantUse
    case Waking(i) => Sleep.Waking(i)
    case _ => Sleep.Use
  }

  function AbsProcs(procs: seq<Pc>): seq<Sleep.Pc> {
    seq(|procs|, p requires 0 <= p < |procs| => AbsPc(procs[p]))
  }

  function Idle(busy: seq<Option<nat>>): set<nat> { set i: nat | i < |busy| && busy[i] == None }

  /** The inode whose sleepers the process is about to wake. */
  function Owed(pc: Pc): set<nat> { if pc.Cleared? || pc.Waking? then {pc.i} else {} }

  function Abs(s: State): Sleep.State {
    Sleep.State(Idle(s.busy), if s.icache.Some? && s.icache.value < |s.procs| then Owed(s.procs[s.icache.value]) else {},
                seq(|s.busy|, i => i), s.icache, s.table, AbsProcs(s.procs))
  }

  /** Sleep gets from u to v in at most two steps. */
  ghost predicate Gets(u: Sleep.State, v: Sleep.State) {
    u == v || (exists a :: Sleep.Next(u, v, a)) || exists w, a, b :: Sleep.Next(u, w, a) && Sleep.Next(w, v, b)
  }

  lemma AbsSet(procs: seq<Pc>, p: nat, pc: Pc)
    requires p < |procs|
    ensures AbsProcs(procs[p := pc]) == AbsProcs(procs)[p := AbsPc(pc)]
  {
  }

  lemma AbsWake(procs: seq<Pc>, n: nat, i: nat)
    requires i < n && forall p :: 0 <= p < |procs| && procs[p].Asleep? ==> procs[p].i < n
    ensures AbsProcs(WakeAll(procs, i)) == Sleep.WakeAll(AbsProcs(procs), seq(n, j => j), i)
  {
  }

  /** Steps that Sleep takes as they are. */
  lemma SameStep(s: State, t: State, p: nat)
    requires Inv(s) && p < |s.procs| && Step(s, t, p) && !s.procs[p].Took? && !s.procs[p].Waking? && !s.procs[p].Woke?
    requires !s.procs[p].WantUnlock? && !s.procs[p].Cleared? && !t.procs[p].Took?
    ensures Sleep.Next(Abs(s), Abs(t), Sleep.Go(p))
  {
    assert ProcOk(s, p);
    AbsSet(s.procs, p, t.procs[p]);
  }

  /** ilock finds the inode free: its condition is true, and then it makes it false. */
  lemma TakeSteps(s: State, t: State, p: nat)
    requires Inv(s) && p < |s.procs| && Step(s, t, p) && s.procs[p].Testing? && t.procs[p].Took?
    ensures Gets(Abs(s), Abs(t))
  {
    assert ProcOk(s, p);
    AbsSet(s.procs, p, t.procs[p]);
    var w := Sleep.Set(Abs(s), p, Sleep.Use);
    assert Sleep.Next(Abs(s), w, Sleep.Go(p));
    assert Idle(t.busy) == Idle(s.busy) - {s.procs[p].i};
    assert Abs(t).owed == (w.owed + (Abs(t).ready - w.ready)) * Abs(t).ready;
    assert Sleep.Next(w, Abs(t), Sleep.Change(p, Idle(t.busy)));
  }

  /** iunlock takes icache.lock and clears I_BUSY: the condition is true, and a wakeup owed. */
  lemma ClearSteps(s: State, t: State, p: nat)
    requires Inv(s) && p < |s.procs| && Step(s, t, p) && s.procs[p].WantUnlock?
    ensures Gets(Abs(s), Abs(t))
  {
    assert ProcOk(s, p);
    AbsSet(s.procs, p, t.procs[p]);
    var i := s.procs[p].i;
    var w := Sleep.Set(Abs(s), p, Sleep.Use).(lk := Some(p));
    assert Sleep.Next(Abs(s), w, Sleep.Go(p));
    assert Owns(s, p, i);
    assert Idle(t.busy) == Idle(s.busy) + {i};
    assert Abs(t).owed == (w.owed + (Abs(t).ready - w.ready)) * Abs(t).ready;
    assert Sleep.Next(w, Abs(t), Sleep.Change(p, Idle(t.busy)));
  }

  /** ilock and iunlock give icache.lock up. */
  lemma LeaveSteps(s: State, t: State, p: nat)
    requires Inv(s) && p < |s.procs| && Step(s, t, p) && (s.procs[p].Took? || s.procs[p].Woke?)
    ensures Sleep.Next(Abs(s), Abs(t), Sleep.Leave(p))
  {
    assert ProcOk(s, p);
    AbsSet(s.procs, p, t.procs[p]);
  }

  /** iunlock calls wakeup. */
  lemma WakeSteps(s: State, t: State, p: nat)
    requires Inv(s) && p < |s.procs| && Step(s, t, p) && (s.procs[p].Cleared? || s.procs[p].Waking?)
    ensures Sleep.Next(Abs(s), Abs(t), if s.procs[p].Cleared? then Sleep.Wakeup(p, s.procs[p].i) else Sleep.Go(p))
  {
    assert ProcOk(s, p);
    var i := s.procs[p].i;
    if s.procs[p].Cleared? {
      AbsSet(s.procs, p, t.procs[p]);
    } else {
      AbsWake(s.procs, |s.busy|, i);
      AbsSet(WakeAll(s.procs, i), p, Woke(i));
      assert Abs(t).owed == set k | k in Abs(s).owed && !Sleep.On(Abs(s).chan, k, i);
    }
  }

  lemma NextGets(s: State, t: State, a: Action)
    requires Inv(s) && Next(s, t, a)
    ensures Gets(Abs(s), Abs(t))
  {
    hide ProcOk, Step, Sleep.Next;
    match a
    case Start(p, i) => OutSteps(s, t, a, Sleep.Start(p, i));
    case StartUnlock(p, i) => OutSteps(s, t, a, Sleep.StartUse(p));
    case Kill(p) => OutSteps(s, t, a, Sleep.Kill(p));
    case Scheduler =>
    case Go(p) =>
      Moves(s, t, p);
      if s.procs[p].Testing? && t.procs[p].Took? { TakeSteps(s, t, p); }
      else if s.procs[p].WantUnlock? { ClearSteps(s, t, p); }
      else if s.procs[p].Took? || s.procs[p].Woke? { LeaveSteps(s, t, p); }
      else if s.procs[p].Cleared? || s.procs[p].Waking? { WakeSteps(s, t, p); }
      else { SameStep(s, t, p); }
  }

  lemma Moves(s: State, t: State, p: nat)
    requires Fits(s) && p < |s.procs| && Step(s, t, p)
    ensures p < |t.procs| && (t.procs[p].Took? ==> s.procs[p].Testing?)
  {
  }

  lemma OutSteps(s: State, t: State, a: Action, b: Sleep.Action)
    requires Inv(s) && Next(s, t, a)
    requires || (a.Start? && b == Sleep.Start(a.p, a.i)) || (a.StartUnlock? && b == Sleep.StartUse(a.p))
             || (a.Kill? && b == Sleep.Kill(a.p))
    ensures Sleep.Next(Abs(s), Abs(t), b)
  {
    assert ProcOk(s, a.p);
    AbsSet(s.procs, a.p, t.procs[a.p]);
    assert t.icache.Some? ==> HasIcache(s.procs[t.icache.value]) by { assert t.icache.Some? ==> ProcOk(s, t.icache.value); }
  }

  lemma SleepOn(ss: seq<Sleep.State>, acts: seq<Sleep.Action>, v: Sleep.State, a: Sleep.Action)
    requires Sleep.Run(ss, acts) && Sleep.Next(ss[|acts|], v, a)
    ensures Sleep.Run(ss + [v], acts + [a])
  {
    hide Sleep.Next;
    forall n | 0 <= n < |acts + [a]| ensures Sleep.StepOf((ss + [v])[n], (ss + [v])[n + 1], (acts + [a])[n]) {
      if n < |acts| { assert Sleep.StepOf(ss[n], ss[n + 1], acts[n]); }
    }
  }

  /** Every run of ilock and iunlock is a run of Sleep, seen through Abs. */
  lemma {:induction false} RunSleeps(states: seq<State>, acts: seq<Action>, k: nat)
    returns (ss: seq<Sleep.State>, bs: seq<Sleep.Action>)
    requires Run(states, acts) && k < |states|
    ensures Sleep.Run(ss, bs) && ss[|bs|] == Abs(states[k])
  {
    hide Inv, Next, Sleep.Next;
    if k == 0 {
      ss, bs := [Abs(states[0])], [];
    } else {
      ss, bs := RunSleeps(states, acts, k - 1);
      RunInv(states, acts, k - 1);
      assert StepOf(states[k - 1], states[k], acts[k - 1]);
      var u, v := Abs(states[k - 1]), Abs(states[k]);
      NextGets(states[k - 1], states[k], acts[k - 1]);
      if a :| u != v && Sleep.Next(u, v, a) {
        SleepOn(ss, bs, v, a);
        ss, bs := ss + [v], bs + [a];
      } else if u != v {
        var w, a, b :| Sleep.Next(u, w, a) && Sleep.Next(w, v, b);
        SleepOn(ss, bs, w, a);
        SleepOn(ss + [w], bs + [a], v, b);
        ss, bs := ss + [w] + [v], bs + [a] + [b];
      }
    }
  }

  /** So what Sleep proves of all its instances is true of this one. */
  lemma SleepersBusy(states: seq<State>, acts: seq<Action>, k: nat, p: nat)
    requires Run(states, acts) && k < |states| && p < |states[k].procs| && states[k].procs[p].Asleep? && states[k].icache == None
    ensures states[k].procs[p].i < |states[k].busy| ==> states[k].busy[states[k].procs[p].i].Some?
  {
    var ss, bs := RunSleeps(states, acts, k);
    Sleep.SleepersWait(ss, bs, |bs|, p);
  }
}
