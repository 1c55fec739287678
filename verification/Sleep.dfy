/** sleep and wakeup down to single lock operations, for any lock and any conditions (xv6/proc.c:276-332).

    A process that finds its condition false under the lock sleeps on the channel of that condition; whoever makes a
    condition true, under the lock, calls wakeup on its channel before the lock is given up or slept with.  So do
    bget and brelse with buf_table_lock, where the condition is that no buffer of the sector is busy and the one channel
    is buf (xv6/bio.c:64-77, xv6/bio.c:123-135); ide_rw and ide_intr with ide_lock, where it is that the buffer is valid and
    clean (xv6/ide.c:95-114, xv6/ide.c:132-149); and ilock and iunlock with icache.lock, whose runs SleepLock maps to runs of
    this machine.
 */
module Sleep {
  import opened Options

  /** Where a process is.  k is the condition it waits for. */
  datatype Pc =
    | Out
    | Want(k: nat)         // before acquire(lk), to wait for k
    | Testing(k: nat)      // has lk, about to test k
    | InSleep(k: nat)      // k was false; in sleep, before acquire(&proc_table_lock)
    | HasBoth(k: nat)      // has both, about to release lk
    | Dozing(k: nat)       // has proc_table_lock, about to become SLEEPING
    | Switching(k: nat)    // SLEEPING, and its CPU still has proc_table_lock
    | Asleep(k: nat)       // SLEEPING
    | Runnable(k: nat)     // woken; will release proc_table_lock and take lk again
    | WantUse              // before acquire(lk), with nothing to wait for
    | Use                  // has lk, and may change what it guards
    | Waking(c: nat)       // in wakeup(c), has proc_table_lock too

  /** ready: the conditions that are true.  owed: those made true whose sleepers have not been woken.  chan: what the
      sleepers of each condition sleep on.  The locks name the process that has them. */
  datatype State = State(ready: set<nat>, owed: set<nat>, chan: seq<nat>, lk: Option<nat>, table: Option<nat>, procs: seq<Pc>)

  datatype Action =
    | Start(p: nat, k: nat) | StartUse(p: nat) | Go(p: nat) | Change(p: nat, ready: set<nat>) | Again(p: nat, k: nat)
    | Wakeup(p: nat, c: nat) | Leave(p: nat) | Kill(p: nat)

  function Set(s: State, p: nat, pc: Pc): State
    requires p < |s.procs|
  {
    s.(procs := s.procs[p := pc])
  }

  predicate On(chan: seq<nat>, k: nat, c: nat) { k < |chan| && chan[k] == c }

  /** wakeup1(c) */
  function WakeAll(procs: seq<Pc>, chan: seq<nat>, c: nat): (r: seq<Pc>)
    ensures |r| == |procs|
    ensures forall p :: 0 <= p < |procs| ==>
              r[p] == if procs[p].Asleep? && On(chan, procs[p].k, c) then Runnable(procs[p].k) else procs[p]
  {
    seq(|procs|, p requires 0 <= p < |procs| =>
      if procs[p].Asleep? && On(chan, procs[p].k, c) then Runnable(procs[p].k) else procs[p])
  }

  ghost predicate Next(s: State, t: State, a: Action) {
    match a
    case Start(p, k) => p < |s.procs| && s.procs[p].Out? && k < |s.chan| && t == Set(s, p, Want(k))
    case StartUse(p) => p < |s.procs| && s.procs[p].Out? && t == Set(s, p, WantUse)
    case Go(p) => p < |s.procs| && Step(s, t, p)
    case Change(p, ready) =>
      p < |s.procs| && s.procs[p].Use? && t == s.(ready := ready, owed := (s.owed + (ready - s.ready)) * ready)
    case Again(p, k) => p < |s.procs| && s.procs[p].Use? && k < |s.chan| && t == Set(s, p, Testing(k))
    case Wakeup(p, c) => p < |s.procs| && s.procs[p].Use? && s.table == None && t == Set(s, p, Waking(c)).(table := Some(p))
    case Leave(p) => p < |s.procs| && s.procs[p].Use? && s.owed == {} && t == Set(s, p, Out).(lk := None)
    case Kill(p) => p < |s.procs| && s.procs[p].Asleep? && s.table == None && t == Set(s, p, Runnable(s.procs[p].k))
  }

  /** The next operation of process p where there is no choice. */
  ghost predicate Step(s: State, t: State, p: nat)
    requires p < |s.procs|
  {
    match s.procs[p]
    case Want(k) => s.lk == None && t == Set(s, p, Testing(k)).(lk := Some(p))
    case WantUse => s.lk == None && t == Set(s, p, Use).(lk := Some(p))
    case Testing(k) => if k in s.ready then t == Set(s, p, Use) else s.owed == {} && t == Set(s, p, InSleep(k))
    case InSleep(k) => s.table == None && t == Set(s, p, HasBoth(k)).(table := Some(p))
    case HasBoth(k) => t == Set(s, p, Dozing(k)).(lk := None)
    case Dozing(k) => t == Set(s, p, Switching(k))
    case Switching(k) => t == Set(s, p, Asleep(k)).(table := None)
    case Runnable(k) => s.table == None && t == Set(s, p, Want(k))
    case Waking(c) =>
      t == Set(s.(procs := WakeAll(s.procs, s.chan, c)), p, Use).(table := None, owed := set k | k in s.owed && !On(s.chan, k, c))
    case _ => false
  }

  // What every step keeps

  predicate HasLk(pc: Pc) { pc.Testing? || pc.InSleep? || pc.HasBoth? || pc.Use? || pc.Waking? }

  predicate HasTable(pc: Pc) { pc.HasBoth? || pc.Dozing? || pc.Switching? || pc.Waking? }

  /** A process that has decided to sleep, or does. */
  predicate Waits(pc: Pc) { pc.InSleep? || pc.HasBoth? || pc.Dozing? || pc.Switching? || pc.Asleep? }

  ghost predicate ProcOk(s: State, p: nat)
    requires p < |s.procs|
  {
    && (HasLk(s.procs[p]) <==> s.lk == Some(p)) && (HasTable(s.procs[p]) <==> s.table == Some(p))
    && (Waits(s.procs[p]) ==> s.procs[p].k !in s.ready || s.procs[p].k in s.owed)
    && (s.procs[p].InSleep? || s.procs[p].HasBoth? ==> s.owed == {})
  }

  ghost predicate Inv(s: State) {
    && (forall p :: 0 <= p < |s.procs| ==> ProcOk(s, p))
    && (s.lk.Some? ==> s.lk.value < |s.procs|) && (s.lk == None ==> s.owed == {})
  }

  lemma ProcFacts(s: State, p: nat)
    requires Inv(s) && p < |s.procs|
    ensures ProcOk(s, p)
  {
  }

  /** The shape of a step: p moves, sleepers may be woken, locks change hands by p only. */
  lemma OthersMove(s: State, t: State, a: Action, p: nat, q: nat)
    requires Inv(s) && Next(s, t, a) && p == a.p && q < |s.procs| && q != p
    ensures |t.procs| == |s.procs|
    ensures t.procs[q] == s.procs[q] || (s.procs[q].Asleep? && t.procs[q] == Runnable(s.procs[q].k))
    ensures (t.lk == Some(q) <==> s.lk == Some(q)) && (t.table == Some(q) <==> s.table == Some(q))
  {
    ProcFacts(s, p);
    hide Inv;
  }

  /** What the step of another process means for a waiter. */
  lemma WaiterKept(s: State, t: State, a: Action, p: nat, q: nat)
    requires Inv(s) && Next(s, t, a) && p == a.p && q < |s.procs| == |t.procs| && q != p && Waits(t.procs[q]) && t.procs[q] == s.procs[q]
    ensures t.procs[q].k !in t.ready || t.procs[q].k in t.owed
    ensures t.procs[q].InSleep? || t.procs[q].HasBoth? ==> t.owed == {}
  {
    ProcFacts(s, p);
    ProcFacts(s, q);
    hide Inv;
  }

  lemma NextKeeps(s: State, t: State, a: Action)
    requires Inv(s) && Next(s, t, a)
    ensures Inv(t)
  {
    var p := a.p;
    ProcFacts(s, p);
    forall q | 0 <= q < |s.procs| && q != p ensures |t.procs| == |s.procs| && ProcOk(t, q) {
      ProcFacts(s, q);
      OthersMove(s, t, a, p, q);
      if Waits(t.procs[q]) && t.procs[q] == s.procs[q] { WaiterKept(s, t, a, p, q); }
    }
    MoverKept(s, t, a);
    hide Next, ProcOk;
  }

  lemma MoverKept(s: State, t: State, a: Action)
    requires Inv(s) && Next(s, t, a)
    ensures |t.procs| == |s.procs| && ProcOk(t, a.p) && (t.lk.Some? ==> t.lk.value < |t.procs|) && (t.lk == None ==> t.owed == {})
  {
    ProcFacts(s, a.p);
  }

  ghost predicate Init(s: State) {
    s.lk == None && s.table == None && s.owed == {} && forall p :: 0 <= p < |s.procs| ==> s.procs[p].Out?
  }

  ghost predicate Run(states: seq<State>, acts: seq<Action>) {
    && |states| == |acts| + 1 && Init(states[0])
    && forall n :: 0 <= n < |acts| ==> StepOf(states[n], states[n + 1], acts[n])
  }

  ghost predicate StepOf(s: State, t: State, a: Action) { Next(s, t, a) }

  lemma {:induction false} RunInv(states: seq<State>, acts: seq<Action>, n: nat)
    requires Run(states, acts) && n < |states|
    ensures Inv(states[n])
  {
    if n == 0 {
      assert Inv(states[0]);
    } else {
      hide Inv, Next;
      RunInv(states, acts, n - 1);
      assert StepOf(states[n - 1], states[n], acts[n - 1]);
      NextKeeps(states[n - 1], states[n], acts[n - 1]);
    }
  }

  /** No lost wakeup: whenever the lock is free, the condition of every sleeper is false. */
  lemma SleepersWait(states: seq<State>, acts: seq<Action>, n: nat, p: nat)
    requires Run(states, acts) && n < |states| && p < |states[n].procs|
    requires states[n].lk == None && states[n].procs[p].Asleep?
    ensures states[n].procs[p].k !in states[n].ready
  {
    RunInv(states, acts, n);
    hide Run;
    ProcFacts(states[n], p);
  }
}
