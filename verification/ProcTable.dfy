/** The loops over proc[] (xv6/proc.c:27-45, xv6/proc.c:315-443), run with proc_table_lock held.
    Each is proved to do what module Proc says of the table. */
module ProcTable {
  import opened Options
  import opened Proc

  /** What wait finds in one scan. */
  datatype Scan = Found(z: nat) | NoZombie(havekids: bool)

  class Procs {
    var proc: Table
    var nextpid: nat

    constructor (t: Table, n: nat)
      ensures proc == t && nextpid == n
    {
      proc, nextpid := t, n;
    }

    /** allocproc: the first free entry, if there is one, with a pid of its own. */
    method Allocproc() returns (i: nat)
      modifies this
      ensures i == FirstUnused(old(proc)) && |proc| == |old(proc)|
      ensures i < |old(proc)| ==>
                proc == old(proc)[i := old(proc)[i].(state := EMBRYO, pid := old(nextpid))] && nextpid == old(nextpid) + 1
      ensures i == |old(proc)| ==> proc == old(proc) && nextpid == old(nextpid)
    {
      i := 0;
      while i < |proc|
        invariant 0 <= i <= |proc| && proc == old(proc) && nextpid == old(nextpid)
        invariant forall j :: 0 <= j < i ==> proc[j].state != UNUSED
      {
        if proc[i].state == UNUSED {
          UnusedIs(proc, i);
          proc := proc[i := proc[i].(state := EMBRYO, pid := nextpid)];
          nextpid := nextpid + 1;
          return;
        }
        i := i + 1;
      }
      UnusedIs(proc, i);
    }

    /** wakeup1 */
    method WakeAll(ch: Chan)
      modifies this`proc
      ensures proc == Wakeup1(old(proc), ch) && |proc| == |old(proc)|
      ensures forall j :: 0 <= j < |proc| ==>
                proc[j] == if old(proc)[j].state == SLEEPING && old(proc)[j].chan == ch
                           then old(proc)[j].(state := RUNNABLE) else old(proc)[j]
    {
      var i := 0;
      while i < |proc|
        invariant 0 <= i <= |proc| == |old(proc)|
        invariant forall j :: 0 <= j < |proc| ==> proc[j] == if j < i then Awake(old(proc)[j], ch) else old(proc)[j]
      {
        if proc[i].state == SLEEPING && proc[i].chan == ch {
          proc := proc[i := proc[i].(state := RUNNABLE)];
        }
        i := i + 1;
      }
    }

    /** kill: false where the source returns -1.  The first entry with that pid is killed, and woken if it sleeps. */
    method KillPid(pid: nat) returns (ok: bool)
      modifies this`proc
      ensures ok <==> exists i :: 0 <= i < |old(proc)| && old(proc)[i].pid == pid
      ensures if ok then FirstPid(old(proc), pid) < |old(proc)| && proc == Kill(old(proc), FirstPid(old(proc), pid))
              else proc == old(proc)
      ensures ok ==> |proc| == |old(proc)| && exists i :: 0 <= i < |proc| && KilledFirst(old(proc), proc, pid, i)
    {
      var i := 0;
      while i < |proc|
        invariant 0 <= i <= |proc| && proc == old(proc) && forall j :: 0 <= j < i ==> proc[j].pid != pid
      {
        if proc[i].pid == pid {
          PidIs(proc, pid, i);
          proc := proc[i := proc[i].(killed := true)];
          if proc[i].state == SLEEPING { proc := proc[i := proc[i].(state := RUNNABLE)]; }
          assert KilledFirst(old(proc), proc, pid, i);
          return true;
        }
        i := i + 1;
      }
      return false;
    }

    /** The part of exit that runs under the lock, up to its call of sched. */
    method ExitScan(cp: nat)
      requires cp < |proc| && INIT < |proc| && cp != INIT
      modifies this`proc
      ensures proc == Exit(old(proc), cp) && |proc| == |old(proc)|
      ensures proc[cp].state == ZOMBIE && !proc[cp].killed
      ensures forall i :: 0 <= i < |proc| ==>
                && proc[i].pid == old(proc)[i].pid && proc[i].chan == old(proc)[i].chan
                && proc[i].parent == (if old(proc)[i].parent == Some(cp) then Some(INIT) else old(proc)[i].parent)
                && (i != cp ==> proc[i].killed == old(proc)[i].killed)
                && (i != cp && proc[i].state != old(proc)[i].state ==>
                      old(proc)[i].state == SLEEPING && proc[i].state == RUNNABLE && old(proc)[i].chan.ProcChan?)
      ensures old(proc)[cp].parent.Some? ==> forall i :: 0 <= i < |proc| && i != cp ==>
                !(proc[i].state == SLEEPING && proc[i].chan == ProcChan(old(proc)[cp].parent.value))
    {
      hide Exit, HasZombie;
      if proc[cp].parent.Some? { WakeAll(ProcChan(proc[cp].parent.value)); }
      ghost var t1 := proc;
      var i := 0;
      ghost var woke := false;
      NoZombieYet(t1, cp);
      while i < |proc|
        invariant 0 <= i <= |proc| == |t1| && (woke <==> HasZombie(t1[..i], cp))
        invariant forall j :: 0 <= j < |t1| ==> proc[j] == Passed(t1, cp, woke, i, j)
      {
        ZombieUpTo(t1, cp, i);
        PassedOn(t1, cp, woke, i, i + 1);
        if proc[i].parent == Some(cp) {
          proc := proc[i := proc[i].(parent := Some(INIT))];
          if proc[i].state == ZOMBIE {
            WakeAll(ProcChan(INIT));
            woke := true;
          }
        }
        i := i + 1;
      }
      assert t1[..i] == t1;
      proc := proc[cp := proc[cp].(killed := false, state := ZOMBIE)];
      ExitIs(old(proc), cp, t1, woke, proc);
      forall i | 0 <= i < |proc| ensures ExitedAt(old(proc), cp, i, proc[i]) { ExitedIs(old(proc), cp, i); }
    }

    /** One scan of wait: the first zombie child is freed; otherwise whether there are children at all. */
    method WaitScan(cp: nat) returns (r: Scan, pid: nat)
      modifies this`proc
      ensures r.Found? ==>
                && r.z < |old(proc)| && ZombieChild(old(proc)[r.z], cp) && pid == old(proc)[r.z].pid
                && proc == Reap(old(proc), r.z) && (forall j :: 0 <= j < r.z ==> !ZombieChild(old(proc)[j], cp))
                && |proc| == |old(proc)| && (forall j :: 0 <= j < |proc| && j != r.z ==> proc[j] == old(proc)[j])
                && proc[r.z].state == UNUSED && proc[r.z].pid == 0 && proc[r.z].parent == None
      ensures r.NoZombie? ==> proc == old(proc) && !HasZombie(proc, cp) && (r.havekids <==> HasChild(proc, cp))
    {
      var havekids := false;
      var i := 0;
      pid := 0;
      while i < |proc|
        invariant 0 <= i <= |proc| && proc == old(proc) && forall j :: 0 <= j < i ==> !ZombieChild(proc[j], cp)
        invariant havekids <==> exists j :: 0 <= j < i && Child(proc[j], cp)
      {
        if proc[i].state != UNUSED && proc[i].parent == Some(cp) {
          if proc[i].state == ZOMBIE {
            pid := proc[i].pid;
            proc := proc[i := proc[i].(state := UNUSED, pid := 0, parent := None)];
            return Found(i), pid;
          }
          havekids := true;
        }
        i := i + 1;
      }
      return NoZombie(havekids), pid;
    }
  }

  /** What kill does to the table, field by field. */
  predicate KilledFirst(t: Table, r: Table, pid: nat, i: nat)
    requires i < |t| == |r|
  {
    && t[i].pid == pid && (forall j :: 0 <= j < i ==> t[j].pid != pid) && (forall j :: 0 <= j < |t| && j != i ==> r[j] == t[j])
    && r[i].killed && r[i].state == (if t[i].state == SLEEPING then RUNNABLE else t[i].state)
    && r[i].pid == t[i].pid && r[i].parent == t[i].parent && r[i].chan == t[i].chan
  }

  /** What exit of cp makes of entry i. */
  ghost predicate ExitedAt(t: Table, cp: nat, i: nat, r: Proc)
    requires cp < |t| && i < |t|
  {
    var x := t[i];
    && r.pid == x.pid && r.chan == x.chan && r.killed == (if i == cp then false else x.killed)
    && r.parent == (if x.parent == Some(cp) then Some(INIT) else x.parent)
    && r.state == (if i == cp then ZOMBIE else if x.state == SLEEPING && Wakes(t, cp, x.chan) then RUNNABLE else x.state)
  }

  lemma ExitedIs(t: Table, cp: nat, i: nat)
    requires cp < |t| && i < |t|
    ensures ExitedAt(t, cp, i, Exit(t, cp)[i])
  {
    hide HasZombie, Exit;
    ExitAt(t, cp, i);
  }

  lemma {:induction false} UnusedIs(t: Table, i: nat)
    requires i <= |t| && (i < |t| ==> t[i].state == UNUSED) && forall j :: 0 <= j < i ==> t[j].state != UNUSED
    ensures FirstUnused(t) == i
  {
  }

  lemma PidIs(t: Table, pid: nat, i: nat)
    requires i < |t| && t[i].pid == pid && forall j :: 0 <= j < i ==> t[j].pid != pid
    ensures FirstPid(t, pid) == i
  {
  }

  /** Entry j once the loop of exit has passed the first i entries, having woken init or not. */
  function Passed(t1: Table, cp: nat, woke: bool, i: nat, j: nat): Proc
    requires j < |t1|
  {
    var x := if j < i then Adopted(t1[j], cp) else t1[j];
    if woke then Awake(x, ProcChan(INIT)) else x
  }

  lemma NoZombieYet(t1: Table, cp: nat)
    ensures !HasZombie(t1[..0], cp)
  {
  }

  lemma ZombieUpTo(t1: Table, cp: nat, i: nat)
    requires i < |t1|
    ensures HasZombie(t1[..i + 1], cp) <==> HasZombie(t1[..i], cp) || ZombieChild(t1[i], cp)
  {
    if HasZombie(t1[..i], cp) {
      var k :| 0 <= k < i && ZombieChild(t1[..i][k], cp);
      assert ZombieChild(t1[..i + 1][k], cp);
    }
    if ZombieChild(t1[i], cp) { assert ZombieChild(t1[..i + 1][i], cp); }
    if HasZombie(t1[..i + 1], cp) && !ZombieChild(t1[i], cp) {
      var k :| 0 <= k < i + 1 && ZombieChild(t1[..i + 1][k], cp);
      assert ZombieChild(t1[..i][k], cp);
    }
  }

  /** Passing entry i. */
  lemma PassedOn(t1: Table, cp: nat, woke: bool, i: nat, k: nat)
    requires i < |t1| && k == i + 1
    ensures Passed(t1, cp, woke, i, i).parent == t1[i].parent
    ensures Passed(t1, cp, woke, i, i).state == ZOMBIE <==> t1[i].state == ZOMBIE
    ensures forall j :: 0 <= j < |t1| && j != i ==> Passed(t1, cp, woke, k, j) == Passed(t1, cp, woke, i, j)
    ensures forall j :: 0 <= j < |t1| ==>
              Passed(t1, cp, true, k, j) == Awake(Passed(t1, cp, woke, k, j), ProcChan(INIT))
  {
  }

  lemma ExitIs(t: Table, cp: nat, t1: Table, woke: bool, r: Table)
    requires cp < |t| && INIT < |t| && |t1| == |t| == |r|
    requires t1 == if t[cp].parent.Some? then Wakeup1(t, ProcChan(t[cp].parent.value)) else t
    requires woke <==> HasZombie(t1, cp)
    requires forall j :: 0 <= j < |t| ==>
               r[j] == var x := Passed(t1, cp, woke, |t1|, j); if j == cp then x.(killed := false, state := ZOMBIE) else x
    ensures r == Exit(t, cp)
  {
    hide HasZombie;
  }
}
