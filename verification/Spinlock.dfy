/** Spin locks and interrupt nesting (xv6/spinlock.c).

    A step is one machine operation of one CPU: an xchg, a store to lock->cpu, one pushcli or popcli.  The
    fields `locked` and `cpu` of a lock are written at different times, so holding() can see them in any
    mixture.
 */
module Spinlock {
  import opened Options

  /** struct spinlock: `owner` is lock->cpu, None for 0xffffffff. */
  datatype Lock = Lock(locked: bool, owner: Option<nat>)

  /** Where a CPU is in acquire or release. */
  datatype Pc =
    | Out
    | Spinning(l: nat)     // acquire: interrupts are off, xchg not won yet
    | Won(l: nat)          // xchg won, lock->cpu not written yet
    | Cleared(l: nat)      // release: lock->cpu cleared, xchg not done yet
    | Freed(l: nat)        // xchg done, popcli still to come

  /** One CPU: its place, the locks it has acquired, pushcli's counter and saved flag, and the interrupt flag.
      `pushes` counts its own pushcli calls. */
  datatype Cpu = Cpu(pc: Pc, held: set<nat>, ncli: nat, intena: bool, iflag: bool, pushes: nat)

  datatype State = State(locks: seq<Lock>, cpus: seq<Cpu>)

  datatype Action = Push | Pop | SetFlag(on: bool) | Start(l: nat) | Xchg | Record | Release(l: nat) | XchgOff | Done

  /** holding(), as CPU c evaluates it. */
  predicate Holding(k: Lock, c: nat) { k.locked && k.owner == Some(c) }

  function Pushed(x: Cpu): Cpu {
    x.(iflag := false, ncli := x.ncli + 1, intena := if x.ncli == 0 then x.iflag else x.intena)
  }

  function Popped(x: Cpu): Cpu
    requires 0 < x.ncli
  {
    x.(ncli := x.ncli - 1, iflag := if x.ncli == 1 && x.intena then true else x.iflag)
  }

  predicate PcFits(pc: Pc, n: nat) { pc.Out? || pc.l < n }

  ghost predicate Shape(s: State) {
    forall c :: 0 <= c < |s.cpus| ==> PcFits(s.cpus[c].pc, |s.locks|)
  }

  function SetCpu(s: State, c: nat, x: Cpu): State
    requires c < |s.cpus|
  {
    s.(cpus := s.cpus[c := x])
  }

  function SetLock(s: State, l: nat, k: Lock): State
    requires l < |s.locks|
  {
    s.(locks := s.locks[l := k])
  }

  /** CPU c takes step a.  Where the source would panic there is no step. */
  ghost predicate Next(s: State, t: State, c: nat, a: Action)
    requires Shape(s) && c < |s.cpus|
  {
    var x := s.cpus[c];
    match a
    case Push => x.pc.Out? && t == SetCpu(s, c, Pushed(x).(pushes := x.pushes + 1))
    case Pop => x.pc.Out? && 0 < x.pushes && 0 < x.ncli && !x.iflag && t == SetCpu(s, c, Popped(x).(pushes := x.pushes - 1))
    case SetFlag(on) => x.pc.Out? && x.ncli == 0 && t == SetCpu(s, c, x.(iflag := on))
    case Start(l) =>
      && x.pc.Out? && l < |s.locks| && !Holding(s.locks[l], c)
      && t == SetCpu(s, c, Pushed(x).(pc := Spinning(l)))
    case Xchg =>
      && x.pc.Spinning? && !s.locks[x.pc.l].locked
      && t == SetCpu(SetLock(s, x.pc.l, s.locks[x.pc.l].(locked := true)), c, x.(pc := Won(x.pc.l)))
    case Record =>
      && x.pc.Won?
      && t == SetCpu(SetLock(s, x.pc.l, s.locks[x.pc.l].(owner := Some(c))), c, x.(pc := Out, held := x.held + {x.pc.l}))
    case Release(l) =>
      && x.pc.Out? && l < |s.locks| && Holding(s.locks[l], c)
      && t == SetCpu(SetLock(s, l, s.locks[l].(owner := None)), c, x.(pc := Cleared(l), held := x.held - {l}))
    case XchgOff =>
      && x.pc.Cleared?
      && t == SetCpu(SetLock(s, x.pc.l, s.locks[x.pc.l].(locked := false)), c, x.(pc := Freed(x.pc.l)))
    case Done => x.pc.Freed? && 0 < x.ncli && !x.iflag && t == SetCpu(s, c, Popped(x).(pc := Out))
  }

  // What every step keeps

  /** The lock is this CPU's: from winning the xchg of acquire to the xchg of release. */
  predicate Owns(x: Cpu, l: nat) {
    l in x.held || ((x.pc.Won? || x.pc.Cleared?) && x.pc.l == l)
  }

  ghost predicate LockOk(s: State, l: nat)
    requires l < |s.locks|
  {
    && (forall c :: 0 <= c < |s.cpus| ==> (Owns(s.cpus[c], l) ==> s.locks[l].locked))
    && (forall c, d :: 0 <= c < |s.cpus| && 0 <= d < |s.cpus| && Owns(s.cpus[c], l) && Owns(s.cpus[d], l) ==> c == d)
    && (forall c :: 0 <= c < |s.cpus| ==> (s.locks[l].owner == Some(c) <==> l in s.cpus[c].held))
    && (s.locks[l].locked ==> exists c :: 0 <= c < |s.cpus| && Owns(s.cpus[c], l))
  }

  /** Interrupts are off while any lock is held or pushcli is outstanding. */
  ghost predicate CpuOk(x: Cpu) {
    && x.ncli == x.pushes + |x.held| + (if x.pc.Out? then 0 else 1)
    && (0 < x.ncli ==> !x.iflag)
    && ((x.pc.Spinning? || x.pc.Won? || x.pc.Cleared?) ==> x.pc.l !in x.held)
  }

  ghost predicate Inv(s: State) {
    && Shape(s) && (forall l :: 0 <= l < |s.locks| ==> LockOk(s, l)) && forall c :: 0 <= c < |s.cpus| ==> CpuOk(s.cpus[c])
  }

  lemma CpuKeeps(s: State, t: State, c: nat, a: Action)
    requires Shape(s) && c < |s.cpus| && Next(s, t, c, a) && CpuOk(s.cpus[c])
    requires (a.Start? ==> a.l !in s.cpus[c].held) && (a.Release? ==> a.l in s.cpus[c].held)
    ensures |t.cpus| == |s.cpus| && CpuOk(t.cpus[c])
  {
    var x := s.cpus[c];
    if a.Record? { assert |x.held + {x.pc.l}| == |x.held| + 1; }
    if a.Release? { assert |x.held - {a.l}| == |x.held| - 1; }
  }

  /** A lock that the step does not touch. */
  lemma OtherLock(s: State, t: State, c: nat, l: nat)
    requires c < |s.cpus| == |t.cpus| && l < |s.locks| == |t.locks| && LockOk(s, l) && t.locks[l] == s.locks[l]
    requires t.cpus == s.cpus[c := t.cpus[c]]
    requires Owns(t.cpus[c], l) == Owns(s.cpus[c], l) && (l in t.cpus[c].held <==> l in s.cpus[c].held)
    ensures LockOk(t, l)
  {
    forall d | 0 <= d < |t.cpus| ensures Owns(t.cpus[d], l) == Owns(s.cpus[d], l) {}
    if t.locks[l].locked {
      var d :| 0 <= d < |s.cpus| && Owns(s.cpus[d], l);
      assert Owns(t.cpus[d], l);
    }
  }

  lemma XchgKeeps(s: State, t: State, c: nat)
    requires Inv(s) && c < |s.cpus| && Next(s, t, c, Xchg)
    ensures LockOk(t, s.cpus[c].pc.l)
  {
    var l := s.cpus[c].pc.l;
    assert LockOk(s, l);
    assert Owns(t.cpus[c], l);
  }

  lemma RecordKeeps(s: State, t: State, c: nat)
    requires Inv(s) && c < |s.cpus| && Next(s, t, c, Record)
    ensures LockOk(t, s.cpus[c].pc.l) && s.cpus[c].pc.l !in s.cpus[c].held
  {
    var l := s.cpus[c].pc.l;
    assert LockOk(s, l) && CpuOk(s.cpus[c]);
    assert Owns(s.cpus[c], l);
    assert Owns(t.cpus[c], l);
  }

  lemma ReleaseKeeps(s: State, t: State, c: nat, l: nat)
    requires Inv(s) && c < |s.cpus| && Next(s, t, c, Release(l))
    ensures LockOk(t, l) && l in s.cpus[c].held
  {
    assert LockOk(s, l);
    assert Owns(s.cpus[c], l);
    assert Owns(t.cpus[c], l);
  }

  lemma XchgOffKeeps(s: State, t: State, c: nat)
    requires Inv(s) && c < |s.cpus| && Next(s, t, c, XchgOff)
    ensures LockOk(t, s.cpus[c].pc.l)
  {
    var l := s.cpus[c].pc.l;
    assert LockOk(s, l) && CpuOk(s.cpus[c]);
    assert Owns(s.cpus[c], l);
  }

  /** acquire's own test keeps a CPU from waiting for itself. */
  lemma StartFacts(s: State, t: State, c: nat, l: nat)
    requires Inv(s) && c < |s.cpus| && Next(s, t, c, Start(l))
    ensures l !in s.cpus[c].held
  {
    assert LockOk(s, l);
    assert l in s.cpus[c].held ==> Owns(s.cpus[c], l);
  }

  /** The lock a step writes to, if any. */
  function Touched(x: Cpu, a: Action): Option<nat> {
    if a.Release? then Some(a.l)
    else if (a.Xchg? || a.Record? || a.XchgOff?) && !x.pc.Out? then Some(x.pc.l) else None
  }

  lemma TouchedKeeps(s: State, t: State, c: nat, a: Action)
    requires Inv(s) && c < |s.cpus| && Next(s, t, c, a)
    ensures |t.locks| == |s.locks| && (Touched(s.cpus[c], a).Some? ==> Touched(s.cpus[c], a).value < |s.locks|)
    ensures Touched(s.cpus[c], a).Some? ==> LockOk(t, Touched(s.cpus[c], a).value)
    ensures (a.Start? ==> a.l !in s.cpus[c].held) && (a.Release? ==> a.l in s.cpus[c].held)
  {
    hide LockOk, CpuOk;
    match a
    case Start(l) => StartFacts(s, t, c, l);
    case Xchg => XchgKeeps(s, t, c);
    case Record => RecordKeeps(s, t, c);
    case Release(l) => ReleaseKeeps(s, t, c, l);
    case XchgOff => XchgOffKeeps(s, t, c);
    case _ =>
  }

  lemma UntouchedKeeps(s: State, t: State, c: nat, a: Action, l: nat)
    requires Inv(s) && c < |s.cpus| && Next(s, t, c, a) && l < |s.locks| == |t.locks| && Touched(s.cpus[c], a) != Some(l)
    ensures LockOk(t, l)
  {
    assert LockOk(s, l);
    hide LockOk, CpuOk;
    OtherLock(s, t, c, l);
  }

  lemma NextKeeps(s: State, t: State, c: nat, a: Action)
    requires Inv(s) && c < |s.cpus| && Next(s, t, c, a)
    ensures Inv(t)
  {
    hide LockOk, CpuOk, Touched;
    TouchedKeeps(s, t, c, a);
    CpuKeeps(s, t, c, a);
    forall l | 0 <= l < |t.locks| ensures LockOk(t, l) {
      if Touched(s.cpus[c], a) != Some(l) { UntouchedKeeps(s, t, c, a, l); }
    }
  }

  ghost predicate Init(s: State) {
    && (forall l :: 0 <= l < |s.locks| ==> s.locks[l] == Lock(false, None))
    && forall c :: 0 <= c < |s.cpus| ==>
         s.cpus[c].pc.Out? && s.cpus[c].held == {} && s.cpus[c].ncli == 0 && s.cpus[c].pushes == 0
  }

  datatype Event = Event(cpu: nat, act: Action)

  ghost predicate Run(states: seq<State>, events: seq<Event>) {
    && |states| == |events| + 1 && Init(states[0])
    && forall k :: 0 <= k < |events| ==> StepOf(states[k], states[k + 1], events[k])
  }

  ghost predicate StepOf(s: State, t: State, e: Event) { Shape(s) && e.cpu < |s.cpus| && Next(s, t, e.cpu, e.act) }

  lemma {:induction false} RunInv(states: seq<State>, events: seq<Event>, k: nat)
    requires Run(states, events) && k < |states|
    ensures Inv(states[k])
  {
    if k == 0 {
      assert Inv(states[0]);
    } else {
      hide Inv, Next;
      RunInv(states, events, k - 1);
      assert StepOf(states[k - 1], states[k], events[k - 1]);
      NextKeeps(states[k - 1], states[k], events[k - 1].cpu, events[k - 1].act);
    }
  }

  /** In every run: two CPUs never hold a lock together; holding() is exact whatever mixture of the two fields it sees;
      a CPU with a lock has its interrupts off; and the popcli in release does not panic. */
  lemma LocksExclude(states: seq<State>, events: seq<Event>, k: nat, l: nat, c: nat, d: nat)
    requires Run(states, events) && k < |states| && l < |states[k].locks| && c < |states[k].cpus| && d < |states[k].cpus|
    ensures var s := states[k];
            && (Owns(s.cpus[c], l) && Owns(s.cpus[d], l) ==> c == d)
            && (Holding(s.locks[l], c) <==> l in s.cpus[c].held)
            && (s.cpus[c].held != {} ==> !s.cpus[c].iflag)
            && (s.cpus[c].pc.Freed? ==> 0 < s.cpus[c].ncli && !s.cpus[c].iflag)
  {
    RunInv(states, events, k);
    var s := states[k];
    hide Run;
    assert LockOk(s, l) && CpuOk(s.cpus[c]);
    assert l in s.cpus[c].held ==> Owns(s.cpus[c], l);
  }

  /** One step, seen from CPU c: the saved flag changes only when ncli leaves 0, and is put back when it returns to 0. */
  lemma FlagStep(s: State, t: State, e: Event, c: nat)
    requires Inv(s) && StepOf(s, t, e) && c < |s.cpus|
    ensures |t.cpus| == |s.cpus|
    ensures s.cpus[c].ncli == 0 < t.cpus[c].ncli ==> t.cpus[c].intena == s.cpus[c].iflag
    ensures 0 < s.cpus[c].ncli && 0 < t.cpus[c].ncli ==> t.cpus[c].intena == s.cpus[c].intena
    ensures 0 < s.cpus[c].ncli && t.cpus[c].ncli == 0 ==> t.cpus[c].iflag == s.cpus[c].intena
  {
    hide LockOk;
    assert CpuOk(s.cpus[c]);
  }

  /** Between two moments at which ncli is 0, the saved flag is the one there was at the first. */
  lemma {:induction false} FlagSaved(states: seq<State>, events: seq<Event>, j: nat, m: nat, c: nat)
    requires Run(states, events) && j < m < |states| && c < |states[j].cpus| && states[j].cpus[c].ncli == 0
    requires forall i :: j < i <= m ==> c < |states[i].cpus| && 0 < states[i].cpus[c].ncli
    ensures states[m].cpus[c].intena == states[j].cpus[c].iflag
    decreases m
  {
    hide Inv, StepOf;
    RunInv(states, events, m - 1);
    assert StepOf(states[m - 1], states[m], events[m - 1]);
    if j < m - 1 { FlagSaved(states, events, j, m - 1, c); }
    FlagStep(states[m - 1], states[m], events[m - 1], c);
  }

  /** When the last popcli of a nest of pushcli, acquire, release and popcli returns, at k, the interrupt flag is what it
      was before the first, at j. */
  lemma FlagRestored(states: seq<State>, events: seq<Event>, j: nat, k: nat, c: nat)
    requires Run(states, events) && j + 1 < k < |states| && c < |states[j].cpus| && c < |states[k].cpus|
    requires states[j].cpus[c].ncli == 0 == states[k].cpus[c].ncli
    requires forall i :: j < i < k ==> c < |states[i].cpus| && 0 < states[i].cpus[c].ncli
    ensures states[k].cpus[c].iflag == states[j].cpus[c].iflag
  {
    hide Inv, StepOf;
    FlagSaved(states, events, j, k - 1, c);
    RunInv(states, events, k - 1);
    assert StepOf(states[k - 1], states[k], events[k - 1]);
    FlagStep(states[k - 1], states[k], events[k - 1], c);
  }
}
