/** Pipes (xv6/pipe.c:60-120): a ring of PIPESIZE bytes with 32-bit indices that wrap around, shared by
    readers and writers that sleep and wake each other. */
module Pipe {
  import opened Options
  import opened FsBytes

  const PIPESIZE: nat := 512
  const WRAP: nat := 0x1_0000_0000

  // The ring

  datatype Ring = Ring(data: seq<byte>, readp: nat, writep: nat)

  /** pipewrite's test for a full pipe, in unsigned 32-bit arithmetic. */
  predicate Full(b: Ring) { b.writep == (b.readp + PIPESIZE) % WRAP }

  predicate Empty(b: Ring) { b.readp == b.writep }

  /** pipewrite stores one byte. */
  function Put(b: Ring, x: byte): Ring
    requires |b.data| == PIPESIZE
  {
    Ring(b.data[b.writep % PIPESIZE := x], b.readp, (b.writep + 1) % WRAP)
  }

  /** The byte piperead copies next. */
  function Head(b: Ring): byte
    requires |b.data| == PIPESIZE
  {
    b.data[b.readp % PIPESIZE]
  }

  function Advance(b: Ring): Ring { b.(readp := (b.readp + 1) % WRAP) }

  /** The ring holds what was stored and not yet taken: bytes r and up of the whole history. */
  ghost predicate Spells(b: Ring, stored: seq<byte>, r: nat) {
    && |b.data| == PIPESIZE && r <= |stored| <= r + PIPESIZE
    && b.readp == r % WRAP && b.writep == |stored| % WRAP
    && forall k :: r <= k < |stored| ==> b.data[k % PIPESIZE] == stored[k]
  }

  lemma WrapSlot(k: nat)
    ensures (k % WRAP) % PIPESIZE == k % PIPESIZE
    ensures (k % WRAP + 1) % WRAP == (k + 1) % WRAP
    ensures (k % WRAP + PIPESIZE) % WRAP == (k + PIPESIZE) % WRAP
  {
    var q := k / WRAP;
    assert k == WRAP * q + k % WRAP;
    assert WRAP * q == PIPESIZE * (0x80_0000 * q);
  }

  /** The tests on wrapped indices are tests on the true ones. */
  lemma TestsAreTrue(b: Ring, stored: seq<byte>, r: nat)
    requires Spells(b, stored, r)
    ensures Full(b) <==> |stored| == r + PIPESIZE
    ensures Empty(b) <==> |stored| == r
  {
    WrapSlot(r);
    SameMod(|stored|, r + PIPESIZE);
    SameMod(|stored|, r);
  }

  lemma SpellsFits(b: Ring, stored: seq<byte>, r: nat)
    requires Spells(b, stored, r)
    ensures r <= |stored| <= r + PIPESIZE
  {
  }

  lemma SameMod(a: nat, b: nat)
    requires a - PIPESIZE <= b <= a + PIPESIZE
    ensures a % WRAP == b % WRAP <==> a == b
  {
  }

  lemma SlotsDiffer(j: nat, k: nat)
    requires j < k < j + PIPESIZE
    ensures j % PIPESIZE != k % PIPESIZE
  {
  }

  lemma PutSpells(b: Ring, stored: seq<byte>, r: nat, x: byte)
    requires Spells(b, stored, r) && !Full(b)
    ensures Spells(Put(b, x), stored + [x], r)
  {
    TestsAreTrue(b, stored, r);
    WrapSlot(|stored|);
    var c, t := Put(b, x), stored + [x];
    forall k | r <= k < |t| ensures c.data[k % PIPESIZE] == t[k] {
      if k < |stored| { SlotsDiffer(k, |stored|); }
    }
  }

  lemma HeadIs(b: Ring, stored: seq<byte>, r: nat)
    requires Spells(b, stored, r) && !Empty(b)
    ensures r < |stored| && Head(b) == stored[r] && Spells(Advance(b), stored, r + 1)
  {
    TestsAreTrue(b, stored, r);
    WrapSlot(r);
  }

  /** The buffer as pipewrite and piperead change it, with p->lock held. */
  class Buffer {
    var data: array<byte>
    var readp: nat
    var writep: nat
    ghost var stored: seq<byte>
    ghost var taken: nat

    ghost predicate Valid()
      reads this, data
    {
      data.Length == PIPESIZE && Spells(Ring(data[..], readp, writep), stored, taken)
    }

    constructor ()
      ensures Valid() && stored == [] && taken == 0 && fresh(data)
    {
      data := new byte[PIPESIZE](_ => 0);
      readp, writep := 0, 0;
      stored, taken := [], 0;
    }

    /** The loop of pipewrite, from byte i until it is done or would sleep. */
    method StoreFrom(addr: seq<byte>, i: nat) returns (j: nat)
      requires Valid() && i <= |addr|
      modifies this`writep, this`stored, data
      ensures Valid() && i <= j <= |addr| && stored == old(stored) + addr[i..j]
      ensures j < |addr| ==> |stored| == taken + PIPESIZE
      ensures |addr| - i <= PIPESIZE - (|old(stored)| - taken) ==> j == |addr|
    {
      hide Spells;
      SpellsFits(Ring(data[..], readp, writep), stored, taken);
      j := i;
      assert addr[i..i] == [];
      while j < |addr|
        invariant Valid() && i <= j <= |addr| && stored == old(stored) + addr[i..j]
      {
        ghost var b := Ring(data[..], readp, writep);
        TestsAreTrue(b, stored, taken);
        if writep == (readp + PIPESIZE) % WRAP { return; }
        PutSpells(b, stored, taken, addr[j]);
        data[writep % PIPESIZE] := addr[j];
        writep := (writep + 1) % WRAP;
        stored := stored + [addr[j]];
        assert addr[i..j + 1] == addr[i..j] + [addr[j]];
        j := j + 1;
      }
    }

    /** The loop of piperead: up to n bytes, in order. */
    method Take(n: nat) returns (got: seq<byte>)
      requires Valid()
      modifies this`readp, this`taken
      ensures Valid() && taken == old(taken) + |got| <= |stored| && got == stored[old(taken)..taken]
      ensures |got| == if n <= |stored| - old(taken) then n else |stored| - old(taken)
    {
      hide Spells;
      SpellsFits(Ring(data[..], readp, writep), stored, taken);
      got := [];
      ghost var r := taken;
      while |got| < n
        invariant Valid() && |got| <= n && taken == r + |got| <= |stored| && got == stored[r..taken]
        decreases n - |got|
      {
        ghost var b := Ring(data[..], readp, writep);
        TestsAreTrue(b, stored, taken);
        if readp == writep { return; }
        HeadIs(b, stored, taken);
        got := got + [data[readp % PIPESIZE]];
        readp := (readp + 1) % WRAP;
        taken := taken + 1;
      }
    }
  }

  // Readers and writers

  datatype Pc =
    | Out
    | WantWrite(buf: seq<byte>, i: nat)     // pipewrite: about to take p->lock, with i bytes stored
    | InWrite(buf: seq<byte>, i: nat)       // has the lock, at the head of the loop
    | WriteTested(buf: seq<byte>, i: nat)   // has the lock; the pipe is full, cp->killed was clear, readers are woken
    | WriterAsleep(buf: seq<byte>, i: nat)  // asleep on &p->writep
    | WantRead(n: nat)                      // piperead: about to take p->lock
    | InRead(n: nat)                        // has the lock, at the head of the waiting loop
    | ReadTested(n: nat)                    // has the lock; the pipe is empty, cp->killed was clear
    | ReaderAsleep(n: nat)                  // asleep on &p->readp
    | Copying(n: nat, got: seq<byte>)       // has the lock, in the copying loop

  /** killed is cp->killed, by process; kill sets it at any time, whatever the process is doing.  stored and results are
      the history: all bytes pipewrite stored, and what each piperead returned. */
  datatype State = State(ring: Ring, readopen: bool, writeopen: bool, lock: Option<nat>, procs: seq<Pc>, killed: seq<bool>,
                         stored: seq<byte>, results: seq<seq<byte>>)

  datatype Action =
    | Write(p: nat, buf: seq<byte>) | Read(p: nat, n: nat) | Acquire(p: nat) | Go(p: nat)
    | Kill(p: nat) | Exit(p: nat) | Close(writable: bool)

  predicate HasLock(pc: Pc) { pc.InWrite? || pc.WriteTested? || pc.InRead? || pc.ReadTested? || pc.Copying? }

  /** wakeup(&p->readp) */
  function WakeReaders(procs: seq<Pc>): (r: seq<Pc>)
    ensures |r| == |procs|
    ensures forall p :: 0 <= p < |procs| ==> r[p] == if procs[p].ReaderAsleep? then WantRead(procs[p].n) else procs[p]
  {
    seq(|procs|, p requires 0 <= p < |procs| => if procs[p].ReaderAsleep? then WantRead(procs[p].n) else procs[p])
  }

  /** wakeup(&p->writep) */
  function WakeWriters(procs: seq<Pc>): (r: seq<Pc>)
    ensures |r| == |procs|
    ensures forall p :: 0 <= p < |procs| ==>
              r[p] == if procs[p].WriterAsleep? then WantWrite(procs[p].buf, procs[p].i) else procs[p]
  {
    seq(|procs|, p requires 0 <= p < |procs| =>
      if procs[p].WriterAsleep? then WantWrite(procs[p].buf, procs[p].i) else procs[p])
  }

  function Set(s: State, p: nat, pc: Pc): State
    requires p < |s.procs|
  {
    s.(procs := s.procs[p := pc])
  }

  /** A sleeper that has been killed or woken; others are where they were. */
  function Roused(pc: Pc): Pc {
    match pc
    case WriterAsleep(buf, i) => WantWrite(buf, i)
    case ReaderAsleep(n) => WantRead(n)
    case _ => pc
  }

  /** A killed process makes no more system calls: it exits, and its place is free for another. */
  ghost predicate Next(s: State, t: State, a: Action)
    requires Shape(s)
  {
    match a
    case Write(p, buf) => p < |s.procs| && s.procs[p].Out? && !s.killed[p] && t == Set(s, p, WantWrite(buf, 0))
    case Read(p, n) => p < |s.procs| && s.procs[p].Out? && !s.killed[p] && t == Set(s, p, WantRead(n))
    case Acquire(p) =>
      && p < |s.procs| && s.lock == None
      && (|| (s.procs[p].WantWrite? && t == Set(s, p, InWrite(s.procs[p].buf, s.procs[p].i)).(lock := Some(p)))
          || (s.procs[p].WantRead? && t == Set(s, p, InRead(s.procs[p].n)).(lock := Some(p))))
    case Go(p) => p < |s.procs| && Step(s, t, p)
    case Kill(p) => p < |s.procs| && t == Set(s, p, Roused(s.procs[p])).(killed := s.killed[p := true])
    case Exit(p) => p < |s.procs| && s.procs[p].Out? && s.killed[p] && t == s.(killed := s.killed[p := false])
    case Close(writable) =>
      && s.lock == None
      && t == if writable then s.(writeopen := false, procs := WakeReaders(s.procs))
              else s.(readopen := false, procs := WakeWriters(s.procs))
  }

  ghost predicate Shape(s: State) { |s.ring.data| == PIPESIZE && |s.killed| == |s.procs| }

  /** The next thing a process does while it has the lock. */
  ghost predicate Step(s: State, t: State, p: nat)
    requires Shape(s) && p < |s.procs|
  {
    match s.procs[p]
    case InWrite(buf, i) =>
      if i >= |buf| then t == Set(s.(procs := WakeReaders(s.procs)), p, Out).(lock := None)
      else if !Full(s.ring) then
        t == Set(s, p, InWrite(buf, i + 1)).(ring := Put(s.ring, buf[i]), stored := s.stored + [buf[i]])
      else if s.killed[p] || !s.readopen then t == Set(s, p, Out).(lock := None)    // return -1
      else t == Set(s.(procs := WakeReaders(s.procs)), p, WriteTested(buf, i))
    case WriteTested(buf, i) => t == Set(s, p, WriterAsleep(buf, i)).(lock := None)
    case InRead(n) =>
      if !(Empty(s.ring) && s.writeopen) then t == Set(s, p, Copying(n, []))
      else if s.killed[p] then t == Set(s, p, Out).(lock := None)                   // return -1
      else t == Set(s, p, ReadTested(n))
    case ReadTested(n) => t == Set(s, p, ReaderAsleep(n)).(lock := None)
    case Copying(n, got) =>
      if |got| >= n || Empty(s.ring) then
        t == Set(s.(procs := WakeWriters(s.procs)), p, Out).(lock := None, results := s.results + [got])
      else t == Set(s, p, Copying(n, got + [Head(s.ring)])).(ring := Advance(s.ring))
    case _ => false
  }

  function Concat(xs: seq<seq<byte>>): seq<byte> {
    if xs == [] then [] else Concat(xs[..|xs| - 1]) + xs[|xs| - 1]
  }

  /** What the reader that has the lock has copied so far. */
  function Current(s: State): seq<byte> {
    if s.lock.Some? && s.lock.value < |s.procs| && s.procs[s.lock.value].Copying? then s.procs[s.lock.value].got else []
  }

  function Taken(s: State): seq<byte> { Concat(s.results) + Current(s) }

  ghost predicate ProcOk(s: State, p: nat)
    requires p < |s.procs|
  {
    && (HasLock(s.procs[p]) <==> s.lock == Some(p))
    && (s.procs[p].WriterAsleep? ==> (Full(s.ring) && s.readopen) || Unfinished(s))
    && (s.procs[p].WriteTested? ==> Full(s.ring) && s.readopen)
    && (s.procs[p].ReadTested? ==> Empty(s.ring) && s.writeopen)
    && (s.procs[p].Copying? && s.procs[p].got == [] && Empty(s.ring) ==> !s.writeopen)
    && (s.procs[p].WantWrite? || s.procs[p].InWrite? || s.procs[p].WriteTested? || s.procs[p].WriterAsleep? ==>
          s.procs[p].i <= |s.procs[p].buf|)
  }

  /** A reader is copying, and will wake the writers. */
  ghost predicate Unfinished(s: State) {
    s.lock.Some? && s.lock.value < |s.procs| && s.procs[s.lock.value].Copying?
  }

  ghost predicate Inv(s: State) {
    && Spells(s.ring, s.stored, |Taken(s)|) && Taken(s) <= s.stored && |s.killed| == |s.procs|
    && (s.lock.Some? ==> s.lock.value < |s.procs|)
    && forall p :: 0 <= p < |s.procs| ==> ProcOk(s, p)
  }

  // Proofs

  /** Nothing happens to the ring, and only p and sleepers move. */
  lemma QuietKeeps(s: State, t: State, p: nat)
    requires Inv(s) && p < |s.procs| == |t.procs| && t.ring == s.ring && t.stored == s.stored && t.results == s.results
    requires t.readopen == s.readopen && t.writeopen == s.writeopen && |t.killed| == |s.killed|
    requires (t.lock == s.lock) || (s.lock == None && t.lock == Some(p)) || (s.lock == Some(p) && t.lock == None)
    requires Current(s) == Current(t) && (Unfinished(s) ==> Unfinished(t))
    requires forall q :: 0 <= q < |s.procs| && q != p ==>
               || t.procs[q] == s.procs[q]
               || (s.procs[q].ReaderAsleep? && t.procs[q].WantRead?)
               || (s.procs[q].WriterAsleep? && t.procs[q] == WantWrite(s.procs[q].buf, s.procs[q].i))
    requires ProcOk(t, p)
    ensures Inv(t)
  {
    hide Full, Empty, Spells, Current, Unfinished;
    forall q | 0 <= q < |t.procs| ensures ProcOk(t, q) { assert ProcOk(s, q) && ProcOk(s, p); }
  }

  lemma StoreKeeps(s: State, t: State, p: nat)
    requires Inv(s) && p < |s.procs| && s.procs[p].InWrite? && s.procs[p].i < |s.procs[p].buf| && !Full(s.ring)
    requires Step(s, t, p)
    ensures Inv(t)
  {
    var x := s.procs[p].buf[s.procs[p].i];
    assert ProcOk(s, p);
    PutSpells(s.ring, s.stored, |Taken(s)|, x);
    TestsAreTrue(s.ring, s.stored, |Taken(s)|);
    TestsAreTrue(t.ring, t.stored, |Taken(s)|);
    hide Full, Empty, Spells, Put;
    forall q | 0 <= q < |t.procs| ensures ProcOk(t, q) { assert ProcOk(s, q); }
  }

  lemma TakeKeeps(s: State, t: State, p: nat)
    requires Inv(s) && p < |s.procs| && s.procs[p].Copying? && |s.procs[p].got| < s.procs[p].n && !Empty(s.ring)
    requires Step(s, t, p)
    ensures Inv(t)
  {
    assert |s.ring.data| == PIPESIZE;
    hide Full, Empty, Spells, Head, Advance, Concat;
    assert ProcOk(s, p);
    HeadIs(s.ring, s.stored, |Taken(s)|);
    assert Taken(t) == Taken(s) + [Head(s.ring)];
    assert s.stored[..|Taken(s)|] == Taken(s);
    forall q | 0 <= q < |t.procs| ensures ProcOk(t, q) { assert ProcOk(s, q); }
  }

  lemma ReturnKeeps(s: State, t: State, p: nat)
    requires Inv(s) && p < |s.procs| && s.procs[p].Copying? && (s.procs[p].n <= |s.procs[p].got| || Empty(s.ring))
    requires Step(s, t, p)
    ensures Inv(t)
  {
    assert ProcOk(s, p);
    hide Full, Empty, Spells;
    assert t.results[..|s.results|] == s.results;
    assert Taken(t) == Taken(s);
    forall q | 0 <= q < |t.procs| ensures ProcOk(t, q) { assert ProcOk(s, q); }
  }

  lemma ProcFacts(s: State, p: nat)
    requires Inv(s) && p < |s.procs|
    ensures ProcOk(s, p)
  {
  }

  lemma LockFacts(s: State)
    requires Inv(s)
    ensures s.lock.Some? ==> s.lock.value < |s.procs| && HasLock(s.procs[s.lock.value])
    ensures |s.killed| == |s.procs|
  {
    if s.lock.Some? { ProcFacts(s, s.lock.value); }
  }

  lemma WriterKeeps(s: State, t: State, p: nat)
    requires Inv(s) && p < |s.procs| && Step(s, t, p) && (s.procs[p].InWrite? || s.procs[p].WriteTested?)
    ensures Inv(t)
  {
    hide Inv, Full, Empty, Put, Advance, Head;
    ProcFacts(s, p);
    if s.procs[p].InWrite? && s.procs[p].i < |s.procs[p].buf| && !Full(s.ring) {
      StoreKeeps(s, t, p);
    } else {
      QuietKeeps(s, t, p);
    }
  }

  lemma ReaderKeeps(s: State, t: State, p: nat)
    requires Inv(s) && p < |s.procs| && Step(s, t, p) && (s.procs[p].InRead? || s.procs[p].ReadTested?)
    ensures Inv(t)
  {
    hide Inv, Full, Empty, Put, Advance, Head;
    ProcFacts(s, p);
    QuietKeeps(s, t, p);
  }

  lemma StepKeeps(s: State, t: State, p: nat)
    requires Inv(s) && p < |s.procs| && Step(s, t, p)
    ensures Inv(t)
  {
    hide Inv, Full, Empty, Put, Advance, Head;
    match s.procs[p]
    case InWrite(_, _) => WriterKeeps(s, t, p);
    case WriteTested(_, _) => WriterKeeps(s, t, p);
    case InRead(_) => ReaderKeeps(s, t, p);
    case ReadTested(_) => ReaderKeeps(s, t, p);
    case Copying(n, got) =>
      if |got| < n && !Empty(s.ring) { TakeKeeps(s, t, p); } else { ReturnKeeps(s, t, p); }
  }

  lemma CallKeeps(s: State, t: State, a: Action)
    requires Inv(s) && Next(s, t, a) && (a.Write? || a.Read? || a.Kill? || a.Exit?)
    ensures Inv(t)
  {
    hide Inv, Step, Full, Empty;
    ProcFacts(s, a.p);
    LockFacts(s);
    QuietKeeps(s, t, a.p);
  }

  lemma LockKeeps(s: State, t: State, a: Action)
    requires Inv(s) && Next(s, t, a) && a.Acquire?
    ensures Inv(t)
  {
    hide Inv, Step, Full, Empty;
    ProcFacts(s, a.p);
    QuietKeeps(s, t, a.p);
  }

  lemma CloseKeeps(s: State, t: State, writable: bool)
    requires Inv(s) && Next(s, t, Close(writable))
    ensures Inv(t)
  {
    hide Full, Empty, Spells;
    forall q | 0 <= q < |t.procs| ensures ProcOk(t, q) { assert ProcOk(s, q); }
  }

  lemma NextKeeps(s: State, t: State, a: Action)
    requires Shape(s) && Inv(s) && Next(s, t, a)
    ensures Inv(t)
  {
    hide Inv, Step, Full, Empty;
    match a
    case Go(p) => StepKeeps(s, t, p);
    case Close(writable) => CloseKeeps(s, t, writable);
    case Acquire(_) => LockKeeps(s, t, a);
    case _ => CallKeeps(s, t, a);
  }

  // Every run

  ghost predicate Init(s: State) {
    && |s.ring.data| == PIPESIZE && s.ring.readp == s.ring.writep == 0 && s.readopen && s.writeopen && s.lock == None
    && s.stored == [] && s.results == [] && |s.killed| == |s.procs| && forall p :: 0 <= p < |s.procs| ==> s.procs[p].Out?
  }

  ghost predicate Run(states: seq<State>, acts: seq<Action>) {
    && |states| == |acts| + 1 && Init(states[0])
    && forall k :: 0 <= k < |acts| ==> StepOf(states[k], states[k + 1], acts[k])
  }

  ghost predicate StepOf(s: State, t: State, a: Action) { Shape(s) && Next(s, t, a) }

  lemma {:induction false} RunInv(states: seq<State>, acts: seq<Action>, k: nat)
    requires Run(states, acts) && k < |states|
    ensures Inv(states[k])
  {
    if k == 0 {
      assert Taken(states[0]) == [];
    } else {
      RunInv(states, acts, k - 1);
      hide Inv, Next;
      assert StepOf(states[k - 1], states[k], acts[k - 1]);
      NextKeeps(states[k - 1], states[k], acts[k - 1]);
    }
  }

  /** In every run the reads, one after another, return a prefix of the bytes stored, in order; at most PIPESIZE bytes
      are in the pipe; and, when the lock is free, a sleeping writer means a full pipe with its read end open. */
  lemma PipeIsFifo(states: seq<State>, acts: seq<Action>, k: nat, p: nat)
    requires Run(states, acts) && k < |states| && p < |states[k].procs|
    ensures var s := states[k];
            && Concat(s.results) <= s.stored && Taken(s) <= s.stored && |s.stored| <= |Taken(s)| + PIPESIZE
            && (s.lock == None && s.procs[p].WriterAsleep? ==> |s.stored| == |Taken(s)| + PIPESIZE && s.readopen)
  {
    RunInv(states, acts, k);
    var s := states[k];
    hide Run;
    assert ProcOk(s, p);
    TestsAreTrue(s.ring, s.stored, |Taken(s)|);
    assert Concat(s.results) <= Taken(s);
  }

  /** piperead of n > 0 bytes returns nothing only if the pipe is empty and its write end closed. */
  lemma ReadsNothing(states: seq<State>, acts: seq<Action>, k: nat, p: nat)
    requires Run(states, acts) && 0 < k < |states| && k <= |acts| && acts[k - 1] == Go(p)
    requires p < |states[k - 1].procs| && states[k - 1].procs[p].Copying? && 0 < states[k - 1].procs[p].n
    requires |states[k].results| == |states[k - 1].results| + 1 && states[k].results[|states[k - 1].results|] == []
    ensures var s := states[k - 1]; |s.stored| == |Taken(s)| && !s.writeopen
  {
    RunInv(states, acts, k - 1);
    var s := states[k - 1];
    assert StepOf(s, states[k], acts[k - 1]);
    hide Run;
    assert ProcOk(s, p);
    TestsAreTrue(s.ring, s.stored, |Taken(s)|);
  }

  // Whose bytes they are

  /** The latest pipewrite that p has called, as an index of acts; -1 if there is none. */
  function LastWrite(acts: seq<Action>, p: nat): (j: int)
    ensures -1 <= j < |acts| && (0 <= j ==> acts[j].Write? && acts[j].p == p)
  {
    if acts == [] then -1
    else
      var n := |acts| - 1;
      if acts[n].Write? && acts[n].p == p then n else LastWrite(acts[..n], p)
  }

  /** The call that stored each byte: when a byte is stored, by whoever moves, it is that process's latest call. */
  ghost function Writers(states: seq<State>, acts: seq<Action>, k: nat): seq<int>
    requires |states| == |acts| + 1 && k < |states|
  {
    if k == 0 then []
    else if acts[k - 1].Go? && |states[k].stored| == |states[k - 1].stored| + 1
    then Writers(states, acts, k - 1) + [LastWrite(acts[..k - 1], acts[k - 1].p)]
    else Writers(states, acts, k - 1)
  }

  /** The bytes that call j stored, in order. */
  function BytesOf(stored: seq<byte>, writers: seq<int>, j: int): seq<byte>
    requires |stored| == |writers|
  {
    if stored == [] then []
    else
      var n := |stored| - 1;
      BytesOf(stored[..n], writers[..n], j) + if writers[n] == j then [stored[n]] else []
  }

  lemma BytesMore(stored: seq<byte>, writers: seq<int>, x: byte, w: int, j: int)
    requires |stored| == |writers|
    ensures BytesOf(stored + [x], writers + [w], j) == BytesOf(stored, writers, j) + if w == j then [x] else []
  {
    assert (stored + [x])[..|stored|] == stored && (writers + [w])[..|stored|] == writers;
  }

  lemma {:induction false} BytesNone(stored: seq<byte>, writers: seq<int>, j: int)
    requires |stored| == |writers| && j !in writers
    ensures BytesOf(stored, writers, j) == []
    decreases |stored|
  {
    if stored != [] {
      var n := |stored| - 1;
      assert writers[n] in writers;
      BytesNone(stored[..n], writers[..n], j);
    }
  }

  lemma {:induction false} BytesAll(stored: seq<byte>, writers: seq<int>, j: int)
    requires |stored| == |writers| && forall i :: 0 <= i < |writers| ==> writers[i] == j
    ensures BytesOf(stored, writers, j) == stored
    decreases |stored|
  {
    if stored != [] {
      var n := |stored| - 1;
      BytesAll(stored[..n], writers[..n], j);
      assert stored[..n] + [stored[n]] == stored;
    }
  }

  predicate InCall(pc: Pc) { pc.WantWrite? || pc.InWrite? || pc.WriteTested? || pc.WriterAsleep? }

  /** A process in pipewrite has stored the first i bytes of what it was called with. */
  ghost predicate CallOk(s: State, acts: seq<Action>, w: seq<int>, p: nat)
    requires p < |s.procs| && |w| == |s.stored|
  {
    InCall(s.procs[p]) ==>
      && s.procs[p].i <= |s.procs[p].buf|
      && var j := LastWrite(acts, p);
         0 <= j && acts[j] == Write(p, s.procs[p].buf) && BytesOf(s.stored, w, j) == s.procs[p].buf[..s.procs[p].i]
  }

  ghost predicate Logged(s: State, acts: seq<Action>, w: seq<int>) {
    && |w| == |s.stored| && (forall i :: 0 <= i < |w| ==> 0 <= w[i] < |acts| && acts[w[i]].Write?)
    && (forall j :: 0 <= j < |acts| && acts[j].Write? ==> BytesOf(s.stored, w, j) <= acts[j].buf)
    && forall p :: 0 <= p < |s.procs| ==> CallOk(s, acts, w, p)
  }

  lemma LastWriteStep(acts: seq<Action>, a: Action, p: nat)
    ensures LastWrite(acts + [a], p) == if a.Write? && a.p == p then |acts| else LastWrite(acts, p)
  {
    assert (acts + [a])[..|acts|] == acts;
  }

  /** A byte is stored: by the process that moves, and it is the next of its call. */
  lemma StoreLogged(s: State, t: State, acts: seq<Action>, w: seq<int>, p: nat)
    requires Shape(s) && Logged(s, acts, w) && p < |s.procs| && Step(s, t, p)
    requires s.procs[p].InWrite? && s.procs[p].i < |s.procs[p].buf| && !Full(s.ring)
    ensures |t.stored| == |s.stored| + 1 && Logged(t, acts + [Go(p)], w + [LastWrite(acts, p)])
  {
    hide Full, Put, LastWrite, BytesOf;
    var j, a := LastWrite(acts, p), Go(p);
    assert CallOk(s, acts, w, p);
    var buf, i := s.procs[p].buf, s.procs[p].i;
    assert buf[..i] + [buf[i]] == buf[..i + 1];
    forall q: nat ensures LastWrite(acts + [a], q) == LastWrite(acts, q) { LastWriteStep(acts, a, q); }
    forall k: int
      ensures BytesOf(t.stored, w + [j], k) == BytesOf(s.stored, w, k) + if j == k then [buf[i]] else []
    {
      BytesMore(s.stored, w, buf[i], j, k);
    }
    forall q | 0 <= q < |t.procs| ensures CallOk(t, acts + [a], w + [j], q) { assert CallOk(s, acts, w, q); }
  }

  /** pipewrite is called. */
  lemma CallLogged(s: State, t: State, acts: seq<Action>, w: seq<int>, a: Action)
    requires Shape(s) && Logged(s, acts, w) && Next(s, t, a) && a.Write?
    ensures t.stored == s.stored && Logged(t, acts + [a], w)
  {
    hide LastWrite, BytesOf;
    forall q: nat ensures LastWrite(acts + [a], q) == if a.p == q then |acts| else LastWrite(acts, q) { LastWriteStep(acts, a, q); }
    BytesNone(s.stored, w, |acts|);
    forall q | 0 <= q < |t.procs| ensures CallOk(t, acts + [a], w, q) { assert CallOk(s, acts, w, q); }
  }

  /** Nobody is further in a call, or in another one. */
  ghost predicate SameCalls(s: State, t: State) {
    && |t.procs| == |s.procs|
    && forall q :: 0 <= q < |t.procs| && InCall(t.procs[q]) ==>
         InCall(s.procs[q]) && t.procs[q].buf == s.procs[q].buf && t.procs[q].i == s.procs[q].i
  }

  lemma OtherLogged(s: State, t: State, acts: seq<Action>, w: seq<int>, a: Action)
    requires Logged(s, acts, w) && t.stored == s.stored && SameCalls(s, t) && !a.Write?
    ensures Logged(t, acts + [a], w)
  {
    hide LastWrite, BytesOf;
    forall q: nat ensures LastWrite(acts + [a], q) == LastWrite(acts, q) { LastWriteStep(acts, a, q); }
    forall q | 0 <= q < |t.procs| ensures CallOk(t, acts + [a], w, q) { assert CallOk(s, acts, w, q); }
  }

  predicate Stores(s: State, a: Action) {
    && a.Go? && a.p < |s.procs| && s.procs[a.p].InWrite? && s.procs[a.p].i < |s.procs[a.p].buf| && !Full(s.ring)
  }

  lemma GoSteps(s: State, t: State, a: Action)
    requires Shape(s) && Next(s, t, a) && Stores(s, a)
    ensures Step(s, t, a.p)
  {
  }

  lemma EmptyLogged(s: State)
    requires Init(s)
    ensures Logged(s, [], [])
  {
  }

  /** Where a process can get to by a step of its own. */
  predicate PcMove(x: Pc, y: Pc) {
    match x
    case InWrite(buf, i) => y == Out || y == InWrite(buf, i + 1) || y == WriteTested(buf, i)
    case WriteTested(buf, i) => y == WriterAsleep(buf, i)
    case InRead(n) => y == Out || y == Copying(n, []) || y == ReadTested(n)
    case ReadTested(n) => y == ReaderAsleep(n)
    case Copying(n, got) => y == Out || (|got| < n && y.Copying? && y.n == n && |y.got| == |got| + 1)
    case _ => false
  }

  lemma MoverIs(s: State, t: State, p: nat)
    requires Shape(s) && p < |s.procs| && Step(s, t, p)
    ensures |t.procs| == |s.procs| && PcMove(s.procs[p], t.procs[p])
    ensures !Stores(s, Go(p)) ==> t.stored == s.stored && (s.procs[p].InWrite? ==> !t.procs[p].InWrite?)
    ensures s.procs[p].InWrite? && t.procs[p].Out? ==>
              |s.procs[p].buf| <= s.procs[p].i || (Full(s.ring) && (s.killed[p] || !s.readopen))
  {
    hide Full, Empty, Put, Advance, Head;
  }

  lemma OthersStay(s: State, t: State, p: nat, q: nat)
    requires Shape(s) && p < |s.procs| && Step(s, t, p) && q < |s.procs| && q != p
    ensures q < |t.procs| && (t.procs[q] == s.procs[q] || t.procs[q] == Roused(s.procs[q]))
  {
    hide Full, Empty, Put, Advance, Head;
  }

  lemma SameNumber(s: State, t: State, a: Action)
    requires Shape(s) && Next(s, t, a)
    ensures |t.procs| == |s.procs|
  {
    hide Step;
    if a.Go? { MoverIs(s, t, a.p); }
  }

  lemma OtherSteps(s: State, t: State, a: Action)
    requires Shape(s) && Next(s, t, a) && !a.Write?
    requires !Stores(s, a)
    ensures t.stored == s.stored && SameCalls(s, t)
  {
    hide Step, SameCalls, Full;
    if a.Go? {
      OtherMoves(s, t, a.p);
    } else {
      SameNumber(s, t, a);
      forall q | 0 <= q < |s.procs| ensures SameCall(s, t, q) { StaysInCall(s, t, a, q); }
      CallsAreSame(s, t);
    }
  }

  predicate SameCall(s: State, t: State, q: nat) {
    && q < |t.procs| == |s.procs|
    && (InCall(t.procs[q]) ==> InCall(s.procs[q]) && t.procs[q].buf == s.procs[q].buf && t.procs[q].i == s.procs[q].i)
  }

  lemma CallsAreSame(s: State, t: State)
    requires |t.procs| == |s.procs| && forall q :: 0 <= q < |s.procs| ==> SameCall(s, t, q)
    ensures SameCalls(s, t)
  {
    forall q | 0 <= q < |t.procs| && InCall(t.procs[q])
      ensures InCall(s.procs[q]) && t.procs[q].buf == s.procs[q].buf && t.procs[q].i == s.procs[q].i
    {
      assert SameCall(s, t, q);
    }
  }

  lemma StaysInCall(s: State, t: State, a: Action, q: nat)
    requires Shape(s) && Next(s, t, a) && !a.Write? && !a.Go? && q < |s.procs|
    ensures SameCall(s, t, q) && t.stored == s.stored
  {
    hide Step;
  }

  lemma OtherMoves(s: State, t: State, p: nat)
    requires Shape(s) && p < |s.procs| && Step(s, t, p) && !Stores(s, Go(p))
    ensures t.stored == s.stored && SameCalls(s, t)
  {
    hide Full, SameCalls, Step;
    MoverIs(s, t, p);
    forall q | 0 <= q < |s.procs| ensures SameCall(s, t, q) { if q != p { OthersStay(s, t, p, q); } }
    CallsAreSame(s, t);
  }

  lemma {:induction false} RunLogged(states: seq<State>, acts: seq<Action>, k: nat)
    requires Run(states, acts) && k < |states|
    ensures Logged(states[k], acts[..k], Writers(states, acts, k))
  {
    hide Logged, Next, Step, Full, LastWrite;
    if k == 0 {
      EmptyLogged(states[0]);
    } else {
      RunLogged(states, acts, k - 1);
      var s, t, a := states[k - 1], states[k], acts[k - 1];
      assert StepOf(s, t, a);
      assert acts[..k] == acts[..k - 1] + [a];
      var w := Writers(states, acts, k - 1);
      if a.Write? {
        CallLogged(s, t, acts[..k - 1], w, a);
      } else if Stores(s, a) {
        GoSteps(s, t, a);
        StoreLogged(s, t, acts[..k - 1], w, a.p);
      } else {
        OtherSteps(s, t, a);
        OtherLogged(s, t, acts[..k - 1], w, a);
      }
    }
  }

  /** However writers interleave: what one pipewrite has stored is a prefix of what it was called with, in order, and
      exactly the first i bytes while it is under way. */
  lemma WritesInOrder(states: seq<State>, acts: seq<Action>, k: nat, j: nat)
    requires Run(states, acts) && k < |states| && j < k <= |acts| && acts[j].Write?
    ensures |Writers(states, acts, k)| == |states[k].stored|
    ensures BytesOf(states[k].stored, Writers(states, acts, k), j) <= acts[j].buf
  {
    RunLogged(states, acts, k);
    assert acts[..k][j] == acts[j];
    hide Run;
  }

  /** A pipewrite that ends has stored all its bytes; or it met a full pipe, killed or with no reader left. */
  lemma WritesWhole(states: seq<State>, acts: seq<Action>, k: nat, p: nat)
    requires Run(states, acts) && k < |acts| && p < |states[k].procs| == |states[k + 1].procs|
    requires InCall(states[k].procs[p]) && !InCall(states[k + 1].procs[p])
    ensures var j := LastWrite(acts[..k], p);
            && 0 <= j && acts[j].Write? && |Writers(states, acts, k)| == |states[k].stored| && |states[k].killed| == |states[k].procs|
            && (|| BytesOf(states[k].stored, Writers(states, acts, k), j) == acts[j].buf
                || (Full(states[k].ring) && (states[k].killed[p] || !states[k].readopen)))
  {
    RunLogged(states, acts, k);
    var s, t := states[k], states[k + 1];
    assert StepOf(s, t, acts[k]);
    hide Run;
    assert CallOk(s, acts[..k], Writers(states, acts, k), p);
    hide Full, Empty, Put, Advance, Head, LastWrite, BytesOf, Writers, Logged;
    EndsHow(s, t, acts[k], p);
    var pc := s.procs[p];
    if pc.i == |pc.buf| { assert pc.buf[..pc.i] == pc.buf; }
  }

  lemma EndsHow(s: State, t: State, a: Action, p: nat)
    requires Shape(s) && Next(s, t, a) && p < |s.procs| == |t.procs| && InCall(s.procs[p]) && !InCall(t.procs[p])
    ensures |s.procs[p].buf| <= s.procs[p].i || (Full(s.ring) && (s.killed[p] || !s.readopen))
  {
    hide Full, Empty, Put, Advance, Head, Step;
    if a.Go? {
      MoverIs(s, t, a.p);
      if p != a.p { OthersStay(s, t, a.p, p); }
    }
  }

  /** From end to end: if only one pipewrite is called, what the readers get is a prefix of what it was called with. */
  lemma SoleWriteIsRead(states: seq<State>, acts: seq<Action>, k: nat, j: nat)
    requires Run(states, acts) && k < |states| && j < k <= |acts| && acts[j].Write?
    requires forall i :: 0 <= i < k && i != j ==> !acts[i].Write?
    ensures Concat(states[k].results) <= acts[j].buf
  {
    RunLogged(states, acts, k);
    RunInv(states, acts, k);
    var s, w := states[k], Writers(states, acts, k);
    assert acts[..k][j] == acts[j];
    hide Run, Writers;
    forall i | 0 <= i < |w| ensures w[i] == j { assert acts[..k][w[i]] == acts[w[i]]; }
    BytesAll(s.stored, w, j);
    assert Concat(s.results) <= Taken(s);
  }

  // How much is read

  /** The number of bytes that p's latest piperead asked for. */
  function LastAsked(acts: seq<Action>, p: nat): nat {
    if acts == [] then 0
    else
      var n := |acts| - 1;
      if acts[n].Read? && acts[n].p == p then acts[n].n else LastAsked(acts[..n], p)
  }

  predicate InCallRead(pc: Pc) { pc.WantRead? || pc.InRead? || pc.ReadTested? || pc.ReaderAsleep? || pc.Copying? }

  ghost predicate AskedOk(s: State, acts: seq<Action>) {
    forall p :: 0 <= p < |s.procs| && InCallRead(s.procs[p]) ==>
      s.procs[p].n == LastAsked(acts, p) && (s.procs[p].Copying? ==> |s.procs[p].got| <= s.procs[p].n)
  }

  predicate AskedAt(s: State, q: nat, n: nat)
    requires q < |s.procs|
  {
    InCallRead(s.procs[q]) ==> s.procs[q].n == n && (s.procs[q].Copying? ==> |s.procs[q].got| <= n)
  }

  lemma AskedStep(s: State, t: State, acts: seq<Action>, a: Action)
    requires Shape(s) && Next(s, t, a) && AskedOk(s, acts)
    ensures AskedOk(t, acts + [a])
  {
    hide LastAsked, Next, InCallRead;
    forall q | 0 <= q < |t.procs| ensures AskedAt(t, q, LastAsked(acts + [a], q)) {
      LastAskedStep(acts, a, q);
      SameNumber(s, t, a);
      assert AskedAt(s, q, LastAsked(acts, q));
      AskedMoves(s, t, a, q, LastAsked(acts, q));
    }
  }

  lemma AskedMoves(s: State, t: State, a: Action, q: nat, n: nat)
    requires Shape(s) && Next(s, t, a) && q < |s.procs| == |t.procs| && AskedAt(s, q, n)
    ensures AskedAt(t, q, if a.Read? && a.p == q then a.n else n)
  {
    hide Step;
    if a.Go? {
      MoverIs(s, t, a.p);
      if q != a.p { OthersStay(s, t, a.p, q); }
    }
  }

  lemma LastAskedStep(acts: seq<Action>, a: Action, p: nat)
    ensures LastAsked(acts + [a], p) == if a.Read? && a.p == p then a.n else LastAsked(acts, p)
  {
    assert (acts + [a])[..|acts|] == acts;
  }

  lemma {:induction false} RunAsked(states: seq<State>, acts: seq<Action>, k: nat)
    requires Run(states, acts) && k < |states|
    ensures AskedOk(states[k], acts[..k])
  {
    hide Next;
    if k != 0 {
      RunAsked(states, acts, k - 1);
      assert StepOf(states[k - 1], states[k], acts[k - 1]);
      assert acts[..k] == acts[..k - 1] + [acts[k - 1]];
      hide AskedOk;
      AskedStep(states[k - 1], states[k], acts[..k - 1], acts[k - 1]);
    }
  }

  lemma Returns(s: State, t: State, a: Action)
    requires Shape(s) && Next(s, t, a) && |s.results| < |t.results|
    ensures a.Go? && a.p < |s.procs| && s.procs[a.p].Copying? && t.results == s.results + [s.procs[a.p].got]
    ensures s.procs[a.p].n <= |s.procs[a.p].got| || Empty(s.ring)
  {
    hide Full, Empty, Put, Advance, Head;
  }

  /** What a piperead returns is as many bytes as it asked for, or all there were. */
  lemma ReadsEnough(states: seq<State>, acts: seq<Action>, k: nat)
    requires Run(states, acts) && k < |acts| && |states[k].results| < |states[k + 1].results|
    ensures acts[k].Go? && |states[k + 1].results| == |states[k].results| + 1
    ensures var got := states[k + 1].results[|states[k].results|];
            || |got| == LastAsked(acts[..k], acts[k].p)
            || (|got| < LastAsked(acts[..k], acts[k].p) && |states[k].stored| == |Taken(states[k])|)
  {
    RunAsked(states, acts, k);
    RunInv(states, acts, k);
    var s, t := states[k], states[k + 1];
    assert StepOf(s, t, acts[k]);
    hide Run, LastAsked;
    TestsAreTrue(s.ring, s.stored, |Taken(s)|);
    hide Inv, Concat, Next, Taken;
    Returns(s, t, acts[k]);
  }

  // The reader's side

  /** When the lock is free, a sleeping reader waits for bytes that are not there but may come. */
  ghost predicate ReadersOk(s: State) {
    s.lock == None ==> forall q :: 0 <= q < |s.procs| && s.procs[q].ReaderAsleep? ==> |s.stored| == |Taken(s)| && s.writeopen
  }

  /** A writer that is killed, or whose pipe has lost its read end, finds the pipe full with bytes left to write, while
      a reader sleeps. */
  ghost predicate Strands(s: State, a: Action) {
    && a.Go? && a.p < |s.procs| && a.p < |s.killed|
    && s.procs[a.p].InWrite? && s.procs[a.p].i < |s.procs[a.p].buf| && Full(s.ring) && (s.killed[a.p] || !s.readopen)
    && exists q :: 0 <= q < |s.procs| && s.procs[q].ReaderAsleep?
  }

  /** A writer has the lock; it will wake the readers unless it gives up. */
  ghost predicate Writing(s: State) {
    s.lock.Some? && s.lock.value < |s.procs| && s.procs[s.lock.value].InWrite?
  }

  ghost predicate Served(s: State) {
    forall q :: 0 <= q < |s.procs| && s.procs[q].ReaderAsleep? ==> (Empty(s.ring) && s.writeopen) || Writing(s)
  }

  lemma NextServed(s: State, t: State, a: Action)
    requires Shape(s) && Inv(s) && Next(s, t, a) && Served(s) && !Strands(s, a)
    ensures Served(t)
  {
    hide Full, Empty, Spells, Concat;
    if !a.Close? { ProcFacts(s, a.p); }
    if s.lock.Some? { ProcFacts(s, s.lock.value); }
    hide Inv;
  }

  lemma {:induction false} RunServed(states: seq<State>, acts: seq<Action>, k: nat)
    requires Run(states, acts) && k < |states| && forall j :: 0 <= j < k ==> !Strands(states[j], acts[j])
    ensures Served(states[k])
  {
    if k != 0 {
      RunServed(states, acts, k - 1);
      RunInv(states, acts, k - 1);
      hide Inv, Next;
      assert StepOf(states[k - 1], states[k], acts[k - 1]);
      NextServed(states[k - 1], states[k], acts[k - 1]);
    }
  }

  lemma ServedIsOk(s: State)
    requires Inv(s) && Served(s)
    ensures ReadersOk(s)
  {
    TestsAreTrue(s.ring, s.stored, |Taken(s)|);
  }

  /** Giving up leaves the reader asleep beside a full pipe. */
  lemma StrandsAtOnce(s: State, t: State, a: Action)
    requires Shape(s) && Inv(s) && Next(s, t, a) && Strands(s, a)
    ensures !ReadersOk(t)
  {
    var q :| 0 <= q < |s.procs| && s.procs[q].ReaderAsleep?;
    ProcFacts(s, a.p);
    TestsAreTrue(s.ring, s.stored, |Taken(s)|);
    assert t.procs[q].ReaderAsleep?;
  }

  /** Readers are never left asleep beside bytes they could read, or beside a closed pipe, exactly in the runs in which no
      writer that is killed, or has no reader left, meets a full pipe with bytes to write while a reader sleeps. */
  lemma ReadersServedExactly(states: seq<State>, acts: seq<Action>)
    requires Run(states, acts)
    ensures (forall k :: 0 <= k < |states| ==> ReadersOk(states[k])) <==>
            (forall j :: 0 <= j < |acts| ==> !Strands(states[j], acts[j]))
  {
    hide Run, Inv, Next, ReadersOk, Served, Strands;
    RunSizes(states, acts);
    if j: nat :| j < |acts| && Strands(states[j], acts[j]) {
      RunInv(states, acts, j);
      RunStep(states, acts, j);
      StrandsAtOnce(states[j], states[j + 1], acts[j]);
    } else {
      forall k | 0 <= k < |states| ensures ReadersOk(states[k]) {
        RunInv(states, acts, k);
        RunServed(states, acts, k);
        ServedIsOk(states[k]);
      }
    }
  }

  lemma RunSizes(states: seq<State>, acts: seq<Action>)
    requires Run(states, acts)
    ensures |states| == |acts| + 1
  {
  }

  lemma RunStep(states: seq<State>, acts: seq<Action>, j: nat)
    requires Run(states, acts) && j < |acts|
    ensures |states| == |acts| + 1 && Shape(states[j]) && Next(states[j], states[j + 1], acts[j])
  {
    assert StepOf(states[j], states[j + 1], acts[j]);
  }

  // Such a run: a reader sleeps on an empty pipe; a writer is killed while it fills the pipe, and returns -1 before it
  // has woken the reader.

  function Zeros(n: nat): (z: seq<byte>)
    ensures |z| == n && forall i :: 0 <= i < n ==> z[i] == 0
  {
    seq(n, _ => 0)
  }

  function Filled(i: nat, reader: Pc, writer: Pc, lock: Option<nat>, killed: bool): State {
    State(Ring(Zeros(PIPESIZE), 0, i), true, true, lock, [reader, writer], [false, killed], Zeros(i), [])
  }

  const LAST: nat := 7 + PIPESIZE

  function BadState(k: nat): State {
    var buf := Zeros(PIPESIZE + 1);
    if k == 0 then Filled(0, Out, Out, None, false)
    else if k == 1 then Filled(0, WantRead(1), Out, None, false)
    else if k == 2 then Filled(0, InRead(1), Out, Some(0), false)
    else if k == 3 then Filled(0, ReadTested(1), Out, Some(0), false)
    else if k == 4 then Filled(0, ReaderAsleep(1), Out, None, false)
    else if k == 5 then Filled(0, ReaderAsleep(1), WantWrite(buf, 0), None, false)
    else if k == 6 then Filled(0, ReaderAsleep(1), InWrite(buf, 0), Some(1), false)
    else if k <= LAST then Filled(k - 7, ReaderAsleep(1), InWrite(buf, k - 7), Some(1), true)
    else Filled(PIPESIZE, ReaderAsleep(1), Out, None, true)
  }

  function BadAct(k: nat): Action {
    if k == 0 then Read(0, 1)
    else if k == 1 then Acquire(0)
    else if k == 2 || k == 3 then Go(0)
    else if k == 4 then Write(1, Zeros(PIPESIZE + 1))
    else if k == 5 then Acquire(1)
    else if k == 6 then Kill(1)
    else Go(1)
  }

  lemma BadFill(i: nat, buf: seq<byte>)
    requires i < PIPESIZE && buf == Zeros(PIPESIZE + 1)
    ensures Step(Filled(i, ReaderAsleep(1), InWrite(buf, i), Some(1), true),
                 Filled(i + 1, ReaderAsleep(1), InWrite(buf, i + 1), Some(1), true), 1)
  {
    var s := Filled(i, ReaderAsleep(1), InWrite(buf, i), Some(1), true);
    assert Zeros(i + 1) == Zeros(i) + [0];
    assert Put(s.ring, 0) == Ring(Zeros(PIPESIZE), 0, i + 1);
    assert s.procs[1 := InWrite(buf, i + 1)] == [ReaderAsleep(1), InWrite(buf, i + 1)];
  }

  lemma BadStart(k: nat)
    requires k < 7
    ensures Next(BadState(k), BadState(k + 1), BadAct(k))
  {
    hide Zeros;
  }

  lemma BadStep(k: nat)
    requires k <= LAST
    ensures StepOf(BadState(k), BadState(k + 1), BadAct(k))
  {
    if k < 7 {
      BadStart(k);
    } else if k < LAST {
      BadFill(k - 7, Zeros(PIPESIZE + 1));
    } else {
      var s := BadState(k);
      assert s.procs[1 := Out] == [ReaderAsleep(1), Out];
    }
  }

  ghost function BadStates(): (r: seq<State>)
    ensures |r| == LAST + 2 && forall k :: 0 <= k <= LAST + 1 ==> r[k] == BadState(k)
  {
    seq(LAST + 2, k requires 0 <= k <= LAST + 1 => BadState(k))
  }

  ghost function BadActs(): (r: seq<Action>)
    ensures |r| == LAST + 1 && forall k :: 0 <= k <= LAST ==> r[k] == BadAct(k)
  {
    seq(LAST + 1, k requires 0 <= k <= LAST => BadAct(k))
  }

  lemma LostWakeup()
    ensures Run(BadStates(), BadActs())
    ensures var s := BadStates()[LAST + 1];
            && s.lock == None && |s.procs| == 2 && s.procs[0].ReaderAsleep? && s.procs[1].Out? && s.readopen && s.writeopen
            && |s.stored| == |Taken(s)| + PIPESIZE
  {
    var states, acts := BadStates(), BadActs();
    hide BadState, BadAct, Next, BadStates, BadActs, Init;
    forall k | 0 <= k < |acts| ensures StepOf(states[k], states[k + 1], acts[k]) { BadStep(k); }
    BadEnds();
  }

  lemma BadEnds()
    ensures Init(BadState(0))
    ensures var s := BadState(LAST + 1);
            && s.lock == None && |s.procs| == 2 && s.procs[0].ReaderAsleep? && s.procs[1].Out? && s.readopen && s.writeopen
            && |s.stored| == PIPESIZE && Taken(s) == []
  {
  }
}
