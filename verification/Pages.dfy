/** Who has which page (xv6/proc.c:50-64, xv6/proc.c:103-158, xv6/proc.c:418-428, xv6/exec.c:52-56,
    xv6/exec.c:101-114, xv6/pipe.c:29, xv6/pipe.c:60-75, xv6/main.c:76).

    Each step is one call of kalloc or kfree with the pointer assignment that goes with it, by any
    process, or one critical section of pipeclose; kalloc and kfree are the list functions that Kalloc proves
    the code to compute.
 */
module Pages {
  import opened Options
  import opened Kalloc

  const KSTACKSIZE: nat := PAGE

  /** What an entry of the process table has.  In Embryo it is being filled; in NoMem there was
      no memory for it and its stack is still to be freed; in Grown it has new memory beside the old
      (growproc and exec); in Shed the old memory is freed and the pointer not yet moved; in Reaped wait has freed the
      memory and not yet the stack. */
  datatype Phase = Unused | Embryo | HasStack | NoMem | Live | Grown | Shed | Zombie | Reaped

  datatype Slot = Slot(phase: Phase, kstack: nat, mem: nat, sz: nat, newmem: nat, newsz: nat)

  /** One end of a pipe.  pipeclose shuts it under p->lock and looks at both ends after the release: in Found it saw both
      shut and is to give the page back, in Freed it has, in Left it saw something else. */
  datatype End = Open | Shut | Found | Freed | Left

  datatype PipePage = PipePage(page: nat, read: End, write: End) {
    predicate GivenBack() { read.Freed? || write.Freed? }

    function At(writable: bool): End { if writable then write else read }

    function With(writable: bool, e: End): PipePage { if writable then this.(write := e) else this.(read := e) }
  }

  /** panic: kfree was given a block that is free. */
  datatype State = State(free: seq<Run>, slots: seq<Slot>, pipes: seq<PipePage>, boot: seq<nat>, panic: bool)

  datatype Holder = Stack(p: nat) | Mem(p: nat) | New(p: nat) | Pipe(i: nat) | Boot(c: nat)

  /** The memory a holder has. */
  function Piece(s: State, h: Holder): Option<Run> {
    match h
    case Stack(p) => if p < |s.slots| && OwnsStack(s.slots[p].phase) then Some(Run(s.slots[p].kstack, KSTACKSIZE)) else None
    case Mem(p) => if p < |s.slots| && OwnsMem(s.slots[p].phase) then Some(Run(s.slots[p].mem, s.slots[p].sz)) else None
    case New(p) => if p < |s.slots| && OwnsNew(s.slots[p].phase) then Some(Run(s.slots[p].newmem, s.slots[p].newsz)) else None
    case Pipe(i) =>
      if i < |s.pipes| && !s.pipes[i].GivenBack() then Some(Run(s.pipes[i].page, PAGE)) else None
    case Boot(c) => if c < |s.boot| then Some(Run(s.boot[c], KSTACKSIZE)) else None
  }

  predicate OwnsStack(ph: Phase) { ph.HasStack? || ph.NoMem? || ph.Live? || ph.Grown? || ph.Shed? || ph.Zombie? || ph.Reaped? }
  predicate OwnsMem(ph: Phase) { ph.Live? || ph.Grown? || ph.Zombie? }
  predicate OwnsNew(ph: Phase) { ph.Grown? || ph.Shed? }

  predicate In(r: Run, a: int) { r.addr <= a < r.End() }

  // Conservation

  ghost predicate PieceOk(s: State, h: Holder) {
    match Piece(s, h)
    case None => true
    case Some(r) => 0 < r.addr && PageMultiple(r.len) && forall a :: In(r, a) ==> !Free(s.free, a)
  }

  ghost predicate Apart(s: State, h: Holder, g: Holder) {
    h != g && Piece(s, h).Some? && Piece(s, g).Some? ==> forall a :: !(In(Piece(s, h).value, a) && In(Piece(s, g).value, a))
  }

  /** Address a belongs to somebody. */
  ghost predicate Held(s: State, a: int) {
    exists h :: Piece(s, h).Some? && In(Piece(s, h).value, a)
  }

  /** The free list and the holders' pieces are disjoint, and together are the region. */
  ghost predicate Conserved(s: State, region: Run) {
    && WellFormed(s.free) && (forall h :: PieceOk(s, h)) && (forall h, g :: Apart(s, h, g))
    && forall a :: In(region, a) <==> Free(s.free, a) || Held(s, a)
  }

  /** t differs from s in the piece of h only. */
  ghost predicate OnlyPiece(s: State, t: State, h: Holder) {
    forall g :: g != h ==> Piece(t, g) == Piece(s, g)
  }

  lemma HeldOther(s: State, t: State, h: Holder, a: int)
    requires OnlyPiece(s, t, h) && Held(s, a) && (Piece(s, h).Some? ==> !In(Piece(s, h).value, a))
    ensures Held(t, a)
  {
    var g :| Piece(s, g).Some? && In(Piece(s, g).value, a);
    assert Piece(t, g) == Piece(s, g);
  }

  /** kalloc gives h a piece it did not have. */
  lemma GetKeeps(s: State, t: State, h: Holder, n: nat, region: Run)
    requires Conserved(s, region) && PageMultiple(n) && TakenAddr(s.free, n) != 0
    requires t.free == TakeFirstFit(s.free, n) && OnlyPiece(s, t, h)
    requires Piece(s, h) == None && Piece(t, h) == Some(Run(TakenAddr(s.free, n), n))
    ensures Conserved(t, region)
  {
    var r := Piece(t, h).value;
    TakeKeepsWellFormed(s.free, n);
    forall a ensures (In(r, a) ==> Free(s.free, a)) && (Free(t.free, a) <==> Free(s.free, a) && !In(r, a)) {
      TakeRemoves(s.free, n, a);
    }
    hide TakeFirstFit, TakenAddr, Free, WellFormed, Piece;
    forall g ensures PieceOk(t, g) { assert PieceOk(s, g); }
    forall g, k ensures Apart(t, g, k) { GetApart(s, t, h, g, k); }
    forall a ensures In(region, a) <==> Free(t.free, a) || Held(t, a) {
      if Held(s, a) { HeldOther(s, t, h, a); }
      if Held(t, a) && !In(r, a) { HeldOther(t, s, h, a); }
      if In(r, a) { assert Held(t, a); }
    }
  }

  lemma GetApart(s: State, t: State, h: Holder, g: Holder, k: Holder)
    requires OnlyPiece(s, t, h) && Piece(t, h).Some? && Apart(s, g, k)
    requires forall a :: In(Piece(t, h).value, a) ==> Free(s.free, a)
    requires PieceOk(s, g) && PieceOk(s, k)
    ensures Apart(t, g, k)
  {
    hide Piece, Free;
    if g != k && g != h && k != h { assert Piece(t, g) == Piece(s, g) && Piece(t, k) == Piece(s, k); }
  }

  /** kfree takes h's piece back.  It was not free before, so kfree does not panic. */
  lemma FreeKeeps(s: State, t: State, h: Holder, region: Run)
    requires Conserved(s, region) && Piece(s, h).Some? && Piece(t, h) == None && OnlyPiece(s, t, h)
    requires t.free == Insert(s.free, Piece(s, h).value.addr, Piece(s, h).value.len)
    ensures !Free(s.free, Piece(s, h).value.addr) && Conserved(t, region)
  {
    var r := Piece(s, h).value;
    assert PieceOk(s, h);
    assert In(r, r.addr);
    InsertKeepsWellFormed(s.free, r.addr, r.len);
    forall a ensures Free(t.free, a) <==> Free(s.free, a) || In(r, a) { InsertIsUnion(s.free, r.addr, r.len, a); }
    hide Insert, Free, WellFormed, Piece;
    forall g ensures PieceOk(t, g) {
      assert PieceOk(s, g) && Apart(s, g, h);
    }
    forall g, k ensures Apart(t, g, k) { assert Apart(s, g, k); }
    forall a ensures In(region, a) <==> Free(t.free, a) || Held(t, a) {
      if Held(s, a) && !In(r, a) { HeldOther(s, t, h, a); }
      if Held(t, a) { HeldOther(t, s, h, a); }
      if In(r, a) { assert Held(s, a); }
    }
  }

  /** A piece passes from h to g. */
  lemma MoveKeeps(s: State, t: State, h: Holder, g: Holder, region: Run)
    requires Conserved(s, region) && t.free == s.free && h != g
    requires Piece(s, g) == None && Piece(t, h) == None && Piece(t, g) == Piece(s, h)
    requires forall k :: k != h && k != g ==> Piece(t, k) == Piece(s, k)
    ensures Conserved(t, region)
  {
    hide Piece, Free, WellFormed;
    forall k ensures PieceOk(t, k) { assert PieceOk(s, k) && PieceOk(s, h); }
    forall k, l ensures Apart(t, k, l) { assert Apart(s, k, l) && Apart(s, h, l) && Apart(s, k, h); }
    forall a ensures Held(t, a) <==> Held(s, a) { HeldMoves(s, t, h, g, a); }
  }

  lemma HeldMoves(s: State, t: State, h: Holder, g: Holder, a: int)
    requires Piece(s, g) == None && Piece(t, h) == None && Piece(t, g) == Piece(s, h)
    requires forall k :: k != h && k != g ==> Piece(t, k) == Piece(s, k)
    ensures Held(t, a) <==> Held(s, a)
  {
    hide Piece;
    if Held(s, a) {
      var k :| Piece(s, k).Some? && In(Piece(s, k).value, a);
      assert Piece(t, if k == h then g else k).Some?;
    }
    if Held(t, a) {
      var k :| Piece(t, k).Some? && In(Piece(t, k).value, a);
      assert Piece(s, if k == g then h else k).Some?;
    }
  }

  /** Nobody's piece changes. */
  lemma SameKeeps(s: State, t: State, region: Run)
    requires Conserved(s, region) && t.free == s.free && forall h :: Piece(t, h) == Piece(s, h)
    ensures Conserved(t, region)
  {
    hide Piece, Free, WellFormed;
    forall h ensures PieceOk(t, h) { assert PieceOk(s, h); }
    forall h, g ensures Apart(t, h, g) { assert Apart(s, h, g); }
    forall a ensures Held(t, a) <==> Held(s, a) {
      if Held(s, a) { var k :| Piece(s, k).Some? && In(Piece(s, k).value, a); assert Piece(t, k).Some?; }
      if Held(t, a) { var k :| Piece(t, k).Some? && In(Piece(t, k).value, a); assert Piece(s, k).Some?; }
    }
  }

  // The steps

  datatype Action =
    | ForkStart(np: nat)            // allocproc
    | ForkStack(np: nat)            // np->kstack = kalloc(KSTACKSIZE), or give up
    | UserInit(np: nat)             // userinit: p->mem = kalloc(PAGE), which must not fail
    | ForkMem(p: nat, np: nat)      // np->mem = kalloc(np->sz)
    | ForkUndo(np: nat)             // there was none: kfree(np->kstack, KSTACKSIZE)
    | Get(p: nat, n: nat)           // growproc and exec: kalloc of the new memory
    | Abort(p: nat)                 // exec: bad, the new memory is freed
    | Drop(p: nat)                  // kfree(cp->mem, cp->sz)
    | Commit(p: nat)                // cp->mem = newmem; cp->sz = ...
    | Exit(p: nat)
    | WaitMem(z: nat)               // kfree(p->mem, p->sz)
    | WaitStack(z: nat)             // kfree(p->kstack, KSTACKSIZE)
    | PipeAlloc
    | PipeShut(i: nat, writable: bool)   // pipeclose, under p->lock
    | PipeTest(i: nat, writable: bool, found: bool)   // pipeclose, after release: whether both ends read as 0
    | PipeFree(i: nat, writable: bool)   // they did: kfree
    | BootStack

  /** kalloc, on the whole state: the address, and the list that is left. */
  function Taken(s: State, n: nat): nat { TakenAddr(s.free, n) }

  function SetSlot(s: State, p: nat, x: Slot): State
    requires p < |s.slots|
  {
    s.(slots := s.slots[p := x])
  }

  ghost function GiveBack(s: State, addr: nat, len: nat): State {
    if Free(s.free, addr) then s.(panic := true) else s.(free := Insert(s.free, addr, len))
  }

  function Alloc(s: State, n: nat): State { s.(free := TakeFirstFit(s.free, n)) }

  /** Whether p->readopen and p->writeopen can both read as 0.  In a page that has been given back, writeopen is
      part of kfree's junk or the length of a run, neither of them 0, until somebody else has the page; then it
      is whatever they put there. */
  ghost predicate Reads(s: State, x: PipePage, found: bool) {
    if !x.GivenBack() then found == (!x.read.Open? && !x.write.Open?) else found ==> !Free(s.free, x.page)
  }

  ghost predicate Next(s: State, t: State, a: Action) {
    !s.panic &&
    match a
    case ForkStart(np) => np < |s.slots| && s.slots[np].phase.Unused? && t == SetSlot(s, np, s.slots[np].(phase := Embryo))
    case ForkStack(np) =>
      && np < |s.slots| && s.slots[np].phase.Embryo?
      && t == if Taken(s, KSTACKSIZE) == 0 then SetSlot(s, np, s.slots[np].(phase := Unused))
              else SetSlot(Alloc(s, KSTACKSIZE), np, s.slots[np].(phase := HasStack, kstack := Taken(s, KSTACKSIZE)))
    case UserInit(np) =>
      && np < |s.slots| && s.slots[np].phase.HasStack? && Taken(s, PAGE) != 0
      && t == SetSlot(Alloc(s, PAGE), np, s.slots[np].(phase := Live, mem := Taken(s, PAGE), sz := PAGE))
    case ForkMem(p, np) =>
      && np < |s.slots| && s.slots[np].phase.HasStack? && p < |s.slots| && s.slots[p].phase.Live?
      && t == if Taken(s, s.slots[p].sz) == 0
              then SetSlot(s, np, s.slots[np].(phase := NoMem))
              else SetSlot(Alloc(s, s.slots[p].sz), np,
                           s.slots[np].(phase := Live, mem := Taken(s, s.slots[p].sz), sz := s.slots[p].sz))
    case ForkUndo(np) =>
      && np < |s.slots| && s.slots[np].phase.NoMem?
      && t == SetSlot(GiveBack(s, s.slots[np].kstack, KSTACKSIZE), np, s.slots[np].(phase := Unused))
    case Get(p, n) =>
      && p < |s.slots| && s.slots[p].phase.Live? && PageMultiple(n)
      && t == if Taken(s, n) == 0 then s
              else SetSlot(Alloc(s, n), p, s.slots[p].(phase := Grown, newmem := Taken(s, n), newsz := n))
    case Abort(p) =>
      && p < |s.slots| && s.slots[p].phase.Grown?
      && t == SetSlot(GiveBack(s, s.slots[p].newmem, s.slots[p].newsz), p, s.slots[p].(phase := Live))
    case Drop(p) =>
      && p < |s.slots| && s.slots[p].phase.Grown?
      && t == SetSlot(GiveBack(s, s.slots[p].mem, s.slots[p].sz), p, s.slots[p].(phase := Shed))
    case Commit(p) =>
      && p < |s.slots| && s.slots[p].phase.Shed?
      && t == SetSlot(s, p, s.slots[p].(phase := Live, mem := s.slots[p].newmem, sz := s.slots[p].newsz))
    case Exit(p) => p < |s.slots| && s.slots[p].phase.Live? && t == SetSlot(s, p, s.slots[p].(phase := Zombie))
    case WaitMem(z) =>
      && z < |s.slots| && s.slots[z].phase.Zombie?
      && t == SetSlot(GiveBack(s, s.slots[z].mem, s.slots[z].sz), z, s.slots[z].(phase := Reaped))
    case WaitStack(z) =>
      && z < |s.slots| && s.slots[z].phase.Reaped?
      && t == SetSlot(GiveBack(s, s.slots[z].kstack, KSTACKSIZE), z, s.slots[z].(phase := Unused))
    case PipeAlloc =>
      t == if Taken(s, PAGE) == 0 then s
           else Alloc(s, PAGE).(pipes := s.pipes + [PipePage(Taken(s, PAGE), Open, Open)])
    case PipeShut(i, writable) =>
      && i < |s.pipes| && s.pipes[i].At(writable).Open?
      && t == s.(pipes := s.pipes[i := s.pipes[i].With(writable, Shut)])
    case PipeTest(i, writable, found) =>
      && i < |s.pipes| && s.pipes[i].At(writable).Shut? && Reads(s, s.pipes[i], found)
      && t == s.(pipes := s.pipes[i := s.pipes[i].With(writable, if found then Found else Left)])
    case PipeFree(i, writable) =>
      && i < |s.pipes| && s.pipes[i].At(writable).Found?
      && t == GiveBack(s.(pipes := s.pipes[i := s.pipes[i].With(writable, Freed)]), s.pipes[i].page, PAGE)
    case BootStack =>
      t == if Taken(s, KSTACKSIZE) == 0 then s else Alloc(s, KSTACKSIZE).(boot := s.boot + [Taken(s, KSTACKSIZE)])
  }

  /** The sizes that fork reads are sizes of memory. */
  lemma SizeOk(s: State, p: nat, region: Run)
    requires Conserved(s, region) && p < |s.slots| && s.slots[p].phase.Live?
    ensures PageMultiple(s.slots[p].sz)
  {
    assert PieceOk(s, Mem(p));
  }

  /** What somebody holds is not free, so kfree does not panic. */
  lemma HeldNotFree(s: State, h: Holder, region: Run)
    requires Conserved(s, region) && Piece(s, h).Some?
    ensures !Free(s.free, Piece(s, h).value.addr)
  {
    assert PieceOk(s, h);
    assert In(Piece(s, h).value, Piece(s, h).value.addr);
  }

  /** No page is lost, none has two holders, and kfree has not panicked. */
  ghost predicate Sound(s: State, region: Run) { !s.panic && Conserved(s, region) }

  /** pipeclose gives back the page of a pipe that the other pipeclose has given back. */
  ghost predicate Doubles(s: State, a: Action) {
    a.PipeFree? && a.i < |s.pipes| && s.pipes[a.i].At(!a.writable).Freed?
  }

  lemma ForkKeeps(s: State, t: State, a: Action, region: Run)
    requires Sound(s, region) && Next(s, t, a) && (a.ForkStart? || a.ForkStack? || a.UserInit? || a.ForkMem?)
    ensures Sound(t, region)
  {
    hide Conserved, TakeFirstFit, TakenAddr, Insert, GiveBack;
    match a
    case ForkStart(np) => SameKeeps(s, t, region);
    case ForkStack(np) =>
      if Taken(s, KSTACKSIZE) == 0 { SameKeeps(s, t, region); } else { GetKeeps(s, t, Stack(np), KSTACKSIZE, region); }
    case UserInit(np) => GetKeeps(s, t, Mem(np), PAGE, region);
    case ForkMem(p, np) =>
      SizeOk(s, p, region);
      if Taken(s, s.slots[p].sz) == 0 { SameKeeps(s, t, region); }
      else { GetKeeps(s, t, Mem(np), s.slots[p].sz, region); }
  }

  lemma ExchangeKeeps(s: State, t: State, a: Action, region: Run)
    requires Sound(s, region) && Next(s, t, a) && (a.Get? || a.Abort? || a.Drop? || a.Commit? || a.Exit?)
    ensures Sound(t, region)
  {
    hide Conserved, TakeFirstFit, TakenAddr, Insert, Free;
    match a
    case Get(p, n) => if Taken(s, n) != 0 { GetKeeps(s, t, New(p), n, region); }
    case Abort(p) => HeldNotFree(s, New(p), region); FreeKeeps(s, t, New(p), region);
    case Drop(p) => HeldNotFree(s, Mem(p), region); FreeKeeps(s, t, Mem(p), region);
    case Commit(p) => MoveKeeps(s, t, New(p), Mem(p), region);
    case Exit(p) => SameKeeps(s, t, region);
  }

  lemma PipeKeeps(s: State, t: State, a: Action, region: Run)
    requires Sound(s, region) && Next(s, t, a) && (a.PipeAlloc? || a.PipeShut? || a.PipeTest? || a.PipeFree? || a.BootStack?)
    requires !Doubles(s, a)
    ensures Sound(t, region)
  {
    hide Conserved, TakeFirstFit, TakenAddr, Insert, Free;
    match a
    case PipeAlloc => if Taken(s, PAGE) != 0 { GetKeeps(s, t, Pipe(|s.pipes|), PAGE, region); }
    case PipeShut(i, writable) => SameKeeps(s, t, region);
    case PipeTest(i, writable, found) => SameKeeps(s, t, region);
    case PipeFree(i, writable) => HeldNotFree(s, Pipe(i), region); FreeKeeps(s, t, Pipe(i), region);
    case BootStack => if Taken(s, KSTACKSIZE) != 0 { GetKeeps(s, t, Boot(|s.boot|), KSTACKSIZE, region); }
  }

  lemma WaitKeeps(s: State, t: State, a: Action, region: Run)
    requires Sound(s, region) && Next(s, t, a) && (a.WaitMem? || a.WaitStack? || a.ForkUndo?)
    ensures Sound(t, region)
  {
    hide Conserved, Insert, Free;
    match a
    case WaitMem(z) => HeldNotFree(s, Mem(z), region); FreeKeeps(s, t, Mem(z), region);
    case WaitStack(z) => HeldNotFree(s, Stack(z), region); FreeKeeps(s, t, Stack(z), region);
    case ForkUndo(np) => HeldNotFree(s, Stack(np), region); FreeKeeps(s, t, Stack(np), region);
  }

  lemma NextKeeps(s: State, t: State, a: Action, region: Run)
    requires Sound(s, region) && Next(s, t, a) && !Doubles(s, a)
    ensures Sound(t, region)
  {
    hide Sound, Next, Doubles;
    if a.ForkStart? || a.ForkStack? || a.UserInit? || a.ForkMem? {
      ForkKeeps(s, t, a, region);
    } else if a.WaitMem? || a.WaitStack? || a.ForkUndo? {
      WaitKeeps(s, t, a, region);
    } else if a.PipeAlloc? || a.PipeShut? || a.PipeTest? || a.PipeFree? || a.BootStack? {
      PipeKeeps(s, t, a, region);
    } else {
      ExchangeKeeps(s, t, a, region);
    }
  }

  // Every run

  /** After kinit: everything in the region is free, and nobody has anything. */
  ghost predicate Init(s: State, region: Run) {
    && WellFormed(s.free) && (forall a :: Free(s.free, a) <==> In(region, a))
    && (forall p :: 0 <= p < |s.slots| ==> s.slots[p].phase.Unused?) && s.pipes == [] && s.boot == [] && !s.panic
  }

  ghost predicate Run0(states: seq<State>, acts: seq<Action>, region: Run) {
    && |states| == |acts| + 1 && Init(states[0], region)
    && forall k :: 0 <= k < |acts| ==> Next(states[k], states[k + 1], acts[k])
  }

  lemma InitSound(s: State, region: Run)
    requires Init(s, region)
    ensures Sound(s, region)
  {
    assert forall h :: Piece(s, h) == None;
  }

  /** Through every sequence of forks, failed forks, sbrks, execs, exits, waits and pipes, up to the first time that both
      closers of a pipe give back its page: no page is lost, none has two holders, and kfree does not panic. */
  lemma {:induction false} PagesConserved(states: seq<State>, acts: seq<Action>, region: Run, k: nat)
    requires Run0(states, acts, region) && k < |states| && forall j :: 0 <= j < k ==> !Doubles(states[j], acts[j])
    ensures Sound(states[k], region)
  {
    hide Sound, Next, Doubles, Init;
    if k == 0 {
      InitSound(states[0], region);
    } else {
      PagesConserved(states, acts, region, k - 1);
      assert Next(states[k - 1], states[k], acts[k - 1]);
      NextKeeps(states[k - 1], states[k], acts[k - 1], region);
    }
  }

  /** The pages of pipes come from the region. */
  ghost predicate PipesWithin(s: State, region: Run) {
    forall i :: 0 <= i < |s.pipes| ==> In(region, s.pipes[i].page)
  }

  lemma PipesStep(s: State, t: State, a: Action, region: Run)
    requires Sound(s, region) && PipesWithin(s, region) && Next(s, t, a)
    ensures PipesWithin(t, region)
  {
    hide TakeFirstFit, Insert, WellFormed, Free;
    if a.PipeAlloc? && Taken(s, PAGE) != 0 {
      TakeRemoves(s.free, PAGE, Taken(s, PAGE));
      hide TakenAddr;
    } else {
      hide TakenAddr;
    }
  }

  lemma {:induction false} PipesStay(states: seq<State>, acts: seq<Action>, region: Run, k: nat)
    requires Run0(states, acts, region) && k < |states| && forall j :: 0 <= j < k ==> Sound(states[j], region)
    ensures PipesWithin(states[k], region)
  {
    if k != 0 {
      PipesStay(states, acts, region, k - 1);
      hide Sound, Next, PipesWithin;
      assert Next(states[k - 1], states[k], acts[k - 1]);
      PipesStep(states[k - 1], states[k], acts[k - 1], region);
    }
  }

  /** The second kfree of a pipe's page panics, or takes the page from whoever has it by then. */
  lemma DoublesBreaks(s: State, t: State, a: Action, region: Run)
    requires Sound(s, region) && PipesWithin(s, region) && Next(s, t, a) && Doubles(s, a)
    ensures !Sound(t, region)
  {
    var x := s.pipes[a.i].page;
    hide Insert, WellFormed;
    if !Free(s.free, x) {
      InsertIsUnion(s.free, x, PAGE, x);
      assert Held(s, x);
      var h :| Piece(s, h).Some? && In(Piece(s, h).value, x);
      assert Piece(t, h) == Piece(s, h);
      hide Free, Piece;
      assert !PieceOk(t, h);
    }
  }

  /** A run conserves pages, without a panic, exactly if no page of a pipe is given back by both ends. */
  lemma ConservedExactly(states: seq<State>, acts: seq<Action>, region: Run)
    requires Run0(states, acts, region)
    ensures (forall k :: 0 <= k < |states| ==> Sound(states[k], region)) <==>
            (forall j :: 0 <= j < |acts| ==> !Doubles(states[j], acts[j]))
  {
    hide Sound, Next, Doubles, Init, PipesWithin;
    if forall k :: 0 <= k < |states| ==> Sound(states[k], region) {
      forall j | 0 <= j < |acts| ensures !Doubles(states[j], acts[j]) {
        PipesStay(states, acts, region, j);
        assert Next(states[j], states[j + 1], acts[j]);
        if Doubles(states[j], acts[j]) { DoublesBreaks(states[j], states[j + 1], acts[j], region); }
      }
    }
    if forall j :: 0 <= j < |acts| ==> !Doubles(states[j], acts[j]) {
      forall k | 0 <= k < |states| ensures Sound(states[k], region) { PagesConserved(states, acts, region, k); }
    }
  }

  /** When nobody holds anything any more, the free list is the one kinit made. */
  lemma AllReturned(states: seq<State>, acts: seq<Action>, region: Run, k: nat)
    requires Run0(states, acts, region) && k < |states| && forall h :: Piece(states[k], h) == None
    requires forall j :: 0 <= j < k ==> !Doubles(states[j], acts[j])
    ensures states[k].free == states[0].free
  {
    PagesConserved(states, acts, region, k);
    var s, t := states[0], states[k];
    forall a ensures Free(t.free, a) <==> Free(s.free, a) { assert !Held(t, a); }
    Canonical(t.free, s.free);
  }

  // How much memory a process has

  /** The child of a fork has as much as its parent, unless there was no room for it. */
  lemma ForkSize(s: State, t: State, p: nat, np: nat)
    requires Next(s, t, ForkMem(p, np))
    ensures Piece(s, Mem(p)).Some? && Piece(s, Mem(np)) == None && p != np
    ensures Piece(t, Mem(np)).Some? ==> Piece(t, Mem(np)).value.len == Piece(s, Mem(p)).value.len
    ensures Piece(t, Mem(np)) == None <==> TakenAddr(s.free, Piece(s, Mem(p)).value.len) == 0
  {
    hide TakeFirstFit, TakenAddr;
  }

  /** What a process has stays where and as large as it is, until it is given back. */
  lemma MemStays(s: State, t: State, a: Action, p: nat)
    requires Next(s, t, a) && Piece(s, Mem(p)).Some? && Piece(t, Mem(p)).Some?
    ensures Piece(t, Mem(p)) == Piece(s, Mem(p))
  {
    hide TakeFirstFit, TakenAddr, Insert, Free;
  }

  /** The size that p's latest growproc or exec asked for. */
  function LastGet(acts: seq<Action>, p: nat): nat {
    if acts == [] then 0
    else
      var n := |acts| - 1;
      if acts[n].Get? && acts[n].p == p then acts[n].n else LastGet(acts[..n], p)
  }

  ghost predicate GotOk(s: State, acts: seq<Action>) {
    forall p :: 0 <= p < |s.slots| && OwnsNew(s.slots[p].phase) ==> s.slots[p].newsz == LastGet(acts, p)
  }

  lemma LastGetStep(acts: seq<Action>, a: Action, p: nat)
    ensures LastGet(acts + [a], p) == if a.Get? && a.p == p then a.n else LastGet(acts, p)
  {
    assert (acts + [a])[..|acts|] == acts;
  }

  lemma GotStep(s: State, t: State, acts: seq<Action>, a: Action)
    requires Next(s, t, a) && GotOk(s, acts)
    ensures GotOk(t, acts + [a])
  {
    hide TakeFirstFit, TakenAddr, Insert, Free, LastGet;
    forall p: nat ensures LastGet(acts + [a], p) == if a.Get? && a.p == p then a.n else LastGet(acts, p) { LastGetStep(acts, a, p); }
  }

  lemma {:induction false} RunGot(states: seq<State>, acts: seq<Action>, region: Run, k: nat)
    requires Run0(states, acts, region) && k < |states|
    ensures GotOk(states[k], acts[..k])
  {
    if k != 0 {
      RunGot(states, acts, region, k - 1);
      hide Next, GotOk, Init;
      assert Next(states[k - 1], states[k], acts[k - 1]);
      assert acts[..k] == acts[..k - 1] + [acts[k - 1]];
      GotStep(states[k - 1], states[k], acts[..k - 1], acts[k - 1]);
    }
  }

  /** After growproc or exec has moved to its new memory, the process has the size it asked for. */
  lemma CommitSize(states: seq<State>, acts: seq<Action>, region: Run, k: nat, p: nat)
    requires Run0(states, acts, region) && k < |acts| && acts[k] == Commit(p)
    ensures Piece(states[k + 1], Mem(p)).Some? && Piece(states[k + 1], Mem(p)).value.len == LastGet(acts[..k], p)
    ensures Piece(states[k + 1], Mem(p)) == Piece(states[k], New(p)) && Piece(states[k + 1], New(p)) == None
  {
    RunGot(states, acts, region, k);
    assert Next(states[k], states[k + 1], acts[k]);
    hide Run0;
  }

  // What pipeclose could have looked at

  predicate Got(e: End) { e.Found? || e.Freed? }

  /** pipeclose sees both ends shut, and the pipeclose of the other end has seen that already. */
  ghost predicate Late(s: State, a: Action) {
    a.PipeTest? && a.found && a.i < |s.pipes| && Got(s.pipes[a.i].At(!a.writable))
  }

  predicate BothGot(s: State, i: nat) { i < |s.pipes| && Got(s.pipes[i].read) && Got(s.pipes[i].write) }

  predicate BothFreed(s: State, i: nat) { i < |s.pipes| && s.pipes[i].read.Freed? && s.pipes[i].write.Freed? }

  /** One step of one pipe. */
  lemma PipeStep(s: State, t: State, a: Action, i: nat)
    requires Next(s, t, a)
    ensures BothGot(t, i) && !BothGot(s, i) ==> Late(s, a)
    ensures BothFreed(t, i) && !BothFreed(s, i) ==> Doubles(s, a)
    ensures BothGot(s, i) ==> BothGot(t, i)
    ensures Late(s, a) ==> BothGot(t, a.i)
    ensures Doubles(s, a) ==> BothGot(s, a.i)
    ensures i < |t.pipes| && (i < |s.pipes| ==> !(s.pipes[i].read.Left? && s.pipes[i].write.Left?)) ==>
              !(t.pipes[i].read.Left? && t.pipes[i].write.Left?)
  {
    hide TakeFirstFit, TakenAddr, Insert, Free;
  }

  lemma NoPipes(s: State, region: Run, i: nat)
    requires Init(s, region)
    ensures !BothGot(s, i) && !BothFreed(s, i) && s.pipes == []
  {
  }

  lemma {:induction false} PipeSoFar(states: seq<State>, acts: seq<Action>, region: Run, k: nat, i: nat)
    requires Run0(states, acts, region) && k < |states|
    ensures (forall j :: 0 <= j < k ==> !Late(states[j], acts[j])) ==> !BothGot(states[k], i)
    ensures (forall j :: 0 <= j < k ==> !Doubles(states[j], acts[j])) ==> !BothFreed(states[k], i)
    ensures i < |states[k].pipes| ==> !(states[k].pipes[i].read.Left? && states[k].pipes[i].write.Left?)
  {
    hide Next, Late, Doubles, BothGot, BothFreed, Init;
    if k == 0 {
      NoPipes(states[0], region, i);
    } else {
      PipeSoFar(states, acts, region, k - 1, i);
      assert Next(states[k - 1], states[k], acts[k - 1]);
      PipeStep(states[k - 1], states[k], acts[k - 1], i);
    }
  }

  lemma {:induction false} GotStays(states: seq<State>, acts: seq<Action>, region: Run, j: nat, k: nat, i: nat)
    requires Run0(states, acts, region) && j <= k < |states| && BothGot(states[j], i)
    ensures BothGot(states[k], i)
  {
    if j < k {
      GotStays(states, acts, region, j, k - 1, i);
      hide Next, BothGot;
      assert Next(states[k - 1], states[k], acts[k - 1]);
      PipeStep(states[k - 1], states[k], acts[k - 1], i);
    }
  }

  /** Once both ends are closed, at least one pipeclose has given the page back or is about to: none is leaked. */
  lemma ClosedIsFreed(states: seq<State>, acts: seq<Action>, region: Run, k: nat, i: nat)
    requires Run0(states, acts, region) && k < |states| && i < |states[k].pipes|
    requires !states[k].pipes[i].read.Open? && !states[k].pipes[i].read.Shut?
    requires !states[k].pipes[i].write.Open? && !states[k].pipes[i].write.Shut?
    ensures Got(states[k].pipes[i].read) || Got(states[k].pipes[i].write)
  {
    PipeSoFar(states, acts, region, k, i);
  }

  /** In terms of what pipeclose sees: a run in which every kfree that pipeclose decided on has been made conserves pages,
      without a panic, exactly if no pipeclose saw both ends shut after the other had seen it. */
  lemma ConservedByTests(states: seq<State>, acts: seq<Action>, region: Run)
    requires Run0(states, acts, region)
    requires forall i :: 0 <= i < |states[|acts|].pipes| ==> !states[|acts|].pipes[i].read.Found? && !states[|acts|].pipes[i].write.Found?
    ensures (forall k :: 0 <= k < |states| ==> Sound(states[k], region)) <==>
            (forall j :: 0 <= j < |acts| ==> !Late(states[j], acts[j]))
  {
    ConservedExactly(states, acts, region);
    hide Sound, Next, Init;
    if forall j :: 0 <= j < |acts| ==> !Late(states[j], acts[j]) {
      forall j | 0 <= j < |acts| ensures !Doubles(states[j], acts[j]) {
        assert Next(states[j], states[j + 1], acts[j]);
        if Doubles(states[j], acts[j]) {
          PipeStep(states[j], states[j + 1], acts[j], acts[j].i);
          PipeSoFar(states, acts, region, j, acts[j].i);
        }
      }
    }
    if forall j :: 0 <= j < |acts| ==> !Doubles(states[j], acts[j]) {
      forall j | 0 <= j < |acts| ensures !Late(states[j], acts[j]) {
        if Late(states[j], acts[j]) {
          assert Next(states[j], states[j + 1], acts[j]);
          PipeStep(states[j], states[j + 1], acts[j], acts[j].i);
          GotStays(states, acts, region, j + 1, |acts|, acts[j].i);
          PipeSoFar(states, acts, region, |acts|, acts[j].i);
        }
      }
    }
  }

  // Such runs, on a region of one page: both ends of a pipe are shut, and both closers look after that

  const ONE: Run := Run(PAGE, PAGE)

  /** The states up to the first of the two kfrees. */
  function Closing(): seq<State> {
    [State([ONE], [], [], [], false),
     State([], [], [PipePage(PAGE, Open, Open)], [], false),
     State([], [], [PipePage(PAGE, Open, Shut)], [], false),
     State([], [], [PipePage(PAGE, Shut, Shut)], [], false),
     State([], [], [PipePage(PAGE, Shut, Found)], [], false),
     State([], [], [PipePage(PAGE, Found, Found)], [], false),
     State([ONE], [], [PipePage(PAGE, Found, Freed)], [], false)]
  }

  function ClosingActs(): seq<Action> {
    [PipeAlloc, PipeShut(0, true), PipeShut(0, false), PipeTest(0, true, true), PipeTest(0, false, true), PipeFree(0, true)]
  }

  lemma OnePage()
    ensures WellFormed([ONE]) && (forall a :: Free([ONE], a) <==> In(ONE, a)) && !Free([], PAGE)
    ensures TakenAddr([ONE], PAGE) == PAGE && TakeFirstFit([ONE], PAGE) == [] && Insert([], PAGE, PAGE) == [ONE]
  {
  }

  lemma ClosingRuns()
    ensures Run0(Closing(), ClosingActs(), ONE) && Late(Closing()[4], ClosingActs()[4])
  {
    OnePage();
    hide WellFormed, Insert, TakeFirstFit, TakenAddr;
    forall k | 0 <= k < |ClosingActs()| ensures Next(Closing()[k], Closing()[k + 1], ClosingActs()[k]) {}
  }

  lemma RunOn(states: seq<State>, acts: seq<Action>, region: Run, t: State, a: Action)
    requires Run0(states, acts, region) && Next(states[|acts|], t, a)
    ensures Run0(states + [t], acts + [a], region)
  {
    hide Next, Init;
    forall k | 0 <= k < |acts + [a]| ensures Next((states + [t])[k], (states + [t])[k + 1], (acts + [a])[k]) {
      if k < |acts| { assert Next(states[k], states[k + 1], acts[k]); }
    }
  }

  /** The page is still free at the second kfree, which panics. */
  lemma DoubleKfreePanics() returns (states: seq<State>, acts: seq<Action>)
    ensures Run0(states, acts, ONE) && |states| == 8 && Doubles(states[6], acts[6]) && states[7].panic
  {
    ClosingRuns();
    OnePage();
    var t := State([ONE], [], [PipePage(PAGE, Freed, Freed)], [], true);
    RunOn(Closing(), ClosingActs(), ONE, t, PipeFree(0, false));
    states, acts := Closing() + [t], ClosingActs() + [PipeFree(0, false)];
  }

  /** Another pipe has been given the page by then: it ends up in use, and free for a third. */
  lemma DoubleKfreeShares() returns (states: seq<State>, acts: seq<Action>)
    ensures Run0(states, acts, ONE) && |states| == 9 && Doubles(states[7], acts[7]) && !states[8].panic
    ensures Piece(states[8], Pipe(1)) == Some(ONE) && Free(states[8].free, PAGE)
  {
    ClosingRuns();
    OnePage();
    var t := State([], [], [PipePage(PAGE, Found, Freed), PipePage(PAGE, Open, Open)], [], false);
    RunOn(Closing(), ClosingActs(), ONE, t, PipeAlloc);
    var u := State([ONE], [], [PipePage(PAGE, Freed, Freed), PipePage(PAGE, Open, Open)], [], false);
    RunOn(Closing() + [t], ClosingActs() + [PipeAlloc], ONE, u, PipeFree(0, false));
    states, acts := Closing() + [t] + [u], ClosingActs() + [PipeAlloc] + [PipeFree(0, false)];
  }
}
