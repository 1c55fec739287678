/** The buffer cache and the disk queue under any interleaving of processes and disk interrupts
    (xv6/bio.c, xv6/ide.c:89-150).

    A step is one critical section of buf_table_lock or ide_lock, one action of the disk, or one thing a
    process does to a buffer it has.  sleep gives its lock up in the same step in which it goes to sleep, as
    xv6/proc.c:280-308 arranges, so the states between steps are those in which the locks are free.
 */
module Bio {
  import opened Options
  import opened FsBytes

  /** (dev, sector) */
  type Key = (nat, nat)
  type Platter = map<Key, Block>

  function Read(m: Platter, k: Key): Block { if k in m then m[k] else ZeroBlock() }

  datatype Buf = Buf(busy: bool, valid: bool, dirty: bool, key: Key, data: Block)

  /** The disk: idle, working on a command (a write carries its data), or finished with one. */
  datatype Device = Quiet | Working(key: Key, out: Option<Block>) | Ready(in0: Block)

  /** bufs is buf[]; lru is the list from bufhead.next to bufhead.prev; queue is the list from ide_queue. */
  datatype Cache = Cache(bufs: seq<Buf>, lru: seq<nat>, queue: seq<nat>, device: Device)

  /** Where a process is. */
  datatype Pc =
    | Out                    // not in bread, bwrite or brelse
    | Want(k: Key)           // in bget, about to look for k
    | Asleep(k: Key)         // asleep in bget
    | Fetch(b: nat, k: Key)  // bread got b without its data
    | Flush(b: nat)          // bwrite has marked b dirty
    | InQueue(b: nat, caller: Caller)   // asleep in ide_rw
    | Woken(b: nat, caller: Caller)     // woken there, and about to test the flags of b again

  /** Who called ide_rw. */
  datatype Caller = ByRead(k: Key) | ByWrite

  /** owner, changed and the rest record what happened; the source keeps only the cache and the disk.
      spec holds the contents of the last bwrite of each sector. */
  datatype State = State(c: Cache, disk: Platter, procs: seq<Pc>,
                         owner: seq<Option<nat>>, changed: set<nat>, spec: Platter,
                         released: seq<nat>, clock: nat, asked: seq<nat>, served: seq<nat>)

  // bget's two scans

  predicate Holds(x: Buf, k: Key) { (x.busy || x.valid) && x.key == k }

  /** The first buffer of the list that holds k. */
  function FirstMatch(bufs: seq<Buf>, lru: seq<nat>, k: Key): (r: Option<nat>)
    requires forall j :: 0 <= j < |lru| ==> lru[j] < |bufs|
    ensures r.Some? ==> r.value < |bufs| && r.value in lru && Holds(bufs[r.value], k)
    ensures r.None? ==> forall j :: 0 <= j < |lru| ==> !Holds(bufs[lru[j]], k)
  {
    if lru == [] then None
    else if Holds(bufs[lru[0]], k) then Some(lru[0])
    else FirstMatch(bufs, lru[1..], k)
  }

  /** The last buffer of the list that is not busy. */
  function LastFree(bufs: seq<Buf>, lru: seq<nat>): (r: Option<nat>)
    requires forall j :: 0 <= j < |lru| ==> lru[j] < |bufs|
    ensures r.Some? ==> r.value < |bufs| && !bufs[r.value].busy
  {
    if lru == [] then None
    else
      var n := |lru| - 1;
      if !bufs[lru[n]].busy then Some(lru[n]) else LastFree(bufs, lru[..n])
  }

  /** What bget does once it has buf_table_lock. */
  datatype Got = Sleeps | Hit(b: nat) | Miss(b: nat) | NoBuffers

  function Bget(c: Cache, k: Key): (r: Got)
    requires forall j :: 0 <= j < |c.lru| ==> c.lru[j] < |c.bufs|
    ensures r.Hit? || r.Miss? ==> r.b < |c.bufs|
  {
    match FirstMatch(c.bufs, c.lru, k)
    case Some(b) => if c.bufs[b].busy then Sleeps else Hit(b)
    case None => match LastFree(c.bufs, c.lru)
                 case Some(b) => Miss(b)
                 case None => NoBuffers
  }

  function SetBuf(c: Cache, b: nat, x: Buf): Cache
    requires b < |c.bufs|
  {
    c.(bufs := c.bufs[b := x])
  }

  function Take(c: Cache, b: nat): Cache
    requires b < |c.bufs|
  {
    SetBuf(c, b, c.bufs[b].(busy := true))
  }

  function Recycle(c: Cache, b: nat, k: Key): Cache
    requires b < |c.bufs|
  {
    SetBuf(c, b, c.bufs[b].(busy := true, valid := false, dirty := false, key := k))
  }

  /** b moves to the front of the list. */
  function ToFront(lru: seq<nat>, b: nat): (r: seq<nat>)
    requires b in lru
  {
    [b] + Without(lru, b)
  }

  function Without(lru: seq<nat>, b: nat): seq<nat> {
    if lru == [] then [] else if lru[0] == b then lru[1..] else [lru[0]] + Without(lru[1..], b)
  }

  function Brelse(c: Cache, b: nat): Cache
    requires b < |c.bufs| && b in c.lru
  {
    SetBuf(c, b, c.bufs[b].(busy := false)).(lru := ToFront(c.lru, b))
  }

  // The disk queue

  /** The command for a buffer: ide_start_request. */
  function Command(x: Buf): Device { Working(x.key, if x.dirty then Some(x.data) else None) }

  /** ide_rw up to its sleep. */
  function Enqueue(c: Cache, b: nat): Cache
    requires b < |c.bufs|
  {
    c.(queue := c.queue + [b], device := if c.queue == [] then Command(c.bufs[b]) else c.device)
  }

  /** ide_intr, for the command that has just finished. */
  function Intr(c: Cache): Cache
    requires c.queue != [] && (forall j :: 0 <= j < |c.queue| ==> c.queue[j] < |c.bufs|) && c.device.Ready?
  {
    var b := c.queue[0];
    var x := c.bufs[b];
    var y := x.(data := if x.dirty then x.data else c.device.in0, valid := true, dirty := false);
    var bufs := c.bufs[b := y];
    var rest := c.queue[1..];
    c.(bufs := bufs, queue := rest, device := if rest == [] then Quiet else Command(bufs[rest[0]]))
  }

  // Steps

  datatype Action =
    | Start(p: nat, k: Key)            // bread is called
    | Look(p: nat)                     // bget's critical section
    | Submit(p: nat)                   // ide_rw's critical section
    | Perform                          // the disk does its command
    | Interrupt                        // ide_intr
    | Recheck(p: nat)                  // ide_rw tests the flags again, and returns or sleeps on
    | Rouse(p: nat)                    // kill wakes a sleeper
    | Change(p: nat, b: nat, d: Block) // the process writes to its buffer
    | Write(p: nat, b: nat)            // bwrite is called
    | Release(p: nat, b: nat)          // brelse's critical section

  function NBufs(s: State): nat { |s.c.bufs| }

  ghost predicate Shape(s: State) {
    && |s.owner| == |s.c.bufs| == |s.released| == |s.c.lru|
    && (forall j :: 0 <= j < |s.c.lru| ==> s.c.lru[j] < |s.c.bufs|)
    && (forall j :: 0 <= j < |s.c.queue| ==> s.c.queue[j] < |s.c.bufs|)
    && (forall p :: 0 <= p < |s.procs| ==> PcFits(s.procs[p], |s.c.bufs|))
  }

  ghost predicate PcFits(pc: Pc, n: nat) {
    PcBuf(pc).Some? ==> PcBuf(pc).value < n
  }

  /** The buffer a process in ide_rw, or on its way there, works on. */
  function PcBuf(pc: Pc): Option<nat> {
    if pc.Fetch? || pc.Flush? || pc.InQueue? || pc.Woken? then Some(pc.b) else None
  }

  /** A process that has buffer b and is not in the middle of a call. */
  ghost predicate Has(s: State, p: nat, b: nat) {
    p < |s.procs| && s.procs[p].Out? && b < |s.owner| && s.owner[b] == Some(p)
  }

  /** What a process sleeps on.  bget sleeps on buf, which is the address of buf[0]; ide_rw on the buffer. */
  function Channel(pc: Pc): Option<nat> {
    if pc.Asleep? then Some(0) else if pc.InQueue? then Some(pc.b) else None
  }

  function Roused(pc: Pc): Pc {
    match pc
    case Asleep(k) => Want(k)
    case InQueue(b, c) => Woken(b, c)
    case _ => pc
  }

  /** wakeup(&buf[c]) */
  function Wake(procs: seq<Pc>, c: nat): (r: seq<Pc>)
    ensures |r| == |procs|
    ensures forall p :: 0 <= p < |procs| ==> r[p] == if Channel(procs[p]) == Some(c) then Roused(procs[p]) else procs[p]
  {
    seq(|procs|, p requires 0 <= p < |procs| => if Channel(procs[p]) == Some(c) then Roused(procs[p]) else procs[p])
  }

  /** The test at the head of ide_rw's waiting loop. */
  predicate Synced(x: Buf) { x.valid && !x.dirty }

  ghost predicate Next(s: State, t: State, a: Action)
    requires Shape(s)
  {
    match a
    case Start(p, k) => p < |s.procs| && s.procs[p].Out? && t == s.(procs := s.procs[p := Want(k)])
    case Look(p) => p < |s.procs| && s.procs[p].Want? && NextLook(s, t, p)
    case Submit(p) => p < |s.procs| && (s.procs[p].Fetch? || s.procs[p].Flush?) && NextSubmit(s, t, p)
    case Perform =>
      && s.c.device.Working?
      && t == s.(disk := if s.c.device.out.Some? then s.disk[s.c.device.key := s.c.device.out.value] else s.disk,
                 c := s.c.(device := Ready(Read(s.disk, s.c.device.key))))
    case Interrupt =>
      && s.c.device.Ready? && s.c.queue != []
      && t == s.(c := Intr(s.c), procs := Wake(s.procs, s.c.queue[0]), served := s.served + [s.c.queue[0]])
    case Recheck(p) =>
      && p < |s.procs| && s.procs[p].Woken?
      && t == s.(procs := s.procs[p := if Synced(s.c.bufs[s.procs[p].b]) then Out else InQueue(s.procs[p].b, s.procs[p].caller)])
    case Rouse(p) => p < |s.procs| && t == s.(procs := s.procs[p := Roused(s.procs[p])])
    case Change(p, b, d) =>
      Has(s, p, b) && t == s.(c := SetBuf(s.c, b, s.c.bufs[b].(data := d)), changed := s.changed + {b})
    case Write(p, b) =>
      Has(s, p, b) && t == s.(c := SetBuf(s.c, b, s.c.bufs[b].(dirty := true)), procs := s.procs[p := Flush(b)])
    case Release(p, b) =>
      && Has(s, p, b) && b !in s.changed && b in s.c.lru
      && t == s.(c := Brelse(s.c, b), procs := Wake(s.procs, 0), owner := s.owner[b := None],
                 released := s.released[b := s.clock], clock := s.clock + 1)
  }

  ghost predicate NextLook(s: State, t: State, p: nat)
    requires Shape(s) && p < |s.procs| && s.procs[p].Want?
  {
    var k := s.procs[p].k;
    match Bget(s.c, k)
    case Sleeps => t == s.(procs := s.procs[p := Asleep(k)])
    case Hit(b) => t == s.(c := Take(s.c, b), owner := s.owner[b := Some(p)], procs := s.procs[p := Out])
    case Miss(b) => t == s.(c := Recycle(s.c, b, k), owner := s.owner[b := Some(p)], procs := s.procs[p := Fetch(b, k)])
    case NoBuffers => false
  }

  function CallerOf(pc: Pc): Caller { if pc.Fetch? then ByRead(pc.k) else ByWrite }

  ghost predicate NextSubmit(s: State, t: State, p: nat)
    requires Shape(s) && p < |s.procs| && (s.procs[p].Fetch? || s.procs[p].Flush?)
  {
    var b := s.procs[p].b;
    var x := s.c.bufs[b];
    t == s.(c := Enqueue(s.c, b), procs := s.procs[p := InQueue(b, CallerOf(s.procs[p]))], asked := s.asked + [b],
            changed := s.changed - {b}, spec := if x.dirty then s.spec[x.key := x.data] else s.spec)
  }

  // What every step keeps

  /** What is known of a buffer from where its owner is. */
  ghost predicate Phase(s: State, b: nat)
    requires Shape(s) && b < NBufs(s)
  {
    var x := s.c.bufs[b];
    match s.owner[b]
    case None =>
      && !x.busy && !x.dirty && b !in s.c.queue && b !in s.changed
      && (x.valid ==> x.data == Read(s.disk, x.key) == Read(s.spec, x.key))
    case Some(p) =>
      && x.busy && p < |s.procs|
      && match s.procs[p]
         case Fetch(c, _) => if b == c then !x.valid && !x.dirty && b !in s.c.queue && b !in s.changed else Quietly(s, b)
         case Flush(c) => if b == c then x.valid && x.dirty && b !in s.c.queue else Quietly(s, b)
         case InQueue(c, _) => if b == c then Queued(s, b) else Quietly(s, b)
         case Woken(c, _) => if b == c then Queued(s, b) || (b !in s.changed && Quietly(s, b)) else Quietly(s, b)
         case _ => Quietly(s, b)
  }

  /** A buffer the disk has not dealt with yet. */
  ghost predicate Queued(s: State, b: nat)
    requires Shape(s) && b < NBufs(s)
  {
    var x := s.c.bufs[b];
    (x.valid <==> x.dirty) && b in s.c.queue && b !in s.changed && (x.dirty ==> x.data == Read(s.spec, x.key))
  }

  /** A buffer its owner just keeps. */
  ghost predicate Quietly(s: State, b: nat)
    requires Shape(s) && b < NBufs(s)
  {
    var x := s.c.bufs[b];
    x.valid && !x.dirty && b !in s.c.queue && (b !in s.changed ==> x.data == Read(s.spec, x.key))
  }

  /** The sector a process in bread was asked for. */
  function PcKey(pc: Pc): Option<Key> {
    match pc
    case Want(k) => Some(k)
    case Asleep(k) => Some(k)
    case Fetch(_, k) => Some(k)
    case InQueue(_, ByRead(k)) => Some(k)
    case Woken(_, ByRead(k)) => Some(k)
    case _ => None
  }

  ghost predicate ProcOk(s: State, p: nat)
    requires Shape(s) && p < |s.procs|
  {
    && (PcBuf(s.procs[p]).Some? ==> s.owner[PcBuf(s.procs[p]).value] == Some(p))
    && (PcKey(s.procs[p]).Some? && PcBuf(s.procs[p]).Some? ==>
          s.c.bufs[PcBuf(s.procs[p]).value].key == PcKey(s.procs[p]).value)
    && (s.procs[p].Asleep? ==> SomeBusy(s.c.bufs, s.procs[p].k))
  }

  ghost predicate SomeBusy(bufs: seq<Buf>, k: Key) {
    exists b :: 0 <= b < |bufs| && bufs[b].busy && bufs[b].key == k
  }

  /** At most one busy or valid buffer for each sector. */
  ghost predicate OnePerSector(bufs: seq<Buf>) {
    forall a, b :: 0 <= a < |bufs| && 0 <= b < |bufs| && a != b && Holds(bufs[a], bufs[a].key) && Holds(bufs[b], bufs[b].key)
      ==> bufs[a].key != bufs[b].key
  }

  /** The disk has the last bwritten contents, except where a write is still in the queue. */
  ghost predicate Pending(c: Cache, k: Key) {
    exists b :: 0 <= b < |c.bufs| && b in c.queue && c.bufs[b].dirty && c.bufs[b].key == k
  }

  ghost predicate DiskOk(s: State) {
    forall k: Key :: Read(s.disk, k) == Read(s.spec, k) || Pending(s.c, k)
  }

  ghost predicate Distinct(q: seq<nat>) {
    forall i, j :: 0 <= i < j < |q| ==> q[i] != q[j]
  }

  ghost predicate DeviceOk(s: State)
    requires Shape(s)
  {
    && Distinct(s.c.queue) && (s.c.queue == [] <==> s.c.device.Quiet?)
    && (s.c.queue != [] ==>
          var x := s.c.bufs[s.c.queue[0]];
          && (s.c.device.Working? ==> s.c.device == Command(x))
          && (s.c.device.Ready? ==>
                if x.dirty then Read(s.disk, x.key) == x.data else s.c.device.in0 == Read(s.disk, x.key)))
  }

  /** The list is in order of release, the latest first. */
  ghost predicate LruOk(s: State)
    requires Shape(s)
  {
    && Distinct(s.c.lru)
    && ByRelease(s.c.lru, s.released)
    && (forall b :: 0 <= b < NBufs(s) ==> s.released[b] < s.clock && b in s.c.lru)
  }

  ghost predicate Inv(s: State) {
    && Shape(s) && OnePerSector(s.c.bufs) && DiskOk(s) && DeviceOk(s) && LruOk(s)
    && (forall b :: 0 <= b < NBufs(s) ==> Phase(s, b))
    && (forall p :: 0 <= p < |s.procs| ==> ProcOk(s, p))
    && s.asked == s.served + s.c.queue
  }

  // One step at a time

  lemma InvFacts(s: State, b: nat)
    requires Inv(s) && b < NBufs(s)
    ensures Shape(s) && Phase(s, b) && b in s.c.lru
  {
  }

  lemma ProcFacts(s: State, p: nat)
    requires Inv(s) && p < |s.procs|
    ensures Shape(s) && ProcOk(s, p) && PcFits(s.procs[p], NBufs(s))
  {
  }

  /** Two buffers that are busy or valid are for different sectors. */
  lemma Differ(s: State, a: nat, b: nat)
    requires Inv(s) && a < NBufs(s) && b < NBufs(s) && a != b
    requires (s.c.bufs[a].busy || s.c.bufs[a].valid) && (s.c.bufs[b].busy || s.c.bufs[b].valid)
    ensures s.c.bufs[a].key != s.c.bufs[b].key
  {
    assert Holds(s.c.bufs[a], s.c.bufs[a].key) && Holds(s.c.bufs[b], s.c.bufs[b].key);
  }

  lemma StartKeeps(s: State, t: State, p: nat, k: Key)
    requires Inv(s) && p < |s.procs| && s.procs[p].Out? && t == s.(procs := s.procs[p := Want(k)])
    ensures Inv(t)
  {
    hide OnePerSector, DiskOk, LruOk;
    forall b | 0 <= b < NBufs(t) ensures Phase(t, b) { assert Phase(s, b); }
    forall q | 0 <= q < |t.procs| ensures ProcOk(t, q) { assert ProcOk(s, q); }
    assert DiskOk(t) by { DiskFrame(s, t); }
    assert LruOk(t) by { LruFrame(s, t); }
  }

  lemma DiskFrame(s: State, t: State)
    requires DiskOk(s) && t.disk == s.disk && t.spec == s.spec
    requires forall k: Key :: Pending(s.c, k) ==> Pending(t.c, k)
    ensures DiskOk(t)
  {
  }

  lemma LruFrame(s: State, t: State)
    requires Shape(s) && Shape(t) && LruOk(s) && t.c.lru == s.c.lru && t.released == s.released && t.clock == s.clock
    requires NBufs(s) == NBufs(t)
    ensures LruOk(t)
  {
  }

  lemma SleepsKeeps(s: State, t: State, p: nat)
    requires Inv(s) && p < |s.procs| && s.procs[p].Want? && Bget(s.c, s.procs[p].k).Sleeps? && NextLook(s, t, p)
    ensures Inv(t)
  {
    hide OnePerSector, DiskOk, LruOk;
    forall b | 0 <= b < NBufs(t) ensures Phase(t, b) { assert Phase(s, b); }
    var m := FirstMatch(s.c.bufs, s.c.lru, s.procs[p].k).value;
    assert s.c.bufs[m].busy;
    forall q | 0 <= q < |t.procs| ensures ProcOk(t, q) { assert ProcOk(s, q); }
    assert DiskOk(t) by { DiskFrame(s, t); }
    assert LruOk(t) by { LruFrame(s, t); }
  }

  /** Buffer b changes and nothing else does, but for what its owner is doing. */
  lemma PhaseFrame(s: State, t: State, b: nat, c: nat)
    requires Shape(s) && Shape(t) && c < NBufs(s) == NBufs(t) && c != b && Phase(s, c)
    requires t.c.bufs[c] == s.c.bufs[c] && t.owner[c] == s.owner[c] && (c in t.c.queue <==> c in s.c.queue)
    requires c in t.changed <==> c in s.changed
    requires Read(t.disk, s.c.bufs[c].key) == Read(s.disk, s.c.bufs[c].key)
    requires Read(t.spec, s.c.bufs[c].key) == Read(s.spec, s.c.bufs[c].key)
    requires |t.procs| == |s.procs|
    requires s.owner[c].Some? && s.owner[c].value < |s.procs| ==>
               var q, r := s.procs[s.owner[c].value], t.procs[s.owner[c].value];
               PcBuf(q) == Some(c) || PcBuf(r) == Some(c) ==> r == q || r == Roused(q)
    ensures Phase(t, c)
  {
  }

  lemma SomeBusyKept(a: seq<Buf>, b: seq<Buf>, k: Key)
    requires SomeBusy(a, k) && |a| == |b|
    requires forall i :: 0 <= i < |a| && a[i].busy ==> b[i].busy && b[i].key == a[i].key
    ensures SomeBusy(b, k)
  {
  }

  lemma PendingKept(a: Cache, b: Cache, k: Key)
    requires Pending(a, k) && |a.bufs| == |b.bufs|
    requires forall i :: 0 <= i < |a.bufs| && i in a.queue ==> i in b.queue && b.bufs[i] == a.bufs[i]
    ensures Pending(b, k)
  {
  }

  /** Process p does something to buffer b, which is not in the queue. */
  ghost predicate OneBuf(s: State, t: State, p: nat, b: nat)
    requires Shape(s)
  {
    && Shape(t) && b < NBufs(s) == NBufs(t) && p < |s.procs| == |t.procs| && b !in s.c.queue
    && t.c == s.c.(bufs := s.c.bufs[b := t.c.bufs[b]]) && t.procs == s.procs[p := t.procs[p]]
    && t.owner == s.owner[b := t.owner[b]] && t.changed - {b} == s.changed - {b}
    && t.disk == s.disk && t.spec == s.spec && t.released == s.released && t.clock == s.clock
    && t.asked == s.asked && t.served == s.served
  }

  lemma OneBufPhase(s: State, t: State, p: nat, b: nat, c: nat)
    requires Inv(s) && OneBuf(s, t, p, b) && c < NBufs(s) && Phase(t, b)
    requires PcBuf(s.procs[p]) == None || PcBuf(s.procs[p]) == Some(b)
    requires PcBuf(t.procs[p]) == None || PcBuf(t.procs[p]) == Some(b)
    ensures Phase(t, c)
  {
    InvFacts(s, c);
    hide Inv;
    if c != b {
      assert c in t.changed - {b} <==> c in s.changed - {b};
      PhaseFrame(s, t, b, c);
    }
  }

  lemma OneBufProc(s: State, t: State, p: nat, b: nat, q: nat)
    requires Inv(s) && OneBuf(s, t, p, b) && q < |s.procs| && ProcOk(t, p)
    requires s.owner[b] == None || s.owner[b] == Some(p)
    requires s.c.bufs[b].busy ==> t.c.bufs[b].busy && t.c.bufs[b].key == s.c.bufs[b].key
    ensures ProcOk(t, q)
  {
    ProcFacts(s, q);
    hide Inv;
    if q != p && s.procs[q].Asleep? { SomeBusyKept(s.c.bufs, t.c.bufs, s.procs[q].k); }
  }

  lemma OneBufKeeps(s: State, t: State, p: nat, b: nat)
    requires Inv(s) && OneBuf(s, t, p, b) && OnePerSector(t.c.bufs) && Phase(t, b) && ProcOk(t, p)
    requires s.owner[b] == None || s.owner[b] == Some(p)
    requires PcBuf(s.procs[p]) == None || PcBuf(s.procs[p]) == Some(b)
    requires PcBuf(t.procs[p]) == None || PcBuf(t.procs[p]) == Some(b)
    requires s.c.bufs[b].busy ==> t.c.bufs[b].busy && t.c.bufs[b].key == s.c.bufs[b].key
    ensures Inv(t)
  {
    hide OnePerSector, DiskOk, LruOk, Phase, ProcOk;
    forall c | 0 <= c < NBufs(t) ensures Phase(t, c) { OneBufPhase(s, t, p, b, c); }
    forall q | 0 <= q < |t.procs| ensures ProcOk(t, q) { OneBufProc(s, t, p, b, q); }
    assert DiskOk(t) by {
      forall k | Pending(s.c, k) ensures Pending(t.c, k) { PendingKept(s.c, t.c, k); }
      DiskFrame(s, t);
    }
    assert LruOk(t) by { LruFrame(s, t); }
  }

  lemma SameKeys(s: State, t: State, b: nat)
    requires Inv(s) && b < NBufs(s) == NBufs(t) && t.c.bufs == s.c.bufs[b := t.c.bufs[b]]
    requires var x, y := s.c.bufs[b], t.c.bufs[b]; x.key == y.key && (y.busy || y.valid ==> x.busy || x.valid)
    ensures OnePerSector(t.c.bufs)
  {
    forall x, y | 0 <= x < NBufs(t) && 0 <= y < NBufs(t) && x != y && Holds(t.c.bufs[x], t.c.bufs[x].key)
                  && Holds(t.c.bufs[y], t.c.bufs[y].key)
      ensures t.c.bufs[x].key != t.c.bufs[y].key
    {
      Differ(s, x, y);
    }
  }

  lemma NewKey(s: State, t: State, b: nat, k: Key)
    requires Inv(s) && b < NBufs(s) == NBufs(t) && t.c.bufs == s.c.bufs[b := t.c.bufs[b]] && t.c.bufs[b].key == k
    requires FirstMatch(s.c.bufs, s.c.lru, k).None?
    ensures OnePerSector(t.c.bufs)
  {
    forall x | 0 <= x < NBufs(s) ensures !Holds(s.c.bufs[x], k) { InvFacts(s, x); }
    forall x, y | 0 <= x < NBufs(t) && 0 <= y < NBufs(t) && x != y && Holds(t.c.bufs[x], t.c.bufs[x].key)
                  && Holds(t.c.bufs[y], t.c.bufs[y].key)
      ensures t.c.bufs[x].key != t.c.bufs[y].key
    {
      if x != b && y != b { Differ(s, x, y); }
    }
  }

  lemma HitKeeps(s: State, t: State, p: nat, b: nat)
    requires Inv(s) && p < |s.procs| && s.procs[p].Want? && b < NBufs(s) && !s.c.bufs[b].busy && s.c.bufs[b].valid
    requires t == s.(c := Take(s.c, b), owner := s.owner[b := Some(p)], procs := s.procs[p := Out])
    ensures Inv(t)
  {
    hide Inv, OnePerSector;
    InvFacts(s, b);
    SameKeys(s, t, b);
    OneBufKeeps(s, t, p, b);
  }

  lemma MissKeeps(s: State, t: State, p: nat, b: nat)
    requires Inv(s) && p < |s.procs| && s.procs[p].Want? && b < NBufs(s) && !s.c.bufs[b].busy
    requires FirstMatch(s.c.bufs, s.c.lru, s.procs[p].k).None?
    requires t == s.(c := Recycle(s.c, b, s.procs[p].k), owner := s.owner[b := Some(p)], procs := s.procs[p := Fetch(b, s.procs[p].k)])
    ensures Inv(t)
  {
    hide Inv, OnePerSector, FirstMatch;
    InvFacts(s, b);
    NewKey(s, t, b, s.procs[p].k);
    OneBufKeeps(s, t, p, b);
  }

  lemma LookKeeps(s: State, t: State, p: nat)
    requires Inv(s) && p < |s.procs| && s.procs[p].Want? && NextLook(s, t, p)
    ensures Inv(t)
  {
    hide Inv, FirstMatch, LastFree, Take, Recycle;
    ProcFacts(s, p);
    match Bget(s.c, s.procs[p].k)
    case Sleeps => SleepsKeeps(s, t, p);
    case Hit(b) => HitKeeps(s, t, p, b);
    case Miss(b) => MissKeeps(s, t, p, b);
  }

  lemma ChangeKeeps(s: State, t: State, p: nat, b: nat, d: Block)
    requires Inv(s) && Has(s, p, b)
    requires t == s.(c := SetBuf(s.c, b, s.c.bufs[b].(data := d)), changed := s.changed + {b})
    ensures Inv(t)
  {
    InvFacts(s, b);
    ProcFacts(s, p);
    SameKeys(s, t, b);
    hide Inv, OnePerSector;
    OneBufKeeps(s, t, p, b);
  }

  lemma WriteKeeps(s: State, t: State, p: nat, b: nat)
    requires Inv(s) && Has(s, p, b)
    requires t == s.(c := SetBuf(s.c, b, s.c.bufs[b].(dirty := true)), procs := s.procs[p := Flush(b)])
    ensures Inv(t)
  {
    InvFacts(s, b);
    ProcFacts(s, p);
    SameKeys(s, t, b);
    hide Inv, OnePerSector;
    OneBufKeeps(s, t, p, b);
  }

  /** ide_rw looks at the flags again. */
  lemma RecheckKeeps(s: State, t: State, p: nat)
    requires Inv(s) && Next(s, t, Recheck(p))
    ensures Inv(t)
  {
    ProcFacts(s, p);
    var b := s.procs[p].b;
    InvFacts(s, b);
    SameKeys(s, t, b);
    hide Inv, OnePerSector;
    if b in s.c.queue { MoveKeeps(s, t, p); } else { OneBufKeeps(s, t, p, b); }
  }

  lemma RouseKeeps(s: State, t: State, p: nat)
    requires Inv(s) && Next(s, t, Rouse(p))
    ensures Inv(t)
  {
    ProcFacts(s, p);
    hide Inv;
    MoveKeeps(s, t, p);
  }

  /** A process falls asleep or wakes up over the same buffer. */
  lemma MoveKeeps(s: State, t: State, p: nat)
    requires Inv(s) && p < |s.procs| == |t.procs| && t == s.(procs := s.procs[p := t.procs[p]])
    requires t.procs[p] == Roused(s.procs[p]) || (s.procs[p].Woken? && t.procs[p] == InQueue(s.procs[p].b, s.procs[p].caller))
    requires t.procs[p].InQueue? ==> t.procs[p].b in s.c.queue
    ensures Inv(t)
  {
    hide OnePerSector, DiskOk, LruOk;
    forall b | 0 <= b < NBufs(t) ensures Phase(t, b) { assert Phase(s, b); }
    forall q | 0 <= q < |t.procs| ensures ProcOk(t, q) { assert ProcOk(s, q); }
    assert DiskOk(t) by { DiskFrame(s, t); }
    assert LruOk(t) by { LruFrame(s, t); }
  }

  // Submitting

  lemma SubmitPhase(s: State, t: State, p: nat, c: nat)
    requires Inv(s) && p < |s.procs| && (s.procs[p].Fetch? || s.procs[p].Flush?) && NextSubmit(s, t, p)
    requires Shape(t) && c < NBufs(s)
    ensures Phase(t, c)
  {
    ProcFacts(s, p);
    var b := s.procs[p].b;
    InvFacts(s, b);
    InvFacts(s, c);
    if c != b {
      if s.c.bufs[c].busy || s.c.bufs[c].valid { Differ(s, b, c); }
      hide Inv;
      assert c in t.c.queue <==> c in s.c.queue;
      if s.c.bufs[c].key != s.c.bufs[b].key {
        PhaseFrame(s, t, b, c);
      }
    }
  }

  lemma SubmitDisk(s: State, t: State, p: nat)
    requires Inv(s) && p < |s.procs| && (s.procs[p].Fetch? || s.procs[p].Flush?) && NextSubmit(s, t, p)
    ensures DiskOk(t)
  {
    var b := s.procs[p].b;
    hide OnePerSector, LruOk, DeviceOk, Phase, ProcOk;
    forall k: Key ensures Read(t.disk, k) == Read(t.spec, k) || Pending(t.c, k) {
      assert b in t.c.queue;
      if Pending(s.c, k) { PendingKept(s.c, t.c, k); }
    }
  }

  lemma SubmitDevice(s: State, t: State, p: nat)
    requires Inv(s) && p < |s.procs| && (s.procs[p].Fetch? || s.procs[p].Flush?) && NextSubmit(s, t, p)
    requires Shape(t)
    ensures DeviceOk(t)
  {
    InvFacts(s, s.procs[p].b);
    ProcFacts(s, p);
    hide OnePerSector, DiskOk, LruOk, Command;
  }

  lemma SubmitKeeps(s: State, t: State, p: nat)
    requires Inv(s) && p < |s.procs| && (s.procs[p].Fetch? || s.procs[p].Flush?) && NextSubmit(s, t, p)
    ensures Inv(t)
  {
    hide OnePerSector, DiskOk, LruOk, DeviceOk, Phase;
    ProcFacts(s, p);
    assert Shape(t);
    forall c | 0 <= c < NBufs(t) ensures Phase(t, c) { SubmitPhase(s, t, p, c); }
    forall q | 0 <= q < |t.procs| ensures ProcOk(t, q) { assert ProcOk(s, q); }
    SubmitDisk(s, t, p);
    SubmitDevice(s, t, p);
    assert LruOk(t) by { LruFrame(s, t); }
  }

  // The disk

  /** A buffer in the queue belongs to a process in ide_rw. */
  lemma QueuedIs(s: State, b: nat)
    requires Inv(s) && b < NBufs(s) && b in s.c.queue
    ensures s.owner[b].Some? && s.owner[b].value < |s.procs| && PcBuf(s.procs[s.owner[b].value]) == Some(b)
    ensures var x := s.c.bufs[b]; x.busy && (x.valid <==> x.dirty) && b !in s.changed && (x.dirty ==> x.data == Read(s.spec, x.key))
  {
    InvFacts(s, b);
  }

  /** Only the buffer itself can have a write of its sector pending. */
  lemma PendingIs(s: State, b: nat)
    requires Inv(s) && b < NBufs(s) && (s.c.bufs[b].busy || s.c.bufs[b].valid) && Pending(s.c, s.c.bufs[b].key)
    ensures b in s.c.queue && s.c.bufs[b].dirty
  {
    var k := s.c.bufs[b].key;
    var c :| 0 <= c < NBufs(s) && c in s.c.queue && s.c.bufs[c].dirty && s.c.bufs[c].key == k;
    QueuedIs(s, c);
    if c != b { Differ(s, b, c); }
  }

  lemma PerformPhase(s: State, t: State, c: nat)
    requires Inv(s) && Next(s, t, Perform) && c < NBufs(s)
    ensures Shape(t) && Phase(t, c)
  {
    InvFacts(s, c);
    var b := s.c.queue[0];
    QueuedIs(s, b);
    if c != b && (s.c.bufs[c].busy || s.c.bufs[c].valid) { Differ(s, b, c); }
    hide OnePerSector, DiskOk, LruOk, ProcOk;
  }

  lemma PerformDisk(s: State, t: State)
    requires Inv(s) && Next(s, t, Perform)
    ensures DiskOk(t)
  {
    var b := s.c.queue[0];
    QueuedIs(s, b);
    assert DiskOk(s) && DeviceOk(s);
    hide Inv;
    forall k: Key ensures Read(t.disk, k) == Read(t.spec, k) || Pending(t.c, k) {
      if Pending(s.c, k) { PendingKept(s.c, t.c, k); }
    }
  }

  lemma PerformKeeps(s: State, t: State)
    requires Inv(s) && Next(s, t, Perform)
    ensures Inv(t)
  {
    hide OnePerSector, DiskOk, LruOk, Phase;
    forall c | 0 <= c < NBufs(t) ensures Phase(t, c) { PerformPhase(s, t, c); }
    forall q | 0 <= q < |t.procs| ensures ProcOk(t, q) { assert ProcOk(s, q); }
    PerformDisk(s, t);
    assert LruOk(t) by { LruFrame(s, t); }
  }

  /** The data ide_intr leaves in the buffer is what was last bwritten. */
  lemma ServedData(s: State)
    requires Inv(s) && s.c.device.Ready? && s.c.queue != []
    ensures var b := s.c.queue[0];
            var x := s.c.bufs[b];
            (if x.dirty then x.data else s.c.device.in0) == Read(s.spec, x.key) == Read(s.disk, x.key)
  {
    var b := s.c.queue[0];
    QueuedIs(s, b);
    assert DeviceOk(s) && DiskOk(s);
    if !s.c.bufs[b].dirty {
      if Pending(s.c, s.c.bufs[b].key) { PendingIs(s, b); }
    }
  }

  lemma IntrPhase(s: State, t: State, c: nat)
    requires Inv(s) && Next(s, t, Interrupt) && c < NBufs(s) && Shape(t)
    ensures Phase(t, c)
  {
    InvFacts(s, c);
    var b := s.c.queue[0];
    QueuedIs(s, b);
    ServedData(s);
    assert Distinct(s.c.queue) by { assert DeviceOk(s); }
    hide Inv;
    HeadGone(s.c.queue, c);
    if c != b { PhaseFrame(s, t, b, c); }
  }

  lemma HeadGone(q: seq<nat>, c: nat)
    requires q != [] && Distinct(q)
    ensures c in q[1..] <==> c in q && c != q[0]
  {
  }

  lemma IntrDisk(s: State, t: State)
    requires Inv(s) && Next(s, t, Interrupt)
    ensures DiskOk(t)
  {
    ServedData(s);
    assert DiskOk(s);
    assert Distinct(s.c.queue) by { assert DeviceOk(s); }
    hide Inv, ZeroBlock;
    forall k: Key ensures Read(t.disk, k) == Read(t.spec, k) || Pending(t.c, k) {
      if Pending(s.c, k) && k != s.c.bufs[s.c.queue[0]].key {
        var c :| 0 <= c < NBufs(s) && c in s.c.queue && s.c.bufs[c].dirty && s.c.bufs[c].key == k;
        HeadGone(s.c.queue, c);
        assert t.c.bufs[c] == s.c.bufs[c];
      }
    }
  }

  lemma IntrKeeps(s: State, t: State)
    requires Inv(s) && Next(s, t, Interrupt)
    ensures Inv(t)
  {
    var b := s.c.queue[0];
    assert Shape(t);
    assert OnePerSector(t.c.bufs) by { QueuedIs(s, b); SameKeys(s, t, b); }
    hide OnePerSector, DiskOk, LruOk, Phase;
    forall c | 0 <= c < NBufs(t) ensures Phase(t, c) { IntrPhase(s, t, c); }
    forall q | 0 <= q < |t.procs| ensures ProcOk(t, q) {
      assert ProcOk(s, q);
      if s.procs[q].Asleep? { SomeBusyKept(s.c.bufs, t.c.bufs, s.procs[q].k); }
    }
    IntrDisk(s, t);
    assert LruOk(t) by { LruFrame(s, t); }
    assert DeviceOk(t);
    assert s.c.queue == [b] + s.c.queue[1..];
    assert t.asked == t.served + t.c.queue;
  }

  // Releasing

  lemma {:induction false} WithoutIs(lru: seq<nat>, b: nat)
    requires Distinct(lru)
    ensures Distinct(Without(lru, b)) && b !in Without(lru, b)
    ensures forall c :: c in Without(lru, b) <==> c in lru && c != b
    ensures |Without(lru, b)| == |lru| - if b in lru then 1 else 0
  {
    if lru != [] {
      assert lru == [lru[0]] + lru[1..];
      assert lru[0] !in lru[1..];
      if lru[0] != b {
        WithoutIs(lru[1..], b);
        assert Without(lru, b) == [lru[0]] + Without(lru[1..], b);
      }
    }
  }

  /** Each entry of the list was released after those behind it. */
  ghost predicate ByRelease(lru: seq<nat>, released: seq<nat>) {
    && (forall j :: 0 <= j < |lru| ==> lru[j] < |released|)
    && forall i, j :: 0 <= i < j < |lru| ==> released[lru[j]] < released[lru[i]]
  }

  lemma TailByRelease(lru: seq<nat>, released: seq<nat>)
    requires ByRelease(lru, released) && lru != []
    ensures ByRelease(lru[1..], released) && lru[0] < |released|
    ensures forall x :: x in lru[1..] ==> x < |released| && released[x] < released[lru[0]]
  {
  }

  lemma ConsByRelease(a: nat, v: seq<nat>, released: seq<nat>)
    requires ByRelease(v, released) && a < |released|
    requires forall x :: x in v ==> x < |released| && released[x] < released[a]
    ensures ByRelease([a] + v, released)
  {
    var q := [a] + v;
    forall i, j | 0 <= i < j < |q| ensures released[q[j]] < released[q[i]] {
      assert q[j] == v[j - 1] && v[j - 1] in v;
      if i != 0 { assert q[i] == v[i - 1]; }
    }
  }

  lemma {:induction false} WithoutByRelease(lru: seq<nat>, released: seq<nat>, b: nat)
    requires ByRelease(lru, released)
    ensures ByRelease(Without(lru, b), released) && forall x :: x in Without(lru, b) ==> x in lru
  {
    if lru != [] {
      TailByRelease(lru, released);
      hide ByRelease;
      if lru[0] != b {
        WithoutByRelease(lru[1..], released, b);
        ConsByRelease(lru[0], Without(lru[1..], b), released);
        assert Without(lru, b) == [lru[0]] + Without(lru[1..], b);
      }
    }
  }

  /** A new front, released later than all the others. */
  lemma FrontByRelease(w: seq<nat>, released: seq<nat>, b: nat, now: nat)
    requires ByRelease(w, released) && b < |released| && b !in w && forall c :: 0 <= c < |released| ==> released[c] < now
    ensures ByRelease([b] + w, released[b := now])
  {
    var r := released[b := now];
    forall x | x in w ensures x < |r| && r[x] < r[b] && r[x] == released[x] {}
    ConsByRelease(b, w, r);
  }

  lemma ReleaseLru(s: State, t: State, p: nat, b: nat)
    requires Inv(s) && Next(s, t, Release(p, b))
    ensures Shape(t) && LruOk(t)
  {
    assert LruOk(s) && Shape(s);
    hide Inv;
    WithoutIs(s.c.lru, b);
    WithoutByRelease(s.c.lru, s.released, b);
    var w := Without(s.c.lru, b);
    FrontByRelease(w, s.released, b, s.clock);
    hide Without, ByRelease;
    assert t.c.lru == [b] + w;
    forall c | 0 <= c < NBufs(t) ensures c in t.c.lru {
      assert c in s.c.lru;
      assert c == b || c in w;
    }
    forall q | 0 <= q < |t.procs| ensures PcFits(t.procs[q], |t.c.bufs|) { assert PcFits(s.procs[q], |s.c.bufs|); }
  }

  lemma ReleasePhase(s: State, t: State, p: nat, b: nat, c: nat)
    requires Inv(s) && Next(s, t, Release(p, b)) && c < NBufs(s) && Shape(t)
    ensures Phase(t, c)
  {
    InvFacts(s, b);
    InvFacts(s, c);
    if c != b {
      hide Inv;
      PhaseFrame(s, t, b, c);
    } else {
      assert DiskOk(s);
      if Pending(s.c, s.c.bufs[b].key) { PendingIs(s, b); }
    }
  }

  lemma ReleaseKeeps(s: State, t: State, p: nat, b: nat)
    requires Inv(s) && Next(s, t, Release(p, b))
    ensures Inv(t)
  {
    InvFacts(s, b);
    SameKeys(s, t, b);
    ReleaseLru(s, t, p, b);
    hide OnePerSector, DiskOk, LruOk, Phase;
    forall c | 0 <= c < NBufs(t) ensures Phase(t, c) { ReleasePhase(s, t, p, b, c); }
    forall q | 0 <= q < |t.procs| ensures ProcOk(t, q) { assert ProcOk(s, q); }
    assert DiskOk(t) by {
      assert b !in s.c.queue by { assert Phase(s, b); HeldNotQueued(s, p, b); }
      forall k | Pending(s.c, k) ensures Pending(t.c, k) { PendingKept(s.c, t.c, k); }
      DiskFrame(s, t);
    }
    assert DeviceOk(t) by { HeldNotQueued(s, p, b); }
  }

  lemma HeldNotQueued(s: State, p: nat, b: nat)
    requires Inv(s) && Has(s, p, b)
    ensures b !in s.c.queue
  {
    InvFacts(s, b);
  }

  lemma NextKeeps(s: State, t: State, a: Action)
    requires Inv(s) && Next(s, t, a)
    ensures Inv(t)
  {
    hide Inv, NextLook, NextSubmit, Intr, Brelse;
    match a
    case Start(p, k) => StartKeeps(s, t, p, k);
    case Look(p) => LookKeeps(s, t, p);
    case Submit(p) => SubmitKeeps(s, t, p);
    case Perform => PerformKeeps(s, t);
    case Interrupt => IntrKeeps(s, t);
    case Recheck(p) => RecheckKeeps(s, t, p);
    case Rouse(p) => RouseKeeps(s, t, p);
    case Change(p, b, d) => ChangeKeeps(s, t, p, b, d);
    case Write(p, b) => WriteKeeps(s, t, p, b);
    case Release(p, b) => ReleaseKeeps(s, t, p, b);
  }

  // Every run

  /** After binit: nothing cached, nothing queued; the list is any order of the buffers. */
  ghost predicate Init(s: State) {
    && Shape(s) && LruOk(s) && s.c.queue == [] && s.c.device.Quiet? && s.changed == {} && s.spec == s.disk
    && s.asked == [] && s.served == []
    && (forall b :: 0 <= b < NBufs(s) ==>
          s.owner[b] == None && !s.c.bufs[b].busy && !s.c.bufs[b].valid && !s.c.bufs[b].dirty)
    && forall p :: 0 <= p < |s.procs| ==> s.procs[p].Out?
  }

  lemma InitInv(s: State)
    requires Init(s)
    ensures Inv(s)
  {
    hide LruOk;
  }

  ghost predicate Run(states: seq<State>, acts: seq<Action>) {
    && |states| == |acts| + 1 && Init(states[0])
    && forall k :: 0 <= k < |acts| ==> StepOf(states[k], states[k + 1], acts[k])
  }

  ghost predicate StepOf(s: State, t: State, a: Action) { Shape(s) && Next(s, t, a) }

  lemma {:induction false} RunInv(states: seq<State>, acts: seq<Action>, k: nat)
    requires Run(states, acts) && k < |states|
    ensures Inv(states[k])
  {
    if k == 0 {
      InitInv(states[0]);
    } else {
      RunInv(states, acts, k - 1);
      hide Inv, Next, Init;
      assert StepOf(states[k - 1], states[k], acts[k - 1]);
      NextKeeps(states[k - 1], states[k], acts[k - 1]);
    }
  }

  ghost predicate Safe(s: State) {
    && Shape(s) && OnePerSector(s.c.bufs)
    && (forall b :: 0 <= b < NBufs(s) ==> BufSafe(s, b))
    && (forall p :: 0 <= p < |s.procs| ==> ProcSafe(s, p))
    && s.served <= s.asked
  }

  /** A buffer nobody has holds what is on the disk; one that somebody just keeps, what was last bwritten. */
  ghost predicate BufSafe(s: State, b: nat)
    requires Shape(s) && b < NBufs(s)
  {
    var x := s.c.bufs[b];
    && (!x.busy && x.valid ==> !x.dirty && x.data == Read(s.disk, x.key) == Read(s.spec, x.key))
    && (s.owner[b].Some? <==> x.busy)
    && (forall p :: Has(s, p, b) && b !in s.changed ==> x.valid && x.data == Read(s.spec, x.key))
  }

  /** No sleeper has missed its wakeup, and ide_rw's panics are not reached. */
  ghost predicate ProcSafe(s: State, p: nat)
    requires Shape(s) && p < |s.procs|
  {
    match s.procs[p]
    case Asleep(k) => SomeBusy(s.c.bufs, k)
    case InQueue(b, _) => b in s.c.queue && !Synced(s.c.bufs[b])
    case Woken(b, _) => Synced(s.c.bufs[b]) <==> b !in s.c.queue
    case Fetch(b, _) => s.c.bufs[b].busy && !Synced(s.c.bufs[b])
    case Flush(b) => s.c.bufs[b].busy && !Synced(s.c.bufs[b])
    case _ => true
  }

  lemma InvSafe(s: State)
    requires Inv(s)
    ensures Safe(s)
  {
    hide OnePerSector, DiskOk, DeviceOk, LruOk;
    forall b | 0 <= b < NBufs(s) ensures BufSafe(s, b) { assert Phase(s, b); }
    forall p | 0 <= p < |s.procs| ensures ProcSafe(s, p) {
      assert ProcOk(s, p);
      if PcBuf(s.procs[p]).Some? { assert Phase(s, PcBuf(s.procs[p]).value); }
    }
  }

  /** Under every interleaving: one buffer per sector, released buffers agree with the disk, requests are served in
      the order they were made, and nobody sleeps through the event it waits for. */
  lemma CacheIsCoherent(states: seq<State>, acts: seq<Action>, k: nat)
    requires Run(states, acts) && k < |states|
    ensures Safe(states[k])
  {
    hide Inv, Safe, Run;
    RunInv(states, acts, k);
    InvSafe(states[k]);
  }

  lemma {:induction false} LastFreeIsOldest(bufs: seq<Buf>, lru: seq<nat>, released: seq<nat>, c: nat)
    requires (forall j :: 0 <= j < |lru| ==> lru[j] < |bufs|) && |released| == |bufs| && ByRelease(lru, released)
    requires LastFree(bufs, lru).Some? && c in lru && !bufs[c].busy && c != LastFree(bufs, lru).value
    ensures released[LastFree(bufs, lru).value] < released[c]
    decreases |lru|
  {
    var n := |lru| - 1;
    var i :| 0 <= i < |lru| && lru[i] == c;
    if bufs[lru[n]].busy {
      assert lru[..n][i] == c;
      LastFreeIsOldest(bufs, lru[..n], released, c);
    }
  }

  lemma LruFacts(s: State)
    requires Inv(s)
    ensures Shape(s) && ByRelease(s.c.lru, s.released) && forall b :: 0 <= b < NBufs(s) ==> b in s.c.lru
  {
  }

  /** The buffer bget recycles is the one released longest ago of those not busy, and what it held is on disk. */
  lemma VictimIsOldest(states: seq<State>, acts: seq<Action>, k: nat, key: Key, c: nat)
    requires Run(states, acts) && k < |states| && Shape(states[k]) && Bget(states[k].c, key).Miss?
    ensures var s := states[k];
            var b := Bget(s.c, key).b;
            && !s.c.bufs[b].busy && !s.c.bufs[b].dirty
            && (s.c.bufs[b].valid ==> s.c.bufs[b].data == Read(s.disk, s.c.bufs[b].key))
            && (c < NBufs(s) && c != b && !s.c.bufs[c].busy ==> s.released[b] < s.released[c])
  {
    hide Run, Inv, LastFree, FirstMatch, ByRelease, Read;
    RunInv(states, acts, k);
    var s := states[k];
    var b := Bget(s.c, key).b;
    InvFacts(s, b);
    LruFacts(s);
    if c < NBufs(s) && c != b && !s.c.bufs[c].busy { LastFreeIsOldest(s.c.bufs, s.c.lru, s.released, c); }
  }

  // What was last bwritten

  /** The bwrite that a step starts, if any. */
  ghost function Bwritten(s: State, a: Action): Option<(Key, Block)> {
    if a.Submit? && a.p < |s.procs| && s.procs[a.p].Flush? && s.procs[a.p].b < |s.c.bufs|
    then Some((s.c.bufs[s.procs[a.p].b].key, s.c.bufs[s.procs[a.p].b].data)) else None
  }

  /** What the bwrites of the first n steps leave in a sector. */
  ghost function LastBwritten(states: seq<State>, acts: seq<Action>, n: nat, key: Key): Block
    requires n < |states| && n <= |acts|
  {
    if n == 0 then Read(states[0].disk, key)
    else match Bwritten(states[n - 1], acts[n - 1])
         case Some((k, d)) => if k == key then d else LastBwritten(states, acts, n - 1, key)
         case None => LastBwritten(states, acts, n - 1, key)
  }

  lemma SpecStep(s: State, t: State, a: Action, key: Key)
    requires Inv(s) && Next(s, t, a)
    ensures Read(t.spec, key) == match Bwritten(s, a)
                                 case Some((k, d)) => if k == key then d else Read(s.spec, key)
                                 case None => Read(s.spec, key)
  {
    if a.Submit? {
      ProcFacts(s, a.p);
      InvFacts(s, s.procs[a.p].b);
    }
  }

  lemma RunStep(states: seq<State>, acts: seq<Action>, n: nat)
    requires Run(states, acts) && 0 < n < |states|
    ensures n <= |acts| && Inv(states[n - 1]) && Next(states[n - 1], states[n], acts[n - 1])
  {
    hide Inv, Next, Init;
    RunInv(states, acts, n - 1);
    assert StepOf(states[n - 1], states[n], acts[n - 1]);
  }

  lemma {:induction false} SpecIsLast(states: seq<State>, acts: seq<Action>, n: nat, key: Key)
    requires Run(states, acts) && n < |states|
    ensures n <= |acts| && Read(states[n].spec, key) == LastBwritten(states, acts, n, key)
  {
    hide Inv, Next, Shape, LruOk, Bwritten, StepOf, Read;
    if n != 0 {
      SpecIsLast(states, acts, n - 1, key);
      RunStep(states, acts, n);
      SpecStep(states[n - 1], states[n], acts[n - 1], key);
    }
  }

  /** The process and buffer of a bread or bwrite that returns, and whether it is a bread. */
  ghost function Returned(s: State, a: Action): Option<(nat, nat, bool)>
    requires Shape(s)
  {
    match a
    case Look(p) =>
      if p < |s.procs| && s.procs[p].Want? && Bget(s.c, s.procs[p].k).Hit?
      then Some((p, Bget(s.c, s.procs[p].k).b, true)) else None
    case Recheck(p) =>
      if p < |s.procs| && s.procs[p].Woken? && Synced(s.c.bufs[s.procs[p].b])
      then Some((p, s.procs[p].b, s.procs[p].caller.ByRead?)) else None
    case _ => None
  }

  /** The sector of the latest call of bread by p in the first n steps. */
  function LastAsked(acts: seq<Action>, n: nat, p: nat): Option<Key>
    requires n <= |acts|
  {
    if n == 0 then None
    else if acts[n - 1].Start? && acts[n - 1].p == p then Some(acts[n - 1].k)
    else LastAsked(acts, n - 1, p)
  }

  /** No step but the call itself changes what a process in bread is after. */
  lemma KeyStep(s: State, t: State, a: Action, p: nat)
    requires Inv(s) && Next(s, t, a) && p < |s.procs|
    ensures |t.procs| == |s.procs|
    ensures PcKey(t.procs[p]).Some? && !(a.Start? && a.p == p) ==> PcKey(t.procs[p]) == PcKey(s.procs[p])
    ensures a.Start? && a.p == p ==> PcKey(t.procs[p]) == Some(a.k)
  {
    hide Inv, FirstMatch, LastFree, Intr, Brelse, Enqueue;
  }

  lemma {:induction false} AskedIs(states: seq<State>, acts: seq<Action>, n: nat, p: nat)
    requires Run(states, acts) && n < |states| && p < |states[n].procs| && PcKey(states[n].procs[p]).Some?
    ensures n <= |acts| && LastAsked(acts, n, p) == PcKey(states[n].procs[p])
  {
    hide Inv, Next, StepOf, PcKey;
    if n == 0 {
      StartsOut(states, acts, p);
    } else {
      RunStep(states, acts, n);
      ProcsKept(states[n - 1], states[n], acts[n - 1]);
      KeyStep(states[n - 1], states[n], acts[n - 1], p);
      if !(acts[n - 1].Start? && acts[n - 1].p == p) { AskedIs(states, acts, n - 1, p); }
    }
  }

  lemma StartsOut(states: seq<State>, acts: seq<Action>, p: nat)
    requires Run(states, acts) && p < |states[0].procs|
    ensures PcKey(states[0].procs[p]).None?
  {
  }

  lemma ProcsKept(s: State, t: State, a: Action)
    requires Inv(s) && Next(s, t, a)
    ensures |t.procs| == |s.procs|
  {
    hide Inv, FirstMatch, LastFree, Intr, Brelse, Enqueue;
  }

  lemma ReturnsUnchanged(s: State, t: State, a: Action)
    requires Inv(s) && Next(s, t, a) && Returned(s, a).Some?
    ensures var (p, b, isRead) := Returned(s, a).value;
            && b !in t.changed && Has(t, p, b)
            && (isRead ==> b < NBufs(t) && p < |s.procs| && PcKey(s.procs[p]) == Some(t.c.bufs[b].key))
  {
    var (p, b, isRead) := Returned(s, a).value;
    ProcFacts(s, p);
    InvFacts(s, b);
    hide Inv, FirstMatch, LastFree;
  }

  /** bread hands out a busy buffer of the sector it was called for, with what was last bwritten there; bwrite returns
      with what it has written. */
  lemma BreadReturns(states: seq<State>, acts: seq<Action>, n: nat)
    requires Run(states, acts) && 0 < n < |states| && n <= |acts| && Shape(states[n - 1])
    requires Returned(states[n - 1], acts[n - 1]).Some?
    ensures var (p, b, isRead) := Returned(states[n - 1], acts[n - 1]).value;
            && Has(states[n], p, b) && b < NBufs(states[n])
            && var x := states[n].c.bufs[b];
               && x.busy && x.valid && x.data == LastBwritten(states, acts, n, x.key)
               && (isRead ==> LastAsked(acts, n, p) == Some(x.key))
  {
    hide Run, Inv, Returned, Next, PcKey;
    var (p, b, isRead) := Returned(states[n - 1], acts[n - 1]).value;
    RunStep(states, acts, n);
    ReturnsUnchanged(states[n - 1], states[n], acts[n - 1]);
    RunInv(states, acts, n);
    InvSafe(states[n]);
    assert BufSafe(states[n], b);
    SpecIsLast(states, acts, n, states[n].c.bufs[b].key);
    if isRead { AskedReturn(states, acts, n, p); }
  }

  /** The step in which bread returns is not its call. */
  lemma AskedReturn(states: seq<State>, acts: seq<Action>, n: nat, p: nat)
    requires Run(states, acts) && 0 < n < |states| && n <= |acts| && Shape(states[n - 1])
    requires Returned(states[n - 1], acts[n - 1]).Some? && Returned(states[n - 1], acts[n - 1]).value.0 == p
    requires p < |states[n - 1].procs| && PcKey(states[n - 1].procs[p]).Some?
    ensures LastAsked(acts, n, p) == PcKey(states[n - 1].procs[p])
  {
    hide Run, PcKey;
    AskedIs(states, acts, n - 1, p);
  }

  /** While a process has a buffer, the buffer stays with its sector. */
  lemma OwnedKeyStays(s: State, t: State, a: Action, b: nat)
    requires Inv(s) && Next(s, t, a) && b < NBufs(s) && s.owner[b].Some?
    ensures NBufs(t) == NBufs(s) && t.c.bufs[b].key == s.c.bufs[b].key
  {
    hide Inv, FirstMatch, LastFree, NextLook;
    InvFacts(s, b);
    if a.Look? { LookKeepsKey(s, t, a.p, b); }
  }

  lemma LookKeepsKey(s: State, t: State, p: nat, b: nat)
    requires Shape(s) && p < |s.procs| && s.procs[p].Want? && NextLook(s, t, p) && b < NBufs(s) && s.c.bufs[b].busy
    ensures NBufs(t) == NBufs(s) && t.c.bufs[b].key == s.c.bufs[b].key
  {
    hide FirstMatch, LastFree;
  }
}
