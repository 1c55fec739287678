/** The linked lists under the buffer cache: the LRU ring through next and prev, and the request queue
    through qnext (xv6/bio.c:38-136, xv6/ide.c:89-150).

    The methods follow pointers; each is proved to do what Bio says on the lists those pointers spell.
 */
module BioLists {
  import opened Options
  import opened FsBytes
  import opened Bio

  // The ring.  Buffer h = |bufs| is bufhead.

  /** Element j of the ring: bufhead at both ends. */
  function At(lru: seq<nat>, h: nat, j: int): nat {
    if 0 <= j < |lru| then lru[j] else h
  }

  ghost predicate Ring(next: seq<nat>, prev: seq<nat>, lru: seq<nat>, h: nat) {
    && |next| == |prev| == h + 1 && Distinct(lru) && (forall j :: 0 <= j < |lru| ==> lru[j] < h)
    && (forall j :: -1 <= j < |lru| ==> Joined(next, prev, At(lru, h, j), At(lru, h, j + 1)))
  }

  predicate Joined(next: seq<nat>, prev: seq<nat>, a: nat, b: nat) {
    a < |next| && b < |prev| && next[a] == b && prev[b] == a
  }

  function Cut(lru: seq<nat>, j: nat): seq<nat>
    requires j < |lru|
  {
    lru[..j] + lru[j + 1..]
  }

  lemma {:induction false} WithoutIsCut(lru: seq<nat>, j: nat)
    requires j < |lru| && Distinct(lru)
    ensures Without(lru, lru[j]) == Cut(lru, j)
  {
    if j == 0 {
      assert Cut(lru, 0) == lru[1..];
    } else {
      WithoutIsCut(lru[1..], j - 1);
      assert Cut(lru, j) == [lru[0]] + Cut(lru[1..], j - 1);
    }
  }

  /** Taking entry j out of the ring. */
  lemma RingCut(next: seq<nat>, prev: seq<nat>, lru: seq<nat>, h: nat, j: nat)
    requires Ring(next, prev, lru, h) && j < |lru|
    ensures var b := lru[j];
            && b < |next| && b < |prev| && next[b] < |prev| && prev[b] < |next|
            && Ring(next[prev[b] := next[b]], prev[next[b] := prev[b]], Cut(lru, j), h)
  {
    var b := lru[j];
    assert Joined(next, prev, At(lru, h, j - 1), At(lru, h, j)) && Joined(next, prev, At(lru, h, j), At(lru, h, j + 1));
    var next2, prev2, w := next[prev[b] := next[b]], prev[next[b] := prev[b]], Cut(lru, j);
    forall i | -1 <= i < |w| ensures Joined(next2, prev2, At(w, h, i), At(w, h, i + 1)) {
      if i == j - 1 {
        assert At(w, h, i) == prev[b] && At(w, h, i + 1) == next[b];
      } else {
        var e := if i < j then i else i + 1;
        assert Joined(next, prev, At(lru, h, e), At(lru, h, e + 1));
        assert At(w, h, i) == At(lru, h, e) && At(w, h, i + 1) == At(lru, h, e + 1);
      }
    }
  }

  /** Putting b in at the front. */
  lemma RingPush(next: seq<nat>, prev: seq<nat>, w: seq<nat>, h: nat, b: nat)
    requires Ring(next, prev, w, h) && b < h && b !in w
    ensures next[h] < |prev|
    ensures Ring(next[b := next[h]][h := b], prev[b := h][next[h] := b], [b] + w, h)
  {
    assert Joined(next, prev, At(w, h, -1), At(w, h, 0));
    var f := next[h];
    var next2, prev2, q := next[b := f][h := b], prev[b := h][f := b], [b] + w;
    assert forall i :: 0 <= i <= |w| ==> At(q, h, i) == if i == 0 then b else At(w, h, i - 1);
    forall i | -1 <= i < |q| ensures Joined(next2, prev2, At(q, h, i), At(q, h, i + 1)) {
      if 1 <= i {
        assert Joined(next, prev, At(w, h, i - 1), At(w, h, i));
        assert At(q, h, i) == At(w, h, i - 1) && At(q, h, i + 1) == At(w, h, i);
        assert w[i - 1] in w;
      }
    }
  }

  // The scans

  lemma FirstMatchFrom(bufs: seq<Buf>, lru: seq<nat>, j: nat, k: Key)
    requires (forall i :: 0 <= i < |lru| ==> lru[i] < |bufs|) && j < |lru| && !Bio.Holds(bufs[lru[j]], k)
    ensures FirstMatch(bufs, lru[j..], k) == FirstMatch(bufs, lru[j + 1..], k)
  {
    assert lru[j..][1..] == lru[j + 1..];
  }

  lemma LastFreeUpTo(bufs: seq<Buf>, lru: seq<nat>, j: nat)
    requires (forall i :: 0 <= i < |lru| ==> lru[i] < |bufs|) && j < |lru| && bufs[lru[j]].busy
    ensures LastFree(bufs, lru[..j + 1]) == LastFree(bufs, lru[..j])
  {
    assert lru[..j + 1][..j] == lru[..j];
  }

  // The queue

  ghost predicate Chain(head: Option<nat>, qnext: seq<Option<nat>>, q: seq<nat>)
    decreases |q|
  {
    if q == [] then head == None
    else head == Some(q[0]) && q[0] < |qnext| && Chain(qnext[q[0]], qnext, q[1..])
  }

  /** Links outside the chain do not matter. */
  lemma {:induction false} ChainFrame(head: Option<nat>, qnext: seq<Option<nat>>, q: seq<nat>, b: nat, v: Option<nat>)
    requires Chain(head, qnext, q) && b !in q && b < |qnext|
    ensures Chain(head, qnext[b := v], q)
    decreases |q|
  {
    if q != [] { ChainFrame(qnext[q[0]], qnext, q[1..], b, v); }
  }

  /** Writing b into the last link adds b to the chain. */
  lemma {:induction false} ChainAppend(head: Option<nat>, qnext: seq<Option<nat>>, q: seq<nat>, b: nat)
    requires Chain(head, qnext, q) && Distinct(q) && q != [] && b !in q && b < |qnext| && qnext[b] == None
    ensures q[|q| - 1] < |qnext| && Chain(head, qnext[q[|q| - 1] := Some(b)], q + [b])
    decreases |q|
  {
    if |q| == 1 {
      assert (q + [b])[1..] == [b];
      assert [b][1..] == [];
    } else {
      var rest := q[1..];
      ChainAppend(qnext[q[0]], qnext, rest, b);
      assert (q + [b])[1..] == rest + [b] && rest[|rest| - 1] == q[|q| - 1];
    }
  }

  lemma ChainTail(head: Option<nat>, qnext: seq<Option<nat>>, q: seq<nat>)
    requires Chain(head, qnext, q) && q != []
    ensures head == Some(q[0]) && q[0] < |qnext| && Chain(qnext[q[0]], qnext, q[1..])
    ensures qnext[q[0]] == if |q| == 1 then None else Some(q[1])
  {
  }

  lemma RingFacts(next: seq<nat>, prev: seq<nat>, lru: seq<nat>, h: nat)
    requires Ring(next, prev, lru, h)
    ensures |next| == |prev| == h + 1 && Distinct(lru) && forall j :: 0 <= j < |lru| ==> lru[j] < h
  {
  }

  lemma RingPrev(next: seq<nat>, prev: seq<nat>, lru: seq<nat>, h: nat, j: nat)
    requires Ring(next, prev, lru, h) && j <= |lru|
    ensures At(lru, h, j) < |prev| && prev[At(lru, h, j)] == At(lru, h, j - 1)
  {
    assert Joined(next, prev, At(lru, h, j - 1), At(lru, h, j - 1 + 1));
  }

  class BufTable {
    var bufs: seq<Buf>
    var next: seq<nat>
    var prev: seq<nat>
    var ideQueue: Option<nat>
    var qnext: seq<Option<nat>>
    var device: Device
    ghost var lru: seq<nat>
    ghost var queue: seq<nat>

    ghost predicate Valid()
      reads this
    {
      && |qnext| == |bufs| == |lru| && Ring(next, prev, lru, |bufs|)
      && Chain(ideQueue, qnext, queue) && Distinct(queue)
      && forall j :: 0 <= j < |queue| ==> queue[j] < |bufs|
    }

    /** The cache that the pointers spell. */
    ghost function Contents(): Cache
      reads this
    {
      Cache(bufs, lru, queue, device)
    }

    /** binit puts the buffers into the ring one by one. */
    constructor (n: nat)
      ensures Valid() && |bufs| == n && queue == [] && device.Quiet?
      ensures forall b :: 0 <= b < n ==> !bufs[b].busy && !bufs[b].valid && !bufs[b].dirty
      ensures forall j :: 0 <= j < n ==> lru[j] == n - 1 - j
    {
      bufs := seq(n, _ => Buf(false, false, false, (0, 0), ZeroBlock()));
      qnext := seq(n, _ => None);
      ideQueue := None;
      device := Quiet;
      queue := [];
      lru := [];
      next := seq(n + 1, _ => n);
      prev := seq(n + 1, _ => n);
      new;
      var b := 0;
      while b < n
        invariant 0 <= b <= n && |bufs| == |qnext| == n && Ring(next, prev, lru, n) && |lru| == b
        invariant ideQueue == None && device.Quiet? && queue == []
        invariant forall c :: 0 <= c < n ==> !bufs[c].busy && !bufs[c].valid && !bufs[c].dirty
        invariant forall j :: 0 <= j < b ==> lru[j] == b - 1 - j
      {
        RingPush(next, prev, lru, n, b);
        var f := next[n];
        next, prev := next[b := f], prev[b := n];
        prev, next := prev[f := b], next[n := b];
        lru := [b] + lru;
        b := b + 1;
      }
    }

    /** bget, from taking buf_table_lock to releasing it.  Where the source sleeps or panics nothing has changed. */
    method BgetScan(k: Key) returns (r: Got)
      requires Valid()
      modifies this`bufs
      ensures Valid() && r == Bget(old(Contents()), k)
      ensures Contents() == match r
                            case Hit(b) => Take(old(Contents()), b)
                            case Miss(b) => Recycle(old(Contents()), b, k)
                            case _ => old(Contents())
    {
      var m := ScanForward(k);
      if m.Some? {
        var b := m.value;
        if bufs[b].busy { return Sleeps; }
        bufs := bufs[b := bufs[b].(busy := true)];
        return Hit(b);
      }
      var v := ScanBackward();
      if v == None { return NoBuffers; }
      var b := v.value;
      bufs := bufs[b := bufs[b].(busy := true, valid := false, dirty := false, key := k)];
      return Miss(b);
    }

    /** The scan of bget for a buffer of the sector, from the front of the ring. */
    method ScanForward(k: Key) returns (r: Option<nat>)
      requires Valid()
      ensures r == FirstMatch(bufs, lru, k)
    {
      hide FirstMatch;
      var h := |bufs|;
      assert Joined(next, prev, At(lru, h, -1), At(lru, h, 0));
      var b := next[h];
      ghost var j := 0;
      assert lru[0..] == lru;
      while b != h
        invariant 0 <= j <= |lru| && b == At(lru, h, j) && FirstMatch(bufs, lru, k) == FirstMatch(bufs, lru[j..], k)
        decreases |lru| - j
      {
        if Bio.Holds(bufs[b], k) {
          MatchHere(bufs, lru[j..], k);
          return Some(b);
        }
        FirstMatchFrom(bufs, lru, j, k);
        assert Joined(next, prev, At(lru, h, j), At(lru, h, j + 1));
        b := next[b];
        j := j + 1;
      }
      MatchEnd(bufs, lru[j..], k);
      return None;
    }

    /** The scan of bget for a buffer to recycle, from the back of the ring. */
    method ScanBackward() returns (r: Option<nat>)
      requires Valid()
      ensures r == LastFree(bufs, lru)
    {
      hide LastFree, Chain, Ring;
      RingFacts(next, prev, lru, |bufs|);
      var h := |bufs|;
      ghost var j := |lru|;
      RingPrev(next, prev, lru, h, j);
      var b := prev[h];
      assert lru[..j] == lru;
      while b != h
        invariant 0 <= j <= |lru| && b == At(lru, h, j - 1) && LastFree(bufs, lru) == LastFree(bufs, lru[..j])
        decreases j
      {
        if !bufs[b].busy {
          FreeHere(bufs, lru[..j]);
          return Some(b);
        }
        LastFreeUpTo(bufs, lru, j - 1);
        RingPrev(next, prev, lru, h, j - 1);
        b := prev[b];
        j := j - 1;
      }
      FreeEnd(bufs, lru[..j]);
      return None;
    }

    /** brelse: b goes to the front of the ring and is no longer busy. */
    method BrelseSplice(b: nat)
      requires Valid() && b < |bufs| && b in lru
      modifies this`bufs, this`next, this`prev, this`lru
      ensures Valid() && Contents() == Brelse(old(Contents()), b)
    {
      hide Ring, Bio.Without, Chain;
      var h := |bufs|;
      ghost var j: nat :| j < |lru| && lru[j] == b;
      ghost var w := Bio.Without(lru, b);
      RingFacts(next, prev, lru, h);
      RingCut(next, prev, lru, h, j);
      WithoutIsCut(lru, j);
      WithoutIs(lru, b);
      prev := prev[next[b] := prev[b]];
      next := next[prev[b] := next[b]];
      RingFacts(next, prev, w, h);
      RingPush(next, prev, w, h, b);
      next := next[b := next[h]];
      prev := prev[b := h];
      prev := prev[next[h] := b];
      next := next[h := b];
      bufs := bufs[b := bufs[b].(busy := false)];
      lru := [b] + w;
    }

    /** ide_rw, from taking ide_lock to its first sleep: b goes to the end of the queue. */
    method IdeRw(b: nat)
      requires Valid() && b < |bufs| && b !in queue
      modifies this`qnext, this`ideQueue, this`queue, this`device
      ensures Valid() && Contents() == Enqueue(old(Contents()), b)
    {
      ChainFrame(ideQueue, qnext, queue, b, None);
      qnext := qnext[b := None];
      var pp: Option<nat>, cur := None, ideQueue;
      ghost var i := 0;
      assert queue[0..] == queue;
      while cur.Some?
        invariant 0 <= i <= |queue| && Chain(cur, qnext, queue[i..])
        invariant pp == if i == 0 then None else Some(queue[i - 1])
        decreases |queue| - i
      {
        assert queue[i..][1..] == queue[i + 1..];
        pp, cur := cur, qnext[cur.value];
        i := i + 1;
      }
      assert i == |queue|;
      if pp.Some? {
        ChainAppend(ideQueue, qnext, queue, b);
        qnext := qnext[pp.value := Some(b)];
      } else {
        ideQueue := Some(b);
        assert [b][1..] == [];
        assert queue + [b] == [b];
      }
      if ideQueue == Some(b) { device := Command(bufs[b]); }
      queue := queue + [b];
    }

    /** ide_intr, when the disk has finished the command of the first buffer in the queue. */
    method IdeIntr()
      requires Valid() && (queue != [] ==> device.Ready?)
      modifies this`bufs, this`ideQueue, this`queue, this`device
      ensures Valid()
      ensures if old(queue) == [] then Contents() == old(Contents()) else Contents() == Intr(old(Contents()))
    {
      if ideQueue == None { return; }
      ChainTail(ideQueue, qnext, queue);
      hide Ring;
      var b := ideQueue.value;
      if !bufs[b].dirty { bufs := bufs[b := bufs[b].(data := device.in0)]; }
      bufs := bufs[b := bufs[b].(valid := true, dirty := false)];
      ideQueue := qnext[b];
      queue := queue[1..];
      if ideQueue.Some? { device := Command(bufs[ideQueue.value]); } else { device := Quiet; }
    }
  }

  lemma MatchHere(bufs: seq<Buf>, q: seq<nat>, k: Key)
    requires (forall i :: 0 <= i < |q| ==> q[i] < |bufs|) && q != [] && Bio.Holds(bufs[q[0]], k)
    ensures FirstMatch(bufs, q, k) == Some(q[0])
  {
  }

  lemma MatchEnd(bufs: seq<Buf>, q: seq<nat>, k: Key)
    requires q == []
    ensures FirstMatch(bufs, q, k) == None
  {
  }

  lemma FreeHere(bufs: seq<Buf>, q: seq<nat>)
    requires (forall i :: 0 <= i < |q| ==> q[i] < |bufs|) && q != [] && !bufs[q[|q| - 1]].busy
    ensures LastFree(bufs, q) == Some(q[|q| - 1])
  {
  }

  lemma FreeEnd(bufs: seq<Buf>, q: seq<nat>)
    requires q == []
    ensures LastFree(bufs, q) == None
  {
  }
}
