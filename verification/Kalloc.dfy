/** The physical page allocator of xv6/kalloc.c.

    The free list is a list of runs of free memory, kept sorted by address and with
    neighbouring runs merged.  The source threads it through the free memory itself;
    here it is a sequence of runs.  `Insert` and `TakeFirstFit` say what the two pointer
    loops do to that sequence, and the lemmas say what this means for the set of free
    bytes, which is all a client of the allocator can see.
 */
module Kalloc {

  const PAGE: nat := 4096

  /** `struct run`: len free bytes starting at addr. */
  datatype Run = Run(addr: nat, len: nat) {
    function End(): nat { addr + len }
  }

  /** Sorted, disjoint, whole pages, and no two runs touch. */
  ghost predicate WellFormed(l: seq<Run>) {
    l != [] ==>
      && 0 < l[0].addr && PageMultiple(l[0].len)
      && (1 < |l| ==> l[0].End() < l[1].addr)
      && WellFormed(l[1..])
  }

  /** Byte a is free. */
  ghost predicate Free(l: seq<Run>, a: int) {
    l != [] && (l[0].addr <= a < l[0].End() || Free(l[1..], a))
  }

  ghost predicate AllFree(l: seq<Run>, v: int, n: int) {
    forall a :: v <= a < v + n ==> Free(l, a)
  }

  ghost predicate NoneFree(l: seq<Run>, v: int, n: int) {
    forall a :: v <= a < v + n ==> !Free(l, a)
  }

  predicate PageMultiple(n: int) { 0 < n && n % PAGE == 0 }

  // What the two loops do to the list

  /** The list after kfree(v, len): v is merged with the run it touches on either side. */
  function Insert(l: seq<Run>, v: nat, len: nat): seq<Run> {
    if l == [] || v + len < l[0].addr then
      [Run(v, len)] + l
    else if v + len == l[0].addr then
      [Run(v, len + l[0].len)] + l[1..]
    else if l[0].End() == v then
      if 1 < |l| && l[1].addr == v + len then
        [Run(l[0].addr, l[0].len + len + l[1].len)] + l[2..]
      else
        [Run(l[0].addr, l[0].len + len)] + l[1..]
    else
      [l[0]] + Insert(l[1..], v, len)
  }

  /** The list after kalloc(n): n bytes are cut off the end of the first run that has them. */
  function TakeFirstFit(l: seq<Run>, n: nat): seq<Run> {
    if l == [] then l
    else if l[0].len == n then l[1..]
    else if n < l[0].len then [Run(l[0].addr, l[0].len - n)] + l[1..]
    else [l[0]] + TakeFirstFit(l[1..], n)
  }

  /** The address kalloc(n) returns, 0 if it fails. */
  function TakenAddr(l: seq<Run>, n: nat): nat {
    if l == [] then 0
    else if n <= l[0].len then l[0].addr + (l[0].len - n)
    else TakenAddr(l[1..], n)
  }

  // The meaning of kfree

  /** Free bytes start at the head run. */
  lemma {:induction false} FreeFromHead(l: seq<Run>, a: int)
    requires WellFormed(l) && Free(l, a)
    ensures l[0].addr <= a
  {
    if !(l[0].addr <= a < l[0].End()) { FreeFromHead(l[1..], a); }
  }

  /** kfree adds exactly the freed bytes, whatever the list. */
  lemma {:induction false} InsertIsUnion(l: seq<Run>, v: nat, len: nat, a: int)
    ensures Free(Insert(l, v, len), a) <==> Free(l, a) || v <= a < v + len
    decreases |l|
  {
    if l == [] || v + len < l[0].addr {
    } else if v + len == l[0].addr {
    } else if l[0].End() == v {
      if 1 < |l| && l[1].addr == v + len {
        assert l[1..][1..] == l[2..];
      }
    } else {
      InsertIsUnion(l[1..], v, len, a);
    }
  }

  /** kfree of memory that is not free keeps the list sorted, disjoint and merged. */
  lemma {:induction false} InsertKeepsWellFormed(l: seq<Run>, v: nat, len: nat)
    requires WellFormed(l) && 0 < v && PageMultiple(len) && NoneFree(l, v, len)
    ensures WellFormed(Insert(l, v, len))
    ensures Insert(l, v, len) != []
    ensures Insert(l, v, len)[0].addr == if l == [] || v < l[0].addr then v else l[0].addr
    decreases |l|
  {
    if l == [] || v + len < l[0].addr {
    } else if v + len == l[0].addr {
    } else {
      assert Free(l, l[0].addr);
      if l[0].End() == v {
        if 1 < |l| {
          assert Free(l[1..], l[1].addr);
          assert Free(l, l[1].addr);
          assert l[1..][1..] == l[2..];
        }
      } else {
        assert l[0].End() < v by { assert !Free(l, v); }
        assert NoneFree(l[1..], v, len) by {
          forall a | v <= a < v + len ensures !Free(l[1..], a) { assert !Free(l, a); }
        }
        InsertKeepsWellFormed(l[1..], v, len);
      }
    }
  }

  /** kfree of a block whose start is in use, but not the whole of it, spoils the order of the list. */
  lemma {:induction false} InsertBreaks(l: seq<Run>, v: nat, len: nat, a: int)
    requires WellFormed(l) && !Free(l, v) && v <= a < v + len && Free(l, a)
    ensures !WellFormed(Insert(l, v, len))
    decreases |l|
  {
    var m := Insert(l, v, len);
    FreeFromHead(l, a);
    InsertIsUnion(l, v, len, v);
    if l[0].End() == v {
      FreeFromHead(l[1..], a);
      assert m[1..] == l[1..];
    } else {
      assert m[0] == l[0] && m[1..] == Insert(l[1..], v, len);
      if l[0].addr <= v {
        InsertBreaks(l[1..], v, len, a);
      } else if WellFormed(m) {
        FreeFromHead(m, v);
      }
    }
  }

  /** Two pages are freed, of which the second is free. */
  lemma FreeTwoBreaks()
    ensures Insert([Run(2 * PAGE, PAGE)], PAGE, 2 * PAGE) == [Run(2 * PAGE, PAGE), Run(PAGE, 2 * PAGE)]
    ensures !Free([Run(2 * PAGE, PAGE)], PAGE) && !WellFormed([Run(2 * PAGE, PAGE), Run(PAGE, 2 * PAGE)])
  {
  }

  /** If kfree does not panic, the list stays well-formed exactly when no byte of the block was free. */
  lemma InsertKeepsExactly(l: seq<Run>, v: nat, len: nat)
    requires WellFormed(l) && 0 < v && PageMultiple(len) && !Free(l, v)
    ensures WellFormed(Insert(l, v, len)) <==> NoneFree(l, v, len)
  {
    hide WellFormed, Free, Insert;
    if a :| v <= a < v + len && Free(l, a) {
      InsertBreaks(l, v, len, a);
    } else {
      InsertKeepsWellFormed(l, v, len);
    }
  }

  // The meaning of kalloc

  /** kalloc takes away exactly the n bytes it returns; they were free. */
  lemma {:induction false} TakeRemoves(l: seq<Run>, n: nat, a: int)
    requires WellFormed(l) && PageMultiple(n) && TakenAddr(l, n) != 0
    ensures TakenAddr(l, n) <= a < TakenAddr(l, n) + n ==> Free(l, a)
    ensures Free(TakeFirstFit(l, n), a) <==>
            Free(l, a) && !(TakenAddr(l, n) <= a < TakenAddr(l, n) + n)
  {
    if Free(l[1..], a) { FreeFromHead(l[1..], a); }
    if l[0].len < n {
      TakeRemoves(l[1..], n, a);
      if TakenAddr(l[1..], n) <= a < TakenAddr(l[1..], n) + n { FreeFromHead(l[1..], a); }
    }
  }

  /** kalloc keeps the list sorted, disjoint and merged. */
  lemma {:induction false} TakeKeepsWellFormed(l: seq<Run>, n: nat)
    requires WellFormed(l) && PageMultiple(n)
    ensures WellFormed(TakeFirstFit(l, n))
    ensures TakeFirstFit(l, n) != [] ==> l != [] && l[0].addr <= TakeFirstFit(l, n)[0].addr
  {
    if l != [] && l[0].len < n { TakeKeepsWellFormed(l[1..], n); }
  }

  /** A stretch of free bytes lies inside one run, because runs never touch. */
  lemma {:induction false} StretchFits(l: seq<Run>, v: int, n: nat)
    requires WellFormed(l) && 0 < n && AllFree(l, v, n)
    ensures TakenAddr(l, n) != 0
  {
    assert Free(l, v);
    if l[0].len < n {
      forall a | v <= a < v + n ensures Free(l[1..], a) {
        assert Free(l, a);
        if l[0].addr <= a < l[0].End() {
          StretchInHead(l, v, n, a);
        }
      }
      StretchFits(l[1..], v, n);
    }
  }

  lemma StretchInHead(l: seq<Run>, v: int, n: nat, a: int)
    requires WellFormed(l) && l != [] && AllFree(l, v, n) && v <= a < v + n
    requires l[0].addr <= a < l[0].End()
    ensures n <= l[0].len
  {
    FreeFromHead(l, v);
    if l[0].End() < v + n {
      assert Free(l, l[0].End());
      FreeFromHead(l[1..], l[0].End());
    }
  }

  /** kalloc(n) fails exactly when no n free bytes are contiguous. */
  lemma FailsExactly(l: seq<Run>, n: nat)
    requires WellFormed(l) && PageMultiple(n)
    ensures TakenAddr(l, n) == 0 <==> !exists v :: AllFree(l, v, n)
  {
    if TakenAddr(l, n) == 0 {
      forall v ensures !AllFree(l, v, n) {
        if AllFree(l, v, n) { StretchFits(l, v, n); }
      }
    } else {
      forall a | TakenAddr(l, n) <= a < TakenAddr(l, n) + n ensures Free(l, a) { TakeRemoves(l, n, a); }
      assert AllFree(l, TakenAddr(l, n), n);
    }
  }

  // The list is determined by the set of free bytes

  /** Two well-formed lists with the same free bytes are the same list. */
  lemma {:induction false} Canonical(l: seq<Run>, m: seq<Run>)
    requires WellFormed(l) && WellFormed(m)
    requires forall a :: Free(l, a) <==> Free(m, a)
    ensures l == m
    decreases |l|
  {
    assert m == [] || Free(m, m[0].addr);
    if l != [] {
      assert Free(l, l[0].addr);
      FreeFromHead(l, m[0].addr);
      FreeFromHead(m, l[0].addr);
      HeadNoLonger(l, m);
      HeadNoLonger(m, l);
      forall a ensures Free(l[1..], a) <==> Free(m[1..], a) {
        assert Free(l, a) <==> Free(m, a);
        if Free(l[1..], a) { FreeFromHead(l[1..], a); }
        if Free(m[1..], a) { FreeFromHead(m[1..], a); }
      }
      Canonical(l[1..], m[1..]);
      assert l == [l[0]] + l[1..] && m == [m[0]] + m[1..];
    }
  }

  lemma HeadNoLonger(l: seq<Run>, m: seq<Run>)
    requires WellFormed(l) && WellFormed(m) && l != [] && m != [] && l[0].addr == m[0].addr
    requires forall a :: Free(l, a) <==> Free(m, a)
    ensures l[0].len <= m[0].len
  {
    var e := m[0].End();
    assert !Free(m, e) by { if Free(m[1..], e) { FreeFromHead(m[1..], e); } }
    assert !Free(l, e);
  }

  /** Giving back what kalloc returned restores the very same list. */
  lemma AllocThenFree(l: seq<Run>, n: nat)
    requires WellFormed(l) && PageMultiple(n) && TakenAddr(l, n) != 0
    ensures Insert(TakeFirstFit(l, n), TakenAddr(l, n), n) == l
  {
    var m, p := TakeFirstFit(l, n), TakenAddr(l, n);
    TakeKeepsWellFormed(l, n);
    forall a ensures Free(Insert(m, p, n), a) <==> Free(l, a) {
      TakeRemoves(l, n, a);
      InsertIsUnion(m, p, n, a);
    }
    forall a | p <= a < p + n ensures !Free(m, a) { TakeRemoves(l, n, a); }
    InsertKeepsWellFormed(m, p, n);
    Canonical(Insert(m, p, n), l);
  }

  /** The order in which two blocks are freed does not matter. */
  lemma FreesCommute(l: seq<Run>, v: nat, n: nat, w: nat, k: nat)
    requires WellFormed(l) && 0 < v && 0 < w && PageMultiple(n) && PageMultiple(k)
    requires NoneFree(l, v, n) && NoneFree(l, w, k) && (v + n <= w || w + k <= v)
    ensures Insert(Insert(l, v, n), w, k) == Insert(Insert(l, w, k), v, n)
  {
    TwoFrees(l, v, n, w, k);
    TwoFrees(l, w, k, v, n);
    Canonical(Insert(Insert(l, v, n), w, k), Insert(Insert(l, w, k), v, n));
  }

  lemma TwoFrees(l: seq<Run>, v: nat, n: nat, w: nat, k: nat)
    requires WellFormed(l) && 0 < v && 0 < w && PageMultiple(n) && PageMultiple(k)
    requires NoneFree(l, v, n) && NoneFree(l, w, k) && (v + n <= w || w + k <= v)
    ensures WellFormed(Insert(Insert(l, v, n), w, k))
    ensures forall a :: Free(Insert(Insert(l, v, n), w, k), a) <==>
                        Free(l, a) || v <= a < v + n || w <= a < w + k
  {
    var m := Insert(l, v, n);
    InsertKeepsWellFormed(l, v, n);
    forall a | w <= a < w + k ensures !Free(m, a) { InsertIsUnion(l, v, n, a); }
    InsertKeepsWellFormed(m, w, k);
    forall a ensures Free(Insert(m, w, k), a) <==> Free(l, a) || v <= a < v + n || w <= a < w + k {
      InsertIsUnion(l, v, n, a);
      InsertIsUnion(m, w, k, a);
    }
  }

  // The two loops.  The source walks a pointer down the list; the part it has passed
  // is l[..i], so each loop is related to the recursive functions by what remains.

  lemma {:induction false} InsertFrom(l: seq<Run>, i: nat, v: nat, len: nat)
    requires i <= |l|
    requires forall j :: 0 <= j < i ==> l[j].addr < v + len && l[j].End() != v
    ensures Insert(l, v, len) == l[..i] + Insert(l[i..], v, len)
  {
    if i == 0 {
      assert l[0..] == l && l[..0] == [];
    } else {
      hide Insert;
      InsertPasses(l, v, len);
      assert forall j :: 0 <= j < i - 1 ==> l[1..][j] == l[j + 1];
      InsertFrom(l[1..], i - 1, v, len);
      Reattach(l, i, Insert(l[i..], v, len));
    }
  }

  lemma Reattach(l: seq<Run>, i: nat, m: seq<Run>)
    requires 0 < i <= |l|
    ensures l[1..][i - 1..] == l[i..] && [l[0]] + (l[1..][..i - 1] + m) == l[..i] + m
  {
  }

  lemma InsertPasses(l: seq<Run>, v: nat, len: nat)
    requires l != [] && l[0].addr < v + len && l[0].End() != v
    ensures Insert(l, v, len) == [l[0]] + Insert(l[1..], v, len)
  {
  }

  lemma {:induction false} TakeFrom(l: seq<Run>, i: nat, n: nat)
    requires i <= |l|
    requires forall j :: 0 <= j < i ==> l[j].len < n
    ensures TakeFirstFit(l, n) == l[..i] + TakeFirstFit(l[i..], n)
    ensures TakenAddr(l, n) == TakenAddr(l[i..], n)
  {
    if i == 0 {
      assert l[0..] == l;
    } else {
      var t := l[1..];
      forall j | 0 <= j < i - 1 ensures t[j].len < n { assert t[j] == l[j + 1]; }
      TakeFrom(t, i - 1, n);
      assert t[i - 1..] == l[i..] && [l[0]] + t[..i - 1] == l[..i];
    }
  }

  lemma {:induction false} FreeFrom(l: seq<Run>, i: nat, a: int)
    requires WellFormed(l) && i <= |l|
    requires forall j :: 0 <= j < i ==> !(l[j].addr <= a < l[j].End())
    ensures WellFormed(l[i..])
    ensures Free(l, a) <==> Free(l[i..], a)
  {
    if i == 0 {
      assert l[0..] == l;
    } else {
      var t := l[1..];
      forall j | 0 <= j < i - 1 ensures !(t[j].addr <= a < t[j].End()) { assert t[j] == l[j + 1]; }
      FreeFrom(t, i - 1, a);
      assert t[i - 1..] == l[i..];
    }
  }

  /** A run at which kfree's loop goes on. */
  predicate Passed(r: Run, v: nat, len: nat) {
    r.addr < v + len && r.End() != v && !(r.addr <= v < r.End())
  }

  /** What kfree's loop does at run i, having passed the runs before it. */
  lemma KfreeCases(l: seq<Run>, i: nat, v: nat, len: nat)
    requires WellFormed(l) && 0 < len && i < |l| && l[i].addr <= v + len && forall j :: 0 <= j < i ==> Passed(l[j], v, len)
    ensures var r := l[i];
            if r.addr <= v < r.End() then Free(l, v)
            else if v + len == r.addr then
              !Free(l, v) && Insert(l, v, len) == l[..i] + [Run(v, len + r.len)] + l[i + 1..]
            else if r.End() == v then
              && !Free(l, v)
              && Insert(l, v, len) ==
                   if i + 1 < |l| && l[i + 1].addr == v + len
                   then l[..i] + [Run(r.addr, r.len + len + l[i + 1].len)] + l[i + 2..]
                   else l[..i] + [Run(r.addr, r.len + len)] + l[i + 1..]
            else Passed(r, v, len)
  {
    hide WellFormed, Free, Insert;
    var r := l[i];
    if r.addr <= v < r.End() {
      KfreePanics(l, i, v, len);
    } else if v + len == r.addr {
      KfreeBefore(l, i, v, len);
    } else if r.End() == v {
      KfreeAfter(l, i, v, len);
    }
  }

  /** The block starts inside run i. */
  lemma KfreePanics(l: seq<Run>, i: nat, v: nat, len: nat)
    requires WellFormed(l) && i < |l| && l[i].addr <= v < l[i].End() && forall j :: 0 <= j < i ==> Passed(l[j], v, len)
    ensures Free(l, v)
  {
    FreeFrom(l, i, v);
    hide WellFormed;
  }

  /** The block ends where run i starts. */
  lemma KfreeBefore(l: seq<Run>, i: nat, v: nat, len: nat)
    requires WellFormed(l) && 0 < len && i < |l| && v + len == l[i].addr && forall j :: 0 <= j < i ==> Passed(l[j], v, len)
    ensures !Free(l, v) && Insert(l, v, len) == l[..i] + [Run(v, len + l[i].len)] + l[i + 1..]
  {
    hide WellFormed, Free, Insert;
    FreeFrom(l, i, v);
    NotFreeBelow(l[i..], v);
    InsertFrom(l, i, v, len);
    InsertBefore(l[i..], v, len);
    Rejoined(l, i, [Run(v, len + l[i].len)], 1);
  }

  lemma InsertBefore(l: seq<Run>, v: nat, len: nat)
    requires l != [] && v + len == l[0].addr
    ensures Insert(l, v, len) == [Run(v, len + l[0].len)] + l[1..]
  {
  }

  /** The block starts where run i ends, and perhaps ends where the next one starts. */
  lemma KfreeAfter(l: seq<Run>, i: nat, v: nat, len: nat)
    requires WellFormed(l) && 0 < len && i < |l| && l[i].End() == v && forall j :: 0 <= j < i ==> Passed(l[j], v, len)
    ensures !Free(l, v)
    ensures Insert(l, v, len) ==
              if i + 1 < |l| && l[i + 1].addr == v + len
              then l[..i] + [Run(l[i].addr, l[i].len + len + l[i + 1].len)] + l[i + 2..]
              else l[..i] + [Run(l[i].addr, l[i].len + len)] + l[i + 1..]
  {
    hide WellFormed, Free, Insert;
    FreeFrom(l, i, v);
    NotFreeAtEnd(l[i..], v);
    InsertFrom(l, i, v, len);
    InsertAfter(l[i..], v, len);
    if i + 1 < |l| && l[i + 1].addr == v + len {
      Rejoined(l, i, [Run(l[i].addr, l[i].len + len + l[i + 1].len)], 2);
    } else {
      Rejoined(l, i, [Run(l[i].addr, l[i].len + len)], 1);
    }
  }

  lemma InsertAfter(l: seq<Run>, v: nat, len: nat)
    requires l != [] && l[0].End() == v && 0 < len
    ensures Insert(l, v, len) ==
              if 1 < |l| && l[1].addr == v + len then [Run(l[0].addr, l[0].len + len + l[1].len)] + l[2..]
              else [Run(l[0].addr, l[0].len + len)] + l[1..]
  {
  }

  lemma Rejoined(l: seq<Run>, i: nat, m: seq<Run>, k: nat)
    requires i + k <= |l|
    ensures l[i..][k..] == l[i + k..] && l[..i] + (m + l[i..][k..]) == l[..i] + m + l[i + k..]
  {
  }

  lemma KfreeEnd(l: seq<Run>, i: nat, v: nat, len: nat)
    requires WellFormed(l) && 0 < len && i <= |l| && (i < |l| ==> v + len < l[i].addr)
    requires forall j :: 0 <= j < i ==> Passed(l[j], v, len)
    ensures !Free(l, v) && Insert(l, v, len) == l[..i] + [Run(v, len)] + l[i..]
  {
    hide WellFormed, Free, NoneFree;
    FreeFrom(l, i, v);
    NotFreeBelow(l[i..], v);
    InsertFrom(l, i, v, len);
    InsertFirst(l[i..], v, len);
    hide Insert;
    assert l[..i] + ([Run(v, len)] + l[i..]) == l[..i] + [Run(v, len)] + l[i..];
  }

  lemma InsertFirst(l: seq<Run>, v: nat, len: nat)
    requires l == [] || v + len < l[0].addr
    ensures Insert(l, v, len) == [Run(v, len)] + l
  {
  }

  class Allocator {
    var freelist: seq<Run>

    /** The list as it stands before kinit. */
    constructor ()
      ensures freelist == []
    {
      freelist := [];
    }

    /** kfree.  `ok` is false where the source panics. */
    method Kfree(v: nat, len: int) returns (ok: bool)
      requires WellFormed(freelist) && 0 < v
      modifies this
      ensures ok <==> PageMultiple(len) && !Free(old(freelist), v)
      ensures freelist == if ok then Insert(old(freelist), v, len) else old(freelist)
      ensures ok ==> (WellFormed(freelist) <==> NoneFree(old(freelist), v, len))
      ensures ok ==> forall a :: Free(freelist, a) <==> Free(old(freelist), a) || v <= a < v + len
    {
      if len <= 0 || len % PAGE != 0 { return false; }
      ghost var l := freelist;
      if !Free(l, v) {
        InsertKeepsExactly(l, v, len);
        forall a ensures Free(Insert(l, v, len), a) <==> Free(l, a) || v <= a < v + len { InsertIsUnion(l, v, len, a); }
      }
      ok := KfreeWalk(v, len);
    }

    /** The pointer loop of kfree. */
    method KfreeWalk(v: nat, len: nat) returns (ok: bool)
      requires WellFormed(freelist) && 0 < v && PageMultiple(len)
      modifies this
      ensures ok <==> !Free(old(freelist), v)
      ensures freelist == if ok then Insert(old(freelist), v, len) else old(freelist)
    {
      hide WellFormed, Free, NoneFree, Insert;
      var l := freelist;
      var i := 0;
      while i < |l| && l[i].addr <= v + len
        invariant 0 <= i <= |l| && freelist == l == old(freelist)
        invariant forall j :: 0 <= j < i ==> Passed(l[j], v, len)
      {
        var r := l[i];
        KfreeCases(l, i, v, len);
        if r.addr <= v < r.End() { return false; }
        if v + len == r.addr {
          freelist := l[..i] + [Run(v, len + r.len)] + l[i + 1..];
          return true;
        }
        if r.End() == v {
          if i + 1 < |l| && l[i + 1].addr == v + len {
            freelist := l[..i] + [Run(r.addr, r.len + len + l[i + 1].len)] + l[i + 2..];
          } else {
            freelist := l[..i] + [Run(r.addr, r.len + len)] + l[i + 1..];
          }
          return true;
        }
        i := i + 1;
      }
      KfreeEnd(l, i, v, len);
      freelist := l[..i] + [Run(v, len)] + l[i..];
      return true;
    }

    /** kalloc.  The address is 0 when the request cannot be met; `ok` is false where the source panics. */
    method Kalloc(n: int) returns (ok: bool, p: nat)
      requires WellFormed(freelist)
      modifies this
      ensures ok <==> PageMultiple(n)
      ensures !ok ==> freelist == old(freelist) && p == 0
      ensures ok ==> p == TakenAddr(old(freelist), n) && freelist == TakeFirstFit(old(freelist), n)
      ensures WellFormed(freelist)
      ensures ok ==> (p == 0 <==> !exists v :: AllFree(old(freelist), v, n))
      ensures p != 0 ==> AllFree(old(freelist), p, n)
      ensures p != 0 ==> forall a :: Free(freelist, a) <==> Free(old(freelist), a) && !(p <= a < p + n)
    {
      if n % PAGE != 0 || n <= 0 { return false, 0; }
      ghost var l := freelist;
      FailsExactly(l, n);
      TakeKeepsWellFormed(l, n);
      p := KallocWalk(n);
      ok := true;
      if p != 0 {
        forall a ensures p <= a < p + n ==> Free(l, a)
                 ensures Free(freelist, a) <==> Free(l, a) && !(p <= a < p + n)
        { TakeRemoves(l, n, a); }
      }
    }

    /** The pointer loop of kalloc. */
    method KallocWalk(n: nat) returns (p: nat)
      modifies this
      ensures p == TakenAddr(old(freelist), n) && freelist == TakeFirstFit(old(freelist), n)
    {
      var l := freelist;
      var i := 0;
      while i < |l|
        invariant 0 <= i <= |l| && freelist == l == old(freelist)
        invariant forall j :: 0 <= j < i ==> l[j].len < n
      {
        TakeFrom(l, i, n);
        assert l[i..][0] == l[i] && l[i..][1..] == l[i + 1..];
        if l[i].len == n {
          freelist := l[..i] + l[i + 1..];
          return l[i].addr;
        }
        if n < l[i].len {
          freelist := l[..i] + [Run(l[i].addr, l[i].len - n)] + l[i + 1..];
          return l[i].addr + (l[i].len - n);
        }
        i := i + 1;
      }
      TakeFrom(l, |l|, n);
      return 0;
    }

    /** kinit: one run of 256 pages, starting at the first page boundary above `end`. */
    method Kinit(end: nat) returns (start: nat)
      requires freelist == []
      modifies this
      ensures start % PAGE == 0 && end < start <= end + PAGE
      ensures WellFormed(freelist)
      ensures forall a :: Free(freelist, a) <==> start <= a < start + 256 * PAGE
    {
      start := (end + PAGE) / PAGE * PAGE;
      var ok := Kfree(start, 256 * PAGE);
    }
  }

  lemma NotFreeBelow(l: seq<Run>, a: int)
    requires WellFormed(l) && (l != [] ==> a < l[0].addr)
    ensures !Free(l, a)
  {
    if Free(l, a) { FreeFromHead(l, a); }
  }

  lemma NotFreeAtEnd(l: seq<Run>, a: int)
    requires WellFormed(l) && l != [] && a == l[0].End()
    ensures !Free(l, a)
  {
    NotFreeBelow(l[1..], a);
  }
}
