/** The user-level allocator (xv6/umalloc.c), after Kernighan and Ritchie, The C Programming Language, 2nd
    edition, section 8.7.

    Addresses count headers, as pointer arithmetic on Header* does.  The free list is circular; `list` spells
    it out from `base` on, in address order, so its last link is the one that wraps.
 */
module Umalloc {
  import opened Options

  const BASE: nat := 1          // the address of `base`, below everything sbrk returns
  const HEADER: nat := 8        // sizeof(Header)
  const NU_MIN: nat := 4096     // PAGE
  const WRAP: nat := 0x1_0000_0000

  type Words = map<nat, nat>

  // The list

  function Succ(l: seq<nat>, i: nat): nat
    requires i < |l|
  {
    if i + 1 == |l| then 0 else i + 1
  }

  ghost predicate Linked(ptr: Words, l: seq<nat>) {
    forall i :: 0 <= i < |l| ==> l[i] in ptr && ptr[l[i]] == l[Succ(l, i)]
  }

  /** In address order, with room between neighbours. */
  ghost predicate Ordered(size: Words, l: seq<nat>) {
    && l != [] && l[0] == BASE && (forall i :: 0 <= i < |l| ==> l[i] in size)
    && size[BASE] == 0 && (forall i :: 1 <= i < |l| ==> 0 < size[l[i]])
    && forall i :: 1 <= i < |l| ==> Gap(size, l, i)
  }

  ghost predicate Gap(size: Words, l: seq<nat>, i: nat) {
    1 <= i < |l| && l[i - 1] in size && l[i - 1] + size[l[i - 1]] < l[i]
  }

  ghost predicate InBlock(size: Words, b: nat, a: nat) { b in size && b <= a < b + size[b] }

  ghost predicate IsFree(size: Words, l: seq<nat>, a: nat) {
    exists i :: 0 <= i < |l| && InBlock(size, l[i], a)
  }

  /** No unit of block b is free. */
  ghost predicate Clear(size: Words, l: seq<nat>, b: nat) {
    BASE < b && b in size && 0 < size[b] && forall i :: 0 <= i < |l| && l[i] in size ==> DisjointBlocks(size, l[i], b)
  }

  ghost predicate DisjointBlocks(size: Words, b: nat, c: nat)
    requires b in size && c in size
  {
    b + size[b] <= c || c + size[c] <= b
  }

  // Where a block belongs

  /** Index j is the last node below b: where free's search stops. */
  ghost predicate Below(l: seq<nat>, j: nat, b: nat) {
    j < |l| && l[j] < b && forall i :: j < i < |l| ==> b < l[i]
  }

  lemma {:induction false} BelowExists(size: Words, l: seq<nat>, b: nat) returns (j: nat)
    requires Ordered(size, l) && BASE < b && b !in l
    ensures Below(l, j, b)
  {
    j := |l| - 1;
    while b < l[j]
      invariant 0 <= j < |l| && forall i :: j < i < |l| ==> b < l[i]
      decreases j
    {
      j := j - 1;
    }
  }

  /** free's two tests find that index, and only that one. */
  lemma SearchStops(size: Words, ptr: Words, l: seq<nat>, i: nat, j: nat, b: nat)
    requires Ordered(size, l) && Linked(ptr, l) && i < |l| && Below(l, j, b)
    ensures var p := l[i]; (p < b < ptr[p] || (ptr[p] <= p && (p < b || b < ptr[p]))) <==> i == j
  {
    hide Ordered, Linked;
    LinkIs(ptr, l, i);
    FirstIs(size, l, i);
    FirstIs(size, l, j);
    if i + 1 < |l| { Climbs(size, l, i, i + 1); }
    if i < j { Climbs(size, l, i, j); }
    if i + 1 < j { Climbs(size, l, i + 1, j); }
  }

  lemma FirstIs(size: Words, l: seq<nat>, i: nat)
    requires Ordered(size, l) && i < |l|
    ensures l[0] == BASE <= l[i]
  {
    if i != 0 { Climbs(size, l, 0, i); }
  }

  /** Steps along the circle from i to j. */
  function Ahead(n: nat, i: nat, j: nat): nat
    requires i < n && j < n
  {
    if i <= j then j - i else j - i + n
  }

  // free: putting block b after node j, or taking a node out

  function Inserted(l: seq<nat>, j: nat, b: nat): seq<nat>
    requires j < |l|
  {
    l[..j + 1] + [b] + l[j + 1..]
  }

  function Dropped(l: seq<nat>, j: nat): seq<nat>
    requires j < |l|
  {
    l[..j] + l[j + 1..]
  }

  ghost predicate Increasing(l: seq<nat>) {
    forall i, k :: 0 <= i < k < |l| ==> l[i] < l[k]
  }

  lemma OrderedIncreases(size: Words, l: seq<nat>)
    requires Ordered(size, l)
    ensures Increasing(l)
  {
    forall i, k | 0 <= i < k < |l| ensures l[i] < l[k] { Climbs(size, l, i, k); }
  }

  lemma {:induction false} Climbs(size: Words, l: seq<nat>, i: nat, k: nat)
    requires Ordered(size, l) && i < k < |l|
    ensures l[i] in size && l[i] + size[l[i]] < l[k] && l[i] < l[k]
    decreases k
  {
    assert Gap(size, l, k);
    if i < k - 1 { Climbs(size, l, i, k - 1); }
  }

  lemma InsertedAt(l: seq<nat>, j: nat, b: nat, i: nat)
    requires j < |l| && i < |l| + 1
    ensures var m := Inserted(l, j, b);
            |m| == |l| + 1 && m[i] == if i <= j then l[i] else if i == j + 1 then b else l[i - 1]
  {
  }

  lemma InsertedLinks(ptr: Words, l: seq<nat>, j: nat, b: nat)
    requires Linked(ptr, l) && j < |l| && b !in l && Increasing(l)
    ensures l[j] in ptr && Linked(ptr[b := ptr[l[j]]][l[j] := b], Inserted(l, j, b))
  {
    var ptr2, m := ptr[b := ptr[l[j]]][l[j] := b], Inserted(l, j, b);
    assert ptr[l[j]] == l[Succ(l, j)];
    InsertedAt(l, j, b, j + 1);
    forall i | 0 <= i < |m| ensures m[i] in ptr2 && ptr2[m[i]] == m[Succ(m, i)] {
      InsertedAt(l, j, b, i);
      InsertedAt(l, j, b, Succ(m, i));
      hide Inserted;
      if i < j { assert ptr[l[i]] == l[Succ(l, i)]; }
      if j + 1 < i { assert ptr[l[i - 1]] == l[Succ(l, i - 1)]; }
    }
  }

  lemma DroppedAt(l: seq<nat>, j: nat, i: nat)
    requires j < |l| && i < |l| - 1
    ensures |Dropped(l, j)| == |l| - 1 && Dropped(l, j)[i] == if i < j then l[i] else l[i + 1]
  {
  }

  lemma LinkIs(ptr: Words, l: seq<nat>, i: nat)
    requires Linked(ptr, l) && i < |l|
    ensures l[i] in ptr && ptr[l[i]] == l[Succ(l, i)]
  {
  }

  /** The successor of node i once node j is taken out: as before, the successor of j, or one place further on. */
  lemma DroppedLinkAt(ptr: Words, l: seq<nat>, j: nat, m: seq<nat>, i: nat)
    requires Linked(ptr, l) && 0 < j < |l| && Increasing(l) && |m| == |l| - 1 && i < |m|
    requires m[i] == if i < j then l[i] else l[i + 1]
    requires m[Succ(m, i)] == if Succ(m, i) < j then l[Succ(m, i)] else l[Succ(m, i) + 1]
    requires l[j] in ptr
    ensures var ptr2 := ptr[l[j - 1] := ptr[l[j]]]; m[i] in ptr2 && ptr2[m[i]] == m[Succ(m, i)]
  {
    hide Linked, Increasing;
    if i < j - 1 {
      LinkIs(ptr, l, i);
      Rises(l, i, j - 1);
    } else if i == j - 1 {
      LinkIs(ptr, l, j);
    } else {
      LinkIs(ptr, l, i + 1);
      Rises(l, j - 1, i + 1);
    }
  }

  lemma Rises(l: seq<nat>, i: nat, k: nat)
    requires Increasing(l) && i < k < |l|
    ensures l[i] < l[k]
  {
  }

  lemma DroppedLinks(ptr: Words, l: seq<nat>, j: nat)
    requires Linked(ptr, l) && 0 < j < |l| && Increasing(l)
    ensures l[j] in ptr && Linked(ptr[l[j - 1] := ptr[l[j]]], Dropped(l, j))
  {
    hide Increasing, Dropped;
    LinkIs(ptr, l, j);
    LinkIs(ptr, l, j - 1);
    var ptr2, m := ptr[l[j - 1] := ptr[l[j]]], Dropped(l, j);
    DroppedAt(l, j, 0);
    forall i | 0 <= i < |m| ensures m[i] in ptr2 && ptr2[m[i]] == m[Succ(m, i)] {
      DroppedAt(l, j, i);
      DroppedAt(l, j, Succ(m, i));
      DroppedLinkAt(ptr, l, j, m, i);
    }
  }

  // What these do to order and to the free units

  lemma DroppedOrdered(size: Words, l: seq<nat>, j: nat)
    requires Ordered(size, l) && 0 < j < |l|
    ensures Ordered(size, Dropped(l, j))
  {
    var m := Dropped(l, j);
    forall i | 1 <= i < |m| ensures Gap(size, m, i) {
      if i < j {
        assert Gap(size, l, i);
      } else {
        assert Gap(size, l, i + 1);
        if i == j { assert Gap(size, l, j); }
      }
    }
  }

  lemma DroppedFree(size: Words, l: seq<nat>, j: nat, a: nat)
    requires Ordered(size, l) && 0 < j < |l|
    ensures IsFree(size, Dropped(l, j), a) <==> IsFree(size, l, a) && !InBlock(size, l[j], a)
  {
    var m := Dropped(l, j);
    if IsFree(size, l, a) && !InBlock(size, l[j], a) {
      var i :| 0 <= i < |l| && InBlock(size, l[i], a);
      assert m[if i < j then i else i - 1] == l[i];
    }
    if IsFree(size, m, a) {
      var i :| 0 <= i < |m| && InBlock(size, m[i], a);
      var e := if i < j then i else i + 1;
      assert m[i] == l[e];
      if e < j { Climbs(size, l, e, j); } else { Climbs(size, l, j, e); }
    }
  }

  lemma InsertedOrdered(size: Words, l: seq<nat>, j: nat, b: nat)
    requires Ordered(size, l) && j < |l| && b in size && 0 < size[b] && l[j] + size[l[j]] < b
    requires j + 1 < |l| ==> b + size[b] < l[j + 1]
    ensures Ordered(size, Inserted(l, j, b))
  {
    var m := Inserted(l, j, b);
    forall i | 1 <= i < |m| ensures Gap(size, m, i) {
      if i <= j { assert Gap(size, l, i); } else if j + 2 < i { assert Gap(size, l, i - 1); }
    }
  }

  lemma InsertedFree(size: Words, l: seq<nat>, j: nat, b: nat, a: nat)
    requires j < |l|
    ensures IsFree(size, Inserted(l, j, b), a) <==> IsFree(size, l, a) || InBlock(size, b, a)
  {
    var m := Inserted(l, j, b);
    if IsFree(size, l, a) {
      var i :| 0 <= i < |l| && InBlock(size, l[i], a);
      assert m[if i <= j then i else i + 1] == l[i];
    }
    if InBlock(size, b, a) { assert m[j + 1] == b; }
  }

  /** Block j grows by m units. */
  lemma GrownOrdered(size: Words, l: seq<nat>, j: nat, m: nat)
    requires Ordered(size, l) && 0 < j < |l| && (j + 1 < |l| ==> l[j] + size[l[j]] + m < l[j + 1])
    ensures Ordered(size[l[j] := size[l[j]] + m], l)
  {
    var size2 := size[l[j] := size[l[j]] + m];
    OrderedIncreases(size, l);
    forall i | 1 <= i < |l| ensures Gap(size2, l, i) { assert Gap(size, l, i); }
  }

  lemma GrownFree(size: Words, l: seq<nat>, j: nat, m: nat, a: nat)
    requires Ordered(size, l) && 0 < j < |l|
    ensures IsFree(size[l[j] := size[l[j]] + m], l, a) <==>
            IsFree(size, l, a) || l[j] + size[l[j]] <= a < l[j] + size[l[j]] + m
  {
    var size2 := size[l[j] := size[l[j]] + m];
    OrderedIncreases(size, l);
    if IsFree(size, l, a) { var i :| 0 <= i < |l| && InBlock(size, l[i], a); assert InBlock(size2, l[i], a); }
    if l[j] + size[l[j]] <= a < l[j] + size[l[j]] + m { assert InBlock(size2, l[j], a); }
    if IsFree(size2, l, a) { var i :| 0 <= i < |l| && InBlock(size2, l[i], a); assert i != j ==> InBlock(size, l[i], a); }
  }

  /** Sizes of blocks outside the list do not matter. */
  lemma SizeFrame(size: Words, size2: Words, l: seq<nat>, a: nat)
    requires Ordered(size, l) && forall i :: 0 <= i < |l| ==> l[i] in size2 && size2[l[i]] == size[l[i]]
    ensures Ordered(size2, l) && (IsFree(size2, l, a) <==> IsFree(size, l, a))
  {
    forall i | 1 <= i < |l| ensures Gap(size2, l, i) { assert Gap(size, l, i); }
    if IsFree(size, l, a) { var i :| 0 <= i < |l| && InBlock(size, l[i], a); assert InBlock(size2, l[i], a); }
    if IsFree(size2, l, a) { var i :| 0 <= i < |l| && InBlock(size2, l[i], a); assert InBlock(size, l[i], a); }
  }

  /** A clear block lies between its neighbours. */
  lemma ClearFits(size: Words, l: seq<nat>, j: nat, b: nat)
    requires Ordered(size, l) && Below(l, j, b) && Clear(size, l, b)
    ensures l[j] + size[l[j]] <= b && (j + 1 < |l| ==> b + size[b] <= l[j + 1]) && b !in l
  {
    assert DisjointBlocks(size, l[j], b);
    if j + 1 < |l| { assert DisjointBlocks(size, l[j + 1], b); }
    forall i | 0 <= i < |l| ensures l[i] != b { assert DisjointBlocks(size, l[i], b); }
  }

  // free, as a whole

  /** The size of block b after merging with the block behind it. */
  function Forward(size: Words, l: seq<nat>, j: nat, b: nat): nat
    requires b in size && forall i :: 0 <= i < |l| ==> l[i] in size
  {
    if j + 1 < |l| && b + size[b] == l[j + 1] then size[b] + size[l[j + 1]] else size[b]
  }

  /** The list without the block that b absorbs. */
  function Rest(size: Words, l: seq<nat>, j: nat, b: nat): seq<nat>
    requires b in size && j < |l|
  {
    if j + 1 < |l| && b + size[b] == l[j + 1] then Dropped(l, j + 1) else l
  }

  function Freed(size: Words, l: seq<nat>, j: nat, b: nat): seq<nat>
    requires b in size && j < |l| && l[j] in size
  {
    var m := Rest(size, l, j, b);
    if l[j] + size[l[j]] == b then m else if j < |m| then Inserted(m, j, b) else m
  }

  function FreedSize(size: Words, l: seq<nat>, j: nat, b: nat): Words
    requires b in size && j < |l| && forall i :: 0 <= i < |l| ==> l[i] in size
  {
    var n := Forward(size, l, j, b);
    var s := size[b := n];
    if l[j] + size[l[j]] == b then s[l[j] := size[l[j]] + n] else s
  }

  lemma RestIs(size: Words, l: seq<nat>, j: nat, b: nat)
    requires Ordered(size, l) && Below(l, j, b) && Clear(size, l, b)
    ensures var m, n := Rest(size, l, j, b), Forward(size, l, j, b);
            && Ordered(size, m) && j < |m| && m[j] == l[j] && b !in m
            && (j + 1 < |m| ==> b + n < m[j + 1])
            && Below(m, j, b)
  {
    var m := Rest(size, l, j, b);
    ClearFits(size, l, j, b);
    OrderedIncreases(size, l);
    if m != l {
      DroppedOrdered(size, l, j + 1);
      forall i | 0 <= i < |m| ensures m[i] == if i < j + 1 then l[i] else l[i + 1] { DroppedAt(l, j + 1, i); }
      if j + 2 < |l| { assert Gap(size, l, j + 2); }
    }
  }

  lemma RestFree(size: Words, l: seq<nat>, j: nat, b: nat, a: nat)
    requires Ordered(size, l) && Below(l, j, b) && Clear(size, l, b)
    ensures IsFree(size, l, a) || InBlock(size, b, a) <==>
            IsFree(size, Rest(size, l, j, b), a) || b <= a < b + Forward(size, l, j, b)
  {
    if Rest(size, l, j, b) != l {
      DroppedFree(size, l, j + 1, a);
      if InBlock(size, l[j + 1], a) { assert IsFree(size, l, a); }
    }
  }

  lemma FreedIs(size: Words, l: seq<nat>, j: nat, b: nat, a: nat)
    requires Ordered(size, l) && Below(l, j, b) && Clear(size, l, b)
    ensures Ordered(FreedSize(size, l, j, b), Freed(size, l, j, b))
    ensures IsFree(FreedSize(size, l, j, b), Freed(size, l, j, b), a) <==> IsFree(size, l, a) || InBlock(size, b, a)
  {
    var m, n := Rest(size, l, j, b), Forward(size, l, j, b);
    RestIs(size, l, j, b);
    RestFree(size, l, j, b, a);
    ClearFits(size, l, j, b);
    var s := size[b := n];
    SizeFrame(size, s, m, a);
    hide Rest, Forward;
    if l[j] + size[l[j]] == b {
      GrownOrdered(s, m, j, n);
      GrownFree(s, m, j, n, a);
    } else {
      InsertedOrdered(s, m, j, b);
      InsertedFree(s, m, j, b, a);
    }
  }

  // The pointers free writes

  /** bp->s.ptr, after the first test of free. */
  function NewPtr(ptr: Words, size: Words, p: nat, b: nat): Words
    requires p in ptr && b in size && (b + size[b] == ptr[p] ==> ptr[p] in ptr)
  {
    ptr[b := if b + size[b] == ptr[p] then ptr[ptr[p]] else ptr[p]]
  }

  /** What free reads at node j. */
  lemma NextIs(ptr: Words, size: Words, l: seq<nat>, j: nat, b: nat)
    requires Ordered(size, l) && Linked(ptr, l) && Below(l, j, b) && Clear(size, l, b)
    ensures l[j] in ptr && ptr[l[j]] in ptr && ptr[l[j]] == if j + 1 < |l| then l[j + 1] else BASE
    ensures b + size[b] == ptr[l[j]] <==> j + 1 < |l| && b + size[b] == l[j + 1]
  {
    LinkIs(ptr, l, j);
    LinkIs(ptr, l, Succ(l, j));
  }

  /** The links once the block that b absorbs is out. */
  lemma RestLinks(ptr: Words, size: Words, l: seq<nat>, j: nat, b: nat)
    requires Ordered(size, l) && Linked(ptr, l) && Below(l, j, b) && Clear(size, l, b) && b !in l
    ensures l[j] in ptr && (b + size[b] == ptr[l[j]] ==> ptr[l[j]] in ptr)
    ensures Linked(ptr[l[j] := NewPtr(ptr, size, l[j], b)[b]], Rest(size, l, j, b))
  {
    NextIs(ptr, size, l, j, b);
    OrderedIncreases(size, l);
    hide Ordered, Increasing, Below, Clear;
    if b + size[b] == ptr[l[j]] {
      DroppedLinks(ptr, l, j + 1);
    } else {
      LinksFrame(ptr, ptr[l[j] := ptr[l[j]]], l);
    }
  }

  lemma FreedLinks(ptr: Words, size: Words, l: seq<nat>, j: nat, b: nat)
    requires Ordered(size, l) && Linked(ptr, l) && Below(l, j, b) && Clear(size, l, b)
    ensures l[j] in ptr && (b + size[b] == ptr[l[j]] ==> ptr[l[j]] in ptr)
    ensures var ptr1 := NewPtr(ptr, size, l[j], b);
            Linked(ptr1[l[j] := if l[j] + size[l[j]] == b then ptr1[b] else b], Freed(size, l, j, b))
  {
    NextIs(ptr, size, l, j, b);
    ClearFits(size, l, j, b);
    RestIs(size, l, j, b);
    RestLinks(ptr, size, l, j, b);
    OrderedIncreases(size, Rest(size, l, j, b));
    JoinLinks(ptr, NewPtr(ptr, size, l[j], b), Rest(size, l, j, b), j, b, l[j] + size[l[j]] == b);
  }

  /** Node j, of the list without what b absorbed, gets b as its successor, or takes b in. */
  lemma JoinLinks(ptr: Words, ptr1: Words, m: seq<nat>, j: nat, b: nat, joins: bool)
    requires j < |m| && m[j] in ptr && b in ptr1 && ptr1 == ptr[b := ptr1[b]] && b !in m && Increasing(m)
    requires Linked(ptr[m[j] := ptr1[b]], m)
    ensures Linked(ptr1[m[j] := if joins then ptr1[b] else b], if joins then m else Inserted(m, j, b))
  {
    hide Linked, Increasing, Inserted;
    var ptr0: Words := ptr[m[j] := ptr1[b]];
    if joins {
      LinksFrame(ptr0, ptr1[m[j] := ptr1[b]], m);
    } else {
      InsertedLinks(ptr0, m, j, b);
      var ptr2: Words := ptr0[b := ptr0[m[j]]];
      assert ptr1[m[j] := b] == ptr2[m[j] := b];
    }
  }

  lemma LinksFrame(ptr: Words, ptr2: Words, l: seq<nat>)
    requires Linked(ptr, l) && forall a :: a in ptr && a in l ==> a in ptr2 && ptr2[a] == ptr[a]
    ensures Linked(ptr2, l)
  {
    forall i | 0 <= i < |l| ensures l[i] in ptr2 && ptr2[l[i]] == l[Succ(l, i)] { LinkIs(ptr, l, i); }
  }

  // Live blocks

  /** An allocated block: none of its units is free, and all lie below the top of the heap. */
  ghost predicate LiveBlock(size: Words, l: seq<nat>, b: nat, brk: nat) {
    BASE < b && b in size && 0 < size[b] && b + size[b] <= brk && forall a :: InBlock(size, b, a) ==> !IsFree(size, l, a)
  }

  ghost predicate Apart(size: Words, b: nat, c: nat) {
    forall a :: !(InBlock(size, b, a) && InBlock(size, c, a))
  }

  ghost predicate HeapOk(size: Words, l: seq<nat>, live: set<nat>, brk: nat) {
    && BASE < brk && (forall a: nat :: IsFree(size, l, a) ==> a < brk)
    && (forall b :: b in live ==> LiveBlock(size, l, b, brk))
    && (forall b, c :: b in live && c in live && b != c ==> Apart(size, b, c))
  }

  lemma LiveIsClear(size: Words, l: seq<nat>, b: nat, brk: nat)
    requires Ordered(size, l) && LiveBlock(size, l, b, brk)
    ensures Clear(size, l, b) && b !in l
  {
    assert InBlock(size, b, b);
    forall i | 0 <= i < |l| ensures DisjointBlocks(size, l[i], b) {
      if i != 0 && !DisjointBlocks(size, l[i], b) {
        var a := if l[i] < b then b else l[i];
        assert InBlock(size, l[i], a) && InBlock(size, b, a);
        assert IsFree(size, l, a);
      }
    }
  }

  /** The blocks of `live` are the same blocks in both. */
  ghost predicate SameLive(size: Words, size2: Words, live: set<nat>) {
    forall b :: b in live && b in size ==> b in size2 && size2[b] == size[b]
  }

  lemma SameLiveRefl(size: Words, live: set<nat>)
    ensures SameLive(size, size, live)
  {
  }

  lemma SameLiveTrans(size: Words, size1: Words, size2: Words, live: set<nat>)
    requires SameLive(size, size1, live) && SameLive(size1, size2, live)
    ensures SameLive(size, size2, live)
  {
  }

  /** Units move from the live to the free or back; the rest stays apart. */
  lemma HeapKeeps(size: Words, l: seq<nat>, size2: Words, l2: seq<nat>, live: set<nat>, brk: nat, brk2: nat, lo: nat, hi: nat)
    requires HeapOk(size, l, live, brk) && SameLive(size, size2, live) && brk <= brk2 && hi <= brk2
    requires forall a: nat :: IsFree(size2, l2, a) ==> IsFree(size, l, a) || lo <= a < hi
    requires forall b, a: nat :: b in live && InBlock(size, b, a) ==> !(lo <= a < hi)
    ensures HeapOk(size2, l2, live, brk2)
  {
    hide IsFree;
    forall b, a | b in live && InBlock(size2, b, a) ensures InBlock(size, b, a) { assert LiveBlock(size, l, b, brk); }
    forall b | b in live ensures LiveBlock(size2, l2, b, brk2) { assert LiveBlock(size, l, b, brk); }
    forall b, c | b in live && c in live && b != c ensures Apart(size2, b, c) { assert Apart(size, b, c); }
  }

  lemma FreedLive(size: Words, l: seq<nat>, j: nat, b: nat, live: set<nat>, brk: nat)
    requires Ordered(size, l) && Below(l, j, b) && Clear(size, l, b) && HeapOk(size, l, live, brk) && b !in live
    ensures SameLive(size, FreedSize(size, l, j, b), live)
  {
    forall c | c in live ensures c !in l {
      assert LiveBlock(size, l, c, brk);
      LiveIsClear(size, l, c, brk);
    }
  }

  lemma FreedHas(size: Words, l: seq<nat>, j: nat, b: nat)
    requires Ordered(size, l) && Below(l, j, b) && Clear(size, l, b)
    ensures var m, s := Freed(size, l, j, b), FreedSize(size, l, j, b);
            exists i :: 0 <= i < |m| && m[i] in s && size[b] <= s[m[i]]
    ensures l[j] in Freed(size, l, j, b)
  {
    RestIs(size, l, j, b);
    var m, s := Freed(size, l, j, b), FreedSize(size, l, j, b);
    var r := Rest(size, l, j, b);
    if l[j] + size[l[j]] == b {
      assert m[j] == l[j] && size[b] <= s[m[j]];
    } else {
      InsertedAt(r, j, b, j + 1);
      InsertedAt(r, j, b, j);
      assert m[j + 1] == b && m[j] == l[j] && size[b] <= s[m[j + 1]];
    }
  }

  // malloc takes a block, or the tail of one

  lemma ShrunkOrdered(size: Words, l: seq<nat>, k: nat, n: nat)
    requires Ordered(size, l) && 0 < k < |l| && 0 < n < size[l[k]]
    ensures var q := l[k] + size[l[k]] - n;
            q !in l && Ordered(size[l[k] := size[l[k]] - n][q := n], l)
  {
    var q := l[k] + size[l[k]] - n;
    var size2 := size[l[k] := size[l[k]] - n][q := n];
    OrderedIncreases(size, l);
    forall i | 0 <= i < |l| ensures l[i] != q { if k < i { Climbs(size, l, k, i); } }
    forall i | 1 <= i < |l| ensures Gap(size2, l, i) { assert Gap(size, l, i); }
  }

  lemma ShrunkFree(size: Words, l: seq<nat>, k: nat, n: nat, a: nat)
    requires Ordered(size, l) && 0 < k < |l| && 0 < n < size[l[k]]
    ensures var q := l[k] + size[l[k]] - n;
            IsFree(size[l[k] := size[l[k]] - n][q := n], l, a) <==> IsFree(size, l, a) && !(q <= a < q + n)
  {
    var q := l[k] + size[l[k]] - n;
    var size2 := size[l[k] := size[l[k]] - n][q := n];
    ShrunkOrdered(size, l, k, n);
    OrderedIncreases(size, l);
    if IsFree(size, l, a) && !(q <= a < q + n) {
      var i :| 0 <= i < |l| && InBlock(size, l[i], a);
      assert InBlock(size2, l[i], a);
    }
    if IsFree(size2, l, a) {
      var i :| 0 <= i < |l| && InBlock(size2, l[i], a);
      assert InBlock(size, l[i], a);
      if i < k { Climbs(size, l, i, k); } else if k < i { Climbs(size, l, k, i); }
    }
  }

  /** A new live block, taken from the free units. */
  lemma TakenKeeps(size: Words, l: seq<nat>, size2: Words, l2: seq<nat>, live: set<nat>, brk: nat, q: nat, n: nat)
    requires HeapOk(size, l, live, brk) && SameLive(size, size2, live) && BASE < q && 0 < n && q in size2 && size2[q] == n
    requires forall a: nat :: q <= a < q + n ==> IsFree(size, l, a)
    requires forall a: nat :: IsFree(size2, l2, a) <==> IsFree(size, l, a) && !(q <= a < q + n)
    ensures q !in live && HeapOk(size2, l2, live + {q}, brk)
  {
    hide IsFree;
    forall b | b in live ensures b != q { assert LiveBlock(size, l, b, brk); assert InBlock(size, b, b); }
    HeapKeeps(size, l, size2, l2, live, brk, brk, 0, 0);
    assert IsFree(size, l, q + n - 1);
    assert LiveBlock(size2, l2, q, brk);
    forall b, a: nat | b in live && InBlock(size2, b, a) ensures !InBlock(size2, q, a) {
      assert LiveBlock(size, l, b, brk);
      assert InBlock(size, b, a);
    }
  }

  // Sizes

  /** nunits, in 32-bit arithmetic. */
  function Units(nbytes: nat): (n: nat)
    ensures 0 < n
  {
    (nbytes + HEADER - 1) % WRAP / HEADER + 1
  }

  /** A block of that many units has room for nbytes behind its header exactly when the sum does not wrap around. */
  lemma RoomExactly(nbytes: nat)
    requires nbytes < WRAP
    ensures nbytes <= (Units(nbytes) - 1) * HEADER <==> nbytes + HEADER - 1 < WRAP
  {
    if WRAP <= nbytes + HEADER - 1 {
      assert (nbytes + HEADER - 1) % WRAP == nbytes + HEADER - 1 - WRAP;
    }
  }

  /** malloc of all the bytes there are asks for one unit, which is the header. */
  lemma WrapsToHeader()
    ensures Units(WRAP - 1) == 1 && !(WRAP - 1 <= (Units(WRAP - 1) - 1) * HEADER)
  {
    assert (WRAP - 1 + HEADER - 1) % WRAP == HEADER - 2;
    RoomExactly(WRAP - 1);
  }

  class Heap {
    var ptr: Words
    var size: Words
    var freep: nat          // 0 before the first malloc
    ghost var list: seq<nat>
    ghost var live: set<nat>
    ghost var brk: nat      // everything below came from sbrk, or is the program

    ghost predicate Valid()
      reads this
    {
      && (if freep == 0 then list == [] && live == {} else Ordered(size, list) && Linked(ptr, list) && freep in list)
      && HeapOk(size, list, live, brk)
    }

    constructor (top: nat)
      requires BASE < top
      ensures Valid() && freep == 0 && live == {} && brk == top
    {
      ptr, size, freep := map[], map[], 0;
      list, live, brk := [], {}, top;
    }

    /** free's search: the node after which b belongs.  It ends because each turn brings it one node closer. */
    method Search(b: nat, ghost j: nat) returns (p: nat)
      requires Ordered(size, list) && Linked(ptr, list) && freep in list && Below(list, j, b)
      ensures p == list[j]
    {
      p := freep;
      ghost var i: nat :| i < |list| && list[i] == p;
      SearchStops(size, ptr, list, i, j, b);
      while !(p < b && b < ptr[p])
        invariant i < |list| && p == list[i] && p in ptr
        invariant (p < b < ptr[p] || (ptr[p] <= p && (p < b || b < ptr[p]))) <==> i == j
        decreases Ahead(|list|, i, j)
      {
        if ptr[p] <= p && (p < b || b < ptr[p]) { break; }
        LinkIs(ptr, list, i);
        p := ptr[p];
        i := Succ(list, i);
        SearchStops(size, ptr, list, i, j, b);
      }
    }

    /** The writes of free, after node p. */
    method Splice(p: nat, b: nat)
      requires p in ptr && p in size && b in size && ptr[p] in ptr && ptr[p] in size
      modifies this`ptr, this`size
      ensures size == GiveSize(old(size), p, b, old(ptr)[p]) && ptr == GivePtr(old(ptr), old(size), p, b)
    {
      var next := ptr[p];
      if b + size[b] == next {
        size := size[b := size[b] + size[next]];
        ptr := ptr[b := ptr[next]];
      } else {
        ptr := ptr[b := next];
      }
      if p + size[p] == b {
        size := size[p := size[p] + size[b]];
        ptr := ptr[p := ptr[b]];
      } else {
        ptr := ptr[p := b];
      }
    }

    /** free, given the header: the block joins the list, merged with the neighbours it touches. */
    method Give(b: nat)
      requires Valid() && freep != 0 && b !in live && LiveBlock(size, list, b, brk)
      requires forall c :: c in live ==> Apart(size, b, c)
      modifies this`ptr, this`size, this`freep, this`list
      ensures Valid() && freep != 0 && SameLive(old(size), size, live)
      ensures forall a: nat :: IsFree(size, list, a) <==> IsFree(old(size), old(list), a) || InBlock(old(size), b, a)
      ensures b in old(size) && exists i :: 0 <= i < |list| && list[i] in size && old(size)[b] <= size[list[i]]
    {
      hide Ordered, Linked, IsFree, Below, Clear, Freed, FreedSize, GiveSize, GivePtr, HeapOk, LiveBlock, Apart, SameLive;
      LiveIsClear(size, list, b, brk);
      ghost var j := BelowExists(size, list, b);
      ghost var l, size0, ptr0 := list, size, ptr;
      var p := Search(b, j);
      GiveFacts(ptr, size, list, j, b, live, brk);
      GiveIs(ptr0, size0, l, j, b);
      Splice(p, b);
      freep := p;
      list := Freed(size0, l, j, b);
    }

    /** free(ap): ap is one header past the block. */
    method Free(ap: nat)
      requires Valid() && 0 < ap && ap - 1 in live
      modifies this
      ensures Valid() && live == old(live) - {ap - 1} && SameLive(old(size), size, live) && brk == old(brk)
      ensures forall a: nat :: IsFree(size, list, a) <==> IsFree(old(size), old(list), a) || InBlock(old(size), ap - 1, a)
    {
      var b := ap - 1;
      assert LiveBlock(size, list, b, brk);
      live := live - {b};
      Give(b);
    }

    /** morecore.  core is what sbrk returns: memory above all there was, or nothing. */
    method Morecore(nunits: nat, core: Option<nat>) returns (ok: bool)
      requires Valid() && freep != 0 && 0 < nunits && (core.Some? ==> brk <= core.value)
      modifies this`ptr, this`size, this`freep, this`list, this`brk
      ensures Valid() && freep != 0 && (ok <==> core.Some?) && SameLive(old(size), size, live)
      ensures !ok ==> unchanged(this)
      ensures ok ==> exists i :: 0 <= i < |list| && list[i] in size && nunits <= size[list[i]]
      ensures ok ==> forall a: nat :: IsFree(size, list, a) <==>
                IsFree(old(size), old(list), a) || core.value <= a < core.value + More(nunits)
    {
      hide Ordered, Linked, IsFree, HeapOk, LiveBlock, Apart, SameLive;
      if core == None {
        SameLiveRefl(size, live);
        return false;
      }
      var nu := More(nunits);
      var hp := core.value;
      CoreIsClear(ptr, size, list, live, brk, hp, nu);
      ghost var size0 := size;
      size := size[hp := nu];
      brk := hp + nu;
      ghost var size1 := size;
      Give(hp);
      SameLiveTrans(size0, size1, size, live);
      ok := true;
    }

    /** malloc's first call makes the list of base alone. */
    method Begin()
      requires Valid()
      modifies this`ptr, this`size, this`freep, this`list
      ensures Valid() && freep != 0 && SameLive(old(size), size, live)
      ensures forall a: nat :: IsFree(size, list, a) <==> IsFree(old(size), old(list), a)
      ensures old(freep) != 0 ==> size == old(size) && list == old(list)
    {
      if freep == 0 {
        ptr, size, freep := ptr[BASE := BASE], size[BASE := 0], BASE;
        list := [BASE];
      }
    }

    /** malloc takes block p, or cuts its tail off. */
    method TakeFrom(prevp: nat, p: nat, nunits: nat, ghost k: nat) returns (q: nat)
      requires Valid() && freep != 0 && 0 < nunits && 0 < k < |list| && p == list[k] && prevp == list[k - 1]
      requires p in size && nunits <= size[p]
      modifies this`ptr, this`size, this`freep, this`list, this`live
      ensures Valid() && freep != 0 && q !in old(live) && live == old(live) + {q} && SameLive(old(size), size, old(live))
      ensures q in size && size[q] == nunits
      ensures forall a: nat :: IsFree(size, list, a) <==> IsFree(old(size), old(list), a) && !InBlock(size, q, a)
      ensures forall a: nat :: InBlock(size, q, a) ==> IsFree(old(size), old(list), a)
    {
      hide Ordered, Linked, IsFree, HeapOk, SameLive, Dropped;
      ghost var l, size0, ptr0 := list, size, ptr;
      TakeFacts(ptr, size, list, live, brk, k, nunits);
      if size[p] == nunits {
        ptr := ptr[prevp := ptr[p]];
        q := p;
        list := Dropped(l, k);
      } else {
        size := size[p := size[p] - nunits];
        q := p + size[p];
        size := size[q := nunits];
      }
      live := live + {q};
      freep := prevp;
    }

    /** malloc.  core is what sbrk would return.  A block has the units asked for; morecore is called at most once, and
        only if no block of the list is large enough. */
    method Malloc(nbytes: nat, core: Option<nat>) returns (r: Option<nat>, ghost grew: bool)
      requires Valid() && nbytes < WRAP && (core.Some? ==> brk <= core.value)
      modifies this
      ensures Valid() && freep != 0 && SameLive(old(size), size, old(live))
      ensures r.None? ==> live == old(live) && core.None? && forall i :: 0 <= i < |list| ==> list[i] in size && size[list[i]] < Units(nbytes)
      ensures r.Some? ==>
                && 0 < r.value && r.value - 1 !in old(live) && live == old(live) + {r.value - 1}
                && r.value - 1 in size && size[r.value - 1] == Units(nbytes)
      ensures r.Some? ==> forall a: nat :: IsFree(size, list, a) <==>
                && (IsFree(old(size), old(list), a) || (grew && core.Some? && core.value <= a < core.value + More(Units(nbytes))))
                && !InBlock(size, r.value - 1, a)
      ensures grew ==> core.Some? && forall i :: 0 <= i < |old(list)| && old(list)[i] in old(size) ==> old(size)[old(list)[i]] < Units(nbytes)
    {
      hide Ordered, Linked, IsFree, HeapOk, SameLive, Units;
      var nunits := Units(nbytes);
      ghost var size0, live0 := size, live;
      grew := false;
      Begin();
      ghost var size1 := size;
      var ok, prevp, p;
      ghost var k;
      ok, prevp, p, k := Scan(nunits);
      if !ok {
        ok := Morecore(nunits, core);
        if !ok { return None, false; }
        grew := true;
        SameLiveTrans(size0, size1, size, live);
        size1 := size;
        ok, prevp, p, k := Scan(nunits);
      }
      var q := TakeFrom(prevp, p, nunits, k);
      SameLiveTrans(size0, size1, size, live0);
      r := Some(q + 1);
    }

    /** malloc's walk: from the node after freep round to freep itself. */
    method Scan(nunits: nat) returns (ok: bool, prevp: nat, p: nat, ghost k: nat)
      requires Ordered(size, list) && Linked(ptr, list) && freep in list && 0 < nunits
      ensures ok ==> 0 < k < |list| && p == list[k] && prevp == list[k - 1] && p in size && nunits <= size[p]
      ensures !ok ==> forall i :: 0 <= i < |list| ==> list[i] in size && size[list[i]] < nunits
    {
      hide Small, Linked, Ahead;
      prevp := freep;
      ghost var f: nat :| f < |list| && list[f] == freep;
      LinkIs(ptr, list, f);
      p := ptr[prevp];
      k := Succ(list, f);
      ghost var n := |list|;
      SmallStart(size, list, f, nunits);
      while true
        invariant k < n && p == list[k] && prevp == list[Pred(n, k)] && Small(size, list, f, k, nunits)
        decreases Ahead(n, k, f)
      {
        if nunits <= size[p] {
          ok := true;
          return;
        }
        if p == freep {
          OrderedIncreases(size, list);
          SmallAll(size, list, f, nunits);
          ok := false;
          return;
        }
        LinkIs(ptr, list, k);
        SmallStep(size, list, f, k, nunits);
        prevp, p := p, ptr[p];
        k := Succ(list, k);
      }
    }
  }

  lemma TakeFacts(ptr: Words, size: Words, l: seq<nat>, live: set<nat>, brk: nat, k: nat, n: nat)
    requires Ordered(size, l) && Linked(ptr, l) && HeapOk(size, l, live, brk) && 0 < k < |l| && 0 < n
    requires l[k] in size && n <= size[l[k]]
    ensures l[k] in ptr && l[k - 1] != 0
    ensures size[l[k]] == n ==>
              && Linked(ptr[l[k - 1] := ptr[l[k]]], Dropped(l, k)) && Ordered(size, Dropped(l, k)) && l[k - 1] in Dropped(l, k)
              && Took(size, l, size, Dropped(l, k), live, brk, l[k], n)
    ensures n < size[l[k]] ==>
              var q := l[k] + size[l[k]] - n;
              var size2 := size[l[k] := size[l[k]] - n][q := n];
              Ordered(size2, l) && Took(size, l, size2, l, live, brk, q, n)
  {
    LinkIs(ptr, l, k);
    OrderedIncreases(size, l);
    Climbs(size, l, 0, k);
    if k != 1 { Climbs(size, l, 0, k - 1); }
    if size[l[k]] == n {
      DroppedLinks(ptr, l, k);
      DroppedOrdered(size, l, k);
      DroppedAt(l, k, k - 1);
      forall a: nat ensures IsFree(size, Dropped(l, k), a) <==> IsFree(size, l, a) && !(l[k] <= a < l[k] + n) {
        DroppedFree(size, l, k, a);
      }
      WholeTook(size, l, k, live, brk);
    } else {
      ShrunkOrdered(size, l, k, n);
      TailTook(size, l, k, live, brk, n);
    }
  }

  /** Block q of n units went from the free units to the live blocks. */
  ghost predicate Took(size: Words, l: seq<nat>, size2: Words, l2: seq<nat>, live: set<nat>, brk: nat, q: nat, n: nat) {
    && q !in live && HeapOk(size2, l2, live + {q}, brk) && SameLive(size, size2, live) && q in size2 && size2[q] == n
    && (forall a: nat :: IsFree(size2, l2, a) <==> IsFree(size, l, a) && !(q <= a < q + n))
    && forall a: nat :: q <= a < q + n ==> IsFree(size, l, a)
  }

  lemma BlockIsFree(size: Words, l: seq<nat>, k: nat, a: nat)
    requires k < |l| && InBlock(size, l[k], a)
    ensures IsFree(size, l, a)
  {
  }

  lemma WholeTook(size: Words, l: seq<nat>, k: nat, live: set<nat>, brk: nat)
    requires Ordered(size, l) && HeapOk(size, l, live, brk) && 0 < k < |l| && BASE < l[k]
    requires forall a: nat :: IsFree(size, Dropped(l, k), a) <==> IsFree(size, l, a) && !(l[k] <= a < l[k] + size[l[k]])
    ensures Took(size, l, size, Dropped(l, k), live, brk, l[k], size[l[k]])
  {
    forall a: nat | l[k] <= a < l[k] + size[l[k]] ensures IsFree(size, l, a) { BlockIsFree(size, l, k, a); }
    hide IsFree, Dropped, HeapOk;
    TakenKeeps(size, l, size, Dropped(l, k), live, brk, l[k], size[l[k]]);
  }

  lemma TailTook(size: Words, l: seq<nat>, k: nat, live: set<nat>, brk: nat, n: nat)
    requires Ordered(size, l) && HeapOk(size, l, live, brk) && 0 < k < |l| && BASE < l[k] && 0 < n < size[l[k]]
    ensures var q := l[k] + size[l[k]] - n;
            Took(size, l, size[l[k] := size[l[k]] - n][q := n], l, live, brk, q, n)
  {
    var q := l[k] + size[l[k]] - n;
    var size2 := size[l[k] := size[l[k]] - n][q := n];
    forall a: nat | q <= a < q + n ensures IsFree(size, l, a) { BlockIsFree(size, l, k, a); }
    forall a: nat ensures IsFree(size2, l, a) <==> IsFree(size, l, a) && !(q <= a < q + n) { ShrunkFree(size, l, k, n, a); }
    forall b | b in live ensures b != l[k] && b != q {
      assert LiveBlock(size, l, b, brk);
      assert InBlock(size, b, b);
      assert InBlock(size, l[k], l[k]);
    }
    hide IsFree;
    TakenKeeps(size, l, size2, l, live, brk, q, n);
  }

  function Pred(n: nat, k: nat): nat
    requires k < n
  {
    if k == 0 then n - 1 else k - 1
  }

  /** All nodes from f up to k, going round, are too small. */
  ghost predicate Small(size: Words, l: seq<nat>, f: nat, k: nat, u: nat)
    requires f < |l| && k < |l|
  {
    forall i :: 0 <= i < |l| && Ahead(|l|, k, f) < Ahead(|l|, i, f) ==> l[i] in size && size[l[i]] < u
  }

  lemma SmallStart(size: Words, l: seq<nat>, f: nat, u: nat)
    requires f < |l|
    ensures Small(size, l, f, Succ(l, f), u)
  {
  }

  lemma SmallStep(size: Words, l: seq<nat>, f: nat, k: nat, u: nat)
    requires f < |l| && k < |l| && Small(size, l, f, k, u) && k != f && l[k] in size && size[l[k]] < u
    ensures Small(size, l, f, Succ(l, k), u) && Ahead(|l|, Succ(l, k), f) < Ahead(|l|, k, f)
  {
  }

  lemma SmallAll(size: Words, l: seq<nat>, f: nat, u: nat)
    requires f < |l| && Small(size, l, f, f, u) && l[f] in size && size[l[f]] < u
    ensures forall i :: 0 <= i < |l| ==> l[i] in size && size[l[i]] < u
  {
  }

  function More(nunits: nat): nat { if nunits < NU_MIN then NU_MIN else nunits }

  /** The sizes and pointers free leaves, after node p with successor next. */
  function GiveSize(size: Words, p: nat, b: nat, next: nat): Words
    requires p in size && b in size && next in size
  {
    var n := if b + size[b] == next then size[b] + size[next] else size[b];
    if p + size[p] == b then size[b := n][p := size[p] + n] else size[b := n]
  }

  function GivePtr(ptr: Words, size: Words, p: nat, b: nat): Words
    requires p in ptr && p in size && b in size && (b + size[b] == ptr[p] ==> ptr[p] in ptr)
  {
    var ptr1 := NewPtr(ptr, size, p, b);
    ptr1[p := if p + size[p] == b then ptr1[b] else b]
  }

  /** What free finds at the node where its search stops. */
  lemma GiveFacts(ptr: Words, size: Words, l: seq<nat>, j: nat, b: nat, live: set<nat>, brk: nat)
    requires Ordered(size, l) && Linked(ptr, l) && Below(l, j, b) && Clear(size, l, b)
    requires HeapOk(size, l, live, brk) && b !in live && LiveBlock(size, l, b, brk)
    requires forall c :: c in live ==> Apart(size, b, c)
    ensures l[j] in ptr && l[j] in size && b in size && ptr[l[j]] in ptr && ptr[l[j]] in size && l[j] != b
    ensures l[j] in Freed(size, l, j, b) && BASE <= l[j]
    ensures HeapOk(FreedSize(size, l, j, b), Freed(size, l, j, b), live, brk)
    ensures SameLive(size, FreedSize(size, l, j, b), live)
  {
    LinkIs(ptr, l, j);
    LinkIs(ptr, l, Succ(l, j));
    FreedHas(size, l, j, b);
    FreedLive(size, l, j, b, live, brk);
    if j != 0 { Climbs(size, l, 0, j); }
    forall a: nat | IsFree(FreedSize(size, l, j, b), Freed(size, l, j, b), a)
      ensures IsFree(size, l, a) || b <= a < b + size[b]
    {
      FreedIs(size, l, j, b, a);
    }
    hide Freed, FreedSize, IsFree;
    forall c, a: nat | c in live && InBlock(size, c, a) ensures !(b <= a < b + size[b]) { assert Apart(size, b, c); }
    HeapKeeps(size, l, FreedSize(size, l, j, b), Freed(size, l, j, b), live, brk, brk, b, b + size[b]);
  }

  lemma GiveSizeIs(ptr: Words, size: Words, l: seq<nat>, j: nat, b: nat)
    requires Ordered(size, l) && Linked(ptr, l) && Below(l, j, b) && Clear(size, l, b)
    ensures l[j] in ptr && l[j] in size && ptr[l[j]] in ptr && ptr[l[j]] in size
    ensures FreedSize(size, l, j, b) == GiveSize(size, l[j], b, ptr[l[j]])
  {
    NextIs(ptr, size, l, j, b);
    GiveSizeEq(size, l, j, b, ptr[l[j]]);
  }

  lemma GiveSizeEq(size: Words, l: seq<nat>, j: nat, b: nat, next: nat)
    requires b in size && j < |l| && (forall i :: 0 <= i < |l| ==> l[i] in size) && next in size
    requires b + size[b] == next <==> j + 1 < |l| && b + size[b] == l[j + 1]
    ensures FreedSize(size, l, j, b) == GiveSize(size, l[j], b, next)
  {
  }

  lemma GiveIs(ptr: Words, size: Words, l: seq<nat>, j: nat, b: nat)
    requires Ordered(size, l) && Linked(ptr, l) && Below(l, j, b) && Clear(size, l, b)
    ensures l[j] in ptr && l[j] in size && ptr[l[j]] in ptr && ptr[l[j]] in size
    ensures FreedSize(size, l, j, b) == GiveSize(size, l[j], b, ptr[l[j]])
    ensures Linked(GivePtr(ptr, size, l[j], b), Freed(size, l, j, b))
    ensures var m, s := Freed(size, l, j, b), FreedSize(size, l, j, b);
            && Ordered(s, m) && (forall a: nat :: IsFree(s, m, a) <==> IsFree(size, l, a) || InBlock(size, b, a))
            && exists i :: 0 <= i < |m| && m[i] in s && size[b] <= s[m[i]]
  {
    GiveSizeIs(ptr, size, l, j, b);
    assert forall i :: 0 <= i < |l| ==> l[i] in size;
    hide Ordered, Linked, Below, Freed, FreedSize, IsFree, NewPtr;
    forall a: nat ensures IsFree(FreedSize(size, l, j, b), Freed(size, l, j, b), a) <==> IsFree(size, l, a) || InBlock(size, b, a) {
      FreedIs(size, l, j, b, a);
    }
    FreedIs(size, l, j, b, 0);
    FreedHas(size, l, j, b);
    FreedLinks(ptr, size, l, j, b);
  }

  /** Memory that sbrk has just returned belongs to nobody. */
  lemma CoreIsClear(ptr: Words, size: Words, l: seq<nat>, live: set<nat>, brk: nat, hp: nat, nu: nat)
    requires Ordered(size, l) && Linked(ptr, l) && HeapOk(size, l, live, brk) && brk <= hp && 0 < nu
    ensures var size2 := size[hp := nu];
            && hp !in live && Ordered(size2, l) && HeapOk(size2, l, live, hp + nu) && LiveBlock(size2, l, hp, hp + nu)
            && (forall a: nat :: IsFree(size2, l, a) <==> IsFree(size, l, a))
            && (forall c :: c in live ==> Apart(size2, hp, c)) && SameLive(size, size2, live)
  {
    var size2 := size[hp := nu];
    forall i | 0 <= i < |l| ensures l[i] < brk {
      if i != 0 { assert InBlock(size, l[i], l[i]); assert IsFree(size, l, l[i]); }
    }
    forall a: nat ensures IsFree(size2, l, a) <==> IsFree(size, l, a) { SizeFrame(size, size2, l, a); }
    SizeFrame(size, size2, l, 0);
    hide IsFree;
    forall c | c in live ensures c < brk && c != hp { assert LiveBlock(size, l, c, brk); }
    HeapKeeps(size, l, size2, l, live, brk, hp + nu, 0, 0);
    forall c | c in live ensures Apart(size2, hp, c) { assert LiveBlock(size, l, c, brk); }
  }
}
