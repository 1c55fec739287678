/** How many directory entries name an inode. */
module Counting {
  import opened FsDirs

  type Entries = map<Name, nat>

  function Sum(xs: seq<int>): int {
    if xs == [] then 0 else xs[0] + Sum(xs[1..])
  }

  lemma {:induction false} SumUpdate(xs: seq<int>, p: nat, v: int)
    requires p < |xs|
    ensures Sum(xs[p := v]) == Sum(xs) - xs[p] + v
  {
    if p == 0 {
      assert xs[p := v][1..] == xs[1..];
    } else {
      assert xs[p := v][1..] == xs[1..][p - 1 := v];
      SumUpdate(xs[1..], p - 1, v);
    }
  }

  lemma {:induction false} SumOne(xs: seq<int>, p: nat)
    requires p < |xs| && forall q :: 0 <= q < |xs| && q != p ==> xs[q] == 0
    ensures Sum(xs) == xs[p]
  {
    if p == 0 { SumZero(xs[1..]); } else {
      assert forall q :: 0 <= q < |xs| - 1 ==> xs[1..][q] == xs[q + 1];
      SumOne(xs[1..], p - 1);
    }
  }

  lemma {:induction false} SumZero(xs: seq<int>)
    requires forall q :: 0 <= q < |xs| ==> xs[q] == 0
    ensures Sum(xs) == 0
  {
    if xs != [] { SumZero(xs[1..]); }
  }

  lemma {:induction false} SumAtLeast(xs: seq<int>, p: nat)
    requires p < |xs| && forall q :: 0 <= q < |xs| ==> 0 <= xs[q]
    ensures xs[p] <= Sum(xs) && forall q :: 0 <= q < |xs| && q != p ==> xs[p] + xs[q] <= Sum(xs)
  {
    SumUpdate(xs, p, 0);
    var ys := xs[p := 0];
    forall q | 0 <= q < |xs| && q != p ensures xs[p] + xs[q] <= Sum(xs) {
      SumUpdate(ys, q, 0);
      SumNonNeg(ys[q := 0]);
    }
    SumNonNeg(ys);
  }

  lemma {:induction false} SumNonNeg(xs: seq<int>)
    requires forall q :: 0 <= q < |xs| ==> 0 <= xs[q]
    ensures 0 <= Sum(xs)
  {
    if xs != [] { SumNonNeg(xs[1..]); }
  }

  /** Entries of m that name i, "." not counted. */
  function NamesFor(m: Entries, i: nat): set<Name> { set nm | nm in m && nm != DOT && m[nm] == i }

  function CountIn(m: Entries, i: nat): nat { |NamesFor(m, i)| }

  /** Directory entries that name i. */
  function Named(dirs: seq<Entries>, i: nat): int {
    Sum(seq(|dirs|, d requires 0 <= d < |dirs| => CountIn(dirs[d], i)))
  }

  lemma CountPut(m: Entries, nm: Name, j: nat, i: nat)
    requires nm !in m
    ensures CountIn(m[nm := j], i) == CountIn(m, i) + if nm != DOT && j == i then 1 else 0
  {
    var a, b := NamesFor(m, i), NamesFor(m[nm := j], i);
    if nm != DOT && j == i { assert b == a + {nm}; } else { assert b == a; }
  }

  lemma CountDrop(m: Entries, nm: Name, i: nat)
    requires nm in m
    ensures CountIn(m - {nm}, i) == CountIn(m, i) - if nm != DOT && m[nm] == i then 1 else 0
  {
    var a, b := NamesFor(m, i), NamesFor(m - {nm}, i);
    if nm != DOT && m[nm] == i { assert a == b + {nm}; } else { assert b == a; }
  }

  lemma NamedUpdate(dirs: seq<Entries>, d: nat, m: Entries, i: nat)
    requires d < |dirs|
    ensures Named(dirs[d := m], i) == Named(dirs, i) - CountIn(dirs[d], i) + CountIn(m, i)
  {
    var xs := seq(|dirs|, e requires 0 <= e < |dirs| => CountIn(dirs[e], i));
    var t := dirs[d := m];
    assert seq(|t|, e requires 0 <= e < |t| => CountIn(t[e], i)) == xs[d := CountIn(m, i)];
    SumUpdate(xs, d, CountIn(m, i));
  }

  lemma NamedBound(dirs: seq<Entries>, d: nat, i: nat)
    requires d < |dirs|
    ensures 0 <= CountIn(dirs[d], i) <= Named(dirs, i)
  {
    SumAtLeast(seq(|dirs|, e requires 0 <= e < |dirs| => CountIn(dirs[e], i)), d);
  }
}
