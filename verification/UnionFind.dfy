// Disjoint sets as a forest in two arrays: union by rank, path compression.

module Forests {
  /** Every parent is a position, and ranks strictly rise towards the roots. */
  predicate Forest(p: seq<nat>, r: seq<nat>) {
    |p| == |r| && forall i | 0 <= i < |p| :: p[i] < |p| && (p[i] != i ==> r[i] < r[p[i]])
  }

  /** The largest rank. */
  function Height(r: seq<nat>): (h: nat)
    ensures forall i | 0 <= i < |r| :: r[i] <= h
  {
    if r == [] then 0
    else
      var h := Height(r[..|r| - 1]);
      if r[|r| - 1] > h then r[|r| - 1] else h
  }

  /** Where following parents from `x` ends. */
  function Root(p: seq<nat>, r: seq<nat>, x: nat): (root: nat)
    requires Forest(p, r) && x < |p|
    ensures root < |p| && p[root] == root && (x == root || r[x] < r[root])
    decreases Height(r) - r[x]
  {
    if p[x] == x then x else Root(p, r, p[x])
  }

  /** The parents `Find` follows from `x`, each by one recursive call. */
  function Depth(p: seq<nat>, r: seq<nat>, x: nat): nat
    requires Forest(p, r) && x < |p|
    decreases Height(r) - r[x]
  {
    if p[x] == x then 0 else 1 + Depth(p, r, p[x])
  }

  function Class(p: seq<nat>, r: seq<nat>, root: nat): set<nat>
    requires Forest(p, r)
  {
    set y | 0 <= y < |p| && Root(p, r, y) == root
  }

  function Pow2(n: nat): nat {
    if n == 0 then 1 else 2 * Pow2(n - 1)
  }

  /** A root of rank k leads at least 2^k elements. */
  predicate Sized(p: seq<nat>, r: seq<nat>)
    requires Forest(p, r)
  {
    forall x | 0 <= x < |p| && p[x] == x :: Pow2(r[x]) <= |Class(p, r, x)|
  }

  // ----- Path compression

  lemma CompressForest(p: seq<nat>, r: seq<nat>, x: nat)
    requires Forest(p, r) && x < |p|
    ensures Forest(p[x := Root(p, r, x)], r)
  {
  }

  /** Hanging an element directly under its root moves no element to another
      class. */
  lemma {:induction false} CompressRoot(p: seq<nat>, r: seq<nat>, x: nat, y: nat)
    requires Forest(p, r) && x < |p| && y < |p| && Forest(p[x := Root(p, r, x)], r)
    ensures Root(p[x := Root(p, r, x)], r, y) == Root(p, r, y)
    decreases Height(r) - r[y]
  {
    if y != x && p[y] != y { CompressRoot(p, r, x, p[y]); }
  }

  lemma CompressSized(p: seq<nat>, r: seq<nat>, x: nat)
    requires Forest(p, r) && Sized(p, r) && x < |p|
    ensures var q := p[x := Root(p, r, x)]; Forest(q, r) && Sized(q, r)
  {
    CompressForest(p, r, x);
    var q := p[x := Root(p, r, x)];
    forall k | 0 <= k < |q| && q[k] == k ensures Pow2(r[k]) <= |Class(q, r, k)| {
      forall y | 0 <= y < |p| ensures Root(q, r, y) == Root(p, r, y) { CompressRoot(p, r, x, y); }
      assert Class(q, r, k) == Class(p, r, k);
      assert p[k] == k;
    }
  }

  // ----- Union by rank

  /** Rank of `b` once the root `a` hangs under it. */
  function Ranked(r: seq<nat>, a: nat, b: nat): seq<nat>
    requires a < |r| && b < |r|
  {
    if r[a] == r[b] then r[b := r[b] + 1] else r
  }

  lemma LinkForest(p: seq<nat>, r: seq<nat>, a: nat, b: nat)
    requires Forest(p, r) && a < |p| && b < |p| && a != b && p[a] == a && p[b] == b && r[a] <= r[b]
    ensures Forest(p[a := b], Ranked(r, a, b))
  {
  }

  lemma {:induction false} LinkRoot(p: seq<nat>, r: seq<nat>, a: nat, b: nat, y: nat)
    requires Forest(p, r) && a < |p| && b < |p| && a != b && p[a] == a && p[b] == b && r[a] <= r[b] && y < |p|
    requires Forest(p[a := b], Ranked(r, a, b))
    ensures Root(p[a := b], Ranked(r, a, b), y) == if Root(p, r, y) == a then b else Root(p, r, y)
    decreases Height(r) - r[y]
  {
    if p[y] != y { LinkRoot(p, r, a, b, p[y]); }
  }

  lemma LinkSized(p: seq<nat>, r: seq<nat>, a: nat, b: nat)
    requires Forest(p, r) && a < |p| && b < |p| && a != b && p[a] == a && p[b] == b && r[a] <= r[b]
    requires Sized(p, r)
    ensures var q, s := p[a := b], Ranked(r, a, b); Forest(q, s) && Sized(q, s)
  {
    hide Root, Class;
    LinkForest(p, r, a, b);
    var q, s := p[a := b], Ranked(r, a, b);
    forall k | 0 <= k < |q| && q[k] == k ensures Pow2(s[k]) <= |Class(q, s, k)| {
      LinkClass(p, r, a, b, k);
      LinkClass(p, r, a, b, b);
      assert p[k] == k;
    }
  }

  lemma LinkClass(p: seq<nat>, r: seq<nat>, a: nat, b: nat, k: nat)
    requires Forest(p, r) && a < |p| && b < |p| && a != b && p[a] == a && p[b] == b && r[a] <= r[b]
    requires Forest(p[a := b], Ranked(r, a, b)) && k < |p| && k != a
    ensures |Class(p[a := b], Ranked(r, a, b), k)| ==
            |Class(p, r, k)| + if k == b then |Class(p, r, a)| else 0
  {
    var q, s := p[a := b], Ranked(r, a, b);
    forall y | 0 <= y < |p| ensures Root(q, s, y) == if Root(p, r, y) == a then b else Root(p, r, y) {
      LinkRoot(p, r, a, b, y);
    }
    hide Forest, Root, Ranked;
    if k == b {
      assert Class(q, s, b) == Class(p, r, a) + Class(p, r, b);
      assert Class(p, r, a) !! Class(p, r, b);
    } else {
      assert Class(q, s, k) == Class(p, r, k);
    }
  }

  // ----- What the operations do to the roots

  predicate SameRoots(p: seq<nat>, q: seq<nat>, r: seq<nat>)
    requires Forest(p, r)
  {
    |q| == |p| && Forest(q, r) && forall y | 0 <= y < |p| :: Root(q, r, y) == Root(p, r, y)
  }

  /** `q`, `s` is `p`, `r` with the classes of `x` and `y` made one, led by the
      root of higher rank (of `x`'s, on a tie). */
  predicate Merged(p: seq<nat>, r: seq<nat>, q: seq<nat>, s: seq<nat>, x: nat, y: nat)
    requires Forest(p, r) && x < |p| && y < |p|
  {
    var rx, ry := Root(p, r, x), Root(p, r, y);
    var winner := if r[rx] < r[ry] then ry else rx;
    && |q| == |p| && Forest(q, s)
    && s == (if rx != ry && r[rx] == r[ry] then r[rx := r[rx] + 1] else r)
    && forall z | 0 <= z < |p| :: Root(q, s, z) == if Root(p, r, z) in {rx, ry} then winner else Root(p, r, z)
  }

  lemma RankedIs(r: seq<nat>, a: nat, b: nat)
    requires a < |r| && b < |r|
    ensures Ranked(r, a, b) == if r[a] == r[b] then r[b := r[b] + 1] else r
  {
  }

  /** Linking two distinct roots. */
  lemma Linked(p0: seq<nat>, p: seq<nat>, r: seq<nat>, x: nat, y: nat)
    requires Forest(p0, r) && x < |p0| && y < |p0| && SameRoots(p0, p, r) && Sized(p, r)
    requires Root(p0, r, x) != Root(p0, r, y)
    ensures var rx, ry := Root(p0, r, x), Root(p0, r, y);
      var a, b := if r[rx] < r[ry] then rx else ry, if r[rx] < r[ry] then ry else rx;
      && Forest(p[a := b], Ranked(r, a, b)) && Sized(p[a := b], Ranked(r, a, b))
      && Merged(p0, r, p[a := b], Ranked(r, a, b), x, y)
  {
    hide Sized, Class, Root, Ranked, Merged, Forest;
    Roots(p0, r, x);
    Roots(p0, r, y);
    var rx, ry := Root(p0, r, x), Root(p0, r, y);
    var a, b := if r[rx] < r[ry] then rx else ry, if r[rx] < r[ry] then ry else rx;
    Roots(p, r, x);
    Roots(p, r, y);
    LinkSized(p, r, a, b);
    LinkMerges(p0, p, r, x, y, a, b);
  }

  lemma Roots(p: seq<nat>, r: seq<nat>, x: nat)
    requires Forest(p, r) && x < |p|
    ensures Root(p, r, x) < |p| == |r| && p[Root(p, r, x)] == Root(p, r, x)
  {
    hide Root;
  }

  lemma LinkMerges(p0: seq<nat>, p: seq<nat>, r: seq<nat>, x: nat, y: nat, a: nat, b: nat)
    requires Forest(p0, r) && x < |p0| && y < |p0| && SameRoots(p0, p, r) && a != b
    requires a < |p| && b < |p| && p[a] == a && p[b] == b && r[a] <= r[b] && Forest(p[a := b], Ranked(r, a, b))
    requires var rx, ry := Root(p0, r, x), Root(p0, r, y);
      rx != ry && if r[rx] < r[ry] then a == rx && b == ry else a == ry && b == rx
    ensures Merged(p0, r, p[a := b], Ranked(r, a, b), x, y)
  {
    hide Root, Ranked;
    RankedIs(r, a, b);
    forall z | 0 <= z < |p|
      ensures Root(p[a := b], Ranked(r, a, b), z) == if Root(p, r, z) == a then b else Root(p, r, z)
    {
      LinkRoot(p, r, a, b, z);
    }
    hide Forest;
  }

  // ----- Depth

  lemma {:induction false} DepthWithinRank(p: seq<nat>, r: seq<nat>, x: nat)
    requires Forest(p, r) && x < |p|
    ensures r[x] + Depth(p, r, x) <= r[Root(p, r, x)]
    decreases Height(r) - r[x]
  {
    if p[x] != x { DepthWithinRank(p, r, p[x]); }
  }

  lemma {:induction false} Pow2Monotone(a: nat, b: nat)
    requires a <= b
    ensures Pow2(a) <= Pow2(b)
    decreases b
  {
    if a < b { Pow2Monotone(a, b - 1); }
  }

  lemma {:induction false} CountBelow(s: set<nat>, n: nat)
    requires forall x | x in s :: x < n
    ensures |s| <= n
  {
    if n == 0 {
      assert s == {};
    } else {
      CountBelow(s - {n - 1}, n - 1);
    }
  }

  /** No search recurses deeper than log2 of the number of elements. */
  lemma DepthLogarithmic(p: seq<nat>, r: seq<nat>, x: nat)
    requires Forest(p, r) && Sized(p, r) && x < |p|
    ensures Pow2(Depth(p, r, x)) <= |p|
  {
    var root := Root(p, r, x);
    DepthWithinRank(p, r, x);
    Pow2Monotone(Depth(p, r, x), r[root]);
    CountBelow(Class(p, r, root), |p|);
  }
}

module UnionFinds {
  import opened Forests

  class UnionFind {
    const parent: array<nat>
    const rank: array<nat>

    ghost predicate Valid()
      reads parent, rank
    {
      parent != rank && parent.Length == rank.Length && Forest(parent[..], rank[..]) && Sized(parent[..], rank[..])
    }

    ghost function RootAt(x: nat): nat
      requires Valid() && x < parent.Length
      reads parent, rank
    {
      Root(parent[..], rank[..], x)
    }

    constructor (n: nat)
      ensures Valid() && fresh(parent) && fresh(rank) && parent.Length == n
      ensures forall x | 0 <= x < n :: RootAt(x) == x && rank[x] == 0
    {
      parent := new nat[n](i => i);
      rank := new nat[n](_ => 0);
      new;
      forall x | 0 <= x < n ensures Pow2(rank[x]) <= |Class(parent[..], rank[..], x)| {
        assert Class(parent[..], rank[..], x) == {x};
      }
    }

    /** The root of `x`; every element keeps its root, and each one's parent is
        what it was or its root. */
    method Find(x: nat) returns (root: nat)
      requires Valid() && x < parent.Length
      modifies parent
      ensures Valid() && root == old(RootAt(x)) && parent[x] == root
      ensures SameRoots(old(parent[..]), parent[..], rank[..])
      ensures forall y | 0 <= y < parent.Length :: parent[y] == old(parent[y]) || parent[y] == old(RootAt(y))
      decreases Height(rank[..]) - rank[x]
    {
      if parent[x] != x {
        var top := Find(parent[x]);
        CompressSized(parent[..], rank[..], x);
        forall y | 0 <= y < parent.Length
          ensures Root(parent[..][x := top], rank[..], y) == Root(parent[..], rank[..], y)
        {
          CompressRoot(parent[..], rank[..], x, y);
        }
        ghost var q := parent[..][x := top];
        parent[x] := top;
        assert parent[..] == q;
      }
      root := parent[x];
    }

    method Union(x: nat, y: nat)
      requires Valid() && x < parent.Length && y < parent.Length
      modifies parent, rank
      ensures Valid()
      ensures Merged(old(parent[..]), old(rank[..]), parent[..], rank[..], x, y)
    {
      hide Forest, Sized, Root;
      ghost var p0 := parent[..];
      var rx := Find(x);
      var ry := Find(y);
      if rx == ry { return; }
      ghost var p, r := parent[..], rank[..];
      Linked(p0, p, r, x, y);
      hide Merged;
      if rank[rx] < rank[ry] {
        parent[rx] := ry;
        assert parent[..] == p[rx := ry] && rank[..] == Ranked(r, rx, ry);
      } else if rank[rx] > rank[ry] {
        parent[ry] := rx;
        assert parent[..] == p[ry := rx] && rank[..] == Ranked(r, ry, rx);
      } else {
        parent[ry] := rx;
        rank[rx] := rank[rx] + 1;
        assert parent[..] == p[ry := rx] && rank[..] == Ranked(r, ry, rx);
      }
    }
  }
}
