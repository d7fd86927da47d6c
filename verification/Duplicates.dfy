// Grouping near-duplicates: the components of the graph whose edges are the
// duplicate pairs.

module Duplicates {
  import opened Forests
  import opened UnionFinds

  datatype Pair = Pair(hashA: string, hashB: string, similarity: real)

  // ----- What a group is

  predicate Joined(pairs: seq<Pair>, x: string, y: string) {
    exists k | 0 <= k < |pairs| ::
      (pairs[k].hashA == x && pairs[k].hashB == y) || (pairs[k].hashA == y && pairs[k].hashB == x)
  }

  /** `chain` leads from `x` to `y` through known hashes, each joined to the
      next by a pair. */
  predicate IsChain(pairs: seq<Pair>, all: seq<string>, chain: seq<string>, x: string, y: string) {
    && chain != [] && chain[0] == x && chain[|chain| - 1] == y
    && (forall h | h in chain :: h in all)
    && forall i | 0 <= i < |chain| - 1 :: Joined(pairs, chain[i], chain[i + 1])
  }

  ghost predicate Chained(pairs: seq<Pair>, all: seq<string>, x: string, y: string) {
    exists chain :: IsChain(pairs, all, chain, x, y)
  }

  predicate Together(groups: seq<seq<string>>, x: string, y: string) {
    exists k | 0 <= k < |groups| :: x in groups[k] && y in groups[k]
  }

  predicate NoRepeats(g: seq<string>) {
    forall i, j | 0 <= i < j < |g| :: g[i] != g[j]
  }

  predicate Disjoint(groups: seq<seq<string>>) {
    forall k, l, h | 0 <= k < l < |groups| && h in groups[k] :: h !in groups[l]
  }

  predicate ProperGroup(g: seq<string>, all: seq<string>) {
    |g| >= 2 && NoRepeats(g) && forall h | h in g :: h in all
  }

  /** `groups` are exactly the components of two or more hashes. */
  ghost predicate Components(groups: seq<seq<string>>, pairs: seq<Pair>, all: seq<string>) {
    && (forall g | g in groups :: ProperGroup(g, all))
    && Disjoint(groups)
    && forall x, y | x in all && y in all && x != y :: Together(groups, x, y) <==> Chained(pairs, all, x, y)
  }

  // ----- Chains

  lemma ChainSelf(pairs: seq<Pair>, all: seq<string>, x: string)
    requires x in all
    ensures Chained(pairs, all, x, x)
  {
    assert IsChain(pairs, all, [x], x, x);
  }

  lemma ChainTurned(pairs: seq<Pair>, all: seq<string>, x: string, y: string)
    requires Chained(pairs, all, x, y)
    ensures Chained(pairs, all, y, x)
  {
    var c :| IsChain(pairs, all, c, x, y);
    var n := |c|;
    var d := seq(n, i requires 0 <= i < n => c[n - 1 - i]);
    forall i | 0 <= i < n - 1 ensures Joined(pairs, d[i], d[i + 1]) {
      assert Joined(pairs, c[n - 2 - i], c[n - 2 - i + 1]);
    }
    assert IsChain(pairs, all, d, y, x);
  }

  lemma ChainJoined(pairs: seq<Pair>, all: seq<string>, x: string, y: string, z: string)
    requires Chained(pairs, all, x, y) && Chained(pairs, all, y, z)
    ensures Chained(pairs, all, x, z)
  {
    var c :| IsChain(pairs, all, c, x, y);
    var d :| IsChain(pairs, all, d, y, z);
    var e := c + d[1..];
    forall i | 0 <= i < |e| - 1 ensures Joined(pairs, e[i], e[i + 1]) {
      if i < |c| - 1 {
        assert Joined(pairs, c[i], c[i + 1]);
      } else {
        assert Joined(pairs, d[i - (|c| - 1)], d[i - (|c| - 1) + 1]);
      }
    }
    assert IsChain(pairs, all, e, x, z);
  }

  lemma JoinedGrows(pairs: seq<Pair>, e: Pair, x: string, y: string)
    ensures Joined(pairs + [e], x, y) <==>
            Joined(pairs, x, y) || (x == e.hashA && y == e.hashB) || (x == e.hashB && y == e.hashA)
  {
    var more := pairs + [e];
    assert more[|pairs|] == e;
    if Joined(pairs, x, y) {
      var k :| 0 <= k < |pairs|
        && ((pairs[k].hashA == x && pairs[k].hashB == y) || (pairs[k].hashA == y && pairs[k].hashB == x));
      assert more[k] == pairs[k];
    }
  }

  lemma ChainGrows(pairs: seq<Pair>, e: Pair, all: seq<string>, x: string, y: string)
    requires Chained(pairs, all, x, y)
    ensures Chained(pairs + [e], all, x, y)
  {
    var c :| IsChain(pairs, all, c, x, y);
    forall i | 0 <= i < |c| - 1 ensures Joined(pairs + [e], c[i], c[i + 1]) {
      JoinedGrows(pairs, e, c[i], c[i + 1]);
    }
    assert IsChain(pairs + [e], all, c, x, y);
  }

  /** `x` and `y` are chained, or the pair `e` bridges their components. */
  ghost predicate Bridged(pairs: seq<Pair>, e: Pair, all: seq<string>, x: string, y: string) {
    || Chained(pairs, all, x, y)
    || (Chained(pairs, all, x, e.hashA) && Chained(pairs, all, e.hashB, y))
    || (Chained(pairs, all, x, e.hashB) && Chained(pairs, all, e.hashA, y))
  }

  lemma ChainEnds(pairs: seq<Pair>, all: seq<string>, x: string, y: string)
    requires Chained(pairs, all, x, y)
    ensures x in all && y in all
  {
  }

  lemma {:induction false} ChainSplits(pairs: seq<Pair>, e: Pair, all: seq<string>, c: seq<string>,
                                       x: string, y: string)
    requires IsChain(pairs + [e], all, c, x, y)
    ensures Bridged(pairs, e, all, x, y)
    decreases |c|
  {
    ChainSelf(pairs, all, y);
    if |c| > 1 {
      var d := c[..|c| - 1];
      var z := d[|d| - 1];
      forall i | 0 <= i < |d| - 1 ensures Joined(pairs + [e], d[i], d[i + 1]) {
        assert Joined(pairs + [e], c[i], c[i + 1]);
      }
      assert IsChain(pairs + [e], all, d, x, z);
      ChainSplits(pairs, e, all, d, x, z);
      assert Joined(pairs + [e], c[|c| - 2], c[|c| - 2 + 1]);
      LastLink(pairs, e, all, x, z, y);
    }
  }

  lemma LastLink(pairs: seq<Pair>, e: Pair, all: seq<string>, x: string, z: string, y: string)
    requires Bridged(pairs, e, all, x, z) && Joined(pairs + [e], z, y) && z in all && y in all
    ensures Bridged(pairs, e, all, x, y)
  {
    JoinedGrows(pairs, e, z, y);
    ChainSelf(pairs, all, y);
    if Joined(pairs, z, y) {
      assert IsChain(pairs, all, [z, y], z, y);
      hide Chained;
      if Chained(pairs, all, x, z) { ChainJoined(pairs, all, x, z, y); }
      if Chained(pairs, all, e.hashA, z) { ChainJoined(pairs, all, e.hashA, z, y); }
      if Chained(pairs, all, e.hashB, z) { ChainJoined(pairs, all, e.hashB, z, y); }
    }
  }

  /** One more pair joins exactly the components of its two hashes. */
  lemma OneMorePair(pairs: seq<Pair>, e: Pair, all: seq<string>, x: string, y: string)
    ensures Chained(pairs + [e], all, x, y) <==> Bridged(pairs, e, all, x, y)
  {
    if Chained(pairs + [e], all, x, y) {
      var c :| IsChain(pairs + [e], all, c, x, y);
      ChainSplits(pairs, e, all, c, x, y);
    }
    if Bridged(pairs, e, all, x, y) { BridgeChained(pairs, e, all, x, y); }
  }

  lemma BridgeChained(pairs: seq<Pair>, e: Pair, all: seq<string>, x: string, y: string)
    requires Bridged(pairs, e, all, x, y)
    ensures Chained(pairs + [e], all, x, y)
  {
    var more := pairs + [e];
    if Chained(pairs, all, x, y) {
      ChainGrows(pairs, e, all, x, y);
    } else {
      var a, b := e.hashA, e.hashB;
      if !(Chained(pairs, all, x, a) && Chained(pairs, all, b, y)) { a, b := b, a; }
      ChainGrows(pairs, e, all, x, a);
      ChainGrows(pairs, e, all, b, y);
      JoinedGrows(pairs, e, a, b);
      ChainEnds(pairs, all, x, a);
      ChainEnds(pairs, all, b, y);
      assert IsChain(more, all, [a, b], a, b);
      hide Chained;
      ChainJoined(more, all, x, a, b);
      ChainJoined(more, all, x, b, y);
    }
  }

  // ----- The forest as a clustering

  function Roots(p: seq<nat>, r: seq<nat>): seq<nat>
    requires Forest(p, r)
  {
    seq(|p|, i requires 0 <= i < |p| => Root(p, r, i))
  }

  /** Position `i` is the one the index names for its hash: the last. */
  predicate Named(all: seq<string>, i: nat)
    requires i < |all|
  {
    forall j | i < j < |all| :: all[j] != all[i]
  }

  ghost predicate SameCluster(pairs: seq<Pair>, all: seq<string>, i: nat, j: nat)
    requires i < |all| && j < |all|
  {
    i == j || (Named(all, i) && Named(all, j) && Chained(pairs, all, all[i], all[j]))
  }

  /** Positions share a root exactly when their hashes are chained; a position
      the index does not name stays alone. */
  ghost predicate Clustered(roots: seq<nat>, pairs: seq<Pair>, all: seq<string>) {
    |roots| == |all| &&
    forall i, j | 0 <= i < |all| && 0 <= j < |all| :: roots[i] == roots[j] <==> SameCluster(pairs, all, i, j)
  }

  lemma NoPairs(all: seq<string>, x: string, y: string)
    requires Chained([], all, x, y)
    ensures x == y
  {
    var c :| IsChain([], all, c, x, y);
    assert |c| > 1 ==> Joined([], c[0], c[0 + 1]);
  }

  lemma StartsClustered(roots: seq<nat>, all: seq<string>)
    requires |roots| == |all| && forall i | 0 <= i < |all| :: roots[i] == i
    ensures Clustered(roots, [], all)
  {
    forall i, j | 0 <= i < |all| && 0 <= j < |all| ensures roots[i] == roots[j] <==> SameCluster([], all, i, j) {
      if SameCluster([], all, i, j) && i != j { NoPairs(all, all[i], all[j]); }
    }
  }

  /** `merged` is `roots` with two clusters made one. */
  predicate MergedRoots(roots: seq<nat>, merged: seq<nat>, a: nat, b: nat)
    requires a < |roots| && b < |roots|
  {
    |merged| == |roots| &&
    forall i, j | 0 <= i < |roots| && 0 <= j < |roots| ::
      merged[i] == merged[j] <==>
      roots[i] == roots[j] || (roots[i] in {roots[a], roots[b]} && roots[j] in {roots[a], roots[b]})
  }

  lemma UnionClusters(roots: seq<nat>, merged: seq<nat>, pairs: seq<Pair>, e: Pair, all: seq<string>, a: nat, b: nat)
    requires Clustered(roots, pairs, all) && a < |all| && b < |all|
    requires Named(all, a) && all[a] == e.hashA && Named(all, b) && all[b] == e.hashB
    requires MergedRoots(roots, merged, a, b)
    ensures Clustered(merged, pairs + [e], all)
  {
    forall i, j | 0 <= i < |all| && 0 <= j < |all|
      ensures merged[i] == merged[j] <==> SameCluster(pairs + [e], all, i, j)
    {
      UnionPair(roots, pairs, e, all, a, b, i, j);
    }
  }

  lemma UnionPair(roots: seq<nat>, pairs: seq<Pair>, e: Pair, all: seq<string>, a: nat, b: nat, i: nat, j: nat)
    requires Clustered(roots, pairs, all) && a < |all| && b < |all| && i < |all| && j < |all|
    requires Named(all, a) && all[a] == e.hashA && Named(all, b) && all[b] == e.hashB
    ensures SameCluster(pairs + [e], all, i, j) <==>
            roots[i] == roots[j] || (roots[i] in {roots[a], roots[b]} && roots[j] in {roots[a], roots[b]})
  {
    hide Chained, Named, Bridged;
    OneMorePair(pairs, e, all, all[i], all[j]);
    BridgedMeans(pairs, e, all, all[i], all[j]);
    ToNamed(roots, pairs, all, i, a);
    ToNamed(roots, pairs, all, i, b);
    ToNamed(roots, pairs, all, j, a);
    ToNamed(roots, pairs, all, j, b);
    assert roots[i] == roots[j] <==> SameCluster(pairs, all, i, j);
  }

  lemma BridgedMeans(pairs: seq<Pair>, e: Pair, all: seq<string>, x: string, y: string)
    ensures var a, b := e.hashA, e.hashB;
      Bridged(pairs, e, all, x, y) <==>
      Chained(pairs, all, x, y)
      || (Chained(pairs, all, x, a) && Chained(pairs, all, y, b))
      || (Chained(pairs, all, x, b) && Chained(pairs, all, y, a))
  {
    Turns(pairs, all, y, e.hashA);
    Turns(pairs, all, y, e.hashB);
  }

  lemma Turns(pairs: seq<Pair>, all: seq<string>, x: string, y: string)
    ensures Chained(pairs, all, x, y) <==> Chained(pairs, all, y, x)
  {
    if Chained(pairs, all, x, y) { ChainTurned(pairs, all, x, y); }
    if Chained(pairs, all, y, x) { ChainTurned(pairs, all, y, x); }
  }

  lemma ToNamed(roots: seq<nat>, pairs: seq<Pair>, all: seq<string>, i: nat, j: nat)
    requires Clustered(roots, pairs, all) && i < |all| && j < |all| && Named(all, j)
    ensures roots[i] == roots[j] <==> Named(all, i) && Chained(pairs, all, all[i], all[j])
  {
    ChainSelf(pairs, all, all[j]);
    assert roots[i] == roots[j] <==> SameCluster(pairs, all, i, j);
  }

  // ----- Reading the groups off the forest

  /** The hashes of the first `n` positions in the cluster of `root`, in order. */
  function Members(all: seq<string>, roots: seq<nat>, root: nat, n: nat): seq<string>
    requires |roots| == |all| && n <= |all|
  {
    if n == 0 then []
    else Members(all, roots, root, n - 1) + (if roots[n - 1] == root then [all[n - 1]] else [])
  }

  lemma {:induction false} MemberPosition(all: seq<string>, roots: seq<nat>, root: nat, n: nat, h: string)
    returns (i: nat)
    requires |roots| == |all| && n <= |all| && h in Members(all, roots, root, n)
    ensures i < n && roots[i] == root && all[i] == h
  {
    if h in Members(all, roots, root, n - 1) {
      i := MemberPosition(all, roots, root, n - 1, h);
    } else {
      i := n - 1;
    }
  }

  lemma {:induction false} PositionIn(all: seq<string>, roots: seq<nat>, n: nat, i: nat)
    requires |roots| == |all| && n <= |all| && i < n
    ensures all[i] in Members(all, roots, roots[i], n)
  {
    if i < n - 1 { PositionIn(all, roots, n - 1, i); }
  }

  lemma {:induction false} TwoPositions(all: seq<string>, roots: seq<nat>, n: nat, i: nat, j: nat)
    requires |roots| == |all| && n <= |all| && i < j < n && roots[i] == roots[j]
    ensures |Members(all, roots, roots[i], n)| >= 2
  {
    if j < n - 1 {
      TwoPositions(all, roots, n - 1, i, j);
    } else {
      PositionIn(all, roots, n - 1, i);
    }
  }

  lemma {:induction false} NamedPosition(all: seq<string>, h: string, n: nat) returns (i: nat)
    requires n <= |all| && h in all[..n] && forall j | n <= j < |all| :: all[j] != h
    ensures i < |all| && all[i] == h && Named(all, i)
  {
    if all[n - 1] == h {
      i := n - 1;
    } else {
      assert all[..n] == all[..n - 1] + [all[n - 1]];
      i := NamedPosition(all, h, n - 1);
    }
  }

  lemma {:induction false} MembersDiffer(all: seq<string>, roots: seq<nat>, root: nat, n: nat)
    requires |roots| == |all| && n <= |all|
    requires forall i, j | 0 <= i < j < |all| && roots[i] == roots[j] :: all[i] != all[j]
    ensures NoRepeats(Members(all, roots, root, n))
  {
    if n > 0 {
      MembersDiffer(all, roots, root, n - 1);
      if roots[n - 1] == root {
        var before := Members(all, roots, root, n - 1);
        forall h | h in before ensures h != all[n - 1] {
          var i := MemberPosition(all, roots, root, n - 1, h);
        }
        assert forall k | 0 <= k < |before| :: before[k] in before;
      }
    }
  }

  /** `groups[k]` is the cluster of `keys[k]`, and every cluster of two or more
      is there once. */
  ghost predicate Gathered(groups: seq<seq<string>>, keys: seq<nat>, all: seq<string>, roots: seq<nat>)
    requires |roots| == |all|
  {
    && |keys| == |groups|
    && (forall k, l | 0 <= k < l < |keys| :: keys[k] != keys[l])
    && (forall k | 0 <= k < |groups| :: groups[k] == Members(all, roots, keys[k], |all|) && |groups[k]| >= 2)
    && forall i | 0 <= i < |all| && |Members(all, roots, roots[i], |all|)| >= 2 :: roots[i] in keys
  }

  lemma ClustersDiffer(pairs: seq<Pair>, all: seq<string>, roots: seq<nat>)
    requires Clustered(roots, pairs, all)
    ensures forall i, j | 0 <= i < j < |all| && roots[i] == roots[j] :: all[i] != all[j]
  {
    forall i, j | 0 <= i < j < |all| && roots[i] == roots[j] ensures all[i] != all[j] {
      assert SameCluster(pairs, all, i, j);
    }
  }

  lemma GatheredIsComponents(groups: seq<seq<string>>, keys: seq<nat>, pairs: seq<Pair>, all: seq<string>,
                             roots: seq<nat>)
    requires Clustered(roots, pairs, all) && Gathered(groups, keys, all, roots)
    ensures Components(groups, pairs, all)
  {
    ClustersDiffer(pairs, all, roots);
    forall g | g in groups ensures ProperGroup(g, all) {
      var k :| 0 <= k < |groups| && groups[k] == g;
      MembersDiffer(all, roots, keys[k], |all|);
      forall h | h in g ensures h in all { var i := MemberPosition(all, roots, keys[k], |all|, h); }
    }
    GatheredDisjoint(groups, keys, pairs, all, roots);
    forall x, y | x in all && y in all && x != y
      ensures Together(groups, x, y) <==> Chained(pairs, all, x, y)
    {
      if Together(groups, x, y) { TogetherChained(groups, keys, pairs, all, roots, x, y); }
      if Chained(pairs, all, x, y) { ChainedTogether(groups, keys, pairs, all, roots, x, y); }
    }
  }

  /** A hash sits in one cluster of two or more only: its stale positions are
      alone. */
  lemma GatheredDisjoint(groups: seq<seq<string>>, keys: seq<nat>, pairs: seq<Pair>, all: seq<string>, roots: seq<nat>)
    requires Clustered(roots, pairs, all) && Gathered(groups, keys, all, roots)
    ensures Disjoint(groups)
  {
    forall k, l, h | 0 <= k < l < |groups| && h in groups[k] ensures h !in groups[l] {
      if h in groups[l] { OneCluster(groups, keys, pairs, all, roots, k, l, h); }
    }
  }

  lemma OneCluster(groups: seq<seq<string>>, keys: seq<nat>, pairs: seq<Pair>, all: seq<string>, roots: seq<nat>,
                   k: nat, l: nat, h: string)
    requires Clustered(roots, pairs, all) && Gathered(groups, keys, all, roots)
    requires k < |groups| && l < |groups| && h in groups[k] && h in groups[l]
    ensures k == l
  {
    var i := NamedInCluster(groups[k], keys[k], pairs, all, roots, h);
    var j := NamedInCluster(groups[l], keys[l], pairs, all, roots, h);
    assert i == j;
  }

  lemma NamedInCluster(g: seq<string>, root: nat, pairs: seq<Pair>, all: seq<string>, roots: seq<nat>, h: string)
    returns (i: nat)
    requires Clustered(roots, pairs, all) && g == Members(all, roots, root, |all|) && |g| >= 2 && h in g
    ensures i < |all| && all[i] == h && roots[i] == root && Named(all, i)
  {
    ClustersDiffer(pairs, all, roots);
    MembersDiffer(all, roots, root, |all|);
    i := MemberPosition(all, roots, root, |all|, h);
    var other := if g[0] == h then g[1] else g[0];
    var j := MemberPosition(all, roots, root, |all|, other);
    assert SameCluster(pairs, all, i, j);
  }

  lemma TogetherChained(groups: seq<seq<string>>, keys: seq<nat>, pairs: seq<Pair>, all: seq<string>, roots: seq<nat>,
                        x: string, y: string)
    requires Clustered(roots, pairs, all) && Gathered(groups, keys, all, roots)
    requires x != y && Together(groups, x, y)
    ensures Chained(pairs, all, x, y)
  {
    var k :| 0 <= k < |groups| && x in groups[k] && y in groups[k];
    var i := MemberPosition(all, roots, keys[k], |all|, x);
    var j := MemberPosition(all, roots, keys[k], |all|, y);
    assert SameCluster(pairs, all, i, j);
  }

  lemma ChainedTogether(groups: seq<seq<string>>, keys: seq<nat>, pairs: seq<Pair>, all: seq<string>, roots: seq<nat>,
                        x: string, y: string)
    requires Clustered(roots, pairs, all) && Gathered(groups, keys, all, roots)
    requires x != y && Chained(pairs, all, x, y)
    ensures Together(groups, x, y)
  {
    ChainEnds(pairs, all, x, y);
    assert all[..|all|] == all;
    var i := NamedPosition(all, x, |all|);
    var j := NamedPosition(all, y, |all|);
    assert SameCluster(pairs, all, i, j);
    PositionIn(all, roots, |all|, i);
    PositionIn(all, roots, |all|, j);
    if i < j { TwoPositions(all, roots, |all|, i, j); } else { TwoPositions(all, roots, |all|, j, i); }
    var k :| 0 <= k < |keys| && keys[k] == roots[i];
    assert x in groups[k] && y in groups[k];
  }

  // ----- The program

  method BuildIndex(all: seq<string>) returns (index: map<string, nat>)
    ensures forall h :: h in index <==> h in all
    ensures forall h | h in index :: index[h] < |all| && all[index[h]] == h && Named(all, index[h])
  {
    index := map[];
    for i := 0 to |all|
      invariant forall h :: h in index <==> h in all[..i]
      invariant forall h | h in index ::
        index[h] < i && all[index[h]] == h && forall j | index[h] < j < i :: all[j] != h
    {
      index := index[all[i] := i];
    }
    assert all[..|all|] == all;
  }

  method GroupDuplicates(pairs: seq<Pair>, all: seq<string>) returns (groups: seq<seq<string>>)
    ensures Components(groups, pairs, all)
  {
    if pairs == [] {
      groups := [];
      forall x, y | Chained(pairs, all, x, y) ensures x == y { NoPairs(all, x, y); }
      return;
    }
    var index := BuildIndex(all);
    var uf := new UnionFind(|all|);
    StartsClustered(Roots(uf.parent[..], uf.rank[..]), all);
    for i := 0 to |pairs|
      invariant fresh(uf.parent) && fresh(uf.rank) && uf.Valid() && uf.parent.Length == |all|
      invariant Clustered(Roots(uf.parent[..], uf.rank[..]), pairs[..i], all)
    {
      var pair := pairs[i];
      assert pairs[..i + 1] == pairs[..i] + [pair];
      ghost var roots := Roots(uf.parent[..], uf.rank[..]);
      if pair.hashA in index && pair.hashB in index {
        ghost var p, r := uf.parent[..], uf.rank[..];
        uf.Union(index[pair.hashA], index[pair.hashB]);
        UnionMerges(p, r, uf.parent[..], uf.rank[..], index[pair.hashA], index[pair.hashB]);
        UnionClusters(roots, Roots(uf.parent[..], uf.rank[..]), pairs[..i], pair, all,
                      index[pair.hashA], index[pair.hashB]);
      } else {
        UnknownPair(roots, pairs[..i], pair, all);
      }
    }
    assert pairs[..|pairs|] == pairs;
    ghost var roots := Roots(uf.parent[..], uf.rank[..]);
    var byRoot := ByRoot(uf, all);
    ghost var keys;
    groups, keys := LargeGroups(byRoot, all, roots);
    GatheredIsComponents(groups, keys, pairs, all, roots);
  }

  lemma UnionMerges(p: seq<nat>, r: seq<nat>, q: seq<nat>, s: seq<nat>, a: nat, b: nat)
    requires Forest(p, r) && a < |p| && b < |p| && Merged(p, r, q, s, a, b)
    ensures MergedRoots(Roots(p, r), Roots(q, s), a, b)
  {
    var roots, merged := Roots(p, r), Roots(q, s);
    hide Forest, Root;
    forall i | 0 <= i < |p| ensures roots[i] == Root(p, r, i) && merged[i] == Root(q, s, i) {}
  }

  lemma UnknownPair(roots: seq<nat>, pairs: seq<Pair>, e: Pair, all: seq<string>)
    requires Clustered(roots, pairs, all) && !(e.hashA in all && e.hashB in all)
    ensures Clustered(roots, pairs + [e], all)
  {
    forall i, j | 0 <= i < |all| && 0 <= j < |all|
      ensures SameCluster(pairs + [e], all, i, j) <==> SameCluster(pairs, all, i, j)
    {
      OneMorePair(pairs, e, all, all[i], all[j]);
    }
  }

  /** The first `i` hashes, collected by the root of their position. */
  predicate Collected(byRoot: map<nat, seq<string>>, all: seq<string>, roots: seq<nat>, i: nat)
    requires |roots| == |all| && i <= |all|
  {
    && (forall root | root in byRoot :: root in roots[..i] && byRoot[root] == Members(all, roots, root, i))
    && forall root | root in roots[..i] :: root in byRoot
  }

  lemma {:induction false} NoMembers(all: seq<string>, roots: seq<nat>, root: nat, i: nat)
    requires |roots| == |all| && i <= |all| && root !in roots[..i]
    ensures Members(all, roots, root, i) == []
  {
    if i > 0 {
      assert roots[..i] == roots[..i - 1] + [roots[i - 1]];
      NoMembers(all, roots, root, i - 1);
    }
  }

  lemma CollectOne(byRoot: map<nat, seq<string>>, all: seq<string>, roots: seq<nat>, i: nat)
    requires |roots| == |all| && i < |all| && Collected(byRoot, all, roots, i)
    ensures var root := roots[i];
      Collected(byRoot[root := (if root in byRoot then byRoot[root] else []) + [all[i]]], all, roots, i + 1)
  {
    assert roots[..i + 1] == roots[..i] + [roots[i]];
    if roots[i] !in byRoot { NoMembers(all, roots, roots[i], i); }
  }

  lemma RootsKept(p: seq<nat>, q: seq<nat>, r: seq<nat>)
    requires Forest(p, r) && SameRoots(p, q, r)
    ensures Roots(p, r) == Roots(q, r)
  {
  }

  method ByRoot(uf: UnionFind, all: seq<string>) returns (byRoot: map<nat, seq<string>>)
    requires uf.Valid() && uf.parent.Length == |all|
    modifies uf.parent
    ensures Collected(byRoot, all, old(Roots(uf.parent[..], uf.rank[..])), |all|)
  {
    hide Forest, Sized, Root, SameRoots, Collected;
    byRoot := map[];
    ghost var roots := Roots(uf.parent[..], uf.rank[..]);
    StartsCollected(all, roots);
    for i := 0 to |all|
      invariant uf.Valid() && Roots(uf.parent[..], uf.rank[..]) == roots
      invariant Collected(byRoot, all, roots, i)
    {
      ghost var p, r := uf.parent[..], uf.rank[..];
      assert roots[i] == uf.RootAt(i);
      var root := uf.Find(i);
      RootsKept(p, uf.parent[..], r);
      CollectOne(byRoot, all, roots, i);
      byRoot := byRoot[root := (if root in byRoot then byRoot[root] else []) + [all[i]]];
    }
  }

  lemma StartsCollected(all: seq<string>, roots: seq<nat>)
    requires |roots| == |all|
    ensures Collected(map[], all, roots, 0)
  {
  }

  lemma CollectedAll(byRoot: map<nat, seq<string>>, all: seq<string>, roots: seq<nat>)
    requires |roots| == |all| && Collected(byRoot, all, roots, |all|)
    ensures forall i | 0 <= i < |all| :: roots[i] in byRoot
    ensures forall root | root in byRoot :: byRoot[root] == Members(all, roots, root, |all|)
  {
    hide Members;
    assert roots[..|all|] == roots;
  }

  /** The groups of two or more, in whatever order the map yields them. */
  method LargeGroups(byRoot: map<nat, seq<string>>, all: seq<string>, ghost roots: seq<nat>)
    returns (groups: seq<seq<string>>, ghost keys: seq<nat>)
    requires |roots| == |all| && Collected(byRoot, all, roots, |all|)
    ensures Gathered(groups, keys, all, roots)
  {
    hide Members, Collected;
    CollectedAll(byRoot, all, roots);
    groups, keys := [], [];
    var left := byRoot.Keys;
    while left != {}
      invariant left <= byRoot.Keys && |keys| == |groups|
      invariant forall k | k in keys :: k !in left
      invariant forall k, l | 0 <= k < l < |keys| :: keys[k] != keys[l]
      invariant forall k | 0 <= k < |groups| :: groups[k] == Members(all, roots, keys[k], |all|) && |groups[k]| >= 2
      invariant forall root | root in byRoot && root !in left && |Members(all, roots, root, |all|)| >= 2 :: root in keys
    {
      var root :| root in left;
      left := left - {root};
      if |byRoot[root]| >= 2 {
        groups, keys := groups + [byRoot[root]], keys + [root];
      }
    }
  }

  // ----- The result does not depend on the order of the pairs

  /** The same joins, whatever the order, direction or repetition. */
  ghost predicate SameJoins(pairs: seq<Pair>, others: seq<Pair>) {
    forall x, y :: Joined(pairs, x, y) <==> Joined(others, x, y)
  }

  function Elements(g: seq<string>): set<string> {
    set h | h in g
  }

  function AsSets(groups: seq<seq<string>>): set<set<string>> {
    set g | g in groups :: Elements(g)
  }

  /** As a set of sets the groups are fixed by which hashes the pairs join:
      not by the order of the pairs or of the hashes, nor by which hash of a
      pair comes first. */
  lemma GroupsDetermined(groups: seq<seq<string>>, others: seq<seq<string>>,
                         pairs: seq<Pair>, pairs': seq<Pair>, all: seq<string>, all': seq<string>)
    requires Components(groups, pairs, all) && Components(others, pairs', all')
    requires SameJoins(pairs, pairs') && forall h :: h in all <==> h in all'
    ensures AsSets(groups) == AsSets(others)
  {
    ReorderedChains(pairs, pairs', all, all');
    forall g | g in groups ensures Elements(g) in AsSets(others) {
      GroupFound(groups, others, pairs, pairs', all, all', g);
    }
    forall g | g in others ensures Elements(g) in AsSets(groups) {
      GroupFound(others, groups, pairs', pairs, all', all, g);
    }
  }

  lemma ReorderedChains(pairs: seq<Pair>, pairs': seq<Pair>, all: seq<string>, all': seq<string>)
    requires SameJoins(pairs, pairs') && forall h :: h in all <==> h in all'
    ensures forall x, y :: Chained(pairs, all, x, y) <==> Chained(pairs', all', x, y)
  {
    forall x, y ensures Chained(pairs, all, x, y) <==> Chained(pairs', all', x, y) {
      if Chained(pairs, all, x, y) {
        var c :| IsChain(pairs, all, c, x, y);
        assert IsChain(pairs', all', c, x, y);
      }
      if Chained(pairs', all', x, y) {
        var c :| IsChain(pairs', all', c, x, y);
        assert IsChain(pairs, all, c, x, y);
      }
    }
  }

  lemma GroupFound(groups: seq<seq<string>>, others: seq<seq<string>>,
                   pairs: seq<Pair>, pairs': seq<Pair>, all: seq<string>, all': seq<string>, g: seq<string>)
    requires Components(groups, pairs, all) && Components(others, pairs', all') && g in groups
    requires forall x, y :: Chained(pairs, all, x, y) <==> Chained(pairs', all', x, y)
    requires forall h :: h in all <==> h in all'
    ensures Elements(g) in AsSets(others)
  {
    hide Chained;
    assert ProperGroup(g, all);
    var x, y := g[0], g[1];
    assert Together(groups, x, y);
    assert Together(others, x, y);
    var k :| 0 <= k < |others| && x in others[k] && y in others[k];
    var g' := others[k];
    assert ProperGroup(g', all');
    forall h ensures h in g <==> h in g' {
      if h in g && h != x { MovesTo(groups, others, g, g', x, h); }
      if h in g' && h != x { MovesTo(others, groups, g', g, x, h); }
    }
    assert Elements(g) == Elements(g');
  }

  /** `h`, with `x` in the group `g`, is with `x` in the other grouping's too. */
  lemma MovesTo(groups: seq<seq<string>>, others: seq<seq<string>>, g: seq<string>, g': seq<string>,
                x: string, h: string)
    requires g in groups && g' in others && x in g && h in g && x in g' && Disjoint(others)
    requires Together(groups, x, h) ==> Together(others, x, h)
    ensures h in g'
  {
    assert Together(groups, x, h);
    var k :| 0 <= k < |others| && x in others[k] && h in others[k];
    var l :| 0 <= l < |others| && others[l] == g';
  }
}
