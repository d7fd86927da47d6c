// The duplicate pipeline: pairs above a threshold, their groups, and one
// memory of each group to keep. Similarities are given, not computed.

module Deduplication {
  import opened Duplicates

  type Similarity = (nat, nat) -> real

  datatype Strategy = KeepNewest | KeepOldest | KeepMostAccessed

  datatype Group = Group(hashes: seq<string>, canonical: string, maxSimilarity: real, size: nat)

  // ----- Pairs

  /** The pairs (i, j), i < j, at or above the threshold with j < n for i = m,
      and any j for i < m, in scan order. */
  function Scanned(hashes: seq<string>, sim: Similarity, threshold: real, m: nat, n: nat): seq<Pair>
    requires m <= |hashes| && n <= |hashes| && (m == |hashes| ==> n == 0)
    decreases m, n
  {
    if n > m + 1 then
      Scanned(hashes, sim, threshold, m, n - 1)
      + (if sim(m, n - 1) >= threshold then [Pair(hashes[m], hashes[n - 1], sim(m, n - 1))] else [])
    else if m > 0 then Scanned(hashes, sim, threshold, m - 1, |hashes|)
    else []
  }

  predicate Descending(pairs: seq<Pair>) {
    forall i, j | 0 <= i < j < |pairs| :: pairs[i].similarity >= pairs[j].similarity
  }

  /** `p` after every pair at least as similar: a stable insertion. */
  function Inserted(p: Pair, pairs: seq<Pair>): seq<Pair> {
    if pairs == [] then [p]
    else if pairs[|pairs| - 1].similarity < p.similarity then Inserted(p, pairs[..|pairs| - 1]) + [pairs[|pairs| - 1]]
    else pairs + [p]
  }

  function SortedBySimilarity(pairs: seq<Pair>): seq<Pair> {
    if pairs == [] then [] else Inserted(pairs[|pairs| - 1], SortedBySimilarity(pairs[..|pairs| - 1]))
  }

  lemma {:induction false} InsertedSame(p: Pair, pairs: seq<Pair>)
    ensures multiset(Inserted(p, pairs)) == multiset(pairs) + multiset{p}
  {
    if pairs != [] && pairs[|pairs| - 1].similarity < p.similarity {
      InsertedSame(p, pairs[..|pairs| - 1]);
      assert pairs == pairs[..|pairs| - 1] + [pairs[|pairs| - 1]];
    }
  }

  lemma {:induction false} InsertedDescending(p: Pair, pairs: seq<Pair>)
    requires Descending(pairs)
    ensures Descending(Inserted(p, pairs))
  {
    if pairs != [] && pairs[|pairs| - 1].similarity < p.similarity {
      var last := pairs[|pairs| - 1];
      var front := Inserted(p, pairs[..|pairs| - 1]);
      InsertedDescending(p, pairs[..|pairs| - 1]);
      InsertedSame(p, pairs[..|pairs| - 1]);
      forall i | 0 <= i < |front| ensures front[i].similarity >= last.similarity {
        assert front[i] in multiset(front);
      }
    }
  }

  lemma {:induction false} SortedOk(pairs: seq<Pair>)
    ensures Descending(SortedBySimilarity(pairs)) && multiset(SortedBySimilarity(pairs)) == multiset(pairs)
  {
    hide Descending, Inserted;
    if pairs == [] {
      assert Descending([]) by { NoneDescend(); }
    } else {
      var n := |pairs| - 1;
      SortedOk(pairs[..n]);
      InsertedSame(pairs[n], SortedBySimilarity(pairs[..n]));
      InsertedDescending(pairs[n], SortedBySimilarity(pairs[..n]));
      assert pairs == pairs[..n] + [pairs[n]];
    }
  }

  /** The pairs of one similarity. */
  function Equally(pairs: seq<Pair>, similarity: real): seq<Pair> {
    if pairs == [] then []
    else
      var last := pairs[|pairs| - 1];
      Equally(pairs[..|pairs| - 1], similarity) + (if last.similarity == similarity then [last] else [])
  }

  lemma {:induction false} InsertedLast(p: Pair, pairs: seq<Pair>, similarity: real)
    requires Descending(pairs)
    ensures Equally(Inserted(p, pairs), similarity) ==
      Equally(pairs, similarity) + (if p.similarity == similarity then [p] else [])
  {
    if pairs == [] {
      assert [p][..0] == [];
    } else {
      var n := |pairs| - 1;
      if pairs[n].similarity < p.similarity {
        InsertedLast(p, pairs[..n], similarity);
        assert (Inserted(p, pairs[..n]) + [pairs[n]])[..|Inserted(p, pairs[..n])|] == Inserted(p, pairs[..n]);
      } else {
        assert (pairs + [p])[..|pairs|] == pairs;
      }
    }
  }

  /** The sort is stable: pairs of one similarity stay in scan order. */
  lemma {:induction false} SortStable(pairs: seq<Pair>, similarity: real)
    ensures Equally(SortedBySimilarity(pairs), similarity) == Equally(pairs, similarity)
  {
    hide Inserted;
    if pairs != [] {
      var n := |pairs| - 1;
      SortStable(pairs[..n], similarity);
      SortedOk(pairs[..n]);
      InsertedLast(pairs[n], SortedBySimilarity(pairs[..n]), similarity);
    }
  }

  lemma NoneDescend()
    ensures Descending([])
  {
  }

  method FindDuplicatePairs(hashes: seq<string>, sim: Similarity, threshold: real) returns (pairs: seq<Pair>)
    ensures Descending(pairs) && multiset(pairs) == multiset(Scanned(hashes, sim, threshold, |hashes|, 0))
    ensures forall s :: Equally(pairs, s) == Equally(Scanned(hashes, sim, threshold, |hashes|, 0), s)
  {
    var n := |hashes|;
    pairs := [];
    for i := 0 to n
      invariant pairs == Scanned(hashes, sim, threshold, i, 0)
    {
      for j := i + 1 to n
        invariant pairs == Scanned(hashes, sim, threshold, i, j)
      {
        var s := sim(i, j);
        if s >= threshold { pairs := pairs + [Pair(hashes[i], hashes[j], s)]; }
      }
    }
    SortedOk(pairs);
    forall s ensures Equally(SortedBySimilarity(pairs), s) == Equally(pairs, s) { SortStable(pairs, s); }
    pairs := SortedBySimilarity(pairs);
  }

  /** Some two memories of these hashes are similar enough. */
  predicate Similar(hashes: seq<string>, sim: Similarity, threshold: real, p: Pair) {
    exists i, j | 0 <= i < j < |hashes| ::
      sim(i, j) >= threshold && p == Pair(hashes[i], hashes[j], sim(i, j))
  }

  lemma {:induction false} ScannedIs(hashes: seq<string>, sim: Similarity, threshold: real, m: nat, n: nat)
    requires m <= |hashes| && n <= |hashes| && (m == |hashes| ==> n == 0)
    ensures forall p | p in Scanned(hashes, sim, threshold, m, n) :: Similar(hashes, sim, threshold, p)
    ensures forall i, j | 0 <= i < j < |hashes| && (i < m || (i == m && j < n)) && sim(i, j) >= threshold ::
      Pair(hashes[i], hashes[j], sim(i, j)) in Scanned(hashes, sim, threshold, m, n)
    decreases m, n
  {
    if n > m + 1 {
      ScannedIs(hashes, sim, threshold, m, n - 1);
    } else if m > 0 {
      ScannedIs(hashes, sim, threshold, m - 1, |hashes|);
    }
  }

  /** The index pairs scanned so far that are similar enough. */
  function Hits(hashes: seq<string>, sim: Similarity, threshold: real, m: nat, n: nat): set<(nat, nat)> {
    set i: nat, j: nat | i < j < |hashes| && (i < m || (i == m && j < n)) && sim(i, j) >= threshold :: (i, j)
  }

  /** Each pair of indices is found once. */
  lemma {:induction false} ScannedOnce(hashes: seq<string>, sim: Similarity, threshold: real, m: nat, n: nat)
    requires m <= |hashes| && n <= |hashes| && (m == |hashes| ==> n == 0)
    ensures |Scanned(hashes, sim, threshold, m, n)| == |Hits(hashes, sim, threshold, m, n)|
    decreases m, n
  {
    hide Hits;
    if n > m + 1 {
      ScannedOnce(hashes, sim, threshold, m, n - 1);
      OneMoreHit(hashes, sim, threshold, m, n);
    } else if m > 0 {
      ScannedOnce(hashes, sim, threshold, m - 1, |hashes|);
      NextRowHits(hashes, sim, threshold, m, n);
    } else {
      NoHits(hashes, sim, threshold, n);
    }
  }

  lemma OneMoreHit(hashes: seq<string>, sim: Similarity, threshold: real, m: nat, n: nat)
    requires m + 1 < n <= |hashes|
    ensures |Hits(hashes, sim, threshold, m, n)| ==
      |Hits(hashes, sim, threshold, m, n - 1)| + if sim(m, n - 1) >= threshold then 1 else 0
  {
    var before := Hits(hashes, sim, threshold, m, n - 1);
    assert Hits(hashes, sim, threshold, m, n) == before + if sim(m, n - 1) >= threshold then {(m, n - 1)} else {};
  }

  lemma NextRowHits(hashes: seq<string>, sim: Similarity, threshold: real, m: nat, n: nat)
    requires 0 < m <= |hashes| && n <= m + 1
    ensures Hits(hashes, sim, threshold, m, n) == Hits(hashes, sim, threshold, m - 1, |hashes|)
  {
  }

  lemma NoHits(hashes: seq<string>, sim: Similarity, threshold: real, n: nat)
    requires n <= 1
    ensures Hits(hashes, sim, threshold, 0, n) == {}
  {
  }

  // ----- The memory to keep

  /** What the strategy maximises. */
  function Rank(strategy: Strategy, created: seq<real>, accesses: seq<nat>, i: nat): real
    requires i < |created| && i < |accesses|
  {
    match strategy
    case KeepNewest => created[i]
    case KeepOldest => -created[i]
    case KeepMostAccessed => accesses[i] as real
  }

  /** No memory of the group is newer, older, or recalled more often than this
      one, as the strategy says. */
  predicate Best(strategy: Strategy, group: seq<string>, index: map<string, nat>, created: seq<real>,
                 accesses: seq<nat>, best: nat)
    requires |created| == |accesses| && best < |created|
    requires forall h | h in group :: h in index && index[h] < |created|
  {
    match strategy
    case KeepNewest => forall h | h in group :: created[index[h]] <= created[best]
    case KeepOldest => forall h | h in group :: created[index[h]] >= created[best]
    case KeepMostAccessed => forall h | h in group :: accesses[index[h]] <= accesses[best]
  }

  /** The last of the best; empty for an empty group. */
  method SelectCanonical(group: seq<string>, index: map<string, nat>, created: seq<real>, accesses: seq<nat>,
                         strategy: Strategy)
    returns (canonical: string)
    requires |created| == |accesses| && forall h | h in group :: h in index && index[h] < |created|
    ensures group != [] ==> canonical in group && Best(strategy, group, index, created, accesses, index[canonical])
    ensures group != [] ==> exists k | 0 <= k < |group| ::
      && group[k] == canonical
      && forall j | k < j < |group| :: !Best(strategy, group, index, created, accesses, index[group[j]])
    ensures group == [] ==> canonical == ""
  {
    canonical := "";
    ghost var at := 0;
    for i := 0 to |group|
      invariant i > 0 ==> 0 <= at < i && group[at] == canonical
      invariant i == 0 ==> canonical == ""
      invariant forall k | 0 <= k < i :: Rank(strategy, created, accesses, index[group[k]])
                                         <= Rank(strategy, created, accesses, index[canonical])
      invariant forall k | at < k < i :: Rank(strategy, created, accesses, index[group[k]])
                                         < Rank(strategy, created, accesses, index[canonical])
    {
      var h := group[i];
      assert h in group;
      if i == 0 || Rank(strategy, created, accesses, index[h]) >= Rank(strategy, created, accesses, index[canonical]) {
        canonical := h;
        at := i;
      }
    }
    if group != [] {
      forall j | at < j < |group| ensures !Best(strategy, group, index, created, accesses, index[group[j]]) {
        assert canonical in group;
      }
    }
  }

  // ----- The pipeline

  method MaxSimilarity(pairs: seq<Pair>, hashes: seq<string>) returns (most: real)
    ensures most >= 0.0 && forall p | p in pairs && p.hashA in hashes && p.hashB in hashes :: p.similarity <= most
    ensures most == 0.0 || exists p | p in pairs && p.hashA in hashes && p.hashB in hashes :: p.similarity == most
  {
    most := 0.0;
    for i := 0 to |pairs|
      invariant most >= 0.0
      invariant forall k | 0 <= k < i && pairs[k].hashA in hashes && pairs[k].hashB in hashes ::
        pairs[k].similarity <= most
      invariant most == 0.0 || exists p | p in pairs && p.hashA in hashes && p.hashB in hashes :: p.similarity == most
    {
      assert pairs[i] in pairs;
      if pairs[i].hashA in hashes && pairs[i].hashB in hashes && pairs[i].similarity > most {
        most := pairs[i].similarity;
      }
    }
  }

  function HashesOf(groups: seq<Group>): seq<seq<string>> {
    seq(|groups|, i requires 0 <= i < |groups| => groups[i].hashes)
  }

  /** A group as reported: its size, a member the strategy ranks highest, and
      the similarity of its most similar pair (none below 0 is reported). */
  ghost predicate Reported(g: Group, pairs: seq<Pair>, index: map<string, nat>, created: seq<real>, accesses: seq<nat>,
                           strategy: Strategy)
    requires |created| == |accesses| && forall h | h in index :: index[h] < |created|
  {
    && g.size == |g.hashes| && g.canonical in g.hashes
    && (forall h | h in g.hashes :: h in index)
    && Best(strategy, g.hashes, index, created, accesses, index[g.canonical])
    && (forall p | p in pairs && p.hashA in g.hashes && p.hashB in g.hashes :: p.similarity <= g.maxSimilarity)
    && (g.maxSimilarity == 0.0
        || exists p | p in pairs && p.hashA in g.hashes && p.hashB in g.hashes :: p.similarity == g.maxSimilarity)
  }

  method BuildDuplicateGroups(hashes: seq<string>, sim: Similarity, created: seq<real>, accesses: seq<nat>,
                              threshold: real, strategy: Strategy)
    returns (groups: seq<Group>, pairs: seq<Pair>, index: map<string, nat>)
    requires |created| == |accesses| == |hashes|
    ensures Descending(pairs) && multiset(pairs) == multiset(Scanned(hashes, sim, threshold, |hashes|, 0))
    ensures forall h | h in index :: index[h] < |hashes| && hashes[index[h]] == h
    ensures Components(HashesOf(groups), pairs, hashes)
    ensures forall g | g in groups :: Reported(g, pairs, index, created, accesses, strategy)
  {
    pairs := FindDuplicatePairs(hashes, sim, threshold);
    var grouped := GroupDuplicates(pairs, hashes);
    index := BuildIndex(hashes);
    groups := [];
    for k := 0 to |grouped|
      invariant HashesOf(groups) == grouped[..k]
      invariant forall g | g in groups :: Reported(g, pairs, index, created, accesses, strategy)
    {
      var members := grouped[k];
      assert members in grouped && ProperGroup(members, hashes);
      var canonical := SelectCanonical(members, index, created, accesses, strategy);
      var most := MaxSimilarity(pairs, members);
      groups := groups + [Group(members, canonical, most, |members|)];
    }
    assert grouped[..|grouped|] == grouped;
  }

  /** Each group of the pipeline holds a pair at or above the threshold, so its
      reported similarity is at least the threshold. */
  lemma GroupHoldsPair(groups: seq<seq<string>>, pairs: seq<Pair>, hashes: seq<string>, sim: Similarity,
                       threshold: real, g: seq<string>)
    returns (p: Pair)
    requires Components(groups, pairs, hashes) && g in groups
    requires multiset(pairs) == multiset(Scanned(hashes, sim, threshold, |hashes|, 0))
    ensures p in pairs && p.hashA in g && p.hashB in g && p.similarity >= threshold
  {
    assert ProperGroup(g, hashes);
    var x, y := g[0], g[1];
    assert Together(groups, x, y);
    var c :| IsChain(pairs, hashes, c, x, y);
    assert |c| > 1 && Joined(pairs, c[0], c[0 + 1]);
    var z := c[1];
    NextTo(groups, pairs, hashes, g, x, z);
    var k :| 0 <= k < |pairs| &&
      ((pairs[k].hashA == x && pairs[k].hashB == z) || (pairs[k].hashA == z && pairs[k].hashB == x));
    p := pairs[k];
    assert p in multiset(pairs);
    ScannedIs(hashes, sim, threshold, |hashes|, 0);
    assert Similar(hashes, sim, threshold, p);
  }

  lemma NextTo(groups: seq<seq<string>>, pairs: seq<Pair>, hashes: seq<string>, g: seq<string>, x: string, z: string)
    requires Components(groups, pairs, hashes) && g in groups && x in g && z in hashes && Joined(pairs, x, z)
    ensures z in g
  {
    if z != x {
      assert ProperGroup(g, hashes);
      assert IsChain(pairs, hashes, [x, z], x, z);
      assert Together(groups, x, z);
      var k :| 0 <= k < |groups| && x in groups[k] && z in groups[k];
      var l :| 0 <= l < |groups| && groups[l] == g;
    }
  }
}
