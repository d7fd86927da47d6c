// Hebbian edges: strengthened when two memories are recalled together,
// decayed and pruned by consolidation.

module Hebbian {
  import opened Wrappers

  datatype Edge = Edge(weight: real, coAccess: int, createdAt: real, lastCoAccess: real)

  type Ends = (string, string)
  type Edges = map<Ends, Edge>

  /** The parameters of `strengthen_edge` that its caller fixes. */
  datatype Rule = Rule(init: real, rate: real, max: real) {
    predicate Sound() { 0.0 < init <= max && 0.0 <= rate }
  }

  /** The weight a strengthening computes, before the clamp. */
  function Next(rule: Rule, w: real, spacing: real): real
    requires rule.max > 0.0
  {
    w + rule.rate * (1.0 - w / rule.max) * spacing
  }

  /** The weight a strengthening leaves on an existing edge. */
  function Raised(rule: Rule, w: real, spacing: real): real
    requires rule.max > 0.0
  {
    if Next(rule, w, spacing) > rule.max then rule.max else Next(rule, w, spacing)
  }

  function Strengthened(rule: Rule, nodes: set<string>, edges: Edges, ends: Ends, spacing: real, ts: real): Edges
    requires rule.max > 0.0
  {
    if ends.0 !in nodes || ends.1 !in nodes then edges
    else if ends in edges then
      var e := edges[ends];
      edges[ends := Edge(Raised(rule, e.weight, spacing), e.coAccess + 1, e.createdAt, ts)]
    else edges[ends := Edge(rule.init, 1, ts, ts)]
  }

  function Decayed(edges: Edges, picked: set<Ends>, decay: real): Edges {
    map k | k in edges :: if k in picked then edges[k].(weight := edges[k].weight * decay) else edges[k]
  }

  /** Edges not recalled since `before`; every edge when there is no bound. */
  function Stale(edges: Edges, before: Option<real>): set<Ends> {
    set k | k in edges && (before.Some? ==> edges[k].lastCoAccess < before.value)
  }

  function Weak(edges: Edges, threshold: real): set<Ends> {
    set k | k in edges && edges[k].weight < threshold
  }

  /** What `LIMIT` may keep of the matching edges. */
  predicate Limited(picked: set<Ends>, matching: set<Ends>, limit: nat) {
    picked <= matching && |picked| == if |matching| <= limit then |matching| else limit
  }

  /** A strengthening makes an edge of the initial weight between known nodes,
      and on one that is there raises the weight towards the maximum, counts the
      recall and dates it; it touches nothing else. */
  lemma StrengthenedFields(rule: Rule, nodes: set<string>, edges: Edges, ends: Ends, spacing: real, ts: real)
    requires rule.max > 0.0
    ensures var after := Strengthened(rule, nodes, edges, ends, spacing, ts);
      && (forall k :: k in after <==> k in edges || (k == ends && k.0 in nodes && k.1 in nodes))
      && (forall k | k in edges && (k != ends || k.0 !in nodes || k.1 !in nodes) :: after[k] == edges[k])
      && (ends.0 in nodes && ends.1 in nodes && ends !in edges ==> after[ends] == Edge(rule.init, 1, ts, ts))
      && (ends.0 in nodes && ends.1 in nodes && ends in edges ==>
            var e, f := edges[ends], after[ends];
            && f.coAccess == e.coAccess + 1 && f.createdAt == e.createdAt && f.lastCoAccess == ts
            && f.weight <= rule.max
            && (f.weight == rule.max || f.weight == e.weight + rule.rate * (1.0 - e.weight / rule.max) * spacing))
  {
  }

  lemma DecayedFields(edges: Edges, picked: set<Ends>, decay: real)
    ensures var after := Decayed(edges, picked, decay);
      && after.Keys == edges.Keys
      && (forall k | k in edges && k !in picked :: after[k] == edges[k])
      && (forall k | k in edges && k in picked ::
           && after[k].weight == edges[k].weight * decay && after[k].coAccess == edges[k].coAccess
           && after[k].createdAt == edges[k].createdAt && after[k].lastCoAccess == edges[k].lastCoAccess)
  {
  }

  class Graph {
    var nodes: set<string>
    var edges: Edges

    method StrengthenEdge(rule: Rule, src: string, dst: string, spacing: real, ts: real)
      requires rule.max > 0.0
      modifies this`edges
      ensures edges == Strengthened(rule, nodes, old(edges), (src, dst), spacing, ts)
    {
      if src in nodes && dst in nodes {
        if (src, dst) in edges {
          var e := edges[(src, dst)];
          var next := e.weight + rule.rate * (1.0 - e.weight / rule.max) * spacing;
          var weight := if next > rule.max then rule.max else next;
          assert weight == Raised(rule, e.weight, spacing);
          edges := edges[(src, dst) := Edge(weight, e.coAccess + 1, e.createdAt, ts)];
        } else {
          edges := edges[(src, dst) := Edge(rule.init, 1, ts, ts)];
        }
      }
    }

    method DecayEdges(before: Option<real>, decay: real, limit: nat) returns (count: nat, picked: set<Ends>)
      modifies this`edges
      ensures Limited(picked, Stale(old(edges), before), limit) && count == |picked|
      ensures edges == Decayed(old(edges), picked, decay)
      ensures count <= limit && forall k | k in picked ::
        k in old(edges) && (before.Some? ==> old(edges)[k].lastCoAccess < before.value)
      ensures count < limit ==> forall k | k in old(edges) && k !in picked ::
        before.Some? && old(edges)[k].lastCoAccess >= before.value
    {
      picked := Limit(Stale(edges, before), limit);
      count := |picked|;
      edges := map k | k in edges :: if k in picked then edges[k].(weight := edges[k].weight * decay) else edges[k];
    }

    method PruneWeakEdges(threshold: real, limit: nat) returns (count: nat, picked: set<Ends>)
      modifies this`edges
      ensures Limited(picked, Weak(old(edges), threshold), limit) && count == |picked|
      ensures edges == old(edges) - picked
      ensures count <= limit && forall k | k in picked :: k in old(edges) && old(edges)[k].weight < threshold
      ensures count < limit ==> forall k | k in edges :: edges[k].weight >= threshold
    {
      picked := Limit(Weak(edges, threshold), limit);
      count := |picked|;
      edges := edges - picked;
    }
  }

  /** Some `limit` of the matching edges, no order promised. */
  method Limit(matching: set<Ends>, limit: nat) returns (picked: set<Ends>)
    ensures Limited(picked, matching, limit)
    ensures |picked| <= limit && (|picked| < limit ==> picked == matching)
  {
    picked := {};
    var left := matching;
    while |picked| < limit && left != {}
      invariant picked + left == matching && picked !! left && |picked| <= limit
      decreases |left|
    {
      var k :| k in left;
      picked, left := picked + {k}, left - {k};
    }
    assert |matching| == |picked| + |left|;
  }

  // ----- Bounded weights, over every run

  datatype Action =
    | Strengthen(ends: Ends, spacing: real, ts: real)
    | Decay(picked: set<Ends>, factor: real)
    | Prune(gone: set<Ends>)

  function Act(rule: Rule, nodes: set<string>, edges: Edges, a: Action): Edges
    requires rule.max > 0.0
  {
    match a
    case Strengthen(ends, spacing, ts) => Strengthened(rule, nodes, edges, ends, spacing, ts)
    case Decay(picked, factor) => Decayed(edges, picked, factor)
    case Prune(gone) => edges - gone
  }

  function Run(rule: Rule, nodes: set<string>, edges: Edges, actions: seq<Action>): Edges
    requires rule.max > 0.0
  {
    if actions == [] then edges
    else Act(rule, nodes, Run(rule, nodes, edges, actions[..|actions| - 1]), actions[|actions| - 1])
  }

  predicate Fair(a: Action) {
    match a
    case Strengthen(_, spacing, _) => 0.0 <= spacing
    case Decay(_, factor) => 0.0 < factor <= 1.0
    case Prune(_) => true
  }

  predicate Bounded(rule: Rule, edges: Edges) {
    forall k | k in edges :: 0.0 < edges[k].weight <= rule.max
  }

  lemma RaisedBounded(rule: Rule, w: real, spacing: real)
    requires rule.Sound() && 0.0 < w <= rule.max && 0.0 <= spacing
    ensures w <= Raised(rule, w, spacing) <= rule.max
  {
    assert w / rule.max <= 1.0;
    ProductNonNegative(rule.rate, 1.0 - w / rule.max);
    ProductNonNegative(rule.rate * (1.0 - w / rule.max), spacing);
  }

  lemma ProductNonNegative(x: real, y: real)
    requires 0.0 <= x && 0.0 <= y
    ensures 0.0 <= x * y
  {
  }

  lemma ScaledDown(x: real, f: real)
    requires 0.0 < x && 0.0 < f <= 1.0
    ensures 0.0 < x * f <= x
  {
  }

  /** Every weight stays above zero and never passes the maximum, whatever mix
      of strengthenings, decays and prunings runs. */
  lemma {:induction false} WeightsBounded(rule: Rule, nodes: set<string>, edges: Edges, actions: seq<Action>)
    requires rule.Sound() && Bounded(rule, edges) && forall a | a in actions :: Fair(a)
    ensures Bounded(rule, Run(rule, nodes, edges, actions))
  {
    if actions != [] {
      var n := |actions| - 1;
      WeightsBounded(rule, nodes, edges, actions[..n]);
      ActBounded(rule, nodes, Run(rule, nodes, edges, actions[..n]), actions[n]);
    }
  }

  lemma ActBounded(rule: Rule, nodes: set<string>, edges: Edges, a: Action)
    requires rule.Sound() && Bounded(rule, edges) && Fair(a)
    ensures Bounded(rule, Act(rule, nodes, edges, a))
  {
    hide Raised;
    match a
    case Strengthen(ends, spacing, _) =>
      if ends in edges { RaisedBounded(rule, edges[ends].weight, spacing); }
    case Decay(picked, factor) =>
      var next := Decayed(edges, picked, factor);
      forall k | k in next ensures 0.0 < next[k].weight <= rule.max { ScaledDown(edges[k].weight, factor); }
    case Prune(_) =>
  }

  // ----- The queries, one after another

  datatype Job =
    | Recalled(src: string, dst: string, spacing: real, ts: real)
    | DecayStale(before: Option<real>, factor: real, limit: nat)
    | PruneBelow(threshold: real, limit: nat)

  predicate Sensible(job: Job) {
    match job
    case Recalled(_, _, spacing, _) => 0.0 <= spacing
    case DecayStale(_, factor, _) => 0.0 < factor <= 1.0
    case PruneBelow(_, _) => true
  }

  /** `a` is the job with the edges its `LIMIT` may have picked. */
  predicate Does(edges: Edges, job: Job, a: Action) {
    match job
    case Recalled(src, dst, spacing, ts) => a == Strengthen((src, dst), spacing, ts)
    case DecayStale(before, factor, limit) =>
      a.Decay? && a.factor == factor && Limited(a.picked, Stale(edges, before), limit)
    case PruneBelow(threshold, limit) => a.Prune? && Limited(a.gone, Weak(edges, threshold), limit)
  }

  predicate DoesAll(rule: Rule, nodes: set<string>, edges: Edges, jobs: seq<Job>, actions: seq<Action>)
    requires rule.max > 0.0
  {
    && |jobs| == |actions|
    && forall i :: 0 <= i < |jobs| ==> Does(Run(rule, nodes, edges, actions[..i]), jobs[i], actions[i])
  }

  lemma OneMoreJob(rule: Rule, nodes: set<string>, edges: Edges, jobs: seq<Job>, actions: seq<Action>,
                   job: Job, a: Action)
    requires rule.max > 0.0 && DoesAll(rule, nodes, edges, jobs, actions)
    requires Does(Run(rule, nodes, edges, actions), job, a)
    ensures DoesAll(rule, nodes, edges, jobs + [job], actions + [a])
    ensures Run(rule, nodes, edges, actions + [a]) == Act(rule, nodes, Run(rule, nodes, edges, actions), a)
  {
    hide Does, Act, Run;
    RunMore(rule, nodes, edges, actions, a);
    var more, jobs' := actions + [a], jobs + [job];
    forall i | 0 <= i < |more| ensures Does(Run(rule, nodes, edges, more[..i]), jobs'[i], more[i]) {
      if i < |actions| {
        assert more[..i] == actions[..i] && jobs'[i] == jobs[i] && more[i] == actions[i];
      } else {
        assert more[..i] == actions;
      }
    }
  }

  lemma RunMore(rule: Rule, nodes: set<string>, edges: Edges, actions: seq<Action>, a: Action)
    requires rule.max > 0.0
    ensures Run(rule, nodes, edges, actions + [a]) == Act(rule, nodes, Run(rule, nodes, edges, actions), a)
  {
    hide Act;
    assert (actions + [a])[..|actions|] == actions;
  }

  lemma SensibleIsFair(rule: Rule, nodes: set<string>, edges: Edges, jobs: seq<Job>, actions: seq<Action>)
    requires rule.Sound() && Bounded(rule, edges) && DoesAll(rule, nodes, edges, jobs, actions)
    requires forall job | job in jobs :: Sensible(job)
    ensures Bounded(rule, Run(rule, nodes, edges, actions))
  {
    hide Run;
    forall i | 0 <= i < |actions| ensures Fair(actions[i]) {
      assert jobs[i] in jobs && Does(Run(rule, nodes, edges, actions[..i]), jobs[i], actions[i]);
    }
    WeightsBounded(rule, nodes, edges, actions);
  }

  /** The queries of any list of jobs, in order, leave what the run of their
      actions does, with every weight still bounded. */
  method PerformAll(graph: Graph, rule: Rule, jobs: seq<Job>) returns (actions: seq<Action>)
    requires rule.max > 0.0
    modifies graph`edges
    ensures DoesAll(rule, graph.nodes, old(graph.edges), jobs, actions)
    ensures graph.edges == Run(rule, graph.nodes, old(graph.edges), actions)
    ensures rule.Sound() && Bounded(rule, old(graph.edges)) && (forall job | job in jobs :: Sensible(job)) ==>
              Bounded(rule, graph.edges)
  {
    hide Strengthened, Decayed, Stale, Weak, Limited, Bounded;
    actions := [];
    for n := 0 to |jobs|
      invariant DoesAll(rule, graph.nodes, old(graph.edges), jobs[..n], actions)
      invariant graph.edges == Run(rule, graph.nodes, old(graph.edges), actions)
    {
      var a := Perform(graph, rule, jobs[n]);
      OneMoreJob(rule, graph.nodes, old(graph.edges), jobs[..n], actions, jobs[n], a);
      assert jobs[..n] + [jobs[n]] == jobs[..n + 1];
      actions := actions + [a];
    }
    assert jobs[..|jobs|] == jobs;
    if rule.Sound() && Bounded(rule, old(graph.edges)) && forall job | job in jobs :: Sensible(job) {
      SensibleIsFair(rule, graph.nodes, old(graph.edges), jobs, actions);
    }
  }

  method Perform(graph: Graph, rule: Rule, job: Job) returns (a: Action)
    requires rule.max > 0.0
    modifies graph`edges
    ensures Does(old(graph.edges), job, a) && graph.edges == Act(rule, graph.nodes, old(graph.edges), a)
  {
    hide Strengthened, Decayed, Stale, Weak, Limited;
    match job
    case Recalled(src, dst, spacing, ts) =>
      graph.StrengthenEdge(rule, src, dst, spacing, ts);
      a := Strengthen((src, dst), spacing, ts);
    case DecayStale(before, factor, limit) =>
      var _, picked := graph.DecayEdges(before, factor, limit);
      a := Decay(picked, factor);
    case PruneBelow(threshold, limit) =>
      var _, gone := graph.PruneWeakEdges(threshold, limit);
      a := Prune(gone);
  }

  // ----- The gap to the maximum

  /** What a strengthening multiplies the gap to the maximum by, before the
      clamp. */
  function Shrink(rule: Rule, spacing: real): real
    requires rule.max > 0.0
  {
    1.0 - rule.rate * spacing / rule.max
  }

  /** What one strengthening multiplies the gap to the maximum by: nothing is
      left of the gap once the clamp is reached. */
  function Factor(rule: Rule, spacing: real): (f: real)
    requires rule.max > 0.0
    ensures f >= 0.0
  {
    if Shrink(rule, spacing) < 0.0 then 0.0 else Shrink(rule, spacing)
  }

  /** A strengthening of any spacing shrinks the gap by its factor. */
  lemma GapShrinks(rule: Rule, w: real, spacing: real)
    requires rule.max > 0.0 && w <= rule.max
    ensures rule.max - Raised(rule, w, spacing) == (rule.max - w) * Factor(rule, spacing)
  {
    hide Next, Shrink;
    NextGap(rule, w, spacing);
    if Shrink(rule, spacing) >= 0.0 {
      ProductNonNegative(rule.max - w, Shrink(rule, spacing));
    } else {
      ProductNonPositive(rule.max - w, Shrink(rule, spacing));
    }
  }

  lemma NextGap(rule: Rule, w: real, spacing: real)
    requires rule.max > 0.0
    ensures rule.max - Next(rule, w, spacing) == (rule.max - w) * Shrink(rule, spacing)
  {
    Regroup(rule.rate, 1.0 - w / rule.max, spacing);
    GapAlgebra(rule.max, w, rule.rate * spacing);
  }

  lemma Regroup(x: real, y: real, z: real)
    ensures x * y * z == x * z * y
  {
  }

  /** The clamp has nothing to cut while the step is no larger than the
      maximum. */
  lemma Unclamped(rule: Rule, w: real, spacing: real)
    requires rule.max > 0.0 && w <= rule.max && rule.rate * spacing <= rule.max
    ensures Raised(rule, w, spacing) == Next(rule, w, spacing)
  {
    NextGap(rule, w, spacing);
    AtMostOne(rule.rate * spacing, rule.max);
    ProductNonNegative(rule.max - w, Shrink(rule, spacing));
  }

  lemma ProductNonPositive(x: real, y: real)
    requires 0.0 <= x && y < 0.0
    ensures x * y <= 0.0 && (x * y == 0.0 ==> x == 0.0)
  {
  }

  lemma AtMostOne(x: real, m: real)
    requires m > 0.0 && x <= m
    ensures x / m <= 1.0
  {
  }

  lemma GapAlgebra(m: real, w: real, step: real)
    requires m > 0.0
    ensures m - (w + step * (1.0 - w / m)) == (m - w) * (1.0 - step / m)
  {
    var q := w / m;
    assert w == q * m;
    var s := step / m;
    assert step == s * m;
    assert (m - q * m) * (1.0 - s) == m - q * m - s * m + s * q * m;
    assert s * m * (1.0 - q) == s * m - s * q * m;
  }

  /** The weight after strengthenings at these spacings, in this order. */
  function RaisedBy(rule: Rule, w: real, spacings: seq<real>): real
    requires rule.max > 0.0
  {
    if spacings == [] then w
    else Raised(rule, RaisedBy(rule, w, spacings[..|spacings| - 1]), spacings[|spacings| - 1])
  }

  function Product(rule: Rule, spacings: seq<real>): real
    requires rule.max > 0.0
  {
    if spacings == [] then 1.0
    else Product(rule, spacings[..|spacings| - 1]) * Factor(rule, spacings[|spacings| - 1])
  }

  lemma {:induction false} GapAfter(rule: Rule, w: real, spacings: seq<real>)
    requires rule.max > 0.0 && w <= rule.max
    ensures RaisedBy(rule, w, spacings) <= rule.max
    ensures rule.max - RaisedBy(rule, w, spacings) == (rule.max - w) * Product(rule, spacings)
  {
    hide Raised, Factor;
    if spacings != [] {
      var n := |spacings| - 1;
      GapAfter(rule, w, spacings[..n]);
      var before := RaisedBy(rule, w, spacings[..n]);
      GapShrinks(rule, before, spacings[n]);
      RaisedAtMost(rule, before, spacings[n]);
      Associates(rule.max - w, Product(rule, spacings[..n]), Factor(rule, spacings[n]));
    }
  }

  lemma RaisedAtMost(rule: Rule, w: real, spacing: real)
    requires rule.max > 0.0
    ensures Raised(rule, w, spacing) <= rule.max
  {
  }

  lemma Associates(x: real, y: real, z: real)
    ensures (x * y) * z == x * (y * z)
  {
  }

  function Power(x: real, n: nat): real {
    if n == 0 then 1.0 else Power(x, n - 1) * x
  }

  /** The gap after n strengthenings lies between two geometric sequences. */
  lemma {:induction false} ProductWithin(rule: Rule, spacings: seq<real>, low: real, high: real)
    requires rule.max > 0.0 && 0.0 <= low
    requires forall s | s in spacings :: low <= Factor(rule, s) <= high
    ensures 0.0 <= Power(low, |spacings|) <= Product(rule, spacings) <= Power(high, |spacings|)
  {
    hide Factor, Product, Power;
    if spacings == [] {
      NoFactors(rule);
      PowerNext(low, 0);
      PowerNext(high, 0);
    } else {
      var n := |spacings| - 1;
      LastFactor(rule, spacings);
      PowerNext(low, n);
      PowerNext(high, n);
      assert spacings[n] in spacings && forall s | s in spacings[..n] :: s in spacings;
      ProductWithin(rule, spacings[..n], low, high);
      assert |spacings[..n]| == n;
      ScaledTwice(Power(low, n), Product(rule, spacings[..n]), Power(high, n), low, Factor(rule, spacings[n]), high);
    }
  }

  lemma PowerNext(x: real, n: nat)
    ensures Power(x, 0) == 1.0 && Power(x, n + 1) == Power(x, n) * x
  {
  }

  lemma NoFactors(rule: Rule)
    requires rule.max > 0.0
    ensures Product(rule, []) == 1.0
  {
  }

  lemma ScaledTwice(a: real, p: real, b: real, x: real, f: real, y: real)
    requires 0.0 <= a <= p <= b && 0.0 <= x <= f <= y
    ensures 0.0 <= a * x <= p * f <= b * y
  {
    Scaled(a, p, x, f);
    Scaled(p, b, f, y);
  }

  lemma Scaled(a: real, b: real, x: real, y: real)
    requires 0.0 <= a <= b && 0.0 <= x <= y
    ensures 0.0 <= a * x <= b * y
  {
    assert a * x <= b * x;
    assert b * x <= b * y;
  }

  // ----- Order

  /** The factor of one element, taken out of the product. */
  lemma {:induction false} TakeOut(rule: Rule, spacings: seq<real>, i: nat)
    requires rule.max > 0.0 && i < |spacings|
    ensures Product(rule, spacings) == Product(rule, spacings[..i] + spacings[i + 1..]) * Factor(rule, spacings[i])
  {
    hide Factor;
    var n := |spacings| - 1;
    var rest := spacings[..i] + spacings[i + 1..];
    if i < n {
      TakeOut(rule, spacings[..n], i);
      assert spacings[..n][..i] + spacings[..n][i + 1..] == rest[..n - 1];
      LastFactor(rule, rest);
      LastFactor(rule, spacings);
      hide Product;
      Swapped(Product(rule, rest[..n - 1]), Factor(rule, spacings[i]), Factor(rule, spacings[n]));
    } else {
      assert rest == spacings[..n];
    }
  }

  lemma LastFactor(rule: Rule, spacings: seq<real>)
    requires rule.max > 0.0 && spacings != []
    ensures Product(rule, spacings) ==
            Product(rule, spacings[..|spacings| - 1]) * Factor(rule, spacings[|spacings| - 1])
  {
    hide Factor;
  }

  lemma Swapped(p: real, x: real, y: real)
    ensures (p * x) * y == (p * y) * x
  {
  }

  lemma {:induction false} ProductPermutes(rule: Rule, ss: seq<real>, ts: seq<real>)
    requires rule.max > 0.0 && multiset(ss) == multiset(ts)
    ensures Product(rule, ss) == Product(rule, ts)
    decreases |ss|
  {
    hide Product, Factor;
    SameLength(ss, ts);
    if ss == [] {
      assert ss == ts;
    } else {
      var n := |ss| - 1;
      var i := WithoutLast(ss, ts);
      ProductPermutes(rule, ss[..n], ts[..i] + ts[i + 1..]);
      TakeOut(rule, ts, i);
      TakeOut(rule, ss, n);
      assert ss[..n] + ss[n + 1..] == ss[..n];
    }
  }

  lemma SameLength(ss: seq<real>, ts: seq<real>)
    requires multiset(ss) == multiset(ts)
    ensures |ss| == |ts|
  {
    assert |ss| == |multiset(ss)| == |multiset(ts)| == |ts|;
  }

  lemma WithoutLast(ss: seq<real>, ts: seq<real>) returns (i: nat)
    requires ss != [] && multiset(ss) == multiset(ts)
    ensures i < |ts| && ts[i] == ss[|ss| - 1] && multiset(ss[..|ss| - 1]) == multiset(ts[..i] + ts[i + 1..])
  {
    var n := |ss| - 1;
    assert ss[n] in multiset(ts);
    i :| 0 <= i < |ts| && ts[i] == ss[n];
    assert ts == ts[..i] + [ts[i]] + ts[i + 1..];
    assert ss == ss[..n] + [ss[n]];
    assert multiset(ts) == multiset(ts[..i]) + multiset{ts[i]} + multiset(ts[i + 1..]);
    assert multiset(ss) == multiset(ss[..n]) + multiset{ss[n]};
    assert multiset(ts[..i] + ts[i + 1..]) == multiset(ss) - multiset{ss[n]};
  }

  /** On an existing edge a batch of strengthenings of any spacings ends at one
      weight in whatever order it is consumed. */
  lemma OrderIrrelevant(rule: Rule, w: real, ss: seq<real>, ts: seq<real>)
    requires rule.max > 0.0 && w <= rule.max && multiset(ss) == multiset(ts)
    ensures RaisedBy(rule, w, ss) == RaisedBy(rule, w, ts)
  {
    hide Raised, RaisedBy, Product;
    GapAfter(rule, w, ss);
    GapAfter(rule, w, ts);
    ProductPermutes(rule, ss, ts);
  }

  /** One of these spacings alone takes an edge to the maximum. */
  predicate Saturates(rule: Rule, spacings: seq<real>)
    requires rule.max > 0.0
  {
    exists s | s in spacings :: Factor(rule, s) == 0.0
  }

  lemma {:induction false} ProductZero(rule: Rule, spacings: seq<real>)
    requires rule.max > 0.0
    ensures Product(rule, spacings) >= 0.0 && (Product(rule, spacings) == 0.0 <==> Saturates(rule, spacings))
  {
    hide Factor;
    if spacings != [] {
      var n := |spacings| - 1;
      ProductZero(rule, spacings[..n]);
      ZeroProduct(Product(rule, spacings[..n]), Factor(rule, spacings[n]));
      assert spacings == spacings[..n] + [spacings[n]];
      assert forall s :: s in spacings <==> s in spacings[..n] || s == spacings[n];
    }
  }

  lemma ZeroProduct(x: real, y: real)
    requires 0.0 <= x && 0.0 <= y
    ensures 0.0 <= x * y && (x * y == 0.0 <==> x == 0.0 || y == 0.0)
  {
  }

  /** A batch on an edge that does not exist yet: the first strengthening only
      creates it, at a weight that ignores its spacing. Two orders agree exactly
      when they begin with the same factor, or when each goes on to a spacing
      that takes the edge to the maximum. */
  lemma FreshOrderMatters(rule: Rule, ss: seq<real>, ts: seq<real>)
    requires rule.max > 0.0 && rule.init < rule.max && ss != [] && multiset(ss) == multiset(ts)
    ensures ts != []
    ensures RaisedBy(rule, rule.init, ss[1..]) == RaisedBy(rule, rule.init, ts[1..]) <==>
            Factor(rule, ss[0]) == Factor(rule, ts[0]) || (Saturates(rule, ss[1..]) && Saturates(rule, ts[1..]))
  {
    hide Raised, RaisedBy, Product, Factor, Saturates;
    SameLength(ss, ts);
    GapAfter(rule, rule.init, ss[1..]);
    GapAfter(rule, rule.init, ts[1..]);
    CancelLeft(rule.max - rule.init, Product(rule, ss[1..]), Product(rule, ts[1..]));
    FirstFactor(rule, ss, ts);
  }

  lemma FirstFactor(rule: Rule, ss: seq<real>, ts: seq<real>)
    requires rule.max > 0.0 && ss != [] && ts != [] && multiset(ss) == multiset(ts)
    ensures Product(rule, ss[1..]) == Product(rule, ts[1..]) <==>
            Factor(rule, ss[0]) == Factor(rule, ts[0]) || (Saturates(rule, ss[1..]) && Saturates(rule, ts[1..]))
  {
    hide Product, Factor, Saturates;
    ProductPermutes(rule, ss, ts);
    TakeOut(rule, ss, 0);
    TakeOut(rule, ts, 0);
    assert ss[..0] + ss[1..] == ss[1..] && ts[..0] + ts[1..] == ts[1..];
    ProductZero(rule, ss[1..]);
    ProductZero(rule, ts[1..]);
    var f, g := Factor(rule, ss[0]), Factor(rule, ts[0]);
    if f == g && f == 0.0 {
      BothSaturating(rule, ss, ts);
    } else {
      CancelBoth(Product(rule, ss[1..]), Product(rule, ts[1..]), f, g);
    }
  }

  /** Two orders that both begin with a saturating spacing: the same one, or
      each has the other's still to come. */
  lemma BothSaturating(rule: Rule, ss: seq<real>, ts: seq<real>)
    requires rule.max > 0.0 && ss != [] && ts != [] && multiset(ss) == multiset(ts)
    requires Factor(rule, ss[0]) == 0.0 && Factor(rule, ts[0]) == 0.0
    ensures Product(rule, ss[1..]) == Product(rule, ts[1..])
  {
    hide Product, Factor;
    TailsOf(ss, ts);
    if ss[0] == ts[0] {
      ProductPermutes(rule, ss[1..], ts[1..]);
    } else {
      ProductZero(rule, ss[1..]);
      ProductZero(rule, ts[1..]);
    }
  }

  lemma TailsOf(ss: seq<real>, ts: seq<real>)
    requires ss != [] && ts != [] && multiset(ss) == multiset(ts)
    ensures if ss[0] == ts[0] then multiset(ss[1..]) == multiset(ts[1..]) else ts[0] in ss[1..] && ss[0] in ts[1..]
  {
    TailOf(ss);
    TailOf(ts);
    if ss[0] != ts[0] { assert ts[0] in multiset(ss[1..]) && ss[0] in multiset(ts[1..]); }
  }

  lemma TailOf(ss: seq<real>)
    requires ss != []
    ensures multiset(ss[1..]) == multiset(ss) - multiset{ss[0]}
  {
    assert ss == [ss[0]] + ss[1..];
  }

  lemma CancelLeft(g: real, p: real, q: real)
    requires g > 0.0
    ensures g * p == g * q <==> p == q
  {
    assert p == (g * p) / g && q == (g * q) / g;
  }

  lemma CancelBoth(p: real, q: real, x: real, y: real)
    requires p * x == q * y && (x != y || x != 0.0)
    ensures p == q <==> x == y || (p == 0.0 && q == 0.0)
  {
    if p == q {
      if p != 0.0 { EqualFactors(p, x, y); }
    } else if x == y {
      EqualFactors(x, p, q);
    }
  }

  lemma EqualFactors(x: real, y: real, z: real)
    requires x != 0.0 && (x * y == x * z || y * x == z * x)
    ensures y == z
  {
    assert x * (y - z) == 0.0;
  }

  // ----- With the consumer's constants

  const CONSUMER := Rule(0.1, 0.15, 1.0)

  /** The spacing modifier of a recall of quality `q`, clamped to [0, 1]. */
  function SpacingModifier(q: real): (s: real)
    ensures 0.5 <= s <= 1.0
  {
    0.5 + 0.5 * (if q < 0.0 then 0.0 else if q > 1.0 then 1.0 else q)
  }

  function Modifiers(qualities: seq<real>): seq<real> {
    seq(|qualities|, i requires 0 <= i < |qualities| => SpacingModifier(qualities[i]))
  }

  lemma ConsumerFactor(s: real)
    requires 0.5 <= s <= 1.0
    ensures CONSUMER.rate * s <= CONSUMER.max && Factor(CONSUMER, s) == 1.0 - 0.15 * s
    ensures 0.85 <= Factor(CONSUMER, s) <= 0.925
  {
  }

  /** The consumer's strengthenings never reach the clamp. */
  lemma ConsumerUnclamped(w: real, q: real)
    requires w <= CONSUMER.max
    ensures Raised(CONSUMER, w, SpacingModifier(q)) == Next(CONSUMER, w, SpacingModifier(q))
  {
    ConsumerFactor(SpacingModifier(q));
    Unclamped(CONSUMER, w, SpacingModifier(q));
  }

  /** After n of the consumer's strengthenings the gap to 1 has shrunk by at
      least 0.925^n and at most 0.85^n. */
  lemma ConsumerGap(w: real, qualities: seq<real>)
    requires 0.0 < w <= 1.0
    ensures var after := RaisedBy(CONSUMER, w, Modifiers(qualities)); var n := |qualities|;
      (1.0 - w) * Power(0.85, n) <= 1.0 - after <= (1.0 - w) * Power(0.925, n)
  {
    var ss := Modifiers(qualities);
    assert |ss| == |qualities| && forall s | s in ss :: 0.5 <= s <= 1.0;
    hide Factor, Modifiers, Product, Power, RaisedBy;
    forall s | s in ss ensures 0.85 <= Factor(CONSUMER, s) <= 0.925 { ConsumerFactor(s); }
    GapAfter(CONSUMER, w, ss);
    ProductWithin(CONSUMER, ss, 0.85, 0.925);
    ScaledTwice(Power(0.85, |ss|), Product(CONSUMER, ss), Power(0.925, |ss|), 1.0 - w, 1.0 - w, 1.0 - w);
  }

  /** With the consumer's constants two orders of a batch on an edge not there
      yet agree exactly when they begin with the same spacing. */
  lemma ConsumerFresh(qs: seq<real>, rs: seq<real>)
    requires qs != [] && multiset(Modifiers(qs)) == multiset(Modifiers(rs))
    ensures rs != []
    ensures var ss, ts, init := Modifiers(qs), Modifiers(rs), CONSUMER.init;
      RaisedBy(CONSUMER, init, ss[1..]) == RaisedBy(CONSUMER, init, ts[1..]) <==> ss[0] == ts[0]
  {
    var ss, ts := Modifiers(qs), Modifiers(rs);
    SameLength(ss, ts);
    assert forall s | s in ss || s in ts :: 0.5 <= s <= 1.0;
    assert ss[0] in ss && ts[0] in ts && forall s | s in ss[1..] :: s in ss;
    hide Factor, Modifiers, RaisedBy;
    FreshOrderMatters(CONSUMER, ss, ts);
    ConsumerFactor(ss[0]);
    ConsumerFactor(ts[0]);
    forall s | s in ss[1..] ensures Factor(CONSUMER, s) != 0.0 { ConsumerFactor(s); }
  }

  datatype CoAccessPair = CoAccessPair(src: string, dst: string, quality: real, timestamp: real)

  /** The edges after the consumer worked off `pairs`, oldest first. */
  function Consumed(nodes: set<string>, edges: Edges, pairs: seq<CoAccessPair>): Edges {
    if pairs == [] then edges
    else
      var p := pairs[|pairs| - 1];
      Strengthened(CONSUMER, nodes, Consumed(nodes, edges, pairs[..|pairs| - 1]), (p.src, p.dst),
                   SpacingModifier(p.quality), p.timestamp)
  }

  /** The spacing modifiers of the pairs that name one edge, oldest first. */
  function Naming(ends: Ends, pairs: seq<CoAccessPair>): seq<real> {
    if pairs == [] then []
    else
      var p := pairs[|pairs| - 1];
      Naming(ends, pairs[..|pairs| - 1]) + (if (p.src, p.dst) == ends then [SpacingModifier(p.quality)] else [])
  }

  /** A batch over the whole graph moves each existing edge by the pairs that
      name it and by nothing else. */
  lemma {:induction false} EdgesIndependent(nodes: set<string>, edges: Edges, pairs: seq<CoAccessPair>, ends: Ends)
    requires ends in edges && ends.0 in nodes && ends.1 in nodes
    ensures var after := Consumed(nodes, edges, pairs);
      && ends in after
      && after[ends].weight == RaisedBy(CONSUMER, edges[ends].weight, Naming(ends, pairs))
      && after[ends].coAccess == edges[ends].coAccess + |Naming(ends, pairs)|
  {
    hide Raised, SpacingModifier;
    if pairs != [] {
      EdgesIndependent(nodes, edges, pairs[..|pairs| - 1], ends);
      var p := pairs[|pairs| - 1];
      var before := Naming(ends, pairs[..|pairs| - 1]);
      if (p.src, p.dst) == ends {
        assert Naming(ends, pairs) == before + [SpacingModifier(p.quality)];
        assert (before + [SpacingModifier(p.quality)])[..|before|] == before;
      } else {
        assert Naming(ends, pairs) == before;
      }
    }
  }

  /** Two queues holding the same strengthenings of an existing edge, in
      whatever order and mixed with whatever else, leave it at one weight and
      one count. */
  lemma BatchOrderIrrelevant(nodes: set<string>, edges: Edges, pairs: seq<CoAccessPair>, others: seq<CoAccessPair>,
                             ends: Ends)
    requires ends in edges && ends.0 in nodes && ends.1 in nodes && edges[ends].weight <= 1.0
    requires multiset(Naming(ends, pairs)) == multiset(Naming(ends, others))
    ensures var a, b := Consumed(nodes, edges, pairs), Consumed(nodes, edges, others);
      ends in a && ends in b && a[ends].weight == b[ends].weight && a[ends].coAccess == b[ends].coAccess
  {
    EdgesIndependent(nodes, edges, pairs, ends);
    EdgesIndependent(nodes, edges, others, ends);
    SameLength(Naming(ends, pairs), Naming(ends, others));
    OrderIrrelevant(CONSUMER, edges[ends].weight, Naming(ends, pairs), Naming(ends, others));
  }

  // ----- The consumer loop

  const MAX_OPS_PER_SEC: nat := 100

  /** What one blocking pop brings: an item (whose query succeeds or not), an
      unreadable item, nothing in time, or a connection error. */
  datatype Popped = Item(pair: CoAccessPair, applied: bool) | Unreadable | Timeout | Failed

  /** One turn of the loop: how much longer than asked a sleep took, how long
      the pop blocked, what it brought and how long the query took. */
  datatype Turn = Turn(overslept: real, blocked: real, popped: Popped, worked: real)

  predicate Forward(t: Turn) { 0.0 <= t.overslept && 0.0 <= t.blocked && 0.0 <= t.worked }

  function Applied(turns: seq<Turn>): seq<CoAccessPair> {
    if turns == [] then []
    else
      var t := turns[|turns| - 1];
      Applied(turns[..|turns| - 1]) + (if t.popped.Item? && t.popped.applied then [t.popped.pair] else [])
  }

  /** The last `ops` operations fell in the second begun at `second`, the
      `earlier` ones before them in one begun at least a second before that. */
  predicate Paced(times: seq<real>, ops: nat, second: real, earlier: nat, before: real, now: real) {
    && ops <= MAX_OPS_PER_SEC && earlier <= MAX_OPS_PER_SEC && ops + earlier <= |times|
    && before + 1.0 <= second <= now
    && (forall i | 0 <= i < |times| :: times[i] <= now)
    && (forall i | 0 <= i < |times| - ops :: times[i] <= second)
    && (forall i | |times| - ops <= i < |times| :: times[i] >= second)
    && (forall i | 0 <= i < |times| - ops - earlier :: times[i] <= before)
  }

  predicate Spread(times: seq<real>) {
    forall i | 0 <= i < |times| - 200 :: times[i + 200] - times[i] >= 1.0
  }

  lemma OneMoreOperation(times: seq<real>, ops: nat, second: real, earlier: nat, before: real, now: real, worked: real)
    requires Paced(times, ops, second, earlier, before, now) && Spread(times) && ops < MAX_OPS_PER_SEC && 0.0 <= worked
    ensures Paced(times + [now], ops + 1, second, earlier, before, now + worked) && Spread(times + [now])
  {
    var more := times + [now];
    forall i | 0 <= i < |more| - 200 ensures more[i + 200] - more[i] >= 1.0 {
      if i + 200 == |times| { assert times[i] <= before; }
    }
  }

  lemma Waited(times: seq<real>, ops: nat, second: real, earlier: nat, before: real, now: real, later: real)
    requires Paced(times, ops, second, earlier, before, now) && now <= later
    ensures Paced(times, ops, second, earlier, before, later)
  {
  }

  lemma NewSecond(times: seq<real>, ops: nat, second: real, earlier: nat, before: real, now: real)
    requires Paced(times, ops, second, earlier, before, now) && now - second >= 1.0
    ensures Paced(times, 0, now, ops, second, now) && ops <= MAX_OPS_PER_SEC
  {
  }

  /** How long a turn takes once its pop has come back. */
  function Takes(t: Turn): real {
    match t.popped
    case Item(_, _) => t.worked
    case Failed => 1.0 + t.overslept
    case _ => 0.0
  }

  /** The time after these turns, `waits` being what the limiter made each wait. */
  function Clock(turns: seq<Turn>, waits: seq<real>, start: real): real
    requires |turns| == |waits|
  {
    if turns == [] then start
    else
      var n := |turns| - 1;
      Clock(turns[..n], waits[..n], start) + waits[n] + turns[n].blocked + Takes(turns[n])
  }

  /** When the operations of these turns began: as soon as their pops came back. */
  function Moments(turns: seq<Turn>, waits: seq<real>, start: real): seq<real>
    requires |turns| == |waits|
  {
    if turns == [] then []
    else
      var n := |turns| - 1;
      Moments(turns[..n], waits[..n], start) +
      if turns[n].popped.Item? then [Clock(turns[..n], waits[..n], start) + waits[n] + turns[n].blocked] else []
  }

  /** The limiter makes a turn wait only when the last 100 operations began
      within a second, and no longer than a second and what the sleep overran. */
  predicate WaitsOnlyWhenBusy(turns: seq<Turn>, waits: seq<real>, start: real)
    requires |turns| == |waits|
  {
    forall n | 0 <= n < |turns| && waits[n] != 0.0 :: Busy(turns, waits, start, n)
  }

  predicate Busy(turns: seq<Turn>, waits: seq<real>, start: real, n: nat)
    requires n < |turns| == |waits|
  {
    var times := Moments(turns[..n], waits[..n], start);
    && |times| >= 100 && Clock(turns[..n], waits[..n], start) - times[|times| - 100] < 1.0
    && 0.0 < waits[n] <= 1.0 + turns[n].overslept
  }

  lemma TurnAdds(turns: seq<Turn>, waits: seq<real>, start: real, t: Turn, wait: real)
    requires |turns| == |waits|
    ensures Clock(turns + [t], waits + [wait], start) == Clock(turns, waits, start) + wait + t.blocked + Takes(t)
    ensures Moments(turns + [t], waits + [wait], start) ==
      Moments(turns, waits, start) +
      if t.popped.Item? then [Clock(turns, waits, start) + wait + t.blocked] else []
  {
    assert (turns + [t])[..|turns|] == turns && (waits + [wait])[..|waits|] == waits;
  }

  lemma BusyTurnAdds(turns: seq<Turn>, waits: seq<real>, start: real, t: Turn, wait: real)
    requires |turns| == |waits| && WaitsOnlyWhenBusy(turns, waits, start)
    requires wait != 0.0 ==>
      var times := Moments(turns, waits, start);
      |times| >= 100 && Clock(turns, waits, start) - times[|times| - 100] < 1.0 && 0.0 < wait <= 1.0 + t.overslept
    ensures WaitsOnlyWhenBusy(turns + [t], waits + [wait], start)
  {
    hide Moments, Clock, Busy;
    var more, longer := turns + [t], waits + [wait];
    forall n | 0 <= n < |more| && longer[n] != 0.0 ensures Busy(more, longer, start, n) {
      if n < |turns| {
        assert longer[n] == waits[n];
        StillBusy(turns, waits, start, t, wait, n);
      } else {
        NowBusy(turns, waits, start, t, wait);
      }
    }
  }

  lemma StillBusy(turns: seq<Turn>, waits: seq<real>, start: real, t: Turn, wait: real, n: nat)
    requires n < |turns| == |waits| && Busy(turns, waits, start, n)
    ensures Busy(turns + [t], waits + [wait], start, n)
  {
    hide Moments, Clock;
    assert (turns + [t])[..n] == turns[..n] && (waits + [wait])[..n] == waits[..n];
  }

  lemma NowBusy(turns: seq<Turn>, waits: seq<real>, start: real, t: Turn, wait: real)
    requires |turns| == |waits|
    requires var times := Moments(turns, waits, start);
      |times| >= 100 && Clock(turns, waits, start) - times[|times| - 100] < 1.0 && 0.0 < wait <= 1.0 + t.overslept
    ensures Busy(turns + [t], waits + [wait], start, |turns|)
  {
    hide Moments, Clock;
    assert (turns + [t])[..|turns|] == turns && (waits + [wait])[..|waits|] == waits;
  }

  lemma NoTurns(start: real)
    ensures Moments([], [], start) == [] && Clock([], [], start) == start && WaitsOnlyWhenBusy([], [], start)
  {
  }

  lemma TakesOf(t: Turn)
    ensures Takes(t) == match t.popped case Item(_, _) => t.worked case Failed => 1.0 + t.overslept case _ => 0.0
  {
  }

  lemma FullSecond(times: seq<real>, ops: nat, second: real, earlier: nat, before: real, now: real)
    requires Paced(times, ops, second, earlier, before, now) && ops >= MAX_OPS_PER_SEC && now - second < 1.0
    ensures |times| >= 100 && now - times[|times| - 100] < 1.0 && second <= now
  {
  }

  lemma AppliedNone(nodes: set<string>, edges: Edges, turns: seq<Turn>, start: real)
    ensures Consumed(nodes, edges, Applied(turns[..0])) == edges
    ensures Paced([], 0, start, 0, start - 1.0, start) && Spread([])
  {
  }

  lemma AppliedNext(nodes: set<string>, edges: Edges, turns: seq<Turn>, t: Turn)
    ensures Consumed(nodes, edges, Applied(turns + [t])) ==
      if t.popped.Item? && t.popped.applied then
        Strengthened(CONSUMER, nodes, Consumed(nodes, edges, Applied(turns)), (t.popped.pair.src, t.popped.pair.dst),
                     SpacingModifier(t.popped.pair.quality), t.popped.pair.timestamp)
      else Consumed(nodes, edges, Applied(turns))
  {
    hide Strengthened;
    assert (turns + [t])[..|turns|] == turns;
    var done := Applied(turns);
    if t.popped.Item? && t.popped.applied {
      assert Applied(turns + [t]) == done + [t.popped.pair];
      assert (done + [t.popped.pair])[..|done|] == done;
    } else {
      assert Applied(turns + [t]) == done;
    }
  }

  /** The first turns of the loop, begun at time `start`: `times` are the
      moments its operations began. No 200 operations and one more fit in one
      second, however the turns fall, and the limiter makes it wait only after
      100 within one. */
  method ConsumerLoop(graph: Graph, turns: seq<Turn>, start: real) returns (times: seq<real>, ghost waits: seq<real>)
    requires forall t | t in turns :: Forward(t)
    modifies graph`edges
    ensures graph.edges == Consumed(graph.nodes, old(graph.edges), Applied(turns))
    ensures Spread(times)
    ensures |waits| == |turns| && times == Moments(turns, waits, start) && WaitsOnlyWhenBusy(turns, waits, start)
  {
    hide Strengthened, Spread, Applied, Consumed, Paced, Clock, Moments, WaitsOnlyWhenBusy, Takes;
    AppliedNone(graph.nodes, graph.edges, turns, start);
    var opsThisSecond, secondStart, now := 0, start, start;
    ghost var earlier, earlierStart := 0, start - 1.0;
    times, waits := [], [];
    NoTurns(start);
    for n := 0 to |turns|
      invariant |waits| == n && times == Moments(turns[..n], waits, start) && now == Clock(turns[..n], waits, start)
      invariant WaitsOnlyWhenBusy(turns[..n], waits, start)
      invariant graph.edges == Consumed(graph.nodes, old(graph.edges), Applied(turns[..n]))
      invariant Paced(times, opsThisSecond, secondStart, earlier, earlierStart, now) && Spread(times)
    {
      var turn := turns[n];
      assert Forward(turn) by { assert turns[n] in turns; }
      AppliedNext(graph.nodes, old(graph.edges), turns[..n], turn);
      assert turns[..n + 1] == turns[..n] + [turn];
      ghost var wait := 0.0;
      if opsThisSecond >= MAX_OPS_PER_SEC {
        if now - secondStart < 1.0 {
          FullSecond(times, opsThisSecond, secondStart, earlier, earlierStart, now);
          wait := secondStart + 1.0 + turn.overslept - now;
          Waited(times, opsThisSecond, secondStart, earlier, earlierStart, now, secondStart + 1.0 + turn.overslept);
          now := secondStart + 1.0 + turn.overslept;
        }
        NewSecond(times, opsThisSecond, secondStart, earlier, earlierStart, now);
        earlier, earlierStart := opsThisSecond, secondStart;
        opsThisSecond, secondStart := 0, now;
      }
      if now - secondStart >= 1.0 {
        NewSecond(times, opsThisSecond, secondStart, earlier, earlierStart, now);
        earlier, earlierStart := opsThisSecond, secondStart;
        opsThisSecond, secondStart := 0, now;
      }
      BusyTurnAdds(turns[..n], waits, start, turn, wait);
      TurnAdds(turns[..n], waits, start, turn, wait);
      TakesOf(turn);
      waits := waits + [wait];
      Waited(times, opsThisSecond, secondStart, earlier, earlierStart, now, now + turn.blocked);
      now := now + turn.blocked;
      match turn.popped {
        case Item(pair, applied) =>
          OneMoreOperation(times, opsThisSecond, secondStart, earlier, earlierStart, now, turn.worked);
          times := times + [now];
          if applied {
            graph.StrengthenEdge(CONSUMER, pair.src, pair.dst, SpacingModifier(pair.quality), pair.timestamp);
          }
          now := now + turn.worked;
          opsThisSecond := opsThisSecond + 1;
        case Unreadable =>
        case Timeout =>
        case Failed =>
          Waited(times, opsThisSecond, secondStart, earlier, earlierStart, now, now + 1.0 + turn.overslept);
          now := now + 1.0 + turn.overslept;
      }
    }
    assert turns[..|turns|] == turns;
  }
}
