// The sweep of graph nodes whose memory is gone, racing with stores, deletes
// and other sweeps. Qdrant and the graph are two stores with no common lock;
// a query to either is one atomic step.

module Sweep {
  import opened Wrappers

  type Hash = string

  /** A Memory node and the mark a sweep left on it. */
  datatype Node = Node(createdAt: real, mark: Option<string>)

  type Nodes = map<Hash, Node>

  // ----- The node queries

  function Ensured(nodes: Nodes, h: Hash, ts: real): Nodes {
    nodes[h := Node(if h in nodes then nodes[h].createdAt else ts, None)]
  }

  function Marked(nodes: Nodes, hashes: set<Hash>, token: string): Nodes {
    map h | h in nodes :: if h in hashes then nodes[h].(mark := Some(token)) else nodes[h]
  }

  function Doomed(nodes: Nodes, hashes: set<Hash>, token: string): set<Hash> {
    set h | h in nodes && h in hashes && nodes[h].mark == Some(token)
  }

  lemma MarkFound(nodes: Nodes, hashes: set<Hash>, token: string)
    ensures Marked(nodes, nodes.Keys * hashes, token) == Marked(nodes, hashes, token)
    ensures Marked(nodes, {}, token) == nodes
  {
  }

  lemma MarkOne(nodes: Nodes, found: set<Hash>, left: set<Hash>, token: string, h: Hash)
    requires left <= found <= nodes.Keys && h in left
    ensures var done := Marked(nodes, found - left, token);
      h in done && done[h := done[h].(mark := Some(token))] == Marked(nodes, found - (left - {h}), token)
  {
  }

  class MemoryGraph {
    var nodes: Nodes

    /** MERGE: the node's age is set only when it is created; a mark is cleared. */
    method EnsureNode(hash: Hash, ts: real)
      modifies this
      ensures nodes == Ensured(old(nodes), hash, ts)
    {
      if hash !in nodes { nodes := nodes[hash := Node(ts, None)]; }
      nodes := nodes[hash := nodes[hash].(mark := None)];
    }

    method DeleteNode(hash: Hash)
      modifies this
      ensures nodes == old(nodes) - {hash}
    {
      nodes := nodes - {hash};
    }

    method MarkNodes(hashes: set<Hash>, token: string) returns (count: nat)
      modifies this
      ensures nodes == Marked(old(nodes), hashes, token) && count == |old(nodes).Keys * hashes|
    {
      var found := nodes.Keys * hashes;
      MarkFound(nodes, hashes, token);
      hide Marked;
      count := |found|;
      assert found - found == {} && found - {} == found;
      var left := found;
      ghost var before := nodes;
      while left != {}
        invariant left <= found && nodes == Marked(before, found - left, token)
      {
        var h :| h in left;
        MarkOne(before, found, left, token, h);
        left := left - {h};
        nodes := nodes[h := nodes[h].(mark := Some(token))];
      }
    }

    method DeleteMarked(hashes: set<Hash>, token: string) returns (count: nat)
      modifies this
      ensures nodes == old(nodes) - Doomed(old(nodes), hashes, token)
      ensures count == |Doomed(old(nodes), hashes, token)|
    {
      var gone := set h | h in nodes && h in hashes && nodes[h].mark == Some(token);
      count := |gone|;
      nodes := nodes - gone;
    }
  }

  // ----- Stores, deletes and sweeps as a state machine

  /** A page of a sweep: hashes without a point at the first read, marked;
      then those still without one at the second. */
  datatype Page = Missing(hashes: set<Hash>) | Stamped(hashes: set<Hash>) | Gone(hashes: set<Hash>)

  datatype SweepPage = SweepPage(token: string, page: Page)

  /** A store whose point has landed and which has not answered yet. */
  datatype Landing = Landing(hash: Hash, undeleted: bool, quiet: bool)

  /** `deletes` holds the deletes whose point delete is done and whose node
      delete is to come. The last four say what has happened, for the theorems:
      a `stored` memory's store answered success, and its point was not deleted
      since it landed; an `ensured` one's point is there and an `ensure_node` of
      it succeeded since it is; a `quiet` one is both, by one store, and no
      delete of it was in progress when that store's point landed; a `cut` one
      lost its node to a delete since it was last ensured. */
  datatype State = State(
    points: set<Hash>, nodes: Nodes,
    stores: map<nat, Landing>, deletes: map<nat, Hash>, pages: map<nat, SweepPage>,
    stored: set<Hash>, ensured: set<Hash>, quiet: set<Hash>, cut: set<Hash>)

  datatype Step =
    | StorePoint(id: nat, hash: Hash)
    | StoreNode(id: nat, ts: real)
    | StoreNodeFails(id: nat)
    | EnsureOnly(hash: Hash, ts: real)
    | DeletePoint(id: nat, hash: Hash)
    | DeleteNode(id: nat)
    | DeleteNodeFails(id: nat)
    | FirstRead(id: nat, token: string, listed: set<Hash>)
    | Mark(id: nat)
    | SecondRead(id: nat)
    | Delete(id: nat)
    | Stop(id: nat)

  const EMPTY := State({}, map[], map[], map[], map[], {}, {}, {}, {})

  predicate Deleting(s: State, h: Hash) {
    exists d | d in s.deletes :: s.deletes[d] == h
  }

  /** Deleting `h`'s point touches every store of it still under way. */
  function Interrupted(stores: map<nat, Landing>, h: Hash): map<nat, Landing> {
    map i | i in stores ::
      if stores[i].hash == h then stores[i].(undeleted := false, quiet := false) else stores[i]
  }

  /** An `ensure_node` that succeeds. */
  function EnsuredNode(s: State, h: Hash, ts: real): State {
    s.(nodes := Ensured(s.nodes, h, ts), cut := s.cut - {h},
       ensured := if h in s.points then s.ensured + {h} else s.ensured)
  }

  /** One step; a step that is not enabled changes nothing. A store whose
      `ensure_node` fails, or is left out, answers success all the same. */
  function Apply(s: State, step: Step): State {
    match step
    case StorePoint(id, h) =>
      if id in s.stores then s
      else s.(points := s.points + {h}, stores := s.stores[id := Landing(h, true, !Deleting(s, h))])
    case StoreNode(id, ts) =>
      if id !in s.stores then s
      else
        var l := s.stores[id];
        var e := EnsuredNode(s, l.hash, ts);
        e.(stores := s.stores - {id}, stored := if l.undeleted then s.stored + {l.hash} else s.stored,
           quiet := if l.quiet then s.quiet + {l.hash} else s.quiet)
    case StoreNodeFails(id) =>
      if id !in s.stores then s
      else
        var l := s.stores[id];
        s.(stores := s.stores - {id}, stored := if l.undeleted then s.stored + {l.hash} else s.stored)
    case EnsureOnly(h, ts) => EnsuredNode(s, h, ts)
    case DeletePoint(id, h) =>
      if id in s.deletes then s
      else s.(points := s.points - {h}, deletes := s.deletes[id := h], stores := Interrupted(s.stores, h),
              stored := s.stored - {h}, ensured := s.ensured - {h}, quiet := s.quiet - {h})
    case DeleteNode(id) =>
      if id !in s.deletes then s
      else s.(nodes := s.nodes - {s.deletes[id]}, deletes := s.deletes - {id}, cut := s.cut + {s.deletes[id]})
    case DeleteNodeFails(id) => s.(deletes := s.deletes - {id})
    case FirstRead(id, token, listed) =>
      if id in s.pages then s
      else s.(pages := s.pages[id := SweepPage(token, Missing(listed - s.points))])
    case Mark(id) => OnPage(s, id, step)
    case SecondRead(id) => OnPage(s, id, step)
    case Delete(id) => OnPage(s, id, step)
    case Stop(id) => s.(pages := s.pages - {id})
  }

  function OnPage(s: State, id: nat, step: Step): State {
    if id !in s.pages then s
    else
      var token := s.pages[id].token;
      match (step, s.pages[id].page)
      case (Mark(_), Missing(hashes)) =>
        s.(nodes := Marked(s.nodes, hashes, token), pages := s.pages[id := SweepPage(token, Stamped(hashes))])
      case (SecondRead(_), Stamped(hashes)) =>
        s.(pages := s.pages[id := SweepPage(token, Gone(hashes - s.points))])
      case (Delete(_), Gone(hashes)) =>
        s.(nodes := s.nodes - Doomed(s.nodes, hashes, token), pages := s.pages - {id})
      case _ => s
  }

  function Run(s: State, steps: seq<Step>): State {
    if steps == [] then s else Apply(Run(s, steps[..|steps| - 1]), steps[|steps| - 1])
  }

  /** A sweep's page uses a token no other page at work uses. */
  predicate FreshToken(s: State, step: Step) {
    step.FirstRead? ==> forall i | i in s.pages :: s.pages[i].token != step.token
  }

  predicate FreshTokens(s: State, steps: seq<Step>) {
    steps == [] ||
    (FreshTokens(s, steps[..|steps| - 1]) && FreshToken(Run(s, steps[..|steps| - 1]), steps[|steps| - 1]))
  }

  // ----- The invariant

  predicate Inv(s: State) {
    && s.quiet <= s.ensured <= s.points && s.quiet <= s.stored <= s.points
    && (forall h | h in s.ensured :: h in s.nodes <==> h !in s.cut)
    && (forall h | h in s.quiet :: h !in s.cut && !Deleting(s, h))
    && (forall i | i in s.stores :: LandingOk(s, s.stores[i]))
    && TokensDiffer(s)
    && forall i | i in s.pages && s.pages[i].page.Gone? :: Unmarked(s, s.pages[i])
  }

  predicate LandingOk(s: State, l: Landing) {
    (l.quiet ==> l.undeleted && !Deleting(s, l.hash)) && (l.undeleted ==> l.hash in s.points)
  }

  predicate TokensDiffer(s: State) {
    forall i, j | i in s.pages && j in s.pages && s.pages[i].token == s.pages[j].token :: i == j
  }

  /** No ensured node still carries the mark its page would delete it by. */
  predicate Unmarked(s: State, p: SweepPage)
    requires p.page.Gone?
  {
    s.ensured !! Doomed(s.nodes, p.page.hashes, p.token)
  }

  lemma StepKeeps(s: State, step: Step)
    requires Inv(s) && FreshToken(s, step)
    ensures Inv(Apply(s, step))
  {
    hide Apply, Inv;
    match step
    case StorePoint(id, h) => StorePointKeeps(s, step);
    case StoreNode(id, ts) => EnsureKeeps(s, step);
    case StoreNodeFails(id) => EnsureFailsKeeps(s, step);
    case EnsureOnly(h, ts) => EnsureOnlyKeeps(s, step);
    case DeletePoint(id, h) => DeletePointKeeps(s, id, h);
    case DeleteNode(id) => DeleteNodeKeeps(s, step);
    case DeleteNodeFails(id) => DeleteNodeKeeps(s, step);
    case FirstRead(id, token, listed) => FirstReadKeeps(s, step);
    case Mark(id) => MarkKeeps(s, id);
    case SecondRead(id) => SecondReadKeeps(s, step);
    case Delete(id) => SweepKeeps(s, id);
    case Stop(id) => SecondReadKeeps(s, step);
  }

  lemma StorePointKeeps(s: State, step: Step)
    requires Inv(s) && step.StorePoint?
    ensures Inv(Apply(s, step))
  {
  }

  lemma EnsureOnlyKeeps(s: State, step: Step)
    requires Inv(s) && step.EnsureOnly?
    ensures Inv(Apply(s, step))
  {
  }

  lemma DeleteNodeKeeps(s: State, step: Step)
    requires Inv(s) && (step.DeleteNode? || step.DeleteNodeFails?)
    ensures Inv(Apply(s, step))
  {
  }

  lemma FirstReadKeeps(s: State, step: Step)
    requires Inv(s) && step.FirstRead? && FreshToken(s, step)
    ensures Inv(Apply(s, step))
  {
  }

  /** What the second read finds without a point is not ensured. */
  lemma SecondReadKeeps(s: State, step: Step)
    requires Inv(s) && (step.SecondRead? || step.Stop?)
    ensures Inv(Apply(s, step))
  {
  }

  lemma EnsureKeeps(s: State, step: Step)
    requires Inv(s) && step.StoreNode?
    ensures Inv(Apply(s, step))
  {
  }

  lemma EnsureFailsKeeps(s: State, step: Step)
    requires Inv(s) && step.StoreNodeFails?
    ensures Inv(Apply(s, step))
  {
  }

  lemma DeletePointKeeps(s: State, id: nat, h: Hash)
    requires Inv(s)
    ensures Inv(Apply(s, DeletePoint(id, h)))
  {
  }

  lemma MarkKeeps(s: State, id: nat)
    requires Inv(s)
    ensures Inv(Apply(s, Mark(id)))
  {
  }

  lemma SweepKeeps(s: State, id: nat)
    requires Inv(s)
    ensures Inv(Apply(s, Delete(id)))
  {
  }

  lemma {:induction false} RunKeeps(s: State, steps: seq<Step>)
    requires Inv(s) && FreshTokens(s, steps)
    ensures Inv(Run(s, steps))
  {
    hide Apply, Inv, FreshToken;
    if steps != [] {
      var n := |steps| - 1;
      RunKeeps(s, steps[..n]);
      StepKeeps(Run(s, steps[..n]), steps[n]);
    }
  }

  // ----- What every run guarantees

  /** With any number of sweeps under distinct tokens, a memory whose store
      finished and ensured its node, with no delete in progress when its point
      landed and none since, has its graph node. */
  lemma StoredKeepsNode(steps: seq<Step>, h: Hash)
    requires FreshTokens(EMPTY, steps) && h in Run(EMPTY, steps).quiet
    ensures var s := Run(EMPTY, steps); h in s.points && h in s.stored && h in s.nodes
  {
    RunKeeps(EMPTY, steps);
  }

  /** Whatever deletes there are: a memory whose point is there, and whose node
      was ensured since it is, lacks its node exactly when the node delete of
      an earlier delete came after the last `ensure_node`. No sweep takes it. */
  lemma EnsuredLacksNodeIff(steps: seq<Step>, h: Hash)
    requires FreshTokens(EMPTY, steps) && h in Run(EMPTY, steps).ensured
    ensures var s := Run(EMPTY, steps); h in s.points && (h !in s.nodes <==> h in s.cut)
  {
    RunKeeps(EMPTY, steps);
  }

  // ----- Runs where it fails

  /** The states a run passes through. */
  lemma {:induction false} Through(steps: seq<Step>, states: seq<State>)
    requires |states| == |steps| + 1
    requires forall i | 0 <= i < |steps| :: states[i + 1] == Apply(states[i], steps[i])
    ensures Run(states[0], steps) == states[|steps|]
  {
    hide Apply;
    if steps != [] { Through(steps[..|steps| - 1], states[..|steps|]); }
  }

  lemma {:induction false} RunJoined(s: State, first: seq<Step>, rest: seq<Step>)
    ensures Run(s, first + rest) == Run(Run(s, first), rest)
  {
    hide Apply;
    var all := first + rest;
    if rest == [] {
      assert all == first;
    } else {
      RunJoined(s, first, rest[..|rest| - 1]);
      assert all[..|all| - 1] == first + rest[..|rest| - 1];
    }
  }

  /** A store whose `ensure_node` fails answers success, and its memory has
      no node. */
  lemma NodeNeverMade(h: Hash) returns (steps: seq<Step>)
    ensures var s := Run(EMPTY, steps); h in s.stored && h !in s.nodes && h !in s.cut && h !in s.ensured
    ensures FreshTokens(EMPTY, steps)
  {
    steps := [StorePoint(0, h), StoreNodeFails(0)];
    var s1 := Apply(EMPTY, StorePoint(0, h));
    var s2 := Apply(s1, StoreNodeFails(0));
    assert h in s2.stored && h !in s2.nodes && h !in s2.cut && h !in s2.ensured;
    hide Apply;
    Through(steps, [EMPTY, s1, s2]);
    NoPageFresh(EMPTY, steps);
  }

  /** A delete's point goes, the memory is stored again, and only then the
      delete removes the node. */
  lemma LateNodeDelete(h: Hash) returns (steps: seq<Step>)
    ensures var s := Run(EMPTY, steps); h in s.ensured && h in s.stored && h !in s.nodes
  {
    steps := [StorePoint(0, h), DeletePoint(0, h), StorePoint(1, h), StoreNode(1, 0.0), DeleteNode(0)];
    var s1 := Apply(EMPTY, StorePoint(0, h));
    var s2 := Apply(s1, DeletePoint(0, h));
    var s3 := Apply(s2, StorePoint(1, h));
    assert s3.stores[1] == Landing(h, true, false) by { assert s3.deletes[0] == h; }
    var s4 := Apply(s3, StoreNode(1, 0.0));
    var s5 := Apply(s4, DeleteNode(0));
    assert h in s5.ensured && h in s5.stored && h !in s5.nodes;
    hide Apply;
    Through(steps, [EMPTY, s1, s2, s3, s4, s5]);
  }

  /** A page read and marked `h` while it has a node and no point. */
  function PageRead(h: Hash, t: string): State {
    EMPTY.(nodes := map[h := Node(0.0, Some(t))], pages := map[0 := SweepPage(t, Gone({h}))])
  }

  function PageSteps(h: Hash, t: string): seq<Step> {
    [EnsureOnly(h, 0.0), FirstRead(0, t, {h}), Mark(0), SecondRead(0)]
  }

  /** The states of the page, one by one. */
  function PageStates(h: Hash, t: string): seq<State> {
    var node := Node(0.0, None);
    [EMPTY,
     EMPTY.(nodes := map[h := node]),
     EMPTY.(nodes := map[h := node], pages := map[0 := SweepPage(t, Missing({h}))]),
     EMPTY.(nodes := map[h := node.(mark := Some(t))], pages := map[0 := SweepPage(t, Stamped({h}))]),
     PageRead(h, t)]
  }

  lemma PageOpens(h: Hash, t: string)
    ensures var states := PageStates(h, t);
      states[1] == Apply(EMPTY, EnsureOnly(h, 0.0)) && states[2] == Apply(states[1], FirstRead(0, t, {h}))
    ensures FreshToken(PageStates(h, t)[1], FirstRead(0, t, {h}))
  {
    hide Deleting, Interrupted, Doomed, Marked, OnPage;
    assert {h} - {} == {h};
  }

  lemma PageMarks(h: Hash, t: string)
    ensures var states := PageStates(h, t);
      states[3] == Apply(states[2], Mark(0)) && states[4] == Apply(states[3], SecondRead(0))
  {
    hide Deleting, Interrupted, Doomed, Ensured;
    assert {h} - {} == {h};
  }

  lemma OnePage(h: Hash, t: string)
    ensures Run(EMPTY, PageSteps(h, t)) == PageRead(h, t) && FreshTokens(EMPTY, PageSteps(h, t))
  {
    hide Run, FreshTokens, Apply, PageRead;
    PageOpens(h, t);
    PageMarks(h, t);
    Through(PageSteps(h, t), PageStates(h, t));
    ThroughFresh(PageSteps(h, t), PageStates(h, t));
  }

  /** A run whose every step uses a fresh token. */
  lemma {:induction false} ThroughFresh(steps: seq<Step>, states: seq<State>)
    requires |states| == |steps| + 1
    requires forall i | 0 <= i < |steps| ::
      states[i + 1] == Apply(states[i], steps[i]) && FreshToken(states[i], steps[i])
    ensures FreshTokens(states[0], steps)
  {
    hide Apply, FreshToken;
    if steps != [] {
      var n := |steps| - 1;
      ThroughFresh(steps[..n], states[..n + 1]);
      Through(steps[..n], states[..n + 1]);
    }
  }

  lemma {:induction false} NoPageFresh(s: State, steps: seq<Step>)
    requires forall step | step in steps :: !step.FirstRead?
    ensures FreshTokens(s, steps)
  {
    hide Run;
    if steps != [] { NoPageFresh(s, steps[..|steps| - 1]); }
  }

  lemma {:induction false} FreshJoined(s: State, first: seq<Step>, rest: seq<Step>)
    requires FreshTokens(s, first) && forall step | step in rest :: !step.FirstRead?
    ensures FreshTokens(s, first + rest)
  {
    hide Run;
    var all := first + rest;
    if rest == [] {
      assert all == first;
    } else {
      FreshJoined(s, first, rest[..|rest| - 1]);
      assert all[..|all| - 1] == first + rest[..|rest| - 1];
    }
  }

  /** A sweep's page has marked a stray node and read twice that it has no
      point; then the memory is stored, its `ensure_node` fails to clear the
      mark, and the sweep deletes the node of a stored memory. */
  lemma SweptAfterFailedEnsure(h: Hash, t: string) returns (steps: seq<Step>)
    ensures var s := Run(EMPTY, steps); h in s.stored && h !in s.nodes && h !in s.cut && h !in s.ensured
    ensures FreshTokens(EMPTY, steps)
  {
    hide Run, Apply, PageRead, PageSteps, FreshTokens;
    var last := [StorePoint(0, h), StoreNodeFails(0), Delete(0)];
    steps := PageSteps(h, t) + last;
    OnePage(h, t);
    RunJoined(EMPTY, PageSteps(h, t), last);
    FreshJoined(EMPTY, PageSteps(h, t), last);
    FailedBetween(h, t);
  }

  lemma FailedBetween(h: Hash, t: string)
    ensures var s := Run(PageRead(h, t), [StorePoint(0, h), StoreNodeFails(0), Delete(0)]);
      h in s.stored && h !in s.nodes && h !in s.cut && h !in s.ensured
  {
    hide Run;
    var s4 := PageRead(h, t);
    var s5 := Apply(s4, StorePoint(0, h));
    assert s5 == s4.(points := {h}, stores := map[0 := Landing(h, true, true)]);
    var s6 := Apply(s5, StoreNodeFails(0));
    assert s6.stored == {h} && s6.nodes == s4.nodes && s6.pages == s4.pages;
    var s7 := Apply(s6, Delete(0));
    assert h in s7.stored && h !in s7.nodes && h !in s7.cut && h !in s7.ensured;
    hide Apply;
    Through([StorePoint(0, h), StoreNodeFails(0), Delete(0)], [s4, s5, s6, s7]);
  }

  /** A second page read under the token, and then `h` stored and ensured. */
  function PagesRead(h: Hash, t: string): State {
    EMPTY.(points := {h}, nodes := map[h := Node(0.0, None)], stored := {h}, ensured := {h}, quiet := {h},
           pages := map[0 := SweepPage(t, Gone({h})), 1 := SweepPage(t, Missing({h}))])
  }

  lemma StoredMeanwhile(h: Hash, t: string)
    ensures Run(PageRead(h, t), [FirstRead(1, t, {h}), StorePoint(0, h), StoreNode(0, 0.0)]) == PagesRead(h, t)
  {
    hide Run, Doomed, Marked, OnPage;
    assert {h} - {} == {h};
    var s4 := PageRead(h, t);
    var s5 := Apply(s4, FirstRead(1, t, {h}));
    assert s5 == s4.(pages := map[0 := SweepPage(t, Gone({h})), 1 := SweepPage(t, Missing({h}))]);
    var s6 := Apply(s5, StorePoint(0, h));
    assert s6 == s5.(points := {h}, stores := map[0 := Landing(h, true, true)]);
    var s7 := Apply(s6, StoreNode(0, 0.0));
    assert s7 == PagesRead(h, t);
    hide Apply;
    Through([FirstRead(1, t, {h}), StorePoint(0, h), StoreNode(0, 0.0)], [s4, s5, s6, s7]);
  }

  lemma DeletedAfter(h: Hash, t: string)
    ensures var s := Run(PagesRead(h, t), [Mark(1), Delete(0)]); h in s.quiet && h in s.stored && h !in s.nodes
  {
    hide Run;
    var s7 := PagesRead(h, t);
    var s8 := Apply(s7, Mark(1));
    assert s8.nodes[h].mark == Some(t) && s8.pages[0] == s7.pages[0];
    var s9 := Apply(s8, Delete(0));
    assert h in s9.quiet && h in s9.stored && h !in s9.nodes;
    hide Apply;
    Through([Mark(1), Delete(0)], [s7, s8, s9]);
  }

  /** Two pages at work under one token: the second marks the node a store has
      just ensured, and the first deletes it. */
  lemma SharedToken(h: Hash, t: string) returns (steps: seq<Step>)
    ensures var s := Run(EMPTY, steps); h in s.quiet && h in s.stored && h !in s.nodes
    ensures !FreshTokens(EMPTY, steps)
  {
    hide Run, Apply, PageRead, PagesRead, PageSteps, FreshTokens;
    var middle := [FirstRead(1, t, {h}), StorePoint(0, h), StoreNode(0, 0.0)];
    steps := PageSteps(h, t) + middle + [Mark(1), Delete(0)];
    OnePage(h, t);
    StoredMeanwhile(h, t);
    DeletedAfter(h, t);
    RunJoined(EMPTY, PageSteps(h, t), middle);
    RunJoined(EMPTY, PageSteps(h, t) + middle, [Mark(1), Delete(0)]);
    if FreshTokens(EMPTY, steps) { StoredKeepsNode(steps, h); }
  }

  // ----- The queries under the machine

  /** Marking and deleting under one token with nothing between removes exactly
      the named nodes. */
  lemma MarkThenDelete(nodes: Nodes, hashes: set<Hash>, token: string)
    ensures Marked(nodes, hashes, token) - Doomed(Marked(nodes, hashes, token), hashes, token) == nodes - hashes
  {
    var marked := Marked(nodes, hashes, token);
    assert Doomed(marked, hashes, token) == nodes.Keys * hashes;
  }

  /** A node ensured, or marked by another sweep, between the two stays, at the
      age it had; any other named node goes, whatever was ensured or marked
      besides. */
  lemma EnsuredSurvives(nodes: Nodes, hashes: set<Hash>, token: string, h: Hash, ts: real, others: set<Hash>,
                        other: string)
    requires other != token
    ensures var between := Marked(Ensured(Marked(nodes, hashes, token), h, ts), others, other);
      var left := between - Doomed(between, hashes, token);
      && left.Keys == (nodes.Keys + {h}) - (hashes - {h} - others)
      && left[h].createdAt == if h in nodes then nodes[h].createdAt else ts
  {
    var between := Marked(Ensured(Marked(nodes, hashes, token), h, ts), others, other);
    assert between.Keys == nodes.Keys + {h};
    assert Doomed(between, hashes, token) == (nodes.Keys * hashes) - {h} - others;
  }

  /** A node ensured after the sweep deleted it is a fresh one. */
  lemma EnsuredAfterIsFresh(nodes: Nodes, hashes: set<Hash>, token: string, h: Hash, ts: real)
    requires h in hashes
    ensures var marked := Marked(nodes, hashes, token);
      Ensured(marked - Doomed(marked, hashes, token), h, ts) == (nodes - hashes)[h := Node(ts, None)]
  {
    MarkThenDelete(nodes, hashes, token);
    hide Marked, Doomed;
  }

  /** The graph's side of the machine is the queries themselves: running a
      step's query on the graph leaves the nodes the step says. */
  class Site {
    const graph: MemoryGraph
    var state: State

    ghost predicate Valid()
      reads this, graph
    {
      state.nodes == graph.nodes
    }

    constructor (graph: MemoryGraph)
      requires graph.nodes == map[]
      ensures Valid() && this.graph == graph && state == EMPTY
    {
      this.graph := graph;
      state := EMPTY;
    }

    method Perform(step: Step)
      requires Valid()
      modifies this, graph
      ensures Valid() && state == Apply(old(state), step)
    {
      match step {
        case StoreNode(id, ts) => if id in state.stores { graph.EnsureNode(state.stores[id].hash, ts); }
        case EnsureOnly(h, ts) => graph.EnsureNode(h, ts);
        case DeleteNode(id) => if id in state.deletes { graph.DeleteNode(state.deletes[id]); }
        case Mark(id) =>
          if id in state.pages && state.pages[id].page.Missing? {
            var count := graph.MarkNodes(state.pages[id].page.hashes, state.pages[id].token);
          }
        case Delete(id) =>
          if id in state.pages && state.pages[id].page.Gone? {
            var count := graph.DeleteMarked(state.pages[id].page.hashes, state.pages[id].token);
          }
        case _ =>
      }
      state := Apply(state, step);
    }
  }
}
