// The contradiction queue: CONTRADICTS edges with a judge's verdict and an
// operator's resolution, the queries that read them and those that write them.

module Contradictions {
  import opened Strings
  import opened Wrappers

  type Hash = string

  /** A directed edge; the queries only ever MERGE, so there is at most one
      each way between two memories. */
  type Ends = (Hash, Hash)

  datatype Edge = Edge(
    createdAt: real, confidence: Option<real>,
    verdict: Option<string>, survivor: Option<string>, verdictReason: Option<string>,
    verdictConfidence: Option<real>, verdictModel: Option<string>, judgedAt: Option<real>,
    resolution: Option<string>, resolvedAt: Option<real>, resolvedVia: Option<string>,
    refuteReason: Option<string>)

  type Edges = map<Ends, Edge>

  const KEEP_BOTH := "keep_both"
  const RESOLUTIONS: set<string> := {KEEP_BOTH}
  const UNJUDGED := "unjudged"

  function Reverse(p: Ends): Ends { (p.1, p.0) }

  /** Some memory supersedes `h`: its in-degree by SUPERSEDES is not 0. */
  predicate Superseded(supersedes: set<Ends>, h: Hash) {
    exists p | p in supersedes :: p.1 == h
  }

  // ----- Reading: the queue

  datatype Query = Query(
    limit: nat, skip: nat, verdicts: Option<seq<string>>, excludeResolved: bool,
    needsJudging: bool, rejudgeModel: Option<string>)
  {
    predicate SelectsUnjudged() { needsJudging || rejudgeModel.Some? }
  }

  /** The `verdicts` filter: `unjudged` stands for no verdict too. */
  predicate VerdictListed(e: Edge, verdicts: seq<string>) {
    (e.verdict.Some? && e.verdict.value in verdicts) || (UNJUDGED in verdicts && e.verdict.None?)
  }

  predicate NeedsJudging(e: Edge, rejudge: Option<string>) {
    || e.verdict.None?
    || (rejudge.Some? &&
         (e.verdict.value == UNJUDGED || e.verdictModel.None? || e.verdictModel.value != rejudge.value))
  }

  predicate ReverseStamped(edges: Edges, p: Ends) {
    exists r | r in RESOLUTIONS :: Reverse(p) in edges && edges[Reverse(p)].resolution == Some(r)
  }

  /** Resolved as one edge shows it: a stamp of its own, or an endpoint superseded. */
  predicate Resolved(edges: Edges, supersedes: set<Ends>, p: Ends)
    requires p in edges
  {
    edges[p].resolution.Some? || Superseded(supersedes, p.0) || Superseded(supersedes, p.1)
  }

  predicate Selected(edges: Edges, supersedes: set<Ends>, q: Query, p: Ends)
    requires p in edges
  {
    && (q.verdicts.Some? ==> VerdictListed(edges[p], q.verdicts.value))
    && (q.SelectsUnjudged() ==> NeedsJudging(edges[p], q.rejudgeModel))
    && (q.excludeResolved ==> !Resolved(edges, supersedes, p) && !ReverseStamped(edges, p))
  }

  function Matching(edges: Edges, supersedes: set<Ends>, q: Query): set<Ends> {
    set p | p in edges && Selected(edges, supersedes, q, p)
  }

  // ----- Reading: the stats

  /** The counts query's row for one verdict (`None`: no verdict) and one side. */
  function CountRow(edges: Edges, supersedes: set<Ends>, verdict: Option<string>, resolved: bool): set<Ends> {
    set p | p in edges && edges[p].verdict == verdict && Resolved(edges, supersedes, p) == resolved
  }

  /** The reverse-stamped query's row: driven from the stamped edges. */
  function ReverseRow(edges: Edges, supersedes: set<Ends>, verdict: Option<string>): set<Ends> {
    set s | s in edges && edges[s].resolution.Some? && edges[s].resolution.value in RESOLUTIONS
            && Reverse(s) in edges && edges[Reverse(s)].resolution.None?
            && !Superseded(supersedes, s.0) && !Superseded(supersedes, s.1)
            && edges[Reverse(s)].verdict == verdict
      :: Reverse(s)
  }

  /** The open edges of one verdict that the queue shows. */
  function QueueRow(edges: Edges, supersedes: set<Ends>, verdict: Option<string>): set<Ends> {
    set p | p in edges && edges[p].verdict == verdict && !Resolved(edges, supersedes, p) && !ReverseStamped(edges, p)
  }

  lemma OpenRowSplits(edges: Edges, supersedes: set<Ends>, verdict: Option<string>)
    ensures CountRow(edges, supersedes, verdict, false)
            == QueueRow(edges, supersedes, verdict) + ReverseRow(edges, supersedes, verdict)
    ensures QueueRow(edges, supersedes, verdict) !! ReverseRow(edges, supersedes, verdict)
  {
    hide Superseded;
    var open, queue, stamped := CountRow(edges, supersedes, verdict, false),
        QueueRow(edges, supersedes, verdict), ReverseRow(edges, supersedes, verdict);
    forall p | p in open && p !in queue ensures p in stamped {
      assert Reverse(Reverse(p)) == p;
      assert Reverse(p) in edges && edges[Reverse(p)].resolution == Some(KEEP_BOTH);
    }
    forall p | p in stamped ensures p in open && p !in queue {
      var s :| s in edges && Reverse(s) == p && edges[s].resolution.Some? && edges[s].resolution.value in RESOLUTIONS
               && edges[p].resolution.None? && !Superseded(supersedes, s.0) && !Superseded(supersedes, s.1)
               && edges[p].verdict == verdict;
      assert Reverse(p) == s && ReverseStamped(edges, p);
    }
  }

  /** The open count less the reverse-stamped count is what the queue selects,
      for every graph and every verdict. */
  lemma StatsAgree(edges: Edges, supersedes: set<Ends>, verdict: Option<string>)
    ensures |CountRow(edges, supersedes, verdict, false)| - |ReverseRow(edges, supersedes, verdict)|
            == |QueueRow(edges, supersedes, verdict)|
  {
    OpenRowSplits(edges, supersedes, verdict);
  }

  /** The queue of one verdict, as the verdict filter asks for it: `unjudged`
      takes the stored marker's row and the row of edges with no verdict. */
  lemma QueueOfVerdict(edges: Edges, supersedes: set<Ends>, v: string, limit: nat, skip: nat)
    ensures var q := Query(limit, skip, Some([v]), true, false, None);
      |Matching(edges, supersedes, q)| ==
        |CountRow(edges, supersedes, Some(v), false)| - |ReverseRow(edges, supersedes, Some(v))|
        + (if v == UNJUDGED
           then |CountRow(edges, supersedes, None, false)| - |ReverseRow(edges, supersedes, None)| else 0)
  {
    hide Resolved, ReverseStamped, CountRow, ReverseRow, Selected;
    var q := Query(limit, skip, Some([v]), true, false, None);
    StatsAgree(edges, supersedes, Some(v));
    StatsAgree(edges, supersedes, None);
    var stored, none := QueueRow(edges, supersedes, Some(v)), QueueRow(edges, supersedes, None);
    var selected := Matching(edges, supersedes, q);
    forall p | p in edges ensures p in selected <==> p in stored || (v == UNJUDGED && p in none) {
      SelectedByVerdict(edges, supersedes, v, limit, skip, p);
    }
    assert selected == stored + if v == UNJUDGED then none else {};
    assert stored !! none;
  }

  lemma SelectedByVerdict(edges: Edges, supersedes: set<Ends>, v: string, limit: nat, skip: nat, p: Ends)
    requires p in edges
    ensures Selected(edges, supersedes, Query(limit, skip, Some([v]), true, false, None), p) <==>
      && (edges[p].verdict == Some(v) || (v == UNJUDGED && edges[p].verdict.None?))
      && !Resolved(edges, supersedes, p) && !ReverseStamped(edges, p)
  {
    hide Resolved, ReverseStamped;
  }

  /** When `newer` comes to supersede a memory, exactly the pairs with that memory
      leave the default queue, whichever way their edge points; those of
      `newer` itself stay. */
  lemma SupersedingSettles(edges: Edges, supersedes: set<Ends>, q: Query, newer: Hash, gone: Hash)
    requires q.excludeResolved
    ensures Matching(edges, supersedes + {(newer, gone)}, q) ==
      set p | p in Matching(edges, supersedes, q) && p.0 != gone && p.1 != gone
  {
    hide ReverseStamped, NeedsJudging, VerdictListed;
    forall h ensures Superseded(supersedes + {(newer, gone)}, h) <==> Superseded(supersedes, h) || h == gone {
      if h == gone { assert (newer, gone) in supersedes + {(newer, gone)}; }
    }
    hide Superseded;
  }

  /** Settling either direction's edge takes both edges of the pair out of the
      default queue, and no other. */
  lemma SettlingSettles(edges: Edges, supersedes: set<Ends>, q: Query, p: Ends, via: string, at: real)
    requires q.excludeResolved && p in edges && edges[p].resolution.None?
    ensures Matching(Settled(edges, p, via, at), supersedes, q) == Matching(edges, supersedes, q) - {p, Reverse(p)}
  {
    hide Superseded, NeedsJudging, VerdictListed;
    var after := Settled(edges, p, via, at);
    assert Reverse(Reverse(p)) == p;
    forall k | k in edges && k != p && k != Reverse(p) ensures ReverseStamped(after, k) <==> ReverseStamped(edges, k) {
      assert Reverse(k) != p;
    }
    assert Reverse(p) in edges ==> ReverseStamped(after, Reverse(p));
  }

  /** The verdict filter: `unjudged` finds the edges without a verdict and those
      with the failure marker, any other word the edges with that verdict. */
  lemma ListedIff(edges: Edges, supersedes: set<Ends>, verdicts: seq<string>, p: Ends)
    requires p in edges
    ensures p in Matching(edges, supersedes, Query(1, 0, Some(verdicts), false, false, None)) <==>
      match edges[p].verdict case Some(v) => v in verdicts case None => "unjudged" in verdicts
  {
  }

  /** Whom the judge is shown: without a model to rejudge for, exactly the edges
      never judged; else those, the failures, and what another model judged. */
  lemma ShownToJudge(edges: Edges, supersedes: set<Ends>, rejudge: Option<string>, needs: bool, p: Ends)
    requires p in edges && (needs || rejudge.Some?)
    ensures p in Matching(edges, supersedes, Query(1, 0, None, false, needs, rejudge)) <==>
      match (edges[p].verdict, rejudge)
      case (None, _) => true
      case (Some(_), None) => false
      case (Some(v), Some(model)) => v == "unjudged" || edges[p].verdictModel != Some(model)
  {
  }

  // ----- Writing

  function Linked(edges: Edges, p: Ends, ts: real, confidence: Option<real>): Edges {
    if p in edges then edges
    else edges[p := Edge(ts, confidence, None, None, None, None, None, None, None, None, None, None)]
  }

  function Refuted(edges: Edges, p: Ends, ts: real, reason: string): Edges {
    var linked := Linked(edges, p, ts, None);
    var kept := linked[p].refuteReason;
    linked[p := linked[p].(refuteReason := if kept.Some? then kept else Some(reason))]
  }

  datatype Judgement = Judgement(
    verdict: string, survivor: Option<string>, reason: Option<string>, confidence: Option<real>,
    model: Option<string>, judgedAt: Option<real>)

  /** A failure marker lands only where no verdict is. */
  predicate MayJudge(e: Edge, j: Judgement) {
    j.verdict == UNJUDGED ==> e.verdict.None? || e.verdict.value == UNJUDGED
  }

  function Judged(edges: Edges, p: Ends, j: Judgement): Edges {
    if p in edges && MayJudge(edges[p], j)
    then edges[p := edges[p].(verdict := Some(j.verdict), survivor := j.survivor, verdictReason := j.reason,
                              verdictConfidence := j.confidence, verdictModel := j.model, judgedAt := j.judgedAt)]
    else edges
  }

  /** Everything a judgement leaves on an edge. */
  predicate Carries(e: Edge, j: Judgement) {
    && e.verdict == Some(j.verdict) && e.survivor == j.survivor && e.verdictReason == j.reason
    && e.verdictConfidence == j.confidence && e.verdictModel == j.model && e.judgedAt == j.judgedAt
  }

  /** The same judgement, or none, on both. */
  predicate SameJudgement(e: Edge, f: Edge) {
    && e.verdict == f.verdict && e.survivor == f.survivor && e.verdictReason == f.verdictReason
    && e.verdictConfidence == f.verdictConfidence && e.verdictModel == f.verdictModel && e.judgedAt == f.judgedAt
  }

  predicate Unjudged(e: Edge) {
    && e.verdict.None? && e.survivor.None? && e.verdictReason.None?
    && e.verdictConfidence.None? && e.verdictModel.None? && e.judgedAt.None?
  }

  /** The same resolution: what was decided, by whom and when. */
  predicate SameResolution(e: Edge, f: Edge) {
    e.resolution == f.resolution && e.resolvedVia == f.resolvedVia && e.resolvedAt == f.resolvedAt
  }

  predicate SameOrigin(e: Edge, f: Edge) {
    e.createdAt == f.createdAt && e.confidence == f.confidence && e.refuteReason == f.refuteReason
  }

  /** Every edge but `p` is as it was, and none came or went. */
  predicate OnlyAt(before: Edges, after: Edges, p: Ends) {
    after.Keys == before.Keys && forall k | k in before && k != p :: after[k] == before[k]
  }

  /** A judgement that finds its edge is on it afterwards in all its parts,
      unless it is a failure marker and a verdict is there; the resolution and
      where the edge comes from are untouched. */
  lemma JudgedFields(edges: Edges, p: Ends, j: Judgement)
    ensures var after := Judged(edges, p, j);
      && OnlyAt(edges, after, p)
      && (p in edges ==>
           && SameResolution(edges[p], after[p]) && SameOrigin(edges[p], after[p])
           && if j.verdict == "unjudged" && edges[p].verdict.Some? && edges[p].verdict != Some("unjudged")
              then SameJudgement(edges[p], after[p]) else Carries(after[p], j))
  {
  }

  /** An operator's call sets what, who and when, or clears all three, and
      touches nothing else. */
  lemma ResolutionFields(edges: Edges, p: Ends, resolution: Option<string>, via: string, at: real)
    ensures var after := ResolutionSet(edges, p, resolution, via, at);
      && OnlyAt(edges, after, p)
      && (p in edges ==>
           && SameJudgement(edges[p], after[p]) && SameOrigin(edges[p], after[p])
           && after[p].resolution == resolution
           && after[p].resolvedVia == (if resolution.Some? then Some(via) else None)
           && after[p].resolvedAt == (if resolution.Some? then Some(at) else None))
  {
  }

  /** Settling stamps an edge without a resolution, and nothing else. */
  lemma SettledFields(edges: Edges, p: Ends, via: string, at: real)
    ensures var after := Settled(edges, p, via, at);
      && OnlyAt(edges, after, p)
      && (p in edges ==>
           && SameJudgement(edges[p], after[p]) && SameOrigin(edges[p], after[p])
           && if edges[p].resolution.Some? then SameResolution(edges[p], after[p])
              else after[p].resolution == Some("keep_both") && after[p].resolvedVia == Some(via)
                   && after[p].resolvedAt == Some(at))
  {
  }

  /** A detection or a refute makes the edge if it is not there, of this age and
      bare but for its confidence or its reason; on one that is there it sets
      the reason only, and only the first time. */
  lemma LinkedFields(edges: Edges, p: Ends, ts: real, confidence: Option<real>, reason: string)
    ensures var linked, refuted := Linked(edges, p, ts, confidence), Refuted(edges, p, ts, reason);
      && linked.Keys == refuted.Keys == edges.Keys + {p}
      && (forall k | k in edges && k != p :: linked[k] == refuted[k] == edges[k])
      && (if p in edges then
            && linked == edges
            && SameJudgement(edges[p], refuted[p]) && SameResolution(edges[p], refuted[p])
            && refuted[p].createdAt == edges[p].createdAt && refuted[p].confidence == edges[p].confidence
            && refuted[p].refuteReason == if edges[p].refuteReason.Some? then edges[p].refuteReason else Some(reason)
          else
            && Unjudged(linked[p]) && Unjudged(refuted[p])
            && linked[p].resolution.None? && linked[p].resolvedVia.None? && linked[p].resolvedAt.None?
            && refuted[p].resolution.None? && refuted[p].resolvedVia.None? && refuted[p].resolvedAt.None?
            && linked[p].createdAt == refuted[p].createdAt == ts
            && linked[p].confidence == confidence && linked[p].refuteReason.None?
            && refuted[p].confidence.None? && refuted[p].refuteReason == Some(reason))
  {
  }

  function WithResolution(e: Edge, resolution: Option<string>, via: Option<string>, at: Option<real>): Edge {
    e.(resolution := resolution, resolvedVia := via, resolvedAt := at)
  }

  /** The operator's verb: sets, or with `None` clears, whatever is there. */
  function ResolutionSet(edges: Edges, p: Ends, resolution: Option<string>, via: string, at: real): Edges {
    if p !in edges then edges
    else if resolution.Some? then edges[p := WithResolution(edges[p], resolution, Some(via), Some(at))]
    else edges[p := WithResolution(edges[p], None, None, None)]
  }

  function Settled(edges: Edges, p: Ends, via: string, at: real): Edges {
    if p in edges && edges[p].resolution.None?
    then edges[p := WithResolution(edges[p], Some(KEEP_BOTH), Some(via), Some(at))]
    else edges
  }

  /** The edge carries exactly the stamp that settling by `via` at `at` writes. */
  predicate StampedBy(e: Edge, via: string, at: real) {
    e.resolution == Some(KEEP_BOTH) && e.resolvedVia == Some(via) && e.resolvedAt == Some(at)
  }

  function Unsettled(edges: Edges, p: Ends, via: string, at: real): Edges {
    if p in edges && StampedBy(edges[p], via, at)
    then edges[p := WithResolution(edges[p], None, None, None)]
    else edges
  }

  /** Unsettling clears all three parts of exactly this stamp, and nothing else. */
  lemma UnsettledFields(edges: Edges, p: Ends, via: string, at: real)
    ensures var after := Unsettled(edges, p, via, at);
      && OnlyAt(edges, after, p)
      && (p in edges ==>
           && SameJudgement(edges[p], after[p]) && SameOrigin(edges[p], after[p])
           && if edges[p].resolution == Some("keep_both") && edges[p].resolvedVia == Some(via)
                 && edges[p].resolvedAt == Some(at)
              then after[p].resolution.None? && after[p].resolvedVia.None? && after[p].resolvedAt.None?
              else SameResolution(edges[p], after[p]))
  {
  }

  class Graph {
    var nodes: set<Hash>
    var contradicts: Edges

    method EnsureNode(hash: Hash)
      modifies this`nodes
      ensures nodes == old(nodes) + {hash}
    {
      nodes := nodes + {hash};
    }

    /** Deletes the node with every edge at it. */
    method DeleteNode(hash: Hash)
      modifies this
      ensures nodes == old(nodes) - {hash} && contradicts == Without(old(contradicts), hash)
    {
      nodes := nodes - {hash};
      contradicts := map p | p in contradicts && p.0 != hash && p.1 != hash :: contradicts[p];
    }

    method CreateEdge(src: Hash, dst: Hash, ts: real, confidence: Option<real>) returns (count: nat)
      modifies this`contradicts
      ensures var known := src in nodes && dst in nodes;
        && contradicts == (if known then Linked(old(contradicts), (src, dst), ts, confidence) else old(contradicts))
        && count == if known then 1 else 0
    {
      if src !in nodes || dst !in nodes { return 0; }
      if (src, dst) !in contradicts {
        contradicts := contradicts[(src, dst) :=
          Edge(ts, confidence, None, None, None, None, None, None, None, None, None, None)];
      }
      return 1;
    }

    method DeleteEdge(src: Hash, dst: Hash) returns (count: nat)
      modifies this`contradicts
      ensures contradicts == old(contradicts) - {(src, dst)}
      ensures count == if (src, dst) in old(contradicts) then 1 else 0
    {
      count := if (src, dst) in contradicts then 1 else 0;
      contradicts := contradicts - {(src, dst)};
    }

    method LinkRefutation(src: Hash, dst: Hash, ts: real, reason: string) returns (stored: Option<string>)
      modifies this`contradicts
      ensures var p := (src, dst); var known := src in nodes && dst in nodes;
        && contradicts == (if known then Refuted(old(contradicts), p, ts, reason) else old(contradicts))
        && (stored.Some? <==> known) && (known ==> stored == contradicts[p].refuteReason)
    {
      if src !in nodes || dst !in nodes { return None; }
      var p := (src, dst);
      if p !in contradicts {
        contradicts := contradicts[p := Edge(ts, None, None, None, None, None, None, None, None, None, None, None)];
      }
      if contradicts[p].refuteReason.None? {
        contradicts := contradicts[p := contradicts[p].(refuteReason := Some(reason))];
      }
      stored := contradicts[p].refuteReason;
    }

    method SetVerdict(src: Hash, dst: Hash, j: Judgement) returns (count: nat)
      modifies this`contradicts
      ensures contradicts == Judged(old(contradicts), (src, dst), j)
      ensures count == 1 ==> (src, dst) in contradicts && Carries(contradicts[(src, dst)], j)
      ensures count == if (src, dst) in old(contradicts) && MayJudge(old(contradicts)[(src, dst)], j) then 1 else 0
    {
      var p := (src, dst);
      if p !in contradicts { return 0; }
      var e := contradicts[p];
      if j.verdict == UNJUDGED && !(e.verdict.None? || e.verdict.value == UNJUDGED) { return 0; }
      contradicts := contradicts[p :=
        e.(verdict := Some(j.verdict), survivor := j.survivor, verdictReason := j.reason,
           verdictConfidence := j.confidence, verdictModel := j.model, judgedAt := j.judgedAt)];
      return 1;
    }

    method SetResolution(src: Hash, dst: Hash, resolution: Option<string>, via: string, at: real) returns (count: nat)
      modifies this`contradicts
      ensures contradicts == ResolutionSet(old(contradicts), (src, dst), resolution, via, at)
      ensures count == if (src, dst) in old(contradicts) then 1 else 0
    {
      var p := (src, dst);
      if p !in contradicts { return 0; }
      var stamp, who, when := resolution, Some(via), Some(at);
      if resolution.None? { who, when := None, None; }
      contradicts := contradicts[p := contradicts[p].(resolution := stamp, resolvedAt := when, resolvedVia := who)];
      return 1;
    }

    method Settle(src: Hash, dst: Hash, via: string, at: real) returns (count: nat)
      modifies this`contradicts
      ensures contradicts == Settled(old(contradicts), (src, dst), via, at)
      ensures count == if (src, dst) in old(contradicts) && old(contradicts)[(src, dst)].resolution.None? then 1 else 0
    {
      var p := (src, dst);
      if p !in contradicts || contradicts[p].resolution.Some? { return 0; }
      contradicts := contradicts[p :=
        contradicts[p].(resolution := Some(KEEP_BOTH), resolvedAt := Some(at), resolvedVia := Some(via))];
      return 1;
    }

    method Unsettle(src: Hash, dst: Hash, via: string, at: real) returns (count: nat)
      modifies this`contradicts
      ensures contradicts == Unsettled(old(contradicts), (src, dst), via, at)
      ensures count ==
        if (src, dst) in old(contradicts) && StampedBy(old(contradicts)[(src, dst)], via, at) then 1 else 0
    {
      var p := (src, dst);
      if p !in contradicts { return 0; }
      var e := contradicts[p];
      if e.resolution != Some(KEEP_BOTH) || e.resolvedVia != Some(via) || e.resolvedAt != Some(at) { return 0; }
      contradicts := contradicts[p := e.(resolution := None, resolvedAt := None, resolvedVia := None)];
      return 1;
    }
  }

  // ----- Taking back a settlement

  /** Unsettling takes back exactly what settling did, unless the edge already
      carried that very stamp, or who and when beside no resolution. */
  lemma UnsettleUndoes(edges: Edges, p: Ends, via: string, at: real)
    ensures Unsettled(Settled(edges, p, via, at), p, via, at) == edges <==>
      (p in edges ==>
        if edges[p].resolution.None? then edges[p].resolvedVia.None? && edges[p].resolvedAt.None?
        else !StampedBy(edges[p], via, at))
  {
    if p in edges {
      var there := Unsettled(Settled(edges, p, via, at), p, via, at);
      assert there[p] == edges[p] ==> there == edges;
    }
  }

  // ----- Runs of writes

  /** The memories the graph knows and the CONTRADICTS edges between them. */
  datatype Net = Net(nodes: set<Hash>, edges: Edges)

  datatype Write =
    | Ensure(node: Hash)
    | Detach(node: Hash)
    | Link(p: Ends, ts: real, confidence: Option<real>)
    | Unlink(p: Ends)
    | Refute(p: Ends, ts: real, reason: string)
    | Judge(p: Ends, judgement: Judgement)
    | Resolve(p: Ends, resolution: Option<string>, via: string, at: real)
    | Settle(p: Ends, via: string, at: real)
    | Unsettle(p: Ends, via: string, at: real)

  predicate Known(net: Net, p: Ends) { p.0 in net.nodes && p.1 in net.nodes }

  function Without(edges: Edges, node: Hash): Edges {
    map p | p in edges && p.0 != node && p.1 != node :: edges[p]
  }

  /** An edge is made between known nodes only, and goes with either of them;
      the other writes only match edges that are there. */
  function Apply(net: Net, w: Write): Net {
    match w
    case Ensure(node) => net.(nodes := net.nodes + {node})
    case Detach(node) => Net(net.nodes - {node}, Without(net.edges, node))
    case Link(p, ts, confidence) => if Known(net, p) then net.(edges := Linked(net.edges, p, ts, confidence)) else net
    case Unlink(p) => net.(edges := net.edges - {p})
    case Refute(p, ts, reason) => if Known(net, p) then net.(edges := Refuted(net.edges, p, ts, reason)) else net
    case Judge(p, j) => net.(edges := Judged(net.edges, p, j))
    case Resolve(p, resolution, via, at) => net.(edges := ResolutionSet(net.edges, p, resolution, via, at))
    case Settle(p, via, at) => net.(edges := Settled(net.edges, p, via, at))
    case Unsettle(p, via, at) => net.(edges := Unsettled(net.edges, p, via, at))
  }

  function Run(net: Net, writes: seq<Write>): Net {
    if writes == [] then net else Apply(Run(net, writes[..|writes| - 1]), writes[|writes| - 1])
  }

  /** Every edge hangs between nodes that are there. */
  predicate Attached(net: Net) { forall p | p in net.edges :: Known(net, p) }

  lemma AttachedStep(net: Net, w: Write)
    requires Attached(net)
    ensures Attached(Apply(net, w))
  {
  }

  /** The queries, one after another, leave the graph the run of their writes
      leaves. */
  method PerformAll(graph: Graph, writes: seq<Write>)
    requires Attached(Net(graph.nodes, graph.contradicts))
    modifies graph
    ensures Net(graph.nodes, graph.contradicts) == Run(old(Net(graph.nodes, graph.contradicts)), writes)
    ensures Attached(Net(graph.nodes, graph.contradicts))
  {
    hide Apply, Attached;
    for i := 0 to |writes|
      invariant Net(graph.nodes, graph.contradicts) == Run(old(Net(graph.nodes, graph.contradicts)), writes[..i])
      invariant Attached(Net(graph.nodes, graph.contradicts))
    {
      assert writes[..i + 1][..i] == writes[..i];
      AttachedStep(Net(graph.nodes, graph.contradicts), writes[i]);
      Perform(graph, writes[i]);
    }
    assert writes[..|writes|] == writes;
  }

  /** What every write leaves: which nodes and edges are there afterwards, and
      which part of which edge it touches. */
  lemma WriteTouches(net: Net, w: Write, k: Ends)
    ensures var after := Apply(net, w);
      && (forall n :: n in after.nodes <==> w == Ensure(n) || (n in net.nodes && w != Detach(n)))
      && (k in after.edges <==>
           || (k in net.edges && w != Unlink(k) && w != Detach(k.0) && w != Detach(k.1))
           || ((w.Link? || w.Refute?) && w.p == k && k.0 in net.nodes && k.1 in net.nodes))
      && (k in after.edges && k in net.edges ==>
           var e, f := net.edges[k], after.edges[k];
           && f.createdAt == e.createdAt && f.confidence == e.confidence
           && (!(w.Refute? && w.p == k) ==> f.refuteReason == e.refuteReason)
           && (!(w.Judge? && w.p == k) ==> SameJudgement(e, f))
           && (!((w.Resolve? || w.Settle? || w.Unsettle?) && w.p == k) ==> SameResolution(e, f)))
  {
    hide Linked, Refuted;
    if w.Link? || w.Refute? {
      LinkTouches(net, w, k);
    } else {
      hide SameJudgement, SameResolution;
      PartsTouched(net, w, k);
    }
  }

  lemma PartsTouched(net: Net, w: Write, k: Ends)
    requires !w.Link? && !w.Refute?
    ensures var after := Apply(net, w);
      k in after.edges ==>
        && k in net.edges
        && var e, f := net.edges[k], after.edges[k];
           && f.createdAt == e.createdAt && f.confidence == e.confidence && f.refuteReason == e.refuteReason
           && (!(w.Judge? && w.p == k) ==> SameJudgement(e, f))
           && (!((w.Resolve? || w.Settle? || w.Unsettle?) && w.p == k) ==> SameResolution(e, f))
  {
  }

  lemma LinkTouches(net: Net, w: Write, k: Ends)
    ensures match w
            case Link(p, ts, confidence) => var l := Linked(net.edges, p, ts, confidence);
              (k in l <==> k in net.edges || k == p) && (k in net.edges ==> l[k] == net.edges[k])
            case Refute(p, ts, reason) => var r := Refuted(net.edges, p, ts, reason);
              (k in r <==> k in net.edges || k == p)
              && (k in net.edges ==> r[k] == net.edges[k].(refuteReason := r[k].refuteReason))
              && (k in net.edges && k != p ==> r[k] == net.edges[k])
            case _ => true
  {
  }

  /** And what it leaves where it touches: the judgement's parts, the operator's
      resolution, the stamp, or nothing in its place. */
  lemma WriteLeaves(net: Net, w: Write)
    requires w.Judge? || w.Resolve? || w.Settle? || w.Unsettle?
    requires w.p in net.edges
    ensures var e, f := net.edges[w.p], Apply(net, w).edges[w.p];
      match w
      case Judge(_, j) =>
        if j.verdict == "unjudged" && e.verdict.Some? && e.verdict != Some("unjudged") then SameJudgement(e, f)
        else Carries(f, j)
      case Resolve(_, resolution, via, at) =>
        && f.resolution == resolution
        && f.resolvedVia == (if resolution.Some? then Some(via) else None)
        && f.resolvedAt == (if resolution.Some? then Some(at) else None)
      case Settle(_, via, at) =>
        if e.resolution.Some? then SameResolution(e, f)
        else f.resolution == Some("keep_both") && f.resolvedVia == Some(via) && f.resolvedAt == Some(at)
      case Unsettle(_, via, at) =>
        if e.resolution == Some("keep_both") && e.resolvedVia == Some(via) && e.resolvedAt == Some(at)
        then f.resolution.None? && f.resolvedVia.None? && f.resolvedAt.None?
        else SameResolution(e, f)
  {
  }

  method Perform(graph: Graph, w: Write)
    modifies graph
    ensures Net(graph.nodes, graph.contradicts) == Apply(old(Net(graph.nodes, graph.contradicts)), w)
  {
    hide Linked, Refuted, Judged, ResolutionSet, Settled, Unsettled, Without;
    match w
    case Ensure(node) => graph.EnsureNode(node);
    case Detach(node) => graph.DeleteNode(node);
    case Link(p, ts, confidence) => var _ := graph.CreateEdge(p.0, p.1, ts, confidence);
    case Unlink(p) => var _ := graph.DeleteEdge(p.0, p.1);
    case Refute(p, ts, reason) => var _ := graph.LinkRefutation(p.0, p.1, ts, reason);
    case Judge(p, j) => var _ := graph.SetVerdict(p.0, p.1, j);
    case Resolve(p, resolution, via, at) => var _ := graph.SetResolution(p.0, p.1, resolution, via, at);
    case Settle(p, via, at) => var _ := graph.Settle(p.0, p.1, via, at);
    case Unsettle(p, via, at) => var _ := graph.Unsettle(p.0, p.1, via, at);
  }

  predicate HasVerdict(edges: Edges, p: Ends) {
    p in edges && edges[p].verdict.Some? && edges[p].verdict.value != UNJUDGED
  }

  /** `w` takes the edge away, with all it carries. */
  predicate Removes(w: Write, p: Ends) {
    w == Unlink(p) || (w.Detach? && w.node in {p.0, p.1})
  }

  /** While its edge is not removed, a verdict once reached is only ever
      replaced by another verdict, and the first refute's reason stays the
      record. */
  lemma {:induction false} VerdictsStay(net: Net, writes: seq<Write>, p: Ends)
    requires p in net.edges && forall w | w in writes :: !Removes(w, p)
    ensures var edges, after := net.edges, Run(net, writes).edges;
      && p in after && (HasVerdict(edges, p) ==> HasVerdict(after, p))
      && (edges[p].refuteReason.Some? ==> after[p].refuteReason == edges[p].refuteReason)
      && after[p].createdAt == edges[p].createdAt
  {
    hide Apply;
    if writes != [] {
      var n := |writes| - 1;
      VerdictsStay(net, writes[..n], p);
      assert writes[n] in writes;
      VerdictStep(Run(net, writes[..n]), writes[n], p);
    }
  }

  lemma VerdictStep(net: Net, w: Write, p: Ends)
    requires p in net.edges && !Removes(w, p)
    ensures var edges, after := net.edges, Apply(net, w).edges;
      && p in after && (HasVerdict(edges, p) ==> HasVerdict(after, p))
      && (edges[p].refuteReason.Some? ==> after[p].refuteReason == edges[p].refuteReason)
      && after[p].createdAt == edges[p].createdAt
  {
  }

  /** The write at `i` put a verdict on the edge, which was there, and nothing
      removed the edge since. */
  predicate JudgedAt(net: Net, writes: seq<Write>, p: Ends, i: nat)
    requires i < |writes|
  {
    && Verdicts(writes[i], p) && p in Run(net, writes[..i]).edges
    && forall j | i < j < |writes| :: !Removes(writes[j], p)
  }

  /** A judgement of `p` that is more than a failure marker. */
  predicate Verdicts(w: Write, p: Ends) { w.Judge? && w.p == p && w.judgement.verdict != UNJUDGED }

  /** Exactly when a pair carries a verdict: it did before the run and was never
      removed, or some judgement found its edge and nothing removed it since. A
      removed edge, made again, starts without one. */
  lemma {:induction false} VerdictIff(net: Net, writes: seq<Write>, p: Ends)
    ensures HasVerdict(Run(net, writes).edges, p) <==>
      || (HasVerdict(net.edges, p) && forall w | w in writes :: !Removes(w, p))
      || exists i | 0 <= i < |writes| :: JudgedAt(net, writes, p, i)
  {
    hide Apply, HasVerdict, Verdicts, Removes;
    if writes != [] {
      var n := |writes| - 1;
      VerdictIff(net, writes[..n], p);
      VerdictIffStep(Run(net, writes[..n]), writes[n], p);
      assert writes == writes[..n] + [writes[n]];
      assert (forall w | w in writes :: !Removes(w, p)) <==>
             (forall w | w in writes[..n] :: !Removes(w, p)) && !Removes(writes[n], p);
      JudgedNext(net, writes, p);
    }
  }

  lemma VerdictIffStep(net: Net, w: Write, p: Ends)
    ensures HasVerdict(Apply(net, w).edges, p) <==>
      (HasVerdict(net.edges, p) && !Removes(w, p)) || (Verdicts(w, p) && p in net.edges)
  {
  }

  lemma JudgedNext(net: Net, writes: seq<Write>, p: Ends)
    requires writes != []
    ensures var n := |writes| - 1;
      (exists i | 0 <= i < |writes| :: JudgedAt(net, writes, p, i)) <==>
        || (Verdicts(writes[n], p) && p in Run(net, writes[..n]).edges)
        || (!Removes(writes[n], p) && exists i | 0 <= i < n :: JudgedAt(net, writes[..n], p, i))
  {
    hide Run, Verdicts, Removes;
    var n := |writes| - 1;
    forall i | 0 <= i < n
      ensures JudgedAt(net, writes, p, i) <==> !Removes(writes[n], p) && JudgedAt(net, writes[..n], p, i)
    {
      assert writes[..n][..i] == writes[..i];
      assert forall j | i < j < n :: writes[..n][j] == writes[j];
    }
    assert JudgedAt(net, writes, p, n) <==> Verdicts(writes[n], p) && p in Run(net, writes[..n]).edges;
  }

  /** A judgement that finds the edge and is let stand. */
  predicate TakesEffect(edges: Edges, w: Write, p: Ends) {
    && w.Judge? && w.p == p && p in edges
    && (w.judgement.verdict != "unjudged" || !HasVerdict(edges, p))
  }

  predicate TookEffect(net: Net, writes: seq<Write>, p: Ends, i: nat)
    requires i < |writes|
  {
    TakesEffect(Run(net, writes[..i]).edges, writes[i], p)
  }

  /** The last judgement to take effect, on the edge as it is now. */
  predicate LastJudged(net: Net, writes: seq<Write>, p: Ends, i: nat)
    requires i < |writes|
  {
    && TookEffect(net, writes, p, i)
    && forall j | i < j < |writes| :: !Removes(writes[j], p) && !TookEffect(net, writes, p, j)
  }

  predicate Kept(writes: seq<Write>, p: Ends) { forall w | w in writes :: !Removes(w, p) }

  /** What an edge's judgement is after a run. */
  ghost predicate JudgementIs(net: Net, writes: seq<Write>, p: Ends, e: Edge) {
    && (forall i | 0 <= i < |writes| && LastJudged(net, writes, p, i) :: Carries(e, writes[i].judgement))
    && ((forall i | 0 <= i < |writes| :: !LastJudged(net, writes, p, i)) ==>
         if p in net.edges && Kept(writes, p) then SameJudgement(net.edges[p], e) else Unjudged(e))
  }

  /** Over every run the parts of an edge's judgement belong together: they are
      those of the last judgement that took effect on it since it was made, or,
      when none did, what it had before the run, or nothing on an edge made
      since. */
  lemma {:induction false} LastJudgementWhole(net: Net, writes: seq<Write>, p: Ends)
    ensures p in Run(net, writes).edges ==> JudgementIs(net, writes, p, Run(net, writes).edges[p])
  {
    if writes != [] {
      var n := |writes| - 1;
      LastJudgementWhole(net, writes[..n], p);
      var before, after := Run(net, writes[..n]), Run(net, writes);
      if p in after.edges {
        JudgementStep(before, writes[n], p);
        LastJudgedNext(net, writes, p);
        KeptNext(writes, p);
        if p !in before.edges { NoneBefore(net, writes[..n], p); }
        JudgementNext(net, writes, p, before.edges, after.edges);
      }
    }
  }

  lemma JudgementNext(net: Net, writes: seq<Write>, p: Ends, before: Edges, after: Edges)
    requires writes != [] && p in after && before == Run(net, writes[..|writes| - 1]).edges
    requires p in before ==> JudgementIs(net, writes[..|writes| - 1], p, before[p])
    requires var n := |writes| - 1;
      && !Removes(writes[n], p) && Judgement1(before, after, writes[n], p)
      && (LastJudged(net, writes, p, n) <==> TookEffect(net, writes, p, n))
      && (forall i | 0 <= i < n ::
           LastJudged(net, writes, p, i) <==> LastJudged(net, writes[..n], p, i) && !TookEffect(net, writes, p, n))
      && (Kept(writes, p) <==> Kept(writes[..n], p))
      && (p !in before ==> !(p in net.edges && Kept(writes[..n], p))
                           && forall i | 0 <= i < n :: !LastJudged(net, writes[..n], p, i))
    ensures JudgementIs(net, writes, p, after[p])
  {
    hide Run, Removes, Kept, Carries, SameJudgement, Unjudged;
    var n := |writes| - 1;
    assert TookEffect(net, writes, p, n) <==> TakesEffect(before, writes[n], p);
    forall i | 0 <= i < |writes| && LastJudged(net, writes, p, i) ensures Carries(after[p], writes[i].judgement) {
      if i < n {
        assert LastJudged(net, writes[..n], p, i) && writes[..n][i] == writes[i];
        assert Carries(before[p], writes[..n][i].judgement);
      }
    }
    if forall i | 0 <= i < |writes| :: !LastJudged(net, writes, p, i) {
      assert !TookEffect(net, writes, p, n);
      assert forall i | 0 <= i < n :: !LastJudged(net, writes[..n], p, i);
    }
  }

  lemma KeptNext(writes: seq<Write>, p: Ends)
    requires writes != []
    ensures Kept(writes, p) <==> Kept(writes[..|writes| - 1], p) && !Removes(writes[|writes| - 1], p)
  {
    hide Removes;
    assert writes == writes[..|writes| - 1] + [writes[|writes| - 1]];
  }

  /** An edge that is not there was not judged since, nor kept. */
  lemma {:induction false} NoneBefore(net: Net, writes: seq<Write>, p: Ends)
    requires p !in Run(net, writes).edges
    ensures !(p in net.edges && Kept(writes, p))
    ensures forall i | 0 <= i < |writes| :: !LastJudged(net, writes, p, i)
  {
    hide Apply, LastJudged;
    if p in net.edges && Kept(writes, p) { VerdictsStay(net, writes, p); }
    if writes != [] {
      var n := |writes| - 1;
      LastJudgedNext(net, writes, p);
      JudgementStep(Run(net, writes[..n]), writes[n], p);
      if p !in Run(net, writes[..n]).edges { NoneBefore(net, writes[..n], p); }
      assert !TookEffect(net, writes, p, n) && forall i | 0 <= i < n :: !LastJudged(net, writes, p, i);
    }
  }

  /** What one write makes of an edge's judgement, the edge being there. */
  ghost predicate Judgement1(edges: Edges, after: Edges, w: Write, p: Ends)
    requires p in after
  {
    if p !in edges then Unjudged(after[p])
    else if TakesEffect(edges, w, p) then Carries(after[p], w.judgement)
    else
      && (forall j | Carries(edges[p], j) :: Carries(after[p], j))
      && (forall e | SameJudgement(e, edges[p]) :: SameJudgement(e, after[p]))
      && (Unjudged(edges[p]) ==> Unjudged(after[p]))
  }

  lemma JudgementStep(net: Net, w: Write, p: Ends)
    ensures p in Apply(net, w).edges ==> Judgement1(net.edges, Apply(net, w).edges, w, p)
    ensures p in net.edges ==> (p in Apply(net, w).edges <==> !Removes(w, p))
    ensures Removes(w, p) ==> p !in Apply(net, w).edges
  {
    if w.Judge? { JudgedFields(net.edges, w.p, w.judgement); }
    if w.Link? { LinkedFields(net.edges, w.p, w.ts, w.confidence, ""); }
    if w.Refute? { LinkedFields(net.edges, w.p, w.ts, None, w.reason); }
    hide Judged, Linked, Refuted;
  }

  lemma LastJudgedNext(net: Net, writes: seq<Write>, p: Ends)
    requires writes != []
    ensures var n := |writes| - 1;
      && (LastJudged(net, writes, p, n) <==> TookEffect(net, writes, p, n))
      && forall i | 0 <= i < n ::
           LastJudged(net, writes, p, i) <==>
             LastJudged(net, writes[..n], p, i) && !Removes(writes[n], p) && !TookEffect(net, writes, p, n)
  {
    hide Run, HasVerdict, Removes;
    var n := |writes| - 1;
    forall i | 0 <= i < n ensures TookEffect(net, writes[..n], p, i) <==> TookEffect(net, writes, p, i) {
      assert writes[..n][..i] == writes[..i];
    }
    hide TookEffect;
    assert forall j | 0 <= j < n :: writes[..n][j] == writes[j];
  }

  /** `w` could take the stamp `via`, `at` off `p`: an operator's call on that
      edge, the unsettling of exactly that stamp, or the edge's removal. */
  predicate Clears(w: Write, p: Ends, via: string, at: real) {
    (w.Resolve? && w.p == p) || w == Unsettle(p, via, at) || Removes(w, p)
  }

  lemma {:induction false} StampStays(net: Net, writes: seq<Write>, p: Ends, via: string, at: real)
    requires p in net.edges && StampedBy(net.edges[p], via, at)
    requires forall w | w in writes :: !Clears(w, p, via, at)
    ensures p in Run(net, writes).edges && StampedBy(Run(net, writes).edges[p], via, at)
  {
    hide Apply;
    if writes != [] {
      var n := |writes| - 1;
      StampStays(net, writes[..n], p, via, at);
      assert !Clears(writes[n], p, via, at);
      StampStep(Run(net, writes[..n]), writes[n], p, via, at);
    }
  }

  lemma StampStep(net: Net, w: Write, p: Ends, via: string, at: real)
    requires p in net.edges && StampedBy(net.edges[p], via, at) && !Clears(w, p, via, at)
    ensures p in Apply(net, w).edges && StampedBy(Apply(net, w).edges[p], via, at)
  {
  }

  /** A settled pair is in no page of the default queue, in either direction,
      whatever is judged, refuted, settled or detected again since: an edge
      filed the other way round later included. */
  lemma SettledStaysOut(net: Net, writes: seq<Write>, supersedes: set<Ends>, p: Ends, via: string, at: real, q: Query)
    requires p in net.edges && net.edges[p].resolution.None? && q.excludeResolved
    requires forall w | w in writes :: !Clears(w, p, via, at)
    ensures var after := Run(Apply(net, Settle(p, via, at)), writes).edges;
      p !in Matching(after, supersedes, q) && Reverse(p) !in Matching(after, supersedes, q)
  {
    StampStays(Apply(net, Settle(p, via, at)), writes, p, via, at);
    hide Run;
    var after := Run(Apply(net, Settle(p, via, at)), writes).edges;
    assert Reverse(Reverse(p)) == p;
    assert Reverse(p) in after ==> ReverseStamped(after, Reverse(p));
  }
}
