// The pages of the contradictions queue: what SKIP and LIMIT show a caller who
// reads page after page while the graph stands still, grows or shrinks.

module QueuePages {
  import opened Strings
  import opened Contradictions

  // ----- Pages

  /** `ORDER BY e.created_at DESC, a.content_hash, b.content_hash`. */
  predicate Before(edges: Edges, p: Ends, q: Ends)
    requires p in edges && q in edges
  {
    || edges[p].createdAt > edges[q].createdAt
    || (edges[p].createdAt == edges[q].createdAt && (StrLess(p.0, q.0) || (p.0 == q.0 && StrLess(p.1, q.1))))
  }

  lemma BeforeTotal(edges: Edges, p: Ends, q: Ends)
    requires p in edges && q in edges
    ensures p == q || Before(edges, p, q) || Before(edges, q, p)
    ensures !(Before(edges, p, q) && Before(edges, q, p)) && !Before(edges, p, p)
  {
    StrLessTotal(p.0, q.0);
    StrLessTotal(p.1, q.1);
    StrLessTotal(p.0, p.0);
    StrLessTotal(p.1, p.1);
  }

  /** `order` lists `matching` in the query's order. */
  predicate Ranks(edges: Edges, order: seq<Ends>, matching: set<Ends>) {
    && (forall p | p in order :: p in edges)
    && (forall p | p in order :: p in matching)
    && (forall p | p in matching :: p in order)
    && forall i, j | 0 <= i < j < |order| :: Before(edges, order[i], order[j])
  }

  /** The tiebreak on the pair leaves the database one order only. */
  lemma {:induction false} OneRanking(edges: Edges, order: seq<Ends>, other: seq<Ends>, matching: set<Ends>)
    requires Ranks(edges, order, matching) && Ranks(edges, other, matching)
    ensures order == other
    decreases |order|
  {
    if order == [] {
      assert matching == {};
      if other != [] { FirstIn(other); }
    } else {
      assert order[0] in matching;
      SameFirst(edges, order, other, matching);
      WithoutFirst(edges, order, matching);
      WithoutFirst(edges, other, matching);
      OneRanking(edges, order[1..], other[1..], matching - {order[0]});
      assert order == [order[0]] + order[1..] && other == [other[0]] + other[1..];
    }
  }

  lemma FirstIn(xs: seq<Ends>)
    requires xs != []
    ensures xs[0] in xs
  {
  }

  lemma SameFirst(edges: Edges, order: seq<Ends>, other: seq<Ends>, matching: set<Ends>)
    requires Ranks(edges, order, matching) && Ranks(edges, other, matching) && order != []
    ensures other != [] && order[0] == other[0]
  {
    assert order[0] in matching;
    var j :| 0 <= j < |other| && other[j] == order[0];
    assert other[0] in matching;
    var i :| 0 <= i < |order| && order[i] == other[0];
    BeforeTotal(edges, order[0], other[0]);
  }

  lemma WithoutFirst(edges: Edges, order: seq<Ends>, matching: set<Ends>)
    requires Ranks(edges, order, matching) && order != []
    ensures Ranks(edges, order[1..], matching - {order[0]})
  {
    var rest := order[1..];
    forall p | p in rest ensures p in matching && p != order[0] {
      var i :| 0 <= i < |rest| && rest[i] == p;
      assert Before(edges, order[0], order[i + 1]);
      BeforeTotal(edges, order[0], order[0]);
    }
    forall p | p in matching && p != order[0] ensures p in rest {
      var i :| 0 <= i < |order| && order[i] == p;
      assert rest[i - 1] == p;
    }
    forall i, j | 0 <= i < j < |rest| ensures Before(edges, rest[i], rest[j]) {
      assert Before(edges, order[i + 1], order[j + 1]);
    }
  }

  /** The queue is newest first, and among edges of one age ascending by the
      first hash, then the second. */
  lemma NewestFirst(edges: Edges, order: seq<Ends>, matching: set<Ends>, i: nat, j: nat)
    requires Ranks(edges, order, matching) && i < j < |order|
    ensures var (a, b), (c, d) := order[i], order[j];
      && edges[order[i]].createdAt >= edges[order[j]].createdAt
      && (edges[order[i]].createdAt == edges[order[j]].createdAt ==>
           if a == c then exists k :: FirstDifference(b, d, k) else exists k :: FirstDifference(a, c, k))
  {
    assert Before(edges, order[i], order[j]);
    StrLessIff(order[i].0, order[j].0);
    StrLessIff(order[i].1, order[j].1);
    StrLessTotal(order[i].0, order[i].0);
  }

  const MAX_LIMIT: nat := 500

  function Clamped(limit: nat): nat {
    if limit < 1 then 1 else if limit > MAX_LIMIT then MAX_LIMIT else limit
  }

  function Min(a: nat, b: nat): nat { if a < b then a else b }

  /** What SKIP and LIMIT leave of a listing. */
  function Cut(order: seq<Ends>, skip: nat, limit: nat): seq<Ends> {
    var from := Min(skip, |order|);
    order[from..Min(from + limit, |order|)]
  }

  /** One answer: some listing in the query's order, cut. */
  ghost predicate Answers(edges: Edges, supersedes: set<Ends>, q: Query, rows: seq<Ends>) {
    exists order | Ranks(edges, order, Matching(edges, supersedes, q)) :: rows == Cut(order, q.skip, Clamped(q.limit))
  }

  /** A page holds what is left after `skip`, up to the limit, which is at least
      1 and at most 500. */
  lemma PageLength(edges: Edges, supersedes: set<Ends>, q: Query, order: seq<Ends>, rows: seq<Ends>)
    requires Ranks(edges, order, Matching(edges, supersedes, q)) && Answers(edges, supersedes, q, rows)
    ensures var left := if q.skip < |order| then |order| - q.skip else 0;
      var most := if q.limit == 0 then 1 else if q.limit > 500 then 500 else q.limit;
      |rows| == if left < most then left else most
  {
    hide Ranks, Matching;
    var other :| Ranks(edges, other, Matching(edges, supersedes, q)) && rows == Cut(other, q.skip, Clamped(q.limit));
    OneRanking(edges, order, other, Matching(edges, supersedes, q));
  }

  function Flattened(pages: seq<seq<Ends>>): seq<Ends> {
    if pages == [] then [] else Flattened(pages[..|pages| - 1]) + pages[|pages| - 1]
  }

  /** Paging over an unchanged graph, each page skipping what the pages before
      it could hold, neither repeats nor drops a matching edge: the pages are
      consecutive stretches of the one ranking. */
  lemma {:induction false} PagesJoin(edges: Edges, supersedes: set<Ends>, q: Query, pages: seq<seq<Ends>>,
                                     order: seq<Ends>)
    requires Ranks(edges, order, Matching(edges, supersedes, q))
    requires forall i | 0 <= i < |pages| ::
      Answers(edges, supersedes, q.(skip := i * Clamped(q.limit)), pages[i])
    ensures Flattened(pages) == Cut(order, 0, |pages| * Clamped(q.limit))
  {
    hide Ranks, Matching, Answers, Clamped, Cut;
    if pages == [] {
      CutsMeet(order, 0, 0);
    } else {
      var n := |pages| - 1;
      PagesJoin(edges, supersedes, q, pages[..n], order);
      PageIs(edges, supersedes, q, n * Clamped(q.limit), pages[n], order);
      CutsMeet(order, n * Clamped(q.limit), Clamped(q.limit));
      assert (n + 1) * Clamped(q.limit) == n * Clamped(q.limit) + Clamped(q.limit);
    }
  }

  lemma CutsMeet(order: seq<Ends>, skip: nat, limit: nat)
    ensures Cut(order, 0, skip) + Cut(order, skip, limit) == Cut(order, 0, skip + limit)
    ensures Cut(order, 0, 0) == []
  {
  }

  lemma PageIs(edges: Edges, supersedes: set<Ends>, q: Query, skip: nat, rows: seq<Ends>, order: seq<Ends>)
    requires Ranks(edges, order, Matching(edges, supersedes, q))
    requires Answers(edges, supersedes, q.(skip := skip), rows)
    ensures rows == Cut(order, skip, Clamped(q.limit))
  {
    hide Ranks, Cut, Clamped;
    SkipNoMatter(edges, supersedes, q, skip);
    var other :| Ranks(edges, other, Matching(edges, supersedes, q.(skip := skip)))
      && rows == Cut(other, skip, Clamped(q.limit));
    OneRanking(edges, order, other, Matching(edges, supersedes, q));
  }

  lemma SkipNoMatter(edges: Edges, supersedes: set<Ends>, q: Query, skip: nat)
    ensures Matching(edges, supersedes, q.(skip := skip)) == Matching(edges, supersedes, q)
  {
    hide Resolved, ReverseStamped;
  }

  // ----- Pages of a graph that changes meanwhile

  /** The graph as one page's query finds it. */
  datatype Snapshot = Snapshot(edges: Edges, supersedes: set<Ends>)

  function Found(at: Snapshot, q: Query): set<Ends> { Matching(at.edges, at.supersedes, q) }

  /** Each page's query skips what the pages before it could hold. */
  ghost predicate PagesOf(at: seq<Snapshot>, q: Query, pages: seq<seq<Ends>>) {
    && |pages| == |at|
    && forall i | 0 <= i < |at| :: Answers(at[i].edges, at[i].supersedes, q.(skip := i * Clamped(q.limit)), pages[i])
  }

  /** How many matching edges come before `p`. */
  ghost function Rank(edges: Edges, matching: set<Ends>, p: Ends): nat {
    |set e | e in matching && e in edges && p in edges && Before(edges, e, p)|
  }

  lemma FoundEdges(at: Snapshot, q: Query)
    ensures Found(at, q) <= at.edges.Keys
  {
  }

  lemma {:induction false} RankIsIndex(edges: Edges, order: seq<Ends>, matching: set<Ends>, i: nat)
    requires Ranks(edges, order, matching) && i < |order|
    ensures matching <= edges.Keys && Rank(edges, matching, order[i]) == i
  {
    var before := set e | e in matching && e in edges && order[i] in edges && Before(edges, e, order[i]);
    forall e ensures e in before <==> e in order[..i] {
      if e in before {
        var j :| 0 <= j < |order| && order[j] == e;
        BeforeTotal(edges, e, order[i]);
        assert j < i && order[..i][j] == e;
      }
      if e in order[..i] {
        var j :| 0 <= j < i && order[..i][j] == e;
        assert order[j] in matching;
      }
    }
    DistinctCount(edges, order[..i]);
    assert before == set e | e in order[..i];
  }

  lemma {:induction false} DistinctCount(edges: Edges, xs: seq<Ends>)
    requires (forall p | p in xs :: p in edges) && forall i, j | 0 <= i < j < |xs| :: Before(edges, xs[i], xs[j])
    ensures |set e | e in xs| == |xs|
  {
    if xs != [] {
      var n := |xs| - 1;
      DistinctCount(edges, xs[..n]);
      if xs[n] in xs[..n] {
        var i :| 0 <= i < n && xs[..n][i] == xs[n];
        BeforeTotal(edges, xs[i], xs[n]);
      }
      assert (set e | e in xs) == (set e | e in xs[..n]) + {xs[n]};
    }
  }

  /** A page shows a matching edge exactly when its rank falls in the page. */
  lemma OnPage(at: Snapshot, q: Query, skip: nat, rows: seq<Ends>, p: Ends)
    requires Answers(at.edges, at.supersedes, q.(skip := skip), rows)
    ensures Found(at, q) <= at.edges.Keys
    ensures p in rows ==> p in Found(at, q)
    ensures p in Found(at, q) ==>
      (p in rows <==> skip <= Rank(at.edges, Found(at, q), p) < skip + Clamped(q.limit))
    ensures p in Found(at, q) && |rows| < Clamped(q.limit) ==>
      Rank(at.edges, Found(at, q), p) < skip + Clamped(q.limit)
  {
    hide Ranks, Selected, Rank, Clamped;
    SkipNoMatter(at.edges, at.supersedes, q, skip);
    var order :| Ranks(at.edges, order, Matching(at.edges, at.supersedes, q.(skip := skip)))
      && rows == Cut(order, skip, Clamped(q.limit));
    Listed(at.edges, order, Found(at, q), p);
    if p in Found(at, q) {
      var i :| 0 <= i < |order| && order[i] == p;
      RankIsIndex(at.edges, order, Found(at, q), i);
      if skip <= i < skip + Clamped(q.limit) { assert rows[i - skip] == p; }
      if p in rows {
        var j :| 0 <= j < |rows| && rows[j] == p;
        RankIsIndex(at.edges, order, Found(at, q), skip + j);
      }
    }
  }

  lemma Listed(edges: Edges, order: seq<Ends>, matching: set<Ends>, p: Ends)
    requires Ranks(edges, order, matching)
    ensures p in order <==> p in matching
  {
  }

  /** The edges stay as old as they were. */
  predicate SameDates(from: Edges, to: Edges) {
    forall p | p in from && p in to :: from[p].createdAt == to[p].createdAt
  }

  lemma RankGrows(few: Edges, fewer: set<Ends>, many: Edges, more: set<Ends>, p: Ends)
    requires fewer <= few.Keys && more <= many.Keys && fewer <= more && p in fewer && SameDates(few, many)
    ensures Rank(few, fewer, p) <= Rank(many, more, p)
  {
    var a := set e | e in fewer && e in few && p in few && Before(few, e, p);
    var b := set e | e in more && e in many && p in many && Before(many, e, p);
    assert a <= b;
    SubsetCount(a, b);
  }

  lemma SubsetCount(a: set<Ends>, b: set<Ends>)
    requires a <= b
    ensures |a| <= |b|
  {
    assert b == a + (b - a);
  }

  predicate Growing(at: seq<Snapshot>, q: Query) {
    forall i | 0 < i < |at| :: Found(at[i - 1], q) <= Found(at[i], q) && SameDates(at[i - 1].edges, at[i].edges)
  }

  predicate Shrinking(at: seq<Snapshot>, q: Query) {
    forall i | 0 < i < |at| :: Found(at[i], q) <= Found(at[i - 1], q) && SameDates(at[i].edges, at[i - 1].edges)
  }

  /** While edges only join the queue, an edge matching from the start is not
      passed over: a caller who reads until a page is not full has seen it. */
  lemma GrowingDropsNone(at: seq<Snapshot>, q: Query, pages: seq<seq<Ends>>, p: Ends)
    requires at != [] && PagesOf(at, q, pages) && Growing(at, q) && p in Found(at[0], q)
    requires |pages[|pages| - 1]| < Clamped(q.limit)
    ensures exists i | 0 <= i < |pages| :: p in pages[i]
  {
    hide Found, Answers, Clamped, Rank;
    if forall i | 0 <= i < |pages| :: p !in pages[i] {
      var n := |at| - 1;
      StillAhead(at, q, pages, p, n);
      OnPage(at[n], q, n * Clamped(q.limit), pages[n], p);
    }
  }

  lemma {:induction false} StillAhead(at: seq<Snapshot>, q: Query, pages: seq<seq<Ends>>, p: Ends, n: nat)
    requires n < |at| && PagesOf(at, q, pages) && Growing(at, q) && p in Found(at[0], q)
    requires forall i | 0 <= i <= n :: p !in pages[i]
    ensures p in Found(at[n], q)
    ensures Rank(at[n].edges, Found(at[n], q), p) >= (n + 1) * Clamped(q.limit)
  {
    hide Found, Answers, Clamped, Rank, SameDates;
    OnPage(at[n], q, n * Clamped(q.limit), pages[n], p);
    Next(n, Clamped(q.limit));
    if n > 0 {
      StillAhead(at, q, pages, p, n - 1);
      FoundEdges(at[n - 1], q);
      FoundEdges(at[n], q);
      RankGrows(at[n - 1].edges, Found(at[n - 1], q), at[n].edges, Found(at[n], q), p);
    }
  }

  lemma Next(n: nat, limit: nat)
    ensures (n + 1) * limit == n * limit + limit
  {
  }

  /** While edges only leave the queue, no edge is shown twice. */
  lemma ShrinkingRepeatsNone(at: seq<Snapshot>, q: Query, pages: seq<seq<Ends>>, i: nat, j: nat, p: Ends)
    requires PagesOf(at, q, pages) && Shrinking(at, q) && i < j < |pages| && p in pages[i]
    ensures p !in pages[j]
  {
    hide Found, Answers, Clamped, Rank;
    OnPage(at[i], q, i * Clamped(q.limit), pages[i], p);
    OnPage(at[j], q, j * Clamped(q.limit), pages[j], p);
    Next(i, Clamped(q.limit));
    if p in pages[j] {
      RankFalls(at, q, p, i, j);
      Further(i + 1, j, Clamped(q.limit));
    }
  }

  lemma Further(a: nat, b: nat, limit: nat)
    requires a <= b
    ensures a * limit <= b * limit
  {
  }

  lemma {:induction false} RankFalls(at: seq<Snapshot>, q: Query, p: Ends, i: nat, j: nat)
    requires Shrinking(at, q) && i <= j < |at| && p in Found(at[j], q)
    ensures p in Found(at[i], q) && Rank(at[j].edges, Found(at[j], q), p) <= Rank(at[i].edges, Found(at[i], q), p)
    decreases j
  {
    hide Found, Rank, SameDates;
    if i < j {
      FoundEdges(at[j], q);
      FoundEdges(at[j - 1], q);
      RankGrows(at[j].edges, Found(at[j], q), at[j - 1].edges, Found(at[j - 1], q), p);
      RankFalls(at, q, p, i, j - 1);
    }
  }
}
