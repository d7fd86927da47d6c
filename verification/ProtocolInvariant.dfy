// The invariant of the compare-and-set protocol and its proof: every step of
// every call keeps it.

module ProtocolInvariant {
  import opened Wrappers
  import opened Json
  import opened Revision
  import opened Payload
  import opened Lifecycle
  import opened Protocol

  function Tokens(cs: seq<Commit>): seq<Token> {
    seq(|cs|, i requires 0 <= i < |cs| => cs[i].token)
  }

  function RevOf(ts: seq<Token>): Option<Token> {
    if ts == [] then None else Some(ts[|ts| - 1])
  }

  /** The operations applied over the life's base payload. */
  function Ops(life: Life): seq<Op> {
    var cs := if life.inserted && life.commits != [] then life.commits[1..] else life.commits;
    seq(|cs|, i requires 0 <= i < |cs| => cs[i].op)
  }

  /** No two writes of a life carry one token. */
  predicate Distinct(cs: seq<Commit>) {
    forall i, j | 0 <= i < j < |cs| :: cs[i].token != cs[j].token
  }

  // ----- Qdrant's side

  /** `p` is a copy of the point as some write, or the time before revisions,
      left it. */
  predicate Genuine(sv: Server, p: Point) {
    match p.rev
    case Some(t) => t in sv.views && sv.views[t] == p
    case None => p.log == [] && sv.legacy == Some(p.fields)
  }

  /** The revision keys are the tail of the history; only a point never
      deleted can have none. */
  predicate RevisionsOk(sv: Server, p: Point) {
    && p.log == Newest(Tokens(sv.life.commits), REV_LOG_LEN)
    && p.rev == RevOf(Tokens(sv.life.commits))
    && (p.rev.None? ==> sv.lives == 0)
  }

  /** The payload is the history replayed. */
  predicate PayloadOk(life: Life, fields: Fields) {
    && (life.inserted ==> life.commits != [])
    && Replay(life.base, Ops(life)) == Some(fields)
  }

  predicate PointOk(sv: Server, p: Point) {
    RevisionsOk(sv, p) && Genuine(sv, p) && PayloadOk(sv.life, p.fields)
  }

  /** A write of the current life was built on a read of this life, or on no
      read at all: only an insertion is. */
  predicate CommitOk(sv: Server, i: nat)
    requires i < |sv.life.commits|
  {
    && sv.life.commits[i].token in sv.views
    && ((sv.life.inserted && i == 0) || sv.life.commits[i].readAt == sv.lives)
  }

  /** Where a life begins: with the payload of the store that inserted it, or
      with the payload from before revisions. */
  predicate BaseOk(sv: Server) {
    if sv.life.inserted && sv.life.commits != [] then
      sv.life.commits[0].op.Store? && sv.life.base == MemoryToPayload(sv.life.commits[0].op.memory)
    else sv.point.Some? ==> sv.legacy == Some(sv.life.base) && sv.lives == 0
  }

  predicate ServerInv(sv: Server) {
    && BaseOk(sv)
    && (forall t | t in sv.views :: sv.views[t].rev == Some(t))
    && Distinct(sv.life.commits)
    && (forall i | 0 <= i < |sv.life.commits| :: CommitOk(sv, i))
    && (sv.point.None? ==> sv.life.commits == [])
    && (sv.point.Some? ==> PointOk(sv, sv.point.value))
  }

  // ----- One call

  function SnapRev(snap: Option<Point>): Option<Token> {
    match snap case Some(p) => p.rev case None => None
  }

  /** The read that saw revision `r` at `mark`: still the tip of that prefix of
      the history while no delete intervened, no longer in it afterwards. */
  predicate ReadOk(sv: Server, r: Option<Token>, present: bool, mark: Mark) {
    && mark.lives <= sv.lives
    && (r.Some? ==> r.value in sv.views)
    && (present && r.None? ==> mark.lives == 0)
    && (mark.lives == sv.lives ==>
         mark.len <= |sv.life.commits| && r == RevOf(Tokens(sv.life.commits[..mark.len])))
    && (mark.lives < sv.lives && r.Some? ==>
         forall i | 0 <= i < |sv.life.commits| :: sv.life.commits[i].token != r.value)
  }

  /** `req` is what `op` makes of the genuine copy `p`. */
  predicate BuiltOn(op: Op, req: Request, p: Point) {
    && req.readRev == p.rev
    && Modify(op, View(op, p.fields)) == Write(req.how, req.fields)
    && req.log == Stamped(p.log, req.token)
  }

  predicate ReqOk(sv: Server, op: Op, req: Request) {
    if req.insert then
      && op.Store? && req.readRev.None?
      && req.fields == MemoryToPayload(op.memory) && req.log == Stamped([], req.token)
    else
      match req.readRev
      case Some(r) => r in sv.views && BuiltOn(op, req, sv.views[r])
      case None => sv.legacy.Some? && BuiltOn(op, req, Point(None, [], sv.legacy.value))
  }

  /** Where an answered write stands in the history, if it applied. */
  predicate AnswerOk(sv: Server, req: Request, mark: Mark) {
    req.token in sv.views ==>
      && (mark.lives == sv.lives ==>
           mark.len < |sv.life.commits| && sv.life.commits[mark.len].token == req.token)
      && (req.readRev.Some? ==>
           forall i | 0 <= i < |sv.life.commits| && sv.life.commits[i].token == req.readRev.value ::
             i + 1 < |sv.life.commits| && sv.life.commits[i + 1].token == req.token)
  }

  // A call writes at most once in a life. The migration script is the
  // exception: its retry relies on what it reads, see MoveLandsOnce.

  predicate NoCommitBy(sv: Server, c: nat, op: Op) {
    !op.MigrateFlat? ==> forall i | 0 <= i < |sv.life.commits| :: sv.life.commits[i].call != c
  }

  predicate OnlyToken(sv: Server, c: nat, op: Op, t: Token) {
    !op.MigrateFlat? ==>
      forall i | 0 <= i < |sv.life.commits| && sv.life.commits[i].call == c :: sv.life.commits[i].token == t
  }

  predicate AtMostOnce(sv: Server, c: nat, op: Op) {
    !op.MigrateFlat? ==>
      forall i, j | 0 <= i < |sv.life.commits| && 0 <= j < |sv.life.commits|
                    && sv.life.commits[i].call == c && sv.life.commits[j].call == c :: i == j
  }

  predicate CallInv(sv: Server, c: nat, call: Call) {
    match call.phase
    case Ready => NoCommitBy(sv, c, call.op)
    case Holding(snap, mark) =>
      && NoCommitBy(sv, c, call.op) && ReadOk(sv, SnapRev(snap), snap.Some?, mark)
      && (snap.Some? ==> Genuine(sv, snap.value))
    case Sent(req, mark) => InFlight(sv, c, call.op, req, mark)
    case Abandoned(req, mark) => InFlight(sv, c, call.op, req, mark)
    case Answered(req, mark) =>
      && ReadOk(sv, req.readRev, !req.insert, mark) && ReqOk(sv, call.op, req)
      && OnlyToken(sv, c, call.op, req.token) && AnswerOk(sv, req, mark)
    case Done(outcome) =>
      && AtMostOnce(sv, c, call.op)
      && (outcome.Landed? ==> outcome.token in sv.views)
  }

  predicate InFlight(sv: Server, c: nat, op: Op, req: Request, mark: Mark) {
    && NoCommitBy(sv, c, op) && ReadOk(sv, req.readRev, !req.insert, mark) && ReqOk(sv, op, req)
    && req.token !in sv.views
  }

  // ----- Tokens

  predicate Issued(s: State, t: Token) { t.count < Counter(s, t.writer) }

  predicate HasReq(call: Call) { call.phase.Sent? || call.phase.Abandoned? || call.phase.Answered? }

  predicate TokensInv(s: State) {
    && (forall t | t in s.server.views :: Issued(s, t))
    && (forall c | c in s.calls && HasReq(s.calls[c]) :: Issued(s, s.calls[c].phase.req.token))
    && (forall c, d | c in s.calls && d in s.calls && c != d && HasReq(s.calls[c]) && HasReq(s.calls[d]) ::
          s.calls[c].phase.req.token != s.calls[d].phase.req.token)
  }

  predicate CommitsNamed(s: State) {
    forall i | 0 <= i < |s.server.life.commits| ::
      var k := s.server.life.commits[i]; k.call in s.calls && s.calls[k.call].op == k.op
  }

  predicate Inv(s: State) {
    && ServerInv(s.server)
    && TokensInv(s)
    && CommitsNamed(s)
    && (forall c | c in s.calls :: CallInv(s.server, c, s.calls[c]))
  }

  // ----- An applied write

  /** What an applied write does to the history. */
  predicate Grows(sv: Server, sv': Server, k: Commit) {
    && sv'.lives == sv.lives && sv'.legacy == sv.legacy
    && sv'.life.commits == sv.life.commits + [k]
    && k.token !in sv.views
    && k.token in sv'.views && sv'.views == sv.views[k.token := sv'.views[k.token]]
  }

  lemma ReadOkGrows(sv: Server, sv': Server, k: Commit, r: Option<Token>, present: bool, mark: Mark)
    requires Grows(sv, sv', k) && ReadOk(sv, r, present, mark)
    ensures ReadOk(sv', r, present, mark)
  {
    if mark.lives == sv.lives {
      assert sv'.life.commits[..mark.len] == sv.life.commits[..mark.len];
    }
  }

  lemma ReqOkGrows(sv: Server, sv': Server, k: Commit, op: Op, req: Request)
    requires Grows(sv, sv', k) && ReqOk(sv, op, req)
    ensures ReqOk(sv', op, req)
  {
    hide Modify, MemoryToPayload;
  }

  /** Another call's write leaves this call's invariant standing. */
  lemma CallGrows(sv: Server, sv': Server, k: Commit, c: nat, call: Call)
    requires Grows(sv, sv', k) && CallInv(sv, c, call) && k.call != c
    requires HasReq(call) ==> call.phase.req.token != k.token
    ensures CallInv(sv', c, call)
  {
    hide Modify, MemoryToPayload, ReqOk, ReadOk;
    match call.phase
    case Ready =>
    case Holding(snap, mark) => ReadOkGrows(sv, sv', k, SnapRev(snap), snap.Some?, mark);
    case Sent(req, mark) =>
      ReadOkGrows(sv, sv', k, req.readRev, !req.insert, mark);
      ReqOkGrows(sv, sv', k, call.op, req);
    case Abandoned(req, mark) =>
      ReadOkGrows(sv, sv', k, req.readRev, !req.insert, mark);
      ReqOkGrows(sv, sv', k, call.op, req);
    case Answered(req, mark) =>
      ReadOkGrows(sv, sv', k, req.readRev, !req.insert, mark);
      ReqOkGrows(sv, sv', k, call.op, req);
      AnswerGrows(sv, sv', k, req, mark);
    case Done(_) =>
  }

  lemma AnswerGrows(sv: Server, sv': Server, k: Commit, req: Request, mark: Mark)
    requires Grows(sv, sv', k) && AnswerOk(sv, req, mark) && req.token != k.token
    requires ReadOk(sv, req.readRev, !req.insert, mark)
    ensures AnswerOk(sv', req, mark)
  {
    assert req.readRev.Some? ==> req.readRev.value != k.token;
  }

  // ----- Delete

  lemma EraseKeeps(sv: Server)
    requires ServerInv(sv)
    ensures ServerInv(Erase(sv))
  {
  }

  lemma CallErase(sv: Server, c: nat, call: Call)
    requires ServerInv(sv) && CallInv(sv, c, call)
    ensures CallInv(Erase(sv), c, call)
  {
    hide Modify, MemoryToPayload;
    hide ReadOk, ReqOk;
    match call.phase
    case Ready =>
    case Holding(snap, mark) => ReadErase(sv, SnapRev(snap), snap.Some?, mark);
    case Sent(req, mark) => ReadErase(sv, req.readRev, !req.insert, mark); ReqErase(sv, call.op, req);
    case Abandoned(req, mark) => ReadErase(sv, req.readRev, !req.insert, mark); ReqErase(sv, call.op, req);
    case Answered(req, mark) =>
      ReadErase(sv, req.readRev, !req.insert, mark);
      ReqErase(sv, call.op, req);
      MarkPast(sv, req.readRev, !req.insert, mark);
    case Done(_) =>
  }

  lemma ReadErase(sv: Server, r: Option<Token>, present: bool, mark: Mark)
    requires ReadOk(sv, r, present, mark)
    ensures ReadOk(Erase(sv), r, present, mark)
  {
  }

  lemma MarkPast(sv: Server, r: Option<Token>, present: bool, mark: Mark)
    requires ReadOk(sv, r, present, mark)
    ensures mark.lives <= sv.lives
  {
  }

  lemma ReqErase(sv: Server, op: Op, req: Request)
    requires ReqOk(sv, op, req)
    ensures ReqOk(Erase(sv), op, req)
  {
    hide Modify, MemoryToPayload;
  }

  // ----- Qdrant applies a request

  /** A point still at the revision read is in the life it was read in, and
      nothing was written since. */
  lemma SameLife(sv: Server, r: Option<Token>, mark: Mark)
    requires sv.point.Some? && RevisionsOk(sv, sv.point.value) && sv.point.value.rev == r
    requires Distinct(sv.life.commits) && ReadOk(sv, r, true, mark)
    ensures mark.lives == sv.lives && mark.len == |sv.life.commits|
  {
    hide Newest;
    var cs := sv.life.commits;
    assert r.Some? ==> cs != [] && cs[|cs| - 1].token == r.value;
    if mark.lives == sv.lives && r.Some? {
      var prefix := cs[..mark.len];
      assert Tokens(prefix)[mark.len - 1] == prefix[mark.len - 1].token == cs[mark.len - 1].token;
    }
  }

  /** The condition on the revision read holds only of the very copy read. */
  lemma SameCopy(sv: Server, op: Op, req: Request)
    requires sv.point.Some? && Genuine(sv, sv.point.value) && sv.point.value.rev == req.readRev
    requires !req.insert && ReqOk(sv, op, req)
    ensures BuiltOn(op, req, sv.point.value)
  {
    hide BuiltOn;
    var p := sv.point.value;
    assert p.rev.None? ==> p == Point(None, [], sv.legacy.value);
  }

  lemma UpdateReplays(life: Life, k: Commit, f: Fields, g: Fields)
    requires PayloadOk(life, f) && Transform(k.op, f) == Some(g)
    ensures PayloadOk(life.(commits := life.commits + [k]), g)
  {
    hide Transform;
    assert Ops(life.(commits := life.commits + [k])) == Ops(life) + [k.op];
    ReplayAppend(life.base, Ops(life), k.op);
  }

  lemma TokensAppend(cs: seq<Commit>, k: Commit)
    ensures Tokens(cs + [k]) == Tokens(cs) + [k.token]
  {
  }

  lemma BuiltTransforms(op: Op, req: Request, p: Point)
    requires BuiltOn(op, req, p)
    ensures Transform(op, p.fields) == Some(Landing(p.fields, req.how, req.fields))
  {
    hide Modify, View;
  }

  /** The history grown by one write that leaves a point in order. */
  lemma GrownInv(sv: Server, sv': Server, k: Commit)
    requires ServerInv(sv) && Grows(sv, sv', k)
    requires sv'.point.Some? && PointOk(sv', sv'.point.value)
    requires sv'.views[k.token].rev == Some(k.token)
    requires sv.life.commits != [] ==> sv'.life.inserted == sv.life.inserted
    requires (sv'.life.inserted && sv.life.commits == []) || k.readAt == sv.lives
    requires BaseOk(sv')
    ensures ServerInv(sv')
  {
    hide PointOk, BaseOk;
    var cs := sv.life.commits;
    forall i | 0 <= i < |sv'.life.commits| ensures CommitOk(sv', i) {
      assert i < |cs| ==> CommitOk(sv, i);
    }
    forall i, j | 0 <= i < j < |sv'.life.commits| ensures sv'.life.commits[i].token != sv'.life.commits[j].token {
      assert CommitOk(sv, i);
    }
  }

  lemma UpdateGrows(sv: Server, p: Point, req: Request, k: Commit)
    requires sv.point == Some(p) && k.token == req.token && req.token !in sv.views
    ensures Grows(sv, Update(sv, p, req, k), k)
    ensures Update(sv, p, req, k).views[k.token].rev == Some(k.token)
  {
    hide Landing;
  }

  lemma UpdateRevisions(sv: Server, p: Point, sv': Server, q: Point, k: Commit)
    requires RevisionsOk(sv, p) && sv'.life.commits == sv.life.commits + [k]
    requires q.rev == Some(k.token) && q.log == Stamped(p.log, k.token)
    ensures RevisionsOk(sv', q)
  {
    var ts := Tokens(sv.life.commits);
    TokensAppend(sv.life.commits, k);
    NewestAppend(ts, k.token, REV_LOG_LEN);
    hide Newest;
  }

  lemma UpdateKeeps(sv: Server, p: Point, op: Op, req: Request, k: Commit)
    requires ServerInv(sv) && sv.point == Some(p) && BuiltOn(op, req, p)
    requires k.token == req.token && k.op == op && k.readAt == sv.lives && req.token !in sv.views
    ensures ServerInv(Update(sv, p, req, k)) && Grows(sv, Update(sv, p, req, k), k)
  {
    var q := Point(Some(req.token), req.log, Landing(p.fields, req.how, req.fields));
    var sv' := Update(sv, p, req, k);
    UpdateGrows(sv, p, req, k);
    UpdatePayload(sv, p, op, req, k);
    assert req.log == Stamped(p.log, req.token);
    hide BuiltOn, Landing, PayloadOk;
    assert sv'.point == Some(q) && sv'.views[k.token] == q;
    UpdateRevisions(sv, p, sv', q, k);
    hide RevisionsOk;
    assert Genuine(sv', q);
    assert sv'.life.inserted == sv.life.inserted;
    UpdateBase(sv, p, req, k);
    hide Update, Grows, ServerInv, BaseOk;
    GrownInv(sv, sv', k);
  }

  lemma UpdateBase(sv: Server, p: Point, req: Request, k: Commit)
    requires BaseOk(sv) && sv.point == Some(p) && (sv.life.inserted ==> sv.life.commits != [])
    ensures BaseOk(Update(sv, p, req, k))
  {
    hide Landing, MemoryToPayload;
  }

  lemma UpdatePayload(sv: Server, p: Point, op: Op, req: Request, k: Commit)
    requires PayloadOk(sv.life, p.fields) && BuiltOn(op, req, p) && k.op == op
    ensures PayloadOk(Update(sv, p, req, k).life, Landing(p.fields, req.how, req.fields))
  {
    BuiltTransforms(op, req, p);
    hide BuiltOn, PayloadOk, Transform, Landing;
    UpdateReplays(sv.life, k, p.fields, Landing(p.fields, req.how, req.fields));
  }

  lemma InsertGrows(sv: Server, req: Request, k: Commit)
    requires sv.life.commits == [] && k.token == req.token && req.token !in sv.views
    ensures Grows(sv, Insert(sv, req, k), k)
    ensures Insert(sv, req, k).views[k.token].rev == Some(k.token)
  {
    assert [] + [k] == [k];
  }

  lemma InsertPoint(sv: Server, req: Request, k: Commit)
    requires k.token == req.token && req.log == Stamped([], req.token)
    ensures PointOk(Insert(sv, req, k), Insert(sv, req, k).point.value)
  {
    var sv' := Insert(sv, req, k);
    var q := Point(Some(req.token), req.log, req.fields);
    assert Tokens(sv'.life.commits) == [k.token];
    assert RevisionsOk(sv', q);
    hide RevisionsOk;
    assert Ops(sv'.life) == [];
    assert PayloadOk(sv'.life, q.fields);
  }

  lemma InsertKeeps(sv: Server, req: Request, k: Commit)
    requires ServerInv(sv) && sv.point.None? && req.log == Stamped([], req.token)
    requires k.op.Store? && req.fields == MemoryToPayload(k.op.memory)
    requires k.token == req.token && req.token !in sv.views
    ensures ServerInv(Insert(sv, req, k)) && Grows(sv, Insert(sv, req, k), k)
  {
    assert sv.life.commits == [];
    InsertGrows(sv, req, k);
    InsertPoint(sv, req, k);
    var sv' := Insert(sv, req, k);
    assert sv'.point.Some? && sv'.life.inserted && BaseOk(sv');
    hide Insert, PointOk, Grows, ServerInv, BaseOk, MemoryToPayload;
    GrownInv(sv, sv', k);
  }

  /** Delivery applies the request or leaves the point exactly as it was. */
  lemma ServeKeeps(sv: Server, c: nat, op: Op, req: Request, mark: Mark)
    requires ServerInv(sv) && InFlight(sv, c, op, req, mark)
    ensures var sv' := Serve(sv, req, c, op, mark.lives);
      && ServerInv(sv')
      && (sv' == sv || Grows(sv, sv', Commit(req.token, c, op, mark.lives)))
  {
    var k := Commit(req.token, c, op, mark.lives);
    if sv.point.None? {
      if req.insert {
        assert req.log == Stamped([], req.token);
        hide ServerInv, Insert, Grows;
        InsertKeeps(sv, req, k);
      }
    } else if !req.insert && sv.point.value.rev == req.readRev {
      SameLife(sv, req.readRev, mark);
      SameCopy(sv, op, req);
      hide ServerInv, Update, Grows, BuiltOn;
      UpdateKeeps(sv, sv.point.value, op, req, k);
    }
  }

  /** An applied write stands right after the revision it was conditional on. */
  lemma OwnAnswer(sv: Server, c: nat, op: Op, req: Request, mark: Mark)
    requires ServerInv(sv) && InFlight(sv, c, op, req, mark)
    ensures var sv' := Serve(sv, req, c, op, mark.lives);
      && ReadOk(sv', req.readRev, !req.insert, mark) && ReqOk(sv', op, req)
      && OnlyToken(sv', c, op, req.token) && AnswerOk(sv', req, mark)
  {
    hide Serve, ServerInv, ReadOk, ReqOk, NoCommitBy, OnlyToken, AnswerOk, Grows;
    var sv' := Serve(sv, req, c, op, mark.lives);
    var k := Commit(req.token, c, op, mark.lives);
    ServeKeeps(sv, c, op, req, mark);
    if sv' == sv {
      NotYetAnswered(sv, c, op, req, mark);
    } else {
      OwnAnswerOk(sv, sv', c, op, req, mark);
      OwnOnly(sv, sv', c, op, k);
      ReadOkGrows(sv, sv', k, req.readRev, !req.insert, mark);
      ReqOkGrows(sv, sv', k, op, req);
    }
  }

  lemma NotYetAnswered(sv: Server, c: nat, op: Op, req: Request, mark: Mark)
    requires NoCommitBy(sv, c, op) && req.token !in sv.views
    ensures OnlyToken(sv, c, op, req.token) && AnswerOk(sv, req, mark)
  {
  }

  lemma OwnOnly(sv: Server, sv': Server, c: nat, op: Op, k: Commit)
    requires NoCommitBy(sv, c, op) && Grows(sv, sv', k)
    ensures OnlyToken(sv', c, op, k.token)
  {
  }

  lemma OwnAnswerOk(sv: Server, sv': Server, c: nat, op: Op, req: Request, mark: Mark)
    requires ServerInv(sv) && InFlight(sv, c, op, req, mark)
    requires sv' == Serve(sv, req, c, op, mark.lives) != sv && Grows(sv, sv', Commit(req.token, c, op, mark.lives))
    ensures AnswerOk(sv', req, mark)
  {
    hide ReqOk, Serve, NoCommitBy, PointOk, BaseOk, CommitOk;
    var k := Commit(req.token, c, op, mark.lives);
    if req.insert {
      InsertedAt(sv, c, op, req, mark);
      assert mark.lives == sv.lives ==> mark.len == 0;
    } else {
      UpdatedPlace(sv, sv', c, op, req, mark);
    }
  }

  lemma InsertedAt(sv: Server, c: nat, op: Op, req: Request, mark: Mark)
    requires Serve(sv, req, c, op, mark.lives) != sv && req.insert && ReqOk(sv, op, req)
    ensures sv.point.None? && req.readRev.None?
  {
  }

  lemma UpdatedPlace(sv: Server, sv': Server, c: nat, op: Op, req: Request, mark: Mark)
    requires ServerInv(sv) && InFlight(sv, c, op, req, mark) && !req.insert
    requires sv' == Serve(sv, req, c, op, mark.lives) != sv && Grows(sv, sv', Commit(req.token, c, op, mark.lives))
    ensures AnswerOk(sv', req, mark)
  {
    hide ReqOk, NoCommitBy, BaseOk, CommitOk, Genuine, PayloadOk;
    ServedAt(sv, c, op, req, mark);
    hide Serve;
    SameLife(sv, req.readRev, mark);
    OwnPlace(sv, sv', req, Commit(req.token, c, op, mark.lives));
    hide RevisionsOk, Distinct;
  }

  lemma ServedAt(sv: Server, c: nat, op: Op, req: Request, mark: Mark)
    requires Serve(sv, req, c, op, mark.lives) != sv && !req.insert
    ensures sv.point.Some? && sv.point.value.rev == req.readRev
  {
  }

  lemma OwnPlace(sv: Server, sv': Server, req: Request, k: Commit)
    requires sv.point.Some? && RevisionsOk(sv, sv.point.value) && Distinct(sv.life.commits)
    requires Grows(sv, sv', k) && k.token == req.token
    requires sv.point.value.rev == req.readRev && (req.readRev.Some? ==> req.readRev.value in sv.views)
    ensures req.readRev.Some? ==>
      forall i | 0 <= i < |sv'.life.commits| && sv'.life.commits[i].token == req.readRev.value ::
        i + 1 < |sv'.life.commits| && sv'.life.commits[i + 1].token == req.token
  {
    hide Newest;
    var n := |sv.life.commits|;
    if req.readRev.Some? {
      assert sv.life.commits[n - 1].token == req.readRev.value;
    }
  }

  // ----- Every step

  lemma TokensKept(s: State, s': State)
    requires TokensInv(s)
    requires forall w: nat :: Counter(s, w) <= Counter(s', w)
    requires forall t | t in s'.server.views ::
      t in s.server.views || exists c | c in s.calls && HasReq(s.calls[c]) :: s.calls[c].phase.req.token == t
    requires forall c | c in s'.calls && HasReq(s'.calls[c]) ::
               c in s.calls && HasReq(s.calls[c]) && s.calls[c].phase.req == s'.calls[c].phase.req
    ensures TokensInv(s')
  {
  }

  lemma BeginKeeps(s: State, c: nat, writer: nat, op: Op)
    requires Inv(s) && c !in s.calls
    ensures Inv(SetCall(s, c, Call(op, writer, 0, Ready)))
  {
    hide ServerInv;
    var s' := SetCall(s, c, Call(op, writer, 0, Ready));
    TokensKept(s, s');
    forall d | d in s'.calls ensures CallInv(s'.server, d, s'.calls[d]) {
      if d != c { assert CallInv(s.server, d, s.calls[d]); }
    }
  }

  lemma DeleteKeeps(s: State)
    requires Inv(s)
    ensures Inv(s.(server := Erase(s.server)))
  {
    var s' := s.(server := Erase(s.server));
    EraseKeeps(s.server);
    TokensKept(s, s');
    hide ServerInv, CallInv;
    forall c | c in s'.calls ensures CallInv(s'.server, c, s'.calls[c]) {
      CallErase(s.server, c, s.calls[c]);
    }
  }

  lemma ElsewhereKeeps(s: State, writer: nat)
    requires Inv(s)
    ensures Inv(s.(next := s.next[writer := Counter(s, writer) + 1]))
  {
    hide ServerInv, CallInv;
    TokensKept(s, s.(next := s.next[writer := Counter(s, writer) + 1]));
  }

  /** A step of one call that leaves Qdrant and the counters alone. */
  lemma LocalKeeps(s: State, c: nat, call': Call)
    requires Inv(s) && c in s.calls && call'.op == s.calls[c].op && CallInv(s.server, c, call')
    requires HasReq(call') ==> HasReq(s.calls[c]) && s.calls[c].phase.req == call'.phase.req
    ensures Inv(SetCall(s, c, call'))
  {
    hide ServerInv, CallInv;
    var s' := SetCall(s, c, call');
    TokensKept(s, s');
  }

  lemma ReadKeeps(sv: Server, c: nat, call: Call)
    requires ServerInv(sv) && CallInv(sv, c, call) && call.phase.Ready?
    ensures CallInv(sv, c, call.(phase := Holding(sv.point, Mark(sv.lives, |sv.life.commits|))))
  {
    hide Newest, PayloadOk;
    var cs := sv.life.commits;
    assert cs[..|cs|] == cs;
    assert sv.point.None? ==> Tokens(cs) == [];
  }

  lemma BuildInFlight(sv: Server, c: nat, call: Call, snap: Option<Point>, mark: Mark, req: Request)
    requires CallInv(sv, c, call) && call.phase == Holding(snap, mark)
    requires Built(call, snap, req.token) == Ok(req) && req.token !in sv.views
    ensures InFlight(sv, c, call.op, req, mark)
  {
    hide ReadOk, Modify, View, MemoryToPayload;
    match snap
    case None =>
    case Some(p) =>
      assert BuiltOn(call.op, req, p);
      assert p.rev.None? ==> p == Point(None, [], sv.legacy.value);
  }

  /** Taking the next counter value makes a token no one holds. */
  lemma SendTokens(s: State, s': State, c: nat, call': Call)
    requires TokensInv(s) && c in s.calls && !HasReq(s.calls[c])
    requires HasReq(call') && call'.phase.req.token == Token(call'.writer, Counter(s, call'.writer))
    requires s' == SetCall(s.(next := s.next[call'.writer := Counter(s, call'.writer) + 1]), c, call')
    ensures TokensInv(s')
  {
    assert forall w: nat :: Counter(s, w) <= Counter(s', w);
    forall t | t in s'.server.views ensures Issued(s', t) { assert Issued(s, t); }
  }

  lemma SendKeeps(s: State, c: nat, req: Request, mark: Mark)
    requires Inv(s) && c in s.calls && !HasReq(s.calls[c])
    requires req.token == Token(s.calls[c].writer, Counter(s, s.calls[c].writer))
    requires InFlight(s.server, c, s.calls[c].op, req, mark)
    ensures Inv(SetCall(s.(next := s.next[s.calls[c].writer := Counter(s, s.calls[c].writer) + 1]), c,
                        s.calls[c].(phase := Sent(req, mark))))
  {
    hide ServerInv, ReqOk, ReadOk;
    var call := s.calls[c];
    var call' := call.(phase := Sent(req, mark));
    var s' := SetCall(s.(next := s.next[call.writer := Counter(s, call.writer) + 1]), c, call');
    SendTokens(s, s', c, call');
    assert CallInv(s'.server, c, call');
    hide TokensInv, CallInv;
    assert CommitsNamed(s');
  }

  lemma BuildKeeps(s: State, c: nat, snap: Option<Point>, mark: Mark)
    requires Inv(s) && c in s.calls && s.calls[c].phase == Holding(snap, mark)
    ensures Inv(DoBuild(s, c, snap, mark))
  {
    hide Inv, CallInv, InFlight, Built, ServerInv, Modify, View, MemoryToPayload;
    var call := s.calls[c];
    var token := Token(call.writer, Counter(s, call.writer));
    FreshToken(s, call.writer);
    CallOfInv(s, c);
    match Built(call, snap, token)
    case Ok(req) =>
      BuiltToken(call, snap, token);
      BuildInFlight(s.server, c, call, snap, mark, req);
      SendKeeps(s, c, req, mark);
    case Err(outcome) =>
      BuiltOutcome(call, snap, token);
      EndsUnwritten(s.server, c, call, outcome);
      LocalKeeps(s, c, call.(phase := Done(outcome)));
  }

  lemma FreshToken(s: State, writer: nat)
    requires Inv(s)
    ensures Token(writer, Counter(s, writer)) !in s.server.views
  {
    hide ServerInv, CallInv;
    assert !Issued(s, Token(writer, Counter(s, writer)));
  }

  lemma CallOfInv(s: State, c: nat)
    requires Inv(s) && c in s.calls
    ensures CallInv(s.server, c, s.calls[c]) && ServerInv(s.server)
  {
  }

  /** A call may end before it sends, and after it without learning more. */
  lemma EndsUnwritten(sv: Server, c: nat, call: Call, outcome: Outcome)
    requires CallInv(sv, c, call) && (call.phase.Ready? || call.phase.Holding?) && !outcome.Landed?
    ensures CallInv(sv, c, call.(phase := Done(outcome)))
  {
    AtMostOnceIfNone(sv, c, call.op);
  }

  lemma EndsAnswered(sv: Server, c: nat, call: Call)
    requires ServerInv(sv) && CallInv(sv, c, call) && call.phase.Answered?
    ensures CallInv(sv, c, call.(phase := Done(Unconfirmed)))
  {
    hide PointOk, BaseOk, ReadOk, ReqOk, AnswerOk;
    AtMostOnceIfOnly(sv, c, call.op, call.phase.req.token);
  }

  lemma Abandons(sv: Server, c: nat, call: Call)
    requires CallInv(sv, c, call) && call.phase.Sent?
    ensures CallInv(sv, c, call.(phase := Abandoned(call.phase.req, call.phase.mark)))
  {
  }

  lemma BuiltToken(call: Call, snap: Option<Point>, token: Token)
    requires Built(call, snap, token).Ok?
    ensures Built(call, snap, token).value.token == token
  {
    hide Modify, View, MemoryToPayload;
  }

  lemma BuiltOutcome(call: Call, snap: Option<Point>, token: Token)
    requires Built(call, snap, token).Err?
    ensures !Built(call, snap, token).error.Landed?
  {
    hide Modify, View, MemoryToPayload;
  }

  lemma AtMostOnceIfNone(sv: Server, c: nat, op: Op)
    requires NoCommitBy(sv, c, op)
    ensures AtMostOnce(sv, c, op)
  {
  }

  lemma AtMostOnceIfOnly(sv: Server, c: nat, op: Op, t: Token)
    requires OnlyToken(sv, c, op, t) && Distinct(sv.life.commits)
    ensures AtMostOnce(sv, c, op)
  {
  }

  lemma ServedTokens(s: State, s': State, c: nat, call': Call, k: Commit)
    requires TokensInv(s) && c in s.calls && HasReq(s.calls[c]) && k.token == s.calls[c].phase.req.token
    requires s'.next == s.next && s'.calls == s.calls[c := call']
    requires Grows(s.server, s'.server, k)
    requires HasReq(call') ==> call'.phase.req == s.calls[c].phase.req
    ensures TokensInv(s')
  {
    forall t | t in s'.server.views
      ensures t in s.server.views || exists d | d in s.calls && HasReq(s.calls[d]) :: s.calls[d].phase.req.token == t
    {
      if t !in s.server.views { assert t == k.token; assert s.calls[c].phase.req.token == t; }
    }
    TokensKept(s, s');
  }

  lemma DeliverKeeps(s: State, c: nat, req: Request, mark: Mark, phase': Phase)
    requires Inv(s) && c in s.calls
    requires s.calls[c].phase == Sent(req, mark) || s.calls[c].phase == Abandoned(req, mark)
    requires phase' == Answered(req, mark) || phase' == Done(Unconfirmed)
    ensures Inv(SetCall(s.(server := Serve(s.server, req, c, s.calls[c].op, mark.lives)), c,
                        s.calls[c].(phase := phase')))
  {
    var call := s.calls[c];
    var call' := call.(phase := phase');
    var sv' := Serve(s.server, req, c, call.op, mark.lives);
    var k := Commit(req.token, c, call.op, mark.lives);
    assert CallInv(s.server, c, call);
    assert InFlight(s.server, c, call.op, req, mark);
    ServeKeeps(s.server, c, call.op, req, mark);
    OwnAnswer(s.server, c, call.op, req, mark);
    DeliveredInv(sv', c, call, req, mark, phase');
    hide Serve, ServerInv, InFlight, CallInv, OnlyToken, AnswerOk;
    if sv' == s.server {
      LocalKeeps(s, c, call');
    } else {
      ServedInv(s, c, k, call', sv');
    }
  }

  lemma DeliveredInv(sv: Server, c: nat, call: Call, req: Request, mark: Mark, phase': Phase)
    requires ServerInv(sv)
    requires ReadOk(sv, req.readRev, !req.insert, mark) && ReqOk(sv, call.op, req)
    requires OnlyToken(sv, c, call.op, req.token) && AnswerOk(sv, req, mark)
    requires phase' == Answered(req, mark) || phase' == Done(Unconfirmed)
    ensures CallInv(sv, c, call.(phase := phase'))
  {
    hide ReadOk, ReqOk, AnswerOk, PointOk;
    AtMostOnceIfOnly(sv, c, call.op, req.token);
  }

  lemma ServedInv(s: State, c: nat, k: Commit, call': Call, sv': Server)
    requires Inv(s) && c in s.calls && HasReq(s.calls[c])
    requires k.token == s.calls[c].phase.req.token && k.call == c && k.op == s.calls[c].op
    requires ServerInv(sv') && Grows(s.server, sv', k) && CallInv(sv', c, call') && call'.op == s.calls[c].op
    requires HasReq(call') ==> call'.phase.req == s.calls[c].phase.req
    ensures Inv(SetCall(s.(server := sv'), c, call'))
  {
    hide ServerInv, CallInv;
    var s' := SetCall(s.(server := sv'), c, call');
    ServedTokens(s, s', c, call', k);
    forall d | d in s'.calls ensures CallInv(s'.server, d, s'.calls[d]) {
      if d != c { CallGrows(s.server, sv', k, d, s.calls[d]); }
    }
  }

  // ----- The read-back

  /** The log read back is a suffix of the history, so a token in it, and an
      index in the history for every token of the log. */
  lemma LogIndex(cs: seq<Commit>, i: nat)
    requires i < |cs|
    ensures i >= |cs| - REV_LOG_LEN ==> cs[i].token in Newest(Tokens(cs), REV_LOG_LEN)
  {
    var ts := Tokens(cs);
    var log := Newest(ts, REV_LOG_LEN);
    if i >= |cs| - REV_LOG_LEN { assert log[i - (|ts| - |log|)] == ts[i]; }
  }

  lemma LogMember(cs: seq<Commit>, t: Token) returns (i: nat)
    requires t in Newest(Tokens(cs), REV_LOG_LEN)
    ensures i < |cs| && i >= |cs| - REV_LOG_LEN && cs[i].token == t
  {
    var ts := Tokens(cs);
    var log := Newest(ts, REV_LOG_LEN);
    var j :| 0 <= j < |log| && log[j] == t;
    i := j + (|ts| - |log|);
    assert ts[i] == t;
  }

  lemma LogLength(cs: seq<Commit>)
    ensures var n := |Newest(Tokens(cs), REV_LOG_LEN)|; n == if |cs| <= REV_LOG_LEN then |cs| else REV_LOG_LEN
  {
  }

  predicate InLife(sv: Server, t: Token) {
    exists i | 0 <= i < |sv.life.commits| :: sv.life.commits[i].token == t
  }

  /** A lost race is not in the history. */
  lemma LostNotInLife(sv: Server, req: Request, mark: Mark)
    requires ServerInv(sv) && AnswerOk(sv, req, mark) && Verdict(sv, req) == No
    ensures !InLife(sv, req.token)
  {
    var cs := sv.life.commits;
    assert sv.point.value.log == Newest(Tokens(cs), REV_LOG_LEN);
    LogLength(cs);
    hide Newest, PayloadOk, Genuine;
    if req.readRev.Some? {
      var i := LogMember(cs, req.readRev.value);
      if i + 1 < |cs| { LogIndex(cs, i + 1); }
      forall j | 0 <= j < |cs| ensures cs[j].token != req.token { assert CommitOk(sv, j); }
    } else {
      forall j | 0 <= j < |cs| ensures cs[j].token != req.token { LogIndex(cs, j); }
    }
  }

  lemma YesInLife(sv: Server, req: Request)
    requires ServerInv(sv) && Verdict(sv, req) == Yes
    ensures InLife(sv, req.token) && req.token in sv.views
  {
    hide Newest, PayloadOk, Genuine;
    var i := LogMember(sv.life.commits, req.token);
    assert CommitOk(sv, i);
  }

  lemma ReadBackKeeps(sv: Server, c: nat, call: Call)
    requires ServerInv(sv) && CallInv(sv, c, call) && call.phase.Answered?
    ensures CallInv(sv, c, Concluded(call, call.phase.req, Verdict(sv, call.phase.req)))
  {
    hide ServerInv, CallInv, ReqOk, ReadOk, AnswerOk, OnlyToken, NoCommitBy, AtMostOnce, Verdict, Concluded, InLife;
    var req := call.phase.req;
    var verdict := Verdict(sv, req);
    AnsweredOnce(sv, c, call);
    if verdict == Yes { YesInLife(sv, req); }
    if verdict == No {
      LostNotInLife(sv, req, call.phase.mark);
      NoneInLife(sv, c, call.op, req.token);
    }
    ConcludedKeeps(sv, c, call, verdict);
  }

  lemma AnsweredOnce(sv: Server, c: nat, call: Call)
    requires ServerInv(sv) && CallInv(sv, c, call) && call.phase.Answered?
    ensures AtMostOnce(sv, c, call.op) && OnlyToken(sv, c, call.op, call.phase.req.token)
    ensures AnswerOk(sv, call.phase.req, call.phase.mark)
  {
    hide PointOk, BaseOk, ReqOk, ReadOk, AnswerOk, OnlyToken, AtMostOnce, CommitOk;
    AtMostOnceIfOnly(sv, c, call.op, call.phase.req.token);
  }

  lemma NoneInLife(sv: Server, c: nat, op: Op, t: Token)
    requires OnlyToken(sv, c, op, t) && !InLife(sv, t)
    ensures NoCommitBy(sv, c, op)
  {
  }

  lemma ConcludedKeeps(sv: Server, c: nat, call: Call, verdict: Landed)
    requires call.phase.Answered? && AtMostOnce(sv, c, call.op)
    requires verdict == Yes ==> call.phase.req.token in sv.views
    requires verdict == No ==> NoCommitBy(sv, c, call.op)
    ensures CallInv(sv, c, Concluded(call, call.phase.req, verdict))
  {
    hide AtMostOnce;
    if call.op.MigrateFlat? { assert NoCommitBy(sv, c, call.op); }
    hide NoCommitBy;
  }

  // ----- Every run

  lemma StepKeeps(s: State, step: Step)
    requires Inv(s)
    ensures Inv(Apply(s, step))
  {
    hide Inv, OnCall, Erase, SetCall;
    match step
    case Begin(c, writer, op) => if c !in s.calls { BeginKeeps(s, c, writer, op); }
    case Delete => DeleteKeeps(s);
    case Elsewhere(writer) => ElsewhereKeeps(s, writer);
    case Read(c) => OnCallKeeps(s, c, step);
    case Build(c) => OnCallKeeps(s, c, step);
    case Deliver(c) => OnCallKeeps(s, c, step);
    case GiveUp(c) => OnCallKeeps(s, c, step);
    case ReadBack(c) => OnCallKeeps(s, c, step);
    case Drop(c) => OnCallKeeps(s, c, step);
  }

  lemma OnCallKeeps(s: State, c: nat, step: Step)
    requires Inv(s)
    ensures Inv(OnCall(s, c, step))
  {
    hide Inv, CallInv, ServerInv, Serve, Verdict, Concluded;
    if c in s.calls {
      var call := s.calls[c];
      CallOfInv(s, c);
      match (step, call.phase)
      case (Read(_), Ready) =>
        ReadKeeps(s.server, c, call);
        LocalKeeps(s, c, call.(phase := Holding(s.server.point, Mark(s.server.lives, |s.server.life.commits|))));
      case (Build(_), Holding(snap, mark)) => BuildKeeps(s, c, snap, mark);
      case (Deliver(_), Sent(req, mark)) => DeliverKeeps(s, c, req, mark, Answered(req, mark));
      case (Deliver(_), Abandoned(req, mark)) => DeliverKeeps(s, c, req, mark, Done(Unconfirmed));
      case (GiveUp(_), Sent(req, mark)) =>
        Abandons(s.server, c, call);
        LocalKeeps(s, c, call.(phase := Abandoned(req, mark)));
      case (GiveUp(_), Answered(req, mark)) =>
        EndsAnswered(s.server, c, call);
        LocalKeeps(s, c, call.(phase := Done(Unconfirmed)));
      case (ReadBack(_), Answered(req, mark)) =>
        ReadBackKeeps(s.server, c, call);
        ConcludedShape(call, req, Verdict(s.server, req));
        LocalKeeps(s, c, Concluded(call, req, Verdict(s.server, req)));
      case (Drop(_), Ready) =>
        EndsUnwritten(s.server, c, call, Refused);
        LocalKeeps(s, c, call.(phase := Done(Refused)));
      case (Drop(_), Holding(_, _)) =>
        EndsUnwritten(s.server, c, call, Refused);
        LocalKeeps(s, c, call.(phase := Done(Refused)));
      case _ =>
    }
  }

  lemma ConcludedShape(call: Call, req: Request, verdict: Landed)
    ensures Concluded(call, req, verdict).op == call.op && !HasReq(Concluded(call, req, verdict))
  {
  }

  lemma InitialInv(legacy: Option<Fields>)
    ensures Inv(Initial(legacy))
  {
    var s := Initial(legacy);
    assert Tokens([]) == [];
    assert Ops(s.server.life) == [];
    assert s.server.point.Some? ==> PointOk(s.server, s.server.point.value);
  }

  /** Every run of any number of calls keeps the invariant. */
  lemma {:induction false} RunInv(legacy: Option<Fields>, steps: seq<Step>)
    ensures Inv(Run(Initial(legacy), steps))
  {
    hide Inv, Apply;
    if steps == [] {
      InitialInv(legacy);
    } else {
      RunInv(legacy, steps[..|steps| - 1]);
      StepKeeps(Run(Initial(legacy), steps[..|steps| - 1]), steps[|steps| - 1]);
    }
  }
}
