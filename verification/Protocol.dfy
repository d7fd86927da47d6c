// The compare-and-set write protocol on one point of the memories collection,
// as a state machine: any number of calls by any number of clients, each
// reading, building, sending and reading back, interleaved with each other
// and with deletes. Points are independent, so one point is enough.

module Protocol {
  import opened Wrappers
  import opened Json
  import opened Revision
  import opened Payload
  import opened Lifecycle

  /** A stored point: the revision keys, held apart from the other payload keys
      because every write replaces both. */
  datatype Point = Point(rev: Option<Token>, log: seq<Token>, fields: Fields)

  /** A write Qdrant applied: its token, the call it belongs to, and how many
      deletes had happened when that call read the point. */
  datatype Commit = Commit(token: Token, call: nat, op: Op, readAt: nat)

  /** The point since its last insertion: the payload it began with and the
      writes applied, the inserting write first when there was one. */
  datatype Life = Life(base: Fields, inserted: bool, commits: seq<Commit>)

  /** Qdrant's side. `views` is the point as each applied write left it and
      `legacy` the payload from before revisions, both only to state what
      holds; `lives` counts the deletes. */
  datatype Server = Server(
    point: Option<Point>, life: Life, views: map<Token, Point>, lives: nat, legacy: Option<Fields>)

  /** A conditional write as sent: `insert` is the insert-only upsert, anything
      else applies only while the revision is still `readRev`. */
  datatype Request = Request(
    token: Token, readRev: Option<Token>, insert: bool, how: How, fields: Fields, log: seq<Token>)

  /** When a call read the point: the deletes so far, the writes since insertion. */
  datatype Mark = Mark(lives: nat, len: nat)

  datatype Outcome = Landed(token: Token, created: bool) | Skipped | Absent | Deleted | Unconfirmed | Refused

  /** `Abandoned`: the caller gave up, but the request may still reach Qdrant. */
  datatype Phase =
    | Ready
    | Holding(snap: Option<Point>, mark: Mark)
    | Sent(req: Request, mark: Mark)
    | Answered(req: Request, mark: Mark)
    | Abandoned(req: Request, mark: Mark)
    | Done(outcome: Outcome)

  datatype Call = Call(op: Op, writer: nat, round: nat, phase: Phase)

  /** `next` holds each client's write counter. */
  datatype State = State(server: Server, next: map<nat, nat>, calls: map<nat, Call>)

  /** `Elsewhere`: a client spends a counter value on a write to another point. */
  datatype Step =
    | Begin(c: nat, writer: nat, op: Op)
    | Read(c: nat)
    | Build(c: nat)
    | Deliver(c: nat)
    | GiveUp(c: nat)
    | ReadBack(c: nat)
    | Drop(c: nat)
    | Elsewhere(writer: nat)
    | Delete

  function Initial(legacy: Option<Fields>): State {
    State(Server(match legacy case Some(f) => Some(Point(None, [], f)) case None => None,
                 Life(match legacy case Some(f) => f case None => map[], false, []),
                 map[], 0, legacy),
          map[], map[])
  }

  // ----- Qdrant

  /** Apply `req` if its condition holds, else leave the point untouched. */
  function Serve(sv: Server, req: Request, c: nat, op: Op, readAt: nat): Server {
    match sv.point
    case None => if req.insert then Insert(sv, req, Commit(req.token, c, op, readAt)) else sv
    case Some(p) =>
      if !req.insert && p.rev == req.readRev then Update(sv, p, req, Commit(req.token, c, op, readAt)) else sv
  }

  function Insert(sv: Server, req: Request, commit: Commit): Server {
    var p := Point(Some(req.token), req.log, req.fields);
    sv.(point := Some(p), life := Life(req.fields, true, [commit]), views := sv.views[req.token := p])
  }

  function Update(sv: Server, p: Point, req: Request, commit: Commit): Server {
    var q := Point(Some(req.token), req.log, Landing(p.fields, req.how, req.fields));
    sv.(point := Some(q), life := sv.life.(commits := sv.life.commits + [commit]),
        views := sv.views[req.token := q])
  }

  function Erase(sv: Server): Server {
    sv.(point := None, life := Life(map[], false, []), lives := sv.lives + 1)
  }

  // ----- A call

  function Counter(s: State, writer: nat): nat {
    if writer in s.next then s.next[writer] else 0
  }

  /** The request `call` builds from what it read, or how it ends without one. */
  function Built(call: Call, snap: Option<Point>, token: Token): Result<Request, Outcome> {
    match snap
    case None =>
      if call.op.Store? then
        Ok(Request(token, None, true, Replace, MemoryToPayload(call.op.memory), Stamped([], token)))
      else if call.op.MigrateFlat? then Err(Skipped)
      else Err(if call.round == 0 then Absent else Deleted)
    case Some(p) =>
      match Modify(call.op, View(call.op, p.fields))
      case Refuse(_) => Err(Refused)
      case Leave => Err(Skipped)
      case Write(how, fields) => Ok(Request(token, p.rev, false, how, fields, Stamped(p.log, token)))
  }

  function LogOf(point: Option<Point>): Option<seq<Token>> {
    match point case Some(p) => Some(p.log) case None => None
  }

  function Verdict(sv: Server, req: Request): Landed {
    Judge(req.readRev, LogOf(sv.point), req.token)
  }

  /** The next round, or the end once every round has been lost. */
  function Retry(call: Call): Call {
    if call.round + 1 < MAX_WRITE_ATTEMPTS
    then call.(round := call.round + 1, phase := Ready)
    else call.(phase := Done(Unconfirmed))
  }

  /** What the read-back makes of a sent write. The migration script retries
      whatever its read-back does not confirm. */
  function Concluded(call: Call, req: Request, verdict: Landed): Call {
    match verdict
    case Yes => call.(phase := Done(Landed(req.token, req.insert)))
    case No => Retry(call)
    case Gone => if call.op.MigrateFlat? then Retry(call) else call.(phase := Done(Deleted))
    case Unknown => if call.op.MigrateFlat? then Retry(call) else call.(phase := Done(Unconfirmed))
  }

  function SetCall(s: State, c: nat, call: Call): State {
    s.(calls := s.calls[c := call])
  }

  /** One step; a step that is not enabled changes nothing. */
  function Apply(s: State, step: Step): State {
    match step
    case Begin(c, writer, op) =>
      if c in s.calls then s else SetCall(s, c, Call(op, writer, 0, Ready))
    case Delete => s.(server := Erase(s.server))
    case Elsewhere(writer) => s.(next := s.next[writer := Counter(s, writer) + 1])
    case Read(c) => OnCall(s, c, step)
    case Build(c) => OnCall(s, c, step)
    case Deliver(c) => OnCall(s, c, step)
    case GiveUp(c) => OnCall(s, c, step)
    case ReadBack(c) => OnCall(s, c, step)
    case Drop(c) => OnCall(s, c, step)
  }

  function OnCall(s: State, c: nat, step: Step): State {
    if c !in s.calls then s
    else
      var call := s.calls[c];
      match (step, call.phase)
      case (Read(_), Ready) =>
        var mark := Mark(s.server.lives, |s.server.life.commits|);
        SetCall(s, c, call.(phase := Holding(s.server.point, mark)))
      case (Build(_), Holding(snap, mark)) => DoBuild(s, c, snap, mark)
      case (Deliver(_), Sent(req, mark)) =>
        SetCall(s.(server := Serve(s.server, req, c, call.op, mark.lives)), c,
                call.(phase := Answered(req, mark)))
      case (Deliver(_), Abandoned(req, mark)) =>
        SetCall(s.(server := Serve(s.server, req, c, call.op, mark.lives)), c,
                call.(phase := Done(Unconfirmed)))
      case (GiveUp(_), Sent(req, mark)) => SetCall(s, c, call.(phase := Abandoned(req, mark)))
      case (GiveUp(_), Answered(req, mark)) => SetCall(s, c, call.(phase := Done(Unconfirmed)))
      case (ReadBack(_), Answered(req, mark)) =>
        SetCall(s, c, Concluded(call, req, Verdict(s.server, req)))
      case (Drop(_), Ready) => SetCall(s, c, call.(phase := Done(Refused)))
      case (Drop(_), Holding(_, _)) => SetCall(s, c, call.(phase := Done(Refused)))
      case _ => s
  }

  /** Stamping takes the client's next counter value, used or not. */
  function DoBuild(s: State, c: nat, snap: Option<Point>, mark: Mark): State
    requires c in s.calls
  {
    var call := s.calls[c];
    var n := Counter(s, call.writer);
    match Built(call, snap, Token(call.writer, n))
    case Ok(req) =>
      SetCall(s.(next := s.next[call.writer := n + 1]), c, call.(phase := Sent(req, mark)))
    case Err(outcome) => SetCall(s, c, call.(phase := Done(outcome)))
  }

  function Run(s: State, steps: seq<Step>): State {
    if steps == [] then s else Apply(Run(s, steps[..|steps| - 1]), steps[|steps| - 1])
  }
}
