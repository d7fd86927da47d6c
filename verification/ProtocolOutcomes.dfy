// What a call's outcome says of the point: each way a call can end, traced back
// through the run to what it read, sent or found.

module ProtocolOutcomes {
  import opened Wrappers
  import opened Json
  import opened Revision
  import opened Payload
  import opened Lifecycle
  import opened Protocol
  import opened ProtocolInvariant
  import opened ProtocolSafety

  // ----- One step of a call

  predicate In(s: State, c: nat) { c in s.calls }

  /** How a call that read `snap` ends without sending anything. */
  predicate EndsUnsent(op: Op, round: nat, snap: Option<Point>, outcome: Outcome) {
    match outcome
    case Skipped => (match snap case Some(p) => LeavesAlone(op, p.fields) case None => op.MigrateFlat?)
    case Refused => snap.Some? && Refuses(op, snap.value.fields)
    case Absent => snap.None? && !op.Store? && !op.MigrateFlat? && round == 0
    case Deleted => snap.None? && !op.Store? && !op.MigrateFlat? && round > 0
    case _ => false
  }

  /** How a call ends at its read-back, `point` being what it read back. */
  predicate EndsReadBack(sv: Server, call: Call, outcome: Outcome)
    requires call.phase.Answered?
  {
    var req := call.phase.req;
    match outcome
    case Landed(t, created) =>
      sv.point.Some? && t in sv.point.value.log && t == req.token && created == req.insert
    case Deleted => sv.point.None? && !call.op.MigrateFlat?
    case Unconfirmed => call.round + 1 >= 8 || (!call.op.MigrateFlat? && Verdict(sv, req) == Unknown)
    case _ => false
  }

  /** The step that took a call to the phase it is in. */
  predicate Came(s: State, step: Step, c: nat, now: Call)
    requires c in s.calls
  {
    var was := s.calls[c];
    match now.phase
    case Ready => step == ReadBack(c) && was.phase.Answered? && now.round == was.round + 1 < 8
    case Holding(snap, _) => step == Read(c) && was.phase.Ready? && snap == s.server.point && now.round == was.round
    case Sent(req, mark) =>
      && step == Build(c) && was.phase.Holding? && now.round == was.round && was.phase.mark == mark
      && req.insert == was.phase.snap.None?
    case Answered(req, mark) => step == Deliver(c) && was.phase == Sent(req, mark) && now.round == was.round
    case Abandoned(req, mark) => step == GiveUp(c) && was.phase == Sent(req, mark) && now.round == was.round
    case Done(outcome) =>
      match was.phase
      case Ready => step == Drop(c) && outcome == Refused
      case Holding(snap, _) =>
        (step == Drop(c) && outcome == Refused) || (step == Build(c) && EndsUnsent(was.op, was.round, snap, outcome))
      case Answered(_, _) =>
        || (step == GiveUp(c) && outcome == Unconfirmed)
        || (step == ReadBack(c) && EndsReadBack(s.server, was, outcome))
      case Abandoned(_, _) => step == Deliver(c) && outcome == Unconfirmed
      case _ => false
  }

  lemma CallStep(s: State, step: Step, c: nat)
    requires c in Apply(s, step).calls
    ensures var now := Apply(s, step).calls[c];
      if c !in s.calls then now.phase == Ready && now.round == 0
      else
        && now.op == s.calls[c].op
        && (now == s.calls[c] || Came(s, step, c, now))
  {
    hide Modify, View, MemoryToPayload, LeavesAlone, Refuses, Serve;
    if c in s.calls && s.calls[c].phase.Holding? { BuildStep(s, c); }
    if c in s.calls && s.calls[c].phase.Answered? { ReadBackStep(s, c); }
    hide DoBuild, Concluded, Came, EndsUnsent, EndsReadBack;
    if c in s.calls { OtherSteps(s, step, c); }
  }

  lemma BuildStep(s: State, c: nat)
    requires c in s.calls && s.calls[c].phase.Holding?
    ensures var now := DoBuild(s, c, s.calls[c].phase.snap, s.calls[c].phase.mark).calls[c];
      now.op == s.calls[c].op && Came(s, Build(c), c, now)
  {
    var call := s.calls[c];
    if call.phase.snap.Some? { DecisionIff(call.op, call.phase.snap.value.fields); }
    hide Modify, View, MemoryToPayload, LeavesAlone, Refuses, Transform;
  }

  lemma ReadBackStep(s: State, c: nat)
    requires c in s.calls && s.calls[c].phase.Answered?
    ensures var call := s.calls[c];
      var now := Concluded(call, call.phase.req, Verdict(s.server, call.phase.req));
      now.op == call.op && Came(s, ReadBack(c), c, now)
  {
  }

  lemma OtherSteps(s: State, step: Step, c: nat)
    requires c in s.calls && c in Apply(s, step).calls
    requires s.calls[c].phase.Holding? ==>
      var now := DoBuild(s, c, s.calls[c].phase.snap, s.calls[c].phase.mark).calls[c];
      now.op == s.calls[c].op && Came(s, Build(c), c, now)
    requires s.calls[c].phase.Answered? ==>
      var call := s.calls[c];
      var now := Concluded(call, call.phase.req, Verdict(s.server, call.phase.req));
      now.op == call.op && Came(s, ReadBack(c), c, now)
    ensures var now := Apply(s, step).calls[c];
      now.op == s.calls[c].op && (now == s.calls[c] || Came(s, step, c, now))
  {
    hide Modify, View, MemoryToPayload, Serve, Concluded, EndsUnsent, EndsReadBack, Verdict;
  }

  // ----- Whether anything is sent

  /** What a call must have read to send a write: no point, for a store; else a
      payload its operation neither leaves alone nor refuses. */
  predicate WouldSend(op: Op, snap: Option<Point>) {
    match snap
    case None => op.Store?
    case Some(p) => !LeavesAlone(op, p.fields) && !Refuses(op, p.fields)
  }

  lemma SendsIff(s: State, c: nat)
    requires c in s.calls && s.calls[c].phase.Holding?
    ensures Apply(s, Build(c)).calls[c].phase.Sent? <==> WouldSend(s.calls[c].op, s.calls[c].phase.snap)
  {
    var call := s.calls[c];
    if call.phase.snap.Some? { DecisionIff(call.op, call.phase.snap.value.fields); }
    hide Modify, View, MemoryToPayload, LeavesAlone, Refuses, Transform;
  }

  predicate StepOf(step: Step, c: nat) {
    step in [Read(c), Build(c), Deliver(c), GiveUp(c), ReadBack(c), Drop(c)]
  }

  /** The call ended without sending, on a copy its operation does not write over. */
  predicate SentNothing(call: Call, was: Call)
    requires was.phase.Holding?
  {
    call == was
    || (call.phase.Done? && call.op == was.op
        && (call.phase.outcome == Refused || EndsUnsent(was.op, was.round, was.phase.snap, call.phase.outcome)))
  }

  /** A call that read what it does not write over sends nothing, ever: in any
      continuation it holds its copy or has ended so, and no step of its changes
      the server. An insert-only store that found a point is one such call. */
  lemma {:induction false} SendsNothing(s: State, steps: seq<Step>, c: nat)
    requires c in s.calls && s.calls[c].phase.Holding? && !WouldSend(s.calls[c].op, s.calls[c].phase.snap)
    ensures var t := Run(s, steps);
      && In(t, c) && SentNothing(t.calls[c], s.calls[c])
      && forall step | StepOf(step, c) :: Apply(t, step).server == t.server
  {
    hide Apply, StepOf, SentNothing, WouldSend;
    NothingYet(s.calls[c]);
    if steps != [] {
      var n := |steps| - 1;
      SendsNothing(s, steps[..n], c);
      StillNothing(Run(s, steps[..n]), steps[n], c, s.calls[c]);
    }
    forall step | StepOf(step, c) ensures Apply(Run(s, steps), step).server == Run(s, steps).server {
      NothingChanges(Run(s, steps), step, c, s.calls[c]);
    }
  }

  lemma NothingYet(call: Call)
    requires call.phase.Holding?
    ensures SentNothing(call, call)
  {
  }

  lemma StillNothing(s: State, step: Step, c: nat, was: Call)
    requires c in s.calls && was.phase.Holding? && SentNothing(s.calls[c], was)
    requires !WouldSend(was.op, was.phase.snap)
    ensures In(Apply(s, step), c) && SentNothing(Apply(s, step).calls[c], was)
  {
    hide Apply, WouldSend, EndsUnsent, EndsReadBack;
    CallsStay(s, step, c);
    CallStep(s, step, c);
    if step == Build(c) && s.calls[c] == was { SendsIff(s, c); }
    if step == Read(c) && s.calls[c] == was { HoldingReadsNoMore(s, c); }
  }

  lemma CallsStay(s: State, step: Step, c: nat)
    requires c in s.calls
    ensures c in Apply(s, step).calls
  {
    hide Modify, View, MemoryToPayload, Serve, Judge;
  }

  lemma HoldingReadsNoMore(s: State, c: nat)
    requires c in s.calls && s.calls[c].phase.Holding?
    ensures Apply(s, Read(c)) == s
  {
  }

  lemma NothingChanges(s: State, step: Step, c: nat, was: Call)
    requires c in s.calls && was.phase.Holding? && SentNothing(s.calls[c], was) && StepOf(step, c)
    ensures Apply(s, step).server == s.server
  {
    hide Modify, View, MemoryToPayload, LeavesAlone, Refuses;
  }

  /** What a point holds after the operation: a new payload where there was none. */
  function Written(op: Op, point: Option<Point>): Fields
    requires WouldSend(op, point)
  {
    match point
    case None => MemoryToPayload(op.memory)
    case Some(p) => DecisionIff(op, p.fields); Transform(op, p.fields).value
  }

  /** Nothing is lost without a rival: a call that reads, builds, sends and reads
      back with no step of anyone else between lands its write in that round, the
      point holding what the operation makes of what it read. */
  lemma AloneLands(s: State, c: nat)
    requires c in s.calls && s.calls[c].phase.Ready? && WouldSend(s.calls[c].op, s.server.point)
    ensures var call := s.calls[c]; var token := Token(call.writer, Counter(s, call.writer));
      var t := Apply(Apply(Apply(Apply(s, Read(c)), Build(c)), Deliver(c)), ReadBack(c));
      && In(t, c) && t.calls[c].phase == Done(Outcome.Landed(token, s.server.point.None?))
      && t.server.point.Some? && t.server.point.value.rev == Some(token)
      && t.server.point.value.fields == Written(call.op, s.server.point)
  {
    hide Modify, View, MemoryToPayload, Transform, Serve, WouldSend, Written, Built, Landing;
    var call := s.calls[c];
    var mark := Mark(s.server.lives, |s.server.life.commits|);
    var s1 := Apply(s, Read(c));
    assert s1 == SetCall(s, c, call.(phase := Holding(s.server.point, mark)));
    var req := BuiltAlone(s1, c);
    var s2 := Apply(s1, Build(c));
    assert s2.calls[c] == call.(phase := Sent(req, mark)) && s2.server == s.server;
    ServedAlone(s.server, req, c, call.op, mark.lives);
    ReadsYes(s2, c);
  }

  /** An answered write whose token is in the log reads back as landed. */
  lemma ReadsYes(s: State, c: nat)
    requires c in s.calls && s.calls[c].phase.Sent?
    requires var call := s.calls[c];
      var point := Serve(s.server, call.phase.req, c, call.op, call.phase.mark.lives).point;
      point.Some? && call.phase.req.token in point.value.log
    ensures var call := s.calls[c]; var req := call.phase.req;
      var t := Apply(Apply(s, Deliver(c)), ReadBack(c));
      && In(t, c) && t.calls[c].phase == Done(Outcome.Landed(req.token, req.insert))
      && t.server == Serve(s.server, req, c, call.op, call.phase.mark.lives)
  {
    hide Serve;
    var call := s.calls[c];
    var s3 := Apply(s, Deliver(c));
    assert s3.calls[c] == call.(phase := Answered(call.phase.req, call.phase.mark));
    assert Verdict(s3.server, call.phase.req) == Yes;
  }

  lemma BuiltAlone(s: State, c: nat) returns (req: Request)
    requires c in s.calls && s.calls[c].phase.Holding? && WouldSend(s.calls[c].op, s.calls[c].phase.snap)
    ensures var call := s.calls[c]; var n := Counter(s, call.writer); var snap := call.phase.snap;
      && Apply(s, Build(c)) == SetCall(s.(next := s.next[call.writer := n + 1]), c,
                                       call.(phase := Sent(req, call.phase.mark)))
      && req.token == Token(call.writer, n) && req.insert == snap.None? && req.token in req.log
      && (snap.Some? ==>
           && req.readRev == snap.value.rev
           && Landing(snap.value.fields, req.how, req.fields) == Written(call.op, snap))
      && (snap.None? ==> req.fields == Written(call.op, snap))
  {
    hide Modify, View, MemoryToPayload, LeavesAlone, Refuses, Landing, Serve;
    var call := s.calls[c];
    if call.phase.snap.Some? { DecisionIff(call.op, call.phase.snap.value.fields); }
    req := Built(call, call.phase.snap, Token(call.writer, Counter(s, call.writer))).value;
    assert req.log[|req.log| - 1] == req.token;
  }

  lemma ServedAlone(sv: Server, req: Request, c: nat, op: Op, readAt: nat)
    requires req.insert == sv.point.None? && (sv.point.Some? ==> req.readRev == sv.point.value.rev)
    requires req.token in req.log
    ensures var q := Serve(sv, req, c, op, readAt).point;
      && q.Some? && q.value.rev == Some(req.token) && q.value.log == req.log
      && q.value.fields ==
         match sv.point case None => req.fields case Some(p) => Landing(p.fields, req.how, req.fields)
  {
    hide Landing;
  }

  // ----- Through a run

  /** The state after the first `i` steps. */
  function After(legacy: Option<Fields>, steps: seq<Step>, i: nat): State
    requires i <= |steps|
  {
    Run(Initial(legacy), steps[..i])
  }

  /** The call's last read, step `i`: it held what it read ever after, or ended. */
  predicate LastRead(legacy: Option<Fields>, steps: seq<Step>, c: nat, i: nat)
    requires i < |steps|
  {
    && steps[i] == Read(c)
    && In(After(legacy, steps, i), c) && After(legacy, steps, i).calls[c].phase.Ready?
    && forall j | i < j <= |steps| ::
         var s := After(legacy, steps, j); In(s, c) && (s.calls[c].phase.Holding? || s.calls[c].phase.Done?)
  }

  /** The call's read-back, step `i`, of the request it had sent. */
  predicate ReadsBack(legacy: Option<Fields>, steps: seq<Step>, c: nat, i: nat)
    requires i < |steps|
  {
    steps[i] == ReadBack(c) && In(After(legacy, steps, i), c) && After(legacy, steps, i).calls[c].phase.Answered?
  }

  /** Step `i` gives up on the call while its request is out or answered. */
  predicate IsGivenUp(legacy: Option<Fields>, steps: seq<Step>, c: nat, i: nat)
    requires i < |steps|
  {
    var s := After(legacy, steps, i);
    steps[i] == GiveUp(c) && In(s, c) && (s.calls[c].phase.Sent? || s.calls[c].phase.Answered?)
  }

  /** Step `i` drops the call before it sends. */
  predicate IsDropped(legacy: Option<Fields>, steps: seq<Step>, c: nat, i: nat)
    requires i < |steps|
  {
    var s := After(legacy, steps, i);
    steps[i] == Drop(c) && In(s, c) && (s.calls[c].phase.Ready? || s.calls[c].phase.Holding?)
  }

  /** Why a call ended as it did: what it found at step `i` of the run. */
  predicate Explained(legacy: Option<Fields>, steps: seq<Step>, c: nat, op: Op, outcome: Outcome, i: nat)
    requires i < |steps|
  {
    var point := After(legacy, steps, i).server.point;
    match outcome
    case Skipped =>
      && LastRead(legacy, steps, c, i)
      && (match point case Some(p) => LeavesAlone(op, p.fields) case None => op.MigrateFlat?)
    case Refused =>
      || IsDropped(legacy, steps, c, i)
      || (LastRead(legacy, steps, c, i) && point.Some? && Refuses(op, point.value.fields))
    case Absent =>
      && LastRead(legacy, steps, c, i) && point.None?
      && !op.Store? && After(legacy, steps, i).calls[c].round == 0
    case Deleted =>
      && point.None?
      && (ReadsBack(legacy, steps, c, i)
          || (LastRead(legacy, steps, c, i) && !op.Store? && After(legacy, steps, i).calls[c].round > 0))
    case Landed(t, created) =>
      && ReadsBack(legacy, steps, c, i) && point.Some? && t in point.value.log
      && var req := After(legacy, steps, i).calls[c].phase.req; t == req.token && created == req.insert
    case Unconfirmed =>
      || IsGivenUp(legacy, steps, c, i)
      || (ReadsBack(legacy, steps, c, i)
          && var s := After(legacy, steps, i);
             s.calls[c].round + 1 >= 8 || Verdict(s.server, s.calls[c].phase.req) == Unknown)
  }

  lemma AfterPrefix(legacy: Option<Fields>, steps: seq<Step>, n: nat, i: nat)
    requires i <= n <= |steps|
    ensures After(legacy, steps[..n], i) == After(legacy, steps, i)
  {
    assert steps[..n][..i] == steps[..i];
  }

  lemma AfterNext(legacy: Option<Fields>, steps: seq<Step>)
    requires steps != []
    ensures After(legacy, steps, |steps|) == Apply(After(legacy, steps, |steps| - 1), steps[|steps| - 1])
  {
    hide Apply;
    assert steps[..|steps|] == steps;
  }

  /** A call that still holds its copy, or has just ended, read no more. */
  lemma LastReadLater(legacy: Option<Fields>, steps: seq<Step>, c: nat, i: nat)
    requires i < |steps| - 1 && LastRead(legacy, steps[..|steps| - 1], c, i)
    requires var s := After(legacy, steps, |steps|); In(s, c) && (s.calls[c].phase.Holding? || s.calls[c].phase.Done?)
    ensures LastRead(legacy, steps, c, i)
  {
    hide After;
    forall j | 0 <= j < |steps| ensures After(legacy, steps[..|steps| - 1], j) == After(legacy, steps, j) {
      AfterPrefix(legacy, steps, |steps| - 1, j);
    }
  }

  /** A call holding a copy made it by its last read, of the point as it was. */
  lemma {:induction false} HeldSince(legacy: Option<Fields>, steps: seq<Step>, c: nat) returns (i: nat)
    requires var s := After(legacy, steps, |steps|); In(s, c) && s.calls[c].phase.Holding?
    ensures i < |steps| && LastRead(legacy, steps, c, i)
    ensures var s := After(legacy, steps, |steps|); var then_ := After(legacy, steps, i);
      then_.server.point == s.calls[c].phase.snap && then_.calls[c].round == s.calls[c].round
      && then_.calls[c].op == s.calls[c].op
  {
    hide Apply, Came, After, LastRead;
    if steps == [] { NoCalls(legacy, c); }
    var n := |steps| - 1;
    var s := After(legacy, steps, n);
    AfterNext(legacy, steps);
    CallStep(s, steps[n], c);
    if In(s, c) && After(legacy, steps, n + 1).calls[c] == s.calls[c] {
      AfterPrefix(legacy, steps, n, n);
      i := HeldSince(legacy, steps[..n], c);
      AfterPrefix(legacy, steps, n, i);
      LastReadLater(legacy, steps, c, i);
    } else {
      i := n;
      JustRead(legacy, steps, c);
    }
  }

  lemma JustRead(legacy: Option<Fields>, steps: seq<Step>, c: nat)
    requires steps != []
    requires var s := After(legacy, steps, |steps|); In(s, c) && s.calls[c].phase.Holding?
    requires var n := |steps| - 1; var was := After(legacy, steps, n);
      In(was, c) && Came(was, steps[n], c, After(legacy, steps, |steps|).calls[c])
    ensures var n := |steps| - 1;
      && LastRead(legacy, steps, c, n)
      && After(legacy, steps, n).server.point == After(legacy, steps, |steps|).calls[c].phase.snap
      && After(legacy, steps, n).calls[c].round == After(legacy, steps, |steps|).calls[c].round
  {
    hide After;
  }

  lemma NoCalls(legacy: Option<Fields>, c: nat)
    ensures !In(After(legacy, [], 0), c)
  {
  }

  lemma ExplainedLater(legacy: Option<Fields>, steps: seq<Step>, c: nat, op: Op, outcome: Outcome, i: nat)
    requires i < |steps| - 1 && Explained(legacy, steps[..|steps| - 1], c, op, outcome, i)
    requires var s := After(legacy, steps, |steps|);
      outcome != Unconfirmed ==> In(s, c) && s.calls[c].phase.Done?
    ensures Explained(legacy, steps, c, op, outcome, i)
  {
    hide After, LastRead, LeavesAlone, Refuses, Verdict;
    AfterPrefix(legacy, steps, |steps| - 1, i);
    if outcome != Unconfirmed && LastRead(legacy, steps[..|steps| - 1], c, i) { LastReadLater(legacy, steps, c, i); }
  }

  /** The call has ended with this outcome, or was given up on. */
  predicate Ended(s: State, c: nat, outcome: Outcome) {
    In(s, c) && (s.calls[c].phase == Done(outcome) || (outcome == Unconfirmed && s.calls[c].phase.Abandoned?))
  }

  /** Every outcome has its cause in the run. Deleted: the point was gone when the
      call read it again or read back. Skipped: its last read found a payload the
      operation leaves alone. Absent: its first read found no point. Refused: its
      last read found a payload the operation refuses, or the batch dropped it.
      Landed: its read-back found its token. Unconfirmed: it was given up on, lost
      its eighth race, or could not tell. */
  lemma {:induction false} OutcomeExplained(legacy: Option<Fields>, steps: seq<Step>, c: nat, outcome: Outcome)
    returns (i: nat)
    requires Ended(After(legacy, steps, |steps|), c, outcome)
    ensures i < |steps| && Explained(legacy, steps, c, After(legacy, steps, |steps|).calls[c].op, outcome, i)
  {
    hide Apply, Came, After, Explained;
    if steps == [] { NoCalls(legacy, c); }
    var n := |steps| - 1;
    var s := After(legacy, steps, n);
    AfterNext(legacy, steps);
    CallStep(s, steps[n], c);
    if In(s, c) && Ended(s, c, outcome) {
      AfterPrefix(legacy, steps, n, n);
      i := OutcomeExplained(legacy, steps[..n], c, outcome);
      ExplainedLater(legacy, steps, c, s.calls[c].op, outcome, i);
    } else {
      i := JustEnded(legacy, steps, c, outcome);
    }
  }

  lemma JustEnded(legacy: Option<Fields>, steps: seq<Step>, c: nat, outcome: Outcome) returns (i: nat)
    requires steps != [] && Ended(After(legacy, steps, |steps|), c, outcome)
    requires var n := |steps| - 1; var was := After(legacy, steps, n);
      In(was, c) && !Ended(was, c, outcome) && Came(was, steps[n], c, After(legacy, steps, |steps|).calls[c])
    ensures i < |steps| && Explained(legacy, steps, c, After(legacy, steps, |steps| - 1).calls[c].op, outcome, i)
  {
    hide After, LastRead, LeavesAlone, Refuses, Verdict, EndsUnsent;
    var n := |steps| - 1;
    var was := After(legacy, steps, n);
    if was.calls[c].phase.Holding? && steps[n] == Build(c) {
      i := EndedUnsent(legacy, steps, c, outcome);
    } else {
      i := n;
    }
  }

  lemma EndedUnsent(legacy: Option<Fields>, steps: seq<Step>, c: nat, outcome: Outcome) returns (i: nat)
    requires steps != []
    requires var s := After(legacy, steps, |steps|); In(s, c) && s.calls[c].phase == Done(outcome)
    requires var was := After(legacy, steps, |steps| - 1);
      && In(was, c) && was.calls[c].phase.Holding?
      && EndsUnsent(was.calls[c].op, was.calls[c].round, was.calls[c].phase.snap, outcome)
    ensures i < |steps| && Explained(legacy, steps, c, After(legacy, steps, |steps| - 1).calls[c].op, outcome, i)
  {
    hide After, LastRead, LeavesAlone, Refuses, Verdict;
    var n := |steps| - 1;
    AfterPrefix(legacy, steps, n, n);
    i := HeldSince(legacy, steps[..n], c);
    AfterPrefix(legacy, steps, n, i);
    LastReadLater(legacy, steps, c, i);
  }

  // ----- Who inserted the point

  /** A step leaves the writes that applied as they are, or delivers one more. */
  lemma ViewsGrow(s: State, step: Step, t: Token)
    requires t in Apply(s, step).server.views
    ensures t in s.server.views
      || (step.Deliver? && In(s, step.c) && HasReq(s.calls[step.c]) && !s.calls[step.c].phase.Answered?
          && s.calls[step.c].phase.req.token == t)
  {
    hide Landing, DoBuild, Concluded, Verdict;
    if step.Build? && In(s, step.c) && s.calls[step.c].phase.Holding? { BuildLeavesServer(s, step.c); }
  }

  lemma BuildLeavesServer(s: State, c: nat)
    requires c in s.calls && s.calls[c].phase.Holding?
    ensures DoBuild(s, c, s.calls[c].phase.snap, s.calls[c].phase.mark).server == s.server
  {
    hide Modify, View, MemoryToPayload;
  }

  /** No other call's write makes this call's token appear. */
  lemma ViewsStep(s: State, step: Step, c: nat)
    requires TokensInv(s) && c in s.calls && s.calls[c].phase.Answered?
    requires s.calls[c].phase.req.token in Apply(s, step).server.views
    ensures s.calls[c].phase.req.token in s.server.views
  {
    hide Apply, Issued;
    ViewsGrow(s, step, s.calls[c].phase.req.token);
  }

  /** An answered request was delivered once, and if it ever applied it did then:
      on an absent point if and only if it was an insertion. */
  lemma {:induction false} DeliveredAt(legacy: Option<Fields>, steps: seq<Step>, c: nat) returns (d: nat)
    requires var s := After(legacy, steps, |steps|); In(s, c) && s.calls[c].phase.Answered?
    ensures d < |steps| && steps[d] == Deliver(c)
    ensures var s := After(legacy, steps, |steps|); var req := s.calls[c].phase.req;
      req.token in s.server.views ==> Applied(legacy, steps, d, req.token, req.insert)
  {
    hide Apply, Came, After, Applied, Inv;
    if steps == [] { NoCalls(legacy, c); }
    var n := |steps| - 1;
    var s := After(legacy, steps, n);
    AfterNext(legacy, steps);
    CallStep(s, steps[n], c);
    InvAfter(legacy, steps, n);
    if In(s, c) && After(legacy, steps, n + 1).calls[c] == s.calls[c] {
      AfterPrefix(legacy, steps, n, n);
      d := DeliveredAt(legacy, steps[..n], c);
      if s.calls[c].phase.req.token in After(legacy, steps, n + 1).server.views {
        TokensOfInv(s);
        ViewsStep(s, steps[n], c);
        AppliedLater(legacy, steps, d, s.calls[c].phase.req.token, s.calls[c].phase.req.insert);
      }
    } else {
      d := n;
      JustDelivered(legacy, steps, c);
    }
  }

  lemma InvAfter(legacy: Option<Fields>, steps: seq<Step>, i: nat)
    requires i <= |steps|
    ensures Inv(After(legacy, steps, i))
  {
    hide Inv, Run;
    RunInv(legacy, steps[..i]);
  }

  lemma TokensOfInv(s: State)
    requires Inv(s)
    ensures TokensInv(s)
  {
    hide TokensInv, ServerInv, CommitsNamed, CallInv;
  }

  /** Step `d` applied the write stamped `t`, on an absent point exactly when it
      `created` it. */
  predicate Applied(legacy: Option<Fields>, steps: seq<Step>, d: nat, t: Token, created: bool)
    requires d < |steps|
  {
    var point := After(legacy, steps, d + 1).server.point;
    && point.Some? && point.value.rev == Some(t)
    && (After(legacy, steps, d).server.point.None? <==> created)
  }

  lemma AppliedLater(legacy: Option<Fields>, steps: seq<Step>, d: nat, t: Token, created: bool)
    requires d < |steps| - 1 && Applied(legacy, steps[..|steps| - 1], d, t, created)
    ensures Applied(legacy, steps, d, t, created)
  {
    hide After;
    AfterPrefix(legacy, steps, |steps| - 1, d);
    AfterPrefix(legacy, steps, |steps| - 1, d + 1);
  }

  lemma JustDelivered(legacy: Option<Fields>, steps: seq<Step>, c: nat)
    requires steps != []
    requires var s := After(legacy, steps, |steps|); In(s, c) && s.calls[c].phase.Answered?
    requires var n := |steps| - 1; var was := After(legacy, steps, n);
      && In(was, c) && Came(was, steps[n], c, After(legacy, steps, |steps|).calls[c]) && Inv(was)
      && After(legacy, steps, |steps|) == Apply(was, steps[n])
    ensures var n := |steps| - 1; var s := After(legacy, steps, |steps|); var req := s.calls[c].phase.req;
      steps[n] == Deliver(c) && (req.token in s.server.views ==> Applied(legacy, steps, n, req.token, req.insert))
  {
    hide After, Inv, Landing, DoBuild, Concluded, Verdict;
    CallOfInv(After(legacy, steps, |steps| - 1), c);
    hide ServerInv, ReqOk, ReadOk, NoCommitBy;
  }

  /** Landed says of itself whether it made the point: it reports an insertion
      exactly when its write found no point. */
  lemma CreatedMeans(legacy: Option<Fields>, steps: seq<Step>, c: nat, t: Token, created: bool) returns (d: nat)
    requires Ended(After(legacy, steps, |steps|), c, Outcome.Landed(t, created))
    ensures d < |steps| && steps[d] == Deliver(c) && Applied(legacy, steps, d, t, created)
  {
    hide After, Applied, Inv, ServerInv, Apply;
    var i := OutcomeExplained(legacy, steps, c, Outcome.Landed(t, created));
    AfterPrefix(legacy, steps, i, i);
    d := DeliveredAt(legacy, steps[..i], c);
    InvAfter(legacy, steps, i);
    var s := After(legacy, steps, i);
    CallOfInv(s, c);
    YesInLife(s.server, s.calls[c].phase.req);
    AppliedIn(legacy, steps, i, d, t, created);
  }

  lemma AppliedIn(legacy: Option<Fields>, steps: seq<Step>, i: nat, d: nat, t: Token, created: bool)
    requires d < i <= |steps| && Applied(legacy, steps[..i], d, t, created)
    ensures Applied(legacy, steps, d, t, created)
  {
    hide After;
    AfterPrefix(legacy, steps, i, d);
    AfterPrefix(legacy, steps, i, d + 1);
  }
}
