// The whole collection: one state of Protocol.dfy for each point, and how
// these change under one call over many points and under everyone else.

module Collections {
  import opened Wrappers
  import opened Revision
  import opened Payload
  import opened Protocol
  import opened ProtocolInvariant
  import opened ProtocolSafety

  type Id = string
  type World = map<Id, State>

  /** A request for one point. */
  datatype Draft = Draft(id: Id, req: Request)

  /** The call at hand: its number, its client and its operation. At every
      point it is the protocol's call of that number. */
  datatype Me = Me(call: nat, writer: nat, op: Op)

  /** A point no one has touched is empty. */
  function At(w: World, id: Id): State { if id in w then w[id] else Initial(None) }

  function Mine(s: State, me: Me): Option<Call> {
    if me.call in s.calls then Some(s.calls[me.call]) else None
  }

  // ----- Runs of one point

  ghost predicate Leads(s: State, t: State) { exists steps :: Run(s, steps) == t }

  lemma LeadsSelf(s: State)
    ensures Leads(s, s)
  {
    assert Run(s, []) == s;
  }

  lemma LeadsStep(s: State, t: State, step: Step)
    requires Leads(s, t)
    ensures Leads(s, Apply(t, step))
  {
    hide Apply, Run;
    var steps :| Run(s, steps) == t;
    RunAppend(s, steps, step);
  }

  lemma {:induction false} RunConcat(s: State, a: seq<Step>, b: seq<Step>)
    ensures Run(s, a + b) == Run(Run(s, a), b)
  {
    hide Apply;
    if b == [] {
      assert a + b == a;
    } else {
      var n := |b| - 1;
      RunConcat(s, a, b[..n]);
      assert (a + b)[..|a| + n] == a + b[..n];
    }
  }

  lemma LeadsTrans(s: State, t: State, u: State)
    requires Leads(s, t) && Leads(t, u)
    ensures Leads(s, u)
  {
    hide Run;
    var a :| Run(s, a) == t;
    var b :| Run(t, b) == u;
    RunConcat(s, a, b);
  }

  // ----- Everyone else

  /** A step that is not this call's. Other calls of this client take counter
      values too, below `hi`; a request this call gave up on may still be
      delivered. */
  predicate Foreigner(s: State, step: Step, me: Me, hi: nat) {
    var t := Apply(s, step);
    && Counter(t, me.writer) <= hi
    && (Mine(t, me) == Mine(s, me)
        || (step == Deliver(me.call) && Mine(s, me).Some? && Mine(s, me).value.phase.Abandoned?))
  }

  /** Those of `steps` that others can take, one after another. */
  function Meanwhile(s: State, steps: seq<Step>, me: Me, hi: nat): State {
    if steps == [] then s
    else
      var t := Meanwhile(s, steps[..|steps| - 1], me, hi);
      if Foreigner(t, steps[|steps| - 1], me, hi) then Apply(t, steps[|steps| - 1]) else t
  }

  /** What others can do to this call: nothing, or land what it gave up on. */
  predicate CallDrift(a: Option<Call>, b: Option<Call>) {
    a == b || (a.Some? && a.value.phase.Abandoned? && b == Some(a.value.(phase := Done(Unconfirmed))))
  }

  ghost predicate Drift(s: State, t: State, me: Me) {
    Leads(s, t) && CallDrift(Mine(s, me), Mine(t, me))
  }

  lemma DriftSelf(s: State, me: Me)
    ensures Drift(s, s, me)
  {
    LeadsSelf(s);
  }

  lemma DriftTrans(s: State, t: State, u: State, me: Me)
    requires Drift(s, t, me) && Drift(t, u, me)
    ensures Drift(s, u, me)
  {
    LeadsTrans(s, t, u);
    hide Leads;
  }

  lemma ForeignerDrifts(s: State, step: Step, me: Me, hi: nat)
    requires Foreigner(s, step, me, hi)
    ensures Drift(s, Apply(s, step), me)
  {
    LeadsSelf(s);
    LeadsStep(s, s, step);
    if step == Deliver(me.call) { LateDelivery(s, me, hi); }
    hide Apply, Leads;
  }

  lemma LateDelivery(s: State, me: Me, hi: nat)
    requires Foreigner(s, Deliver(me.call), me, hi)
    ensures CallDrift(Mine(s, me), Mine(Apply(s, Deliver(me.call)), me))
  {
    hide Serve;
  }

  lemma {:induction false} MeanwhileDrifts(s: State, steps: seq<Step>, me: Me, hi: nat)
    ensures Drift(s, Meanwhile(s, steps, me, hi), me)
    ensures Counter(s, me.writer) <= hi ==> Counter(Meanwhile(s, steps, me, hi), me.writer) <= hi
  {
    hide Drift, Apply, Mine;
    if steps == [] {
      DriftSelf(s, me);
    } else {
      var n := |steps| - 1;
      MeanwhileDrifts(s, steps[..n], me, hi);
      var t := Meanwhile(s, steps[..n], me, hi);
      if Foreigner(t, steps[n], me, hi) {
        ForeignerDrifts(t, steps[n], me, hi);
        DriftTrans(s, t, Apply(t, steps[n]), me);
      }
    }
  }

  // ----- Where this call stands at one point

  predicate InRound(s: State, me: Me, round: nat) {
    && Mine(s, me).Some?
    && var call := Mine(s, me).value; call.op == me.op && call.writer == me.writer && call.round == round
  }

  function PhaseOf(s: State, me: Me): Phase {
    match Mine(s, me) case Some(call) => call.phase case None => Ready
  }

  predicate Waits(s: State, me: Me, round: nat) { InRound(s, me, round) && PhaseOf(s, me).Ready? }

  predicate Holds(s: State, me: Me, round: nat, snap: Option<Point>) {
    InRound(s, me, round) && PhaseOf(s, me).Holding? && PhaseOf(s, me).snap == snap
  }

  predicate Sends(s: State, me: Me, round: nat, req: Request) {
    InRound(s, me, round) && PhaseOf(s, me).Sent? && PhaseOf(s, me).req == req
  }

  predicate Answers(s: State, me: Me, round: nat, req: Request) {
    InRound(s, me, round) && PhaseOf(s, me).Answered? && PhaseOf(s, me).req == req
  }

  /** The protocol's call has ended with this outcome; a request given up on
      counts as unconfirmed while it may still arrive. */
  predicate Ends(s: State, me: Me, outcome: Outcome) {
    && Mine(s, me).Some?
    && (PhaseOf(s, me) == Done(outcome) || (outcome == Unconfirmed && PhaseOf(s, me).Abandoned?))
  }

  /** Ready for the next round, or out of rounds. */
  predicate Pends(s: State, me: Me, round: nat) {
    if round < MAX_WRITE_ATTEMPTS then Waits(s, me, round) else Ends(s, me, Unconfirmed)
  }

  function CallAt(me: Me, round: nat): Call { Call(me.op, me.writer, round, Ready) }

  /** How the read-back's verdict settles a point; not at all when its race was
      lost. */
  function Settles(verdict: Landed, req: Request): Option<Outcome> {
    match verdict
    case Yes => Some(Outcome.Landed(req.token, req.insert))
    case No => None
    case Gone => Some(Deleted)
    case Unknown => Some(Unconfirmed)
  }

  predicate Stands(s: State, me: Me, round: nat, req: Request, verdict: Landed) {
    match Settles(verdict, req)
    case Some(outcome) => Ends(s, me, outcome)
    case None => Pends(s, me, round + 1)
  }

  // ----- This call's own steps

  lemma BeginStep(s: State, me: Me)
    requires Mine(s, me).None?
    ensures var t := Apply(s, Begin(me.call, me.writer, me.op));
      Waits(t, me, 0) && Counter(t, me.writer) == Counter(s, me.writer)
  {
  }

  lemma ReadStep(s: State, me: Me, round: nat)
    requires Waits(s, me, round)
    ensures var t := Apply(s, Read(me.call));
      Holds(t, me, round, s.server.point) && Counter(t, me.writer) == Counter(s, me.writer)
  {
  }

  /** The client's counter brought up to `n` by its writes to other points. */
  function Synced(s: State, writer: nat, n: nat): State
    decreases n - Counter(s, writer)
  {
    if Counter(s, writer) >= n then s else Synced(Apply(s, Elsewhere(writer)), writer, n)
  }

  lemma {:induction false} SyncedOk(s: State, writer: nat, n: nat)
    requires Counter(s, writer) <= n
    ensures var t := Synced(s, writer, n);
      Counter(t, writer) == n && t.calls == s.calls && t.server == s.server && Leads(s, t)
    decreases n - Counter(s, writer)
  {
    hide Leads;
    if Counter(s, writer) == n {
      LeadsSelf(s);
    } else {
      var u := Apply(s, Elsewhere(writer));
      LeadsSelf(s);
      LeadsStep(s, s, Elsewhere(writer));
      SyncedOk(u, writer, n);
      LeadsTrans(s, u, Synced(u, writer, n));
    }
  }

  /** The point after this call built its write there, the `n`-th its client
      stamps. */
  function Builds(s: State, me: Me, n: nat): State { Apply(Synced(s, me.writer, n), Build(me.call)) }

  lemma BuildStep(s: State, me: Me, round: nat, snap: Option<Point>, n: nat)
    requires Holds(s, me, round, snap) && Counter(s, me.writer) <= n
    ensures var t := Builds(s, me, n); var made := Built(CallAt(me, round), snap, Token(me.writer, n));
      && Leads(s, t)
      && (made.Ok? ==> Sends(t, me, round, made.value) && Counter(t, me.writer) == n + 1)
      && (made.Err? ==> Ends(t, me, made.error) && Counter(t, me.writer) == n)
  {
    hide Leads, Modify, View, MemoryToPayload, Synced;
    SyncedOk(s, me.writer, n);
    LeadsStep(s, Synced(s, me.writer, n), Build(me.call));
  }

  /** The point after this call's request was sent: answered, or given up on
      after or before it applied. */
  function Delivered(s: State, me: Me, answered: bool, arrived: bool): State {
    if answered then Apply(s, Deliver(me.call))
    else if arrived then Apply(Apply(s, Deliver(me.call)), GiveUp(me.call))
    else Apply(s, GiveUp(me.call))
  }

  lemma SendStep(s: State, me: Me, round: nat, req: Request, answered: bool, arrived: bool)
    requires Sends(s, me, round, req)
    ensures var t := Delivered(s, me, answered, arrived);
      && Leads(s, t) && Counter(t, me.writer) == Counter(s, me.writer)
      && (if answered then Answers(t, me, round, req) else Ends(t, me, Unconfirmed))
  {
    hide Leads, Serve;
    LeadsSelf(s);
    LeadsStep(s, s, Deliver(me.call));
    LeadsStep(s, s, GiveUp(me.call));
    LeadsStep(s, Apply(s, Deliver(me.call)), GiveUp(me.call));
  }

  lemma JudgeStep(s: State, me: Me, round: nat, req: Request)
    requires Answers(s, me, round, req) && !me.op.MigrateFlat?
    ensures var t := Apply(s, ReadBack(me.call));
      && Stands(t, me, round, req, Judge(req.readRev, LogOf(s.server.point), req.token))
      && Counter(t, me.writer) == Counter(s, me.writer)
  {
    hide Judge;
  }

  lemma StandsDrift(s: State, t: State, me: Me, round: nat)
    requires Drift(s, t, me)
    ensures Waits(s, me, round) ==> Waits(t, me, round)
    ensures forall req | Sends(s, me, round, req) :: Sends(t, me, round, req)
    ensures forall req | Answers(s, me, round, req) :: Answers(t, me, round, req)
    ensures forall outcome | Ends(s, me, outcome) :: Ends(t, me, outcome)
  {
    hide Leads;
  }

  // ----- Every point

  function Each(w: World, ids: seq<Id>, step: Step): World {
    map id | id in w.Keys + (set i | i in ids) :: if id in ids then Apply(At(w, id), step) else w[id]
  }

  lemma EachAt(w: World, ids: seq<Id>, step: Step, id: Id)
    ensures At(Each(w, ids, step), id) == if id in ids then Apply(At(w, id), step) else At(w, id)
  {
    hide Apply;
  }

  ghost predicate Drifted(w: World, w': World, me: Me) {
    forall id :: Drift(At(w, id), At(w', id), me)
  }

  /** Every point ran on; those outside `ids` without a step of this call. */
  ghost predicate RanOn(w: World, w': World, me: Me, ids: seq<Id>) {
    forall id :: Leads(At(w, id), At(w', id)) && (id !in ids ==> Drift(At(w, id), At(w', id), me))
  }

  /** No point has seen more than `n` of the client's counter values. */
  ghost predicate Bounded(w: World, writer: nat, n: nat) {
    forall id :: Counter(At(w, id), writer) <= n
  }

  ghost predicate KeepsBounds(w: World, w': World, writer: nat) {
    forall n: nat | Bounded(w, writer, n) :: Bounded(w', writer, n)
  }

  ghost predicate AllPend(w: World, me: Me, round: nat, ids: seq<Id>) {
    forall id | id in ids :: Pends(At(w, id), me, round)
  }

  ghost predicate AllHold(w: World, me: Me, round: nat, ids: seq<Id>, read: map<Id, Point>) {
    forall id | id in ids :: Holds(At(w, id), me, round, SnapOf(read, id))
  }

  ghost predicate AllSent(w: World, me: Me, round: nat, ds: seq<Draft>) {
    forall d | d in ds :: Sends(At(w, d.id), me, round, d.req)
  }

  ghost predicate AllAnswered(w: World, me: Me, round: nat, ds: seq<Draft>) {
    forall d | d in ds :: Answers(At(w, d.id), me, round, d.req)
  }

  ghost predicate AllEnd(w: World, me: Me, outcome: map<Id, Outcome>) {
    forall id | id in outcome :: Ends(At(w, id), me, outcome[id])
  }

  function SnapOf(read: map<Id, Point>, id: Id): Option<Point> {
    if id in read then Some(read[id]) else None
  }

  /** The present points among `ids`. */
  function PointsAt(w: World, ids: seq<Id>): map<Id, Point> {
    map id | id in ids && At(w, id).server.point.Some? :: At(w, id).server.point.value
  }

  lemma RanSelf(w: World, me: Me, ids: seq<Id>)
    ensures RanOn(w, w, me, ids)
  {
    hide Leads, Drift;
    forall id ensures Leads(At(w, id), At(w, id)) && Drift(At(w, id), At(w, id), me) {
      LeadsSelf(At(w, id));
      DriftSelf(At(w, id), me);
    }
  }

  lemma RanWider(w: World, w': World, me: Me, a: seq<Id>, ids: seq<Id>)
    requires RanOn(w, w', me, a) && forall id | id in a :: id in ids
    ensures RanOn(w, w', me, ids)
  {
    hide Leads, Drift;
  }

  lemma RanTrans(w: World, w': World, w'': World, me: Me, a: seq<Id>, b: seq<Id>, ids: seq<Id>)
    requires RanOn(w, w', me, a) && RanOn(w', w'', me, b)
    requires forall id | id in a || id in b :: id in ids
    ensures RanOn(w, w'', me, ids)
  {
    hide Leads, Drift;
    forall id ensures Leads(At(w, id), At(w'', id)) && (id !in ids ==> Drift(At(w, id), At(w'', id), me)) {
      LeadsTrans(At(w, id), At(w', id), At(w'', id));
      if id !in ids { DriftTrans(At(w, id), At(w', id), At(w'', id), me); }
    }
  }

  lemma DriftedRan(w: World, w': World, me: Me)
    requires Drifted(w, w', me)
    ensures RanOn(w, w', me, [])
  {
    hide Leads;
  }

  lemma BoundedMore(w: World, writer: nat, n: nat, m: nat)
    requires Bounded(w, writer, n) && n <= m
    ensures Bounded(w, writer, m)
  {
  }

  lemma EachRan(w: World, ids: seq<Id>, step: Step, me: Me)
    ensures RanOn(w, Each(w, ids, step), me, ids)
  {
    hide Leads, Drift, Apply, Each;
    forall id
      ensures Leads(At(w, id), At(Each(w, ids, step), id))
      ensures id !in ids ==> Drift(At(w, id), At(Each(w, ids, step), id), me)
    {
      EachAt(w, ids, step, id);
      LeadsSelf(At(w, id));
      LeadsStep(At(w, id), At(w, id), step);
      DriftSelf(At(w, id), me);
    }
  }

  lemma EndsKept(w: World, w': World, me: Me, ids: seq<Id>, outcome: map<Id, Outcome>)
    requires RanOn(w, w', me, ids) && AllEnd(w, me, outcome)
    requires forall id | id in outcome :: id !in ids
    ensures AllEnd(w', me, outcome)
  {
    hide Leads, Drift, Ends;
    forall id | id in outcome ensures Ends(At(w', id), me, outcome[id]) {
      StandsDrift(At(w, id), At(w', id), me, 0);
    }
  }

  lemma SentKept(w: World, w': World, me: Me, round: nat, ids: seq<Id>, ds: seq<Draft>)
    requires RanOn(w, w', me, ids) && forall d | d in ds :: d.id !in ids
    ensures AllSent(w, me, round, ds) ==> AllSent(w', me, round, ds)
    ensures AllAnswered(w, me, round, ds) ==> AllAnswered(w', me, round, ds)
  {
    hide Leads, Drift, Sends, Answers;
    forall d | d in ds
      ensures Sends(At(w, d.id), me, round, d.req) ==> Sends(At(w', d.id), me, round, d.req)
      ensures Answers(At(w, d.id), me, round, d.req) ==> Answers(At(w', d.id), me, round, d.req)
    {
      StandsDrift(At(w, d.id), At(w', d.id), me, round);
    }
  }

  lemma AllEndJoin(w: World, me: Me, a: map<Id, Outcome>, b: map<Id, Outcome>)
    requires AllEnd(w, me, a) && AllEnd(w, me, b)
    ensures AllEnd(w, me, a + b)
  {
    hide Ends;
  }

  function VerdictOn(d: Draft, back: map<Id, Point>): Landed {
    Judge(d.req.readRev, LogOf(SnapOf(back, d.id)), d.req.token)
  }

  ghost predicate AllStand(w: World, me: Me, round: nat, ds: seq<Draft>, back: map<Id, Point>) {
    forall d | d in ds :: Stands(At(w, d.id), me, round, d.req, VerdictOn(d, back))
  }

  lemma AfterRead(w: World, before: World, w': World, me: Me, round: nat, ids: seq<Id>, read: map<Id, Point>)
    requires AllPend(w, me, round, ids) && round < MAX_WRITE_ATTEMPTS && Drifted(w, before, me)
    requires read == PointsAt(before, ids) && w' == Each(before, ids, Read(me.call))
    ensures AllHold(w', me, round, ids, read) && RanOn(w, w', me, ids)
    ensures KeepsBounds(before, w', me.writer)
  {
    hide Leads, Drift, Each, Apply, RanOn, Waits, Holds;
    DriftedRan(w, before, me);
    EachRan(before, ids, Read(me.call), me);
    RanTrans(w, before, w', me, [], ids, ids);
    forall id ensures id in ids ==> Holds(At(w', id), me, round, SnapOf(read, id))
      ensures Counter(At(w', id), me.writer) == Counter(At(before, id), me.writer)
    {
      EachAt(before, ids, Read(me.call), id);
      if id in ids {
        StandsDrift(At(w, id), At(before, id), me, round);
        ReadStep(At(before, id), me, round);
      }
    }
  }

  lemma AfterNote(w: World, w': World, me: Me, round: nat, id: Id, snap: Option<Point>, n: nat)
    requires Holds(At(w, id), me, round, snap) && Bounded(w, me.writer, n)
    requires w' == w[id := Builds(At(w, id), me, n)]
    ensures RanOn(w, w', me, [id]) && forall j | j != id :: At(w', j) == At(w, j)
    ensures var made := Built(CallAt(me, round), snap, Token(me.writer, n));
      && (made.Ok? ==> Sends(At(w', id), me, round, made.value) && Bounded(w', me.writer, n + 1))
      && (made.Err? ==> Ends(At(w', id), me, made.error) && Bounded(w', me.writer, n))
  {
    hide Leads, Drift, Builds, Built, Sends, Ends, Holds;
    BuildStep(At(w, id), me, round, snap, n);
    forall j ensures Leads(At(w, j), At(w', j)) && (j != id ==> Drift(At(w, j), At(w', j), me)) {
      if j != id { LeadsSelf(At(w, j)); DriftSelf(At(w, j), me); }
    }
  }

  lemma AfterSend(w: World, before: World, w': World, me: Me, round: nat, d: Draft, answered: bool, arrived: bool)
    requires Sends(At(w, d.id), me, round, d.req) && Drifted(w, before, me)
    requires w' == before[d.id := Delivered(At(before, d.id), me, answered, arrived)]
    ensures RanOn(w, w', me, [d.id])
    ensures if answered then Answers(At(w', d.id), me, round, d.req) else Ends(At(w', d.id), me, Unconfirmed)
    ensures KeepsBounds(before, w', me.writer)
  {
    hide Leads, Drift, Delivered, Sends, Answers, Ends, RanOn;
    DriftedRan(w, before, me);
    StandsDrift(At(w, d.id), At(before, d.id), me, round);
    SendStep(At(before, d.id), me, round, d.req, answered, arrived);
    PutRan(before, w', me, d.id);
    RanTrans(w, before, w', me, [], [d.id], [d.id]);
  }

  lemma PutRan(w: World, w': World, me: Me, id: Id)
    requires Leads(At(w, id), At(w', id)) && forall j | j != id :: At(w', j) == At(w, j)
    ensures RanOn(w, w', me, [id])
  {
    hide Leads, Drift;
    forall j ensures Leads(At(w, j), At(w', j)) && (j != id ==> Drift(At(w, j), At(w', j), me)) {
      if j != id { LeadsSelf(At(w, j)); DriftSelf(At(w, j), me); }
    }
  }

  lemma AfterBack(w: World, before: World, w': World, me: Me, round: nat, ds: seq<Draft>, ids: seq<Id>,
                  back: map<Id, Point>)
    requires AllAnswered(w, me, round, ds) && Drifted(w, before, me) && !me.op.MigrateFlat?
    requires forall id :: id in ids <==> exists d | d in ds :: d.id == id
    requires back == PointsAt(before, ids) && w' == Each(before, ids, ReadBack(me.call))
    ensures AllStand(w', me, round, ds, back) && RanOn(w, w', me, ids)
    ensures KeepsBounds(before, w', me.writer)
  {
    hide Leads, Drift, Each, Apply, RanOn, Answers, Stands;
    DriftedRan(w, before, me);
    EachRan(before, ids, ReadBack(me.call), me);
    RanTrans(w, before, w', me, [], ids, ids);
    forall d | d in ds
      ensures Stands(At(w', d.id), me, round, d.req, VerdictOn(d, back))
    {
      JudgedAt(w, before, w', me, round, d, ids, back);
    }
    forall id ensures Counter(At(w', id), me.writer) == Counter(At(before, id), me.writer) {
      EachAt(before, ids, ReadBack(me.call), id);
      if id in ids {
        var d :| d in ds && d.id == id;
        JudgedAt(w, before, w', me, round, d, ids, back);
      }
    }
  }

  lemma JudgedAt(w: World, before: World, w': World, me: Me, round: nat, d: Draft, ids: seq<Id>, back: map<Id, Point>)
    requires Answers(At(w, d.id), me, round, d.req) && Drift(At(w, d.id), At(before, d.id), me) && d.id in ids
    requires !me.op.MigrateFlat? && back == PointsAt(before, ids) && w' == Each(before, ids, ReadBack(me.call))
    ensures Stands(At(w', d.id), me, round, d.req, VerdictOn(d, back))
    ensures Counter(At(w', d.id), me.writer) == Counter(At(before, d.id), me.writer)
  {
    hide Leads, Drift, Each, Apply, Answers, Stands, Judge;
    EachAt(before, ids, ReadBack(me.call), d.id);
    StandsDrift(At(w, d.id), At(before, d.id), me, round);
    JudgeStep(At(before, d.id), me, round, d.req);
  }

  // ----- The collection as the call meets it

  /** A server process: its random instance and its count of stamped writes,
      shared by all its calls. */
  class Client {
    const instance: nat
    var writes: nat

    constructor (instance: nat)
      ensures this.instance == instance && writes == 0
    {
      this.instance := instance;
      writes := 0;
    }

    /** A fresh revision, appended to the log that was read. Other calls may
        have stamped theirs meanwhile. */
    method Stamp(prev: seq<Token>) returns (token: Token, log: seq<Token>)
      modifies this`writes
      ensures writes > old(writes) && token == Token(instance, writes - 1)
      ensures log == Stamped(prev, token)
    {
      var others: int := *;
      if others > 0 { writes := writes + others; }
      token := Token(instance, writes);
      writes := writes + 1;
      log := prev + [token];
      var excess := if |log| > REV_LOG_LEN then |log| - REV_LOG_LEN else 0;
      log := log[excess..];
    }
  }

  /** Qdrant with everyone who writes it. Between and during this call's
      requests others may take any steps at any points, other calls of the same
      client too. `sent` lists the writes this call sent. */
  class Collection {
    var world: World
    ghost var sent: seq<Draft>

    method Wait(me: Me, client: Client)
      requires Bounded(world, me.writer, client.writes)
      modifies this`world, client`writes
      ensures Drifted(old(world), world, me)
      ensures client.writes >= old(client.writes) && Bounded(world, me.writer, client.writes)
    {
      var stamped: int := *;
      if stamped > 0 { client.writes := client.writes + stamped; }
      var theirs: map<Id, seq<Step>> := *;
      var hi := client.writes;
      world := map id | id in world.Keys + theirs.Keys ::
        if id in theirs then Meanwhile(At(world, id), theirs[id], me, hi) else At(world, id);
      forall id ensures Drift(At(old(world), id), At(world, id), me) && Counter(At(world, id), me.writer) <= hi {
        DriftSelf(At(old(world), id), me);
        assert Counter(At(old(world), id), me.writer) <= hi;
        if id in theirs { MeanwhileDrifts(At(old(world), id), theirs[id], me, hi); }
      }
    }

    /** The call begins at its points. */
    method Open(me: Me, ids: seq<Id>)
      requires forall id | id in ids :: Mine(At(world, id), me).None?
      modifies this`world
      ensures RanOn(old(world), world, me, ids) && AllPend(world, me, 0, ids)
      ensures KeepsBounds(old(world), world, me.writer)
    {
      hide RanOn, Mine, Apply, Each, InRound, PhaseOf, Ends;
      var step := Begin(me.call, me.writer, me.op);
      world := Each(world, ids, step);
      EachRan(old(world), ids, step, me);
      forall id ensures id in ids ==> Waits(At(world, id), me, 0)
        ensures Counter(At(world, id), me.writer) == Counter(At(old(world), id), me.writer)
      {
        EachAt(old(world), ids, step, id);
        if id in ids { BeginStep(At(old(world), id), me); }
      }
    }

    /** Present points among `ids`, in one read that is the step `step` of this
        call at each of them. Any request may fail. */
    method Retrieve(me: Me, client: Client, ids: seq<Id>, step: Step)
      returns (r: Result<map<Id, Point>, string>, ghost before: World)
      requires Bounded(world, me.writer, client.writes)
      modifies this`world, client`writes
      ensures Drifted(old(world), before, me)
      ensures client.writes >= old(client.writes) && Bounded(before, me.writer, client.writes)
      ensures r.Ok? ==> r.value == PointsAt(before, ids) && world == Each(before, ids, step)
      ensures r.Err? ==> world == before
    {
      Wait(me, client);
      before := world;
      var fails: bool := *;
      if fails { return Err("transport"), before; }
      r := Ok(PointsAt(world, ids));
      world := Each(world, ids, step);
    }

    /** This call builds its write at `id` with its client's counter at `n`. */
    method Note(me: Me, id: Id, n: nat)
      modifies this`world
      ensures world == old(world)[id := Builds(At(old(world), id), me, n)]
    {
      world := world[id := Builds(At(world, id), me, n)];
    }

    /** Send one conditional write. Whatever the answer, it may have applied. */
    method Send(me: Me, client: Client, d: Draft) returns (answered: bool, ghost before: World, ghost arrived: bool)
      requires Bounded(world, me.writer, client.writes)
      modifies this, client`writes
      ensures sent == old(sent) + [d] && Drifted(old(world), before, me)
      ensures client.writes >= old(client.writes) && Bounded(before, me.writer, client.writes)
      ensures world == before[d.id := Delivered(At(before, d.id), me, answered, arrived)]
    {
      Wait(me, client);
      before := world;
      answered := *;
      var lands: bool := *;
      arrived := lands;
      world := world[d.id := Delivered(At(world, d.id), me, answered, lands)];
      sent := sent + [d];
    }
  }
}
