// `update_points`: one operation applied to a batch of points in rounds. It
// keeps the batch's books, and they agree with the protocol at every point.

module UpdatePoints {
  import opened Wrappers
  import opened Revision
  import opened Json
  import opened Payload
  import opened Protocol
  import opened ProtocolInvariant
  import opened ProtocolSafety
  import opened ProtocolOutcomes
  import opened Collections
  import opened Rounds

  /** The batch's books: every id is either settled or still pending. */
  predicate Books(ids: seq<Id>, pending: seq<Id>, outcome: map<Id, Outcome>, sent: seq<Draft>) {
    && Within(pending, Dedup(ids)) && NoDup(pending)
    && (forall id | id in ids :: id in outcome || id in pending)
    && (forall id | id in outcome :: id in ids && Backed(sent, id, outcome[id]))
    && (forall id | id in pending :: id in ids && id !in outcome)
  }

  predicate InOrder(rounds: seq<seq<Draft>>, ids: seq<Id>) {
    forall ds | ds in rounds :: Within(IdsOf(ds), Dedup(ids))
  }

  lemma BooksOpen(ids: seq<Id>)
    ensures Books(ids, Dedup(ids), map[], [])
  {
    DedupMembers(ids);
    DedupNoDup(ids);
    WithinSelf(Dedup(ids));
  }

  lemma BooksStep(ids: seq<Id>, pending: seq<Id>, outcome: map<Id, Outcome>, sent: seq<Draft>,
                  lost: seq<Id>, settled: map<Id, Outcome>, drafts: seq<Draft>)
    requires Books(ids, pending, outcome, sent) && Within(lost, pending)
    requires forall id :: id in settled <==> id in pending && id !in lost
    requires forall id | id in settled :: Backed(drafts, id, settled[id])
    ensures Books(ids, lost, outcome + settled, sent + drafts)
  {
    WithinTrans(lost, pending, Dedup(ids));
    WithinNoDup(lost, pending);
    forall id | id in lost ensures id in pending { WithinMember(lost, pending, id); }
    forall id | id in outcome ensures Backed(sent + drafts, id, outcome[id]) {
      BackedMore(sent, drafts, id, outcome[id]);
    }
    forall id | id in settled ensures Backed(sent + drafts, id, settled[id]) {
      BackedMore(drafts, [], id, settled[id]);
      BackedPrefix(sent, drafts, id, settled[id]);
    }
    hide Within, NoDup, Dedup, Backed;
  }

  lemma BackedPrefix(more: seq<Draft>, sent: seq<Draft>, id: Id, outcome: Outcome)
    requires Backed(sent, id, outcome)
    ensures Backed(more + sent, id, outcome)
  {
    if outcome.Landed? {
      var d :| d in sent && d.id == id && d.req.token == outcome.token && d.req.insert == outcome.created;
      assert d in more + sent;
    }
  }

  /** Closing the books leaves one outcome per id. */
  lemma BooksClose(ids: seq<Id>, pending: seq<Id>, outcome: map<Id, Outcome>, sent: seq<Draft>, rest: map<Id, Outcome>)
    requires Books(ids, pending, outcome, sent)
    requires rest.Keys == set id | id in pending
    requires forall id | id in rest :: !rest[id].Landed?
    ensures forall id :: id in outcome + rest <==> id in ids
    ensures forall id | id in outcome + rest :: Backed(sent, id, (outcome + rest)[id])
  {
    hide Within, NoDup, Dedup;
  }

  lemma OrderStep(rounds: seq<seq<Draft>>, drafts: seq<Draft>, pending: seq<Id>, ids: seq<Id>)
    requires InOrder(rounds, ids) && Within(IdsOf(drafts), pending) && Within(pending, Dedup(ids))
    ensures InOrder(rounds + [drafts], ids)
  {
    WithinTrans(IdsOf(drafts), pending, Dedup(ids));
    hide Within, Dedup;
  }

  /** What the call found when it began. */
  datatype Start = Start(sent: seq<Draft>, instance: nat, writes: nat)

  /** Everything the call has done up to here. */
  predicate SoFar(run: Start, ids: seq<Id>, rounds: seq<seq<Draft>>, pending: seq<Id>, outcome: map<Id, Outcome>,
                  sent: seq<Draft>, writes: nat) {
    && sent == run.sent + Flat(rounds) && run.writes <= writes
    && InOrder(rounds, ids) && Fresh(Flat(rounds), run.instance, run.writes, writes)
    && Books(ids, pending, outcome, Flat(rounds))
  }

  /** A strict batch never goes past a first read that misses a point. */
  predicate NoneAbsent(op: Op, outcome: map<Id, Outcome>) {
    Strict(op) ==> forall id | id in outcome :: outcome[id] != Absent
  }

  lemma NoneYet(op: Op)
    ensures NoneAbsent(op, map[])
  {
  }

  lemma Opening(run: Start, ids: seq<Id>)
    ensures SoFar(run, ids, [], Dedup(ids), map[], run.sent, run.writes)
  {
    BooksOpen(ids);
  }

  lemma Closing(run: Start, ids: seq<Id>, rounds: seq<seq<Draft>>, pending: seq<Id>, outcome: map<Id, Outcome>,
                sent: seq<Draft>, writes: nat)
    requires SoFar(run, ids, rounds, pending, outcome, sent, writes)
    ensures sent == run.sent + Flat(rounds) && InOrder(rounds, ids)
    ensures Fresh(Flat(rounds), run.instance, run.writes, writes) && Books(ids, pending, outcome, Flat(rounds))
  {
  }

  lemma PendingIds(run: Start, ids: seq<Id>, rounds: seq<seq<Draft>>, pending: seq<Id>, outcome: map<Id, Outcome>,
                   sent: seq<Draft>, writes: nat)
    requires SoFar(run, ids, rounds, pending, outcome, sent, writes)
    ensures NoDup(pending) && forall id | id in pending :: id in ids && id !in outcome
  {
  }

  lemma Advance(run: Start, ids: seq<Id>, rounds: seq<seq<Draft>>, pending: seq<Id>, outcome: map<Id, Outcome>,
                sent: seq<Draft>, writes: nat,
                lost: seq<Id>, settled: map<Id, Outcome>, drafts: seq<Draft>, sent': seq<Draft>, writes': nat)
    requires SoFar(run, ids, rounds, pending, outcome, sent, writes)
    requires sent' == sent + drafts && writes <= writes' && Fresh(drafts, run.instance, writes, writes')
    requires Within(IdsOf(drafts), pending) && Within(lost, pending)
    requires forall id :: id in settled <==> id in pending && id !in lost
    requires forall id | id in settled :: Backed(drafts, id, settled[id])
    ensures SoFar(run, ids, rounds + [drafts], lost, outcome + settled, sent', writes')
  {
    hide Within, NoDup, Dedup, Backed, Fresh, InOrder;
    BooksStep(ids, pending, outcome, Flat(rounds), lost, settled, drafts);
    RoundSent(run, ids, rounds, pending, outcome, sent, writes, drafts, sent', writes');
    FlatAppend(rounds, drafts);
    hide Books;
  }

  /** A round's writes, whatever came of them. */
  lemma RoundSent(run: Start, ids: seq<Id>, rounds: seq<seq<Draft>>, pending: seq<Id>, outcome: map<Id, Outcome>,
                sent: seq<Draft>, writes: nat, drafts: seq<Draft>, sent': seq<Draft>, writes': nat)
    requires SoFar(run, ids, rounds, pending, outcome, sent, writes)
    requires sent' == sent + drafts && writes <= writes' && Fresh(drafts, run.instance, writes, writes')
    requires Within(IdsOf(drafts), pending)
    ensures sent' == run.sent + Flat(rounds + [drafts]) && InOrder(rounds + [drafts], ids)
    ensures Fresh(Flat(rounds + [drafts]), run.instance, run.writes, writes')
  {
    hide Within, Dedup, Fresh, InOrder, NoDup, Backed;
    OrderStep(rounds, drafts, pending, ids);
    FlatAppend(rounds, drafts);
    FreshAppend(Flat(rounds), drafts, run.instance, run.writes, writes, writes');
    hide Books;
  }

  /** A call cut short in a round has sent that round's writes and no more. */
  lemma Cut(run: Start, ids: seq<Id>, rounds: seq<seq<Draft>>, pending: seq<Id>, outcome: map<Id, Outcome>,
            sent: seq<Draft>, writes: nat, drafts: seq<Draft>, sent': seq<Draft>, writes': nat)
    returns (all: seq<seq<Draft>>)
    requires SoFar(run, ids, rounds, pending, outcome, sent, writes)
    requires sent' == sent + drafts && writes <= writes' && Fresh(drafts, run.instance, writes, writes')
    requires Within(IdsOf(drafts), pending)
    ensures all == if drafts == [] then rounds else rounds + [drafts]
    ensures sent' == run.sent + Flat(all) && InOrder(all, ids) && Fresh(Flat(all), run.instance, run.writes, writes')
  {
    RoundSent(run, ids, rounds, pending, outcome, sent, writes, drafts, sent', writes');
    FlatAppend(rounds, drafts);
    hide Within, Dedup, NoDup, Backed, Books, Flat;
    all := if drafts == [] then rounds else rounds + [drafts];
  }

  lemma NoneAbsentStep(op: Op, round: nat, pending: seq<Id>, read: map<Id, Point>, missed: Option<map<Id, Outcome>>,
                       outcome: map<Id, Outcome>, settled: map<Id, Outcome>)
    requires NoneAbsent(op, outcome)
    requires round == 0 && Strict(op) ==> missed.None?
    requires missed.None? ==> forall id | id in pending :: id in read
    requires (round > 0 || forall id | id in pending :: id in read) ==>
      forall id | id in settled :: settled[id] != Absent
    ensures NoneAbsent(op, outcome + settled)
  {
  }

  lemma NoneAbsentLeft(op: Op, outcome: map<Id, Outcome>, left: map<Id, Outcome>)
    requires NoneAbsent(op, outcome) && forall id | id in left :: left[id] == Unconfirmed
    ensures Strict(op) ==> forall id | id in outcome + left :: (outcome + left)[id] != Absent
  {
  }

  /** Each point's call holds what it read: no point where the outcome is
      Absent, a point where it is Skipped. */
  ghost predicate StillHeld(w: World, me: Me, outcome: map<Id, Outcome>) {
    forall id | id in outcome ::
      && InRound(At(w, id), me, 0) && PhaseOf(At(w, id), me).Holding?
      && outcome[id] == if PhaseOf(At(w, id), me).snap.Some? then Skipped else Absent
  }

  lemma MissedHeld(w: World, me: Me, pending: seq<Id>, read: map<Id, Point>, missed: map<Id, Outcome>)
    requires AllHold(w, me, 0, pending, read) && missed.Keys == set id | id in pending
    requires forall id | id in missed :: missed[id] == if id in read then Skipped else Absent
    ensures StillHeld(w, me, missed)
  {
    hide InRound;
  }

  /** At some moment of the call a point of the batch held a payload the
      operation refuses. */
  ghost predicate MetRefusal(w: World, w': World, me: Me, ids: seq<Id>) {
    exists v: World, id: Id :: id in ids && RanOn(w, v, me, ids) && RanOn(v, w', me, ids) && Refusing(v, id, me.op)
  }

  predicate Refusing(w: World, id: Id, op: Op) {
    At(w, id).server.point.Some? && Refuses(op, At(w, id).server.point.value.fields)
  }

  lemma RefusalMet(me: Me, round: nat, pending: seq<Id>, outcome: map<Id, Outcome>, ids: seq<Id>, w: World, now: World,
                   before: World, read: World, w': World, n: nat)
    requires AtPoints(me, round, pending, outcome, w, now, ids, n) && Drifted(now, before, me)
    requires read == Each(before, pending, Read(me.call)) && RanOn(read, w', me, pending)
    requires AnyRefuses(me.op, pending, PointsAt(before, pending)) && forall id | id in pending :: id in ids
    ensures MetRefusal(w, w', me, ids)
  {
    hide AllPend, AllEnd, RanOn, Bounded, Drifted, Each, Refuses;
    DriftedRan(now, before, me);
    RanTrans(w, now, before, me, ids, [], ids);
    EachRan(before, pending, Read(me.call), me);
    RanTrans(before, read, w', me, pending, pending, ids);
    var id :| id in pending && id in PointsAt(before, pending) && Refuses(me.op, PointsAt(before, pending)[id].fields);
    assert Refusing(before, id, me.op);
  }

  /** The outcomes of a strict batch whose first read misses a point. */
  method Missing(pending: seq<Id>, read: map<Id, Point>) returns (missed: Option<map<Id, Outcome>>)
    ensures missed.None? <==> forall id | id in pending :: id in read
    ensures missed.Some? ==>
      && missed.value.Keys == (set id | id in pending)
      && forall id | id in missed.value :: missed.value[id] == if id in read then Skipped else Absent
  {
    if forall id | id in pending :: id in read { return None; }
    missed := Some(map id | id in pending :: if id in read then Skipped else Absent);
  }

  /** Where the batch stands at the points: the pending ones wait for this
      round, the settled ones ended as the books say. */
  ghost predicate AtPoints(me: Me, round: nat, pending: seq<Id>, outcome: map<Id, Outcome>, w: World, w': World,
                           ids: seq<Id>, n: nat) {
    && AllPend(w', me, round, pending) && AllEnd(w', me, outcome)
    && RanOn(w, w', me, ids) && Bounded(w', me.writer, n)
  }

  /** The read that opens a round. */
  lemma RoundOpens(me: Me, round: nat, pending: seq<Id>, outcome: map<Id, Outcome>, w: World, now: World, before: World,
                   w': World, ids: seq<Id>, n: nat, read: map<Id, Point>, n': nat)
    requires AtPoints(me, round, pending, outcome, w, now, ids, n) && round < MAX_WRITE_ATTEMPTS
    requires Drifted(now, before, me) && read == PointsAt(before, pending) && Bounded(before, me.writer, n')
    requires w' == Each(before, pending, Read(me.call))
    requires forall id | id in pending :: id in ids && id !in outcome
    ensures AllHold(w', me, round, pending, read) && AllEnd(w', me, outcome)
    ensures RanOn(w, w', me, ids) && Bounded(w', me.writer, n')
  {
    hide AllPend, AllHold, AllEnd, RanOn, Bounded, Drifted, Each, PointsAt;
    AfterRead(now, before, w', me, round, pending, read);
    StillBounded(before, w', me.writer, n');
    EndsKept(now, w', me, pending, outcome);
    RanTrans(w, now, w', me, ids, pending, ids);
  }

  lemma RoundCloses(me: Me, round: nat, pending: seq<Id>, read: map<Id, Point>, drafts: seq<Draft>, lost: seq<Id>,
                    settled: map<Id, Outcome>, outcome: map<Id, Outcome>, w: World, now: World, w': World, ids: seq<Id>,
                    n: nat)
    requires RoundDone(me, round, pending, read, drafts, lost, settled, w') && AllEnd(now, me, outcome)
    requires RanOn(w, now, me, ids) && RanOn(now, w', me, pending) && Bounded(w', me.writer, n)
    requires forall id | id in pending :: id in ids && id !in outcome
    ensures AtPoints(me, round + 1, lost, outcome + settled, w, w', ids, n)
  {
    hide AllPend, AllEnd, RanOn, Bounded, Within, Backed;
    EndsKept(now, w', me, pending, outcome);
    AllEndJoin(w', me, outcome, settled);
    RanTrans(w, now, w', me, ids, pending, ids);
  }

  lemma RoundBooks(me: Me, round: nat, pending: seq<Id>, read: map<Id, Point>, drafts: seq<Draft>, lost: seq<Id>,
                   settled: map<Id, Outcome>, w: World)
    requires RoundDone(me, round, pending, read, drafts, lost, settled, w)
    ensures Within(lost, pending) && forall id :: id in settled <==> id in pending && id !in lost
    ensures forall id | id in settled :: Backed(drafts, id, settled[id])
    ensures (round > 0 || forall id | id in pending :: id in read) ==>
      forall id | id in settled :: settled[id] != Absent
  {
    hide Within, Backed, AllPend, AllEnd;
  }

  /** A point still pending after the last round lost every race. */
  lemma LeftEnds(me: Me, pending: seq<Id>, outcome: map<Id, Outcome>, left: map<Id, Outcome>, w: World, w': World,
                 ids: seq<Id>, round: nat, n: nat)
    requires AtPoints(me, round, pending, outcome, w, w', ids, n) && (pending == [] || round >= MAX_WRITE_ATTEMPTS)
    requires left == map id | id in pending :: Unconfirmed
    ensures AllEnd(w', me, outcome + left) && RanOn(w, w', me, ids) && Bounded(w', me.writer, n)
  {
    hide Ends, Waits, RanOn, Bounded;
    assert AllEnd(w', me, left);
    AllEndJoin(w', me, outcome, left);
  }

  lemma CutShort(me: Me, pending: seq<Id>, ids: seq<Id>, w: World, now: World, w': World)
    requires RanOn(w, now, me, ids) && RanOn(now, w', me, pending) && forall id | id in pending :: id in ids
    ensures RanOn(w, w', me, ids)
  {
    hide RanOn;
    RanTrans(w, now, w', me, ids, pending, ids);
  }

  lemma ReadFails(me: Me, round: nat, pending: seq<Id>, outcome: map<Id, Outcome>, ids: seq<Id>, w: World, now: World,
                  w': World, n: nat)
    requires AtPoints(me, round, pending, outcome, w, now, ids, n) && Drifted(now, w', me)
    ensures RanOn(w, w', me, ids)
  {
    hide AllPend, AllEnd, RanOn, Bounded, Drifted;
    Waited(w, now, w', me, ids);
  }

  lemma PointsBounded(me: Me, round: nat, pending: seq<Id>, outcome: map<Id, Outcome>, w: World, w': World,
                      ids: seq<Id>, n: nat)
    requires AtPoints(me, round, pending, outcome, w, w', ids, n)
    ensures Bounded(w', me.writer, n)
  {
    hide AllPend, AllEnd, RanOn, Bounded;
  }

  /** Other calls of the client took counter values meanwhile. */
  lemma SoFarLater(run: Start, ids: seq<Id>, rounds: seq<seq<Draft>>, pending: seq<Id>, outcome: map<Id, Outcome>,
                   sent: seq<Draft>, writes: nat, later: nat)
    requires SoFar(run, ids, rounds, pending, outcome, sent, writes) && writes <= later
    ensures SoFar(run, ids, rounds, pending, outcome, sent, later)
  {
    hide InOrder, Books, Fresh;
    FreshWider(Flat(rounds), run.instance, run.writes, writes, later);
  }

  lemma Opened(me: Me, pending: seq<Id>, ids: seq<Id>, w: World, w': World, n: nat)
    requires RanOn(w, w', me, pending) && AllPend(w', me, 0, pending) && KeepsBounds(w, w', me.writer)
    requires Bounded(w, me.writer, n) && forall id | id in pending :: id in ids
    ensures AtPoints(me, 0, pending, map[], w, w', ids, n)
  {
    hide RanOn, AllPend, Bounded;
    RanWider(w, w', me, pending, ids);
  }

  /** Apply the operation to every point of `ids`.
      Each point runs as the protocol does, whatever everyone else does
      meanwhile, and the outcome reported for it is its protocol call's; that
      of a strict batch with a point missing from its first read aside, which
      sends nothing: each of its calls still holds what it read.
      On success there is exactly one outcome per distinct id, and every
      `Landed` names a write sent to that point. Writes go out in at most
      MAX_WRITE_ATTEMPTS rounds, each in the order of `ids` with repeats
      dropped, and no token is used twice. A batch refused in its first round
      sends nothing. */
  method UpdatePoints(server: Collection, client: Client, me: Me, ids: seq<Id>)
    returns (r: Result<map<Id, Outcome>, Failure>, ghost rounds: seq<seq<Draft>>)
    requires !me.op.MigrateFlat? && client.instance == me.writer
    requires forall id | id in ids :: Mine(At(server.world, id), me).None?
    requires Bounded(server.world, me.writer, client.writes)
    modifies server, client`writes
    ensures server.sent == old(server.sent) + Flat(rounds)
    ensures |rounds| <= MAX_WRITE_ATTEMPTS
    ensures InOrder(rounds, ids)
    ensures Fresh(Flat(rounds), client.instance, old(client.writes), client.writes)
    ensures r.Ok? ==> forall id :: id in r.value <==> id in ids
    ensures r.Ok? ==> forall id | id in r.value :: Backed(Flat(rounds), id, r.value[id])
    ensures r.Ok? && Strict(me.op) && (exists id | id in r.value :: r.value[id] == Absent) ==>
      rounds == [] && forall id | id in r.value :: r.value[id] == Absent || r.value[id] == Skipped
    ensures r == Err(Refusal(0)) ==> rounds == []
    ensures r.Err? && r.error.Refusal? ==> MetRefusal(old(server.world), server.world, me, ids)
    ensures RanOn(old(server.world), server.world, me, ids) && Bounded(server.world, me.writer, client.writes)
    ensures r.Ok? && (Strict(me.op) ==> forall id | id in r.value :: r.value[id] != Absent) ==>
      AllEnd(server.world, me, r.value)
    ensures r.Ok? && Strict(me.op) && (exists id | id in r.value :: r.value[id] == Absent) ==>
      StillHeld(server.world, me, r.value)
  {
    hide *;
    var pending := Dedup(ids);
    DedupMembers(ids);
    server.Open(me, pending);
    Opened(me, pending, ids, old(server.world), server.world, client.writes);
    var outcome: map<Id, Outcome> := map[];
    rounds := [];
    ghost var run := Start(server.sent, client.instance, client.writes);
    Opening(run, ids);
    NoneYet(me.op);
    var round := 0;
    while round < MAX_WRITE_ATTEMPTS
      invariant 0 <= round <= MAX_WRITE_ATTEMPTS && |rounds| <= round
      invariant SoFar(run, ids, rounds, pending, outcome, server.sent, client.writes)
      invariant round == 0 ==> outcome == map[] && rounds == []
      invariant NoneAbsent(me.op, outcome)
      invariant AtPoints(me, round, pending, outcome, old(server.world), server.world, ids, client.writes)
    {
      if pending == [] { break; }
      PendingIds(run, ids, rounds, pending, outcome, server.sent, client.writes);
      ghost var now, stamped := server.world, client.writes;
      PointsBounded(me, round, pending, outcome, old(server.world), now, ids, stamped);
      var read;
      ghost var before;
      read, before := server.Retrieve(me, client, pending, Read(me.call));
      SoFarLater(run, ids, rounds, pending, outcome, server.sent, stamped, client.writes);
      if read.Err? {
        Closing(run, ids, rounds, pending, outcome, server.sent, client.writes);
        ReadFails(me, round, pending, outcome, ids, old(server.world), now, server.world, stamped);
        return Err(Transport), rounds;
      }
      RoundOpens(me, round, pending, outcome, old(server.world), now, before, server.world, ids, stamped, read.value,
                 client.writes);
      var missed := Missing(pending, read.value);
      if round == 0 && Strict(me.op) && missed.Some? {
        Closing(run, ids, rounds, pending, outcome, server.sent, client.writes);
        BooksClose(ids, pending, outcome, Flat(rounds), missed.value);
        assert outcome + missed.value == missed.value;
        MissedHeld(server.world, me, pending, read.value, missed.value);
        return Ok(missed.value), rounds;
      }
      ghost var began := now;
      now := server.world;
      ghost var sent, writes := server.sent, client.writes;
      var lost, settled, failed;
      ghost var drafts;
      lost, settled, drafts, failed := OneRound(server, client, me, round, pending, read.value);
      if failed.Some? {
        CutShort(me, pending, ids, old(server.world), now, server.world);
        if failed.value.Refusal? {
          RefusalMet(me, round, pending, outcome, ids, old(server.world), began, before, now, server.world, stamped);
        }
        rounds := Cut(run, ids, rounds, pending, outcome, sent, writes, drafts, server.sent, client.writes);
        return Err(failed.value), rounds;
      }
      RoundCloses(me, round, pending, read.value, drafts, lost, settled, outcome, old(server.world), now, server.world,
                  ids, client.writes);
      RoundBooks(me, round, pending, read.value, drafts, lost, settled, server.world);
      Advance(run, ids, rounds, pending, outcome, sent, writes, lost, settled, drafts, server.sent, client.writes);
      NoneAbsentStep(me.op, round, pending, read.value, missed, outcome, settled);
      rounds := rounds + [drafts];
      pending, outcome := lost, outcome + settled;
      round := round + 1;
    }
    var left := map id | id in pending :: Unconfirmed;
    Closing(run, ids, rounds, pending, outcome, server.sent, client.writes);
    BooksClose(ids, pending, outcome, Flat(rounds), left);
    NoneAbsentLeft(me.op, outcome, left);
    LeftEnds(me, pending, outcome, left, old(server.world), server.world, ids, round, client.writes);
    r := Ok(outcome + left);
  }

  // ----- What an outcome means

  /** A point that began empty, or with a payload from before revisions, and
      whose call is reported landed: the write was applied, it was in the
      point's history when the call read it back, and it still is unless the
      point has been deleted since. */
  lemma LandedMeans(legacy: Option<Fields>, s: State, me: Me, outcome: Outcome)
    requires Leads(Initial(legacy), s) && Ends(s, me, outcome) && outcome.Landed?
    ensures outcome.token in s.server.views
    ensures exists steps, i: nat :: i <= |steps| && LandedAt(legacy, s, outcome.token, steps, i)
  {
    var steps :| Run(Initial(legacy), steps) == s;
    hide Run;
    RunInv(legacy, steps);
    CallOfInv(s, me.call);
    var i := LandedInHistory(legacy, steps, me.call);
    assert LandedAt(legacy, s, outcome.token, steps, i);
  }

  /** And every outcome has its cause in such a point's history: the payload the
      call last read, or what its read-back found. One that reports an insertion
      is of a write delivered to an absent point, any other of one delivered to
      a present one. */
  lemma OutcomeMeans(legacy: Option<Fields>, s: State, me: Me, outcome: Outcome)
    requires Leads(Initial(legacy), s) && Ends(s, me, outcome)
    ensures exists steps: seq<Step>, i: nat, d: nat ::
      i < |steps| && d < |steps| && Means(legacy, s, me, outcome, steps, i, d)
  {
    hide Run, Explained, Applied;
    var steps :| Run(Initial(legacy), steps) == s;
    assert steps[..|steps|] == steps;
    var i := OutcomeExplained(legacy, steps, me.call, outcome);
    var d := i;
    if outcome.Landed? { d := CreatedMeans(legacy, steps, me.call, outcome.token, outcome.created); }
    assert Means(legacy, s, me, outcome, steps, i, d);
  }

  ghost predicate Means(legacy: Option<Fields>, s: State, me: Me, outcome: Outcome, steps: seq<Step>, i: nat, d: nat)
    requires i < |steps| && d < |steps|
  {
    && Run(Initial(legacy), steps) == s && Mine(s, me).Some?
    && Explained(legacy, steps, me.call, Mine(s, me).value.op, outcome, i)
    && (outcome.Landed? ==>
          steps[d] == Deliver(me.call) && Applied(legacy, steps, d, outcome.token, outcome.created))
  }

  /** After `i` of `steps` the token was in the point's history. */
  ghost predicate LandedAt(legacy: Option<Fields>, s: State, t: Token, steps: seq<Step>, i: nat)
    requires i <= |steps|
  {
    && Run(Initial(legacy), steps) == s
    && InLife(Run(Initial(legacy), steps[..i]).server, t)
    && (Delete !in steps[i..] ==> InLife(s.server, t))
  }
}
