// One round of `update_points` over the points still pending: build every
// write, send them in order, read back and judge. Each point goes through it as
// its call of Protocol.dfy does.

module Rounds {
  import opened Wrappers
  import opened Json
  import opened Revision
  import opened Payload
  import opened Protocol
  import opened Collections

  // ----- Order

  /** `a` is `b` with elements left out. */
  predicate Within<T(==)>(a: seq<T>, b: seq<T>) {
    a == []
    || (b != []
        && ((a[|a| - 1] == b[|b| - 1] && Within(a[..|a| - 1], b[..|b| - 1]))
            || Within(a, b[..|b| - 1])))
  }

  lemma WithinAppend<T>(a: seq<T>, b: seq<T>, x: T)
    requires Within(a, b)
    ensures Within(a, b + [x]) && Within(a + [x], b + [x])
  {
    assert (b + [x])[..|b|] == b && (a + [x])[..|a|] == a;
  }

  lemma {:induction false} WithinSelf<T>(a: seq<T>)
    ensures Within(a, a)
  {
    if a != [] { WithinSelf(a[..|a| - 1]); }
  }

  lemma {:induction false} WithinTrans<T>(a: seq<T>, b: seq<T>, c: seq<T>)
    requires Within(a, b) && Within(b, c)
    ensures Within(a, c)
    decreases |a| + |b| + |c|
  {
    if a != [] {
      var b', c' := b[..|b| - 1], c[..|c| - 1];
      if b[|b| - 1] == c[|c| - 1] && Within(b', c') {
        if a[|a| - 1] == b[|b| - 1] && Within(a[..|a| - 1], b') {
          WithinTrans(a[..|a| - 1], b', c');
        } else {
          WithinTrans(a, b', c');
        }
      } else {
        WithinTrans(a, b, c');
      }
    }
  }

  lemma {:induction false} WithinMember<T>(a: seq<T>, b: seq<T>, x: T)
    requires Within(a, b) && x in a
    ensures x in b
  {
    if a[|a| - 1] == b[|b| - 1] && Within(a[..|a| - 1], b[..|b| - 1]) {
      if x != a[|a| - 1] { WithinMember(a[..|a| - 1], b[..|b| - 1], x); }
    } else {
      WithinMember(a, b[..|b| - 1], x);
    }
  }

  /** The first occurrence of each id, in order. */
  function Dedup(ids: seq<Id>): seq<Id> {
    if ids == [] then []
    else
      var n := |ids| - 1;
      if ids[n] in ids[..n] then Dedup(ids[..n]) else Dedup(ids[..n]) + [ids[n]]
  }

  lemma {:induction false} DedupMembers(ids: seq<Id>)
    ensures forall id :: id in Dedup(ids) <==> id in ids
  {
    if ids != [] {
      var n := |ids| - 1;
      DedupMembers(ids[..n]);
      assert ids == ids[..n] + [ids[n]];
    }
  }

  function IdsOf(ds: seq<Draft>): seq<Id> {
    seq(|ds|, i requires 0 <= i < |ds| => ds[i].id)
  }

  function Flat(rounds: seq<seq<Draft>>): seq<Draft> {
    if rounds == [] then [] else Flat(rounds[..|rounds| - 1]) + rounds[|rounds| - 1]
  }

  // ----- One round

  predicate NoDup<T(==)>(s: seq<T>) {
    forall i, j | 0 <= i < j < |s| :: s[i] != s[j]
  }

  lemma {:induction false} WithinNoDup<T>(a: seq<T>, b: seq<T>)
    requires Within(a, b) && NoDup(b)
    ensures NoDup(a)
  {
    if a != [] {
      var a', b' := a[..|a| - 1], b[..|b| - 1];
      if a[|a| - 1] == b[|b| - 1] && Within(a', b') {
        WithinNoDup(a', b');
        if a[|a| - 1] in a' { WithinMember(a', b', a[|a| - 1]); }
      } else {
        WithinNoDup(a, b');
      }
    }
  }

  lemma {:induction false} DedupNoDup(ids: seq<Id>)
    ensures NoDup(Dedup(ids))
  {
    if ids != [] {
      var n := |ids| - 1;
      DedupNoDup(ids[..n]);
      DedupMembers(ids[..n]);
    }
  }

  /** Writes that name the memories they change need all of them present. */
  predicate Strict(op: Op) { !op.Store? && !op.Bump? }

  /** The request is the one the protocol's call builds from what was read. */
  predicate BuildsTo(me: Me, round: nat, read: map<Id, Point>, d: Draft) {
    Built(CallAt(me, round), SnapOf(read, d.id), d.req.token) == Ok(d.req)
  }

  /** An end without a write; absent only when the first read missed the point. */
  predicate Plain(round: nat, snap: Option<Point>, outcome: Outcome) {
    !outcome.Landed? && (snap.Some? || round > 0 ==> outcome != Absent)
  }

  /** Tokens `lo` up to `hi` of client `instance`, in order. */
  predicate Fresh(ds: seq<Draft>, instance: nat, lo: nat, hi: nat) {
    && (forall i | 0 <= i < |ds| :: ds[i].req.token.writer == instance && lo <= ds[i].req.token.count < hi)
    && (forall i, j | 0 <= i < j < |ds| :: ds[i].req.token.count < ds[j].req.token.count)
  }

  /** What one point's turn in the build makes of the copy read. */
  method BuildOne(client: Client, me: Me, round: nat, prev: Option<Point>)
    returns (made: Result<Request, Outcome>, n: nat)
    requires !me.op.MigrateFlat?
    modifies client`writes
    ensures made == Built(CallAt(me, round), prev, Token(client.instance, n))
    ensures old(client.writes) <= n && client.writes == n + if made.Ok? then 1 else 0
  {
    var write := None;
    if prev.Some? {
      match Modify(me.op, View(me.op, prev.value.fields))
      case Refuse(_) => return Err(Refused), client.writes;
      case Leave => return Err(Skipped), client.writes;
      case Write(how, fields) => write := Some((how, fields));
    } else if me.op.Store? {
      write := Some((Replace, MemoryToPayload(me.op.memory)));
    } else {
      return Err(if round == 0 then Absent else Deleted), client.writes;
    }
    var token, log := client.Stamp(if prev.Some? then prev.value.log else []);
    var readRev := if prev.Some? then prev.value.rev else None;
    made := Ok(Request(token, readRev, prev.None?, write.value.0, write.value.1, log));
    n := token.count;
  }

  lemma BuiltShape(me: Me, round: nat, snap: Option<Point>, token: Token)
    ensures match Built(CallAt(me, round), snap, token)
            case Ok(req) => req.token == token
            case Err(outcome) => Plain(round, snap, outcome)
  {
    hide Modify, View, MemoryToPayload;
  }

  /** A point of the batch was read with a payload the operation refuses. */
  predicate AnyRefuses(op: Op, ids: seq<Id>, read: map<Id, Point>) {
    exists id | id in ids :: id in read && Refuses(op, read[id].fields)
  }

  lemma RefusedMeans(me: Me, round: nat, snap: Option<Point>, token: Token)
    requires Built(CallAt(me, round), snap, token) == Err(Refused)
    ensures snap.Some? && Refuses(me.op, snap.value.fields)
  {
    if snap.Some? { DecisionIff(me.op, snap.value.fields); }
    hide Modify, View, MemoryToPayload, Refuses, LeavesAlone, Transform;
  }

  /** The build has gone through the ids `done`. */
  ghost predicate Building(me: Me, round: nat, done: seq<Id>, read: map<Id, Point>,
                           drafts: seq<Draft>, settled: map<Id, Outcome>, lo: nat, hi: nat) {
    && Fresh(drafts, me.writer, lo, hi)
    && Within(IdsOf(drafts), done)
    && (forall d | d in drafts :: BuildsTo(me, round, read, d))
    && (forall id :: id in settled <==> id in done && id !in IdsOf(drafts))
    && (forall id | id in settled :: Plain(round, SnapOf(read, id), settled[id]) && settled[id] != Refused)
  }

  /** What the build has done to the collection: its requests are sent next,
      the points it settled have ended, the others are as they were. */
  ghost predicate Progress(me: Me, round: nat, done: seq<Id>, drafts: seq<Draft>, settled: map<Id, Outcome>, hi: nat,
                           w: World, w': World) {
    && AllSent(w', me, round, drafts) && AllEnd(w', me, settled) && Bounded(w', me.writer, hi)
    && RanOn(w, w', me, done) && forall id | id !in done :: At(w', id) == At(w, id)
  }

  lemma NothingBuilt(me: Me, round: nat, pending: seq<Id>, read: map<Id, Point>, lo: nat, w: World)
    requires Bounded(w, me.writer, lo)
    ensures Building(me, round, pending[..0], read, [], map[], lo, lo)
    ensures Progress(me, round, pending[..0], [], map[], lo, w, w)
  {
    RanSelf(w, me, pending[..0]);
    hide Bounded, RanOn;
  }

  lemma EndsOne(me: Me, round: nat, done: seq<Id>, read: map<Id, Point>,
                drafts: seq<Draft>, settled: map<Id, Outcome>, lo: nat, hi: nat, id: Id, outcome: Outcome)
    requires Building(me, round, done, read, drafts, settled, lo, hi) && id !in done
    requires Plain(round, SnapOf(read, id), outcome) && outcome != Refused
    ensures Building(me, round, done + [id], read, drafts, settled[id := outcome], lo, hi)
  {
    hide Plain, BuildsTo, Within, Fresh;
    WithinAppend(IdsOf(drafts), done, id);
    if id in IdsOf(drafts) { WithinMember(IdsOf(drafts), done, id); }
  }

  lemma DraftsOne(me: Me, round: nat, done: seq<Id>, read: map<Id, Point>,
                  drafts: seq<Draft>, settled: map<Id, Outcome>, lo: nat, hi: nat, d: Draft)
    requires Building(me, round, done, read, drafts, settled, lo, hi) && d.id !in done && lo <= hi
    requires BuildsTo(me, round, read, d) && d.req.token == Token(me.writer, hi)
    ensures Building(me, round, done + [d.id], read, drafts + [d], settled, lo, hi + 1)
  {
    hide Plain, BuildsTo, Within, Fresh;
    WithinAppend(IdsOf(drafts), done, d.id);
    assert IdsOf(drafts + [d]) == IdsOf(drafts) + [d.id];
    FreshOne(drafts, me.writer, lo, hi, d);
  }

  lemma FreshOne(ds: seq<Draft>, instance: nat, lo: nat, hi: nat, d: Draft)
    requires Fresh(ds, instance, lo, hi) && d.req.token == Token(instance, hi) && lo <= hi
    ensures Fresh(ds + [d], instance, lo, hi + 1)
  {
  }

  /** One point's turn: nothing else moved. */
  lemma ProgressOne(me: Me, round: nat, done: seq<Id>, drafts: seq<Draft>, settled: map<Id, Outcome>, n: nat,
                    w: World, before: World, w': World, id: Id, snap: Option<Point>)
    requires Progress(me, round, done, drafts, settled, n, w, before)
    requires id !in done && id !in IdsOf(drafts) && id !in settled
    requires Holds(At(w, id), me, round, snap) && w' == before[id := Builds(At(before, id), me, n)]
    ensures match Built(CallAt(me, round), snap, Token(me.writer, n))
            case Ok(req) => Progress(me, round, done + [id], drafts + [Draft(id, req)], settled, n + 1, w, w')
            case Err(outcome) => Progress(me, round, done + [id], drafts, settled[id := outcome], n, w, w')
  {
    hide Built, Holds, Sends, Ends, Builds, RanOn, Bounded;
    AfterNote(before, w', me, round, id, snap, n);
    RanTrans(w, before, w', me, done, [id], done + [id]);
    forall d | d in drafts ensures d.id != id { NotOfId(drafts, d, id); }
    SentKept(before, w', me, round, [id], drafts);
    EndsKept(before, w', me, [id], settled);
  }

  lemma NotOfId(ds: seq<Draft>, d: Draft, id: Id)
    requires d in ds && id !in IdsOf(ds)
    ensures d.id != id
  {
    var i :| 0 <= i < |ds| && ds[i] == d;
    assert IdsOf(ds)[i] == d.id;
  }

  lemma BuildingAll(me: Me, round: nat, done: seq<Id>, pending: seq<Id>, read: map<Id, Point>,
                    drafts: seq<Draft>, settled: map<Id, Outcome>, lo: nat, hi: nat, w: World, w': World)
    requires Building(me, round, done, read, drafts, settled, lo, hi)
    requires Progress(me, round, done, drafts, settled, hi, w, w') && forall id | id in done :: id in pending
    ensures Fresh(drafts, me.writer, lo, hi) && Within(IdsOf(drafts), done)
    ensures forall d | d in drafts :: BuildsTo(me, round, read, d)
    ensures forall id :: id in settled <==> id in done && id !in IdsOf(drafts)
    ensures forall id | id in settled :: Plain(round, SnapOf(read, id), settled[id]) && settled[id] != Refused
    ensures AllSent(w', me, round, drafts) && AllEnd(w', me, settled) && Bounded(w', me.writer, hi)
    ensures RanOn(w, w', me, pending)
  {
    hide Plain, BuildsTo, Within, Fresh, AllSent, AllEnd, Bounded, RanOn;
    RanWider(w, w', me, done, pending);
  }

  /** Build every write of a round before any is sent, each from its own read.
      A refusal ends the whole batch. */
  method BuildRound(server: Collection, client: Client, me: Me, round: nat, pending: seq<Id>, read: map<Id, Point>)
    returns (drafts: seq<Draft>, settled: map<Id, Outcome>, refused: bool)
    requires !me.op.MigrateFlat? && NoDup(pending) && client.instance == me.writer
    requires AllHold(server.world, me, round, pending, read) && Bounded(server.world, me.writer, client.writes)
    modifies server`world, client`writes
    ensures client.writes >= old(client.writes)
    ensures Fresh(drafts, client.instance, old(client.writes), client.writes)
    ensures refused ==> AnyRefuses(me.op, pending, read)
    ensures !refused ==> Within(IdsOf(drafts), pending)
    ensures forall d | d in drafts :: BuildsTo(me, round, read, d)
    ensures !refused ==> forall id :: id in settled <==> id in pending && id !in IdsOf(drafts)
    ensures forall id | id in settled :: Plain(round, SnapOf(read, id), settled[id]) && settled[id] != Refused
    ensures AllSent(server.world, me, round, drafts) && AllEnd(server.world, me, settled)
    ensures RanOn(old(server.world), server.world, me, pending) && Bounded(server.world, me.writer, client.writes)
  {
    hide Built, BuildsTo, Building, Progress, Plain, Fresh, Within, Holds, Builds, RanOn, Bounded, AllSent, AllEnd,
         Refuses;
    drafts, settled, refused := [], map[], false;
    NothingBuilt(me, round, pending, read, client.writes, server.world);
    for i := 0 to |pending|
      invariant client.writes >= old(client.writes)
      invariant Building(me, round, pending[..i], read, drafts, settled, old(client.writes), client.writes)
      invariant Progress(me, round, pending[..i], drafts, settled, client.writes, old(server.world), server.world)
    {
      var id := pending[i];
      assert pending[..i + 1] == pending[..i] + [id];
      NotYetBuilt(me, round, pending[..i], read, drafts, settled, old(client.writes), client.writes, id);
      ghost var before, stamped := server.world, client.writes;
      var made, n := BuildOne(client, me, round, SnapOf(read, id));
      OthersStamp(me, round, pending[..i], read, drafts, settled, old(client.writes), stamped, n, old(server.world),
                  before);
      server.Note(me, id, n);
      BuiltShape(me, round, SnapOf(read, id), Token(me.writer, n));
      ProgressOne(me, round, pending[..i], drafts, settled, n, old(server.world), before, server.world, id,
                  SnapOf(read, id));
      match made
      case Err(Refused) =>
        RefusedAll(me, round, pending[..i], pending, read, drafts, settled, old(client.writes), n,
                   old(server.world), before, server.world, id);
        RefusedMeans(me, round, SnapOf(read, id), Token(me.writer, n));
        return drafts, settled, true;
      case Err(outcome) =>
        EndsOne(me, round, pending[..i], read, drafts, settled, old(client.writes), n, id, outcome);
        settled := settled[id := outcome];
      case Ok(req) =>
        assert BuildsTo(me, round, read, Draft(id, req)) by { BuiltDraft(me, round, read, id, n, req); }
        DraftsOne(me, round, pending[..i], read, drafts, settled, old(client.writes), n, Draft(id, req));
        drafts := drafts + [Draft(id, req)];
    }
    assert pending[..|pending|] == pending;
    BuildingAll(me, round, pending, pending, read, drafts, settled, old(client.writes), client.writes,
                old(server.world), server.world);
  }

  /** Other calls of the client took counter values meanwhile. */
  lemma OthersStamp(me: Me, round: nat, done: seq<Id>, read: map<Id, Point>, drafts: seq<Draft>,
                    settled: map<Id, Outcome>, lo: nat, hi: nat, n: nat, w: World, w': World)
    requires Building(me, round, done, read, drafts, settled, lo, hi) && hi <= n
    requires Progress(me, round, done, drafts, settled, hi, w, w')
    ensures Building(me, round, done, read, drafts, settled, lo, n)
    ensures Progress(me, round, done, drafts, settled, n, w, w')
  {
    hide Within, BuildsTo, Plain, Bounded, RanOn, AllSent, AllEnd, Fresh;
    FreshWider(drafts, me.writer, lo, hi, n);
    BoundedMore(w', me.writer, hi, n);
  }

  lemma FreshWider(ds: seq<Draft>, instance: nat, lo: nat, hi: nat, n: nat)
    requires Fresh(ds, instance, lo, hi) && hi <= n
    ensures Fresh(ds, instance, lo, n)
  {
  }

  lemma NotYetBuilt(me: Me, round: nat, done: seq<Id>, read: map<Id, Point>, drafts: seq<Draft>,
                    settled: map<Id, Outcome>, lo: nat, hi: nat, id: Id)
    requires Building(me, round, done, read, drafts, settled, lo, hi) && id !in done
    ensures id !in IdsOf(drafts) && id !in settled
  {
    hide Fresh, Within, BuildsTo, Plain;
    if id in IdsOf(drafts) { WithinMember(IdsOf(drafts), done, id); }
  }

  lemma BuiltDraft(me: Me, round: nat, read: map<Id, Point>, id: Id, n: nat, req: Request)
    requires Built(CallAt(me, round), SnapOf(read, id), Token(me.writer, n)) == Ok(req)
    requires req.token == Token(me.writer, n)
    ensures BuildsTo(me, round, read, Draft(id, req))
  {
    hide Built;
  }

  /** A refused point has ended too; the batch stops with what it had. */
  lemma RefusedAll(me: Me, round: nat, done: seq<Id>, pending: seq<Id>, read: map<Id, Point>,
                   drafts: seq<Draft>, settled: map<Id, Outcome>, lo: nat, n: nat,
                   w: World, before: World, w': World, id: Id)
    requires Building(me, round, done, read, drafts, settled, lo, n) && id !in settled
    requires Progress(me, round, done + [id], drafts, settled[id := Refused], n, w, w')
    requires forall j | j in done + [id] :: j in pending
    ensures Fresh(drafts, me.writer, lo, n)
    ensures forall d | d in drafts :: BuildsTo(me, round, read, d)
    ensures forall j | j in settled :: Plain(round, SnapOf(read, j), settled[j]) && settled[j] != Refused
    ensures AllSent(w', me, round, drafts) && AllEnd(w', me, settled) && Bounded(w', me.writer, n)
    ensures RanOn(w, w', me, pending)
  {
    hide Plain, BuildsTo, Within, Fresh, AllSent, Bounded, RanOn, Ends;
    RanWider(w, w', me, done + [id], pending);
    forall j | j in settled ensures Ends(At(w', j), me, settled[j]) {
      assert settled[id := Refused][j] == settled[j];
    }
  }

  lemma NextId(ds: seq<Draft>, i: nat)
    requires NoDup(IdsOf(ds)) && i < |ds|
    ensures ds[..i + 1] == ds[..i] + [ds[i]]
    ensures IdsOf(ds[..i + 1]) == IdsOf(ds[..i]) + [ds[i].id]
    ensures ds[i].id !in IdsOf(ds[..i])
  {
    forall j | 0 <= j < i ensures IdsOf(ds[..i])[j] != ds[i].id {
      assert IdsOf(ds)[j] == ds[j].id && IdsOf(ds)[i] == ds[i].id;
    }
  }

  lemma WithinIds(a: seq<Draft>, b: seq<Draft>)
    requires Within(a, b)
    ensures Within(IdsOf(a), IdsOf(b))
  {
    if a != [] {
      var a', b' := a[..|a| - 1], b[..|b| - 1];
      assert IdsOf(a)[..|a| - 1] == IdsOf(a') && IdsOf(b)[..|b| - 1] == IdsOf(b');
      if a[|a| - 1] == b[|b| - 1] && Within(a', b') { WithinIds(a', b'); } else { WithinIds(a, b'); }
    }
  }

  /** The sending has gone through the first `i` writes. */
  ghost predicate Sending(me: Me, round: nat, drafts: seq<Draft>, i: nat, written: seq<Draft>,
                          settled: map<Id, Outcome>, w: World, w': World)
    requires i <= |drafts|
  {
    && AllSent(w', me, round, drafts[i..]) && AllAnswered(w', me, round, written) && AllEnd(w', me, settled)
    && RanOn(w, w', me, IdsOf(drafts[..i]))
  }

  lemma SendingNone(me: Me, round: nat, drafts: seq<Draft>, w: World)
    requires AllSent(w, me, round, drafts)
    ensures Sending(me, round, drafts, 0, [], map[], w, w)
  {
    hide Sends;
    RanSelf(w, me, IdsOf(drafts[..0]));
    hide RanOn;
  }

  lemma SendingOne(me: Me, round: nat, drafts: seq<Draft>, i: nat, written: seq<Draft>, settled: map<Id, Outcome>,
                   w: World, now: World, before: World, w': World, answered: bool, arrived: bool)
    requires NoDup(IdsOf(drafts)) && i < |drafts| && Sending(me, round, drafts, i, written, settled, w, now)
    requires Drifted(now, before, me) && Within(written, drafts[..i])
    requires forall id | id in settled :: id in IdsOf(drafts[..i])
    requires w' == before[drafts[i].id := Delivered(At(before, drafts[i].id), me, answered, arrived)]
    ensures answered ==> Sending(me, round, drafts, i + 1, written + [drafts[i]], settled, w, w')
    ensures !answered ==> Sending(me, round, drafts, i + 1, written, settled[drafts[i].id := Unconfirmed], w, w')
    ensures KeepsBounds(before, w', me.writer)
  {
    hide Sends, Answers, Ends, RanOn, KeepsBounds, Drifted, Delivered, NoDup, Within;
    var d := drafts[i];
    NextId(drafts, i);
    assert drafts[i..] == [d] + drafts[i + 1..];
    AfterSend(now, before, w', me, round, d, answered, arrived);
    RanTrans(w, now, w', me, IdsOf(drafts[..i]), [d.id], IdsOf(drafts[..i + 1]));
    forall e | e in drafts[i + 1..] ensures e.id != d.id { LaterId(drafts, i, e); }
    forall e | e in written ensures e.id != d.id {
      WithinMember(written, drafts[..i], e);
      NotOfId(drafts[..i], e, d.id);
    }
    SentKept(now, w', me, round, [d.id], drafts[i + 1..]);
    SentKept(now, w', me, round, [d.id], written);
    EndsKept(now, w', me, [d.id], settled);
  }

  lemma LaterId(ds: seq<Draft>, i: nat, e: Draft)
    requires NoDup(IdsOf(ds)) && i < |ds| && e in ds[i + 1..]
    ensures e.id != ds[i].id
  {
    var j :| 0 <= j < |ds| - i - 1 && ds[i + 1..][j] == e;
    assert IdsOf(ds)[i + 1 + j] == e.id && IdsOf(ds)[i] == ds[i].id;
  }

  lemma SendingAll(me: Me, round: nat, drafts: seq<Draft>, written: seq<Draft>, settled: map<Id, Outcome>,
                   w: World, w': World)
    requires Sending(me, round, drafts, |drafts|, written, settled, w, w')
    ensures AllAnswered(w', me, round, written) && AllEnd(w', me, settled)
    ensures RanOn(w, w', me, IdsOf(drafts))
  {
    hide RanOn, AllAnswered, AllEnd;
    assert drafts[..|drafts|] == drafts;
  }

  /** The books after sending `drafts`. */
  ghost predicate SentBooks(drafts: seq<Draft>, written: seq<Draft>, settled: map<Id, Outcome>) {
    && Within(written, drafts)
    && (forall id :: id in settled <==> id in IdsOf(drafts) && id !in IdsOf(written))
    && (forall id | id in settled :: settled[id] == Unconfirmed)
  }

  lemma SentBooksOne(drafts: seq<Draft>, d: Draft, written: seq<Draft>, settled: map<Id, Outcome>)
    requires SentBooks(drafts, written, settled) && d.id !in IdsOf(drafts)
    ensures SentBooks(drafts + [d], written + [d], settled)
    ensures SentBooks(drafts + [d], written, settled[d.id := Unconfirmed])
  {
    hide Within, IdsOf;
    WithinAppend(written, drafts, d);
    WithinIds(written, drafts);
    if d.id in IdsOf(written) { WithinMember(IdsOf(written), IdsOf(drafts), d.id); }
    IdsAppend(written, d);
    IdsAppend(drafts, d);
  }

  lemma IdsAppend(ds: seq<Draft>, d: Draft)
    ensures IdsOf(ds + [d]) == IdsOf(ds) + [d.id]
  {
  }

  lemma SentBooksOpen(drafts: seq<Draft>, written: seq<Draft>, settled: map<Id, Outcome>)
    requires SentBooks(drafts, written, settled)
    ensures Within(written, drafts)
    ensures forall id :: id in settled <==> id in IdsOf(drafts) && id !in IdsOf(written)
    ensures forall id | id in settled :: settled[id] == Unconfirmed
  {
    hide Within;
  }

  lemma NothingSent(me: Me, round: nat, drafts: seq<Draft>, w: World)
    requires AllSent(w, me, round, drafts)
    ensures SentBooks(drafts[..0], [], map[]) && Sending(me, round, drafts, 0, [], map[], w, w)
  {
    SendingNone(me, round, drafts, w);
    hide Sending;
  }

  lemma SentOne(me: Me, round: nat, drafts: seq<Draft>, i: nat, written: seq<Draft>, settled: map<Id, Outcome>,
                w: World, now: World, before: World, w': World, answered: bool, arrived: bool)
    requires NoDup(IdsOf(drafts)) && i < |drafts| && Sending(me, round, drafts, i, written, settled, w, now)
    requires SentBooks(drafts[..i], written, settled) && Drifted(now, before, me)
    requires w' == before[drafts[i].id := Delivered(At(before, drafts[i].id), me, answered, arrived)]
    ensures drafts[..i + 1] == drafts[..i] + [drafts[i]]
    ensures var written' := if answered then written + [drafts[i]] else written;
      var settled' := if answered then settled else settled[drafts[i].id := Unconfirmed];
      SentBooks(drafts[..i + 1], written', settled') && Sending(me, round, drafts, i + 1, written', settled', w, w')
    ensures KeepsBounds(before, w', me.writer)
  {
    hide *;
    NextId(drafts, i);
    SentBooksOpen(drafts[..i], written, settled);
    SentBooksOne(drafts[..i], drafts[i], written, settled);
    SendingOne(me, round, drafts, i, written, settled, w, now, before, w', answered, arrived);
  }

  /** Send the round's writes one at a time, in order. A failed request is that
      point's outcome alone. */
  method SendRound(server: Collection, client: Client, me: Me, round: nat, drafts: seq<Draft>)
    returns (written: seq<Draft>, settled: map<Id, Outcome>)
    requires NoDup(IdsOf(drafts)) && AllSent(server.world, me, round, drafts)
    requires Bounded(server.world, me.writer, client.writes)
    modifies server, client`writes
    ensures server.sent == old(server.sent) + drafts
    ensures Within(written, drafts)
    ensures forall id :: id in settled <==> id in IdsOf(drafts) && id !in IdsOf(written)
    ensures forall id | id in settled :: settled[id] == Unconfirmed
    ensures AllAnswered(server.world, me, round, written) && AllEnd(server.world, me, settled)
    ensures RanOn(old(server.world), server.world, me, IdsOf(drafts))
    ensures client.writes >= old(client.writes) && Bounded(server.world, me.writer, client.writes)
  {
    hide *;
    written, settled := [], map[];
    NothingSent(me, round, drafts, server.world);
    for i := 0 to |drafts|
      invariant server.sent == old(server.sent) + drafts[..i]
      invariant SentBooks(drafts[..i], written, settled)
      invariant Sending(me, round, drafts, i, written, settled, old(server.world), server.world)
      invariant client.writes >= old(client.writes) && Bounded(server.world, me.writer, client.writes)
    {
      var d := drafts[i];
      ghost var now := server.world;
      var answered;
      ghost var before, arrived;
      answered, before, arrived := server.Send(me, client, d);
      SentOne(me, round, drafts, i, written, settled, old(server.world), now, before, server.world, answered, arrived);
      StillBounded(before, server.world, me.writer, client.writes);
      if answered {
        written := written + [d];
      } else {
        settled := settled[d.id := Unconfirmed];
      }
    }
    assert drafts[..|drafts|] == drafts;
    SentBooksOpen(drafts, written, settled);
    SendingAll(me, round, drafts, written, settled, old(server.world), server.world);
  }

  lemma StillBounded(w: World, w': World, writer: nat, n: nat)
    requires KeepsBounds(w, w', writer) && Bounded(w, writer, n)
    ensures Bounded(w', writer, n)
  {
    hide Bounded;
  }

  /** How the round leaves a written point: a lost race is retried, any other
      verdict settles it. */
  predicate Judged(d: Draft, back: map<Id, Point>, lost: seq<Id>, settled: map<Id, Outcome>) {
    match Settles(VerdictOn(d, back), d.req)
    case None => d.id in lost
    case Some(outcome) => d.id !in lost && d.id in settled && settled[d.id] == outcome
  }

  lemma JudgedFrame(e: Draft, back: map<Id, Point>, id: Id,
                    lost: seq<Id>, settled: map<Id, Outcome>, lost': seq<Id>, settled': map<Id, Outcome>)
    requires Judged(e, back, lost, settled) && e.id != id
    requires lost' == lost || lost' == lost + [id]
    requires settled' == settled || (id in settled' && settled' == settled[id := settled'[id]])
    ensures Judged(e, back, lost', settled')
  {
    hide VerdictOn;
  }

  /** One written point's verdict, entered in the round's books. */
  method JudgeOne(d: Draft, back: map<Id, Point>, lost: seq<Id>, settled: map<Id, Outcome>)
    returns (lost': seq<Id>, settled': map<Id, Outcome>)
    requires d.id !in lost && d.id !in settled
    ensures Judged(d, back, lost', settled')
    ensures if VerdictOn(d, back) == No then lost' == lost + [d.id] && settled' == settled
            else lost' == lost && d.id in settled' && settled' == settled[d.id := settled'[d.id]]
  {
    hide VerdictOn;
    lost', settled' := lost, settled;
    match VerdictOn(d, back)
    case Yes => settled' := settled[d.id := Outcome.Landed(d.req.token, d.req.insert)];
    case No => lost' := lost + [d.id];
    case Gone => settled' := settled[d.id := Deleted];
    case Unknown => settled' := settled[d.id := Unconfirmed];
  }

  /** The books after judging the first `i` written points. */
  ghost predicate Judging(written: seq<Draft>, i: nat, back: map<Id, Point>, lost: seq<Id>, settled: map<Id, Outcome>)
    requires i <= |written|
  {
    && Within(lost, IdsOf(written[..i]))
    && (forall id :: id in settled <==> id in IdsOf(written[..i]) && id !in lost)
    && forall j | 0 <= j < i :: Judged(written[j], back, lost, settled)
  }

  lemma NotYetJudged(written: seq<Draft>, i: nat, back: map<Id, Point>, lost: seq<Id>, settled: map<Id, Outcome>)
    requires NoDup(IdsOf(written)) && i < |written| && Judging(written, i, back, lost, settled)
    ensures written[i].id !in lost && written[i].id !in settled
  {
    hide NoDup, Within, Judged;
    NextId(written, i);
    if written[i].id in lost { WithinMember(lost, IdsOf(written[..i]), written[i].id); }
  }

  lemma JudgingOne(written: seq<Draft>, i: nat, back: map<Id, Point>, lost: seq<Id>, settled: map<Id, Outcome>,
                   lost': seq<Id>, settled': map<Id, Outcome>)
    requires NoDup(IdsOf(written)) && i < |written| && Judging(written, i, back, lost, settled)
    requires Judged(written[i], back, lost', settled')
    requires if VerdictOn(written[i], back) == No then lost' == lost + [written[i].id] && settled' == settled
             else lost' == lost && written[i].id in settled'
                  && settled' == settled[written[i].id := settled'[written[i].id]]
    ensures Judging(written, i + 1, back, lost', settled')
  {
    hide NoDup, Within, Judged, VerdictOn, IdsOf;
    var id := written[i].id;
    NextId(written, i);
    NotYetJudged(written, i, back, lost, settled);
    WithinAppend(lost, IdsOf(written[..i]), id);
    forall j | 0 <= j < i ensures Judged(written[j], back, lost', settled') {
      EarlierId(written, i, j);
      JudgedFrame(written[j], back, id, lost, settled, lost', settled');
    }
  }

  lemma EarlierId(ds: seq<Draft>, i: nat, j: nat)
    requires j < i <= |ds|
    ensures ds[j].id in IdsOf(ds[..i])
  {
    assert IdsOf(ds[..i])[j] == ds[j].id;
  }

  method JudgeRound(written: seq<Draft>, back: map<Id, Point>) returns (lost: seq<Id>, settled: map<Id, Outcome>)
    requires NoDup(IdsOf(written))
    ensures Within(lost, IdsOf(written))
    ensures forall id :: id in settled <==> id in IdsOf(written) && id !in lost
    ensures forall i | 0 <= i < |written| :: Judged(written[i], back, lost, settled)
  {
    lost, settled := [], map[];
    assert Judging(written, 0, back, lost, settled);
    hide NoDup, Judging;
    for i := 0 to |written|
      invariant Judging(written, i, back, lost, settled)
    {
      NotYetJudged(written, i, back, lost, settled);
      var lost', settled' := JudgeOne(written[i], back, lost, settled);
      JudgingOne(written, i, back, lost, settled, lost', settled');
      lost, settled := lost', settled';
    }
    JudgingAll(written, back, lost, settled);
  }

  lemma JudgingAll(written: seq<Draft>, back: map<Id, Point>, lost: seq<Id>, settled: map<Id, Outcome>)
    requires Judging(written, |written|, back, lost, settled)
    ensures Within(lost, IdsOf(written))
    ensures forall id :: id in settled <==> id in IdsOf(written) && id !in lost
    ensures forall i | 0 <= i < |written| :: Judged(written[i], back, lost, settled)
  {
    hide Within, Judged;
    assert written[..|written|] == written;
  }

  /** The books say of each point what its protocol call says. */
  lemma JudgedStand(w: World, me: Me, round: nat, written: seq<Draft>, back: map<Id, Point>,
                    lost: seq<Id>, settled: map<Id, Outcome>)
    requires AllStand(w, me, round, written, back)
    requires forall i | 0 <= i < |written| :: Judged(written[i], back, lost, settled)
    requires forall id :: id in settled <==> id in IdsOf(written) && id !in lost
    requires forall id | id in lost :: id in IdsOf(written)
    ensures AllPend(w, me, round + 1, lost) && AllEnd(w, me, settled)
  {
    hide VerdictOn, Pends, Ends;
    forall id | id in IdsOf(written)
      ensures id in lost ==> Pends(At(w, id), me, round + 1)
      ensures id in settled ==> Ends(At(w, id), me, settled[id])
    {
      var i :| 0 <= i < |written| && IdsOf(written)[i] == id;
      assert written[i] in written && Judged(written[i], back, lost, settled);
      assert Stands(At(w, id), me, round, written[i].req, VerdictOn(written[i], back));
    }
  }

  // ----- The whole round

  datatype Failure = Transport | Refusal(round: nat)

  /** A landed outcome names a write this call sent to that point. */
  predicate Backed(sent: seq<Draft>, id: Id, outcome: Outcome) {
    outcome.Landed? ==>
      exists d | d in sent :: d.id == id && d.req.token == outcome.token && d.req.insert == outcome.created
  }

  lemma FlatAppend(rounds: seq<seq<Draft>>, round: seq<Draft>)
    ensures Flat(rounds + [round]) == Flat(rounds) + round
  {
    assert (rounds + [round])[..|rounds|] == rounds;
  }

  lemma FreshAppend(sent: seq<Draft>, ds: seq<Draft>, instance: nat, lo: nat, mid: nat, hi: nat)
    requires lo <= mid <= hi && Fresh(sent, instance, lo, mid) && Fresh(ds, instance, mid, hi)
    ensures Fresh(sent + ds, instance, lo, hi)
  {
  }

  lemma BackedMore(sent: seq<Draft>, more: seq<Draft>, id: Id, outcome: Outcome)
    requires Backed(sent, id, outcome)
    ensures Backed(sent + more, id, outcome)
  {
    if outcome.Landed? {
      var d :| d in sent && d.id == id && d.req.token == outcome.token && d.req.insert == outcome.created;
      assert d in sent + more;
    }
  }

  /** What a round came to, in the books and at the points. */
  ghost predicate RoundDone(me: Me, round: nat, pending: seq<Id>, read: map<Id, Point>, drafts: seq<Draft>,
                            lost: seq<Id>, settled: map<Id, Outcome>, w: World) {
    && Within(lost, pending)
    && (forall id :: id in settled <==> id in pending && id !in lost)
    && (forall id | id in settled :: Backed(drafts, id, settled[id]))
    && (round > 0 || (forall id | id in pending :: id in read) ==> forall id | id in settled :: settled[id] != Absent)
    && AllPend(w, me, round + 1, lost) && AllEnd(w, me, settled)
  }

  /** The points that ended in the build, and those whose request failed. */
  ghost predicate Unwritten(me: Me, round: nat, read: map<Id, Point>, pending: seq<Id>, drafts: seq<Draft>,
                            written: seq<Draft>, ended: map<Id, Outcome>, unsent: map<Id, Outcome>, w: World) {
    && Within(IdsOf(drafts), pending) && Within(written, drafts) && NoDup(IdsOf(written))
    && (forall id :: id in ended <==> id in pending && id !in IdsOf(drafts))
    && (forall id | id in ended :: Plain(round, SnapOf(read, id), ended[id]))
    && (forall id :: id in unsent <==> id in IdsOf(drafts) && id !in IdsOf(written))
    && (forall id | id in unsent :: unsent[id] == Unconfirmed)
    && AllAnswered(w, me, round, written) && AllEnd(w, me, ended) && AllEnd(w, me, unsent)
  }

  lemma AfterSending(me: Me, round: nat, read: map<Id, Point>, pending: seq<Id>, drafts: seq<Draft>,
                     written: seq<Draft>, ended: map<Id, Outcome>, unsent: map<Id, Outcome>, built: World, w: World)
    requires NoDup(pending) && Within(IdsOf(drafts), pending) && Within(written, drafts)
    requires forall id :: id in ended <==> id in pending && id !in IdsOf(drafts)
    requires forall id | id in ended :: Plain(round, SnapOf(read, id), ended[id])
    requires forall id :: id in unsent <==> id in IdsOf(drafts) && id !in IdsOf(written)
    requires forall id | id in unsent :: unsent[id] == Unconfirmed
    requires AllEnd(built, me, ended) && RanOn(built, w, me, IdsOf(drafts))
    requires AllAnswered(w, me, round, written) && AllEnd(w, me, unsent)
    ensures Unwritten(me, round, read, pending, drafts, written, ended, unsent, w)
  {
    hide NoDup, Within, Plain, AllEnd, AllAnswered, RanOn;
    EndsKept(built, w, me, IdsOf(drafts), ended);
    WithinNoDup(IdsOf(drafts), pending);
    WithinIds(written, drafts);
    WithinNoDup(IdsOf(written), IdsOf(drafts));
  }

  /** A round none of whose requests was answered. */
  lemma NoneWritten(me: Me, round: nat, read: map<Id, Point>, pending: seq<Id>, drafts: seq<Draft>,
                    ended: map<Id, Outcome>, unsent: map<Id, Outcome>, w: World)
    requires Unwritten(me, round, read, pending, drafts, [], ended, unsent, w)
    ensures RoundDone(me, round, pending, read, drafts, [], ended + unsent, w)
  {
    hide NoDup, Within, AllEnd;
    assert IdsOf([]) == [];
    forall id | id in IdsOf(drafts) ensures id in pending { WithinMember(IdsOf(drafts), pending, id); }
    NothingWithin(pending);
    AllEndJoin(w, me, ended, unsent);
  }

  lemma NothingWithin(ids: seq<Id>)
    ensures Within([], ids)
  {
  }

  lemma SomeWritten(me: Me, round: nat, read: map<Id, Point>, pending: seq<Id>, drafts: seq<Draft>,
                    written: seq<Draft>, ended: map<Id, Outcome>, unsent: map<Id, Outcome>, sent: World,
                    back: map<Id, Point>, lost: seq<Id>, judged: map<Id, Outcome>, w: World)
    requires Unwritten(me, round, read, pending, drafts, written, ended, unsent, sent)
    requires RanOn(sent, w, me, IdsOf(written)) && AllStand(w, me, round, written, back)
    requires Within(lost, IdsOf(written))
    requires forall id :: id in judged <==> id in IdsOf(written) && id !in lost
    requires forall i | 0 <= i < |written| :: Judged(written[i], back, lost, judged)
    ensures RoundDone(me, round, pending, read, drafts, lost, ended + unsent + judged, w)
  {
    hide NoDup, Within, AllEnd, AllAnswered, AllStand, AllPend, RanOn, Judged, Backed;
    WithinIds(written, drafts);
    WithinTrans(lost, IdsOf(written), IdsOf(drafts));
    WithinTrans(lost, IdsOf(drafts), pending);
    forall id | id in lost ensures id in IdsOf(written) { WithinMember(lost, IdsOf(written), id); }
    forall id | id in IdsOf(written) ensures id in IdsOf(drafts) { WithinMember(IdsOf(written), IdsOf(drafts), id); }
    forall id | id in IdsOf(drafts) ensures id in pending { WithinMember(IdsOf(drafts), pending, id); }
    forall id | id in judged ensures Backed(drafts, id, judged[id]) && judged[id] != Absent {
      JudgedBacked(written, drafts, back, lost, judged, id);
    }
    forall id | id in ended || id in unsent ensures Backed(drafts, id, (ended + unsent)[id]) {
      NotLanded(drafts, id, (ended + unsent)[id]);
    }
    EndsKept(sent, w, me, IdsOf(written), ended);
    EndsKept(sent, w, me, IdsOf(written), unsent);
    JudgedStand(w, me, round, written, back, lost, judged);
    AllEndJoin(w, me, ended, unsent);
    AllEndJoin(w, me, ended + unsent, judged);
  }

  lemma NotLanded(sent: seq<Draft>, id: Id, outcome: Outcome)
    requires !outcome.Landed?
    ensures Backed(sent, id, outcome)
  {
  }

  /** One round over the pending points: build, send, read back, judge. Every
      pending point is settled or has lost its race, and the books say of it
      what its protocol call says. */
  method OneRound(server: Collection, client: Client, me: Me, round: nat, pending: seq<Id>, read: map<Id, Point>)
    returns (lost: seq<Id>, settled: map<Id, Outcome>, ghost drafts: seq<Draft>, failed: Option<Failure>)
    requires !me.op.MigrateFlat? && NoDup(pending) && client.instance == me.writer
    requires AllHold(server.world, me, round, pending, read) && Bounded(server.world, me.writer, client.writes)
    modifies server, client`writes
    ensures server.sent == old(server.sent) + drafts
    ensures client.writes >= old(client.writes)
    ensures Fresh(drafts, client.instance, old(client.writes), client.writes)
    ensures Within(IdsOf(drafts), pending)
    ensures forall d | d in drafts :: BuildsTo(me, round, read, d)
    ensures failed.Some? && failed.value.Refusal? ==>
      failed == Some(Refusal(round)) && drafts == [] && AnyRefuses(me.op, pending, read)
    ensures failed.None? ==> RoundDone(me, round, pending, read, drafts, lost, settled, server.world)
    ensures RanOn(old(server.world), server.world, me, pending) && Bounded(server.world, me.writer, client.writes)
  {
    hide BuildsTo, Plain, Within, NoDup, Fresh, AllHold, AllSent, AllAnswered, AllEnd, AllPend, AllStand, RanOn,
         Bounded, KeepsBounds, Drifted, Each, PointsAt, Judged, RoundDone, Unwritten, AnyRefuses;
    var built, ended, refused := BuildRound(server, client, me, round, pending, read);
    lost, settled, drafts, failed := [], map[], [], None;
    NothingWithin(pending);
    assert IdsOf([]) == [];
    if refused {
      NothingFresh(client.instance, old(client.writes), client.writes);
      return [], map[], [], Some(Refusal(round));
    }
    drafts := built;
    WithinNoDup(IdsOf(drafts), pending);
    ghost var afterBuild := server.world;
    ghost var stamped := client.writes;
    var written, unsent := SendRound(server, client, me, round, built);
    FreshWider(drafts, client.instance, old(client.writes), stamped, client.writes);
    ghost var afterSend := server.world;
    AfterSending(me, round, read, pending, drafts, written, ended, unsent, afterBuild, afterSend);
    WrittenRan(old(server.world), afterBuild, afterSend, me, IdsOf(drafts), pending);
    settled := ended + unsent;
    if written == [] {
      NoneWritten(me, round, read, pending, drafts, ended, unsent, afterSend);
      return;
    }
    var back;
    ghost var before;
    stamped := client.writes;
    back, before := server.Retrieve(me, client, IdsOf(written), ReadBack(me.call));
    FreshWider(drafts, client.instance, old(client.writes), stamped, client.writes);
    if back.Err? {
      Waited(old(server.world), afterSend, server.world, me, pending);
      return [], map[], drafts, Some(Transport);
    }
    IdsExactly(written);
    AfterBack(afterSend, before, server.world, me, round, written, IdsOf(written), back.value);
    WithinIds(written, drafts);
    WithinTrans(IdsOf(written), IdsOf(drafts), pending);
    WrittenRan(old(server.world), afterSend, server.world, me, IdsOf(written), pending);
    StillBounded(before, server.world, me.writer, client.writes);
    WithinNoDup(IdsOf(written), IdsOf(drafts));
    var judged;
    lost, judged := JudgeRound(written, back.value);
    SomeWritten(me, round, read, pending, drafts, written, ended, unsent, afterSend, back.value, lost, judged,
                server.world);
    settled := settled + judged;
  }

  lemma NothingFresh(instance: nat, lo: nat, hi: nat)
    ensures Fresh([], instance, lo, hi)
  {
  }

  lemma IdsExactly(ds: seq<Draft>)
    ensures forall id :: id in IdsOf(ds) <==> exists d | d in ds :: d.id == id
  {
    forall id ensures id in IdsOf(ds) <==> exists d | d in ds :: d.id == id {
      if id in IdsOf(ds) {
        var i :| 0 <= i < |ds| && IdsOf(ds)[i] == id;
        assert ds[i] in ds;
      }
      if d :| d in ds && d.id == id {
        var i :| 0 <= i < |ds| && ds[i] == d;
        assert IdsOf(ds)[i] == id;
      }
    }
  }

  lemma WrittenRan(w: World, sent: World, w': World, me: Me, ids: seq<Id>, pending: seq<Id>)
    requires RanOn(w, sent, me, pending) && RanOn(sent, w', me, ids) && Within(ids, pending)
    ensures RanOn(w, w', me, pending)
  {
    hide RanOn, Within;
    forall id | id in ids ensures id in pending { WithinMember(ids, pending, id); }
    RanTrans(w, sent, w', me, pending, ids, pending);
  }

  lemma Waited(w: World, now: World, w': World, me: Me, pending: seq<Id>)
    requires RanOn(w, now, me, pending) && Drifted(now, w', me)
    ensures RanOn(w, w', me, pending)
  {
    hide RanOn, Drifted;
    DriftedRan(now, w', me);
    RanTrans(w, now, w', me, pending, [], pending);
  }

  lemma JudgedBacked(written: seq<Draft>, drafts: seq<Draft>,
                     back: map<Id, Point>, lost: seq<Id>, judged: map<Id, Outcome>, id: Id)
    requires Within(written, drafts) && id in IdsOf(written) && id !in lost && id in judged
    requires forall i | 0 <= i < |written| :: Judged(written[i], back, lost, judged)
    ensures Backed(drafts, id, judged[id]) && judged[id] != Absent
  {
    var i :| 0 <= i < |written| && IdsOf(written)[i] == id;
    var d := written[i];
    assert Judged(d, back, lost, judged);
    WithinMember(written, drafts, d);
    hide VerdictOn;
  }
}
