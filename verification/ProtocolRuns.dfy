// The payload guarantees, carried from single histories to every run of the
// protocol, and runs that show where the guarantees end.

module ProtocolRuns {
  import opened Wrappers
  import opened Json
  import opened Revision
  import opened Payload
  import opened Lifecycle
  import opened Protocol
  import opened ProtocolInvariant
  import opened ProtocolSafety

  /** Every call of the run was begun with an operation that `ok` holds of. */
  predicate AllBegin(steps: seq<Step>, ok: Op -> bool) {
    forall step | step in steps :: step.Begin? ==> ok(step.op)
  }

  predicate AllCalls(s: State, ok: Op -> bool) {
    forall c | c in s.calls :: ok(s.calls[c].op)
  }

  lemma CallsStep(s: State, step: Step, ok: Op -> bool)
    requires AllCalls(s, ok) && (step.Begin? ==> ok(step.op))
    ensures AllCalls(Apply(s, step), ok)
  {
    forall c | c in Apply(s, step).calls ensures ok(Apply(s, step).calls[c].op) { OpKept(s, step, c); }
  }

  /** A call keeps the operation it was begun with. */
  lemma OpKept(s: State, step: Step, c: nat)
    requires c in Apply(s, step).calls
    ensures c in s.calls ==> Apply(s, step).calls[c].op == s.calls[c].op
    ensures c !in s.calls ==> step.Begin? && Apply(s, step).calls[c].op == step.op
  {
    hide Modify, View, MemoryToPayload, Serve, Judge;
  }

  lemma {:induction false} CallsFrom(s: State, steps: seq<Step>, ok: Op -> bool)
    requires AllCalls(s, ok) && AllBegin(steps, ok)
    ensures AllCalls(Run(s, steps), ok)
  {
    hide Apply, AllCalls;
    if steps != [] {
      var n := |steps| - 1;
      CallsFrom(s, steps[..n], ok);
      CallsStep(Run(s, steps[..n]), steps[n], ok);
    }
  }

  /** Every operation of the present history satisfies what every begun
      operation does. */
  lemma HistoryOk(legacy: Option<Fields>, steps: seq<Step>, ok: Op -> bool)
    requires AllBegin(steps, ok) && Run(Initial(legacy), steps).server.point.Some?
    ensures forall op | op in Ops(Run(Initial(legacy), steps).server.life) :: ok(op)
  {
    CallsFrom(Initial(legacy), steps, ok);
    Serializable(legacy, steps);
    hide Run, Replay, MemoryToPayload;
    var s := Run(Initial(legacy), steps);
    var cs := s.server.life.commits;
    assert forall i | 0 <= i < |cs| :: ok(cs[i].op);
  }

  /** The access count equals the inserted value plus the increments committed
      since, and the access times are the newest of them, through any mix of
      increments, re-stores, patches, supersessions, reversals, confirmations,
      generated summaries and migrations: always on a point the run inserted or
      that stored the key before, and on any other while every store sends the
      fresh 0 and no times. */
  lemma AccessesCounted(legacy: Option<Fields>, steps: seq<Step>)
    requires AllBegin(steps, Respectful)
    ensures var sv := Run(Initial(legacy), steps).server;
      sv.point.Some? ==>
        var base := sv.life.base;
        && (sv.life.inserted ==> AccessCount in base && AccessTimestamps in base)
        && (AccessCount in base || AllBegin(steps, SendsZero) ==> CountConserved(base, Ops(sv.life)))
        && (AccessTimestamps in base || AllBegin(steps, SendsNoTimes) ==> TimesConserved(base, Ops(sv.life)))
        && Replay(base, Ops(sv.life)) == Some(sv.point.value.fields)
  {
    var sv := Run(Initial(legacy), steps).server;
    if sv.point.Some? {
      Serializable(legacy, steps);
      HistoryOk(legacy, steps, Respectful);
      if AllBegin(steps, SendsZero) { HistoryOk(legacy, steps, SendsZero); }
      if AllBegin(steps, SendsNoTimes) { HistoryOk(legacy, steps, SendsNoTimes); }
      hide Run, Replay;
      var base := sv.life.base;
      if sv.life.inserted { CountOfMemory(sv.life.commits[0].op.memory); }
      hide MemoryToPayload, CountConserved, TimesConserved;
      var f := sv.point.value.fields;
      if AccessCount in base || AllBegin(steps, SendsZero) { AccessCountConserved(base, Ops(sv.life), f); }
      if AccessTimestamps in base || AllBegin(steps, SendsNoTimes) { AccessTimesNewest(base, Ops(sv.life), f); }
    }
  }

  /** What the service sends for a new memory. */
  predicate SendsZero(op: Op) { op.Store? ==> op.memory.accessCount == 0 }

  predicate SendsNoTimes(op: Op) { op.Store? ==> op.memory.accessTimestamps == [] }

  /** The marker and its reason are the last committed supersession's, or none
      after a reversal; the audit log is the base's entries plus one per
      committed reversal; and a marker stands without its reason exactly when
      the migration moved the flat key to a memory without a marker and nothing
      superseded or reversed it since. */
  lemma SupersessionTracked(legacy: Option<Fields>, steps: seq<Step>)
    requires AllBegin(steps, Respectful)
    ensures var sv := Run(Initial(legacy), steps).server;
      sv.point.Some? ==>
        var f := sv.point.value.fields; var base := sv.life.base; var ops := Ops(sv.life);
        && HidingOf(f) == HidingAfter(HidingOf(base), ops)
        && LogEntries(f) == LogEntries(base) + ReversalEntries(base, ops)
        && (Coupled(base) ==> (Coupled(f) <==> !Orphaned(HidingOf(base), ops)))
  {
    var sv := Run(Initial(legacy), steps).server;
    if sv.point.Some? {
      Serializable(legacy, steps);
      HistoryOk(legacy, steps, Respectful);
      hide Run, Replay, MemoryToPayload, HidingAfter, ReversalEntries, Orphaned;
      var base := sv.life.base;
      var f := sv.point.value.fields;
      HidingHistory(base, Ops(sv.life), f);
      LogHistory(base, Ops(sv.life), f);
      if Coupled(base) { ReasonHistory(base, Ops(sv.life), f); }
    }
  }

  /** A stored summary embedding always describes the stored summary. */
  lemma SummariesDescribed(legacy: Option<Fields>, steps: seq<Step>, describes: (Value, string) -> bool)
    requires AllBegin(steps, op => SuppliesPairs(op, describes))
    requires legacy.Some? ==> Described(legacy.value, describes)
    ensures var sv := Run(Initial(legacy), steps).server;
      sv.point.Some? ==> Described(sv.point.value.fields, describes)
  {
    var ok := op => SuppliesPairs(op, describes);
    var s := Run(Initial(legacy), steps);
    var sv := s.server;
    if sv.point.Some? {
      Serializable(legacy, steps);
      CallsFrom(Initial(legacy), steps, ok);
      HistoryOk(legacy, steps, ok);
      hide Run, Replay;
      if sv.life.inserted {
        var k := sv.life.commits[0];
        assert ok(s.calls[k.call].op);
        SummaryOfMemory(k.op.memory);
      }
      hide MemoryToPayload, Described;
      SummaryHistory(sv.life.base, Ops(sv.life), sv.point.value.fields, describes);
    }
  }

  /** The migration's move lands at most once, whatever its retries do, and
      only on the point as it was before its first delete. */
  lemma MoveLandsOnce(legacy: Option<Fields>, steps: seq<Step>, i: nat, j: nat)
    requires AllBegin(steps, Respectful)
    requires var sv := Run(Initial(legacy), steps).server;
      sv.point.Some? && i < |Ops(sv.life)| && j < |Ops(sv.life)|
      && Ops(sv.life)[i] == MigrateFlat && Ops(sv.life)[j] == MigrateFlat
    ensures i == j && Run(Initial(legacy), steps).server.lives == 0
  {
    var sv := Run(Initial(legacy), steps).server;
    Serializable(legacy, steps);
    HistoryOk(legacy, steps, Respectful);
    RunInv(legacy, steps);
    hide Run, Replay, CallInv, TokensInv, CommitsNamed, PointOk, CommitOk;
    MigratedOnce(sv.life.base, Ops(sv.life), sv.point.value.fields, i, j);
    if sv.life.inserted {
      ServerKeysOfMemory(sv.life.commits[0].op.memory, FlatSupersededBy);
      hide MemoryToPayload;
      MigratedNeedsFlat(sv.life.base, Ops(sv.life), sv.point.value.fields, i);
    }
  }

  /** A history that migrates began with the flat key. */
  lemma {:induction false} MigratedNeedsFlat(base: Fields, ops: seq<Op>, f: Fields, i: nat)
    requires AllRespectful(ops) && i < |ops| && ops[i] == MigrateFlat
    ensures Replay(base, ops) == Some(f) ==> FlatSupersededBy in base
  {
    hide Transform;
    if Replay(base, ops) == Some(f) {
      var n := |ops| - 1;
      var prev := Replay(base, ops[..n]).value;
      if i < n {
        MigratedNeedsFlat(base, ops[..n], prev, i);
      } else {
        MigrateMarker(prev, f);
        FlatFromBase(base, ops[..n], prev);
      }
    }
  }

  lemma {:induction false} FlatFromBase(base: Fields, ops: seq<Op>, f: Fields)
    requires AllRespectful(ops) && Replay(base, ops) == Some(f) && FlatSupersededBy in f
    ensures FlatSupersededBy in base
  {
    hide Transform;
    if ops != [] {
      var n := |ops| - 1;
      var prev := Replay(base, ops[..n]).value;
      FlatStep(ops[n], prev, f);
      FlatFromBase(base, ops[..n], prev);
    }
  }

  // ----- Each committed write

  lemma {:induction false} PrefixReplays(base: Fields, ops: seq<Op>, i: nat)
    requires i < |ops|
    ensures Replay(base, ops).Some? ==>
      Replay(base, ops[..i]).Some? && Transform(ops[i], Replay(base, ops[..i]).value).Some?
  {
    hide Transform;
    var n := |ops| - 1;
    if i < n {
      PrefixReplays(base, ops[..n], i);
      assert ops[..n][..i] == ops[..i];
    }
  }

  /** Whatever interleaves, a conditional supersession committed only over a
      live memory, a reversal only over the marker it named, and a generated
      summary only over a memory without one. */
  lemma CommittedOver(legacy: Option<Fields>, steps: seq<Step>, i: nat)
    requires AllBegin(steps, Respectful)
    requires var sv := Run(Initial(legacy), steps).server; sv.point.Some? && i < |Ops(sv.life)|
    ensures var sv := Run(Initial(legacy), steps).server; var ops := Ops(sv.life);
      var prev := Replay(sv.life.base, ops[..i]);
      && prev.Some? && MarkerAllows(ops[i], prev.value)
      && (ops[i].GeneratedSummary? ==> AsStr(Get(prev.value, Summary)) == None)
  {
    var sv := Run(Initial(legacy), steps).server;
    var ops := Ops(sv.life);
    Serializable(legacy, steps);
    HistoryOk(legacy, steps, Respectful);
    hide Run, MemoryToPayload;
    PrefixReplays(sv.life.base, ops, i);
    hide Transform, Replay;
    var prev := Replay(sv.life.base, ops[..i]).value;
    var next := Transform(ops[i], prev).value;
    MarkerStep(ops[i], prev, next);
    if ops[i].GeneratedSummary? { GeneratedNeverReplaces(ops[i], prev, next); }
  }

  /** Whatever interleaves, a write is in the history only over a payload its
      operation neither leaves alone nor refuses. */
  lemma WrittenOver(legacy: Option<Fields>, steps: seq<Step>, i: nat)
    requires var sv := Run(Initial(legacy), steps).server; sv.point.Some? && i < |Ops(sv.life)|
    ensures var sv := Run(Initial(legacy), steps).server; var ops := Ops(sv.life);
      var prev := Replay(sv.life.base, ops[..i]);
      prev.Some? && !LeavesAlone(ops[i], prev.value) && !Refuses(ops[i], prev.value)
  {
    var sv := Run(Initial(legacy), steps).server;
    var ops := Ops(sv.life);
    Serializable(legacy, steps);
    hide Run, MemoryToPayload, LeavesAlone, Refuses;
    PrefixReplays(sv.life.base, ops, i);
    hide Transform, Replay;
    DecisionIff(ops[i], Replay(sv.life.base, ops[..i]).value);
  }

  /** A store that must not overwrite is in a history only as the insertion that
      made the point. */
  lemma InsertOnlyInserts(legacy: Option<Fields>, steps: seq<Step>, i: nat)
    requires var sv := Run(Initial(legacy), steps).server;
      && sv.point.Some? && i < |sv.life.commits|
      && sv.life.commits[i].op.Store? && sv.life.commits[i].op.insertOnly
    ensures i == 0 && Run(Initial(legacy), steps).server.life.inserted
  {
    var sv := Run(Initial(legacy), steps).server;
    hide Run, LeavesAlone, Refuses, Replay;
    var skipped := if sv.life.inserted then 1 else 0;
    if i >= skipped { NoneOverwritten(legacy, steps, i - skipped); }
  }

  lemma NoneOverwritten(legacy: Option<Fields>, steps: seq<Step>, i: nat)
    requires var sv := Run(Initial(legacy), steps).server; sv.point.Some? && i < |Ops(sv.life)|
    ensures var op := Ops(Run(Initial(legacy), steps).server.life)[i]; !(op.Store? && op.insertOnly)
  {
    hide Run, Replay, Refuses, Ops;
    WrittenOver(legacy, steps, i);
  }

  // ----- Where the guarantees end

  lemma Extend(steps: seq<Step>, x: Step)
    ensures Run(Initial(None), steps + [x]) == Apply(Run(Initial(None), steps), x)
  {
    hide Apply;
    RunAppend(Initial(None), steps, x);
  }

  /** Call `c` of client `writer` reads an absent point, builds and delivers
      the insertion of `m`. */
  lemma StoresNew(s: State, c: nat, writer: nat, m: Memory) returns (t: State)
    requires c !in s.calls && s.server.point.None?
    ensures t == Apply(Apply(Apply(Apply(s, Begin(c, writer, Store(m, false))), Read(c)), Build(c)), Deliver(c))
    ensures var token := Token(writer, Counter(s, writer)); var mark := Mark(s.server.lives, |s.server.life.commits|);
      var req := Request(token, None, true, Replace, MemoryToPayload(m), Stamped([], token));
      && t.calls == s.calls[c := Call(Store(m, false), writer, 0, Answered(req, mark))]
      && t.server == Insert(s.server, req, Commit(token, c, Store(m, false), mark.lives))
      && t.next == s.next[writer := token.count + 1]
  {
    hide MemoryToPayload, Modify, View;
    var s1 := Apply(s, Begin(c, writer, Store(m, false)));
    var s2 := Apply(s1, Read(c));
    assert s2.calls[c].phase == Holding(None, Mark(s.server.lives, |s.server.life.commits|));
    var s3 := Apply(s2, Build(c));
    t := Apply(s3, Deliver(c));
  }

  /** A store of new content whose insertion landed, was deleted, and was
      stored again by someone else reads back as a lost race: a call that read
      no revision is told "not applied" of a write that was. VerdictExact says
      that takes both. */
  lemma LostVerdictCanHideAWrite(m: Memory) returns (steps: seq<Step>)
    ensures var s := Run(Initial(None), steps);
      && 0 in s.calls && s.calls[0].phase.Answered?
      && Verdict(s.server, s.calls[0].phase.req) == No
      && s.calls[0].phase.req.token in s.server.views
  {
    hide MemoryToPayload;
    var op := Store(m, false);
    var s0 := Initial(None);
    var s1 := StoresNew(s0, 0, 0, m);
    var s2 := Apply(s1, Delete);
    var s3 := StoresNew(s2, 1, 1, m);
    var first := [Begin(0, 0, op), Read(0), Build(0), Deliver(0)];
    steps := first + [Delete, Begin(1, 1, op), Read(1), Build(1), Deliver(1)];
    NineSteps(steps);
    assert s3.server.point.value.log == [Token(1, 0)];
  }

  lemma NineSteps(steps: seq<Step>)
    requires |steps| == 9
    ensures Run(Initial(None), steps) ==
      Apply(Apply(Apply(Apply(Apply(Apply(Apply(Apply(Apply(Initial(None), steps[0]), steps[1]), steps[2]), steps[3]),
        steps[4]), steps[5]), steps[6]), steps[7]), steps[8])
  {
    hide Apply;
    forall i | 0 <= i < 9
      ensures Run(Initial(None), steps[..i + 1]) == Apply(Run(Initial(None), steps[..i]), steps[i])
    {
      assert steps[..i + 1] == steps[..i] + [steps[i]];
      Extend(steps[..i], steps[i]);
    }
    assert steps[..9] == steps;
  }
}
