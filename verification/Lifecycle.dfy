// What a whole history of committed writes leaves on one memory. A history is
// a base payload (inserted, or written before revisions existed) and the
// writes committed over it, oldest first; Protocol.dfy proves that every run
// of the compare-and-set protocol is such a history.

module Lifecycle {
  import opened Wrappers
  import opened Json
  import opened Revision
  import opened Payload

  /** `base` with every write of `ops` applied in order; `None` when one of
      them would have written nothing. */
  function Replay(base: Fields, ops: seq<Op>): Option<Fields> {
    if ops == [] then Some(base)
    else
      match Replay(base, ops[..|ops| - 1])
      case None => None
      case Some(f) => Transform(ops[|ops| - 1], f)
  }

  lemma ReplayAppend(base: Fields, ops: seq<Op>, op: Op)
    ensures Replay(base, ops + [op]) ==
            match Replay(base, ops) case None => None case Some(f) => Transform(op, f)
  {
    assert (ops + [op])[..|ops|] == ops;
  }

  /** Callers leave the server-maintained keys alone: the reserved-key checks
      in front of the storage layer, and the shape in which a supersession
      reaches `update_metadata`. */
  predicate Respectful(op: Op) {
    match op
    case Store(memory, _) => memory.metadata.Some? ==> SupersededBy !in memory.metadata.value
    case UpdateMetadata(sb, top) =>
      && top.Keys !! {Metadata, AccessCount, AccessTimestamps, SupersessionLog, FlatSupersededBy,
                      Summary, SummaryEmbedding}
      && (sb.Some? <==> SupersessionReason in top)
    case PatchMemory(patch, _) => patch.metadata.Some? ==> SupersededBy !in patch.metadata.value
    case _ => true
  }

  predicate AllRespectful(ops: seq<Op>) {
    forall op | op in ops :: Respectful(op)
  }

  // ----- What one write leaves alone

  /** The top-level keys a write other than a store may change. */
  function Touched(op: Op): set<Key>
    requires !op.Store?
  {
    match op
    case Bump(_) => {AccessCount, AccessTimestamps}
    case UpdateMetadata(sb, top) => top.Keys + (if sb.Some? then {Metadata} else {})
    case Reverse(_, _) => {Metadata, SupersessionReason, SupersessionLog}
    case SupersedeIfLive(_, _) => {Metadata, SupersessionReason}
    case Confirm(_) => {Metadata}
    case PatchMemory(_, _) => {Tags, Summary, MemoryType, SummaryEmbedding, Metadata, UpdatedAt}
    case GeneratedSummary(_, _, _) => {Summary, SummaryEmbedding, UpdatedAt}
    case MigrateFlat => {FlatSupersededBy, Metadata}
  }

  lemma Frame(op: Op, f: Fields, g: Fields, k: Key)
    requires !op.Store? && Transform(op, f) == Some(g) && k !in Touched(op)
    ensures Get(g, k) == Get(f, k)
  {
    match op
    case Bump(_) =>
    case UpdateMetadata(_, _) =>
    case Reverse(_, _) =>
    case SupersedeIfLive(_, _) =>
    case Confirm(_) =>
    case PatchMemory(patch, now) => PatchFrame(f, patch, now, k);
    case GeneratedSummary(text, embedding, now) =>
      TextFrame(f, text, embedding, now, k);
    case MigrateFlat =>
  }

  lemma PatchFrame(f: Fields, patch: Patch, now: real, k: Key)
    requires k !in {Tags, Summary, MemoryType, SummaryEmbedding, UpdatedAt}
    requires k == Metadata ==> patch.metadata.None?
    ensures Get(Patched(f, patch, now), k) == Get(f, k)
  {
  }

  /** A generated summary changes nothing but the summary, its vector and the
      time of the update. */
  lemma TextFrame(f: Fields, text: string, embedding: Option<Value>, now: real, k: Key)
    requires k !in {Summary, SummaryEmbedding, UpdatedAt}
    ensures Get(Patched(f, Patch(None, None, Some(text), None, embedding), now), k) == Get(f, k)
  {
  }

  // ----- What a re-store keeps

  lemma MetadataOfMemory(m: Memory)
    ensures Get(MemoryToPayload(m), Metadata) == OptObj(m.metadata)
  {
    hide MemoryToPayload;
    OtherParts(m);
  }

  lemma ServerKeysOfMemory(m: Memory, k: Key)
    requires k in {SupersessionReason, SupersessionLog, FlatSupersededBy}
    ensures k !in MemoryToPayload(m)
  {
    hide MemoryToPayload;
    PayloadKey(m, k);
  }

  lemma CarryMetaOther(payload: Fields, prev: Fields, k: Key, j: Key)
    requires j != Metadata
    ensures Get(CarryMeta(payload, prev, k), j) == Get(payload, j)
  {
  }

  predicate MetadataIsObject(f: Fields) { Metadata in f ==> f[Metadata].Obj? }

  lemma CarryMetaSets(payload: Fields, prev: Fields, k: Key)
    requires MetadataIsObject(payload)
    ensures MetadataIsObject(CarryMeta(payload, prev, k))
    ensures Meta(CarryMeta(payload, prev, k), k) == Meta(prev, k)
  {
  }

  lemma CarryMetaSibling(payload: Fields, prev: Fields, k: Key, j: Key)
    requires MetadataIsObject(payload) && j != k
    ensures Meta(CarryMeta(payload, prev, k), j) == Meta(payload, j)
  {
    if Meta(prev, k).Some? { SetSibling(payload, prev, k, j); } else { DroppedSibling(payload, prev, k, j); }
  }

  lemma SetSibling(payload: Fields, prev: Fields, k: Key, j: Key)
    requires MetadataIsObject(payload) && j != k && Meta(prev, k).Some?
    ensures Meta(CarryMeta(payload, prev, k), j) == Meta(payload, j)
  {
  }

  lemma DroppedSibling(payload: Fields, prev: Fields, k: Key, j: Key)
    requires MetadataIsObject(payload) && j != k && Meta(prev, k).None?
    ensures Meta(CarryMeta(payload, prev, k), j) == Meta(payload, j)
  {
  }

  /** A top-level key after a re-store: the stored value when the key is
      carried and stored, the caller's otherwise. */
  lemma RestoredKey(memory: Memory, prev: Fields, k: Key)
    requires k != Metadata && k != SummaryEmbedding
    ensures Get(Restored(memory, prev), k) ==
            if k in CARRIED && k in prev then Get(prev, k) else Get(MemoryToPayload(memory), k)
  {
    var kept := CarryKeys(MemoryToPayload(memory), prev, CARRIED);
    CarryMetaOther(kept, prev, SupersededBy, k);
    CarryMetaOther(CarryMeta(kept, prev, SupersededBy), prev, LastConfirmedAt, k);
  }

  lemma StoreTransform(op: Op, f: Fields, g: Fields)
    requires op.Store? && Transform(op, f) == Some(g)
    ensures g == Restored(op.memory, f)
  {
  }

  /** The reason and the audit log are always the stored ones; the flat key is
      never kept. */
  lemma RestoredServerKey(op: Op, f: Fields, g: Fields, k: Key)
    requires op.Store? && Transform(op, f) == Some(g)
    requires k in {SupersessionReason, SupersessionLog, FlatSupersededBy}
    ensures Get(g, k) == if k == FlatSupersededBy then None else Get(f, k)
  {
    StoreTransform(op, f, g);
    RestoredKey(op.memory, f, k);
    ServerKeysOfMemory(op.memory, k);
    hide Transform, Restored, MemoryToPayload;
    assert CARRIED == [CreatedAt, AccessCount, AccessTimestamps, SupersessionReason, SupersessionLog];
  }

  /** The stored marker and confirmation survive a re-store, present or
      absent, whatever the caller's copy of the metadata says. */
  lemma RestoredMarker(memory: Memory, prev: Fields)
    ensures Meta(Restored(memory, prev), SupersededBy) == Meta(prev, SupersededBy)
    ensures Meta(Restored(memory, prev), LastConfirmedAt) == Meta(prev, LastConfirmedAt)
  {
    var built := MemoryToPayload(memory);
    MetadataOfMemory(memory);
    hide MemoryToPayload, CarryMeta, CarryEmbedding;
    var kept := CarryKeys(built, prev, CARRIED);
    assert Get(kept, Metadata) == Get(built, Metadata);
    var marked := CarryMeta(kept, prev, SupersededBy);
    CarryMetaSets(kept, prev, SupersededBy);
    CarryMetaSets(marked, prev, LastConfirmedAt);
    CarryMetaSibling(marked, prev, LastConfirmedAt, SupersededBy);
    EmbeddingKeepsMetadata(CarryMeta(marked, prev, LastConfirmedAt), prev);
  }

  lemma EmbeddingKeepsMetadata(payload: Fields, prev: Fields)
    ensures Get(CarryEmbedding(payload, prev), Metadata) == Get(payload, Metadata)
  {
  }

  /** Every other metadata key is the caller's. */
  lemma RestoredMetadata(memory: Memory, prev: Fields, j: Key)
    requires j != SupersededBy && j != LastConfirmedAt
    ensures Meta(Restored(memory, prev), j) ==
            match memory.metadata case Some(m) => Get(m, j) case None => None
  {
    var built := MemoryToPayload(memory);
    MetadataOfMemory(memory);
    hide MemoryToPayload, CarryMeta, CarryEmbedding;
    var kept := CarryKeys(built, prev, CARRIED);
    assert Get(kept, Metadata) == Get(built, Metadata);
    var marked := CarryMeta(kept, prev, SupersededBy);
    CarryMetaSets(kept, prev, SupersededBy);
    CarryMetaSibling(kept, prev, SupersededBy, j);
    CarryMetaSibling(marked, prev, LastConfirmedAt, j);
    EmbeddingKeepsMetadata(CarryMeta(marked, prev, LastConfirmedAt), prev);
  }

  /** The summary's vector: the caller's, else the stored one while the summary
      stays the same. */
  lemma RestoredEmbedding(memory: Memory, prev: Fields)
    ensures Get(Restored(memory, prev), SummaryEmbedding) ==
            if memory.summaryEmbedding.Some? then memory.summaryEmbedding
            else if Summary in prev && Get(prev, Summary) == OptStr(memory.summary) then Get(prev, SummaryEmbedding)
            else None
  {
    SummaryOfMemory(memory);
    var kept := CarryKeys(MemoryToPayload(memory), prev, CARRIED);
    assert Summary !in CARRIED && SummaryEmbedding !in CARRIED;
    var marked := CarryMeta(CarryMeta(kept, prev, SupersededBy), prev, LastConfirmedAt);
    forall k | k in {Summary, SummaryEmbedding} ensures Get(marked, k) == Get(MemoryToPayload(memory), k) {
      CarryMetaOther(kept, prev, SupersededBy, k);
      CarryMetaOther(CarryMeta(kept, prev, SupersededBy), prev, LastConfirmedAt, k);
    }
    hide MemoryToPayload, CarryMeta;
    assert Restored(memory, prev) == CarryEmbedding(marked, prev);
  }

  // ----- What a patch writes

  /** A patch's metadata keys: null deletes, a value sets, the rest stay. */
  lemma PatchedMetadata(f: Fields, patch: Patch, now: real, j: Key)
    ensures Meta(Patched(f, patch, now), j) ==
            if patch.metadata.Some? && j in patch.metadata.value
            then (if patch.metadata.value[j] == Null then None else Some(patch.metadata.value[j]))
            else Meta(f, j)
  {
    var g := Patched(f, patch, now);
    if patch.metadata.None? {
      PatchFrame(f, patch, now, Metadata);
    } else {
      assert g[Metadata] == Obj(Merged(MetadataOrEmpty(f), patch.metadata.value));
    }
  }

  /** A patch's own keys, and the vector a changed summary outdates. */
  lemma PatchedKeys(f: Fields, patch: Patch, now: real)
    ensures var g := Patched(f, patch, now);
      && Get(g, UpdatedAt) == Some(Float(now))
      && Get(g, Tags) == (if patch.tags.Some? then Some(Arr(Strs(patch.tags.value))) else Get(f, Tags))
      && Get(g, MemoryType) ==
         (if patch.memoryType.Some? then Some(Str(patch.memoryType.value)) else Get(f, MemoryType))
    ensures var g := Patched(f, patch, now);
      && Get(g, Summary) == (if patch.summary.Some? then Some(Str(patch.summary.value)) else Get(f, Summary))
      && Get(g, SummaryEmbedding) ==
         if patch.summaryEmbedding.Some? then patch.summaryEmbedding
         else if patch.summary.Some? && AsStr(Get(f, Summary)) != patch.summary then None
         else Get(f, SummaryEmbedding)
  {
  }

  /** Writes that rebuild the metadata keep every key they do not name. */
  lemma MetadataSiblings(op: Op, f: Fields, g: Fields, j: Key)
    requires op.UpdateMetadata? || op.Reverse? || op.SupersedeIfLive? || op.Confirm? || op.MigrateFlat?
    requires Respectful(op) && Transform(op, f) == Some(g) && j != SupersededBy
    ensures Meta(g, j) == if op.Confirm? && j == LastConfirmedAt then Some(Float(op.at)) else Meta(f, j)
  {
    hide Transform;
    match op
    case UpdateMetadata(_, _) => UpdateSiblings(op, f, g, j);
    case Reverse(_, _) => ReverseSiblings(op, f, g, j);
    case SupersedeIfLive(_, _) => LiveSiblings(op, f, g, j);
    case Confirm(_) => LiveSiblings(op, f, g, j);
    case MigrateFlat => MigrateSiblings(f, g, j);
  }

  lemma UpdateSiblings(op: Op, f: Fields, g: Fields, j: Key)
    requires op.UpdateMetadata? && Respectful(op) && Transform(op, f) == Some(g) && j != SupersededBy
    ensures Meta(g, j) == Meta(f, j)
  {
    if op.supersededBy.None? {
      hide Transform;
      Frame(op, f, g, Metadata);
    } else {
      MarkedSiblings(op, f, g, j);
    }
  }

  lemma MarkedSiblings(op: Op, f: Fields, g: Fields, j: Key)
    requires op.UpdateMetadata? && op.supersededBy.Some? && Transform(op, f) == Some(g) && j != SupersededBy
    ensures Meta(g, j) == Meta(f, j)
  {
    var v := View(op, f);
    assert Get(v, Metadata) == Get(f, Metadata);
    hide View;
  }

  lemma ReverseSiblings(op: Op, f: Fields, g: Fields, j: Key)
    requires op.Reverse? && Transform(op, f) == Some(g) && j != SupersededBy
    ensures Meta(g, j) == Meta(f, j)
  {
    assert g[Metadata] == Obj(f[Metadata].fields - {SupersededBy});
  }

  lemma LiveSiblings(op: Op, f: Fields, g: Fields, j: Key)
    requires op.SupersedeIfLive? || op.Confirm?
    requires Transform(op, f) == Some(g) && j != SupersededBy
    ensures Meta(g, j) == if op.Confirm? && j == LastConfirmedAt then Some(Float(op.at)) else Meta(f, j)
  {
  }

  lemma MigrateSiblings(f: Fields, g: Fields, j: Key)
    requires Transform(MigrateFlat, f) == Some(g) && j != SupersededBy
    ensures Meta(g, j) == Meta(f, j)
  {
  }

  // ----- Access history

  /** The count every reader sees: a missing or unreadable one is 0. */
  function AccessCountOf(f: Fields): nat {
    match AsU64(Get(f, AccessCount)) case Some(n) => n case None => 0
  }

  /** The times of the committed increments, in commit order. */
  function BumpTimes(ops: seq<Op>): seq<real> {
    if ops == [] then []
    else
      BumpTimes(ops[..|ops| - 1])
      + (match ops[|ops| - 1] case Bump(now) => [now] case _ => [])
  }

  lemma BumpStep(now: real, f: Fields, g: Fields)
    requires Transform(Bump(now), f) == Some(g)
    ensures AccessCount in g && AccessTimestamps in g
    ensures AccessCountOf(g) == AccessCountOf(f) + 1
    ensures AccessTimes(g) == Newest(AccessTimes(f) + [now], 100)
  {
    BumpView(now, f);
    BumpWrites(f, now);
  }

  /** An increment sees, and sends, only the two access keys. */
  lemma BumpView(now: real, f: Fields)
    ensures Transform(Bump(now), f) == Some(f + Bumped(f, now))
  {
    var v := View(Bump(now), f);
    assert Get(v, AccessCount) == Get(f, AccessCount);
    assert Get(v, AccessTimestamps) == Get(f, AccessTimestamps);
  }

  lemma BumpWrites(f: Fields, now: real)
    ensures var g := f + Bumped(f, now);
      && AccessCount in g && AccessTimestamps in g
      && AccessCountOf(g) == AccessCountOf(f) + 1
      && AccessTimes(g) == Newest(AccessTimes(f) + [now], MAX_ACCESS_TIMESTAMPS)
  {
    hide Newest;
    var times := Newest(AccessTimes(f) + [now], MAX_ACCESS_TIMESTAMPS);
    var g := f + Bumped(f, now);
    assert g[AccessCount] == Int(AccessCountOf(f) + 1);
    assert g[AccessTimestamps] == Arr(Floats(times));
    hide Bumped;
    NumbersOfFloats(times);
  }

  /** The history a memory keeps after increments at `bumps`. */
  function Capped(times: seq<real>, bumps: seq<real>): seq<real> {
    if bumps == [] then times else Newest(times + bumps, MAX_ACCESS_TIMESTAMPS)
  }

  lemma CappedAppend(times: seq<real>, bumps: seq<real>, now: real)
    ensures Newest(Capped(times, bumps) + [now], MAX_ACCESS_TIMESTAMPS) == Capped(times, bumps + [now])
  {
    NewestAppend(times + bumps, now, MAX_ACCESS_TIMESTAMPS);
    assert times + bumps + [now] == times + (bumps + [now]);
    assert bumps == [] ==> times + bumps == times;
  }

  /** Nothing but an increment moves a stored count or access time, and
      nothing but a re-store brings one that was not stored. */
  lemma AccessKept(op: Op, f: Fields, g: Fields, k: Key)
    requires !op.Bump? && Respectful(op) && Transform(op, f) == Some(g)
    requires k in {AccessCount, AccessTimestamps} && (k in f || !op.Store?)
    ensures Get(g, k) == Get(f, k)
  {
    hide Transform;
    match op
    case Store(memory, _) =>
      StoreTransform(op, f, g);
      RestoredKey(memory, f, k);
      assert AccessCount == CARRIED[1] && AccessTimestamps == CARRIED[2];
    case _ => Frame(op, f, g, k);
  }

  /** The counts, and the access times, that re-stores may send. */
  ghost predicate SendsCounts(ops: seq<Op>, counts: iset<nat>) {
    forall op | op in ops :: op.Store? ==> op.memory.accessCount in counts
  }

  ghost predicate SendsTimes(ops: seq<Op>, times: iset<seq<real>>) {
    forall op | op in ops :: op.Store? ==> op.memory.accessTimestamps in times
  }

  /** A re-store over a payload without a count brings the caller's. */
  lemma UncountedRestore(op: Op, f: Fields, g: Fields)
    requires op.Store? && Transform(op, f) == Some(g)
    ensures AccessCount !in f ==> AccessCountOf(g) == op.memory.accessCount
    ensures AccessTimestamps !in f ==> AccessTimes(g) == op.memory.accessTimestamps
  {
    hide Transform, Restored, MemoryToPayload, Floats, Numbers;
    StoreTransform(op, f, g);
    RestoredKey(op.memory, f, AccessCount);
    RestoredKey(op.memory, f, AccessTimestamps);
    AccessOfMemory(op.memory);
    NumbersOfFloats(op.memory.accessTimestamps);
  }

  /** No access is lost or counted twice, through any mix of writes. */
  lemma {:induction false} AccessCountConserved(base: Fields, ops: seq<Op>, f: Fields)
    requires AllRespectful(ops) && (AccessCount in base || SendsCounts(ops, iset{0}))
    ensures Replay(base, ops) == Some(f) ==> CountConserved(base, ops) && (AccessCount in base ==> AccessCount in f)
  {
    hide Transform;
    if ops != [] && Replay(base, ops) == Some(f) {
      var n := |ops| - 1;
      var prev := Replay(base, ops[..n]).value;
      AccessCountConserved(base, ops[..n], prev);
      assert ops[n] in ops;
      match ops[n]
      case Bump(now) => BumpStep(now, prev, f);
      case op =>
        if AccessCount !in prev && op.Store? {
          UncountedRestore(op, prev, f);
        } else {
          AccessKept(op, prev, f, AccessCount);
        }
    }
  }

  lemma {:induction false} AccessTimesNewest(base: Fields, ops: seq<Op>, f: Fields)
    requires AllRespectful(ops) && (AccessTimestamps in base || SendsTimes(ops, iset{[]}))
    ensures Replay(base, ops) == Some(f) ==>
      TimesConserved(base, ops) && (AccessTimestamps in base ==> AccessTimestamps in f)
  {
    hide Transform, Newest, Numbers;
    if ops != [] && Replay(base, ops) == Some(f) {
      var n := |ops| - 1;
      var prev := Replay(base, ops[..n]).value;
      AccessTimesNewest(base, ops[..n], prev);
      assert ops[n] in ops;
      match ops[n]
      case Bump(now) =>
        BumpStep(now, prev, f);
        CappedAppend(AccessTimes(base), BumpTimes(ops[..n]), now);
      case op =>
        assert BumpTimes(ops) == BumpTimes(ops[..n]);
        if AccessTimestamps !in prev && op.Store? {
          UncountedRestore(op, prev, f);
        } else {
          AccessKept(op, prev, f, AccessTimestamps);
        }
    }
  }

  /** The count after a history: the base's plus the increments. */
  predicate CountConserved(base: Fields, ops: seq<Op>) {
    match Replay(base, ops)
    case Some(f) => AccessCountOf(f) == AccessCountOf(base) + |BumpTimes(ops)|
    case None => true
  }

  /** The access times after a history: the newest of the base's and the
      increments'. */
  predicate TimesConserved(base: Fields, ops: seq<Op>) {
    match Replay(base, ops)
    case Some(f) => AccessTimes(f) == Capped(AccessTimes(base), BumpTimes(ops))
    case None => true
  }

  /** Exactly when the count is conserved in every history of callers that send
      these counts: the base payload holds a count, or no caller sends one but
      0, since a re-store carries over only keys it finds. */
  lemma CountConservedIff(base: Fields, counts: iset<nat>)
    ensures (forall ops :: AllRespectful(ops) && SendsCounts(ops, counts) ==> CountConserved(base, ops))
            <==> AccessCount in base || counts <= iset{0}
  {
    hide CountConserved, BumpTimes, AllRespectful;
    if AccessCount in base || counts <= iset{0} {
      forall ops | AllRespectful(ops) && SendsCounts(ops, counts) ensures CountConserved(base, ops) {
        match Replay(base, ops)
        case Some(f) => AccessCountConserved(base, ops, f);
        case None => Unreplayed(base, ops);
      }
    } else {
      var count :| count in counts && count != 0;
      var ops := OneStore(base, count, []);
    }
  }

  /** The same for the access times. */
  lemma TimesConservedIff(base: Fields, times: iset<seq<real>>)
    ensures (forall ops :: AllRespectful(ops) && SendsTimes(ops, times) ==> TimesConserved(base, ops))
            <==> AccessTimestamps in base || times <= iset{[]}
  {
    hide TimesConserved, BumpTimes, AllRespectful;
    if AccessTimestamps in base || times <= iset{[]} {
      forall ops | AllRespectful(ops) && SendsTimes(ops, times) ensures TimesConserved(base, ops) {
        match Replay(base, ops)
        case Some(f) => AccessTimesNewest(base, ops, f);
        case None => Unreplayed(base, ops);
      }
    } else {
      var sent :| sent in times && sent != [];
      var ops := OneStore(base, 0, sent);
    }
  }

  lemma Unreplayed(base: Fields, ops: seq<Op>)
    requires Replay(base, ops).None?
    ensures CountConserved(base, ops) && TimesConserved(base, ops)
  {
  }

  /** A re-store over a payload with no count, or no access times, takes the
      caller's. */
  lemma OneStore(base: Fields, count: nat, times: seq<real>) returns (ops: seq<Op>)
    ensures AllRespectful(ops) && SendsCounts(ops, iset{count}) && SendsTimes(ops, iset{times})
    ensures AccessCount !in base && count != 0 ==> !CountConserved(base, ops)
    ensures AccessTimestamps !in base && times != [] ==> !TimesConserved(base, ops)
  {
    var memory := Memory("", "", [], "note", 0.0, 0.0, 0.0, count, times, None, None, None, None, None, None, None);
    var op := Store(memory, false);
    ops := [op];
    var g := Restored(memory, base);
    assert Transform(op, base) == Some(g);
    UncountedRestore(op, base, g);
    hide Transform, Restored, MemoryToPayload;
    ReplayAppend(base, [], op);
    assert [] + ops == ops;
    assert BumpTimes(ops) == [];
  }

  lemma AccessOfMemory(m: Memory)
    ensures Get(MemoryToPayload(m), AccessCount) == Some(Int(m.accessCount))
    ensures Get(MemoryToPayload(m), AccessTimestamps) == Some(Arr(Floats(m.accessTimestamps)))
  {
    hide MemoryToPayload;
    BaseParts(m);
  }

  /** An inserted payload counts its accesses. */
  lemma CountOfMemory(m: Memory)
    ensures Get(MemoryToPayload(m), AccessCount) == Some(Int(m.accessCount))
    ensures AccessCount in MemoryToPayload(m) && AccessTimestamps in MemoryToPayload(m)
  {
    hide MemoryToPayload;
    BaseParts(m);
  }

  // ----- Supersession

  function Marker(f: Fields): Option<Value> { Meta(f, SupersededBy) }

  /** The marker a committed write leaves on a memory that held `f`: only a
      supersession sets it, only a reversal clears it. */
  function MarkerAfter(op: Op, f: Fields): Option<Value> {
    match op
    case UpdateMetadata(sb, _) => if sb.Some? then Some(Str(sb.value)) else Marker(f)
    case SupersedeIfLive(newHash, _) => Some(Str(newHash))
    case Reverse(_, _) => None
    case MigrateFlat =>
      if Marker(f).Some? && Truthy(Marker(f).value) then Marker(f) else Get(f, FlatSupersededBy)
    case _ => Marker(f)
  }

  /** What must hold of the payload a supersession write was built on. */
  predicate MarkerAllows(op: Op, f: Fields) {
    match op
    case SupersedeIfLive(_, _) => Marker(f) == None
    case Reverse(expected, _) => Marker(f) == Some(expected)
    case _ => true
  }

  lemma MarkerStep(op: Op, f: Fields, g: Fields)
    requires Respectful(op) && Transform(op, f) == Some(g)
    ensures Marker(g) == MarkerAfter(op, f) && MarkerAllows(op, f)
  {
    hide Transform;
    match op
    case Store(_, _) => StoreMarker(op, f, g);
    case Bump(_) => Frame(op, f, g, Metadata);
    case UpdateMetadata(_, _) => UpdateMarker(op, f, g);
    case Reverse(_, _) => ReverseMarker(op, f, g);
    case SupersedeIfLive(_, _) => SupersedeMarker(op, f, g);
    case Confirm(_) => ConfirmMarker(op, f, g);
    case PatchMemory(_, _) => PatchMarker(op, f, g);
    case GeneratedSummary(_, _, _) => Frame(op, f, g, Metadata);
    case MigrateFlat => MigrateMarker(f, g);
  }

  lemma StoreMarker(op: Op, f: Fields, g: Fields)
    requires op.Store? && Transform(op, f) == Some(g)
    ensures Marker(g) == Marker(f)
  {
    RestoredMarker(op.memory, f);
  }

  lemma UpdateMarker(op: Op, f: Fields, g: Fields)
    requires op.UpdateMetadata? && Respectful(op) && Transform(op, f) == Some(g)
    ensures Marker(g) == MarkerAfter(op, f)
  {
    if op.supersededBy.None? { Frame(op, f, g, Metadata); }
  }

  lemma ReverseMarker(op: Op, f: Fields, g: Fields)
    requires op.Reverse? && Transform(op, f) == Some(g)
    ensures Marker(f) == Some(op.expected) && Marker(g) == None
  {
    assert g[Metadata] == Obj(f[Metadata].fields - {SupersededBy});
  }

  lemma SupersedeMarker(op: Op, f: Fields, g: Fields)
    requires op.SupersedeIfLive? && Transform(op, f) == Some(g)
    ensures Marker(f) == None && Marker(g) == Some(Str(op.newHash))
    ensures Get(g, SupersessionReason) == Some(Str(op.reason))
  {
  }

  lemma ConfirmMarker(op: Op, f: Fields, g: Fields)
    requires op.Confirm? && Transform(op, f) == Some(g)
    ensures Marker(f) == None && Marker(g) == None
  {
  }

  lemma PatchMarker(op: Op, f: Fields, g: Fields)
    requires op.PatchMemory? && Respectful(op) && Transform(op, f) == Some(g)
    ensures Marker(g) == Marker(f)
  {
    var patch := op.patch;
    assert g == Patched(f, patch, op.now);
    if patch.metadata.None? {
      PatchFrame(f, patch, op.now, Metadata);
    } else {
      assert g[Metadata] == Obj(Merged(MetadataOrEmpty(f), patch.metadata.value));
    }
  }

  lemma MigrateMarker(f: Fields, g: Fields)
    requires Transform(MigrateFlat, f) == Some(g)
    ensures Marker(g) == MarkerAfter(MigrateFlat, f)
    ensures FlatSupersededBy in f && FlatSupersededBy !in g
  {
  }

  /** The reason a committed write leaves. */
  function ReasonAfter(op: Op, f: Fields): Option<Value> {
    match op
    case UpdateMetadata(sb, top) => if sb.Some? then Get(top, SupersessionReason) else Get(f, SupersessionReason)
    case SupersedeIfLive(_, reason) => Some(Str(reason))
    case Reverse(_, _) => None
    case _ => Get(f, SupersessionReason)
  }

  lemma UpdateReason(op: Op, f: Fields, g: Fields)
    requires op.UpdateMetadata? && Respectful(op) && Transform(op, f) == Some(g)
    ensures Get(g, SupersessionReason) == ReasonAfter(op, f)
  {
    if op.supersededBy.None? { Frame(op, f, g, SupersessionReason); }
  }

  lemma ReverseKeys(op: Op, f: Fields, g: Fields)
    requires op.Reverse? && Transform(op, f) == Some(g)
    ensures SupersessionReason !in g
    ensures LogEntries(g) == LogEntries(f) + [LogEntry(f, op.record)]
  {
  }

  lemma ReasonStep(op: Op, f: Fields, g: Fields)
    requires Respectful(op) && Transform(op, f) == Some(g)
    ensures Get(g, SupersessionReason) == ReasonAfter(op, f)
  {
    hide Transform;
    match op
    case Store(_, _) => RestoredServerKey(op, f, g, SupersessionReason);
    case UpdateMetadata(_, _) => UpdateReason(op, f, g);
    case Reverse(_, _) => ReverseKeys(op, f, g);
    case SupersedeIfLive(_, _) => SupersedeMarker(op, f, g);
    case _ => Frame(op, f, g, SupersessionReason);
  }

  lemma LogStep(op: Op, f: Fields, g: Fields)
    requires Respectful(op) && Transform(op, f) == Some(g)
    ensures LogEntries(g) == LogEntries(f) + (if op.Reverse? then [LogEntry(f, op.record)] else [])
  {
    hide Transform;
    match op
    case Store(_, _) => RestoredServerKey(op, f, g, SupersessionLog);
    case Reverse(_, _) => ReverseKeys(op, f, g);
    case _ => Frame(op, f, g, SupersessionLog);
  }

  lemma FlatStep(op: Op, f: Fields, g: Fields)
    requires Respectful(op) && Transform(op, f) == Some(g)
    ensures Get(g, FlatSupersededBy) == if op.Store? || op.MigrateFlat? then None else Get(f, FlatSupersededBy)
  {
    hide Transform;
    match op
    case Store(_, _) => RestoredServerKey(op, f, g, FlatSupersededBy);
    case MigrateFlat => MigrateMarker(f, g);
    case _ => Frame(op, f, g, FlatSupersededBy);
  }

  // ----- Supersession over a whole history

  /** What says that a memory is hidden: its marker, the reason beside it, and
      the literal flat key an old writer left instead of a marker. */
  datatype Hiding = Hiding(marker: Option<Value>, reason: Option<Value>, flat: Option<Value>)

  function HidingOf(f: Fields): Hiding { Hiding(Marker(f), Get(f, SupersessionReason), Get(f, FlatSupersededBy)) }

  /** The hiding after `ops`, from the supersessions, reversals and migrations
      alone. Of a re-store only that it happened counts, and only for the flat
      key: the metadata it carries is nowhere here. */
  function HidingAfter(h: Hiding, ops: seq<Op>): Hiding {
    if ops == [] then h
    else
      var prev := HidingAfter(h, ops[..|ops| - 1]);
      match ops[|ops| - 1]
      case UpdateMetadata(Some(survivor), top) =>
        prev.(marker := Some(Str(survivor)), reason := Get(top, SupersessionReason))
      case SupersedeIfLive(survivor, reason) => prev.(marker := Some(Str(survivor)), reason := Some(Str(reason)))
      case Reverse(_, _) => prev.(marker := None, reason := None)
      case Store(_, _) => prev.(flat := None)
      case MigrateFlat =>
        if prev.marker.Some? && Truthy(prev.marker.value) then prev.(flat := None)
        else prev.(marker := prev.flat, flat := None)
      case _ => prev
  }

  lemma {:induction false} HidingHistory(base: Fields, ops: seq<Op>, f: Fields)
    requires AllRespectful(ops)
    ensures Replay(base, ops) == Some(f) ==> HidingOf(f) == HidingAfter(HidingOf(base), ops)
  {
    hide Transform;
    if ops != [] && Replay(base, ops) == Some(f) {
      var n := |ops| - 1;
      var prev := Replay(base, ops[..n]).value;
      HidingHistory(base, ops[..n], prev);
      MarkerStep(ops[n], prev, f);
      ReasonStep(ops[n], prev, f);
      FlatStep(ops[n], prev, f);
    }
  }

  /** A marked memory carries the reason it was superseded for, an unmarked
      one carries none. */
  predicate Coupled(f: Fields) { Marker(f).Some? <==> SupersessionReason in f }

  /** A write that settles marker and reason together. */
  predicate Rules(op: Op) {
    op.SupersedeIfLive? || op.Reverse? || (op.UpdateMetadata? && op.supersededBy.Some?)
  }

  /** The move at `i` made the flat key the marker of a memory that had none,
      and no supersession or reversal came after it. */
  predicate OrphanedAt(h: Hiding, ops: seq<Op>, i: nat)
    requires i < |ops|
  {
    && ops[i] == MigrateFlat && HidingAfter(h, ops[..i]).marker.None?
    && forall j | i < j < |ops| :: !Rules(ops[j])
  }

  predicate Orphaned(h: Hiding, ops: seq<Op>) {
    exists i | 0 <= i < |ops| :: OrphanedAt(h, ops, i)
  }

  lemma OrphanedNext(h: Hiding, ops: seq<Op>)
    requires ops != []
    ensures var n := |ops| - 1;
      Orphaned(h, ops) <==>
        (ops[n] == MigrateFlat && HidingAfter(h, ops[..n]).marker.None?) || (!Rules(ops[n]) && Orphaned(h, ops[..n]))
  {
    hide HidingAfter;
    var n := |ops| - 1;
    forall i | 0 <= i < n
      ensures OrphanedAt(h, ops, i) <==> !Rules(ops[n]) && OrphanedAt(h, ops[..n], i)
    {
      assert ops[..n][..i] == ops[..i];
      assert forall j | i < j < n :: ops[..n][j] == ops[j];
    }
    assert OrphanedAt(h, ops, n) <==> ops[n] == MigrateFlat && HidingAfter(h, ops[..n]).marker.None?;
  }

  /** Over a base where they went together, marker and reason still do unless
      the last word was the move of the flat key, which brings no reason. */
  lemma {:induction false} ReasonHistory(base: Fields, ops: seq<Op>, f: Fields)
    requires AllRespectful(ops) && Coupled(base)
    ensures Replay(base, ops) == Some(f) ==> (Coupled(f) <==> !Orphaned(HidingOf(base), ops))
    ensures Replay(base, ops) == Some(f) && Orphaned(HidingOf(base), ops) ==>
      Marker(f).Some? && SupersessionReason !in f
  {
    hide Transform, Orphaned;
    if ops == [] {
      Unmoved(HidingOf(base));
    } else if Replay(base, ops) == Some(f) {
      var n := |ops| - 1;
      var prev := Replay(base, ops[..n]).value;
      ReasonHistory(base, ops[..n], prev);
      HidingHistory(base, ops[..n], prev);
      OrphanedNext(HidingOf(base), ops);
      hide HidingAfter;
      MarkerStep(ops[n], prev, f);
      ReasonStep(ops[n], prev, f);
      if ops[n] == MigrateFlat { MigrateMarker(prev, f); }
    }
  }

  lemma Unmoved(h: Hiding)
    ensures !Orphaned(h, [])
  {
  }

  /** The audit entries of the reversals among `ops`, oldest first, each built
      from the payload its reversal replaced. */
  function ReversalEntries(base: Fields, ops: seq<Op>): seq<Value> {
    if ops == [] then []
    else
      var n := |ops| - 1;
      ReversalEntries(base, ops[..n])
      + (match (Replay(base, ops[..n]), ops[n])
         case (Some(prev), Reverse(_, record)) => [LogEntry(prev, record)]
         case _ => [])
  }

  /** The audit log is append-only: the base's entries, then exactly one per
      reversal. */
  lemma {:induction false} LogHistory(base: Fields, ops: seq<Op>, f: Fields)
    requires AllRespectful(ops)
    ensures Replay(base, ops) == Some(f) ==> LogEntries(f) == LogEntries(base) + ReversalEntries(base, ops)
  {
    hide Transform;
    if ops != [] && Replay(base, ops) == Some(f) {
      var n := |ops| - 1;
      var prev := Replay(base, ops[..n]).value;
      LogHistory(base, ops[..n], prev);
      LogStep(ops[n], prev, f);
    }
  }

  /** A reversal records the marker it removed, which is the one it named. */
  lemma ReversalRecordsMarker(op: Op, f: Fields, g: Fields)
    requires op.Reverse? && Transform(op, f) == Some(g)
    ensures LogEntry(f, op.record).fields[SupersededBy] == op.expected
    ensures LogEntry(f, op.record).fields[SupersessionReason] ==
      if SupersessionReason in f then f[SupersessionReason] else Null
    ensures LogEntry(f, op.record).fields[Named("unsuperseded_at")] == Float(op.record.at)
    ensures LogEntry(f, op.record).fields[Named("unsuperseded_via")] == Str(op.record.via)
    ensures LogEntry(f, op.record).fields[Named("reason")] == Str(op.record.reason)
    ensures |LogEntry(f, op.record).fields| == 5
  {
  }

  /** No write puts the flat key back, so the move happens at most once. */
  lemma {:induction false} MigratedOnce(base: Fields, ops: seq<Op>, f: Fields, i: nat, j: nat)
    requires AllRespectful(ops)
    requires i < |ops| && j < |ops| && ops[i] == MigrateFlat && ops[j] == MigrateFlat
    ensures Replay(base, ops) == Some(f) ==> i == j
  {
    hide Transform;
    if Replay(base, ops) == Some(f) {
      var n := |ops| - 1;
      var prev := Replay(base, ops[..n]).value;
      if i < n && j < n {
        MigratedOnce(base, ops[..n], prev, i, j);
      } else if i != j {
        MigrateMarker(prev, f);
        FlatGone(base, ops[..n], prev, if i < n then i else j);
      }
    }
  }

  lemma {:induction false} FlatGone(base: Fields, ops: seq<Op>, f: Fields, i: nat)
    requires AllRespectful(ops) && Replay(base, ops) == Some(f)
    requires i < |ops| && ops[i] == MigrateFlat
    ensures FlatSupersededBy !in f
  {
    hide Transform;
    var n := |ops| - 1;
    var prev := Replay(base, ops[..n]).value;
    FlatStep(ops[n], prev, f);
    if i < n { FlatGone(base, ops[..n], prev, i); }
  }

  // ----- Summaries

  /** Embeddings come only together with the text they describe. */
  predicate SuppliesPairs(op: Op, describes: (Value, string) -> bool) {
    match op
    case Store(m, _) =>
      m.summaryEmbedding.Some? ==> m.summary.Some? && describes(m.summaryEmbedding.value, m.summary.value)
    case UpdateMetadata(_, top) => top.Keys !! {Summary, SummaryEmbedding}
    case PatchMemory(p, _) =>
      p.summaryEmbedding.Some? ==> p.summary.Some? && describes(p.summaryEmbedding.value, p.summary.value)
    case GeneratedSummary(text, e, _) => e.Some? ==> describes(e.value, text)
    case _ => true
  }

  /** A stored vector describes the stored summary. */
  predicate Described(f: Fields, describes: (Value, string) -> bool) {
    SummaryEmbedding in f ==> AsStr(Get(f, Summary)).Some? && describes(f[SummaryEmbedding], f[Summary].s)
  }

  lemma PatchTransform(op: Op, f: Fields, g: Fields)
    requires op.PatchMemory? || op.GeneratedSummary?
    requires Transform(op, f) == Some(g)
    ensures op.PatchMemory? ==> g == Patched(f, op.patch, op.now)
    ensures op.GeneratedSummary? ==> g == Patched(f, Patch(None, None, Some(op.text), None, op.embedding), op.now)
  {
  }

  lemma SummaryStep(op: Op, f: Fields, g: Fields, describes: (Value, string) -> bool)
    requires SuppliesPairs(op, describes) && Transform(op, f) == Some(g) && Described(f, describes)
    ensures Described(g, describes)
  {
    hide Transform;
    match op
    case Store(memory, _) =>
      StoreTransform(op, f, g);
      RestoredSummary(memory, f, describes);
    case PatchMemory(patch, now) =>
      PatchTransform(op, f, g);
      PatchedSummary(f, patch, now, describes);
    case GeneratedSummary(text, e, now) =>
      PatchTransform(op, f, g);
      PatchedSummary(f, Patch(None, None, Some(text), None, e), now, describes);
    case _ =>
      Frame(op, f, g, Summary);
      Frame(op, f, g, SummaryEmbedding);
  }

  lemma SummaryOfMemory(m: Memory)
    ensures Get(MemoryToPayload(m), Summary) == OptStr(m.summary)
    ensures Get(MemoryToPayload(m), SummaryEmbedding) == m.summaryEmbedding
  {
    hide MemoryToPayload;
    OtherParts(m);
    TextParts(m);
  }

  lemma RestoredSummary(m: Memory, prev: Fields, describes: (Value, string) -> bool)
    requires Described(prev, describes)
    requires m.summaryEmbedding.Some? ==> m.summary.Some? && describes(m.summaryEmbedding.value, m.summary.value)
    ensures Described(Restored(m, prev), describes)
  {
    SummaryOfMemory(m);
    var kept := CarryKeys(MemoryToPayload(m), prev, CARRIED);
    assert Summary !in CARRIED && SummaryEmbedding !in CARRIED;
    var marked := CarryMeta(CarryMeta(kept, prev, SupersededBy), prev, LastConfirmedAt);
    forall k | k in {Summary, SummaryEmbedding} ensures Get(marked, k) == Get(MemoryToPayload(m), k) {
      CarryMetaOther(kept, prev, SupersededBy, k);
      CarryMetaOther(CarryMeta(kept, prev, SupersededBy), prev, LastConfirmedAt, k);
    }
    hide MemoryToPayload, CarryMeta;
    assert Get(marked, SummaryEmbedding) == m.summaryEmbedding && Get(marked, Summary) == OptStr(m.summary);
    assert Restored(m, prev) == CarryEmbedding(marked, prev);
  }

  lemma PatchedSummary(f: Fields, patch: Patch, now: real, describes: (Value, string) -> bool)
    requires Described(f, describes)
    requires patch.summaryEmbedding.Some? ==>
      patch.summary.Some? && describes(patch.summaryEmbedding.value, patch.summary.value)
    ensures Described(Patched(f, patch, now), describes)
  {
    var g := Patched(f, patch, now);
    assert Get(g, Summary) == if patch.summary.Some? then Some(Str(patch.summary.value)) else Get(f, Summary);
    assert Get(g, SummaryEmbedding) ==
           if patch.summaryEmbedding.Some? then patch.summaryEmbedding
           else if DropsEmbedding(f, patch) then None else Get(f, SummaryEmbedding);
  }

  lemma {:induction false} SummaryHistory(base: Fields, ops: seq<Op>, f: Fields, describes: (Value, string) -> bool)
    requires (forall op | op in ops :: SuppliesPairs(op, describes)) && Described(base, describes)
    ensures Replay(base, ops) == Some(f) ==> Described(f, describes)
  {
    hide Transform;
    if ops != [] && Replay(base, ops) == Some(f) {
      var n := |ops| - 1;
      var prev := Replay(base, ops[..n]).value;
      SummaryHistory(base, ops[..n], prev, describes);
      SummaryStep(ops[n], prev, f, describes);
    }
  }

  /** A generated summary commits only over a payload that has none. */
  lemma GeneratedNeverReplaces(op: Op, f: Fields, g: Fields)
    requires op.GeneratedSummary? && Transform(op, f) == Some(g)
    ensures AsStr(Get(f, Summary)) == None && AsStr(Get(g, Summary)) == Some(op.text)
  {
    assert Get(g, Summary) == Some(Str(op.text));
  }
}
