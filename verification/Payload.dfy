// What each write does to a point's payload: the closures that
// `update_points` calls `modify`, the payload builders they use, and the
// effect of the write Qdrant applies.

module Payload {
  import opened Wrappers
  import opened Json
  import opened Revision

  const MAX_ACCESS_TIMESTAMPS: nat := 100

  // ----- Requests

  datatype Memory = Memory(
    content: string, contentHash: string, tags: seq<string>, memoryType: string,
    createdAt: real, updatedAt: real, salience: real,
    accessCount: nat, accessTimestamps: seq<real>,
    metadata: Option<Fields>, summary: Option<string>, summaryEmbedding: Option<Value>,
    valence: Option<Value>, encodingContext: Option<Value>, provenance: Option<Value>,
    nearestSimilarity: Option<real>)

  datatype Patch = Patch(
    tags: Option<seq<string>>, metadata: Option<Fields>, summary: Option<string>,
    memoryType: Option<string>, summaryEmbedding: Option<Value>)

  datatype Reversal = Reversal(at: real, via: string, reason: string)

  datatype Op =
    | Store(memory: Memory, insertOnly: bool)
    | Bump(now: real)
    | UpdateMetadata(supersededBy: Option<string>, top: Fields)
    | Reverse(expected: Value, record: Reversal)
    | SupersedeIfLive(newHash: string, reason: string)
    | Confirm(at: real)
    | PatchMemory(patch: Patch, now: real)
    | GeneratedSummary(text: string, embedding: Option<Value>, now: real)
    | MigrateFlat

  /** `Merge` sets the given keys and keeps the rest; `Replace` leaves exactly
      the given payload. */
  datatype How = Merge | Replace

  /** What `modify` answers for the payload it was shown. */
  datatype Decision = Refuse(why: string) | Leave | Write(how: How, fields: Fields)

  // ----- Payload builders

  /** `f[k]` set when a value is given. */
  function Set(f: Fields, k: Key, v: Option<Value>): Fields {
    match v case Some(x) => f[k := x] case None => f
  }

  function OptStr(s: Option<string>): Option<Value> {
    match s case Some(t) => Some(Str(t)) case None => None
  }

  function OptObj(m: Option<Fields>): Option<Value> {
    match m case Some(o) => Some(Obj(o)) case None => None
  }

  function BasePayload(m: Memory): Fields {
    map[Content := Str(m.content), ContentHash := Str(m.contentHash), Tags := Arr(Strs(m.tags)),
        MemoryType := Str(m.memoryType), CreatedAt := Float(m.createdAt),
        UpdatedAt := Float(m.updatedAt), SalienceScore := Float(m.salience),
        AccessCount := Int(m.accessCount), AccessTimestamps := Arr(Floats(m.accessTimestamps))]
  }

  function OptFloat(x: Option<real>): Option<Value> {
    match x case Some(r) => Some(Float(r)) case None => None
  }

  function MemoryToPayload(m: Memory): Fields {
    var described := Set(Set(BasePayload(m), Metadata, OptObj(m.metadata)), Summary, OptStr(m.summary));
    var felt := Set(Set(described, EmotionalValence, m.valence), EncodingContext, m.encodingContext);
    var proven := Set(Set(felt, Provenance, m.provenance), SummaryEmbedding, m.summaryEmbedding);
    Set(proven, NearestSimilarity, OptFloat(m.nearestSimilarity))
  }

  // ----- Reading a payload back

  function OrZero(v: Option<Value>): real {
    match v
    case Some(x) => (match AsF64(x) case Some(r) => r case None => 0.0)
    case None => 0.0
  }

  /** A stored payload as a memory, none without its content and hash. The
      similarity is for the writer only. */
  function ParsePayload(f: Fields): Option<Memory> {
    match (AsStr(Get(f, Content)), AsStr(Get(f, ContentHash)))
    case (Some(content), Some(hash)) => Some(Memory(
      content, hash,
      match Get(f, Tags) case Some(Arr(vs)) => Strings(vs) case _ => [],
      match AsStr(Get(f, MemoryType)) case Some(t) => t case None => "note",
      OrZero(Get(f, CreatedAt)), OrZero(Get(f, UpdatedAt)), OrZero(Get(f, SalienceScore)),
      match AsU64(Get(f, AccessCount)) case Some(n) => n case None => 0,
      match Get(f, AccessTimestamps) case Some(Arr(vs)) => Numbers(vs) case _ => [],
      match Get(f, Metadata) case Some(Obj(o)) => Some(o) case _ => None,
      AsStr(Get(f, Summary)),
      match Get(f, SummaryEmbedding) case Some(Arr(vs)) => Some(Arr(Floats(Numbers(vs)))) case _ => None,
      Get(f, EmotionalValence), Get(f, EncodingContext), Get(f, Provenance), None))
    case _ => None
  }

  predicate IsVector(v: Value) { v.Arr? && Floats(Numbers(v.items)) == v.items }

  /** What a new payload holds under each key: no reason, no audit log and no
      flat key among them. */
  function PayloadValue(m: Memory, k: Key): Option<Value> {
    match k
    case Content => Some(Str(m.content))
    case ContentHash => Some(Str(m.contentHash))
    case Tags => Some(Arr(Strs(m.tags)))
    case MemoryType => Some(Str(m.memoryType))
    case CreatedAt => Some(Float(m.createdAt))
    case UpdatedAt => Some(Float(m.updatedAt))
    case SalienceScore => Some(Float(m.salience))
    case AccessCount => Some(Int(m.accessCount))
    case AccessTimestamps => Some(Arr(Floats(m.accessTimestamps)))
    case Metadata => OptObj(m.metadata)
    case Summary => OptStr(m.summary)
    case SummaryEmbedding => m.summaryEmbedding
    case EmotionalValence => m.valence
    case EncodingContext => m.encodingContext
    case Provenance => m.provenance
    case NearestSimilarity => OptFloat(m.nearestSimilarity)
    case _ => None
  }

  lemma SetGet(f: Fields, k: Key, v: Option<Value>, j: Key)
    ensures Get(Set(f, k, v), j) == if j == k && v.Some? then v else Get(f, j)
  {
  }

  lemma BaseKey(m: Memory, k: Key)
    ensures Get(BasePayload(m), k) ==
      if k in {Content, ContentHash, Tags, MemoryType, CreatedAt, UpdatedAt, SalienceScore, AccessCount,
               AccessTimestamps}
      then PayloadValue(m, k) else None
  {
    hide Strs, Floats;
  }

  lemma PayloadKey(m: Memory, k: Key)
    ensures Get(MemoryToPayload(m), k) == PayloadValue(m, k)
  {
    hide Set, Get, BasePayload, Strs, Floats;
    BaseKey(m, k);
    var f0 := BasePayload(m);
    SetGet(f0, Metadata, OptObj(m.metadata), k);
    var f1 := Set(f0, Metadata, OptObj(m.metadata));
    SetGet(f1, Summary, OptStr(m.summary), k);
    var f2 := Set(f1, Summary, OptStr(m.summary));
    SetGet(f2, EmotionalValence, m.valence, k);
    var f3 := Set(f2, EmotionalValence, m.valence);
    SetGet(f3, EncodingContext, m.encodingContext, k);
    var f4 := Set(f3, EncodingContext, m.encodingContext);
    SetGet(f4, Provenance, m.provenance, k);
    var f5 := Set(f4, Provenance, m.provenance);
    SetGet(f5, SummaryEmbedding, m.summaryEmbedding, k);
    SetGet(Set(f5, SummaryEmbedding, m.summaryEmbedding), NearestSimilarity, OptFloat(m.nearestSimilarity), k);
  }

  /** Storing a memory and reading it back gives that memory, its similarity
      aside, exactly when its summary's vector, if any, is one of numbers. */
  lemma MemoryRoundTrip(m: Memory)
    ensures ParsePayload(MemoryToPayload(m)) == Some(m.(nearestSimilarity := None)) <==>
      (m.summaryEmbedding.Some? ==> IsVector(m.summaryEmbedding.value))
  {
    hide ParsePayload, MemoryToPayload, Numbers, Floats;
    ReadBack(m);
  }

  /** The similarity is written all the same, for later analysis. */
  lemma SimilarityWritten(m: Memory)
    ensures Get(MemoryToPayload(m), NearestSimilarity) ==
      match m.nearestSimilarity case Some(x) => Some(Float(x)) case None => None
  {
    hide MemoryToPayload;
    PayloadKey(m, NearestSimilarity);
  }

  /** What a payload with nothing but content and hash is read as. */
  lemma BareMemory(content: string, hash: string)
    ensures ParsePayload(map[Content := Str(content), ContentHash := Str(hash)]) ==
      Some(Memory(content, hash, [], "note", 0.0, 0.0, 0.0, 0, [], None, None, None, None, None, None, None))
  {
  }

  /** A time or a score that is missing or no number is read as 0. */
  lemma UnreadableNumbers(f: Fields)
    requires ParsePayload(f).Some?
    ensures var m := ParsePayload(f).value;
      && (CreatedAt in f && !f[CreatedAt].Int? && !f[CreatedAt].Float? ==> m.createdAt == 0.0)
      && (UpdatedAt in f && !f[UpdatedAt].Int? && !f[UpdatedAt].Float? ==> m.updatedAt == 0.0)
      && (SalienceScore in f && !f[SalienceScore].Int? && !f[SalienceScore].Float? ==> m.salience == 0.0)
  {
    hide Numbers, Strings, Floats;
  }

  lemma ReadBack(m: Memory)
    ensures ParsePayload(MemoryToPayload(m)) == Some(m.(
      summaryEmbedding := match m.summaryEmbedding case Some(Arr(vs)) => Some(Arr(Floats(Numbers(vs)))) case _ => None,
      nearestSimilarity := None))
  {
    hide MemoryToPayload, ParsePayload, Get, Numbers, Strings, Floats, Strs;
    BaseParts(m);
    TextParts(m);
    OtherParts(m);
    StringsOfStrs(m.tags);
    NumbersOfFloats(m.accessTimestamps);
    ReadFrom(MemoryToPayload(m), m);
  }

  lemma BaseParts(m: Memory)
    ensures var f := MemoryToPayload(m);
      && Get(f, CreatedAt) == Some(Float(m.createdAt)) && Get(f, UpdatedAt) == Some(Float(m.updatedAt))
      && Get(f, SalienceScore) == Some(Float(m.salience)) && Get(f, AccessCount) == Some(Int(m.accessCount))
      && Get(f, AccessTimestamps) == Some(Arr(Floats(m.accessTimestamps)))
  {
    hide MemoryToPayload, Get, Floats, Strs;
    PayloadKey(m, CreatedAt);
    PayloadKey(m, UpdatedAt);
    PayloadKey(m, SalienceScore);
    PayloadKey(m, AccessCount);
    PayloadKey(m, AccessTimestamps);
  }

  lemma TextParts(m: Memory)
    ensures var f := MemoryToPayload(m);
      && Get(f, Content) == Some(Str(m.content)) && Get(f, ContentHash) == Some(Str(m.contentHash))
      && Get(f, Tags) == Some(Arr(Strs(m.tags))) && Get(f, MemoryType) == Some(Str(m.memoryType))
      && Get(f, Summary) == OptStr(m.summary)
  {
    hide MemoryToPayload, Get, Floats, Strs;
    PayloadKey(m, Content);
    PayloadKey(m, ContentHash);
    PayloadKey(m, Tags);
    PayloadKey(m, MemoryType);
    PayloadKey(m, Summary);
  }

  lemma OtherParts(m: Memory)
    ensures var f := MemoryToPayload(m);
      && Get(f, Metadata) == OptObj(m.metadata) && Get(f, SummaryEmbedding) == m.summaryEmbedding
      && Get(f, EmotionalValence) == m.valence && Get(f, EncodingContext) == m.encodingContext
      && Get(f, Provenance) == m.provenance && Get(f, NearestSimilarity) == OptFloat(m.nearestSimilarity)
  {
    hide MemoryToPayload, Get, Floats, Strs;
    PayloadKey(m, Metadata);
    PayloadKey(m, SummaryEmbedding);
    PayloadKey(m, EmotionalValence);
    PayloadKey(m, EncodingContext);
    PayloadKey(m, Provenance);
    PayloadKey(m, NearestSimilarity);
  }

  lemma ReadFrom(f: Fields, m: Memory)
    requires Get(f, Content) == Some(Str(m.content)) && Get(f, ContentHash) == Some(Str(m.contentHash))
    requires Get(f, Tags) == Some(Arr(Strs(m.tags))) && Strings(Strs(m.tags)) == m.tags
    requires Get(f, MemoryType) == Some(Str(m.memoryType)) && Get(f, CreatedAt) == Some(Float(m.createdAt))
    requires Get(f, UpdatedAt) == Some(Float(m.updatedAt)) && Get(f, SalienceScore) == Some(Float(m.salience))
    requires Get(f, AccessCount) == Some(Int(m.accessCount))
    requires Get(f, AccessTimestamps) == Some(Arr(Floats(m.accessTimestamps)))
    requires Numbers(Floats(m.accessTimestamps)) == m.accessTimestamps
    requires Get(f, Metadata) == OptObj(m.metadata) && Get(f, Summary) == OptStr(m.summary)
    requires Get(f, SummaryEmbedding) == m.summaryEmbedding && Get(f, EmotionalValence) == m.valence
    requires Get(f, EncodingContext) == m.encodingContext && Get(f, Provenance) == m.provenance
    ensures ParsePayload(f) == Some(m.(
      summaryEmbedding := match m.summaryEmbedding case Some(Arr(vs)) => Some(Arr(Floats(Numbers(vs)))) case _ => None,
      nearestSimilarity := None))
  {
    hide Get, Numbers, Strings, Floats, Strs;
  }

  /** The top-level keys a re-store takes from the stored payload. */
  const CARRIED: seq<Key> :=
    [CreatedAt, AccessCount, AccessTimestamps, SupersessionReason, SupersessionLog]

  /** The metadata keys a re-store takes from the stored payload, present or absent. */
  const CARRIED_METADATA: seq<Key> := [SupersededBy, LastConfirmedAt]

  /** `payload.metadata[k]` made what the stored payload holds there. */
  function CarryMeta(payload: Fields, prev: Fields, k: Key): Fields {
    match Meta(prev, k)
    case Some(v) =>
      var md := if Metadata in payload && payload[Metadata].Obj? then payload[Metadata].fields else map[];
      payload[Metadata := Obj(md[k := v])]
    case None =>
      if Metadata in payload && payload[Metadata].Obj?
      then payload[Metadata := Obj(payload[Metadata].fields - {k})]
      else payload
  }

  function CarryEmbedding(payload: Fields, prev: Fields): Fields {
    if SummaryEmbedding !in payload && Summary in prev && Get(prev, Summary) == Get(payload, Summary)
       && SummaryEmbedding in prev
    then payload[SummaryEmbedding := prev[SummaryEmbedding]]
    else payload
  }

  /** `payload` with the stored value of every key of `ks` that is stored. */
  function CarryKeys(payload: Fields, prev: Fields, ks: seq<Key>): (r: Fields)
    ensures forall k :: Get(r, k) == if k in ks && k in prev then Get(prev, k) else Get(payload, k)
  {
    if ks == [] then payload
    else
      var n := |ks| - 1;
      var r := CarryKeys(payload, prev, ks[..n]);
      assert ks == ks[..n] + [ks[n]];
      if ks[n] in prev then r[ks[n] := prev[ks[n]]] else r
  }

  function CarriedOver(payload: Fields, prev: Fields): Fields {
    CarryEmbedding(
      CarryMeta(CarryMeta(CarryKeys(payload, prev, CARRIED), prev, SupersededBy), prev, LastConfirmedAt),
      prev)
  }

  /** What a re-store of `memory` leaves over the stored payload `prev`. */
  function Restored(memory: Memory, prev: Fields): Fields {
    CarriedOver(MemoryToPayload(memory), prev)
  }

  /** The re-store's edits, in the order the server makes them. */
  method CarryOver(built: Fields, prev: Fields) returns (payload: Fields)
    ensures payload == CarriedOver(built, prev)
  {
    payload := CarryTopLevel(built, prev);
    payload := CarryMetadata(payload, prev);
    if SummaryEmbedding !in payload && Summary in prev && Get(prev, Summary) == Get(payload, Summary)
       && SummaryEmbedding in prev {
      payload := payload[SummaryEmbedding := prev[SummaryEmbedding]];
    }
  }

  lemma NoKeys(payload: Fields, prev: Fields)
    ensures CarryKeys(payload, prev, CARRIED[..0]) == payload
  {
  }

  lemma NextKey(payload: Fields, prev: Fields, ks: seq<Key>, i: nat)
    requires i < |ks|
    ensures var r := CarryKeys(payload, prev, ks[..i]);
      CarryKeys(payload, prev, ks[..i + 1]) == if ks[i] in prev then r[ks[i] := prev[ks[i]]] else r
  {
    assert ks[..i + 1][..i] == ks[..i];
  }

  method CarryTopLevel(built: Fields, prev: Fields) returns (payload: Fields)
    ensures payload == CarryKeys(built, prev, CARRIED)
  {
    NoKeys(built, prev);
    hide CarryKeys;
    payload := built;
    for i := 0 to |CARRIED|
      invariant payload == CarryKeys(built, prev, CARRIED[..i])
    {
      NextKey(built, prev, CARRIED, i);
      if CARRIED[i] in prev {
        payload := payload[CARRIED[i] := prev[CARRIED[i]]];
      }
    }
    assert CARRIED[..|CARRIED|] == CARRIED;
  }

  method CarryMetadata(built: Fields, prev: Fields) returns (payload: Fields)
    ensures payload == CarryMeta(CarryMeta(built, prev, SupersededBy), prev, LastConfirmedAt)
  {
    payload := built;
    for i := 0 to |CARRIED_METADATA|
      invariant i == 0 ==> payload == built
      invariant i == 1 ==> payload == CarryMeta(built, prev, SupersededBy)
      invariant i == 2 ==> payload == CarryMeta(CarryMeta(built, prev, SupersededBy), prev, LastConfirmedAt)
    {
      var k := CARRIED_METADATA[i];
      var stored := Meta(prev, k);
      if stored.Some? {
        var md := if Metadata in payload && payload[Metadata].Obj? then payload[Metadata].fields else map[];
        payload := payload[Metadata := Obj(md[k := stored.value])];
      } else if Metadata in payload && payload[Metadata].Obj? {
        payload := payload[Metadata := Obj(payload[Metadata].fields - {k})];
      }
    }
  }

  /** `prev.metadata` as an object: absent, or anything but an object, is empty. */
  function MetadataOrEmpty(f: Fields): Fields {
    match Get(f, Metadata) case Some(Obj(m)) => m case _ => map[]
  }

  /** `stored` with every key of `incoming` set, or removed when its value is null. */
  function Merged(stored: Fields, incoming: Fields): Fields {
    map k | k in stored.Keys + incoming.Keys && (k in incoming ==> incoming[k] != Null)
      :: if k in incoming then incoming[k] else stored[k]
  }

  /** Whether `patch` changes the summary text without bringing its vector. */
  predicate DropsEmbedding(prev: Fields, patch: Patch) {
    patch.summary.Some? && patch.summaryEmbedding.None? && AsStr(Get(prev, Summary)) != patch.summary
  }

  function Patched(prev: Fields, patch: Patch, now: real): Fields {
    var kept := if DropsEmbedding(prev, patch) then prev - {SummaryEmbedding} else prev;
    var tagged := Set(kept, Tags, match patch.tags case Some(t) => Some(Arr(Strs(t))) case None => None);
    var summed := Set(tagged, Summary, OptStr(patch.summary));
    var typed := Set(summed, MemoryType, OptStr(patch.memoryType));
    var embedded := Set(typed, SummaryEmbedding, patch.summaryEmbedding);
    var merged := Set(embedded, Metadata,
      match patch.metadata
      case Some(incoming) => Some(Obj(Merged(MetadataOrEmpty(prev), incoming)))
      case None => None);
    merged[UpdatedAt := Float(now)]
  }

  /** The patch's edits in the order the server makes them; the incoming
      metadata is walked in no particular order. */
  method ApplyPatch(prev: Fields, patch: Patch, now: real) returns (next: Fields)
    ensures next == Patched(prev, patch, now)
  {
    next := if DropsEmbedding(prev, patch) then prev - {SummaryEmbedding} else prev;
    next := if patch.tags.Some? then next[Tags := Arr(Strs(patch.tags.value))] else next;
    next := if patch.summary.Some? then next[Summary := Str(patch.summary.value)] else next;
    next := if patch.memoryType.Some? then next[MemoryType := Str(patch.memoryType.value)] else next;
    next := if patch.summaryEmbedding.Some? then next[SummaryEmbedding := patch.summaryEmbedding.value] else next;
    if patch.metadata.Some? {
      var merged := MergeMetadata(MetadataOrEmpty(prev), patch.metadata.value);
      next := next[Metadata := Obj(merged)];
    }
    next := next[UpdatedAt := Float(now)];
  }

  lemma SameFields(f: Fields, g: Fields)
    requires forall k :: Get(f, k) == Get(g, k)
    ensures f == g
  {
    forall k ensures k in f <==> k in g { assert Get(f, k) == Get(g, k); }
    forall k | k in f ensures f[k] == g[k] { assert Get(f, k) == Get(g, k); }
  }

  method MergeMetadata(stored: Fields, incoming: Fields) returns (merged: Fields)
    ensures merged == Merged(stored, incoming)
  {
    merged := stored;
    var left := incoming.Keys;
    while left != {}
      invariant left <= incoming.Keys
      invariant forall k :: Get(merged, k) == Get(if k in left then stored else Merged(stored, incoming), k)
    {
      var k :| k in left;
      left := left - {k};
      merged := if incoming[k] == Null then merged - {k} else merged[k := incoming[k]];
    }
    SameFields(merged, Merged(stored, incoming));
  }

  predicate Ascending(times: seq<real>) {
    forall i, j :: 0 <= i < j < |times| ==> times[i] <= times[j]
  }

  /** Trims a history to `max`: only the oldest are dropped, and no more of
      them than it takes. */
  method CapTimestamps(timestamps: seq<real>, max: nat) returns (kept: seq<real>)
    ensures |kept| <= max && (|kept| < max ==> kept == timestamps)
    ensures exists dropped :: dropped + kept == timestamps && (dropped == [] || |kept| == max)
    ensures Ascending(timestamps) ==>
      forall t | t in timestamps && t !in kept :: |kept| == max && forall k | k in kept :: t <= k
  {
    kept := timestamps;
    if |timestamps| > max {
      var drain := |timestamps| - max;
      kept := timestamps[drain..];
      assert timestamps[..drain] + kept == timestamps;
    } else {
      assert [] + kept == timestamps;
    }
  }

  lemma CappedIsNewest(timestamps: seq<real>, kept: seq<real>, max: nat)
    requires exists dropped :: dropped + kept == timestamps && (dropped == [] || |kept| == max)
    requires |kept| <= max
    ensures kept == Newest(timestamps, max)
  {
  }

  function LogEntries(f: Fields): seq<Value> {
    match Get(f, SupersessionLog)
    case None => []
    case Some(Arr(entries)) => entries
    case Some(other) => [other]
  }

  function OrNull(v: Option<Value>): Value {
    match v case Some(x) => x case None => Null
  }

  /** The audit entry that reversing the supersession of `prev` records. */
  function LogEntry(prev: Fields, record: Reversal): Value {
    Obj(map[SupersededBy := OrNull(Meta(prev, SupersededBy)),
            SupersessionReason := OrNull(Get(prev, SupersessionReason)),
            Named("unsuperseded_at") := Float(record.at),
            Named("unsuperseded_via") := Str(record.via),
            Named("reason") := Str(record.reason)])
  }

  function Unsuperseded(prev: Fields, record: Reversal): Fields {
    var unmarked := match Get(prev, Metadata)
      case Some(Obj(m)) => prev[Metadata := Obj(m - {SupersededBy})]
      case _ => prev;
    (unmarked - {SupersessionReason})[SupersessionLog := Arr(LogEntries(prev) + [LogEntry(prev, record)])]
  }

  /** Python's truth value. */
  predicate Truthy(v: Value) {
    match v
    case Null => false
    case Bool(b) => b
    case Int(n) => n != 0
    case Float(x) => x != 0.0
    case Str(s) => s != ""
    case Arr(items) => items != []
    case Obj(fields) => fields != map[]
  }

  lemma TruthyIff(v: Value)
    ensures !Truthy(v) <==> v in {Null, Bool(false), Int(0), Float(0.0), Str(""), Arr([]), Obj(map[])}
  {
  }

  // ----- Decisions

  /** The metadata object a merge rebuilds; `None` for stored metadata that is
      neither absent, null nor an object. */
  function MetadataObject(prev: Fields): Option<Fields> {
    match Get(prev, Metadata)
    case None => Some(map[])
    case Some(Null) => Some(map[])
    case Some(Obj(m)) => Some(m)
    case Some(_) => None
  }

  const NOT_AN_OBJECT := "stored metadata is not an object; refusing to replace it"

  /** A payload parses as a memory when its content and hash are strings. */
  predicate Parses(f: Fields) {
    AsStr(Get(f, Content)).Some? && AsStr(Get(f, ContentHash)).Some?
  }

  /** A write that stops at a marker and rebuilds the metadata otherwise. */
  function MergeWhileLive(prev: Fields, k: Key, v: Value, beside: Fields): Decision {
    match MetadataObject(prev)
    case None => Refuse(NOT_AN_OBJECT)
    case Some(m) =>
      if SupersededBy in m then Leave
      else Write(Merge, beside[Metadata := Obj(m[k := v])])
  }

  function Bumped(prev: Fields, now: real): Fields {
    var count := match AsU64(Get(prev, AccessCount)) case Some(n) => n case None => 0;
    var times := Newest(AccessTimes(prev) + [now], MAX_ACCESS_TIMESTAMPS);
    map[AccessCount := Int(count + 1), AccessTimestamps := Arr(Floats(times))]
  }

  function AccessTimes(f: Fields): seq<real> {
    match Get(f, AccessTimestamps) case Some(Arr(vs)) => Numbers(vs) case _ => []
  }

  /** The increment's edits: the stored history, one time more, trimmed. */
  method CountAccess(prev: Fields, now: real) returns (write: Fields)
    ensures write == Bumped(prev, now)
  {
    var count := match AsU64(Get(prev, AccessCount)) case Some(n) => n case None => 0;
    var timestamps := AccessTimes(prev) + [now];
    var kept := CapTimestamps(timestamps, MAX_ACCESS_TIMESTAMPS);
    CappedIsNewest(timestamps, kept, MAX_ACCESS_TIMESTAMPS);
    hide Newest;
    write := map[AccessCount := Int(count + 1), AccessTimestamps := Arr(Floats(kept))];
  }

  function Migrated(prev: Fields): Decision {
    if FlatSupersededBy !in prev then Leave
    else
      match Get(prev, Metadata)
      case Some(Obj(m)) => Moved(prev, m)
      case Some(v) => if Truthy(v) then Refuse("metadata has no get") else Moved(prev, map[])
      case None => Moved(prev, map[])
  }

  function Moved(prev: Fields, m: Fields): Decision
    requires FlatSupersededBy in prev
  {
    var want := if SupersededBy in m && Truthy(m[SupersededBy]) then m[SupersededBy] else prev[FlatSupersededBy];
    Write(Replace, (prev - {FlatSupersededBy})[Metadata := Obj(m[SupersededBy := want])])
  }

  /** The decision of `op` for a point whose (visible) payload is `prev`. */
  function Modify(op: Op, prev: Fields): Decision {
    match op
    case Store(memory, insertOnly) =>
      if insertOnly then Leave else Write(Replace, Restored(memory, prev))
    case Bump(now) => Write(Merge, Bumped(prev, now))
    case UpdateMetadata(sb, top) =>
      if sb.Some? then
        match MetadataObject(prev)
        case None => Refuse(NOT_AN_OBJECT)
        case Some(m) => Write(Merge, top[Metadata := Obj(m[SupersededBy := Str(sb.value)])])
      else if top == map[] then Leave else Write(Merge, top)
    case Reverse(expected, record) =>
      if Meta(prev, SupersededBy) == Some(expected) then Write(Replace, Unsuperseded(prev, record)) else Leave
    case SupersedeIfLive(newHash, reason) =>
      MergeWhileLive(prev, SupersededBy, Str(newHash), map[SupersessionReason := Str(reason)])
    case Confirm(at) => MergeWhileLive(prev, LastConfirmedAt, Float(at), map[])
    case PatchMemory(patch, now) =>
      if !Parses(prev) then Refuse("not found") else Write(Replace, Patched(prev, patch, now))
    case GeneratedSummary(text, embedding, now) =>
      if !Parses(prev) then Refuse("not found")
      else if AsStr(Get(prev, Summary)).Some? then Leave
      else Write(Replace, Patched(prev, Patch(None, None, Some(text), None, embedding), now))
    case MigrateFlat => Migrated(prev)
  }

  /** The keys `op` reads (`None`: the whole payload). */
  function Keys(op: Op): Option<set<Key>> {
    match op
    case Bump(_) => Some({AccessCount, AccessTimestamps})
    case UpdateMetadata(_, _) => Some({Metadata})
    case SupersedeIfLive(_, _) => Some({Metadata, SupersessionReason})
    case Confirm(_) => Some({Metadata})
    case _ => None
  }

  function View(op: Op, f: Fields): Fields {
    match Keys(op)
    case None => f
    case Some(ks) => map k | k in f && k in ks :: f[k]
  }

  function Landing(f: Fields, how: How, write: Fields): Fields {
    match how case Merge => f + write case Replace => write
  }

  /** The payload a committed `op` leaves on a point that held `f`; `None`
      when it writes nothing there. */
  function Transform(op: Op, f: Fields): Option<Fields> {
    match Modify(op, View(op, f))
    case Write(how, fields) => Some(Landing(f, how, fields))
    case _ => None
  }

  // ----- When an operation writes

  /** Metadata there, not null and no object: nothing may be rebuilt from it. */
  predicate OddMetadata(f: Fields) {
    Metadata in f && f[Metadata] != Null && !f[Metadata].Obj?
  }

  predicate Nameless(f: Fields) {
    !(Content in f && f[Content].Str? && ContentHash in f && f[ContentHash].Str?)
  }

  /** What `op` must find in a payload to leave it alone: an insert-only store
      finds any; an update that names nothing; a reversal, a marker other than
      the one it names; a guarded supersession and a confirmation, a marker; a
      generated summary, a summary; the move, no flat key. */
  predicate LeavesAlone(op: Op, f: Fields) {
    match op
    case Store(_, insertOnly) => insertOnly
    case Bump(_) => false
    case UpdateMetadata(sb, top) => sb.None? && top.Keys == {}
    case Reverse(expected, _) => Meta(f, SupersededBy) != Some(expected)
    case SupersedeIfLive(_, _) => Meta(f, SupersededBy).Some?
    case Confirm(_) => Meta(f, SupersededBy).Some?
    case PatchMemory(_, _) => false
    case GeneratedSummary(_, _, _) => !Nameless(f) && Summary in f && f[Summary].Str?
    case MigrateFlat => FlatSupersededBy !in f
  }

  /** What it must find to refuse the payload. */
  predicate Refuses(op: Op, f: Fields) {
    match op
    case UpdateMetadata(sb, _) => sb.Some? && OddMetadata(f)
    case SupersedeIfLive(_, _) => OddMetadata(f)
    case Confirm(_) => OddMetadata(f)
    case PatchMemory(_, _) => Nameless(f)
    case GeneratedSummary(_, _, _) => Nameless(f)
    case MigrateFlat => FlatSupersededBy in f && OddMetadata(f) && Truthy(f[Metadata])
    case _ => false
  }

  /** Every operation leaves, refuses or writes by these conditions alone, though
      it sees no more of the payload than the keys it reads. */
  lemma DecisionIff(op: Op, f: Fields)
    ensures Modify(op, View(op, f)).Leave? <==> LeavesAlone(op, f)
    ensures Modify(op, View(op, f)).Refuse? <==> Refuses(op, f)
    ensures Transform(op, f).Some? <==> !LeavesAlone(op, f) && !Refuses(op, f)
  {
    hide Restored, Patched, Unsuperseded, Bumped;
    ViewHolds(op, f);
    if op.MigrateFlat? && Metadata in f { TruthyIff(f[Metadata]); }
  }

  /** A view shows what is there, of the keys it shows. */
  lemma ViewHolds(op: Op, f: Fields)
    ensures match op
            case SupersedeIfLive(_, _) => Get(View(op, f), Metadata) == Get(f, Metadata)
            case Confirm(_) => Get(View(op, f), Metadata) == Get(f, Metadata)
            case UpdateMetadata(_, _) => Get(View(op, f), Metadata) == Get(f, Metadata)
            case Bump(_) => true
            case _ => View(op, f) == f
  {
  }
}
