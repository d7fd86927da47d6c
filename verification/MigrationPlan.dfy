// Migrating another server's memories: their records are keyed differently
// here, so several of them can share one record. Every supersession is planned
// on record keys before anything is written, so that no live content is hidden.

module MigrationPlan {
  import opened Wrappers

  /** A memory of the source; its marker names the memory that superseded it. */
  datatype Source = Source(
    content: string, sourceHash: Option<string>, supersededBy: Option<string>, reason: Option<string>)

  datatype Supersession = Supersession(index: nat, sourceNewHash: string, reason: Option<string>)

  /** One supersession to recreate, with every copy's reason. */
  datatype Planned = Planned(record: string, survivor: string, reasons: set<string>)

  type Hash = string -> string

  // ----- The source, as the plan reads it

  /** An empty marker hides nothing in the source. */
  predicate Hidden(m: Source) {
    m.supersededBy.Some? && m.supersededBy.value != ""
  }

  function Keys(ms: seq<Source>, hash: Hash): seq<string> {
    seq(|ms|, i requires 0 <= i < |ms| => hash(ms[i].content))
  }

  predicate Live(ms: seq<Source>, hash: Hash, k: string) {
    exists i | 0 <= i < |ms| :: !Hidden(ms[i]) && hash(ms[i].content) == k
  }

  /** The supersessions, in scroll order. */
  function Found(ms: seq<Source>): (ss: seq<Supersession>)
    ensures forall s | s in ss :: s.index < |ms|
  {
    if ms == [] then []
    else
      var n := |ms| - 1;
      Found(ms[..n]) + (if Hidden(ms[n]) then [Supersession(n, ms[n].supersededBy.value, ms[n].reason)] else [])
  }

  /** The record of the source memory `h`, the last one scrolled under that
      hash; a hash the source does not hold stands for itself. */
  function Resolve(ms: seq<Source>, hash: Hash, h: string): string {
    if ms == [] then h
    else
      var n := |ms| - 1;
      if ms[n].sourceHash == Some(h) && h != "" then hash(ms[n].content) else Resolve(ms[..n], hash, h)
  }

  /** The supersessions of the record `record`. */
  function Copies(ss: seq<Supersession>, keys: seq<string>, record: string): seq<Supersession>
    requires forall s | s in ss :: s.index < |keys|
  {
    if ss == [] then []
    else
      var n := |ss| - 1;
      Copies(ss[..n], keys, record) + (if keys[ss[n].index] == record then [ss[n]] else [])
  }

  /** The other records that `group` names as survivors. */
  function Survivors(ms: seq<Source>, hash: Hash, group: seq<Supersession>, record: string): set<string> {
    (set s | s in group :: Resolve(ms, hash, s.sourceNewHash)) - {record}
  }

  function Reasons(group: seq<Supersession>): set<string> {
    set s | s in group && s.reason.Some? && s.reason.value != "" :: s.reason.value
  }

  predicate Ascending(ss: seq<Supersession>) {
    forall a, b | 0 <= a < b < |ss| :: ss[a].index < ss[b].index
  }

  lemma {:induction false} FoundShape(ms: seq<Source>)
    ensures forall s | s in Found(ms) :: s.index < |ms| && Hidden(ms[s.index])
    ensures forall i | 0 <= i < |ms| && Hidden(ms[i]) :: exists s :: s in Found(ms) && s.index == i
    ensures Ascending(Found(ms))
  {
    if ms != [] {
      var n := |ms| - 1;
      FoundShape(ms[..n]);
      var before := Found(ms[..n]);
      forall i | 0 <= i < |ms| && Hidden(ms[i]) ensures exists s :: s in Found(ms) && s.index == i {
        if i < n {
          var s :| s in before && s.index == i;
          assert s in Found(ms);
        } else {
          assert Supersession(n, ms[n].supersededBy.value, ms[n].reason) in Found(ms);
        }
      }
      forall a | 0 <= a < |before| ensures before[a].index < n { assert before[a] in before; }
    }
  }

  lemma {:induction false} CopiesMembers(ss: seq<Supersession>, keys: seq<string>, record: string)
    requires forall s | s in ss :: s.index < |keys|
    ensures forall s :: s in Copies(ss, keys, record) <==> s in ss && keys[s.index] == record
  {
    if ss != [] {
      var n := |ss| - 1;
      CopiesMembers(ss[..n], keys, record);
      assert ss == ss[..n] + [ss[n]];
    }
  }

  // ----- Counting

  /** How many supersessions the records of `order` have between them. */
  function Total(order: seq<string>, ss: seq<Supersession>, keys: seq<string>): nat
    requires forall s | s in ss :: s.index < |keys|
  {
    if order == [] then 0
    else Total(order[..|order| - 1], ss, keys) + |Copies(ss, keys, order[|order| - 1])|
  }

  predicate NoRepeats(xs: seq<string>) {
    forall i, j | 0 <= i < j < |xs| :: xs[i] != xs[j]
  }

  lemma {:induction false} TotalNone(order: seq<string>, keys: seq<string>)
    ensures Total(order, [], keys) == 0
  {
    if order != [] { TotalNone(order[..|order| - 1], keys); }
  }

  /** One more supersession adds one, to the one record it belongs to. */
  lemma {:induction false} TotalOneMore(order: seq<string>, ss: seq<Supersession>, keys: seq<string>, s: Supersession)
    requires s.index < |keys| && forall x | x in ss :: x.index < |keys|
    requires NoRepeats(order)
    ensures Total(order, ss + [s], keys) == Total(order, ss, keys) + if keys[s.index] in order then 1 else 0
  {
    assert (ss + [s])[..|ss|] == ss;
    if order != [] {
      var n := |order| - 1;
      TotalOneMore(order[..n], ss, keys, s);
      assert order == order[..n] + [order[n]];
    }
  }

  /** Every supersession belongs to exactly one record. */
  lemma {:induction false} TotalIsAll(order: seq<string>, ss: seq<Supersession>, keys: seq<string>)
    requires forall s | s in ss :: s.index < |keys| && keys[s.index] in order
    requires NoRepeats(order)
    ensures Total(order, ss, keys) == |ss|
  {
    if ss == [] {
      TotalNone(order, keys);
    } else {
      var n := |ss| - 1;
      TotalIsAll(order, ss[..n], keys);
      assert ss == ss[..n] + [ss[n]];
      TotalOneMore(order, ss[..n], keys, ss[n]);
    }
  }

  function Indices(group: seq<Supersession>): set<nat> {
    set s | s in group :: s.index
  }

  lemma {:induction false} IndicesCount(group: seq<Supersession>)
    requires Ascending(group)
    ensures |Indices(group)| == |group|
  {
    hide Ascending;
    if group != [] {
      var n := |group| - 1;
      LastIsNew(group);
      IndicesCount(group[..n]);
      assert group == group[..n] + [group[n]];
      assert Indices(group) == Indices(group[..n]) + {group[n].index};
    }
  }

  lemma LastIsNew(group: seq<Supersession>)
    requires Ascending(group) && group != []
    ensures Ascending(group[..|group| - 1]) && group[|group| - 1].index !in Indices(group[..|group| - 1])
  {
    var n := |group| - 1;
    forall s | s in group[..n] ensures s.index != group[n].index {
      var a :| 0 <= a < n && group[a] == s;
    }
  }

  lemma {:induction false} CopiesOrdered(ss: seq<Supersession>, keys: seq<string>, record: string)
    requires forall s | s in ss :: s.index < |keys|
    requires Ascending(ss)
    ensures Ascending(Copies(ss, keys, record))
  {
    if ss != [] {
      var n := |ss| - 1;
      CopiesOrdered(ss[..n], keys, record);
      var before := Copies(ss[..n], keys, record);
      CopiesMembers(ss[..n], keys, record);
      forall a | 0 <= a < |before| ensures before[a].index < ss[n].index {
        assert before[a] in ss[..n];
        var i :| 0 <= i < n && ss[i] == before[a];
      }
    }
  }

  // ----- What a plan must be

  datatype Plan = Plan(entries: seq<Planned>, shadowed: set<nat>, conflicted: set<nat>, skipped: nat)

  /** The record of a superseded memory whose content a live one also holds is
      left alone; so is one whose copies name several survivors. */
  predicate Conflicting(ms: seq<Source>, hash: Hash, record: string) {
    !Live(ms, hash, record) && |Survivors(ms, hash, Copies(Found(ms), Keys(ms, hash), record), record)| > 1
  }

  predicate Movable(ms: seq<Source>, hash: Hash, e: Planned) {
    var group := Copies(Found(ms), Keys(ms, hash), e.record);
    !Live(ms, hash, e.record) && Survivors(ms, hash, group, e.record) == {e.survivor} && e.reasons == Reasons(group)
  }

  /** The whole plan: one entry for every movable record and no other, and
      every supersession skipped, in conflict or planned, never two of them. */
  ghost predicate Sound(ms: seq<Source>, hash: Hash, plan: Plan) {
    && (forall i, j | 0 <= i < j < |plan.entries| :: plan.entries[i].record != plan.entries[j].record)
    && (forall e :: e in plan.entries <==> Movable(ms, hash, e))
    && (forall i: nat :: i in plan.shadowed <==>
         i < |ms| && Hidden(ms[i]) && Live(ms, hash, hash(ms[i].content)))
    && (forall i: nat :: i in plan.conflicted <==>
         i < |ms| && Hidden(ms[i]) && Conflicting(ms, hash, hash(ms[i].content)))
    && plan.skipped + |plan.conflicted| + |plan.entries| == |Found(ms)|
  }

  // ----- The planner

  /** Read the source in scroll order. */
  method Scroll(ms: seq<Source>, hash: Hash) returns (keys: seq<string>, ss: seq<Supersession>)
    ensures keys == Keys(ms, hash) && ss == Found(ms)
  {
    keys, ss := [], [];
    for i := 0 to |ms|
      invariant keys == Keys(ms[..i], hash) && ss == Found(ms[..i])
    {
      assert ms[..i + 1][..i] == ms[..i];
      if ms[i].supersededBy.Some? && ms[i].supersededBy.value != "" {
        ss := ss + [Supersession(i, ms[i].supersededBy.value, ms[i].reason)];
      }
      keys := keys + [hash(ms[i].content)];
    }
    assert ms[..|ms|] == ms;
  }

  /** `to_alaya`: the record of every key and every source hash. */
  method ToAlaya(ms: seq<Source>, hash: Hash, keys: seq<string>) returns (records: map<string, string>)
    requires keys == Keys(ms, hash)
    ensures forall h :: (if h in records then records[h] else h) == Resolve(ms, hash, h)
  {
    records := map k | k in keys :: k;
    for i := 0 to |ms|
      invariant forall h :: (if h in records then records[h] else h) == Resolve(ms[..i], hash, h)
    {
      assert ms[..i + 1][..i] == ms[..i];
      match ms[i].sourceHash {
        case Some(h) => if h != "" { records := records[h := keys[i]]; }
        case None =>
      }
    }
    assert ms[..|ms|] == ms;
  }

  /** The supersessions by record, records in the order they first appear. */
  ghost predicate ByRecord(order: seq<string>, groups: map<string, seq<Supersession>>, ss: seq<Supersession>,
                           keys: seq<string>)
    requires forall s | s in ss :: s.index < |keys|
  {
    && NoRepeats(order)
    && (forall k :: k in order <==> k in groups)
    && (forall k | k in groups :: groups[k] == Copies(ss, keys, k) && groups[k] != [])
    && forall s | s in ss :: keys[s.index] in order
  }

  lemma GroupOne(order: seq<string>, groups: map<string, seq<Supersession>>, ss: seq<Supersession>, keys: seq<string>,
                 s: Supersession)
    requires s.index < |keys| && forall x | x in ss :: x.index < |keys|
    requires ByRecord(order, groups, ss, keys)
    ensures var k := keys[s.index];
      ByRecord(if k in groups then order else order + [k],
               groups[k := (if k in groups then groups[k] else []) + [s]], ss + [s], keys)
  {
    hide Copies;
    var k := keys[s.index];
    forall j ensures Copies(ss + [s], keys, j) == Copies(ss, keys, j) + if j == k then [s] else [] {
      CopiesOne(ss, keys, s, j);
    }
    if k !in groups { NoCopies(ss, keys, k); }
    var order' := if k in groups then order else order + [k];
    assert forall j :: j in order' <==> j in order || j == k;
  }

  lemma CopiesOne(ss: seq<Supersession>, keys: seq<string>, s: Supersession, j: string)
    requires s.index < |keys| && forall x | x in ss :: x.index < |keys|
    ensures Copies(ss + [s], keys, j) == Copies(ss, keys, j) + if j == keys[s.index] then [s] else []
  {
    assert (ss + [s])[..|ss|] == ss;
  }

  lemma FirstIn(xs: seq<Supersession>)
    requires xs != []
    ensures xs[0] in xs
  {
  }

  lemma NoCopies(ss: seq<Supersession>, keys: seq<string>, k: string)
    requires forall s | s in ss :: s.index < |keys| && keys[s.index] != k
    ensures Copies(ss, keys, k) == []
  {
    CopiesMembers(ss, keys, k);
    var g := Copies(ss, keys, k);
    if g != [] { FirstIn(g); }
  }

  method Grouped(ss: seq<Supersession>, keys: seq<string>)
    returns (order: seq<string>, groups: map<string, seq<Supersession>>)
    requires forall s | s in ss :: s.index < |keys|
    ensures ByRecord(order, groups, ss, keys)
  {
    hide ByRecord;
    order, groups := [], map[];
    NoGroups(keys);
    for n := 0 to |ss|
      invariant ByRecord(order, groups, ss[..n], keys)
    {
      var s := ss[n];
      var k := keys[s.index];
      assert s in ss && ss[..n + 1] == ss[..n] + [s];
      GroupOne(order, groups, ss[..n], keys, s);
      if k in groups {
        groups := groups[k := groups[k] + [s]];
      } else {
        order, groups := order + [k], groups[k := [] + [s]];
      }
    }
    assert ss[..|ss|] == ss;
  }

  lemma NoGroups(keys: seq<string>)
    ensures ByRecord([], map[], [], keys)
  {
  }

  // ----- Deciding record by record

  // `plan` settles the records of `done`, which have `total` supersessions.

  predicate OnePerRecord(entries: seq<Planned>) {
    forall i, j | 0 <= i < j < |entries| :: entries[i].record != entries[j].record
  }

  ghost predicate EntriesOk(ms: seq<Source>, hash: Hash, done: set<string>, entries: seq<Planned>) {
    OnePerRecord(entries) && forall e :: e in entries <==> e.record in done && Movable(ms, hash, e)
  }

  predicate HiddenIn(ms: seq<Source>, hash: Hash, i: nat, done: set<string>) {
    i < |ms| && Hidden(ms[i]) && hash(ms[i].content) in done
  }

  ghost predicate ShadowedOk(ms: seq<Source>, hash: Hash, done: set<string>, shadowed: set<nat>) {
    forall i: nat :: i in shadowed <==> HiddenIn(ms, hash, i, done) && Live(ms, hash, hash(ms[i].content))
  }

  ghost predicate ConflictedOk(ms: seq<Source>, hash: Hash, done: set<string>, conflicted: set<nat>) {
    forall i: nat :: i in conflicted <==> HiddenIn(ms, hash, i, done) && Conflicting(ms, hash, hash(ms[i].content))
  }

  ghost predicate Settled(ms: seq<Source>, hash: Hash, done: set<string>, total: nat, plan: Plan) {
    && EntriesOk(ms, hash, done, plan.entries)
    && ShadowedOk(ms, hash, done, plan.shadowed)
    && ConflictedOk(ms, hash, done, plan.conflicted)
    && plan.skipped + |plan.conflicted| + |plan.entries| == total
  }

  /** The supersessions of one record. */
  function GroupOf(ms: seq<Source>, hash: Hash, record: string): seq<Supersession> {
    Copies(Found(ms), Keys(ms, hash), record)
  }

  lemma GroupFacts(ms: seq<Source>, hash: Hash, record: string)
    ensures var g := GroupOf(ms, hash, record);
      && |Indices(g)| == |g|
      && forall i: nat :: i in Indices(g) <==> HiddenIn(ms, hash, i, {record})
  {
    FoundShape(ms);
    var g := GroupOf(ms, hash, record);
    CopiesOrdered(Found(ms), Keys(ms, hash), record);
    IndicesCount(g);
    CopiesMembers(Found(ms), Keys(ms, hash), record);
    forall i: nat | HiddenIn(ms, hash, i, {record}) ensures i in Indices(g) {
      var s :| s in Found(ms) && s.index == i;
      assert s in g;
    }
  }

  lemma ShadowedGrows(ms: seq<Source>, hash: Hash, done: set<string>, shadowed: set<nat>, record: string)
    requires ShadowedOk(ms, hash, done, shadowed)
    ensures ShadowedOk(ms, hash, done + {record},
              if Live(ms, hash, record) then shadowed + Indices(GroupOf(ms, hash, record)) else shadowed)
  {
    hide Live, Indices, GroupOf;
    GroupFacts(ms, hash, record);
  }

  lemma ConflictedGrows(ms: seq<Source>, hash: Hash, done: set<string>, conflicted: set<nat>, record: string)
    requires ConflictedOk(ms, hash, done, conflicted) && record !in done
    ensures ConflictedOk(ms, hash, done + {record},
              if Conflicting(ms, hash, record) then conflicted + Indices(GroupOf(ms, hash, record)) else conflicted)
    ensures conflicted !! Indices(GroupOf(ms, hash, record))
  {
    hide Conflicting, Indices, GroupOf;
    GroupFacts(ms, hash, record);
  }

  lemma EntriesGrow(ms: seq<Source>, hash: Hash, done: set<string>, entries: seq<Planned>, record: string)
    requires EntriesOk(ms, hash, done, entries) && record !in done
    ensures (forall e: Planned | e.record == record :: !Movable(ms, hash, e)) ==>
      EntriesOk(ms, hash, done + {record}, entries)
    ensures forall e: Planned | e.record == record && Movable(ms, hash, e) ::
      EntriesOk(ms, hash, done + {record}, entries + [e])
  {
    forall e: Planned | e.record == record && Movable(ms, hash, e)
      ensures EntriesOk(ms, hash, done + {record}, entries + [e])
    {
      OneEntryMore(ms, hash, done, entries, record, e);
    }
  }

  lemma OneEntryMore(ms: seq<Source>, hash: Hash, done: set<string>, entries: seq<Planned>, record: string, e: Planned)
    requires EntriesOk(ms, hash, done, entries) && record !in done && e.record == record && Movable(ms, hash, e)
    ensures EntriesOk(ms, hash, done + {record}, entries + [e])
  {
    OneMove(ms, hash, e);
    hide Movable;
    var more := entries + [e];
    assert forall x :: x in more <==> x in entries || x == e;
    forall i | 0 <= i < |entries| ensures entries[i].record != record { assert entries[i] in entries; }
  }

  /** What a record moves to, and why, is settled by the record. */
  lemma OneMove(ms: seq<Source>, hash: Hash, e: Planned)
    requires Movable(ms, hash, e)
    ensures forall x: Planned | x.record == e.record && Movable(ms, hash, x) :: x == e
  {
    hide Live, Survivors, Copies, Reasons, Found;
    forall x: Planned | x.record == e.record && Movable(ms, hash, x) ensures x == e {
      assert x.survivor in {e.survivor};
    }
  }

  /** The decision for one more record. */
  method Decide(ms: seq<Source>, hash: Hash, plan: Plan, live: bool, record: string, group: seq<Supersession>,
                survivors: set<string>, ghost done: set<string>, ghost total: nat)
    returns (next: Plan)
    requires Settled(ms, hash, done, total, plan) && record !in done && live == Live(ms, hash, record)
    requires group == GroupOf(ms, hash, record) && group != [] && survivors == Survivors(ms, hash, group, record)
    ensures Settled(ms, hash, done + {record}, total + |group|, next)
  {
    hide EntriesOk, ShadowedOk, ConflictedOk, Live, Survivors, Copies, Reasons, Found, Indices;
    GroupFacts(ms, hash, record);
    ShadowedGrows(ms, hash, done, plan.shadowed, record);
    ConflictedGrows(ms, hash, done, plan.conflicted, record);
    EntriesGrow(ms, hash, done, plan.entries, record);
    var indices := set s | s in group :: s.index;
    assert indices == Indices(group) by { IndicesAre(group); }
    if live {
      next := plan.(shadowed := plan.shadowed + indices, skipped := plan.skipped + |group|);
    } else if |survivors| > 1 {
      next := plan.(conflicted := plan.conflicted + indices);
    } else if survivors == {} {
      next := plan.(skipped := plan.skipped + |group|);
    } else {
      var survivor :| survivor in survivors;
      OnlyOne(survivors, survivor);
      var e := Planned(record, survivor, Reasons(group));
      next := plan.(skipped := plan.skipped + (|group| - 1), entries := plan.entries + [e]);
    }
  }

  lemma IndicesAre(group: seq<Supersession>)
    ensures Indices(group) == set s | s in group :: s.index
  {
  }

  lemma OnlyOne(xs: set<string>, x: string)
    requires x in xs && |xs| <= 1
    ensures xs == {x} && |xs| == 1
  {
    assert |xs - {x}| == |xs| - 1;
    assert xs == xs - {x} + {x};
  }

  method LiveKeys(ms: seq<Source>, hash: Hash, keys: seq<string>, ss: seq<Supersession>) returns (live: set<string>)
    requires keys == Keys(ms, hash) && ss == Found(ms)
    ensures forall k :: k in live <==> Live(ms, hash, k)
  {
    var superseded := set s | s in ss :: s.index;
    live := set i | 0 <= i < |keys| && i !in superseded :: keys[i];
    FoundShape(ms);
    assert forall i: nat | i < |ms| :: i in superseded <==> Hidden(ms[i]);
  }

  method SurvivorsOf(ms: seq<Source>, hash: Hash, records: map<string, string>, group: seq<Supersession>,
                     record: string)
    returns (survivors: set<string>)
    requires forall h :: (if h in records then records[h] else h) == Resolve(ms, hash, h)
    ensures survivors == Survivors(ms, hash, group, record)
  {
    survivors := set s | s in group :: if s.sourceNewHash in records then records[s.sourceNewHash] else s.sourceNewHash;
    survivors := survivors - {record};
  }

  method MakePlan(ms: seq<Source>, hash: Hash) returns (plan: Plan, keys: seq<string>)
    ensures Sound(ms, hash, plan) && keys == Keys(ms, hash)
  {
    var ss: seq<Supersession>;
    keys, ss := Scroll(ms, hash);
    var records := ToAlaya(ms, hash, keys);
    var live := LiveKeys(ms, hash, keys, ss);
    var order, groups := Grouped(ss, keys);
    plan := Plan([], {}, {}, 0);
    NothingSettled(ms, hash, plan);
    hide Settled, Survivors, Live, Movable, Found;
    for n := 0 to |order|
      invariant Settled(ms, hash, Done(order, n), Total(order[..n], ss, keys), plan)
    {
      var record := order[n];
      NextRecord(order, n, ss, keys);
      var group := groups[record];
      var survivors := SurvivorsOf(ms, hash, records, group, record);
      plan := Decide(ms, hash, plan, record in live, record, group, survivors, Done(order, n),
                     Total(order[..n], ss, keys));
    }
    assert order[..|order|] == order;
    TotalIsAll(order, ss, keys);
    AllSettled(ms, hash, order, plan);
  }

  function Done(order: seq<string>, n: nat): set<string>
    requires n <= |order|
  {
    set k | k in order[..n]
  }

  lemma NextRecord(order: seq<string>, n: nat, ss: seq<Supersession>, keys: seq<string>)
    requires forall s | s in ss :: s.index < |keys|
    requires n < |order| && NoRepeats(order)
    ensures Done(order, n + 1) == Done(order, n) + {order[n]} && order[n] !in Done(order, n)
    ensures Total(order[..n + 1], ss, keys) == Total(order[..n], ss, keys) + |Copies(ss, keys, order[n])|
  {
    assert order[..n + 1] == order[..n] + [order[n]];
    assert order[..n + 1][..n] == order[..n];
  }

  lemma NothingSettled(ms: seq<Source>, hash: Hash, plan: Plan)
    requires plan == Plan([], {}, {}, 0)
    ensures Settled(ms, hash, {}, 0, plan)
  {
  }

  lemma AllSettled(ms: seq<Source>, hash: Hash, order: seq<string>, plan: Plan)
    requires Settled(ms, hash, Done(order, |order|), |Found(ms)|, plan)
    requires forall s | s in Found(ms) :: Keys(ms, hash)[s.index] in order
    ensures Sound(ms, hash, plan)
  {
    hide Live, Conflicting, Movable, Found, Hidden, HiddenIn;
    var done := Done(order, |order|);
    forall k | k in order ensures k in done { assert order[..|order|] == order; }
    hide Done;
    forall i: nat ensures HiddenIn(ms, hash, i, done) <==> i < |ms| && Hidden(ms[i]) {
      AllHidden(ms, hash, i, done, order);
    }
    forall e: Planned | Movable(ms, hash, e) ensures e.record in done {
      var i := MovableHasCopy(ms, hash, e);
    }
  }

  lemma AllHidden(ms: seq<Source>, hash: Hash, i: nat, done: set<string>, order: seq<string>)
    requires forall s | s in Found(ms) :: s.index < |ms|
    requires forall s | s in Found(ms) :: Keys(ms, hash)[s.index] in order
    requires forall k | k in order :: k in done
    ensures HiddenIn(ms, hash, i, done) <==> i < |ms| && Hidden(ms[i])
  {
    hide Found, Hidden;
    FoundShape(ms);
    if i < |ms| && Hidden(ms[i]) {
      var s :| s in Found(ms) && s.index == i;
      assert Keys(ms, hash)[i] == hash(ms[i].content);
    }
  }

  lemma MovableHasCopy(ms: seq<Source>, hash: Hash, e: Planned) returns (i: nat)
    requires Movable(ms, hash, e)
    ensures i < |ms| && Hidden(ms[i]) && hash(ms[i].content) == e.record
    ensures exists s | s in Found(ms) :: Keys(ms, hash)[s.index] == e.record
  {
    var group := GroupOf(ms, hash, e.record);
    assert e.survivor in Survivors(ms, hash, group, e.record);
    var s :| s in group && Resolve(ms, hash, s.sourceNewHash) == e.survivor;
    CopiesMembers(Found(ms), Keys(ms, hash), e.record);
    FoundShape(ms);
    i := s.index;
  }

  // ----- Writing

  datatype Stats = Stats(stored: nat, existed: nat, failed: nat, superseded: nat, supersedeFailed: nat)

  datatype StoreAnswer = Created | Existed | Refused

  function ToStore(ms: seq<Source>, plan: Plan): seq<nat> {
    if ms == [] then []
    else
      var n := |ms| - 1;
      ToStore(ms[..n], plan) + (if n in plan.shadowed + plan.conflicted then [] else [n])
  }

  lemma {:induction false} ToStoreHolds(ms: seq<Source>, plan: Plan)
    ensures forall i: nat :: i in ToStore(ms, plan) <==> i < |ms| && i !in plan.shadowed && i !in plan.conflicted
  {
    if ms != [] { ToStoreHolds(ms[..|ms| - 1], plan); }
  }

  /** A key counts as stored when some attempt under it was not refused. */
  ghost predicate StoredExactly(keys: seq<string>, attempted: seq<nat>, answers: seq<StoreAnswer>, stored: set<string>)
    requires |answers| == |attempted|
  {
    forall k :: k in stored <==> KeyAnswered(keys, attempted, answers, k)
  }

  predicate KeyAnswered(keys: seq<string>, attempted: seq<nat>, answers: seq<StoreAnswer>, k: string)
    requires |answers| == |attempted|
  {
    exists n | 0 <= n < |attempted| :: attempted[n] < |keys| && keys[attempted[n]] == k && answers[n] != Refused
  }

  predicate Tallied(stats: Stats, answers: seq<StoreAnswer>) {
    && stats.stored == multiset(answers)[Created] && stats.existed == multiset(answers)[Existed]
    && stats.failed == multiset(answers)[Refused]
  }

  lemma AnswerAdds(keys: seq<string>, attempted: seq<nat>, answers: seq<StoreAnswer>, stored: set<string>, i: nat,
                   answer: StoreAnswer)
    requires |answers| == |attempted| && i < |keys| && StoredExactly(keys, attempted, answers, stored)
    ensures StoredExactly(keys, attempted + [i], answers + [answer],
              if answer != Refused then stored + {keys[i]} else stored)
  {
    var attempted', answers' := attempted + [i], answers + [answer];
    forall k ensures KeyAnswered(keys, attempted', answers', k) <==>
      KeyAnswered(keys, attempted, answers, k) || (k == keys[i] && answer != Refused)
    {
      if KeyAnswered(keys, attempted, answers, k) {
        var n :| 0 <= n < |attempted| && attempted[n] < |keys| && keys[attempted[n]] == k && answers[n] != Refused;
        assert attempted'[n] == attempted[n] && answers'[n] == answers[n];
      }
      if k == keys[i] && answer != Refused { assert attempted'[|attempted|] == i && answers'[|answers|] == answer; }
    }
  }

  /** One store, whatever the server makes of it. */
  method StoreMemory(before: Stats, ghost answers: seq<StoreAnswer>)
    returns (ok: bool, stats: Stats, ghost answer: StoreAnswer)
    requires Tallied(before, answers)
    ensures ok <==> answer != Refused
    ensures Tallied(stats, answers + [answer])
    ensures stats.superseded == before.superseded && stats.supersedeFailed == before.supersedeFailed
  {
    var got: StoreAnswer := *;
    answer := got;
    match got {
      case Created => ok, stats := true, before.(stored := before.stored + 1);
      case Existed => ok, stats := true, before.(existed := before.existed + 1);
      case Refused => ok, stats := false, before.(failed := before.failed + 1);
    }
  }

  /** Store batch by batch, in order. */
  method StoreAll(keys: seq<string>, toStore: seq<nat>, batchSize: nat)
    returns (stats: Stats, attempted: seq<nat>, stored: set<string>, ghost answers: seq<StoreAnswer>)
    requires batchSize > 0 && forall i | i in toStore :: i < |keys|
    ensures attempted == toStore && |answers| == |attempted| && StoredExactly(keys, attempted, answers, stored)
    ensures Tallied(stats, answers) && stats.superseded == stats.supersedeFailed == 0
  {
    hide StoredExactly, Tallied;
    attempted, stored, stats, answers := [], {}, Stats(0, 0, 0, 0, 0), [];
    NoneStored(keys);
    NoneTallied();
    var batchStart := 0;
    while batchStart < |toStore|
      invariant batchStart >= 0 && attempted == toStore[..Min(batchStart, |toStore|)] && |answers| == |attempted|
      invariant Tallied(stats, answers) && StoredExactly(keys, attempted, answers, stored)
      invariant stats.superseded == stats.supersedeFailed == 0
      decreases |toStore| - batchStart
    {
      for j := batchStart to Min(batchStart + batchSize, |toStore|)
        invariant attempted == toStore[..j] && |answers| == |attempted|
        invariant Tallied(stats, answers) && StoredExactly(keys, attempted, answers, stored)
        invariant stats.superseded == stats.supersedeFailed == 0
      {
        var i := toStore[j];
        assert i in toStore;
        var ok;
        ghost var answer;
        ok, stats, answer := StoreMemory(stats, answers);
        AnswerAdds(keys, attempted, answers, stored, i, answer);
        attempted, answers := attempted + [i], answers + [answer];
        if ok { stored := stored + {keys[i]}; }
      }
      batchStart := batchStart + batchSize;
    }
  }

  /** The whole migration. `attempted` is what was sent to be stored, in order,
      with the server's `answers`, and `posted` the supersessions recreated:
      those `accepted` of the entries whose two records are both stored. */
  method Migrate(ms: seq<Source>, hash: Hash, batchSize: nat)
    returns (plan: Plan, stats: Stats, attempted: seq<nat>, stored: set<string>, posted: seq<Planned>,
             ghost answers: seq<StoreAnswer>, ghost accepted: seq<bool>)
    requires batchSize > 0
    ensures Sound(ms, hash, plan) && attempted == ToStore(ms, plan)
    ensures |answers| == |attempted| && Tallied(stats, answers)
    ensures stats.stored + stats.existed + stats.failed == |attempted|
    ensures StoredExactly(Keys(ms, hash), attempted, answers, stored)
    ensures |accepted| == |plan.entries| && PostedExactly(plan.entries, stored, accepted, posted)
    ensures stats.superseded + stats.supersedeFailed == |plan.entries| && stats.superseded == |posted|
  {
    var keys;
    plan, keys := MakePlan(ms, hash);
    var toStore := StoreList(ms, plan);
    StoreListIn(ms, hash, plan);
    EntriesApart(ms, hash, plan);
    hide Sound, StoredExactly, Keys, PostedExactly, ToStore, Tallied, OnePerRecord;
    stats, attempted, stored, answers := StoreAll(keys, toStore, batchSize);
    ghost var tallied := stats;
    stats, posted, accepted := SupersedeAll(plan.entries, stored, stats);
    StillTallied(tallied, stats, answers);
    AllTallied(stats, answers);
  }

  lemma NoneStored(keys: seq<string>)
    ensures StoredExactly(keys, [], [], {})
  {
  }

  lemma StoreListIn(ms: seq<Source>, hash: Hash, plan: Plan)
    ensures forall i | i in ToStore(ms, plan) :: i < |Keys(ms, hash)|
  {
    ToStoreHolds(ms, plan);
  }

  lemma StillTallied(before: Stats, stats: Stats, answers: seq<StoreAnswer>)
    requires Tallied(before, answers)
    requires stats == before.(superseded := stats.superseded, supersedeFailed := stats.supersedeFailed)
    ensures Tallied(stats, answers)
  {
  }

  /** Every attempt is counted once. */
  lemma {:induction false} EachAnswerOnce(answers: seq<StoreAnswer>)
    ensures var counts := multiset(answers); counts[Created] + counts[Existed] + counts[Refused] == |answers|
  {
    if answers != [] {
      var n := |answers| - 1;
      EachAnswerOnce(answers[..n]);
      assert multiset(answers) == multiset(answers[..n]) + multiset{answers[n]} by {
        assert answers == answers[..n] + [answers[n]];
      }
      match answers[n] {
        case Created =>
        case Existed =>
        case Refused =>
      }
    }
  }

  lemma AllTallied(stats: Stats, answers: seq<StoreAnswer>)
    requires Tallied(stats, answers)
    ensures stats.stored + stats.existed + stats.failed == |answers|
  {
    EachAnswerOnce(answers);
  }

  lemma NoneTallied()
    ensures Tallied(Stats(0, 0, 0, 0, 0), [])
  {
  }

  lemma EntriesApart(ms: seq<Source>, hash: Hash, plan: Plan)
    requires Sound(ms, hash, plan)
    ensures OnePerRecord(plan.entries)
  {
    hide Movable, Live;
  }

  function Min(a: int, b: int): int { if a < b then a else b }

  method StoreList(ms: seq<Source>, plan: Plan) returns (toStore: seq<nat>)
    ensures toStore == ToStore(ms, plan)
  {
    toStore := [];
    var notStored := plan.shadowed + plan.conflicted;
    for i := 0 to |ms|
      invariant toStore == ToStore(ms[..i], plan)
    {
      assert ms[..i + 1][..i] == ms[..i];
      if i !in notStored { toStore := toStore + [i]; }
    }
    assert ms[..|ms|] == ms;
  }

  /** Posted, in order: the entries the server accepted, both records stored. */
  predicate PostedExactly(entries: seq<Planned>, stored: set<string>, accepted: seq<bool>, posted: seq<Planned>)
    requires |accepted| <= |entries|
  {
    && (forall n | 0 <= n < |accepted| ::
          entries[n] in posted <==> accepted[n] && entries[n].record in stored && entries[n].survivor in stored)
    && (forall e | e in posted :: Handled(entries, |accepted|, e))
    && OnePerRecord(posted)
  }

  predicate Handled(entries: seq<Planned>, n: nat, e: Planned)
    requires n <= |entries|
  {
    exists m | 0 <= m < n :: entries[m] == e
  }

  method SupersedeAll(entries: seq<Planned>, stored: set<string>, before: Stats)
    returns (stats: Stats, posted: seq<Planned>, ghost accepted: seq<bool>)
    requires before.superseded == before.supersedeFailed == 0 && OnePerRecord(entries)
    ensures stats == before.(superseded := stats.superseded, supersedeFailed := stats.supersedeFailed)
    ensures stats.superseded + stats.supersedeFailed == |entries| && stats.superseded == |posted|
    ensures |accepted| == |entries| && PostedExactly(entries, stored, accepted, posted)
  {
    stats, posted, accepted := before, [], [];
    for n := 0 to |entries|
      invariant stats == before.(superseded := stats.superseded, supersedeFailed := stats.supersedeFailed)
      invariant stats.superseded + stats.supersedeFailed == n && stats.superseded == |posted|
      invariant |accepted| == n && PostedExactly(entries, stored, accepted, posted)
    {
      var e := entries[n];
      var answered: bool := *;
      PostedOne(entries, stored, accepted, posted, answered);
      accepted := accepted + [answered];
      if e.record in stored && e.survivor in stored && answered {
        stats, posted := stats.(superseded := stats.superseded + 1), posted + [e];
      } else {
        stats := stats.(supersedeFailed := stats.supersedeFailed + 1);
      }
    }
  }

  lemma PostedOne(entries: seq<Planned>, stored: set<string>, accepted: seq<bool>, posted: seq<Planned>, answered: bool)
    requires |accepted| < |entries| && OnePerRecord(entries) && PostedExactly(entries, stored, accepted, posted)
    ensures var e := entries[|accepted|];
      PostedExactly(entries, stored, accepted + [answered],
        if e.record in stored && e.survivor in stored && answered then posted + [e] else posted)
  {
    hide OnePerRecord, Handled;
    var n := |accepted|;
    var e := entries[n];
    var posts := e.record in stored && e.survivor in stored && answered;
    var posted' := if posts then posted + [e] else posted;
    var accepted' := accepted + [answered];
    NotPosted(entries, stored, accepted, posted);
    forall m | 0 <= m <= n
      ensures entries[m] in posted' <==> accepted'[m] && entries[m].record in stored && entries[m].survivor in stored
    {
      if m < n { OthersApart(entries, m, n); }
    }
    forall x | x in posted' ensures Handled(entries, n + 1, x) {
      if x in posted { HandledLater(entries, n, x); } else { HandledNow(entries, n); }
    }
  }

  lemma OthersApart(entries: seq<Planned>, m: nat, n: nat)
    requires m < n < |entries| && OnePerRecord(entries)
    ensures entries[m] != entries[n]
  {
  }

  lemma HandledLater(entries: seq<Planned>, n: nat, e: Planned)
    requires n < |entries| && Handled(entries, n, e)
    ensures Handled(entries, n + 1, e)
  {
  }

  lemma HandledNow(entries: seq<Planned>, n: nat)
    requires n < |entries|
    ensures Handled(entries, n + 1, entries[n])
  {
    assert entries[n] == entries[n];
  }

  lemma NotPosted(entries: seq<Planned>, stored: set<string>, accepted: seq<bool>, posted: seq<Planned>)
    requires |accepted| < |entries| && OnePerRecord(entries) && PostedExactly(entries, stored, accepted, posted)
    ensures entries[|accepted|] !in posted && OnePerRecord(posted)
    ensures OnePerRecord(posted + [entries[|accepted|]])
  {
    var e := entries[|accepted|];
    forall x | x in posted ensures x.record != e.record {
      var m :| 0 <= m < |accepted| && entries[m] == x;
    }
    forall m | 0 <= m < |posted| ensures posted[m].record != e.record { assert posted[m] in posted; }
  }

  // ----- What a sound plan means

  /** No live content is hidden: a live memory is always sent to be stored, and
      its record is never superseded. */
  lemma LiveSurvives(ms: seq<Source>, hash: Hash, plan: Plan, i: nat)
    requires Sound(ms, hash, plan) && i < |ms| && !Hidden(ms[i])
    ensures i in ToStore(ms, plan)
    ensures forall e | e in plan.entries :: e.record != hash(ms[i].content)
  {
    ToStoreHolds(ms, plan);
    hide Survivors, Copies, Found, Reasons;
    assert Live(ms, hash, hash(ms[i].content));
  }

  /** The record that the source hash `h` stands for: that of the last memory
      scrolled under it, or itself when no memory has it. */
  predicate StandsFor(ms: seq<Source>, hash: Hash, h: string, record: string) {
    || (exists j | 0 <= j < |ms| :: LastUnder(ms, h, j) && record == hash(ms[j].content))
    || (record == h && forall j | 0 <= j < |ms| :: h == "" || ms[j].sourceHash != Some(h))
  }

  predicate LastUnder(ms: seq<Source>, h: string, j: nat)
    requires j < |ms|
  {
    h != "" && ms[j].sourceHash == Some(h) && forall k | j < k < |ms| :: ms[k].sourceHash != Some(h)
  }

  lemma {:induction false} ResolveIff(ms: seq<Source>, hash: Hash, h: string, record: string)
    ensures Resolve(ms, hash, h) == record <==> StandsFor(ms, hash, h, record)
  {
    if ms != [] {
      var n := |ms| - 1;
      ResolveIff(ms[..n], hash, h, record);
      if h != "" && ms[n].sourceHash == Some(h) {
        assert LastUnder(ms, h, n);
      } else {
        forall j | 0 <= j < n ensures LastUnder(ms, h, j) <==> LastUnder(ms[..n], h, j) {
          assert ms[..n][j] == ms[j];
          forall k | j < k < n ensures ms[..n][k] == ms[k] {}
        }
      }
    }
  }

  /** Copy `i` of the record is superseded by `survivor`, another record. */
  predicate Points(ms: seq<Source>, hash: Hash, i: nat, record: string, survivor: string) {
    && i < |ms| && hash(ms[i].content) == record && survivor != record
    && ms[i].supersededBy.Some? && ms[i].supersededBy.value != ""
    && StandsFor(ms, hash, ms[i].supersededBy.value, survivor)
  }

  predicate PointsTo(ms: seq<Source>, hash: Hash, record: string, survivor: string) {
    exists i | 0 <= i < |ms| :: Points(ms, hash, i, record, survivor)
  }

  /** Every copy of the record is superseded in the source. */
  predicate AllSuperseded(ms: seq<Source>, hash: Hash, record: string) {
    forall i | 0 <= i < |ms| && hash(ms[i].content) == record ::
      ms[i].supersededBy.Some? && ms[i].supersededBy.value != ""
  }

  predicate GivesReason(ms: seq<Source>, hash: Hash, i: nat, record: string, reason: string) {
    && i < |ms| && hash(ms[i].content) == record && ms[i].reason == Some(reason) && reason != ""
    && ms[i].supersededBy.Some? && ms[i].supersededBy.value != ""
  }

  predicate HasReason(ms: seq<Source>, hash: Hash, record: string, reason: string) {
    exists i | 0 <= i < |ms| :: GivesReason(ms, hash, i, record, reason)
  }

  lemma {:induction false} FoundExactly(ms: seq<Source>, s: Supersession)
    ensures s in Found(ms) <==>
      && s.index < |ms| && ms[s.index].supersededBy == Some(s.sourceNewHash) && s.sourceNewHash != ""
      && s.reason == ms[s.index].reason
  {
    if ms != [] { FoundExactly(ms[..|ms| - 1], s); }
  }

  lemma GroupExactly(ms: seq<Source>, hash: Hash, record: string, s: Supersession)
    ensures s in GroupOf(ms, hash, record) <==>
      && s.index < |ms| && ms[s.index].supersededBy == Some(s.sourceNewHash) && s.sourceNewHash != ""
      && s.reason == ms[s.index].reason && hash(ms[s.index].content) == record
  {
    hide Found;
    FoundExactly(ms, s);
    CopiesMembers(Found(ms), Keys(ms, hash), record);
  }

  lemma SurvivorsExactly(ms: seq<Source>, hash: Hash, record: string, survivor: string)
    ensures survivor in Survivors(ms, hash, GroupOf(ms, hash, record), record) <==>
      PointsTo(ms, hash, record, survivor)
  {
    hide GroupOf, StandsFor, Resolve;
    var group := GroupOf(ms, hash, record);
    if survivor in Survivors(ms, hash, group, record) {
      var s :| s in group && Resolve(ms, hash, s.sourceNewHash) == survivor;
      GroupExactly(ms, hash, record, s);
      ResolveIff(ms, hash, s.sourceNewHash, survivor);
      assert Points(ms, hash, s.index, record, survivor);
    }
    if PointsTo(ms, hash, record, survivor) {
      var i: nat :| i < |ms| && Points(ms, hash, i, record, survivor);
      var s := Supersession(i, ms[i].supersededBy.value, ms[i].reason);
      GroupExactly(ms, hash, record, s);
      ResolveIff(ms, hash, s.sourceNewHash, survivor);
    }
  }

  lemma ReasonsExactly(ms: seq<Source>, hash: Hash, record: string, reason: string)
    ensures reason in Reasons(GroupOf(ms, hash, record)) <==> HasReason(ms, hash, record, reason)
  {
    hide GroupOf;
    var group := GroupOf(ms, hash, record);
    if reason in Reasons(group) {
      var s :| s in group && s.reason == Some(reason);
      GroupExactly(ms, hash, record, s);
      assert GivesReason(ms, hash, s.index, record, reason);
    }
    if HasReason(ms, hash, record, reason) {
      var i: nat :| i < |ms| && GivesReason(ms, hash, i, record, reason);
      GroupExactly(ms, hash, record, Supersession(i, ms[i].supersededBy.value, ms[i].reason));
    }
  }

  lemma LiveExactly(ms: seq<Source>, hash: Hash, record: string)
    ensures !Live(ms, hash, record) <==> AllSuperseded(ms, hash, record)
  {
  }

  /** What a record moves to and why, told on the source alone: all its copies
      are superseded, by one other record and no second, and the reasons are
      theirs. */
  lemma MovesIff(ms: seq<Source>, hash: Hash, e: Planned)
    ensures Movable(ms, hash, e) <==>
      && AllSuperseded(ms, hash, e.record)
      && (forall v :: PointsTo(ms, hash, e.record, v) <==> v == e.survivor)
      && (forall why :: why in e.reasons <==> HasReason(ms, hash, e.record, why))
  {
    hide Live, Survivors, Reasons, AllSuperseded, PointsTo, HasReason, Found, Copies;
    LiveExactly(ms, hash, e.record);
    var group := GroupOf(ms, hash, e.record);
    forall v ensures v in Survivors(ms, hash, group, e.record) <==> PointsTo(ms, hash, e.record, v) {
      SurvivorsExactly(ms, hash, e.record, v);
    }
    forall why ensures why in Reasons(group) <==> HasReason(ms, hash, e.record, why) {
      ReasonsExactly(ms, hash, e.record, why);
    }
  }

  /** Likewise a conflict: its copies are superseded by two other records. */
  lemma ConflictsIff(ms: seq<Source>, hash: Hash, record: string)
    ensures Conflicting(ms, hash, record) <==>
      && AllSuperseded(ms, hash, record)
      && exists v, w :: v != w && PointsTo(ms, hash, record, v) && PointsTo(ms, hash, record, w)
  {
    hide Live, Survivors, AllSuperseded, PointsTo, Found, Copies;
    LiveExactly(ms, hash, record);
    var survivors := Survivors(ms, hash, GroupOf(ms, hash, record), record);
    forall v ensures v in survivors <==> PointsTo(ms, hash, record, v) {
      SurvivorsExactly(ms, hash, record, v);
    }
    TwoIff(survivors);
  }

  lemma TwoIff(xs: set<string>)
    ensures |xs| > 1 <==> exists v, w :: v in xs && w in xs && v != w
  {
    if |xs| > 1 {
      var v :| v in xs;
      assert |xs - {v}| > 0;
      var w :| w in xs - {v};
    }
    if v, w :| v in xs && w in xs && v != w { assert |xs - {v} - {w}| == |xs| - 2; }
  }

  /** A sound plan, told on the source alone. */
  lemma SoundMeans(ms: seq<Source>, hash: Hash, plan: Plan, i: nat)
    requires Sound(ms, hash, plan) && i < |ms|
    ensures var marked := ms[i].supersededBy.Some? && ms[i].supersededBy.value != "";
      var record := hash(ms[i].content);
      && (i in plan.shadowed <==> marked && !AllSuperseded(ms, hash, record))
      && (i in plan.conflicted <==>
           && AllSuperseded(ms, hash, record)
           && exists v, w :: v != w && PointsTo(ms, hash, record, v) && PointsTo(ms, hash, record, w))
      && (i in ToStore(ms, plan) <==> i !in plan.shadowed && i !in plan.conflicted)
  {
    var record := hash(ms[i].content);
    hide Survivors, Copies, Found, Reasons, PointsTo, Movable;
    LiveExactly(ms, hash, record);
    ConflictsIff(ms, hash, record);
    hide Live, Conflicting;
    ToStoreHolds(ms, plan);
  }

  /** Every planned record is sent to be stored, by one of its own copies. */
  lemma PlannedIsStored(ms: seq<Source>, hash: Hash, plan: Plan, e: Planned) returns (i: nat)
    requires Sound(ms, hash, plan) && e in plan.entries
    ensures i in ToStore(ms, plan) && i < |ms| && hash(ms[i].content) == e.record
  {
    i := MovableHasCopy(ms, hash, e);
    ToStoreHolds(ms, plan);
    hide Copies, Found, Reasons, Live;
  }
}
