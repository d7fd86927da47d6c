// The benchmark's stratified sample: entries taken type by type, round-robin,
// up to a given number. An entry is named by its position in the dataset.

module Sampler {
  import opened Strings

  datatype Entry = Entry(questionType: string, question: string)

  // ----- Types and their entries

  /** The positions of the entries of one type, in dataset order. */
  function Of(data: seq<Entry>, t: string): seq<nat> {
    if data == [] then []
    else
      var n := |data| - 1;
      Of(data[..n], t) + (if data[n].questionType == t then [n] else [])
  }

  /** `t` put in its place in an ascending list that lacks it. */
  function Inserted(t: string, ts: seq<string>): seq<string> {
    if ts == [] then [t]
    else if t == ts[0] then ts
    else if StrLess(t, ts[0]) then [t] + ts
    else [ts[0]] + Inserted(t, ts[1..])
  }

  function Types(data: seq<Entry>): seq<string> {
    if data == [] then [] else Inserted(data[|data| - 1].questionType, Types(data[..|data| - 1]))
  }

  predicate Ascending(ts: seq<string>) {
    forall i, j | 0 <= i < j < |ts| :: StrLess(ts[i], ts[j])
  }

  lemma {:induction false} InsertedOk(t: string, ts: seq<string>)
    requires Ascending(ts)
    ensures Ascending(Inserted(t, ts)) && forall x :: x in Inserted(t, ts) <==> x == t || x in ts
  {
    if ts != [] && t != ts[0] {
      if StrLess(t, ts[0]) {
        forall i | 0 <= i < |ts| ensures StrLess(t, ts[i]) {
          if i > 0 { StrLessTransitive(t, ts[0], ts[i]); }
        }
      } else {
        StrLessTotal(t, ts[0]);
        InsertedOk(t, ts[1..]);
        var rest := Inserted(t, ts[1..]);
        forall i | 0 <= i < |rest| ensures StrLess(ts[0], rest[i]) {
          assert rest[i] in rest;
          if rest[i] != t {
            var j :| 0 <= j < |ts[1..]| && ts[1..][j] == rest[i];
            assert StrLess(ts[0], ts[j + 1]);
          }
        }
        assert ts == [ts[0]] + ts[1..];
      }
    }
  }

  /** The types present, each once, in ascending order. */
  lemma {:induction false} TypesOk(data: seq<Entry>)
    ensures Ascending(Types(data))
    ensures forall t :: t in Types(data) <==> exists i | 0 <= i < |data| :: data[i].questionType == t
  {
    if data != [] {
      var n := |data| - 1;
      TypesOk(data[..n]);
      InsertedOk(data[n].questionType, Types(data[..n]));
      forall t ensures t in Types(data) <==> exists i | 0 <= i < |data| :: data[i].questionType == t {
        if t in Types(data[..n]) {
          var i :| 0 <= i < n && data[..n][i].questionType == t;
          assert data[i].questionType == t;
        }
        if exists i | 0 <= i < |data| :: data[i].questionType == t {
          var i :| 0 <= i < |data| && data[i].questionType == t;
          assert i < n ==> data[..n][i].questionType == t;
        }
      }
    }
  }

  lemma {:induction false} OfOk(data: seq<Entry>, t: string)
    ensures forall p :: p in Of(data, t) <==> 0 <= p < |data| && data[p].questionType == t
    ensures forall i, j | 0 <= i < j < |Of(data, t)| :: Of(data, t)[i] < Of(data, t)[j]
  {
    if data != [] {
      var n := |data| - 1;
      OfOk(data[..n], t);
      var before := Of(data[..n], t);
      forall i | 0 <= i < |before| ensures before[i] < n { assert before[i] in before; }
    }
  }

  // ----- The walk

  /** What `r` whole passes over the lists and then the first `j` lists of one
      more pass take. */
  function Walk(lists: seq<seq<nat>>, r: nat, j: nat): seq<nat>
    requires j <= |lists|
    decreases r, j
  {
    if j > 0 then Walk(lists, r, j - 1) + (if r < |lists[j - 1]| then [lists[j - 1][r]] else [])
    else if r > 0 then Walk(lists, r - 1, |lists|)
    else []
  }

  function Min(a: nat, b: nat): nat { if a < b then a else b }

  /** How many the walk takes from list `k`. */
  function Share(lists: seq<seq<nat>>, r: nat, j: nat, k: nat): nat
    requires k < |lists|
  {
    Min(if k < j then r + 1 else r, |lists[k]|)
  }

  function Shares(lists: seq<seq<nat>>, r: nat, j: nat, n: nat): nat
    requires n <= |lists|
  {
    if n == 0 then 0 else Shares(lists, r, j, n - 1) + Share(lists, r, j, n - 1)
  }

  function Lengths(lists: seq<seq<nat>>, n: nat): nat
    requires n <= |lists|
  {
    if n == 0 then 0 else Lengths(lists, n - 1) + |lists[n - 1]|
  }

  lemma {:induction false} SharesNext(lists: seq<seq<nat>>, r: nat, j: nat, n: nat)
    requires 0 < j && j <= |lists| && n <= |lists|
    ensures Shares(lists, r, j, n) == Shares(lists, r, j - 1, n) + if j <= n && r < |lists[j - 1]| then 1 else 0
  {
    if n > 0 { SharesNext(lists, r, j, n - 1); }
  }

  lemma {:induction false} SharesPass(lists: seq<seq<nat>>, r: nat, n: nat)
    requires n <= |lists| && r > 0
    ensures Shares(lists, r, 0, n) == Shares(lists, r - 1, |lists|, n)
  {
    if n > 0 { SharesPass(lists, r, n - 1); }
  }

  lemma {:induction false} SharesNone(lists: seq<seq<nat>>, n: nat)
    requires n <= |lists|
    ensures Shares(lists, 0, 0, n) == 0
  {
    if n > 0 { SharesNone(lists, n - 1); }
  }

  lemma {:induction false} SharesAtMost(lists: seq<seq<nat>>, r: nat, j: nat, n: nat)
    requires n <= |lists|
    ensures Shares(lists, r, j, n) <= Lengths(lists, n)
    ensures (forall k | 0 <= k < n :: Share(lists, r, j, k) == |lists[k]|) ==>
      Shares(lists, r, j, n) == Lengths(lists, n)
  {
    if n > 0 { SharesAtMost(lists, r, j, n - 1); }
  }

  lemma {:induction false} WalkLength(lists: seq<seq<nat>>, r: nat, j: nat)
    requires j <= |lists|
    ensures |Walk(lists, r, j)| == Shares(lists, r, j, |lists|)
    decreases r, j
  {
    if j > 0 {
      WalkLength(lists, r, j - 1);
      SharesNext(lists, r, j, |lists|);
    } else if r > 0 {
      WalkLength(lists, r - 1, |lists|);
      SharesPass(lists, r, |lists|);
    } else {
      SharesNone(lists, |lists|);
    }
  }

  /** An earlier walk is the beginning of a later one. */
  lemma {:induction false} WalkPrefix(lists: seq<seq<nat>>, r: nat, j: nat, s: nat, k: nat)
    requires j <= |lists| && k <= |lists| && (r < s || (r == s && j <= k))
    ensures Walk(lists, r, j) <= Walk(lists, s, k)
    decreases s, k
  {
    if r == s && j == k {
    } else if k > 0 {
      WalkPrefix(lists, r, j, s, k - 1);
    } else {
      WalkPrefix(lists, r, j, s - 1, |lists|);
    }
  }

  /** The positions of `s` whose entry has type `t`, in order. */
  function OfType(data: seq<Entry>, s: seq<nat>, t: string): seq<nat> {
    if s == [] then []
    else
      var p := s[|s| - 1];
      OfType(data, s[..|s| - 1], t) + (if p < |data| && data[p].questionType == t then [p] else [])
  }

  /** The lists of the dataset, type by type. */
  function Lists(data: seq<Entry>): seq<seq<nat>> {
    seq(|Types(data)|, k requires 0 <= k < |Types(data)| => Of(data, Types(data)[k]))
  }

  lemma ListsHold(data: seq<Entry>, k: nat, i: nat)
    requires k < |Lists(data)| && i < |Lists(data)[k]|
    ensures Lists(data)[k][i] < |data| && data[Lists(data)[k][i]].questionType == Types(data)[k]
  {
    OfOk(data, Types(data)[k]);
    assert Of(data, Types(data)[k])[i] in Of(data, Types(data)[k]);
  }

  lemma {:induction false} WalkInside(data: seq<Entry>, r: nat, j: nat)
    requires j <= |Lists(data)|
    ensures forall p | p in Walk(Lists(data), r, j) :: p < |data|
    decreases r, j
  {
    if j > 0 {
      WalkInside(data, r, j - 1);
      if r < |Lists(data)[j - 1]| { ListsHold(data, j - 1, r); }
    } else if r > 0 {
      WalkInside(data, r - 1, |Lists(data)|);
    }
  }

  lemma ShareNext(lists: seq<seq<nat>>, r: nat, j: nat, k: nat)
    requires 0 < j <= |lists| && k < |lists| && r < |lists[j - 1]|
    ensures lists[k][..Share(lists, r, j, k)] ==
            lists[k][..Share(lists, r, j - 1, k)] + if j - 1 == k then [lists[j - 1][r]] else []
  {
  }

  /** Of each type the walk takes the first entries, in dataset order. */
  lemma {:induction false} WalkOfType(data: seq<Entry>, r: nat, j: nat, k: nat)
    requires j <= |Lists(data)| && k < |Lists(data)|
    ensures OfType(data, Walk(Lists(data), r, j), Types(data)[k]) == Lists(data)[k][..Share(Lists(data), r, j, k)]
    decreases r, j
  {
    hide Lists, Types;
    var lists := Lists(data);
    if j > 0 {
      WalkOfType(data, r, j - 1, k);
      if r < |lists[j - 1]| {
        var before, p := Walk(lists, r, j - 1), lists[j - 1][r];
        ListsHold(data, j - 1, r);
        TypesDiffer(data, j - 1, k);
        OfTypeNext(data, before, p, Types(data)[k]);
        ShareNext(lists, r, j, k);
      } else {
        assert Walk(lists, r, j) == Walk(lists, r, j - 1);
      }
    } else if r > 0 {
      WalkOfType(data, r - 1, |lists|, k);
    }
  }

  lemma OfTypeNext(data: seq<Entry>, s: seq<nat>, p: nat, t: string)
    ensures OfType(data, s + [p], t) ==
            OfType(data, s, t) + if p < |data| && data[p].questionType == t then [p] else []
  {
    assert (s + [p])[..|s|] == s;
  }

  lemma TypesDiffer(data: seq<Entry>, i: nat, j: nat)
    requires i < |Lists(data)| && j < |Lists(data)|
    ensures |Lists(data)| == |Types(data)| && (Types(data)[i] == Types(data)[j] <==> i == j)
  {
    TypesOk(data);
    StrLessTotal(Types(data)[i], Types(data)[i]);
    assert i < j ==> StrLess(Types(data)[i], Types(data)[j]);
    assert j < i ==> StrLess(Types(data)[j], Types(data)[i]);
  }

  // ----- What a sample is

  predicate NoRepeats(s: seq<nat>) {
    forall i, j | 0 <= i < j < |s| :: s[i] != s[j]
  }

  /** The type is used up. */
  predicate Exhausted(data: seq<Entry>, s: seq<nat>, t: string) {
    OfType(data, s, t) == Of(data, t)
  }

  /** `n` entries, or all of them, none twice; of each type the first ones, in
      dataset order; and as many of one type as of another but for one, unless
      the other is used up. */
  ghost predicate Stratified(data: seq<Entry>, n: nat, s: seq<nat>) {
    && |s| == Min(n, |data|) && NoRepeats(s) && (forall p | p in s :: p < |data|)
    && (forall t :: OfType(data, s, t) <= Of(data, t))
    && forall t, u | t in Types(data) && u in Types(data) ::
      |OfType(data, s, t)| <= |OfType(data, s, u)| + 1 || Exhausted(data, s, u)
  }

  lemma {:induction false} OfTypeMember(data: seq<Entry>, s: seq<nat>, p: nat)
    requires p in s && p < |data|
    ensures p in OfType(data, s, data[p].questionType)
  {
    var n := |s| - 1;
    assert s == s[..n] + [s[n]];
    if p != s[n] { OfTypeMember(data, s[..n], p); }
  }

  lemma {:induction false} NoneTwice(data: seq<Entry>, s: seq<nat>)
    requires forall p | p in s :: p < |data|
    requires forall t :: NoRepeats(OfType(data, s, t))
    ensures NoRepeats(s)
  {
    if s != [] {
      var n := |s| - 1;
      assert s == s[..n] + [s[n]];
      assert s[n] in s && forall p | p in s[..n] :: p in s;
      forall t ensures NoRepeats(OfType(data, s[..n], t)) {
        OfTypeNext(data, s[..n], s[n], t);
        Shorter(OfType(data, s[..n], t), OfType(data, s, t));
      }
      NoneTwice(data, s[..n]);
      var t := data[s[n]].questionType;
      OfTypeNext(data, s[..n], s[n], t);
      var before := OfType(data, s[..n], t);
      assert OfType(data, s, t) == before + [s[n]];
      forall i | 0 <= i < n ensures s[i] != s[n] {
        assert s[i] in s;
        if data[s[i]].questionType == t {
          OfTypeMember(data, s[..n], s[..n][i]);
          var a :| 0 <= a < |before| && before[a] == s[i];
          assert (before + [s[n]])[a] != (before + [s[n]])[|before|];
        }
      }
    }
  }

  lemma Shorter(s: seq<nat>, t: seq<nat>)
    requires s <= t && NoRepeats(t)
    ensures NoRepeats(s)
  {
    forall i, j | 0 <= i < j < |s| ensures s[i] != s[j] { assert s[i] == t[i] && s[j] == t[j]; }
  }

  /** No type but the dataset's. */
  lemma {:induction false} OtherType(data: seq<Entry>, s: seq<nat>, t: string)
    requires t !in Types(data)
    ensures OfType(data, s, t) == [] == Of(data, t)
    decreases |s|
  {
    NoEntries(data, t);
    hide Types, Of;
    if s != [] { OtherType(data, s[..|s| - 1], t); }
  }

  lemma {:induction false} OfAbsent(data: seq<Entry>, t: string)
    requires forall i | 0 <= i < |data| :: data[i].questionType != t
    ensures Of(data, t) == []
  {
    if data != [] { OfAbsent(data[..|data| - 1], t); }
  }

  lemma NoEntries(data: seq<Entry>, t: string)
    ensures t !in Types(data) <==> Of(data, t) == []
    ensures t !in Types(data) ==> forall i | 0 <= i < |data| :: data[i].questionType != t
  {
    TypesOk(data);
    OfOk(data, t);
    if t !in Types(data) {
      OfAbsent(data, t);
    } else {
      var i :| 0 <= i < |data| && data[i].questionType == t;
      assert i in Of(data, t);
    }
  }

  lemma {:induction false} LengthsTotal(data: seq<Entry>, ts: seq<string>, lists: seq<seq<nat>>)
    requires forall i, j | 0 <= i < j < |ts| :: ts[i] != ts[j]
    requires forall i | 0 <= i < |data| :: data[i].questionType in ts
    requires |lists| == |ts| && forall k | 0 <= k < |ts| :: lists[k] == Of(data, ts[k])
    ensures Lengths(lists, |lists|) == |data|
    decreases |data|
  {
    if data == [] {
      LengthsNone(lists, |lists|);
    } else {
      var n := |data| - 1;
      var before := seq(|ts|, k requires 0 <= k < |ts| => Of(data[..n], ts[k]));
      LengthsTotal(data[..n], ts, before);
      var m :| 0 <= m < |ts| && ts[m] == data[n].questionType;
      LengthsOneMore(before, lists, m, |ts|);
    }
  }

  lemma {:induction false} LengthsNone(lists: seq<seq<nat>>, n: nat)
    requires n <= |lists| && forall k | 0 <= k < |lists| :: lists[k] == []
    ensures Lengths(lists, n) == 0
  {
    if n > 0 { LengthsNone(lists, n - 1); }
  }

  lemma {:induction false} LengthsOneMore(before: seq<seq<nat>>, after: seq<seq<nat>>, m: nat, n: nat)
    requires |before| == |after| && m < |before| && n <= |before|
    requires forall k | 0 <= k < |before| :: |after[k]| == |before[k]| + if k == m then 1 else 0
    ensures Lengths(after, n) == Lengths(before, n) + if m < n then 1 else 0
  {
    if n > 0 { LengthsOneMore(before, after, m, n - 1); }
  }

  lemma AllEntries(data: seq<Entry>)
    ensures Lengths(Lists(data), |Lists(data)|) == |data|
  {
    TypesOk(data);
    var ts := Types(data);
    forall i, j | 0 <= i < j < |ts| ensures ts[i] != ts[j] {
      assert StrLess(ts[i], ts[j]);
      StrLessTotal(ts[i], ts[i]);
    }
    forall i | 0 <= i < |data| ensures data[i].questionType in ts {}
    LengthsTotal(data, ts, Lists(data));
  }

  /** Every walk of the right length is a stratified sample. */
  lemma WalkStratified(data: seq<Entry>, n: nat, r: nat, j: nat)
    requires j <= |Lists(data)| && |Walk(Lists(data), r, j)| == Min(n, |data|)
    ensures Stratified(data, n, Walk(Lists(data), r, j))
  {
    hide Types, Lists, Walk, Of, OfType;
    var s := Walk(Lists(data), r, j);
    WalkInside(data, r, j);
    forall t ensures OfType(data, s, t) <= Of(data, t) && NoRepeats(OfType(data, s, t)) {
      TypeTaken(data, r, j, t);
      OfOk(data, t);
      Shorter(OfType(data, s, t), Of(data, t));
    }
    NoneTwice(data, s);
    forall t, u | t in Types(data) && u in Types(data)
      ensures |OfType(data, s, t)| <= |OfType(data, s, u)| + 1 || Exhausted(data, s, u)
    {
      TypeTaken(data, r, j, t);
      TypeTaken(data, r, j, u);
    }
  }

  /** Of each type: the first r entries, or r and one more, or all. */
  lemma TypeTaken(data: seq<Entry>, r: nat, j: nat, t: string)
    requires j <= |Lists(data)|
    ensures var taken := OfType(data, Walk(Lists(data), r, j), t);
      taken <= Of(data, t) && (taken == Of(data, t) || |taken| >= r) && |taken| <= r + 1
  {
    if t in Types(data) {
      var k :| 0 <= k < |Types(data)| && Types(data)[k] == t;
      WalkOfType(data, r, j, k);
      assert Lists(data)[k] == Of(data, t);
    } else {
      OtherType(data, Walk(Lists(data), r, j), t);
    }
  }

  // ----- The program

  method ByType(data: seq<Entry>) returns (byType: map<string, seq<nat>>)
    ensures forall t :: t in byType <==> Of(data, t) != []
    ensures forall t | t in byType :: byType[t] == Of(data, t)
  {
    hide Of;
    byType := map[];
    forall t ensures Of(data[..0], t) == [] { OfNone(data[..0], t); }
    for i := 0 to |data|
      invariant forall t :: t in byType <==> Of(data[..i], t) != []
      invariant forall t | t in byType :: byType[t] == Of(data[..i], t)
    {
      forall t ensures Of(data[..i + 1], t) == Of(data[..i], t) + if data[i].questionType == t then [i] else [] {
        OfNext(data, i, t);
      }
      var t := data[i].questionType;
      byType := byType[t := (if t in byType then byType[t] else []) + [i]];
    }
    assert data[..|data|] == data;
  }

  lemma OfNone(data: seq<Entry>, t: string)
    requires data == []
    ensures Of(data, t) == []
  {
  }

  lemma OfNext(data: seq<Entry>, i: nat, t: string)
    requires i < |data|
    ensures Of(data[..i + 1], t) == Of(data[..i], t) + if data[i].questionType == t then [i] else []
  {
    assert data[..i + 1][..i] == data[..i];
  }

  lemma TypeLists(data: seq<Entry>)
    ensures |Lists(data)| == |Types(data)|
    ensures forall k | 0 <= k < |Types(data)| :: Lists(data)[k] == Of(data, Types(data)[k]) && Lists(data)[k] != []
  {
    forall k | 0 <= k < |Types(data)| ensures Lists(data)[k] == Of(data, Types(data)[k]) && Lists(data)[k] != [] {
      NoEntries(data, Types(data)[k]);
    }
  }

  /** The program's state after `r` passes and `j` types of the next. */
  predicate At(lists: seq<seq<nat>>, types: seq<string>, cursors: map<string, nat>, sampled: seq<nat>, r: nat, j: nat) {
    && |lists| == |types| && j <= |types|
    && sampled == Walk(lists, r, j)
    && (forall t | t in types :: t in cursors)
    && forall k | 0 <= k < |types| :: cursors[types[k]] == Share(lists, r, j, k)
  }

  predicate AllDiffer(types: seq<string>) {
    forall i, j | 0 <= i < |types| && 0 <= j < |types| && i != j :: types[i] != types[j]
  }

  lemma AtStart(lists: seq<seq<nat>>, types: seq<string>, cursors: map<string, nat>)
    requires |lists| == |types| && forall t | t in types :: t in cursors && cursors[t] == 0
    ensures At(lists, types, cursors, [], 0, 0)
  {
  }

  /** One type's turn: the next entry, if there is one. */
  lemma TakesNext(lists: seq<seq<nat>>, types: seq<string>, cursors: map<string, nat>, sampled: seq<nat>,
                  r: nat, j: nat)
    requires At(lists, types, cursors, sampled, r, j) && j < |types| && AllDiffer(types)
    ensures types[j] in cursors && (cursors[types[j]] < |lists[j]| <==> r < |lists[j]|)
    ensures var c := cursors[types[j]];
      if c < |lists[j]| then At(lists, types, cursors[types[j] := c + 1], sampled + [lists[j][c]], r, j + 1)
      else At(lists, types, cursors, sampled, r, j + 1)
  {
    assert types[j] in types;
  }

  lemma PassDone(lists: seq<seq<nat>>, types: seq<string>, cursors: map<string, nat>, sampled: seq<nat>, r: nat)
    requires At(lists, types, cursors, sampled, r, |types|)
    ensures At(lists, types, cursors, sampled, r + 1, 0)
  {
  }

  /** A pass that took nothing found every list at its end. */
  lemma NothingLeft(lists: seq<seq<nat>>, r: nat)
    requires forall k | 0 <= k < |lists| :: r >= |lists[k]|
    ensures |Walk(lists, r, |lists|)| == Lengths(lists, |lists|)
  {
    WalkLength(lists, r, |lists|);
    SharesAtMost(lists, r, |lists|, |lists|);
  }

  /** `r` and `j`: the whole passes walked and how far the last one came. */
  method StratifiedSample(data: seq<Entry>, n: nat) returns (sampled: seq<nat>, ghost r: nat, ghost j: nat)
    ensures j <= |Lists(data)| && sampled == Walk(Lists(data), r, j)
    ensures Stratified(data, n, sampled)
  {
    hide Stratified, Types, Of, Lists, At, AllDiffer, Walk, Share;
    var byType := ByType(data);
    TypeLists(data);
    var types := Types(data);
    ghost var lists := Lists(data);
    assert forall k | 0 <= k < |types| :: types[k] in byType && byType[types[k]] == lists[k];
    DistinctTypes(data);
    var cursors: map<string, nat> := map t | t in byType :: 0;
    sampled, r, j := [], 0, 0;
    AtStart(lists, types, cursors);
    while |sampled| < n
      invariant At(lists, types, cursors, sampled, r, j) && |sampled| <= n && j <= |types|
      invariant |sampled| < n ==> j == 0
      decreases n - |sampled|
    {
      var progressed := false;
      ghost var before := |sampled|;
      for i := 0 to |types|
        invariant j == i && At(lists, types, cursors, sampled, r, j)
        invariant before <= |sampled| <= n && (progressed <==> before < |sampled|)
        invariant progressed <==> exists k | 0 <= k < i :: r < |lists[k]|
      {
        if |sampled| >= n { break; }
        var t := types[i];
        TakesNext(lists, types, cursors, sampled, r, j);
        if cursors[t] < |byType[t]| {
          sampled := sampled + [byType[t][cursors[t]]];
          cursors := cursors[t := cursors[t] + 1];
          progressed := true;
        }
        j := i + 1;
      }
      if !progressed {
        NothingLeft(lists, r);
        break;
      }
      if |sampled| < n {
        PassDone(lists, types, cursors, sampled, r);
        r, j := r + 1, 0;
      }
    }
    WalkIs(lists, types, cursors, sampled, r, j);
    AllEntries(data);
    WalkStratified(data, n, r, j);
  }

  lemma WalkIs(lists: seq<seq<nat>>, types: seq<string>, cursors: map<string, nat>, sampled: seq<nat>, r: nat, j: nat)
    requires At(lists, types, cursors, sampled, r, j)
    ensures j <= |lists| && sampled == Walk(lists, r, j) && |sampled| <= Lengths(lists, |lists|)
  {
    WalkLength(lists, r, j);
    SharesAtMost(lists, r, j, |lists|);
  }

  lemma DistinctTypes(data: seq<Entry>)
    ensures AllDiffer(Types(data))
  {
    var types := Types(data);
    forall i, j | 0 <= i < |types| && 0 <= j < |types| && i != j ensures types[i] != types[j] {
      TypesDiffer(data, i, j);
    }
  }

  /** A smaller sample is the beginning of a larger one. */
  lemma SamplesNest(data: seq<Entry>, r: nat, j: nat, s: nat, k: nat)
    requires j <= |Lists(data)| && k <= |Lists(data)|
    requires |Walk(Lists(data), r, j)| <= |Walk(Lists(data), s, k)|
    ensures Walk(Lists(data), r, j) <= Walk(Lists(data), s, k)
  {
    if r < s || (r == s && j <= k) {
      WalkPrefix(Lists(data), r, j, s, k);
    } else {
      WalkPrefix(Lists(data), s, k, r, j);
    }
  }
}
