// The eval's spend: a ledger in memory, a log and an unbooked mark on disk,
// and the loop that buys verdicts chunk by chunk under a cap. A kill, a failed
// call and a failed write may strike at any step.

module SpendLedger {
  import opened Wrappers

  // ----- The ledger

  /** Dollars per million tokens. */
  datatype Price = Price(tokensIn: real, tokensOut: real)

  type Prices = string -> Price

  datatype Row = Row(calls: int, tokensIn: int, tokensOut: int)

  type RowKey = (string, string)
  type Rows = map<RowKey, Row>

  function RowUsd(prices: Prices, k: RowKey, row: Row): real {
    (row.tokensIn as real * prices(k.1).tokensIn + row.tokensOut as real * prices(k.1).tokensOut) / 1000000.0
  }

  function Added(rows: Rows, k: RowKey, tokensIn: int, tokensOut: int): Rows {
    var row := if k in rows then rows[k] else Row(0, 0, 0);
    rows[k := Row(row.calls + 1, row.tokensIn + tokensIn, row.tokensOut + tokensOut)]
  }

  ghost function UsdOf(prices: Prices, rows: Rows): real
    decreases |rows|
  {
    if rows == map[] then 0.0
    else
      var k :| k in rows;
      RowUsd(prices, k, rows[k]) + UsdOf(prices, rows - {k})
  }

  /** Any row may be taken first. */
  lemma {:induction false} UsdWithout(prices: Prices, rows: Rows, k: RowKey)
    requires k in rows
    ensures UsdOf(prices, rows) == RowUsd(prices, k, rows[k]) + UsdOf(prices, rows - {k})
    decreases |rows|
  {
    hide RowUsd;
    var first :| k in rows && first in rows
      && UsdOf(prices, rows) == RowUsd(prices, first, rows[first]) + UsdOf(prices, rows - {first});
    if first != k {
      UsdWithout(prices, rows - {first}, k);
      UsdWithout(prices, rows - {k}, first);
      assert rows - {first} - {k} == rows - {k} - {first};
    }
  }

  /** What one call costs. */
  function Cost(prices: Prices, model: string, tokensIn: int, tokensOut: int): real {
    RowUsd(prices, ("", model), Row(1, tokensIn, tokensOut))
  }

  lemma AddedUsd(prices: Prices, rows: Rows, k: RowKey, tokensIn: int, tokensOut: int)
    ensures UsdOf(prices, Added(rows, k, tokensIn, tokensOut)) ==
      UsdOf(prices, rows) + Cost(prices, k.1, tokensIn, tokensOut)
  {
    var after := Added(rows, k, tokensIn, tokensOut);
    UsdWithout(prices, after, k);
    assert after - {k} == rows - {k};
    if k in rows { UsdWithout(prices, rows, k); } else { assert rows - {k} == rows; }
    RowGrows(prices, k, if k in rows then rows[k] else Row(0, 0, 0), tokensIn, tokensOut);
  }

  lemma RowGrows(prices: Prices, k: RowKey, row: Row, tokensIn: int, tokensOut: int)
    ensures RowUsd(prices, k, Row(row.calls + 1, row.tokensIn + tokensIn, row.tokensOut + tokensOut))
            == RowUsd(prices, k, row) + Cost(prices, k.1, tokensIn, tokensOut)
    ensures RowUsd(prices, k, Row(0, 0, 0)) == 0.0
  {
    var p := prices(k.1);
    var a, b := row.tokensIn as real, tokensIn as real;
    var c, d := row.tokensOut as real, tokensOut as real;
    assert (row.tokensIn + tokensIn) as real == a + b && (row.tokensOut + tokensOut) as real == c + d;
    assert (a + b) * p.tokensIn == a * p.tokensIn + b * p.tokensIn;
    assert (c + d) * p.tokensOut == c * p.tokensOut + d * p.tokensOut;
  }

  /** A model's prices are for a million tokens each, input and output apart. */
  lemma MillionTokens(prices: Prices, role: string, model: string)
    ensures RowUsd(prices, (role, model), Row(1, 1000000, 0)) == prices(model).tokensIn
    ensures RowUsd(prices, (role, model), Row(1, 0, 1000000)) == prices(model).tokensOut
  {
  }

  /** Tokens are priced by the piece. */
  lemma PerToken(prices: Prices, k: RowKey, row: Row, more: Row)
    ensures RowUsd(prices, k, Row(0, row.tokensIn + more.tokensIn, row.tokensOut + more.tokensOut))
            == RowUsd(prices, k, row) + RowUsd(prices, k, more)
  {
    RowGrows(prices, k, row, more.tokensIn, more.tokensOut);
  }

  class Ledger {
    const prices: Prices
    var rows: Rows

    constructor (prices: Prices)
      ensures this.prices == prices && rows == map[]
    {
      this.prices := prices;
      rows := map[];
    }

    ghost function Total(): real
      reads this
    {
      UsdOf(prices, rows)
    }

    method Add(role: string, model: string, tokensIn: int, tokensOut: int)
      modifies this`rows
      ensures rows == Added(old(rows), (role, model), tokensIn, tokensOut)
      ensures Total() == old(Total()) + Cost(prices, model, tokensIn, tokensOut)
    {
      AddedUsd(prices, rows, (role, model), tokensIn, tokensOut);
      var k := (role, model);
      if k !in rows { rows := rows[k := Row(0, 0, 0)]; }
      var row := rows[k];
      rows := rows[k := Row(row.calls + 1, row.tokensIn + tokensIn, row.tokensOut + tokensOut)];
    }

    method Usd() returns (total: real)
      ensures total == Total()
    {
      hide RowUsd;
      total := 0.0;
      var left := rows.Keys;
      assert rows - (rows.Keys - left) == rows;
      while left != {}
        invariant left <= rows.Keys && total + UsdOf(prices, rows - (rows.Keys - left)) == Total()
      {
        var k :| k in left;
        ghost var rest := rows - (rows.Keys - left);
        UsdWithout(prices, rest, k);
        left := left - {k};
        assert rest - {k} == rows - (rows.Keys - left);
        total := total + RowUsd(prices, k, rows[k]);
      }
      assert rows - (rows.Keys - {}) == map[];
    }
  }

  // ----- The run directory

  /** The nearest whole number; of two, the even one. */
  function Nearest(y: real): int {
    var f := y.Floor;
    var part := y - f as real;
    if part < 0.5 || (part == 0.5 && f % 2 == 0) then f else f + 1
  }

  /** Dollars as the log holds them: to four decimals. */
  function Round4(x: real): real {
    Nearest(x * 10000.0) as real / 10000.0
  }

  /** The whole number nearest to `y`, and of two equally near the even one. */
  lemma NearestIff(y: real, n: int)
    ensures Nearest(y) == n <==>
      || y - 0.5 < n as real < y + 0.5
      || ((n as real == y - 0.5 || n as real == y + 0.5) && n % 2 == 0)
  {
    var f := y.Floor;
    assert f as real <= y < f as real + 1.0;
    if n > f + 1 { assert n as real >= (f + 2) as real; }
    if n < f { assert n as real <= (f - 1) as real; }
    if n == f + 1 { assert n as real == f as real + 1.0; }
  }

  lemma Round4Near(x: real)
    ensures x - 0.00005 <= Round4(x) <= x + 0.00005
  {
  }

  /** A log line, or what an aborted append left of one. */
  datatype Line = Entry(usd: real) | Torn

  function Logged(log: seq<Line>): seq<real> {
    if log == [] then []
    else Logged(log[..|log| - 1]) + (match log[|log| - 1] case Entry(usd) => [usd] case Torn => [])
  }

  function Rounded(xs: seq<real>): seq<real> {
    seq(|xs|, i requires 0 <= i < |xs| => Round4(xs[i]))
  }

  function Sum(xs: seq<real>): real {
    if xs == [] then 0.0 else Sum(xs[..|xs| - 1]) + xs[|xs| - 1]
  }

  /** How a disk step ends: done, failed with an error, or the process killed. */
  datatype Fate = Fine | Failed | Killed

  datatype Written = Whole | Part | Nothing

  /** The lines of the log that are whole. */
  function Mended(log: seq<Line>): seq<Line> {
    if log == [] then []
    else Mended(log[..|log| - 1]) + (if log[|log| - 1].Torn? then [] else [log[|log| - 1]])
  }

  lemma {:induction false} MendedLogs(log: seq<Line>)
    ensures Logged(Mended(log)) == Logged(log) && Torn !in Mended(log)
  {
    if log != [] {
      var n := |log| - 1;
      var before := Mended(log[..n]);
      MendedLogs(log[..n]);
      if log[n].Torn? {
        assert Mended(log) == before && Logged(log) == Logged(log[..n]) + [];
      } else {
        assert Mended(log) == before + [log[n]];
        assert (before + [log[n]])[..|before|] == before;
      }
    }
  }

  /** `booked` is what the chunks in the log really cost, `owed` what the
      provider bills for the calls of a chunk not in the log yet; only calls
      that returned count. */
  class RunDir {
    var log: seq<Line>
    var mark: bool
    ghost var booked: seq<real>
    var owed: real

    /** Without the mark the log has a line for every chunk with a call that
        returned, holding its cost to four decimals. */
    ghost predicate Valid()
      reads this
    {
      && Logged(log) == Rounded(booked)
      && (!mark ==> owed == 0.0 && Torn !in log)
    }

    /** The cost of every call that ever returned. */
    ghost function Returned(): real
      reads this
    {
      Sum(booked) + owed
    }

    constructor ()
      ensures Valid() && !mark && Returned() == 0.0 && log == []
    {
      log, mark, booked, owed := [], false, [], 0.0;
      new;
      assert Rounded(booked) == [];
    }

    method OweSpend() returns (fate: Fate)
      requires Valid()
      modifies this`mark
      ensures Valid() && (fate.Fine? ==> mark) && (old(mark) ==> mark)
    {
      fate := *;
      if fate.Fine? {
        mark := true;
      } else {
        var left: bool := *;
        mark := mark || left;
      }
    }

    /** Appends the chunk's line, then clears the mark; the append may fail or
        be cut short, and so may the clearing. */
    method BookSpend(spent: real) returns (fate: Fate)
      requires Valid() && mark && spent == owed && Torn !in log
      modifies this
      ensures Valid() && Returned() == old(Returned()) && (fate.Fine? <==> !mark)
      ensures fate.Fine? ==> log == old(log) + [Entry(Round4(spent))] && booked == old(booked) + [spent] && owed == 0.0
    {
      var written: Written := *;
      match written {
        case Whole =>
          AppendLine(log, booked, spent);
          log := log + [Entry(Round4(spent))];
          booked, owed := booked + [spent], 0.0;
          fate := *;
          if fate.Fine? { mark := false; }
        case Part =>
          AppendTorn(log);
          log := log + [Torn];
          fate := Failed;
          if * { fate := Killed; }
        case Nothing =>
          fate := Failed;
          if * { fate := Killed; }
      }
    }

    /** The operator strikes a torn line, adds the owed one, if there is one,
        and deletes the mark. */
    method Repair()
      requires Valid() && mark
      modifies this
      ensures Valid() && !mark && Returned() == old(Returned())
      ensures log == Mended(old(log)) + if old(owed) == 0.0 then [] else [Entry(Round4(old(owed)))]
    {
      MendedLogs(log);
      log := Mended(log);
      if owed != 0.0 {
        AppendLine(log, booked, owed);
        log := log + [Entry(Round4(owed))];
        booked, owed := booked + [owed], 0.0;
      }
      mark := false;
    }
  }

  lemma AppendLine(log: seq<Line>, booked: seq<real>, spent: real)
    requires Logged(log) == Rounded(booked)
    ensures Logged(log + [Entry(Round4(spent))]) == Rounded(booked + [spent]) == Logged(log) + [Round4(spent)]
    ensures Sum(booked + [spent]) == Sum(booked) + spent
  {
    hide Round4;
    assert (log + [Entry(Round4(spent))])[..|log|] == log;
    assert (booked + [spent])[..|booked|] == booked;
    assert Rounded(booked + [spent]) == Rounded(booked) + [Round4(spent)];
  }

  lemma AppendTorn(log: seq<Line>)
    ensures Logged(log + [Torn]) == Logged(log)
  {
    assert (log + [Torn])[..|log|] == log;
  }

  /** The log's total is off by at most half a hundredth of a cent a line. */
  lemma {:induction false} LogTotalNear(booked: seq<real>)
    ensures Sum(booked) - 0.00005 * |booked| as real <= Sum(Rounded(booked)) <= Sum(booked) + 0.00005 * |booked| as real
  {
    if booked != [] {
      var n := |booked| - 1;
      LogTotalNear(booked[..n]);
      Round4Near(booked[n]);
      assert Rounded(booked)[..n] == Rounded(booked[..n]);
    }
  }

  // ----- Buying the verdicts

  const SPEND_CHECK_EVERY: nat := 20
  const FAILED := "failed"

  datatype Vote = Vote(verdict: string, tokensIn: int, tokensOut: int)

  /** A call's outcome: a verdict, possibly a failed one, or an exception. */
  type Call = Option<Vote>

  function VoteCost(prices: Prices, model: string, v: Vote): real {
    Cost(prices, model, v.tokensIn, v.tokensOut)
  }

  /** The verdicts of the calls that returned, in order. */
  function Verdicts(calls: seq<Call>): seq<Vote> {
    if calls == [] then []
    else Verdicts(calls[..|calls| - 1]) + (match calls[|calls| - 1] case Some(v) => [v] case None => [])
  }

  function CostOf(prices: Prices, model: string, vs: seq<Vote>): real {
    if vs == [] then 0.0 else CostOf(prices, model, vs[..|vs| - 1]) + VoteCost(prices, model, vs[|vs| - 1])
  }

  function CountAll(votes: seq<seq<Vote>>): nat {
    if votes == [] then 0 else CountAll(votes[..|votes| - 1]) + |votes[|votes| - 1]|
  }

  function CostAll(prices: Prices, model: string, votes: seq<seq<Vote>>): real {
    if votes == [] then 0.0
    else CostAll(prices, model, votes[..|votes| - 1]) + CostOf(prices, model, votes[|votes| - 1])
  }

  lemma {:induction false} OneMoreVote(prices: Prices, model: string, votes: seq<seq<Vote>>, i: nat, v: Vote)
    requires i < |votes|
    ensures var more := votes[i := votes[i] + [v]];
      && CountAll(more) == CountAll(votes) + 1
      && CostAll(prices, model, more) == CostAll(prices, model, votes) + VoteCost(prices, model, v)
  {
    hide VoteCost;
    var n := |votes| - 1;
    var more := votes[i := votes[i] + [v]];
    if i < n {
      OneMoreVote(prices, model, votes[..n], i, v);
      assert more[..n] == votes[..n][i := votes[..n][i] + [v]];
    } else {
      assert more[..n] == votes[..n];
      assert (votes[i] + [v])[..|votes[i]|] == votes[i];
    }
  }

  datatype Outcome = Completed | CapReached | CapProjected | Raised | Outage | DiskError | Dead

  /** The calls `ledger` has booked: its one row's count. */
  function Calls(rows: Rows, model: string): int {
    if ("judge", model) in rows then rows[("judge", model)].calls else 0
  }

  /** The ledger holds one call, at its price, for every vote. */
  predicate Balanced(rows: Rows, model: string, votes: seq<seq<Vote>>) {
    Calls(rows, model) == CountAll(votes)
  }

  ghost predicate Paid(prices: Prices, rows: Rows, model: string, votes: seq<seq<Vote>>) {
    Balanced(rows, model, votes) && UsdOf(prices, rows) == CostAll(prices, model, votes)
  }

  lemma PayOne(prices: Prices, rows: Rows, model: string, votes: seq<seq<Vote>>, i: nat, v: Vote)
    requires Paid(prices, rows, model, votes) && i < |votes|
    ensures Paid(prices, Added(rows, ("judge", model), v.tokensIn, v.tokensOut), model, votes[i := votes[i] + [v]])
  {
    OneMoreVote(prices, model, votes, i, v);
    AddedUsd(prices, rows, ("judge", model), v.tokensIn, v.tokensOut);
  }

  lemma NextVerdict(prices: Prices, model: string, calls: seq<Call>, j: nat)
    requires j < |calls|
    ensures Verdicts(calls[..j + 1]) == Verdicts(calls[..j]) + (match calls[j] case Some(v) => [v] case None => [])
    ensures CostOf(prices, model, Verdicts(calls[..j + 1])) == CostOf(prices, model, Verdicts(calls[..j]))
      + (match calls[j] case Some(v) => VoteCost(prices, model, v) case None => 0.0)
  {
    assert calls[..j + 1][..j] == calls[..j];
    var before := Verdicts(calls[..j]);
    match calls[j]
    case Some(v) => assert (before + [v])[..|before|] == before;
    case None => assert Verdicts(calls[..j + 1]) == before;
  }

  lemma {:induction false} VerdictsFewer(calls: seq<Call>)
    ensures |Verdicts(calls)| <= |calls|
    ensures |Verdicts(calls)| == |calls| <==> forall c | c in calls :: c.Some?
  {
    if calls != [] {
      var n := |calls| - 1;
      VerdictsFewer(calls[..n]);
      assert calls == calls[..n] + [calls[n]];
      assert calls[n] in calls && forall c | c in calls[..n] :: c in calls;
      assert forall c | c in calls :: c in calls[..n] || c == calls[n];
    }
  }

  /** The vote a call gives its pair, if it returned. */
  function Given(call: Call): seq<Vote> {
    match call case Some(v) => [v] case None => []
  }

  /** What `votes[i]` gains from a chunk's calls, the first of them for pair
      `from`. */
  function Gained(calls: seq<Call>, from: nat, i: nat): seq<Vote> {
    if from <= i < from + |calls| then Given(calls[i - from]) else []
  }

  /** Book the chunk's returned calls in both ledgers and give each vote to its
      own pair. */
  method BookCalls(ledger: Ledger, spent: Ledger, model: string, votes: array<seq<Vote>>, from: nat, calls: seq<Call>)
    requires ledger != spent && spent.prices == ledger.prices && spent.rows == map[]
    requires from + |calls| <= votes.Length && Paid(ledger.prices, ledger.rows, model, votes[..])
    modifies ledger`rows, spent`rows, votes
    ensures Paid(ledger.prices, ledger.rows, model, votes[..])
    ensures var cost := CostOf(ledger.prices, model, Verdicts(calls));
      spent.Total() == cost && ledger.Total() == old(ledger.Total()) + cost
    ensures forall i | 0 <= i < votes.Length :: votes[i] == old(votes[i]) + Gained(calls, from, i)
  {
    hide Paid, VoteCost, Cost, UsdOf, Verdicts, CostOf, Added;
    SpentNothing(ledger.prices, model);
    for j := 0 to |calls|
      invariant Paid(ledger.prices, ledger.rows, model, votes[..])
      invariant spent.Total() == CostOf(ledger.prices, model, Verdicts(calls[..j]))
      invariant ledger.Total() == old(ledger.Total()) + spent.Total()
      invariant forall i | 0 <= i < votes.Length ::
        votes[i] == old(votes[i]) + if i < from + j then Gained(calls, from, i) else []
    {
      NextVerdict(ledger.prices, model, calls, j);
      if calls[j].Some? {
        var v := calls[j].value;
        VoteCosts(ledger.prices, model, v);
        PayOne(ledger.prices, ledger.rows, model, votes[..], from + j, v);
        ghost var before := votes[..];
        ledger.Add("judge", model, v.tokensIn, v.tokensOut);
        spent.Add("judge", model, v.tokensIn, v.tokensOut);
        votes[from + j] := votes[from + j] + [v];
        assert votes[..] == before[from + j := before[from + j] + [v]];
      }
    }
    assert calls[..|calls|] == calls;
  }

  lemma SpentNothing(prices: Prices, model: string)
    ensures UsdOf(prices, map[]) == 0.0 && CostOf(prices, model, Verdicts([])) == 0.0
  {
  }

  lemma VoteCosts(prices: Prices, model: string, v: Vote)
    ensures VoteCost(prices, model, v) == Cost(prices, model, v.tokensIn, v.tokensOut)
  {
  }

  /** One chunk: mark, send, book in memory, book on disk. `calls` is what
      became of its requests. */
  method SendChunk(dir: RunDir, ledger: Ledger, model: string, votes: array<seq<Vote>>, from: nat, size: nat)
    returns (stop: Option<Outcome>, ghost calls: seq<Call>)
    requires 0 < size && from + size <= votes.Length && Paid(ledger.prices, ledger.rows, model, votes[..])
    requires dir.Valid() && !dir.mark
    modifies dir, ledger`rows, votes
    ensures dir.Valid() && |calls| <= size
    ensures dir.Returned() == old(dir.Returned()) + CostOf(ledger.prices, model, Verdicts(calls))
    ensures stop != Some(Dead) ==>
      && Paid(ledger.prices, ledger.rows, model, votes[..])
      && ledger.Total() == old(ledger.Total()) + CostOf(ledger.prices, model, Verdicts(calls))
    ensures stop != Some(Completed) && stop != Some(CapReached) && stop != Some(CapProjected)
    ensures stop.None? ==> !dir.mark && |calls| == size
    ensures stop.None? ==> forall c | c in calls :: c.Some?
    ensures stop == Some(Raised) ==> exists c | c in calls :: c.None?
    ensures stop.None? && size > 1 ==> exists c | c in calls :: c.value.verdict != "failed"
    ensures stop == Some(Outage) ==> size > 1 && forall c | c in calls :: c.Some? && c.value.verdict == "failed"
    ensures stop != Some(Dead) ==>
      forall i | 0 <= i < votes.Length :: votes[i] == old(votes[i]) + Gained(calls, from, i)
  {
    hide Paid, UsdOf, Verdicts, CostOf, Logged, Rounded, Sum, Round4;
    calls := [];
    SpentNothing(ledger.prices, model);
    var fate := dir.OweSpend();
    match fate {
      case Failed => return Some(DiskError), [];
      case Killed => return Some(Dead), [];
      case Fine =>
    }
    var futures: seq<Call> := AnyCalls(size);
    calls := futures;
    dir.owed := CostOf(ledger.prices, model, Verdicts(futures));
    if * { return Some(Dead), futures; }
    var spent := new Ledger(ledger.prices);
    BookCalls(ledger, spent, model, votes, from, futures);
    VerdictsFewer(futures);
    stop := None;
    if exists c | c in futures :: c.None? {
      stop := Some(Raised);
    } else if size > 1 && forall c | c in futures :: c.Some? && c.value.verdict == FAILED {
      stop := Some(Outage);
    }
    var usd := spent.Usd();
    fate := dir.BookSpend(usd);
    match fate {
      case Failed => stop := Some(DiskError);
      case Killed => stop := Some(Dead);
      case Fine =>
    }
  }

  method AnyCalls(size: nat) returns (calls: seq<Call>)
    ensures |calls| == size
  {
    calls := [];
    while |calls| < size
      invariant |calls| <= size
    {
      var call: Call := *;
      calls := calls + [call];
    }
  }

  function Min(a: nat, b: nat): nat { if a < b then a else b }

  // ----- The projection

  datatype Chunk = Chunk(size: nat, cost: real)

  function Size(chunks: seq<Chunk>): nat {
    if chunks == [] then 0 else Size(chunks[..|chunks| - 1]) + chunks[|chunks| - 1].size
  }

  function Spent(chunks: seq<Chunk>): real {
    if chunks == [] then 0.0 else Spent(chunks[..|chunks| - 1]) + chunks[|chunks| - 1].cost
  }

  /** What the whole eval will cost if it goes on as the first chunk did. */
  function Projected(usd: real, done: nat, total: nat): real
    requires done > 0
  {
    usd / done as real * total as real
  }

  /** No chunk's mean call costs over `mean`. */
  predicate Within(chunks: seq<Chunk>, mean: real) {
    forall c | c in chunks :: c.cost <= mean * c.size as real
  }

  lemma {:induction false} SpentWithin(chunks: seq<Chunk>, mean: real)
    requires Within(chunks, mean)
    ensures Spent(chunks) <= mean * Size(chunks) as real
  {
    if chunks != [] {
      var n := |chunks| - 1;
      SpentWithin(chunks[..n], mean);
      assert chunks[n] in chunks;
    }
  }

  /** A run the projection admits does not trip the cap later, as long as no
      chunk's mean call costs over the headroom's 10 % more than the first's. */
  lemma HeadroomSuffices(chunks: seq<Chunk>, total: nat, maxUsd: real)
    requires chunks != [] && chunks[0].size > 0 && maxUsd > 0.0
    requires Projected(chunks[0].cost, chunks[0].size, total) * 1.1 <= maxUsd
    requires Within(chunks, chunks[0].cost / chunks[0].size as real * 1.1) && Size(chunks) < total
    ensures Spent(chunks) < maxUsd
  {
    hide Spent, Size, Within;
    var first := chunks[0].cost / chunks[0].size as real;
    SpentWithin(chunks, first * 1.1);
    UnderCap(first, Size(chunks), total, maxUsd);
  }

  lemma UnderCap(first: real, size: nat, total: nat, maxUsd: real)
    requires size < total && maxUsd > 0.0 && first * total as real * 1.1 <= maxUsd
    ensures first * 1.1 * size as real < maxUsd
  {
    var s, t := size as real, total as real;
    assert first * 1.1 * s == first * s * 1.1;
    if first > 0.0 { assert first * s < first * t; } else { assert first * s <= 0.0; }
  }

  /** The chunks an eval has paid for, the first of them let past by the
      projection unless it was all there was to buy. */
  ghost predicate Admitted(chunks: seq<Chunk>, done: nat, usd: real, total: nat, maxUsd: real) {
    && Spent(chunks) == usd && Size(chunks) == done
    && (forall c | c in chunks :: 0 < c.size <= SPEND_CHECK_EVERY)
    && (chunks != [] ==> maxUsd > 0.0)
    && (chunks != [] && chunks[0].size < total ==> Projected(chunks[0].cost, chunks[0].size, total) * 1.1 <= maxUsd)
  }

  /** Some chunk's mean call costs over the first's by more than the 10 %. */
  ghost predicate Dearer(chunks: seq<Chunk>) {
    && chunks != [] && chunks[0].size > 0
    && exists c | c in chunks :: c.cost > chunks[0].cost / chunks[0].size as real * 1.1 * c.size as real
  }

  lemma NothingAdmitted(total: nat, maxUsd: real)
    ensures Admitted([], 0, 0.0, total, maxUsd)
  {
  }

  lemma AdmitNext(chunks: seq<Chunk>, done: nat, usd: real, total: nat, maxUsd: real, size: nat, cost: real)
    requires Admitted(chunks, done, usd, total, maxUsd) && 0 < size <= SPEND_CHECK_EVERY && usd < maxUsd
    requires chunks == [] && size < total ==> Projected(cost, size, total) * 1.1 <= maxUsd
    ensures Admitted(chunks + [Chunk(size, cost)], done + size, usd + cost, total, maxUsd)
  {
    hide Projected;
    var more := chunks + [Chunk(size, cost)];
    assert more[..|chunks|] == chunks;
    assert chunks != [] ==> more[0] == chunks[0];
  }

  lemma FirstOfMany(chunks: seq<Chunk>)
    requires chunks != [] && forall c | c in chunks :: 0 < c.size
    ensures 0 < chunks[0].size <= Size(chunks) && (chunks[0].size == Size(chunks) ==> |chunks| == 1)
  {
    if |chunks| > 1 {
      var n := |chunks| - 1;
      assert chunks[n] in chunks && forall c | c in chunks[..n] :: c in chunks;
      FirstOfMany(chunks[..n]);
    } else {
      assert chunks[0] in chunks;
    }
  }

  /** Only a dearer chunk than the projection allows for trips the cap once
      something was bought. */
  lemma TrippedByDearer(chunks: seq<Chunk>, done: nat, usd: real, total: nat, maxUsd: real)
    requires Admitted(chunks, done, usd, total, maxUsd) && chunks != [] && done < total && usd >= maxUsd
    ensures Dearer(chunks)
  {
    FirstOfMany(chunks);
    if !Dearer(chunks) { HeadroomSuffices(chunks, total, maxUsd); }
  }

  // ----- Whose answer each vote is

  /** `answers[k]` is what became of the calls of pass `k`, pair by pair. Each
      vote of a pair is the answer to that pair in its pass, and every answer is
      a vote. */
  predicate Answered(votes: seq<seq<Vote>>, answers: seq<seq<Call>>) {
    && (forall i, k | 0 <= i < |votes| && 0 <= k < |votes[i]| ::
          k < |answers| && i < |answers[k]| && answers[k][i] == Some(votes[i][k]))
    && (forall k, i | 0 <= k < |answers| && 0 <= i < |answers[k]| && answers[k][i].Some? ::
          i < |votes| && k < |votes[i]|)
  }

  /** Pass `k` has reached pair `i`; before it no call was lost. */
  predicate Reached(votes: seq<seq<Vote>>, answers: seq<seq<Call>>, k: nat, i: nat) {
    && Answered(votes, answers) && |answers| == k + 1
    && (forall p | 0 <= p < k :: |answers[p]| == |votes|) && |answers[k]| == i <= |votes|
    && forall j | 0 <= j < |votes| :: |votes[j]| == if j < i then k + 1 else k
  }

  lemma NextAnswers(votes: seq<seq<Vote>>, votes': seq<seq<Vote>>, answers: seq<seq<Call>>, k: nat, i: nat,
                    calls: seq<Call>)
    requires Reached(votes, answers, k, i) && |votes'| == |votes| && i + |calls| <= |votes|
    requires forall j | 0 <= j < |votes| :: votes'[j] == votes[j] + Gained(calls, i, j)
    ensures var more := answers[k := answers[k] + calls];
      && Answered(votes', more)
      && ((forall c | c in calls :: c.Some?) ==> Reached(votes', more, k, i + |calls|))
  {
    var more := answers[k := answers[k] + calls];
    forall j, p | 0 <= j < |votes'| && 0 <= p < |votes'[j]|
      ensures p < |more| && j < |more[p]| && more[p][j] == Some(votes'[j][p])
    {
      if p < |votes[j]| { assert answers[p][j] == Some(votes[j][p]); }
    }
    forall p, j | 0 <= p < |more| && 0 <= j < |more[p]| && more[p][j].Some?
      ensures j < |votes'| && p < |votes'[j]|
    {
      if p < k || j < i { assert answers[p][j] == more[p][j]; }
    }
  }

  lemma PassBegins(votes: seq<seq<Vote>>, answers: seq<seq<Call>>, k: nat)
    requires Answered(votes, answers) && |answers| == k
    requires (forall p | 0 <= p < k :: |answers[p]| == |votes|) && forall j | 0 <= j < |votes| :: |votes[j]| == k
    ensures Reached(votes, answers + [[]], k, 0)
  {
  }

  lemma ReachedSo(votes: seq<seq<Vote>>, answers: seq<seq<Call>>, k: nat, i: nat)
    requires Reached(votes, answers, k, i)
    ensures Answered(votes, answers) && |answers| == k + 1
    ensures forall p | 0 <= p < k :: |answers[p]| == |votes|
    ensures |answers[k]| == i && forall j | 0 <= j < |votes| :: |votes[j]| == if j < i then k + 1 else k
  {
    hide Answered;
  }

  lemma NothingAnswered(votes: seq<seq<Vote>>)
    requires forall j | 0 <= j < |votes| :: votes[j] == []
    ensures Answered(votes, [])
  {
  }

  // ----- The whole eval

  /** Fill `votes` with `passes` verdicts a pair, stopping at the cap, at an
      error or when killed. `last` is what became of the last chunk's calls,
      `chunks` the chunks paid for. */
  method JudgePasses(dir: RunDir, ledger: Ledger, model: string, passes: nat, maxUsd: real, votes: array<seq<Vote>>)
    returns (outcome: Outcome, ghost last: seq<Call>, ghost chunks: seq<Chunk>, ghost answers: seq<seq<Call>>)
    requires dir.Valid() && !dir.mark
    requires ledger.rows == map[] && forall i | 0 <= i < votes.Length :: votes[i] == []
    modifies dir, ledger`rows, votes
    ensures dir.Valid() && |last| <= 20
    ensures outcome != Dead ==>
      && Paid(ledger.prices, ledger.rows, model, votes[..])
      && dir.Returned() == old(dir.Returned()) + ledger.Total()
    ensures outcome == Completed ==>
      && !dir.mark && |answers| == passes
      && forall i | 0 <= i < votes.Length :: |votes[i]| == passes
    ensures outcome != Dead ==> Answered(votes[..], answers)
    ensures last == [] ==> dir.Returned() == old(dir.Returned())
    ensures last != [] ==>
      dir.Returned() - CostOf(ledger.prices, model, Verdicts(last)) < old(dir.Returned()) + maxUsd
    ensures outcome == CapReached || outcome == Completed ==> Spent(chunks) == ledger.Total()
    ensures outcome == CapReached ==> ledger.Total() >= maxUsd && (chunks == [] || Dearer(chunks))
    ensures outcome == CapProjected ==>
      && |answers| == 1 && 0 < |answers[0]| <= 20 && |answers[0]| < passes * votes.Length
      && Projected(ledger.Total(), |answers[0]|, passes * votes.Length) * 1.1 > maxUsd
  {
    hide Paid, UsdOf, CostOf, Verdicts, RunDir.Valid, RunDir.Returned, Admitted, Dearer, Spent, Projected, Times,
         Under, Gained, Answered, Reached;
    SpentNothing(ledger.prices, model);
    StartsPaid(ledger.prices, model, votes[..]);
    last, chunks, answers := [], [], [];
    NothingAnswered(votes[..]);
    var n := votes.Length;
    var total, done := Times(passes, n), 0;
    NothingAdmitted(total, maxUsd);
    NothingBought(n, maxUsd);
    for k := 0 to passes
      invariant dir.Valid() && !dir.mark && Paid(ledger.prices, ledger.rows, model, votes[..])
      invariant dir.Returned() == old(dir.Returned()) + ledger.Total()
      invariant done == Times(k, n) && Under(ledger.prices, model, last, ledger.Total(), maxUsd)
      invariant forall i | 0 <= i < n :: |votes[i]| == k
      invariant Answered(votes[..], answers) && |answers| == k && forall p | 0 <= p < k :: |answers[p]| == n
      invariant Admitted(chunks, done, ledger.Total(), total, maxUsd)
    {
      var i := 0;
      PassBegins(votes[..], answers, k);
      answers := answers + [[]];
      while i < n
        invariant dir.Valid() && !dir.mark && Paid(ledger.prices, ledger.rows, model, votes[..])
        invariant dir.Returned() == old(dir.Returned()) + ledger.Total()
        invariant done == Times(k, n) + Min(i, n) && Under(ledger.prices, model, last, ledger.Total(), maxUsd)
        invariant Reached(votes[..], answers, k, Min(i, n))
        invariant Admitted(chunks, done, ledger.Total(), total, maxUsd)
        decreases n - i
      {
        var usd := ledger.Usd();
        StillToBuy(k, n, i, passes);
        if usd >= maxUsd {
          CapTripped(chunks, done, usd, total, maxUsd);
          UnderAny(ledger.prices, model, last, usd, maxUsd);
          ReachedSo(votes[..], answers, k, i);
          return CapReached, last, chunks, answers;
        }
        var size := Min(SPEND_CHECK_EVERY, n - i);
        var stop: Option<Outcome>;
        ghost var calls;
        ghost var had := votes[..];
        ReachedSo(had, answers, k, i);
        stop, calls := SendChunk(dir, ledger, model, votes, i, size);
        if stop != Some(Dead) {
          NextAnswers(had, votes[..], answers, k, i, calls);
          answers := answers[k := answers[k] + calls];
        }
        OneMoreChunk(ledger.prices, model, last, calls, usd, maxUsd);
        if calls != [] { last := calls; }
        if stop.Some? { return stop.value, last, chunks, answers; }
        done := done + size;
        ghost var before := usd;
        usd := ledger.Usd();
        SizesAdmitted(chunks, done - size, before, total, maxUsd);
        if done == size && done < total && Projected(usd, done, total) * 1.1 > maxUsd {
          ReachedSo(votes[..], answers, k, i + size);
          FirstChunk(k, n, i, size, done, total, passes);
          return CapProjected, last, chunks, answers;
        }
        AdmitNext(chunks, done - size, before, total, maxUsd, size, usd - before);
        chunks := chunks + [Chunk(size, usd - before)];
        i := i + SPEND_CHECK_EVERY;
      }
      NextPass(k, n);
      ReachedSo(votes[..], answers, k, n);
    }
    UnderAny(ledger.prices, model, last, ledger.Total(), maxUsd);
    SizesAdmitted(chunks, done, ledger.Total(), total, maxUsd);
    outcome := Completed;
  }

  function Times(k: nat, n: nat): nat { k * n }

  /** What was spent, its last chunk left out, is below the cap. */
  ghost predicate Under(prices: Prices, model: string, last: seq<Call>, usd: real, maxUsd: real) {
    && |last| <= SPEND_CHECK_EVERY && (last == [] ==> usd == 0.0)
    && (last != [] ==> usd - CostOf(prices, model, Verdicts(last)) < maxUsd)
  }

  lemma NothingBought(n: nat, maxUsd: real)
    ensures Times(0, n) == 0
    ensures forall prices, model :: Under(prices, model, [], 0.0, maxUsd)
  {
    hide CostOf, Verdicts;
  }

  lemma UnderAny(prices: Prices, model: string, last: seq<Call>, usd: real, maxUsd: real)
    requires Under(prices, model, last, usd, maxUsd)
    ensures |last| <= SPEND_CHECK_EVERY && (last == [] ==> usd == 0.0)
    ensures last != [] ==> usd - CostOf(prices, model, Verdicts(last)) < maxUsd
  {
    hide CostOf, Verdicts;
  }

  /** One more chunk, begun below the cap, or stopped before its first call. */
  lemma OneMoreChunk(prices: Prices, model: string, last: seq<Call>, calls: seq<Call>, usd: real, maxUsd: real)
    requires Under(prices, model, last, usd, maxUsd) && usd < maxUsd && |calls| <= SPEND_CHECK_EVERY
    ensures var next := if calls != [] then calls else last;
      var after := usd + CostOf(prices, model, Verdicts(calls));
      && Under(prices, model, next, after, maxUsd)
      && |next| <= SPEND_CHECK_EVERY && (next == [] ==> after == 0.0)
      && (next != [] ==> after - CostOf(prices, model, Verdicts(next)) < maxUsd)
  {
    SpentNothing(prices, model);
    hide CostOf, Verdicts;
  }

  lemma StillToBuy(k: nat, n: nat, i: nat, passes: nat)
    requires k < passes && i < n
    ensures Times(k, n) + i < Times(passes, n)
  {
    assert (k + 1) * n <= passes * n;
  }

  lemma FirstChunk(k: nat, n: nat, i: nat, size: nat, done: nat, total: nat, passes: nat)
    requires done == Times(k, n) + i + size == size && i < n && total == Times(passes, n)
    ensures k == 0 && i == 0 && total == passes * n
  {
    assert k > 0 ==> k * n >= n;
  }

  lemma NextPass(k: nat, n: nat)
    ensures Times(k, n) + n == Times(k + 1, n)
  {
  }

  lemma CapTripped(chunks: seq<Chunk>, done: nat, usd: real, total: nat, maxUsd: real)
    requires Admitted(chunks, done, usd, total, maxUsd) && done < total && usd >= maxUsd
    ensures Spent(chunks) == usd && (chunks == [] || Dearer(chunks))
  {
    if chunks != [] { TrippedByDearer(chunks, done, usd, total, maxUsd); }
  }

  lemma SizesAdmitted(chunks: seq<Chunk>, done: nat, usd: real, total: nat, maxUsd: real)
    requires Admitted(chunks, done, usd, total, maxUsd)
    ensures Spent(chunks) == usd && (chunks == [] <==> done == 0)
    ensures done == 0 ==> usd == 0.0
  {
    hide Projected;
    if chunks != [] { FirstOfMany(chunks); }
  }

  lemma StartsPaid(prices: Prices, model: string, votes: seq<seq<Vote>>)
    requires forall i | 0 <= i < |votes| :: votes[i] == []
    ensures Paid(prices, map[], model, votes) && UsdOf(prices, map[]) == 0.0
  {
    NoVotes(prices, model, votes);
  }

  lemma {:induction false} NoVotes(prices: Prices, model: string, votes: seq<seq<Vote>>)
    requires forall i | 0 <= i < |votes| :: votes[i] == []
    ensures CountAll(votes) == 0 && CostAll(prices, model, votes) == 0.0
  {
    if votes != [] { NoVotes(prices, model, votes[..|votes| - 1]); }
  }

  // ----- One eval after another

  /** What the run's evals have spent, as the log tells it; `None` while a
      chunk is marked unbooked or a line is torn. */
  method RunSpent(dir: RunDir) returns (total: Option<real>)
    ensures total.Some? <==> !dir.mark && Torn !in dir.log
    ensures total.Some? ==> total.value == Sum(Logged(dir.log))
  {
    if dir.mark { return None; }
    var sum := 0.0;
    for i := 0 to |dir.log|
      invariant Torn !in dir.log[..i] && sum == Sum(Logged(dir.log[..i]))
    {
      assert dir.log[..i + 1][..i] == dir.log[..i];
      match dir.log[i] {
        case Torn =>
          assert dir.log[i] in dir.log;
          return None;
        case Entry(usd) =>
          var before := Logged(dir.log[..i]);
          assert (before + [usd])[..|before|] == before;
          sum := sum + usd;
      }
    }
    assert dir.log[..|dir.log|] == dir.log;
    total := Some(sum);
  }

  /** One eval of the run; `None` when it is refused. Whatever the run spent
      before, the total stays below the cap plus the last chunk, give or take
      the log's rounding. */
  method Eval(dir: RunDir, prices: Prices, model: string, pairs: nat, passes: nat, maxUsd: real)
    returns (outcome: Option<Outcome>, ghost last: seq<Call>)
    requires dir.Valid()
    modifies dir
    ensures dir.Valid() && |last| <= 20
    ensures outcome.None? || last == [] ==> dir.Returned() == old(dir.Returned())
    ensures old(dir.mark) ==> outcome.None?
    ensures last != [] ==>
      dir.Returned() - CostOf(prices, model, Verdicts(last)) < maxUsd + 0.00005 * |old(dir.booked)| as real
    ensures outcome == Some(Completed) ==> !dir.mark
  {
    last := [];
    var spent := RunSpent(dir);
    if spent.None? { return None, []; }
    LogTotalNear(dir.booked);
    var cap := maxUsd - spent.value;
    if cap <= 0.0 { return None, []; }
    var votes := new seq<Vote>[pairs](_ => []);
    var ledger := new Ledger(prices);
    var result;
    ghost var chunks, answers;
    result, last, chunks, answers := JudgePasses(dir, ledger, model, passes, cap, votes);
    outcome := Some(result);
  }

  datatype Plan = Plan(prices: Prices, model: string, pairs: nat, passes: nat, maxUsd: real)

  /** What befalls a run: an eval, or the operator's repair of a marked one. */
  datatype Act = EvalOf(plan: Plan) | Mend

  /** Any sequence of evals, each ending however it may, and of repairs between
      them: while no mark is there, the log's lines are the costs of all chunks
      with a call that returned, to four decimals, a crashed one's too. */
  method Evals(acts: seq<Act>) returns (dir: RunDir)
    ensures fresh(dir) && dir.Valid()
    ensures acts != [] && acts[|acts| - 1].Mend? ==> !dir.mark
    ensures !dir.mark ==>
      && Logged(dir.log) == Rounded(dir.booked) && Sum(dir.booked) == dir.Returned()
      && dir.Returned() - 0.00005 * |dir.booked| as real <= Sum(Logged(dir.log))
      && Sum(Logged(dir.log)) <= dir.Returned() + 0.00005 * |dir.booked| as real
  {
    dir := new RunDir();
    for i := 0 to |acts|
      invariant fresh(dir) && dir.Valid()
      invariant i > 0 && acts[i - 1].Mend? ==> !dir.mark
    {
      match acts[i] {
        case EvalOf(p) =>
          var outcome;
          ghost var last;
          outcome, last := Eval(dir, p.prices, p.model, p.pairs, p.passes, p.maxUsd);
        case Mend =>
          if dir.mark { dir.Repair(); }
      }
    }
    LogTotalNear(dir.booked);
  }

  // ----- When the log is exact

  /** A whole number of hundredths of a cent. */
  predicate Whole4(x: real) {
    (x * 10000.0).Floor as real == x * 10000.0
  }

  lemma NearestWhole(y: real)
    ensures Nearest(y) as real == y <==> y.Floor as real == y
  {
  }

  lemma Shifted(f: real, x: real)
    ensures f / 10000.0 == x <==> f == x * 10000.0
  {
  }

  lemma Round4Exact(x: real)
    ensures Round4(x) == x <==> Whole4(x)
  {
    NearestWhole(x * 10000.0);
    Shifted(Nearest(x * 10000.0) as real, x);
  }

  /** The log's total is the true one after the first `n` chunks. */
  predicate ExactAt(booked: seq<real>, n: nat)
    requires n <= |booked|
  {
    Sum(Rounded(booked[..n])) == Sum(booked[..n])
  }

  predicate ExactThroughout(booked: seq<real>) {
    forall n | 0 <= n <= |booked| :: ExactAt(booked, n)
  }

  /** The log's total is the true one after every chunk exactly when every
      chunk cost a whole number of hundredths of a cent: what is rounded away
      is lost to the cap. */
  lemma {:induction false} LogExactIff(booked: seq<real>)
    ensures ExactThroughout(booked) <==> forall x | x in booked :: Whole4(x)
  {
    hide Round4, Whole4;
    if booked == [] {
      assert Rounded(booked[..0]) == booked[..0];
    } else {
      var n := |booked| - 1;
      LogExactIff(booked[..n]);
      Round4Exact(booked[n]);
      ExactSplits(booked);
      if ExactThroughout(booked[..n]) { LastExact(booked); }
      hide ExactAt, ExactThroughout, Sum, Rounded;
      assert booked == booked[..n] + [booked[n]];
      assert forall x | x in booked :: x in booked[..n] || x == booked[n];
      assert forall x | x in booked[..n] :: x in booked;
    }
  }

  lemma LastExact(booked: seq<real>)
    requires booked != [] && ExactThroughout(booked[..|booked| - 1])
    ensures ExactAt(booked, |booked|) <==> Round4(booked[|booked| - 1]) == booked[|booked| - 1]
  {
    hide Round4;
    var n := |booked| - 1;
    assert ExactAt(booked[..n], n);
    assert booked[..n][..n] == booked[..n] && booked[..|booked|] == booked;
    assert Rounded(booked)[..n] == Rounded(booked[..n]);
  }

  lemma ExactSplits(booked: seq<real>)
    requires booked != []
    ensures ExactThroughout(booked) <==> ExactThroughout(booked[..|booked| - 1]) && ExactAt(booked, |booked|)
  {
    var n := |booked| - 1;
    forall m | 0 <= m <= n ensures ExactAt(booked[..n], m) <==> ExactAt(booked, m) {
      assert booked[..n][..m] == booked[..m];
    }
    hide ExactAt;
  }

  /** A chunk too cheap to round up is booked as free, however often it runs. */
  lemma {:induction false} CheapChunksVanish(n: nat)
    ensures Sum(Rounded(seq(n, _ => 0.00004))) == 0.0 && Sum(seq(n, _ => 0.00004)) == n as real * 0.00004
  {
    if n > 0 {
      CheapChunksVanish(n - 1);
      var xs: seq<real> := seq(n, _ => 0.00004);
      assert xs[..n - 1] == seq(n - 1, _ => 0.00004);
      assert Rounded(xs)[..n - 1] == Rounded(xs[..n - 1]);
    }
  }
}
