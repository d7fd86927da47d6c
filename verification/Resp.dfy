// Decoding a GRAPH.QUERY answer, against a printer of FalkorDB's compact form.

module Resp {
  import opened Wrappers
  import Json

  /** A RESP value. A bulk string that is not UTF-8 has no text, a double that
      JSON cannot hold no number. */
  datatype Value =
    | Nil
    | Int(i: int)
    | Bulk(text: Option<string>)
    | Simple(s: string)
    | Array(items: seq<Value>)
    | Boolean(b: bool)
    | Double(x: Option<real>)
    | Verbatim(text_: string)
    | Other

  datatype FalkorResult = FalkorResult(columns: seq<string>, rows: seq<seq<Json.Value>>, stats: map<string, string>)

  /** Parsing a float from text: `None` when it is no float, `Some(None)` for
      one that is not finite. */
  type FloatParser = string -> Option<Option<real>>

  // ----- Strings

  /** Surrounding double quotes taken off, when both are there. */
  function Unquoted(s: string): string {
    if |s| >= 2 && s[0] == '"' && s[|s| - 1] == '"' then s[1..|s| - 1] else s
  }

  function AsText(v: Value): Option<string> {
    match v
    case Bulk(Some(s)) => Some(Unquoted(s))
    case Simple(s) => Some(Unquoted(s))
    case _ => None
  }

  // ----- Cells

  function BareToJson(parse: FloatParser, v: Value): Result<Json.Value, string> {
    match v
    case Nil => Ok(Json.Null)
    case Int(i) => Ok(Json.Int(i))
    case Boolean(b) => Ok(Json.Bool(b))
    case Double(Some(x)) => Ok(Json.Float(x))
    case Double(None) => Err("non-finite f64")
    case Bulk(None) => Err("non-UTF-8 bulk string")
    case Bulk(Some(s)) =>
      (match parse(Unquoted(s))
       case Some(Some(x)) => Ok(Json.Float(x))
       case _ => Ok(Json.Str(Unquoted(s))))
    case Simple(s) => Ok(Json.Str(s))
    case Verbatim(t) => Ok(Json.Str(t))
    case Array(_) => Err("unsupported RESP value in result cell")
    case Other => Err("unsupported RESP value in result cell")
  }

  function CellToJson(parse: FloatParser, v: Value): Result<Json.Value, string>
    decreases v, 1
  {
    if v.Array? && |v.items| == 2 && v.items[0].Int? then CompactToJson(parse, v.items[0].i, v.items[1])
    else BareToJson(parse, v)
  }

  function CompactToJson(parse: FloatParser, typeId: int, inner: Value): Result<Json.Value, string>
    decreases inner, 2
  {
    if typeId == 1 then Ok(Json.Null)
    else if typeId == 2 then
      match AsText(inner)
      case Some(s) => Ok(Json.Str(s))
      case None => Err("compact string cell has non-string inner")
    else if typeId == 3 then BareToJsonOrInt(parse, inner)
    else if typeId == 4 then
      match inner
      case Boolean(b) => Ok(Json.Bool(b))
      case Bulk(Some(s)) => Ok(Json.Bool(s == "true"))
      case Bulk(None) => Err("non-UTF-8 bool cell")
      case _ => BareToJson(parse, inner)
    else if typeId == 5 then
      match inner
      case Bulk(Some(s)) =>
        (match parse(s)
         case Some(Some(x)) => Ok(Json.Float(x))
         case Some(None) => Err("non-finite f64")
         case None => Err("cannot parse as f64"))
      case Bulk(None) => Err("non-UTF-8 float cell")
      case _ => BareToJson(parse, inner)
    else if typeId == 6 && inner.Array? then
      match CellsToJson(parse, inner.items)
      case Ok(items) => Ok(Json.Arr(items))
      case Err(e) => Err(e)
    else BareToJson(parse, inner)
  }

  function BareToJsonOrInt(parse: FloatParser, inner: Value): Result<Json.Value, string> {
    match inner case Int(i) => Ok(Json.Int(i)) case _ => BareToJson(parse, inner)
  }

  /** Every cell, or the first one's error. */
  function CellsToJson(parse: FloatParser, cells: seq<Value>): Result<seq<Json.Value>, string>
    decreases cells, 0
  {
    if cells == [] then Ok([])
    else
      match CellToJson(parse, cells[0])
      case Err(e) => Err(e)
      case Ok(first) =>
        match CellsToJson(parse, cells[1..])
        case Err(e) => Err(e)
        case Ok(rest) => Ok([first] + rest)
  }

  // ----- The answer

  predicate LooksLikeHeaders(v: Value) {
    v.Array? &&
    (v.items == [] || (v.items[0].Array? && |v.items[0].items| == 2 && v.items[0].items[0].Int?))
  }

  function ParseColumns(headers: seq<Value>): Result<seq<string>, string> {
    if headers == [] then Ok([])
    else
      match headers[0]
      case Array(inner) =>
        if |inner| < 2 then Err("header must have at least 2 elements")
        else
          (match AsText(inner[1])
           case None => Err("column name must be a string")
           case Some(name) =>
             match ParseColumns(headers[1..])
             case Err(e) => Err(e)
             case Ok(rest) => Ok([name] + rest))
      case _ => Err("each header must be an array")
  }

  function ParseRows(parse: FloatParser, rows: seq<Value>, columns: nat): Result<seq<seq<Json.Value>>, string> {
    if rows == [] then Ok([])
    else
      match rows[0]
      case Array(cells) =>
        if columns > 0 && |cells| != columns then Err("row has the wrong number of cells")
        else
          (match CellsToJson(parse, cells)
           case Err(e) => Err(e)
           case Ok(row) =>
             match ParseRows(parse, rows[1..], columns)
             case Err(e) => Err(e)
             case Ok(rest) => Ok([row] + rest))
      case _ => Err("row must be an array")
  }

  /** The parts around the first ": ", if there is one. */
  function SplitOnce(s: string): Option<(string, string)> {
    if |s| < 2 then None
    else if s[0] == ':' && s[1] == ' ' then Some(("", s[2..]))
    else
      match SplitOnce(s[1..])
      case None => None
      case Some((k, v)) => Some(([s[0]] + k, v))
  }

  function StatLine(v: Value): Option<(string, string)> {
    match AsText(v)
    case None => None
    case Some(s) => SplitOnce(s)
  }

  function StatsOf(items: seq<Value>): map<string, string> {
    if items == [] then map[]
    else
      var before := StatsOf(items[..|items| - 1]);
      match StatLine(items[|items| - 1])
      case None => before
      case Some((k, v)) => before[k := v]
  }

  /** The stats loop; a line without ": " is passed over. */
  method ParseStats(items: seq<Value>) returns (stats: map<string, string>)
    ensures stats == StatsOf(items)
  {
    stats := map[];
    for i := 0 to |items|
      invariant stats == StatsOf(items[..i])
    {
      assert items[..i + 1][..i] == items[..i];
      var line := StatLine(items[i]);
      if line.Some? { stats := stats[line.value.0 := line.value.1]; }
    }
    assert items[..|items|] == items;
  }

  /** `n` in decimal. */
  function Decimal(n: nat): string {
    if n < 10 then [('0' as int + n) as char] else Decimal(n / 10) + [('0' as int + n % 10) as char]
  }

  function ColumnNames(n: nat): seq<string> {
    seq(n, i requires 0 <= i < n => "col" + Decimal(i))
  }

  function Parse(parse: FloatParser, v: Value): Result<FalkorResult, string> {
    if !v.Array? then Err("expected top-level array")
    else if |v.items| == 1 then
      if !v.items[0].Array? then Err("stats must be an array")
      else Ok(FalkorResult([], [], StatsOf(v.items[0].items)))
    else if |v.items| == 2 then
      if !v.items[1].Array? then Err("stats must be an array")
      else ParseTwo(parse, v.items[0], StatsOf(v.items[1].items))
    else if |v.items| == 3 then ParseThree(parse, v.items[0], v.items[1], v.items[2])
    else Err("unexpected top-level array length")
  }

  function ParseTwo(parse: FloatParser, v: Value, stats: map<string, string>): Result<FalkorResult, string> {
    if LooksLikeHeaders(v) then
      match ParseColumns(v.items)
      case Err(e) => Err(e)
      case Ok(columns) => Ok(FalkorResult(columns, [], stats))
    else if !v.Array? then Err("result set must be an array")
    else
      match ParseRows(parse, v.items, 0)
      case Err(e) => Err(e)
      case Ok(rows) => Ok(FalkorResult(ColumnNames(if rows == [] then 0 else |rows[0]|), rows, stats))
  }

  function ParseThree(parse: FloatParser, headers: Value, rows: Value, stats: Value): Result<FalkorResult, string> {
    if !headers.Array? then Err("headers must be an array")
    else
      match ParseColumns(headers.items)
      case Err(e) => Err(e)
      case Ok(columns) =>
        if !rows.Array? then Err("result set must be an array")
        else
          match ParseRows(parse, rows.items, |columns|)
          case Err(e) => Err(e)
          case Ok(parsed) =>
            if !stats.Array? then Err("stats must be an array")
            else Ok(FalkorResult(columns, parsed, StatsOf(stats.items)))
  }

  // ----- A printer: typed cells or bare ones, each string quoted or not

  /** How a string goes out: in double quotes, as compact mode sends it, or
      bare, as a bulk or a simple string. */
  datatype Style = QuotedBulk | BareBulk | BareSimple

  datatype Text = Text(s: string, style: Style)

  /** A value sent without a type. `DoubleS(None)` is not finite. */
  datatype Scalar = NilS | IntS(i: int) | BoolS(b: bool) | DoubleS(x: Option<real>) | StrS(text: Text)

  /** A cell under its type id, or bare. A boolean goes out as such or as text, a
      double as such or as the text of its number; `LaterCell` is of one of
      the types, 7 on, that the decoder does not know. */
  datatype Cell =
    | NullCell
    | StrCell(text: Text)
    | IntCell(i: int)
    | BoolCell(b: bool, asText: bool)
    | DoubleCell(x: Option<real>)
    | FloatCell(y: real, t: string)
    | ArrCell(cells: seq<Cell>)
    | LaterCell(kind: nat, s: Scalar)
    | BareCell(s: Scalar)

  datatype Stat = Stat(key: string, value: string, style: Style)

  function Quoted(s: string): string {
    "\"" + s + "\""
  }

  function PrintText(t: Text): Value {
    match t.style
    case QuotedBulk => Bulk(Some(Quoted(t.s)))
    case BareBulk => Bulk(Some(t.s))
    case BareSimple => Simple(t.s)
  }

  function PrintScalar(s: Scalar): Value {
    match s
    case NilS => Nil
    case IntS(i) => Int(i)
    case BoolS(b) => Boolean(b)
    case DoubleS(x) => Double(x)
    case StrS(t) => PrintText(t)
  }

  function PrintCell(c: Cell): Value {
    match c
    case NullCell => Array([Int(1), Nil])
    case StrCell(t) => Array([Int(2), PrintText(t)])
    case IntCell(i) => Array([Int(3), Int(i)])
    case BoolCell(b, asText) =>
      Array([Int(4), if asText then Bulk(Some(if b then "true" else "false")) else Boolean(b)])
    case DoubleCell(x) => Array([Int(5), Double(x)])
    case FloatCell(_, t) => Array([Int(5), Bulk(Some(t))])
    case ArrCell(cells) => Array([Int(6), Array(PrintCells(cells))])
    case LaterCell(kind, s) => Array([Int(7 + kind), PrintScalar(s)])
    case BareCell(s) => PrintScalar(s)
  }

  function PrintCells(cells: seq<Cell>): seq<Value> {
    if cells == [] then [] else [PrintCell(cells[0])] + PrintCells(cells[1..])
  }

  function PrintRows(rows: seq<seq<Cell>>): seq<Value> {
    if rows == [] then [] else [Array(PrintCells(rows[0]))] + PrintRows(rows[1..])
  }

  function PrintHeaders(columns: seq<Text>): seq<Value> {
    if columns == [] then [] else [Array([Int(1), PrintText(columns[0])])] + PrintHeaders(columns[1..])
  }

  function Line(stat: Stat): Text {
    Text(stat.key + ": " + stat.value, stat.style)
  }

  function PrintStats(stats: seq<Stat>): seq<Value> {
    seq(|stats|, i requires 0 <= i < |stats| => PrintText(Line(stats[i])))
  }

  function ScalarMeaning(s: Scalar): Json.Value {
    match s
    case NilS => Json.Null
    case IntS(i) => Json.Int(i)
    case BoolS(b) => Json.Bool(b)
    case DoubleS(x) => if x.Some? then Json.Float(x.value) else Json.Null
    case StrS(t) => Json.Str(t.s)
  }

  /** The JSON a cell stands for. */
  function Meaning(c: Cell): Json.Value {
    match c
    case NullCell => Json.Null
    case StrCell(t) => Json.Str(t.s)
    case IntCell(i) => Json.Int(i)
    case BoolCell(b, _) => Json.Bool(b)
    case DoubleCell(x) => if x.Some? then Json.Float(x.value) else Json.Null
    case FloatCell(y, _) => Json.Float(y)
    case ArrCell(cells) => Json.Arr(Meanings(cells))
    case LaterCell(_, s) => ScalarMeaning(s)
    case BareCell(s) => ScalarMeaning(s)
  }

  function Meanings(cells: seq<Cell>): seq<Json.Value> {
    if cells == [] then [] else [Meaning(cells[0])] + Meanings(cells[1..])
  }

  function RowMeanings(rows: seq<seq<Cell>>): seq<seq<Json.Value>> {
    if rows == [] then [] else [Meanings(rows[0])] + RowMeanings(rows[1..])
  }

  function Names(columns: seq<Text>): seq<string> {
    if columns == [] then [] else [columns[0].s] + Names(columns[1..])
  }

  /** The last value given for each key. */
  function Latest(stats: seq<(string, string)>): map<string, string> {
    if stats == [] then map[]
    else Latest(stats[..|stats| - 1])[stats[|stats| - 1].0 := stats[|stats| - 1].1]
  }

  function Pairs(stats: seq<Stat>): seq<(string, string)> {
    seq(|stats|, i requires 0 <= i < |stats| => (stats[i].key, stats[i].value))
  }

  // ----- What the stripping of quotes takes away

  /** Begins and ends with a double quote, two of them. */
  predicate LooksQuoted(s: string) {
    |s| >= 2 && s[0] == '"' && s[|s| - 1] == '"'
  }

  /** Quoted by the printer, or bare and not looking quoted. */
  predicate Legible(t: Text) {
    t.style.QuotedBulk? || !LooksQuoted(t.s)
  }

  /** A bare string comes back as one when it is legible and reads as no finite
      number; a simple string is never touched. */
  predicate LegibleScalar(parse: FloatParser, s: Scalar) {
    s.StrS? && !s.text.style.BareSimple? ==>
      Legible(s.text) && (parse(s.text.s).Some? ==> parse(s.text.s).value.None?)
  }

  predicate LegibleCell(parse: FloatParser, c: Cell) {
    match c
    case StrCell(t) => Legible(t)
    case FloatCell(y, t) => parse(t) == Some(Some(y))
    case ArrCell(cells) => LegibleCells(parse, cells)
    case LaterCell(_, s) => LegibleScalar(parse, s)
    case BareCell(s) => LegibleScalar(parse, s)
    case _ => true
  }

  predicate LegibleCells(parse: FloatParser, cells: seq<Cell>) {
    cells == [] || (LegibleCell(parse, cells[0]) && LegibleCells(parse, cells[1..]))
  }

  predicate LegibleRows(parse: FloatParser, rows: seq<seq<Cell>>) {
    rows == [] || (LegibleCells(parse, rows[0]) && LegibleRows(parse, rows[1..]))
  }

  /** Every double in it is a finite number. */
  predicate Finite(parse: FloatParser, c: Cell) {
    match c
    case DoubleCell(x) => x.Some?
    case FloatCell(_, t) => parse(t).Some? && parse(t).value.Some?
    case ArrCell(cells) => AllFinite(parse, cells)
    case LaterCell(_, s) => s.DoubleS? ==> s.x.Some?
    case BareCell(s) => s.DoubleS? ==> s.x.Some?
    case _ => true
  }

  predicate AllFinite(parse: FloatParser, cells: seq<Cell>) {
    cells == [] || (Finite(parse, cells[0]) && AllFinite(parse, cells[1..]))
  }

  predicate RowsFinite(parse: FloatParser, rows: seq<seq<Cell>>) {
    rows == [] || (AllFinite(parse, rows[0]) && RowsFinite(parse, rows[1..]))
  }

  predicate LegibleNames(columns: seq<Text>) {
    columns == [] || (Legible(columns[0]) && LegibleNames(columns[1..]))
  }

  predicate LegibleStats(stats: seq<Stat>) {
    forall i | 0 <= i < |stats| :: Legible(Line(stats[i]))
  }

  /** A string comes back exactly when it went out in quotes or does not itself
      begin and end with one. */
  lemma TextIff(t: Text)
    ensures AsText(PrintText(t)).Some? && (AsText(PrintText(t)) == Some(t.s) <==> Legible(t))
  {
    var q := Quoted(t.s);
    assert q[1..|q| - 1] == t.s;
    if LooksQuoted(t.s) { assert |t.s[1..|t.s| - 1]| == |t.s| - 2; }
  }

  // ----- Cells and rows

  /** What an untyped value is read as: nothing but a double that is not finite
      is refused, and what comes back is what went out except that a bulk string
      that reads as a number is one. */
  lemma ScalarIff(parse: FloatParser, s: Scalar)
    ensures var r := BareToJson(parse, PrintScalar(s));
      && (r.Ok? <==> (s.DoubleS? ==> s.x.Some?))
      && (r.Ok? ==> (r.value == ScalarMeaning(s) <==> LegibleScalar(parse, s)))
    ensures s.StrS? && !s.text.style.BareSimple? && Legible(s.text) && parse(s.text.s).Some? ==>
      match parse(s.text.s).value
      case Some(x) => BareToJson(parse, PrintScalar(s)) == Ok(Json.Float(x))
      case None => BareToJson(parse, PrintScalar(s)) == Ok(Json.Str(s.text.s))
  {
    if s.StrS? { TextIff(s.text); }
  }

  /** What else may stand in a typed cell: a null is null whatever it holds, a
      string cell holds text or is refused, text that is not UTF-8 is refused,
      and the other types read what they do not expect as if it were bare. */
  lemma OddInners(parse: FloatParser, id: int, v: Value)
    ensures var r := CellToJson(parse, Array([Int(id), v]));
      && (id == 1 ==> r == Ok(Json.Null))
      && (id == 2 ==> (r.Ok? <==> v.Simple? || (v.Bulk? && v.text.Some?)))
      && (v == Bulk(None) && id != 1 ==> r.Err?)
      && (id == 3 || ((id == 4 || id == 5) && !v.Bulk?) || (id == 6 && !v.Array?) || id < 1 || id > 6 ==>
           r == BareToJson(parse, v))
    ensures BareToJson(parse, v).Err? <==> v == Bulk(None) || v == Double(None) || v.Array? || v.Other?
  {
  }

  /** A printed cell is decoded exactly when its doubles are finite, and to what
      it stands for exactly when every string in it is legible and the text of
      every float reads as it. */
  lemma {:induction false} CellIff(parse: FloatParser, c: Cell)
    ensures var r := CellToJson(parse, PrintCell(c));
      && (r.Ok? <==> Finite(parse, c))
      && (r.Ok? ==> (r.value == Meaning(c) <==> LegibleCell(parse, c)))
    decreases c, 1
  {
    hide BareToJson, AsText, PrintText, PrintScalar, Legible;
    match c
    case StrCell(t) => TextIff(t);
    case ArrCell(cells) => CellsIff(parse, cells);
    case LaterCell(kind, s) =>
      ScalarIff(parse, s);
      OddInners(parse, 7 + kind, PrintScalar(s));
    case BareCell(s) =>
      ScalarIff(parse, s);
      ScalarNoArray(s);
    case BoolCell(_, _) => ScalarIff(parse, BoolS(c.b));
    case DoubleCell(x) => DoubleIff(parse, x);
    case _ =>
  }

  lemma ScalarNoArray(s: Scalar)
    ensures !PrintScalar(s).Array?
  {
  }

  lemma DoubleIff(parse: FloatParser, x: Option<real>)
    ensures match x
            case Some(y) => BareToJson(parse, Double(x)) == Ok(Json.Float(y))
            case None => BareToJson(parse, Double(x)).Err?
  {
  }

  lemma {:induction false} CellsIff(parse: FloatParser, cells: seq<Cell>)
    ensures var r := CellsToJson(parse, PrintCells(cells));
      && (r.Ok? <==> AllFinite(parse, cells))
      && (r.Ok? ==> |r.value| == |cells| && (r.value == Meanings(cells) <==> LegibleCells(parse, cells)))
    ensures |PrintCells(cells)| == |cells|
    decreases cells, 0
  {
    if cells != [] {
      CellIff(parse, cells[0]);
      CellsIff(parse, cells[1..]);
      hide CellToJson, PrintCell, Meaning, LegibleCell, Finite;
      assert PrintCells(cells)[1..] == PrintCells(cells[1..]);
      var first, rest := CellToJson(parse, PrintCell(cells[0])), CellsToJson(parse, PrintCells(cells[1..]));
      if first.Ok? && rest.Ok? { SameHead(first.value, Meaning(cells[0]), rest.value, Meanings(cells[1..])); }
    }
  }

  lemma SameHead<T>(x: T, y: T, xs: seq<T>, ys: seq<T>)
    ensures [x] + xs == [y] + ys <==> x == y && xs == ys
  {
    assert ([x] + xs)[0] == x && ([x] + xs)[1..] == xs;
    assert ([y] + ys)[0] == y && ([y] + ys)[1..] == ys;
  }

  /** Each row has a cell per column, or no column is named. */
  predicate Fit(rows: seq<seq<Cell>>, columns: nat) {
    rows == [] || ((columns == 0 || |rows[0]| == columns) && Fit(rows[1..], columns))
  }

  /** Rows are read exactly when they fit the columns and their doubles are
      finite, and then come back exactly when every cell is legible. */
  lemma {:induction false} RowsIff(parse: FloatParser, rows: seq<seq<Cell>>, columns: nat)
    ensures var r := ParseRows(parse, PrintRows(rows), columns);
      && (r.Ok? <==> Fit(rows, columns) && RowsFinite(parse, rows))
      && (r.Ok? ==> |r.value| == |rows| && (r.value == RowMeanings(rows) <==> LegibleRows(parse, rows)))
  {
    hide CellsToJson, PrintCells, Meanings, LegibleCells, AllFinite;
    if rows != [] {
      CellsIff(parse, rows[0]);
      RowsIff(parse, rows[1..], columns);
      assert PrintRows(rows)[1..] == PrintRows(rows[1..]);
      var first, rest := CellsToJson(parse, PrintCells(rows[0])), ParseRows(parse, PrintRows(rows[1..]), columns);
      if first.Ok? && rest.Ok? { SameHead(first.value, Meanings(rows[0]), rest.value, RowMeanings(rows[1..])); }
    }
  }

  lemma {:induction false} NamesIff(columns: seq<Text>)
    ensures var r := ParseColumns(PrintHeaders(columns));
      r.Ok? && |r.value| == |columns| && (r.value == Names(columns) <==> LegibleNames(columns))
  {
    hide AsText, PrintText, Legible;
    if columns != [] {
      TextIff(columns[0]);
      NamesIff(columns[1..]);
      assert PrintHeaders(columns)[1..] == PrintHeaders(columns[1..]);
      var name := AsText(PrintText(columns[0])).value;
      SameHead(name, columns[0].s, ParseColumns(PrintHeaders(columns[1..])).value, Names(columns[1..]));
    }
  }

  // ----- Stats

  /** ": " occurs in `s`. */
  predicate HasSeparator(s: string) {
    exists i | 0 <= i < |s| - 1 :: s[i] == ':' && s[i + 1] == ' '
  }

  /** A line is split back into its key and value exactly when the key holds no
      separator of its own. */
  lemma {:induction false} SplitIff(k: string, v: string)
    ensures SplitOnce(k + ": " + v) == Some((k, v)) <==> !HasSeparator(k)
    decreases |k|
  {
    var s := k + ": " + v;
    if k == "" {
      assert s[2..] == v;
    } else {
      assert s[1..] == k[1..] + ": " + v;
      SplitIff(k[1..], v);
      if s[0] == ':' && s[1] == ' ' {
        assert |k| > 1 && k[0] == ':' && k[0 + 1] == ' ';
      } else {
        SeparatorLater(k);
        SplitAlways(k[1..], v);
        assert k == [k[0]] + k[1..];
      }
    }
  }

  lemma SeparatorLater(k: string)
    requires k != "" && !(|k| > 1 && k[0] == ':' && k[1] == ' ')
    ensures HasSeparator(k) <==> HasSeparator(k[1..])
  {
    if HasSeparator(k) {
      var i :| 0 <= i < |k| - 1 && k[i] == ':' && k[i + 1] == ' ';
      assert k[1..][i - 1] == ':' && k[1..][i - 1 + 1] == ' ';
    }
    if HasSeparator(k[1..]) {
      var i :| 0 <= i < |k[1..]| - 1 && k[1..][i] == ':' && k[1..][i + 1] == ' ';
      assert k[i + 1] == ':' && k[i + 1 + 1] == ' ';
    }
  }

  lemma {:induction false} SplitAlways(k: string, v: string)
    ensures SplitOnce(k + ": " + v).Some?
    decreases |k|
  {
    if k != "" {
      SplitAlways(k[1..], v);
      assert (k + ": " + v)[1..] == k[1..] + ": " + v;
    }
  }

  /** What a stat line is read back as: an illegible one loses the first
      character of its key and the last of its value. */
  function ReadBack(stat: Stat): (string, string) {
    if Legible(Line(stat)) || stat.key == "" || stat.value == "" then (stat.key, stat.value)
    else (stat.key[1..], stat.value[..|stat.value| - 1])
  }

  lemma QuotedParts(k: string, v: string)
    requires LooksQuoted(k + ": " + v)
    ensures k != "" && v != ""
  {
    var line := k + ": " + v;
    assert line[0] == (k + ":")[0];
    assert line[|line| - 1] == (" " + v)[|v|];
  }

  lemma TailSeparator(k: string)
    requires k != "" && HasSeparator(k[1..])
    ensures HasSeparator(k)
  {
    var i :| 0 <= i < |k[1..]| - 1 && k[1..][i] == ':' && k[1..][i + 1] == ' ';
    assert k[i + 1] == ':' && k[i + 1 + 1] == ' ';
  }

  lemma LineReads(stat: Stat)
    requires !HasSeparator(stat.key)
    ensures StatLine(PrintText(Line(stat))) == Some(ReadBack(stat))
    ensures !Legible(Line(stat)) ==> stat.key != "" && stat.value != ""
  {
    var k, v := stat.key, stat.value;
    var line := k + ": " + v;
    TextIff(Line(stat));
    if Legible(Line(stat)) {
      SplitIff(k, v);
    } else {
      QuotedParts(k, v);
      assert line[1..|line| - 1] == k[1..] + ": " + v[..|v| - 1];
      if HasSeparator(k[1..]) { TailSeparator(k); }
      SplitIff(k[1..], v[..|v| - 1]);
    }
  }

  function ReadBacks(stats: seq<Stat>): seq<(string, string)> {
    seq(|stats|, i requires 0 <= i < |stats| => ReadBack(stats[i]))
  }

  predicate Separate(stats: seq<Stat>) {
    forall stat | stat in stats :: !HasSeparator(stat.key)
  }

  predicate DistinctKeys(stats: seq<Stat>) {
    forall i, j | 0 <= i < j < |stats| :: stats[i].key != stats[j].key
  }

  lemma {:induction false} StatsRead(stats: seq<Stat>)
    requires Separate(stats)
    ensures StatsOf(PrintStats(stats)) == Latest(ReadBacks(stats))
  {
    hide HasSeparator, SplitOnce, AsText, PrintText, ReadBack, Line;
    if stats != [] {
      var n := |stats| - 1;
      StatsRead(stats[..n]);
      assert stats[n] in stats;
      LineReads(stats[n]);
      assert PrintStats(stats)[..n] == PrintStats(stats[..n]);
      assert ReadBacks(stats)[..n] == ReadBacks(stats[..n]);
    }
  }

  lemma {:induction false} SplitNone(s: string)
    ensures SplitOnce(s).None? <==> !HasSeparator(s)
  {
    if |s| >= 2 && s[0] == ':' && s[1] == ' ' {
      assert s[0] == ':' && s[0 + 1] == ' ';
    } else if |s| >= 2 {
      SplitNone(s[1..]);
      SeparatorLater(s);
    }
  }

  /** A line without a separator, and what is no text, is passed over. */
  lemma OtherLinesPassed(items: seq<Value>, v: Value)
    requires AsText(v).Some? ==> !HasSeparator(AsText(v).value)
    ensures StatsOf(items + [v]) == StatsOf(items)
  {
    if AsText(v).Some? { SplitNone(AsText(v).value); }
    assert (items + [v])[..|items|] == items;
  }

  lemma {:induction false} LatestKeys(pairs: seq<(string, string)>)
    ensures forall k :: k in Latest(pairs) <==> exists i | 0 <= i < |pairs| :: pairs[i].0 == k
  {
    if pairs != [] {
      var n := |pairs| - 1;
      LatestKeys(pairs[..n]);
      forall k ensures k in Latest(pairs) <==> exists i | 0 <= i < |pairs| :: pairs[i].0 == k {
        if k in Latest(pairs[..n]) {
          var i :| 0 <= i < n && pairs[..n][i].0 == k;
          assert pairs[i].0 == k;
        }
        if exists i | 0 <= i < |pairs| :: pairs[i].0 == k {
          var i :| 0 <= i < |pairs| && pairs[i].0 == k;
          assert i < n ==> pairs[..n][i].0 == k;
        }
      }
    }
  }

  /** Of the illegible lines, one with the longest key. */
  lemma {:induction false} Longest(stats: seq<Stat>) returns (i: nat)
    requires !LegibleStats(stats)
    ensures i < |stats| && !Legible(Line(stats[i]))
    ensures forall j | 0 <= j < |stats| && !Legible(Line(stats[j])) :: |stats[j].key| <= |stats[i].key|
  {
    hide Legible, Line;
    var n := |stats| - 1;
    if LegibleStats(stats[..n]) {
      i := n;
      assert forall j | 0 <= j < n :: stats[..n][j] == stats[j];
    } else {
      i := Longest(stats[..n]);
      assert forall j | 0 <= j < n :: stats[..n][j] == stats[j];
      if !Legible(Line(stats[n])) && |stats[n].key| > |stats[i].key| { i := n; }
    }
  }

  /** Stats under distinct keys come back exactly when every line is legible:
      the longest key among the illegible lines is read back under no name. */
  lemma StatsIff(stats: seq<Stat>)
    requires Separate(stats) && DistinctKeys(stats)
    ensures StatsOf(PrintStats(stats)) == Latest(Pairs(stats)) <==> LegibleStats(stats)
  {
    StatsRead(stats);
    if LegibleStats(stats) {
      assert ReadBacks(stats) == Pairs(stats);
    } else {
      var i := Longest(stats);
      LongestLost(stats, i);
    }
  }

  lemma LongestLost(stats: seq<Stat>, i: nat)
    requires Separate(stats) && DistinctKeys(stats) && i < |stats| && !Legible(Line(stats[i]))
    requires forall j | 0 <= j < |stats| && !Legible(Line(stats[j])) :: |stats[j].key| <= |stats[i].key|
    ensures stats[i].key in Latest(Pairs(stats)) && stats[i].key !in Latest(ReadBacks(stats))
  {
    LatestKeys(Pairs(stats));
    LatestKeys(ReadBacks(stats));
    assert Pairs(stats)[i].0 == stats[i].key;
    forall j | 0 <= j < |stats| ensures ReadBacks(stats)[j].0 != stats[i].key {
      assert stats[j] in stats;
      LineReads(stats[j]);
      hide Legible, Line, StatLine, PrintText;
    }
  }

  // ----- What is refused, and unnamed columns

  /** An answer is one to three arrays, the last one the stats; stats alone are
      a whole answer. */
  lemma ParsedShape(parse: FloatParser, v: Value)
    ensures Parse(parse, v).Ok? ==>
      v.Array? && 1 <= |v.items| <= 3 && forall part | part in v.items :: part.Array?
    ensures v.Array? && |v.items| == 1 && v.items[0].Array? ==>
      Parse(parse, v) == Ok(FalkorResult([], [], StatsOf(v.items[0].items)))
  {
  }

  /** Headers are read exactly when each is an array with text in second place. */
  lemma {:induction false} HeadersReadIff(headers: seq<Value>)
    ensures ParseColumns(headers).Ok? <==>
      forall h | h in headers :: h.Array? && |h.items| >= 2 && AsText(h.items[1]).Some?
  {
    hide AsText;
    if headers != [] {
      HeadersReadIff(headers[1..]);
      assert headers == [headers[0]] + headers[1..];
      assert forall h | h in headers :: h == headers[0] || h in headers[1..];
      assert headers[0] in headers;
    }
  }

  /** A row that is no array or has the wrong number of cells is refused. */
  lemma {:induction false} RowsReadOnlyIf(parse: FloatParser, rows: seq<Value>, columns: nat)
    requires ParseRows(parse, rows, columns).Ok?
    ensures forall row | row in rows :: row.Array? && (columns == 0 || |row.items| == columns)
  {
    hide CellsToJson;
    if rows != [] {
      RowsReadOnlyIf(parse, rows[1..], columns);
      assert rows == [rows[0]] + rows[1..];
    }
  }

  /** The number a string of digits writes. */
  function DecimalValue(s: string): int {
    if s == "" then 0 else DecimalValue(s[..|s| - 1]) * 10 + (s[|s| - 1] as int - '0' as int)
  }

  /** Unnamed columns are numbered in decimal, without leading zeros. */
  lemma {:induction false} DecimalReads(n: nat)
    ensures var s := Decimal(n); s != "" && DecimalValue(s) == n && forall c | c in s :: '0' <= c <= '9'
    ensures n > 0 ==> Decimal(n)[0] != '0'
  {
    if n >= 10 {
      DecimalReads(n / 10);
      var front, last := Decimal(n / 10), ('0' as int + n % 10) as char;
      assert (front + [last])[..|front|] == front;
    } else {
      assert Decimal(n)[..0] == "";
      assert DecimalValue("") == 0;
    }
  }

  lemma ColumnNumbered(n: nat, i: nat)
    requires i < n
    ensures |ColumnNames(n)| == n && |ColumnNames(n)[i]| > 3 && ColumnNames(n)[i][..3] == "col"
    ensures DecimalValue(ColumnNames(n)[i][3..]) == i
  {
    DecimalReads(i);
    assert ColumnNames(n)[i] == "col" + Decimal(i);
    assert ("col" + Decimal(i))[3..] == Decimal(i);
  }

  // ----- Whole answers

  predicate LegibleTable(parse: FloatParser, columns: seq<Text>, rows: seq<seq<Cell>>, stats: seq<Stat>) {
    LegibleNames(columns) && LegibleRows(parse, rows) && LegibleStats(stats)
  }

  /** A printed table is read back, the same columns, rows and stats, exactly
      when every row fits the columns, every double is finite, every number sent
      as text reads as itself and no string is lost to the stripping of quotes or
      taken for a number. It is refused exactly when a row does not fit or a
      double is not finite. */
  lemma TableRoundTrip(parse: FloatParser, columns: seq<Text>, rows: seq<seq<Cell>>, stats: seq<Stat>)
    requires Separate(stats) && DistinctKeys(stats)
    ensures var printed := Array([Array(PrintHeaders(columns)), Array(PrintRows(rows)), Array(PrintStats(stats))]);
      && (Parse(parse, printed).Ok? <==> Fit(rows, |columns|) && RowsFinite(parse, rows))
      && (Parse(parse, printed) == Ok(FalkorResult(Names(columns), RowMeanings(rows), Latest(Pairs(stats))))
          <==> Fit(rows, |columns|) && RowsFinite(parse, rows) && LegibleTable(parse, columns, rows, stats))
  {
    hide ParseColumns, ParseRows, StatsOf, PrintHeaders, PrintRows, PrintStats, RowMeanings, Latest, Pairs, Names;
    hide Fit, RowsFinite, LegibleNames, LegibleRows, LegibleStats, Separate, DistinctKeys;
    NamesIff(columns);
    RowsIff(parse, rows, |columns|);
    StatsIff(stats);
  }

  /** Headers and stats alone: the columns, no row, and the stats. */
  lemma HeadersRoundTrip(parse: FloatParser, columns: seq<Text>, stats: seq<Stat>)
    requires Separate(stats) && DistinctKeys(stats)
    ensures Parse(parse, Array([Array(PrintHeaders(columns)), Array(PrintStats(stats))]))
            == Ok(FalkorResult(Names(columns), [], Latest(Pairs(stats))))
            <==> LegibleNames(columns) && LegibleStats(stats)
  {
    HeadersAreHeaders(columns);
    hide ParseColumns, StatsOf, PrintHeaders, PrintStats, Latest, Pairs, Names, LooksLikeHeaders;
    hide LegibleNames, LegibleStats, Separate, DistinctKeys;
    NamesIff(columns);
    StatsIff(stats);
  }

  lemma HeadersAreHeaders(columns: seq<Text>)
    ensures LooksLikeHeaders(Array(PrintHeaders(columns)))
  {
  }

  /** Rows that begin with a row of two cells, the first a bare integer. */
  predicate Mistaken(rows: seq<seq<Cell>>) {
    rows != [] && |rows[0]| == 2 && rows[0][0].BareCell? && rows[0][0].s.IntS?
  }

  /** Rows and stats alone come back under numbered columns exactly when they
      would in a table and are not mistaken for headers; typed rows never are. */
  lemma RowsAloneRoundTrip(parse: FloatParser, rows: seq<seq<Cell>>, stats: seq<Stat>)
    requires rows != [] && Separate(stats) && DistinctKeys(stats)
    ensures Parse(parse, Array([Array(PrintRows(rows)), Array(PrintStats(stats))]))
            == Ok(FalkorResult(ColumnNames(|rows[0]|), RowMeanings(rows), Latest(Pairs(stats))))
            <==> !Mistaken(rows) && RowsFinite(parse, rows) && LegibleRows(parse, rows) && LegibleStats(stats)
  {
    MistakenIff(rows);
    AnyFit(rows);
    FirstRowLength(rows);
    hide ParseRows, ParseColumns, StatsOf, PrintRows, PrintStats, RowMeanings, Latest, Pairs, LooksLikeHeaders;
    hide LegibleRows, LegibleStats, RowsFinite, Separate, DistinctKeys, Fit, Meanings, Mistaken, ColumnNames;
    RowsIff(parse, rows, 0);
    StatsIff(stats);
  }

  lemma {:induction false} AnyFit(rows: seq<seq<Cell>>)
    ensures Fit(rows, 0)
  {
    if rows != [] { AnyFit(rows[1..]); }
  }

  lemma FirstRowLength(rows: seq<seq<Cell>>)
    requires rows != []
    ensures RowMeanings(rows) != [] && |RowMeanings(rows)[0]| == |rows[0]|
  {
    MeaningsLength(rows[0]);
  }

  lemma {:induction false} MeaningsLength(cells: seq<Cell>)
    ensures |Meanings(cells)| == |cells|
  {
    if cells != [] { MeaningsLength(cells[1..]); }
  }

  lemma MistakenIff(rows: seq<seq<Cell>>)
    requires rows != []
    ensures LooksLikeHeaders(Array(PrintRows(rows))) <==> Mistaken(rows)
  {
    var first := PrintRows(rows)[0];
    assert first == Array(PrintCells(rows[0]));
    PrintedLength(rows[0]);
    if rows[0] != [] { assert first.items[0] == PrintCell(rows[0][0]); }
  }

  lemma {:induction false} PrintedLength(cells: seq<Cell>)
    ensures |PrintCells(cells)| == |cells|
  {
    if cells != [] { PrintedLength(cells[1..]); }
  }

  lemma CompactRowsAreNoHeaders(rows: seq<seq<Cell>>)
    requires rows != [] && forall c | c in rows[0] :: !c.BareCell?
    ensures !LooksLikeHeaders(Array(PrintRows(rows)))
  {
    MistakenIff(rows);
  }

  /** Rows of bare cells are mistaken exactly when the first has two cells and
      begins with an integer; the table is then read as headers, or refused. */
  lemma BareRowsMistaken(rows: seq<seq<Value>>)
    requires rows != []
    ensures LooksLikeHeaders(Array(seq(|rows|, i requires 0 <= i < |rows| => Array(rows[i]))))
            <==> |rows[0]| == 2 && rows[0][0].Int?
  {
    var printed := seq(|rows|, i requires 0 <= i < |rows| => Array(rows[i]));
    assert printed[0] == Array(rows[0]);
  }

  /** A bare list never comes back as a list: it is refused unless it has the
      shape of a typed cell, and read as that cell's scalar when it has. */
  lemma BareListNeverRead(parse: FloatParser, items: seq<Value>)
    requires forall v | v in items :: !v.Array?
    ensures var r := CellToJson(parse, Array(items));
      (r.Ok? ==> |items| == 2 && items[0].Int? && !r.value.Arr?)
      && (|items| == 2 && items[0].Int? && items[0].i == 1 ==> r == Ok(Json.Null))
  {
    if |items| == 2 { assert items[1] in items; }
  }
}
