// Values shared by every part of the model: optional results and the JSON
// objects that Qdrant stores as a point's payload.

module Wrappers {
  datatype Option<+T> = None | Some(value: T)

  datatype Result<+T, +E> = Ok(value: T) | Err(error: E)
}

module Json {
  import opened Wrappers

  /** A payload or metadata key. The keys the server reads or writes are named
      apart from one another; `Named` is every other key. */
  datatype Key =
    | Content | ContentHash | Tags | MemoryType | CreatedAt | UpdatedAt
    | SalienceScore | AccessCount | AccessTimestamps | Metadata
    | Summary | SummaryEmbedding | EmotionalValence | EncodingContext
    | Provenance | NearestSimilarity | SupersessionReason | SupersessionLog
    | SupersededBy | LastConfirmedAt | FlatSupersededBy
    | Named(name: string)

  datatype Value =
    | Null
    | Bool(b: bool)
    | Int(n: int)
    | Float(x: real)
    | Str(s: string)
    | Arr(items: seq<Value>)
    | Obj(fields: map<Key, Value>)

  type Fields = map<Key, Value>

  function Get(f: Fields, k: Key): Option<Value> {
    if k in f then Some(f[k]) else None
  }

  function AsStr(v: Option<Value>): Option<string> {
    match v
    case Some(Str(s)) => Some(s)
    case _ => None
  }

  /** An unsigned integer; a float, even a whole one, is not. */
  function AsU64(v: Option<Value>): Option<nat> {
    match v
    case Some(Int(n)) => if n >= 0 then Some(n) else None
    case _ => None
  }

  function AsF64(v: Value): Option<real> {
    match v
    case Int(n) => Some(n as real)
    case Float(x) => Some(x)
    case _ => None
  }

  function Floats(xs: seq<real>): seq<Value> {
    seq(|xs|, i requires 0 <= i < |xs| => Float(xs[i]))
  }

  /** The numbers among `vs`, in order; anything else is dropped. */
  function Numbers(vs: seq<Value>): seq<real> {
    if vs == [] then []
    else (match AsF64(vs[0]) case Some(x) => [x] case None => []) + Numbers(vs[1..])
  }

  lemma {:induction false} NumbersOfFloats(xs: seq<real>)
    ensures Numbers(Floats(xs)) == xs
  {
    if xs == [] {
    } else {
      assert Floats(xs)[1..] == Floats(xs[1..]);
      NumbersOfFloats(xs[1..]);
    }
  }

  function Strs(xs: seq<string>): seq<Value> {
    seq(|xs|, i requires 0 <= i < |xs| => Str(xs[i]))
  }

  /** The strings among `vs`, in order; anything else is dropped. */
  function Strings(vs: seq<Value>): seq<string> {
    if vs == [] then []
    else (match vs[0] case Str(s) => [s] case _ => []) + Strings(vs[1..])
  }

  lemma {:induction false} StringsOfStrs(xs: seq<string>)
    ensures Strings(Strs(xs)) == xs
  {
    if xs == [] {
    } else {
      assert Strs(xs)[1..] == Strs(xs[1..]);
      StringsOfStrs(xs[1..]);
    }
  }

  /** `f.metadata[k]`; `None` when there is no metadata or it is no object. */
  function Meta(f: Fields, k: Key): Option<Value> {
    match Get(f, Metadata)
    case Some(Obj(m)) => Get(m, k)
    case _ => None
  }
}
