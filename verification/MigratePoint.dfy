// The migration script's writer of one point: another client of the same
// compare-and-set protocol, which retries whatever its read-back does not
// confirm.

module MigratePoint {
  import opened Wrappers
  import opened Json
  import opened Revision
  import opened Payload
  import opened Protocol

  predicate HasFlat(p: Option<Point>) {
    p.Some? && FlatSupersededBy in p.value.fields
  }

  predicate Logs(p: Option<Point>, t: Token) {
    p.Some? && t in p.value.log
  }

  lemma StampedMembers(log: seq<Token>, token: Token)
    ensures forall t | t in Stamped(log, token) :: t in log || t == token
  {
  }

  /** The payload the script writes and the marker in it: the flat key moved
      into the metadata, as Payload.Migrated says. */
  method MovedPayload(f: Fields) returns (built: Option<(Fields, Value)>)
    requires FlatSupersededBy in f
    ensures match built
            case Some((payload, want)) =>
              && Modify(MigrateFlat, f) == Write(Replace, payload) && FlatSupersededBy !in payload
              && Meta(payload, SupersededBy) == Some(want)
            case None => Modify(MigrateFlat, f).Refuse?
  {
    if Metadata in f && !f[Metadata].Obj? && Truthy(f[Metadata]) { return None; }
    var metadata := if Metadata in f && f[Metadata].Obj? then f[Metadata].fields else map[];
    var want := f[FlatSupersededBy];
    if SupersededBy in metadata && Truthy(metadata[SupersededBy]) { want := metadata[SupersededBy]; }
    var payload := f - {FlatSupersededBy};
    payload := payload[Metadata := Obj(metadata[SupersededBy := want])];
    built := Some((payload, want));
  }

  /** Qdrant and the servers writing to it, as the script meets them. `uuid`
      numbers the script's tokens; `applied` are its writes that applied, each
      with the marker it wrote. */
  class Store {
    const writer: nat
    var point: Option<Point>
    var uuid: nat
    ghost var applied: seq<(Token, Value)>

    /** A token of the script in the point's log is one of a write that
        applied, and once one has applied the flat key is gone for good. */
    ghost predicate Valid()
      reads this
    {
      && (forall t: Token | t.writer == writer && Logs(point, t) :: exists k | 0 <= k < |applied| :: applied[k].0 == t)
      && (forall k | 0 <= k < |applied| :: applied[k].0.writer == writer && applied[k].0.count < uuid)
      && |applied| <= 1
      && (applied != [] ==> !HasFlat(point))
    }

    /** Whatever the servers do meanwhile: they bring no flat key back (no
        write of theirs makes one, see Lifecycle.FlatStep) and log no token of
        the script that is not logged. */
    method Others()
      requires Valid()
      modifies this`point
      ensures Valid() && (HasFlat(point) ==> HasFlat(old(point)))
    {
      var next: Option<Point> := *;
      if HasFlat(next) && !HasFlat(point) { return; }
      if next.Some? {
        for i := 0 to |next.value.log|
          invariant point == old(point)
          invariant forall j | 0 <= j < i :: next.value.log[j].writer == writer ==> Logs(point, next.value.log[j])
        {
          var t := next.value.log[i];
          if t.writer == writer && !(point.Some? && t in point.value.log) { return; }
        }
      }
      point := next;
    }

    method FetchPayload() returns (answer: Result<Option<Point>, string>)
      requires Valid()
      modifies this`point
      ensures Valid() && (answer.Ok? ==> answer.value == point)
      ensures HasFlat(point) ==> HasFlat(old(point))
    {
      Others();
      var fails: bool := *;
      answer := if fails then Err("transport") else Ok(point);
    }

    /** Overwrite the payload while the revision is still `readRev`. Whatever
        the answer, the write may have applied. */
    method PutPayload(readRev: Option<Token>, q: Point, ghost want: Value) returns (answered: bool)
      requires Valid() && applied == [] && q.rev == Some(Token(writer, uuid)) && !HasFlat(Some(q))
      requires forall t | t in q.log && t.writer == writer :: t == Token(writer, uuid)
      modifies this
      ensures Valid() && uuid == old(uuid) + 1
      ensures applied == [] || applied == [(Token(writer, old(uuid)), want)]
    {
      Others();
      if point.Some? && point.value.rev == readRev {
        point := Some(q);
        applied := [(Token(writer, uuid), want)];
        assert applied[0].0 == Token(writer, uuid);
      }
      uuid := uuid + 1;
      answered := *;
    }

    /** Move the flat marker into the metadata; the value written, or `None`
        when there was nothing to do. Over all its rounds, and whatever way it
        ends, one write applies at most. */
    method Migrate() returns (result: Result<Option<Value>, string>)
      requires Valid() && applied == []
      modifies this
      ensures Valid() && |applied| <= 1
      ensures result.Ok? && result.value.Some? ==> |applied| == 1 && applied[0].1 == result.value.value
      ensures old(!HasFlat(point)) ==> applied == [] && (result.Ok? ==> result.value.None?)
    {
      hide Modify, Stamped;
      for round := 0 to MAX_WRITE_ATTEMPTS
        invariant Valid()
        invariant old(!HasFlat(point)) ==> !HasFlat(point) && applied == []
      {
        var read := FetchPayload();
        if read.Err? { return Err(read.error); }
        if read.value.None? || FlatSupersededBy !in read.value.value.fields { return Ok(None); }
        var p := read.value.value;
        var built := MovedPayload(p.fields);
        if built.None? { return Err("metadata is not an object"); }
        var (payload, want) := built.value;
        var token := Token(writer, uuid);
        assert forall t | t in p.log :: Logs(point, t);
        var q := Point(Some(token), Stamped(p.log, token), payload);
        StampedMembers(p.log, token);
        var answered := PutPayload(p.rev, q, want);
        if !answered { return Err("write failed"); }
        var now := FetchPayload();
        if now.Err? { return Err(now.error); }
        if now.value.Some? && token in now.value.value.log {
          assert Logs(point, token);
          return Ok(Some(want));
        }
      }
      result := Err("lost every write race");
    }
  }
}
