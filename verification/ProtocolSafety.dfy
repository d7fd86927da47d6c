// What the compare-and-set protocol guarantees of every run: any number of
// clients and calls, in any interleaving, with deletes and abandoned requests
// at any moment.

module ProtocolSafety {
  import opened Wrappers
  import opened Json
  import opened Revision
  import opened Payload
  import opened Lifecycle
  import opened Protocol
  import opened ProtocolInvariant

  // ----- Serializability

  /** A present point holds its base payload with the writes committed since
      its insertion applied in commit order, each write being a started call's
      own operation on what the previous one left. No update is lost. */
  lemma Serializable(legacy: Option<Fields>, steps: seq<Step>)
    ensures var s := Run(Initial(legacy), steps); var sv := s.server;
      sv.point.Some? ==>
        && Replay(sv.life.base, Ops(sv.life)) == Some(sv.point.value.fields)
        && (forall i | 0 <= i < |sv.life.commits| ::
             sv.life.commits[i].call in s.calls && s.calls[sv.life.commits[i].call].op == sv.life.commits[i].op)
        && (if sv.life.inserted then
              && sv.life.commits != [] && sv.life.commits[0].op.Store?
              && sv.life.base == MemoryToPayload(sv.life.commits[0].op.memory)
            else legacy == Some(sv.life.base))
  {
    RunInv(legacy, steps);
    LegacyKept(Initial(legacy), steps);
    hide Run, Replay, CallInv, TokensInv, Distinct, CommitOk, RevisionsOk, Genuine, MemoryToPayload;
  }

  /** Nothing derived from a copy read before a delete survives that delete:
      every write of the current life but its insertion was built on a read
      made since the last delete. */
  lemma NothingOutlivesADelete(legacy: Option<Fields>, steps: seq<Step>, i: nat)
    requires i < |Run(Initial(legacy), steps).server.life.commits|
    ensures var sv := Run(Initial(legacy), steps).server;
      (sv.life.inserted && i == 0) || sv.life.commits[i].readAt == sv.lives
  {
    RunInv(legacy, steps);
    hide Run, CallInv, TokensInv, PointOk, BaseOk, Distinct;
    assert CommitOk(Run(Initial(legacy), steps).server, i);
  }

  lemma LegacyStep(s: State, step: Step)
    ensures Apply(s, step).server.legacy == s.server.legacy
  {
    hide Modify, View, MemoryToPayload, Landing, Judge;
  }

  lemma {:induction false} LegacyKept(s: State, steps: seq<Step>)
    ensures Run(s, steps).server.legacy == s.server.legacy
  {
    hide Apply;
    if steps != [] {
      LegacyKept(s, steps[..|steps| - 1]);
      LegacyStep(Run(s, steps[..|steps| - 1]), steps[|steps| - 1]);
    }
  }

  /** The revision a point carries is its last write's, and its log the tokens
      of its last 8 writes, oldest first. */
  lemma LogIsTail(legacy: Option<Fields>, steps: seq<Step>)
    ensures var sv := Run(Initial(legacy), steps).server; var n := |sv.life.commits|;
      sv.point.Some? ==>
        var p := sv.point.value;
        && |p.log| == (if n < 8 then n else 8)
        && (forall i | 0 <= i < |p.log| :: p.log[i] == sv.life.commits[n - |p.log| + i].token)
        && p.rev == if n == 0 then None else Some(sv.life.commits[n - 1].token)
  {
    RunInv(legacy, steps);
    hide Run, CallInv, TokensInv, Distinct, CommitOk, Genuine, PayloadOk, BaseOk, CommitsNamed;
  }

  // ----- What a confirmed write is worth

  /** Any step but a delete only appends to the history. */
  lemma AppendsStep(s: State, step: Step)
    requires step != Delete
    ensures s.server.life.commits <= Apply(s, step).server.life.commits || s.server.point.None?
    ensures s.server.point.Some? ==> Apply(s, step).server.point.Some?
  {
    hide Modify, View, MemoryToPayload, Landing, Judge;
  }

  lemma {:induction false} Appends(s: State, steps: seq<Step>)
    requires Delete !in steps && s.server.point.Some?
    ensures s.server.life.commits <= Run(s, steps).server.life.commits
    ensures Run(s, steps).server.point.Some?
  {
    hide Apply;
    if steps != [] {
      Appends(s, steps[..|steps| - 1]);
      AppendsStep(Run(s, steps[..|steps| - 1]), steps[|steps| - 1]);
    }
  }

  /** Only a delete takes a point away. */
  lemma NeverLost(legacy: Option<Fields>, steps: seq<Step>)
    requires legacy.Some? && Delete !in steps
    ensures var sv := Run(Initial(legacy), steps).server;
      sv.point.Some? && !sv.life.inserted && Replay(legacy.value, Ops(sv.life)) == Some(sv.point.value.fields)
  {
    Appends(Initial(legacy), steps);
    Serializable(legacy, steps);
    StaysUninserted(Initial(legacy), steps);
    hide Run, Replay, Ops, MemoryToPayload;
  }

  lemma {:induction false} StaysUninserted(s: State, steps: seq<Step>)
    requires Delete !in steps && s.server.point.Some? && !s.server.life.inserted
    ensures !Run(s, steps).server.life.inserted
  {
    hide Apply;
    if steps != [] {
      var before := steps[..|steps| - 1];
      StaysUninserted(s, before);
      Appends(s, before);
      UninsertedStep(Run(s, before), steps[|steps| - 1]);
    }
  }

  lemma UninsertedStep(s: State, step: Step)
    requires step != Delete && s.server.point.Some? && !s.server.life.inserted
    ensures !Apply(s, step).server.life.inserted
  {
    hide Modify, View, MemoryToPayload, Landing, Judge;
  }

  lemma RunAppend(s: State, xs: seq<Step>, x: Step)
    ensures Run(s, xs + [x]) == Apply(Run(s, xs), x)
  {
    hide Apply;
    assert (xs + [x])[..|xs|] == xs;
  }

  /** A write its caller was told had landed is in the history, and stays there
      until the point is deleted. */
  lemma LandedStays(legacy: Option<Fields>, before: seq<Step>, c: nat, after: seq<Step>)
    requires Delete !in after
    requires var s := Run(Initial(legacy), before);
      c in s.calls && s.calls[c].phase.Answered? && Verdict(s.server, s.calls[c].phase.req) == Yes
    ensures var s := Run(Initial(legacy), before); var s' := Run(Apply(s, ReadBack(c)), after);
      var req := s.calls[c].phase.req;
      && Apply(s, ReadBack(c)).calls[c].phase == Done(Outcome.Landed(req.token, req.insert))
      && s'.server.point.Some? && InLife(s'.server, req.token)
  {
    var s := Run(Initial(legacy), before);
    var req := s.calls[c].phase.req;
    RunInv(legacy, before);
    CallOfInv(s, c);
    YesInLife(s.server, req);
    ConfirmedStep(s, c);
    hide Run, Inv, CallInv, ServerInv, Verdict, Apply;
    var t := Apply(s, ReadBack(c));
    var i :| 0 <= i < |s.server.life.commits| && s.server.life.commits[i].token == req.token;
    Appends(t, after);
    assert Run(t, after).server.life.commits[i].token == req.token;
  }

  lemma ConfirmedStep(s: State, c: nat)
    requires c in s.calls && s.calls[c].phase.Answered? && Verdict(s.server, s.calls[c].phase.req) == Yes
    ensures var req := s.calls[c].phase.req; var t := Apply(s, ReadBack(c));
      && t.server == s.server && s.server.point.Some?
      && t.calls[c].phase == Done(Outcome.Landed(req.token, req.insert))
  {
  }

  /** A call that ended landed read its write back from the history, and the
      write is there still unless the point was deleted since: `i` steps in. */
  lemma {:induction false} LandedInHistory(legacy: Option<Fields>, steps: seq<Step>, c: nat) returns (i: nat)
    requires var s := Run(Initial(legacy), steps);
      c in s.calls && s.calls[c].phase.Done? && s.calls[c].phase.outcome.Landed?
    ensures var s := Run(Initial(legacy), steps); var t := s.calls[c].phase.outcome.token;
      && i <= |steps| && InLife(Run(Initial(legacy), steps[..i]).server, t)
      && (Delete !in steps[i..] ==> InLife(s.server, t))
  {
    hide *;
    NotLandedYet(legacy, c);
    var n := |steps| - 1;
    var s := Run(Initial(legacy), steps[..n]);
    RunLast(Initial(legacy), steps);
    LandsByReadBack(s, steps[n], c);
    if c in s.calls && s.calls[c].phase.Done? {
      i := LandedInHistory(legacy, steps[..n], c);
      assert steps[..n][..i] == steps[..i];
      assert steps[i..] == steps[..n][i..] + [steps[n]];
    } else {
      i := n;
      LandedNow(legacy, steps[..n], c);
      assert steps[i..] == [steps[n]];
    }
    if Delete !in steps[i..] {
      RunInv(legacy, steps[..n]);
      StaysInLife(s, steps[n], Run(Initial(legacy), steps).calls[c].phase.outcome.token);
    }
  }

  lemma RunLast(s: State, steps: seq<Step>)
    requires steps != []
    ensures Run(s, steps) == Apply(Run(s, steps[..|steps| - 1]), steps[|steps| - 1])
  {
    hide Apply;
  }

  lemma LandedNow(legacy: Option<Fields>, steps: seq<Step>, c: nat)
    requires var s := Run(Initial(legacy), steps);
      c in s.calls && s.calls[c].phase.Answered? && Verdict(s.server, s.calls[c].phase.req) == Yes
    ensures var s := Run(Initial(legacy), steps); InLife(s.server, s.calls[c].phase.req.token)
  {
    hide Run, Verdict, CallInv, InLife, ServerInv;
    var s := Run(Initial(legacy), steps);
    RunInv(legacy, steps);
    CallOfInv(s, c);
    YesInLife(s.server, s.calls[c].phase.req);
  }

  lemma NotLandedYet(legacy: Option<Fields>, c: nat)
    ensures c !in Run(Initial(legacy), []).calls
  {
  }

  /** A call comes to be landed by a read-back that found it, and stays so. */
  lemma LandsByReadBack(s: State, step: Step, c: nat)
    requires c in Apply(s, step).calls && Apply(s, step).calls[c].phase.Done?
    requires Apply(s, step).calls[c].phase.outcome.Landed?
    ensures c in s.calls
    ensures if s.calls[c].phase.Done? then s.calls[c].phase == Apply(s, step).calls[c].phase
            else
              && s.calls[c].phase.Answered? && Verdict(s.server, s.calls[c].phase.req) == Yes
              && Apply(s, step).calls[c].phase.outcome.token == s.calls[c].phase.req.token
  {
    hide Serve, Verdict, Modify, View, MemoryToPayload;
  }

  lemma StaysInLife(s: State, step: Step, t: Token)
    requires step != Delete && InLife(s.server, t) && Inv(s)
    ensures InLife(Apply(s, step).server, t)
  {
    hide Apply, CallInv, TokensInv, CommitsNamed, BaseOk, PointOk, CommitOk, Distinct;
    AppendsStep(s, step);
    var i :| 0 <= i < |s.server.life.commits| && s.server.life.commits[i].token == t;
    assert Apply(s, step).server.life.commits[i].token == t;
  }

  // ----- The verdict of the read-back

  /** Writes by others that landed since `mark`. */
  function Foreign(sv: Server, req: Request, mark: Mark): int {
    |sv.life.commits| - mark.len - (if req.token in sv.views then 1 else 0)
  }

  /** The read-back's verdict is exact.
      Yes: the write is in the point's history. No: it is not, and if it was
      applied at all, then the call had read no revision and the point has been
      deleted since. Gone: there is no point. Unknown: the log has rotated, or
      the point was deleted, since the read. */
  lemma VerdictExact(legacy: Option<Fields>, steps: seq<Step>, c: nat)
    requires var s := Run(Initial(legacy), steps); c in s.calls && s.calls[c].phase.Answered?
    ensures var s := Run(Initial(legacy), steps); var sv := s.server;
      var Answered(req, mark) := s.calls[c].phase;
      && (Verdict(sv, req) == Yes ==> InLife(sv, req.token))
      && (Verdict(sv, req) == No ==>
           && !InLife(sv, req.token)
           && (req.token in sv.views ==> req.readRev.None? && mark.lives < sv.lives))
      && (Verdict(sv, req) == Gone <==> sv.point.None?)
      && (mark.lives == sv.lives && Foreign(sv, req, mark) < REV_LOG_LEN && sv.point.Some? ==>
           Verdict(sv, req) == if req.token in sv.views then Yes else No)
  {
    RunInv(legacy, steps);
    var s := Run(Initial(legacy), steps);
    CallOfInv(s, c);
    hide Run, Inv;
    var Answered(req, mark) := s.calls[c].phase;
    VerdictFacts(s.server, req, mark);
  }

  lemma VerdictFacts(sv: Server, req: Request, mark: Mark)
    requires ServerInv(sv) && ReadOk(sv, req.readRev, !req.insert, mark) && AnswerOk(sv, req, mark)
    ensures Verdict(sv, req) == Yes ==> InLife(sv, req.token)
    ensures Verdict(sv, req) == No ==>
      && !InLife(sv, req.token)
      && (req.token in sv.views ==> req.readRev.None? && mark.lives < sv.lives)
    ensures Verdict(sv, req) == Gone <==> sv.point.None?
    ensures mark.lives == sv.lives && Foreign(sv, req, mark) < REV_LOG_LEN && sv.point.Some? ==>
      Verdict(sv, req) == if req.token in sv.views then Yes else No
  {
    if Verdict(sv, req) == Yes { YesInLife(sv, req); }
    if Verdict(sv, req) == No {
      LostNotInLife(sv, req, mark);
      LostNeverApplied(sv, req, mark);
    }
    if mark.lives == sv.lives && Foreign(sv, req, mark) < REV_LOG_LEN && sv.point.Some? {
      NeverUnknown(sv, req, mark);
    }
    hide ServerInv, AnswerOk, ReadOk;
  }

  lemma LostNeverApplied(sv: Server, req: Request, mark: Mark)
    requires ServerInv(sv) && ReadOk(sv, req.readRev, !req.insert, mark) && AnswerOk(sv, req, mark)
    requires Verdict(sv, req) == No && !InLife(sv, req.token)
    ensures req.token in sv.views ==> req.readRev.None? && mark.lives < sv.lives
  {
    hide Newest, PayloadOk, Genuine, BaseOk, CommitOk;
    var cs := sv.life.commits;
    if req.readRev.Some? {
      assert sv.point.value.log == Newest(Tokens(cs), REV_LOG_LEN);
      var i := LogMember(cs, req.readRev.value);
      assert cs[i].token == req.readRev.value;
    }
  }

  lemma LoggedApplied(sv: Server, t: Token)
    requires ServerInv(sv)
    ensures t in Newest(Tokens(sv.life.commits), REV_LOG_LEN) ==> t in sv.views
  {
    hide Newest, PointOk, BaseOk;
    if t in Newest(Tokens(sv.life.commits), REV_LOG_LEN) {
      var i := LogMember(sv.life.commits, t);
      assert CommitOk(sv, i);
    }
  }

  lemma NeverUnknown(sv: Server, req: Request, mark: Mark)
    requires ServerInv(sv) && ReadOk(sv, req.readRev, !req.insert, mark) && AnswerOk(sv, req, mark)
    requires mark.lives == sv.lives && Foreign(sv, req, mark) < REV_LOG_LEN && sv.point.Some?
    ensures Verdict(sv, req) == if req.token in sv.views then Yes else No
  {
    hide Newest, PayloadOk, Genuine, BaseOk, CommitOk, Distinct, AnswerOk, ReadOk;
    var cs := sv.life.commits;
    assert sv.point.value.log == Newest(Tokens(cs), REV_LOG_LEN);
    if req.token in sv.views {
      StillLogged(sv, req, mark);
    } else {
      LoggedApplied(sv, req.token);
      ReadStillLogged(sv, req, mark);
    }
  }

  lemma StillLogged(sv: Server, req: Request, mark: Mark)
    requires AnswerOk(sv, req, mark) && req.token in sv.views
    requires mark.lives == sv.lives && Foreign(sv, req, mark) < REV_LOG_LEN
    ensures req.token in Newest(Tokens(sv.life.commits), REV_LOG_LEN)
  {
    hide Newest;
    LogIndex(sv.life.commits, mark.len);
  }

  /** The log still reaches back to the revision read. */
  lemma ReadStillLogged(sv: Server, req: Request, mark: Mark)
    requires ReadOk(sv, req.readRev, !req.insert, mark) && req.token !in sv.views
    requires mark.lives == sv.lives && Foreign(sv, req, mark) < REV_LOG_LEN
    ensures var log := Newest(Tokens(sv.life.commits), REV_LOG_LEN);
      match req.readRev case Some(r) => r in log case None => |log| < REV_LOG_LEN
  {
    hide Newest;
    var cs := sv.life.commits;
    var prefix := cs[..mark.len];
    assert |Tokens(prefix)| == mark.len;
    if req.readRev.Some? {
      assert Tokens(prefix)[mark.len - 1] == prefix[mark.len - 1].token == cs[mark.len - 1].token;
      LogIndex(cs, mark.len - 1);
    } else {
      LogLength(cs);
    }
  }

  // ----- At most once

  /** Across all its rounds one call writes a point at most once between
      deletes. */
  lemma LandsAtMostOnce(legacy: Option<Fields>, steps: seq<Step>, c: nat, i: nat, j: nat)
    requires var s := Run(Initial(legacy), steps); var cs := s.server.life.commits;
      && i < |cs| && j < |cs| && cs[i].call == c && cs[j].call == c && cs[i].op != MigrateFlat
    ensures i == j
  {
    RunInv(legacy, steps);
    var s := Run(Initial(legacy), steps);
    hide Run;
    assert c in s.calls && s.calls[c].op == s.server.life.commits[i].op;
    CallOfInv(s, c);
    hide Inv;
    var call := s.calls[c];
    if call.phase.Answered? { AtMostOnceIfOnly(s.server, c, call.op, call.phase.req.token); }
    hide ServerInv, ReqOk, ReadOk;
    assert AtMostOnce(s.server, c, call.op);
  }
}
