// The two locks told by the run alone: a writer's sends that found the point
// changed are its lost rounds, and the one that did not is its landed write.

module AccessRuns {
  import opened Wrappers
  import opened Revision
  import opened AccessTurn

  // ----- Sends

  /** Worker `t` sends what it built on its last read. */
  predicate Sends(s: State, step: Step, t: nat) {
    step == Go(t) && t < |s.workers|
    && (match s.workers[t] case Writer(w) => w.Read? case Increment(i) => i.Seen?)
  }

  /** The revision it read. */
  function Seen(worker: Worker): nat {
    match worker
    case Writer(Read(rev, _)) => rev
    case Increment(Seen(rev, _)) => rev
    case _ => 0
  }

  predicate Loses(s: State, step: Step, t: nat) {
    Sends(s, step, t) && Seen(s.workers[t]) != s.rev
  }

  predicate Lands(s: State, step: Step, t: nat) {
    Sends(s, step, t) && Seen(s.workers[t]) == s.rev
  }

  /** How many sends of worker `t` were lost in the run, and how many landed. */
  function Losses(s: State, steps: seq<Step>, t: nat): nat {
    if steps == [] then 0
    else
      var n := |steps| - 1;
      Losses(s, steps[..n], t) + if Loses(Run(s, steps[..n]), steps[n], t) then 1 else 0
  }

  function Landings(s: State, steps: seq<Step>, t: nat): nat {
    if steps == [] then 0
    else
      var n := |steps| - 1;
      Landings(s, steps[..n], t) + if Lands(Run(s, steps[..n]), steps[n], t) then 1 else 0
  }

  function Lost(w: WriterPhase): nat {
    match w
    case Waiting => 0
    case Ready(lost) => lost
    case Read(_, lost) => lost
    case Finishing(_, lost) => lost
    case Finished(_, lost, _) => lost
  }

  predicate Landed(w: WriterPhase) {
    match w
    case Finishing(landed, _) => landed
    case Finished(landed, _, _) => landed
    case _ => false
  }

  /** What one step does to a writer's count of sends. */
  lemma SendStep(s: State, step: Step, t: nat)
    requires t < |s.workers| && s.workers[t].Writer?
    ensures var next := Apply(s, step); |next.workers| == |s.workers| && next.workers[t].Writer?
    ensures var w, w' := s.workers[t].w, Apply(s, step).workers[t].w;
      && Lost(w') == Lost(w) + (if Loses(s, step, t) then 1 else 0)
      && (Landed(w') <==> Landed(w) || Lands(s, step, t))
      && (Landed(w) ==> !Sends(s, step, t))
  {
  }

  /** The writer's own account of its rounds is the run's. */
  lemma {:induction false} CountsSends(s: State, steps: seq<Step>, t: nat)
    requires Starts(s) && t < |s.workers| && s.workers[t].Writer?
    ensures var now := Run(s, steps); t < |now.workers| && now.workers[t].Writer?
    ensures var w := Run(s, steps).workers[t].w;
      && Lost(w) == Losses(s, steps, t)
      && Landings(s, steps, t) == if Landed(w) then 1 else 0
  {
    if steps != [] {
      hide Apply, Loses, Lands, Sends, Lost, Landed;
      var n := |steps| - 1;
      CountsSends(s, steps[..n], t);
      SendStep(Run(s, steps[..n]), steps[n], t);
      LandsOnce(Run(s, steps[..n]), steps[n], t);
    } else {
      assert s.workers[t] == Writer(Waiting);
    }
  }

  /** An increment's account of its rounds is the run's too: it gives up its turn
      when a send has landed, or eight were lost, or it is cut off. */
  lemma {:induction false} CountsBumps(s: State, steps: seq<Step>, t: nat)
    requires Starts(s) && t < |s.workers| && s.workers[t].Increment?
    ensures var now := Run(s, steps); t < |now.workers| && now.workers[t].Increment?
    ensures BumpsAre(Run(s, steps).workers[t].i, Losses(s, steps, t), Landings(s, steps, t))
  {
    if steps != [] {
      hide Apply, Loses, Lands;
      var n := |steps| - 1;
      CountsBumps(s, steps[..n], t);
      BumpStep(Run(s, steps[..n]), steps[n], t, Losses(s, steps[..n], t), Landings(s, steps[..n], t));
    } else {
      assert s.workers[t] == Increment(Wanting);
    }
  }

  predicate BumpsAre(i: IncrementPhase, losses: nat, landings: nat) {
    match i
    case Wanting => losses == landings == 0
    case Turn => losses == landings == 0
    case Gate => losses == landings == 0
    case Bumping(round) => losses == round < 8 && landings == 0
    case Seen(_, round) => losses == round < 8 && landings == 0
    case Leaving => if landings == 0 then losses == 8 else landings == 1 && losses < 8
    case Over => landings <= 1 && losses <= 8
  }

  lemma BumpStep(s: State, step: Step, t: nat, losses: nat, landings: nat)
    requires t < |s.workers| && s.workers[t].Increment? && BumpsAre(s.workers[t].i, losses, landings)
    ensures var next := Apply(s, step); |next.workers| == |s.workers| && next.workers[t].Increment?
    ensures BumpsAre(Apply(s, step).workers[t].i, losses + (if Loses(s, step, t) then 1 else 0),
                     landings + if Lands(s, step, t) then 1 else 0)
  {
  }

  lemma LandsOnce(s: State, step: Step, t: nat)
    ensures Lands(s, step, t) ==> Sends(s, step, t)
  {
  }

  /** The revision a writer or an increment works on is the one it read: the
      point's, at its last step. */
  lemma ReadStep(s: State, step: Step, t: nat)
    requires t < |s.workers|
    ensures var worker := Apply(s, step).workers[t];
      && (worker.Writer? && worker.w.Read? && worker != s.workers[t] ==> step == Go(t) && worker.w.rev == s.rev)
      && (worker.Increment? && worker.i.Seen? && worker != s.workers[t] ==> step == Go(t) && worker.i.rev == s.rev)
  {
  }

  /** A write makes a new revision if and only if it was built on the present
      one: a writer's, an increment's, or one an increment left on its way. */
  predicate Writes(s: State, step: Step) {
    match step
    case Go(t) =>
      t < |s.workers|
      && (match s.workers[t]
          case Writer(w) => w.Read? && w.rev == s.rev
          case Increment(i) => i.Seen? && i.rev == s.rev)
    case CutOff(_, _) => false
    case Arrive(c) => c in s.strays && c == s.rev
  }

  lemma RevisionStep(s: State, step: Step)
    ensures Apply(s, step).rev == s.rev + if Writes(s, step) then 1 else 0
  {
  }

  /** What is left on its way: the writes of increments cut off after sending,
      until they arrive. */
  lemma StrayStep(s: State, step: Step, c: nat)
    ensures c in Apply(s, step).strays <==>
      || (c in s.strays && step != Arrive(c))
      || (step.CutOff? && step.sent && step.t < |s.workers| && s.workers[step.t].Increment?
          && s.workers[step.t].i.Seen? && s.workers[step.t].i.rev == c)
  {
  }

  // ----- The gate, told by the run

  /** While no cut-off write is on its way, a writer that has let go has sent at
      most two writes: one landed, and at most one before it was lost. */
  lemma TwoSendsAtMost(s: State, steps: seq<Step>, t: nat)
    requires Starts(s) && t < |s.workers| && s.workers[t].Writer? && NoneAbandoned(s, steps)
    ensures var now := Run(s, steps);
      && t < |now.workers| && now.workers[t].Writer?
      && (now.workers[t].w.Finished? ==> Landings(s, steps, t) == 1 && Losses(s, steps, t) <= 1)
  {
    WithinTwoRounds(s, steps, t);
    CountsSends(s, steps, t);
    hide Run, Losses, Landings;
  }

  /** With increments cut off at any moment it has lost two at most. */
  lemma ThreeSendsAtMost(s: State, steps: seq<Step>, t: nat)
    requires Starts(s) && t < |s.workers| && s.workers[t].Writer?
    ensures var now := Run(s, steps);
      && t < |now.workers| && now.workers[t].Writer?
      && (now.workers[t].w.Finished? ==> Landings(s, steps, t) == 1 && Losses(s, steps, t) <= 2)
  {
    WriterConfirmed(s, steps, t);
    CountsSends(s, steps, t);
    hide Run, Losses, Landings;
  }
}
