// The two locks of one client: `write_lock`, which every writer holds for its
// whole read, write and read-back, and `access_lock`, which orders the access
// increments among themselves. Writers and increments work on one point here.

module AccessTurn {
  import opened Wrappers
  import opened Revision

  /** A writer waits for `write_lock`, then reads and sends until its write
      lands or its rounds are used up, and lets go; `bound` is how many
      increments could land in its way when it took the lock. */
  datatype WriterPhase =
    | Waiting
    | Ready(lost: nat)
    | Read(rev: nat, lost: nat)
    | Finishing(landed: bool, lost: nat)
    | Finished(landed: bool, lost: nat, bound: nat)

  /** An increment takes `access_lock` (its turn), passes the gate by taking
      `write_lock` and letting it go, works, and lets its turn go. */
  datatype IncrementPhase =
    | Wanting
    | Turn
    | Gate
    | Bumping(round: nat)
    | Seen(rev: nat, round: nat)
    | Leaving
    | Over

  datatype Worker = Writer(w: WriterPhase) | Increment(i: IncrementPhase)

  /** `rev` is the point's revision; `strays` are the conditions of writes sent
      by increments that were cut off since. The last two are for the theorems:
      the increments' writes that landed since a writer last took `write_lock`,
      and how many could then. */
  datatype State = State(
    workers: seq<Worker>, writeLock: Option<nat>, accessLock: Option<nat>, rev: nat, strays: set<nat>,
    hits: nat, bound: nat)

  /** `CutOff` with `sent` drops an increment whose write is on its way. */
  datatype Step = Go(t: nat) | CutOff(t: nat, sent: bool) | Arrive(condition: nat)

  function Put(s: State, t: nat, worker: Worker): State
    requires t < |s.workers|
  {
    s.(workers := s.workers[t := worker])
  }

  /** An increment past the gate whose write may still land. */
  predicate Pending(worker: Worker) {
    worker.Increment? && (worker.i.Bumping? || worker.i.Seen?)
  }

  predicate Past(worker: Worker) {
    Pending(worker) || (worker.Increment? && worker.i.Leaving?)
  }

  function Alive(s: State): nat { if s.rev in s.strays then 1 else 0 }

  /** A write that finds its condition met makes a new revision. */
  function Hit(s: State): State { s.(rev := s.rev + 1, hits := s.hits + 1) }

  function GoWriter(s: State, t: nat, w: WriterPhase): State
    requires t < |s.workers|
  {
    match w
    case Waiting =>
      if s.writeLock.Some? then s
      else Put(s, t, Writer(Ready(0))).(writeLock := Some(t), hits := 0, bound := 1 + Alive(s))
    case Ready(lost) => Put(s, t, Writer(Read(s.rev, lost)))
    case Read(rev, lost) =>
      if rev == s.rev then Put(s, t, Writer(Finishing(true, lost))).(rev := s.rev + 1)
      else if lost + 1 < MAX_WRITE_ATTEMPTS then Put(s, t, Writer(Ready(lost + 1)))
      else Put(s, t, Writer(Finishing(false, lost + 1)))
    case Finishing(landed, lost) => Put(s, t, Writer(Finished(landed, lost, s.bound))).(writeLock := None)
    case Finished(_, _, _) => s
  }

  function GoIncrement(s: State, t: nat, i: IncrementPhase): State
    requires t < |s.workers|
  {
    match i
    case Wanting => if s.accessLock.Some? then s else Put(s, t, Increment(Turn)).(accessLock := Some(t))
    case Turn => if s.writeLock.Some? then s else Put(s, t, Increment(Gate)).(writeLock := Some(t))
    case Gate => Put(s, t, Increment(Bumping(0))).(writeLock := None)
    case Bumping(round) => Put(s, t, Increment(Seen(s.rev, round)))
    case Seen(rev, round) =>
      if rev == s.rev then Hit(Put(s, t, Increment(Leaving)))
      else if round + 1 < MAX_WRITE_ATTEMPTS then Put(s, t, Increment(Bumping(round + 1)))
      else Put(s, t, Increment(Leaving))
    case Leaving => Put(s, t, Increment(Over)).(accessLock := None)
    case Over => s
  }

  /** A search out of time drops its increment wherever it is: the locks it
      holds are free again, and a write already sent stays on its way. */
  function Cut(s: State, t: nat, sent: bool): State
    requires t < |s.workers|
  {
    if s.workers[t].Writer? || s.workers[t].i.Over? then s
    else
      var i := s.workers[t].i;
      var dropped := Put(s, t, Increment(Over)).(
        accessLock := if i.Wanting? then s.accessLock else None,
        writeLock := if i.Gate? then None else s.writeLock);
      if i.Seen? && sent then dropped.(strays := s.strays + {i.rev}) else dropped
  }

  function Apply(s: State, step: Step): State {
    match step
    case Go(t) =>
      if t >= |s.workers| then s
      else (match s.workers[t] case Writer(w) => GoWriter(s, t, w) case Increment(i) => GoIncrement(s, t, i))
    case CutOff(t, sent) => if t >= |s.workers| then s else Cut(s, t, sent)
    case Arrive(c) =>
      if c !in s.strays then s
      else (if c == s.rev then Hit(s) else s).(strays := s.strays - {c})
  }

  function Run(s: State, steps: seq<Step>): State {
    if steps == [] then s else Apply(Run(s, steps[..|steps| - 1]), steps[|steps| - 1])
  }

  predicate Starts(s: State) {
    && (forall t | 0 <= t < |s.workers| :: s.workers[t] == Writer(Waiting) || s.workers[t] == Increment(Wanting))
    && s.writeLock.None? && s.accessLock.None? && s.strays == {} && s.hits == 0 && s.bound == 1
  }

  // ----- The invariant

  predicate HoldsWrite(worker: Worker) {
    match worker
    case Writer(w) => w.Ready? || w.Read? || w.Finishing?
    case Increment(i) => i.Gate?
  }

  predicate HoldsAccess(worker: Worker) {
    worker.Increment? && (worker.i.Turn? || worker.i.Gate? || Past(worker))
  }

  predicate LocksOk(s: State) {
    && (forall t | 0 <= t < |s.workers| :: HoldsWrite(s.workers[t]) <==> s.writeLock == Some(t))
    && (forall t | 0 <= t < |s.workers| :: HoldsAccess(s.workers[t]) <==> s.accessLock == Some(t))
    && (s.writeLock.Some? ==> s.writeLock.value < |s.workers|)
    && (s.accessLock.Some? ==> s.accessLock.value < |s.workers|)
  }

  /** The increment whose turn it is may still land a write. */
  function PendingNow(s: State): nat {
    if s.accessLock.Some? && s.accessLock.value < |s.workers| && Pending(s.workers[s.accessLock.value]) then 1 else 0
  }

  /** What the increments have cost a writer so far. */
  predicate WriterOk(s: State, w: WriterPhase) {
    match w
    case Waiting => true
    case Ready(lost) => lost <= s.hits
    case Read(rev, lost) => rev <= s.rev && lost + (if rev < s.rev then 1 else 0) <= s.hits
    case Finishing(landed, lost) => landed && lost <= s.hits
    case Finished(landed, lost, bound) => landed && lost <= bound <= 2
  }

  predicate Held(s: State) {
    s.writeLock.Some? && s.writeLock.value < |s.workers| && s.workers[s.writeLock.value].Writer?
  }

  predicate Inv(s: State) {
    && LocksOk(s)
    && s.bound <= 2
    && (forall c | c in s.strays :: c <= s.rev)
    && (forall t | 0 <= t < |s.workers| && s.workers[t].Increment? && s.workers[t].i.Seen? ::
          s.workers[t].i.rev <= s.rev)
    && (forall t | 0 <= t < |s.workers| && s.workers[t].Writer? :: WriterOk(s, s.workers[t].w))
    && (Held(s) ==> s.hits + PendingNow(s) + Alive(s) <= s.bound)
  }

  lemma StepKeeps(s: State, step: Step)
    requires Inv(s)
    ensures Inv(Apply(s, step))
  {
    match step
    case Go(t) => if t < |s.workers| { if s.workers[t].Writer? { WriterKeeps(s, t); } else { IncrementKeeps(s, t); } }
    case CutOff(t, sent) => if t < |s.workers| { CutKeeps(s, t, sent); }
    case Arrive(c) => ArriveKeeps(s, c);
  }

  lemma WriterKeeps(s: State, t: nat)
    requires Inv(s) && t < |s.workers| && s.workers[t].Writer?
    ensures Inv(GoWriter(s, t, s.workers[t].w))
  {
    if s.workers[t].w.Read? { SendKeeps(s, t); } else { LockKeeps(s, t); }
  }

  lemma SendKeeps(s: State, t: nat)
    requires Inv(s) && t < |s.workers| && s.workers[t].Writer? && s.workers[t].w.Read?
    ensures Inv(GoWriter(s, t, s.workers[t].w))
  {
  }

  lemma LockKeeps(s: State, t: nat)
    requires Inv(s) && t < |s.workers| && s.workers[t].Writer? && !s.workers[t].w.Read?
    ensures Inv(GoWriter(s, t, s.workers[t].w))
  {
  }

  lemma IncrementKeeps(s: State, t: nat)
    requires Inv(s) && t < |s.workers| && s.workers[t].Increment?
    ensures Inv(GoIncrement(s, t, s.workers[t].i))
  {
    match s.workers[t].i
    case Wanting => TurnKeeps(s, t);
    case Turn => TurnKeeps(s, t);
    case Gate => TurnKeeps(s, t);
    case Bumping(_) => SeeKeeps(s, t);
    case Seen(_, _) => BumpKeeps(s, t);
    case Leaving => LeaveKeeps(s, t);
    case Over =>
  }

  lemma TurnKeeps(s: State, t: nat)
    requires Inv(s) && t < |s.workers| && s.workers[t].Increment?
    requires s.workers[t].i.Wanting? || s.workers[t].i.Turn? || s.workers[t].i.Gate?
    ensures Inv(GoIncrement(s, t, s.workers[t].i))
  {
  }

  lemma SeeKeeps(s: State, t: nat)
    requires Inv(s) && t < |s.workers| && s.workers[t].Increment? && s.workers[t].i.Bumping?
    ensures Inv(GoIncrement(s, t, s.workers[t].i))
  {
  }

  lemma BumpKeeps(s: State, t: nat)
    requires Inv(s) && t < |s.workers| && s.workers[t].Increment? && s.workers[t].i.Seen?
    ensures Inv(GoIncrement(s, t, s.workers[t].i))
  {
  }

  lemma LeaveKeeps(s: State, t: nat)
    requires Inv(s) && t < |s.workers| && s.workers[t].Increment? && s.workers[t].i.Leaving?
    ensures Inv(GoIncrement(s, t, s.workers[t].i))
  {
  }

  lemma CutKeeps(s: State, t: nat, sent: bool)
    requires Inv(s) && t < |s.workers|
    ensures Inv(Cut(s, t, sent))
  {
  }

  lemma ArriveKeeps(s: State, c: nat)
    requires Inv(s)
    ensures Inv(Apply(s, Arrive(c)))
  {
  }

  lemma {:induction false} RunKeeps(s: State, steps: seq<Step>)
    requires Starts(s)
    ensures Inv(Run(s, steps)) && |Run(s, steps).workers| == |s.workers|
  {
    if steps != [] {
      RunKeeps(s, steps[..|steps| - 1]);
      hide Apply, Inv;
      StepKeeps(Run(s, steps[..|steps| - 1]), steps[|steps| - 1]);
      SameWorkers(Run(s, steps[..|steps| - 1]), steps[|steps| - 1]);
    }
  }

  lemma SameWorkers(s: State, step: Step)
    ensures |Apply(s, step).workers| == |s.workers|
  {
  }

  // ----- What the locks give

  /** At most one increment is past the gate. */
  lemma OnePast(s: State, steps: seq<Step>, t: nat, u: nat)
    requires Starts(s) && t < |s.workers| && u < |s.workers|
    requires |Run(s, steps).workers| == |s.workers| && Past(Run(s, steps).workers[t]) && Past(Run(s, steps).workers[u])
    ensures t == u
  {
    RunKeeps(s, steps);
  }

  /** None passes while a writer holds `write_lock`. */
  lemma NonePasses(s: State, steps: seq<Step>, step: Step, t: nat)
    requires Starts(s) && Held(Run(s, steps)) && t < |s.workers|
    ensures var now := Run(s, steps); var next := Apply(now, step);
      |now.workers| == |next.workers| == |s.workers| && (Past(next.workers[t]) ==> Past(now.workers[t]))
  {
    hide Run;
    RunKeeps(s, steps);
    SameWorkers(Run(s, steps), step);
    GateStep(Run(s, steps), step, t);
  }

  lemma GateStep(s: State, step: Step, t: nat)
    requires Inv(s) && Held(s) && t < |s.workers| == |Apply(s, step).workers|
    ensures Past(Apply(s, step).workers[t]) ==> Past(s.workers[t])
  {
  }

  /** A writer that has let go landed its write, and lost no more rounds than
      the increments past the gate, and the cut-off writes still good, when it
      took the lock: two at the most. */
  lemma WriterConfirmed(s: State, steps: seq<Step>, t: nat)
    requires Starts(s) && t < |s.workers|
    ensures var now := Run(s, steps);
      && |now.workers| == |s.workers|
      && (now.workers[t].Writer? && now.workers[t].w.Finished? ==>
           now.workers[t].w.landed && now.workers[t].w.lost <= now.workers[t].w.bound <= 2)
  {
    RunKeeps(s, steps);
  }

  predicate Untroubled(s: State) {
    s.strays == {} && s.bound == 1 &&
    forall t | 0 <= t < |s.workers| && s.workers[t].Writer? && s.workers[t].w.Finished? :: s.workers[t].w.bound == 1
  }

  /** No cut-off write is on its way at any moment of the run. */
  predicate NoneAbandoned(s: State, steps: seq<Step>) {
    forall n | 0 <= n <= |steps| :: Run(s, steps[..n]).strays == {}
  }

  lemma {:induction false} StaysUntroubled(s: State, steps: seq<Step>)
    requires Starts(s) && NoneAbandoned(s, steps)
    ensures Untroubled(Run(s, steps))
  {
    assert steps[..|steps|] == steps;
    if steps != [] {
      var n := |steps| - 1;
      assert forall m | 0 <= m <= n :: steps[..n][..m] == steps[..m];
      StaysUntroubled(s, steps[..n]);
      hide Apply, Untroubled;
      UntroubledStep(Run(s, steps[..n]), steps[n]);
    }
  }

  lemma UntroubledStep(s: State, step: Step)
    requires Untroubled(s) && Apply(s, step).strays == {}
    ensures Untroubled(Apply(s, step))
  {
  }

  /** While no write is abandoned on its way, a writer loses one round at most,
      so its write is confirmed within two. Increments may be cut off at will. */
  lemma WithinTwoRounds(s: State, steps: seq<Step>, t: nat)
    requires Starts(s) && t < |s.workers| && NoneAbandoned(s, steps)
    ensures var now := Run(s, steps);
      && |now.workers| == |s.workers|
      && (now.workers[t].Writer? && now.workers[t].w.Finished? ==>
            now.workers[t].w.landed && now.workers[t].w.lost <= 1)
  {
    WriterConfirmed(s, steps, t);
    StaysUntroubled(s, steps);
  }

  // ----- No deadlock

  predicate Done(worker: Worker) {
    match worker case Writer(w) => w.Finished? case Increment(i) => i.Over?
  }

  /** Whoever holds a lock can go on, and so can whoever waits for a free one. */
  lemma SomeoneGoes(s: State, steps: seq<Step>) returns (t: nat)
    requires Starts(s) && exists u | 0 <= u < |s.workers| ::
      |Run(s, steps).workers| == |s.workers| && !Done(Run(s, steps).workers[u])
    ensures t < |s.workers| && Apply(Run(s, steps), Go(t)) != Run(s, steps)
  {
    RunKeeps(s, steps);
    var now := Run(s, steps);
    var u :| 0 <= u < |s.workers| && !Done(now.workers[u]);
    hide Run;
    if now.writeLock.Some? {
      t := now.writeLock.value;
    } else if now.accessLock.Some? {
      t := now.accessLock.value;
    } else {
      t := u;
    }
    Moves(now, t);
  }

  lemma Moves(s: State, t: nat)
    requires Inv(s) && t < |s.workers| && !Done(s.workers[t])
    requires s.writeLock == Some(t) || (s.writeLock.None? && (s.accessLock == Some(t) || s.accessLock.None?))
    ensures Apply(s, Go(t)).workers[t] != s.workers[t]
  {
  }

  /** What is left of a worker. */
  function Left(worker: Worker): nat {
    match worker
    case Writer(Waiting) => 2 * MAX_WRITE_ATTEMPTS + 3
    case Writer(Ready(lost)) => if lost < MAX_WRITE_ATTEMPTS then 2 * (MAX_WRITE_ATTEMPTS - lost) + 2 else 2
    case Writer(Read(_, lost)) => if lost < MAX_WRITE_ATTEMPTS then 2 * (MAX_WRITE_ATTEMPTS - lost) + 1 else 2
    case Writer(Finishing(_, _)) => 1
    case Writer(Finished(_, _, _)) => 0
    case Increment(Wanting) => 2 * MAX_WRITE_ATTEMPTS + 6
    case Increment(Turn) => 2 * MAX_WRITE_ATTEMPTS + 5
    case Increment(Gate) => 2 * MAX_WRITE_ATTEMPTS + 4
    case Increment(Bumping(round)) => if round < MAX_WRITE_ATTEMPTS then 2 * (MAX_WRITE_ATTEMPTS - round) + 3 else 4
    case Increment(Seen(_, round)) => if round < MAX_WRITE_ATTEMPTS then 2 * (MAX_WRITE_ATTEMPTS - round) + 2 else 3
    case Increment(Leaving) => 1
    case Increment(Over) => 0
  }

  function AllLeft(workers: seq<Worker>): nat {
    if workers == [] then 0 else AllLeft(workers[..|workers| - 1]) + Left(workers[|workers| - 1])
  }

  lemma {:induction false} OneWorker(workers: seq<Worker>, t: nat, worker: Worker)
    requires t < |workers|
    ensures AllLeft(workers[t := worker]) == AllLeft(workers) - Left(workers[t]) + Left(worker)
  {
    hide Left;
    var n := |workers| - 1;
    if t < n {
      OneWorker(workers[..n], t, worker);
      assert workers[t := worker][..n] == workers[..n][t := worker];
    } else {
      assert workers[t := worker][..n] == workers[..n];
    }
  }

  function Remaining(s: State): nat { AllLeft(s.workers) + |s.strays| }

  /** No round is counted past the limit. */
  predicate RoundsOk(s: State) {
    forall t | 0 <= t < |s.workers| :: match s.workers[t]
      case Writer(Ready(lost)) => lost < MAX_WRITE_ATTEMPTS
      case Writer(Read(_, lost)) => lost < MAX_WRITE_ATTEMPTS
      case Increment(Bumping(round)) => round < MAX_WRITE_ATTEMPTS
      case Increment(Seen(_, round)) => round < MAX_WRITE_ATTEMPTS
      case _ => true
  }

  /** Every step that does anything leaves less to do: no run goes on for ever,
      and one that can go no further has finished every worker. */
  lemma LessLeft(s: State, step: Step)
    requires RoundsOk(s)
    ensures RoundsOk(Apply(s, step))
    ensures Apply(s, step) != s ==> Remaining(Apply(s, step)) < Remaining(s)
  {
    hide Left, AllLeft, RoundsOk, GoWriter, GoIncrement, Cut;
    RoundsStep(s, step);
    match step
    case Arrive(c) =>
      if c in s.strays { assert |s.strays - {c}| == |s.strays| - 1; }
    case Go(t) =>
      if t < |s.workers| {
        LessOfWorker(s, t);
        OneWorker(s.workers, t, Apply(s, step).workers[t]);
      }
    case CutOff(t, sent) =>
      if t < |s.workers| {
        OneWorker(s.workers, t, Increment(Over));
        CutLess(s, t, sent);
      }
  }

  lemma RoundsStep(s: State, step: Step)
    requires RoundsOk(s)
    ensures RoundsOk(Apply(s, step))
  {
    match step
    case Go(t) =>
    case CutOff(t, _) =>
    case Arrive(c) =>
  }

  lemma LessOfWorker(s: State, t: nat)
    requires RoundsOk(s) && t < |s.workers|
    ensures var next := Apply(s, Go(t));
      && next.workers == s.workers[t := next.workers[t]] && next.strays == s.strays
      && (next != s ==> Left(next.workers[t]) < Left(s.workers[t]))
  {
  }

  lemma CutLess(s: State, t: nat, sent: bool)
    requires RoundsOk(s) && t < |s.workers|
    ensures var next := Cut(s, t, sent);
      next != s ==>
        && next.workers == s.workers[t := Increment(Over)]
        && Left(s.workers[t]) > Left(Increment(Over)) + |next.strays| - |s.strays|
  {
    if s.workers[t].Increment? && s.workers[t].i.Seen? { AddOne(s.strays, s.workers[t].i.rev); }
  }

  lemma AddOne(xs: set<nat>, x: nat)
    ensures |xs + {x}| <= |xs| + 1
  {
  }

  /** The steps of a run that did something. */
  function Effective(s: State, steps: seq<Step>): nat {
    if steps == [] then 0
    else
      var before := Run(s, steps[..|steps| - 1]);
      Effective(s, steps[..|steps| - 1]) + (if Apply(before, steps[|steps| - 1]) != before then 1 else 0)
  }

  /** However the workers are scheduled, a run does at most as much as the workers
      had to do at the start. */
  lemma {:induction false} RunsEnd(s: State, steps: seq<Step>)
    requires Starts(s)
    ensures RoundsOk(Run(s, steps)) && Effective(s, steps) + Remaining(Run(s, steps)) <= Remaining(s)
  {
    hide Apply, Remaining, RoundsOk;
    if steps == [] {
      assert RoundsOk(s) by { StartsRounds(s); }
    } else {
      RunsEnd(s, steps[..|steps| - 1]);
      LessLeft(Run(s, steps[..|steps| - 1]), steps[|steps| - 1]);
    }
  }

  lemma StartsRounds(s: State)
    requires Starts(s)
    ensures RoundsOk(s)
  {
  }
}
