// What a run of stores, deletes and sweeps has done, told by its steps alone:
// which memories are stored, ensured and cut, and what a page of a sweep saw.

module SweepRuns {
  import opened Wrappers
  import opened Sweep

  /** The state before step `i`. */
  function At(steps: seq<Step>, i: nat): State
    requires i <= |steps|
  {
    Run(EMPTY, steps[..i])
  }

  lemma AtPrefix(steps: seq<Step>, n: nat, i: nat)
    requires i <= n <= |steps|
    ensures At(steps[..n], i) == At(steps, i)
  {
    assert steps[..n][..i] == steps[..i];
  }

  lemma AtNext(steps: seq<Step>)
    requires steps != []
    ensures At(steps, |steps|) == Apply(At(steps, |steps| - 1), steps[|steps| - 1])
    ensures At(steps, |steps|) == Run(EMPTY, steps)
  {
    hide Apply;
    assert steps[..|steps|] == steps;
  }

  // ----- Events

  /** A store ends: it answers, its node ensured or not. */
  predicate Ends(step: Step, id: nat) {
    (step.StoreNode? || step.StoreNodeFails?) && step.id == id
  }

  /** The point of `h` lands, for a store of it. */
  predicate Lands(s: State, step: Step, h: Hash) {
    step.StorePoint? && step.hash == h && step.id !in s.stores
  }

  /** The point of `h` is deleted. */
  predicate Deletes(s: State, step: Step, h: Hash) {
    step.DeletePoint? && step.hash == h && step.id !in s.deletes
  }

  /** The node delete of a delete of `h`. */
  predicate Cuts(s: State, step: Step, h: Hash) {
    step.DeleteNode? && step.id in s.deletes && s.deletes[step.id] == h
  }

  /** An `ensure_node` of `h` that succeeds. */
  predicate Ensures(s: State, step: Step, h: Hash) {
    || (step.EnsureOnly? && step.hash == h)
    || (step.StoreNode? && step.id in s.stores && s.stores[step.id].hash == h)
  }

  predicate EnsuresPoint(s: State, step: Step, h: Hash) {
    Ensures(s, step, h) && h in s.points
  }

  predicate Answers(s: State, step: Step, h: Hash) {
    (step.StoreNode? || step.StoreNodeFails?) && step.id in s.stores && s.stores[step.id].hash == h
  }

  predicate AnswersUndeleted(s: State, step: Step, h: Hash) {
    Answers(s, step, h) && s.stores[step.id].undeleted
  }

  predicate AnswersQuietly(s: State, step: Step, h: Hash) {
    step.StoreNode? && Answers(s, step, h) && s.stores[step.id].quiet
  }

  /** `on` has happened, and `off` not since. */
  predicate Since(steps: seq<Step>, h: Hash, on: (State, Step, Hash) -> bool, off: (State, Step, Hash) -> bool) {
    exists b | 0 <= b < |steps| :: Last(steps, h, on, off, b)
  }

  predicate Last(steps: seq<Step>, h: Hash, on: (State, Step, Hash) -> bool, off: (State, Step, Hash) -> bool, b: nat)
    requires b < |steps|
  {
    on(At(steps, b), steps[b], h) && forall j | b < j < |steps| :: !off(At(steps, j), steps[j], h)
  }

  lemma SinceNext(steps: seq<Step>, h: Hash, on: (State, Step, Hash) -> bool, off: (State, Step, Hash) -> bool)
    requires steps != []
    ensures var n := |steps| - 1; var s := At(steps, n);
      Since(steps, h, on, off) <==>
        on(s, steps[n], h) || (Since(steps[..n], h, on, off) && !off(s, steps[n], h))
  {
    hide Run;
    var n := |steps| - 1;
    forall i | 0 <= i <= n ensures At(steps[..n], i) == At(steps, i) { AtPrefix(steps, n, i); }
    hide At;
    if on(At(steps, n), steps[n], h) { assert Last(steps, h, on, off, n); }
    forall b | 0 <= b < n
      ensures Last(steps, h, on, off, b) <==> Last(steps[..n], h, on, off, b) && !off(At(steps, n), steps[n], h)
    {
      assert forall j | b < j < n :: steps[..n][j] == steps[j];
    }
  }

  /** How one step moves what the state says has happened. */
  lemma StepSays(s: State, step: Step, h: Hash)
    ensures var t := Apply(s, step);
      && (h in t.points <==> Lands(s, step, h) || (h in s.points && !Deletes(s, step, h)))
      && (h in t.stored <==> AnswersUndeleted(s, step, h) || (h in s.stored && !Deletes(s, step, h)))
      && (h in t.quiet <==> AnswersQuietly(s, step, h) || (h in s.quiet && !Deletes(s, step, h)))
      && (h in t.ensured <==> EnsuresPoint(s, step, h) || (h in s.ensured && !Deletes(s, step, h)))
      && (h in t.cut <==> Cuts(s, step, h) || (h in s.cut && !Ensures(s, step, h)))
  {
    hide Interrupted, Ensured, Marked, Doomed;
  }

  /** The state's word for what has happened is what happened in the run. */
  lemma {:induction false} StateSays(steps: seq<Step>, h: Hash)
    ensures var s := Run(EMPTY, steps);
      && (h in s.points <==> Since(steps, h, Lands, Deletes))
      && (h in s.stored <==> Since(steps, h, AnswersUndeleted, Deletes))
      && (h in s.quiet <==> Since(steps, h, AnswersQuietly, Deletes))
      && (h in s.ensured <==> Since(steps, h, EnsuresPoint, Deletes))
      && (h in s.cut <==> Since(steps, h, Cuts, Ensures))
  {
    if steps != [] {
      hide Apply, Since, Lands, Deletes, AnswersUndeleted, AnswersQuietly, EnsuresPoint, Cuts, Ensures, At, Run;
      var n := |steps| - 1;
      StateSays(steps[..n], h);
      SinceNext(steps, h, Lands, Deletes);
      SinceNext(steps, h, AnswersUndeleted, Deletes);
      SinceNext(steps, h, AnswersQuietly, Deletes);
      SinceNext(steps, h, EnsuresPoint, Deletes);
      SinceNext(steps, h, Cuts, Ensures);
      AtIs(steps, n);
      AtNext(steps);
      StepSays(At(steps, n), steps[n], h);
    }
  }

  lemma AtIs(steps: seq<Step>, n: nat)
    requires n <= |steps|
    ensures At(steps, n) == Run(EMPTY, steps[..n])
  {
  }

  // ----- Stores and deletes under way

  /** No store `id` ended strictly between the steps `a` and `b`. */
  predicate NoEnd(steps: seq<Step>, id: nat, a: nat, b: nat)
    requires b <= |steps|
  {
    forall j | a < j < b :: !Ends(steps[j], id)
  }

  predicate NoDelete(steps: seq<Step>, h: Hash, a: nat, b: nat)
    requires b <= |steps|
  {
    forall j | a < j < b :: !Deletes(At(steps, j), steps[j], h)
  }

  /** The store `id` that is under way at `n` landed at `a`: its memory, whether
      its point was deleted since, and whether it was free of deletes besides. */
  predicate LandedAt(steps: seq<Step>, n: nat, id: nat, l: Landing, a: nat)
    requires a < n <= |steps|
  {
    && steps[a] == StorePoint(id, l.hash) && id !in At(steps, a).stores && NoEnd(steps, id, a, n)
    && (l.undeleted <==> NoDelete(steps, l.hash, a, n))
    && (l.quiet <==> l.undeleted && !Deleting(At(steps, a), l.hash))
  }

  lemma {:induction false} Landed(steps: seq<Step>, n: nat, id: nat) returns (a: nat)
    requires n <= |steps| && id in At(steps, n).stores
    ensures a < n && LandedAt(steps, n, id, At(steps, n).stores[id], a)
    decreases n
  {
    hide Apply, Run, At, Deleting, Deletes;
    if n == 0 { NothingAt(steps, id); }
    StepAt(steps, n - 1);
    StoreStep(At(steps, n - 1), steps[n - 1], id);
    if id in At(steps, n - 1).stores {
      a := Landed(steps, n - 1, id);
    } else {
      a := n - 1;
    }
  }

  lemma NothingAt(steps: seq<Step>, id: nat)
    ensures id !in At(steps, 0).stores && id !in At(steps, 0).deletes && id !in At(steps, 0).pages
  {
  }

  lemma StepAt(steps: seq<Step>, n: nat)
    requires n < |steps|
    ensures At(steps, n + 1) == Apply(At(steps, n), steps[n])
  {
    hide Apply;
    assert steps[..n + 1][..n] == steps[..n];
  }

  /** How one step moves a store. */
  lemma StoreStep(s: State, step: Step, id: nat)
    ensures var t := Apply(s, step);
      && (id in t.stores <==> (id in s.stores && !Ends(step, id)) || (step.StorePoint? && step.id == id))
      && (id in t.stores && id !in s.stores ==>
           && step == StorePoint(id, t.stores[id].hash) && t.stores[id].undeleted
           && (t.stores[id].quiet <==> !Deleting(s, t.stores[id].hash)))
      && (id in t.stores && id in s.stores ==>
           var l, m := s.stores[id], t.stores[id];
           && m.hash == l.hash
           && (m.undeleted <==> l.undeleted && !Deletes(s, step, l.hash))
           && (m.quiet <==> l.quiet && !Deletes(s, step, l.hash)))
  {
    hide Ensured, Marked, Doomed, Deleting;
  }

  lemma {:induction false} StillUnderWay(steps: seq<Step>, n: nat, id: nat, h: Hash, a: nat)
    requires a < n <= |steps| && steps[a] == StorePoint(id, h) && id !in At(steps, a).stores && NoEnd(steps, id, a, n)
    ensures id in At(steps, n).stores && At(steps, n).stores[id].hash == h
    ensures LandedAt(steps, n, id, At(steps, n).stores[id], a)
    decreases n
  {
    hide Apply, Run, At, Deleting, Deletes;
    StepAt(steps, n - 1);
    StoreStep(At(steps, n - 1), steps[n - 1], id);
    if a < n - 1 { StillUnderWay(steps, n - 1, id, h, a); }
  }

  /** The delete begun at `a` has its node delete to come at `n`. */
  predicate Pending(steps: seq<Step>, n: nat, h: Hash, a: nat)
    requires a < n <= |steps|
  {
    && Deletes(At(steps, a), steps[a], h)
    && forall j | a < j < n :: !Finishes(steps[j], steps[a].id)
  }

  predicate Finishes(step: Step, id: nat) {
    (step.DeleteNode? || step.DeleteNodeFails?) && step.id == id
  }

  lemma DeleteStep(s: State, step: Step, id: nat)
    ensures var t := Apply(s, step);
      && (id in t.deletes <==> (id in s.deletes && !Finishes(step, id)) || (step.DeletePoint? && step.id == id))
      && (id in t.deletes && id !in s.deletes ==> step == DeletePoint(id, t.deletes[id]))
      && (id in t.deletes && id in s.deletes ==> t.deletes[id] == s.deletes[id])
  {
    hide Ensured, Marked, Doomed, Deleting, Interrupted;
  }

  /** Which deletes are in progress: those begun and not finished. */
  lemma {:induction false} PendingSince(steps: seq<Step>, n: nat, id: nat) returns (a: nat)
    requires n <= |steps| && id in At(steps, n).deletes
    ensures a < n && steps[a] == DeletePoint(id, At(steps, n).deletes[id])
    ensures Pending(steps, n, At(steps, n).deletes[id], a)
    decreases n
  {
    hide Apply, Run, At;
    if n == 0 { NothingAt(steps, id); }
    StepAt(steps, n - 1);
    DeleteStep(At(steps, n - 1), steps[n - 1], id);
    if id in At(steps, n - 1).deletes {
      a := PendingSince(steps, n - 1, id);
    } else {
      a := n - 1;
    }
  }

  lemma {:induction false} StillPending(steps: seq<Step>, n: nat, h: Hash, a: nat)
    requires a < n <= |steps| && Pending(steps, n, h, a)
    ensures steps[a].id in At(steps, n).deletes && At(steps, n).deletes[steps[a].id] == h
    decreases n
  {
    hide Apply, Run, At;
    StepAt(steps, n - 1);
    DeleteStep(At(steps, n - 1), steps[n - 1], steps[a].id);
    if a < n - 1 { StillPending(steps, n - 1, h, a); }
  }

  lemma DeletingIff(steps: seq<Step>, n: nat, h: Hash)
    requires n <= |steps|
    ensures Deleting(At(steps, n), h) <==> exists a | 0 <= a < n :: Pending(steps, n, h, a)
  {
    hide Run, At, Pending;
    if Deleting(At(steps, n), h) {
      var d :| d in At(steps, n).deletes && At(steps, n).deletes[d] == h;
      var a := PendingSince(steps, n, d);
    }
    if a :| 0 <= a < n && Pending(steps, n, h, a) { PendingIs(steps, n, h, a); }
  }

  lemma PendingIs(steps: seq<Step>, n: nat, h: Hash, a: nat)
    requires a < n <= |steps| && Pending(steps, n, h, a)
    ensures Deleting(At(steps, n), h)
  {
    hide Run, At;
    StillPending(steps, n, h, a);
  }

  // ----- What a store leaves behind

  /** The store that landed at `a` answered at `b`, its node ensured; its point
      was not deleted since it landed, and no delete was in progress then. */
  predicate StoredQuietly(steps: seq<Step>, h: Hash, a: nat, b: nat)
    requires a < b < |steps|
  {
    && steps[b].StoreNode? && steps[a] == StorePoint(steps[b].id, h) && steps[b].id !in At(steps, a).stores
    && NoEnd(steps, steps[b].id, a, b) && NoDelete(steps, h, a, |steps|)
    && forall d | 0 <= d < a :: !Pending(steps, a, h, d)
  }

  lemma QuietIff(steps: seq<Step>, h: Hash)
    ensures h in Run(EMPTY, steps).quiet <==> exists a, b | 0 <= a < b < |steps| :: StoredQuietly(steps, h, a, b)
  {
    hide Run, Pending;
    StateSays(steps, h);
    hide At;
    if h in Run(EMPTY, steps).quiet {
      var b: nat :| b < |steps| && Last(steps, h, AnswersQuietly, Deletes, b);
      var a := QuietSince(steps, h, b);
    }
    if a, b :| 0 <= a < b < |steps| && StoredQuietly(steps, h, a, b) { QuietLast(steps, h, a, b); }
  }

  lemma QuietSince(steps: seq<Step>, h: Hash, b: nat) returns (a: nat)
    requires b < |steps| && Last(steps, h, AnswersQuietly, Deletes, b)
    ensures a < b && StoredQuietly(steps, h, a, b)
  {
    hide Run, At, Pending, Deleting;
    a := Landed(steps, b, steps[b].id);
    DeletingIff(steps, a, h);
    assert !Deletes(At(steps, b), steps[b], h);
  }

  lemma QuietLast(steps: seq<Step>, h: Hash, a: nat, b: nat)
    requires a < b < |steps| && StoredQuietly(steps, h, a, b)
    ensures Last(steps, h, AnswersQuietly, Deletes, b)
  {
    hide Run, At, Pending, Deleting;
    StillUnderWay(steps, b, steps[b].id, h, a);
    DeletingIff(steps, a, h);
    assert NoDelete(steps, h, a, b);
    assert forall j | b < j < |steps| :: !Deletes(At(steps, j), steps[j], h);
  }

  /** With any number of sweeps under distinct tokens, a memory whose store ensured
      its node keeps it, if no delete was in progress when its point landed and
      none came since. */
  lemma StoreKeepsNode(steps: seq<Step>, h: Hash, a: nat, b: nat)
    requires FreshTokens(EMPTY, steps) && a < b < |steps| && StoredQuietly(steps, h, a, b)
    ensures var s := Run(EMPTY, steps); h in s.points && h in s.nodes
  {
    hide Run, FreshTokens, StoredQuietly;
    QuietIff(steps, h);
    StoredKeepsNode(steps, h);
  }

  /** Whatever deletes there are: a memory whose point is there, and whose node
      was ensured since it is, lacks its node if and only if the node delete of
      a delete came after the last `ensure_node`. */
  lemma EnsuredLacksIff(steps: seq<Step>, h: Hash, b: nat)
    requires FreshTokens(EMPTY, steps) && b < |steps| && Last(steps, h, EnsuresPoint, Deletes, b)
    ensures var s := Run(EMPTY, steps); h in s.points && (h !in s.nodes <==> Since(steps, h, Cuts, Ensures))
  {
    StateSays(steps, h);
    hide Run, FreshTokens, Last;
    EnsuredLacksNodeIff(steps, h);
  }

  // ----- What a page of a sweep takes

  predicate Closes(s: State, step: Step, id: nat) {
    step == Stop(id) || (step == Delete(id) && id in s.pages && s.pages[id].page.Gone?)
  }

  /** The page `id` as it stands at `n`: opened at `f` on a list of nodes, it holds
      those without a point then, and past its second read, at `g`, those of them
      without one then too. */
  predicate PageAt(steps: seq<Step>, n: nat, id: nat, p: SweepPage, f: nat, g: nat)
    requires f < n <= |steps|
  {
    && steps[f].FirstRead? && steps[f].id == id && id !in At(steps, f).pages && p.token == steps[f].token
    && (forall j | f < j < n :: !Closes(At(steps, j), steps[j], id))
    && var first := steps[f].listed - At(steps, f).points;
       if p.page.Gone? then
         f < g < n && steps[g] == SecondRead(id) && p.page.hashes == first - At(steps, g).points
       else p.page.hashes == first
  }

  lemma {:induction false} PageSays(steps: seq<Step>, n: nat, id: nat) returns (f: nat, g: nat)
    requires n <= |steps| && id in At(steps, n).pages
    ensures f < n && PageAt(steps, n, id, At(steps, n).pages[id], f, g)
    decreases n
  {
    hide Apply, Run, At;
    if n == 0 { NothingAt(steps, id); }
    StepAt(steps, n - 1);
    PageStep(At(steps, n - 1), steps[n - 1], id);
    if id in At(steps, n - 1).pages {
      f, g := PageSays(steps, n - 1, id);
      if steps[n - 1] == SecondRead(id) && At(steps, n - 1).pages[id].page.Stamped? { g := n - 1; }
    } else {
      f, g := n - 1, n - 1;
    }
  }

  lemma PageStep(s: State, step: Step, id: nat)
    requires id in Apply(s, step).pages
    ensures var p := Apply(s, step).pages[id];
      if id in s.pages then
        var q := s.pages[id];
        && p.token == q.token && !Closes(s, step, id)
        && (if step == SecondRead(id) && q.page.Stamped? then p.page == Gone(q.page.hashes - s.points)
            else p.page.hashes == q.page.hashes && (p.page.Gone? <==> q.page.Gone?))
      else step.FirstRead? && step.id == id && p == SweepPage(step.token, Missing(step.listed - s.points))
  {
    hide Ensured, Marked, Doomed, Deleting, Interrupted;
  }

  lemma {:induction false} TokensApart(steps: seq<Step>, n: nat)
    requires n <= |steps| && FreshTokens(EMPTY, steps)
    ensures TokensDiffer(At(steps, n))
    decreases |steps|
  {
    hide Apply, FreshToken;
    if n < |steps| {
      AtPrefix(steps, |steps| - 1, n);
      TokensApart(steps[..|steps| - 1], n);
    } else {
      assert steps[..n] == steps;
      RunKeeps(EMPTY, steps);
    }
  }

  /** The page `id` marked at `m`, and nothing ensured the node of `h` since. */
  predicate MarkedAt(steps: seq<Step>, n: nat, id: nat, h: Hash, m: nat)
    requires m < n <= |steps|
  {
    steps[m] == Mark(id) && forall j | m < j < n :: !Ensures(At(steps, j), steps[j], h)
  }

  /** A node that carries the mark of a page past its marking was not ensured
      since the page marked. */
  lemma {:induction false} MarkSays(steps: seq<Step>, n: nat, id: nat, h: Hash) returns (m: nat)
    requires n <= |steps| && FreshTokens(EMPTY, steps)
    requires var s := At(steps, n);
      && id in s.pages && !s.pages[id].page.Missing?
      && h in s.nodes && s.nodes[h].mark == Some(s.pages[id].token)
    ensures m < n && MarkedAt(steps, n, id, h, m)
    decreases n
  {
    hide Apply, Run, At, FreshTokens, Ensures;
    if n == 0 { NothingAt(steps, id); }
    StepAt(steps, n - 1);
    TokensApart(steps, n - 1);
    var s := At(steps, n - 1);
    if steps[n - 1] == Mark(id) && id in s.pages && s.pages[id].page.Missing? {
      m := n - 1;
    } else {
      MarkStep(s, steps[n - 1], id, h);
      m := MarkSays(steps, n - 1, id, h);
    }
  }

  lemma MarkStep(s: State, step: Step, id: nat, h: Hash)
    requires TokensDiffer(s)
    requires var t := Apply(s, step);
      && id in t.pages && !t.pages[id].page.Missing?
      && h in t.nodes && t.nodes[h].mark == Some(t.pages[id].token)
    requires !(step == Mark(id) && id in s.pages && s.pages[id].page.Missing?)
    ensures id in s.pages && !s.pages[id].page.Missing?
    ensures h in s.nodes && s.nodes[h].mark == Some(s.pages[id].token) && !Ensures(s, step, h)
  {
    hide Deleting, Interrupted, Doomed;
  }

  /** A node goes only by the node delete of a delete of it, or by a sweep that
      listed it, found no point for it before it marked and again after, and
      nothing ensured it since that mark. */
  lemma NodeGoesOnlyBy(steps: seq<Step>, n: nat, h: Hash) returns (f: nat, m: nat, g: nat)
    requires FreshTokens(EMPTY, steps) && n < |steps| && h in At(steps, n).nodes && h !in At(steps, n + 1).nodes
    ensures Cuts(At(steps, n), steps[n], h)
      || (steps[n].Delete? && f < n && g < n && steps[f].FirstRead? && steps[f].id == steps[n].id
          && steps[g] == SecondRead(steps[n].id)
          && h in steps[f].listed && h !in At(steps, f).points && h !in At(steps, g).points
          && m < n && MarkedAt(steps, n, steps[n].id, h, m))
  {
    hide Run, At, FreshTokens, Ensures;
    StepAt(steps, n);
    NodeStep(At(steps, n), steps[n], h);
    hide Apply;
    f, m, g := n, n, n;
    if steps[n].Delete? {
      f, g := PageSays(steps, n, steps[n].id);
      m := MarkSays(steps, n, steps[n].id, h);
    }
  }

  lemma NodeStep(s: State, step: Step, h: Hash)
    requires h in s.nodes && h !in Apply(s, step).nodes
    ensures Cuts(s, step, h)
      || (step.Delete? && step.id in s.pages && s.pages[step.id].page.Gone?
          && h in s.pages[step.id].page.hashes && s.nodes[h].mark == Some(s.pages[step.id].token))
  {
    hide Deleting, Interrupted;
  }

  /** Left alone, a page takes exactly the listed nodes without a point. */
  lemma PageTakes(s: State, id: nat, token: string, listed: set<Hash>)
    requires id !in s.pages
    ensures var t := Apply(Apply(Apply(Apply(s, FirstRead(id, token, listed)), Mark(id)), SecondRead(id)), Delete(id));
      t == s.(nodes := s.nodes - (listed - s.points))
  {
    var gone := listed - s.points;
    PageReads(s, id, token, listed);
    var t := Apply(Apply(Apply(s, FirstRead(id, token, listed)), Mark(id)), SecondRead(id));
    assert Doomed(t.nodes, gone, token) == s.nodes.Keys * gone;
    assert t.nodes - Doomed(t.nodes, gone, token) == s.nodes - gone;
    assert t.pages - {id} == s.pages;
  }

  lemma PageReads(s: State, id: nat, token: string, listed: set<Hash>)
    requires id !in s.pages
    ensures var t := Apply(Apply(Apply(s, FirstRead(id, token, listed)), Mark(id)), SecondRead(id));
      var gone := listed - s.points;
      t == s.(nodes := Marked(s.nodes, gone, token), pages := s.pages[id := SweepPage(token, Gone(gone))])
  {
    var gone := listed - s.points;
    hide Marked;
    assert gone - s.points == gone;
    var s1 := Apply(s, FirstRead(id, token, listed));
    var s2 := Apply(s1, Mark(id));
    assert s2.pages == s.pages[id := SweepPage(token, Stamped(gone))];
    assert Apply(s2, SecondRead(id)).pages == s.pages[id := SweepPage(token, Gone(gone))];
  }
}
