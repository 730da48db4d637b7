// What one step does to one thread and to one row, told apart from the rest of
// the system.
module StepEffects {
  import opened Policy
  import opened ScanTable
  import opened Protocol
  import opened RowInvariant
  import opened SystemInvariant

  // The same thread with time passed.
  ghost predicate SamePoint(t: Thread, t': Thread) {
    t' == t.(fetchUsed := t'.fetchUsed, scanUsed := t'.scanUsed, localUsed := t'.localUsed)
  }

  predicate MovesThread(step: Step, a: Actor) {
    step.Advance? && step.actor == a
  }

  // A thread after a step is new, or moved by this step, or at the same point.
  ghost predicate ThreadEffect(cfg: Config, s: State, step: Step, s': State, a: Actor) {
    a in s'.threads ==>
      var t' := s'.threads[a];
      if a in s.threads then
        var t := s.threads[a];
        && t.target < |s.entries| && ThreadOk(t, s.entries[t.target]) && t.sweeping == a.Sweep?
        && (a.Job? ==> t.target == a.id)
        && if MovesThread(step, a) then
             AnswerFits(t, s.entries[t.target], step.answer)
             && t' == Advanced(cfg, t, s.entries[t.target], step.answer).0 && t'.target == t.target
           else SamePoint(t, t')
      else
        || (a.Job? && t'.pc.ResolveProfile? && a.id < |s.entries| && s.entries[a.id].row.status == RECEIVED
            && step.ClaimCommit? && step.w in s.workers && Claims(s.workers[step.w], a.id))
        || (a.Sweep? && t'.pc == Fail(true))
  }

  lemma ThreadAfter(cfg: Config, s: State, step: Step, a: Actor)
    requires Inv(cfg, s) && Enabled(cfg, s, step)
    ensures ThreadEffect(cfg, s, step, Apply(cfg, s, step), a)
  {
    if step.ClaimCommit? {
      ClaimedThreadAfter(cfg, s, step.w, a);
    } else if step.SweepNext? {
      SweepThreadAfter(cfg, s, step.w, a);
    } else {
      OldThreadAfter(cfg, s, step, a);
    }
  }

  lemma ClaimedThreadAfter(cfg: Config, s: State, w: nat, a: Actor)
    requires Inv(cfg, s) && Claiming(s, w) && s.workers[w].budget > 0
    ensures ThreadEffect(cfg, s, ClaimCommit(w), CommitClaim(s, w), a)
  {
    if a in s.threads { assert Placed(s.entries, a, s.threads[a]); }
    assert WorkerOk(cfg, s.clock, s.entries, s.workers[w]);
    ReceivedIsIdle(cfg, s, s.workers[w].claim.value.id);
  }

  lemma SweepThreadAfter(cfg: Config, s: State, w: nat, a: Actor)
    requires ThreadsOk(s.entries, s.threads) && SweepWaiting(s, w)
    ensures ThreadEffect(cfg, s, SweepNext(w), NextStale(s, w), a)
  {
    if a in s.threads { assert Placed(s.entries, a, s.threads[a]); }
  }

  lemma OldThreadAfter(cfg: Config, s: State, step: Step, a: Actor)
    requires ThreadsOk(s.entries, s.threads) && Enabled(cfg, s, step) && !step.ClaimCommit? && !step.SweepNext?
    ensures ThreadEffect(cfg, s, step, Apply(cfg, s, step), a)
  {
    if step.Advance? {
      MovingThread(cfg, s, step.actor, step.answer, a);
    } else if a in Apply(cfg, s, step).threads {
      StandingThread(cfg, s, step, a);
      assert Placed(s.entries, a, s.threads[a]);
    }
  }

  lemma MovingThread(cfg: Config, s: State, actor: Actor, answer: Answer, a: Actor)
    requires ThreadsOk(s.entries, s.threads) && Enabled(cfg, s, Advance(actor, answer))
    ensures ThreadEffect(cfg, s, Advance(actor, answer), Apply(cfg, s, Advance(actor, answer)), a)
  {
    hide AfterAnswer, AfterCommit, Effect;
    if a in s.threads { assert Placed(s.entries, a, s.threads[a]); }
    AdvancedTarget(cfg, s.threads[actor], s.entries[s.threads[actor].target], answer);
  }

  lemma AdvancedTarget(cfg: Config, t: Thread, e: Entry, a: Answer)
    requires AnswerFits(t, e, a)
    ensures Advanced(cfg, t, e, a).0.target == t.target
  {}

  lemma StandingThread(cfg: Config, s: State, step: Step, a: Actor)
    requires Enabled(cfg, s, step) && !step.ClaimCommit? && !step.SweepNext? && !step.Advance?
    requires a in Apply(cfg, s, step).threads
    ensures a in s.threads && SamePoint(s.threads[a], Apply(cfg, s, step).threads[a])
  {}

  // A thread leaves only when it has finished or its worker crashes.
  lemma ThreadStays(cfg: Config, s: State, step: Step, a: Actor)
    requires Enabled(cfg, s, step) && a in s.threads && (s.threads[a].pc.Finished? ==> step != Retire(a))
    requires step != WorkerCrash(s.threads[a].worker)
    ensures a in Apply(cfg, s, step).threads
  {}

  // Steps of a worker's main thread, its sweep included.
  predicate ByMainThread(step: Step, w: nat) {
    match step
    case WorkerStart(v) => v == w
    case WorkerCrash(v) => v == w
    case Harvest(v, _) => v == w
    case ClaimLock(v, _) => v == w
    case ClaimBreak(v) => v == w
    case ClaimCommit(v) => v == w
    case ClaimLost(v, _) => v == w
    case SweepQuery(v, _) => v == w
    case SweepNext(v) => v == w
    case Advance(a, _) => a == Sweep(w)
    case Retire(a) => a == Sweep(w)
    case _ => false
  }

  predicate IsLoopStep(step: Step) {
    step.ClaimCommit? || step.ClaimLost? || step.SweepNext? || step.SweepQuery? || step.Harvest? || step.ClaimLock?
    || step.ClaimBreak?
  }

  ghost predicate RecordStays(s: State, s': State, w: nat)
    requires w in s.workers
  {
    w in s'.workers && s'.workers[w] == s.workers[w] && (Sweep(w) in s'.threads <==> Sweep(w) in s.threads)
  }

  // A worker's record and its sweep are its main thread's own.
  lemma WorkerStays(cfg: Config, s: State, step: Step, w: nat)
    requires ThreadsOk(s.entries, s.threads) && Enabled(cfg, s, step) && w in s.workers && !ByMainThread(step, w)
    ensures RecordStays(s, Apply(cfg, s, step), w)
  {
    if step.Advance? {
      MovedRecordStays(cfg, s, step.actor, step.answer, w);
    } else if IsLoopStep(step) {
      LoopRecordStays(cfg, s, step, w);
    } else {
      if Sweep(w) in s.threads { assert Placed(s.entries, Sweep(w), s.threads[Sweep(w)]); }
      QuietRecordStays(cfg, s, step, w);
    }
  }

  lemma MovedRecordStays(cfg: Config, s: State, actor: Actor, answer: Answer, w: nat)
    requires Enabled(cfg, s, Advance(actor, answer)) && w in s.workers && actor != Sweep(w)
    ensures RecordStays(s, Apply(cfg, s, Advance(actor, answer)), w)
  {}

  lemma LoopRecordStays(cfg: Config, s: State, step: Step, w: nat)
    requires Enabled(cfg, s, step) && w in s.workers && !ByMainThread(step, w)
    requires IsLoopStep(step)
    ensures RecordStays(s, Apply(cfg, s, step), w)
  {}

  lemma QuietRecordStays(cfg: Config, s: State, step: Step, w: nat)
    requires Enabled(cfg, s, step) && w in s.workers && !ByMainThread(step, w)
    requires Sweep(w) in s.threads ==> s.threads[Sweep(w)].worker == w
    requires !IsLoopStep(step) && !step.Advance?
    ensures RecordStays(s, Apply(cfg, s, step), w)
  {}

  // What may become of a row.
  ghost predicate RowEffect(cfg: Config, s: State, step: Step, s': State, id: nat) {
    && id < |s.entries| && id < |s'.entries|
    && var e := s.entries[id]; var e' := s'.entries[id];
    && e'.row.file == e.row.file
    && (|| e' == e
        || (step.ScannerDeleted? && e' == e.(results := Forget(e.results, step.scanner)))
        || (e.row.status == RECEIVED && e'.row.status == VALIDATING && e' == Claimed(e, e'.row.startedAt.GetOr(0)))
        || (step.Advance? && step.actor in s.threads && s.threads[step.actor].target == id
            && AnswerFits(s.threads[step.actor], e, step.answer) && ThreadOk(s.threads[step.actor], e)
            && s.threads[step.actor].sweeping == step.actor.Sweep? && (step.actor.Job? ==> step.actor.id == id)
            && e' == Advanced(cfg, s.threads[step.actor], e, step.answer).1))
  }

  lemma RowAfter(cfg: Config, s: State, step: Step, id: nat)
    requires Inv(cfg, s) && Enabled(cfg, s, step) && id < |s.entries|
    ensures RowEffect(cfg, s, step, Apply(cfg, s, step), id)
  {
    if step.ClaimCommit? || step.ClaimLost? {
      assert WorkerOk(cfg, s.clock, s.entries, s.workers[step.w]);
      ClaimedRow(cfg, s, step, id);
    } else if step.Advance? {
      var t := s.threads[step.actor];
      assert Placed(s.entries, step.actor, t);
      AdvancedKeeps(cfg, t, s.entries[t.target], step.answer);
      MovedRowOnly(cfg, s, step.actor, step.answer, id);
    } else {
      StandingRow(cfg, s, step, id);
    }
  }

  lemma ClaimedRow(cfg: Config, s: State, step: Step, id: nat)
    requires Enabled(cfg, s, step) && id < |s.entries| && (step.ClaimCommit? || step.ClaimLost?)
    requires s.entries[s.workers[step.w].claim.value.id].row.status == RECEIVED
    ensures RowEffect(cfg, s, step, Apply(cfg, s, step), id)
  {}

  lemma MovedRowOnly(cfg: Config, s: State, actor: Actor, answer: Answer, id: nat)
    requires Enabled(cfg, s, Advance(actor, answer)) && id < |s.entries|
    ensures var s' := Apply(cfg, s, Advance(actor, answer)); var t := s.threads[actor];
      && |s'.entries| == |s.entries|
      && s'.entries[id] == if id == t.target then Advanced(cfg, t, s.entries[id], answer).1 else s.entries[id]
  {}

  lemma StandingRow(cfg: Config, s: State, step: Step, id: nat)
    requires Enabled(cfg, s, step) && id < |s.entries| && !step.ClaimCommit? && !step.ClaimLost? && !step.Advance?
    ensures RowEffect(cfg, s, step, Apply(cfg, s, step), id)
  {}

  lemma ThreadAt(cfg: Config, r: Run, k: nat, a: Actor)
    requires r.Valid(cfg) && 0 < k < |r.states|
    ensures ThreadEffect(cfg, r.states[k - 1], r.steps[k - 1], r.states[k], a)
  {
    ReachableInv(cfg, r, k - 1);
    assert r.Follows(cfg, k - 1);
    ThreadAfter(cfg, r.states[k - 1], r.steps[k - 1], a);
  }

  // What step k-1 of a run did to a thread that is past its first point.
  lemma PreviousThread(cfg: Config, r: Run, k: nat, a: Actor)
    requires r.Valid(cfg) && k < |r.states| && a in r.states[k].threads
    requires !r.states[k].threads[a].pc.ResolveProfile? && r.states[k].threads[a].pc != Fail(true)
    ensures k > 0 && a in r.states[k - 1].threads
    ensures ThreadEffect(cfg, r.states[k - 1], r.steps[k - 1], r.states[k], a)
    ensures RowEffect(cfg, r.states[k - 1], r.steps[k - 1], r.states[k], r.states[k - 1].threads[a].target)
    ensures MovesThread(r.steps[k - 1], a) ==>
      var t := r.states[k - 1].threads[a];
      r.states[k].entries[t.target] == Advanced(cfg, t, r.states[k - 1].entries[t.target], r.steps[k - 1].answer).1
  {
    ReachableInv(cfg, r, k - 1);
    assert r.Follows(cfg, k - 1);
    ThreadAfter(cfg, r.states[k - 1], r.steps[k - 1], a);
    RowAfter(cfg, r.states[k - 1], r.steps[k - 1], r.states[k - 1].threads[a].target);
  }
}
