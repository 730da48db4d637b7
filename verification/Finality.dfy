// When a verdict is final: the stale sweep and the jobs share the table without
// a guard, so finality is a matter of time.
module Finality {
  import opened Wrappers
  import opened Policy
  import opened ScanTable
  import opened Protocol
  import opened RowInvariant
  import opened SystemInvariant
  import opened Runs

  // ---------------------------------------------------------------------------
  // The timing hypothesis and the claim
  // ---------------------------------------------------------------------------

  // Until its own terminal write commits, a job spends no more than the playbook
  // timeouts inside the playbooks and no more than the local budget outside.
  ghost predicate TimelyThread(cfg: Config, a: Actor, t: Thread) {
    a.Job? && !t.decided ==>
      t.fetchUsed <= cfg.fetchTimeout && t.scanUsed <= cfg.scanTimeout && t.localUsed <= cfg.localBudget
  }

  ghost predicate TimelyState(cfg: Config, s: State) {
    forall a :: a in s.threads ==> TimelyThread(cfg, a, s.threads[a])
  }

  ghost predicate Timely(cfg: Config, r: Run) {
    forall k :: 0 <= k < |r.states| ==> TimelyState(cfg, r.states[k])
  }

  // Once decided, `allowed` can only be taken back.
  predicate AllowedStays(before: Option<bool>, after: Option<bool>) {
    before.Some? ==> after.Some? && (after == Some(true) ==> before == Some(true))
  }

  ghost predicate RowFinal(e: Entry, e': Entry) {
    AllowedStays(e.row.allowed, e'.row.allowed)
  }

  ghost predicate VerdictsFinal(r: Run) {
    forall i, k, id :: 0 <= i <= k < |r.states| && 0 <= id < |r.states[i].entries| && id < |r.states[k].entries| ==>
      RowFinal(r.states[i].entries[id], r.states[k].entries[id])
  }

  predicate LifetimeCoversBudget(cfg: Config) {
    cfg.fetchTimeout + cfg.scanTimeout + cfg.localBudget <= cfg.lifetime
  }

  // ---------------------------------------------------------------------------
  // No sweep meets a live job
  // ---------------------------------------------------------------------------

  // A job before its terminal write has its row in progress and undecided; after
  // it the row is never in progress again.
  ghost predicate JobInTime(t: Thread, e: Entry) {
    && (t.decided ==> !InProgress(e.row.status))
    && (!t.decided && !t.pc.RecordCrash? && !t.pc.Finished? ==> InProgress(e.row.status))
  }

  ghost predicate JobsInTime(es: Entries, ts: Threads) {
    forall a :: a in ts && a.Job? ==> ts[a].target < |es| && JobInTime(ts[a], es[ts[a].target])
  }

  ghost predicate InProgressUndecided(es: Entries) {
    forall id :: 0 <= id < |es| && InProgress(es[id].row.status) ==> es[id].row.allowed == None
  }

  // Whatever a sweep holds has no thread any more.
  ghost predicate SweepsMeetNoJob(ts: Threads, ws: Workers) {
    && (forall a :: a in ts && a.Sweep? ==> Job(ts[a].target) !in ts)
    && (forall w, i :: w in ws && 0 <= i < |ws[w].queue| ==> Job(ws[w].queue[i]) !in ts)
  }

  ghost predicate Apart(s: State) {
    JobsInTime(s.entries, s.threads) && InProgressUndecided(s.entries) && SweepsMeetNoJob(s.threads, s.workers)
  }

  lemma LiveRowIsNotStale(cfg: Config, s: State, id: nat)
    requires Inv(cfg, s) && Apart(s) && TimelyState(cfg, s) && LifetimeCoversBudget(cfg) && Job(id) in s.threads
    ensures !StaleNow(cfg, s, id)
  {
    var t := s.threads[Job(id)];
    assert Placed(s.entries, Job(id), t) && Timed(s.clock, s.entries, Job(id), t);
    assert TimelyThread(cfg, Job(id), t);
  }

  // The step of a job that is in time keeps it in time and the verdict final.
  lemma JobStaysInTime(cfg: Config, t: Thread, e: Entry, a: Answer)
    requires EntryOk(e) && ThreadOk(t, e) && !t.sweeping && JobInTime(t, e) && AnswerFits(t, e, a)
    requires InProgress(e.row.status) ==> e.row.allowed == None
    ensures var (t', e') := Advanced(cfg, t, e, a);
      && JobInTime(t', e') && RowFinal(e, e') && (InProgress(e'.row.status) ==> e'.row.allowed == None)
  {
    if a.Committed? || (a.Raised? && a.applied) {
      WriteStaysInTime(t, e);
    }
  }

  lemma WriteStaysInTime(t: Thread, e: Entry)
    requires EntryOk(e) && ThreadOk(t, e) && !t.sweeping && JobInTime(t, e) && IsStatement(t.pc)
    requires InProgress(e.row.status) ==> e.row.allowed == None
    ensures StaysInTime(t, e, Effect(t, e))
  {
    if t.pc.WriteVerdict? {
      VerdictStaysInTime(t, e);
    } else if Harmless(t.pc) {
      HarmlessStaysInTime(t, e);
    } else {
      EarlyStaysInTime(t, e);
    }
  }

  ghost predicate StaysInTime(t: Thread, e: Entry, e': Entry) {
    && RowFinal(e, e') && (InProgress(e'.row.status) ==> e'.row.allowed == None)
    && (t.decided || IsTerminalWrite(t.pc) ==> !InProgress(e'.row.status))
    && (!t.decided && !t.pc.RecordCrash? && !IsTerminalWrite(t.pc) && !t.pc.Overlay? ==> InProgress(e'.row.status))
  }

  lemma VerdictStaysInTime(t: Thread, e: Entry)
    requires ThreadOk(t, e) && !t.sweeping && JobInTime(t, e) && t.pc.WriteVerdict?
    requires InProgress(e.row.status) ==> e.row.allowed == None
    ensures StaysInTime(t, e, Effect(t, e))
  {
    VerdictShape(t, e);
  }

  lemma HarmlessStaysInTime(t: Thread, e: Entry)
    requires EntryOk(e) && JobInTime(t, e) && Harmless(t.pc) && IsStatement(t.pc)
    requires InProgress(e.row.status) ==> e.row.allowed == None
    ensures StaysInTime(t, e, Effect(t, e))
  {
    HarmlessWrites(PendingUpdate(t).value, t, e.row);
  }

  lemma EarlyStaysInTime(t: Thread, e: Entry)
    requires ThreadOk(t, e) && !t.sweeping && JobInTime(t, e) && IsStatement(t.pc) && !Harmless(t.pc)
    requires !t.pc.WriteVerdict?
    requires InProgress(e.row.status) ==> e.row.allowed == None
    ensures StaysInTime(t, e, Effect(t, e))
  {}

  // So does a sweep's, on a row without a job.
  lemma SweepIsFinal(cfg: Config, t: Thread, e: Entry, a: Answer)
    requires EntryOk(e) && ThreadOk(t, e) && t.sweeping && AnswerFits(t, e, a)
    requires InProgress(e.row.status) ==> e.row.allowed == None
    ensures var (t', e') := Advanced(cfg, t, e, a);
      && RowFinal(e, e') && (InProgress(e'.row.status) ==> e'.row.allowed == None) && t'.target == t.target
  {
    hide Backed, Reaggregated, FollowsEncryptedPolicy, Untouched;
  }

  ghost predicate RowsFinal(es: Entries, es': Entries) {
    forall id :: 0 <= id < |es| && id < |es'| ==> RowFinal(es[id], es'[id])
  }

  lemma AdvanceStaysApart(cfg: Config, s: State, actor: Actor, a: Answer)
    requires Inv(cfg, s) && Apart(s) && Enabled(cfg, s, Advance(actor, a))
    ensures Apart(Apply(cfg, s, Advance(actor, a)))
    ensures RowsFinal(s.entries, Apply(cfg, s, Advance(actor, a)).entries)
  {
    var s' := Apply(cfg, s, Advance(actor, a));
    var t := s.threads[actor];
    var e := s.entries[t.target];
    assert Placed(s.entries, actor, t);
    AdvancedKeeps(cfg, t, e, a);
    if actor.Job? {
      JobStaysInTime(cfg, t, e, a);
    } else {
      SweepIsFinal(cfg, t, e, a);
    }
    var (t', e') := Advanced(cfg, t, e, a);
    MovedWorkers(s, actor, t', e', a.Raised?, Gone(s, t, a));
    MoveStaysApart(s, actor, t', e', s'.workers);
  }

  lemma MoveStaysApart(s: State, actor: Actor, t': Thread, e': Entry, ws': Workers)
    requires ThreadsOk(s.entries, s.threads) && Apart(s) && actor in s.threads && s.threads[actor].target < |s.entries|
    requires t'.target == s.threads[actor].target
    requires actor.Job? ==> JobInTime(t', e')
    requires RowFinal(s.entries[t'.target], e') && (InProgress(e'.row.status) ==> e'.row.allowed == None)
    requires ws'.Keys == s.workers.Keys && forall w :: w in ws' ==> ws'[w].queue == s.workers[w].queue
    ensures var es := s.entries[t'.target := e']; var ts := s.threads[actor := t'];
      JobsInTime(es, ts) && InProgressUndecided(es) && SweepsMeetNoJob(ts, ws') && RowsFinal(s.entries, es)
  {
    MoveKeepsJobsInTime(s.entries, s.threads, s.workers, actor, t', e');
    SameTargetsMeetNoJob(s.threads, s.threads[actor := t'], s.workers, ws');
    InProgressKept(s.entries, t'.target, e');
  }

  lemma InProgressKept(es: Entries, id: nat, e': Entry)
    requires InProgressUndecided(es) && id < |es|
    requires RowFinal(es[id], e') && (InProgress(e'.row.status) ==> e'.row.allowed == None)
    ensures InProgressUndecided(es[id := e']) && RowsFinal(es, es[id := e'])
  {}

  lemma SameTargetsMeetNoJob(ts: Threads, ts': Threads, ws: Workers, ws': Workers)
    requires SweepsMeetNoJob(ts, ws) && ts'.Keys == ts.Keys && ws'.Keys == ws.Keys
    requires forall a :: a in ts ==> ts'[a].target == ts[a].target
    requires forall w :: w in ws ==> ws'[w].queue == ws[w].queue
    ensures SweepsMeetNoJob(ts', ws')
  {
    forall a | a in ts' && a.Sweep? ensures Job(ts'[a].target) !in ts' {
      assert Job(ts[a].target) !in ts;
    }
  }

  lemma MoveKeepsJobsInTime(es: Entries, ts: Threads, ws: Workers, actor: Actor, t': Thread, e': Entry)
    requires ThreadsOk(es, ts) && JobsInTime(es, ts) && SweepsMeetNoJob(ts, ws) && actor in ts
    requires ts[actor].target < |es|
    requires t'.target == ts[actor].target && (actor.Job? ==> JobInTime(t', e'))
    ensures JobsInTime(es[t'.target := e'], ts[actor := t'])
  {
    assert Placed(es, actor, ts[actor]);
    var ts', es' := ts[actor := t'], es[t'.target := e'];
    forall b | b in ts' && b.Job? ensures ts'[b].target < |es'| && JobInTime(ts'[b], es'[ts'[b].target]) {
      assert Placed(es, b, ts[b]);
      assert ts[b].target < |es| && JobInTime(ts[b], es[ts[b].target]);
      if actor.Sweep? { assert Job(ts[actor].target) !in ts; }
    }
  }

  // Nobody holds the row that a claim is about to take.
  ghost predicate Unheld(s: State, id: nat) {
    && id < |s.entries| && s.entries[id].row.status == RECEIVED && s.entries[id].row.allowed == None
    && (forall a :: a in s.threads ==> s.threads[a].target != id && a != Job(id))
    && (forall v :: v in s.workers ==> id !in s.workers[v].queue)
  }

  lemma ClaimIsUnheld(cfg: Config, s: State, w: nat)
    requires Inv(cfg, s) && Claiming(s, w)
    ensures Unheld(s, s.workers[w].claim.value.id)
  {
    var id := s.workers[w].claim.value.id;
    assert WorkerOk(cfg, s.clock, s.entries, s.workers[w]);
    ReceivedIsIdle(cfg, s, id);
    assert EntryOk(s.entries[id]);
    forall v | v in s.workers ensures id !in s.workers[v].queue {
      assert WorkerOk(cfg, s.clock, s.entries, s.workers[v]);
    }
  }

  lemma CommitStaysApart(s: State, w: nat)
    requires Apart(s) && Claiming(s, w) && s.workers[w].budget > 0 && Unheld(s, s.workers[w].claim.value.id)
    ensures Apart(CommitClaim(s, w)) && RowsFinal(s.entries, CommitClaim(s, w).entries)
  {}

  lemma LossStaysApart(s: State, w: nat, committed: bool)
    requires Apart(s) && Claiming(s, w) && Unheld(s, s.workers[w].claim.value.id)
    ensures Apart(LoseClaim(s, w, committed)) && RowsFinal(s.entries, LoseClaim(s, w, committed).entries)
  {}

  lemma SweepQueryStaysApart(cfg: Config, s: State, w: nat, found: seq<nat>)
    requires Inv(cfg, s) && Apart(s) && TimelyState(cfg, s) && LifetimeCoversBudget(cfg)
    requires Enabled(cfg, s, SweepQuery(w, found))
    ensures Apart(Apply(cfg, s, SweepQuery(w, found)))
  {
    forall i | 0 <= i < |found| ensures Job(found[i]) !in s.threads {
      assert found[i] in found;
      if Job(found[i]) in s.threads { LiveRowIsNotStale(cfg, s, found[i]); }
    }
  }

  lemma ForgottenStaysApart(cfg: Config, s: State, scanner: nat)
    requires Apart(s)
    ensures var s' := Apply(cfg, s, ScannerDeleted(scanner)); Apart(s') && RowsFinal(s.entries, s'.entries)
  {
    var s' := Apply(cfg, s, ScannerDeleted(scanner));
    assert forall i :: 0 <= i < |s.entries| ==> s'.entries[i].row == s.entries[i].row;
  }

  // Time, insertions, crashes, and a worker's bookkeeping.
  lemma QuietStaysApart(cfg: Config, s: State, step: Step)
    requires Apart(s) && Enabled(cfg, s, step)
    requires step.Submit? || step.RescanInsert? || step.RescanRead? || step.RemoteChange?
    ensures Apart(Apply(cfg, s, step))
    ensures RowsFinal(s.entries, Apply(cfg, s, step).entries)
  {
    var s' := Apply(cfg, s, step);
    assert s'.threads == s.threads && s'.workers == s.workers;
    assert forall id :: 0 <= id < |s.entries| ==> s'.entries[id] == s.entries[id];
  }

  lemma ThreadsShrinkApart(cfg: Config, s: State, step: Step)
    requires Apart(s) && Enabled(cfg, s, step)
    requires step.Retire? || step.WorkerCrash?
    ensures Apart(Apply(cfg, s, step))
    ensures RowsFinal(s.entries, Apply(cfg, s, step).entries)
  {
    var s' := Apply(cfg, s, step);
    assert s'.entries == s.entries;
    assert forall a :: a in s'.threads ==> a in s.threads && s'.threads[a] == s.threads[a];
    assert forall w :: w in s'.workers ==> w in s.workers && s'.workers[w] == s.workers[w];
  }

  lemma BookkeepingStaysApart(cfg: Config, s: State, step: Step)
    requires Apart(s) && Enabled(cfg, s, step)
    requires step.WorkerStart? || step.Harvest? || step.ClaimLock? || step.ClaimBreak?
    ensures Apart(Apply(cfg, s, step))
    ensures RowsFinal(s.entries, Apply(cfg, s, step).entries)
  {
    OneRecordChanges(cfg, s, step);
    QueuesShrinkApart(s, Apply(cfg, s, step));
  }

  lemma OneRecordChanges(cfg: Config, s: State, step: Step)
    requires Enabled(cfg, s, step)
    requires step.WorkerStart? || step.Harvest? || step.ClaimLock? || step.ClaimBreak?
    ensures var s' := Apply(cfg, s, step);
      && s'.entries == s.entries && s'.threads == s.threads
      && SmallerQueues(s.workers, s'.workers)
  {}

  ghost predicate SmallerQueues(ws: Workers, ws': Workers) {
    forall w :: w in ws' ==> ws'[w].queue == [] || (w in ws && ws'[w].queue == ws[w].queue)
  }

  lemma QueuesShrinkApart(s: State, s': State)
    requires Apart(s) && s'.entries == s.entries && s'.threads == s.threads && SmallerQueues(s.workers, s'.workers)
    ensures Apart(s') && RowsFinal(s.entries, s'.entries)
  {}

  lemma TickStaysApart(s: State, seconds: nat)
    requires Apart(s)
    ensures Apart(s.(clock := s.clock + seconds, threads := AllCharged(s.threads, seconds)))
  {
    var ts := AllCharged(s.threads, seconds);
    SameTargetsMeetNoJob(s.threads, ts, s.workers, s.workers);
    forall a | a in ts && a.Job? ensures ts[a].target < |s.entries| && JobInTime(ts[a], s.entries[ts[a].target]) {
      assert ts[a] == Charged(s.threads[a], seconds);
    }
  }

  lemma NextStaleStaysApart(cfg: Config, s: State, w: nat)
    requires Inv(cfg, s) && Apart(s) && SweepWaiting(s, w)
    ensures Apart(NextStale(s, w))
  {}

  lemma PassiveStaysApart(cfg: Config, s: State, step: Step)
    requires Apart(s) && Enabled(cfg, s, step)
    requires !step.Advance? && !step.ClaimCommit? && !step.ClaimLost? && !step.SweepQuery? && !step.ScannerDeleted?
    requires !step.SweepNext?
    ensures Apart(Apply(cfg, s, step))
    ensures RowsFinal(s.entries, Apply(cfg, s, step).entries)
  {
    if step.Tick? {
      TickStaysApart(s, step.seconds);
    } else if step.Retire? || step.WorkerCrash? {
      ThreadsShrinkApart(cfg, s, step);
    } else if step.Submit? || step.RescanInsert? || step.RescanRead? || step.RemoteChange? {
      QuietStaysApart(cfg, s, step);
    } else {
      BookkeepingStaysApart(cfg, s, step);
    }
  }

  lemma ClaimingStaysApart(cfg: Config, s: State, step: Step)
    requires Inv(cfg, s) && Apart(s) && Enabled(cfg, s, step) && (step.ClaimCommit? || step.ClaimLost?)
    ensures Apart(Apply(cfg, s, step)) && RowsFinal(s.entries, Apply(cfg, s, step).entries)
  {
    ClaimIsUnheld(cfg, s, step.w);
    if step.ClaimCommit? {
      CommitStaysApart(s, step.w);
    } else {
      LossStaysApart(s, step.w, step.committed);
    }
  }

  lemma SweepingStaysApart(cfg: Config, s: State, step: Step)
    requires Inv(cfg, s) && Apart(s) && TimelyState(cfg, s) && LifetimeCoversBudget(cfg) && Enabled(cfg, s, step)
    requires step.SweepQuery? || step.SweepNext?
    ensures Apart(Apply(cfg, s, step)) && RowsFinal(s.entries, Apply(cfg, s, step).entries)
  {
    if step.SweepQuery? {
      SweepQueryStaysApart(cfg, s, step.w, step.found);
    } else {
      NextStaleStaysApart(cfg, s, step.w);
    }
  }

  lemma StepStaysApart(cfg: Config, s: State, step: Step)
    requires Inv(cfg, s) && Apart(s) && TimelyState(cfg, s) && LifetimeCoversBudget(cfg) && Enabled(cfg, s, step)
    ensures Apart(Apply(cfg, s, step)) && RowsFinal(s.entries, Apply(cfg, s, step).entries)
  {
    if step.Advance? {
      AdvanceStaysApart(cfg, s, step.actor, step.answer);
    } else if step.ClaimCommit? || step.ClaimLost? {
      ClaimingStaysApart(cfg, s, step);
    } else if step.SweepQuery? || step.SweepNext? {
      SweepingStaysApart(cfg, s, step);
    } else if step.ScannerDeleted? {
      ForgottenStaysApart(cfg, s, step.scanner);
    } else {
      PassiveStaysApart(cfg, s, step);
    }
  }

  lemma StepStaysApartAt(cfg: Config, r: Run, k: nat)
    requires r.Valid(cfg) && k < |r.steps| && Apart(r.states[k]) && TimelyState(cfg, r.states[k])
    requires LifetimeCoversBudget(cfg)
    ensures Apart(r.states[k + 1]) && RowsFinal(r.states[k].entries, r.states[k + 1].entries)
  {
    ReachableInv(cfg, r, k);
    assert r.Follows(cfg, k);
    StepStaysApart(cfg, r.states[k], r.steps[k]);
  }

  lemma {:induction false} TimelyRunStaysApart(cfg: Config, r: Run, k: nat)
    requires r.Valid(cfg) && Timely(cfg, r) && LifetimeCoversBudget(cfg) && k < |r.states|
    ensures Apart(r.states[k])
    decreases k
  {
    if k == 0 {
    } else {
      TimelyRunStaysApart(cfg, r, k - 1);
      StepStaysApartAt(cfg, r, k - 1);
    }
  }

  // No sweep ever selects a row whose thread is still running.
  lemma SweepsSelectOnlyDeadJobs(cfg: Config, r: Run, k: nat, id: nat)
    requires r.Valid(cfg) && Timely(cfg, r) && LifetimeCoversBudget(cfg)
    requires k < |r.steps| && r.steps[k].SweepQuery? && id in r.steps[k].found
    ensures Job(id) !in r.states[k].threads
  {
    TimelyRunStaysApart(cfg, r, k);
    ReachableInv(cfg, r, k);
    assert r.Follows(cfg, k);
    if Job(id) in r.states[k].threads {
      LiveRowIsNotStale(cfg, r.states[k], id);
    }
  }

  lemma {:induction false} TimelyRowIsFinal(cfg: Config, r: Run, i: nat, k: nat, id: nat)
    requires r.Valid(cfg) && Timely(cfg, r) && LifetimeCoversBudget(cfg)
    requires i <= k < |r.states| && id < |r.states[i].entries|
    ensures id < |r.states[k].entries| && RowFinal(r.states[i].entries[id], r.states[k].entries[id])
    decreases k
  {
    if i == k {
    } else {
      TimelyRowIsFinal(cfg, r, i, k - 1, id);
      TimelyRunStaysApart(cfg, r, k - 1);
      StepStaysApartAt(cfg, r, k - 1);
      StepContinuesAt(cfg, r, k - 1);
      assert RowFinal(r.states[k - 1].entries[id], r.states[k].entries[id]);
    }
  }

  lemma VerdictsAreFinalInTime(cfg: Config, r: Run)
    requires r.Valid(cfg) && Timely(cfg, r) && LifetimeCoversBudget(cfg)
    ensures VerdictsFinal(r)
  {
    forall i, k, id | 0 <= i <= k < |r.states| && 0 <= id < |r.states[i].entries| && id < |r.states[k].entries|
      ensures RowFinal(r.states[i].entries[id], r.states[k].entries[id])
    {
      TimelyRowIsFinal(cfg, r, i, k, id);
    }
  }
}
