// Rows whose thread died: the first clean sweep pass over them refuses them.
module CrashRecovery {
  import opened Wrappers
  import opened Policy
  import opened ScanTable
  import opened Protocol
  import opened RowInvariant
  import opened SystemInvariant
  import opened StepEffects

  // A claimed row that no thread works on. None ever will again.
  ghost predicate Orphan(s: State, id: nat) {
    id < |s.entries| && s.entries[id].row.status != RECEIVED && Job(id) !in s.threads
  }

  ghost predicate Refused(s: State, id: nat) {
    id < |s.entries|
    && (s.entries[id].row.status == ERROR || s.entries[id].row.status == CLEANUP_FAILED)
    && s.entries[id].row.allowed == Some(false)
  }

  lemma SweepOnRow(cfg: Config, t: Thread, e: Entry, a: Answer)
    requires EntryOk(e) && ThreadOk(t, e) && t.sweeping && AnswerFits(t, e, a)
    ensures var e' := Advanced(cfg, t, e, a).1;
      && (e'.row.allowed == e.row.allowed || e'.row.allowed == Some(false))
      && (e'.row.status == e.row.status || e'.row.status == ERROR || e'.row.status == CLEANUP_FAILED)
      && (t.pc == Fail(true) && a.Committed? ==> e'.row.status == ERROR && e'.row.allowed == Some(false))
  {
    if IsStatement(t.pc) {
      HarmlessWrites(PendingUpdate(t).value, t, e.row);
    }
  }

  lemma OrphanStays(cfg: Config, s: State, step: Step, id: nat)
    requires Inv(cfg, s) && Enabled(cfg, s, step) && Orphan(s, id)
    ensures var s' := Apply(cfg, s, step);
      && Orphan(s', id)
      && (s.entries[id].row.allowed != Some(true) ==> s'.entries[id].row.allowed != Some(true))
      && (Refused(s, id) ==> Refused(s', id))
  {
    RowAfter(cfg, s, step, id);
    ThreadAfter(cfg, s, step, Job(id));
    assert EntryOk(s.entries[id]);
    OrphanRowStays(cfg, s, step, Apply(cfg, s, step), id);
  }

  lemma OrphanRowStays(cfg: Config, s: State, step: Step, s': State, id: nat)
    requires RowEffect(cfg, s, step, s', id) && ThreadEffect(cfg, s, step, s', Job(id)) && Orphan(s, id)
    requires EntryOk(s.entries[id])
    ensures Orphan(s', id)
    ensures s.entries[id].row.allowed != Some(true) ==> s'.entries[id].row.allowed != Some(true)
    ensures Refused(s, id) ==> Refused(s', id)
  {
    if step.Advance? && step.actor in s.threads && s.threads[step.actor].target == id
      && s'.entries[id] != s.entries[id]
    {
      SweepOnRow(cfg, s.threads[step.actor], s.entries[id], step.answer);
    }
  }

  // ---------------------------------------------------------------------------
  // One pass of a worker's sweep
  // ---------------------------------------------------------------------------

  // The pass has still to refuse the row, or is about to, or has done so.
  ghost predicate InHand(s: State, w: nat, id: nat)
    requires w in s.workers
  {
    || id in s.workers[w].queue
    || (Sweep(w) in s.threads && s.threads[Sweep(w)].target == id && s.threads[Sweep(w)].pc == Fail(true))
    || Refused(s, id)
  }

  // Step k belongs to the same pass: the worker neither restarts nor queries again.
  predicate SamePass(step: Step, w: nat) {
    !(step.SweepQuery? && step.w == w) && !(step.WorkerStart? && step.w == w) && !(step.WorkerCrash? && step.w == w)
  }

  lemma PassWorkers(cfg: Config, s: State, step: Step, w: nat)
    requires Enabled(cfg, s, step) && w in s.workers && SamePass(step, w)
    ensures var s' := Apply(cfg, s, step);
      && w in s'.workers
      && (s'.workers[w].cleanPass ==> s.workers[w].cleanPass)
      && (s'.workers[w].queue == s.workers[w].queue
          || (step == SweepNext(w) && s'.workers[w].queue == s.workers[w].queue[1..]))
      && (MovesThread(step, Sweep(w)) && step.answer.Raised? ==> !s'.workers[w].cleanPass)
  {
    hide Advanced, Gone, Truthful, AnswerFits, LiveJobs;
  }

  lemma PassContinues(cfg: Config, s: State, step: Step, w: nat, id: nat)
    requires Inv(cfg, s) && Enabled(cfg, s, step) && w in s.workers && SamePass(step, w)
    requires Orphan(s, id) && InHand(s, w, id)
    requires w in Apply(cfg, s, step).workers && Apply(cfg, s, step).workers[w].cleanPass
    ensures InHand(Apply(cfg, s, step), w, id)
  {
    var s' := Apply(cfg, s, step);
    PassWorkers(cfg, s, step, w);
    OrphanStays(cfg, s, step, id);
    if id in s.workers[w].queue {
      QueuedStaysInHand(cfg, s, step, w, id);
    } else if !Refused(s, id) {
      FailingStaysInHand(cfg, s, step, w, id);
    }
  }

  lemma QueuedStaysInHand(cfg: Config, s: State, step: Step, w: nat, id: nat)
    requires Enabled(cfg, s, step) && w in s.workers && SamePass(step, w) && id in s.workers[w].queue
    requires w in Apply(cfg, s, step).workers
    ensures InHand(Apply(cfg, s, step), w, id)
  {
    PassWorkers(cfg, s, step, w);
    if step == SweepNext(w) {
      var q := s.workers[w].queue;
      assert q == [q[0]] + q[1..];
    }
  }

  lemma FailingStaysInHand(cfg: Config, s: State, step: Step, w: nat, id: nat)
    requires Inv(cfg, s) && Enabled(cfg, s, step) && w in s.workers && SamePass(step, w)
    requires Sweep(w) in s.threads && s.threads[Sweep(w)].target == id && s.threads[Sweep(w)].pc == Fail(true)
    requires w in Apply(cfg, s, step).workers && Apply(cfg, s, step).workers[w].cleanPass
    ensures InHand(Apply(cfg, s, step), w, id)
  {
    assert Placed(s.entries, Sweep(w), s.threads[Sweep(w)]) && EntryOk(s.entries[id]);
    PassWorkers(cfg, s, step, w);
    if MovesThread(step, Sweep(w)) {
      FailingIsWritten(cfg, s, w, step.answer);
    } else {
      StandingSweepStays(cfg, s, step, w);
    }
  }

  lemma FailingIsWritten(cfg: Config, s: State, w: nat, a: Answer)
    requires Enabled(cfg, s, Advance(Sweep(w), a)) && !a.Raised?
    requires var t := s.threads[Sweep(w)]; var e := s.entries[t.target];
      t.sweeping && t.pc == Fail(true) && ThreadOk(t, e) && EntryOk(e)
    ensures Refused(Apply(cfg, s, Advance(Sweep(w), a)), s.threads[Sweep(w)].target)
  {
    hide EntryOk, Advanced, Effect;
    var t := s.threads[Sweep(w)];
    SweepOnRow(cfg, t, s.entries[t.target], a);
    MovedRow(cfg, s, Sweep(w), a);
  }

  lemma StandingSweepStays(cfg: Config, s: State, step: Step, w: nat)
    requires Inv(cfg, s) && Enabled(cfg, s, step) && SamePass(step, w)
    requires Sweep(w) in s.threads && s.threads[Sweep(w)].pc == Fail(true) && !MovesThread(step, Sweep(w))
    ensures Sweep(w) in Apply(cfg, s, step).threads
    ensures SamePoint(s.threads[Sweep(w)], Apply(cfg, s, step).threads[Sweep(w)])
  {
    assert Placed(s.entries, Sweep(w), s.threads[Sweep(w)]);
    ThreadStays(cfg, s, step, Sweep(w));
    ThreadAfter(cfg, s, step, Sweep(w));
  }

  lemma MovedRow(cfg: Config, s: State, a: Actor, answer: Answer)
    requires Enabled(cfg, s, Advance(a, answer))
    ensures Apply(cfg, s, Advance(a, answer)).entries[s.threads[a].target]
      == Advanced(cfg, s.threads[a], s.entries[s.threads[a].target], answer).1
  {}

  lemma OrphanAt(cfg: Config, r: Run, k: nat, id: nat)
    requires r.Valid(cfg) && k < |r.steps| && Orphan(r.states[k], id)
    ensures Orphan(r.states[k + 1], id)
    ensures r.states[k].entries[id].row.allowed != Some(true) ==> r.states[k + 1].entries[id].row.allowed != Some(true)
    ensures Refused(r.states[k], id) ==> Refused(r.states[k + 1], id)
  {
    ReachableInv(cfg, r, k);
    assert r.Follows(cfg, k);
    OrphanStays(cfg, r.states[k], r.steps[k], id);
  }

  // The query puts the row into the pass.
  lemma PassBeginsAt(cfg: Config, r: Run, i: nat, w: nat, id: nat)
    requires r.Valid(cfg) && i < |r.steps| && r.steps[i].SweepQuery? && r.steps[i].w == w
    requires id < |r.states[i].entries| && StaleNow(cfg, r.states[i], id)
    ensures w in r.states[i + 1].workers && InHand(r.states[i + 1], w, id)
    ensures r.states[i].entries[id].row.allowed != Some(true)
  {
    ReachableInv(cfg, r, i);
    assert r.Follows(cfg, i) && EntryOk(r.states[i].entries[id]);
  }

  lemma PassContinuesAt(cfg: Config, r: Run, k: nat, w: nat, id: nat)
    requires r.Valid(cfg) && k < |r.steps| && w in r.states[k].workers && SamePass(r.steps[k], w)
    requires Orphan(r.states[k], id)
    ensures w in r.states[k + 1].workers && (r.states[k + 1].workers[w].cleanPass ==> r.states[k].workers[w].cleanPass)
    ensures r.states[k + 1].workers[w].cleanPass && InHand(r.states[k], w, id) ==> InHand(r.states[k + 1], w, id)
  {
    ReachableInv(cfg, r, k);
    assert r.Follows(cfg, k);
    PassWorkers(cfg, r.states[k], r.steps[k], w);
    if r.states[k + 1].workers[w].cleanPass && InHand(r.states[k], w, id) {
      PassContinues(cfg, r.states[k], r.steps[k], w, id);
    }
  }

  lemma {:induction false} PassKeepsInHand(cfg: Config, r: Run, i: nat, j: nat, w: nat, id: nat)
    requires r.Valid(cfg) && i < j < |r.states|
    requires r.steps[i].SweepQuery? && r.steps[i].w == w
    requires forall k :: i < k < j ==> SamePass(r.steps[k], w)
    requires Orphan(r.states[i], id) && StaleNow(cfg, r.states[i], id)
    ensures Orphan(r.states[j], id) && r.states[j].entries[id].row.allowed != Some(true)
    ensures w in r.states[j].workers
    ensures r.states[j].workers[w].cleanPass ==> InHand(r.states[j], w, id)
    decreases j
  {
    if j == i + 1 {
      PassBeginsAt(cfg, r, i, w, id);
    } else {
      PassKeepsInHand(cfg, r, i, j - 1, w, id);
      PassContinuesAt(cfg, r, j - 1, w, id);
    }
    OrphanAt(cfg, r, j - 1, id);
  }

  // A row, once allowed, is decided for good: it never looks in progress again.
  ghost predicate Decided(s: State, id: nat) {
    id < |s.entries| && s.entries[id].row.status != RECEIVED && !InProgress(s.entries[id].row.status)
    && (Job(id) in s.threads ==> Harmless(s.threads[Job(id)].pc))
  }

  lemma HarmlessStaysHarmless(cfg: Config, t: Thread, e: Entry, a: Answer)
    requires AnswerFits(t, e, a) && Harmless(t.pc) && StatusAgrees(e.row) && !InProgress(e.row.status)
    ensures var (t', e') := Advanced(cfg, t, e, a); Harmless(t'.pc) && !InProgress(e'.row.status)
  {
    if a.Committed? {
      HarmlessGoesOn(cfg, t);
      HarmlessStatus(t, e);
    } else if a.Raised? {
      if a.applied { HarmlessStatus(t, e); }
    } else {
      HarmlessAnswer(cfg, t, e, a);
    }
  }

  lemma HarmlessStatus(t: Thread, e: Entry)
    requires Harmless(t.pc) && IsStatement(t.pc) && StatusAgrees(e.row) && !InProgress(e.row.status)
    ensures !InProgress(Effect(t, e).row.status)
  {
    HarmlessWrites(PendingUpdate(t).value, t, e.row);
  }

  lemma HarmlessGoesOn(cfg: Config, t: Thread)
    requires Harmless(t.pc) && IsStatement(t.pc)
    ensures Harmless(AfterCommit(cfg, t))
  {}

  lemma HarmlessAnswer(cfg: Config, t: Thread, e: Entry, a: Answer)
    requires AnswerFits(t, e, a) && Harmless(t.pc) && !a.Committed? && !a.Raised?
    ensures var (t', e') := Advanced(cfg, t, e, a); Harmless(t'.pc) && e' == e
  {}

  lemma DecidedStays(cfg: Config, s: State, step: Step, id: nat)
    requires Inv(cfg, s) && Enabled(cfg, s, step) && Decided(s, id)
    ensures Decided(Apply(cfg, s, step), id)
  {
    RowAfter(cfg, s, step, id);
    ThreadAfter(cfg, s, step, Job(id));
    assert EntryOk(s.entries[id]);
    DecidedRowStays(cfg, s, step, Apply(cfg, s, step), id);
    DecidedJobStays(cfg, s, step, Apply(cfg, s, step), id);
  }

  lemma DecidedRowStays(cfg: Config, s: State, step: Step, s': State, id: nat)
    requires RowEffect(cfg, s, step, s', id) && Decided(s, id) && EntryOk(s.entries[id])
    ensures s'.entries[id].row.status != RECEIVED && !InProgress(s'.entries[id].row.status)
  {
    var e, e' := s.entries[id], s'.entries[id];
    if e'.row != e.row {
      HarmlessStaysHarmless(cfg, s.threads[step.actor], e, step.answer);
      AdvancedKeeps(cfg, s.threads[step.actor], e, step.answer);
    }
  }

  lemma DecidedJobStays(cfg: Config, s: State, step: Step, s': State, id: nat)
    requires ThreadEffect(cfg, s, step, s', Job(id)) && Decided(s, id) && EntryOk(s.entries[id])
    ensures Job(id) in s'.threads ==> Harmless(s'.threads[Job(id)].pc)
  {
    if Job(id) in s.threads && Job(id) in s'.threads && MovesThread(step, Job(id)) {
      HarmlessStaysHarmless(cfg, s.threads[Job(id)], s.entries[id], step.answer);
    }
  }

  lemma DecidedStaysAt(cfg: Config, r: Run, k: nat, id: nat)
    requires r.Valid(cfg) && k < |r.steps| && Decided(r.states[k], id)
    ensures Decided(r.states[k + 1], id)
  {
    ReachableInv(cfg, r, k);
    assert r.Follows(cfg, k);
    DecidedStays(cfg, r.states[k], r.steps[k], id);
  }

  lemma {:induction false} DecidedForGood(cfg: Config, r: Run, i: nat, k: nat, id: nat)
    requires r.Valid(cfg) && i <= k < |r.states| && Decided(r.states[i], id)
    ensures Decided(r.states[k], id)
    decreases k
  {
    if i == k {
    } else {
      DecidedForGood(cfg, r, i, k - 1, id);
      DecidedStaysAt(cfg, r, k - 1, id);
    }
  }

  lemma AllowedIsNeverInProgressAgain(cfg: Config, r: Run, i: nat, k: nat, id: nat)
    requires r.Valid(cfg) && i <= k < |r.states| && id < |r.states[i].entries|
    requires r.states[i].entries[id].row.allowed == Some(true)
    ensures Decided(r.states[k], id)
  {
    ReachableInv(cfg, r, i);
    assert EntryOk(r.states[i].entries[id]);
    if Job(id) in r.states[i].threads {
      assert Placed(r.states[i].entries, Job(id), r.states[i].threads[Job(id)]);
    }
    DecidedForGood(cfg, r, i, k, id);
  }

  // Step v is the commit of the job's verdict, of its decision on an encrypted
  // file, or of its failure.
  ghost predicate SpeaksAt(r: Run, v: nat, id: nat) {
    && v < |r.steps| && |r.states| == |r.steps| + 1 && r.steps[v] == Advance(Job(id), Committed)
    && Job(id) in r.states[v].threads && IsTerminalWrite(r.states[v].threads[Job(id)].pc)
    && id < |r.states[v + 1].entries|
  }

  // From the moment a job's own verdict, encrypted decision or failure commits,
  // the row never looks in progress again, so that no later sweep can select it.
  lemma VerdictEndsProgress(cfg: Config, r: Run, i: nat, k: nat, id: nat)
    requires r.Valid(cfg) && i < k < |r.states| && r.steps[i] == Advance(Job(id), Committed)
    requires Job(id) in r.states[i].threads && IsTerminalWrite(r.states[i].threads[Job(id)].pc)
    ensures Decided(r.states[k], id) && !StaleNow(cfg, r.states[k], id)
  {
    DecidedAt(cfg, r, i, id);
    DecidedForGood(cfg, r, i + 1, k, id);
  }

  lemma DecidedAt(cfg: Config, r: Run, i: nat, id: nat)
    requires r.Valid(cfg) && i < |r.steps| && r.steps[i] == Advance(Job(id), Committed)
    requires Job(id) in r.states[i].threads && IsTerminalWrite(r.states[i].threads[Job(id)].pc)
    ensures Decided(r.states[i + 1], id)
  {
    PlacedAt(cfg, r, i, Job(id));
    assert r.Follows(cfg, i);
    VerdictDecides(cfg, r.states[i], id);
  }

  lemma EnteringDecided(cfg: Config, t: Thread, e: Entry, a: Answer)
    requires AnswerFits(t, e, a) && !t.decided && Advanced(cfg, t, e, a).0.decided
    ensures a == Committed && IsTerminalWrite(t.pc)
  {}

  // In every run: a job that has seen its own terminal write commit has a row
  // that is not in progress and never will be.
  lemma {:induction false} DecidedThread(cfg: Config, r: Run, k: nat, id: nat)
    requires r.Valid(cfg) && k < |r.states| && Job(id) in r.states[k].threads && r.states[k].threads[Job(id)].decided
    ensures Decided(r.states[k], id)
    decreases k
  {
    PlacedAt(cfg, r, k, Job(id));
    ThreadAt(cfg, r, k, Job(id));
    var t := r.states[k - 1].threads[Job(id)];
    if t.decided {
      DecidedThread(cfg, r, k - 1, id);
      DecidedForGood(cfg, r, k - 1, k, id);
    } else {
      EnteringDecided(cfg, t, r.states[k - 1].entries[t.target], r.steps[k - 1].answer);
      DecidedAt(cfg, r, k - 1, id);
    }
  }

  lemma VerdictDecides(cfg: Config, s: State, id: nat)
    requires Enabled(cfg, s, Advance(Job(id), Committed))
    requires Placed(s.entries, Job(id), s.threads[Job(id)]) && IsTerminalWrite(s.threads[Job(id)].pc)
    ensures Decided(Apply(cfg, s, Advance(Job(id), Committed)), id)
  {
    TerminalWrite(cfg, s.threads[Job(id)], s.entries[id]);
    MovedRow(cfg, s, Job(id), Committed);
  }

  lemma TerminalWrite(cfg: Config, t: Thread, e: Entry)
    requires ThreadOk(t, e) && !t.sweeping && IsTerminalWrite(t.pc)
    ensures var (t', e') := Advanced(cfg, t, e, Committed);
      Harmless(t'.pc) && e'.row.status != RECEIVED && !InProgress(e'.row.status)
  {
    if t.pc.WriteVerdict? { VerdictShape(t, e); }
  }

  // A crash takes the worker's own threads with it, and nothing else: their rows
  // stay as they are.
  lemma CrashLeavesRows(cfg: Config, s: State, w: nat)
    requires w in s.workers
    ensures Enabled(cfg, s, WorkerCrash(w))
    ensures var s' := Apply(cfg, s, WorkerCrash(w));
      && s'.entries == s.entries && w !in s'.workers
      && (forall a :: a in s'.threads <==> a in s.threads && s.threads[a].worker != w)
      && (forall a :: a in s'.threads ==> s'.threads[a] == s.threads[a])
  {}

  // In one of the three stages of a job, for longer than the lifetime, without a
  // thread.
  ghost predicate LeftBehind(cfg: Config, s: State, id: nat) {
    && id < |s.entries| && Job(id) !in s.threads
    && var row := s.entries[id].row;
    && (row.status == VALIDATING || row.status == TRANSFERRING || row.status == SCANNING)
    && row.startedAt.Some? && row.startedAt.value < s.clock - cfg.lifetime
  }

  // Crash recovery. A row in progress past its lifetime with no thread, when a
  // sweep pass queries the table, is refused by the time that pass ends without
  // a raised statement, stays refused, and was allowed at no moment of the run.
  lemma SweepPassRefusesOrphans(cfg: Config, r: Run, i: nat, j: nat, m: nat, w: nat, id: nat)
    requires r.Valid(cfg) && i < j <= m < |r.states|
    requires r.steps[i].SweepQuery? && r.steps[i].w == w
    requires forall k :: i < k < j ==> SamePass(r.steps[k], w)
    requires LeftBehind(cfg, r.states[i], id)
    requires w in r.states[j].workers && !Sweeping(r.states[j], w) && r.states[j].workers[w].cleanPass
    ensures Refused(r.states[m], id)
    ensures forall k :: 0 <= k <= m && id < |r.states[k].entries| ==> r.states[k].entries[id].row.allowed != Some(true)
  {
    PassKeepsInHand(cfg, r, i, j, w, id);
    RefusedForGood(cfg, r, j, m, id);
    forall k | 0 <= k <= m && id < |r.states[k].entries|
      ensures r.states[k].entries[id].row.allowed != Some(true)
    {
      if k <= i {
        if r.states[k].entries[id].row.allowed == Some(true) { AllowedIsNeverInProgressAgain(cfg, r, k, i, id); }
      } else if k <= j {
        PassKeepsInHand(cfg, r, i, k, w, id);
      } else {
        RefusedForGood(cfg, r, j, k, id);
      }
    }
  }

  // So every row that was claimed longer ago than the lifetime and has no thread
  // has an end to show after such a pass, whatever stage it was left in.
  lemma CleanPassEndsRows(cfg: Config, r: Run, i: nat, j: nat, m: nat, w: nat, id: nat)
    requires r.Valid(cfg) && i < j <= m < |r.states|
    requires r.steps[i].SweepQuery? && r.steps[i].w == w
    requires forall k :: i < k < j ==> SamePass(r.steps[k], w)
    requires w in r.states[j].workers && !Sweeping(r.states[j], w) && r.states[j].workers[w].cleanPass
    requires id < |r.states[i].entries| && Job(id) !in r.states[i].threads
    requires var row := r.states[i].entries[id].row;
      row.status != RECEIVED && row.startedAt.Some? && row.startedAt.value < r.states[i].clock - cfg.lifetime
    ensures id < |r.states[m].entries|
    ensures r.states[m].entries[id].row.status in {CLEAN, INFECTED, ENCRYPTED, ERROR, CLEANUP_FAILED}
  {
    ReachableInv(cfg, r, i);
    assert EntryOk(r.states[i].entries[id]);
    if LeftBehind(cfg, r.states[i], id) {
      SweepPassRefusesOrphans(cfg, r, i, j, m, w, id);
    } else {
      DecidedForGood(cfg, r, i, m, id);
      ReachableInv(cfg, r, m);
      assert EntryOk(r.states[m].entries[id]);
    }
  }

  lemma {:induction false} RefusedForGood(cfg: Config, r: Run, j: nat, m: nat, id: nat)
    requires r.Valid(cfg) && j <= m < |r.states| && Orphan(r.states[j], id) && Refused(r.states[j], id)
    ensures Orphan(r.states[m], id) && Refused(r.states[m], id)
    decreases m
  {
    if j == m {
    } else {
      RefusedForGood(cfg, r, j, m - 1, id);
      OrphanAt(cfg, r, m - 1, id);
    }
  }
}
