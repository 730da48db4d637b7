// What becomes of a row after its job has spoken, through the deletion of an
// infected source and to the end of the run (api/scanner.py:84-187, 332-434,
// api/worker.py:18-34).
module Aftermath {
  import opened Wrappers
  import opened Policy
  import opened ScanTable
  import opened Protocol
  import opened RowInvariant
  import opened SystemInvariant
  import opened StepEffects
  import opened Runs
  import opened SourceDeletion
  import opened Finality
  import opened CrashRecovery
  import opened Calls
  import opened Quarantine

  // ---------------------------------------------------------------------------
  // A refusal by the row's own job
  // ---------------------------------------------------------------------------

  ghost predicate JobRefused(s: State, id: nat) {
    Decided(s, id) && s.entries[id].row.allowed == Some(false)
  }

  lemma RefusalStays(cfg: Config, s: State, step: Step, s': State, id: nat)
    requires RowEffect(cfg, s, step, s', id) && JobRefused(s, id) && EntryOk(s.entries[id])
    ensures s'.entries[id].row.allowed == Some(false)
  {
    var e, e' := s.entries[id], s'.entries[id];
    if e'.row != e.row && IsStatement(s.threads[step.actor].pc) {
      HarmlessWrites(PendingUpdate(s.threads[step.actor]).value, s.threads[step.actor], e.row);
    }
  }

  lemma StepStaysRefused(cfg: Config, s: State, step: Step, id: nat)
    requires Inv(cfg, s) && Enabled(cfg, s, step) && JobRefused(s, id)
    ensures JobRefused(Apply(cfg, s, step), id)
  {
    DecidedStays(cfg, s, step, id);
    RowAfter(cfg, s, step, id);
    assert EntryOk(s.entries[id]);
    RefusalStays(cfg, s, step, Apply(cfg, s, step), id);
  }

  lemma StepStaysRefusedAt(cfg: Config, r: Run, k: nat, id: nat)
    requires r.Valid(cfg) && k < |r.steps| && JobRefused(r.states[k], id)
    ensures JobRefused(r.states[k + 1], id)
  {
    ReachableInv(cfg, r, k);
    assert r.Follows(cfg, k);
    StepStaysRefused(cfg, r.states[k], r.steps[k], id);
  }

  lemma {:induction false} RefusedFrom(cfg: Config, r: Run, i: nat, k: nat, id: nat)
    requires r.Valid(cfg) && i <= k < |r.states| && JobRefused(r.states[i], id)
    ensures JobRefused(r.states[k], id)
    decreases k
  {
    if i == k {
    } else {
      RefusedFrom(cfg, r, i, k - 1, id);
      StepStaysRefusedAt(cfg, r, k - 1, id);
    }
  }

  // A row that its own job's terminal write left not allowed is never allowed
  // again, whatever sweeps, crashes and failing statements follow. No timing is
  // assumed.
  lemma JobRefusalIsFinal(cfg: Config, r: Run, i: nat, k: nat, id: nat)
    requires r.Valid(cfg) && i < k < |r.states| && r.steps[i] == Advance(Job(id), Committed)
    requires Job(id) in r.states[i].threads && IsTerminalWrite(r.states[i].threads[Job(id)].pc)
    requires id < |r.states[i + 1].entries| && r.states[i + 1].entries[id].row.allowed == Some(false)
    ensures id < |r.states[k].entries| && r.states[k].entries[id].row.allowed == Some(false)
  {
    DecidedAt(cfg, r, i, id);
    RefusedFrom(cfg, r, i + 1, k, id);
  }

  // ---------------------------------------------------------------------------
  // The columns of the verdict
  // ---------------------------------------------------------------------------

  // The write of a statement reached the table, heard or not.
  predicate Applied(a: Answer) {
    a.Committed? || (a.Raised? && a.applied)
  }

  predicate JobWrites(s: State, step: Step, id: nat) {
    step.Advance? && step.actor == Job(id) && Job(id) in s.threads && Applied(step.answer)
  }

  // The handler of _process_one overwrites the row.
  predicate CrashWrites(s: State, step: Step, id: nat) {
    JobWrites(s, step, id) && s.threads[Job(id)].pc.RecordCrash?
  }

  predicate OverlayWrites(s: State, step: Step, id: nat) {
    JobWrites(s, step, id) && s.threads[Job(id)].pc.Overlay?
  }

  predicate SweepWrites(s: State, step: Step, id: nat) {
    step.Advance? && step.actor.Sweep? && step.actor in s.threads && s.threads[step.actor].target == id
    && s.threads[step.actor].pc.Fail? && Applied(step.answer)
  }

  // Points of a job that has spoken.
  predicate VerdictStands(pc: Pc) {
    InDeletion(pc) || pc.Tidy? || pc.MarkTidy? || pc.ReadForOverlay? || pc.Overlay?
  }

  predicate AtRest(pc: Pc) {
    VerdictStands(pc) || pc.RecordCrash? || pc.Finished?
  }

  ghost predicate Unswept(s: State, id: nat) {
    && (forall w :: Sweep(w) in s.threads ==> s.threads[Sweep(w)].target != id)
    && (forall w :: w in s.workers ==> id !in s.workers[w].queue)
  }

  function StatusAfter(spoken: Status, crashed: bool, overlaid: bool): Status {
    if crashed then ERROR else if overlaid then CLEANUP_FAILED else spoken
  }

  // The verdict in a row is the given one, but for the handler's write and the
  // overlay.
  ghost predicate Says(row: Row, spoken: Row, crashed: bool, overlaid: bool) {
    && row.status == StatusAfter(spoken.status, crashed, overlaid)
    && row.allowed == (if crashed then Some(false) else spoken.allowed)
    && row.threat == spoken.threat && row.needsReview == spoken.needsReview
    && row.policyApplied == spoken.policyApplied && row.encryptedPolicyApplied == spoken.encryptedPolicyApplied
  }

  // Nothing follows the handler's write, and after the overlay only the handler.
  predicate RestsAt(pc: Pc, crashed: bool, overlaid: bool) {
    AtRest(pc) && (crashed ==> pc.Finished?) && (overlaid ==> pc.Finished? || pc.RecordCrash?)
  }

  // A row whose job has spoken and of which no sweep knows.
  ghost predicate Settled(s: State, id: nat, spoken: Row, crashed: bool, overlaid: bool) {
    && id < |s.entries| && Unswept(s, id) && !InProgress(spoken.status) && spoken.status != RECEIVED
    && Says(s.entries[id].row, spoken, crashed, overlaid)
    && (Job(id) in s.threads ==> RestsAt(s.threads[Job(id)].pc, crashed, overlaid))
  }

  predicate CrashIs(t: Thread, a: Answer) {
    t.pc.RecordCrash? && Applied(a)
  }

  predicate OverlayIs(t: Thread, a: Answer) {
    t.pc.Overlay? && Applied(a)
  }

  lemma OwnStepAfterVerdict(cfg: Config, t: Thread, e: Entry, a: Answer, spoken: Row, crashed: bool, overlaid: bool)
    requires AnswerFits(t, e, a) && !t.sweeping && RestsAt(t.pc, crashed, overlaid)
    requires Says(e.row, spoken, crashed, overlaid)
    ensures var (t', e') := Advanced(cfg, t, e, a);
      var crashed', overlaid' := crashed || CrashIs(t, a), overlaid || OverlayIs(t, a);
      RestsAt(t'.pc, crashed', overlaid') && Says(e'.row, spoken, crashed', overlaid')
  {
    if Applied(a) {
      WriteAfterVerdict(cfg, t, e, spoken, crashed, overlaid);
    } else if !a.Raised? {
      AnswerAfterVerdict(cfg, t, e, a);
    }
  }

  lemma WriteAfterVerdict(cfg: Config, t: Thread, e: Entry, spoken: Row, crashed: bool, overlaid: bool)
    requires IsStatement(t.pc) && RestsAt(t.pc, crashed, overlaid) && Says(e.row, spoken, crashed, overlaid)
    ensures var crashed', overlaid' := crashed || t.pc.RecordCrash?, overlaid || t.pc.Overlay?;
      Says(Effect(t, e).row, spoken, crashed', overlaid') && RestsAt(AfterCommit(cfg, t), crashed', overlaid')
  {
    hide Says, RestsAt, Effect, AfterCommit;
    WriteSays(t, e, spoken, crashed, overlaid);
    WriteGoesOn(cfg, t, crashed, overlaid);
  }

  lemma WriteGoesOn(cfg: Config, t: Thread, crashed: bool, overlaid: bool)
    requires IsStatement(t.pc) && RestsAt(t.pc, crashed, overlaid)
    ensures RestsAt(AfterCommit(cfg, t), crashed || t.pc.RecordCrash?, overlaid || t.pc.Overlay?)
  {}

  lemma WriteSays(t: Thread, e: Entry, spoken: Row, crashed: bool, overlaid: bool)
    requires IsStatement(t.pc) && RestsAt(t.pc, crashed, overlaid) && Says(e.row, spoken, crashed, overlaid)
    ensures Says(Effect(t, e).row, spoken, crashed || t.pc.RecordCrash?, overlaid || t.pc.Overlay?)
  {
    RestUpdate(t);
    hide PendingUpdate;
  }

  lemma RestUpdate(t: Thread)
    requires IsStatement(t.pc) && AtRest(t.pc)
    ensures PendingUpdate(t).Some? && !t.pc.StoreResults?
    ensures var u := PendingUpdate(t).value;
      u == (if t.pc.RecordCrash? then FAILED_SCAN
            else if t.pc.Overlay? then Update(status := Some(CLEANUP_FAILED))
            else Update(cleanup := u.cleanup))
  {}

  lemma AnswerAfterVerdict(cfg: Config, t: Thread, e: Entry, a: Answer)
    requires AnswerFits(t, e, a) && AtRest(t.pc) && !a.Committed? && !a.Raised?
    ensures var (t', e') := Advanced(cfg, t, e, a); e' == e && AtRest(t'.pc) && VerdictStands(t.pc) && !t.pc.Overlay?
  {}

  // Rows that are not in progress are found by no query.
  lemma StaysUnswept(cfg: Config, s: State, step: Step, id: nat)
    requires ThreadsOk(s.entries, s.threads) && Enabled(cfg, s, step) && Unswept(s, id)
    requires id < |s.entries| && !InProgress(s.entries[id].row.status)
    ensures Unswept(Apply(cfg, s, step), id)
  {
    var s' := Apply(cfg, s, step);
    forall w | Sweep(w) in s'.threads ensures s'.threads[Sweep(w)].target != id {
      OldOrNextSweep(cfg, s, step, w);
    }
    forall w | w in s'.workers ensures id !in s'.workers[w].queue {
      OldOrFoundQueue(cfg, s, step, w);
    }
  }

  lemma OldOrNextSweep(cfg: Config, s: State, step: Step, w: nat)
    requires ThreadsOk(s.entries, s.threads) && Enabled(cfg, s, step) && Sweep(w) in Apply(cfg, s, step).threads
    ensures var t' := Apply(cfg, s, step).threads[Sweep(w)];
      if Sweep(w) in s.threads then t'.target == s.threads[Sweep(w)].target
      else step == SweepNext(w) && w in s.workers && t'.target in s.workers[w].queue
  {
    if step.Advance? {
      AdvancedTarget(cfg, s.threads[step.actor], s.entries[s.threads[step.actor].target], step.answer);
    } else if !step.SweepNext? && !step.ClaimCommit? {
      StandingThread(cfg, s, step, Sweep(w));
    }
  }

  lemma OldOrFoundQueue(cfg: Config, s: State, step: Step, w: nat)
    requires Enabled(cfg, s, step) && w in Apply(cfg, s, step).workers
    ensures var q := Apply(cfg, s, step).workers[w].queue;
      forall id :: id in q ==> (w in s.workers && id in s.workers[w].queue) || StaleNow(cfg, s, id)
  {
    if w in s.workers && SamePass(step, w) {
      PassWorkers(cfg, s, step, w);
    }
  }

  // One step of a run, seen from such a row.
  lemma SettledStep(cfg: Config, s: State, step: Step, id: nat, spoken: Row, crashed: bool, overlaid: bool)
    requires Inv(cfg, s) && Enabled(cfg, s, step) && Settled(s, id, spoken, crashed, overlaid)
    ensures Settled(Apply(cfg, s, step), id, spoken, crashed || CrashWrites(s, step, id),
                    overlaid || OverlayWrites(s, step, id))
  {
    hide Says, RestsAt;
    NotInProgress(s.entries[id].row, spoken, crashed, overlaid);
    StaysUnswept(cfg, s, step, id);
    if MovesThread(step, Job(id)) {
      assert Placed(s.entries, Job(id), s.threads[Job(id)]);
      OwnSettledStep(cfg, s, step.answer, id, spoken, crashed, overlaid);
    } else {
      RowAfter(cfg, s, step, id);
      ThreadAfter(cfg, s, step, Job(id));
      OthersSettledStep(cfg, s, step, Apply(cfg, s, step), id, spoken, crashed, overlaid);
    }
  }

  lemma NotInProgress(row: Row, spoken: Row, crashed: bool, overlaid: bool)
    requires Says(row, spoken, crashed, overlaid) && !InProgress(spoken.status)
    ensures !InProgress(row.status)
  {}

  lemma OwnSettledStep(cfg: Config, s: State, a: Answer, id: nat, spoken: Row, crashed: bool, overlaid: bool)
    requires Enabled(cfg, s, Advance(Job(id), a)) && Placed(s.entries, Job(id), s.threads[Job(id)])
    requires Settled(s, id, spoken, crashed, overlaid) && Unswept(Apply(cfg, s, Advance(Job(id), a)), id)
    ensures var step := Advance(Job(id), a);
      Settled(Apply(cfg, s, step), id, spoken, crashed || CrashWrites(s, step, id),
              overlaid || OverlayWrites(s, step, id))
  {
    hide Says, RestsAt;
    OwnStepAfterVerdict(cfg, s.threads[Job(id)], s.entries[id], a, spoken, crashed, overlaid);
  }

  lemma OthersSettledStep(cfg: Config, s: State, step: Step, s': State, id: nat, spoken: Row, crashed: bool,
                          overlaid: bool)
    requires RowEffect(cfg, s, step, s', id) && ThreadEffect(cfg, s, step, s', Job(id)) && !MovesThread(step, Job(id))
    requires Settled(s, id, spoken, crashed, overlaid) && Unswept(s', id) && spoken.status != RECEIVED
    ensures Settled(s', id, spoken, crashed || CrashWrites(s, step, id), overlaid || OverlayWrites(s, step, id))
  {}

  // ---------------------------------------------------------------------------
  // Over whole runs
  // ---------------------------------------------------------------------------

  ghost predicate CrashRecorded(r: Run, v: nat, k: nat, id: nat)
    requires k < |r.states| && |r.states| == |r.steps| + 1
  {
    exists j :: v < j < k && CrashWrites(r.states[j], r.steps[j], id)
  }

  ghost predicate Overlaid(r: Run, v: nat, k: nat, id: nat)
    requires k < |r.states| && |r.states| == |r.steps| + 1
  {
    exists j :: v < j < k && OverlayWrites(r.states[j], r.steps[j], id)
  }

  // No sweep has the row when its job speaks, in a run that keeps its time.
  lemma SettledFromVerdict(cfg: Config, r: Run, v: nat, id: nat)
    requires r.Valid(cfg) && Timely(cfg, r) && LifetimeCoversBudget(cfg) && SpeaksAt(r, v, id)
    ensures Settled(r.states[v + 1], id, r.states[v + 1].entries[id].row, false, false)
  {
    VerdictAt(cfg, r, v, id);
    DecidedAt(cfg, r, v, id);
    TimelyRunStaysApart(cfg, r, v + 1);
    ApartIsUnswept(r.states[v + 1], id);
  }

  lemma VerdictAt(cfg: Config, r: Run, v: nat, id: nat)
    requires r.Valid(cfg) && SpeaksAt(r, v, id)
    ensures Job(id) in r.states[v + 1].threads && AtRest(r.states[v + 1].threads[Job(id)].pc)
    ensures !r.states[v + 1].threads[Job(id)].pc.RecordCrash?
  {
    PlacedAt(cfg, r, v, Job(id));
    assert r.Follows(cfg, v);
    JobGoesOn(cfg, r.states[v], id);
  }

  lemma ApartIsUnswept(s: State, id: nat)
    requires Apart(s) && Job(id) in s.threads
    ensures Unswept(s, id)
  {
    forall w | Sweep(w) in s.threads ensures s.threads[Sweep(w)].target != id {
      assert Job(s.threads[Sweep(w)].target) !in s.threads;
    }
  }

  lemma JobGoesOn(cfg: Config, s: State, id: nat)
    requires Enabled(cfg, s, Advance(Job(id), Committed)) && Placed(s.entries, Job(id), s.threads[Job(id)])
    requires IsTerminalWrite(s.threads[Job(id)].pc)
    ensures var s' := Apply(cfg, s, Advance(Job(id), Committed));
      && Job(id) in s'.threads && id < |s'.entries| && AtRest(s'.threads[Job(id)].pc)
      && !s'.threads[Job(id)].pc.RecordCrash?
  {}

  lemma SettledStepAt(cfg: Config, r: Run, k: nat, id: nat, spoken: Row, crashed: bool, overlaid: bool)
    requires r.Valid(cfg) && k < |r.steps| && Settled(r.states[k], id, spoken, crashed, overlaid)
    ensures Settled(r.states[k + 1], id, spoken, crashed || CrashWrites(r.states[k], r.steps[k], id),
                    overlaid || OverlayWrites(r.states[k], r.steps[k], id))
  {
    ReachableInv(cfg, r, k);
    assert r.Follows(cfg, k);
    SettledStep(cfg, r.states[k], r.steps[k], id, spoken, crashed, overlaid);
  }

  lemma {:induction false} SettledLasts(cfg: Config, r: Run, v: nat, k: nat, id: nat, spoken: Row)
    requires r.Valid(cfg) && v < k < |r.states| && Settled(r.states[v + 1], id, spoken, false, false)
    ensures Settled(r.states[k], id, spoken, CrashRecorded(r, v, k, id), Overlaid(r, v, k, id))
    decreases k
  {
    hide Settled;
    if k == v + 1 {
      assert !CrashRecorded(r, v, k, id) && !Overlaid(r, v, k, id);
    } else {
      SettledLasts(cfg, r, v, k - 1, id, spoken);
      SettledStepAt(cfg, r, k - 1, id, spoken, CrashRecorded(r, v, k - 1, id), Overlaid(r, v, k - 1, id));
      RecordedThen(r, v, k, id);
    }
  }

  lemma RecordedThen(r: Run, v: nat, k: nat, id: nat)
    requires |r.states| == |r.steps| + 1 && v + 1 < k < |r.states|
    ensures CrashRecorded(r, v, k, id)
      <==> CrashRecorded(r, v, k - 1, id) || CrashWrites(r.states[k - 1], r.steps[k - 1], id)
    ensures Overlaid(r, v, k, id) <==> Overlaid(r, v, k - 1, id) || OverlayWrites(r.states[k - 1], r.steps[k - 1], id)
  {}

  // Step i is a call of the job that raises, and from there on the handler is
  // about to write.
  ghost predicate RaisesAt(r: Run, i: nat, j: nat, id: nat) {
    && i < j < |r.states| && |r.states| == |r.steps| + 1
    && r.steps[i].Advance? && r.steps[i].actor == Job(id) && r.steps[i].answer.Raised?
    && (forall m :: i < m <= j ==> Job(id) in r.states[m].threads && r.states[m].threads[Job(id)].pc.RecordCrash?)
  }

  lemma EnteringHandler(cfg: Config, t: Thread, e: Entry, a: Answer)
    requires AnswerFits(t, e, a) && Advanced(cfg, t, e, a).0.pc.RecordCrash?
    ensures a.Raised? && !t.pc.RecordCrash?
  {}

  lemma {:induction false} HandlerFollowsRaise(cfg: Config, r: Run, j: nat, id: nat) returns (i: nat)
    requires r.Valid(cfg) && j < |r.states| && Job(id) in r.states[j].threads
    requires r.states[j].threads[Job(id)].pc.RecordCrash?
    ensures RaisesAt(r, i, j, id)
    decreases j
  {
    PreviousThread(cfg, r, j, Job(id));
    if MovesThread(r.steps[j - 1], Job(id)) {
      var t := r.states[j - 1].threads[Job(id)];
      EnteringHandler(cfg, t, r.states[j - 1].entries[t.target], r.steps[j - 1].answer);
      i := j - 1;
    } else {
      i := HandlerFollowsRaise(cfg, r, j - 1, id);
    }
  }

  lemma CrashRecordedIff(cfg: Config, r: Run, v: nat, k: nat, id: nat)
    requires r.Valid(cfg) && SpeaksAt(r, v, id) && v < k < |r.states|
    ensures CrashRecorded(r, v, k, id) <==>
      exists i, j :: v < i < j < k && RaisesAt(r, i, j, id) && CrashWrites(r.states[j], r.steps[j], id)
  {
    if CrashRecorded(r, v, k, id) {
      var j :| v < j < k && CrashWrites(r.states[j], r.steps[j], id);
      var i := HandlerFollowsRaise(cfg, r, j, id);
      VerdictAt(cfg, r, v, id);
    }
  }

  // The columns of a row after its job has spoken, CLEAN, INFECTED, ENCRYPTED or
  // ERROR, in every run that keeps its time. The status is ERROR if and only if
  // afterwards a call of the job raised and the handler's write then reached the
  // table; otherwise CLEANUP_FAILED if and only if the overlay was written;
  // otherwise what the job said. `allowed` is what the job said, and false after
  // the handler's write; the other columns of the verdict stay.
  lemma VerdictBecomes(cfg: Config, r: Run, v: nat, k: nat, id: nat)
    requires r.Valid(cfg) && Timely(cfg, r) && LifetimeCoversBudget(cfg) && SpeaksAt(r, v, id) && v < k < |r.states|
    ensures id < |r.states[k].entries|
    ensures Says(r.states[k].entries[id].row, r.states[v + 1].entries[id].row, CrashRecorded(r, v, k, id),
                 Overlaid(r, v, k, id))
    ensures CrashRecorded(r, v, k, id) <==>
      exists i, j :: v < i < j < k && RaisesAt(r, i, j, id) && CrashWrites(r.states[j], r.steps[j], id)
  {
    SettledFromVerdict(cfg, r, v, id);
    SettledLasts(cfg, r, v, k, id, r.states[v + 1].entries[id].row);
    CrashRecordedIff(cfg, r, v, k, id);
  }

  // So an allowed file loses its permission by the handler's write and by nothing
  // else; a failed cleanup shows in the status and leaves it allowed.
  lemma AllowedBecomes(cfg: Config, r: Run, v: nat, k: nat, id: nat)
    requires r.Valid(cfg) && Timely(cfg, r) && LifetimeCoversBudget(cfg) && SpeaksAt(r, v, id) && v < k < |r.states|
    requires r.states[v + 1].entries[id].row.allowed == Some(true)
    ensures id < |r.states[k].entries|
    ensures var row := r.states[k].entries[id].row;
      && (row.allowed == Some(false) <==> CrashRecorded(r, v, k, id))
      && (row.allowed == Some(true) <==> !CrashRecorded(r, v, k, id))
      && (row.status == CLEANUP_FAILED <==> Overlaid(r, v, k, id) && !CrashRecorded(r, v, k, id))
      && (row.status == r.states[v + 1].entries[id].row.status
          <==> !Overlaid(r, v, k, id) && !CrashRecorded(r, v, k, id))
    ensures CrashRecorded(r, v, k, id) <==>
      exists i, j :: v < i < j < k && RaisesAt(r, i, j, id) && CrashWrites(r.states[j], r.steps[j], id)
  {
    VerdictBecomes(cfg, r, v, k, id);
    SpokenStatus(cfg, r, v, id);
    VerdictAgreesWithStatus(cfg, r, v + 1, id);
  }

  // A job says CLEAN, INFECTED, ENCRYPTED or ERROR.
  lemma SpokenStatus(cfg: Config, r: Run, v: nat, id: nat)
    requires r.Valid(cfg) && SpeaksAt(r, v, id)
    ensures OverlayApplies(r.states[v + 1].entries[id].row.status)
  {
    PlacedAt(cfg, r, v, Job(id));
    assert r.Follows(cfg, v);
    MovedRowOnly(cfg, r.states[v], Job(id), Committed, id);
    TerminalStatus(r.states[v].threads[Job(id)], r.states[v].entries[id]);
  }

  lemma TerminalStatus(t: Thread, e: Entry)
    requires ThreadOk(t, e) && !t.sweeping && IsTerminalWrite(t.pc)
    ensures OverlayApplies(Effect(t, e).row.status)
  {
    if t.pc.WriteVerdict? { VerdictShape(t, e); }
  }

  // And an infected one is never allowed.
  lemma InfectedBecomes(cfg: Config, r: Run, v: nat, k: nat, id: nat)
    requires r.Valid(cfg) && Timely(cfg, r) && LifetimeCoversBudget(cfg) && v < k < |r.states|
    requires InfectedVerdictAt(r, v, id)
    ensures id < |r.states[k].entries| && r.states[k].entries[id].row.allowed == Some(false)
    ensures r.states[k].entries[id].row.status
      == StatusAfter(INFECTED, CrashRecorded(r, v, k, id), Overlaid(r, v, k, id))
    ensures CrashRecorded(r, v, k, id) <==>
      exists i, j :: v < i < j < k && RaisesAt(r, i, j, id) && CrashWrites(r.states[j], r.steps[j], id)
  {
    VerdictBecomes(cfg, r, v, k, id);
  }

  // While the deletion of the source goes on, whatever the playbook answers and
  // whatever becomes of the remote file, the row says INFECTED and not allowed.
  lemma DeletionKeepsVerdict(cfg: Config, r: Run, k: nat, id: nat)
    requires r.Valid(cfg) && Timely(cfg, r) && LifetimeCoversBudget(cfg) && k < |r.states|
    requires Job(id) in r.states[k].threads && InDeletion(r.states[k].threads[Job(id)].pc)
    ensures id < |r.states[k].entries|
    ensures r.states[k].entries[id].row.status == INFECTED && r.states[k].entries[id].row.allowed == Some(false)
  {
    var v := DeletionFollowsVerdict(cfg, r, k, id);
    SettledFromVerdict(cfg, r, v, id);
    SettledLasts(cfg, r, v, k, id, r.states[v + 1].entries[id].row);
  }

  // The row that a finished job leaves: what the job said at one step of its own,
  // as the handler and the overlay have left it.
  lemma ProcessedRow(cfg: Config, before: Run, after: Run, id: nat) returns (v: nat)
    requires Went(cfg, before, after, Job(id)) && Timely(cfg, after) && LifetimeCoversBudget(cfg)
    requires Job(id) in before.Last().threads && !before.Last().threads[Job(id)].decided
    requires after.Last().threads[Job(id)].decided
    ensures |before.steps| <= v < |after.steps| && SpeaksAt(after, v, id) && id < |after.Last().entries|
    ensures Says(after.Last().entries[id].row, after.states[v + 1].entries[id].row,
                 CrashRecorded(after, v, |after.steps|, id), Overlaid(after, v, |after.steps|, id))
  {
    v := SpeakingStep(cfg, before, after, id);
    VerdictBecomes(cfg, after, v, |after.steps|, id);
  }

  // ---------------------------------------------------------------------------
  // Without the timing hypothesis
  // ---------------------------------------------------------------------------

  lemma OwnWriteOnInfected(cfg: Config, t: Thread, e: Entry, a: Answer)
    requires EntryOk(e) && ThreadOk(t, e) && !t.sweeping && Reasoned(cfg, t, e) && AnswerFits(t, e, a)
    requires e.row.status == INFECTED
    ensures Advanced(cfg, t, e, a).1.row.status == ERROR <==> t.pc.RecordCrash? && Applied(a)
  {
    assert e.row.policyApplied.Some? && Harmless(t.pc) && !t.pc.Reject? && !t.pc.Fail?;
  }

  lemma SweepWriteOnInfected(cfg: Config, t: Thread, e: Entry, a: Answer)
    requires ThreadOk(t, e) && t.sweeping && AnswerFits(t, e, a) && e.row.status == INFECTED
    ensures Advanced(cfg, t, e, a).1.row.status == ERROR <==> t.pc.Fail? && Applied(a)
  {}

  lemma MoveOnInfected(cfg: Config, s: State, actor: Actor, a: Answer, id: nat)
    requires Enabled(cfg, s, Advance(actor, a)) && Placed(s.entries, actor, s.threads[actor]) && id < |s.entries|
    requires EntryOk(s.entries[id]) && s.entries[id].row.status == INFECTED
    requires Job(id) in s.threads ==> Reasoned(cfg, s.threads[Job(id)], s.entries[id])
    ensures var step := Advance(actor, a); var s' := Apply(cfg, s, step);
      |s'.entries| == |s.entries|
      && (s'.entries[id].row.status == ERROR <==> CrashWrites(s, step, id) || SweepWrites(s, step, id))
  {
    MovedRowOnly(cfg, s, actor, a, id);
    var t := s.threads[actor];
    if t.target == id && actor.Job? {
      OwnWriteOnInfected(cfg, t, s.entries[id], a);
    } else if t.target == id {
      SweepWriteOnInfected(cfg, t, s.entries[id], a);
    }
  }

  lemma RestOnInfected(cfg: Config, s: State, step: Step, s': State, id: nat)
    requires RowEffect(cfg, s, step, s', id) && !step.Advance? && s.entries[id].row.status == INFECTED
    ensures s'.entries[id].row.status == INFECTED
  {}

  // The single steps that turn INFECTED into ERROR, in every run: the write of
  // the job's handler, and that of a sweep that had selected the row before the
  // verdict.
  lemma InfectedToErrorIff(cfg: Config, r: Run, k: nat, id: nat)
    requires r.Valid(cfg) && k < |r.steps| && id < |r.states[k].entries|
    requires r.states[k].entries[id].row.status == INFECTED
    ensures id < |r.states[k + 1].entries|
    ensures r.states[k + 1].entries[id].row.status == ERROR
      <==> CrashWrites(r.states[k], r.steps[k], id) || SweepWrites(r.states[k], r.steps[k], id)
  {
    assert r.Follows(cfg, k);
    RowOkAt(cfg, r, k, id);
    if r.steps[k].Advance? {
      if Job(id) in r.states[k].threads { EveryJobIsReasoned(cfg, r, k, id); }
      PlacedAt(cfg, r, k, r.steps[k].actor);
      MoveOnInfected(cfg, r.states[k], r.steps[k].actor, r.steps[k].answer, id);
    } else {
      RestOnInfected(cfg, r.states[k], r.steps[k], r.states[k + 1], id);
    }
  }

  lemma RowOkAt(cfg: Config, r: Run, k: nat, id: nat)
    requires r.Valid(cfg) && k < |r.steps| && id < |r.states[k].entries|
    ensures EntryOk(r.states[k].entries[id]) && RowEffect(cfg, r.states[k], r.steps[k], r.states[k + 1], id)
  {
    ReachableInv(cfg, r, k);
    assert r.Follows(cfg, k);
    RowAfter(cfg, r.states[k], r.steps[k], id);
  }
}
