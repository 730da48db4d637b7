// What the progress columns of a row mean, the status while a job is under way and
// the three sub-statuses; what a new row holds; that a job comes to an end, is charged
// its time and is never stuck (api/scanner.py:21-199, 215-330, 379-434,
// api/db.py:29-52, api/panel/routes.py:153-196).
module Progress {
  import opened Wrappers
  import opened Policy
  import opened ScanTable
  import opened ScanPlaybook
  import opened Protocol
  import opened RowInvariant
  import opened SystemInvariant
  import opened StepEffects
  import opened Runs
  import opened Finality
  import opened Provenance

  // ---------------------------------------------------------------------------
  // The status of a job under way
  // ---------------------------------------------------------------------------

  predicate InStage(pc: Pc, st: Status) {
    && (pc.ResolveProfile? || pc.ReadScanners? || pc.MarkTransferring? ==> st == VALIDATING)
    && (pc.LookupFetchHost? || pc.FetchPlaybook? || pc.MarkTransferOk? || pc.Detect? ==> st == TRANSFERRING)
    && (pc.RecordEncryption? || pc.ReadPolicies? || pc.WriteEncrypted? || pc.MarkScanning? ==> st == TRANSFERRING)
    && (pc.RunScanPlaybook? || pc.RecordHash? || pc.StoreResults? || pc.WriteVerdict? ==> st == SCANNING)
  }

  // The status tells the stage, unless a sweep has refused the row.
  predicate ShowsStage(pc: Pc, st: Status) {
    InStage(pc, st) || st == ERROR || st == CLEANUP_FAILED
  }

  lemma OwnAnswerShows(cfg: Config, t: Thread, e: Entry, a: Answer)
    requires AnswerFits(t, e, a) && !a.Committed? && !a.Raised? && ShowsStage(t.pc, e.row.status)
    ensures var (t', e') := Advanced(cfg, t, e, a); ShowsStage(t'.pc, e'.row.status)
  {
    assert Advanced(cfg, t, e, a).1.row == e.row;
  }

  lemma OwnWriteShows(cfg: Config, t: Thread, e: Entry)
    requires IsStatement(t.pc) && ShowsStage(t.pc, e.row.status)
    ensures ShowsStage(AfterCommit(cfg, t), Effect(t, e).row.status)
  {
    hide Aggregate, Stored, ApplyEncrypted;
  }

  lemma OwnStepShows(cfg: Config, t: Thread, e: Entry, a: Answer)
    requires AnswerFits(t, e, a) && ShowsStage(t.pc, e.row.status)
    ensures var (t', e') := Advanced(cfg, t, e, a); ShowsStage(t'.pc, e'.row.status)
  {
    if a.Committed? {
      OwnWriteShows(cfg, t, e);
    } else if !a.Raised? {
      OwnAnswerShows(cfg, t, e, a);
    }
  }

  lemma SweepShows(cfg: Config, t: Thread, e: Entry, a: Answer)
    requires ThreadOk(t, e) && t.sweeping && AnswerFits(t, e, a)
    ensures var st := Advanced(cfg, t, e, a).1.row.status; st == e.row.status || st == ERROR || st == CLEANUP_FAILED
  {}

  lemma OthersShow(cfg: Config, s: State, step: Step, s': State, id: nat)
    requires RowEffect(cfg, s, step, s', id) && ThreadEffect(cfg, s, step, s', Job(id)) && !MovesThread(step, Job(id))
    requires Job(id) in s'.threads
    requires Job(id) in s.threads ==>
      ThreadOk(s.threads[Job(id)], s.entries[id]) && ShowsStage(s.threads[Job(id)].pc, s.entries[id].row.status)
    requires Job(id) !in s.threads ==> s'.entries[id].row.status == VALIDATING
    ensures ShowsStage(s'.threads[Job(id)].pc, s'.entries[id].row.status)
  {
    if Job(id) in s.threads && s'.entries[id].row != s.entries[id].row {
      SweepShows(cfg, s.threads[step.actor], s.entries[id], step.answer);
    }
  }

  lemma ClaimValidates(cfg: Config, s: State, step: Step, id: nat)
    requires Inv(cfg, s) && Enabled(cfg, s, step) && Job(id) !in s.threads && Job(id) in Apply(cfg, s, step).threads
    ensures id < |Apply(cfg, s, step).entries| && Apply(cfg, s, step).entries[id].row.status == VALIDATING
  {
    ThreadAfter(cfg, s, step, Job(id));
    ClaimedStatus(s, step.w, id);
  }

  lemma ClaimedStatus(s: State, w: nat, id: nat)
    requires Claiming(s, w) && s.workers[w].budget > 0 && Claims(s.workers[w], id)
    ensures id < |CommitClaim(s, w).entries| && CommitClaim(s, w).entries[id].row.status == VALIDATING
  {}

  lemma NewJobStage(cfg: Config, s: State, step: Step, id: nat)
    requires Inv(cfg, s) && Enabled(cfg, s, step) && Job(id) !in s.threads && Job(id) in Apply(cfg, s, step).threads
    ensures id < |Apply(cfg, s, step).entries|
    ensures InStage(Apply(cfg, s, step).threads[Job(id)].pc, Apply(cfg, s, step).entries[id].row.status)
    ensures ShowsStage(Apply(cfg, s, step).threads[Job(id)].pc, Apply(cfg, s, step).entries[id].row.status)
  {
    ClaimValidates(cfg, s, step, id);
    ThreadAfter(cfg, s, step, Job(id));
    hide Apply;
  }

  lemma StageAt(cfg: Config, r: Run, k: nat, id: nat)
    requires r.Valid(cfg) && k < |r.steps| && Job(id) in r.states[k + 1].threads
    requires Job(id) in r.states[k].threads && id < |r.states[k].entries| ==>
      ShowsStage(r.states[k].threads[Job(id)].pc, r.states[k].entries[id].row.status)
    ensures id < |r.states[k + 1].entries|
    ensures ShowsStage(r.states[k + 1].threads[Job(id)].pc, r.states[k + 1].entries[id].row.status)
  {
    ReachableInv(cfg, r, k);
    assert r.Follows(cfg, k);
    PlacedAt(cfg, r, k + 1, Job(id));
    if Job(id) in r.states[k].threads {
      StandingStage(cfg, r.states[k], r.steps[k], id);
    } else {
      NewJobStage(cfg, r.states[k], r.steps[k], id);
    }
    hide *;
  }

  lemma StandingStage(cfg: Config, s: State, step: Step, id: nat)
    requires Inv(cfg, s) && Enabled(cfg, s, step) && Job(id) in s.threads && Job(id) in Apply(cfg, s, step).threads
    requires id < |s.entries| ==> ShowsStage(s.threads[Job(id)].pc, s.entries[id].row.status)
    ensures id < |Apply(cfg, s, step).entries|
    ensures ShowsStage(Apply(cfg, s, step).threads[Job(id)].pc, Apply(cfg, s, step).entries[id].row.status)
  {
    hide ShowsStage;
    assert Placed(s.entries, Job(id), s.threads[Job(id)]);
    RowAfter(cfg, s, step, id);
    ThreadAfter(cfg, s, step, Job(id));
    if MovesThread(step, Job(id)) {
      MovedRowOnly(cfg, s, Job(id), step.answer, id);
      OwnStepShows(cfg, s.threads[Job(id)], s.entries[id], step.answer);
    } else {
      OthersShow(cfg, s, step, Apply(cfg, s, step), id);
    }
  }

  // In every reachable state the status tells the stage of a job that has not yet
  // spoken: VALIDATING until the transfer is noted, TRANSFERRING until the scanning
  // is, SCANNING until the verdict; or a sweep has taken the row for abandoned.
  lemma {:induction false} StatusShowsStage(cfg: Config, r: Run, k: nat, id: nat)
    requires r.Valid(cfg) && k < |r.states| && Job(id) in r.states[k].threads
    ensures id < |r.states[k].entries|
    ensures ShowsStage(r.states[k].threads[Job(id)].pc, r.states[k].entries[id].row.status)
    decreases k
  {
    if k == 0 {
      assert false;
    } else {
      if Job(id) in r.states[k - 1].threads { StatusShowsStage(cfg, r, k - 1, id); }
      StageAt(cfg, r, k - 1, id);
    }
  }

  lemma OwnStepStaysInStage(cfg: Config, t: Thread, e: Entry, a: Answer)
    requires AnswerFits(t, e, a) && InStage(t.pc, e.row.status)
    ensures var (t', e') := Advanced(cfg, t, e, a); InStage(t'.pc, e'.row.status)
  {
    if a.Committed? {
      OwnWriteStaysInStage(cfg, t, e);
    } else if !a.Raised? {
      OwnAnswerStaysInStage(cfg, t, e, a);
    }
  }

  lemma OwnWriteStaysInStage(cfg: Config, t: Thread, e: Entry)
    requires IsStatement(t.pc) && InStage(t.pc, e.row.status)
    ensures InStage(AfterCommit(cfg, t), Effect(t, e).row.status)
  {
    hide Aggregate, Stored, ApplyEncrypted;
  }

  lemma OwnAnswerStaysInStage(cfg: Config, t: Thread, e: Entry, a: Answer)
    requires AnswerFits(t, e, a) && !a.Committed? && !a.Raised? && InStage(t.pc, e.row.status)
    ensures var (t', e') := Advanced(cfg, t, e, a); InStage(t'.pc, e'.row.status)
  {
    assert Advanced(cfg, t, e, a).1.row == e.row;
  }

  lemma OthersStayInStage(cfg: Config, s: State, step: Step, s': State, id: nat)
    requires RowEffect(cfg, s, step, s', id) && ThreadEffect(cfg, s, step, s', Job(id)) && !MovesThread(step, Job(id))
    requires Job(id) in s.threads && Job(id) in s'.threads && SweepsMeetNoJob(s.threads, s.workers)
    requires InStage(s.threads[Job(id)].pc, s.entries[id].row.status)
    ensures InStage(s'.threads[Job(id)].pc, s'.entries[id].row.status)
  {}

  lemma StandingStaysInStage(cfg: Config, s: State, step: Step, id: nat)
    requires Inv(cfg, s) && Enabled(cfg, s, step) && Job(id) in s.threads && Job(id) in Apply(cfg, s, step).threads
    requires SweepsMeetNoJob(s.threads, s.workers)
    requires id < |s.entries| ==> InStage(s.threads[Job(id)].pc, s.entries[id].row.status)
    ensures id < |Apply(cfg, s, step).entries|
    ensures InStage(Apply(cfg, s, step).threads[Job(id)].pc, Apply(cfg, s, step).entries[id].row.status)
  {
    hide InStage, SweepsMeetNoJob;
    assert Placed(s.entries, Job(id), s.threads[Job(id)]);
    RowAfter(cfg, s, step, id);
    ThreadAfter(cfg, s, step, Job(id));
    if MovesThread(step, Job(id)) {
      MovedRowOnly(cfg, s, Job(id), step.answer, id);
      OwnStepStaysInStage(cfg, s.threads[Job(id)], s.entries[id], step.answer);
    } else {
      OthersStayInStage(cfg, s, step, Apply(cfg, s, step), id);
    }
  }

  lemma TimelyStageAt(cfg: Config, r: Run, k: nat, id: nat)
    requires r.Valid(cfg) && k < |r.steps| && Job(id) in r.states[k + 1].threads && Apart(r.states[k])
    requires Job(id) in r.states[k].threads && id < |r.states[k].entries| ==>
      InStage(r.states[k].threads[Job(id)].pc, r.states[k].entries[id].row.status)
    ensures id < |r.states[k + 1].entries|
    ensures InStage(r.states[k + 1].threads[Job(id)].pc, r.states[k + 1].entries[id].row.status)
  {
    ReachableInv(cfg, r, k);
    assert r.Follows(cfg, k);
    PlacedAt(cfg, r, k + 1, Job(id));
    if Job(id) in r.states[k].threads {
      StandingStaysInStage(cfg, r.states[k], r.steps[k], id);
    } else {
      NewJobStage(cfg, r.states[k], r.steps[k], id);
    }
    hide *;
  }

  // In a run that keeps its time no sweep does, and the status is the stage.
  lemma {:induction false} TimelyStatusIsStage(cfg: Config, r: Run, k: nat, id: nat)
    requires r.Valid(cfg) && Timely(cfg, r) && LifetimeCoversBudget(cfg) && k < |r.states|
    requires Job(id) in r.states[k].threads
    ensures id < |r.states[k].entries|
    ensures InStage(r.states[k].threads[Job(id)].pc, r.states[k].entries[id].row.status)
    decreases k
  {
    if k == 0 {
      assert false;
    } else {
      if Job(id) in r.states[k - 1].threads { TimelyStatusIsStage(cfg, r, k - 1, id); }
      TimelyRunStaysApart(cfg, r, k - 1);
      TimelyStageAt(cfg, r, k - 1, id);
    }
  }

  // ---------------------------------------------------------------------------
  // transfer_status and scan_status_detail
  // ---------------------------------------------------------------------------

  // The source's host is not configured, or its playbook has not completed.
  ghost predicate NotFetched(heard: set<Answer>) {
    Host(None) in heard || exists a :: a in heard && a.Fetched? && !a.fetch.FetchCompleted?
  }

  ghost predicate HasFetched(heard: set<Answer>) {
    exists a :: a in heard && a.Fetched? && a.fetch.FetchCompleted?
  }

  ghost predicate FetchedOther(heard: set<Answer>, sha256: string) {
    exists a :: a in heard && a.Fetched? && a.fetch.FetchCompleted? && !FetchesIt(a, sha256)
  }

  ghost predicate NotScanned(heard: set<Answer>, sha256: string) {
    exists a :: a in heard && a.Scanned? && !ScansIt(a, sha256)
  }

  ghost predicate HasScanned(heard: set<Answer>, sha256: string) {
    exists a :: a in heard && ScansIt(a, sha256)
  }

  ghost predicate IsReason(heard: set<Answer>, sha256: string, transfer: Option<SubStatus>, detail: SubStatus) {
    || (transfer == Some(FAILED) && detail == SKIPPED && NotFetched(heard))
    || (transfer == Some(OK) && detail == SKIPPED && FetchedOther(heard, sha256))
    || (transfer == None && detail == FAILED && NotScanned(heard, sha256))
  }

  ghost predicate KnowsWhy(heard: set<Answer>, t: Thread) {
    && (t.pc.Reject? ==> IsReason(heard, t.expected, t.pc.transfer, t.pc.detail))
    && (t.pc.RecordHash? ==> HasScanned(heard, t.expected))
    && (t.pc.MarkTransferOk? && t.mode.AnsibleFetch? ==> HasFetched(heard))
  }

  ghost predicate SubStatuses(heard: set<Answer>, row: Row) {
    && row.transfer != SKIPPED
    && (row.transfer == FAILED ==> NotFetched(heard))
    && (row.transfer == OK && row.mode == AnsibleFetch ==> HasFetched(heard))
    && (row.detail == OK ==> HasScanned(heard, row.sha256))
    && (row.detail == FAILED ==> NotScanned(heard, row.sha256))
    && (row.detail == SKIPPED ==> NotFetched(heard) || FetchedOther(heard, row.sha256))
  }

  lemma AnswerTellsWhy(cfg: Config, heard: set<Answer>, t: Thread, e: Entry, a: Answer)
    requires AnswerFits(t, e, a) && !a.Committed? && !a.Raised? && KnowsWhy(heard, t)
    ensures KnowsWhy(heard + {a}, Advanced(cfg, t, e, a).0)
  {
    var t' := Advanced(cfg, t, e, a).0;
    assert a in heard + {a};
    if a.Scanned? && t'.pc.RecordHash? { assert ScansIt(a, t.expected); }
  }

  lemma WriteTellsWhy(cfg: Config, heard: set<Answer>, t: Thread, e: Entry)
    requires ThreadOk(t, e) && !t.sweeping && CanCommit(t) && KnowsWhy(heard, t) && SubStatuses(heard, e.row)
    requires IsSha256(e.row.sha256)
    ensures KnowsWhy(heard, t.(pc := AfterCommit(cfg, t)))
    ensures SubStatuses(heard, Effect(t, e).row)
  {
    if t.pc.RecordHash? {
      GuardAndCheckForceEquality(t.pc.actual, t.expected);
    } else if t.pc.Reject? {
      RejectionTellsWhy(heard, t, e);
    } else {
      OtherWriteTellsWhy(heard, t, e);
    }
    CommitTellsWhy(cfg, heard, t);
    hide *;
  }

  lemma RejectionTellsWhy(heard: set<Answer>, t: Thread, e: Entry)
    requires t.pc.Reject? && t.expected == e.row.sha256 && KnowsWhy(heard, t) && SubStatuses(heard, e.row)
    ensures SubStatuses(heard, Effect(t, e).row)
  {
    hide NotScanned, HasScanned;
  }

  lemma OtherWriteTellsWhy(heard: set<Answer>, t: Thread, e: Entry)
    requires IsStatement(t.pc) && !t.pc.Reject? && !t.pc.RecordHash? && t.mode == e.row.mode
    requires KnowsWhy(heard, t) && SubStatuses(heard, e.row)
    ensures SubStatuses(heard, Effect(t, e).row)
  {
    hide NotFetched, HasFetched, FetchedOther, NotScanned, HasScanned, IsReason, Stored, Aggregate, ApplyEncrypted;
  }

  lemma CommitTellsWhy(cfg: Config, heard: set<Answer>, t: Thread)
    requires IsStatement(t.pc) && KnowsWhy(heard, t)
    ensures KnowsWhy(heard, t.(pc := AfterCommit(cfg, t)))
  {
    hide NotFetched, HasFetched, FetchedOther, NotScanned, HasScanned, IsReason, Aggregate, ApplyEncrypted;
  }

  lemma MoreTellsWhy(heard: set<Answer>, a: Answer, t: Thread, row: Row)
    ensures KnowsWhy(heard, t) ==> KnowsWhy(heard + {a}, t)
    ensures SubStatuses(heard, row) ==> SubStatuses(heard + {a}, row)
  {
    MoreReasons(heard, a, t.expected);
    MoreReasons(heard, a, row.sha256);
    hide NotFetched, HasFetched, FetchedOther, NotScanned, HasScanned;
  }

  lemma MoreReasons(heard: set<Answer>, a: Answer, sha256: string)
    ensures NotFetched(heard) ==> NotFetched(heard + {a})
    ensures HasFetched(heard) ==> HasFetched(heard + {a})
    ensures FetchedOther(heard, sha256) ==> FetchedOther(heard + {a}, sha256)
    ensures NotScanned(heard, sha256) ==> NotScanned(heard + {a}, sha256)
    ensures HasScanned(heard, sha256) ==> HasScanned(heard + {a}, sha256)
  {
    assert forall b :: b in heard ==> b in heard + {a};
  }

  ghost predicate Reasons(heard: set<Answer>, s: State, id: nat) {
    id < |s.entries| ==>
      && SubStatuses(heard, s.entries[id].row)
      && (Job(id) in s.threads ==> KnowsWhy(heard, s.threads[Job(id)]))
  }

  lemma OwnStepTellsWhy(cfg: Config, heard: set<Answer>, t: Thread, e: Entry, a: Answer)
    requires EntryOk(e) && ThreadOk(t, e) && !t.sweeping && AnswerFits(t, e, a)
    requires KnowsWhy(heard, t) && SubStatuses(heard, e.row)
    ensures var (t', e') := Advanced(cfg, t, e, a);
      KnowsWhy(heard + {a}, t') && SubStatuses(heard + {a}, e'.row)
  {
    hide SubStatuses, IsReason, HasScanned, ThreadOk, Effect, AfterCommit;
    if a.Committed? || (a.Raised? && a.applied) {
      WriteTellsWhy(cfg, heard, t, e);
      MoreTellsWhy(heard, a, t.(pc := AfterCommit(cfg, t)), Effect(t, e).row);
    } else if a.Raised? {
      MoreTellsWhy(heard, a, t, e.row);
    } else {
      AnswerTellsWhy(cfg, heard, t, e, a);
      MoreTellsWhy(heard, a, t, e.row);
      NothingWritten(cfg, t, e, a);
    }
  }

  lemma OwnReasons(cfg: Config, heard: set<Answer>, s: State, a: Answer, id: nat)
    requires Enabled(cfg, s, Advance(Job(id), a)) && Placed(s.entries, Job(id), s.threads[Job(id)])
    requires EntryOk(s.entries[id]) && Reasons(heard, s, id)
    ensures Reasons(heard + {a}, Apply(cfg, s, Advance(Job(id), a)), id)
  {
    hide SubStatuses, KnowsWhy, ThreadOk, EntryOk, Advanced;
    OwnStepTellsWhy(cfg, heard, s.threads[Job(id)], s.entries[id], a);
  }

  lemma OthersReason(cfg: Config, heard: set<Answer>, s: State, step: Step, s': State, id: nat)
    requires RowEffect(cfg, s, step, s', id) && ThreadEffect(cfg, s, step, s', Job(id)) && !MovesThread(step, Job(id))
    requires Reasons(heard, s, id)
    ensures Reasons(heard, s', id)
  {
    hide IsReason, HasScanned, NotFetched, HasFetched, FetchedOther, NotScanned;
    OthersKeepGround(cfg, s, step, s', id);
  }

  lemma StepReasons(cfg: Config, heard: set<Answer>, s: State, step: Step, id: nat)
    requires Inv(cfg, s) && Enabled(cfg, s, step) && id < |s.entries| && Reasons(heard, s, id)
    ensures Reasons(heard + NewAnswer(step, id), Apply(cfg, s, step), id)
  {
    hide Reasons, Apply;
    if MovesThread(step, Job(id)) {
      assert Placed(s.entries, Job(id), s.threads[Job(id)]) && EntryOk(s.entries[id]);
      OwnReasons(cfg, heard, s, step.answer, id);
    } else {
      RowAfter(cfg, s, step, id);
      ThreadAfter(cfg, s, step, Job(id));
      OthersReason(cfg, heard, s, step, Apply(cfg, s, step), id);
      assert heard + {} == heard;
    }
  }

  lemma StepReasonsAt(cfg: Config, r: Run, k: nat, id: nat)
    requires r.Valid(cfg) && k < |r.steps| && Reasons(Heard(r, k, id), r.states[k], id)
    ensures Reasons(Heard(r, k + 1, id), r.states[k + 1], id)
  {
    hide SubStatuses, KnowsWhy;
    ReachableInv(cfg, r, k);
    assert r.Follows(cfg, k);
    if id < |r.states[k].entries| {
      StepReasons(cfg, Heard(r, k, id), r.states[k], r.steps[k], id);
    } else if id < |r.states[k + 1].entries| {
      RowIsNew(cfg, r.states[k], r.steps[k], id);
      NewRowStartsEmpty(cfg, r.states[k], r.steps[k], id);
      PendingReasons(Heard(r, k + 1, id), r.states[k + 1].entries[id].row);
    }
  }

  lemma PendingReasons(heard: set<Answer>, row: Row)
    requires row.transfer == PENDING && row.detail == PENDING
    ensures SubStatuses(heard, row)
  {}

  // A row that comes into being, by an upload or a re-scan, is at the beginning.
  lemma NewRowStartsEmpty(cfg: Config, s: State, step: Step, id: nat)
    requires Enabled(cfg, s, step) && |s.entries| <= id < |Apply(cfg, s, step).entries|
    ensures var e := Apply(cfg, s, step).entries[id];
      && e.row.status == RECEIVED && e.row.allowed == None && e.row.threat == None && e.results == []
      && e.row.transfer == PENDING && e.row.detail == PENDING && e.row.cleanup == PENDING
      && e.row.encrypted == None && !e.row.needsReview && e.row.startedAt == None
      && e.row.policyApplied == None && e.row.encryptedPolicyApplied == None
      && e.row.createdAt == s.clock
  {}

  lemma {:induction false} AlwaysReasons(cfg: Config, r: Run, k: nat, id: nat)
    requires r.Valid(cfg) && k < |r.states|
    ensures Reasons(Heard(r, k, id), r.states[k], id)
    decreases k
  {
    if k == 0 {
    } else {
      AlwaysReasons(cfg, r, k - 1, id);
      StepReasonsAt(cfg, r, k - 1, id);
    }
  }

  // In every reachable state: FAILED as transfer status stands for an unknown host
  // or a playbook that did not complete, OK for one that did; as detail, for a scan that did not
  // complete or was of other content; SKIPPED, for a transfer that failed or
  // brought other content; OK as detail, for a scan of the submitted content.
  lemma SubStatusesMean(cfg: Config, r: Run, k: nat, id: nat)
    requires r.Valid(cfg) && k < |r.states| && id < |r.states[k].entries|
    ensures var row := r.states[k].entries[id].row; var heard := Heard(r, k, id);
      && row.transfer != SKIPPED
      && (row.transfer == FAILED ==>
            Host(None) in heard || exists a :: a in heard && a.Fetched? && !a.fetch.FetchCompleted?)
      && (row.transfer == OK && row.mode == AnsibleFetch ==>
            exists a :: a in heard && a.Fetched? && a.fetch.FetchCompleted?)
      && (row.detail == OK ==> exists a :: a in heard && ScansIt(a, row.sha256))
      && (row.detail == FAILED ==> exists a :: a in heard && a.Scanned? && !ScansIt(a, row.sha256))
      && (row.detail == SKIPPED ==>
            Host(None) in heard || exists a :: a in heard && a.Fetched? && !FetchesIt(a, row.sha256))
  {
    AlwaysReasons(cfg, r, k, id);
  }

  // ---------------------------------------------------------------------------
  // cleanup_status
  // ---------------------------------------------------------------------------

  // Before state k a thread on the row, its job or a sweep, has removed or moved
  // the directory (ok), or failed to.
  ghost predicate TidiedAs(r: Run, k: nat, id: nat, ok: bool)
    requires |r.states| == |r.steps| + 1 && k < |r.states|
  {
    exists m, a :: TidyStep(r, k, id, ok, m, a)
  }

  ghost predicate TidyStep(r: Run, k: nat, id: nat, ok: bool, m: int, a: Actor)
    requires |r.states| == |r.steps| + 1 && k < |r.states|
  {
    0 <= m < k && r.steps[m] == Advance(a, Tidied(ok))
    && a in r.states[m].threads && r.states[m].threads[a].target == id
  }

  predicate AfterFailure(pc: Pc) {
    pc == MarkTidy(false) || pc.ReadForOverlay? || pc.Overlay?
  }

  // What a thread at one of these points has done before.
  lemma EnteringNote(cfg: Config, t: Thread, e: Entry, a: Answer, ok: bool)
    requires AnswerFits(t, e, a)
    ensures Advanced(cfg, t, e, a).0.pc == MarkTidy(ok) ==> a == Tidied(ok)
    ensures AfterFailure(Advanced(cfg, t, e, a).0.pc) ==> a == Tidied(false) || AfterFailure(t.pc)
  {}

  lemma {:induction false} ThreadHasTidied(cfg: Config, r: Run, k: nat, a: Actor, ok: bool)
    requires r.Valid(cfg) && k < |r.states| && a in r.states[k].threads
    requires r.states[k].threads[a].pc == MarkTidy(ok) || (AfterFailure(r.states[k].threads[a].pc) && !ok)
    ensures TidiedAs(r, k, r.states[k].threads[a].target, ok)
    decreases k
  {
    hide Advanced, AnswerFits, ThreadOk, TidiedAs, RowEffect;
    PreviousThread(cfg, r, k, a);
    var t, id := r.states[k - 1].threads[a], r.states[k].threads[a].target;
    if MovesThread(r.steps[k - 1], a) {
      EnteringNote(cfg, t, r.states[k - 1].entries[t.target], r.steps[k - 1].answer, ok);
      if r.steps[k - 1].answer == Tidied(ok) {
        TidiedNow(r, k, a, ok);
      } else {
        ThreadHasTidied(cfg, r, k - 1, a, ok);
        TidiedLater(r, k - 1, id, ok);
      }
    } else {
      ThreadHasTidied(cfg, r, k - 1, a, ok);
      TidiedLater(r, k - 1, id, ok);
    }
  }

  lemma TidiedNow(r: Run, k: nat, a: Actor, ok: bool)
    requires |r.states| == |r.steps| + 1 && 0 < k < |r.states| && r.steps[k - 1] == Advance(a, Tidied(ok))
    requires a in r.states[k - 1].threads
    ensures TidiedAs(r, k, r.states[k - 1].threads[a].target, ok)
  {
    assert TidyStep(r, k, r.states[k - 1].threads[a].target, ok, k - 1, a);
  }

  lemma TidiedLater(r: Run, k: nat, id: nat, ok: bool)
    requires |r.states| == |r.steps| + 1 && k + 1 < |r.states| && TidiedAs(r, k, id, ok)
    ensures TidiedAs(r, k + 1, id, ok)
  {
    var m, a :| TidyStep(r, k, id, ok, m, a);
    assert TidyStep(r, k + 1, id, ok, m, a);
  }

  ghost predicate CleanupTold(r: Run, k: nat, id: nat)
    requires |r.states| == |r.steps| + 1 && k < |r.states| && id < |r.states[k].entries|
  {
    var row := r.states[k].entries[id].row;
    && row.cleanup != SKIPPED
    && (row.cleanup == OK ==> TidiedAs(r, k, id, true))
    && (row.cleanup == FAILED ==> TidiedAs(r, k, id, false))
    && (row.status == CLEANUP_FAILED ==> TidiedAs(r, k, id, false))
  }

  // The statements that touch the two columns.
  lemma WhoTellsCleanup(cfg: Config, t: Thread, e: Entry, a: Answer)
    requires AnswerFits(t, e, a) && ThreadOk(t, e)
    ensures var row, row' := e.row, Advanced(cfg, t, e, a).1.row;
      && (row'.cleanup == row.cleanup || (row'.cleanup == OK && t.pc == MarkTidy(true))
          || (row'.cleanup == FAILED && t.pc == MarkTidy(false)))
      && (row'.status == CLEANUP_FAILED ==> row.status == CLEANUP_FAILED || t.pc.Overlay?)
  {
    if a.Committed? || (a.Raised? && a.applied) {
      WriteTellsCleanup(t, e);
    } else if !a.Raised? {
      NothingWritten(cfg, t, e, a);
    }
  }

  lemma WriteTellsCleanup(t: Thread, e: Entry)
    requires IsStatement(t.pc) && ThreadOk(t, e)
    ensures var row, row' := e.row, Effect(t, e).row;
      && (row'.cleanup == row.cleanup || (row'.cleanup == OK && t.pc == MarkTidy(true))
          || (row'.cleanup == FAILED && t.pc == MarkTidy(false)))
      && (row'.status == CLEANUP_FAILED ==> row.status == CLEANUP_FAILED || t.pc.Overlay?)
  {
    hide Stored, ApplyEncrypted, JobOk;
    if t.pc.WriteVerdict? {
      VerdictIs(RawOutcomes(t.pc.raw), t.policy);
    }
    hide Aggregate;
  }

  lemma CleanupToldStep(cfg: Config, r: Run, k: nat, id: nat)
    requires r.Valid(cfg) && k < |r.steps| && id < |r.states[k].entries| && CleanupTold(r, k, id)
    ensures id < |r.states[k + 1].entries| && CleanupTold(r, k + 1, id)
  {
    hide TidiedAs, EntryOk, AnswerFits, Advanced;
    RowEffectAt(cfg, r, k, id);
    if TidiedAs(r, k, id, true) { TidiedLater(r, k, id, true); }
    if TidiedAs(r, k, id, false) { TidiedLater(r, k, id, false); }
    var row, row' := r.states[k].entries[id].row, r.states[k + 1].entries[id].row;
    if row' != row && row.status != RECEIVED {
      CleanupWritten(cfg, r, k, id);
    }
  }

  lemma CleanupWritten(cfg: Config, r: Run, k: nat, id: nat)
    requires r.Valid(cfg) && k < |r.steps| && id < |r.states[k].entries| && id < |r.states[k + 1].entries|
    requires RowEffect(cfg, r.states[k], r.steps[k], r.states[k + 1], id)
    requires r.states[k + 1].entries[id].row != r.states[k].entries[id].row
    requires r.states[k].entries[id].row.status != RECEIVED
    ensures var row, row' := r.states[k].entries[id].row, r.states[k + 1].entries[id].row;
      && (row'.cleanup == row.cleanup
          || (row'.cleanup == OK && TidiedAs(r, k + 1, id, true))
          || (row'.cleanup == FAILED && TidiedAs(r, k + 1, id, false)))
      && (row'.status == CLEANUP_FAILED ==> row.status == CLEANUP_FAILED || TidiedAs(r, k + 1, id, false))
  {
    hide TidiedAs, ThreadOk, AnswerFits, Advanced;
    var a := r.steps[k].actor;
    WhoTellsCleanup(cfg, r.states[k].threads[a], r.states[k].entries[id], r.steps[k].answer);
    NoteIsTidied(cfg, r, k, a);
  }

  lemma RowEffectAt(cfg: Config, r: Run, k: nat, id: nat)
    requires r.Valid(cfg) && k < |r.steps| && id < |r.states[k].entries|
    ensures RowEffect(cfg, r.states[k], r.steps[k], r.states[k + 1], id)
    ensures EntryOk(r.states[k].entries[id])
  {
    ReachableInv(cfg, r, k);
    assert r.Follows(cfg, k);
    RowAfter(cfg, r.states[k], r.steps[k], id);
  }

  lemma NoteIsTidied(cfg: Config, r: Run, k: nat, a: Actor)
    requires r.Valid(cfg) && k < |r.steps| && a in r.states[k].threads
    ensures var t := r.states[k].threads[a];
      && (t.pc == MarkTidy(true) ==> TidiedAs(r, k + 1, t.target, true))
      && (t.pc == MarkTidy(false) || t.pc.Overlay? ==> TidiedAs(r, k + 1, t.target, false))
  {
    var t := r.states[k].threads[a];
    if t.pc == MarkTidy(true) {
      ThreadHasTidied(cfg, r, k, a, true);
      TidiedLater(r, k, t.target, true);
    } else if t.pc == MarkTidy(false) || t.pc.Overlay? {
      ThreadHasTidied(cfg, r, k, a, false);
      TidiedLater(r, k, t.target, false);
    }
  }

  // In every reachable state: OK as cleanup status stands for a directory that was
  // removed or moved, FAILED, and CLEANUP_FAILED as status, for one for which this
  // failed; SKIPPED is never written.
  lemma {:induction false} CleanupMeans(cfg: Config, r: Run, k: nat, id: nat)
    requires r.Valid(cfg) && k < |r.states| && id < |r.states[k].entries|
    ensures CleanupTold(r, k, id)
    decreases k
  {
    if k > 0 && id < |r.states[k - 1].entries| {
      CleanupMeans(cfg, r, k - 1, id);
      CleanupToldStep(cfg, r, k - 1, id);
    } else if k > 0 {
      assert r.Follows(cfg, k - 1);
      NewRowStartsEmpty(cfg, r.states[k - 1], r.steps[k - 1], id);
    } else {
    }
  }

  // After a failed cleanup the status is overlaid if and only if, when it is read, it
  // is one of the four that a scan can end in.
  lemma OverlayFollowsStatus(cfg: Config, s: State, a: Actor, read: Status)
    requires Enabled(cfg, s, Advance(a, StatusRead(read)))
    ensures var status := s.entries[s.threads[a].target].row.status;
      var pc := Apply(cfg, s, Advance(a, StatusRead(read))).threads[a].pc;
      && read == status && (pc == Overlay || pc == Finished)
      && (pc == Overlay <==> status == CLEAN || status == INFECTED || status == ERROR || status == ENCRYPTED)
  {}

  // ---------------------------------------------------------------------------
  // Submission
  // ---------------------------------------------------------------------------

  // What is submitted is what the row says for its whole life.
  lemma SubmissionIsKept(cfg: Config, r: Run, k: nat, j: nat)
    requires r.Valid(cfg) && k < j < |r.states| && r.steps[k].Submit?
    ensures var id := |r.states[k].entries|; var step := r.steps[k];
      && id < |r.states[j].entries|
      && var row := r.states[j].entries[id].row;
      && row.file == step.file && row.mode == step.mode && row.sha256 == step.sha256
      && row.parent == None && row.createdAt == r.states[k].clock
  {
    var id := |r.states[k].entries|;
    assert r.Follows(cfg, k);
    RunContinues(cfg, r, k + 1, j);
    assert Continues(r.states[k + 1].entries[id], r.states[j].entries[id]);
  }

  lemma WhereRescansComeFrom(cfg: Config, s: State, step: Step, panel: nat)
    requires Enabled(cfg, s, step) && panel in Apply(cfg, s, step).rescans
    ensures var kept := Apply(cfg, s, step).rescans[panel];
      || (panel in s.rescans && s.rescans[panel] == kept)
      || (step == RescanRead(panel, kept.parent) && kept.parent < |s.entries|
          && kept.original == s.entries[kept.parent].row)
  {
    hide Advanced, AnswerFits, Truthful, Gone, LiveJobs, Claimable;
  }

  lemma {:induction false} RescanWasRead(cfg: Config, r: Run, i: nat, panel: nat) returns (l: nat)
    requires r.Valid(cfg) && i < |r.states| && panel in r.states[i].rescans
    ensures var kept := r.states[i].rescans[panel];
      && l < i && r.steps[l] == RescanRead(panel, kept.parent) && kept.parent < |r.states[l].entries|
      && kept.original == r.states[l].entries[kept.parent].row
    decreases i
  {
    if i == 0 {
      assert false;
    } else {
      assert r.Follows(cfg, i - 1);
      WhereRescansComeFrom(cfg, r.states[i - 1], r.steps[i - 1], panel);
      if panel in r.states[i - 1].rescans && r.states[i - 1].rescans[panel] == r.states[i].rescans[panel] {
        l := RescanWasRead(cfg, r, i - 1, panel);
      } else {
        l := i - 1;
      }
    }
  }

  // A re-scan is a row about what the row it was asked for said of the file, with
  // that row as its parent; the request is over with it.
  lemma RescanIsKept(cfg: Config, r: Run, k: nat, j: nat) returns (l: nat)
    requires r.Valid(cfg) && k < j < |r.states| && r.steps[k].RescanInsert?
    ensures l < k && r.steps[l].RescanRead? && r.steps[l].panel == r.steps[k].panel
    ensures r.steps[l].id < |r.states[l].entries| && |r.states[k].entries| < |r.states[j].entries|
    ensures var asked := r.states[l].entries[r.steps[l].id].row;
      var row := r.states[j].entries[|r.states[k].entries|].row;
      && row.file == asked.file && row.mode == asked.mode && row.sha256 == asked.sha256
      && row.parent == Some(r.steps[l].id) && row.createdAt == r.states[k].clock
    ensures r.steps[k].panel !in r.states[k + 1].rescans
  {
    assert r.Follows(cfg, k);
    l := RescanWasRead(cfg, r, k, r.steps[k].panel);
    RunContinues(cfg, r, k + 1, j);
    assert Continues(r.states[k + 1].entries[|r.states[k].entries|], r.states[j].entries[|r.states[k].entries|]);
  }

  // ---------------------------------------------------------------------------
  // A job comes to an end
  // ---------------------------------------------------------------------------

  function Rank(pc: Pc): nat {
    match pc
    case ResolveProfile => 0
    case ReadScanners => 1
    case MarkTransferring => 2
    case LookupFetchHost => 3
    case FetchPlaybook => 4
    case MarkTransferOk => 5
    case Detect => 6
    case RecordEncryption(_) => 7
    case ReadPolicies(_) => 8
    case WriteEncrypted(_) => 9
    case MarkScanning => 10
    case RunScanPlaybook => 11
    case RecordHash(_, _) => 12
    case StoreResults(_, _) => 13
    case WriteVerdict(_, _) => 14
    case Reject(_, _) => 15
    case Fail(_) => 16
    case LookupDeleteHost(_) => 17
    case DeleteResolve(_, _) => 18
    case DeleteStat(_, _, _) => 19
    case DeleteRemove(_, _, _) => 20
    case NoteDeletion => 21
    case Tidy(_) => 22
    case MarkTidy(_) => 23
    case ReadForOverlay => 24
    case Overlay => 25
    case RecordCrash => 26
    case Finished => 27
  }

  lemma RankGrows(cfg: Config, t: Thread, e: Entry, a: Answer)
    requires AnswerFits(t, e, a)
    ensures Rank(Advanced(cfg, t, e, a).0.pc) > Rank(t.pc)
  {
    if a.Committed? {
      WriteRankGrows(cfg, t);
    } else if !a.Raised? {
      AnswerRankGrows(cfg, t, e, a);
    }
  }

  lemma WriteRankGrows(cfg: Config, t: Thread)
    requires IsStatement(t.pc)
    ensures Rank(AfterCommit(cfg, t)) > Rank(t.pc)
  {
    hide Aggregate, ApplyEncrypted;
  }

  lemma AnswerRankGrows(cfg: Config, t: Thread, e: Entry, a: Answer)
    requires AnswerFits(t, e, a) && !a.Committed? && !a.Raised?
    ensures Rank(Advanced(cfg, t, e, a).0.pc) > Rank(t.pc)
  {
    if t.pc.DeleteResolve? || t.pc.DeleteStat? || t.pc.DeleteRemove? || t.pc.Tidy? || t.pc.ReadForOverlay? {
      LateRankGrows(cfg, t, e, a);
    } else {
      hide Aligned, UniqueSlugs, ResolveEncrypted;
    }
  }

  lemma LateRankGrows(cfg: Config, t: Thread, e: Entry, a: Answer)
    requires AnswerFits(t, e, a) && !a.Committed? && !a.Raised?
    requires t.pc.DeleteResolve? || t.pc.DeleteStat? || t.pc.DeleteRemove? || t.pc.Tidy? || t.pc.ReadForOverlay?
    ensures Rank(Advanced(cfg, t, e, a).0.pc) > Rank(t.pc)
  {}

  function Steps(r: Run, k: nat, id: nat): nat
    requires k <= |r.steps|
  {
    if k == 0 then 0 else Steps(r, k - 1, id) + if MovesThread(r.steps[k - 1], Job(id)) then 1 else 0
  }

  ghost predicate Bounded(r: Run, k: nat, id: nat)
    requires k < |r.states| && k <= |r.steps|
  {
    && Steps(r, k, id) <= 27
    && (Job(id) in r.states[k].threads ==> Steps(r, k, id) <= Rank(r.states[k].threads[Job(id)].pc))
    && (id >= |r.states[k].entries| || r.states[k].entries[id].row.status == RECEIVED ==> Steps(r, k, id) == 0)
  }

  lemma BoundedStep(cfg: Config, r: Run, k: nat, id: nat)
    requires r.Valid(cfg) && k < |r.steps| && Bounded(r, k, id)
    ensures Bounded(r, k + 1, id)
  {
    if id >= |r.states[k].entries| {
      ReachableInv(cfg, r, k);
      assert r.Follows(cfg, k);
      RowIsNew(cfg, r.states[k], r.steps[k], id);
    } else if MovesThread(r.steps[k], Job(id)) {
      OwnBoundedStep(cfg, r, k, id);
    } else {
      OthersKeepBound(cfg, r, k, id);
    }
  }

  lemma OwnBoundedStep(cfg: Config, r: Run, k: nat, id: nat)
    requires r.Valid(cfg) && k < |r.steps| && MovesThread(r.steps[k], Job(id)) && Bounded(r, k, id)
    ensures Bounded(r, k + 1, id)
  {
    assert r.Follows(cfg, k);
    PlacedAt(cfg, r, k, Job(id));
    RowEffectAt(cfg, r, k, id);
    hide EntryOk, RowEffect;
    OwnRankGrows(cfg, r.states[k], r.steps[k].answer, id);
  }

  lemma OwnRankGrows(cfg: Config, s: State, a: Answer, id: nat)
    requires Enabled(cfg, s, Advance(Job(id), a)) && Placed(s.entries, Job(id), s.threads[Job(id)])
    requires EntryOk(s.entries[id])
    ensures var s' := Apply(cfg, s, Advance(Job(id), a));
      && Job(id) in s'.threads && Rank(s.threads[Job(id)].pc) < Rank(s'.threads[Job(id)].pc) <= 27
      && id < |s'.entries| && s'.entries[id].row.status != RECEIVED
  {
    hide EntryOk, ThreadOk, Evolves, Advanced;
    RankGrows(cfg, s.threads[Job(id)], s.entries[id], a);
    StaysClaimed(cfg, s.threads[Job(id)], s.entries[id], a);
  }

  lemma OthersKeepBound(cfg: Config, r: Run, k: nat, id: nat)
    requires r.Valid(cfg) && k < |r.steps| && !MovesThread(r.steps[k], Job(id)) && Bounded(r, k, id)
    requires id < |r.states[k].entries|
    ensures Bounded(r, k + 1, id)
  {
    hide Advanced, ThreadOk, AnswerFits;
    ThreadAt(cfg, r, k + 1, Job(id));
    RunContinues(cfg, r, k, k + 1);
    assert Continues(r.states[k].entries[id], r.states[k + 1].entries[id]);
  }

  // However it is answered, a job makes at most 27 calls.
  lemma {:induction false} JobIsShort(cfg: Config, r: Run, k: nat, id: nat)
    requires r.Valid(cfg) && k < |r.states|
    ensures Bounded(r, k, id)
    decreases k
  {
    if k == 0 {
    } else {
      JobIsShort(cfg, r, k - 1, id);
      BoundedStep(cfg, r, k - 1, id);
    }
  }

  // ---------------------------------------------------------------------------
  // What a job's two playbook counters count
  // ---------------------------------------------------------------------------

  // What a step adds to the seconds that the job has stood at one of the two.
  function SecondsIn(s: State, step: Step, id: nat, fetching: bool): nat {
    if !step.Tick? || Job(id) !in s.threads then 0
    else if s.threads[Job(id)].pc == (if fetching then FetchPlaybook else RunScanPlaybook) then step.seconds
    else 0
  }

  function Seconds(r: Run, k: nat, id: nat, fetching: bool): nat
    requires k <= |r.steps| && k < |r.states|
  {
    if k == 0 then 0 else Seconds(r, k - 1, id, fetching) + SecondsIn(r.states[k - 1], r.steps[k - 1], id, fetching)
  }

  ghost predicate Counted(r: Run, k: nat, id: nat)
    requires k <= |r.steps| && k < |r.states|
  {
    && (Job(id) in r.states[k].threads ==>
          r.states[k].threads[Job(id)].fetchUsed == Seconds(r, k, id, true)
          && r.states[k].threads[Job(id)].scanUsed == Seconds(r, k, id, false))
    && (Unclaimed(r.states[k], id) ==> Seconds(r, k, id, true) == 0 && Seconds(r, k, id, false) == 0)
  }

  predicate Unclaimed(s: State, id: nat) {
    id >= |s.entries| || s.entries[id].row.status == RECEIVED
  }

  ghost predicate CountersGrow(s: State, step: Step, s': State, id: nat) {
    Job(id) in s'.threads ==>
      var t' := s'.threads[Job(id)];
      if Job(id) in s.threads
      then t'.fetchUsed == s.threads[Job(id)].fetchUsed + SecondsIn(s, step, id, true)
        && t'.scanUsed == s.threads[Job(id)].scanUsed + SecondsIn(s, step, id, false)
      else t'.fetchUsed == 0 && t'.scanUsed == 0 && Unclaimed(s, id)
  }

  lemma TimeCounts(cfg: Config, s: State, seconds: nat, id: nat)
    ensures CountersGrow(s, Tick(seconds), Apply(cfg, s, Tick(seconds)), id)
  {}

  lemma OwnStepCounts(cfg: Config, s: State, a: Answer, id: nat)
    requires Enabled(cfg, s, Advance(Job(id), a))
    ensures CountersGrow(s, Advance(Job(id), a), Apply(cfg, s, Advance(Job(id), a)), id)
  {
    hide AfterCommit, AfterAnswer, Effect, Gone, Truthful;
  }

  lemma ClaimCounts(cfg: Config, s: State, w: nat, id: nat)
    requires Inv(cfg, s) && Enabled(cfg, s, ClaimCommit(w))
    ensures CountersGrow(s, ClaimCommit(w), Apply(cfg, s, ClaimCommit(w)), id)
  {
    assert WorkerOk(cfg, s.clock, s.entries, s.workers[w]);
    if Job(id) in s.threads { assert Placed(s.entries, Job(id), s.threads[Job(id)]); }
  }

  lemma OtherStepCounts(cfg: Config, s: State, step: Step, id: nat)
    requires Enabled(cfg, s, step) && !step.Tick? && !step.ClaimCommit? && !MovesThread(step, Job(id))
    ensures CountersGrow(s, step, Apply(cfg, s, step), id)
  {
    hide Advanced, AnswerFits, Truthful, Gone, LiveJobs, Claimable, Claimed, NewSweep;
  }

  lemma StepCounts(cfg: Config, s: State, step: Step, id: nat)
    requires Inv(cfg, s) && Enabled(cfg, s, step)
    ensures CountersGrow(s, step, Apply(cfg, s, step), id)
    ensures Unclaimed(Apply(cfg, s, step), id) ==> Unclaimed(s, id)
    ensures Unclaimed(s, id) ==> SecondsIn(s, step, id, true) == 0 && SecondsIn(s, step, id, false) == 0
  {
    if Job(id) in s.threads { assert Placed(s.entries, Job(id), s.threads[Job(id)]); }
    if !Unclaimed(s, id) { StepKeepsRows(cfg, s, step, id); }
    hide CountersGrow, Apply;
    if step.Tick? {
      TimeCounts(cfg, s, step.seconds, id);
    } else if step.ClaimCommit? {
      ClaimCounts(cfg, s, step.w, id);
    } else if MovesThread(step, Job(id)) {
      OwnStepCounts(cfg, s, step.answer, id);
    } else {
      OtherStepCounts(cfg, s, step, id);
    }
  }

  lemma StepKeepsRows(cfg: Config, s: State, step: Step, id: nat)
    requires Inv(cfg, s) && Enabled(cfg, s, step) && !Unclaimed(s, id)
    ensures !Unclaimed(Apply(cfg, s, step), id)
  {
    hide Apply;
    RowAfter(cfg, s, step, id);
    if Apply(cfg, s, step).entries[id].row != s.entries[id].row {
      StaysClaimed(cfg, s.threads[step.actor], s.entries[id], step.answer);
    }
  }

  lemma CountedStep(cfg: Config, r: Run, k: nat, id: nat)
    requires r.Valid(cfg) && k < |r.steps| && Counted(r, k, id)
    ensures Counted(r, k + 1, id)
  {
    ReachableInv(cfg, r, k);
    assert r.Follows(cfg, k);
    StepCounts(cfg, r.states[k], r.steps[k], id);
    hide Inv, Enabled, Apply, SecondsIn, Unclaimed;
  }

  // The timing hypothesis is about time: the two counters are the seconds that have
  // passed while the job stood at the one playbook and at the other.
  lemma {:induction false} CountersMeasureTime(cfg: Config, r: Run, k: nat, id: nat)
    requires r.Valid(cfg) && k < |r.states|
    ensures Counted(r, k, id)
    decreases k
  {
    if k == 0 {
    } else {
      CountersMeasureTime(cfg, r, k - 1, id);
      CountedStep(cfg, r, k - 1, id);
    }
  }

  // ---------------------------------------------------------------------------
  // No one is stuck
  // ---------------------------------------------------------------------------

  // One answer that a thread can always get where it stands.
  function SomeAnswer(cfg: Config, s: State, t: Thread): Answer
    requires t.target < |s.entries|
  {
    match t.pc
    case ResolveProfile => Profile(None)
    case ReadScanners => Scanners([])
    case LookupFetchHost => Host(ConfiguredRoot(cfg, HostOf(s, t)))
    case LookupDeleteHost(_) => Host(ConfiguredRoot(cfg, HostOf(s, t)))
    case FetchPlaybook => Answer.Fetched(FetchUnavailable)
    case Detect => DetectedAs(None)
    case ReadPolicies(_) => Policies(map[])
    case RunScanPlaybook => Scanned(ScanUnavailable)
    case DeleteResolve(_, _) => Unavailable
    case DeleteStat(_, _, _) => Unavailable
    case DeleteRemove(_, _, _) => Removal(false, {})
    case Tidy(_) => Tidied(true)
    case ReadForOverlay => StatusRead(s.entries[t.target].row.status)
    case _ => Committed
  }

  // The two statements that meet a constraint can only raise when they break it.
  predicate BreaksConstraint(t: Thread) {
    || (t.pc.StoreResults? && exists i :: 0 <= i < |t.pc.raw| && StatusOf(t.pc.raw[i]) !in {Clean, Infected, Failed})
    || (t.pc.RecordHash? && !IsSha256(t.pc.actual))
  }

  lemma AnswerIsThere(cfg: Config, s: State, a: Actor)
    requires a in s.threads && Placed(s.entries, a, s.threads[a]) && (a.Sweep? ==> a.worker in s.workers)
    requires !s.threads[a].pc.Finished?
    ensures Enabled(cfg, s, Advance(a, Answer.Raised(false)))
    ensures var answer := SomeAnswer(cfg, s, s.threads[a]);
      !answer.Raised? && (BreaksConstraint(s.threads[a]) || Enabled(cfg, s, Advance(a, answer)))
  {
    SomeAnswerFits(cfg, s, s.threads[a]);
    hide AnswerFits, Truthful, SomeAnswer, BreaksConstraint, ThreadOk;
  }

  lemma SomeAnswerFits(cfg: Config, s: State, t: Thread)
    requires t.target < |s.entries| && !t.pc.Finished?
    ensures AnswerFits(t, s.entries[t.target], Answer.Raised(false)) && Truthful(cfg, s, t, Answer.Raised(false))
    ensures !SomeAnswer(cfg, s, t).Raised?
    ensures var answer := SomeAnswer(cfg, s, t);
      BreaksConstraint(t) || (AnswerFits(t, s.entries[t.target], answer) && Truthful(cfg, s, t, answer))
  {
    if t.pc.StoreResults? && !BreaksConstraint(t) { ResultsFit(t); }
    hide IsSha256, ConfiguredRoot;
  }

  lemma ResultsFit(t: Thread)
    requires t.pc.StoreResults? && !BreaksConstraint(t)
    ensures ResultsAdmitted(Stored(t.pc.raw, t.scanners))
  {}

  lemma EnvironmentMoves(cfg: Config, s: State)
    ensures forall n: nat :: Enabled(cfg, s, Tick(n)) && Enabled(cfg, s, ScannerDeleted(n))
    ensures forall w: nat :: if w in s.workers then Enabled(cfg, s, WorkerCrash(w)) else Enabled(cfg, s, WorkerStart(w))
    ensures forall file, mode, h :: IsSha256(h) ==> Enabled(cfg, s, Submit(file, mode, h))
    ensures forall panel: nat, id: nat :: id < |s.entries| ==> Enabled(cfg, s, RescanRead(panel, id))
    ensures forall remote :: TreeLike(remote) ==> Enabled(cfg, s, RemoteChange(remote))
  {}

  lemma RescanCanInsert(cfg: Config, s: State, panel: nat)
    requires Inv(cfg, s) && panel in s.rescans
    ensures Enabled(cfg, s, RescanInsert(panel))
  {
    assert RescanOk(s.entries, s.rescans[panel]) && EntryOk(s.entries[s.rescans[panel].parent]);
  }

  // In every reachable state the environment, the API, a crash and a fresh start can
  // happen, and a request that has read its row can insert the copy.
  lemma AnyoneMayMove(cfg: Config, r: Run, k: nat)
    requires r.Valid(cfg) && k < |r.states|
    ensures var s := r.states[k];
      && (forall n: nat :: Enabled(cfg, s, Tick(n)) && Enabled(cfg, s, ScannerDeleted(n)))
      && (forall w: nat :: if w in s.workers then Enabled(cfg, s, WorkerCrash(w)) else Enabled(cfg, s, WorkerStart(w)))
      && (forall file, mode, h :: IsSha256(h) ==> Enabled(cfg, s, Submit(file, mode, h)))
      && (forall panel: nat, id: nat :: id < |s.entries| ==> Enabled(cfg, s, RescanRead(panel, id)))
      && (forall panel :: panel in s.rescans ==> Enabled(cfg, s, RescanInsert(panel)))
      && (forall remote :: TreeLike(remote) ==> Enabled(cfg, s, RemoteChange(remote)))
  {
    ReachableInv(cfg, r, k);
    forall panel | panel in r.states[k].rescans ensures Enabled(cfg, r.states[k], RescanInsert(panel)) {
      RescanCanInsert(cfg, r.states[k], panel);
    }
    EnvironmentMoves(cfg, r.states[k]);
    hide *;
  }

  // A thread that is not done can always have its call raise, and unless the call
  // breaks a constraint of the tables it can end without raising; a thread that is
  // done can go.
  lemma NeverStuck(cfg: Config, r: Run, k: nat, a: Actor)
    requires r.Valid(cfg) && k < |r.states| && a in r.states[k].threads
    ensures var s := r.states[k]; var t := s.threads[a];
      if t.pc.Finished? then Enabled(cfg, s, Retire(a))
      else
        Enabled(cfg, s, Advance(a, Answer.Raised(false)))
        && (BreaksConstraint(t) || exists answer: Answer :: !answer.Raised? && Enabled(cfg, s, Advance(a, answer)))
  {
    PlacedAt(cfg, r, k, a);
    SweeperIsThere(cfg, r, k, a);
    if r.states[k].threads[a].pc.Finished? {
      assert Enabled(cfg, r.states[k], Retire(a));
    } else {
      AnswerIsThere(cfg, r.states[k], a);
    }
    hide *;
  }

  lemma SweeperIsThere(cfg: Config, r: Run, k: nat, a: Actor)
    requires r.Valid(cfg) && k < |r.states| && a in r.states[k].threads
    ensures a.Sweep? ==> a.worker in r.states[k].workers
  {
    ReachableInv(cfg, r, k);
    assert Placed(r.states[k].entries, a, r.states[k].threads[a]);
  }
}
