// What holds of every run of the protocol.
module Runs {
  import opened Wrappers
  import opened Policy
  import opened ScanTable
  import opened Protocol
  import opened RowInvariant
  import opened SystemInvariant
  import opened StepEffects

  // ---------------------------------------------------------------------------
  // Verdicts and evidence
  // ---------------------------------------------------------------------------

  // `allowed` always agrees with `status`, whoever interleaves: a row that is
  // allowed is CLEAN, ENCRYPTED or CLEANUP_FAILED, never in progress.
  lemma VerdictAgreesWithStatus(cfg: Config, r: Run, k: nat, id: nat)
    requires r.Valid(cfg) && k < |r.states| && id < |r.states[k].entries|
    ensures var row := r.states[k].entries[id].row;
      && (row.status == CLEAN ==> row.allowed == Some(true))
      && (row.status == INFECTED || row.status == ERROR ==> row.allowed == Some(false))
      && (row.allowed == Some(true) ==> row.status == CLEAN || row.status == ENCRYPTED || row.status == CLEANUP_FAILED)
      && (InProgress(row.status) || row.status == RECEIVED ==> row.allowed != Some(true))
      && row.status != QUARANTINED
  {
    ReachableInv(cfg, r, k);
    assert EntryOk(r.states[k].entries[id]);
  }

  // The scanner at position i of the profile, as read at job start, has its own
  // stored result with this status.
  ghost predicate OwnResult(e: Entry, i: int, status: ResultStatus) {
    e.readAtStart.Some? && 0 <= i < |e.readAtStart.value| && i < |e.results|
    && e.results[i].outcome.status == status
    && e.results[i].outcome.name == e.readAtStart.value[i].name
    && (e.results[i].scannerId == None || e.results[i].scannerId == Some(e.readAtStart.value[i].id))
  }

  ghost predicate Evidence(e: Entry) {
    && e.row.policyApplied.Some?
    && e.readAtStart.Some?
    && |e.results| == |e.readAtStart.value|
    && (exists i :: OwnResult(e, i, Clean))
    && match e.row.policyApplied.value
       case AllMustPass => forall i :: 0 <= i < |e.readAtStart.value| ==> OwnResult(e, i, Clean)
       case FirstDetection => forall i :: 0 <= i < |e.readAtStart.value| ==> OwnResult(e, i, Clean)
       case AnyDetection => forall i :: 0 <= i < |e.readAtStart.value| ==> !OwnResult(e, i, Infected)
       case FirstSuccess =>
         exists i :: OwnResult(e, i, Clean) && forall j :: 0 <= j < i ==> OwnResult(e, j, Failed)
       case OtherPolicy(_) => false
  }

  lemma AllowedVerdictHasEvidence(e: Entry)
    requires EntryOk(e) && e.row.policyApplied.Some? && Reaggregated(e).allowed
    ensures Evidence(e)
  {
    var rs := Outcomes(e.results);
    AdmittedOutcomes(e.results);
    VerdictMeans(rs, e.row.policyApplied.value);
    var i :| 0 <= i < |rs| && rs[i].status == Clean;
    assert OwnResult(e, i, Clean);
    if e.row.policyApplied.value.FirstSuccess? {
      var k :| FirstAnswer(rs, k) && rs[k].status == Clean;
      forall j | 0 <= j < k ensures OwnResult(e, j, Failed) {
        assert !rs[j].status.Unrecognised?;
      }
      assert OwnResult(e, k, Clean);
    }
  }

  // Every CLEAN row is backed by stored results, as its policy demands, and the
  // stored verdict is what aggregating the stored results gives again.
  lemma CleanRowHasEvidence(cfg: Config, r: Run, k: nat, id: nat)
    requires r.Valid(cfg) && k < |r.states| && id < |r.states[k].entries|
    ensures var e := r.states[k].entries[id];
      && (e.row.status == CLEAN ==> Evidence(e))
      && (e.row.status == CLEAN || e.row.status == INFECTED ==>
            e.row.policyApplied.Some?
            && Aggregate(Outcomes(e.results), e.row.policyApplied.value)
               == Decision(e.row.status, e.row.allowed == Some(true), e.row.threat))
      && (e.row.allowed == Some(true) ==> Evidence(e) || e.row.encryptedPolicyApplied == Some(Allow))
  {
    ReachableInv(cfg, r, k);
    var e := r.states[k].entries[id];
    assert EntryOk(e);
    if e.row.policyApplied.Some? {
      AdmittedOutcomes(e.results);
      VerdictMeans(Outcomes(e.results), e.row.policyApplied.value);
      if Reaggregated(e).allowed {
        AllowedVerdictHasEvidence(e);
      }
    }
  }

  // An encrypted file is allowed, refused or put up for review exactly as the
  // policy stored with it says.
  lemma EncryptedRowFollowsPolicy(cfg: Config, r: Run, k: nat, id: nat)
    requires r.Valid(cfg) && k < |r.states| && id < |r.states[k].entries|
    requires r.states[k].entries[id].row.status == ENCRYPTED
    ensures var row := r.states[k].entries[id].row;
      && row.encryptedPolicyApplied.Some?
      && (row.allowed == Some(true) <==> row.encryptedPolicyApplied == Some(Allow))
      && (row.allowed == Some(false) <==> row.encryptedPolicyApplied != Some(Allow))
      && (row.needsReview <==> row.encryptedPolicyApplied == Some(MarkForReview))
  {
    ReachableInv(cfg, r, k);
    assert EntryOk(r.states[k].entries[id]);
  }

  // ---------------------------------------------------------------------------
  // What a row keeps for its whole life
  // ---------------------------------------------------------------------------

  ghost predicate Continues(e: Entry, e': Entry) {
    && e'.row.file == e.row.file && e'.row.mode == e.row.mode && e'.row.parent == e.row.parent
    && e'.row.createdAt == e.row.createdAt && e'.row.sha256 == e.row.sha256
    && (e.row.status != RECEIVED ==> e'.row.status != RECEIVED && e'.row.startedAt == e.row.startedAt)
  }

  ghost predicate TableContinues(s: State, s': State) {
    |s.entries| <= |s'.entries| && forall id :: 0 <= id < |s.entries| ==> Continues(s.entries[id], s'.entries[id])
  }

  lemma StepContinues(cfg: Config, s: State, step: Step)
    requires Inv(cfg, s) && Enabled(cfg, s, step)
    ensures TableContinues(s, Apply(cfg, s, step))
  {
    var s' := Apply(cfg, s, step);
    TableGrows(cfg, s, step);
    forall id | 0 <= id < |s.entries| ensures Continues(s.entries[id], s'.entries[id]) {
      RowAfter(cfg, s, step, id);
      RowContinues(cfg, s, step, s', id);
    }
  }

  lemma TableGrows(cfg: Config, s: State, step: Step)
    requires Enabled(cfg, s, step)
    ensures |s.entries| <= |Apply(cfg, s, step).entries|
  {}

  lemma RowContinues(cfg: Config, s: State, step: Step, s': State, id: nat)
    requires RowEffect(cfg, s, step, s', id) && EntryOk(s.entries[id])
    ensures Continues(s.entries[id], s'.entries[id])
  {
    var e := s.entries[id];
    if step.Advance? && step.actor in s.threads && AnswerFits(s.threads[step.actor], e, step.answer)
       && ThreadOk(s.threads[step.actor], e) && s'.entries[id] != e {
      AdvancedKeeps(cfg, s.threads[step.actor], e, step.answer);
    }
  }

  lemma StepContinuesAt(cfg: Config, r: Run, k: nat)
    requires r.Valid(cfg) && k < |r.steps|
    ensures TableContinues(r.states[k], r.states[k + 1])
  {
    ReachableInv(cfg, r, k);
    assert r.Follows(cfg, k);
    StepContinues(cfg, r.states[k], r.steps[k]);
  }

  lemma ContinuesThen(s: State, s': State, s'': State)
    requires TableContinues(s, s') && TableContinues(s', s'')
    ensures TableContinues(s, s'')
  {
    forall id | 0 <= id < |s.entries| ensures Continues(s.entries[id], s''.entries[id]) {
      assert Continues(s.entries[id], s'.entries[id]);
      assert Continues(s'.entries[id], s''.entries[id]);
    }
  }

  lemma {:induction false} RunContinues(cfg: Config, r: Run, i: nat, j: nat)
    requires r.Valid(cfg) && i <= j < |r.states|
    ensures TableContinues(r.states[i], r.states[j])
    decreases j - i
  {
    if i == j {
    } else {
      RunContinues(cfg, r, i, j - 1);
      StepContinuesAt(cfg, r, j - 1);
      ContinuesThen(r.states[i], r.states[j - 1], r.states[j]);
    }
  }

  // The hash column is rewritten by every successful scan and never changes; a
  // CLEAN or INFECTED verdict is about content that hashed to it at scan time.
  lemma VerdictIsAboutSubmittedContent(cfg: Config, r: Run, i: nat, k: nat, id: nat)
    requires r.Valid(cfg) && i <= k < |r.states| && id < |r.states[i].entries|
    ensures id < |r.states[k].entries|
    ensures var submitted := r.states[i].entries[id].row.sha256; var e := r.states[k].entries[id];
      && e.row.sha256 == submitted && IsSha256(submitted)
      && (e.row.status == CLEAN || e.row.status == INFECTED ==> e.hashedAtScan == Some(submitted))
  {
    RunContinues(cfg, r, i, k);
    ReachableInv(cfg, r, k);
    assert Continues(r.states[i].entries[id], r.states[k].entries[id]);
    assert EntryOk(r.states[k].entries[id]);
  }

  // Deleting a scanner takes its reference out of every stored result; name, status
  // and threat of the result stay, and so does the row.
  lemma DeletedScannerIsForgotten(cfg: Config, s: State, scanner: nat, id: nat, i: nat)
    requires id < |s.entries| && i < |s.entries[id].results|
    ensures var e, e' := s.entries[id], Apply(cfg, s, ScannerDeleted(scanner)).entries[id];
      && e'.row == e.row && |e'.results| == |e.results|
      && e'.results[i].outcome == e.results[i].outcome && e'.results[i].scannerId != Some(scanner)
      && (e.results[i].scannerId != Some(scanner) ==> e'.results[i].scannerId == e.results[i].scannerId)
  {}

  // ---------------------------------------------------------------------------
  // Claims
  // ---------------------------------------------------------------------------

  // Step i takes the row out of the queue, whether or not the worker hears of it.
  ghost predicate ClaimsRow(r: Run, i: nat, id: nat)
    requires i < |r.steps| && |r.states| == |r.steps| + 1
  {
    var step := r.steps[i];
    (step.ClaimCommit? || (step.ClaimLost? && step.committed))
    && step.w in r.states[i].workers && Claims(r.states[i].workers[step.w], id)
  }

  lemma ClaimTakesReceived(cfg: Config, r: Run, i: nat, id: nat)
    requires r.Valid(cfg) && i < |r.steps| && ClaimsRow(r, i, id)
    ensures id < |r.states[i].entries| && r.states[i].entries[id].row.status == RECEIVED
    ensures id < |r.states[i + 1].entries| && r.states[i + 1].entries[id].row.status == VALIDATING
  {
    ReachableInv(cfg, r, i);
    assert r.Follows(cfg, i);
    var s := r.states[i];
    assert WorkerOk(cfg, s.clock, s.entries, s.workers[r.steps[i].w]);
  }

  // Step l locks the row of this claim: the oldest of those in RECEIVED that no
  // other claim holds.
  ghost predicate LocksOldest(r: Run, l: nat, w: nat, c: Claim)
    requires |r.states| == |r.steps| + 1 && l < |r.steps|
  {
    var s := r.states[l];
    && r.steps[l] == ClaimLock(w, c.id) && c.since == s.clock && c.id < |s.entries|
    && s.entries[c.id].row.status == RECEIVED && !Locked(s, c.id)
    && forall j :: 0 <= j < |s.entries| && s.entries[j].row.status == RECEIVED && !Locked(s, j) ==>
         s.entries[c.id].row.createdAt <= s.entries[j].row.createdAt
  }

  lemma WhereClaimsComeFrom(cfg: Config, s: State, step: Step, w: nat)
    requires Enabled(cfg, s, step) && w in Apply(cfg, s, step).workers && Apply(cfg, s, step).workers[w].claim.Some?
    ensures var c := Apply(cfg, s, step).workers[w].claim;
      || (step == ClaimLock(w, c.value.id) && c.value.since == s.clock)
      || (w in s.workers && s.workers[w].claim == c)
  {
    hide Advanced, AnswerFits, Truthful, Gone, LiveJobs, Claimable;
  }

  lemma {:induction false} ClaimWasLocked(cfg: Config, r: Run, i: nat, w: nat) returns (l: nat)
    requires r.Valid(cfg) && i < |r.states| && w in r.states[i].workers && r.states[i].workers[w].claim.Some?
    ensures l < i && LocksOldest(r, l, w, r.states[i].workers[w].claim.value)
    decreases i
  {
    if i == 0 {
      assert false;
    } else {
      assert r.Follows(cfg, i - 1);
      WhereClaimsComeFrom(cfg, r.states[i - 1], r.steps[i - 1], w);
      if w in r.states[i - 1].workers && r.states[i - 1].workers[w].claim == r.states[i].workers[w].claim {
        l := ClaimWasLocked(cfg, r, i - 1, w);
      } else {
        l := i - 1;
      }
    }
  }

  // A row is claimed as the oldest one to be had when it was locked, and that is
  // the moment at which it has started.
  lemma ClaimedRowWasOldest(cfg: Config, r: Run, i: nat, id: nat) returns (l: nat)
    requires r.Valid(cfg) && i < |r.steps| && ClaimsRow(r, i, id)
    ensures l < i && LocksOldest(r, l, r.steps[i].w, Claim(id, r.states[l].clock))
    ensures id < |r.states[i + 1].entries| && r.states[i + 1].entries[id].row.startedAt == Some(r.states[l].clock)
  {
    hide LocksOldest;
    l := ClaimWasLocked(cfg, r, i, r.steps[i].w);
    ClaimTakesReceived(cfg, r, i, id);
    assert r.Follows(cfg, i);
    LockTime(r, l, r.steps[i].w, r.states[i].workers[r.steps[i].w].claim.value);
  }

  lemma LockTime(r: Run, l: nat, w: nat, c: Claim)
    requires |r.states| == |r.steps| + 1 && l < |r.steps| && LocksOldest(r, l, w, c)
    ensures c == Claim(c.id, r.states[l].clock)
  {}

  lemma ClaimedOnlyOnce(cfg: Config, r: Run, i: nat, j: nat, id: nat)
    requires r.Valid(cfg) && i < |r.steps| && j < |r.steps|
    requires ClaimsRow(r, i, id) && ClaimsRow(r, j, id)
    ensures i == j
  {
    ClaimTakesReceived(cfg, r, i, id);
    ClaimTakesReceived(cfg, r, j, id);
    if i < j {
      RunContinues(cfg, r, i + 1, j);
    } else if j < i {
      RunContinues(cfg, r, j + 1, i);
    }
  }

  // A job thread only ever comes from a claim of its row: after a thread ended or
  // crashed no other takes the row up.
  lemma {:induction false} JobComesFromClaim(cfg: Config, r: Run, k: nat, id: nat) returns (i: nat)
    requires r.Valid(cfg) && k < |r.states| && Job(id) in r.states[k].threads
    ensures i < k && ClaimsRow(r, i, id) && r.steps[i].ClaimCommit?
    ensures forall m :: i < m <= k ==> Job(id) in r.states[m].threads
    decreases k
  {
    ThreadAt(cfg, r, k, Job(id));
    if Job(id) in r.states[k - 1].threads {
      i := JobComesFromClaim(cfg, r, k - 1, id);
    } else {
      i := k - 1;
    }
  }

  // A worker never runs more jobs than worker_concurrency, so a submitted job
  // never waits for a pool thread.
  lemma InFlightBounded(cfg: Config, r: Run, k: nat, w: nat)
    requires r.Valid(cfg) && k < |r.states| && w in r.states[k].workers
    ensures LiveJobs(r.states[k], w) <= r.states[k].workers[w].inFlight
    ensures |LiveJobs(r.states[k], w)| <= cfg.concurrency
  {
    ReachableInv(cfg, r, k);
    var s := r.states[k];
    assert WorkerOk(cfg, s.clock, s.entries, s.workers[w]);
    forall id | id in LiveJobs(s, w) ensures id in s.workers[w].inFlight {
      var a :| a in s.threads && a.Job? && s.threads[a].worker == w && a.id == id;
    }
    SubsetSize(LiveJobs(s, w), s.workers[w].inFlight);
  }

  // ---------------------------------------------------------------------------
  // Re-scan chains
  // ---------------------------------------------------------------------------

  // Following parent_scan_id to the original submission. Every link goes to an
  // earlier row, so a chain ends and never loops.
  ghost function Origin(es: Entries, id: nat): nat
    requires ParentsOk(es) && id < |es|
    decreases id
  {
    assert ParentOk(es, id);
    if es[id].row.parent.None? then id else Origin(es, es[id].row.parent.value)
  }

  ghost function ChainLength(es: Entries, id: nat): nat
    requires ParentsOk(es) && id < |es|
    decreases id
  {
    assert ParentOk(es, id);
    if es[id].row.parent.None? then 0 else 1 + ChainLength(es, es[id].row.parent.value)
  }

  lemma {:induction false} ChainReachesOrigin(es: Entries, id: nat)
    requires ParentsOk(es) && id < |es|
    ensures var o := Origin(es, id);
      o <= id && es[o].row.parent == None && SameFile(es[id].row, es[o].row) && ChainLength(es, id) <= id - o
    decreases id
  {
    assert ParentOk(es, id);
    if es[id].row.parent.None? {
    } else {
      ChainReachesOrigin(es, es[id].row.parent.value);
    }
  }

  // Every row of a chain is about the submission the chain started from, and
  // stays so: same host, path, filename, size and hash.
  lemma RescanChainIsUniform(cfg: Config, r: Run, i: nat, k: nat, id: nat)
    requires r.Valid(cfg) && i <= k < |r.states| && id < |r.states[i].entries|
    ensures ParentsOk(r.states[i].entries) && ParentsOk(r.states[k].entries)
    ensures id < |r.states[k].entries|
    ensures var o := Origin(r.states[k].entries, id);
      && o < |r.states[i].entries|
      && SameFile(r.states[k].entries[id].row, r.states[i].entries[o].row)
      && Origin(r.states[i].entries, id) == o
      && ChainLength(r.states[k].entries, id) <= id - o
  {
    ReachableInv(cfg, r, i);
    ReachableInv(cfg, r, k);
    RunContinues(cfg, r, i, k);
    ChainReachesOrigin(r.states[k].entries, id);
    OriginIsStable(r.states[i], r.states[k], id);
    var o := Origin(r.states[k].entries, id);
    assert Continues(r.states[i].entries[o], r.states[k].entries[o]);
  }

  lemma {:induction false} OriginIsStable(s: State, s': State, id: nat)
    requires ParentsOk(s.entries) && ParentsOk(s'.entries) && TableContinues(s, s') && id < |s.entries|
    ensures Origin(s'.entries, id) == Origin(s.entries, id)
    decreases id
  {
    assert Continues(s.entries[id], s'.entries[id]);
    assert ParentOk(s.entries, id) && ParentOk(s'.entries, id);
    if s.entries[id].row.parent.None? {
    } else {
      OriginIsStable(s, s', s.entries[id].row.parent.value);
    }
  }

  // ---------------------------------------------------------------------------
  // Conservation
  // ---------------------------------------------------------------------------

  function Statuses(es: Entries): (r: seq<Status>)
    ensures |r| == |es| && forall i :: 0 <= i < |es| ==> r[i] == es[i].row.status
  {
    seq(|es|, i requires 0 <= i < |es| => es[i].row.status)
  }

  lemma DashboardAddsUp(cfg: Config, r: Run, k: nat)
    requires r.Valid(cfg) && k < |r.states|
    ensures var d := DashboardStats(Statuses(r.states[k].entries));
      d.total == d.clean + d.infected + d.errors + d.encrypted + d.scanning + d.waiting
  {
    ReachableInv(cfg, r, k);
    var es := r.states[k].entries;
    assert forall i :: 0 <= i < |es| ==> EntryOk(es[i]);
    StatsBalance(Statuses(es));
    CountZero(Statuses(es), QUARANTINED);
  }
}
