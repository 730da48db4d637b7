// What every reachable row and every thread on it satisfies, and that one
// thread's step keeps it for the row, for itself and for the other thread.
module RowInvariant {
  import opened Wrappers
  import opened Policy
  import opened ScanTable
  import opened ScanPlaybook
  import opened Protocol

  // Program points from which no in-progress status and no allowed=true can be
  // written any more.
  predicate Harmless(pc: Pc) {
    pc.Reject? || pc.Fail? || pc.LookupDeleteHost? || pc.DeleteResolve? || pc.DeleteStat? || pc.DeleteRemove?
    || pc.NoteDeletion? || pc.Tidy? || pc.MarkTidy? || pc.ReadForOverlay? || pc.Overlay? || pc.RecordCrash?
    || pc.Finished?
  }

  predicate SweepPoint(pc: Pc) {
    pc == Fail(true) || pc.Tidy? || pc.MarkTidy? || pc.ReadForOverlay? || pc.Overlay? || pc.Finished?
  }

  predicate Deleting(pc: Pc) {
    pc.LookupDeleteHost? || pc.DeleteResolve? || pc.DeleteStat? || pc.DeleteRemove?
  }

  function DeleteHash(pc: Pc): string
    requires Deleting(pc)
  {
    pc.hash
  }

  // Stored results are the given scanners' own, one each, in their order.
  ghost predicate Evidenced(scanners: seq<ScannerConfig>, results: seq<StoredResult>) {
    |results| == |scanners|
    && forall i :: 0 <= i < |results| ==>
         results[i].outcome.name == scanners[i].name
         && (results[i].scannerId == None || results[i].scannerId == Some(scanners[i].id))
  }

  // The verdict that the stored evidence gives under the stored policy.
  function Reaggregated(e: Entry): Decision
    requires e.row.policyApplied.Some?
  {
    Aggregate(Outcomes(e.results), e.row.policyApplied.value)
  }

  ghost predicate Backed(e: Entry) {
    && e.row.policyApplied.Some?
    && e.readAtStart.Some?
    && Evidenced(e.readAtStart.value, e.results)
    && ResultsAdmitted(e.results)
    && e.hashedAtScan == Some(e.row.sha256)
  }

  ghost predicate StatusAgrees(row: Row) {
    && row.status != QUARANTINED
    && (row.status == CLEAN ==> row.allowed == Some(true))
    && (row.status == INFECTED || row.status == ERROR ==> row.allowed == Some(false))
    && (row.status == ENCRYPTED ==> row.allowed.Some?)
    && (row.allowed == Some(true) ==> row.status == CLEAN || row.status == ENCRYPTED || row.status == CLEANUP_FAILED)
  }

  ghost predicate Untouched(e: Entry) {
    e.row.allowed == None && e.row.startedAt == None && e.results == [] && e.row.policyApplied == None
    && e.row.encryptedPolicyApplied == None
  }

  ghost predicate EntryOk(e: Entry) {
    && IsSha256(e.row.sha256)
    && StatusAgrees(e.row)
    && (e.row.status == RECEIVED ==> Untouched(e))
    && (e.row.status != RECEIVED ==> e.row.startedAt.Some?)
    && (e.row.policyApplied.Some? ==> Backed(e))
    && (e.row.status == CLEAN || e.row.status == INFECTED ==>
          e.row.policyApplied.Some? && Reaggregated(e).status == e.row.status && Reaggregated(e).threat == e.row.threat)
    && (e.row.allowed == Some(true) ==>
          (e.row.policyApplied.Some? && Reaggregated(e).allowed) || e.row.encryptedPolicyApplied == Some(Allow))
    && (e.row.status == ENCRYPTED ==> FollowsEncryptedPolicy(e.row))
  }

  // The columns of an encrypted row are what its stored policy says.
  ghost predicate FollowsEncryptedPolicy(row: Row) {
    && row.encryptedPolicyApplied.Some?
    && var d := ApplyEncrypted(row.encryptedPolicyApplied.value);
    && row.allowed == Some(d.allowed) && row.needsReview == d.needsReview
  }

  // A job that has read its scanners and not yet given a verdict.
  ghost predicate Scanning(t: Thread, e: Entry) {
    !Harmless(t.pc) && !t.pc.ResolveProfile? && !t.pc.ReadScanners? ==>
      e.readAtStart == Some(t.scanners) && t.scanners != [] && UniqueSlugs(t.scanners)
  }

  ghost predicate JobOk(t: Thread, e: Entry) {
    && (t.decided ==> Harmless(t.pc))
    && (!Harmless(t.pc) ==>
          e.row.allowed != Some(true) && e.row.policyApplied == None && e.row.encryptedPolicyApplied == None)
    && (!Harmless(t.pc) && !t.pc.WriteVerdict? ==> e.results == [])
    && Scanning(t, e)
    && (t.pc.RecordHash? ==>
          HashAccepted(Some(t.pc.actual), t.expected) && e.hashedAtScan == Some(t.pc.actual)
          && Aligned(t.scanners, t.pc.raw))
    && (t.pc.StoreResults? || t.pc.WriteVerdict? ==>
          t.pc.actual == e.row.sha256 && e.hashedAtScan == Some(t.pc.actual) && Aligned(t.scanners, t.pc.raw))
    && (t.pc.WriteVerdict? ==>
          Outcomes(e.results) == RawOutcomes(t.pc.raw) && ResultsAdmitted(e.results)
          && Evidenced(t.scanners, e.results))
    && (Deleting(t.pc) ==>
          DeleteHash(t.pc) == e.row.sha256 && e.row.allowed == Some(false) && e.row.policyApplied.Some?
          && t.mode.AnsibleFetch? && t.decided)
    && (t.pc.DeleteStat? || t.pc.DeleteRemove? ==> UnderRoot(t.pc.canonical, t.pc.root))
  }

  ghost predicate ThreadOk(t: Thread, e: Entry) {
    && e.row.status != RECEIVED
    && t.expected == e.row.sha256
    && t.mode == e.row.mode
    && (t.sweeping ==> SweepPoint(t.pc))
    && (!t.sweeping ==> JobOk(t, e))
  }

  // How one step of a thread may change a row.
  ghost predicate Evolves(e: Entry, e': Entry) {
    && e'.row.file == e.row.file && e'.row.mode == e.row.mode && e'.row.parent == e.row.parent
    && e'.row.createdAt == e.row.createdAt && e'.row.startedAt == e.row.startedAt
    && e'.row.sha256 == e.row.sha256
    && (e'.row.status == RECEIVED <==> e.row.status == RECEIVED)
  }

  // How the step of a sweep may.
  ghost predicate Swept(e: Entry, e': Entry) {
    && Evolves(e, e')
    && e'.results == e.results && e'.readAtStart == e.readAtStart && e'.hashedAtScan == e.hashedAtScan
    && e'.row.policyApplied == e.row.policyApplied
    && e'.row.encryptedPolicyApplied == e.row.encryptedPolicyApplied
    && e'.row.threat == e.row.threat
    && e'.row.needsReview == e.row.needsReview
    && (e'.row.allowed == e.row.allowed || e'.row.allowed == Some(false))
  }

  // ---------------------------------------------------------------------------
  // Verdict statement
  // ---------------------------------------------------------------------------

  lemma {:induction false} IdForOwnSlug(scanners: seq<ScannerConfig>, i: nat)
    requires UniqueSlugs(scanners) && i < |scanners|
    ensures IdFor(scanners, scanners[i].slug) == Some(scanners[i].id)
  {
    var n := |scanners| - 1;
    if i == n {
    } else {
      assert scanners[n].slug != scanners[i].slug;
      assert scanners[..n][i] == scanners[i];
      IdForOwnSlug(scanners[..n], i);
    }
  }

  lemma StoredIsEvidence(raw: seq<RawResult>, scanners: seq<ScannerConfig>)
    requires Aligned(scanners, raw) && UniqueSlugs(scanners)
    ensures Outcomes(Stored(raw, scanners)) == RawOutcomes(raw)
    ensures Evidenced(scanners, Stored(raw, scanners))
  {
    forall i | 0 <= i < |raw|
      ensures Stored(raw, scanners)[i].scannerId == Some(scanners[i].id)
    {
      IdForOwnSlug(scanners, i);
    }
  }

  lemma AdmittedOutcomes(rs: seq<StoredResult>)
    requires ResultsAdmitted(rs)
    ensures InDomain(Outcomes(rs))
  {}

  // The verdict is one of the three statuses and is true exactly when CLEAN.
  lemma VerdictShape(t: Thread, e: Entry)
    requires ThreadOk(t, e) && !t.sweeping && t.pc.WriteVerdict?
    ensures var d := Aggregate(RawOutcomes(t.pc.raw), t.policy);
      && (d.status == CLEAN || d.status == INFECTED || d.status == ERROR)
      && (d.allowed <==> d.status == CLEAN)
  {
    AdmittedOutcomes(e.results);
    VerdictMeans(Outcomes(e.results), t.policy);
  }

  lemma VerdictKeeps(cfg: Config, t: Thread, e: Entry)
    requires EntryOk(e) && ThreadOk(t, e) && !t.sweeping && t.pc.WriteVerdict?
    ensures var e' := Effect(t, e); EntryOk(e') && Evolves(e, e')
    ensures ThreadOk(t.(pc := AfterCommit(cfg, t), decided := true), Effect(t, e))
  {
    VerdictShape(t, e);
  }

  lemma StoredStay(t: Thread, e: Entry)
    requires EntryOk(e) && ThreadOk(t, e) && !t.sweeping && t.pc.StoreResults? && CanCommit(t)
    ensures var e' := Effect(t, e);
      EntryOk(e') && Evolves(e, e') && e' == e.(results := Stored(t.pc.raw, t.scanners))
  {
    assert e.results + Stored(t.pc.raw, t.scanners) == Stored(t.pc.raw, t.scanners);
  }

  lemma StoreKeeps(cfg: Config, t: Thread, e: Entry)
    requires EntryOk(e) && ThreadOk(t, e) && !t.sweeping && t.pc.StoreResults? && CanCommit(t)
    ensures var e' := Effect(t, e); EntryOk(e') && Evolves(e, e')
    ensures ThreadOk(t.(pc := AfterCommit(cfg, t)), Effect(t, e))
  {
    hide EntryOk, Evolves, Effect, Aligned, Evidenced, Stored, Outcomes, RawOutcomes;
    StoredStay(t, e);
    StoredIsEvidence(t.pc.raw, t.scanners);
  }

  lemma HashKeeps(cfg: Config, t: Thread, e: Entry)
    requires EntryOk(e) && ThreadOk(t, e) && !t.sweeping && t.pc.RecordHash? && CanCommit(t)
    ensures var e' := Effect(t, e); EntryOk(e') && Evolves(e, e')
    ensures ThreadOk(t.(pc := AfterCommit(cfg, t)), Effect(t, e))
  {
    GuardAndCheckForceEquality(t.pc.actual, t.expected);
  }

  lemma EncryptedKeeps(cfg: Config, t: Thread, e: Entry)
    requires EntryOk(e) && ThreadOk(t, e) && !t.sweeping && t.pc.WriteEncrypted?
    ensures var e' := Effect(t, e); EntryOk(e') && Evolves(e, e')
    ensures ThreadOk(t.(pc := AfterCommit(cfg, t), decided := true), Effect(t, e))
  {}

  // A change that leaves the evidence alone and gives no new verdict needs only
  // a consistent status.
  lemma EvidenceFrame(e: Entry, e': Entry)
    requires EntryOk(e) && Swept(e, e') && StatusAgrees(e'.row)
    requires e'.row.status == CLEAN || e'.row.status == INFECTED ==> e'.row.status == e.row.status
    requires e'.row.status == ENCRYPTED ==> e.row.status == ENCRYPTED && e'.row.allowed == e.row.allowed
    requires e.row.status != RECEIVED
    ensures EntryOk(e')
  {}

  lemma EarlyStatementKeeps(cfg: Config, t: Thread, e: Entry)
    requires EntryOk(e) && ThreadOk(t, e) && !t.sweeping
    requires t.pc.MarkTransferring? || t.pc.MarkTransferOk? || t.pc.RecordEncryption? || t.pc.MarkScanning?
    ensures EntryOk(Effect(t, e)) && Evolves(e, Effect(t, e))
    ensures ThreadOk(t.(pc := AfterCommit(cfg, t)), Effect(t, e))
  {
    hide Aggregate, Evidenced, Stored, Outcomes, Aligned, Backed;
    EvidenceFrame(e, Effect(t, e));
  }

  lemma HarmlessWrites(u: Update, t: Thread, row: Row)
    requires Harmless(t.pc) && PendingUpdate(t) == Some(u) && StatusAgrees(row)
    ensures StatusAgrees(Written(row, u))
    ensures u.status.Some? ==> u.status == Some(ERROR) || u.status == Some(CLEANUP_FAILED)
    ensures u.allowed.Some? ==> u.allowed == Some(false) && u.status == Some(ERROR)
    ensures u == Update(status := u.status, allowed := u.allowed, transfer := u.transfer, detail := u.detail,
                        cleanup := u.cleanup)
  {}

  // Harmless statements touch the status, clear `allowed`, or set a sub-status.
  lemma HarmlessEffect(t: Thread, e: Entry)
    requires EntryOk(e) && e.row.status != RECEIVED && Harmless(t.pc) && IsStatement(t.pc)
    ensures EntryOk(Effect(t, e)) && Swept(e, Effect(t, e))
    ensures !InProgress(e.row.status) ==> !InProgress(Effect(t, e).row.status)
  {
    HarmlessWrites(PendingUpdate(t).value, t, e.row);
    EvidenceFrame(e, Effect(t, e));
  }

  lemma HarmlessThread(t: Thread, e: Entry)
    requires e.row.status != RECEIVED && t.expected == e.row.sha256 && t.mode == e.row.mode
    requires if t.sweeping then SweepPoint(t.pc) else Harmless(t.pc) && !Deleting(t.pc)
    ensures ThreadOk(t, e)
  {}

  lemma JobStatementKeeps(cfg: Config, t: Thread, e: Entry)
    requires EntryOk(e) && ThreadOk(t, e) && CanCommit(t) && !Harmless(t.pc)
    ensures EntryOk(Effect(t, e)) && Evolves(e, Effect(t, e))
    ensures ThreadOk(t.(pc := AfterCommit(cfg, t), decided := t.decided || IsTerminalWrite(t.pc)), Effect(t, e))
  {
    if t.pc.WriteVerdict? {
      VerdictKeeps(cfg, t, e);
    } else if t.pc.StoreResults? {
      StoreKeeps(cfg, t, e);
    } else if t.pc.RecordHash? {
      HashKeeps(cfg, t, e);
    } else if t.pc.WriteEncrypted? {
      EncryptedKeeps(cfg, t, e);
    } else {
      EarlyStatementKeeps(cfg, t, e);
    }
  }

  // A question changes no column.
  lemma QuestionKeeps(cfg: Config, t: Thread, e: Entry, a: Answer)
    requires EntryOk(e) && ThreadOk(t, e) && AnswerFits(t, e, a) && !a.Committed? && !a.Raised?
    ensures var (t', e') := Advanced(cfg, t, e, a);
      && EntryOk(e') && Evolves(e, e') && ThreadOk(t', e') && (t.sweeping ==> Swept(e, e'))
  {
    if a.Scanned? {
      ScannedKeeps(cfg, t, e, a.scan);
    } else if a.Scanners? {
      ScannersKeep(cfg, t, e, a.enabled);
    } else {
      OtherAnswerKeeps(cfg, t, e, a);
    }
  }

  lemma OtherAnswerKeeps(cfg: Config, t: Thread, e: Entry, a: Answer)
    requires EntryOk(e) && ThreadOk(t, e) && AnswerFits(t, e, a)
    requires !a.Committed? && !a.Raised? && !a.Scanned? && !a.Scanners?
    ensures var (t', e') := Advanced(cfg, t, e, a); e' == e && ThreadOk(t', e)
  {
    var t' := Advanced(cfg, t, e, a).0;
    if t.sweeping {
      SweepAnswerKeeps(cfg, t, e, a);
    } else if Deleting(t'.pc) {
      DeletionAnswerKeeps(cfg, t, e, a);
    } else if Harmless(t'.pc) {
      HarmlessThread(t', e);
    } else {
      JobAnswerKeeps(cfg, t, e, a);
    }
  }

  lemma SweepAnswerKeeps(cfg: Config, t: Thread, e: Entry, a: Answer)
    requires ThreadOk(t, e) && AnswerFits(t, e, a) && t.sweeping && !a.Committed? && !a.Raised?
    ensures Advanced(cfg, t, e, a).1 == e && ThreadOk(Advanced(cfg, t, e, a).0, e)
  {}

  lemma JobAnswerKeeps(cfg: Config, t: Thread, e: Entry, a: Answer)
    requires ThreadOk(t, e) && AnswerFits(t, e, a) && !t.sweeping
    requires !a.Committed? && !a.Raised? && !a.Scanned? && !a.Scanners? && !Harmless(AfterAnswer(cfg, t, a))
    ensures ThreadOk(Advanced(cfg, t, e, a).0, e)
  {}

  lemma DeletionAnswerKeeps(cfg: Config, t: Thread, e: Entry, a: Answer)
    requires ThreadOk(t, e) && AnswerFits(t, e, a) && !t.sweeping && !a.Committed? && !a.Raised?
    requires Deleting(AfterAnswer(cfg, t, a))
    ensures JobOk(t.(pc := AfterAnswer(cfg, t, a)), e)
  {}

  lemma ScannersKeep(cfg: Config, t: Thread, e: Entry, enabled: seq<ScannerConfig>)
    requires EntryOk(e) && ThreadOk(t, e) && AnswerFits(t, e, Scanners(enabled))
    ensures var (t', e') := Advanced(cfg, t, e, Scanners(enabled)); EntryOk(e') && Evolves(e, e') && ThreadOk(t', e')
  {
    assert e.row.policyApplied == None;
  }

  lemma ScannedKeeps(cfg: Config, t: Thread, e: Entry, o: ScanOutcome)
    requires EntryOk(e) && ThreadOk(t, e) && AnswerFits(t, e, Scanned(o))
    ensures var (t', e') := Advanced(cfg, t, e, Scanned(o)); EntryOk(e') && Evolves(e, e') && ThreadOk(t', e')
  {
    assert e.results == [] && e.row.policyApplied == None;
    var (t', e') := Advanced(cfg, t, e, Scanned(o));
    if Harmless(t'.pc) {
      HarmlessThread(t', e');
    }
  }

  lemma RaiseKeeps(cfg: Config, t: Thread, e: Entry)
    requires EntryOk(e) && ThreadOk(t, e) && AnswerFits(t, e, Answer.Raised(false))
    ensures var (t', e') := Advanced(cfg, t, e, Answer.Raised(false));
      e' == e && Evolves(e, e) && Swept(e, e) && ThreadOk(t', e)
  {}

  lemma HarmlessStatementKeeps(cfg: Config, t: Thread, e: Entry, a: Answer)
    requires EntryOk(e) && ThreadOk(t, e) && CanCommit(t) && Harmless(t.pc)
    requires (a.Committed? || a == Answer.Raised(true))
    ensures var (t', e') := Advanced(cfg, t, e, a); EntryOk(e') && Evolves(e, e') && ThreadOk(t', e') && Swept(e, e')
  {
    HarmlessEffect(t, e);
    HarmlessThread(Advanced(cfg, t, e, a).0, Effect(t, e));
  }

  lemma EarlyStepKeeps(cfg: Config, t: Thread, e: Entry, a: Answer)
    requires EntryOk(e) && ThreadOk(t, e) && CanCommit(t) && !Harmless(t.pc)
    requires (a.Committed? || a == Answer.Raised(true))
    ensures var (t', e') := Advanced(cfg, t, e, a); EntryOk(e') && Evolves(e, e') && ThreadOk(t', e') && !t.sweeping
  {
    JobStatementKeeps(cfg, t, e);
    if a.Raised? {
      HarmlessThread(Advanced(cfg, t, e, a).0, Effect(t, e));
    }
  }

  lemma AdvancedStays(cfg: Config, t: Thread, e: Entry, a: Answer)
    requires AnswerFits(t, e, a)
    ensures var t' := Advanced(cfg, t, e, a).0;
      t'.target == t.target && t'.worker == t.worker && t'.sweeping == t.sweeping
  {}

  // One step of a thread keeps its row and itself in order.
  lemma AdvancedKeeps(cfg: Config, t: Thread, e: Entry, a: Answer)
    requires EntryOk(e) && ThreadOk(t, e) && AnswerFits(t, e, a)
    ensures var (t', e') := Advanced(cfg, t, e, a);
      && EntryOk(e') && Evolves(e, e') && ThreadOk(t', e')
      && t'.target == t.target && t'.worker == t.worker && t'.sweeping == t.sweeping
      && (t.sweeping ==> Swept(e, e'))
  {
    hide EntryOk, ThreadOk, Evolves, Swept;
    AdvancedStays(cfg, t, e, a);
    if !a.Committed? && !a.Raised? {
      QuestionKeeps(cfg, t, e, a);
    } else if a.Raised? && !a.applied {
      RaiseKeeps(cfg, t, e);
    } else if Harmless(t.pc) {
      HarmlessStatementKeeps(cfg, t, e, a);
    } else {
      EarlyStepKeeps(cfg, t, e, a);
    }
  }

  // A sweep cannot disturb the job it races with, nor a job the sweep.
  lemma OtherThreadKeeps(t: Thread, e: Entry, e': Entry)
    requires ThreadOk(t, e) && Evolves(e, e')
    requires t.sweeping || Swept(e, e')
    ensures ThreadOk(t, e')
  {}

  lemma ForgetKeeps(e: Entry, t: Thread, scanner: nat)
    requires EntryOk(e)
    ensures var e' := e.(results := Forget(e.results, scanner));
      EntryOk(e') && e'.row == e.row && (ThreadOk(t, e) ==> ThreadOk(t, e'))
  {
    var e' := e.(results := Forget(e.results, scanner));
    assert Outcomes(e'.results) == Outcomes(e.results);
  }
}
