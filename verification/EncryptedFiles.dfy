// Encrypted files (api/scanner.py:76-102, api/policy.py:102-136): from the answer
// of the detection to the columns of the row and to what becomes of the copy.
module EncryptedFiles {
  import opened Wrappers
  import opened Policy
  import opened ScanTable
  import opened Protocol
  import opened RowInvariant
  import opened SystemInvariant
  import opened StepEffects
  import opened Quarantine
  import opened Provenance

  // A row with a decision on an encrypted file carries the policy that the job's
  // table gives to the category that its detection reported.
  lemma DecisionComesFromAnswers(cfg: Config, r: Run, k: nat, id: nat)
    requires r.Valid(cfg) && k < |r.states| && id < |r.states[k].entries|
    requires r.states[k].entries[id].row.encryptedPolicyApplied.Some?
    ensures var row := r.states[k].entries[id].row; var heard := Heard(r, k, id);
      && (exists d, table ::
            DetectedAs(Some(d)) in heard && d.encrypted != Some(false) && Policies(table) in heard
            && IsPolicyOf(row.encryptedPolicyApplied.value, d.category, table))
      && (row.mode == AnsibleFetch ==> exists a :: a in heard && FetchesIt(a, row.sha256))
      && row.transfer == OK && row.policyApplied == None
  {
    AlwaysTraced(cfg, r, k, id);
    var e, heard := r.states[k].entries[id], Heard(r, k, id);
    var d, table :| FoundEncrypted(heard, d) && Policies(table) in heard
      && IsPolicyOf(e.row.encryptedPolicyApplied.value, d.category, table);
    assert DetectedAs(Some(d)) in heard;
  }

  // And the job keeps the copy if and only if that policy is QUARANTINE or
  // MARK_FOR_REVIEW.
  lemma EncryptedCopyIsKeptIff(cfg: Config, r: Run, k: nat, id: nat)
    returns (d: Detection, table: map<string, EncryptedPolicy>)
    requires r.Valid(cfg) && k < |r.states| && id < |r.states[k].entries|
    requires r.states[k].entries[id].row.encryptedPolicyApplied.Some?
    requires Job(id) in r.states[k].threads && r.states[k].threads[Job(id)].pc.Tidy?
    ensures DetectedAs(Some(d)) in Heard(r, k, id) && d.encrypted != Some(false) && Policies(table) in Heard(r, k, id)
    ensures r.states[k].threads[Job(id)].pc.quarantine <==>
      || IsPolicyOf(EncryptedPolicy.Quarantine, d.category, table)
      || IsPolicyOf(MarkForReview, d.category, table)
  {
    DecisionComesFromAnswers(cfg, r, k, id);
    CopyIsKeptIff(cfg, r, k, id);
    var row, heard := r.states[k].entries[id].row, Heard(r, k, id);
    d, table :| DetectedAs(Some(d)) in heard && d.encrypted != Some(false) && Policies(table) in heard
      && IsPolicyOf(row.encryptedPolicyApplied.value, d.category, table);
  }

  // ---------------------------------------------------------------------------
  // The encrypted column
  // ---------------------------------------------------------------------------

  // The column has a value that no step can change any more.
  ghost predicate ColumnIs(s: State, id: nat, said: Option<bool>) {
    && id < |s.entries| && s.entries[id].row.encrypted == said && s.entries[id].row.status != RECEIVED
    && (Job(id) in s.threads ==>
          !BeforeDetection(s.threads[Job(id)].pc) && !s.threads[Job(id)].pc.RecordEncryption?)
  }

  lemma OwnStepLeavesColumn(cfg: Config, t: Thread, e: Entry, a: Answer)
    requires AnswerFits(t, e, a) && !t.sweeping && !BeforeDetection(t.pc) && !t.pc.RecordEncryption?
    ensures var (t', e') := Advanced(cfg, t, e, a);
      && e'.row.encrypted == e.row.encrypted && !BeforeDetection(t'.pc) && !t'.pc.RecordEncryption?
  {
    if a.Committed? || (a.Raised? && a.applied) {
      OwnWriteLeavesColumn(cfg, t, e);
    }
  }

  lemma OwnWriteLeavesColumn(cfg: Config, t: Thread, e: Entry)
    requires IsStatement(t.pc) && !BeforeDetection(t.pc) && !t.pc.RecordEncryption?
    ensures Effect(t, e).row.encrypted == e.row.encrypted
    ensures !BeforeDetection(AfterCommit(cfg, t)) && !AfterCommit(cfg, t).RecordEncryption?
  {}

  lemma ColumnStays(cfg: Config, s: State, step: Step, id: nat, said: Option<bool>)
    requires Inv(cfg, s) && Enabled(cfg, s, step) && ColumnIs(s, id, said)
    ensures ColumnIs(Apply(cfg, s, step), id, said)
  {
    var s' := Apply(cfg, s, step);
    RowAfter(cfg, s, step, id);
    ThreadAfter(cfg, s, step, Job(id));
    assert EntryOk(s.entries[id]);
    if MovesThread(step, Job(id)) {
      assert Placed(s.entries, Job(id), s.threads[Job(id)]);
      OwnColumnStays(cfg, s, step.answer, id, said);
    } else {
      OthersLeaveColumn(cfg, s, step, s', id, said);
    }
  }

  lemma OwnColumnStays(cfg: Config, s: State, a: Answer, id: nat, said: Option<bool>)
    requires Enabled(cfg, s, Advance(Job(id), a)) && Placed(s.entries, Job(id), s.threads[Job(id)])
    requires EntryOk(s.entries[id]) && ColumnIs(s, id, said)
    ensures ColumnIs(Apply(cfg, s, Advance(Job(id), a)), id, said)
  {
    hide EntryOk, ThreadOk, Advanced, Evolves;
    OwnStepLeavesColumn(cfg, s.threads[Job(id)], s.entries[id], a);
    StaysClaimed(cfg, s.threads[Job(id)], s.entries[id], a);
  }

  lemma OthersLeaveColumn(cfg: Config, s: State, step: Step, s': State, id: nat, said: Option<bool>)
    requires RowEffect(cfg, s, step, s', id) && ThreadEffect(cfg, s, step, s', Job(id)) && !MovesThread(step, Job(id))
    requires ColumnIs(s, id, said) && EntryOk(s.entries[id])
    ensures ColumnIs(s', id, said)
  {
    OthersKeepGround(cfg, s, step, s', id);
    if s'.entries[id].row != s.entries[id].row {
      StaysClaimed(cfg, s.threads[step.actor], s.entries[id], step.answer);
    }
  }

  lemma ColumnStaysAt(cfg: Config, r: Run, k: nat, id: nat, said: Option<bool>)
    requires r.Valid(cfg) && k < |r.steps| && ColumnIs(r.states[k], id, said)
    ensures ColumnIs(r.states[k + 1], id, said)
  {
    ReachableInv(cfg, r, k);
    assert r.Follows(cfg, k);
    ColumnStays(cfg, r.states[k], r.steps[k], id, said);
  }

  lemma {:induction false} ColumnStaysFrom(cfg: Config, r: Run, i: nat, k: nat, id: nat, said: Option<bool>)
    requires r.Valid(cfg) && i <= k < |r.states| && ColumnIs(r.states[i], id, said)
    ensures ColumnIs(r.states[k], id, said)
    decreases k
  {
    if i == k {
    } else {
      ColumnStaysFrom(cfg, r, i, k - 1, id, said);
      ColumnStaysAt(cfg, r, k - 1, id, said);
    }
  }

  // Once the detection's answer has been recorded, the column is that answer in
  // every later state.
  lemma DetectionIsKept(cfg: Config, r: Run, m: nat, k: nat, id: nat)
    requires r.Valid(cfg) && m < k < |r.states| && r.steps[m] == Advance(Job(id), Committed)
    requires Job(id) in r.states[m].threads && r.states[m].threads[Job(id)].pc.RecordEncryption?
    ensures var d := r.states[m].threads[Job(id)].pc.detection;
      && DetectedAs(Some(d)) in Heard(r, m, id)
      && id < |r.states[k].entries| && r.states[k].entries[id].row.encrypted == d.encrypted
  {
    NoteSettlesAt(cfg, r, m, id);
    ColumnStaysFrom(cfg, r, m + 1, k, id, r.states[m].threads[Job(id)].pc.detection.encrypted);
  }

  lemma NoteSettlesAt(cfg: Config, r: Run, m: nat, id: nat)
    requires r.Valid(cfg) && m < |r.steps| && r.steps[m] == Advance(Job(id), Committed)
    requires Job(id) in r.states[m].threads && r.states[m].threads[Job(id)].pc.RecordEncryption?
    ensures ColumnIs(r.states[m + 1], id, r.states[m].threads[Job(id)].pc.detection.encrypted)
    ensures DetectedAs(Some(r.states[m].threads[Job(id)].pc.detection)) in Heard(r, m, id)
  {
    hide JobFacts, ColumnIs;
    AlwaysTraced(cfg, r, m, id);
    PlacedAt(cfg, r, m, Job(id));
    assert r.Follows(cfg, m);
    NoteSettles(cfg, r.states[m], Heard(r, m, id), id);
  }

  lemma NoteSettles(cfg: Config, s: State, heard: set<Answer>, id: nat)
    requires Enabled(cfg, s, Advance(Job(id), Committed)) && Placed(s.entries, Job(id), s.threads[Job(id)])
    requires s.threads[Job(id)].pc.RecordEncryption?
    requires JobFacts(heard, s.threads[Job(id)], s.entries[id])
    ensures ColumnIs(Apply(cfg, s, Advance(Job(id), Committed)), id, s.threads[Job(id)].pc.detection.encrypted)
    ensures DetectedAs(Some(s.threads[Job(id)].pc.detection)) in heard
  {
    DetectionIsNoted(cfg, heard, s.threads[Job(id)], s.entries[id]);
  }

  // In every reachable state: an ENCRYPTED row does not say that the file is not
  // encrypted, a CLEAN or INFECTED one does not say that it is.
  lemma ColumnAgreesWithStatus(cfg: Config, r: Run, k: nat, id: nat)
    requires r.Valid(cfg) && k < |r.states| && id < |r.states[k].entries|
    ensures var row := r.states[k].entries[id].row;
      && (row.status == ENCRYPTED ==> row.encrypted != Some(false))
      && (row.status == CLEAN || row.status == INFECTED ==> row.encrypted != Some(true))
      && (row.encrypted.Some? ==>
            exists d :: DetectedAs(Some(d)) in Heard(r, k, id) && d.encrypted == row.encrypted)
  {
    AlwaysTraced(cfg, r, k, id);
    ReachableInv(cfg, r, k);
    assert EntryOk(r.states[k].entries[id]);
    var row := r.states[k].entries[id].row;
    if row.encrypted.Some? {
      var a :| a in Heard(r, k, id) && a.DetectedAs?;
      assert DetectedAs(Some(a.result.value)) in Heard(r, k, id);
    }
  }

  // A file for which the detection said that it is encrypted, or that this cannot
  // be told, is at no later moment CLEAN or INFECTED, no aggregation policy is
  // applied to it, and it is allowed only when the stored policy is ALLOW.
  lemma DetectedIsNeverScanned(cfg: Config, r: Run, m: nat, k: nat, id: nat, d: Detection)
    requires r.Valid(cfg) && m < k < |r.states| && r.steps[m] == Advance(Job(id), DetectedAs(Some(d)))
    requires d.encrypted != Some(false)
    ensures id < |r.states[k].entries|
    ensures var row := r.states[k].entries[id].row;
      && row.status != CLEAN && row.status != INFECTED && row.policyApplied == None
      && (row.allowed == Some(true) ==> row.encryptedPolicyApplied == Some(Allow))
  {
    HeardLater(r, m, k, id);
    AlwaysTraced(cfg, r, k, id);
    ReachableInv(cfg, r, k);
    assert EntryOk(r.states[k].entries[id]);
  }

  lemma {:induction false} HeardLater(r: Run, m: nat, k: nat, id: nat)
    requires |r.states| == |r.steps| + 1 && m < k < |r.states| && MovesThread(r.steps[m], Job(id))
    ensures r.steps[m].answer in Heard(r, k, id)
    decreases k
  {
    if k == m + 1 {
    } else {
      HeardLater(r, m, k - 1, id);
    }
  }

  // So is one whose row says that it is encrypted.
  lemma EncryptedNeedsPolicy(cfg: Config, r: Run, k: nat, id: nat)
    requires r.Valid(cfg) && k < |r.states| && id < |r.states[k].entries|
    requires r.states[k].entries[id].row.encrypted == Some(true)
    ensures var row := r.states[k].entries[id].row;
      && row.status != CLEAN && row.status != INFECTED && row.policyApplied == None
      && (row.allowed == Some(true) ==> row.encryptedPolicyApplied == Some(Allow))
  {
    AlwaysTraced(cfg, r, k, id);
    ReachableInv(cfg, r, k);
    assert EntryOk(r.states[k].entries[id]);
  }
}
