// Where the columns of a row come from: each is tied to the answers that the row's
// own job has got in the run, spelled out answer by answer (api/scanner.py:21-187).
module Provenance {
  import opened Wrappers
  import opened Policy
  import opened ScanTable
  import opened ScanPlaybook
  import opened Protocol
  import opened RowInvariant
  import opened SystemInvariant
  import opened StepEffects

  // The answers that a step adds to those of the job.
  function NewAnswer(step: Step, id: nat): set<Answer> {
    if MovesThread(step, Job(id)) then {step.answer} else {}
  }

  // The answers that the job of a row has got before state k.
  ghost function Heard(r: Run, k: nat, id: nat): set<Answer>
    requires |r.states| == |r.steps| + 1 && k < |r.states|
  {
    if k == 0 then {}
    else Heard(r, k - 1, id) + NewAnswer(r.steps[k - 1], id)
  }

  lemma {:induction false} HeardAt(r: Run, k: nat, id: nat, a: Answer) returns (m: nat)
    requires |r.states| == |r.steps| + 1 && k < |r.states| && a in Heard(r, k, id)
    ensures m < k && r.steps[m] == Advance(Job(id), a)
    decreases k
  {
    if MovesThread(r.steps[k - 1], Job(id)) && r.steps[k - 1].answer == a {
      m := k - 1;
    } else {
      m := HeardAt(r, k - 1, id, a);
    }
  }

  // ---------------------------------------------------------------------------
  // What an answer can say
  // ---------------------------------------------------------------------------

  // The fetch playbook reports the submitted hash, in any case of letters.
  predicate FetchesIt(a: Answer, sha256: string) {
    a.Fetched? && a.fetch.FetchCompleted? && a.fetch.actual.Some? && a.fetch.actual.value != ""
    && Lower(a.fetch.actual.value) == Lower(sha256)
  }

  predicate ScansIt(a: Answer, sha256: string) {
    a.Scanned? && a.scan.ScanCompleted? && a.scan.actual.Some? && a.scan.actual.value != ""
    && Lower(a.scan.actual.value) == Lower(sha256)
  }

  // The file is not there to be looked at, or is known not to be encrypted.
  predicate FindsPlain(a: Answer) {
    a.DetectedAs? && (a.result.None? || a.result.value.encrypted == Some(false))
  }

  // The policy of the category, else the default, else DENY.
  predicate IsPolicyOf(p: EncryptedPolicy, category: string, table: map<string, EncryptedPolicy>) {
    if category in table && table[category] != OtherEncryptedPolicy("") then p == table[category]
    else if "default" in table && table["default"] != OtherEncryptedPolicy("") then p == table["default"]
    else p == Deny
  }

  ghost predicate GotFile(heard: set<Answer>, mode: TransferMode, sha256: string) {
    mode == AnsibleFetch ==> exists a :: a in heard && FetchesIt(a, sha256)
  }

  ghost predicate FoundPlain(heard: set<Answer>) {
    exists a :: a in heard && FindsPlain(a)
  }

  ghost predicate FoundEncrypted(heard: set<Answer>, d: Detection) {
    DetectedAs(Some(d)) in heard && d.encrypted != Some(false)
  }

  ghost predicate TableGives(heard: set<Answer>, p: EncryptedPolicy) {
    exists d, table :: FoundEncrypted(heard, d) && Policies(table) in heard && IsPolicyOf(p, d.category, table)
  }

  // ---------------------------------------------------------------------------
  // What a job knows where it stands
  // ---------------------------------------------------------------------------

  predicate HasProfile(pc: Pc) {
    !Harmless(pc) && !pc.ResolveProfile?
  }

  predicate HasScanners(pc: Pc) {
    HasProfile(pc) && !pc.ReadScanners?
  }

  predicate HasFile(pc: Pc) {
    pc.MarkTransferOk? || HasTransfer(pc)
  }

  predicate HasTransfer(pc: Pc) {
    pc.Detect? || pc.RecordEncryption? || pc.ReadPolicies? || pc.WriteEncrypted? || IsScanning(pc)
  }

  predicate IsScanning(pc: Pc) {
    pc.MarkScanning? || pc.RunScanPlaybook? || HasResults(pc)
  }

  predicate HasResults(pc: Pc) {
    pc.RecordHash? || pc.StoreResults? || pc.WriteVerdict?
  }

  ghost predicate KnowsProfile(heard: set<Answer>, t: Thread) {
    && (HasProfile(t.pc) ==> Profile(Some(t.policy)) in heard)
    && (HasScanners(t.pc) ==> Scanners(t.scanners) in heard)
  }

  ghost predicate KnowsFile(heard: set<Answer>, t: Thread) {
    && (HasFile(t.pc) ==> GotFile(heard, t.mode, t.expected))
    && (t.pc.RecordEncryption? ==> DetectedAs(Some(t.pc.detection)) in heard)
    && (t.pc.ReadPolicies? ==> exists d :: FoundEncrypted(heard, d) && d.category == t.pc.category)
    && (t.pc.WriteEncrypted? ==> TableGives(heard, t.pc.encryptedPolicy))
    && (IsScanning(t.pc) ==> FoundPlain(heard))
    && (HasResults(t.pc) ==> Scanned(ScanCompleted(Some(t.pc.actual), t.pc.raw)) in heard)
  }

  ghost predicate Knows(heard: set<Answer>, t: Thread) {
    KnowsProfile(heard, t) && KnowsFile(heard, t)
  }

  // The sub-statuses that the job has written on its way.
  ghost predicate Progressed(t: Thread, e: Entry) {
    && (HasTransfer(t.pc) ==> e.row.transfer == OK)
    && (t.pc.StoreResults? || t.pc.WriteVerdict? ==> e.row.detail == OK)
    && (t.pc.Reject? || t.pc.Fail? ==> e.row.policyApplied == None && e.row.encryptedPolicyApplied == None)
  }

  lemma AnswerTeachesProfile(cfg: Config, heard: set<Answer>, t: Thread, e: Entry, a: Answer)
    requires AnswerFits(t, e, a) && !a.Committed? && !a.Raised? && KnowsProfile(heard, t)
    ensures KnowsProfile(heard + {a}, Advanced(cfg, t, e, a).0)
  {}

  lemma AnswerTeachesFile(cfg: Config, heard: set<Answer>, t: Thread, e: Entry, a: Answer)
    requires AnswerFits(t, e, a) && !a.Committed? && !a.Raised? && KnowsFile(heard, t)
    ensures KnowsFile(heard + {a}, Advanced(cfg, t, e, a).0)
  {
    var t' := Advanced(cfg, t, e, a).0;
    if a.Fetched? && t'.pc.MarkTransferOk? {
      assert FetchesIt(a, t.expected);
    } else if a.DetectedAs? && t'.pc.MarkScanning? {
      assert FindsPlain(a);
    } else if a.Policies? {
      TableTeaches(heard, t.pc.category, a);
      hide ResolveEncrypted, TableGives;
    }
  }

  lemma TableTeaches(heard: set<Answer>, category: string, a: Answer)
    requires a.Policies? && exists d :: FoundEncrypted(heard, d) && d.category == category
    ensures TableGives(heard + {a}, ResolveEncrypted(category, a.table))
  {
    var d :| FoundEncrypted(heard, d) && d.category == category;
    OwnPolicyFirst(category, a.table, Deny);
    assert FoundEncrypted(heard + {a}, d) && IsPolicyOf(ResolveEncrypted(category, a.table), d.category, a.table);
  }

  lemma WriteTeaches(cfg: Config, heard: set<Answer>, t: Thread)
    requires IsStatement(t.pc) && Knows(heard, t)
    ensures Knows(heard + {Committed}, t.(pc := AfterCommit(cfg, t), decided := true))
    ensures Knows(heard + {Committed}, t.(pc := AfterCommit(cfg, t)))
  {
    if t.pc.RecordEncryption? {
      assert t.pc.detection.encrypted != Some(false) ==> FoundEncrypted(heard + {Committed}, t.pc.detection);
      assert t.pc.detection.encrypted == Some(false) ==> FindsPlain(DetectedAs(Some(t.pc.detection)));
    }
  }

  // ---------------------------------------------------------------------------
  // What a row rests on
  // ---------------------------------------------------------------------------

  // A verdict of the scanners.
  ghost predicate VerdictGrounded(heard: set<Answer>, e: Entry) {
    e.row.policyApplied.Some? ==>
      && Profile(e.row.policyApplied) in heard
      && e.readAtStart.Some? && Scanners(e.readAtStart.value) in heard
      && GotFile(heard, e.row.mode, e.row.sha256) && FoundPlain(heard)
      && (exists raw ::
            Scanned(ScanCompleted(Some(e.row.sha256), raw)) in heard && Outcomes(e.results) == RawOutcomes(raw))
      && e.row.transfer == OK && e.row.detail == OK && e.row.encryptedPolicyApplied == None
  }

  // A decision about an encrypted file.
  ghost predicate DecisionGrounded(heard: set<Answer>, e: Entry) {
    e.row.encryptedPolicyApplied.Some? ==>
      && TableGives(heard, e.row.encryptedPolicyApplied.value)
      && GotFile(heard, e.row.mode, e.row.sha256)
      && e.row.transfer == OK && e.row.policyApplied == None
  }

  ghost predicate Grounded(heard: set<Answer>, e: Entry) {
    VerdictGrounded(heard, e) && DecisionGrounded(heard, e)
  }

  lemma MoreIsHeard(heard: set<Answer>, a: Answer, e: Entry)
    requires Grounded(heard, e)
    ensures Grounded(heard + {a}, e)
  {
    if e.row.policyApplied.Some? {
      var raw :| Scanned(ScanCompleted(Some(e.row.sha256), raw)) in heard && Outcomes(e.results) == RawOutcomes(raw);
      assert Scanned(ScanCompleted(Some(e.row.sha256), raw)) in heard + {a};
    }
    if e.row.encryptedPolicyApplied.Some? {
      MoreGives(heard, a, e.row.encryptedPolicyApplied.value);
    }
  }

  lemma MoreGives(heard: set<Answer>, a: Answer, p: EncryptedPolicy)
    requires TableGives(heard, p)
    ensures TableGives(heard + {a}, p)
  {
    var d, table :| FoundEncrypted(heard, d) && Policies(table) in heard && IsPolicyOf(p, d.category, table);
    assert FoundEncrypted(heard + {a}, d) && Policies(table) in heard + {a};
  }

  // The two statements that decide.
  lemma VerdictIsGrounded(heard: set<Answer>, t: Thread, e: Entry)
    requires ThreadOk(t, e) && !t.sweeping && t.pc.WriteVerdict? && Knows(heard, t) && Progressed(t, e)
    ensures Grounded(heard, Effect(t, e))
  {
    var e' := Effect(t, e);
    assert Scanned(ScanCompleted(Some(e.row.sha256), t.pc.raw)) in heard;
    assert Outcomes(e'.results) == RawOutcomes(t.pc.raw);
  }

  lemma DecisionIsGrounded(heard: set<Answer>, t: Thread, e: Entry)
    requires ThreadOk(t, e) && !t.sweeping && t.pc.WriteEncrypted? && Knows(heard, t) && Progressed(t, e)
    ensures Grounded(heard, Effect(t, e))
  {}

  lemma EarlyRowIsGrounded(heard: set<Answer>, t: Thread, e: Entry)
    requires ThreadOk(t, e) && !t.sweeping && IsStatement(t.pc) && !t.pc.WriteVerdict? && !t.pc.WriteEncrypted?
    requires !Harmless(t.pc) || t.pc.Reject? || t.pc.Fail?
    requires Progressed(t, e)
    ensures Grounded(heard, Effect(t, e))
  {}

  // Later statements leave the verdict's ground alone.
  lemma LateRowIsGrounded(heard: set<Answer>, t: Thread, e: Entry)
    requires IsStatement(t.pc) && Harmless(t.pc) && !t.pc.Reject? && !t.pc.Fail? && Grounded(heard, e)
    ensures Grounded(heard, Effect(t, e))
  {
    var e' := Effect(t, e);
    assert e'.results == e.results && e'.readAtStart == e.readAtStart;
    assert e'.row.policyApplied == e.row.policyApplied && e'.row.encryptedPolicyApplied == e.row.encryptedPolicyApplied;
    assert e'.row.transfer == e.row.transfer && e'.row.detail == e.row.detail && e'.row.sha256 == e.row.sha256;
    assert e'.row.mode == e.row.mode;
  }

  lemma OwnWriteIsGrounded(heard: set<Answer>, t: Thread, e: Entry)
    requires ThreadOk(t, e) && !t.sweeping && IsStatement(t.pc)
    requires Knows(heard, t) && Progressed(t, e) && Grounded(heard, e)
    ensures Grounded(heard, Effect(t, e))
  {
    hide Grounded, Knows, Progressed, Effect;
    if t.pc.WriteVerdict? {
      VerdictIsGrounded(heard, t, e);
    } else if t.pc.WriteEncrypted? {
      DecisionIsGrounded(heard, t, e);
    } else if !Harmless(t.pc) || t.pc.Reject? || t.pc.Fail? {
      EarlyRowIsGrounded(heard, t, e);
    } else {
      LateRowIsGrounded(heard, t, e);
    }
  }

  lemma OwnWriteProgresses(cfg: Config, t: Thread, e: Entry)
    requires ThreadOk(t, e) && !t.sweeping && IsStatement(t.pc) && Progressed(t, e)
    ensures Progressed(t.(pc := AfterCommit(cfg, t)), Effect(t, e))
    ensures Progressed(t.(pc := AfterCommit(cfg, t), decided := true), Effect(t, e))
  {
    if !Harmless(t.pc) { OpenJob(t, e); }
    hide ThreadOk, Aggregate, Stored, ApplyEncrypted;
  }

  lemma OwnAnswerProgresses(cfg: Config, t: Thread, e: Entry, a: Answer)
    requires ThreadOk(t, e) && !t.sweeping && AnswerFits(t, e, a) && !a.Committed? && !a.Raised? && Progressed(t, e)
    ensures var (t', e') := Advanced(cfg, t, e, a); Progressed(t', e')
    ensures var e' := Advanced(cfg, t, e, a).1; e'.row == e.row && e'.results == e.results
  {
    if !Harmless(t.pc) { OpenJob(t, e); }
    NothingWritten(cfg, t, e, a);
    NextProgressed(cfg, t, e, a);
    hide *;
  }

  lemma NothingWritten(cfg: Config, t: Thread, e: Entry, a: Answer)
    requires !a.Committed? && !a.Raised?
    ensures var e' := Advanced(cfg, t, e, a).1; e'.row == e.row && e'.results == e.results
  {
    hide AfterAnswer;
  }

  lemma NextProgressed(cfg: Config, t: Thread, e: Entry, a: Answer)
    requires AnswerFits(t, e, a) && !a.Committed? && !a.Raised? && Progressed(t, e)
    requires !Harmless(t.pc) ==> e.row.policyApplied == None && e.row.encryptedPolicyApplied == None
    ensures var (t', e') := Advanced(cfg, t, e, a); Progressed(t', e')
  {
    NothingWritten(cfg, t, e, a);
    hide ResolveEncrypted, Aligned, UniqueSlugs, HashAccepted, UnderRoot;
  }

  // A job that has not yet given its verdict has a row without a policy.
  lemma OpenJob(t: Thread, e: Entry)
    requires ThreadOk(t, e) && !t.sweeping && !Harmless(t.pc)
    ensures e.row.policyApplied == None && e.row.encryptedPolicyApplied == None
  {}

  lemma OwnAnswerIsGrounded(cfg: Config, heard: set<Answer>, t: Thread, e: Entry, a: Answer)
    requires ThreadOk(t, e) && !t.sweeping && AnswerFits(t, e, a) && !a.Committed? && !a.Raised? && Grounded(heard, e)
    ensures Grounded(heard, Advanced(cfg, t, e, a).1)
  {
    var e' := Advanced(cfg, t, e, a).1;
    assert e'.row == e.row && e'.results == e.results;
    if e'.readAtStart != e.readAtStart { assert e.row.policyApplied == None; }
  }

  // ---------------------------------------------------------------------------
  // The encrypted column
  // ---------------------------------------------------------------------------

  predicate BeforeDetection(pc: Pc) {
    pc.ResolveProfile? || pc.ReadScanners? || pc.MarkTransferring? || pc.LookupFetchHost? || pc.FetchPlaybook?
    || pc.MarkTransferOk? || pc.Detect?
  }

  ghost predicate NothingSaid(heard: set<Answer>) {
    forall a :: a in heard ==> !a.DetectedAs?
  }

  // Every detection that was heard, and there is one at most, said this.
  ghost predicate AllSaid(heard: set<Answer>, said: Option<bool>) {
    forall a :: a in heard && a.DetectedAs? ==> a.result.Some? && a.result.value.encrypted == said
  }

  ghost predicate NoneSaysEncrypted(heard: set<Answer>) {
    forall a :: a in heard && a.DetectedAs? ==> FindsPlain(a)
  }

  ghost predicate Notes(heard: set<Answer>, t: Thread, e: Entry) {
    && (BeforeDetection(t.pc) ==> NothingSaid(heard) && e.row.encrypted == None)
    && (t.pc.RecordEncryption? ==> AllSaid(heard, t.pc.detection.encrypted) && e.row.encrypted == None)
    && (t.pc.ReadPolicies? || t.pc.WriteEncrypted? ==>
          AllSaid(heard, e.row.encrypted) && e.row.encrypted != Some(false))
    && (IsScanning(t.pc) ==> NoneSaysEncrypted(heard) && e.row.encrypted != Some(true))
  }

  ghost predicate Column(heard: set<Answer>, e: Entry) {
    && (e.row.encrypted.Some? ==> AllSaid(heard, e.row.encrypted) && !NothingSaid(heard))
    && (e.row.policyApplied.Some? ==> NoneSaysEncrypted(heard) && e.row.encrypted != Some(true))
    && (e.row.encryptedPolicyApplied.Some? ==> AllSaid(heard, e.row.encrypted) && e.row.encrypted != Some(false))
  }

  lemma OwnAnswerNotes(cfg: Config, heard: set<Answer>, t: Thread, e: Entry, a: Answer)
    requires ThreadOk(t, e) && !t.sweeping && AnswerFits(t, e, a) && !a.Committed? && !a.Raised?
    requires Notes(heard, t, e) && Column(heard, e)
    ensures var (t', e') := Advanced(cfg, t, e, a); Notes(heard + {a}, t', e') && Column(heard + {a}, e')
  {
    if a.DetectedAs? {
      OpenJob(t, e);
      DetectionNotes(cfg, heard, t, e, a);
    } else {
      QuietAnswerNotes(cfg, heard, t, e, a);
      MoreNotes(heard, a, Advanced(cfg, t, e, a).0, Advanced(cfg, t, e, a).1);
    }
    hide *;
  }

  lemma DetectionNotes(cfg: Config, heard: set<Answer>, t: Thread, e: Entry, a: Answer)
    requires AnswerFits(t, e, a) && a.DetectedAs? && e.row.policyApplied == None && e.row.encryptedPolicyApplied == None
    requires Notes(heard, t, e)
    ensures var (t', e') := Advanced(cfg, t, e, a); Notes(heard + {a}, t', e') && Column(heard + {a}, e')
  {}

  lemma QuietAnswerNotes(cfg: Config, heard: set<Answer>, t: Thread, e: Entry, a: Answer)
    requires AnswerFits(t, e, a) && !a.Committed? && !a.Raised? && !a.DetectedAs?
    requires Notes(heard, t, e) && Column(heard, e)
    ensures var (t', e') := Advanced(cfg, t, e, a); Notes(heard, t', e') && Column(heard, e')
  {
    hide NothingSaid, AllSaid, NoneSaysEncrypted, Aligned, UniqueSlugs, ResolveEncrypted, HashAccepted, UnderRoot;
    assert Advanced(cfg, t, e, a).1.row == e.row;
  }

  lemma MoreNotes(heard: set<Answer>, a: Answer, t: Thread, e: Entry)
    requires !a.DetectedAs? && Notes(heard, t, e) && Column(heard, e)
    ensures Notes(heard + {a}, t, e) && Column(heard + {a}, e)
  {
    SameDetections(heard, a);
    hide NothingSaid, AllSaid, NoneSaysEncrypted;
  }

  lemma OwnWriteNotes(cfg: Config, heard: set<Answer>, t: Thread, e: Entry)
    requires ThreadOk(t, e) && !t.sweeping && IsStatement(t.pc)
    requires Notes(heard, t, e) && Column(heard, e) && Knows(heard, t)
    ensures Column(heard, Effect(t, e)) && Notes(heard, t.(pc := AfterCommit(cfg, t)), Effect(t, e))
  {
    if t.pc.RecordEncryption? {
      DetectionIsNoted(cfg, heard, t, e);
    } else {
      OtherWriteNotes(cfg, heard, t, e);
    }
  }

  lemma DetectionIsNoted(cfg: Config, heard: set<Answer>, t: Thread, e: Entry)
    requires ThreadOk(t, e) && !t.sweeping && t.pc.RecordEncryption? && Notes(heard, t, e) && Knows(heard, t)
    ensures Column(heard, Effect(t, e)) && Notes(heard, t.(pc := AfterCommit(cfg, t)), Effect(t, e))
    ensures Effect(t, e).row.encrypted == t.pc.detection.encrypted
  {
    hide Scanning, Evidenced;
    assert DetectedAs(Some(t.pc.detection)) in heard;
    assert e.row.policyApplied == None && e.row.encryptedPolicyApplied == None;
  }

  lemma OtherWriteNotes(cfg: Config, heard: set<Answer>, t: Thread, e: Entry)
    requires ThreadOk(t, e) && !t.sweeping && IsStatement(t.pc) && !t.pc.RecordEncryption?
    requires Notes(heard, t, e) && Column(heard, e)
    ensures Column(heard, Effect(t, e)) && Notes(heard, t.(pc := AfterCommit(cfg, t)), Effect(t, e))
  {
    hide Scanning, Evidenced, Aggregate, Stored, ApplyEncrypted, AllSaid, NothingSaid, NoneSaysEncrypted, JobOk;
    assert Effect(t, e).row.encrypted == e.row.encrypted;
  }

  lemma SameDetections(heard: set<Answer>, a: Answer)
    requires !a.DetectedAs?
    ensures NothingSaid(heard + {a}) <==> NothingSaid(heard)
    ensures NoneSaysEncrypted(heard + {a}) <==> NoneSaysEncrypted(heard)
    ensures forall said :: AllSaid(heard + {a}, said) <==> AllSaid(heard, said)
  {
    forall said ensures AllSaid(heard + {a}, said) <==> AllSaid(heard, said) {
      assert forall b :: b in heard ==> b in heard + {a};
    }
    assert forall b :: b in heard ==> b in heard + {a};
  }

  // ---------------------------------------------------------------------------
  // One step
  // ---------------------------------------------------------------------------

  ghost predicate JobFacts(heard: set<Answer>, t: Thread, e: Entry) {
    Knows(heard, t) && Progressed(t, e) && Notes(heard, t, e)
  }

  ghost predicate RowFacts(heard: set<Answer>, e: Entry) {
    Grounded(heard, e) && Column(heard, e)
  }

  lemma AnswerTraces(cfg: Config, heard: set<Answer>, t: Thread, e: Entry, a: Answer)
    requires ThreadOk(t, e) && !t.sweeping && AnswerFits(t, e, a) && !a.Committed? && !a.Raised?
    requires JobFacts(heard, t, e) && RowFacts(heard, e)
    ensures var (t', e') := Advanced(cfg, t, e, a); JobFacts(heard + {a}, t', e') && RowFacts(heard + {a}, e')
  {
    hide KnowsProfile, KnowsFile, Progressed, Notes, Grounded, Column, ThreadOk, AnswerFits, Advanced;
    AnswerTeachesProfile(cfg, heard, t, e, a);
    AnswerTeachesFile(cfg, heard, t, e, a);
    OwnAnswerProgresses(cfg, t, e, a);
    OwnAnswerNotes(cfg, heard, t, e, a);
    OwnAnswerIsGrounded(cfg, heard, t, e, a);
    MoreIsHeard(heard, a, Advanced(cfg, t, e, a).1);
  }

  lemma WriteTraces(cfg: Config, heard: set<Answer>, t: Thread, e: Entry)
    requires ThreadOk(t, e) && !t.sweeping && CanCommit(t) && JobFacts(heard, t, e) && RowFacts(heard, e)
    ensures var (t', e') := Advanced(cfg, t, e, Committed);
      JobFacts(heard + {Committed}, t', e') && RowFacts(heard + {Committed}, e')
  {
    hide KnowsProfile, KnowsFile, Grounded, Column, ThreadOk, Effect, AfterCommit;
    WriteTeaches(cfg, heard, t);
    OwnWriteProgresses(cfg, t, e);
    OwnWriteNotes(cfg, heard, t, e);
    MoreNotes(heard, Committed, t.(pc := AfterCommit(cfg, t)), Effect(t, e));
    OwnWriteIsGrounded(heard, t, e);
    MoreIsHeard(heard, Committed, Effect(t, e));
  }

  lemma RaiseTraces(cfg: Config, heard: set<Answer>, t: Thread, e: Entry, a: Answer)
    requires ThreadOk(t, e) && !t.sweeping && AnswerFits(t, e, a) && a.Raised?
    requires JobFacts(heard, t, e) && RowFacts(heard, e)
    ensures var (t', e') := Advanced(cfg, t, e, a); JobFacts(heard + {a}, t', e') && RowFacts(heard + {a}, e')
  {
    hide Grounded, Column, ThreadOk, Effect, AfterCommit;
    if a.applied {
      OwnWriteNotes(cfg, heard, t, e);
      MoreNotes(heard, a, t.(pc := AfterCommit(cfg, t)), Effect(t, e));
      OwnWriteIsGrounded(heard, t, e);
      MoreIsHeard(heard, a, Effect(t, e));
    } else {
      MoreNotes(heard, a, t, e);
      MoreIsHeard(heard, a, e);
    }
  }

  lemma OwnStepTraces(cfg: Config, heard: set<Answer>, t: Thread, e: Entry, a: Answer)
    requires ThreadOk(t, e) && !t.sweeping && AnswerFits(t, e, a)
    requires JobFacts(heard, t, e) && RowFacts(heard, e)
    ensures var (t', e') := Advanced(cfg, t, e, a); JobFacts(heard + {a}, t', e') && RowFacts(heard + {a}, e')
  {
    hide JobFacts, RowFacts, ThreadOk;
    if a.Committed? {
      WriteTraces(cfg, heard, t, e);
    } else if a.Raised? {
      RaiseTraces(cfg, heard, t, e, a);
    } else {
      AnswerTraces(cfg, heard, t, e, a);
    }
  }

  // What the sweeps and the deletion of scanners leave alone.
  ghost predicate SameGround(e: Entry, e': Entry) {
    && e'.row.encrypted == e.row.encrypted && e'.row.policyApplied == e.row.policyApplied
    && e'.row.encryptedPolicyApplied == e.row.encryptedPolicyApplied
    && e'.row.transfer == e.row.transfer && e'.row.detail == e.row.detail
    && e'.row.sha256 == e.row.sha256 && e'.row.mode == e.row.mode
    && Outcomes(e'.results) == Outcomes(e.results) && e'.readAtStart == e.readAtStart
  }

  lemma SweepKeepsGround(cfg: Config, t: Thread, e: Entry, a: Answer)
    requires ThreadOk(t, e) && t.sweeping && AnswerFits(t, e, a)
    ensures SameGround(e, Advanced(cfg, t, e, a).1)
  {
    if a.Committed? || (a.Raised? && a.applied) {
      SweepWriteKeepsGround(t, e);
    }
  }

  lemma SweepWriteKeepsGround(t: Thread, e: Entry)
    requires SweepPoint(t.pc) && IsStatement(t.pc)
    ensures SameGround(e, Effect(t, e))
  {
    assert Effect(t, e).results == e.results;
  }

  lemma GroundStays(heard: set<Answer>, e: Entry, e': Entry)
    requires RowFacts(heard, e) && SameGround(e, e')
    ensures RowFacts(heard, e')
  {}

  lemma JobStays(heard: set<Answer>, t: Thread, e: Entry, t': Thread, e': Entry)
    requires JobFacts(heard, t, e) && SameGround(e, e') && SamePoint(t, t')
    ensures JobFacts(heard, t', e')
  {
    hide FoundEncrypted, FoundPlain, TableGives, GotFile, AllSaid, NothingSaid, NoneSaysEncrypted;
  }

  lemma OthersKeepGround(cfg: Config, s: State, step: Step, s': State, id: nat)
    requires RowEffect(cfg, s, step, s', id) && !MovesThread(step, Job(id))
    ensures SameGround(s.entries[id], s'.entries[id])
  {
    var e, e' := s.entries[id], s'.entries[id];
    if e' != e && step.ScannerDeleted? && e' == e.(results := Forget(e.results, step.scanner)) {
      assert Outcomes(e'.results) == Outcomes(e.results);
    } else if e' != e && step.Advance? && !(e.row.status == RECEIVED && e'.row.status == VALIDATING) {
      SweepKeepsGround(cfg, s.threads[step.actor], e, step.answer);
    }
  }

  // ---------------------------------------------------------------------------
  // Over whole runs
  // ---------------------------------------------------------------------------

  ghost predicate Traced(heard: set<Answer>, s: State, id: nat) {
    if id < |s.entries| then
      && (s.entries[id].row.status == RECEIVED ==> heard == {})
      && RowFacts(heard, s.entries[id])
      && (Job(id) in s.threads ==> JobFacts(heard, s.threads[Job(id)], s.entries[id]))
    else heard == {}
  }

  lemma NewRowTraces(e: Entry)
    requires e.row.encrypted == None && e.row.policyApplied == None && e.row.encryptedPolicyApplied == None
    ensures RowFacts({}, e)
  {}

  lemma NewJobTraces(t: Thread, e: Entry)
    requires t.pc.ResolveProfile? && RowFacts({}, e)
    ensures JobFacts({}, t, e)
  {}

  lemma StepTraces(cfg: Config, heard: set<Answer>, s: State, step: Step, id: nat)
    requires Inv(cfg, s) && Enabled(cfg, s, step) && id < |s.entries| && Traced(heard, s, id)
    ensures Traced(heard + NewAnswer(step, id), Apply(cfg, s, step), id)
  {
    hide Traced, Apply;
    if MovesThread(step, Job(id)) {
      assert Placed(s.entries, Job(id), s.threads[Job(id)]) && EntryOk(s.entries[id]);
      OwnTraces(cfg, heard, s, step.answer, id);
    } else {
      OthersTraceStep(cfg, heard, s, step, id);
      assert heard + {} == heard;
    }
  }

  lemma OthersTraceStep(cfg: Config, heard: set<Answer>, s: State, step: Step, id: nat)
    requires Inv(cfg, s) && Enabled(cfg, s, step) && id < |s.entries| && Traced(heard, s, id)
    requires !MovesThread(step, Job(id))
    ensures Traced(heard, Apply(cfg, s, step), id)
  {
    hide Traced, RowEffect, ThreadEffect;
    RowAfter(cfg, s, step, id);
    ThreadAfter(cfg, s, step, Job(id));
    OthersTrace(cfg, heard, s, step, Apply(cfg, s, step), id);
  }

  lemma OwnTraces(cfg: Config, heard: set<Answer>, s: State, a: Answer, id: nat)
    requires Enabled(cfg, s, Advance(Job(id), a)) && Placed(s.entries, Job(id), s.threads[Job(id)])
    requires EntryOk(s.entries[id]) && Traced(heard, s, id)
    ensures Traced(heard + {a}, Apply(cfg, s, Advance(Job(id), a)), id)
  {
    hide RowFacts, JobFacts, ThreadOk, EntryOk, Advanced, Evolves;
    OwnStepTraces(cfg, heard, s.threads[Job(id)], s.entries[id], a);
    StaysClaimed(cfg, s.threads[Job(id)], s.entries[id], a);
  }

  lemma StaysClaimed(cfg: Config, t: Thread, e: Entry, a: Answer)
    requires EntryOk(e) && ThreadOk(t, e) && AnswerFits(t, e, a)
    ensures Advanced(cfg, t, e, a).1.row.status != RECEIVED && Advanced(cfg, t, e, a).0.target == t.target
  {
    AdvancedKeeps(cfg, t, e, a);
  }

  lemma OthersTrace(cfg: Config, heard: set<Answer>, s: State, step: Step, s': State, id: nat)
    requires RowEffect(cfg, s, step, s', id) && ThreadEffect(cfg, s, step, s', Job(id)) && !MovesThread(step, Job(id))
    requires Traced(heard, s, id)
    ensures Traced(heard, s', id)
  {
    hide RowFacts, JobFacts, SameGround;
    OthersKeepGround(cfg, s, step, s', id);
    GroundStays(heard, s.entries[id], s'.entries[id]);
    if Job(id) in s'.threads {
      if Job(id) in s.threads {
        JobStays(heard, s.threads[Job(id)], s.entries[id], s'.threads[Job(id)], s'.entries[id]);
      } else {
        NewJobTraces(s'.threads[Job(id)], s'.entries[id]);
      }
    }
  }

  lemma RowIsNew(cfg: Config, s: State, step: Step, id: nat)
    requires Inv(cfg, s) && Enabled(cfg, s, step) && |s.entries| <= id
    ensures Job(id) !in Apply(cfg, s, step).threads && !MovesThread(step, Job(id))
    ensures id < |Apply(cfg, s, step).entries| ==>
      var e := Apply(cfg, s, step).entries[id];
      e.row.encrypted == None && e.row.policyApplied == None && e.row.encryptedPolicyApplied == None
  {
    forall a | a in s.threads ensures a != Job(id) {
      assert Placed(s.entries, a, s.threads[a]);
    }
    ThreadAfter(cfg, s, step, Job(id));
    if id < |Apply(cfg, s, step).entries| { RowInserted(cfg, s, step, id); }
  }

  lemma RowInserted(cfg: Config, s: State, step: Step, id: nat)
    requires Enabled(cfg, s, step) && |s.entries| <= id < |Apply(cfg, s, step).entries|
    ensures var e := Apply(cfg, s, step).entries[id];
      e.row.encrypted == None && e.row.policyApplied == None && e.row.encryptedPolicyApplied == None
  {}

  lemma StepTracesAt(cfg: Config, r: Run, k: nat, id: nat)
    requires r.Valid(cfg) && k < |r.steps| && Traced(Heard(r, k, id), r.states[k], id)
    ensures Traced(Heard(r, k + 1, id), r.states[k + 1], id)
  {
    ReachableInv(cfg, r, k);
    assert r.Follows(cfg, k);
    hide RowFacts, JobFacts;
    if id < |r.states[k].entries| {
      StepTraces(cfg, Heard(r, k, id), r.states[k], r.steps[k], id);
    } else {
      RowIsNew(cfg, r.states[k], r.steps[k], id);
      if id < |r.states[k + 1].entries| { NewRowTraces(r.states[k + 1].entries[id]); }
    }
  }

  lemma {:induction false} AlwaysTraced(cfg: Config, r: Run, k: nat, id: nat)
    requires r.Valid(cfg) && k < |r.states|
    ensures Traced(Heard(r, k, id), r.states[k], id)
    decreases k
  {
    if k == 0 {
    } else {
      AlwaysTraced(cfg, r, k - 1, id);
      StepTracesAt(cfg, r, k - 1, id);
    }
  }

  // In every reachable state: where an aggregation policy was applied, it is the
  // one that the job's profile question was answered with, to results that stand
  // for what the scan playbook reported about the submitted hash, of the scanners
  // that the job's scanner question was answered with; before that the file was
  // fetched with that hash, if it had to be, and not found to be encrypted.
  lemma VerdictComesFromAnswers(cfg: Config, r: Run, k: nat, id: nat)
    requires r.Valid(cfg) && k < |r.states| && id < |r.states[k].entries|
    requires r.states[k].entries[id].row.policyApplied.Some?
    ensures var e := r.states[k].entries[id]; var heard := Heard(r, k, id);
      && Profile(e.row.policyApplied) in heard
      && e.readAtStart.Some? && Scanners(e.readAtStart.value) in heard
      && (e.row.mode == AnsibleFetch ==> exists a :: a in heard && FetchesIt(a, e.row.sha256))
      && (exists a :: a in heard && FindsPlain(a))
      && (forall a :: a in heard && a.DetectedAs? ==> FindsPlain(a))
      && (exists raw ::
            Scanned(ScanCompleted(Some(e.row.sha256), raw)) in heard && Outcomes(e.results) == RawOutcomes(raw))
      && e.row.transfer == OK && e.row.detail == OK
  {
    AlwaysTraced(cfg, r, k, id);
  }
}
