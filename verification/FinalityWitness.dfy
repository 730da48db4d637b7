// The run in which a sweep meets a live job, and the exact condition under
// which no such run exists.
module FinalityWitness {
  import opened Wrappers
  import opened Policy
  import opened ScanTable
  import opened ScanPlaybook
  import opened Protocol
  import opened Finality

  const CLAMAV := ScannerConfig(0, "ClamAV", "clamav", ClamavWrapperJson)
  const RAW := [RawResult("ClamAV", "clamav", Text(Clean), None)]
  const STORED := [StoredResult(Some(0), ScannerOutcome("ClamAV", Clean, None))]

  // A file on one of the configured hosts.
  ghost function SomeFile(cfg: Config): (file: FileRef)
    requires cfg.hosts != map[]
    ensures file.host in cfg.hosts
  {
    assert cfg.hosts.Keys != {};
    var host :| host in cfg.hosts;
    FileRef(host, "/data/a.pdf", "a.pdf", 1)
  }

  // A run grows by one enabled step that keeps every job within its time.
  lemma Extend(cfg: Config, r: Run, step: Step) returns (r': Run)
    requires r.Valid(cfg) && Timely(cfg, r)
    requires Enabled(cfg, r.Last(), step) && TimelyState(cfg, Apply(cfg, r.Last(), step))
    ensures r'.Valid(cfg) && Timely(cfg, r')
    ensures r'.states == r.states + [Apply(cfg, r.Last(), step)] && r'.steps == r.steps + [step]
  {
    r' := Run(r.states + [Apply(cfg, r.Last(), step)], r.steps + [step]);
    forall i | 0 <= i < |r'.steps| ensures r'.Follows(cfg, i) {
      if i < |r.steps| { assert r.Follows(cfg, i); }
    }
  }

  // The job gets an answer that raises nothing and touches no remote host.
  lemma JobAdvances(cfg: Config, r: Run, a: Answer, t': Thread, e': Entry) returns (r': Run)
    requires r.Valid(cfg) && Timely(cfg, r)
    requires var s := r.Last();
      && Job(0) in s.threads && s.threads[Job(0)].target == 0 < |s.entries|
      && AnswerFits(s.threads[Job(0)], s.entries[0], a) && !a.Raised? && !a.Removal?
      && Truthful(cfg, s, s.threads[Job(0)], a)
      && Advanced(cfg, s.threads[Job(0)], s.entries[0], a) == (t', e')
      && TimelyThread(cfg, Job(0), t') && t'.target == 0
    ensures r'.Valid(cfg) && Timely(cfg, r') && |r'.states| == |r.states| + 1 && r.states <= r'.states
    ensures r'.Last() == r.Last().(entries := r.Last().entries[0 := e'], threads := r.Last().threads[Job(0) := t'])
  {
    var s := r.Last();
    var s' := Apply(cfg, s, Advance(Job(0), a));
    assert s' == s.(entries := s.entries[0 := e'], threads := s.threads[Job(0) := t']);
    assert TimelyState(cfg, s);
    r' := Extend(cfg, r, Advance(Job(0), a));
  }

  // Time passes while the job stands where it is.
  lemma TimePasses(cfg: Config, r: Run, seconds: nat) returns (r': Run)
    requires r.Valid(cfg) && Timely(cfg, r)
    requires var s := r.Last();
      && s.threads.Keys == {Job(0)}
      && TimelyThread(cfg, Job(0), Charged(s.threads[Job(0)], seconds))
    ensures r'.Valid(cfg) && Timely(cfg, r') && |r'.states| == |r.states| + 1 && r.states <= r'.states
    ensures var s := r.Last();
      r'.Last() == s.(clock := s.clock + seconds, threads := map[Job(0) := Charged(s.threads[Job(0)], seconds)])
  {
    var s := r.Last();
    assert AllCharged(s.threads, seconds) == map[Job(0) := Charged(s.threads[Job(0)], seconds)];
    r' := Extend(cfg, r, Tick(seconds));
  }

  // The row, its job and its worker as the run goes on.
  ghost function RowAt(cfg: Config, hash: string, status: Status, transfer: SubStatus): Row
    requires cfg.hosts != map[]
  {
    NewRow(SomeFile(cfg), AnsibleFetch, None, 0, hash).(startedAt := Some(0), status := status, transfer := transfer)
  }

  function JobAt(cfg: Config, hash: string, pc: Pc, fetchUsed: nat, scanUsed: nat): Thread {
    Thread(0, 0, false, pc, hash, AnsibleFetch, AllMustPass, [CLAMAV], false, fetchUsed, scanUsed, 0)
  }

  function Busy(cfg: Config): Worker
    requires cfg.concurrency > 0
  {
    Worker({0}, cfg.concurrency - 1, None, [], true)
  }

  function World(cfg: Config, clock: int, e: Entry, t: Thread): State
    requires cfg.concurrency > 0
  {
    State(clock, [e], map[Job(0) := t], map[0 := Busy(cfg)], map[], map[])
  }

  ghost function Queued(cfg: Config, hash: string): State
    requires cfg.hosts != map[]
  {
    State(0, [Inserted(NewRow(SomeFile(cfg), AnsibleFetch, None, 0, hash))], map[],
          map[0 := Worker({}, cfg.concurrency, None, [], true)], map[], map[])
  }

  lemma UntilSubmitted(cfg: Config, hash: string) returns (r: Run)
    requires cfg.hosts != map[] && IsSha256(hash)
    ensures r.Valid(cfg) && Timely(cfg, r)
    ensures r.Last() == Queued(cfg, hash).(workers := map[])
  {
    r := Run([State(0, [], map[], map[], map[], map[])], []);
    r := Extend(cfg, r, Submit(SomeFile(cfg), AnsibleFetch, hash));
  }

  lemma UntilQueued(cfg: Config, hash: string) returns (r: Run)
    requires cfg.hosts != map[] && IsSha256(hash)
    ensures r.Valid(cfg) && Timely(cfg, r) && r.Last() == Queued(cfg, hash)
  {
    r := UntilSubmitted(cfg, hash);
    r := Extend(cfg, r, WorkerStart(0));
    assert LiveJobs(r.Last(), 0) == {};
    r := Extend(cfg, r, Harvest(0, {}));
  }

  lemma UntilLocked(cfg: Config, hash: string) returns (r: Run)
    requires cfg.concurrency > 0 && cfg.hosts != map[] && IsSha256(hash)
    ensures r.Valid(cfg) && Timely(cfg, r)
    ensures r.Last()
      == Queued(cfg, hash).(workers := map[0 := Worker({}, cfg.concurrency, Some(Claim(0, 0)), [], true)])
  {
    r := UntilQueued(cfg, hash);
    assert !Locked(r.Last(), 0);
    r := Extend(cfg, r, ClaimLock(0, 0));
  }

  lemma UntilClaimed(cfg: Config, hash: string) returns (r: Run)
    requires cfg.concurrency > 0 && cfg.hosts != map[] && IsSha256(hash)
    ensures r.Valid(cfg) && Timely(cfg, r)
    ensures r.Last() == World(cfg, 0, Inserted(RowAt(cfg, hash, VALIDATING, PENDING)),
                              JobAt(cfg, hash, ResolveProfile, 0, 0).(policy := OtherPolicy(""), scanners := []))
  {
    r := UntilLocked(cfg, hash);
    r := Extend(cfg, r, ClaimCommit(0));
    assert {} + {0} == {0};
  }

  lemma UntilRead(cfg: Config, hash: string) returns (r: Run)
    requires cfg.concurrency > 0 && cfg.hosts != map[] && IsSha256(hash)
    ensures r.Valid(cfg) && Timely(cfg, r)
    ensures r.Last() == World(cfg, 0, Entry(RowAt(cfg, hash, VALIDATING, PENDING), [], Some([CLAMAV]), None),
                              JobAt(cfg, hash, MarkTransferring, 0, 0))
  {
    r := UntilClaimed(cfg, hash);
    var e := Inserted(RowAt(cfg, hash, VALIDATING, PENDING));
    r := JobAdvances(cfg, r, Profile(Some(AllMustPass)), JobAt(cfg, hash, ReadScanners, 0, 0).(scanners := []), e);
    r := JobAdvances(cfg, r, Scanners([CLAMAV]), JobAt(cfg, hash, MarkTransferring, 0, 0),
                     e.(readAtStart := Some([CLAMAV])));
  }

  lemma UntilFetching(cfg: Config, hash: string) returns (r: Run)
    requires cfg.concurrency > 0 && cfg.hosts != map[] && IsSha256(hash)
    ensures r.Valid(cfg) && Timely(cfg, r)
    ensures r.Last() == World(cfg, 0, Entry(RowAt(cfg, hash, TRANSFERRING, PENDING), [], Some([CLAMAV]), None),
                              JobAt(cfg, hash, FetchPlaybook, 0, 0))
  {
    r := UntilRead(cfg, hash);
    var e := Entry(RowAt(cfg, hash, TRANSFERRING, PENDING), [], Some([CLAMAV]), None);
    r := JobAdvances(cfg, r, Committed, JobAt(cfg, hash, LookupFetchHost, 0, 0), e);
    r := JobAdvances(cfg, r, Host(Some(cfg.hosts[SomeFile(cfg).host])), JobAt(cfg, hash, FetchPlaybook, 0, 0), e);
  }

  // The fetch playbook takes all the time it is given.
  lemma UntilTransferred(cfg: Config, hash: string) returns (r: Run)
    requires cfg.concurrency > 0 && cfg.hosts != map[] && IsSha256(hash)
    ensures r.Valid(cfg) && Timely(cfg, r)
    ensures r.Last() == World(cfg, cfg.fetchTimeout,
                              Entry(RowAt(cfg, hash, TRANSFERRING, PENDING), [], Some([CLAMAV]), None),
                              JobAt(cfg, hash, MarkTransferOk, cfg.fetchTimeout, 0))
  {
    r := UntilFetching(cfg, hash);
    r := TimePasses(cfg, r, cfg.fetchTimeout);
    r := JobAdvances(cfg, r, Fetched(FetchCompleted(Some(hash))), JobAt(cfg, hash, MarkTransferOk, cfg.fetchTimeout, 0),
                     Entry(RowAt(cfg, hash, TRANSFERRING, PENDING), [], Some([CLAMAV]), None));
  }

  lemma UntilDetected(cfg: Config, hash: string) returns (r: Run)
    requires cfg.concurrency > 0 && cfg.hosts != map[] && IsSha256(hash)
    ensures r.Valid(cfg) && Timely(cfg, r)
    ensures r.Last() == World(cfg, cfg.fetchTimeout,
                              Entry(RowAt(cfg, hash, TRANSFERRING, OK), [], Some([CLAMAV]), None),
                              JobAt(cfg, hash, MarkScanning, cfg.fetchTimeout, 0))
  {
    r := UntilTransferred(cfg, hash);
    var e := Entry(RowAt(cfg, hash, TRANSFERRING, OK), [], Some([CLAMAV]), None);
    r := JobAdvances(cfg, r, Committed, JobAt(cfg, hash, Detect, cfg.fetchTimeout, 0), e);
    r := JobAdvances(cfg, r, DetectedAs(None), JobAt(cfg, hash, MarkScanning, cfg.fetchTimeout, 0), e);
  }

  // So does the scan playbook.
  lemma UntilScanning(cfg: Config, hash: string) returns (r: Run)
    requires cfg.concurrency > 0 && cfg.hosts != map[] && IsSha256(hash)
    ensures r.Valid(cfg) && Timely(cfg, r)
    ensures r.Last() == World(cfg, cfg.fetchTimeout + cfg.scanTimeout,
                              Entry(RowAt(cfg, hash, SCANNING, OK), [], Some([CLAMAV]), None),
                              JobAt(cfg, hash, RunScanPlaybook, cfg.fetchTimeout, cfg.scanTimeout))
  {
    r := UntilDetected(cfg, hash);
    r := JobAdvances(cfg, r, Committed, JobAt(cfg, hash, RunScanPlaybook, cfg.fetchTimeout, 0),
                     Entry(RowAt(cfg, hash, SCANNING, OK), [], Some([CLAMAV]), None));
    r := TimePasses(cfg, r, cfg.scanTimeout);
  }

  ghost function ScannedEntry(cfg: Config, hash: string): Entry
    requires cfg.hosts != map[]
  {
    Entry(RowAt(cfg, hash, SCANNING, OK), [], Some([CLAMAV]), Some(hash))
  }

  function ScannedJob(cfg: Config, hash: string): Thread {
    JobAt(cfg, hash, RecordHash(hash, RAW), cfg.fetchTimeout, cfg.scanTimeout).(localUsed := cfg.localBudget)
  }

  ghost function ScannedWorld(cfg: Config, hash: string): State
    requires cfg.concurrency > 0 && cfg.hosts != map[]
  {
    World(cfg, cfg.fetchTimeout + cfg.scanTimeout + cfg.localBudget, ScannedEntry(cfg, hash), ScannedJob(cfg, hash))
  }

  // And the work outside the playbooks.
  lemma UntilScanned(cfg: Config, hash: string) returns (r: Run)
    requires cfg.concurrency > 0 && cfg.hosts != map[] && IsSha256(hash)
    ensures r.Valid(cfg) && Timely(cfg, r)
    ensures r.Last() == ScannedWorld(cfg, hash)
  {
    r := UntilScanning(cfg, hash);
    r := JobAdvances(cfg, r, Scanned(ScanCompleted(Some(hash), RAW)),
                     JobAt(cfg, hash, RecordHash(hash, RAW), cfg.fetchTimeout, cfg.scanTimeout),
                     ScannedEntry(cfg, hash));
    r := TimePasses(cfg, r, cfg.localBudget);
  }

  // The sweep finds the live row ...
  lemma UntilFound(cfg: Config, hash: string) returns (r: Run)
    requires cfg.concurrency > 0 && cfg.hosts != map[] && IsSha256(hash) && !LifetimeCoversBudget(cfg)
    ensures r.Valid(cfg) && Timely(cfg, r)
    ensures r.Last() == ScannedWorld(cfg, hash).(workers := map[0 := Busy(cfg).(queue := [0])])
  {
    r := UntilScanned(cfg, hash);
    var s := r.Last();
    assert TimelyState(cfg, s);
    assert StaleNow(cfg, s, 0);
    r := Extend(cfg, r, SweepQuery(0, [0]));
  }

  // ... selects it ...
  lemma UntilSelected(cfg: Config, hash: string) returns (r: Run)
    requires cfg.concurrency > 0 && cfg.hosts != map[] && IsSha256(hash) && !LifetimeCoversBudget(cfg)
    ensures r.Valid(cfg) && Timely(cfg, r)
    ensures var sweep := NewSweep(ScannedEntry(cfg, hash), 0, 0);
      r.Last() == ScannedWorld(cfg, hash).(threads := map[Job(0) := ScannedJob(cfg, hash), Sweep(0) := sweep])
  {
    r := UntilFound(cfg, hash);
    var queue: seq<nat> := [0];
    assert queue[1..] == [];
    assert TimelyState(cfg, r.Last());
    r := Extend(cfg, r, SweepNext(0));
  }

  ghost function SweptEntry(cfg: Config, hash: string): Entry
    requires cfg.hosts != map[]
  {
    Entry(RowAt(cfg, hash, ERROR, OK).(allowed := Some(false)), [], Some([CLAMAV]), Some(hash))
  }

  // ... and refuses the file.
  lemma UntilSwept(cfg: Config, hash: string) returns (r: Run)
    requires cfg.concurrency > 0 && cfg.hosts != map[] && IsSha256(hash) && !LifetimeCoversBudget(cfg)
    ensures r.Valid(cfg) && Timely(cfg, r)
    ensures r.Last().entries == [SweptEntry(cfg, hash)]
    ensures Job(0) in r.Last().threads && r.Last().threads[Job(0)] == ScannedJob(cfg, hash)
  {
    r := UntilSelected(cfg, hash);
    var s := r.Last();
    assert TimelyState(cfg, s);
    var sweep := NewSweep(ScannedEntry(cfg, hash), 0, 0);
    assert Advanced(cfg, sweep, ScannedEntry(cfg, hash), Committed)
      == (sweep.(pc := Tidy(false), decided := true), SweptEntry(cfg, hash));
    r := Extend(cfg, r, Advance(Sweep(0), Committed));
  }

  lemma UntilStored(cfg: Config, hash: string) returns (r: Run, i: nat)
    requires cfg.concurrency > 0 && cfg.hosts != map[] && IsSha256(hash) && !LifetimeCoversBudget(cfg)
    ensures r.Valid(cfg) && Timely(cfg, r)
    ensures i < |r.states| && r.states[i].entries == [SweptEntry(cfg, hash)]
    ensures r.Last().entries
      == [SweptEntry(cfg, hash).(row := SweptEntry(cfg, hash).row.(detail := OK), results := STORED)]
    ensures Job(0) in r.Last().threads
    ensures r.Last().threads[Job(0)] == ScannedJob(cfg, hash).(pc := WriteVerdict(hash, RAW))
  {
    r := UntilSwept(cfg, hash);
    i := |r.states| - 1;
    var e := SweptEntry(cfg, hash).(row := SweptEntry(cfg, hash).row.(detail := OK));
    r := JobAdvances(cfg, r, Committed, ScannedJob(cfg, hash).(pc := StoreResults(hash, RAW)), e);
    assert Stored(RAW, [CLAMAV]) == STORED;
    assert e.results + STORED == STORED;
    r := JobAdvances(cfg, r, Committed, ScannedJob(cfg, hash).(pc := WriteVerdict(hash, RAW)), e.(results := STORED));
  }

  // The job goes on and allows the file that was refused.
  lemma SweepOverruled(cfg: Config) returns (r: Run, i: nat)
    requires cfg.concurrency > 0 && cfg.hosts != map[] && !LifetimeCoversBudget(cfg)
    ensures r.Valid(cfg) && Timely(cfg, r) && i < |r.states|
    ensures |r.states[i].entries| == 1 && r.states[i].entries[0].row.allowed == Some(false)
    ensures |r.Last().entries| == 1 && r.Last().entries[0].row.allowed == Some(true)
  {
    var hash := seq(64, _ => 'a');
    r, i := UntilStored(cfg, hash);
    var e := r.Last().entries[0];
    CleanIsAccepted();
    r := JobAdvances(cfg, r, Committed, ScannedJob(cfg, hash).(pc := Tidy(false), decided := true),
      e.(row := e.row.(status := CLEAN, allowed := Some(true), threat := None, policyApplied := Some(AllMustPass))));
  }

  lemma CleanIsAccepted()
    ensures Aggregate(RawOutcomes(RAW), AllMustPass) == ACCEPTED
  {
    var rs := [ScannerOutcome("ClamAV", Clean, None)];
    assert RawOutcomes(RAW) == rs;
    assert rs[1..] == [];
  }

  // Verdicts are final in every timely run if and only if the maximum staging
  // lifetime covers the two playbook timeouts and the local budget. The thread
  // pool refuses a concurrency of zero, the settings an empty map of hosts.
  lemma FinalityIffLifetimeCoversBudget(cfg: Config)
    requires cfg.concurrency > 0 && cfg.hosts != map[]
    ensures (forall r: Run :: r.Valid(cfg) && Timely(cfg, r) ==> VerdictsFinal(r)) <==> LifetimeCoversBudget(cfg)
  {
    if LifetimeCoversBudget(cfg) {
      forall r: Run | r.Valid(cfg) && Timely(cfg, r) ensures VerdictsFinal(r) {
        VerdictsAreFinalInTime(cfg, r);
      }
    } else {
      var r, i := SweepOverruled(cfg);
      assert !RowFinal(r.states[i].entries[0], r.states[|r.states| - 1].entries[0]);
      assert !VerdictsFinal(r);
    }
  }
}
