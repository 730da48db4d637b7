// A run in which the deletion takes a file that nobody has looked at, because the
// host changed between the re-check and the removal.
module DeletionWitness {
  import opened Wrappers
  import opened Policy
  import opened ScanTable
  import opened ScanPlaybook
  import opened Protocol
  import opened Finality
  import opened FinalityWitness
  import opened SourceDeletion

  const FOUND := [RawResult("ClamAV", "clamav", Text(Infected), Some("Eicar"))]
  const EVIDENCE := [StoredResult(Some(0), ScannerOutcome("ClamAV", Infected, Some("Eicar")))]

  ghost function Root(cfg: Config): string
    requires cfg.hosts != map[]
  {
    cfg.hosts[SomeFile(cfg).host]
  }

  ghost function Source(cfg: Config): string
    requires cfg.hosts != map[]
  {
    Root(cfg) + "/a.pdf"
  }

  function Scanner(cfg: Config, hash: string, pc: Pc): Thread {
    JobAt(cfg, hash, pc, cfg.fetchTimeout, cfg.scanTimeout)
  }

  ghost function ExaminedEntry(cfg: Config, hash: string): Entry
    requires cfg.hosts != map[]
  {
    Entry(RowAt(cfg, hash, SCANNING, OK).(detail := OK), EVIDENCE, Some([CLAMAV]), Some(hash))
  }

  ghost function RefusedEntry(cfg: Config, hash: string): Entry
    requires cfg.hosts != map[]
  {
    var e := ExaminedEntry(cfg, hash);
    e.(row := e.row.(status := INFECTED, allowed := Some(false), threat := Some("Eicar"),
                     policyApplied := Some(AllMustPass)))
  }

  ghost function RefusedWorld(cfg: Config, hash: string, pc: Pc): State
    requires cfg.concurrency > 0 && cfg.hosts != map[]
  {
    World(cfg, cfg.fetchTimeout + cfg.scanTimeout, RefusedEntry(cfg, hash), Scanner(cfg, hash, pc).(decided := true))
  }

  // The scanner finds something ...
  lemma UntilExamined(cfg: Config, hash: string) returns (r: Run)
    requires cfg.concurrency > 0 && cfg.hosts != map[] && IsSha256(hash)
    ensures r.Valid(cfg) && Timely(cfg, r)
    ensures r.Last() == World(cfg, cfg.fetchTimeout + cfg.scanTimeout, ExaminedEntry(cfg, hash).(results := []),
                              Scanner(cfg, hash, StoreResults(hash, FOUND)))
  {
    r := UntilScanning(cfg, hash);
    var e := ExaminedEntry(cfg, hash);
    r := JobAdvances(cfg, r, Scanned(ScanCompleted(Some(hash), FOUND)), Scanner(cfg, hash, RecordHash(hash, FOUND)),
                     e.(row := e.row.(detail := PENDING), results := []));
    r := JobAdvances(cfg, r, Committed, Scanner(cfg, hash, StoreResults(hash, FOUND)), e.(results := []));
  }

  // ... the row says so ...
  lemma UntilEvidence(cfg: Config, hash: string) returns (r: Run)
    requires cfg.concurrency > 0 && cfg.hosts != map[] && IsSha256(hash)
    ensures r.Valid(cfg) && Timely(cfg, r)
    ensures r.Last() == World(cfg, cfg.fetchTimeout + cfg.scanTimeout, ExaminedEntry(cfg, hash),
                              Scanner(cfg, hash, WriteVerdict(hash, FOUND)))
  {
    r := UntilExamined(cfg, hash);
    StoredEvidence();
    r := JobAdvances(cfg, r, Committed, Scanner(cfg, hash, WriteVerdict(hash, FOUND)), ExaminedEntry(cfg, hash));
  }

  lemma UntilRefused(cfg: Config, hash: string) returns (r: Run)
    requires cfg.concurrency > 0 && cfg.hosts != map[] && IsSha256(hash)
    ensures r.Valid(cfg) && Timely(cfg, r) && r.Last() == RefusedWorld(cfg, hash, LookupDeleteHost(hash))
  {
    r := UntilEvidence(cfg, hash);
    StoredEvidence();
    r := JobAdvances(cfg, r, Committed, Scanner(cfg, hash, LookupDeleteHost(hash)).(decided := true),
                     RefusedEntry(cfg, hash));
  }

  lemma StoredEvidence()
    ensures [] + Stored(FOUND, [CLAMAV]) == EVIDENCE
    ensures Aggregate(RawOutcomes(FOUND), AllMustPass) == Decision(INFECTED, false, Some("Eicar"))
  {
    assert [CLAMAV][|[CLAMAV]| - 1] == CLAMAV;
    assert RawOutcomes(FOUND) == [ScannerOutcome("ClamAV", Infected, Some("Eicar"))];
  }

  // ... the source's path is under the root ...
  lemma UntilLookedUp(cfg: Config, hash: string) returns (r: Run)
    requires cfg.concurrency > 0 && cfg.hosts != map[] && IsSha256(hash)
    ensures r.Valid(cfg) && Timely(cfg, r) && r.Last() == RefusedWorld(cfg, hash, DeleteResolve(Root(cfg), hash))
  {
    r := UntilRefused(cfg, hash);
    r := JobAdvances(cfg, r, Host(Some(Root(cfg))),
                     Scanner(cfg, hash, DeleteResolve(Root(cfg), hash)).(decided := true), RefusedEntry(cfg, hash));
  }

  lemma UntilResolved(cfg: Config, hash: string) returns (r: Run)
    requires cfg.concurrency > 0 && cfg.hosts != map[] && IsSha256(hash)
    ensures r.Valid(cfg) && Timely(cfg, r)
    ensures r.Last() == RefusedWorld(cfg, hash, DeleteStat(Root(cfg), hash, Source(cfg)))
  {
    r := UntilLookedUp(cfg, hash);
    r := JobAdvances(cfg, r, Realpath(Some(Source(cfg))),
                     Scanner(cfg, hash, DeleteStat(Root(cfg), hash, Source(cfg))).(decided := true),
                     RefusedEntry(cfg, hash));
  }

  ghost function Files(cfg: Config, content: string): map<(string, string), string>
    requires cfg.hosts != map[]
  {
    map[(SomeFile(cfg).host, Source(cfg)) := content]
  }

  lemma UntilPlaced(cfg: Config, hash: string) returns (r: Run)
    requires cfg.concurrency > 0 && cfg.hosts != map[] && IsSha256(hash)
    ensures r.Valid(cfg) && Timely(cfg, r)
    ensures r.Last() == RefusedWorld(cfg, hash, DeleteStat(Root(cfg), hash, Source(cfg))).(remote := Files(cfg, hash))
  {
    r := UntilResolved(cfg, hash);
    assert TimelyState(cfg, r.Last());
    r := Extend(cfg, r, RemoteChange(Files(cfg, hash)));
  }

  // ... and its content is what was scanned ...
  lemma UntilChecked(cfg: Config, hash: string) returns (r: Run)
    requires cfg.concurrency > 0 && cfg.hosts != map[] && IsSha256(hash)
    ensures r.Valid(cfg) && Timely(cfg, r)
    ensures r.Last() == RefusedWorld(cfg, hash, DeleteRemove(Root(cfg), hash, Source(cfg))).(remote := Files(cfg, hash))
  {
    r := UntilPlaced(cfg, hash);
    r := JobAdvances(cfg, r, Stat(Some(hash)),
                     Scanner(cfg, hash, DeleteRemove(Root(cfg), hash, Source(cfg))).(decided := true),
                     RefusedEntry(cfg, hash));
  }

  lemma TwoMore(cfg: Config, r: Run, change: Step, removal: Step, key: (string, string), content: string)
    returns (r': Run)
    requires r.Valid(cfg) && Timely(cfg, r) && LosesUnchecked(cfg, r.Last(), 0, change, removal, key, content)
    requires removal.answer.Removal? && removal.answer.reported
    ensures r'.Valid(cfg) && Timely(cfg, r') && r'.steps == r.steps + [change, removal] && r.states <= r'.states
  {
    assert TimelyState(cfg, r.Last());
    r' := Extend(cfg, r, change);
    RemovalInTime(cfg, r'.Last(), removal);
    r' := Extend(cfg, r', removal);
  }

  lemma RemovalInTime(cfg: Config, s: State, removal: Step)
    requires TimelyState(cfg, s) && Enabled(cfg, s, removal) && removal.Advance? && removal.answer.Removal?
    ensures TimelyState(cfg, Apply(cfg, s, removal))
  {}

  // ... and it is replaced before the removal. For every configuration there is a
  // run, within all its time limits, in which content that nobody hashed is deleted
  // from the host.
  lemma ReplacementIsDeleted(cfg: Config, hash: string, content: string) returns (r: Run)
    requires cfg.concurrency > 0 && cfg.hosts != map[] && IsSha256(hash) && content != hash
    ensures r.Valid(cfg) && Timely(cfg, r) && |r.steps| >= 2
    ensures var k := |r.steps| - 2;
      && ChecksOut(r.states[k], 0) && r.states[k].threads[Job(0)].pc.hash == hash
      && LosesUnchecked(cfg, r.states[k], 0, r.steps[k], r.steps[k + 1], (SomeFile(cfg).host, Source(cfg)), content)
  {
    r := UntilChecked(cfg, hash);
    ReplacedFileGoes(cfg, r.Last(), 0, content);
    r := TwoMore(cfg, r, RemoteChange(r.Last().remote[(SomeFile(cfg).host, Source(cfg)) := content]),
                 Advance(Job(0), Removal(true, {Source(cfg)})), (SomeFile(cfg).host, Source(cfg)), content);
  }
}
