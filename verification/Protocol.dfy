// The scan-job protocol: worker processes, job threads, stale sweeps, the API
// and the outside world interleaving over one table (api/scanner.py,
// api/worker.py, api/db.py). One step is one statement, one external call or
// one change of the environment; every choice a step makes is in its label.
module Protocol {
  import opened Wrappers
  import opened Policy
  import opened ScanTable
  import opened ScanPlaybook

  datatype Config = Config(
    concurrency: nat,        // worker_concurrency
    lifetime: nat,           // staging_max_lifetime_seconds
    fetchTimeout: nat,       // ansible_fetch_timeout
    scanTimeout: nat,        // ansible_timeout
    localBudget: nat,        // assumed bound on a job's work outside the two playbooks
    retainInfected: bool,    // retain_infected_copy
    hosts: map<string, string>)    // nextcloud_hosts_map: host -> allowed_root

  // ---------------------------------------------------------------------------
  // One thread of control over one row
  // ---------------------------------------------------------------------------

  datatype Detection = Detection(encrypted: Option<bool>, category: string)

  // Where process_scan, force_fail_stale or _process_one's handler stands. A
  // name starting with Read, Resolve or Lookup is a question; Mark, Record,
  // Write, Store, Reject, Fail, Note and Overlay are pending statements.
  datatype Pc =
    | ResolveProfile
    | ReadScanners
    | MarkTransferring
    | LookupFetchHost
    | FetchPlaybook
    | MarkTransferOk
    | Detect
    | RecordEncryption(detection: Detection)
    | ReadPolicies(category: string)
    | WriteEncrypted(encryptedPolicy: EncryptedPolicy)
    | MarkScanning
    | RunScanPlaybook
    | RecordHash(actual: string, raw: seq<RawResult>)
    | StoreResults(actual: string, raw: seq<RawResult>)
    | WriteVerdict(actual: string, raw: seq<RawResult>)
    | Reject(transfer: Option<SubStatus>, detail: SubStatus)
    | Fail(thenTidy: bool)
    | LookupDeleteHost(hash: string)
    | DeleteResolve(root: string, hash: string)
    | DeleteStat(root: string, hash: string, canonical: string)
    | DeleteRemove(root: string, hash: string, canonical: string)
    | NoteDeletion
    | Tidy(quarantine: bool)
    | MarkTidy(ok: bool)
    | ReadForOverlay
    | Overlay
    | RecordCrash
    | Finished

  datatype Thread = Thread(
    target: nat,
    worker: nat,
    sweeping: bool,
    pc: Pc,
    expected: string,            // scan["sha256"] as claimed
    mode: TransferMode,
    policy: AggregationPolicy,
    scanners: seq<ScannerConfig>,
    decided: bool,               // the thread saw its own terminal write commit
    fetchUsed: nat,
    scanUsed: nat,
    localUsed: nat)

  // A table row with its scan_results. The last two fields are history: the
  // scanners read at job start and the hash the scan playbook reported.
  datatype Entry = Entry(
    row: Row,
    results: seq<StoredResult>,
    readAtStart: Option<seq<ScannerConfig>>,
    hashedAtScan: Option<string>)

  datatype FetchOutcome =
    | FetchUnavailable
    | FetchRejected
    | FetchCompleted(actual: Option<string>)

  // What the world tells a thread. Committed and Raised end a statement; a
  // raised statement may have reached the table all the same.
  datatype Answer =
    | Committed
    | Raised(applied: bool)
    | Profile(found: Option<AggregationPolicy>)
    | Scanners(enabled: seq<ScannerConfig>)
    | Host(allowedRoot: Option<string>)
    | Fetched(fetch: FetchOutcome)
    | DetectedAs(result: Option<Detection>)
    | Policies(table: map<string, EncryptedPolicy>)
    | Scanned(scan: ScanOutcome)
    | Unavailable
    | Realpath(path: Option<string>)
    | Stat(content: Option<string>)
    | Removal(reported: bool, gone: set<string>)
    | Tidied(tidy: bool)
    | StatusRead(status: Status)

  const FAILED_SCAN := Update(status := Some(ERROR), allowed := Some(false))

  function VerdictUpdate(d: Decision, policy: AggregationPolicy): Update {
    Update(status := Some(d.status), allowed := Some(d.allowed), threat := Some(d.threat),
           policyApplied := Some(policy))
  }

  function EncryptedUpdate(p: EncryptedPolicy): Update {
    var d := ApplyEncrypted(p);
    Update(status := Some(ENCRYPTED), allowed := Some(d.allowed), needsReview := Some(d.needsReview),
           encryptedPolicyApplied := Some(p))
  }

  // The SET clause of the update_scan call a thread is about to make.
  function PendingUpdate(t: Thread): Option<Update> {
    match t.pc
    case MarkTransferring => Some(Update(status := Some(TRANSFERRING), transfer := Some(PENDING)))
    case MarkTransferOk => Some(Update(transfer := Some(OK)))
    case RecordEncryption(d) => Some(Update(encrypted := Some(d.encrypted)))
    case WriteEncrypted(p) => Some(EncryptedUpdate(p))
    case MarkScanning => Some(Update(status := Some(SCANNING)))
    case RecordHash(actual, _) => Some(Update(detail := Some(OK), sha256 := Some(actual)))
    case WriteVerdict(_, raw) => Some(VerdictUpdate(Aggregate(RawOutcomes(raw), t.policy), t.policy))
    case Reject(transfer, detail) => Some(Update(transfer := transfer, detail := Some(detail)))
    case Fail(_) => Some(FAILED_SCAN)
    case NoteDeletion => Some(Update())
    case MarkTidy(ok) => Some(Update(cleanup := Some(if ok then OK else FAILED)))
    case Overlay => Some(Update(status := Some(CLEANUP_FAILED)))
    case RecordCrash => Some(FAILED_SCAN)
    case _ => None
  }

  // The scanner that a result is stored under: of several with its slug the last.
  function IdFor(scanners: seq<ScannerConfig>, slug: string): Option<nat> {
    if scanners == [] then None
    else if scanners[|scanners| - 1].slug == slug then Some(scanners[|scanners| - 1].id)
    else IdFor(scanners[..|scanners| - 1], slug)
  }

  ghost predicate LastWith(scanners: seq<ScannerConfig>, slug: string, k: int) {
    0 <= k < |scanners| && scanners[k].slug == slug && forall i :: k < i < |scanners| ==> scanners[i].slug != slug
  }

  lemma {:induction false} IdForIsLast(scanners: seq<ScannerConfig>, slug: string)
    ensures IdFor(scanners, slug) == None <==> forall i :: 0 <= i < |scanners| ==> scanners[i].slug != slug
    ensures forall k :: LastWith(scanners, slug, k) ==> IdFor(scanners, slug) == Some(scanners[k].id)
  {
    if scanners == [] {
    } else {
      var front := scanners[..|scanners| - 1];
      IdForIsLast(front, slug);
      assert forall i :: 0 <= i < |front| ==> front[i] == scanners[i];
    }
  }

  function Stored(raw: seq<RawResult>, scanners: seq<ScannerConfig>): (r: seq<StoredResult>)
    ensures |r| == |raw|
    ensures forall i :: 0 <= i < |raw| ==> r[i] == StoredResult(IdFor(scanners, raw[i].slug), OutcomeOf(raw[i]))
  {
    seq(|raw|, i requires 0 <= i < |raw| => StoredResult(IdFor(scanners, raw[i].slug), OutcomeOf(raw[i])))
  }

  predicate IsStatement(pc: Pc) {
    pc.StoreResults? || pc.MarkTransferring? || pc.MarkTransferOk? || pc.RecordEncryption? || pc.WriteEncrypted?
    || pc.MarkScanning? || pc.RecordHash? || pc.WriteVerdict? || pc.Reject? || pc.Fail? || pc.NoteDeletion?
    || pc.MarkTidy? || pc.Overlay? || pc.RecordCrash?
  }

  // The constraints that a statement can meet: the sha256 format and the domain
  // of scan_results.status.
  predicate CanCommit(t: Thread) {
    && IsStatement(t.pc)
    && (t.pc.StoreResults? ==> ResultsAdmitted(Stored(t.pc.raw, t.scanners)))
    && (t.pc.RecordHash? ==> IsSha256(t.pc.actual))
  }

  function Effect(t: Thread, e: Entry): Entry
    requires IsStatement(t.pc)
  {
    if t.pc.StoreResults? then e.(results := e.results + Stored(t.pc.raw, t.scanners))
    else e.(row := Written(e.row, PendingUpdate(t).value))
  }

  function AfterCommit(cfg: Config, t: Thread): Pc
    requires IsStatement(t.pc)
  {
    match t.pc
    case MarkTransferring => if t.mode.AnsibleFetch? then LookupFetchHost else MarkTransferOk
    case MarkTransferOk => Detect
    case RecordEncryption(d) => if d.encrypted != Some(false) then ReadPolicies(d.category) else MarkScanning
    case WriteEncrypted(p) => Tidy(ApplyEncrypted(p).quarantine)
    case MarkScanning => RunScanPlaybook
    case RecordHash(actual, raw) => StoreResults(actual, raw)
    case StoreResults(actual, raw) => WriteVerdict(actual, raw)
    case WriteVerdict(actual, raw) =>
      if Aggregate(RawOutcomes(raw), t.policy).status != INFECTED then Tidy(false)
      else if t.mode.AnsibleFetch? then LookupDeleteHost(actual)
      else Tidy(cfg.retainInfected)
    case Reject(_, _) => Fail(true)
    case Fail(thenTidy) => if thenTidy then Tidy(false) else Finished
    case NoteDeletion => Tidy(cfg.retainInfected)
    case MarkTidy(ok) => if ok then Finished else ReadForOverlay
    case Overlay => Finished
    case RecordCrash => Finished
  }

  predicate IsTerminalWrite(pc: Pc) {
    pc.Fail? || pc.WriteEncrypted? || pc.WriteVerdict?
  }

  // The playbooks' prefix pattern: the root itself, or something below it.
  predicate UnderRoot(canonical: string, root: string) {
    canonical == root || root + "/" <= canonical
  }

  // The statuses that a failed cleanup overlays.
  predicate OverlayApplies(st: Status) {
    st == CLEAN || st == INFECTED || st == ERROR || st == ENCRYPTED
  }

  predicate UniqueSlugs(scanners: seq<ScannerConfig>) {
    forall i, j :: 0 <= i < j < |scanners| ==> scanners[i].slug != scanners[j].slug
  }

  predicate HashAccepted(actual: Option<string>, expected: string) {
    actual.Some? && actual.value != "" && Lower(actual.value) == Lower(expected)
  }

  // Which answers a thread can get where it stands.
  predicate AnswerFits(t: Thread, e: Entry, a: Answer) {
    match a
    case Committed => CanCommit(t)
    case Raised(applied) => !t.pc.Finished? && (applied ==> CanCommit(t))
    case Profile(_) => t.pc.ResolveProfile?
    case Scanners(enabled) => t.pc.ReadScanners? && UniqueSlugs(enabled)
    case Host(_) => t.pc.LookupFetchHost? || t.pc.LookupDeleteHost?
    case Fetched(_) => t.pc.FetchPlaybook?
    case DetectedAs(_) => t.pc.Detect?
    case Policies(_) => t.pc.ReadPolicies?
    case Scanned(o) => t.pc.RunScanPlaybook? && (o.ScanCompleted? ==> Aligned(t.scanners, o.raw))
    case Unavailable => t.pc.DeleteResolve? || t.pc.DeleteStat?
    case Realpath(_) => t.pc.DeleteResolve?
    case Stat(_) => t.pc.DeleteStat?
    case Removal(_, _) => t.pc.DeleteRemove?
    case Tidied(_) => t.pc.Tidy?
    case StatusRead(st) => t.pc.ReadForOverlay? && st == e.row.status
  }

  // Where a thread goes after the answer to a question.
  function AfterAnswer(cfg: Config, t: Thread, a: Answer): Pc {
    match a
    case Profile(found) => if found.None? then Fail(false) else ReadScanners
    case Scanners(enabled) => if enabled == [] then Fail(false) else MarkTransferring
    case Host(root) =>
      if t.pc.LookupDeleteHost? then
        if root.None? then Tidy(cfg.retainInfected) else DeleteResolve(root.value, t.pc.hash)
      else if root.None? then Reject(Some(FAILED), SKIPPED) else FetchPlaybook
    case Fetched(o) =>
      if !o.FetchCompleted? then Reject(Some(FAILED), SKIPPED)
      else if !HashAccepted(o.actual, t.expected) then Reject(Some(OK), SKIPPED)
      else MarkTransferOk
    case DetectedAs(d) => if d.None? then MarkScanning else RecordEncryption(d.value)
    case Policies(table) => if t.pc.ReadPolicies? then WriteEncrypted(ResolveEncrypted(t.pc.category, table)) else t.pc
    case Scanned(o) =>
      if !o.ScanCompleted? || !HashAccepted(o.actual, t.expected) then Reject(None, FAILED)
      else RecordHash(o.actual.value, o.raw)
    case Unavailable => NoteDeletion
    case Realpath(path) =>
      if path.None? then Tidy(cfg.retainInfected)
      else if t.pc.DeleteResolve? && UnderRoot(path.value, t.pc.root) then DeleteStat(t.pc.root, t.pc.hash, path.value)
      else NoteDeletion
    case Stat(content) =>
      if t.pc.DeleteStat? && content == Some(t.pc.hash) then DeleteRemove(t.pc.root, t.pc.hash, t.pc.canonical)
      else NoteDeletion
    case Removal(reported, _) => if reported then Tidy(cfg.retainInfected) else NoteDeletion
    case Tidied(ok) => MarkTidy(ok)
    case StatusRead(st) => if OverlayApplies(st) then Overlay else Finished
    case Committed => t.pc
    case Raised(_) => t.pc
  }

  function Advanced(cfg: Config, t: Thread, e: Entry, a: Answer): (Thread, Entry)
    requires a.Committed? || (a.Raised? && a.applied) ==> IsStatement(t.pc)
  {
    match a
    case Committed =>
      (t.(pc := AfterCommit(cfg, t), decided := t.decided || IsTerminalWrite(t.pc)), Effect(t, e))
    case Raised(applied) =>
      (t.(pc := if t.sweeping || t.pc.RecordCrash? then Finished else RecordCrash),
       if applied then Effect(t, e) else e)
    case Profile(found) => (t.(pc := AfterAnswer(cfg, t, a), policy := found.GetOr(t.policy)), e)
    case Scanners(enabled) =>
      (t.(pc := AfterAnswer(cfg, t, a), scanners := enabled), e.(readAtStart := Some(enabled)))
    case Scanned(o) =>
      (t.(pc := AfterAnswer(cfg, t, a)), if o.ScanCompleted? then e.(hashedAtScan := o.actual) else e)
    case _ => (t.(pc := AfterAnswer(cfg, t, a)), e)
  }

  // ---------------------------------------------------------------------------
  // The whole system
  // ---------------------------------------------------------------------------

  datatype Actor = Job(id: nat) | Sweep(worker: nat)

  // A claim statement that holds a row lock and has not committed.
  datatype Claim = Claim(id: nat, since: int)

  datatype Worker = Worker(
    inFlight: set<nat>,       // in_flight
    budget: nat,              // claims left in the current pass of the loop
    claim: Option<Claim>,
    queue: seq<nat>,          // stale rows the current sweep has still to handle
    cleanPass: bool)          // no statement of the current sweep raised

  // A re-scan request that has read the original row and not yet inserted.
  datatype Rescan = Rescan(parent: nat, original: Row)

  datatype State = State(
    clock: int,
    entries: seq<Entry>,
    threads: map<Actor, Thread>,
    workers: map<nat, Worker>,
    rescans: map<nat, Rescan>,
    remote: map<(string, string), string>)   // (host, canonical path) -> content hash

  datatype Step =
    | Tick(seconds: nat)
    | RemoteChange(remote: map<(string, string), string>)
    | ScannerDeleted(scanner: nat)
    | Submit(file: FileRef, mode: TransferMode, sha256: string)
    | RescanRead(panel: nat, id: nat)
    | RescanInsert(panel: nat)
    | WorkerStart(w: nat)
    | WorkerCrash(w: nat)
    | Harvest(w: nat, kept: set<nat>)
    | ClaimLock(w: nat, id: nat)
    | ClaimBreak(w: nat)
    | ClaimCommit(w: nat)
    | ClaimLost(w: nat, committed: bool)
    | SweepQuery(w: nat, found: seq<nat>)
    | SweepNext(w: nat)
    | Advance(actor: Actor, answer: Answer)
    | Retire(actor: Actor)

  predicate Locked(s: State, id: nat) {
    exists w :: w in s.workers && s.workers[w].claim.Some? && s.workers[w].claim.value.id == id
  }

  predicate Sweeping(s: State, w: nat)
    requires w in s.workers
  {
    s.workers[w].queue != [] || Sweep(w) in s.threads
  }

  // The worker's main thread is at the top of its loop, between statements.
  predicate Free(s: State, w: nat) {
    w in s.workers && s.workers[w].claim.None? && !Sweeping(s, w)
  }

  function LiveJobs(s: State, w: nat): set<nat> {
    set a | a in s.threads && a.Job? && s.threads[a].worker == w :: a.id
  }

  predicate Claimable(s: State, id: nat) {
    id < |s.entries| && s.entries[id].row.status == RECEIVED && !Locked(s, id)
  }

  predicate StaleNow(cfg: Config, s: State, id: nat) {
    id < |s.entries| && Stale(s.entries[id].row, s.clock, cfg.lifetime)
  }

  // A path names a file or a directory, never both.
  predicate TreeLike(remote: map<(string, string), string>) {
    forall k, l :: k in remote && l in remote && k.0 == l.0 && UnderRoot(k.1, l.1) ==> k == l
  }

  function HostOf(s: State, t: Thread): string
    requires t.target < |s.entries|
  {
    s.entries[t.target].row.file.host
  }

  // The root that the configuration gives to a host.
  function ConfiguredRoot(cfg: Config, host: string): Option<string> {
    if host in cfg.hosts then Some(cfg.hosts[host]) else None
  }

  // Answers that repeat what is there: the configured root, the content that the
  // path has on the host, the paths that are gone. Removing a directory takes
  // what is in it, and a removal that fails may have taken a part.
  predicate Truthful(cfg: Config, s: State, t: Thread, a: Answer)
    requires t.target < |s.entries|
  {
    var host := HostOf(s, t);
    match a
    case Host(root) => root == ConfiguredRoot(cfg, host)
    case Stat(content) =>
      t.pc.DeleteStat? ==>
        content == if (host, t.pc.canonical) in s.remote then Some(s.remote[(host, t.pc.canonical)]) else None
    case Removal(reported, gone) =>
      t.pc.DeleteRemove? ==>
        (forall p :: p in gone ==> UnderRoot(p, t.pc.canonical))
        && (reported ==> forall k :: k in s.remote && k.0 == host && UnderRoot(k.1, t.pc.canonical) ==> k.1 in gone)
    case _ => true
  }

  predicate Enabled(cfg: Config, s: State, step: Step) {
    match step
    case Tick(_) => true
    case RemoteChange(remote) => TreeLike(remote)
    case ScannerDeleted(_) => true
    case Submit(_, _, sha256) => IsSha256(sha256)
    case RescanRead(_, id) => id < |s.entries|
    case RescanInsert(panel) => panel in s.rescans && IsSha256(s.rescans[panel].original.sha256)
    case WorkerStart(w) => w !in s.workers
    case WorkerCrash(w) => w in s.workers
    case Harvest(w, kept) => Free(s, w) && LiveJobs(s, w) <= kept <= s.workers[w].inFlight
    case ClaimLock(w, id) =>
      && Free(s, w) && s.workers[w].budget > 0
      && Claimable(s, id)
      && forall j :: 0 <= j < |s.entries| && Claimable(s, j) ==>
        s.entries[id].row.createdAt <= s.entries[j].row.createdAt
    case ClaimBreak(w) => Free(s, w)
    case ClaimCommit(w) => Claiming(s, w) && s.workers[w].budget > 0
    case ClaimLost(w, _) => Claiming(s, w)
    case SweepQuery(w, found) =>
      && Free(s, w)
      && (forall i, j :: 0 <= i < j < |found| ==> found[i] != found[j])
      && (forall id :: id in found ==> StaleNow(cfg, s, id))
      && (forall id :: 0 <= id < |s.entries| && StaleNow(cfg, s, id) ==> id in found)
    case SweepNext(w) => SweepWaiting(s, w)
    case Advance(actor, a) =>
      && actor in s.threads && s.threads[actor].target < |s.entries|
      && (actor.Sweep? ==> actor.worker in s.workers)
      && var t := s.threads[actor];
      && AnswerFits(t, s.entries[t.target], a) && Truthful(cfg, s, t, a)
    case Retire(actor) => actor in s.threads && s.threads[actor].pc.Finished?
  }

  function Charged(t: Thread, seconds: nat): Thread {
    if t.pc.FetchPlaybook? then t.(fetchUsed := t.fetchUsed + seconds)
    else if t.pc.RunScanPlaybook? then t.(scanUsed := t.scanUsed + seconds)
    else t.(localUsed := t.localUsed + seconds)
  }

  function AllCharged(ts: map<Actor, Thread>, seconds: nat): map<Actor, Thread> {
    map a | a in ts :: Charged(ts[a], seconds)
  }

  function Claimed(e: Entry, since: int): Entry {
    e.(row := e.row.(status := VALIDATING, startedAt := Some(since)))
  }

  function NewJob(e: Entry, id: nat, w: nat, waited: nat): Thread {
    Thread(id, w, false, ResolveProfile, e.row.sha256, e.row.mode, OtherPolicy(""), [], false, 0, 0, waited)
  }

  function NewSweep(e: Entry, id: nat, w: nat): Thread {
    Thread(id, w, true, Fail(true), e.row.sha256, e.row.mode, OtherPolicy(""), [], false, 0, 0, 0)
  }

  function Inserted(row: Row): Entry {
    Entry(row, [], None, None)
  }

  function RescanRow(r: Rescan, now: int): Row {
    NewRow(r.original.file, r.original.mode, Some(r.parent), now, r.original.sha256)
  }

  function Gone(s: State, t: Thread, a: Answer): set<(string, string)>
    requires t.target < |s.entries|
  {
    if a.Removal? then set p | p in a.gone :: (HostOf(s, t), p) else {}
  }

  // One thread moves: its row, its own state, the sweep's error flag and the
  // remote files change together.
  function Moved(s: State, actor: Actor, t: Thread, e: Entry, raised: bool, gone: set<(string, string)>): State
    requires actor in s.threads && s.threads[actor].target < |s.entries|
    requires actor.Sweep? ==> actor.worker in s.workers
  {
    s.(entries := s.entries[s.threads[actor].target := e],
       threads := s.threads[actor := t],
       workers := if actor.Sweep? && raised
                  then s.workers[actor.worker := s.workers[actor.worker].(cleanPass := false)]
                  else s.workers,
       remote := s.remote - gone)
  }

  predicate Claiming(s: State, w: nat) {
    w in s.workers && s.workers[w].claim.Some? && s.workers[w].claim.value.id < |s.entries|
  }

  // claim_next_scan returns the row and the pool starts its thread.
  function CommitClaim(s: State, w: nat): State
    requires Claiming(s, w) && s.workers[w].budget > 0
  {
    var k := s.workers[w];
    var c := k.claim.value;
    var e := Claimed(s.entries[c.id], c.since);
    s.(entries := s.entries[c.id := e],
       threads := s.threads[Job(c.id) := NewJob(e, c.id, w, if c.since <= s.clock then s.clock - c.since else 0)],
       workers := s.workers[w := k.(claim := None, inFlight := k.inFlight + {c.id}, budget := k.budget - 1)])
  }

  // claim_next_scan raises; the claim may have reached the table all the same.
  function LoseClaim(s: State, w: nat, committed: bool): State
    requires Claiming(s, w)
  {
    var k := s.workers[w];
    var c := k.claim.value;
    s.(entries := if committed then s.entries[c.id := Claimed(s.entries[c.id], c.since)] else s.entries,
       workers := s.workers[w := k.(claim := None, budget := 0)])
  }

  predicate SweepWaiting(s: State, w: nat) {
    w in s.workers && s.workers[w].queue != [] && Sweep(w) !in s.threads && s.workers[w].queue[0] < |s.entries|
  }

  function NextStale(s: State, w: nat): State
    requires SweepWaiting(s, w)
  {
    var k := s.workers[w];
    var id := k.queue[0];
    s.(threads := s.threads[Sweep(w) := NewSweep(s.entries[id], id, w)],
       workers := s.workers[w := k.(queue := k.queue[1..])])
  }

  function Apply(cfg: Config, s: State, step: Step): State
    requires Enabled(cfg, s, step)
  {
    match step
    case Tick(seconds) =>
      s.(clock := s.clock + seconds, threads := AllCharged(s.threads, seconds))
    case RemoteChange(remote) => s.(remote := remote)
    case ScannerDeleted(scanner) =>
      s.(entries := seq(|s.entries|, i requires 0 <= i < |s.entries| =>
           s.entries[i].(results := Forget(s.entries[i].results, scanner))))
    case Submit(file, mode, sha256) =>
      s.(entries := s.entries + [Inserted(NewRow(file, mode, None, s.clock, sha256))])
    case RescanRead(panel, id) =>
      s.(rescans := s.rescans[panel := Rescan(id, s.entries[id].row)])
    case RescanInsert(panel) =>
      s.(entries := s.entries + [Inserted(RescanRow(s.rescans[panel], s.clock))], rescans := s.rescans - {panel})
    case WorkerStart(w) => s.(workers := s.workers[w := Worker({}, 0, None, [], true)])
    case WorkerCrash(w) =>
      s.(workers := s.workers - {w},
         threads := map a | a in s.threads && s.threads[a].worker != w :: s.threads[a])
    case Harvest(w, kept) =>
      s.(workers := s.workers[w := s.workers[w].(
           inFlight := kept,
           budget := if |kept| < cfg.concurrency then cfg.concurrency - |kept| else 0)])
    case ClaimLock(w, id) => s.(workers := s.workers[w := s.workers[w].(claim := Some(Claim(id, s.clock)))])
    case ClaimBreak(w) => s.(workers := s.workers[w := s.workers[w].(budget := 0)])
    case ClaimCommit(w) => CommitClaim(s, w)
    case ClaimLost(w, committed) => LoseClaim(s, w, committed)
    case SweepQuery(w, found) =>
      s.(workers := s.workers[w := s.workers[w].(queue := found, cleanPass := true)])
    case SweepNext(w) => NextStale(s, w)
    case Advance(actor, a) =>
      var t := s.threads[actor];
      var (t', e') := Advanced(cfg, t, s.entries[t.target], a);
      Moved(s, actor, t', e', a.Raised?, Gone(s, t, a))
    case Retire(actor) => s.(threads := s.threads - {actor})
  }

  // ---------------------------------------------------------------------------
  // Runs
  // ---------------------------------------------------------------------------

  datatype Run = Run(states: seq<State>, steps: seq<Step>) {
    ghost predicate Valid(cfg: Config) {
      && |states| == |steps| + 1
      && Initial(states[0])
      && forall i :: 0 <= i < |steps| ==> Follows(cfg, i)
    }

    ghost predicate Follows(cfg: Config, i: nat)
      requires |states| == |steps| + 1 && i < |steps|
    {
      Enabled(cfg, states[i], steps[i]) && states[i + 1] == Apply(cfg, states[i], steps[i])
    }

    function Last(): State
      requires |states| > 0
    {
      states[|states| - 1]
    }
  }

  ghost predicate Initial(s: State) {
    s.entries == [] && s.threads == map[] && s.workers == map[] && s.rescans == map[] && TreeLike(s.remote)
  }
}
