// api/scanner.py and the job part of api/worker.py as they are written, statement
// by statement, over a system in which every other actor may move between any two
// calls. Each method goes on with the run it finds, by steps of the protocol only,
// and says which calls its own thread made in the stretch.
module WorkerCode {
  import opened Wrappers
  import opened Policy
  import opened ScanTable
  import opened ScanPlaybook
  import opened Protocol
  import opened RowInvariant
  import opened StepEffects
  import opened CrashRecovery
  import opened Calls

  // ---------------------------------------------------------------------------
  // Which calls the stages make
  // ---------------------------------------------------------------------------

  function Next(cfg: Config, t: Thread): Thread
    requires IsStatement(t.pc)
  {
    t.(pc := AfterCommit(cfg, t), decided := t.decided || IsTerminalWrite(t.pc))
  }

  lemma CommitOutcome(cfg: Config, t: Thread, t': Thread, e: Entry)
    requires SamePoint(t, t') && CanCommit(t)
    ensures AnswerFits(t', e, Committed) && Advanced(cfg, t', e, Committed) == (Next(cfg, t'), Effect(t', e))
    ensures SamePoint(Next(cfg, t), Next(cfg, t')) && Effect(t', e) == Effect(t, e)
    ensures (ThreadOk(t', e) ==> ThreadOk(t, e))
  {}

  lemma RaiseOutcome(cfg: Config, t: Thread, t': Thread, e: Entry, applied: bool)
    requires SamePoint(t, t') && !t.pc.Finished? && (applied ==> CanCommit(t)) && ThreadOk(t', e)
    ensures var a := Answer.Raised(applied); var (t'', e') := Advanced(cfg, t', e, a);
      && AnswerFits(t', e, a) && t''.pc == (if t.sweeping || t.pc.RecordCrash? then Finished else RecordCrash)
      && t''.sweeping == t.sweeping && t''.target == t.target && t''.worker == t.worker
      && e' == (if applied then Effect(t, e) else e) && ThreadOk(t, e)
  {}

  lemma EffectShows(t: Thread, e: Entry)
    requires PendingUpdate(t).Some?
    ensures Shows(Effect(t, e).row, PendingUpdate(t).value)
  {
    WrittenShows(e.row, PendingUpdate(t).value);
  }

  // A job that is about to store its results has none yet.
  lemma StoredOutcome(t: Thread, e: Entry)
    requires t.pc.StoreResults? && !t.sweeping && ThreadOk(t, e)
    ensures e.results == [] && Effect(t, e).results == Stored(t.pc.raw, t.scanners)
  {}

  // The inserts of one transaction, each under the CHECK on its status.
  method InsertAll(rows: seq<StoredResult>) returns (admitted: bool)
    ensures admitted <==> ResultsAdmitted(rows)
  {
    for i := 0 to |rows|
      invariant ResultsAdmitted(rows[..i])
    {
      assert rows[..i + 1] == rows[..i] + [rows[i]];
      if rows[i].outcome.status.Unrecognised? {
        return false;
      }
    }
    assert rows[..|rows|] == rows;
    return true;
  }

  // Removal or move, then the cleanup status; after a failure the status is read
  // and, if it is a terminal one, overlaid.
  predicate IsTidying(cs: seq<Call>, quarantine: bool) {
    cs != [] && cs[0].pc == Tidy(quarantine) && cs[0].answer.Tidied? && IsTidyNote(cs[1..], cs[0].answer.tidy)
  }

  predicate IsTidyNote(cs: seq<Call>, ok: bool) {
    cs != [] && cs[0] == Call(MarkTidy(ok), Committed) && if ok then |cs| == 1 else IsOverlay(cs[1..])
  }

  predicate IsOverlay(cs: seq<Call>) {
    && cs != [] && cs[0].pc.ReadForOverlay? && cs[0].answer.StatusRead?
    && cs[1..] == if cs[0].answer.status in {CLEAN, INFECTED, ERROR, ENCRYPTED} then [Call(Overlay, Committed)] else []
  }

  // The refusal of the row, then the directory.
  predicate IsRefusal(cs: seq<Call>) {
    cs != [] && cs[0] == Call(Pc.Fail(true), Committed) && IsTidying(cs[1..], false)
  }

  predicate IsRejection(cs: seq<Call>, transfer: Option<SubStatus>, detail: SubStatus) {
    cs != [] && cs[0] == Call(Reject(transfer, detail), Committed) && IsRefusal(cs[1..])
  }

  // The playbook, and, if its hash is the expected one, the note that the
  // transfer is done; otherwise the rejection that fits.
  predicate IsTransfer(cs: seq<Call>, accepted: bool, expected: string) {
    && cs != [] && cs[0].pc.FetchPlaybook? && cs[0].answer.Fetched?
    && var o := cs[0].answer.fetch;
    && (accepted <==> o.FetchCompleted? && HashAccepted(o.actual, expected))
    && if accepted then cs[1..] == [Call(MarkTransferOk, Committed)]
       else IsRejection(cs[1..], if o.FetchCompleted? then Some(OK) else Some(FAILED), SKIPPED)
  }

  predicate IsFetched(cs: seq<Call>, expected: string) {
    && cs != [] && cs[0].pc.LookupFetchHost? && cs[0].answer.Host? && cs[0].answer.allowedRoot.Some?
    && IsTransfer(cs[1..], true, expected)
  }

  // An unknown host, a playbook that fails or another hash.
  predicate IsFetchRefused(cs: seq<Call>, expected: string) {
    && cs != [] && cs[0].pc.LookupFetchHost? && cs[0].answer.Host?
    && if cs[0].answer.allowedRoot.None? then IsRejection(cs[1..], Some(FAILED), SKIPPED)
       else IsTransfer(cs[1..], false, expected)
  }

  // The file is not there to be looked at, or is known not to be encrypted.
  predicate IsPlain(cs: seq<Call>) {
    && |cs| >= 1 && cs[0].pc.Detect? && cs[0].answer.DetectedAs?
    && match cs[0].answer.result
       case None => |cs| == 1
       case Some(d) => d.encrypted == Some(false) && cs[1..] == [Call(RecordEncryption(d), Committed)]
  }

  // The decision is written, and the directory kept or deleted as it says.
  predicate IsDecisionKept(cs: seq<Call>, policy: EncryptedPolicy) {
    cs != [] && cs[0] == Call(WriteEncrypted(policy), Committed)
      && IsTidying(cs[1..], ApplyEncrypted(policy).quarantine)
  }

  predicate IsPolicyApplied(cs: seq<Call>, category: string) {
    && cs != [] && cs[0].pc == ReadPolicies(category) && cs[0].answer.Policies?
    && IsDecisionKept(cs[1..], ResolveEncrypted(category, cs[0].answer.table))
  }

  predicate IsPolicyFollowed(cs: seq<Call>, found: Detection) {
    cs != [] && cs[0] == Call(RecordEncryption(found), Committed) && IsPolicyApplied(cs[1..], found.category)
  }

  // The file is encrypted, or it cannot be told.
  predicate IsEncrypted(cs: seq<Call>) {
    && cs != [] && cs[0].pc.Detect? && cs[0].answer.DetectedAs? && cs[0].answer.result.Some?
    && cs[0].answer.result.value.encrypted != Some(false) && IsPolicyFollowed(cs[1..], cs[0].answer.result.value)
  }

  predicate IsRemovalCall(cs: seq<Call>, pc: Pc, reported: bool) {
    |cs| == 1 && cs[0].pc == pc && cs[0].answer.Removal? && cs[0].answer.reported == reported
  }

  // The re-check and, if it finds the hash, the removal.
  predicate IsRemoval(cs: seq<Call>, done: bool, root: string, hash: string, path: string) {
    && cs != [] && cs[0].pc == DeleteStat(root, hash, path)
    && if cs[0].answer == Stat(Some(hash)) then IsRemovalCall(cs[1..], DeleteRemove(root, hash, path), done)
       else |cs| == 1 && !done && (cs[0].answer.Unavailable? || cs[0].answer.Stat?)
  }

  // ALREADY_GONE, or the checks in their order and DELETED.
  predicate IsSourceGone(cs: seq<Call>, root: string, hash: string) {
    && |cs| >= 1 && cs[0].pc == DeleteResolve(root, hash) && cs[0].answer.Realpath?
    && match cs[0].answer.path
       case None => |cs| == 1
       case Some(path) => UnderRoot(path, root) && IsRemoval(cs[1..], true, root, hash, path)
  }

  // The playbook cannot be run, or is stopped by the check that fails.
  predicate IsSourceKept(cs: seq<Call>, root: string, hash: string) {
    && |cs| >= 1 && cs[0].pc == DeleteResolve(root, hash)
    && if cs[0].answer.Unavailable? then |cs| == 1
       else
         && cs[0].answer.Realpath? && cs[0].answer.path.Some?
         && var path := cs[0].answer.path.value;
         && if UnderRoot(path, root) then IsRemoval(cs[1..], false, root, hash, path) else |cs| == 1
  }

  predicate IsDeletion(cs: seq<Call>, root: string, hash: string) {
    || IsSourceGone(cs, root, hash)
    || (cs != [] && IsSourceKept(cs[..|cs| - 1], root, hash) && cs[|cs| - 1] == Call(NoteDeletion, Committed))
  }

  ghost predicate IsDeletedThenTidied(cs: seq<Call>, root: string, hash: string, quarantine: bool) {
    exists d, t :: cs == d + t && IsDeletion(d, root, hash) && IsTidying(t, quarantine)
  }

  // The source of an infected file first, then the directory.
  ghost predicate IsSourceHandled(cs: seq<Call>, hash: string, quarantine: bool) {
    && cs != [] && cs[0].pc == LookupDeleteHost(hash) && cs[0].answer.Host?
    && match cs[0].answer.allowedRoot
       case None => IsTidying(cs[1..], quarantine)
       case Some(root) => IsDeletedThenTidied(cs[1..], root, hash, quarantine)
  }

  ghost predicate IsAftermath(cs: seq<Call>, deletes: bool, hash: string, quarantine: bool) {
    if deletes then IsSourceHandled(cs, hash, quarantine) else IsTidying(cs, quarantine)
  }

  // Hash, results, verdict, each only after the one before it has committed.
  function VerdictCalls(actual: string, raw: seq<RawResult>): seq<Call> {
    [Call(RecordHash(actual, raw), Committed), Call(StoreResults(actual, raw), Committed),
     Call(WriteVerdict(actual, raw), Committed)]
  }

  function VerdictOf(raw: seq<RawResult>, policy: AggregationPolicy): Status {
    Aggregate(RawOutcomes(raw), policy).status
  }

  // Where the job goes from its verdict.
  function AfterVerdict(cfg: Config, t: Thread, status: Status, hash: string): Pc {
    if status != INFECTED then Tidy(false)
    else if t.mode.AnsibleFetch? then LookupDeleteHost(hash)
    else Tidy(cfg.retainInfected)
  }

  ghost predicate IsConclusion(cs: seq<Call>, cfg: Config, mode: TransferMode, policy: AggregationPolicy,
                               actual: string, raw: seq<RawResult>)
  {
    && |cs| >= 3 && cs[..3] == VerdictCalls(actual, raw)
    && var infected := VerdictOf(raw, policy) == INFECTED;
    && IsAftermath(cs[3..], infected && mode.AnsibleFetch?, actual, infected && cfg.retainInfected)
  }

  // The playbook; with the expected hash, the verdict and what comes after it,
  // otherwise the rejection.
  ghost predicate IsExamined(cs: seq<Call>, cfg: Config, t: Thread) {
    && cs != [] && cs[0].pc.RunScanPlaybook? && cs[0].answer.Scanned?
    && var o := cs[0].answer.scan;
    && if o.ScanCompleted? && HashAccepted(o.actual, t.expected)
       then IsConclusion(cs[1..], cfg, t.mode, t.policy, o.actual.value, o.raw)
       else IsRejection(cs[1..], None, FAILED)
  }

  // A job that has ended with its terminal write seen has a decided row.
  lemma EndedIsDecided(cfg: Config, r: Run, a: Actor)
    requires r.Valid(cfg) && a in r.Last().threads && r.Last().threads[a].decided && !r.Last().threads[a].sweeping
    ensures Decided(r.Last(), r.Last().threads[a].target)
  {
    PlacedLast(cfg, r, a);
    DecidedThread(cfg, r, |r.states| - 1, a.id);
  }

  lemma EndedHasSpoken(cfg: Config, before: Run, after: Run, a: Actor)
    requires before.Valid(cfg) && a in before.Last().threads && Went(cfg, before, after, a)
    requires before.Last().threads[a].pc.ResolveProfile? && !before.Last().threads[a].sweeping
    requires after.Last().threads[a].decided
    ensures exists v :: |before.steps| <= v < |after.steps| && SpeaksAt(after, v, before.Last().threads[a].target)
  {
    PlacedLast(cfg, before, a);
    var v := SpeakingStep(cfg, before, after, a.id);
  }

  lemma ErrorIsDecided(cfg: Config, r: Run, a: Actor)
    requires r.Valid(cfg) && a in r.Last().threads && r.Last().threads[a].pc.Finished? && !r.Last().threads[a].sweeping
    requires r.Last().threads[a].target < |r.Last().entries|
    requires r.Last().entries[r.Last().threads[a].target].row.status == ERROR
    ensures Decided(r.Last(), r.Last().threads[a].target)
  {
    PlacedLast(cfg, r, a);
  }

  class System {
    const cfg: Config
    var run: Run           // everything that has happened so far

    constructor (cfg: Config)
      ensures Valid() && this.cfg == cfg
    {
      this.cfg := cfg;
      var start := State(0, [], map[], map[], map[], map[]);
      run := Run([start], []);
    }

    ghost predicate Valid()
      reads this
    {
      run.Valid(cfg)
    }

    function Now(): State
      reads this
      requires Valid()
    {
      run.states[|run.states| - 1]
    }

    ghost predicate Live(a: Actor)
      reads this
    {
      Valid() && a in Now().threads
    }

    function T(a: Actor): Thread
      reads this
      requires Live(a)
    {
      Now().threads[a]
    }

    function EntryOf(a: Actor): (e: Entry)
      reads this
      requires Live(a)
      ensures T(a).target < |Now().entries|
    {
      PlacedLast(cfg, run, a);
      Now().entries[T(a).target]
    }

    // -------------------------------------------------------------------------
    // Single calls
    // -------------------------------------------------------------------------

    method Take(step: Step)
      requires Valid() && Enabled(cfg, Now(), step)
      modifies this
      ensures Valid() && Extends(old(run), run) && run == Grown(cfg, old(run), step)
    {
      GrownIsValid(cfg, run, step);
      run := Run(run.states + [Apply(cfg, Now(), step)], run.steps + [step]);
    }

    // Everyone else moves, any number of times: other threads and workers, the
    // API, the clock, the remote host. Only a crash of the thread's own worker is
    // left out, for then there is no code left to speak of.
    method Others(a: Actor)
      requires Live(a)
      modifies this
      ensures Did(cfg, old(run), run, a, old(T(a)), [])
    {
      Nothing(cfg, run, a);
      var n: nat :| true;
      for i := 0 to n
        invariant Did(cfg, old(run), run, a, old(T(a)), [])
      {
        var step: Step :| true;
        if Enabled(cfg, Now(), step) && IsForeign(step, a, T(a).worker) {
          ghost var mid := run;
          ForeignStep(cfg, run, step, a);
          Take(step);
          WentThen(cfg, old(run), mid, run, a);
        }
      }
    }

    // The thread's own step.
    method Act(a: Actor, answer: Answer)
      requires Live(a) && AnswerFits(T(a), EntryOf(a), answer) && Truthful(cfg, Now(), T(a), answer)
      modifies this
      ensures Did(cfg, old(run), run, a, Advanced(cfg, old(T(a)), old(EntryOf(a)), answer).0,
                  [Call(old(T(a)).pc, answer)])
      ensures EntryOf(a) == Advanced(cfg, old(T(a)), old(EntryOf(a)), answer).1
    {
      PlacedLast(cfg, run, a);
      OwnStep(cfg, run, a, answer);
      Take(Advance(a, answer));
    }

    // Others move, then the thread gets an answer that does not depend on what
    // they did.
    method Answered(a: Actor, answer: Answer)
      requires Live(a) && AnswerFits(T(a), EntryOf(a), answer)
      requires !answer.StatusRead? && !answer.Host? && !answer.Stat? && !answer.Removal?
      modifies this
      ensures Did(cfg, old(run), run, a, Advanced(cfg, old(T(a)), old(EntryOf(a)), answer).0,
                  [Call(old(T(a)).pc, answer)])
    {
      hide Grew, New;
      Others(a);
      SameAnswer(cfg, old(T(a)), old(EntryOf(a)), T(a), EntryOf(a), answer);
      ghost var mid := run;
      Act(a, answer);
      WentThen(cfg, old(run), mid, run, a);
    }

    // Others move, then the pending statement commits.
    method Commits(a: Actor)
      requires Live(a) && CanCommit(T(a))
      modifies this
      ensures Did(cfg, old(run), run, a, Next(cfg, old(T(a))), [Call(old(T(a)).pc, Committed)])
      ensures exists e: Entry :: ThreadOk(old(T(a)), e) && EntryOf(a) == Effect(old(T(a)), e)
    {
      hide Grew, New;
      Others(a);
      ghost var mid, e := run, EntryOf(a);
      PlacedLast(cfg, run, a);
      CommitOutcome(cfg, old(T(a)), T(a), e);
      Act(a, Committed);
      WentThen(cfg, old(run), mid, run, a);
    }

    // A call raises; a statement may have reached the table all the same.
    method Raises(a: Actor, applied: bool)
      requires Live(a) && !T(a).pc.Finished? && (applied ==> CanCommit(T(a)))
      modifies this
      ensures Thrown(cfg, old(run), run, a, old(T(a)))
      ensures New(old(run), run, a) == [Call(old(T(a)).pc, Answer.Raised(applied))]
      ensures exists e: Entry :: ThreadOk(old(T(a)), e) && EntryOf(a) == if applied then Effect(old(T(a)), e) else e
    {
      hide Grew, New;
      Others(a);
      ghost var mid, e := run, EntryOf(a);
      PlacedLast(cfg, run, a);
      RaiseOutcome(cfg, old(T(a)), T(a), e, applied);
      Act(a, Answer.Raised(applied));
      WentThen(cfg, old(run), mid, run, a);
    }

    // db.update_scan: the statement commits, and the row shows it; or it raises,
    // having reached the table or not. What violates the hash format raises.
    method UpdateScan(a: Actor, u: Update) returns (r: Outcome)
      requires Live(a) && PendingUpdate(T(a)) == Some(u)
      modifies this
      ensures r.Returned? ==> Did(cfg, old(run), run, a, Next(cfg, old(T(a))), [Call(old(T(a)).pc, Committed)])
      ensures r.Returned? ==> Shows(EntryOf(a).row, u)
      ensures r.Raised? ==> Thrown(cfg, old(run), run, a, old(T(a)))
      ensures r.Raised? ==> exists applied :: New(old(run), run, a) == [Call(old(T(a)).pc, Answer.Raised(applied))]
      ensures u.sha256.Some? && !IsSha256(u.sha256.value) ==> r.Raised?
    {
      var admitted := !(u.sha256.Some? && !IsSha256(u.sha256.value));
      var applied: bool, heard: bool := *, *;
      if admitted && applied && heard {
        Commits(a);
        ghost var e :| ThreadOk(old(T(a)), e) && EntryOf(a) == Effect(old(T(a)), e);
        EffectShows(old(T(a)), e);
        return Returned;
      }
      Raises(a, admitted && applied);
      return Outcome.Raised;
    }

    // db.create_scan_results, one transaction: when it returns the row has exactly
    // these results, when it raises these or none. A status that the CHECK does
    // not admit raises, and leaves none.
    method CreateScanResults(a: Actor, rows: seq<StoredResult>) returns (r: Outcome)
      requires Live(a) && T(a).pc.StoreResults? && !T(a).sweeping
      requires rows == Stored(T(a).pc.raw, T(a).scanners)
      modifies this
      ensures r.Returned? ==> Did(cfg, old(run), run, a, Next(cfg, old(T(a))), [Call(old(T(a)).pc, Committed)])
      ensures r.Returned? ==> EntryOf(a).results == rows
      ensures r.Raised? ==> Thrown(cfg, old(run), run, a, old(T(a)))
      ensures r.Raised? ==> EntryOf(a).results == [] || EntryOf(a).results == rows
      ensures !ResultsAdmitted(rows) ==> r.Raised? && EntryOf(a).results == []
    {
      var admitted := InsertAll(rows);
      var applied: bool, heard: bool := *, *;
      if admitted && applied && heard {
        Commits(a);
        ghost var e :| ThreadOk(old(T(a)), e) && EntryOf(a) == Effect(old(T(a)), e);
        StoredOutcome(old(T(a)), e);
        return Returned;
      }
      FailsToStore(a, rows, admitted && applied);
      return Outcome.Raised;
    }

    method FailsToStore(a: Actor, rows: seq<StoredResult>, applied: bool)
      requires Live(a) && T(a).pc.StoreResults? && !T(a).sweeping && rows == Stored(T(a).pc.raw, T(a).scanners)
      requires applied ==> ResultsAdmitted(rows)
      modifies this
      ensures Thrown(cfg, old(run), run, a, old(T(a)))
      ensures EntryOf(a).results == if applied then rows else []
    {
      Raises(a, applied);
      ghost var e :| ThreadOk(old(T(a)), e) && EntryOf(a) == if applied then Effect(old(T(a)), e) else e;
      StoredOutcome(old(T(a)), e);
    }

    // _resolve_profile: the pinned profile, else the default, else none.
    method ResolveScanProfile(a: Actor) returns (r: Reply<Option<AggregationPolicy>>)
      requires Live(a) && T(a).pc.ResolveProfile? && !T(a).sweeping
      modifies this
      ensures r.Reply? ==> Did(cfg, old(run), run, a,
        old(T(a)).(pc := if r.value.None? then Pc.Fail(false) else ReadScanners,
                   policy := r.value.GetOr(old(T(a)).policy)),
        [Call(ResolveProfile, Profile(r.value))])
      ensures r.Raise? ==> Thrown(cfg, old(run), run, a, old(T(a)))
    {
      if * {
        Raises(a, false);
        return Raise;
      }
      var found: Option<AggregationPolicy> := *;
      Answered(a, Profile(found));
      r := Reply(found);
    }

    // db.get_profile_scanners
    method GetProfileScanners(a: Actor) returns (r: Reply<seq<ScannerConfig>>)
      requires Live(a) && T(a).pc.ReadScanners? && !T(a).sweeping
      modifies this
      ensures r.Reply? ==> Did(cfg, old(run), run, a,
        old(T(a)).(pc := if r.value == [] then Pc.Fail(false) else MarkTransferring, scanners := r.value),
        [Call(ReadScanners, Scanners(r.value))])
      ensures r.Raise? ==> Thrown(cfg, old(run), run, a, old(T(a)))
    {
      if * {
        Raises(a, false);
        return Raise;
      }
      var enabled: seq<ScannerConfig> :| UniqueSlugs(enabled);
      Answered(a, Scanners(enabled));
      r := Reply(enabled);
    }

    // The configured root of the row's host.
    method HostRoot(a: Actor) returns (r: Reply<Option<string>>)
      requires Live(a) && (T(a).pc.LookupFetchHost? || T(a).pc.LookupDeleteHost?) && !T(a).sweeping
      modifies this
      ensures r.Reply? ==> Did(cfg, old(run), run, a,
        old(T(a)).(pc := AfterAnswer(cfg, old(T(a)), Host(r.value))), [Call(old(T(a)).pc, Host(r.value))])
      ensures r.Reply? ==>
        var host := EntryOf(a).row.file.host; r.value == if host in cfg.hosts then Some(cfg.hosts[host]) else None
      ensures r.Raise? ==> Thrown(cfg, old(run), run, a, old(T(a)))
    {
      hide Grew, New;
      if * {
        Raises(a, false);
        return Raise;
      }
      Others(a);
      ghost var mid := run;
      var root := ConfiguredRoot(cfg, EntryOf(a).row.file.host);
      Act(a, Host(root));
      WentThen(cfg, old(run), mid, run, a);
      r := Reply(root);
    }

    method RunFetchPlaybook(a: Actor) returns (r: Reply<FetchOutcome>)
      requires Live(a) && T(a).pc.FetchPlaybook? && !T(a).sweeping
      modifies this
      ensures r.Reply? ==> Did(cfg, old(run), run, a,
        old(T(a)).(pc := AfterAnswer(cfg, old(T(a)), Fetched(r.value))), [Call(FetchPlaybook, Fetched(r.value))])
      ensures r.Raise? ==> Thrown(cfg, old(run), run, a, old(T(a)))
    {
      if * {
        Raises(a, false);
        return Raise;
      }
      var o: FetchOutcome := *;
      Answered(a, Fetched(o));
      r := Reply(o);
    }

    // Whether the staged file exists, and what the sniffing says of it.
    method DetectEncryption(a: Actor) returns (r: Reply<Option<Detection>>)
      requires Live(a) && T(a).pc.Detect? && !T(a).sweeping
      modifies this
      ensures r.Reply? ==> Did(cfg, old(run), run, a,
        old(T(a)).(pc := if r.value.None? then MarkScanning else RecordEncryption(r.value.value)),
        [Call(Detect, DetectedAs(r.value))])
      ensures r.Raise? ==> Thrown(cfg, old(run), run, a, old(T(a)))
    {
      if * {
        Raises(a, false);
        return Raise;
      }
      var d: Option<Detection> := *;
      Answered(a, DetectedAs(d));
      r := Reply(d);
    }

    method GetEncryptedPolicies(a: Actor) returns (r: Reply<map<string, EncryptedPolicy>>)
      requires Live(a) && T(a).pc.ReadPolicies? && !T(a).sweeping
      modifies this
      ensures r.Reply? ==> Did(cfg, old(run), run, a,
        old(T(a)).(pc := WriteEncrypted(ResolveEncrypted(old(T(a)).pc.category, r.value))),
        [Call(old(T(a)).pc, Policies(r.value))])
      ensures r.Raise? ==> Thrown(cfg, old(run), run, a, old(T(a)))
    {
      if * {
        Raises(a, false);
        return Raise;
      }
      var table: map<string, EncryptedPolicy> := *;
      Answered(a, Policies(table));
      r := Reply(table);
    }

    // The scan playbook answers as Play.Run does: completed results are aligned.
    method RunScanPlaybookFor(a: Actor, scanners: seq<ScannerConfig>) returns (r: Reply<ScanOutcome>)
      requires Live(a) && T(a).pc.RunScanPlaybook? && !T(a).sweeping && scanners == T(a).scanners
      modifies this
      ensures r.Reply? ==> Did(cfg, old(run), run, a,
        old(T(a)).(pc := AfterAnswer(cfg, old(T(a)), Scanned(r.value))), [Call(RunScanPlaybook, Scanned(r.value))])
      ensures r.Raise? ==> Thrown(cfg, old(run), run, a, old(T(a)))
    {
      if * {
        Raises(a, false);
        return Raise;
      }
      var o: ScanOutcome := ScanUnavailable;
      var staged: Option<StagedFile>, expected: string, prepared: bool := *, *, *;
      var runs: seq<ContainerRun> := *;
      if |runs| == |scanners| {
        var play := new Play();
        play.Run(staged, expected, prepared, scanners, runs);
        o := play.finalResult;
      }
      Answered(a, Scanned(o));
      r := Reply(o);
    }

    // The filesystem part of _cleanup_staging and _quarantine_staging: true when
    // the directory is absent, removed or moved; false on OSError.
    method TidyDirectory(a: Actor, quarantine: bool) returns (r: Reply<bool>)
      requires Live(a) && T(a).pc == Tidy(quarantine)
      modifies this
      ensures r.Reply? ==> Did(cfg, old(run), run, a,
        old(T(a)).(pc := MarkTidy(r.value)), [Call(Tidy(quarantine), Tidied(r.value))])
      ensures r.Raise? ==> Thrown(cfg, old(run), run, a, old(T(a)))
    {
      if * {
        Raises(a, false);
        return Raise;
      }
      var ok: bool := *;
      Answered(a, Tidied(ok));
      r := Reply(ok);
    }

    // db.get_scan, whose row always exists
    method GetStatus(a: Actor) returns (r: Reply<Status>)
      requires Live(a) && T(a).pc.ReadForOverlay?
      modifies this
      ensures r.Reply? ==> Did(cfg, old(run), run, a,
        old(T(a)).(pc := if OverlayApplies(r.value) then Overlay else Finished),
        [Call(ReadForOverlay, StatusRead(r.value))])
      ensures r.Reply? ==> r.value == EntryOf(a).row.status
      ensures r.Raise? ==> Thrown(cfg, old(run), run, a, old(T(a)))
    {
      hide Grew, New;
      if * {
        Raises(a, false);
        return Raise;
      }
      Others(a);
      ghost var mid := run;
      var st := EntryOf(a).row.status;
      Act(a, StatusRead(st));
      WentThen(cfg, old(run), mid, run, a);
      r := Reply(st);
    }

    // -------------------------------------------------------------------------
    // ansible/delete_infected_source.yml
    // -------------------------------------------------------------------------

    // realpath -e on the Nextcloud host; None when the playbook cannot be run.
    method RealpathOnHost(a: Actor) returns (r: Reply<Option<Option<string>>>)
      requires Live(a) && T(a).pc.DeleteResolve? && !T(a).sweeping
      modifies this
      ensures r.Reply? && r.value.None? ==>
        Did(cfg, old(run), run, a, old(T(a)).(pc := NoteDeletion), [Call(old(T(a)).pc, Unavailable)])
      ensures r.Reply? && r.value.Some? ==> Did(cfg, old(run), run, a,
        old(T(a)).(pc := AfterAnswer(cfg, old(T(a)), Realpath(r.value.value))),
        [Call(old(T(a)).pc, Realpath(r.value.value))])
      ensures r.Raise? ==> Thrown(cfg, old(run), run, a, old(T(a)))
    {
      if * {
        Raises(a, false);
        return Raise;
      }
      if * {
        Answered(a, Unavailable);
        return Reply(None);
      }
      var path: Option<string> := *;
      Answered(a, Realpath(path));
      r := Reply(Some(path));
    }

    // stat with checksum: the content the host has at this moment.
    method ChecksumOnHost(a: Actor) returns (r: Reply<Option<Option<string>>>)
      requires Live(a) && T(a).pc.DeleteStat? && !T(a).sweeping
      modifies this
      ensures r.Reply? && r.value.None? ==>
        Did(cfg, old(run), run, a, old(T(a)).(pc := NoteDeletion), [Call(old(T(a)).pc, Unavailable)])
      ensures r.Reply? && r.value.Some? ==> Did(cfg, old(run), run, a,
        old(T(a)).(pc := AfterAnswer(cfg, old(T(a)), Stat(r.value.value))), [Call(old(T(a)).pc, Stat(r.value.value))])
      ensures r.Raise? ==> Thrown(cfg, old(run), run, a, old(T(a)))
    {
      hide Grew, New;
      if * {
        Raises(a, false);
        return Raise;
      }
      if * {
        Answered(a, Unavailable);
        return Reply(None);
      }
      Others(a);
      ghost var mid := run;
      var key := (EntryOf(a).row.file.host, T(a).pc.canonical);
      var content := if key in Now().remote then Some(Now().remote[key]) else None;
      Act(a, Stat(content));
      WentThen(cfg, old(run), mid, run, a);
      r := Reply(Some(content));
    }

    // file: state=absent; the answer is whether the playbook reports success. A
    // removal that fails may have taken a part of a directory.
    method RemoveOnHost(a: Actor) returns (r: Reply<bool>)
      requires Live(a) && T(a).pc.DeleteRemove? && !T(a).sweeping
      modifies this
      ensures r.Reply? ==>
        Came(cfg, old(run), run, a, old(T(a)).(pc := if r.value then Tidy(cfg.retainInfected) else NoteDeletion))
      ensures r.Reply? ==> IsRemovalCall(New(old(run), run, a), old(T(a)).pc, r.value)
      ensures r.Raise? ==> Thrown(cfg, old(run), run, a, old(T(a)))
    {
      hide Grew, New;
      if * {
        Raises(a, false);
        return Raise;
      }
      Others(a);
      ghost var mid := run;
      var reported := Removes(a);
      WentThen(cfg, old(run), mid, run, a);
      r := Reply(reported);
    }

    method Removes(a: Actor) returns (reported: bool)
      requires Live(a) && T(a).pc.DeleteRemove?
      modifies this
      ensures Came(cfg, old(run), run, a, old(T(a)).(pc := if reported then Tidy(cfg.retainInfected) else NoteDeletion))
      ensures IsRemovalCall(New(old(run), run, a), old(T(a)).pc, reported)
    {
      var host, path := EntryOf(a).row.file.host, T(a).pc.canonical;
      var there := set k | k in Now().remote && k.0 == host && UnderRoot(k.1, path) :: k.1;
      reported := *;
      var part: set<string> :| true;
      var gone := if reported then there else there * part;
      Act(a, Removal(reported, gone));
    }

    // The playbook's tasks in order. True for DELETED and ALREADY_GONE, false for
    // ABORTED and for a playbook that failed.
    method RunDeletePlaybook(a: Actor, root: string, expected: string) returns (r: Reply<bool>)
      requires Live(a) && T(a).pc == DeleteResolve(root, expected) && !T(a).sweeping
      modifies this
      ensures r.Reply? ==>
        Came(cfg, old(run), run, a, old(T(a)).(pc := if r.value then Tidy(cfg.retainInfected) else NoteDeletion))
      ensures r.Reply? && r.value ==> IsSourceGone(New(old(run), run, a), root, expected)
      ensures r.Reply? && !r.value ==> IsSourceKept(New(old(run), run, a), root, expected)
      ensures r.Raise? ==> Thrown(cfg, old(run), run, a, old(T(a)))
    {
      hide Grew, New, IsRemoval, Truthful, AnswerFits;
      var resolved := RealpathOnHost(a);
      if resolved.Raise? { return Raise; }
      if resolved.value.None? { return Reply(false); }
      var canonical := resolved.value.value;
      if canonical.None? { return Reply(true); }
      if !UnderRoot(canonical.value, root) { return Reply(false); }
      ghost var mid := run;
      r := RemoveIfUnchanged(a, root, expected, canonical.value);
      WentThen(cfg, old(run), mid, run, a);
    }

    // The re-check and what follows it.
    method RemoveIfUnchanged(a: Actor, root: string, expected: string, path: string) returns (r: Reply<bool>)
      requires Live(a) && T(a).pc == DeleteStat(root, expected, path) && !T(a).sweeping
      modifies this
      ensures r.Reply? ==>
        Came(cfg, old(run), run, a, old(T(a)).(pc := if r.value then Tidy(cfg.retainInfected) else NoteDeletion))
      ensures r.Reply? ==> IsRemoval(New(old(run), run, a), r.value, root, expected, path)
      ensures r.Raise? ==> Thrown(cfg, old(run), run, a, old(T(a)))
    {
      hide Grew, New, Truthful, AnswerFits, IsRemovalCall;
      var current := ChecksumOnHost(a);
      if current.Raise? { return Raise; }
      if current.value.None? || current.value.value != Some(expected) { return Reply(false); }
      ghost var mid := run;
      r := RemoveOnHost(a);
      WentThen(cfg, old(run), mid, run, a);
    }

    // -------------------------------------------------------------------------
    // api/scanner.py
    // -------------------------------------------------------------------------

    method FailScan(a: Actor) returns (r: Outcome)
      requires Live(a) && T(a).pc.Fail?
      modifies this
      ensures r.Returned? ==> Did(cfg, old(run), run, a,
        old(T(a)).(pc := if old(T(a)).pc.thenTidy then Tidy(false) else Finished, decided := true),
        [Call(old(T(a)).pc, Committed)])
      ensures r.Returned? ==> EntryOf(a).row.status == ERROR && EntryOf(a).row.allowed == Some(false)
      ensures r.Raised? ==> Thrown(cfg, old(run), run, a, old(T(a)))
    {
      var fields := Update(status := Some(ERROR), allowed := Some(false));
      :- UpdateScan(a, fields);
      return Returned;
    }

    method MarkCleanupFailedIfTerminal(a: Actor) returns (r: Outcome)
      requires Live(a) && T(a).pc.ReadForOverlay?
      modifies this
      ensures r.Returned? ==> Came(cfg, old(run), run, a, old(T(a)).(pc := Finished))
      ensures r.Returned? ==> IsOverlay(New(old(run), run, a))
      ensures r.Raised? ==> Thrown(cfg, old(run), run, a, old(T(a)))
    {
      hide Grew, New;
      var current :- GetStatus(a);
      if current == CLEAN || current == INFECTED || current == ERROR || current == ENCRYPTED {
        ghost var mid := run;
        r := OverlayCleanupFailed(a);
        WentThen(cfg, old(run), mid, run, a);
        return;
      }
      return Returned;
    }

    method OverlayCleanupFailed(a: Actor) returns (r: Outcome)
      requires Live(a) && T(a).pc.Overlay?
      modifies this
      ensures r.Returned? ==> Did(cfg, old(run), run, a, old(T(a)).(pc := Finished), [Call(Overlay, Committed)])
      ensures r.Returned? ==> EntryOf(a).row.status == CLEANUP_FAILED
      ensures r.Raised? ==> Thrown(cfg, old(run), run, a, old(T(a)))
    {
      r := UpdateScan(a, Update(status := Some(CLEANUP_FAILED)));
    }

    method SetCleanupStatus(a: Actor, ok: bool) returns (r: Outcome)
      requires Live(a) && T(a).pc == MarkTidy(ok)
      modifies this
      ensures r.Returned? ==>
        Did(cfg, old(run), run, a, old(T(a)).(pc := if ok then Finished else ReadForOverlay),
            [Call(MarkTidy(ok), Committed)])
      ensures r.Returned? ==> EntryOf(a).row.cleanup == if ok then OK else FAILED
      ensures r.Raised? ==> Thrown(cfg, old(run), run, a, old(T(a)))
    {
      r := UpdateScan(a, Update(cleanup := Some(if ok then OK else FAILED)));
    }

    // _quarantine_staging or _cleanup_staging: they differ in what they do to the
    // directory and agree in what they do to the row.
    method TidyStaging(a: Actor, quarantine: bool) returns (r: Outcome)
      requires Live(a) && T(a).pc == Tidy(quarantine)
      modifies this
      ensures r.Returned? ==>
        Came(cfg, old(run), run, a, old(T(a)).(pc := Finished)) && IsTidying(New(old(run), run, a), quarantine)
      ensures r.Raised? ==> Thrown(cfg, old(run), run, a, old(T(a)))
    {
      hide Grew, New, IsTidyNote;
      var ok :- TidyDirectory(a, quarantine);
      ghost var mid := run;
      r := NoteTidied(a, ok);
      WentThen(cfg, old(run), mid, run, a);
    }

    method NoteTidied(a: Actor, ok: bool) returns (r: Outcome)
      requires Live(a) && T(a).pc == MarkTidy(ok)
      modifies this
      ensures r.Returned? ==>
        Came(cfg, old(run), run, a, old(T(a)).(pc := Finished)) && IsTidyNote(New(old(run), run, a), ok)
      ensures r.Raised? ==> Thrown(cfg, old(run), run, a, old(T(a)))
    {
      hide Grew, New, IsOverlay;
      r := SetCleanupStatus(a, ok);
      if r.Raised? || ok { return; }
      ghost var mid := run;
      r := MarkCleanupFailedIfTerminal(a);
      WentThen(cfg, old(run), mid, run, a);
    }

    method RecordRejection(a: Actor, transfer: Option<SubStatus>, detail: SubStatus) returns (r: Outcome)
      requires Live(a) && T(a).pc == Reject(transfer, detail)
      modifies this
      ensures r.Returned? ==>
        Did(cfg, old(run), run, a, old(T(a)).(pc := Pc.Fail(true)), [Call(Reject(transfer, detail), Committed)])
      ensures r.Returned? ==>
        EntryOf(a).row.detail == detail && (transfer.Some? ==> EntryOf(a).row.transfer == transfer.value)
      ensures r.Raised? ==> Thrown(cfg, old(run), run, a, old(T(a)))
    {
      r := UpdateScan(a, Update(transfer := transfer, detail := Some(detail)));
    }

    method Rejected(a: Actor, transfer: Option<SubStatus>, detail: SubStatus) returns (r: Outcome)
      requires Live(a) && T(a).pc == Reject(transfer, detail)
      modifies this
      ensures r.Returned? ==>
        Ended(cfg, old(run), run, a, old(T(a))) && IsRejection(New(old(run), run, a), transfer, detail)
      ensures r.Raised? ==> Thrown(cfg, old(run), run, a, old(T(a)))
    {
      hide Grew, New, IsRefusal;
      r := RecordRejection(a, transfer, detail);
      if r.Raised? { return; }
      ghost var mid := run;
      r := FailAndTidy(a);
      WentThen(cfg, old(run), mid, run, a);
    }

    // The row is refused first, the directory deleted then.
    method FailAndTidy(a: Actor) returns (r: Outcome)
      requires Live(a) && T(a).pc == Pc.Fail(true)
      modifies this
      ensures r.Returned? ==> Ended(cfg, old(run), run, a, old(T(a)))
      ensures r.Returned? ==> IsRefusal(New(old(run), run, a))
      ensures r.Raised? ==> Thrown(cfg, old(run), run, a, old(T(a)))
    {
      hide Grew, New, IsTidying, Ended, Thrown;
      var failed := FailScan(a);
      if failed.Raised? { return failed; }
      ghost var mid, tidying := run, T(a);
      r := TidyStaging(a, false);
      if r.Returned? {
        ThenEnded(cfg, old(run), mid, run, a, old(T(a)), tidying);
      } else {
        ThenThrown(cfg, old(run), mid, run, a, old(T(a)), tidying);
      }
    }

    // True: go on. False: the row has been failed and the directory tidied.
    method RunFetchStage(a: Actor, expected: string) returns (r: Reply<bool>)
      requires Live(a) && T(a).pc.LookupFetchHost? && !T(a).sweeping && T(a).expected == expected
      modifies this
      ensures r.Reply? && r.value ==>
        Came(cfg, old(run), run, a, old(T(a)).(pc := Detect)) && IsFetched(New(old(run), run, a), expected)
      ensures r.Reply? && !r.value ==>
        Ended(cfg, old(run), run, a, old(T(a))) && IsFetchRefused(New(old(run), run, a), expected)
      ensures r.Raise? ==> Thrown(cfg, old(run), run, a, old(T(a)))
    {
      hide Grew, New, IsRejection, IsTransfer;
      var root := HostRoot(a);
      if root.Raise? { return Raise; }
      ghost var mid := run;
      if root.value.None? {
        var done := Rejected(a, Some(FAILED), SKIPPED);
        r := if done.Raised? then Raise else Reply(false);
      } else {
        r := FetchAndCompare(a, expected);
      }
      WentThen(cfg, old(run), mid, run, a);
    }

    method FetchAndCompare(a: Actor, expected: string) returns (r: Reply<bool>)
      requires Live(a) && T(a).pc.FetchPlaybook? && !T(a).sweeping && T(a).expected == expected
      modifies this
      ensures r.Reply? && r.value ==>
        Came(cfg, old(run), run, a, old(T(a)).(pc := Detect)) && IsTransfer(New(old(run), run, a), true, expected)
      ensures r.Reply? && !r.value ==>
        Ended(cfg, old(run), run, a, old(T(a))) && IsTransfer(New(old(run), run, a), false, expected)
      ensures r.Raise? ==> Thrown(cfg, old(run), run, a, old(T(a)))
    {
      hide Grew, New, IsRejection, HashAccepted;
      var result := RunFetchPlaybook(a);
      if result.Raise? { return Raise; }
      ghost var mid := run;
      var accepted := result.value.FetchCompleted? && HashAccepted(result.value.actual, expected);
      var done: Outcome;
      if !result.value.FetchCompleted? {
        done := Rejected(a, Some(FAILED), SKIPPED);
      } else if !accepted {
        done := Rejected(a, Some(OK), SKIPPED);
      } else {
        done := SetTransferOk(a);
      }
      r := if done.Raised? then Raise else Reply(accepted);
      WentThen(cfg, old(run), mid, run, a);
    }

    method SetTransferOk(a: Actor) returns (r: Outcome)
      requires Live(a) && T(a).pc.MarkTransferOk?
      modifies this
      ensures r.Returned? ==> Did(cfg, old(run), run, a, old(T(a)).(pc := Detect), [Call(MarkTransferOk, Committed)])
      ensures r.Returned? ==> EntryOf(a).row.transfer == OK
      ensures r.Raised? ==> Thrown(cfg, old(run), run, a, old(T(a)))
    {
      r := UpdateScan(a, Update(transfer := Some(OK)));
    }

    // True: the file was encrypted or unreadable and its policy has been applied.
    method ApplyEncryption(a: Actor) returns (r: Reply<bool>)
      requires Live(a) && T(a).pc.Detect? && !T(a).sweeping
      modifies this
      ensures r.Reply? && !r.value ==>
        Came(cfg, old(run), run, a, old(T(a)).(pc := MarkScanning)) && IsPlain(New(old(run), run, a))
      ensures r.Reply? && r.value ==>
        Ended(cfg, old(run), run, a, old(T(a))) && IsEncrypted(New(old(run), run, a))
      ensures r.Raise? ==> Thrown(cfg, old(run), run, a, old(T(a)))
    {
      hide Grew, New, IsPolicyFollowed;
      var detection := DetectEncryption(a);
      if detection.Raise? { return Raise; }
      if detection.value.None? { return Reply(false); }
      ghost var mid := run;
      r := FollowDetection(a, detection.value.value);
      WentThen(cfg, old(run), mid, run, a);
    }

    method FollowDetection(a: Actor, found: Detection) returns (r: Reply<bool>)
      requires Live(a) && T(a).pc == RecordEncryption(found) && !T(a).sweeping
      modifies this
      ensures r.Reply? ==> (r.value <==> found.encrypted != Some(false))
      ensures r.Reply? && !r.value ==>
        Did(cfg, old(run), run, a, old(T(a)).(pc := MarkScanning), [Call(RecordEncryption(found), Committed)])
      ensures r.Reply? && r.value ==>
        Ended(cfg, old(run), run, a, old(T(a))) && IsPolicyFollowed(New(old(run), run, a), found)
      ensures r.Raise? ==> Thrown(cfg, old(run), run, a, old(T(a)))
    {
      hide Grew, New, IsPolicyApplied;
      var noted := NoteEncryption(a, found);
      if noted.Raised? { return Raise; }
      if found.encrypted == Some(false) { return Reply(false); }
      ghost var mid := run;
      var decided := DecideEncrypted(a, found.category);
      r := if decided.Raised? then Raise else Reply(true);
      WentThen(cfg, old(run), mid, run, a);
    }

    method NoteEncryption(a: Actor, found: Detection) returns (r: Outcome)
      requires Live(a) && T(a).pc == RecordEncryption(found)
      modifies this
      ensures r.Returned? ==> Did(cfg, old(run), run, a,
        old(T(a)).(pc := if found.encrypted != Some(false) then ReadPolicies(found.category) else MarkScanning),
        [Call(RecordEncryption(found), Committed)])
      ensures r.Returned? ==> EntryOf(a).row.encrypted == found.encrypted
      ensures r.Raised? ==> Thrown(cfg, old(run), run, a, old(T(a)))
    {
      r := UpdateScan(a, Update(encrypted := Some(found.encrypted)));
    }

    method DecideEncrypted(a: Actor, category: string) returns (r: Outcome)
      requires Live(a) && T(a).pc == ReadPolicies(category) && !T(a).sweeping
      modifies this
      ensures r.Returned? ==> Ended(cfg, old(run), run, a, old(T(a)))
      ensures r.Returned? ==> IsPolicyApplied(New(old(run), run, a), category)
      ensures r.Raised? ==> Thrown(cfg, old(run), run, a, old(T(a)))
    {
      hide Grew, New, IsDecisionKept;
      var policies :- GetEncryptedPolicies(a);
      var policy := ResolveEncrypted(category, policies);
      var decision := ApplyEncrypted(policy);
      ghost var mid := run;
      r := WriteAndKeep(a, policy, decision);
      WentThen(cfg, old(run), mid, run, a);
    }

    method WriteAndKeep(a: Actor, policy: EncryptedPolicy, decision: EncryptedDecision) returns (r: Outcome)
      requires Live(a) && T(a).pc == WriteEncrypted(policy) && decision == ApplyEncrypted(policy)
      modifies this
      ensures r.Returned? ==> Ended(cfg, old(run), run, a, old(T(a))) && IsDecisionKept(New(old(run), run, a), policy)
      ensures r.Raised? ==> Thrown(cfg, old(run), run, a, old(T(a)))
    {
      hide Grew, New, IsTidying;
      r := WriteDecision(a, policy, decision);
      if r.Raised? { return; }
      ghost var mid := run;
      r := TidyStaging(a, decision.quarantine);
      WentThen(cfg, old(run), mid, run, a);
    }

    method WriteDecision(a: Actor, policy: EncryptedPolicy, decision: EncryptedDecision) returns (r: Outcome)
      requires Live(a) && T(a).pc == WriteEncrypted(policy) && decision == ApplyEncrypted(policy)
      modifies this
      ensures r.Returned? ==> Did(cfg, old(run), run, a,
        old(T(a)).(pc := Tidy(decision.quarantine), decided := true), [Call(WriteEncrypted(policy), Committed)])
      ensures r.Returned? ==> EntryOf(a).row.status == ENCRYPTED && FollowsEncryptedPolicy(EntryOf(a).row)
      ensures r.Raised? ==> Thrown(cfg, old(run), run, a, old(T(a)))
    {
      r := UpdateScan(a, Update(
        status := Some(ENCRYPTED), allowed := Some(decision.allowed), needsReview := Some(decision.needsReview),
        encryptedPolicyApplied := Some(policy)));
    }

    // Whatever the playbook answers, the job goes on to the staging directory.
    method DeleteInfectedSource(a: Actor, root: string, hash: string) returns (r: Outcome)
      requires Live(a) && T(a).pc == DeleteResolve(root, hash) && !T(a).sweeping
      modifies this
      ensures r.Returned? ==>
        Came(cfg, old(run), run, a, old(T(a)).(pc := Tidy(cfg.retainInfected)))
        && IsDeletion(New(old(run), run, a), root, hash)
      ensures r.Raised? ==> Thrown(cfg, old(run), run, a, old(T(a)))
    {
      hide Grew, New, IsSourceGone, IsSourceKept;
      var done :- RunDeletePlaybook(a, root, hash);
      if !done {
        ghost var mid := run;
        r := NoteDeletionFailed(a);
        WentThen(cfg, old(run), mid, run, a);
        return;
      }
      return Returned;
    }

    method NoteDeletionFailed(a: Actor) returns (r: Outcome)
      requires Live(a) && T(a).pc.NoteDeletion?
      modifies this
      ensures r.Returned? ==>
        Did(cfg, old(run), run, a, old(T(a)).(pc := Tidy(cfg.retainInfected)), [Call(NoteDeletion, Committed)])
      ensures r.Raised? ==> Thrown(cfg, old(run), run, a, old(T(a)))
    {
      r := UpdateScan(a, Update());      // error_message only
    }

    // Deletion, then the directory.
    method DeleteThenTidy(a: Actor, root: string, hash: string) returns (r: Outcome)
      requires Live(a) && T(a).pc == DeleteResolve(root, hash) && !T(a).sweeping
      modifies this
      ensures r.Returned? ==> Came(cfg, old(run), run, a, old(T(a)).(pc := Finished))
      ensures r.Returned? ==> IsDeletedThenTidied(New(old(run), run, a), root, hash, cfg.retainInfected)
      ensures r.Raised? ==> Thrown(cfg, old(run), run, a, old(T(a)))
    {
      hide Grew, New, IsDeletion, IsTidying;
      r := DeleteInfectedSource(a, root, hash);
      if r.Raised? { return; }
      ghost var mid := run;
      r := TidyStaging(a, cfg.retainInfected);
      WentThen(cfg, old(run), mid, run, a);
    }

    method HandleSource(a: Actor, hash: string) returns (r: Outcome)
      requires Live(a) && T(a).pc == LookupDeleteHost(hash) && !T(a).sweeping
      modifies this
      ensures r.Returned? ==> Came(cfg, old(run), run, a, old(T(a)).(pc := Finished))
      ensures r.Returned? ==> IsSourceHandled(New(old(run), run, a), hash, cfg.retainInfected)
      ensures r.Raised? ==> Thrown(cfg, old(run), run, a, old(T(a)))
    {
      hide Grew, New, IsTidying, IsDeletedThenTidied, AnswerFits, Truthful;
      var root :- HostRoot(a);
      ghost var mid := run;
      if root.Some? {
        r := DeleteThenTidy(a, root.value, hash);
      } else {
        r := TidyStaging(a, cfg.retainInfected);
      }
      WentThen(cfg, old(run), mid, run, a);
    }

    // The source of an infected file that was fetched, then the staging directory.
    method HandleVerdict(a: Actor, status: Status, hash: string) returns (r: Outcome)
      requires Live(a) && !T(a).sweeping
      requires T(a).pc == AfterVerdict(cfg, T(a), status, hash)
      modifies this
      ensures r.Returned? ==> Came(cfg, old(run), run, a, old(T(a)).(pc := Finished))
      ensures r.Returned? ==>
        IsAftermath(New(old(run), run, a), status == INFECTED && old(T(a)).mode.AnsibleFetch?, hash,
                    status == INFECTED && cfg.retainInfected)
      ensures r.Raised? ==> Thrown(cfg, old(run), run, a, old(T(a)))
    {
      if status == INFECTED && T(a).mode == AnsibleFetch {
        r := HandleSource(a, hash);
      } else if status == INFECTED {
        r := TidyStaging(a, cfg.retainInfected);
      } else {
        r := TidyStaging(a, false);
      }
    }

    method SetHash(a: Actor, actual: string, raw: seq<RawResult>) returns (r: Outcome)
      requires Live(a) && T(a).pc == RecordHash(actual, raw)
      modifies this
      ensures r.Returned? ==>
        Did(cfg, old(run), run, a, old(T(a)).(pc := StoreResults(actual, raw)),
            [Call(RecordHash(actual, raw), Committed)])
      ensures r.Returned? ==> EntryOf(a).row.detail == OK && EntryOf(a).row.sha256 == actual
      ensures r.Raised? ==> Thrown(cfg, old(run), run, a, old(T(a)))
    {
      r := UpdateScan(a, Update(detail := Some(OK), sha256 := Some(actual)));
    }

    // The stored verdict is the aggregation of the results stored before it.
    method SetVerdict(a: Actor, actual: string, raw: seq<RawResult>, policy: AggregationPolicy)
      returns (r: Reply<Status>)
      requires Live(a) && T(a).pc == WriteVerdict(actual, raw) && T(a).policy == policy
      modifies this
      ensures r.Reply? ==> r.value == VerdictOf(raw, policy)
      ensures r.Reply? ==> Did(cfg, old(run), run, a,
        old(T(a)).(decided := true, pc := AfterVerdict(cfg, old(T(a)), r.value, actual)),
        [Call(WriteVerdict(actual, raw), Committed)])
      ensures r.Reply? ==> EntryOf(a).row.status == r.value && EntryOf(a).row.policyApplied == Some(policy)
      ensures r.Reply? ==> EntryOf(a).row.allowed == Some(r.value == CLEAN)
      ensures r.Reply? ==> EntryOf(a).row.threat == Aggregate(RawOutcomes(raw), policy).threat
      ensures r.Raise? ==> Thrown(cfg, old(run), run, a, old(T(a)))
    {
      var decision := Aggregate(RawOutcomes(raw), policy);
      VerdictIs(RawOutcomes(raw), policy);
      var written := UpdateScan(a, Update(status := Some(decision.status), allowed := Some(decision.allowed),
                                          threat := Some(decision.threat), policyApplied := Some(policy)));
      return if written.Raised? then Raise else Reply(decision.status);
    }

    method InsertResults(a: Actor, actual: string, raw: seq<RawResult>, scanners: seq<ScannerConfig>)
      returns (r: Outcome)
      requires Live(a) && T(a).pc == StoreResults(actual, raw) && !T(a).sweeping && T(a).scanners == scanners
      modifies this
      ensures r.Returned? ==>
        Did(cfg, old(run), run, a, old(T(a)).(pc := WriteVerdict(actual, raw)),
            [Call(StoreResults(actual, raw), Committed)])
      ensures r.Raised? ==> Thrown(cfg, old(run), run, a, old(T(a)))
    {
      r := CreateScanResults(a, Stored(raw, scanners));
    }

    method StoreAndDecide(a: Actor, actual: string, raw: seq<RawResult>, scanners: seq<ScannerConfig>,
                          policy: AggregationPolicy)
      returns (r: Reply<Status>)
      requires Live(a) && T(a).pc == StoreResults(actual, raw) && !T(a).sweeping
      requires T(a).scanners == scanners && T(a).policy == policy
      modifies this
      ensures r.Reply? ==> r.value == VerdictOf(raw, policy)
      ensures r.Reply? ==> Came(cfg, old(run), run, a,
        old(T(a)).(decided := true, pc := AfterVerdict(cfg, old(T(a)), r.value, actual)))
      ensures r.Reply? ==> New(old(run), run, a) == VerdictCalls(actual, raw)[1..]
      ensures r.Raise? ==> Thrown(cfg, old(run), run, a, old(T(a)))
    {
      hide Grew, New, VerdictOf, Aggregate, RawOutcomes;
      var stored := InsertResults(a, actual, raw, scanners);
      if stored.Raised? { return Raise; }
      ghost var mid := run;
      r := SetVerdict(a, actual, raw, policy);
      WentThen(cfg, old(run), mid, run, a);
    }

    // From the scan playbook's results to the stored verdict.
    method Conclude(a: Actor, actual: string, raw: seq<RawResult>, scanners: seq<ScannerConfig>,
                    policy: AggregationPolicy)
      returns (r: Reply<Status>)
      requires Live(a) && T(a).pc == RecordHash(actual, raw) && !T(a).sweeping
      requires T(a).scanners == scanners && T(a).policy == policy
      modifies this
      ensures r.Reply? ==> r.value == VerdictOf(raw, policy)
      ensures r.Reply? ==> Did(cfg, old(run), run, a,
        old(T(a)).(decided := true, pc := AfterVerdict(cfg, old(T(a)), r.value, actual)), VerdictCalls(actual, raw))
      ensures r.Raise? ==> Thrown(cfg, old(run), run, a, old(T(a)))
    {
      hide Grew, New, VerdictOf;
      var hashed := SetHash(a, actual, raw);
      if hashed.Raised? { return Raise; }
      ghost var mid := run;
      r := StoreAndDecide(a, actual, raw, scanners, policy);
      WentThen(cfg, old(run), mid, run, a);
    }

    method ConcludeAndHandle(a: Actor, actual: string, raw: seq<RawResult>, scanners: seq<ScannerConfig>,
                             policy: AggregationPolicy)
      returns (r: Outcome)
      requires Live(a) && T(a).pc == RecordHash(actual, raw) && !T(a).sweeping
      requires T(a).scanners == scanners && T(a).policy == policy
      modifies this
      ensures r.Returned? ==> Ended(cfg, old(run), run, a, old(T(a)))
      ensures r.Returned? ==> IsConclusion(New(old(run), run, a), cfg, old(T(a)).mode, policy, actual, raw)
      ensures r.Raised? ==> Thrown(cfg, old(run), run, a, old(T(a)))
    {
      hide Grew, New, VerdictOf, IsAftermath;
      var verdict :- Conclude(a, actual, raw, scanners, policy);
      ghost var mid := run;
      r := HandleVerdict(a, verdict, actual);
      WentThen(cfg, old(run), mid, run, a);
    }

    // Profile and scanners. None: the row has been failed.
    method Prepare(a: Actor) returns (r: Reply<Option<(AggregationPolicy, seq<ScannerConfig>)>>)
      requires Live(a) && T(a).pc.ResolveProfile? && !T(a).sweeping
      modifies this
      ensures r.Reply? && r.value.None? ==> Ended(cfg, old(run), run, a, old(T(a)))
      ensures r.Reply? && r.value.Some? ==> Came(cfg, old(run), run, a,
        old(T(a)).(pc := MarkTransferring, policy := r.value.value.0, scanners := r.value.value.1))
      ensures r.Raise? ==> Thrown(cfg, old(run), run, a, old(T(a)))
    {
      hide Grew, New;
      var profile := ResolveScanProfile(a);
      if profile.Raise? { return Raise; }
      ghost var mid := run;
      if profile.value.None? {
        var done := FailEarly(a);
        r := if done.Raised? then Raise else Reply(None);
      } else {
        r := PrepareScanners(a, profile.value.value);
      }
      WentThen(cfg, old(run), mid, run, a);
    }

    method PrepareScanners(a: Actor, policy: AggregationPolicy)
      returns (r: Reply<Option<(AggregationPolicy, seq<ScannerConfig>)>>)
      requires Live(a) && T(a).pc.ReadScanners? && !T(a).sweeping && T(a).policy == policy
      modifies this
      ensures r.Reply? && r.value.None? ==> Ended(cfg, old(run), run, a, old(T(a)))
      ensures r.Reply? && r.value.Some? ==> Came(cfg, old(run), run, a,
        old(T(a)).(pc := MarkTransferring, policy := r.value.value.0, scanners := r.value.value.1))
      ensures r.Raise? ==> Thrown(cfg, old(run), run, a, old(T(a)))
    {
      hide Grew, New;
      var scanners := GetProfileScanners(a);
      if scanners.Raise? { return Raise; }
      if scanners.value != [] { return Reply(Some((policy, scanners.value))); }
      ghost var mid := run;
      var done := FailEarly(a);
      r := if done.Raised? then Raise else Reply(None);
      WentThen(cfg, old(run), mid, run, a);
    }

    // Refused without anything to tidy.
    method FailEarly(a: Actor) returns (r: Outcome)
      requires Live(a) && T(a).pc == Pc.Fail(false)
      modifies this
      ensures r.Returned? ==> Ended(cfg, old(run), run, a, old(T(a)))
      ensures r.Raised? ==> Thrown(cfg, old(run), run, a, old(T(a)))
    {
      r := FailScan(a);
    }

    method SetTransferring(a: Actor) returns (r: Outcome)
      requires Live(a) && T(a).pc.MarkTransferring?
      modifies this
      ensures r.Returned? ==> Did(cfg, old(run), run, a,
        old(T(a)).(pc := if old(T(a)).mode.AnsibleFetch? then LookupFetchHost else MarkTransferOk),
        [Call(MarkTransferring, Committed)])
      ensures r.Returned? ==> EntryOf(a).row.status == TRANSFERRING && EntryOf(a).row.transfer == PENDING
      ensures r.Raised? ==> Thrown(cfg, old(run), run, a, old(T(a)))
    {
      r := UpdateScan(a, Update(status := Some(TRANSFERRING), transfer := Some(PENDING)));
    }

    // True: the file is local. False: the row has been failed and tidied.
    method Transfer(a: Actor) returns (r: Reply<bool>)
      requires Live(a) && T(a).pc.MarkTransferring? && !T(a).sweeping
      modifies this
      ensures r.Reply? && r.value ==> Came(cfg, old(run), run, a, old(T(a)).(pc := Detect))
      ensures r.Reply? && !r.value ==> Ended(cfg, old(run), run, a, old(T(a)))
      ensures r.Raise? ==> Thrown(cfg, old(run), run, a, old(T(a)))
    {
      hide Grew, New, IsFetched, IsFetchRefused;
      var marked := SetTransferring(a);
      if marked.Raised? { return Raise; }
      ghost var mid := run;
      if T(a).mode == AnsibleFetch {
        r := RunFetchStage(a, T(a).expected);
      } else {
        var stored := SetTransferOk(a);
        r := if stored.Raised? then Raise else Reply(true);
      }
      WentThen(cfg, old(run), mid, run, a);
    }

    method SetScanning(a: Actor) returns (r: Outcome)
      requires Live(a) && T(a).pc.MarkScanning?
      modifies this
      ensures r.Returned? ==> Did(cfg, old(run), run, a, old(T(a)).(pc := RunScanPlaybook),
                                  [Call(MarkScanning, Committed)])
      ensures r.Returned? ==> EntryOf(a).row.status == SCANNING
      ensures r.Raised? ==> Thrown(cfg, old(run), run, a, old(T(a)))
    {
      r := UpdateScan(a, Update(status := Some(SCANNING)));
    }

    // The playbook, and what its results lead to.
    method Examine(a: Actor, scanners: seq<ScannerConfig>, policy: AggregationPolicy) returns (r: Outcome)
      requires Live(a) && T(a).pc.RunScanPlaybook? && !T(a).sweeping && T(a).scanners == scanners
      requires T(a).policy == policy
      modifies this
      ensures r.Returned? ==> Ended(cfg, old(run), run, a, old(T(a)))
      ensures r.Returned? ==> IsExamined(New(old(run), run, a), cfg, old(T(a)))
      ensures r.Raised? ==> Thrown(cfg, old(run), run, a, old(T(a)))
    {
      hide Grew, New, IsConclusion, IsRejection;
      var result :- RunScanPlaybookFor(a, scanners);
      ghost var mid := run;
      if !result.ScanCompleted? || !HashAccepted(result.actual, T(a).expected) {
        r := Rejected(a, None, FAILED);
      } else {
        r := ConcludeAndHandle(a, result.actual.value, result.raw, scanners, policy);
      }
      WentThen(cfg, old(run), mid, run, a);
    }

    // From encryption detection to the end.
    method DetectAndExamine(a: Actor, scanners: seq<ScannerConfig>, policy: AggregationPolicy) returns (r: Outcome)
      requires Live(a) && T(a).pc.Detect? && !T(a).sweeping && T(a).scanners == scanners && T(a).policy == policy
      modifies this
      ensures r.Returned? ==> Ended(cfg, old(run), run, a, old(T(a)))
      ensures r.Raised? ==> Thrown(cfg, old(run), run, a, old(T(a)))
    {
      hide Grew, New, IsPlain, IsEncrypted;
      var encrypted :- ApplyEncryption(a);
      if encrypted { return Returned; }
      ghost var mid := run;
      r := ScanAndExamine(a, scanners, policy);
      WentThen(cfg, old(run), mid, run, a);
    }

    method ScanAndExamine(a: Actor, scanners: seq<ScannerConfig>, policy: AggregationPolicy) returns (r: Outcome)
      requires Live(a) && T(a).pc.MarkScanning? && !T(a).sweeping && T(a).scanners == scanners && T(a).policy == policy
      modifies this
      ensures r.Returned? ==> Ended(cfg, old(run), run, a, old(T(a)))
      ensures r.Raised? ==> Thrown(cfg, old(run), run, a, old(T(a)))
    {
      hide Grew, New, IsExamined;
      r := SetScanning(a);
      if r.Raised? { return; }
      ghost var mid := run;
      r := Examine(a, scanners, policy);
      WentThen(cfg, old(run), mid, run, a);
    }

    method TransferAndDetect(a: Actor, scanners: seq<ScannerConfig>, policy: AggregationPolicy) returns (r: Outcome)
      requires Live(a) && T(a).pc.MarkTransferring? && !T(a).sweeping && T(a).scanners == scanners
      requires T(a).policy == policy
      modifies this
      ensures r.Returned? ==> Ended(cfg, old(run), run, a, old(T(a)))
      ensures r.Raised? ==> Thrown(cfg, old(run), run, a, old(T(a)))
    {
      hide Grew, New;
      var local :- Transfer(a);
      if !local { return Returned; }
      ghost var mid := run;
      r := DetectAndExamine(a, scanners, policy);
      WentThen(cfg, old(run), mid, run, a);
    }

    // When it returns, the job has spoken at one of its steps, and the row is decided
    // and will never look in progress again.
    method ProcessScan(a: Actor) returns (r: Outcome)
      requires Live(a) && T(a).pc.ResolveProfile? && !T(a).sweeping
      modifies this
      ensures r.Returned? ==> Ended(cfg, old(run), run, a, old(T(a))) && Decided(Now(), T(a).target)
      ensures r.Returned? ==> exists v :: |old(run).steps| <= v < |run.steps| && SpeaksAt(run, v, T(a).target)
      ensures r.Raised? ==> Thrown(cfg, old(run), run, a, old(T(a)))
    {
      hide Grew, New;
      var profile :- Prepare(a);
      if profile.Some? {
        ghost var mid := run;
        r := TransferAndDetect(a, profile.value.1, profile.value.0);
        WentThen(cfg, old(run), mid, run, a);
      } else {
        r := Returned;
      }
      if r.Returned? {
        EndedIsDecided(cfg, run, a);
        EndedHasSpoken(cfg, old(run), run, a);
      }
    }

    // Called by the sweep: the row is refused before anything else happens.
    method ForceFailStale(a: Actor) returns (r: Outcome)
      requires Live(a) && T(a).pc == Pc.Fail(true) && T(a).sweeping
      modifies this
      ensures r.Returned? ==> Ended(cfg, old(run), run, a, old(T(a))) && IsRefusal(New(old(run), run, a))
      ensures r.Raised? ==> Thrown(cfg, old(run), run, a, old(T(a)))
    {
      r := FailAndTidy(a);
    }

    // -------------------------------------------------------------------------
    // api/worker.py
    // -------------------------------------------------------------------------

    // Whatever process_scan does, the job ends; an exception becomes one more
    // attempt to write ERROR. False: that failed as well and was only logged;
    // otherwise the row is decided and will never look in progress again.
    method ProcessOne(a: Actor) returns (recorded: bool)
      requires Live(a) && T(a).pc.ResolveProfile? && !T(a).sweeping
      modifies this
      ensures Went(cfg, old(run), run, a) && T(a).pc.Finished? && T(a).target == old(T(a)).target
      ensures recorded ==> Decided(Now(), T(a).target)
      ensures forall n :: 0 <= n < |New(old(run), run, a)| - 1 ==> !New(old(run), run, a)[n].pc.RecordCrash?
    {
      hide Grew, New, EntryOk, JobOk, Decided;
      PlacedLast(cfg, run, a);
      var r := ProcessScan(a);
      recorded := true;
      if r.Raised? {
        ghost var mid := run;
        recorded := RecordError(a);
        WentThen(cfg, old(run), mid, run, a);
      }
      HandlerCallsOnce(cfg, old(run), run, a.id);
    }

    method RecordError(a: Actor) returns (recorded: bool)
      requires Live(a) && T(a).pc.RecordCrash? && !T(a).sweeping
      modifies this
      ensures Went(cfg, old(run), run, a) && T(a).pc.Finished? && T(a).target == old(T(a)).target
      ensures recorded ==> Decided(Now(), T(a).target)
    {
      var written := UpdateScan(a, Update(status := Some(ERROR), allowed := Some(false)));
      recorded := written.Returned?;
      if recorded { ErrorIsDecided(cfg, run, a); }
    }
  }
}
