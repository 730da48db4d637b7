// The worker's main loop and its stale sweep (api/worker.py:37-95), with every
// other actor moving between any two of its statements.
module WorkerLoop {
  import opened Wrappers
  import opened Policy
  import opened Protocol
  import opened SystemInvariant
  import opened StepEffects
  import opened Runs
  import opened CrashRecovery
  import opened Calls
  import opened WorkerCode

  ghost predicate AtTop(sys: System, w: nat)
    reads sys
  {
    sys.Valid() && Free(sys.Now(), w)
  }

  // ---------------------------------------------------------------------------
  // The two queries
  // ---------------------------------------------------------------------------

  ghost predicate IsOldest(s: State, id: nat) {
    Claimable(s, id)
    && forall j :: 0 <= j < |s.entries| && Claimable(s, j) ==> s.entries[id].row.createdAt <= s.entries[j].row.createdAt
  }

  ghost predicate NothingToClaim(s: State) {
    forall j :: 0 <= j < |s.entries| ==> !Claimable(s, j)
  }

  // The oldest RECEIVED row that no other claim has locked.
  method OldestReceived(s: State) returns (oldest: Option<nat>)
    ensures oldest.None? ==> NothingToClaim(s)
    ensures oldest.Some? ==> IsOldest(s, oldest.value)
  {
    oldest := None;
    for i := 0 to |s.entries|
      invariant oldest.None? ==> forall j :: 0 <= j < i ==> !Claimable(s, j)
      invariant oldest.Some? ==>
        Claimable(s, oldest.value)
        && forall j :: 0 <= j < i && Claimable(s, j) ==>
             s.entries[oldest.value].row.createdAt <= s.entries[j].row.createdAt
    {
      if Claimable(s, i) && (oldest.None? || s.entries[i].row.createdAt < s.entries[oldest.value].row.createdAt) {
        oldest := Some(i);
      }
    }
  }

  // find_stale_processing_scans
  method StaleRows(cfg: Config, s: State) returns (found: seq<nat>)
    ensures forall i, j :: 0 <= i < j < |found| ==> found[i] != found[j]
    ensures forall id :: id in found <==> 0 <= id < |s.entries| && StaleNow(cfg, s, id)
    ensures forall id :: 0 <= id < |s.entries| ==>
      var row := s.entries[id].row;
      (id in found <==>
         (row.status == VALIDATING || row.status == TRANSFERRING || row.status == SCANNING)
         && row.startedAt.Some? && row.startedAt.value < s.clock - cfg.lifetime)
  {
    found := [];
    for k := 0 to |s.entries|
      invariant forall i, j :: 0 <= i < j < |found| ==> found[i] != found[j]
      invariant forall id :: id in found ==> id < k && StaleNow(cfg, s, id)
      invariant forall id :: 0 <= id < k && StaleNow(cfg, s, id) ==> id in found
    {
      if StaleNow(cfg, s, k) {
        found := found + [k];
      }
    }
  }

  // ---------------------------------------------------------------------------
  // Between two statements of the main thread
  // ---------------------------------------------------------------------------

  // The run goes on, with nothing that begins another pass of the worker's sweep.
  ghost predicate InPass(before: Run, after: Run, w: nat) {
    Extends(before, after) && forall i :: |before.steps| <= i < |after.steps| ==> SamePass(after.steps[i], w)
  }

  // Others move: the worker's record and its sweep are left alone.
  ghost predicate Idled(cfg: Config, before: Run, after: Run, w: nat) {
    && after.Valid(cfg) && before.Valid(cfg) && InPass(before, after, w)
    && w in before.Last().workers && RecordStays(before.Last(), after.Last(), w)
  }

  lemma MainThreadStands(cfg: Config, r: Run, step: Step, w: nat)
    requires r.Valid(cfg) && Enabled(cfg, r.Last(), step) && w in r.Last().workers && !ByMainThread(step, w)
    ensures Idled(cfg, r, Grown(cfg, r, step), w)
  {
    RecordStaysLast(cfg, r, step, w);
    GrownIsValid(cfg, r, step);
  }

  lemma RecordStaysLast(cfg: Config, r: Run, step: Step, w: nat)
    requires r.Valid(cfg) && Enabled(cfg, r.Last(), step) && w in r.Last().workers && !ByMainThread(step, w)
    ensures RecordStays(r.Last(), Apply(cfg, r.Last(), step), w)
  {
    ReachableInv(cfg, r, |r.states| - 1);
    WorkerStays(cfg, r.Last(), step, w);
  }

  // Everyone else moves. Only a crash of this very worker is left out.
  method Meanwhile(sys: System, w: nat)
    requires sys.Valid() && w in sys.Now().workers
    modifies sys
    ensures Idled(sys.cfg, old(sys.run), sys.run, w)
  {
    var n: nat :| true;
    for i := 0 to n
      invariant Idled(sys.cfg, old(sys.run), sys.run, w)
    {
      var step: Step :| true;
      if Enabled(sys.cfg, sys.Now(), step) && !ByMainThread(step, w) {
        MainThreadStands(sys.cfg, sys.run, step, w);
        sys.Take(step);
      }
    }
  }

  // ---------------------------------------------------------------------------
  // Claiming
  // ---------------------------------------------------------------------------

  lemma ClaimStands(cfg: Config, r: Run, w: nat)
    requires r.Valid(cfg) && w in r.Last().workers && r.Last().workers[w].claim.Some?
    ensures Claiming(r.Last(), w) && r.Last().workers[w].budget > 0
    ensures r.Last().entries[r.Last().workers[w].claim.value.id].row.status == RECEIVED
  {
    ReachableInv(cfg, r, |r.states| - 1);
    assert WorkerOk(cfg, r.Last().clock, r.Last().entries, r.Last().workers[w]);
  }

  // In the stretch the worker has locked the row when it was the oldest one to be
  // had.
  ghost predicate LockedOldest(before: Run, after: Run, w: nat, id: nat)
    requires Extends(before, after)
  {
    exists k :: |before.steps| <= k < |after.steps| && after.steps[k] == ClaimLock(w, id)
      && IsOldest(after.states[k], id)
  }

  lemma StillLocked(before: Run, mid: Run, after: Run, w: nat, id: nat)
    requires Extends(before, mid) && Extends(mid, after) && LockedOldest(mid, after, w, id)
    ensures Extends(before, after) && LockedOldest(before, after, w, id)
  {
    var k :| |mid.steps| <= k < |after.steps| && after.steps[k] == ClaimLock(w, id) && IsOldest(after.states[k], id);
  }

  // At some moment of the stretch there was no row to be had.
  ghost predicate FoundNothing(before: Run, after: Run)
    requires Extends(before, after)
  {
    exists k :: |before.steps| <= k < |after.states| && NothingToClaim(after.states[k])
  }

  // claim_next_scan and, for a row, the start of its job. A row that is returned
  // was the oldest one to be had, has left RECEIVED and has a job.
  method ClaimNextScan(sys: System, w: nat) returns (r: Reply<Option<nat>>)
    requires AtTop(sys, w) && sys.Now().workers[w].budget > 0
    modifies sys
    ensures AtTop(sys, w) && InPass(old(sys.run), sys.run, w)
    ensures r.Reply? && r.value.Some? ==>
      && LockedOldest(old(sys.run), sys.run, w, r.value.value) && IsClaimed(sys.Now(), r.value.value, w)
      && sys.Now().workers[w] == WithOneMore(old(sys.Now().workers[w]), r.value.value)
    ensures r.Reply? && r.value.None? ==> FoundNothing(old(sys.run), sys.run)
    ensures !(r.Reply? && r.value.Some?) ==> sys.Now().workers[w] == old(sys.Now().workers[w]).(budget := 0)
  {
    hide LockedOldest, IsClaimed;
    Meanwhile(sys, w);
    var oldest := OldestReceived(sys.Now());
    if oldest.None? {
      assert NothingToClaim(sys.run.states[|sys.run.steps|]);
      sys.Take(ClaimBreak(w));
      return Reply(None);
    }
    if * {
      sys.Take(ClaimBreak(w));      // no connection
      return Raise;
    }
    ghost var mid := sys.run;
    var locked := LockAndCommit(sys, w, oldest.value);
    if locked { StillLocked(old(sys.run), mid, sys.run, w, oldest.value); }
    r := if locked then Reply(oldest) else Raise;
  }

  ghost predicate IsClaimed(s: State, id: nat, w: nat) {
    && id < |s.entries| && s.entries[id].row.status == VALIDATING
    && Job(id) in s.threads && s.threads[Job(id)].pc.ResolveProfile? && s.threads[Job(id)].worker == w
  }

  function WithOneMore(k: Worker, id: nat): Worker
    requires k.budget > 0
  {
    k.(inFlight := k.inFlight + {id}, budget := k.budget - 1)
  }

  method LockAndCommit(sys: System, w: nat, id: nat) returns (committed: bool)
    requires AtTop(sys, w) && sys.Now().workers[w].budget > 0 && IsOldest(sys.Now(), id)
    modifies sys
    ensures AtTop(sys, w) && InPass(old(sys.run), sys.run, w)
    ensures committed ==>
      LockedOldest(old(sys.run), sys.run, w, id) && IsClaimed(sys.Now(), id, w)
      && sys.Now().workers[w] == WithOneMore(old(sys.Now().workers[w]), id)
    ensures !committed ==> sys.Now().workers[w] == old(sys.Now().workers[w]).(budget := 0)
  {
    sys.Take(ClaimLock(w, id));
    assert sys.run.steps[|old(sys.run.steps)|] == ClaimLock(w, id);
    committed := CommitOrLose(sys, w);
    assert sys.run.steps[|old(sys.run.steps)|] == ClaimLock(w, id);
  }

  method CommitOrLose(sys: System, w: nat) returns (committed: bool)
    requires sys.Valid() && w in sys.Now().workers && !Sweeping(sys.Now(), w)
    requires sys.Now().workers[w].claim.Some? && sys.Now().workers[w].budget > 0
    modifies sys
    ensures AtTop(sys, w) && InPass(old(sys.run), sys.run, w)
    ensures var k := old(sys.Now().workers[w]);
      if committed
      then sys.Now().workers[w] == WithOneMore(k.(claim := None), k.claim.value.id)
        && IsClaimed(sys.Now(), k.claim.value.id, w)
      else sys.Now().workers[w] == k.(claim := None, budget := 0)
  {
    Meanwhile(sys, w);
    ClaimStands(sys.cfg, sys.run, w);
    if * {
      var applied: bool := *;
      sys.Take(ClaimLost(w, applied));
      return false;
    }
    sys.Take(ClaimCommit(w));
    return true;
  }

  // ---------------------------------------------------------------------------
  // The sweep
  // ---------------------------------------------------------------------------

  lemma QueuedRow(cfg: Config, r: Run, w: nat)
    requires r.Valid(cfg) && w in r.Last().workers && r.Last().workers[w].queue != [] && Sweep(w) !in r.Last().threads
    ensures SweepWaiting(r.Last(), w)
  {
    ReachableInv(cfg, r, |r.states| - 1);
    assert WorkerOk(cfg, r.Last().clock, r.Last().entries, r.Last().workers[w]);
  }

  // One row of the pass: an exception is caught here and the pass goes on.
  method SweepOne(sys: System, w: nat) returns (r: Outcome)
    requires sys.Valid() && w in sys.Now().workers && sys.Now().workers[w].claim.None?
    requires Sweep(w) !in sys.Now().threads && sys.Now().workers[w].queue != []
    modifies sys
    ensures sys.Valid() && w in sys.Now().workers && sys.Now().workers[w].claim.None?
    ensures Sweep(w) !in sys.Now().threads && sys.Now().workers[w].queue == old(sys.Now().workers[w].queue[1..])
    ensures InPass(old(sys.run), sys.run, w)
    ensures r.Returned? && old(sys.Now().workers[w].cleanPass) ==> sys.Now().workers[w].cleanPass
  {
    NextRow(sys, w);
    r := HandleRow(sys, w);
    RowDone(sys, w);
  }

  method HandleRow(sys: System, w: nat) returns (r: Outcome)
    requires sys.Live(Sweep(w)) && sys.T(Sweep(w)).pc == Pc.Fail(true) && sys.T(Sweep(w)).sweeping
    requires w in sys.Now().workers
    modifies sys
    ensures sys.Live(Sweep(w)) && sys.T(Sweep(w)).pc.Finished? && w in sys.Now().workers
    ensures var k, k' := old(sys.Now().workers[w]), sys.Now().workers[w];
      k' == k.(cleanPass := k'.cleanPass) && (r.Returned? && k.cleanPass ==> k'.cleanPass)
    ensures InPass(old(sys.run), sys.run, w)
  {
    hide Grew, New, IsRefusal;
    r := sys.ForceFailStale(Sweep(w));
    KeptRecord(sys.cfg, old(sys.run), sys.run, w);
    if r.Returned? { RefusalIsQuiet(New(old(sys.run), sys.run, Sweep(w))); }
  }

  lemma KeptRecord(cfg: Config, before: Run, after: Run, w: nat)
    requires Went(cfg, before, after, Sweep(w)) && before.Valid(cfg)
    ensures InPass(before, after, w) && w in before.Last().workers && w in after.Last().workers
    ensures var k, k' := before.Last().workers[w], after.Last().workers[w];
      k' == k.(cleanPass := k'.cleanPass)
      && (NoRaise(New(before, after, Sweep(w))) && k.cleanPass ==> k'.cleanPass)
  {}

  // None of the calls of a row that was refused and tidied has raised.
  lemma RefusalIsQuiet(cs: seq<Call>)
    requires IsRefusal(cs)
    ensures NoRaise(cs)
  {
    forall c | c in cs ensures !c.answer.Raised? {
      var i :| 0 <= i < |cs| && cs[i] == c;
      if i > 0 { TidyingIsQuiet(cs[1..], false, i - 1); }
    }
  }

  lemma TidyingIsQuiet(cs: seq<Call>, quarantine: bool, i: nat)
    requires IsTidying(cs, quarantine) && i < |cs|
    ensures !cs[i].answer.Raised?
  {
    if i >= 2 {
      var overlay := cs[1..][1..];
      assert cs[i] == overlay[i - 2];
      if i >= 3 { assert overlay[i - 2] == overlay[1..][i - 3]; }
    }
  }

  method NextRow(sys: System, w: nat)
    requires sys.Valid() && w in sys.Now().workers && Sweep(w) !in sys.Now().threads && sys.Now().workers[w].queue != []
    modifies sys
    ensures sys.Live(Sweep(w)) && sys.T(Sweep(w)).pc == Pc.Fail(true) && sys.T(Sweep(w)).sweeping
    ensures w in sys.Now().workers && InPass(old(sys.run), sys.run, w)
    ensures sys.Now().workers[w] == var k := old(sys.Now().workers[w]); k.(queue := k.queue[1..])
  {
    QueuedRow(sys.cfg, sys.run, w);
    sys.Take(SweepNext(w));
  }

  method RowDone(sys: System, w: nat)
    requires sys.Live(Sweep(w)) && sys.T(Sweep(w)).pc.Finished? && w in sys.Now().workers
    modifies sys
    ensures sys.Valid() && w in sys.Now().workers && sys.Now().workers[w] == old(sys.Now().workers[w])
    ensures Sweep(w) !in sys.Now().threads && InPass(old(sys.run), sys.run, w)
  {
    sys.Take(Retire(Sweep(w)));
  }

  // Claimed, longer ago than the lifetime, and without a thread.
  ghost predicate Abandoned(cfg: Config, s: State, id: nat) {
    && id < |s.entries| && Job(id) !in s.threads && s.entries[id].row.status != RECEIVED
    && s.entries[id].row.startedAt.Some? && s.entries[id].row.startedAt.value < s.clock - cfg.lifetime
  }

  ghost predicate QueriedIn(before: Run, after: Run, w: nat) {
    exists i :: |before.steps| <= i < |after.steps| && after.steps[i].SweepQuery? && after.steps[i].w == w
  }

  // _sweep_stale; `answered` is whether the query works. When nothing was raised,
  // every row that was stale and had no thread at the moment of the query is
  // refused, whatever the others did.
  method SweepStale(sys: System, w: nat, answered: bool) returns (clean: bool)
    requires AtTop(sys, w)
    modifies sys
    ensures AtTop(sys, w) && Extends(old(sys.run), sys.run)
    ensures if answered then QueriedIn(old(sys.run), sys.run, w) else !clean && sys.run == old(sys.run)
    ensures clean ==> forall id :: LeftBehind(sys.cfg, old(sys.Now()), id) ==> Refused(sys.Now(), id)
    ensures clean ==> forall id: nat :: Abandoned(sys.cfg, old(sys.Now()), id) ==>
      id < |sys.Now().entries|
      && sys.Now().entries[id].row.status in {CLEAN, INFECTED, ENCRYPTED, ERROR, CLEANUP_FAILED}
  {
    if !answered { return false; }
    var stale := StaleRows(sys.cfg, sys.Now());
    sys.Take(SweepQuery(w, stale));
    ghost var queried := sys.run;
    assert queried.steps[|old(sys.run.steps)|] == SweepQuery(w, stale);
    clean := HandleQueue(sys, w);
    assert sys.run.steps[|old(sys.run.steps)|] == SweepQuery(w, stale);
    if clean {
      PassRefuses(sys.cfg, old(sys.run), queried, sys.run, w, stale);
    }
  }

  // The rows that the query found, one after the other.
  method HandleQueue(sys: System, w: nat) returns (clean: bool)
    requires sys.Valid() && w in sys.Now().workers && sys.Now().workers[w].claim.None?
    requires Sweep(w) !in sys.Now().threads && sys.Now().workers[w].cleanPass
    modifies sys
    ensures AtTop(sys, w) && InPass(old(sys.run), sys.run, w)
    ensures clean ==> sys.Now().workers[w].cleanPass
  {
    clean := true;
    while sys.Now().workers[w].queue != []
      invariant sys.Valid() && w in sys.Now().workers && sys.Now().workers[w].claim.None?
      invariant Sweep(w) !in sys.Now().threads && InPass(old(sys.run), sys.run, w)
      invariant clean ==> sys.Now().workers[w].cleanPass
      decreases |sys.Now().workers[w].queue|
    {
      Meanwhile(sys, w);
      var r := SweepOne(sys, w);
      clean := clean && r.Returned?;
    }
  }

  lemma PassRefuses(cfg: Config, before: Run, queried: Run, r: Run, w: nat, stale: seq<nat>)
    requires before.Valid(cfg) && r.Valid(cfg) && Extends(before, queried) && InPass(queried, r, w)
    requires queried.steps == before.steps + [SweepQuery(w, stale)]
    requires w in r.Last().workers && !Sweeping(r.Last(), w) && r.Last().workers[w].cleanPass
    ensures forall id :: LeftBehind(cfg, before.Last(), id) ==> Refused(r.Last(), id)
    ensures forall id: nat :: Abandoned(cfg, before.Last(), id) ==>
      id < |r.Last().entries| && r.Last().entries[id].row.status in {CLEAN, INFECTED, ENCRYPTED, ERROR, CLEANUP_FAILED}
  {
    var i := |before.steps|;
    assert r.steps[i] == queried.steps[i] && r.states[i] == queried.states[i] == before.Last();
    forall id: nat | Abandoned(cfg, before.Last(), id)
      ensures id < |r.Last().entries|
      ensures r.Last().entries[id].row.status in {CLEAN, INFECTED, ENCRYPTED, ERROR, CLEANUP_FAILED}
    {
      CleanPassEndsRows(cfg, r, i, |r.steps|, |r.steps|, w, id);
    }
    forall id | LeftBehind(cfg, before.Last(), id) ensures Refused(r.Last(), id) {
      SweepPassRefusesOrphans(cfg, r, i, |r.steps|, |r.steps|, w, id);
    }
  }

  // ---------------------------------------------------------------------------
  // One pass of the loop
  // ---------------------------------------------------------------------------

  // The finished jobs leave the list; what is then free is the capacity.
  method HarvestDone(sys: System, w: nat)
    requires AtTop(sys, w)
    modifies sys
    ensures AtTop(sys, w) && InPass(old(sys.run), sys.run, w)
    ensures |old(sys.run.steps)| < |sys.run.steps| && Harvested(sys.run, |sys.run.steps|, w)
    ensures var k := sys.Now().workers[w]; k.budget == FreeCapacity(sys.cfg, k)
  {
    var live, inFlight := LiveJobs(sys.Now(), w), sys.Now().workers[w].inFlight;
    var finishing: set<nat> :| true;
    LiveInFlight(sys.cfg, sys.run, w);
    sys.Take(Harvest(w, live + finishing * inFlight));
  }

  function FreeCapacity(cfg: Config, k: Worker): nat {
    if |k.inFlight| < cfg.concurrency then cfg.concurrency - |k.inFlight| else 0
  }

  lemma LiveInFlight(cfg: Config, r: Run, w: nat)
    requires r.Valid(cfg) && w in r.Last().workers
    ensures LiveJobs(r.Last(), w) <= r.Last().workers[w].inFlight
    ensures |r.Last().workers[w].inFlight| <= cfg.concurrency
  {
    ReachableInv(cfg, r, |r.states| - 1);
    OwnJobsInFlight(cfg, r.Last(), w);
    assert WorkerOk(cfg, r.Last().clock, r.Last().entries, r.Last().workers[w]);
  }

  // The rows claimed in a stretch: all different, each the oldest to be had when
  // it was locked.
  ghost predicate ClaimedInTurn(before: Run, after: Run, w: nat, ids: seq<nat>)
    requires Extends(before, after)
  {
    && (forall i, j :: 0 <= i < j < |ids| ==> ids[i] != ids[j])
    && (forall id :: id in ids ==> LockedOldest(before, after, w, id))
  }

  ghost predicate AllTaken(s: State, ids: seq<nat>) {
    forall id :: id in ids ==> id < |s.entries| && s.entries[id].row.status != RECEIVED
  }

  lemma StillTaken(cfg: Config, r: Run, i: nat, k: nat, ids: seq<nat>)
    requires r.Valid(cfg) && i <= k < |r.states| && AllTaken(r.states[i], ids)
    ensures AllTaken(r.states[k], ids)
  {
    RunContinues(cfg, r, i, k);
    forall id | id in ids ensures id < |r.states[k].entries| && r.states[k].entries[id].row.status != RECEIVED {
      assert Continues(r.states[i].entries[id], r.states[k].entries[id]);
    }
  }

  // What holds of a stretch of a run holds of a longer one.
  ghost predicate Around(from: Run, before: Run, after: Run, to: Run) {
    Extends(from, before) && Extends(before, after) && Extends(after, to)
  }

  lemma ClaimedAround(from: Run, before: Run, after: Run, to: Run, w: nat, ids: seq<nat>)
    requires Around(from, before, after, to) && ClaimedInTurn(before, after, w, ids)
    ensures Extends(from, to) && ClaimedInTurn(from, to, w, ids)
  {
    forall id | id in ids ensures LockedOldest(from, to, w, id) {
      var k :| |before.steps| <= k < |after.steps| && after.steps[k] == ClaimLock(w, id)
        && IsOldest(after.states[k], id);
      assert to.steps[k] == ClaimLock(w, id) && IsOldest(to.states[k], id);
    }
  }

  lemma FoundAround(from: Run, before: Run, after: Run, to: Run)
    requires Around(from, before, after, to) && FoundNothing(before, after)
    ensures Extends(from, to) && FoundNothing(from, to)
  {
    var k :| |before.steps| <= k < |after.states| && NothingToClaim(after.states[k]);
    assert NothingToClaim(to.states[k]);
  }

  // A row that has been claimed is not to be had again.
  lemma NewlyLocked(cfg: Config, mid: Run, after: Run, w: nat, ids: seq<nat>, id: nat)
    requires mid.Valid(cfg) && after.Valid(cfg) && Extends(mid, after)
    requires AllTaken(mid.Last(), ids) && LockedOldest(mid, after, w, id)
    ensures id !in ids
  {
    var k :| |mid.steps| <= k < |after.steps| && after.steps[k] == ClaimLock(w, id) && IsOldest(after.states[k], id);
    StillTaken(cfg, after, |mid.steps|, k, ids);
  }

  lemma ClaimedOneMore(cfg: Config, before: Run, mid: Run, after: Run, w: nat, ids: seq<nat>, id: nat)
    requires mid.Valid(cfg) && after.Valid(cfg) && Extends(before, mid) && Extends(mid, after)
    requires ClaimedInTurn(before, mid, w, ids) && AllTaken(mid.Last(), ids)
    requires LockedOldest(mid, after, w, id) && IsClaimed(after.Last(), id, w)
    ensures Extends(before, after) && ClaimedInTurn(before, after, w, ids + [id]) && AllTaken(after.Last(), ids + [id])
  {
    hide IsOldest, LockedOldest, Claimable;
    ClaimedAround(before, before, mid, after, w, ids);
    NewlyLocked(cfg, mid, after, w, ids, id);
    StillLocked(before, mid, after, w, id);
    StillTaken(cfg, after, |mid.steps|, |after.steps|, ids);
  }

  // The claims of one pass: as many as there is room for, unless at some moment
  // there was no row to be had or a claim raised.
  method FillCapacity(sys: System, w: nat) returns (claimed: nat, raised: bool, ghost ids: seq<nat>)
    requires AtTop(sys, w)
    modifies sys
    ensures AtTop(sys, w) && InPass(old(sys.run), sys.run, w)
    ensures claimed == |ids| <= old(sys.Now().workers[w].budget)
    ensures claimed < old(sys.Now().workers[w].budget) ==> raised || FoundNothing(old(sys.run), sys.run)
    ensures ClaimedInTurn(old(sys.run), sys.run, w, ids)
    ensures sys.Now().workers[w].inFlight == old(sys.Now().workers[w].inFlight) + set id | id in ids
    ensures sys.Now().workers[w].budget == 0
  {
    hide ClaimedInTurn, AllTaken, LockedOldest, FoundNothing, IsClaimed;
    claimed, raised, ids := 0, false, [];
    var capacity := sys.Now().workers[w].budget;
    NoneClaimed(sys.run, w);
    while claimed < capacity
      invariant AtTop(sys, w) && InPass(old(sys.run), sys.run, w)
      invariant claimed == |ids| <= capacity && sys.Now().workers[w].budget == capacity - claimed
      invariant sys.Now().workers[w].inFlight == old(sys.Now().workers[w].inFlight) + set id | id in ids
      invariant ClaimedInTurn(old(sys.run), sys.run, w, ids) && AllTaken(sys.Now(), ids)
      decreases capacity - claimed
    {
      ghost var mid := sys.run;
      var scan := ClaimNextScan(sys, w);
      if scan.Raise? {
        ClaimedAround(old(sys.run), old(sys.run), mid, sys.run, w, ids);
        raised := true;
        return;
      }
      if scan.value.None? {
        ClaimedAround(old(sys.run), old(sys.run), mid, sys.run, w, ids);
        FoundAround(old(sys.run), mid, sys.run, sys.run);
        return;
      }
      ClaimedOneMore(sys.cfg, old(sys.run), mid, sys.run, w, ids, scan.value.value);
      claimed, ids := claimed + 1, ids + [scan.value.value];
    }
  }

  lemma NoneClaimed(r: Run, w: nat)
    requires WellFormed(r)
    ensures ClaimedInTurn(r, r, w, []) && AllTaken(r.Last(), [])
  {}

  // Which rows a pass claims: as many as the worker had room for when it had let
  // go of its finished jobs, or fewer because of an exception or because at some
  // moment of the pass no row was to be had.
  ghost predicate CapacityUsed(cfg: Config, before: Run, after: Run, w: nat, ids: seq<nat>, raised: bool)
    requires Extends(before, after)
  {
    exists m :: |before.steps| < m <= |after.steps| && Harvested(after, m, w)
      && var busy := |after.states[m].workers[w].inFlight|;
      (ids != [] ==> |ids| <= cfg.concurrency - busy)
      && (|ids| < cfg.concurrency - busy ==> raised || FoundNothing(before, after))
  }

  ghost predicate Harvested(r: Run, m: nat, w: nat)
    requires WellFormed(r) && 0 < m <= |r.steps|
  {
    r.steps[m - 1].Harvest? && r.steps[m - 1].w == w && w in r.states[m].workers
  }

  lemma UsedAround(cfg: Config, from: Run, before: Run, after: Run, to: Run, w: nat, ids: seq<nat>, raised: bool)
    requires Around(from, before, after, to) && CapacityUsed(cfg, before, after, w, ids, raised)
    ensures Extends(from, to) && CapacityUsed(cfg, from, to, w, ids, raised)
  {
    var m :| |before.steps| < m <= |after.steps| && Harvested(after, m, w)
      && var busy := |after.states[m].workers[w].inFlight|;
      (ids != [] ==> |ids| <= cfg.concurrency - busy)
      && (|ids| < cfg.concurrency - busy ==> raised || FoundNothing(before, after));
    assert Harvested(to, m, w) && to.states[m] == after.states[m];
    if FoundNothing(before, after) { FoundAround(from, before, after, to); }
  }

  lemma UsedSince(cfg: Config, before: Run, harvested: Run, after: Run, w: nat, ids: seq<nat>, raised: bool)
    requires Extends(before, harvested) && Extends(harvested, after) && |before.steps| < |harvested.steps|
    requires Harvested(harvested, |harvested.steps|, w)
    requires var capacity := FreeCapacity(cfg, harvested.Last().workers[w]);
      |ids| <= capacity && (|ids| < capacity ==> raised || FoundNothing(harvested, after))
    ensures Extends(before, after) && CapacityUsed(cfg, before, after, w, ids, raised)
  {
    assert Harvested(after, |harvested.steps|, w);
    if FoundNothing(harvested, after) { FoundAround(before, harvested, after, after); }
  }

  method HarvestAndFill(sys: System, w: nat) returns (claimedAny: bool, ghost ids: seq<nat>, ghost raised: bool)
    requires AtTop(sys, w)
    modifies sys
    ensures AtTop(sys, w) && InPass(old(sys.run), sys.run, w)
    ensures claimedAny <==> ids != []
    ensures ClaimedInTurn(old(sys.run), sys.run, w, ids)
    ensures CapacityUsed(sys.cfg, old(sys.run), sys.run, w, ids, raised)
  {
    hide ClaimedInTurn, CapacityUsed, LockedOldest, FoundNothing;
    HarvestDone(sys, w);
    ghost var harvested := sys.run;
    var claimed, failed, found := FillCapacity(sys, w);
    claimedAny, ids, raised := claimed > 0, found, failed;
    ClaimedAround(old(sys.run), harvested, sys.run, sys.run, w, ids);
    UsedSince(sys.cfg, old(sys.run), harvested, sys.run, w, ids, raised);
  }

  // The rows that a moment of the stretch had left behind have been refused.
  ghost predicate Recovered(cfg: Config, before: Run, after: Run)
    requires Extends(before, after)
  {
    exists m :: |before.steps| <= m < |after.states| && RefusedSince(cfg, after, m)
  }

  ghost predicate RefusedSince(cfg: Config, r: Run, m: nat)
    requires m < |r.states|
  {
    forall id :: LeftBehind(cfg, r.states[m], id) ==> Refused(r.Last(), id)
  }

  // The sweep at the end of a pass, with the others moving before it.
  method SweepIfDue(sys: System, w: nat, due: bool, answered: bool) returns (clean: bool)
    requires AtTop(sys, w)
    modifies sys
    ensures AtTop(sys, w) && Extends(old(sys.run), sys.run)
    ensures if due && answered then QueriedIn(old(sys.run), sys.run, w) else InPass(old(sys.run), sys.run, w)
    ensures clean ==> due && answered && Recovered(sys.cfg, old(sys.run), sys.run)
  {
    hide LeftBehind, Refused;
    Meanwhile(sys, w);
    clean := false;
    if due {
      ghost var mid := sys.run;
      clean := SweepStale(sys, w, answered);
      assert sys.run.states[|mid.steps|] == mid.Last();
      assert clean ==> RefusedSince(sys.cfg, sys.run, |mid.steps|);
    }
  }

  lemma QueriedAround(from: Run, before: Run, after: Run, w: nat)
    requires Extends(from, before) && Extends(before, after) && QueriedIn(before, after, w)
    ensures QueriedIn(from, after, w)
  {
    var i :| |before.steps| <= i < |after.steps| && after.steps[i].SweepQuery? && after.steps[i].w == w;
  }

  lemma RecoveredAround(cfg: Config, from: Run, before: Run, after: Run)
    requires Extends(from, before) && Extends(before, after) && Recovered(cfg, before, after)
    ensures Extends(from, after) && Recovered(cfg, from, after)
  {
    var m :| |before.steps| <= m < |after.states| && RefusedSince(cfg, after, m);
  }

  // One pass of the loop: claims first, then the sweep, if the last one began
  // longer ago than a quarter of the lifetime and than a minute. The pool never
  // holds more jobs than it has threads, so that no claimed row waits in its queue.
  method LoopPass(sys: System, w: nat, now: real, lastSweep: real, answered: bool)
    returns (claimedAny: bool, sweptAt: real, clean: bool, ghost ids: seq<nat>, ghost raised: bool)
    requires AtTop(sys, w)
    modifies sys
    ensures AtTop(sys, w) && Extends(old(sys.run), sys.run)
    ensures claimedAny <==> ids != []
    ensures ClaimedInTurn(old(sys.run), sys.run, w, ids)
    ensures CapacityUsed(sys.cfg, old(sys.run), sys.run, w, ids, raised)
    ensures LiveJobs(sys.Now(), w) <= sys.Now().workers[w].inFlight
    ensures |sys.Now().workers[w].inFlight| <= sys.cfg.concurrency
    ensures var due := now > lastSweep + 60.0 && 4.0 * (now - lastSweep) > sys.cfg.lifetime as real;
      && sweptAt == (if due then now else lastSweep)
      && (if due && answered then QueriedIn(old(sys.run), sys.run, w) else InPass(old(sys.run), sys.run, w))
      && (clean ==> due && answered && Recovered(sys.cfg, old(sys.run), sys.run))
  {
    hide ClaimedInTurn, CapacityUsed, LockedOldest, FoundNothing, Recovered, QueriedIn;
    Meanwhile(sys, w);
    ghost var top := sys.run;
    claimedAny, ids, raised := HarvestAndFill(sys, w);
    ghost var filled := sys.run;
    var due := now - lastSweep > SweepInterval(sys.cfg);
    clean := SweepIfDue(sys, w, due, answered);
    sweptAt := if due then now else lastSweep;
    if due && answered { QueriedAround(old(sys.run), filled, sys.run, w); }
    if clean { RecoveredAround(sys.cfg, old(sys.run), filled, sys.run); }
    ClaimedAround(old(sys.run), top, filled, sys.run, w, ids);
    UsedAround(sys.cfg, old(sys.run), top, filled, sys.run, w, ids, raised);
    LiveInFlight(sys.cfg, sys.run, w);
  }

  function SweepInterval(cfg: Config): real {
    var quarter := cfg.lifetime as real / 4.0;
    if quarter > 60.0 then quarter else 60.0
  }
}
