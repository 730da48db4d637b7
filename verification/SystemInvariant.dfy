// The invariant of the whole system and that every step keeps it. Each part
// names the components of the state it speaks of, so that a step that leaves
// them alone keeps it for free.
module SystemInvariant {
  import opened Wrappers
  import opened Policy
  import opened ScanTable
  import opened Protocol
  import opened RowInvariant

  type Entries = seq<Entry>
  type Threads = map<Actor, Thread>
  type Workers = map<nat, Worker>

  ghost predicate TableOk(es: Entries) {
    forall i :: 0 <= i < |es| ==> EntryOk(es[i])
  }

  // The columns that a re-scan copies and that name the scanned content.
  ghost predicate SameFile(a: Row, b: Row) {
    a.file == b.file && a.sha256 == b.sha256 && a.mode == b.mode
  }

  ghost predicate ParentOk(es: Entries, i: int)
    requires 0 <= i < |es|
  {
    var row := es[i].row;
    row.parent.Some? ==> row.parent.value < i && SameFile(row, es[row.parent.value].row)
  }

  ghost predicate RescanOk(es: Entries, r: Rescan) {
    r.parent < |es| && SameFile(r.original, es[r.parent].row)
  }

  ghost predicate ParentsOk(es: Entries) {
    forall i :: 0 <= i < |es| ==> ParentOk(es, i)
  }

  ghost predicate RescansOk(es: Entries, rescans: map<nat, Rescan>) {
    forall p :: p in rescans ==> RescanOk(es, rescans[p])
  }

  ghost predicate Placed(es: Entries, a: Actor, t: Thread) {
    && t.target < |es|
    && ThreadOk(t, es[t.target])
    && (a.Job? ==> t.target == a.id && !t.sweeping)
    && (a.Sweep? ==> t.worker == a.worker && t.sweeping)
  }

  ghost predicate ThreadsOk(es: Entries, ts: Threads) {
    forall a :: a in ts ==> Placed(es, a, ts[a])
  }

  // A job's worker counts it as in flight.
  ghost predicate OwnersOk(ts: Threads, ws: Workers) {
    forall a :: a in ts ==> ts[a].worker in ws && (a.Job? ==> a.id in ws[ts[a].worker].inFlight)
  }

  // Every second since the claim is charged to exactly one of a job's counters.
  ghost predicate Timed(clock: int, es: Entries, a: Actor, t: Thread) {
    a.Job? ==>
      t.target < |es| && es[t.target].row.startedAt.Some?
      && clock - es[t.target].row.startedAt.value == t.fetchUsed + t.scanUsed + t.localUsed
  }

  ghost predicate TimesOk(clock: int, es: Entries, ts: Threads) {
    forall a :: a in ts ==> Timed(clock, es, a, ts[a])
  }

  ghost predicate Claims(k: Worker, id: nat) {
    k.claim.Some? && k.claim.value.id == id
  }

  ghost predicate WorkerOk(cfg: Config, clock: int, es: Entries, k: Worker) {
    && |k.inFlight| + k.budget <= cfg.concurrency
    && (k.claim.Some? ==>
          k.budget > 0 && k.claim.value.since <= clock
          && k.claim.value.id < |es| && es[k.claim.value.id].row.status == RECEIVED)
    && (forall i :: 0 <= i < |k.queue| ==> k.queue[i] < |es| && es[k.queue[i]].row.status != RECEIVED)
  }

  ghost predicate WorkersOk(cfg: Config, clock: int, es: Entries, ws: Workers) {
    forall w :: w in ws ==> WorkerOk(cfg, clock, es, ws[w])
  }

  ghost predicate ClaimsDistinct(ws: Workers) {
    forall v, w, id :: v in ws && w in ws && Claims(ws[v], id) && Claims(ws[w], id) ==> v == w
  }

  ghost predicate Inv(cfg: Config, s: State) {
    && TableOk(s.entries)
    && ParentsOk(s.entries)
    && RescansOk(s.entries, s.rescans)
    && ThreadsOk(s.entries, s.threads)
    && OwnersOk(s.threads, s.workers)
    && TimesOk(s.clock, s.entries, s.threads)
    && WorkersOk(cfg, s.clock, s.entries, s.workers)
    && ClaimsDistinct(s.workers)
  }

  lemma InitialOk(cfg: Config, s: State)
    requires Initial(s)
    ensures Inv(cfg, s)
  {}

  // ---------------------------------------------------------------------------
  // One row changes
  // ---------------------------------------------------------------------------

  // The parts that see a row only through its file, parent, start time and
  // whether it is RECEIVED.
  lemma RowChangeKeeps(cfg: Config, s: State, id: nat, e': Entry)
    requires Inv(cfg, s) && id < |s.entries| && EntryOk(e') && Evolves(s.entries[id], e')
    ensures var es := s.entries[id := e'];
      && TableOk(es) && ParentsOk(es) && RescansOk(es, s.rescans)
      && TimesOk(s.clock, es, s.threads) && WorkersOk(cfg, s.clock, es, s.workers)
  {
    var es := s.entries[id := e'];
    forall i | 0 <= i < |es| ensures ParentOk(es, i) { assert ParentOk(s.entries, i); }
    forall p | p in s.rescans ensures RescanOk(es, s.rescans[p]) { assert RescanOk(s.entries, s.rescans[p]); }
    forall a | a in s.threads ensures Timed(s.clock, es, a, s.threads[a]) {
      assert Timed(s.clock, s.entries, a, s.threads[a]);
    }
    forall w | w in s.workers ensures WorkerOk(cfg, s.clock, es, s.workers[w]) {
      assert WorkerOk(cfg, s.clock, s.entries, s.workers[w]);
    }
  }

  lemma AdvanceKeeps(cfg: Config, s: State, actor: Actor, a: Answer)
    requires Inv(cfg, s) && Enabled(cfg, s, Advance(actor, a))
    ensures Inv(cfg, Apply(cfg, s, Advance(actor, a)))
  {
    hide EntryOk, ThreadOk, Evolves, Swept;
    var t := s.threads[actor];
    var e := s.entries[t.target];
    assert Placed(s.entries, actor, t);
    AdvancedKeeps(cfg, t, e, a);
    AdvancedCounters(cfg, t, e, a);
    var (t', e') := Advanced(cfg, t, e, a);
    RowChangeKeeps(cfg, s, t.target, e');
    MoveKeepsThreads(cfg, s, actor, t', e');
    MoveKeepsWorkers(cfg, s, actor, t', e', a.Raised?, Gone(s, t, a));
  }

  lemma AdvancedCounters(cfg: Config, t: Thread, e: Entry, a: Answer)
    requires AnswerFits(t, e, a)
    ensures var t' := Advanced(cfg, t, e, a).0;
      t'.fetchUsed == t.fetchUsed && t'.scanUsed == t.scanUsed && t'.localUsed == t.localUsed
  {}

  lemma MoveKeepsThreads(cfg: Config, s: State, actor: Actor, t': Thread, e': Entry)
    requires Inv(cfg, s) && actor in s.threads && s.threads[actor].target < |s.entries|
    requires var t := s.threads[actor]; var e := s.entries[t.target];
      && t'.target == t.target && t'.worker == t.worker && t'.sweeping == t.sweeping
      && t'.fetchUsed == t.fetchUsed && t'.scanUsed == t.scanUsed && t'.localUsed == t.localUsed
      && ThreadOk(t', e') && Evolves(e, e') && (t.sweeping ==> Swept(e, e'))
    ensures ThreadsOk(s.entries[t'.target := e'], s.threads[actor := t'])
    ensures TimesOk(s.clock, s.entries[t'.target := e'], s.threads[actor := t'])
    ensures OwnersOk(s.threads[actor := t'], s.workers)
  {
    var t := s.threads[actor];
    var es := s.entries[t.target := e'];
    var ts := s.threads[actor := t'];
    assert Placed(s.entries, actor, t) && Timed(s.clock, s.entries, actor, t);
    forall b | b in ts ensures Placed(es, b, ts[b]) && Timed(s.clock, es, b, ts[b]) {
      if b != actor {
        assert Placed(s.entries, b, ts[b]) && Timed(s.clock, s.entries, b, ts[b]);
        if ts[b].target == t.target {
          OtherThreadKeeps(ts[b], s.entries[t.target], e');
        }
      }
    }
  }

  // A move leaves every worker's record alone but for the error flag.
  lemma MovedWorkers(s: State, actor: Actor, t': Thread, e': Entry, raised: bool, gone: set<(string, string)>)
    requires actor in s.threads && s.threads[actor].target < |s.entries|
    requires actor.Sweep? ==> actor.worker in s.workers
    ensures var ws := Moved(s, actor, t', e', raised, gone).workers;
      ws.Keys == s.workers.Keys && forall w :: w in ws ==> ws[w] == s.workers[w].(cleanPass := ws[w].cleanPass)
  {}

  lemma MoveKeepsWorkers(cfg: Config, s: State, actor: Actor, t': Thread, e': Entry, raised: bool,
                         gone: set<(string, string)>)
    requires Inv(cfg, s) && actor in s.threads && s.threads[actor].target < |s.entries|
    requires t'.target == s.threads[actor].target
    requires actor.Sweep? ==> actor.worker in s.workers
    requires WorkersOk(cfg, s.clock, s.entries[t'.target := e'], s.workers)
    requires OwnersOk(s.threads[actor := t'], s.workers)
    ensures var s' := Moved(s, actor, t', e', raised, gone);
      WorkersOk(cfg, s'.clock, s'.entries, s'.workers) && ClaimsDistinct(s'.workers) && OwnersOk(s'.threads, s'.workers)
  {
    var s' := Moved(s, actor, t', e', raised, gone);
    MovedWorkers(s, actor, t', e', raised, gone);
    forall w | w in s'.workers ensures WorkerOk(cfg, s'.clock, s'.entries, s'.workers[w]) {
      assert WorkerOk(cfg, s.clock, s'.entries, s.workers[w]);
    }
    forall w, id | w in s'.workers && Claims(s'.workers[w], id) ensures Claims(s.workers[w], id) {}
  }

  // ---------------------------------------------------------------------------
  // The environment and the API
  // ---------------------------------------------------------------------------

  lemma TickKeeps(cfg: Config, s: State, seconds: nat)
    requires Inv(cfg, s)
    ensures Inv(cfg, s.(clock := s.clock + seconds, threads := AllCharged(s.threads, seconds)))
  {
    TickKeepsThreads(s.clock, s.entries, s.threads, s.workers, seconds);
    forall w | w in s.workers ensures WorkerOk(cfg, s.clock + seconds, s.entries, s.workers[w]) {
      assert WorkerOk(cfg, s.clock, s.entries, s.workers[w]);
    }
  }

  lemma TickKeepsThreads(clock: int, es: Entries, ts: Threads, ws: Workers, seconds: nat)
    requires ThreadsOk(es, ts) && TimesOk(clock, es, ts) && OwnersOk(ts, ws)
    ensures var ts' := AllCharged(ts, seconds);
      ThreadsOk(es, ts') && TimesOk(clock + seconds, es, ts') && OwnersOk(ts', ws)
  {
    var ts' := AllCharged(ts, seconds);
    forall a | a in ts'
      ensures Placed(es, a, ts'[a]) && Timed(clock + seconds, es, a, ts'[a])
    {
      assert Placed(es, a, ts[a]) && Timed(clock, es, a, ts[a]);
      ChargedOk(ts[a], es[ts[a].target], seconds);
    }
  }

  lemma ChargedOk(t: Thread, e: Entry, seconds: nat)
    requires ThreadOk(t, e)
    ensures ThreadOk(Charged(t, seconds), e)
  {}

  function Forgotten(es: Entries, scanner: nat): (r: Entries)
    ensures |r| == |es|
    ensures forall i :: 0 <= i < |es| ==> r[i] == es[i].(results := Forget(es[i].results, scanner))
  {
    seq(|es|, i requires 0 <= i < |es| => es[i].(results := Forget(es[i].results, scanner)))
  }

  lemma ForgottenTable(es: Entries, ts: Threads, scanner: nat)
    requires TableOk(es) && ThreadsOk(es, ts) && ParentsOk(es)
    ensures var es' := Forgotten(es, scanner); TableOk(es') && ThreadsOk(es', ts) && ParentsOk(es')
  {
    var es' := Forgotten(es, scanner);
    forall i | 0 <= i < |es'| ensures EntryOk(es'[i]) && ParentOk(es', i) {
      ForgetKeeps(es[i], NewSweep(es[i], i, 0), scanner);
      assert ParentOk(es, i);
    }
    forall a | a in ts ensures Placed(es', a, ts[a]) {
      assert Placed(es, a, ts[a]);
      ForgetKeeps(es[ts[a].target], ts[a], scanner);
    }
  }

  // Parts that do not look at the results.
  lemma SameRowsKeep(cfg: Config, s: State, es': Entries)
    requires Inv(cfg, s) && |es'| == |s.entries| && forall i :: 0 <= i < |es'| ==> es'[i].row == s.entries[i].row
    ensures RescansOk(es', s.rescans) && TimesOk(s.clock, es', s.threads) && WorkersOk(cfg, s.clock, es', s.workers)
  {
    forall p | p in s.rescans ensures RescanOk(es', s.rescans[p]) { assert RescanOk(s.entries, s.rescans[p]); }
    forall a | a in s.threads ensures Timed(s.clock, es', a, s.threads[a]) {
      assert Timed(s.clock, s.entries, a, s.threads[a]);
    }
    forall w | w in s.workers ensures WorkerOk(cfg, s.clock, es', s.workers[w]) {
      assert WorkerOk(cfg, s.clock, s.entries, s.workers[w]);
    }
  }

  lemma ScannerDeletedKeeps(cfg: Config, s: State, scanner: nat)
    requires Inv(cfg, s)
    ensures Inv(cfg, s.(entries := Forgotten(s.entries, scanner)))
  {
    ForgottenTable(s.entries, s.threads, scanner);
    SameRowsKeep(cfg, s, Forgotten(s.entries, scanner));
  }

  // A row is appended; nothing else moves but a re-scan request that ends.
  lemma InsertKeeps(cfg: Config, s: State, s': State, row: Row)
    requires Inv(cfg, s)
    requires s' == s.(entries := s.entries + [Inserted(row)], rescans := s'.rescans)
    requires forall p :: p in s'.rescans ==> p in s.rescans && s'.rescans[p] == s.rescans[p]
    requires IsSha256(row.sha256) && row == NewRow(row.file, row.mode, row.parent, row.createdAt, row.sha256)
    requires row.parent.Some? ==> row.parent.value < |s.entries| && SameFile(row, s.entries[row.parent.value].row)
    ensures Inv(cfg, s')
  {
    var es, es' := s.entries, s'.entries;
    forall i | 0 <= i < |es'| ensures ParentOk(es', i) && EntryOk(es'[i]) {
      if i < |es| { assert ParentOk(es, i) && es'[i] == es[i]; }
    }
    forall p | p in s'.rescans ensures RescanOk(es', s'.rescans[p]) { assert RescanOk(es, s.rescans[p]); }
    forall a | a in s.threads ensures Placed(es', a, s.threads[a]) && Timed(s.clock, es', a, s.threads[a]) {
      assert Placed(es, a, s.threads[a]) && Timed(s.clock, es, a, s.threads[a]);
    }
    forall w | w in s.workers ensures WorkerOk(cfg, s.clock, es', s.workers[w]) {
      assert WorkerOk(cfg, s.clock, es, s.workers[w]);
    }
  }

  lemma InsertionKeeps(cfg: Config, s: State, step: Step)
    requires Inv(cfg, s) && Enabled(cfg, s, step)
    requires step.Submit? || step.RescanInsert?
    ensures Inv(cfg, Apply(cfg, s, step))
  {
    if step.Submit? {
      InsertKeeps(cfg, s, Apply(cfg, s, step), NewRow(step.file, step.mode, None, s.clock, step.sha256));
    } else {
      assert RescanOk(s.entries, s.rescans[step.panel]);
      InsertKeeps(cfg, s, Apply(cfg, s, step), RescanRow(s.rescans[step.panel], s.clock));
    }
  }

  // ---------------------------------------------------------------------------
  // The worker loop
  // ---------------------------------------------------------------------------

  lemma {:induction false} SubsetSize(a: set<nat>, b: set<nat>)
    requires a <= b
    ensures |a| <= |b|
  {
    if a == {} {
    } else {
      var x :| x in a;
      SubsetSize(a - {x}, b - {x});
    }
  }

  // One worker's record changes; table and threads stay.
  lemma WorkerChangeKeeps(cfg: Config, s: State, w: nat, k: Worker)
    requires Inv(cfg, s)
    requires WorkerOk(cfg, s.clock, s.entries, k)
    requires forall a :: a in s.threads && a.Job? && s.threads[a].worker == w ==> a.id in k.inFlight
    requires forall v, id :: v in s.workers && v != w && Claims(s.workers[v], id) ==> !Claims(k, id)
    ensures Inv(cfg, s.(workers := s.workers[w := k]))
  {
    var ws := s.workers[w := k];
    forall v | v in ws ensures WorkerOk(cfg, s.clock, s.entries, ws[v]) {
      if v != w { assert WorkerOk(cfg, s.clock, s.entries, s.workers[v]); }
    }
  }

  lemma OwnJobsInFlight(cfg: Config, s: State, w: nat)
    requires Inv(cfg, s)
    ensures forall a :: a in s.threads && a.Job? && s.threads[a].worker == w ==>
      w in s.workers && a.id in s.workers[w].inFlight
  {}

  lemma HarvestKeeps(cfg: Config, s: State, w: nat, kept: set<nat>)
    requires Inv(cfg, s) && Enabled(cfg, s, Harvest(w, kept))
    ensures Inv(cfg, Apply(cfg, s, Harvest(w, kept)))
  {
    assert WorkerOk(cfg, s.clock, s.entries, s.workers[w]);
    SubsetSize(kept, s.workers[w].inFlight);
    forall a | a in s.threads && a.Job? && s.threads[a].worker == w ensures a.id in kept {
      assert a.id in LiveJobs(s, w);
    }
    WorkerChangeKeeps(cfg, s, w, Apply(cfg, s, Harvest(w, kept)).workers[w]);
  }

  lemma ClaimLockKeeps(cfg: Config, s: State, w: nat, id: nat)
    requires Inv(cfg, s) && Enabled(cfg, s, ClaimLock(w, id))
    ensures Inv(cfg, Apply(cfg, s, ClaimLock(w, id)))
  {
    assert WorkerOk(cfg, s.clock, s.entries, s.workers[w]);
    OwnJobsInFlight(cfg, s, w);
    assert !Locked(s, id);
    WorkerChangeKeeps(cfg, s, w, Apply(cfg, s, ClaimLock(w, id)).workers[w]);
  }

  // Steps that only clear the claim, the budget or the queue.
  lemma LetGoKeeps(cfg: Config, s: State, step: Step)
    requires Inv(cfg, s) && Enabled(cfg, s, step)
    requires step.ClaimBreak? || (step.ClaimLost? && !step.committed) || step.WorkerStart?
    ensures Inv(cfg, Apply(cfg, s, step))
  {
    var w := step.w;
    if w in s.workers { assert WorkerOk(cfg, s.clock, s.entries, s.workers[w]); }
    OwnJobsInFlight(cfg, s, w);
    WorkerChangeKeeps(cfg, s, w, Apply(cfg, s, step).workers[w]);
  }

  lemma SweepQueryKeeps(cfg: Config, s: State, w: nat, found: seq<nat>)
    requires Inv(cfg, s) && Enabled(cfg, s, SweepQuery(w, found))
    ensures Inv(cfg, Apply(cfg, s, SweepQuery(w, found)))
  {
    assert WorkerOk(cfg, s.clock, s.entries, s.workers[w]);
    OwnJobsInFlight(cfg, s, w);
    forall i | 0 <= i < |found| ensures found[i] < |s.entries| && InProgress(s.entries[found[i]].row.status) {
      assert found[i] in found;
      assert StaleNow(cfg, s, found[i]);
    }
    WorkerChangeKeeps(cfg, s, w, Apply(cfg, s, SweepQuery(w, found)).workers[w]);
  }

  lemma WorkerCrashKeeps(cfg: Config, s: State, w: nat)
    requires Inv(cfg, s) && Enabled(cfg, s, WorkerCrash(w))
    ensures Inv(cfg, Apply(cfg, s, WorkerCrash(w)))
  {
    var s' := Apply(cfg, s, WorkerCrash(w));
    forall v | v in s'.workers ensures WorkerOk(cfg, s.clock, s.entries, s'.workers[v]) {
      assert WorkerOk(cfg, s.clock, s.entries, s.workers[v]);
    }
  }

  lemma ClaimedOk(e: Entry, id: nat, w: nat, since: int, waited: nat)
    requires EntryOk(e) && e.row.status == RECEIVED
    ensures EntryOk(Claimed(e, since))
    ensures var e' := Claimed(e, since); ThreadOk(NewJob(e', id, w, waited), e')
  {}

  // No thread and no queued sweep touches a row that is still RECEIVED.
  lemma ReceivedIsIdle(cfg: Config, s: State, id: nat)
    requires Inv(cfg, s) && id < |s.entries| && s.entries[id].row.status == RECEIVED
    ensures forall a :: a in s.threads ==> s.threads[a].target != id && a != Job(id)
  {
    forall a | a in s.threads ensures s.threads[a].target != id && a != Job(id) {
      assert Placed(s.entries, a, s.threads[a]);
    }
  }

  // The row leaves RECEIVED when a claim commits, heard or not.
  lemma ClaimedRowKeeps(cfg: Config, s: State, w: nat)
    requires Inv(cfg, s) && w in s.workers && s.workers[w].claim.Some?
    ensures var c := s.workers[w].claim.value;
      && c.id < |s.entries| && s.entries[c.id].row.status == RECEIVED
      && var es := s.entries[c.id := Claimed(s.entries[c.id], c.since)];
      && TableOk(es) && ParentsOk(es) && RescansOk(es, s.rescans)
      && ThreadsOk(es, s.threads) && TimesOk(s.clock, es, s.threads)
      && forall v :: v in s.workers && v != w ==> WorkerOk(cfg, s.clock, es, s.workers[v])
  {
    assert WorkerOk(cfg, s.clock, s.entries, s.workers[w]);
    var c := s.workers[w].claim.value;
    var es := s.entries[c.id := Claimed(s.entries[c.id], c.since)];
    ReceivedIsIdle(cfg, s, c.id);
    ClaimedOk(s.entries[c.id], c.id, w, c.since, 0);
    forall i | 0 <= i < |es| ensures ParentOk(es, i) { assert ParentOk(s.entries, i); }
    forall p | p in s.rescans ensures RescanOk(es, s.rescans[p]) { assert RescanOk(s.entries, s.rescans[p]); }
    forall a | a in s.threads ensures Placed(es, a, s.threads[a]) && Timed(s.clock, es, a, s.threads[a]) {
      assert Placed(s.entries, a, s.threads[a]) && Timed(s.clock, s.entries, a, s.threads[a]);
    }
    forall v | v in s.workers && v != w ensures WorkerOk(cfg, s.clock, es, s.workers[v]) {
      assert WorkerOk(cfg, s.clock, s.entries, s.workers[v]);
      assert Claims(s.workers[w], c.id);
      assert !Claims(s.workers[v], c.id);
    }
  }

  lemma ClaimLostKeeps(cfg: Config, s: State, w: nat)
    requires Inv(cfg, s) && Claiming(s, w)
    ensures Inv(cfg, LoseClaim(s, w, true))
  {
    var s' := LoseClaim(s, w, true);
    ClaimedRowKeeps(cfg, s, w);
    assert WorkerOk(cfg, s.clock, s.entries, s.workers[w]);
    forall v | v in s'.workers ensures WorkerOk(cfg, s'.clock, s'.entries, s'.workers[v]) {}
    forall v, id | v in s'.workers && Claims(s'.workers[v], id) ensures Claims(s.workers[v], id) {}
  }

  lemma ClaimCommitKeeps(cfg: Config, s: State, w: nat)
    requires Inv(cfg, s) && Claiming(s, w) && s.workers[w].budget > 0
    ensures Inv(cfg, CommitClaim(s, w))
  {
    var s' := CommitClaim(s, w);
    ClaimedRowKeeps(cfg, s, w);
    ClaimCommitKeepsThreads(cfg, s, w);
    assert WorkerOk(cfg, s.clock, s.entries, s.workers[w]);
    forall v | v in s'.workers ensures WorkerOk(cfg, s'.clock, s'.entries, s'.workers[v]) {}
    forall v, id | v in s'.workers && Claims(s'.workers[v], id) ensures Claims(s.workers[v], id) {}
  }

  lemma ClaimCommitKeepsThreads(cfg: Config, s: State, w: nat)
    requires Inv(cfg, s) && Claiming(s, w) && s.workers[w].budget > 0
    ensures var s' := CommitClaim(s, w);
      && ThreadsOk(s'.entries, s'.threads) && TimesOk(s'.clock, s'.entries, s'.threads)
      && OwnersOk(s'.threads, s'.workers)
  {
    hide EntryOk, ThreadOk, Evolves;
    var s' := CommitClaim(s, w);
    var c := s.workers[w].claim.value;
    ClaimedRowKeeps(cfg, s, w);
    assert WorkerOk(cfg, s.clock, s.entries, s.workers[w]);
    ClaimedOk(s.entries[c.id], c.id, w, c.since, s.clock - c.since);
    var job := s'.threads[Job(c.id)];
    assert s'.threads == s.threads[Job(c.id) := job];
    assert Placed(s'.entries, Job(c.id), job) && Timed(s'.clock, s'.entries, Job(c.id), job);
  }

  lemma SweepNextKeeps(cfg: Config, s: State, w: nat)
    requires Inv(cfg, s) && SweepWaiting(s, w)
    ensures Inv(cfg, NextStale(s, w))
  {
    SweepNextWorkers(cfg, s, w);
    SweepNextThreads(cfg, s, w);
  }

  lemma SweepNextThreads(cfg: Config, s: State, w: nat)
    requires ThreadsOk(s.entries, s.threads) && OwnersOk(s.threads, s.workers) && TimesOk(s.clock, s.entries, s.threads)
    requires SweepWaiting(s, w) && WorkerOk(cfg, s.clock, s.entries, s.workers[w])
    ensures var s' := NextStale(s, w);
      ThreadsOk(s.entries, s'.threads) && OwnersOk(s'.threads, s'.workers) && TimesOk(s.clock, s.entries, s'.threads)
  {
    var id := s.workers[w].queue[0];
    var t := NewSweep(s.entries[id], id, w);
    HarmlessThread(t, s.entries[id]);
    assert Placed(s.entries, Sweep(w), t);
  }

  lemma SweepNextWorkers(cfg: Config, s: State, w: nat)
    requires WorkersOk(cfg, s.clock, s.entries, s.workers) && ClaimsDistinct(s.workers) && SweepWaiting(s, w)
    ensures var ws := NextStale(s, w).workers; WorkersOk(cfg, s.clock, s.entries, ws) && ClaimsDistinct(ws)
  {
    var s' := NextStale(s, w);
    forall v | v in s'.workers ensures WorkerOk(cfg, s.clock, s.entries, s'.workers[v]) {
      assert WorkerOk(cfg, s.clock, s.entries, s.workers[v]);
    }
    forall v, id' | v in s'.workers && Claims(s'.workers[v], id') ensures Claims(s.workers[v], id') {}
  }

  // Steps that move neither a row nor a worker.
  lemma NeutralKeeps(cfg: Config, s: State, step: Step)
    requires Inv(cfg, s) && Enabled(cfg, s, step)
    requires step.RemoteChange? || step.RescanRead? || step.Retire?
    ensures Inv(cfg, Apply(cfg, s, step))
  {}

  // ---------------------------------------------------------------------------
  // Every step, every reachable state
  // ---------------------------------------------------------------------------

  lemma StepKeeps(cfg: Config, s: State, step: Step)
    requires Inv(cfg, s) && Enabled(cfg, s, step)
    ensures Inv(cfg, Apply(cfg, s, step))
  {
    if step.Advance? {
      AdvanceKeeps(cfg, s, step.actor, step.answer);
    } else if step.Tick? {
      TickKeeps(cfg, s, step.seconds);
    } else if step.ScannerDeleted? {
      ScannerDeletedStepKeeps(cfg, s, step.scanner);
    } else if step.Submit? || step.RescanInsert? {
      InsertionKeeps(cfg, s, step);
    } else if step.RemoteChange? || step.RescanRead? || step.Retire? {
      NeutralKeeps(cfg, s, step);
    } else {
      LoopStepKeeps(cfg, s, step);
    }
  }

  lemma ScannerDeletedStepKeeps(cfg: Config, s: State, scanner: nat)
    requires Inv(cfg, s)
    ensures Inv(cfg, Apply(cfg, s, ScannerDeleted(scanner)))
  {
    ScannerDeletedKeeps(cfg, s, scanner);
    assert Apply(cfg, s, ScannerDeleted(scanner)).entries == Forgotten(s.entries, scanner);
  }

  lemma LoopStepKeeps(cfg: Config, s: State, step: Step)
    requires Inv(cfg, s) && Enabled(cfg, s, step)
    requires step.WorkerStart? || step.WorkerCrash? || step.Harvest? || step.ClaimLock? || step.ClaimBreak?
      || step.ClaimCommit? || step.ClaimLost? || step.SweepQuery? || step.SweepNext?
    ensures Inv(cfg, Apply(cfg, s, step))
  {
    if step.WorkerCrash? {
      WorkerCrashKeeps(cfg, s, step.w);
    } else if step.Harvest? {
      HarvestKeeps(cfg, s, step.w, step.kept);
    } else if step.ClaimLock? {
      ClaimLockKeeps(cfg, s, step.w, step.id);
    } else if step.SweepQuery? {
      SweepQueryKeeps(cfg, s, step.w, step.found);
    } else if step.SweepNext? {
      SweepNextKeeps(cfg, s, step.w);
    } else if step.ClaimCommit? {
      ClaimCommitKeeps(cfg, s, step.w);
    } else if step.ClaimLost? && step.committed {
      ClaimLostKeeps(cfg, s, step.w);
    } else {
      LetGoKeeps(cfg, s, step);
    }
  }

  lemma {:induction false} ReachableInv(cfg: Config, r: Run, k: nat)
    requires r.Valid(cfg) && k < |r.states|
    ensures Inv(cfg, r.states[k])
    decreases k
  {
    if k == 0 {
      InitialOk(cfg, r.states[0]);
    } else {
      ReachableInv(cfg, r, k - 1);
      assert r.Follows(cfg, k - 1);
      StepKeeps(cfg, r.states[k - 1], r.steps[k - 1]);
    }
  }

  lemma PlacedAt(cfg: Config, r: Run, k: nat, a: Actor)
    requires r.Valid(cfg) && k < |r.states| && a in r.states[k].threads
    ensures Placed(r.states[k].entries, a, r.states[k].threads[a])
  {
    ReachableInv(cfg, r, k);
  }
}
