// What one thread does in a stretch of a run: the calls it makes, in order, with
// the answers it gets. Everything else in the stretch is others'.
module Calls {
  import opened Policy
  import opened Protocol
  import opened RowInvariant
  import opened SystemInvariant
  import opened StepEffects
  import opened Runs
  import opened CrashRecovery

  datatype Call = Call(pc: Pc, answer: Answer)

  function CallIn(s: State, step: Step, a: Actor): seq<Call> {
    if MovesThread(step, a) && a in s.threads then [Call(s.threads[a].pc, step.answer)] else []
  }

  ghost predicate WellFormed(r: Run) {
    |r.states| == |r.steps| + 1
  }

  // The calls of steps i to j.
  ghost function CallsBetween(r: Run, i: nat, j: nat, a: Actor): seq<Call>
    requires WellFormed(r) && i <= j <= |r.steps|
    decreases j - i
  {
    if i == j then [] else CallsBetween(r, i, j - 1, a) + CallIn(r.states[j - 1], r.steps[j - 1], a)
  }

  ghost predicate Extends(before: Run, after: Run) {
    && WellFormed(before) && WellFormed(after) && |before.steps| <= |after.steps|
    && (forall i :: 0 <= i < |before.states| ==> after.states[i] == before.states[i])
    && (forall i :: 0 <= i < |before.steps| ==> after.steps[i] == before.steps[i])
  }

  // The calls since.
  ghost function New(before: Run, after: Run, a: Actor): seq<Call>
    requires Extends(before, after)
  {
    CallsBetween(after, |before.steps|, |after.steps|, a)
  }

  lemma {:induction false} BetweenSplit(r: Run, i: nat, m: nat, j: nat, a: Actor)
    requires WellFormed(r) && i <= m <= j <= |r.steps|
    ensures CallsBetween(r, i, j, a) == CallsBetween(r, i, m, a) + CallsBetween(r, m, j, a)
    decreases j
  {
    if m < j {
      BetweenSplit(r, i, m, j - 1, a);
    } else {
      assert CallsBetween(r, m, j, a) == [];
    }
  }

  lemma {:induction false} BetweenSame(r: Run, r': Run, i: nat, j: nat, a: Actor)
    requires Extends(r, r') && i <= j <= |r.steps|
    ensures CallsBetween(r', i, j, a) == CallsBetween(r, i, j, a)
    decreases j
  {
    if i == j {
      assert CallsBetween(r, i, j, a) == [];
    } else {
      BetweenSame(r, r', i, j - 1, a);
    }
  }

  // Each of the calls is a step of the run.
  lemma {:induction false} CallHappened(r: Run, i: nat, j: nat, a: Actor, n: nat) returns (k: nat)
    requires WellFormed(r) && i <= j <= |r.steps| && n < |CallsBetween(r, i, j, a)|
    ensures i <= k < j && CallIn(r.states[k], r.steps[k], a) == [CallsBetween(r, i, j, a)[n]]
    ensures CallsBetween(r, i, k, a) == CallsBetween(r, i, j, a)[..n]
    decreases j
  {
    var before := CallsBetween(r, i, j - 1, a);
    if n < |before| {
      k := CallHappened(r, i, j - 1, a, n);
    } else {
      k := j - 1;
    }
  }

  predicate NoRaise(calls: seq<Call>) {
    forall c :: c in calls ==> !c.answer.Raised?
  }

  // What the loop that runs a sweep relies on while one of its rows is handled:
  // the pass goes on, and the worker's record changes in nothing but the error
  // flag, which falls only when a call of the sweep raises.
  ghost predicate LoopKept(before: Run, after: Run, w: nat, calls: seq<Call>)
    requires WellFormed(before) && WellFormed(after)
  {
    && w in before.Last().workers && w in after.Last().workers
    && var k, k' := before.Last().workers[w], after.Last().workers[w];
    && k' == k.(cleanPass := k'.cleanPass)
    && (k.cleanPass && NoRaise(calls) ==> k'.cleanPass)
    && (forall i :: |before.steps| <= i < |after.steps| ==> SamePass(after.steps[i], w))
  }

  // `after` goes on from `before`.
  ghost predicate Grew(before: Run, after: Run, a: Actor) {
    Extends(before, after) && (a.Sweep? ==> LoopKept(before, after, a.worker, New(before, after, a)))
  }

  // The run goes on and the thread is still there.
  ghost predicate Went(cfg: Config, before: Run, after: Run, a: Actor) {
    after.Valid(cfg) && a in after.Last().threads && Grew(before, after, a)
  }

  lemma WentThen(cfg: Config, r: Run, r': Run, r'': Run, a: Actor)
    requires Went(cfg, r, r', a) && Went(cfg, r', r'', a)
    ensures Went(cfg, r, r'', a) && New(r, r'', a) == New(r, r', a) + New(r', r'', a)
  {
    BetweenSplit(r'', |r.steps|, |r'.steps|, |r''.steps|, a);
    BetweenSame(r', r'', |r.steps|, |r'.steps|, a);
  }

  // The thread now stands at the point of t, whatever time has passed.
  ghost predicate Came(cfg: Config, before: Run, after: Run, a: Actor, t: Thread) {
    Went(cfg, before, after, a) && SamePoint(t, after.Last().threads[a])
  }

  // It has made exactly these calls on the way.
  ghost predicate Did(cfg: Config, before: Run, after: Run, a: Actor, t: Thread, calls: seq<Call>) {
    Came(cfg, before, after, a, t) && New(before, after, a) == calls
  }

  // An exception has left the code of the thread that stood at t.
  ghost predicate Thrown(cfg: Config, before: Run, after: Run, a: Actor, t: Thread) {
    && Went(cfg, before, after, a)
    && var t' := after.Last().threads[a];
    && t'.pc == (if t.sweeping || t.pc.RecordCrash? then Finished else RecordCrash)
    && t'.sweeping == t.sweeping && t'.target == t.target && t'.worker == t.worker
  }

  // The thread that stood at t has ended, having seen its terminal write commit.
  ghost predicate Ended(cfg: Config, before: Run, after: Run, a: Actor, t: Thread) {
    && Went(cfg, before, after, a)
    && var t' := after.Last().threads[a];
    && t'.pc.Finished? && t'.decided
    && t'.sweeping == t.sweeping && t'.target == t.target && t'.worker == t.worker
  }

  // A stretch in which the thread comes to t', and one in which it then ends or
  // throws.
  lemma ThenEnded(cfg: Config, r: Run, r': Run, r'': Run, a: Actor, t: Thread, t': Thread)
    requires Came(cfg, r, r', a, t') && Came(cfg, r', r'', a, r'.Last().threads[a].(pc := Finished))
    requires t'.decided && t'.sweeping == t.sweeping && t'.target == t.target && t'.worker == t.worker
    ensures Ended(cfg, r, r'', a, t) && New(r, r'', a) == New(r, r', a) + New(r', r'', a)
  {
    WentThen(cfg, r, r', r'', a);
  }

  lemma ThenThrown(cfg: Config, r: Run, r': Run, r'': Run, a: Actor, t: Thread, t': Thread)
    requires Came(cfg, r, r', a, t') && Thrown(cfg, r', r'', a, r'.Last().threads[a])
    requires t'.pc.RecordCrash? == t.pc.RecordCrash? && t'.sweeping == t.sweeping && t'.target == t.target
    requires t'.worker == t.worker
    ensures Thrown(cfg, r, r'', a, t)
  {
    WentThen(cfg, r, r', r'', a);
  }

  lemma Nothing(cfg: Config, r: Run, a: Actor)
    requires r.Valid(cfg) && a in r.Last().threads
    ensures Did(cfg, r, r, a, r.Last().threads[a], [])
  {
    PlacedLast(cfg, r, a);
    assert CallsBetween(r, |r.steps|, |r.steps|, a) == [];
  }

  // ---------------------------------------------------------------------------
  // One step
  // ---------------------------------------------------------------------------

  function Grown(cfg: Config, r: Run, step: Step): Run
    requires |r.states| > 0 && Enabled(cfg, r.Last(), step)
  {
    Run(r.states + [Apply(cfg, r.Last(), step)], r.steps + [step])
  }

  lemma GrownIsValid(cfg: Config, r: Run, step: Step)
    requires r.Valid(cfg) && Enabled(cfg, r.Last(), step)
    ensures var r' := Grown(cfg, r, step);
      r'.Valid(cfg) && Extends(r, r') && r'.Last() == Apply(cfg, r.Last(), step)
  {
    var r' := Grown(cfg, r, step);
    forall i | 0 <= i < |r'.steps| ensures r'.Follows(cfg, i) {
      if i < |r.steps| { assert r.Follows(cfg, i); }
    }
  }

  lemma NewInGrown(cfg: Config, r: Run, step: Step, a: Actor)
    requires r.Valid(cfg) && Enabled(cfg, r.Last(), step) && Extends(r, Grown(cfg, r, step))
    ensures New(r, Grown(cfg, r, step), a) == CallIn(r.Last(), step, a)
  {
    var r' := Grown(cfg, r, step);
    assert CallsBetween(r', |r.steps|, |r.steps|, a) == [];
    assert r'.states[|r.steps|] == r.Last() && r'.steps[|r.steps|] == step;
  }

  // Steps that are neither a thread's own nor, for a sweep, its worker's.
  predicate IsForeign(step: Step, a: Actor, worker: nat) {
    && !MovesThread(step, a) && step != Retire(a) && step != WorkerCrash(worker)
    && (a.Sweep? ==> !ByMainThread(step, a.worker))
  }

  lemma ForeignEffect(cfg: Config, s: State, step: Step, a: Actor)
    requires Inv(cfg, s) && Enabled(cfg, s, step) && a in s.threads && IsForeign(step, a, s.threads[a].worker)
    ensures var s' := Apply(cfg, s, step);
      && a in s'.threads && SamePoint(s.threads[a], s'.threads[a])
      && (a.Sweep? ==> a.worker in s.workers && RecordStays(s, s', a.worker))
  {
    assert Placed(s.entries, a, s.threads[a]);
    ThreadStays(cfg, s, step, a);
    ThreadAfter(cfg, s, step, a);
    if a.Sweep? { WorkerStays(cfg, s, step, a.worker); }
  }

  lemma ForeignStep(cfg: Config, r: Run, step: Step, a: Actor)
    requires r.Valid(cfg) && Enabled(cfg, r.Last(), step)
    requires a in r.Last().threads && IsForeign(step, a, r.Last().threads[a].worker)
    ensures Did(cfg, r, Grown(cfg, r, step), a, r.Last().threads[a], [])
  {
    ForeignEffectLast(cfg, r, step, a);
    GrownIsValid(cfg, r, step);
    NewInGrown(cfg, r, step, a);
    assert a.Sweep? ==> SamePass(step, a.worker);
  }

  lemma ForeignEffectLast(cfg: Config, r: Run, step: Step, a: Actor)
    requires r.Valid(cfg) && Enabled(cfg, r.Last(), step)
    requires a in r.Last().threads && IsForeign(step, a, r.Last().threads[a].worker)
    ensures var s := r.Last(); var s' := Apply(cfg, s, step);
      && a in s'.threads && SamePoint(s.threads[a], s'.threads[a])
      && (a.Sweep? ==> a.worker in s.workers && RecordStays(s, s', a.worker))
  {
    ReachableInv(cfg, r, |r.states| - 1);
    ForeignEffect(cfg, r.Last(), step, a);
  }

  lemma OwnEffect(cfg: Config, s: State, a: Actor, answer: Answer)
    requires a in s.threads && Placed(s.entries, a, s.threads[a]) && s.threads[a].worker in s.workers
    requires AnswerFits(s.threads[a], s.entries[s.threads[a].target], answer) && Truthful(cfg, s, s.threads[a], answer)
    ensures Enabled(cfg, s, Advance(a, answer))
    ensures var s' := Apply(cfg, s, Advance(a, answer)); var t := s.threads[a];
      && a in s'.threads && t.target < |s'.entries|
      && (s'.threads[a], s'.entries[t.target]) == Advanced(cfg, t, s.entries[t.target], answer)
      && s'.workers.Keys == s.workers.Keys
      && (a.Sweep? ==>
            var k := s.workers[a.worker]; s'.workers[a.worker] == k.(cleanPass := k.cleanPass && !answer.Raised?))
  {}

  lemma OwnStep(cfg: Config, r: Run, a: Actor, answer: Answer)
    requires r.Valid(cfg) && a in r.Last().threads
    requires Placed(r.Last().entries, a, r.Last().threads[a]) && r.Last().threads[a].worker in r.Last().workers
    requires var t := r.Last().threads[a];
      AnswerFits(t, r.Last().entries[t.target], answer) && Truthful(cfg, r.Last(), t, answer)
    ensures Enabled(cfg, r.Last(), Advance(a, answer))
    ensures var t := r.Last().threads[a]; var r' := Grown(cfg, r, Advance(a, answer));
      && Did(cfg, r, r', a, Advanced(cfg, t, r.Last().entries[t.target], answer).0, [Call(t.pc, answer)])
      && t.target < |r'.Last().entries|
      && r'.Last().entries[t.target] == Advanced(cfg, t, r.Last().entries[t.target], answer).1
  {
    hide AnswerFits, Truthful, Advanced;
    OwnEffect(cfg, r.Last(), a, answer);
    GrownIsValid(cfg, r, Advance(a, answer));
    NewInGrown(cfg, r, Advance(a, answer), a);
  }

  lemma PlacedLast(cfg: Config, r: Run, a: Actor)
    requires r.Valid(cfg) && a in r.Last().threads
    ensures Placed(r.Last().entries, a, r.Last().threads[a]) && r.Last().threads[a].worker in r.Last().workers
    ensures EntryOk(r.Last().entries[r.Last().threads[a].target])
    ensures a.Sweep? ==> a.worker in r.Last().workers
  {
    ReachableInv(cfg, r, |r.states| - 1);
    assert Placed(r.Last().entries, a, r.Last().threads[a]);
  }

  // An answer does not see how much time a thread has used, nor, but for a
  // status, the row.
  lemma SameAnswer(cfg: Config, t: Thread, e: Entry, t': Thread, e': Entry, answer: Answer)
    requires AnswerFits(t, e, answer) && SamePoint(t, t') && !answer.StatusRead?
    ensures AnswerFits(t', e', answer)
    ensures SamePoint(Advanced(cfg, t, e, answer).0, Advanced(cfg, t', e', answer).0)
  {}

  // ---------------------------------------------------------------------------
  // The handler of a raised job
  // ---------------------------------------------------------------------------

  // Nothing but the last call of a job is the handler's, and then it is over.
  ghost predicate HandlerIsLast(s: State, id: nat, calls: seq<Call>) {
    && (forall n :: 0 <= n < |calls| - 1 ==> !calls[n].pc.RecordCrash?)
    && (calls != [] && calls[|calls| - 1].pc.RecordCrash? ==>
          Orphan(s, id) || (Job(id) in s.threads && s.threads[Job(id)].pc.Finished?))
  }

  lemma HandlerEnds(cfg: Config, s: State, step: Step, s': State, id: nat)
    requires Job(id) in s.threads && ThreadEffect(cfg, s, step, s', Job(id))
    requires id < |s'.entries| && s'.entries[id].row.status != RECEIVED
    requires MovesThread(step, Job(id)) ==> Job(id) in s'.threads
    ensures MovesThread(step, Job(id)) ==> !s.threads[Job(id)].pc.Finished?
    ensures s.threads[Job(id)].pc.Finished? || (MovesThread(step, Job(id)) && s.threads[Job(id)].pc.RecordCrash?) ==>
      Orphan(s', id) || (Job(id) in s'.threads && s'.threads[Job(id)].pc.Finished?)
  {}

  lemma {:induction false} HandlerCallsAreLast(cfg: Config, r: Run, n: nat, id: nat)
    requires r.Valid(cfg) && n <= |r.steps|
    ensures HandlerIsLast(r.states[n], id, CallsBetween(r, 0, n, Job(id)))
    decreases n
  {
    if n == 0 {
      assert CallsBetween(r, 0, 0, Job(id)) == [];
    } else {
      HandlerCallsAreLast(cfg, r, n - 1, id);
      HandlerStepAt(cfg, r, n - 1, id, CallsBetween(r, 0, n - 1, Job(id)));
    }
  }

  lemma HandlerStepAt(cfg: Config, r: Run, k: nat, id: nat, calls: seq<Call>)
    requires r.Valid(cfg) && k < |r.steps| && HandlerIsLast(r.states[k], id, calls)
    ensures HandlerIsLast(r.states[k + 1], id, calls + CallIn(r.states[k], r.steps[k], Job(id)))
  {
    if Orphan(r.states[k], id) {
      OrphanAt(cfg, r, k, id);
    } else if Job(id) in r.states[k].threads {
      JobEffectAt(cfg, r, k, id);
      HandlerEnds(cfg, r.states[k], r.steps[k], r.states[k + 1], id);
    }
  }

  lemma JobEffectAt(cfg: Config, r: Run, k: nat, id: nat)
    requires r.Valid(cfg) && k < |r.steps| && Job(id) in r.states[k].threads
    ensures ThreadEffect(cfg, r.states[k], r.steps[k], r.states[k + 1], Job(id))
    ensures id < |r.states[k + 1].entries| && r.states[k + 1].entries[id].row.status != RECEIVED
    ensures MovesThread(r.steps[k], Job(id)) ==> Job(id) in r.states[k + 1].threads
  {
    ThreadAt(cfg, r, k + 1, Job(id));
    PlacedAt(cfg, r, k, Job(id));
    RunContinues(cfg, r, k, k + 1);
    assert Continues(r.states[k].entries[id], r.states[k + 1].entries[id]);
    MovingThreadAt(cfg, r, k, Job(id));
  }

  lemma MovingThreadAt(cfg: Config, r: Run, k: nat, a: Actor)
    requires r.Valid(cfg) && k < |r.steps| && a in r.states[k].threads
    ensures MovesThread(r.steps[k], a) ==> a in r.states[k + 1].threads
  {
    assert r.Follows(cfg, k);
    if MovesThread(r.steps[k], a) { ThreadStays(cfg, r.states[k], r.steps[k], a); }
  }

  // However a job's code ends, its handler writes at most once, as its last call.
  lemma HandlerCallsOnce(cfg: Config, before: Run, after: Run, id: nat)
    requires Went(cfg, before, after, Job(id))
    ensures forall n :: 0 <= n < |New(before, after, Job(id))| - 1 ==> !New(before, after, Job(id))[n].pc.RecordCrash?
  {
    HandlerCallsAreLast(cfg, after, |after.steps|, id);
    BetweenSplit(after, 0, |before.steps|, |after.steps|, Job(id));
    var head, tail := CallsBetween(after, 0, |before.steps|, Job(id)), New(before, after, Job(id));
    forall n | 0 <= n < |tail| - 1 ensures !tail[n].pc.RecordCrash? {
      assert (head + tail)[|head| + n] == tail[n];
    }
  }

  // ---------------------------------------------------------------------------
  // The call that decides
  // ---------------------------------------------------------------------------

  lemma {:induction false} DecidingCall(cfg: Config, r: Run, i: nat, j: nat, id: nat) returns (n: nat)
    requires r.Valid(cfg) && i <= j <= |r.steps| && Job(id) in r.states[i].threads && Job(id) in r.states[j].threads
    requires !r.states[i].threads[Job(id)].decided && r.states[j].threads[Job(id)].decided
    ensures n < |CallsBetween(r, i, j, Job(id))|
    ensures var call := CallsBetween(r, i, j, Job(id))[n]; call.answer == Committed && IsTerminalWrite(call.pc)
    decreases j
  {
    PlacedAt(cfg, r, j, Job(id));
    ThreadAt(cfg, r, j, Job(id));
    var t := r.states[j - 1].threads[Job(id)];
    if t.decided {
      n := DecidingCall(cfg, r, i, j - 1, id);
    } else {
      EnteringDecided(cfg, t, r.states[j - 1].entries[t.target], r.steps[j - 1].answer);
      n := |CallsBetween(r, i, j - 1, Job(id))|;
    }
  }

  // A job that has become decided in a stretch has spoken at one of its steps.
  lemma SpeakingStep(cfg: Config, before: Run, after: Run, id: nat) returns (v: nat)
    requires Went(cfg, before, after, Job(id)) && Job(id) in before.Last().threads
    requires !before.Last().threads[Job(id)].decided && after.Last().threads[Job(id)].decided
    ensures |before.steps| <= v < |after.steps| && SpeaksAt(after, v, id)
  {
    var n := DecidingCall(cfg, after, |before.steps|, |after.steps|, id);
    v := CallHappened(after, |before.steps|, |after.steps|, Job(id), n);
    PlacedAt(cfg, after, v, Job(id));
    assert after.Follows(cfg, v);
    MovedRowOnly(cfg, after.states[v], Job(id), Committed, id);
  }
}
