// Which copies are kept: a job moves its staging directory to quarantine, instead
// of deleting it, for a confirmed infection that is to be retained and for an
// encrypted file whose policy asks for it, and for nothing else
// (api/scanner.py:84-102, 169-187, 379-421).
module Quarantine {
  import opened Wrappers
  import opened Policy
  import opened ScanTable
  import opened ScanPlaybook
  import opened Protocol
  import opened RowInvariant
  import opened SystemInvariant
  import opened StepEffects

  // The stored results, aggregated by the stored policy, say INFECTED.
  ghost predicate Confirmed(e: Entry) {
    e.row.policyApplied.Some? && Reaggregated(e).status == INFECTED
  }

  predicate PolicyKeeps(row: Row) {
    row.encryptedPolicyApplied == Some(EncryptedPolicy.Quarantine) || row.encryptedPolicyApplied == Some(MarkForReview)
  }

  ghost predicate ToBeKept(cfg: Config, e: Entry) {
    (cfg.retainInfected && Confirmed(e)) || PolicyKeeps(e.row)
  }

  // What a job past its decision, or on its way to failing, knows of its row.
  ghost predicate Reasoned(cfg: Config, t: Thread, e: Entry) {
    && (Deleting(t.pc) || t.pc.NoteDeletion? ==> Confirmed(e) && e.row.encryptedPolicyApplied == None)
    && (t.pc.Reject? || t.pc.Fail? ==> e.row.policyApplied == None && e.row.encryptedPolicyApplied == None)
    && (t.pc.Tidy? ==> (t.pc.quarantine <==> ToBeKept(cfg, e)))
  }

  lemma VerdictIsReasoned(cfg: Config, t: Thread, e: Entry)
    requires ThreadOk(t, e) && !t.sweeping && t.pc.WriteVerdict?
    ensures Reasoned(cfg, t.(pc := AfterCommit(cfg, t), decided := true), Effect(t, e))
  {
    assert Reaggregated(Effect(t, e)) == Aggregate(RawOutcomes(t.pc.raw), t.policy);
  }

  lemma StatementIsReasoned(cfg: Config, t: Thread, e: Entry)
    requires ThreadOk(t, e) && !t.sweeping && Reasoned(cfg, t, e) && IsStatement(t.pc)
    ensures Reasoned(cfg, t.(pc := AfterCommit(cfg, t)), Effect(t, e))
  {
    hide Aggregate, Reaggregated, Evidenced, Aligned, Scanning;
    if t.pc.WriteVerdict? { VerdictIsReasoned(cfg, t, e); }
  }

  lemma OwnStepIsReasoned(cfg: Config, t: Thread, e: Entry, a: Answer)
    requires ThreadOk(t, e) && !t.sweeping && Reasoned(cfg, t, e) && AnswerFits(t, e, a)
    ensures var (t', e') := Advanced(cfg, t, e, a); Reasoned(cfg, t', e')
  {
    if a.Committed? {
      StatementIsReasoned(cfg, t, e);
    } else if !a.Raised? {
      AnswerIsReasoned(cfg, t, e, a);
    }
  }

  lemma AnswerIsReasoned(cfg: Config, t: Thread, e: Entry, a: Answer)
    requires ThreadOk(t, e) && !t.sweeping && Reasoned(cfg, t, e) && AnswerFits(t, e, a) && !a.Committed? && !a.Raised?
    ensures var (t', e') := Advanced(cfg, t, e, a); Reasoned(cfg, t', e')
  {}

  // The columns that the reason rests on.
  ghost predicate SameReason(e: Entry, e': Entry) {
    e'.row.policyApplied == e.row.policyApplied && e'.row.encryptedPolicyApplied == e.row.encryptedPolicyApplied
    && Outcomes(e'.results) == Outcomes(e.results)
  }

  lemma OtherStepKeepsReason(cfg: Config, s: State, step: Step, s': State, id: nat)
    requires RowEffect(cfg, s, step, s', id) && !MovesThread(step, Job(id)) && EntryOk(s.entries[id])
    requires s.entries[id].row.status != RECEIVED
    ensures SameReason(s.entries[id], s'.entries[id])
  {
    var e, e' := s.entries[id], s'.entries[id];
    if e' != e && step.Advance? {
      AdvancedKeeps(cfg, s.threads[step.actor], e, step.answer);
    } else if e' != e {
      assert Outcomes(Forget(e.results, step.scanner)) == Outcomes(e.results);
    }
  }

  // One step of a run, seen from a job that was there before it.
  ghost predicate JobStep(cfg: Config, r: Run, k: nat, id: nat)
    requires 0 < k < |r.states| && |r.states| == |r.steps| + 1
  {
    var s, step, s' := r.states[k - 1], r.steps[k - 1], r.states[k];
    && Job(id) in s.threads && id < |s.entries| && id < |s'.entries|
    && ThreadOk(s.threads[Job(id)], s.entries[id]) && EntryOk(s.entries[id]) && !s.threads[Job(id)].sweeping
    && ThreadEffect(cfg, s, step, s', Job(id))
    && RowEffect(cfg, s, step, s', id)
    && (MovesThread(step, Job(id)) ==>
          AnswerFits(s.threads[Job(id)], s.entries[id], step.answer)
          && s'.entries[id] == Advanced(cfg, s.threads[Job(id)], s.entries[id], step.answer).1)
  }

  lemma StepOfJob(cfg: Config, r: Run, k: nat, id: nat)
    requires r.Valid(cfg) && 0 < k < |r.states| && Job(id) in r.states[k - 1].threads
    ensures JobStep(cfg, r, k, id)
  {
    var s := r.states[k - 1];
    ReachableInv(cfg, r, k - 1);
    assert r.Follows(cfg, k - 1);
    assert Placed(s.entries, Job(id), s.threads[Job(id)]);
    ThreadAfter(cfg, s, r.steps[k - 1], Job(id));
    RowAfter(cfg, s, r.steps[k - 1], id);
    if MovesThread(r.steps[k - 1], Job(id)) { MovedRowOnly(cfg, s, Job(id), r.steps[k - 1].answer, id); }
  }

  lemma OneStepReasoned(cfg: Config, r: Run, k: nat, id: nat)
    requires 0 < k < |r.states| && |r.states| == |r.steps| + 1 && JobStep(cfg, r, k, id)
    requires Job(id) in r.states[k].threads
    requires Reasoned(cfg, r.states[k - 1].threads[Job(id)], r.states[k - 1].entries[id])
    ensures Reasoned(cfg, r.states[k].threads[Job(id)], r.states[k].entries[id])
  {
    var s, step := r.states[k - 1], r.steps[k - 1];
    if MovesThread(step, Job(id)) {
      OwnStepIsReasoned(cfg, s.threads[Job(id)], s.entries[id], step.answer);
    } else {
      OtherStepKeepsReason(cfg, s, step, r.states[k], id);
    }
  }

  lemma {:induction false} EveryJobIsReasoned(cfg: Config, r: Run, k: nat, id: nat)
    requires r.Valid(cfg) && k < |r.states| && Job(id) in r.states[k].threads && id < |r.states[k].entries|
    ensures Reasoned(cfg, r.states[k].threads[Job(id)], r.states[k].entries[id])
    decreases k
  {
    ThreadAt(cfg, r, k, Job(id));
    if Job(id) !in r.states[k - 1].threads {
    } else {
      StepOfJob(cfg, r, k, id);
      EveryJobIsReasoned(cfg, r, k - 1, id);
      OneStepReasoned(cfg, r, k, id);
    }
  }

  // Whenever a job is about to tidy, under every interleaving: it will keep the
  // copy if and only if infected copies are retained and the stored results
  // confirm an infection, or the file was encrypted and its stored policy is
  // QUARANTINE or MARK_FOR_REVIEW. A failed job never keeps one.
  lemma CopyIsKeptIff(cfg: Config, r: Run, k: nat, id: nat)
    requires r.Valid(cfg) && k < |r.states| && Job(id) in r.states[k].threads && r.states[k].threads[Job(id)].pc.Tidy?
    ensures id < |r.states[k].entries|
    ensures var row := r.states[k].entries[id].row;
      r.states[k].threads[Job(id)].pc.quarantine <==>
        (cfg.retainInfected && row.policyApplied.Some?
         && Aggregate(Outcomes(r.states[k].entries[id].results), row.policyApplied.value).status == INFECTED)
        || row.encryptedPolicyApplied == Some(EncryptedPolicy.Quarantine)
        || row.encryptedPolicyApplied == Some(MarkForReview)
  {
    ReachableInv(cfg, r, k);
    assert Placed(r.states[k].entries, Job(id), r.states[k].threads[Job(id)]);
    EveryJobIsReasoned(cfg, r, k, id);
  }
}
