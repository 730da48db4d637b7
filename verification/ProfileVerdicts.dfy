// From the profile form to the row: which scanner's answer a stored FIRST_SUCCESS
// verdict is (api/panel/admin_profiles.py, api/db.py, api/scanner.py, api/policy.py).
module ProfileVerdicts {
  import opened Wrappers
  import opened Policy
  import opened ScanTable
  import opened Protocol
  import opened RowInvariant
  import opened SystemInvariant
  import opened Profiles

  // The stored verdict is the answer of the scanner at position i of those that
  // the job read, and its result is stored under its own name and id.
  ghost predicate VerdictIsAnswerOf(e: Entry, i: int) {
    && e.readAtStart.Some? && 0 <= i < |e.readAtStart.value| && i < |e.results|
    && var scanner, result := e.readAtStart.value[i], e.results[i];
    && result.outcome.name == scanner.name
    && (result.scannerId == None || result.scannerId == Some(scanner.id))
    && IsAnswer(result.outcome.status)
    && (e.row.status == CLEAN <==> result.outcome.status == Clean)
    && (e.row.status == INFECTED <==> result.outcome.status == Infected)
    && e.row.threat == if result.outcome.status == Infected then result.outcome.threat else None
  }

  // What the verdict of a row under FIRST_SUCCESS rests on.
  lemma StoredAnswer(e: Entry) returns (k: nat)
    requires EntryOk(e) && (e.row.status == CLEAN || e.row.status == INFECTED)
    requires e.row.policyApplied == Some(FirstSuccess)
    ensures Backed(e) && FirstAnswer(Outcomes(e.results), k) && VerdictIsAnswerOf(e, k)
  {
    var j := FirstAnswerOrNone(Outcomes(e.results));
    assert j >= 0;
    k := j;
  }

  // In every reachable state: if the job read the scanners that the form gives the
  // profile, then under FIRST_SUCCESS a CLEAN or INFECTED row carries the status
  // and the threat of one of them, of the enabled scanner that answered with the
  // least (number, place) on the form.
  lemma FirstSuccessRow(cfg: Config, r: Run, k: nat, id: nat, form: seq<nat>, parsed: nat -> Option<int>,
                        members: Members, scanners: map<nat, ScannerRow>, profile: nat)
    requires r.Valid(cfg) && k < |r.states| && id < |r.states[k].entries|
    requires var e := r.states[k].entries[id];
      && (e.row.status == CLEAN || e.row.status == INFECTED) && e.row.policyApplied == Some(FirstSuccess)
      && e.readAtStart.Some? && ReadOf(members, scanners, profile, e.readAtStart.value)
    requires Distinct(form) && Holds(members, profile, Picked(form, StableOrder(Keys(form, parsed), |form|)))
    ensures var e := r.states[k].entries[id]; var keys := Keys(form, parsed);
      && |e.results| == |e.readAtStart.value|
      && (exists p, i :: Decides(form, keys, e.readAtStart.value, Outcomes(e.results), p, i))
      && (forall p, i :: Decides(form, keys, e.readAtStart.value, Outcomes(e.results), p, i) ==>
          VerdictIsAnswerOf(e, i))
  {
    ReachableInv(cfg, r, k);
    var e, keys := r.states[k].entries[id], Keys(form, parsed);
    assert EntryOk(e);
    var i := StoredAnswer(e);
    var rows, outcomes := e.readAtStart.value, Outcomes(e.results);
    var p := FirstAnswerDecides(form, keys, members, scanners, profile, rows, outcomes, i);
    forall q, j | Decides(form, keys, rows, outcomes, q, j) ensures j == i {
      OnlyOneDecides(form, keys, rows, outcomes, p, i, q, j);
    }
  }
}
