// Verdict aggregation and encrypted-file policy (api/policy.py).
module Policy {
  import opened Wrappers

  // The scan_status enumeration of the scans table.
  datatype Status =
    | RECEIVED | VALIDATING | TRANSFERRING | SCANNING
    | CLEAN | INFECTED | ERROR | CLEANUP_FAILED
    | ENCRYPTED | QUARANTINED

  // What one scanner reported. Python carries a string; the scan_results CHECK
  // admits only the first three.
  datatype ResultStatus = Clean | Infected | Failed | Unrecognised(text: string)

  datatype ScannerOutcome = ScannerOutcome(name: string, status: ResultStatus, threat: Option<string>)

  datatype AggregationPolicy = AllMustPass | AnyDetection | FirstDetection | FirstSuccess | OtherPolicy(text: string)

  datatype Decision = Decision(status: Status, allowed: bool, threat: Option<string>)

  const REFUSED := Decision(ERROR, false, None)
  const ACCEPTED := Decision(CLEAN, true, None)

  function Detected(r: ScannerOutcome): Decision {
    Decision(INFECTED, false, r.threat)
  }

  // The results with one status, in their order.
  function Select(rs: seq<ScannerOutcome>, status: ResultStatus): seq<ScannerOutcome> {
    if rs == [] then []
    else if rs[0].status == status then [rs[0]] + Select(rs[1..], status)
    else Select(rs[1..], status)
  }

  // The FIRST_SUCCESS loop.
  function FirstSuccessful(rs: seq<ScannerOutcome>): Decision {
    if rs == [] then REFUSED
    else if rs[0].status == Infected then Detected(rs[0])
    else if rs[0].status == Clean then ACCEPTED
    else FirstSuccessful(rs[1..])
  }

  function Aggregate(rs: seq<ScannerOutcome>, policy: AggregationPolicy): Decision {
    if rs == [] then REFUSED
    else
      var infected := Select(rs, Infected);
      var errors := Select(rs, Failed);
      var clean := Select(rs, Clean);
      match policy
      case FirstDetection =>
        if infected != [] then Detected(infected[0]) else if errors != [] then REFUSED else ACCEPTED
      case FirstSuccess =>
        FirstSuccessful(rs)
      case AnyDetection =>
        if infected != [] then Detected(infected[0]) else if clean != [] then ACCEPTED else REFUSED
      case AllMustPass =>
        if infected != [] then Detected(infected[0]) else if errors != [] then REFUSED else ACCEPTED
      case OtherPolicy(_) => REFUSED
  }

  // ---------------------------------------------------------------------------
  // What an aggregated verdict means, outcome by outcome
  // ---------------------------------------------------------------------------

  ghost predicate Reports(rs: seq<ScannerOutcome>, status: ResultStatus) {
    exists i :: 0 <= i < |rs| && rs[i].status == status
  }

  ghost predicate First(rs: seq<ScannerOutcome>, status: ResultStatus, k: int) {
    0 <= k < |rs| && rs[k].status == status && forall i :: 0 <= i < k ==> rs[i].status != status
  }

  // k is the position of the first outcome that is a real answer.
  ghost predicate FirstAnswer(rs: seq<ScannerOutcome>, k: int) {
    0 <= k < |rs| && (rs[k].status == Clean || rs[k].status == Infected)
    && forall i :: 0 <= i < k ==> rs[i].status != Clean && rs[i].status != Infected
  }

  // The domain of the CHECK on scan_results.status.
  ghost predicate InDomain(rs: seq<ScannerOutcome>) {
    forall i :: 0 <= i < |rs| ==> !rs[i].status.Unrecognised?
  }

  lemma {:induction false} SelectFinds(rs: seq<ScannerOutcome>, status: ResultStatus)
    ensures Select(rs, status) == [] <==> !Reports(rs, status)
    ensures Select(rs, status) != [] ==> exists k :: First(rs, status, k) && Select(rs, status)[0] == rs[k]
  {
    if rs == [] {
    } else {
      SelectFinds(rs[1..], status);
      if rs[0].status == status {
        assert First(rs, status, 0);
      } else {
        assert forall i :: 0 <= i < |rs[1..]| ==> rs[1..][i] == rs[i + 1];
        if Select(rs[1..], status) != [] {
          var k :| First(rs[1..], status, k) && Select(rs[1..], status)[0] == rs[1..][k];
          forall i | 0 <= i < k + 1 ensures rs[i].status != status {
            if i > 0 { assert rs[1..][i - 1] == rs[i]; }
          }
          assert First(rs, status, k + 1);
        } else {
          forall i | 0 <= i < |rs| ensures rs[i].status != status {
            if i > 0 { assert rs[1..][i - 1] == rs[i]; }
          }
        }
      }
    }
  }

  lemma {:induction false} FirstSuccessfulFinds(rs: seq<ScannerOutcome>)
    ensures forall k :: FirstAnswer(rs, k) ==>
      FirstSuccessful(rs) == if rs[k].status == Clean then ACCEPTED else Detected(rs[k])
    ensures (forall k :: !FirstAnswer(rs, k)) ==> FirstSuccessful(rs) == REFUSED
    ensures FirstSuccessful(rs) == REFUSED <==> !Reports(rs, Clean) && !Reports(rs, Infected)
  {
    if rs == [] {
    } else {
      var rest := rs[1..];
      FirstSuccessfulFinds(rest);
      assert forall i :: 0 <= i < |rest| ==> rest[i] == rs[i + 1];
      if rs[0].status == Clean || rs[0].status == Infected {
        assert FirstAnswer(rs, 0);
        assert forall k :: FirstAnswer(rs, k) ==> k == 0;
      } else {
        forall k | FirstAnswer(rs, k)
          ensures FirstAnswer(rest, k - 1) && rest[k - 1] == rs[k]
        {
          forall i | 0 <= i < k - 1 ensures rest[i].status != Clean && rest[i].status != Infected {
            assert rest[i] == rs[i + 1];
          }
        }
        forall k | FirstAnswer(rest, k) ensures FirstAnswer(rs, k + 1) {
          forall i | 0 <= i < k + 1 ensures rs[i].status != Clean && rs[i].status != Infected {
            if i > 0 { assert rest[i - 1] == rs[i]; }
          }
        }
        forall st | Reports(rs, st) && (st == Clean || st == Infected) ensures Reports(rest, st) {
          var i :| 0 <= i < |rs| && rs[i].status == st;
          assert rest[i - 1].status == st;
        }
      }
    }
  }

  // The verdict in terms of which statuses occur, for every list.
  lemma VerdictIs(rs: seq<ScannerOutcome>, policy: AggregationPolicy)
    ensures var d := Aggregate(rs, policy);
      && (d.status == CLEAN || d.status == INFECTED || d.status == ERROR)
      && (d.allowed <==> d.status == CLEAN)
      && (policy == AllMustPass || policy == FirstDetection ==>
            (d.status == INFECTED <==> exists i :: 0 <= i < |rs| && rs[i].status == Infected)
            && (d.status == CLEAN <==>
                  rs != [] && forall i :: 0 <= i < |rs| ==> rs[i].status != Infected && rs[i].status != Failed))
      && (policy == AnyDetection ==>
            (d.status == INFECTED <==> exists i :: 0 <= i < |rs| && rs[i].status == Infected)
            && (d.status == CLEAN <==>
                  (exists i :: 0 <= i < |rs| && rs[i].status == Clean)
                  && forall i :: 0 <= i < |rs| ==> rs[i].status != Infected))
      && (policy == FirstSuccess ==>
            (d.status == INFECTED <==> exists k :: FirstAnswer(rs, k) && rs[k].status == Infected)
            && (d.status == CLEAN <==> exists k :: FirstAnswer(rs, k) && rs[k].status == Clean))
      && (policy.OtherPolicy? ==> d.status == ERROR)
  {
    SelectFinds(rs, Infected);
    SelectFinds(rs, Failed);
    SelectFinds(rs, Clean);
    FirstSuccessfulFinds(rs);
    if policy.FirstSuccess? && Aggregate(rs, policy) != REFUSED {
      var k := AnswerPosition(rs);
    }
  }

  // Every verdict read back as a statement about the outcomes, in both
  // directions, for outcomes the table can hold.
  lemma VerdictMeans(rs: seq<ScannerOutcome>, policy: AggregationPolicy)
    requires InDomain(rs)
    ensures var d := Aggregate(rs, policy);
      && (d.status == CLEAN || d.status == INFECTED || d.status == ERROR)
      && (d.allowed <==> d.status == CLEAN)
      && (policy.AllMustPass? || policy.FirstDetection? ==>
            (d.allowed <==> rs != [] && forall i :: 0 <= i < |rs| ==> rs[i].status == Clean))
      && (policy.AnyDetection? ==>
            (d.allowed <==> Reports(rs, Clean) && !Reports(rs, Infected)))
      && (policy.FirstSuccess? ==>
            (d.allowed <==> exists k :: FirstAnswer(rs, k) && rs[k].status == Clean))
      && (policy.FirstSuccess? ==>
            (d.status == INFECTED <==> exists k :: FirstAnswer(rs, k) && rs[k].status == Infected))
      && (!policy.FirstSuccess? && !policy.OtherPolicy? ==>
            (d.status == INFECTED <==> Reports(rs, Infected)))
      && (d.allowed ==> Reports(rs, Clean))
      && (policy.OtherPolicy? ==> d == REFUSED)
  {
    SelectFinds(rs, Infected);
    SelectFinds(rs, Failed);
    SelectFinds(rs, Clean);
    FirstSuccessfulFinds(rs);
    if policy.AllMustPass? || policy.FirstDetection? {
      forall i | 0 <= i < |rs| && !Reports(rs, Infected) && !Reports(rs, Failed)
        ensures rs[i].status == Clean
      {
        assert !rs[i].status.Unrecognised?;
      }
    }
    if policy.FirstSuccess? && Aggregate(rs, policy) != REFUSED {
      var k := AnswerPosition(rs);
    }
  }

  lemma {:induction false} AnswerPosition(rs: seq<ScannerOutcome>) returns (k: nat)
    requires Reports(rs, Clean) || Reports(rs, Infected)
    ensures FirstAnswer(rs, k)
  {
    if rs[0].status == Clean || rs[0].status == Infected {
      k := 0;
    } else {
      var i :| 0 <= i < |rs| && (rs[i].status == Clean || rs[i].status == Infected);
      assert rs[1..][i - 1] == rs[i];
      var j := AnswerPosition(rs[1..]);
      k := j + 1;
      forall m | 0 <= m < k ensures rs[m].status != Clean && rs[m].status != Infected {
        if m > 0 { assert rs[1..][m - 1] == rs[m]; }
      }
    }
  }

  // The threat that is reported is that of the first detection, under
  // FIRST_SUCCESS of the first answer; no other verdict reports one.
  lemma ThreatMeans(rs: seq<ScannerOutcome>, policy: AggregationPolicy)
    ensures var d := Aggregate(rs, policy);
      && (d.status == INFECTED && !policy.FirstSuccess? ==>
          exists k :: First(rs, Infected, k) && d.threat == rs[k].threat)
      && (d.status == INFECTED && policy.FirstSuccess? ==>
            exists k :: FirstAnswer(rs, k) && rs[k].status == Infected && d.threat == rs[k].threat)
      && (d.status != INFECTED ==> d.threat == None)
  {
    SelectFinds(rs, Infected);
    FirstSuccessfulFinds(rs);
    if policy.FirstSuccess? && Aggregate(rs, policy) != REFUSED {
      var k := AnswerPosition(rs);
    }
  }

  // The documented promise "allowed only with an explicit CLEAN result" fails
  // for exactly these lists: the function alone is not fail-closed, the CHECK on
  // scan_results is what closes it.
  lemma AllowedWithoutCleanIff(rs: seq<ScannerOutcome>, policy: AggregationPolicy)
    ensures Aggregate(rs, policy).allowed && !Reports(rs, Clean)
      <==> (policy.AllMustPass? || policy.FirstDetection?) && rs != []
           && forall i :: 0 <= i < |rs| ==> rs[i].status.Unrecognised?
  {
    SelectFinds(rs, Infected);
    SelectFinds(rs, Failed);
    SelectFinds(rs, Clean);
    FirstSuccessfulFinds(rs);
  }

  lemma UnrecognisedStatusIsAllowed()
    ensures Aggregate([ScannerOutcome("clamav", Unrecognised("SKIPPED"), None)], AllMustPass) == ACCEPTED
  {
    var rs := [ScannerOutcome("clamav", Unrecognised("SKIPPED"), None)];
    assert rs[1..] == [];
  }

  // ---------------------------------------------------------------------------
  // How the four policies compare
  // ---------------------------------------------------------------------------

  lemma StrictPoliciesAgree(rs: seq<ScannerOutcome>)
    ensures Aggregate(rs, AllMustPass) == Aggregate(rs, FirstDetection)
  {}

  // ALL_MUST_PASS is the strictest, FIRST_SUCCESS tolerates whatever passes it,
  // ANY_DETECTION sits between them.
  lemma PolicyLattice(rs: seq<ScannerOutcome>)
    requires InDomain(rs)
    ensures Aggregate(rs, AllMustPass).allowed ==> Aggregate(rs, AnyDetection).allowed
    ensures Aggregate(rs, AnyDetection).allowed ==> Aggregate(rs, FirstSuccess).allowed
    ensures Aggregate(rs, AllMustPass).status == INFECTED <==> Aggregate(rs, AnyDetection).status == INFECTED
    ensures Aggregate(rs, FirstSuccess).status == INFECTED ==> Aggregate(rs, AnyDetection).status == INFECTED
  {
    VerdictMeans(rs, AllMustPass);
    VerdictMeans(rs, AnyDetection);
    VerdictMeans(rs, FirstSuccess);
    if Aggregate(rs, AllMustPass).allowed {
      assert rs[0].status == Clean;
    }
    if Aggregate(rs, AnyDetection).allowed {
      var k := AnswerPosition(rs);
      assert rs[k].status == Clean;
    }
    if Aggregate(rs, FirstSuccess).status == INFECTED {
      var k :| FirstAnswer(rs, k) && rs[k].status == Infected;
    }
  }

  function DropErrors(rs: seq<ScannerOutcome>): seq<ScannerOutcome> {
    if rs == [] then []
    else if rs[0].status == Failed then DropErrors(rs[1..])
    else [rs[0]] + DropErrors(rs[1..])
  }

  lemma {:induction false} DropErrorsKeepsAnswers(rs: seq<ScannerOutcome>)
    ensures Select(DropErrors(rs), Infected) == Select(rs, Infected)
    ensures Select(DropErrors(rs), Clean) == Select(rs, Clean)
    ensures FirstSuccessful(DropErrors(rs)) == FirstSuccessful(rs)
  {
    if rs == [] {
    } else {
      DropErrorsKeepsAnswers(rs[1..]);
      if rs[0].status != Failed {
        assert DropErrors(rs)[1..] == DropErrors(rs[1..]);
      }
    }
  }

  // A failed scanner changes nothing under the two tolerant policies.
  lemma ErrorsAreIgnored(rs: seq<ScannerOutcome>)
    ensures Aggregate(DropErrors(rs), AnyDetection) == Aggregate(rs, AnyDetection)
    ensures Aggregate(DropErrors(rs), FirstSuccess) == Aggregate(rs, FirstSuccess)
  {
    DropErrorsKeepsAnswers(rs);
  }

  lemma SameReports(rs: seq<ScannerOutcome>, rs': seq<ScannerOutcome>, status: ResultStatus)
    requires multiset(rs) == multiset(rs')
    ensures Reports(rs, status) ==> Reports(rs', status)
  {
    if Reports(rs, status) {
      var i :| 0 <= i < |rs| && rs[i].status == status;
      assert rs[i] in multiset(rs');
    }
  }

  // The order of the scanners cannot change the verdict of the two policies that
  // look at all of them.
  lemma OrderIrrelevant(rs: seq<ScannerOutcome>, rs': seq<ScannerOutcome>, policy: AggregationPolicy)
    requires multiset(rs) == multiset(rs')
    requires policy.AllMustPass? || policy.AnyDetection?
    ensures Aggregate(rs, policy).status == Aggregate(rs', policy).status
    ensures Aggregate(rs, policy).allowed == Aggregate(rs', policy).allowed
  {
    assert |rs| == |multiset(rs)| == |multiset(rs')| == |rs'|;
    forall st | st == Infected || st == Failed || st == Clean
      ensures Reports(rs, st) <==> Reports(rs', st)
    {
      SameReports(rs, rs', st);
      SameReports(rs', rs, st);
    }
    SelectFinds(rs, Infected);
    SelectFinds(rs, Failed);
    SelectFinds(rs, Clean);
    SelectFinds(rs', Infected);
    SelectFinds(rs', Failed);
    SelectFinds(rs', Clean);
  }

  // ---------------------------------------------------------------------------
  // Encrypted files
  // ---------------------------------------------------------------------------

  datatype EncryptedPolicy = Allow | Deny | Quarantine | MarkForReview | OtherEncryptedPolicy(text: string)

  datatype EncryptedDecision = EncryptedDecision(allowed: bool, needsReview: bool, quarantine: bool)

  // An empty policy string is falsy in Python and falls through.
  predicate Falsy(p: EncryptedPolicy) {
    p == OtherEncryptedPolicy("")
  }

  function ResolveEncrypted(category: string, policies: map<string, EncryptedPolicy>): EncryptedPolicy {
    if category in policies && !Falsy(policies[category]) then policies[category]
    else if "default" in policies && !Falsy(policies["default"]) then policies["default"]
    else Deny
  }

  function ApplyEncrypted(policy: EncryptedPolicy): EncryptedDecision {
    match policy
    case Allow => EncryptedDecision(true, false, false)
    case Deny => EncryptedDecision(false, false, false)
    case Quarantine => EncryptedDecision(false, false, true)
    case MarkForReview => EncryptedDecision(false, true, true)
    case OtherEncryptedPolicy(_) => EncryptedDecision(false, false, false)
  }

  // The policy written for the category comes first and makes the default
  // irrelevant; then the default; then DENY. An empty entry counts as none.
  lemma OwnPolicyFirst(category: string, policies: map<string, EncryptedPolicy>, other: EncryptedPolicy)
    ensures category in policies && policies[category] != OtherEncryptedPolicy("") ==>
      ResolveEncrypted(category, policies) == policies[category]
      && (category != "default" ==> ResolveEncrypted(category, policies["default" := other]) == policies[category])
    ensures category !in policies || policies[category] == OtherEncryptedPolicy("") ==>
      if "default" in policies && policies["default"] != OtherEncryptedPolicy("")
      then ResolveEncrypted(category, policies) == policies["default"]
      else ResolveEncrypted(category, policies) == Deny
  {}

  // An encrypted file passes only because an administrator wrote ALLOW for its
  // category, or ALLOW as the default of a category left without a policy.
  lemma EncryptedAllowedIff(category: string, policies: map<string, EncryptedPolicy>)
    ensures ApplyEncrypted(ResolveEncrypted(category, policies)).allowed
      <==> (category in policies && policies[category] == Allow)
           || ((category !in policies || Falsy(policies[category]))
               && "default" in policies && policies["default"] == Allow)
  {}
}
