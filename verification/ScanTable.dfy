// The scans and scan_results tables: rows, constraints, the writes that
// update_scan and create_scan_results perform (api/db.py, db/migrations).
module ScanTable {
  import opened Wrappers
  import opened Policy

  datatype TransferMode = AnsibleFetch | DirectUpload

  // Expected values of the three free-text sub-status columns.
  datatype SubStatus = PENDING | OK | FAILED | SKIPPED

  // The columns that name the file. None of them is writable after insertion.
  datatype FileRef = FileRef(host: string, path: string, filename: string, size: int)

  datatype Row = Row(
    file: FileRef,
    mode: TransferMode,
    parent: Option<nat>,
    createdAt: int,
    startedAt: Option<int>,
    sha256: string,
    status: Status,
    allowed: Option<bool>,
    threat: Option<string>,
    transfer: SubStatus,
    detail: SubStatus,
    cleanup: SubStatus,
    encrypted: Option<bool>,
    needsReview: bool,
    policyApplied: Option<AggregationPolicy>,
    encryptedPolicyApplied: Option<EncryptedPolicy>)

  // One scan_results row. The scanner reference is nulled when the scanner is
  // deleted; the name is a snapshot and stays.
  datatype StoredResult = StoredResult(scannerId: Option<nat>, outcome: ScannerOutcome)

  function NewRow(file: FileRef, mode: TransferMode, parent: Option<nat>, createdAt: int, sha256: string): Row {
    Row(file, mode, parent, createdAt, None, sha256, RECEIVED, None, None,
        PENDING, PENDING, PENDING, None, false, None, None)
  }

  // ---------------------------------------------------------------------------
  // Constraints
  // ---------------------------------------------------------------------------

  predicate LowerHex(c: char) {
    '0' <= c <= '9' || 'a' <= c <= 'f'
  }

  // The format that the CHECK on the sha256 column demands.
  predicate IsSha256(s: string) {
    |s| == 64 && forall i :: 0 <= i < |s| ==> LowerHex(s[i])
  }

  // Sixty-four of sixteen characters.
  lemma FormatMeans(s: string)
    ensures IsSha256(s) <==> |s| == 64 && forall i :: 0 <= i < |s| ==> s[i] in "0123456789abcdef"
  {
    assert forall c: char :: LowerHex(c) ==> c in "0123456789abcdef" by {
      forall c: char | LowerHex(c) ensures c in "0123456789abcdef" {
        HexDigit(c);
      }
    }
  }

  lemma HexDigit(c: char)
    ensures LowerHex(c) <==> c in "0123456789abcdef"
  {
    var digits := "0123456789abcdef";
    if '0' <= c <= '9' {
      assert digits[c as int - '0' as int] == c;
    } else if 'a' <= c <= 'f' {
      assert digits[10 + c as int - 'a' as int] == c;
    }
  }

  // Lower case on ASCII. No other character lowers to a hexadecimal digit.
  function LowerChar(c: char): char {
    if 'A' <= c <= 'Z' then c + 32 as char else c
  }

  function Lower(s: string): (r: string)
    ensures |r| == |s|
    ensures forall i :: 0 <= i < |s| ==> r[i] == LowerChar(s[i])
  {
    if s == "" then "" else [LowerChar(s[0])] + Lower(s[1..])
  }

  // A capital becomes its small letter, any other character stays.
  lemma LowerMeans(s: string, i: nat)
    requires i < |s|
    ensures |Lower(s)| == |s|
    ensures 'A' <= s[i] <= 'Z' ==> Lower(s)[i] as int - 'a' as int == s[i] as int - 'A' as int
    ensures !('A' <= s[i] <= 'Z') ==> Lower(s)[i] == s[i]
  {}

  lemma LowerFixesSha256(h: string)
    requires IsSha256(h)
    ensures Lower(h) == h
  {
    forall i | 0 <= i < |h| ensures Lower(h)[i] == h[i] {
      assert LowerHex(h[i]);
    }
  }

  // The case-insensitive comparison in the code and the lower-case CHECK in the
  // table leave one writable value: the one that is already there.
  lemma GuardAndCheckForceEquality(actual: string, expected: string)
    requires IsSha256(expected)
    requires Lower(actual) == Lower(expected)
    ensures IsSha256(actual) <==> actual == expected
  {
    LowerFixesSha256(expected);
    if IsSha256(actual) {
      LowerFixesSha256(actual);
    }
  }

  // The statuses that the CHECK on scan_results admits.
  predicate ResultsAdmitted(rs: seq<StoredResult>) {
    forall i :: 0 <= i < |rs| ==> !rs[i].outcome.status.Unrecognised?
  }

  lemma AdmittedMeans(rs: seq<StoredResult>)
    ensures ResultsAdmitted(rs) <==> forall i :: 0 <= i < |rs| ==> rs[i].outcome.status in {Clean, Infected, Failed}
  {
    forall i | 0 <= i < |rs| ensures !rs[i].outcome.status.Unrecognised? <==>
      rs[i].outcome.status in {Clean, Infected, Failed}
    {}
  }

  // ---------------------------------------------------------------------------
  // update_scan
  // ---------------------------------------------------------------------------

  // The SET clause: a column that is None is left alone. Only writable columns
  // have a place here.
  datatype Update = Update(
    status: Option<Status> := None,
    allowed: Option<bool> := None,
    threat: Option<Option<string>> := None,
    sha256: Option<string> := None,
    transfer: Option<SubStatus> := None,
    detail: Option<SubStatus> := None,
    cleanup: Option<SubStatus> := None,
    encrypted: Option<Option<bool>> := None,
    needsReview: Option<bool> := None,
    policyApplied: Option<AggregationPolicy> := None,
    encryptedPolicyApplied: Option<EncryptedPolicy> := None)

  function Written(row: Row, u: Update): Row {
    row.(
      status := u.status.GetOr(row.status),
      allowed := if u.allowed.Some? then u.allowed else row.allowed,
      threat := u.threat.GetOr(row.threat),
      sha256 := u.sha256.GetOr(row.sha256),
      transfer := u.transfer.GetOr(row.transfer),
      detail := u.detail.GetOr(row.detail),
      cleanup := u.cleanup.GetOr(row.cleanup),
      encrypted := u.encrypted.GetOr(row.encrypted),
      needsReview := u.needsReview.GetOr(row.needsReview),
      policyApplied := if u.policyApplied.Some? then u.policyApplied else row.policyApplied,
      encryptedPolicyApplied :=
        if u.encryptedPolicyApplied.Some? then u.encryptedPolicyApplied else row.encryptedPolicyApplied)
  }

  // What a statement is for: each column that it names has its value afterwards.
  predicate Shows(row: Row, u: Update) {
    && (u.status.Some? ==> row.status == u.status.value)
    && (u.allowed.Some? ==> row.allowed == u.allowed)
    && (u.threat.Some? ==> row.threat == u.threat.value)
    && (u.sha256.Some? ==> row.sha256 == u.sha256.value)
    && (u.transfer.Some? ==> row.transfer == u.transfer.value)
    && (u.detail.Some? ==> row.detail == u.detail.value)
    && (u.cleanup.Some? ==> row.cleanup == u.cleanup.value)
    && (u.encrypted.Some? ==> row.encrypted == u.encrypted.value)
    && (u.needsReview.Some? ==> row.needsReview == u.needsReview.value)
    && (u.policyApplied.Some? ==> row.policyApplied == u.policyApplied)
    && (u.encryptedPolicyApplied.Some? ==> row.encryptedPolicyApplied == u.encryptedPolicyApplied)
  }

  // And no other column changes.
  lemma WrittenShows(row: Row, u: Update)
    ensures Shows(Written(row, u), u)
    ensures var row' := Written(row, u);
      && row'.file == row.file && row'.mode == row.mode && row'.parent == row.parent
      && row'.createdAt == row.createdAt && row'.startedAt == row.startedAt
      && (u.status.None? ==> row'.status == row.status)
      && (u.allowed.None? ==> row'.allowed == row.allowed)
      && (u.threat.None? ==> row'.threat == row.threat)
      && (u.sha256.None? ==> row'.sha256 == row.sha256)
      && (u.transfer.None? ==> row'.transfer == row.transfer)
      && (u.detail.None? ==> row'.detail == row.detail)
      && (u.cleanup.None? ==> row'.cleanup == row.cleanup)
      && (u.encrypted.None? ==> row'.encrypted == row.encrypted)
      && (u.needsReview.None? ==> row'.needsReview == row.needsReview)
      && (u.policyApplied.None? ==> row'.policyApplied == row.policyApplied)
      && (u.encryptedPolicyApplied.None? ==> row'.encryptedPolicyApplied == row.encryptedPolicyApplied)
  {}

  predicate InProgress(st: Status) {
    st == VALIDATING || st == TRANSFERRING || st == SCANNING
  }

  // In progress, and started longer ago than the lifetime.
  predicate Stale(row: Row, now: int, lifetime: nat) {
    InProgress(row.status) && row.startedAt.Some? && row.startedAt.value < now - lifetime
  }

  // ---------------------------------------------------------------------------
  // Stored evidence
  // ---------------------------------------------------------------------------

  function Outcomes(rs: seq<StoredResult>): (r: seq<ScannerOutcome>)
    ensures |r| == |rs|
    ensures forall i :: 0 <= i < |rs| ==> r[i] == rs[i].outcome
  {
    seq(|rs|, i requires 0 <= i < |rs| => rs[i].outcome)
  }

  // ON DELETE SET NULL
  function Forget(rs: seq<StoredResult>, scanner: nat): (r: seq<StoredResult>)
    ensures |r| == |rs|
    ensures forall i :: 0 <= i < |rs| ==> r[i].outcome == rs[i].outcome
    ensures forall i :: 0 <= i < |rs| ==>
      r[i].scannerId == if rs[i].scannerId == Some(scanner) then None else rs[i].scannerId
  {
    seq(|rs|, i requires 0 <= i < |rs| =>
      rs[i].(scannerId := if rs[i].scannerId == Some(scanner) then None else rs[i].scannerId))
  }

  // ---------------------------------------------------------------------------
  // get_dashboard_stats
  // ---------------------------------------------------------------------------

  datatype Stats = Stats(total: nat, clean: nat, infected: nat, errors: nat, encrypted: nat, scanning: nat,
                         waiting: nat)

  function Count(statuses: seq<Status>, counted: set<Status>): nat {
    if statuses == [] then 0
    else (if statuses[0] in counted then 1 else 0) + Count(statuses[1..], counted)
  }

  function DashboardStats(statuses: seq<Status>): Stats {
    Stats(
      |statuses|,
      Count(statuses, {CLEAN}),
      Count(statuses, {INFECTED}),
      Count(statuses, {ERROR, CLEANUP_FAILED}),
      Count(statuses, {ENCRYPTED}),
      Count(statuses, {SCANNING}),
      Count(statuses, {RECEIVED, VALIDATING, TRANSFERRING}))
  }

  // The rows, by their places, whose status is one of the given.
  ghost function Places(statuses: seq<Status>, counted: set<Status>): set<int> {
    set i | 0 <= i < |statuses| && statuses[i] in counted
  }

  lemma {:induction false} CountLast(statuses: seq<Status>, last: Status, counted: set<Status>)
    ensures Count(statuses + [last], counted) == Count(statuses, counted) + if last in counted then 1 else 0
  {
    if statuses == [] {
      assert ([] + [last])[1..] == [];
    } else {
      CountLast(statuses[1..], last, counted);
      assert (statuses + [last])[1..] == statuses[1..] + [last];
    }
  }

  lemma {:induction false} CountIsPlaces(statuses: seq<Status>, counted: set<Status>)
    ensures Count(statuses, counted) == |Places(statuses, counted)|
  {
    if statuses == [] {
    } else {
      var n := |statuses| - 1;
      var front, last := statuses[..n], statuses[n];
      CountIsPlaces(front, counted);
      CountLast(front, last, counted);
      assert statuses == front + [last];
      var here: set<int> := if last in counted then {n} else {};
      assert Places(statuses, counted) == Places(front, counted) + here;
    }
  }

  // Each counter is the number of rows with its statuses.
  lemma CountersMean(statuses: seq<Status>)
    ensures var s := DashboardStats(statuses);
      && s.total == |statuses|
      && s.clean == |set i | 0 <= i < |statuses| && statuses[i] == CLEAN|
      && s.infected == |set i | 0 <= i < |statuses| && statuses[i] == INFECTED|
      && s.errors == |set i | 0 <= i < |statuses| && (statuses[i] == ERROR || statuses[i] == CLEANUP_FAILED)|
      && s.encrypted == |set i | 0 <= i < |statuses| && statuses[i] == ENCRYPTED|
      && s.scanning == |set i | 0 <= i < |statuses| && statuses[i] == SCANNING|
      && s.waiting == |set i | 0 <= i < |statuses|
                              && (statuses[i] == RECEIVED || statuses[i] == VALIDATING || statuses[i] == TRANSFERRING)|
  {
    CountIsPlaces(statuses, {CLEAN});
    assert Places(statuses, {CLEAN}) == set i | 0 <= i < |statuses| && statuses[i] == CLEAN;
    CountIsPlaces(statuses, {INFECTED});
    assert Places(statuses, {INFECTED}) == set i | 0 <= i < |statuses| && statuses[i] == INFECTED;
    CountIsPlaces(statuses, {ERROR, CLEANUP_FAILED});
    assert Places(statuses, {ERROR, CLEANUP_FAILED})
      == set i | 0 <= i < |statuses| && (statuses[i] == ERROR || statuses[i] == CLEANUP_FAILED);
    CountIsPlaces(statuses, {ENCRYPTED});
    assert Places(statuses, {ENCRYPTED}) == set i | 0 <= i < |statuses| && statuses[i] == ENCRYPTED;
    CountIsPlaces(statuses, {SCANNING});
    assert Places(statuses, {SCANNING}) == set i | 0 <= i < |statuses| && statuses[i] == SCANNING;
    CountIsPlaces(statuses, {RECEIVED, VALIDATING, TRANSFERRING});
    assert Places(statuses, {RECEIVED, VALIDATING, TRANSFERRING})
      == set i | 0 <= i < |statuses|
                 && (statuses[i] == RECEIVED || statuses[i] == VALIDATING || statuses[i] == TRANSFERRING);
  }

  // The six counters miss exactly the QUARANTINED rows.
  lemma {:induction false} StatsBalance(statuses: seq<Status>)
    ensures var s := DashboardStats(statuses);
      s.total == s.clean + s.infected + s.errors + s.encrypted + s.scanning + s.waiting + Count(statuses, {QUARANTINED})
  {
    if statuses == [] {
    } else {
      StatsBalance(statuses[1..]);
      var rest := statuses[1..];
      match statuses[0]
      case RECEIVED | VALIDATING | TRANSFERRING =>
        assert DashboardStats(statuses).waiting == 1 + DashboardStats(rest).waiting;
      case SCANNING => assert DashboardStats(statuses).scanning == 1 + DashboardStats(rest).scanning;
      case CLEAN => assert DashboardStats(statuses).clean == 1 + DashboardStats(rest).clean;
      case INFECTED => assert DashboardStats(statuses).infected == 1 + DashboardStats(rest).infected;
      case ERROR | CLEANUP_FAILED => assert DashboardStats(statuses).errors == 1 + DashboardStats(rest).errors;
      case ENCRYPTED => assert DashboardStats(statuses).encrypted == 1 + DashboardStats(rest).encrypted;
      case QUARANTINED =>
        assert Count(statuses, {QUARANTINED}) == 1 + Count(rest, {QUARANTINED});
    }
  }

  lemma {:induction false} CountZero(statuses: seq<Status>, st: Status)
    ensures Count(statuses, {st}) == 0 <==> st !in statuses
  {
    if statuses == [] {
    } else {
      CountZero(statuses[1..], st);
      assert statuses == [statuses[0]] + statuses[1..];
    }
  }
}
