// What callers are told: the two response projections, the synchronous wait and
// the legacy client's polling loop (api/main.py:264-277, api/routes_upload.py:
// 361-419, scripts/nextcloud-upload-scanner.sh:145-205).
module Client {
  import opened Wrappers
  import opened Policy
  import opened ScanTable
  import opened Protocol
  import opened Runs

  datatype Response = Response(status: Status, allowed: Option<bool>, sha256: Option<string>, threat: Option<string>)

  // _scan_status_response
  function ScanStatusResponse(row: Row): Response {
    match row.status
    case CLEAN => Response(row.status, Some(true), Some(row.sha256), None)
    case INFECTED => Response(row.status, Some(false), Some(row.sha256), row.threat)
    case ERROR => Response(row.status, Some(false), None, None)
    case CLEANUP_FAILED => Response(row.status, Some(false), None, None)
    case _ => Response(row.status, None, None, None)
  }

  // _build_upload_response, but for its two lists.
  function UploadResponse(row: Row): Response {
    var allowed :=
      match row.status
      case CLEAN => Some(true)
      case INFECTED => Some(false)
      case ENCRYPTED => Some(row.allowed == Some(true))
      case ERROR => Some(false)
      case CLEANUP_FAILED => Some(false)
      case _ => None;
    Response(row.status, allowed, Some(row.sha256), None)
  }

  // The list of threats in an INFECTED upload response: no duplicates, no empty ones.
  function UploadThreats(results: seq<StoredResult>): set<string> {
    set i | 0 <= i < |results| && results[i].outcome.status == Infected && results[i].outcome.threat.GetOr("") != "" ::
      results[i].outcome.threat.value
  }

  // It has the threat that the other response reports.
  lemma ThreatsAgree(cfg: Config, r: Run, k: nat, id: nat)
    requires r.Valid(cfg) && k < |r.states| && id < |r.states[k].entries|
    requires r.states[k].entries[id].row.status == INFECTED
    ensures var e := r.states[k].entries[id];
      && (exists i :: 0 <= i < |e.results| && e.results[i].outcome.status == Infected
                      && ScanStatusResponse(e.row).threat == e.results[i].outcome.threat)
      && (ScanStatusResponse(e.row).threat.GetOr("") != "" ==>
            ScanStatusResponse(e.row).threat.value in UploadThreats(e.results))
      && "" !in UploadThreats(e.results)
  {
    ResponsesAreHonest(cfg, r, k, id);
    CleanRowHasEvidence(cfg, r, k, id);
    var e := r.states[k].entries[id];
    ThreatMeans(Outcomes(e.results), e.row.policyApplied.value);
    VerdictIs(Outcomes(e.results), e.row.policyApplied.value);
    var i :| 0 <= i < |e.results| && Outcomes(e.results)[i].status == Infected
      && e.row.threat == Outcomes(e.results)[i].threat;
    assert e.results[i].outcome.threat == e.row.threat;
  }

  // Neither projection reads CLEAN's `allowed` from the row; in every reachable
  // state they say "allowed" only of rows that are, and the two agree but for
  // encrypted files.
  lemma ResponsesAreHonest(cfg: Config, r: Run, k: nat, id: nat)
    requires r.Valid(cfg) && k < |r.states| && id < |r.states[k].entries|
    ensures var row := r.states[k].entries[id].row;
      && (ScanStatusResponse(row).allowed == Some(true) <==> row.status == CLEAN)
      && (UploadResponse(row).allowed == Some(true) ==> row.allowed == Some(true))
      && (UploadResponse(row).allowed == Some(true) <== row.allowed == Some(true) && row.status != CLEANUP_FAILED)
      && (row.status != ENCRYPTED ==> UploadResponse(row).allowed == ScanStatusResponse(row).allowed)
      && (ScanStatusResponse(row).allowed == None <==>
            row.status == RECEIVED || row.status == VALIDATING || row.status == TRANSFERRING || row.status == SCANNING
            || row.status == ENCRYPTED)
      && ScanStatusResponse(row).status == row.status && UploadResponse(row).status == row.status
      && (ScanStatusResponse(row).sha256 == Some(row.sha256) <==> row.status == CLEAN || row.status == INFECTED)
      && (ScanStatusResponse(row).sha256 == None <==> row.status != CLEAN && row.status != INFECTED)
      && UploadResponse(row).sha256 == Some(row.sha256) && UploadResponse(row).threat == None
      && (row.status != INFECTED ==> ScanStatusResponse(row).threat == None)
    ensures var e := r.states[k].entries[id];
      e.row.status == INFECTED ==>
        e.row.policyApplied.Some?
        && ScanStatusResponse(e.row).threat == Aggregate(Outcomes(e.results), e.row.policyApplied.value).threat
  {
    VerdictAgreesWithStatus(cfg, r, k, id);
    CleanRowHasEvidence(cfg, r, k, id);
  }

  predicate IsTerminal(st: Status) {
    st == CLEAN || st == INFECTED || st == ERROR || st == ENCRYPTED || st == CLEANUP_FAILED
  }

  // ---------------------------------------------------------------------------
  // ?wait=true
  // ---------------------------------------------------------------------------

  // One turn of a loop that reads a row: the moment of the run it reads, or None
  // when there is no row, and the clock after that.
  datatype Look = Look(at: Option<nat>, now: real)

  datatype Polled = Found(row: Row) | Disappeared

  predicate Readable(r: Run, at: nat, id: nat) {
    at < |r.states| && id < |r.states[at].entries|
  }

  function RowRead(r: Run, at: nat, id: nat): Row
    requires Readable(r, at, id)
  {
    r.states[at].entries[id].row
  }

  predicate Sees(r: Run, id: nat, look: Look) {
    look.at.Some? ==> Readable(r, look.at.value, id)
  }

  function Seen(r: Run, id: nat, look: Look): Polled
    requires Sees(r, id, look)
  {
    if look.at.Some? then Found(RowRead(r, look.at.value, id)) else Disappeared
  }

  predicate EndsWait(p: Polled) {
    p.Disappeared? || IsTerminal(p.row.status)
  }

  // The body that the caller gets; a row that is gone is an error.
  function WaitResponse(p: Polled): Response {
    if p.Found? then UploadResponse(p.row) else Response(ERROR, Some(false), None, None)
  }

  // _poll_until_terminal: the answer is what was read, at the first turn that finds
  // a terminal row or none at all, or at the first read after which the deadline
  // has passed. It says "allowed" only of a row that was.
  method PollUntilTerminal(cfg: Config, r: Run, id: nat, looks: seq<Look>, deadline: real)
    returns (answer: Polled, last: nat)
    requires r.Valid(cfg) && forall i :: 0 <= i < |looks| ==> Sees(r, id, looks[i])
    requires looks != [] && looks[|looks| - 1].now >= deadline
    ensures last < |looks| && answer == Seen(r, id, looks[last])
    ensures answer.Disappeared? || looks[last].now >= deadline
      || answer.row.status in {CLEAN, INFECTED, ERROR, ENCRYPTED, CLEANUP_FAILED}
    ensures forall i :: 0 <= i < last ==>
      looks[i].now < deadline && Seen(r, id, looks[i]).Found?
      && Seen(r, id, looks[i]).row.status !in {CLEAN, INFECTED, ERROR, ENCRYPTED, CLEANUP_FAILED}
    ensures WaitResponse(answer).allowed == Some(true) ==> answer.Found? && answer.row.allowed == Some(true)
    ensures answer.Disappeared? ==> WaitResponse(answer).status == ERROR && WaitResponse(answer).allowed == Some(false)
  {
    last := 0;
    while true
      invariant last < |looks|
      invariant forall i :: 0 <= i < last ==> !EndsWait(Seen(r, id, looks[i])) && looks[i].now < deadline
      decreases |looks| - last
    {
      answer := Seen(r, id, looks[last]);
      if answer.Found? { ResponsesAreHonest(cfg, r, looks[last].at.value, id); }
      if EndsWait(answer) { return; }
      if looks[last].now >= deadline { return; }
      last := last + 1;
    }
  }

  // ---------------------------------------------------------------------------
  // The legacy client
  // ---------------------------------------------------------------------------

  datatype PollReply = CurlFailed | NotOk(code: int) | Served(at: nat)

  // The clock at the top of the loop and what curl then brings.
  datatype Poll = Poll(now: int, reply: PollReply)

  predicate Answers(r: Run, id: nat, p: Poll, deadline: int, status: Status)
    requires p.reply.Served? ==> Readable(r, p.reply.at, id)
  {
    p.now < deadline && p.reply.Served? && ScanStatusResponse(RowRead(r, p.reply.at, id)).status == status
  }

  // Turns that end the loop.
  predicate Decisive(r: Run, id: nat, p: Poll, deadline: int)
    requires p.reply.Served? ==> Readable(r, p.reply.at, id)
  {
    p.now >= deadline || Answers(r, id, p, deadline, CLEAN) || Answers(r, id, p, deadline, INFECTED)
    || Answers(r, id, p, deadline, ERROR) || Answers(r, id, p, deadline, CLEANUP_FAILED)
  }

  ghost predicate Linked(r: Run, created: nat, id: nat, polls: seq<Poll>) {
    Readable(r, created, id)
    && forall k :: 0 <= k < |polls| && polls[k].reply.Served? ==>
         created <= polls[k].reply.at && Readable(r, polls[k].reply.at, id)
  }

  ghost predicate CleanAndSubmitted(e: Entry, submitted: string) {
    e.row.status == CLEAN && e.row.allowed == Some(true) && e.row.sha256 == Lower(submitted)
    && e.hashedAtScan == Some(Lower(submitted)) && Evidence(e)
  }

  // The script exits 0 only on a row that, when it was read, was CLEAN, allowed,
  // backed by stored results and about the submitted content; encrypted rows keep
  // it polling and rows whose cleanup failed exit 2.
  method LegacyClient(cfg: Config, r: Run, ghost created: nat, id: nat, ghost submitted: string, polls: seq<Poll>,
                      deadline: int)
    returns (code: int, last: nat)
    requires r.Valid(cfg) && Linked(r, created, id, polls)
    requires RowRead(r, created, id).sha256 == Lower(submitted)
    requires polls != [] && polls[|polls| - 1].now >= deadline
    ensures last < |polls| && Decisive(r, id, polls[last], deadline)
    ensures forall k :: 0 <= k < last ==> !Decisive(r, id, polls[k], deadline)
    ensures code == 0 <==> Answers(r, id, polls[last], deadline, CLEAN)
    ensures code == 1 <==> Answers(r, id, polls[last], deadline, INFECTED)
    ensures code == 2 <==>
      polls[last].now >= deadline
      || Answers(r, id, polls[last], deadline, ERROR) || Answers(r, id, polls[last], deadline, CLEANUP_FAILED)
    ensures code == 0 || code == 1 || code == 2
    ensures forall k :: 0 <= k < last ==>
      polls[k].now < deadline
      && !(polls[k].reply.Served?
           && RowRead(r, polls[k].reply.at, id).status in {CLEAN, INFECTED, ERROR, CLEANUP_FAILED})
    ensures code == 0 ==> CleanAndSubmitted(r.states[polls[last].reply.at].entries[id], submitted)
  {
    last := 0;
    while true
      invariant last < |polls| && forall k :: 0 <= k < last ==> !Decisive(r, id, polls[k], deadline)
      decreases |polls| - last
    {
      if polls[last].now >= deadline {
        return 2, last;
      }
      if polls[last].reply.Served? {
        var at := polls[last].reply.at;
        var status := ScanStatusResponse(RowRead(r, at, id)).status;
        match status {
          case CLEAN =>
            ReadClean(cfg, r, created, at, id, submitted);
            return 0, last;
          case INFECTED => return 1, last;
          case ERROR => return 2, last;
          case CLEANUP_FAILED => return 2, last;
          case _ =>
        }
      }
      last := last + 1;
    }
  }

  lemma ReadClean(cfg: Config, r: Run, created: nat, at: nat, id: nat, submitted: string)
    requires r.Valid(cfg) && created <= at < |r.states| && id < |r.states[created].entries|
    requires id < |r.states[at].entries|
    requires r.states[created].entries[id].row.sha256 == Lower(submitted)
    requires r.states[at].entries[id].row.status == CLEAN
    ensures CleanAndSubmitted(r.states[at].entries[id], submitted)
  {
    VerdictAgreesWithStatus(cfg, r, at, id);
    VerdictIsAboutSubmittedContent(cfg, r, created, at, id);
    CleanRowHasEvidence(cfg, r, at, id);
  }
}
