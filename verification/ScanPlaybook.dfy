// The scan playbook: one staged-hash check, then one container per scanner
// (ansible/scan_uploaded_file.yml, ansible/tasks/run_one_scanner.yml).
module ScanPlaybook {
  import opened Wrappers
  import opened Policy

  datatype Parser = ClamavWrapperJson | GenericExitCode

  datatype ScannerConfig = ScannerConfig(id: nat, name: string, slug: string, parser: Parser)

  // The status field of a result object: absent, JSON null, or a value.
  datatype RawStatus = Missing | Null | Text(status: ResultStatus)

  datatype RawResult = RawResult(name: string, slug: string, status: RawStatus, threat: Option<string>)

  // A missing status counts as ERROR; a null one is no status the table knows.
  function StatusOf(r: RawResult): ResultStatus {
    match r.status
    case Missing => Failed
    case Null => Unrecognised("null")
    case Text(st) => st
  }

  function OutcomeOf(r: RawResult): ScannerOutcome {
    ScannerOutcome(r.name, StatusOf(r), r.threat)
  }

  function RawOutcomes(raw: seq<RawResult>): (r: seq<ScannerOutcome>)
    ensures |r| == |raw|
    ensures forall i :: 0 <= i < |raw| ==> r[i] == OutcomeOf(raw[i])
  {
    seq(|raw|, i requires 0 <= i < |raw| => OutcomeOf(raw[i]))
  }

  // One result per scanner, in the scanners' order, under the scanner's own name.
  predicate Aligned(scanners: seq<ScannerConfig>, raw: seq<RawResult>) {
    |raw| == |scanners|
    && forall i :: 0 <= i < |raw| ==> raw[i].name == scanners[i].name && raw[i].slug == scanners[i].slug
  }

  // What happens around one container. `prepared` is the task before the
  // block, whose failure the block's rescue does not catch.
  datatype ContainerRun = ContainerRun(
    prepared: bool,
    completed: bool,             // every task inside the block up to the append
    jsonStatus: RawStatus,
    jsonThreat: Option<string>,
    exitCode: Option<int>)

  function ResultFor(item: ScannerConfig, run: ContainerRun): RawResult {
    if !run.completed then RawResult(item.name, item.slug, Text(Failed), None)
    else match item.parser
      case ClamavWrapperJson => RawResult(item.name, item.slug, run.jsonStatus, run.jsonThreat)
      case GenericExitCode =>
        RawResult(item.name, item.slug, Text(if run.exitCode.GetOr(1) == 0 then Clean else Failed), None)
  }

  // What a result says of its container, parser by parser.
  ghost predicate Tells(item: ScannerConfig, run: ContainerRun, x: RawResult) {
    && x.name == item.name && x.slug == item.slug
    && (!run.completed ==> x.status == Text(Failed) && x.threat == None)
    && (run.completed && item.parser == ClamavWrapperJson ==> x.status == run.jsonStatus && x.threat == run.jsonThreat)
    && (run.completed && item.parser == GenericExitCode ==>
          x.threat == None && (x.status == Text(Clean) || x.status == Text(Failed))
          && (x.status == Text(Clean) <==> run.exitCode == Some(0)))
  }

  // A container counts as clean only by its own word: the status it wrote, or, for
  // one that writes none, an exit with 0. One that writes none never detects.
  lemma ReadingMeans(item: ScannerConfig, run: ContainerRun)
    ensures Tells(item, run, ResultFor(item, run))
    ensures var st := StatusOf(ResultFor(item, run));
      && (st == Clean <==>
            run.completed && if item.parser == GenericExitCode then run.exitCode == Some(0)
                             else run.jsonStatus == Text(Clean))
      && (st == Infected <==> run.completed && item.parser == ClamavWrapperJson && run.jsonStatus == Text(Infected))
      && (st.Unrecognised? <==>
            run.completed && item.parser == ClamavWrapperJson
            && (run.jsonStatus == Null || (run.jsonStatus.Text? && run.jsonStatus.status.Unrecognised?)))
  {}

  // What a play that passes the strictest policy has seen.
  lemma StrictPassMeans(scanners: seq<ScannerConfig>, runs: seq<ContainerRun>, raw: seq<RawResult>)
    requires |runs| == |scanners| == |raw|
    requires forall i :: 0 <= i < |raw| ==> Tells(scanners[i], runs[i], raw[i])
    requires Aggregate(RawOutcomes(raw), AllMustPass).allowed
    ensures forall i :: 0 <= i < |raw| ==> runs[i].completed
    ensures forall i :: 0 <= i < |raw| && scanners[i].parser == GenericExitCode ==> runs[i].exitCode == Some(0)
    ensures forall i :: 0 <= i < |raw| && scanners[i].parser == ClamavWrapperJson ==>
      runs[i].jsonStatus != Missing && runs[i].jsonStatus != Text(Failed) && runs[i].jsonStatus != Text(Infected)
  {
    VerdictIs(RawOutcomes(raw), AllMustPass);
    forall i | 0 <= i < |raw|
      ensures raw[i].status != Missing && raw[i].status != Text(Failed) && raw[i].status != Text(Infected)
    {
      assert RawOutcomes(raw)[i].status == StatusOf(raw[i]);
    }
  }

  datatype StagedFile = StagedFile(isRegular: bool, checksum: string)

  datatype ScanOutcome =
    | ScanUnavailable                                                  // the playbook could not be run
    | ScanRejected                                                     // stage: precondition_failed
    | ScanCompleted(actual: Option<string>, raw: seq<RawResult>)       // stage: completed

  class Play {
    var scanResults: seq<RawResult>
    var finalResult: ScanOutcome

    constructor ()
      ensures scanResults == []
    {
      scanResults, finalResult := [], ScanUnavailable;
    }

    // Exactly one result is appended whatever the container does, unless the
    // task outside the block fails.
    method RunOneScanner(item: ScannerConfig, run: ContainerRun) returns (r: Outcome)
      modifies this`scanResults
      ensures r.Returned? <==> run.prepared
      ensures scanResults == old(scanResults) + if run.prepared then [ResultFor(item, run)] else []
      ensures run.prepared ==>
        |scanResults| == |old(scanResults)| + 1 && Tells(item, run, scanResults[|old(scanResults)|])
    {
      ReadingMeans(item, run);
      if !run.prepared {
        return Raised;
      }
      var appended := RunBlock(item, run);
      if appended.Raised? {
        scanResults := scanResults + [RawResult(item.name, item.slug, Text(Failed), None)];
      }
      return Returned;
    }

    // The block: run the container, then the parser the scanner is configured
    // with appends its reading.
    method RunBlock(item: ScannerConfig, run: ContainerRun) returns (r: Outcome)
      modifies this`scanResults
      ensures r.Returned? <==> run.completed
      ensures r.Returned? ==> scanResults == old(scanResults) + [ResultFor(item, run)]
      ensures r.Returned? ==>
        |scanResults| == |old(scanResults)| + 1 && Tells(item, run, scanResults[|old(scanResults)|])
      ensures r.Raised? ==> scanResults == old(scanResults)
    {
      if !run.completed {
        return Raised;
      }
      if item.parser == ClamavWrapperJson {
        scanResults := scanResults + [RawResult(item.name, item.slug, run.jsonStatus, run.jsonThreat)];
      }
      if item.parser == GenericExitCode {
        var exited := run.exitCode.GetOr(1);
        scanResults := scanResults + [RawResult(item.name, item.slug, Text(if exited == 0 then Clean else Failed),
                                                None)];
      }
      return Returned;
    }

    // `staged` is what stat finds at the staged path; `prepared` whether the
    // ownership tasks succeed; runs[i] what the i-th scanner does.
    method Run(staged: Option<StagedFile>, expected: string, prepared: bool,
               scanners: seq<ScannerConfig>, runs: seq<ContainerRun>)
      requires |runs| == |scanners|
      modifies this
      ensures finalResult.ScanCompleted? || finalResult.ScanRejected?
      ensures finalResult.ScanCompleted? <==>
        staged.Some? && staged.value.isRegular && staged.value.checksum == expected && prepared
        && forall i :: 0 <= i < |runs| ==> runs[i].prepared
      ensures finalResult.ScanCompleted? ==>
        finalResult.actual == Some(expected) && Aligned(scanners, finalResult.raw)
        && forall i :: 0 <= i < |scanners| ==> finalResult.raw[i] == ResultFor(scanners[i], runs[i])
      ensures finalResult.ScanCompleted? ==>
        forall i :: 0 <= i < |scanners| ==> Tells(scanners[i], runs[i], finalResult.raw[i])
    {
      forall i | 0 <= i < |scanners| ensures Tells(scanners[i], runs[i], ResultFor(scanners[i], runs[i])) {
        ReadingMeans(scanners[i], runs[i]);
      }
      scanResults := [];
      var r := RunTasks(staged, expected, prepared, scanners, runs);
      if r.Raised? {
        finalResult := ScanRejected;
      } else {
        finalResult := ScanCompleted(Some(staged.value.checksum), scanResults);
      }
    }

    method RunTasks(staged: Option<StagedFile>, expected: string, prepared: bool,
                    scanners: seq<ScannerConfig>, runs: seq<ContainerRun>) returns (r: Outcome)
      requires |runs| == |scanners| && scanResults == []
      modifies this`scanResults
      ensures r.Returned? <==>
        staged.Some? && staged.value.isRegular && staged.value.checksum == expected && prepared
        && forall i :: 0 <= i < |runs| ==> runs[i].prepared
      ensures r.Returned? ==> |scanResults| == |scanners|
      ensures r.Returned? ==> forall i :: 0 <= i < |scanners| ==> scanResults[i] == ResultFor(scanners[i], runs[i])
    {
      if staged.None? || !staged.value.isRegular {
        return Raised;
      }
      if staged.value.checksum != expected || !prepared {
        return Raised;
      }
      for k := 0 to |scanners|
        invariant |scanResults| == k
        invariant forall i :: 0 <= i < k ==> runs[i].prepared && scanResults[i] == ResultFor(scanners[i], runs[i])
      {
        :- RunOneScanner(scanners[k], runs[k]);
      }
      return Returned;
    }
  }
}
