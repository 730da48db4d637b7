// The fetch playbook, and what its hash check is worth before the scan
// playbook's own (ansible/fetch_from_nextcloud.yml, ansible/scan_uploaded_file.yml).
module FetchPlaybook {
  import opened Wrappers
  import opened ScanPlaybook
  import opened Protocol

  datatype RemoteFile = RemoteFile(isRegular: bool, size: int, checksum: string)

  // What the tasks meet on the Nextcloud host, each at its own moment: the file
  // may change between the stat and the transfer.
  datatype SourceHost = SourceHost(
    reachable: bool,
    realpath: Option<string>,          // realpath -e
    atStat: Option<RemoteFile>,        // None: does not exist
    directoryReady: bool,
    atTransfer: Option<string>)        // checksum of the bytes that arrive; None: the transfer fails

  class FetchPlay {
    var staged: Option<string>         // checksum of the staged copy
    var finalResult: FetchOutcome

    constructor ()
      ensures staged == None && finalResult == FetchUnavailable
    {
      staged, finalResult := None, FetchUnavailable;
    }

    // The ping stands outside the block: when it fails no result is written.
    method Run(host: SourceHost, allowedRoot: string, expected: string, maxSize: int)
      requires staged == None
      modifies this
      ensures finalResult.FetchUnavailable? <==> !host.reachable
      ensures finalResult.FetchCompleted? <==>
        host.reachable && host.realpath.Some? && UnderRoot(host.realpath.value, allowedRoot)
        && host.atStat.Some? && host.atStat.value.isRegular && host.atStat.value.size <= maxSize
        && host.atStat.value.checksum == expected && host.directoryReady && host.atTransfer.Some?
      ensures finalResult.FetchCompleted? ==> finalResult.actual == Some(expected) && staged == host.atTransfer
      ensures !finalResult.FetchCompleted? ==> staged == None
    {
      if !host.reachable {
        finalResult := FetchUnavailable;
        return;
      }
      var r := RunBlock(host, allowedRoot, expected, maxSize);
      if r.Raised? {
        finalResult := FetchRejected;
      } else {
        finalResult := FetchCompleted(Some(host.atStat.value.checksum));
      }
    }

    method RunBlock(host: SourceHost, allowedRoot: string, expected: string, maxSize: int) returns (r: Outcome)
      modifies this`staged
      ensures r.Returned? <==>
        host.realpath.Some? && UnderRoot(host.realpath.value, allowedRoot)
        && host.atStat.Some? && host.atStat.value.isRegular && host.atStat.value.size <= maxSize
        && host.atStat.value.checksum == expected && host.directoryReady && host.atTransfer.Some?
      ensures staged == if r.Returned? then host.atTransfer else old(staged)
    {
      if host.realpath.None? { return Outcome.Raised; }
      if !UnderRoot(host.realpath.value, allowedRoot) { return Outcome.Raised; }
      if host.atStat.None? { return Outcome.Raised; }
      if !host.atStat.value.isRegular { return Outcome.Raised; }
      if host.atStat.value.size > maxSize { return Outcome.Raised; }
      if host.atStat.value.checksum != expected { return Outcome.Raised; }
      if !host.directoryReady { return Outcome.Raised; }
      if host.atTransfer.None? { return Outcome.Raised; }
      staged := host.atTransfer;
      return Returned;
    }
  }

  // The hash that the fetch playbook reports is the one at the stat, so the
  // worker's comparison after the transfer cannot fail: a file that was swapped
  // in between gets past it. The scan playbook's check of the staged copy is what
  // stops it: whatever happens on the host, scanners run on exactly the
  // submitted content.
  method TransferThenScan(host: SourceHost, allowedRoot: string, expected: string, maxSize: int, prepared: bool,
                          scanners: seq<ScannerConfig>, runs: seq<ContainerRun>)
    returns (fetched: FetchOutcome, scanned: ScanOutcome)
    requires |runs| == |scanners| && expected != ""
    ensures fetched.FetchCompleted? ==> HashAccepted(fetched.actual, expected)
    ensures scanned.ScanCompleted? ==>
      fetched.FetchCompleted? && host.atTransfer == Some(expected) && scanned.actual == Some(expected)
      && Aligned(scanners, scanned.raw)
    ensures fetched.FetchCompleted? && host.atTransfer != Some(expected) ==> scanned.ScanRejected?
  {
    var fetch := new FetchPlay();
    fetch.Run(host, allowedRoot, expected, maxSize);
    fetched, scanned := fetch.finalResult, ScanUnavailable;
    if fetched.FetchCompleted? {
      var staged := match fetch.staged case Some(checksum) => Some(StagedFile(true, checksum)) case None => None;
      var play := new Play();
      play.Run(staged, expected, prepared, scanners, runs);
      scanned := play.finalResult;
    }
  }
}
