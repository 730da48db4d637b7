# Upload scanner: the scan-job protocol and what surrounds it

The system scans uploaded files. An API inserts rows into one `scans` table,
worker processes claim them, transfer the file, look for encryption, run the
scanners of a profile in containers, store one result per scanner and then a
verdict, delete an infected source on its Nextcloud host, and tidy the staging
directory. A periodic sweep forces rows that stay in progress too long to ERROR.
No write looks at the row's current status, so every safety claim rests on who
may write what, and when.

`dafny verify dfyconfig.toml` checks everything.

## How the model is laid out

| file | what it holds |
|---|---|
| `Protocol.dfy` | a state machine: workers, job threads with a program counter, sweeps, the API, re-scan requests, the clock, the remote hosts. One step is one statement, one external call or one change of the environment; any statement may raise, with or without having reached the table, and any worker may crash |
| `RowInvariant.dfy`, `SystemInvariant.dfy`, `StepEffects.dfy` | the invariant of a row and its threads, of the whole system, and the effect of one step on one thread and one row |
| `Runs.dfy`, `SourceDeletion.dfy`, `Quarantine.dfy`, `Finality.dfy`, `FinalityWitness.dfy`, `CrashRecovery.dfy`, `Aftermath.dfy`, `DeletionWitness.dfy` | theorems over every run, and the two runs that show what does not hold of every run |
| `Provenance.dfy`, `EncryptedFiles.dfy`, `Progress.dfy` | what a row says, traced back to the answers its job has heard: the verdict, the decision on an encrypted file, the status and the sub-statuses; new rows and re-scans; that a job ends and nobody is stuck |
| `Calls.dfy` | what one thread does in a stretch of a run: the calls it makes, in order, with their answers |
| `WorkerCode.dfy`, `WorkerLoop.dfy` | `api/scanner.py` and `api/worker.py` as imperative code, with every other actor moving between any two calls. Each method goes on with the run it finds, by steps of the protocol, and its contract says which calls its own thread has made in the stretch it adds |
| `Policy.dfy`, `ScanTable.dfy`, `ScanPlaybook.dfy`, `FetchPlaybook.dfy` | verdict aggregation, the tables and their constraints, the two transfer-and-scan playbooks |
| `Profiles.dfy`, `ProfileVerdicts.dfy` | from the order numbers on the profile form to the deciding scanner, and to the verdict in the row |
| `Templates.dfy`, `Paths.dfy` | command placeholders; POSIX path normalisation under a root; `Sequences.dfy` and `Wrappers.dfy` hold what several files use |
| `Windows.dfy`, `Upload.dfy`, `Client.dfy` | rate limiters and login lockout; the streamed upload; response projections, the synchronous wait and the legacy client |

Inputs that the code gets from outside are parameters or nondeterministic
answers: the clock, playbook outcomes, encryption sniffing, the content of remote
files, hash functions, and which statements fail.

## Where the code and its documentation disagree

The model follows the code. Where a difference depends on the input or the
environment, its exact condition is proved.

* `aggregate_scan_results` promises `allowed=True` only with an explicit CLEAN
  result. `Policy.AllowedWithoutCleanIff` gives the lists for which it is not so;
  the CHECK on `scan_results.status` and the order of the two writes close the gap
  (`Runs.CleanRowHasEvidence`).
* A verdict can be overruled by a job that the sweep took for dead.
  `FinalityWitness.FinalityIffLifetimeCoversBudget` says for which settings it
  cannot.
* `validate_scan_command` promises non-empty arguments without newlines. Empty
  arguments pass, and so does one newline with nothing but placeholders behind it
  (`Templates.AcceptedIff`, `Templates.OnlyNewlinesSlip`).
* The comment in `ansible/tasks/run_one_scanner.yml:88-94` says that file-supplied
  content is not templated again. The second of the two replaces
  (`api/scanners.py:152-164`) does it, exactly as `Templates.RenderExactlyWhen`
  states; for the paths that are inserted, which begin with a slash, that is when
  the path contains `{{OUTPUT}}` (`Templates.AbsolutePathFormsMarkIff`). Whether
  Ansible templates the extra variable `source_filename` itself is not part of this
  model.
* The head of `ansible/delete_infected_source.yml` (lines 9-19) promises that a file
  that has changed is never deleted. Hash and removal are two tasks, and a change of
  the host between them is not seen: other content at the same path goes, and so does
  a directory with what is in it (`SourceDeletion.ReplacedFileGoes`,
  `SourceDeletion.DirectoryGoes`, and as a whole run
  `DeletionWitness.ReplacementIsDeleted`). If the host is quiet between the two, only
  the content that was hashed goes (`SourceDeletion.OnlyConfirmedInfectedSourcesGo`,
  `SourceDeletion.QuietHostSuffices`). At the removal itself the exact condition is
  that the host has nothing at the path but that content
  (`SourceDeletion.TakesOnlyCheckedIff`).
* `api/scanner.py:71-74` says that uploaded bytes are staged before the row is queued.
  `api/routes_upload.py:197-228` inserts the row first and moves the file afterwards,
  so a worker can find no file when it looks for encryption and skip the detection for
  a file that is there when the scanners run. `EncryptedFiles.DetectedIsNeverScanned`
  is about the files that the detection has answered for.
* A root consisting only of slashes admits every path in the API and only the
  root itself in the playbooks (`Paths.PlaybookAgreesIff`).
* The fetch playbook reports the hash taken before the transfer, so the worker's
  comparison after it cannot fail; the check of the staged copy is what counts
  (`FetchPlaybook.TransferThenScan`).

## Model

| member | source | states |
|---|---|---|
| Policy.VerdictMeans | api/policy.py:28-99 | for the statuses the table can hold: what each policy's verdict says about the individual results, in both directions, and that allowed means CLEAN |
| Policy.VerdictIs | api/policy.py:28-99 | for every list, whatever its statuses: the verdict is CLEAN, INFECTED or ERROR, allowed means CLEAN, and which of the three each policy gives in terms of the statuses that occur |
| Policy.ThreatMeans | api/policy.py:45-97 | the reported threat is the first detection's, under FIRST_SUCCESS the first answer's, and none without an INFECTED verdict |
| Policy.AllowedWithoutCleanIff | api/policy.py:33-36 | the function alone allows a file without a CLEAN result exactly for non-empty lists of unrecognised statuses under the two strict policies |
| Policy.UnrecognisedStatusIsAllowed | api/policy.py:90-97 | a concrete such list |
| Policy.SelectFinds | api/policy.py:41-43 | the filtered lists are empty iff no result has the status, and start with the first that has |
| Policy.FirstSuccessfulFinds | api/policy.py:66-71 | the FIRST_SUCCESS loop decides by the first CLEAN or INFECTED result, and refuses iff there is none |
| Policy.StrictPoliciesAgree | api/policy.py:45-59 | ALL_MUST_PASS and FIRST_DETECTION give the same status, allowed and threat on every list |
| Policy.PolicyLattice | api/policy.py:73-97 | allowed by ALL_MUST_PASS implies by ANY_DETECTION implies by FIRST_SUCCESS; how INFECTED compares |
| Policy.ErrorsAreIgnored | api/policy.py:61-88 | dropping failed scanners changes neither tolerant policy |
| Policy.OrderIrrelevant | api/policy.py:73-97 | permuting the results changes neither status nor allowed under ALL_MUST_PASS and ANY_DETECTION |
| Policy.OwnPolicyFirst | api/policy.py:111-115 | a category with a non-empty policy gets exactly that policy, whatever the default is replaced by; without one it gets a non-empty default; without both, DENY |
| Policy.EncryptedAllowedIff | api/policy.py:111-136 | an encrypted file is allowed iff ALLOW was written for its category, or as the default of a category without a policy |
| ScanTable.FormatMeans | db/migrations/0001_init.sql:77 | the hash column holds 64 of the characters 0-9 and a-f |
| ScanTable.AdmittedMeans | db/migrations/0002_platform.sql:97 | the result table takes CLEAN, INFECTED and ERROR and no other status |
| ScanTable.GuardAndCheckForceEquality | api/scanner.py:110-118 | the case-insensitive guard and the lower-case CHECK admit one value: the submitted hash |
| ScanTable.WrittenShows | api/db.py:155-167 | each column that an update names has its value afterwards, and no other column changes |
| ScanTable.CountersMean | api/db.py:245-262 | each dashboard counter is the number of rows with its statuses, spelled out |
| ScanTable.StatsBalance | api/db.py:245-262 | total exceeds the sum of the six counters by exactly the QUARANTINED rows |
| ScanPlaybook.ReadingMeans | ansible/tasks/run_one_scanner.yml:107-157 | a generic scanner counts as clean iff its container exited with 0 and is never a detection; a JSON scanner has the status it wrote; a block that failed, or a status that is absent, is a failure; null or another text is no status the table takes |
| ScanPlaybook.StrictPassMeans | api/policy.py:90-97 | a play that passes ALL_MUST_PASS has seen every container complete, every generic one exit with 0, and no JSON one without a status or with ERROR or INFECTED |
| ScanPlaybook.Play.RunOneScanner | ansible/tasks/run_one_scanner.yml:43-157 | one result is appended whatever the container does, under the scanner's own name, with what its parser makes of the container: by exit code, or the container's own status and threat, or ERROR; only the task outside the block can abort |
| ScanPlaybook.Play.RunBlock | ansible/tasks/run_one_scanner.yml:60-144 | which parser appends what of the container, and that a block that fails has appended nothing |
| ScanPlaybook.Play.Run | ansible/scan_uploaded_file.yml:33-129 | completed iff the staged file is regular, has the expected hash and every preparation works; then the expected hash and one result per scanner in order, each telling what its container did |
| FetchPlaybook.FetchPlay.Run | ansible/fetch_from_nextcloud.yml:38-136 | completed iff the canonical path is under the root and the file there is regular, small enough and has the expected hash at the stat; what is then staged |
| FetchPlaybook.TransferThenScan | ansible/scan_uploaded_file.yml:47-53 | a file swapped between stat and transfer is fetched but never scanned; scanners run on exactly the submitted content |
| Protocol.IdForIsLast | api/scanner.py:131-144 | a result is stored under the last scanner with its slug, under none if there is none |
| RowInvariant.StoredIsEvidence | api/scanner.py:131-144 | results in the scanners' order are stored as those scanners' own |
| RowInvariant.VerdictShape | api/scanner.py:120-155 | at the verdict statement the decision is CLEAN, INFECTED or ERROR and is allowed iff CLEAN |
| RowInvariant.AdvancedKeeps | api/scanner.py:21-187 | every step of a job or sweep keeps the invariant of its row and of itself, and never changes file, parent or hash |
| RowInvariant.OtherThreadKeeps | api/worker.py:47-53 | a sweep cannot disturb the job it races with, nor the job the sweep |
| RowInvariant.HarmlessEffect | api/scanner.py:424-434 | cleanup, failure and crash statements keep the row in order and its results as they are, never allow a file and never put a row back in progress |
| SystemInvariant.StepKeeps | api/db.py:129-167 | every enabled step of every actor keeps the invariant of the whole system |
| SystemInvariant.ReachableInv | api/scanner.py:21-199 | the invariant holds in every state of every run |
| SystemInvariant.ClaimCommitKeeps | api/db.py:129-152 | a claim committed after its lock keeps the invariant, other claims' locks included |
| StepEffects.ThreadAfter | api/worker.py:18-53 | a thread after any step is new from a claim or a sweep, moved by its own step, or at the same point |
| StepEffects.RowAfter | api/db.py:155-167 | a row after any step is the same, has lost a scanner reference, has been claimed, or has been written by its own job or by a sweep |
| Runs.VerdictAgreesWithStatus | api/scanner.py:146-155 | in every reachable state: CLEAN is allowed, INFECTED and ERROR are not, an allowed row is CLEAN, ENCRYPTED or CLEANUP_FAILED, none is QUARANTINED |
| Runs.AllowedVerdictHasEvidence | api/policy.py:33-36 | an allowed verdict over stored results has at least one CLEAN result, and those its policy demands |
| Runs.CleanRowHasEvidence | api/scanner.py:120-155 | every CLEAN row is backed by stored results as its policy demands: all of the scanners read at job start, no detection, or the first success; re-aggregating the stored results gives the stored verdict |
| Runs.EncryptedRowFollowsPolicy | api/scanner.py:84-102 | an ENCRYPTED row is allowed iff its stored policy is ALLOW and up for review iff it is MARK_FOR_REVIEW |
| EncryptedFiles.EncryptedNeedsPolicy | api/scanner.py:76-102 | the same of every row whose column says that the file is encrypted |
| EncryptedFiles.DetectionIsKept | api/scanner.py:78-79 | once the detection's answer has been recorded, the column equals it in every later state |
| EncryptedFiles.ColumnAgreesWithStatus | api/scanner.py:76-102 | in every reachable state an ENCRYPTED row does not say "not encrypted", a CLEAN or INFECTED one does not say "encrypted", and a value in the column is one that the detection gave |
| EncryptedFiles.DetectedIsNeverScanned | api/scanner.py:76-102 | a file that the detection called encrypted, or could not tell, is at no later moment CLEAN or INFECTED, never under an aggregation policy, and allowed only by ALLOW |
| EncryptedFiles.DecisionComesFromAnswers | api/scanner.py:81-102 | a stored encrypted-file policy is the one that the table the job read gives to the category the detection reported: its own first, then the default, then DENY |
| EncryptedFiles.EncryptedCopyIsKeptIff | api/scanner.py:84-102 | the copy of such a file is kept iff that policy is QUARANTINE or MARK_FOR_REVIEW |
| Progress.StatusShowsStage | api/scanner.py:44-107 | in every reachable state the status tells the stage of a job that has not yet spoken: VALIDATING, TRANSFERRING, SCANNING; or a sweep has refused the row |
| Progress.TimelyStatusIsStage | api/scanner.py:44-107 | in every timely run whose lifetime covers the budget the status is that of the stage |
| Progress.SubStatusesMean | api/scanner.py:215-330 | in every reachable state each value of transfer_status and scan_status_detail is explained by an answer that the job got: OK of a fetched file by a completed fetch, FAILED by an unknown host or one that did not complete, and so on |
| Progress.CleanupMeans | api/scanner.py:379-434 | in every reachable state OK as cleanup status stands for a directory that was removed or moved, FAILED and the status CLEANUP_FAILED for one for which this failed |
| Progress.OverlayFollowsStatus | api/scanner.py:424-434 | the status read after a failed cleanup is the row's, and CLEANUP_FAILED is written over it iff it is CLEAN, INFECTED, ERROR or ENCRYPTED |
| Progress.NewRowStartsEmpty | api/db.py:29-52 | a row that an upload or a re-scan inserts is RECEIVED, dated now, and has no value in any other column that a job writes |
| Progress.SubmissionIsKept | api/db.py:29-52 | file, mode, hash and time of a submission are those of its row at every later moment, and it has no parent |
| Progress.RescanIsKept | api/panel/routes.py:153-196 | a re-scan inserts, once, a row with the file, mode and hash of the row it was asked for, with that row as parent, and they stay |
| Progress.JobIsShort | api/scanner.py:21-199 | however it is answered, a job makes at most 27 calls, and none before its row is claimed |
| Progress.CountersMeasureTime | api/config.py:77-90 | the counters of the timing hypothesis are the seconds that passed while the job stood at the one playbook and at the other |
| Progress.AnyoneMayMove | api/worker.py:56-95 | in every reachable state time, the hosts, uploads, re-scan requests, scanner deletions, crashes and restarts can go on |
| Progress.NeverStuck | api/scanner.py:21-199 | in every reachable state an unfinished thread can have its call raise and, unless the call breaks a constraint of the tables, end without raising |
| Runs.RunContinues | api/db.py:29-52 | file, mode, parent, hash and creation time of a row never change, and RECEIVED is never re-entered |
| Runs.VerdictIsAboutSubmittedContent | api/scanner.py:110-118 | the hash column keeps the submitted value for life, and a CLEAN or INFECTED verdict is about content that hashed to it at scan time |
| Runs.ClaimTakesReceived | api/db.py:129-152 | a claim takes a row from RECEIVED to VALIDATING |
| Runs.ClaimedRowWasOldest | api/db.py:129-152 | in every run a row that is claimed was, when its worker locked it, the oldest RECEIVED one that no other claim had locked, and that moment is its start time |
| Runs.ClaimedOnlyOnce | api/db.py:129-152 | no run claims a row twice, with any number of workers and lost answers |
| Runs.JobComesFromClaim | api/worker.py:73-87 | every job thread comes from one claim of its row and has run ever since |
| Runs.InFlightBounded | api/worker.py:67-87 | a worker's live jobs are among its in-flight ones and never exceed worker_concurrency |
| Runs.ChainReachesOrigin | api/panel/routes.py:153-196 | following parent_scan_id ends, at an earlier row without a parent that is about the same file |
| Runs.RescanChainIsUniform | api/panel/routes.py:153-196 | a row's chain leads to the same origin at all times, with the same host, path, filename, size, mode and hash |
| Runs.DashboardAddsUp | api/db.py:245-262 | in every reachable state the six counters add up to the total |
| Runs.DeletedScannerIsForgotten | db/migrations/0002_platform.sql:91-103 | deleting a scanner takes its reference out of every stored result; name, status, threat and the row stay |
| Provenance.VerdictComesFromAnswers | api/scanner.py:24-155 | in every reachable state an applied aggregation policy is the one the job's profile gave, the stored results are what the scan playbook reported of the submitted hash, for the scanners the job was given; the file had been fetched with that hash if it had to be, and had not been found encrypted |
| SourceDeletion.DeletionFollowsVerdict | api/scanner.py:146-182 | in every run the deletion phase starts after the committed INFECTED, allowed=false update |
| SourceDeletion.DeletionUsesTheRowsHash | api/scanner.py:332-356 | the deletion works with the row's hash, which was the scan-time hash, on a row that is not allowed |
| SourceDeletion.RemovalFollowsCheck | ansible/delete_infected_source.yml:76-98 | a removal comes after a re-check that found that hash at that very path |
| SourceDeletion.RootIsConfigured | api/scanner.py:169-182 | the deletion works under the root that the configuration gives to the row's own host |
| SourceDeletion.OnlyConfirmedInfectedSourcesGo | ansible/delete_infected_source.yml:41-117 | a remote file that the scanner makes go lies under the root configured for its host; before that, in order, an INFECTED verdict of a row of that host committed and a re-check found exactly that row's hash at the path that is removed; if the host was quiet since, it is the file at that path and its content has that hash; any other file or content that goes was put there by a change of the host after the re-check, and stayed until the removal |
| SourceDeletion.WhatGoesIff | ansible/delete_infected_source.yml:95-98 | a successful removal takes exactly the files at the path and below it, whatever their content |
| SourceDeletion.TakesOnlyCheckedIff | ansible/delete_infected_source.yml:76-98 | at any state before a removal: it can take nothing but the checked file with the checked content iff the host has nothing else at the path or below it |
| SourceDeletion.QuietHostSuffices | ansible/delete_infected_source.yml:76-98 | in every run, if no change of the host lies between the re-check of a job and its removal, the removal can take nothing but the checked content |
| SourceDeletion.ReplacedFileGoes | ansible/delete_infected_source.yml:13-19 | wherever a removal is due and the checked file is in place, one replacement of its content and the removal delete content that nobody hashed |
| SourceDeletion.DirectoryGoes | ansible/delete_infected_source.yml:95-98 | and so do one change of the path into a directory and the removal, for a file in it |
| DeletionWitness.ReplacementIsDeleted | ansible/delete_infected_source.yml:13-19 | for every configuration with a worker thread and a host, a run from the empty system, within all time limits, in which any given other content is deleted after a re-check that matched |
| SourceDeletion.DeletionNeverTouchesVerdict | api/scanner.py:332-372 | in every run no answer to a call of the deletion, a raised one included, changes the row or its results |
| Aftermath.DeletionKeepsVerdict | api/scanner.py:332-372 | in every timely run whose lifetime covers the budget, the row says INFECTED and not allowed at every moment of the deletion, whatever the playbook answers and whatever becomes of the remote file |
| Aftermath.VerdictBecomes | api/scanner.py:84-187 | in such a run, after a job has said CLEAN, INFECTED, ENCRYPTED or ERROR: the status is ERROR iff a later call of the job raised and the handler's write then reached the table, otherwise CLEANUP_FAILED iff the overlay was written, otherwise what the job said; allowed is what the job said, and false after the handler's write; threat, review and the applied policies stay |
| Aftermath.AllowedBecomes | api/scanner.py:424-434 | so an allowed file stops being allowed iff the handler's write reached the table; a failed cleanup changes its status to CLEANUP_FAILED and leaves it allowed |
| Aftermath.ProcessedRow | api/worker.py:18-34 | a job that ends decided has spoken at one step of its own stretch, and the row is what it said there, as handler and overlay have left it |
| Aftermath.InfectedBecomes | api/scanner.py:146-187 | in every timely run whose lifetime covers the budget, the status after an INFECTED verdict is ERROR iff a later call of the job raised and the write of its handler then reached the table, otherwise CLEANUP_FAILED iff the overlay was written, otherwise INFECTED; never allowed |
| Aftermath.InfectedToErrorIff | api/worker.py:18-53 | in every run, timely or not, a step turns INFECTED into ERROR iff it is the write of the job's handler or that of a sweep that had selected the row |
| Aftermath.JobRefusalIsFinal | api/scanner.py:146-199 | in every run, timely or not, a row that its own job's terminal write left not allowed is never allowed again |
| Quarantine.EveryJobIsReasoned | api/scanner.py:84-187 | in every reachable state a job past its decision has a reason for its next steps in the row, which no other actor can take away |
| Quarantine.CopyIsKeptIff | api/scanner.py:379-421 | a job about to tidy keeps the copy iff an infection is confirmed by the stored results and copies are retained, or the stored encrypted-file policy asks for it; failed jobs never do |
| Finality.LiveRowIsNotStale | api/db.py:702-718 | under the timing hypothesis a row with a live undecided job is not stale |
| Finality.SweepsSelectOnlyDeadJobs | api/worker.py:37-53 | in every timely run no sweep selects a row whose thread is still running |
| Finality.VerdictsAreFinalInTime | api/scanner.py:21-199 | in every timely run allowed goes from null to one value and afterwards only from true to false |
| FinalityWitness.SweepOverruled | api/worker.py:37-53 | a run, for any settings that miss the bound, in which a refused file becomes allowed |
| FinalityWitness.FinalityIffLifetimeCoversBudget | api/config.py:77-90 | for a configuration with a worker thread and a Nextcloud host: verdicts are final in every timely run if and only if the maximum lifetime covers both playbook timeouts and the local budget |
| CrashRecovery.SweepPassRefusesOrphans | api/worker.py:37-53 | a row in VALIDATING, TRANSFERRING or SCANNING that started longer ago than the lifetime and has no thread is refused by the end of the first sweep pass in which nothing raises, stays refused, and was allowed at no moment of the run |
| CrashRecovery.CleanPassEndsRows | api/db.py:702-718 | any row claimed longer ago than the lifetime and without a thread, in whatever stage it was left, has one of the five terminal statuses after such a pass |
| CrashRecovery.CrashLeavesRows | api/worker.py:37-53 | a crash can happen at any time; it takes the threads of its worker and leaves every row and every other thread as they are |
| CrashRecovery.RefusedForGood | api/scanner.py:190-199 | once refused, a row without a thread stays ERROR or CLEANUP_FAILED and not allowed |
| CrashRecovery.AllowedIsNeverInProgressAgain | api/scanner.py:146-155 | a row that was allowed never looks in progress again |
| CrashRecovery.VerdictEndsProgress | api/scanner.py:146-187 | once a job's own verdict commits, no later sweep can select the row |
| CrashRecovery.DecidedThread | api/scanner.py:21-187 | in every run a job that has committed its terminal write has a row that is decided and never in progress again |
| Calls.HandlerCallsOnce | api/worker.py:22-34 | in any stretch the write of a job's handler is at most one call, and the last |
| Calls.CallHappened | api/scanner.py:21-199 | each call that the contracts below attribute to a stretch is a step of the run made by that thread with that answer, and the calls before it are those of the steps before it |
| Calls.SpeakingStep | api/scanner.py:84-187 | a job that becomes decided in a stretch has committed its terminal write at one step of it |
| WorkerCode.System.Others | api/worker.py:67-95 | other actors' steps only add to the run, leave a thread at its point and a sweep's worker record alone, and are none of the thread's calls |
| WorkerCode.System.UpdateScan | api/db.py:155-167 | returned: the one call made is the committed statement, and the row shows the new values; raised: the statement has reached the table or not, and the thread unwinds; a value against the hash format raises |
| WorkerCode.System.CreateScanResults | api/db.py:332-358 | returned: the row has exactly these results; raised: these or none; with a status outside the CHECK it raises and leaves none |
| WorkerCode.System.HostRoot | api/scanner.py:220-225 | the root is the configured one of the row's host, or none |
| WorkerCode.System.RunDeletePlaybook | ansible/delete_infected_source.yml:41-117 | true after exactly the calls of ALREADY_GONE, or of resolve, a path under the root, a re-check with the hash and a removal; false when the playbook cannot be run or is stopped at the check that fails, with no call behind it |
| WorkerCode.System.TidyStaging | api/scanner.py:379-421 | the calls are: removal or move, its outcome as cleanup status and, after a failure, a read of the status and CLEANUP_FAILED over it iff it is a terminal one |
| WorkerCode.System.SetCleanupStatus | api/scanner.py:379-411 | returned: the cleanup status is OK for a directory that was dealt with and FAILED for one that was not |
| WorkerCode.System.RunFetchStage | api/scanner.py:215-270 | true after lookup, playbook with the expected hash and the note of success; false after the rejection that fits (host, playbook or hash), the refusal of the row and the tidying |
| WorkerCode.System.RecordRejection | api/scanner.py:215-330 | returned: the two sub-statuses of the row are those of the rejection |
| WorkerCode.System.ApplyEncryption | api/scanner.py:77-102 | false for an absent or plainly unencrypted file; true for any other, after detection, policy table, the decision that the table gives and tidying as that decision says |
| WorkerCode.System.NoteEncryption | api/scanner.py:78-79 | returned: the row's column is what the detection said |
| WorkerCode.System.Conclude | api/scanner.py:118-155 | exactly three calls, hash, results and verdict, in this order and each committed; the status returned is the aggregation's |
| WorkerCode.System.SetVerdict | api/scanner.py:146-155 | returned: the row has the aggregation's status and threat and the profile's policy, and is allowed iff the status is CLEAN |
| WorkerCode.System.HandleVerdict | api/scanner.py:169-187 | for an infected file that was fetched, every call of the deletion comes before the first of the tidying; for any other file there are only those of the tidying |
| WorkerCode.System.Examine | api/scanner.py:104-187 | completed with the expected hash: the verdict and its aftermath; otherwise the rejection with its refusal and tidying |
| WorkerCode.System.ProcessScan | api/scanner.py:21-187 | the run goes on by protocol steps only; returned: the job is over, has spoken at one step of the stretch, and the row is decided, never in progress again; raised: the job is about to run its handler |
| WorkerCode.System.ForceFailStale | api/scanner.py:190-199 | returned: the calls are the committed refusal of the row and then the tidying, nothing else |
| WorkerCode.System.ProcessOne | api/worker.py:18-34 | the job is over; if process_scan returned or the write of the handler was confirmed, the row is decided; the handler writes at most once, as the last call |
| WorkerLoop.OldestReceived | api/db.py:138-150 | the claim query finds the oldest unlocked RECEIVED row, or there is none |
| WorkerLoop.StaleRows | api/db.py:702-718 | the stale query finds, each once, exactly the rows in VALIDATING, TRANSFERRING or SCANNING that started longer ago than the lifetime |
| WorkerLoop.ClaimNextScan | api/db.py:129-152 | a row that is returned was the oldest one to be had when it was locked, is now VALIDATING and has a job; none means that at some moment there was none; otherwise the pass claims no more |
| WorkerLoop.FillCapacity | api/worker.py:73-87 | the claims of a pass: different rows, each the oldest when locked, all of them in flight; as many as the capacity, or fewer because one raised or no row was to be had |
| WorkerLoop.SweepStale | api/worker.py:37-53 | if it returns clean, every row that was left behind in one of the three stages at the query is refused, and every row claimed longer ago than the lifetime and without a thread has a terminal status, whatever the others did meanwhile |
| WorkerLoop.LoopPass | api/worker.py:56-95 | one pass claims as many rows as the worker had room for after letting go of its finished jobs, or fewer because a claim raised or no row was to be had, never has more jobs than threads, and queries for stale rows iff the last sweep began longer ago than a minute and a quarter of the lifetime; when that sweep is clean, what was left behind at some moment of the pass is refused |
| Profiles.StableOrder | api/panel/admin_profiles.py:158-166 | the order of positions by (number, place on the form): strictly increasing and complete |
| Profiles.OrderedScannerIds | api/panel/admin_profiles.py:158-166 | the ids in that order; an unreadable number counts as 0 |
| Profiles.ProfileStore.SetProfileScanners | api/db.py:495-506 | all memberships with their indexes, or, for a repeated id, an unknown scanner or a deleted profile, an exception and the old membership |
| Profiles.ProfileStore.GetProfileScanners | api/db.py:509-523 | exactly the enabled members, once each, by index |
| Profiles.RowsFollowForm | api/db.py:509-523 | the rows come back in the order of (number, place) on the form |
| Profiles.FirstSuccessEndToEnd | api/policy.py:61-71 | from form to verdict: FIRST_SUCCESS takes status and threat from the enabled answering scanner with the least (number, place), and refuses iff none answered |
| ProfileVerdicts.FirstSuccessRow | api/policy.py:61-71 | in every reachable state: if the job read the membership that the form gives the profile, a CLEAN or INFECTED row under FIRST_SUCCESS carries status and threat of the stored result of the enabled answering scanner with the least (number, place) |
| Templates.AcceptedIff | api/scanners.py:89-116 | the accepted arguments are exactly the spellings of admissible token lists, and each has one spelling |
| Templates.ValidatedIff | api/scanners.py:89-116 | a stored command is a list of 1 to 64 texts, each accepted |
| Templates.SafeCharsAre | api/scanners.py:30-35 | the documented characters, one by one |
| Templates.OnlyNewlinesSlip | api/scanners.py:30-35 | characters outside the documented set slip through iff the argument contains a newline |
| Templates.SampleArguments | api/scanners.py:89-116 | an empty argument and a lone newline are accepted; a concrete path that forms the mark |
| Templates.SubstituteMeans | api/scanners.py:152-164 | token-wise substitution puts the path where the file mark was, the output value where the other was, and leaves every literal in its place |
| Templates.RenderIsSubstitution | api/scanners.py:152-164 | the two replaces, in either order, equal token-wise substitution when the values have no opening brace |
| Templates.RenderExactlyWhen | api/scanners.py:152-164 | rendering is token-wise substitution for every accepted argument iff the path cannot form the output mark (or the output value is that mark) |
| Templates.AbsolutePathFormsMarkIff | api/scanners.py:152-164 | a path with a slash in front forms the mark iff it contains it |
| Templates.FormedMarkHasBrace | api/scanners.py:152-164 | only paths with an opening brace can |
| Templates.ValidatedCommandRenders | api/scanners.py:89-164 | a validated command keeps its 1 to 64 arguments and renders argument by argument |
| Paths.NormpathIdempotent | api/security.py:101-101 | normalisation keeps components and leading slashes, and a second pass changes nothing |
| Paths.PathLaws | api/security.py:101-101 | in any path: a name and the ".." after it drop out together, "." and an empty part drop out, ".." behind the first slash drops out |
| Paths.DotDotTakes | api/security.py:101-101 | a plain part and a ".." behind it have no effect on the components, wherever they stand |
| Paths.RelativeClimbs | api/security.py:101-101 | a path that is not rooted keeps a ".." that has nothing to take |
| Paths.LeadingSlashesMean | api/security.py:101-101 | two leading slashes are kept as two, one, three or more as one |
| Paths.TraversalTestNeverFires | api/security.py:103-105 | the explicit ".." test rejects nothing |
| Paths.PassesIffContains | api/security.py:107-109 | the string-prefix test is component containment with equal leading slashes |
| Paths.AcceptedIff | api/security.py:81-111 | which paths are accepted and which are outside, for every absolute root |
| Paths.RejectedMeans | api/security.py:81-100 | an empty path or one with NUL is invalid, any other without a slash in front is relative |
| Paths.EscapeIsOutside | api/security.py:101-111 | "/a/../b" is outside the root "/a" |
| Paths.AcceptedIsFixedPoint | api/security.py:81-111 | an accepted result is normal, has no "." or ".." component, lies under the root and is accepted again unchanged |
| Paths.StoredRootAgrees | api/config.py:161-168 | checking against the stored, normalised root is checking against the configured one |
| Paths.PlaybookAgreesIff | ansible/fetch_from_nextcloud.yml:54-62 | the playbooks' pattern agrees with the API's check on canonical paths iff the root has a component, or is "/" and the path too |
| Paths.SlashRootAtSamplePath | ansible/fetch_from_nextcloud.yml:54-62 | under the root "/" the API accepts "/a" and the playbooks do not |
| Windows.NeverMoreThanLimit | api/main.py:100-124 | no window of the width, wherever it lies, holds more accepted hits than the limit |
| Windows.RateLimiter.Allow | api/main.py:114-124 | a request is let in iff fewer than the limit were accepted in the last 60 s, counted over the whole history, and then joins it |
| Windows.RateLimiter.AtMostLimitPerMinute | api/routes_upload.py:34-45 | at most the limit in any closed 60 s interval, also when the limit varies per call |
| Windows.LoginLockout.Submit | api/panel/auth.py:115-150 | locked out iff five failures since the last success lie in the last 900 s; success forgets, failure is recorded |
| Windows.LoginLockout.AtMostFiveFailures | api/panel/auth.py:39-54 | at most five failures since the last success in any half-open 900 s interval |
| Upload.StreamUploadToStaging | api/routes_upload.py:62-112 | success returns size and both digests of exactly the bytes on disk, the whole stream; too large iff over the limit, empty iff no byte, both without a directory; success and "empty" never after a failing read or write; never more than the limit on disk |
| Upload.WriteBody | api/routes_upload.py:85-99 | the read loop's three ends and what is on disk and in the hash objects at each |
| Upload.BodyMeans | api/routes_upload.py:85-99 | the stream is the run of chunks up to the first empty one or the first failing read |
| Client.ResponsesAreHonest | api/main.py:264-277 | for each status what the two projections say of allowed, hash and threat: "allowed" only of allowed rows, equal but for encrypted files; a reported threat is what aggregating the stored results gives |
| Client.ThreatsAgree | api/routes_upload.py:406-410 | the upload response's list of threats of an INFECTED row has the threat that the other response reports, which is that of a stored detection, and no empty one |
| Client.PollUntilTerminal | api/routes_upload.py:361-370 | the answer is the first row read in one of the five terminal statuses, the ERROR answer at the first read that finds no row, or the row at the first read after the deadline, as it was; "allowed" only of a row that was |
| Client.LegacyClient | scripts/nextcloud-upload-scanner.sh:145-205 | exit 0 only on a row that was CLEAN, allowed, backed by results and about the submitted hash when it was read; ENCRYPTED keeps polling, CLEANUP_FAILED exits 2 |

## Left out

- SQL text, pooling and transaction isolation below the statement: tables are sequences and maps, a statement is one step, CHECK and UNIQUE raise.
- Row ids are insertion positions instead of random UUIDs; "parent exists" is the foreign key.
- Columns that no modelled branch reads: reasons and messages, staging path, durations, completion time, MIME data. An `update_scan` call that sets only these is a step without effect in a job, and no step in the API.
- Staging directories on disk: whether removing or moving one works is an answer of the environment, and so is whether the staged file exists when encryption is looked for.
- Pinned profile, default profile and their deletion: which policy and which scanners a job reads are arbitrary answers with distinct slugs; `Profiles` models how the table they come from is written.
- Ansible, Docker, SSH, JSON and subprocess mechanics: playbooks are their visible branches.
- Encryption and MIME sniffing: an arbitrary answer. SHA-256 and MD5: functions of the bytes with the incremental law.
- `str.lower` is modelled on ASCII; no other character lowers to a hexadecimal digit.
- WorkerCode.System.Others: a crash of the thread's own worker ends the code, so it is a step of `Protocol` only and not of this method.
- WorkerLoop.LoopPass: the endless loop is modelled as one pass, whose caller hands on the time of the last sweep; sleeping is time that passes while others move.
- Windows.RateLimiter.Allow: requires calls in clock order, which one event loop gives; locks and floating point are not modelled (time is real-valued).
- Upload.StreamUploadToStaging: the directory is gone after the two errors when removing it works; a removal that fails leaves it there without an error.
- Client.ResponsesAreHonest: the list of scanners in the upload response is left out.
- The generic upload client script, request validation, routing, sessions, CSRF, pages, API keys, scanner and client administration, list filters and audit entries would only add easy members.
