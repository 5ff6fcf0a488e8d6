# PackBreaker: a verified model of its journals, queues and limiters

PackBreaker adds cross-seeded torrents to qBittorrent and links or repairs their files.  Every
external action is wrapped in a durable journal, because responses get lost, the process may die
at any point, the same request may be executed again, and outsiders may change the client.  This
project models that machinery and the smaller state machines around it in Dafny and proves what
they promise.

| module | what it models |
|---|---|
| `OperationJournal` | the statuses of a journal and the moves the repository accepts |
| `QbittorrentLog`, `QbittorrentSystem` | the add, recheck, start and remove services and the journal reconciler, as one transition system: any number of keys and executions, interleaved at every await, with crashes, lost and late responses and a client that changes at will |
| `QbittorrentOutcomes` | what each look at the client leads to, told by the torrents it shows: a second account of the services, in words of its own |
| `QbittorrentRuns` | one run of that system, from the first request on, in which a crash changes how a removal ends |
| `FileTree`, `PathText`, `FilesystemOperations` | the journalled creation of directories and hard links, its replay after a crash at any fault point, and its rollback |
| `RepairIsolation` | hard links, their isolation as private copies, rollback and cleanup, interleaved with crashes and a client that writes to isolated targets |
| `CleanupOrdering` | both services side by side: when a target may be unlinked |
| `ProfileSyncQueue` | the background queue of site profile syncs against a log of requests |
| `CookieCloudSettings` | settings, versioned probes and syncs, and the connection status |
| `CandidateSelection` | the greedy choice of candidates to verify, and candidate keys |
| `Updater` | the upgrade helper's crash-safe status file and its single worker |
| `SlidingWindow`, `LoginLimiter`, `TelegramLimiter` | the two rate limiters against full history |
| `Bencode` | the bencode encoder against a decoder written from the "bencoding" section of BEP 3 |

How it is modelled:

- The qBittorrent services are coroutines that interleave at awaits.  Each execution is a program
  counter that moves from await to await; what runs between two awaits is one step, except that a
  durable write and the command that follows it are separate steps, so a crash can come between.
  A query's answer is taken from the client at one moment and processed at a later one.  A command
  that was sent may take effect at any time or never.  `transition_status` is compare-and-set and
  keeps the after snapshot when none is passed; `record_intent` is unique per key
  (`persistence/repositories.py`).  Operation keys, ownership tags and temporary names are digests
  in the program and are taken to be injective; a journal is identified with its key.
- The one assumption about outsiders is that nobody but an add puts that add's ownership tag on a
  torrent.  Everything else about the client is arbitrary.
- The filesystem gateway is modelled from its own code: which snapshots it compares, which errors
  it raises, and where its fault hooks are.  The stamp of a directory may change to anything when
  its entries do.  In `FilesystemOperations` what is proved without outside actors is stated under
  `Accounted`, and what holds with them is stated without it.
- Whether the process may die at fault points, and whether writes of the updater may fail, are fields
  of the services, so what is promised under faults and what gets done without them are both stated.
- Clocks are arguments and never go back.  Passwords, pages fetched and Docker outcomes are
  arguments.

Some things the proofs brought out:

- A journalled remove that is APPLIED says that the torrent was seen to be absent after the intent,
  not that PackBreaker removed it.  Exactly when: a removal whose intent saw the torrent absent ends
  NOOP if and only if no other execution of its key began between the intent and the end
  (`QbittorrentLog.NoopIffUninterrupted`, for every run).  `QbittorrentRuns.CrashTurnsNoopIntoApplied`
  gives, for every request and the add that authorises it, the run in which a crash makes the
  difference although no command is ever sent for the removal.
- The wait that the login limiter reports is exact in every state that check-then-record use can
  reach (`LoginRateLimiter.ReportedWaitIsExact`).  Overlapping checks can put six failures into one
  window, and then the wait is too short: `OverlappingChecksBreakTheBound` makes those calls, and
  `WaitSufficesIff` gives the exact condition for any history.
- "Never adopted" fails for one kind of entry: a temporary hard link that a crash left behind is
  taken up by the replay (`FilesystemOperations.ReplayTakesUpTemporary`).  It holds for all others,
  and they are what decides a retry: of a request that was tried any number of times, with its
  source intact, an execution is never refused if at most the temporary link is astray, and never
  gets done if anything else is (`Service.ExecuteHardlink`).
- Splitting a candidate key at its first separator recovers the pair exactly when the site id holds
  no separator (`CandidateSelection.KeyRoundTripIff`).

## Model

| member | source | states |
|---|---|---|
| OperationJournal.WalksLeaveForGood | backend/app/domain/operation.py:37-66 | along any sequence of accepted moves, no status after the first is INTENT_RECORDED, and NOOP and ROLLED_BACK are never left |
| QbittorrentSystem.EveryRunIsSafe | backend/app/application/downloader_operations.py:194-1326 | for any sequence of labels from an empty journal store (executions, retries, crashes, lost and late answers, reconciliations, outside changes): silence after intent, at most one recheck per key, every command behind its intent and its observation, stops confirmed within ten looks, adds adopt only their own torrents, unproved rechecks and starts stay unproved, removals saw absence and act on own torrents only, and a removal that found nothing ends NOOP exactly when no other execution came between |
| QbittorrentSystem.InvariantHolds | backend/app/application/downloader_operations.py:200-1326 | every reachable state satisfies the invariant that ties each journal, each execution's program counter and each reconciliation to the log |
| QbittorrentSystem.StepKept | backend/app/application/downloader_operations.py:200-1326 | every step of every execution, reconciliation, crash or outsider keeps that invariant, also of all other keys |
| QbittorrentSystem.PerformFits | backend/app/application/downloader_operations.py:226-408 | whatever an execution or reconciliation does next, the one event it logs is allowed by the discipline and its cell stays sound |
| QbittorrentSystem.AddSound | backend/app/application/downloader_operations.py:226-408 | each decision of the add service (first look, replay, confirmation, stop polling, verification) is backed by what was observed |
| QbittorrentSystem.RecheckSound | backend/app/application/downloader_operations.py:596-687 | the same for the recheck service |
| QbittorrentSystem.StartSound | backend/app/application/downloader_operations.py:776-899 | the same for the start service |
| QbittorrentSystem.RemoveSound | backend/app/application/downloader_operations.py:989-1124 | the same for the remove service |
| QbittorrentSystem.ReplySound | backend/app/application/downloader_operations.py:284-310 | what follows a reply, an error or a miscount is backed by the intent and the command that was sent |
| QbittorrentSystem.ConcludeFits | backend/app/application/downloader_operations.py:1221-1326 | a reconciliation restores a journal only as the discipline allows, even when it interleaves with an execution of the same key |
| QbittorrentSystem.LookSettlesIntent | backend/app/application/downloader_operations.py:226-408 | after a look at the client an open intent is APPLIED, RECONCILE_REQUIRED or still open exactly as `Settled` says, for every service and every point of its run |
| QbittorrentSystem.VerificationQuarantines | backend/app/application/downloader_operations.py:332-355 | a replay of an APPLIED journal leaves it APPLIED exactly when its effect can still be seen, and quarantines it otherwise |
| QbittorrentSystem.ReconcilerRestoresExactly | backend/app/application/downloader_operations.py:1221-1326 | an undisturbed reconciliation restores a quarantined journal if and only if some proof is allowed by what it saw |
| QbittorrentSystem.ReconcilerOnlyReads | backend/app/application/downloader_operations.py:1221-1326 | a reconciliation sends no command, records no intent, leaves the execution alone, and changes a journal only by restoring it from RECONCILE_REQUIRED |
| QbittorrentOutcomes.FirstLook | backend/app/application/downloader_operations.py:256-282 | from every state without a journal and execution of the key, what the first look shows decides what is recorded and then sent: an add for no torrent, a recheck for the one own stopped torrent, a start for the one own complete and stopped torrent, a removal for the own stopped torrent and a stop for a running one, an absence to be closed when there is nothing to remove; in every other case nothing |
| QbittorrentOutcomes.RetryLooks | backend/app/application/downloader_operations.py:226-255 | from every state with an open intent and no execution: an unseen add is sent again, a complete torrent is started again, a removal goes on, proved effects become APPLIED with what is seen, a recheck is never repeated, and what cannot be explained is quarantined |
| QbittorrentOutcomes.InspectionLooks | backend/app/application/downloader_operations.py:312-330 | the look after a command: confirmed, quarantined, stopped, or left open for a later execution, by what is shown |
| QbittorrentOutcomes.PollLooks | backend/app/application/downloader_operations.py:385-408 | the looks after a stop: up to ten, then an add is quarantined and a removal left open; a removal goes on as soon as the torrent has stopped |
| QbittorrentOutcomes.ReplyLeads | backend/app/application/downloader_operations.py:284-311 | an accepted command is looked for, a removal in any case; a miscount, foreign ids or a refused stop of an add quarantine; every other reply leaves the intent open |
| QbittorrentOutcomes.AppliedLooks | backend/app/application/downloader_operations.py:332-355 | an APPLIED journal stays APPLIED if its effect is shown and is quarantined if it is not |
| QbittorrentOutcomes.OthersAreNotExecuted | backend/app/application/downloader_operations.py:229-238 | an execution looks only under a journal of its own request that is open or APPLIED, or under none |
| QbittorrentOutcomes.UnreachableEnds | backend/app/application/downloader_operations.py:410-418 | a client that cannot be reached ends the execution and changes nothing |
| QbittorrentOutcomes.ReconciliationLooks | backend/app/application/downloader_operations.py:1221-1268 | in every reachable state a quarantined journal is restored if and only if the client shows its one torrent stopped (add), checking or stopped with its verification ended (recheck), or uploading and complete (start), with the proof it had or, for an add without one, what is seen |
| QbittorrentOutcomes.ReplayedReconciliationOnlyLooks | backend/app/application/downloader_operations.py:1234-1272 | where replay is allowed, looking at an APPLIED journal changes nothing |
| QbittorrentOutcomes.OnlyQuarantinedIsReconciled | backend/app/application/downloader_operations.py:1234-1241 | otherwise only a quarantined journal is looked at |
| QbittorrentOutcomes.RestorationsRest | backend/app/application/downloader_operations.py:1474-1484 | over every run, a restored journal rests on a logged sight of one torrent of the recorded request in one of those states, and a removal is never restored |
| QbittorrentRuns.CrashTurnsNoopIntoApplied | backend/app/application/downloader_operations.py:1005-1034 | for every remove request and the add that authorises it, two runs from the empty store through add, disappearance of the torrent and removal: without a crash the removal ends NOOP, with a crash before the journal is closed the replay ends APPLIED, and no command is sent for the removal in either |
| QbittorrentLog.SilenceAfterIntent | backend/app/application/downloader_operations.py:226-330 | once a journal has left INTENT_RECORDED, nothing is sent for its key, no intent is recorded again and it never returns |
| QbittorrentLog.AtMostOneRecheck | backend/app/application/downloader_operations.py:596-661 | over all executions of a key at most one recheck is sent |
| QbittorrentLog.CommandsAreGuarded | backend/app/application/downloader_operations.py:242-282 | every command follows its durable intent and the last observation of the same execution, which shows: no expected hash for add, owned and stopped for recheck and remove, owned and verification complete for start, owned and running for stop |
| QbittorrentLog.StopConfirmationIsBounded | backend/app/application/downloader_operations.py:385-408 | after a stop at most ten observations are made |
| QbittorrentLog.NoForeignAdoption | backend/app/application/downloader_operations.py:242-330 | an add becomes APPLIED, by execution or reconciliation, only for a torrent its own add created, seen stopped under the bound path and an expected hash, with an intent recorded before the add was sent and while no expected hash was present |
| QbittorrentLog.RecordedOnce | backend/app/infrastructure/persistence/repositories.py:616-658 | an intent is recorded at most once per key |
| QbittorrentLog.RemovalMeansSeenAbsent | backend/app/application/downloader_operations.py:1005-1098 | a remove journal becomes APPLIED or NOOP only when the last observation found its torrent absent |
| QbittorrentLog.NoopIffUninterrupted | backend/app/application/downloader_operations.py:1005-1034 | in every run, a removal whose intent recorded absence and whose journal leaves INTENT_RECORDED without quarantine ends NOOP if no execution of its key began between the two, and APPLIED if one did |
| QbittorrentLog.RemovalsActOnOwnTorrents | backend/app/application/downloader_operations.py:1126-1146 | a remove command goes out only for a torrent created by an add of the same downloader that had become APPLIED, and that was just seen stopped |
| QbittorrentLog.UnprovedIsNeverApplied | backend/app/application/downloader_operations.py:1258-1264 | a recheck or start that went from its intent straight to RECONCILE_REQUIRED is never APPLIED in any continuation |
| QbittorrentLog.AddRestoredWithoutProof | backend/app/application/downloader_operations.py:1419-1436 | an add without after snapshot is restored only with exactly one expected hash, recorded absent, whose torrent is now owned and stopped |
| QbittorrentLog.RestoredProofWasConfirmed | backend/app/application/downloader_operations.py:1258-1264 | every other journal is restored with a proof with which it had been APPLIED before |
| PathText.KeysAreCanonical | backend/app/application/filesystem_operations.py:1168-1169 | the text a key is computed from is the full path's, and two splits give the same text if and only if they are splits of the same path |
| PathText.KeyTextExamples | backend/app/application/filesystem_operations.py:1168-1169 | the texts of the empty path and of a file below the category root and below a named root, written out |
| FileTree.AncestorsAreDirs | backend/app/infrastructure/safe_filesystem.py:1842-1859 | all ancestors of an entry of a well-formed tree are directories |
| FilesystemOperations.Service.ExecuteHardlink | backend/app/application/filesystem_operations.py:151-383 | keeps every entry, adds only the request's own, adopts nothing that was there before its journal was APPLIED, keeps journals under the key of their full path and the disk accounted for; when done the target is the source's file, the link is APPLIED, and the returned directories are exactly those with a journal; a link or directory that is there under an open intent is a TARGET_CONFLICT and one that is APPLIED and lost a SOURCE_CHANGED, and either journal is then RECONCILE_REQUIRED and nothing else changed; a retry is never refused if at most the temporary link is astray and never done if anything else is; where only the link is missing it is placed whoever made the directories; short of those cases the link's journal stays as it was; `replayed` tells whether it existed; without faults an execution does not die |
| FilesystemOperations.LinkStandsIsRefused | backend/app/application/filesystem_operations.py:202-220 | a target that is there under an open intent stops the execution before anything is made, with its journal to be quarantined |
| FilesystemOperations.DirectoryStandsIsRefused | backend/app/application/filesystem_operations.py:235-249 | the same for the first directory that is there under an open intent, of the root or below it |
| FilesystemOperations.DirectoryLostIsRefused | backend/app/application/filesystem_operations.py:706-720 | a directory that is APPLIED and no longer proved stops it likewise |
| FilesystemOperations.LinkLostIsRefused | backend/app/application/filesystem_operations.py:722-736 | and so does such a link |
| FilesystemOperations.OnlyLinkMissingIsPlaced | backend/app/application/filesystem_operations.py:302-383 | with all directories there and proved, the target and its temporary name free and no journal of the link, nothing stands in the way |
| FilesystemOperations.UnobstructedIsRetryable | backend/app/application/filesystem_operations.py:151-383 | a request that was never tried, with its source as expected and its way free, is such a retry with nothing astray, whoever wrote to the tree before |
| FilesystemOperations.ReplayTakesUpTemporary | backend/app/infrastructure/safe_filesystem.py:1066-1115 | for every tree and request: an execution that dies after its temporary link leaves that entry without an APPLIED journal, and the replay is never refused and, once done, has made it the target |
| FilesystemOperations.StrayStays | backend/app/application/filesystem_operations.py:151-383 | any other entry without an APPLIED journal is never taken for one of the request's own |
| FilesystemOperations.Service.EnsureTargetRoot | backend/app/application/filesystem_operations.py:986-1096 | returns the journals of the root's directories in order and without repeats, settles every level, files new journals at the deepest directory that was there, touches none below the root, stops at the first obstacle with its journal quarantined, never fails while at most the temporary link is astray, and changes nothing where all is there |
| FilesystemOperations.Service.EnsureRootDirectory | backend/app/application/filesystem_operations.py:1009-1096 | one level: at most its own directory and journal are added or changed, under the full path's key whatever split an earlier run used, and it is there afterwards; refused only when something is astray |
| FilesystemOperations.Service.ValidateExisting | backend/app/application/filesystem_operations.py:954-984 | passes if and only if every directory journal below the root is filed under this split and, if APPLIED, still proved; changes nothing when it passes, and else stops at the first that is not, quarantined if it is unproved |
| FilesystemOperations.Service.CreateParents | backend/app/application/filesystem_operations.py:221-291 | the directories below the root, level by level, with the same guarantees; new journals are filed under the request's split |
| FilesystemOperations.Service.CreateDirectory | backend/app/infrastructure/safe_filesystem.py:992-1024 | fails exactly when the parent is gone or changed or the path is taken; otherwise makes the directory and registers it, so that nothing is astray |
| FilesystemOperations.Service.InspectHardlink | backend/app/infrastructure/safe_filesystem.py:867-953 | passes exactly when the source matches, the root is a directory, the target is free and no file is in the way; reports a conflict exactly when the target is taken; and finds exactly the missing directories |
| FilesystemOperations.Service.CreateHardlinkAtomic | backend/app/infrastructure/safe_filesystem.py:1026-1120 | raises exactly when the parent is no directory, the source differs, the target is taken, the parent changed since the intent and there is no temporary link, or there is one and the parent is another directory or the link is not the source's file; having raised it has changed nothing, done it has put the one link under the target, and dead it has left it either there or under the temporary name |
| FilesystemOperations.Service.PlaceLink | backend/app/application/filesystem_operations.py:302-383 | records or resumes the link's intent, places the link and makes it APPLIED with what is there; refused exactly for another request's journal, an APPLIED one whose target is gone, a closed one, or the gateway's refusal, and quarantined exactly for the second and for a conflict |
| FilesystemOperations.Service.RollbackJournal | backend/app/application/filesystem_operations.py:499-560 | marks the rollback before anything is removed; removes the entry only when it is what the journal recorded and empty, and otherwise ends ROLLBACK_BLOCKED, or stays pending while the directory above is missing; touches nothing else, and can be repeated after a crash |
| FilesystemOperations.Service.RollbackAll | backend/app/application/task_cancellation.py:308-320 | after a completed execution, rolling back the link and then the directories deepest first never fails, completes without faults, and once it completes, however often it died, the tree is the original one |
| FilesystemOperations.Service.RetryAndRelease | backend/app/application/filesystem_operations.py:151-560 | any number of executions that may die anywhere leave the disk accounted for and the request retryable, get done only if at most the temporary link was astray at first, and without faults exactly then; releasing what a completed one made restores the original tree |
| FilesystemOperations.Service.ReconcileJournal | backend/app/application/filesystem_operations.py:636-703 | restores a quarantined journal if and only if it has a snapshot that still matches; with replay allowed confirms an APPLIED one by the same test and leaves it as it is, otherwise refuses it; touches no entry |
| FilesystemOperations.AtMostOneStray | backend/app/application/filesystem_operations.py:151-383 | of the entries beyond the original tree at most one has no APPLIED journal |
| FilesystemOperations.ClearAhead | backend/app/application/filesystem_operations.py:221-291 | when a level is free and all levels above it are settled, nothing is astray and nothing extra reaches that deep |
| FilesystemOperations.MadeAccounted | backend/app/application/filesystem_operations.py:272-283 | a directory or temporary link made there is then the only stray, and everything stays accounted for |
| FilesystemOperations.RenamedAccounted | backend/app/infrastructure/safe_filesystem.py:1104-1114 | moving the temporary link to the target keeps everything accounted for, with the target as the only stray |
| FilesystemOperations.AppliedKept | backend/app/application/filesystem_operations.py:284-291 | making the journal of an entry created by this execution APPLIED takes it off the strays |
| FilesystemOperations.LinkedMeansNoStray | backend/app/application/filesystem_operations.py:182-202 | once the link is APPLIED nothing is astray |
| FilesystemOperations.ListedLast | backend/app/application/filesystem_operations.py:240-270 | a directory recorded anew never repeats one that is listed already, and is deeper than all of them |
| FilesystemOperations.CompletedIsRestoring | backend/app/application/filesystem_operations.py:499-560 | a completed execution leaves every journal APPLIED and proved, ready to be rolled back |
| FilesystemOperations.Service.constructor | backend/app/application/filesystem_operations.py:151-383 | before the first request the disk is accounted for, for every target whose temporary name is free |
| FilesystemOperations.LinkIsReady | backend/app/application/filesystem_operations.py:293-335 | on an accounted disk a link that is not in its place has an intent whose recorded parent still fits, or neither journal nor temporary link |
| FilesystemOperations.ClearDirectory | backend/app/application/filesystem_operations.py:221-291 | with at most the temporary link astray, each directory of the target with a journal is there and proved, or absent under an intent whose recorded parent is unchanged |
| FilesystemOperations.RestoringSays | backend/app/infrastructure/safe_filesystem.py:1752-1782 | when all deeper journals are rolled back, the next one's directory is there and its entry, if any, can be removed |
| FilesystemOperations.EverythingDone | backend/app/application/task_cancellation.py:308-320 | when every listed journal and the link are rolled back, the tree is the original one |
| RepairIsolation.InvariantHolds | backend/app/application/filesystem_operations.py:385-634 | every interleaving keeps the invariant: originals intact, each isolation's file its own |
| RepairIsolation.LinkKeeps | backend/app/application/filesystem_operations.py:499-560 | every step of linking and rolling back keeps it, for this link and all others |
| RepairIsolation.IsolationKeeps | backend/app/infrastructure/safe_filesystem.py:477-712 | every step of an isolation keeps it: creating, marking, recording, copying and replacing, also when resumed |
| RepairIsolation.LaterKeeps | backend/app/application/filesystem_operations.py:562-634 | client writes and every step of a cleanup keep it |
| RepairIsolation.CleanupIsAppliedWhenGone | backend/app/application/filesystem_operations.py:605-627 | a cleanup becomes APPLIED only at its own confirmation and only when nothing is under the target's name |
| RepairIsolation.CleanupGetsThrough | backend/app/application/filesystem_operations.py:562-634 | from every reachable state with an APPLIED link and its copy in place: a copy of the recorded size is unlinked and the cleanup ends APPLIED, one of another size stays and the cleanup can only be quarantined |
| RepairIsolation.IsolationGetsThrough | backend/app/application/filesystem_operations.py:385-497 | from every reachable state with an APPLIED link, its target intact and the temporary name free, the steps of an isolation end APPLIED with a private copy of the source, also when the process dies after the progress was recorded, after the copy or after the replacement and the isolation is executed again |
| RepairIsolation.UnrecordedFileIsNotAdopted | backend/app/infrastructure/safe_filesystem.py:560-600 | a temporary file whose progress was never recorded is not used by any replay, and giving up quarantines the isolation |
| RepairIsolation.LinkGetsThrough | backend/app/application/filesystem_operations.py:151-383 | from every reachable state with the target and its temporary name free, the steps of a link end APPLIED with just that name added; a doubted link is restored; a rollback takes just that name away |
| RepairIsolation.LinkIsEarned | backend/app/application/filesystem_operations.py:499-703 | a link's journal is recorded only for a free target and an intact source, becomes APPLIED or is restored only with the target a link to it, and is rolled back only with the name gone |
| RepairIsolation.LaterJournalsAreEarned | backend/app/application/filesystem_operations.py:791-914 | an isolation begins only with an APPLIED link, source and target intact and the temporary name free, a cleanup only with both journals APPLIED |
| RepairIsolation.ReplacementIsEarned | backend/app/infrastructure/safe_filesystem.py:640-690 | the copy takes the target's place only while source and target are what was recorded and under its own link's mark |
| RepairIsolation.ClientsWritesArrive | backend/app/application/filesystem_operations.py:385-497 | what a client writes into an isolated target is what it holds, and no other file changes |
| RepairIsolation.MovesAreAccepted | backend/app/domain/operation.py:37-66 | every step moves the three journals of a link only as the table of moves accepts it |
| RepairIsolation.ClaimsAreDisjoint | backend/app/infrastructure/safe_filesystem.py:595-640 | no two isolations ever hold the same inode |
| RepairIsolation.SourcesNeverChange | backend/app/infrastructure/safe_filesystem.py:477-712 | in every interleaving each original file keeps its name, inode, bytes and times |
| RepairIsolation.RollbackRemovesOnlyTheLink | backend/app/infrastructure/safe_filesystem.py:1611-1639 | a pending rollback removes the target if and only if it is still the source's inode; otherwise it ends ROLLBACK_BLOCKED and removes nothing |
| RepairIsolation.RollbackOfIsolatedIsBlocked | backend/app/application/filesystem_operations.py:499-560 | in every reachable state the pending rollback of a link whose target was isolated ends ROLLBACK_BLOCKED with the disk unchanged |
| RepairIsolation.LateRollbackIsBlocked | backend/app/application/filesystem_operations.py:499-560 | and so it does after any further steps of any links, its own included, that come before it |
| RepairIsolation.IsolationIsAPrivateCopy | backend/app/infrastructure/safe_filesystem.py:672-703 | when an isolation becomes APPLIED its target is a file with no other name and with the source's bytes |
| RepairIsolation.CleanupUnlinksOnlyCopies | backend/app/infrastructure/safe_filesystem.py:1641-1704 | cleanup removes only the single name of a private copy that has the recorded inode, size and marker, never one of an original file |
| RepairIsolation.CopyStays | backend/app/infrastructure/safe_filesystem.py:1611-1704 | a target that is its link's private copy stays so in every step of every link but that link's own cleanup |
| CleanupOrdering.UnlinkedOnlyAfterLettingGo | backend/app/application/filesystem_operations.py:847-914 | over every run of both services, each unlinked target is preceded by a removal of the same task and plan that found its torrent absent and was then closed as APPLIED or NOOP |
| CleanupOrdering.AuthorizedMeansLetGo | backend/app/application/filesystem_operations.py:873-887 | a removal journal that authorises a cleanup implies that observation in the log |
| CleanupOrdering.EveryUnlinkIsRecorded | backend/app/application/filesystem_operations.py:605-634 | the only turn of either service after which a target is no longer its link's copy is that link's cleanup, and it is put on the record that the theorem is about |
| CleanupOrdering.GoneCopyWasLetGo | backend/app/application/filesystem_operations.py:605-634 | over every run, an isolated copy that was there and is gone was unlinked in between, after the client had let go of it |
| CleanupOrdering.CleanupGetsThrough | backend/app/application/filesystem_operations.py:562-634 | an authorised cleanup of a copy of the recorded size goes through and is put on the record; one that is not authorised does not begin |
| ProfileSyncQueue.OutstandingIsOwed | backend/app/application/cookiecloud.py:130-241 | a flag is outstanding for a site exactly when some request asked for it and every run popped since was interrupted; nothing is lost and nothing is absorbed into a run already popped |
| ProfileSyncQueue.RequestStep | backend/app/application/cookiecloud.py:130-168 | a request joins the demand that the queue, the enqueued set and the rerun map represent, wherever its site is found |
| ProfileSyncQueue.PopStep | backend/app/application/cookiecloud.py:231-241 | popping the front starts exactly what was outstanding for its site |
| ProfileSyncQueue.EndRepresents | backend/app/application/cookiecloud.py:207-220 | completion leaves what was asked for meanwhile, interruption gives back what the run had taken as well |
| ProfileSyncQueue.EndConsistent | backend/app/application/cookiecloud.py:207-220 | both keep queued sites distinct and disjoint from running ones, enqueued their union, and reruns among the running |
| ProfileSyncQueue.MergeQueued | backend/app/application/cookiecloud.py:144-166 | the scan finds the waiting job and merges into it; the defensive branch is never reached |
| ProfileSyncQueue.PendingCount | backend/app/application/cookiecloud.py:249-254 | the reported count is the queued plus the running jobs |
| ProfileSyncQueue.CompletionDecreases | backend/app/application/cookiecloud.py:207-220 | a completion lowers 2 queue + running + 2 rerun by one |
| ProfileSyncQueue.ProfileSyncs.Enqueue | backend/app/application/cookiecloud.py:130-174 | records all requests, leaves running jobs and the order of the waiting ones alone, and starts a drain exactly when something is queued and none is live or being cancelled |
| ProfileSyncQueue.ProfileSyncs.PopBatch | backend/app/application/cookiecloud.py:229-234 | takes the first four jobs, or all if there are fewer, or ends the drain |
| ProfileSyncQueue.ProfileSyncs.Finish | backend/app/application/cookiecloud.py:176-220 | the end of a job body in terms of the log: an interrupted job goes to the front, one asked for again to the back, any other leaves |
| ProfileSyncQueue.ProfileSyncs.Drain | backend/app/application/cookiecloud.py:222-241 | left alone, a drain ends with nothing queued, running, marked or outstanding for any site |
| CookieCloudSettings.StatusIsNeverStale | backend/app/application/cookiecloud.py:660-729 | in every interleaving of updates, probes and syncs, status OK implies that the stored server, uuid, password and timeout are those of some earlier fetch that succeeded |
| CookieCloudSettings.LateResultsAreDropped | backend/app/application/cookiecloud.py:660-729 | a result is stored exactly when the version is still the one that was read, and is then a verdict on what is stored |
| CookieCloudSettings.UpdatesForgetExactly | backend/app/application/cookiecloud.py:304-329 | an accepted update keeps the status and the time of the last test exactly when the stored connection is what it was and no password was set, and forgets both otherwise; enabled settings are complete |
| CookieCloudSettings.ExecuteConsistent | backend/app/application/cookiecloud.py:271-333 | every reachable state has its attempts and its verdict consistent with the record |
| CookieCloudSettings.ProvedByAFetch | backend/app/application/cookiecloud.py:401-439 | a connection counts as proved only through a fetch made with exactly it |
| CookieCloudSettings.Settings.constructor | backend/app/infrastructure/persistence/cookiecloud_repositories.py:21-40 | the settings start disabled, unnamed, without a secret and untested, at version 1 |
| CookieCloudSettings.Settings.Save | backend/app/application/cookiecloud.py:271-333 | the verdict by the stored version and what is missing; a rejected save changes nothing; an accepted one stores every setting of the change and the next version, a new password under a new secret, deletes the secret it replaces or clears, and leaves all other secrets and the attempts alone |
| CookieCloudSettings.AttemptGetsThrough | backend/app/application/cookiecloud.py:387-472 | left alone, a probe stores OK or FAILED with the time it began, a sync OK only if its later work succeeded too, and nothing else of the record changes |
| CookieCloudSettings.ReplacedPasswordEndsAttempt | backend/app/application/cookiecloud.py:401-404 | a password that is replaced or cleared before it is loaded ends the attempt without a trace |
| CookieCloudSettings.Settings.StoreProbe | backend/app/application/cookiecloud.py:660-677 | the whole new state, and a conflict exactly when the version moved on |
| CookieCloudSettings.Settings.StoreSync | backend/app/application/cookiecloud.py:679-729 | the same for a sync, whose failure is noted only for the version it read |
| CandidateSelection.SelectForVerification | backend/app/application/analysis.py:148-168 | the selection takes no rejected candidate, no more of a site than it declares and no more in all than the global cap, and dominates every selection that does so too: no fewer on any prefix of the ranking, no fewer in all, and pick by pick no worse ranked |
| CandidateSelection.SaturatedDominates | backend/app/application/analysis.py:150-168 | why: a selection that stopped full or saturated every site's limit beats every feasible one |
| CandidateSelection.SitePrefix | backend/app/application/analysis.py:163-166 | site by site the loop is never behind any feasible selection on any prefix |
| CandidateSelection.KeyRoundTripIff | backend/app/application/analysis.py:458-464 | splitting a key recovers its pair if and only if the site id holds no separator |
| Updater.WritesAreAtomic | backend/app/updater_helper.py:140-154 | at whichever step a write is cut short, the file then reads as the complete old or the complete new status, and after the last step as the new one |
| Updater.Helper.Write | backend/app/updater_helper.py:140-154 | the write with failures and death at each step |
| Updater.Helper.Boot | backend/app/updater_helper.py:49-85 | after a restart: idle without a file, manual recovery without a request after an unreadable one, manual recovery of the same request after an interrupted upgrade, and otherwise the file untouched; without faults it comes up |
| Updater.Helper.Admit | backend/app/updater_helper.py:179-192 | a repeat of the recorded request id is answered or refused as a conflict, and only an inactive helper lets a new request pass |
| Updater.Helper.Start | backend/app/updater_helper.py:193-218 | busy exactly while a worker is alive; otherwise the request is on record before its one worker starts, which without faults it does |
| Updater.Helper.Report | backend/app/updater_helper.py:241-250 | a phase keeps the request of the worker that reports it |
| Updater.Helper.Finish | backend/app/updater_helper.py:252-263 | a result keeps the request of its worker and ends the activity |
| Updater.Helper.AtMostOneWorker | backend/app/updater_helper.py:193-218 | at most one worker is alive |
| LoginLimiter.LoginRateLimiter.Check | backend/app/application/auth.py:71-85 | refuses exactly when five failures of the source or of the account since the relevant last success lie in the last 300 seconds, and reports the wait computed from all of them, although buckets are pruned |
| LoginLimiter.LoginRateLimiter.Login | backend/app/application/auth.py:173-217 | check, then record or clear: outcome and history in terms of the full history; buckets never exceed five |
| LoginLimiter.LoginRateLimiter.RecordFailure | backend/app/application/auth.py:87-93 | a failure is remembered under the source and the account |
| LoginLimiter.LoginRateLimiter.ClearSuccess | backend/app/application/auth.py:95-98 | a success forgets both |
| LoginLimiter.WaitSufficesIff | backend/app/application/auth.py:103-108 | when a bucket is free again, exactly; waiting the reported time suffices while it holds at most five, and a second less never does |
| LoginLimiter.LoginRateLimiter.ReportedWaitIsExact | backend/app/application/auth.py:71-85 | in every state of check-then-record use, waiting the time that a check reports frees both buckets, and waiting up to a second less never does |
| LoginLimiter.WaitsAreExact | backend/app/application/auth.py:71-85 | the same for any two histories with at most five failures in the window |
| LoginLimiter.OverlappingChecksBreakTheBound | backend/app/application/auth.py:71-108 | five checks that all pass before their failures are recorded bring the limiter to a reported wait of 280 seconds, after which it refuses again |
| LoginLimiter.PruneRemembers | backend/app/application/auth.py:110-117 | pruning forgets only what no later verdict can depend on |
| TelegramLimiter.RateWindows.IsRateLimited | backend/app/application/ai_telegram_driver.py:287-301 | refused exactly when the tenth last message admitted under the key lies in the closed last 60 seconds, judged on full history |
| TelegramLimiter.ElevenSpanMoreThanAMinute | backend/app/application/ai_telegram_driver.py:287-301 | over every run any eleven admitted messages span strictly more than a minute |
| TelegramLimiter.ArrivalKeepsValid | backend/app/application/ai_telegram_driver.py:294-301 | one arrival: what the pruned deque says is what the full history says |
| Bencode.RoundTrip | scripts/check_arm64_business_e2e.py:22-32 | a decoder recovers every value and leaves exactly what followed it |
| Bencode.UniquelyDecodable | scripts/check_arm64_business_e2e.py:22-32 | encodings followed by anything are equal only for the same value and the same rest |
| Bencode.SameEncodingIff | scripts/check_arm64_business_e2e.py:22-32 | two values have the same encoding if and only if they mean the same |
| Bencode.OrderIndependent | scripts/check_arm64_business_e2e.py:30-31 | the output does not depend on insertion order |
| Bencode.KeysAscend | scripts/check_arm64_business_e2e.py:30-31 | the keys of a dict are written in ascending order of their raw bytes |
| Bencode.StandardExamples | scripts/check_arm64_business_e2e.py:22-32 | the examples of the standard come out as it gives them |

## Left out

- Form: the qBittorrent services and repair isolation are state machines over values rather than classes, because their steps interleave; the model does not capture Python's lock objects or the order in which waiters get a lock.  One process is assumed, as the locks are per process.
- The validation of requests (versions, capabilities, path and hash syntax) before a lock is taken: a request is modelled once prepared.
- Ownership tags keep 64 bits of a digest and keys 256; both are taken to be injective.
- Journal retention: tombstones and the deletion of old journals.
- Several directories-and-link requests of one candidate whose targets differ: their keys, frames and the absence of adoption are proved for any of them, the accounting and the rollback for one.
- Devices, symbolic links, permissions and link counts of directories; unmounted or unreadable paths.
- Transmission operations, including Transmission removals as authorisation for cleanup.
- Sources of hard links that are themselves made by PackBreaker: in `RepairIsolation` sources are files of the original tree.
- Profile sync jobs that are cancelled before their first step, and a service that was never given its site service.
- CookieCloud's normalisation of URLs and the work of a sync on the sites: its success is an argument.
- Upgrades themselves: the Docker executor's phases and outcome are arguments.  Concurrent starts: the helper's server handles one connection at a time.
- The bencode encoder on booleans, which Python counts as integers, and on keys that are not bytes.
- Site search, deduplication of candidates and the evidence loop of an analysis.
- HTTP routes, the database, encryption, backups, the user interface and release scripts.
