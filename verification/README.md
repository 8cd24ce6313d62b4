# CrossAgent's durable protocols

CrossAgent keeps several long-lived parties in step: a CLI that rotates credentials and releases new Hub
versions, supervisors that keep managed Bridges alive, and a Claude Channel that delivers messages under
revocable authority. What they have in common is that a process may die between any two effects, that others
may act at the same time, and that the state left behind must still be one the next process can go on from.
This project models those protocols and proves what they promise.

| files | models |
|---|---|
| `RotationJournal`, `RotationWorld`, `RotationProgress`, `RotationCoordinator`, `RotationFindings` | the rotation of every credential at once: canonical, staged and quarantined files, a hash-chained journal, and a database that commits |
| `ReleaseJournal`, `ReleaseMachine`, `ReleaseRuns`, `ReleaseReach`, `ReleaseVerdicts`, `ReleaseManager` | the release machine of 47 phases, with rollback and pre-swap cleanup, over a compare-and-swap store |
| `SupervisorJournal`, `SupervisorLaws`, `Supervisor` | the circuit breaker of a managed Bridge, shared by several supervisors |
| `JsonGrammar`, `JsonScan`, `JsonTexts`, `JsonAccepts`, `JsonCanonical`, `CanonicalForm` | the scanner for duplicate keys, and canonical JSON, against the grammar of RFC 8259 |
| `IpcFrames`, `Utf8`, `IpcRoundTrip`, `IpcCommands`, `IpcSubjects` | framing, UTF-8, the round trip of a request, the at-most-once command executor, and the registry of active subjects |
| `LaunchLock` | the launch lock, as interleaved file-system steps |
| `AuthorityCache`, `CutoverGate`, `EventPump`, `TicketVault`, `TicketRenewal` | the Claude Channel: authority invalidation, the writer-priority gate, the event pump, the ticket vault and its renewals |

## How the models are built

- The objects that change step by step are classes with the source's fields. Their methods keep an invariant
  `Valid` or `Consistent` and say what they do to the state.
- What the environment does is data. A script of faults or turns says, for every awaited effect, whether it
  fails, crashes before or after taking effect, and what others write meanwhile. A statement about any script is
  a statement about every crash point and every interleaving. `Calm`, `AllGo`, `Alone` and `Smooth` single out
  the scripts in which nothing goes wrong; the rotation logs each effect it tries with the fault it met, and
  `Untroubled` and `Unhindered` say of the log that no fault was one the call can not get over.
- Where a step is a table of cases, an independent account of it stands beside it (`ReleaseVerdicts`, `SupervisorLaws`),
  and the two are proved to agree on every input.
- In the launch lock and the command executor the participants themselves are state, and a schedule picks who
  takes the next step; any number of them may start and die.
- Over a compare-and-swap store the history is kept as a ghost sequence; what others do to the store is any step
  they could take. The theorems are about every such history.
- Every class has a constructor that establishes its invariant, and what is proved of undisturbed scripts shows
  that the runs the theorems speak of exist.
- A SHA-256 digest is modelled by what it was taken of, so equal digests mean equal contents.

## Main results

- A rotation that is interrupted anywhere, and reconciled with any further interruptions, ends with every
  file, the epoch and every generation old, or all of them new and one later
  (`RotationCoordinator.Coordinator.RotateAndRecover`); no root is ever lost on the way
  (`RotationProgress.RootsAreNeverLost`).
- All release managers together write one chain of journals that visits no phase twice
  (`ReleaseRuns.OneChain`, `ReleaseRuns.KeysAreUsedOnce`); what an outcome says of pointers, identities, effects and
  epochs follows from the whole run (`DeployedMeans`, `RolledBackMeans`, `BlockedMeans`, `RollbackFailedMeans`). A manager
  left alone comes to a verdict told without the machine (`ReleaseManager.Manager.Execute`): it goes on exactly with
  answers that make a valid journal (`ReleaseVerdicts.GoesOnExactly`), deploys, and undoes what is refused
  (`ReleaseManager.Deploy`, `ReleaseManager.Refuse`).
- A strengthening of the supervisor's validator is kept by every write of any supervisor
  (`SupervisorJournal.EffectKeeps`), and yields the laws of whole runs (`SupervisorJournal.AlongRun`); every claim
  waits for the backoff that was set when the circuit was opened (`SupervisorLaws.ClaimsAreSpaced`).
- On every JSON text the scanner rejects exactly the repeated names (`JsonTexts.ReadsText`), what it accepts is a
  JSON text but for white space (`JsonAccepts.AcceptedIsJson`; `WiderWhiteSpace`, harmless behind the JSON.parse of
  packages/cli/src/managed-bridge-ipc.ts:357), and canonical JSON
  prints two values alike exactly when they are equal up to key order (`JsonCanonical.CanonicalIsInjective`), with
  ascending keys (`CanonicalForm.KeysAscend`) and no shorter text (`CanonicalForm.NoneIsShorter`). As
  UTF-8 in a frame that is cut anywhere, a request arrives as itself (`IpcRoundTrip.RequestArrives`).
- The bounded invalidation index agrees with an unbounded log, and nothing cached was invalidated since its
  fetch began (`AuthorityCache.VerdictIsExact`, the invariant of `AuthorityCache.Channel`).
- Each number the pump's cursor has passed belongs to an event that came in, was handled and was committed, in
  order (`EventPump.CursorIsEarned`).
- At most one live process holds the launch lock (`LaunchLock.FileSystem.OneHolder`), an effect runs at most once
  per command (`IpcCommands.Executors.Run`), and the vault always holds the active token
  (`TicketVault.Runtime.ActivateSuccessor`).

## Findings

Each of these is a condition that is exact, with an execution or a state that meets it.

- A rotation request whose authorization source has extra keys, or an epoch at the largest safe integer, is
  journalled and then makes the journal unreadable for good (`Coordinator.Rotate`, `PlanFacts`, `RefusedForever`;
  shown by `UnreadableRotation`).
- A database that recovers a lost commit with a receipt other than the journalled one can never be reconciled
  again (`ForkedReceiptIsFinal`, `ForkStays`, `RetryForked`; shown by `ForkedRotation`).
- The release manager throws, without writing, on answers its own checks have accepted (`ThrowsExactly`; shown by
  `SwapThrows`), and reports JOURNAL_CORRUPT for a sound journal when it loses the write with which it wanted to
  end, to a rival or, with no rival at all, for a lease that went stale (`Manager.Take`, `CorruptMeansUnfinished`; shown
  by `LostBlock` and `StaleBlock`).
- The supervisor's validator accepts a stopped journal that can not be restarted (`RestartNeedsStrong`; shown by
  `ValidIsNotInductive`), and an instance id with white space can never claim a command
  (`ClaimNeedsPlainInstance`; shown by `ClaimIsRefused`).
- After a complete frame even an empty chunk fails MULTIPLE_FRAMES (`FrameReader.Push`; shown by
  `EmptyChunkFails`).
- A command whose claimer died is never taken up again, and everybody who comes with it later is refused
  (`Executors.Run`; shown by `LockedOut`).
- A process that dies with its claim on the mutation file locks everybody out who comes later
  (`FileSystem.Run`; shown by `OrphanedClaim`), and a release that meets another's claim leaves its lock behind
  until its process ends (`ReleaseAmidst`, `FileSystem.Run`; shown by `StrandedLock`). One that dies between the
  creation of its lock and the record leaves an empty lock that nobody ever takes again (`FileSystem.Run`,
  `RefusedAsCorrupt`; shown by `VacantLock`).
- Preparing another enrollment over an activation that is not committed discards the only valid token
  (`ReplacingKeepsTokenUnlessUncommitted`; shown by `UncommittedActivation`). Discarding a renewal's successor
  whose rotation was answered but not heard would do the same (`DiscardKeepsTokenUnlessRotated`, `LostRotation`);
  that is a fact about the method alone, since its only caller, at packages/claude-channel/src/channel.ts:453,
  passes the id of a bundle that prepareInitial returned, which is never a renewal's successor.
- A renewal begun under one external thread is refused under another, although the session check passes
  (`ActivateSuccessor`; shown by `OtherThread`). Every context the channel builds has no external thread
  (packages/claude-channel/src/channel.ts:563, 573 and 598), so only a heartbeat that returns a session with another
  thread (packages/claude-channel/src/channel.ts:2013) leads there.

## Model

| member | source | states |
|---|---|---|
| `RotationJournal.ReadJournal` | packages/cli/src/credential-rotation.ts:835-900 | a journal is accepted exactly when every record follows from the one before: its index, the previous hash, its own hash, and a readable plan with AUTHORIZED and no other phase |
| `RotationJournal.EqualLastHashesMeanEqualJournals` | packages/cli/src/credential-rotation.ts:870-895 | two accepted journals with the same last hash are the same journal |
| `RotationJournal.AcceptedPrefix` | packages/cli/src/credential-rotation.ts:835-900 | any prefix of an accepted journal is accepted |
| `RotationJournal.RefusedForever` | packages/cli/src/credential-rotation.ts:835-900 | nothing appended later makes a refused journal readable again |
| `RotationJournal.AppendAccepted` | packages/cli/src/credential-rotation.ts:902-950 | what the writer appends is accepted on the next read exactly when the plan is one the reader accepts |
| `RotationJournal.LoadNext` | packages/cli/src/credential-rotation.ts:1014-1053 | appending the next forward phase, or the abort of STAGED, keeps the loader accepting and loads as that phase; appending any other phase makes the operation corrupt |
| `RotationJournal.ChainNext` | packages/cli/src/credential-rotation.ts:1001-1053 | an operation's phases stay a prefix of the forward chain, or the abort chain, exactly when the next phase follows the last |
| `RotationJournal.LoadOther` | packages/cli/src/credential-rotation.ts:1014-1024 | records of one operation never change what another one loads as |
| `RotationJournal.UncommittedRecords` | packages/cli/src/credential-rotation.ts:1612-1624 | before the commit is journalled no record carries receipt evidence that could contradict the database |
| `RotationJournal.AuthorizeKeepsJournaled` | packages/cli/src/credential-rotation.ts:1122 | authorizing a readable plan under an unused id leaves every operation loadable, the new one as AUTHORIZED |
| `RotationJournal.AppendKeepsJournaled` | packages/cli/src/credential-rotation.ts:1550-1578 | appending a phase that follows leaves the journal readable and every operation loadable |
| `RotationJournal.LatestExternalEpoch` | packages/cli/src/credential-rotation.ts:1535-1548 | the loop returns the largest epoch that any journalled operation vouches for, 0 if none does |
| `RotationWorld.AuthorizeKeepsSound` | packages/cli/src/credential-rotation.ts:1122 | authorization starts an unfinished operation only from a quiet system, and keeps the coupling of journal, database and files |
| `RotationWorld.AppendKeepsSound` | packages/cli/src/credential-rotation.ts:1550-1578 | each journalled phase keeps the coupling of journal, database and files |
| `RotationWorld.DatabaseMoveKeepsSound` | packages/cli/src/credential-rotation.ts:1123-1131 | PREPARED, STAGED, SWITCHING, FILES_INSTALLED and ABORTED are reached by the database only in file states that allow them |
| `RotationWorld.CommitKeepsSound` | packages/cli/src/credential-rotation.ts:1222-1236 | the commit, or the external recovery of a lost one, keeps the coupling; the commit ledger grows by this operation |
| `RotationWorld.StageKeepsSound` | packages/cli/src/credential-rotation.ts:1316-1332 | writing a staged file before the switch keeps the coupling |
| `RotationWorld.InstallStepKeepsSound` | packages/cli/src/credential-rotation.ts:1334-1375 | either rename of a slot keeps every slot in one of its three switching states and undoes none that is new |
| `RotationWorld.RemovalKeepsSound` | packages/cli/src/credential-rotation.ts:1250-1274 | removing artifacts after the commit keeps the coupling |
| `RotationWorld.ReceiptFacts` | packages/cli/src/credential-rotation.ts:481-510 | a committed operation holds a receipt that names it, its epochs and its generations |
| `RotationWorld.AuthorizeOutcome` | packages/cli/src/credential-rotation.ts:902-950 | writing AUTHORIZED leaves a consistent system for a readable plan, and otherwise a journal that is refused |
| `RotationWorld.RecordKeepsConsistent` | packages/cli/src/credential-rotation.ts:1550-1578 | the whole invariant survives every journal append |
| `RotationWorld.MoveKeepsConsistent` | packages/cli/src/credential-rotation.ts:1123-1131 | the whole invariant survives every database advance and abort |
| `RotationWorld.CommitKeepsConsistent` | packages/cli/src/credential-rotation.ts:1222-1236 | the whole invariant survives the commit |
| `RotationWorld.StageKeepsConsistent` | packages/cli/src/credential-rotation.ts:1316-1332 | the whole invariant survives staging |
| `RotationWorld.InstallStepKeepsConsistent` | packages/cli/src/credential-rotation.ts:1334-1375 | the whole invariant survives either rename |
| `RotationWorld.RemovalKeepsConsistent` | packages/cli/src/credential-rotation.ts:829-833 | the whole invariant survives the removal of a staged or quarantined file |
| `RotationProgress.RootsAreNeverLost` | packages/cli/src/credential-rotation.ts:1250-1274 | at every reachable state: committed means every canonical file is new; from SWITCHING on each new root is staged or canonical; until cleanup may begin each old root is canonical or quarantined |
| `RotationProgress.JournalAgrees` | packages/cli/src/credential-rotation.ts:1535-1548 | no rotation is unfinished exactly when none is open in the journal and the journal vouches for the database's epoch, and then that epoch is the number of commits |
| `RotationProgress.QuietJournal` | packages/cli/src/credential-rotation.ts:1535-1548 | with no rotation unfinished, journal epoch, database epoch and number of committed rotations are equal |
| `RotationProgress.LatestEpochIsUnique` | packages/cli/src/credential-rotation.ts:1535-1548 | a journal has one latest epoch |
| `RotationProgress.ExtendsTransitive` | packages/cli/src/credential-rotation.ts:1136-1220 | progress on behalf of an operation composes over any number of steps |
| `RotationProgress.RecordKeeps` | packages/cli/src/credential-rotation.ts:1550-1578 | journalling a phase never changes whether the operation has switched |
| `RotationProgress.MoveExtends` | packages/cli/src/credential-rotation.ts:1123-1131 | of the phases short of the commit only SWITCHING decides the operation |
| `RotationProgress.CommitKeeps` | packages/cli/src/credential-rotation.ts:1222-1236 | the commit records no evidence of its own, and agrees with any on record |
| `RotationProgress.NoEvidenceYet` | packages/cli/src/credential-rotation.ts:1612-1624 | before the commit is journalled there is no evidence to contradict |
| `RotationProgress.InstallReady` | packages/cli/src/credential-rotation.ts:1340-1356 | a slot not yet touched can be quarantined: the target is free, the other slots are untouched |
| `RotationProgress.InstallMid` | packages/cli/src/credential-rotation.ts:1356-1375 | a slot between its two renames can be promoted: the canonical path is free, the other slots are untouched |
| `RotationProgress.EndDecided` | packages/cli/src/credential-rotation.ts:1136-1220 | an operation ends aborted exactly when the database had not reached SWITCHING, wherever on the way this is asked |
| `RotationProgress.StillReconcilable` | packages/cli/src/credential-rotation.ts:1136-1220 | steps on behalf of an operation leave it reconcilable |
| `RotationProgress.EndedIsQuiet` | packages/cli/src/credential-rotation.ts:1136-1220 | once an end other than CLEANUP_PENDING is reported nothing is unfinished |
| `RotationProgress.ForkedReceiptIsFinal` | packages/cli/src/credential-rotation.ts:1160-1170 | finding: a database that recovers a lost commit leaves the operation forked exactly when the receipt it issues is not the journalled one, and reconcilable otherwise |
| `RotationProgress.ForkedIsIrreconcilable` | packages/cli/src/credential-rotation.ts:1612-1624 | a forked operation is not reconcilable, whatever receipts are issued |
| `RotationProgress.ForkStays` | packages/cli/src/credential-rotation.ts:1136-1220 | no step on behalf of any operation takes a fork back |
| `RotationProgress.ForkStaysBeside` | packages/cli/src/credential-rotation.ts:1076-1134 | nor does a new rotation |
| `RotationCoordinator.PlanFacts` | packages/cli/src/credential-rotation.ts:612-651 | a plan made for a request is readable exactly when its authorization source has no extra keys and the next epoch is a safe integer |
| `RotationCoordinator.MembersAccepted` | packages/cli/src/credential-rotation.ts:1276-1314 | the members made for a rotation pass the reader's checks |
| `RotationCoordinator.LaunchedIsRotated` | packages/cli/src/credential-rotation.ts:1594-1610 | a committed end is one epoch and one generation later, on exactly the generated roots |
| `RotationCoordinator.EndsOldOrNew` | packages/cli/src/credential-rotation.ts:1064-1220 | a decided end is all old or all new, never a mix |
| `RotationCoordinator.Coordinator.constructor` | packages/cli/src/credential-rotation.ts:1059-1062 | a fresh installation is consistent |
| `RotationCoordinator.Coordinator.AppendAuthorized` | packages/cli/src/credential-rotation.ts:902-950 | a fault leaves either no record or the whole one; an unreadable plan is written all the same |
| `RotationCoordinator.Coordinator.Append` | packages/cli/src/credential-rotation.ts:1550-1578 | a phase already passed is not written again; otherwise one record, or a fault before it |
| `RotationCoordinator.Coordinator.Advance` | packages/cli/src/credential-rotation.ts:1123-1131 | one database phase further, or a fault before or after it |
| `RotationCoordinator.Coordinator.Commit` | packages/cli/src/credential-rotation.ts:1222-1236 | the commit happens at most once, and a replay returns the receipt on record; if nothing but its answer is lost, it has happened |
| `RotationCoordinator.Coordinator.InstallSlot` | packages/cli/src/credential-rotation.ts:1340-1375 | from any of the three switching states a slot becomes new, whatever happened to the others |
| `RotationCoordinator.Coordinator.InstallAll` | packages/cli/src/credential-rotation.ts:1334-1375 | completes the switch from wherever it was interrupted |
| `RotationCoordinator.Coordinator.CanonicalIsNew` | packages/cli/src/credential-rotation.ts:1426-1440 | answers whether every canonical file is new |
| `RotationCoordinator.Coordinator.EvidenceIsExact` | packages/cli/src/credential-rotation.ts:1612-1624 | answers whether every receipt on record is the database's |
| `RotationCoordinator.Coordinator.CleanupArtifacts` | packages/cli/src/credential-rotation.ts:1626-1630 | nothing of the operation is left staged or quarantined, and no canonical file changes |
| `RotationCoordinator.Coordinator.CatchJournalUp` | packages/cli/src/credential-rotation.ts:1513-1533 | the journal learns exactly the phases the database has reached |
| `RotationCoordinator.Coordinator.Cleanup` | packages/cli/src/credential-rotation.ts:1250-1274 | starts only from a commit, and ends CLEANUP_PENDING or COMPLETED with every canonical file new |
| `RotationCoordinator.Coordinator.ContinueForward` | packages/cli/src/credential-rotation.ts:1222-1248 | from SWITCHING to a committed end, at every fault resumable; done if no effect fails but that the answer of the commit is lost or files refuse to be removed, and COMPLETED if all are removed |
| `RotationCoordinator.Coordinator.CommitAndRecord` | packages/cli/src/credential-rotation.ts:1234-1248 | a commit that took effect and whose answer was lost is settled by asking the database: it is journalled all the same |
| `RotationCoordinator.Coordinator.AbortStaged` | packages/cli/src/credential-rotation.ts:1199-1212 | a rotation that has not switched ends ABORTED, also when nothing but the answer of the database is lost |
| `RotationCoordinator.Coordinator.InspectFileStates` | packages/cli/src/credential-rotation.ts:1398-1412 | tells old, new and missing canonical files apart |
| `RotationCoordinator.Coordinator.ReconcileUnfinished` | packages/cli/src/credential-rotation.ts:1160-1220 | ends as the database had decided |
| `RotationCoordinator.Coordinator.ReconcileCommitted` | packages/cli/src/credential-rotation.ts:1151-1158 | finishes a committed rotation and cleans up after it |
| `RotationCoordinator.Coordinator.RecoverExternal` | packages/cli/src/credential-rotation.ts:1160-1170 | recovers a journalled commit that the database no longer knows, exactly when the receipts agree, and forks the operation when they do not |
| `RotationCoordinator.Coordinator.Reconcile` | packages/cli/src/credential-rotation.ts:1136-1220 | a call in which no effect fails, but that the answer of a commit or an abort may be lost, ends every reconcilable operation, as decided; an interrupted one keeps it reconcilable; an unknown one is refused with nothing changed; a forked one is never done, and stays forked |
| `RotationCoordinator.Coordinator.CanonicalMatches` | packages/cli/src/credential-rotation.ts:1414-1424 | answers whether every canonical file holds the root the database serves |
| `RotationCoordinator.Coordinator.PlanRotation` | packages/cli/src/credential-rotation.ts:1076-1121 | the checks before anything is written pass exactly when the request can be carried out |
| `RotationCoordinator.Coordinator.Prepare` | packages/cli/src/credential-rotation.ts:1123-1129 | stages every member, from the database's prepare to the journalled STAGED |
| `RotationCoordinator.Coordinator.Launch` | packages/cli/src/credential-rotation.ts:1122-1134 | from AUTHORIZED to the end; an interruption anywhere leaves the operation reconcilable |
| `RotationCoordinator.Coordinator.Rotate` | packages/cli/src/credential-rotation.ts:1064-1134 | a known id is refused for another request with nothing changed, and for its own is reconciled, to the end if it is reconcilable; a new one, if no effect fails but that the answer of the commit may be lost, is done exactly when its plan is readable, and otherwise leaves the journal unreadable; COMPLETED if every removal succeeds; a forked one is never done, and stays forked |
| `RotationCoordinator.Coordinator.Recover` | packages/cli/src/credential-rotation.ts:1136-1220 | any number of interrupted reconciles, each with a receipt of its own for which the operation can be reconciled, and then an uninterrupted one end ABORTED or COMPLETED, as decided before them all |
| `RotationProgress.AnyReceipt` | packages/cli/src/credential-rotation.ts:1612-1624 | unless the database has forgotten the commit, it does not matter which receipt it would issue |
| `RotationProgress.StillReconcilableFor` | packages/cli/src/credential-rotation.ts:1136-1220 | a reconcile with one receipt leaves an operation reconcilable for every other for which it was |
| `RotationProgress.OneReceipt` | packages/cli/src/credential-rotation.ts:1612-1624 | the records of an operation whose commit is journalled name one receipt |
| `RotationCoordinator.Coordinator.RetryForked` | packages/cli/src/credential-rotation.ts:1064-1220 | any number of retries of a forked request, with any faults and receipts: not one is done, and the operation stays forked |
| `RotationCoordinator.Coordinator.RotateAndRecover` | packages/cli/src/credential-rotation.ts:1064-1274 | for every request whose plan is readable, a rotation interrupted anywhere and then reconciled, whatever receipts the database issues on the way, leaves all roots, epoch and generations old, or all new and one later, never a mix |
| `RotationFindings.UnreadableRotation` | packages/cli/src/credential-rotation.ts:902-950 | finding: from a fresh installation one uninterrupted request with extra keys is refused, and leaves its plan as the only record of a journal that is refused for good |
| `RotationFindings.RestoreLosesCommit` | packages/cli/src/credential-rotation.ts:1160-1170 | putting the database back to before its only commit leaves a consistent state in which that commit is lost |
| `RotationFindings.ForkedRotation` | packages/cli/src/credential-rotation.ts:1160-1170 | finding: a request is rotated to COMPLETED, the database put back to before it, and one reconcile, issued another receipt, is not done and leaves the operation forked |
| `ReleaseRuns.StepFits` | packages/cli/src/atomic-release-manager.ts:2514-3355 | from every journal of a run the loop is never at a loss for a receipt, and the patch it makes replaces only missing receipts |
| `ReleaseRuns.PatchAdvances` | packages/cli/src/atomic-release-manager.ts:3420-3457 | a write raises the revision by one and the phase's rank, and loses no receipt |
| `ReleaseRuns.PatchKeepsRunValid` | packages/cli/src/atomic-release-manager.ts:2211-2333 | what journalRelationsValid leaves open stays settled: a block or a cleanup happens before the swap, with the cause its phase gives |
| `ReleaseRuns.RunFacts` | packages/cli/src/atomic-release-manager.ts:3420-3457 | every journal of a run satisfies the relations, carries its own number as revision, and each receipt that names a revision names the one of its phase |
| `ReleaseRuns.OneChain` | packages/cli/src/atomic-release-manager.ts:3420-3457 | later journals have a strictly higher rank by at least their distance, and every receipt of the earlier ones |
| `ReleaseRuns.KeysAreUsedOnce` | packages/cli/src/atomic-release-manager.ts:2403-2405 | a run visits no phase twice, so no idempotency key is used for two journals, and is never longer than the 47 phases |
| `ReleaseRuns.DeployedMeans` | packages/cli/src/atomic-release-manager.ts:3519-3529 | DEPLOYED: the committed pointer is maintenance + 2 with the candidate in every receipt, and one effect per paused subject at consecutive supervisor revisions |
| `ReleaseRuns.RolledBackMeans` | packages/cli/src/atomic-release-manager.ts:3530-3537 | ROLLED_BACK: pointer + 3 with the previous release throughout, and no security epoch below the one seen on entering maintenance |
| `ReleaseRuns.BlockedMeans` | packages/cli/src/atomic-release-manager.ts:3538-3546 | BLOCKED: never swapped; the cleanup left pointer and epoch as they were; in maintenance without a cleanup exactly when it blocked after the Hub had stopped |
| `ReleaseRuns.RollbackFailedMeans` | packages/cli/src/atomic-release-manager.ts:3547-3560 | ROLLBACK_FAILED: swapped and nothing committed; failed at the last phase the run was in, with that phase's code; restored to pointer + 2 and the previous release exactly if that phase comes after the restore, with no security epoch below the one on entering maintenance |
| `ReleaseReach.ThrowsExactly` | packages/cli/src/atomic-release-manager.ts:3420-3457 | transition throws, with nothing written, in exactly these cases: an accepted answer breaks a relation (snapshot or maintenance too early, paused pointer or build, stop too early, security state or time of the final snapshot, artifact hashes of the swap, database of the restore) |
| `ReleaseReach.NeverStuck` | packages/cli/src/atomic-release-manager.ts:2514-3355 | from every journal that has not ended some answer moves the release on and is written |
| `ReleaseReach.EveryRunCanEnd` | packages/cli/src/atomic-release-manager.ts:2514-3355 | wherever a run stands, faithful adapters bring it to COMPLETED, from a rollback to ROLLED_BACK, from a cleanup to BLOCKED |
| `ReleaseReach.FailureWrites` | packages/cli/src/atomic-release-manager.ts:3474-3517 | block, beginRollback, beginPreSwapCleanup and rollbackFailed never break a relation |
| `ReleaseReach.NextFacts` | packages/cli/src/atomic-release-manager.ts:2514-3355 | the faithful answer leads to the following phase |
| `ReleaseReach.SwapThrows` | packages/cli/src/atomic-release-manager.ts:2807-2823 | finding: a run, and an answer to its swap with other artifact hashes, that the step accepts and that can not be written |
| `ReleaseVerdicts.GoesOnExactly` | packages/cli/src/atomic-release-manager.ts:2526-3355 | a step goes on exactly with an answer of the phase's kind that makes a valid journal, but for the fields whose relations only the write checks, and with the installed and running releases that CURRENT_REVALIDATE, STOP_RECEIPT_CONFIRMED, SWAPPED and the restore ask to see; it writes that journal, or throws if one of those relations breaks |
| `ReleaseVerdicts.RejectionExactly` | packages/cli/src/atomic-release-manager.ts:3459-3517 | a rejection is written as its phase says: the start of a rollback with the phase's cause after the swap, of a cleanup in maintenance before it, a block outside, and in a rollback ROLLBACK_FAILED |
| `ReleaseVerdicts.RefusedExactly` | packages/cli/src/atomic-release-manager.ts:2526-3355 | anything else blocks in the five phases where a definite answer or observation can mismatch, and asks for recovery with the phase's code in all others |
| `ReleaseManager.CorruptMeansUnfinished` | packages/cli/src/atomic-release-manager.ts:3519-3570 | finding: a valid journal is reported as JOURNAL_CORRUPT exactly when it is not terminal, which a manager does that loses the write with which it wanted to end |
| `ReleaseManager.EndsTruly` | packages/cli/src/atomic-release-manager.ts:3519-3570 | what is reported of a terminal journal is the end of the run |
| `ReleaseManager.NothingFollows` | packages/cli/src/atomic-release-manager.ts:3347-3352 | nothing is written after a terminal phase |
| `ReleaseManager.Manager.TransitionFrom` | packages/cli/src/atomic-release-manager.ts:3420-3457 | one write, or what the store holds: exactly which, given what rivals do while it is written and whether the claim on the lease has gone stale; what it holds is further on, unless the lease alone refused the write; it throws exactly on an answer that breaks a relation |
| `ReleaseManager.Manager.LoadOrCreate` | packages/cli/src/atomic-release-manager.ts:3357-3418 | finds the journal or creates a valid first one; no journal exactly where the two releases do not differ or the creation is refused for the lease |
| `ReleaseManager.Manager.Execute` | packages/cli/src/atomic-release-manager.ts:2514-3355 | with any rivals the loop reports before its hundred turns are over; an outcome is the end of this request's run, REQUEST_CONFLICT means a journal of another request, a request for recovery or a throw is explained by a step from a journal of the run, LEASE_LOST by a lost lease; JOURNAL_CORRUPT needs equal releases, a rival or a lost lease, and is certain when no journal can be made or the first step loses its end; left alone it comes to the reference verdict on whatever its adapters answer, and with faithful ones ends the release, in DEPLOYED from the normal path |
| `ReleaseManager.Manager.Drive` | packages/cli/src/atomic-release-manager.ts:2526-3354 | the loop: the same, from any journal of the run; a turn that does not move on is one that lost the lease, and there is no other |
| `ReleaseManager.Manager.Take` | packages/cli/src/atomic-release-manager.ts:2526-3353 | one turn of the loop moves on, reports or loses the lease; a terminal journal is reported without another await; finding: it reports JOURNAL_CORRUPT exactly when its step wants to end, the write is lost to a rival or to a stale lease, and the journal it then finds is not terminal |
| `ReleaseManager.ScriptIsFaithful` | packages/cli/src/atomic-release-manager.ts:2514-3355 | from every journal of a run there is a script in which everybody is faithful |
| `ReleaseManager.Deploy` | packages/cli/src/atomic-release-manager.ts:2514-3355 | a request left alone with faithful adapters is answered DEPLOYED with the candidate |
| `ReleaseManager.LostBlock` | packages/cli/src/atomic-release-manager.ts:3474-3484 | finding: a manager whose candidate is rejected while a rival's is accepted reports JOURNAL_CORRUPT for a sound, unfinished journal |
| `ReleaseManager.StaleBlock` | packages/cli/src/atomic-release-manager.ts:3443-3456 | finding: with no rival at all, a manager whose candidate is rejected and whose lease goes stale reports JOURNAL_CORRUPT for its own sound, unfinished journal |
| `ReleaseManager.VerdictStep` | packages/cli/src/atomic-release-manager.ts:2526-3355 | one step of the reference verdict is what the step does |
| `ReleaseManager.FaithfulVerdict` | packages/cli/src/atomic-release-manager.ts:2526-3355 | with faithful answers the verdict is DEPLOYED from the normal path, ROLLED_BACK for its cause from a rollback, BLOCKED for its cause from a cleanup |
| `ReleaseManager.RejectionVerdict` | packages/cli/src/atomic-release-manager.ts:3459-3517 | a rejection with faithful answers after it comes to ROLLED_BACK to the previous release for the phase's cause, BLOCKED for it after a cleanup or at once, or ROLLBACK_FAILED |
| `ReleaseManager.Refuse` | packages/cli/src/atomic-release-manager.ts:2514-3355 | a request whose adapters refuse once, in any phase of the normal path in which they may, and are faithful otherwise, is answered just so |
| `SupervisorJournal.ProgressIsPreorder` | packages/cli/src/managed-bridge-supervisor.ts:226-241 | recovery proofs progress reflexively and transitively |
| `SupervisorJournal.Backoff` | packages/cli/src/managed-bridge-supervisor.ts:252-271 | between four seconds and the cap, within a fifth of the doubled base |
| `SupervisorJournal.EffectKeeps` | packages/cli/src/managed-bridge-supervisor.ts:359-1002 | every write of every supervisor keeps the strengthened invariant, so the validator never refuses one, and is a legal evolution |
| `SupervisorJournal.RestartNeedsStrong` | packages/cli/src/managed-bridge-supervisor.ts:359-389 | a valid stopped journal can be restarted into a valid one exactly when it is strong |
| `SupervisorJournal.ValidIsNotInductive` | packages/cli/src/managed-bridge-supervisor.ts:1230-1360 | finding: the validator accepts a STOPPED journal with an OPEN circuit, whose restart it refuses |
| `SupervisorJournal.ClaimNeedsPlainInstance` | packages/cli/src/managed-bridge-supervisor.ts:334-357 | finding: an instance id with white space can be constructed, but no claim in its name is ever valid; every other write is |
| `SupervisorJournal.ClaimIsRefused` | packages/cli/src/managed-bridge-supervisor.ts:334-357 | such a claim: a due probe by an instance whose id has white space |
| `SupervisorJournal.LeaseProtects` | packages/cli/src/managed-bridge-supervisor.ts:632-650 | a live lease keeps every other reconciler from writing, whatever it observes |
| `SupervisorJournal.AlongRun` | packages/cli/src/managed-bridge-supervisor.ts:359-1002 | along every run the observed fuse generation, the recovery sequence and the incarnation never fall, commandGeneration counts exactly the OPEN to HALF_OPEN claims, and BLOCKED is left only by a release of a stopped Bridge |
| `SupervisorJournal.ProbeCycle` | packages/cli/src/managed-bridge-supervisor.ts:859-899 | a due probe claims one command generation; RECOVERED closes the circuit with no failures, STILL_OPEN reopens it with one failure more and its backoff |
| `SupervisorJournal.LostCommandIsRetried` | packages/cli/src/managed-bridge-supervisor.ts:817-846 | a command whose answer is lost is dispatched again as the same command under the same generation |
| `SupervisorLaws.BlocksExactly` | packages/cli/src/managed-bridge-supervisor.ts:466-600 | a journal is blocked by exactly the observations that say so: malformed, of another run, with a proof that went back, from a blocked worker, and a fuse that falls, skips a number, or changes while open or half open; never while a command is awaited |
| `SupervisorLaws.ClaimsExactly` | packages/cli/src/managed-bridge-supervisor.ts:604-631 | a command is claimed exactly when the same identity is seen with the same fuse open, and the next attempt is due or the command is free; the claim names the next generation, this instance, its lease and its dispatches |
| `SupervisorLaws.WritesChange` | packages/cli/src/managed-bridge-supervisor.ts:454-620 | a reconcile that would leave the journal as it is writes nothing |
| `SupervisorLaws.HealthyCloses` | packages/cli/src/managed-bridge-supervisor.ts:520-547 | a healthy worker closes the circuit with no failures and its fuse on record |
| `SupervisorLaws.VagueSettlesNothing` | packages/cli/src/managed-bridge-supervisor.ts:492-519 | an observation that leaves the fuse open to doubt settles nothing, but for a free command, which waits another backoff or is given up for a new identity |
| `SupervisorLaws.OpenFuse` | packages/cli/src/managed-bridge-supervisor.ts:556-603 | a new open fuse opens the circuit with one failure and its backoff; one already known changes nothing but the identity |
| `SupervisorLaws.RegistryIsTold` | packages/cli/src/managed-bridge-supervisor.ts:562-602 | the registry is told of a new identity, except when it comes with the fuse that opens a closed circuit |
| `SupervisorLaws.ResultsExactly` | packages/cli/src/managed-bridge-supervisor.ts:859-913 | a result counts only for the command this instance owns, and exactly: closed, open again with one failure more, or blocked for what does not match |
| `SupervisorLaws.LosesExactly` | packages/cli/src/managed-bridge-supervisor.ts:817-846 | a lost command stays, free to be claimed after its backoff |
| `SupervisorLaws.PlainActs` | packages/cli/src/managed-bridge-supervisor.ts:359-1002 | when a start, a stop, a release or a block writes, and what it leaves of the journal |
| `SupervisorLaws.BackoffGrows` | packages/cli/src/managed-bridge-supervisor.ts:252-271 | each further failure, up to the fifth, waits longer than the one before, whatever the hashes |
| `SupervisorLaws.WritesWait` | packages/cli/src/managed-bridge-supervisor.ts:604-631 | no write claims an open circuit before its next attempt, which whoever opened it set a backoff away, or at once for a worker that has changed |
| `SupervisorLaws.DispatchesWait` | packages/cli/src/managed-bridge-supervisor.ts:632-650 | a command goes out again only when it is free and due, or its lease is over |
| `SupervisorLaws.EveryRunIsPlayed` | packages/cli/src/managed-bridge-supervisor.ts:964-1002 | every history of a supervisor's journal is a fresh journal and then one act after the other |
| `SupervisorLaws.ClaimsAreSpaced` | packages/cli/src/managed-bridge-supervisor.ts:604-631 | along a run each claim comes no earlier than the attempt set when the circuit was last opened, and between two claims it has been opened again |
| `Supervisor.Supervisor.CompareAndSwap` | packages/cli/src/managed-bridge-supervisor.ts:1126-1165 | one validated write: won, lost to a later revision, or refused exactly for an instance id the validator rejects |
| `Supervisor.Supervisor.Swap` | packages/cli/src/managed-bridge-supervisor.ts:964-982 | the effect, or the journal of whoever won |
| `Supervisor.Supervisor.BlockCurrent` | packages/cli/src/managed-bridge-supervisor.ts:984-1002 | ends blocked whatever journal it finds; alone, it is one write |
| `Supervisor.Supervisor.EnsureRunning` | packages/cli/src/managed-bridge-supervisor.ts:359-389 | running with the same run, or blocked; undisturbed it is one create, one restart, nothing, or one block for another run, and exactly where the registry is asked first, and throws, nothing |
| `Supervisor.Supervisor.RequestStop` | packages/cli/src/managed-bridge-supervisor.ts:391-433 | stopped without a command, or blocked; undisturbed it is one create, one stop, nothing, or one block |
| `Supervisor.Supervisor.TransitionRelease` | packages/cli/src/managed-bridge-supervisor.ts:915-962 | rebinds or rolls back only a stopped journal of the expected identity, changing entry and build alone |
| `Supervisor.Supervisor.Reconcile` | packages/cli/src/managed-bridge-supervisor.ts:454-630 | alone, it creates an absent journal and then does exactly what the observation calls for: keep, block, replace, or claim and dispatch; among rivals it returns a journal the store has held, and issues at most one command, one that it has claimed |
| `Supervisor.Supervisor.Adopt` | packages/cli/src/managed-bridge-supervisor.ts:483-774 | one write after the registry has been told, or none if the registry refuses; a command given up for a new identity is reconciled again, once |
| `Supervisor.Supervisor.Probe` | packages/cli/src/managed-bridge-supervisor.ts:599-630 | the claim, and the dispatch by its owner |
| `Supervisor.Supervisor.Dispatch` | packages/cli/src/managed-bridge-supervisor.ts:775-815 | the command is issued, once, and its result or its loss recorded in one act |
| `Supervisor.Supervisor.Issue` | packages/cli/src/managed-bridge-supervisor.ts:775-815 | one command goes out, and its answer is awaited |
| `Supervisor.Supervisor.RecordLost` | packages/cli/src/managed-bridge-supervisor.ts:817-846 | afterwards this instance does not own the command any more, and the command is kept |
| `Supervisor.Supervisor.RecordResult` | packages/cli/src/managed-bridge-supervisor.ts:859-899 | acts on a command only while it is owned: one record, or one block for a result that does not match |
| `JsonScan.Scanner.Check` | packages/cli/src/managed-bridge-ipc.ts:959-1051 | the index-moving scanner terminates and comes to the verdict of the recursive reader, at its index |
| `JsonScan.Scanner.ParseValue` | packages/cli/src/managed-bridge-ipc.ts:982-1042 | one value, the index just behind it |
| `JsonScan.Scanner.ParseMembers` | packages/cli/src/managed-bridge-ipc.ts:985-1013 | the object loop: a name seen before is a duplicate key |
| `JsonScan.Scanner.ParseString` | packages/cli/src/managed-bridge-ipc.ts:964-981 | a string, its name unescaped |
| `JsonScan.ReadText` | packages/cli/src/managed-bridge-ipc.ts:959-1051 | a text that is read is read to its very end |
| `JsonTexts.ReadsText` | packages/cli/src/managed-bridge-ipc.ts:959-1051 | on every text of the grammar of RFC 8259 sections 2 to 7 the scanner consumes the whole text, and rejects exactly when some object has two equal unescaped names |
| `JsonTexts.TextsAreUnambiguous` | packages/cli/src/managed-bridge-ipc.ts:959-1051 | whether names repeat, and the value if none do, depend on the text alone |
| `JsonTexts.RefuseDuplicates` | packages/cli/src/managed-bridge-ipc.ts:959-1051 | the scanner, run: on a JSON text it refuses repeated names and nothing else |
| `JsonAccepts.AcceptedIsJson` | packages/cli/src/managed-bridge-ipc.ts:959-1051 | whatever the scanner accepts has a derivation in the grammar, but for the wider white space between its tokens, with the value read and no name repeated |
| `JsonAccepts.AcceptsExactly` | packages/cli/src/managed-bridge-ipc.ts:959-1051 | the scanner finds every JSON text well-formed, and what it accepts is one, unless some of it is white space to the scanner alone |
| `JsonAccepts.WiderWhiteSpace` | packages/cli/src/managed-bridge-ipc.ts:959-963 | a no-break space before a number, which the scanner accepts and JSON does not |
| `JsonCanonical.LessIsTotal` | packages/cli/src/managed-bridge-ipc.ts:851-860 | key order is total and antisymmetric |
| `JsonCanonical.LessIsTransitive` | packages/cli/src/managed-bridge-ipc.ts:851-860 | key order is transitive |
| `JsonCanonical.CanonicalReadsBack` | packages/cli/src/managed-bridge-ipc.ts:851-860 | canonical text is always accepted by the scanner and reads back as the value with its keys sorted |
| `JsonCanonical.NormalAlike` | packages/cli/src/managed-bridge-ipc.ts:851-860 | sorting the keys identifies exactly the values that are equal up to key order |
| `JsonCanonical.CanonicalIsInjective` | packages/cli/src/managed-bridge-ipc.ts:851-860 | two values print alike exactly when they are equal up to key order |
| `JsonCanonical.NormalizeTwice` | packages/cli/src/managed-bridge-ipc.ts:851-860 | sorting the keys once is enough |
| `CanonicalForm.KeysAscend` | packages/cli/src/managed-bridge-ipc.ts:851-860 | in canonical text, however it is read, of two names that follow each other the earlier is a proper prefix of the later or has the smaller code unit where they first differ |
| `CanonicalForm.NoneIsShorter` | packages/cli/src/managed-bridge-ipc.ts:851-860 | no well-formed text of the sorted value is shorter: no white space, and nothing escaped that need not be |
| `IpcFrames.Header` | packages/cli/src/managed-bridge-ipc.ts:325-332 | four bytes, the most significant first, that decode to the length |
| `IpcFrames.FramesExactly` | packages/cli/src/managed-bridge-ipc.ts:334-352 | the exact condition for each verdict on a frame, in its bytes |
| `IpcFrames.FrameReader.Push` | packages/cli/src/managed-bridge-ipc.ts:279-304 | yields what all bytes so far decode to; once complete every further chunk, an empty one too, fails MULTIPLE_FRAMES |
| `IpcFrames.FrameReader.End` | packages/cli/src/managed-bridge-ipc.ts:306-310 | TRUNCATED_FRAME exactly when no frame is complete |
| `IpcFrames.Serve` | packages/cli/src/managed-bridge-ipc.ts:272-311 | a connection served chunk by chunk comes to the verdict of its chunks |
| `IpcFrames.OneChunk` | packages/cli/src/managed-bridge-ipc.ts:334-368 | one-shot decoding is the reader fed a single chunk |
| `IpcFrames.AnyCut` | packages/cli/src/managed-bridge-ipc.ts:272-368 | however a valid frame is cut, nothing is yielded before its last byte and then exactly its request; every proper prefix ends TRUNCATED_FRAME |
| `IpcFrames.TrailingBytes` | packages/cli/src/managed-bridge-ipc.ts:272-368 | bytes after a valid frame fail MULTIPLE_FRAMES, unless a cut falls exactly at its end: then the request has been yielded before |
| `IpcFrames.EmptyChunkFails` | packages/cli/src/managed-bridge-ipc.ts:279-304 | finding: behind a complete frame even a chunk of no bytes fails MULTIPLE_FRAMES |
| `Utf8.TextReadsBack` | packages/cli/src/managed-bridge-ipc.ts:327-355 | any text that is written as UTF-8 reads back as itself, but for surrogates without their other half, which read back as the replacement character |
| `Utf8.PointReadsBack` | packages/cli/src/managed-bridge-ipc.ts:327-355 | the bytes of every code point read back as that code point, whatever follows |
| `Utf8.CanonicalIsWritten` | packages/cli/src/managed-bridge-ipc.ts:327-355 | canonical text has no surrogate without its other half, so its UTF-8 reads back unchanged |
| `IpcRoundTrip.RequestArrives` | packages/cli/src/managed-bridge-ipc.ts:272-368 | from value to canonical text to UTF-8 to frame, through any cut, a request arrives as itself with its keys sorted; nothing arrives while part of the frame is missing |
| `IpcRoundTrip.EqualFramesMeanAlike` | packages/cli/src/managed-bridge-ipc.ts:325-332 | two requests have the same frame exactly when they are equal up to key order |
| `IpcCommands.Executors.Load` | packages/cli/src/managed-bridge-ipc.ts:423-440 | an absent journal is claimed next; otherwise conflict, in progress or replay, as the journal says |
| `IpcCommands.Executors.Claim` | packages/cli/src/managed-bridge-ipc.ts:442-454 | the claim is taken only over an absent journal; a loser loads again |
| `IpcCommands.Executors.Effect` | packages/cli/src/managed-bridge-ipc.ts:456-484 | the effect runs, and its receipt is accepted or refused |
| `IpcCommands.Executors.Complete` | packages/cli/src/managed-bridge-ipc.ts:485-498 | the result is persisted over the claim, and always is |
| `IpcCommands.Executors.Execute` | packages/cli/src/managed-bridge-ipc.ts:418-503 | an executor left alone: an unused command is applied once, a completed one answered with its receipt, anything else refused with no effect |
| `IpcCommands.Executors.Advance` | packages/cli/src/managed-bridge-ipc.ts:418-503 | one step of one executor keeps all of this, moves journals only from absent to claimed to completed, and never disturbs another executor |
| `IpcCommands.Executors.Step` | packages/cli/src/managed-bridge-ipc.ts:418-503 | whoever steps, store, executors and effects become what the protocol says of that step |
| `IpcCommands.StepFacts` | packages/cli/src/managed-bridge-ipc.ts:418-503 | no step of an executor moves another, touches an abandoned claim or runs its effect, or lets in an executor that is locked out |
| `IpcCommands.Executors.Run` | packages/cli/src/managed-bridge-ipc.ts:418-503 | any schedule of submissions, steps, crashes and lost leases comes to what its steps come to, in order; the effect runs at most once per command, and finding: a claim whose claimer died is never taken up again, and everybody who comes with its command later is refused, for the claim or for the lease, or dies |
| `IpcCommands.Executors.SameResult` | packages/cli/src/managed-bridge-ipc.ts:630-644 | whoever reports a command done reports the same receipt for the same request hash |
| `IpcCommands.CrashedClaim` | packages/cli/src/managed-bridge-ipc.ts:442-457 | an executor that dies between claim and effect leaves the claim |
| `IpcCommands.AcceptedExactly` | packages/cli/src/managed-bridge-ipc.ts:456-484 | a receipt is accepted for its subject, not before its request, and with the status the command asks for |
| `IpcCommands.LockedOut` | packages/cli/src/managed-bridge-ipc.ts:434-439 | finding: from such a state on, under any schedule, the effect never runs and every later request for that command that is answered at all is refused; a retry of the same request is answered IN_PROGRESS |
| `IpcSubjects.ProgressIsPreorder` | packages/cli/src/managed-bridge-ipc.ts:825-845 | subjects progress reflexively and transitively |
| `IpcSubjects.OneRunningPeriod` | packages/cli/src/managed-bridge-ipc.ts:507-628 | within one RUNNING period of a key, run, lineage and build stay fixed, incarnation, sequence and fuse never fall, and equal incarnations have equal sessions |
| `IpcSubjects.DecidedExactly` | packages/cli/src/managed-bridge-ipc.ts:516-628 | a start is refused only while another subject runs, a stop only of another subject than the last, a move unless the running subject progresses; what is so already is left, and what is written is the next revision |
| `IpcSubjects.Registry.Perform` | packages/cli/src/managed-bridge-ipc.ts:516-628 | with any rivals a returned record is one of the history and is what was asked for; alone, the operation keeps, refuses or writes exactly what the record calls for |
| `AuthorityCache.EpochSince` | packages/claude-channel/src/channel.ts:1210-1262 | the global epoch has risen since a fetch exactly when a gap, a compaction, a clearing or a global invalidation came between |
| `AuthorityCache.IndexSince` | packages/claude-channel/src/channel.ts:1210-1232 | with no wipe since, the index holds a later generation for exactly the ids invalidated since |
| `AuthorityCache.VerdictIsExact` | packages/claude-channel/src/channel.ts:1264-1277 | the bounded index says invalidated exactly when the unbounded log holds an invalidation of the candidate since its fetch began, or the channel has lost track |
| `AuthorityCache.CutOut` | packages/claude-channel/src/channel.ts:1183-1208 | an entry that goes is cut out, and the others stay in their places |
| `AuthorityCache.RememberedExactly` | packages/claude-channel/src/channel.ts:1183-1198 | a delivery is put last; an older one of the same message goes or, in a full cache, the oldest one, and nothing else |
| `AuthorityCache.Channel.WasInvalidated` | packages/claude-channel/src/channel.ts:1264-1277 | computes that verdict from the counters and the two maps |
| `AuthorityCache.Channel.RememberTerminal` | packages/claude-channel/src/channel.ts:1201-1208 | a terminal message is in no cache |
| `AuthorityCache.Channel.RememberSafe` | packages/claude-channel/src/channel.ts:1183-1190 | caches the delivery, drops it from the other cache, and adds nothing else |
| `AuthorityCache.Channel.RememberRecovered` | packages/claude-channel/src/channel.ts:1192-1199 | the same for a recovered lifecycle delivery |
| `AuthorityCache.Channel.FinishSurface` | packages/claude-channel/src/channel.ts:908-921 | a delivery is cached exactly when nothing since its fetch began speaks against it, and is terminal otherwise |
| `AuthorityCache.Channel.FinishRecovery` | packages/claude-channel/src/channel.ts:984-1022 | the same at the end of a recovery; a lineage handoff only with authority |
| `AuthorityCache.Channel.Cached` | packages/claude-channel/src/channel.ts:770-782 | what a caller gets from the cache has not been invalidated since it was fetched |
| `AuthorityCache.Channel.PurgeSafe` | packages/claude-channel/src/channel.ts:1230-1236 | removes exactly the deliveries the event hits |
| `AuthorityCache.Channel.PurgeRecovered` | packages/claude-channel/src/channel.ts:1237-1244 | removes exactly the recovered deliveries the event hits |
| `AuthorityCache.Channel.OnTransportGap` | packages/claude-channel/src/channel.ts:1246-1252 | keeps exactly the ordinary deliveries |
| `AuthorityCache.Channel.Compact` | packages/claude-channel/src/channel.ts:1254-1262 | empties the index, and keeps exactly the ordinary deliveries |
| `AuthorityCache.Channel.NoteEvent` | packages/claude-channel/src/channel.ts:1215-1228 | the index is compacted exactly when it would exceed its limit |
| `AuthorityCache.Channel.Clear` | packages/claude-channel/src/channel.ts:1279-1289 | empties all caches |
| `AuthorityCache.Channel.OnEvent` | packages/claude-channel/src/channel.ts:1210-1244 | logs the invalidation; above the limit of the index it compacts, which leaves exactly the ordinary deliveries, and otherwise it leaves exactly what the event does not hit |
| `CutoverGate.Gate.AcquireActivity` | packages/claude-channel/src/channel.ts:247-257 | an activity is inside at once exactly when no cutover is inside or waiting, and otherwise last in its queue |
| `CutoverGate.Gate.AcquireCutover` | packages/claude-channel/src/channel.ts:259-270 | a cutover is inside at once exactly when nobody is, and otherwise last in its queue |
| `CutoverGate.Gate.ReleaseActivity` | packages/claude-channel/src/channel.ts:272-275 | the last activity to leave lets the next in; any other leaves everything as it was |
| `CutoverGate.Gate.ReleaseCutover` | packages/claude-channel/src/channel.ts:277-280 | a cutover that leaves lets the next in |
| `CutoverGate.Gate.Advance` | packages/claude-channel/src/channel.ts:282-290 | the first waiting cutover goes in, and if there is none every waiting activity |
| `CutoverGate.Gate.Release` | packages/claude-channel/src/channel.ts:230-246 | whoever leaves, order and counts are kept |
| `CutoverGate.Gate.Drain` | packages/claude-channel/src/channel.ts:219-291 | however those inside leave, everyone who arrived is admitted, once |
| `CutoverGate.CutoverRunsAlone` | packages/claude-channel/src/channel.ts:219-291 | never two cutovers, never a cutover with an activity |
| `CutoverGate.NoActivityOvertakes` | packages/claude-channel/src/channel.ts:247-257 | an activity inside arrived before every cutover that waits |
| `CutoverGate.FirstComeFirstServed` | packages/claude-channel/src/channel.ts:219-291 | cutovers among themselves, and activities among themselves, are admitted in the order they came |
| `CutoverGate.NobodyWaitsForNobody` | packages/claude-channel/src/channel.ts:282-290 | with nobody inside both queues are empty |
| `EventPump.Pump.Enqueue` | packages/claude-channel/src/ordered-event-pump.ts:114-128 | a frame waits last, unless the pump has stopped or the limit is reached |
| `EventPump.Pump.ProcessEvent` | packages/claude-channel/src/ordered-event-pump.ts:213-227 | succeeds exactly when the handler reports processed or suppressed, the commit is confirmed and the pump is not stopped before, between or after; only then does the cursor move, by one; the trace grows by exactly what handler and commit did |
| `EventPump.Pump.ProcessPage` | packages/claude-channel/src/ordered-event-pump.ts:193-209 | events of a page in order, as far as the target; it fails on an event that is not acceptable or on a gap, and otherwise uses the page up |
| `EventPump.Pump.CatchUpTo` | packages/claude-channel/src/ordered-event-pump.ts:180-211 | terminates, and ends at its target or, having failed, short of it; undisturbed with an honest server it succeeds |
| `EventPump.Pump.ProcessFrame` | packages/claude-channel/src/ordered-event-pump.ts:144-178 | success means the frame's sequence is reached; a live frame that fails leaves its event ahead of the cursor; undisturbed it succeeds exactly for a sensible frame |
| `EventPump.Pump.Announce` | packages/claude-channel/src/ordered-event-pump.ts:146-163 | a high-water mark is caught up to; undisturbed exactly if it is a safe non-negative integer |
| `EventPump.Pump.Next` | packages/claude-channel/src/ordered-event-pump.ts:119-127 | the frames behind a failed one keep their places, and its event stays ahead of the cursor |
| `EventPump.Pump.Fetch` | packages/claude-channel/src/ordered-event-pump.ts:183-188 | the page is the server's answer of this turn, and its events have come in |
| `EventPump.Pump.Handle` | packages/claude-channel/src/ordered-event-pump.ts:213-223 | an event that came in is next for the handler, and counts as handled exactly if its turn reports an outcome |
| `EventPump.Pump.Commit` | packages/claude-channel/src/ordered-event-pump.ts:224-225 | right after the event was handled, and possibly effective though reported as failed |
| `EventPump.Pump.Redeliver` | packages/claude-channel/src/ordered-event-pump.ts:119-127 | however often its delivery fails, an event delivered again until it is through is reached, unless the pump is stopped; all deliveries but the last failed |
| `EventPump.CursorIsEarned` | packages/claude-channel/src/ordered-event-pump.ts:213-227 | each number the cursor has passed belongs to an acceptable event that was received or fetched, was then handled in a turn that reported an outcome, and was committed right after |
| `EventPump.NothingIsMadeUp` | packages/claude-channel/src/ordered-event-pump.ts:213-239 | nothing is committed but what has just been handled, and nothing is handled but an event of the project that has come in |
| `EventPump.NothingIsSkipped` | packages/claude-channel/src/ordered-event-pump.ts:180-227 | what is handled and committed never goes back, and never gets more than one ahead of the cursor |
| `TicketVault.AliveHoldsToken` | packages/claude-channel/src/session-ticket-runtime.ts:162-185 | a vault the runtime can go on from satisfies the schema's relations and holds the raw token of the Hub's active bundle |
| `TicketVault.Runtime.Persist` | packages/claude-channel/src/session-ticket-runtime.ts:212-248 | a save replaces the whole vault or leaves the old one; after a failure memory may be ahead of the disk |
| `TicketVault.Runtime.HubOffer` | packages/claude-channel/src/session-ticket-runtime.ts:505-538 | an offer is idempotent by its bundle |
| `TicketVault.Runtime.HubRotate` | packages/claude-channel/src/session-ticket-runtime.ts:389-396 | at most one rotation of a pair, always with the same answer |
| `TicketVault.Runtime.Offer` | packages/claude-channel/src/session-ticket-runtime.ts:505-538 | an offered successor is not offered again: neither Hub nor disk changes |
| `TicketVault.Runtime.Attempt` | packages/claude-channel/src/session-ticket-runtime.ts:385-388 | the rotation is asked for only once the attempt is on disk |
| `TicketVault.Runtime.Settle` | packages/claude-channel/src/session-ticket-runtime.ts:397-405 | the checked answer makes the successor ACTIVE |
| `TicketVault.Runtime.Drive` | packages/claude-channel/src/session-ticket-runtime.ts:383-406 | resumes wherever an earlier attempt stopped, with the same two bundles |
| `TicketVault.Runtime.ActivateSuccessor` | packages/claude-channel/src/session-ticket-runtime.ts:350-412 | at every failure or crash the disk is good and holds the active token; a replay keeps the successor and returns the rotation already made; undisturbed it succeeds exactly for the bound session with the external thread of a successor at hand, and for any other it changes nothing |
| `TicketVault.Runtime.CommitSuccessor` | packages/claude-channel/src/session-ticket-runtime.ts:414-428 | the successor becomes current, in memory at once and on disk unless the save fails; refused exactly when it is not the ACTIVE one |
| `TicketVault.Runtime.Renew` | packages/claude-channel/src/channel.ts:2047-2066 | an activation and its commit leave the Hub's active bundle as the only one on disk |
| `TicketVault.Runtime.RestartAndRenew` | packages/claude-channel/src/session-ticket-runtime.ts:350-428 | whatever failures came before, a restart and one undisturbed renewal succeed, unless a renewal was begun under another external thread: with the rotation already made if there is one, and one new rotation if not |
| `TicketVault.DiscardKeepsTokenUnlessRotated` | packages/claude-channel/src/session-ticket-runtime.ts:448-457 | of the method alone: discarding a non-ACTIVE successor of a renewal keeps the active token exactly when the Hub has not yet rotated to it |
| `TicketVault.ReplacingKeepsTokenUnlessUncommitted` | packages/claude-channel/src/session-ticket-runtime.ts:293-301 | finding: prepareInitial for another context keeps the active token exactly when no ACTIVE successor was waiting to be committed |
| `TicketVault.LostRotation` | packages/claude-channel/src/session-ticket-runtime.ts:387-393 | a rotation whose answer is lost, after which such a discard would lose the only valid token |
| `TicketVault.UncommittedActivation` | packages/claude-channel/src/session-ticket-runtime.ts:293-301 | finding: an activation not yet committed, after which prepareInitial for another context overwrites the only valid token |
| `TicketVault.OtherThread` | packages/claude-channel/src/session-ticket-runtime.ts:379-381 | a renewal begun under one external thread is refused under another |
| `TicketRenewal.TargetIsEarly` | packages/claude-channel/src/session-ticket-renewal.ts:119-121 | before it is cut to milliseconds the first renewal is within jitter of its lead, strictly before the safety deadline |
| `TicketRenewal.DeadlineOnHubClock` | packages/claude-channel/src/session-ticket-renewal.ts:261-270 | however far the clocks are apart, the deadline is the margin before the ticket expires on the Hub's, and the first renewal is aimed at the lead before it, spread by the jitter |
| `TicketRenewal.ClocksApart` | packages/claude-channel/src/session-ticket-renewal.ts:117-121 | a clock that is ahead does everything that much later |
| `TicketRenewal.DelaysDouble` | packages/claude-channel/src/session-ticket-renewal.ts:202-217 | each retry waits twice as long as the one before, up to the longest delay, spread and rounded to a millisecond |
| `TicketRenewal.AdoptedExactly` | packages/claude-channel/src/session-ticket-renewal.ts:222-259 | a renewal is adopted exactly if it is a well-formed lease of the same session, under a new id, for longer |
| `TicketRenewal.RetriedExactly` | packages/claude-channel/src/session-ticket-renewal.ts:272-277 | before the deadline exactly a network error, a timeout, a throttle and a server error are tried again |
| `TicketRenewal.FirstRenewalIsBeforeDeadline` | packages/claude-channel/src/session-ticket-renewal.ts:153-157 | the scheduled renewal is strictly before the deadline exactly when the deadline is after 1970 or the cut does not carry it over |
| `TicketRenewal.FractionsBefore1970` | packages/claude-channel/src/session-ticket-renewal.ts:153-157 | a case before 1970 in which the cut carries it over |
| `TicketRenewal.RetryIsBounded` | packages/claude-channel/src/session-ticket-renewal.ts:202-217 | a retry is after now, at least a millisecond later or at the deadline, never past it, and at most a fifth above the longest delay |
| `TicketRenewal.AttemptsRunOut` | packages/claude-channel/src/session-ticket-renewal.ts:202-217 | each retry leaves fewer attempts |
| `TicketRenewal.ChainKeepsBinding` | packages/claude-channel/src/session-ticket-renewal.ts:245-259 | along the chain of leases the session binding is fixed and the expiry rises |
| `TicketRenewal.Renewal.Start` | packages/claude-channel/src/session-ticket-renewal.ts:129-134 | schedules the first renewal once; a stopped owner does not start again |
| `TicketRenewal.Renewal.RenewNow` | packages/claude-channel/src/session-ticket-renewal.ts:159-174 | with an attempt begun and not answered, or stopped or critical, no other begins and nothing changes |
| `TicketRenewal.Renewal.Fire` | packages/claude-channel/src/session-ticket-renewal.ts:279-292 | a timer that fires early is set again for the same instant; on time it begins an attempt, unless one is in flight |
| `TicketRenewal.Renewal.Settle` | packages/claude-channel/src/session-ticket-renewal.ts:176-220 | a successor is adopted and the next renewal scheduled; a failure is retried by the deadline, or is critical exactly when not retryable or past it; an owner that runs always has a timer or an attempt |
| `TicketRenewal.Renewal.Exhaust` | packages/claude-channel/src/session-ticket-renewal.ts:176-220 | renewals that only fail reach CRITICAL after no more attempts than were left, however late timers fire and however long attempts take |
| `LaunchLock.FileSystem.Look` | packages/cli/src/bridge-process-manager.ts:1343-1345 | an acquisition goes on to create the lock only if no mutation file is there |
| `LaunchLock.FileSystem.Create` | packages/cli/src/bridge-process-manager.ts:1346-1350 | the exclusive creation succeeds for one |
| `LaunchLock.FileSystem.Write` | packages/cli/src/bridge-process-manager.ts:1351-1362 | the record, then the heartbeat; without a heartbeat the lock is given up |
| `LaunchLock.FileSystem.Inspect` | packages/cli/src/bridge-process-manager.ts:1376-1401 | only a lock whose owner's process is dead and whose heartbeat is old is reaped; an empty one is refused, unless a mutation is on the way; everybody else waits until the deadline |
| `LaunchLock.FileSystem.Seize` | packages/cli/src/bridge-process-manager.ts:1252-1269 | the mutation file is claimed by one; whoever finds it claimed gives up retiring the lock |
| `LaunchLock.FileSystem.Verify` | packages/cli/src/bridge-process-manager.ts:1271-1272 | the nonce is compared under the claim |
| `LaunchLock.FileSystem.Rename` | packages/cli/src/bridge-process-manager.ts:1277-1285 | only the lock with the expected nonce is ever removed |
| `LaunchLock.FileSystem.Unclaim` | packages/cli/src/bridge-process-manager.ts:1289-1297 | the claim that is removed is one's own |
| `LaunchLock.FileSystem.Release` | packages/cli/src/bridge-process-manager.ts:1405-1410 | a holder retires its own lock |
| `LaunchLock.FileSystem.Advance` | packages/cli/src/bridge-process-manager.ts:1243-1410 | any step of any actor keeps the invariant and moves no other actor |
| `LaunchLock.FileSystem.Step` | packages/cli/src/bridge-process-manager.ts:1243-1410 | whoever steps, the files and the actors become what the protocol says of that step |
| `LaunchLock.FileSystem.StepFacts` | packages/cli/src/bridge-process-manager.ts:1243-1410 | no step removes an orphaned claim, a stranded lock or an empty one, or lets anybody new past an orphaned claim |
| `LaunchLock.FileSystem.OneHolder` | packages/cli/src/bridge-process-manager.ts:1328-1402 | at most one actor of the live processes believes that it holds the lock, and the file names it |
| `LaunchLock.FileSystem.Undisturbed` | packages/cli/src/bridge-process-manager.ts:1243-1299 | whatever another actor does, a holder keeps the lock and the file stays as it is |
| `LaunchLock.FileSystem.AcquireFree` | packages/cli/src/bridge-process-manager.ts:1341-1375 | left alone, an acquisition of a free lock succeeds |
| `LaunchLock.FileSystem.ReapAlone` | packages/cli/src/bridge-process-manager.ts:1390-1395 | left alone, the lock of a dead process is reaped and taken |
| `LaunchLock.FileSystem.ReleaseAlone` | packages/cli/src/bridge-process-manager.ts:1405-1410 | left alone, a release frees the lock and its claim |
| `LaunchLock.FileSystem.ReleaseIsCertain` | packages/cli/src/bridge-process-manager.ts:1271-1277 | once a release has its claim the lock is its own and in place |
| `LaunchLock.FileSystem.ReleaseAmidst` | packages/cli/src/bridge-process-manager.ts:1405-1410 | finding: from its claim on, and amid anything the others do, a release removes its lock exactly if it finds the mutation file free, and otherwise leaves it stranded |
| `LaunchLock.FileSystem.RefusedAsCorrupt` | packages/cli/src/bridge-process-manager.ts:1376-1386 | finding: with a lock whose record was never written, any acquisition left alone is refused, and the lock stays |
| `LaunchLock.FileSystem.VacantIsUnheld` | packages/cli/src/bridge-process-manager.ts:1376-1386 | while the lock is such a one nobody holds it |
| `LaunchLock.FileSystem.Run` | packages/cli/src/bridge-process-manager.ts:1243-1410 | any schedule of starts, steps and deaths comes to what its steps come to, in order, and keeps one holder; findings: once a process dies with its claim on the mutation file no acquisition that has not yet looked at that file ever succeeds, a lock left behind by a living process stays until that process dies, and once a process dies between the creation of its lock and the record the empty lock stays for ever and nobody ever holds it |
| `LaunchLock.OrphanedClaim` | packages/cli/src/bridge-process-manager.ts:1252-1270 | a process dies with its claim on the mutation file |
| `LaunchLock.StrandedLock` | packages/cli/src/bridge-process-manager.ts:1266-1270 | finding: a release that meets the claim of a late reaper leaves its lock behind while its process lives |
| `LaunchLock.VacantLock` | packages/cli/src/bridge-process-manager.ts:1346-1354 | a process dies between the creation of its lock and the record |

## Left out

Credential rotation
- Two coordinators at work on one data directory at the same time, and a journal line torn in its middle: an append happens whole or not at all.
- Restores of the database as a step of every run. A database that has lost a journalled commit is one of the states covered, external recovery from it is modelled, and RotationFindings shows a restore that leads there.
- The contents of credential files beyond the root they hold, permissions, ACLs, symbolic links, directory syncs and sharing-violation retries: a rename, a write or a removal happens or fails.
- How the Hub is stopped and how its stop receipt is validated. The eight slots are any number of slots.
- The database is assumed to check the expected phase in `advance`, `commit` and `abortPrepared`, each of them atomic, and to answer a repeated commit with the receipt on record.

Release manager
- Leases in time: whether a lease is found lost at an await, or goes stale between its renewal and the write, is up to the script; once lost it stays so for that call. Terminal lease proofs are not modelled.
- Shapes of receipts and journals as `is...` functions check them field by field, sensitive-path rules and artifact lists; a malformed answer is an unavailable one.
- `updatedAt`, and the idempotency key as a string: it is the operation, the fingerprint and the phase.
- The in-process maps of running operations, and adapters beyond the one answer they give.

Supervisor
- The map of commands in flight within one process, `lastHealthyAt` and `updatedAt`, and the files behind the store.
- That the active-subject registry holds the journal's identity: it does not have to, since the step from CLOSED to OPEN adopts an observed identity without telling the registry.
- Supervisor.Supervisor.Reconcile: what exactly it does is stated for calls with no rivals; among rivals the contract is the invariant, membership in the history and at most one command of its own, because every act is then one of the steps the history allows.

IPC
- Validation of requests and endpoints, forged authority and secret fields: the parser of a payload is a parameter of the frame reader, and the checks beyond its JSON one of the round trip.
- JSON numbers and strings beyond their text: a number is its text, and code points outside the basic plane are the two units that encode them.
- The lease as a clock: it is lost or kept at an await.

Launch lock
- Heartbeats and ages: whether a heartbeat is old, a deadline has passed or a heartbeat could be written is a choice of the schedule. The renewal timer and the heartbeat files do not change who holds the lock and are not modelled.
- The terminal controller of the same file.

Claude Channel
- Fetching, evaluating and surfacing a message: the authority cache is modelled from the moment a fetch begins to the moment its result is cached or dropped, and `deliveredEvents` and `eventMessages` are left out.
- Promises and event-loop order in the gate and the pump: a waiting party goes in when it is admitted, and frames are processed in the order they were queued.
- prepareInitial and registerInitial, and the discards other than the one of a non-active enrollment: the vault is modelled from a registered session on.
- `observedAt` and `serverNow` of a bundle, and the idempotency key of a rotation: the Hub is assumed to answer a repeated rotation of the same two bundles with the one it made, and to rotate atomically.
- The callbacks of the renewal owner, and the hash that spreads renewals: it is any function into the unit interval.

Not modelled at all: Hub internals and HTTP or WebSocket servers, MCP tools, SQLite scripts, the dashboard, installers and command wiring, worker proofs and other cryptography.
