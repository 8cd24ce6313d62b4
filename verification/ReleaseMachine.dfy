/**
 The step a release manager takes from a journal, given what its adapters answer, and what any
 chain of such steps keeps, whoever takes them.
 */
module ReleaseMachine {
  import opened Common
  import opened ReleaseJournal

  datatype Runtime = StoppedRuntime | UnknownRuntime | Running(identity: Identity, endpoint: Endpoint,
    maintenance: bool)

  /** installed is None when the installed release is unknown. */
  datatype Observation = Observation(at: nat, installed: Option<Identity>, runtime: Runtime)

  /** What an adapter call comes to; Unavailable is a call that failed or whose result is malformed. */
  datatype Answer =
    | Unavailable | Ambiguous | Rejected
    | Probed(probe: Probe)
    | Snapshotted(snapshot: Snapshot, database: DatabaseReceipt)
    | Entered(maintenance: Maintenance)
    | Paused(pause: Pause)
    | HubStopped(stop: Stop)
    | FinallySnapshotted(final: Snapshot, finalDatabase: DatabaseReceipt, security: Security)
    | DidSwap(swap: Swap)
    | Started(start: Start)
    | Healthy(health: Health)
    | Migrated(migration: Migration)
    | Resumed(resume: Resume)
    | DidCommit(commit: Commit)
    | CandidateDown
    | Restored(restore: Restore)
    | Cleaned(cleanup: Cleanup)

  /** The observation, where the phase asks for one, and the answer of its adapter call. */
  datatype Input = Input(observation: Option<Observation>, answer: Answer)

  /** The patch of a transition: the next phase, and the group of receipts it replaces. */
  datatype Patch =
    | Move(phase: Phase)
    | InOpening(phase: Phase, opening: Opening)
    | InQuiet(phase: Phase, quiet: Quiet)
    | InTrial(phase: Phase, trial: Trial)
    | InRollback(phase: Phase, rollback: Rollback)
    | InFailure(phase: Phase, failure: Failure)

  /** Go: write and carry on. End: write and report. Recover: report without writing. */
  datatype Action = Go(patch: Patch) | End(patch: Patch) | Recover(code: Code) | Corrupt | Report

  /** The adapter may or may not have acted. */
  predicate Unsettled(answer: Answer) { answer.Unavailable? || answer.Ambiguous? }

  predicate Known(o: Option<Observation>) {
    o.Some? && o.value.installed.Some? && o.value.runtime != UnknownRuntime
  }

  predicate InstalledIs(o: Option<Observation>, identity: Identity) { o.Some? && o.value.installed == Some(identity) }

  predicate RunningIs(o: Option<Observation>, identity: Identity, maintenance: bool) {
    o.Some? && o.value.runtime.Running? && o.value.runtime.identity == identity &&
      o.value.runtime.maintenance == maintenance
  }

  predicate IsStopped(o: Option<Observation>) { o.Some? && o.value.runtime == StoppedRuntime }

  function Block(j: Journal, code: Code): Action {
    End(InFailure(Blocked, j.failure.(terminalCode := Some(code), failedAt := Some(j.phase))))
  }

  function FailRollback(j: Journal, code: Code): Action {
    End(InFailure(RollbackFailed, j.failure.(terminalCode := Some(code), failedAt := Some(j.phase))))
  }

  function BeginRollback(j: Journal, cause: Code): Action {
    Go(InFailure(ROLLBACK_STOP_CANDIDATE_INTENT, j.failure.(rollbackCause := Some(cause))))
  }

  function BeginCleanup(j: Journal, cause: Code): Action {
    Go(InFailure(CLEANUP_INTENT, j.failure.(cleanupCause := Some(cause), cleanupFailedAt := Some(j.phase))))
  }

  /** createTransitionAuthorization. */
  function Authorize(j: Journal, target: Target): Option<Authorization> {
    var pointer := if target == Candidate then SwapPointer(j) else RestorePointer(j);
    if j.quiet.pause.None? || pointer.None? || pointer.value == 0 then None
    else Some(Authorization(
      j.operationId, j.fingerprint, target, j.revision, pointer.value, j.quiet.pause.value.supervisorRevision,
        j.quiet.pause.value,
      j.fingerprint.current, j.fingerprint.candidate, j.Expected(target)))
  }

  // ---------------------------------------------------------------------------
  // Steps
  // ---------------------------------------------------------------------------

  /** Up to the entry into maintenance. */
  function StepOpening(j: Journal, input: Input): Action
    requires IsNormal(j.phase) && j.phase.index < MAINTENANCE_ENTERED.index
  {
    var answer := input.answer;
    var p := j.phase;
    if p == CANDIDATE_PROBE_INTENT then
      if answer.Rejected? then Block(j, ProbeFailed)
      else if Unsettled(answer) then Recover(ProbeFailed)
      else if !answer.Probed? || answer.probe.candidateId != j.fingerprint.candidateId ||
        answer.probe.identity != j.fingerprint.candidate
      then Block(j, CandidateMismatch)
      else Go(InOpening(CANDIDATE_VALIDATED, j.opening.(probe := Some(answer.probe))))
    else if p == CANDIDATE_VALIDATED then Go(Move(PREFLIGHT_SNAPSHOT_INTENT))
    else if p == PREFLIGHT_SNAPSHOT_INTENT then
      if answer.Rejected? then Block(j, PreflightFailed)
      else if Unsettled(answer) then Recover(PreflightFailed)
      else if !answer.Snapshotted? || answer.snapshot.source != j.fingerprint.current ||
        answer.database.backup != answer.snapshot.artifact
      then Block(j, PreflightManifestInvalid)
      else Go(InOpening(PREFLIGHT_SNAPSHOT_READY,
        j.opening.(preflight := Some(answer.snapshot), preflightDatabase := Some(answer.database))))
    else if p == PREFLIGHT_SNAPSHOT_READY then Go(Move(CURRENT_REVALIDATE_INTENT))
    else if p == CURRENT_REVALIDATE_INTENT then
      var o := input.observation;
      if !Known(o) then Recover(CurrentObservationFailed)
      else if !InstalledIs(o, j.fingerprint.current) || !RunningIs(o, j.fingerprint.current, false)
      then Block(j, CurrentChanged)
      else Go(InOpening(CURRENT_REVALIDATED,
        j.opening.(observed := Some(Current(j.fingerprint.current, o.value.runtime.endpoint, o.value.at)))))
    else if p == CURRENT_REVALIDATED then Go(Move(ENTER_MAINTENANCE_INTENT))
    else
      if j.opening.observed.None? then Corrupt
      else if answer.Rejected? then Block(j, MaintenanceEnterFailed)
      else if !answer.Entered? then Recover(MaintenanceEnterAmbiguous)
      else if answer.maintenance.source != j.fingerprint.current
              || answer.maintenance.runtimeId != j.opening.observed.value.endpoint.runtimeId
              || answer.maintenance.hubInstanceId != j.opening.observed.value.endpoint.hubInstanceId
      then Recover(MaintenanceEnterAmbiguous)
      else Go(InQuiet(MAINTENANCE_ENTERED, j.quiet.(maintenance := Some(answer.maintenance))))
  }

  /** In maintenance, with the current release still installed. */
  function StepQuiescing(j: Journal, input: Input): Action
    requires IsNormal(j.phase) && MAINTENANCE_ENTERED.index <= j.phase.index < SWAPPED.index
  {
    var answer := input.answer;
    var p := j.phase;
    if p == MAINTENANCE_ENTERED then Go(Move(PAUSE_SUPERVISORS_INTENT))
    else if p == PAUSE_SUPERVISORS_INTENT then
      if j.quiet.maintenance.None? then Corrupt
      else if answer.Rejected? then BeginCleanup(j, PauseFailed)
      else if !answer.Paused? || !PauseWellFormed(answer.pause) then Recover(PauseAmbiguous)
      else if answer.pause.operationId != j.operationId || answer.pause.maintenanceId != j.quiet.maintenance.value.id
              || answer.pause.fence != j.quiet.maintenance.value.fence || answer.pause.atomicRevision != j.revision
      then Recover(PauseAmbiguous)
      else Go(InQuiet(SUPERVISORS_PAUSED, j.quiet.(pause := Some(answer.pause))))
    else if p == SUPERVISORS_PAUSED then Go(Move(STOP_INTENT))
    else if p == STOP_INTENT then
      if j.quiet.maintenance.None? || j.opening.observed.None? then Corrupt
      else if answer.Rejected? then BeginCleanup(j, StopFailed)
      else if !answer.HubStopped? then Recover(StopAmbiguous)
      else if answer.stop.maintenanceId != j.quiet.maintenance.value.id ||
        answer.stop.fence != j.quiet.maintenance.value.fence
              || answer.stop.source != j.fingerprint.current
              || answer.stop.runtimeId != j.opening.observed.value.endpoint.runtimeId
              || answer.stop.hubInstanceId != j.opening.observed.value.endpoint.hubInstanceId
      then Recover(StopAmbiguous)
      else Go(InQuiet(STOP_RECEIPT_CONFIRMED, j.quiet.(stop := Some(answer.stop))))
    else if p == STOP_RECEIPT_CONFIRMED then
      if !Known(input.observation) then Recover(StopAmbiguous)
      else if !InstalledIs(input.observation, j.fingerprint.current) || !IsStopped(input.observation)
      then Block(j, StopFailed)
      else Go(Move(STOPPED))
    else if p == STOPPED then Go(Move(FINAL_SNAPSHOT_INTENT))
    else if p == FINAL_SNAPSHOT_INTENT then
      if j.quiet.maintenance.None? || j.quiet.stop.None? then Corrupt
      else if answer.Rejected? then BeginCleanup(j, FinalSnapshotFailed)
      else if Unsettled(answer) then Recover(FinalSnapshotFailed)
      else if !answer.FinallySnapshotted? || answer.final.source != j.fingerprint.current ||
        answer.finalDatabase.backup != answer.final.artifact
              || answer.security.snapshotId != answer.final.id
              || answer.final.proof != Some(Quiescence(j.quiet.maintenance.value.fence, j.quiet.stop.value.id,
                j.quiet.stop.value.stoppedAt))
      then Block(j, FinalSnapshotManifestInvalid)
      else Go(InQuiet(FINAL_SNAPSHOT_READY,
        j.quiet.(final := Some(answer.final), finalDatabase := Some(answer.finalDatabase),
                 finalSecurity := Some(answer.security))))
    else if p == FINAL_SNAPSHOT_READY then Go(Move(SWAP_INTENT))
    else
      if j.quiet.final.None? || j.quiet.pause.None? then Corrupt
      else if answer.Rejected? then BeginCleanup(j, SwapFailed)
      else if !answer.DidSwap? || !SwapWellFormed(answer.swap) then Recover(SwapAmbiguous)
      else if answer.swap.operationId != j.operationId || answer.swap.previousPointer != j.quiet.pause.value.pointer
              || answer.swap.source != j.fingerprint.current || answer.swap.candidate != j.fingerprint.candidate
              || answer.swap.installed != j.fingerprint.candidate
      then Recover(SwapAmbiguous)
      else Go(InQuiet(SWAPPED, j.quiet.(swap := Some(answer.swap))))
  }

  predicate HealthAccepted(j: Journal, health: Health, start: Start, target: Target) {
    && j.quiet.maintenance.Some? && health.maintenanceId == j.quiet.maintenance.value.id
    && health.target == target && health.identity == j.Expected(target) && health.endpoint == start.endpoint
  }

  predicate ResumeAccepted(j: Journal, resume: Resume, authorization: Authorization, target: Target) {
    && j.quiet.maintenance.Some? && resume.maintenanceId == j.quiet.maintenance.value.id
    && resume.target == target && EffectsMatch(j, resume, authorization)
  }

  predicate CommitAccepted(j: Journal, commit: Commit, authorization: Authorization, target: Target) {
    && j.quiet.maintenance.Some? && commit.maintenanceId == j.quiet.maintenance.value.id
    && commit.target == target && commit.identity == j.Expected(target)
    && commit.atomicRevision == j.revision && commit.pointer == authorization.pointer + 1
  }

  /** With the candidate installed, up to the commit. */
  function StepCandidate(j: Journal, input: Input): Action
    requires IsNormal(j.phase) && SWAPPED.index <= j.phase.index < COMPLETED.index
  {
    var answer := input.answer;
    var p := j.phase;
    if p == SWAPPED then
      if !Known(input.observation) || !InstalledIs(input.observation, j.fingerprint.candidate) ||
        !IsStopped(input.observation)
      then Recover(SwapAmbiguous)
      else Go(Move(START_CANDIDATE_INTENT))
    else if p == START_CANDIDATE_INTENT then
      if j.quiet.maintenance.None? then Corrupt
      else if answer.Rejected? then BeginRollback(j, CandidateStartFailed)
      else if !answer.Started? || answer.start.maintenanceId != j.quiet.maintenance.value.id
              || answer.start.identity != j.fingerprint.candidate
      then Recover(CandidateStartAmbiguous)
      else Go(InTrial(CANDIDATE_STARTED, j.trial.(start := Some(answer.start))))
    else if p == CANDIDATE_STARTED then Go(Move(VERIFY_CANDIDATE_INTENT))
    else if p == VERIFY_CANDIDATE_INTENT then
      if j.quiet.maintenance.None? || j.trial.start.None? then Corrupt
      else if answer.Rejected? then BeginRollback(j, CandidateHealthFailed)
      else if !answer.Healthy? || !HealthAccepted(j, answer.health, j.trial.start.value, Candidate)
      then Recover(CandidateHealthFailed)
      else Go(InTrial(CANDIDATE_HEALTHY, j.trial.(health := Some(answer.health))))
    else if p == CANDIDATE_HEALTHY then Go(Move(MIGRATE_CANDIDATE_INTENT))
    else if p == MIGRATE_CANDIDATE_INTENT then
      if j.quiet.maintenance.None? then Corrupt
      else if answer.Rejected? then BeginRollback(j, MigrationFailed)
      else if !answer.Migrated? || answer.migration.maintenanceId != j.quiet.maintenance.value.id
              || answer.migration.identity != j.fingerprint.candidate
              || answer.migration.migration != j.fingerprint.candidate.migration
      then Recover(MigrationAmbiguous)
      else Go(InTrial(CANDIDATE_MIGRATED, j.trial.(migration := Some(answer.migration))))
    else if p == CANDIDATE_MIGRATED then Go(Move(AUTHORIZE_BRIDGES_INTENT))
    else if p == AUTHORIZE_BRIDGES_INTENT then
      var authorization := Authorize(j, Candidate);
      if authorization.None? then Corrupt
      else Go(InTrial(BRIDGES_AUTHORIZED, j.trial.(authorization := authorization)))
    else if p == BRIDGES_AUTHORIZED then Go(Move(RESUME_BRIDGES_INTENT))
    else if p == RESUME_BRIDGES_INTENT then
      if j.quiet.maintenance.None? || j.trial.authorization.None? then Corrupt
      else if answer.Rejected? then BeginRollback(j, ResumeFailed)
      else if !answer.Resumed? || !ResumeAccepted(j, answer.resume, j.trial.authorization.value, Candidate)
      then Recover(ResumeAmbiguous)
      else Go(InTrial(BRIDGES_RESUMED, j.trial.(resume := Some(answer.resume))))
    else if p == BRIDGES_RESUMED then Go(Move(COMMIT_MAINTENANCE_INTENT))
    else if p == COMMIT_MAINTENANCE_INTENT then
      if j.quiet.maintenance.None? || j.trial.authorization.None? then Corrupt
      else if answer.Rejected? then BeginRollback(j, CommitFailed)
      else if !answer.DidCommit? || !CommitAccepted(j, answer.commit, j.trial.authorization.value, Candidate)
      then Recover(CommitAmbiguous)
      else Go(InTrial(MAINTENANCE_COMMITTED, j.trial.(commit := Some(answer.commit))))
    else Go(Move(COMPLETED))
  }

  /** Back to the previous release. */
  function StepRollback(j: Journal, input: Input): Action
    requires IsRollback(j.phase) && j.phase != ROLLED_BACK
  {
    var answer := input.answer;
    var p := j.phase;
    if p == ROLLBACK_STOP_CANDIDATE_INTENT then
      if j.quiet.maintenance.None? then Corrupt
      else if answer.Rejected? then FailRollback(j, RollbackStopFailed)
      else if !answer.CandidateDown? then Recover(RollbackStopAmbiguous)
      else Go(Move(ROLLBACK_RESTORE_INTENT))
    else if p == ROLLBACK_RESTORE_INTENT then
      if !Known(input.observation) || !IsStopped(input.observation)
         || (!InstalledIs(input.observation, j.fingerprint.candidate) &&
           !InstalledIs(input.observation, j.fingerprint.current))
      then Recover(RollbackRestoreAmbiguous)
      else if j.quiet.maintenance.None? || j.quiet.final.None? || j.quiet.finalDatabase.None? ||
        j.quiet.finalSecurity.None? || j.quiet.swap.None?
      then Corrupt
      else if answer.Rejected? then FailRollback(j, ReleaseJournal.RollbackRestoreFailed)
      else if !answer.Restored? || !RestoreAccepted(j, answer.restore) then Recover(RollbackRestoreAmbiguous)
      else Go(InRollback(ROLLBACK_START_PREVIOUS_INTENT, j.rollback.(restore := Some(answer.restore))))
    else if p == ROLLBACK_START_PREVIOUS_INTENT then
      if !Known(input.observation) || !InstalledIs(input.observation, j.fingerprint.current)
         || (!IsStopped(input.observation) && !RunningIs(input.observation, j.fingerprint.current, true))
      then Recover(RollbackStartAmbiguous)
      else if j.quiet.maintenance.None? || j.quiet.final.None? then Corrupt
      else if answer.Rejected? then FailRollback(j, RollbackStartFailed)
      else if !answer.Started? || answer.start.maintenanceId != j.quiet.maintenance.value.id
              || answer.start.identity != j.fingerprint.current
      then Recover(RollbackStartAmbiguous)
      else Go(InRollback(ROLLBACK_PREVIOUS_STARTED, j.rollback.(start := Some(answer.start))))
    else if p == ROLLBACK_PREVIOUS_STARTED then Go(Move(ROLLBACK_VERIFY_PREVIOUS_INTENT))
    else if p == ROLLBACK_VERIFY_PREVIOUS_INTENT then
      if j.quiet.maintenance.None? || j.rollback.start.None? then Corrupt
      else if answer.Rejected? then FailRollback(j, RollbackHealthFailed)
      else if !answer.Healthy? || !HealthAccepted(j, answer.health, j.rollback.start.value, Previous)
      then Recover(RollbackHealthAmbiguous)
      else Go(InRollback(ROLLBACK_PREVIOUS_HEALTHY, j.rollback.(health := Some(answer.health))))
    else if p == ROLLBACK_PREVIOUS_HEALTHY then Go(Move(ROLLBACK_AUTHORIZE_BRIDGES_INTENT))
    else if p == ROLLBACK_AUTHORIZE_BRIDGES_INTENT then
      var authorization := Authorize(j, Previous);
      if authorization.None? then Corrupt
      else Go(InRollback(ROLLBACK_BRIDGES_AUTHORIZED, j.rollback.(authorization := authorization)))
    else if p == ROLLBACK_BRIDGES_AUTHORIZED then Go(Move(ROLLBACK_RESUME_BRIDGES_INTENT))
    else if p == ROLLBACK_RESUME_BRIDGES_INTENT then
      if j.quiet.maintenance.None? || j.rollback.authorization.None? then Corrupt
      else if answer.Rejected? then FailRollback(j, RollbackResumeFailed)
      else if !answer.Resumed? || !ResumeAccepted(j, answer.resume, j.rollback.authorization.value, Previous)
      then Recover(RollbackResumeAmbiguous)
      else Go(InRollback(ROLLBACK_BRIDGES_RESUMED, j.rollback.(resume := Some(answer.resume))))
    else if p == ROLLBACK_BRIDGES_RESUMED then Go(Move(ROLLBACK_COMMIT_MAINTENANCE_INTENT))
    else if p == ROLLBACK_COMMIT_MAINTENANCE_INTENT then
      if j.quiet.maintenance.None? || j.rollback.authorization.None? then Corrupt
      else if answer.Rejected? then FailRollback(j, RollbackCommitFailed)
      else if !answer.DidCommit? || !CommitAccepted(j, answer.commit, j.rollback.authorization.value, Previous)
      then Recover(RollbackCommitAmbiguous)
      else Go(InRollback(ROLLBACK_MAINTENANCE_COMMITTED, j.rollback.(commit := Some(answer.commit))))
    else Go(Move(ROLLED_BACK))
  }

  predicate RestoreAccepted(j: Journal, r: Restore)
    requires j.quiet.final.Some? && j.quiet.finalSecurity.Some? && j.quiet.swap.Some?
  {
    && RestoreWellFormed(r)
    && r.operationId == j.operationId
    && r.snapshotId == j.quiet.final.value.id
    && r.previousPointer == j.quiet.swap.value.pointer
    && r.identity == j.fingerprint.current
    && r.snapshotEpoch == j.quiet.finalSecurity.value.epoch
    && r.events >= j.quiet.finalSecurity.value.events
  }

  function StepCleanup(j: Journal, input: Input): Action
    requires j.phase == CLEANUP_INTENT || j.phase == CLEANUP_CONFIRMED
  {
    if j.phase == CLEANUP_CONFIRMED then
      if j.failure.cleanupCause.None? || j.failure.cleanupFailedAt.None? then Corrupt
      else Go(InFailure(Blocked,
        j.failure.(terminalCode := j.failure.cleanupCause, failedAt := j.failure.cleanupFailedAt)))
    else
      if j.quiet.maintenance.None? || j.failure.cleanupFailedAt.None? then Corrupt
      else if input.answer.Rejected? then Recover(CleanupFailed)
      else if !input.answer.Cleaned? then Recover(CleanupAmbiguous)
      else
        var c := input.answer.cleanup;
        if c.operationId != j.operationId || c.maintenanceId != j.quiet.maintenance.value.id
           || c.failedPhase != j.failure.cleanupFailedAt.value
           || c.pauseId != (if j.quiet.pause.Some? then Some(j.quiet.pause.value.id) else None)
           || c.pointer != j.quiet.maintenance.value.pointer || c.epoch < j.quiet.maintenance.value.epoch
           || c.source != j.fingerprint.current
        then Recover(CleanupAmbiguous)
        else Go(InFailure(CLEANUP_CONFIRMED, j.failure.(cleanup := Some(c))))
  }

  /** One turn of the loop in execute. */
  function Step(j: Journal, input: Input): Action
    requires IsPhase(j.phase)
  {
    match j.phase
    case Normal(i) =>
      if i == COMPLETED.index then Report
      else if i < MAINTENANCE_ENTERED.index then StepOpening(j, input)
      else if i < SWAPPED.index then StepQuiescing(j, input)
      else StepCandidate(j, input)
    case RollingBack(i) => if i == ROLLED_BACK.index then Report else StepRollback(j, input)
    case Cleaning(_) => StepCleanup(j, input)
    case _ => Report
  }

  function Apply(j: Journal, patch: Patch): Journal {
    match patch
    case Move(phase) => j.(phase := phase)
    case InOpening(phase, opening) => j.(phase := phase, opening := opening)
    case InQuiet(phase, quiet) => j.(phase := phase, quiet := quiet)
    case InTrial(phase, trial) => j.(phase := phase, trial := trial)
    case InRollback(phase, rollback) => j.(phase := phase, rollback := rollback)
    case InFailure(phase, failure) => j.(phase := phase, failure := failure)
  }

  /** transition: None when the journal it would write breaks a relation, and nothing is written. */
  function Transition(j: Journal, patch: Patch): Option<Journal> {
    var next := Apply(j, patch).(revision := j.revision + 1);
    if Valid(next) then Some(next) else None
  }

  /** What the step would write, if it writes at all. */
  function PatchOf(action: Action): Option<Patch> {
    match action
    case Go(patch) => Some(patch)
    case End(patch) => Some(patch)
    case _ => None
  }
}
