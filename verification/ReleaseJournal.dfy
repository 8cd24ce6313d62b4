/**
 The journal of an atomic release: its phases, the receipts it collects, and the
 relations that every accepted journal satisfies.

 A SHA-256 digest of a record is modelled by the record itself, so a digest binds
 what it was taken of. Instants are naturals.
 */
module ReleaseJournal {
  import opened Common

  /** The phases of the normal and the rollback path are numbered as in their lists. */
  datatype Phase = Normal(index: nat) | Cleaning(index: nat) | RollingBack(index: nat) | Blocked | RollbackFailed

  const CANDIDATE_PROBE_INTENT := Normal(0)
  const CANDIDATE_VALIDATED := Normal(1)
  const PREFLIGHT_SNAPSHOT_INTENT := Normal(2)
  const PREFLIGHT_SNAPSHOT_READY := Normal(3)
  const CURRENT_REVALIDATE_INTENT := Normal(4)
  const CURRENT_REVALIDATED := Normal(5)
  const ENTER_MAINTENANCE_INTENT := Normal(6)
  const MAINTENANCE_ENTERED := Normal(7)
  const PAUSE_SUPERVISORS_INTENT := Normal(8)
  const SUPERVISORS_PAUSED := Normal(9)
  const STOP_INTENT := Normal(10)
  const STOP_RECEIPT_CONFIRMED := Normal(11)
  const STOPPED := Normal(12)
  const FINAL_SNAPSHOT_INTENT := Normal(13)
  const FINAL_SNAPSHOT_READY := Normal(14)
  const SWAP_INTENT := Normal(15)
  const SWAPPED := Normal(16)
  const START_CANDIDATE_INTENT := Normal(17)
  const CANDIDATE_STARTED := Normal(18)
  const VERIFY_CANDIDATE_INTENT := Normal(19)
  const CANDIDATE_HEALTHY := Normal(20)
  const MIGRATE_CANDIDATE_INTENT := Normal(21)
  const CANDIDATE_MIGRATED := Normal(22)
  const AUTHORIZE_BRIDGES_INTENT := Normal(23)
  const BRIDGES_AUTHORIZED := Normal(24)
  const RESUME_BRIDGES_INTENT := Normal(25)
  const BRIDGES_RESUMED := Normal(26)
  const COMMIT_MAINTENANCE_INTENT := Normal(27)
  const MAINTENANCE_COMMITTED := Normal(28)
  const COMPLETED := Normal(29)

  const CLEANUP_INTENT := Cleaning(0)
  const CLEANUP_CONFIRMED := Cleaning(1)

  const ROLLBACK_STOP_CANDIDATE_INTENT := RollingBack(0)
  const ROLLBACK_RESTORE_INTENT := RollingBack(1)
  const ROLLBACK_START_PREVIOUS_INTENT := RollingBack(2)
  const ROLLBACK_PREVIOUS_STARTED := RollingBack(3)
  const ROLLBACK_VERIFY_PREVIOUS_INTENT := RollingBack(4)
  const ROLLBACK_PREVIOUS_HEALTHY := RollingBack(5)
  const ROLLBACK_AUTHORIZE_BRIDGES_INTENT := RollingBack(6)
  const ROLLBACK_BRIDGES_AUTHORIZED := RollingBack(7)
  const ROLLBACK_RESUME_BRIDGES_INTENT := RollingBack(8)
  const ROLLBACK_BRIDGES_RESUMED := RollingBack(9)
  const ROLLBACK_COMMIT_MAINTENANCE_INTENT := RollingBack(10)
  const ROLLBACK_MAINTENANCE_COMMITTED := RollingBack(11)
  const ROLLED_BACK := RollingBack(12)

  const PHASES: nat := 47

  predicate IsPhase(phase: Phase) {
    match phase
    case Normal(i) => i < 30
    case Cleaning(i) => i < 2
    case RollingBack(i) => i < 13
    case _ => true
  }

  /**
   Where a phase stands on every path through the machine: the normal path, the cleanup before the
   swap, the rollback after it, and the two failures.
   */
  function Rank(phase: Phase): (r: nat)
    ensures IsPhase(phase) ==> r < PHASES
  {
    match phase
    case Normal(i) => i
    case Cleaning(i) => 30 + i
    case RollingBack(i) => 32 + i
    case Blocked => 45
    case RollbackFailed => 46
  }

  predicate IsNormal(phase: Phase) { phase.Normal? && phase.index < 30 }

  predicate IsRollback(phase: Phase) { phase.RollingBack? && phase.index < 13 }

  predicate IsTerminal(phase: Phase) { phase in {COMPLETED, ROLLED_BACK, Blocked, RollbackFailed} }

  datatype Code =
    | JournalCorrupt | LeaseLost | RequestConflict
    | ProbeFailed | CandidateMismatch | PreflightFailed | PreflightManifestInvalid
    | CurrentObservationFailed | CurrentChanged
    | MaintenanceEnterFailed | MaintenanceEnterAmbiguous
    | PauseFailed | PauseAmbiguous | StopFailed | StopAmbiguous
    | FinalSnapshotFailed | FinalSnapshotManifestInvalid | SwapFailed | SwapAmbiguous
    | CandidateStartFailed | CandidateStartAmbiguous | CandidateHealthFailed
    | MigrationFailed | MigrationAmbiguous | CommitFailed | CommitAmbiguous | ResumeFailed | ResumeAmbiguous
    | RollbackStopFailed | RollbackStopAmbiguous | RollbackRestoreFailed | RollbackRestoreAmbiguous
    | RollbackStartFailed | RollbackStartAmbiguous | RollbackHealthFailed | RollbackHealthAmbiguous
    | RollbackCommitFailed | RollbackCommitAmbiguous | RollbackResumeFailed | RollbackResumeAmbiguous
    | CleanupFailed | CleanupAmbiguous

  predicate RollbackCause(code: Code) {
    code in {CandidateStartFailed, CandidateHealthFailed, MigrationFailed, ResumeFailed, CommitFailed}
  }

  // ---------------------------------------------------------------------------
  // Receipts
  // ---------------------------------------------------------------------------

  datatype Identity = Identity(version: nat, manifest: nat, migration: nat)

  datatype Endpoint = Endpoint(runtimeId: nat, hubInstanceId: nat, address: nat, port: nat)

  datatype Target = Candidate | Previous

  datatype Fingerprint = Fingerprint(candidateId: nat, current: Identity, candidate: Identity)

  datatype Probe = Probe(candidateId: nat, identity: Identity, probedAt: nat)

  datatype Snapshot = Snapshot(id: nat, source: Identity, artifact: nat, createdAt: nat, proof: Option<Quiescence>)

  datatype Quiescence = Quiescence(fence: nat, stopId: nat, observedAt: nat)

  datatype DatabaseReceipt = DatabaseReceipt(backup: nat, databaseIdentity: nat)

  datatype Current = Current(source: Identity, endpoint: Endpoint, observedAt: nat)

  datatype Maintenance = Maintenance(
    id: nat, fence: nat, source: Identity, runtimeId: nat, hubInstanceId: nat, pointer: nat,
    epoch: nat, events: nat, securityAt: nat, enteredAt: nat)

  datatype Subject = Subject(wasRunning: bool, key: nat, build: Identity)

  datatype Pause = Pause(
    operationId: nat, maintenanceId: nat, fence: nat, id: nat, atomicRevision: nat, pointer: nat,
    supervisorRevision: nat, subjects: seq<Subject>, pausedAt: nat)

  datatype Stop = Stop(
    id: nat, maintenanceId: nat, fence: nat, source: Identity, runtimeId: nat, hubInstanceId: nat, stoppedAt: nat)

  datatype Security = Security(snapshotId: nat, epoch: nat, events: nat)

  datatype Swap = Swap(
    operationId: nat, previousPointer: nat, pointer: nat, source: Identity, candidate: Identity, installed: Identity,
    previousArtifact: nat, candidateArtifact: nat, installedArtifact: nat)

  datatype Start = Start(maintenanceId: nat, identity: Identity, endpoint: Endpoint)

  datatype Health = Health(maintenanceId: nat, target: Target, identity: Identity, endpoint: Endpoint)

  datatype Migration = Migration(maintenanceId: nat, identity: Identity, migration: nat)

  datatype Authorization = Authorization(
    operationId: nat, fingerprint: Fingerprint, target: Target, atomicRevision: nat, pointer: nat,
    supervisorRevision: nat, pause: Pause, source: Identity, candidate: Identity, installed: Identity)

  datatype EffectKind = Rebound | RolledBackTo | AlreadyStopped

  datatype Effect = Effect(
    authorization: Authorization, operationId: nat, kind: EffectKind, supervisorRevision: nat,
    subject: Subject, installed: Identity)

  datatype Resume = Resume(maintenanceId: nat, target: Target, authorization: Authorization, effects: seq<Effect>)

  datatype Commit = Commit(maintenanceId: nat, target: Target, identity: Identity, atomicRevision: nat, pointer: nat)

  datatype Restore = Restore(
    operationId: nat, snapshotId: nat, databaseIdentity: nat, previousPointer: nat, pointer: nat, identity: Identity,
    snapshotEpoch: nat, observedEpoch: nat, epoch: nat, events: nat)

  datatype Cleanup = Cleanup(
    operationId: nat, maintenanceId: nat, failedPhase: Phase, source: Identity, pauseId: Option<nat>, pointer: nat,
      epoch: nat)

  datatype Opening = Opening(
    probe: Option<Probe>, preflight: Option<Snapshot>, preflightDatabase: Option<DatabaseReceipt>,
      observed: Option<Current>)

  datatype Quiet = Quiet(
    maintenance: Option<Maintenance>, pause: Option<Pause>, stop: Option<Stop>, final: Option<Snapshot>,
    finalDatabase: Option<DatabaseReceipt>, finalSecurity: Option<Security>, swap: Option<Swap>)

  datatype Trial = Trial(
    start: Option<Start>, health: Option<Health>, migration: Option<Migration>,
    authorization: Option<Authorization>, resume: Option<Resume>, commit: Option<Commit>)

  datatype Rollback = Rollback(
    restore: Option<Restore>, start: Option<Start>, health: Option<Health>,
    authorization: Option<Authorization>, resume: Option<Resume>, commit: Option<Commit>)

  datatype Failure = Failure(
    cleanup: Option<Cleanup>, cleanupCause: Option<Code>, cleanupFailedAt: Option<Phase>,
    rollbackCause: Option<Code>, terminalCode: Option<Code>, failedAt: Option<Phase>)

  /** The receipts are grouped by the stage that collects them. */
  datatype Journal = Journal(
    operationId: nat, fingerprint: Fingerprint, revision: nat, phase: Phase,
    opening: Opening, quiet: Quiet, trial: Trial, rollback: Rollback, failure: Failure)
  {
    function Expected(target: Target): Identity {
      if target == Candidate then fingerprint.candidate else fingerprint.current
    }
  }

  // ---------------------------------------------------------------------------
  // Relations between receipts
  // ---------------------------------------------------------------------------

  predicate EffectsMatch(j: Journal, receipt: Resume, authorization: Authorization) {
    && j.quiet.pause.Some?
    && |receipt.effects| == |j.quiet.pause.value.subjects|
    && receipt.authorization == authorization
    && forall i :: 0 <= i < |receipt.effects| ==>
         EffectMatches(j, receipt.effects[i], j.quiet.pause.value.subjects[i], i, authorization)
  }

  /** The one effect a release may have on a paused subject, and the supervisor revision it takes. */
  predicate EffectMatches(j: Journal, effect: Effect, paused: Subject, index: nat, authorization: Authorization) {
    && effect.authorization == authorization
    && effect.operationId == j.operationId
    && effect.kind == (if !paused.wasRunning then AlreadyStopped
                       else if authorization.target == Candidate then Rebound else RolledBackTo)
    && effect.supervisorRevision == authorization.supervisorRevision + index + 1
    && effect.subject == paused
    && effect.installed == j.Expected(authorization.target)
  }

  predicate SourceRelated(j: Journal) {
    && (j.opening.probe.Some? ==>
          j.opening.probe.value.candidateId == j.fingerprint.candidateId &&
            j.opening.probe.value.identity == j.fingerprint.candidate)
    && j.opening.preflight.Some? == j.opening.preflightDatabase.Some?
    && (j.opening.preflight.Some? ==>
          && j.opening.preflight.value.source == j.fingerprint.current
          && j.opening.preflightDatabase.value.backup == j.opening.preflight.value.artifact
          && (j.opening.probe.Some? ==> j.opening.preflight.value.createdAt >= j.opening.probe.value.probedAt))
    && (j.opening.observed.Some? ==> j.opening.observed.value.source == j.fingerprint.current)
    && (j.quiet.maintenance.Some? ==>
          && j.opening.observed.Some?
          && j.quiet.maintenance.value.source == j.fingerprint.current
          && j.quiet.maintenance.value.runtimeId == j.opening.observed.value.endpoint.runtimeId
          && j.quiet.maintenance.value.hubInstanceId == j.opening.observed.value.endpoint.hubInstanceId
          && j.quiet.maintenance.value.enteredAt >= j.opening.observed.value.observedAt
          && j.quiet.maintenance.value.securityAt >= j.opening.observed.value.observedAt)
  }

  predicate PauseRelated(j: Journal) {
    j.quiet.pause.Some? ==>
      && j.quiet.maintenance.Some?
      && j.quiet.pause.value.operationId == j.operationId
      && j.quiet.pause.value.maintenanceId == j.quiet.maintenance.value.id
      && j.quiet.pause.value.fence == j.quiet.maintenance.value.fence
      && j.quiet.pause.value.pointer == j.quiet.maintenance.value.pointer
      && j.quiet.pause.value.atomicRevision < j.revision
      && (forall i :: 0 <= i < |j.quiet.pause.value.subjects| ==>
        j.quiet.pause.value.subjects[i].build == j.fingerprint.current)
      && j.quiet.pause.value.pausedAt >= j.quiet.maintenance.value.enteredAt
      && PauseWellFormed(j.quiet.pause.value)
  }

  /** Each managed Bridge is paused once. */
  predicate PauseWellFormed(pause: Pause) {
    forall i, k :: 0 <= i < k < |pause.subjects| ==> pause.subjects[i].key != pause.subjects[k].key
  }

  predicate StopRelated(j: Journal) {
    j.quiet.stop.Some? ==>
      && j.quiet.maintenance.Some?
      && j.quiet.stop.value.maintenanceId == j.quiet.maintenance.value.id
      && j.quiet.stop.value.fence == j.quiet.maintenance.value.fence
      && j.quiet.stop.value.source == j.fingerprint.current
      && j.quiet.stop.value.runtimeId == j.quiet.maintenance.value.runtimeId
      && j.quiet.stop.value.hubInstanceId == j.quiet.maintenance.value.hubInstanceId
      && j.quiet.stop.value.stoppedAt >= j.quiet.maintenance.value.enteredAt
  }

  predicate FinalRelated(j: Journal) {
    && j.quiet.final.Some? == j.quiet.finalDatabase.Some? == j.quiet.finalSecurity.Some?
    && (j.quiet.final.Some? ==>
          && j.quiet.maintenance.Some? && j.quiet.stop.Some?
          && j.quiet.final.value.source == j.fingerprint.current
          && j.quiet.final.value.proof == Some(Quiescence(j.quiet.maintenance.value.fence, j.quiet.stop.value.id,
            j.quiet.stop.value.stoppedAt))
          && j.quiet.finalDatabase.value.backup == j.quiet.final.value.artifact
          && j.quiet.finalSecurity.value.snapshotId == j.quiet.final.value.id
          && j.quiet.finalSecurity.value.epoch >= j.quiet.maintenance.value.epoch
          && j.quiet.finalSecurity.value.events >= j.quiet.maintenance.value.events
          && j.quiet.final.value.createdAt >= j.quiet.stop.value.stoppedAt)
  }

  predicate SwapRelated(j: Journal) {
    j.quiet.swap.Some? ==>
      && j.quiet.pause.Some?
      && j.quiet.swap.value.operationId == j.operationId
      && j.quiet.swap.value.previousPointer == j.quiet.pause.value.pointer
      && j.quiet.swap.value.source == j.fingerprint.current
      && j.quiet.swap.value.candidate == j.fingerprint.candidate
      && j.quiet.swap.value.installed == j.fingerprint.candidate
      && j.quiet.swap.value.previousArtifact == j.fingerprint.current.manifest
      && j.quiet.swap.value.candidateArtifact == j.fingerprint.candidate.manifest
      && j.quiet.swap.value.installedArtifact == j.fingerprint.candidate.manifest
      && SwapWellFormed(j.quiet.swap.value)
  }

  predicate SwapWellFormed(swap: Swap) { swap.pointer == swap.previousPointer + 1 }

  predicate ExactMaintenance(j: Journal, maintenanceId: nat, identity: Identity, target: Target) {
    j.quiet.maintenance.Some? && maintenanceId == j.quiet.maintenance.value.id && identity == j.Expected(target)
  }

  predicate RuntimeRelated(j: Journal, start: Option<Start>, health: Option<Health>, target: Target) {
    && (start.Some? ==> ExactMaintenance(j, start.value.maintenanceId, start.value.identity, target))
    && (health.Some? ==>
          && health.value.target == target
          && start.Some?
          && ExactMaintenance(j, health.value.maintenanceId, health.value.identity, target)
          && health.value.endpoint == start.value.endpoint)
  }

  predicate MigrationRelated(j: Journal) {
    j.trial.migration.Some? ==>
      && ExactMaintenance(j, j.trial.migration.value.maintenanceId, j.trial.migration.value.identity, Candidate)
      && j.trial.migration.value.migration == j.fingerprint.candidate.migration
  }

  /** The authorization is for this operation, this pause and the pointer of the swap or the restore. */
  predicate AuthorizationRelated(j: Journal, a: Authorization, target: Target, pointer: Option<nat>) {
    && j.quiet.pause.Some?
    && Some(a.pointer) == pointer
    && a.operationId == j.operationId
    && a.fingerprint == j.fingerprint
    && a.target == target
    && a.atomicRevision < j.revision
    && a.supervisorRevision == j.quiet.pause.value.supervisorRevision
    && a.pause == j.quiet.pause.value
    && (target == Candidate ==> a.source == j.fingerprint.current && a.candidate == j.fingerprint.candidate)
    && a.installed == j.Expected(target)
  }

  predicate ResumeRelated(j: Journal, r: Resume, authorization: Option<Authorization>, target: Target) {
    && j.quiet.maintenance.Some? && authorization.Some?
    && r.maintenanceId == j.quiet.maintenance.value.id
    && r.target == target
    && EffectsMatch(j, r, authorization.value)
  }

  predicate CommitRelated(j: Journal, c: Commit, authorization: Option<Authorization>, resume: Option<Resume>,
    target: Target) {
    && authorization.Some? && resume.Some?
    && c.target == target
    && ExactMaintenance(j, c.maintenanceId, c.identity, target)
    && c.atomicRevision < j.revision
    && c.pointer == authorization.value.pointer + 1
  }

  predicate RestoreRelated(j: Journal) {
    j.rollback.restore.Some? ==>
      && j.quiet.swap.Some? && j.quiet.final.Some? && j.quiet.finalDatabase.Some? && j.quiet.finalSecurity.Some?
      && j.rollback.restore.value.operationId == j.operationId
      && j.rollback.restore.value.snapshotId == j.quiet.final.value.id
      && j.rollback.restore.value.databaseIdentity == j.quiet.finalDatabase.value.databaseIdentity
      && j.rollback.restore.value.previousPointer == j.quiet.swap.value.pointer
      && j.rollback.restore.value.identity == j.fingerprint.current
      && j.rollback.restore.value.snapshotEpoch == j.quiet.finalSecurity.value.epoch
      && j.rollback.restore.value.events >= j.quiet.finalSecurity.value.events
      && RestoreWellFormed(j.rollback.restore.value)
  }

  predicate RestoreWellFormed(r: Restore) {
    r.pointer == r.previousPointer + 1 && r.epoch >= r.observedEpoch && r.epoch >= r.snapshotEpoch
  }

  predicate CleanupRelated(j: Journal) {
    j.failure.cleanup.Some? ==>
      && j.quiet.maintenance.Some? && j.failure.cleanupFailedAt.Some?
      && j.failure.cleanup.value.operationId == j.operationId
      && j.failure.cleanup.value.maintenanceId == j.quiet.maintenance.value.id
      && j.failure.cleanup.value.failedPhase == j.failure.cleanupFailedAt.value
      && j.failure.cleanup.value.source == j.fingerprint.current
      && j.failure.cleanup.value.pointer == j.quiet.maintenance.value.pointer
      && j.failure.cleanup.value.epoch >= j.quiet.maintenance.value.epoch
  }

  function SwapPointer(j: Journal): Option<nat> {
    if j.quiet.swap.Some? then Some(j.quiet.swap.value.pointer) else None
  }

  function RestorePointer(j: Journal): Option<nat> {
    if j.rollback.restore.Some? then Some(j.rollback.restore.value.pointer) else None
  }

  /** receiptRelationsValid: every receipt present agrees with the receipts it builds on. */
  predicate ReceiptRelationsValid(j: Journal) {
    && SourceRelated(j) && PauseRelated(j) && StopRelated(j) && FinalRelated(j) && SwapRelated(j)
    && RuntimeRelated(j, j.trial.start, j.trial.health, Candidate)
    && MigrationRelated(j)
    && (j.trial.authorization.Some? ==> AuthorizationRelated(j, j.trial.authorization.value, Candidate, SwapPointer(j)))
    && (j.trial.resume.Some? ==> ResumeRelated(j, j.trial.resume.value, j.trial.authorization, Candidate))
    && (j.trial.commit.Some? ==>
      CommitRelated(j, j.trial.commit.value, j.trial.authorization, j.trial.resume, Candidate))
    && RestoreRelated(j)
    && RuntimeRelated(j, j.rollback.start, j.rollback.health, Previous)
    && (j.rollback.authorization.Some? ==>
          AuthorizationRelated(j, j.rollback.authorization.value, Previous, RestorePointer(j)))
    && (j.rollback.resume.Some? ==> ResumeRelated(j, j.rollback.resume.value, j.rollback.authorization, Previous))
    && (j.rollback.commit.Some? ==>
          CommitRelated(j, j.rollback.commit.value, j.rollback.authorization, j.rollback.resume, Previous))
    && CleanupRelated(j)
  }

  // ---------------------------------------------------------------------------
  // Relations between the phase and the receipts
  // ---------------------------------------------------------------------------

  predicate IsErrorTerminal(phase: Phase) { phase == Blocked || phase == RollbackFailed }

  predicate CleanupActive(j: Journal) {
    j.phase == CLEANUP_INTENT || j.phase == CLEANUP_CONFIRMED || (j.phase == Blocked && j.failure.cleanupCause.Some?)
  }

  /** On the normal path exactly the receipts of the phases already passed are present. */
  predicate NormalPresence(j: Journal, phase: Phase)
    requires phase.Normal?
  {
    && j.failure.rollbackCause == None
    && (j.opening.probe.Some? <==> phase.index >= CANDIDATE_VALIDATED.index)
    && (j.opening.preflight.Some? <==> phase.index >= PREFLIGHT_SNAPSHOT_READY.index)
    && (j.opening.preflightDatabase.Some? <==> phase.index >= PREFLIGHT_SNAPSHOT_READY.index)
    && (j.opening.observed.Some? <==> phase.index >= CURRENT_REVALIDATED.index)
    && (j.quiet.maintenance.Some? <==> phase.index >= MAINTENANCE_ENTERED.index)
    && (j.quiet.pause.Some? <==> phase.index >= SUPERVISORS_PAUSED.index)
    && (j.quiet.stop.Some? <==> phase.index >= STOP_RECEIPT_CONFIRMED.index)
    && (j.quiet.final.Some? <==> phase.index >= FINAL_SNAPSHOT_READY.index)
    && (j.quiet.finalDatabase.Some? <==> phase.index >= FINAL_SNAPSHOT_READY.index)
    && (j.quiet.finalSecurity.Some? <==> phase.index >= FINAL_SNAPSHOT_READY.index)
    && (j.quiet.swap.Some? <==> phase.index >= SWAPPED.index)
    && (j.trial.start.Some? <==> phase.index >= CANDIDATE_STARTED.index)
    && (j.trial.health.Some? <==> phase.index >= CANDIDATE_HEALTHY.index)
    && (j.trial.migration.Some? <==> phase.index >= CANDIDATE_MIGRATED.index)
    && (j.trial.authorization.Some? <==> phase.index >= BRIDGES_AUTHORIZED.index)
    && (j.trial.resume.Some? <==> phase.index >= BRIDGES_RESUMED.index)
    && (j.trial.commit.Some? <==> phase.index >= MAINTENANCE_COMMITTED.index)
    && j.rollback.restore == None && j.rollback.start == None && j.rollback.health == None
    && j.rollback.authorization == None && j.rollback.resume == None && j.rollback.commit == None
  }

  /** On the rollback path the cause says how far the candidate got. */
  predicate RollbackPresence(j: Journal, phase: Phase) {
    && IsRollback(phase)
    && j.failure.rollbackCause.Some? && RollbackCause(j.failure.rollbackCause.value)
    && var cause, rank := j.failure.rollbackCause.value, phase.index;
       && j.opening.probe.Some? && j.opening.preflight.Some? && j.opening.preflightDatabase.Some? &&
         j.opening.observed.Some?
       && j.quiet.maintenance.Some? && j.quiet.pause.Some? && j.quiet.stop.Some?
       && j.quiet.final.Some? && j.quiet.finalDatabase.Some? && j.quiet.finalSecurity.Some? && j.quiet.swap.Some?
       && (j.trial.start.Some? <==> cause != CandidateStartFailed)
       && (j.trial.health.Some? <==> cause != CandidateStartFailed && cause != CandidateHealthFailed)
       && (j.trial.migration.Some? <==> cause == ResumeFailed || cause == CommitFailed)
       && (j.trial.authorization.Some? <==> cause == ResumeFailed || cause == CommitFailed)
       && (j.trial.resume.Some? <==> cause == CommitFailed)
       && j.trial.commit == None
       && (j.rollback.restore.Some? <==> rank >= 2)
       && (j.rollback.start.Some? <==> rank >= 3)
       && (j.rollback.health.Some? <==> rank >= 5)
       && (j.rollback.authorization.Some? <==> rank >= 7)
       && (j.rollback.resume.Some? <==> rank >= 9)
       && (j.rollback.commit.Some? <==> rank >= 11)
  }

  /** journalRelationsValid. */
  predicate Valid(j: Journal) {
    && IsPhase(j.phase)
    && j.fingerprint.current != j.fingerprint.candidate
    && ReceiptRelationsValid(j)
    && (IsErrorTerminal(j.phase) <==> j.failure.terminalCode.Some? && j.failure.failedAt.Some?)
    && (!IsErrorTerminal(j.phase) ==> j.failure.terminalCode == None && j.failure.failedAt == None)
    && (CleanupActive(j) <==> j.failure.cleanupCause.Some? && j.failure.cleanupFailedAt.Some?)
    && (!CleanupActive(j) ==> j.failure.cleanup == None && j.failure.cleanupFailedAt == None)
    && (j.phase == CLEANUP_INTENT ==> j.failure.cleanup == None)
    && (j.phase == CLEANUP_CONFIRMED || (j.phase == Blocked && CleanupActive(j)) ==> j.failure.cleanup.Some?)
    && if CleanupActive(j) then j.failure.rollbackCause == None
       else
         var effective := if IsErrorTerminal(j.phase) then j.failure.failedAt.value else j.phase;
         if IsNormal(effective) then NormalPresence(j, effective) else RollbackPresence(j, effective)
  }

  function Initial(operationId: nat, fingerprint: Fingerprint): Journal {
    Journal(operationId, fingerprint, 0, CANDIDATE_PROBE_INTENT,
            Opening(None, None, None, None), Quiet(None, None, None, None, None, None, None),
            Trial(None, None, None, None, None, None), Rollback(None, None, None, None, None, None),
            Failure(None, None, None, None, None, None))
  }
}
