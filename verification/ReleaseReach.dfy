/**
 What a release manager can always do: the answers its step accepts and the relations then refuse, and
 the answers that take a release from any point of any run to its end.
 */
module ReleaseReach {
  import opened Common
  import opened ReleaseJournal
  import opened ReleaseMachine
  import opened ReleaseRuns

  /** The step accepts the answer, and the journal it would write breaks a relation. */
  predicate Breaks(a: Journal, answer: Answer) {
    match answer
    case Snapshotted(snapshot, _) =>
      && a.phase == PREFLIGHT_SNAPSHOT_INTENT && a.opening.probe.Some?
      && snapshot.createdAt < a.opening.probe.value.probedAt
    case Entered(m) =>
      && a.phase == ENTER_MAINTENANCE_INTENT && a.opening.observed.Some?
      && (m.enteredAt < a.opening.observed.value.observedAt || m.securityAt < a.opening.observed.value.observedAt)
    case Paused(pause) =>
      && a.phase == PAUSE_SUPERVISORS_INTENT && a.quiet.maintenance.Some?
      && (|| pause.pointer != a.quiet.maintenance.value.pointer
          || pause.pausedAt < a.quiet.maintenance.value.enteredAt
          || exists i :: 0 <= i < |pause.subjects| && pause.subjects[i].build != a.fingerprint.current)
    case HubStopped(stop) =>
      a.phase == STOP_INTENT && a.quiet.maintenance.Some? && stop.stoppedAt < a.quiet.maintenance.value.enteredAt
    case FinallySnapshotted(final, _, security) =>
      && a.phase == FINAL_SNAPSHOT_INTENT && a.quiet.maintenance.Some? && a.quiet.stop.Some?
      && (|| security.epoch < a.quiet.maintenance.value.epoch || security.events < a.quiet.maintenance.value.events
          || final.createdAt < a.quiet.stop.value.stoppedAt)
    case DidSwap(swap) =>
      && a.phase == SWAP_INTENT
      && (|| swap.previousArtifact != a.fingerprint.current.manifest
          || swap.candidateArtifact != a.fingerprint.candidate.manifest
          || swap.installedArtifact != a.fingerprint.candidate.manifest)
    case Restored(restore) =>
      && a.phase == ROLLBACK_RESTORE_INTENT && a.quiet.finalDatabase.Some?
      && restore.databaseIdentity != a.quiet.finalDatabase.value.databaseIdentity
    case _ => false
  }

  /** The phase is left without a new receipt. */
  predicate NoReceipt(phase: Phase) {
    match phase
    case Normal(i) => i in {1, 3, 5, 7, 9, 11, 12, 14, 16, 18, 20, 22, 24, 26, 28}
    case RollingBack(i) => i in {0, 3, 5, 7, 9, 11}
    case _ => false
  }

  /**
   The write that a step wants fails in these cases and in no others: the answer passed the step's own
   checks and breaks a relation to an earlier receipt. Then nothing is written and execute throws.
   */
  lemma ThrowsExactly(a: Journal, input: Input)
    requires RunValid(a) && PatchOf(Step(a, input)).Some?
    ensures Transition(a, PatchOf(Step(a, input)).value) == None <==> Step(a, input).Go? && Breaks(a, input.answer)
  {
    hide RunValid, Valid, Step, Breaks, Fits, Transition;
    RunIsValid(a);
    StepFits(a, input);
    var patch := PatchOf(Step(a, input)).value;
    PlainStep(a, input);
    match patch {
      case InFailure(phase, _) =>
        if phase == CLEANUP_CONFIRMED {
          CleanupWrites(a, input);
        } else {
          FailureWrites(a, patch);
        }
      case Move(phase) => MoveWrites(a, phase);
      case _ => ReceiptThrows(a, input);
    }
  }

  /** Steps without a receipt break nothing, and leave only phases without one. */
  lemma PlainStep(a: Journal, input: Input)
    requires IsPhase(a.phase) && PatchOf(Step(a, input)).Some?
    ensures var patch := PatchOf(Step(a, input)).value;
      && (patch.InFailure? ==> !(Step(a, input).Go? && Breaks(a, input.answer)))
      && (patch.Move? ==> NoReceipt(a.phase) && !Breaks(a, input.answer))
      && (Step(a, input).End? ==> patch.InFailure?)
  {
    hide StepCandidate, StepRollback, PauseWellFormed, SwapWellFormed;
    match a.phase {
      case Normal(i) =>
        if SWAPPED.index <= i < COMPLETED.index {
          PlainCandidate(a, input);
        }
      case RollingBack(i) =>
        if i < ROLLED_BACK.index {
          PlainRollback(a, input);
        }
      case _ =>
    }
  }

  lemma PlainCandidate(a: Journal, input: Input)
    requires IsNormal(a.phase) && SWAPPED.index <= a.phase.index < COMPLETED.index
    requires PatchOf(StepCandidate(a, input)).Some?
    ensures var patch := PatchOf(StepCandidate(a, input)).value;
      && StepCandidate(a, input).Go?
      && (patch.InFailure? ==> input.answer.Rejected?)
      && (patch.Move? ==> NoReceipt(a.phase))
  {
    hide HealthAccepted, ResumeAccepted, CommitAccepted;
  }

  lemma PlainRollback(a: Journal, input: Input)
    requires IsRollback(a.phase) && a.phase != ROLLED_BACK
    requires PatchOf(StepRollback(a, input)).Some?
    ensures var patch := PatchOf(StepRollback(a, input)).value;
      && (StepRollback(a, input).End? <==> patch.InFailure?)
      && (patch.Move? ==> NoReceipt(a.phase))
  {
    hide HealthAccepted, ResumeAccepted, CommitAccepted, RestoreAccepted;
  }

  lemma MoveWrites(a: Journal, phase: Phase)
    requires RunValid(a) && Fits(a, Move(phase)) && NoReceipt(a.phase)
    ensures Transition(a, Move(phase)).Some?
  {
    hide ReceiptRelationsValid;
    Presence(a);
    ReceiptsStayRelated(a, Apply(a, Move(phase)).(revision := a.revision + 1));
  }

  lemma FailureWrites(a: Journal, patch: Patch)
    requires RunValid(a) && Fits(a, patch) && patch.InFailure? && patch.phase != CLEANUP_CONFIRMED
    ensures Transition(a, patch).Some?
  {
    hide ReceiptRelationsValid, NormalPresence, RollbackPresence;
    Presence(a);
    Pointers(a);
    var b := Apply(a, patch).(revision := a.revision + 1);
    ReceiptsStayRelated(a, b);
    PresenceStays(a, b);
    if patch.phase == ROLLBACK_STOP_CANDIDATE_INTENT {
      RollbackBegins(a, b);
    }
  }

  /** Which receipts are present does not depend on why a release ended. */
  lemma PresenceStays(a: Journal, b: Journal)
    requires b.opening == a.opening && b.quiet == a.quiet && b.trial == a.trial && b.rollback == a.rollback
    ensures b.failure.rollbackCause == a.failure.rollbackCause ==>
      && (forall p: Phase :: p.Normal? && NormalPresence(a, p) ==> NormalPresence(b, p))
      && (forall p: Phase :: RollbackPresence(a, p) ==> RollbackPresence(b, p))
    ensures forall p: Phase :: p.Normal? && NormalPresence(a, p) ==> a.failure.rollbackCause == None
  {
  }

  lemma RollbackBegins(a: Journal, b: Journal)
    requires IsNormal(a.phase) && NormalPresence(a, a.phase) && RollbackCauseAt(a.phase).Some?
    requires b.opening == a.opening && b.quiet == a.quiet && b.trial == a.trial && b.rollback == a.rollback
    requires b.failure.rollbackCause == RollbackCauseAt(a.phase)
    ensures RollbackPresence(b, ROLLBACK_STOP_CANDIDATE_INTENT)
  {
  }

  lemma CleanupWrites(a: Journal, input: Input)
    requires RunValid(a) && PatchOf(Step(a, input)).Some?
    requires PatchOf(Step(a, input)).value.InFailure? && PatchOf(Step(a, input)).value.phase == CLEANUP_CONFIRMED
    ensures Transition(a, PatchOf(Step(a, input)).value).Some?
  {
    hide StepOpening, StepQuiescing, StepCandidate, StepRollback;
    StepFits(a, input);
  }

  /** What a later journal takes over from an earlier one stays related. */
  lemma EarlierStaysRelated(a: Journal, b: Journal)
    requires ReceiptRelationsValid(a)
    requires b.operationId == a.operationId && b.fingerprint == a.fingerprint && b.revision > a.revision
    requires b.opening == a.opening && b.quiet == a.quiet
    ensures SourceRelated(b) && PauseRelated(b) && StopRelated(b) && FinalRelated(b) && SwapRelated(b)
    ensures b.failure.cleanup == None ==> CleanupRelated(b)
  {
  }

  lemma RestoreStaysRelated(a: Journal, b: Journal)
    requires RestoreRelated(a)
    requires b.operationId == a.operationId && b.fingerprint == a.fingerprint && b.quiet == a.quiet
    requires b.rollback.restore == a.rollback.restore
    ensures RestoreRelated(b)
  {
  }

  lemma RuntimeStaysRelated(a: Journal, b: Journal)
    requires b.fingerprint == a.fingerprint && b.quiet == a.quiet
    ensures forall start, health, target ::
      RuntimeRelated(a, start, health, target) ==> RuntimeRelated(b, start, health, target)
  {
  }

  lemma EffectsStayMatched(a: Journal, b: Journal)
    requires b.operationId == a.operationId && b.fingerprint == a.fingerprint && b.quiet == a.quiet
    ensures forall r, authorization :: EffectsMatch(a, r, authorization) ==> EffectsMatch(b, r, authorization)
  {
  }

  lemma TrialStaysRelated(a: Journal, b: Journal)
    requires ReceiptRelationsValid(a)
    requires b.operationId == a.operationId && b.fingerprint == a.fingerprint && b.revision > a.revision
    requires b.opening == a.opening && b.quiet == a.quiet && b.trial == a.trial
    ensures RuntimeRelated(b, b.trial.start, b.trial.health, Candidate) && MigrationRelated(b)
    ensures b.trial.authorization.Some? ==>
      AuthorizationRelated(b, b.trial.authorization.value, Candidate, SwapPointer(b))
    ensures b.trial.resume.Some? ==> ResumeRelated(b, b.trial.resume.value, b.trial.authorization, Candidate)
    ensures b.trial.commit.Some? ==>
      CommitRelated(b, b.trial.commit.value, b.trial.authorization, b.trial.resume, Candidate)
  {
  }

  lemma ReceiptsStayRelated(a: Journal, b: Journal)
    requires ReceiptRelationsValid(a)
    requires b.operationId == a.operationId && b.fingerprint == a.fingerprint && b.revision > a.revision
    requires b.opening == a.opening && b.quiet == a.quiet && b.trial == a.trial && b.rollback == a.rollback
    requires b.failure.cleanup == None
      || (b.failure.cleanup == a.failure.cleanup && b.failure.cleanupFailedAt == a.failure.cleanupFailedAt)
    ensures ReceiptRelationsValid(b)
  {
    hide EffectsMatch;
    EffectsStayMatched(a, b);
  }

  lemma ReceiptThrows(a: Journal, input: Input)
    requires RunValid(a) && PatchOf(Step(a, input)).Some?
    requires !PatchOf(Step(a, input)).value.Move? && !PatchOf(Step(a, input)).value.InFailure?
    ensures Transition(a, PatchOf(Step(a, input)).value) == None <==> Step(a, input).Go? && Breaks(a, input.answer)
  {
    hide RunValid, Valid, StepOpening, StepQuiescing, StepCandidate, StepRollback, Breaks, Transition;
    RunIsValid(a);
    Presence(a);
    match a.phase {
      case Normal(i) =>
        if i < MAINTENANCE_ENTERED.index {
          OpeningThrows(a, input);
        } else if i < SWAPPED.index {
          QuiescingThrows(a, input);
        } else {
          CandidateThrows(a, input);
        }
      case RollingBack(_) => RollbackThrows(a, input);
      case Cleaning(_) => CleanupTakesNone(a, input);
      case _ =>
    }
  }

  lemma CleanupTakesNone(a: Journal, input: Input)
    requires a.phase == CLEANUP_INTENT || a.phase == CLEANUP_CONFIRMED
    ensures var patch := PatchOf(StepCleanup(a, input)); patch.Some? ==> patch.value.InFailure?
  {
  }

  lemma OpeningThrows(a: Journal, input: Input)
    requires Valid(a) && IsNormal(a.phase) && a.phase.index < MAINTENANCE_ENTERED.index
    requires PatchOf(StepOpening(a, input)).Some?
    requires !PatchOf(StepOpening(a, input)).value.Move? && !PatchOf(StepOpening(a, input)).value.InFailure?
    ensures Transition(a, PatchOf(StepOpening(a, input)).value) == None <==>
      StepOpening(a, input).Go? && Breaks(a, input.answer)
  {
    hide RollbackPresence, EffectsMatch;
  }

  lemma QuiescingThrows(a: Journal, input: Input)
    requires Valid(a) && IsNormal(a.phase) && MAINTENANCE_ENTERED.index <= a.phase.index < SWAPPED.index
    requires PatchOf(StepQuiescing(a, input)).Some?
    requires !PatchOf(StepQuiescing(a, input)).value.Move? && !PatchOf(StepQuiescing(a, input)).value.InFailure?
    ensures Transition(a, PatchOf(StepQuiescing(a, input)).value) == None <==>
      StepQuiescing(a, input).Go? && Breaks(a, input.answer)
  {
    hide RollbackPresence, EffectsMatch;
  }

  lemma CandidateThrows(a: Journal, input: Input)
    requires Valid(a) && IsNormal(a.phase) && SWAPPED.index <= a.phase.index < COMPLETED.index
    requires PatchOf(StepCandidate(a, input)).Some?
    requires !PatchOf(StepCandidate(a, input)).value.Move? && !PatchOf(StepCandidate(a, input)).value.InFailure?
    ensures Transition(a, PatchOf(StepCandidate(a, input)).value) == None <==>
      StepCandidate(a, input).Go? && Breaks(a, input.answer)
  {
    hide Valid, Transition, Breaks, StepCandidate;
    if a.phase.index < AUTHORIZE_BRIDGES_INTENT.index {
      TrialThrows(a, input);
    } else {
      BridgesThrow(a, input);
    }
  }

  lemma TrialThrows(a: Journal, input: Input)
    requires Valid(a) && IsNormal(a.phase) && SWAPPED.index <= a.phase.index < AUTHORIZE_BRIDGES_INTENT.index
    requires PatchOf(StepCandidate(a, input)).Some?
    requires !PatchOf(StepCandidate(a, input)).value.Move? && !PatchOf(StepCandidate(a, input)).value.InFailure?
    ensures Transition(a, PatchOf(StepCandidate(a, input)).value) == None <==>
      StepCandidate(a, input).Go? && Breaks(a, input.answer)
  {
    hide RollbackPresence, SourceRelated, PauseRelated, StopRelated, FinalRelated, CleanupRelated, EffectsMatch;
    var b := Apply(a, PatchOf(StepCandidate(a, input)).value).(revision := a.revision + 1);
    EarlierStaysRelated(a, b);
    EffectsStayMatched(a, b);
  }

  lemma BridgesThrow(a: Journal, input: Input)
    requires Valid(a) && IsNormal(a.phase) && AUTHORIZE_BRIDGES_INTENT.index <= a.phase.index < COMPLETED.index
    requires PatchOf(StepCandidate(a, input)).Some?
    requires !PatchOf(StepCandidate(a, input)).value.Move? && !PatchOf(StepCandidate(a, input)).value.InFailure?
    ensures Transition(a, PatchOf(StepCandidate(a, input)).value) == None <==>
      StepCandidate(a, input).Go? && Breaks(a, input.answer)
  {
    hide RollbackPresence, RuntimeRelated, SourceRelated, PauseRelated, StopRelated, FinalRelated, CleanupRelated,
         EffectsMatch;
    var b := Apply(a, PatchOf(StepCandidate(a, input)).value).(revision := a.revision + 1);
    EarlierStaysRelated(a, b);
    EffectsStayMatched(a, b);
    RuntimeStaysRelated(a, b);
  }

  /** The relations that the receipts of a rollback take part in. */
  predicate RollbackRelated(j: Journal) {
    && RestoreRelated(j)
    && RuntimeRelated(j, j.rollback.start, j.rollback.health, Previous)
    && (j.rollback.authorization.Some? ==>
          AuthorizationRelated(j, j.rollback.authorization.value, Previous, RestorePointer(j)))
    && (j.rollback.resume.Some? ==> ResumeRelated(j, j.rollback.resume.value, j.rollback.authorization, Previous))
    && (j.rollback.commit.Some? ==>
          CommitRelated(j, j.rollback.commit.value, j.rollback.authorization, j.rollback.resume, Previous))
  }

  /** What a rollback's receipt is checked for by the step that takes it. */
  predicate Takes(a: Journal, answer: Answer, rollback: Rollback) {
    var p := a.phase;
    && a.quiet.maintenance.Some?
    && var id, previous := a.quiet.maintenance.value.id, a.fingerprint.current;
       if p == ROLLBACK_RESTORE_INTENT then
         && a.quiet.final.Some? && a.quiet.finalSecurity.Some? && a.quiet.swap.Some?
         && answer.Restored? && RestoreAccepted(a, answer.restore)
         && rollback == a.rollback.(restore := Some(answer.restore))
       else if p == ROLLBACK_START_PREVIOUS_INTENT then
         && answer.Started? && answer.start.maintenanceId == id && answer.start.identity == previous
         && rollback == a.rollback.(start := Some(answer.start))
       else if p == ROLLBACK_VERIFY_PREVIOUS_INTENT then
         && answer.Healthy? && a.rollback.start.Some?
         && HealthAccepted(a, answer.health, a.rollback.start.value, Previous)
         && rollback == a.rollback.(health := Some(answer.health))
       else if p == ROLLBACK_AUTHORIZE_BRIDGES_INTENT then
         Authorize(a, Previous).Some? && rollback == a.rollback.(authorization := Authorize(a, Previous))
       else if p == ROLLBACK_RESUME_BRIDGES_INTENT then
         && answer.Resumed? && a.rollback.authorization.Some?
         && ResumeAccepted(a, answer.resume, a.rollback.authorization.value, Previous)
         && rollback == a.rollback.(resume := Some(answer.resume))
       else
         && p == ROLLBACK_COMMIT_MAINTENANCE_INTENT && answer.DidCommit? && a.rollback.authorization.Some?
         && CommitAccepted(a, answer.commit, a.rollback.authorization.value, Previous)
         && rollback == a.rollback.(commit := Some(answer.commit))
  }

  lemma RollbackThrows(a: Journal, input: Input)
    requires Valid(a) && IsRollback(a.phase) && a.phase != ROLLED_BACK
    requires PatchOf(StepRollback(a, input)).Some?
    requires !PatchOf(StepRollback(a, input)).value.Move? && !PatchOf(StepRollback(a, input)).value.InFailure?
    ensures Transition(a, PatchOf(StepRollback(a, input)).value) == None <==>
      StepRollback(a, input).Go? && Breaks(a, input.answer)
  {
    hide Valid, Breaks, StepRollback, Takes, RollbackRelated, RollbackPresence;
    RollbackParts(a);
    RollbackReceipt(a, input);
    var patch := PatchOf(StepRollback(a, input)).value;
    var b := Apply(a, patch).(revision := a.revision + 1);
    TakenPresence(a, input.answer, b);
    TakenRelated(a, input.answer, b);
    RollbackValid(a, b);
  }

  lemma RollbackParts(a: Journal)
    requires Valid(a) && IsRollback(a.phase)
    ensures RollbackRelated(a) && RollbackPresence(a, a.phase)
  {
    hide RollbackPresence, NormalPresence, EffectsMatch;
  }

  lemma RollbackReceipt(a: Journal, input: Input)
    requires IsRollback(a.phase) && a.phase != ROLLED_BACK && PatchOf(StepRollback(a, input)).Some?
    requires !PatchOf(StepRollback(a, input)).value.Move? && !PatchOf(StepRollback(a, input)).value.InFailure?
    ensures var patch := PatchOf(StepRollback(a, input)).value;
      && StepRollback(a, input).Go? && patch.InRollback? && patch.phase == Onward(a.phase)
      && (RollbackPresence(a, a.phase) ==> Takes(a, input.answer, patch.rollback))
  {
    hide HealthAccepted, ResumeAccepted, CommitAccepted, RestoreAccepted, Authorize;
  }

  /** b is a with the receipts of its rollback replaced. */
  predicate Replaces(a: Journal, b: Journal) {
    && IsRollback(a.phase) && IsRollback(b.phase) && b.revision > a.revision
    && b == a.(phase := b.phase, revision := b.revision, rollback := b.rollback)
  }

  /** Of such a journal only the rollback's own relations are in question. */
  lemma RollbackValid(a: Journal, b: Journal)
    requires Valid(a) && Replaces(a, b) && RollbackPresence(b, b.phase)
    ensures Valid(b) <==> RollbackRelated(b)
  {
    hide RollbackPresence, NormalPresence, SourceRelated, PauseRelated, StopRelated, FinalRelated, SwapRelated,
         CleanupRelated, MigrationRelated, RestoreRelated, RuntimeRelated, AuthorizationRelated, ResumeRelated,
         CommitRelated;
    EarlierStaysRelated(a, b);
    TrialStaysRelated(a, b);
  }

  lemma TakenPresence(a: Journal, answer: Answer, b: Journal)
    requires RollbackPresence(a, a.phase) && Replaces(a, b) && a.phase != ROLLED_BACK && b.phase == Onward(a.phase)
    requires Takes(a, answer, b.rollback)
    ensures RollbackPresence(b, b.phase)
  {
    hide HealthAccepted, ResumeAccepted, CommitAccepted, RestoreAccepted;
  }

  lemma TakenRelated(a: Journal, answer: Answer, b: Journal)
    requires RollbackRelated(a) && RollbackPresence(a, a.phase) && Replaces(a, b)
    requires a.phase != ROLLED_BACK && b.phase == Onward(a.phase)
    requires Takes(a, answer, b.rollback)
    ensures RollbackRelated(b) <==> !Breaks(a, answer)
  {
    hide RollbackRelated, RollbackPresence, Takes, Breaks;
    if a.phase.index < ROLLBACK_PREVIOUS_HEALTHY.index {
      RuntimeTaken(a, answer, b);
    } else {
      BridgesTaken(a, answer, b);
    }
  }

  lemma RuntimeTaken(a: Journal, answer: Answer, b: Journal)
    requires RollbackRelated(a) && RollbackPresence(a, a.phase) && Replaces(a, b)
    requires a.phase != ROLLED_BACK && b.phase == Onward(a.phase)
    requires Takes(a, answer, b.rollback)
    requires a.phase.index < ROLLBACK_PREVIOUS_HEALTHY.index
    ensures RollbackRelated(b) <==> !Breaks(a, answer)
  {
    hide EffectsMatch, AuthorizationRelated, ResumeRelated, CommitRelated;
  }

  lemma BridgesTaken(a: Journal, answer: Answer, b: Journal)
    requires RollbackRelated(a) && RollbackPresence(a, a.phase) && Replaces(a, b)
    requires a.phase != ROLLED_BACK && b.phase == Onward(a.phase)
    requires Takes(a, answer, b.rollback)
    requires a.phase.index >= ROLLBACK_PREVIOUS_HEALTHY.index
    ensures RollbackRelated(b) <==> !Breaks(a, answer)
  {
    hide EffectsMatch, RestoreRelated, RuntimeRelated;
    EffectsStayMatched(a, b);
    RestoreStaysRelated(a, b);
    RuntimeStaysRelated(a, b);
  }

  // ---------------------------------------------------------------------------
  // Faithful adapters
  // ---------------------------------------------------------------------------

  /** What adapters answer that have done what they were asked to do. */
  function FaithfulOpening(j: Journal): Input
    requires IsNormal(j.phase) && j.phase.index < MAINTENANCE_ENTERED.index && NormalPresence(j, j.phase)
  {
    var p, running := j.phase, Endpoint(0, 0, 0, 0);
    if p == CANDIDATE_PROBE_INTENT then
      Input(None, Probed(Probe(j.fingerprint.candidateId, j.fingerprint.candidate, 0)))
    else if p == PREFLIGHT_SNAPSHOT_INTENT then
      Input(None, Snapshotted(Snapshot(0, j.fingerprint.current, 0, j.opening.probe.value.probedAt, None),
                              DatabaseReceipt(0, 0)))
    else if p == CURRENT_REVALIDATE_INTENT then
      Input(Some(Observation(0, Some(j.fingerprint.current), Running(j.fingerprint.current, running, false))),
            Ambiguous)
    else if p == ENTER_MAINTENANCE_INTENT then
      var o := j.opening.observed.value;
      Input(None, Entered(Maintenance(0, 0, j.fingerprint.current, o.endpoint.runtimeId, o.endpoint.hubInstanceId, 0,
                                      0, 0, o.observedAt, o.observedAt)))
    else Input(None, Ambiguous)
  }

  function FaithfulQuiescing(j: Journal): Input
    requires IsNormal(j.phase) && MAINTENANCE_ENTERED.index <= j.phase.index < SWAPPED.index
    requires NormalPresence(j, j.phase)
  {
    var p, m := j.phase, j.quiet.maintenance.value;
    if p == PAUSE_SUPERVISORS_INTENT then
      Input(None, Paused(Pause(j.operationId, m.id, m.fence, 0, j.revision, m.pointer, 0, [], m.enteredAt)))
    else if p == STOP_INTENT then
      var o := j.opening.observed.value.endpoint;
      Input(None, HubStopped(Stop(0, m.id, m.fence, j.fingerprint.current, o.runtimeId, o.hubInstanceId, m.enteredAt)))
    else if p == STOP_RECEIPT_CONFIRMED then
      Input(Some(Observation(0, Some(j.fingerprint.current), StoppedRuntime)), Ambiguous)
    else if p == FINAL_SNAPSHOT_INTENT then
      var stop := j.quiet.stop.value;
      var proof := Quiescence(m.fence, stop.id, stop.stoppedAt);
      Input(None, FinallySnapshotted(Snapshot(0, j.fingerprint.current, 0, stop.stoppedAt, Some(proof)),
                                     DatabaseReceipt(0, 0), Security(0, m.epoch, m.events)))
    else if p == SWAP_INTENT then
      var pointer, f := j.quiet.pause.value.pointer, j.fingerprint;
      Input(None, DidSwap(Swap(j.operationId, pointer, pointer + 1, f.current, f.candidate, f.candidate,
                               f.current.manifest, f.candidate.manifest, f.candidate.manifest)))
    else Input(None, Ambiguous)
  }

  /** One effect on each paused subject, at consecutive supervisor revisions. */
  function FaithfulEffects(j: Journal, a: Authorization): seq<Effect>
    requires j.quiet.pause.Some?
  {
    var subjects := j.quiet.pause.value.subjects;
    seq(|subjects|, i requires 0 <= i < |subjects| =>
      Effect(a, j.operationId,
             if !subjects[i].wasRunning then AlreadyStopped
             else if a.target == Candidate then Rebound else RolledBackTo,
             a.supervisorRevision + i + 1, subjects[i], j.Expected(a.target)))
  }

  function FaithfulCandidate(j: Journal): Input
    requires IsNormal(j.phase) && SWAPPED.index <= j.phase.index < COMPLETED.index && NormalPresence(j, j.phase)
  {
    var p, id, candidate := j.phase, j.quiet.maintenance.value.id, j.fingerprint.candidate;
    if p == SWAPPED then Input(Some(Observation(0, Some(candidate), StoppedRuntime)), Ambiguous)
    else if p == START_CANDIDATE_INTENT then Input(None, Started(Start(id, candidate, Endpoint(0, 0, 0, 0))))
    else if p == VERIFY_CANDIDATE_INTENT then
      Input(None, Healthy(Health(id, Candidate, candidate, j.trial.start.value.endpoint)))
    else if p == MIGRATE_CANDIDATE_INTENT then Input(None, Migrated(Migration(id, candidate, candidate.migration)))
    else if p == RESUME_BRIDGES_INTENT then
      var a := j.trial.authorization.value;
      Input(None, Resumed(Resume(id, Candidate, a, FaithfulEffects(j, a))))
    else if p == COMMIT_MAINTENANCE_INTENT then
      Input(None, DidCommit(Commit(id, Candidate, candidate, j.revision, j.trial.authorization.value.pointer + 1)))
    else Input(None, Ambiguous)
  }

  function FaithfulRollback(j: Journal): Input
    requires IsRollback(j.phase) && j.phase != ROLLED_BACK && RollbackPresence(j, j.phase)
  {
    var p, id, previous := j.phase, j.quiet.maintenance.value.id, j.fingerprint.current;
    var stopped := Some(Observation(0, Some(previous), StoppedRuntime));
    if p == ROLLBACK_STOP_CANDIDATE_INTENT then Input(None, CandidateDown)
    else if p == ROLLBACK_RESTORE_INTENT then
      var security := j.quiet.finalSecurity.value;
      Input(stopped, Restored(Restore(
        j.operationId, j.quiet.final.value.id, j.quiet.finalDatabase.value.databaseIdentity,
        j.quiet.swap.value.pointer, j.quiet.swap.value.pointer + 1, previous,
        security.epoch, security.epoch, security.epoch, security.events)))
    else if p == ROLLBACK_START_PREVIOUS_INTENT then
      Input(stopped, Started(Start(id, previous, Endpoint(0, 0, 0, 0))))
    else if p == ROLLBACK_VERIFY_PREVIOUS_INTENT then
      Input(None, Healthy(Health(id, Previous, previous, j.rollback.start.value.endpoint)))
    else if p == ROLLBACK_RESUME_BRIDGES_INTENT then
      var a := j.rollback.authorization.value;
      Input(None, Resumed(Resume(id, Previous, a, FaithfulEffects(j, a))))
    else if p == ROLLBACK_COMMIT_MAINTENANCE_INTENT then
      Input(None, DidCommit(Commit(id, Previous, previous, j.revision, j.rollback.authorization.value.pointer + 1)))
    else Input(None, Ambiguous)
  }

  function FaithfulCleanup(j: Journal): Input
    requires j.quiet.maintenance.Some? && j.failure.cleanupFailedAt.Some?
  {
    var m := j.quiet.maintenance.value;
    Input(None, Cleaned(Cleanup(
      j.operationId, m.id, j.failure.cleanupFailedAt.value, j.fingerprint.current,
      if j.quiet.pause.Some? then Some(j.quiet.pause.value.id) else None, m.pointer, m.epoch)))
  }

  /** The phase that follows when nothing goes wrong any more. */
  function Onward(phase: Phase): Phase
    requires !IsTerminal(phase)
  {
    match phase
    case Normal(i) => Normal(i + 1)
    case RollingBack(i) => RollingBack(i + 1)
    case Cleaning(i) => if i == 0 then CLEANUP_CONFIRMED else Blocked
    case _ => phase
  }

  /** The step writes, and moves on to the following phase. */
  predicate MovesOn(a: Journal, input: Input) {
    && IsPhase(a.phase) && !IsTerminal(a.phase) && Step(a, input).Go?
    && Step(a, input).patch.phase == Onward(a.phase) && !Breaks(a, input.answer)
  }

  lemma OpeningMovesOn(a: Journal)
    requires IsNormal(a.phase) && a.phase.index < MAINTENANCE_ENTERED.index && NormalPresence(a, a.phase)
    ensures MovesOn(a, FaithfulOpening(a))
  {
  }

  lemma QuiescingMovesOn(a: Journal)
    requires IsNormal(a.phase) && MAINTENANCE_ENTERED.index <= a.phase.index < SWAPPED.index
    requires NormalPresence(a, a.phase)
    ensures MovesOn(a, FaithfulQuiescing(a))
  {
  }

  lemma CandidateMovesOn(a: Journal)
    requires IsNormal(a.phase) && SWAPPED.index <= a.phase.index < COMPLETED.index && NormalPresence(a, a.phase)
    requires a.quiet.swap.Some? ==> a.quiet.swap.value.pointer > 0
    requires a.trial.authorization.Some? ==> a.trial.authorization.value.target == Candidate
    ensures MovesOn(a, FaithfulCandidate(a))
  {
    hide EffectsMatch, FaithfulEffects;
    EffectsAreFaithful(a);
  }

  lemma EffectsAreFaithful(a: Journal)
    requires a.quiet.pause.Some?
    ensures forall id, target, b: Authorization :: target == b.target ==>
      EffectsMatch(a, Resume(id, target, b, FaithfulEffects(a, b)), b)
  {
  }

  lemma RollbackMovesOn(a: Journal)
    requires IsRollback(a.phase) && a.phase != ROLLED_BACK && RollbackPresence(a, a.phase)
    requires a.rollback.restore.Some? ==> a.rollback.restore.value.pointer > 0
    requires a.rollback.authorization.Some? ==> a.rollback.authorization.value.target == Previous
    ensures MovesOn(a, FaithfulRollback(a))
  {
    hide EffectsMatch, FaithfulEffects;
    EffectsAreFaithful(a);
  }

  lemma CleanupMovesOn(a: Journal)
    requires a.phase == CLEANUP_INTENT || a.phase == CLEANUP_CONFIRMED
    requires a.quiet.maintenance.Some? && a.failure.cleanupFailedAt.Some? && a.failure.cleanupCause.Some?
    ensures MovesOn(a, FaithfulCleanup(a))
  {
  }

  lemma AuthorizedTargets(a: Journal)
    requires RunValid(a)
    ensures a.trial.authorization.Some? ==> a.trial.authorization.value.target == Candidate
    ensures a.rollback.authorization.Some? ==> a.rollback.authorization.value.target == Previous
  {
    hide NormalPresence, RollbackPresence, SourceRelated, PauseRelated, StopRelated, FinalRelated, SwapRelated,
         EffectsMatch;
  }

  /** What the faithful answers need of the journal. */
  predicate Served(j: Journal) {
    && IsPhase(j.phase) && !IsTerminal(j.phase)
    && (j.phase.Normal? ==> NormalPresence(j, j.phase))
    && (j.phase.RollingBack? ==> RollbackPresence(j, j.phase))
    && (j.phase.Cleaning? ==>
          j.quiet.maintenance.Some? && j.failure.cleanupFailedAt.Some? && j.failure.cleanupCause.Some?)
  }

  lemma RunIsServed(a: Journal)
    requires RunValid(a) && !IsTerminal(a.phase)
    ensures Served(a)
  {
    hide RunValid, Valid, NormalPresence, RollbackPresence;
    Presence(a) by {
      RunIsValid(a);
    }
    Pointers(a);
  }

  /** The faithful answer in each phase. */
  function FaithfulInput(j: Journal): Input
    requires Served(j)
  {
    match j.phase
    case Normal(i) =>
      if i < MAINTENANCE_ENTERED.index then FaithfulOpening(j)
      else if i < SWAPPED.index then FaithfulQuiescing(j)
      else FaithfulCandidate(j)
    case RollingBack(_) => FaithfulRollback(j)
    case Cleaning(_) => FaithfulCleanup(j)
    case _ => Input(None, Ambiguous)
  }

  /** From every journal of a run that has not ended the faithful answer moves it on, and is written. */
  lemma NeverStuck(a: Journal)
    requires RunValid(a) && !IsTerminal(a.phase)
    ensures Served(a) && MovesOn(a, FaithfulInput(a))
    ensures Transition(a, Step(a, FaithfulInput(a)).patch).Some?
  {
    hide RunValid, Valid, NormalPresence, RollbackPresence, MovesOn, Step, Transition, FaithfulOpening,
         FaithfulQuiescing, FaithfulCandidate, FaithfulRollback, FaithfulCleanup;
    RunIsServed(a);
    Pointers(a);
    AuthorizedTargets(a);
    match a.phase {
      case Normal(i) =>
        if i < MAINTENANCE_ENTERED.index {
          OpeningMovesOn(a);
        } else if i < SWAPPED.index {
          QuiescingMovesOn(a);
        } else {
          CandidateMovesOn(a);
        }
      case RollingBack(_) => RollbackMovesOn(a);
      case Cleaning(_) => CleanupMovesOn(a);
      case _ =>
    }
    MovesOnFacts(a, FaithfulInput(a));
    ThrowsExactly(a, FaithfulInput(a));
  }

  /** The journal that the faithful answer leads to, if one may be asked for. */
  function FaithfulNext(a: Journal): Journal {
    if !Served(a) then a
    else
      var patch := PatchOf(Step(a, FaithfulInput(a)));
      if patch == None then a
      else
        var next := Transition(a, patch.value);
        if next == None then a else next.value
  }

  lemma NextFacts(a: Journal)
    requires RunValid(a) && !IsTerminal(a.phase)
    ensures Served(a) && MovesOn(a, FaithfulInput(a))
    ensures var b := FaithfulNext(a);
      && RunValid(b) && b.phase == Onward(a.phase) && Rank(a.phase) < Rank(b.phase) < PHASES
      && b.operationId == a.operationId && b.fingerprint == a.fingerprint
      && Transition(a, Step(a, FaithfulInput(a)).patch) == Some(b)
  {
    hide RunValid, Valid, Served, MovesOn, Step, Transition, Fits, Advances, FaithfulInput, Rank;
    NeverStuck(a);
    var input := FaithfulInput(a);
    MovesOnFacts(a, input);
    StepFits(a, input);
    var patch := Step(a, input).patch;
    var b := Transition(a, patch).value;
    PatchAdvances(a, patch, b);
    PatchKeepsRunValid(a, patch, b);
    TransitionPhase(a, patch, b);
    AdvanceFacts(a, b);
  }

  lemma AdvanceFacts(a: Journal, b: Journal)
    requires Advances(a, b) && IsPhase(b.phase)
    ensures b.operationId == a.operationId && b.fingerprint == a.fingerprint && Rank(a.phase) < Rank(b.phase) < PHASES
  {
  }

  lemma MovesOnFacts(a: Journal, input: Input)
    requires MovesOn(a, input)
    ensures IsPhase(a.phase) && Step(a, input).Go? && !Breaks(a, input.answer) && !IsTerminal(a.phase)
    ensures PatchOf(Step(a, input)) == Some(Step(a, input).patch)
    ensures Step(a, input).patch.phase == Onward(a.phase)
  {
  }

  function EndOf(phase: Phase): Phase {
    match phase
    case Normal(_) => COMPLETED
    case RollingBack(_) => ROLLED_BACK
    case Cleaning(_) => Blocked
    case _ => phase
  }

  /**
   Wherever a run stands, adapters that answer faithfully from then on bring it to its end: deployed from the
   normal path, rolled back from a rollback, blocked from a cleanup.
   */
  lemma {:induction false} EveryRunCanEnd(h: seq<Journal>) returns (t: seq<Journal>)
    requires Run(h)
    ensures Run(t) && h <= t && t[|t| - 1].phase == EndOf(h[|h| - 1].phase) && IsTerminal(t[|t| - 1].phase)
    decreases PHASES - Rank(h[|h| - 1].phase)
  {
    hide Run, RunValid, Valid, Step, Transition, MovesOn, Breaks, Served, FaithfulInput, FaithfulNext;
    LastFacts(h);
    var a := h[|h| - 1];
    RunIsValid(a);
    Presence(a);
    if IsTerminal(a.phase) {
      return h;
    }
    var b := FaithfulNext(a);
    NextFacts(a);
    MovesOnFacts(a, FaithfulInput(a));
    RunGrows(h, FaithfulInput(a), b);
    t := EveryRunCanEnd(h + [b]);
  }

  lemma TransitionPhase(a: Journal, patch: Patch, b: Journal)
    requires Transition(a, patch) == Some(b)
    ensures b.phase == patch.phase && IsPhase(b.phase)
  {
  }

  /** A release answered faithfully passes through every phase of its path. */
  lemma {:induction false} ReachesPhase(h: seq<Journal>, phase: Phase) returns (t: seq<Journal>)
    requires Run(h) && IsNormal(phase) && h[|h| - 1].phase.Normal? && h[|h| - 1].phase.index <= phase.index
    ensures Run(t) && h <= t && t[|t| - 1].phase == phase
    decreases phase.index - h[|h| - 1].phase.index
  {
    hide Run, RunValid, Valid, Step, Transition, MovesOn, Breaks, Served, FaithfulInput, FaithfulNext;
    LastFacts(h);
    var a := h[|h| - 1];
    RunIsValid(a);
    Presence(a);
    if a.phase == phase {
      return h;
    }
    var b := FaithfulNext(a);
    NextFacts(a);
    MovesOnFacts(a, FaithfulInput(a));
    RunGrows(h, FaithfulInput(a), b);
    t := ReachesPhase(h + [b], phase);
  }

  /** A run, and an answer to its swap that the step accepts and that can not be written. */
  lemma SwapThrows(operationId: nat, fingerprint: Fingerprint) returns (h: seq<Journal>, input: Input)
    requires fingerprint.current != fingerprint.candidate
    ensures Run(h) && IsPhase(h[|h| - 1].phase) && Step(h[|h| - 1], input).Go? && Breaks(h[|h| - 1], input.answer)
    ensures Transition(h[|h| - 1], Step(h[|h| - 1], input).patch) == None
  {
    hide Run, RunValid, Valid, Transition, StepOpening, StepCandidate, StepRollback, StepCleanup, NormalPresence;
    var first := [Initial(operationId, fingerprint)];
    FirstIsRun(operationId, fingerprint);
    h := ReachesPhase(first, SWAP_INTENT);
    LastFacts(h);
    var a := h[|h| - 1];
    SwapIsAsked(a);
    var pointer := a.quiet.pause.value.pointer;
    input := Input(None, DidSwap(Swap(
      a.operationId, pointer, pointer + 1, a.fingerprint.current, a.fingerprint.candidate, a.fingerprint.candidate,
      a.fingerprint.current.manifest + 1, 0, 0)));
    ThrowsExactly(a, input);
  }

  lemma FirstIsRun(operationId: nat, fingerprint: Fingerprint)
    requires fingerprint.current != fingerprint.candidate
    ensures Run([Initial(operationId, fingerprint)])
  {
  }

  lemma SwapIsAsked(a: Journal)
    requires RunValid(a) && a.phase == SWAP_INTENT
    ensures a.quiet.pause.Some? && a.quiet.final.Some?
  {
    Presence(a);
  }
}
