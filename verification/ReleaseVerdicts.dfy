/**
 What a step of a release comes to, told without the step: an answer is taken exactly when the journal that
 holds it satisfies the relations, a rejection ends as its phase says, and anything else is left to recovery or
 blocks the release.
 */
module ReleaseVerdicts {
  import opened Common
  import opened ReleaseJournal
  import opened ReleaseMachine
  import opened ReleaseRuns
  import opened ReleaseReach

  // ---------------------------------------------------------------------------
  // Answers that are taken
  // ---------------------------------------------------------------------------

  /** Nobody is asked anything in this phase. */
  predicate AsksNobody(phase: Phase) { NoReceipt(phase) && phase != ROLLBACK_STOP_CANDIDATE_INTENT }

  /** What must be seen of the installed and the running release in the phases that look. */
  predicate Observed(j: Journal, o: Option<Observation>) {
    var previous, candidate := j.fingerprint.current, j.fingerprint.candidate;
    if j.phase == CURRENT_REVALIDATE_INTENT then
      && o.Some? && o.value.installed == Some(previous)
      && o.value.runtime.Running? && o.value.runtime.identity == previous && !o.value.runtime.maintenance
    else if j.phase == STOP_RECEIPT_CONFIRMED then
      o.Some? && o.value.installed == Some(previous) && o.value.runtime == StoppedRuntime
    else if j.phase == SWAPPED then
      o.Some? && o.value.installed == Some(candidate) && o.value.runtime == StoppedRuntime
    else if j.phase == ROLLBACK_RESTORE_INTENT then
      o.Some? && o.value.installed in {Some(previous), Some(candidate)} && o.value.runtime == StoppedRuntime
    else if j.phase == ROLLBACK_START_PREVIOUS_INTENT then
      && o.Some? && o.value.installed == Some(previous)
      && (o.value.runtime == StoppedRuntime ||
            (o.value.runtime.Running? && o.value.runtime.identity == previous && o.value.runtime.maintenance))
    else true
  }

  /** The journal with the answer in its place, if the phase asks for an answer of this kind. */
  function Taken(a: Journal, input: Input): Option<Journal>
    requires !IsTerminal(a.phase)
  {
    var b, p, answer := a.(revision := a.revision + 1, phase := Onward(a.phase)), a.phase, input.answer;
    if AsksNobody(p) then Some(b)
    else if p == CLEANUP_CONFIRMED then
      Some(b.(failure := a.failure.(terminalCode := a.failure.cleanupCause, failedAt := a.failure.cleanupFailedAt)))
    else if p == CURRENT_REVALIDATE_INTENT then
      if input.observation.Some? && input.observation.value.runtime.Running? then
        var o := input.observation.value;
        Some(b.(opening := a.opening.(observed := Some(Current(a.fingerprint.current, o.runtime.endpoint, o.at)))))
      else None
    else if p == AUTHORIZE_BRIDGES_INTENT then
      Some(b.(trial := a.trial.(authorization := Authorize(a, Candidate))))
    else if p == ROLLBACK_AUTHORIZE_BRIDGES_INTENT then
      Some(b.(rollback := a.rollback.(authorization := Authorize(a, Previous))))
    else
      match answer
      case Probed(probe) =>
        if p == CANDIDATE_PROBE_INTENT then Some(b.(opening := a.opening.(probe := Some(probe)))) else None
      case Snapshotted(snapshot, database) =>
        if p == PREFLIGHT_SNAPSHOT_INTENT
        then Some(b.(opening := a.opening.(preflight := Some(snapshot), preflightDatabase := Some(database))))
        else None
      case Entered(maintenance) =>
        if p == ENTER_MAINTENANCE_INTENT then Some(b.(quiet := a.quiet.(maintenance := Some(maintenance)))) else None
      case Paused(pause) =>
        if p == PAUSE_SUPERVISORS_INTENT then Some(b.(quiet := a.quiet.(pause := Some(pause)))) else None
      case HubStopped(stop) =>
        if p == STOP_INTENT then Some(b.(quiet := a.quiet.(stop := Some(stop)))) else None
      case FinallySnapshotted(final, database, security) =>
        if p == FINAL_SNAPSHOT_INTENT
        then Some(b.(quiet := a.quiet.(
          final := Some(final), finalDatabase := Some(database), finalSecurity := Some(security))))
        else None
      case DidSwap(swap) => if p == SWAP_INTENT then Some(b.(quiet := a.quiet.(swap := Some(swap)))) else None
      case Started(start) =>
        if p == START_CANDIDATE_INTENT then Some(b.(trial := a.trial.(start := Some(start))))
        else if p == ROLLBACK_START_PREVIOUS_INTENT then Some(b.(rollback := a.rollback.(start := Some(start))))
        else None
      case Healthy(health) =>
        if p == VERIFY_CANDIDATE_INTENT then Some(b.(trial := a.trial.(health := Some(health))))
        else if p == ROLLBACK_VERIFY_PREVIOUS_INTENT then Some(b.(rollback := a.rollback.(health := Some(health))))
        else None
      case Migrated(migration) =>
        if p == MIGRATE_CANDIDATE_INTENT then Some(b.(trial := a.trial.(migration := Some(migration)))) else None
      case Resumed(resume) =>
        if p == RESUME_BRIDGES_INTENT then Some(b.(trial := a.trial.(resume := Some(resume))))
        else if p == ROLLBACK_RESUME_BRIDGES_INTENT then Some(b.(rollback := a.rollback.(resume := Some(resume))))
        else None
      case DidCommit(commit) =>
        if p == COMMIT_MAINTENANCE_INTENT then Some(b.(trial := a.trial.(commit := Some(commit))))
        else if p == ROLLBACK_COMMIT_MAINTENANCE_INTENT then Some(b.(rollback := a.rollback.(commit := Some(commit))))
        else None
      case CandidateDown => if p == ROLLBACK_STOP_CANDIDATE_INTENT then Some(b) else None
      case Restored(restore) =>
        if p == ROLLBACK_RESTORE_INTENT then Some(b.(rollback := a.rollback.(restore := Some(restore)))) else None
      case Cleaned(cleanup) =>
        if p == CLEANUP_INTENT then Some(b.(failure := a.failure.(cleanup := Some(cleanup)))) else None
      case _ => None
  }

  /** What the relations leave open: the receipts of a pause and a commit name this step, a cleanup the pause. */
  predicate NamesStep(a: Journal, answer: Answer) {
    match answer
    case Paused(pause) => a.phase == PAUSE_SUPERVISORS_INTENT ==> pause.atomicRevision == a.revision
    case DidCommit(commit) =>
      a.phase in {COMMIT_MAINTENANCE_INTENT, ROLLBACK_COMMIT_MAINTENANCE_INTENT} ==>
        commit.atomicRevision == a.revision
    case Cleaned(c) =>
      a.phase == CLEANUP_INTENT ==>
        c.pauseId == (if a.quiet.pause.Some? then Some(a.quiet.pause.value.id) else None)
    case _ => true
  }

  function Later(a: nat, b: nat): nat { if a < b then b else a }

  /** The answer, but for what the step does not look at: instants, paused builds and pointer, artifacts, counts. */
  function Mended(a: Journal, answer: Answer): Answer {
    match answer
    case Snapshotted(snapshot, database) =>
      if a.opening.probe.None? then answer
      else Snapshotted(snapshot.(createdAt := Later(snapshot.createdAt, a.opening.probe.value.probedAt)), database)
    case Entered(m) =>
      if a.opening.observed.None? then answer
      else
        var at := a.opening.observed.value.observedAt;
        Entered(m.(enteredAt := Later(m.enteredAt, at), securityAt := Later(m.securityAt, at)))
    case Paused(pause) =>
      if a.quiet.maintenance.None? then answer
      else
        var m, subjects := a.quiet.maintenance.value, pause.subjects;
        Paused(pause.(pointer := m.pointer, pausedAt := Later(pause.pausedAt, m.enteredAt),
          subjects := seq(|subjects|, i requires 0 <= i < |subjects| => subjects[i].(build := a.fingerprint.current))))
    case HubStopped(stop) =>
      if a.quiet.maintenance.None? then answer
      else HubStopped(stop.(stoppedAt := Later(stop.stoppedAt, a.quiet.maintenance.value.enteredAt)))
    case FinallySnapshotted(final, database, security) =>
      if a.quiet.maintenance.None? || a.quiet.stop.None? then answer
      else
        var m := a.quiet.maintenance.value;
        FinallySnapshotted(
          final.(createdAt := Later(final.createdAt, a.quiet.stop.value.stoppedAt)), database,
          security.(epoch := Later(security.epoch, m.epoch), events := Later(security.events, m.events)))
    case DidSwap(swap) =>
      var f := a.fingerprint;
      DidSwap(swap.(previousArtifact := f.current.manifest, candidateArtifact := f.candidate.manifest,
                    installedArtifact := f.candidate.manifest))
    case Restored(restore) =>
      if a.quiet.finalDatabase.None? then answer
      else Restored(restore.(databaseIdentity := a.quiet.finalDatabase.value.databaseIdentity))
    case _ => answer
  }

  /** The answer fits the phase: but for what the step does not look at, the journal that holds it is valid. */
  predicate Answers(a: Journal, input: Input)
    requires !IsTerminal(a.phase)
  {
    && Observed(a, input.observation) && NamesStep(a, input.answer)
    && var b := Taken(a, Input(input.observation, Mended(a, input.answer)));
       b.Some? && Valid(b.value)
  }

  predicate GoesOn(a: Journal, input: Input) {
    && IsPhase(a.phase) && !IsTerminal(a.phase)
    && Step(a, input).Go? && Step(a, input).patch.phase == Onward(a.phase)
  }

  /** A step goes on exactly with an answer that fits, and what it writes is the journal that holds the answer. */
  lemma GoesOnExactly(a: Journal, input: Input)
    requires RunValid(a) && !IsTerminal(a.phase)
    ensures GoesOn(a, input) <==> Answers(a, input)
    ensures GoesOn(a, input) ==>
      Transition(a, Step(a, input).patch) == if Breaks(a, input.answer) then None else Taken(a, input)
  {
    hide RunValid, Valid, Step, Transition, Taken, NamesStep, Observed, Breaks, Mended;
    var mended := Input(input.observation, Mended(a, input.answer));
    RunIsServed(a);
    MendedGoesOn(a, input);
    if GoesOn(a, input) {
      ThrowsExactly(a, input);
      ThrowsExactly(a, mended);
      WritesTaken(a, input);
      WritesTaken(a, mended);
      WrittenIsValid(a, Step(a, mended).patch);
    }
    if Answers(a, input) {
      RunIsValid(a);
      Pointers(a);
      SoundGoesOn(a, mended);
    }
  }

  lemma WrittenIsValid(a: Journal, patch: Patch)
    ensures Transition(a, patch).Some? ==> Valid(Transition(a, patch).value)
  {
    hide Valid;
  }

  lemma MendedGoesOn(a: Journal, input: Input)
    requires Served(a)
    ensures var mended := Input(input.observation, Mended(a, input.answer));
      && (GoesOn(a, input) <==> GoesOn(a, mended)) && !Breaks(a, mended.answer)
      && (NamesStep(a, input.answer) <==> NamesStep(a, mended.answer))
  {
    hide StepOpening, StepQuiescing, StepCandidate, StepRollback, StepCleanup, Mended, NamesStep, Breaks;
    MendedAnswer(a, input.answer);
    match a.phase {
      case Normal(i) =>
        if i < MAINTENANCE_ENTERED.index {
          MendedOpening(a, input);
        } else if i < SWAPPED.index {
          MendedQuiescing(a, input);
        } else {
          MendedCandidate(a, input);
        }
      case RollingBack(_) => MendedRollback(a, input);
      case Cleaning(_) => MendedCleanup(a, input);
      case _ =>
    }
  }

  lemma MendedAnswer(a: Journal, answer: Answer)
    ensures !Breaks(a, Mended(a, answer)) && (NamesStep(a, answer) <==> NamesStep(a, Mended(a, answer)))
  {
  }

  lemma MendedOpening(a: Journal, input: Input)
    requires IsNormal(a.phase) && a.phase.index < MAINTENANCE_ENTERED.index && NormalPresence(a, a.phase)
    ensures IsOnward(a, StepOpening(a, input)) <==>
      IsOnward(a, StepOpening(a, Input(input.observation, Mended(a, input.answer))))
  {
  }

  lemma MendedQuiescing(a: Journal, input: Input)
    requires IsNormal(a.phase) && MAINTENANCE_ENTERED.index <= a.phase.index < SWAPPED.index
    requires NormalPresence(a, a.phase)
    ensures IsOnward(a, StepQuiescing(a, input)) <==>
      IsOnward(a, StepQuiescing(a, Input(input.observation, Mended(a, input.answer))))
  {
    hide PauseWellFormed;
    if input.answer.Paused? {
      SameKeys(input.answer.pause, Mended(a, input.answer).pause);
    }
  }

  lemma MendedCandidate(a: Journal, input: Input)
    requires IsNormal(a.phase) && SWAPPED.index <= a.phase.index < COMPLETED.index
    ensures IsOnward(a, StepCandidate(a, input)) <==>
      IsOnward(a, StepCandidate(a, Input(input.observation, Mended(a, input.answer))))
  {
    hide HealthAccepted, ResumeAccepted, CommitAccepted, Authorize;
  }

  lemma MendedRollback(a: Journal, input: Input)
    requires IsRollback(a.phase) && a.phase != ROLLED_BACK && RollbackPresence(a, a.phase)
    ensures IsOnward(a, StepRollback(a, input)) <==>
      IsOnward(a, StepRollback(a, Input(input.observation, Mended(a, input.answer))))
  {
    hide HealthAccepted, ResumeAccepted, CommitAccepted, Authorize;
  }

  lemma MendedCleanup(a: Journal, input: Input)
    requires a.phase == CLEANUP_INTENT || a.phase == CLEANUP_CONFIRMED
    ensures IsOnward(a, StepCleanup(a, input)) <==>
      IsOnward(a, StepCleanup(a, Input(input.observation, Mended(a, input.answer))))
  {
  }

  lemma SameKeys(p: Pause, q: Pause)
    requires |p.subjects| == |q.subjects|
    requires forall i :: 0 <= i < |p.subjects| ==> p.subjects[i].key == q.subjects[i].key
    ensures PauseWellFormed(p) <==> PauseWellFormed(q)
  {
  }

  // ---------------------------------------------------------------------------
  // Stage by stage
  // ---------------------------------------------------------------------------

  lemma WritesTaken(a: Journal, input: Input)
    requires Served(a) && GoesOn(a, input)
    ensures Observed(a, input.observation) && NamesStep(a, input.answer)
    ensures Taken(a, input).Some?
    ensures var next := Transition(a, Step(a, input).patch); next.Some? ==> Taken(a, input) == next
  {
    hide StepOpening, StepQuiescing, StepCandidate, StepRollback, StepCleanup, Transition, Taken, Observed, NamesStep;
    match a.phase {
      case Normal(i) =>
        if i < MAINTENANCE_ENTERED.index {
          WritesOpening(a, input);
        } else if i < SWAPPED.index {
          WritesQuiescing(a, input);
        } else {
          WritesCandidate(a, input);
        }
      case RollingBack(_) => WritesRollback(a, input);
      case Cleaning(_) => WritesCleanup(a, input);
      case _ =>
    }
  }

  /** The action writes the journal that holds the answer. */
  predicate Writes(a: Journal, input: Input, action: Action)
    requires !IsTerminal(a.phase)
  {
    action.Go? && action.patch.phase == Onward(a.phase) ==>
      && Observed(a, input.observation) && NamesStep(a, input.answer) && Taken(a, input).Some?
      && (Transition(a, action.patch).Some? ==> Taken(a, input) == Transition(a, action.patch))
  }

  lemma WritesOpening(a: Journal, input: Input)
    requires IsNormal(a.phase) && a.phase.index < MAINTENANCE_ENTERED.index
    ensures Writes(a, input, StepOpening(a, input))
  {
    hide Valid;
  }

  lemma WritesQuiescing(a: Journal, input: Input)
    requires IsNormal(a.phase) && MAINTENANCE_ENTERED.index <= a.phase.index < SWAPPED.index
    ensures Writes(a, input, StepQuiescing(a, input))
  {
    hide Valid, PauseWellFormed, SwapWellFormed;
  }

  lemma WritesCandidate(a: Journal, input: Input)
    requires IsNormal(a.phase) && SWAPPED.index <= a.phase.index < COMPLETED.index
    ensures Writes(a, input, StepCandidate(a, input))
  {
    hide Valid, HealthAccepted, ResumeAccepted, Authorize;
  }

  lemma WritesRollback(a: Journal, input: Input)
    requires IsRollback(a.phase) && a.phase != ROLLED_BACK
    ensures Writes(a, input, StepRollback(a, input))
  {
    hide Valid, HealthAccepted, ResumeAccepted, Authorize, RestoreAccepted;
  }

  lemma WritesCleanup(a: Journal, input: Input)
    requires a.phase == CLEANUP_INTENT || a.phase == CLEANUP_CONFIRMED
    ensures Writes(a, input, StepCleanup(a, input))
  {
    hide Valid;
  }

  lemma SoundGoesOn(a: Journal, input: Input)
    requires Served(a) && Observed(a, input.observation) && NamesStep(a, input.answer)
    requires Taken(a, input).Some? && Valid(Taken(a, input).value)
    requires a.quiet.swap.Some? ==> a.quiet.swap.value.pointer > 0
    requires a.rollback.restore.Some? ==> a.rollback.restore.value.pointer > 0
    ensures GoesOn(a, input)
  {
    hide StepOpening, StepQuiescing, StepCandidate, StepRollback, StepCleanup, Taken, Observed, NamesStep, Valid,
         NormalPresence, RollbackPresence;
    ValidIsRelated(Taken(a, input).value);
    match a.phase {
      case Normal(i) =>
        if i < MAINTENANCE_ENTERED.index {
          SoundOpening(a, input);
        } else if i < SWAPPED.index {
          SoundQuiescing(a, input);
        } else {
          SoundCandidate(a, input);
        }
      case RollingBack(_) => SoundRollback(a, input);
      case Cleaning(_) => SoundCleanup(a, input);
      case _ =>
    }
  }

  lemma ValidIsRelated(j: Journal)
    requires Valid(j)
    ensures ReceiptRelationsValid(j)
  {
    hide ReceiptRelationsValid, NormalPresence, RollbackPresence;
  }

  predicate Sound(a: Journal, input: Input)
    requires !IsTerminal(a.phase)
  {
    && Observed(a, input.observation) && NamesStep(a, input.answer)
    && Taken(a, input).Some? && ReceiptRelationsValid(Taken(a, input).value)
  }

  predicate IsOnward(a: Journal, action: Action)
    requires !IsTerminal(a.phase)
  {
    action.Go? && action.patch.phase == Onward(a.phase)
  }

  lemma SoundOpening(a: Journal, input: Input)
    requires IsNormal(a.phase) && a.phase.index < MAINTENANCE_ENTERED.index && NormalPresence(a, a.phase)
    requires Sound(a, input)
    ensures IsOnward(a, StepOpening(a, input))
  {
    hide EffectsMatch, FinalRelated, RuntimeRelated, CommitRelated, AuthorizationRelated, ResumeRelated, RestoreRelated,
         PauseRelated, StopRelated, SwapRelated, MigrationRelated, CleanupRelated;
  }

  lemma SoundQuiescing(a: Journal, input: Input)
    requires IsNormal(a.phase) && MAINTENANCE_ENTERED.index <= a.phase.index < SWAPPED.index
    requires NormalPresence(a, a.phase) && Sound(a, input)
    ensures IsOnward(a, StepQuiescing(a, input))
  {
    hide StepQuiescing, NormalPresence, Sound;
    if a.phase.index < STOP_RECEIPT_CONFIRMED.index {
      SoundStopping(a, input);
    } else {
      SoundSwapping(a, input);
    }
  }

  lemma SoundStopping(a: Journal, input: Input)
    requires IsNormal(a.phase) && MAINTENANCE_ENTERED.index <= a.phase.index < STOP_RECEIPT_CONFIRMED.index
    requires NormalPresence(a, a.phase) && Sound(a, input)
    ensures IsOnward(a, StepQuiescing(a, input))
  {
    hide EffectsMatch, RuntimeRelated, CommitRelated, AuthorizationRelated, ResumeRelated, RestoreRelated,
         MigrationRelated, CleanupRelated, PauseWellFormed, FinalRelated, SwapRelated;
  }

  lemma SoundSwapping(a: Journal, input: Input)
    requires IsNormal(a.phase) && STOP_RECEIPT_CONFIRMED.index <= a.phase.index < SWAPPED.index
    requires NormalPresence(a, a.phase) && Sound(a, input)
    ensures IsOnward(a, StepQuiescing(a, input))
  {
    hide EffectsMatch, RuntimeRelated, CommitRelated, AuthorizationRelated, ResumeRelated, RestoreRelated,
         MigrationRelated, CleanupRelated, PauseWellFormed, SourceRelated, PauseRelated, StopRelated;
  }

  lemma SoundCandidate(a: Journal, input: Input)
    requires IsNormal(a.phase) && SWAPPED.index <= a.phase.index < COMPLETED.index
    requires NormalPresence(a, a.phase) && Sound(a, input)
    requires a.quiet.swap.Some? ==> a.quiet.swap.value.pointer > 0
    ensures IsOnward(a, StepCandidate(a, input))
  {
    hide StepCandidate, NormalPresence, Sound;
    if a.phase.index < AUTHORIZE_BRIDGES_INTENT.index {
      SoundTrial(a, input);
    } else {
      SoundBridges(a, input);
    }
  }

  lemma SoundTrial(a: Journal, input: Input)
    requires IsNormal(a.phase) && SWAPPED.index <= a.phase.index < AUTHORIZE_BRIDGES_INTENT.index
    requires NormalPresence(a, a.phase) && Sound(a, input)
    ensures IsOnward(a, StepCandidate(a, input))
  {
    hide SourceRelated, PauseRelated, StopRelated, FinalRelated, SwapRelated, CleanupRelated, RestoreRelated,
         EffectsMatch, AuthorizationRelated, ResumeRelated, CommitRelated;
  }

  lemma SoundBridges(a: Journal, input: Input)
    requires IsNormal(a.phase) && AUTHORIZE_BRIDGES_INTENT.index <= a.phase.index < COMPLETED.index
    requires NormalPresence(a, a.phase) && Sound(a, input)
    requires a.quiet.swap.Some? ==> a.quiet.swap.value.pointer > 0
    ensures IsOnward(a, StepCandidate(a, input))
  {
    hide SourceRelated, PauseRelated, StopRelated, FinalRelated, SwapRelated, CleanupRelated, RestoreRelated,
         EffectsMatch, AuthorizationRelated, RuntimeRelated, MigrationRelated;
    EffectsStayMatched(Taken(a, input).value, a);
  }

  lemma SoundRollback(a: Journal, input: Input)
    requires IsRollback(a.phase) && a.phase != ROLLED_BACK
    requires RollbackPresence(a, a.phase) && Sound(a, input)
    requires a.rollback.restore.Some? ==> a.rollback.restore.value.pointer > 0
    ensures IsOnward(a, StepRollback(a, input))
  {
    hide StepRollback, RollbackPresence, Sound;
    if a.phase.index < ROLLBACK_START_PREVIOUS_INTENT.index {
      SoundRestore(a, input);
    } else if a.phase.index < ROLLBACK_PREVIOUS_HEALTHY.index {
      SoundPrevious(a, input);
    } else {
      SoundReturn(a, input);
    }
  }

  lemma SoundRestore(a: Journal, input: Input)
    requires IsRollback(a.phase) && a.phase.index < ROLLBACK_START_PREVIOUS_INTENT.index
    requires RollbackPresence(a, a.phase) && Sound(a, input)
    ensures IsOnward(a, StepRollback(a, input))
  {
    hide SourceRelated, PauseRelated, StopRelated, FinalRelated, SwapRelated, CleanupRelated, MigrationRelated,
         EffectsMatch, AuthorizationRelated, ResumeRelated, CommitRelated, RuntimeRelated;
  }

  lemma SoundPrevious(a: Journal, input: Input)
    requires IsRollback(a.phase)
    requires ROLLBACK_START_PREVIOUS_INTENT.index <= a.phase.index < ROLLBACK_PREVIOUS_HEALTHY.index
    requires RollbackPresence(a, a.phase) && Sound(a, input)
    ensures IsOnward(a, StepRollback(a, input))
  {
    hide SourceRelated, PauseRelated, StopRelated, FinalRelated, SwapRelated, CleanupRelated, MigrationRelated,
         EffectsMatch, AuthorizationRelated, ResumeRelated, CommitRelated, RestoreRelated;
  }

  lemma SoundReturn(a: Journal, input: Input)
    requires IsRollback(a.phase) && ROLLBACK_PREVIOUS_HEALTHY.index <= a.phase.index && a.phase != ROLLED_BACK
    requires RollbackPresence(a, a.phase) && Sound(a, input)
    requires a.rollback.restore.Some? ==> a.rollback.restore.value.pointer > 0
    ensures IsOnward(a, StepRollback(a, input))
  {
    hide SourceRelated, PauseRelated, StopRelated, FinalRelated, SwapRelated, CleanupRelated, MigrationRelated,
         EffectsMatch, AuthorizationRelated, RuntimeRelated, RestoreRelated;
    EffectsStayMatched(Taken(a, input).value, a);
  }

  lemma SoundCleanup(a: Journal, input: Input)
    requires a.phase == CLEANUP_INTENT || a.phase == CLEANUP_CONFIRMED
    requires Served(a) && Sound(a, input)
    ensures IsOnward(a, StepCleanup(a, input))
  {
    hide SourceRelated, PauseRelated, StopRelated, FinalRelated, EffectsMatch;
  }

  // ---------------------------------------------------------------------------
  // Rejections
  // ---------------------------------------------------------------------------

  /** The phases whose rejection blocks the release at once. */
  function BlockCodeAt(phase: Phase): Option<Code> {
    if phase == CANDIDATE_PROBE_INTENT then Some(ProbeFailed)
    else if phase == PREFLIGHT_SNAPSHOT_INTENT then Some(PreflightFailed)
    else if phase == ENTER_MAINTENANCE_INTENT then Some(MaintenanceEnterFailed)
    else None
  }

  function BlockedWith(a: Journal, code: Code): Journal {
    a.(revision := a.revision + 1, phase := Blocked,
       failure := a.failure.(terminalCode := Some(code), failedAt := Some(a.phase)))
  }

  /** The journal after the adapter has refused what the phase asked of it. */
  function AfterRejection(a: Journal): Option<Journal> {
    var b, p, f := a.(revision := a.revision + 1), a.phase, a.failure;
    if RollbackCauseAt(p).Some? then
      Some(b.(phase := ROLLBACK_STOP_CANDIDATE_INTENT, failure := f.(rollbackCause := RollbackCauseAt(p))))
    else if CleanupCauseAt(p).Some? then
      Some(b.(phase := CLEANUP_INTENT, failure := f.(cleanupCause := CleanupCauseAt(p), cleanupFailedAt := Some(p))))
    else if BlockCodeAt(p).Some? then Some(BlockedWith(a, BlockCodeAt(p).value))
    else if RollbackFailureAt(p).Some? then
      Some(b.(phase := RollbackFailed, failure := f.(terminalCode := RollbackFailureAt(p), failedAt := Some(p))))
    else None
  }

  predicate Rejects(a: Journal, input: Input) {
    input.answer.Rejected? && AfterRejection(a).Some? && Observed(a, input.observation)
  }

  /** The action writes `b`, and ends the call exactly if `b` is terminal. */
  predicate Leads(a: Journal, action: Action, b: Journal) {
    && PatchOf(action).Some? && PatchOf(action).value.InFailure?
    && Apply(a, PatchOf(action).value).(revision := a.revision + 1) == b
    && (action.End? <==> IsTerminal(b.phase))
  }

  /**
   A rejection is written as its phase says: a rollback after the swap, a cleanup in maintenance before it, a block
   outside, and in a rollback the end of it.
   */
  lemma RejectionExactly(a: Journal, input: Input)
    requires RunValid(a) && Rejects(a, input)
    ensures IsPhase(a.phase) && !IsTerminal(a.phase)
    ensures PatchOf(Step(a, input)).Some?
    ensures Transition(a, PatchOf(Step(a, input)).value) == AfterRejection(a)
    ensures Step(a, input).End? <==> IsTerminal(AfterRejection(a).value.phase)
    ensures RunValid(AfterRejection(a).value) && Rank(a.phase) < Rank(AfterRejection(a).value.phase)
  {
    hide RunValid, Valid, Rejects, Step, Fits, NormalPresence, RollbackPresence, Leads;
    RejectablePhase(a, input);
    RunIsServed(a);
    RejectionLeads(a, input);
    LeadsWrites(a, Step(a, input), AfterRejection(a).value);
    StepFits(a, input);
    var patch := PatchOf(Step(a, input)).value;
    RunIsValid(a);
    FailureWrites(a, patch);
    PatchAdvances(a, patch, AfterRejection(a).value);
    PatchKeepsRunValid(a, patch, AfterRejection(a).value);
  }

  lemma RejectablePhase(a: Journal, input: Input)
    requires RunValid(a) && Rejects(a, input)
    ensures IsPhase(a.phase) && !IsTerminal(a.phase)
    ensures AfterRejection(a).Some? && AfterRejection(a).value.phase != CLEANUP_CONFIRMED
  {
    hide ReceiptRelationsValid, NormalPresence, RollbackPresence;
  }

  lemma LeadsWrites(a: Journal, action: Action, b: Journal)
    requires Leads(a, action, b)
    ensures PatchOf(action).Some? && PatchOf(action).value.InFailure? && PatchOf(action).value.phase == b.phase
    ensures Transition(a, PatchOf(action).value).Some? ==> Transition(a, PatchOf(action).value) == Some(b)
    ensures action.End? <==> IsTerminal(b.phase)
  {
    hide Valid;
  }

  lemma RejectionLeads(a: Journal, input: Input)
    requires Served(a) && Rejects(a, input)
    ensures Leads(a, Step(a, input), AfterRejection(a).value)
  {
    hide StepOpening, StepQuiescing, StepCandidate, StepRollback, StepCleanup, NormalPresence, RollbackPresence;
    match a.phase {
      case Normal(i) =>
        if i < MAINTENANCE_ENTERED.index {
          RejectedOpening(a, input);
        } else if i < SWAPPED.index {
          RejectedQuiescing(a, input);
        } else {
          RejectedCandidate(a, input);
        }
      case RollingBack(_) => RejectedRollback(a, input);
      case _ =>
    }
  }

  lemma RejectedOpening(a: Journal, input: Input)
    requires IsNormal(a.phase) && a.phase.index < MAINTENANCE_ENTERED.index && NormalPresence(a, a.phase)
    requires Rejects(a, input)
    ensures Leads(a, StepOpening(a, input), AfterRejection(a).value)
  {
  }

  lemma RejectedQuiescing(a: Journal, input: Input)
    requires IsNormal(a.phase) && MAINTENANCE_ENTERED.index <= a.phase.index < SWAPPED.index
    requires NormalPresence(a, a.phase) && Rejects(a, input)
    ensures Leads(a, StepQuiescing(a, input), AfterRejection(a).value)
  {
  }

  lemma RejectedCandidate(a: Journal, input: Input)
    requires IsNormal(a.phase) && SWAPPED.index <= a.phase.index < COMPLETED.index
    requires NormalPresence(a, a.phase) && Rejects(a, input)
    ensures Leads(a, StepCandidate(a, input), AfterRejection(a).value)
  {
    hide HealthAccepted, ResumeAccepted, CommitAccepted, Authorize;
  }

  lemma RejectedRollback(a: Journal, input: Input)
    requires IsRollback(a.phase) && a.phase != ROLLED_BACK && RollbackPresence(a, a.phase)
    requires Rejects(a, input)
    ensures Leads(a, StepRollback(a, input), AfterRejection(a).value)
  {
    hide HealthAccepted, ResumeAccepted, CommitAccepted, RestoreAccepted, Authorize, AfterRejection;
    RejectedPhases(a);
  }

  lemma RejectedPhases(a: Journal)
    requires a.phase.RollingBack? && AfterRejection(a).Some?
    ensures RollbackFailureAt(a.phase).Some?
    ensures AfterRejection(a).value == a.(revision := a.revision + 1, phase := RollbackFailed,
      failure := a.failure.(terminalCode := RollbackFailureAt(a.phase), failedAt := Some(a.phase)))
  {
  }

  // ---------------------------------------------------------------------------
  // Everything else
  // ---------------------------------------------------------------------------

  /** The phases in which an answer, or an observation, that does not match blocks the release. */
  function MismatchAt(phase: Phase): Option<Code> {
    if phase == CANDIDATE_PROBE_INTENT then Some(CandidateMismatch)
    else if phase == PREFLIGHT_SNAPSHOT_INTENT then Some(PreflightManifestInvalid)
    else if phase == CURRENT_REVALIDATE_INTENT then Some(CurrentChanged)
    else if phase == STOP_RECEIPT_CONFIRMED then Some(StopFailed)
    else if phase == FINAL_SNAPSHOT_INTENT then Some(FinalSnapshotManifestInvalid)
    else None
  }

  /** There is something to compare: the releases are seen, or the adapter has said something definite. */
  predicate Definite(a: Journal, input: Input) {
    if a.phase in {CURRENT_REVALIDATE_INTENT, STOP_RECEIPT_CONFIRMED} then
      && input.observation.Some? && input.observation.value.installed.Some?
      && input.observation.value.runtime != UnknownRuntime
    else !input.answer.Unavailable? && !input.answer.Ambiguous?
  }

  predicate Mismatches(a: Journal, input: Input) { MismatchAt(a.phase).Some? && Definite(a, input) }

  /** What recovery is asked for. */
  function AskAt(phase: Phase, rejected: bool): Code {
    match phase
    case Normal(i) =>
      if i == CANDIDATE_PROBE_INTENT.index then ProbeFailed
      else if i == PREFLIGHT_SNAPSHOT_INTENT.index then PreflightFailed
      else if i == CURRENT_REVALIDATE_INTENT.index then CurrentObservationFailed
      else if i == ENTER_MAINTENANCE_INTENT.index then MaintenanceEnterAmbiguous
      else if i == PAUSE_SUPERVISORS_INTENT.index then PauseAmbiguous
      else if i == STOP_INTENT.index || i == STOP_RECEIPT_CONFIRMED.index then StopAmbiguous
      else if i == FINAL_SNAPSHOT_INTENT.index then FinalSnapshotFailed
      else if i == SWAP_INTENT.index || i == SWAPPED.index then SwapAmbiguous
      else if i == START_CANDIDATE_INTENT.index then CandidateStartAmbiguous
      else if i == VERIFY_CANDIDATE_INTENT.index then CandidateHealthFailed
      else if i == MIGRATE_CANDIDATE_INTENT.index then MigrationAmbiguous
      else if i == RESUME_BRIDGES_INTENT.index then ResumeAmbiguous
      else CommitAmbiguous
    case RollingBack(i) =>
      if i == ROLLBACK_STOP_CANDIDATE_INTENT.index then RollbackStopAmbiguous
      else if i == ROLLBACK_RESTORE_INTENT.index then RollbackRestoreAmbiguous
      else if i == ROLLBACK_START_PREVIOUS_INTENT.index then RollbackStartAmbiguous
      else if i == ROLLBACK_VERIFY_PREVIOUS_INTENT.index then RollbackHealthAmbiguous
      else if i == ROLLBACK_RESUME_BRIDGES_INTENT.index then RollbackResumeAmbiguous
      else RollbackCommitAmbiguous
    case _ => if rejected then CleanupFailed else CleanupAmbiguous
  }

  /** An answer that neither fits nor rejects blocks where it mismatches, and elsewhere asks for recovery. */
  lemma RefusedExactly(a: Journal, input: Input)
    requires RunValid(a) && !IsTerminal(a.phase) && !Answers(a, input) && !Rejects(a, input)
    ensures IsPhase(a.phase)
    ensures if Mismatches(a, input)
            then
              && Step(a, input).End?
              && Transition(a, Step(a, input).patch) == Some(BlockedWith(a, MismatchAt(a.phase).value))
            else Step(a, input) == Recover(AskAt(a.phase, input.answer.Rejected?))
  {
    hide RunValid, Valid, Answers, Rejects, Step, Fits, NormalPresence, RollbackPresence, Leads, Definite;
    RunIsServed(a);
    GoesOnExactly(a, input);
    Pointers(a);
    RefusedLeads(a, input);
    if Mismatches(a, input) {
      var b := BlockedWith(a, MismatchAt(a.phase).value);
      LeadsWrites(a, Step(a, input), b);
      StepFits(a, input);
      RunIsValid(a);
      FailureWrites(a, PatchOf(Step(a, input)).value);
    }
  }

  /** A step that neither goes on nor is rejected. */
  predicate Refuses(a: Journal, input: Input, action: Action)
    requires !IsTerminal(a.phase)
  {
    !IsOnward(a, action) && !Rejects(a, input) ==>
      if Mismatches(a, input) then action.End? && Leads(a, action, BlockedWith(a, MismatchAt(a.phase).value))
      else action == Recover(AskAt(a.phase, input.answer.Rejected?))
  }

  lemma RefusedLeads(a: Journal, input: Input)
    requires Served(a)
    requires a.quiet.swap.Some? ==> a.quiet.swap.value.pointer > 0
    requires a.rollback.restore.Some? ==> a.rollback.restore.value.pointer > 0
    ensures Refuses(a, input, Step(a, input))
  {
    hide StepOpening, StepQuiescing, StepCandidate, StepRollback, StepCleanup, NormalPresence, RollbackPresence,
         Refuses;
    match a.phase {
      case Normal(i) =>
        if i < MAINTENANCE_ENTERED.index {
          RefusedOpening(a, input);
        } else if i < SWAPPED.index {
          RefusedQuiescing(a, input);
        } else {
          RefusedCandidate(a, input);
        }
      case RollingBack(_) => RefusedRollback(a, input);
      case Cleaning(_) => RefusedCleanup(a, input);
      case _ =>
    }
  }

  lemma RefusedOpening(a: Journal, input: Input)
    requires IsNormal(a.phase) && a.phase.index < MAINTENANCE_ENTERED.index && NormalPresence(a, a.phase)
    ensures Refuses(a, input, StepOpening(a, input))
  {
  }

  lemma RefusedQuiescing(a: Journal, input: Input)
    requires IsNormal(a.phase) && MAINTENANCE_ENTERED.index <= a.phase.index < SWAPPED.index
    requires NormalPresence(a, a.phase)
    ensures Refuses(a, input, StepQuiescing(a, input))
  {
    hide PauseWellFormed;
  }

  lemma RefusedCandidate(a: Journal, input: Input)
    requires IsNormal(a.phase) && SWAPPED.index <= a.phase.index < COMPLETED.index && NormalPresence(a, a.phase)
    requires a.quiet.swap.Some? ==> a.quiet.swap.value.pointer > 0
    ensures Refuses(a, input, StepCandidate(a, input))
  {
    hide HealthAccepted, ResumeAccepted, CommitAccepted;
  }

  lemma RefusedRollback(a: Journal, input: Input)
    requires IsRollback(a.phase) && a.phase != ROLLED_BACK && RollbackPresence(a, a.phase)
    requires a.rollback.restore.Some? ==> a.rollback.restore.value.pointer > 0
    ensures Refuses(a, input, StepRollback(a, input))
  {
    hide HealthAccepted, ResumeAccepted, CommitAccepted, RestoreAccepted;
  }

  lemma RefusedCleanup(a: Journal, input: Input)
    requires Served(a) && a.phase.Cleaning?
    ensures Refuses(a, input, StepCleanup(a, input))
  {
  }
}
