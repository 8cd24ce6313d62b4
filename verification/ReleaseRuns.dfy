/**
 What holds along every run of the release machine. A run is the chain of journals in the
 compare-and-swap store; each was written by some manager stepping from the one before.
 */
module ReleaseRuns {
  import opened Common
  import opened ReleaseJournal
  import opened ReleaseMachine

  predicate Kept<T(==)>(a: Option<T>, b: Option<T>) { a.Some? ==> b == a }

  predicate OpeningKept(a: Opening, b: Opening) {
    && Kept(a.probe, b.probe) && Kept(a.preflight, b.preflight)
    && Kept(a.preflightDatabase, b.preflightDatabase) && Kept(a.observed, b.observed)
  }

  predicate QuietKept(a: Quiet, b: Quiet) {
    && Kept(a.maintenance, b.maintenance) && Kept(a.pause, b.pause) && Kept(a.stop, b.stop) && Kept(a.final, b.final)
    && Kept(a.finalDatabase, b.finalDatabase) && Kept(a.finalSecurity, b.finalSecurity) && Kept(a.swap, b.swap)
  }

  predicate TrialKept(a: Trial, b: Trial) {
    && Kept(a.start, b.start) && Kept(a.health, b.health) && Kept(a.migration, b.migration)
    && Kept(a.authorization, b.authorization) && Kept(a.resume, b.resume) && Kept(a.commit, b.commit)
  }

  predicate RollbackKept(a: Rollback, b: Rollback) {
    && Kept(a.restore, b.restore) && Kept(a.start, b.start) && Kept(a.health, b.health)
    && Kept(a.authorization, b.authorization) && Kept(a.resume, b.resume) && Kept(a.commit, b.commit)
  }

  predicate FailureKept(a: Failure, b: Failure) {
    && Kept(a.cleanup, b.cleanup) && Kept(a.cleanupCause, b.cleanupCause) && Kept(a.cleanupFailedAt, b.cleanupFailedAt)
    && Kept(a.rollbackCause, b.rollbackCause) && Kept(a.terminalCode, b.terminalCode) && Kept(a.failedAt, b.failedAt)
  }

  /** Every receipt of `a` is still in `b`. */
  predicate ReceiptsKept(a: Journal, b: Journal) {
    && OpeningKept(a.opening, b.opening) && QuietKept(a.quiet, b.quiet) && TrialKept(a.trial, b.trial)
    && RollbackKept(a.rollback, b.rollback) && FailureKept(a.failure, b.failure)
  }

  /** What one write changes and what it leaves. */
  predicate Advances(a: Journal, b: Journal) {
    && b.operationId == a.operationId && b.fingerprint == a.fingerprint
    && b.revision == a.revision + 1
    && Rank(a.phase) < Rank(b.phase)
    && ReceiptsKept(a, b)
  }

  /** The phases whose rejection starts a cleanup, with the cause it records. */
  function CleanupCauseAt(phase: Phase): Option<Code> {
    if phase == PAUSE_SUPERVISORS_INTENT then Some(PauseFailed)
    else if phase == STOP_INTENT then Some(StopFailed)
    else if phase == FINAL_SNAPSHOT_INTENT then Some(FinalSnapshotFailed)
    else if phase == SWAP_INTENT then Some(SwapFailed)
    else None
  }

  /** The phases whose rejection starts a rollback, with the cause it records. */
  function RollbackCauseAt(phase: Phase): Option<Code> {
    if phase == START_CANDIDATE_INTENT then Some(CandidateStartFailed)
    else if phase == VERIFY_CANDIDATE_INTENT then Some(CandidateHealthFailed)
    else if phase == MIGRATE_CANDIDATE_INTENT then Some(MigrationFailed)
    else if phase == RESUME_BRIDGES_INTENT then Some(ResumeFailed)
    else if phase == COMMIT_MAINTENANCE_INTENT then Some(CommitFailed)
    else None
  }

  /** The phases that may block without a cleanup. */
  predicate BlocksDirectly(phase: Phase) {
    phase in {CANDIDATE_PROBE_INTENT, PREFLIGHT_SNAPSHOT_INTENT, CURRENT_REVALIDATE_INTENT, ENTER_MAINTENANCE_INTENT,
              STOP_RECEIPT_CONFIRMED, FINAL_SNAPSHOT_INTENT}
  }

  /** The phases of a rollback that may fail for good, with the code they report. */
  function RollbackFailureAt(phase: Phase): Option<Code> {
    if phase == ROLLBACK_STOP_CANDIDATE_INTENT then Some(RollbackStopFailed)
    else if phase == ROLLBACK_RESTORE_INTENT then Some(ReleaseJournal.RollbackRestoreFailed)
    else if phase == ROLLBACK_START_PREVIOUS_INTENT then Some(RollbackStartFailed)
    else if phase == ROLLBACK_VERIFY_PREVIOUS_INTENT then Some(RollbackHealthFailed)
    else if phase == ROLLBACK_RESUME_BRIDGES_INTENT then Some(RollbackResumeFailed)
    else if phase == ROLLBACK_COMMIT_MAINTENANCE_INTENT then Some(RollbackCommitFailed)
    else None
  }

  predicate Follows(p: Phase, q: Phase) {
    match p
    case Normal(i) => q == Normal(i + 1)
    case RollingBack(i) => q == RollingBack(i + 1)
    case _ => false
  }

  /** A patch replaces only missing receipts, and one that names a revision names the current one. */
  predicate Fits(a: Journal, patch: Patch) {
    match patch
    case Move(phase) => Follows(a.phase, phase)
    case InOpening(phase, opening) => Follows(a.phase, phase) && OpeningKept(a.opening, opening)
    case InQuiet(phase, quiet) =>
      && Follows(a.phase, phase) && QuietKept(a.quiet, quiet)
      && (quiet.pause != a.quiet.pause ==>
            a.phase == PAUSE_SUPERVISORS_INTENT && quiet.pause.Some? && quiet.pause.value.atomicRevision == a.revision)
    case InTrial(phase, trial) =>
      && Follows(a.phase, phase) && TrialKept(a.trial, trial)
      && (trial.authorization != a.trial.authorization ==>
            && a.phase == AUTHORIZE_BRIDGES_INTENT
            && trial.authorization.Some? && trial.authorization.value.atomicRevision == a.revision)
      && (trial.commit != a.trial.commit ==>
            && a.phase == COMMIT_MAINTENANCE_INTENT
            && trial.commit.Some? && trial.commit.value.atomicRevision == a.revision)
    case InRollback(phase, rollback) =>
      && Follows(a.phase, phase) && RollbackKept(a.rollback, rollback)
      && (rollback.authorization != a.rollback.authorization ==>
            && a.phase == ROLLBACK_AUTHORIZE_BRIDGES_INTENT
            && rollback.authorization.Some? && rollback.authorization.value.atomicRevision == a.revision)
      && (rollback.commit != a.rollback.commit ==>
            && a.phase == ROLLBACK_COMMIT_MAINTENANCE_INTENT
            && rollback.commit.Some? && rollback.commit.value.atomicRevision == a.revision)
    case InFailure(phase, failure) => Fails(a, phase, failure)
  }

  /** The ways a run leaves the normal path or the rollback. */
  predicate Fails(a: Journal, phase: Phase, failure: Failure) {
    || (&& phase == CLEANUP_INTENT && CleanupCauseAt(a.phase).Some?
        && failure == a.failure.(cleanupCause := CleanupCauseAt(a.phase), cleanupFailedAt := Some(a.phase)))
    || (&& phase == ROLLBACK_STOP_CANDIDATE_INTENT && RollbackCauseAt(a.phase).Some?
        && failure == a.failure.(rollbackCause := RollbackCauseAt(a.phase)))
    || (&& phase == Blocked && BlocksDirectly(a.phase) && failure.terminalCode.Some?
        && failure.terminalCode != Some(JournalCorrupt)
        && failure == a.failure.(terminalCode := failure.terminalCode, failedAt := Some(a.phase)))
    || (&& phase == RollbackFailed && RollbackFailureAt(a.phase).Some?
        && failure == a.failure.(terminalCode := RollbackFailureAt(a.phase), failedAt := Some(a.phase)))
    || (&& phase == CLEANUP_CONFIRMED && a.phase == CLEANUP_INTENT && failure.cleanup.Some?
        && failure == a.failure.(cleanup := failure.cleanup))
    || (&& phase == Blocked && a.phase == CLEANUP_CONFIRMED
        && failure == a.failure.(terminalCode := a.failure.cleanupCause, failedAt := a.failure.cleanupFailedAt))
  }

  /** The machine is not at a loss, and reports only after a terminal write. */
  predicate Reasonable(action: Action) {
    && action !in {Corrupt, Report, Recover(JournalCorrupt), Recover(LeaseLost)}
    && (action.End? ==> IsTerminal(action.patch.phase))
  }

  lemma OpeningStep(a: Journal, input: Input)
    requires IsNormal(a.phase) && a.phase.index < MAINTENANCE_ENTERED.index && NormalPresence(a, a.phase)
    ensures var patch := PatchOf(StepOpening(a, input)); patch.Some? ==> Fits(a, patch.value)
    ensures Reasonable(StepOpening(a, input))
  {
  }

  lemma QuiescingStep(a: Journal, input: Input)
    requires IsNormal(a.phase) && MAINTENANCE_ENTERED.index <= a.phase.index < SWAPPED.index &&
      NormalPresence(a, a.phase)
    ensures var patch := PatchOf(StepQuiescing(a, input)); patch.Some? ==> Fits(a, patch.value)
    ensures Reasonable(StepQuiescing(a, input))
  {
  }

  lemma CandidateStep(a: Journal, input: Input)
    requires IsNormal(a.phase) && SWAPPED.index <= a.phase.index < COMPLETED.index && NormalPresence(a, a.phase)
    requires a.quiet.swap.Some? ==> a.quiet.swap.value.pointer > 0
    ensures var patch := PatchOf(StepCandidate(a, input)); patch.Some? ==> Fits(a, patch.value)
    ensures Reasonable(StepCandidate(a, input))
  {
    hide EffectsMatch;
  }

  lemma RollbackStep(a: Journal, input: Input)
    requires IsRollback(a.phase) && a.phase != ROLLED_BACK && RollbackPresence(a, a.phase)
    requires a.rollback.restore.Some? ==> a.rollback.restore.value.pointer > 0
    ensures var patch := PatchOf(StepRollback(a, input)); patch.Some? ==> Fits(a, patch.value)
    ensures Reasonable(StepRollback(a, input))
  {
    hide EffectsMatch;
  }

  lemma CleanupStep(a: Journal, input: Input)
    requires a.phase == CLEANUP_INTENT || a.phase == CLEANUP_CONFIRMED
    requires a.phase == CLEANUP_INTENT ==> a.failure.cleanup == None
    requires a.quiet.maintenance.Some? && a.failure.cleanupCause.Some? && a.failure.cleanupFailedAt.Some?
    ensures var patch := PatchOf(StepCleanup(a, input)); patch.Some? ==> Fits(a, patch.value)
    ensures Reasonable(StepCleanup(a, input))
  {
  }

  /** What Valid leaves open and every run keeps: a cleanup, or a block, happens before the swap. */
  predicate RunValid(j: Journal) {
    && Valid(j)
    && j.failure.terminalCode != Some(JournalCorrupt)
    && (!CleanupActive(j) ==> j.failure.cleanupCause == None)
    && (CleanupActive(j) ==>
          && j.failure.cleanupFailedAt.Some? && j.failure.cleanupCause.Some?
          && CleanupCauseAt(j.failure.cleanupFailedAt.value) == j.failure.cleanupCause
          && NormalPresence(j, j.failure.cleanupFailedAt.value))
    && (j.phase == Blocked && j.failure.failedAt.Some? && !CleanupActive(j) ==>
      BlocksDirectly(j.failure.failedAt.value))
    && (j.phase == Blocked && CleanupActive(j) ==>
          j.failure.failedAt == j.failure.cleanupFailedAt && j.failure.terminalCode == j.failure.cleanupCause)
    && (j.phase == RollbackFailed && j.failure.failedAt.Some? ==>
          && RollbackFailureAt(j.failure.failedAt.value).Some?
          && j.failure.terminalCode == RollbackFailureAt(j.failure.failedAt.value))
  }

  /** The part of Valid that says which receipts a phase has collected. */
  lemma Presence(a: Journal)
    requires Valid(a)
    ensures IsPhase(a.phase)
    ensures IsNormal(a.phase) ==> NormalPresence(a, a.phase)
    ensures IsRollback(a.phase) ==> RollbackPresence(a, a.phase)
    ensures !a.phase.Cleaning? && a.phase != Blocked ==> a.failure.cleanup == None && a.failure.cleanupFailedAt == None
    ensures !IsErrorTerminal(a.phase) ==> a.failure.terminalCode == None && a.failure.failedAt == None
    ensures a.phase == CLEANUP_INTENT ==> a.failure.cleanup == None
  {
    hide NormalPresence, RollbackPresence, ReceiptRelationsValid;
  }

  /** From a journal of a run, a step is never at a loss for a receipt, and what it writes fits. */
  lemma StepFits(a: Journal, input: Input)
    requires RunValid(a)
    ensures if IsTerminal(a.phase) then Step(a, input) == Report else Reasonable(Step(a, input))
    ensures var patch := PatchOf(Step(a, input)); patch.Some? ==> Fits(a, patch.value)
  {
    hide RunValid, Valid, NormalPresence, RollbackPresence, StepOpening, StepQuiescing, StepCandidate, StepRollback,
         StepCleanup, Fits;
    Presence(a) by {
      RunIsValid(a);
    }
    Pointers(a);
    match a.phase {
      case Normal(i) =>
        if i < MAINTENANCE_ENTERED.index {
          OpeningStep(a, input);
        } else if i < SWAPPED.index {
          QuiescingStep(a, input);
        } else if i < COMPLETED.index {
          CandidateStep(a, input);
        }
      case RollingBack(i) =>
        if i < ROLLED_BACK.index {
          RollbackStep(a, input);
        }
      case Cleaning(_) => CleanupStep(a, input);
      case _ =>
    }
  }

  lemma RunIsValid(a: Journal)
    requires RunValid(a)
    ensures Valid(a)
  {
  }

  lemma Pointers(a: Journal)
    requires RunValid(a)
    ensures a.quiet.swap.Some? ==> a.quiet.swap.value.pointer > 0
    ensures a.rollback.restore.Some? ==> a.rollback.restore.value.pointer > 0
    ensures a.phase.Cleaning? ==>
      a.quiet.maintenance.Some? && a.failure.cleanupCause.Some? && a.failure.cleanupFailedAt.Some?
  {
    hide RollbackPresence, FinalRelated, StopRelated, EffectsMatch;
  }

  /** No cause is recorded before its phase. */
  lemma NoCauseYet(a: Journal)
    requires RunValid(a)
    ensures IsNormal(a.phase) ==> a.failure.rollbackCause == None
    ensures IsNormal(a.phase) || IsRollback(a.phase) ==> a.failure.cleanupCause == None
  {
    hide ReceiptRelationsValid, RollbackPresence;
  }

  lemma PatchAdvances(a: Journal, patch: Patch, b: Journal)
    requires RunValid(a) && Fits(a, patch) && Transition(a, patch) == Some(b)
    ensures Advances(a, b)
  {
    hide RunValid, Valid, NormalPresence, RollbackPresence;
    Presence(a) by {
      RunIsValid(a);
    }
    NoCauseYet(a);
  }

  lemma PatchKeepsRunValid(a: Journal, patch: Patch, b: Journal)
    requires RunValid(a) && Fits(a, patch) && Transition(a, patch) == Some(b)
    ensures RunValid(b)
  {
    hide ReceiptRelationsValid, RollbackPresence, OpeningKept, QuietKept, TrialKept, RollbackKept;
    Presence(a);
  }

  // ---------------------------------------------------------------------------
  // Runs
  // ---------------------------------------------------------------------------

  ghost predicate Steps(a: Journal, b: Journal) {
    && IsPhase(a.phase)
    && exists input: Input ::
         PatchOf(Step(a, input)).Some? && Transition(a, PatchOf(Step(a, input)).value) == Some(b)
  }

  /** The history of one operation in the store: from the initial journal, one step at a time. */
  ghost predicate Run(h: seq<Journal>) {
    && |h| > 0
    && h[0] == Initial(h[0].operationId, h[0].fingerprint) && Valid(h[0])
    && forall i :: 0 < i < |h| ==> Steps(h[i - 1], h[i])
  }

  /** Appending a written step keeps a run. */
  lemma RunGrows(h: seq<Journal>, input: Input, b: Journal)
    requires Run(h) && IsPhase(h[|h| - 1].phase)
    requires var patch := PatchOf(Step(h[|h| - 1], input));
      patch.Some? && Transition(h[|h| - 1], patch.value) == Some(b)
    ensures Run(h + [b])
  {
    hide Step, Transition, Valid, Initial;
    var grown := h + [b];
    forall i | 0 < i < |grown| ensures Steps(grown[i - 1], grown[i]) {
      if i < |h| {
        assert Steps(h[i - 1], h[i]);
      }
    }
  }

  /** Receipts that name a revision name the one at which their phase was journalled. */
  predicate Originates(h: seq<Journal>, j: Journal) {
    && (j.quiet.pause.Some? ==> At(h, j.quiet.pause.value.atomicRevision, PAUSE_SUPERVISORS_INTENT))
    && (j.trial.authorization.Some? ==> At(h, j.trial.authorization.value.atomicRevision, AUTHORIZE_BRIDGES_INTENT))
    && (j.trial.commit.Some? ==> At(h, j.trial.commit.value.atomicRevision, COMMIT_MAINTENANCE_INTENT))
    && (j.rollback.authorization.Some? ==>
          At(h, j.rollback.authorization.value.atomicRevision, ROLLBACK_AUTHORIZE_BRIDGES_INTENT))
    && (j.rollback.commit.Some? ==> At(h, j.rollback.commit.value.atomicRevision, ROLLBACK_COMMIT_MAINTENANCE_INTENT))
  }

  predicate At(h: seq<Journal>, revision: nat, phase: Phase) { revision < |h| && h[revision].phase == phase }

  lemma PatchOriginates(h: seq<Journal>, a: Journal, patch: Patch, b: Journal)
    requires |h| > 0 && a == h[|h| - 1] && a.revision == |h| - 1
    requires Originates(h, a) && Fits(a, patch) && Transition(a, patch) == Some(b)
    ensures Originates(h + [b], b)
  {
    hide Valid, Fails, OpeningKept, Kept;
  }

  lemma {:induction false} RunFacts(h: seq<Journal>, i: nat)
    requires Run(h) && i < |h|
    ensures RunValid(h[i]) && h[i].revision == i && Originates(h[..i + 1], h[i])
    ensures h[i].operationId == h[0].operationId && h[i].fingerprint == h[0].fingerprint
    ensures i > 0 ==> Advances(h[i - 1], h[i])
  {
    hide RunValid, Advances, Originates, Steps, Initial, Valid;
    if i == 0 {
      FirstFacts(h);
    } else {
      RunFacts(h, i - 1);
      assert Steps(h[i - 1], h[i]);
      AdvancesFacts(h[i - 1], h[i]);
      StepFacts(h[..i], h[i - 1], h[i]);
      assert h[..i] + [h[i]] == h[..i + 1];
    }
  }

  lemma FirstFacts(h: seq<Journal>)
    requires Run(h)
    ensures RunValid(h[0]) && h[0].revision == 0 && Originates(h[..1], h[0])
  {
    hide ReceiptRelationsValid, NormalPresence;
  }

  lemma AdvancesFacts(a: Journal, b: Journal)
    ensures Advances(a, b) ==>
      b.revision == a.revision + 1 && b.operationId == a.operationId && b.fingerprint == a.fingerprint
  {
  }

  lemma StepFacts(h: seq<Journal>, a: Journal, b: Journal)
    requires |h| > 0 && a == h[|h| - 1] && a.revision == |h| - 1
    requires RunValid(a) && Steps(a, b) && Originates(h, a)
    ensures RunValid(b) && Advances(a, b) && Originates(h + [b], b)
  {
    hide Valid, Fits, Step, Originates, Transition, Advances;
    var input: Input :| PatchOf(Step(a, input)).Some? && Transition(a, PatchOf(Step(a, input)).value) == Some(b);
    var patch := PatchOf(Step(a, input)).value;
    StepFits(a, input);
    PatchAdvances(a, patch, b);
    PatchKeepsRunValid(a, patch, b);
    PatchOriginates(h, a, patch, b);
  }

  // ---------------------------------------------------------------------------
  // One chain, each phase once
  // ---------------------------------------------------------------------------

  /** Later journals have a higher revision, a strictly higher rank, and every receipt of the earlier ones. */
  lemma {:induction false} OneChain(h: seq<Journal>, i: nat, k: nat)
    requires Run(h) && i < k < |h|
    ensures h[k].revision == k && h[k].operationId == h[i].operationId && h[k].fingerprint == h[i].fingerprint
    ensures Rank(h[i].phase) + (k - i) <= Rank(h[k].phase) < PHASES
    ensures ReceiptsKept(h[i], h[k])
    decreases k - i
  {
    hide Run, RunValid, Originates, ReceiptsKept;
    RunFacts(h, k);
    RunFacts(h, i);
    RankBound(h[k]);
    if i + 1 < k {
      OneChain(h, i, k - 1);
      KeptTransitively(h[i], h[k - 1], h[k]);
    }
  }

  lemma RankBound(j: Journal)
    requires RunValid(j)
    ensures IsPhase(j.phase) && Rank(j.phase) < PHASES
  {
  }

  lemma KeptTransitively(a: Journal, b: Journal, c: Journal)
    requires ReceiptsKept(a, b) && ReceiptsKept(b, c)
    ensures ReceiptsKept(a, c)
  {
  }

  datatype Key = Key(operationId: nat, fingerprint: Fingerprint, phase: Phase)

  /** The key under which an adapter is called from a journal. */
  function IdempotencyKey(j: Journal): Key {
    Key(j.operationId, j.fingerprint, j.phase)
  }

  /** A run visits no phase twice, so it uses no key twice, and it is no longer than there are phases. */
  lemma KeysAreUsedOnce(h: seq<Journal>, i: nat, k: nat)
    requires Run(h) && i < |h| && k < |h|
    ensures IdempotencyKey(h[i]) == IdempotencyKey(h[k]) <==> i == k
    ensures |h| <= PHASES
  {
    hide Run;
    if i < k {
      OneChain(h, i, k);
    } else if k < i {
      OneChain(h, k, i);
    }
    if |h| > 1 {
      OneChain(h, 0, |h| - 1);
    }
  }

  // ---------------------------------------------------------------------------
  // What an outcome means
  // ---------------------------------------------------------------------------

  /** The effects of a release: one per paused subject, in order, at consecutive supervisor revisions. */
  predicate EffectsOneToOne(pause: Pause, resume: Resume, operationId: nat, installed: Identity, kind: EffectKind) {
    && |resume.effects| == |pause.subjects|
    && forall i :: 0 <= i < |pause.subjects| ==>
         && resume.effects[i].subject == pause.subjects[i]
         && resume.effects[i].supervisorRevision == pause.supervisorRevision + i + 1
         && resume.effects[i].operationId == operationId
         && resume.effects[i].installed == installed
         && resume.effects[i].kind == (if pause.subjects[i].wasRunning then kind else AlreadyStopped)
  }

  /**
   A completed run committed the candidate two pointer revisions above the one maintenance was
   entered at, with the candidate throughout, and its three fenced steps in order.
   */
  lemma DeployedMeans(h: seq<Journal>)
    requires Run(h) && h[|h| - 1].phase == COMPLETED
    ensures var j := h[|h| - 1];
      && j.quiet.maintenance.Some? && j.quiet.pause.Some? && j.quiet.swap.Some? && j.trial.resume.Some?
      && j.trial.commit.Some? && j.trial.start.Some? && j.trial.health.Some? && j.trial.migration.Some?
      && j.trial.authorization.Some?
      && var m, pause, commit := j.quiet.maintenance.value, j.quiet.pause.value, j.trial.commit.value;
         && commit.pointer == m.pointer + 2
         && j.quiet.swap.value.previousPointer == m.pointer
         && commit.identity == j.quiet.swap.value.installed == j.trial.start.value.identity
         && commit.identity == j.trial.health.value.identity == j.trial.migration.value.identity
         && commit.identity == h[0].fingerprint.candidate != h[0].fingerprint.current
         && commit.maintenanceId == m.id
         && EffectsOneToOne(pause, j.trial.resume.value, h[0].operationId, h[0].fingerprint.candidate, Rebound)
         && pause.atomicRevision < j.trial.authorization.value.atomicRevision < commit.atomicRevision < |h| - 1
  {
    hide Run, Originates, RunValid;
    LastFacts(h);
    var j := h[|h| - 1];
    CompletedReceipts(j);
    var pause, authorization, commit := j.quiet.pause.value, j.trial.authorization.value, j.trial.commit.value;
    OriginOrder(h, j);
    Ordered(h, pause.atomicRevision, authorization.atomicRevision);
    Ordered(h, authorization.atomicRevision, commit.atomicRevision);
    Ordered(h, commit.atomicRevision, |h| - 1);
  }

  lemma LastFacts(h: seq<Journal>)
    requires Run(h)
    ensures |h| > 0
    ensures var j := h[|h| - 1];
      RunValid(j) && Valid(j) && Originates(h, j) && j.operationId == h[0].operationId &&
        j.fingerprint == h[0].fingerprint
  {
    assert |h| > 0;
    hide Run, Originates;
    RunFacts(h, |h| - 1);
    assert h[..|h| - 1 + 1] == h;
  }

  lemma OriginOrder(h: seq<Journal>, j: Journal)
    requires Originates(h, j)
    ensures j.quiet.pause.Some? ==> At(h, j.quiet.pause.value.atomicRevision, PAUSE_SUPERVISORS_INTENT)
    ensures j.trial.authorization.Some? ==> At(h, j.trial.authorization.value.atomicRevision, AUTHORIZE_BRIDGES_INTENT)
    ensures j.trial.commit.Some? ==> At(h, j.trial.commit.value.atomicRevision, COMMIT_MAINTENANCE_INTENT)
    ensures j.rollback.authorization.Some? ==>
      At(h, j.rollback.authorization.value.atomicRevision, ROLLBACK_AUTHORIZE_BRIDGES_INTENT)
    ensures j.rollback.commit.Some? ==>
      At(h, j.rollback.commit.value.atomicRevision, ROLLBACK_COMMIT_MAINTENANCE_INTENT)
  {
  }

  /** Ranks tell the order of revisions. */
  lemma Ordered(h: seq<Journal>, i: nat, k: nat)
    requires Run(h) && i < |h| && k < |h| && Rank(h[i].phase) < Rank(h[k].phase)
    ensures i < k
  {
    hide Run;
    if k < i {
      OneChain(h, k, i);
    }
  }

  lemma CompletedReceipts(j: Journal)
    requires Valid(j) && j.phase == COMPLETED
    ensures j.quiet.maintenance.Some? && j.quiet.pause.Some? && j.quiet.swap.Some? && j.trial.resume.Some?
    ensures j.trial.commit.Some? && j.trial.start.Some? && j.trial.health.Some? && j.trial.migration.Some?
    ensures j.trial.authorization.Some? && j.fingerprint.current != j.fingerprint.candidate
    ensures var m, pause, commit := j.quiet.maintenance.value, j.quiet.pause.value, j.trial.commit.value;
      && commit.pointer == m.pointer + 2
      && j.quiet.swap.value.previousPointer == m.pointer
      && commit.identity == j.quiet.swap.value.installed == j.trial.start.value.identity
      && commit.identity == j.trial.health.value.identity == j.trial.migration.value.identity
      && commit.identity == j.fingerprint.candidate
      && commit.maintenanceId == m.id
      && EffectsOneToOne(pause, j.trial.resume.value, j.operationId, j.fingerprint.candidate, Rebound)
  {
    Presence(j);
    hide RollbackPresence, FinalRelated, StopRelated, CleanupRelated, RestoreRelated;
    EffectsFit(j, j.trial.resume.value, j.trial.authorization.value, Rebound);
  }

  lemma EffectsFit(j: Journal, resume: Resume, authorization: Authorization, kind: EffectKind)
    requires EffectsMatch(j, resume, authorization)
    requires authorization.supervisorRevision == j.quiet.pause.value.supervisorRevision
    requires kind == if authorization.target == Candidate then Rebound else RolledBackTo
    ensures EffectsOneToOne(j.quiet.pause.value, resume, j.operationId, j.Expected(authorization.target), kind)
  {
    forall i | 0 <= i < |resume.effects|
      ensures EffectMatches(j, resume.effects[i], j.quiet.pause.value.subjects[i], i, authorization)
    {
    }
  }

  /**
   A rolled back run committed the previous release three pointer revisions above the one maintenance
   was entered at, and restored no security epoch older than the one observed there.
   */
  lemma RolledBackMeans(h: seq<Journal>)
    requires Run(h) && h[|h| - 1].phase == ROLLED_BACK
    ensures var j := h[|h| - 1];
      && j.quiet.maintenance.Some? && j.quiet.pause.Some? && j.rollback.restore.Some? && j.rollback.resume.Some?
      && j.rollback.authorization.Some? && j.rollback.commit.Some? && j.rollback.start.Some? && j.rollback.health.Some?
      && j.trial.commit.None?
      && var m, pause, restore, commit :=
           j.quiet.maintenance.value, j.quiet.pause.value, j.rollback.restore.value, j.rollback.commit.value;
         && commit.pointer == m.pointer + 3
         && commit.identity == restore.identity == j.rollback.start.value.identity == j.rollback.health.value.identity
         && commit.identity == h[0].fingerprint.current
         && m.epoch <= restore.snapshotEpoch <= restore.epoch && restore.observedEpoch <= restore.epoch
         && m.events <= restore.events
         && EffectsOneToOne(pause, j.rollback.resume.value, h[0].operationId, h[0].fingerprint.current, RolledBackTo)
         && pause.atomicRevision < j.rollback.authorization.value.atomicRevision < commit.atomicRevision < |h| - 1
  {
    hide Run, Originates, RunValid;
    LastFacts(h);
    var j := h[|h| - 1];
    RolledBackReceipts(j);
    var pause, authorization, commit := j.quiet.pause.value, j.rollback.authorization.value, j.rollback.commit.value;
    OriginOrder(h, j);
    Ordered(h, pause.atomicRevision, authorization.atomicRevision);
    Ordered(h, authorization.atomicRevision, commit.atomicRevision);
    Ordered(h, commit.atomicRevision, |h| - 1);
  }

  lemma RolledBackReceipts(j: Journal)
    requires Valid(j) && j.phase == ROLLED_BACK
    ensures j.quiet.maintenance.Some? && j.quiet.pause.Some? && j.rollback.restore.Some? && j.rollback.resume.Some?
    ensures j.rollback.authorization.Some? && j.rollback.commit.Some? && j.rollback.start.Some? &&
      j.rollback.health.Some?
    ensures j.trial.commit.None? && j.failure.rollbackCause.Some?
    ensures var m, pause, restore, commit :=
        j.quiet.maintenance.value, j.quiet.pause.value, j.rollback.restore.value, j.rollback.commit.value;
      && commit.pointer == m.pointer + 3
      && commit.identity == restore.identity == j.rollback.start.value.identity == j.rollback.health.value.identity
      && commit.identity == j.fingerprint.current
      && m.epoch <= restore.snapshotEpoch <= restore.epoch && restore.observedEpoch <= restore.epoch
      && m.events <= restore.events
      && EffectsOneToOne(pause, j.rollback.resume.value, j.operationId, j.fingerprint.current, RolledBackTo)
  {
    Presence(j);
    hide NormalPresence, StopRelated, CleanupRelated;
    EffectsFit(j, j.rollback.resume.value, j.rollback.authorization.value, RolledBackTo);
  }

  /**
   A blocked run never swapped, so the pointer and the installed release are the old ones. It has left
   maintenance again unless it blocked on what it found after the Hub had stopped.
   */
  lemma BlockedMeans(h: seq<Journal>, i: nat)
    requires Run(h) && i < |h| && h[|h| - 1].phase == Blocked
    ensures h[i].quiet.swap == None && Rank(h[i].phase) != Rank(SWAPPED)
    ensures var f, m := h[|h| - 1].failure, h[|h| - 1].quiet.maintenance;
      && f.terminalCode.Some? && f.failedAt.Some?
      && (f.cleanup.Some? ==>
            && m.Some? && f.cleanup.value.pointer == m.value.pointer && f.cleanup.value.epoch >= m.value.epoch
            && f.cleanup.value.source == h[0].fingerprint.current && f.cleanup.value.failedPhase == f.failedAt.value)
      && (m.Some? && f.cleanup.None? <==>
            f.cleanup.None? && f.failedAt.value in {STOP_RECEIPT_CONFIRMED, FINAL_SNAPSHOT_INTENT})
  {
    hide Run, Originates, RunValid;
    LastFacts(h);
    BlockedReceipts(h[|h| - 1]);
    RunFacts(h, i);
    if i < |h| - 1 {
      OneChain(h, i, |h| - 1);
    }
    SwappedHasSwap(h[i]);
  }

  lemma SwappedHasSwap(j: Journal)
    requires RunValid(j)
    ensures j.phase == SWAPPED ==> j.quiet.swap.Some?
    ensures Rank(j.phase) == Rank(SWAPPED) <==> j.phase == SWAPPED
  {
    Presence(j);
  }

  lemma BlockedReceipts(j: Journal)
    requires RunValid(j) && j.phase == Blocked
    ensures j.quiet.swap == None
    ensures j.failure.terminalCode.Some? && j.failure.failedAt.Some?
    ensures j.failure.cleanup.Some? ==>
      && j.quiet.maintenance.Some? && j.failure.cleanup.value.pointer == j.quiet.maintenance.value.pointer
      && j.failure.cleanup.value.epoch >= j.quiet.maintenance.value.epoch
      && j.failure.cleanup.value.source == j.fingerprint.current
      && j.failure.cleanup.value.failedPhase == j.failure.failedAt.value
    ensures j.quiet.maintenance.Some? && j.failure.cleanup.None? <==>
      j.failure.cleanup.None? && j.failure.failedAt.value in {STOP_RECEIPT_CONFIRMED, FINAL_SNAPSHOT_INTENT}
  {
    hide RollbackPresence, FinalRelated, StopRelated, SwapRelated, RestoreRelated, PauseRelated, EffectsMatch;
  }

  /**
   A run whose rollback failed swapped, and committed nothing, so it is still in maintenance. It failed at
   the last phase it was in, with that phase's code; whether the previous release was restored depends on
   that phase alone, and then pointer and security epoch are what the restore left.
   */
  lemma RollbackFailedMeans(h: seq<Journal>, i: nat)
    requires Run(h) && h[|h| - 1].phase == RollbackFailed
    ensures |h| > 1
    ensures var j, last := h[|h| - 1], h[|h| - 2].phase;
      && j.failure.failedAt == Some(last) && j.failure.terminalCode == RollbackFailureAt(last) != None
      && IsRollback(last) && (i < |h| - 1 ==> Rank(h[i].phase) <= Rank(last))
      && j.failure.rollbackCause.Some? && RollbackCause(j.failure.rollbackCause.value)
      && j.quiet.maintenance.Some? && j.quiet.swap.Some?
      && j.quiet.swap.value.pointer == j.quiet.maintenance.value.pointer + 1
      && j.quiet.swap.value.installed == h[0].fingerprint.candidate
      && j.trial.commit == None && j.rollback.commit == None
      && (j.rollback.restore.Some? <==> Rank(last) >= Rank(ROLLBACK_START_PREVIOUS_INTENT))
      && (j.rollback.restore.Some? ==>
            && j.rollback.restore.value.pointer == j.quiet.maintenance.value.pointer + 2
            && j.rollback.restore.value.identity == h[0].fingerprint.current
            && j.rollback.restore.value.epoch >= j.quiet.maintenance.value.epoch)
  {
    hide Run, Originates, RunValid, Steps, Initial;
    LastFacts(h);
    RollbackFailedReceipts(h[|h| - 1]);
    LastStep(h);
    RunFacts(h, |h| - 2);
    FailedFrom(h[|h| - 2], h[|h| - 1]);
    if i < |h| - 2 {
      OneChain(h, i, |h| - 2);
    }
  }

  lemma LastStep(h: seq<Journal>)
    requires Run(h) && h[|h| - 1].phase == RollbackFailed
    ensures |h| > 1 && Steps(h[|h| - 2], h[|h| - 1])
  {
    hide Steps, Valid;
  }

  lemma FailedFrom(a: Journal, b: Journal)
    requires RunValid(a) && Steps(a, b) && b.phase == RollbackFailed
    ensures b.failure.failedAt == Some(a.phase)
  {
    hide RunValid, Step, Valid, OpeningKept, QuietKept, TrialKept, RollbackKept;
    var input: Input :|
      PatchOf(Step(a, input)).Some? && Transition(a, PatchOf(Step(a, input)).value) == Some(b);
    StepFits(a, input);
  }

  lemma RollbackFailedReceipts(j: Journal)
    requires RunValid(j) && j.phase == RollbackFailed
    ensures var f := j.failure;
      && f.failedAt.Some? && RollbackFailureAt(f.failedAt.value).Some?
      && f.terminalCode == RollbackFailureAt(f.failedAt.value)
      && f.rollbackCause.Some? && RollbackCause(f.rollbackCause.value)
      && (j.rollback.restore.Some? <==> Rank(f.failedAt.value) >= Rank(ROLLBACK_START_PREVIOUS_INTENT))
    ensures j.quiet.maintenance.Some? && j.quiet.swap.Some? && j.trial.commit == None && j.rollback.commit == None
    ensures j.quiet.swap.value.pointer == j.quiet.maintenance.value.pointer + 1
    ensures j.quiet.swap.value.installed == j.fingerprint.candidate
    ensures j.rollback.restore.Some? ==>
      && j.rollback.restore.value.pointer == j.quiet.maintenance.value.pointer + 2
      && j.rollback.restore.value.identity == j.fingerprint.current
      && j.rollback.restore.value.epoch >= j.quiet.maintenance.value.epoch
  {
    hide NormalPresence, PauseWellFormed, StopRelated, CleanupRelated, EffectsMatch;
  }
}
