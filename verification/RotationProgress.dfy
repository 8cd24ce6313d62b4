/**
 What one rotation may change on its way, and where it ends. Extends says what
 every step of an operation keeps; Keeps adds that the step does not decide the
 operation's fate, which only the database's move to SWITCHING does.
 */
module RotationProgress {
  import opened Common
  import opened RotationJournal
  import opened RotationWorld

  ghost predicate Named(s: State, operationId: nat) {
    operationId in s.summary && s.summary[operationId].Loaded? && s.summary[operationId].plan.operationId == operationId
  }

  function JournalPhase(s: State, operationId: nat): Phase
    requires operationId in s.summary && s.summary[operationId].Loaded?
  {
    s.summary[operationId].phase
  }

  /** From here on the rotation can only go forward. */
  predicate Switched(s: State, operationId: nat)
    requires operationId in s.summary && s.summary[operationId].Loaded?
  {
    || DatabasePhase(s.database, operationId) in {Some(Switching), Some(FilesInstalled), Some(DbCommitted)}
    || Committed(JournalPhase(s, operationId))
  }

  /** The commit is journalled, and the database has never heard of the operation. */
  predicate Forgotten(s: State, operationId: nat)
    requires operationId in s.summary && s.summary[operationId].Loaded?
  {
    Committed(JournalPhase(s, operationId)) && DatabasePhase(s.database, operationId) == None
  }

  /** The receipt the database gives for the operation: the one it holds, or the one it would issue. */
  function ExpectedReceipt(s: State, operationId: nat, serial: nat): Receipt
    requires operationId in s.summary && s.summary[operationId].Loaded?
  {
    if operationId in s.database.operations && s.database.operations[operationId].receipt.Some?
    then s.database.operations[operationId].receipt.value
    else NewReceipt(s.summary[operationId].plan, serial)
  }

  /** Every receipt the journal has recorded for the operation is the one the database gives. */
  predicate EvidenceOk(s: State, operationId: nat, serial: nat)
    requires operationId in s.summary && s.summary[operationId].Loaded?
  {
    EvidenceNames(s.summary[operationId].records, ExpectedReceipt(s, operationId, serial))
  }

  /** The database commits an operation at most once, and nothing else moves its epoch or its generations. */
  predicate CommitsOnce(s: State, t: State, operationId: nat) {
    || (&& t.commits == s.commits
        && t.database.epoch == s.database.epoch
        && t.database.active == s.database.active
        && (DatabasePhase(t.database, operationId) == Some(DbCommitted) <==>
              DatabasePhase(s.database, operationId) == Some(DbCommitted)))
    || (&& t.commits == s.commits + [operationId]
        && t.database.epoch == s.database.epoch + 1
        && DatabasePhase(s.database, operationId) != Some(DbCommitted)
        && DatabasePhase(t.database, operationId) == Some(DbCommitted))
  }

  /** What every step on behalf of the operation keeps. */
  ghost predicate Extends(s: State, t: State, operationId: nat, serial: nat) {
    && Named(s, operationId) && Named(t, operationId)
    && t.summary[operationId].plan == s.summary[operationId].plan
    && t.Slots() == s.Slots()
    && s.journal <= t.journal
    && t.summary - {operationId} == s.summary - {operationId}
    && t.database.operations - {operationId} == s.database.operations - {operationId}
    && (t.current == s.current || (t.current == None && s.current == Some(s.summary[operationId].plan)))
    && CommitsOnce(s, t, operationId)
    && (DatabasePhase(s.database, operationId) == Some(DbCommitted) ==>
          operationId in t.database.operations
          && t.database.operations[operationId] == s.database.operations[operationId])
    && (EvidenceOk(s, operationId, serial) ==> EvidenceOk(t, operationId, serial))
    && (Switched(s, operationId) ==> Switched(t, operationId))
    && (Forgotten(t, operationId) ==> Forgotten(s, operationId))
  }

  ghost predicate Keeps(s: State, t: State, operationId: nat, serial: nat) {
    Extends(s, t, operationId, serial) && (Switched(t, operationId) ==> Switched(s, operationId))
  }

  lemma ExtendsTransitive(s: State, t: State, u: State, operationId: nat, serial: nat)
    requires Extends(s, t, operationId, serial) && Extends(t, u, operationId, serial)
    ensures Extends(s, u, operationId, serial)
  {
    hide EvidenceOk, Switched, Forgotten;
  }

  lemma KeepsTransitive(s: State, t: State, u: State, operationId: nat, serial: nat)
    requires Keeps(s, t, operationId, serial) && Keeps(t, u, operationId, serial)
    ensures Keeps(s, u, operationId, serial)
  {
    hide EvidenceOk, Switched, Extends;
    ExtendsTransitive(s, t, u, operationId, serial);
  }

  lemma KeepsReflexive(s: State, operationId: nat, serial: nat)
    requires Named(s, operationId)
    ensures Keeps(s, s, operationId, serial)
  {
  }

  lemma KeepsExtends(s: State, t: State, operationId: nat, serial: nat)
    requires Keeps(s, t, operationId, serial)
    ensures Extends(s, t, operationId, serial)
  {
  }

  lemma NamedFacts(s: State, operationId: nat)
    requires Consistent(s) && operationId in s.summary
    ensures Named(s, operationId)
  {
    LoadedFacts(s, operationId);
  }

  lemma OperationFacts(s: State, plan: Plan)
    requires Consistent(s) && s.current == Some(plan)
    ensures Named(s, plan.operationId) && s.summary[plan.operationId].plan == plan
    ensures DatabasePhase(s.database, plan.operationId).Some? ==>
      && s.database.operations[plan.operationId].plan == plan
      && (s.database.operations[plan.operationId].receipt.Some? <==>
            DatabasePhase(s.database, plan.operationId) == Some(DbCommitted))
  {
    LoadedFacts(s, plan.operationId);
    CurrentFacts(s, plan);
  }

  lemma FilesKeep(s: State, files: Files, operationId: nat, serial: nat)
    requires Named(s, operationId) && |files.canonical| == s.Slots()
    ensures Keeps(s, s.(files := files), operationId, serial)
  {
  }

  /** Journalling a phase never changes whether the operation has switched. */
  lemma RecordKeeps(s: State, plan: Plan, next: Phase, evidence: Option<Receipt>, serial: nat)
    requires Named(s, plan.operationId) && s.current == Some(plan) && s.summary[plan.operationId].plan == plan
    requires CanRecord(s, plan, next, evidence)
    requires evidence.Some? ==> ExpectedReceipt(s, plan.operationId, serial) == evidence.value
    ensures Keeps(s, WithRecord(s, plan, next, evidence), plan.operationId, serial)
  {
    var t := WithRecord(s, plan, next, evidence);
    hide CanRecord, EvidenceNames;
    if EvidenceOk(s, plan.operationId, serial) {
      EvidenceGrows(s, plan, next, evidence, serial);
    }
    SwitchedStays(s, plan, next, evidence);
  }

  lemma EvidenceGrows(s: State, plan: Plan, next: Phase, evidence: Option<Receipt>, serial: nat)
    requires Named(s, plan.operationId) && s.summary[plan.operationId].plan == plan
    requires CanRecord(s, plan, next, evidence)
    requires evidence.Some? ==> ExpectedReceipt(s, plan.operationId, serial) == evidence.value
    requires EvidenceOk(s, plan.operationId, serial)
    ensures EvidenceOk(WithRecord(s, plan, next, evidence), plan.operationId, serial)
  {
    var t := WithRecord(s, plan, next, evidence);
    assert ExpectedReceipt(t, plan.operationId, serial) == ExpectedReceipt(s, plan.operationId, serial);
  }

  lemma SwitchedStays(s: State, plan: Plan, next: Phase, evidence: Option<Receipt>)
    requires Named(s, plan.operationId)
    requires CanRecord(s, plan, next, evidence)
    ensures Switched(s, plan.operationId) <==> Switched(WithRecord(s, plan, next, evidence), plan.operationId)
  {
    assert Committed(JournalPhase(s, plan.operationId)) ==> Committed(next);
  }

  /** Of the database's phases short of the commit, only SWITCHING decides the operation. */
  lemma MoveExtends(s: State, plan: Plan, next: Phase, serial: nat)
    requires Named(s, plan.operationId) && s.summary[plan.operationId].plan == plan
    requires MayMove(s.files, s.database, plan, JournalPhase(s, plan.operationId), next)
    requires DatabasePhase(s.database, plan.operationId).Some? ==>
      (s.database.operations[plan.operationId].receipt.Some? <==>
         DatabasePhase(s.database, plan.operationId) == Some(DbCommitted))
    ensures var t := s.(database := SetOperation(s.database, plan, next));
      if next == Switching then Extends(s, t, plan.operationId, serial) else Keeps(s, t, plan.operationId, serial)
  {
  }

  /** The commit records no evidence, and any it finds already names the receipt it issues. */
  lemma CommitKeeps(s: State, plan: Plan, serial: nat)
    requires Named(s, plan.operationId) && s.current == Some(plan) && s.summary[plan.operationId].plan == plan
    requires CanCommit(s, plan) && s.database.epoch == plan.epochBefore
    requires DatabasePhase(s.database, plan.operationId).Some? ==>
      s.database.operations[plan.operationId].receipt == None
    ensures Keeps(s, WithCommit(s, plan, NewReceipt(plan, serial)), plan.operationId, serial)
  {
  }

  // ---------------------------------------------------------------------------
  // Installing
  // ---------------------------------------------------------------------------

  /** The slot is in a switching state, and only an unfinished switch leaves it short of the last one. */
  ghost predicate CanInstall(s: State, plan: Plan, i: nat) {
    && s.current == Some(plan)
    && i < s.Slots() == |plan.members|
    && DatabasePhase(s.database, plan.operationId) in {Some(Switching), Some(FilesInstalled)}
  }

  /** The slots already installed stay so. */
  predicate OthersInstalled(f: Files, g: Files, plan: Plan, i: nat) {
    && |g.canonical| == |f.canonical|
    && (|plan.members| == |f.canonical| ==>
          forall j :: 0 <= j < |f.canonical| && j != i && SlotNew(f, plan, j) ==> SlotNew(g, plan, j))
  }

  lemma InstallFacts(s: State, plan: Plan, i: nat)
    requires Consistent(s) && CanInstall(s, plan, i)
    ensures i < |plan.members| == s.Slots()
    ensures plan.members[i].newToken != plan.members[i].oldToken
    ensures SlotSwitching(s.files, plan, i)
    ensures SlotNew(s.files, plan, i) || DatabasePhase(s.database, plan.operationId) == Some(Switching)
  {
    hide Consistent, JournalAccepted, Load, ActiveOld, ActiveNew, Finished, Cleaned;
    CurrentFacts(s, plan);
    LoadedFacts(s, plan.operationId);
  }

  lemma InstallReady(s: State, plan: Plan, i: nat)
    requires Consistent(s) && CanInstall(s, plan, i) && SlotReady(s.files, plan, i)
    ensures i < s.Slots()
    ensures var g := MoveToQuarantine(s.files, plan, i);
      && |g.canonical| == s.Slots() && Consistent(s.(files := g)) && SlotMid(g, plan, i)
      && OthersInstalled(s.files, g, plan, i)
    ensures OthersInstalled(s.files, s.files, plan, i)
    ensures i < s.Slots() && At(s.files.quarantine, plan.operationId, i) == Missing
  {
    InstallFacts(s, plan, i);
    hide Consistent, SlotMid;
    var v := InstallStepKeepsConsistent(s, plan, i);
  }

  lemma InstallMid(s: State, plan: Plan, i: nat)
    requires Consistent(s) && CanInstall(s, plan, i) && SlotMid(s.files, plan, i)
    ensures i < s.Slots()
    ensures var g := MoveToCanonical(s.files, plan, i);
      && |g.canonical| == s.Slots() && Consistent(s.(files := g)) && SlotNew(g, plan, i)
      && OthersInstalled(s.files, g, plan, i)
    ensures OthersInstalled(s.files, s.files, plan, i)
    ensures i < s.Slots() && s.files.canonical[i] == Missing
  {
    InstallFacts(s, plan, i);
    hide Consistent;
    var v := InstallStepKeepsConsistent(s, plan, i);
  }

  ghost predicate CanInstallAll(s: State, plan: Plan) {
    && s.current == Some(plan)
    && |plan.members| == s.Slots()
    && DatabasePhase(s.database, plan.operationId) in {Some(Switching), Some(FilesInstalled)}
  }

  // ---------------------------------------------------------------------------
  // Removing
  // ---------------------------------------------------------------------------

  /** An unfinished operation's artifacts may go only after its commit has been journalled. */
  ghost predicate CanRemove(s: State, operationId: nat) {
    s.current.Some? && s.current.value.operationId == operationId ==>
      && operationId in s.summary && s.summary[operationId].Loaded?
      && Order(s.summary[operationId].phase) > Order(DbCommitted)
  }

  predicate OnlyRemoved(f: Files, g: Files, operationId: nat) {
    forall i :: 0 <= i < |f.canonical| ==>
      && At(g.staged, operationId, i) in {At(f.staged, operationId, i), Missing}
      && At(g.quarantine, operationId, i) in {At(f.quarantine, operationId, i), Missing}
  }

  lemma Removed(s: State, operationId: nat, i: nat) returns (v: State, w: State)
    requires Consistent(s) && CanRemove(s, operationId)
    ensures v == s.(files := RemoveQuarantined(s.files, operationId, i)) && Consistent(v) && CanRemove(v, operationId)
    ensures w == s.(files := RemoveStaged(s.files, operationId, i)) && Consistent(w) && CanRemove(w, operationId)
  {
    v, w := RemovalKeepsConsistent(s, operationId, i);
  }

  // ---------------------------------------------------------------------------
  // Where a rotation ends
  // ---------------------------------------------------------------------------

  /** The phase reported to the caller: Aborted, CleanupPending or Completed. */
  datatype Result = Result(phase: Phase, epoch: nat)

  /** Rolled back: every root is the old one, and nothing of the attempt is left. */
  ghost predicate AbortedEnd(s: State, plan: Plan, result: Result) {
    && result == Result(Aborted, plan.epochBefore)
    && Named(s, plan.operationId) && s.summary[plan.operationId].plan == plan
    && JournalPhase(s, plan.operationId) == Aborted
    && DatabasePhase(s.database, plan.operationId) == Some(Aborted)
    && ActiveOld(s.database, plan)
    && Cleaned(s.files, plan.operationId)
    && (s.current == None ==> AllOld(s.files, plan))
  }

  /** Rolled forward: every root is the new one, and the old ones are gone unless their removal is pending. */
  ghost predicate CommittedEnd(s: State, plan: Plan, result: Result) {
    && result.epoch == plan.EpochAfter() && result.phase in {CleanupPending, Completed}
    && Named(s, plan.operationId) && s.summary[plan.operationId].plan == plan
    && JournalPhase(s, plan.operationId) == result.phase
    && DatabasePhase(s.database, plan.operationId) == Some(DbCommitted)
    && ActiveNew(s.database, plan)
    && AllInstalled(s.files, plan)
    && (result.phase == Completed ==> Cleaned(s.files, plan.operationId))
  }

  ghost predicate CanCleanUp(s: State, plan: Plan, receipt: Receipt) {
    && Named(s, plan.operationId) && s.summary[plan.operationId].plan == plan
    && CommittedAs(s.database, plan, receipt) && ActiveNew(s.database, plan)
    && Committed(JournalPhase(s, plan.operationId))
  }

  lemma CleanupFacts(s: State, plan: Plan, receipt: Receipt, serial: nat)
    requires Consistent(s) && CanCleanUp(s, plan, receipt)
    ensures JournalPhase(s, plan.operationId) != Completed ==> s.current == Some(plan)
    ensures JournalPhase(s, plan.operationId) == Completed ==> Cleaned(s.files, plan.operationId)
    ensures |plan.members| == s.Slots()
    ensures ExpectedReceipt(s, plan.operationId, serial) == receipt
    ensures Keeps(s, s, plan.operationId, serial)
  {
    LoadedFacts(s, plan.operationId);
    if s.current.Some? && s.current.value.operationId == plan.operationId {
      CurrentFacts(s, s.current.value);
    }
    KeepsReflexive(s, plan.operationId, serial);
  }

  // ---------------------------------------------------------------------------
  // Going forward
  // ---------------------------------------------------------------------------

  /** Switched, journalled as such, and not yet committed. */
  ghost predicate CanContinue(s: State, plan: Plan) {
    && s.current == Some(plan)
    && Named(s, plan.operationId) && s.summary[plan.operationId].plan == plan
    && DatabasePhase(s.database, plan.operationId) in {Some(Switching), Some(FilesInstalled)}
    && JournalPhase(s, plan.operationId) in {Switching, FilesInstalled}
  }

  ghost predicate InstalledAndRecorded(s: State, plan: Plan)
    requires Named(s, plan.operationId)
  {
    && DatabasePhase(s.database, plan.operationId) == Some(FilesInstalled)
    && JournalPhase(s, plan.operationId) == FilesInstalled
  }

  lemma ContinueFacts(s: State, plan: Plan)
    requires Consistent(s) && CanContinue(s, plan)
    ensures CanInstallAll(s, plan)
    ensures s.database.operations[plan.operationId].plan == plan
    ensures DatabasePhase(s.database, plan.operationId) == Some(Switching) ==>
      JournalPhase(s, plan.operationId) == Switching
  {
    CurrentFacts(s, plan);
    OperationFacts(s, plan);
  }

  /** Before the commit is journalled there is no evidence to contradict. */
  lemma NoEvidenceYet(s: State, plan: Plan, serial: nat)
    requires Consistent(s)
    requires Named(s, plan.operationId) && !Committed(JournalPhase(s, plan.operationId))
    ensures EvidenceOk(s, plan.operationId, serial)
    ensures Keeps(s, s, plan.operationId, serial)
  {
    hide Consistent, JournalAccepted, PlanAccepted, Load, Finished;
    LoadedFacts(s, plan.operationId);
    KeepsReflexive(s, plan.operationId, serial);
    UncommittedRecords(s.journal, plan.operationId, ExpectedReceipt(s, plan.operationId, serial));
  }

  lemma CommittedFacts(s: State, plan: Plan)
    requires Consistent(s) && s.current == Some(plan)
    requires DatabasePhase(s.database, plan.operationId) == Some(DbCommitted)
    ensures ActiveNew(s.database, plan) && AllInstalled(s.files, plan)
    ensures s.database.operations[plan.operationId].receipt.Some?
    ensures CommittedAs(s.database, plan, s.database.operations[plan.operationId].receipt.value)
  {
    hide Consistent, AllOld, AllSwitching, AllNew, AllInstalled, ActiveOld, ActiveNew, Cleaned;
    CurrentFacts(s, plan);
    ReceiptFacts(s, plan.operationId);
    if AllNew(s.files, plan) {
      NewIsInstalled(s.files, plan);
    }
  }

  lemma EvidenceIsNamed(s: State, t: State, plan: Plan, receipt: Receipt, serial: nat)
    requires Keeps(s, t, plan.operationId, serial) && EvidenceOk(s, plan.operationId, serial)
    requires CommittedAs(t.database, plan, receipt)
    ensures EvidenceNames(t.summary[plan.operationId].records, receipt)
  {
  }

  /** seen is the database phase observed before the switch, journalled the phase in the journal. */
  ghost predicate CanSwitch(s: State, plan: Plan, seen: Phase, journalled: Phase) {
    && s.current == Some(plan)
    && Named(s, plan.operationId) && s.summary[plan.operationId].plan == plan
    && JournalPhase(s, plan.operationId) == journalled
    && if Order(seen) < Order(Switching)
       then DatabasePhase(s.database, plan.operationId) == Some(Staged) && journalled == Staged &&
         AllReady(s.files, plan)
       else CanContinue(s, plan)
  }

  lemma SwitchFacts(s: State, plan: Plan, seen: Phase, journalled: Phase, serial: nat)
    requires CanSwitch(s, plan, seen, journalled)
    ensures Extends(s, s, plan.operationId, serial)
  {
    KeepsReflexive(s, plan.operationId, serial);
  }

  // ---------------------------------------------------------------------------
  // Rolling back
  // ---------------------------------------------------------------------------

  /** Staged everywhere and never switched; the database may have aborted already. */
  ghost predicate CanAbort(s: State, plan: Plan) {
    && s.current == Some(plan)
    && Named(s, plan.operationId) && s.summary[plan.operationId].plan == plan
    && JournalPhase(s, plan.operationId) == Staged
    && DatabasePhase(s.database, plan.operationId) in {Some(Staged), Some(Aborted)}
  }

  lemma AbortFacts(s: State, plan: Plan)
    requires Consistent(s) && CanAbort(s, plan)
    ensures s.database.operations[plan.operationId].plan == plan
    ensures DatabasePhase(s.database, plan.operationId) == Some(Aborted) ==>
      s.database.operations[plan.operationId].receipt == None
    ensures s.database.epoch == plan.epochBefore && ActiveOld(s.database, plan)
  {
    hide Consistent, AllOld, AllSwitching, AllNew, AllInstalled, ActiveOld, ActiveNew, Cleaned;
    CurrentFacts(s, plan);
    UnfinishedCases(s, plan);
    OperationFacts(s, plan);
  }

  lemma AbortedFacts(s: State, plan: Plan)
    requires Consistent(s)
    requires Named(s, plan.operationId) && JournalPhase(s, plan.operationId) == Aborted
    ensures CanRemove(s, plan.operationId)
  {
    if s.current.Some? && s.current.value.operationId == plan.operationId {
      CurrentFacts(s, s.current.value);
    }
  }

  lemma AbortedIsOld(s: State, plan: Plan)
    requires Consistent(s) && ActiveOld(s.database, plan) && Cleaned(s.files, plan.operationId)
    ensures s.current == None ==> AllOld(s.files, plan)
  {
    if s.current == None {
      forall i | 0 <= i < |s.files.canonical| ensures SlotOld(s.files, plan, i) {
      }
    }
  }

  // ---------------------------------------------------------------------------
  // Reconciling
  // ---------------------------------------------------------------------------

  /** The database knows the unfinished operation and has reached this phase of it. */
  ghost predicate CanReconcile(s: State, plan: Plan, reached: Phase) {
    && s.current == Some(plan)
    && DatabasePhase(s.database, plan.operationId) == Some(reached)
    && reached != DbCommitted
  }

  /** What holds once journal and database agree on STAGED or on something later. */
  ghost predicate StagedFrom(s: State, plan: Plan, reached: Phase, journalled: Phase) {
    && s.current == Some(plan)
    && Named(s, plan.operationId) && s.summary[plan.operationId].plan == plan
    && JournalPhase(s, plan.operationId) == journalled
    && match reached
       case Prepared => journalled == Staged && DatabasePhase(s.database, plan.operationId) == Some(Staged)
       case Staged => journalled == Staged && DatabasePhase(s.database, plan.operationId) == Some(Staged)
       case Aborted => journalled == Staged && DatabasePhase(s.database, plan.operationId) == Some(Aborted)
       case Switching => journalled == Switching && DatabasePhase(s.database, plan.operationId) == Some(Switching)
       case FilesInstalled =>
         journalled == FilesInstalled && DatabasePhase(s.database, plan.operationId) == Some(FilesInstalled)
       case _ => false
  }

  lemma StagedFacts(s: State, plan: Plan, reached: Phase, journalled: Phase)
    requires Consistent(s) && StagedFrom(s, plan, reached, journalled)
    ensures |plan.members| == s.Slots()
    ensures Order(reached) < Order(Switching) ==> CanAbort(s, plan) && AllOld(s.files, plan) && journalled == Staged
    ensures Order(reached) < Order(Switching) ==> !Switched(s, plan.operationId)
    ensures Order(reached) >= Order(Switching) ==> CanContinue(s, plan) && CanSwitch(s, plan, reached, journalled)
    ensures Order(reached) >= Order(Switching) ==> Switched(s, plan.operationId)
    ensures Order(reached) >= Order(Switching) ==> AllSwitching(s.files, plan) || AllNew(s.files, plan)
  {
    hide Consistent, AllOld, AllSwitching, AllNew, AllInstalled, ActiveOld, ActiveNew;
    CurrentFacts(s, plan);
  }

  /** Aborted if the operation had not switched, committed if it had. */
  ghost predicate EndsAsDecided(s: State, t: State, plan: Plan, result: Result)
    requires plan.operationId in s.summary && s.summary[plan.operationId].Loaded?
  {
    if Switched(s, plan.operationId) then CommittedEnd(t, plan, result) else AbortedEnd(t, plan, result)
  }

  /** The decision is the same wherever it is asked about on the way. */
  lemma EndDecided(s: State, t: State, u: State, plan: Plan, result: Result, serial: nat)
    requires Keeps(s, t, plan.operationId, serial)
    requires EndsAsDecided(t, u, plan, result)
    ensures EndsAsDecided(s, u, plan, result)
    ensures Switched(s, plan.operationId) <==> Switched(t, plan.operationId)
    ensures result.phase == Aborted <==> !Switched(s, plan.operationId)
  {
  }

  lemma ExtendsKeeps(s: State, t: State, plan: Plan, serial: nat)
    requires Extends(s, t, plan.operationId, serial) && Switched(s, plan.operationId)
    ensures Keeps(s, t, plan.operationId, serial)
  {
  }

  /** The database shows the operation committed, and serves its roots. */
  ghost predicate IsCommitted(s: State, plan: Plan) {
    && DatabasePhase(s.database, plan.operationId) == Some(DbCommitted)
    && ActiveNew(s.database, plan)
    && |plan.members| == s.Slots()
  }

  lemma CommittedObserved(s: State, plan: Plan, serial: nat)
    requires Consistent(s) && IsCommitted(s, plan)
    requires Named(s, plan.operationId) && s.summary[plan.operationId].plan == plan
    ensures s.database.operations[plan.operationId].plan == plan
    ensures s.database.operations[plan.operationId].receipt.Some?
    ensures CommittedAs(s.database, plan, s.database.operations[plan.operationId].receipt.value)
    ensures s.database.epoch == plan.EpochAfter()
    ensures || Committed(JournalPhase(s, plan.operationId))
            || (s.current == Some(plan) && JournalPhase(s, plan.operationId) == FilesInstalled)
    ensures Keeps(s, s, plan.operationId, serial)
  {
    hide Cleaned, AllOld, AllNew, AllSwitching, AllInstalled, ActiveOld;
    ReceiptFacts(s, plan.operationId);
    KeepsReflexive(s, plan.operationId, serial);
    if s.current.Some? && s.current.value.operationId == plan.operationId {
      CurrentFacts(s, s.current.value);
    }
  }

  /** An unfinished operation whose commit the database has forgotten. */
  ghost predicate IsLost(s: State, plan: Plan) {
    && s.current == Some(plan)
    && Named(s, plan.operationId) && s.summary[plan.operationId].plan == plan
    && Forgotten(s, plan.operationId)
  }

  lemma LostFacts(s: State, plan: Plan, serial: nat)
    requires Consistent(s) && IsLost(s, plan)
    ensures |plan.members| == s.Slots() && AllInstalled(s.files, plan)
    ensures Keeps(s, s, plan.operationId, serial)
  {
    CurrentFacts(s, plan);
    KeepsReflexive(s, plan.operationId, serial);
    if AllNew(s.files, plan) {
      NewIsInstalled(s.files, plan);
    }
  }

  lemma RecoveredFacts(s: State, plan: Plan, receipt: Receipt)
    requires |plan.members| == s.Slots() && Named(s, plan.operationId)
    ensures IsCommitted(WithCommit(s, plan, receipt), plan)
    ensures WithCommit(s, plan, receipt).database.epoch == plan.EpochAfter()
  {
  }

  /** The operation can be brought to an end: it is unfinished, or finished with nothing after it. */
  ghost predicate Reconcilable(s: State, operationId: nat, serial: nat) {
    && Named(s, operationId)
    && EvidenceOk(s, operationId, serial)
    && (|| s.current == Some(s.summary[operationId].plan)
        || s.database.epoch == (if JournalPhase(s, operationId) == Aborted then s.summary[operationId].plan.epochBefore
                                else s.summary[operationId].plan.EpochAfter()))
  }

  /** No other operation is unfinished. */
  predicate Undisturbed(s: State, operationId: nat) {
    s.current.Some? ==> s.current.value.operationId == operationId
  }

  /** Unfinished, with the database at the epoch before. */
  ghost predicate IsBehind(s: State, plan: Plan) {
    && s.current == Some(plan)
    && Named(s, plan.operationId) && s.summary[plan.operationId].plan == plan
    && DatabasePhase(s.database, plan.operationId) != Some(DbCommitted)
  }

  lemma ReconcileCases(s: State, plan: Plan, serial: nat)
    requires Consistent(s) && Named(s, plan.operationId) && s.summary[plan.operationId].plan == plan
    ensures JournalPhase(s, plan.operationId) == Aborted ==>
      && s.current != Some(plan) && !Switched(s, plan.operationId) && EvidenceOk(s, plan.operationId, serial)
      && DatabasePhase(s.database, plan.operationId) == Some(Aborted)
      && s.database.operations[plan.operationId].plan == plan
      && s.database.operations[plan.operationId].receipt == None
      && (s.database.epoch == plan.epochBefore ==> ActiveOld(s.database, plan))
    ensures JournalPhase(s, plan.operationId) != Aborted && s.database.epoch == plan.EpochAfter() ==>
      && IsCommitted(s, plan) && Switched(s, plan.operationId)
      && (Undisturbed(s, plan.operationId) ==> AllInstalled(s.files, plan))
    ensures JournalPhase(s, plan.operationId) != Aborted && s.database.epoch < plan.EpochAfter() ==> IsBehind(s, plan)
    ensures s.current == Some(plan) ==> s.database.epoch <= plan.EpochAfter()
  {
    hide Consistent, ActiveOld, ActiveNew, AllInstalled, EvidenceOk, Load, JournalAccepted, PlanAccepted, Finished,
         Cleaned, ReceiptMatches;
    LoadedFacts(s, plan.operationId);
    if s.current == Some(plan) {
      UnfinishedCases(s, plan);
    } else {
      FinishedCases(s, plan);
      if JournalPhase(s, plan.operationId) == Aborted {
        NoEvidenceYet(s, plan, serial);
      }
    }
  }

  lemma UnfinishedCases(s: State, plan: Plan)
    requires Consistent(s) && s.current == Some(plan) && Named(s, plan.operationId)
    ensures JournalPhase(s, plan.operationId) != Aborted
    ensures |plan.members| == s.Slots()
    ensures if DatabasePhase(s.database, plan.operationId) == Some(DbCommitted)
            then s.database.epoch == plan.EpochAfter() && ActiveNew(s.database, plan) && AllInstalled(s.files, plan)
            else s.database.epoch == plan.epochBefore
  {
    hide Consistent, AllOld, AllSwitching, AllNew, AllInstalled;
    CurrentFacts(s, plan);
    if DatabasePhase(s.database, plan.operationId) == Some(DbCommitted) {
      CommittedFacts(s, plan);
    }
  }

  lemma FinishedCases(s: State, plan: Plan)
    requires Consistent(s) && s.current != Some(plan)
    requires Named(s, plan.operationId) && s.summary[plan.operationId].plan == plan
    ensures |plan.members| == s.Slots()
    ensures JournalPhase(s, plan.operationId) in {Aborted, Completed}
    ensures DatabasePhase(s.database, plan.operationId) ==
      Some(if JournalPhase(s, plan.operationId) == Aborted then Aborted else DbCommitted)
    ensures JournalPhase(s, plan.operationId) == Aborted && s.database.epoch == plan.epochBefore ==>
      ActiveOld(s.database, plan)
    ensures JournalPhase(s, plan.operationId) == Completed ==> plan.EpochAfter() <= s.database.epoch
    ensures JournalPhase(s, plan.operationId) == Completed && s.database.epoch == plan.EpochAfter() ==>
      ActiveNew(s.database, plan) && (s.current == None ==> AllInstalled(s.files, plan))
    ensures s.current.Some? ==> s.current.value.operationId != plan.operationId
  {
    hide Consistent, ActiveOld, ActiveNew, Quiet, Cleaned, PlanAccepted, Load, JournalAccepted, ReceiptMatches;
    LoadedFacts(s, plan.operationId);
    if s.current.Some? && s.current.value.operationId == plan.operationId {
      CurrentFacts(s, s.current.value);
      assert false;
    }
    if JournalPhase(s, plan.operationId) == Completed && s.database.epoch == plan.EpochAfter() {
      LatestCommit(s, plan);
    }
  }

  /** The operation whose epoch the database is at supplied every root the database serves. */
  lemma LatestCommit(s: State, plan: Plan)
    requires Consistent(s) && s.database.epoch == plan.EpochAfter()
    requires plan.operationId in s.database.operations && s.database.operations[plan.operationId].plan == plan
    requires s.database.operations[plan.operationId].phase == DbCommitted
    ensures ActiveNew(s.database, plan)
    ensures s.current == None ==> AllInstalled(s.files, plan)
  {
    hide Journaled, Ledger, Known, OthersFinished, Quiet, ActiveNew, Unfinished, Cleaned;
    LatestIsActive(s.database, plan, s.commits);
    if s.current == None {
      ActiveIsInstalled(s.files, s.database, plan);
    }
  }

  lemma LatestIsActive(d: Database, plan: Plan, commits: seq<nat>)
    requires Ledger(d, commits) && d.epoch == plan.EpochAfter()
    requires plan.operationId in d.operations && d.operations[plan.operationId].plan == plan
    requires d.operations[plan.operationId].phase == DbCommitted
    ensures ActiveNew(d, plan)
  {
  }

  lemma ActiveIsInstalled(f: Files, d: Database, plan: Plan)
    requires Quiet(f, d) && ActiveNew(d, plan)
    ensures AllInstalled(f, plan)
  {
    forall i | 0 <= i < |f.canonical| ensures SlotInstalled(f, plan, i) {
      assert f.canonical[i] == Holds(d.active[i].token);
    }
  }

  lemma BehindFacts(s: State, plan: Plan, serial: nat)
    requires Consistent(s) && IsBehind(s, plan)
    ensures DatabasePhase(s.database, plan.operationId) == None ==>
      JournalPhase(s, plan.operationId) == Authorized || IsLost(s, plan)
    ensures DatabasePhase(s.database, plan.operationId).Some? ==> EvidenceOk(s, plan.operationId, serial)
    ensures JournalPhase(s, plan.operationId) == Authorized ==> EvidenceOk(s, plan.operationId, serial)
    ensures IsLost(s, plan) ==> Switched(s, plan.operationId)
    ensures Keeps(s, s, plan.operationId, serial)
  {
    hide Consistent, AllOld, AllSwitching, AllNew, AllInstalled, ActiveOld, ActiveNew, EvidenceOk, Keeps;
    CurrentFacts(s, plan);
    KeepsReflexive(s, plan.operationId, serial);
    if !Committed(JournalPhase(s, plan.operationId)) {
      NoEvidenceYet(s, plan, serial);
    }
  }

  // ---------------------------------------------------------------------------
  // Starting
  // ---------------------------------------------------------------------------

  ghost predicate IsAuthorized(s: State, plan: Plan) {
    && s.current == Some(plan)
    && Named(s, plan.operationId) && s.summary[plan.operationId].plan == plan
    && JournalPhase(s, plan.operationId) == Authorized
    && DatabasePhase(s.database, plan.operationId) == None
  }

  ghost predicate CanStage(s: State, plan: Plan) {
    && s.current == Some(plan)
    && Named(s, plan.operationId) && s.summary[plan.operationId].plan == plan
    && DatabasePhase(s.database, plan.operationId) == Some(Prepared)
  }

  ghost predicate OnlyStaged(f: Files, g: Files, plan: Plan, i: nat) {
    && g.canonical == f.canonical && g.quarantine == f.quarantine
    && forall j :: j != i ==> At(g.staged, plan.operationId, j) == At(f.staged, plan.operationId, j)
  }

  predicate AllStaged(f: Files, plan: Plan) {
    forall i :: 0 <= i < |plan.members| ==> At(f.staged, plan.operationId, i) == Holds(plan.members[i].newToken)
  }

  predicate NoneStaged(f: Files, plan: Plan) {
    forall i :: 0 <= i < |plan.members| ==> At(f.staged, plan.operationId, i) == Missing
  }

  lemma StageFacts(s: State, plan: Plan, i: nat, file: File)
    requires Consistent(s) && CanStage(s, plan)
    ensures var g := Stage(s.files, plan, i, file);
      && Consistent(s.(files := g)) && OnlyStaged(s.files, g, plan, i)
      && At(g.staged, plan.operationId, i) == file
  {
    hide Consistent;
    var v := StageKeepsConsistent(s, plan, i, file);
  }

  lemma PreparedFacts(s: State, plan: Plan)
    requires Consistent(s) && CanStage(s, plan)
    ensures AllOld(s.files, plan)
  {
    CurrentFacts(s, plan);
  }

  lemma StagedIsReady(f: Files, plan: Plan)
    requires AllOld(f, plan) && AllStaged(f, plan)
    ensures AllReady(f, plan)
  {
    assert forall i :: 0 <= i < |f.canonical| ==> SlotOld(f, plan, i) && SlotReady(f, plan, i);
  }

  /** What a rotation of a new operation leaves alone. */
  ghost predicate OthersUntouched(s: State, t: State, operationId: nat) {
    && t.Slots() == s.Slots()
    && s.journal <= t.journal
    && t.summary - {operationId} == s.summary
    && t.database.operations - {operationId} == s.database.operations
    && CommitsOnce(s, t, operationId)
  }

  lemma AuthorizedExtends(s: State, plan: Plan, t: State, serial: nat)
    requires plan.operationId !in s.summary && plan.operationId !in s.database.operations
    requires Extends(WithAuthorization(s, plan), t, plan.operationId, serial)
    ensures OthersUntouched(s, t, plan.operationId)
  {
    var a := WithAuthorization(s, plan);
    assert a.summary - {plan.operationId} == s.summary;
    assert s.database.operations - {plan.operationId} == s.database.operations;
  }

  lemma UntouchedReflexive(s: State, operationId: nat, journal: seq<Record>)
    requires operationId !in s.summary && operationId !in s.database.operations
    requires s.journal <= journal
    ensures OthersUntouched(s, s.(journal := journal), operationId)
  {
    assert s.summary - {operationId} == s.summary;
    assert s.database.operations - {operationId} == s.database.operations;
  }

  lemma NewOperationFacts(s: State, operationId: nat)
    requires Consistent(s) && operationId !in s.summary
    ensures operationId !in s.database.operations
    ensures forall k :: k in s.files.staged ==> k.0 != operationId
    ensures |s.database.active| == s.Slots()
  {
  }

  // ---------------------------------------------------------------------------
  // What the journal says of earlier operations
  // ---------------------------------------------------------------------------

  /** Every operation in the journal is finished there. */
  predicate NoneUnfinished(journal: seq<Record>) {
    forall i :: 0 <= i < |journal| ==>
      var prior := Load(journal, journal[i].body.operationId);
      prior.Loaded? && prior.phase in {Completed, Aborted}
  }

  lemma KnownIsRecorded(s: State, operationId: nat) returns (i: nat)
    requires Consistent(s) && operationId in s.summary
    ensures i < |s.journal| && s.journal[i].body.operationId == operationId
  {
    LoadedFacts(s, operationId);
    var selected := Select(s.journal, operationId);
    assert |selected| > 0;
    SelectedComeFrom(s.journal, operationId);
    assert selected[0] in s.journal;
    i :| 0 <= i < |s.journal| && s.journal[i] == selected[0];
  }

  lemma RecordedIsKnown(s: State, i: nat)
    requires Consistent(s) && i < |s.journal|
    ensures s.journal[i].body.operationId in s.summary
  {
    var o := s.journal[i].body.operationId;
    LoadedFacts(s, o);
    SelectedContains(s.journal, i);
  }

  lemma {:induction false} SelectedContains(records: seq<Record>, i: nat)
    requires i < |records|
    ensures records[i] in Select(records, records[i].body.operationId)
    decreases |records|
  {
    if i < |records| - 1 {
      SelectedContains(records[..|records| - 1], i);
    }
  }

  /** Exactly when no rotation is unfinished, the journal vouches for the database's epoch and shows nothing open. */
  lemma JournalAgrees(s: State, epoch: nat)
    requires Consistent(s) && IsLatestEpoch(s.journal, epoch)
    ensures s.current == None <==> NoneUnfinished(s.journal) && epoch == s.database.epoch
    ensures s.current == None ==> epoch == |s.commits|
  {
    hide Consistent, JournalAccepted, PlanAccepted, Cleaned, ReceiptMatches, Finished, Load;
    if s.current == None {
      QuietJournal(s, epoch);
    } else if NoneUnfinished(s.journal) {
      var plan := s.current.value;
      CurrentFacts(s, plan);
      LoadedFacts(s, plan.operationId);
      var i := KnownIsRecorded(s, plan.operationId);
      assert EpochVouchedBy(Load(s.journal, s.journal[i].body.operationId)) == plan.EpochAfter();
    }
  }

  lemma NothingOpen(s: State)
    requires Consistent(s)
    ensures s.current == None ==> NoneUnfinished(s.journal)
    ensures s.current == None ==> forall i :: 0 <= i < |s.journal| ==>
      EpochVouchedBy(Load(s.journal, s.journal[i].body.operationId)) <= s.database.epoch
  {
    hide Consistent, JournalAccepted, PlanAccepted, Cleaned, ActiveOld, ReceiptMatches, Load;
    if s.current == None {
      forall i | 0 <= i < |s.journal|
        ensures var prior := Load(s.journal, s.journal[i].body.operationId);
          prior.Loaded? && prior.phase in {Completed, Aborted} && EpochVouchedBy(prior) <= s.database.epoch
      {
        RecordedIsKnown(s, i);
        LoadedFacts(s, s.journal[i].body.operationId);
      }
    }
  }

  lemma QuietJournal(s: State, epoch: nat)
    requires Consistent(s) && s.current == None && IsLatestEpoch(s.journal, epoch)
    ensures NoneUnfinished(s.journal) && epoch == s.database.epoch == |s.commits|
  {
    hide Consistent, JournalAccepted, PlanAccepted, Cleaned, ActiveOld, ReceiptMatches, Load;
    NothingOpen(s);
    LedgerFacts(s);
    if s.database.epoch > 0 {
      var o := s.commits[s.database.epoch - 1];
      LoadedFacts(s, o);
      var i := KnownIsRecorded(s, o);
      assert EpochVouchedBy(Load(s.journal, s.journal[i].body.operationId)) == s.database.epoch;
    }
    LatestEpochIsUnique(s.journal, epoch, s.database.epoch);
  }

  lemma LedgerFacts(s: State)
    requires Consistent(s)
    ensures |s.commits| == s.database.epoch
    ensures s.database.epoch > 0 ==>
      var o := s.commits[s.database.epoch - 1];
      o in s.database.operations && s.database.operations[o].phase == DbCommitted
      && s.database.operations[o].plan.EpochAfter() == s.database.epoch
  {
    hide Known, OthersFinished, Quiet, Unfinished, Journaled, ActiveNew, Cleaned;
    assert Ledger(s.database, s.commits);
  }

  lemma LatestEpochIsUnique(journal: seq<Record>, a: nat, b: nat)
    requires IsLatestEpoch(journal, a) && IsLatestEpoch(journal, b)
    ensures a == b
  {
    hide Load, EpochVouchedBy;
  }

  lemma QuietFacts(s: State)
    requires Consistent(s)
    ensures s.current == None ==> Quiet(s.files, s.database)
  {
  }

  /** What rotate has checked before the authorization is journalled. */
  ghost predicate CanLaunch(s: State, plan: Plan) {
    && CanAuthorize(s, plan)
    && plan.operationId !in s.database.operations
    && NoneStaged(s.files, plan)
  }

  lemma LaunchFacts(s: State, plan: Plan, serial: nat)
    requires Consistent(s) && CanLaunch(s, plan)
    ensures OthersUntouched(s, s, plan.operationId)
    ensures OthersUntouched(s, WithUnreadable(s, plan), plan.operationId)
    ensures OthersUntouched(s, WithAuthorization(s, plan), plan.operationId)
    ensures IsAuthorized(WithAuthorization(s, plan), plan)
    ensures WithAuthorization(s, plan).files == s.files
    ensures plan.operationId !in s.summary && plan.operationId !in WithUnreadable(s, plan).summary
  {
    hide Consistent, Keeps;
    UntouchedReflexive(s, plan.operationId, s.journal);
    UntouchedReflexive(s, plan.operationId, WithUnreadable(s, plan).journal);
    KeepsReflexive(WithAuthorization(s, plan), plan.operationId, serial);
    KeepsExtends(WithAuthorization(s, plan), WithAuthorization(s, plan), plan.operationId, serial);
    AuthorizedExtends(s, plan, WithAuthorization(s, plan), serial);
  }

  lemma LaunchExtends(s: State, plan: Plan, t: State, serial: nat)
    requires CanLaunch(s, plan)
    requires Keeps(WithAuthorization(s, plan), t, plan.operationId, serial)
    ensures OthersUntouched(s, t, plan.operationId)
  {
    AuthorizedExtends(s, plan, t, serial);
  }

  // ---------------------------------------------------------------------------
  // Convergence
  // ---------------------------------------------------------------------------

  lemma LaunchedFacts(s: State, plan: Plan, t: State, serial: nat)
    requires Consistent(s) && CanLaunch(s, plan) && Consistent(t)
    requires t == WithAuthorization(s, plan) || Extends(WithAuthorization(s, plan), t, plan.operationId, serial)
    ensures forall other :: Reconcilable(t, plan.operationId, other)
    ensures Undisturbed(t, plan.operationId)
    ensures plan.operationId in t.summary && t.summary[plan.operationId].plan == plan
  {
    hide Consistent, Keeps, NoneStaged, EvidenceNames;
    var a := WithAuthorization(s, plan);
    KeepsReflexive(a, plan.operationId, serial);
    KeepsExtends(a, a, plan.operationId, serial);
    assert EvidenceOk(a, plan.operationId, serial) by {
      FirstHasNoEvidence(NextRecord(s.journal, plan, Authorized, None), ExpectedReceipt(a, plan.operationId, serial));
    }
    EpochOnTheWay(a, t, plan, serial);
    forall other ensures Reconcilable(t, plan.operationId, other) {
      AnyReceipt(t, plan.operationId, serial, other);
    }
  }

  lemma FirstHasNoEvidence(record: Record, receipt: Receipt)
    requires record.body.phase == Authorized
    ensures EvidenceNames([record], receipt)
  {
  }

  /** An unfinished operation that has since finished left the epoch where its end says. */
  lemma EpochOnTheWay(s: State, t: State, plan: Plan, serial: nat)
    requires Consistent(t)
    requires s.current == Some(plan) && Extends(s, t, plan.operationId, serial) &&
      s.summary[plan.operationId].plan == plan
    requires s.database.epoch == if DatabasePhase(s.database, plan.operationId) == Some(DbCommitted)
      then plan.EpochAfter() else plan.epochBefore
    ensures t.current == Some(plan) || t.database.epoch ==
      (if JournalPhase(t, plan.operationId) == Aborted then plan.epochBefore else plan.EpochAfter())
  {
    hide Consistent, EvidenceOk, Switched;
    if t.current != Some(plan) {
      FinishedCases(t, plan);
    }
  }

  lemma ReconcilableFacts(s: State, operationId: nat, serial: nat)
    requires Consistent(s) && Reconcilable(s, operationId, serial)
    ensures Named(s, operationId)
    ensures Keeps(s, s, operationId, serial)
  {
    KeepsReflexive(s, operationId, serial);
  }

  /** Steps on behalf of the operation leave it reconcilable. */
  lemma StillReconcilable(s: State, t: State, operationId: nat, serial: nat)
    requires Consistent(s) && Consistent(t)
    requires Reconcilable(s, operationId, serial) && Undisturbed(s, operationId)
    requires Keeps(s, t, operationId, serial)
    ensures Reconcilable(t, operationId, serial) && Undisturbed(t, operationId)
  {
    hide Consistent, EvidenceOk, ActiveOld, ActiveNew, AllInstalled;
    var plan := s.summary[operationId].plan;
    if s.current == Some(plan) {
      UnfinishedCases(s, plan);
      EpochOnTheWay(s, t, plan, serial);
    } else {
      FinishedCases(s, plan);
      FinishedCases(t, plan);
    }
  }

  /** The records of an operation whose commit is journalled name one receipt. */
  lemma OneReceipt(s: State, operationId: nat, a: Receipt, b: Receipt)
    requires Consistent(s) && Named(s, operationId) && Committed(JournalPhase(s, operationId))
    requires EvidenceNames(s.summary[operationId].records, a) && EvidenceNames(s.summary[operationId].records, b)
    ensures a == b
  {
    hide Sound, JournalAccepted, PlanAccepted, ForwardChain, AbortChain, Metadata;
    LoadedFacts(s, operationId);
    var records := s.summary[operationId].records;
    assert Committed(records[|records| - 1].body.phase);
  }

  /** Unless the database has forgotten the commit, no receipt it has yet to issue matters. */
  lemma AnyReceipt(s: State, operationId: nat, serial: nat, other: nat)
    requires Consistent(s) && Reconcilable(s, operationId, serial) && !Forgotten(s, operationId)
    ensures Reconcilable(s, operationId, other)
  {
    hide Consistent, EvidenceNames, ActiveOld, ActiveNew, AllInstalled;
    var plan := s.summary[operationId].plan;
    if !Committed(JournalPhase(s, operationId)) {
      NoEvidenceYet(s, plan, other);
    } else if DatabasePhase(s.database, operationId) == Some(DbCommitted) {
      ReceiptFacts(s, operationId);
    } else if s.current == Some(plan) {
      BehindFacts(s, plan, other);
    } else {
      FinishedCases(s, plan);
    }
  }

  /**
   Steps on behalf of an operation, with whatever receipt, leave it reconcilable for every receipt for which it
   was: in a database that has forgotten the commit there is only one.
   */
  lemma StillReconcilableFor(s: State, t: State, operationId: nat, serial: nat, other: nat)
    requires Consistent(s) && Consistent(t)
    requires Reconcilable(s, operationId, serial) && Undisturbed(s, operationId)
    requires Keeps(s, t, operationId, serial) && Reconcilable(s, operationId, other)
    ensures Reconcilable(t, operationId, other) && Undisturbed(t, operationId) && Keeps(s, t, operationId, other)
  {
    hide Consistent, EvidenceNames, ActiveOld, ActiveNew, AllInstalled;
    StillReconcilable(s, t, operationId, serial);
    if Forgotten(t, operationId) {
      var plan := s.summary[operationId].plan;
      OneReceipt(s, operationId, NewReceipt(plan, serial), NewReceipt(plan, other));
    } else {
      AnyReceipt(t, operationId, serial, other);
    }
  }

  lemma SamePlan(s: State, t: State, operationId: nat, serial: nat)
    requires Keeps(s, t, operationId, serial)
    ensures operationId in s.summary && s.summary[operationId].Loaded? && operationId in t.summary
    ensures t.summary[operationId].plan == s.summary[operationId].plan && t.summary[operationId].Loaded?
    ensures s.summary[operationId].plan.operationId == operationId
  {
  }

  /** Once its end is reported, and unless a removal is pending, nothing is unfinished. */
  lemma EndedIsQuiet(s: State, t: State, plan: Plan, result: Result)
    requires Consistent(t) && Undisturbed(t, plan.operationId)
    requires plan.operationId in s.summary && s.summary[plan.operationId].Loaded?
    requires EndsAsDecided(s, t, plan, result) && result.phase != CleanupPending
    ensures t.current == None
    ensures result.phase in {Aborted, Completed}
  {
    hide Consistent, Switched, ActiveOld, ActiveNew, AllInstalled, Cleaned, AllOld;
    if t.current.Some? {
      CurrentFacts(t, t.current.value);
    }
  }

  lemma UntouchedKeeps(s: State, t: State, u: State, operationId: nat, serial: nat)
    requires OthersUntouched(s, t, operationId) && Keeps(t, u, operationId, serial)
    requires operationId !in s.database.operations
    ensures OthersUntouched(s, u, operationId)
  {
    hide EvidenceOk, Switched;
  }

  // ---------------------------------------------------------------------------
  // Consequences of the invariant
  // ---------------------------------------------------------------------------

  /**
   No root is lost on the way: the database commits only on new files, a switched slot's new root
   is staged or canonical, and its old root is canonical or quarantined until cleanup may begin.
   */
  lemma RootsAreNeverLost(s: State, plan: Plan, i: nat)
    requires Consistent(s) && s.current == Some(plan) && i < s.Slots()
    ensures i < |plan.members| && plan.operationId in s.summary && s.summary[plan.operationId].Loaded?
    ensures DatabasePhase(s.database, plan.operationId) == Some(DbCommitted) ==>
      s.files.canonical[i] == Holds(plan.members[i].newToken)
    ensures Switched(s, plan.operationId) ==>
      Holds(plan.members[i].newToken) in {s.files.canonical[i], At(s.files.staged, plan.operationId, i)}
    ensures Order(JournalPhase(s, plan.operationId)) <= Order(DbCommitted) ==>
      Holds(plan.members[i].oldToken) in {s.files.canonical[i], At(s.files.quarantine, plan.operationId, i)}
  {
    hide Consistent, ActiveOld, ActiveNew, SlotOld, SlotSwitching, SlotNew, SlotInstalled;
    CurrentFacts(s, plan);
    SlotHolds(s.files, plan, i);
  }

  lemma SlotHolds(f: Files, plan: Plan, i: nat)
    requires i < |f.canonical| && i < |plan.members|
    ensures SlotOld(f, plan, i) ==> f.canonical[i] == Holds(plan.members[i].oldToken)
    ensures SlotInstalled(f, plan, i) <==> f.canonical[i] == Holds(plan.members[i].newToken)
    ensures SlotNew(f, plan, i) ==>
      && f.canonical[i] == Holds(plan.members[i].newToken)
      && At(f.quarantine, plan.operationId, i) == Holds(plan.members[i].oldToken)
    ensures SlotSwitching(f, plan, i) ==>
      && Holds(plan.members[i].newToken) in {f.canonical[i], At(f.staged, plan.operationId, i)}
      && Holds(plan.members[i].oldToken) in {f.canonical[i], At(f.quarantine, plan.operationId, i)}
  {
  }

  /** The receipt the database holds for the operation is not the one the journal has recorded. */
  ghost predicate Forked(s: State, operationId: nat) {
    && Named(s, operationId)
    && DatabasePhase(s.database, operationId) == Some(DbCommitted)
    && s.database.operations[operationId].receipt.Some?
    && !EvidenceNames(s.summary[operationId].records, s.database.operations[operationId].receipt.value)
  }

  lemma ForkedIsIrreconcilable(s: State, operationId: nat)
    requires Forked(s, operationId)
    ensures forall serial :: !Reconcilable(s, operationId, serial)
  {
  }

  /**
   A database that recovers a lost commit leaves the operation forked exactly when the receipt it issues is
   not the journalled one, and reconcilable otherwise.
   */
  lemma ForkedReceiptIsFinal(s: State, plan: Plan, serial: nat, later: nat)
    requires Consistent(s) && IsLost(s, plan)
    ensures var t := WithCommit(s, plan, NewReceipt(plan, serial));
      var named := EvidenceNames(s.summary[plan.operationId].records, NewReceipt(plan, serial));
      && (Forked(t, plan.operationId) <==> !named)
      && (Reconcilable(t, plan.operationId, later) <==> named)
  {
    hide Consistent, EvidenceNames;
    RecoveredFacts(s, plan, NewReceipt(plan, serial)) by {
      LostFacts(s, plan, serial);
    }
  }

  lemma RecordsGrow(s: State, t: State, operationId: nat)
    requires Consistent(s) && Consistent(t) && s.journal <= t.journal
    requires Named(s, operationId) && Named(t, operationId)
    ensures s.summary[operationId].records <= t.summary[operationId].records
  {
    hide Sound, Load, Select, JournalAccepted;
    LoadSelects(s.journal, operationId);
    LoadSelects(t.journal, operationId);
    SelectGrows(s.journal, t.journal, operationId);
  }

  /** No step on behalf of any operation takes a fork back. */
  lemma ForkStays(s: State, t: State, operationId: nat, other: nat, serial: nat)
    requires Consistent(s) && Consistent(t) && Forked(s, operationId) && Extends(s, t, other, serial)
    ensures Forked(t, operationId)
  {
    hide Consistent, EvidenceOk, Switched, CommitsOnce;
    if operationId == other {
      RecordsGrow(s, t, operationId);
    } else {
      assert operationId in s.summary - {other} && operationId in t.summary - {other};
      assert (s.summary - {other})[operationId] == (t.summary - {other})[operationId];
      assert operationId in s.database.operations - {other} && operationId in t.database.operations - {other};
      assert (s.database.operations - {other})[operationId] == (t.database.operations - {other})[operationId];
    }
  }

  /** Nor does a new rotation. */
  lemma ForkStaysBeside(s: State, t: State, operationId: nat, other: nat)
    requires Forked(s, operationId) && OthersUntouched(s, t, other)
    ensures Forked(t, operationId)
  {
    hide CommitsOnce;
    assert operationId in t.summary - {other} && operationId in t.database.operations - {other};
    assert (t.summary - {other})[operationId] == s.summary[operationId];
    assert (t.database.operations - {other})[operationId] == s.database.operations[operationId];
  }

  lemma ForkKept(s: State, t: State, operationId: nat, other: nat, serial: nat)
    requires Consistent(s) && Consistent(t) && Keeps(s, t, other, serial)
    ensures Forked(s, operationId) ==> Forked(t, operationId)
  {
    hide Consistent, Forked, Extends;
    if Forked(s, operationId) {
      ForkStays(s, t, operationId, other, serial);
    }
  }

  lemma ForksKept(s: State, t: State, other: nat, serial: nat)
    requires Consistent(s) && Consistent(t) && Keeps(s, t, other, serial)
    ensures forall o :: Forked(s, o) ==> Forked(t, o)
  {
    hide Consistent, Keeps, Forked;
    forall o ensures Forked(s, o) ==> Forked(t, o) {
      ForkKept(s, t, o, other, serial);
    }
  }

  lemma ForksKeptBeside(s: State, t: State, other: nat)
    requires OthersUntouched(s, t, other)
    ensures forall o :: Forked(s, o) ==> Forked(t, o)
  {
    hide OthersUntouched, Forked;
    forall o | Forked(s, o) ensures Forked(t, o) {
      ForkStaysBeside(s, t, o, other);
    }
  }

  lemma ForkedFacts(s: State, operationId: nat, serial: nat)
    ensures Forked(s, operationId) ==> operationId in s.summary && !Reconcilable(s, operationId, serial)
    ensures Reconcilable(s, operationId, serial) ==> operationId in s.summary
  {
  }

  /** The evidence of a lost operation is compared with the receipt that its recovery issues. */
  lemma LostEvidence(s: State, plan: Plan, serial: nat)
    requires IsLost(s, plan)
    ensures Forked(WithCommit(s, plan, NewReceipt(plan, serial)), plan.operationId) <==>
      !EvidenceOk(s, plan.operationId, serial)
  {
    hide EvidenceNames;
  }

  /** The database has lost a commit, and would issue another receipt for it than the journalled one. */
  ghost predicate LosesEvidence(s: State, operationId: nat, serial: nat) {
    && Named(s, operationId)
    && IsLost(s, s.summary[operationId].plan)
    && !EvidenceOk(s, operationId, serial)
  }

  lemma LostIsBehind(s: State, operationId: nat, serial: nat)
    requires Consistent(s)
    ensures LosesEvidence(s, operationId, serial) ==>
      var plan := s.summary[operationId].plan;
      && IsLost(s, plan) && !EvidenceOk(s, operationId, serial)
      && s.database.epoch == plan.epochBefore && JournalPhase(s, operationId) != Aborted
  {
    hide Consistent, EvidenceNames;
    if LosesEvidence(s, operationId, serial) {
      CurrentFacts(s, s.summary[operationId].plan);
    }
  }

  lemma EndIsNamed(s: State, plan: Plan, result: Result)
    requires CommittedEnd(s, plan, result)
    ensures plan.operationId in s.summary && s.summary[plan.operationId].Loaded?
    ensures s.summary[plan.operationId].plan == plan
  {
  }
}
