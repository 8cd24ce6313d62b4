/**
 The rotation coordinator: rotate drives one operation forward, reconcile brings
 it to an end after any interruption.

 Every durable effect consumes one Fault, which decides whether the effect takes
 place and whether the process survives it or is told that it failed. A schedule
 of faults therefore fixes a crash, or a failure, at any point between effects.
 */
module RotationCoordinator {
  import opened Common
  import opened RotationJournal
  import opened RotationProgress
  import opened RotationWorld

  /**
   Busy makes a removal fail; every other effect gets past it by retrying. CrashMid and FailMid cut
   the write of a staged file short; every other effect is atomic and does not happen then.
   */
  datatype Fault = Go | Busy | CrashBefore | CrashMid | CrashAfter | FailBefore | FailMid | FailAfter
  {
    predicate Crashes() { CrashBefore? || CrashMid? || CrashAfter? }

    predicate Applies() { Go? || Busy? || CrashAfter? || FailAfter? }

    function Report<T>(value: T): Outcome<T> {
      if Go? || Busy? then Done(value)
      else if Crashes() then Crashed
      else Thrown(AdapterFailed)
    }
  }

  /** What an effect is for. */
  datatype Effect = Journalling | Advancing | Aborting | Committing | Recovering | Staging | Installing | Removing

  function NextOf(faults: seq<Fault>): Fault { if faults == [] then Go else faults[0] }

  /** An effect that was tried, and what became of it. */
  datatype Act = Act(effect: Effect, fault: Fault)

  datatype Code =
    | AdapterFailed | RotationConflict | TokenGenerationInvalid | HubStopReceiptInvalid | FileWriteFailed
    | CanonicalCredentialUnknown | StagedCredentialMissing | ExternalJournalInvalid | SecurityEpochFork
    | DatabaseReceiptInvalid | DatabaseReconciliationRequired

  datatype Outcome<+T> = Done(value: T) | Thrown(code: Code) | Crashed
  {
    predicate IsFailure() { !Done? }
    function PropagateFailure<U>(): Outcome<U>
      requires IsFailure()
    {
      if Crashed? then Crashed else Thrown(code)
    }
    function Extract(): T
      requires Done?
    {
      value
    }
  }

  /**
   The authorized request; stopConfirmed says that the exact Hub instance confirmed its stop, and
   generated is what the token generator returns slot by slot, None for weak material.
   */
  datatype Request = Request(
    operationId: nat, fingerprint: nat, sourceIsExact: bool, stopConfirmed: bool, generated: seq<Option<Digest>>)

  /** The generator's output can replace every active root. */
  predicate Usable(active: seq<ActiveSlot>, generated: seq<Option<Digest>>) {
    && |active| <= |generated|
    && forall i :: 0 <= i < |active| ==>
         && active[i].generation < MAX_SAFE_INTEGER
         && generated[i].Some?
         && Fresh(generated, i)
         && Unused(active, generated[i].value)
  }

  predicate Fresh(generated: seq<Option<Digest>>, i: nat)
    requires i < |generated|
  {
    forall j :: 0 <= j < i ==> generated[j] != generated[i]
  }

  predicate Unused(active: seq<ActiveSlot>, token: Digest) {
    forall j :: 0 <= j < |active| ==> active[j].token != token
  }

  /** Nothing is unfinished, the Hub has stopped, and there is a fresh root for every slot. */
  predicate Startable(s: State, request: Request) {
    s.current == None && Usable(s.database.active, request.generated) && request.stopConfirmed
  }

  /** The plan takes every slot from its active root and generation to the next. */
  predicate IsPlanFor(s: State, request: Request, plan: Plan) {
    && plan.operationId == request.operationId && plan.authorizationFingerprint == request.fingerprint
    && plan.sourceIsExact == request.sourceIsExact
    && plan.epochBefore == s.database.epoch
    && |plan.members| == |s.database.active| <= |request.generated|
    && forall i :: 0 <= i < |plan.members| ==>
         && request.generated[i].Some?
         && plan.members[i] == Member(s.database.active[i].generation + 1, s.database.active[i].token,
                                      request.generated[i].value)
  }

  /** One epoch later, every slot one generation later, and every file and every slot on its fresh root. */
  ghost predicate Rotated(s: State, t: State, request: Request, result: Result) {
    && t.database.epoch == s.database.epoch + 1 == result.epoch
    && t.commits == s.commits + [request.operationId]
    && |t.database.active| == |s.database.active| == t.Slots() <= |request.generated|
    && (forall i :: 0 <= i < t.Slots() ==>
          && request.generated[i].Some?
          && t.database.active[i] == ActiveSlot(s.database.active[i].generation + 1, request.generated[i].value)
          && t.files.canonical[i] == Holds(request.generated[i].value))
    && (result.phase == Completed ==> Cleaned(t.files, request.operationId))
  }

  /** All that has happened is that the request's unreadable plan was journalled. */
  ghost predicate SpoiltBy(s: State, t: State, request: Request) {
    exists plan :: IsPlanFor(s, request, plan) && t == WithUnreadable(s, plan)
  }

  lemma PlanFacts(s: State, request: Request, plan: Plan)
    requires Consistent(s) && request.operationId !in s.summary
    requires Startable(s, request) && IsPlanFor(s, request, plan)
    ensures CanLaunch(s, plan) && plan.operationId == request.operationId
    ensures PlanAccepted(plan, s.Slots()) <==> request.sourceIsExact && s.database.epoch < MAX_SAFE_INTEGER
  {
    hide Consistent, PlanAccepted;
    NewOperationFacts(s, request.operationId);
    MembersAccepted(s.database.active, request.generated, plan);
  }

  /** Usable material makes a readable plan, as far as its members go. */
  lemma MembersAccepted(active: seq<ActiveSlot>, generated: seq<Option<Digest>>, plan: Plan)
    requires Usable(active, generated) && |plan.members| == |active|
    requires forall i :: 0 <= i < |active| ==>
      plan.members[i] == Member(active[i].generation + 1, active[i].token, generated[i].value)
    ensures PlanAccepted(plan, |active|) <==> plan.sourceIsExact && plan.EpochAfter() <= MAX_SAFE_INTEGER
  {
    forall i | 0 <= i < |active|
      ensures plan.members[i].generation <= MAX_SAFE_INTEGER && plan.members[i].newToken != plan.members[i].oldToken
      ensures forall j :: 0 <= j < i ==> plan.members[j].newToken != plan.members[i].newToken
    {
      assert Fresh(generated, i) && Unused(active, generated[i].value);
    }
  }

  /** The database and every credential file are as they were, and nothing of the attempt is left. */
  ghost predicate RolledBack(s: State, t: State, operationId: nat) {
    && t.database.epoch == s.database.epoch
    && t.database.active == s.database.active
    && t.commits == s.commits
    && t.files.canonical == s.files.canonical
    && Cleaned(t.files, operationId)
  }

  lemma EndsOldOrNew(s: State, t: State, u: State, request: Request, result: Result, serial: nat)
    requires Consistent(s) && request.operationId !in s.summary && request.operationId !in s.database.operations
    requires Consistent(u) && u.current == None
    requires request.operationId in t.summary && t.summary[request.operationId].Loaded?
    requires Startable(s, request) && IsPlanFor(s, request, t.summary[request.operationId].plan)
    requires OthersUntouched(s, t, request.operationId)
    requires Keeps(t, u, request.operationId, serial)
    requires EndsAsDecided(t, u, t.summary[request.operationId].plan, result)
    ensures result.phase == Aborted ==> RolledBack(s, u, request.operationId)
    ensures result.phase != Aborted ==> Rotated(s, u, request, result)
    ensures request.operationId in u.summary
  {
    hide Consistent, Usable, Cleaned, ActiveOld, ActiveNew, AllOld, AllInstalled, EvidenceOk, Switched, Rotated;
    var plan := t.summary[request.operationId].plan;
    UntouchedKeeps(s, t, u, request.operationId, serial);
    if result.phase == Aborted {
      QuietFacts(s);
      QuietFacts(u);
      SameRoots(s, u);
    } else {
      LaunchedIsRotated(s, u, request, plan, result);
    }
  }

  lemma SameRoots(s: State, t: State)
    requires Quiet(s.files, s.database) && Quiet(t.files, t.database)
    requires s.database.active == t.database.active
    ensures s.files.canonical == t.files.canonical
  {
    forall i | 0 <= i < |s.files.canonical| ensures s.files.canonical[i] == t.files.canonical[i] {
    }
  }

  lemma LaunchedIsRotated(s: State, t: State, request: Request, plan: Plan, result: Result)
    requires IsPlanFor(s, request, plan)
    requires OthersUntouched(s, t, request.operationId) && CommittedEnd(t, plan, result)
    requires request.operationId !in s.database.operations
    ensures Rotated(s, t, request, result)
  {
    forall i | 0 <= i < t.Slots()
      ensures t.files.canonical[i] == Holds(plan.members[i].newToken)
    {
      assert SlotInstalled(t.files, plan, i);
    }
  }

  predicate AllGo(faults: seq<Fault>) {
    forall i :: 0 <= i < |faults| ==> faults[i].Go?
  }

  /** No crash and no failed effect, except that files may refuse to be removed. */
  predicate Calm(faults: seq<Fault>) {
    forall i :: 0 <= i < |faults| ==> faults[i].Go? || faults[i].Busy?
  }

  /** assertOperationMatches: the database knows the operation by this plan. */
  predicate Matches(d: Database, plan: Plan) {
    plan.operationId in d.operations && d.operations[plan.operationId].plan == plan
  }

  /** exactCommittedObservation: the receipt, if the database shows exactly this plan committed. */
  function ExactCommitted(d: Database, plan: Plan): Outcome<Receipt> {
    if !Matches(d, plan) then Thrown(SecurityEpochFork)
    else
      var operation := d.operations[plan.operationId];
      if d.epoch != plan.EpochAfter() || operation.phase != DbCommitted || operation.receipt.None?
         || !ActiveNew(d, plan) then Thrown(SecurityEpochFork)
      else if !ReceiptMatches(operation.receipt.value, plan.operationId, plan) then Thrown(DatabaseReceiptInvalid)
      else Done(operation.receipt.value)
  }

  /** assertAbortedObservation: the database shows this plan aborted and every old root active. */
  predicate AbortedObserved(d: Database, plan: Plan) {
    && Matches(d, plan)
    && d.epoch == plan.epochBefore
    && d.operations[plan.operationId].phase == Aborted
    && d.operations[plan.operationId].receipt == None
    && ActiveOld(d, plan)
  }

  datatype FileState = OldFile | NewFile | MissingFile

  /** The state of a canonical file, None for one that is neither root. */
  function StateOf(file: File, member: Member): Option<FileState> {
    if file == Missing then Some(MissingFile)
    else if file == Holds(member.oldToken) then Some(OldFile)
    else if file == Holds(member.newToken) then Some(NewFile)
    else None
  }

  /** Every canonical file is the old root, the new one, or missing. */
  predicate AllKnown(f: Files, plan: Plan) {
    && |plan.members| == |f.canonical|
    && forall i :: 0 <= i < |f.canonical| ==>
         f.canonical[i] in {Missing, Holds(plan.members[i].oldToken), Holds(plan.members[i].newToken)}
  }

  lemma OldIsKnown(f: Files, plan: Plan)
    ensures AllOld(f, plan) ==> AllKnown(f, plan)
    ensures AllOld(f, plan) ==>
      forall i :: 0 <= i < |f.canonical| ==> StateOf(f.canonical[i], plan.members[i]) == Some(OldFile)
  {
    if AllOld(f, plan) {
      forall i | 0 <= i < |f.canonical| ensures StateOf(f.canonical[i], plan.members[i]) == Some(OldFile) {
        assert SlotOld(f, plan, i);
      }
    }
  }

  lemma SwitchingIsKnown(f: Files, plan: Plan)
    ensures AllSwitching(f, plan) || AllNew(f, plan) ==> AllKnown(f, plan)
  {
    if AllSwitching(f, plan) || AllNew(f, plan) {
      forall i | 0 <= i < |f.canonical| ensures StateOf(f.canonical[i], plan.members[i]).Some? {
        assert (AllSwitching(f, plan) ==> SlotSwitching(f, plan, i)) && (AllNew(f, plan) ==> SlotNew(f, plan, i));
      }
    }
  }

  /** append finds this phase, or a later one, already journalled. */
  predicate Passed(journal: Phase, phase: Phase) {
    if phase == Aborted then journal == Aborted else journal == phase || Order(journal) > Order(phase)
  }

  /**
   The call can go on: the effect took place and was reported, or it is the commit or the abort and only the
   report was lost, or it is a removal, which may fail.
   */
  predicate Survivable(act: Act) {
    || act.fault.Go? || act.fault.Busy?
    || (act.fault.FailAfter? && (act.effect.Committing? || act.effect.Aborting?))
    || (act.effect.Removing? && (act.fault.FailBefore? || act.fault.FailMid? || act.fault.FailAfter?))
  }

  /** The process is still there. */
  predicate Survived(log: seq<Act>) { forall i :: 0 <= i < |log| ==> !log[i].fault.Crashes() }

  predicate Untroubled(log: seq<Act>) { forall i :: 0 <= i < |log| ==> Survivable(log[i]) }

  /** And no removal failed. */
  predicate Unhindered(log: seq<Act>) { Untroubled(log) && AllRemoved(log) }

  predicate AllRemoved(log: seq<Act>) { forall i :: 0 <= i < |log| && log[i].effect.Removing? ==> log[i].fault.Go? }

  /** The effects tried so far met the script's faults in order, and the rest of the script is ahead. */
  predicate Aligned(script: seq<Fault>, log: seq<Act>, faults: seq<Fault>) {
    && (forall i :: 0 <= i < |log| ==> log[i].fault == if i < |script| then script[i] else Go)
    && faults == if |log| <= |script| then script[|log|..] else []
  }

  /** The next effect takes place, and its report is lost; nothing else fails. */
  predicate LosesAnswer(faults: seq<Fault>) { faults != [] && faults[0].FailAfter? && Calm(faults[1..]) }

  lemma NothingLogged(faults: seq<Fault>)
    ensures Untroubled([]) && Unhindered([]) && Survived([]) && Aligned(faults, [], faults)
  {
  }

  lemma LogGrows(log: seq<Act>, act: Act)
    ensures Survived(log + [act]) <==> Survived(log) && !act.fault.Crashes()
    ensures Untroubled(log + [act]) <==> Untroubled(log) && Survivable(act)
    ensures AllRemoved(log + [act]) <==> AllRemoved(log) && (act.effect.Removing? ==> act.fault.Go?)
  {
    assert forall i :: 0 <= i < |log| ==> (log + [act])[i] == log[i];
    assert (log + [act])[|log|] == act;
  }

  lemma CommittedPhase(d: Database, plan: Plan, receipt: Receipt)
    requires CommittedAs(d, plan, receipt)
    ensures DatabasePhase(d, plan.operationId) == Some(DbCommitted)
  {
  }

  lemma NoFaultsAllGo(faults: seq<Fault>)
    requires faults == []
    ensures AllGo(faults)
  {
  }

  lemma GoIsCalm(faults: seq<Fault>)
    ensures AllGo(faults) ==> Calm(faults)
  {
  }

  const RECOVERABLE: seq<Phase> := [Prepared, Staged, Switching, FilesInstalled]

  /** The phase the journal holds once it has caught up with the database. */
  function CaughtUp(loaded: Operation, reached: Phase): Phase
    requires loaded.Loaded?
  {
    if reached in RECOVERABLE then reached else loaded.phase
  }

  class Coordinator {
    const slots: nat
    var journal: seq<Record>
    var files: Files
    var database: Database
    var faults: seq<Fault>
    ghost var summary: Summary
    ghost var current: Option<Plan>
    ghost var commits: seq<nat>
    /** The faults this call of rotate or reconcile was begun with, and the effects it has tried. */
    ghost var script: seq<Fault>
    ghost var log: seq<Act>

    ghost function Now(): State
      reads this
    {
      State(journal, files, database, summary, current, commits)
    }

    ghost predicate Valid()
      reads this
    {
      |files.canonical| == slots && Consistent(Now())
    }

    /** Faults are only consumed, and every effect is logged. */
    twostate predicate Later()
      reads this
    {
      && script == old(script)
      && (Aligned(script, old(log), old(faults)) ==> Aligned(script, log, faults))
      && (Untroubled(log) ==> Untroubled(old(log)))
      && (Unhindered(log) ==> Unhindered(old(log)))
      && (old(Calm(faults)) ==> Calm(faults) && (Untroubled(old(log)) ==> Untroubled(log)))
      && (old(AllGo(faults)) ==> AllGo(faults) && (Unhindered(old(log)) ==> Unhindered(log)))
    }

    /** The log is that of this call. */
    twostate predicate Traced()
      reads this
    {
      && Aligned(old(faults), log, faults)
      && (old(Calm(faults)) ==> Calm(faults) && Untroubled(log))
      && (old(AllGo(faults)) ==> AllGo(faults) && Unhindered(log))
    }

    constructor (canonical: seq<File>, active: seq<ActiveSlot>)
      requires Quiet(Files(canonical, map[], map[]), Database(0, active, map[]))
      ensures Valid() && Now() == State([], Files(canonical, map[], map[]), Database(0, active, map[]), map[], None, [])
      ensures faults == [] && log == [] && script == []
    {
      slots := |canonical|;
      journal, files := [], Files(canonical, map[], map[]);
      database := Database(0, active, map[]);
      faults := [];
      summary, current, commits := map[], None, [];
      script, log := [], [];
    }

    /** The next effect meets its fault. Nothing is tried after a crash. */
    method NextFault(ghost effect: Effect) returns (fault: Fault)
      requires Survived(log)
      modifies `faults, `log
      ensures Later() && log == old(log) + [Act(effect, fault)]
      ensures fault == NextOf(old(faults))
      ensures faults == if old(faults) == [] then [] else old(faults)[1..]
      ensures Survived(log) <==> !fault.Crashes()
      ensures Untroubled(log) <==> Untroubled(old(log)) && Survivable(Act(effect, fault))
      ensures AllRemoved(log) <==> AllRemoved(old(log)) && (effect.Removing? ==> fault.Go?)
      ensures old(AllGo(faults)) ==> fault.Go?
      ensures old(Calm(faults)) ==> fault.Go? || fault.Busy?
    {
      if faults == [] {
        fault := Go;
      } else {
        fault, faults := faults[0], faults[1..];
      }
      LogGrows(log, Act(effect, fault));
      log := log + [Act(effect, fault)];
    }

    // -------------------------------------------------------------------------
    // Durable effects
    // -------------------------------------------------------------------------

    /** appendJournal for the AUTHORIZED record: an unreadable plan is written all the same, and then refused. */
    method AppendAuthorized(plan: Plan) returns (r: Outcome<()>)
      requires Survived(log)
      requires Valid() && CanAuthorize(Now(), plan)
      modifies this
      ensures r.Crashed? <==> !Survived(log)
      ensures Later()
      ensures Now() == old(Now()) || Now() == Authorizing(old(Now()), plan)
      ensures Now() == old(Now()) || PlanAccepted(plan, slots) ==> Valid()
      ensures Now() != old(Now()) && !PlanAccepted(plan, slots) ==> !JournalAccepted(journal, slots)
      ensures r.Done? ==> PlanAccepted(plan, slots) && Now() == WithAuthorization(old(Now()), plan)
      ensures Untroubled(log) ==> Now() != old(Now()) && (r.Done? <==> PlanAccepted(plan, slots))
      ensures Untroubled(log) && !PlanAccepted(plan, slots) ==> r == Thrown(ExternalJournalInvalid)
      ensures Now() == if NextOf(old(faults)).Applies() then Authorizing(old(Now()), plan) else old(Now())
      ensures PlanAccepted(plan, slots) ==> r == NextOf(old(faults)).Report(())
    {
      ghost var before := Now();
      hide Consistent, JournalAccepted, CanAuthorize, PlanAccepted, AllGo, Calm, Survived, Untroubled, AllRemoved,
           Aligned, NextRecord;
      var fault := NextFault(Journalling);
      if !fault.Applies() {
        return fault.Report(());
      }
      ghost var after := AuthorizeOutcome(before, plan);
      journal := journal + [NextRecord(journal, plan, Authorized, None)];
      summary, current := after.summary, after.current;
      var accepted := ReadJournal(journal, slots);
      if !accepted {
        return if fault.CrashAfter? then Crashed else Thrown(ExternalJournalInvalid);
      }
      return fault.Report(());
    }

    /** appendJournal for every later record. */
    method WriteRecord(plan: Plan, phase: Phase, evidence: Option<Receipt>) returns (r: Outcome<()>)
      requires Survived(log)
      requires Valid() && current == Some(plan) && plan.operationId in summary && summary[plan.operationId].Loaded?
      requires CanRecord(Now(), plan, phase, evidence)
      modifies `journal, `summary, `current, `faults, `log
      ensures r.Crashed? <==> !Survived(log)
      ensures Valid() && Later()
      ensures Now() == old(Now()) || Now() == WithRecord(old(Now()), plan, phase, evidence)
      ensures r.Done? ==> Now() == WithRecord(old(Now()), plan, phase, evidence)
      ensures Untroubled(log) ==> r.Done?
      ensures r == NextOf(old(faults)).Report(())
      ensures Now() ==
        if NextOf(old(faults)).Applies() then WithRecord(old(Now()), plan, phase, evidence) else old(Now())
    {
      ghost var before := Now();
      hide Consistent, AllGo, Calm, Survived, Untroubled, AllRemoved, Aligned, CanRecord;
      var fault := NextFault(Journalling);
      if fault.Applies() {
        ghost var after := RecordKeepsConsistent(before, plan, phase, evidence);
        journal := journal + [NextRecord(journal, plan, phase, evidence)];
        summary, current := after.summary, after.current;
      }
      return fault.Report(());
    }

    /** append: a phase already journalled is not written again. */
    method Append(plan: Plan, phase: Phase, evidence: Option<Receipt>, ghost serial: nat) returns (r: Outcome<()>)
      requires Survived(log)
      requires Valid() && plan.operationId in summary && summary[plan.operationId].Loaded?
      requires summary[plan.operationId].plan == plan
      requires phase != Authorized
      requires || Passed(summary[plan.operationId].phase, phase)
               || (current == Some(plan) && CanRecord(Now(), plan, phase, evidence))
      requires evidence.Some? ==> ExpectedReceipt(Now(), plan.operationId, serial) == evidence.value
      modifies `journal, `summary, `current, `faults, `log
      ensures r.Crashed? <==> !Survived(log)
      ensures Valid() && Later() && Keeps(old(Now()), Now(), plan.operationId, serial)
      ensures || Now() == old(Now())
              || (!Passed(old(summary)[plan.operationId].phase, phase) &&
                Now() == WithRecord(old(Now()), plan, phase, evidence))
      ensures r.Done? ==> Now() == (if Passed(old(summary)[plan.operationId].phase, phase) then old(Now())
                                    else WithRecord(old(Now()), plan, phase, evidence))
      ensures Untroubled(log) ==> r.Done?
    {
      hide Consistent, Load, JournalAccepted, AllGo, Calm, Survived, Untroubled, AllRemoved, Aligned, WithRecord,
           Finished, PlanAccepted, Cleaned, Keeps, ExpectedReceipt;
      LoadedFacts(Now(), plan.operationId);
      KeepsReflexive(Now(), plan.operationId, serial);
      var existing := Load(journal, plan.operationId);
      if phase == Aborted {
        if existing.phase == Aborted {
          return Done(());
        }
        if existing.phase != Staged {
          return Thrown(ExternalJournalInvalid);
        }
      } else if existing.phase == phase || Order(existing.phase) > Order(phase) {
        return Done(());
      }
      RecordKeeps(Now(), plan, phase, evidence, serial);
      r := WriteRecord(plan, phase, evidence);
    }

    /** database.prepare and database.advance. The database refuses an unexpected phase. */
    method Advance(plan: Plan, expected: Option<Phase>, next: Phase, ghost serial: nat) returns (r: Outcome<()>)
      requires Survived(log)
      requires Valid() && current == Some(plan)
      requires plan.operationId in summary && summary[plan.operationId].Loaded?
      requires DatabasePhase(database, plan.operationId) == expected ==>
                 MayMove(files, database, plan, summary[plan.operationId].phase, next)
      modifies `database, `faults, `log
      ensures r.Crashed? <==> !Survived(log)
      ensures Valid() && Later()
      ensures Extends(old(Now()), Now(), plan.operationId, serial)
      ensures next != Switching ==> Keeps(old(Now()), Now(), plan.operationId, serial)
      ensures Now() == old(Now())
           || (&& old(DatabasePhase(database, plan.operationId)) == expected
               && Now() == old(Now()).(database := SetOperation(old(database), plan, next)))
      ensures r.Done? ==> Now() == old(Now()).(database := SetOperation(old(database), plan, next))
      ensures DatabasePhase(database, plan.operationId) in {old(DatabasePhase(database, plan.operationId)), Some(next)}
      ensures r.Done? ==> DatabasePhase(database, plan.operationId) == Some(next)
      ensures Untroubled(log) ==> !r.Crashed?
      ensures Untroubled(log) && old(DatabasePhase(database, plan.operationId)) == expected ==>
        DatabasePhase(database, plan.operationId) == Some(next) && (next != Aborted ==> r.Done?)
      ensures next == Aborted && old(DatabasePhase(database, plan.operationId)) == expected ==>
        LosesAnswer(old(faults)) && Untroubled(old(log)) ==> Untroubled(log) && faults == old(faults)[1..]
      ensures AllRemoved(log) <==> AllRemoved(old(log))
      ensures if old(DatabasePhase(database, plan.operationId)) == expected
        then
          && r == NextOf(old(faults)).Report(())
          && Now() == if NextOf(old(faults)).Applies()
                      then old(Now()).(database := SetOperation(old(database), plan, next)) else old(Now())
        else r == Thrown(AdapterFailed) && Now() == old(Now())
    {
      hide Consistent, MayMove, AllGo, Calm, Survived, Untroubled, AllRemoved, Aligned, Keeps, Extends;
      ghost var before := Now();
      OperationFacts(before, plan);
      KeepsReflexive(before, plan.operationId, serial);
      KeepsExtends(before, before, plan.operationId, serial);
      if DatabasePhase(database, plan.operationId) != expected {
        return Thrown(AdapterFailed);
      }
      var fault := NextFault(if next == Aborted then Aborting else Advancing);
      if fault.Applies() {
        Move(plan, next, serial);
      }
      return fault.Report(());
    }

    /** The transaction itself. */
    method Move(plan: Plan, next: Phase, ghost serial: nat)
      requires Valid() && current == Some(plan) && plan.operationId in summary && summary[plan.operationId].Loaded?
      requires MayMove(files, database, plan, summary[plan.operationId].phase, next)
      modifies `database
      ensures Valid() && Extends(old(Now()), Now(), plan.operationId, serial)
      ensures next != Switching ==> Keeps(old(Now()), Now(), plan.operationId, serial)
      ensures Now() == old(Now()).(database := SetOperation(old(database), plan, next))
      ensures DatabasePhase(database, plan.operationId) == Some(next)
    {
      hide Consistent, MayMove, Keeps, Extends;
      ghost var before := Now();
      OperationFacts(before, plan);
      ghost var after := MoveKeepsConsistent(before, plan, next);
      MoveExtends(before, plan, next, serial);
      if next != Switching {
        KeepsExtends(before, after, plan.operationId, serial);
      }
      database := SetOperation(database, plan, next);
    }

    /** database.commit and database.recoverExternal: one transaction, replayed once it has committed. */
    method Commit(plan: Plan, serial: nat, ghost effect: Effect) returns (r: Outcome<Receipt>)
      requires Survived(log)
      requires Valid() && plan.operationId in summary && summary[plan.operationId].Loaded?
      requires summary[plan.operationId].plan == plan
      requires effect.Committing? || effect.Recovering?
      requires || DatabasePhase(database, plan.operationId) == Some(DbCommitted)
               || (current == Some(plan) && CanCommit(Now(), plan))
      modifies `database, `current, `commits, `faults, `log
      ensures r.Crashed? <==> !Survived(log)
      ensures Valid() && Later() && Keeps(old(Now()), Now(), plan.operationId, serial)
      ensures || Now() == old(Now())
              || (&& old(DatabasePhase(database, plan.operationId)) != Some(DbCommitted)
                  && Now() == WithCommit(old(Now()), plan, NewReceipt(plan, serial)))
      ensures old(DatabasePhase(database, plan.operationId)) != Some(DbCommitted) ==>
        && r == NextOf(old(faults)).Report(NewReceipt(plan, serial))
        && Now() == if NextOf(old(faults)).Applies() then WithCommit(old(Now()), plan, NewReceipt(plan, serial))
                    else old(Now())
      ensures r.Done? ==> CommittedAs(database, plan, r.value)
      ensures r.Done? ==> r.value == ExpectedReceipt(old(Now()), plan.operationId, serial)
      ensures Untroubled(log) ==> DatabasePhase(database, plan.operationId) == Some(DbCommitted)
      ensures Untroubled(log) ==> !r.Crashed? && (effect.Recovering? ==> r.Done?)
      ensures effect.Committing? && old(DatabasePhase(database, plan.operationId)) != Some(DbCommitted) ==>
        LosesAnswer(old(faults)) && Untroubled(old(log)) ==> Untroubled(log) && Calm(faults)
    {
      hide Consistent, CanCommit, AllGo, Calm, Survived, Untroubled, AllRemoved, Aligned, CommittedAs, CommitDatabase,
           NewReceipt, NewActive, Keeps;
      ghost var before := Now();
      ReceiptFacts(before, plan.operationId);
      NamedFacts(before, plan.operationId);
      KeepsReflexive(before, plan.operationId, serial);
      if DatabasePhase(database, plan.operationId) == Some(DbCommitted) {
        return Done(database.operations[plan.operationId].receipt.value);
      }
      var fault := NextFault(effect);
      var receipt := NewReceipt(plan, serial);
      if fault.Applies() {
        OperationFacts(before, plan);
        Transact(plan, serial);
      }
      return fault.Report(receipt);
    }

    /** The transaction itself. */
    method Transact(plan: Plan, serial: nat)
      requires Valid() && plan.operationId in summary && summary[plan.operationId].Loaded?
      requires summary[plan.operationId].plan == plan && current == Some(plan) && CanCommit(Now(), plan)
      requires DatabasePhase(database, plan.operationId) != Some(DbCommitted)
      modifies `database, `current, `commits
      ensures Valid() && Keeps(old(Now()), Now(), plan.operationId, serial)
      ensures Now() == WithCommit(old(Now()), plan, NewReceipt(plan, serial))
      ensures DatabasePhase(database, plan.operationId) == Some(DbCommitted)
      ensures CommittedAs(database, plan, NewReceipt(plan, serial))
    {
      hide Consistent, CanCommit, CommittedAs, CommitDatabase, NewReceipt, NewActive, Keeps;
      ghost var before := Now();
      ghost var after := CommitKeepsConsistent(before, plan, serial);
      ReceiptFacts(before, plan.operationId);
      OperationFacts(before, plan);
      CommitKeeps(before, plan, serial);
      database := CommitDatabase(database, plan, NewReceipt(plan, serial));
      current, commits := after.current, after.commits;
      CommittedPhase(database, plan, NewReceipt(plan, serial));
    }

    // -------------------------------------------------------------------------
    // Files
    // -------------------------------------------------------------------------

    /** canonical to quarantine: the first rename of a slot's installation. */
    method QuarantineSlot(plan: Plan, i: nat) returns (r: Outcome<()>)
      requires Survived(log)
      requires Valid() && CanInstall(Now(), plan, i) && SlotReady(files, plan, i)
      modifies `files, `faults, `log
      ensures r.Crashed? <==> !Survived(log)
      ensures Valid() && Later() && OthersInstalled(old(files), files, plan, i)
      ensures r.Done? ==> SlotMid(files, plan, i)
      ensures files == if NextOf(old(faults)).Applies() then MoveToQuarantine(old(files), plan, i) else old(files)
      ensures Untroubled(log) ==> r.Done?
    {
      hide Consistent, CanInstall, AllGo, Calm, Survived, Untroubled, AllRemoved, Aligned, SlotReady, SlotMid,
           OthersInstalled, MoveToQuarantine;
      InstallReady(Now(), plan, i);
      ghost var before := Now();
      if At(files.quarantine, plan.operationId, i) != Missing {
        return Thrown(FileWriteFailed);
      }
      var fault := NextFault(Installing);
      if fault.Applies() {
        files := MoveToQuarantine(files, plan, i);
      }
      return fault.Report(());
    }

    /** staged to canonical: the second rename of a slot's installation. */
    method PromoteSlot(plan: Plan, i: nat) returns (r: Outcome<()>)
      requires Survived(log)
      requires Valid() && CanInstall(Now(), plan, i) && SlotMid(files, plan, i)
      modifies `files, `faults, `log
      ensures r.Crashed? <==> !Survived(log)
      ensures Valid() && Later() && OthersInstalled(old(files), files, plan, i)
      ensures r.Done? ==> SlotNew(files, plan, i)
      ensures files == if NextOf(old(faults)).Applies() then MoveToCanonical(old(files), plan, i) else old(files)
      ensures Untroubled(log) ==> r.Done?
    {
      hide Consistent, CanInstall, AllGo, Calm, Survived, Untroubled, AllRemoved, Aligned, SlotMid, SlotNew,
           OthersInstalled, MoveToCanonical;
      InstallMid(Now(), plan, i);
      ghost var before := Now();
      if files.canonical[i] != Missing {
        return Thrown(FileWriteFailed);
      }
      var fault := NextFault(Installing);
      if fault.Applies() {
        files := MoveToCanonical(files, plan, i);
      }
      return fault.Report(());
    }

    /** One turn of installAll's loop: from any of the three switching states of a slot to the last. */
    method InstallSlot(plan: Plan, i: nat) returns (r: Outcome<()>)
      requires Survived(log)
      requires Valid() && CanInstall(Now(), plan, i)
      modifies `files, `faults, `log
      ensures r.Crashed? <==> !Survived(log)
      ensures Valid() && Later() && OthersInstalled(old(files), files, plan, i)
      ensures r.Done? ==> SlotNew(files, plan, i)
      ensures Untroubled(log) ==> r.Done?
    {
      hide Consistent, AllGo, Calm, Survived, Untroubled, AllRemoved, Aligned;
      InstallFacts(Now(), plan, i);
      var member := plan.members[i];
      var current, old_ := files.canonical[i], At(files.quarantine, plan.operationId, i);
      if current == Holds(member.newToken) {
        return Done(());
      }
      if current == Holds(member.oldToken) {
        if old_ != Missing {
          return Thrown(CanonicalCredentialUnknown);
        }
        var _ :- QuarantineSlot(plan, i);
      } else if current != Missing || old_ != Holds(member.oldToken) {
        return Thrown(CanonicalCredentialUnknown);
      }
      if At(files.staged, plan.operationId, i) != Holds(member.newToken) {
        return Thrown(StagedCredentialMissing);
      }
      r := PromoteSlot(plan, i);
    }

    /** installAll: completes the switch from wherever it was interrupted. */
    method InstallAll(plan: Plan) returns (r: Outcome<()>)
      requires Survived(log)
      requires Valid() && CanInstallAll(Now(), plan)
      modifies `files, `faults, `log
      ensures r.Crashed? <==> !Survived(log)
      ensures Valid() && Later() && |files.canonical| == |old(files).canonical|
      ensures r.Done? ==> AllNew(files, plan)
      ensures Untroubled(log) ==> r.Done?
    {
      hide Consistent, AllGo, Calm, Survived, Untroubled, AllRemoved, Aligned, SlotNew;
      for i := 0 to |plan.members|
        invariant Survived(log) && Valid() && Later() && CanInstallAll(Now(), plan)
        invariant forall j :: 0 <= j < i ==> SlotNew(files, plan, j)
      {
        assert CanInstall(Now(), plan, i);
        var _ :- InstallSlot(plan, i);
      }
      return Done(());
    }

    /** assertCanonicalNew: every canonical file is the plan's new one. */
    method CanonicalIsNew(plan: Plan) returns (exact: bool)
      requires |plan.members| == |files.canonical|
      ensures exact <==> AllInstalled(files, plan)
    {
      for i := 0 to |plan.members|
        invariant forall j :: 0 <= j < i ==> SlotInstalled(files, plan, j)
      {
        if files.canonical[i] != Holds(plan.members[i].newToken) {
          assert !SlotInstalled(files, plan, i);
          return false;
        }
      }
      return true;
    }

    /** assertJournalReceiptEvidence over the operation's records. */
    method EvidenceIsExact(records: seq<Record>, receipt: Receipt) returns (exact: bool)
      ensures exact <==> EvidenceNames(records, receipt)
    {
      for i := 0 to |records|
        invariant EvidenceNames(records[..i], receipt)
      {
        if Committed(records[i].body.phase) && records[i].body.evidence != Some(receipt) {
          return false;
        }
      }
      assert records[..|records|] == records;
      return true;
    }

    /** removeQuarantine: both artifacts of one slot; a file that is held open cannot be removed. */
    method RemoveArtifacts(operationId: nat, i: nat) returns (r: Outcome<()>)
      requires Survived(log)
      requires Valid() && CanRemove(Now(), operationId)
      modifies `files, `faults, `log
      ensures r.Crashed? <==> !Survived(log)
      ensures Valid() && Later()
      ensures files.canonical == old(files.canonical) && OnlyRemoved(old(files), files, operationId)
      ensures r.Done? ==> At(files.staged, operationId, i) == At(files.quarantine, operationId, i) == Missing
      ensures Untroubled(log) ==> !r.Crashed?
      ensures Unhindered(log) ==> r.Done?
    {
      hide Consistent, AllGo, Calm, Survived, Untroubled, AllRemoved, Aligned, CanRemove;
      ghost var before := Now();
      ghost var v, _ := Removed(before, operationId, i);
      var fault := NextFault(Removing);
      if fault.Busy? {
        return Thrown(FileWriteFailed);
      }
      if fault.Applies() {
        files := RemoveQuarantined(files, operationId, i);
      }
      if !fault.Go? {
        return fault.Report(());
      }
      ghost var _, w := Removed(v, operationId, i);
      fault := NextFault(Removing);
      if fault.Busy? {
        return Thrown(FileWriteFailed);
      }
      if fault.Applies() {
        files := RemoveStaged(files, operationId, i);
      }
      return fault.Report(());
    }

    /** cleanupArtifacts: all slots, giving up at the first failure. */
    method CleanupArtifacts(operationId: nat) returns (r: Outcome<()>)
      requires Survived(log)
      requires Valid() && CanRemove(Now(), operationId)
      modifies `files, `faults, `log
      ensures r.Crashed? <==> !Survived(log)
      ensures Valid() && Later() && files.canonical == old(files.canonical)
      ensures r.Done? ==> Cleaned(files, operationId)
      ensures Untroubled(log) ==> !r.Crashed?
      ensures Unhindered(log) ==> r.Done?
    {
      hide Consistent, AllGo, Calm, Survived, Untroubled, AllRemoved, Aligned;
      for i := 0 to slots
        invariant Survived(log) && Valid() && Later() && CanRemove(Now(), operationId)
        invariant files.canonical == old(files.canonical)
        invariant forall j :: 0 <= j < i ==>
          At(files.staged, operationId, j) == At(files.quarantine, operationId, j) == Missing
      {
        var _ :- RemoveArtifacts(operationId, i);
      }
      return Done(());
    }

    // -------------------------------------------------------------------------
    // Going on after an interruption
    // -------------------------------------------------------------------------

    /** catchJournalUpToDatabase: the journal learns the phases the database has reached. */
    method CatchJournalUp(plan: Plan, reached: Phase, ghost serial: nat) returns (r: Outcome<Phase>)
      requires Survived(log)
      requires Valid() && current == Some(plan)
      requires DatabasePhase(database, plan.operationId) == Some(reached) && reached != DbCommitted
      modifies `journal, `summary, `current, `faults, `log
      ensures r.Crashed? <==> !Survived(log)
      ensures Valid() && Later() && Keeps(old(Now()), Now(), plan.operationId, serial)
      ensures r.Done? ==>
        && current == Some(plan) && Named(Now(), plan.operationId) && summary[plan.operationId].plan == plan
        && r.value == JournalPhase(Now(), plan.operationId) == CaughtUp(old(summary)[plan.operationId], reached)
      ensures Untroubled(log) ==> r.Done?
    {
      hide Consistent, AllGo, Calm, Survived, Untroubled, AllRemoved, Aligned, Keeps, Load, JournalAccepted, AllOld,
           AllSwitching, AllNew, AllInstalled, ActiveOld, ActiveNew, Finished, PlanAccepted, Cleaned, ReceiptMatches;
      LoadedFacts(Now(), plan.operationId);
      CurrentFacts(Now(), plan);
      KeepsReflexive(Now(), plan.operationId, serial);
      var phase := Load(journal, plan.operationId).phase;
      ghost var first := phase;
      for k := 0 to 4
        invariant Survived(log) && Valid() && Later() && Keeps(old(Now()), Now(), plan.operationId, serial)
        invariant current == Some(plan) && Named(Now(), plan.operationId)
        invariant summary[plan.operationId].plan == plan && summary[plan.operationId].phase == phase
        invariant phase in {first, reached}
        invariant reached in RECOVERABLE && Order(reached) <= k ==> phase == reached
        invariant reached !in RECOVERABLE ==> phase == first
      {
        var next := RECOVERABLE[k];
        if Order(next) > Order(phase) && Order(next) <= Order(reached) {
          ghost var before := Now();
          var written := Append(plan, next, None, serial);
          KeepsTransitive(old(Now()), before, Now(), plan.operationId, serial);
          var _ :- written;
          LoadedFacts(Now(), plan.operationId);
          phase := Load(journal, plan.operationId).phase;
        }
      }
      return Done(phase);
    }

    /** cleanup: removes the old roots of a committed rotation; a file held open leaves it pending. */
    method Cleanup(plan: Plan, receipt: Receipt, ghost serial: nat) returns (r: Outcome<Result>)
      requires Survived(log)
      requires Valid() && CanCleanUp(Now(), plan, receipt)
      modifies `journal, `files, `summary, `current, `faults, `log
      ensures r.Crashed? <==> !Survived(log)
      ensures Valid() && Later() && Keeps(old(Now()), Now(), plan.operationId, serial)
      ensures r.Done? ==> CommittedEnd(Now(), plan, r.value)
      ensures r.Done? ==> EvidenceNames(old(summary)[plan.operationId].records, receipt)
      ensures r.Done? ==> AllInstalled(old(files), plan)
      ensures EvidenceNames(old(summary)[plan.operationId].records, receipt) && AllInstalled(old(files), plan) ==>
        && (Untroubled(log) ==> r.Done?)
        && (Unhindered(log) ==> r.Done? && r.value.phase == Completed)
    {
      hide Consistent, AllGo, Calm, Survived, Untroubled, AllRemoved, Aligned, Keeps, Load, JournalAccepted,
           AllInstalled, ActiveNew, Finished, PlanAccepted, Cleaned, ReceiptMatches, EvidenceNames, NextRecord,
           OnlyRemoved;
      LoadedFacts(Now(), plan.operationId);
      CleanupFacts(Now(), plan, receipt, serial);
      var loaded := Load(journal, plan.operationId);
      var exact := EvidenceIsExact(loaded.records, receipt);
      if !exact {
        return Thrown(ExternalJournalInvalid);
      }
      var installed := CanonicalIsNew(plan);
      if !installed {
        return Thrown(CanonicalCredentialUnknown);
      }
      if loaded.phase == Completed {
        return Done(Result(Completed, plan.EpochAfter()));
      }
      if loaded.phase == DbCommitted {
        var _ :- Append(plan, CleanupPending, Some(receipt), serial);
      }
      ghost var before := Now();
      r := FinishCleanup(plan, receipt, serial);
      KeepsTransitive(old(Now()), before, Now(), plan.operationId, serial);
    }

    method FinishCleanup(plan: Plan, receipt: Receipt, ghost serial: nat) returns (r: Outcome<Result>)
      requires Survived(log)
      requires Valid() && CanCleanUp(Now(), plan, receipt) && AllInstalled(files, plan)
      requires summary[plan.operationId].phase == CleanupPending
      modifies `journal, `files, `summary, `current, `faults, `log
      ensures r.Crashed? <==> !Survived(log)
      ensures Valid() && Later() && Keeps(old(Now()), Now(), plan.operationId, serial)
      ensures r.Done? ==> CommittedEnd(Now(), plan, r.value)
      ensures Untroubled(log) ==> r.Done?
      ensures Unhindered(log) ==> r.Done? && r.value.phase == Completed
    {
      hide Consistent, AllGo, Calm, Survived, Untroubled, AllRemoved, Aligned, Keeps, AllInstalled, ActiveNew, Cleaned,
           ReceiptMatches, EvidenceNames, NextRecord, ExpectedReceipt;
      CleanupFacts(Now(), plan, receipt, serial);
      ghost var start := Now();
      var removed := CleanupArtifacts(plan.operationId);
      FilesKeep(start, files, plan.operationId, serial);
      SameInstalled(start.files, files, plan);
      if removed.Crashed? {
        return Crashed;
      }
      if removed.Thrown? {
        return Done(Result(CleanupPending, plan.EpochAfter()));
      }
      CleanupFacts(Now(), plan, receipt, serial);
      ghost var middle := Now();
      var written := Append(plan, Completed, Some(receipt), serial);
      KeepsTransitive(start, middle, Now(), plan.operationId, serial);
      var _ :- written;
      return Done(Result(Completed, plan.EpochAfter()));
    }

    /** continueForward up to FILES_INSTALLED. */
    method InstallAndRecord(plan: Plan, ghost serial: nat) returns (r: Outcome<()>)
      requires Survived(log)
      requires Valid() && CanContinue(Now(), plan)
      modifies `journal, `files, `database, `summary, `current, `faults, `log
      ensures r.Crashed? <==> !Survived(log)
      ensures Valid() && Later() && Keeps(old(Now()), Now(), plan.operationId, serial)
      ensures r.Done? ==> CanContinue(Now(), plan) && InstalledAndRecorded(Now(), plan)
      ensures Untroubled(log) ==> r.Done?
    {
      hide Consistent, AllGo, Calm, Survived, Untroubled, AllRemoved, Aligned, Keeps, Extends, Load, JournalAccepted,
           PlanAccepted, AllNew, SetOperation, NextRecord, Finished, Cleaned, ReceiptMatches;
      ContinueFacts(Now(), plan);
      ghost var start := Now();
      var installed := InstallAll(plan);
      FilesKeep(start, files, plan.operationId, serial);
      var _ :- installed;
      ghost var middle := Now();
      LoadedFacts(middle, plan.operationId);
      var loaded := Load(journal, plan.operationId);
      if !Matches(database, plan) {
        return Thrown(SecurityEpochFork);
      }
      if Order(database.operations[plan.operationId].phase) < Order(FilesInstalled) {
        var advanced := Advance(plan, Some(Switching), FilesInstalled, serial);
        KeepsTransitive(start, middle, Now(), plan.operationId, serial);
        var _ :- advanced;
      }
      if Order(loaded.phase) < Order(FilesInstalled) {
        ghost var before := Now();
        var written := Append(plan, FilesInstalled, None, serial);
        KeepsTransitive(start, before, Now(), plan.operationId, serial);
        var _ :- written;
      }
      return Done(());
    }

    /** continueForward from FILES_INSTALLED to DB_COMMITTED: a commit whose answer is lost is settled. */
    method CommitAndRecord(plan: Plan, serial: nat) returns (r: Outcome<Receipt>)
      requires Survived(log)
      requires Valid() && CanContinue(Now(), plan) && InstalledAndRecorded(Now(), plan)
      modifies `journal, `database, `summary, `current, `commits, `faults, `log
      ensures r.Crashed? <==> !Survived(log)
      ensures Valid() && Later() && Keeps(old(Now()), Now(), plan.operationId, serial)
      ensures r.Done? ==>
        && CanCleanUp(Now(), plan, r.value) && AllInstalled(files, plan)
        && EvidenceNames(summary[plan.operationId].records, r.value)
      ensures Untroubled(log) ==> r.Done?
      ensures LosesAnswer(old(faults)) && Untroubled(old(log)) ==> r.Done?
    {
      hide Consistent, AllGo, Calm, Survived, Untroubled, AllRemoved, Aligned, Keeps, Load, JournalAccepted,
           PlanAccepted, AllInstalled, ActiveNew, ReceiptMatches, NextRecord, Finished, Cleaned, EvidenceNames,
           EvidenceOk, CommitDatabase, NewReceipt;
      NoEvidenceYet(Now(), plan, serial);
      ghost var start := Now();
      var committed := Commit(plan, serial, Committing);
      if committed.Crashed? {
        return Crashed;
      }
      if DatabasePhase(database, plan.operationId) == Some(DbCommitted) {
        CommittedFacts(Now(), plan);
        UnfinishedCases(Now(), plan);
      }
      if committed.Thrown? {
        committed := ExactCommitted(database, plan);
      }
      var receipt :- committed;
      if !ReceiptMatches(receipt, plan.operationId, plan) {
        return Thrown(DatabaseReceiptInvalid);
      }
      ghost var middle := Now();
      LoadedFacts(middle, plan.operationId);
      var loaded := Load(journal, plan.operationId);
      if Order(loaded.phase) < Order(DbCommitted) {
        var written := Append(plan, DbCommitted, Some(receipt), serial);
        KeepsTransitive(start, middle, Now(), plan.operationId, serial);
        var _ :- written;
      }
      EvidenceIsNamed(start, Now(), plan, receipt, serial);
      return Done(receipt);
    }

    method ContinueForward(plan: Plan, serial: nat) returns (r: Outcome<Result>)
      requires Survived(log)
      requires Valid() && CanContinue(Now(), plan)
      modifies this
      ensures r.Crashed? <==> !Survived(log)
      ensures Valid() && Later() && Keeps(old(Now()), Now(), plan.operationId, serial)
      ensures r.Done? ==> CommittedEnd(Now(), plan, r.value)
      ensures Untroubled(log) ==> r.Done?
      ensures Unhindered(log) ==> r.Done? && r.value.phase == Completed
    {
      hide Consistent, AllGo, Calm, Survived, Untroubled, AllRemoved, Aligned, Keeps, CanContinue, InstalledAndRecorded,
           CanCleanUp, CommittedEnd, AllInstalled, EvidenceNames;
      ghost var start := Now();
      var _ :- InstallAndRecord(plan, serial);
      ghost var installed := Now();
      var committed := CommitAndRecord(plan, serial);
      KeepsTransitive(start, installed, Now(), plan.operationId, serial);
      var receipt :- committed;
      ghost var recorded := Now();
      r := Cleanup(plan, receipt, serial);
      KeepsTransitive(start, recorded, Now(), plan.operationId, serial);
    }

    /** The last steps before continueForward: the database switches, and the journal learns of it. */
    method SwitchForward(plan: Plan, seen: Phase, journalled: Phase, serial: nat) returns (r: Outcome<Result>)
      requires Survived(log)
      requires Valid() && CanSwitch(Now(), plan, seen, journalled)
      modifies this
      ensures r.Crashed? <==> !Survived(log)
      ensures Valid() && Later() && Extends(old(Now()), Now(), plan.operationId, serial)
      ensures r.Done? ==> CommittedEnd(Now(), plan, r.value)
      ensures Untroubled(log) ==> r.Done?
      ensures Unhindered(log) ==> r.Done? && r.value.phase == Completed
    {
      hide Consistent, AllGo, Calm, Survived, Untroubled, AllRemoved, Aligned, Keeps, Extends, CommittedEnd, AllReady,
           SetOperation, NextRecord;
      SwitchFacts(Now(), plan, seen, journalled, serial);
      ghost var start := Now();
      if Order(seen) < Order(Switching) {
        var _ :- Advance(plan, Some(Staged), Switching, serial);
      }
      ghost var switched := Now();
      if journalled == Staged {
        var written := Append(plan, Switching, None, serial);
        KeepsExtends(switched, Now(), plan.operationId, serial);
        ExtendsTransitive(start, switched, Now(), plan.operationId, serial);
        var _ :- written;
      }
      ghost var recorded := Now();
      r := ContinueForward(plan, serial);
      KeepsExtends(recorded, Now(), plan.operationId, serial);
      ExtendsTransitive(start, recorded, Now(), plan.operationId, serial);
    }

    /**
     The abort of a staged rotation: a failed call is settled by asking the database again. It ends ABORTED also if
     nothing but the answer is lost.
     */
    method AbortStaged(plan: Plan, ghost serial: nat) returns (r: Outcome<Result>)
      requires Survived(log)
      requires Valid() && CanAbort(Now(), plan)
      modifies `journal, `files, `database, `summary, `current, `faults, `log
      ensures r.Crashed? <==> !Survived(log)
      ensures Valid() && Later() && Keeps(old(Now()), Now(), plan.operationId, serial)
      ensures r.Done? ==> AbortedEnd(Now(), plan, r.value)
      ensures Unhindered(log) ==> r.Done?
      ensures old(DatabasePhase(database, plan.operationId)) == Some(Staged) && LosesAnswer(old(faults)) ==>
        AllGo(old(faults)[1..]) && Unhindered(old(log)) ==> r.Done?
    {
      hide Consistent, AllGo, Calm, Survived, Untroubled, AllRemoved, Aligned, Keeps, Extends, AllOld, ActiveOld,
           SetOperation, NextRecord, Cleaned;
      ghost var start := Now();
      OperationFacts(start, plan);
      var aborted := Advance(plan, Some(Staged), Aborted, serial);
      if aborted.Crashed? {
        return Crashed;
      }
      ghost var middle := Now();
      AbortFacts(middle, plan);
      if !AbortedObserved(database, plan) {
        return Thrown(DatabaseReconciliationRequired);
      }
      var written := Append(plan, Aborted, None, serial);
      KeepsTransitive(start, middle, Now(), plan.operationId, serial);
      var _ :- written;
      ghost var recorded := Now();
      r := RemoveAborted(plan, serial);
      KeepsTransitive(start, recorded, Now(), plan.operationId, serial);
    }

    /** What is left to do for an aborted rotation. */
    method RemoveAborted(plan: Plan, ghost serial: nat) returns (r: Outcome<Result>)
      requires Survived(log)
      requires Valid() && Named(Now(), plan.operationId) && summary[plan.operationId].plan == plan
      requires summary[plan.operationId].phase == Aborted
      requires AbortedObserved(database, plan)
      modifies `files, `faults, `log
      ensures r.Crashed? <==> !Survived(log)
      ensures Valid() && Later() && Keeps(old(Now()), Now(), plan.operationId, serial)
      ensures r.Done? ==> AbortedEnd(Now(), plan, r.value)
      ensures Unhindered(log) ==> r.Done?
    {
      hide Consistent, AllGo, Calm, Survived, Untroubled, AllRemoved, Aligned, Keeps, AllOld, ActiveOld, Cleaned;
      ghost var start := Now();
      AbortedFacts(start, plan);
      var removed := CleanupArtifacts(plan.operationId);
      FilesKeep(start, files, plan.operationId, serial);
      var _ :- removed;
      AbortedIsOld(Now(), plan);
      return Done(Result(Aborted, plan.epochBefore));
    }

    /** inspectFileStates, slot by slot. */
    method InspectFileStates(plan: Plan) returns (r: Outcome<seq<FileState>>)
      requires |plan.members| == |files.canonical|
      ensures r.Done? <==> AllKnown(files, plan)
      ensures r.Done? ==> |r.value| == |plan.members|
      ensures r.Done? ==> forall i :: 0 <= i < |r.value| ==>
        StateOf(files.canonical[i], plan.members[i]) == Some(r.value[i])
      ensures r.Done? ==> forall i :: 0 <= i < |r.value| ==>
        r.value[i] ==
          if files.canonical[i] == Missing then MissingFile
          else if files.canonical[i] == Holds(plan.members[i].oldToken) then OldFile else NewFile
      ensures !r.Crashed?
    {
      var states := [];
      for i := 0 to |plan.members|
        invariant |states| == i
        invariant forall j :: 0 <= j < i ==> StateOf(files.canonical[j], plan.members[j]) == Some(states[j])
      {
        var state := StateOf(files.canonical[i], plan.members[i]);
        if state == None {
          return Thrown(CanonicalCredentialUnknown);
        }
        states := states + [state.value];
      }
      return Done(states);
    }

    /** reconcile up to STAGED: the journal catches up, and a merely prepared operation is staged. */
    method ReachStaged(plan: Plan, reached: Phase, ghost serial: nat) returns (r: Outcome<Phase>)
      requires Survived(log)
      requires Valid() && CanReconcile(Now(), plan, reached)
      modifies `journal, `database, `summary, `current, `faults, `log
      ensures r.Crashed? <==> !Survived(log)
      ensures Valid() && Later() && Keeps(old(Now()), Now(), plan.operationId, serial)
      ensures r.Done? ==> StagedFrom(Now(), plan, reached, r.value)
      ensures Untroubled(log) ==> r.Done?
    {
      hide Consistent, AllGo, Calm, Survived, Untroubled, AllRemoved, Aligned, Keeps, Extends, AllOld, AllSwitching,
           AllNew, AllInstalled, ActiveOld, ActiveNew, SetOperation, NextRecord, Load, JournalAccepted, PlanAccepted,
           Finished, Cleaned, ReceiptMatches;
      CurrentFacts(Now(), plan);
      OperationFacts(Now(), plan);
      ghost var start := Now();
      var phase :- CatchJournalUp(plan, reached, serial);
      if Order(phase) < Order(Staged) {
        if reached == Prepared {
          ghost var before := Now();
          var advanced := Advance(plan, Some(Prepared), Staged, serial);
          KeepsTransitive(start, before, Now(), plan.operationId, serial);
          var _ :- advanced;
        }
        ghost var middle := Now();
        var written := Append(plan, Staged, None, serial);
        KeepsTransitive(start, middle, Now(), plan.operationId, serial);
        var _ :- written;
        LoadedFacts(Now(), plan.operationId);
        phase := Load(journal, plan.operationId).phase;
      }
      return Done(phase);
    }

    /** reconcile once the database knows an unfinished operation. */
    method ReconcileUnfinished(plan: Plan, serial: nat) returns (r: Outcome<Result>)
      requires Survived(log)
      requires Valid() && current == Some(plan)
      requires DatabasePhase(database, plan.operationId).Some?
      requires DatabasePhase(database, plan.operationId) != Some(DbCommitted)
      modifies this
      ensures r.Crashed? <==> !Survived(log)
      ensures Valid() && Later() && Keeps(old(Now()), Now(), plan.operationId, serial)
      ensures r.Done? ==> EndsAsDecided(old(Now()), Now(), plan, r.value)
      ensures Unhindered(log) ==> r.Done? && r.value.phase != CleanupPending
    {
      hide Consistent, AllGo, Calm, Survived, Untroubled, AllRemoved, Aligned, Keeps, Extends, AllOld, AllReady,
           CommittedEnd, AbortedEnd, CanContinue, AllKnown, StateOf;
      ghost var start := Now();
      OperationFacts(start, plan);
      if !Matches(database, plan) {
        return Thrown(SecurityEpochFork);
      }
      var reached := database.operations[plan.operationId].phase;
      var phase :- ReachStaged(plan, reached, serial);
      ghost var middle := Now();
      StagedFacts(middle, plan, reached, phase);
      OldIsKnown(files, plan);
      SwitchingIsKnown(files, plan);
      var inspected := InspectFileStates(plan);
      if !inspected.Done? {
        return Thrown(CanonicalCredentialUnknown);
      }
      var states := inspected.value;
      var allOld := forall i :: 0 <= i < |states| ==> states[i] == OldFile;
      var anyNew := exists i :: 0 <= i < |states| && states[i] == NewFile;
      var databaseSwitching := Order(reached) >= Order(Switching);
      if phase == Staged && !databaseSwitching && allOld {
        r := AbortStaged(plan, serial);
        KeepsTransitive(start, middle, Now(), plan.operationId, serial);
        if r.Done? {
          EndDecided(start, middle, Now(), plan, r.value, serial);
        }
        return;
      }
      if !databaseSwitching && !allOld && !anyNew {
        return Thrown(CanonicalCredentialUnknown);
      }
      r := SwitchForward(plan, reached, phase, serial);
      ExtendsKeeps(middle, Now(), plan, serial);
      KeepsTransitive(start, middle, Now(), plan.operationId, serial);
      if r.Done? {
        EndDecided(start, middle, Now(), plan, r.value, serial);
      }
    }

    /** reconcile of an operation that the database shows committed. */
    method ReconcileCommitted(plan: Plan, serial: nat) returns (r: Outcome<Result>)
      requires Survived(log)
      requires Valid() && Named(Now(), plan.operationId) && summary[plan.operationId].plan == plan
      requires IsCommitted(Now(), plan)
      modifies `journal, `files, `summary, `current, `faults, `log
      ensures r.Crashed? <==> !Survived(log)
      ensures Valid() && Later() && Keeps(old(Now()), Now(), plan.operationId, serial)
      ensures r.Done? ==> CommittedEnd(Now(), plan, r.value)
      ensures r.Done? ==> EvidenceOk(old(Now()), plan.operationId, serial) && AllInstalled(old(files), plan)
      ensures EvidenceOk(old(Now()), plan.operationId, serial) && AllInstalled(old(files), plan) ==>
        (Unhindered(log) ==> r.Done? && r.value.phase == Completed)
    {
      hide Consistent, AllGo, Calm, Survived, Untroubled, AllRemoved, Aligned, Keeps, EvidenceNames, ActiveNew,
           AllInstalled, CommittedEnd, NextRecord, Load, JournalAccepted, PlanAccepted, Finished, Cleaned,
           ReceiptMatches;
      ghost var start := Now();
      LoadedFacts(start, plan.operationId);
      CommittedObserved(start, plan, serial);
      var receipt: Receipt;
      match ExactCommitted(database, plan) {
        case Done(value) => receipt := value;
        case Thrown(code) => return Thrown(code);
        case Crashed => return Crashed;
      }
      var installed := CanonicalIsNew(plan);
      if !installed {
        return Thrown(CanonicalCredentialUnknown);
      }
      var loaded := Load(journal, plan.operationId);
      if Order(loaded.phase) < Order(DbCommitted) {
        NoEvidenceYet(start, plan, serial);
        var _ :- Append(plan, DbCommitted, Some(receipt), serial);
      }
      ghost var recorded := Now();
      if EvidenceOk(start, plan.operationId, serial) {
        EvidenceIsNamed(start, recorded, plan, receipt, serial);
      }
      r := Cleanup(plan, receipt, serial);
      KeepsTransitive(start, recorded, Now(), plan.operationId, serial);
    }

    /** reconcile of a journalled commit that a restored database no longer knows. */
    method RecoverExternal(plan: Plan, serial: nat) returns (r: Outcome<Result>)
      requires Survived(log)
      requires Valid() && IsLost(Now(), plan)
      modifies this
      ensures r.Crashed? <==> !Survived(log)
      ensures Valid() && Later() && Keeps(old(Now()), Now(), plan.operationId, serial)
      ensures r.Done? ==> CommittedEnd(Now(), plan, r.value)
      ensures r.Done? ==> EvidenceOk(old(Now()), plan.operationId, serial)
      ensures EvidenceOk(old(Now()), plan.operationId, serial) ==>
        (Unhindered(log) ==> r.Done? && r.value.phase == Completed)
      ensures !EvidenceOk(old(Now()), plan.operationId, serial) && Untroubled(log) ==>
        Forked(Now(), plan.operationId)
    {
      hide Consistent, AllGo, Calm, Survived, Untroubled, AllRemoved, Aligned, Keeps, EvidenceNames, ActiveNew,
           AllInstalled, CommittedEnd, CommitDatabase, ReceiptMatches, Forked;
      ghost var start := Now();
      LostFacts(start, plan, serial);
      var installed := CanonicalIsNew(plan);
      if !installed {
        return Thrown(CanonicalCredentialUnknown);
      }
      var receipt :- Commit(plan, serial, Recovering);
      if !ReceiptMatches(receipt, plan.operationId, plan) {
        return Thrown(DatabaseReceiptInvalid);
      }
      ghost var recovered := Now();
      RecoveredFacts(start, plan, NewReceipt(plan, serial));
      LostEvidence(start, plan, serial);
      CommittedObserved(recovered, plan, serial);
      if !ExactCommitted(database, plan).Done? {
        return Thrown(SecurityEpochFork);
      }
      r := Cleanup(plan, receipt, serial);
      ForkKept(recovered, Now(), plan.operationId, plan.operationId, serial);
      KeepsTransitive(start, recovered, Now(), plan.operationId, serial);
    }

    /**
     reconcile: whatever interrupted the operation, it ends as the database had decided, and an
     uninterrupted call always ends it when the receipts on record are the database's.
     */
    method Reconcile(operationId: nat, serial: nat) returns (r: Outcome<Result>)
      requires Valid()
      modifies this
      ensures r.Crashed? <==> !Survived(log)
      ensures Valid() && Traced()
      ensures operationId !in old(summary) ==> Now() == old(Now()) && r == Thrown(ExternalJournalInvalid)
      ensures operationId in old(summary) ==> Keeps(old(Now()), Now(), operationId, serial)
      ensures r.Done? ==> Reconcilable(old(Now()), operationId, serial)
      ensures r.Done? ==> EndsAsDecided(old(Now()), Now(), old(summary)[operationId].plan, r.value)
      ensures Reconcilable(old(Now()), operationId, serial) && Undisturbed(old(Now()), operationId) ==>
        (Unhindered(log) ==> r.Done? && r.value.phase != CleanupPending)
      ensures forall o :: Forked(old(Now()), o) ==> Forked(Now(), o)
      ensures Forked(old(Now()), operationId) ==> !r.Done?
      ensures LosesEvidence(old(Now()), operationId, serial) && Unhindered(log) ==> Forked(Now(), operationId)
    {
      hide Consistent, AllGo, Calm, Survived, Untroubled, AllRemoved, Aligned, Keeps, Switched, EvidenceOk,
           EvidenceNames, ActiveOld, ActiveNew, AllInstalled, Forked, CommittedEnd, IsCommitted, Load, JournalAccepted,
           PlanAccepted, Finished, Cleaned, ReceiptMatches;
      script, log := faults, [];
      NothingLogged(faults);
      ghost var start := Now();
      LoadedFacts(start, operationId);
      var accepted := ReadJournal(journal, slots);
      if !accepted {
        return Thrown(ExternalJournalInvalid);
      }
      var loaded := Load(journal, operationId);
      if !loaded.Loaded? {
        return Thrown(ExternalJournalInvalid);
      }
      var plan := loaded.plan;
      NamedFacts(Now(), operationId);
      KeepsReflexive(Now(), operationId, serial);
      ReconcileCases(Now(), plan, serial);
      ForkedFacts(start, operationId, serial);
      LostIsBehind(start, operationId, serial);
      if loaded.phase == Aborted {
        if !AbortedObserved(database, plan) {
          return Thrown(DatabaseReconciliationRequired);
        }
        r := RemoveAborted(plan, serial);
        ForksKept(start, Now(), operationId, serial);
        return;
      }
      if database.epoch > plan.EpochAfter() {
        return Thrown(SecurityEpochFork);
      }
      if database.epoch == plan.EpochAfter() {
        r := ReconcileCommitted(plan, serial);
        ForksKept(start, Now(), operationId, serial);
        return;
      }
      r := ReconcileBehind(plan, serial);
      ForksKept(start, Now(), operationId, serial);
    }

    /** reconcile while the database is still at the epoch before the rotation. */
    method ReconcileBehind(plan: Plan, serial: nat) returns (r: Outcome<Result>)
      requires Survived(log)
      requires Valid() && IsBehind(Now(), plan)
      modifies this
      ensures r.Crashed? <==> !Survived(log)
      ensures Valid() && Later() && Keeps(old(Now()), Now(), plan.operationId, serial)
      ensures r.Done? ==> EvidenceOk(old(Now()), plan.operationId, serial)
      ensures r.Done? ==> EndsAsDecided(old(Now()), Now(), plan, r.value)
      ensures EvidenceOk(old(Now()), plan.operationId, serial) ==>
        (Unhindered(log) ==> r.Done? && r.value.phase != CleanupPending)
      ensures IsLost(old(Now()), plan) && !EvidenceOk(old(Now()), plan.operationId, serial) && Unhindered(log) ==>
        Forked(Now(), plan.operationId)
    {
      hide Consistent, AllGo, Calm, Survived, Untroubled, AllRemoved, Aligned, Keeps, Switched, CommittedEnd,
           EvidenceOk, AllOld, AllReady, AllNew, SetOperation, Forked, Load, JournalAccepted, PlanAccepted, Finished,
           Cleaned, ReceiptMatches;
      ghost var start := Now();
      LoadedFacts(start, plan.operationId);
      BehindFacts(start, plan, serial);
      if plan.operationId !in database.operations {
        if Order(Load(journal, plan.operationId).phase) >= Order(DbCommitted) {
          r := RecoverExternal(plan, serial);
          return;
        }
        var _ :- Advance(plan, None, Prepared, serial);
      }
      ghost var prepared := Now();
      r := ReconcileUnfinished(plan, serial);
      KeepsTransitive(start, prepared, Now(), plan.operationId, serial);
      if r.Done? {
        EndDecided(start, prepared, Now(), plan, r.value, serial);
      }
    }

    // -------------------------------------------------------------------------
    // Starting a rotation
    // -------------------------------------------------------------------------

    /** createMemberMaterial: one fresh root per slot, unlike every active one and every other fresh one. */
    method CreateMembers(active: seq<ActiveSlot>, generated: seq<Option<Digest>>) returns (r: Outcome<seq<Member>>)
      ensures r.Done? <==> Usable(active, generated)
      ensures r.Done? ==> |r.value| == |active| <= |generated|
      ensures r.Done? ==> forall i :: 0 <= i < |active| ==>
        generated[i].Some? && r.value[i] == Member(active[i].generation + 1, active[i].token, generated[i].value)
      ensures !r.Crashed?
    {
      var members: seq<Member> := [];
      for i := 0 to |active|
        invariant |members| == i && i <= |generated|
        invariant forall j :: 0 <= j < i ==>
          && active[j].generation < MAX_SAFE_INTEGER
          && generated[j].Some? && Fresh(generated, j) && Unused(active, generated[j].value)
          && members[j] == Member(active[j].generation + 1, active[j].token, generated[j].value)
      {
        if active[i].generation >= MAX_SAFE_INTEGER {
          return Thrown(SecurityEpochFork);
        }
        if i >= |generated| || generated[i] == None || !Fresh(generated, i) {
          return Thrown(TokenGenerationInvalid);
        }
        if !Unused(active, generated[i].value) {
          return Thrown(TokenGenerationInvalid);
        }
        members := members + [Member(active[i].generation + 1, active[i].token, generated[i].value)];
      }
      return Done(members);
    }

    /** writeStaged: exclusive creation, then the file must reopen with the expected bytes. */
    method StageSlot(plan: Plan, i: nat) returns (r: Outcome<()>)
      requires Survived(log)
      requires Valid() && CanStage(Now(), plan) && i < |plan.members|
      modifies `files, `faults, `log
      ensures r.Crashed? <==> !Survived(log)
      ensures Valid() && Later() && OnlyStaged(old(files), files, plan, i)
      ensures r.Done? ==> At(files.staged, plan.operationId, i) == Holds(plan.members[i].newToken)
      ensures Untroubled(log) && At(old(files).staged, plan.operationId, i) == Missing ==> r.Done?
      ensures At(old(files).staged, plan.operationId, i) == Missing ==>
        var fault := NextOf(old(faults));
        && r == fault.Report(())
        && files ==
           if fault.Applies() then Stage(old(files), plan, i, Holds(plan.members[i].newToken))
           else if fault.CrashMid? || fault.FailMid? then Stage(old(files), plan, i, Torn) else old(files)
    {
      hide Consistent, AllGo, Calm, Survived, Untroubled, AllRemoved, Aligned, CanStage;
      var report: Outcome<()> := Done(());
      if At(files.staged, plan.operationId, i) == Missing {
        var fault := NextFault(Staging);
        if fault.Applies() || fault.CrashMid? || fault.FailMid? {
          var file := if fault.Applies() then Holds(plan.members[i].newToken) else Torn;
          StageFacts(Now(), plan, i, file);
          files := Stage(files, plan, i, file);
        }
        report := fault.Report(());
      }
      var _ :- report;
      if At(files.staged, plan.operationId, i) != Holds(plan.members[i].newToken) {
        return Thrown(FileWriteFailed);
      }
      return Done(());
    }

    method StageMembers(plan: Plan) returns (r: Outcome<()>)
      requires Survived(log)
      requires Valid() && CanStage(Now(), plan)
      modifies `files, `faults, `log
      ensures r.Crashed? <==> !Survived(log)
      ensures Valid() && Later() && files.canonical == old(files.canonical) && files.quarantine == old(files.quarantine)
      ensures r.Done? ==> AllStaged(files, plan)
      ensures Untroubled(log) && NoneStaged(old(files), plan) ==> r.Done?
    {
      hide Consistent, AllGo, Calm, Survived, Untroubled, AllRemoved, Aligned;
      for i := 0 to |plan.members|
        invariant Survived(log) && Valid() && Later() && CanStage(Now(), plan)
        invariant files.canonical == old(files.canonical) && files.quarantine == old(files.quarantine)
        invariant forall j :: 0 <= j < i ==> At(files.staged, plan.operationId, j) == Holds(plan.members[j].newToken)
        invariant forall j :: i <= j < |plan.members| ==>
          At(files.staged, plan.operationId, j) == At(old(files).staged, plan.operationId, j)
      {
        var _ :- StageSlot(plan, i);
      }
      return Done(());
    }

    /** rotate from the database's prepare to the journalled STAGED. */
    method Prepare(plan: Plan, ghost serial: nat) returns (r: Outcome<()>)
      requires Survived(log)
      requires Valid() && IsAuthorized(Now(), plan)
      modifies `journal, `files, `database, `summary, `current, `faults, `log
      ensures r.Crashed? <==> !Survived(log)
      ensures Valid() && Later() && Keeps(old(Now()), Now(), plan.operationId, serial)
      ensures r.Done? ==> CanSwitch(Now(), plan, Staged, Staged)
      ensures Untroubled(log) && NoneStaged(old(files), plan) ==> r.Done?
    {
      hide Consistent, AllGo, Calm, Survived, Untroubled, AllRemoved, Aligned, Keeps, Extends, SetOperation, NextRecord,
           AllStaged, NoneStaged, AllOld, AllReady, ActiveOld;
      ghost var start := Now();
      OperationFacts(start, plan);
      var _ :- Advance(plan, None, Prepared, serial);
      ghost var prepared := Now();
      var written := Append(plan, Prepared, None, serial);
      KeepsTransitive(start, prepared, Now(), plan.operationId, serial);
      var _ :- written;
      ghost var recorded := Now();
      PreparedFacts(recorded, plan);
      var staged := StageMembers(plan);
      FilesKeep(recorded, files, plan.operationId, serial);
      KeepsTransitive(start, recorded, Now(), plan.operationId, serial);
      var _ :- staged;
      r := RecordStaged(plan, start, serial);
    }

    method RecordStaged(plan: Plan, ghost start: State, ghost serial: nat) returns (r: Outcome<()>)
      requires Survived(log)
      requires Valid() && CanStage(Now(), plan) && summary[plan.operationId].phase == Prepared && AllStaged(files, plan)
      requires Keeps(start, Now(), plan.operationId, serial)
      modifies `journal, `database, `summary, `current, `faults, `log
      ensures r.Crashed? <==> !Survived(log)
      ensures Valid() && Later() && Keeps(start, Now(), plan.operationId, serial)
      ensures r.Done? ==> CanSwitch(Now(), plan, Staged, Staged)
      ensures Untroubled(log) ==> r.Done?
    {
      hide Consistent, AllGo, Calm, Survived, Untroubled, AllRemoved, Aligned, Keeps, Extends, SetOperation, NextRecord,
           AllStaged, AllOld, AllReady, ActiveOld;
      ghost var staged := Now();
      PreparedFacts(staged, plan);
      StagedIsReady(files, plan);
      var advanced := Advance(plan, Some(Prepared), Staged, serial);
      KeepsTransitive(start, staged, Now(), plan.operationId, serial);
      var _ :- advanced;
      ghost var moved := Now();
      r := Append(plan, Staged, None, serial);
      KeepsTransitive(start, moved, Now(), plan.operationId, serial);
    }

    /** The loop over earlier operations: one that is not finished is a conflict. */
    method RefuseUnfinished() returns (r: Outcome<()>)
      ensures r.Done? <==> NoneUnfinished(journal)
      ensures !r.Crashed?
    {
      hide Load;
      for i := 0 to |journal|
        invariant forall j :: 0 <= j < i ==>
          var prior := Load(journal, journal[j].body.operationId);
          prior.Loaded? && prior.phase in {Completed, Aborted}
      {
        var prior := Load(journal, journal[i].body.operationId);
        if !prior.Loaded? {
          return Thrown(ExternalJournalInvalid);
        }
        if prior.phase !in {Completed, Aborted} {
          return Thrown(RotationConflict);
        }
      }
      return Done(());
    }

    /** assertCanonicalMatches: every canonical file holds the root the database serves. */
    method CanonicalMatches() returns (exact: bool)
      requires |database.active| == |files.canonical|
      ensures exact <==> Quiet(files, database)
    {
      for i := 0 to |files.canonical|
        invariant forall j :: 0 <= j < i ==> files.canonical[j] == Holds(database.active[j].token)
      {
        if files.canonical[i] != Holds(database.active[i].token) {
          return false;
        }
      }
      return true;
    }

    /** The checks before anything is written: they pass exactly when the request can be carried out. */
    method PlanRotation(request: Request) returns (r: Outcome<Plan>)
      requires Valid() && request.operationId !in summary
      ensures r.Done? <==> Startable(Now(), request)
      ensures r.Done? ==> IsPlanFor(Now(), request, r.value)
      ensures !r.Crashed?
    {
      hide Consistent, Load, NoneUnfinished, IsLatestEpoch, Quiet, Usable;
      NewOperationFacts(Now(), request.operationId);
      NothingOpen(Now());
      var _ :- RefuseUnfinished();
      if request.operationId in database.operations {
        return Thrown(SecurityEpochFork);
      }
      var epoch := LatestExternalEpoch(journal);
      JournalAgrees(Now(), epoch);
      if database.epoch != epoch {
        return Thrown(SecurityEpochFork);
      }
      QuietFacts(Now());
      var exact := CanonicalMatches();
      if !exact {
        return Thrown(SecurityEpochFork);
      }
      var members :- CreateMembers(database.active, request.generated);
      if !request.stopConfirmed {
        return Thrown(HubStopReceiptInvalid);
      }
      return Done(Plan(request.operationId, request.fingerprint, request.sourceIsExact, database.epoch, members));
    }

    /** rotate from the authorization onwards. */
    method Launch(plan: Plan, serial: nat) returns (r: Outcome<Result>)
      requires Survived(log)
      requires Valid() && CanLaunch(Now(), plan)
      modifies this
      ensures r.Crashed? <==> !Survived(log)
      ensures Later() && OthersUntouched(old(Now()), Now(), plan.operationId)
      ensures if PlanAccepted(plan, slots) then Valid() else Valid() || !JournalAccepted(journal, slots)
      ensures r.Done? ==> PlanAccepted(plan, slots) && CommittedEnd(Now(), plan, r.value)
      ensures PlanAccepted(plan, slots) && Untroubled(log) ==> r.Done?
      ensures PlanAccepted(plan, slots) && Unhindered(log) ==> r.Done? && r.value.phase == Completed
      ensures !PlanAccepted(plan, slots) && Unhindered(log) ==>
        && r == Thrown(ExternalJournalInvalid) && Now() == WithUnreadable(old(Now()), plan)
        && !JournalAccepted(journal, slots)
      ensures Valid() && plan.operationId in summary ==>
        && (forall other :: Reconcilable(Now(), plan.operationId, other)) && Undisturbed(Now(), plan.operationId)
        && summary[plan.operationId].plan == plan
    {
      hide Consistent, JournalAccepted, PlanAccepted, AllGo, Calm, Survived, Untroubled, AllRemoved, Aligned, Keeps,
           Extends, CanAuthorize, WithAuthorization, CommittedEnd, OthersUntouched, NoneStaged, NextRecord,
           Reconcilable;
      ghost var start := Now();
      LaunchFacts(start, plan, serial);
      var authorized := AppendAuthorized(plan);
      if Now() == WithAuthorization(start, plan) && Valid() {
        LaunchedFacts(start, plan, Now(), serial);
      }
      var _ :- authorized;
      ghost var written := Now();
      var prepared := Prepare(plan, serial);
      LaunchExtends(start, plan, Now(), serial);
      KeepsExtends(written, Now(), plan.operationId, serial);
      LaunchedFacts(start, plan, Now(), serial);
      var _ :- prepared;
      ghost var staged := Now();
      r := SwitchForward(plan, Staged, Staged, serial);
      KeepsExtends(written, staged, plan.operationId, serial);
      ExtendsTransitive(written, staged, Now(), plan.operationId, serial);
      AuthorizedExtends(start, plan, Now(), serial);
      LaunchedFacts(start, plan, Now(), serial);
    }

    /**
     rotate: an operation id already journalled is reconciled, and refused for any other request; a
     new one runs to the end exactly when nothing is unfinished and the request can be carried out.
     */
    method Rotate(request: Request, serial: nat) returns (r: Outcome<Result>)
      requires Valid()
      modifies this
      ensures r.Crashed? <==> !Survived(log)
      ensures Traced()
      ensures Valid() || (!JournalAccepted(journal, slots) &&
        !(request.sourceIsExact && old(database).epoch < MAX_SAFE_INTEGER))
      ensures request.operationId in old(summary) ==>
        (old(summary)[request.operationId].plan.authorizationFingerprint != request.fingerprint ==>
           Now() == old(Now()) && r == Thrown(RotationConflict))
      ensures request.operationId in old(summary) ==> Valid() && Keeps(old(Now()), Now(), request.operationId, serial)
      ensures request.operationId in old(summary) && r.Done? ==>
        EndsAsDecided(old(Now()), Now(), old(summary)[request.operationId].plan, r.value)
      ensures request.operationId !in old(summary) ==> OthersUntouched(old(Now()), Now(), request.operationId)
      ensures request.operationId !in old(summary) && Valid() && request.operationId in summary ==>
        && Startable(old(Now()), request) && IsPlanFor(old(Now()), request, summary[request.operationId].plan)
        && (forall other :: Reconcilable(Now(), request.operationId, other)) && Undisturbed(Now(), request.operationId)
      ensures request.operationId !in old(summary) && r.Done? ==>
        && Startable(old(Now()), request) && Rotated(old(Now()), Now(), request, r.value)
        && Valid() && request.operationId in summary && CommittedEnd(Now(), summary[request.operationId].plan, r.value)
      ensures request.operationId !in old(summary) && Startable(old(Now()), request) && Untroubled(log) ==>
        (r.Done? <==> request.sourceIsExact && old(database).epoch < MAX_SAFE_INTEGER)
      ensures request.operationId !in old(summary) && Startable(old(Now()), request) && Unhindered(log) ==>
        (r.Done? && r.value.phase == Completed <==> request.sourceIsExact && old(database).epoch < MAX_SAFE_INTEGER)
      ensures request.operationId !in old(summary) && Startable(old(Now()), request) && Unhindered(log) ==>
        (JournalAccepted(journal, slots) <==> request.sourceIsExact && old(database).epoch < MAX_SAFE_INTEGER)
      ensures request.operationId !in old(summary) && Startable(old(Now()), request) && Unhindered(log) ==>
        (!JournalAccepted(journal, slots) ==>
           r == Thrown(ExternalJournalInvalid) && SpoiltBy(old(Now()), Now(), request))
      ensures Reconcilable(old(Now()), request.operationId, serial) && Undisturbed(old(Now()), request.operationId) ==>
        (old(summary)[request.operationId].plan.authorizationFingerprint == request.fingerprint ==>
           (Unhindered(log) ==> r.Done? && r.value.phase != CleanupPending))
      ensures forall o :: Forked(old(Now()), o) ==> Forked(Now(), o)
      ensures Forked(old(Now()), request.operationId) ==> !r.Done?
    {
      hide Consistent, JournalAccepted, PlanAccepted, AllGo, Calm, Survived, Untroubled, AllRemoved, Aligned, Keeps,
           EndsAsDecided, OthersUntouched, Load, Startable, IsPlanFor, CommittedEnd, Rotated, Finished, Cleaned,
           ReceiptMatches, Reconcilable, Undisturbed, Forked;
      script, log := faults, [];
      NothingLogged(faults);
      LoadedFacts(Now(), request.operationId);
      ForkedFacts(Now(), request.operationId, serial);
      ghost var start := Now();
      var accepted := ReadJournal(journal, slots);
      if !accepted {
        return Thrown(ExternalJournalInvalid);
      }
      var existing := Load(journal, request.operationId);
      if existing.Corrupt? {
        return Thrown(ExternalJournalInvalid);
      }
      if existing.Loaded? {
        NamedFacts(start, request.operationId);
        KeepsReflexive(start, request.operationId, serial);
        if existing.plan.authorizationFingerprint != request.fingerprint {
          return Thrown(RotationConflict);
        }
        r := Reconcile(request.operationId, serial);
        return;
      }
      NewOperationFacts(start, request.operationId);
      UntouchedReflexive(start, request.operationId, journal);
      var plan :- PlanRotation(request);
      PlanFacts(start, request, plan);
      r := Launch(plan, serial);
      ForksKeptBeside(start, Now(), request.operationId);
      if Valid() {
        LoadedFacts(Now(), request.operationId);
      }
      if r.Done? {
        EndIsNamed(Now(), plan, r.value);
        LaunchedIsRotated(start, Now(), request, plan, r.value);
      }
    }

    // -------------------------------------------------------------------------
    // Convergence
    // -------------------------------------------------------------------------

    /** A forked operation stays forked, and no retry of its request is ever done, whatever receipts are issued. */
    method RetryForked(request: Request, attempts: seq<(nat, seq<Fault>)>) returns (rs: seq<Outcome<Result>>)
      requires Valid() && Forked(Now(), request.operationId)
      modifies this
      ensures Valid() && Forked(Now(), request.operationId)
      ensures |rs| == |attempts| && forall k :: 0 <= k < |rs| ==> !rs[k].Done?
    {
      hide Consistent, Forked, Keeps, EndsAsDecided, OthersUntouched, Reconcilable, Undisturbed, Startable, IsPlanFor,
           Rotated, CommittedEnd;
      rs := [];
      for k := 0 to |attempts|
        invariant Valid() && Forked(Now(), request.operationId)
        invariant |rs| == k && forall i :: 0 <= i < k ==> !rs[i].Done?
      {
        ForkedFacts(Now(), request.operationId, attempts[k].0);
        faults := attempts[k].1;
        var r := Rotate(request, attempts[k].0);
        rs := rs + [r];
      }
    }

    /**
     Any number of interrupted reconciles, each with a receipt of its own to issue, then one that is left alone:
     the operation ends as it was decided.
     */
    method Recover(operationId: nat, serial: nat, attempts: seq<(nat, seq<Fault>)>) returns (r: Result)
      requires Valid() && Reconcilable(Now(), operationId, serial) && Undisturbed(Now(), operationId)
      requires forall k :: 0 <= k < |attempts| ==> Reconcilable(Now(), operationId, attempts[k].0)
      modifies this
      ensures Valid() && current == None && Keeps(old(Now()), Now(), operationId, serial)
      ensures r.phase in {Aborted, Completed}
      ensures EndsAsDecided(old(Now()), Now(), old(summary)[operationId].plan, r)
    {
      hide Consistent, AllGo, Calm, Survived, Untroubled, AllRemoved, Aligned, Keeps, EndsAsDecided, Reconcilable,
           Undisturbed;
      ghost var start := Now();
      ReconcilableFacts(start, operationId, serial);
      for k := 0 to |attempts|
        invariant Valid() && Keeps(start, Now(), operationId, serial)
        invariant Reconcilable(Now(), operationId, serial) && Undisturbed(Now(), operationId)
        invariant forall j :: k <= j < |attempts| ==> Reconcilable(Now(), operationId, attempts[j].0)
      {
        ghost var before := Now();
        ReconcilableFacts(before, operationId, attempts[k].0);
        faults := attempts[k].1;
        var _ := Reconcile(operationId, attempts[k].0);
        StillReconcilableFor(before, Now(), operationId, attempts[k].0, serial);
        forall j | k <= j < |attempts| ensures Reconcilable(Now(), operationId, attempts[j].0) {
          StillReconcilableFor(before, Now(), operationId, attempts[k].0, attempts[j].0);
        }
        KeepsTransitive(start, before, Now(), operationId, serial);
      }
      ghost var before := Now();
      ReconcilableFacts(before, operationId, serial);
      faults := [];
      NoFaultsAllGo(faults);
      var last := Reconcile(operationId, serial);
      KeepsTransitive(start, before, Now(), operationId, serial);
      StillReconcilable(before, Now(), operationId, serial);
      SamePlan(start, before, operationId, serial);
      EndDecided(start, before, Now(), start.summary[operationId].plan, last.value, serial);
      EndedIsQuiet(start, Now(), start.summary[operationId].plan, last.value);
      return last.value;
    }

    /**
     A rotation interrupted anywhere, reconciled with any further interruptions, and then left alone. Whatever
     receipts the database issues on the way, if it was authorized at all, every root ends old or every root ends new.
     */
    method RotateAndRecover(request: Request, serial: nat, last: nat, attempts: seq<(nat, seq<Fault>)>)
      returns (r: Option<Result>)
      requires Valid() && request.operationId !in summary
      requires request.sourceIsExact && database.epoch < MAX_SAFE_INTEGER
      modifies this
      ensures Valid()
      ensures r.Some? <==> request.operationId in summary
      ensures r.Some? ==> current == None && r.value.phase in {Aborted, Completed}
      ensures r.Some? && r.value.phase == Aborted ==> RolledBack(old(Now()), Now(), request.operationId)
      ensures r.Some? && r.value.phase == Completed ==> Rotated(old(Now()), Now(), request, r.value)
      ensures r.None? ==> OthersUntouched(old(Now()), Now(), request.operationId)
    {
      hide Consistent, JournalAccepted, Keeps, EndsAsDecided, Reconcilable, Undisturbed, OthersUntouched, Startable,
           IsPlanFor, Rotated, RolledBack;
      ghost var start := Now();
      NewOperationFacts(start, request.operationId);
      var _ := Rotate(request, serial);
      if Load(journal, request.operationId) == Absent {
        LoadedFacts(Now(), request.operationId);
        return None;
      }
      LoadedFacts(Now(), request.operationId);
      ghost var authorized := Now();
      var result := Recover(request.operationId, last, attempts);
      EndsOldOrNew(start, authorized, Now(), request, result, last);
      return Some(result);
    }
  }
}
