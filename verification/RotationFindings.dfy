/**
 Two rotations that end badly: one whose plan the journal's reader refuses, and one whose commit the database
 loses and commits again with another receipt.
 */
module RotationFindings {
  import opened Common
  import opened RotationJournal
  import opened RotationWorld
  import opened RotationProgress
  import opened RotationCoordinator

  /** A fresh installation of one slot. */
  function Fresh(token: Digest): State {
    State([], Files([Holds(token)], map[], map[]), Database(0, [ActiveSlot(0, token)], map[]), map[], None, [])
  }

  /**
   From a fresh installation of one slot, one uninterrupted request, whose authorization source has extra keys,
   is refused and leaves its plan as the one record of the journal, which from then on is refused for good.
   */
  method UnreadableRotation(token: Digest) returns (coordinator: Coordinator, request: Request, r: Outcome<Result>)
    ensures request == Request(1, 0, false, true, [Some(token + 1)])
    ensures coordinator.slots == 1 && r == Thrown(ExternalJournalInvalid)
    ensures var plan := Plan(1, 0, false, 0, [Member(1, token, token + 1)]);
      coordinator.Now() == WithUnreadable(Fresh(token), plan)
    ensures forall more :: !JournalAccepted(coordinator.journal + more, coordinator.slots)
  {
    hide JournalAccepted, Consistent, OthersUntouched, NextRecord;
    coordinator := new Coordinator([Holds(token)], [ActiveSlot(0, token)]);
    request := Request(1, 0, false, true, [Some(token + 1)]);
    assert Startable(coordinator.Now(), request);
    assert coordinator.Now() == Fresh(token);
    r := coordinator.Rotate(request, 0);
    assert SpoiltBy(Fresh(token), coordinator.Now(), request);
    ghost var plan :|
      IsPlanFor(Fresh(token), request, plan) && coordinator.Now() == WithUnreadable(Fresh(token), plan);
    assert plan.members == [Member(1, token, token + 1)];
    forall more ensures !JournalAccepted(coordinator.journal + more, coordinator.slots) {
      RefusedForever(coordinator.journal, more, coordinator.slots);
    }
  }

  /** The state after the database has been put back to before its first and only commit. */
  ghost function Restored(s: State, plan: Plan): State {
    var active := seq(|plan.members|, i requires 0 <= i < |plan.members| =>
      ActiveSlot(if plan.members[i].generation == 0 then 0 else plan.members[i].generation - 1,
                 plan.members[i].oldToken));
    s.(database := Database(plan.epochBefore, active, map[]), current := Some(plan), commits := [])
  }

  /** The one operation there is has completed. */
  ghost predicate OnlyCompleted(s: State, plan: Plan) {
    && s.current == None && s.summary.Keys == {plan.operationId}
    && s.summary[plan.operationId].Loaded? && s.summary[plan.operationId].plan == plan
    && s.summary[plan.operationId].phase == Completed
  }

  lemma RestoreLosesCommit(s: State, plan: Plan)
    requires Consistent(s) && OnlyCompleted(s, plan)
    ensures Consistent(Restored(s, plan)) && IsLost(Restored(s, plan), plan)
  {
    hide JournalAccepted, Loads;
    FirstCommit(s, plan);
    LoadedFacts(s, plan.operationId);
    LatestCommit(s, plan);
    RestoredIsSound(s, plan);
  }

  lemma FirstCommit(s: State, plan: Plan)
    requires Consistent(s) && OnlyCompleted(s, plan)
    ensures plan.epochBefore == 0 && s.commits == [plan.operationId] && s.database.epoch == plan.EpochAfter()
    ensures plan.operationId in s.database.operations && s.database.operations[plan.operationId].plan == plan
    ensures s.database.operations[plan.operationId].phase == DbCommitted
  {
    hide JournalAccepted, Loads, PlanAccepted, Ledger;
    LoadedFacts(s, plan.operationId);
    assert s.database.operations.Keys <= s.summary.Keys;
    assert Finished(s.database, plan.operationId, s.summary[plan.operationId]);
    CommitsOfOne(s.database, s.summary, s.commits, plan);
  }

  lemma CommitsOfOne(d: Database, summary: Summary, commits: seq<nat>, plan: Plan)
    requires Ledger(d, commits) && summary.Keys == {plan.operationId} && d.operations.Keys <= summary.Keys
    requires plan.operationId in d.operations && d.operations[plan.operationId].plan == plan
    requires d.operations[plan.operationId].phase == DbCommitted
    ensures plan.epochBefore == 0 && commits == [plan.operationId] && d.epoch == 1
  {
    forall e | 0 <= e < |commits| ensures commits[e] == plan.operationId && e == plan.epochBefore {
      assert commits[e] in d.operations.Keys;
    }
    assert commits[0] == plan.operationId;
    var last := |commits| - 1;
    assert commits[last] == plan.operationId && last == plan.epochBefore;
  }

  lemma RestoredIsSound(s: State, plan: Plan)
    requires Consistent(s) && OnlyCompleted(s, plan) && PlanAccepted(plan, s.Slots())
    requires plan.epochBefore == 0 && AllInstalled(s.files, plan) && |plan.members| == |s.files.canonical|
    ensures var t := Restored(s, plan); Sound(t.files, t.database, t.summary, t.current, t.commits)
  {
    hide AllInstalled, PlanAccepted, ActiveOld, ActiveNew, Quiet, JournalAccepted, Loads, Joint;
    RestoredIsJoint(s, plan);
  }

  lemma RestoredIsJoint(s: State, plan: Plan)
    requires |s.files.canonical| == |plan.members| && PlanAccepted(plan, |plan.members|) && AllInstalled(s.files, plan)
    ensures var t := Restored(s, plan);
      |t.files.canonical| == |t.database.active| && Joint(t.files, t.database, plan, Completed)
  {
  }

  lemma NamedIs(s: State, operationId: nat)
    requires Consistent(s) && operationId in s.summary
    ensures s.summary[operationId].Loaded? && s.summary[operationId].plan.operationId == operationId
  {
    hide Consistent;
    LoadedFacts(s, operationId);
  }

  lemma CompletedAlone(s: State, t: State, request: Request, result: Result)
    requires Consistent(t) && Undisturbed(t, request.operationId) && OthersUntouched(s, t, request.operationId)
    requires s.summary == map[] && result.phase == Completed && request.operationId in t.summary
    requires CommittedEnd(t, t.summary[request.operationId].plan, result)
    requires t.summary[request.operationId].plan.operationId == request.operationId
    ensures OnlyCompleted(t, t.summary[request.operationId].plan)
  {
    hide Consistent, CommitsOnce;
    if t.current.Some? {
      CurrentFacts(t, t.current.value);
    }
    forall o | o in t.summary ensures o == request.operationId {
      assert o != request.operationId ==> o in t.summary - {request.operationId};
    }
  }

  lemma OtherReceiptForks(s: State, plan: Plan, serial: nat)
    requires Consistent(s) && OnlyCompleted(s, plan) && Reconcilable(s, plan.operationId, 0)
    ensures plan.operationId in s.database.operations && s.database.operations[plan.operationId].receipt.Some?
    ensures serial != s.database.operations[plan.operationId].receipt.value.serial ==>
      LosesEvidence(Restored(s, plan), plan.operationId, serial)
      && !Reconcilable(Restored(s, plan), plan.operationId, serial)
  {
    hide Consistent, EvidenceNames;
    FirstCommit(s, plan);
    LoadedFacts(s, plan.operationId);
    RestoreLosesCommit(s, plan);
    if serial != s.database.operations[plan.operationId].receipt.value.serial
       && EvidenceNames(s.summary[plan.operationId].records, NewReceipt(plan, serial)) {
      OneReceipt(s, plan.operationId, NewReceipt(plan, serial),
                 s.database.operations[plan.operationId].receipt.value);
    }
  }

  /**
   A rotation completes, the database is put back to before it, and reconcile recovers the commit with another
   receipt: from then on no reconcile and no retry of the request ever ends it again.
   */
  method ForkedRotation(token: Digest)
    returns (coordinator: Coordinator, request: Request, r: Outcome<Result>, again: Outcome<Result>,
             ghost rotated: State, ghost serial: nat)
    ensures request == Request(1, 0, true, true, [Some(token + 1)])
    ensures r.Done? && r.value.phase == Completed && Rotated(Fresh(token), rotated, request, r.value)
    ensures Named(rotated, 1) && !again.Done?
    ensures Keeps(Restored(rotated, rotated.summary[1].plan), coordinator.Now(), 1, serial)
    ensures coordinator.Valid() && Forked(coordinator.Now(), request.operationId)
  {
    hide JournalAccepted, Consistent, OthersUntouched, Keeps, Rotated, IsPlanFor, CommittedEnd, Reconcilable,
         EvidenceNames, Forked, IsLost, Restored;
    coordinator := new Coordinator([Holds(token)], [ActiveSlot(0, token)]);
    request := Request(1, 0, true, true, [Some(token + 1)]);
    assert Startable(coordinator.Now(), request);
    ghost var first := coordinator.Now();
    r := coordinator.Rotate(request, 0);
    ghost var s := coordinator.Now();
    rotated := s;
    NamedIs(s, 1);
    ghost var plan := s.summary[1].plan;
    CompletedAlone(first, s, request, r.value);
    RestoreLosesCommit(s, plan);
    OtherReceiptForks(s, plan, 0);
    var issued := coordinator.database.operations[1].receipt.value.serial + 1;
    serial := issued;
    OtherReceiptForks(s, plan, issued);
    coordinator.database := Database(0, [ActiveSlot(0, token)], map[]);
    coordinator.current, coordinator.commits := Some(plan), [];
    PutBack(first, s, request, plan, token);
    again := coordinator.Reconcile(1, issued);
  }

  lemma PutBack(s: State, t: State, request: Request, plan: Plan, token: Digest)
    requires s.database.epoch == 0 && s.database.active == [ActiveSlot(0, token)]
    requires Consistent(t) && OnlyCompleted(t, plan) && IsPlanFor(s, request, plan)
    ensures Restored(t, plan) ==
      t.(database := Database(0, [ActiveSlot(0, token)], map[]), current := Some(plan), commits := [])
  {
    hide Consistent;
    FirstCommit(t, plan);
    var database := Restored(t, plan).database;
    assert database.active == [ActiveSlot(0, token)];
  }
}
