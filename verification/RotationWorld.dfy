/**
 The durable state a credential rotation leaves behind when a process dies: the
 credential files of every slot in their three places, and the database. Sound is
 the invariant that couples them with the summary of the journal, and one lemma
 per durable effect shows that the effect keeps it.
 */
module RotationWorld {
  import opened Common
  import opened RotationJournal

  /** Torn is a staged file whose write was cut short. A token fixes its file's bytes. */
  datatype File = Missing | Holds(token: Digest) | Torn

  /** Staged and quarantined files are named by operation and slot; an absent key is a missing file. */
  type Artifacts = map<(nat, nat), File>

  datatype Files = Files(canonical: seq<File>, staged: Artifacts, quarantine: Artifacts)

  datatype ActiveSlot = ActiveSlot(generation: nat, token: Digest)

  datatype DatabaseOperation = DatabaseOperation(plan: Plan, phase: Phase, receipt: Option<Receipt>)

  datatype Database = Database(epoch: nat, active: seq<ActiveSlot>, operations: map<nat, DatabaseOperation>)

  function At(files: Artifacts, operationId: nat, slot: nat): File {
    if (operationId, slot) in files then files[(operationId, slot)] else Missing
  }

  function DatabasePhase(d: Database, operationId: nat): Option<Phase> {
    if operationId in d.operations then Some(d.operations[operationId].phase) else None
  }

  // ---------------------------------------------------------------------------
  // The files of one slot
  // ---------------------------------------------------------------------------

  /** Not switched: the old root is canonical. */
  predicate SlotOld(f: Files, plan: Plan, i: nat)
    requires i < |plan.members| && i < |f.canonical|
  {
    && f.canonical[i] == Holds(plan.members[i].oldToken)
    && At(f.quarantine, plan.operationId, i) == Missing
  }

  predicate SlotReady(f: Files, plan: Plan, i: nat)
    requires i < |plan.members| && i < |f.canonical|
  {
    SlotOld(f, plan, i) && At(f.staged, plan.operationId, i) == Holds(plan.members[i].newToken)
  }

  /** Between the two renames. */
  predicate SlotMid(f: Files, plan: Plan, i: nat)
    requires i < |plan.members| && i < |f.canonical|
  {
    && f.canonical[i] == Missing
    && At(f.quarantine, plan.operationId, i) == Holds(plan.members[i].oldToken)
    && At(f.staged, plan.operationId, i) == Holds(plan.members[i].newToken)
  }

  predicate SlotNew(f: Files, plan: Plan, i: nat)
    requires i < |plan.members| && i < |f.canonical|
  {
    && f.canonical[i] == Holds(plan.members[i].newToken)
    && At(f.quarantine, plan.operationId, i) == Holds(plan.members[i].oldToken)
  }

  predicate SlotInstalled(f: Files, plan: Plan, i: nat)
    requires i < |plan.members| && i < |f.canonical|
  {
    f.canonical[i] == Holds(plan.members[i].newToken)
  }

  predicate SlotSwitching(f: Files, plan: Plan, i: nat)
    requires i < |plan.members| && i < |f.canonical|
  {
    SlotReady(f, plan, i) || SlotMid(f, plan, i) || SlotNew(f, plan, i)
  }

  predicate AllOld(f: Files, plan: Plan) {
    |plan.members| == |f.canonical| && forall i :: 0 <= i < |f.canonical| ==> SlotOld(f, plan, i)
  }

  predicate AllReady(f: Files, plan: Plan) {
    |plan.members| == |f.canonical| && forall i :: 0 <= i < |f.canonical| ==> SlotReady(f, plan, i)
  }

  predicate AllSwitching(f: Files, plan: Plan) {
    |plan.members| == |f.canonical| && forall i :: 0 <= i < |f.canonical| ==> SlotSwitching(f, plan, i)
  }

  predicate AllNew(f: Files, plan: Plan) {
    |plan.members| == |f.canonical| && forall i :: 0 <= i < |f.canonical| ==> SlotNew(f, plan, i)
  }

  predicate AllInstalled(f: Files, plan: Plan) {
    |plan.members| == |f.canonical| && forall i :: 0 <= i < |f.canonical| ==> SlotInstalled(f, plan, i)
  }

  // ---------------------------------------------------------------------------
  // The database
  // ---------------------------------------------------------------------------

  /** The database still serves the roots the plan replaces. */
  predicate ActiveOld(d: Database, plan: Plan) {
    && |plan.members| == |d.active|
    && d.epoch == plan.epochBefore
    && forall i :: 0 <= i < |d.active| ==>
         && d.active[i].generation + 1 == plan.members[i].generation
         && d.active[i].token == plan.members[i].oldToken
  }

  /** The database serves the plan's new roots. */
  predicate ActiveNew(d: Database, plan: Plan) {
    && |plan.members| == |d.active|
    && d.epoch == plan.EpochAfter()
    && forall i :: 0 <= i < |d.active| ==>
         d.active[i] == ActiveSlot(plan.members[i].generation, plan.members[i].newToken)
  }

  // ---------------------------------------------------------------------------
  // The invariant
  // ---------------------------------------------------------------------------

  /** Which journal, database and file states an unfinished rotation can be found in. */
  predicate Joint(f: Files, d: Database, plan: Plan, journal: Phase) {
    match DatabasePhase(d, plan.operationId)
    case None =>
      && ActiveOld(d, plan)
      && (|| (journal == Authorized && AllOld(f, plan))
          || (journal == DbCommitted && AllNew(f, plan))
          || (Order(journal) > Order(DbCommitted) && AllInstalled(f, plan)))
    case Some(Prepared) => ActiveOld(d, plan) && AllOld(f, plan) && journal in {Authorized, Prepared}
    case Some(Staged) => ActiveOld(d, plan) && AllOld(f, plan) && journal in {Prepared, Staged}
    case Some(Aborted) => ActiveOld(d, plan) && AllOld(f, plan) && journal == Staged
    case Some(Switching) =>
      ActiveOld(d, plan) && AllSwitching(f, plan) && journal in {Staged, Switching}
    case Some(FilesInstalled) =>
      ActiveOld(d, plan) && AllNew(f, plan) && journal in {Switching, FilesInstalled}
    case Some(DbCommitted) =>
      && ActiveNew(d, plan)
      && d.operations[plan.operationId].receipt.Some?
      && (|| (AllNew(f, plan) && journal in {FilesInstalled, DbCommitted})
          || (AllInstalled(f, plan) && journal in {CleanupPending, Completed}))
    case Some(_) => false
  }

  /** A finished operation needs nothing more: journal and database agree that it aborted or committed. */
  predicate Finished(d: Database, operationId: nat, o: Operation) {
    && o.Loaded?
    && operationId in d.operations
    && (|| (o.phase == Aborted
            && d.operations[operationId].phase == Aborted
            && o.plan.epochBefore <= d.epoch
            && (o.plan.epochBefore == d.epoch ==> ActiveOld(d, o.plan)))
        || (o.phase == Completed
            && d.operations[operationId].phase == DbCommitted
            && o.plan.EpochAfter() <= d.epoch))
  }

  /** Every canonical file holds the root the database serves. */
  predicate Quiet(f: Files, d: Database) {
    && |f.canonical| == |d.active|
    && forall i :: 0 <= i < |f.canonical| ==> f.canonical[i] == Holds(d.active[i].token)
  }

  /** validateCommitReceipt: the receipt names the operation and the epoch it committed. */
  predicate ReceiptMatches(receipt: Receipt, operationId: nat, plan: Plan) {
    receipt.operationId == operationId && receipt.epoch == plan.EpochAfter()
  }

  /** commits[e] is the operation that took the database from epoch e to e + 1. */
  ghost predicate Ledger(d: Database, commits: seq<nat>) {
    && |commits| == d.epoch
    && (forall e :: 0 <= e < |commits| ==>
          && commits[e] in d.operations
          && d.operations[commits[e]].phase == DbCommitted
          && d.operations[commits[e]].plan.epochBefore == e)
    && (forall o :: o in d.operations && d.operations[o].phase == DbCommitted ==>
          && d.operations[o].plan.epochBefore < |commits|
          && commits[d.operations[o].plan.epochBefore] == o
          && d.operations[o].receipt.Some?
          && ReceiptMatches(d.operations[o].receipt.value, o, d.operations[o].plan))
    && (|commits| > 0 ==> ActiveNew(d, d.operations[commits[|commits| - 1]].plan))
  }

  /** Nothing in the files or the database belongs to an operation the journal does not know. */
  ghost predicate Known(f: Files, d: Database, summary: Summary) {
    && (forall o :: o in d.operations ==>
          && o in summary && summary[o].Loaded? && summary[o].plan == d.operations[o].plan
          && (d.operations[o].phase != DbCommitted ==> d.operations[o].receipt == None))
    && (forall k :: k in f.staged ==> k.0 in summary)
    && (forall k :: k in f.quarantine ==> k.0 in summary)
  }

  /** No staged or quarantined file of the operation remains. */
  predicate Cleaned(f: Files, operationId: nat) {
    forall i :: 0 <= i < |f.canonical| ==>
      At(f.staged, operationId, i) == Missing && At(f.quarantine, operationId, i) == Missing
  }

  ghost predicate OthersFinished(d: Database, summary: Summary, current: Option<Plan>) {
    forall o :: o in summary && !(current.Some? && current.value.operationId == o) ==> Finished(d, o, summary[o])
  }

  ghost predicate Unfinished(f: Files, d: Database, plan: Plan, o: Operation) {
    && o.Loaded? && o.plan == plan
    && o.phase != Aborted
    && !(o.phase == Completed && DatabasePhase(d, plan.operationId) == Some(DbCommitted))
    && Joint(f, d, plan, o.phase)
  }

  /** current is the one unfinished operation, if there is one. */
  ghost predicate Sound(f: Files, d: Database, summary: Summary, current: Option<Plan>, commits: seq<nat>) {
    && (forall o :: o in summary ==> summary[o].Loaded?)
    && |f.canonical| == |d.active|
    && Known(f, d, summary)
    && OthersFinished(d, summary, current)
    && Ledger(d, commits)
    && (forall o :: o in summary && summary[o].phase == Completed ==> Cleaned(f, o))
    && match current
       case None => Quiet(f, d)
       case Some(plan) =>
         && plan.operationId in summary
         && PlanAccepted(plan, |f.canonical|)
         && Unfinished(f, d, plan, summary[plan.operationId])
  }

  // ---------------------------------------------------------------------------
  // Journal effects
  // ---------------------------------------------------------------------------

  lemma AuthorizeKeepsSound(
    f: Files, d: Database, summary: Summary, plan: Plan, records: seq<Record>, commits: seq<nat>)
    requires Sound(f, d, summary, None, commits)
    requires plan.operationId !in summary && PlanAccepted(plan, |f.canonical|)
    requires ActiveOld(d, plan)
    ensures Sound(f, d, summary[plan.operationId := Loaded(records, plan, Authorized)], Some(plan), commits)
  {
    assert plan.operationId !in d.operations;
    forall i | 0 <= i < |f.canonical| ensures SlotOld(f, plan, i) {
      assert (plan.operationId, i) !in f.quarantine;
    }
  }

  /** The database phase that must have been reached before `next` is journalled. */
  function Announces(next: Phase): Phase {
    if Committed(next) then DbCommitted else next
  }

  /** Journalling a phase the database has reached keeps Sound; the last phase finishes the operation. */
  lemma AppendKeepsSound(
    f: Files, d: Database, summary: Summary, plan: Plan, next: Phase, records: seq<Record>, commits: seq<nat>)
    requires Sound(f, d, summary, Some(plan), commits)
    requires Follows(summary[plan.operationId].phase, next)
    requires DatabasePhase(d, plan.operationId) == Some(Announces(next))
    requires next == Completed ==> Cleaned(f, plan.operationId)
    ensures Sound(f, d, summary[plan.operationId := Loaded(records, plan, next)],
                  if next in {Aborted, Completed} then None else Some(plan), commits)
  {
    hide Ledger, PlanAccepted, Cleaned, Joint, Finished, Quiet;
    if next in {Aborted, Completed} {
      LastRecordFinishes(f, d, plan, summary[plan.operationId].phase, next, records);
    } else {
      RecordKeepsJoint(f, d, plan, summary[plan.operationId].phase, next);
    }
  }

  lemma LastRecordFinishes(f: Files, d: Database, plan: Plan, journal: Phase, next: Phase, records: seq<Record>)
    requires Joint(f, d, plan, journal) && Follows(journal, next) && next in {Aborted, Completed}
    requires DatabasePhase(d, plan.operationId) == Some(Announces(next))
    ensures Quiet(f, d) && Finished(d, plan.operationId, Loaded(records, plan, next))
  {
    hide AllOld, AllNew, AllInstalled, AllSwitching;
    if next == Aborted {
      OldIsQuiet(f, d, plan);
    } else {
      InstalledIsQuiet(f, d, plan);
    }
  }

  lemma RecordKeepsJoint(f: Files, d: Database, plan: Plan, journal: Phase, next: Phase)
    requires Joint(f, d, plan, journal) && Follows(journal, next) && next != Aborted
    requires DatabasePhase(d, plan.operationId) == Some(Announces(next))
    ensures Joint(f, d, plan, next)
  {
    hide AllOld, AllReady, AllSwitching, AllNew, AllInstalled, ActiveOld, ActiveNew;
    if next == CleanupPending {
      NewIsInstalled(f, plan);
    }
  }

  lemma OldIsQuiet(f: Files, d: Database, plan: Plan)
    requires AllOld(f, plan) && ActiveOld(d, plan)
    ensures Quiet(f, d)
  {
    forall i | 0 <= i < |f.canonical| ensures f.canonical[i] == Holds(d.active[i].token) {
      assert SlotOld(f, plan, i);
    }
  }

  lemma InstalledIsQuiet(f: Files, d: Database, plan: Plan)
    requires AllInstalled(f, plan) && ActiveNew(d, plan)
    ensures Quiet(f, d)
  {
    forall i | 0 <= i < |f.canonical| ensures f.canonical[i] == Holds(d.active[i].token) {
      assert SlotInstalled(f, plan, i);
    }
  }

  lemma NewIsInstalled(f: Files, plan: Plan)
    requires AllNew(f, plan)
    ensures AllInstalled(f, plan)
  {
    assert forall i :: 0 <= i < |f.canonical| && SlotNew(f, plan, i) ==> SlotInstalled(f, plan, i);
  }

  // ---------------------------------------------------------------------------
  // Database effects
  // ---------------------------------------------------------------------------

  function SetOperation(d: Database, plan: Plan, phase: Phase): Database {
    d.(operations := d.operations[plan.operationId := DatabaseOperation(plan, phase, None)])
  }

  /** The steps short of the commit that the coordinator takes from a joint state. */
  predicate MayMove(f: Files, d: Database, plan: Plan, journal: Phase, phase: Phase) {
    var now := DatabasePhase(d, plan.operationId);
    match phase
    case Prepared => now == None && journal == Authorized
    case Staged => now == Some(Prepared) && journal == Prepared
    case Aborted => now == Some(Staged) && journal == Staged
    case Switching => now == Some(Staged) && journal == Staged && AllReady(f, plan)
    case FilesInstalled => now == Some(Switching) && journal == Switching && AllNew(f, plan)
    case _ => false
  }

  lemma DatabaseMoveKeepsSound(
    f: Files, d: Database, summary: Summary, plan: Plan, phase: Phase, commits: seq<nat>)
    requires Sound(f, d, summary, Some(plan), commits)
    requires MayMove(f, d, plan, summary[plan.operationId].phase, phase)
    ensures Sound(f, SetOperation(d, plan, phase), summary, Some(plan), commits)
  {
    hide Ledger, PlanAccepted, Cleaned, Joint, Finished, OthersFinished, Quiet;
    SameLedger(d, plan, phase, commits);
    OthersStay(d, summary, plan, phase);
    MoveKeepsJoint(f, d, plan, summary[plan.operationId].phase, phase);
  }

  lemma MoveKeepsJoint(f: Files, d: Database, plan: Plan, journal: Phase, phase: Phase)
    requires Joint(f, d, plan, journal) && MayMove(f, d, plan, journal, phase)
    ensures Joint(f, SetOperation(d, plan, phase), plan, journal)
    ensures DatabasePhase(d, plan.operationId) != Some(DbCommitted) && phase != DbCommitted
  {
    hide AllOld, AllReady, AllSwitching, AllNew, AllInstalled;
    assert ActiveOld(SetOperation(d, plan, phase), plan);
    if phase == Switching {
      ReadyIsSwitching(f, plan);
    }
  }

  lemma OthersStay(d: Database, summary: Summary, plan: Plan, phase: Phase)
    requires OthersFinished(d, summary, Some(plan))
    ensures OthersFinished(SetOperation(d, plan, phase), summary, Some(plan))
  {
    var e := SetOperation(d, plan, phase);
    forall o | o in summary && o != plan.operationId ensures Finished(e, o, summary[o]) {
      assert Finished(d, o, summary[o]);
      if summary[o].phase == Aborted && summary[o].plan.epochBefore == d.epoch {
        assert ActiveOld(e, summary[o].plan);
      }
    }
  }

  lemma ReadyIsSwitching(f: Files, plan: Plan)
    requires AllReady(f, plan)
    ensures AllSwitching(f, plan)
  {
    assert forall i :: 0 <= i < |f.canonical| ==> SlotReady(f, plan, i) && SlotSwitching(f, plan, i);
  }

  lemma SameLedger(d: Database, plan: Plan, phase: Phase, commits: seq<nat>)
    requires Ledger(d, commits)
    requires phase != DbCommitted && DatabasePhase(d, plan.operationId) != Some(DbCommitted)
    ensures Ledger(SetOperation(d, plan, phase), commits)
  {
    var e := SetOperation(d, plan, phase);
    if |commits| > 0 {
      var last := commits[|commits| - 1];
      assert last != plan.operationId && e.operations[last] == d.operations[last];
      assert ActiveNew(e, d.operations[last].plan);
    }
  }

  function NewActive(plan: Plan): (active: seq<ActiveSlot>) {
    seq(|plan.members|, i requires 0 <= i < |plan.members| =>
      ActiveSlot(plan.members[i].generation, plan.members[i].newToken))
  }

  /** The one transaction that installs every generation and raises the epoch. */
  function CommitDatabase(d: Database, plan: Plan, receipt: Receipt): Database {
    Database(plan.EpochAfter(), NewActive(plan),
             d.operations[plan.operationId := DatabaseOperation(plan, DbCommitted, Some(receipt))])
  }

  /** The commit is reached from FILES_INSTALLED, or by external recovery of a commit the database lost. */
  lemma CommitKeepsSound(
    f: Files, d: Database, summary: Summary, plan: Plan, receipt: Receipt, commits: seq<nat>)
    requires Sound(f, d, summary, Some(plan), commits)
    requires ReceiptMatches(receipt, plan.operationId, plan)
    requires var journal := summary[plan.operationId].phase;
      || (DatabasePhase(d, plan.operationId) == Some(FilesInstalled) && journal == FilesInstalled)
      || (DatabasePhase(d, plan.operationId) == None && Committed(journal))
    ensures Sound(f, CommitDatabase(d, plan, receipt), summary,
                  if summary[plan.operationId].phase == Completed then None else Some(plan),
                  commits + [plan.operationId])
  {
    hide Ledger, PlanAccepted, Cleaned, AllOld, AllNew, AllSwitching, AllInstalled, Quiet;
    var e := CommitDatabase(d, plan, receipt);
    assert ActiveNew(e, plan);
    CommitLedger(d, plan, receipt, commits);
    if summary[plan.operationId].phase == Completed {
      InstalledIsQuiet(f, e, plan);
    }
  }

  lemma CommitLedger(d: Database, plan: Plan, receipt: Receipt, commits: seq<nat>)
    requires Ledger(d, commits) && d.epoch == plan.epochBefore
    requires ReceiptMatches(receipt, plan.operationId, plan)
    requires DatabasePhase(d, plan.operationId) != Some(DbCommitted)
    ensures Ledger(CommitDatabase(d, plan, receipt), commits + [plan.operationId])
  {
    var e := CommitDatabase(d, plan, receipt);
    assert ActiveNew(e, plan);
    assert (commits + [plan.operationId])[|commits|] == plan.operationId;
  }

  // ---------------------------------------------------------------------------
  // File effects
  // ---------------------------------------------------------------------------

  function Stage(f: Files, plan: Plan, i: nat, file: File): Files {
    f.(staged := f.staged[(plan.operationId, i) := file])
  }

  /** The first rename of an installation: canonical to quarantine. */
  function MoveToQuarantine(f: Files, plan: Plan, i: nat): Files
    requires i < |f.canonical|
  {
    f.(canonical := f.canonical[i := Missing], quarantine := f.quarantine[(plan.operationId, i) := f.canonical[i]])
  }

  /** The second rename of an installation: staged to canonical. */
  function MoveToCanonical(f: Files, plan: Plan, i: nat): Files
    requires i < |f.canonical|
  {
    f.(canonical := f.canonical[i := At(f.staged, plan.operationId, i)],
       staged := f.staged - {(plan.operationId, i)})
  }

  function RemoveQuarantined(f: Files, operationId: nat, i: nat): Files {
    f.(quarantine := f.quarantine - {(operationId, i)})
  }

  function RemoveStaged(f: Files, operationId: nat, i: nat): Files {
    f.(staged := f.staged - {(operationId, i)})
  }

  /** Before the switch a staged file may be anything at all, even torn. */
  lemma StageKeepsSound(
    f: Files, d: Database, summary: Summary, plan: Plan, i: nat, file: File, commits: seq<nat>)
    requires Sound(f, d, summary, Some(plan), commits)
    requires DatabasePhase(d, plan.operationId) == Some(Prepared)
    ensures Sound(Stage(f, plan, i, file), d, summary, Some(plan), commits)
  {
    var g := Stage(f, plan, i, file);
    assert forall j :: 0 <= j < |f.canonical| && SlotOld(f, plan, j) ==> SlotOld(g, plan, j);
    forall o | o in summary && summary[o].phase == Completed ensures Cleaned(g, o) {
      StaysCleaned(f, g, o);
    }
  }

  /** Either rename keeps every slot in one of its three switching states. */
  lemma InstallStepKeepsSound(
    f: Files, d: Database, summary: Summary, plan: Plan, i: nat, commits: seq<nat>) returns (g: Files)
    requires Sound(f, d, summary, Some(plan), commits)
    requires DatabasePhase(d, plan.operationId) == Some(Switching)
    requires i < |f.canonical| && (SlotReady(f, plan, i) || SlotMid(f, plan, i))
    ensures g == if SlotReady(f, plan, i) then MoveToQuarantine(f, plan, i) else MoveToCanonical(f, plan, i)
    ensures Sound(g, d, summary, Some(plan), commits)
    ensures if SlotReady(f, plan, i) then SlotMid(g, plan, i) else SlotNew(g, plan, i)
    ensures forall j :: 0 <= j < |f.canonical| && j != i && SlotNew(f, plan, j) ==> SlotNew(g, plan, j)
  {
    hide Ledger, OthersFinished, PlanAccepted, ActiveOld, ActiveNew, Cleaned;
    g := if SlotReady(f, plan, i) then MoveToQuarantine(f, plan, i) else MoveToCanonical(f, plan, i);
    forall j | 0 <= j < |f.canonical| ensures SlotSwitching(g, plan, j) {
      assert SlotSwitching(f, plan, j);
    }
    forall o | o in summary && summary[o].phase == Completed ensures Cleaned(g, o) {
      StaysCleaned(f, g, o);
    }
  }

  /** Cleanup removes nothing that the unfinished operation, if it is not itself being cleaned, relies on. */
  lemma RemovalKeepsSound(
    f: Files, d: Database, summary: Summary, current: Option<Plan>, operationId: nat, i: nat, commits: seq<nat>)
    requires Sound(f, d, summary, current, commits)
    requires current.Some? && current.value.operationId == operationId ==>
               Order(summary[operationId].phase) > Order(DbCommitted)
    ensures Sound(RemoveQuarantined(f, operationId, i), d, summary, current, commits)
    ensures Sound(RemoveStaged(f, operationId, i), d, summary, current, commits)
  {
    hide Ledger, ActiveOld, ActiveNew, Cleaned, OthersFinished, AllOld, AllNew, AllSwitching;
    var g, h := RemoveQuarantined(f, operationId, i), RemoveStaged(f, operationId, i);
    forall o | o in summary && summary[o].phase == Completed ensures Cleaned(g, o) && Cleaned(h, o) {
      StaysCleaned(f, g, o);
      StaysCleaned(f, h, o);
    }
    if current.Some? {
      var plan := current.value;
      if plan.operationId == operationId {
        SameInstalled(f, g, plan);
        SameInstalled(f, h, plan);
      } else {
        OtherFilesStay(f, plan, operationId, i);
        SameSlots(f, g, plan);
        SameSlots(f, h, plan);
      }
    }
  }

  lemma OtherFilesStay(f: Files, plan: Plan, operationId: nat, i: nat)
    requires plan.operationId != operationId
    ensures forall j :: 0 <= j < |f.canonical| ==>
      && At(RemoveQuarantined(f, operationId, i).quarantine, plan.operationId, j) ==
         At(f.quarantine, plan.operationId, j)
      && At(RemoveStaged(f, operationId, i).staged, plan.operationId, j) == At(f.staged, plan.operationId, j)
  {
  }

  lemma SameInstalled(f: Files, g: Files, plan: Plan)
    requires f.canonical == g.canonical && AllInstalled(f, plan)
    ensures AllInstalled(g, plan)
  {
    assert forall j :: 0 <= j < |f.canonical| && SlotInstalled(f, plan, j) ==> SlotInstalled(g, plan, j);
  }

  lemma StaysCleaned(f: Files, g: Files, operationId: nat)
    requires |f.canonical| == |g.canonical|
    requires forall i :: 0 <= i < |f.canonical| ==>
      At(g.staged, operationId, i) in {At(f.staged, operationId, i), Missing}
    requires forall i :: 0 <= i < |f.canonical| ==>
      At(g.quarantine, operationId, i) in {At(f.quarantine, operationId, i), Missing}
    requires Cleaned(f, operationId)
    ensures Cleaned(g, operationId)
  {
  }

  lemma SameSlots(f: Files, g: Files, plan: Plan)
    requires f.canonical == g.canonical && |plan.members| == |f.canonical|
    requires forall j :: 0 <= j < |f.canonical| ==>
      && At(g.quarantine, plan.operationId, j) == At(f.quarantine, plan.operationId, j)
      && At(g.staged, plan.operationId, j) == At(f.staged, plan.operationId, j)
    ensures AllOld(f, plan) ==> AllOld(g, plan)
    ensures AllSwitching(f, plan) ==> AllSwitching(g, plan)
    ensures AllNew(f, plan) ==> AllNew(g, plan)
    ensures AllInstalled(f, plan) ==> AllInstalled(g, plan)
  {
    assert forall j :: 0 <= j < |f.canonical| && SlotOld(f, plan, j) ==> SlotOld(g, plan, j);
    assert forall j :: 0 <= j < |f.canonical| && SlotSwitching(f, plan, j) ==> SlotSwitching(g, plan, j);
    assert forall j :: 0 <= j < |f.canonical| && SlotNew(f, plan, j) ==> SlotNew(g, plan, j);
    assert forall j :: 0 <= j < |f.canonical| && SlotInstalled(f, plan, j) ==> SlotInstalled(g, plan, j);
  }

  // ---------------------------------------------------------------------------
  // Journal, files and database together
  // ---------------------------------------------------------------------------

  /** Everything that survives the process, with the ghost summary, current plan and ledger. */
  datatype State = State(
    journal: seq<Record>, files: Files, database: Database,
    summary: Summary, current: Option<Plan>, commits: seq<nat>)
  {
    function Slots(): nat { |files.canonical| }
  }

  ghost predicate Consistent(s: State) {
    && Journaled(s.journal, s.Slots(), s.summary)
    && Sound(s.files, s.database, s.summary, s.current, s.commits)
  }

  /** What a consistent state says about the operation it is asked about. */
  lemma LoadedFacts(s: State, operationId: nat)
    requires Consistent(s)
    ensures JournalAccepted(s.journal, s.Slots())
    ensures |s.database.active| == s.Slots()
    ensures Load(s.journal, operationId) == if operationId in s.summary then s.summary[operationId] else Absent
    ensures operationId in s.summary ==>
      && s.summary[operationId].Loaded?
      && s.summary[operationId].plan.operationId == operationId
      && PlanAccepted(s.summary[operationId].plan, s.Slots())
    ensures operationId in s.summary && !(s.current.Some? && s.current.value.operationId == operationId) ==>
      Finished(s.database, operationId, s.summary[operationId])
    ensures operationId in s.summary && s.summary[operationId].phase == Completed ==> Cleaned(s.files, operationId)
    ensures operationId in s.database.operations ==>
      && operationId in s.summary
      && s.database.operations[operationId].plan == s.summary[operationId].plan
      && (s.database.operations[operationId].phase != DbCommitted ==>
            s.database.operations[operationId].receipt == None)
      && (s.database.operations[operationId].phase == DbCommitted ==>
            && s.database.operations[operationId].receipt.Some?
            && ReceiptMatches(s.database.operations[operationId].receipt.value, operationId,
                              s.summary[operationId].plan))
  {
  }

  /** The database holds this receipt for the committed plan. */
  predicate CommittedAs(d: Database, plan: Plan, receipt: Receipt) {
    && plan.operationId in d.operations
    && d.operations[plan.operationId] == DatabaseOperation(plan, DbCommitted, Some(receipt))
    && ReceiptMatches(receipt, plan.operationId, plan)
  }

  /** A committed operation carries a receipt that names it. */
  lemma ReceiptFacts(s: State, operationId: nat)
    requires Consistent(s)
    ensures DatabasePhase(s.database, operationId) == Some(DbCommitted) ==>
      && operationId in s.summary && s.summary[operationId].Loaded?
      && s.database.operations[operationId].receipt.Some?
      && CommittedAs(s.database, s.summary[operationId].plan, s.database.operations[operationId].receipt.value)
      && s.database.operations[operationId].receipt.value.operationId == operationId
      && s.database.operations[operationId].receipt.value.epoch == s.summary[operationId].plan.epochBefore + 1
  {
    LoadedFacts(s, operationId);
  }

  lemma CurrentFacts(s: State, plan: Plan)
    requires Consistent(s) && s.current == Some(plan)
    ensures plan.operationId in s.summary && s.summary[plan.operationId].plan == plan
    ensures Unfinished(s.files, s.database, plan, s.summary[plan.operationId])
    ensures |plan.members| == s.Slots()
  {
  }

  /** The state after one more record for the current operation. */
  function WithRecord(s: State, plan: Plan, next: Phase, evidence: Option<Receipt>): State
    requires plan.operationId in s.summary && s.summary[plan.operationId].Loaded?
  {
    var record := NextRecord(s.journal, plan, next, evidence);
    State(s.journal + [record], s.files, s.database,
          s.summary[plan.operationId := Loaded(s.summary[plan.operationId].records + [record], plan, next)],
          if next in {Aborted, Completed} then None else Some(plan), s.commits)
  }

  /** What must hold before the coordinator journals a phase. */
  predicate CanRecord(s: State, plan: Plan, next: Phase, evidence: Option<Receipt>)
    requires plan.operationId in s.summary && s.summary[plan.operationId].Loaded?
  {
    && Follows(s.summary[plan.operationId].phase, next)
    && (Committed(next) <==> evidence.Some?)
    && DatabasePhase(s.database, plan.operationId) == Some(Announces(next))
    && (next == Completed ==> Cleaned(s.files, plan.operationId))
  }

  /** The state after the AUTHORIZED record of a new operation. */
  function WithAuthorization(s: State, plan: Plan): State {
    var record := NextRecord(s.journal, plan, Authorized, None);
    State(s.journal + [record], s.files, s.database,
          s.summary[plan.operationId := Loaded([record], plan, Authorized)], Some(plan), s.commits)
  }

  /** A journal that the AUTHORIZED record of an unreadable plan has spoilt. */
  function WithUnreadable(s: State, plan: Plan): State {
    s.(journal := s.journal + [NextRecord(s.journal, plan, Authorized, None)])
  }

  /** The state after the database transaction. */
  function WithCommit(s: State, plan: Plan, receipt: Receipt): State
    requires plan.operationId in s.summary && s.summary[plan.operationId].Loaded?
  {
    s.(database := CommitDatabase(s.database, plan, receipt),
       current := if s.summary[plan.operationId].phase == Completed then None else Some(plan),
       commits := s.commits + [plan.operationId])
  }

  lemma RecordKeepsConsistent(s: State, plan: Plan, next: Phase, evidence: Option<Receipt>) returns (v: State)
    requires Consistent(s) && s.current == Some(plan)
    requires plan.operationId in s.summary && s.summary[plan.operationId].Loaded?
    requires CanRecord(s, plan, next, evidence)
    ensures v == WithRecord(s, plan, next, evidence)
    ensures Consistent(v)
  {
    var record := NextRecord(s.journal, plan, next, evidence);
    var records := s.summary[plan.operationId].records + [record];
    CurrentFacts(s, plan);
    AppendKeepsJournaled(s.journal, s.Slots(), s.summary, plan, next, evidence);
    AppendKeepsSound(s.files, s.database, s.summary, plan, next, records, s.commits);
    v := WithRecord(s, plan, next, evidence);
    hide *;
    assert Consistent(v);
  }

  /** What rotate has established before it journals the authorization. */
  predicate CanAuthorize(s: State, plan: Plan) {
    && s.current == None
    && plan.operationId !in s.summary
    && |plan.members| == s.Slots()
    && ActiveOld(s.database, plan)
  }

  /** An unreadable plan is journalled as well, and the journal is never accepted again. */
  function Authorizing(s: State, plan: Plan): State {
    if PlanAccepted(plan, s.Slots()) then WithAuthorization(s, plan) else WithUnreadable(s, plan)
  }

  lemma AuthorizeOutcome(s: State, plan: Plan) returns (v: State)
    requires Consistent(s) && CanAuthorize(s, plan)
    ensures v == Authorizing(s, plan) && v.files == s.files && v.journal != s.journal
    ensures if PlanAccepted(plan, s.Slots()) then Consistent(v) && JournalAccepted(v.journal, s.Slots())
            else !JournalAccepted(v.journal, s.Slots())
  {
    LoadedFacts(s, plan.operationId);
    AppendAccepted(s.journal, plan, Authorized, None, s.Slots());
    v := Authorizing(s, plan);
    hide Consistent, JournalAccepted, PlanAccepted;
    assert v.journal != s.journal;
    if PlanAccepted(plan, s.Slots()) {
      var w := AuthorizeKeepsConsistent(s, plan);
    }
  }

  lemma AuthorizeKeepsConsistent(s: State, plan: Plan) returns (v: State)
    requires Consistent(s) && CanAuthorize(s, plan) && PlanAccepted(plan, s.Slots())
    ensures v == WithAuthorization(s, plan)
    ensures Consistent(v)
  {
    var record := NextRecord(s.journal, plan, Authorized, None);
    AuthorizeKeepsJournaled(s.journal, s.Slots(), s.summary, plan);
    AuthorizeKeepsSound(s.files, s.database, s.summary, plan, [record], s.commits);
    v := WithAuthorization(s, plan);
    hide *;
    assert Consistent(v);
  }

  lemma MoveKeepsConsistent(s: State, plan: Plan, next: Phase) returns (v: State)
    requires Consistent(s) && s.current == Some(plan)
    requires plan.operationId in s.summary && s.summary[plan.operationId].Loaded?
    requires MayMove(s.files, s.database, plan, s.summary[plan.operationId].phase, next)
    ensures v == s.(database := SetOperation(s.database, plan, next))
    ensures Consistent(v)
  {
    DatabaseMoveKeepsSound(s.files, s.database, s.summary, plan, next, s.commits);
    hide *;
    v := s.(database := SetOperation(s.database, plan, next));
    assert Consistent(v);
  }

  /** The commit comes after FILES_INSTALLED; recovery repeats one that the journal already records. */
  predicate CanCommit(s: State, plan: Plan)
    requires plan.operationId in s.summary && s.summary[plan.operationId].Loaded?
  {
    var journal := s.summary[plan.operationId].phase;
    || (DatabasePhase(s.database, plan.operationId) == Some(FilesInstalled) && journal == FilesInstalled)
    || (DatabasePhase(s.database, plan.operationId) == None && Committed(journal))
  }

  function NewReceipt(plan: Plan, serial: nat): Receipt {
    Receipt(plan.operationId, plan.EpochAfter(), serial)
  }

  /** An operation that may be committed is the next one for the database. */
  lemma CommitsNext(s: State, plan: Plan)
    requires Consistent(s) && s.current == Some(plan) && CanCommit(s, plan)
    requires plan.operationId in s.summary && s.summary[plan.operationId].Loaded?
    ensures s.database.epoch == plan.epochBefore
  {
    CurrentFacts(s, plan);
  }

  lemma CommitKeepsConsistent(s: State, plan: Plan, serial: nat) returns (v: State)
    requires Consistent(s) && s.current == Some(plan)
    requires plan.operationId in s.summary && s.summary[plan.operationId].Loaded?
    requires CanCommit(s, plan)
    ensures v == WithCommit(s, plan, NewReceipt(plan, serial))
    ensures Consistent(v) && CommittedAs(v.database, plan, NewReceipt(plan, serial))
    ensures s.database.epoch == plan.epochBefore
  {
    hide Sound, Journaled, ActiveNew, ActiveOld;
    var receipt := NewReceipt(plan, serial);
    CommitsNext(s, plan);
    CommitKeepsSound(s.files, s.database, s.summary, plan, receipt, s.commits);
    v := WithCommit(s, plan, receipt);
    assert CommittedAs(v.database, plan, receipt);
    hide *;
    assert Consistent(v);
  }

  lemma StageKeepsConsistent(s: State, plan: Plan, i: nat, file: File) returns (v: State)
    requires Consistent(s) && s.current == Some(plan)
    requires DatabasePhase(s.database, plan.operationId) == Some(Prepared)
    ensures v == s.(files := Stage(s.files, plan, i, file))
    ensures Consistent(v)
  {
    StageKeepsSound(s.files, s.database, s.summary, plan, i, file, s.commits);
    v := s.(files := Stage(s.files, plan, i, file));
  }

  lemma InstallStepKeepsConsistent(s: State, plan: Plan, i: nat) returns (v: State)
    requires Consistent(s) && s.current == Some(plan)
    requires DatabasePhase(s.database, plan.operationId) == Some(Switching)
    requires i < s.Slots() == |plan.members| && (SlotReady(s.files, plan, i) || SlotMid(s.files, plan, i))
    ensures v == s.(files := if SlotReady(s.files, plan, i) then MoveToQuarantine(s.files, plan, i)
                             else MoveToCanonical(s.files, plan, i))
    ensures Consistent(v)
    ensures if SlotReady(s.files, plan, i) then SlotMid(v.files, plan, i) else SlotNew(v.files, plan, i)
    ensures forall j :: 0 <= j < s.Slots() && j != i && SlotNew(s.files, plan, j) ==> SlotNew(v.files, plan, j)
  {
    var g := InstallStepKeepsSound(s.files, s.database, s.summary, plan, i, s.commits);
    v := s.(files := g);
  }

  lemma RemovalKeepsConsistent(s: State, operationId: nat, i: nat) returns (v: State, w: State)
    requires Consistent(s)
    requires s.current.Some? && s.current.value.operationId == operationId ==>
      && operationId in s.summary && s.summary[operationId].Loaded?
      && Order(s.summary[operationId].phase) > Order(DbCommitted)
    ensures v == s.(files := RemoveQuarantined(s.files, operationId, i)) && Consistent(v)
    ensures w == s.(files := RemoveStaged(s.files, operationId, i)) && Consistent(w)
  {
    RemovalKeepsSound(s.files, s.database, s.summary, s.current, operationId, i, s.commits);
    v := s.(files := RemoveQuarantined(s.files, operationId, i));
    w := s.(files := RemoveStaged(s.files, operationId, i));
  }
}
