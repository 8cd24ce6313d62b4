/**
 Any number of command executors over one compare-and-swap store. Each executor advances from one await
 to the next; a schedule says who advances, and what its effect returns, or that it dies. A request hash
 is modelled by what it was taken of, so equal hashes mean equal requests.
 */
module IpcCommands {
  import opened Common

  const MAX_CAS_ATTEMPTS: nat := 64

  datatype Kind = EnsureRunning | Stop | Status | ProbeAppServer | ReportHealth

  datatype Request = Request(commandId: nat, hash: nat, kind: Kind, subjectKey: nat, sequence: nat)

  datatype ReceiptStatus = Running | Stopped | Healthy

  datatype Receipt = Receipt(status: ReceiptStatus, subjectKey: nat, revision: nat, sequence: nat)

  /** A claim has no receipt yet; its revision is 0, and that of a completed command 1. */
  datatype Journal = Journal(revision: nat, hash: nat, subjectKey: nat, receipt: Option<Receipt>)

  datatype Code = CommandConflict | InProgress | JournalConflict | EffectFailed | LeaseInvalid

  datatype Disposition = Applied | Replayed

  /** Where an executor stands between two awaits. */
  datatype Local =
    | Loading(request: Request, attempt: nat)
    | Claiming(request: Request, attempt: nat)
    | Effecting(request: Request)
    | Completing(request: Request, receipt: Receipt)
    | Finished(request: Request, disposition: Disposition, receipt: Receipt)
    | Failed(request: Request, code: Code)
    | Dead(request: Request)

  /** What the outside does to an executor's next stretch; an effect that throws may still have run. */
  datatype Fate = Goes | LosesLease | Dies | EffectThrows | EffectReturns(receipt: Receipt)

  /** A request reaches an executor that has none yet, or an executor advances. */
  datatype Turn = Submits(executor: nat, request: Request) | Acts(executor: nat, fate: Fate)

  function Expected(kind: Kind): Option<ReceiptStatus> {
    match kind
    case EnsureRunning => Some(Running)
    case Stop => Some(Stopped)
    case Status => None
    case _ => Some(Healthy)
  }

  /** The receipt belongs to the request. */
  predicate Accepted(request: Request, receipt: Receipt) {
    && receipt.subjectKey == request.subjectKey
    && receipt.sequence >= request.sequence
    && (Expected(request.kind).Some? ==> receipt.status == Expected(request.kind).value)
  }

  /** A receipt is accepted for its subject, not before its request, and with the status the command asks for. */
  lemma AcceptedExactly(request: Request, receipt: Receipt)
    ensures Accepted(request, receipt) <==>
      && receipt.subjectKey == request.subjectKey && receipt.sequence >= request.sequence
      && (request.kind == EnsureRunning ==> receipt.status == Running)
      && (request.kind == Stop ==> receipt.status == Stopped)
      && (request.kind in {ProbeAppServer, ReportHealth} ==> receipt.status == Healthy)
  {
  }

  /** How often the effect has run for the command. */
  function Runs(effects: seq<Request>, commandId: nat): nat {
    if effects == [] then 0
    else Runs(effects[..|effects| - 1], commandId) + (if effects[|effects| - 1].commandId == commandId then 1 else 0)
  }

  lemma RunsAppend(effects: seq<Request>, request: Request, commandId: nat)
    ensures Runs(effects + [request], commandId) ==
      Runs(effects, commandId) + (if request.commandId == commandId then 1 else 0)
  {
    assert (effects + [request])[..|effects|] == effects;
  }

  predicate Bound(j: Journal, request: Request) { j.hash == request.hash && j.subjectKey == request.subjectKey }

  /** The executor holds the claim of its command. */
  predicate Holds(l: Local) { l.Effecting? || l.Completing? }

  /** Journals only move from absent to claimed to completed. */
  predicate Follows(a: map<nat, Journal>, b: map<nat, Journal>) {
    forall id :: id in a ==>
      id in b && (b[id] == a[id] || (a[id].receipt.None? && b[id].receipt.Some? && b[id].revision == 1
                                      && b[id].hash == a[id].hash && b[id].subjectKey == a[id].subjectKey))
  }

  /** What an executor's standing says of the store and of the effects so far. */
  predicate Stands(l: Local, store: map<nat, Journal>, effects: seq<Request>) {
    var id := l.request.commandId;
    match l
    case Loading(request, attempt) => attempt <= 1 && (attempt == 1 ==> id in store)
    case Claiming(request, attempt) => attempt == 0
    case Effecting(request) =>
      id in store && store[id] == Journal(0, request.hash, request.subjectKey, None) && Runs(effects, id) == 0
    case Completing(request, receipt) =>
      && id in store && store[id] == Journal(0, request.hash, request.subjectKey, None)
      && Runs(effects, id) == 1 && Accepted(request, receipt)
    case Finished(request, _, receipt) =>
      id in store && store[id] == Journal(1, request.hash, request.subjectKey, Some(receipt))
    case Failed(_, _) => true
    case Dead(_) => true
  }

  /** What a load makes of a journal that is there. */
  function Replaying(j: Journal, request: Request): Local {
    if !Bound(j, request) then Failed(request, CommandConflict)
    else if j.receipt.None? then Failed(request, InProgress)
    else Finished(request, Replayed, j.receipt.value)
  }

  /** What an execution of an unused command comes to, and what it leaves in the store. */
  function Applying(request: Request, receipt: Receipt): Local {
    if Accepted(request, receipt) then Finished(request, Applied, receipt) else Failed(request, JournalConflict)
  }

  function JournalFor(request: Request, receipt: Receipt): Journal {
    if Accepted(request, receipt) then Journal(1, request.hash, request.subjectKey, Some(receipt))
    else Journal(0, request.hash, request.subjectKey, None)
  }

  /** A claim without a result, and without an executor at work on it. */
  predicate Abandoned(store: map<nat, Journal>, locals: map<nat, Local>, id: nat) {
    && id in store && store[id].receipt.None?
    && forall e :: e in locals && Holds(locals[e]) ==> locals[e].request.commandId != id
  }

  /** On its way to a refusal, by death, for its lease or for the journal: neither done nor at work. */
  predicate LockedOutBy(l: Local, j: Journal) {
    match l
    case Loading(_, attempt) => attempt == 0
    case Failed(request, code) => code == LeaseInvalid || l == Replaying(j, request)
    case Dead(_) => true
    case _ => false
  }

  /** Every executor of the command that is not among `before` is locked out. */
  predicate AllLockedOut(store: map<nat, Journal>, before: set<nat>, locals: map<nat, Local>, id: nat)
    requires id in store
  {
    forall e :: e in locals && e !in before && locals[e].request.commandId == id ==> LockedOutBy(locals[e], store[id])
  }

  /** A new journal changes no executor's standing. */
  lemma StandsOver(store: map<nat, Journal>, effects: seq<Request>, id: nat, j: Journal)
    ensures id !in store ==>
      forall l :: Stands(l, store, effects) ==> Stands(l, store[id := j], effects)
  {
  }

  lemma HoldersAreStored(store: map<nat, Journal>, effects: seq<Request>)
    ensures forall l :: Stands(l, store, effects) && Holds(l) ==> l.request.commandId in store
  {
  }

  lemma StandsLoading(request: Request, attempt: nat, store: map<nat, Journal>, effects: seq<Request>)
    ensures Stands(Loading(request, attempt), store, effects) <==>
      attempt <= 1 && (attempt == 1 ==> request.commandId in store)
  {
  }

  lemma StandsClaiming(request: Request, attempt: nat, store: map<nat, Journal>, effects: seq<Request>)
    ensures Stands(Claiming(request, attempt), store, effects) <==> attempt == 0
  {
  }

  lemma StandsEffecting(request: Request, store: map<nat, Journal>, effects: seq<Request>)
    ensures Stands(Effecting(request), store, effects) <==>
      && request.commandId in store
      && store[request.commandId] == Journal(0, request.hash, request.subjectKey, None)
      && Runs(effects, request.commandId) == 0
  {
  }

  predicate Submitted(turns: seq<Turn>, executor: nat) {
    exists i :: 0 <= i < |turns| && turns[i].Submits? && turns[i].executor == executor
  }

  lemma SubmittedNone()
    ensures forall e :: !Submitted([], e)
  {
  }

  lemma SubmittedNext(turns: seq<Turn>, turn: Turn)
    ensures forall e :: Submitted(turns + [turn], e) <==>
      Submitted(turns, e) || (turn.Submits? && turn.executor == e)
  {
    forall e | Submitted(turns, e) ensures Submitted(turns + [turn], e) {
      var i :| 0 <= i < |turns| && turns[i].Submits? && turns[i].executor == e;
      assert (turns + [turn])[i] == turns[i];
    }
    assert (turns + [turn])[|turns|] == turn;
  }

  lemma JustLoading(request: Request)
    ensures forall j :: LockedOutBy(Loading(request, 0), j)
  {
  }

  lemma FollowsItself(a: map<nat, Journal>)
    ensures Follows(a, a)
  {
  }

  lemma FollowsOn(a: map<nat, Journal>, b: map<nat, Journal>, c: map<nat, Journal>)
    requires Follows(a, b) && Follows(b, c)
    ensures Follows(a, c)
  {
  }

  datatype State = State(store: map<nat, Journal>, locals: map<nat, Local>, effects: seq<Request>)
  {
    function To(executor: nat, next: Local): State { this.(locals := locals[executor := next]) }
  }

  /** What a step of an executor comes to. */
  function Stepped(s: State, executor: nat, fate: Fate): State
    requires executor in s.locals
  {
    var request := s.locals[executor].request;
    var id := request.commandId;
    if fate.Dies? && Works(s.locals[executor]) then s.To(executor, Dead(request))
    else if fate.LosesLease? && Works(s.locals[executor]) then s.To(executor, Failed(request, LeaseInvalid))
    else
      match s.locals[executor]
      case Loading(_, attempt) =>
        s.To(executor, if id !in s.store then Claiming(request, attempt) else Replaying(s.store[id], request))
      case Claiming(_, attempt) =>
        if id in s.store then s.To(executor, Loading(request, attempt + 1))
        else
          s.To(executor, Effecting(request)).(
            store := s.store[id := Journal(0, request.hash, request.subjectKey, None)])
      case Effecting(_) =>
        s.To(executor,
             if !fate.EffectReturns? then Failed(request, EffectFailed)
             else if Accepted(request, fate.receipt) then Completing(request, fate.receipt)
             else Failed(request, JournalConflict)).(effects := s.effects + [request])
      case Completing(_, receipt) =>
        s.To(executor, Finished(request, Applied, receipt)).(
          store := s.store[id := Journal(1, request.hash, request.subjectKey, Some(receipt))])
      case _ => s
  }

  predicate Works(l: Local) { l.Loading? || l.Claiming? || l.Effecting? || l.Completing? }

  function Played(s: State, turn: Turn): State {
    match turn
    case Submits(executor, request) => if executor in s.locals then s else s.To(executor, Loading(request, 0))
    case Acts(executor, fate) => if executor in s.locals then Stepped(s, executor, fate) else s
  }

  function After(s: State, turns: seq<Turn>): State {
    if turns == [] then s else Played(After(s, turns[..|turns| - 1]), turns[|turns| - 1])
  }

  /** Only one executor has moved. */
  predicate OnlyMoved(a: map<nat, Local>, b: map<nat, Local>, executor: nat) {
    b.Keys == a.Keys && forall e :: e in a && e != executor ==> b[e] == a[e]
  }

  lemma MovedTo(a: map<nat, Local>, b: map<nat, Local>, executor: nat)
    requires executor in a && OnlyMoved(a, b, executor)
    ensures b == a[executor := b[executor]]
  {
  }

  /** What a step of an executor leaves as it was. */
  lemma StepFacts(s: State, executor: nat, fate: Fate)
    requires executor in s.locals && Stands(s.locals[executor], s.store, s.effects)
    ensures var t := Stepped(s, executor, fate);
      && s.effects <= t.effects && OnlyMoved(s.locals, t.locals, executor)
      && t.locals[executor].request == s.locals[executor].request
      && (s.locals[executor].Finished? ==> t.locals == s.locals)
      && (forall id :: Abandoned(s.store, s.locals, id) ==>
            && Abandoned(t.store, t.locals, id) && t.store[id] == s.store[id]
            && Runs(t.effects, id) == Runs(s.effects, id))
      && var id := s.locals[executor].request.commandId;
        (Abandoned(s.store, s.locals, id) && LockedOutBy(s.locals[executor], s.store[id]) ==>
           LockedOutBy(t.locals[executor], s.store[id]))
  {
    hide Runs, Accepted;
    forall id ensures Runs(s.effects + [s.locals[executor].request], id) ==
      Runs(s.effects, id) + (if s.locals[executor].request.commandId == id then 1 else 0) {
      RunsAppend(s.effects, s.locals[executor].request, id);
    }
  }

  class Executors {
    var store: map<nat, Journal>
    var locals: map<nat, Local>
    ghost var effects: seq<Request>

    ghost predicate Valid()
      reads this
    {
      && (forall e :: e in locals ==> Stands(locals[e], store, effects))
      && (forall e, f :: e in locals && f in locals && e != f && Holds(locals[e]) && Holds(locals[f]) ==>
            locals[e].request.commandId != locals[f].request.commandId)
      && (forall id :: Runs(effects, id) <= 1 && (Runs(effects, id) > 0 ==> id in store))
      && (forall id :: id in store ==> store[id].revision == (if store[id].receipt.None? then 0 else 1))
    }

    ghost function Now(): State
      reads this
    {
      State(store, locals, effects)
    }

    constructor ()
      ensures Valid() && store == map[] && locals == map[] && effects == []
    {
      store, locals, effects := map[], map[], [];
    }

    /** An executor is handed a request. */
    method Submit(executor: nat, request: Request)
      requires Valid() && executor !in locals
      modifies `locals
      ensures Valid() && locals == old(locals)[executor := Loading(request, 0)]
    {
      locals := locals[executor := Loading(request, 0)];
    }

    /** The load: what the journal already says decides. */
    method Load(executor: nat, request: Request, attempt: nat)
      requires Valid() && executor in locals && locals[executor] == Loading(request, attempt)
      modifies `locals
      ensures Valid() && OnlyMoved(old(locals), locals, executor)
      ensures locals[executor] ==
        if request.commandId !in store then Claiming(request, attempt) else Replaying(store[request.commandId], request)
    {
      hide Runs;
      var next;
      if attempt >= MAX_CAS_ATTEMPTS {
        next := Failed(request, JournalConflict);
      } else if request.commandId !in store {
        next := Claiming(request, attempt);
      } else {
        var existing := store[request.commandId];
        if !Bound(existing, request) {
          next := Failed(request, CommandConflict);
        } else if existing.receipt.None? {
          next := Failed(request, InProgress);
        } else {
          next := Finished(request, Replayed, existing.receipt.value);
        }
      }
      locals := locals[executor := next];
    }

    /** The compare-and-swap of the claim: it succeeds only on an absent journal. */
    method Claim(executor: nat, request: Request, attempt: nat)
      requires Valid() && executor in locals && locals[executor] == Claiming(request, attempt)
      modifies `locals, `store
      ensures Valid() && Follows(old(store), store) && OnlyMoved(old(locals), locals, executor)
      ensures locals[executor] ==
        if request.commandId in old(store) then Loading(request, attempt + 1) else Effecting(request)
      ensures store ==
        if request.commandId in old(store) then old(store)
        else old(store)[request.commandId := Journal(0, request.hash, request.subjectKey, None)]
    {
      hide Runs, Stands;
      StandsLoading(request, attempt + 1, store, effects);
      ghost var id, claimed := request.commandId, Journal(0, request.hash, request.subjectKey, None);
      StandsOver(store, effects, id, claimed);
      StandsEffecting(request, store[id := claimed], effects);
      StandsClaiming(request, attempt, store, effects);
      HoldersAreStored(store, effects);
      if request.commandId in store {
        locals := locals[executor := Loading(request, attempt + 1)];
      } else {
        store := store[request.commandId := Journal(0, request.hash, request.subjectKey, None)];
        locals := locals[executor := Effecting(request)];
      }
    }

    /** The effect, and the checks of its receipt. */
    method Effect(executor: nat, request: Request, fate: Fate)
      requires Valid() && executor in locals && locals[executor] == Effecting(request)
      modifies `locals, `effects
      ensures Valid() && effects == old(effects) + [request] && OnlyMoved(old(locals), locals, executor)
      ensures forall id ::
        Runs(effects, id) == Runs(old(effects), id) + (if request.commandId == id then 1 else 0)
      ensures locals[executor] ==
        if !fate.EffectReturns? then Failed(request, EffectFailed)
        else if Accepted(request, fate.receipt) then Completing(request, fate.receipt)
        else Failed(request, JournalConflict)
    {
      hide Runs;
      forall id ensures Runs(effects + [request], id) ==
        Runs(effects, id) + (if request.commandId == id then 1 else 0) {
        RunsAppend(effects, request, id);
      }
      effects := effects + [request];
      var next := Failed(request, EffectFailed);
      if fate.EffectReturns? {
        next := if Accepted(request, fate.receipt) then Completing(request, fate.receipt)
          else Failed(request, JournalConflict);
      }
      locals := locals[executor := next];
    }

    /** The compare-and-swap of the result, over revision 0. */
    method Complete(executor: nat, request: Request, receipt: Receipt)
      requires Valid() && executor in locals && locals[executor] == Completing(request, receipt)
      modifies `locals, `store
      ensures Valid() && Follows(old(store), store) && OnlyMoved(old(locals), locals, executor)
      ensures locals[executor] == Finished(request, Applied, receipt)
      ensures store ==
        old(store)[request.commandId := Journal(1, request.hash, request.subjectKey, Some(receipt))]
    {
      hide Runs;
      var journal := store[request.commandId];
      var persisted := journal.revision == 0;
      if persisted {
        store := store[request.commandId := journal.(revision := 1, receipt := Some(receipt))];
      }
      locals := locals[executor := if persisted then Finished(request, Applied, receipt)
        else Failed(request, JournalConflict)];
    }

    /** One executor advances to its next await. */
    method Advance(executor: nat, fate: Fate)
      requires Valid()
      modifies this
      ensures Valid() && Follows(old(store), store) && old(effects) <= effects
      ensures Now() == if executor in old(locals) then Stepped(old(Now()), executor, fate) else old(Now())
      ensures OnlyMoved(old(locals), locals, executor)
      ensures executor in old(locals) ==> locals[executor].request == old(locals)[executor].request
      ensures executor in old(locals) && old(locals)[executor].Finished? ==> locals == old(locals)
      ensures forall id :: Abandoned(old(store), old(locals), id) ==>
        && Abandoned(store, locals, id) && store[id] == old(store)[id]
        && Runs(effects, id) == Runs(old(effects), id)
      ensures executor in old(locals) ==>
        var was, id := old(locals)[executor], old(locals)[executor].request.commandId;
        Abandoned(old(store), old(locals), id) && LockedOutBy(was, old(store)[id]) ==>
          LockedOutBy(locals[executor], old(store)[id])
    {
      hide Stands, Runs, Stepped;
      if executor in locals {
        StepFacts(Now(), executor, fate);
        Step(executor, fate);
      }
    }

    method Step(executor: nat, fate: Fate)
      requires Valid() && executor in locals
      modifies this
      ensures Valid() && Follows(old(store), store) && Now() == Stepped(old(Now()), executor, fate)
    {
      hide Stands, Runs, Accepted, OnlyMoved, Follows, Replaying;
      FollowsItself(store);
      ghost var before := locals;
      if locals[executor].Finished? || locals[executor].Failed? || locals[executor].Dead? {
        return;
      }
      var standing := locals[executor];
      if fate.Dies? || fate.LosesLease? {
        Stop(executor, if fate.Dies? then Dead(standing.request) else Failed(standing.request, LeaseInvalid));
        return;
      }
      match standing {
        case Loading(request, attempt) => Load(executor, request, attempt);
        case Claiming(request, attempt) => Claim(executor, request, attempt);
        case Effecting(request) => Effect(executor, request, fate);
        case Completing(request, receipt) => Complete(executor, request, receipt);
        case _ =>
      }
      MovedTo(before, locals, executor);
    }

    method Stop(executor: nat, how: Local)
      requires Valid() && executor in locals && (how.Dead? || how.Failed?)
      modifies `locals
      ensures Valid() && locals == old(locals)[executor := how] && OnlyMoved(old(locals), locals, executor)
    {
      hide Runs;
      locals := locals[executor := how];
    }

    /**
     execute, by an executor left alone: an unused command is applied once and its receipt kept, a
     completed one is answered with the receipt on record, and anything else is refused with no effect.
     */
    method Execute(executor: nat, request: Request, receipt: Receipt)
      requires Valid() && executor !in locals
      modifies this
      ensures Valid() && executor in locals && OnlyMoved(old(locals), locals - {executor}, executor)
      ensures if request.commandId in old(store)
        then
          && locals[executor] == Replaying(old(store)[request.commandId], request)
          && store == old(store) && effects == old(effects)
        else
          && locals[executor] == Applying(request, receipt) && effects == old(effects) + [request]
          && store == old(store)[request.commandId := JournalFor(request, receipt)]
    {
      hide Stands, Runs, Accepted;
      Submit(executor, request);
      Load(executor, request, 0);
      if request.commandId !in store {
        Apply(executor, request, receipt);
      }
    }

    method Apply(executor: nat, request: Request, receipt: Receipt)
      requires Valid() && executor in locals && locals[executor] == Claiming(request, 0)
      requires request.commandId !in store
      modifies this
      ensures Valid() && OnlyMoved(old(locals), locals, executor)
      ensures locals[executor] == Applying(request, receipt) && effects == old(effects) + [request]
      ensures store == old(store)[request.commandId := JournalFor(request, receipt)]
    {
      hide Stands, Runs, Accepted, Follows;
      Claim(executor, request, 0);
      Effect(executor, request, EffectReturns(receipt));
      if Accepted(request, receipt) {
        Complete(executor, request, receipt);
      }
    }

    /** One turn of a schedule; `known` are the executors that were there before. */
    method Take(turn: Turn, ghost known: set<nat>)
      requires Valid()
      modifies this
      ensures Valid() && Follows(old(store), store) && Now() == Played(old(Now()), turn)
      ensures forall e :: e in locals <==> e in old(locals) || (turn.Submits? && turn.executor == e)
      ensures forall id :: Abandoned(old(store), old(locals), id) ==>
        && Abandoned(store, locals, id) && id in store && store[id] == old(store)[id]
        && Runs(effects, id) == Runs(old(effects), id)
        && (AllLockedOut(old(store), known, old(locals), id) ==> AllLockedOut(store, known, locals, id))
    {
      hide Stands, Runs, Follows, LockedOutBy, Stepped;
      match turn {
        case Submits(executor, request) =>
          FollowsItself(store);
          if executor !in locals {
            Submit(executor, request);
            JustLoading(request);
          }
        case Acts(executor, fate) => Advance(executor, fate);
      }
    }

    /**
     Any schedule of any executors. A claim whose claimer has died or failed is never taken up again: the
     command's effect does not run a second time, the command is never completed, and whoever comes with it
     later is refused for the claim.
     */
    method Run(turns: seq<Turn>)
      requires Valid()
      modifies this
      ensures Valid() && Follows(old(store), store) && Now() == After(old(Now()), turns)
      ensures forall id :: Runs(effects, id) <= 1
      ensures forall e :: e in locals <==> e in old(locals) || Submitted(turns, e)
      ensures forall id :: Abandoned(old(store), old(locals), id) ==>
        && id in store && store[id] == old(store)[id] && Runs(effects, id) == Runs(old(effects), id)
        && AllLockedOut(store, old(locals).Keys, locals, id)
    {
      hide Stands, Runs, Follows, LockedOutBy, Submitted, Played;
      FollowsItself(store);
      SubmittedNone();
      for i := 0 to |turns|
        invariant Valid() && Follows(old(store), store) && Now() == After(old(Now()), turns[..i])
        invariant forall id :: Abandoned(old(store), old(locals), id) ==>
          && Abandoned(store, locals, id) && store[id] == old(store)[id]
          && Runs(effects, id) == Runs(old(effects), id) && AllLockedOut(store, old(locals).Keys, locals, id)
        invariant forall e :: e in locals <==> e in old(locals) || Submitted(turns[..i], e)
      {
        SubmittedNext(turns[..i], turns[i]);
        assert turns[..i] + [turns[i]] == turns[..i + 1] && turns[..i + 1][..i] == turns[..i];
        ghost var before := store;
        Take(turns[i], old(locals).Keys);
        FollowsOn(old(store), before, store);
      }
      assert turns[..|turns|] == turns;
    }

    /** Whoever reports a command done reports the same receipt, for the same request. */
    lemma SameResult(e: nat, f: nat)
      requires Valid() && e in locals && f in locals && locals[e].Finished? && locals[f].Finished?
      requires locals[e].request.commandId == locals[f].request.commandId
      ensures locals[e].receipt == locals[f].receipt
      ensures locals[e].request.hash == locals[f].request.hash
    {
      assert Stands(locals[e], store, effects) && Stands(locals[f], store, effects);
    }
  }

  /** An executor dies between its claim and its effect. */
  method CrashedClaim(request: Request) returns (executors: Executors)
    ensures fresh(executors) && executors.Valid()
    ensures executors.locals == map[0 := Dead(request)] && executors.effects == []
    ensures executors.store == map[request.commandId := Journal(0, request.hash, request.subjectKey, None)]
  {
    hide Stands, Runs;
    executors := new Executors();
    executors.Submit(0, request);
    executors.Load(0, request, 0);
    executors.Claim(0, request, 0);
    executors.Stop(0, Dead(request));
    assert executors.locals.Keys == {0};
  }

  /**
   From then on, whatever anybody does, the command never runs, and nobody who comes with it is done: whoever
   gets an answer, but for the lease, is told that it is in progress, or in conflict with the claim. So is
   a retry of the same request afterwards.
   */
  method LockedOut(request: Request, turns: seq<Turn>, late: nat, receipt: Receipt) returns (executors: Executors)
    requires late != 0 && !Submitted(turns, late)
    ensures executors.Valid() && Runs(executors.effects, request.commandId) == 0
    ensures forall e :: e in executors.locals <==> e == 0 || e == late || Submitted(turns, e)
    ensures var id, claimed := request.commandId, Journal(0, request.hash, request.subjectKey, None);
      && id in executors.store && executors.store[id] == claimed
      && AllLockedOut(executors.store, {0}, executors.locals, id)
    ensures executors.locals[late] == Failed(request, InProgress)
  {
    hide Stands, Runs, Follows, LockedOutBy, Submitted;
    executors := CrashedClaim(request);
    NothingRan(request.commandId);
    executors.Run(turns);
    ghost var locals := executors.locals;
    executors.Execute(late, request, receipt);
    forall e | e in executors.locals && e != late ensures e in locals && executors.locals[e] == locals[e] {
      assert e in executors.locals - {late};
    }
    InProgressIsLockedOut(request, executors.store[request.commandId]);
  }

  lemma InProgressIsLockedOut(request: Request, j: Journal)
    requires Bound(j, request) && j.receipt == None
    ensures Replaying(j, request) == Failed(request, InProgress) && LockedOutBy(Failed(request, InProgress), j)
  {
  }

  lemma NothingRan(commandId: nat)
    ensures Runs([], commandId) == 0
  {
  }
}
