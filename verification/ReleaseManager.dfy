/**
 A release manager driving one operation through a store that it shares with any number of rivals.

 The class holds the store. Every await consumes one Turn, which says what rivals write meanwhile,
 whether the lease is found lost, whether it is lost only once it has been renewed for a write, and what
 the manager's own observation and adapter call come to. An exhausted script means adapters that no longer
 answer.
 */
module ReleaseManager {
  import opened Common
  import opened ReleaseJournal
  import opened ReleaseMachine
  import opened ReleaseRuns
  import opened ReleaseReach
  import opened ReleaseVerdicts

  /** A rival creates the journal, or steps from it. */
  datatype Rival = Creates(fingerprint: Fingerprint) | Takes(input: Input)

  /** `stale`: a write of this turn is refused for its claim on the lease, whatever the revision. */
  datatype Turn = Turn(rivals: seq<Rival>, leaseLost: bool, stale: bool, input: Input)

  datatype Outcome =
    | Deployed(identity: Identity)
    | RolledBackFor(identity: Identity, cause: Code)
    | BlockedFor(code: Code, phase: Phase)
    | RollbackFailedFor(code: Code, cause: Code, phase: Phase)
    | RecoveryRequired(code: Code, phase: Phase)
    | Thrown

  const CORRUPT := BlockedFor(JournalCorrupt, CANDIDATE_PROBE_INTENT)

  /** outcomeFromTerminalOrCorrupt. */
  function OutcomeOf(j: Journal): Outcome {
    if !Valid(j) then CORRUPT
    else if j.phase == COMPLETED then Deployed(j.fingerprint.candidate)
    else if j.phase == ROLLED_BACK && j.failure.rollbackCause.Some?
    then RolledBackFor(j.fingerprint.current, j.failure.rollbackCause.value)
    else if j.phase == Blocked && j.failure.terminalCode.Some? && j.failure.failedAt.Some?
    then BlockedFor(j.failure.terminalCode.value, j.failure.failedAt.value)
    else if j.phase == RollbackFailed && j.failure.terminalCode.Some? && j.failure.rollbackCause.Some? &&
      j.failure.failedAt.Some?
    then RollbackFailedFor(j.failure.terminalCode.value, j.failure.rollbackCause.value, j.failure.failedAt.value)
    else CORRUPT
  }

  datatype Attempt = Moved(journal: Journal) | Lost | Threw

  /**
   A valid journal is reported as corrupt exactly when it is not terminal. This happens to a manager
   that wants to block or to fail a rollback and loses the write, to a rival that moved on or for its lease.
   */
  lemma CorruptMeansUnfinished(j: Journal)
    requires RunValid(j)
    ensures OutcomeOf(j) == CORRUPT <==> !IsTerminal(j.phase)
  {
    hide ReceiptRelationsValid, NormalPresence;
  }

  predicate NoRivals(turns: seq<Turn>) {
    forall i :: 0 <= i < |turns| ==> turns[i].rivals == []
  }

  predicate LeaseKept(turns: seq<Turn>) {
    forall i :: 0 <= i < |turns| ==> !turns[i].leaseLost && !turns[i].stale
  }

  const IDLE := Turn([], false, false, Input(None, Unavailable))

  function Head(turns: seq<Turn>): Turn { if turns == [] then IDLE else turns[0] }

  function Tail(turns: seq<Turn>): seq<Turn> { if turns == [] then [] else turns[1..] }

  /** What the store holds after a rival's attempt at a write. */
  function AfterRival(journal: Option<Journal>, rival: Rival, operationId: nat): Option<Journal> {
    match rival
    case Creates(fingerprint) =>
      if journal == None && Valid(Initial(operationId, fingerprint)) then Some(Initial(operationId, fingerprint))
      else journal
    case Takes(input) =>
      if journal == None || !IsPhase(journal.value.phase) then journal
      else
        var patch := PatchOf(Step(journal.value, input));
        if patch == None then journal
        else
          var next := Transition(journal.value, patch.value);
          if next == None then journal else next
  }

  function AfterRivals(journal: Option<Journal>, rivals: seq<Rival>, operationId: nat): Option<Journal> {
    if rivals == [] then journal
    else AfterRival(AfterRivals(journal, rivals[..|rivals| - 1], operationId), rivals[|rivals| - 1], operationId)
  }

  predicate Calm(turn: Turn) { turn.rivals == [] && !turn.leaseLost && !turn.stale }

  /**
   What a call from `j` comes to that nobody disturbs: each step goes on with an answer that fits, or throws if a
   relation breaks, and otherwise follows the rejection, blocks, or asks for recovery.
   */
  ghost function Verdict(j: Journal, turns: seq<Turn>): Outcome
    decreases if IsPhase(j.phase) then PHASES - Rank(j.phase) else 0
  {
    if !RunValid(j) || IsTerminal(j.phase) then OutcomeOf(j)
    else
      var input, rest := Head(turns).input, Tail(Tail(turns));
      if Answers(j, input) then
        if Breaks(j, input.answer) then Thrown
        else
          TakenFacts(j, input);
          Verdict(Taken(j, input).value, rest)
      else if Rejects(j, input) then
        RejectionExactly(j, input);
        Verdict(AfterRejection(j).value, rest)
      else if Mismatches(j, input) then OutcomeOf(BlockedWith(j, MismatchAt(j.phase).value))
      else RecoveryRequired(AskAt(j.phase, input.answer.Rejected?), j.phase)
  }

  lemma TakenFacts(j: Journal, input: Input)
    requires RunValid(j) && !IsTerminal(j.phase) && Answers(j, input) && !Breaks(j, input.answer)
    ensures Taken(j, input).Some? && RunValid(Taken(j, input).value) && IsPhase(j.phase)
    ensures IsPhase(Taken(j, input).value.phase) && Rank(j.phase) < Rank(Taken(j, input).value.phase)
  {
    hide RunValid, Valid, Answers, Taken, Breaks, Step, Transition, Fits;
    GoesOnExactly(j, input);
    StepFits(j, input);
    var patch := Step(j, input).patch;
    WritesSome(j, input);
    PatchAdvances(j, patch, Taken(j, input).value);
    PatchKeepsRunValid(j, patch, Taken(j, input).value);
    RunIsValid(Taken(j, input).value);
    Presence(Taken(j, input).value);
  }

  lemma WritesSome(j: Journal, input: Input)
    requires RunValid(j) && GoesOn(j, input) && !Breaks(j, input.answer)
    ensures Transition(j, Step(j, input).patch).Some? && PatchOf(Step(j, input)) == Some(Step(j, input).patch)
  {
    hide RunValid, Valid, Breaks, Step, Transition;
    ThrowsExactly(j, input);
  }

  /** Nobody else writes, and the lease is kept. */
  predicate Alone(turns: seq<Turn>) { NoRivals(turns) && LeaseKept(turns) }

  /** What the store holds when the write of the first step is tried. */
  function AtWrite(journal: Option<Journal>, turns: seq<Turn>, operationId: nat): Option<Journal> {
    AfterRivals(AfterRivals(journal, Head(turns).rivals, operationId), Head(Tail(turns)).rivals, operationId)
  }

  /**
   The first step from `j` wants to end the run and loses the write, to a rival that moved on or for a lease
   that went stale, and what it finds in the store is not terminal.
   */
  predicate LosesEnd(j: Journal, journal: Option<Journal>, turns: seq<Turn>, operationId: nat) {
    && !Head(turns).leaseLost && !Head(Tail(turns)).leaseLost
    && !IsTerminal(j.phase) && Ends(j, Head(turns).input)
    && var now := AtWrite(journal, turns, operationId);
       && now.Some? && !IsTerminal(now.value.phase)
       && (Head(Tail(turns)).stale || now.value.revision != j.revision)
  }

  predicate Ends(j: Journal, input: Input) { IsPhase(j.phase) && Step(j, input).End? }

  /** There is no journal to start from: none can be made, or its creation is refused for the lease. */
  predicate Unmade(journal: Option<Journal>, fingerprint: Fingerprint, turns: seq<Turn>, operationId: nat) {
    && AfterRivals(journal, Head(turns).rivals, operationId) == None
    && (|| fingerprint.current == fingerprint.candidate
        || (&& !Head(Tail(turns)).leaseLost && Head(Tail(turns)).stale
            && AtWrite(journal, turns, operationId) == None))
  }

  /** From `j` on, each step is answered faithfully; the second turn of a step is its write. */
  predicate Faithfully(turns: seq<Turn>, j: Journal)
    decreases |turns|
  {
    IsTerminal(j.phase)
    || (&& |turns| >= 2 && Served(j) && turns[0].input == FaithfulInput(j)
        && Faithfully(turns[2..], FaithfulNext(j)))
  }

  /** The script in which everybody is faithful. */
  function FaithfulScript(j: Journal): seq<Turn>
    requires RunValid(j)
    decreases PHASES - Rank(j.phase)
  {
    if IsTerminal(j.phase) then []
    else
      NextFacts(j);
      [Turn([], false, false, FaithfulInput(j)), IDLE] + FaithfulScript(FaithfulNext(j))
  }

  lemma {:induction false} ScriptIsFaithful(j: Journal)
    requires RunValid(j)
    ensures Alone(FaithfulScript(j)) && Faithfully(FaithfulScript(j), j)
    decreases PHASES - Rank(j.phase)
  {
    hide RunValid, Step, Transition, FaithfulNext, FaithfulInput, Served, MovesOn;
    if !IsTerminal(j.phase) {
      NextFacts(j);
      ScriptIsFaithful(FaithfulNext(j));
      ServedFacts(j);
      var turns := FaithfulScript(FaithfulNext(j));
      var first := Turn([], false, false, FaithfulInput(j));
      assert FaithfulScript(j) == [first, IDLE] + turns;
      assert ([first, IDLE] + turns)[2..] == turns;
    }
  }

  lemma ServedFacts(j: Journal)
    requires RunValid(j) && !IsTerminal(j.phase)
    ensures Served(j)
  {
    RunIsServed(j);
  }

  lemma VerdictAtEnd(j: Journal, turns: seq<Turn>)
    ensures IsTerminal(j.phase) ==> Verdict(j, turns) == OutcomeOf(j)
    ensures IsTerminal(j.phase) ==> EndOf(j.phase) == j.phase
  {
  }

  /** One step of the verdict, told by what the step does. */
  lemma VerdictStep(j: Journal, turns: seq<Turn>)
    requires RunValid(j) && !IsTerminal(j.phase)
    ensures IsPhase(j.phase)
    ensures var action := Step(j, Head(turns).input);
      && (action.Go? ==>
            var next := Transition(j, action.patch);
            Verdict(j, turns) == if next.Some? then Verdict(next.value, Tail(Tail(turns))) else Thrown)
      && (action.End? ==>
            var next := Transition(j, action.patch);
            next.Some? ==> Verdict(j, turns) == OutcomeOf(next.value))
      && (action.Recover? ==> Verdict(j, turns) == RecoveryRequired(action.code, j.phase))
  {
    hide RunValid, Valid, Step, Transition, Taken, Answers, Observed, Mismatches, Breaks, AfterRejection, OutcomeOf;
    RunIsServed(j);
    var input := Head(turns).input;
    GoesOnExactly(j, input);
    if Answers(j, input) {
      if !Breaks(j, input.answer) {
        TakenFacts(j, input);
      }
    } else if Rejects(j, input) {
      RejectionExactly(j, input);
      VerdictAtEnd(AfterRejection(j).value, Tail(Tail(turns)));
    } else {
      RefusedExactly(j, input);
    }
  }

  /** How a release ends when nothing goes wrong any more. */
  function EndsAs(j: Journal): Outcome {
    match j.phase
    case Normal(_) => Deployed(j.fingerprint.candidate)
    case RollingBack(_) =>
      if j.failure.rollbackCause.Some? then RolledBackFor(j.fingerprint.current, j.failure.rollbackCause.value)
      else CORRUPT
    case Cleaning(_) =>
      if j.failure.cleanupCause.Some? && j.failure.cleanupFailedAt.Some?
      then BlockedFor(j.failure.cleanupCause.value, j.failure.cleanupFailedAt.value)
      else CORRUPT
    case _ => OutcomeOf(j)
  }

  lemma {:induction false} FaithfulVerdict(j: Journal, turns: seq<Turn>)
    requires RunValid(j)
    ensures Faithfully(turns, j) ==> Verdict(j, turns) == EndsAs(j)
    decreases PHASES - Rank(j.phase)
  {
    hide RunValid, Valid, Step, Transition, Answers, Rejects, Mismatches, Breaks, OutcomeOf, FaithfulInput,
         FaithfulNext, Served, Verdict, Taken, EndsAs;
    VerdictAtEnd(j, turns);
    if IsTerminal(j.phase) {
      EndsAsOutcome(j);
    } else if Faithfully(turns, j) {
      VerdictStep(j, turns);
      NextFacts(j);
      MovesOnFacts(j, FaithfulInput(j));
      GoesOnExactly(j, FaithfulInput(j));
      assert Tail(Tail(turns)) == turns[2..];
      FaithfulVerdict(FaithfulNext(j), turns[2..]);
      EndsAsNext(j, FaithfulInput(j));
    }
  }

  lemma EndsAsOutcome(j: Journal)
    requires RunValid(j) && IsTerminal(j.phase)
    ensures EndsAs(j) == OutcomeOf(j)
  {
    hide ReceiptRelationsValid, NormalPresence;
  }

  /** Which end an outcome reports. */
  predicate Tells(outcome: Outcome, phase: Phase) {
    || (outcome.Deployed? && phase == COMPLETED) || (outcome.RolledBackFor? && phase == ROLLED_BACK)
    || (outcome.BlockedFor? && outcome != CORRUPT && phase == Blocked)
    || (outcome.RollbackFailedFor? && phase == RollbackFailed)
  }

  lemma EndIsReported(j: Journal)
    requires RunValid(j)
    ensures Tells(EndsAs(j), EndOf(j.phase))
    ensures IsTerminal(j.phase) ==> Tells(OutcomeOf(j), j.phase)
  {
    hide ReceiptRelationsValid, NormalPresence;
  }

  lemma EndsAsTold(h: seq<Journal>, r: Outcome, j: Journal)
    requires Run(h) && RunValid(j)
    ensures r == EndsAs(j) && Truthful(r, h) ==>
      h != [] && r == OutcomeOf(h[|h| - 1]) && h[|h| - 1].phase == EndOf(j.phase)
  {
    hide Run, RunValid, EndsAs, OutcomeOf, EndOf, IsTerminal;
    EndIsReported(j);
    if Truthful(r, h) && r == EndsAs(j) {
      LastIsValid(h);
      EndIsReported(h[|h| - 1]);
    }
  }

  /** What a release comes to that is refused in this phase, and undone faithfully. */
  function RefusedAs(j: Journal): Outcome
    requires AfterRejection(j).Some?
  {
    if RollbackCauseAt(j.phase).Some? then RolledBackFor(j.fingerprint.current, RollbackCauseAt(j.phase).value)
    else if CleanupCauseAt(j.phase).Some? then BlockedFor(CleanupCauseAt(j.phase).value, j.phase)
    else if BlockCodeAt(j.phase).Some? then BlockedFor(BlockCodeAt(j.phase).value, j.phase)
    else if j.failure.rollbackCause.Some?
    then RollbackFailedFor(RollbackFailureAt(j.phase).value, j.failure.rollbackCause.value, j.phase)
    else CORRUPT
  }

  /**
   A rejection after the swap ends rolled back to the previous release for the phase's cause, one in maintenance
   before it blocked after a cleanup, one outside blocked at once, and one in a rollback with the rollback failed.
   */
  lemma RejectionVerdict(j: Journal, turns: seq<Turn>)
    requires RunValid(j) && Rejects(j, Head(turns).input)
    requires Faithfully(Tail(Tail(turns)), AfterRejection(j).value)
    ensures Verdict(j, turns) == RefusedAs(j)
  {
    hide RunValid, Valid, Step, Transition, Observed, OutcomeOf, Verdict, EndsAs;
    RejectionExactly(j, Head(turns).input);
    VerdictStep(j, turns);
    var b := AfterRejection(j).value;
    VerdictAtEnd(b, Tail(Tail(turns)));
    FaithfulVerdict(b, Tail(Tail(turns)));
    if IsTerminal(b.phase) {
      EndsAsOutcome(b);
    }
    RefusedEnds(j);
  }

  lemma RefusedEnds(j: Journal)
    requires AfterRejection(j).Some? && RunValid(AfterRejection(j).value)
    ensures EndsAs(AfterRejection(j).value) == RefusedAs(j)
  {
    hide ReceiptRelationsValid, NormalPresence;
  }

  lemma EndsAsNext(j: Journal, input: Input)
    requires RunValid(j) && !IsTerminal(j.phase) && Taken(j, input).Some? && RunValid(Taken(j, input).value)
    ensures EndsAs(Taken(j, input).value) == EndsAs(j)
  {
    hide RunValid, Valid;
    EndsAsOutcomes(Taken(j, input).value);
  }

  lemma EndsAsOutcomes(j: Journal)
    requires RunValid(j)
    ensures j.phase == COMPLETED ==> OutcomeOf(j) == Deployed(j.fingerprint.candidate)
    ensures j.phase == ROLLED_BACK ==>
      && j.failure.rollbackCause.Some?
      && OutcomeOf(j) == RolledBackFor(j.fingerprint.current, j.failure.rollbackCause.value)
    ensures j.phase == Blocked ==>
      && j.failure.terminalCode.Some? && j.failure.failedAt.Some?
      && OutcomeOf(j) == BlockedFor(j.failure.terminalCode.value, j.failure.failedAt.value)
  {
    hide ReceiptRelationsValid, NormalPresence;
  }

  lemma EndIsAhead(phase: Phase)
    requires IsPhase(phase) && !IsTerminal(phase)
    ensures EndOf(Onward(phase)) == EndOf(phase)
  {
  }

  lemma TerminalIsEnd(phase: Phase)
    ensures IsTerminal(phase) ==> EndOf(phase) == phase
  {
  }

  lemma NoRivalsAfter(turns: seq<Turn>)
    requires turns != []
    ensures NoRivals(turns) ==> turns[0].rivals == [] && NoRivals(turns[1..])
  {
  }

  /** A request for recovery, a throw or a corrupt journal says what a step from a journal of the run came to. */
  ghost predicate Explained(outcome: Outcome, h: seq<Journal>) {
    match outcome
    case RecoveryRequired(code, phase) =>
      code == LeaseLost || exists j, input :: Recorded(h, j) && j.phase == phase && Recovers(j, input, code)
    case Thrown => exists j, input: Input :: Recorded(h, j) && Breaks(j, input.answer)
    case _ => outcome == CORRUPT ==> h == [] || LostEnd(h)
  }

  /** Somebody wanted to end the run, and it is not at its end. */
  ghost predicate LostEnd(h: seq<Journal>) {
    && h != [] && !IsTerminal(h[|h| - 1].phase)
    && exists j, input :: Recorded(h, j) && Ends(j, input)
  }

  predicate Recovers(j: Journal, input: Input, code: Code) { IsPhase(j.phase) && Step(j, input) == Recover(code) }

  /** An outcome other than a request for recovery is what the end of the run says. */
  ghost predicate Truthful(outcome: Outcome, h: seq<Journal>) {
    match outcome
    case RecoveryRequired(_, _) => true
    case Thrown => true
    case _ => h != [] && outcome == OutcomeOf(h[|h| - 1]) && IsTerminal(h[|h| - 1].phase)
  }

  class Manager {
    const operationId: nat
    var journal: Option<Journal>
    var turns: seq<Turn>
    /** The store has refused a write for its claim on the lease. */
    var lost: bool
    ghost var history: seq<Journal>

    ghost predicate Consistent()
      reads this
    {
      match journal
      case None => history == []
      case Some(j) => Run(history) && history[|history| - 1] == j && j.operationId == operationId
    }

    /** Nothing once written is taken back. */
    twostate predicate Later()
      reads this
    {
      && old(history) <= history
      && (old(NoRivals(turns)) ==> NoRivals(turns)) && (old(LeaseKept(turns)) ==> LeaseKept(turns))
      && (old(LeaseKept(turns)) && !old(lost) ==> !lost)
    }

    constructor (operationId: nat, turns: seq<Turn>)
      ensures Consistent() && journal == None && history == [] && this.turns == turns && !lost
      ensures this.operationId == operationId
    {
      this.operationId, journal, this.turns, lost, history := operationId, None, turns, false, [];
    }

    method Write(next: Journal)
      requires next.operationId == operationId && (history == [] || Run(history)) && Run(history + [next])
      modifies `journal, `history
      ensures Consistent() && history == old(history) + [next] && journal == Some(next)
    {
      journal, history := Some(next), history + [next];
    }

    method LetRival(rival: Rival)
      requires Consistent()
      modifies `journal, `history
      ensures Consistent() && old(history) <= history
      ensures journal == AfterRival(old(journal), rival, operationId)
    {
      hide Run, Step, Transition, Valid, Initial;
      match rival {
        case Creates(fingerprint) =>
          if journal == None && Valid(Initial(operationId, fingerprint)) {
            FirstRun(operationId, fingerprint);
            Write(Initial(operationId, fingerprint));
          }
        case Takes(input) =>
          if journal.Some? {
            LastIsValid(history);
            var patch := PatchOf(Step(journal.value, input));
            if patch.Some? {
              var next := Transition(journal.value, patch.value);
              if next.Some? {
                RunGrows(history, input, next.value);
                SameOperation(journal.value, patch.value, next.value);
                Write(next.value);
              }
            }
          }
      }
    }

    /** An await: the rivals of this turn act, and the turn is returned. A lost lease stays lost. */
    method Await() returns (turn: Turn)
      requires Consistent()
      modifies `journal, `history, `turns
      ensures Consistent() && Later()
      ensures journal == AfterRivals(old(journal), turn.rivals, operationId)
      ensures turn.rivals == [] || old(NoRivals(turns)) ==> history == old(history) && journal == old(journal)
      ensures old(LeaseKept(turns)) && !lost ==> !turn.leaseLost && !turn.stale
      ensures turn == Head(old(turns)).(leaseLost := lost || Head(old(turns)).leaseLost)
      ensures turns == Tail(old(turns))
    {
      hide Run, AfterRival;
      turn := Head(turns).(leaseLost := lost || Head(turns).leaseLost);
      if turns == [] {
        return;
      }
      NoRivalsAfter(turns);
      turns := turns[1..];
      for i := 0 to |turn.rivals|
        invariant turns == old(turns)[1..]
        invariant Consistent() && old(history) <= history
        invariant turn.rivals == [] || old(NoRivals(turns)) ==> history == old(history) && journal == old(journal)
        invariant journal == AfterRivals(old(journal), turn.rivals[..i], operationId)
      {
        assert turn.rivals[..i + 1][..i] == turn.rivals[..i];
        LetRival(turn.rivals[i]);
      }
      assert turn.rivals[..|turn.rivals|] == turn.rivals;
    }

    /**
     transition: one write by compare-and-swap on the revision, or what the store holds instead. A write
     refused for the lease alone leaves the manager with its own journal, and without the lease.
     */
    method TransitionFrom(mine: Journal, input: Input) returns (r: Attempt)
      requires Consistent() && Recorded(history, mine)
      requires IsPhase(mine.phase) && PatchOf(Step(mine, input)).Some?
      modifies `journal, `history, `turns, `lost
      ensures Consistent() && Later() && (old(lost) ==> lost)
      ensures r.Moved? ==> Recorded(history, r.journal)
      ensures r.Moved? ==> Rank(r.journal.phase) > Rank(mine.phase) || (r.journal == mine && lost)
      ensures r.Lost? <==> old(lost) || Head(old(turns)).leaseLost
      ensures r.Lost? ==> !old(LeaseKept(turns)) || old(lost)
      ensures r.Threw? <==> !r.Lost? && Step(mine, input).Go? && Breaks(mine, input.answer)
      ensures r.Threw? ==> Recorded(history, mine)
      ensures r.Moved? && old(NoRivals(turns)) && old(journal) == Some(mine) ==> journal == Some(r.journal)
      ensures old(Alone(turns)) && !old(lost) && old(journal) == Some(mine) && r.Moved? ==>
        && Transition(mine, PatchOf(Step(mine, input)).value) == Some(r.journal)
        && turns == Tail(old(turns))
      ensures !r.Lost? ==>
        match Transition(mine, PatchOf(Step(mine, input)).value)
        case None => r == Threw
        case Some(next) =>
          var now := AfterRivals(old(journal), Head(old(turns)).rivals, operationId);
          && now.Some? && lost == Head(old(turns)).stale
          && (if !lost && now.value.revision == mine.revision then r == Moved(next) && journal == Some(next)
              else r == Moved(now.value) && journal == now)
    {
      hide AfterRivals, Run, Step, Transition, Valid, Initial, NoRivals, LeaseKept, Breaks;
      RecordedFacts(history, mine);
      ThrowsExactly(mine, input);
      ghost var started := history;
      var turn := Await();
      StillRecorded(started, history, mine);
      if turn.leaseLost {
        return Lost;
      }
      var next := Transition(mine, PatchOf(Step(mine, input)).value);
      if next.None? {
        return Threw;
      }
      RecordedFacts(history, mine);
      lost := turn.stale;
      if !turn.stale && journal.value.revision == mine.revision {
        RunGrows(history, input, next.value);
        SameOperation(mine, PatchOf(Step(mine, input)).value, next.value);
        ghost var before := history;
        Write(next.value);
        LastRank(history, before, mine);
        return Moved(next.value);
      }
      LaterRank(history, mine);
      return Moved(journal.value);
    }

    /** loadOrCreate: None for a request whose releases do not differ, or if the creation is refused for the lease. */
    method LoadOrCreate(fingerprint: Fingerprint) returns (r: Option<Attempt>)
      requires Consistent()
      modifies `journal, `history, `turns, `lost
      requires !lost
      ensures Consistent() && Later()
      ensures r.None? <==> Unmade(old(journal), fingerprint, old(turns), operationId)
      ensures r.None? ==> history == [] && (fingerprint.current == fingerprint.candidate || !old(LeaseKept(turns)))
      ensures r.Some? && r.value.Moved? ==> Recorded(history, r.value.journal)
      ensures r.Some? ==> !r.value.Threw?
      ensures r.Some? && r.value.Moved? ==>
        (lost <==> && AfterRivals(old(journal), Head(old(turns)).rivals, operationId) == None
                   && Head(Tail(old(turns))).stale)
      ensures r.Some? && r.value.Lost? ==> !old(LeaseKept(turns))
      ensures r.Some? && r.value.Moved? && old(NoRivals(turns)) ==> journal == Some(r.value.journal)
      ensures Calm(Head(old(turns))) && Calm(Head(Tail(old(turns)))) ==> match old(journal)
        case Some(j) => r == Some(Moved(j)) && history == old(history) && turns == Tail(old(turns)) && !lost
        case None =>
          if fingerprint.current == fingerprint.candidate then r == None
          else
            && r == Some(Moved(Initial(operationId, fingerprint))) && history == [r.value.journal]
            && turns == Tail(Tail(old(turns))) && !lost
    {
      hide Run, NoRivals, LeaseKept, Initial, Valid, AfterRivals;
      NoRivalChange(journal, operationId);
      var turn := Await();
      if journal.Some? {
        LastRecorded(history);
        return Some(Moved(journal.value));
      }
      var initial := Initial(operationId, fingerprint);
      InitialIsValid(operationId, fingerprint);
      if !Valid(initial) {
        return None;
      }
      turn := Await();
      if turn.leaseLost {
        return Some(Lost);
      }
      lost := turn.stale;
      if journal == None {
        if turn.stale {
          return None;
        }
        FirstRun(operationId, fingerprint);
        Write(initial);
      }
      LastRecorded(history);
      return Some(Moved(journal.value));
    }

    /**
     execute: the loop always reports before its hundred turns are over. What it reports of the release
     is the end of the run, unless it lost the write with which it wanted to end, to a rival or for its lease.
     Left alone it comes to the verdict on what its adapters answer; with faithful ones it ends the release: deployed,
     unless it was already being undone.
     */
    method Execute(fingerprint: Fingerprint) returns (r: Outcome)
      requires Consistent()
      modifies `journal, `history, `turns, `lost
      ensures Consistent() && Later()
      ensures r.RecoveryRequired? ==> r.code != JournalCorrupt && (r.code == LeaseLost ==> !old(LeaseKept(turns)))
      ensures Explained(r, history)
      ensures || (Truthful(r, history) && (!r.RecoveryRequired? ==> history[0].fingerprint == fingerprint))
              || (r.RecoveryRequired? && r.code == LeaseLost)
              || (&& r == BlockedFor(RequestConflict, CANDIDATE_PROBE_INTENT)
                  && history != [] && history[0].fingerprint != fingerprint)
              || (r == CORRUPT && (fingerprint.current == fingerprint.candidate || !old(Alone(turns))))
      ensures Unmade(old(journal), fingerprint, old(turns), operationId) ==> r == CORRUPT && history == []
      ensures Starts(old(journal), fingerprint, operationId, old(turns)) ==>
        var first, rest := First(old(journal), fingerprint, operationId), Rest(old(journal), old(turns));
        && (Alone(rest) ==> r == Verdict(first, rest))
        && (Alone(rest) && Faithfully(rest, first) ==>
              && history != [] && r == OutcomeOf(history[|history| - 1])
              && history[|history| - 1].phase == EndOf(first.phase)
              && (first.phase.Normal? ==> r == Deployed(fingerprint.candidate)))
        && (LosesEnd(first, Some(first), rest, operationId) ==>
              r == CORRUPT && journal == AtWrite(Some(first), rest, operationId))
    {
      hide Run, NoRivals, LeaseKept, Breaks, Recorded, OutcomeOf, Valid, RunValid, Faithfully, LosesEnd, AfterRivals,
           AtWrite, Initial, Unmade, LostEnd, Verdict, EndsAs;
      lost := false;
      var loaded := LoadOrCreate(fingerprint);
      if loaded.None? {
        return CORRUPT;
      }
      if !loaded.value.Moved? {
        return RecoveryRequired(LeaseLost, CANDIDATE_PROBE_INTENT);
      }
      var mine := loaded.value.journal;
      InitialFacts(operationId, fingerprint);
      RecordedFacts(history, mine);
      if mine.fingerprint != fingerprint {
        return BlockedFor(RequestConflict, CANDIDATE_PROBE_INTENT);
      }
      r := Drive(mine);
      LastOutcome(history);
      FaithfulVerdict(mine, Rest(old(journal), old(turns)));
      EndsAsTold(history, r, mine);
    }

    /** The loop of execute. */
    method Drive(first: Journal) returns (r: Outcome)
      requires Consistent() && Recorded(history, first)
      modifies `journal, `history, `turns, `lost
      ensures Consistent() && Later()
      ensures r.RecoveryRequired? ==>
        r.code != JournalCorrupt && (r.code == LeaseLost ==> !old(LeaseKept(turns)) || old(lost))
      ensures Explained(r, history)
      ensures || Truthful(r, history)
              || (r == CORRUPT && !(old(Alone(turns)) && !old(lost) && old(journal) == Some(first)))
      ensures old(journal) == Some(first) && !old(lost) && Alone(old(turns)) ==> r == Verdict(first, old(turns))
      ensures !old(lost) && LosesEnd(first, old(journal), old(turns), operationId) ==>
        r == CORRUPT && journal == AtWrite(old(journal), old(turns), operationId)
    {
      hide Run, NoRivals, LeaseKept, Recorded, OutcomeOf, Valid, RunValid, IsTerminal, LosesEnd, AfterRivals, AtWrite,
           Explained, Truthful, Verdict;
      var mine := first;
      for steps := 0 to 100
        invariant Consistent() && Later() && Recorded(history, mine)
        invariant steps <= Rank(mine.phase) + if lost then 1 else 0
        invariant old(Alone(turns)) && !old(lost) ==> Alone(turns) && !lost
        invariant old(Alone(turns)) && !old(lost) && old(journal) == Some(first) ==> journal == Some(mine)
        invariant old(journal) == Some(first) && !old(lost) && Alone(old(turns)) ==>
          Verdict(mine, turns) == Verdict(first, old(turns))
        invariant steps == 0 ==> mine == first && turns == old(turns) && journal == old(journal) && lost == old(lost)
        invariant steps > 0 ==> old(lost) || !LosesEnd(first, old(journal), old(turns), operationId)
      {
        var progress := Take(mine);
        if progress.Reports? {
          LastExists(history, mine);
          return progress.outcome;
        }
        mine := progress.journal;
      }
      RecordedFacts(history, mine);
      RankBound(mine);
      return RecoveryRequired(JournalCorrupt, mine.phase);
    }

    /** One turn of the loop: it moves on, or reports. Without the lease it has no other turn. */
    method Take(mine: Journal) returns (p: Progress)
      requires Consistent() && Recorded(history, mine)
      modifies `journal, `history, `turns, `lost
      ensures Consistent() && Later()
      ensures p.Continues? ==> Recorded(history, p.journal)
      ensures p.Continues? ==> !old(lost) && (Rank(p.journal.phase) > Rank(mine.phase) || (p.journal == mine && lost))
      ensures p.Continues? && old(NoRivals(turns)) && old(journal) == Some(mine) ==> journal == Some(p.journal)
      ensures p.Reports? ==> Explained(p.outcome, history)
      ensures p.Reports? && p.outcome.RecoveryRequired? ==>
        p.outcome.code != JournalCorrupt && (p.outcome.code == LeaseLost ==> !old(LeaseKept(turns)) || old(lost))
      ensures p.Reports? ==>
        || Truthful(p.outcome, history)
        || (p.outcome == CORRUPT && !(old(Alone(turns)) && !old(lost) && old(journal) == Some(mine)))
      ensures p == Reports(CORRUPT) <==> !old(lost) && LosesEnd(mine, old(journal), old(turns), operationId)
      ensures p == Reports(CORRUPT) ==> journal == AtWrite(old(journal), old(turns), operationId)
      ensures IsTerminal(mine.phase) ==>
        && p == Reports(OutcomeOf(mine)) && history == old(history) && journal == old(journal)
        && EndOf(mine.phase) == mine.phase
      ensures old(journal) == Some(mine) && !old(lost) && Alone(old(turns)) ==>
        if p.Reports? then p.outcome == Verdict(mine, old(turns))
        else
          journal == Some(p.journal) && Alone(turns) && !lost && Verdict(p.journal, turns) == Verdict(mine, old(turns))
    {
      hide Run, NoRivals, LeaseKept, Breaks, Recorded, Step, Transition, OutcomeOf, Valid, RunValid, Fits, IsTerminal,
           AfterRivals, Verdict;
      RecordedFacts(history, mine);
      RunIsValid(mine);
      if !Valid(mine) {
        return Reports(CORRUPT);
      }
      VerdictAtEnd(mine, turns);
      if IsTerminal(mine.phase) {
        EndsTruly(history, mine);
        return Reports(OutcomeOf(mine));
      }
      ghost var before := history;
      VerdictStep(mine, turns);
      var turn := Await();
      if turn.leaseLost {
        return Reports(RecoveryRequired(LeaseLost, CANDIDATE_PROBE_INTENT));
      }
      StillRecorded(before, history, mine);
      StepFits(mine, turn.input);
      match Step(mine, turn.input) {
        case Recover(code) =>
          assert Recovers(mine, turn.input, code);
          return Reports(RecoveryRequired(code, mine.phase));
        case Go(_) =>
          var next := TransitionFrom(mine, turn.input);
          if !next.Moved? {
            return Reports(if next.Lost? then RecoveryRequired(LeaseLost, CANDIDATE_PROBE_INTENT) else Thrown);
          }
          return Continues(next.journal);
        case End(_) =>
          var last := TransitionFrom(mine, turn.input);
          if !last.Moved? {
            return Reports(if last.Lost? then RecoveryRequired(LeaseLost, CANDIDATE_PROBE_INTENT) else Thrown);
          }
          EndsTruly(history, last.journal);
          EndMoves(mine, turn.input);
          StillRecorded(before, history, mine);
          EndWanted(history, mine, turn.input);
          return Reports(OutcomeOf(last.journal));
        case _ => return Reports(CORRUPT);
      }
    }
  }

  datatype Progress = Continues(journal: Journal) | Reports(outcome: Outcome)

  /** The manager gets hold of its journal: nobody is at work on it, and it is this request's. */
  predicate Starts(journal: Option<Journal>, fingerprint: Fingerprint, operationId: nat, turns: seq<Turn>) {
    && Calm(Head(turns)) && Calm(Head(Tail(turns)))
    && fingerprint.current != fingerprint.candidate
    && (journal.Some? ==> journal.value.fingerprint == fingerprint)
  }

  function First(journal: Option<Journal>, fingerprint: Fingerprint, operationId: nat): Journal {
    if journal.Some? then journal.value else Initial(operationId, fingerprint)
  }

  /** The turns that are left when it does. */
  function Rest(journal: Option<Journal>, turns: seq<Turn>): seq<Turn> {
    if journal.Some? then Tail(turns) else Tail(Tail(turns))
  }

  lemma InitialFacts(operationId: nat, fingerprint: Fingerprint)
    ensures var j := Initial(operationId, fingerprint);
      j.fingerprint == fingerprint && j.operationId == operationId && j.phase == CANDIDATE_PROBE_INTENT
  {
  }

  /** The journal is one the store has held. */
  ghost predicate Recorded(h: seq<Journal>, j: Journal) { Run(h) && j in h }

  lemma FirstRun(operationId: nat, fingerprint: Fingerprint)
    requires Valid(Initial(operationId, fingerprint))
    ensures Run([Initial(operationId, fingerprint)])
    ensures Initial(operationId, fingerprint).operationId == operationId
    ensures [] + [Initial(operationId, fingerprint)] == [Initial(operationId, fingerprint)]
  {
  }

  lemma LastOutcome(h: seq<Journal>)
    requires Run(h)
    ensures h != [] && h[0].fingerprint == h[|h| - 1].fingerprint
    ensures h[|h| - 1].phase == COMPLETED ==> OutcomeOf(h[|h| - 1]) == Deployed(h[0].fingerprint.candidate)
  {
    hide Run, Valid, Originates, RunValid;
    LastFacts(h);
  }

  lemma LastIsValid(h: seq<Journal>)
    requires Run(h)
    ensures |h| > 0 && IsPhase(h[|h| - 1].phase) && RunValid(h[|h| - 1])
  {
    LastFacts(h);
  }

  lemma SameOperation(a: Journal, patch: Patch, b: Journal)
    requires Transition(a, patch) == Some(b)
    ensures b.operationId == a.operationId && b.phase == patch.phase
  {
  }

  /** A recorded journal is the one at its revision. */
  lemma RecordedFacts(h: seq<Journal>, j: Journal)
    requires Recorded(h, j)
    ensures RunValid(j) && IsPhase(j.phase) && j.revision < |h| && h[j.revision] == j
    ensures j.fingerprint == h[0].fingerprint && j.operationId == h[0].operationId
    ensures h[|h| - 1].revision == |h| - 1
  {
    hide Run, RunValid, Originates, Advances;
    var i :| 0 <= i < |h| && h[i] == j;
    RunFacts(h, i);
    RunFacts(h, |h| - 1);
    RankBound(j);
  }

  lemma LastExists(h: seq<Journal>, j: Journal)
    ensures Recorded(h, j) ==> |h| > 0
  {
  }

  lemma LaterRank(h: seq<Journal>, j: Journal)
    requires Recorded(h, j)
    ensures var last := h[|h| - 1];
      Recorded(h, last) && if last.revision == j.revision then last == j else Rank(last.phase) > Rank(j.phase)
  {
    hide Run;
    RecordedFacts(h, j);
    if h[|h| - 1].revision != j.revision {
      OneChain(h, j.revision, |h| - 1);
    }
  }

  lemma LastRank(h: seq<Journal>, before: seq<Journal>, j: Journal)
    requires Run(h) && before < h && |h| == |before| + 1 && j in before && |before| > 0 && j == before[|before| - 1]
    ensures Recorded(h, h[|h| - 1]) && Rank(h[|h| - 1].phase) > Rank(j.phase)
  {
    hide Run;
    assert h[|before| - 1] == j;
    OneChain(h, |before| - 1, |h| - 1);
  }

  lemma LastRecorded(h: seq<Journal>)
    requires Run(h)
    ensures |h| > 0 && Recorded(h, h[|h| - 1])
  {
  }

  lemma InitialIsValid(operationId: nat, fingerprint: Fingerprint)
    ensures Valid(Initial(operationId, fingerprint)) <==> fingerprint.current != fingerprint.candidate
  {
  }

  lemma StillRecorded(before: seq<Journal>, h: seq<Journal>, j: Journal)
    requires Recorded(before, j) && before <= h && Run(h)
    ensures Recorded(h, j)
  {
    hide Run;
    var i :| 0 <= i < |before| && before[i] == j;
    assert h[i] == j;
  }

  /** What is reported of a recorded journal is the end of the run if it is terminal, and corrupt if not. */
  lemma EndsTruly(h: seq<Journal>, j: Journal)
    requires Recorded(h, j)
    ensures if IsTerminal(j.phase) then Truthful(OutcomeOf(j), h) && OutcomeOf(j) != CORRUPT
      else OutcomeOf(j) == CORRUPT
    ensures !OutcomeOf(j).RecoveryRequired? && !OutcomeOf(j).Thrown?
  {
    hide Run, Valid, Step, RunValid;
    RecordedFacts(h, j);
    CorruptMeansUnfinished(j);
    if IsTerminal(j.phase) && j.revision < |h| - 1 {
      NothingFollows(h, j.revision);
    }
  }

  lemma NothingFollows(h: seq<Journal>, i: nat)
    requires Run(h) && i + 1 < |h|
    ensures !IsTerminal(h[i].phase)
  {
    hide StepOpening, StepQuiescing, StepCandidate, StepRollback, StepCleanup, Transition, Valid, Initial;
    assert Steps(h[i + 1 - 1], h[i + 1]);
  }

  /** A release that is left alone with faithful adapters is deployed. */
  method Deploy(operationId: nat, fingerprint: Fingerprint) returns (r: Outcome)
    requires fingerprint.current != fingerprint.candidate
    ensures r == Deployed(fingerprint.candidate)
  {
    hide Valid, RunValid, Faithfully, FaithfulScript, NoRivals, LeaseKept, Run, Initial, LosesEnd, Explained, Truthful;
    InitialIsRunValid(operationId, fingerprint);
    var script := FaithfulScript(Initial(operationId, fingerprint));
    ScriptIsFaithful(Initial(operationId, fingerprint));
    IdleFirst(script);
    InitialFacts(operationId, fingerprint);
    var manager := new Manager(operationId, [IDLE, IDLE] + script);
    r := manager.Execute(fingerprint);
  }

  /** The phases of the normal path in which an adapter may refuse. */
  predicate Refusable(phase: Phase) {
    IsNormal(phase) && (RollbackCauseAt(phase).Some? || CleanupCauseAt(phase).Some? || BlockCodeAt(phase).Some?)
  }

  /** The script in which everybody is faithful, but for one refusal in the given phase. */
  function RefusingScript(j: Journal, at: Phase): seq<Turn>
    requires RunValid(j) && Refusable(at) && IsNormal(j.phase) && j.phase.index <= at.index
    decreases at.index - j.phase.index
  {
    if j.phase == at then
      RejectedFacts(j);
      [Turn([], false, false, Input(None, Rejected)), IDLE] + FaithfulScript(AfterRejection(j).value)
    else
      NextFacts(j);
      [Turn([], false, false, FaithfulInput(j)), IDLE] + RefusingScript(FaithfulNext(j), at)
  }

  lemma RejectedFacts(j: Journal)
    requires RunValid(j) && Refusable(j.phase)
    ensures Rejects(j, Input(None, Rejected)) && RunValid(AfterRejection(j).value)
  {
    hide RunValid, Valid, Step, Transition;
    assert Rejects(j, Input(None, Rejected));
    RejectionExactly(j, Input(None, Rejected));
  }

  /** The verdict on such a script depends on the phase alone. */
  function RefusalOf(fingerprint: Fingerprint, at: Phase): Outcome
    requires Refusable(at)
  {
    if RollbackCauseAt(at).Some? then RolledBackFor(fingerprint.current, RollbackCauseAt(at).value)
    else if CleanupCauseAt(at).Some? then BlockedFor(CleanupCauseAt(at).value, at)
    else BlockedFor(BlockCodeAt(at).value, at)
  }

  lemma {:induction false} RefusingVerdict(j: Journal, at: Phase)
    requires RunValid(j) && Refusable(at) && IsNormal(j.phase) && j.phase.index <= at.index
    ensures Alone(RefusingScript(j, at)) && Verdict(j, RefusingScript(j, at)) == RefusalOf(j.fingerprint, at)
    decreases at.index - j.phase.index
  {
    hide RunValid, Valid, Step, Transition, FaithfulNext, FaithfulInput, Served, MovesOn, Rejects, AfterRejection,
         FaithfulScript, Faithfully, Verdict, OutcomeOf;
    var script := RefusingScript(j, at);
    if j.phase == at {
      RejectedFacts(j);
      RefusedByPhase(j);
      var b := AfterRejection(j).value;
      ScriptIsFaithful(b);
      TwoTurns(Turn([], false, false, Input(None, Rejected)), FaithfulScript(b));
      RejectionVerdict(j, script);
    } else {
      NextFacts(j);
      MovesOnFacts(j, FaithfulInput(j));
      RefusingVerdict(FaithfulNext(j), at);
      TwoTurns(Turn([], false, false, FaithfulInput(j)), RefusingScript(FaithfulNext(j), at));
      VerdictStep(j, script);
    }
  }

  lemma RefusedByPhase(j: Journal)
    requires Refusable(j.phase)
    ensures AfterRejection(j).Some? && RefusedAs(j) == RefusalOf(j.fingerprint, j.phase)
  {
  }

  lemma TwoTurns(first: Turn, rest: seq<Turn>)
    requires Calm(first)
    ensures Head([first, IDLE] + rest) == first && Tail(Tail([first, IDLE] + rest)) == rest
    ensures Alone(rest) ==> Alone([first, IDLE] + rest)
  {
    assert Tail([first, IDLE] + rest) == [IDLE] + rest;
    assert Tail([IDLE] + rest) == rest;
  }

  /** A release that is refused once, and is left alone with faithful adapters otherwise. */
  method Refuse(operationId: nat, fingerprint: Fingerprint, at: Phase) returns (r: Outcome)
    requires fingerprint.current != fingerprint.candidate && Refusable(at)
    ensures r == RefusalOf(fingerprint, at)
  {
    hide Valid, RunValid, Faithfully, RefusingScript, NoRivals, LeaseKept, Run, Initial, LosesEnd, Explained, Truthful,
         Verdict, Refusable, RefusalOf;
    InitialIsRunValid(operationId, fingerprint);
    InitialFacts(operationId, fingerprint);
    RefusableIsNormal(at);
    var script := RefusingScript(Initial(operationId, fingerprint), at);
    RefusingVerdict(Initial(operationId, fingerprint), at);
    IdleFirst(script);
    var manager := new Manager(operationId, [IDLE, IDLE] + script);
    r := manager.Execute(fingerprint);
  }

  lemma RefusableIsNormal(at: Phase)
    requires Refusable(at)
    ensures IsNormal(at)
  {
  }

  lemma IdleFirst(turns: seq<Turn>)
    ensures Tail(Tail([IDLE, IDLE] + turns)) == turns
    ensures Head([IDLE, IDLE] + turns) == Head(Tail([IDLE, IDLE] + turns)) == IDLE
  {
    assert Tail([IDLE, IDLE] + turns) == [IDLE] + turns;
    assert Tail([IDLE] + turns) == turns;
  }

  lemma InitialIsRunValid(operationId: nat, fingerprint: Fingerprint)
    requires fingerprint.current != fingerprint.candidate
    ensures RunValid(Initial(operationId, fingerprint))
  {
  }

  /** A manager whose candidate is rejected, while a rival's is accepted: it reports a sound journal as corrupt. */
  method LostBlock(operationId: nat, fingerprint: Fingerprint) returns (manager: Manager, r: Outcome)
    requires fingerprint.current != fingerprint.candidate
    ensures r == CORRUPT && manager.Consistent() && manager.journal.Some?
    ensures RunValid(manager.journal.value) && !IsTerminal(manager.journal.value.phase)
  {
    hide Valid, RunValid, Faithfully, NoRivals, LeaseKept, Run, Initial, Explained, Truthful, Transition, FaithfulInput,
         FaithfulNext, Served, MovesOn, OutcomeOf;
    InitialIsRunValid(operationId, fingerprint);
    InitialFacts(operationId, fingerprint);
    var first := Initial(operationId, fingerprint);
    NextFacts(first);
    MovesOnFacts(first, FaithfulInput(first));
    var rejected := Turn([], false, false, Input(None, Rejected));
    var overtaken := Turn([Takes(FaithfulInput(first))], false, false, Input(None, Unavailable));
    ThrowsExactly(first, Input(None, Rejected));
    IdleFirst([rejected, overtaken]);
    assert Tail([rejected, overtaken]) == [overtaken];
    OneRival(Some(first), overtaken.rivals[0], operationId);
    TransitionRevision(first, Step(first, FaithfulInput(first)).patch);
    assert LosesEnd(first, Some(first), [rejected, overtaken], operationId);
    manager := new Manager(operationId, [IDLE, IDLE, rejected, overtaken]);
    assert [IDLE, IDLE, rejected, overtaken] == [IDLE, IDLE] + [rejected, overtaken];
    r := manager.Execute(fingerprint);
    CorruptMeansUnfinished(FaithfulNext(first));
  }

  /** A manager whose candidate is rejected, and whose lease goes stale: the same, and no rival has written. */
  method StaleBlock(operationId: nat, fingerprint: Fingerprint) returns (manager: Manager, r: Outcome)
    requires fingerprint.current != fingerprint.candidate
    ensures r == CORRUPT && manager.Consistent() && manager.journal == Some(Initial(operationId, fingerprint))
    ensures RunValid(manager.journal.value) && !IsTerminal(manager.journal.value.phase)
  {
    hide Valid, RunValid, Faithfully, NoRivals, LeaseKept, Run, Initial, Explained, Truthful, Transition, OutcomeOf;
    InitialIsRunValid(operationId, fingerprint);
    InitialFacts(operationId, fingerprint);
    var first := Initial(operationId, fingerprint);
    var rejected := Turn([], false, false, Input(None, Rejected));
    var refused := Turn([], false, true, Input(None, Unavailable));
    IdleFirst([rejected, refused]);
    assert Tail([rejected, refused]) == [refused];
    NoRivalChange(Some(first), operationId);
    assert LosesEnd(first, Some(first), [rejected, refused], operationId);
    manager := new Manager(operationId, [IDLE, IDLE, rejected, refused]);
    assert [IDLE, IDLE, rejected, refused] == [IDLE, IDLE] + [rejected, refused];
    r := manager.Execute(fingerprint);
  }

  lemma OneRival(journal: Option<Journal>, rival: Rival, operationId: nat)
    ensures AfterRivals(journal, [rival], operationId) == AfterRival(journal, rival, operationId)
  {
    assert [rival][..0] == [];
  }

  lemma NoRivalChange(journal: Option<Journal>, operationId: nat)
    ensures AfterRivals(journal, [], operationId) == journal
  {
  }

  /** What ends a run is written under a terminal phase. */
  lemma EndMoves(j: Journal, input: Input)
    requires RunValid(j) && Ends(j, input)
    ensures var next := Transition(j, Step(j, input).patch); next.Some? ==> IsTerminal(next.value.phase)
  {
    hide RunValid, Valid, Step, Transition, Fits, Initial;
    StepFits(j, input);
    if Transition(j, Step(j, input).patch).Some? {
      SameOperation(j, Step(j, input).patch, Transition(j, Step(j, input).patch).value);
    }
  }

  lemma EndWanted(h: seq<Journal>, j: Journal, input: Input)
    requires Recorded(h, j) && Ends(j, input)
    ensures h != [] && (!IsTerminal(h[|h| - 1].phase) ==> LostEnd(h))
  {
    hide Ends;
  }

  lemma TransitionRevision(a: Journal, patch: Patch)
    ensures Transition(a, patch).Some? ==> Transition(a, patch).value.revision == a.revision + 1
  {
  }
}
