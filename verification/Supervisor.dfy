/**
 A managed Bridge supervisor over a journal that it shares with other supervisors.

 Every await consumes one Turn: what the others write meanwhile, whether the adapter call of this turn
 throws, and what it returns. An exhausted script means that nothing happens and the worker says nothing.
 */
module Supervisor {
  import opened Common
  import opened SupervisorJournal

  datatype Rival = Creates(identity: Identity, desired: Desired) | Acts(act: Act)

  datatype Answer = Silent | Observes(observation: Observation) | Returns(result: Result)

  datatype Turn = Turn(rivals: seq<Rival>, throws: bool, answer: Answer, now: int, unit: real)

  datatype Outcome = Done(journal: Journal) | Thrown

  datatype Attempt = Won(journal: Journal) | Lost | Refused

  const CAS_ATTEMPTS: nat := 32

  const IDLE := Turn([], false, Silent, 0, 0.0)

  function Tail(turns: seq<Turn>): seq<Turn> { if turns == [] then [] else turns[1..] }

  /** What the next await brings; a hash out of range is none. */
  function Head(turns: seq<Turn>): (turn: Turn)
    ensures 0.0 <= turn.unit <= 1.0
    ensures turns != [] ==> turn == turns[0].(unit := turn.unit)
    ensures turns != [] && 0.0 <= turns[0].unit <= 1.0 ==> turn == turns[0]
  {
    if turns == [] then IDLE
    else if 0.0 <= turns[0].unit <= 1.0 then turns[0]
    else turns[0].(unit := 0.0)
  }

  /** Nobody else writes. */
  predicate Alone(turns: seq<Turn>) { forall i :: 0 <= i < |turns| ==> turns[i].rivals == [] }

  /** And no call throws. */
  predicate Smooth(turns: seq<Turn>) { Alone(turns) && forall i :: 0 <= i < |turns| ==> !turns[i].throws }

  lemma SmoothIsAlone()
    ensures forall turns :: Smooth(turns) ==> Alone(turns)
  {
  }

  /** From `h` one act was carried out, and nothing else: it changed nothing, was refused, or is the last of `t`. */
  predicate OneAct(h: seq<Journal>, t: seq<Journal>, r: Outcome, act: Act)
    requires h != [] && Possible(act)
  {
    var j := h[|h| - 1];
    var b := Effect(j, act);
    if b == None then t == h && r == Done(j)
    else if !Acceptable(j, act) then t == h && r == Thrown
    else t == h + [b.value] && r == Done(b.value)
  }

  lemma SoundGrows(h: seq<Journal>, b: Journal)
    requires Sound(h) && Strong(b) && b.revision == |h|
    requires if h == [] then b == Fresh(b.identity, b.desired) else Evolves(h[|h| - 1], b) && ByAct(h[|h| - 1], b)
    ensures Sound(h + [b])
  {
    hide Strong, Evolves, ByAct, Fresh;
  }

  lemma FreshIsStrong(identity: Identity, desired: Desired)
    ensures Strong(Fresh(identity, desired)) && Fresh(identity, desired).revision == 0
    ensures Fresh(identity, desired).identity == identity && Fresh(identity, desired).desired == desired
    ensures Fresh(identity, desired).key == KeyOf(identity)
  {
  }

  /** What a rival makes of the journal. */
  function AfterRival(journal: Option<Journal>, rival: Rival, key: Key): Option<Journal> {
    match rival
    case Creates(identity, desired) =>
      if journal == None && KeyOf(identity) == key then Some(Fresh(identity, desired)) else journal
    case Acts(act) =>
      if journal.Some? && Possible(act) && Acceptable(journal.value, act) && Effect(journal.value, act).Some?
      then Effect(journal.value, act) else journal
  }

  function AfterRivals(journal: Option<Journal>, rivals: seq<Rival>, key: Key): Option<Journal> {
    if rivals == [] then journal
    else AfterRival(AfterRivals(journal, rivals[..|rivals| - 1], key), rivals[|rivals| - 1], key)
  }

  class Supervisor {
    const instance: Instance
    const key: Key
    const lease: nat
    var journal: Option<Journal>
    var turns: seq<Turn>
    ghost var history: seq<Journal>
    /** The commands this supervisor has issued, in order. */
    ghost var issued: seq<Command>

    ghost predicate Consistent()
      reads this
    {
      && Sound(history)
      && journal == (if history == [] then None else Some(history[|history| - 1]))
      && (journal.Some? ==> journal.value.key == key)
    }

    twostate predicate Later()
      reads this
    {
      old(history) <= history && |turns| <= old(|turns|)
    }

    /** At most one command goes out, and only one that this instance has claimed in the store. */
    twostate predicate IssuesOwn()
      reads this
    {
      || issued == old(issued)
      || (&& |issued| == |old(issued)| + 1 && old(issued) <= issued
          && exists j :: j in history && j.command == Some(issued[|issued| - 1])
                         && j.command.value.claimedBy == Some(instance))
    }

    /** The journal is one the store has held. */
    ghost predicate Recorded(j: Journal)
      reads this
    {
      j in history
    }

    constructor (instance: Instance, key: Key, lease: nat, turns: seq<Turn>)
      ensures Consistent() && history == [] && this.turns == turns && this.instance == instance && this.key == key
    {
      this.instance, this.key, this.lease, this.turns := instance, key, lease, turns;
      journal, history, issued := None, [], [];
    }

    method Write(next: Journal)
      requires Consistent() && Strong(next) && next.revision == |history| && next.key == key
      requires if history == [] then next == Fresh(next.identity, next.desired)
        else Evolves(history[|history| - 1], next) && ByAct(history[|history| - 1], next)
      modifies `journal, `history
      ensures Consistent() && history == old(history) + [next] && journal == Some(next)
    {
      hide Sound, Strong, Evolves, ByAct, Fresh;
      SoundGrows(history, next);
      journal, history := Some(next), history + [next];
    }

    method LetRival(rival: Rival)
      requires Consistent()
      modifies `journal, `history
      ensures Consistent() && Later() && journal == AfterRival(old(journal), rival, key)
    {
      hide Strong, Evolves, Effect, Possible, Fresh, Acceptable;
      match rival {
        case Creates(identity, desired) =>
          FreshIsStrong(identity, desired);
          if journal == None && Fresh(identity, desired).key == key {
            Write(Fresh(identity, desired));
          }
        case Acts(act) =>
          if journal.Some? && Possible(act) && Acceptable(journal.value, act) {
            EffectKeeps(journal.value, act);
            EffectRevision(journal.value, act);
            var next := Effect(journal.value, act);
            if next.Some? {
              Write(next.value);
            }
          }
      }
    }

    method Await() returns (turn: Turn)
      requires Consistent()
      modifies `journal, `history, `turns
      ensures Consistent() && Later()
      ensures turn == Head(old(turns)) && turns == Tail(old(turns))
      ensures journal == AfterRivals(old(journal), turn.rivals, key)
      ensures turn.answer != Silent ==> |turns| < old(|turns|)
      ensures Alone(old(turns)) ==> Alone(turns) && history == old(history)
      ensures Smooth(old(turns)) ==> Smooth(turns) && !turn.throws
    {
      hide Sound, AfterRival;
      turn := Head(turns);
      if turns == [] {
        return;
      }
      turns := turns[1..];
      for i := 0 to |turn.rivals|
        invariant Consistent() && Later() && turns == old(turns)[1..]
        invariant Alone(old(turns)) ==> history == old(history)
        invariant journal == AfterRivals(old(journal), turn.rivals[..i], key)
      {
        assert turn.rivals[..i + 1][..i] == turn.rivals[..i];
        LetRival(turn.rivals[i]);
      }
      assert turn.rivals[..|turn.rivals|] == turn.rivals;
    }

    /** One validated write: Thrown if the validator refuses it, Lost if another write came first. */
    method CompareAndSwap(mine: Journal, act: Act) returns (r: Attempt)
      requires Consistent() && Recorded(mine) && Possible(act) && Effect(mine, act).Some?
      modifies `journal, `history, `turns
      ensures Consistent() && Later()
      ensures r.Won? ==> Recorded(r.journal) && Some(r.journal) == Effect(mine, act)
      ensures r.Lost? ==> journal.Some? && Recorded(journal.value) && journal.value.revision > mine.revision
      ensures r.Refused? <==> !Acceptable(mine, act)
      ensures r.Refused? ==> history == old(history) && turns == old(turns)
      ensures !r.Refused? ==> turns == Tail(old(turns)) && (Smooth(old(turns)) ==> Smooth(turns))
      ensures Alone(old(turns)) ==> Alone(turns)
      ensures Alone(old(turns)) && old(journal) == Some(mine) ==>
        !r.Lost? && (r.Won? ==> history == old(history) + [r.journal])
    {
      hide Strong, Evolves, Effect, Possible, Valid, Acceptable;
      RecordedFacts(history, mine);
      var next := Effect(mine, act).value;
      ClaimNeedsPlainInstance(mine, act);
      EffectRevision(mine, act);
      if !Valid(next) {
        return Refused;
      }
      EffectKeeps(mine, act);
      var _ := Await();
      RecordedFacts(history, mine);
      if journal.value.revision == mine.revision {
        Write(next);
        return Won(next);
      }
      return Lost;
    }

    /** replace: on a lost race, the journal of whoever won it. */
    method Swap(mine: Journal, act: Act) returns (r: Outcome)
      requires Consistent() && Recorded(mine) && Possible(act) && Effect(mine, act).Some?
      modifies `journal, `history, `turns
      ensures Consistent() && Later()
      ensures r.Done? ==> Recorded(r.journal)
      ensures r.Done? ==> Some(r.journal) == Effect(mine, act) || r.journal.revision > mine.revision
      ensures r.Thrown? <==> !Acceptable(mine, act)
      ensures r.Done? ==> turns == Tail(old(turns))
      ensures Alone(old(turns)) ==> Alone(turns)
      ensures Alone(old(turns)) && old(journal) == Some(mine) ==> OneAct(old(history), history, r, act)
    {
      hide Sound, Effect, Possible, Acceptable;
      var attempt := CompareAndSwap(mine, act);
      match attempt {
        case Won(next) => return Done(next);
        case Lost => return Done(journal.value);
        case Refused => return Thrown;
      }
    }

    /** blockCurrent: blocks whatever journal it finds, even one that is no longer the one it was called for. */
    method BlockCurrent(first: Journal, reason: Reason) returns (r: Outcome)
      requires Consistent() && Recorded(first)
      modifies `journal, `history, `turns
      ensures Consistent() && Later()
      ensures r.Done? ==> Recorded(r.journal) && r.journal.circuit == Blocked
      ensures first.circuit == Blocked ==> r == Done(first) && history == old(history)
      ensures Alone(old(turns)) && old(journal) == Some(first) ==> OneAct(old(history), history, r, Block(reason))
    {
      hide Sound;
      var mine := first;
      for attempt := 0 to CAS_ATTEMPTS
        invariant Consistent() && Later() && Recorded(mine)
        invariant attempt == 0 ==> mine == first && history == old(history) && turns == old(turns)
        invariant attempt > 0 ==> first.circuit != Blocked
        invariant attempt > 0 ==> !(Alone(old(turns)) && old(journal) == Some(first))
      {
        if mine.circuit == Blocked {
          return Done(mine);
        }
        var next := Swap(mine, Block(reason));
        if next.Thrown? || next.journal.circuit == Blocked {
          return next;
        }
        mine := next.journal;
      }
      return Thrown;
    }

    /** The journal is absent: create it, unless another supervisor does. */
    method Create(identity: Identity, desired: Desired) returns (created: Option<Journal>)
      requires Consistent() && KeyOf(identity) == key
      modifies `journal, `history, `turns
      ensures Consistent() && Later()
      ensures created.Some? ==> Recorded(created.value) && created.value == Fresh(identity, desired)
      ensures Alone(old(turns)) && old(journal) == None ==> created.Some? && history == old(history) + [created.value]
      ensures turns == Tail(old(turns))
      ensures (Smooth(old(turns)) ==> Smooth(turns)) && (Alone(old(turns)) ==> Alone(turns))
    {
      hide Sound, Strong, Evolves;
      var _ := Await();
      if journal.Some? {
        return None;
      }
      FreshIsStrong(identity, desired);
      Write(Fresh(identity, desired));
      return Some(Fresh(identity, desired));
    }

    method EnsureRunning(identity: Identity) returns (r: Outcome)
      requires Consistent() && KeyOf(identity) == key
      modifies `journal, `history, `turns
      ensures Consistent() && Later()
      ensures r.Done? ==> Recorded(r.journal)
      ensures r.Done? ==>
        r.journal.circuit == Blocked || (r.journal.desired == Running && SameRun(r.journal.identity, identity))
      ensures Smooth(old(turns)) ==> Carried(old(history), history, r, identity, Running, Ensure(identity))
      ensures Alone(old(turns)) ==> Ensured(old(history), history, r, identity, Head(old(turns)).throws)
      ensures Smooth(old(turns)) && old(history) == [] ==>
        && Smooth(turns) && turns == Tail(Tail(old(turns)))
        && r == Done(Fresh(identity, Running)) && history == [Fresh(identity, Running)]
    {
      hide Sound, Strong, Effect, Acceptable;
      for attempt := 0 to CAS_ATTEMPTS
        invariant Consistent() && Later()
        invariant Alone(old(turns)) ==> attempt == 0 && history == old(history)
        invariant attempt == 0 ==> turns == old(turns)
      {
        var turn := Await();
        if journal == None {
          if turn.throws {
            return Thrown;
          }
          var created := Create(identity, Running);
          if created.Some? {
            return Done(created.value);
          }
        } else {
          var current := journal.value;
          if !SameRun(current.identity, identity) {
            r := BlockCurrent(current, IdentityMismatch);
            return;
          }
          EnsureStarts(current, identity);
          if current.desired == Running {
            return if current.identity == identity && turn.throws then Thrown else Done(current);
          }
          if turn.throws {
            return Thrown;
          }
          var next := CompareAndSwap(current, Ensure(identity));
          if next.Won? {
            return Done(next.journal);
          }
        }
      }
      return Thrown;
    }

    method RequestStop(identity: Identity) returns (r: Outcome)
      requires Consistent() && KeyOf(identity) == key
      modifies `journal, `history, `turns
      ensures Consistent() && Later()
      ensures r.Done? ==> Recorded(r.journal)
      ensures r.Done? ==>
        r.journal.circuit == Blocked || StoppedFor(r.journal, identity)
      ensures Smooth(old(turns)) ==>
        Carried(old(history), history, r, identity, Stopped, SupervisorJournal.RequestStop(identity))
      ensures Alone(old(turns)) && r.Done? ==>
        Carried(old(history), history, r, identity, Stopped, SupervisorJournal.RequestStop(identity))
    {
      hide Sound, Strong, Effect, Acceptable, SameRun, Valid, StoppedFor, Alone, Smooth;
      SmoothIsAlone();
      for attempt := 0 to CAS_ATTEMPTS
        invariant Consistent() && Later()
        invariant Smooth(old(turns)) ==> Smooth(turns)
        invariant Alone(old(turns)) ==> attempt == 0 && Alone(turns) && history == old(history)
      {
        var _ := Await();
        if journal == None {
          var created := Create(identity, Stopped);
          FreshIsStopped(identity);
          if created.Some? {
            r := TellStopped(created.value);
            return;
          }
        } else {
          var current := journal.value;
          if !SameRun(current.identity, identity) {
            r := BlockCurrent(current, IdentityMismatch);
            return;
          }
          StopStops(current, identity);
          if current.desired == Stopped {
            StoppedIsIdle(history, current, identity);
            r := TellStopped(current);
            return;
          }
          var next := CompareAndSwap(current, SupervisorJournal.RequestStop(identity));
          if next.Won? {
            r := TellStopped(next.journal);
            return;
          }
        }
      }
      return Thrown;
    }

    /** The registry is told after the write; if it throws, the write stands. */
    method TellStopped(j: Journal) returns (r: Outcome)
      requires Consistent() && Recorded(j)
      modifies `journal, `history, `turns
      ensures Consistent() && Later()
      ensures r == if Head(old(turns)).throws then Thrown else Done(j)
      ensures r.Done? ==> Recorded(r.journal)
      ensures Alone(old(turns)) ==> history == old(history)
      ensures Smooth(old(turns)) ==> r.Done?
    {
      hide Sound;
      var turn := Await();
      return if turn.throws then Thrown else Done(j);
    }

    /**
     rebindRelease and rollbackRelease. The identity is the new one; whether the journal is still stopped is
     certain only if no other write came between.
     */
    method TransitionRelease(expected: Identity, next: Identity) returns (r: Outcome)
      requires Consistent() && KeyOf(expected) == key
      modifies `journal, `history, `turns
      ensures Consistent() && Later()
      ensures r.Done? ==> Recorded(r.journal) && r.journal.identity == next
      ensures !ReleaseMoves(expected, next) ==> r == Thrown && history == old(history)
      ensures ReleaseMoves(expected, next) && Alone(old(turns)) ==>
        if old(journal).Some? && old(journal).value.identity == expected && old(journal).value.desired == Stopped
        then OneAct(old(history), history, r, Release(expected, next))
        else
          && history == old(history)
          && (r.Done? <==> old(journal).Some? && old(journal).value.identity == next
                           && old(journal).value.desired == Stopped)
    {
      hide Sound, Strong, Reconciling, Recording, Losing, Backoff;
      if !ReleaseMoves(expected, next) {
        return Thrown;
      }
      for attempt := 0 to CAS_ATTEMPTS
        invariant Consistent() && Later()
        invariant Alone(old(turns)) ==> attempt == 0 && Alone(turns) && history == old(history)
      {
        var _ := Await();
        if journal == None {
          return Thrown;
        }
        var current := journal.value;
        if current.identity == next {
          return if current.desired == Stopped then Done(current) else Thrown;
        }
        if current.identity != expected || current.desired != Stopped {
          return Thrown;
        }
        var transitioned := Swap(current, Release(expected, next));
        if transitioned.Thrown? || transitioned.journal.identity == next {
          return transitioned;
        }
      }
      return Thrown;
    }

    /**
     reconcile. With nobody else writing it does what Reconciling decides of the observation, once: it keeps
     the journal, blocks it, replaces it, or claims a command and dispatches it.
     */
    method Reconcile(identity: Identity) returns (r: Outcome)
      requires Consistent() && KeyOf(identity) == key
      modifies `journal, `history, `turns, `issued
      ensures Consistent() && Later() && IssuesOwn()
      ensures r.Done? ==> Recorded(r.journal)
      ensures Alone(old(turns)) && old(history) != [] ==>
        Reconciled(old(history), history, r, identity, old(turns))
      ensures Smooth(old(turns)) && old(history) == [] ==>
        Reconciled([Fresh(identity, Running)], history, r, identity, Tail(Tail(old(turns))))
      decreases |turns|, 0
    {
      hide Sound, Strong, Reconciling, Adopted, Probed, OneAct, Effect, Alone, Smooth, Carried, Ensured, ObservationOf,
           SameRun, Unobserved, Acceptable, Possible;
      SmoothIsAlone();
      var _ := Await();
      var mine: Journal;
      if journal == None {
        var ensured := EnsureRunning(identity);
        if ensured.Thrown? {
          return Thrown;
        }
        mine := ensured.journal;
      } else {
        mine := journal.value;
      }
      if !SameRun(mine.identity, identity) {
        r := BlockCurrent(mine, IdentityMismatch);
        return;
      }
      if mine.desired == Stopped || mine.circuit == Blocked {
        return Done(mine);
      }
      var turn := Await();
      if mine.circuit != HalfOpen && Unobserved(turn) {
        return Thrown;
      }
      var observation, moment := ObservationOf(turn), MomentOf(turn);
      MalformedIsBlocked(mine, moment);
      match Reconciling(mine, observation, moment) {
        case Keep => return Done(mine);
        case BlockFor(reason) => r := BlockCurrent(mine, reason);
        case Replace(_, advances) => r := Adopt(mine, observation, moment, advances);
        case Claim(_) => r := Probe(mine, observation, moment);
      }
    }

    /** The journal takes over what was observed; the registry is told of a new identity first. */
    method Adopt(mine: Journal, observation: Observation, moment: Moment, advances: bool) returns (r: Outcome)
      requires Consistent() && Recorded(mine) && Timely(moment)
      requires Reconciling(mine, observation, moment).Replace?
      requires advances == Reconciling(mine, observation, moment).advances
      modifies `journal, `history, `turns, `issued
      ensures Consistent() && Later() && IssuesOwn()
      ensures r.Done? ==> Recorded(r.journal)
      ensures Alone(old(turns)) && old(journal) == Some(mine) ==>
        Adopted(old(history), history, r, observation, moment, old(turns))
      decreases |turns|, 1
    {
      hide Sound, Strong, Reconciling, Backoff;
      if advances {
        var told := Await();
        if told.throws {
          return Thrown;
        }
      }
      r := Swap(mine, SupervisorJournal.Reconcile(observation, moment));
      if mine.circuit == HalfOpen && observation.FuseOpen? && r.Done? && r.journal.circuit == Open
         && r.journal.identity == observation.identity && KeyOf(observation.identity) == key {
        r := Reconcile(observation.identity);
      }
    }

    /** The command is claimed, and dispatched by whoever holds the claim. */
    method Probe(mine: Journal, observation: Observation, moment: Moment) returns (r: Outcome)
      requires Consistent() && Recorded(mine) && Timely(moment)
      requires Reconciling(mine, observation, moment).Claim? && moment.instance == instance
      modifies `journal, `history, `turns, `issued
      ensures Consistent() && Later() && IssuesOwn()
      ensures r.Done? ==> Recorded(r.journal)
      ensures Alone(old(turns)) && old(journal) == Some(mine) ==>
        Probed(old(history), history, r, observation, moment, old(turns))
    {
      hide Sound, Strong, Reconciling, Backoff, Dispatched;
      ClaimIsOwn(mine, observation, moment);
      var next := Reconciling(mine, observation, moment).next;
      r := Swap(mine, SupervisorJournal.Reconcile(observation, moment));
      if r.Done? && r.journal.circuit == HalfOpen && r.journal.command.Some? && next.command.Some?
         && r.journal.command.value.id == next.command.value.id
         && r.journal.command.value.claimedBy == Some(instance) {
        r := Dispatch(r.journal);
      }
    }

    ghost predicate Reconciled(h: seq<Journal>, t: seq<Journal>, r: Outcome, identity: Identity, turns: seq<Turn>)
      requires h != []
      decreases |turns|, 0
    {
      var j := h[|h| - 1];
      var turn := Head(Tail(turns));
      if !SameRun(j.identity, identity) then OneAct(h, t, r, Block(IdentityMismatch))
      else if j.desired == Stopped || j.circuit == Blocked then t == h && r == Done(j)
      else if j.circuit != HalfOpen && Unobserved(turn) then t == h && r == Thrown
      else
        match Reconciling(j, ObservationOf(turn), MomentOf(turn))
        case Keep => t == h && r == Done(j)
        case BlockFor(reason) => OneAct(h, t, r, Block(reason))
        case Replace(_, _) => Adopted(h, t, r, ObservationOf(turn), MomentOf(turn), Tail(Tail(turns)))
        case Claim(_) => Probed(h, t, r, ObservationOf(turn), MomentOf(turn), Tail(Tail(turns)))
    }

    /** One write, unless the registry refuses; a command given up for a new identity is reconciled again. */
    ghost predicate Adopted(
      h: seq<Journal>, t: seq<Journal>, r: Outcome, observation: Observation, moment: Moment, turns: seq<Turn>)
      requires h != [] && Timely(moment) && Reconciling(h[|h| - 1], observation, moment).Replace?
      decreases |turns|, 1
    {
      var j := h[|h| - 1];
      var b := Effect(j, SupervisorJournal.Reconcile(observation, moment)).value;
      var advances := Reconciling(j, observation, moment).advances;
      if advances && Head(turns).throws then t == h && r == Thrown
      else if j.circuit == HalfOpen && observation.FuseOpen? && b.circuit == Open
              && b.identity == observation.identity && KeyOf(observation.identity) == key
      then Reconciled(h + [b], t, r, observation.identity, Tail(if advances then Tail(turns) else turns))
      else t == h + [b] && r == Done(b)
    }

    /** The claim, and what its dispatch comes to. */
    ghost predicate Probed(
      h: seq<Journal>, t: seq<Journal>, r: Outcome, observation: Observation, moment: Moment, turns: seq<Turn>)
      requires h != [] && Timely(moment) && Reconciling(h[|h| - 1], observation, moment).Claim?
    {
      var b := Effect(h[|h| - 1], SupervisorJournal.Reconcile(observation, moment)).value;
      if !moment.instance.plain then t == h && r == Thrown
      else b.command.Some? && Dispatched(h + [b], t, r, Tail(turns))
    }

    /** The command goes out, once, and its answer is awaited. */
    method Issue(command: Command) returns (turn: Turn)
      requires Consistent()
      modifies `journal, `history, `turns, `issued
      ensures Consistent() && Later() && issued == old(issued) + [command]
      ensures turn == Head(old(turns)) && turns == Tail(old(turns))
      ensures Alone(old(turns)) ==> Alone(turns) && history == old(history)
    {
      hide Sound;
      issued := issued + [command];
      turn := Await();
    }

    /** dispatch: the command is issued once, and its result or its loss recorded. */
    method Dispatch(claimed: Journal) returns (r: Outcome)
      requires Consistent() && Recorded(claimed) && claimed.command.Some?
      modifies `journal, `history, `turns, `issued
      ensures Consistent() && Later() && issued == old(issued) + [claimed.command.value]
      ensures r.Done? ==> Recorded(r.journal)
      ensures Alone(old(turns)) && old(journal) == Some(claimed) ==>
        Dispatched(old(history), history, r, old(turns))
    {
      hide Sound, OneAct;
      var command := claimed.command.value;
      var turn := Issue(command);
      if turn.throws || turn.answer == Silent {
        r := RecordLost(command);
      } else {
        r := RecordResult(command, ResultOf(turn.answer, command));
      }
    }

    function MomentOf(turn: Turn): Moment { Moment(turn.now, instance, lease, turn.unit) }

    /** What becomes of a command once it is issued, nobody else writing: one act, which its answer decides. */
    ghost predicate Dispatched(h: seq<Journal>, t: seq<Journal>, r: Outcome, turns: seq<Turn>)
      requires h != [] && h[|h| - 1].command.Some?
    {
      var command := h[|h| - 1].command.value;
      var answer, moment := Head(turns), MomentOf(Head(Tail(turns)));
      if answer.throws || answer.answer == Silent then OneAct(h, t, r, Lose(command, moment))
      else OneAct(h, t, r, RecordingAct(h[|h| - 1], command, ResultOf(answer.answer, command), moment))
    }

    method RecordLost(command: Command) returns (r: Outcome)
      requires Consistent() && history != []
      modifies `journal, `history, `turns
      ensures Consistent() && Later()
      ensures r.Done? ==> Recorded(r.journal) && !Owns(r.journal, command, instance)
      ensures Alone(old(turns)) ==> OneAct(old(history), history, r, Lose(command, MomentOf(Head(old(turns)))))
    {
      hide Sound, Strong, Backoff;
      for attempt := 0 to CAS_ATTEMPTS
        invariant Consistent() && Later()
        invariant attempt == 0 ==> turns == old(turns) && history == old(history)
        invariant attempt > 0 ==> !Alone(old(turns))
      {
        var turn := Await();
        var current := journal.value;
        if !Owns(current, command, instance) {
          return Done(current);
        }
        var next := CompareAndSwap(current, Lose(command, MomentOf(turn)));
        if next.Won? {
          return Done(next.journal);
        }
      }
      return Thrown;
    }

    method RecordResult(command: Command, result: Result) returns (r: Outcome)
      requires Consistent() && history != []
      modifies `journal, `history, `turns
      ensures Consistent() && Later()
      ensures r.Done? ==> Recorded(r.journal)
      ensures Alone(old(turns)) ==>
        var moment := MomentOf(Head(old(turns)));
        OneAct(old(history), history, r, RecordingAct(old(journal).value, command, result, moment))
    {
      hide Sound, Strong, Backoff;
      var turn := Await();
      var current := journal.value;
      var moment := MomentOf(turn);
      match Recording(current, command, result, moment) {
        case BlockFor(reason) => r := BlockCurrent(current, reason);
        case Replace(_, _) => r := Swap(current, Record(command, result, moment));
        case _ => return Done(current);
      }
    }
  }

  /** A call by the owner of the run creates the journal or acts on it once; any other call blocks it. */
  predicate Carried(
    h: seq<Journal>, t: seq<Journal>, r: Outcome, identity: Identity, desired: Desired, act: Act)
    requires Possible(act)
  {
    if h == [] then t == [Fresh(identity, desired)] && r == Done(Fresh(identity, desired))
    else if SameRun(h[|h| - 1].identity, identity) then OneAct(h, t, r, act)
    else OneAct(h, t, r, Block(IdentityMismatch))
  }

  /**
   The same of ensureRunning, when the registry may throw: it is asked before the write, and for a Bridge that
   already runs only if the call brings the journal's own identity.
   */
  predicate Ensured(h: seq<Journal>, t: seq<Journal>, r: Outcome, identity: Identity, throws: bool) {
    if h == [] then
      if throws then t == h && r == Thrown
      else t == [Fresh(identity, Running)] && r == Done(Fresh(identity, Running))
    else
      var j := h[|h| - 1];
      if !SameRun(j.identity, identity) then OneAct(h, t, r, Block(IdentityMismatch))
      else if j.desired == Running then t == h && r == if throws && j.identity == identity then Thrown else Done(j)
      else if throws then t == h && r == Thrown
      else OneAct(h, t, r, Ensure(identity))
  }

  predicate Unobserved(turn: Turn) { turn.throws || !turn.answer.Observes? }

  function ObservationOf(turn: Turn): (o: Observation)
    ensures !turn.throws && turn.answer.Observes? ==> o == turn.answer.observation
    ensures turn.throws || !turn.answer.Observes? ==> o == Malformed
  {
    if Unobserved(turn) then Malformed else turn.answer.observation
  }

  lemma MalformedIsBlocked(j: Journal, m: Moment)
    requires Timely(m)
    ensures Reconciling(j, Malformed, m).Keep? || Reconciling(j, Malformed, m).BlockFor?
  {
  }

  lemma ClaimIsOwn(j: Journal, o: Observation, m: Moment)
    requires Timely(m) && Reconciling(j, o, m).Claim?
    ensures var next := Reconciling(j, o, m).next;
      next.circuit == HalfOpen && next.command.Some? && next.command.value.claimedBy == Some(m.instance)
  {
    hide Backoff;
  }

  /** An answer that is no result fails its validation. */
  function ResultOf(answer: Answer, command: Command): (r: Result)
    ensures answer.Returns? ==> r == answer.result
    ensures !answer.Returns? ==> !r.well
  {
    if answer.Returns? then answer.result
    else Result(Recovered, command.id, command.generation, command.fuse, command.identity, false)
  }

  function RecordingAct(j: Journal, command: Command, result: Result, moment: Moment): (act: Act)
    requires Timely(moment)
    ensures Possible(act)
  {
    var decision := Recording(j, command, result, moment);
    if decision.BlockFor? then Block(decision.reason) else Record(command, result, moment)
  }

  lemma EnsureStarts(j: Journal, identity: Identity)
    requires SameRun(j.identity, identity)
    ensures Acceptable(j, Ensure(identity)) && (Effect(j, Ensure(identity)).Some? <==> j.desired == Stopped)
    ensures Effect(j, Ensure(identity)).Some? ==>
      var b := Effect(j, Ensure(identity)).value; b.desired == Running && b.identity == j.identity
  {
  }

  lemma StopStops(j: Journal, identity: Identity)
    requires SameRun(j.identity, identity)
    ensures var act := SupervisorJournal.RequestStop(identity);
      && Acceptable(j, act) && (Effect(j, act).Some? <==> j.desired == Running)
      && (Effect(j, act).Some? ==>
            var b := Effect(j, act).value;
            b.desired == Stopped && b.command == None && b.identity == j.identity && StoppedFor(b, identity))
  {
  }

  /** Stopped without a command, for the run of this identity. */
  predicate StoppedFor(j: Journal, identity: Identity) {
    j.desired == Stopped && j.command == None && SameRun(j.identity, identity)
  }

  lemma FreshIsStopped(identity: Identity)
    ensures StoppedFor(Fresh(identity, Stopped), identity)
  {
  }

  lemma StoppedIsIdle(h: seq<Journal>, j: Journal, identity: Identity)
    requires Sound(h) && j in h && j.desired == Stopped
    ensures j.command == None && (SameRun(j.identity, identity) ==> StoppedFor(j, identity))
  {
    hide Evolves;
    RecordedFacts(h, j);
  }

  lemma EffectRevision(j: Journal, act: Act)
    requires Possible(act)
    ensures Effect(j, act).Some? ==> Effect(j, act).value.revision == j.revision + 1
    ensures Strong(j) && Acceptable(j, act) && Effect(j, act).Some? ==> Effect(j, act).value.key == j.key
  {
    hide Evolves, Patch;
    if Strong(j) && Acceptable(j, act) {
      EffectKeeps(j, act);
      if Effect(j, act).Some? {
        EvolvesKey(j, Effect(j, act).value);
      }
    }
  }

  lemma EvolvesKey(a: Journal, b: Journal)
    requires Evolves(a, b)
    ensures b.key == a.key && b.revision == a.revision + 1
  {
  }

  lemma RecordedFacts(h: seq<Journal>, j: Journal)
    requires Sound(h) && j in h
    ensures Strong(j) && j.revision < |h| && h[j.revision] == j && j.revision <= h[|h| - 1].revision
    ensures h[|h| - 1].revision == |h| - 1
  {
    hide Strong, Evolves;
  }
}
