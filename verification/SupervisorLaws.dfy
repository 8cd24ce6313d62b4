/**
 What a supervisor makes of an observation, told observation by observation, and how long it waits.
 */
module SupervisorLaws {
  import opened Common
  import opened SupervisorJournal

  // ---------------------------------------------------------------------------
  // Observations
  // ---------------------------------------------------------------------------

  /** A running journal that is not blocked. */
  predicate Active(j: Journal) { Strong(j) && j.desired == Running && j.circuit != Blocked }

  /** A command is out, and its lease lives, or it was given up and is not due again. */
  predicate Waiting(j: Journal, now: int) {
    && j.circuit == HalfOpen && j.command.Some?
    && if j.command.value.claimedBy.Some? then
         j.command.value.leaseUntil.Some? && now < j.command.value.leaseUntil.value
       else j.nextAttempt.Some? && now < j.nextAttempt.value
  }

  /** The observation is well formed, of the same run, and its recovery proof has not gone back. */
  predicate Steady(j: Journal, o: Observation) {
    && (o.Healthy? || o.Vague? || (o.FuseOpen? && o.fuse > 0))
    && SameRun(o.identity, j.identity) && ProofProgresses(j.identity, o.identity)
  }

  /** The observation that blocks a journal for this reason. */
  predicate Refused(j: Journal, o: Observation, reason: Reason) {
    var formed := !o.Malformed? && !(o.FuseOpen? && o.fuse == 0);
    match reason
    case InvalidObservation => !formed
    case ObservationMismatch => formed && !SameRun(o.identity, j.identity)
    case ProofRegression => formed && SameRun(o.identity, j.identity) && !ProofProgresses(j.identity, o.identity)
    case WorkerBlocked =>
      o.ReportsBlocked? && SameRun(o.identity, j.identity) && ProofProgresses(j.identity, o.identity)
    case FuseRegression =>
      && Steady(j, o) && (o.Healthy? || (o.FuseOpen? && j.circuit != HalfOpen))
      && j.last.Some? && o.fuse < j.last.value
    case FuseGap =>
      Steady(j, o) && o.FuseOpen? && j.circuit == Closed && j.last.Some? && o.fuse > j.last.value + 1
    case FuseChangedWhileOpen =>
      Steady(j, o) && o.FuseOpen? && j.circuit == Open && j.fuse.Some? && o.fuse > j.fuse.value
    case FuseChangedWhileHalfOpen =>
      Steady(j, o) && o.FuseOpen? && j.circuit == HalfOpen && Some(o.fuse) != j.fuse
    case _ => false
  }

  /** A journal is blocked by exactly these observations, unless a command is awaited. */
  lemma BlocksExactly(j: Journal, o: Observation, m: Moment, reason: Reason)
    requires Active(j) && Timely(m)
    ensures (j.circuit == Open ==> j.fuse.Some?) && (Waiting(j, m.now) ==> Reconciling(j, o, m) == Keep)
    ensures Reconciling(j, o, m) == BlockFor(reason) <==> !Waiting(j, m.now) && Refused(j, o, reason)
  {
    hide Backoff;
  }

  /**
   A command is claimed exactly when the fuse is seen open still, under the same identity, and the journal's next
   attempt is due, or its command is free again.
   */
  lemma ClaimsExactly(j: Journal, o: Observation, m: Moment)
    requires Active(j) && Timely(m)
    ensures Reconciling(j, o, m).Claim? <==>
      && o.FuseOpen? && o.identity == j.identity && Some(o.fuse) == j.fuse
      && ((j.circuit == Open && j.nextAttempt.Some? && j.nextAttempt.value <= m.now)
          || (j.circuit == HalfOpen && !Waiting(j, m.now)))
    ensures Reconciling(j, o, m).Claim? && j.circuit == Open ==>
      var id := CommandId(j.identity, o.fuse, j.generation + 1);
      Reconciling(j, o, m).next == j.(
        circuit := HalfOpen, generation := j.generation + 1, nextAttempt := None,
        command := Some(Command(id, j.generation + 1, o.fuse, j.identity, Some(m.instance), Some(m.now + m.lease), 1)))
    ensures Reconciling(j, o, m).Claim? && j.circuit == HalfOpen ==>
      && j.command.Some?
      && Reconciling(j, o, m).next == j.(nextAttempt := None, command := Some(j.command.value.(
           claimedBy := Some(m.instance), leaseUntil := Some(m.now + m.lease),
           dispatches := j.command.value.dispatches + 1)))
  {
    hide Backoff;
    ProgressIsPreorder(j.identity, j.identity, j.identity);
  }

  /** The journal that a decision leaves. */
  function Left(j: Journal, decision: Decision): Option<Journal> {
    match decision
    case Keep => Some(j)
    case Replace(next, _) => Some(next)
    case Claim(next) => Some(next)
    case BlockFor(_) => None
  }

  /** A healthy worker closes the circuit, and its identity and fuse are taken over. */
  lemma HealthyCloses(j: Journal, o: Observation, m: Moment)
    requires Active(j) && Timely(m) && !Waiting(j, m.now)
    requires o.Healthy? && Steady(j, o) && !Refused(j, o, FuseRegression)
    ensures Left(j, Reconciling(j, o, m)) == Some(Journal(
      j.key, j.revision, o.identity, j.desired, Closed, 0, j.generation, None, Some(o.fuse), None, None, None))
  {
    hide Backoff;
  }

  /** Nothing is written that would leave the journal as it is. */
  lemma WritesChange(j: Journal, o: Observation, m: Moment)
    requires Active(j) && Timely(m)
    ensures Left(j, Reconciling(j, o, m)) == Some(j) ==> Reconciling(j, o, m) == Keep
  {
    var _ := Backoff(Max(1, j.failures), m.unit);
    hide Backoff;
  }

  /** The highest fuse that is known. */
  function Known(j: Journal, fuse: nat): nat {
    if j.fuse.Some? then j.fuse.value else if j.last.Some? && j.last.value > fuse then j.last.value else fuse
  }

  /** An observation that does not say how the fuse stands gives up a free command, and settles nothing else. */
  lemma VagueSettlesNothing(j: Journal, o: Observation, m: Moment)
    requires Active(j) && Timely(m) && !Waiting(j, m.now) && o.Vague? && Steady(j, o)
    ensures var seen := j.(identity := o.identity, last := Some(Known(j, o.fuse)));
      Left(j, Reconciling(j, o, m)) == Some(
        if j.circuit != HalfOpen then seen
        else
          var retry := Some(m.now + Backoff(j.failures, m.unit));
          if o.identity == j.identity
          then seen.(nextAttempt := retry, command := Some(j.command.value.(claimedBy := None, leaseUntil := None)))
          else seen.(nextAttempt := retry, circuit := Open, command := None))
  {
    hide Backoff;
  }

  /** What becomes of a fuse that is seen open and is not refused. */
  lemma OpenFuse(j: Journal, o: Observation, m: Moment)
    requires Active(j) && Timely(m) && !Waiting(j, m.now) && o.FuseOpen? && Steady(j, o)
    requires !Reconciling(j, o, m).BlockFor?
    ensures j.circuit == Closed ==>
      Left(j, Reconciling(j, o, m)) == Some(
        if j.last == Some(o.fuse) then j.(identity := o.identity)
        else j.(identity := o.identity, circuit := Open, failures := 1, fuse := Some(o.fuse), last := Some(o.fuse),
                nextAttempt := Some(m.now + Backoff(1, m.unit))))
    ensures j.circuit == Open && (o.identity != j.identity || m.now < j.nextAttempt.value) ==>
      Left(j, Reconciling(j, o, m)) == Some(j.(identity := o.identity))
    ensures j.circuit == HalfOpen && o.identity != j.identity ==>
      Left(j, Reconciling(j, o, m)) ==
        Some(j.(identity := o.identity, circuit := Open, command := None, nextAttempt := Some(m.now)))
  {
    hide Backoff;
  }

  /** The registry is told of a new identity, except when it comes with the fuse that opens a closed circuit. */
  lemma RegistryIsTold(j: Journal, o: Observation, m: Moment)
    requires Active(j) && Timely(m)
    ensures var decision := Reconciling(j, o, m);
      decision.Replace? ==>
        (decision.advances <==>
           o.identity != j.identity && !(j.circuit == Closed && decision.next.circuit == Open))
  {
    hide Backoff;
  }

  /** What a result comes to: nothing unless the command is owned, and otherwise it must answer that very command. */
  lemma ResultsExactly(j: Journal, c: Command, r: Result, m: Moment)
    requires Active(j) && Timely(m)
    ensures Recording(j, c, r, m) != Keep <==>
      && j.command.Some? && j.command.value.id == c.id && j.command.value.generation == c.generation
      && j.command.value.fuse == c.fuse && j.command.value.identity == c.identity
      && j.command.value.claimedBy == Some(m.instance)
    ensures Recording(j, c, r, m) != Keep ==>
      var answers := r.id == c.id && r.generation == c.generation && r.fuse == c.fuse && r.identity == c.identity;
      && (Recording(j, c, r, m) == BlockFor(InvalidResult) <==> !r.well)
      && (Recording(j, c, r, m) == BlockFor(ResultMismatch) <==> r.well && !answers)
      && (Recording(j, c, r, m) == BlockFor(WorkerBlocked) <==> r.well && answers && r.kind == CommandBlocked)
      && (r.well && answers && r.kind == Recovered ==>
            Left(j, Recording(j, c, r, m)) == Some(Journal(
              j.key, j.revision, j.identity, j.desired, Closed, 0, j.generation, None, Some(c.fuse), None, None, None)))
      && (r.well && answers && r.kind == StillOpen ==>
            Left(j, Recording(j, c, r, m)) == Some(j.(
              circuit := Open, failures := j.failures + 1, command := None,
              nextAttempt := Some(m.now + Backoff(j.failures + 1, m.unit)))))
  {
    hide Backoff;
  }

  /** A lost command stays, free to be claimed once its backoff is over. */
  lemma LosesExactly(j: Journal, c: Command, m: Moment)
    requires Active(j) && Timely(m)
    ensures Left(j, Losing(j, c, m)) == Some(
      if Owns(j, c, m.instance)
      then j.(nextAttempt := Some(m.now + Backoff(j.failures, m.unit)),
              command := Some(j.command.value.(claimedBy := None, leaseUntil := None)))
      else j)
  {
    hide Backoff;
  }

  /** Starting, stopping, releasing and blocking: when each writes, and what it leaves of the journal. */
  lemma PlainActs(j: Journal, identity: Identity, next: Identity, reason: Reason)
    requires Strong(j) && ReleaseMoves(identity, next)
    ensures Effect(j, Ensure(identity)) ==
      if SameRun(j.identity, identity) && j.desired == Stopped
      then Some(j.(revision := j.revision + 1, desired := Running)) else None
    ensures var stopped := Effect(j, RequestStop(identity));
      && (stopped.Some? <==> SameRun(j.identity, identity) && j.desired == Running)
      && (stopped.Some? ==>
            && stopped.value.desired == Stopped && stopped.value.command == None && stopped.value.nextAttempt == None
            && stopped.value.identity == j.identity && stopped.value.last == j.last
            && stopped.value.generation == j.generation && stopped.value.revision == j.revision + 1
            && if j.circuit == Blocked
               then stopped.value.circuit == Blocked && stopped.value.reason == j.reason
               else stopped.value.circuit == Closed && stopped.value.failures == 0 && stopped.value.fuse == None)
    ensures var released := Effect(j, Release(identity, next));
      && (released.Some? <==> j.identity == identity && j.desired == Stopped)
      && (released.Some? ==> released.value == Journal(
            j.key, j.revision + 1, next, Stopped, Closed, 0, j.generation, None, j.last, None, None, None))
    ensures var blocked := Effect(j, Block(reason));
      && (blocked.Some? <==> j.circuit != Blocked)
      && (blocked.Some? ==> blocked.value == j.(
            revision := j.revision + 1, circuit := Blocked, command := None, nextAttempt := None,
            reason := Some(reason)))
  {
  }

  // ---------------------------------------------------------------------------
  // Waiting
  // ---------------------------------------------------------------------------

  /** The more failures, the longer the wait, whatever the hashes: up to the fifth the ranges do not overlap. */
  lemma BackoffGrows(failures: nat, unit: real, next: real)
    requires failures > 0 && 0.0 <= unit <= 1.0 && 0.0 <= next <= 1.0
    ensures failures < 5 ==> Backoff(failures, unit) < Backoff(failures + 1, next)
    ensures Backoff(1, unit) <= 6_000 && (failures >= 5 ==> Backoff(failures, unit) >= 1_440_000)
    ensures failures > 5 ==> Backoff(failures, unit) == Backoff(5, unit)
  {
  }

  /** The clock of a write, if it reads one. */
  function NowOf(act: Act): Option<int> {
    match act
    case Reconcile(_, m) => Some(m.now)
    case Record(_, _, m) => Some(m.now)
    case Lose(_, m) => Some(m.now)
    case _ => None
  }

  predicate Opens(a: Journal, b: Journal) { a.circuit != Open && b.circuit == Open }

  /** Whoever opens the circuit sets its next attempt: a backoff away, or at once for a worker that has changed. */
  ghost predicate SetsAttempt(a: Journal, act: Act, b: Journal) {
    && NowOf(act).Some? && b.nextAttempt.Some?
    && (|| (a.circuit == HalfOpen && a.identity != b.identity && b.nextAttempt == NowOf(act))
        || exists unit :: 0.0 <= unit <= 1.0 && b.failures > 0 &&
             b.nextAttempt.value == NowOf(act).value + Backoff(b.failures, unit))
  }

  /** A write and the clock: nothing is tried before it is due, and an open circuit keeps its next attempt. */
  lemma WritesWait(j: Journal, act: Act)
    requires Strong(j) && Possible(act) && Effect(j, act).Some?
    ensures var b := Effect(j, act).value;
      && (Claims(j, b) ==>
            && act.Reconcile? && NowOf(act).Some? && j.nextAttempt.Some? && j.nextAttempt.value <= NowOf(act).value)
      && (Opens(j, b) ==> SetsAttempt(j, act, b))
      && (j.circuit == Open == b.circuit ==> b.nextAttempt == j.nextAttempt && b.failures == j.failures)
  {
    hide Backoff;
  }

  /** A command goes out again only when it is free and due, or when its lease is over. */
  lemma DispatchesWait(j: Journal, act: Act)
    requires Strong(j) && Possible(act) && Effect(j, act).Some?
    requires j.circuit == HalfOpen && Effect(j, act).value.circuit == HalfOpen
    ensures j.command.Some? && Effect(j, act).value.command.Some?
    ensures var c, d := j.command.value, Effect(j, act).value.command.value;
      d.dispatches != c.dispatches ==>
        && d.dispatches == c.dispatches + 1 && NowOf(act).Some?
        && (if c.claimedBy.Some? then c.leaseUntil.Some? && c.leaseUntil.value <= NowOf(act).value
            else j.nextAttempt.Some? && j.nextAttempt.value <= NowOf(act).value)
  {
    hide Backoff;
  }

  /** Every history of a journal is such a run. */
  lemma {:induction false} EveryRunIsPlayed(h: seq<Journal>) returns (acts: seq<Act>)
    requires Sound(h) && h != []
    ensures Played(h, acts) && h[0].circuit == Closed
    decreases |h|
  {
    hide Strong, Evolves, Acceptable, Effect, Possible;
    acts := [];
    if |h| > 1 {
      var last := |h| - 1;
      acts := EveryRunIsPlayed(h[..last]);
      assert ByAct(h[last - 1], h[last]);
      var act :| Possible(act) && Acceptable(h[last - 1], act) && Effect(h[last - 1], act) == Some(h[last]);
      acts := acts + [act];
      assert forall i :: 0 <= i < last ==> h[i] == h[..last][i];
    }
  }

  /** A run with the acts that made it. */
  predicate Played(h: seq<Journal>, acts: seq<Act>) {
    && |h| == |acts| + 1
    && (forall i :: 0 <= i < |h| ==> Strong(h[i]))
    && (forall i :: 0 <= i < |acts| ==> Possible(acts[i]) && Effect(h[i], acts[i]) == Some(h[i + 1]))
  }

  /**
   Each claim of a run comes no earlier than the attempt that was set when the circuit was last opened, and
   between two claims the circuit has been opened again.
   */
  lemma {:induction false} ClaimsAreSpaced(h: seq<Journal>, acts: seq<Act>, k: nat) returns (r: nat)
    requires Played(h, acts) && h[0].circuit != Open && k < |acts| && Claims(h[k], h[k + 1])
    ensures r < k && Opens(h[r], h[r + 1]) && SetsAttempt(h[r], acts[r], h[r + 1])
    ensures h[r + 1].nextAttempt.Some? && NowOf(acts[k]).Some?
    ensures h[r + 1].nextAttempt.value <= NowOf(acts[k]).value
    ensures forall i :: r < i <= k ==> h[i].circuit == Open && h[i].failures == h[k].failures
    ensures forall i :: 0 <= i < k && Claims(h[i], h[i + 1]) ==> i < r
  {
    hide Strong, Effect, Possible, SetsAttempt, NowOf;
    assert Effect(h[k], acts[k]) == Some(h[k + 1]);
    WritesWait(h[k], acts[k]);
    r := LastOpening(h, acts, k);
  }

  lemma {:induction false} LastOpening(h: seq<Journal>, acts: seq<Act>, k: nat) returns (r: nat)
    requires Played(h, acts) && h[0].circuit != Open && k < |h| && h[k].circuit == Open
    ensures r < k && Opens(h[r], h[r + 1]) && SetsAttempt(h[r], acts[r], h[r + 1])
    ensures h[r + 1].nextAttempt == h[k].nextAttempt
    ensures forall i :: r < i <= k ==> h[i].circuit == Open && h[i].failures == h[k].failures
    decreases k
  {
    hide Strong, Effect, Possible, SetsAttempt;
    assert Effect(h[k - 1], acts[k - 1]) == Some(h[k - 1 + 1]);
    WritesWait(h[k - 1], acts[k - 1]);
    if h[k - 1].circuit == Open {
      r := LastOpening(h, acts, k - 1);
    } else {
      r := k - 1;
    }
  }
}
