/**
 The journal of a managed Bridge supervisor and every write that a supervisor makes to it.

 Supervisors share the journal through compare-and-swap on its revision, so a run is a chain of
 effects, whoever makes them. Strong is the invariant that the journal's own validator leaves open.
 Instants are integers, identifiers are naturals, and a command id is the record it is hashed from.
 */
module SupervisorJournal {
  import opened Common

  datatype Recovery = Recovery(
    session: nat, lineage: nat, incarnation: nat, bundle: nat, vaultPath: nat, vault: nat,
    checkpointPath: nat, checkpoint: nat, sequence: nat)

  datatype Identity = Identity(
    project: nat, run: nat, thread: nat, root: nat, entry: nat, build: nat, recovery: Recovery)

  datatype Key = Key(project: nat, run: nat, thread: nat)

  datatype CommandId = CommandId(identity: Identity, fuse: nat, generation: nat)

  /** plain: the instance id has no white space, which the validator asks of a claimant. */
  datatype Instance = Instance(id: nat, plain: bool)

  datatype Command = Command(
    id: CommandId, generation: nat, fuse: nat, identity: Identity,
    claimedBy: Option<Instance>, leaseUntil: Option<int>, dispatches: nat)

  datatype Desired = Running | Stopped

  datatype Circuit = Closed | Open | HalfOpen | Blocked

  datatype Reason =
    | IdentityMismatch | InvalidObservation | ObservationMismatch | ProofRegression | WorkerBlocked
    | FuseRegression | FuseGap | FuseChangedWhileOpen | FuseChangedWhileHalfOpen | NoCommand
    | ResultMismatch | InvalidResult

  datatype Journal = Journal(
    key: Key, revision: nat, identity: Identity, desired: Desired, circuit: Circuit, failures: nat,
    generation: nat, fuse: Option<nat>, last: Option<nat>, command: Option<Command>,
    nextAttempt: Option<int>, reason: Option<Reason>)

  function KeyOf(identity: Identity): Key { Key(identity.project, identity.run, identity.thread) }

  predicate SameRun(a: Identity, b: Identity) {
    KeyOf(a) == KeyOf(b) && a.root == b.root && a.entry == b.entry && a.build == b.build
  }

  /** The recovery proof of a worker may move forward, never back, and only a new incarnation has a new session. */
  predicate ProofProgresses(a: Identity, b: Identity) {
    a == b ||
    (&& a.recovery.lineage == b.recovery.lineage
     && a.recovery.vaultPath == b.recovery.vaultPath
     && a.recovery.checkpointPath == b.recovery.checkpointPath
     && b.recovery.sequence >= a.recovery.sequence
     && b.recovery.incarnation >= a.recovery.incarnation
     && (b.recovery.incarnation > a.recovery.incarnation || b.recovery.session == a.recovery.session))
  }

  lemma ProgressIsPreorder(a: Identity, b: Identity, c: Identity)
    ensures ProofProgresses(a, a)
    ensures ProofProgresses(a, b) && ProofProgresses(b, c) ==> ProofProgresses(a, c)
    ensures ProofProgresses(a, b) <==> RecoveryProgresses(a.recovery, b.recovery)
  {
  }

  const BACKOFF_CAP: int := 1_800_000

  function BackoffBase(failures: nat): int
    requires failures > 0
  {
    if failures == 1 then 5_000
    else if failures == 2 then 30_000
    else if failures == 3 then 120_000
    else if failures == 4 then 600_000
    else 1_800_000
  }

  lemma Rounded(base: int, x: real)
    requires base % 5 == 0 && -(base as real * 0.2) <= x <= base as real * 0.2
    ensures -base <= 5 * (x + 0.5).Floor <= base
  {
  }

  /** managedBridgeBackoff; unit is the hash of identity, fuse and count, scaled to at most one. */
  function Backoff(failures: nat, unit: real): (delay: int)
    requires failures > 0 && 0.0 <= unit <= 1.0
    ensures 4_000 <= delay <= BACKOFF_CAP
    ensures 5 * delay >= 4 * BackoffBase(failures)
    ensures 5 * delay <= 6 * BackoffBase(failures)
  {
    var base := BackoffBase(failures);
    var spread := (unit * 2.0 - 1.0) * 0.2;
    Scaled(base as real, spread, 0.2);
    Rounded(base, base as real * spread);
    var jitter := (base as real * spread + 0.5).Floor;
    var raw := if base + jitter < 1 then 1 else base + jitter;
    if raw < BACKOFF_CAP then raw else BACKOFF_CAP
  }

  // ---------------------------------------------------------------------------
  // Validity
  // ---------------------------------------------------------------------------

  predicate CommandValid(j: Journal, c: Command) {
    && c.generation > 0 && c.fuse > 0 && c.dispatches > 0
    && c.identity == j.identity
    && c.generation == j.generation
    && Some(c.fuse) == j.fuse
    && (c.claimedBy.Some? ==> c.claimedBy.value.plain)
  }

  /** validateJournal. */
  predicate Valid(j: Journal) {
    && KeyOf(j.identity) == j.key
    && (j.fuse.Some? ==> j.fuse.value > 0 && j.last == j.fuse)
    && (j.command.Some? ==> CommandValid(j, j.command.value))
    && (j.circuit == HalfOpen <==> j.command.Some?)
    && if j.desired == Stopped then j.command == None && j.nextAttempt == None
       else match j.circuit
         case Closed => j.failures == 0 && j.fuse == None && j.nextAttempt == None && j.reason == None
         case Open => j.failures >= 1 && j.fuse.Some? && j.nextAttempt.Some? && j.reason == None
         case HalfOpen =>
           && j.failures >= 1 && j.fuse.Some? && j.reason == None
           && (if j.command.value.claimedBy.Some?
               then j.command.value.leaseUntil.Some? && j.nextAttempt == None
               else j.command.value.leaseUntil == None && j.nextAttempt.Some?)
         case Blocked => j.reason.Some? && j.command == None && j.nextAttempt == None
  }

  /** What every write keeps: a stopped journal is closed or blocked, and is so completely. */
  predicate Strong(j: Journal) {
    && Valid(j)
    && (j.desired == Stopped ==> j.circuit in {Closed, Blocked})
    && (j.circuit == Closed ==> j.failures == 0 && j.fuse == None && j.nextAttempt == None && j.reason == None)
    && (j.circuit == Blocked ==> j.reason.Some?)
  }

  // ---------------------------------------------------------------------------
  // Writes
  // ---------------------------------------------------------------------------

  datatype Observation =
    | Healthy(identity: Identity, fuse: nat)
    | FuseOpen(identity: Identity, fuse: nat)
    | Vague(identity: Identity, fuse: nat)
    | ReportsBlocked(identity: Identity)
    | Malformed

  datatype ResultKind = Recovered | StillOpen | CommandBlocked

  /** well: the result passes its own validation. */
  datatype Result = Result(kind: ResultKind, id: CommandId, generation: nat, fuse: nat, identity: Identity, well: bool)

  /** The clock, the instance that acts, and the hash its backoff is drawn from. */
  datatype Moment = Moment(now: int, instance: Instance, lease: nat, unit: real)

  predicate Timely(m: Moment) { 0.0 <= m.unit <= 1.0 }

  function Fresh(identity: Identity, desired: Desired): Journal {
    Journal(KeyOf(identity), 0, identity, desired, Closed, 0, 0, None, None, None, None, None)
  }

  function Due(nextAttempt: Option<int>, now: int): bool { nextAttempt.Some? && nextAttempt.value <= now }

  function Max(a: nat, b: nat): nat { if a < b then b else a }

  /** current.fuseGeneration ?? max(lastObserved ?? 0, observed). */
  function Observed(j: Journal, fuse: nat): nat {
    if j.fuse.Some? then j.fuse.value
    else Max(if j.last.Some? then j.last.value else 0, fuse)
  }

  /** advances: the active-subject registry is told of the new identity first. */
  datatype Decision =
    | Keep
    | Replace(next: Journal, advances: bool)
    | Claim(next: Journal)
    | BlockFor(reason: Reason)

  function CloseWith(j: Journal, identity: Identity, last: Option<nat>): Journal {
    j.(identity := identity, circuit := Closed, failures := 0, fuse := None, last := last, command := None,
       nextAttempt := None, reason := None)
  }

  predicate LastAbove(j: Journal, fuse: nat) { j.last.Some? && fuse < j.last.value }

  /** What both reconcilers check of an observation before they look at its kind. */
  function Screen(j: Journal, o: Observation): Option<Reason> {
    if o.Malformed? || (o.FuseOpen? && o.fuse == 0) then Some(InvalidObservation)
    else if !SameRun(o.identity, j.identity) then Some(ObservationMismatch)
    else if !ProofProgresses(j.identity, o.identity) then Some(ProofRegression)
    else if o.ReportsBlocked? then Some(WorkerBlocked)
    else None
  }

  /** reconcile with the circuit closed or open. */
  function Decide(j: Journal, o: Observation, m: Moment): Decision
    requires Timely(m)
  {
    var screened := Screen(j, o);
    if screened.Some? then BlockFor(screened.value)
    else
      var moved := o.identity != j.identity;
      if o.Vague? then
        var last := Observed(j, o.fuse);
        if !moved && j.last == Some(last) then Keep
        else Replace(j.(identity := o.identity, last := Some(last)), moved)
      else if LastAbove(j, o.fuse) then BlockFor(FuseRegression)
      else if o.Healthy? then
        if j.circuit == Closed && j.failures == 0 && j.command == None && !moved && j.last == Some(o.fuse) then Keep
        else Replace(CloseWith(j, o.identity, Some(o.fuse)), moved)
      else if j.circuit == Closed && j.last == Some(o.fuse) then
        if !moved then Keep else Replace(j.(identity := o.identity), true)
      else if j.circuit == Closed && j.last.Some? && o.fuse != j.last.value + 1 then BlockFor(FuseGap)
      else if j.circuit == Open && j.fuse != Some(o.fuse) then BlockFor(FuseChangedWhileOpen)
      else if j.circuit == Closed then
        Replace(j.(identity := o.identity, circuit := Open, failures := 1, fuse := Some(o.fuse), last := Some(o.fuse),
                   command := None, nextAttempt := Some(m.now + Backoff(1, m.unit)), reason := None), false)
      else if moved then Replace(j.(identity := o.identity), true)
      else if !Due(j.nextAttempt, m.now) || j.fuse == None then Keep
      else
        var id := CommandId(j.identity, j.fuse.value, j.generation + 1);
        Claim(j.(circuit := HalfOpen, generation := j.generation + 1, nextAttempt := None,
                 command := Some(Command(id, j.generation + 1, j.fuse.value, j.identity, Some(m.instance),
                                         Some(m.now + m.lease), 1))))
  }

  predicate LeaseLive(c: Command, now: int) { c.leaseUntil.Some? && c.leaseUntil.value > now }

  /** reconcile with the circuit half open. */
  function DecideHalfOpen(j: Journal, o: Observation, m: Moment): Decision
    requires Timely(m)
  {
    if j.command == None then BlockFor(NoCommand)
    else
      var c := j.command.value;
      if LeaseLive(c, m.now) || (c.claimedBy == None && !Due(j.nextAttempt, m.now)) then Keep
      else
        var screened := Screen(j, o);
        if screened.Some? then BlockFor(screened.value)
        else
          var moved := o.identity != j.identity;
          var retry := Some(m.now + Backoff(Max(1, j.failures), m.unit));
          if o.Healthy? then
            if LastAbove(j, o.fuse) then BlockFor(FuseRegression)
            else Replace(CloseWith(j, o.identity, Some(o.fuse)), moved)
          else if o.Vague? then
            if moved then
              Replace(j.(identity := o.identity, circuit := Open, command := None, nextAttempt := retry,
                         last := Some(Observed(j, o.fuse))), true)
            else
              Replace(j.(command := Some(c.(claimedBy := None, leaseUntil := None)), nextAttempt := retry,
                         last := Some(Observed(j, o.fuse))), false)
          else if Some(o.fuse) != j.fuse || o.fuse != c.fuse then BlockFor(FuseChangedWhileHalfOpen)
          else if moved then
            Replace(j.(identity := o.identity, circuit := Open, command := None, nextAttempt := Some(m.now),
                       last := Some(o.fuse)), true)
          else
            Claim(j.(command := Some(c.(claimedBy := Some(m.instance), leaseUntil := Some(m.now + m.lease),
                                        dispatches := c.dispatches + 1)),
                     nextAttempt := None))
  }

  /** reconcile, once the journal is loaded and the worker has been inspected. */
  function Reconciling(j: Journal, o: Observation, m: Moment): Decision
    requires Timely(m)
  {
    if j.desired == Stopped || j.circuit == Blocked then Keep
    else if j.circuit == HalfOpen then DecideHalfOpen(j, o, m)
    else Decide(j, o, m)
  }

  predicate Owns(j: Journal, c: Command, instance: Instance) {
    && j.circuit == HalfOpen && j.command.Some?
    && j.command.value.id == c.id && j.command.value.generation == c.generation && j.command.value.fuse == c.fuse
    && j.command.value.claimedBy == Some(instance) && j.command.value.identity == c.identity
  }

  /** recordCommandResult, for a command this instance still owns. */
  function Recording(j: Journal, c: Command, r: Result, m: Moment): Decision
    requires Timely(m)
  {
    if !Owns(j, c, m.instance) then Keep
    else if !r.well then BlockFor(InvalidResult)
    else if r.id != c.id || r.generation != c.generation || r.fuse != c.fuse || r.identity != c.identity
    then BlockFor(ResultMismatch)
    else if r.kind == CommandBlocked then BlockFor(WorkerBlocked)
    else if r.kind == Recovered then Replace(CloseWith(j, j.identity, Some(r.fuse)), false)
    else Replace(j.(circuit := Open, failures := j.failures + 1, fuse := Some(r.fuse), last := Some(r.fuse),
      command := None,
                    nextAttempt := Some(m.now + Backoff(j.failures + 1, m.unit)), reason := None), false)
  }

  /** recordLostResponse: the claim is given up, the command kept. */
  function Losing(j: Journal, c: Command, m: Moment): Decision
    requires Timely(m)
  {
    if !Owns(j, c, m.instance) then Keep
    else Replace(j.(command := Some(j.command.value.(claimedBy := None, leaseUntil := None)),
                    nextAttempt := Some(m.now + Backoff(Max(1, j.failures), m.unit)), reason := None), false)
  }

  function Stopping(j: Journal): Journal {
    if j.circuit == Blocked then j.(desired := Stopped, command := None, nextAttempt := None)
    else j.(desired := Stopped, circuit := Closed, failures := 0, fuse := None, command := None,
      nextAttempt := None, reason := None)
  }

  function Blocking(j: Journal, reason: Reason): Journal {
    j.(circuit := Blocked, command := None, nextAttempt := None, reason := Some(reason))
  }

  /** A release may change the entry and the build of a stopped Bridge, and nothing else. */
  predicate ReleaseMoves(a: Identity, b: Identity) {
    && KeyOf(a) == KeyOf(b) && a.root == b.root && a.recovery == b.recovery
    && (a.build != b.build || a.entry != b.entry)
  }

  /** The writes of any supervisor. */
  datatype Act =
    | Ensure(identity: Identity)
    | RequestStop(identity: Identity)
    | Reconcile(observation: Observation, moment: Moment)
    | Record(command: Command, result: Result, moment: Moment)
    | Lose(command: Command, moment: Moment)
    | Release(expected: Identity, next: Identity)
    | Block(reason: Reason)

  predicate Possible(act: Act) {
    match act
    case Reconcile(_, m) => Timely(m)
    case Record(_, _, m) => Timely(m)
    case Lose(_, m) => Timely(m)
    case Release(expected, next) => ReleaseMoves(expected, next)
    case _ => true
  }

  function Chosen(decision: Decision): Option<Journal> {
    match decision
    case Replace(next, _) => Some(next)
    case Claim(next) => Some(next)
    case _ => None
  }

  /** The journal an act would write over `j`, before its revision is raised. */
  function Patch(j: Journal, act: Act): Option<Journal>
    requires Possible(act)
  {
    match act
    case Ensure(identity) =>
      if SameRun(j.identity, identity) && j.desired == Stopped then Some(j.(desired := Running)) else None
    case RequestStop(identity) =>
      if SameRun(j.identity, identity) && j.desired == Running then Some(Stopping(j)) else None
    case Reconcile(o, m) => Chosen(Reconciling(j, o, m))
    case Record(c, r, m) => Chosen(Recording(j, c, r, m))
    case Lose(c, m) => Chosen(Losing(j, c, m))
    case Release(expected, next) =>
      if j.identity == expected && j.desired == Stopped then Some(CloseWith(j, next, j.last)) else None
    case Block(reason) => if j.circuit == Blocked then None else Some(Blocking(j, reason))
  }

  function Effect(j: Journal, act: Act): Option<Journal>
    requires Possible(act)
  {
    var patch := Patch(j, act);
    if patch.Some? then Some(patch.value.(revision := j.revision + 1)) else None
  }

  // ---------------------------------------------------------------------------
  // What every write keeps
  // ---------------------------------------------------------------------------

  predicate NeverFalls(a: Option<nat>, b: Option<nat>) { a.Some? ==> b.Some? && a.value <= b.value }

  predicate Claims(a: Journal, b: Journal) { a.circuit == Open && b.circuit == HalfOpen }

  predicate Released(a: Journal, b: Journal) {
    a.desired == Stopped && b.desired == Stopped && b.circuit == Closed && ReleaseMoves(a.identity, b.identity)
  }

  /** One write, as seen from outside. */
  predicate Evolves(a: Journal, b: Journal) {
    && b.key == a.key
    && b.revision == a.revision + 1
    && NeverFalls(a.last, b.last)
    && b.generation == a.generation + (if Claims(a, b) then 1 else 0)
    && (b.circuit == HalfOpen ==> a.circuit in {Open, HalfOpen})
    && (a.circuit == Blocked && b.circuit != Blocked ==> Released(a, b))
    && (Released(a, b) || (SameRun(a.identity, b.identity) && ProofProgresses(a.identity, b.identity)))
  }

  /** A claim is valid only for an instance whose id the validator accepts. */
  predicate Acceptable(j: Journal, act: Act)
    requires Possible(act)
  {
    act.Reconcile? && Reconciling(j, act.observation, act.moment).Claim? ==> act.moment.instance.plain
  }

  lemma DecideKeeps(j: Journal, o: Observation, m: Moment)
    requires Strong(j) && Timely(m) && j.desired == Running && j.circuit in {Closed, Open}
    requires Decide(j, o, m).Claim? ==> m.instance.plain
    ensures var c := Chosen(Decide(j, o, m));
      c.Some? ==> Strong(c.value) && Evolves(j, c.value.(revision := j.revision + 1))
  {
  }

  lemma HalfOpenKeeps(j: Journal, o: Observation, m: Moment)
    requires Strong(j) && Timely(m) && j.desired == Running && j.circuit == HalfOpen
    requires DecideHalfOpen(j, o, m).Claim? ==> m.instance.plain
    ensures var c := Chosen(DecideHalfOpen(j, o, m));
      c.Some? ==> Strong(c.value) && Evolves(j, c.value.(revision := j.revision + 1))
  {
  }

  lemma RecordingKeeps(j: Journal, c: Command, r: Result, m: Moment)
    requires Strong(j) && Timely(m)
    ensures var c := Chosen(Recording(j, c, r, m));
      c.Some? ==> Strong(c.value) && Evolves(j, c.value.(revision := j.revision + 1))
    ensures var c := Chosen(Losing(j, c, m));
      c.Some? ==> Strong(c.value) && Evolves(j, c.value.(revision := j.revision + 1))
  {
  }

  /** Every write of every supervisor keeps Strong, so none is ever refused by the validator. */
  lemma EffectKeeps(j: Journal, act: Act)
    requires Strong(j) && Possible(act) && Acceptable(j, act)
    ensures var b := Effect(j, act); b.Some? ==> Strong(b.value) && Evolves(j, b.value)
  {
    hide Decide, DecideHalfOpen, Recording, Losing, Evolves, Backoff;
    match act {
      case Reconcile(o, m) =>
        if j.desired == Running {
          if j.circuit == HalfOpen {
            HalfOpenKeeps(j, o, m);
          } else if j.circuit != Blocked {
            DecideKeeps(j, o, m);
          }
        }
      case Record(c, r, m) => RecordingKeeps(j, c, r, m);
      case Lose(c, m) =>
        RecordingKeeps(j, c, Result(Recovered, c.id, c.generation, c.fuse, c.identity, true), m);
      case _ => PlainKeeps(j, act);
    }
  }

  lemma PlainKeeps(j: Journal, act: Act)
    requires Strong(j) && Possible(act) && (act.Ensure? || act.RequestStop? || act.Release? || act.Block?)
    ensures var b := Effect(j, act); b.Some? ==> Strong(b.value) && Evolves(j, b.value)
  {
  }

  /**
   The validator alone is not enough: it accepts a stopped journal whose restart it would refuse.
   A valid stopped journal can be restarted exactly when it is strong.
   */
  lemma RestartNeedsStrong(j: Journal, identity: Identity)
    requires Valid(j) && j.desired == Stopped && SameRun(j.identity, identity)
    ensures Effect(j, Ensure(identity)).Some?
    ensures Valid(Effect(j, Ensure(identity)).value) <==> Strong(j)
  {
  }

  lemma ValidIsNotInductive() returns (j: Journal, b: Journal)
    ensures Valid(j) && j.desired == Stopped && j.circuit == Open
    ensures Effect(j, Ensure(j.identity)) == Some(b) && !Valid(b)
  {
    var identity := Identity(0, 0, 0, 0, 0, 0, Recovery(0, 0, 1, 0, 0, 0, 0, 0, 0));
    j := Journal(KeyOf(identity), 0, identity, Stopped, Open, 1, 0, Some(1), Some(1), None, None, None);
    b := Effect(j, Ensure(identity)).value;
  }

  /** An instance whose id has white space can be constructed, but none of its claims is ever valid. */
  lemma ClaimNeedsPlainInstance(j: Journal, act: Act)
    requires Strong(j) && Possible(act) && Effect(j, act).Some?
    ensures Valid(Effect(j, act).value) <==> Acceptable(j, act)
  {
    hide Backoff;
    if Acceptable(j, act) {
      EffectKeeps(j, act);
    }
  }

  /** A due probe by an instance with white space in its id: the claim it would write is refused. */
  lemma ClaimIsRefused() returns (j: Journal, act: Act)
    ensures Strong(j) && Possible(act) && Effect(j, act).Some? && !Valid(Effect(j, act).value)
  {
    var identity := Identity(0, 0, 0, 0, 0, 0, Recovery(0, 0, 1, 0, 0, 0, 0, 0, 0));
    j := Journal(KeyOf(identity), 0, identity, Running, Open, 1, 0, Some(1), Some(1), None, Some(0), None);
    act := Reconcile(FuseOpen(identity, 1), Moment(0, Instance(0, false), 0, 0.0));
  }

  /** A live lease keeps every other reconciler from writing, whatever it observes. */
  lemma LeaseProtects(j: Journal, o: Observation, m: Moment)
    requires Strong(j) && Timely(m) && j.circuit == HalfOpen && LeaseLive(j.command.value, m.now)
    ensures Effect(j, Reconcile(o, m)) == None
    ensures forall r, c :: !Owns(j, c, m.instance) ==> Effect(j, Record(c, r, m)) == None
  {
  }

  // ---------------------------------------------------------------------------
  // Runs
  // ---------------------------------------------------------------------------

  /** Some supervisor's act leads from `a` to `b`. */
  ghost predicate ByAct(a: Journal, b: Journal) {
    exists act :: Possible(act) && Acceptable(a, act) && Effect(a, act) == Some(b)
  }

  /** A chain of strong journals: a fresh one, and then each one write after the one before. */
  ghost predicate Sound(h: seq<Journal>) {
    && (h != [] ==> h[0] == Fresh(h[0].identity, h[0].desired))
    && (forall i :: 0 <= i < |h| ==> Strong(h[i]) && h[i].revision == i)
    && (forall i :: 0 < i < |h| ==> Evolves(h[i - 1], h[i]) && ByAct(h[i - 1], h[i]))
  }

  /** How many of the writes after `from` opened a probe. */
  function ClaimCount(h: seq<Journal>, from: nat, to: nat): nat
    requires from <= to < |h|
  {
    if from == to then 0 else ClaimCount(h, from, to - 1) + (if Claims(h[to - 1], h[to]) then 1 else 0)
  }

  predicate RecoveryProgresses(a: Recovery, b: Recovery) {
    && a.lineage == b.lineage && a.vaultPath == b.vaultPath && a.checkpointPath == b.checkpointPath
    && a.sequence <= b.sequence && a.incarnation <= b.incarnation
    && (a.incarnation == b.incarnation ==> a.session == b.session)
  }

  /**
   Along a run the observed fuse generation, the recovery sequence and the incarnation never fall, every
   command generation is one probe, and a blocked journal stays blocked until a release of a stopped Bridge.
   */
  lemma {:induction false} AlongRun(h: seq<Journal>, i: nat, k: nat)
    requires Sound(h) && i <= k < |h|
    ensures h[k].key == h[i].key && NeverFalls(h[i].last, h[k].last)
    ensures RecoveryProgresses(h[i].identity.recovery, h[k].identity.recovery)
    ensures h[k].generation == h[i].generation + ClaimCount(h, i, k)
    ensures h[i].circuit == Blocked ==> h[k].circuit == Blocked || exists r :: i < r <= k && Released(h[r - 1], h[r])
    decreases k - i
  {
    hide Strong, Evolves, ByAct, Fresh, Released;
    if i < k {
      AlongRun(h, i, k - 1);
      EvolvesFacts(h[k - 1], h[k]);
      if h[k - 1].circuit == Blocked && h[k].circuit != Blocked {
        assert i < k <= k && Released(h[k - 1], h[k]);
      }
    }
  }

  lemma EvolvesFacts(a: Journal, b: Journal)
    requires Evolves(a, b)
    ensures b.key == a.key && NeverFalls(a.last, b.last)
    ensures RecoveryProgresses(a.identity.recovery, b.identity.recovery)
    ensures b.generation == a.generation + (if Claims(a, b) then 1 else 0)
    ensures a.circuit == Blocked && b.circuit != Blocked ==> Released(a, b)
  {
  }

  /** An open fuse seen again once the next attempt is due. */
  predicate ProbeDue(j: Journal, m: Moment) {
    Strong(j) && j.desired == Running && j.circuit == Open && Due(j.nextAttempt, m.now) && Timely(m) && m.instance.plain
  }

  /** The answer to a command, as it ought to be. */
  function Answering(c: Command, kind: ResultKind): Result {
    Result(kind, c.id, c.generation, c.fuse, c.identity, true)
  }

  /** What a probe comes to: a recovery closes the circuit, a fuse still open counts as one more failure. */
  lemma ProbeCycle(j: Journal, m: Moment, later: Moment)
    requires Strong(j) && j.desired == Running && j.circuit == Open
    requires j.nextAttempt.Some? && j.nextAttempt.value <= m.now
    requires Timely(m) && m.instance.plain && Timely(later) && later.instance == m.instance
    ensures j.fuse.Some?
    ensures var claimed := Effect(j, Reconcile(FuseOpen(j.identity, j.fuse.value), m));
      && claimed.Some? && claimed.value.circuit == HalfOpen && claimed.value.generation == j.generation + 1
      && claimed.value.command.Some?
      && var b, c := claimed.value, claimed.value.command.value;
         var recovered := Effect(b, Record(c, Answering(c, Recovered), later));
         var reopened := Effect(b, Record(c, Answering(c, StillOpen), later));
         && recovered.Some? && recovered.value.circuit == Closed && recovered.value.failures == 0
         && recovered.value.last == j.fuse && recovered.value.generation == j.generation + 1
         && reopened.Some? && reopened.value.circuit == Open && reopened.value.failures == j.failures + 1
         && reopened.value.fuse == j.fuse
         && reopened.value.nextAttempt == Some(later.now + Backoff(j.failures + 1, later.unit))
  {
    hide Backoff, Valid;
    ProbeIsClaimed(j, m);
  }

  lemma ProbeIsClaimed(j: Journal, m: Moment)
    requires ProbeDue(j, m)
    ensures j.fuse.Some? && j.fuse.value > 0 && j.last == j.fuse
    ensures Reconciling(j, FuseOpen(j.identity, j.fuse.value), m).Claim?
  {
    hide Backoff;
    ProgressIsPreorder(j.identity, j.identity, j.identity);
  }

  /** A command whose answer is lost is dispatched again as the same command, under the same generation. */
  lemma LostCommandIsRetried(j: Journal, m: Moment, lost: Moment, retry: Moment)
    requires Strong(j) && j.desired == Running && j.circuit == Open
    requires j.nextAttempt.Some? && j.nextAttempt.value <= m.now
    requires Timely(m) && m.instance.plain && lost.instance == m.instance
    requires Timely(lost) && Timely(retry) && retry.instance.plain
    requires retry.now >= lost.now + Backoff(Max(1, j.failures), lost.unit)
    ensures j.fuse.Some?
    ensures var open := FuseOpen(j.identity, j.fuse.value);
      var claimed := Effect(j, Reconcile(open, m));
      && claimed.Some? && claimed.value.command.Some?
      && var c := claimed.value.command.value;
         var kept := Effect(claimed.value, Lose(c, lost));
         && kept.Some?
         && var again := Effect(kept.value, Reconcile(open, retry));
            && again.Some? && again.value.circuit == HalfOpen && again.value.generation == j.generation + 1
            && again.value.command == Some(c.(claimedBy := Some(retry.instance),
                                              leaseUntil := Some(retry.now + retry.lease), dispatches := 2))
  {
    hide Backoff, Valid;
    ProbeIsClaimed(j, m);
  }
}
