/**
 The owner of a CONTROL ticket's renewals: when it tries, when it tries again, and when it gives up.

 Times are milliseconds as real numbers, on a clock that never goes back. The hash that spreads renewals
 is a function into [0, 1].
 */
module TicketRenewal {
  import opened Common

  datatype Session = Session(project: nat, id: nat, lineage: nat, incarnation: int, run: nat, installation: nat)

  type Unit = x: real | 0.0 <= x <= 1.0

  /** An instant is None where its text is no date; `named` says that no identifier is missing or malformed. */
  datatype Lease = Lease(
    bundle: nat, session: Session, named: bool,
    activatedAt: Option<int>, expiresAt: Option<int>, serverNow: Option<int>, observedAt: Option<int>)

  datatype Error = Invariant | TypeError | Status(code: int) | Other

  datatype Answer = Renewed(next: Lease) | Failed(error: Error)

  datatype Options = Options(
    lead: real, jitter: real, retryInitial: real, retryMax: real, margin: real,
    renewUnit: nat -> Unit, retryUnit: (nat, nat) -> Unit)

  const MAX_DELAY: real := 2147483647.0

  predicate OptionsOk(o: Options) {
    && o.lead > 0.0 && o.jitter >= 0.0 && o.retryInitial > 0.0 && o.retryMax > 0.0 && o.margin > 0.0
    && o.lead > o.jitter + o.margin
  }

  function Ceil(x: real): int { -((-x).Floor) }

  /** Date cuts the fraction off, towards 1970. */
  function Trunc(x: real): int { if x >= 0.0 then x.Floor else Ceil(x) }

  function Min(x: real, y: real): real { if x <= y then x else y }

  function Max(x: real, y: real): real { if x >= y then x else y }

  /** assertLease. */
  function CheckLease(l: Lease): Option<Error> {
    if !l.named || l.session.incarnation < 1 then Some(Invariant)
    else if l.expiresAt == None || l.activatedAt == None then Some(TypeError)
    else if l.expiresAt.value <= l.activatedAt.value then Some(Invariant)
    else if l.serverNow == None || l.observedAt == None then Some(TypeError)
    else None
  }

  predicate LeaseOk(l: Lease) { CheckLease(l) == None }

  predicate Succeeds(next: Lease, current: Lease)
    requires LeaseOk(next) && LeaseOk(current)
  {
    next.bundle != current.bundle && next.session == current.session && next.expiresAt.value > current.expiresAt.value
  }

  function CheckSuccessor(current: Lease, next: Lease): Option<Error>
    requires LeaseOk(current)
  {
    if !LeaseOk(next) then CheckLease(next) else if Succeeds(next, current) then None else Some(Invariant)
  }

  predicate Retryable(e: Error) {
    match e
    case Invariant => false
    case TypeError => true
    case Status(n) => n == 408 || n == 429 || n >= 500
    case Other => false
  }

  function LocalExpiry(l: Lease): int
    requires LeaseOk(l)
  {
    l.observedAt.value + (l.expiresAt.value - l.serverNow.value)
  }

  function Deadline(o: Options, l: Lease): real
    requires LeaseOk(l)
  {
    LocalExpiry(l) as real - o.margin
  }

  function Jitter(u: Unit, most: real): real { (u * 2.0 - 1.0) * most }

  function Target(o: Options, l: Lease): real
    requires LeaseOk(l)
  {
    LocalExpiry(l) as real - o.lead + Jitter(o.renewUnit(l.bundle), o.jitter)
  }

  function NextRenewalAt(o: Options, l: Lease): int
    requires LeaseOk(l)
  {
    Trunc(Target(o, l))
  }

  lemma TargetIsEarly(o: Options, l: Lease)
    requires OptionsOk(o) && LeaseOk(l)
    ensures LocalExpiry(l) as real - o.lead - o.jitter <= Target(o, l) <= LocalExpiry(l) as real - o.lead + o.jitter
    ensures Target(o, l) < Deadline(o, l)
  {
    hide Jitter;
    JitterIsBounded(o.renewUnit(l.bundle), o.jitter);
  }

  /** What the Hub's clock reads at a local instant, if both have gone on alike since the lease was observed. */
  function HubClock(l: Lease, local: real): real
    requires LeaseOk(l)
  {
    l.serverNow.value as real + (local - l.observedAt.value as real)
  }

  /**
   The deadline is the margin before the ticket expires, by the Hub's clock, however far the local one is apart; and
   the first renewal is aimed at the lead before it, give or take the jitter.
   */
  lemma DeadlineOnHubClock(o: Options, l: Lease)
    requires OptionsOk(o) && LeaseOk(l)
    ensures HubClock(l, Deadline(o, l)) == l.expiresAt.value as real - o.margin
    ensures HubClock(l, Target(o, l)) == l.expiresAt.value as real - o.lead + Jitter(o.renewUnit(l.bundle), o.jitter)
    ensures o.renewUnit(l.bundle) == 0.0 ==> HubClock(l, Target(o, l)) == l.expiresAt.value as real - o.lead - o.jitter
    ensures o.renewUnit(l.bundle) == 1.0 ==> HubClock(l, Target(o, l)) == l.expiresAt.value as real - o.lead + o.jitter
  {
  }

  /** A clock that is `d` ahead does everything `d` later, as long as no instant crosses 1970. */
  lemma ClocksApart(o: Options, l: Lease, d: int, failures: nat, now: real)
    requires OptionsOk(o) && LeaseOk(l)
    ensures var m := l.(observedAt := Some(l.observedAt.value + d));
      && LeaseOk(m) && Deadline(o, m) == Deadline(o, l) + d as real && Target(o, m) == Target(o, l) + d as real
      && RetryAt(o, m, failures, now + d as real) == RetryAt(o, l, failures, now) + d as real
      && (Target(o, l) >= 0.0 && Target(o, m) >= 0.0 ==> NextRenewalAt(o, m) == NextRenewalAt(o, l) + d)
  {
    hide Delay, Jitter;
    FloorShifts(Target(o, l), d);
  }

  lemma FloorShifts(x: real, d: int)
    ensures (x + d as real).Floor == x.Floor + d
  {
  }

  lemma WithinUnit(factor: real, most: real)
    requires -1.0 <= factor <= 1.0 && most >= 0.0
    ensures -most <= factor * most <= most
  {
    Scaled(most, factor, 1.0);
  }

  lemma JitterIsBounded(u: Unit, most: real)
    requires most >= 0.0
    ensures -most <= Jitter(u, most) <= most
  {
    var factor := u * 2.0 - 1.0;
    assert -1.0 <= factor <= 1.0;
    WithinUnit(factor, most);
    assert Jitter(u, most) == factor * most;
  }

  /**
   The first renewal falls strictly before the safety deadline, for every instant from 1970 on, and for
   every earlier one when the lead exceeds jitter and margin by a millisecond. Otherwise cutting the fraction off
   moves an instant before 1970 forward, and may move it past the deadline.
   */
  lemma FirstRenewalIsBeforeDeadline(o: Options, l: Lease)
    requires OptionsOk(o) && LeaseOk(l)
    ensures NextRenewalAt(o, l) as real < Deadline(o, l) <==>
      Deadline(o, l) > 0.0 || Ceil(Target(o, l)) as real < Deadline(o, l)
    ensures o.lead >= o.jitter + o.margin + 1.0 ==> NextRenewalAt(o, l) as real < Deadline(o, l)
    ensures NextRenewalAt(o, l) <= Ceil(Deadline(o, l))
  {
    TargetIsEarly(o, l);
  }

  const FRACTIONAL := Options(2.5, 0.0, 1.0, 1.0, 2.25, _ => 0.5, (_, _) => 0.5)

  const EARLY := Lease(1, Session(1, 1, 1, 1, 1, 1), true, Some(0), Some(1), Some(0), Some(0))

  lemma FractionsBefore1970()
    ensures OptionsOk(FRACTIONAL) && LeaseOk(EARLY)
    ensures NextRenewalAt(FRACTIONAL, EARLY) as real >= Deadline(FRACTIONAL, EARLY)
  {
    hide Target, Deadline, Trunc;
    TargetOfEarly();
    DeadlineOfEarly();
    assert Trunc(-1.5) == -1 by { CutsTo1(); }
  }

  lemma CutsTo1()
    ensures Trunc(-1.5) == -1
  {
  }

  lemma TargetOfEarly()
    ensures LeaseOk(EARLY) && Target(FRACTIONAL, EARLY) == -1.5
  {
    hide Target;
    TargetIsEarly(FRACTIONAL, EARLY);
  }

  lemma DeadlineOfEarly()
    ensures LeaseOk(EARLY) && Deadline(FRACTIONAL, EARLY) == -1.25
  {
    assert EARLY.observedAt.value == 0 && EARLY.expiresAt.value == 1 && EARLY.serverNow.value == 0;
    assert LocalExpiry(EARLY) == 1;
    assert FRACTIONAL.margin == 2.25;
    Subtracts(1, FRACTIONAL.margin);
  }

  lemma Subtracts(expiry: int, margin: real)
    requires expiry == 1 && margin == 2.25
    ensures expiry as real - margin == -1.25
  {
  }

  function Pow2(n: nat): nat { if n == 0 then 1 else 2 * Pow2(n - 1) }

  function Scale(o: Options, exponent: nat): real { o.retryInitial * Pow2(exponent) as real }

  function Nominal(o: Options, failures: nat): real {
    Min(Max(o.retryInitial, o.retryMax), Scale(o, if failures < 20 then failures else 20))
  }

  function Spread(x: real, u: Unit): real { x * (0.8 + u * 0.4) }

  function Delay(o: Options, bundle: nat, failures: nat): real {
    Max(1.0, (Spread(Nominal(o, failures), o.retryUnit(bundle, failures)) + 0.5).Floor as real)
  }

  function RetryAt(o: Options, l: Lease, failures: nat, now: real): real
    requires LeaseOk(l)
  {
    Min(now + Delay(o, l.bundle, failures), Deadline(o, l))
  }

  /** A retry waits at least a millisecond, at most a fifth above the longest delay, and never past the deadline. */
  lemma RetryIsBounded(o: Options, l: Lease, failures: nat, now: real)
    requires OptionsOk(o) && LeaseOk(l) && now < Deadline(o, l)
    ensures now < RetryAt(o, l, failures, now) <= Deadline(o, l)
    ensures RetryAt(o, l, failures, now) >= now + 1.0 || RetryAt(o, l, failures, now) == Deadline(o, l)
    ensures RetryAt(o, l, failures, now) <= now + Max(1.0, 1.2 * Max(o.retryInitial, o.retryMax) + 0.5)
  {
    var nominal, most := Nominal(o, failures), Max(o.retryInitial, o.retryMax);
    var spread := Spread(nominal, o.retryUnit(l.bundle, failures));
    Pow2IsPositive(if failures < 20 then failures else 20);
    SpreadIsBounded(nominal, most, o.retryUnit(l.bundle, failures));
    Rounded(spread);
  }

  /** Each retry doubles the one before, up to the longest, and is spread a fifth to either side. */
  lemma DelaysDouble(o: Options, bundle: nat, failures: nat)
    requires OptionsOk(o)
    ensures Nominal(o, 0) == o.retryInitial
    ensures Nominal(o, failures) <= Max(o.retryInitial, o.retryMax)
    ensures failures < 20 ==>
      Nominal(o, failures + 1) == Min(Max(o.retryInitial, o.retryMax), 2.0 * Nominal(o, failures))
    ensures failures >= 20 ==> Nominal(o, failures + 1) == Nominal(o, failures)
    ensures var spread := Spread(Nominal(o, failures), o.retryUnit(bundle, failures));
      Delay(o, bundle, failures) >= 1.0 &&
      (Delay(o, bundle, failures) == 1.0 || spread - 0.5 < Delay(o, bundle, failures) <= spread + 0.5)
  {
    hide Nominal, Spread, Delay;
    FirstDelay(o);
    NominalDoubles(o, failures);
    DelayIsRounded(o, bundle, failures);
  }

  lemma FirstDelay(o: Options)
    requires OptionsOk(o)
    ensures Nominal(o, 0) == o.retryInitial
  {
    assert Pow2(0) == 1;
    assert Scale(o, 0) == o.retryInitial;
  }

  lemma NominalDoubles(o: Options, failures: nat)
    requires OptionsOk(o)
    ensures Nominal(o, failures) <= Max(o.retryInitial, o.retryMax)
    ensures failures < 20 ==>
      Nominal(o, failures + 1) == Min(Max(o.retryInitial, o.retryMax), 2.0 * Nominal(o, failures))
    ensures failures >= 20 ==> Nominal(o, failures + 1) == Nominal(o, failures)
  {
    hide Scale;
    ScaleDoubles(o, failures);
  }

  lemma ScaleDoubles(o: Options, exponent: nat)
    requires OptionsOk(o)
    ensures Scale(o, exponent + 1) == 2.0 * Scale(o, exponent) && Scale(o, exponent) >= 0.0
  {
    hide Pow2;
    Pow2IsPositive(exponent);
    NextPow2(exponent);
    Twice(o.retryInitial, Pow2(exponent));
    Product(o.retryInitial, 0.0, Pow2(exponent) as real);
  }

  lemma NextPow2(n: nat)
    ensures Pow2(n + 1) == 2 * Pow2(n)
  {
  }

  lemma Twice(x: real, n: nat)
    ensures x * (2 * n) as real == 2.0 * (x * n as real)
  {
  }

  lemma DelayIsRounded(o: Options, bundle: nat, failures: nat)
    ensures var spread := Spread(Nominal(o, failures), o.retryUnit(bundle, failures));
      Delay(o, bundle, failures) >= 1.0 &&
      (Delay(o, bundle, failures) == 1.0 || spread - 0.5 < Delay(o, bundle, failures) <= spread + 0.5)
  {
    hide Nominal, Spread;
    Rounded(Spread(Nominal(o, failures), o.retryUnit(bundle, failures)));
  }

  lemma SpreadEnds(x: real)
    ensures Spread(x, 0.0) == 0.8 * x && Spread(x, 0.5) == x && Spread(x, 1.0) == 1.2 * x
  {
  }

  lemma SpreadIsBounded(x: real, most: real, u: Unit)
    requires x <= most && most > 0.0
    ensures Spread(x, u) <= 1.2 * most
  {
    var f := 0.8 + u * 0.4;
    Product(f, x, most);
    Product(most, f, 1.2);
    assert Spread(x, u) == f * x && f * most == most * f;
  }

  lemma Rounded(x: real)
    ensures (x + 0.5).Floor as real <= x + 0.5
  {
  }

  lemma {:induction false} Pow2IsPositive(n: nat)
    ensures Pow2(n) > 0
  {
    if n > 0 {
      Pow2IsPositive(n - 1);
    }
  }

  /** Attempts left: one at the deadline, and before it one a millisecond at the most. */
  function AttemptsLeft(o: Options, l: Lease, at: real): (n: nat)
    requires LeaseOk(l)
    ensures n == 1 <==> at >= Deadline(o, l)
    ensures n >= 1
  {
    if at >= Deadline(o, l) then 1 else 1 + Ceil(Deadline(o, l) - at)
  }

  lemma AttemptsRunOut(o: Options, l: Lease, at: real, later: real)
    requires LeaseOk(l) && at < Deadline(o, l) && (later >= at + 1.0 || later >= Deadline(o, l))
    ensures AttemptsLeft(o, l, later) < AttemptsLeft(o, l, at)
  {
  }

  predicate Chained(chain: seq<Lease>) {
    && (forall i :: 0 <= i < |chain| ==> LeaseOk(chain[i]))
    && forall i :: 0 < i < |chain| ==> Succeeds(chain[i], chain[i - 1])
  }

  /** Along the whole chain of leases the session stays the same and the expiry rises. */
  lemma {:induction false} ChainKeepsBinding(chain: seq<Lease>, i: nat, j: nat)
    requires Chained(chain) && i < j < |chain|
    ensures chain[j].session == chain[i].session && chain[j].expiresAt.value > chain[i].expiresAt.value
    decreases j
  {
    assert Succeeds(chain[j], chain[j - 1]);
    if i < j - 1 {
      ChainKeepsBinding(chain, i, j - 1);
    }
  }

  /** A timer set for `at` may fire as soon as `due`: a delay has a largest value. */
  datatype Timer = Timer(at: real, due: real)

  class Renewal {
    const o: Options
    var lease: Lease
    var timer: Option<Timer>
    var inFlight: Option<Lease>
    var failureCount: nat
    var started: bool
    var stopped: bool
    var critical: bool
    var now: real
    /** Every lease held so far. */
    ghost var chain: seq<Lease>
    /** How many attempts have begun, and how many have been answered. */
    ghost var begun: nat
    ghost var settled: nat

    predicate Running()
      reads `started, `stopped
    {
      started && !stopped
    }

    ghost predicate Valid()
      reads this
    {
      && OptionsOk(o) && Chained(chain) && |chain| > 0 && chain[|chain| - 1] == lease && LeaseOk(lease)
      && begun == settled + (if inFlight.Some? then 1 else 0)
      && (inFlight.Some? ==> inFlight.value == lease && !critical)
      && (timer.Some? ==> Running() && timer.value.at <= Ceil(Deadline(o, lease)) as real)
      && (Running() && !critical ==> timer.Some? || inFlight.Some?)
    }

    constructor (o: Options, lease: Lease, now: real)
      requires Accepts(o, lease, now)
      ensures Valid() && this.o == o && this.lease == lease && this.now == now && chain == [lease]
      ensures timer == None && inFlight == None && !started && !stopped && !critical
    {
      this.o, this.lease, this.now := o, lease, now;
      timer, inFlight, failureCount := None, None, 0;
      started, stopped, critical, chain := false, false, false, [lease];
      begun, settled := 0, 0;
    }

    method Tick(to: real)
      requires Valid() && to >= now
      modifies `now
      ensures Valid() && now == to
    {
      now := to;
    }

    method ScheduleAt(at: real)
      modifies `timer
      ensures timer == if Running() then Some(Timer(at, now + Min(MAX_DELAY, Max(1.0, at - now)))) else old(timer)
    {
      if !Running() {
        return;
      }
      timer := Some(Timer(at, now + Min(MAX_DELAY, Max(1.0, at - now))));
    }

    /** A stopped owner cannot start again. */
    method Start() returns (ok: bool)
      requires Valid()
      modifies `started, `timer
      ensures Valid()
      ensures ok == !stopped && started == (ok || old(started))
      ensures if ok && !old(started) then timer.Some? && timer.value.at == NextRenewalAt(o, lease) as real
        else timer == old(timer)
    {
      if stopped {
        return false;
      }
      if !started {
        started := true;
        FirstRenewalIsBeforeDeadline(o, lease);
        ScheduleAt(NextRenewalAt(o, lease) as real);
      }
      return true;
    }

    method Stop()
      requires Valid()
      modifies `started, `stopped, `timer
      ensures Valid() && stopped && timer == None
    {
      started, stopped, timer := false, true, None;
    }

    /** An attempt begins, for the lease held. */
    method Begin()
      modifies `timer, `inFlight, `begun
      ensures timer == None && inFlight == Some(lease) && begun == old(begun) + 1
    {
      timer, inFlight, begun := None, Some(lease), begun + 1;
    }

    /** At most one renewal is in flight: with one begun and not answered, no other begins. */
    method RenewNow()
      requires Valid()
      modifies `timer, `inFlight, `begun
      ensures Valid()
      ensures if stopped || critical || old(begun) > settled
        then begun == old(begun) && inFlight == old(inFlight) && timer == old(timer)
        else begun == old(begun) + 1 && inFlight == Some(lease) && timer == None
    {
      if stopped || critical || inFlight.Some? {
        return;
      }
      Begin();
    }

    /** The timer fires: too early, it is set again. */
    method Fire()
      requires Valid() && timer.Some? && now >= timer.value.due
      modifies `timer, `inFlight, `begun
      ensures Valid()
      ensures if now < old(timer).value.at
        then
          && begun == old(begun) && inFlight == old(inFlight)
          && timer.Some? && timer.value.at == old(timer).value.at && timer.value.due >= now + 1.0
        else
          && timer == None && begun == old(begun) + (if critical || old(begun) > settled then 0 else 1)
          && inFlight == if critical then old(inFlight) else Some(lease)
    {
      var at := timer.value.at;
      timer := None;
      if now < at {
        ScheduleAt(at);
      } else if !stopped && !critical && inFlight == None {
        Begin();
      }
    }

    /** The attempt in flight is answered. */
    method Settle(answer: Answer)
      requires Valid() && inFlight.Some?
      modifies `lease, `timer, `inFlight, `failureCount, `critical, `chain, `settled
      ensures Valid() && inFlight == None && settled == old(settled) + 1
      ensures ErrorOf(old(lease), answer) == None ==>
        && lease == answer.next && chain == old(chain) + [lease] && failureCount == 0 && !critical
        && (Running() ==> timer.Some? && timer.value.at == NextRenewalAt(o, lease) as real)
      ensures ErrorOf(old(lease), answer).Some? ==>
        && lease == old(lease) && chain == old(chain)
        && critical == GivesUp(o, lease, ErrorOf(old(lease), answer).value, now)
        && (critical ==> timer == None)
        && (!critical && Running() ==>
              && failureCount == old(failureCount) + 1
              && timer.Some? && timer.value.at == RetryAt(o, lease, old(failureCount), now) <= Deadline(o, lease))
    {
      hide NextRenewalAt, Target, RetryAt, Delay, Nominal, Retryable;
      var current := inFlight.value;
      inFlight, settled := None, settled + 1;
      var error := ErrorOf(current, answer);
      if error == None {
        lease, failureCount, chain := answer.next, 0, chain + [answer.next];
        FirstRenewalIsBeforeDeadline(o, lease);
        ScheduleAt(NextRenewalAt(o, lease) as real);
      } else if GivesUp(o, current, error.value, now) {
        critical, timer := true, None;
      } else if Running() && lease.bundle == current.bundle {
        RetryIsBounded(o, current, failureCount, now);
        failureCount := failureCount + 1;
        ScheduleAt(RetryAt(o, current, failureCount - 1, now));
      }
    }

    /**
     A renewal that only ever fails becomes CRITICAL: however late each timer fires and however long each
     attempt takes, after no more attempts than there were left.
     */
    method Exhaust(late: nat -> nat, took: nat -> nat, errors: nat -> Error) returns (attempts: nat)
      requires Valid() && Running() && !critical && inFlight == None && timer.Some?
      modifies `timer, `inFlight, `failureCount, `critical, `now, `lease, `chain, `begun, `settled
      ensures Valid() && critical && timer == None && inFlight == None && lease == old(lease)
      ensures now >= Deadline(o, lease) || exists n :: !Retryable(errors(n))
      ensures 1 <= attempts <= AttemptsLeft(o, lease, old(timer).value.at)
      ensures settled == begun == old(begun) + attempts
    {
      hide Chained, RetryAt, Delay, Nominal, Retryable;
      attempts := 0;
      var turn: nat := 0;
      while !critical
        invariant Valid() && Running() && inFlight == None && lease == old(lease)
        invariant begun == old(begun) + attempts
        invariant if critical then timer == None && attempts >= 1 else timer.Some?
        invariant critical ==> turn > 0 && (now >= Deadline(o, lease) || !Retryable(errors(turn - 1)))
        invariant attempts + (if critical then 0 else AttemptsLeft(o, lease, timer.value.at))
                  <= AttemptsLeft(o, lease, old(timer).value.at)
        decreases if critical then 0 else AttemptsLeft(o, lease, timer.value.at), TimeLeft()
      {
        Tick(Max(now, timer.value.due) + late(turn) as real);
        ghost var at := timer.value.at;
        Fire();
        if inFlight.Some? {
          Tick(now + took(turn) as real);
          ghost var failures := failureCount;
          Settle(Failed(errors(turn)));
          attempts := attempts + 1;
          if !critical {
            RetryIsBounded(o, lease, failures, now);
            AttemptsRunOut(o, lease, at, timer.value.at);
          }
        }
        turn := turn + 1;
      }
    }

    /** How often the timer may still fire too early. */
    ghost function TimeLeft(): nat
      reads `timer, `now
    {
      if timer == None then 0
      else
        (if timer.value.at > now then Ceil(timer.value.at - now) else 0)
        + (if timer.value.due < now + 1.0 then 1 else 0)
    }
  }

  predicate Accepts(o: Options, lease: Lease, now: real) {
    OptionsOk(o) && LeaseOk(lease) && LocalExpiry(lease) as real > now
  }

  function ErrorOf(current: Lease, answer: Answer): Option<Error>
    requires LeaseOk(current)
  {
    match answer
    case Failed(e) => Some(e)
    case Renewed(next) => CheckSuccessor(current, next)
  }

  predicate GivesUp(o: Options, l: Lease, e: Error, now: real)
    requires LeaseOk(l)
  {
    !Retryable(e) || now >= Deadline(o, l)
  }

  /** A renewal is adopted exactly if it is a well-formed lease of the same session, under a new id, for longer. */
  lemma AdoptedExactly(current: Lease, answer: Answer)
    requires LeaseOk(current)
    ensures ErrorOf(current, answer) == None <==>
      && answer.Renewed? && answer.next.named && answer.next.session.incarnation >= 1
      && answer.next.activatedAt.Some? && answer.next.expiresAt.Some?
      && answer.next.serverNow.Some? && answer.next.observedAt.Some?
      && answer.next.expiresAt.value > answer.next.activatedAt.value
      && answer.next.expiresAt.value > current.expiresAt.value
      && answer.next.bundle != current.bundle && answer.next.session == current.session
    ensures answer.Renewed? && ErrorOf(current, answer).Some? ==>
      ErrorOf(current, answer).value in {Invariant, TypeError}
    ensures answer.Renewed? && ErrorOf(current, answer) == Some(TypeError) <==>
      && answer.Renewed? && answer.next.named && answer.next.session.incarnation >= 1
      && (|| answer.next.expiresAt == None || answer.next.activatedAt == None
          || (answer.next.expiresAt.value > answer.next.activatedAt.value
              && (answer.next.serverNow == None || answer.next.observedAt == None)))
  {
  }

  /** Before the deadline a renewal is tried again after a network error, a timeout, a throttle or a server error. */
  lemma RetriedExactly(o: Options, l: Lease, e: Error, now: real)
    requires LeaseOk(l)
    ensures GivesUp(o, l, e, now) <==>
      || now >= Deadline(o, l) || e.Invariant? || e.Other?
      || (e.Status? && e.code < 500 && e.code != 408 && e.code != 429)
  {
  }
}
