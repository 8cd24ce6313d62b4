/**
 The ordered event pump: frames are processed one at a time, events in sequence order, and the cursor
 moves only after an event's handler and the cursor's commit have both succeeded.

 The environment is a script with one Turn for each await: frames that arrive meanwhile, whether the pump is
 stopped, and what the fetch, the handler or the commit comes to. Past its end all goes well. What the
 environment has done is the trace; every act in it names the turn of the script that brought it about.
 */
module EventPump {
  import opened Common

  datatype Event = Event(project: nat, sequence: int, body: nat)

  datatype Frame = Subscribed(highWater: int) | Live(event: Event) | Resync(known: Option<int>)

  datatype Code = Stopped | QueueFull | Gap | BadFrame | BadEvent | FetchFailed | HandlerFailed | CommitFailed

  datatype Outcome = Done | Failed(code: Code)

  /** Honest: the next events in order, as many as there are bodies and at least one. */
  datatype Page = Honest(first: nat, more: seq<nat>) | Given(events: seq<Event>) | NoPage

  datatype Handling = Processed | Suppressed | NoOutcome | HandlerThrows

  /** The commit may take effect and still be reported as failed. */
  datatype Committing = Commits | FailsBefore | FailsAfter

  datatype Turn = Turn(arrivals: seq<Frame>, stops: bool, page: Page, handling: Handling, committing: Committing)

  const CALM := Turn([], false, Honest(0, []), Processed, Commits)

  /** What the environment did, and in which turn: a page was fetched, the handler succeeded, the commit took effect. */
  datatype Act =
    | Received(event: Event)
    | Fetched(after: nat, page: seq<Event>, turn: nat)
    | Handled(event: Event, turn: nat)
    | Committed(sequence: int, turn: nat)

  predicate Handles(turn: Turn) { turn.handling in {Processed, Suppressed} }

  function TurnAt(script: seq<Turn>, i: nat): Turn { if i < |script| then script[i] else CALM }

  predicate CalmTurn(turn: Turn) { !turn.stops && turn.page.Honest? && Handles(turn) && turn.committing == Commits }

  predicate CalmFrom(script: seq<Turn>, at: nat) {
    forall i :: at <= i < |script| ==> CalmTurn(script[i])
  }

  /** Nobody stops the pump. */
  predicate GoesOn(script: seq<Turn>, at: nat) {
    forall i :: at <= i < |script| ==> !script[i].stops
  }

  function Max(a: nat, b: nat): nat { if a < b then b else a }

  function PageOf(page: Page, project: nat, after: nat): seq<Event> {
    match page
    case Honest(first, more) =>
      seq(1 + |more|, k requires 0 <= k < 1 + |more| => Event(project, after + 1 + k, ([first] + more)[k]))
    case Given(events) => events
    case NoPage => []
  }

  /** assertEvent. */
  predicate Acceptable(event: Event, project: nat) {
    event.project == project && 0 < event.sequence <= MAX_SAFE_INTEGER
  }

  // ---------------------------------------------------------------------------
  // The trace
  // ---------------------------------------------------------------------------

  predicate Supplies(act: Act, event: Event) { act == Received(event) || (act.Fetched? && event in act.page) }

  predicate Supplied(trace: seq<Act>, event: Event) {
    exists j :: 0 <= j < |trace| && Supplies(trace[j], event)
  }

  predicate Numbered(act: Act) { act.Handled? || act.Committed? }

  function Number(act: Act): int
    requires Numbered(act)
  {
    if act.Handled? then act.event.sequence else act.sequence
  }

  /** The act is what its turn of the script came to. */
  predicate Truthful(act: Act, script: seq<Turn>, at: nat, project: nat) {
    match act
    case Received(_) => true
    case Fetched(after, page, turn) =>
      turn < at && !TurnAt(script, turn).page.NoPage? && page == PageOf(TurnAt(script, turn).page, project, after)
    case Handled(event, turn) => turn < at && Handles(TurnAt(script, turn)) && Acceptable(event, project)
    case Committed(_, turn) => turn < at && TurnAt(script, turn).committing != FailsBefore
  }

  /** No turn brings about two acts, and no event goes back behind another. */
  predicate InOrder(trace: seq<Act>) {
    && (forall i, j :: 0 <= i < j < |trace| && !trace[i].Received? && !trace[j].Received? ==>
          trace[i].turn < trace[j].turn)
    && (forall i, j :: 0 <= i < j < |trace| && Numbered(trace[i]) && Numbered(trace[j]) ==>
          Number(trace[i]) <= Number(trace[j]))
  }

  /** An event is handled only after it was received or fetched, and committed only right after it was handled. */
  predicate Grounded(trace: seq<Act>) {
    && (forall i :: 0 <= i < |trace| && trace[i].Handled? ==> Supplied(trace[..i], trace[i].event))
    && (forall i :: 0 <= i < |trace| && trace[i].Committed? ==>
          i > 0 && trace[i - 1].Handled? && trace[i - 1].event.sequence == trace[i].sequence)
  }

  /** At i the event with this number was handled, and at once committed. */
  predicate Delivers(trace: seq<Act>, i: nat, number: int) {
    && i + 1 < |trace|
    && trace[i].Handled? && trace[i].event.sequence == number
    && trace[i + 1].Committed? && trace[i + 1].sequence == number
  }

  predicate Sound(
    trace: seq<Act>, script: seq<Turn>, at: nat, project: nat, initial: nat, current: nat, accepted: seq<Frame>)
  {
    && InOrder(trace) && Grounded(trace)
    && (forall i :: 0 <= i < |trace| ==> Truthful(trace[i], script, at, project))
    && (forall i :: 0 <= i < |trace| && Numbered(trace[i]) ==> initial < Number(trace[i]) <= current + 1)
    && (forall i :: 0 <= i < |trace| && trace[i].Received? ==> Live(trace[i].event) in accepted)
  }

  /** Every number from initial + 1 to current was delivered, at its mark. */
  predicate Marked(trace: seq<Act>, marks: seq<nat>, initial: nat, current: nat) {
    && |marks| == current - initial
    && forall k :: 0 <= k < |marks| ==> Delivers(trace, marks[k], initial + 1 + k)
  }

  lemma SoundLater(
    trace: seq<Act>, script: seq<Turn>, at: nat, at': nat, project: nat, initial: nat, current: nat, current': nat,
    accepted: seq<Frame>, accepted': seq<Frame>)
    requires Sound(trace, script, at, project, initial, current, accepted)
    requires at <= at' && current <= current' && accepted <= accepted'
    ensures Sound(trace, script, at', project, initial, current', accepted')
  {
    hide InOrder, Grounded;
  }

  /** The act of the turn at `at` may follow. */
  predicate Fits(
    act: Act, trace: seq<Act>, script: seq<Turn>, at: nat, project: nat, initial: nat, current: nat)
  {
    && !act.Received? && act.turn == at && Truthful(act, script, at + 1, project)
    && (act.Handled? ==> act.event.sequence == current + 1 && Supplied(trace, act.event))
    && (act.Committed? ==>
          && act.sequence == current + 1
          && |trace| > 0 && trace[|trace| - 1].Handled? && trace[|trace| - 1].event.sequence == act.sequence)
  }

  lemma SoundActs(
    act: Act, trace: seq<Act>, script: seq<Turn>, at: nat, project: nat, initial: nat, current: nat,
    accepted: seq<Frame>, accepted': seq<Frame>)
    requires Sound(trace, script, at, project, initial, current, accepted) && accepted <= accepted'
    requires initial <= current && Fits(act, trace, script, at, project, initial, current)
    ensures Sound(trace + [act], script, at + 1, project, initial, current, accepted')
  {
    hide Supplied, InOrder, Grounded;
    GroundedGrows(trace, act);
    InOrderGrows(trace, act, script, at, project, current + 1);
  }

  lemma InOrderGrows(trace: seq<Act>, act: Act, script: seq<Turn>, at: nat, project: nat, most: int)
    requires InOrder(trace) && forall i :: 0 <= i < |trace| ==> Truthful(trace[i], script, at, project)
    requires !act.Received? && act.turn == at
    requires Numbered(act) ==> Number(act) == most
    requires forall i :: 0 <= i < |trace| && Numbered(trace[i]) ==> Number(trace[i]) <= most
    ensures InOrder(trace + [act])
  {
  }

  lemma GroundedGrows(trace: seq<Act>, act: Act)
    requires Grounded(trace)
    requires act.Handled? ==> Supplied(trace, act.event)
    requires act.Committed? ==>
      |trace| > 0 && trace[|trace| - 1].Handled? && trace[|trace| - 1].event.sequence == act.sequence
    ensures Grounded(trace + [act])
  {
    hide Supplied;
    var grown := trace + [act];
    forall i | 0 <= i < |grown| && grown[i].Handled? ensures Supplied(grown[..i], grown[i].event) {
      assert grown[..i] == trace[..i];
      if i == |trace| {
        assert trace[..i] == trace;
      }
    }
  }

  lemma SoundReceives(
    event: Event, trace: seq<Act>, script: seq<Turn>, at: nat, project: nat, initial: nat, current: nat,
    accepted: seq<Frame>)
    requires Sound(trace, script, at, project, initial, current, accepted) && Live(event) in accepted
    ensures Sound(trace + [Received(event)], script, at, project, initial, current, accepted)
    ensures Supplied(trace + [Received(event)], event)
  {
    GroundedGrows(trace, Received(event));
    assert Supplies((trace + [Received(event)])[|trace|], event);
  }

  lemma MarkedGrows(trace: seq<Act>, act: Act, marks: seq<nat>, initial: nat, current: nat)
    requires Marked(trace, marks, initial, current)
    ensures Marked(trace + [act], marks, initial, current)
  {
  }

  lemma MarkedMore(trace: seq<Act>, marks: seq<nat>, i: nat, initial: nat, current: nat)
    requires Marked(trace, marks, initial, current) && Delivers(trace, i, current + 1) && initial <= current
    ensures Marked(trace, marks + [i], initial, current + 1)
  {
  }

  lemma CalmOnward(script: seq<Turn>, at: nat)
    ensures CalmFrom(script, at) ==>
      CalmTurn(TurnAt(script, at)) && !TurnAt(script, at).stops && CalmFrom(script, at + 1)
    ensures GoesOn(script, at) ==> !TurnAt(script, at).stops && GoesOn(script, at + 1)
  {
  }

  lemma CalmTwice(script: seq<Turn>, at: nat)
    ensures CalmFrom(script, at) ==> CalmTurn(TurnAt(script, at)) && CalmTurn(TurnAt(script, at + 1))
  {
  }

  lemma SuppliedLater(before: seq<Act>, trace: seq<Act>)
    requires before <= trace
    ensures forall event :: Supplied(before, event) ==> Supplied(trace, event)
  {
    forall event | Supplied(before, event) ensures Supplied(trace, event) {
      var j :| 0 <= j < |before| && Supplies(before[j], event);
      assert Supplies(trace[j], event);
    }
  }

  lemma SuppliedByFrame(before: seq<Act>, trace: seq<Act>, event: Event)
    requires before + [Received(event)] <= trace
    ensures Supplied(trace, event)
  {
    assert Supplies(trace[|before|], event);
  }

  lemma StaysSupplied(trace: seq<Act>, act: Act)
    ensures forall event :: Supplied(trace, event) ==> Supplied(trace + [act], event)
  {
    forall event | Supplied(trace, event) ensures Supplied(trace + [act], event) {
      var j :| 0 <= j < |trace| && Supplies(trace[j], event);
      assert Supplies((trace + [act])[j], event);
    }
  }

  /** The queue after these frames have come, as far as there is room. */
  function Arrived(queue: seq<Frame>, arrivals: seq<Frame>, limit: nat): seq<Frame> {
    if arrivals == [] then queue
    else
      var before := Arrived(queue, arrivals[..|arrivals| - 1], limit);
      if |before| < limit then before + [arrivals[|arrivals| - 1]] else before
  }

  lemma ArrivedNext(queue: seq<Frame>, arrivals: seq<Frame>, limit: nat, i: nat)
    requires i < |arrivals|
    ensures Arrived(queue, arrivals[..0], limit) == queue && arrivals[..|arrivals|] == arrivals
    ensures var before := Arrived(queue, arrivals[..i], limit);
      Arrived(queue, arrivals[..i + 1], limit) == if |before| < limit then before + [arrivals[i]] else before
  {
    assert arrivals[..i + 1][..i] == arrivals[..i];
    assert arrivals[..|arrivals|] == arrivals;
  }

  lemma NoneArrive(queue: seq<Frame>, arrivals: seq<Frame>, limit: nat)
    ensures Arrived(queue, arrivals[..0], limit) == queue && arrivals[..|arrivals|] == arrivals
  {
    assert arrivals[..|arrivals|] == arrivals;
  }

  class Pump {
    const project: nat
    const limit: nat
    const initial: nat
    const script: seq<Turn>
    var at: nat
    var current: nat
    var highWater: nat
    var queue: seq<Frame>
    var stopped: bool
    ghost var accepted: seq<Frame>
    ghost var trace: seq<Act>
    /** Where in the trace each number from initial + 1 to current was delivered. */
    ghost var marks: seq<nat>

    ghost predicate Valid()
      reads this
    {
      && initial <= current <= highWater
      && |queue| <= limit && (forall i :: 0 <= i < |queue| ==> queue[i] in accepted)
      && Sound(trace, script, at, project, initial, current, accepted)
      && Marked(trace, marks, initial, current)
    }

    /** The frames that wait keep their order, behind them only new ones come. */
    twostate predicate Later()
      reads this
    {
      Onward() && old(queue) <= queue
    }

    /** The cursor, the script and the trace only move on. */
    twostate predicate Onward()
      reads this
    {
      && old(current) <= current && old(highWater) <= highWater && old(at) <= at
      && old(trace) <= trace && old(accepted) <= accepted
      && (old(stopped) ==> stopped)
      && (CalmFrom(script, old(at)) ==> CalmFrom(script, at) && (stopped ==> old(stopped)))
      && (GoesOn(script, old(at)) ==> GoesOn(script, at) && (stopped ==> old(stopped)))
    }

    constructor (project: nat, initial: nat, limit: nat, script: seq<Turn>)
      ensures Valid() && current == initial && queue == [] && !stopped && at == 0 && trace == []
      ensures this.project == project && this.initial == initial && this.limit == limit && this.script == script
    {
      this.project, this.limit, this.initial, this.script := project, limit, initial, script;
      at, current, highWater := 0, initial, initial;
      queue, stopped, accepted, trace, marks := [], false, [], [], [];
    }

    method Stop()
      requires Valid()
      modifies `stopped
      ensures Valid() && stopped
    {
      stopped := true;
    }

    /** A frame waits its turn, unless the pump has stopped or too many wait already. */
    method Enqueue(frame: Frame) returns (r: Outcome)
      requires Valid()
      modifies `queue, `accepted
      ensures Valid() && old(accepted) <= accepted
      ensures r == if stopped then Failed(Stopped) else if |old(queue)| >= limit then Failed(QueueFull) else Done
      ensures queue == if r.Done? then old(queue) + [frame] else old(queue)
    {
      hide Sound, Marked;
      if stopped {
        return Failed(Stopped);
      }
      if |queue| >= limit {
        return Failed(QueueFull);
      }
      SoundLater(trace, script, at, at, project, initial, current, current, accepted, accepted + [frame]);
      queue, accepted := queue + [frame], accepted + [frame];
      return Done;
    }

    /** Frames come in while the pump waits. */
    method Arrive(arrivals: seq<Frame>)
      requires Valid()
      modifies `queue, `accepted
      ensures Valid() && old(queue) <= queue && old(accepted) <= accepted
      ensures queue == if stopped then old(queue) else Arrived(old(queue), arrivals, limit)
    {
      hide Sound, Marked, Arrived;
      NoneArrive(queue, arrivals, limit);
      for i := 0 to |arrivals|
        invariant Valid() && old(queue) <= queue && old(accepted) <= accepted
        invariant queue == if stopped then old(queue) else Arrived(old(queue), arrivals[..i], limit)
      {
        ArrivedNext(old(queue), arrivals, limit, i);
        var _ := Enqueue(arrivals[i]);
      }
    }

    method Await() returns (turn: Turn)
      requires Valid()
      modifies `queue, `accepted, `stopped, `at
      ensures Valid() && Later()
      ensures turn == TurnAt(script, old(at)) == (if old(at) < |script| then script[old(at)] else CALM)
      ensures at == old(at) + 1
      ensures Sound(trace, script, at - 1, project, initial, current, accepted)
      ensures stopped == (old(stopped) || turn.stops)
      ensures queue == if old(stopped) then old(queue) else Arrived(old(queue), turn.arrivals, limit)
      ensures CalmFrom(script, old(at)) ==> CalmTurn(turn)
    {
      hide Sound, Marked, GoesOn, CalmFrom, CalmTurn, Arrived;
      CalmOnward(script, at);
      turn := TurnAt(script, at);
      Arrive(turn.arrivals);
      SoundLater(trace, script, at, at + 1, project, initial, current, current, accepted, accepted);
      at, stopped := at + 1, stopped || turn.stops;
    }

    /** The act of the turn just taken goes into the trace. */
    ghost method Record(act: Act)
      requires Valid() && at > 0 && Sound(trace, script, at - 1, project, initial, current, accepted)
      requires Fits(act, trace, script, at - 1, project, initial, current)
      modifies `trace
      ensures Valid() && trace == old(trace) + [act]
      ensures forall event :: Supplied(old(trace), event) ==> Supplied(trace, event)
    {
      hide Sound, Marked, Fits, Supplied;
      SoundActs(act, trace, script, at - 1, project, initial, current, accepted, accepted);
      MarkedGrows(trace, act, marks, initial, current);
      StaysSupplied(trace, act);
      trace := trace + [act];
    }

    /** A live event comes in. */
    ghost method Receive(event: Event)
      requires Valid() && Live(event) in accepted
      modifies `trace
      ensures Valid() && trace == old(trace) + [Received(event)]
    {
      hide Sound, Marked, Supplied;
      SoundReceives(event, trace, script, at, project, initial, current, accepted);
      MarkedGrows(trace, Received(event), marks, initial, current);
      trace := trace + [Received(event)];
    }

    /** fetchEvents after the cursor. */
    method Fetch() returns (page: Option<seq<Event>>)
      requires Valid()
      modifies `queue, `accepted, `stopped, `at, `trace
      ensures Valid() && Later()
      ensures at == old(at) + 1
      ensures var turn := TurnAt(script, old(at));
        && stopped == (old(stopped) || turn.stops)
        && (page == None <==> turn.page.NoPage?)
        && (page.Some? ==>
              && page.value == PageOf(turn.page, project, current)
              && forall event :: event in page.value ==> Supplied(trace, event))
        && (CalmFrom(script, old(at)) ==> CalmTurn(turn))
    {
      hide GoesOn, CalmFrom, CalmTurn, Sound, Marked;
      var came := Await();
      if came.page.NoPage? {
        return None;
      }
      page := Some(PageOf(came.page, project, current));
      Record(Fetched(current, page.value, at - 1));
      assert trace[|trace| - 1] == Fetched(current, page.value, at - 1);
    }

    /** handleEvent: the event is handled in the turn in which the handler reports an outcome. */
    method Handle(event: Event) returns (handling: Handling)
      requires Valid() && Acceptable(event, project) && event.sequence == current + 1 && Supplied(trace, event)
      modifies `queue, `accepted, `stopped, `at, `trace
      ensures Valid() && Later() && at == old(at) + 1
      ensures handling == TurnAt(script, old(at)).handling
      ensures stopped == (old(stopped) || TurnAt(script, old(at)).stops)
      ensures trace == old(trace) + if Handles(TurnAt(script, old(at))) then [Handled(event, old(at))] else []
    {
      hide GoesOn, CalmFrom, CalmTurn, Sound, Marked;
      var turn := Await();
      if Handles(turn) {
        Record(Handled(event, at - 1));
      }
      return turn.handling;
    }

    /** commitCursor: it may take effect and be reported as failed all the same. */
    method Commit(sequence: nat) returns (confirmed: bool)
      requires Valid() && sequence == current + 1
      requires |trace| > 0 && trace[|trace| - 1].Handled? && trace[|trace| - 1].event.sequence == sequence
      modifies `queue, `accepted, `stopped, `at, `trace
      ensures Valid() && Later() && at == old(at) + 1
      ensures confirmed <==> TurnAt(script, old(at)).committing == Commits
      ensures stopped == (old(stopped) || TurnAt(script, old(at)).stops)
      ensures trace ==
        old(trace) + if TurnAt(script, old(at)).committing != FailsBefore then [Committed(sequence, old(at))] else []
    {
      hide GoesOn, CalmFrom, CalmTurn, Sound, Marked;
      var turn := Await();
      if turn.committing != FailsBefore {
        Record(Committed(sequence, at - 1));
      }
      return turn.committing == Commits;
    }

    /**
     processEvent: the handler, the commit, and only then the cursor. It succeeds exactly when the handler
     reports an outcome, the commit is confirmed, and the pump is not stopped before, between or after.
     */
    method ProcessEvent(event: Event) returns (r: Outcome)
      requires Valid() && Acceptable(event, project) && event.sequence == current + 1 <= highWater
      requires Supplied(trace, event)
      modifies `current, `queue, `accepted, `stopped, `at, `trace, `marks
      ensures Valid() && Later()
      ensures var first, second := TurnAt(script, old(at)), TurnAt(script, old(at) + 1);
        && (r.Done? <==>
              !old(stopped) && Handles(first) && !first.stops && second.committing == Commits && !second.stops)
        && trace == old(trace) + ActsOf(event, old(stopped), first, second, old(at))
      ensures current == old(current) + if r.Done? then 1 else 0
      ensures r.Failed? ==> r.code in {Stopped, HandlerFailed, CommitFailed}
      ensures r.Failed? && !old(stopped) ==> at > old(at)
      ensures CalmFrom(script, old(at)) && !old(stopped) ==> r.Done?
    {
      hide GoesOn, CalmFrom, Sound, Marked, Supplied;
      CalmTwice(script, at);
      if stopped {
        return Failed(Stopped);
      }
      var handling := Handle(event);
      if handling.HandlerThrows? {
        return Failed(HandlerFailed);
      }
      if stopped {
        return Failed(Stopped);
      }
      if handling.NoOutcome? {
        return Failed(HandlerFailed);
      }
      var confirmed := Commit(event.sequence);
      if !confirmed {
        return Failed(CommitFailed);
      }
      if stopped {
        return Failed(Stopped);
      }
      SoundLater(trace, script, at, at, project, initial, current, current + 1, accepted, accepted);
      MarkedMore(trace, marks, |trace| - 2, initial, current);
      current, marks := event.sequence, marks + [|trace| - 2];
      return Done;
    }

    /**
     One page of catch-up, in order and as far as the target. What fails is an event that is not acceptable or a
     gap; without either, the page is used up to its end or to the target.
     */
    method ProcessPage(page: seq<Event>, target: nat) returns (r: Outcome, advanced: bool)
      requires Valid() && current < target <= highWater
      requires forall event :: event in page ==> Supplied(trace, event)
      modifies `current, `queue, `accepted, `stopped, `at, `trace, `marks
      ensures Valid() && Later() && current <= target
      ensures advanced <==> current > old(current)
      ensures r.Done? && !advanced ==> stopped == old(stopped)
      ensures r.Done? ==> current == target || UsedUp(page, project, current, target)
      ensures r == Failed(BadEvent) ==> exists i :: 0 <= i < |page| && !Acceptable(page[i], project)
      ensures r in {Failed(BadEvent), Failed(Gap)} ==> !stopped
      ensures r == Failed(Gap) ==> exists i :: 0 <= i < |page| && current + 1 < page[i].sequence <= target
      ensures r.Failed? ==> current < target
      ensures CalmFrom(script, old(at)) && !old(stopped) ==> r.Done? || r.code in {BadEvent, Gap}
      ensures highWater <= MAX_SAFE_INTEGER && IsNext(page, project, old(current)) ==>
        (CalmFrom(script, old(at)) && !old(stopped) ==> r.Done? && advanced)
    {
      hide GoesOn, CalmFrom, Sound, Marked, Supplied;
      advanced := false;
      for i := 0 to |page|
        invariant Valid() && Later() && current < target
        invariant advanced <==> current > old(current)
        invariant !advanced ==> stopped == old(stopped)
        invariant forall k :: 0 <= k < i ==> Acceptable(page[k], project) && page[k].sequence <= current
        invariant CalmFrom(script, old(at)) && !old(stopped) ==> !stopped
        invariant CalmFrom(script, old(at)) && !old(stopped) && IsNext(page, project, old(current)) ==>
          current == old(current) + i
      {
        if stopped {
          return Failed(Stopped), advanced;
        }
        if !Acceptable(page[i], project) {
          return Failed(BadEvent), advanced;
        }
        if page[i].sequence > current {
          if page[i].sequence > target {
            return Done, advanced;
          }
          if page[i].sequence != current + 1 {
            return Failed(Gap), advanced;
          }
          SuppliedLater(old(trace), trace);
          r := ProcessEvent(page[i]);
          if r.Failed? {
            return;
          }
          advanced := true;
          if current >= target {
            return;
          }
        }
      }
      return Done, advanced;
    }

    /** catchUpTo: every turn moves the cursor on or fails, so it ends. */
    method CatchUpTo(target: nat) returns (r: Outcome)
      requires Valid() && target <= highWater
      modifies `current, `queue, `accepted, `stopped, `at, `trace, `marks
      ensures Valid() && Later()
      ensures if r.Done? then current == Max(old(current), target) else old(current) <= current < target
      ensures r.Failed? && !old(stopped) ==> at > old(at)
      ensures r in {Failed(BadEvent), Failed(Gap)} ==> !stopped
      ensures at == old(at) ==> stopped == old(stopped)
      ensures CalmFrom(script, old(at)) && !old(stopped) && highWater <= MAX_SAFE_INTEGER ==> r.Done?
    {
      hide GoesOn, CalmFrom, Sound, Marked, Supplied;
      while current < target
        invariant Valid() && Later() && current <= Max(old(current), target)
        invariant CalmFrom(script, old(at)) && !old(stopped) ==> !stopped
        invariant at == old(at) ==> stopped == old(stopped)
        decreases target - current
      {
        if stopped {
          return Failed(Stopped);
        }
        var page := Fetch();
        if page.None? {
          return Failed(FetchFailed);
        }
        if stopped {
          return Failed(Stopped);
        }
        if page.value == [] {
          return Failed(Gap);
        }
        HonestIsNext(TurnAt(script, at - 1).page, project, current);
        var advanced;
        r, advanced := ProcessPage(page.value, target);
        if r.Failed? {
          return;
        }
        if !advanced {
          return Failed(Gap);
        }
      }
      return Done;
    }

    /** A live frame that fails leaves its event the next one, or one still ahead; any other success is final. */
    method ProcessFrame(frame: Frame) returns (r: Outcome)
      requires Valid() && frame in accepted
      modifies `current, `highWater, `queue, `accepted, `stopped, `at, `trace, `marks
      ensures Valid() && Later()
      ensures old(highWater) <= MAX_SAFE_INTEGER ==> highWater <= MAX_SAFE_INTEGER
      ensures r.Done? ==> Reaches(frame, current)
      ensures r.Failed? && frame.Live? && Acceptable(frame.event, project) ==> current < frame.event.sequence
      ensures r.Failed? && frame.Live? && Acceptable(frame.event, project) && !old(stopped) ==> at > old(at)
      ensures CalmFrom(script, old(at)) && !old(stopped) && old(highWater) <= MAX_SAFE_INTEGER ==>
        (r.Done? <==> Sensible(frame, project))
    {
      hide GoesOn, CalmFrom, Sound, Marked, Supplied;
      match frame {
        case Subscribed(n) => r := Announce(n);
        case Resync(n) =>
          if n == None {
            return Failed(Gap);
          }
          r := Announce(n.value);
        case Live(event) =>
          if !Acceptable(event, project) {
            return Failed(BadEvent);
          }
          Receive(event);
          highWater := Max(highWater, event.sequence);
          if event.sequence <= current {
            return Done;
          }
          if event.sequence > current + 1 {
            r := CatchUpTo(event.sequence - 1);
            if r.Failed? {
              return;
            }
          }
          if event.sequence <= current {
            return Done;
          }
          if event.sequence != current + 1 {
            return Failed(Gap);
          }
          SuppliedByFrame(old(trace), trace, event);
          r := ProcessEvent(event);
      }
    }

    /** A subscription or a resync names the high-water mark to catch up to. */
    method Announce(n: int) returns (r: Outcome)
      requires Valid()
      modifies `current, `highWater, `queue, `accepted, `stopped, `at, `trace, `marks
      ensures Valid() && Later()
      ensures old(highWater) <= MAX_SAFE_INTEGER ==> highWater <= MAX_SAFE_INTEGER
      ensures r.Done? ==> 0 <= n <= current == highWater
      ensures r.Failed? && 0 <= n <= MAX_SAFE_INTEGER ==> current < highWater
      ensures CalmFrom(script, old(at)) && !old(stopped) && old(highWater) <= MAX_SAFE_INTEGER ==>
        (r.Done? <==> 0 <= n <= MAX_SAFE_INTEGER)
    {
      hide GoesOn, CalmFrom, Sound, Marked;
      if !(0 <= n <= MAX_SAFE_INTEGER) {
        return Failed(BadFrame);
      }
      highWater := Max(highWater, n);
      r := CatchUpTo(highWater);
    }

    /** The next waiting frame; whatever it comes to, the ones behind it stay in the queue. */
    method Next() returns (r: Outcome)
      requires Valid() && queue != []
      modifies `current, `highWater, `queue, `accepted, `stopped, `at, `trace, `marks
      ensures Valid() && Onward() && old(queue)[1..] <= queue
      ensures r.Done? ==> Reaches(old(queue)[0], current)
      ensures old(stopped) ==> r == Failed(Stopped) && queue == old(queue)[1..] && trace == old(trace)
      ensures var frame := old(queue)[0];
        r.Failed? && frame.Live? && Acceptable(frame.event, project) && !old(stopped) ==> current < frame.event.sequence
      ensures CalmFrom(script, old(at)) && !old(stopped) && old(highWater) <= MAX_SAFE_INTEGER ==>
        (r.Done? <==> Sensible(old(queue)[0], project))
    {
      hide GoesOn, CalmFrom, Sound, Marked;
      var frame := queue[0];
      queue := queue[1..];
      if stopped {
        return Failed(Stopped);
      }
      r := ProcessFrame(frame);
    }

    /**
     However often its delivery fails, an event that is delivered again until it is through is, in the end,
     handled and committed with everything before it, unless the pump is stopped.
     */
    method Redeliver(event: Event) returns (rs: seq<Outcome>)
      requires Valid() && Live(event) in accepted && Acceptable(event, project) && highWater <= MAX_SAFE_INTEGER
      modifies `current, `highWater, `queue, `accepted, `stopped, `at, `trace, `marks
      ensures Valid() && Later()
      ensures stopped || event.sequence <= current
      ensures GoesOn(script, old(at)) && !old(stopped) ==> event.sequence <= current
      ensures old(stopped) || old(current) >= event.sequence ==> rs == [] && trace == old(trace)
      ensures forall k :: 0 <= k < |rs| - 1 ==> rs[k].Failed?
      ensures rs != [] && rs[|rs| - 1].Failed? ==> stopped
    {
      hide Sound, Marked, GoesOn, CalmFrom;
      rs := [];
      while !stopped && current < event.sequence
        invariant Valid() && Later() && highWater <= MAX_SAFE_INTEGER
        invariant rs == [] ==> trace == old(trace) && current == old(current) && stopped == old(stopped)
        invariant forall k :: 0 <= k < |rs| - 1 ==> rs[k].Failed?
        invariant rs != [] ==> (rs[|rs| - 1].Failed? <==> current < event.sequence)
        invariant rs != [] ==> !old(stopped) && old(current) < event.sequence
        decreases Ahead(script, at), if current < event.sequence then 1 else 0
      {
        CalmAtEnd(script, at);
        var r := ProcessFrame(Live(event));
        rs := rs + [r];
      }
    }
  }

  /** The turns that are left. */
  function Ahead(script: seq<Turn>, at: nat): nat { if at < |script| then |script| - at else 0 }

  lemma CalmAtEnd(script: seq<Turn>, at: nat)
    ensures |script| <= at ==> CalmFrom(script, at)
  {
  }

  /** What an event leaves in the trace, given the two turns from `at` on. */
  function ActsOf(event: Event, stopped: bool, first: Turn, second: Turn, at: nat): seq<Act> {
    if stopped || !Handles(first) then []
    else if first.stops || second.committing == FailsBefore then [Handled(event, at)]
    else [Handled(event, at), Committed(event.sequence, at + 1)]
  }

  /** The page holds just the events after `after`, in order. */
  predicate IsNext(page: seq<Event>, project: nat, after: nat) {
    |page| > 0 && forall i :: 0 <= i < |page| ==> page[i].project == project && page[i].sequence == after + 1 + i
  }

  lemma HonestIsNext(page: Page, project: nat, after: nat)
    ensures page.Honest? ==> IsNext(PageOf(page, project, after), project, after)
  {
  }

  /** All of the page is behind the cursor, as far as the first event beyond the target. */
  predicate UsedUp(page: seq<Event>, project: nat, cursor: nat, target: nat) {
    || Behind(page, project, cursor)
    || exists n :: 0 <= n < |page| && page[n].sequence > target && Behind(page[..n], project, cursor)
  }

  predicate Behind(page: seq<Event>, project: nat, cursor: nat) {
    forall i :: 0 <= i < |page| ==>
      page[i].project == project && 0 < page[i].sequence <= MAX_SAFE_INTEGER && page[i].sequence <= cursor
  }

  /** What a frame that succeeded has brought the cursor to. */
  predicate Reaches(frame: Frame, cursor: nat) {
    match frame
    case Subscribed(n) => n <= cursor
    case Live(event) => event.sequence <= cursor
    case Resync(n) => n.Some? && n.value <= cursor
  }

  predicate Sensible(frame: Frame, project: nat) {
    match frame
    case Subscribed(n) => 0 <= n <= MAX_SAFE_INTEGER
    case Live(event) => Acceptable(event, project)
    case Resync(n) => n.Some? && 0 <= n.value <= MAX_SAFE_INTEGER
  }

  /** Each number the cursor has passed was handled, as an event that came in, and committed right after. */
  lemma CursorIsEarned(pump: Pump, number: int) returns (i: nat)
    requires pump.Valid() && pump.initial < number <= pump.current
    ensures Delivers(pump.trace, i, number)
    ensures Acceptable(pump.trace[i].event, pump.project) && Supplied(pump.trace[..i], pump.trace[i].event)
    ensures Handles(TurnAt(pump.script, pump.trace[i].turn))
    ensures TurnAt(pump.script, pump.trace[i + 1].turn).committing != FailsBefore
    ensures pump.trace[i].turn < pump.trace[i + 1].turn < pump.at
  {
    i := pump.marks[number - pump.initial - 1];
  }

  /** Nothing is committed but what has just been handled, and nothing is handled but what has come in. */
  lemma NothingIsMadeUp(pump: Pump, i: nat)
    requires pump.Valid() && i < |pump.trace|
    ensures pump.trace[i].Handled? ==>
      && Supplied(pump.trace[..i], pump.trace[i].event) && pump.trace[i].event.project == pump.project
    ensures pump.trace[i].Committed? ==>
      i > 0 && pump.trace[i - 1].Handled? && pump.trace[i - 1].event.sequence == pump.trace[i].sequence
  {
    hide InOrder, Marked, Supplied;
    assert pump.trace[i].Handled? ==> Truthful(pump.trace[i], pump.script, pump.at, pump.project);
  }

  /** Handling and committing never go back, and never get more than one ahead of the cursor. */
  lemma NothingIsSkipped(pump: Pump, i: nat, j: nat)
    requires pump.Valid() && i < j < |pump.trace|
    requires pump.trace[i].Handled? || pump.trace[i].Committed?
    requires pump.trace[j].Handled? || pump.trace[j].Committed?
    ensures pump.initial < Number(pump.trace[i]) <= Number(pump.trace[j]) <= pump.current + 1
  {
  }
}
