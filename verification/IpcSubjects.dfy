/**
 The registry of active subjects: per project and thread one record, written by compare-and-swap. Rivals
 write whenever an operation awaits.
 */
module IpcSubjects {
  import opened Common

  const MAX_CAS_ATTEMPTS: nat := 64

  datatype Key = Key(project: nat, thread: nat)

  datatype Subject = Subject(
    project: nat, thread: nat, run: nat, session: nat, lineage: nat, incarnation: nat, bundle: nat, build: nat,
    vault: nat, checkpoint: nat, sequence: nat, fuse: nat)

  function KeyOf(s: Subject): Key { Key(s.project, s.thread) }

  predicate Progresses(a: Subject, b: Subject) {
    && KeyOf(a) == KeyOf(b) && a.run == b.run && a.lineage == b.lineage && a.build == b.build
    && a.incarnation <= b.incarnation && a.sequence <= b.sequence && a.fuse <= b.fuse
    && (a.incarnation == b.incarnation ==> a.session == b.session)
  }

  lemma ProgressIsPreorder(a: Subject, b: Subject, c: Subject)
    ensures Progresses(a, a)
    ensures Progresses(a, b) && Progresses(b, c) ==> Progresses(a, c)
  {
  }

  datatype State = Running | Stopped

  datatype Record = Record(revision: nat, state: State, subject: Subject)

  datatype Code = Conflict | Mismatch | LeaseInvalid

  datatype Outcome = Done(record: Record) | Failed(code: Code)

  /** The writes of the three operations. */
  datatype Act = Ensure(subject: Subject) | Stop(subject: Subject) | Advance(expected: Subject, next: Subject)

  datatype Decision = Keep | Write(next: Record) | Refuse(code: Code)

  /** What an operation decides on the record it has loaded. */
  function Decide(current: Option<Record>, act: Act): Decision {
    match act
    case Ensure(subject) =>
      if current.Some? && current.value.state == Running then
        if current.value.subject != subject then Refuse(Conflict) else Keep
      else Write(Record(if current.Some? then current.value.revision + 1 else 0, Running, subject))
    case Stop(subject) =>
      if current == None || current.value.subject != subject then Refuse(Mismatch)
      else if current.value.state == Stopped then Keep
      else Write(current.value.(revision := current.value.revision + 1, state := Stopped))
    case Advance(expected, next) =>
      if KeyOf(next) != KeyOf(expected) || !Progresses(expected, next) then Refuse(Mismatch)
      else if current == None || current.value.state != Running || current.value.subject != expected
        then Refuse(Mismatch)
      else Write(current.value.(revision := current.value.revision + 1, subject := next))
  }

  function ActKey(act: Act): Key {
    match act
    case Ensure(subject) => KeyOf(subject)
    case Stop(subject) => KeyOf(subject)
    case Advance(expected, _) => KeyOf(expected)
  }

  /** One write: a start, a stop of the same subject, or a progress of the running one. */
  predicate Moves(a: Record, b: Record) {
    && b.revision == a.revision + 1 && KeyOf(b.subject) == KeyOf(a.subject)
    && (|| (a.state == Stopped && b.state == Running)
        || (a.state == Running && b.state == Stopped && b.subject == a.subject)
        || (a.state == Running && b.state == Running && Progresses(a.subject, b.subject)))
  }

  predicate Sound(h: seq<Record>, key: Key) {
    forall i :: 0 <= i < |h| ==>
      && h[i].revision == i && KeyOf(h[i].subject) == key
      && (if i == 0 then true else Moves(h[i - 1], h[i]))
  }

  /** While a key stays running, its subject only progresses: same run, lineage and build throughout. */
  lemma {:induction false} OneRunningPeriod(h: seq<Record>, key: Key, i: nat, k: nat)
    requires Sound(h, key) && i <= k < |h|
    requires forall m :: i <= m <= k ==> h[m].state == Running
    ensures Progresses(h[i].subject, h[k].subject)
    ensures var a, b := h[i].subject, h[k].subject;
      && b.project == a.project && b.thread == a.thread && b.run == a.run && b.lineage == a.lineage
      && b.build == a.build && b.incarnation >= a.incarnation && b.sequence >= a.sequence && b.fuse >= a.fuse
      && (b.incarnation == a.incarnation ==> b.session == a.session)
    decreases k - i
  {
    if i < k {
      OneRunningPeriod(h, key, i, k - 1);
      assert Moves(h[k - 1], h[k]);
      ProgressIsPreorder(h[i].subject, h[k - 1].subject, h[k].subject);
    }
  }

  lemma Appended(h: seq<Record>, key: Key, act: Act)
    requires Sound(h, key) && ActKey(act) == key
    requires Decide(if h == [] then None else Some(h[|h| - 1]), act).Write?
    ensures Sound(h + [Decide(if h == [] then None else Some(h[|h| - 1]), act).next], key)
  {
  }

  /** The subject that runs under the key. */
  function RunningNow(current: Option<Record>): Option<Subject> {
    if current.Some? && current.value.state == Running then Some(current.value.subject) else None
  }

  /**
   A start is refused only while another subject runs, a stop only of a subject that is not the last one, and a move
   unless the running subject progresses. What an operation finds already so it leaves, and what it writes is the
   next revision.
   */
  lemma DecidedExactly(current: Option<Record>, act: Act)
    ensures Decide(current, act) == Refuse(Conflict) <==>
      act.Ensure? && RunningNow(current).Some? && RunningNow(current) != Some(act.subject)
    ensures Decide(current, act) == Refuse(Mismatch) <==>
      || (act.Stop? && (current == None || current.value.subject != act.subject))
      || (act.Advance? && (RunningNow(current) != Some(act.expected) || !MayBecome(act.expected, act.next)))
    ensures Decide(current, act) == Keep <==>
      || (act.Ensure? && RunningNow(current) == Some(act.subject))
      || (&& act.Stop?
          && current == Some(Record(if current.Some? then current.value.revision else 0, Stopped, act.subject)))
    ensures Decide(current, act).Write? ==>
      Decide(current, act).next == Record(
        if current.Some? then current.value.revision + 1 else 0,
        if act.Stop? then Stopped else Running,
        if act.Advance? then act.next else act.subject)
    ensures Decide(current, act) != Refuse(LeaseInvalid)
  {
  }

  /** The same run, lineage and build; nothing falls, and only a new incarnation has a new session. */
  predicate MayBecome(a: Subject, b: Subject) {
    && b.project == a.project && b.thread == a.thread && b.run == a.run && b.lineage == a.lineage
    && b.build == a.build && b.incarnation >= a.incarnation && b.sequence >= a.sequence && b.fuse >= a.fuse
    && (b.incarnation > a.incarnation || b.session == a.session)
  }

  datatype Turn = Turn(rivals: seq<Act>, leaseLost: bool)

  /** Nobody else writes. */
  predicate NoRivals(turns: seq<Turn>) { forall i :: 0 <= i < |turns| ==> turns[i].rivals == [] }

  function Head(turns: seq<Turn>): Turn { if turns == [] then Turn([], false) else turns[0] }

  function Tail(turns: seq<Turn>): seq<Turn> { if turns == [] then [] else turns[1..] }

  /** What a rival's operation makes of the record. */
  function AfterRival(record: Option<Record>, act: Act, key: Key): Option<Record> {
    if ActKey(act) == key && Decide(record, act).Write? then Some(Decide(record, act).next) else record
  }

  function AfterRivals(record: Option<Record>, acts: seq<Act>, key: Key): Option<Record> {
    if acts == [] then record
    else AfterRival(AfterRivals(record, acts[..|acts| - 1], key), acts[|acts| - 1], key)
  }

  class Registry {
    const key: Key
    var record: Option<Record>
    var turns: seq<Turn>
    ghost var history: seq<Record>

    ghost predicate Valid()
      reads this
    {
      Sound(history, key) && record == (if history == [] then None else Some(history[|history| - 1]))
    }

    twostate predicate Later()
      reads this
    {
      old(history) <= history
    }

    constructor (key: Key, turns: seq<Turn>)
      ensures Valid() && history == [] && this.key == key && this.turns == turns
    {
      this.key, record, this.turns, history := key, None, turns, [];
    }

    /** What a write decided on the present record does. */
    method Put(act: Act)
      requires Valid() && ActKey(act) == key && Decide(record, act).Write?
      modifies `record, `history
      ensures Valid() && record == Some(Decide(old(record), act).next) && history == old(history) + [record.value]
    {
      hide Sound, Decide;
      Appended(history, key, act);
      record := Some(Decide(record, act).next);
      history := history + [record.value];
    }

    method Await() returns (leaseLost: bool)
      requires Valid()
      modifies `record, `history, `turns
      ensures Valid() && Later()
      ensures leaseLost == Head(old(turns)).leaseLost && turns == Tail(old(turns))
      ensures record == AfterRivals(old(record), Head(old(turns)).rivals, key)
      ensures NoRivals(old(turns)) ==> NoRivals(turns) && history == old(history)
    {
      hide Sound, Decide;
      if turns == [] {
        return false;
      }
      var turn := turns[0];
      turns := turns[1..];
      for i := 0 to |turn.rivals|
        invariant Valid() && Later() && turns == old(turns)[1..]
        invariant NoRivals(old(turns)) ==> history == old(history)
        invariant record == AfterRivals(old(record), turn.rivals[..i], key)
      {
        assert turn.rivals[..i + 1][..i] == turn.rivals[..i];
        var act := turn.rivals[i];
        if ActKey(act) == key && Decide(record, act).Write? {
          Put(act);
        }
      }
      assert turn.rivals[..|turn.rivals|] == turn.rivals;
      return turn.leaseLost;
    }

    /** ensureRunning, stop and advanceRunning share their loop: load, decide, compare-and-swap. */
    method Perform(act: Act) returns (r: Outcome)
      requires Valid() && ActKey(act) == key
      modifies `record, `history, `turns
      ensures Valid() && Later()
      ensures r.Done? ==> r.record in history && Achieves(act, r.record)
      ensures NoRivals(old(turns)) ==>
        if Head(old(turns)).leaseLost then history == old(history) && r == Failed(LeaseInvalid)
        else
          match Decide(old(record), act)
          case Keep => history == old(history) && old(record).Some? && r == Done(old(record).value)
          case Refuse(code) => history == old(history) && r == Failed(code)
          case Write(next) =>
            if Head(Tail(old(turns))).leaseLost then history == old(history) && r == Failed(LeaseInvalid)
            else history == old(history) + [next] && r == Done(next)
    {
      hide Sound;
      for attempt := 0 to MAX_CAS_ATTEMPTS
        invariant Valid() && Later()
        invariant NoRivals(old(turns)) ==> attempt == 0 && history == old(history)
        invariant attempt == 0 ==> turns == old(turns)
      {
        var lost := Await();
        if lost {
          return Failed(LeaseInvalid);
        }
        var current := record;
        match Decide(current, act) {
          case Keep => return Done(current.value);
          case Refuse(code) => return Failed(code);
          case Write(next) =>
            lost := Await();
            if lost {
              return Failed(LeaseInvalid);
            }
            if Revision(record) == Revision(current) {
              SameRevision(history, key, current);
              Put(act);
              assert next == history[|history| - 1];
              return Done(next);
            }
        }
      }
      return Failed(Conflict);
    }
  }

  function Revision(record: Option<Record>): Option<nat> {
    if record.Some? then Some(record.value.revision) else None
  }

  /** What an operation promises of the record it returns. */
  predicate Achieves(act: Act, r: Record) {
    match act
    case Ensure(subject) => r.state == Running && r.subject == subject
    case Stop(subject) => r.state == Stopped && r.subject == subject
    case Advance(expected, next) => r.state == Running && r.subject == next && Progresses(expected, next)
  }

  /** A record of the history with the revision of the last one is the last one. */
  lemma SameRevision(h: seq<Record>, key: Key, current: Option<Record>)
    requires Sound(h, key) && (current.Some? ==> current.value in h)
    requires current.Some? <==> h != []
    requires current.Some? ==> h[|h| - 1].revision == current.value.revision
    ensures current.Some? ==> current.value == h[|h| - 1]
  {
    if current.Some? {
      var i :| 0 <= i < |h| && h[i] == current.value;
      assert h[i].revision == i;
    }
  }
}
