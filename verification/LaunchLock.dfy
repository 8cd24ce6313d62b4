/**
 The launch lock: processes create, rename and unlink files, one file-system step at a time, in any
 interleaving, and die at any step.

 An actor is one call of acquireLaunchLock and what follows from it. Its nonce is its own number, which
 no other actor ever has. Whether a heartbeat is old, a deadline passed or a heartbeat could be written
 is left to the schedule.
 */
module LaunchLock {
  import opened Common

  /** A created lock file is empty until its record has been written. */
  datatype Content = Empty(creator: nat) | Written(owner: nat, pid: nat)

  /** Retiring a lock: target is the expected nonce; leaving says that the actor is done afterwards. */
  datatype Pc =
    | Checking | Creating | Writing | Beating | Holding | Inspecting
    | Claiming(target: nat, leaving: bool)
    | Verifying(target: nat, leaving: bool)
    | Renaming(target: nat, leaving: bool)
    | Reading(target: nat, leaving: bool)
    | Unclaiming(leaving: bool)

  datatype Actor = Actor(pid: nat, pc: Pc)

  /** The schedule's part in a step: the heartbeat is written or old, or a holder lets go; the deadline has passed. */
  datatype Choice = Choice(yes: bool, late: bool)

  datatype State = State(
    lock: Option<Content>, mutation: Option<nat>, tombs: map<nat, Content>, alive: set<nat>, actors: map<nat, Actor>,
    next: nat)
  {
    function To(a: nat, pc: Pc): State
      requires a in actors
    {
      this.(actors := Moved(actors, a, pc))
    }

    function Gone(a: nat): State { this.(actors := actors - {a}) }

    predicate Names(target: nat) { lock.Some? && lock.value.Written? && lock.value.owner == target }

    predicate OwnerIsDead() { lock.Some? && lock.value.Written? && lock.value.pid !in alive }
  }

  /** What a step comes to. */
  function Stepped(s: State, a: nat, choice: Choice): State
    requires a in s.actors
  {
    match s.actors[a].pc
    case Checking => s.To(a, if s.mutation.Some? then Inspecting else Creating)
    case Creating => if s.lock.Some? then s.To(a, Inspecting) else s.To(a, Writing).(lock := Some(Empty(a)))
    case Writing => s.To(a, Beating).(lock := Some(Written(a, s.actors[a].pid)))
    case Beating => s.To(a, if choice.yes then Holding else Claiming(a, true))
    case Holding => if choice.yes then s.To(a, Claiming(a, true)) else s
    case Inspecting =>
      if s.OwnerIsDead() && choice.yes then s.To(a, Claiming(s.lock.value.owner, false))
      else if choice.late then s.Gone(a)
      else if (s.lock.Some? && s.lock.value.Written?) || s.mutation.Some? then s.To(a, Checking)
      else s.Gone(a)
    case Claiming(target, leaving) =>
      if s.mutation == None then s.To(a, Verifying(target, leaving)).(mutation := Some(a))
      else if leaving then s.Gone(a)
      else s.To(a, Checking)
    case Verifying(target, leaving) =>
      s.To(a, if s.Names(target) then Renaming(target, leaving) else Unclaiming(leaving))
    case Renaming(target, leaving) =>
      s.To(a, Reading(target, leaving)).(
        lock := None, tombs := if s.lock.Some? then s.tombs[a := s.lock.value] else s.tombs)
    case Reading(_, leaving) => s.To(a, Unclaiming(leaving)).(tombs := s.tombs - {a})
    case Unclaiming(leaving) => (if leaving then s.Gone(a) else s.To(a, Checking)).(mutation := None)
  }

  function Played(s: State, turn: Turn): State {
    match turn
    case Starts(pid) =>
      s.(alive := s.alive + {pid}, next := s.next + 1, actors := s.actors[s.next := Actor(pid, Checking)])
    case Dies(pid) =>
      s.(alive := s.alive - {pid}, actors := map a | a in s.actors && s.actors[a].pid != pid :: s.actors[a])
    case Acts(a, choice) => if a in s.actors then Stepped(s, a, choice) else s
  }

  function After(s: State, turns: seq<Turn>): State {
    if turns == [] then s else Played(After(s, turns[..|turns| - 1]), turns[|turns| - 1])
  }

  predicate Mutating(pc: Pc) { pc.Verifying? || pc.Renaming? || pc.Reading? || pc.Unclaiming? }

  /** Giving up one's own lock, which is still in place. */
  predicate Leaving(pc: Pc, a: nat) { (pc.Claiming? || pc.Verifying? || pc.Renaming?) && pc.target == a }

  /** The acquisition has got past its look at the mutation file. */
  predicate PastLook(pc: Pc) { pc.Creating? || pc.Writing? || pc.Beating? || pc.Holding? }

  predicate Retiring(pc: Pc) { pc.Claiming? || pc.Verifying? || pc.Renaming? || pc.Reading? }

  class FileSystem {
    var lock: Option<Content>
    var mutation: Option<nat>
    var tombs: map<nat, Content>
    var alive: set<nat>
    var actors: map<nat, Actor>
    var next: nat

    function Now(): State
      reads this
    {
      State(lock, mutation, tombs, alive, actors, next)
    }

    /** What an actor may rely on. */
    ghost predicate Relies(a: nat)
      requires a in actors
      reads this
    {
      var pc := actors[a].pc;
      && a < next && actors[a].pid in alive
      && (pc.Writing? ==> lock == Some(Empty(a)))
      && (pc.Beating? || pc.Holding? ==> lock == Some(Written(a, actors[a].pid)))
      && (Leaving(pc, a) ==> lock == Some(Written(a, actors[a].pid)))
      && (Mutating(pc) ==> mutation == Some(a))
      && (Retiring(pc) ==>
            && pc.target < next
            && (if pc.target == a then pc.leaving else pc.target !in actors && !pc.leaving))
      && (pc.Renaming? ==> lock.Some? && lock.value.Written? && lock.value.owner == pc.target)
      && (pc.Reading? ==> a in tombs && tombs[a].Written? && tombs[a].owner == pc.target)
    }

    ghost predicate Valid()
      reads this
    {
      && (forall a :: a in actors ==> Relies(a))
      && (lock.Some? && lock.value.Written? ==>
            lock.value.owner < next && (lock.value.owner in actors ==> actors[lock.value.owner].pid == lock.value.pid))
      && (lock.Some? && lock.value.Empty? ==> lock.value.creator < next)
      && (mutation.Some? ==> mutation.value < next)
      && (mutation.Some? && mutation.value in actors ==> Mutating(actors[mutation.value].pc))
    }

    predicate Held(a: nat)
      reads this
    {
      a in actors && actors[a].pc.Holding?
    }

    constructor ()
      ensures Valid() && actors == map[] && lock == None && mutation == None && alive == {}
    {
      lock, mutation, tombs, alive, actors, next := None, None, map[], {}, map[], 0;
    }

    /** A process starts, or a call of acquireLaunchLock in one that runs. */
    method Start(pid: nat) returns (a: nat)
      requires Valid()
      modifies `actors, `alive, `next
      ensures Valid() && a == old(next) && next == a + 1 && alive == old(alive) + {pid}
      ensures a !in old(actors) && actors == old(actors)[a := Actor(pid, Checking)]
    {
      a := next;
      alive, next := alive + {pid}, next + 1;
      actors := actors[a := Actor(pid, Checking)];
    }

    /** A process dies, with every actor in it; its files stay. */
    method Die(pid: nat)
      requires Valid()
      modifies `actors, `alive
      ensures Valid() && alive == old(alive) - {pid}
      ensures Now() == Played(old(Now()), Dies(pid))
    {
      alive := alive - {pid};
      actors := map a | a in actors && actors[a].pid != pid :: actors[a];
    }

    method Goto(a: nat, pc: Pc)
      requires a in actors
      modifies `actors
      ensures actors == Moved(old(actors), a, pc)
    {
      actors := actors[a := actors[a].(pc := pc)];
    }

    /** The acquisition succeeds or gives up; either way the actor has nothing more to do. */
    method Leave(a: nat)
      requires Valid() && a in actors && !Mutating(actors[a].pc)
      modifies `actors
      ensures Valid() && actors == old(actors) - {a}
    {
      actors := actors - {a};
    }

    /** acquireLaunchLock: the look at the mutation file. */
    method Look(a: nat)
      requires Valid() && a in actors && actors[a].pc.Checking?
      modifies `actors
      ensures Valid() && actors == Moved(old(actors), a, if mutation.Some? then Inspecting else Creating)
    {
      Goto(a, if mutation.Some? then Inspecting else Creating);
    }

    /** The exclusive creation, which a mutation may have overtaken. */
    method Create(a: nat)
      requires Valid() && a in actors && actors[a].pc.Creating?
      modifies `actors, `lock
      ensures Valid() && lock == if old(lock).Some? then old(lock) else Some(Empty(a))
      ensures actors == Moved(old(actors), a, if old(lock).Some? then Inspecting else Writing)
    {
      if lock.Some? {
        Goto(a, Inspecting);
      } else {
        lock := Some(Empty(a));
        Goto(a, Writing);
      }
    }

    /** The record is written, then the heartbeat; without a heartbeat the lock is given up. */
    method Write(a: nat, choice: Choice)
      requires Valid() && a in actors && (actors[a].pc.Writing? || actors[a].pc.Beating?)
      modifies `actors, `lock
      ensures Valid() && lock == Some(Written(a, old(actors)[a].pid)) && old(lock) in {Some(Empty(a)), lock}
      ensures old(actors)[a].pc.Beating? ==> lock == old(lock)
      ensures actors == Moved(old(actors), a,
        if old(actors)[a].pc.Writing? then Beating else if choice.yes then Holding else Claiming(a, true))
    {
      if actors[a].pc.Writing? {
        lock := Some(Written(a, actors[a].pid));
        Goto(a, Beating);
      } else {
        Goto(a, if choice.yes then Holding else Claiming(a, true));
      }
    }

    /** The lock exists or is being mutated: wait, give up, or reap it if its owner's process is dead. */
    method Inspect(a: nat, choice: Choice)
      requires Valid() && a in actors && actors[a].pc.Inspecting?
      modifies `actors
      ensures Valid()
      ensures actors ==
        if Now().OwnerIsDead() && choice.yes then Moved(old(actors), a, Claiming(lock.value.owner, false))
        else if !choice.late && (mutation.Some? || (lock.Some? && lock.value.Written?))
        then Moved(old(actors), a, Checking)
        else old(actors) - {a}
    {
      if lock == None || lock.value.Empty? {
        if mutation.Some? && !choice.late {
          Goto(a, Checking);
        } else {
          Leave(a);
        }
      } else if choice.yes && lock.value.pid !in alive {
        Goto(a, Claiming(lock.value.owner, false));
      } else if choice.late {
        Leave(a);
      } else {
        Goto(a, Checking);
      }
    }

    /** retireLaunchLock: the mutation file is claimed, by one at a time. */
    method Seize(a: nat)
      requires Valid() && a in actors && actors[a].pc.Claiming?
      modifies `actors, `mutation
      ensures Valid()
      ensures mutation == if old(mutation) == None then Some(a) else old(mutation)
      ensures var pc := old(actors)[a].pc;
        if old(mutation) == None then actors == Moved(old(actors), a, Verifying(pc.target, pc.leaving))
        else actors == if pc.leaving then old(actors) - {a} else Moved(old(actors), a, Checking)
    {
      var target, leaving := actors[a].pc.target, actors[a].pc.leaving;
      if mutation == None {
        mutation := Some(a);
        Goto(a, Verifying(target, leaving));
      } else if leaving {
        Leave(a);
      } else {
        Goto(a, Checking);
      }
    }

    /** The nonce is compared under the claim. */
    method Verify(a: nat)
      requires Valid() && a in actors && actors[a].pc.Verifying?
      modifies `actors
      ensures Valid()
      ensures var pc := old(actors)[a].pc;
        actors == Moved(old(actors), a,
          if lock.Some? && lock.value.Written? && lock.value.owner == pc.target
          then Renaming(pc.target, pc.leaving) else Unclaiming(pc.leaving))
    {
      var target, leaving := actors[a].pc.target, actors[a].pc.leaving;
      var current := lock.Some? && lock.value.Written? && lock.value.owner == target;
      Goto(a, if current then Renaming(target, leaving) else Unclaiming(leaving));
    }

    /** The rename, and the second look at what was renamed. Only the lock that was targeted is ever removed. */
    method Rename(a: nat)
      requires Valid() && a in actors && (actors[a].pc.Renaming? || actors[a].pc.Reading?)
      modifies `actors, `lock, `tombs
      ensures Valid()
      ensures var pc := old(actors)[a].pc;
        if pc.Renaming? then
          && old(lock).Some? && old(lock).value.Written? && old(lock).value.owner == pc.target && lock == None
          && actors == Moved(old(actors), a, Reading(pc.target, pc.leaving))
        else
          lock == old(lock) && actors == Moved(old(actors), a, Unclaiming(pc.leaving))
      ensures tombs == if old(actors)[a].pc.Renaming? then old(tombs)[a := old(lock).value] else old(tombs) - {a}
    {
      var target, leaving := actors[a].pc.target, actors[a].pc.leaving;
      if actors[a].pc.Renaming? {
        tombs := if lock.Some? then tombs[a := lock.value] else tombs;
        lock := None;
        Goto(a, Reading(target, leaving));
      } else {
        var moved := tombs[a];
        var wrong := moved.Empty? || moved.owner != target;
        lock := if wrong && lock == None then Some(moved) else lock;
        tombs := tombs - {a};
        Goto(a, Unclaiming(leaving));
      }
    }

    /** The finally block: the claim that is removed is one's own. */
    method Unclaim(a: nat)
      requires Valid() && a in actors && actors[a].pc.Unclaiming?
      modifies `actors, `mutation
      ensures Valid() && old(mutation) == Some(a) && mutation == None
      ensures actors == if old(actors)[a].pc.leaving then old(actors) - {a} else Moved(old(actors), a, Checking)
    {
      var leaving := actors[a].pc.leaving;
      if mutation == Some(a) {
        mutation := None;
      }
      if leaving {
        actors := actors - {a};
      } else {
        Goto(a, Checking);
      }
    }

    /** releaseLaunchLock. */
    method Release(a: nat)
      requires Valid() && Held(a)
      modifies `actors
      ensures Valid() && actors == Moved(old(actors), a, Claiming(a, true))
    {
      Goto(a, Claiming(a, true));
    }

    /** What a step does not touch. */
    lemma StepFacts(a: nat, choice: Choice)
      requires Valid() && a in actors
      ensures var s := Stepped(Now(), a, choice);
        && s.actors.Keys <= actors.Keys && OthersStay(actors, s.actors, a)
        && (Orphaned(mutation, actors) ==> s.mutation == mutation && NoneNew(actors, s.actors))
        && (Stranded(lock, actors, alive) ==> s.lock == lock && Stranded(s.lock, s.actors, alive))
        && (Vacant(lock, actors) ==> s.lock == lock && Vacant(s.lock, s.actors))
    {
      assert Relies(a);
      hide Relies;
    }

    /** One step of one actor. */
    method Advance(a: nat, choice: Choice)
      requires Valid() && a in actors
      modifies `actors, `lock, `mutation, `tombs
      ensures Valid() && Now() == Stepped(old(Now()), a, choice)
      ensures actors.Keys <= old(actors).Keys && OthersStay(old(actors), actors, a)
      ensures Orphaned(old(mutation), old(actors)) ==> mutation == old(mutation) && NoneNew(old(actors), actors)
      ensures Stranded(old(lock), old(actors), alive) ==> lock == old(lock) && Stranded(lock, actors, alive)
      ensures Vacant(old(lock), old(actors)) ==> lock == old(lock) && Vacant(lock, actors)
    {
      hide Relies, Stepped;
      StepFacts(a, choice);
      Step(a, choice);
    }

    method Step(a: nat, choice: Choice)
      requires Valid() && a in actors
      modifies `actors, `lock, `mutation, `tombs
      ensures Valid() && Now() == Stepped(old(Now()), a, choice)
    {
      hide Relies;
      var pc := actors[a].pc;
      if pc.Checking? {
        Look(a);
      } else if pc.Creating? {
        Create(a);
      } else if pc.Writing? || pc.Beating? {
        Write(a, choice);
      } else if pc.Inspecting? {
        Inspect(a, choice);
      } else if pc.Claiming? {
        Seize(a);
      } else if pc.Verifying? {
        Verify(a);
      } else if pc.Renaming? || pc.Reading? {
        Rename(a);
      } else if pc.Unclaiming? {
        Unclaim(a);
      } else if choice.yes {
        Release(a);
      }
    }

    /** At most one actor of the live processes believes that it holds the lock, and the file names it. */
    lemma OneHolder(a: nat, b: nat)
      requires Valid() && Held(a) && Held(b)
      ensures a == b && lock == Some(Written(a, actors[a].pid))
    {
      assert Relies(a) && Relies(b);
    }

    /** Whatever another actor does, a holder keeps the lock, and the file stays as it is. */
    method Undisturbed(h: nat, a: nat, choice: Choice)
      requires Valid() && Held(h) && a in actors && a != h
      modifies `actors, `lock, `mutation, `tombs
      ensures Valid() && Held(h) && lock == old(lock)
    {
      assert Relies(h);
      Advance(a, choice);
      assert Relies(h);
    }

    /** With no lock and no claim, and left alone, an acquisition succeeds. */
    method AcquireFree(pid: nat) returns (a: nat)
      requires Valid() && lock == None && mutation == None
      modifies this
      ensures Valid() && Held(a) && a !in old(actors) && actors == old(actors)[a := Actor(pid, Holding)]
      ensures lock == Some(Written(a, pid)) && mutation == None && alive == old(alive) + {pid}
    {
      hide Relies;
      a := Start(pid);
      Take(a);
    }

    /** The straight way from the look at the mutation file to the lock. */
    method Take(a: nat)
      requires Valid() && a in actors && actors[a].pc.Checking? && lock == None && mutation == None
      modifies `actors, `lock
      ensures Valid() && Held(a) && lock == Some(Written(a, actors[a].pid))
      ensures actors == Moved(old(actors), a, Holding)
    {
      Look(a);
      Create(a);
      Write(a, Choice(true, false));
      Write(a, Choice(true, false));
    }

    /** Left alone, the owner of a lock, or whoever finds its owner dead, removes it and its own claim. */
    method Retire(a: nat)
      requires Valid() && a in actors && actors[a].pc.Claiming? && mutation == None
      requires lock.Some? && lock.value.Written? && lock.value.owner == actors[a].pc.target
      modifies `actors, `lock, `mutation, `tombs
      ensures Valid() && lock == None && mutation == None
      ensures actors == if old(actors)[a].pc.leaving then old(actors) - {a} else Moved(old(actors), a, Checking)
    {
      Seize(a);
      Verify(a);
      Rename(a);
      Rename(a);
      Unclaim(a);
    }

    /** A released lock is free again. */
    method ReleaseAlone(a: nat)
      requires Valid() && Held(a) && mutation == None
      modifies `actors, `lock, `mutation, `tombs
      ensures Valid() && lock == None && mutation == None && actors == old(actors) - {a}
    {
      assert Relies(a);
      Release(a);
      Retire(a);
    }

    /** A lock whose owner's process is dead is reaped, and taken. */
    method ReapAlone(pid: nat) returns (a: nat)
      requires Valid() && lock.Some? && lock.value.Written? && mutation == None
      requires lock.value.pid !in alive && lock.value.pid != pid
      modifies this
      ensures Valid() && Held(a) && a !in old(actors) && actors == old(actors)[a := Actor(pid, Holding)]
      ensures lock == Some(Written(a, pid)) && mutation == None && alive == old(alive) + {pid}
      ensures a != old(lock).value.owner
    {
      hide Relies;
      a := Start(pid);
      Look(a);
      Create(a);
      Inspect(a, Choice(true, false));
      Retire(a);
      Take(a);
    }

    /** Once a release has its claim nothing keeps it from its lock. */
    lemma ReleaseIsCertain(a: nat)
      requires Valid() && a in actors && Leaving(actors[a].pc, a)
      ensures lock == Some(Written(a, actors[a].pid))
    {
      assert Relies(a);
    }

    /**
     releaseLaunchLock at its claim, and amid anything the others do afterwards, as long as its process lives:
     it removes the lock exactly if it finds the mutation file free. Otherwise it leaves, and the lock stays
     behind with no one to hold it.
     */
    method ReleaseAmidst(a: nat, between: seq<Turn>, after: seq<Turn>) returns (removed: bool)
      requires Valid() && a in actors && actors[a].pc == Claiming(a, true)
      requires Spares(between, a, actors[a].pid) && Spares(after, a, actors[a].pid)
      modifies this
      ensures Valid()
      ensures removed <==> old(mutation) == None
      ensures removed ==> lock == None && a in actors && actors[a].pc == Reading(a, true)
      ensures !removed ==> a !in actors && lock == Some(Written(a, old(actors)[a].pid))
      ensures !removed ==> mutation == old(mutation) && Stranded(lock, actors, alive)
    {
      assert Relies(a);
      assert forall b :: b in actors && b != a ==> Relies(b);
      assert forall b :: b in actors && b != a && Retiring(actors[b].pc) ==> actors[b].pc.target != a;
      hide Relies;
      removed := mutation == None;
      Seize(a);
      if !removed {
        return;
      }
      Run(between);
      ReleaseIsCertain(a);
      Verify(a);
      Run(after);
      ReleaseIsCertain(a);
      Rename(a);
    }

    /**
     A process died between the creation of its lock and the record: any acquisition that is left alone, with
     no mutation on the way, is refused, and the lock stays.
     */
    method RefusedAsCorrupt(pid: nat, choice: Choice)
      requires Valid() && Vacant(lock, actors) && mutation == None
      modifies this
      ensures Valid() && Vacant(lock, actors) && lock == old(lock) && mutation == None && actors == old(actors)
    {
      hide Relies;
      var a := Start(pid);
      Look(a);
      Create(a);
      Inspect(a, choice);
    }

    lemma VacantIsUnheld(a: nat)
      requires Valid() && Vacant(lock, actors) && a in actors
      ensures !actors[a].pc.Writing? && !actors[a].pc.Beating? && !actors[a].pc.Holding?
    {
      assert Relies(a);
    }

    /**
     Any schedule of starts, steps and deaths. From the moment a process dies with its claim on the
     mutation file, no acquisition that has not yet looked at that file ever succeeds; from the moment one
     dies with its lock still empty, none succeeds at all.
     */
    method Run(turns: seq<Turn>)
      requires Valid()
      modifies this
      ensures Valid() && Now() == After(old(Now()), turns)
      ensures forall a, b :: Held(a) && Held(b) ==> a == b
      ensures Orphaned(old(mutation), old(actors)) ==>
        mutation == old(mutation) && Orphaned(mutation, actors) && NoneNew(old(actors), actors)
      ensures forall a :: a in old(actors) && Spares(turns, a, old(actors)[a].pid) ==>
        a in actors && actors[a] == old(actors)[a]
      ensures Stranded(old(lock), old(actors), old(alive)) && Survives(turns, old(lock).value.pid) ==>
        lock == old(lock) && Stranded(lock, actors, alive)
      ensures Vacant(old(lock), old(actors)) ==>
        lock == old(lock) && Vacant(lock, actors) && forall a :: !Held(a)
    {
      for i := 0 to |turns|
        invariant Valid() && old(next) <= next
        invariant Now() == After(old(Now()), turns[..i])
        invariant forall a :: a in old(actors) && Spares(turns, a, old(actors)[a].pid) ==>
          a in actors && actors[a] == old(actors)[a]
        invariant Stranded(old(lock), old(actors), old(alive)) && Survives(turns, old(lock).value.pid) ==>
          lock == old(lock) && Stranded(lock, actors, alive)
        invariant Vacant(old(lock), old(actors)) ==> lock == old(lock) && Vacant(lock, actors)
        invariant Orphaned(old(mutation), old(actors)) ==>
          mutation == old(mutation) && Orphaned(mutation, actors) && NoneNew(old(actors), actors)
      {
        assert turns[..i + 1][..i] == turns[..i];
        match turns[i] {
          case Starts(pid) => var _ := Start(pid);
          case Dies(pid) => Die(pid);
          case Acts(a, choice) =>
            if a in actors {
              Advance(a, choice);
            }
        }
      }
      assert turns[..|turns|] == turns;
      forall a, b | Held(a) && Held(b) ensures a == b {
        OneHolder(a, b);
      }
      if a :| Held(a) && Vacant(lock, actors) {
        VacantIsUnheld(a);
      }
    }
  }

  /** The lock names an actor that is no more, in a process that still runs, and nobody is about to reap it. */
  predicate Stranded(lock: Option<Content>, actors: map<nat, Actor>, alive: set<nat>) {
    && lock.Some? && lock.value.Written? && lock.value.owner !in actors && lock.value.pid in alive
    && forall a :: a in actors && Retiring(actors[a].pc) ==> actors[a].pc.target != lock.value.owner
  }

  /** The lock is empty, and the actor that was to write its record is no more. */
  predicate Vacant(lock: Option<Content>, actors: map<nat, Actor>) {
    lock.Some? && lock.value.Empty? && lock.value.creator !in actors
  }

  /** The schedule leaves the actor alone, and its process alive. */
  predicate Spares(turns: seq<Turn>, a: nat, pid: nat) {
    forall i :: 0 <= i < |turns| ==> !(turns[i].Acts? && turns[i].actor == a) && turns[i] != Dies(pid)
  }

  predicate Survives(turns: seq<Turn>, pid: nat) {
    forall i :: 0 <= i < |turns| ==> turns[i] != Dies(pid)
  }

  datatype Turn = Starts(pid: nat) | Dies(pid: nat) | Acts(actor: nat, choice: Choice)

  function Moved(actors: map<nat, Actor>, a: nat, pc: Pc): map<nat, Actor>
    requires a in actors
  {
    actors[a := actors[a].(pc := pc)]
  }

  /** The claim of an actor that has died: nobody removes it. */
  predicate Orphaned(mutation: Option<nat>, actors: map<nat, Actor>) {
    mutation.Some? && mutation.value !in actors
  }

  /** Nobody new is on the way to the lock. */
  predicate NoneNew(before: map<nat, Actor>, now: map<nat, Actor>) {
    forall a :: a in now && PastLook(now[a].pc) ==> a in before && PastLook(before[a].pc)
  }

  predicate OthersStay(before: map<nat, Actor>, now: map<nat, Actor>, a: nat) {
    forall b :: b in before && b != a ==> b in now && now[b] == before[b]
  }

  /** A process dies with its claim on the mutation file: every later acquisition fails. */
  method OrphanedClaim(pid: nat) returns (files: FileSystem)
    ensures fresh(files) && files.Valid() && Orphaned(files.mutation, files.actors)
  {
    files := new FileSystem();
    var a := files.AcquireFree(pid);
    files.Release(a);
    files.Seize(a);
    files.Die(pid);
  }

  /** A reaper is about to act on a lock whose owner's process is dead. */
  method LateReaper(dead: nat, reaper: nat) returns (files: FileSystem, b: nat)
    requires dead != reaper
    ensures fresh(files) && files.Valid() && files.mutation == None && files.alive == {reaper}
    ensures files.lock.Some? && files.lock.value.Written? && files.lock.value.pid == dead
    ensures files.actors == map[b := Actor(reaper, Claiming(files.lock.value.owner, false))]
  {
    hide FileSystem.Relies;
    files := new FileSystem();
    var x := files.AcquireFree(dead);
    files.Die(dead);
    assert files.actors == map[];
    b := files.Start(reaper);
    files.Look(b);
    files.Create(b);
    files.Inspect(b, Choice(true, false));
  }

  /** A release that meets that reaper's claim: its lock stays behind, and its process lives on. */
  method StrandedLock(dead: nat, reaper: nat, holder: nat) returns (files: FileSystem)
    requires dead != reaper && dead != holder
    ensures fresh(files) && files.Valid() && Stranded(files.lock, files.actors, files.alive)
  {
    hide FileSystem.Relies;
    var b;
    files, b := LateReaper(dead, reaper);
    var a := files.ReapAlone(holder);
    files.Seize(b);
    files.Release(a);
    files.Seize(a);
  }

  /** A process dies between the creation of its lock and the record. */
  method VacantLock(pid: nat) returns (files: FileSystem)
    ensures fresh(files) && files.Valid() && Vacant(files.lock, files.actors)
  {
    files := new FileSystem();
    var a := files.Start(pid);
    files.Look(a);
    files.Create(a);
    files.Die(pid);
  }
}
