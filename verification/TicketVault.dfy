/**
 The rotation of a Claude CONTROL ticket: the bundles in memory, the vault on disk, and the Hub, which
 holds one bundle active. Every effect consumes a Fault, so a script of faults fixes a failure, a lost
 response or a crash at any point; when the script is used up, all goes well.

 The Hub is assumed to rotate atomically, and to answer a repeated rotation of the same two bundles with
 the rotation it already made.
 */
module TicketVault {
  import opened Common

  datatype Phase = Preparing | Offered | Activating | Active

  datatype Session = Session(
    project: nat, run: nat, id: nat, lineage: nat, incarnation: nat, external: nat, thread: Option<nat>)

  datatype Mode = FirstLineage | CurrentHeadReplacement | ManagedReservation | SessionAuxiliary

  datatype Context = Context(
    mode: Mode, project: nat, run: nat, external: nat, thread: Option<nat>, lineage: Option<nat>, head: Option<nat>)

  datatype Binding = Binding(bundleId: nat, project: nat, run: nat, sessionId: nat, lineage: nat, incarnation: nat)

  datatype Rotation = Rotation(next: Binding, superseded: nat)

  datatype Bundle = Bundle(
    id: nat, phase: Phase, context: Context, token: nat, offered: bool, attempted: bool,
    binding: Option<Binding>, receipt: Option<Rotation>)

  datatype Vault = Vault(current: Option<Bundle>, successor: Option<Bundle>)

  datatype Fault = Go | FailBefore | FailAfter | CrashBefore | CrashAfter
  {
    predicate Applies() { Go? || FailAfter? || CrashAfter? }
    predicate Crashes() { CrashBefore? || CrashAfter? }
  }

  datatype Code =
    NotActive | OtherSession | OtherBinding | NoReceipt | BadRotation | NotCommittable
    | VaultRejected | HubRejected | EffectFailed

  datatype Outcome<+T> = Done(value: T) | Thrown(code: Code) | Crashed
  {
    predicate IsFailure() { !Done? }
    function PropagateFailure<U>(): Outcome<U>
      requires IsFailure()
    {
      if Crashed? then Crashed else Thrown(code)
    }
    function Extract(): T
      requires Done?
    {
      value
    }
  }

  /** The fault the next effect meets. */
  function NextOf(faults: seq<Fault>): Fault { if faults == [] then Go else faults[0] }

  function BindingOf(id: nat, s: Session): Binding {
    Binding(id, s.project, s.run, s.id, s.lineage, s.incarnation)
  }

  /** The context of a renewal's successor. */
  function Auxiliary(b: Binding, s: Session): Context {
    Context(SessionAuxiliary, b.project, b.run, s.external, s.thread, Some(b.lineage), Some(b.sessionId))
  }

  predicate BundleOk(b: Bundle) {
    && (b.phase == Active <==> b.binding.Some?)
    && (b.binding.Some? ==>
          && b.binding.value.bundleId == b.id
          && b.binding.value.project == b.context.project && b.binding.value.run == b.context.run)
    && (b.receipt.Some? ==> b.binding.Some? && b.receipt.value.next.bundleId == b.binding.value.bundleId)
  }

  /** The relations the vault's schema enforces on every save and load. */
  predicate VaultOk(v: Vault) {
    && (v.current.Some? ==> BundleOk(v.current.value))
    && (v.successor.Some? ==> BundleOk(v.successor.value))
    && (v.successor.Some? ==> v.current.Some? && v.current.value.phase == Active)
    && (v.current.Some? && v.successor.Some? ==> v.successor.value.id != v.current.value.id)
  }

  /** The Hub's side: the session, its active bundle, the token of each bundle offered, the rotations made. */
  datatype Hub = Hub(session: Session, active: nat, tokens: map<nat, nat>, rotations: map<(nat, nat), Rotation>)

  predicate HubOk(h: Hub) {
    && h.active in h.tokens
    && forall k :: k in h.rotations ==>
         k.0 in h.tokens && k.1 in h.tokens && h.rotations[k] == Rotation(BindingOf(k.1, h.session), k.0)
  }

  /** assertSessionBinding. */
  predicate BelongsTo(b: Bundle, s: Session) {
    && b.binding.Some?
    && b.binding.value.(bundleId := 0) == BindingOf(0, s)
    && b.context.external == s.external
  }

  /** assertRotation. */
  predicate Rotates(current: Bundle, successor: Bundle, r: Rotation)
    requires current.binding.Some?
  {
    && r.next == current.binding.value.(bundleId := successor.id, project := r.next.project)
    && r.superseded == current.id
  }

  predicate Registered(b: Bundle, h: Hub) {
    b.id in h.tokens && h.tokens[b.id] == b.token
  }

  /** The vault can go on from here. */
  predicate Alive(v: Vault, h: Hub) {
    && v.current.Some? && BundleOk(v.current.value) && v.current.value.phase == Active
    && Registered(v.current.value, h)
    && v.current.value.binding == Some(BindingOf(v.current.value.id, h.session))
    && v.current.value.context.external == h.session.external
    && (v.successor.Some? ==> SuccessorFits(v.current.value, v.successor.value, h))
    && (h.active == v.current.value.id || (v.successor.Some? && h.active == v.successor.value.id))
  }

  predicate SuccessorFits(current: Bundle, successor: Bundle, h: Hub) {
    && successor.id != current.id && BundleOk(successor)
    && successor.context ==
         Auxiliary(BindingOf(current.id, h.session), h.session).(thread := successor.context.thread)
    && (successor.id in h.tokens ==> h.tokens[successor.id] == successor.token)
    && (successor.offered ==> successor.id in h.tokens)
    && ((current.id, successor.id) in h.rotations <==> h.active == successor.id)
    && (h.active == successor.id ==> successor.offered)
    && (successor.phase == Active ==>
          && h.active == successor.id
          && successor.binding == Some(BindingOf(successor.id, h.session))
          && successor.receipt == Some(h.rotations[(current.id, successor.id)]))
  }

  /** The raw token of the Hub's active bundle is in the vault. */
  predicate HoldsActiveToken(v: Vault, h: Hub) {
    exists b :: b in Bundles(v) && b.id == h.active && Registered(b, h)
  }

  function Bundles(v: Vault): set<Bundle> {
    (if v.current.Some? then {v.current.value} else {}) + (if v.successor.Some? then {v.successor.value} else {})
  }

  lemma AliveHoldsToken(v: Vault, h: Hub)
    requires Alive(v, h)
    ensures VaultOk(v) && HoldsActiveToken(v, h)
  {
    var b := if h.active == v.current.value.id then v.current.value else v.successor.value;
    assert b in Bundles(v) && b.id == h.active && Registered(b, h);
  }

  /** One bundle, one token, whichever of the two copies holds it. */
  predicate Agree(v: Vault, w: Vault) {
    v.successor.Some? && w.successor.Some? && v.successor.value.id == w.successor.value.id ==>
      v.successor.value.token == w.successor.value.token
  }

  /** The Hub takes the offer: it comes from its active bundle, and is the one it has, if it has one. */
  predicate Offers(h: Hub, current: Bundle, b: Bundle) {
    && current.id in h.tokens && h.tokens[current.id] == current.token && h.active == current.id
    && (b.id in h.tokens ==> h.tokens[b.id] == b.token)
  }

  /** What the Hub remembers is never changed. */
  predicate Remembers(h: Hub, later: Hub) {
    && later.session == h.session
    && (forall id :: id in h.tokens ==> id in later.tokens && later.tokens[id] == h.tokens[id])
    && (forall k :: k in h.rotations ==> k in later.rotations && later.rotations[k] == h.rotations[k])
  }

  class Runtime {
    var memory: Option<Vault>
    var disk: Vault
    var hub: Hub
    var faults: seq<Fault>
    /** The next identifier drawn; its ticket is drawn with it. */
    var next: nat

    ghost predicate Valid()
      reads this
    {
      && HubOk(hub) && (forall id :: id in hub.tokens ==> id < next)
      && Alive(disk, hub) && (disk.successor.Some? ==> disk.successor.value.id < next)
      && (memory.Some? ==>
            && Alive(memory.value, hub) && Agree(memory.value, disk)
            && (memory.value.successor.Some? ==> memory.value.successor.value.id < next))
    }

    /** The vault the runtime works on: loaded once, then kept in memory. */
    ghost function View(): Vault
      reads this
    {
      if memory.Some? then memory.value else disk
    }

    predicate Calm()
      reads this
    {
      forall i :: 0 <= i < |faults| ==> faults[i] == Go
    }

    /** A registered session, its ACTIVE bundle saved. */
    constructor (session: Session, context: Context, token: nat, faults: seq<Fault>)
      requires context.project == session.project && context.run == session.run && context.external == session.external
      ensures Valid() && memory == None && this.faults == faults
      ensures hub.session == session && disk.successor == None
    {
      memory := None;
      disk := Vault(Some(Bundle(0, Active, context, token, true, true, Some(BindingOf(0, session)), None)), None);
      hub := Hub(session, 0, map[0 := token], map[]);
      this.faults, next := faults, 1;
    }

    method Take() returns (f: Fault)
      modifies `faults
      ensures f == NextOf(old(faults))
      ensures old(Calm()) ==> Calm() && f == Go
    {
      if faults == [] {
        return Go;
      }
      f, faults := faults[0], faults[1..];
    }

    /** The process starts again: memory is gone. */
    method Restart()
      requires Valid()
      modifies `memory
      ensures Valid() && memory == None
    {
      memory := None;
    }

    method Load() returns (v: Vault)
      requires Valid()
      modifies `memory
      ensures Valid() && memory == Some(v) && v == old(View())
    {
      if memory == None {
        memory := Some(disk);
      }
      v := memory.value;
    }

    /** Memory already holds the new vault; a failed save leaves it ahead of the disk. */
    method Persist() returns (r: Outcome<()>)
      requires Valid() && memory.Some?
      modifies `memory, `disk, `faults
      ensures Valid()
      ensures disk == if NextOf(old(faults)) in {Go, FailAfter, CrashAfter} then old(memory).value else old(disk)
      ensures r.Done? <==> NextOf(old(faults)) == Go
      ensures r.Crashed? <==> NextOf(old(faults)) in {CrashBefore, CrashAfter}
      ensures r.Thrown? ==> r.code == EffectFailed
      ensures memory == if r.Crashed? then None else old(memory)
      ensures old(Calm()) ==> Calm() && r.Done?
    {
      hide Alive;
      AliveHoldsToken(memory.value, hub);
      if !VaultOk(memory.value) {
        return Thrown(VaultRejected);
      }
      var f := Take();
      if f.Applies() {
        disk := memory.value;
      }
      if f.Crashes() {
        memory := None;
        return Crashed;
      }
      return if f.Go? then Done(()) else Thrown(EffectFailed);
    }

    /** createSessionTicketOffer, idempotent by the bundle. */
    method HubOffer(current: Bundle, b: Bundle) returns (r: Outcome<()>)
      requires Valid() && memory.Some? && memory.value.current == Some(current) && memory.value.successor == Some(b)
      modifies `memory, `hub, `faults
      ensures Valid() && Remembers(old(hub), hub) && hub == old(hub).(tokens := hub.tokens)
      ensures hub ==
        if NextOf(old(faults)) in {Go, FailAfter, CrashAfter} && Offers(old(hub), current, b)
        then old(hub).(tokens := old(hub).tokens[b.id := b.token]) else old(hub)
      ensures r.Done? <==> NextOf(old(faults)) == Go && Offers(old(hub), current, b)
      ensures r.Crashed? <==>
        || NextOf(old(faults)) == CrashBefore
        || (NextOf(old(faults)) == CrashAfter && Offers(old(hub), current, b))
      ensures r.Done? ==> b.id in hub.tokens
      ensures memory == if r.Crashed? then None else old(memory)
      ensures old(Calm()) ==> Calm() && (current.id == hub.active ==> r.Done?)
    {
      var f := Take();
      if f.Applies() {
        if !Registered(current, hub) || hub.active != current.id {
          return Thrown(HubRejected);
        }
        if b.id !in hub.tokens {
          hub := hub.(tokens := hub.tokens[b.id := b.token]);
        } else if hub.tokens[b.id] != b.token {
          return Thrown(HubRejected);
        }
      }
      if f.Crashes() {
        memory := None;
        return Crashed;
      }
      return if f.Go? then Done(()) else Thrown(EffectFailed);
    }

    /** rotateAdapterSessionTickets: at most one rotation of a pair, and always the same answer. */
    method HubRotate(current: Bundle, successor: Bundle) returns (r: Outcome<Rotation>)
      requires Valid() && memory == Some(disk) && memory.value == Vault(Some(current), Some(successor))
      requires successor.offered && successor.phase != Active
      modifies `memory, `hub, `faults
      ensures Valid() && Remembers(old(hub), hub)
      ensures r.Done? ==>
        (current.id, successor.id) in hub.rotations && r.value == hub.rotations[(current.id, successor.id)]
      ensures memory == if r.Crashed? then None else old(memory)
      ensures r.Done? <==> NextOf(old(faults)) == Go
      ensures r.Crashed? <==> NextOf(old(faults)) in {CrashBefore, CrashAfter}
      ensures r.Thrown? ==> r.code == EffectFailed
      ensures hub ==
        if NextOf(old(faults)) !in {Go, FailAfter, CrashAfter} || (current.id, successor.id) in old(hub).rotations
        then old(hub)
        else
          var made := Rotation(BindingOf(successor.id, old(hub).session), current.id);
          old(hub).(active := successor.id, rotations := old(hub).rotations[(current.id, successor.id) := made])
      ensures hub.rotations.Keys <= old(hub).rotations.Keys + {(current.id, successor.id)}
      ensures old(Calm()) ==> Calm() && r.Done?
    {
      var f := Take();
      if f.Applies() {
        if !Registered(current, hub) {
          return Thrown(HubRejected);
        }
        if (current.id, successor.id) !in hub.rotations {
          if hub.active != current.id || successor.id !in hub.tokens {
            return Thrown(HubRejected);
          }
          var made := Rotation(BindingOf(successor.id, hub.session), current.id);
          hub := hub.(active := successor.id, rotations := hub.rotations[(current.id, successor.id) := made]);
        }
      }
      if f.Crashes() {
        memory := None;
        return Crashed;
      }
      if !f.Go? {
        return Thrown(EffectFailed);
      }
      return Done(hub.rotations[(current.id, successor.id)]);
    }

    /** The successor at hand in memory, or a fresh one. */
    method TakeSuccessor(context: Context) returns (r: Outcome<Bundle>)
      requires Valid() && memory.Some?
      requires context ==
        Auxiliary(memory.value.current.value.binding.value, hub.session).(thread := context.thread)
      modifies `memory, `disk, `faults, `next
      ensures Valid() && next >= old(next)
      ensures r.Done? ==> memory == Some(old(memory).value.(successor := Some(r.value)))
      ensures !r.Crashed? ==> memory.Some? && memory.value.current == old(memory).value.current
      ensures old(memory).value.successor.Some? ==> r == Done(old(memory).value.successor.value)
      ensures old(memory).value.successor == None && r.Done? ==>
        r.value.phase == Preparing && !r.value.offered && r.value.context == context
      ensures r.Crashed? ==> memory == None
      ensures old(Calm()) ==> Calm() && r.Done?
    {
      var v := memory.value;
      if v.successor == None {
        var drawn := Bundle(next, Preparing, context, next, false, false, None, None);
        next := next + 1;
        memory := Some(v.(successor := Some(drawn)));
        var _ :- Persist();
        return Done(drawn);
      }
      return Done(v.successor.value);
    }

    /** The offer of a successor not yet offered, saved. */
    method Offer(current: Bundle, successor: Bundle) returns (r: Outcome<Bundle>)
      requires Valid() && memory == Some(Vault(Some(current), Some(successor))) && successor.phase != Active
      modifies `memory, `disk, `hub, `faults
      ensures Valid() && Remembers(old(hub), hub)
      ensures hub == old(hub).(tokens := hub.tokens)
      ensures successor.offered ==> r == Done(successor) && hub == old(hub) && disk == old(disk)
      ensures !successor.offered && r.Done? ==> successor.id in hub.tokens && memory == Some(disk)
      ensures !r.Crashed? ==> Keeps(memory, current, successor)
      ensures r.Crashed? ==> memory == None
      ensures r.Done? ==>
        memory == Some(Vault(Some(current), Some(r.value))) && r.value.offered && r.value.phase != Active
      ensures old(Calm()) ==> Calm() && r.Done?
    {
      if successor.offered {
        return Done(successor);
      }
      var _ :- HubOffer(current, successor);
      var offered := successor.(offered := true, phase := Offered);
      memory := Some(Vault(Some(current), Some(offered)));
      var _ :- Persist();
      return Done(offered);
    }

    method Attempt(current: Bundle, successor: Bundle) returns (r: Outcome<Bundle>)
      requires Valid() && memory == Some(Vault(Some(current), Some(successor)))
      requires successor.phase != Active && successor.offered
      modifies `memory, `disk, `faults
      ensures Valid()
      ensures !r.Crashed? ==> Keeps(memory, current, successor)
      ensures r.Crashed? ==> memory == None
      ensures r.Done? ==>
        && r.value == successor.(phase := Activating, attempted := true)
        && memory == Some(disk) && disk == Vault(Some(current), Some(r.value))
      ensures old(Calm()) ==> Calm() && r.Done?
    {
      var attempted := successor.(phase := Activating, attempted := true);
      memory := Some(Vault(Some(current), Some(attempted)));
      var _ :- Persist();
      return Done(attempted);
    }

    /** The rotation's answer, checked and saved: from here the successor is ACTIVE. */
    method Settle(current: Bundle, successor: Bundle, rotation: Rotation) returns (r: Outcome<Rotation>)
      requires Valid() && memory == Some(Vault(Some(current), Some(successor)))
      requires (current.id, successor.id) in hub.rotations && rotation == hub.rotations[(current.id, successor.id)]
      modifies `memory, `disk, `faults
      ensures Valid()
      ensures !r.Crashed? ==> Keeps(memory, current, successor) && memory.value.successor.value.phase == Active
      ensures r.Crashed? ==> memory == None
      ensures r.Done? ==> r.value == rotation
      ensures old(Calm()) ==> Calm() && r.Done?
    {
      if !Rotates(current, successor, rotation) {
        return Thrown(BadRotation);
      }
      var active := successor.(phase := Active, binding := Some(rotation.next), receipt := Some(rotation));
      memory := Some(Vault(Some(current), Some(active)));
      var _ :- Persist();
      return Done(rotation);
    }

    /** From the offer to the rotation, resuming wherever an earlier attempt stopped. */
    method Drive(current: Bundle, successor: Bundle) returns (r: Outcome<Rotation>)
      requires Valid() && memory == Some(Vault(Some(current), Some(successor))) && successor.phase != Active
      modifies `memory, `disk, `hub, `faults
      ensures Valid() && Remembers(old(hub), hub)
      ensures r.Crashed? ==> memory == None
      ensures !r.Crashed? ==> Keeps(memory, current, successor)
      ensures r.Done? ==> Activated(memory.value, hub, r.value)
      ensures old(hub).active != current.id ==> hub.active == old(hub).active && hub.rotations == old(hub).rotations
      ensures old(Calm()) ==> Calm() && r.Done?
    {
      var offered :- Offer(current, successor);
      var attempted :- Attempt(current, offered);
      var rotation :- HubRotate(current, attempted);
      r := Settle(current, attempted, rotation);
    }

    /**
     activateSuccessor. Undisturbed it succeeds exactly for the session the current bundle is bound to, with the
     external thread of a successor that is already at hand; for any other it changes nothing.
     */
    method ActivateSuccessor(session: Session) returns (r: Outcome<Rotation>)
      requires Valid()
      modifies `memory, `disk, `hub, `faults, `next
      ensures Valid() && Remembers(old(hub), hub)
      ensures r.Crashed? ==> memory == None
      ensures !r.Crashed? ==>
        && memory.Some? && memory.value.current == old(View()).current
        && (old(View()).successor.Some? ==> Keeps(memory, old(View()).current.value, old(View()).successor.value))
      ensures r.Done? ==>
        Activated(memory.value, hub, r.value) && memory.value.successor.value.context.thread == session.thread
      ensures r.Done? && old(hub).active != old(View()).current.value.id ==>
        && hub.active == old(hub).active
        && hub.rotations == old(hub).rotations
        && (old(View()).current.value.id, hub.active) in hub.rotations
        && r.value == hub.rotations[(old(View()).current.value.id, hub.active)]
      ensures !Accepts(old(View()), hub, session) ==>
        r.Thrown? && hub == old(hub) && disk == old(disk) && View() == old(View())
      ensures old(Calm()) ==> Calm() && (r.Done? <==> Accepts(old(View()), hub, session))
    {
      hide Agree;
      var v := Load();
      if v.current == None || v.current.value.phase != Active || v.current.value.binding == None {
        return Thrown(NotActive);
      }
      var current := v.current.value;
      if !BelongsTo(current, session) {
        return Thrown(OtherSession);
      }
      var context := Auxiliary(current.binding.value, session);
      if v.successor.Some? && v.successor.value.context != context {
        return Thrown(OtherBinding);
      }
      var successor :- TakeSuccessor(context);
      if successor.phase == Active {
        if successor.receipt == None || successor.binding == None {
          return Thrown(NoReceipt);
        }
        if !Rotates(current, successor, successor.receipt.value) {
          return Thrown(BadRotation);
        }
        return Done(successor.receipt.value);
      }
      r := Drive(current, successor);
    }

    method CommitSuccessor(bundleId: nat) returns (r: Outcome<()>)
      requires Valid()
      modifies `memory, `disk, `faults
      ensures Valid()
      ensures r.Crashed? ==> memory == None
      ensures r == Thrown(NotCommittable) <==> !Committable(old(View()), bundleId)
      ensures r == Thrown(NotCommittable) ==> View() == old(View()) && disk == old(disk)
      ensures Committable(old(View()), bundleId) ==>
        && disk in {old(disk), Vault(old(View()).successor, None)}
        && (!r.Crashed? ==> memory == Some(Vault(old(View()).successor, None)))
        && (r.Done? ==> memory == Some(disk))
      ensures old(Calm()) && Committable(old(View()), bundleId) ==> Calm() && r.Done?
    {
      var v := Load();
      if !Committable(v, bundleId) {
        return Thrown(NotCommittable);
      }
      memory := Some(Vault(v.successor, None));
      r := Persist();
    }

    /** One renewal, as the channel drives it. */
    method Renew(session: Session) returns (r: Outcome<Rotation>)
      requires Valid()
      modifies `memory, `disk, `hub, `faults, `next
      ensures Valid() && Remembers(old(hub), hub)
      ensures r.Crashed? ==> memory == None
      ensures r.Done? ==>
        && memory == Some(disk) && disk.successor == None && disk.current.value.id == hub.active
        && hub.active != old(View()).current.value.id
        && (old(View()).current.value.id, hub.active) in hub.rotations
        && r.value == hub.rotations[(old(View()).current.value.id, hub.active)]
      ensures r.Done? && old(hub).active != old(View()).current.value.id ==>
        hub.active == old(hub).active && hub.rotations == old(hub).rotations
      ensures !Accepts(old(View()), hub, session) ==> r.Thrown? && hub == old(hub) && disk == old(disk)
      ensures old(Calm()) ==> Calm() && (r.Done? <==> Accepts(old(View()), hub, session))
    {
      var rotation :- ActivateSuccessor(session);
      var _ :- CommitSuccessor(rotation.next.bundleId);
      return Done(rotation);
    }

    /**
     Whatever failures and crashes came before, a restart and one renewal undisturbed end with the Hub's
     active bundle saved as the current one: the rotation already made, if there is one, and else one new.
     Only a renewal begun under another external thread is not taken up again.
     */
    method RestartAndRenew(session: Session) returns (r: Outcome<Rotation>)
      requires Valid() && Calm()
      modifies `memory, `disk, `hub, `faults, `next
      ensures Valid() && Remembers(old(hub), hub)
      ensures r.Done? <==> Accepts(old(disk), old(hub), session)
      ensures !r.Done? ==> hub == old(hub) && disk == old(disk)
      ensures r.Done? ==>
        && memory == Some(disk) && disk.successor == None && disk.current.value.id == hub.active
        && r.value.superseded == old(disk).current.value.id && r.value.next == BindingOf(hub.active, hub.session)
      ensures r.Done? && old(hub).active != old(disk).current.value.id ==>
        hub.active == old(hub).active && hub.rotations == old(hub).rotations
    {
      Restart();
      r := Renew(session);
    }
  }

  /** The session is the Hub's, and a successor at hand was drawn for its external thread. */
  predicate Accepts(v: Vault, h: Hub, session: Session) {
    && session == h.session.(thread := session.thread)
    && (v.successor.Some? ==> v.successor.value.context.thread == session.thread)
  }

  predicate Committable(v: Vault, bundleId: nat) {
    v.successor.Some? && v.successor.value.id == bundleId && v.successor.value.phase == Active &&
      v.successor.value.binding.Some?
  }

  /** The two bundles at hand are still the same two. */
  predicate Keeps(memory: Option<Vault>, current: Bundle, successor: Bundle) {
    && memory.Some? && memory.value.current == Some(current) && memory.value.successor.Some?
    && memory.value.successor.value.id == successor.id && memory.value.successor.value.token == successor.token
    && memory.value.successor.value.context == successor.context
  }

  predicate Activated(v: Vault, h: Hub, r: Rotation) {
    && v.current.Some? && v.successor.Some? && v.successor.value.phase == Active && v.successor.value.binding.Some?
    && h.active == v.successor.value.id && r == Rotation(BindingOf(h.active, h.session), v.current.value.id)
    && (v.current.value.id, h.active) in h.rotations && r == h.rotations[(v.current.value.id, h.active)]
  }

  /** discardNonActiveEnrollment, where it does not throw. */
  function Discarded(v: Vault): Vault {
    if v.successor.Some? then v.(successor := None) else v.(current := None)
  }

  /**
   A successor whose rotation's answer was lost is not ACTIVE in the vault and yet active at the Hub: then
   discarding it discards the only valid token. In every other case the token stays.
   */
  lemma DiscardKeepsTokenUnlessRotated(v: Vault, h: Hub)
    requires Alive(v, h) && v.successor.Some? && v.successor.value.phase != Active
    ensures HoldsActiveToken(Discarded(v), h) <==> (v.current.value.id, v.successor.value.id) !in h.rotations
  {
    if h.active == v.current.value.id {
      assert v.current.value in Bundles(Discarded(v));
    }
  }

  /** prepareInitial with another context, up to its first save: `drawn` takes the successor's place. */
  function Replaced(v: Vault, drawn: Bundle): Vault {
    v.(successor := Some(drawn))
  }

  /** It keeps the active token exactly when no ACTIVE successor was waiting to be committed. */
  lemma ReplacingKeepsTokenUnlessUncommitted(v: Vault, h: Hub, drawn: Bundle)
    requires Alive(v, h) && (v.successor.Some? ==> v.successor.value.phase == Active) && drawn.id !in h.tokens
    ensures HoldsActiveToken(Replaced(v, drawn), h) <==> v.successor == None
  {
    if v.successor == None {
      assert v.current.value in Bundles(Replaced(v, drawn));
    }
  }

  lemma ViewIsAlive(runtime: Runtime)
    requires runtime.Valid()
    ensures Alive(runtime.View(), runtime.hub)
    ensures var v := runtime.View();
      && v.current.Some? && v.current.value.phase == Active
      && v.current.value.binding == Some(BindingOf(v.current.value.id, runtime.hub.session))
  {
  }

  /** A rotation whose answer is lost: discarding its successor would discard the only valid token. */
  method LostRotation(session: Session) returns (runtime: Runtime)
    ensures fresh(runtime) && runtime.Valid() && Alive(runtime.View(), runtime.hub)
    ensures runtime.View().successor.Some? && runtime.View().successor.value.phase != Active
    ensures !HoldsActiveToken(Discarded(runtime.View()), runtime.hub)
  {
    hide HoldsActiveToken, Alive;
    var context := Context(FirstLineage, session.project, session.run, session.external, session.thread, None, None);
    runtime := new Runtime(session, context, 0, []);
    ViewIsAlive(runtime);
    var v := runtime.Load();
    var current := v.current.value;
    var taken := runtime.TakeSuccessor(Auxiliary(current.binding.value, session));
    var offered := runtime.Offer(current, taken.value);
    var attempted := runtime.Attempt(current, offered.value);
    runtime.faults := [FailAfter];
    var lost := runtime.HubRotate(current, attempted.value);
    ViewIsAlive(runtime);
    DiscardKeepsTokenUnlessRotated(runtime.View(), runtime.hub);
  }

  /** An activation not yet committed: preparing another enrollment would overwrite the only valid token. */
  method UncommittedActivation(session: Session) returns (runtime: Runtime, drawn: Bundle)
    ensures fresh(runtime) && runtime.Valid() && Alive(runtime.View(), runtime.hub)
    ensures runtime.View().successor.Some? && runtime.View().successor.value.phase == Active
    ensures drawn.id !in runtime.hub.tokens && !HoldsActiveToken(Replaced(runtime.View(), drawn), runtime.hub)
  {
    hide HoldsActiveToken, Alive;
    var context := Context(FirstLineage, session.project, session.run, session.external, session.thread, None, None);
    runtime := new Runtime(session, context, 0, []);
    var rotation := runtime.ActivateSuccessor(session);
    ViewIsAlive(runtime);
    drawn := Bundle(runtime.next, Preparing, context, runtime.next, false, false, None, None);
    ReplacingKeepsTokenUnlessUncommitted(runtime.View(), runtime.hub, drawn);
  }

  /** A renewal begun under one external thread is refused under another, with nothing changed. */
  method OtherThread(session: Session, thread: Option<nat>) returns (runtime: Runtime, r: Outcome<Rotation>)
    requires thread != session.thread
    ensures fresh(runtime) && runtime.Valid() && r.Thrown?
  {
    var context := Context(FirstLineage, session.project, session.run, session.external, session.thread, None, None);
    runtime := new Runtime(session, context, 0, []);
    var rotation := runtime.ActivateSuccessor(session);
    r := runtime.ActivateSuccessor(session.(thread := thread));
  }
}
