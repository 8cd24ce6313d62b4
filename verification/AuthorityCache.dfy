/**
 The Claude Channel's bounded index of authority invalidations and the delivery caches it guards.

 The ghost log is what the index abridges: every invalidating event, transport gap, compaction and
 clearing, in order. Each method is one stretch of the channel's code between two awaits, so any
 sequence of calls is an interleaving of any number of fetches with any events.
 */
module AuthorityCache {
  import opened Common

  const MAX_DELIVERY_CACHE: nat := 256
  const MAX_INDEX: nat := 2048

  /** An event may invalidate a directive, a delegation grant, or all authority, under one aggregate id. */
  datatype Event = Event(directive: bool, delegation: bool, everything: bool, id: nat)

  datatype Entry = Invalidated(event: Event) | Compacted | Gap | Cleared

  /** What a fetch brings back; grant is None for a directive that no grant stands behind. */
  datatype Candidate = Ordinary | Authority(directive: nat, grant: Option<nat>)

  datatype Delivery = Delivery(messageId: nat, candidate: Candidate)

  /** What a fetch notes when it begins. */
  datatype Ticket = Ticket(sessionEpoch: nat, generation: nat, globalEpoch: nat)

  type Log = seq<Entry>

  function Last(log: Log): Entry
    requires log != []
  {
    log[|log| - 1]
  }

  function Front(log: Log): Log
    requires log != []
  {
    log[..|log| - 1]
  }

  function Generation(log: Log): nat {
    if log == [] then 0 else Generation(Front(log)) + (if Last(log).Invalidated? then 1 else 0)
  }

  predicate Bumps(e: Entry) { e.Invalidated? ==> e.event.everything }

  function GlobalEpoch(log: Log): nat {
    if log == [] then 0 else GlobalEpoch(Front(log)) + (if Bumps(Last(log)) then 1 else 0)
  }

  function SessionEpoch(log: Log): nat {
    if log == [] then 0 else SessionEpoch(Front(log)) + (if Last(log).Cleared? then 1 else 0)
  }

  predicate Wipes(e: Entry) { e.Compacted? || e.Cleared? }

  /** The generation at which each directive, or each grant, was last invalidated since the last wipe. */
  function Index(log: Log, directives: bool): map<nat, nat> {
    if log == [] then map[]
    else if Wipes(Last(log)) then map[]
    else if Last(log).Invalidated? && (if directives then Last(log).event.directive else Last(log).event.delegation)
    then Index(Front(log), directives)[Last(log).event.id := Generation(log)]
    else Index(Front(log), directives)
  }

  /** How many ids the two maps of the index hold. */
  function IndexSize(log: Log): nat { |Index(log, true)| + |Index(log, false)| }

  /** The entry invalidates what the candidate rests on. */
  predicate Hits(e: Entry, c: Candidate) {
    && e.Invalidated? && c.Authority?
    && (|| e.event.everything
        || (e.event.directive && e.event.id == c.directive)
        || (e.event.delegation && Some(e.event.id) == c.grant))
  }

  /** The unbounded log knows of an invalidation since position `at`. */
  predicate HitSince(log: Log, at: nat, c: Candidate) {
    exists k :: at <= k < |log| && Hits(log[k], c)
  }

  /** Since position `at` the channel has lost track: a gap, a compaction, a clearing. */
  predicate LostSince(log: Log, at: nat) {
    exists k :: at <= k < |log| && !log[k].Invalidated?
  }

  ghost predicate TakenAt(t: Ticket, log: Log, at: nat) {
    && at <= |log|
    && t == Ticket(SessionEpoch(log[..at]), Generation(log[..at]), GlobalEpoch(log[..at]))
  }

  // ---------------------------------------------------------------------------
  // The index against the log
  // ---------------------------------------------------------------------------

  lemma {:induction false} EpochSince(log: Log, at: nat)
    requires at <= |log|
    ensures GlobalEpoch(log[..at]) <= GlobalEpoch(log)
    ensures GlobalEpoch(log[..at]) == GlobalEpoch(log) <==> forall k :: at <= k < |log| ==> !Bumps(log[k])
    ensures Generation(log[..at]) <= Generation(log)
    decreases |log|
  {
    if at == |log| {
      assert log[..at] == log;
    } else {
      EpochSince(Front(log), at);
      assert Front(log)[..at] == log[..at];
    }
  }

  /** With no wipe since, the index has a later generation exactly for what was invalidated since. */
  lemma {:induction false} IndexSince(log: Log, directives: bool, at: nat, id: nat)
    requires at <= |log|
    requires forall k :: at <= k < |log| ==> !Wipes(log[k])
    ensures id in Index(log, directives) ==> Index(log, directives)[id] <= Generation(log)
    ensures id in Index(log, directives) && Index(log, directives)[id] > Generation(log[..at])
      <==> exists k :: at <= k < |log| && Names(log[k], directives, id)
    decreases |log|
  {
    if at == |log| {
      assert log[..at] == log;
      IndexBound(log, directives, id);
    } else {
      var front := Front(log);
      assert front[..at] == log[..at];
      assert forall k :: at <= k < |front| ==> front[k] == log[k];
      IndexSince(front, directives, at, id);
      EpochSince(front, at);
      if Names(Last(log), directives, id) {
        assert Names(log[|log| - 1], directives, id);
      }
    }
  }

  predicate Names(e: Entry, directives: bool, id: nat) {
    e.Invalidated? && e.event.id == id && (if directives then e.event.directive else e.event.delegation)
  }

  lemma {:induction false} IndexBound(log: Log, directives: bool, id: nat)
    ensures id in Index(log, directives) ==> 0 < Index(log, directives)[id] <= Generation(log)
    decreases |log|
  {
    if log != [] {
      IndexBound(Front(log), directives, id);
    }
  }

  /** get(id) ?? 0 */
  function At(index: map<nat, nat>, id: nat): nat { if id in index then index[id] else 0 }

  /** authorityCandidateWasInvalidated, over the index that the log leaves. */
  predicate Verdict(log: Log, t: Ticket, c: Candidate) {
    c.Authority? &&
    (|| t.globalEpoch != GlobalEpoch(log)
     || At(Index(log, true), c.directive) > t.generation
     || (c.grant.Some? && At(Index(log, false), c.grant.value) > t.generation))
  }

  /** The bounded index says just what the unbounded log would, or that the channel has lost track. */
  lemma VerdictIsExact(log: Log, t: Ticket, at: nat, c: Candidate)
    requires TakenAt(t, log, at)
    ensures c.Authority? ==> (Verdict(log, t, c) <==> HitSince(log, at, c) || LostSince(log, at))
    ensures c.Ordinary? ==> !Verdict(log, t, c)
  {
    hide GlobalEpoch, Generation, Index, SessionEpoch;
    EpochSince(log, at);
    if c.Authority? && t.globalEpoch == GlobalEpoch(log) {
      assert forall k :: at <= k < |log| ==> !Bumps(log[k]);
      IndexSince(log, true, at, c.directive);
      if c.grant.Some? {
        IndexSince(log, false, at, c.grant.value);
      }
      HitByName(log, at, c);
    } else if c.Authority? {
      var k :| at <= k < |log| && Bumps(log[k]);
      assert Hits(log[k], c) || !log[k].Invalidated?;
    }
  }

  lemma HitByName(log: Log, at: nat, c: Candidate)
    requires c.Authority? && at <= |log| && forall k :: at <= k < |log| ==> !Bumps(log[k])
    ensures HitSince(log, at, c) <==>
      || (exists k :: at <= k < |log| && Names(log[k], true, c.directive))
      || (c.grant.Some? && exists k :: at <= k < |log| && Names(log[k], false, c.grant.value))
  {
    if HitSince(log, at, c) {
      var k :| at <= k < |log| && Hits(log[k], c);
      assert !Bumps(log[k]);
      assert Names(log[k], true, c.directive) || (c.grant.Some? && Names(log[k], false, c.grant.value));
    }
    if k :| at <= k < |log| && Names(log[k], true, c.directive) {
      assert Hits(log[k], c);
    }
    if c.grant.Some? {
      if k :| at <= k < |log| && Names(log[k], false, c.grant.value) {
        assert Hits(log[k], c);
      }
    }
  }

  // ---------------------------------------------------------------------------
  // The caches
  // ---------------------------------------------------------------------------

  predicate Distinct(ds: seq<Delivery>) {
    forall i, k :: 0 <= i < k < |ds| ==> ds[i].messageId != ds[k].messageId
  }

  predicate Holds(ds: seq<Delivery>, messageId: nat) {
    exists i :: 0 <= i < |ds| && ds[i].messageId == messageId
  }

  /** delete(messageId), in insertion order. */
  function Without(ds: seq<Delivery>, messageId: nat): (r: seq<Delivery>)
    ensures forall d :: d in r <==> d in ds && d.messageId != messageId
    ensures Distinct(ds) ==> Distinct(r)
    ensures |r| <= |ds|
  {
    if ds == [] then []
    else if ds[0].messageId == messageId then Without(ds[1..], messageId)
    else
      assert forall d :: d in ds <==> d == ds[0] || d in ds[1..];
      [ds[0]] + Without(ds[1..], messageId)
  }

  lemma {:induction false} NothingToCut(ds: seq<Delivery>, messageId: nat)
    requires forall i :: 0 <= i < |ds| ==> ds[i].messageId != messageId
    ensures Without(ds, messageId) == ds
  {
    if ds != [] {
      NothingToCut(ds[1..], messageId);
    }
  }

  /** The entry is cut out, and the others stay in their places. */
  lemma {:induction false} CutOut(ds: seq<Delivery>, messageId: nat, k: nat)
    requires Distinct(ds) && k < |ds| && ds[k].messageId == messageId
    ensures Without(ds, messageId) == ds[..k] + ds[k + 1..]
    decreases k
  {
    hide Without, Distinct;
    RestIsDistinct(ds, messageId);
    if k == 0 {
      assert ds[..0] + ds[1..] == ds[1..];
    } else {
      CutOut(ds[1..], messageId, k - 1);
      assert ds[..k] == [ds[0]] + ds[1..][..k - 1] && ds[k + 1..] == ds[1..][k..];
    }
  }

  lemma RestIsDistinct(ds: seq<Delivery>, messageId: nat)
    requires Distinct(ds) && ds != []
    ensures Distinct(ds[1..]) && forall i :: 0 < i < |ds| ==> ds[i].messageId != ds[0].messageId
    ensures Without(ds, messageId) ==
      if ds[0].messageId == messageId then ds[1..] else [ds[0]] + Without(ds[1..], messageId)
  {
    if ds[0].messageId == messageId {
      NothingToCut(ds[1..], messageId);
    }
  }

  /** A delivery is put last; an older one of the same message goes, or, if the cache is full, the oldest one. */
  lemma RememberedExactly(ds: seq<Delivery>, d: Delivery)
    requires Distinct(ds) && |ds| <= MAX_DELIVERY_CACHE
    ensures !Holds(ds, d.messageId) ==>
      Remembered(ds, d) == (if |ds| < 256 then ds else ds[1..]) + [d]
    ensures forall k :: 0 <= k < |ds| && ds[k].messageId == d.messageId ==>
      Remembered(ds, d) == ds[..k] + ds[k + 1..] + [d]
  {
    hide Without, Distinct;
    if !Holds(ds, d.messageId) {
      NothingToCut(ds, d.messageId);
      assert (ds + [d])[1..] == if ds == [] then [] else ds[1..] + [d];
    }
    forall k | 0 <= k < |ds| && ds[k].messageId == d.messageId
      ensures Remembered(ds, d) == ds[..k] + ds[k + 1..] + [d]
    {
      CutOut(ds, d.messageId, k);
    }
  }

  /** set(messageId, d), after which the oldest entry makes room if need be. */
  function Remembered(ds: seq<Delivery>, d: Delivery): (r: seq<Delivery>)
    requires |ds| <= MAX_DELIVERY_CACHE
    ensures d in r && |r| <= MAX_DELIVERY_CACHE
    ensures forall e :: e in r ==> e == d || (e in ds && e.messageId != d.messageId)
    ensures Distinct(ds) ==> Distinct(r)
  {
    var grown := Without(ds, d.messageId) + [d];
    assert grown[|grown| - 1] == d;
    assert forall i :: 0 <= i < |grown| - 1 ==> grown[i] in Without(ds, d.messageId);
    if |grown| > MAX_DELIVERY_CACHE then
      assert grown[1..][|grown| - 2] == d;
      assert forall e :: e in grown[1..] ==> e in grown;
      grown[1..]
    else grown
  }

  /** Nothing since `at` speaks against caching the candidate. */
  predicate Usable(log: Log, at: nat, c: Candidate) {
    && (forall k :: at <= k < |log| ==> !log[k].Cleared?)
    && (c.Authority? ==> !HitSince(log, at, c) && !LostSince(log, at))
  }

  /** The unbounded log has nothing against the delivery since its fetch began. */
  predicate Sound(log: Log, since: map<nat, nat>, d: Delivery) {
    d.messageId in since && since[d.messageId] <= |log| && Usable(log, since[d.messageId], d.candidate)
  }

  predicate AllSound(log: Log, since: map<nat, nat>, ds: seq<Delivery>) {
    forall d :: d in ds ==> Sound(log, since, d)
  }

  lemma Grows(log: Log, e: Entry, at: nat, c: Candidate)
    requires at <= |log|
    ensures HitSince(log + [e], at, c) <==> HitSince(log, at, c) || Hits(e, c)
    ensures LostSince(log + [e], at) <==> LostSince(log, at) || !e.Invalidated?
  {
    var grown := log + [e];
    assert grown[|log|] == e;
    if HitSince(log, at, c) {
      var k :| at <= k < |log| && Hits(log[k], c);
      assert Hits(grown[k], c);
    }
    if LostSince(log, at) {
      var k :| at <= k < |log| && !log[k].Invalidated?;
      assert !grown[k].Invalidated?;
    }
  }

  /** The entry leaves the candidate usable. */
  predicate Spares(e: Entry, c: Candidate) {
    !e.Cleared? && (c.Authority? ==> e.Invalidated? && !Hits(e, c))
  }

  lemma StaysSound(log: Log, e: Entry, since: map<nat, nat>, ds: seq<Delivery>)
    requires AllSound(log, since, ds)
    ensures forall d :: d in ds && Spares(e, d.candidate) ==> Sound(log + [e], since, d)
  {
    hide HitSince, LostSince, Hits;
    forall d | d in ds && Spares(e, d.candidate) ensures Sound(log + [e], since, d) {
      Grows(log, e, since[d.messageId], d.candidate);
    }
  }

  /** The queue has dropped some of its oldest, and has `added` at its end. */
  ghost predicate Queued(was: seq<nat>, now: seq<nat>, added: seq<nat>) {
    exists x: nat :: x <= |was| && now == was[x..] + added
  }

  lemma QueuedNone(was: seq<nat>)
    ensures Queued(was, was, [])
  {
    assert was == was[0..] + [];
  }

  lemma QueuedIsHeld(was: seq<nat>, now: seq<nat>, added: seq<nat>)
    requires Queued(was, now, added)
    ensures forall id :: id in added ==> id in now
  {
  }

  /** One more id is put at the end, unless it is there. */
  lemma QueuedNext(was: seq<nat>, now: seq<nat>, next: seq<nat>, added: seq<nat>, id: nat) returns (more: seq<nat>)
    requires Queued(was, now, added) && |added| < MAX_DELIVERY_CACHE
    requires if id in now then next == now
      else next == (if |now| < MAX_DELIVERY_CACHE then now else now[1..]) + [id]
    requires |now| <= MAX_DELIVERY_CACHE
    ensures Queued(was, next, more) && added <= more && |more| <= |added| + 1 && (id in more || id in was)
  {
    more := if id in now then added else added + [id];
    var x: nat :| x <= |was| && now == was[x..] + added;
    if id !in now {
      if |now| < MAX_DELIVERY_CACHE {
        assert next == was[x..] + more;
      } else {
        assert next == was[x + 1..] + more;
      }
    }
  }

  class Channel {
    var sessionEpoch: nat
    var generation: nat
    var globalEpoch: nat
    var directiveAt: map<nat, nat>
    var delegationAt: map<nat, nat>
    var safe: seq<Delivery>
    var recovered: seq<Delivery>
    var terminal: seq<nat>
    ghost var log: Log
    ghost var since: map<nat, nat>

    ghost predicate Indexed()
      reads `sessionEpoch, `generation, `globalEpoch, `directiveAt, `delegationAt, `log
    {
      && sessionEpoch == SessionEpoch(log) && generation == Generation(log) && globalEpoch == GlobalEpoch(log)
      && directiveAt == Index(log, true) && delegationAt == Index(log, false)
    }

    ghost predicate Bounded()
      reads this
    {
      && |directiveAt| + |delegationAt| <= MAX_INDEX
      && |safe| <= MAX_DELIVERY_CACHE && |recovered| <= MAX_DELIVERY_CACHE && |terminal| <= MAX_DELIVERY_CACHE
    }

    lemma WithinBounds()
      requires Bounded()
      ensures |safe| <= MAX_DELIVERY_CACHE && |recovered| <= MAX_DELIVERY_CACHE && |terminal| <= MAX_DELIVERY_CACHE
    {
    }

    /** No message is cached twice. */
    ghost predicate Apart()
      reads `safe, `recovered
    {
      && Distinct(safe) && Distinct(recovered)
      && forall d, e :: d in safe && e in recovered ==> d.messageId != e.messageId
    }

    /** The index abridges the log, and nothing cached has been invalidated since its fetch began. */
    ghost predicate Valid()
      reads this
    {
      Indexed() && Bounded() && Apart() && AllSound(log, since, safe) && AllSound(log, since, recovered)
    }

    constructor ()
      ensures Valid() && log == [] && safe == [] && recovered == []
    {
      sessionEpoch, generation, globalEpoch := 0, 0, 0;
      directiveAt, delegationAt := map[], map[];
      safe, recovered, terminal := [], [], [];
      log, since := [], map[];
    }

    /** A fetch begins. */
    method Begin() returns (t: Ticket, ghost at: nat)
      requires Valid()
      ensures at == |log| && TakenAt(t, log, at)
    {
      t, at := Ticket(sessionEpoch, generation, globalEpoch), |log|;
      assert log[..at] == log;
    }

    method WasInvalidated(t: Ticket, c: Candidate) returns (invalid: bool)
      requires Indexed()
      ensures invalid <==> Verdict(log, t, c)
    {
      hide Index, GlobalEpoch, Generation, SessionEpoch;
      if c.Ordinary? {
        return false;
      }
      if t.globalEpoch != globalEpoch || At(directiveAt, c.directive) > t.generation {
        return true;
      }
      return c.grant.Some? && At(delegationAt, c.grant.value) > t.generation;
    }

    method RememberTerminal(messageId: nat)
      requires Apart() && Bounded()
      modifies `safe, `recovered, `terminal
      ensures Apart() && Bounded() && messageId in terminal && |old(terminal)| <= MAX_DELIVERY_CACHE
      ensures messageId in old(terminal) ==> terminal == old(terminal)
      ensures messageId !in old(terminal) ==>
        terminal == (if |old(terminal)| < 256 then old(terminal) else old(terminal)[1..]) + [messageId]
      ensures safe == Without(old(safe), messageId) && recovered == Without(old(recovered), messageId)
    {
      safe, recovered := Without(safe, messageId), Without(recovered, messageId);
      if messageId !in terminal {
        terminal := terminal + [messageId];
      }
      if |terminal| > MAX_DELIVERY_CACHE {
        assert terminal[1..][|terminal| - 2] == messageId;
        terminal := terminal[1..];
      }
    }

    /** rememberSafeDelivery: the oldest entry makes room. */
    method RememberSafe(d: Delivery, ghost at: nat)
      requires Valid() && Sound(log, map[d.messageId := at], d)
      modifies `safe, `recovered, `since
      ensures Valid() && d in safe && recovered == Without(old(recovered), d.messageId)
      ensures safe == Remembered(old(safe), d)
      ensures forall e :: e in safe ==> e == d || (e in old(safe) && e.messageId != d.messageId)
    {
      hide Sound, Indexed, Remembered, Without, Distinct;
      recovered, safe := Without(recovered, d.messageId), Remembered(safe, d);
      Resituate(log, since, at, d, safe);
      Resituate(log, since, at, d, recovered);
      since := since[d.messageId := at];
    }

    /** rememberRecoveredLifecycleDelivery. */
    method RememberRecovered(d: Delivery, ghost at: nat)
      requires Valid() && Sound(log, map[d.messageId := at], d)
      modifies `safe, `recovered, `since
      ensures Valid() && d in recovered && safe == Without(old(safe), d.messageId)
      ensures recovered == Remembered(old(recovered), d)
      ensures forall e :: e in recovered ==> e == d || (e in old(recovered) && e.messageId != d.messageId)
    {
      hide Sound, Indexed, Remembered, Without, Distinct;
      safe, recovered := Without(safe, d.messageId), Remembered(recovered, d);
      Resituate(log, since, at, d, safe);
      Resituate(log, since, at, d, recovered);
      since := since[d.messageId := at];
    }

    /**
     The end of surfaceForClaudeOnce: the delivery is cached exactly when neither its directive, its
     grant nor all authority was invalidated since the fetch began, and nothing was lost track of.
     */
    method FinishSurface(t: Ticket, ghost at: nat, d: Delivery) returns (kept: bool)
      requires Valid() && TakenAt(t, log, at)
      modifies `safe, `recovered, `terminal, `since
      ensures Valid() && (kept <==> Usable(log, at, d.candidate))
      ensures recovered == Without(old(recovered), d.messageId)
      ensures safe == if kept then Remembered(old(safe), d) else Without(old(safe), d.messageId)
      ensures if kept then d in safe
        else d.messageId in terminal && !Holds(safe, d.messageId) && !Holds(recovered, d.messageId)
    {
      hide Index, GlobalEpoch, Generation, SessionEpoch, HitSince, LostSince, Verdict;
      VerdictIsExact(log, t, at, d.candidate);
      SessionSince(log, at);
      var invalid := WasInvalidated(t, d.candidate);
      if t.sessionEpoch != sessionEpoch || invalid {
        RememberTerminal(d.messageId);
        return false;
      }
      RememberSafe(d, at);
      return true;
    }

    /** The end of recoverSafeDelivery; a lineage handoff is kept apart, and only for authority. */
    method FinishRecovery(t: Ticket, ghost at: nat, d: Delivery, handoff: bool) returns (kept: bool)
      requires Valid() && TakenAt(t, log, at)
      modifies `safe, `recovered, `terminal, `since
      ensures Valid() && (kept <==> Usable(log, at, d.candidate) && (handoff ==> d.candidate.Authority?))
      ensures kept ==> if handoff then d in recovered else d in safe
      ensures kept ==>
        && safe == (if handoff then Without(old(safe), d.messageId) else Remembered(old(safe), d))
        && recovered == if handoff then Remembered(old(recovered), d) else Without(old(recovered), d.messageId)
      ensures !kept && Usable(log, at, d.candidate) ==>
        && safe == Without(old(safe), d.messageId) && recovered == Without(old(recovered), d.messageId)
        && d.messageId in terminal
      ensures !Usable(log, at, d.candidate) ==> safe == old(safe) && recovered == old(recovered)
    {
      hide Index, GlobalEpoch, Generation, SessionEpoch, HitSince, LostSince, Verdict;
      VerdictIsExact(log, t, at, d.candidate);
      SessionSince(log, at);
      var invalid := WasInvalidated(t, d.candidate);
      if t.sessionEpoch != sessionEpoch || invalid {
        return false;
      }
      if handoff {
        if d.candidate.Ordinary? {
          RememberTerminal(d.messageId);
          return false;
        }
        RememberRecovered(d, at);
      } else {
        RememberSafe(d, at);
      }
      return true;
    }

    /** What a caller gets from the cache has not been invalidated since it was fetched. */
    method Cached(messageId: nat) returns (d: Option<Delivery>)
      requires Valid()
      ensures d.Some? <==> Holds(safe, messageId)
      ensures d.Some? ==> d.value in safe && d.value.messageId == messageId
      ensures d.Some? ==> messageId in since && Usable(log, since[messageId], d.value.candidate)
    {
      hide HitSince, LostSince;
      for i := 0 to |safe|
        invariant forall k :: 0 <= k < i ==> safe[k].messageId != messageId
      {
        if safe[i].messageId == messageId {
          assert safe[i] in safe;
          return Some(safe[i]);
        }
      }
      return None;
    }

    /** The loop over safeDeliveries: what the event hits becomes terminal. */
    method PurgeSafe(e: Entry)
      requires Apart() && Bounded()
      modifies `safe, `recovered, `terminal
      ensures Apart() && Bounded()
      ensures forall d :: d in safe <==> d in old(safe) && !Hits(e, d.candidate)
      ensures forall d :: d in old(safe) && Hits(e, d.candidate) && d.messageId !in old(terminal) ==>
        d.messageId in terminal
      ensures forall d :: d in recovered ==> d in old(recovered)
      ensures forall d :: d in old(recovered) && !Holds(old(safe), d.messageId) ==> d in recovered
    {
      hide Hits, Without, Bounded, Queued;
      var entries := safe;
      ghost var added: seq<nat> := [];
      QueuedNone(terminal);
      WithinBounds();
      for i := 0 to |entries|
        invariant Apart() && Bounded() && Queued(old(terminal), terminal, added) && |added| <= i
        invariant forall k :: 0 <= k < i && Hits(e, entries[k].candidate) ==>
          entries[k].messageId in added || entries[k].messageId in old(terminal)
        invariant forall d :: d in safe ==> d in entries
        invariant forall k :: 0 <= k < i ==> (entries[k] in safe <==> !Hits(e, entries[k].candidate))
        invariant forall k :: i <= k < |entries| ==> entries[k] in safe
        invariant forall d :: d in recovered ==> d in old(recovered)
        invariant forall d :: d in old(recovered) && !Holds(entries, d.messageId) ==> d in recovered
      {
        if Hits(e, entries[i].candidate) {
          ghost var before := terminal;
          RememberTerminal(entries[i].messageId);
          added := QueuedNext(old(terminal), before, terminal, added, entries[i].messageId);
        }
      }
      QueuedIsHeld(old(terminal), terminal, added);
    }

    /** The loop over recoveredLifecycleDeliveries, which hold authority only. */
    method PurgeRecovered(e: Entry)
      requires Apart() && Bounded()
      modifies `safe, `recovered, `terminal
      ensures Apart() && Bounded()
      ensures forall d :: d in recovered <==> d in old(recovered) && !Hits(e, d.candidate)
      ensures forall d :: d in old(recovered) && Hits(e, d.candidate) && d.messageId !in old(terminal) ==>
        d.messageId in terminal
      ensures forall d :: d in safe <==> d in old(safe)
    {
      hide Hits, Without, Bounded, Queued;
      var entries := recovered;
      ghost var added: seq<nat> := [];
      QueuedNone(terminal);
      WithinBounds();
      for i := 0 to |entries|
        invariant Apart() && Bounded() && Queued(old(terminal), terminal, added) && |added| <= i
        invariant forall k :: 0 <= k < i && Hits(e, entries[k].candidate) ==>
          entries[k].messageId in added || entries[k].messageId in old(terminal)
        invariant forall d :: d in recovered ==> d in entries
        invariant forall k :: 0 <= k < i ==> (entries[k] in recovered <==> !Hits(e, entries[k].candidate))
        invariant forall k :: i <= k < |entries| ==> entries[k] in recovered
        invariant forall d :: d in safe <==> d in old(safe)
      {
        if Hits(e, entries[i].candidate) {
          assert entries[i] in recovered;
          ghost var before := terminal;
          RememberTerminal(entries[i].messageId);
          added := QueuedNext(old(terminal), before, terminal, added, entries[i].messageId);
        }
      }
      QueuedIsHeld(old(terminal), terminal, added);
    }

    /** The loop that deletes every cached authority delivery, and the clearing of the recovered ones. */
    method DropAuthority()
      requires Apart() && Bounded()
      modifies `safe, `recovered
      ensures Apart() && Bounded() && recovered == []
      ensures forall d :: d in safe <==> d in old(safe) && d.candidate.Ordinary?
    {
      var entries := safe;
      for i := 0 to |entries|
        invariant Apart() && Bounded()
        invariant forall d :: d in safe ==> d in entries
        invariant forall k :: 0 <= k < i ==> (entries[k] in safe <==> entries[k].candidate.Ordinary?)
        invariant forall k :: i <= k < |entries| ==> entries[k] in safe
      {
        if entries[i].candidate.Authority? {
          safe := Without(safe, entries[i].messageId);
        }
      }
      recovered := [];
    }

    /** invalidateAuthorityCacheForTransportGap. */
    method OnTransportGap()
      requires Valid()
      modifies `globalEpoch, `log, `safe, `recovered
      ensures Valid() && log == old(log) + [Gap] && recovered == []
      ensures forall d :: d in safe <==> d in old(safe) && d.candidate.Ordinary?
    {
      hide Sound;
      StaysSound(log, Gap, since, safe);
      Appended(log, Gap);
      globalEpoch := globalEpoch + 1;
      log := log + [Gap];
      DropAuthority();
    }

    /** invalidateAuthorityCacheForIndexCompaction, in the midst of an event. */
    method Compact()
      requires Indexed() && Apart()
      requires |safe| <= MAX_DELIVERY_CACHE && |recovered| <= MAX_DELIVERY_CACHE && |terminal| <= MAX_DELIVERY_CACHE
      modifies `globalEpoch, `directiveAt, `delegationAt, `log, `safe, `recovered
      ensures Indexed() && Bounded() && Apart() && log == old(log) + [Compacted] && recovered == []
      ensures forall d :: d in safe <==> d in old(safe) && d.candidate.Ordinary?
    {
      Appended(log, Compacted);
      globalEpoch := globalEpoch + 1;
      directiveAt, delegationAt := map[], map[];
      log := log + [Compacted];
      DropAuthority();
    }

    /** clearDeliveryCaches. */
    method Clear()
      requires Valid()
      modifies this
      ensures Valid() && log == old(log) + [Cleared] && safe == [] && recovered == [] && terminal == []
    {
      Appended(log, Cleared);
      sessionEpoch, globalEpoch := sessionEpoch + 1, globalEpoch + 1;
      safe, recovered, terminal := [], [], [];
      directiveAt, delegationAt := map[], map[];
      log := log + [Cleared];
    }

    /** The bookkeeping of an invalidating event, before the caches are purged. */
    method NoteEvent(event: Event)
      requires Indexed() && Bounded() && Apart()
      requires event.directive || event.delegation || event.everything
      modifies `generation, `globalEpoch, `directiveAt, `delegationAt, `log, `safe, `recovered
      ensures Indexed() && Bounded() && Apart()
      ensures var grown := old(log) + [Invalidated(event)];
        if IndexSize(grown) > MAX_INDEX
        then
          && log == grown + [Compacted] && recovered == []
          && forall d :: d in safe <==> d in old(safe) && d.candidate.Ordinary?
        else log == grown && safe == old(safe) && recovered == old(recovered)
    {
      hide Indexed, Apart;
      Record(event);
      IndexedSize();
      if |directiveAt| + |delegationAt| > MAX_INDEX {
        Compact();
      }
    }

    lemma IndexedSize()
      requires Indexed()
      ensures |directiveAt| + |delegationAt| == IndexSize(log)
    {
    }

    /** The counters and the two maps. */
    method Record(event: Event)
      requires Indexed() && (event.directive || event.delegation || event.everything)
      modifies `generation, `globalEpoch, `directiveAt, `delegationAt, `log
      ensures Indexed() && log == old(log) + [Invalidated(event)]
    {
      Appended(log, Invalidated(event));
      generation := generation + 1;
      if event.everything {
        globalEpoch := globalEpoch + 1;
      }
      if event.directive {
        directiveAt := directiveAt[event.id := generation];
      }
      if event.delegation {
        delegationAt := delegationAt[event.id := generation];
      }
      log := log + [Invalidated(event)];
    }

    /** invalidateAuthorityCacheForEvent. */
    method OnEvent(event: Event)
      requires Valid()
      modifies `generation, `globalEpoch, `directiveAt, `delegationAt, `log, `safe, `recovered, `terminal
      ensures Valid()
      ensures var grown := old(log) + [Invalidated(event)];
        if !event.directive && !event.delegation && !event.everything
        then log == old(log) && safe == old(safe) && recovered == old(recovered)
        else if IndexSize(grown) > MAX_INDEX
        then
          && log == grown + [Compacted] && recovered == []
          && forall d :: d in safe <==> d in old(safe) && d.candidate.Ordinary?
        else
          && log == grown
          && (forall d :: d in safe <==> d in old(safe) && !Hits(Invalidated(event), d.candidate))
          && (forall d :: d in recovered <==> d in old(recovered) && !Hits(Invalidated(event), d.candidate))
    {
      hide Sound, Indexed, Hits, Distinct, IndexSize;
      if !event.directive && !event.delegation && !event.everything {
        return;
      }
      var entry := Invalidated(event);
      StaysSound(log, entry, since, safe);
      StaysSound(log, entry, since, recovered);
      ghost var before := log;
      NoteEvent(event);
      if log != before + [entry] {
        OrdinariesStaySound(before + [entry], since, safe);
      }
      OrdinariesAreSpared(entry);
      PurgeSafe(entry);
      PurgeRecovered(entry);
      NoneIsEmpty(recovered);
    }
  }

  lemma NoneIsEmpty(ds: seq<Delivery>)
    ensures (forall d :: d !in ds) ==> ds == []
  {
    if ds != [] {
      assert ds[0] in ds;
    }
  }

  lemma OrdinariesAreSpared(e: Entry)
    ensures forall c: Candidate :: c.Ordinary? ==> !Hits(e, c)
  {
  }

  lemma Appended(log: Log, e: Entry)
    ensures Front(log + [e]) == log && Last(log + [e]) == e
  {
  }

  lemma OrdinariesStaySound(log: Log, since: map<nat, nat>, ds: seq<Delivery>)
    requires AllSound(log, since, ds) && forall d :: d in ds ==> d.candidate.Ordinary?
    ensures AllSound(log + [Compacted], since, ds)
  {
    hide Sound;
    StaysSound(log, Compacted, since, ds);
  }

  lemma {:induction false} SessionSince(log: Log, at: nat)
    requires at <= |log|
    ensures SessionEpoch(log[..at]) <= SessionEpoch(log)
    ensures SessionEpoch(log[..at]) == SessionEpoch(log) <==> forall k :: at <= k < |log| ==> !log[k].Cleared?
    decreases |log|
  {
    if at == |log| {
      assert log[..at] == log;
    } else {
      SessionSince(Front(log), at);
      assert Front(log)[..at] == log[..at];
    }
  }

  /** Noting where a delivery's fetch began leaves the others sound. */
  lemma Resituate(log: Log, since: map<nat, nat>, at: nat, d: Delivery, ds: seq<Delivery>)
    requires Sound(log, map[d.messageId := at], d)
    requires forall e :: e in ds ==> e == d || (Sound(log, since, e) && e.messageId != d.messageId)
    ensures AllSound(log, since[d.messageId := at], ds)
  {
    hide HitSince, LostSince;
  }
}
