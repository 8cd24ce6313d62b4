/**
 The gate between ordinary work, which may overlap, and a ticket cutover, which runs alone.

 Parties are numbered as they arrive. `inside` are those admitted and not yet gone, `log` is everyone
 admitted so far, in order; the gate itself only counts those inside.
 */
module CutoverGate {
  datatype Party = Party(number: nat, cutover: bool)

  /** `p` may be admitted before `q`: it came first, or it is a cutover and `q` is not. */
  predicate MayPrecede(p: Party, q: Party) {
    p.number < q.number || (p.cutover && !q.cutover)
  }

  predicate Increasing(queue: seq<Party>, cutover: bool) {
    && (forall i :: 0 <= i < |queue| ==> queue[i].cutover == cutover)
    && forall i, j :: 0 <= i < j < |queue| ==> queue[i].number < queue[j].number
  }

  predicate InTurn(log: seq<Party>) {
    forall i, j :: 0 <= i < j < |log| ==> MayPrecede(log[i], log[j])
  }

  /** Nobody in the log is one whom a party still waiting should have preceded. */
  predicate AheadOf(log: seq<Party>, queue: seq<Party>) {
    forall i, j :: 0 <= i < |log| && 0 <= j < |queue| ==> MayPrecede(log[i], queue[j])
  }

  class Gate {
    var readers: nat
    var writer: bool
    var waitingReaders: seq<Party>
    var waitingWriters: seq<Party>
    var inside: set<Party>
    var log: seq<Party>
    var arrived: nat

    /** Who is in, and who comes next: also between a departure and what `Advance` makes of it. */
    ghost predicate Orderly()
      reads this
    {
      && |inside| == readers + (if writer then 1 else 0)
      && (forall p :: p in inside ==> p.cutover == writer && p in log)
      && (writer ==> readers == 0)
      && Increasing(waitingReaders, false) && Increasing(waitingWriters, true)
      && InTurn(log) && AheadOf(log, waitingReaders) && AheadOf(log, waitingWriters)
      && arrived == |log| + |waitingReaders| + |waitingWriters|
      && (forall p :: p in log || p in waitingReaders || p in waitingWriters ==> p.number < arrived)
    }

    /** Nobody waits without someone inside whose departure will wake them. */
    ghost predicate Valid()
      reads this
    {
      && Orderly()
      && (waitingWriters != [] ==> inside != {})
      && (waitingReaders != [] ==> writer || waitingWriters != [])
    }

    constructor ()
      ensures Valid() && inside == {} && log == [] && arrived == 0
    {
      readers, writer, waitingReaders, waitingWriters := 0, false, [], [];
      inside, log, arrived := {}, [], 0;
    }

    /** A party of either kind arrives; it is inside at once, or at the end of its queue. */
    method AcquireActivity() returns (p: Party)
      requires Valid()
      modifies this
      ensures Valid() && p == Party(old(arrived), false) && arrived == old(arrived) + 1
      ensures waitingWriters == old(waitingWriters)
      ensures if !old(writer) && old(waitingWriters) == []
        then inside == old(inside) + {p} && log == old(log) + [p] && waitingReaders == old(waitingReaders)
        else inside == old(inside) && log == old(log) && waitingReaders == old(waitingReaders) + [p]
    {
      p, arrived := Party(arrived, false), arrived + 1;
      if !writer && waitingWriters == [] {
        readers, inside, log := readers + 1, inside + {p}, log + [p];
      } else {
        waitingReaders := waitingReaders + [p];
      }
    }

    method AcquireCutover() returns (p: Party)
      requires Valid()
      modifies this
      ensures Valid() && p == Party(old(arrived), true) && arrived == old(arrived) + 1
      ensures waitingReaders == old(waitingReaders)
      ensures if old(inside) == {}
        then inside == {p} && log == old(log) + [p] && waitingWriters == old(waitingWriters)
        else inside == old(inside) && log == old(log) && waitingWriters == old(waitingWriters) + [p]
    {
      p, arrived := Party(arrived, true), arrived + 1;
      if !writer && readers == 0 {
        writer, inside, log := true, inside + {p}, log + [p];
      } else {
        waitingWriters := waitingWriters + [p];
      }
    }

    method Release(p: Party)
      requires Valid() && p in inside
      modifies this
      ensures Valid() && p !in inside && arrived == old(arrived)
      ensures if old(inside) != {p}
        then Unmoved() && inside == old(inside) - {p}
        else Advanced()
    {
      if writer {
        ReleaseCutover(p);
      } else {
        ReleaseActivity(p);
      }
    }

    method ReleaseActivity(p: Party)
      requires Valid() && p in inside && !writer
      modifies this
      ensures Valid() && p !in inside && arrived == old(arrived)
      ensures if old(inside) != {p} then Unmoved() && inside == old(inside) - {p} else Advanced()
    {
      readers, inside := readers - 1, inside - {p};
      if readers == 0 {
        Advance();
      }
    }

    method ReleaseCutover(p: Party)
      requires Valid() && p in inside && writer
      modifies this
      ensures Valid() && p !in inside && old(inside) == {p} && arrived == old(arrived)
      ensures Advanced()
    {
      Alone(inside, p);
      writer, inside := false, inside - {p};
      Advance();
    }

    method Advance()
      requires Orderly()
      requires inside == {}
      modifies this
      ensures Valid() && Advanced() && arrived == old(arrived)
    {
      hide InTurn, AheadOf, Increasing;
      if writer || readers > 0 {
        return;
      }
      if waitingWriters != [] {
        AdmitWriter();
        return;
      }
      while waitingReaders != []
        invariant Orderly() && !writer && waitingWriters == [] && arrived == old(arrived)
        invariant readers + |waitingReaders| == |old(waitingReaders)|
        invariant log + waitingReaders == old(log) + old(waitingReaders)
        invariant forall p :: p in inside || p in waitingReaders <==> p in old(waitingReaders)
        decreases |waitingReaders|
      {
        AdmitReader();
      }
    }

    method AdmitWriter()
      requires Orderly() && inside == {} && waitingWriters != []
      modifies this
      ensures Orderly() && writer && arrived == old(arrived) && waitingReaders == old(waitingReaders)
      ensures log == old(log) + [old(waitingWriters)[0]] && waitingWriters == old(waitingWriters)[1..]
      ensures inside == {old(waitingWriters)[0]}
    {
      var p := waitingWriters[0];
      NotYetIn(log, waitingWriters);
      writer, inside, log := true, {p}, log + [p];
      waitingWriters := waitingWriters[1..];
    }

    method AdmitReader()
      requires Orderly() && !writer && waitingWriters == [] && waitingReaders != []
      modifies this
      ensures Orderly() && !writer && waitingWriters == [] && arrived == old(arrived)
      ensures readers == old(readers) + 1
      ensures log == old(log) + [old(waitingReaders)[0]] && waitingReaders == old(waitingReaders)[1..]
      ensures inside == old(inside) + {old(waitingReaders)[0]}
    {
      var p := waitingReaders[0];
      NotYetIn(log, waitingReaders);
      readers, inside, log := readers + 1, inside + {p}, log + [p];
      waitingReaders := waitingReaders[1..];
    }

    twostate predicate Unmoved()
      reads this
    {
      log == old(log) && waitingReaders == old(waitingReaders) && waitingWriters == old(waitingWriters)
    }

    /** The first cutover that waits goes in, and if there is none every waiting activity does. */
    twostate predicate Advanced()
      reads this
    {
      if old(waitingWriters) != [] then
        && inside == {old(waitingWriters)[0]} && log == old(log) + [old(waitingWriters)[0]]
        && waitingWriters == old(waitingWriters)[1..] && waitingReaders == old(waitingReaders)
      else
        && (forall p :: p in inside <==> p in old(waitingReaders))
        && log == old(log) + old(waitingReaders) && readers == |old(waitingReaders)| && !writer
        && waitingWriters == [] && waitingReaders == []
    }

    /** However those inside come to leave, everyone who arrived is admitted, once. */
    method Drain()
      requires Valid()
      modifies this
      ensures Valid() && inside == {} && waitingReaders == [] && waitingWriters == []
      ensures arrived == old(arrived) == |log| && old(log) <= log && InTurn(log)
    {
      while inside != {}
        invariant Valid() && arrived == old(arrived) && old(log) <= log
        decreases 2 * |waitingReaders| + 2 * |waitingWriters| + |inside|
      {
        var p :| p in inside;
        Release(p);
      }
    }
  }

  lemma NotYetIn(log: seq<Party>, queue: seq<Party>)
    requires queue != [] && AheadOf(log, queue)
    ensures queue[0] !in log
  {
  }

  lemma Alone(inside: set<Party>, p: Party)
    requires p in inside && |inside| == 1
    ensures inside == {p}
  {
    assert |inside - {p}| == 0;
  }

  /** A cutover is inside alone. */
  lemma CutoverRunsAlone(g: Gate, p: Party)
    requires g.Valid() && p in g.inside && p.cutover
    ensures g.inside == {p} && g.writer && g.readers == 0
  {
    Alone(g.inside, p);
  }

  /** No wakeup is lost: with nobody inside, nobody waits. */
  lemma NobodyWaitsForNobody(g: Gate)
    requires g.Valid() && g.inside == {}
    ensures !g.writer && g.readers == 0 && g.waitingReaders == [] && g.waitingWriters == [] && |g.log| == g.arrived
  {
  }

  /** An activity inside arrived before every cutover that still waits. */
  lemma NoActivityOvertakes(g: Gate, p: Party, i: nat)
    requires g.Valid() && p in g.inside && !p.cutover && i < |g.waitingWriters|
    ensures p.number < g.waitingWriters[i].number
  {
    var k :| 0 <= k < |g.log| && g.log[k] == p;
    assert MayPrecede(g.log[k], g.waitingWriters[i]);
  }

  /** Cutovers are served in the order they came, and so are activities; nobody is admitted twice. */
  lemma FirstComeFirstServed(g: Gate, i: nat, j: nat)
    requires g.Valid() && i < j < |g.log| && g.log[i].cutover == g.log[j].cutover
    ensures g.log[i].number < g.log[j].number
  {
    assert MayPrecede(g.log[i], g.log[j]);
  }
}
