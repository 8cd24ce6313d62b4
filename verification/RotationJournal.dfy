/**
 The external journal of a credential rotation: its hash chain, the reader that
 accepts or refuses it, and the loader that rebuilds one operation from it.

 SHA-256 is modelled as the constructor Seal, which is injective, so two records
 have equal hashes exactly when they have equal contents.
 */
module RotationJournal {
  import opened Common

  type Digest = nat

  datatype Phase =
    | Authorized | Prepared | Staged | Switching | FilesInstalled
    | DbCommitted | CleanupPending | Completed | Aborted

  datatype Member = Member(generation: nat, oldToken: Digest, newToken: Digest)

  /** sourceIsExact: the authorization source has exactly the keys id, kind and projectId. */
  datatype Plan = Plan(
    operationId: nat, authorizationFingerprint: nat, sourceIsExact: bool,
    epochBefore: nat, members: seq<Member>)
  {
    function EpochAfter(): nat { epochBefore + 1 }
  }

  /** serial stands for the counts and instants that make two commit receipts differ. */
  datatype Receipt = Receipt(operationId: nat, epoch: nat, serial: nat)

  datatype Seal = Seal(body: Unsigned)

  datatype Unsigned = Unsigned(
    sequence: nat, operationId: nat, phase: Phase, epoch: nat,
    operation: Option<Plan>, evidence: Option<Receipt>, previous: Option<Seal>)

  datatype Record = Record(body: Unsigned, hash: Seal)

  const FORWARD: seq<Phase> :=
    [Authorized, Prepared, Staged, Switching, FilesInstalled, DbCommitted, CleanupPending, Completed]

  /** Position in the forward chain, and -1 for Aborted. */
  function Order(phase: Phase): int {
    match phase
    case Authorized => 0
    case Prepared => 1
    case Staged => 2
    case Switching => 3
    case FilesInstalled => 4
    case DbCommitted => 5
    case CleanupPending => 6
    case Completed => 7
    case Aborted => -1
  }

  predicate Committed(phase: Phase) {
    phase == DbCommitted || phase == CleanupPending || phase == Completed
  }

  // ---------------------------------------------------------------------------
  // Reading
  // ---------------------------------------------------------------------------

  predicate PlanAccepted(plan: Plan, slots: nat) {
    && plan.sourceIsExact
    && plan.EpochAfter() <= MAX_SAFE_INTEGER
    && |plan.members| == slots
    && (forall i :: 0 <= i < slots ==>
          && 1 <= plan.members[i].generation <= MAX_SAFE_INTEGER
          && plan.members[i].newToken != plan.members[i].oldToken)
    && (forall i, j :: 0 <= i < j < slots ==> plan.members[i].newToken != plan.members[j].newToken)
  }

  predicate RecordAccepted(record: Record, index: nat, previous: Option<Seal>, slots: nat) {
    && record.body.sequence == index + 1
    && record.body.previous == previous
    && record.hash == Seal(record.body)
    && 1 <= record.body.epoch <= MAX_SAFE_INTEGER
    && (record.body.operation.Some? ==> PlanAccepted(record.body.operation.value, slots))
  }

  function HashBefore(records: seq<Record>, index: nat): Option<Seal>
    requires index <= |records|
  {
    if index == 0 then None else Some(records[index - 1].hash)
  }

  predicate JournalAccepted(records: seq<Record>, slots: nat) {
    forall i :: 0 <= i < |records| ==> RecordAccepted(records[i], i, HashBefore(records, i), slots)
  }

  /** The journal reader: one pass that carries the previous record's hash. */
  method ReadJournal(lines: seq<Record>, slots: nat) returns (accepted: bool)
    ensures accepted <==> JournalAccepted(lines, slots)
  {
    var previous: Option<Seal> := None;
    for index := 0 to |lines|
      invariant previous == HashBefore(lines, index)
      invariant forall i :: 0 <= i < index ==> RecordAccepted(lines[i], i, HashBefore(lines, i), slots)
    {
      if !RecordAccepted(lines[index], index, previous, slots) {
        return false;
      }
      previous := Some(lines[index].hash);
    }
    return true;
  }

  /** The record that appendJournal writes after `records`. */
  function NextRecord(
    records: seq<Record>, plan: Plan, phase: Phase, evidence: Option<Receipt>): Record
  {
    var body := Unsigned(
      |records| + 1, plan.operationId, phase, plan.EpochAfter(),
      if phase == Authorized then Some(plan) else None,
      evidence, HashBefore(records, |records|));
    Record(body, Seal(body))
  }

  lemma EqualHashesMeanEqualRecords(a: Record, b: Record, i: nat, j: nat, p: Option<Seal>, q: Option<Seal>, slots: nat)
    requires RecordAccepted(a, i, p, slots) && RecordAccepted(b, j, q, slots)
    requires a.hash == b.hash
    ensures a == b && i == j && p == q
  {
    assert a.hash.body == a.body && b.hash.body == b.body;
  }

  /** A hash-chained journal is determined by its last hash. */
  lemma {:induction false} EqualLastHashesMeanEqualJournals(a: seq<Record>, b: seq<Record>, slots: nat)
    requires JournalAccepted(a, slots) && JournalAccepted(b, slots)
    requires HashBefore(a, |a|) == HashBefore(b, |b|)
    ensures a == b
    decreases |a|
  {
    hide RecordAccepted;
    if |a| == 0 {
      assert HashBefore(b, |b|).None?;
    } else {
      assert HashBefore(b, |b|).Some?;
      var m, n := |a| - 1, |b| - 1;
      EqualHashesMeanEqualRecords(a[m], b[n], m, n, HashBefore(a, m), HashBefore(b, n), slots);
      AcceptedPrefix(a, m, slots);
      AcceptedPrefix(b, n, slots);
      EqualLastHashesMeanEqualJournals(a[..m], b[..n], slots);
      assert a == a[..m] + [a[m]] && b == b[..n] + [b[n]];
    }
  }

  lemma AcceptedPrefix(records: seq<Record>, length: nat, slots: nat)
    requires JournalAccepted(records, slots) && length <= |records|
    ensures JournalAccepted(records[..length], slots)
  {
    forall i | 0 <= i < length
      ensures RecordAccepted(records[..length][i], i, HashBefore(records[..length], i), slots)
    {
      assert RecordAccepted(records[i], i, HashBefore(records, i), slots);
    }
  }

  /** Nothing appended later makes a refused journal readable again. */
  lemma RefusedForever(records: seq<Record>, more: seq<Record>, slots: nat)
    requires !JournalAccepted(records, slots)
    ensures !JournalAccepted(records + more, slots)
  {
    assert (records + more)[..|records|] == records;
    if JournalAccepted(records + more, slots) {
      AcceptedPrefix(records + more, |records|, slots);
    }
  }

  /**
   What the writer appends is accepted on the next read exactly when the plan it
   carries is; only AUTHORIZED carries one.
   */
  lemma AppendAccepted(
    records: seq<Record>, plan: Plan, phase: Phase, evidence: Option<Receipt>, slots: nat)
    requires JournalAccepted(records, slots)
    requires phase != Authorized ==> PlanAccepted(plan, slots)
    ensures JournalAccepted(records + [NextRecord(records, plan, phase, evidence)], slots)
            <==> PlanAccepted(plan, slots)
  {
    var grown := records + [NextRecord(records, plan, phase, evidence)];
    forall i | 0 <= i < |records|
      ensures RecordAccepted(grown[i], i, HashBefore(grown, i), slots)
    {
      assert RecordAccepted(records[i], i, HashBefore(records, i), slots);
    }
    var last := |records|;
    assert HashBefore(grown, last) == HashBefore(records, last);
    if JournalAccepted(grown, slots) {
      assert RecordAccepted(grown[last], last, HashBefore(grown, last), slots);
    }
  }

  // ---------------------------------------------------------------------------
  // Loading one operation
  // ---------------------------------------------------------------------------

  function Select(records: seq<Record>, operationId: nat): (selected: seq<Record>)
  {
    if records == [] then []
    else
      var front := Select(records[..|records| - 1], operationId);
      var last := records[|records| - 1];
      if last.body.operationId == operationId then front + [last] else front
  }

  predicate ForwardChain(selected: seq<Record>) {
    |selected| <= |FORWARD| && forall i :: 0 <= i < |selected| ==> selected[i].body.phase == FORWARD[i]
  }

  predicate AbortChain(selected: seq<Record>) {
    && |selected| == 4
    && selected[0].body.phase == Authorized && selected[1].body.phase == Prepared
    && selected[2].body.phase == Staged && selected[3].body.phase == Aborted
  }

  predicate Metadata(selected: seq<Record>, plan: Plan) {
    forall i :: 0 <= i < |selected| ==>
      && selected[i].body.epoch == plan.EpochAfter()
      && (i > 0 ==> selected[i].body.operation.None?)
      && (Committed(selected[i].body.phase) <==> selected[i].body.evidence.Some?)
  }

  datatype Operation =
    | Absent
    | Corrupt
    | Loaded(records: seq<Record>, plan: Plan, phase: Phase)

  function Load(records: seq<Record>, operationId: nat): Operation {
    var selected := Select(records, operationId);
    if |selected| == 0 then Absent
    else if selected[0].body.phase != Authorized || selected[0].body.operation.None? then Corrupt
    else if !ForwardChain(selected) && !AbortChain(selected) then Corrupt
    else if !Metadata(selected, selected[0].body.operation.value) then Corrupt
    else Loaded(selected, selected[0].body.operation.value, selected[|selected| - 1].body.phase)
  }

  /** Every committed-phase record of the operation names this receipt. */
  predicate EvidenceNames(selected: seq<Record>, receipt: Receipt) {
    forall i :: 0 <= i < |selected| && Committed(selected[i].body.phase) ==>
      selected[i].body.evidence == Some(receipt)
  }

  /** An operation that has not journalled its commit has no evidence on record. */
  lemma UncommittedRecords(records: seq<Record>, operationId: nat, receipt: Receipt)
    requires Load(records, operationId).Loaded? && !Committed(Load(records, operationId).phase)
    ensures EvidenceNames(Load(records, operationId).records, receipt)
  {
    hide Metadata, Select;
    var loaded := Load(records, operationId);
    if ForwardChain(loaded.records) {
      assert Order(loaded.phase) == |loaded.records| - 1 < Order(DbCommitted);
    }
  }

  /** An operation's records only grow with the journal. */
  lemma {:induction false} SelectGrows(records: seq<Record>, grown: seq<Record>, operationId: nat)
    requires records <= grown
    ensures Select(records, operationId) <= Select(grown, operationId)
    decreases |grown|
  {
    if records != grown {
      SelectGrows(records, grown[..|grown| - 1], operationId);
    }
  }

  lemma LoadSelects(records: seq<Record>, operationId: nat)
    ensures Load(records, operationId).Loaded? ==>
      Load(records, operationId).records == Select(records, operationId)
  {
  }

  lemma SelectAppend(records: seq<Record>, record: Record, operationId: nat)
    ensures Select(records + [record], operationId)
         == Select(records, operationId) + (if record.body.operationId == operationId then [record] else [])
  {
    assert (records + [record])[..|records|] == records;
  }

  lemma {:induction false} SelectedComeFrom(records: seq<Record>, operationId: nat)
    ensures forall r :: r in Select(records, operationId) ==> r in records && r.body.operationId == operationId
    decreases |records|
  {
    if records != [] {
      SelectedComeFrom(records[..|records| - 1], operationId);
    }
  }

  /** Another operation's records never disturb this one. */
  lemma LoadOther(records: seq<Record>, record: Record, operationId: nat)
    requires record.body.operationId != operationId
    ensures Load(records + [record], operationId) == Load(records, operationId)
  {
    SelectAppend(records, record, operationId);
    assert Select(records, operationId) + [] == Select(records, operationId);
  }

  /** A first AUTHORIZED record loads as itself. */
  lemma LoadFirst(records: seq<Record>, plan: Plan)
    requires Load(records, plan.operationId) == Absent
    ensures var r := NextRecord(records, plan, Authorized, None);
      Load(records + [r], plan.operationId) == Loaded([r], plan, Authorized)
  {
    SelectAppend(records, NextRecord(records, plan, Authorized, None), plan.operationId);
  }

  /** The phase after `phase` on the forward chain, or the abort of a STAGED operation. */
  predicate Follows(phase: Phase, next: Phase) {
    || (phase != Aborted && next != Aborted && Order(next) == Order(phase) + 1)
    || (phase == Staged && next == Aborted)
  }

  /**
   Appending the next phase keeps the loader accepting, and it loads as that phase;
   appending anything else makes the operation corrupt.
   */
  lemma LoadNext(
    records: seq<Record>, plan: Plan, next: Phase, evidence: Option<Receipt>)
    requires Load(records, plan.operationId).Loaded?
    requires Load(records, plan.operationId).plan == plan
    requires next != Authorized
    requires Committed(next) <==> evidence.Some?
    ensures var before := Load(records, plan.operationId);
      var r := NextRecord(records, plan, next, evidence);
      Load(records + [r], plan.operationId) ==
        if Follows(before.phase, next) then Loaded(before.records + [r], plan, next) else Corrupt
  {
    var before := Load(records, plan.operationId);
    var r := NextRecord(records, plan, next, evidence);
    SelectAppend(records, r, plan.operationId);
    var grown := before.records + [r];
    assert Select(records + [r], plan.operationId) == grown;
    hide ForwardChain, AbortChain;
    ChainNext(before.records, r);
    if Follows(before.phase, next) {
      assert Metadata(grown, plan);
    }
  }

  /** A valid chain stays valid exactly when the next phase follows. */
  lemma ChainNext(chain: seq<Record>, r: Record)
    requires |chain| > 0 && (ForwardChain(chain) || AbortChain(chain))
    requires r.body.phase != Authorized
    ensures ForwardChain(chain + [r]) || AbortChain(chain + [r]) <==>
      Follows(chain[|chain| - 1].body.phase, r.body.phase)
  {
    var grown, n := chain + [r], |chain|;
    assert forall i :: 0 <= i < n ==> grown[i] == chain[i];
    assert grown[n] == r;
    if AbortChain(chain) {
      assert grown[3].body.phase != FORWARD[3];
    } else if Follows(chain[n - 1].body.phase, r.body.phase) {
      if r.body.phase != Aborted {
        assert FORWARD[n] == r.body.phase;
        assert ForwardChain(grown);
      } else {
        assert n == 3;
        assert AbortChain(grown);
      }
    }
  }

  // ---------------------------------------------------------------------------
  // A summary of a whole journal
  // ---------------------------------------------------------------------------

  /** What the loader finds for each operation the journal knows. */
  type Summary = map<nat, Operation>

  /** `summary` is what loads from the journal, and none of it is corrupt. */
  ghost predicate Loads(records: seq<Record>, slots: nat, summary: Summary) {
    && (forall o :: Load(records, o) == if o in summary then summary[o] else Absent)
    && (forall o :: o in summary ==>
          && summary[o].Loaded? && summary[o].plan.operationId == o && PlanAccepted(summary[o].plan, slots))
  }

  /** The journal is accepted and `summary` is what loads from it. */
  ghost predicate Journaled(records: seq<Record>, slots: nat, summary: Summary) {
    JournalAccepted(records, slots) && Loads(records, slots, summary)
  }

  lemma LoadsAfter(records: seq<Record>, slots: nat, summary: Summary, r: Record, operation: Operation)
    requires Loads(records, slots, summary)
    requires Load(records + [r], r.body.operationId) == operation
    requires operation.Loaded? && operation.plan.operationId == r.body.operationId
    requires PlanAccepted(operation.plan, slots)
    ensures Loads(records + [r], slots, summary[r.body.operationId := operation])
  {
    var grown := records + [r];
    var summary' := summary[r.body.operationId := operation];
    forall o ensures Load(grown, o) == if o in summary' then summary'[o] else Absent {
      if o != r.body.operationId {
        LoadOther(records, r, o);
      }
    }
  }

  /** A readable plan may be authorized under an unused operation id. */
  lemma AuthorizeKeepsJournaled(records: seq<Record>, slots: nat, summary: Summary, plan: Plan)
    requires Journaled(records, slots, summary)
    requires plan.operationId !in summary && PlanAccepted(plan, slots)
    ensures var r := NextRecord(records, plan, Authorized, None);
      Journaled(records + [r], slots, summary[plan.operationId := Loaded([r], plan, Authorized)])
  {
    var r := NextRecord(records, plan, Authorized, None);
    AppendAccepted(records, plan, Authorized, None, slots);
    assert Load(records, plan.operationId) == Absent;
    LoadFirst(records, plan);
    LoadsAfter(records, slots, summary, r, Loaded([r], plan, Authorized));
  }

  /** A following phase may be appended to a known operation. */
  lemma AppendKeepsJournaled(
    records: seq<Record>, slots: nat, summary: Summary, plan: Plan, next: Phase, evidence: Option<Receipt>)
    requires Journaled(records, slots, summary)
    requires plan.operationId in summary && summary[plan.operationId].plan == plan
    requires Follows(summary[plan.operationId].phase, next)
    requires Committed(next) <==> evidence.Some?
    ensures var r := NextRecord(records, plan, next, evidence);
      Journaled(records + [r], slots,
                summary[plan.operationId := Loaded(summary[plan.operationId].records + [r], plan, next)])
  {
    var r := NextRecord(records, plan, next, evidence);
    var before := summary[plan.operationId];
    AppendAccepted(records, plan, next, evidence, slots);
    assert Load(records, plan.operationId) == before;
    assert Load(records + [r], plan.operationId) == Loaded(before.records + [r], plan, next) by {
      LoadNext(records, plan, next, evidence);
    }
    LoadsAfter(records, slots, summary, r, Loaded(before.records + [r], plan, next));
  }

  // ---------------------------------------------------------------------------
  // The epoch the journal vouches for
  // ---------------------------------------------------------------------------

  function EpochVouchedBy(operation: Operation): nat {
    match operation
    case Loaded(_, plan, phase) => if Committed(phase) then plan.EpochAfter() else plan.epochBefore
    case _ => 0
  }

  /** The largest epoch that any journalled operation vouches for, 0 for an empty journal. */
  ghost predicate IsLatestEpoch(records: seq<Record>, epoch: nat) {
    && (forall i :: 0 <= i < |records| ==> EpochVouchedBy(Load(records, records[i].body.operationId)) <= epoch)
    && (epoch == 0 || exists i :: (0 <= i < |records| &&
          EpochVouchedBy(Load(records, records[i].body.operationId)) == epoch))
  }

  /** latestExternalEpoch: a loop over the operations, keeping the largest epoch vouched for. */
  method LatestExternalEpoch(records: seq<Record>) returns (epoch: nat)
    ensures IsLatestEpoch(records, epoch)
  {
    hide Load, EpochVouchedBy;
    epoch := 0;
    for k := 0 to |records|
      invariant forall i :: 0 <= i < k ==>
                  EpochVouchedBy(Load(records, records[i].body.operationId)) <= epoch
      invariant epoch == 0 || exists i :: (0 <= i < k &&
                  EpochVouchedBy(Load(records, records[i].body.operationId)) == epoch)
    {
      var vouched := EpochVouchedBy(Load(records, records[k].body.operationId));
      if vouched > epoch {
        epoch := vouched;
      }
    }
  }
}
