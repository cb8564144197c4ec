/** The canonical record of every consumed intent, with the indexes over it.

    `Ledger` is the value of the state and the functions below say what each operation makes of it;
    the class IntentLedgerState.IntentLedger holds it in fields and updates them in place. A guard under which
    the source throws is a precondition here, so every verified call shows that throw unreachable. */
module IntentLedgers {
  import opened Collections
  import opened InputAuthority

  const MAX_BYTES: nat := 6 * 1024 * 1024 + 4096
  const MAX_COUNT: nat := 256
  const MAX_PENDING: nat := 1024
  const MAX_PRE_ADMISSION_AGE_MS: int := 250
  const MAX_QUEUED_AGE_MS: int := 250
  const MAX_SENT_AGE_MS: int := 30000
  const MAX_TERMINATION_AGE_MS: int := 5000
  const MAX_RETAINED_RESULTS: nat := 4096

  /** Local intent ids carry a counter that makes them unique; the counter stands for the id. */
  type Id = nat

  datatype Kind = Unknown | Key | Text | Paste | Focus | Resize | Mouse
  datatype Dimensions = Dimensions(cols: nat, rows: nat, widthPx: nat, heightPx: nat)

  /** A normalized payload: what admission looks at, and the size of the frame it encodes to. */
  datatype Payload = Payload(kind: Kind, move: bool, dimensions: Dimensions, frameBytes: nat)

  datatype NotSentReason =
    | Closed | ControlReplaced | EpochSealed | Malformed | MouseGate | NotWritable | Overload | Policy
    | PreAdmissionExpired | QueueExpired | ReplicaNotCurrent | Superseded | TransportRejected | Validation
  datatype TerminationReason = AcknowledgementTimeout | TerminatedByReplacement | TransportUncertain
  datatype UncertainReason =
    | UncertainClosed | UncertainReplaced | InputAckUncertain | TerminationTimeout | UncertainTransport
  datatype AckResult = Written | Duplicate | Rejected
  datatype ProofReason = InputAck | TombstoneProof

  datatype Outcome =
    | NotSent(notSent: NotSentReason)
    | Deterministic(proof: ProofReason, result: AckResult, authorityEventSeq: nat)
    | Uncertain(uncertain: UncertainReason)

  datatype InputResult = InputResult(
    id: Id, kind: Kind, identity: Option<Identity>, consumedAtMs: int, terminalAtMs: int, outcome: Outcome)

  datatype Admission = Admission(
    identity: Identity, payload: Payload, encodedBytes: nat, admittedAtMs: int, transportGeneration: int)

  datatype Stage =
    | Queued(deadlineAtMs: int)
    | Sending(sendDecisionAtMs: int)
    | Sent(sendDecisionAtMs: int, deadlineAtMs: int)
    | Terminating(sendDecisionAtMs: int, deadlineAtMs: int, terminationReason: TerminationReason)

  datatype Record =
    | Consumed(kind: Kind, consumedAtMs: int)
    | PreAdmission(kind: Kind, consumedAtMs: int, normalized: Payload, preAdmissionBytes: nat)
    | Active(kind: Kind, consumedAtMs: int, admission: Admission, stage: Stage)
    | Terminal(kind: Kind, consumedAtMs: int, result: InputResult)

  datatype Ledger = Ledger(
    records: map<Id, Record>,
    active: map<Identity, Id>,   // activeByIdentity
    activeOrder: seq<Id>,        // the insertion order of that map
    terminalOrder: seq<Id>,
    preIds: seq<Id>,
    preBytes: int,
    queueIds: seq<Id>,
    queueBytes: int)

  const EMPTY: Ledger := Ledger(map[], map[], [], [], [], 0, [], 0)

  // ---- Phases ----

  predicate IsConsumed(l: Ledger, id: Id) { id in l.records && l.records[id].Consumed? }
  predicate IsPre(l: Ledger, id: Id) { id in l.records && l.records[id].PreAdmission? }
  predicate IsActive(l: Ledger, id: Id) { id in l.records && l.records[id].Active? }
  predicate IsQueued(l: Ledger, id: Id) { IsActive(l, id) && l.records[id].stage.Queued? }
  predicate IsSending(l: Ledger, id: Id) { IsActive(l, id) && l.records[id].stage.Sending? }
  predicate IsSent(l: Ledger, id: Id) { IsActive(l, id) && l.records[id].stage.Sent? }
  predicate IsTerminating(l: Ledger, id: Id) { IsActive(l, id) && l.records[id].stage.Terminating? }
  predicate IsTerminal(l: Ledger, id: Id) { id in l.records && l.records[id].Terminal? }
  predicate IsLive(l: Ledger, id: Id) { id in l.records && !l.records[id].Terminal? }

  function IdentityOf(r: Record): Option<Identity> {
    match r
    case Active(_, _, admission, _) => Some(admission.identity)
    case Terminal(_, _, result) => result.identity
    case _ => None
  }

  // ---- Operations ----

  function CreateConsumed(l: Ledger, id: Id, now: int): Ledger
    requires id !in l.records
  {
    l.(records := l.records[id := Consumed(Unknown, now)])
  }

  function Identify(l: Ledger, id: Id, kind: Kind): Ledger
    requires IsConsumed(l, id)
  {
    l.(records := l.records[id := Consumed(kind, l.records[id].consumedAtMs)])
  }

  predicate CanReservePreAdmission(l: Ledger, bytes: nat) {
    |l.preIds| + |l.queueIds| < MAX_COUNT && l.preBytes + l.queueBytes + bytes <= MAX_BYTES
  }

  function EnqueuePreAdmission(l: Ledger, id: Id, normalized: Payload, bytes: nat): Ledger
    requires IsConsumed(l, id) && CanReservePreAdmission(l, bytes)
  {
    var r := l.records[id];
    l.(records := l.records[id := PreAdmission(r.kind, r.consumedAtMs, normalized, bytes)],
       preIds := l.preIds + [id],
       preBytes := l.preBytes + bytes)
  }

  function TakePreAdmission(l: Ledger): Ledger {
    l.(preIds := [], preBytes := 0)
  }

  predicate CanAdmit(l: Ledger, bytes: nat) {
    |l.activeOrder| < MAX_PENDING && |l.queueIds| < MAX_COUNT && l.queueBytes + bytes <= MAX_BYTES
  }

  function Admit(l: Ledger, id: Id, admission: Admission, deadline: int): Ledger
    requires IsPre(l, id) && CanAdmit(l, admission.encodedBytes) && admission.identity !in l.active
  {
    var r := l.records[id];
    l.(records := l.records[id := Active(r.kind, r.consumedAtMs, admission, Queued(deadline))],
       queueIds := l.queueIds + [id],
       queueBytes := l.queueBytes + admission.encodedBytes,
       active := l.active[admission.identity := id],
       activeOrder := l.activeOrder + [id])
  }

  function SetStage(l: Ledger, id: Id, stage: Stage): Ledger
    requires IsActive(l, id)
  {
    var r := l.records[id];
    l.(records := l.records[id := Active(r.kind, r.consumedAtMs, r.admission, stage)])
  }

  function RemoveQueued(l: Ledger, id: Id, bytes: nat): Ledger {
    if id in l.queueIds then
      l.(queueIds := Without(l.queueIds, id), queueBytes := l.queueBytes - bytes)
    else l
  }

  function RemovePreAdmission(l: Ledger, id: Id, bytes: nat): Ledger {
    if id in l.preIds then
      l.(preIds := Without(l.preIds, id), preBytes := l.preBytes - bytes)
    else l
  }

  function StartSending(l: Ledger, id: Id, now: int): Ledger
    requires IsQueued(l, id)
  {
    SetStage(RemoveQueued(l, id, l.records[id].admission.encodedBytes), id, Sending(now))
  }

  function MarkSent(l: Ledger, id: Id, deadline: int): Ledger
    requires IsSending(l, id)
  {
    SetStage(l, id, Sent(l.records[id].stage.sendDecisionAtMs, deadline))
  }

  function BeginTermination(l: Ledger, id: Id, reason: TerminationReason, deadline: int): Ledger {
    if IsSending(l, id) || IsSent(l, id) then
      SetStage(l, id, Terminating(l.records[id].stage.sendDecisionAtMs, deadline, reason))
    else l
  }

  function Evict(records: map<Id, Record>, order: seq<Id>): (map<Id, Record>, seq<Id>)
    decreases |order|
  {
    if |order| <= MAX_RETAINED_RESULTS then (records, order)
    else
      var oldest := order[0];
      Evict(if oldest in records && records[oldest].Terminal? then records - {oldest} else records,
            order[1..])
  }

  /** The result that a record's end gives rise to; it always agrees with the record. */
  function ResultOf(l: Ledger, id: Id, now: int, outcome: Outcome): InputResult
    requires id in l.records
  {
    var r := l.records[id];
    InputResult(id, r.kind, IdentityOf(r), r.consumedAtMs, now, outcome)
  }

  function Deindex(l: Ledger, id: Id): Ledger
    requires id in l.records
  {
    match l.records[id]
    case PreAdmission(_, _, _, bytes) => RemovePreAdmission(l, id, bytes)
    case Active(_, _, admission, stage) =>
      var l1 := if stage.Queued? then RemoveQueued(l, id, admission.encodedBytes) else l;
      l1.(active := l1.active - {admission.identity}, activeOrder := Without(l1.activeOrder, id))
    case _ => l
  }

  function Finish(l: Ledger, id: Id, result: InputResult): Ledger
    requires IsLive(l, id)
    requires result == ResultOf(l, id, result.terminalAtMs, result.outcome)
  {
    var r := l.records[id];
    var l1 := Deindex(l, id);
    var (records, order) := Evict(l1.records[id := Terminal(r.kind, r.consumedAtMs, result)],
                                  l1.terminalOrder + [id]);
    l1.(records := records, terminalOrder := order)
  }

  function GetByIdentity(l: Ledger, identity: Identity): Option<Id> {
    if identity in l.active && IsActive(l, l.active[identity]) then Some(l.active[identity]) else None
  }

  // ---- Deadlines ----

  /** When a record falls due, if waiting on it is bounded by a deadline. */
  function DueAt(r: Record): Option<int> {
    match r
    case PreAdmission(_, consumedAtMs, _, _) => Some(consumedAtMs + MAX_PRE_ADMISSION_AGE_MS)
    case Active(_, _, _, Queued(deadline)) => Some(deadline)
    case Active(_, _, _, Sent(_, deadline)) => Some(deadline)
    case Active(_, _, _, Terminating(_, deadline, _)) => Some(deadline)
    case _ => None
  }

  function Earlier(a: Option<int>, b: Option<int>): Option<int> {
    if a.None? then b else if b.None? || a.value <= b.value then a else b
  }

  /** The earliest deadline among ids, folded from the left as the scan does. */
  function EarliestOf(records: map<Id, Record>, ids: seq<Id>, start: Option<int>): Option<int>
    decreases |ids|
  {
    if ids == [] then start
    else
      var last := |ids| - 1;
      var before := EarliestOf(records, ids[..last], start);
      if ids[last] in records then Earlier(before, DueAt(records[ids[last]])) else before
  }

  function EarliestDeadline(l: Ledger): Option<int> {
    EarliestOf(l.records, l.activeOrder, EarliestOf(l.records, l.queueIds, EarliestOf(l.records, l.preIds, None)))
  }

  // ---- Invariant ----

  function PreWeight(records: map<Id, Record>, id: Id): nat {
    if id in records && records[id].PreAdmission? then records[id].preAdmissionBytes else 0
  }

  function QueueWeight(records: map<Id, Record>, id: Id): nat {
    if id in records && records[id].Active? && records[id].stage.Queued?
    then records[id].admission.encodedBytes else 0
  }

  function PreSum(records: map<Id, Record>, ids: seq<Id>): nat {
    if ids == [] then 0 else PreWeight(records, ids[0]) + PreSum(records, ids[1..])
  }

  function QueueSum(records: map<Id, Record>, ids: seq<Id>): nat {
    if ids == [] then 0 else QueueWeight(records, ids[0]) + QueueSum(records, ids[1..])
  }

  /** Each index holds exactly the records of its phase. `taken` are the pre-admission records that
      `takePreAdmission` handed out and that the owner has not settled yet. */
  ghost predicate IndexesAgree(l: Ledger, taken: seq<Id>) {
    && Distinct(l.preIds) && Distinct(taken) && Distinct(l.queueIds)
    && Distinct(l.activeOrder) && Distinct(l.terminalOrder)
    && (forall id :: id in l.preIds ==> id !in taken)
    && (forall id :: id in l.preIds || id in taken <==> IsPre(l, id))
    && (forall id :: id in l.queueIds <==> IsQueued(l, id))
    && (forall id :: id in l.activeOrder <==> IsActive(l, id))
    && (forall id :: id in l.terminalOrder <==> IsTerminal(l, id))
  }

  ghost predicate IdentitiesAgree(l: Ledger) {
    && (forall id :: IsActive(l, id) ==>
          var key := l.records[id].admission.identity; key in l.active && l.active[key] == id)
    && (forall key :: key in l.active ==>
          IsActive(l, l.active[key]) && l.records[l.active[key]].admission.identity == key)
  }

  ghost predicate BytesAgree(l: Ledger) {
    && l.preBytes == PreSum(l.records, l.preIds)
    && l.queueBytes == QueueSum(l.records, l.queueIds)
  }

  ghost predicate WithinLimits(l: Ledger) {
    && |l.preIds| + |l.queueIds| <= MAX_COUNT
    && l.preBytes + l.queueBytes <= MAX_BYTES
    && |l.activeOrder| <= MAX_PENDING
    && |l.terminalOrder| <= MAX_RETAINED_RESULTS
  }

  ghost predicate ResultsAgree(l: Ledger) {
    forall id :: IsTerminal(l, id) ==>
      var r := l.records[id];
      r.result.id == id && r.result.kind == r.kind && r.result.consumedAtMs == r.consumedAtMs
  }

  ghost predicate Valid(l: Ledger, taken: seq<Id>) {
    IndexesAgree(l, taken) && IdentitiesAgree(l) && BytesAgree(l) && WithinLimits(l) && ResultsAgree(l)
  }

  // ---- Sums ----

  lemma {:induction false} PreSumSame(a: map<Id, Record>, b: map<Id, Record>, ids: seq<Id>)
    requires forall id :: id in ids ==> PreWeight(a, id) == PreWeight(b, id)
    ensures PreSum(a, ids) == PreSum(b, ids)
  {
    if ids != [] { PreSumSame(a, b, ids[1..]); }
  }

  lemma {:induction false} QueueSumSame(a: map<Id, Record>, b: map<Id, Record>, ids: seq<Id>)
    requires forall id :: id in ids ==> QueueWeight(a, id) == QueueWeight(b, id)
    ensures QueueSum(a, ids) == QueueSum(b, ids)
  {
    if ids != [] { QueueSumSame(a, b, ids[1..]); }
  }

  lemma {:induction false} PreSumAppend(records: map<Id, Record>, ids: seq<Id>, id: Id)
    ensures PreSum(records, ids + [id]) == PreSum(records, ids) + PreWeight(records, id)
  {
    if ids == [] {
      assert ids + [id] == [id];
    } else {
      PreSumAppend(records, ids[1..], id);
      assert (ids + [id])[1..] == ids[1..] + [id];
    }
  }

  lemma {:induction false} QueueSumAppend(records: map<Id, Record>, ids: seq<Id>, id: Id)
    ensures QueueSum(records, ids + [id]) == QueueSum(records, ids) + QueueWeight(records, id)
  {
    if ids == [] {
      assert ids + [id] == [id];
    } else {
      QueueSumAppend(records, ids[1..], id);
      assert (ids + [id])[1..] == ids[1..] + [id];
    }
  }

  lemma {:induction false} PreSumWithout(records: map<Id, Record>, ids: seq<Id>, id: Id)
    requires id in ids
    ensures PreSum(records, ids) == PreSum(records, Without(ids, id)) + PreWeight(records, id)
  {
    if ids[0] != id {
      PreSumWithout(records, ids[1..], id);
    }
  }

  lemma {:induction false} QueueSumWithout(records: map<Id, Record>, ids: seq<Id>, id: Id)
    requires id in ids
    ensures QueueSum(records, ids) == QueueSum(records, Without(ids, id)) + QueueWeight(records, id)
  {
    if ids[0] != id {
      QueueSumWithout(records, ids[1..], id);
    }
  }

  // ---- Every operation keeps the invariant ----

  lemma CreateConsumedValid(l: Ledger, id: Id, now: int)
    requires Valid(l, []) && id !in l.records
    ensures Valid(CreateConsumed(l, id, now), [])
  {
    var n := CreateConsumed(l, id, now);
    PreSumSame(l.records, n.records, l.preIds);
    QueueSumSame(l.records, n.records, l.queueIds);
    forall k ensures (IsPre(n, k) <==> IsPre(l, k)) && (IsActive(n, k) <==> IsActive(l, k))
                     && (IsTerminal(n, k) <==> IsTerminal(l, k)) && (IsQueued(n, k) <==> IsQueued(l, k)) {}
  }

  lemma IdentifyValid(l: Ledger, id: Id, kind: Kind)
    requires Valid(l, []) && IsConsumed(l, id)
    ensures Valid(Identify(l, id, kind), [])
  {
    var n := Identify(l, id, kind);
    PreSumSame(l.records, n.records, l.preIds);
    QueueSumSame(l.records, n.records, l.queueIds);
    forall k ensures (IsPre(n, k) <==> IsPre(l, k)) && (IsActive(n, k) <==> IsActive(l, k))
                     && (IsTerminal(n, k) <==> IsTerminal(l, k)) && (IsQueued(n, k) <==> IsQueued(l, k)) {}
  }

  lemma EnqueueValid(l: Ledger, id: Id, normalized: Payload, bytes: nat)
    requires Valid(l, []) && IsConsumed(l, id) && CanReservePreAdmission(l, bytes)
    ensures Valid(EnqueuePreAdmission(l, id, normalized, bytes), [])
  {
    var n := EnqueuePreAdmission(l, id, normalized, bytes);
    assert !IsPre(l, id);
    assert id !in l.preIds;
    PreSumSame(l.records, n.records, l.preIds);
    PreSumAppend(n.records, l.preIds, id);
    QueueSumSame(l.records, n.records, l.queueIds);
    forall k ensures (IsPre(n, k) <==> IsPre(l, k) || k == id) && (IsActive(n, k) <==> IsActive(l, k))
                     && (IsTerminal(n, k) <==> IsTerminal(l, k)) && (IsQueued(n, k) <==> IsQueued(l, k)) {}
  }

  lemma TakeValid(l: Ledger)
    requires Valid(l, [])
    ensures Valid(TakePreAdmission(l), l.preIds)
  {
    var n := TakePreAdmission(l);
    forall k ensures (IsPre(n, k) <==> IsPre(l, k)) && (IsActive(n, k) <==> IsActive(l, k))
                     && (IsTerminal(n, k) <==> IsTerminal(l, k)) && (IsQueued(n, k) <==> IsQueued(l, k)) {}
  }

  /** Which records an admission moves. */
  lemma AdmitMoves(l: Ledger, taken: seq<Id>, admission: Admission, deadline: int)
    requires Valid(l, taken) && taken != []
    requires CanAdmit(l, admission.encodedBytes) && admission.identity !in l.active
    ensures IsPre(l, taken[0]) && !IsQueued(l, taken[0]) && !IsActive(l, taken[0])
    ensures var id := taken[0]; var n := Admit(l, id, admission, deadline);
            forall k :: && (IsPre(n, k) <==> IsPre(l, k) && k != id)
                        && (IsActive(n, k) <==> IsActive(l, k) || k == id)
                        && (IsQueued(n, k) <==> IsQueued(l, k) || k == id)
                        && (IsTerminal(n, k) <==> IsTerminal(l, k))
  {
    hide IdentitiesAgree, BytesAgree, WithinLimits, ResultsAgree;
    assert taken[0] in taken;
  }

  lemma AdmitIndexes(l: Ledger, taken: seq<Id>, admission: Admission, deadline: int)
    requires Valid(l, taken) && taken != [] && l.preIds == [] && IsPre(l, taken[0])
    requires CanAdmit(l, admission.encodedBytes) && admission.identity !in l.active
    ensures IndexesAgree(Admit(l, taken[0], admission, deadline), taken[1..])
  {
    hide IdentitiesAgree, BytesAgree, WithinLimits, ResultsAgree;
    AdmitMoves(l, taken, admission, deadline);
    assert forall k :: k in taken <==> k == taken[0] || k in taken[1..];
  }

  lemma AdmitBytes(l: Ledger, taken: seq<Id>, admission: Admission, deadline: int)
    requires Valid(l, taken) && taken != [] && l.preIds == [] && IsPre(l, taken[0])
    requires CanAdmit(l, admission.encodedBytes) && admission.identity !in l.active
    ensures BytesAgree(Admit(l, taken[0], admission, deadline))
    ensures l.preBytes == 0
  {
    hide IdentitiesAgree, WithinLimits, ResultsAgree;
    AdmitMoves(l, taken, admission, deadline);
    var n := Admit(l, taken[0], admission, deadline);
    QueueSumSame(l.records, n.records, l.queueIds);
    QueueSumAppend(n.records, l.queueIds, taken[0]);
  }

  lemma AdmitValid(l: Ledger, taken: seq<Id>, admission: Admission, deadline: int)
    requires Valid(l, taken) && taken != [] && l.preIds == []
    requires CanAdmit(l, admission.encodedBytes) && admission.identity !in l.active
    ensures IsPre(l, taken[0])
    ensures Valid(Admit(l, taken[0], admission, deadline), taken[1..])
  {
    hide IndexesAgree, BytesAgree;
    AdmitMoves(l, taken, admission, deadline);
    AdmitIndexes(l, taken, admission, deadline);
    AdmitBytes(l, taken, admission, deadline);
  }

  lemma StartSendingValid(l: Ledger, id: Id, now: int)
    requires Valid(l, []) && IsQueued(l, id)
    ensures Valid(StartSending(l, id, now), [])
  {
    var n := StartSending(l, id, now);
    assert id in l.queueIds;
    WithoutRemoves(l.queueIds, id);
    QueueSumWithout(l.records, l.queueIds, id);
    QueueSumSame(l.records, n.records, n.queueIds);
    PreSumSame(l.records, n.records, l.preIds);
    forall k ensures (IsPre(n, k) <==> IsPre(l, k)) && (IsActive(n, k) <==> IsActive(l, k))
                     && (IsTerminal(n, k) <==> IsTerminal(l, k))
                     && (IsQueued(n, k) <==> IsQueued(l, k) && k != id) {}
  }

  lemma SetStageValid(l: Ledger, taken: seq<Id>, id: Id, stage: Stage)
    requires Valid(l, taken) && IsActive(l, id) && !IsQueued(l, id) && !stage.Queued?
    ensures Valid(SetStage(l, id, stage), taken)
  {
    var n := SetStage(l, id, stage);
    QueueSumSame(l.records, n.records, l.queueIds);
    PreSumSame(l.records, n.records, l.preIds);
    forall k ensures (IsPre(n, k) <==> IsPre(l, k)) && (IsActive(n, k) <==> IsActive(l, k))
                     && (IsTerminal(n, k) <==> IsTerminal(l, k)) && (IsQueued(n, k) <==> IsQueued(l, k)) {}
  }

  /** What finishing a record does to the indexes, before the result is stored. */
  lemma DeindexFacts(l: Ledger, taken: seq<Id>, id: Id)
    requires Valid(l, taken) && IsLive(l, id)
    ensures var n := Deindex(l, id);
            && n.records == l.records && n.terminalOrder == l.terminalOrder
            && Distinct(n.preIds) && Distinct(n.queueIds) && Distinct(n.activeOrder)
            && (forall k :: k in n.preIds <==> k in l.preIds && k != id)
            && (forall k :: k in n.queueIds <==> k in l.queueIds && k != id)
            && (forall k :: k in n.activeOrder <==> k in l.activeOrder && k != id)
            && n.preBytes == PreSum(l.records, n.preIds)
            && n.queueBytes == QueueSum(l.records, n.queueIds)
            && WithinLimits(n)
  {
    WithoutRemoves(l.preIds, id);
    WithoutRemoves(l.queueIds, id);
    WithoutRemoves(l.activeOrder, id);
    if id in l.preIds {
      assert IsPre(l, id);
      PreSumWithout(l.records, l.preIds, id);
    }
    if id in l.queueIds {
      assert IsQueued(l, id);
      QueueSumWithout(l.records, l.queueIds, id);
    }
    assert IsPre(l, id) || id !in l.preIds;
    assert IsQueued(l, id) || id !in l.queueIds;
    assert IsActive(l, id) || id !in l.activeOrder;
  }

  /** Retention only ever drops terminal records, and keeps the order in step with them. */
  lemma EvictFacts(records: map<Id, Record>, order: seq<Id>)
    requires |order| <= MAX_RETAINED_RESULTS + 1 && Distinct(order)
    requires forall k :: k in order <==> k in records && records[k].Terminal?
    ensures var (kept, left) := Evict(records, order);
            && |left| <= MAX_RETAINED_RESULTS && Distinct(left)
            && (forall k :: k in left <==> k in kept && kept[k].Terminal?)
            && (forall k :: k in kept ==> k in records && kept[k] == records[k])
            && (forall k :: k in records && !records[k].Terminal? ==> k in kept)
  {
    if |order| > MAX_RETAINED_RESULTS {
      assert order[0] in order;
      assert Evict(records, order) == Evict(records - {order[0]}, order[1..]);
      assert Evict(records - {order[0]}, order[1..]) == (records - {order[0]}, order[1..]);
      assert forall k :: k in order[1..] <==> k in order && k != order[0];
    }
  }

  /** What finishing a record leaves alone: every other live record stays as it was, the finished one
      is no longer live, and nothing new appears. */
  lemma FinishFrame(l: Ledger, taken: seq<Id>, id: Id, result: InputResult)
    requires Valid(l, taken) && IsLive(l, id)
    requires result == ResultOf(l, id, result.terminalAtMs, result.outcome)
    ensures var n := Finish(l, id, result);
            var d := Deindex(l, id);
            && n == d.(records := n.records, terminalOrder := n.terminalOrder)
            && |n.terminalOrder| <= MAX_RETAINED_RESULTS && Distinct(n.terminalOrder)
            && (forall k :: k in n.terminalOrder <==> IsTerminal(n, k))
            && (forall k :: k in n.records ==> k in l.records)
            && (forall k :: k in n.records && k != id ==> n.records[k] == l.records[k])
            && (forall k :: k != id && IsLive(l, k) ==> k in n.records)
            && (id in n.records ==> n.records[id] == Terminal(l.records[id].kind, l.records[id].consumedAtMs, result))
  {
    var r := l.records[id];
    var stored := l.records[id := Terminal(r.kind, r.consumedAtMs, result)];
    var order := l.terminalOrder + [id];
    DeindexFacts(l, taken, id);
    assert !IsTerminal(l, id);
    assert forall k :: k in order <==> k in l.terminalOrder || k == id;
    assert forall k :: k in l.terminalOrder <==> IsTerminal(l, k);
    EvictFacts(stored, order);
  }

  lemma FinishQueues(l: Ledger, taken: seq<Id>, id: Id, result: InputResult)
    requires Valid(l, taken) && IsLive(l, id)
    requires result == ResultOf(l, id, result.terminalAtMs, result.outcome)
    ensures var n := Finish(l, id, result);
            n.preIds == Without(l.preIds, id) && n.queueIds == Without(l.queueIds, id)
  {
    assert IsPre(l, id) <==> id in l.preIds || id in taken;
    assert IsQueued(l, id) <==> id in l.queueIds;
    hide Valid, Evict;
    if id !in l.queueIds { WithoutAbsent(l.queueIds, id); }
    if id !in l.preIds { WithoutAbsent(l.preIds, id); }
  }

  lemma FinishValid(l: Ledger, taken: seq<Id>, id: Id, result: InputResult)
    requires Valid(l, taken) && IsLive(l, id)
    requires result == ResultOf(l, id, result.terminalAtMs, result.outcome)
    ensures Valid(Finish(l, id, result), Without(taken, id))
  {
    var n := Finish(l, id, result);
    DeindexFacts(l, taken, id);
    FinishFrame(l, taken, id, result);
    WithoutRemoves(taken, id);
    forall k ensures (IsPre(n, k) <==> IsPre(l, k) && k != id)
                     && (IsActive(n, k) <==> IsActive(l, k) && k != id)
                     && (IsQueued(n, k) <==> IsQueued(l, k) && k != id) {}
    assert IndexesAgree(n, Without(taken, id));
    FinishBytes(l, taken, id, result);
    FinishIdentities(l, taken, id, result);
  }

  lemma FinishBytes(l: Ledger, taken: seq<Id>, id: Id, result: InputResult)
    requires Valid(l, taken) && IsLive(l, id)
    requires result == ResultOf(l, id, result.terminalAtMs, result.outcome)
    ensures BytesAgree(Finish(l, id, result))
  {
    var n := Finish(l, id, result);
    DeindexFacts(l, taken, id);
    FinishFrame(l, taken, id, result);
    forall k | k in n.preIds ensures PreWeight(l.records, k) == PreWeight(n.records, k) {
      assert IsPre(l, k);
    }
    forall k | k in n.queueIds ensures QueueWeight(l.records, k) == QueueWeight(n.records, k) {
      assert IsQueued(l, k);
    }
    PreSumSame(l.records, n.records, n.preIds);
    QueueSumSame(l.records, n.records, n.queueIds);
  }

  lemma FinishIdentities(l: Ledger, taken: seq<Id>, id: Id, result: InputResult)
    requires Valid(l, taken) && IsLive(l, id)
    requires result == ResultOf(l, id, result.terminalAtMs, result.outcome)
    ensures IdentitiesAgree(Finish(l, id, result))
  {
    var n := Finish(l, id, result);
    FinishFrame(l, taken, id, result);
    assert n.active == if IsActive(l, id) then l.active - {l.records[id].admission.identity} else l.active;
    forall k | IsActive(n, k)
      ensures var key := n.records[k].admission.identity; key in n.active && n.active[key] == k
    {
      assert k != id && IsActive(l, k);
    }
    forall key | key in n.active
      ensures IsActive(n, n.active[key]) && n.records[n.active[key]].admission.identity == key
    {
      assert IsActive(l, l.active[key]);
      assert l.active[key] != id;
    }
  }

  // ---- The earliest deadline ----

  lemma {:induction false} EarliestOfIsLeast(records: map<Id, Record>, ids: seq<Id>, start: Option<int>)
    ensures var e := EarliestOf(records, ids, start);
            && (start.Some? ==> e.Some? && e.value <= start.value)
            && (forall id :: id in ids && id in records && DueAt(records[id]).Some? ==>
                  e.Some? && e.value <= DueAt(records[id]).value)
            && (e == start || exists id :: id in ids && id in records && DueAt(records[id]) == e)
    decreases |ids|
  {
    if ids != [] {
      var last := |ids| - 1;
      EarliestOfIsLeast(records, ids[..last], start);
      assert ids == ids[..last] + [ids[last]];
      assert forall id :: id in ids <==> id in ids[..last] || id == ids[last];
    }
  }

  /** The armed deadline is the least one outstanding, and there is none only if nothing waits. */
  lemma EarliestDeadlineIsLeast(l: Ledger)
    requires Valid(l, [])
    ensures var e := EarliestDeadline(l);
            && (forall id :: id in l.records && DueAt(l.records[id]).Some? ==>
                  e.Some? && e.value <= DueAt(l.records[id]).value)
            && (e.Some? ==> exists id :: id in l.records && DueAt(l.records[id]) == e)
  {
    var e1 := EarliestOf(l.records, l.preIds, None);
    var e2 := EarliestOf(l.records, l.queueIds, e1);
    EarliestOfIsLeast(l.records, l.preIds, None);
    EarliestOfIsLeast(l.records, l.queueIds, e1);
    EarliestOfIsLeast(l.records, l.activeOrder, e2);
    forall id | id in l.records && DueAt(l.records[id]).Some?
      ensures id in l.preIds || id in l.activeOrder
    {
      assert IsPre(l, id) || IsActive(l, id);
    }
  }
}
