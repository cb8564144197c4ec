/** What each turn of the Browser's input owner makes of its state.

    `Owner` is the value of the dispatcher's state together with three histories: the identities ever
    allocated, the calls ever made to the sender, and the results ever published. A place where the
    source would throw an internal error sets `faulted`; InputOwnerProofs shows it is never set. */
module InputOwner {
  import opened Collections
  import opened InputAuthority
  import opened IntentLedgers

  datatype Decision = Accepted | ProvenNotAccepted | SendUncertain

  /** A consumed UI event, with what the pure codec and the policy say of it. */
  datatype InputEvent = InputEvent(
    payload: Payload,
    wellFormed: bool,    // normalization and its sequence lookup did not throw
    schemaValid: bool,
    sizeable: bool,      // the normalized payload could be measured
    bytes: nat,          // its normalized size
    allowed: bool)       // policy neither refused nor threw

  datatype AckStatus = Settled(result: AckResult) | Unsure

  datatype Op =
    | AttachTransport(transport: Transport, freshEpoch: string)
    | DetachTransport(closed: bool)
    | RevokeWriter
    | Send(event: InputEvent)
    | SetReplicaCurrent(current: bool)
    | Acknowledge(fence: Option<nat>, inputEpoch: string, clientInputSeq: nat, status: AckStatus, eventSeq: nat)
    | ProveTombstone(proof: Identity, eventSeq: nat)
    | ConfirmResize(dimensions: Dimensions)
    | RunAdmission   // the admission microtask
    | RunSend        // a send decision that was deferred
    | Wake           // the deadline timer

  /** One call of the sender: what it does to the owner before it returns, and what it returns.
      `enqueued` says whether the frame went into the channel. */
  datatype SenderTurn = SenderTurn(ops: seq<Op>, decision: Decision, enqueued: bool)

  datatype Handed = Handed(id: Id, identity: Identity, payload: Payload, enqueued: bool)

  datatype Owner = Owner(
    ledger: Ledger,
    authority: AuthorityState,
    unusedEpoch: string,
    admissionScheduled: bool,
    drainingQueue: bool,
    sendScheduled: bool,
    inlineSend: bool,          // whether scheduleSendDecision runs its callback at once
    deadlineAtMs: Option<int>,
    counter: nat,
    latestResize: Option<Dimensions>,
    replicaCurrent: bool,
    resizeConfirmed: bool,
    notifications: seq<InputResult>,
    // histories
    identities: map<Id, Identity>,
    handed: seq<Handed>,
    published: seq<InputResult>,
    faulted: bool)

  function Initial(epoch: string, inlineSend: bool): Owner {
    Owner(EMPTY, INITIAL, epoch, false, false, false, inlineSend, None, 0, None, false, false, [],
          map[], [], [], false)
  }

  function Fault(o: Owner): Owner { o.(faulted := true) }

  // ---- Ending an intent ----

  function FinishAs(o: Owner, now: int, id: Id, outcome: Outcome): (r: Owner)
    ensures |r.ledger.queueIds| <= |o.ledger.queueIds|
  {
    if !IsLive(o.ledger, id) then o
    else
      var result := ResultOf(o.ledger, id, now, outcome);
      o.(ledger := Finish(o.ledger, id, result), notifications := o.notifications + [result])
  }

  function FinishEach(o: Owner, now: int, ids: seq<Id>, outcome: Outcome): (r: Owner)
    ensures |r.ledger.queueIds| <= |o.ledger.queueIds|
    decreases |ids|
  {
    if ids == [] then o else FinishEach(FinishAs(o, now, ids[0], outcome), now, ids[1..], outcome)
  }

  function SettlePreAdmission(o: Owner, now: int, reason: NotSentReason): Owner {
    FinishEach(o.(ledger := TakePreAdmission(o.ledger)), now, o.ledger.preIds, NotSent(reason))
  }

  function SettleQueued(o: Owner, now: int, reason: NotSentReason): Owner {
    FinishEach(o, now, o.ledger.queueIds, NotSent(reason))
  }

  function BeginTerminationOf(o: Owner, id: Id, reason: TerminationReason, deadline: int): (r: Owner)
    ensures |r.ledger.queueIds| == |o.ledger.queueIds|
  {
    o.(ledger := BeginTermination(o.ledger, id, reason, deadline))
  }

  function TerminateEach(o: Owner, now: int, ids: seq<Id>): Owner
    decreases |ids|
  {
    if ids == [] then o
    else
      TerminateEach(BeginTerminationOf(o, ids[0], TerminatedByReplacement, now + MAX_TERMINATION_AGE_MS),
                    now, ids[1..])
  }

  function CloseEach(o: Owner, now: int, ids: seq<Id>): Owner
    decreases |ids|
  {
    if ids == [] then o
    else
      var next := if IsActive(o.ledger, ids[0]) && !IsQueued(o.ledger, ids[0])
                  then FinishAs(o, now, ids[0], Uncertain(UncertainClosed)) else o;
      CloseEach(next, now, ids[1..])
  }

  // ---- Sealing ----

  function FinishEpoch(o: Owner, now: int, ids: seq<Id>, epoch: EpochState): (r: Owner)
    ensures |r.ledger.queueIds| <= |o.ledger.queueIds|
    decreases |ids|
  {
    if ids == [] then o
    else
      var next := if IsQueued(o.ledger, ids[0])
                     && o.ledger.records[ids[0]].admission.identity.writerFence == epoch.writerFence
                     && o.ledger.records[ids[0]].admission.identity.inputEpoch == epoch.inputEpoch
                  then FinishAs(o, now, ids[0], NotSent(EpochSealed)) else o;
      FinishEpoch(next, now, ids[1..], epoch)
  }

  function SealActiveEpoch(o: Owner, now: int, requireReplacement: bool): (r: Owner)
    ensures |r.ledger.queueIds| <= |o.ledger.queueIds|
  {
    match EpochOf(o.authority)
    case None => o
    case Some(epoch) =>
      var reason := if requireReplacement then ReplacementRequired else TransportReplaced;
      FinishEpoch(o.(authority := Seal(o.authority, reason)), now, o.ledger.queueIds, epoch)
  }

  function SealIdentityEpoch(o: Owner, now: int, identity: Identity, requireReplacement: bool): (r: Owner)
    ensures |r.ledger.queueIds| <= |o.ledger.queueIds|
  {
    if Belongs(o.authority, identity) then SealActiveEpoch(o, now, requireReplacement) else o
  }

  // ---- Deadlines ----

  function ExpirePre(o: Owner, now: int, ids: seq<Id>): Owner
    decreases |ids|
  {
    if ids == [] then o
    else
      var next := if IsPre(o.ledger, ids[0])
                     && now - o.ledger.records[ids[0]].consumedAtMs >= MAX_PRE_ADMISSION_AGE_MS
                  then FinishAs(o, now, ids[0], NotSent(PreAdmissionExpired)) else o;
      ExpirePre(next, now, ids[1..])
  }

  function ExpireQueued(o: Owner, now: int, ids: seq<Id>): Owner
    decreases |ids|
  {
    if ids == [] then o
    else
      var next := if IsQueued(o.ledger, ids[0]) && now >= o.ledger.records[ids[0]].stage.deadlineAtMs
                  then
                    var identity := o.ledger.records[ids[0]].admission.identity;
                    SealIdentityEpoch(FinishAs(o, now, ids[0], NotSent(QueueExpired)), now, identity, true)
                  else o;
      ExpireQueued(next, now, ids[1..])
  }

  function UncertaintyOf(reason: TerminationReason): UncertainReason {
    match reason
    case TerminatedByReplacement => UncertainReplaced
    case TransportUncertain => UncertainTransport
    case AcknowledgementTimeout => TerminationTimeout
  }

  function ExpireSent(o: Owner, now: int, id: Id): Owner {
    if IsSent(o.ledger, id) && now >= o.ledger.records[id].stage.deadlineAtMs then
      // The proof interval starts at the original deadline, however late the timer fired.
      var deadline := o.ledger.records[id].stage.deadlineAtMs;
      var identity := o.ledger.records[id].admission.identity;
      SealIdentityEpoch(
        BeginTerminationOf(o, id, AcknowledgementTimeout, deadline + MAX_TERMINATION_AGE_MS),
        now, identity, true)
    else o
  }

  function ExpireTerminating(o: Owner, now: int, id: Id): Owner {
    if IsTerminating(o.ledger, id) && now >= o.ledger.records[id].stage.deadlineAtMs then
      FinishAs(o, now, id, Uncertain(UncertaintyOf(o.ledger.records[id].stage.terminationReason)))
    else o
  }

  function ExpireActive(o: Owner, now: int, ids: seq<Id>): Owner
    decreases |ids|
  {
    if ids == [] then o
    else ExpireActive(ExpireTerminating(ExpireSent(o, now, ids[0]), now, ids[0]), now, ids[1..])
  }

  function ExpireDeadlines(o: Owner, now: int): Owner {
    var o1 := ExpirePre(o, now, o.ledger.preIds);
    var o2 := ExpireQueued(o1, now, o1.ledger.queueIds);
    ExpireActive(o2, now, o2.ledger.activeOrder)
  }

  // ---- Replacing or losing the transport ----

  function SettleActive(o: Owner, now: int, closed: bool): Owner {
    if closed then CloseEach(o, now, o.ledger.activeOrder) else TerminateEach(o, now, o.ledger.activeOrder)
  }

  function SettleControlTransport(o: Owner, now: int, closed: bool): Owner {
    var reason := if closed then Closed else ControlReplaced;
    var o1 := SettleQueued(SettlePreAdmission(o, now, reason), now, reason);
    var o2 := SealActiveEpoch(SettleActive(o1, now, closed), now, false);
    o2.(replicaCurrent := false, resizeConfirmed := false)
  }

  function DoAttach(o: Owner, now: int, transport: Transport, freshEpoch: string): Owner {
    var previous := TransportOf(o.authority);
    var o1 := if previous.Some? && previous.value != transport
              then SettleControlTransport(o, now, false) else o;
    o1.(authority := Attach(o1.authority, transport, o1.unusedEpoch),
        unusedEpoch := if Accepts(o1.authority, transport) then freshEpoch else o1.unusedEpoch)
  }

  function DoDetach(o: Owner, now: int, closed: bool): Owner {
    var o1 := SettleControlTransport(o, now, closed);
    o1.(authority := Detach(o1.authority))
  }

  function DoRevoke(o: Owner, now: int): Owner {
    var o1 := SettlePreAdmission(o.(authority := Revoke(o.authority)), now, NotWritable);
    var o2 := SettleQueued(o1, now, EpochSealed);
    SealActiveEpoch(TerminateEach(o2, now, o2.ledger.activeOrder), now, false)
  }

  // ---- Consuming and admitting ----

  function AuthorityReason(o: Owner, payload: Payload): Option<NotSentReason> {
    if !o.authority.Open? then Some(NotWritable)
    else if payload.kind != Mouse then None
    else if !o.replicaCurrent then Some(ReplicaNotCurrent)
    else if !o.resizeConfirmed then Some(MouseGate)
    else None
  }

  function NoteResize(o: Owner, dimensions: Dimensions): Owner {
    o.(resizeConfirmed := o.resizeConfirmed && !(o.latestResize.Some? && o.latestResize.value != dimensions),
       latestResize := Some(dimensions))
  }

  predicate Coalescible(previous: Option<Payload>, next: Payload) {
    previous.Some? &&
    ((previous.value.kind == Resize && next.kind == Resize) ||
     (previous.value.kind == Mouse && previous.value.move && next.kind == Mouse && next.move))
  }

  /** A state event takes the place of the waiting one just before it. */
  function Supersede(o: Owner, now: int, payload: Payload): Owner {
    if o.ledger.preIds == [] then o
    else
      var last := o.ledger.preIds[|o.ledger.preIds| - 1];
      if !IsPre(o.ledger, last) then Fault(o)
      else if Coalescible(Some(o.ledger.records[last].normalized), payload)
      then FinishAs(o, now, last, NotSent(Superseded)) else o
  }

  function AdmitOne(o: Owner, now: int, id: Id): Owner {
    if !IsPre(o.ledger, id) then o
    else
      var r := o.ledger.records[id];
      var reason := AuthorityReason(o, r.normalized);
      if now - r.consumedAtMs >= MAX_PRE_ADMISSION_AGE_MS then
        FinishAs(o, now, id, NotSent(PreAdmissionExpired))
      else if reason.Some? then
        FinishAs(o, now, id, NotSent(reason.value))
      else if |o.ledger.activeOrder| >= MAX_PENDING then
        FinishAs(o, now, id, NotSent(Overload))
      else if o.authority.epoch.nextSequence > MAX_U64 then
        FinishAs(o, now, id, NotSent(Validation))
      else if !CanAdmit(o.ledger, r.normalized.frameBytes) then
        FinishAs(o, now, id, NotSent(Overload))
      else if NextIdentity(o.authority) in o.ledger.active then
        Fault(o)
      else
        var identity := NextIdentity(o.authority);
        var admission := Admission(identity, r.normalized, r.normalized.frameBytes, now,
                                   o.authority.transport.generation);
        o.(authority := Allocate(o.authority),
           ledger := Admit(o.ledger, id, admission, now + MAX_QUEUED_AGE_MS),
           identities := o.identities[id := identity])
  }

  function AdmitEach(o: Owner, now: int, ids: seq<Id>): Owner
    decreases |ids|
  {
    if ids == [] then o else AdmitEach(AdmitOne(o, now, ids[0]), now, ids[1..])
  }

  /** Asks for a send decision; the flag says that it is to be made at once. */
  function ScheduleSend(o: Owner): (Owner, bool) {
    if o.sendScheduled || o.drainingQueue then (o, false)
    else (o.(sendScheduled := true), o.inlineSend)
  }

  function AdmitPreAdmission(o: Owner, now: int): (Owner, bool) {
    var o1 := o.(admissionScheduled := false, ledger := TakePreAdmission(o.ledger));
    var o2 := AdmitEach(o1, now, o.ledger.preIds);
    if o2.ledger.queueIds != [] then ScheduleSend(o2) else (o2, false)
  }

  /** The checks before authority is consulted; the first one that fails ends the intent. */
  function Refusal(event: InputEvent): Option<NotSentReason> {
    if !event.wellFormed then Some(Malformed)
    else if !event.schemaValid then Some(Validation)
    else if !event.sizeable then Some(Malformed)
    else if event.bytes > MAX_BYTES then Some(Overload)
    else if !event.allowed then Some(Policy)
    else None
  }

  function NoteEvent(o: Owner, payload: Payload): Owner {
    if payload.kind == Resize then NoteResize(o, payload.dimensions) else o
  }

  /** The part of a consumption that depends on the authority and on what else is waiting. */
  function Offer(o: Owner, now: int, id: Id, event: InputEvent): (Owner, bool) {
    var reason := AuthorityReason(o, event.payload);
    if reason.Some? then (FinishAs(o, now, id, NotSent(reason.value)), false)
    else
      var o3 := Supersede(o, now, event.payload);
      if !CanReservePreAdmission(o3.ledger, event.bytes) then
        (FinishAs(o3, now, id, NotSent(Overload)), false)
      else if !IsConsumed(o3.ledger, id) then (Fault(o3), false)
      else
        var o4 := o3.(ledger := EnqueuePreAdmission(o3.ledger, id, event.payload, event.bytes));
        // A key cannot coalesce: it admits itself, and whatever waits before it, at once.
        if event.payload.kind == Key then AdmitPreAdmission(o4, now)
        else (o4.(admissionScheduled := true), false)
  }

  /** The event has become a consumed record, of the kind that normalization found. */
  function Created(o: Owner, now: int, event: InputEvent): Owner
    requires o.counter + 1 !in o.ledger.records
  {
    var id := o.counter + 1;
    var created := o.(counter := id, ledger := CreateConsumed(o.ledger, id, now));
    if event.wellFormed then created.(ledger := Identify(created.ledger, id, event.payload.kind)) else created
  }

  function Consume(o: Owner, now: int, event: InputEvent): (Owner, bool) {
    var id := o.counter + 1;
    if id in o.ledger.records then (Fault(o), false)
    else
      var created := Created(o, now, event);
      if Refusal(event).Some? then (FinishAs(created, now, id, NotSent(Refusal(event).value)), false)
      else Offer(NoteEvent(created, event.payload), now, id, event)
  }

  // ---- Acknowledgements and proofs ----

  function DoAcknowledge(o: Owner, now: int, identity: Identity, status: AckStatus, eventSeq: nat): Owner {
    var found := GetByIdentity(o.ledger, identity);
    if found.None? || !(IsSent(o.ledger, found.value) || IsTerminating(o.ledger, found.value)) then o
    else match status
      case Unsure =>
        SealIdentityEpoch(FinishAs(o, now, found.value, Uncertain(InputAckUncertain)), now, identity, true)
      case Settled(result) =>
        FinishAs(o, now, found.value, Deterministic(InputAck, result, eventSeq))
  }

  function DoTombstone(o: Owner, now: int, identity: Identity, eventSeq: nat): Owner {
    var found := GetByIdentity(o.ledger, identity);
    if found.None? || !IsTerminating(o.ledger, found.value) then o
    else FinishAs(o, now, found.value, Deterministic(TombstoneProof, Rejected, eventSeq))
  }

  // ---- Turns ----

  /** An operation, short of a send decision that it may ask to be made at once. */
  function Apply(o: Owner, now: int, op: Op): (Owner, bool) {
    match op
    case AttachTransport(transport, freshEpoch) => (DoAttach(o, now, transport, freshEpoch), false)
    case DetachTransport(closed) => (DoDetach(o, now, closed), false)
    case RevokeWriter => (DoRevoke(o, now), false)
    case Send(event) => Consume(o, now, event)
    case SetReplicaCurrent(current) => (o.(replicaCurrent := current), false)
    case Acknowledge(fence, epoch, seqNo, status, eventSeq) =>
      (if fence.None? then o
       else DoAcknowledge(o, now, Identity(fence.value, epoch, seqNo), status, eventSeq), false)
    case ProveTombstone(proof, eventSeq) => (DoTombstone(o, now, proof, eventSeq), false)
    case ConfirmResize(dimensions) =>
      (o.(resizeConfirmed := o.resizeConfirmed || o.latestResize == Some(dimensions)), false)
    case RunAdmission => AdmitPreAdmission(o, now)
    case RunSend => (o.(sendScheduled := false), !o.drainingQueue)
    case Wake => (ExpireDeadlines(o, now), false)
  }

  /** What the sender does to the owner while it is on the stack. A send decision asked for here is
      never made here, because the queue is being drained already. */
  function ApplyAll(o: Owner, now: int, ops: seq<Op>): Owner
    decreases |ops|
  {
    if ops == [] then o else ApplyAll(Apply(o, now, ops[0]).0, now, ops[1..])
  }

  const QUIET_TURN: SenderTurn := SenderTurn([], Accepted, true)

  /** The sender was called for the record; its answer counts only if the record still waits for it. */
  function Decide(o: Owner, now: int, id: Id, decision: Decision): (r: Owner)
    ensures |r.ledger.queueIds| <= |o.ledger.queueIds|
  {
    if !IsSending(o.ledger, id) then o
    else
      var identity := o.ledger.records[id].admission.identity;
      match decision
      case Accepted =>
        o.(ledger := MarkSent(o.ledger, id, now + MAX_SENT_AGE_MS))
      case ProvenNotAccepted =>
        SealIdentityEpoch(FinishAs(o, now, id, NotSent(TransportRejected)), now, identity, true)
      case SendUncertain =>
        SealIdentityEpoch(BeginTerminationOf(o, id, TransportUncertain, now + MAX_TERMINATION_AGE_MS),
                          now, identity, true)
  }

  function Hand(o: Owner, now: int, id: Id, enqueued: bool): Owner
    requires IsQueued(o.ledger, id)
  {
    var admission := o.ledger.records[id].admission;
    o.(ledger := StartSending(o.ledger, id, now),
       handed := o.handed + [Handed(id, admission.identity, admission.payload, enqueued)])
  }

  function DropHead(o: Owner, now: int, reason: NotSentReason, requireReplacement: bool): (r: Owner)
    requires o.ledger.queueIds != [] && IsQueued(o.ledger, o.ledger.queueIds[0])
    ensures |r.ledger.queueIds| < |o.ledger.queueIds|
  {
    var id := o.ledger.queueIds[0];
    SealIdentityEpoch(FinishAs(o, now, id, NotSent(reason)), now,
                      o.ledger.records[id].admission.identity, requireReplacement)
  }

  predicate HeadIsCurrent(o: Owner)
    requires o.ledger.queueIds != [] && IsQueued(o.ledger, o.ledger.queueIds[0])
  {
    var admission := o.ledger.records[o.ledger.queueIds[0]].admission;
    && o.authority.Open?
    && admission.transportGeneration == o.authority.transport.generation
    && admission.identity.writerFence == o.authority.epoch.writerFence
    && admission.identity.inputEpoch == o.authority.epoch.inputEpoch
  }

  function DrainLoop(o: Owner, now: int, turns: seq<SenderTurn>): Owner
    decreases |turns|, |o.ledger.queueIds|
  {
    if o.ledger.queueIds == [] then o
    else
      var id := o.ledger.queueIds[0];
      if !IsQueued(o.ledger, id) then Fault(o)
      else if now >= o.ledger.records[id].stage.deadlineAtMs then
        DrainLoop(DropHead(o, now, QueueExpired, true), now, turns)
      else if !HeadIsCurrent(o) then
        DrainLoop(DropHead(o, now, ControlReplaced, false), now, turns)
      else
        var turn := if turns == [] then QUIET_TURN else turns[0];
        var rest := if turns == [] then [] else turns[1..];
        var asked := ApplyAll(Hand(o, now, id, turn.enqueued), now, turn.ops);
        DrainLoop(Decide(asked, now, id, turn.decision), now, rest)
  }

  function Drain(o: Owner, now: int, turns: seq<SenderTurn>): Owner {
    if o.drainingQueue then o.(sendScheduled := false)
    else DrainLoop(o.(sendScheduled := false, drainingQueue := true), now, turns).(drainingQueue := false)
  }

  function Perform(o: Owner, now: int, op: Op, turns: seq<SenderTurn>): Owner {
    var (applied, decide) := Apply(o, now, op);
    if decide then Drain(applied, now, turns) else applied
  }

  /** The end of an outermost turn: arm the next deadline, then publish every result. */
  function Conclude(o: Owner): Owner {
    o.(deadlineAtMs := EarliestDeadline(o.ledger), published := o.published + o.notifications, notifications := [])
  }

  function Transaction(o: Owner, now: int, op: Op, turns: seq<SenderTurn>): Owner {
    Conclude(Perform(ExpireDeadlines(o, now), now, op, turns))
  }
}
