/** The Browser's input owner as the source keeps it: one object over an intent ledger, updated in place.
    Every method makes of the state what InputOwner says. `Transaction` is the outermost entry; it keeps
    the invariant of InputRuns, so the internal errors it guards against are unreachable.

    What the sender does while it is on the stack is the script of a `SenderTurn`. */
module InputDispatchers {
  import opened Collections
  import opened InputAuthority
  import opened IntentLedgers
  import O = InputOwner
  import opened IntentLedgerState
  import R = InputRuns

  class InputDispatcher {
    const ledger: IntentLedgerState.IntentLedger
    const inlineSend: bool
    var authority: AuthorityState
    var unusedInitialEpoch: string
    var admissionScheduled: bool
    var drainingQueue: bool
    var sendScheduled: bool
    var deadlineAtMs: Option<int>
    var localIntentCounter: nat
    var latestResize: Option<Dimensions>
    var replicaCurrent: bool
    var resizeConfirmed: bool
    var resultNotifications: seq<InputResult>
    var faulted: bool
    ghost var identities: map<Id, Identity>
    ghost var handed: seq<O.Handed>
    ghost var published: seq<InputResult>

    ghost function State(): O.Owner
      reads this, ledger
    {
      O.Owner(ledger.State(), authority, unusedInitialEpoch, admissionScheduled, drainingQueue, sendScheduled,
              inlineSend, deadlineAtMs, localIntentCounter, latestResize, replicaCurrent, resizeConfirmed,
              resultNotifications, identities, handed, published, faulted)
    }

    constructor (inputEpoch: string, inlineSend: bool)
      ensures State() == O.Initial(inputEpoch, inlineSend) && fresh(ledger)
      ensures forall t: int :: R.Inv(State(), t)
    {
      ledger := new IntentLedgerState.IntentLedger();
      this.inlineSend := inlineSend;
      authority, unusedInitialEpoch := INITIAL, inputEpoch;
      admissionScheduled, drainingQueue, sendScheduled := false, false, false;
      deadlineAtMs, localIntentCounter, latestResize := None, 0, None;
      replicaCurrent, resizeConfirmed, resultNotifications, faulted := false, false, [], false;
      identities, handed, published := map[], [], [];
      new;
      forall t: int ensures R.Inv(State(), t) { R.InitialInv(inputEpoch, inlineSend, t); }
    }

    // ---- Ending an intent ----

    method Finish(now: int, id: Id, outcome: Outcome)
      modifies this, ledger
      ensures State() == O.FinishAs(old(State()), now, id, outcome)
    {
      if id !in ledger.records || ledger.records[id].Terminal? { return; }
      var result := ResultOf(ledger.State(), id, now, outcome);
      var finished := ledger.Finish(id, result);
      if finished { resultNotifications := resultNotifications + [result]; }
    }

    method FinishAll(now: int, ids: seq<Id>, outcome: Outcome)
      modifies this, ledger
      ensures State() == O.FinishEach(old(State()), now, ids, outcome)
    {
      hide O.FinishAs;
      for i := 0 to |ids|
        invariant O.FinishEach(State(), now, ids[i..], outcome) == O.FinishEach(old(State()), now, ids, outcome)
      {
        Finish(now, ids[i], outcome);
        assert ids[i..][1..] == ids[i + 1..];
      }
    }

    method SettlePreAdmission(now: int, reason: NotSentReason)
      modifies this, ledger
      ensures State() == O.SettlePreAdmission(old(State()), now, reason)
    {
      var taken := ledger.TakePreAdmission();
      FinishAll(now, taken, NotSent(reason));
      hide O.FinishEach;
    }

    method SettleQueued(now: int, reason: NotSentReason)
      modifies this, ledger
      ensures State() == O.SettleQueued(old(State()), now, reason)
    {
      FinishAll(now, ledger.queueIds, NotSent(reason));
    }

    method BeginTermination(id: Id, reason: TerminationReason, deadlineAtMs: int)
      modifies ledger
      ensures State() == O.BeginTerminationOf(old(State()), id, reason, deadlineAtMs)
    {
      ledger.BeginTermination(id, reason, deadlineAtMs);
    }

    method TerminateSent(now: int)
      modifies ledger
      ensures State() == O.TerminateEach(old(State()), now, old(State()).ledger.activeOrder)
    {
      var ids := ledger.activeOrder;
      hide O.BeginTerminationOf;
      for i := 0 to |ids|
        invariant O.TerminateEach(State(), now, ids[i..]) == O.TerminateEach(old(State()), now, ids)
      {
        BeginTermination(ids[i], TerminatedByReplacement, now + MAX_TERMINATION_AGE_MS);
        assert ids[i..][1..] == ids[i + 1..];
      }
    }

    method CloseActive(now: int)
      modifies this, ledger
      ensures State() == O.CloseEach(old(State()), now, old(State()).ledger.activeOrder)
    {
      var ids := ledger.activeOrder;
      hide O.FinishAs;
      for i := 0 to |ids|
        invariant O.CloseEach(State(), now, ids[i..]) == O.CloseEach(old(State()), now, ids)
      {
        assert ids[i..][1..] == ids[i + 1..];
        if IsActive(ledger.State(), ids[i]) && !IsQueued(ledger.State(), ids[i]) {
          Finish(now, ids[i], Uncertain(UncertainClosed));
        }
      }
    }

    // ---- Sealing ----

    method SealActiveEpoch(now: int, requireReplacement: bool)
      modifies this, ledger
      ensures State() == O.SealActiveEpoch(old(State()), now, requireReplacement)
    {
      var epoch := EpochOf(authority);
      if epoch.None? { return; }
      authority := Seal(authority, if requireReplacement then ReplacementRequired else TransportReplaced);
      var ids := ledger.queueIds;
      ghost var sealing := State();
      hide O.FinishAs;
      for i := 0 to |ids|
        invariant O.FinishEpoch(State(), now, ids[i..], epoch.value) == O.FinishEpoch(sealing, now, ids, epoch.value)
      {
        assert ids[i..][1..] == ids[i + 1..];
        if IsQueued(ledger.State(), ids[i])
           && ledger.records[ids[i]].admission.identity.writerFence == epoch.value.writerFence
           && ledger.records[ids[i]].admission.identity.inputEpoch == epoch.value.inputEpoch {
          Finish(now, ids[i], NotSent(EpochSealed));
        }
      }
    }

    method SealIdentityEpoch(now: int, identity: Identity, requireReplacement: bool)
      modifies this, ledger
      ensures State() == O.SealIdentityEpoch(old(State()), now, identity, requireReplacement)
    {
      if !Belongs(authority, identity) { return; }
      SealActiveEpoch(now, requireReplacement);
      hide O.SealActiveEpoch;
    }

    // ---- Deadlines ----

    method ExpirePreAdmission(now: int)
      modifies this, ledger
      ensures State() == O.ExpirePre(old(State()), now, old(State()).ledger.preIds)
    {
      var ids := ledger.preAdmissionIds;
      hide O.FinishAs;
      for i := 0 to |ids|
        invariant O.ExpirePre(State(), now, ids[i..]) == O.ExpirePre(old(State()), now, ids)
      {
        assert ids[i..][1..] == ids[i + 1..];
        if IsPre(ledger.State(), ids[i]) && now - ledger.records[ids[i]].consumedAtMs >= MAX_PRE_ADMISSION_AGE_MS {
          Finish(now, ids[i], NotSent(PreAdmissionExpired));
        }
      }
    }

    method ExpireQueued(now: int)
      modifies this, ledger
      ensures State() == O.ExpireQueued(old(State()), now, old(State()).ledger.queueIds)
    {
      var ids := ledger.queueIds;
      hide O.FinishAs, O.SealIdentityEpoch;
      for i := 0 to |ids|
        invariant O.ExpireQueued(State(), now, ids[i..]) == O.ExpireQueued(old(State()), now, ids)
      {
        assert ids[i..][1..] == ids[i + 1..];
        if IsQueued(ledger.State(), ids[i]) && now >= ledger.records[ids[i]].stage.deadlineAtMs {
          var identity := ledger.records[ids[i]].admission.identity;
          Finish(now, ids[i], NotSent(QueueExpired));
          SealIdentityEpoch(now, identity, true);
        }
      }
    }

    method ExpireSent(now: int, id: Id)
      modifies this, ledger
      ensures State() == O.ExpireSent(old(State()), now, id)
    {
      if IsSent(ledger.State(), id) && now >= ledger.records[id].stage.deadlineAtMs {
        var deadline := ledger.records[id].stage.deadlineAtMs;
        var identity := ledger.records[id].admission.identity;
        BeginTermination(id, AcknowledgementTimeout, deadline + MAX_TERMINATION_AGE_MS);
        hide O.BeginTerminationOf, O.SealIdentityEpoch;
        SealIdentityEpoch(now, identity, true);
      }
    }

    method ExpireTerminating(now: int, id: Id)
      modifies this, ledger
      ensures State() == O.ExpireTerminating(old(State()), now, id)
    {
      hide O.FinishAs;
      if IsTerminating(ledger.State(), id) && now >= ledger.records[id].stage.deadlineAtMs {
        Finish(now, id, Uncertain(O.UncertaintyOf(ledger.records[id].stage.terminationReason)));
      }
    }

    method ExpireActive(now: int)
      modifies this, ledger
      ensures State() == O.ExpireActive(old(State()), now, old(State()).ledger.activeOrder)
    {
      var ids := ledger.activeOrder;
      hide O.ExpireSent, O.ExpireTerminating;
      for i := 0 to |ids|
        invariant O.ExpireActive(State(), now, ids[i..]) == O.ExpireActive(old(State()), now, ids)
      {
        assert ids[i..][1..] == ids[i + 1..];
        ExpireSent(now, ids[i]);
        ExpireTerminating(now, ids[i]);
      }
    }

    method ExpireDeadlines(now: int)
      modifies this, ledger
      ensures State() == O.ExpireDeadlines(old(State()), now)
    {
      hide O.ExpirePre, O.ExpireQueued, O.ExpireActive;
      ExpirePreAdmission(now);
      ExpireQueued(now);
      ExpireActive(now);
    }

    // ---- Replacing or losing the transport ----

    method SettleControlTransport(now: int, closed: bool)
      modifies this, ledger
      ensures State() == O.SettleControlTransport(old(State()), now, closed)
    {
      hide O.SettlePreAdmission, O.SettleQueued, O.CloseEach, O.TerminateEach, O.SealActiveEpoch;
      var reason := if closed then Closed else ControlReplaced;
      SettlePreAdmission(now, reason);
      SettleQueued(now, reason);
      if closed { CloseActive(now); } else { TerminateSent(now); }
      SealActiveEpoch(now, false);
      replicaCurrent, resizeConfirmed := false, false;
    }

    method AttachTransport(now: int, transport: Transport, freshEpoch: string) returns (accepted: bool)
      modifies this, ledger
      ensures State() == O.DoAttach(old(State()), now, transport, freshEpoch)
      ensures accepted ==> authority.Open? && authority.transport == transport
    {
      hide O.SettleControlTransport;
      var previous := TransportOf(authority);
      if previous.Some? && previous.value != transport { SettleControlTransport(now, false); }
      accepted := Accepts(authority, transport);
      authority := Attach(authority, transport, unusedInitialEpoch);
      if accepted { unusedInitialEpoch := freshEpoch; }
    }

    method DetachTransport(now: int, closed: bool)
      modifies this, ledger
      ensures State() == O.DoDetach(old(State()), now, closed)
    {
      hide O.SettleControlTransport;
      SettleControlTransport(now, closed);
      authority := Detach(authority);
    }

    method RevokeWriterAuthority(now: int)
      modifies this, ledger
      ensures State() == O.DoRevoke(old(State()), now)
    {
      hide O.SettlePreAdmission, O.SettleQueued, O.TerminateEach, O.SealActiveEpoch;
      authority := Revoke(authority);
      SettlePreAdmission(now, NotWritable);
      SettleQueued(now, EpochSealed);
      TerminateSent(now);
      SealActiveEpoch(now, false);
    }
    // ---- Consuming and admitting ----

    method Supersede(now: int, payload: Payload)
      modifies this, ledger
      ensures State() == O.Supersede(old(State()), now, payload)
    {
      hide O.FinishAs;
      if ledger.preAdmissionIds == [] { return; }
      var last := ledger.preAdmissionIds[|ledger.preAdmissionIds| - 1];
      if !IsPre(ledger.State(), last) {
        faulted := true;
      } else if O.Coalescible(Some(ledger.records[last].normalized), payload) {
        Finish(now, last, NotSent(Superseded));
      }
    }

    method Consume(now: int, event: O.InputEvent) returns (id: Id, decide: bool)
      modifies this, ledger
      ensures (State(), decide) == O.Consume(old(State()), now, event) && id == old(localIntentCounter) + 1
    {
      hide O.FinishAs, O.Offer, O.Created, O.NoteEvent;
      id, decide := localIntentCounter + 1, false;
      if id in ledger.records { faulted := true; return; }
      Create(now, id, event);
      var refusal := O.Refusal(event);
      if refusal.Some? { Finish(now, id, NotSent(refusal.value)); return; }
      NoteEvent(event.payload);
      decide := Offer(now, id, event);
    }

    method Create(now: int, id: Id, event: O.InputEvent)
      requires id == localIntentCounter + 1 && id !in ledger.records
      modifies this, ledger
      ensures State() == O.Created(old(State()), now, event)
    {
      localIntentCounter := id;
      ledger.CreateConsumed(id, now);
      if event.wellFormed { ledger.Identify(id, event.payload.kind); }
    }

    method NoteEvent(payload: Payload)
      modifies this
      ensures State() == O.NoteEvent(old(State()), payload)
    {
      if payload.kind == Resize {
        if latestResize.Some? && latestResize.value != payload.dimensions { resizeConfirmed := false; }
        latestResize := Some(payload.dimensions);
      }
    }

    /** The part of a consumption that depends on the authority and on what else is waiting. */
    method Offer(now: int, id: Id, event: O.InputEvent) returns (decide: bool)
      modifies this, ledger
      ensures (State(), decide) == O.Offer(old(State()), now, id, event)
    {
      hide O.FinishAs, O.Supersede, O.AdmitPreAdmission;
      decide := false;
      var reason := AuthorityReason(event.payload);
      if reason.Some? { Finish(now, id, NotSent(reason.value)); return; }
      Supersede(now, event.payload);
      if !CanReservePreAdmission(ledger.State(), event.bytes) { Finish(now, id, NotSent(Overload)); return; }
      if !IsConsumed(ledger.State(), id) { faulted := true; return; }
      ledger.EnqueuePreAdmission(id, event.payload, event.bytes);
      if event.payload.kind == Key {
        decide := AdmitPreAdmission(now);
      } else {
        admissionScheduled := true;
      }
    }

    method AuthorityReason(payload: Payload) returns (reason: Option<NotSentReason>)
      ensures reason == O.AuthorityReason(State(), payload)
    {
      if !authority.Open? { return Some(NotWritable); }
      if payload.kind != Mouse { return None; }
      if !replicaCurrent { return Some(ReplicaNotCurrent); }
      if !resizeConfirmed { return Some(MouseGate); }
      return None;
    }

    method AdmitPreAdmission(now: int) returns (decide: bool)
      modifies this, ledger
      ensures (State(), decide) == O.AdmitPreAdmission(old(State()), now)
    {
      admissionScheduled := false;
      var ids := ledger.TakePreAdmission();
      ghost var start := State();
      hide O.AdmitOne;
      for i := 0 to |ids|
        invariant O.AdmitEach(State(), now, ids[i..]) == O.AdmitEach(start, now, ids)
      {
        assert ids[i..][1..] == ids[i + 1..];
        AdmitOne(now, ids[i]);
      }
      decide := false;
      if ledger.queueIds != [] { decide := ScheduleSend(); }
    }

    method AdmitOne(now: int, id: Id)
      modifies this, ledger
      ensures State() == O.AdmitOne(old(State()), now, id)
    {
      hide O.FinishAs;
      if !IsPre(ledger.State(), id) { return; }
      var record := ledger.records[id];
      if now - record.consumedAtMs >= MAX_PRE_ADMISSION_AGE_MS {
        Finish(now, id, NotSent(PreAdmissionExpired));
        return;
      }
      var reason := AuthorityReason(record.normalized);
      if reason.Some? { Finish(now, id, NotSent(reason.value)); return; }
      if |ledger.activeOrder| >= MAX_PENDING { Finish(now, id, NotSent(Overload)); return; }
      if authority.epoch.nextSequence > MAX_U64 { Finish(now, id, NotSent(Validation)); return; }
      if !CanAdmit(ledger.State(), record.normalized.frameBytes) { Finish(now, id, NotSent(Overload)); return; }
      var identity := NextIdentity(authority);
      if identity in ledger.activeByIdentity { faulted := true; return; }
      var generation := authority.transport.generation;
      authority := Allocate(authority);
      ledger.Admit(id, Admission(identity, record.normalized, record.normalized.frameBytes, now, generation),
                   now + MAX_QUEUED_AGE_MS);
      identities := identities[id := identity];
    }

    method ScheduleSend() returns (decide: bool)
      modifies this
      ensures (State(), decide) == O.ScheduleSend(old(State()))
    {
      if sendScheduled || drainingQueue { return false; }
      sendScheduled := true;
      return inlineSend;
    }

    // ---- Acknowledgements and proofs ----

    method GetByIdentity(identity: Identity) returns (found: Option<Id>)
      ensures found == IntentLedgers.GetByIdentity(ledger.State(), identity)
    {
      if identity !in ledger.activeByIdentity { return None; }
      var id := ledger.activeByIdentity[identity];
      return if IsActive(ledger.State(), id) then Some(id) else None;
    }

    method AcceptAcknowledgement(now: int, identity: Identity, status: O.AckStatus, eventSeq: nat)
      returns (accepted: bool)
      modifies this, ledger
      ensures State() == O.DoAcknowledge(old(State()), now, identity, status, eventSeq)
      ensures !accepted ==> State() == old(State())
    {
      hide O.FinishAs, O.SealIdentityEpoch;
      var found := GetByIdentity(identity);
      if found.None? || !(IsSent(ledger.State(), found.value) || IsTerminating(ledger.State(), found.value)) {
        return false;
      }
      if status.Unsure? {
        Finish(now, found.value, Uncertain(InputAckUncertain));
        SealIdentityEpoch(now, identity, true);
      } else {
        Finish(now, found.value, Deterministic(InputAck, status.result, eventSeq));
      }
      return true;
    }

    method AcceptTombstoneProof(now: int, identity: Identity, eventSeq: nat) returns (accepted: bool)
      modifies this, ledger
      ensures State() == O.DoTombstone(old(State()), now, identity, eventSeq)
      ensures !accepted ==> State() == old(State())
    {
      hide O.FinishAs;
      var found := GetByIdentity(identity);
      if found.None? || !IsTerminating(ledger.State(), found.value) { return false; }
      Finish(now, found.value, Deterministic(TombstoneProof, Rejected, eventSeq));
      return true;
    }

    // ---- Turns ----

    /** What the Browser hears of its replica and of earlier sends. */
    method Hear(now: int, op: O.Op)
      requires op.SetReplicaCurrent? || op.Acknowledge? || op.ProveTombstone? || op.ConfirmResize?
      modifies this, ledger
      ensures (State(), false) == O.Apply(old(State()), now, op)
    {
      hide O.DoAcknowledge, O.DoTombstone;
      match op {
        case SetReplicaCurrent(current) => replicaCurrent := current;
        case Acknowledge(fence, epoch, seqNo, status, eventSeq) =>
          if fence.Some? {
            var _ := AcceptAcknowledgement(now, Identity(fence.value, epoch, seqNo), status, eventSeq);
          }
        case ProveTombstone(proof, eventSeq) => var _ := AcceptTombstoneProof(now, proof, eventSeq);
        case ConfirmResize(dimensions) => resizeConfirmed := resizeConfirmed || latestResize == Some(dimensions);
      }
    }

    /** What the Browser's user or clock asks for. */
    method Act(now: int, op: O.Op) returns (decide: bool)
      requires !op.SetReplicaCurrent? && !op.Acknowledge? && !op.ProveTombstone? && !op.ConfirmResize?
      modifies this, ledger
      ensures (State(), decide) == O.Apply(old(State()), now, op)
    {
      hide O.DoAttach, O.DoDetach, O.DoRevoke, O.Consume, O.AdmitPreAdmission, O.ExpireDeadlines;
      decide := false;
      match op {
        case AttachTransport(transport, freshEpoch) => var _ := AttachTransport(now, transport, freshEpoch);
        case DetachTransport(closed) => DetachTransport(now, closed);
        case RevokeWriter => RevokeWriterAuthority(now);
        case Send(event) =>
          var id;
          id, decide := Consume(now, event);
        case RunAdmission => decide := AdmitPreAdmission(now);
        case RunSend =>
          sendScheduled := false;
          decide := !drainingQueue;
        case Wake => ExpireDeadlines(now);
      }
    }

    method Apply(now: int, op: O.Op) returns (decide: bool)
      modifies this, ledger
      ensures (State(), decide) == O.Apply(old(State()), now, op)
    {
      if op.SetReplicaCurrent? || op.Acknowledge? || op.ProveTombstone? || op.ConfirmResize? {
        hide O.Apply;
        Hear(now, op);
        return false;
      }
      decide := Act(now, op);
    }

    /** The sender's own calls into the owner. */
    method Reenter(now: int, ops: seq<O.Op>)
      modifies this, ledger
      ensures State() == O.ApplyAll(old(State()), now, ops)
    {
      hide O.Apply;
      for i := 0 to |ops|
        invariant O.ApplyAll(State(), now, ops[i..]) == O.ApplyAll(old(State()), now, ops)
      {
        assert ops[i..][1..] == ops[i + 1..];
        var _ := Apply(now, ops[i]);
      }
    }

    method Answered(now: int, id: Id, decision: O.Decision)
      modifies this, ledger
      ensures State() == O.Decide(old(State()), now, id, decision)
    {
      hide O.FinishAs, O.SealIdentityEpoch, O.BeginTerminationOf;
      if !IsSending(ledger.State(), id) { return; }
      var identity := ledger.records[id].admission.identity;
      match decision {
        case Accepted => ledger.MarkSent(id, now + MAX_SENT_AGE_MS);
        case ProvenNotAccepted =>
          Finish(now, id, NotSent(TransportRejected));
          SealIdentityEpoch(now, identity, true);
        case SendUncertain =>
          BeginTermination(id, TransportUncertain, now + MAX_TERMINATION_AGE_MS);
          SealIdentityEpoch(now, identity, true);
      }
    }

    method DropHead(now: int, reason: NotSentReason, requireReplacement: bool)
      requires ledger.queueIds != [] && IsQueued(ledger.State(), ledger.queueIds[0])
      modifies this, ledger
      ensures State() == O.DropHead(old(State()), now, reason, requireReplacement)
    {
      hide O.FinishAs, O.SealIdentityEpoch;
      var id := ledger.queueIds[0];
      var identity := ledger.records[id].admission.identity;
      Finish(now, id, NotSent(reason));
      SealIdentityEpoch(now, identity, requireReplacement);
    }

    method CallSender(now: int, id: Id, turn: O.SenderTurn)
      requires IsQueued(ledger.State(), id)
      modifies this, ledger
      ensures State() == O.Decide(O.ApplyAll(O.Hand(old(State()), now, id, turn.enqueued), now, turn.ops), now, id,
                                  turn.decision)
    {
      hide O.ApplyAll, O.Decide;
      var admission := ledger.records[id].admission;
      ledger.StartSending(id, now);
      handed := handed + [O.Handed(id, admission.identity, admission.payload, turn.enqueued)];
      Reenter(now, turn.ops);
      Answered(now, id, turn.decision);
    }

    /** What the head of the queue meets: an end, or the sender. */
    method DrainOne(now: int, turn: O.SenderTurn) returns (called: bool)
      requires ledger.queueIds != [] && IsQueued(ledger.State(), ledger.queueIds[0])
      modifies this, ledger
      ensures (State(), called) == DrainedOne(old(State()), now, turn)
    {
      var id := ledger.queueIds[0];
      var admission := ledger.records[id].admission;
      hide O.Hand, O.ApplyAll, O.Decide, O.DropHead;
      if now >= ledger.records[id].stage.deadlineAtMs {
        DropHead(now, QueueExpired, true);
        return false;
      }
      if !authority.Open? || admission.transportGeneration != authority.transport.generation
         || admission.identity.writerFence != authority.epoch.writerFence
         || admission.identity.inputEpoch != authority.epoch.inputEpoch {
        DropHead(now, ControlReplaced, false);
        return false;
      }
      CallSender(now, id, turn);
      return true;
    }

    method DrainQueue(now: int, turns: seq<O.SenderTurn>)
      modifies this, ledger
      ensures State() == O.Drain(old(State()), now, turns)
    {
      hide O.DrainLoop;
      sendScheduled := false;
      if drainingQueue { return; }
      drainingQueue := true;
      DrainAll(now, turns);
      drainingQueue := false;
    }

    method DrainAll(now: int, turns: seq<O.SenderTurn>)
      modifies this, ledger
      ensures State() == O.DrainLoop(old(State()), now, turns)
    {
      var rest := turns;
      hide O.DrainLoop;
      while true
        invariant O.DrainLoop(State(), now, rest) == O.DrainLoop(old(State()), now, turns)
        decreases |rest|, |ledger.queueIds|
      {
        DrainLoopUnfolds(State(), now, rest);
        if ledger.queueIds == [] { return; }
        if !IsQueued(ledger.State(), ledger.queueIds[0]) {
          faulted := true;
          return;
        }
        var called := DrainOne(now, if rest == [] then O.QUIET_TURN else rest[0]);
        if called && rest != [] { rest := rest[1..]; }
      }
    }

    /** Every entry into the owner, from the outside, runs in one of these. */
    method Transaction(ghost t: int, now: int, op: O.Op, turns: seq<O.SenderTurn>)
      requires R.Inv(State(), t) && R.Truthful(turns)
      modifies this, ledger
      ensures State() == O.Transaction(old(State()), now, op, turns)
      ensures R.Inv(State(), now) && R.HistoriesGrow(old(State()), State()) && old(published) <= published
    {
      R.TransactionGood(State(), t, now, op, turns);
      R.PerformedGood(State(), t, now, op, turns);
      hide R.Inv, R.HistoriesGrow, R.Truthful, O.ExpireDeadlines, O.Apply, O.Drain, O.Conclude, Valid;
      ExpireDeadlines(now);
      var decide := Apply(now, op);
      if decide { DrainQueue(now, turns); }
      Conclude();
    }

    method Conclude()
      requires Valid(ledger.State(), [])
      modifies this
      ensures State() == O.Conclude(old(State()))
    {
      hide EarliestDeadline, Valid;
      deadlineAtMs := ledger.EarliestDeadline();
      published := published + resultNotifications;
      resultNotifications := [];
    }
  }

  /** One round of draining, and whether the sender was called in it. */
  function DrainedOne(o: O.Owner, now: int, turn: O.SenderTurn): (r: (O.Owner, bool))
    requires o.ledger.queueIds != [] && IsQueued(o.ledger, o.ledger.queueIds[0])
  {
    var id := o.ledger.queueIds[0];
    if now >= o.ledger.records[id].stage.deadlineAtMs then (O.DropHead(o, now, QueueExpired, true), false)
    else if !O.HeadIsCurrent(o) then (O.DropHead(o, now, ControlReplaced, false), false)
    else (O.Decide(O.ApplyAll(O.Hand(o, now, id, turn.enqueued), now, turn.ops), now, id, turn.decision), true)
  }

  lemma DrainLoopUnfolds(o: O.Owner, now: int, turns: seq<O.SenderTurn>)
    ensures O.DrainLoop(o, now, turns) ==
            if o.ledger.queueIds == [] then o
            else if !IsQueued(o.ledger, o.ledger.queueIds[0]) then O.Fault(o)
            else
              var (next, called) := DrainedOne(o, now, if turns == [] then O.QUIET_TURN else turns[0]);
              O.DrainLoop(next, now, if called && turns != [] then turns[1..] else turns)
    ensures o.ledger.queueIds != [] && IsQueued(o.ledger, o.ledger.queueIds[0]) ==>
              var (next, called) := DrainedOne(o, now, if turns == [] then O.QUIET_TURN else turns[0]);
              (called && turns != []) || |next.ledger.queueIds| < |o.ledger.queueIds|
  {
    hide O.Decide, O.DropHead, O.HeadIsCurrent;
  }
}
