/** The intent ledger as the source keeps it: fields updated in place. Every method is proved to make of
    its state exactly what IntentLedgers says, so whatever is proved there holds of the object. */
module IntentLedgerState {
  import opened Collections
  import opened InputAuthority
  import L = IntentLedgers

  class IntentLedger {
    var records: map<L.Id, L.Record>
    var activeByIdentity: map<Identity, L.Id>
    var activeOrder: seq<L.Id>      // the insertion order of activeByIdentity
    var terminalOrder: seq<L.Id>
    var preAdmissionIds: seq<L.Id>
    var preAdmissionBytes: int
    var queueIds: seq<L.Id>
    var queueBytes: int

    function State(): L.Ledger
      reads this
    {
      L.Ledger(records, activeByIdentity, activeOrder, terminalOrder, preAdmissionIds, preAdmissionBytes,
               queueIds, queueBytes)
    }

    constructor ()
      ensures State() == L.EMPTY
    {
      records, activeByIdentity, activeOrder, terminalOrder := map[], map[], [], [];
      preAdmissionIds, preAdmissionBytes, queueIds, queueBytes := [], 0, [], 0;
    }

    method CreateConsumed(id: L.Id, consumedAtMs: int)
      requires id !in records
      modifies this`records
      ensures State() == L.CreateConsumed(old(State()), id, consumedAtMs)
    {
      records := records[id := L.Consumed(L.Unknown, consumedAtMs)];
    }

    method Identify(id: L.Id, kind: L.Kind)
      requires L.IsConsumed(State(), id)
      modifies this`records
      ensures State() == L.Identify(old(State()), id, kind)
    {
      records := records[id := L.Consumed(kind, records[id].consumedAtMs)];
    }

    method EnqueuePreAdmission(id: L.Id, normalized: L.Payload, bytes: nat)
      requires L.IsConsumed(State(), id) && L.CanReservePreAdmission(State(), bytes)
      modifies this`records, this`preAdmissionIds, this`preAdmissionBytes
      ensures State() == L.EnqueuePreAdmission(old(State()), id, normalized, bytes)
    {
      records := records[id := L.PreAdmission(records[id].kind, records[id].consumedAtMs, normalized, bytes)];
      preAdmissionIds := preAdmissionIds + [id];
      preAdmissionBytes := preAdmissionBytes + bytes;
    }

    method TakePreAdmission() returns (taken: seq<L.Id>)
      modifies this`preAdmissionIds, this`preAdmissionBytes
      ensures State() == L.TakePreAdmission(old(State())) && taken == old(preAdmissionIds)
    {
      taken := preAdmissionIds;
      preAdmissionIds, preAdmissionBytes := [], 0;
    }

    method Admit(id: L.Id, admission: L.Admission, deadlineAtMs: int)
      requires L.IsPre(State(), id) && L.CanAdmit(State(), admission.encodedBytes)
      requires admission.identity !in activeByIdentity
      modifies this`records, this`queueIds, this`queueBytes, this`activeByIdentity, this`activeOrder
      ensures State() == L.Admit(old(State()), id, admission, deadlineAtMs)
    {
      records := records[id := L.Active(records[id].kind, records[id].consumedAtMs, admission, L.Queued(deadlineAtMs))];
      queueIds := queueIds + [id];
      queueBytes := queueBytes + admission.encodedBytes;
      activeByIdentity := activeByIdentity[admission.identity := id];
      activeOrder := activeOrder + [id];
    }

    method SetStage(id: L.Id, stage: L.Stage)
      requires L.IsActive(State(), id)
      modifies this`records
      ensures State() == L.SetStage(old(State()), id, stage)
    {
      records := records[id := L.Active(records[id].kind, records[id].consumedAtMs, records[id].admission, stage)];
    }

    method RemoveQueued(id: L.Id, bytes: nat)
      modifies this`queueIds, this`queueBytes
      ensures State() == L.RemoveQueued(old(State()), id, bytes)
    {
      var index := IndexOf(queueIds, id);
      if index < 0 { return; }
      RemovedAt(queueIds, index, id);
      queueIds := queueIds[..index] + queueIds[index + 1..];
      queueBytes := queueBytes - bytes;
    }

    method RemovePreAdmission(id: L.Id, bytes: nat)
      modifies this`preAdmissionIds, this`preAdmissionBytes
      ensures State() == L.RemovePreAdmission(old(State()), id, bytes)
    {
      var index := IndexOf(preAdmissionIds, id);
      if index < 0 { return; }
      RemovedAt(preAdmissionIds, index, id);
      preAdmissionIds := preAdmissionIds[..index] + preAdmissionIds[index + 1..];
      preAdmissionBytes := preAdmissionBytes - bytes;
    }

    method StartSending(id: L.Id, sendDecisionAtMs: int)
      requires L.IsQueued(State(), id)
      modifies this`records, this`queueIds, this`queueBytes
      ensures State() == L.StartSending(old(State()), id, sendDecisionAtMs)
    {
      RemoveQueued(id, records[id].admission.encodedBytes);
      SetStage(id, L.Sending(sendDecisionAtMs));
    }

    method MarkSent(id: L.Id, deadlineAtMs: int)
      requires L.IsSending(State(), id)
      modifies this`records
      ensures State() == L.MarkSent(old(State()), id, deadlineAtMs)
    {
      SetStage(id, L.Sent(records[id].stage.sendDecisionAtMs, deadlineAtMs));
    }

    method BeginTermination(id: L.Id, reason: L.TerminationReason, deadlineAtMs: int)
      modifies this`records
      ensures State() == L.BeginTermination(old(State()), id, reason, deadlineAtMs)
    {
      if id !in records || !records[id].Active? { return; }
      if !records[id].stage.Sending? && !records[id].stage.Sent? { return; }
      SetStage(id, L.Terminating(records[id].stage.sendDecisionAtMs, deadlineAtMs, reason));
    }

    method Finish(id: L.Id, result: L.InputResult) returns (finished: bool)
      requires id in records ==> result == L.ResultOf(State(), id, result.terminalAtMs, result.outcome)
      modifies this
      ensures finished == old(L.IsLive(State(), id))
      ensures State() == if finished then L.Finish(old(State()), id, result) else old(State())
    {
      if id !in records || records[id].Terminal? { return false; }
      var record := records[id];
      if record.PreAdmission? { RemovePreAdmission(id, record.preAdmissionBytes); }
      if record.Active? {
        if record.stage.Queued? { RemoveQueued(id, record.admission.encodedBytes); }
        activeByIdentity := activeByIdentity - {record.admission.identity};
        var index := IndexOf(activeOrder, id);
        if index >= 0 {
          RemovedAt(activeOrder, index, id);
          activeOrder := activeOrder[..index] + activeOrder[index + 1..];
        } else {
          WithoutAbsent(activeOrder, id);
        }
      }
      assert State() == L.Deindex(old(State()), id);
      records := records[id := L.Terminal(record.kind, record.consumedAtMs, result)];
      terminalOrder := terminalOrder + [id];
      TrimRetained();
      return true;
    }

    method TrimRetained()
      modifies this`records, this`terminalOrder
      ensures (records, terminalOrder) == L.Evict(old(records), old(terminalOrder))
    {
      while |terminalOrder| > L.MAX_RETAINED_RESULTS
        invariant L.Evict(records, terminalOrder) == L.Evict(old(records), old(terminalOrder))
        decreases |terminalOrder|
      {
        var oldest := terminalOrder[0];
        terminalOrder := terminalOrder[1..];
        if oldest in records && records[oldest].Terminal? { records := records - {oldest}; }
      }
    }

    method EarliestDeadline() returns (earliest: Option<int>)
      requires L.Valid(State(), [])
      ensures earliest == L.EarliestDeadline(State())
      ensures forall id :: id in records && L.DueAt(records[id]).Some? ==>
                earliest.Some? && earliest.value <= L.DueAt(records[id]).value
      ensures earliest.Some? ==> exists id :: id in records && L.DueAt(records[id]) == earliest
    {
      L.EarliestDeadlineIsLeast(State());
      hide L.Valid;
      earliest := Scan(preAdmissionIds, None);
      earliest := Scan(queueIds, earliest);
      earliest := Scan(activeOrder, earliest);
    }

    method Scan(ids: seq<L.Id>, start: Option<int>) returns (earliest: Option<int>)
      ensures earliest == L.EarliestOf(records, ids, start)
    {
      earliest := start;
      for i := 0 to |ids|
        invariant earliest == L.EarliestOf(records, ids[..i], start)
      {
        assert ids[..i + 1][..i] == ids[..i];
        if ids[i] in records { earliest := L.Earlier(earliest, L.DueAt(records[ids[i]])); }
      }
      assert ids[..|ids|] == ids;
    }
  }

  method IndexOf(s: seq<L.Id>, x: L.Id) returns (index: int)
    ensures index == -1 ==> x !in s
    ensures index != -1 ==> 0 <= index < |s| && s[index] == x && x !in s[..index]
    ensures -1 <= index
  {
    for i := 0 to |s|
      invariant x !in s[..i]
    {
      if s[i] == x { return i; }
    }
    assert s[..|s|] == s;
    return -1;
  }

  /** Splicing out the first occurrence removes it. */
  lemma {:induction false} RemovedAt(s: seq<L.Id>, index: nat, x: L.Id)
    requires index < |s| && s[index] == x && x !in s[..index]
    ensures Without(s, x) == s[..index] + s[index + 1..]
    decreases |s|
  {
    if index > 0 {
      assert s[..index][0] == s[0];
      assert s[1..][..index - 1] == s[..index][1..];
      RemovedAt(s[1..], index - 1, x);
      assert s[..index] == [s[0]] + s[1..][..index - 1];
      assert s[1..][index..] == s[index + 1..];
    }
  }
}
