/** The relay's controllers over their shared state: the session row, the clients and the attachments of
    their data sockets, updated in place. Every handler makes of the state what Relays says. */
module RelaySessions {
  import opened Collections
  import opened DataFrames
  import opened ReplicaCursors
  import opened RelayDeliveries
  import R = Relays

  class RelaySession {
    const sessionEpoch: int
    var head: Mark
    var generations: map<int, int>
    var sockets: map<int, R.Socket>
    var hostFailed: bool

    ghost function State(): R.Relay
      reads this
    {
      R.Relay(sessionEpoch, head, generations, sockets, hostFailed)
    }

    constructor (sessionEpoch: int, head: Mark, generations: map<int, int>, ghost history: seq<Mutation>)
      requires 0 <= head.event <= |history| && 0 <= head.pty
      ensures State() == R.Relay(sessionEpoch, head, generations, map[], false)
      ensures R.Begins(State(), history) && R.Inv(State(), history)
    {
      this.sessionEpoch, this.head, this.generations := sessionEpoch, head, generations;
      sockets, hostFailed := map[], false;
    }

    method FailCurrentHost()
      modifies this`hostFailed
      ensures State() == R.Fail(old(State()))
    {
      hostFailed := true;
    }

    method HasPinnedDeliveryInProgress() returns (pinned: bool)
      ensures pinned <==> R.HasPinnedDelivery(State())
    {
      pinned := false;
      var rest := sockets.Keys;
      while rest != {}
        invariant rest <= sockets.Keys
        invariant !pinned
        invariant forall stream :: stream in sockets && stream !in rest ==> !R.PinnedInProgress(sockets[stream])
        decreases |rest|
      {
        Inhabited(rest);
        var stream :| stream in rest;
        if R.PinnedInProgress(sockets[stream]) { return true; }
        rest := rest - {stream};
      }
    }

    /** deliverToBrowser, with whether the socket's send throws. */
    method DeliverToBrowser(stream: int, f: Frame, throws: bool) returns (sequenceError: bool)
      requires stream in sockets && stream in generations
      modifies this`sockets
      ensures sockets == old(sockets)[stream := R.Deliver(old(sockets[stream]), f, generations[stream], stream, throws)]
      ensures sequenceError <==> old(sockets[stream]).open && old(sockets[stream]).generation == generations[stream]
                                 && AdvanceFrame(old(sockets[stream]).cursors, f).SequenceError?
    {
      var s := sockets[stream];
      if !s.open || s.generation != generations[stream] { return false; }
      AdvanceOneIsEach(s.cursors, f);
      hide AdvanceFrame;
      var advanced := AdvanceDeliveryCursorBatch(s.cursors, [f]);
      if advanced.SequenceError? { return true; }
      if advanced.CreditExceeded? || throws { return false; }
      sockets := sockets[stream := s.(cursors := advanced.next,
                                      stream := s.stream + [R.Rewritten(f, generations[stream], stream)])];
      return false;
    }

    method CommitCanonicalFrame(f: Frame) returns (committed: bool)
      modifies this`head
      ensures committed <==> R.Committed(old(head), f).Some?
      ensures head == if committed then R.Committed(old(head), f).value else old(head)
    {
      if f.kind != PTY_OUTPUT && f.kind != RESIZE_APPLIED { return false; }
      if f.eventSeq != head.event + 1 || f.ptyOffset != head.pty
         || (f.kind == RESIZE_APPLIED && |f.payload| != 16)
         || (f.kind == PTY_OUTPUT && f.ptyOffset > U64 - 1 - |f.payload|) {
        return false;
      }
      head := Mark(f.eventSeq, if f.kind == PTY_OUTPUT then f.ptyOffset + |f.payload| else f.ptyOffset);
      return true;
    }

    /** Serves every synced Browser, in whatever order the sockets are listed. */
    method FanOut(f: Frame, throws: set<int>)
      modifies this`sockets
      ensures sockets == R.FanOut(old(State()), f, throws)
    {
      ghost var before := State();
      var rest := sockets.Keys;
      hide R.Deliver, AdvanceFrame;
      while rest != {}
        invariant rest <= before.sockets.Keys && sockets.Keys == before.sockets.Keys
        invariant forall stream :: stream in rest ==> sockets[stream] == before.sockets[stream]
        invariant forall stream :: stream in before.sockets && stream !in rest ==>
                    sockets[stream] == R.FanOut(before, f, throws)[stream]
        decreases |rest|
      {
        Inhabited(rest);
        var stream :| stream in rest;
        if R.IsSynced(sockets[stream]) && stream in generations {
          var _ := DeliverToBrowser(stream, f, stream in throws);
        }
        rest := rest - {stream};
      }
      assert R.FanOut(before, f, throws).Keys == before.sockets.Keys;
      forall stream | stream in sockets ensures sockets[stream] == R.FanOut(before, f, throws)[stream] {
        assert stream !in rest;
      }
      assert sockets == R.FanOut(before, f, throws);
    }

    method HandleCanonical(f: Frame, throws: set<int>)
      modifies this
      ensures State() == R.Canonical(old(State()), f, throws)
    {
      hide R.FanOut, R.Committed, R.HasPinnedDelivery;
      if f.deliveryGeneration != 0 { FailCurrentHost(); return; }
      var pinned := HasPinnedDeliveryInProgress();
      if pinned { FailCurrentHost(); return; }
      var committed := CommitCanonicalFrame(f);
      if !committed { FailCurrentHost(); return; }
      FanOut(f, throws);
      FanOutIgnoresHead(old(State()), State().(sockets := old(sockets)), f, throws);
    }

    method HandleDirected(f: Frame, throws: set<int>)
      modifies this
      ensures State() == R.Directed(old(State()), f, throws)
    {
      hide R.WithinPin, R.Deliver, AdvanceFrame;
      if f.streamId !in generations || f.deliveryGeneration != generations[f.streamId] { return; }
      if f.streamId in sockets && f.kind == RESET { FailCurrentHost(); return; }
      if f.streamId !in sockets || sockets[f.streamId].generation != f.deliveryGeneration
         || R.IsSynced(sockets[f.streamId]) {
        return;
      }
      if !R.WithinPin(sockets[f.streamId], f) { FailCurrentHost(); return; }
      NotAdvancedSame(sockets[f.streamId], f, f.deliveryGeneration, f.streamId, f.streamId in throws);
      ghost var was := sockets;
      var sequenceError := DeliverToBrowser(f.streamId, f, f.streamId in throws);
      if sequenceError {
        assert sockets == was;
        FailCurrentHost();
      }
    }

    method HandleBarrier(f: Frame, around: R.Surroundings)
      modifies this
      ensures State() == R.Barrier(old(State()), f, around)
    {
      if !around.hostCurrent || around.mode.None? { FailCurrentHost(); return; }
      if f.streamId == 0 || f.eventSeq != head.event || f.ptyOffset != head.pty { FailCurrentHost(); return; }
      if f.streamId !in generations || f.deliveryGeneration != generations[f.streamId] { return; }
      if !around.browserCurrent || f.streamId !in sockets { return; }
      if sockets[f.streamId].generation != f.deliveryGeneration { return; }
      var s := sockets[f.streamId];
      if !R.IsCatchingUp(s) || !R.Unadvanced(s.cursors) { FailCurrentHost(); return; }
      var hasNoPin := s.pin.None?;
      var pin := R.Pin(around.mode.value, head);
      if !hasNoPin && s.pin != Some(pin) { FailCurrentHost(); return; }
      var next := s.(pin := Some(pin));
      if around.mode.value.WarmMode? {
        if s.cursors.first.None? { return; }
      } else {
        if around.published.None? { return; }
        var p := around.published.value;
        if !p.matchesSession || !AtMost(p.cut, head) { return; }
        if !hasNoPin && s.cursors.first != Some(p.cut) { FailCurrentHost(); return; }
        next := next.(cursors := s.cursors.(first := Some(p.cut), acked := Some(p.cut), sent := Some(p.cut)));
      }
      if hasNoPin { sockets := sockets[f.streamId := next]; }
    }

    method HandleDataFrame(f: Frame, around: R.Surroundings, throws: set<int>)
      modifies this
      ensures State() == R.HandleDataFrame(old(State()), f, around, throws)
    {
      hide R.Barrier, R.Canonical, R.Directed;
      if hostFailed { return; }
      if f.sessionEpoch != sessionEpoch { FailCurrentHost(); return; }
      if f.kind == DELIVERY_BARRIER {
        HandleBarrier(f, around);
      } else if f.streamId == 0 {
        HandleCanonical(f, throws);
      } else {
        HandleDirected(f, throws);
      }
    }

    /** Whether the batch processor takes the frames on. */
    method TakesBatch(frames: seq<Frame>) returns (taken: bool)
      ensures taken <==> R.TakenAsBatch(State(), frames)
    {
      hide R.HasPinnedDelivery;
      if |frames| < 2 { return false; }
      var pinned := HasPinnedDeliveryInProgress();
      if pinned { return false; }
      for i := 0 to |frames|
        invariant forall k :: 0 <= k < i ==> frames[k].streamId == 0 && R.IsMutation(frames[k])
      {
        if frames[i].streamId != 0 || !R.IsMutation(frames[i]) {
          assert frames[i] in frames;
          return false;
        }
      }
      return true;
    }

    /** The cursor plan of the whole batch. */
    method PlanBatch(frames: seq<Frame>) returns (planned: Option<Mark>)
      ensures planned == R.CommittedEach(State(), head, frames)
    {
      var at := head;
      hide R.Committed;
      for i := 0 to |frames|
        invariant R.CommittedEach(State(), at, frames[i..]) == R.CommittedEach(State(), head, frames)
      {
        var f := frames[i];
        assert frames[i..][0] == f && frames[i..][1..] == frames[i + 1..];
        if f.sessionEpoch != sessionEpoch || f.deliveryGeneration != 0 { return None; }
        var next := R.Committed(at, f);
        if next.None? { return None; }
        at := next.value;
      }
      return Some(at);
    }

    method ServeBatch(stream: int, frames: seq<Frame>, cut: Option<nat>)
      requires stream in sockets && stream in generations && frames != []
      modifies this`sockets
      ensures sockets
              == old(sockets)[stream := R.DeliverEach(old(sockets[stream]), frames, generations[stream], stream, cut)]
    {
      hide AdvanceEach;
      var s := sockets[stream];
      assert sockets[stream := s] == sockets;
      if !s.open || s.generation != generations[stream] { return; }
      var advanced := AdvanceDeliveryCursorBatch(s.cursors, frames);
      if !advanced.Advanced? { return; }
      if cut.Some? && cut.value < |frames| {
        var sent := R.RewrittenEach(frames[..cut.value], generations[stream], stream);
        sockets := sockets[stream := s.(stream := s.stream + sent)];
      } else {
        var sent := R.RewrittenEach(frames, generations[stream], stream);
        sockets := sockets[stream := s.(cursors := advanced.next, stream := s.stream + sent)];
      }
    }

    method FanOutBatch(frames: seq<Frame>, cuts: map<int, nat>)
      requires frames != []
      modifies this`sockets
      ensures sockets == R.FanOutEach(old(State()), frames, cuts)
    {
      ghost var before := State();
      var rest := sockets.Keys;
      hide R.DeliverEach, AdvanceEach, AdvanceFrame, R.FanOutEach;
      FanOutAt(before, frames, cuts);
      while rest != {}
        invariant rest <= before.sockets.Keys && sockets.Keys == before.sockets.Keys
        invariant forall stream :: stream in rest ==> sockets[stream] == before.sockets[stream]
        invariant forall stream :: stream in before.sockets && stream !in rest ==>
                    sockets[stream] == FannedOut(before, frames, cuts, stream)
        decreases |rest|
      {
        Inhabited(rest);
        var stream :| stream in rest;
        if R.IsSynced(sockets[stream]) && stream in generations { ServeBatch(stream, frames, R.CutOf(cuts, stream)); }
        rest := rest - {stream};
      }
      forall stream | stream in sockets ensures sockets[stream] == R.FanOutEach(before, frames, cuts)[stream] {
        assert stream !in rest;
      }
      assert sockets == R.FanOutEach(before, frames, cuts);
    }

    method HandleBatch(frames: seq<Frame>, cuts: map<int, nat>)
      modifies this
      ensures State() == R.Batch(old(State()), frames, cuts)
    {
      hide R.FanOutEach, R.CommittedEach, R.HasPinnedDelivery;
      if hostFailed { return; }
      var taken := TakesBatch(frames);
      if !taken { return; }
      var planned := PlanBatch(frames);
      if planned.None? { FailCurrentHost(); return; }
      head := planned.value;
      FanOutBatch(frames, cuts);
      BatchIgnoresHead(old(State()), State().(sockets := old(sockets)), frames, cuts);
    }

    method Attach(stream: int, baseline: Option<Mark>)
      modifies this`sockets
      ensures State() == R.Attach(old(State()), stream, baseline)
    {
      if stream !in sockets || stream !in generations || sockets[stream].generation != generations[stream] { return; }
      if sockets[stream].cursors.dataState != Some(AwaitingAttach) { return; }
      if baseline.Some? && !AtMost(baseline.value, head) { return; }
      sockets := sockets[stream := sockets[stream].(cursors := Cursors(Some(CatchingUp), baseline, baseline, baseline),
                                                    pin := None)];
    }

    method Acknowledge(stream: int, generation: int, mark: Mark)
      modifies this`sockets
      ensures State() == R.Acknowledge(old(State()), stream, generation, mark)
    {
      if stream !in generations || generation != generations[stream] || !AtMost(mark, head) { return; }
      if stream !in sockets || sockets[stream].generation != generation { return; }
      var s := sockets[stream];
      if s.cursors.sent.None? || !AtMost(mark, s.cursors.sent.value) { return; }
      if s.cursors.acked.Some? && !AtMost(s.cursors.acked.value, mark) { return; }
      if s.cursors.acked == Some(mark) {
        assert s.(cursors := s.cursors.(acked := Some(mark))) == s;
        assert sockets[stream := s] == sockets;
        return;
      }
      sockets := sockets[stream := s.(cursors := s.cursors.(acked := Some(mark)))];
    }

    /** Every event, from the Host or from a Browser; the invariant of Relays is kept. */
    method Handle(e: R.Event, ghost history: seq<Mutation>)
      requires R.Inv(State(), history) && R.Admissible(e, history)
      modifies this
      ensures State() == R.Step(old(State()), e) && R.Inv(State(), history)
    {
      R.StepKeeps(State(), e, history);
      hide R.HandleDataFrame, R.Batch, R.Attach, R.Acknowledge, R.Inv;
      match e {
        case HostFrame(f, around, throws) => HandleDataFrame(f, around, throws);
        case HostBatch(frames, cuts) => HandleBatch(frames, cuts);
        case Connects(stream) =>
          if stream in generations {
            sockets := sockets[stream := R.Socket(generations[stream], true, R.UNATTACHED, None, [])];
          }
        case Attaches(stream, baseline) => Attach(stream, baseline);
        case Acknowledges(stream, generation, mark) => Acknowledge(stream, generation, mark);
        case Resets(stream) =>
          if stream in generations && generations[stream] + 1 < U64 {
            generations, sockets := generations[stream := generations[stream] + 1], sockets - {stream};
          }
        case Closes(stream) => if stream in sockets { sockets := sockets[stream := sockets[stream].(open := false)]; }
      }
    }
  }

  lemma Inhabited(s: set<int>)
    ensures s == {} || exists x :: x in s
  {
    if forall x :: x !in s { assert s == {}; }
  }

  lemma AdvanceOneIsEach(c: Cursors, f: Frame)
    ensures AdvanceEach(c, [f]) == AdvanceFrame(c, f)
  {
    hide AdvanceFrame;
  }

  lemma FanOutIgnoresHead(r: R.Relay, n: R.Relay, f: Frame, throws: set<int>)
    requires n.sockets == r.sockets && n.generations == r.generations
    ensures R.FanOut(n, f, throws) == R.FanOut(r, f, throws)
  {
    hide R.Deliver;
  }

  /** One socket of a batch's fan-out. */
  function FannedOut(r: R.Relay, frames: seq<Frame>, cuts: map<int, nat>, stream: int): R.Socket
    requires stream in r.sockets && frames != []
  {
    var s := r.sockets[stream];
    if R.IsSynced(s) && stream in r.generations
    then R.DeliverEach(s, frames, r.generations[stream], stream, R.CutOf(cuts, stream)) else s
  }

  lemma FanOutAt(r: R.Relay, frames: seq<Frame>, cuts: map<int, nat>)
    requires frames != []
    ensures R.FanOutEach(r, frames, cuts).Keys == r.sockets.Keys
    ensures forall stream :: stream in r.sockets ==>
              R.FanOutEach(r, frames, cuts)[stream] == FannedOut(r, frames, cuts, stream)
  {
    hide R.DeliverEach;
  }

  lemma BatchIgnoresHead(r: R.Relay, n: R.Relay, frames: seq<Frame>, cuts: map<int, nat>)
    requires n.sockets == r.sockets && n.generations == r.generations && frames != []
    ensures R.FanOutEach(n, frames, cuts) == R.FanOutEach(r, frames, cuts)
  {
    hide R.DeliverEach;
  }

  /** A frame that does not advance the cursor leaves the socket as it is. */
  lemma NotAdvancedSame(s: R.Socket, f: Frame, generation: int, stream: int, throws: bool)
    ensures !AdvanceFrame(s.cursors, f).Advanced? ==> R.Deliver(s, f, generation, stream, throws) == s
  {
    hide AdvanceFrame;
  }
}
