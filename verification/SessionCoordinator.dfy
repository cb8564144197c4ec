/** The delivery coordinator as the source keeps it: one object, updated in place by each event handler and
    by what follows each await. Every method makes of the state what Coordination says; `Handle` keeps the
    invariant of CoordinatorProofs. Replicas, and the restores under way, are part of the state. */
module SessionCoordinators {
  import opened Collections
  import opened DataFrames
  import opened ReplicaCursors
  import C = Coordination
  import P = CoordinatorProofs
  import R = CoordinatorRuns

  class SessionCoordinator {
    const world: C.World
    var state: C.State
    var delivery: Option<C.Delivery>
    var pendingFrames: seq<Frame>
    var pendingBytes: nat
    var liveReplica: Option<C.Handle>
    var activeCursor: Option<Cursor>
    var generationFence: Option<int>
    var restoreAbort: Option<nat>
    var restoreTimer: Option<nat>
    var restoreAttempt: nat
    var aborted: set<nat>
    var tasks: map<nat, C.Task>
    var sinks: map<C.Handle, C.Sink>
    var writes: nat
    ghost var adopted: set<C.Handle>
    ghost var origin: map<C.Handle, nat>
    ghost var stale: bool
    ghost var mismatched: bool

    ghost function State(): C.Coordinator
      reads this
    {
      C.Coordinator(state, delivery, pendingFrames, pendingBytes, liveReplica, activeCursor, generationFence,
                    restoreAbort, restoreTimer, restoreAttempt, aborted, tasks, sinks, writes, adopted, origin, stale,
                    mismatched)
    }

    constructor (world: C.World, live: Option<C.Handle>, engineId: string, cursor: Option<Cursor>,
                 history: seq<Mutation>)
      requires cursor.Some? ==> live.Some? && C.Holds(world, C.Sink(engineId, history, 0), cursor.value)
      ensures this.world == world && State() == C.Initial(live, engineId, cursor, history)
      ensures P.Inv(world, State())
    {
      this.world := world;
      state, delivery, pendingFrames, pendingBytes := C.Idle, None, [], 0;
      liveReplica, activeCursor := live, cursor;
      generationFence := if cursor.Some? then Some(cursor.value.deliveryGeneration) else None;
      restoreAbort, restoreTimer, restoreAttempt, aborted, tasks := None, None, 0, {}, map[];
      sinks := if live.Some? then map[live.value := C.Sink(engineId, history, 0)] else map[];
      writes, origin, stale, mismatched := 0, map[], false, false;
      adopted := if live.Some? then {live.value} else {};
      new;
      assert State() == C.Initial(live, engineId, cursor, history);
      P.BeginsInv(world, State());
    }

    // ---- Ending a delivery ----

    method CancelRestore()
      modifies this`restoreAttempt, this`aborted, this`restoreAbort, this`restoreTimer
      ensures State() == C.CancelRestore(old(State()))
    {
      restoreAttempt := restoreAttempt + 1;
      if restoreAbort.Some? { aborted := aborted + {restoreAbort.value}; }
      restoreAbort, restoreTimer := None, None;
    }

    method DropDelivery()
      modifies this
      ensures State() == C.DropDelivery(old(State()))
    {
      if delivery.Some? && delivery.value.candidate.Some? && delivery.value.candidate != liveReplica {
        sinks := C.Dispose(sinks, delivery.value.candidate.value);
      }
      delivery := None;
    }

    method DiscardPendingDelivery()
      modifies this
      ensures State() == C.DiscardDelivery(old(State()))
    {
      CancelRestore();
      DropDelivery();
    }

    method RequestResync(reason: C.ResyncReason)
      modifies this
      ensures State() == C.RequestResync(old(State()), reason)
    {
      if state.Closed? || state.Resyncing? { return; }
      state := C.Resyncing;
      DiscardPendingDelivery();
      pendingFrames, pendingBytes := [], 0;
    }

    method DiscardPendingFramesBefore(generation: int)
      modifies this`pendingFrames, this`pendingBytes
      ensures pendingFrames == C.NotBefore(old(pendingFrames), generation)
      ensures pendingBytes == C.TotalBytes(pendingFrames)
    {
      var kept: seq<Frame>, total: nat := [], 0;
      for i := 0 to |pendingFrames|
        invariant kept == C.NotBefore(pendingFrames[..i], generation) && total == C.TotalBytes(kept)
      {
        assert pendingFrames[..i + 1][..i] == pendingFrames[..i];
        if pendingFrames[i].deliveryGeneration >= generation {
          assert (kept + [pendingFrames[i]])[..|kept|] == kept;
          kept, total := kept + [pendingFrames[i]], total + C.FrameBytes(pendingFrames[i]);
        }
      }
      assert pendingFrames[..|pendingFrames|] == pendingFrames;
      pendingFrames, pendingBytes := kept, total;
    }

    method AdvanceGenerationFence(generation: int, resumeFromResync: bool)
      modifies this
      ensures State() == C.AdvanceFence(old(State()), generation, resumeFromResync)
    {
      if generationFence.Some? && generation <= generationFence.value { return; }
      generationFence := Some(generation);
      hide C.DiscardDelivery, C.NotBefore, C.TotalBytes;
      if delivery.Some? && delivery.value.received.deliveryGeneration < generation { DiscardPendingDelivery(); }
      DropStaleFrames(generation, resumeFromResync);
    }

    method DropStaleFrames(generation: int, resumeFromResync: bool)
      modifies this
      ensures var c := old(State());
              var kept := C.NotBefore(c.pending, generation);
              State() == c.(pending := kept, pendingBytes := C.TotalBytes(kept),
                            state := if !c.state.Closed? && (!c.state.Resyncing? || resumeFromResync)
                                     then C.AwaitingControl else c.state)
    {
      hide C.NotBefore, C.TotalBytes;
      DiscardPendingFramesBefore(generation);
      if !state.Closed? && (!state.Resyncing? || resumeFromResync) { state := C.AwaitingControl; }
    }

    // ---- Frames ----

    method BufferBudgetExceeded() returns (exceeded: bool)
      ensures exceeded == C.BudgetExceeded(world, State())
    {
      var held, count := 0, 0;
      if delivery.Some? { held, count := delivery.value.bufferedBytes, |delivery.value.buffered|; }
      return pendingBytes + held > world.maxBufferedTailBytes || |pendingFrames| + count > world.maxBufferedTailFrames;
    }

    method BufferPendingFrame(f: Frame)
      modifies this
      ensures State() == C.BufferPending(world, old(State()), f)
    {
      pendingFrames := pendingFrames + [f];
      pendingBytes := pendingBytes + C.FrameBytes(f);
      hide C.RequestResync;
      var exceeded := BufferBudgetExceeded();
      if exceeded { RequestResync(C.SlowClient); }
    }

    method Write(h: C.Handle, m: Mutation) returns (failure: Option<C.Failure>)
      requires h in sinks
      modifies this`sinks, this`writes
      ensures (State(), failure) == C.Write(world, old(State()), h, m)
    {
      failure := world.writeFails(writes);
      var sink := sinks[h];
      if failure.None? || world.writeLands(writes) { sink := sink.(applied := sink.applied + [m]); }
      sinks := sinks[h := sink];
      writes := writes + 1;
    }

    method Adopt(d: C.Delivery)
      requires d.candidate.Some?
      modifies this`liveReplica, this`activeCursor, this`restoreAbort, this`adopted, this`stale
      ensures State() == C.Adopt(old(State()), d)
    {
      liveReplica, activeCursor, restoreAbort := d.candidate, Some(d.applied), None;
      adopted, stale := adopted + {d.candidate.value}, false;
    }

    method TryCommit() returns (failure: Option<C.Failure>)
      requires delivery.Some?
      modifies this
      ensures (State(), failure) == C.TryCommit(world, old(State()))
    {
      hide C.RequestResync, C.Adopt;
      var d := delivery.value;
      if d.candidate.None? || d.commit.None? { return None; }
      if d.applied.lastEventSeq != d.received.lastEventSeq || d.applied.nextPtyOffset != d.received.nextPtyOffset {
        mismatched := true;
        RequestResync(C.JournalGap);
        return None;
      }
      if state.Restoring? {
        failure := world.adoptFails(restoreAttempt);
        if failure.Some? { return; }
        Adopt(d);
      }
      restoreTimer, state := None, C.Live;
      return None;
    }

    method AcceptMutation(f: Frame) returns (failure: Option<C.Failure>)
      requires delivery.Some? && C.CandidateKnown(State())
      modifies this
      ensures (State(), failure) == C.Mutate(world, old(State()), f)
    {
      hide Advance, C.RequestResync, C.BudgetExceeded;
      var d := delivery.value;
      var received := Advance(d.received, f);
      if received.Err? { return Some(C.Protocol(received.error)); }
      delivery := Some(d.(received := received.value));
      if d.candidate.None? {
        delivery := Some(d.(received := received.value, buffered := d.buffered + [f],
                            bufferedBytes := d.bufferedBytes + C.FrameBytes(f)));
        var exceeded := BufferBudgetExceeded();
        if exceeded { RequestResync(C.SlowClient); }
        return None;
      }
      var applyingLiveReplica := d.candidate == liveReplica;
      var applied := Advance(d.applied, f);
      if applied.Err? { return Some(C.Protocol(applied.error)); }
      failure := Write(d.candidate.value, MutationOf(f));
      if failure.None? {
        delivery := Some(d.(received := received.value, applied := applied.value));
        if applyingLiveReplica { activeCursor := Some(applied.value); }
      } else if applyingLiveReplica && failure.value.Other? {
        activeCursor, stale := None, false;
      } else {
        stale := stale || (applyingLiveReplica && activeCursor.Some? && world.writeLands(writes - 1));
      }
    }

    method AcceptFrame(f: Frame) returns (failure: Option<C.Failure>)
      requires C.CandidateKnown(State())
      modifies this
      ensures (State(), failure) == C.AcceptFrame(world, old(State()), f)
    {
      if generationFence.Some? && f.deliveryGeneration < generationFence.value { return None; }
      P.FenceKnows(State(), f.deliveryGeneration);
      hide C.AdvanceFence, C.RequestResync, C.BufferPending, C.Mutate, C.TryCommit, C.AcceptCommit;
      AdvanceGenerationFence(f.deliveryGeneration, false);
      if f.kind == DELIVERY_BARRIER { return Some(C.Protocol(BadKind)); }
      if f.kind == RESET {
        RequestResync(C.SlowClient);
        return None;
      }
      if delivery.None? {
        BufferPendingFrame(f);
        return None;
      }
      if f.deliveryGeneration < delivery.value.received.deliveryGeneration || f.streamId != delivery.value.streamId {
        return None;
      }
      if f.kind == REPLAY_COMMIT {
        var committed := C.AcceptCommit(delivery.value, f);
        if committed.Err? { return Some(C.Protocol(committed.error)); }
        delivery := Some(committed.value);
        failure := TryCommit();
      } else {
        failure := AcceptMutation(f);
      }
    }

    method Accept(f: Frame)
      requires C.CandidateKnown(State())
      modifies this
      ensures State() == C.Accept(world, old(State()), f)
    {
      hide C.AcceptFrame, C.RequestResync;
      var failure := AcceptFrame(f);
      if failure.Some? { RequestResync(C.ReasonOf(failure.value)); }
    }

    method DrainPendingFrames()
      requires delivery.Some? && C.CandidateKnown(State())
      modifies this
      ensures State() == C.DrainPending(world, old(State()))
    {
      var d := delivery.value;
      hide C.Ready, C.Retained, C.TotalBytes, C.AcceptReady;
      var ready, retained, retainedBytes := SplitPending(d.received.deliveryGeneration, d.streamId);
      pendingFrames, pendingBytes := retained, retainedBytes;
      AcceptAll(ready);
    }

    method SplitPending(generation: int, streamId: int)
      returns (ready: seq<Frame>, retained: seq<Frame>, retainedBytes: nat)
      ensures ready == C.Ready(pendingFrames, generation, streamId)
      ensures retained == C.Retained(pendingFrames, generation, streamId)
      ensures retainedBytes == C.TotalBytes(retained)
    {
      ready, retained, retainedBytes := [], [], 0;
      for i := 0 to |pendingFrames|
        invariant ready == C.Ready(pendingFrames[..i], generation, streamId)
        invariant retained == C.Retained(pendingFrames[..i], generation, streamId)
        invariant retainedBytes == C.TotalBytes(retained)
      {
        var f := pendingFrames[i];
        assert pendingFrames[..i + 1][..i] == pendingFrames[..i];
        if f.deliveryGeneration == generation && f.streamId == streamId {
          ready := ready + [f];
        } else if f.deliveryGeneration > generation {
          assert (retained + [f])[..|retained|] == retained;
          retained, retainedBytes := retained + [f], retainedBytes + C.FrameBytes(f);
        }
      }
      assert pendingFrames[..|pendingFrames|] == pendingFrames;
    }

    method AcceptAll(ready: seq<Frame>)
      requires C.CandidateKnown(State())
      modifies this
      ensures State() == C.AcceptReady(world, old(State()), ready)
    {
      hide C.Accept;
      for i := 0 to |ready|
        invariant C.CandidateKnown(State())
        invariant C.AcceptReady(world, State(), ready[i..]) == C.AcceptReady(world, old(State()), ready)
      {
        assert ready[i..][1..] == ready[i + 1..];
        if delivery.None? || state.Resyncing? { return; }
        ghost var before := State();
        AcceptKnows(world, State(), ready[i]);
        Accept(ready[i]);
      }
    }

    // ---- Starting a delivery ----

    method AcceptDeliveryStart(start: C.Start) returns (accepted: bool)
      modifies this
      ensures (State(), accepted) == C.AcceptStart(old(State()), start)
    {
      hide C.RequestResync;
      var generation := C.Generation(start);
      if state.Resyncing? { return false; }
      if generationFence.Some? && generation < generationFence.value { return false; }
      if delivery.Some? {
        var current := C.Generation(delivery.value.start);
        if generation < current { return false; }
        if generation == current {
          if delivery.value.start != start { RequestResync(C.JournalGap); }
          return false;
        }
      }
      return !(activeCursor.Some? && generation < activeCursor.value.deliveryGeneration);
    }

    method Install(start: C.Start, cursor: Cursor, expected: Cursor, candidate: Option<C.Handle>)
      modifies this`delivery
      ensures State() == C.Install(old(State()), start, cursor, expected, candidate)
    {
      delivery := Some(C.Delivery(start, start.streamId, cursor, cursor, [], 0, None, expected, candidate));
    }

    method StartWarmReplay(start: C.Start)
      requires start.Warm? && !state.Closed?
      modifies this
      ensures State() == C.StartWarm(world, old(State()), start)
    {
      hide C.AcceptStart, C.AdvanceFence, C.WarmFrom;
      var accepted := AcceptDeliveryStart(start);
      if !accepted { return; }
      AdvanceGenerationFence(start.cursor.deliveryGeneration, false);
      WarmFrom(start);
    }

    method WarmFrom(start: C.Start)
      requires start.Warm?
      modifies this
      ensures State() == C.WarmFrom(world, old(State()), start)
    {
      hide C.RequestResync, C.DiscardDelivery, C.DrainPending, C.Install;
      if liveReplica.None? || liveReplica.value !in sinks || sinks[liveReplica.value].engineId != world.engineId {
        RequestResync(C.EngineMismatch);
        return;
      }
      if start.expectedCommit.lastEventSeq < start.cursor.lastEventSeq
         || start.expectedCommit.nextPtyOffset < start.cursor.nextPtyOffset
         || activeCursor.None? || !C.SameTerminalState(activeCursor.value, start.cursor) {
        RequestResync(C.JournalGap);
        return;
      }
      DiscardKeepsLive(State());
      DiscardPendingDelivery();
      InstallKnows(State(), start, start.cursor, start.expectedCommit, liveReplica);
      Install(start, start.cursor, start.expectedCommit, liveReplica);
      activeCursor, state := Some(start.cursor), C.Replaying;
      DrainPendingFrames();
    }

    /** The part of a cold start before its first await. */
    method StartSnapshot(start: C.Start)
      requires start.Snapshot? && !state.Closed?
      modifies this
      ensures State() == C.StartSnapshot(world, old(State()), start)
    {
      hide C.AcceptStart, C.AdvanceFence, C.ColdFrom;
      var accepted := AcceptDeliveryStart(start);
      if !accepted { return; }
      AdvanceGenerationFence(start.manifest.cut.deliveryGeneration, false);
      ColdFrom(start);
    }

    method ColdFrom(start: C.Start)
      requires start.Snapshot?
      modifies this
      ensures State() == C.ColdFrom(world, old(State()), start)
    {
      hide C.RequestResync, C.DiscardDelivery, C.DrainPending, C.Install, C.BeginLoad;
      var m := start.manifest;
      if m.engineId != world.engineId {
        RequestResync(C.EngineMismatch);
        return;
      }
      DiscardPendingDelivery();
      restoreAttempt := restoreAttempt + 1;
      var attempt := restoreAttempt;
      if m.commitEventSeq < m.cut.lastEventSeq || m.commitPtyOffset < m.cut.nextPtyOffset {
        RequestResync(C.JournalGap);
        return;
      }
      InstallKnows(State(), start, m.cut, C.ManifestCommit(m), None);
      Install(start, m.cut, C.ManifestCommit(m), None);
      state := C.Restoring;
      DrainPendingFrames();
      BeginLoad(attempt, m);
    }

    method BeginLoad(attempt: nat, m: C.Manifest)
      modifies this
      ensures State() == C.BeginLoad(old(State()), attempt, m)
    {
      if delivery.None? || !state.Restoring? { return; }
      restoreAbort, restoreTimer, tasks := Some(attempt), Some(attempt), tasks[attempt := C.Loading(m)];
    }

    // ---- The restore, after each await ----

    method RestoreFails(attempt: nat, failure: C.Failure)
      modifies this
      ensures State() == C.RestoreFails(old(State()), attempt, failure)
    {
      hide C.RequestResync;
      if attempt != restoreAttempt || attempt in aborted { return; }
      RequestResync(C.RestoreReason(failure));
    }

    method FlushBuffered(frames: seq<Frame>) returns (failure: Option<C.Failure>)
      requires delivery.Some? && delivery.value.candidate.Some? && delivery.value.candidate.value in sinks
      modifies this
      ensures (State(), failure) == C.FlushBuffered(world, old(State()), frames) && delivery.Some?
    {
      hide Advance;
      for i := 0 to |frames|
        invariant delivery.Some? && delivery.value.candidate.Some? && delivery.value.candidate.value in sinks
        invariant C.FlushBuffered(world, State(), frames[i..]) == C.FlushBuffered(world, old(State()), frames)
      {
        assert frames[i..][1..] == frames[i + 1..];
        var d := delivery.value;
        var applied := Advance(d.applied, frames[i]);
        if applied.Err? { return Some(C.Protocol(applied.error)); }
        failure := Write(d.candidate.value, MutationOf(frames[i]));
        if failure.Some? { return; }
        delivery := Some(d.(applied := applied.value));
      }
      assert frames[|frames|..] == [];
      delivery := Some(delivery.value.(buffered := [], bufferedBytes := 0));
      failure := None;
    }

    method TakeCandidate(attempt: nat, h: C.Handle)
      requires delivery.Some? && h in sinks
      modifies this
      ensures State() == C.TakeCandidate(world, old(State()), attempt, h)
    {
      hide C.FlushBuffered, C.TryCommit, C.RestoreFails;
      var buffered := delivery.value.buffered;
      delivery := Some(delivery.value.(candidate := Some(h)));
      var failure := FlushBuffered(buffered);
      if failure.None? { failure := TryCommit(); }
      if failure.Some? { RestoreFails(attempt, failure.value); }
    }

    method LoadEnds(attempt: nat, outcome: Option<C.Failure>)
      requires attempt in tasks
      modifies this
      ensures State() == C.Loaded(old(State()), attempt, outcome)
    {
      hide C.RestoreFails;
      var manifest := tasks[attempt].manifest;
      if outcome.Some? {
        tasks := tasks - {attempt};
        RestoreFails(attempt, outcome.value);
      } else if attempt != restoreAttempt || attempt in aborted {
        tasks := tasks - {attempt};
      } else {
        tasks := tasks[attempt := C.Building(manifest)];
      }
    }

    method RestoreYields(attempt: nat, h: C.Handle, sink: C.Sink)
      modifies this
      ensures State() == C.Restored(world, old(State()), attempt, h, sink)
    {
      hide C.TakeCandidate, C.RequestResync, C.Dispose;
      tasks, sinks, origin := tasks - {attempt}, sinks[h := sink], origin[h := attempt];
      if attempt != restoreAttempt || attempt in aborted {
        sinks := C.Dispose(sinks, h);
        return;
      }
      if sink.engineId != world.engineId {
        sinks := C.Dispose(sinks, h);
        RequestResync(C.EngineMismatch);
        return;
      }
      if delivery.None? {
        sinks := C.Dispose(sinks, h);
        return;
      }
      TakeCandidate(attempt, h);
    }

    method Close()
      modifies this
      ensures State() == if old(state).Closed? then old(State())
                         else C.DiscardDelivery(old(State())).(pending := [], pendingBytes := 0, state := C.Closed)
    {
      hide C.DiscardDelivery;
      if state.Closed? { return; }
      DiscardPendingDelivery();
      pendingFrames, pendingBytes, state := [], 0, C.Closed;
    }

    /** Every event that reaches the coordinator, from the outside or from an await of its own. */
    method Handle(e: C.Event)
      requires P.Inv(world, State()) && C.Enabled(world, State(), e)
      modifies this
      ensures C.CandidateKnown(old(State())) && State() == C.Step(world, old(State()), e)
      ensures P.Inv(world, State())
    {
      hide C.Accept, C.AdvanceFence, C.StartWarm, C.StartSnapshot, C.Loaded, C.RestoreFails, C.Restored,
           C.RequestResync, C.DiscardDelivery, C.Holds, C.Genuine, C.InHistory, P.Inv;
      P.StepKeeps(world, State(), e);
      match e {
        case Data(f) => if !state.Closed? && !state.Resyncing? { Accept(f); }
        case BadData => if !state.Closed? && !state.Resyncing? { RequestResync(C.JournalGap); }
        case FenceGeneration(generation) => AdvanceGenerationFence(generation, true);
        case StartDelivery(start) => if start.Warm? { StartWarmReplay(start); } else { StartSnapshot(start); }
        case LoadEnds(attempt, outcome) => LoadEnds(attempt, outcome);
        case RestoreThrows(attempt, failure) =>
          tasks := tasks - {attempt};
          RestoreFails(attempt, failure);
        case RestoreYields(attempt, h, sink) => RestoreYields(attempt, h, sink);
        case Timeout(attempt) =>
          restoreTimer := None;
          if restoreAttempt == attempt && state.Restoring? { RequestResync(C.SlowClient); }
        case Close => Close();
      }
    }
  }

  lemma DiscardKeepsLive(c: C.Coordinator)
    ensures C.DiscardDelivery(c).live == c.live && c.sinks.Keys <= C.DiscardDelivery(c).sinks.Keys
  {
  }

  lemma InstallKnows(c: C.Coordinator, start: C.Start, cursor: Cursor, expected: Cursor, candidate: Option<C.Handle>)
    requires candidate.Some? ==> candidate.value in c.sinks
    ensures C.CandidateKnown(C.Install(c, start, cursor, expected, candidate))
    ensures C.Install(c, start, cursor, expected, candidate).delivery.Some?
    ensures C.Install(c, start, cursor, expected, candidate).delivery.value.candidate == candidate
    ensures C.Install(c, start, cursor, expected, candidate).sinks == c.sinks
  {
  }

  /** Accepting a frame never brings in a candidate from nowhere. */
  lemma AcceptKnows(w: C.World, c: C.Coordinator, f: Frame)
    requires C.CandidateKnown(c) && c.delivery.Some?
    ensures C.CandidateKnown(C.Accept(w, c, f))
  {
    P.FrameSameDelivery(w, c, f);
    R.AcceptMoves(w, c, f);
    hide C.Accept, R.Calm;
  }
}
