/** What the coordinator's invariant means over whole runs. */
module CoordinatorRuns {
  import opened Collections
  import opened DataFrames
  import opened ReplicaCursors
  import opened Coordination
  import opened CoordinatorProofs

  // ---- What only grows ----

  /** The k-th write throws a protocol error, after it took effect. */
  predicate Overruns(w: World, k: nat) {
    w.writeFails(k).Some? && w.writeFails(k).value.Protocol? && w.writeLands(k)
  }

  /** No write to a replica takes effect and throws a protocol error. */
  ghost predicate Calm(w: World) { forall k: nat :: !Overruns(w, k) }

  /** The fence, the replicas and their ends only move forward, and a calm world never leaves a live
      replica stale. */
  ghost predicate Moves(w: World, c: Coordinator, n: Coordinator) {
    && (c.fence.Some? ==> n.fence.Some? && c.fence.value <= n.fence.value)
    && c.adopted <= n.adopted && c.sinks.Keys <= n.sinks.Keys
    && (forall h :: h in c.sinks ==> c.sinks[h].disposals <= n.sinks[h].disposals)
    && c.writes <= n.writes && c.restoreAttempt <= n.restoreAttempt
    && (Calm(w) && !c.stale ==> !n.stale)
    && Roots(c, n)
  }

  /** A candidate that waits to be adopted came from the attempt that still counts. */
  ghost predicate Rooted(c: Coordinator) {
    && c.origin.Keys <= c.sinks.Keys
    && (c.state.Restoring? && c.delivery.Some? && c.delivery.value.candidate.Some? ==>
          && c.delivery.value.candidate.value in c.origin
          && c.origin[c.delivery.value.candidate.value] == c.restoreAttempt)
  }

  /** Whatever is adopted from here on comes from an attempt that still counts here, or from a later one. */
  ghost predicate AdoptsLater(c: Coordinator, n: Coordinator) {
    && (forall h :: h in c.origin ==> h in n.origin && n.origin[h] == c.origin[h])
    && (forall h :: h in n.adopted && h !in c.adopted ==> h in n.origin && n.origin[h] >= c.restoreAttempt)
  }

  ghost predicate Roots(c: Coordinator, n: Coordinator) {
    && c.restoreAttempt <= n.restoreAttempt && c.sinks.Keys <= n.sinks.Keys
    && (Rooted(c) ==> Rooted(n) && AdoptsLater(c, n))
  }

  lemma RootsOnward(c: Coordinator, m: Coordinator, n: Coordinator)
    requires Roots(c, m) && Roots(m, n)
    ensures Roots(c, n)
  {
  }

  /** Nothing is adopted, and no candidate waits but the one that did. */
  lemma SameRoots(c: Coordinator, n: Coordinator)
    requires n.origin == c.origin && n.adopted == c.adopted
    requires c.restoreAttempt <= n.restoreAttempt && c.sinks.Keys <= n.sinks.Keys
    requires || !n.state.Restoring? || n.delivery.None? || n.delivery.value.candidate.None?
             || (c.state.Restoring? && c.delivery.Some? && c.delivery.value.candidate == n.delivery.value.candidate
                 && n.restoreAttempt == c.restoreAttempt)
    ensures Roots(c, n)
  {
  }

  lemma MovesOnward(w: World, c: Coordinator, m: Coordinator, n: Coordinator)
    requires Moves(w, c, m) && Moves(w, m, n)
    ensures Moves(w, c, n)
  {
    RootsOnward(c, m, n);
    hide Calm, Roots;
  }

  lemma ResyncMoves(w: World, c: Coordinator, reason: ResyncReason)
    ensures Moves(w, c, RequestResync(c, reason)) && Moves(w, c, DiscardDelivery(c)) && Moves(w, c, c)
  {
    hide Calm, Roots, RequestResync, DiscardDelivery;
    DiscardMoves(w, c);
    OnlyResyncMoves(w, c, reason);
    SameRoots(c, c);
  }

  lemma DiscardMoves(w: World, c: Coordinator)
    ensures Moves(w, c, DiscardDelivery(c))
  {
    hide Calm, Roots;
    SameRoots(c, DiscardDelivery(c));
  }

  lemma OnlyResyncMoves(w: World, c: Coordinator, reason: ResyncReason)
    ensures Moves(w, c, RequestResync(c, reason))
  {
    hide Calm, Roots;
    SameRoots(c, RequestResync(c, reason));
  }

  /** A higher fence, other pending frames, or no delivery under way any more: no replica is touched. */
  lemma SettingsMove(w: World, c: Coordinator, n: Coordinator)
    requires n == c.(fence := n.fence, pending := n.pending, pendingBytes := n.pendingBytes, state := n.state)
    requires c.fence.Some? ==> n.fence.Some? && c.fence.value <= n.fence.value
    requires n.state.Restoring? ==> c.state.Restoring?
    ensures Moves(w, c, n)
  {
    hide Roots, Calm;
    SameRoots(c, n);
  }

  lemma FenceMoves(w: World, c: Coordinator, generation: int, resume: bool)
    ensures Moves(w, c, AdvanceFence(c, generation, resume))
  {
    hide Moves, NotBefore, TotalBytes, DiscardDelivery;
    var n := AdvanceFence(c, generation, resume);
    if c.fence.Some? && generation <= c.fence.value {
      SettingsMove(w, c, c);
    } else {
      var c1 := c.(fence := Some(generation));
      SettingsMove(w, c, c1);
      if c1.delivery.Some? && c1.delivery.value.received.deliveryGeneration < generation {
        var c2 := DiscardDelivery(c1);
        DiscardMoves(w, c1);
        SettingsMove(w, c2, n);
        MovesOnward(w, c, c1, c2);
        MovesOnward(w, c, c2, n);
      } else {
        SettingsMove(w, c1, n);
        MovesOnward(w, c, c1, n);
      }
    }
  }

  lemma TryCommitMoves(w: World, c: Coordinator)
    requires c.delivery.Some?
    ensures Moves(w, c, TryCommit(w, c).0)
  {
    hide Calm, RequestResync, Rooted, AdoptsLater, DiscardDelivery;
    var mismatch := c.(mismatched := true);
    ResyncMoves(w, c, JournalGap);
    ResyncMoves(w, mismatch, JournalGap);
    TryCommitRoots(w, c);
    hide Calm, CaughtUp, RequestResync, Roots;
  }

  lemma MismatchRoots(c: Coordinator)
    ensures Roots(c, RequestResync(c.(mismatched := true), JournalGap))
  {
    hide Roots;
    SameRoots(c, RequestResync(c.(mismatched := true), JournalGap));
  }

  /** The one place where a replica is adopted. */
  lemma TryCommitRoots(w: World, c: Coordinator)
    requires c.delivery.Some?
    ensures Roots(c, TryCommit(w, c).0)
  {
    hide CaughtUp, RequestResync;
    MismatchRoots(c);
    SameRoots(c, c);
    if !c.state.Restoring? { SameRoots(c, c.(restoreTimer := None, state := Live)); }
  }

  lemma WriteMoves(w: World, c: Coordinator, h: Handle, m: Mutation)
    requires h in c.sinks
    ensures Moves(w, c, Write(w, c, h, m).0)
  {
    SameRoots(c, Write(w, c, h, m).0);
    hide Calm, Roots;
  }

  /** A mutation is a buffering, a refusal, or one write and what it does to the cursors. */
  lemma MutateCases(w: World, c: Coordinator, f: Frame)
    requires c.delivery.Some? && CandidateKnown(c)
    ensures var d := c.delivery.value;
            var n := Mutate(w, c, f).0;
            || (Redelivered(c, n.delivery) && n == c.(delivery := n.delivery))
            || (exists x: Option<Delivery> :: Redelivered(c, x) && n == RequestResync(c.(delivery := x), SlowClient))
            || (d.candidate.Some? && Redelivered(c, n.delivery)
                && var c2 := Write(w, c, d.candidate.value, MutationOf(f)).0;
                   && n == c2.(delivery := n.delivery, activeCursor := n.activeCursor, stale := n.stale)
                   && (n.stale && !c.stale ==> Overruns(w, c.writes)))
  {
    hide Advance, BudgetExceeded, RequestResync, Mutate;
    var d := c.delivery.value;
    if Advance(d.received, f).Ok? && d.candidate.None? {
      var m := c.(delivery := Some(d.(received := Advance(d.received, f).value, buffered := d.buffered + [f],
                                      bufferedBytes := d.bufferedBytes + FrameBytes(f))));
      MutateBuffers(w, c, f);
      assert Redelivered(c, m.delivery);
    } else {
      MutateWrites(w, c, f);
    }
  }

  /** Another delivery in place of the current one, of the same candidate. */
  predicate Redelivered(c: Coordinator, x: Option<Delivery>) {
    c.delivery.Some? && x.Some? && x.value.candidate == c.delivery.value.candidate
  }

  lemma MutateWrites(w: World, c: Coordinator, f: Frame)
    requires c.delivery.Some? && CandidateKnown(c)
             && (Advance(c.delivery.value.received, f).Err? || c.delivery.value.candidate.Some?)
    ensures var d := c.delivery.value;
            var n := Mutate(w, c, f).0;
            && Redelivered(c, n.delivery)
            && (|| n == c.(delivery := n.delivery)
                || (d.candidate.Some?
                    && var c2 := Write(w, c, d.candidate.value, MutationOf(f)).0;
                       && n == c2.(delivery := n.delivery, activeCursor := n.activeCursor, stale := n.stale)
                       && (n.stale && !c.stale ==> Overruns(w, c.writes))))
  {
    hide Advance;
    var d := c.delivery.value;
    if Advance(d.received, f).Ok? && Advance(d.applied, f).Ok? {
      hide Mutate;
      MutateApplied(w, c, f);
    }
  }

  lemma MutateApplied(w: World, c: Coordinator, f: Frame)
    requires c.delivery.Some? && c.delivery.value.candidate.Some? && CandidateKnown(c)
    requires Advance(c.delivery.value.received, f).Ok? && Advance(c.delivery.value.applied, f).Ok?
    ensures var d := c.delivery.value; var n := Mutate(w, c, f).0;
            var c2 := Write(w, c, d.candidate.value, MutationOf(f)).0;
            && Redelivered(c, n.delivery)
            && n == c2.(delivery := n.delivery, activeCursor := n.activeCursor, stale := n.stale)
            && (n.stale && !c.stale ==> Overruns(w, c.writes))
  {
    hide Advance, Write, RequestResync, BudgetExceeded, Overruns;
    var d := c.delivery.value;
    var x := Some(d.(received := Advance(d.received, f).value));
    WriteCommutes(w, c, d.candidate.value, MutationOf(f), x);
    MutateStale(w, c, f);
  }

  lemma MutateStale(w: World, c: Coordinator, f: Frame)
    requires c.delivery.Some? && c.delivery.value.candidate.Some? && CandidateKnown(c)
    requires Advance(c.delivery.value.received, f).Ok? && Advance(c.delivery.value.applied, f).Ok?
    ensures Mutate(w, c, f).0.stale && !c.stale ==> Overruns(w, c.writes)
  {
    hide Advance, RequestResync, BudgetExceeded;
  }

  /** A write does not look at the delivery. */
  lemma WriteCommutes(w: World, c: Coordinator, h: Handle, m: Mutation, x: Option<Delivery>)
    requires h in c.sinks
    ensures var (n, failure) := Write(w, c, h, m);
            && Write(w, c.(delivery := x), h, m) == (n.(delivery := x), failure)
            && n == c.(sinks := n.sinks, writes := c.writes + 1) && failure == w.writeFails(c.writes)
  {
  }

  lemma MutateMoves(w: World, c: Coordinator, f: Frame)
    requires c.delivery.Some? && CandidateKnown(c)
    ensures Moves(w, c, Mutate(w, c, f).0)
  {
    hide Mutate, Moves, RequestResync, Write, Overruns, Redelivered;
    var n := Mutate(w, c, f).0;
    MutateCases(w, c, f);
    if Redelivered(c, n.delivery) && n == c.(delivery := n.delivery) {
      RedeliveredMoves(w, c, n.delivery);
    } else if x: Option<Delivery> :| Redelivered(c, x) && n == RequestResync(c.(delivery := x), SlowClient) {
      RedeliveredMoves(w, c, x);
    } else {
      WrittenMoves(w, c, c.delivery.value.candidate.value, MutationOf(f), n);
    }
  }

  lemma RedeliveredMoves(w: World, c: Coordinator, x: Option<Delivery>)
    requires Redelivered(c, x)
    ensures var m := c.(delivery := x); Moves(w, c, m) && Moves(w, c, RequestResync(m, SlowClient))
  {
    hide Roots, RequestResync, Calm;
    var m := c.(delivery := x);
    SameRoots(c, m);
    ResyncMoves(w, m, SlowClient);
    MovesOnward(w, c, m, RequestResync(m, SlowClient));
  }

  lemma WrittenMoves(w: World, c: Coordinator, h: Handle, what: Mutation, n: Coordinator)
    requires h in c.sinks && Redelivered(c, n.delivery) && (n.stale && !c.stale ==> Overruns(w, c.writes))
    requires var m := Write(w, c, h, what).0;
             n == m.(delivery := n.delivery, activeCursor := n.activeCursor, stale := n.stale)
    ensures Moves(w, c, n)
  {
    hide Write;
    var m := Write(w, c, h, what).0;
    WriteMoves(w, c, h, what);
    WriteSame(w, c, h, what);
    RewrittenMoves(w, c, m, n);
  }

  lemma RewrittenMoves(w: World, c: Coordinator, m: Coordinator, n: Coordinator)
    requires Moves(w, c, m) && n == m.(delivery := n.delivery, activeCursor := n.activeCursor, stale := n.stale)
    requires n.stale && !c.stale ==> Overruns(w, c.writes)
    requires m.delivery == c.delivery && Redelivered(c, n.delivery)
    ensures Moves(w, c, n)
  {
    SameRoots(m, n);
    RootsOnward(c, m, n);
    hide Roots;
  }

  lemma WriteSame(w: World, c: Coordinator, h: Handle, m: Mutation)
    requires h in c.sinks
    ensures Write(w, c, h, m).0.delivery == c.delivery
  {
  }

  lemma BufferedMoves(w: World, c: Coordinator, f: Frame)
    ensures Moves(w, c, c.(pending := c.pending + [f], pendingBytes := c.pendingBytes + FrameBytes(f)))
  {
    hide Roots, Calm;
    SameRoots(c, c.(pending := c.pending + [f], pendingBytes := c.pendingBytes + FrameBytes(f)));
  }

  lemma FrameMoves(w: World, c: Coordinator, f: Frame)
    requires CandidateKnown(c)
    ensures Moves(w, c, AcceptFrame(w, c, f).0)
  {
    hide Moves, TryCommit, RequestResync, BudgetExceeded, Roots, Calm, AcceptFrame, AdvanceFence;
    var c1 := AdvanceFence(c, f.deliveryGeneration, false);
    var n := AcceptFrame(w, c, f).0;
    var buffered := c1.(pending := c1.pending + [f], pendingBytes := c1.pendingBytes + FrameBytes(f));
    FenceMoves(w, c, f.deliveryGeneration, false);
    ResyncMoves(w, c, SlowClient);
    ResyncMoves(w, c1, SlowClient);
    ResyncMoves(w, buffered, SlowClient);
    BufferedMoves(w, c1, f);
    MovesOnward(w, c1, buffered, RequestResync(buffered, SlowClient));
    if c1.delivery.Some? && CandidateKnown(c1) { MutateMoves(w, c1, f); }
    if c1.delivery.Some? && AcceptCommit(c1.delivery.value, f).Ok? { CommitMoves(w, c1, f); }
    FrameCases(w, c, f);
    if n != c { MovesOnward(w, c, c1, n); }
  }

  lemma CommitMoves(w: World, c: Coordinator, f: Frame)
    requires c.delivery.Some? && AcceptCommit(c.delivery.value, f).Ok?
    ensures Moves(w, c, TryCommit(w, c.(delivery := Some(AcceptCommit(c.delivery.value, f).value))).0)
  {
    var m := c.(delivery := Some(AcceptCommit(c.delivery.value, f).value));
    TryCommitMoves(w, m);
    hide TryCommit;
  }

  lemma AcceptMoves(w: World, c: Coordinator, f: Frame)
    requires CandidateKnown(c)
    ensures Moves(w, c, Accept(w, c, f))
  {
    var (n, failure) := AcceptFrame(w, c, f);
    FrameMoves(w, c, f);
    hide Moves, AcceptFrame, RequestResync;
    if failure.Some? {
      ResyncMoves(w, n, ReasonOf(failure.value));
      MovesOnward(w, c, n, RequestResync(n, ReasonOf(failure.value)));
    }
  }

  lemma {:induction false} ReadyMoves(w: World, c: Coordinator, frames: seq<Frame>)
    ensures Moves(w, c, AcceptReady(w, c, frames))
    decreases |frames|
  {
    hide Moves, Accept;
    ResyncMoves(w, c, JournalGap);
    if frames != [] && c.delivery.Some? && !c.state.Resyncing? && CandidateKnown(c) {
      AcceptMoves(w, c, frames[0]);
      ReadyMoves(w, Accept(w, c, frames[0]), frames[1..]);
      MovesOnward(w, c, Accept(w, c, frames[0]), AcceptReady(w, Accept(w, c, frames[0]), frames[1..]));
    }
  }

  lemma DrainMoves(w: World, c: Coordinator)
    requires c.delivery.Some?
    ensures Moves(w, c, DrainPending(w, c))
  {
    var d := c.delivery.value;
    var retained := Retained(c.pending, d.received.deliveryGeneration, d.streamId);
    ReadyMoves(w, c.(pending := retained, pendingBytes := TotalBytes(retained)),
               Ready(c.pending, d.received.deliveryGeneration, d.streamId));
    hide AcceptReady, Ready, Retained, TotalBytes;
  }

  lemma StartMoves(w: World, c: Coordinator, start: Start)
    ensures Moves(w, c, if start.Warm? then StartWarm(w, c, start) else StartSnapshot(w, c, start))
  {
    var (c1, accepted) := AcceptStart(c, start);
    ResyncMoves(w, c, JournalGap);
    hide RequestResync;
    assert Moves(w, c, c1);
    hide AcceptStart, Moves, Roots;
    var c2 := AdvanceFence(c1, Generation(start), false);
    FenceMoves(w, c1, Generation(start), false);
    MovesOnward(w, c, c1, c2);
    hide AdvanceFence;
    if start.Warm? { WarmMoves(w, c, c2, start); } else { ColdMoves(w, c, c2, start); }
  }

  lemma WarmMoves(w: World, c: Coordinator, c2: Coordinator, start: Start)
    requires start.Warm?
    requires AcceptStart(c, start).1 ==> c2 == AdvanceFence(AcceptStart(c, start).0, Generation(start), false)
    requires Moves(w, c, AcceptStart(c, start).0) && Moves(w, c, c2)
    ensures Moves(w, c, StartWarm(w, c, start))
  {
    var c3 := DiscardDelivery(c2);
    ResyncMoves(w, c2, JournalGap);
    ResyncMoves(w, c2, EngineMismatch);
    hide AcceptStart, AdvanceFence, RequestResync, DiscardDelivery, Moves, DrainPending;
    MovesOnward(w, c, c2, RequestResync(c2, JournalGap));
    MovesOnward(w, c, c2, RequestResync(c2, EngineMismatch));
    MovesOnward(w, c, c2, c3);
    InstalledMoves(w, c3, start, c2.live);
    MovesOnward(w, c, c3, DrainPending(w, WarmDelivery(c3, start, c2.live)));
  }

  lemma ColdMoves(w: World, c: Coordinator, c2: Coordinator, start: Start)
    requires start.Snapshot?
    requires AcceptStart(c, start).1 ==> c2 == AdvanceFence(AcceptStart(c, start).0, Generation(start), false)
    requires Moves(w, c, AcceptStart(c, start).0) && Moves(w, c, c2)
    ensures Moves(w, c, StartSnapshot(w, c, start))
  {
    var c3 := DiscardDelivery(c2);
    ResyncMoves(w, c2, JournalGap);
    ResyncMoves(w, c2, EngineMismatch);
    hide AcceptStart, AdvanceFence, RequestResync, DiscardDelivery, Moves, DrainPending;
    MovesOnward(w, c, c2, RequestResync(c2, EngineMismatch));
    MovesOnward(w, c, c2, c3);
    DiscardNone(c2);
    SnapshotMoves(w, c3, start);
    var n := StartSnapshot(w, c, start);
    if AcceptStart(c, start).1 && start.manifest.engineId == w.engineId { MovesOnward(w, c, c3, n); }
  }

  lemma DiscardNone(c: Coordinator)
    ensures DiscardDelivery(c).delivery.None?
  {
  }

  function WarmDelivery(c: Coordinator, start: Start, live: Option<Handle>): Coordinator
    requires start.Warm?
  {
    Install(c, start, start.cursor, start.expectedCommit, live).(activeCursor := Some(start.cursor), state := Replaying)
  }

  lemma InstalledMoves(w: World, c: Coordinator, start: Start, live: Option<Handle>)
    ensures start.Warm? ==> Moves(w, c, DrainPending(w, WarmDelivery(c, start, live)))
  {
    if start.Warm? {
      DrainMoves(w, WarmDelivery(c, start, live));
      hide DrainPending, Calm, Roots;
      SameRoots(c, WarmDelivery(c, start, live));
      assert Moves(w, c, WarmDelivery(c, start, live));
      MovesOnward(w, c, WarmDelivery(c, start, live), DrainPending(w, WarmDelivery(c, start, live)));
    }
  }

  lemma SnapshotMoves(w: World, c: Coordinator, start: Start)
    requires start.Snapshot? && c.delivery.None?
    ensures var m := start.manifest;
            var attempt := c.restoreAttempt + 1;
            var c4 := c.(restoreAttempt := attempt);
            var c5 := DrainPending(w, Install(c4, start, m.cut, ManifestCommit(m), None).(state := Restoring));
            && Moves(w, c, RequestResync(c4, JournalGap)) && Moves(w, c, c5)
            && Moves(w, c, c5.(restoreAbort := Some(attempt), restoreTimer := Some(attempt),
                               tasks := c5.tasks[attempt := Loading(m)]))
  {
    var m := start.manifest;
    var attempt := c.restoreAttempt + 1;
    var c4 := c.(restoreAttempt := attempt);
    var c4' := Install(c4, start, m.cut, ManifestCommit(m), None).(state := Restoring);
    hide Calm, Roots, DrainPending, RequestResync;
    SameRoots(c, c4);
    assert Moves(w, c, c4);
    SameRoots(c, c4');
    assert Moves(w, c, c4');
    ResyncMoves(w, c4, JournalGap);
    DrainMoves(w, c4');
    var c5 := DrainPending(w, c4');
    var loading := c5.(restoreAbort := Some(attempt), restoreTimer := Some(attempt),
                       tasks := c5.tasks[attempt := Loading(m)]);
    SameRoots(c5, loading);
    assert Moves(w, c5, loading);
    hide Moves;
    MovesOnward(w, c, c4, RequestResync(c4, JournalGap));
    MovesOnward(w, c, c4', c5);
    MovesOnward(w, c, c5, loading);
  }

  lemma {:induction false} FlushMoves(w: World, c: Coordinator, frames: seq<Frame>)
    requires c.delivery.Some? && c.delivery.value.candidate.Some? && c.delivery.value.candidate.value in c.sinks
    ensures Moves(w, c, FlushBuffered(w, c, frames).0)
    decreases |frames|
  {
    var d := c.delivery.value;
    hide Calm;
    if frames != [] && Advance(d.applied, frames[0]).Ok? {
      var (c1, failure) := Write(w, c, d.candidate.value, MutationOf(frames[0]));
      WriteMoves(w, c, d.candidate.value, MutationOf(frames[0]));
      if failure.None? {
        var c2 := c1.(delivery := Some(d.(applied := Advance(d.applied, frames[0]).value)));
        hide Roots, Advance;
        WriteSame(w, c, d.candidate.value, MutationOf(frames[0]));
        hide Write;
        SameRoots(c1, c2);
        assert Moves(w, c1, c2);
        MovesOnward(w, c, c1, c2);
        hide Moves;
        FlushMoves(w, c2, frames[1..]);
        MovesOnward(w, c, c2, FlushBuffered(w, c2, frames[1..]).0);
      }
    }
  }

  lemma TakeMoves(w: World, c: Coordinator, attempt: nat, h: Handle)
    requires c.delivery.Some? && h in c.sinks && h in c.origin && c.origin[h] == c.restoreAttempt
    ensures Moves(w, c, TakeCandidate(w, c, attempt, h))
  {
    var m := c.(delivery := Some(c.delivery.value.(candidate := Some(h))));
    hide Calm, FlushBuffered, TryCommit, RequestResync;
    assert Moves(w, c, m);
    hide Roots;
    FlushMoves(w, m, c.delivery.value.buffered);
    var (c1, failure) := FlushBuffered(w, m, c.delivery.value.buffered);
    MovesOnward(w, c, m, c1);
    if failure.Some? {
      ResyncMoves(w, c1, RestoreReason(failure.value));
      MovesOnward(w, c, c1, RequestResync(c1, RestoreReason(failure.value)));
    } else {
      TryCommitMoves(w, c1);
      var (c2, refused) := TryCommit(w, c1);
      MovesOnward(w, c, c1, c2);
      if refused.Some? {
        ResyncMoves(w, c2, RestoreReason(refused.value));
        MovesOnward(w, c, c2, RequestResync(c2, RestoreReason(refused.value)));
      }
    }
  }

  lemma RestoredMoves(w: World, c: Coordinator, attempt: nat, h: Handle, sink: Sink)
    requires h !in c.sinks
    ensures Moves(w, c, Restored(w, c, attempt, h, sink))
  {
    hide Calm, TakeCandidate, RequestResync;
    var c1 := c.(tasks := c.tasks - {attempt}, sinks := c.sinks[h := sink], origin := c.origin[h := attempt]);
    var unwanted := c1.(sinks := Dispose(c1.sinks, h));
    ArrivesMoves(w, c, c1, attempt, h);
    ArrivesMoves(w, c, unwanted, attempt, h);
    hide Moves;
    ResyncMoves(w, unwanted, EngineMismatch);
    MovesOnward(w, c, unwanted, RequestResync(unwanted, EngineMismatch));
    if c1.delivery.Some? && !Superseded(c1, attempt) {
      TakeMoves(w, c1, attempt, h);
      MovesOnward(w, c, c1, TakeCandidate(w, c1, attempt, h));
    }
  }

  /** A replica arrives, and its origin with it. */
  lemma ArrivesMoves(w: World, c: Coordinator, n: Coordinator, attempt: nat, h: Handle)
    requires h !in c.sinks && h in n.sinks && n.sinks == c.sinks[h := n.sinks[h]]
    requires n == c.(tasks := n.tasks, sinks := n.sinks, origin := c.origin[h := attempt])
    ensures Moves(w, c, n)
  {
    hide Calm;
  }

  lemma SettledMoves(w: World, c: Coordinator, attempt: nat, failure: Failure)
    ensures Moves(w, c, RestoreFails(c.(tasks := c.tasks - {attempt}), attempt, failure))
  {
    var c1 := c.(tasks := c.tasks - {attempt});
    hide Calm, RequestResync, Roots;
    SameRoots(c, c1);
    assert Moves(w, c, c1);
    ResyncMoves(w, c1, RestoreReason(failure));
    MovesOnward(w, c, c1, RequestResync(c1, RestoreReason(failure)));
  }

  lemma StepMoves(w: World, c: Coordinator, e: Event)
    requires Enabled(w, c, e) && CandidateKnown(c)
    ensures Moves(w, c, Step(w, c, e))
  {
    hide Moves, Accept, AdvanceFence, StartWarm, StartSnapshot, RestoreFails, Restored, RequestResync, DiscardDelivery,
         Enabled;
    ResyncMoves(w, c, JournalGap);
    match e
    case Data(f) => AcceptMoves(w, c, f);
    case BadData =>
    case FenceGeneration(generation) => FenceMoves(w, c, generation, true);
    case StartDelivery(start) => StartMoves(w, c, start);
    case LoadEnds(attempt, outcome) =>
      LoadsTask(w, c, attempt, outcome);
      LoadedMoves(w, c, attempt, outcome);
    case RestoreThrows(attempt, failure) => SettledMoves(w, c, attempt, failure);
    case RestoreYields(attempt, h, sink) =>
      YieldsAnew(w, c, attempt, h, sink);
      RestoredMoves(w, c, attempt, h, sink);
    case Timeout(attempt) => TimedOutMoves(w, c);
    case Close => CloseMoves(w, c);
  }

  lemma YieldsAnew(w: World, c: Coordinator, attempt: nat, h: Handle, sink: Sink)
    requires Enabled(w, c, RestoreYields(attempt, h, sink))
    ensures h !in c.sinks
  {
  }

  lemma LoadsTask(w: World, c: Coordinator, attempt: nat, outcome: Option<Failure>)
    requires Enabled(w, c, LoadEnds(attempt, outcome))
    ensures attempt in c.tasks
  {
  }

  lemma LoadedMoves(w: World, c: Coordinator, attempt: nat, outcome: Option<Failure>)
    requires attempt in c.tasks
    ensures Moves(w, c, Loaded(c, attempt, outcome))
  {
    hide Calm, Roots, RestoreFails;
    if outcome.Some? {
      SettledMoves(w, c, attempt, outcome.value);
    } else {
      SameRoots(c, Loaded(c, attempt, outcome));
    }
  }

  lemma TimedOutMoves(w: World, c: Coordinator)
    ensures Moves(w, c, c.(restoreTimer := None)) && Moves(w, c, RequestResync(c.(restoreTimer := None), SlowClient))
  {
    hide Calm, Roots, RequestResync;
    var m := c.(restoreTimer := None);
    SameRoots(c, m);
    ResyncMoves(w, m, SlowClient);
    assert Moves(w, c, m);
    hide Moves;
    MovesOnward(w, c, m, RequestResync(m, SlowClient));
  }

  lemma CloseMoves(w: World, c: Coordinator)
    ensures Moves(w, c, DiscardDelivery(c).(pending := [], pendingBytes := 0, state := Closed))
  {
    hide Calm, Roots, DiscardDelivery;
    var d := DiscardDelivery(c);
    var n := d.(pending := [], pendingBytes := 0, state := Closed);
    ResyncMoves(w, c, JournalGap);
    SameRoots(d, n);
    assert Moves(w, d, n);
    hide Moves;
    MovesOnward(w, c, d, n);
  }

  lemma NextMoves(w: World, c: Coordinator, e: Event)
    ensures Moves(w, c, Next(w, c, e))
  {
    ResyncMoves(w, c, JournalGap);
    hide Moves, Step, Enabled;
    if Enabled(w, c, e) && CandidateKnown(c) { StepMoves(w, c, e); }
  }

  lemma {:induction false} RunMoves(w: World, c: Coordinator, events: seq<Event>)
    ensures Moves(w, c, Run(w, c, events))
    decreases |events|
  {
    hide Moves, Next;
    ResyncMoves(w, c, JournalGap);
    if events != [] {
      var before := Run(w, c, events[..|events| - 1]);
      RunMoves(w, c, events[..|events| - 1]);
      NextMoves(w, before, events[|events| - 1]);
      MovesOnward(w, c, before, Run(w, c, events));
    }
  }

  // ---- The live replica while a restore is under way ----

  /** The live replica is the same one, and nothing was written to it. */
  ghost predicate LiveSame(c: Coordinator, n: Coordinator) {
    n.live == c.live && (c.live.Some? && c.live.value in c.sinks ==>
                           c.live.value in n.sinks && n.sinks[c.live.value] == c.sinks[c.live.value])
  }

  /** Or another one took its place. */
  ghost predicate LiveKept(c: Coordinator, n: Coordinator) {
    n.live != c.live ==> n.state.Live? && n.live.Some? && n.live.value in n.adopted
  }

  lemma ResyncLive(c: Coordinator, reason: ResyncReason)
    ensures LiveSame(c, RequestResync(c, reason)) && LiveSame(c, DiscardDelivery(c))
  {
  }

  lemma FenceLive(c: Coordinator, generation: int, resume: bool)
    ensures LiveSame(c, AdvanceFence(c, generation, resume))
  {
    hide NotBefore;
  }

  lemma TryCommitLive(w: World, c: Coordinator)
    requires c.delivery.Some?
    ensures var n := TryCommit(w, c).0;
            LiveSame(c, n) || (n.live != c.live && n.state.Live? && n.live.Some? && n.live.value in n.adopted)
  {
    ResyncLive(c.(mismatched := true), JournalGap);
    hide RequestResync, CaughtUp;
  }

  /** Apart from the live replica: the delivery writes to nothing, or to its own candidate. */
  predicate Detached(c: Coordinator) {
    CandidateKnown(c) && (c.delivery.Some? ==> c.delivery.value.candidate.None? || c.delivery.value.candidate != c.live)
  }

  lemma DetachedKnown(c: Coordinator)
    requires Detached(c)
    ensures CandidateKnown(c)
  {
  }

  lemma WriteApart(w: World, c: Coordinator, m: Mutation)
    requires c.delivery.Some? && Detached(c)
    ensures CandidateKnown(c)
    ensures c.delivery.value.candidate.Some? ==> LiveSame(c, Write(w, c, c.delivery.value.candidate.value, m).0)
  {
  }

  lemma MutateLive(w: World, c: Coordinator, f: Frame)
    requires c.delivery.Some? && Detached(c)
    ensures LiveSame(c, Mutate(w, c, f).0)
  {
    hide Mutate, RequestResync, Detached;
    DetachedKnown(c);
    var n := Mutate(w, c, f).0;
    MutateCases(w, c, f);
    WriteApart(w, c, MutationOf(f));
    if exists x: Option<Delivery> :: Redelivered(c, x) && n == RequestResync(c.(delivery := x), SlowClient) {
      var x: Option<Delivery> :| Redelivered(c, x) && n == RequestResync(c.(delivery := x), SlowClient);
      ResyncLive(c.(delivery := x), SlowClient);
    }
  }

  /** What a step does to the live replica: nothing, unless it is replaced. */
  ghost predicate Replaces(c: Coordinator, n: Coordinator) {
    LiveSame(c, n) || (n.live != c.live && LiveKept(c, n))
  }

  lemma FrameLive(w: World, c: Coordinator, f: Frame)
    requires Detached(c)
    ensures var (n, failure) := AcceptFrame(w, c, f);
            Replaces(c, n) && (failure.Some? ==> LiveSame(c, n))
  {
    hide AcceptFrame, TryCommit, Mutate, RequestResync, AdvanceFence, AcceptCommit;
    var c1 := AdvanceFence(c, f.deliveryGeneration, false);
    var (n, failure) := AcceptFrame(w, c, f);
    var buffered := c1.(pending := c1.pending + [f], pendingBytes := c1.pendingBytes + FrameBytes(f));
    FrameCases(w, c, f);
    FenceLive(c, f.deliveryGeneration, false);
    FenceDetached(c, f.deliveryGeneration);
    ResyncLive(c1, SlowClient);
    ResyncLive(buffered, SlowClient);
    if c1.delivery.Some? { MutateLive(w, c1, f); }
    if c1.delivery.Some? && AcceptCommit(c1.delivery.value, f).Ok? {
      TryCommitLive(w, c1.(delivery := Some(AcceptCommit(c1.delivery.value, f).value)));
    }
    if failure.Some? { FailureLive(w, c, f); }
    hide AcceptFrame, AdvanceFence, Mutate, TryCommit, RequestResync;
  }

  /** A throw leaves what live replica there was. */
  lemma FailureLive(w: World, c: Coordinator, f: Frame)
    requires CandidateKnown(c) && AcceptFrame(w, c, f).1.Some?
    ensures AcceptFrame(w, c, f).0.live == c.live
  {
    FenceLive(c, f.deliveryGeneration, false);
    hide NotBefore, Dispose, BudgetExceeded, CaughtUp, Advance, AdvanceFence;
  }

  lemma FenceDetached(c: Coordinator, generation: int)
    requires Detached(c)
    ensures Detached(AdvanceFence(c, generation, false))
  {
    hide NotBefore;
  }

  lemma AcceptLive(w: World, c: Coordinator, f: Frame)
    requires Detached(c)
    ensures Replaces(c, Accept(w, c, f))
  {
    FrameLive(w, c, f);
    var (n, failure) := AcceptFrame(w, c, f);
    hide AcceptFrame;
    if failure.Some? {
      ResyncLive(n, ReasonOf(failure.value));
    }
  }

  lemma {:induction false} FlushLive(w: World, c: Coordinator, frames: seq<Frame>)
    requires c.delivery.Some? && c.delivery.value.candidate.Some? && Detached(c)
    ensures LiveSame(c, FlushBuffered(w, c, frames).0)
    decreases |frames|
  {
    hide Advance;
    if frames != [] && Advance(c.delivery.value.applied, frames[0]).Ok? {
      var d := c.delivery.value;
      var (c1, failure) := Write(w, c, d.candidate.value, MutationOf(frames[0]));
      if failure.None? {
        FlushLive(w, c1.(delivery := Some(d.(applied := Advance(d.applied, frames[0]).value))), frames[1..]);
      }
    }
  }

  lemma TakeLive(w: World, c: Coordinator, attempt: nat, h: Handle)
    requires c.delivery.Some? && h in c.sinks && c.live != Some(h)
    ensures Replaces(c, TakeCandidate(w, c, attempt, h))
  {
    var m := c.(delivery := Some(c.delivery.value.(candidate := Some(h))));
    FlushLive(w, m, c.delivery.value.buffered);
    var (c1, failure) := FlushBuffered(w, m, c.delivery.value.buffered);
    hide FlushBuffered;
    if failure.Some? {
      ResyncLive(c1, RestoreReason(failure.value));
    } else {
      TryCommitLive(w, c1);
      var (c2, refused) := TryCommit(w, c1);
      if refused.Some? {
        RefusedSame(w, c1);
        ResyncLive(c2, RestoreReason(refused.value));
      }
      hide TryCommit;
    }
    hide RequestResync;
  }

  lemma NothingToDrain(w: World, c: Coordinator)
    requires c.delivery.Some? && c.pending == [] && c.pendingBytes == 0
    ensures DrainPending(w, c) == c
  {
  }

  /** A start that is accepted while a restore is under way has a newer generation, so nothing is pending. */
  lemma StartLive(w: World, c: Coordinator, start: Start)
    requires Inv(w, c) && c.state.Restoring?
    ensures LiveSame(c, if start.Warm? then StartWarm(w, c, start) else StartSnapshot(w, c, start))
  {
    var (c1, accepted) := AcceptStart(c, start);
    ResyncLive(c, JournalGap);
    if accepted {
      var c2 := AdvanceFence(c1, Generation(start), false);
      FenceLive(c, Generation(start), false);
      NewerEmpties(w, c, start);
      hide Inv, AcceptStart, AdvanceFence;
      if start.Warm? { WarmLive(w, c, c2, start); } else { ColdLive(w, c, c2, start); }
    } else {
      hide Inv, RequestResync;
    }
  }

  lemma WarmLive(w: World, c: Coordinator, c2: Coordinator, start: Start)
    requires start.Warm? && AcceptStart(c, start) == (c, true) && c2 == AdvanceFence(c, Generation(start), false)
    requires LiveSame(c, c2) && c2.pending == [] && c2.pendingBytes == 0
    ensures LiveSame(c, StartWarm(w, c, start))
  {
    ResyncLive(c2, JournalGap);
    ResyncLive(c2, EngineMismatch);
    DiscardPending(c2);
    hide AcceptStart, AdvanceFence, RequestResync, DiscardDelivery, DrainPending;
    NothingToDrain(w, WarmDelivery(DiscardDelivery(c2), start, c2.live));
  }

  lemma ColdLive(w: World, c: Coordinator, c2: Coordinator, start: Start)
    requires start.Snapshot? && AcceptStart(c, start) == (c, true) && c2 == AdvanceFence(c, Generation(start), false)
    requires LiveSame(c, c2) && c2.pending == [] && c2.pendingBytes == 0
    ensures LiveSame(c, StartSnapshot(w, c, start))
  {
    hide AcceptStart, AdvanceFence, RequestResync, DiscardDelivery, DrainPending, LiveSame, StartSnapshot;
    ResyncLive(c2, EngineMismatch);
    DiscardPending(c2);
    var c3 := DiscardDelivery(c2);
    var c4 := c3.(restoreAttempt := c3.restoreAttempt + 1);
    var c5 := Install(c4, start, start.manifest.cut, ManifestCommit(start.manifest), None).(state := Restoring);
    ResyncLive(c4, JournalGap);
    NothingToDrain(w, c5);
    SameLive(c2, c3, c4);
    ColdCases(w, c, c2, start);
    ColdSame(c, c2, c4, c5, StartSnapshot(w, c, start));
  }

  /** Where the first part of a cold start can lead, with nothing pending. */
  lemma SameLive(c: Coordinator, m: Coordinator, n: Coordinator)
    requires LiveSame(c, m) && n.live == m.live && n.sinks == m.sinks
    ensures LiveSame(c, n)
  {
  }

  lemma ColdCases(w: World, c: Coordinator, c2: Coordinator, start: Start)
    requires start.Snapshot? && AcceptStart(c, start) == (c, true) && c2 == AdvanceFence(c, Generation(start), false)
    ensures var c4 := DiscardDelivery(c2).(restoreAttempt := DiscardDelivery(c2).restoreAttempt + 1);
            var c5 := Install(c4, start, start.manifest.cut, ManifestCommit(start.manifest), None).(state := Restoring);
            var drained := DrainPending(w, c5);
            var n := StartSnapshot(w, c, start);
            || n == RequestResync(c2, EngineMismatch) || n == RequestResync(c4, JournalGap)
            || n == drained.(restoreAbort := n.restoreAbort, restoreTimer := n.restoreTimer, tasks := n.tasks)
  {
    hide AcceptStart, AdvanceFence, RequestResync, DiscardDelivery, DrainPending;
  }

  lemma ColdSame(c: Coordinator, c2: Coordinator, c4: Coordinator, c5: Coordinator, n: Coordinator)
    requires LiveSame(c, c2) && LiveSame(c2, RequestResync(c2, EngineMismatch))
    requires LiveSame(c2, c4) && LiveSame(c4, RequestResync(c4, JournalGap)) && c5.live == c4.live
             && c5.sinks == c4.sinks
    requires || n == RequestResync(c2, EngineMismatch) || n == RequestResync(c4, JournalGap)
             || n == c5.(restoreAbort := n.restoreAbort, restoreTimer := n.restoreTimer, tasks := n.tasks)
    ensures LiveSame(c, n)
  {
    hide RequestResync;
  }

  lemma NewerEmpties(w: World, c: Coordinator, start: Start)
    requires Inv(w, c) && c.state.Restoring? && AcceptStart(c, start).1
    ensures AcceptStart(c, start).0 == c
    ensures AdvanceFence(c, Generation(start), false).pending == []
            && AdvanceFence(c, Generation(start), false).pendingBytes == 0
  {
    hide Base, Waiting, Phased;
  }

  lemma DiscardPending(c: Coordinator)
    ensures DiscardDelivery(c).pending == c.pending && DiscardDelivery(c).pendingBytes == c.pendingBytes
  {
  }

  lemma SettledLive(c: Coordinator, attempt: nat, failure: Failure)
    ensures Replaces(c, RestoreFails(c.(tasks := c.tasks - {attempt}), attempt, failure))
  {
    ResyncLive(c.(tasks := c.tasks - {attempt}), RestoreReason(failure));
    hide RequestResync;
  }

  lemma RestoredLive(w: World, c: Coordinator, attempt: nat, h: Handle, sink: Sink)
    requires h !in c.sinks && (c.live.Some? ==> c.live.value in c.sinks)
    ensures Replaces(c, Restored(w, c, attempt, h, sink))
  {
    var c1 := c.(tasks := c.tasks - {attempt}, sinks := c.sinks[h := sink], origin := c.origin[h := attempt]);
    ResyncLive(c1.(sinks := Dispose(c1.sinks, h)), EngineMismatch);
    if c1.delivery.Some? { TakeLive(w, c1, attempt, h); }
    hide RequestResync, TakeCandidate;
  }

  lemma TimedOutLive(c: Coordinator)
    ensures Replaces(c, c.(restoreTimer := None)) && Replaces(c, RequestResync(c.(restoreTimer := None), SlowClient))
    ensures Replaces(c, RequestResync(c, JournalGap)) && Replaces(c, c)
    ensures Replaces(c, DiscardDelivery(c).(pending := [], pendingBytes := 0, state := Closed))
  {
    ResyncLive(c.(restoreTimer := None), SlowClient);
    ResyncLive(c, JournalGap);
    hide RequestResync, DiscardDelivery;
  }

  /** From the moment a snapshot delivery starts until its adoption, no event writes to the live replica;
      an event that replaces it goes live with the candidate it adopted. */
  lemma RestoringLeavesLiveAlone(w: World, c: Coordinator, e: Event)
    requires Inv(w, c) && Enabled(w, c, e) && c.state.Restoring?
    ensures Replaces(c, Next(w, c, e))
  {
    hide Inv, Accept, AdvanceFence, StartWarm, StartSnapshot, RestoreFails, Restored, RequestResync, DiscardDelivery,
         Holds, Genuine, InHistory;
    RestoringDetached(w, c);
    InvLive(w, c);
    TimedOutLive(c);
    match e
    case Data(f) => AcceptLive(w, c, f);
    case BadData =>
    case FenceGeneration(generation) => FenceLive(c, generation, true);
    case StartDelivery(start) => StartLive(w, c, start);
    case LoadEnds(attempt, outcome) => if outcome.Some? { SettledLive(c, attempt, outcome.value); }
    case RestoreThrows(attempt, failure) => SettledLive(c, attempt, failure);
    case RestoreYields(attempt, h, sink) => RestoredLive(w, c, attempt, h, sink);
    case Timeout(attempt) =>
    case Close =>
  }

  lemma RestoringDetached(w: World, c: Coordinator)
    requires Inv(w, c) && c.state.Restoring?
    ensures Detached(c) && c.delivery.Some?
  {
    hide Base, Waiting, Tail;
  }

  // ---- What the replica shows ----

  /** The active cursor is null, or the live replica has applied exactly canonical mutations
      1..lastEventSeq of its session, each once and in order. */
  ghost predicate ShowsHistory(w: World, c: Coordinator) {
    c.activeCursor.Some? ==>
      c.live.Some? && c.live.value in c.sinks && Holds(w, c.sinks[c.live.value], c.activeCursor.value)
  }

  lemma ShownOrStale(w: World, c: Coordinator)
    requires Inv(w, c)
    ensures ShowsHistory(w, c) <==> !c.stale
  {
    hide Owned, Attempts, Fenced, Waiting, Tail, Phased;
  }

  /** Adopted-state safety, over every run of warm replays, early tails, cold restores, superseded attempts
      and failures: what the live replica shows is the canonical history up to its cursor, unless one of its
      writes took effect and threw what was taken for an error of the stream; where none does, always. */
  lemma AdoptedStateIsCanonical(w: World, c0: Coordinator, events: seq<Event>)
    requires Begins(w, c0)
    ensures var c := Run(w, c0, events);
            && (ShowsHistory(w, c) <==> !c.stale)
            && (Calm(w) ==> ShowsHistory(w, c))
  {
    BeginsInv(w, c0);
    RunKeeps(w, c0, events);
    RunMoves(w, c0, events);
    hide Inv, Run, ShowsHistory;
    ShownOrStale(w, Run(w, c0, events));
  }

  /** One frame for a live replica: it shows the history afterwards, unless the write took effect and threw a
      protocol error. After any other error the cursor is gone, and no later warm replay can start from it. */
  lemma FailureIsSafeIff(w: World, c: Coordinator, f: Frame)
    requires Inv(w, c) && !c.stale && Genuine(w, f) && c.fence == Some(f.deliveryGeneration)
    requires c.delivery.Some? && c.delivery.value.candidate == c.live && f.streamId == c.delivery.value.streamId
    requires !c.state.Restoring? && (f.kind == PTY_OUTPUT || f.kind == RESIZE_APPLIED)
    requires Advance(c.delivery.value.received, f).Ok?
    ensures CandidateKnown(c)
    ensures ShowsHistory(w, Accept(w, c, f)) <==> !Overruns(w, c.writes)
    ensures w.writeFails(c.writes).Some? && w.writeFails(c.writes).value.Other? ==> Accept(w, c, f).activeCursor.None?
  {
    InvKnows(w, c);
    InvOpen(w, c);
    AcceptKeeps(w, c, f);
    ShownOrStale(w, Accept(w, c, f));
    LiveDelivery(w, c);
    FrameIsMutation(w, c, f);
    MutateShape(w, c, f);
    hide Inv, ShowsHistory, Mutate, AcceptFrame, Advance, Genuine;
    var (n, failure) := AcceptFrame(w, c, f);
    if failure.Some? { ResyncStale(n, ReasonOf(failure.value)); }
    assert Accept(w, c, f).activeCursor == n.activeCursor;
  }

  lemma LiveDelivery(w: World, c: Coordinator)
    requires Inv(w, c) && c.delivery.Some? && !c.state.Restoring?
    ensures c.delivery.value.candidate.Some? && c.delivery.value.applied == c.delivery.value.received
    ensures c.activeCursor.Some?
  {
    NothingBuffered(w, c.delivery.value);
    hide Base, Waiting, Tail;
  }

  lemma FrameIsMutation(w: World, c: Coordinator, f: Frame)
    requires c.delivery.Some? && CandidateKnown(c) && c.fence == Some(f.deliveryGeneration)
    requires c.delivery.value.received.deliveryGeneration <= f.deliveryGeneration
    requires f.streamId == c.delivery.value.streamId && (f.kind == PTY_OUTPUT || f.kind == RESIZE_APPLIED)
    ensures AcceptFrame(w, c, f) == Mutate(w, c, f)
  {
    hide Mutate;
  }

  lemma ResyncStale(c: Coordinator, reason: ResyncReason)
    ensures RequestResync(c, reason).stale == c.stale && RequestResync(c, reason).activeCursor == c.activeCursor
  {
  }

  // ---- A mutation that is applied twice ----

  const CUT: Cursor := Cursor(1, 1, 0, 0)
  const WARM_START: Start := Warm(7, CUT, Cursor(1, 1, 1, 0))
  const FIRST_OUTPUT: Frame := Frame(PTY_OUTPUT, 0, 1, 1, 1, 0, 7, [])
  const FIRST: Mutation := MutationOf(FIRST_OUTPUT)

  const NEXT_CUT: Cursor := Cursor(1, 2, 0, 0)
  const NEXT_START: Start := Warm(7, NEXT_CUT, Cursor(1, 2, 1, 0))
  const NEXT_OUTPUT: Frame := Frame(PTY_OUTPUT, 0, 1, 2, 1, 0, 7, [])

  /** A session of one empty output, with a replica whose first write takes effect and throws a protocol error. */
  function FailingWorld(): World {
    World("engine", 1, 1, (epoch: int) => [FIRST], (k: nat) => if k == 0 then Some(Protocol(BadPayload)) else None,
          (k: nat) => true, (k: nat) => None)
  }

  function FailingStart(): Coordinator { Initial(Some(0), "engine", Some(CUT), []) }

  function TwiceApplied(): seq<Event> {
    [StartDelivery(WARM_START), Data(FIRST_OUTPUT), FenceGeneration(2), StartDelivery(NEXT_START), Data(NEXT_OUTPUT)]
  }

  /** If a live replica throws a protocol error of its own at a write that took effect, the cursor stays where it
      was; the next warm replay starts from there, writes the same mutation to the same replica once more, and
      the cursor then claims a history that the replica does not show. */
  lemma StaleAfterProtocolError()
    ensures var w := FailingWorld(); var n := Run(w, FailingStart(), TwiceApplied());
            && Begins(w, FailingStart())
            && n.activeCursor == Some(Cursor(1, 2, 1, 0)) && n.live == Some(0) && 0 in n.sinks
            && n.sinks[0].applied == [FIRST, FIRST] && w.canonical(1)[..1] == [FIRST]
            && !ShowsHistory(w, n)
  {
    hide Next, Begins;
    FailingBegins();
    FirstReplay();
    FirstWriteThrows();
    FenceReopens();
    SecondReplay();
    SecondWrite();
    RunFive(FailingWorld(), FailingStart(), TwiceApplied());
    assert FailingWorld().canonical(1)[..1] == [FIRST];
  }

  lemma FailingBegins()
    ensures Begins(FailingWorld(), FailingStart())
  {
    assert FailingWorld().canonical(1)[..0] == [];
    assert Holds(FailingWorld(), Sink("engine", [], 0), CUT);
  }

  lemma RunFive(w: World, c: Coordinator, es: seq<Event>)
    requires |es| == 5
    ensures Run(w, c, es) == Next(w, Next(w, Next(w, Next(w, Next(w, c, es[0]), es[1]), es[2]), es[3]), es[4])
  {
    hide Next;
    assert es[..5] == es && es[..0] == [];
    forall i | 0 <= i < 5 ensures Run(w, c, es[..i + 1]) == Next(w, Run(w, c, es[..i]), es[i]) {
      assert es[..i + 1][..i] == es[..i];
    }
  }

  const REPLAYING: Coordinator :=
    Install(FailingStart(), WARM_START, CUT, Cursor(1, 1, 1, 0), Some(0)).(state := Replaying, restoreAttempt := 1)

  lemma FirstReplay()
    ensures Next(FailingWorld(), FailingStart(), StartDelivery(WARM_START)) == REPLAYING
  {
    assert Ready([], 1, 7) == [] && Retained([], 1, 7) == [];
  }

  const THROWN: Coordinator :=
    FailingStart().(state := Resyncing, restoreAttempt := 2, sinks := map[0 := Sink("engine", [FIRST], 0)],
                    writes := 1, stale := true)

  lemma FirstWriteThrows()
    ensures Next(FailingWorld(), REPLAYING, Data(FIRST_OUTPUT)) == THROWN
  {
    hide AcceptFrame, Mutate;
    var w := FailingWorld();
    var (n, failure) := AcceptFrame(w, REPLAYING, FIRST_OUTPUT);
    FrameIsMutation(w, REPLAYING, FIRST_OUTPUT);
    WriteExample(w, REPLAYING, FIRST_OUTPUT);
    assert failure == Some(Protocol(BadPayload));
    assert REPLAYING.sinks[0 := Sink("engine", [FIRST], 0)] == map[0 := Sink("engine", [FIRST], 0)];
    assert [] + [FIRST] == [FIRST];
    assert n == REPLAYING.(delivery := n.delivery, sinks := map[0 := Sink("engine", [FIRST], 0)], writes := 1,
                           stale := true)
           && n.delivery.Some? && n.delivery.value.candidate == Some(0);
  }

  /** The write of the example, whatever it leads to. */
  lemma WriteExample(w: World, c: Coordinator, f: Frame)
    requires w == FailingWorld() && (f == FIRST_OUTPUT || f == NEXT_OUTPUT) && c.delivery.Some?
    requires var d := c.delivery.value;
             && d.candidate == Some(0) == c.live && d.received == d.applied == Cursor(1, f.deliveryGeneration, 0, 0)
             && c.activeCursor.Some? && 0 in c.sinks
    ensures var (n, failure) := Mutate(w, c, f);
            var sink := c.sinks[0].(applied := c.sinks[0].applied + [FIRST]);
            && failure == w.writeFails(c.writes)
            && n == c.(delivery := n.delivery, sinks := c.sinks[0 := sink], writes := c.writes + 1,
                       activeCursor := if c.writes == 0 then c.activeCursor
                                       else Some(Cursor(1, f.deliveryGeneration, 1, 0)),
                       stale := c.stale || c.writes == 0)
            && n.delivery.Some? && n.delivery.value.candidate == Some(0)
  {
  }

  const FENCED: Coordinator := THROWN.(fence := Some(2), state := AwaitingControl)

  lemma FenceReopens()
    ensures Next(FailingWorld(), THROWN, FenceGeneration(2)) == FENCED
  {
    assert NotBefore([], 2) == [];
  }

  const REPLAYED: Coordinator :=
    Install(FENCED, NEXT_START, NEXT_CUT, Cursor(1, 2, 1, 0), Some(0)).(state := Replaying, restoreAttempt := 3,
                                                                       activeCursor := Some(NEXT_CUT))

  lemma SecondReplay()
    ensures Next(FailingWorld(), FENCED, StartDelivery(NEXT_START)) == REPLAYED
  {
    assert Ready([], 2, 7) == [] && Retained([], 2, 7) == [];
  }

  lemma SecondWrite()
    ensures var n := Next(FailingWorld(), REPLAYED, Data(NEXT_OUTPUT));
            && n.activeCursor == Some(Cursor(1, 2, 1, 0)) && n.live == Some(0) && 0 in n.sinks
            && n.sinks[0].applied == [FIRST, FIRST]
  {
    FrameIsMutation(FailingWorld(), REPLAYED, NEXT_OUTPUT);
    WriteExample(FailingWorld(), REPLAYED, NEXT_OUTPUT);
    hide Mutate, AcceptFrame;
    assert [FIRST] + [FIRST] == [FIRST, FIRST];
  }

  // ---- Ownership ----

  /** Exactly one of: adopted, held by the current delivery alone, or disposed of once. */
  ghost predicate OwnedOnce(c: Coordinator, h: Handle) {
    h in c.sinks ==>
      && c.sinks[h].disposals <= 1
      && (h in c.adopted ==> Held(c) != Some(h) && c.sinks[h].disposals == 0)
      && (Held(c) == Some(h) ==> c.sinks[h].disposals == 0)
      && (h !in c.adopted && Held(c) != Some(h) ==> c.sinks[h].disposals == 1)
  }

  /** Over every run each replica a restore returned has exactly one owner or one end, and no end is undone. */
  lemma CandidatesAreOwned(w: World, c0: Coordinator, events: seq<Event>, more: Event, h: Handle)
    requires Begins(w, c0)
    ensures var c := Run(w, c0, events); var n := Next(w, c, more);
            && OwnedOnce(c, h) && OwnedOnce(n, h)
            && (h in c.sinks ==> h in n.sinks && c.sinks[h].disposals <= n.sinks[h].disposals)
            && (h in c.adopted ==> h in n.adopted)
  {
    var c := Run(w, c0, events);
    BeginsInv(w, c0);
    RunKeeps(w, c0, events);
    NextMoves(w, c, more);
    InvOwns(w, c, h);
    if Enabled(w, c, more) && CandidateKnown(c) {
      StepKeeps(w, c, more);
      InvOwns(w, Next(w, c, more), h);
    }
    hide Inv, Run, Step, Enabled, Calm;
  }

  lemma InvOwns(w: World, c: Coordinator, h: Handle)
    requires Inv(w, c)
    ensures OwnedOnce(c, h)
  {
    hide Current, Attempts, Fenced, Waiting, Tail, Phased;
  }

  /** Once an attempt is superseded, no replica of it that was not adopted by then is ever adopted or live,
      whether the attempt had yielded it already or yields it later; when it is seen, it is disposed of once. */
  lemma SupersededNeverAdopts(w: World, c0: Coordinator, events: seq<Event>, more: seq<Event>, attempt: nat, h: Handle)
    requires Begins(w, c0)
    requires attempt <= Run(w, c0, events).restoreAttempt && Superseded(Run(w, c0, events), attempt)
    requires h !in Run(w, c0, events).adopted
    requires h in Run(w, c0, events + more).origin && Run(w, c0, events + more).origin[h] == attempt
    ensures var n := Run(w, c0, events + more);
            h !in n.adopted && n.live != Some(h) && h in n.sinks && n.sinks[h].disposals == 1
  {
    var c := Run(w, c0, events);
    var n := Run(w, c0, events + more);
    BeginsInv(w, c0);
    RunKeeps(w, c0, events);
    RunKeeps(w, c0, events + more);
    RunMoves(w, c0, events);
    RunJoins(w, c0, events, more);
    RunMoves(w, c, more);
    BeginsRooted(w, c0);
    hide Run, Begins;
    EarlierAttempt(w, c, attempt);
    hide Calm;
    UnadoptedEnds(w, n, h);
  }

  lemma {:induction false} RunJoins(w: World, c: Coordinator, events: seq<Event>, more: seq<Event>)
    ensures Run(w, c, events + more) == Run(w, Run(w, c, events), more)
    decreases |more|
  {
    hide Next;
    if more == [] {
      assert events + more == events;
    } else {
      RunJoins(w, c, events, more[..|more| - 1]);
      assert (events + more)[..|events + more| - 1] == events + more[..|more| - 1];
    }
  }

  lemma BeginsRooted(w: World, c: Coordinator)
    requires Begins(w, c)
    ensures Rooted(c)
  {
  }

  lemma EarlierAttempt(w: World, c: Coordinator, attempt: nat)
    requires Inv(w, c) && attempt <= c.restoreAttempt && Superseded(c, attempt)
    ensures attempt < c.restoreAttempt
  {
    hide Owned, Current, Fenced, Waiting, Tail, Phased;
  }

  /** A replica that was not adopted and does not come from the attempt that counts was disposed of. */
  lemma UnadoptedEnds(w: World, n: Coordinator, h: Handle)
    requires Inv(w, n) && Rooted(n) && h in n.origin && h !in n.adopted && n.origin[h] < n.restoreAttempt
    ensures n.live != Some(h) && h in n.sinks && n.sinks[h].disposals == 1
  {
    hide Current, Attempts, Waiting, Tail;
  }

  /** What was applied and what was received never differ when a commit is due: no run takes that branch. */
  lemma NeverMismatched(w: World, c0: Coordinator, events: seq<Event>)
    requires Begins(w, c0)
    ensures !Run(w, c0, events).mismatched
  {
    BeginsInv(w, c0);
    RunKeeps(w, c0, events);
    hide Run;
  }

  // ---- The fence and the budget ----

  /** After every event: the delivery and every pending frame carry exactly the fence's generation, nothing
      pending could be retained by a delivery of that generation, what is counted is what is held, and both
      budgets are met. */
  lemma BuffersFitTheFence(w: World, c0: Coordinator, events: seq<Event>, streamId: int)
    requires Begins(w, c0)
    ensures var c := Run(w, c0, events);
            && (c.delivery.Some? ==> c.pending == [] && c.fence == Some(c.delivery.value.received.deliveryGeneration))
            && (forall f :: f in c.pending ==> c.fence == Some(f.deliveryGeneration))
            && (c.fence.Some? ==> Retained(c.pending, c.fence.value, streamId) == [])
            && TotalBytes(c.pending + Tailed(c)) <= w.maxBufferedTailBytes
            && |c.pending| + |Tailed(c)| <= w.maxBufferedTailFrames
  {
    BeginsInv(w, c0);
    RunKeeps(w, c0, events);
    hide Run;
    InvFits(w, Run(w, c0, events), streamId);
  }

  function Tailed(c: Coordinator): seq<Frame> {
    if c.delivery.Some? then c.delivery.value.buffered else []
  }

  lemma InvFits(w: World, c: Coordinator, streamId: int)
    requires Inv(w, c)
    ensures c.delivery.Some? ==> c.pending == [] && c.fence == Some(c.delivery.value.received.deliveryGeneration)
    ensures forall f :: f in c.pending ==> c.fence == Some(f.deliveryGeneration)
    ensures c.fence.Some? ==> Retained(c.pending, c.fence.value, streamId) == []
    ensures TotalBytes(c.pending + Tailed(c)) <= w.maxBufferedTailBytes
    ensures |c.pending| + |Tailed(c)| <= w.maxBufferedTailFrames
  {
    hide Base, Waiting, Phased;
    if c.fence.Some? { ReadyIsGenuine(w, c.pending, c.fence.value, streamId); }
    if c.delivery.Some? {
      assert c.pending + Tailed(c) == Tailed(c);
    } else {
      assert c.pending + Tailed(c) == c.pending;
    }
  }

  /** The fence never falls, and a frame below it changes nothing at all. */
  lemma FenceNeverFalls(w: World, c: Coordinator, events: seq<Event>, f: Frame)
    requires c.fence.Some?
    ensures var n := Run(w, c, events);
            && n.fence.Some? && c.fence.value <= n.fence.value
            && (f.deliveryGeneration < n.fence.value ==> Next(w, n, Data(f)) == n)
  {
    RunMoves(w, c, events);
    hide Run, Calm;
  }
}
