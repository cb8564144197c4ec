/** What every event of the delivery coordinator keeps, whatever the frames, restores and failures. */
module CoordinatorProofs {
  import opened Collections
  import opened DataFrames
  import opened ReplicaCursors
  import opened Coordination

  // ---- The invariant ----

  /** The candidate that only the delivery holds. */
  function Held(c: Coordinator): Option<Handle> {
    if c.delivery.Some? && c.delivery.value.candidate != c.live then c.delivery.value.candidate else None
  }

  /** Every replica is adopted, or held by the delivery, or was disposed of once: exactly one of these. */
  ghost predicate Owned(c: Coordinator) {
    && c.adopted <= c.sinks.Keys
    && (c.live.Some? ==> c.live.value in c.adopted)
    && (Held(c).Some? ==> Held(c).value in c.sinks && Held(c).value !in c.adopted)
    && (forall h :: h in c.sinks ==> c.sinks[h].disposals == if h in c.adopted || Held(c) == Some(h) then 0 else 1)
  }

  /** The active cursor is null, or the live replica has applied exactly the canonical mutations up to it;
      `stale` marks the one exception. */
  ghost predicate Current(w: World, c: Coordinator) {
    && (c.activeCursor.Some? ==>
          && c.live.Some? && c.live.value in c.sinks && InHistory(w, c.activeCursor.value)
          && if c.stale then |c.sinks[c.live.value].applied| > c.activeCursor.value.lastEventSeq
             else Holds(w, c.sinks[c.live.value], c.activeCursor.value))
    && (c.stale ==> c.activeCursor.Some?)
  }

  /** A cancelled attempt is an earlier one, and the installed controller is the latest attempt's. */
  ghost predicate Attempts(c: Coordinator) {
    && (forall a :: a in c.tasks ==> a <= c.restoreAttempt)
    && (forall a :: a in c.aborted ==> a < c.restoreAttempt)
    && (c.restoreAbort.Some? ==> c.restoreAbort.value == c.restoreAttempt)
  }

  /** What even a failing event leaves standing. */
  ghost predicate Base(w: World, c: Coordinator) {
    Owned(c) && Current(w, c) && Attempts(c) && !c.mismatched
  }

  predicate Delivering(s: State) { s.Replaying? || s.Restoring? || s.Live? }

  ghost predicate Fenced(w: World, c: Coordinator) {
    && (c.delivery.Some? <==> Delivering(c.state))
    && (c.delivery.Some? ==> c.pending == [] && c.fence == Some(c.delivery.value.received.deliveryGeneration))
    && (c.state.Resyncing? || c.state.Closed? ==> c.pending == [])
    && (forall f :: f in c.pending ==> c.fence == Some(f.deliveryGeneration) && Genuine(w, f))
    && c.pendingBytes == TotalBytes(c.pending)
  }

  /** What is buffered leads from what was applied to what was received. */
  ghost predicate Tail(w: World, d: Delivery) {
    && AdvanceAll(d.applied, d.buffered) == Ok(d.received)
    && (forall f :: f in d.buffered ==> Genuine(w, f))
    && d.bufferedBytes == TotalBytes(d.buffered)
    && InHistory(w, d.applied)
    && d.received.deliveryGeneration == Generation(d.start) && d.streamId == d.start.streamId
  }

  /** Who the candidate is, and what it holds. */
  ghost predicate Positioned(w: World, c: Coordinator)
    requires c.delivery.Some?
  {
    var d := c.delivery.value;
    && (c.state.Replaying? || c.state.Live? ==>
          && d.candidate.Some? && d.candidate == c.live && d.buffered == [] && c.activeCursor == Some(d.applied))
    && (c.state.Live? ==> d.commit.Some?)
    && (c.state.Restoring? ==>
          if d.candidate.None? then d.start.Snapshot? && d.applied == d.start.manifest.cut
          else d.candidate != c.live && d.buffered == []
               && d.candidate.value in c.sinks && Holds(w, c.sinks[d.candidate.value], d.applied))
  }

  /** A candidate that has reached its commit does not stay detached. */
  ghost predicate Phased(w: World, c: Coordinator)
    requires c.delivery.Some?
  {
    Positioned(w, c) && (c.state.Restoring? && c.delivery.value.candidate.Some? ==> c.delivery.value.commit.None?)
  }

  /** A restore that is not superseded belongs to the delivery, which still waits for its candidate. */
  ghost predicate Waiting(c: Coordinator) {
    forall a :: a in c.tasks && !Superseded(c, a) ==>
      && c.state.Restoring? && c.delivery.Some? && c.delivery.value.candidate.None?
      && c.delivery.value.start.Snapshot? && c.delivery.value.start.manifest == c.tasks[a].manifest
  }

  ghost predicate Inv(w: World, c: Coordinator) {
    && Base(w, c) && Fenced(w, c) && !BudgetExceeded(w, c) && Waiting(c)
    && (c.delivery.Some? ==> Tail(w, c.delivery.value) && Phased(w, c))
  }

  /** Whatever is delivered to is known. */
  lemma InvKnows(w: World, c: Coordinator)
    requires Inv(w, c)
    ensures CandidateKnown(c)
  {
  }

  // ---- Ending a delivery ----

  ghost predicate Ended(w: World, c: Coordinator) {
    Base(w, c) && c.delivery.None? && forall a :: a in c.tasks ==> Superseded(c, a)
  }

  lemma DiscardEnds(w: World, c: Coordinator)
    requires Base(w, c)
    ensures var n := DiscardDelivery(c);
            && Ended(w, n)
            && n == c.(restoreAttempt := n.restoreAttempt, aborted := n.aborted, restoreAbort := None,
                       restoreTimer := None, sinks := n.sinks, delivery := None)
  {
    var n := DiscardDelivery(c);
    assert Held(n).None?;
    assert forall h :: h in c.sinks ==> n.sinks[h].disposals == if Held(c) == Some(h) then 1 else c.sinks[h].disposals;
  }

  lemma EndedInv(w: World, c: Coordinator)
    requires Ended(w, c) && c.pending == [] && c.pendingBytes == 0 && !Delivering(c.state)
    ensures Inv(w, c)
  {
    hide Owned, Current, Attempts;
  }

  lemma ResyncKeeps(w: World, c: Coordinator, reason: ResyncReason)
    requires Base(w, c) && !c.state.Closed? && !c.state.Resyncing?
    ensures Inv(w, RequestResync(c, reason)) && RequestResync(c, reason).state.Resyncing?
  {
    var c1 := c.(state := Resyncing);
    var n := RequestResync(c, reason);
    assert Base(w, c1);
    DiscardEnds(w, c1);
    hide DiscardDelivery;
    assert Ended(w, n);
    EndedInv(w, n);
  }

  // ---- The fence ----

  lemma {:induction false} NoneNotBefore(frames: seq<Frame>, generation: int)
    requires forall f :: f in frames ==> f.deliveryGeneration < generation
    ensures NotBefore(frames, generation) == []
  {
    if frames != [] {
      assert frames[|frames| - 1] in frames;
      NoneNotBefore(frames[..|frames| - 1], generation);
    }
  }

  lemma FenceKeeps(w: World, c: Coordinator, generation: int, resume: bool)
    requires Inv(w, c)
    ensures var n := AdvanceFence(c, generation, resume);
            && Inv(w, n)
            && n.fence == Some(if c.fence.Some? && generation <= c.fence.value then c.fence.value else generation)
            && (n != c ==> n.delivery.None?)
            && (n.state == c.state || n.state.AwaitingControl?)
            && n.activeCursor == c.activeCursor && n.live == c.live
  {
    hide DiscardDelivery, NotBefore, Tail, Waiting;
    if c.fence.None? || generation > c.fence.value {
      var n := AdvanceFence(c, generation, resume);
      var c1 := c.(fence := Some(generation));
      NoneNotBefore(c.pending, generation);
      if c.delivery.Some? {
        DiscardEnds(w, c1);
      }
      hide Owned, Current, Attempts;
      assert n.delivery.None? && n.pending == [];
      FencedInv(w, c, n);
    }
  }

  lemma FencedInv(w: World, c: Coordinator, n: Coordinator)
    requires Inv(w, c) && Base(w, n) && n.delivery.None? && n.pending == [] && n.pendingBytes == 0
             && !Delivering(n.state)
    requires n.tasks == c.tasks && (c.delivery.Some? ==> Ended(w, n))
    requires c.delivery.None? ==> n.restoreAttempt == c.restoreAttempt && n.aborted == c.aborted
    ensures Inv(w, n)
  {
    hide Base;
    if c.delivery.None? {
      forall a | a in n.tasks ensures Superseded(n, a) { assert Superseded(c, a); }
    }
    EndedInv(w, n);
  }

  // ---- Buffering before the control frame ----

  lemma PendingKeeps(w: World, c: Coordinator, f: Frame)
    requires Inv(w, c) && c.delivery.None? && !c.state.Closed? && !c.state.Resyncing?
    requires c.fence == Some(f.deliveryGeneration) && Genuine(w, f)
    ensures Inv(w, BufferPending(w, c, f))
  {
    hide Base, Fenced, Waiting, Tail, Phased, Genuine, RequestResync;
    var c1 := c.(pending := c.pending + [f], pendingBytes := c.pendingBytes + FrameBytes(f));
    SameBase(w, c, c1);
    PendingFenced(w, c, f);
    if BudgetExceeded(w, c1) { ResyncKeeps(w, c1, SlowClient); }
  }

  lemma PendingFenced(w: World, c: Coordinator, f: Frame)
    requires Fenced(w, c) && c.delivery.None? && Open(c)
    requires c.fence == Some(f.deliveryGeneration) && Genuine(w, f)
    ensures Fenced(w, c.(pending := c.pending + [f], pendingBytes := c.pendingBytes + FrameBytes(f)))
  {
    assert (c.pending + [f])[..|c.pending|] == c.pending;
    assert forall x :: x in c.pending + [f] <==> x in c.pending || x == f;
    hide Genuine;
  }

  /** The base and the waiting restores do not depend on what is buffered, fenced or timed. */
  lemma SameBase(w: World, c: Coordinator, n: Coordinator)
    requires n == c.(pending := n.pending, pendingBytes := n.pendingBytes, fence := n.fence,
                     restoreTimer := n.restoreTimer)
    ensures Base(w, c) ==> Base(w, n)
    ensures Waiting(c) ==> Waiting(n)
  {
    assert Held(n) == Held(c);
  }

  // ---- One more mutation ----

  /** A genuine frame that advances a cursor extends the history it stands for by one mutation. */
  lemma AdvanceExtends(w: World, cursor: Cursor, f: Frame)
    requires InHistory(w, cursor) && Genuine(w, f) && Advance(cursor, f).Ok?
    ensures var next := Advance(cursor, f).value;
            && next.sessionEpoch == cursor.sessionEpoch && next.deliveryGeneration == cursor.deliveryGeneration
            && InHistory(w, next) && next.lastEventSeq == cursor.lastEventSeq + 1
            && w.canonical(next.sessionEpoch)[..next.lastEventSeq]
               == w.canonical(cursor.sessionEpoch)[..cursor.lastEventSeq] + [MutationOf(f)]
  {
    hide DecodeResize;
  }

  /** A write changes what one replica holds, and no ownership. */
  lemma WriteKeeps(w: World, c: Coordinator, h: Handle, m: Mutation)
    requires h in c.sinks && Owned(c) && Attempts(c)
    ensures var n := Write(w, c, h, m).0;
            && Owned(n) && Attempts(n)
            && n == c.(sinks := n.sinks, writes := c.writes + 1)
            && n.sinks.Keys == c.sinks.Keys
            && (forall k :: k in c.sinks && k != h ==> n.sinks[k] == c.sinks[k])
            && n.sinks[h].applied
               == if w.writeFails(c.writes).None? || w.writeLands(c.writes) then c.sinks[h].applied + [m]
                  else c.sinks[h].applied
  {
    var n := Write(w, c, h, m).0;
    assert n.sinks.Keys == c.sinks.Keys;
    assert Held(n) == Held(c);
  }

  /** Ownership, attempts and waiting restores look at the candidate of a delivery only. */
  lemma SameCandidate(c: Coordinator, n: Coordinator)
    requires c.delivery.Some? && n.delivery.Some?
    requires n.delivery.value.candidate == c.delivery.value.candidate
             && n.delivery.value.start == c.delivery.value.start
    requires n == c.(delivery := n.delivery, activeCursor := n.activeCursor, stale := n.stale)
    ensures Owned(c) ==> Owned(n)
    ensures Attempts(c) ==> Attempts(n)
    ensures Waiting(c) ==> Waiting(n)
  {
    assert Held(n) == Held(c);
  }

  lemma BufferTail(w: World, d: Delivery, f: Frame)
    requires Tail(w, d) && Genuine(w, f) && Advance(d.received, f).Ok?
    ensures Tail(w, d.(received := Advance(d.received, f).value, buffered := d.buffered + [f],
                       bufferedBytes := d.bufferedBytes + FrameBytes(f)))
  {
    AdvanceAllAppend(d.applied, d.buffered, f);
    assert (d.buffered + [f])[..|d.buffered|] == d.buffered;
    assert forall x :: x in d.buffered + [f] <==> x in d.buffered || x == f;
    hide AdvanceAll, DecodeResize;
  }

  lemma BufferKeeps(w: World, c: Coordinator, f: Frame)
    requires Inv(w, c) && c.delivery.Some? && c.delivery.value.candidate.None?
    requires Genuine(w, f) && Advance(c.delivery.value.received, f).Ok?
    ensures Inv(w, Mutate(w, c, f).0) && Mutate(w, c, f).1.None?
  {
    hide Owned, Attempts, Waiting, Tail, Current, Genuine, Advance, Mutate, RequestResync;
    var d := c.delivery.value;
    var c1 := c.(delivery := Some(d.(received := Advance(d.received, f).value, buffered := d.buffered + [f],
                                     bufferedBytes := d.bufferedBytes + FrameBytes(f))));
    MutateBuffers(w, c, f);
    BufferedBase(w, c, c1);
    BufferTail(w, d, f);
    AdvanceKeepsGeneration(d.received, f);
    if BudgetExceeded(w, c1) { ResyncKeeps(w, c1, SlowClient); }
  }

  lemma BufferedBase(w: World, c: Coordinator, n: Coordinator)
    requires Inv(w, c) && c.delivery.Some? && n.delivery.Some? && n == c.(delivery := n.delivery)
    requires n.delivery.value.candidate == c.delivery.value.candidate
             && n.delivery.value.start == c.delivery.value.start
    ensures Base(w, n) && Waiting(n)
  {
    hide Tail, Phased, Fenced;
    SameCandidate(c, n);
  }

  lemma MutateBuffers(w: World, c: Coordinator, f: Frame)
    requires c.delivery.Some? && c.delivery.value.candidate.None? && Advance(c.delivery.value.received, f).Ok?
    ensures var d := c.delivery.value;
            var c1 := c.(delivery := Some(d.(received := Advance(d.received, f).value, buffered := d.buffered + [f],
                                             bufferedBytes := d.bufferedBytes + FrameBytes(f))));
            Mutate(w, c, f) == (if BudgetExceeded(w, c1) then RequestResync(c1, SlowClient) else c1, None)
  {
    hide Advance, RequestResync, BudgetExceeded;
  }

  lemma AdvanceKeepsGeneration(cursor: Cursor, f: Frame)
    requires Advance(cursor, f).Ok?
    ensures Advance(cursor, f).value.deliveryGeneration == cursor.deliveryGeneration
  {
  }

  /** With nothing buffered, what was applied is what was received. */
  lemma NothingBuffered(w: World, d: Delivery)
    requires Tail(w, d) && d.buffered == []
    ensures d.applied == d.received && CaughtUp(d)
  {
  }

  /** What a mutation makes of a candidate that has applied all that was received. */
  lemma MutateShape(w: World, c: Coordinator, f: Frame)
    requires c.delivery.Some? && c.delivery.value.candidate.Some? && c.delivery.value.candidate.value in c.sinks
    requires Advance(c.delivery.value.received, f).Ok? && c.delivery.value.applied == c.delivery.value.received
    ensures var d := c.delivery.value;
            var next := Advance(d.received, f).value;
            var (c2, failure) := Write(w, c, d.candidate.value, MutationOf(f));
            var onLive := d.candidate == c.live;
            var (n, thrown) := Mutate(w, c, f);
            && thrown == failure
            && (failure.None? ==>
                  n == c2.(delivery := Some(d.(received := next, applied := next)),
                           activeCursor := if onLive then Some(next) else c.activeCursor))
            && (failure.Some? && onLive && failure.value.Other? ==>
                  n == c2.(delivery := Some(d.(received := next)), activeCursor := None, stale := false))
            && (failure.Some? && !(onLive && failure.value.Other?) ==>
                  n == c2.(delivery := Some(d.(received := next)),
                           stale := c.stale || (onLive && c.activeCursor.Some? && w.writeLands(c.writes))))
  {
    hide Advance;
  }

  /** A candidate has applied all that was received. */
  lemma NothingLeft(w: World, c: Coordinator)
    requires Inv(w, c) && c.delivery.Some? && c.delivery.value.candidate.Some?
    ensures c.delivery.value.applied == c.delivery.value.received && InHistory(w, c.delivery.value.applied)
  {
    hide Base, Waiting;
    NothingBuffered(w, c.delivery.value);
  }

  /** A mutation for a candidate goes straight to it. */
  lemma ApplyKeeps(w: World, c: Coordinator, f: Frame)
    requires Inv(w, c) && c.delivery.Some? && c.delivery.value.candidate.Some?
    requires c.delivery.value.candidate.value in c.sinks
    requires Genuine(w, f) && Advance(c.delivery.value.received, f).Ok?
    ensures var (n, failure) := Mutate(w, c, f);
            Base(w, n) && n.state == c.state && (failure.None? ==> Inv(w, n))
  {
    hide Mutate, Advance, Genuine, Owned, Attempts, Tail;
    NothingLeft(w, c);
    var d := c.delivery.value;
    var h := d.candidate.value;
    AdvanceExtends(w, d.applied, f);
    MutateShape(w, c, f);
    WriteKeeps(w, c, h, MutationOf(f));
    var (c2, failure) := Write(w, c, h, MutationOf(f));
    var n := Mutate(w, c, f).0;
    assert Waiting(c2);
    hide Waiting, Write;
    SameCandidate(c2, n);
    if failure.Some? {
      hide Tail, Phased, Fenced;
      FailedCurrent(w, c, n, f, w.writeLands(c.writes));
    } else {
      AppliedCurrent(w, c, n, f);
      AppliedInv(w, c, n, f);
    }
  }

  /** A failed write leaves one replica with the mutation or without; if that is the live one, its cursor is
      withdrawn, or marked stale if the replica is ahead of it. */
  lemma FailedCurrent(w: World, c: Coordinator, n: Coordinator, f: Frame, lands: bool)
    requires Current(w, c) && c.delivery.Some? && c.delivery.value.candidate.Some?
    requires c.delivery.value.candidate.value in c.sinks && n.sinks.Keys == c.sinks.Keys && n.live == c.live
    requires var h := c.delivery.value.candidate.value;
             && n.sinks[h].applied == (if lands then c.sinks[h].applied + [MutationOf(f)] else c.sinks[h].applied)
             && (c.live == Some(h) ==> c.activeCursor == Some(c.delivery.value.applied))
             && (forall k :: k in c.sinks && k != h ==> n.sinks[k] == c.sinks[k])
             && (c.live == Some(h) ==>
                   (n.activeCursor == None && !n.stale)
                     || (n.activeCursor == c.activeCursor && n.stale == (c.stale || (c.activeCursor.Some? && lands))))
             && (c.live != Some(h) ==> n.activeCursor == c.activeCursor && n.stale == c.stale)
    ensures Current(w, n)
  {
  }

  /** A completed write keeps the live cursor and the live replica in step. */
  lemma AppliedCurrent(w: World, c: Coordinator, n: Coordinator, f: Frame)
    requires Current(w, c) && c.delivery.Some? && c.delivery.value.candidate.Some?
    requires c.delivery.value.candidate.value in c.sinks && n.sinks.Keys == c.sinks.Keys && n.live == c.live
    requires n.delivery.Some? && n.stale == c.stale
    requires var d := c.delivery.value; var next := n.delivery.value.applied; var h := d.candidate.value;
             && InHistory(w, d.applied) && InHistory(w, next)
             && w.canonical(next.sessionEpoch)[..next.lastEventSeq]
                == w.canonical(d.applied.sessionEpoch)[..d.applied.lastEventSeq] + [MutationOf(f)]
             && n.sinks[h].applied == c.sinks[h].applied + [MutationOf(f)]
             && next.lastEventSeq == d.applied.lastEventSeq + 1
             && (forall k :: k in c.sinks && k != h ==> n.sinks[k] == c.sinks[k])
             && (c.live == Some(h) ==> c.activeCursor == Some(d.applied) && n.activeCursor == Some(next))
             && (c.live != Some(h) ==> n.activeCursor == c.activeCursor)
    ensures Current(w, n)
  {
  }

  lemma AppliedInv(w: World, c: Coordinator, n: Coordinator, f: Frame)
    requires Inv(w, c) && Base(w, n) && Waiting(n) && c.delivery.Some? && c.delivery.value.candidate.Some?
    requires c.delivery.value.candidate.value in c.sinks && n.sinks.Keys == c.sinks.Keys
    requires var d := c.delivery.value; var h := d.candidate.value;
             && n.delivery.Some?
             && n.delivery.value == d.(received := n.delivery.value.applied, applied := n.delivery.value.applied)
             && n == c.(delivery := n.delivery, sinks := n.sinks, writes := n.writes, activeCursor := n.activeCursor)
             && var next := n.delivery.value.applied;
                && next.deliveryGeneration == d.received.deliveryGeneration
                && InHistory(w, d.applied) && InHistory(w, next)
                && w.canonical(next.sessionEpoch)[..next.lastEventSeq]
                   == w.canonical(d.applied.sessionEpoch)[..d.applied.lastEventSeq] + [MutationOf(f)]
                && n.sinks[h].applied == c.sinks[h].applied + [MutationOf(f)]
                && (d.candidate == c.live ==> n.activeCursor == Some(next))
    ensures Inv(w, n)
  {
    hide Owned, Current, Attempts, Waiting;
  }

  // ---- Commit and adoption ----

  /** The invariant, short of having acted on a commit. */
  ghost predicate Committing(w: World, c: Coordinator) {
    && Base(w, c) && Fenced(w, c) && !BudgetExceeded(w, c) && Waiting(c)
    && c.delivery.Some? && Tail(w, c.delivery.value) && Positioned(w, c)
  }

  /** The check that applied and received frames agree cannot fail. */
  lemma MismatchIsUnreachable(w: World, c: Coordinator)
    requires Committing(w, c) && c.delivery.value.candidate.Some?
    ensures CaughtUp(c.delivery.value) && c.delivery.value.applied == c.delivery.value.received
  {
    hide Base, Waiting;
  }

  lemma AdoptKeeps(w: World, c: Coordinator)
    requires Committing(w, c) && c.state.Restoring? && c.delivery.value.candidate.Some? && c.delivery.value.commit.Some?
    ensures Inv(w, Adopt(c, c.delivery.value).(restoreTimer := None, state := Live))
  {
    var n := Adopt(c, c.delivery.value).(restoreTimer := None, state := Live);
    var h := c.delivery.value.candidate;
    assert Held(c) == h && Held(n) == None;
    assert Owned(n);
    assert forall a :: a in c.tasks ==> Superseded(c, a) && Superseded(n, a);
    hide Owned;
  }

  lemma TryCommitKeeps(w: World, c: Coordinator)
    requires Committing(w, c)
    ensures var (n, failure) := TryCommit(w, c);
            Base(w, n) && (failure.None? ==> Inv(w, n)) && (failure.Some? ==> n.state == c.state)
  {
    var d := c.delivery.value;
    if d.candidate.Some? && d.commit.Some? {
      MismatchIsUnreachable(w, c);
      if c.state.Restoring? {
        AdoptKeeps(w, c);
        hide Adopt, Inv, Base;
        assert Inv(w, Adopt(c, d).(restoreTimer := None, state := Live));
        InvBase(w, Adopt(c, d).(restoreTimer := None, state := Live));
      } else {
        GoesLive(w, c);
      }
    }
  }

  lemma InvBase(w: World, c: Coordinator)
    requires Inv(w, c)
    ensures Base(w, c)
  {
  }

  lemma GoesLive(w: World, c: Coordinator)
    requires Committing(w, c) && !c.state.Restoring? && c.delivery.value.commit.Some?
    ensures Inv(w, c.(restoreTimer := None, state := Live))
  {
    var n := c.(restoreTimer := None, state := Live);
    assert Held(n) == Held(c);
    assert forall a :: a in n.tasks ==> Superseded(c, a) && Superseded(n, a);
    hide Tail;
  }

  lemma CommitFrameKeeps(w: World, c: Coordinator, f: Frame)
    requires Inv(w, c) && c.delivery.Some? && AcceptCommit(c.delivery.value, f).Ok?
    ensures Committing(w, c.(delivery := Some(AcceptCommit(c.delivery.value, f).value)))
  {
    var n := c.(delivery := Some(AcceptCommit(c.delivery.value, f).value));
    SameCandidate(c, n);
    hide Owned, Attempts, Waiting, AdvanceAll;
  }

  // ---- One frame ----

  /** The state is ready for a frame: open, and not waiting for a new generation. */
  predicate Open(c: Coordinator) { !c.state.Closed? && !c.state.Resyncing? }

  lemma CommitKeeps(w: World, c: Coordinator, f: Frame)
    requires Inv(w, c) && c.delivery.Some? && AcceptCommit(c.delivery.value, f).Ok?
    ensures var (n, failure) := TryCommit(w, c.(delivery := Some(AcceptCommit(c.delivery.value, f).value)));
            Base(w, n) && (failure.None? ==> Inv(w, n)) && (failure.Some? ==> Open(n))
  {
    InvOpen(w, c);
    CommitFrameKeeps(w, c, f);
    hide Inv, Committing, Base, TryCommit;
    TryCommitKeeps(w, c.(delivery := Some(AcceptCommit(c.delivery.value, f).value)));
  }

  lemma MutateKeeps(w: World, c: Coordinator, f: Frame)
    requires Inv(w, c) && c.delivery.Some? && Genuine(w, f)
    ensures CandidateKnown(c)
    ensures var (n, failure) := Mutate(w, c, f);
            Base(w, n) && (failure.None? ==> Inv(w, n)) && (failure.Some? ==> Open(n))
  {
    InvKnows(w, c);
    InvBase(w, c);
    InvOpen(w, c);
    hide Inv, Base, Genuine, Advance, Mutate;
    if Advance(c.delivery.value.received, f).Err? {
      MutateRefuses(w, c, f);
    } else if c.delivery.value.candidate.None? {
      BufferKeeps(w, c, f);
      InvBase(w, Mutate(w, c, f).0);
    } else {
      ApplyKeeps(w, c, f);
    }
  }

  lemma MutateRefuses(w: World, c: Coordinator, f: Frame)
    requires c.delivery.Some? && CandidateKnown(c) && Advance(c.delivery.value.received, f).Err?
    ensures Mutate(w, c, f) == (c, Some(Protocol(Advance(c.delivery.value.received, f).error)))
  {
    hide Advance;
  }

  lemma InvOpen(w: World, c: Coordinator)
    requires Inv(w, c) && c.delivery.Some?
    ensures Open(c)
  {
    hide Base, Waiting, Tail, Phased;
  }

  lemma AcceptFrameKeeps(w: World, c: Coordinator, f: Frame)
    requires Inv(w, c) && Open(c) && Genuine(w, f)
    ensures CandidateKnown(c)
    ensures var (n, failure) := AcceptFrame(w, c, f);
            Base(w, n) && (failure.None? ==> Inv(w, n)) && (failure.Some? ==> Open(n))
  {
    hide Inv, AdvanceFence, Base, Mutate, TryCommit, AcceptCommit, BufferPending, Genuine, RequestResync;
    InvKnows(w, c);
    InvBase(w, c);
    if c.fence.None? || f.deliveryGeneration >= c.fence.value {
      FenceKeeps(w, c, f.deliveryGeneration, false);
      var c1 := AdvanceFence(c, f.deliveryGeneration, false);
      InvBase(w, c1);
      InvKnows(w, c1);
      if f.kind == DELIVERY_BARRIER {
      } else if f.kind == RESET {
        ResyncKeeps(w, c1, SlowClient);
        InvBase(w, RequestResync(c1, SlowClient));
      } else if c1.delivery.None? {
        PendingKeeps(w, c1, f);
        InvBase(w, BufferPending(w, c1, f));
      } else {
        InvOpen(w, c1);
        MutateKeeps(w, c1, f);
        if AcceptCommit(c1.delivery.value, f).Ok? { CommitKeeps(w, c1, f); }
      }
    }
  }

  /** Accepting a frame keeps the invariant, whether it is dropped, buffered, applied or fails. */
  lemma AcceptKeeps(w: World, c: Coordinator, f: Frame)
    requires Inv(w, c) && Open(c) && Genuine(w, f)
    ensures CandidateKnown(c) && Inv(w, Accept(w, c, f))
  {
    AcceptFrameKeeps(w, c, f);
    hide Inv, Base, AcceptFrame;
    var (n, failure) := AcceptFrame(w, c, f);
    if failure.Some? { ResyncKeeps(w, n, ReasonOf(failure.value)); }
  }

  lemma {:induction false} AcceptReadyKeeps(w: World, c: Coordinator, frames: seq<Frame>)
    requires Inv(w, c) && forall f :: f in frames ==> Genuine(w, f)
    ensures Inv(w, AcceptReady(w, c, frames))
    decreases |frames|
  {
    if frames != [] && c.delivery.Some? && !c.state.Resyncing? {
      InvKnows(w, c);
      InvOpen(w, c);
      assert frames[0] in frames;
      hide Inv, Accept, Genuine;
      AcceptKeeps(w, c, frames[0]);
      AcceptReadyKeeps(w, Accept(w, c, frames[0]), frames[1..]);
    }
  }

  // ---- Installing a delivery ----

  lemma {:induction false} ReadyIsGenuine(w: World, frames: seq<Frame>, generation: int, streamId: int)
    requires forall f :: f in frames ==> f.deliveryGeneration == generation && Genuine(w, f)
    ensures Retained(frames, generation, streamId) == []
    ensures forall f :: f in Ready(frames, generation, streamId) ==> Genuine(w, f)
  {
    hide Genuine;
    if frames != [] {
      assert frames[|frames| - 1] in frames;
      ReadyIsGenuine(w, frames[..|frames| - 1], generation, streamId);
    }
  }

  /** Every pending frame carries exactly the generation of the delivery that takes over, so none is
      retained for a later one. */
  lemma DrainKeeps(w: World, c: Coordinator)
    requires c.delivery.Some? && Inv(w, c.(pending := [], pendingBytes := 0))
    requires forall f :: f in c.pending ==>
               f.deliveryGeneration == c.delivery.value.received.deliveryGeneration && Genuine(w, f)
    ensures Inv(w, DrainPending(w, c))
  {
    var d := c.delivery.value;
    ReadyIsGenuine(w, c.pending, d.received.deliveryGeneration, d.streamId);
    hide Inv, AcceptReady, Genuine, Ready, Retained;
    AcceptReadyKeeps(w, c.(pending := [], pendingBytes := 0),
                     Ready(c.pending, d.received.deliveryGeneration, d.streamId));
  }

  /** The state between two deliveries: nothing is held, and only frames of the fence's generation wait. */
  ghost predicate Between(w: World, c: Coordinator, generation: int) {
    && Ended(w, c) && c.fence == Some(generation) && c.restoreAbort.None?
    && forall f :: f in c.pending ==> f.deliveryGeneration == generation && Genuine(w, f)
  }

  lemma DiscardBetween(w: World, c: Coordinator, generation: int)
    requires Inv(w, c) && c.fence == Some(generation)
    ensures var n := DiscardDelivery(c);
            && Between(w, n, generation) && n.live == c.live && n.activeCursor == c.activeCursor
            && n == c.(restoreAttempt := n.restoreAttempt, aborted := n.aborted, restoreAbort := None,
                       restoreTimer := None, sinks := n.sinks, delivery := None)
  {
    hide Base, Waiting;
    DiscardEnds(w, c);
    hide DiscardDelivery, Ended;
  }

  lemma WarmInstalled(w: World, c: Coordinator, start: Start)
    requires start.Warm? && Between(w, c, Generation(start))
    requires c.live.Some? && c.activeCursor.Some? && SameTerminalState(c.activeCursor.value, start.cursor)
    ensures Inv(w, Install(c, start, start.cursor, start.expectedCommit, c.live)
                   .(activeCursor := Some(start.cursor), state := Replaying, pending := [], pendingBytes := 0))
  {
    var n := Install(c, start, start.cursor, start.expectedCommit, c.live)
             .(activeCursor := Some(start.cursor), state := Replaying, pending := [], pendingBytes := 0);
    assert Held(n) == None && Held(c) == None;
    assert forall a :: a in n.tasks ==> Superseded(c, a) && Superseded(n, a);
  }

  lemma SnapshotInstalled(w: World, c: Coordinator, start: Start)
    requires start.Snapshot? && Between(w, c, Generation(start)) && InHistory(w, start.manifest.cut)
    ensures Inv(w, Install(c.(restoreAttempt := c.restoreAttempt + 1), start, start.manifest.cut,
                           ManifestCommit(start.manifest), None).(state := Restoring, pending := [], pendingBytes := 0))
  {
    var n := Install(c.(restoreAttempt := c.restoreAttempt + 1), start, start.manifest.cut,
                     ManifestCommit(start.manifest), None).(state := Restoring, pending := [], pendingBytes := 0);
    assert Held(n) == None && Held(c) == None;
    assert forall a :: a in n.tasks ==> Superseded(n, a);
  }

  // ---- Starting a delivery ----

  lemma AcceptStartKeeps(w: World, c: Coordinator, start: Start)
    requires Inv(w, c) && !c.state.Closed?
    ensures var (n, accepted) := AcceptStart(c, start);
            Inv(w, n) && (accepted ==> n == c && Open(c) && (c.fence.Some? ==> c.fence.value <= Generation(start)))
  {
    InvBase(w, c);
    hide Inv, Base;
    if Open(c) { ResyncKeeps(w, c, JournalGap); }
  }

  lemma StartWarmKeeps(w: World, c: Coordinator, start: Start)
    requires Inv(w, c) && start.Warm? && !c.state.Closed?
    ensures Inv(w, StartWarm(w, c, start))
  {
    AcceptStartKeeps(w, c, start);
    var (c1, accepted) := AcceptStart(c, start);
    if accepted {
      var c2 := AdvanceFence(c1, start.cursor.deliveryGeneration, false);
      FenceKeeps(w, c1, start.cursor.deliveryGeneration, false);
      InvBase(w, c2);
      assert Open(c2);
      var n := StartWarm(w, c, start);
      hide AcceptStart, AdvanceFence;
      if n == RequestResync(c2, EngineMismatch) {
        ResyncKeeps(w, c2, EngineMismatch);
      } else if n == RequestResync(c2, JournalGap) {
        ResyncKeeps(w, c2, JournalGap);
      } else {
        hide Base, Inv, RequestResync;
        WarmDrains(w, c2, start);
      }
    }
  }

  lemma WarmDrains(w: World, c: Coordinator, start: Start)
    requires Inv(w, c) && start.Warm? && c.fence == Some(Generation(start)) && c.live.Some?
    requires c.activeCursor.Some? && SameTerminalState(c.activeCursor.value, start.cursor)
    ensures var c3 := Install(DiscardDelivery(c), start, start.cursor, start.expectedCommit, c.live);
            Inv(w, DrainPending(w, c3.(activeCursor := Some(start.cursor), state := Replaying)))
  {
    var c1 := DiscardDelivery(c);
    DiscardBetween(w, c, Generation(start));
    hide Inv, DiscardDelivery, Ended;
    WarmInstalled(w, c1, start);
    hide DrainPending;
    DrainKeeps(w, Install(c1, start, start.cursor, start.expectedCommit, c.live)
                  .(activeCursor := Some(start.cursor), state := Replaying));
  }

  // ---- Restores ----

  /** n is a later state of the same delivery as c, or of none; no restore was started or ended. */
  ghost predicate SameDelivery(c: Coordinator, n: Coordinator) {
    && n.tasks == c.tasks
    && (n.delivery.Some? ==>
          && c.delivery.Some? && n.delivery.value.start == c.delivery.value.start
          && n.delivery.value.candidate == c.delivery.value.candidate
          && n.restoreAttempt == c.restoreAttempt && n.aborted == c.aborted)
  }

  lemma ResyncSame(c: Coordinator, reason: ResyncReason)
    ensures SameDelivery(c, RequestResync(c, reason))
  {
  }

  lemma FenceSame(c: Coordinator, generation: int)
    ensures SameDelivery(c, AdvanceFence(c, generation, false))
  {
    hide NotBefore;
  }

  lemma TryCommitSame(w: World, c: Coordinator)
    requires c.delivery.Some?
    ensures SameDelivery(c, TryCommit(w, c).0)
  {
    hide CaughtUp, RequestResync;
    ResyncSame(c.(mismatched := true), JournalGap);
  }

  predicate OnlyWrites(c: Coordinator, n: Coordinator) { n == c.(sinks := n.sinks, writes := n.writes) }

  lemma WriteOnly(w: World, c: Coordinator, h: Handle, m: Mutation)
    requires h in c.sinks
    ensures OnlyWrites(c, Write(w, c, h, m).0)
  {
  }

  lemma MutateWritesSame(w: World, c: Coordinator, f: Frame)
    requires c.delivery.Some? && CandidateKnown(c) && c.delivery.value.candidate.Some?
    ensures SameDelivery(c, Mutate(w, c, f).0)
  {
    hide Advance, BudgetExceeded, RequestResync, Write, MutationOf;
    var d := c.delivery.value;
    if Advance(d.received, f).Ok? {
      WriteOnly(w, c.(delivery := Some(d.(received := Advance(d.received, f).value))), d.candidate.value,
        MutationOf(f));
    }
  }

  lemma MutateSame(w: World, c: Coordinator, f: Frame)
    requires c.delivery.Some? && CandidateKnown(c)
    ensures SameDelivery(c, Mutate(w, c, f).0)
  {
    hide Advance, BudgetExceeded, RequestResync, Write, MutationOf;
    var d := c.delivery.value;
    if d.candidate.Some? {
      MutateWritesSame(w, c, f);
    } else if Advance(d.received, f).Ok? {
      MutateBuffers(w, c, f);
      ResyncSame(c.(delivery := Some(d.(received := Advance(d.received, f).value, buffered := d.buffered + [f],
                                        bufferedBytes := d.bufferedBytes + FrameBytes(f)))), SlowClient);
    }
  }

  lemma SameOnward(c: Coordinator, m: Coordinator, n: Coordinator)
    requires SameDelivery(c, m) && SameDelivery(m, n)
    ensures SameDelivery(c, n)
  {
  }

  lemma FrameSameDelivery(w: World, c: Coordinator, f: Frame)
    requires c.delivery.Some? && CandidateKnown(c)
    ensures SameDelivery(c, Accept(w, c, f))
  {
    var c1 := AdvanceFence(c, f.deliveryGeneration, false);
    var (n, failure) := AcceptFrame(w, c, f);
    FenceSame(c, f.deliveryGeneration);
    FrameSame(w, c, f);
    hide AcceptFrame, AdvanceFence, SameDelivery;
    if failure.Some? {
      ResyncSame(n, ReasonOf(failure.value));
      SameOnward(c, n, RequestResync(n, ReasonOf(failure.value)));
    }
  }

  lemma FenceKnows(c: Coordinator, generation: int)
    requires CandidateKnown(c)
    ensures CandidateKnown(AdvanceFence(c, generation, false))
  {
    hide NotBefore;
  }

  /** Where a frame can lead. */
  lemma FrameCases(w: World, c: Coordinator, f: Frame)
    requires CandidateKnown(c)
    ensures var c1 := AdvanceFence(c, f.deliveryGeneration, false);
            var n := AcceptFrame(w, c, f).0;
            var buffered := c1.(pending := c1.pending + [f], pendingBytes := c1.pendingBytes + FrameBytes(f));
            || n == c || n == c1 || n == RequestResync(c1, SlowClient) || n == buffered
            || n == RequestResync(buffered, SlowClient)
            || (c1.delivery.Some? && CandidateKnown(c1) && n == Mutate(w, c1, f).0)
            || (c1.delivery.Some? && AcceptCommit(c1.delivery.value, f).Ok?
                && n == TryCommit(w, c1.(delivery := Some(AcceptCommit(c1.delivery.value, f).value))).0)
  {
    hide Mutate, TryCommit, AcceptCommit, BudgetExceeded, AdvanceFence, RequestResync, BufferPending;
    FenceKnows(c, f.deliveryGeneration);
    PendingCases(w, AdvanceFence(c, f.deliveryGeneration, false), f);
  }

  lemma PendingCases(w: World, c: Coordinator, f: Frame)
    ensures var buffered := c.(pending := c.pending + [f], pendingBytes := c.pendingBytes + FrameBytes(f));
            BufferPending(w, c, f) == buffered || BufferPending(w, c, f) == RequestResync(buffered, SlowClient)
  {
    hide RequestResync, BudgetExceeded;
  }

  lemma CommitSame(w: World, c: Coordinator, f: Frame)
    requires c.delivery.Some? && AcceptCommit(c.delivery.value, f).Ok?
    ensures SameDelivery(c, TryCommit(w, c.(delivery := Some(AcceptCommit(c.delivery.value, f).value))).0)
  {
    TryCommitSame(w, c.(delivery := Some(AcceptCommit(c.delivery.value, f).value)));
    hide TryCommit;
  }

  lemma FrameSame(w: World, c: Coordinator, f: Frame)
    requires CandidateKnown(c)
    ensures SameDelivery(c, AcceptFrame(w, c, f).0)
  {
    hide AdvanceFence, Mutate, TryCommit, RequestResync, AcceptFrame;
    var c1 := AdvanceFence(c, f.deliveryGeneration, false);
    var n := AcceptFrame(w, c, f).0;
    var buffered := c1.(pending := c1.pending + [f], pendingBytes := c1.pendingBytes + FrameBytes(f));
    FrameCases(w, c, f);
    FenceSame(c, f.deliveryGeneration);
    ResyncSame(c1, SlowClient);
    ResyncSame(buffered, SlowClient);
    if c1.delivery.Some? {
      if CandidateKnown(c1) { MutateSame(w, c1, f); }
      if AcceptCommit(c1.delivery.value, f).Ok? { CommitSame(w, c1, f); }
    }
  }

  lemma {:induction false} ReadySameDelivery(w: World, c: Coordinator, frames: seq<Frame>)
    ensures SameDelivery(c, AcceptReady(w, c, frames))
    decreases |frames|
  {
    if frames != [] && c.delivery.Some? && !c.state.Resyncing? && CandidateKnown(c) {
      FrameSameDelivery(w, c, frames[0]);
      hide Accept;
      ReadySameDelivery(w, Accept(w, c, frames[0]), frames[1..]);
    }
  }

  /** The download is under way for the latest attempt. */
  lemma LoadingKeeps(w: World, c: Coordinator, attempt: nat, m: Manifest)
    requires Inv(w, c) && c.state.Restoring? && c.delivery.value.candidate.None?
    requires c.delivery.value.start.Snapshot? && c.delivery.value.start.manifest == m
    requires attempt == c.restoreAttempt
    ensures Inv(w, c.(restoreAbort := Some(attempt), restoreTimer := Some(attempt),
                      tasks := c.tasks[attempt := Loading(m)]))
  {
    var n := c.(restoreAbort := Some(attempt), restoreTimer := Some(attempt), tasks := c.tasks[attempt := Loading(m)]);
    assert Held(n) == Held(c);
    hide Tail;
  }

  lemma StartSnapshotKeeps(w: World, c: Coordinator, start: Start)
    requires Inv(w, c) && start.Snapshot? && !c.state.Closed? && InHistory(w, start.manifest.cut)
    ensures Inv(w, StartSnapshot(w, c, start))
  {
    AcceptStartKeeps(w, c, start);
    var (c1, accepted) := AcceptStart(c, start);
    if accepted {
      var c2 := AdvanceFence(c1, start.manifest.cut.deliveryGeneration, false);
      FenceKeeps(w, c1, start.manifest.cut.deliveryGeneration, false);
      assert Open(c2);
      hide AcceptStart, AdvanceFence, Inv, ColdFrom;
      ColdFromKeeps(w, c2, start);
    }
  }

  lemma ColdFromKeeps(w: World, c: Coordinator, start: Start)
    requires Inv(w, c) && start.Snapshot? && Open(c) && c.fence == Some(Generation(start))
             && InHistory(w, start.manifest.cut)
    ensures Inv(w, ColdFrom(w, c, start))
  {
    var m := start.manifest;
    InvBase(w, c);
    hide Base, Inv;
    if m.engineId != w.engineId {
      ResyncKeeps(w, c, EngineMismatch);
    } else {
      var c3 := DiscardDelivery(c);
      var c4 := c3.(restoreAttempt := c3.restoreAttempt + 1);
      DiscardBetween(w, c, Generation(start));
      hide DiscardDelivery;
      if m.commitEventSeq < m.cut.lastEventSeq || m.commitPtyOffset < m.cut.nextPtyOffset {
        BetweenBase(w, c3, Generation(start));
        ResyncKeeps(w, c4, JournalGap);
      } else {
        SnapshotDrains(w, c3, start);
      }
    }
  }

  lemma BetweenBase(w: World, c: Coordinator, generation: int)
    requires Between(w, c, generation)
    ensures Base(w, c.(restoreAttempt := c.restoreAttempt + 1))
  {
    var n := c.(restoreAttempt := c.restoreAttempt + 1);
    assert Held(n) == Held(c);
  }

  lemma SnapshotDrains(w: World, c: Coordinator, start: Start)
    requires start.Snapshot? && Between(w, c, Generation(start)) && InHistory(w, start.manifest.cut)
    ensures var m := start.manifest;
            var attempt := c.restoreAttempt + 1;
            var c4 := Install(c.(restoreAttempt := attempt), start, m.cut, ManifestCommit(m),
                              None).(state := Restoring);
            Inv(w, BeginLoad(DrainPending(w, c4), attempt, m))
  {
    var m := start.manifest;
    var attempt := c.restoreAttempt + 1;
    var c4 := Install(c.(restoreAttempt := attempt), start, m.cut, ManifestCommit(m), None).(state := Restoring);
    SnapshotInstalled(w, c, start);
    hide Inv, Ended, Genuine;
    DrainKeeps(w, c4);
    var c5 := DrainPending(w, c4);
    var d := c4.delivery.value;
    ReadyIsGenuine(w, c4.pending, d.received.deliveryGeneration, d.streamId);
    ReadySameDelivery(w, c4.(pending := [], pendingBytes := 0),
                      Ready(c4.pending, d.received.deliveryGeneration, d.streamId));
    hide AcceptReady, Ready, Retained;
    if c5.delivery.Some? && c5.state.Restoring? {
      LoadingKeeps(w, c5, attempt, m);
    }
  }

  lemma RestoreFailsKeeps(w: World, c: Coordinator, attempt: nat, failure: Failure)
    requires Base(w, c) && (Superseded(c, attempt) ==> Inv(w, c)) && (!Superseded(c, attempt) ==> Open(c))
    ensures Inv(w, RestoreFails(c, attempt, failure))
  {
    hide Base, Inv;
    if !Superseded(c, attempt) { ResyncKeeps(w, c, RestoreReason(failure)); }
  }

  /** A settled task is forgotten; one that is not superseded found its delivery still waiting. */
  lemma TaskEnds(w: World, c: Coordinator, attempt: nat)
    requires Inv(w, c) && attempt in c.tasks
    ensures Inv(w, c.(tasks := c.tasks - {attempt}))
    ensures !Superseded(c, attempt) ==>
              && c.state.Restoring? && c.delivery.Some? && c.delivery.value.candidate.None?
              && c.delivery.value.applied == c.tasks[attempt].manifest.cut
              && forall a :: a in c.tasks && a != attempt ==> Superseded(c, a)
  {
    var n := c.(tasks := c.tasks - {attempt});
    assert Held(n) == Held(c);
    assert forall a :: a in n.tasks ==> Superseded(n, a) == Superseded(c, a);
    hide Tail, Genuine;
  }

  lemma LoadedKeeps(w: World, c: Coordinator, attempt: nat, failure: Option<Failure>)
    requires Inv(w, c) && attempt in c.tasks
    ensures Inv(w, Loaded(c, attempt, failure))
  {
    var c1 := c.(tasks := c.tasks - {attempt});
    TaskEnds(w, c, attempt);
    InvBase(w, c1);
    if failure.Some? {
      hide Inv, Base;
      RestoreFailsKeeps(w, c1, attempt, failure.value);
    } else if !Superseded(c, attempt) {
      BuildingKeeps(w, c, attempt);
    }
  }

  lemma BuildingKeeps(w: World, c: Coordinator, attempt: nat)
    requires Inv(w, c) && attempt in c.tasks
    ensures Inv(w, c.(tasks := c.tasks[attempt := Building(c.tasks[attempt].manifest)]))
  {
    var n := c.(tasks := c.tasks[attempt := Building(c.tasks[attempt].manifest)]);
    assert Held(n) == Held(c);
    assert forall a :: a in n.tasks ==> a in c.tasks && n.tasks[a].manifest == c.tasks[a].manifest;
    assert forall a :: a in n.tasks ==> Superseded(n, a) == Superseded(c, a);
    hide Tail, Genuine;
  }

  /** Everything buffered, written to the new candidate in order. */
  ghost predicate Flushing(w: World, c: Coordinator, frames: seq<Frame>) {
    && Base(w, c) && c.delivery.Some? && c.delivery.value.candidate.Some?
    && var d := c.delivery.value; var h := d.candidate.value;
       && d.candidate != c.live && h in c.sinks && Holds(w, c.sinks[h], d.applied)
       && AdvanceAll(d.applied, frames) == Ok(d.received) && (forall f :: f in frames ==> Genuine(w, f))
  }

  ghost predicate Flushed(w: World, c: Coordinator, n: Coordinator) {
    && c.delivery.Some? && n.delivery.Some?
    && n == c.(sinks := n.sinks, writes := n.writes, delivery := n.delivery)
    && n.sinks.Keys == c.sinks.Keys
    && n.delivery.value == c.delivery.value.(applied := c.delivery.value.received, buffered := [], bufferedBytes := 0)
    && n.delivery.value.candidate.Some? && n.delivery.value.candidate.value in n.sinks
    && Holds(w, n.sinks[n.delivery.value.candidate.value], n.delivery.value.applied)
  }

  lemma {:induction false} FlushKeeps(w: World, c: Coordinator, frames: seq<Frame>)
    requires Flushing(w, c, frames)
    ensures var (n, failure) := FlushBuffered(w, c, frames);
            && Base(w, n) && (failure.None? ==> Flushed(w, c, n))
            && n.state == c.state && n.restoreAttempt == c.restoreAttempt && n.aborted == c.aborted
    decreases |frames|
  {
    var d := c.delivery.value;
    var h := d.candidate.value;
    if frames == [] {
      SameCandidate(c, c.(delivery := Some(d.(buffered := [], bufferedBytes := 0))));
    } else {
      var f := frames[0];
      assert f in frames;
      AdvanceExtends(w, d.applied, f);
      WriteKeeps(w, c, h, MutationOf(f));
      var (c1, failure) := Write(w, c, h, MutationOf(f));
      hide Write, Advance, Genuine;
      FlushOne(w, c, c1, frames);
      if failure.None? {
        var c2 := c1.(delivery := Some(d.(applied := Advance(d.applied, f).value)));
        hide Flushing, Base;
        FlushKeeps(w, c2, frames[1..]);
      }
    }
  }

  lemma FlushOne(w: World, c: Coordinator, c1: Coordinator, frames: seq<Frame>)
    requires Flushing(w, c, frames) && frames != [] && Owned(c1) && Attempts(c1)
    requires c1 == c.(sinks := c1.sinks, writes := c1.writes) && c1.sinks.Keys == c.sinks.Keys
    requires var h := c.delivery.value.candidate.value;
             forall k :: k in c.sinks && k != h ==> c1.sinks[k] == c.sinks[k]
    ensures Base(w, c1)
    ensures var d := c.delivery.value; var h := d.candidate.value; var f := frames[0];
            && Advance(d.applied, f).Ok?
            && (c1.sinks[h].applied == c.sinks[h].applied + [MutationOf(f)] ==>
                  Flushing(w, c1.(delivery := Some(d.(applied := Advance(d.applied, f).value))), frames[1..]))
  {
    var d := c.delivery.value;
    var f := frames[0];
    assert f in frames;
    AdvanceExtends(w, d.applied, f);
    SameCandidate(c1, c1.(delivery := Some(d.(applied := Advance(d.applied, f).value))));
    hide Advance, Genuine, Owned, Attempts;
    assert forall x :: x in frames[1..] ==> x in frames;
  }

  /** A replica that arrives too late, or with the wrong engine, is disposed of at once. */
  /** What a replica that is disposed of at once leaves as it was. */
  lemma UnwantedOwned(c: Coordinator, h: Handle, sink: Sink)
    requires Owned(c) && h !in c.sinks && sink.disposals == 0
    ensures var n := c.(sinks := Dispose(c.sinks[h := sink], h));
            Owned(n) && forall k :: k in c.sinks ==> k in n.sinks && n.sinks[k] == c.sinks[k]
  {
    var n := c.(sinks := Dispose(c.sinks[h := sink], h));
    assert Held(n) == Held(c);
  }

  lemma UnwantedKeeps(w: World, c: Coordinator, h: Handle, sink: Sink)
    requires Base(w, c) && h !in c.sinks && sink.disposals == 0
    ensures var n := c.(sinks := Dispose(c.sinks[h := sink], h));
            Base(w, n) && (Inv(w, c) ==> Inv(w, n))
  {
    hide Tail, Dispose;
    UnwantedOwned(c, h, sink);
  }

  /** The delivery that waited takes the restored replica. */
  lemma CandidateArrives(w: World, c: Coordinator, h: Handle, sink: Sink)
    requires Inv(w, c) && c.state.Restoring? && c.delivery.value.candidate.None?
    requires h !in c.sinks && sink.disposals == 0 && Holds(w, sink, c.delivery.value.applied)
    ensures var d := c.delivery.value;
            Flushing(w, c.(sinks := c.sinks[h := sink], delivery := Some(d.(candidate := Some(h)))), d.buffered)
  {
    var d := c.delivery.value;
    var n := c.(sinks := c.sinks[h := sink], delivery := Some(d.(candidate := Some(h))));
    assert Held(c) == None && Held(n) == Some(h);
    assert Owned(n);
    hide Owned, AdvanceAll, Genuine;
  }

  lemma FlushCommits(w: World, c: Coordinator, m: Coordinator, n: Coordinator, h: Handle)
    requires Inv(w, c) && c.state.Restoring? && c.delivery.value.candidate.None?
    requires forall a :: a in c.tasks ==> Superseded(c, a)
    requires m == c.(sinks := m.sinks, delivery := Some(c.delivery.value.(candidate := Some(h)))) && c.live != Some(h)
    requires Flushed(w, m, n) && Base(w, n)
    ensures Committing(w, n)
  {
    assert forall a :: a in n.tasks ==> Superseded(n, a);
    hide Base, Genuine;
  }

  lemma RestoredKeeps(w: World, c: Coordinator, attempt: nat, h: Handle, sink: Sink)
    requires Inv(w, c) && attempt in c.tasks && h !in c.sinks && sink.disposals == 0
    requires Holds(w, sink, c.tasks[attempt].manifest.cut)
    ensures Inv(w, Restored(w, c, attempt, h, sink))
  {
    var c1 := c.(tasks := c.tasks - {attempt}, origin := c.origin[h := attempt]);
    TaskEnds(w, c, attempt);
    SameInv(w, c.(tasks := c.tasks - {attempt}), c1);
    InvBase(w, c1);
    if Superseded(c, attempt) || sink.engineId != w.engineId {
      UnwantedKeeps(w, c1, h, sink);
      var n := c1.(sinks := Dispose(c1.sinks[h := sink], h));
      assert Superseded(n, attempt) == Superseded(c, attempt);
      if !Superseded(c, attempt) {
        hide Inv, Base;
        ResyncKeeps(w, n, EngineMismatch);
      }
    } else {
      InvLive(w, c1);
      assert !Superseded(c1.(sinks := c1.sinks[h := sink]), attempt);
      hide Inv, Base, Holds, TakeCandidate;
      CandidateRestored(w, c1, attempt, h, sink);
    }
  }

  /** The invariant does not look at where replicas came from. */
  lemma SameInv(w: World, c: Coordinator, n: Coordinator)
    requires Inv(w, c) && n == c.(origin := n.origin)
    ensures Inv(w, n)
  {
    assert Held(n) == Held(c);
    hide Genuine, Holds, InHistory, AdvanceAll;
  }

  lemma InvLive(w: World, c: Coordinator)
    requires Inv(w, c)
    ensures c.live.Some? ==> c.live.value in c.sinks
  {
  }

  lemma CandidateRestored(w: World, c: Coordinator, attempt: nat, h: Handle, sink: Sink)
    requires Inv(w, c) && c.state.Restoring? && c.delivery.Some? && c.delivery.value.candidate.None?
    requires forall a :: a in c.tasks ==> Superseded(c, a)
    requires !Superseded(c, attempt)
    requires h !in c.sinks && sink.disposals == 0 && Holds(w, sink, c.delivery.value.applied)
    requires c.live.Some? ==> c.live.value in c.sinks
    ensures Inv(w, TakeCandidate(w, c.(sinks := c.sinks[h := sink]), attempt, h))
  {
    var d := c.delivery.value.(candidate := Some(h));
    var m := c.(sinks := c.sinks[h := sink], delivery := Some(d));
    CandidateArrives(w, c, h, sink);
    FlushKeeps(w, m, d.buffered);
    hide Flushing, Holds, Inv, Base, FlushBuffered, TryCommit, Flushed, Committing, RestoreFails;
    var (c1, failure) := FlushBuffered(w, m, d.buffered);
    assert !Superseded(c1, attempt);
    if failure.Some? {
      RestoreFailsKeeps(w, c1, attempt, failure.value);
    } else {
      FlushCommits(w, c, m, c1, h);
      TryCommitKeeps(w, c1);
      var (c2, refused) := TryCommit(w, c1);
      if refused.Some? {
        RefusedSame(w, c1);
        RestoreFailsKeeps(w, c2, attempt, refused.value);
      }
    }
  }

  lemma RefusedSame(w: World, c: Coordinator)
    requires c.delivery.Some? && TryCommit(w, c).1.Some?
    ensures TryCommit(w, c).0 == c
  {
    hide CaughtUp, RequestResync, Adopt;
  }

  // ---- Every event ----

  lemma CloseKeeps(w: World, c: Coordinator)
    requires Inv(w, c)
    ensures Inv(w, DiscardDelivery(c).(pending := [], pendingBytes := 0, state := Closed))
  {
    InvBase(w, c);
    hide Base;
    DiscardEnds(w, c);
    hide DiscardDelivery;
    var n := DiscardDelivery(c);
    ClosedEnds(w, n);
    EndedInv(w, n.(pending := [], pendingBytes := 0, state := Closed));
  }

  lemma ClosedEnds(w: World, c: Coordinator)
    requires Ended(w, c)
    ensures Ended(w, c.(pending := [], pendingBytes := 0, state := Closed))
  {
    assert Held(c.(pending := [], pendingBytes := 0, state := Closed)) == Held(c);
  }

  lemma TimerKeeps(w: World, c: Coordinator)
    requires Inv(w, c)
    ensures Inv(w, c.(restoreTimer := None))
  {
    SameBase(w, c, c.(restoreTimer := None));
    hide Base, Waiting, Tail;
  }

  /** Every event keeps the invariant. */
  lemma StepKeeps(w: World, c: Coordinator, e: Event)
    requires Inv(w, c) && Enabled(w, c, e)
    ensures CandidateKnown(c) && Inv(w, Step(w, c, e))
  {
    InvKnows(w, c);
    InvBase(w, c);
    hide Inv, Base, Accept, AdvanceFence, StartWarm, StartSnapshot, Loaded, Restored, RequestResync, Holds, Genuine,
         InHistory;
    match e
    case Data(f) => if Open(c) { AcceptKeeps(w, c, f); }
    case BadData => if Open(c) { ResyncKeeps(w, c, JournalGap); }
    case FenceGeneration(generation) => FenceKeeps(w, c, generation, true);
    case StartDelivery(start) =>
      if start.Warm? { StartWarmKeeps(w, c, start); } else { StartSnapshotKeeps(w, c, start); }
    case LoadEnds(attempt, outcome) => LoadedKeeps(w, c, attempt, outcome);
    case RestoreThrows(attempt, failure) => ThrowsKeeps(w, c, attempt, failure);
    case RestoreYields(attempt, h, sink) => RestoredKeeps(w, c, attempt, h, sink);
    case Timeout(attempt) =>
      TimerKeeps(w, c);
      InvBase(w, c.(restoreTimer := None));
      if c.state.Restoring? { ResyncKeeps(w, c.(restoreTimer := None), SlowClient); }
    case Close => CloseKeeps(w, c);
  }

  lemma ThrowsKeeps(w: World, c: Coordinator, attempt: nat, failure: Failure)
    requires Inv(w, c) && attempt in c.tasks
    ensures Inv(w, RestoreFails(c.(tasks := c.tasks - {attempt}), attempt, failure))
  {
    var c1 := c.(tasks := c.tasks - {attempt});
    TaskEnds(w, c, attempt);
    InvBase(w, c1);
    assert Superseded(c1, attempt) == Superseded(c, attempt);
    hide Inv, Base;
    RestoreFailsKeeps(w, c1, attempt, failure);
  }

  // ---- Runs ----

  /** An event that cannot happen changes nothing. */
  function Next(w: World, c: Coordinator, e: Event): Coordinator {
    if Enabled(w, c, e) && CandidateKnown(c) then Step(w, c, e) else c
  }

  function Run(w: World, c: Coordinator, events: seq<Event>): Coordinator
    decreases |events|
  {
    if events == [] then c else Next(w, Run(w, c, events[..|events| - 1]), events[|events| - 1])
  }

  /** A live replica is given only together with what it holds. */
  ghost predicate Begins(w: World, c: Coordinator) {
    exists live, engineId, cursor, history ::
      && c == Initial(live, engineId, cursor, history)
      && (cursor.Some? ==> live.Some? && Holds(w, Sink(engineId, history, 0), cursor.value))
  }

  lemma BeginsInv(w: World, c: Coordinator)
    requires Begins(w, c)
    ensures Inv(w, c)
  {
  }

  lemma {:induction false} RunKeeps(w: World, c: Coordinator, events: seq<Event>)
    requires Inv(w, c)
    ensures Inv(w, Run(w, c, events))
    decreases |events|
  {
    hide Inv, Step, Enabled;
    if events != [] {
      var before := Run(w, c, events[..|events| - 1]);
      RunKeeps(w, c, events[..|events| - 1]);
      if Enabled(w, before, events[|events| - 1]) { StepKeeps(w, before, events[|events| - 1]); }
    }
  }
}
