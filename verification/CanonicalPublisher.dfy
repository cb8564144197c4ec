/** The canonical publisher as an object: what it was given, what it has sent, and what its queue still owes. */
module CanonicalPublishers {
  import opened Collections
  import opened RelayDeliveries
  import opened Recovery
  import P = RecoveryProofs

  const PUMP_YIELD_BYTES: nat := 256 * 1024
  const PUMP_YIELD_FRAMES: nat := 64

  function TotalBytes(frames: seq<Canonical>): nat
    decreases |frames|
  {
    if frames == [] then 0 else BytesOf(frames[0]) + TotalBytes(frames[1..])
  }

  lemma {:induction false} TotalAppend(frames: seq<Canonical>, f: Canonical)
    ensures TotalBytes(frames + [f]) == TotalBytes(frames) + BytesOf(f)
    decreases |frames|
  {
    if frames == [] {
      assert [] + [f] == [f] && [f][1..] == [];
    } else {
      assert (frames + [f])[1..] == frames[1..] + [f];
      TotalAppend(frames[1..], f);
    }
  }

  /** How many of these frames one turn of a sending loop sends, when it has sent `count` already. */
  function TurnLength(frames: seq<Canonical>, bytes: nat, count: nat): (n: nat)
    ensures n <= |frames| && (count < PUMP_YIELD_FRAMES ==> count + n <= PUMP_YIELD_FRAMES)
    decreases |frames|
  {
    if frames == [] then 0
    else
      var sum := bytes + BytesOf(frames[0]);
      if sum >= PUMP_YIELD_BYTES || count + 1 >= PUMP_YIELD_FRAMES then 1
      else 1 + TurnLength(frames[1..], sum, count + 1)
  }

  /** How many leading frames a commit covers. */
  function Covered(frames: seq<Canonical>, commit: Mark): (n: nat)
    ensures n <= |frames|
    ensures n < |frames| ==> frames[n].event > commit.event
    ensures forall i :: 0 <= i < n ==> frames[i].event <= commit.event
    decreases |frames|
  {
    if frames == [] || frames[0].event > commit.event then 0 else 1 + Covered(frames[1..], commit)
  }

  /** The first n of these frames left the queue, and were sent after what was sent before. */
  ghost predicate Taken(all: seq<Canonical>, before: seq<Canonical>, n: nat, queue: seq<Canonical>,
                        sent: seq<Canonical>)
  {
    n <= |all| && queue == all[n..] && sent == before + all[..n]
  }

  lemma TakenNone(all: seq<Canonical>, before: seq<Canonical>)
    ensures Taken(all, before, 0, all, before)
  {
    assert all[0..] == all && all[..0] == [] && before + [] == before;
  }

  lemma TakenNext(all: seq<Canonical>, before: seq<Canonical>, n: nat, queue: seq<Canonical>, sent: seq<Canonical>)
    requires Taken(all, before, n, queue, sent) && queue != []
    ensures n < |all| && queue[0] == all[n] && Taken(all, before, n + 1, queue[1..], sent + [queue[0]])
  {
    assert all[..n + 1] == all[..n] + [all[n]] && all[n..][1..] == all[n + 1..];
  }

  lemma TakenMeans(all: seq<Canonical>, before: seq<Canonical>, n: nat, queue: seq<Canonical>, sent: seq<Canonical>)
    requires Taken(all, before, n, queue, sent)
    ensures n <= |all| && queue == all[n..] && sent == before + all[..n] && (queue == [] ==> n == |all|)
    ensures queue != [] ==> n < |all| && queue[0] == all[n]
  {
  }

  /** What is left of a turn of this length, when n frames were sent. */
  ghost predicate Remains(frames: seq<Canonical>, n: nat, bytes: nat, count: nat, length: nat) {
    n <= |frames| && n + TurnLength(frames[n..], bytes, count) == length
  }

  lemma RemainsAll(frames: seq<Canonical>)
    ensures Remains(frames, 0, 0, 0, TurnLength(frames, 0, 0))
  {
    assert frames[0..] == frames;
  }

  lemma RemainsNext(frames: seq<Canonical>, n: nat, bytes: nat, count: nat, length: nat)
    requires Remains(frames, n, bytes, count, length) && n < |frames|
    ensures var sum := bytes + BytesOf(frames[n]);
            && n < length
            && if sum >= PUMP_YIELD_BYTES || count + 1 >= PUMP_YIELD_FRAMES then n + 1 == length
               else Remains(frames, n + 1, sum, count + 1, length)
  {
    TurnStep(frames, n, bytes, count);
  }

  lemma RemainsNone(frames: seq<Canonical>, n: nat, bytes: nat, count: nat, length: nat)
    requires Remains(frames, n, bytes, count, length) && n == |frames|
    ensures n == length
  {
    assert frames[n..] == [];
  }

  /** One more frame of a turn. */
  lemma TurnStep(frames: seq<Canonical>, n: nat, bytes: nat, count: nat)
    requires n < |frames|
    ensures var sum := bytes + BytesOf(frames[n]);
            TurnLength(frames[n..], bytes, count)
            == if sum >= PUMP_YIELD_BYTES || count + 1 >= PUMP_YIELD_FRAMES then 1
               else 1 + TurnLength(frames[n + 1..], sum, count + 1)
  {
    assert frames[n..][0] == frames[n] && frames[n..][1..] == frames[n + 1..];
  }

  datatype Turn = Yielded | Ended | Threw

  datatype Ingress = Ignored | Accepted | Pressed | Failed

  /** The queue and what was sent before it make up what came since the baseline. */
  ghost predicate Keeps(history: seq<Mutation>, baseline: nat, sent: seq<Canonical>, queue: seq<Canonical>,
                        queueBytes: int, lastSent: Mark, lastQueued: Mark)
  {
    && Continuous(history, queue, lastSent, lastQueued) && baseline <= lastSent.event
    && |sent| == lastSent.event - baseline
    && (forall i :: 0 <= i < |sent| ==> sent[i] == FrameAt(history, baseline + i))
    && queueBytes == TotalBytes(queue)
  }

  lemma KeepsPublish(history: seq<Mutation>, baseline: nat, sent: seq<Canonical>, queue: seq<Canonical>,
                     queueBytes: int, lastSent: Mark, lastQueued: Mark, f: Canonical)
    requires Keeps(history, baseline, sent, queue, queueBytes, lastSent, lastQueued)
    requires f.event == lastQueued.event + 1 && f.pty == lastQueued.pty
    ensures f == FrameAt(history + [f.what], |history|)
    ensures CursorAfter(f) == At(history + [f.what], |history + [f.what]|)
    ensures Keeps(history + [f.what], baseline, sent, queue + [f], queueBytes + BytesOf(f), lastSent, CursorAfter(f))
  {
    P.ContinuousPublish(history, queue, lastSent, lastQueued, f.what);
    P.AtEvent(history, |history|);
    TotalAppend(queue, f);
    forall i | 0 <= i < |sent| ensures sent[i] == FrameAt(history + [f.what], baseline + i) {
      P.AtStable(history, f.what, baseline + i);
    }
  }

  lemma KeepsSend(history: seq<Mutation>, baseline: nat, sent: seq<Canonical>, queue: seq<Canonical>, queueBytes: int,
                  lastSent: Mark, lastQueued: Mark)
    requires Keeps(history, baseline, sent, queue, queueBytes, lastSent, lastQueued) && queue != []
    ensures Keeps(history, baseline, sent + [queue[0]], queue[1..], queueBytes - BytesOf(queue[0]),
                  CursorAfter(queue[0]), lastQueued)
    ensures queue[1..] == [] ==> lastQueued == CursorAfter(queue[0])
  {
    P.ContinuousSend(history, queue, lastSent, lastQueued);
    assert queue[0] == FrameAt(history, lastSent.event + 0);
  }

  class CanonicalPublisher {
    var queue: seq<Canonical>
    var queueBytes: int
    var lastSentCursor: Mark
    var lastQueuedCursor: Mark
    var paused: bool
    var pumping: bool
    var ready: bool
    var stopped: bool
    ghost var history: seq<Mutation>
    ghost var baseline: nat
    ghost var sent: seq<Canonical>    // frames handed to the data channel
    ghost var faulted: bool           // a send threw at a frame that was taken off the queue

    ghost predicate Sound()
      reads this
    {
      && (!stopped && !faulted ==>
            Keeps(history, baseline, sent, queue, queueBytes, lastSentCursor, lastQueuedCursor))
      && (stopped ==> queue == [])
    }

    /** While nothing threw, the queue is bounded by the limits and one frame, and no frame waits in an unpaused
        publisher without a pump. */
    ghost predicate Valid()
      reads this
    {
      && Sound()
      && (!stopped && !faulted ==>
            && |queue| <= MAX_QUEUE_FRAMES + 1 && queueBytes <= MAX_QUEUE_BYTES + MAX_CANONICAL_FRAME_BYTES
            && (ready && !paused && queue != [] ==> pumping))
    }

    /** prepare: everything from the session's cursor on will be published. */
    constructor (ghost history: seq<Mutation>, cursor: Mark)
      requires cursor == At(history, |history|)
      ensures Valid() && !stopped && !faulted && !ready && !paused && !pumping && this.history == history
      ensures baseline == |history| && sent == [] && queue == [] && lastSentCursor == cursor
    {
      queue, queueBytes, paused, pumping, ready, stopped := [], 0, false, false, false, false;
      lastSentCursor, lastQueuedCursor := cursor, cursor;
      this.history, baseline, sent, faulted := history, |history|, [], false;
      P.AtEvent(history, |history|);
    }

    method SchedulePump()
      modifies this`pumping
      ensures pumping == (old(pumping) || (!stopped && ready && !paused && queue != []))
    {
      if stopped || !ready || paused || pumping || |queue| == 0 { return; }
      pumping := true;
    }

    /** The relay acknowledged a cursor; it must be the one that was advertised. */
    method Activate(acknowledged: Mark) returns (ok: bool)
      requires Valid()
      modifies this`ready, this`pumping
      ensures Valid() && ok == (acknowledged == lastSentCursor) && ready == (old(ready) || ok)
    {
      if lastSentCursor != acknowledged { return false; }
      ready := true;
      SchedulePump();
      return true;
    }

    method Dispose()
      modifies this`stopped, this`ready, this`queue, this`queueBytes
      ensures stopped && queue == [] && queueBytes == 0
      ensures !ready || old(stopped)
    {
      stopped, ready, queue, queueBytes := true, false, [], 0;
    }

    /** A frame from the session. It is taken exactly if it is the next of the history and either fits the limits
        or may press a recovery aside. */
    method Enqueue(f: Canonical, canInterruptRecovery: bool) returns (r: Ingress)
      requires Valid()
      modifies this
      ensures Valid() && faulted == old(faulted) && sent == old(sent) && baseline == old(baseline)
      ensures lastSentCursor == old(lastSentCursor)
      ensures r.Ignored? <==> old(stopped)
      ensures r.Failed? <==>
                !old(stopped)
                && (f.event != old(lastQueuedCursor).event + 1 || f.pty != old(lastQueuedCursor).pty
                    || (Over(old(queue), old(queueBytes), f)
                        && (!Near(old(queue), old(queueBytes), f) || !canInterruptRecovery)))
      ensures r.Failed? ==> stopped
      ensures r.Accepted? || r.Pressed? ==>
                && !stopped && history == old(history) + [f.what] && queue == old(queue) + [f]
                && lastQueuedCursor == CursorAfter(f) && (r.Pressed? <==> Over(old(queue), old(queueBytes), f))
                && paused == (old(paused) && !r.Pressed?)
      ensures (r.Accepted? || r.Pressed?) && !faulted ==>
                f == FrameAt(history, |old(history)|) && lastQueuedCursor == At(history, |history|)
    {
      hide FrameAt, At, Keeps;
      if stopped { return Ignored; }
      if f.event != lastQueuedCursor.event + 1 || f.pty != lastQueuedCursor.pty {
        Dispose();
        return Failed;
      }
      var over := Over(queue, queueBytes, f);
      if over && (!Near(queue, queueBytes, f) || !canInterruptRecovery) {
        Dispose();
        return Failed;
      }
      if !faulted { KeepsPublish(history, baseline, sent, queue, queueBytes, lastSentCursor, lastQueuedCursor, f); }
      history := history + [f.what];
      queue, queueBytes, lastQueuedCursor := queue + [f], queueBytes + BytesOf(f), CursorAfter(f);
      if over { paused := false; }
      SchedulePump();
      return if over then Pressed else Accepted;
    }

    method Pause()
      requires Valid()
      modifies this`paused
      ensures Valid() && paused
    {
      paused := true;
    }

    method Resume()
      requires Valid()
      modifies this`paused, this`pumping
      ensures Valid() && (!stopped ==> !paused)
    {
      if stopped { return; }
      paused := false;
      SchedulePump();
    }

    /** What both loops do with the head of the queue: it is taken off, and then sent, unless the send throws. */
    method SendHead(throws: bool)
      requires Valid() && !stopped && queue != []
      modifies this`queue, this`queueBytes, this`lastSentCursor, this`sent, this`faulted
      ensures Valid() && faulted == (old(faulted) || throws) && queue == old(queue)[1..]
      ensures !throws ==> sent == old(sent) + [old(queue)[0]] && lastSentCursor.event == old(queue)[0].event
      ensures !faulted && queue == [] ==> lastQueuedCursor == lastSentCursor
    {
      var f := queue[0];
      if !faulted { KeepsSend(history, baseline, sent, queue, queueBytes, lastSentCursor, lastQueuedCursor); }
      hide Keeps, TotalBytes, FrameAt, At;
      queue, queueBytes := queue[1..], queueBytes - BytesOf(f);
      if throws {
        faulted := true;
      } else {
        sent := sent + [f];
        lastSentCursor := CursorAfter(f);
      }
    }

    /** The pump's next turn: up to a yield, its end, or a throw, which stops the publisher. The first `good`
        sends succeed. */
    method PumpTurn(good: nat) returns (turn: Turn)
      requires Valid() && pumping
      modifies this
      ensures Valid() && history == old(history) && baseline == old(baseline) && paused == old(paused)
      ensures turn.Threw? <==> stopped && !old(stopped)
      ensures var n := if old(!stopped && ready && !paused) then TurnLength(old(queue), 0, 0) else 0;
              if turn.Threw? then good < n
              else
                && n <= good && faulted == old(faulted) && queue == old(queue)[n..]
                && sent == old(sent) + old(queue)[..n]
                && (turn.Ended? ==> (!pumping || (!stopped && ready && !paused && queue != [])))
    {
      hide TurnLength, Keeps, FrameAt, At, BytesOf, Taken, Remains;
      ghost var all, before := queue, sent;
      ghost var length := TurnLength(queue, 0, 0);
      ghost var n := 0;
      var bytes: nat, count: nat, left: nat := 0, 0, good;
      TakenNone(all, before);
      RemainsAll(all);
      while !stopped && ready && !paused && |queue| > 0
        invariant Valid() && pumping && unchanged(`faulted) && unchanged(`history) && unchanged(`baseline)
                  && unchanged(`paused) && unchanged(`stopped) && unchanged(`ready)
        invariant Taken(all, before, n, queue, sent) && Remains(all, n, bytes, count, length) && n + left == good
        invariant stopped || !ready || paused ==> n == 0
        decreases |queue|
      {
        var f := queue[0];
        TakenNext(all, before, n, queue, sent);
        RemainsNext(all, n, bytes, count, length);
        SendHead(left == 0);
        if left == 0 {
          pumping := false;
          Dispose();
          return Threw;
        }
        if |queue| == 0 { lastQueuedCursor := lastSentCursor; }
        bytes, count, left, n := bytes + BytesOf(f), count + 1, left - 1, n + 1;
        if bytes >= PUMP_YIELD_BYTES || count >= PUMP_YIELD_FRAMES {
          TakenMeans(all, before, n, queue, sent);
          return Yielded;
        }
      }
      TakenMeans(all, before, n, queue, sent);
      if n == |all| { RemainsNone(all, n, bytes, count, length); }
      pumping := false;
      SchedulePump();
      return Ended;
    }

    /** One turn of flushThrough. Unless it throws, it sends just what the commit covers, and when it has sent all of
        that, it says whether the commit was reached, as it must be if the commit is a cursor of the history that
        was not passed before. */
    method FlushTurn(commit: Mark, good: nat) returns (turn: Turn, reached: bool)
      requires Valid()
      modifies this
      ensures Valid() && history == old(history) && baseline == old(baseline) && paused == old(paused)
              && stopped == old(stopped)
      ensures faulted == (old(faulted) || turn.Threw?)
      ensures var n := TurnLength(old(queue)[..Covered(old(queue), commit)], 0, 0);
              if turn.Threw? then good < n
              else
                && n <= good && queue == old(queue)[n..] && sent == old(sent) + old(queue)[..n]
                && (turn.Ended? ==> n == Covered(old(queue), commit) && reached == (lastSentCursor == commit))
      ensures turn.Ended? && !stopped && !faulted ==>
                Recorded(history, commit) && old(lastSentCursor).event <= commit.event ==> reached
    {
      hide TurnLength, Keeps, Covered, FrameAt, At, BytesOf, Taken, Remains;
      ghost var all, before := queue, sent;
      ghost var covered := Covered(queue, commit);
      ghost var part := queue[..covered];
      ghost var length := TurnLength(part, 0, 0);
      ghost var n := 0;
      var bytes: nat, count: nat, left: nat := 0, 0, good;
      TakenNone(all, before);
      RemainsAll(part);
      while !stopped && |queue| > 0 && queue[0].event <= commit.event
        invariant Valid() && unchanged(`faulted) && history == old(history) && baseline == old(baseline)
        invariant paused == old(paused) && stopped == old(stopped) && ready == old(ready) && pumping == old(pumping)
        invariant Taken(all, before, n, queue, sent) && Remains(part, n, bytes, count, length) && n + left == good
        invariant n <= covered
        invariant lastSentCursor.event <= commit.event || lastSentCursor == old(lastSentCursor)
        decreases |queue|
      {
        var f := queue[0];
        TakenMeans(all, before, n, queue, sent);
        CoversNext(all, commit, n);
        TakenNext(all, before, n, queue, sent);
        RemainsNext(part, n, bytes, count, length);
        SendHead(left == 0);
        if left == 0 { return Threw, false; }
        bytes, count, left, n := bytes + BytesOf(f), count + 1, left - 1, n + 1;
        if bytes >= PUMP_YIELD_BYTES || count >= PUMP_YIELD_FRAMES {
          TakenMeans(all, before, n, queue, sent);
          return Yielded, false;
        }
      }
      TakenMeans(all, before, n, queue, sent);
      StopsCovered(all, commit, n);
      if n == covered { RemainsNone(part, n, bytes, count, length); }
      if |queue| == 0 {
        if !stopped && !faulted {
          LastIsSent(history, baseline, sent, queue, queueBytes, lastSentCursor, lastQueuedCursor);
        }
        lastQueuedCursor := lastSentCursor;
      }
      if !stopped && !faulted && Recorded(history, commit) && old(lastSentCursor).event <= commit.event {
        Reached(history, baseline, sent, queue, queueBytes, lastSentCursor, lastQueuedCursor, commit);
      }
      return Ended, lastSentCursor == commit;
    }
  }

  predicate Over(queue: seq<Canonical>, queueBytes: int, f: Canonical) {
    |queue| + 1 > MAX_QUEUE_FRAMES || queueBytes + BytesOf(f) > MAX_QUEUE_BYTES
  }

  predicate Near(queue: seq<Canonical>, queueBytes: int, f: Canonical) {
    |queue| + 1 <= MAX_QUEUE_FRAMES + 1 && queueBytes + BytesOf(f) <= MAX_QUEUE_BYTES + MAX_CANONICAL_FRAME_BYTES
  }

  lemma {:induction false} CoversNext(frames: seq<Canonical>, commit: Mark, n: nat)
    requires n <= Covered(frames, commit) && n < |frames| && frames[n].event <= commit.event
    ensures n < Covered(frames, commit)
  {
  }

  lemma {:induction false} StopsCovered(frames: seq<Canonical>, commit: Mark, n: nat)
    requires n <= Covered(frames, commit)
    ensures n == |frames| || frames[n].event > commit.event ==> n == Covered(frames, commit)
  {
  }

  lemma LastIsSent(history: seq<Mutation>, baseline: nat, sent: seq<Canonical>, queue: seq<Canonical>, queueBytes: int,
                   lastSent: Mark, lastQueued: Mark)
    requires Keeps(history, baseline, sent, queue, queueBytes, lastSent, lastQueued)
    ensures queue == [] ==> lastQueued == lastSent
  {
  }

  lemma Reached(history: seq<Mutation>, baseline: nat, sent: seq<Canonical>, queue: seq<Canonical>, queueBytes: int,
                lastSent: Mark, lastQueued: Mark, commit: Mark)
    requires Keeps(history, baseline, sent, queue, queueBytes, lastSent, lastQueued) && Recorded(history, commit)
    requires lastSent.event <= commit.event && (queue == [] || queue[0].event > commit.event)
    ensures lastSent == commit
  {
    if queue != [] { P.ContinuousSend(history, queue, lastSent, lastQueued); }
  }
}
