/** How far a Browser data socket has been served, and how much of that it has yet to acknowledge. */
module RelayDeliveries {
  import opened Collections
  import opened DataFrames

  const DELIVERY_EVENT_OVERHEAD_BYTES: int := 64
  const MAX_DELIVERY_OUTSTANDING_BYTES: int := 512 * 1024
  const WARM_REPLAY_MAX_OUTSTANDING_BYTES: int := 256 * 1024

  /** A position in the session: the last event, and the PTY offset after it. The source stores the two
      in separate fields that are always set together. */
  datatype Mark = Mark(event: int, pty: int)

  predicate AtMost(a: Mark, b: Mark) { a.event <= b.event && a.pty <= b.pty }

  /** What lies between two marks, counted in bytes and events. */
  function Outstanding(acked: Mark, sent: Mark): int {
    sent.pty - acked.pty + (sent.event - acked.event) * DELIVERY_EVENT_OVERHEAD_BYTES
  }

  datatype DataState = AwaitingAttach | CatchingUp | Synced

  datatype Cursors = Cursors(dataState: Option<DataState>, first: Option<Mark>, acked: Option<Mark>, sent: Option<Mark>)

  datatype Advancement =
    | CreditExceeded
    | SequenceError
    | Advanced(next: Cursors, outstanding: int)

  /** Where a frame ends, if it may directly follow `at`. */
  function After(at: Mark, f: Frame): Option<Mark> {
    if f.kind == REPLAY_COMMIT then
      if |f.payload| == 0 && f.eventSeq == at.event && f.ptyOffset == at.pty then Some(at) else None
    else if f.kind == RESIZE_APPLIED then
      if |f.payload| == 16 && f.eventSeq == at.event + 1 && f.ptyOffset == at.pty then Some(Mark(f.eventSeq, at.pty))
      else None
    else if f.kind == PTY_OUTPUT then
      if f.ptyOffset + |f.payload| < U64 && f.eventSeq == at.event + 1 && f.ptyOffset == at.pty
      then Some(Mark(f.eventSeq, at.pty + |f.payload|)) else None
    else None
  }

  /** One frame: it must follow what was sent, it must not fall behind what was acknowledged, and it must
      fit the credit. */
  function AdvanceFrame(c: Cursors, f: Frame): Advancement {
    if c.dataState.None? || c.dataState.value.AwaitingAttach? || c.sent.None? || c.acked.None? then SequenceError
    else
      var next := After(c.sent.value, f);
      if next.None? || f.eventSeq < c.acked.value.event || next.value.pty < c.acked.value.pty then SequenceError
      else
        var outstanding := Outstanding(c.acked.value, next.value);
        if outstanding > MAX_DELIVERY_OUTSTANDING_BYTES then CreditExceeded
        else Advanced(c.(sent := next, dataState := if f.kind == REPLAY_COMMIT then Some(Synced) else c.dataState),
                      outstanding)
  }

  /** Frame by frame; the first error ends it. */
  function AdvanceEach(c: Cursors, frames: seq<Frame>): Advancement
    requires frames != []
    decreases |frames|
  {
    var first := AdvanceFrame(c, frames[0]);
    if !first.Advanced? || |frames| == 1 then first else AdvanceEach(first.next, frames[1..])
  }

  lemma {:induction false} AdvanceEachAppend(c: Cursors, frames: seq<Frame>, f: Frame)
    requires frames != []
    ensures AdvanceEach(c, frames + [f]) ==
            var before := AdvanceEach(c, frames);
            if before.Advanced? then AdvanceFrame(before.next, f) else before
    decreases |frames|
  {
    var first := AdvanceFrame(c, frames[0]);
    assert (frames + [f])[1..] == frames[1..] + [f];
    if first.Advanced? && |frames| > 1 {
      AdvanceEachAppend(first.next, frames[1..], f);
    }
    hide After;
  }

  /** The batched cursor: running variables, one pass, and an early return at the first error. It gives
      exactly what advancing frame by frame gives. */
  method AdvanceDeliveryCursorBatch(c: Cursors, frames: seq<Frame>) returns (r: Advancement)
    ensures r == if frames == [] then SequenceError else AdvanceEach(c, frames)
  {
    if |frames| == 0 { return SequenceError; }
    if c.dataState.None? || c.dataState.value.AwaitingAttach? || c.sent.None? || c.acked.None? { return SequenceError; }
    var previousSentEvent, previousSentPty := c.sent.value.event, c.sent.value.pty;
    var acked := c.acked.value;
    var dataState := c.dataState.value;
    var outstandingBytes := 0;
    for i := 0 to |frames|
      invariant dataState.CatchingUp? || dataState.Synced?
      invariant i > 0 ==>
                  AdvanceEach(c, frames[..i])
                  == Advanced(c.(dataState := Some(dataState), sent := Some(Mark(previousSentEvent, previousSentPty))),
                              outstandingBytes)
      invariant i == 0 ==> dataState == c.dataState.value && Mark(previousSentEvent, previousSentPty) == c.sent.value
    {
      var frame := frames[i];
      ghost var now := c.(dataState := Some(dataState), sent := Some(Mark(previousSentEvent, previousSentPty)));
      EachUpTo(c, frames, i, now);
      if frame.kind != PTY_OUTPUT && frame.kind != RESIZE_APPLIED && frame.kind != REPLAY_COMMIT {
        return SequenceError;
      }
      if frame.kind == REPLAY_COMMIT && |frame.payload| != 0 { return SequenceError; }
      if frame.kind == RESIZE_APPLIED && |frame.payload| != 16 { return SequenceError; }
      if frame.kind == PTY_OUTPUT && frame.ptyOffset > U64 - 1 - |frame.payload| { return SequenceError; }
      var expectedEvent := if frame.kind == REPLAY_COMMIT then previousSentEvent else previousSentEvent + 1;
      if frame.eventSeq != expectedEvent || frame.ptyOffset != previousSentPty { return SequenceError; }
      var nextPtyOffset := if frame.kind == PTY_OUTPUT then frame.ptyOffset + |frame.payload| else frame.ptyOffset;
      if frame.eventSeq < acked.event || nextPtyOffset < acked.pty { return SequenceError; }
      outstandingBytes := Outstanding(acked, Mark(frame.eventSeq, nextPtyOffset));
      if outstandingBytes > MAX_DELIVERY_OUTSTANDING_BYTES { return CreditExceeded; }
      previousSentEvent, previousSentPty := frame.eventSeq, nextPtyOffset;
      if frame.kind == REPLAY_COMMIT { dataState := Synced; }
    }
    assert frames[..|frames|] == frames;
    r := Advanced(c.(dataState := Some(dataState), sent := Some(Mark(previousSentEvent, previousSentPty))),
                  outstandingBytes);
  }

  /** One more frame of the batch, from where the running variables stand. */
  lemma EachUpTo(c: Cursors, frames: seq<Frame>, i: nat, now: Cursors)
    requires i < |frames|
    requires if i == 0 then now == c
             else AdvanceEach(c, frames[..i]).Advanced? && AdvanceEach(c, frames[..i]).next == now
    ensures AdvanceEach(c, frames[..i + 1]) == AdvanceFrame(now, frames[i])
    ensures !AdvanceFrame(now, frames[i]).Advanced? ==> AdvanceEach(c, frames) == AdvanceFrame(now, frames[i])
  {
    hide AdvanceFrame;
    if i == 0 {
      assert frames[..1] == [frames[0]];
    } else {
      assert frames[..i + 1] == frames[..i] + [frames[i]];
      AdvanceEachAppend(c, frames[..i], frames[i]);
    }
    if !AdvanceFrame(now, frames[i]).Advanced? { ErrorStands(c, frames, i + 1); }
  }

  lemma {:induction false} ErrorStands(c: Cursors, frames: seq<Frame>, n: nat)
    requires 0 < n <= |frames| && !AdvanceEach(c, frames[..n]).Advanced?
    ensures AdvanceEach(c, frames) == AdvanceEach(c, frames[..n])
    decreases n
  {
    hide AdvanceFrame;
    var first := AdvanceFrame(c, frames[0]);
    if first.Advanced? && n > 1 {
      assert frames[..n][1..] == frames[1..][..n - 1];
      ErrorStands(first.next, frames[1..], n - 1);
    }
  }
}
