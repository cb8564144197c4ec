/** Positions in a session's history of terminal mutations, and the one rule by which they advance. */
module ReplicaCursors {
  import opened Collections
  import opened DataFrames

  datatype Cursor = Cursor(sessionEpoch: int, deliveryGeneration: int, lastEventSeq: int, nextPtyOffset: int)

  /** What a frame does to a terminal: output bytes, or a resize to what the payload decodes to. */
  datatype Mutation = Mutation(kind: int, payload: seq<byte>)

  function MutationOf(f: Frame): Mutation { Mutation(f.kind, f.payload) }

  /** A frame advances a cursor only if it is the very next mutation of its session and delivery. */
  function Advance(c: Cursor, f: Frame): Result<Cursor> {
    if f.sessionEpoch != c.sessionEpoch then Err(BadEpoch)
    else if f.deliveryGeneration != c.deliveryGeneration then Err(BadGeneration)
    else if f.eventSeq != c.lastEventSeq + 1 then Err(EventGap)
    else if f.ptyOffset != c.nextPtyOffset then Err(PtyOffsetGap)
    else if f.kind == PTY_OUTPUT then
      Ok(c.(lastEventSeq := f.eventSeq, nextPtyOffset := c.nextPtyOffset + |f.payload|))
    else if f.kind == RESIZE_APPLIED then
      if DecodeResize(f.payload).Err? then Err(DecodeResize(f.payload).error) else Ok(c.(lastEventSeq := f.eventSeq))
    else Err(BadKind)
  }

  /** A run of frames applied one after the other. */
  function AdvanceAll(c: Cursor, frames: seq<Frame>): Result<Cursor>
    decreases |frames|
  {
    if frames == [] then Ok(c)
    else
      var next := Advance(c, frames[0]);
      if next.Err? then next else AdvanceAll(next.value, frames[1..])
  }

  lemma {:induction false} AdvanceAllAppend(c: Cursor, frames: seq<Frame>, f: Frame)
    requires AdvanceAll(c, frames).Ok?
    ensures AdvanceAll(c, frames + [f]) == Advance(AdvanceAll(c, frames).value, f)
    decreases |frames|
  {
    if frames == [] {
      assert frames + [f] == [f];
      assert AdvanceAll(c, [f]) == Advance(c, f);
    } else {
      assert (frames + [f])[1..] == frames[1..] + [f];
      hide Advance;
      AdvanceAllAppend(Advance(c, frames[0]).value, frames[1..], f);
    }
  }
}
