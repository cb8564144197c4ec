/** A batch of canonical Host frames, committed as one cursor plan and fanned out over a shared buffer. */
module HostDataBatches {
  import opened Collections
  import opened DataFrames
  import opened DataFrameBuffers
  import opened ReplicaCursors
  import opened RelayDeliveries
  import R = Relays

  // ---- One batch, or one frame after the other ----

  /** The sockets whose send throws at the next frame, and after how many frames it does from there on. */
  function Throwing(cuts: map<int, nat>): set<int> { set stream | stream in cuts && cuts[stream] == 0 :: stream }

  function Later(cuts: map<int, nat>): map<int, nat> {
    map stream | stream in cuts && cuts[stream] > 0 :: cuts[stream] - 1
  }

  function OneByOne(r: R.Relay, frames: seq<Frame>, around: R.Surroundings, cuts: map<int, nat>): R.Relay
    decreases |frames|
  {
    if frames == [] then r
    else OneByOne(R.HandleDataFrame(r, frames[0], around, Throwing(cuts)), frames[1..], around, Later(cuts))
  }

  /** A socket served frame by frame, with a throw at one of them. */
  function InTurn(s: R.Socket, frames: seq<Frame>, generation: int, stream: int, cut: Option<nat>): R.Socket
    decreases |frames|
  {
    if frames == [] then s
    else InTurn(R.Deliver(s, frames[0], generation, stream, cut == Some(0)), frames[1..], generation, stream,
                Sooner(cut))
  }

  function Sooner(cut: Option<nat>): Option<nat> { if cut.Some? && cut.value > 0 then Some(cut.value - 1) else None }

  lemma {:induction false} InTurnWhole(s: R.Socket, frames: seq<Frame>, generation: int, stream: int, cut: Option<nat>)
    requires cut.None? || cut.value >= |frames|
    ensures InTurn(s, frames, generation, stream, cut) == R.DeliverInTurn(s, frames, generation, stream)
    decreases |frames|
  {
    hide R.Deliver;
    if frames != [] {
      InTurnWhole(R.Deliver(s, frames[0], generation, stream, false), frames[1..], generation, stream, Sooner(cut));
    }
  }

  /** Serving in turn only ever adds to the stream. */
  lemma {:induction false} InTurnExtends(s: R.Socket, frames: seq<Frame>, generation: int, stream: int,
                                         cut: Option<nat>)
    ensures s.stream <= InTurn(s, frames, generation, stream, cut).stream
    decreases |frames|
  {
    hide AdvanceFrame;
    if frames != [] {
      InTurnExtends(R.Deliver(s, frames[0], generation, stream, cut == Some(0)), frames[1..], generation, stream,
                    Sooner(cut));
    }
  }

  /** Frames that lie beyond the next event are not for this socket. */
  lemma {:induction false} BeyondSkipped(s: R.Socket, frames: seq<Frame>, generation: int, stream: int,
                                         cut: Option<nat>)
    requires s.cursors.sent.Some?
    requires forall f :: f in frames ==> R.IsMutation(f) && f.eventSeq > s.cursors.sent.value.event + 1
    ensures InTurn(s, frames, generation, stream, cut) == s
    decreases |frames|
  {
    if frames != [] {
      assert frames[0] in frames && forall f :: f in frames[1..] ==> f in frames;
      assert !AdvanceFrame(s.cursors, frames[0]).Advanced?;
      hide AdvanceFrame;
      BeyondSkipped(s, frames[1..], generation, stream, Sooner(cut));
    }
  }

  /** The events of a run of frames that commits are consecutive. */
  lemma {:induction false} CommittedEvents(r: R.Relay, head: Mark, frames: seq<Frame>)
    requires R.CommittedEach(r, head, frames).Some?
    ensures forall i :: 0 <= i < |frames| ==> frames[i].eventSeq == head.event + 1 + i
    decreases |frames|
  {
    if frames != [] {
      var next := R.Committed(head, frames[0]).value;
      assert next.event == head.event + 1 == frames[0].eventSeq;
      hide R.Committed;
      CommittedEvents(r, next, frames[1..]);
      forall i | 0 <= i < |frames| ensures frames[i].eventSeq == head.event + 1 + i {
        if i > 0 { assert frames[i] == frames[1..][i - 1]; }
      }
    }
  }

  lemma FirstAdvances(c: Cursors, frames: seq<Frame>)
    requires frames != [] && AdvanceEach(c, frames).Advanced? && R.IsMutation(frames[0])
    ensures c.sent.Some? && frames[0].eventSeq == c.sent.value.event + 1
  {
  }

  /** A throw in the middle: what went out is the same either way, and nothing follows. */
  lemma {:induction false} CutInTurn(s: R.Socket, frames: seq<Frame>, generation: int, stream: int, k: nat)
    requires k < |frames| && s.open && s.generation == generation && AdvanceEach(s.cursors, frames).Advanced?
    requires forall i :: 0 <= i < |frames| ==> R.IsMutation(frames[i]) && frames[i].eventSeq == frames[0].eventSeq + i
    ensures InTurn(s, frames, generation, stream, Some(k)).stream
         == s.stream + R.RewrittenEach(frames[..k], generation, stream)
    decreases |frames|
  {
    FirstAdvances(s.cursors, frames);
    var rest := frames[1..];
    assert forall i :: 0 <= i < |rest| ==> rest[i] == frames[i + 1];
    hide AdvanceFrame;
    if k == 0 {
      assert R.Deliver(s, frames[0], generation, stream, true) == s;
      BeyondSkipped(s, rest, generation, stream, None);
      assert R.RewrittenEach(frames[..0], generation, stream) == [];
    } else {
      var next := R.Deliver(s, frames[0], generation, stream, false);
      CutInTurn(next, rest, generation, stream, k - 1);
      assert R.RewrittenEach(frames[..k], generation, stream)
          == [R.Rewritten(frames[0], generation, stream)] + R.RewrittenEach(rest[..k - 1], generation, stream);
      assert next.stream + R.RewrittenEach(rest[..k - 1], generation, stream)
          == s.stream + R.RewrittenEach(frames[..k], generation, stream);
    }
  }

  lemma NoPinStays(r: R.Relay, f: Frame, throws: set<int>)
    requires !R.HasPinnedDelivery(r) && R.Committed(r.head, f).Some? && f.deliveryGeneration == 0
    ensures !R.HasPinnedDelivery(R.Canonical(r, f, throws))
  {
    var n := R.Canonical(r, f, throws);
    hide R.HasPinnedDelivery;
    forall stream | stream in n.sockets ensures !R.PinnedInProgress(n.sockets[stream]) {
      R.NotPinned(r, stream);
      SyncedStays(r.sockets[stream], f, if stream in r.generations then r.generations[stream] else 0, stream,
                  stream in throws);
    }
    NonePinned(n);
  }

  lemma NonePinned(r: R.Relay)
    requires forall stream :: stream in r.sockets ==> !R.PinnedInProgress(r.sockets[stream])
    ensures !R.HasPinnedDelivery(r)
  {
  }

  lemma SyncedStays(s: R.Socket, f: Frame, generation: int, stream: int, throws: bool)
    ensures R.IsSynced(s) ==> R.IsSynced(R.Deliver(s, f, generation, stream, throws))
  {
    hide After;
  }

  /** One by one, a valid batch moves the head as the batch does, and serves each synced socket in turn. */
  lemma {:induction false} OneByOneServes(r: R.Relay, frames: seq<Frame>, around: R.Surroundings, cuts: map<int, nat>)
    requires !r.failed && !R.HasPinnedDelivery(r) && forall f :: f in frames ==> f.streamId == 0 && R.IsMutation(f)
    requires R.CommittedEach(r, r.head, frames).Some?
    ensures var n := OneByOne(r, frames, around, cuts);
            && !n.failed && n.head == R.CommittedEach(r, r.head, frames).value && n.sockets.Keys == r.sockets.Keys
            && n.generations == r.generations
            && forall stream :: stream in r.sockets ==> n.sockets[stream] == ServedInTurn(r, frames, cuts, stream)
    decreases |frames|
  {
    if frames != [] {
      var f := frames[0];
      assert f in frames && forall x :: x in frames[1..] ==> x in frames;
      var m := R.HandleDataFrame(r, f, around, Throwing(cuts));
      assert m == R.Canonical(r, f, Throwing(cuts));
      NoPinStays(r, f, Throwing(cuts));
      CommittedSame(r, m, m.head, frames[1..]);
      hide R.Deliver, R.HasPinnedDelivery, R.Committed;
      OneByOneServes(m, frames[1..], around, Later(cuts));
      var n := OneByOne(m, frames[1..], around, Later(cuts));
      forall stream | stream in r.sockets ensures n.sockets[stream] == ServedInTurn(r, frames, cuts, stream) {
        CutsLater(cuts, stream);
        if R.IsSynced(r.sockets[stream]) && stream in r.generations {
          SyncedStays(r.sockets[stream], f, r.generations[stream], stream, stream in Throwing(cuts));
        }
      }
    }
  }

  lemma CutsLater(cuts: map<int, nat>, stream: int)
    ensures R.CutOf(Later(cuts), stream) == Sooner(R.CutOf(cuts, stream))
    ensures stream in Throwing(cuts) <==> R.CutOf(cuts, stream) == Some(0)
  {
  }

  function ServedInTurn(r: R.Relay, frames: seq<Frame>, cuts: map<int, nat>, stream: int): R.Socket
    requires stream in r.sockets
  {
    var s := r.sockets[stream];
    if R.IsSynced(s) && stream in r.generations
    then InTurn(s, frames, r.generations[stream], stream, R.CutOf(cuts, stream)) else s
  }

  lemma {:induction false} CommittedSame(r: R.Relay, n: R.Relay, head: Mark, frames: seq<Frame>)
    requires n.sessionEpoch == r.sessionEpoch
    ensures R.CommittedEach(n, head, frames) == R.CommittedEach(r, head, frames)
    decreases |frames|
  {
    hide R.Committed;
    if frames != [] && R.Committed(head, frames[0]).Some? {
      CommittedSame(r, n, R.Committed(head, frames[0]).value, frames[1..]);
    }
  }

  /** A batch that validates gives what handling its frames one after the other gives, whichever sends throw where:
      the same head, and to every Browser that it can serve the same frames. The cursors are the same too, unless
      the send threw: then the batch records none of what went out. A Browser that the batch cannot serve in full it
      leaves untouched, while frame by frame it may have received a first part. */
  lemma BatchIsOneByOne(r: R.Relay, frames: seq<Frame>, around: R.Surroundings, cuts: map<int, nat>, stream: int)
    requires !r.failed && R.TakenAsBatch(r, frames) && R.CommittedEach(r, r.head, frames).Some? && stream in r.sockets
    ensures var n := R.Batch(r, frames, cuts); var m := OneByOne(r, frames, around, cuts); var s := r.sockets[stream];
            var cut := R.CutOf(cuts, stream);
            && n.head == m.head && !n.failed && !m.failed && stream in n.sockets && stream in m.sockets
            && (!R.IsSynced(s) ==> n.sockets[stream] == m.sockets[stream] == s)
            && (R.IsSynced(s) && AdvanceEach(s.cursors, frames).Advanced? ==>
                  && n.sockets[stream].stream == m.sockets[stream].stream
                  && if cut.None? || cut.value >= |frames| then n.sockets[stream] == m.sockets[stream]
                     else n.sockets[stream].cursors == s.cursors)
            && (R.IsSynced(s) && !AdvanceEach(s.cursors, frames).Advanced? ==>
                  n.sockets[stream] == s && s.stream <= m.sockets[stream].stream)
  {
    OneByOneServes(r, frames, around, cuts);
    var s := r.sockets[stream];
    var cut := R.CutOf(cuts, stream);
    if R.IsSynced(s) && stream in r.generations {
      ServedAlike(r, s, frames, r.generations[stream], stream, cut);
      InTurnExtends(s, frames, r.generations[stream], stream, cut);
    }
    hide OneByOne, R.CommittedEach, AdvanceEach, InTurn, R.DeliverEach, R.HasPinnedDelivery;
  }

  lemma ServedAlike(r: R.Relay, s: R.Socket, frames: seq<Frame>, generation: int, stream: int, cut: Option<nat>)
    requires frames != [] && R.CommittedEach(r, r.head, frames).Some? && forall f :: f in frames ==> R.IsMutation(f)
    ensures var n := R.DeliverEach(s, frames, generation, stream, cut);
            var m := InTurn(s, frames, generation, stream, cut);
            if !AdvanceEach(s.cursors, frames).Advanced? then n == s
            else n.stream == m.stream && if cut.None? || cut.value >= |frames| then n == m else n.cursors == s.cursors
  {
    if !s.open || s.generation != generation {
      ClosedStays(s, frames, generation, stream, cut);
    } else if AdvanceEach(s.cursors, frames).Advanced? {
      CommittedEvents(r, r.head, frames);
      hide AdvanceEach, R.CommittedEach;
      if cut.None? || cut.value >= |frames| {
        R.EachIsInTurn(s, frames, generation, stream);
        InTurnWhole(s, frames, generation, stream, cut);
      } else {
        forall i | 0 <= i < |frames| ensures R.IsMutation(frames[i]) { assert frames[i] in frames; }
        CutInTurn(s, frames, generation, stream, cut.value);
      }
    }
  }

  lemma {:induction false} ClosedStays(s: R.Socket, frames: seq<Frame>, generation: int, stream: int, cut: Option<nat>)
    requires !s.open || s.generation != generation
    ensures InTurn(s, frames, generation, stream, cut) == s
    decreases |frames|
  {
    if frames != [] { ClosedStays(s, frames[1..], generation, stream, Sooner(cut)); }
  }

  // ---- The shared buffer ----

  /** One frame's bytes with the delivery fields overwritten. */
  function Readdressed(bytes: seq<byte>, generation: nat, stream: nat): (r: seq<byte>)
    requires |bytes| >= DATA_HEADER_BYTES
    ensures |r| == |bytes|
  {
    SetField(SetField(bytes, 16, 8, generation), 40, 4, stream)
  }

  ghost predicate Framed(frames: seq<seq<byte>>) {
    forall i :: 0 <= i < |frames| ==> |frames[i]| >= DATA_HEADER_BYTES
  }

  function ReaddressedAll(frames: seq<seq<byte>>, generation: nat, stream: nat): (r: seq<seq<byte>>)
    requires forall i :: 0 <= i < |frames| ==> |frames[i]| >= DATA_HEADER_BYTES
    ensures |r| == |frames|
    ensures forall i :: 0 <= i < |r| ==> r[i] == Readdressed(frames[i], generation, stream)
  {
    seq(|frames|, i requires 0 <= i < |frames| => Readdressed(frames[i], generation, stream))
  }

  lemma {:induction false} FlattenAppend(a: seq<seq<byte>>, x: seq<byte>)
    ensures Flatten(a + [x]) == Flatten(a) + x
  {
    if a == [] {
      assert a + [x] == [x] && Flatten([x]) == x + Flatten([]);
    } else {
      FlattenAppend(a[1..], x);
      assert (a + [x])[1..] == a[1..] + [x];
    }
  }

  lemma {:induction false} FlattenLength(a: seq<seq<byte>>, b: seq<seq<byte>>)
    requires |a| == |b| && forall i :: 0 <= i < |a| ==> |a[i]| == |b[i]|
    ensures |Flatten(a)| == |Flatten(b)|
  {
    if a != [] { FlattenLength(a[1..], b[1..]); }
  }

  lemma {:induction false} FlattenSplits(frames: seq<seq<byte>>, i: nat)
    requires i < |frames|
    ensures Flatten(frames) == Flatten(frames[..i]) + frames[i] + Flatten(frames[i + 1..])
    decreases i
  {
    if i == 0 {
      assert frames[..0] == [];
    } else {
      FlattenSplits(frames[1..], i - 1);
      assert frames[..i][0] == frames[0] && frames[..i][1..] == frames[1..][..i - 1];
      assert frames[1..][i..] == frames[i + 1..];
    }
  }

  /** Writing a field at an offset of the buffer is writing it in the frame that is there. */
  lemma SetWithin(before: seq<byte>, bytes: seq<byte>, after: seq<byte>, at: nat, width: nat, value: nat)
    requires at + width <= |bytes|
    ensures SetField(before + bytes + after, |before| + at, width, value)
            == before + SetField(bytes, at, width, value) + after
  {
  }

  /** rewriteDecodedDeliveryInPlace, for the frame at an offset of the shared buffer. */
  method RewriteInPlace(buffer: array<byte>, offset: nat, generation: nat, stream: nat,
                        ghost before: seq<byte>, ghost bytes: seq<byte>, ghost after: seq<byte>)
    requires buffer[..] == before + bytes + after && |before| == offset && |bytes| >= DATA_HEADER_BYTES
    modifies buffer
    ensures buffer[..] == before + Readdressed(bytes, generation, stream) + after
  {
    SetUint(buffer, offset + 16, 8, generation);
    SetWithin(before, bytes, after, 16, 8, generation);
    SetUint(buffer, offset + 40, 4, stream);
    SetWithin(before, SetField(bytes, 16, 8, generation), after, 40, 4, stream);
    hide SetField;
  }

  /** The buffer once the first i frames are rewritten. */
  function Progress(frames: seq<seq<byte>>, done: seq<seq<byte>>, i: nat): seq<byte>
    requires i <= |frames| == |done|
  {
    Flatten(done[..i]) + Flatten(frames[i..])
  }

  lemma ProgressAt(frames: seq<seq<byte>>, done: seq<seq<byte>>, i: nat)
    requires i < |frames| == |done|
    ensures var before, after := Flatten(done[..i]), Flatten(frames[i + 1..]);
            && Progress(frames, done, i) == before + frames[i] + after
            && Progress(frames, done, i + 1) == before + done[i] + after
            && Flatten(done[..i + 1]) == before + done[i]
  {
    assert frames[i..][0] == frames[i] && frames[i..][1..] == frames[i + 1..];
    assert done[..i + 1] == done[..i] + [done[i]];
    FlattenAppend(done[..i], done[i]);
  }

  lemma ProgressEnds(frames: seq<seq<byte>>, done: seq<seq<byte>>)
    requires |frames| == |done|
    ensures Progress(frames, done, 0) == Flatten(frames) && Progress(frames, done, |frames|) == Flatten(done)
    ensures Flatten(done[..0]) == []
  {
    assert frames[0..] == frames && done[..0] == [];
    assert done[..|frames|] == done && frames[|frames|..] == [];
  }

  /** The whole batch, frame by frame, in the buffer it arrived in. */
  method RewriteBatchInPlace(buffer: array<byte>, frames: seq<seq<byte>>, generation: nat, stream: nat)
    requires Framed(frames) && buffer[..] == Flatten(frames)
    modifies buffer
    ensures buffer[..] == Flatten(ReaddressedAll(frames, generation, stream))
  {
    ghost var done := ReaddressedAll(frames, generation, stream);
    var offset := 0;
    ProgressEnds(frames, done);
    hide Progress, Flatten, Readdressed;
    for i := 0 to |frames|
      invariant 0 <= offset == |Flatten(done[..i])|
      invariant buffer[..] == Progress(frames, done, i)
    {
      ProgressAt(frames, done, i);
      RewriteInPlace(buffer, offset, generation, stream, Flatten(done[..i]), frames[i], Flatten(frames[i + 1..]));
      offset := offset + |frames[i]|;
    }
  }

  /** What is sent for a batch decodes to its frames with only generation and stream changed. */
  lemma ReaddressedDecodes(frames: seq<seq<byte>>, generation: nat, stream: nat)
    requires Batch(frames) && Framed(frames) && InU64(generation) && InU32(stream)
    ensures var sent := ReaddressedAll(frames, generation, stream);
            && DecodeBatch(Flatten(sent)) == Ok(sent)
            && forall i :: 0 <= i < |frames| ==>
                 Decode(frames[i]).Ok?
                 && Decode(sent[i]) == Ok(Decode(frames[i]).value.(deliveryGeneration := generation,
                                                                   streamId := stream))
  {
    var sent := ReaddressedAll(frames, generation, stream);
    forall i | 0 <= i < |frames|
      ensures Decode(sent[i]) == Ok(Decode(frames[i]).value.(deliveryGeneration := generation, streamId := stream))
    {
      DecodeOfRewrite(frames[i], generation, stream);
    }
    FlattenLength(frames, sent);
    hide Decode, Readdressed;
    assert Batch(sent);
    EncodesBatch(sent);
    DecodeOfEncodeBatch(sent);
    hide DecodeBatch;
  }

  // ---- Fan-out over the shared buffer ----

  /** A data socket as the processor finds it: whether it counts as synced, whether it may be served, whether
      it takes batches, and at which message its send throws, if any. */
  datatype Target = Target(
    synced: bool, eligible: bool, takesBatches: bool, generation: nat, streamId: nat, cursors: Cursors,
    throwsAt: Option<nat>)

  function CountSynced(targets: seq<Target>): nat {
    if targets == [] then 0 else CountSynced(targets[1..]) + if targets[0].synced then 1 else 0
  }

  /** The messages a target is due: the rewritten batch in one, or its frames one by one. */
  function Messages(t: Target, sole: bool, frames: seq<seq<byte>>): seq<seq<byte>>
    requires forall i :: 0 <= i < |frames| ==> |frames[i]| >= DATA_HEADER_BYTES
  {
    var all := ReaddressedAll(frames, t.generation, t.streamId);
    if sole && t.takesBatches then [Flatten(all)] else all
  }

  predicate Due(t: Target, decoded: seq<Frame>) {
    t.synced && t.eligible && decoded != [] && AdvanceEach(t.cursors, decoded).Advanced?
  }

  /** A message went out unless the send throws at it or threw before. */
  function Sent(t: Target, messages: seq<seq<byte>>): seq<seq<byte>> {
    if t.throwsAt.Some? && t.throwsAt.value < |messages| then messages[..t.throwsAt.value] else messages
  }

  predicate SentAll(t: Target, messages: seq<seq<byte>>) {
    !(t.throwsAt.Some? && t.throwsAt.value < |messages|)
  }

  /** What one target receives, and its cursors afterwards: computed from the frames as they arrived. */
  ghost predicate ServedRight(t: Target, sole: bool, frames: seq<seq<byte>>, decoded: seq<Frame>,
                              sends: seq<seq<byte>>, cursors: Cursors)
    requires Framed(frames)
  {
    if !Due(t, decoded) then sends == [] && cursors == t.cursors
    else
      var messages := Messages(t, sole, frames);
      && sends == Sent(t, messages)
      && cursors == if SentAll(t, messages) then AdvanceEach(t.cursors, decoded).next else t.cursors
  }

  lemma NoneSynced(targets: seq<Target>, i: nat)
    requires i < |targets| && CountSynced(targets) == 1 && targets[i].synced
    ensures forall k :: 0 <= k < |targets| && k != i ==> !targets[k].synced
  {
    forall k | 0 <= k < |targets| && k != i ensures !targets[k].synced {
      if targets[k].synced { TwoSynced(targets, if k < i then k else i, if k < i then i else k); }
    }
  }

  lemma {:induction false} TwoSynced(targets: seq<Target>, i: nat, k: nat)
    requires i < k < |targets| && targets[i].synced && targets[k].synced
    ensures CountSynced(targets) >= 2
    decreases |targets|
  {
    if i > 0 { TwoSynced(targets[1..], i - 1, k - 1); } else { OneSynced(targets[1..], k - 1); }
  }

  lemma {:induction false} OneSynced(targets: seq<Target>, k: nat)
    requires k < |targets| && targets[k].synced
    ensures CountSynced(targets) >= 1
    decreases |targets|
  {
    if k > 0 { OneSynced(targets[1..], k - 1); }
  }

  method CountTargets(targets: seq<Target>) returns (count: nat)
    ensures count == CountSynced(targets)
  {
    count := 0;
    for i := 0 to |targets|
      invariant count + CountSynced(targets[i..]) == CountSynced(targets)
    {
      assert targets[i..][1..] == targets[i + 1..];
      if targets[i].synced { count := count + 1; }
    }
  }

  /** Sends the messages in order until one throws. */
  method SendEach(t: Target, messages: seq<seq<byte>>) returns (sends: seq<seq<byte>>, deliveredAll: bool)
    ensures sends == Sent(t, messages) && deliveredAll == SentAll(t, messages)
  {
    sends := [];
    for i := 0 to |messages|
      invariant sends == messages[..i] && (t.throwsAt.Some? ==> i <= t.throwsAt.value)
    {
      if t.throwsAt == Some(i) { return sends, false; }
      assert messages[..i + 1] == messages[..i] + [messages[i]];
      sends := sends + [messages[i]];
    }
    deliveredAll := true;
  }

  /** The frames of the buffer as views, after whatever was written to it. */
  method Views(buffer: array<byte>, ghost frames: seq<seq<byte>>, lengths: seq<nat>) returns (views: seq<seq<byte>>)
    requires buffer[..] == Flatten(frames) && |lengths| == |frames|
    requires forall i :: 0 <= i < |frames| ==> lengths[i] == |frames[i]|
    ensures views == frames
  {
    hide Progress, Flatten;
    views := [];
    var offset := 0;
    FlattenNone(frames);
    for i := 0 to |lengths|
      invariant 0 <= offset == |Flatten(frames[..i])|
      invariant views == frames[..i]
    {
      ViewAt(frames, i);
      var view := buffer[offset..offset + lengths[i]];
      assert view == buffer[..][offset..offset + lengths[i]];
      views := views + [view];
      offset := offset + lengths[i];
    }
    assert frames[..|frames|] == frames;
  }

  lemma FlattenNone(frames: seq<seq<byte>>)
    ensures |Flatten(frames[..0])| == 0
  {
    assert frames[..0] == [];
  }

  /** Where a frame lies among the others. */
  lemma ViewAt(frames: seq<seq<byte>>, i: nat)
    requires i < |frames|
    ensures var at := |Flatten(frames[..i])|;
            && at + |frames[i]| <= |Flatten(frames)| && Flatten(frames)[at..at + |frames[i]|] == frames[i]
            && |Flatten(frames[..i + 1])| == at + |frames[i]| && frames[..i + 1] == frames[..i] + [frames[i]]
  {
    FlattenSplits(frames, i);
    FlattenAppend(frames[..i], frames[i]);
    assert frames[..i + 1] == frames[..i] + [frames[i]];
    hide Flatten;
  }

  /** Serves one target from the shared buffer: in place if it is the only synced one, from copies if not. */
  method ServeTarget(buffer: array<byte>, ghost frames: seq<seq<byte>>, lengths: seq<nat>, decoded: seq<Frame>,
                     t: Target, sole: bool)
    returns (sends: seq<seq<byte>>, cursors: Cursors)
    requires Framed(frames) && buffer[..] == Flatten(frames) && |lengths| == |frames| == |decoded|
    requires forall i :: 0 <= i < |frames| ==> lengths[i] == |frames[i]|
    modifies buffer
    ensures ServedRight(t, sole, frames, decoded, sends, cursors)
    ensures !(sole && t.synced) ==> buffer[..] == old(buffer[..])
  {
    sends, cursors := [], t.cursors;
    if !t.synced || !t.eligible || |decoded| == 0 { return; }
    var advanced := AdvanceDeliveryCursorBatch(t.cursors, decoded);
    if !advanced.Advanced? { return; }
    var views := Views(buffer, frames, lengths);
    hide AdvanceEach, Flatten, Readdressed, Progress;
    var messages: seq<seq<byte>>;
    if sole {
      RewriteBatchInPlace(buffer, views, t.generation, t.streamId);
      LengthsKept(frames, lengths, t.generation, t.streamId);
      if t.takesBatches {
        messages := [buffer[..]];
      } else {
        messages := Views(buffer, ReaddressedAll(frames, t.generation, t.streamId), lengths);
      }
    } else {
      messages := ReaddressedAll(views, t.generation, t.streamId);
    }
    var deliveredAll;
    sends, deliveredAll := SendEach(t, messages);
    if deliveredAll { cursors := advanced.next; }
  }

  lemma LengthsKept(frames: seq<seq<byte>>, lengths: seq<nat>, generation: nat, stream: nat)
    requires Framed(frames) && |lengths| == |frames| && forall i :: 0 <= i < |frames| ==> lengths[i] == |frames[i]|
    ensures forall i :: 0 <= i < |frames| ==> lengths[i] == |ReaddressedAll(frames, generation, stream)[i]|
  {
  }

  /** The fan-out of a committed batch. Every Browser is sent the frames as they arrived with only its own
      generation and stream written in; the one Browser that may be served from the rewritten buffer is the
      only one that ever sees it. */
  method FanOut(buffer: array<byte>, ghost frames: seq<seq<byte>>, lengths: seq<nat>, decoded: seq<Frame>,
                targets: seq<Target>)
    returns (sends: seq<seq<seq<byte>>>, cursors: seq<Cursors>)
    requires Framed(frames) && buffer[..] == Flatten(frames) && |lengths| == |frames| == |decoded|
    requires forall i :: 0 <= i < |frames| ==> lengths[i] == |frames[i]|
    modifies buffer
    ensures |sends| == |cursors| == |targets|
    ensures forall k :: 0 <= k < |targets| ==>
              ServedRight(targets[k], CountSynced(targets) == 1, frames, decoded, sends[k], cursors[k])
  {
    sends, cursors := [], [];
    var count := CountTargets(targets);
    var rewriteInPlace := count == 1;
    hide ServedRight, Flatten, CountSynced;
    for i := 0 to |targets|
      invariant |sends| == |cursors| == i
      invariant forall k :: 0 <= k < i ==>
                  ServedRight(targets[k], rewriteInPlace, frames, decoded, sends[k], cursors[k])
      invariant (rewriteInPlace && exists k :: 0 <= k < i && targets[k].synced) || buffer[..] == Flatten(frames)
    {
      var send: seq<seq<byte>>, cursor: Cursors := [], targets[i].cursors;
      if targets[i].synced {
        if rewriteInPlace { NoneSynced(targets, i); }
        send, cursor := ServeTarget(buffer, frames, lengths, decoded, targets[i], rewriteInPlace);
      } else {
        UnsyncedRight(targets[i], rewriteInPlace, frames, decoded);
      }
      sends, cursors := sends + [send], cursors + [cursor];
    }
  }

  lemma UnsyncedRight(t: Target, sole: bool, frames: seq<seq<byte>>, decoded: seq<Frame>)
    requires Framed(frames) && !t.synced
    ensures ServedRight(t, sole, frames, decoded, [], t.cursors)
  {
  }

  // ---- The fan-out is what the relay's runs are about ----

  /** What a target's messages decode to. */
  function Received(messages: seq<seq<byte>>): seq<seq<byte>>
    decreases |messages|
  {
    if messages == [] then []
    else (match DecodeBatch(messages[0]) case Ok(frames) => frames case Err(_) => []) + Received(messages[1..])
  }

  /** After how many frames a target's send throws: a batch goes out whole or not at all. */
  function FrameCut(t: Target, sole: bool, count: nat): Option<nat> {
    if t.throwsAt.None? then None
    else if sole && t.takesBatches then (if t.throwsAt == Some(0) then Some(0) else None)
    else t.throwsAt
  }

  ghost predicate Decodes(frames: seq<seq<byte>>, decoded: seq<Frame>) {
    |frames| == |decoded| && forall i :: 0 <= i < |frames| ==> Decode(frames[i]) == Ok(decoded[i])
  }

  /** A target that is served right stands afterwards as the relay's own state says, and what it received decodes
      to the frames that the relay's state has sent on its socket. */
  lemma FanOutIsDelivered(t: Target, sole: bool, frames: seq<seq<byte>>, decoded: seq<Frame>, sends: seq<seq<byte>>,
                          cursors: Cursors, s: R.Socket)
    requires Framed(frames) && Batch(frames) && Decodes(frames, decoded) && InU64(t.generation) && InU32(t.streamId)
    requires ServedRight(t, sole, frames, decoded, sends, cursors) && Due(t, decoded)
    requires s.cursors == t.cursors && s.open && s.generation == t.generation
    ensures var n := R.DeliverEach(s, decoded, t.generation, t.streamId, FrameCut(t, sole, |frames|));
            && n.cursors == cursors
            && |n.stream| == |s.stream| + |Received(sends)|
            && Decodes(Received(sends), n.stream[|s.stream|..])
  {
    hide Readdressed, DecodeBatch, Batch, AdvanceEach, Decode, Received, Messages, ServedRight;
    var all := ReaddressedAll(frames, t.generation, t.streamId);
    var cut := FrameCut(t, sole, |frames|);
    var count := if cut.Some? && cut.value < |frames| then cut.value else |frames|;
    ReaddressedDecodes(frames, t.generation, t.streamId);
    ReceivedIs(t, sole, frames, decoded, sends, cursors);
    DeliversPart(s, decoded, t.generation, t.streamId, cut, count);
    forall i | 0 <= i < count
      ensures Decode(all[..count][i]) == Ok(R.RewrittenEach(decoded[..count], t.generation, t.streamId)[i])
    {
      assert Decode(all[i]) == Ok(decoded[i].(deliveryGeneration := t.generation, streamId := t.streamId));
    }
    CursorsServed(t, sole, frames, decoded, sends, cursors);
  }

  lemma DeliversPart(s: R.Socket, decoded: seq<Frame>, generation: nat, stream: nat, cut: Option<nat>, count: nat)
    requires decoded != [] && s.open && s.generation == generation && AdvanceEach(s.cursors, decoded).Advanced?
    requires count == if cut.Some? && cut.value < |decoded| then cut.value else |decoded|
    ensures var n := R.DeliverEach(s, decoded, generation, stream, cut);
            && n.stream == s.stream + R.RewrittenEach(decoded[..count], generation, stream)
            && n.stream[|s.stream|..] == R.RewrittenEach(decoded[..count], generation, stream)
            && n.cursors == if count == |decoded| then AdvanceEach(s.cursors, decoded).next else s.cursors
  {
    hide AdvanceEach;
    assert decoded[..|decoded|] == decoded;
  }

  lemma CursorsServed(t: Target, sole: bool, frames: seq<seq<byte>>, decoded: seq<Frame>, sends: seq<seq<byte>>,
                      cursors: Cursors)
    requires Framed(frames) && |frames| == |decoded| && ServedRight(t, sole, frames, decoded, sends, cursors)
             && Due(t, decoded)
    ensures var cut := FrameCut(t, sole, |frames|);
            cursors == if cut.Some? && cut.value < |frames| then t.cursors else AdvanceEach(t.cursors, decoded).next
  {
    hide AdvanceEach, Flatten;
  }

  lemma ReceivedIs(t: Target, sole: bool, frames: seq<seq<byte>>, decoded: seq<Frame>, sends: seq<seq<byte>>,
                   cursors: Cursors)
    requires Framed(frames) && Batch(frames) && InU64(t.generation) && InU32(t.streamId) && |frames| == |decoded|
    requires ServedRight(t, sole, frames, decoded, sends, cursors) && Due(t, decoded)
    ensures var cut := FrameCut(t, sole, |frames|);
            var count := if cut.Some? && cut.value < |frames| then cut.value else |frames|;
            Received(sends) == ReaddressedAll(frames, t.generation, t.streamId)[..count]
  {
    hide Readdressed, DecodeBatch, AdvanceEach, Decode, Flatten;
    var all := ReaddressedAll(frames, t.generation, t.streamId);
    ReaddressedDecodes(frames, t.generation, t.streamId);
    if sole && t.takesBatches {
      assert all[..|frames|] == all && all[..0] == [];
      assert Received([Flatten(all)]) == all + Received([]);
    } else {
      forall m | m in sends ensures Decode(m).Ok? && |m| <= MAX_DATA_BATCH_BYTES {
        assert m in all;
        FitsAlone(frames, all, m);
      }
      ReceivedSingly(sends);
      assert all[..|frames|] == all;
    }
  }

  lemma FitsAlone(frames: seq<seq<byte>>, all: seq<seq<byte>>, m: seq<byte>)
    requires Batch(frames) && |all| == |frames| && m in all && forall i :: 0 <= i < |all| ==> |all[i]| == |frames[i]|
    ensures |m| <= MAX_DATA_BATCH_BYTES
  {
    hide Decode;
    var i :| 0 <= i < |all| && all[i] == m;
    FlattenSplits(frames, i);
    hide Flatten;
  }

  /** Messages that are single frames are what is received. */
  lemma {:induction false} ReceivedSingly(messages: seq<seq<byte>>)
    requires forall m :: m in messages ==> Decode(m).Ok? && |m| <= MAX_DATA_BATCH_BYTES
    ensures Received(messages) == messages
    decreases |messages|
  {
    if messages != [] {
      var m := messages[0];
      assert m in messages && forall x :: x in messages[1..] ==> x in messages;
      SingleDecodes(m);
      hide DecodeBatch, Decode;
      ReceivedSingly(messages[1..]);
    }
  }

  lemma SingleDecodes(m: seq<byte>)
    requires Decode(m).Ok? && |m| <= MAX_DATA_BATCH_BYTES
    ensures DecodeBatch(m) == Ok([m])
  {
    assert Flatten([m]) == m by { assert [m][1..] == []; }
    assert Batch([m]);
    EncodesBatch([m]);
    DecodeOfEncodeBatch([m]);
    hide Decode, DecodeBatch;
  }
}
