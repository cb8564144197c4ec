/** The Host's data channel: frames gathered into batches, one unacknowledged batch at a time. */
module HostTransport {
  import opened Collections
  import opened DataFrames

  const MAX_PENDING_DATA_FRAMES: nat := 8192
  const QUEUE_MAX_BYTES: nat := 8 * 1024 * 1024
  const MIN_LATENCY_SENSITIVE: nat := DATA_HEADER_BYTES + 3
  const MAX_LATENCY_SENSITIVE: nat := DATA_HEADER_BYTES + 256

  datatype Pending = Pending(bytes: seq<byte>, receipt: Option<nat>)

  /** What the socket says: whether it is open, and how many of the bytes it was given it still holds. */
  datatype Socket = Socket(open: bool, buffered: nat) {
    /** A send adds its bytes to what the socket holds; nothing leaves it before the turn ends. */
    function Given(length: nat): Socket { this.(buffered := buffered + length) }
  }

  predicate LatencySensitive(p: Pending) { MIN_LATENCY_SENSITIVE <= |p.bytes| <= MAX_LATENCY_SENSITIVE }

  function TotalBytes(ps: seq<Pending>): nat {
    if ps == [] then 0 else TotalBytes(ps[..|ps| - 1]) + |ps[|ps| - 1].bytes|
  }

  function FrameBytes(ps: seq<Pending>): seq<seq<byte>> {
    seq(|ps|, i requires 0 <= i < |ps| => ps[i].bytes)
  }

  /** The receipts among the entries, in their order. */
  function Receipts(ps: seq<Pending>): seq<nat> {
    if ps == [] then []
    else
      var last := ps[|ps| - 1];
      Receipts(ps[..|ps| - 1]) + if last.receipt.Some? then [last.receipt.value] else []
  }

  /** How a send ends: it returned, it took the bytes and threw after that, or it threw before. */
  datatype Fate = Returned | TookAndThrew | NotTaken

  /** A batch that left the queue, and what became of it. */
  datatype Flush = Flush(frames: seq<Pending>, fate: Fate)

  /** Everything that left the queue, in order. */
  function Joined(flushed: seq<Flush>): seq<Pending> {
    if flushed == [] then [] else Joined(flushed[..|flushed| - 1]) + flushed[|flushed| - 1].frames
  }

  /** What the socket was given. */
  function OnWire(flushed: seq<Flush>): seq<Pending> {
    if flushed == [] then []
    else
      var last := flushed[|flushed| - 1];
      OnWire(flushed[..|flushed| - 1]) + if last.fate.NotTaken? then [] else last.frames
  }

  /** What was confirmed to whoever asked for a receipt. */
  function Confirmed(flushed: seq<Flush>): seq<nat> {
    if flushed == [] then []
    else
      var last := flushed[|flushed| - 1];
      Confirmed(flushed[..|flushed| - 1]) + if last.fate.Returned? then Receipts(last.frames) else []
  }

  predicate AllReturned(flushed: seq<Flush>) { forall f :: f in flushed ==> f.fate.Returned? }

  /** sendRawData looks at the socket before and after. What it finds after cannot be too much. */
  function SendFate(closed: bool, socket: Socket, length: nat): (fate: Fate)
    ensures fate.Returned? <==> !closed && socket.open && socket.buffered + length <= QUEUE_MAX_BYTES
    ensures !fate.TookAndThrew?
  {
    if closed || !socket.open then NotTaken
    else if socket.buffered + length > QUEUE_MAX_BYTES then NotTaken
    else if socket.Given(length).buffered > QUEUE_MAX_BYTES then TookAndThrew
    else Returned
  }

  /** enqueueData takes a frame only within the queue's limits. */
  predicate Admits(socket: Socket, pendingFrames: nat, pendingBytes: int, inFlight: nat, length: nat) {
    && length <= MAX_DATA_BATCH_BYTES && pendingFrames + 1 <= MAX_PENDING_DATA_FRAMES
    && socket.buffered + inFlight + pendingBytes + length <= QUEUE_MAX_BYTES
  }

  /** With this frame the queue is due to be flushed at once. */
  predicate FlushesAtOnce(pendingFrames: nat, pendingBytes: int, length: nat) {
    pendingFrames + 1 >= MAX_DATA_BATCH_FRAMES || pendingBytes + length >= MAX_DATA_BATCH_BYTES
  }

  /** A batch that leaves as soon as its last frame was admitted is always taken. */
  lemma OwnFlushIsTaken(socket: Socket, pendingFrames: nat, pendingBytes: nat, length: nat, batch: nat)
    requires socket.open && Admits(socket, pendingFrames, pendingBytes, 0, length) && batch <= pendingBytes + length
    ensures SendFate(false, socket, batch).Returned?
  {
  }

  /** A frame that fits a batch of its own. */
  ghost predicate Sendable(p: Pending) { Decode(p.bytes).Ok? && |p.bytes| <= MAX_DATA_BATCH_BYTES }

  /** The batch limits, and a latency-sensitive frame alone. */
  ghost predicate WellBatched(batch: seq<Pending>) {
    && 1 <= |batch| <= MAX_DATA_BATCH_FRAMES && TotalBytes(batch) <= MAX_DATA_BATCH_BYTES
    && (forall p :: p in batch ==> Sendable(p))
    && (forall i :: 0 <= i < |batch| && LatencySensitive(batch[i]) ==> |batch| == 1)
  }

  lemma {:induction false} TotalSplits(ps: seq<Pending>, n: nat)
    requires n <= |ps|
    ensures TotalBytes(ps) == TotalBytes(ps[..n]) + TotalBytes(ps[n..])
    decreases |ps|
  {
    if n == |ps| {
      assert ps[..n] == ps && ps[n..] == [];
    } else {
      TotalSplits(ps[..|ps| - 1], n);
      assert ps[..|ps| - 1][..n] == ps[..n] && ps[..|ps| - 1][n..] == ps[n..][..|ps| - n - 1];
    }
  }

  lemma {:induction false} ReceiptsJoin(a: seq<Pending>, b: seq<Pending>)
    ensures Receipts(a + b) == Receipts(a) + Receipts(b)
    decreases |b|
  {
    if b == [] {
      assert a + b == a;
    } else {
      ReceiptsJoin(a, b[..|b| - 1]);
      assert (a + b)[..|a + b| - 1] == a + b[..|b| - 1];
    }
  }

  lemma {:induction false} FlatBytes(ps: seq<Pending>)
    ensures |Flatten(FrameBytes(ps))| == TotalBytes(ps)
    decreases |ps|
  {
    if ps != [] {
      var first, rest := ps[0], ps[1..];
      FlatBytes(rest);
      assert FrameBytes(ps)[1..] == FrameBytes(rest);
      TotalSplits(ps, 1);
      assert ps[..1][..0] == [] && TotalBytes(ps[..1]) == |first.bytes|;
    }
  }

  /** Encoding a well-formed batch cannot fail. */
  lemma WellBatchedEncodes(batch: seq<Pending>)
    requires WellBatched(batch)
    ensures EncodeBatch(FrameBytes(batch)).Ok? && |EncodeBatch(FrameBytes(batch)).value| == TotalBytes(batch) > 0
    ensures DecodeBatch(EncodeBatch(FrameBytes(batch)).value) == Ok(FrameBytes(batch))
  {
    FlatBytes(batch);
    BatchBytes(batch);
    assert Batch(FrameBytes(batch)) by {
      forall i | 0 <= i < |batch| ensures Decode(FrameBytes(batch)[i]).Ok? { assert batch[i] in batch; }
    }
    hide Decode, Flatten, Batch;
    EncodesBatch(FrameBytes(batch));
    DecodeOfEncodeBatch(FrameBytes(batch));
  }

  /** A batch is never empty on the wire. */
  lemma BatchBytes(batch: seq<Pending>)
    requires WellBatched(batch)
    ensures TotalBytes(batch) > 0
  {
    assert batch[|batch| - 1] in batch;
    assert |batch[|batch| - 1].bytes| >= DATA_HEADER_BYTES;
  }

  /** What the fields and the histories say of each other, leaving wake-ups aside. What left the queue, what closing
      dropped and what is pending is what was enqueued, in that order, whatever sends threw; and while none did, at
      most one batch has yet to be acknowledged. */
  ghost predicate SoundOf(enabled: bool, closed: bool, inFlight: nat, pending: seq<Pending>, pendingBytes: int,
                          enqueued: seq<Pending>, flushed: seq<Flush>, dropped: seq<Pending>, resolved: seq<nat>,
                          acknowledged: nat)
  {
    && pendingBytes == TotalBytes(pending)
    && (forall p :: p in pending ==> Sendable(p))
    && (enabled ==> forall f :: f in flushed ==> WellBatched(f.frames))
    && resolved == Confirmed(flushed)
    && enqueued == Joined(flushed) + dropped + pending
    && (enabled && !closed && AllReturned(flushed) ==> |flushed| == acknowledged + if inFlight > 0 then 1 else 0)
    && (!enabled || closed ==> pending == [])
    && (!closed ==> dropped == [])
  }

  lemma JoinedAppend(flushed: seq<Flush>, f: Flush)
    ensures Joined(flushed + [f]) == Joined(flushed) + f.frames
    ensures Confirmed(flushed + [f]) == Confirmed(flushed) + if f.fate.Returned? then Receipts(f.frames) else []
    ensures AllReturned(flushed + [f]) <==> AllReturned(flushed) && f.fate.Returned?
  {
    assert (flushed + [f])[..|flushed|] == flushed;
    assert forall x :: x in flushed + [f] <==> x in flushed || x == f;
    assert f in flushed + [f];
  }

  /** While no send threw, the socket was given exactly what left the queue; and what was lost otherwise are whole
      batches, each of which had been next in line. */
  lemma {:induction false} OnlyThrownBatchesAreLost(flushed: seq<Flush>)
    ensures (forall f :: f in flushed ==> !f.fate.NotTaken?) ==> OnWire(flushed) == Joined(flushed)
    ensures forall k :: 0 <= k < |flushed| && flushed[k].fate.NotTaken? ==>
              OnWire(flushed[..k + 1]) == OnWire(flushed[..k])
    decreases |flushed|
  {
    if flushed != [] {
      var last := |flushed| - 1;
      assert forall f :: f in flushed[..last] ==> f in flushed;
      OnlyThrownBatchesAreLost(flushed[..last]);
      forall k | 0 <= k < |flushed| && flushed[k].fate.NotTaken?
        ensures OnWire(flushed[..k + 1]) == OnWire(flushed[..k])
      {
        assert flushed[..k + 1][..k] == flushed[..k];
      }
      assert flushed[last] in flushed;
    }
  }

  /** The first `count` frames leave as one batch. */
  lemma FlushedKeeps(inFlight: nat, pending: seq<Pending>, pendingBytes: int, enqueued: seq<Pending>,
                     flushed: seq<Flush>, resolved: seq<nat>, acknowledged: nat, count: nat, fate: Fate)
    requires SoundOf(true, false, 0, pending, pendingBytes, enqueued, flushed, [], resolved, acknowledged)
    requires count <= |pending| && WellBatched(pending[..count])
    requires fate.Returned? ==> inFlight > 0
    ensures SoundOf(true, false, inFlight, pending[count..], pendingBytes - TotalBytes(pending[..count]), enqueued,
                    flushed + [Flush(pending[..count], fate)], [],
                    resolved + if fate.Returned? then Receipts(pending[..count]) else [], acknowledged)
  {
    hide WellBatched, Sendable, AllReturned, Joined, Confirmed, Receipts, TotalBytes;
    var taken := pending[..count];
    TotalSplits(pending, count);
    JoinedAppend(flushed, Flush(taken, fate));
    assert pending == taken + pending[count..];
    assert (Joined(flushed) + taken) + [] + pending[count..] == Joined(flushed) + [] + pending;
  }

  /** One more frame waits. */
  lemma QueuedKeeps(inFlight: nat, pending: seq<Pending>, pendingBytes: int, enqueued: seq<Pending>,
                    flushed: seq<Flush>, resolved: seq<nat>, acknowledged: nat, entry: Pending)
    requires SoundOf(true, false, inFlight, pending, pendingBytes, enqueued, flushed, [], resolved, acknowledged)
    requires Sendable(entry)
    ensures SoundOf(true, false, inFlight, pending + [entry], pendingBytes + |entry.bytes|, enqueued + [entry], flushed,
                    [], resolved, acknowledged)
  {
    hide WellBatched, Sendable, AllReturned;
    assert (pending + [entry])[..|pending|] == pending;
    assert Joined(flushed) + [] + (pending + [entry]) == (Joined(flushed) + [] + pending) + [entry];
  }

  /** Without batching a frame is sent as it is. */
  lemma DirectKeeps(inFlight: nat, enqueued: seq<Pending>, flushed: seq<Flush>, resolved: seq<nat>, acknowledged: nat,
                    entry: Pending, fate: Fate)
    requires SoundOf(false, false, inFlight, [], 0, enqueued, flushed, [], resolved, acknowledged)
    ensures SoundOf(false, false, inFlight, [], 0, enqueued + [entry], flushed + [Flush([entry], fate)], [],
                    resolved + if fate.Returned? then Receipts([entry]) else [], acknowledged)
  {
    hide AllReturned;
    JoinedAppend(flushed, Flush([entry], fate));
    assert Joined(flushed) + [] + [] == Joined(flushed);
    assert (Joined(flushed) + [entry]) + [] + [] == Joined(flushed) + [entry];
  }

  lemma AckKeeps(inFlight: nat, pending: seq<Pending>, pendingBytes: int, enqueued: seq<Pending>, flushed: seq<Flush>,
                 resolved: seq<nat>, acknowledged: nat)
    requires SoundOf(true, false, inFlight, pending, pendingBytes, enqueued, flushed, [], resolved, acknowledged)
    requires inFlight > 0
    ensures SoundOf(true, false, 0, pending, pendingBytes, enqueued, flushed, [], resolved, acknowledged + 1)
  {
  }

  lemma CloseKeeps(enabled: bool, closed: bool, inFlight: nat, pending: seq<Pending>, pendingBytes: int,
                   enqueued: seq<Pending>, flushed: seq<Flush>, dropped: seq<Pending>, resolved: seq<nat>,
                   acknowledged: nat)
    requires SoundOf(enabled, closed, inFlight, pending, pendingBytes, enqueued, flushed, dropped, resolved,
                     acknowledged)
    ensures SoundOf(enabled, true, 0, [], 0, enqueued, flushed, dropped + pending, resolved, acknowledged)
  {
    assert Joined(flushed) + dropped + pending == Joined(flushed) + (dropped + pending) + [];
  }

  /** One batch left the queue: its first `count` frames, with the fate that the socket decided. */
  ghost predicate LeavesAs(pending: seq<Pending>, count: nat, socket: Socket, before: seq<Flush>, after: seq<Flush>)
    requires count <= |pending|
  {
    after == before + [Flush(pending[..count], SendFate(false, socket, TotalBytes(pending[..count])))]
  }

  /** At most one batch left the queue, and if one did then its send returned. */
  predicate NoThrow(before: seq<Flush>, after: seq<Flush>) {
    after == before || (|after| == |before| + 1 && after[|before|].fate.Returned?)
  }

  /** A batch that leaves with the frame just admitted is some of what was admitted with it. */
  lemma WholeLineAdmitted(line: seq<Pending>, before: seq<Flush>, after: seq<Flush>, socket: Socket,
                          pending: seq<Pending>, entry: Pending)
    requires line == pending + [entry] && socket.open
    requires Admits(socket, |pending|, TotalBytes(pending), 0, |entry.bytes|)
    requires exists count :: 0 < count <= |line| && LeavesAs(line, count, socket, before, after)
    ensures NoThrow(before, after)
  {
    var count :| 0 < count <= |line| && LeavesAs(line, count, socket, before, after);
    TotalSplits(line, count);
    assert line[..|pending|] == pending;
    OwnFlushIsTaken(socket, |pending|, TotalBytes(pending), |entry.bytes|, TotalBytes(line[..count]));
  }

  lemma StillReturned(before: seq<Flush>, after: seq<Flush>)
    requires before <= after && NoThrow(before, after)
    ensures AllReturned(before) ==> AllReturned(after)
  {
    assert forall f :: f in after ==> f in before || f == after[|before|];
  }

  /** While every send returned, at most one batch has yet to be acknowledged. */
  lemma OneUnacknowledged(inFlight: nat, pending: seq<Pending>, pendingBytes: int, enqueued: seq<Pending>,
                          flushed: seq<Flush>, dropped: seq<Pending>, resolved: seq<nat>, acknowledged: nat)
    requires SoundOf(true, false, inFlight, pending, pendingBytes, enqueued, flushed, dropped, resolved, acknowledged)
    requires AllReturned(flushed)
    ensures |flushed| == acknowledged + if inFlight > 0 then 1 else 0
  {
  }

  lemma OneBytes(entry: Pending)
    ensures TotalBytes([entry]) == |entry.bytes|
  {
    assert [entry][..0] == [];
  }

  class HostDataChannel {
    const dataBatchEnabled: bool
    var closed: bool
    var dataBatchScheduled: bool
    var inFlightDataBytes: nat
    var pendingDataFrames: seq<Pending>
    var pendingDataBytes: int
    // histories
    ghost var enqueued: seq<Pending>          // every frame that was accepted, in order
    ghost var flushed: seq<Flush>             // every batch that left the queue
    ghost var dropped: seq<Pending>           // what was still pending when the channel closed
    ghost var resolved: seq<nat>              // receipts, as they were resolved
    ghost var acknowledged: nat               // batches that the relay acknowledged

    ghost predicate Sound()
      reads this
    {
      SoundOf(dataBatchEnabled, closed, inFlightDataBytes, pendingDataFrames, pendingDataBytes, enqueued, flushed,
              dropped, resolved, acknowledged)
    }

    /** While the channel is open something will flush what is pending: an acknowledgement or a microtask. And a
        channel that batches is open only as long as every send returned, with at most one batch to acknowledge. */
    ghost predicate Valid()
      reads this
    {
      && Sound()
      && (pendingDataFrames != [] ==> inFlightDataBytes > 0 || dataBatchScheduled)
      && (dataBatchEnabled && !closed ==>
            AllReturned(flushed) && |flushed| == acknowledged + if inFlightDataBytes > 0 then 1 else 0)
    }

    constructor (dataBatchEnabled: bool)
      ensures Valid() && enqueued == [] && flushed == [] && !closed
      ensures this.dataBatchEnabled == dataBatchEnabled
    {
      this.dataBatchEnabled := dataBatchEnabled;
      closed, dataBatchScheduled, inFlightDataBytes := false, false, 0;
      pendingDataFrames, pendingDataBytes := [], 0;
      enqueued, flushed, dropped, resolved, acknowledged := [], [], [], [], 0;
    }

    /** sendRawData, in the order of its checks. */
    method SendRawData(length: nat, socket: Socket) returns (fate: Fate)
      ensures fate == SendFate(closed, socket, length)
    {
      if closed || !socket.open { return NotTaken; }
      if socket.buffered + length > QUEUE_MAX_BYTES { return NotTaken; }
      var after := socket.Given(length);
      return if after.buffered > QUEUE_MAX_BYTES then TookAndThrew else Returned;
    }

    /** How many of the pending frames make the next batch. */
    method TakeCount() returns (count: nat, bytes: nat)
      requires Sound() && pendingDataFrames != []
      ensures 1 <= count <= |pendingDataFrames| && bytes == TotalBytes(pendingDataFrames[..count])
      ensures WellBatched(pendingDataFrames[..count])
      ensures count < |pendingDataFrames| ==>
                || count == MAX_DATA_BATCH_FRAMES
                || LatencySensitive(pendingDataFrames[count]) || LatencySensitive(pendingDataFrames[0])
                || bytes + |pendingDataFrames[count].bytes| > MAX_DATA_BATCH_BYTES
    {
      hide Decode, Joined, Receipts, AllReturned, Confirmed;
      count, bytes := 0, 0;
      while count < |pendingDataFrames| && count < MAX_DATA_BATCH_FRAMES
        invariant count <= |pendingDataFrames| && count <= MAX_DATA_BATCH_FRAMES
        invariant bytes == TotalBytes(pendingDataFrames[..count]) && bytes <= MAX_DATA_BATCH_BYTES
        invariant forall i :: 0 <= i < count ==> !LatencySensitive(pendingDataFrames[i])
      {
        var next := pendingDataFrames[count];
        assert next in pendingDataFrames;
        assert pendingDataFrames[..count + 1][..count] == pendingDataFrames[..count];
        if count > 0 && LatencySensitive(next) { break; }
        if count > 0 && bytes + |next.bytes| > MAX_DATA_BATCH_BYTES { break; }
        bytes := bytes + |next.bytes|;
        count := count + 1;
        if LatencySensitive(next) { break; }
      }
    }

    /** Sends the next batch, unless one is in flight. The batch has left the queue even if the send throws. */
    method FlushDataBatch(socket: Socket) returns (sent: bool)
      requires Sound() && dataBatchEnabled && !closed
      modifies this`pendingDataFrames, this`pendingDataBytes, this`inFlightDataBytes, this`flushed, this`resolved
      ensures Sound() && (sent <==> NoThrow(old(flushed), flushed)) && old(flushed) <= flushed
      ensures old(pendingDataFrames) == [] || old(inFlightDataBytes) > 0 ==>
                && flushed == old(flushed) && pendingDataFrames == old(pendingDataFrames)
                && inFlightDataBytes == old(inFlightDataBytes)
      ensures old(pendingDataFrames) != [] && old(inFlightDataBytes) == 0 ==>
                exists count :: 0 < count <= |old(pendingDataFrames)|
                                && LeavesAs(old(pendingDataFrames), count, socket, old(flushed), flushed)
                                && pendingDataFrames == old(pendingDataFrames)[count..]
      ensures sent ==> pendingDataFrames == [] || inFlightDataBytes > 0
    {
      hide Decode, WellBatched, EncodeBatch, DecodeBatch, TotalBytes, Receipts, FrameBytes, SoundOf;
      if |pendingDataFrames| == 0 || inFlightDataBytes > 0 { return true; }
      var count, bytes := TakeCount();
      var taken := pendingDataFrames[..count];
      WellBatchedEncodes(taken);
      var encoded := EncodeBatch(FrameBytes(taken)).value;
      var fate := SendRawData(|encoded|, socket);
      OpenDropsNothing();
      FlushedKeeps(if fate.Returned? then bytes else 0, pendingDataFrames, pendingDataBytes, enqueued, flushed,
                   resolved, acknowledged, count, fate);
      assert LeavesAs(pendingDataFrames, count, socket, flushed, flushed + [Flush(taken, fate)]);
      pendingDataFrames := pendingDataFrames[count..];
      pendingDataBytes := pendingDataBytes - bytes;
      flushed := flushed + [Flush(taken, fate)];
      if !fate.Returned? {
        assert resolved + [] == resolved;
        return false;
      }
      resolved := resolved + Receipts(taken);
      inFlightDataBytes := |encoded|;
      return true;
    }

    /** A send that returned leaves the channel as good as it was. */
    lemma StaysOpen(before: seq<Flush>)
      requires Sound() && dataBatchEnabled && !closed
      requires AllReturned(before) && before <= flushed && NoThrow(before, flushed)
      ensures AllReturned(flushed) && |flushed| == acknowledged + if inFlightDataBytes > 0 then 1 else 0
    {
      StillReturned(before, flushed);
      OneUnacknowledged(inFlightDataBytes, pendingDataFrames, pendingDataBytes, enqueued, flushed, dropped, resolved,
                        acknowledged);
    }

    lemma OpenDropsNothing()
      requires Sound() && !closed
      ensures dropped == []
    {
    }

    /** A frame from the publisher or the scheduler. Refused, it changes nothing; taken, it is last in line, and if
        the queue is due then the next batch leaves it. A channel that batches never throws at a frame it took. */
    method EnqueueData(frame: seq<byte>, receipt: Option<nat>, socket: Socket) returns (accepted: bool)
      requires Valid() && Decode(frame).Ok?
      modifies this
      ensures Valid() && closed == old(closed)
      ensures !old(Takes(frame, socket)) ==>
                && !accepted && enqueued == old(enqueued) && flushed == old(flushed)
                && pendingDataFrames == old(pendingDataFrames)
      ensures old(Takes(frame, socket)) ==>
                && enqueued == old(enqueued) + [Pending(frame, receipt)]
                && (accepted <==> NoThrow(old(flushed), flushed))
      ensures old(Takes(frame, socket)) && !old(Sends(frame)) ==>
                flushed == old(flushed) && pendingDataFrames == old(pendingDataFrames) + [Pending(frame, receipt)]
      ensures old(Takes(frame, socket)) && old(Sends(frame)) ==>
                var line := old(pendingDataFrames) + [Pending(frame, receipt)];
                exists count :: 0 < count <= |line| && LeavesAs(line, count, socket, old(flushed), flushed)
                                && pendingDataFrames == line[count..]
      ensures old(Takes(frame, socket)) && dataBatchEnabled ==> accepted
    {
      hide Decode, TotalBytes, Receipts, Joined, WellBatched, AllReturned, Confirmed;
      if closed || !socket.open { return false; }
      var entry := Pending(frame, receipt);
      if !dataBatchEnabled {
        accepted := SendDirect(entry, socket);
        ghost var line := old(pendingDataFrames) + [entry];
        assert line == [entry] && line[1..] == [];
        assert LeavesAs(line, 1, socket, old(flushed), flushed);
        return;
      }
      if |frame| > MAX_DATA_BATCH_BYTES { return false; }
      if |pendingDataFrames| + 1 > MAX_PENDING_DATA_FRAMES
         || socket.buffered + inFlightDataBytes + pendingDataBytes + |frame| > QUEUE_MAX_BYTES {
        return false;
      }
      OpenDropsNothing();
      QueuedKeeps(inFlightDataBytes, pendingDataFrames, pendingDataBytes, enqueued, flushed, resolved, acknowledged,
                  entry);
      hide SoundOf;
      pendingDataFrames := pendingDataFrames + [entry];
      pendingDataBytes := pendingDataBytes + |frame|;
      enqueued := enqueued + [entry];
      if |pendingDataFrames| >= MAX_DATA_BATCH_FRAMES || pendingDataBytes >= MAX_DATA_BATCH_BYTES {
        ghost var line := pendingDataFrames;
        accepted := FlushDataBatch(socket);
        if old(inFlightDataBytes) == 0 {
          WholeLineAdmitted(line, old(flushed), flushed, socket, old(pendingDataFrames), entry);
        }
        StaysOpen(old(flushed));
        return;
      }
      dataBatchScheduled := true;
      return true;
    }

    /** Whether a frame is taken, or refused with nothing changed. */
    predicate Takes(frame: seq<byte>, socket: Socket)
      reads this
    {
      && !closed && socket.open
      && (dataBatchEnabled ==>
            Admits(socket, |pendingDataFrames|, pendingDataBytes, inFlightDataBytes, |frame|))
    }

    /** Whether taking it sends something at once. */
    predicate Sends(frame: seq<byte>)
      reads this
    {
      || !dataBatchEnabled
      || (inFlightDataBytes == 0 && FlushesAtOnce(|pendingDataFrames|, pendingDataBytes, |frame|))
    }

    method SendDirect(entry: Pending, socket: Socket) returns (sent: bool)
      requires Sound() && !dataBatchEnabled && !closed
      modifies this`enqueued, this`flushed, this`resolved
      ensures Sound() && enqueued == old(enqueued) + [entry]
      ensures LeavesAs([entry], 1, socket, old(flushed), flushed)
      ensures sent <==> NoThrow(old(flushed), flushed)
    {
      hide Decode, AllReturned, TotalBytes;
      var fate := SendRawData(|entry.bytes|, socket);
      OneBytes(entry);
      NothingPends(pendingDataFrames);
      DirectKeeps(inFlightDataBytes, enqueued, flushed, resolved, acknowledged, entry, fate);
      assert [entry][..1] == [entry];
      flushed, enqueued := flushed + [Flush([entry], fate)], enqueued + [entry];
      if !fate.Returned? {
        assert resolved + [] == resolved;
        return false;
      }
      resolved := resolved + Receipts([entry]);
      return true;
    }

    /** close: what is pending is dropped, in flight or not. */
    method Close()
      requires Sound()
      modifies this
      ensures Valid() && closed && enqueued == old(enqueued) && flushed == old(flushed)
      ensures dropped == old(dropped) + old(pendingDataFrames) && pendingDataFrames == []
      ensures dataBatchScheduled == old(dataBatchScheduled)
    {
      if closed { return; }
      CloseKeeps(dataBatchEnabled, closed, inFlightDataBytes, pendingDataFrames, pendingDataBytes, enqueued, flushed,
                 dropped, resolved, acknowledged);
      hide SoundOf;
      closed, dropped, pendingDataFrames := true, dropped + pendingDataFrames, [];
      inFlightDataBytes, pendingDataBytes := 0, 0;
    }

    /** The scheduled microtask: it sends the next batch, and a throw closes the channel. */
    method RunScheduled(socket: Socket)
      requires Valid() && dataBatchScheduled && dataBatchEnabled
      modifies this
      ensures Valid() && enqueued == old(enqueued) && !dataBatchScheduled
      ensures old(closed) ==> closed && flushed == old(flushed)
      ensures !old(closed) ==> (closed <==> !NoThrow(old(flushed), flushed))
      ensures !old(closed) && old(pendingDataFrames) != [] && old(inFlightDataBytes) == 0 ==>
                exists count :: 0 < count <= |old(pendingDataFrames)|
                                && LeavesAs(old(pendingDataFrames), count, socket, old(flushed), flushed)
    {
      hide AllReturned, Decode, WellBatched, TotalBytes, Joined, Confirmed;
      dataBatchScheduled := false;
      if closed { return; }
      hide SoundOf;
      var sent := FlushDataBatch(socket);
      if sent { StaysOpen(old(flushed)); } else { Close(); }
    }

    /** The relay acknowledged the batch in flight, and the next one leaves. An acknowledgement of nothing, like a
        throw, closes the channel. */
    method OnDataAck(ready: bool, socket: Socket)
      requires Valid() && !closed
      modifies this
      ensures Valid() && enqueued == old(enqueued)
      ensures !ready || !dataBatchEnabled || old(inFlightDataBytes) == 0 ==> closed && flushed == old(flushed)
      ensures ready && dataBatchEnabled && old(inFlightDataBytes) > 0 ==> (closed <==> !NoThrow(old(flushed), flushed))
      ensures ready && dataBatchEnabled && old(inFlightDataBytes) > 0 && old(pendingDataFrames) != [] ==>
                exists count :: 0 < count <= |old(pendingDataFrames)|
                                && LeavesAs(old(pendingDataFrames), count, socket, old(flushed), flushed)
    {
      hide AllReturned, Decode, WellBatched, TotalBytes, Joined, Confirmed;
      if !ready || !dataBatchEnabled || inFlightDataBytes == 0 {
        Close();
        return;
      }
      OpenDropsNothing();
      AckKeeps(inFlightDataBytes, pendingDataFrames, pendingDataBytes, enqueued, flushed, resolved, acknowledged);
      hide SoundOf;
      inFlightDataBytes, acknowledged := 0, acknowledged + 1;
      var sent := FlushDataBatch(socket);
      if sent { StaysOpen(old(flushed)); } else { Close(); }
    }
  }

  lemma NothingPends(pending: seq<Pending>)
    requires pending == []
    ensures TotalBytes(pending) == 0
  {
  }
}
