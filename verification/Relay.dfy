/** The relay's delivery: the canonical head, the one recovery pin of each Browser data socket, and what is
    sent on each socket of each generation.

    A client is known by its stream; the control channel, the ticket store and the snapshot store appear as
    what an event finds of them. Sends append to a history; a send that throws sends nothing. */
module Relays {
  import opened Collections
  import opened DataFrames
  import opened ReplicaCursors
  import opened RelayDeliveries

  datatype Mode = WarmMode | SnapshotMode(snapshotId: string)

  datatype Pin = Pin(mode: Mode, commit: Mark)

  /** A data socket's attachment, and the frames sent on it. */
  datatype Socket = Socket(
    generation: int, open: bool, cursors: Cursors, pin: Option<Pin>,
    stream: seq<Frame>)

  datatype Relay = Relay(
    sessionEpoch: int,
    head: Mark,
    generations: map<int, int>,     // of each client, by its stream
    sockets: map<int, Socket>,      // the current data socket of each client
    failed: bool)                   // the Host connection was failed

  /** A published snapshot as the barrier finds it. */
  datatype Published = Published(cut: Mark, matchesSession: bool)

  /** What a barrier finds around it. */
  datatype Surroundings = Surroundings(
    hostCurrent: bool,              // both Host channels are the current ones
    mode: Option<Mode>,             // of the payload, if it decodes
    browserCurrent: bool,           // an active control and a matching data attachment
    published: Option<Published>)

  datatype Event =
    | HostFrame(frame: Frame, around: Surroundings, throws: set<int>)
    | HostBatch(frames: seq<Frame>, cuts: map<int, nat>)   // after how many frames a socket's send throws
    | Connects(stream: int)
    | Attaches(stream: int, baseline: Option<Mark>)
    | Acknowledges(stream: int, generation: int, mark: Mark)
    | Resets(stream: int)
    | Closes(stream: int)

  // ---- Sending ----

  function Rewritten(f: Frame, generation: int, stream: int): Frame {
    f.(deliveryGeneration := generation, streamId := stream)
  }

  /** deliverToBrowser: nothing is recorded unless the frame advanced the cursor and was sent. */
  function Deliver(s: Socket, f: Frame, generation: int, stream: int, throws: bool): Socket {
    if !s.open || s.generation != generation then s
    else
      var advanced := AdvanceFrame(s.cursors, f);
      if !advanced.Advanced? || throws then s
      else s.(cursors := advanced.next, stream := s.stream + [Rewritten(f, generation, stream)])
  }

  predicate IsSynced(s: Socket) { s.cursors.dataState == Some(Synced) }
  predicate IsCatchingUp(s: Socket) { s.cursors.dataState == Some(CatchingUp) }

  /** A recovery that was pinned and has not reached its commit. */
  predicate PinnedInProgress(s: Socket) { IsCatchingUp(s) && s.pin.Some? }

  predicate HasPinnedDelivery(r: Relay) {
    exists stream :: stream in r.sockets && PinnedInProgress(r.sockets[stream])
  }

  predicate Unadvanced(c: Cursors) { c.first == c.acked == c.sent }

  function Fail(r: Relay): Relay { r.(failed := true) }

  // ---- The barrier ----

  function PinWith(r: Relay, stream: int, s: Socket): Relay { r.(sockets := r.sockets[stream := s]) }

  function Barrier(r: Relay, f: Frame, around: Surroundings): Relay {
    if !around.hostCurrent || around.mode.None? then Fail(r)
    else if f.streamId == 0 || f.eventSeq != r.head.event || f.ptyOffset != r.head.pty then Fail(r)
    else if f.streamId !in r.generations || f.deliveryGeneration != r.generations[f.streamId] then r
    else if !around.browserCurrent || f.streamId !in r.sockets
            || r.sockets[f.streamId].generation != f.deliveryGeneration then r
    else
      var s := r.sockets[f.streamId];
      var exact := s.pin == Some(Pin(around.mode.value, r.head));
      if !IsCatchingUp(s) || !Unadvanced(s.cursors) then Fail(r)
      else if s.pin.Some? && !exact then Fail(r)
      else match around.mode.value
        case WarmMode =>
          if s.cursors.first.None? then r
          else if exact then r
          else PinWith(r, f.streamId, s.(pin := Some(Pin(WarmMode, r.head))))
        case SnapshotMode(_) =>
          if around.published.None? then r
          else
            var p := around.published.value;
            if !p.matchesSession || !AtMost(p.cut, r.head) then r
            else if exact then (if s.cursors.first != Some(p.cut) then Fail(r) else r)
            else
              var seeded := s.cursors.(first := Some(p.cut), acked := Some(p.cut), sent := Some(p.cut));
              PinWith(r, f.streamId, s.(cursors := seeded, pin := Some(Pin(around.mode.value, r.head))))
  }

  // ---- Canonical and directed frames ----

  predicate IsMutation(f: Frame) { f.kind == PTY_OUTPUT || f.kind == RESIZE_APPLIED }

  /** The head after a canonical frame, if it is the next one. */
  function Committed(head: Mark, f: Frame): Option<Mark> {
    if !IsMutation(f) then None else After(head, f)
  }

  function FanOut(r: Relay, f: Frame, throws: set<int>): map<int, Socket> {
    map stream | stream in r.sockets ::
      var s := r.sockets[stream];
      if IsSynced(s) && stream in r.generations then Deliver(s, f, r.generations[stream], stream, stream in throws)
        else s
  }

  function Canonical(r: Relay, f: Frame, throws: set<int>): Relay {
    if f.deliveryGeneration != 0 || HasPinnedDelivery(r) || Committed(r.head, f).None? then Fail(r)
    else r.(head := Committed(r.head, f).value, sockets := FanOut(r, f, throws))
  }

  predicate WithinPin(s: Socket, f: Frame) {
    && s.pin.Some?
    && f.kind != RESET
    && var commit := s.pin.value.commit;
       if f.kind == REPLAY_COMMIT then f.eventSeq == commit.event && f.ptyOffset == commit.pty
       else
         && f.eventSeq <= commit.event && f.ptyOffset <= commit.pty
         && (f.kind == RESIZE_APPLIED || (f.kind == PTY_OUTPUT && f.ptyOffset + |f.payload| < U64
                                          && f.ptyOffset + |f.payload| <= commit.pty))
  }

  function Directed(r: Relay, f: Frame, throws: set<int>): Relay {
    if f.streamId !in r.generations || f.deliveryGeneration != r.generations[f.streamId] then r
    else if f.streamId in r.sockets && f.kind == RESET then Fail(r)
    else if f.streamId !in r.sockets || r.sockets[f.streamId].generation != f.deliveryGeneration
            || IsSynced(r.sockets[f.streamId]) then r
    else
      var s := r.sockets[f.streamId];
      if !WithinPin(s, f) then Fail(r)
      else if s.open && AdvanceFrame(s.cursors, f).SequenceError? then Fail(r)
      else r.(sockets := r.sockets[f.streamId := Deliver(s, f, f.deliveryGeneration, f.streamId, f.streamId in throws)])
  }

  function HandleDataFrame(r: Relay, f: Frame, around: Surroundings, throws: set<int>): Relay {
    if r.failed then r
    else if f.sessionEpoch != r.sessionEpoch then Fail(r)
    else if f.kind == DELIVERY_BARRIER then Barrier(r, f, around)
    else if f.streamId == 0 then Canonical(r, f, throws)
    else Directed(r, f, throws)
  }

  // ---- A batch of canonical frames ----

  /** What the batch processor takes on; other frames of a batch are handled one by one. */
  predicate TakenAsBatch(r: Relay, frames: seq<Frame>) {
    && |frames| >= 2 && !HasPinnedDelivery(r)
    && forall f :: f in frames ==> f.streamId == 0 && IsMutation(f)
  }

  /** The head after the whole batch, if every frame of it is the next one. */
  function CommittedEach(r: Relay, head: Mark, frames: seq<Frame>): Option<Mark>
    decreases |frames|
  {
    if frames == [] then Some(head)
    else if frames[0].sessionEpoch != r.sessionEpoch || frames[0].deliveryGeneration != 0 then None
    else
      var next := Committed(head, frames[0]);
      if next.None? then None else CommittedEach(r, next.value, frames[1..])
  }

  function RewrittenEach(frames: seq<Frame>, generation: int, stream: int): seq<Frame> {
    seq(|frames|, i requires 0 <= i < |frames| => Rewritten(frames[i], generation, stream))
  }

  /** A socket is served with the whole batch or not at all, unless a send throws: then what went out stays out,
      and the attachment keeps the cursors it had. */
  function DeliverEach(s: Socket, frames: seq<Frame>, generation: int, stream: int, cut: Option<nat>): Socket
    requires frames != []
  {
    if !s.open || s.generation != generation then s
    else
      var advanced := AdvanceEach(s.cursors, frames);
      if !advanced.Advanced? then s
      else if cut.Some? && cut.value < |frames| then
        s.(stream := s.stream + RewrittenEach(frames[..cut.value], generation, stream))
      else s.(cursors := advanced.next, stream := s.stream + RewrittenEach(frames, generation, stream))
  }

  function CutOf(cuts: map<int, nat>, stream: int): Option<nat> { if stream in cuts then Some(cuts[stream]) else None }

  function FanOutEach(r: Relay, frames: seq<Frame>, cuts: map<int, nat>): map<int, Socket>
    requires frames != []
  {
    map stream | stream in r.sockets ::
      var s := r.sockets[stream];
      if IsSynced(s) && stream in r.generations
      then DeliverEach(s, frames, r.generations[stream], stream, CutOf(cuts, stream)) else s
  }

  function Batch(r: Relay, frames: seq<Frame>, cuts: map<int, nat>): Relay {
    if r.failed || !TakenAsBatch(r, frames) then r
    else if CommittedEach(r, r.head, frames).None? then Fail(r)
    else r.(head := CommittedEach(r, r.head, frames).value, sockets := FanOutEach(r, frames, cuts))
  }

  // ---- The Browser's side ----

  const UNATTACHED: Cursors := Cursors(Some(AwaitingAttach), None, None, None)

  /** A new data socket for the client's current generation. */
  function Connect(r: Relay, stream: int): Relay {
    if stream !in r.generations then r
    else r.(sockets := r.sockets[stream := Socket(r.generations[stream], true, UNATTACHED, None, [])])
  }

  function Attach(r: Relay, stream: int, baseline: Option<Mark>): Relay {
    if stream !in r.sockets || stream !in r.generations || r.sockets[stream].generation != r.generations[stream] then r
    else if r.sockets[stream].cursors.dataState != Some(AwaitingAttach) then r
    else if baseline.Some? && !AtMost(baseline.value, r.head) then r
    else
      var s := r.sockets[stream];
      r.(sockets := r.sockets[stream := s.(cursors := Cursors(Some(CatchingUp), baseline, baseline, baseline),
                                           pin := None)])
  }

  function Acknowledge(r: Relay, stream: int, generation: int, mark: Mark): Relay {
    if stream !in r.generations || generation != r.generations[stream] || !AtMost(mark, r.head) then r
    else if stream !in r.sockets || r.sockets[stream].generation != generation then r
    else
      var s := r.sockets[stream];
      if s.cursors.sent.None? || !AtMost(mark, s.cursors.sent.value) then r
      else if s.cursors.acked.Some? && !AtMost(s.cursors.acked.value, mark) then r
      else r.(sockets := r.sockets[stream := s.(cursors := s.cursors.(acked := Some(mark)))])
  }

  /** A reset takes the socket away and moves the client to its next generation. */
  function Reset(r: Relay, stream: int): Relay {
    if stream !in r.generations || r.generations[stream] + 1 >= U64 then r
    else r.(generations := r.generations[stream := r.generations[stream] + 1], sockets := r.sockets - {stream})
  }

  function Close(r: Relay, stream: int): Relay {
    if stream !in r.sockets then r else r.(sockets := r.sockets[stream := r.sockets[stream].(open := false)])
  }

  function Step(r: Relay, e: Event): Relay {
    match e
    case HostFrame(f, around, throws) => HandleDataFrame(r, f, around, throws)
    case HostBatch(frames, cuts) => Batch(r, frames, cuts)
    case Connects(stream) => Connect(r, stream)
    case Attaches(stream, baseline) => Attach(r, stream, baseline)
    case Acknowledges(stream, generation, mark) => Acknowledge(r, stream, generation, mark)
    case Resets(stream) => Reset(r, stream)
    case Closes(stream) => Close(r, stream)
  }

  function Run(r: Relay, events: seq<Event>): Relay
    decreases |events|
  {
    if events == [] then r else Step(Run(r, events[..|events| - 1]), events[|events| - 1])
  }

  /** A Host connection begins: no recovery is pinned to an earlier one. */
  predicate Begins(r: Relay, history: seq<Mutation>) {
    !r.failed && r.sockets == map[] && 0 <= r.head.event <= |history| && 0 <= r.head.pty
  }

  // ---- What a socket's stream is ----

  /** Where a run of frames ends, if each follows the one before it. */
  function Tail(at: Mark, frames: seq<Frame>): Option<Mark>
    decreases |frames|
  {
    if frames == [] then Some(at)
    else
      var before := Tail(at, frames[..|frames| - 1]);
      if before.None? then None else After(before.value, frames[|frames| - 1])
  }

  ghost predicate Mutations(frames: seq<Frame>) { forall f :: f in frames ==> IsMutation(f) }

  /** Every frame carries the socket's generation and stream, and each mutation is the canonical one at its
      position. */
  ghost predicate Addressed(frames: seq<Frame>, generation: int, stream: int, history: seq<Mutation>) {
    forall f :: f in frames ==>
      && f.deliveryGeneration == generation && f.streamId == stream
      && (IsMutation(f) ==> 0 < f.eventSeq <= |history| && history[f.eventSeq - 1] == MutationOf(f))
  }

  /** seed+1 .. the pinned commit, one commit marker there, then commit+1 onward. */
  ghost predicate ReplayThenLive(seed: Mark, commit: Mark, frames: seq<Frame>) {
    exists k :: 0 <= k < |frames| && Split(seed, commit, frames, k)
  }

  ghost predicate Split(seed: Mark, commit: Mark, frames: seq<Frame>, k: nat)
    requires k < |frames|
  {
    && Mutations(frames[..k]) && Tail(seed, frames[..k]) == Some(commit)
    && frames[k].kind == REPLAY_COMMIT
    && Mutations(frames[k + 1..])
  }

  ghost predicate Credited(c: Cursors) {
    && (c.sent.Some? <==> c.first.Some?) && (c.acked.Some? <==> c.first.Some?)
    && (c.first.Some? ==>
          && 0 <= c.first.value.event && 0 <= c.first.value.pty
          && AtMost(c.first.value, c.acked.value) && AtMost(c.acked.value, c.sent.value)
          && Outstanding(c.acked.value, c.sent.value) <= MAX_DELIVERY_OUTSTANDING_BYTES)
  }

  /** What was sent on a socket, by the state it is in. */
  ghost predicate Streamed(s: Socket, head: Mark) {
    match s.cursors.dataState
    case None => false
    case Some(state) =>
      match state
      case AwaitingAttach => s.stream == [] && s.pin.None? && s.cursors == UNATTACHED
      case CatchingUp =>
        if s.pin.None? then
          s.stream == [] && Unadvanced(s.cursors) && (s.cursors.first.Some? ==> AtMost(s.cursors.first.value, head))
        else
          && s.cursors.first.Some? && s.cursors.sent.Some? && s.pin.value.commit == head
             && AtMost(s.cursors.sent.value, head)
          && Mutations(s.stream) && Tail(s.cursors.first.value, s.stream) == s.cursors.sent
      case Synced =>
        && s.pin.Some? && s.cursors.first.Some? && s.cursors.sent.Some? && AtMost(s.cursors.sent.value, head)
        && AtMost(s.pin.value.commit, s.cursors.sent.value)
        && Tail(s.cursors.first.value, s.stream).Some?
        && EndsRight(s.cursors.sent.value, Tail(s.cursors.first.value, s.stream).value, head)
        && ReplayThenLive(s.cursors.first.value, s.pin.value.commit, s.stream)
  }

  /** A synced socket's stream ends where its cursor is. After a send that threw in the middle of a batch it may
      end beyond, and so the cursor is behind the head for good. */
  predicate EndsRight(sent: Mark, end: Mark, head: Mark) {
    end == sent || (AtMost(sent, end) && AtMost(end, head) && sent.event < end.event)
  }

  /** A send threw in the middle of a batch. */
  predicate Torn(s: Socket) {
    IsSynced(s) && s.cursors.first.Some? && Tail(s.cursors.first.value, s.stream) != s.cursors.sent
  }

  ghost predicate Served(s: Socket, stream: int, head: Mark, history: seq<Mutation>) {
    Credited(s.cursors) && Streamed(s, head) && Addressed(s.stream, s.generation, stream, history)
  }

  ghost predicate Inv(r: Relay, history: seq<Mutation>) {
    && 0 <= r.head.event <= |history| && 0 <= r.head.pty
    && forall stream :: stream in r.sockets ==> Served(r.sockets[stream], stream, r.head, history)
  }

  /** What a Host of this history sends: at each position the mutation that is there. */
  predicate Genuine(f: Frame, history: seq<Mutation>) {
    IsMutation(f) ==> 0 < f.eventSeq <= |history| && history[f.eventSeq - 1] == MutationOf(f)
  }

  // ---- One delivery ----

  lemma TailAppend(at: Mark, frames: seq<Frame>, f: Frame)
    requires Tail(at, frames).Some?
    ensures Tail(at, frames + [f]) == After(Tail(at, frames).value, f)
  {
    assert (frames + [f])[..|frames|] == frames;
  }

  lemma AddressedAppend(frames: seq<Frame>, generation: int, stream: int, history: seq<Mutation>, f: Frame)
    requires Addressed(frames, generation, stream, history) && Genuine(f, history)
    ensures Addressed(frames + [Rewritten(f, generation, stream)], generation, stream, history)
  {
  }

  lemma AfterRewritten(at: Mark, f: Frame, generation: int, stream: int)
    ensures After(at, Rewritten(f, generation, stream)) == After(at, f)
  {
  }

  lemma AdvanceKeepsCredit(c: Cursors, f: Frame)
    requires Credited(c) && AdvanceFrame(c, f).Advanced?
    ensures var n := AdvanceFrame(c, f).next;
            && Credited(n) && n.sent == After(c.sent.value, f) && n.first == c.first && n.acked == c.acked
            && AtMost(c.sent.value, n.sent.value)
            && n.dataState == (if f.kind == REPLAY_COMMIT then Some(Synced) else c.dataState)
  {
  }

  /** A live frame goes to a synced socket only if the socket stood at the head, and leaves it at the new one. */
  lemma LiveDelivered(s: Socket, stream: int, head: Mark, next: Mark, history: seq<Mutation>, f: Frame, generation: int,
                      throws: bool)
    requires Served(s, stream, head, history) && IsSynced(s)
    requires Committed(head, f) == Some(next) && Genuine(f, history)
    ensures Served(Deliver(s, f, generation, stream, throws), stream, next, history)
  {
    var n := Deliver(s, f, generation, stream, throws);
    var seed, commit := s.cursors.first.value, s.pin.value.commit;
    if n == s {
      assert AtMost(head, next);
    } else {
      var sent := Rewritten(f, generation, stream);
      AdvanceKeepsCredit(s.cursors, f);
      assert s.cursors.sent.value.event == head.event;
      AfterRewritten(s.cursors.sent.value, f, generation, stream);
      TailAppend(seed, s.stream, sent);
      AddressedAppend(s.stream, generation, stream, history, f);
      var k :| 0 <= k < |s.stream| && Split(seed, commit, s.stream, k);
      SplitAppend(seed, commit, s.stream, k, sent);
      assert n.cursors.sent == Some(next);
    }
  }

  lemma SplitAppend(seed: Mark, commit: Mark, frames: seq<Frame>, k: nat, f: Frame)
    requires k < |frames| && Split(seed, commit, frames, k) && IsMutation(f)
    ensures Split(seed, commit, frames + [f], k)
  {
    assert (frames + [f])[..k] == frames[..k];
    assert (frames + [f])[k + 1..] == frames[k + 1..] + [f];
  }

  /** A directed frame within the pin extends the replay, and its commit marker ends it exactly at the head. */
  lemma ReplayDelivered(s: Socket, stream: int, head: Mark, history: seq<Mutation>, f: Frame, throws: bool)
    requires Served(s, stream, head, history) && PinnedInProgress(s) && WithinPin(s, f) && Genuine(f, history)
    ensures var n := Deliver(s, f, s.generation, stream, throws);
            Served(n, stream, head, history) && (IsSynced(n) ==> n.cursors.sent == Some(head))
  {
    var n := Deliver(s, f, s.generation, stream, throws);
    hide Tail, Addressed, ReplayThenLive, Mutations, Genuine, Credited;
    if n != s {
      var sent := Rewritten(f, s.generation, stream);
      AdvanceKeepsCredit(s.cursors, f);
      AfterRewritten(s.cursors.sent.value, f, s.generation, stream);
      TailAppend(s.cursors.first.value, s.stream, sent);
      AddressedAppend(s.stream, s.generation, stream, history, f);
      hide Deliver, AdvanceFrame;
      if f.kind == REPLAY_COMMIT {
        CommitSplits(s.cursors.first.value, s.pin.value.commit, s.stream, sent);
        assert n.cursors.sent == Some(head);
      } else {
        MutationsAppend(s.stream, sent);
        assert AtMost(n.cursors.sent.value, head);
      }
    }
  }

  lemma MutationsAppend(frames: seq<Frame>, f: Frame)
    requires Mutations(frames) && IsMutation(f)
    ensures Mutations(frames + [f])
  {
  }

  lemma CommitSplits(seed: Mark, commit: Mark, frames: seq<Frame>, f: Frame)
    requires Mutations(frames) && Tail(seed, frames) == Some(commit) && f.kind == REPLAY_COMMIT
    ensures ReplayThenLive(seed, commit, frames + [f])
  {
    var all := frames + [f];
    assert all[..|frames|] == frames && all[|frames| + 1..] == [];
    assert Split(seed, commit, all, |frames|);
  }

  // ---- Every event ----

  lemma UnpinnedServed(s: Socket, stream: int, head: Mark, next: Mark, history: seq<Mutation>)
    requires Served(s, stream, head, history) && !PinnedInProgress(s) && !IsSynced(s) && AtMost(head, next)
    ensures Served(s, stream, next, history)
  {
  }

  lemma CanonicalKeeps(r: Relay, f: Frame, throws: set<int>, history: seq<Mutation>)
    requires Inv(r, history) && Genuine(f, history)
    ensures Inv(Canonical(r, f, throws), history)
  {
    var n := Canonical(r, f, throws);
    if !n.failed || r.failed {
      if f.deliveryGeneration == 0 && !HasPinnedDelivery(r) && Committed(r.head, f).Some? {
        hide Served;
        forall stream | stream in n.sockets ensures Served(n.sockets[stream], stream, n.head, history) {
          var s := r.sockets[stream];
          if IsSynced(s) {
            SyncedMoves(s, stream, r.head, n.head, history);
            if stream in r.generations {
              LiveDelivered(s, stream, r.head, n.head, history, f, r.generations[stream], stream in throws);
            }
          } else {
            UnpinnedServed(s, stream, r.head, n.head, history);
          }
        }
      }
    }
  }

  // ---- A batch is its frames in turn ----

  /** A socket served frame by frame. */
  function DeliverInTurn(s: Socket, frames: seq<Frame>, generation: int, stream: int): Socket
    decreases |frames|
  {
    if frames == [] then s
    else DeliverInTurn(Deliver(s, frames[0], generation, stream, false), frames[1..], generation, stream)
  }

  lemma {:induction false} EachIsInTurn(s: Socket, frames: seq<Frame>, generation: int, stream: int)
    requires frames != [] && s.open && s.generation == generation && AdvanceEach(s.cursors, frames).Advanced?
    ensures DeliverEach(s, frames, generation, stream, None) == DeliverInTurn(s, frames, generation, stream)
    decreases |frames|
  {
    hide AdvanceFrame;
    var next := Deliver(s, frames[0], generation, stream, false);
    var rest := frames[1..];
    assert RewrittenEach(frames, generation, stream)
        == [Rewritten(frames[0], generation, stream)] + RewrittenEach(rest, generation, stream);
    if |frames| == 1 {
      assert rest == [] && DeliverInTurn(next, rest, generation, stream) == next;
    } else {
      EachIsInTurn(next, rest, generation, stream);
      assert s.stream + RewrittenEach(frames, generation, stream)
             == next.stream + RewrittenEach(rest, generation, stream);
    }
  }

  /** Served in turn, a socket keeps up with the head. */
  lemma {:induction false} InTurnServed(r: Relay, s: Socket, stream: int, head: Mark, history: seq<Mutation>,
                                        frames: seq<Frame>, generation: int)
    requires Served(s, stream, head, history) && IsSynced(s)
    requires CommittedEach(r, head, frames).Some? && forall f :: f in frames ==> Genuine(f, history)
    ensures Served(DeliverInTurn(s, frames, generation, stream), stream, CommittedEach(r, head, frames).value, history)
    ensures IsSynced(DeliverInTurn(s, frames, generation, stream))
    decreases |frames|
  {
    hide Served, AdvanceFrame, Genuine;
    if frames != [] {
      var f := frames[0];
      assert f in frames && forall x :: x in frames[1..] ==> x in frames;
      var next := Committed(head, f).value;
      LiveDelivered(s, stream, head, next, history, f, generation, false);
      SyncedStays(s, f, generation, stream);
      hide Deliver, Committed;
      InTurnServed(r, Deliver(s, f, generation, stream, false), stream, next, history, frames[1..], generation);
    }
  }

  lemma SyncedStays(s: Socket, f: Frame, generation: int, stream: int)
    ensures IsSynced(s) ==> IsSynced(Deliver(s, f, generation, stream, false))
  {
    hide After;
  }

  /** A first part of a batch commits a head on the way. */
  lemma {:induction false} CommittedPart(r: Relay, head: Mark, frames: seq<Frame>, k: nat)
    requires k <= |frames| && CommittedEach(r, head, frames).Some?
    ensures CommittedEach(r, head, frames[..k]).Some?
    ensures AtMost(CommittedEach(r, head, frames[..k]).value, CommittedEach(r, head, frames).value)
    ensures AtMost(head, CommittedEach(r, head, frames).value)
    ensures frames != [] ==> head.event < CommittedEach(r, head, frames).value.event
    decreases k + |frames|
  {
    if frames != [] {
      var next := Committed(head, frames[0]).value;
      assert AtMost(head, next) && head.event < next.event;
      hide Committed;
      CommittedPart(r, next, frames[1..], if k == 0 then 0 else k - 1);
      if k > 0 { assert frames[..k][1..] == frames[1..][..k - 1]; }
    }
  }

  lemma BatchServed(r: Relay, s: Socket, stream: int, history: seq<Mutation>, frames: seq<Frame>, cut: Option<nat>,
                    generation: int)
    requires Served(s, stream, r.head, history) && IsSynced(s) && frames != []
    requires forall f :: f in frames ==> IsMutation(f)
    requires CommittedEach(r, r.head, frames).Some? && forall f :: f in frames ==> Genuine(f, history)
    ensures Served(DeliverEach(s, frames, generation, stream, cut), stream, CommittedEach(r, r.head, frames).value,
                   history)
  {
    var next := CommittedEach(r, r.head, frames).value;
    hide Served, Genuine, CommittedEach;
    CommittedPart(r, r.head, frames, 0);
    if !s.open || s.generation != generation || !AdvanceEach(s.cursors, frames).Advanced? {
      SyncedMoves(s, stream, r.head, next, history);
    } else if cut.None? || cut.value >= |frames| {
      EachIsInTurn(s, frames, generation, stream);
      InTurnServed(r, s, stream, r.head, history, frames, generation);
    } else {
      CutServed(r, s, stream, history, frames, cut.value, generation);
    }
  }

  lemma CutServed(r: Relay, s: Socket, stream: int, history: seq<Mutation>, frames: seq<Frame>, k: nat, generation: int)
    requires Served(s, stream, r.head, history) && IsSynced(s) && k < |frames| && s.open && s.generation == generation
    requires AdvanceEach(s.cursors, frames).Advanced? && forall f :: f in frames ==> IsMutation(f)
    requires CommittedEach(r, r.head, frames).Some? && forall f :: f in frames ==> Genuine(f, history)
    ensures Served(DeliverEach(s, frames, generation, stream, Some(k)), stream, CommittedEach(r, r.head, frames).value,
                   history)
  {
    hide Served, Genuine, CommittedEach, AdvanceEach;
    var next := CommittedEach(r, r.head, frames).value;
    var part := frames[..k];
    CommittedPart(r, r.head, frames, k);
    if k == 0 {
      assert s.stream + RewrittenEach(part, generation, stream) == s.stream;
      SyncedMoves(s, stream, r.head, next, history);
    } else {
      if !AdvanceEach(s.cursors, part).Advanced? { ErrorStands(s.cursors, frames, k); }
      forall f | f in part ensures Genuine(f, history) { assert f in frames; }
      EachIsInTurn(s, part, generation, stream);
      InTurnServed(r, s, stream, r.head, history, part, generation);
      var m := DeliverEach(s, part, generation, stream, None);
      SyncedMarks(s, stream, r.head, history);
      assert forall f :: f in part ==> f in frames && IsMutation(f);
      AdvanceEachKeeps(s.cursors, part);
      TornServed(s, m, stream, r.head, CommittedEach(r, r.head, part).value, next, history);
    }
  }

  lemma SyncedMarks(s: Socket, stream: int, head: Mark, history: seq<Mutation>)
    requires Served(s, stream, head, history) && IsSynced(s)
    ensures s.cursors.first.Some? && s.cursors.sent.Some? && s.cursors.acked.Some? && s.pin.Some?
  {
    hide Tail, Addressed, ReplayThenLive;
  }

  lemma {:induction false} AdvanceEachKeeps(c: Cursors, frames: seq<Frame>)
    requires frames != [] && AdvanceEach(c, frames).Advanced? && c.sent.Some? && c.acked.Some?
    requires forall f :: f in frames ==> IsMutation(f)
    ensures var n := AdvanceEach(c, frames).next;
            n.first == c.first && n.sent.Some? && AtMost(c.sent.value, n.sent.value)
              && c.sent.value.event < n.sent.value.event
    decreases |frames|
  {
    var next := AdvanceFrame(c, frames[0]).next;
    assert frames[0] in frames && forall f :: f in frames[1..] ==> f in frames;
    assert next.first == c.first && next.sent.Some? && next.acked == c.acked && AtMost(c.sent.value, next.sent.value)
           && c.sent.value.event < next.sent.value.event;
    hide AdvanceFrame;
    if |frames| > 1 { AdvanceEachKeeps(next, frames[1..]); }
  }

  /** What a first part of the batch made of the stream, with the cursors as they were before it. */
  lemma TornServed(s: Socket, m: Socket, stream: int, head: Mark, middle: Mark, next: Mark, history: seq<Mutation>)
    requires Served(s, stream, head, history) && IsSynced(s) && Served(m, stream, middle, history) && IsSynced(m)
    requires m == s.(cursors := m.cursors, stream := m.stream) && m.cursors.first == s.cursors.first
    requires m.cursors.sent.Some? && s.cursors.sent.Some? && AtMost(s.cursors.sent.value, m.cursors.sent.value)
    requires s.cursors.sent.value.event < m.cursors.sent.value.event
    requires AtMost(head, next) && AtMost(middle, next) && head.event < next.event
    ensures Served(s.(stream := m.stream), stream, next, history)
  {
    hide Tail, Addressed, ReplayThenLive, Credited;
  }

  lemma BatchKeeps(r: Relay, frames: seq<Frame>, cuts: map<int, nat>, history: seq<Mutation>)
    requires Inv(r, history) && forall f :: f in frames ==> Genuine(f, history)
    ensures Inv(Batch(r, frames, cuts), history)
  {
    hide Served, Genuine, DeliverEach, HasPinnedDelivery;
    var n := Batch(r, frames, cuts);
    if !r.failed && TakenAsBatch(r, frames) {
      if CommittedEach(r, r.head, frames).Some? {
        CommittedPart(r, r.head, frames, 0);
        LastIsGenuine(r, r.head, frames, history);
        forall stream | stream in n.sockets ensures Served(n.sockets[stream], stream, n.head, history) {
          var s := r.sockets[stream];
          if IsSynced(s) {
            SyncedMoves(s, stream, r.head, n.head, history);
            if stream in r.generations {
              BatchServed(r, s, stream, history, frames, CutOf(cuts, stream), r.generations[stream]);
            }
          } else {
            NotPinned(r, stream);
            UnpinnedServed(s, stream, r.head, n.head, history);
          }
        }
      }
    }
  }

  lemma NotPinned(r: Relay, stream: int)
    requires !HasPinnedDelivery(r) && stream in r.sockets
    ensures !PinnedInProgress(r.sockets[stream])
  {
  }

  /** The head that a batch of genuine frames commits is in the history. */
  lemma {:induction false} LastIsGenuine(r: Relay, head: Mark, frames: seq<Frame>, history: seq<Mutation>)
    requires CommittedEach(r, head, frames).Some? && (forall f :: f in frames ==> Genuine(f, history))
             && 0 <= head.event <= |history|
    requires 0 <= head.pty
    ensures 0 <= CommittedEach(r, head, frames).value.event <= |history|
            && 0 <= CommittedEach(r, head, frames).value.pty
    decreases |frames|
  {
    if frames != [] {
      var f := frames[0];
      assert f in frames && Genuine(f, history) && forall x :: x in frames[1..] ==> x in frames;
      var next := Committed(head, f).value;
      assert 0 <= next.event <= |history| && 0 <= next.pty;
      hide Committed, Genuine;
      LastIsGenuine(r, next, frames[1..], history);
    }
  }

  lemma SyncedMoves(s: Socket, stream: int, head: Mark, next: Mark, history: seq<Mutation>)
    requires Served(s, stream, head, history) && IsSynced(s) && AtMost(head, next)
    ensures Served(s, stream, next, history)
  {
  }

  /** One socket replaced by another of its kind. */
  lemma OneServed(r: Relay, stream: int, s: Socket, history: seq<Mutation>)
    requires Inv(r, history) && Served(s, stream, r.head, history)
    ensures Inv(r.(sockets := r.sockets[stream := s]), history)
  {
    hide Served;
  }

  lemma DirectedKeeps(r: Relay, f: Frame, throws: set<int>, history: seq<Mutation>)
    requires Inv(r, history) && Genuine(f, history)
    ensures Inv(Directed(r, f, throws), history)
  {
    var n := Directed(r, f, throws);
    if n != r && n != Fail(r) {
      var s := r.sockets[f.streamId];
      hide Served, Credited;
      if PinnedInProgress(s) {
        ReplayDelivered(s, f.streamId, r.head, history, f, f.streamId in throws);
        OneServed(r, f.streamId, Deliver(s, f, f.deliveryGeneration, f.streamId, f.streamId in throws), history);
      } else {
        PinnedIsCatchingUp(s, f.streamId, r.head, history);
      }
    }
  }

  lemma PinnedIsCatchingUp(s: Socket, stream: int, head: Mark, history: seq<Mutation>)
    requires Served(s, stream, head, history) && s.pin.Some?
    ensures IsCatchingUp(s) || IsSynced(s)
  {
  }

  lemma BarrierKeeps(r: Relay, f: Frame, around: Surroundings, history: seq<Mutation>)
    requires Inv(r, history)
             && (around.published.Some? ==>
                   0 <= around.published.value.cut.event && 0 <= around.published.value.cut.pty)
    ensures Inv(Barrier(r, f, around), history)
  {
    var n := Barrier(r, f, around);
    if n != r && n != Fail(r) {
      var s := r.sockets[f.streamId];
      assert s.pin.None?;
      PinServed(r, f.streamId, n.sockets[f.streamId], history);
      hide Served;
      OneServed(r, f.streamId, n.sockets[f.streamId], history);
    }
  }

  /** A pin freezes the commit at the head, over a stream that is still empty. */
  lemma PinServed(r: Relay, stream: int, n: Socket, history: seq<Mutation>)
    requires Inv(r, history) && stream in r.sockets
    requires var s := r.sockets[stream];
             && IsCatchingUp(s) && s.pin.None? && n.pin.Some? && n.pin.value.commit == r.head
             && n == s.(cursors := n.cursors, pin := n.pin) && n.cursors.dataState == s.cursors.dataState
             && n.cursors.first.Some? && Unadvanced(n.cursors)
             && (n.cursors == s.cursors || (AtMost(n.cursors.first.value, r.head)
                                            && 0 <= n.cursors.first.value.event && 0 <= n.cursors.first.value.pty))
    ensures Served(n, stream, r.head, history)
  {
    assert n.stream == [];
  }

  /** The Host's frames are genuine, and marks are decoded from unsigned decimal strings. */
  predicate Admissible(e: Event, history: seq<Mutation>) {
    match e
    case HostFrame(f, around, _) =>
      && Genuine(f, history)
      && (around.published.Some? ==> 0 <= around.published.value.cut.event && 0 <= around.published.value.cut.pty)
    case HostBatch(frames, _) => forall f :: f in frames ==> Genuine(f, history)
    case Attaches(_, baseline) => baseline.Some? ==> 0 <= baseline.value.event && 0 <= baseline.value.pty
    case _ => true
  }

  lemma HostFrameKeeps(r: Relay, f: Frame, around: Surroundings, throws: set<int>, history: seq<Mutation>)
    requires Inv(r, history) && Admissible(HostFrame(f, around, throws), history)
    ensures Inv(HandleDataFrame(r, f, around, throws), history)
  {
    hide Inv, Barrier, Canonical, Directed, Genuine;
    BarrierKeeps(r, f, around, history);
    CanonicalKeeps(r, f, throws, history);
    DirectedKeeps(r, f, throws, history);
    FailKeeps(r, history);
  }

  lemma FailKeeps(r: Relay, history: seq<Mutation>)
    requires Inv(r, history)
    ensures Inv(Fail(r), history)
  {
    hide Served;
  }

  lemma AttachKeeps(r: Relay, stream: int, baseline: Option<Mark>, history: seq<Mutation>)
    requires Inv(r, history) && (baseline.Some? ==> 0 <= baseline.value.event && 0 <= baseline.value.pty)
    ensures Inv(Attach(r, stream, baseline), history)
  {
    var n := Attach(r, stream, baseline);
    if n != r {
      var s := n.sockets[stream];
      assert s.stream == [];
      assert Served(s, stream, r.head, history);
      OneServed(r, stream, s, history);
    }
  }

  lemma AcknowledgeKeeps(r: Relay, stream: int, generation: int, mark: Mark, history: seq<Mutation>)
    requires Inv(r, history)
    ensures Inv(Acknowledge(r, stream, generation, mark), history)
  {
    var n := Acknowledge(r, stream, generation, mark);
    if n != r {
      AcknowledgedServed(r.sockets[stream], stream, r.head, history, mark);
      OneServed(r, stream, n.sockets[stream], history);
    }
  }

  /** An acknowledgement frees credit, and can only be of what was sent. */
  lemma AcknowledgedServed(s: Socket, stream: int, head: Mark, history: seq<Mutation>, mark: Mark)
    requires Served(s, stream, head, history) && s.cursors.sent.Some? && AtMost(mark, s.cursors.sent.value)
    requires s.cursors.acked.Some? ==> AtMost(s.cursors.acked.value, mark)
    ensures Served(s.(cursors := s.cursors.(acked := Some(mark))), stream, head, history)
  {
    if IsCatchingUp(s) && s.pin.None? { assert mark == s.cursors.acked.value; }
  }

  lemma StepKeeps(r: Relay, e: Event, history: seq<Mutation>)
    requires Inv(r, history) && Admissible(e, history)
    ensures Inv(Step(r, e), history)
  {
    match e
    case HostFrame(f, around, throws) => HostFrameKeeps(r, f, around, throws, history);
    case HostBatch(frames, cuts) => BatchKeeps(r, frames, cuts, history);
    case Connects(stream) =>
      if stream in r.generations {
        OneServed(r, stream, Socket(r.generations[stream], true, UNATTACHED, None, []), history);
      }
    case Attaches(stream, baseline) => AttachKeeps(r, stream, baseline, history);
    case Acknowledges(stream, generation, mark) => AcknowledgeKeeps(r, stream, generation, mark, history);
    case Resets(_) => hide Served;
    case Closes(stream) => if stream in r.sockets { OneServed(r, stream, r.sockets[stream].(open := false), history); }
  }

  // ---- Runs ----

  /** The relay's invariant over every run of one Host connection: on every socket, within its generation,
      seed+1 up to the pinned commit, one commit marker, then the live frames; acknowledged at most sent,
      sent at most the head, and never more outstanding than the credit. */
  lemma {:induction false} StreamsStayWhole(r: Relay, events: seq<Event>, history: seq<Mutation>)
    requires Begins(r, history) && forall e :: e in events ==> Admissible(e, history)
    ensures Inv(Run(r, events), history)
    decreases |events|
  {
    if events != [] {
      var earlier := events[..|events| - 1];
      assert events[|events| - 1] in events && forall e :: e in earlier ==> e in events;
      hide Inv, Step, Admissible;
      StreamsStayWhole(r, earlier, history);
      StepKeeps(Run(r, earlier), events[|events| - 1], history);
    }
  }

  /** The mutations of a run of frames, without its markers. */
  function Applied(frames: seq<Frame>): seq<Mutation> {
    if frames == [] then []
    else
      var f := frames[|frames| - 1];
      Applied(frames[..|frames| - 1]) + if IsMutation(f) then [MutationOf(f)] else []
  }

  lemma {:induction false} AppliedIsHistory(at: Mark, frames: seq<Frame>, generation: int, stream: int,
                                            history: seq<Mutation>)
    requires Tail(at, frames).Some? && Addressed(frames, generation, stream, history)
    requires 0 <= at.event
    requires at.event <= |history|
    ensures var end := Tail(at, frames).value.event;
            at.event <= end <= |history| && Applied(frames) == history[at.event..end]
    decreases |frames|
  {
    if frames != [] {
      var before := frames[..|frames| - 1];
      var f := frames[|frames| - 1];
      assert f in frames && forall x :: x in before ==> x in frames;
      AppliedIsHistory(at, before, generation, stream, history);
      var middle := Tail(at, before).value.event;
      if IsMutation(f) {
        OneLonger(history, at.event, middle);
      }
    }
  }

  lemma OneLonger(history: seq<Mutation>, from: nat, to: nat)
    requires from <= to < |history|
    ensures history[from..to + 1] == history[from..to] + [history[to]]
  {
  }

  /** What a Browser received on a socket is exactly the canonical history after its seed: each mutation up to
      where the stream ends once, in order, whatever was replayed, pinned, sent live or sent in batches. The stream
      ends at the socket's cursor, unless a send threw in the middle of a batch. */
  lemma BrowserReceivesHistory(r: Relay, events: seq<Event>, history: seq<Mutation>, stream: int)
    requires Begins(r, history) && forall e :: e in events ==> Admissible(e, history)
    requires stream in Run(r, events).sockets && IsSynced(Run(r, events).sockets[stream])
    ensures var s := Run(r, events).sockets[stream]; var head := Run(r, events).head;
            && s.cursors.first.Some? && s.cursors.sent.Some? && Tail(s.cursors.first.value, s.stream).Some?
            && var seed, end := s.cursors.first.value, Tail(s.cursors.first.value, s.stream).value;
               && 0 <= seed.event <= end.event <= head.event <= |history|
               && Applied(s.stream) == history[seed.event..end.event]
               && (end == s.cursors.sent.value || (Torn(s) && s.cursors.sent.value.event < end.event))
  {
    StreamsStayWhole(r, events, history);
    hide Run, Begins, Admissible;
    var n := Run(r, events);
    var s := n.sockets[stream];
    assert Served(s, stream, n.head, history);
    SyncedMarks(s, stream, n.head, history);
    SyncedEnds(s, stream, n.head, history);
    AppliedIsHistory(s.cursors.first.value, s.stream, s.generation, stream, history);
  }

  lemma SyncedEnds(s: Socket, stream: int, head: Mark, history: seq<Mutation>)
    requires Served(s, stream, head, history) && IsSynced(s) && s.cursors.first.Some? && s.cursors.sent.Some?
    ensures Tail(s.cursors.first.value, s.stream).Some?
            && 0 <= s.cursors.first.value.event <= s.cursors.sent.value.event
    ensures var end := Tail(s.cursors.first.value, s.stream).value;
            && AtMost(s.cursors.sent.value, end) && AtMost(end, head)
            && (end != s.cursors.sent.value ==> Torn(s) && s.cursors.sent.value.event < end.event)
  {
    hide Addressed, ReplayThenLive;
    hide Split;
    StreamBegins(s, stream, head, history);
  }

  lemma StreamBegins(s: Socket, stream: int, head: Mark, history: seq<Mutation>)
    requires Served(s, stream, head, history) && IsSynced(s) && s.cursors.first.Some? && s.cursors.sent.Some?
    ensures 0 <= s.cursors.first.value.event <= s.cursors.sent.value.event
  {
    hide Tail, Addressed, ReplayThenLive;
  }

  /** After a send that threw in the middle of a batch, nothing more goes out on that socket: its stream stays as
      it is until a reset or a new connection takes the socket away. */
  lemma NothingFollowsATear(r: Relay, e: Event, history: seq<Mutation>, stream: int)
    requires Inv(r, history) && Admissible(e, history) && stream in r.sockets && Torn(r.sockets[stream])
    ensures var n := Step(r, e);
            || stream !in n.sockets || e == Connects(stream)
            || (n.sockets[stream].stream == r.sockets[stream].stream && Torn(n.sockets[stream]))
  {
    var s := r.sockets[stream];
    assert Served(s, stream, r.head, history);
    TornIsBehind(s, stream, r.head, history);
    hide Inv, Served, Tail, Admissible, Genuine;
    match e
    case HostFrame(f, around, throws) => FrameAfterTear(r, f, around, throws, stream);
    case HostBatch(frames, cuts) => BatchAfterTear(r, frames, cuts, stream);
    case _ =>
  }

  lemma TornIsBehind(s: Socket, stream: int, head: Mark, history: seq<Mutation>)
    requires Served(s, stream, head, history) && Torn(s)
    ensures s.cursors.sent.Some? && s.cursors.sent.value.event < head.event
  {
    hide Tail, Addressed, ReplayThenLive;
  }

  lemma FrameAfterTear(r: Relay, f: Frame, around: Surroundings, throws: set<int>, stream: int)
    requires stream in r.sockets && Torn(r.sockets[stream])
    requires r.sockets[stream].cursors.sent.Some? && r.sockets[stream].cursors.sent.value.event < r.head.event
    ensures stream in HandleDataFrame(r, f, around, throws).sockets
    ensures HandleDataFrame(r, f, around, throws).sockets[stream] == r.sockets[stream]
  {
    hide WithinPin, HasPinnedDelivery, Tail;
    if Committed(r.head, f).Some? && stream in r.generations {
      assert !AdvanceFrame(r.sockets[stream].cursors, f).Advanced?;
    }
    hide AdvanceFrame, Committed;
  }

  lemma BatchAfterTear(r: Relay, frames: seq<Frame>, cuts: map<int, nat>, stream: int)
    requires stream in r.sockets && Torn(r.sockets[stream])
    requires r.sockets[stream].cursors.sent.Some? && r.sockets[stream].cursors.sent.value.event < r.head.event
    ensures stream in Batch(r, frames, cuts).sockets && Batch(r, frames, cuts).sockets[stream] == r.sockets[stream]
  {
    hide HasPinnedDelivery, Tail;
    if TakenAsBatch(r, frames) && CommittedEach(r, r.head, frames).Some? {
      assert !AdvanceFrame(r.sockets[stream].cursors, frames[0]).Advanced?;
      assert !AdvanceEach(r.sockets[stream].cursors, frames).Advanced?;
    }
    hide AdvanceFrame, AdvanceEach, CommittedEach;
  }

  lemma NoMoveWhilePinned(r: Relay, e: Event)
    requires HasPinnedDelivery(r)
    ensures Step(r, e).head == r.head
  {
    hide Deliver, AdvanceFrame, WithinPin, CommittedEach;
  }

  /** From the pin to its commit, its reset or the loss of its socket: over every run the canonical head stands at
      the commit of every recovery that is pinned and unfinished, and it does not move while there is any. */
  lemma {:induction false} HeadIsFixedWhilePinned(r: Relay, events: seq<Event>, more: seq<Event>,
                                                  history: seq<Mutation>, stream: int)
    requires Begins(r, history) && forall e :: e in events ==> Admissible(e, history)
    requires stream in Run(r, events).sockets && PinnedInProgress(Run(r, events).sockets[stream])
    requires forall k :: 0 <= k < |more| ==> HasPinnedDelivery(Run(Run(r, events), more[..k]))
    ensures Run(Run(r, events), more).head == Run(r, events).head == Run(r, events).sockets[stream].pin.value.commit
    decreases |more|
  {
    hide Step, Tail, Addressed, HasPinnedDelivery;
    if more == [] {
      StreamsStayWhole(r, events, history);
      hide Run, Begins;
      assert Served(Run(r, events).sockets[stream], stream, Run(r, events).head, history);
      hide Tail, Addressed;
    } else {
      var last := |more| - 1;
      forall k | 0 <= k < last ensures HasPinnedDelivery(Run(Run(r, events), more[..last][..k])) {
        assert more[..last][..k] == more[..k];
      }
      HeadIsFixedWhilePinned(r, events, more[..last], history, stream);
      hide Step, HasPinnedDelivery, Begins;
      NoMoveWhilePinned(Run(Run(r, events), more[..last]), more[last]);
    }
  }

  /** A socket becomes synced only by its commit marker, standing exactly at the pinned commit, which is the
      canonical head of that moment. */
  lemma SyncsExactlyAtHead(r: Relay, e: Event, history: seq<Mutation>, stream: int)
    requires Inv(r, history) && Admissible(e, history)
    requires stream in Step(r, e).sockets && IsSynced(Step(r, e).sockets[stream])
    requires !(stream in r.sockets && IsSynced(r.sockets[stream]))
    ensures var n := Step(r, e); var s := n.sockets[stream];
            && s.cursors.sent == Some(n.head) && s.pin.Some? && s.pin.value.commit == n.head && n.head == r.head
            && e.HostFrame? && e.frame.kind == REPLAY_COMMIT
  {
    var n := Step(r, e);
    OnlyReplaySyncs(r, e, stream);
    var s := r.sockets[stream];
    hide Step;
    assert Served(s, stream, r.head, history);
    PinnedIsCatchingUp(s, stream, r.head, history);
    ReplayDelivered(s, stream, r.head, history, e.frame, stream in e.throws);
    hide Served, AdvanceFrame;
  }

  lemma OnlyReplaySyncs(r: Relay, e: Event, stream: int)
    requires stream in Step(r, e).sockets && IsSynced(Step(r, e).sockets[stream])
    requires !(stream in r.sockets && IsSynced(r.sockets[stream]))
    ensures e.HostFrame? && stream in r.sockets && WithinPin(r.sockets[stream], e.frame)
    ensures e.frame.kind == REPLAY_COMMIT && Step(r, e).head == r.head
    ensures Step(r, e).sockets[stream]
         == Deliver(r.sockets[stream], e.frame, r.sockets[stream].generation, stream, stream in e.throws)
  {
    hide WithinPin, After;
  }

  /** A directed replay that the Host admitted under its own cap never runs out of the relay's credit,
      whatever the Browser acknowledges or leaves unacknowledged meanwhile. */
  lemma CappedReplayFitsCredit(s: Socket, stream: int, head: Mark, history: seq<Mutation>, f: Frame)
    requires Served(s, stream, head, history) && PinnedInProgress(s) && WithinPin(s, f)
    requires s.cursors.first.Some?
    requires Outstanding(s.cursors.first.value, s.pin.value.commit) <= WARM_REPLAY_MAX_OUTSTANDING_BYTES
    ensures !AdvanceFrame(s.cursors, f).CreditExceeded?
  {
    hide Streamed, Addressed;
    var next := After(s.cursors.sent.value, f);
    if next.Some? {
      assert AtMost(next.value, s.pin.value.commit);
      assert Outstanding(s.cursors.acked.value, next.value) <= Outstanding(s.cursors.first.value, s.pin.value.commit);
    }
  }
}
