/** The Browser's delivery coordinator: warm replay, detached restore, buffering, commit and adoption.

    `Coordinator` is the value of its fields, of every replica ever seen, and of the asynchronous loads
    and restores still under way; each `await` of the source ends one event and starts another. How
    replicas and the host behave is a `World`: whether a write returns or throws, and the canonical
    history of each session epoch. */
module Coordination {
  import opened Collections
  import opened DataFrames
  import opened ReplicaCursors

  type Handle = nat

  datatype State = Idle | AwaitingControl | Replaying | Restoring | Live | Resyncing | Closed
  datatype ResyncReason = JournalGap | SlowClient | EngineMismatch | EpochChanged | RestoreFailed

  /** What a throw carries: a protocol error, or anything else. */
  datatype Failure = Protocol(code: ErrorCode) | Other

  /** A replica: what was written to it in full, whether a write ever failed, how often it was disposed of. */
  datatype Sink = Sink(engineId: string, applied: seq<Mutation>, disposals: nat)

  /** A snapshot's description; `artifact` stands for everything that only its download looks at. */
  datatype Manifest = Manifest(engineId: string, cut: Cursor, commitEventSeq: int, commitPtyOffset: int,
                               artifact: string)

  datatype Start =
    | Warm(streamId: int, cursor: Cursor, expectedCommit: Cursor)
    | Snapshot(streamId: int, manifest: Manifest)

  datatype Delivery = Delivery(
    start: Start, streamId: int, received: Cursor, applied: Cursor, buffered: seq<Frame>, bufferedBytes: nat,
    commit: Option<Cursor>, expectedCommit: Cursor, candidate: Option<Handle>)

  /** A restore under way: waiting for the download, or for the host. */
  datatype Task = Loading(manifest: Manifest) | Building(manifest: Manifest)

  datatype World = World(
    engineId: string,
    maxBufferedTailBytes: nat,
    maxBufferedTailFrames: nat,
    canonical: int -> seq<Mutation>,            // by session epoch
    writeFails: nat -> Option<Failure>,         // by the number of the write
    writeLands: nat -> bool,                    // whether a write that throws had taken effect
    adoptFails: nat -> Option<Failure>)         // by the number of the restore attempt

  datatype Coordinator = Coordinator(
    state: State,
    delivery: Option<Delivery>,
    pending: seq<Frame>,
    pendingBytes: nat,
    live: Option<Handle>,
    activeCursor: Option<Cursor>,
    fence: Option<int>,
    restoreAbort: Option<nat>,
    restoreTimer: Option<nat>,
    restoreAttempt: nat,
    // the surroundings
    aborted: set<nat>,
    tasks: map<nat, Task>,
    sinks: map<Handle, Sink>,
    writes: nat,
    // histories
    adopted: set<Handle>,     // every replica that is or was live
    origin: map<Handle, nat>, // which attempt a restored replica came from
    stale: bool,              // a write took effect on the live replica beyond the cursor that was kept
    mismatched: bool)         // a commit found what was applied different from what was received

  function ManifestCommit(m: Manifest): Cursor {
    m.cut.(lastEventSeq := m.commitEventSeq, nextPtyOffset := m.commitPtyOffset)
  }

  function Generation(s: Start): int {
    if s.Warm? then s.cursor.deliveryGeneration else s.manifest.cut.deliveryGeneration
  }

  predicate SameTerminalState(a: Cursor, b: Cursor) {
    a.sessionEpoch == b.sessionEpoch && a.lastEventSeq == b.lastEventSeq && a.nextPtyOffset == b.nextPtyOffset
  }

  function FrameBytes(f: Frame): nat { DATA_HEADER_BYTES + |f.payload| }

  function TotalBytes(frames: seq<Frame>): nat {
    if frames == [] then 0 else TotalBytes(frames[..|frames| - 1]) + FrameBytes(frames[|frames| - 1])
  }

  /** The frames of one generation and stream, and those of a later generation. */
  function Ready(frames: seq<Frame>, generation: int, streamId: int): seq<Frame> {
    if frames == [] then []
    else
      var before := Ready(frames[..|frames| - 1], generation, streamId);
      var f := frames[|frames| - 1];
      if f.deliveryGeneration == generation && f.streamId == streamId then before + [f] else before
  }

  function Retained(frames: seq<Frame>, generation: int, streamId: int): seq<Frame> {
    if frames == [] then []
    else
      var before := Retained(frames[..|frames| - 1], generation, streamId);
      var f := frames[|frames| - 1];
      if !(f.deliveryGeneration == generation && f.streamId == streamId) && f.deliveryGeneration > generation
      then before + [f] else before
  }

  function NotBefore(frames: seq<Frame>, generation: int): seq<Frame> {
    if frames == [] then []
    else
      var before := NotBefore(frames[..|frames| - 1], generation);
      var f := frames[|frames| - 1];
      if f.deliveryGeneration >= generation then before + [f] else before
  }

  // ---- Ending a delivery ----

  function Dispose(sinks: map<Handle, Sink>, h: Handle): map<Handle, Sink> {
    if h in sinks then sinks[h := sinks[h].(disposals := sinks[h].disposals + 1)] else sinks
  }

  function CancelRestore(c: Coordinator): Coordinator {
    c.(restoreAttempt := c.restoreAttempt + 1,
       aborted := if c.restoreAbort.Some? then c.aborted + {c.restoreAbort.value} else c.aborted,
       restoreAbort := None, restoreTimer := None)
  }

  /** The candidate, unless it is the live replica, is disposed of with its delivery. */
  function DropDelivery(c: Coordinator): Coordinator {
    var held := if c.delivery.Some? then c.delivery.value.candidate else None;
    c.(sinks := if held.Some? && held != c.live then Dispose(c.sinks, held.value) else c.sinks, delivery := None)
  }

  function DiscardDelivery(c: Coordinator): Coordinator { DropDelivery(CancelRestore(c)) }

  function RequestResync(c: Coordinator, reason: ResyncReason): Coordinator {
    if c.state.Closed? || c.state.Resyncing? then c
    else DiscardDelivery(c.(state := Resyncing)).(pending := [], pendingBytes := 0)
  }

  function AdvanceFence(c: Coordinator, generation: int, resume: bool): Coordinator {
    if c.fence.Some? && generation <= c.fence.value then c
    else
      var c1 := c.(fence := Some(generation));
      var c2 := if c1.delivery.Some? && c1.delivery.value.received.deliveryGeneration < generation
                then DiscardDelivery(c1) else c1;
      var kept := NotBefore(c2.pending, generation);
      c2.(pending := kept, pendingBytes := TotalBytes(kept),
          state := if !c2.state.Closed? && (!c2.state.Resyncing? || resume) then AwaitingControl else c2.state)
  }

  // ---- Writing ----

  /** One write to a replica. A write that throws leaves it with the mutation or without. */
  function Write(w: World, c: Coordinator, h: Handle, m: Mutation): (Coordinator, Option<Failure>)
    requires h in c.sinks
  {
    var failure := w.writeFails(c.writes);
    var sink := c.sinks[h];
    var applied := if failure.None? || w.writeLands(c.writes) then sink.applied + [m] else sink.applied;
    (c.(writes := c.writes + 1, sinks := c.sinks[h := sink.(applied := applied)]), failure)
  }

  predicate BudgetExceeded(w: World, c: Coordinator) {
    var held := if c.delivery.Some? then c.delivery.value.bufferedBytes else 0;
    var count := if c.delivery.Some? then |c.delivery.value.buffered| else 0;
    c.pendingBytes + held > w.maxBufferedTailBytes || |c.pending| + count > w.maxBufferedTailFrames
  }

  function BufferPending(w: World, c: Coordinator, f: Frame): Coordinator {
    var c1 := c.(pending := c.pending + [f], pendingBytes := c.pendingBytes + FrameBytes(f));
    if BudgetExceeded(w, c1) then RequestResync(c1, SlowClient) else c1
  }

  function AcceptCommit(d: Delivery, f: Frame): Result<Delivery> {
    if |f.payload| != 0 then Err(BadPayload)
    else if f.sessionEpoch != d.received.sessionEpoch || f.eventSeq != d.received.lastEventSeq
            || f.ptyOffset != d.received.nextPtyOffset then Err(EventGap)
    else if f.eventSeq != d.expectedCommit.lastEventSeq || f.ptyOffset != d.expectedCommit.nextPtyOffset then
      Err(EventGap)
    else Ok(d.(commit := Some(d.received)))
  }

  /** Received frames and applied frames agree, as tryCommit checks before it goes live. */
  predicate CaughtUp(d: Delivery) {
    d.applied.lastEventSeq == d.received.lastEventSeq && d.applied.nextPtyOffset == d.received.nextPtyOffset
  }

  function Adopt(c: Coordinator, d: Delivery): Coordinator
    requires d.candidate.Some?
  {
    c.(live := d.candidate, activeCursor := Some(d.applied), restoreAbort := None,
       adopted := c.adopted + {d.candidate.value}, stale := false)
  }

  function TryCommit(w: World, c: Coordinator): (Coordinator, Option<Failure>)
    requires c.delivery.Some?
  {
    var d := c.delivery.value;
    if d.candidate.None? || d.commit.None? then (c, None)
    else if !CaughtUp(d) then (RequestResync(c.(mismatched := true), JournalGap), None)
    else if c.state.Restoring? && w.adoptFails(c.restoreAttempt).Some? then (c, w.adoptFails(c.restoreAttempt))
    else
      var c1 := if c.state.Restoring? then Adopt(c, d) else c;
      (c1.(restoreTimer := None, state := Live), None)
  }

  /** One more mutation, written to the candidate if there is one and buffered otherwise. */
  function Mutate(w: World, c: Coordinator, f: Frame): (Coordinator, Option<Failure>)
    requires c.delivery.Some? && (c.delivery.value.candidate.Some? ==> c.delivery.value.candidate.value in c.sinks)
  {
    var d := c.delivery.value;
    var received := Advance(d.received, f);
    if received.Err? then (c, Some(Protocol(received.error)))
    else if d.candidate.None? then
      var c1 := c.(delivery := Some(d.(received := received.value, buffered := d.buffered + [f],
                                       bufferedBytes := d.bufferedBytes + FrameBytes(f))));
      (if BudgetExceeded(w, c1) then RequestResync(c1, SlowClient) else c1, None)
    else
      var applied := Advance(d.applied, f);
      var c1 := c.(delivery := Some(d.(received := received.value)));
      var onLive := d.candidate == c.live;
      if applied.Err? then (c1, Some(Protocol(applied.error)))
      else
        var (c2, failure) := Write(w, c1, d.candidate.value, MutationOf(f));
        if failure.None? then
          (c2.(delivery := Some(d.(received := received.value, applied := applied.value)),
               activeCursor := if onLive then Some(applied.value) else c2.activeCursor), None)
        else if onLive && failure.value.Other? then (c2.(activeCursor := None, stale := false), failure)
        else (c2.(stale := c2.stale || (onLive && c2.activeCursor.Some? && w.writeLands(c.writes))), failure)
  }

  function AcceptFrame(w: World, c: Coordinator, f: Frame): (Coordinator, Option<Failure>)
    requires c.delivery.Some? && c.delivery.value.candidate.Some? ==> c.delivery.value.candidate.value in c.sinks
  {
    if c.fence.Some? && f.deliveryGeneration < c.fence.value then (c, None)
    else
      var c1 := AdvanceFence(c, f.deliveryGeneration, false);
      if f.kind == DELIVERY_BARRIER then (c1, Some(Protocol(BadKind)))
      else if f.kind == RESET then (RequestResync(c1, SlowClient), None)
      else if c1.delivery.None? then (BufferPending(w, c1, f), None)
      else
        var d := c1.delivery.value;
        if f.deliveryGeneration < d.received.deliveryGeneration || f.streamId != d.streamId then (c1, None)
        else if f.kind == REPLAY_COMMIT then
          var committed := AcceptCommit(d, f);
          if committed.Err? then (c1, Some(Protocol(committed.error)))
          else TryCommit(w, c1.(delivery := Some(committed.value)))
        else Mutate(w, c1, f)
  }

  function ReasonOf(failure: Failure): ResyncReason {
    match failure
    case Protocol(code) => if code.BadEpoch? then EpochChanged else JournalGap
    case Other => RestoreFailed
  }

  /** A frame whose failure, if any, ends the delivery. */
  function Accept(w: World, c: Coordinator, f: Frame): Coordinator
    requires c.delivery.Some? && c.delivery.value.candidate.Some? ==> c.delivery.value.candidate.value in c.sinks
  {
    var (c1, failure) := AcceptFrame(w, c, f);
    if failure.Some? then RequestResync(c1, ReasonOf(failure.value)) else c1
  }

  /** The candidate of the current delivery is a known replica. */
  predicate CandidateKnown(c: Coordinator) {
    c.delivery.Some? && c.delivery.value.candidate.Some? ==> c.delivery.value.candidate.value in c.sinks
  }

  function AcceptReady(w: World, c: Coordinator, frames: seq<Frame>): Coordinator
    decreases |frames|
  {
    if frames == [] || c.delivery.None? || c.state.Resyncing? || !CandidateKnown(c) then c
    else AcceptReady(w, Accept(w, c, frames[0]), frames[1..])
  }

  function DrainPending(w: World, c: Coordinator): Coordinator
    requires c.delivery.Some?
  {
    var d := c.delivery.value;
    var ready := Ready(c.pending, d.received.deliveryGeneration, d.streamId);
    var retained := Retained(c.pending, d.received.deliveryGeneration, d.streamId);
    AcceptReady(w, c.(pending := retained, pendingBytes := TotalBytes(retained)), ready)
  }

  // ---- Starting a delivery ----

  function AcceptStart(c: Coordinator, start: Start): (Coordinator, bool) {
    var generation := Generation(start);
    if c.state.Resyncing? then (c, false)
    else if c.fence.Some? && generation < c.fence.value then (c, false)
    else if c.delivery.Some? && generation < Generation(c.delivery.value.start) then (c, false)
    else if c.delivery.Some? && generation == Generation(c.delivery.value.start) then
      (if c.delivery.value.start == start then c else RequestResync(c, JournalGap), false)
    else (c, c.activeCursor.None? || generation >= c.activeCursor.value.deliveryGeneration)
  }

  function Install(c: Coordinator, start: Start, cursor: Cursor, expected: Cursor,
                   candidate: Option<Handle>): Coordinator {
    c.(delivery := Some(Delivery(start, start.streamId, cursor, cursor, [], 0, None, expected, candidate)))
  }

  /** A warm start, once the fence has moved to its generation. */
  function WarmFrom(w: World, c: Coordinator, start: Start): Coordinator
    requires start.Warm?
  {
    if c.live.None? || c.live.value !in c.sinks || c.sinks[c.live.value].engineId != w.engineId then
      RequestResync(c, EngineMismatch)
    else if start.expectedCommit.lastEventSeq < start.cursor.lastEventSeq
            || start.expectedCommit.nextPtyOffset < start.cursor.nextPtyOffset
            || c.activeCursor.None? || !SameTerminalState(c.activeCursor.value, start.cursor) then
      RequestResync(c, JournalGap)
    else
      var c3 := Install(DiscardDelivery(c), start, start.cursor, start.expectedCommit, c.live);
      DrainPending(w, c3.(activeCursor := Some(start.cursor), state := Replaying))
  }

  function StartWarm(w: World, c: Coordinator, start: Start): Coordinator
    requires start.Warm?
  {
    var (c1, accepted) := AcceptStart(c, start);
    if !accepted then c1 else WarmFrom(w, AdvanceFence(c1, start.cursor.deliveryGeneration, false), start)
  }

  /** The download begins, unless what was pending ended the delivery already. */
  function BeginLoad(c: Coordinator, attempt: nat, m: Manifest): Coordinator {
    if c.delivery.None? || !c.state.Restoring? then c
    else c.(restoreAbort := Some(attempt), restoreTimer := Some(attempt), tasks := c.tasks[attempt := Loading(m)])
  }

  /** A cold start, once the fence has moved to its generation and up to its first await. */
  function ColdFrom(w: World, c: Coordinator, start: Start): Coordinator
    requires start.Snapshot?
  {
    var m := start.manifest;
    if m.engineId != w.engineId then RequestResync(c, EngineMismatch)
    else
      var c3 := DiscardDelivery(c);
      var attempt := c3.restoreAttempt + 1;
      var c4 := c3.(restoreAttempt := attempt);
      if m.commitEventSeq < m.cut.lastEventSeq || m.commitPtyOffset < m.cut.nextPtyOffset then
        RequestResync(c4, JournalGap)
      else
        BeginLoad(DrainPending(w, Install(c4, start, m.cut, ManifestCommit(m), None).(state := Restoring)), attempt, m)
  }

  function StartSnapshot(w: World, c: Coordinator, start: Start): Coordinator
    requires start.Snapshot?
  {
    var (c1, accepted) := AcceptStart(c, start);
    if !accepted then c1 else ColdFrom(w, AdvanceFence(c1, start.manifest.cut.deliveryGeneration, false), start)
  }

  // ---- The restore, after each await ----

  predicate Superseded(c: Coordinator, attempt: nat) {
    attempt != c.restoreAttempt || attempt in c.aborted
  }

  function RestoreReason(failure: Failure): ResyncReason {
    if failure.Protocol? then JournalGap else RestoreFailed
  }

  function RestoreFails(c: Coordinator, attempt: nat, failure: Failure): Coordinator {
    if Superseded(c, attempt) then c else RequestResync(c, RestoreReason(failure))
  }

  function FlushBuffered(w: World, c: Coordinator, frames: seq<Frame>): (r: (Coordinator, Option<Failure>))
    requires c.delivery.Some? && c.delivery.value.candidate.Some? && c.delivery.value.candidate.value in c.sinks
    ensures r.0.delivery.Some?
    decreases |frames|
  {
    var d := c.delivery.value;
    if frames == [] then (c.(delivery := Some(d.(buffered := [], bufferedBytes := 0))), None)
    else
      var applied := Advance(d.applied, frames[0]);
      if applied.Err? then (c, Some(Protocol(applied.error)))
      else
        var (c1, failure) := Write(w, c, d.candidate.value, MutationOf(frames[0]));
        if failure.Some? then (c1, failure)
        else FlushBuffered(w, c1.(delivery := Some(d.(applied := applied.value))), frames[1..])
  }

  function Loaded(c: Coordinator, attempt: nat, failure: Option<Failure>): Coordinator
    requires attempt in c.tasks
  {
    if failure.Some? then RestoreFails(c.(tasks := c.tasks - {attempt}), attempt, failure.value)
    else if Superseded(c, attempt) then c.(tasks := c.tasks - {attempt})
    else c.(tasks := c.tasks[attempt := Building(c.tasks[attempt].manifest)])
  }

  /** The delivery that waited takes its candidate: what is buffered is flushed to it, and it is adopted
      if the commit was received already. */
  function TakeCandidate(w: World, c: Coordinator, attempt: nat, h: Handle): Coordinator
    requires c.delivery.Some? && h in c.sinks
  {
    var d := c.delivery.value.(candidate := Some(h));
    var (c1, failure) := FlushBuffered(w, c.(delivery := Some(d)), d.buffered);
    if failure.Some? then RestoreFails(c1, attempt, failure.value)
    else
      var (c2, refused) := TryCommit(w, c1);
      if refused.Some? then RestoreFails(c2, attempt, refused.value) else c2
  }

  /** The host's restore resolved with a replica. */
  function Restored(w: World, c0: Coordinator, attempt: nat, h: Handle, sink: Sink): Coordinator {
    var c := c0.(tasks := c0.tasks - {attempt}, sinks := c0.sinks[h := sink], origin := c0.origin[h := attempt]);
    if Superseded(c, attempt) then c.(sinks := Dispose(c.sinks, h))
    else if sink.engineId != w.engineId then RequestResync(c.(sinks := Dispose(c.sinks, h)), EngineMismatch)
    else if c.delivery.None? then c.(sinks := Dispose(c.sinks, h))
    else TakeCandidate(w, c, attempt, h)
  }

  // ---- Events ----

  datatype Event =
    | Data(frame: Frame)
    | BadData                     // bytes that do not decode
    | FenceGeneration(generation: int)
    | StartDelivery(start: Start)
    | LoadEnds(attempt: nat, outcome: Option<Failure>)
    | RestoreThrows(attempt: nat, failure: Failure)
    | RestoreYields(attempt: nat, handle: Handle, sink: Sink)
    | Timeout(attempt: nat)
    | Close

  /** An accepted mutation is the canonical one at its position. */
  predicate Genuine(w: World, f: Frame) {
    f.kind == PTY_OUTPUT || f.kind == RESIZE_APPLIED ==>
      0 < f.eventSeq <= |w.canonical(f.sessionEpoch)| && w.canonical(f.sessionEpoch)[f.eventSeq - 1] == MutationOf(f)
  }

  predicate InHistory(w: World, cursor: Cursor) {
    0 <= cursor.lastEventSeq <= |w.canonical(cursor.sessionEpoch)|
  }

  predicate Holds(w: World, sink: Sink, cursor: Cursor) {
    InHistory(w, cursor) && sink.applied == w.canonical(cursor.sessionEpoch)[..cursor.lastEventSeq]
  }

  /** What the surroundings promise: genuine frames, restores only of snapshots that were asked for, and a
      restored replica that is new and equals the state at its cut. */
  predicate Enabled(w: World, c: Coordinator, e: Event) {
    match e
    case Data(f) => Genuine(w, f)
    case StartDelivery(start) => !c.state.Closed? && (start.Snapshot? ==> InHistory(w, start.manifest.cut))
    case FenceGeneration(generation) => !c.state.Closed? && 0 <= generation < U64
    case LoadEnds(attempt, _) => attempt in c.tasks && c.tasks[attempt].Loading?
    case RestoreThrows(attempt, _) => attempt in c.tasks && c.tasks[attempt].Building?
    case RestoreYields(attempt, h, sink) =>
      && attempt in c.tasks && c.tasks[attempt].Building? && h !in c.sinks
      && Holds(w, sink, c.tasks[attempt].manifest.cut) && sink.disposals == 0
    case Timeout(attempt) => c.restoreTimer == Some(attempt)
    case _ => true
  }

  function Step(w: World, c: Coordinator, e: Event): Coordinator
    requires Enabled(w, c, e) && CandidateKnown(c)
  {
    match e
    case Data(f) => if c.state.Closed? || c.state.Resyncing? then c else Accept(w, c, f)
    case BadData => if c.state.Closed? || c.state.Resyncing? then c else RequestResync(c, JournalGap)
    case FenceGeneration(generation) => AdvanceFence(c, generation, true)
    case StartDelivery(start) => if start.Warm? then StartWarm(w, c, start) else StartSnapshot(w, c, start)
    case LoadEnds(attempt, outcome) => Loaded(c, attempt, outcome)
    case RestoreThrows(attempt, failure) => RestoreFails(c.(tasks := c.tasks - {attempt}), attempt, failure)
    case RestoreYields(attempt, h, sink) => Restored(w, c, attempt, h, sink)
    case Timeout(attempt) =>
      if c.restoreAttempt == attempt && c.state.Restoring? then RequestResync(c.(restoreTimer := None), SlowClient)
      else c.(restoreTimer := None)
    case Close =>
      if c.state.Closed? then c else DiscardDelivery(c).(pending := [], pendingBytes := 0, state := Closed)
  }

  function Initial(live: Option<Handle>, engineId: string, cursor: Option<Cursor>,
                   history: seq<Mutation>): Coordinator {
    Coordinator(Idle, None, [], 0, live, cursor, if cursor.Some? then Some(cursor.value.deliveryGeneration) else None,
                None, None, 0, {}, map[],
                if live.Some? then map[live.value := Sink(engineId, history, 0)] else map[], 0,
                if live.Some? then {live.value} else {}, map[], false, false)
  }
}
