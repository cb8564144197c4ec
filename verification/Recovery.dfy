/** How the Host brings one Browser up to date without letting the relay see a gap: the canonical publisher
    is paused and flushed through the session's cursor, a barrier asks the relay to pin the recovery there,
    the missing frames are replayed to that Browser, and a commit marker ends it.

    The publisher, the recovery under way, the data channel and what the relay makes of it are one state
    machine. A step is what happens between two awaits, or less: a loop sends one frame a step. */
module Recovery {
  import opened Collections
  import opened RelayDeliveries
  import D = DataFrames
  import T = HostTransport

  const MAX_QUEUE_FRAMES: nat := 1024
  const MAX_QUEUE_BYTES: nat := 8 * 1024 * 1024
  const HEADER_BYTES: nat := 48
  const MAX_CANONICAL_FRAME_BYTES: nat := HEADER_BYTES + 16 * 1024

  // ---- The canonical history ----

  /** Output moves the PTY offset, a resize does not. */
  datatype Mutation = Mutation(output: bool, length: nat)

  datatype Canonical = Canonical(event: int, pty: int, what: Mutation)

  function CursorAfter(f: Canonical): Mark { Mark(f.event, f.pty + if f.what.output then f.what.length else 0) }

  /** The cursor after the first n mutations, and the frame of the next one. */
  function At(history: seq<Mutation>, n: nat): Mark
    requires n <= |history|
    decreases n, 0
  {
    if n == 0 then Mark(0, 0) else CursorAfter(FrameAt(history, n - 1))
  }

  function FrameAt(history: seq<Mutation>, n: nat): Canonical
    requires n < |history|
    decreases n, 1
  {
    Canonical(n + 1, At(history, n).pty, history[n])
  }

  // ---- The state ----

  /** Whom a recovery is for: a client's stream at one delivery generation. */
  datatype Request = Request(stream: int, generation: int)

  datatype Item =
    | Live(frame: Canonical)
    | Marker(request: Request, commit: Mark, base: Mark, payload: nat)   // the barrier, from where its client stands
    | Directed(request: Request, frame: Canonical)
    | Commit(request: Request, commit: Mark)

  datatype Answer = Answer(request: Request, commit: Mark, ready: bool)

  datatype Place =
    | Pausing
    | Flushing
    | MarkerQueued(early: Option<bool>)
    | MarkerSent
    | Replaying
    | Leaving(committed: bool)

  /** A recovery: what is still to be replayed, from where, to where. */
  datatype Active = Active(request: Request, aborted: bool, place: Place, commit: Mark, at: Mark, rest: seq<Canonical>)

  /** The recovery the relay has pinned, and how far its client was brought. */
  datatype Held = Held(request: Request, commit: Mark, at: Mark)

  /** The relay's canonical head and its pin. */
  datatype End = End(head: Mark, held: Option<Held>)

  /** The data channel, but for what it has pending: whether it batches, its socket, and the bytes of the batch that
      the relay has not acknowledged. */
  datatype Channel = Channel(batching: bool, socket: T.Socket, inFlight: nat)

  datatype State = State(
    history: seq<Mutation>,
    // the publisher
    queue: seq<Canonical>, queueBytes: int, lastSent: Mark, lastQueued: Mark, paused: bool, pumping: bool,
    // the scheduler
    active: Option<Active>, failed: bool,
    // the data channel, what it has pending, and what its socket was given; and the answers on their way back
    channel: Channel, outbox: seq<Item>, wire: seq<Item>, answers: seq<Answer>,
    // the relay
    generations: map<int, int>, relay: End, refused: bool)

  datatype Step =
    | Publish(what: Mutation)
    | Pump
    | Begin(request: Request)
    | Paused(base: Mark, available: bool)   // the journal has the range, and it fits the replay limits
    | Flush(payload: nat)                   // the size of the barrier's payload, if the barrier is due
    | Replay
    | Receipt                               // of the marker
    | Hears                                 // the next answer
    | Supersede                             // the relay told of a newer generation, or of a reset
    | TimesOut
    | Leave
    | Leaves(count: nat)                    // the data channel's next batch
    | Acks                                  // the relay acknowledged a batch
    | Pings                                 // the data channel's heartbeat
    | Drains(count: nat)                    // the socket passed on what it held
    | Breaks                                // the socket is not open any more
    | Closes                                // the connection is over
    | Delivers(ready: bool)                 // the relay takes the next item; a barrier may be refused
    | Moves(stream: int)                    // a client's generation moves on
    | Goes(stream: int)                     // its data socket is lost

  // ---- Sending ----

  const PING_BYTES: nat := 4

  function BytesOf(f: Canonical): nat { HEADER_BYTES + f.what.length }

  function ItemBytes(item: Item): nat {
    match item
    case Live(f) => BytesOf(f)
    case Marker(_, _, _, payload) => HEADER_BYTES + payload
    case Directed(_, f) => BytesOf(f)
    case Commit(_, _) => HEADER_BYTES
  }

  function BytesOfAll(items: seq<Item>): nat
    decreases |items|
  {
    if items == [] then 0 else ItemBytes(items[0]) + BytesOfAll(items[1..])
  }

  /** The data channel does not take this item: its socket is not open, or holds too much, or too much is pending. */
  predicate Drops(c: Channel, pending: seq<Item>, item: Item) {
    || !c.socket.open
    || if c.batching then !T.Admits(c.socket, |pending|, BytesOfAll(pending), c.inFlight, ItemBytes(item))
       else c.socket.buffered + ItemBytes(item) > T.QUEUE_MAX_BYTES
  }

  /** enqueueData, and what the socket holds then. A batch that is due with this item leaves at once, and is at most
      all that is pending. */
  function Enqueued(c: Channel, pending: seq<Item>, item: Item): (T.Fate, T.Socket) {
    var length := ItemBytes(item);
    var all := BytesOfAll(pending) + length;
    if !c.socket.open then (T.NotTaken, c.socket)
    else if !c.batching then (T.SendFate(false, c.socket, length), c.socket.Given(length))
    else if !T.Admits(c.socket, |pending|, BytesOfAll(pending), c.inFlight, length) then (T.NotTaken, c.socket)
    else if c.inFlight == 0 && T.FlushesAtOnce(|pending|, BytesOfAll(pending), length) then
      (T.SendFate(false, c.socket, all), c.socket.Given(all))
    else (T.Returned, c.socket)
  }

  /** The scheduler's sendData looks at the socket before and after, and so throws only at what was not taken. */
  function Outcome(c: Channel, pending: seq<Item>, item: Item): (fate: T.Fate)
    ensures fate == if Drops(c, pending, item) then T.NotTaken else T.Returned
  {
    if c.socket.buffered > T.QUEUE_MAX_BYTES then T.NotTaken
    else
      var (fate, socket) := Enqueued(c, pending, item);
      if fate.Returned? && socket.buffered > T.QUEUE_MAX_BYTES then T.TookAndThrew else fate
  }

  predicate Sends(s: State, item: Item) { Outcome(s.channel, s.outbox, item).Returned? }

  /** An item that is taken waits for the next batch, or goes to the socket as it is. */
  function Give(s: State, item: Item): State {
    if s.channel.batching then s.(outbox := s.outbox + [item])
    else s.(wire := s.wire + s.outbox + [item], outbox := [],
            channel := s.channel.(socket := s.channel.socket.Given(ItemBytes(item))))
  }

  // ---- The publisher ----

  function SchedulePump(s: State): State {
    if s.failed || s.paused || s.pumping || s.queue == [] then s else s.(pumping := true)
  }

  function Resume(s: State): State { if s.failed then s else SchedulePump(s.(paused := false)) }

  /** The Host closes the pair: nothing is published or replayed any more. */
  function FailPair(s: State): State {
    s.(failed := true, queue := [], queueBytes := 0, pumping := false, active := None)
  }

  predicate PreMarker(a: Active) {
    a.place.Pausing? || a.place.Flushing? || a.place.MarkerQueued? || (a.place.Leaving? && !a.place.committed)
  }

  predicate OverLimit(s: State, f: Canonical) {
    |s.queue| + 1 > MAX_QUEUE_FRAMES || s.queueBytes + BytesOf(f) > MAX_QUEUE_BYTES
  }

  predicate WithinPressure(s: State, f: Canonical) {
    |s.queue| + 1 <= MAX_QUEUE_FRAMES + 1 && s.queueBytes + BytesOf(f) <= MAX_QUEUE_BYTES + MAX_CANONICAL_FRAME_BYTES
  }

  /** A recovery that waits for its marker's receipt is rejected at once; others find out later. */
  function AbortForPressure(s: State): State
    requires s.active.Some?
  {
    var a := s.active.value;
    Resume(s.(active := Some(if a.place.MarkerQueued? then a.(aborted := true, place := Leaving(false))
                             else a.(aborted := true))))
  }

  function Enqueue(s: State, f: Canonical): State {
    if s.failed then s
    else if f.event != s.lastQueued.event + 1 || f.pty != s.lastQueued.pty then FailPair(s)
    else if OverLimit(s, f) && (!WithinPressure(s, f) || s.active.None? || !PreMarker(s.active.value)) then FailPair(s)
    else
      var queued := s.(queue := s.queue + [f], queueBytes := s.queueBytes + BytesOf(f), lastQueued := CursorAfter(f));
      SchedulePump(if OverLimit(s, f) then AbortForPressure(queued) else queued)
  }

  function PublishMutation(s: State, what: Mutation): State {
    var history := s.history + [what];
    Enqueue(s.(history := history), FrameAt(history, |s.history|))
  }

  predicate SendsHead(s: State)
    requires s.queue != []
  {
    Sends(s, Live(s.queue[0]))
  }

  /** The head of the queue is taken off and sent. */
  function SendHead(s: State): State
    requires s.queue != []
  {
    var f := s.queue[0];
    var n := s.(queue := s.queue[1..], queueBytes := s.queueBytes - BytesOf(f));
    if SendsHead(s) then Give(n, Live(f)).(lastSent := CursorAfter(f)) else n
  }

  function PumpOne(s: State): State {
    if s.failed || !s.pumping then s
    else if s.paused || s.queue == [] then SchedulePump(s.(pumping := false))
    else
      var n := SendHead(s);
      if !SendsHead(s) then FailPair(n)
      else if n.queue == [] then n.(lastQueued := n.lastSent)
      else n
  }

  // ---- The recovery ----

  /** The relay hands out a client's generations in order. */
  predicate Issued(generations: map<int, int>, request: Request) {
    request.stream in generations && request.generation <= generations[request.stream]
  }

  function BeginRecovery(s: State, request: Request): State {
    if s.failed || s.active.Some? || !Issued(s.generations, request) then s
    else s.(active := Some(Active(request, false, Pausing, s.lastSent, s.lastSent, [])), paused := true)
  }

  function Frames(history: seq<Mutation>, from: nat, through: nat): (r: seq<Canonical>)
    requires from <= through <= |history|
    ensures |r| == through - from && forall i :: 0 <= i < |r| ==> r[i] == FrameAt(history, from + i)
  {
    seq(through - from, i requires 0 <= i < through - from => FrameAt(history, from + i))
  }

  /** Where the journal answers: at a cursor it recorded. */
  predicate Recorded(history: seq<Mutation>, m: Mark) { 0 <= m.event <= |history| && m == At(history, m.event) }

  /** The pump has ended, and the session's cursor is the commit. (A recovery that was aborted meanwhile may
      find the publisher at work again.) */
  function PauseDone(s: State, base: Mark, available: bool): State {
    if s.failed || s.active.None? || !s.active.value.place.Pausing? || (s.pumping && !s.active.value.aborted) then s
    else
      var a := s.active.value;
      var commit := At(s.history, |s.history|);
      if !available || !Recorded(s.history, base) then Resume(s.(active := Some(a.(place := Leaving(false)))))
      else s.(active := Some(a.(place := Flushing, commit := commit, at := base,
                                rest := Frames(s.history, base.event, |s.history|))))
  }

  /** The catch of a recovery whose marker is not out: an aborted one lets the publisher go on. */
  function Caught(s: State): State
    requires s.active.Some?
  {
    var a := s.active.value;
    if a.aborted then Resume(s.(active := Some(a.(place := Leaving(false))))) else FailPair(s)
  }

  predicate Flushes(s: State) { !s.failed && s.active.Some? && s.active.value.place.Flushing? }

  /** A frame that the flush still has to send. */
  predicate Covers(s: State) { Flushes(s) && s.queue != [] && s.queue[0].event <= s.active.value.commit.event }

  /** flushThrough, one frame a step; then the check, and the marker. */
  function FlushOne(s: State, payload: nat): State {
    if !Flushes(s) then s
    else if Covers(s) then FlushHead(s)
    else FlushEnd(s, payload)
  }

  function FlushHead(s: State): State
    requires Covers(s)
  {
    if SendsHead(s) then SendHead(s) else Caught(SendHead(s))
  }

  function FlushEnd(s: State, payload: nat): State
    requires Flushes(s)
  {
    var n := if s.queue == [] then s.(lastQueued := s.lastSent) else s;
    if n.lastSent != s.active.value.commit || s.active.value.aborted then Caught(n) else SendMarker(n, payload)
  }

  function SendMarker(s: State, payload: nat): State
    requires s.active.Some?
  {
    var a := s.active.value;
    var marker := Marker(a.request, a.commit, a.at, payload);
    if !Sends(s, marker) then FailPair(s)
    else Give(s, marker).(active := Some(a.(place := MarkerQueued(None))))
  }

  /** The barrier's answer, once its marker is known to be sent. */
  function Resolve(s: State, ready: bool): State
    requires s.active.Some?
  {
    var a := s.active.value;
    if ready then s.(active := Some(a.(place := Replaying)))
    else Resume(s.(active := Some(a.(place := Leaving(false)))))
  }

  /** The marker's receipt has come, and only now its sender looks at the socket again. */
  function MarkSent(s: State): State {
    if s.failed || s.active.None? || !s.active.value.place.MarkerQueued? then s
    else if exists i :: 0 <= i < |s.outbox| && s.outbox[i].Marker? then s
    else if s.channel.socket.buffered > T.QUEUE_MAX_BYTES then FailPair(s)
    else
      var a := s.active.value;
      var n := s.(active := Some(a.(place := MarkerSent)));
      if a.place.early.Some? then Resolve(n, a.place.early.value) else n
  }

  predicate Matches(a: Active, answer: Answer) { a.request == answer.request && a.commit == answer.commit }

  function HearAnswer(s: State): State {
    if s.answers == [] then s
    else
      var answer := s.answers[0];
      var n := s.(answers := s.answers[1..]);
      if s.failed || s.active.None? || !Matches(s.active.value, answer) then n
      else
        var a := s.active.value;
        match a.place
        case MarkerQueued(early) =>
          if early.Some? then n else n.(active := Some(a.(place := MarkerQueued(Some(answer.ready)))))
        case MarkerSent => Resolve(n, answer.ready)
        case _ => n
  }

  /** The directed replay, one frame a step; then the commit marker. */
  function ReplayOne(s: State): State {
    if s.failed || s.active.None? || !s.active.value.place.Replaying? then s
    else
      var a := s.active.value;
      if a.rest != [] then
        var next := Directed(a.request, a.rest[0]);
        if a.aborted || !Sends(s, next) then FailPair(s)
        else Give(s, next).(active := Some(a.(at := CursorAfter(a.rest[0]), rest := a.rest[1..])))
      else
        var commit := Commit(a.request, a.commit);
        if a.at != a.commit || !Sends(s, commit) then FailPair(s)
        else Resume(Give(s, commit).(active := Some(a.(place := Leaving(true)))))
  }

  predicate Current(generations: map<int, int>, request: Request) {
    request.stream in generations && generations[request.stream] == request.generation
  }

  /** A newer generation of the client under recovery, or its reset, aborts the recovery. */
  function Superseded(s: State): State {
    if s.failed || s.active.None? || Current(s.generations, s.active.value.request) then s
    else
      var a := s.active.value;
      match a.place
      case MarkerQueued(_) => Resume(s.(active := Some(a.(aborted := true, place := Leaving(false)))))
      case MarkerSent => FailPair(s)
      case _ => s.(active := Some(a.(aborted := true)))
  }

  // ---- The relay ----

  /** What the relay makes of one item, if it does not fail the Host, and pins whatever it may. */
  function Take(generations: map<int, int>, e: End, item: Item): Option<End> {
    match item
    case Live(f) =>
      if e.held.Some? || f.event != e.head.event + 1 || f.pty != e.head.pty then None
      else Some(e.(head := CursorAfter(f)))
    case Marker(request, commit, base, _) =>
      if commit != e.head then None
      else if !Current(generations, request) then Some(e)
      else if e.held.Some? then None
      else Some(e.(held := Some(Held(request, commit, base))))
    case Directed(request, f) =>
      if e.held.None? || e.held.value.request != request then Some(e)
      else
        var h := e.held.value;
        if f.event != h.at.event + 1 || f.pty != h.at.pty || !AtMost(CursorAfter(f), h.commit) then None
        else Some(e.(held := Some(h.(at := CursorAfter(f)))))
    case Commit(request, commit) =>
      if e.held.None? || e.held.value.request != request then Some(e)
      else if e.held.value.at != commit || e.held.value.commit != commit then None
      else Some(e.(held := None))
  }

  function Deliver(s: State, ready: bool): State {
    if s.wire == [] || s.refused then s
    else
      var item := s.wire[0];
      var n := s.(wire := s.wire[1..]);
      var next := Take(s.generations, s.relay, item);
      if next.None? then n.(refused := true)
      else if !item.Marker? then n.(relay := next.value)
      else
        var granted := ready && Current(s.generations, item.request);
        n.(relay := if granted then next.value else s.relay,
           answers := s.answers + [Answer(item.request, item.commit, granted)])
  }

  function Cleared(e: End, stream: int): End {
    if e.held.Some? && e.held.value.request.stream == stream then e.(held := None) else e
  }

  function Flow(generations: map<int, int>, e: End, items: seq<Item>): Option<End>
    decreases |items|
  {
    if items == [] then Some(e)
    else
      var next := Take(generations, e, items[0]);
      if next.None? then None else Flow(generations, next.value, items[1..])
  }

  // ---- The data channel ----

  /** A batch within the limits leaves, unless one is in flight; if the socket does not take it the pair is closed.
      What a closed channel has pending never leaves. */
  function LeaveBatch(s: State, count: nat): State {
    if s.failed || !s.channel.batching || s.channel.inFlight > 0 || !(0 < count <= |s.outbox|) then s
    else
      var bytes := BytesOfAll(s.outbox[..count]);
      if count > D.MAX_DATA_BATCH_FRAMES || bytes > D.MAX_DATA_BATCH_BYTES then s
      else if !T.SendFate(false, s.channel.socket, bytes).Returned? then FailPair(s)
      else s.(wire := s.wire + s.outbox[..count], outbox := s.outbox[count..],
              channel := s.channel.(socket := s.channel.socket.Given(bytes), inFlight := bytes))
  }

  function Acknowledged(s: State): State {
    if s.failed then s
    else if s.channel.inFlight == 0 then FailPair(s)
    else s.(channel := s.channel.(inFlight := 0))
  }

  /** The flush that comes with a ping is a batch of its own. */
  function Ping(s: State): State {
    var socket := s.channel.socket;
    if s.failed then s
    else if !socket.open || socket.buffered + PING_BYTES > T.QUEUE_MAX_BYTES then FailPair(s)
    else s.(channel := s.channel.(socket := socket.Given(PING_BYTES)))
  }

  function Drained(socket: T.Socket, count: nat): T.Socket {
    socket.(buffered := if count < socket.buffered then socket.buffered - count else 0)
  }

  function Next(s: State, step: Step): State {
    match step
    case Publish(what) => PublishMutation(s, what)
    case Pump => PumpOne(s)
    case Begin(request) => BeginRecovery(s, request)
    case Paused(base, available) => PauseDone(s, base, available)
    case Flush(payload) => FlushOne(s, payload)
    case Replay => ReplayOne(s)
    case Receipt => MarkSent(s)
    case Hears => HearAnswer(s)
    case Supersede => Superseded(s)
    case TimesOut => if !s.failed && s.active.Some? && s.active.value.place.MarkerSent? then FailPair(s) else s
    case Leave => if !s.failed && s.active.Some? && s.active.value.place.Leaving? then s.(active := None) else s
    case Leaves(count) => LeaveBatch(s, count)
    case Acks => Acknowledged(s)
    case Pings => Ping(s)
    case Drains(count) => s.(channel := s.channel.(socket := Drained(s.channel.socket, count)))
    case Breaks => s.(channel := s.channel.(socket := s.channel.socket.(open := false)))
    case Closes => if s.failed then s else FailPair(s)
    case Delivers(ready) => Deliver(s, ready)
    case Moves(stream) =>
      if stream !in s.generations then s
      else s.(generations := s.generations[stream := s.generations[stream] + 1], relay := Cleared(s.relay, stream))
    case Goes(stream) => s.(relay := Cleared(s.relay, stream))
  }

  function Run(s: State, steps: seq<Step>): State
    decreases |steps|
  {
    if steps == [] then s else Next(Run(s, steps[..|steps| - 1]), steps[|steps| - 1])
  }

  // ---- What can go wrong ----

  function InTransit(s: State): seq<Item> { s.wire + s.outbox }

  predicate MarkerIn(items: seq<Item>, request: Request) {
    exists i :: 0 <= i < |items| && items[i].Marker? && items[i].request == request
  }

  /** The relay holds a pin for this recovery, or will as soon as its marker arrives: the client is current, and
      the marker is still on its way, or its pin is there. */
  predicate PinAhead(s: State, a: Active) {
    && Current(s.generations, a.request)
    && (MarkerIn(InTransit(s), a.request) || (s.relay.held.Some? && s.relay.held.value.request == a.request))
  }

  /** Two steps that lose the order. The publisher's pressure aborts a recovery for whose marker the relay has a
      pin, or will; and the flush of a recovery that was aborted takes a frame off the queue which the data
      channel does not take, so that the publisher goes on behind that frame. */
  predicate Endangers(s: State, step: Step) {
    && !s.failed && s.active.Some?
    && var a := s.active.value;
       match step
       case Publish(what) =>
         var f := FrameAt(s.history + [what], |s.history|);
         OverLimit(s, f) && WithinPressure(s, f) && a.place.MarkerQueued? && PinAhead(s, a)
       case Flush(_) => Covers(s) && a.aborted && Drops(s.channel, s.outbox, Live(s.queue[0]))
       case _ => false
  }

  ghost predicate Unharmed(s: State, steps: seq<Step>)
    decreases |steps|
  {
    steps == [] || (Unharmed(s, steps[..|steps| - 1]) && !Endangers(Run(s, steps[..|steps| - 1]), steps[|steps| - 1]))
  }

  // ---- Invariant ----

  /** The queue is the rest of the history, and the publisher knows where it begins and ends. */
  ghost predicate Continuous(history: seq<Mutation>, queue: seq<Canonical>, lastSent: Mark, lastQueued: Mark) {
    && Recorded(history, lastSent) && lastSent.event + |queue| == |history|
    && (forall i :: 0 <= i < |queue| ==> queue[i] == FrameAt(history, lastSent.event + i))
    && lastQueued == At(history, |history|)
  }

  /** What is to be replayed leads from where the client is to the commit. */
  ghost predicate Remaining(history: seq<Mutation>, at: Mark, rest: seq<Canonical>, commit: Mark) {
    && Recorded(history, at) && Recorded(history, commit) && at.event + |rest| == commit.event
    && forall i :: 0 <= i < |rest| ==> rest[i] == FrameAt(history, at.event + i)
  }

  predicate Waits(a: Active) { a.place.MarkerQueued? || a.place.MarkerSent? }

  ghost predicate Ordered(history: seq<Mutation>, active: Option<Active>, held: Option<Held>, lastSent: Mark,
                          idle: bool)
  {
    match active
    case None => held.None?
    case Some(a) =>
      match a.place
      case Pausing => held.None?
      case Leaving(_) => held.None?
      case Flushing =>
        && held.None? && Remaining(history, a.at, a.rest, a.commit)
        && (!a.aborted ==> idle && lastSent.event <= a.commit.event)
      case _ =>
        && Remaining(history, a.at, a.rest, a.commit) && lastSent == a.commit && idle
        && (held.None? || held == Some(Held(a.request, a.commit, a.at)))
  }

  /** The publisher was asked to pause, and only an aborted recovery lets it go on meanwhile. */
  predicate Asked(active: Option<Active>, paused: bool) {
    active.Some? && active.value.place.Pausing? && !active.value.aborted ==> paused
  }

  predicate IsLive(generations: map<int, int>, item: Item) { item.Marker? && Current(generations, item.request) }

  /** Nothing follows a barrier that the relay may still grant. */
  ghost predicate LastOnly(generations: map<int, int>, items: seq<Item>) {
    forall i :: 0 <= i < |items| && IsLive(generations, items[i]) ==> i == |items| - 1
  }

  ghost predicate NoneLive(generations: map<int, int>, items: seq<Item>) {
    forall i :: 0 <= i < |items| ==> !IsLive(generations, items[i])
  }

  /** An answer that is older than this cannot be taken for one that is waited for. */
  function Bound(active: Option<Active>, size: nat): int {
    if active.Some? && (active.value.place.Flushing? || Waits(active.value) || active.value.place.Replaying?)
    then active.value.commit.event
    else size
  }

  predicate Awaited(generations: map<int, int>, active: Option<Active>, answer: Answer) {
    active.Some? && Waits(active.value) && Matches(active.value, answer) && Current(generations, answer.request)
  }

  /** A barrier for a current client, on its way there, is the one that is waited for; it is answered once, and a
      refusal leaves no pin. Any other answer to a current client is too old to be mistaken for it. */
  ghost predicate Answered(generations: map<int, int>, items: seq<Item>, answers: seq<Answer>, active: Option<Active>,
                           held: Option<Held>, size: nat)
  {
    && (forall i :: 0 <= i < |items| && IsLive(generations, items[i]) ==>
          && active.Some? && Waits(active.value)
          && items[i].request == active.value.request && items[i].commit == active.value.commit)
    && (forall i :: 0 <= i < |answers| && Awaited(generations, active, answers[i]) ==>
          && (active.value.place.MarkerQueued? ==> active.value.place.early.None?)
          && NoneLive(generations, items) && (!answers[i].ready ==> held.None?))
    && (forall i :: 0 <= i < |answers| && Current(generations, answers[i].request) ==>
          Awaited(generations, active, answers[i]) || answers[i].commit.event < Bound(active, size))
    && (forall i, j :: 0 <= i < j < |answers| ==>
          !Awaited(generations, active, answers[i]) || !Awaited(generations, active, answers[j]))
    && (active.Some? && active.value.place.MarkerQueued? && active.value.place.early.Some?
        && Current(generations, active.value.request) ==>
          NoneLive(generations, items) && (!active.value.place.early.value ==> held.None?))
  }

  /** Nothing is sent behind a marker while it is waited for. */
  ghost predicate Trailing(items: seq<Item>, active: Option<Active>) {
    active.Some? && Waits(active.value) && items != [] ==>
      items[|items| - 1].Marker? && items[|items| - 1].request == active.value.request
  }

  /** Where the relay will stand when it has taken all that is in transit. */
  function Arrives(s: State): Option<End> { Flow(s.generations, s.relay, InTransit(s)) }

  ghost predicate AllIssued(generations: map<int, int>, items: seq<Item>, answers: seq<Answer>) {
    && (forall i :: 0 <= i < |items| && items[i].Marker? ==> Issued(generations, items[i].request))
    && forall i :: 0 <= i < |answers| ==> Issued(generations, answers[i].request)
  }

  /** What is in transit will not make the relay fail the Host. */
  ghost predicate Welcome(generations: map<int, int>, relay: End, items: seq<Item>) {
    && Flow(generations, relay, items).Some? && LastOnly(generations, items)
    && (relay.held.Some? ==> Current(generations, relay.held.value.request))
  }

  ghost predicate HostInv(s: State)
    requires Arrives(s).Some?
  {
    var e := Arrives(s).value;
    && e.head == s.lastSent
    && Continuous(s.history, s.queue, s.lastSent, s.lastQueued)
    && Ordered(s.history, s.active, e.held, s.lastSent, s.paused && !s.pumping) && Asked(s.active, s.paused)
    && Answered(s.generations, InTransit(s), s.answers, s.active, e.held, |s.history|)
    && Trailing(InTransit(s), s.active)
  }

  ghost predicate Inv(s: State) {
    && !s.refused && Welcome(s.generations, s.relay, InTransit(s)) && AllIssued(s.generations, InTransit(s), s.answers)
    && (s.active.Some? ==> Issued(s.generations, s.active.value.request))
    && (!s.failed ==> HostInv(s))
  }

  /** The relay acknowledged the advertised cursor: it stands where the publisher does. */
  ghost predicate Begins(s: State) {
    && !s.failed && !s.refused && s.active.None? && s.outbox == [] && s.wire == [] && s.answers == []
    && Continuous(s.history, s.queue, s.lastSent, s.lastQueued) && s.relay == End(s.lastSent, None)
  }
}
