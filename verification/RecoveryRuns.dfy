/** What recoveries guarantee over every run, and the two steps at which the guarantee ends. */
module RecoveryRuns {
  import opened Collections
  import opened RelayDeliveries
  import opened Recovery
  import opened RecoveryProofs
  import T = HostTransport

  // ---- The relay is never given cause to fail the Host ----

  /** A barrier reaches the relay where the relay's head is; a canonical frame reaches it as the next one and
      while no recovery is pinned; and a directed frame for the pinned client is the next of its replay. */
  predicate Expected(s: State, item: Item) {
    match item
    case Live(f) => s.relay.held.None? && f.event == s.relay.head.event + 1 && f.pty == s.relay.head.pty
    case Marker(request, commit, _, _) =>
      commit == s.relay.head && (Current(s.generations, request) ==> s.relay.held.None?)
    case Directed(request, f) =>
      s.relay.held.Some? && s.relay.held.value.request == request ==>
        && f.event == s.relay.held.value.at.event + 1 && f.pty == s.relay.held.value.at.pty
        && AtMost(CursorAfter(f), s.relay.held.value.commit)
    case Commit(request, commit) =>
      s.relay.held.Some? && s.relay.held.value.request == request ==>
        s.relay.held.value.at == commit == s.relay.held.value.commit
  }

  lemma ExpectedTaken(s: State, item: Item)
    ensures Take(s.generations, s.relay, item).Some? <==> Expected(s, item)
  {
  }

  lemma RelayIsNeverSurprised(s: State, steps: seq<Step>)
    requires Begins(s) && Unharmed(s, steps)
    ensures var r := Run(s, steps); !r.refused && (r.wire != [] ==> Expected(r, r.wire[0]))
  {
    RunKeeps(s, steps);
    hide Run, Unharmed, Begins, Take, Expected, HostInv;
    var r := Run(s, steps);
    if r.wire != [] {
      RestInTransit(r);
      ExpectedTaken(r, r.wire[0]);
    }
  }

  /** The checks that the Host makes of itself cannot fail: the publisher never receives a discontinuous frame,
      a flush that was not aborted reaches its commit, and a directed replay reaches its own. */
  lemma HostChecksHold(s: State, steps: seq<Step>, what: Mutation)
    requires Begins(s) && Unharmed(s, steps) && !Run(s, steps).failed
    ensures var r := Run(s, steps); var f := FrameAt(r.history + [what], |r.history|);
            f.event == r.lastQueued.event + 1 && f.pty == r.lastQueued.pty
    ensures var r := Run(s, steps);
            Flushes(r) && !r.active.value.aborted && !Covers(r) ==> r.lastSent == r.active.value.commit
    ensures var r := Run(s, steps);
            r.active.Some? && r.active.value.place.Replaying? && r.active.value.rest == [] ==>
              r.active.value.at == r.active.value.commit
  {
    RunKeeps(s, steps);
    hide Run, Unharmed, Begins, Flow, Ordered, Answered, LastOnly, AllIssued, Continuous;
    var r := Run(s, steps);
    ContinuousPublish(r.history, r.queue, r.lastSent, r.lastQueued, what);
    if Flushes(r) && !r.active.value.aborted && !Covers(r) { FlushReachesCommit(r); }
    if r.active.Some? && r.active.value.place.Replaying? && r.active.value.rest == [] { ReplayReachesCommit(r); }
  }

  // ---- Frames are those of the history ----

  predicate Genuine(history: seq<Mutation>, f: Canonical) {
    1 <= f.event <= |history| && f == FrameAt(history, f.event - 1)
  }

  ghost predicate AllGenuine(history: seq<Mutation>, frames: seq<Canonical>) {
    forall i :: 0 <= i < |frames| ==> Genuine(history, frames[i])
  }

  ghost predicate ItemsGenuine(history: seq<Mutation>, items: seq<Item>) {
    forall i :: 0 <= i < |items| && (items[i].Live? || items[i].Directed?) ==> Genuine(history, items[i].frame)
  }

  ghost predicate Authentic(s: State) {
    && AllGenuine(s.history, s.queue) && (s.active.Some? ==> AllGenuine(s.history, s.active.value.rest))
    && ItemsGenuine(s.history, s.outbox) && ItemsGenuine(s.history, s.wire) && Recorded(s.history, s.relay.head)
  }

  lemma GenuineStable(history: seq<Mutation>, what: Mutation, f: Canonical)
    requires Genuine(history, f)
    ensures Genuine(history + [what], f)
  {
    AtStable(history, what, f.event - 1);
  }

  lemma AllGenuineStable(history: seq<Mutation>, what: Mutation, frames: seq<Canonical>)
    requires AllGenuine(history, frames)
    ensures AllGenuine(history + [what], frames)
  {
    hide Genuine;
    forall i | 0 <= i < |frames| ensures Genuine(history + [what], frames[i]) {
      GenuineStable(history, what, frames[i]);
    }
  }

  lemma ItemsGenuineStable(history: seq<Mutation>, what: Mutation, items: seq<Item>)
    requires ItemsGenuine(history, items)
    ensures ItemsGenuine(history + [what], items)
  {
    hide Genuine;
    forall i | 0 <= i < |items| && (items[i].Live? || items[i].Directed?)
      ensures Genuine(history + [what], items[i].frame)
    {
      GenuineStable(history, what, items[i].frame);
    }
  }

  lemma GenuineTail(history: seq<Mutation>, frames: seq<Canonical>)
    requires AllGenuine(history, frames)
    ensures AllGenuine(history, [])
            && (frames != [] ==> Genuine(history, frames[0]) && AllGenuine(history, frames[1..]))
  {
    hide Genuine;
  }

  lemma GenuineAppend(history: seq<Mutation>, frames: seq<Canonical>, f: Canonical)
    requires AllGenuine(history, frames) && Genuine(history, f)
    ensures AllGenuine(history, frames + [f])
  {
    hide Genuine;
  }

  lemma ItemsAppend(history: seq<Mutation>, items: seq<Item>, item: Item)
    requires ItemsGenuine(history, items) && (item.Live? || item.Directed? ==> Genuine(history, item.frame))
    ensures ItemsGenuine(history, items + [item])
  {
    hide Genuine;
  }

  lemma ItemsTail(history: seq<Mutation>, items: seq<Item>)
    requires ItemsGenuine(history, items) && items != []
    ensures ItemsGenuine(history, items[1..])
    ensures items[0].Live? || items[0].Directed? ==> Genuine(history, items[0].frame)
  {
    hide Genuine;
  }

  lemma PublishAuthentic(s: State, what: Mutation)
    requires Authentic(s)
    ensures Authentic(Next(s, Publish(what)))
  {
    hide AllGenuine, ItemsGenuine, OverLimit, WithinPressure;
    var next := s.history + [what];
    var f := FrameAt(next, |s.history|);
    assert Genuine(next, f);
    AllGenuineStable(s.history, what, s.queue);
    ItemsGenuineStable(s.history, what, s.outbox);
    ItemsGenuineStable(s.history, what, s.wire);
    if s.active.Some? { AllGenuineStable(s.history, what, s.active.value.rest); }
    AtStable(s.history, what, s.relay.head.event);
    GenuineTail(next, s.queue);
    GenuineAppend(next, s.queue, f);
    assert Recorded(next, s.relay.head);
    hide Genuine, Recorded, FrameAt;
    EnqueueAuthentic(s.(history := next), f);
  }

  lemma EnqueueAuthentic(s: State, f: Canonical)
    requires Authentic(s) && AllGenuine(s.history, s.queue + [f]) && AllGenuine(s.history, [])
    ensures Authentic(Enqueue(s, f))
  {
    hide AllGenuine, ItemsGenuine, OverLimit, WithinPressure, Recorded, Enqueue, PreMarker;
    if s.failed { FailedEnqueue(s, f); } else { EnqueueShape(s, f); }
  }

  /** An item joins what waits, or what is on the wire. */
  lemma GiveAuthentic(s: State, item: Item)
    requires Authentic(s) && (item.Live? || item.Directed? ==> Genuine(s.history, item.frame))
    ensures Authentic(Give(s, item))
  {
    hide AllGenuine, Genuine, Recorded, ItemsGenuine;
    ItemsAppend(s.history, s.outbox, item);
    ItemsJoin(s.history, s.wire, s.outbox);
    ItemsAppend(s.history, s.wire + s.outbox, item);
    NoItems(s.history);
  }

  lemma NoItems(history: seq<Mutation>)
    ensures ItemsGenuine(history, [])
  {
  }

  lemma ItemsJoin(history: seq<Mutation>, a: seq<Item>, b: seq<Item>)
    requires ItemsGenuine(history, a) && ItemsGenuine(history, b)
    ensures ItemsGenuine(history, a + b)
  {
    hide Genuine;
  }

  lemma ItemsSplit(history: seq<Mutation>, items: seq<Item>, n: nat)
    requires ItemsGenuine(history, items) && n <= |items|
    ensures ItemsGenuine(history, items[..n]) && ItemsGenuine(history, items[n..])
  {
    hide Genuine;
  }

  lemma SendHeadAuthentic(s: State)
    requires Authentic(s) && s.queue != []
    ensures Authentic(SendHead(s))
  {
    hide AllGenuine, ItemsGenuine, Genuine, Recorded, Outcome, Give;
    var n := s.(queue := s.queue[1..], queueBytes := s.queueBytes - BytesOf(s.queue[0]));
    GenuineTail(s.history, s.queue);
    GiveAuthentic(n, Live(s.queue[0]));
  }

  lemma FramesGenuine(history: seq<Mutation>, from: nat)
    requires from <= |history|
    ensures AllGenuine(history, Frames(history, from, |history|))
  {
  }

  lemma LiveMovesHead(history: seq<Mutation>, head: Mark, f: Canonical)
    requires Recorded(history, head) && Genuine(history, f) && f.event == head.event + 1
    ensures Recorded(history, CursorAfter(f))
  {
    AtEvent(history, f.event);
  }

  lemma TakeMovesHead(s: State, item: Item)
    requires Authentic(s) && Take(s.generations, s.relay, item).Some?
    requires item.Live? || item.Directed? ==> Genuine(s.history, item.frame)
    ensures Recorded(s.history, Take(s.generations, s.relay, item).value.head)
  {
    if item.Live? { LiveMovesHead(s.history, s.relay.head, item.frame); }
    hide Genuine, Recorded, AllGenuine, ItemsGenuine;
  }

  lemma DeliversAuthentic(s: State, ready: bool)
    requires Authentic(s)
    ensures Authentic(Next(s, Delivers(ready)))
  {
    hide AllGenuine, ItemsGenuine, Genuine, Recorded, Take;
    if s.wire != [] {
      ItemsTail(s.history, s.wire);
      if Take(s.generations, s.relay, s.wire[0]).Some? { TakeMovesHead(s, s.wire[0]); }
    }
  }

  /** Neither sends nor takes anything; a failure empties the queue and ends the recovery. */
  predicate Untouched(s: State, n: State) {
    && n.history == s.history && (n.queue == s.queue || n.queue == []) && n.outbox == s.outbox && n.wire == s.wire
    && n.relay.head == s.relay.head
    && (n.active.Some? ==> n.active.value.rest == [] || (s.active.Some? && n.active.value.rest == s.active.value.rest))
  }

  lemma UntouchedAuthentic(s: State, n: State)
    requires Authentic(s) && Untouched(s, n)
    ensures Authentic(n)
  {
    hide Genuine, Recorded;
  }

  lemma CaughtUntouched(s: State)
    requires s.active.Some?
    ensures Untouched(s, Caught(s)) && Untouched(s, FailPair(s))
  {
  }

  /** Nothing but which items are still to be replayed, and where. */
  lemma ActiveAuthentic(s: State, n: State)
    requires Authentic(s) && n == s.(active := n.active, lastSent := n.lastSent)
    requires n.active.Some? ==>
               && s.active.Some?
               && (n.active.value.rest == s.active.value.rest
                   || (s.active.value.rest != [] && n.active.value.rest == s.active.value.rest[1..]))
    ensures Authentic(n)
  {
    if s.active.Some? { GenuineTail(s.history, s.active.value.rest); }
    hide AllGenuine, ItemsGenuine, Genuine, Recorded;
  }

  lemma ResumeUntouched(s: State)
    ensures Untouched(s, Resume(s)) && Untouched(s, FailPair(s))
  {
  }

  lemma FlushAuthentic(s: State, payload: nat)
    requires Authentic(s)
    ensures Authentic(Next(s, Flush(payload)))
  {
    hide AllGenuine, ItemsGenuine, Genuine, Recorded, SendHead, Caught, Authentic, Outcome, SendMarker;
    if Covers(s) {
      SendHeadAuthentic(s);
      SendHeadActive(s);
      CaughtUntouched(SendHead(s));
      UntouchedAuthentic(SendHead(s), Caught(SendHead(s)));
    } else if Flushes(s) {
      var n := if s.queue == [] then s.(lastQueued := s.lastSent) else s;
      UntouchedAuthentic(s, n);
      CaughtUntouched(n);
      UntouchedAuthentic(n, Caught(n));
      MarkerAuthentic(n, payload);
    }
  }

  lemma SendHeadActive(s: State)
    requires s.queue != []
    ensures SendHead(s).active == s.active
  {
    hide Outcome;
  }

  lemma MarkerAuthentic(s: State, payload: nat)
    requires Authentic(s) && s.active.Some?
    ensures Authentic(SendMarker(s, payload))
  {
    hide Authentic, Outcome, Give, FailPair;
    var a := s.active.value;
    var marker := Marker(a.request, a.commit, a.at, payload);
    GiveAuthentic(s, marker);
    GiveJoins(s, marker);
    ResumeUntouched(s);
    UntouchedAuthentic(s, FailPair(s));
    if Sends(s, marker) { ActiveAuthentic(Give(s, marker), SendMarker(s, payload)); }
  }

  lemma PumpAuthentic(s: State)
    requires Authentic(s)
    ensures Authentic(Next(s, Pump))
  {
    hide AllGenuine, ItemsGenuine, Genuine, Recorded, SendHead, Outcome, Authentic, FailPair;
    if !s.failed && s.pumping && !s.paused && s.queue != [] {
      var n := SendHead(s);
      SendHeadAuthentic(s);
      ResumeUntouched(n);
      UntouchedAuthentic(n, FailPair(n));
      UntouchedAuthentic(n, n.(lastQueued := n.lastSent));
    } else {
      UntouchedAuthentic(s, Next(s, Pump));
    }
  }

  lemma ReplayAuthentic(s: State)
    requires Authentic(s)
    ensures Authentic(Next(s, Replay))
  {
    hide Authentic, Outcome, FailPair, Resume, Give, Untouched, Sends;
    ResumeUntouched(s);
    UntouchedAuthentic(s, FailPair(s));
    if s.active.Some? {
      var a := s.active.value;
      var item := if a.rest == [] then Commit(a.request, a.commit) else Directed(a.request, a.rest[0]);
      var sent := Give(s, item);
      NextIsGenuine(s);
      GiveAuthentic(s, item);
      GiveJoins(s, item);
      var n := if a.rest == [] then sent.(active := Some(a.(place := Leaving(true))))
               else sent.(active := Some(a.(at := CursorAfter(a.rest[0]), rest := a.rest[1..])));
      ActiveAuthentic(sent, n);
      ResumeUntouched(n);
      UntouchedAuthentic(n, Resume(n));
    }
  }

  lemma NextIsGenuine(s: State)
    requires Authentic(s) && s.active.Some?
    ensures s.active.value.rest != [] ==> Genuine(s.history, s.active.value.rest[0])
  {
    hide ItemsGenuine, Genuine, Recorded;
  }

  lemma StepAuthentic(s: State, step: Step)
    requires Authentic(s)
    ensures Authentic(Next(s, step))
  {
    match step
    case Publish(what) => PublishAuthentic(s, what);
    case Pump => PumpAuthentic(s);
    case Flush(payload) => FlushAuthentic(s, payload);
    case Replay => ReplayAuthentic(s);
    case Delivers(ready) => DeliversAuthentic(s, ready);
    case Paused(base, available) =>
      if Recorded(s.history, base) { FramesGenuine(s.history, base.event); }
      hide Genuine, Frames;
    case _ => OtherAuthentic(s, step);
  }

  lemma OtherAuthentic(s: State, step: Step)
    requires Authentic(s)
    requires !step.Publish? && !step.Pump? && !step.Flush? && !step.Replay? && !step.Delivers? && !step.Paused?
    ensures Authentic(Next(s, step))
  {
    hide AllGenuine, ItemsGenuine, Genuine, Recorded, Authentic;
    if step.Leaves? {
      LeavesAuthentic(s, step.count);
    } else {
      OtherUntouched(s, step);
      UntouchedAuthentic(s, Next(s, step));
    }
  }

  lemma ResolveUntouched(s: State, ready: bool)
    requires s.active.Some?
    ensures Untouched(s, Resolve(s, ready))
  {
  }

  lemma ReceiptUntouched(s: State)
    ensures Untouched(s, MarkSent(s))
  {
    hide Resolve;
    if s.active.Some? {
      var n := s.(active := Some(s.active.value.(place := MarkerSent)));
      ResolveUntouched(n, true);
      ResolveUntouched(n, false);
    }
  }

  lemma HearsUntouched(s: State)
    ensures Untouched(s, HearAnswer(s))
  {
    hide Resolve;
    if s.answers != [] && s.active.Some? { ResolveUntouched(s.(answers := s.answers[1..]), s.answers[0].ready); }
  }

  lemma SupersedeUntouched(s: State)
    ensures Untouched(s, Superseded(s))
  {
    hide Resume, FailPair, Current;
    ResumeUntouched(s);
    if s.active.Some? {
      var a := s.active.value;
      var left := s.(active := Some(a.(aborted := true, place := Leaving(false))));
      ResumeUntouched(left);
      UntouchedOnward(s, left, Resume(left));
    }
  }

  lemma UntouchedOnward(s: State, m: State, n: State)
    requires Untouched(m, n) && m == s.(active := m.active)
    requires m.active.Some? ==> s.active.Some? && m.active.value.rest == s.active.value.rest
    ensures Untouched(s, n)
  {
  }

  lemma ChannelUntouched(s: State, step: Step)
    requires step.Acks? || step.Pings? || step.Drains? || step.Breaks?
    ensures Untouched(s, Next(s, step))
  {
    hide FailPair, Drained;
    ResumeUntouched(s);
  }

  lemma OtherUntouched(s: State, step: Step)
    requires !step.Publish? && !step.Pump? && !step.Flush? && !step.Replay? && !step.Delivers? && !step.Paused?
    requires !step.Leaves?
    ensures Untouched(s, Next(s, step))
  {
    hide Untouched, MarkSent, HearAnswer, Superseded, FailPair, Acknowledged, Ping;
    match step
    case Receipt => ReceiptUntouched(s);
    case Hears => HearsUntouched(s);
    case Supersede => SupersedeUntouched(s);
    case Acks => ChannelUntouched(s, step);
    case Pings => ChannelUntouched(s, step);
    case Drains(_) => ChannelUntouched(s, step);
    case Breaks => ChannelUntouched(s, step);
    case _ => RestUntouched(s, step);
  }

  lemma RestUntouched(s: State, step: Step)
    requires step.Begin? || step.TimesOut? || step.Leave? || step.Closes? || step.Moves? || step.Goes?
    ensures Untouched(s, Next(s, step))
  {
    hide FailPair, Cleared;
    ResumeUntouched(s);
    HeadStays(s.relay);
  }

  lemma HeadStays(e: End)
    ensures forall stream :: Cleared(e, stream).head == e.head
  {
  }

  lemma LeavesAuthentic(s: State, count: nat)
    requires Authentic(s)
    ensures Authentic(Next(s, Leaves(count)))
  {
    hide AllGenuine, ItemsGenuine, Genuine, Recorded, BytesOfAll;
    GenuineTail(s.history, s.queue);
    if count <= |s.outbox| {
      ItemsSplit(s.history, s.outbox, count);
      ItemsJoin(s.history, s.wire, s.outbox[..count]);
    }
  }

  /** In every run, endangered or not, the relay's canonical head is a cursor of the Host's history, and every
      frame on its way there is the history's frame at its position. */
  lemma {:induction false} RelayHoldsAPrefix(s: State, steps: seq<Step>)
    requires Begins(s)
    ensures Authentic(Run(s, steps))
    decreases |steps|
  {
    if steps == [] {
      BeginsAuthentic(s);
    } else {
      RelayHoldsAPrefix(s, steps[..|steps| - 1]);
      hide Authentic, Next;
      StepAuthentic(Run(s, steps[..|steps| - 1]), steps[|steps| - 1]);
    }
  }

  lemma BeginsAuthentic(s: State)
    requires Begins(s)
    ensures Authentic(s)
  {
    var n := s.lastSent.event;
    forall i | 0 <= i < |s.queue| ensures Genuine(s.history, s.queue[i]) {
      assert s.queue[i] == FrameAt(s.history, n + i);
    }
  }

  // ---- Where it ends ----

  /** A pin is ahead exactly when the relay will hold one. */
  lemma PinAheadIff(s: State)
    requires Inv(s) && !s.failed && s.active.Some? && Waits(s.active.value)
    ensures PinAhead(s, s.active.value) <==> Arrives(s).value.held.Some?
  {
    hide Continuous, Ordered, AllIssued, Bound;
    var a := s.active.value;
    if PinAhead(s, a) {
      if MarkerIn(InTransit(s), a.request) { MarkerPins(s, a); } else { MarkerTaken(s, a); }
    } else {
      NoPinAhead(s);
    }
  }

  /** A marker on its way, for a current client, is the last item, and will be pinned. */
  lemma MarkerPins(s: State, a: Active)
    requires Inv(s) && !s.failed && Current(s.generations, a.request) && MarkerIn(InTransit(s), a.request)
    ensures Arrives(s).value.held.Some?
  {
    hide Continuous, Ordered, AllIssued, Bound, Answered, Trailing;
    var items := InTransit(s);
    var i :| 0 <= i < |items| && items[i].Marker? && items[i].request == a.request;
    assert IsLive(s.generations, items[i]);
    var before := items[..|items| - 1];
    assert items == before + [items[i]];
    FlowPrefix(s.generations, s.relay, before, items[i]);
    FlowAppend(s.generations, s.relay, before, items[i]);
  }

  lemma {:induction false} FlowPrefix(generations: map<int, int>, e: End, items: seq<Item>, item: Item)
    requires Flow(generations, e, items + [item]).Some?
    ensures Flow(generations, e, items).Some?
    decreases |items|
  {
    hide Take;
    if items != [] {
      assert (items + [item])[1..] == items[1..] + [item] && (items + [item])[0] == items[0];
      FlowPrefix(generations, Take(generations, e, items[0]).value, items[1..], item);
    }
  }

  /** When the marker has arrived nothing is on its way behind it. */
  lemma MarkerTaken(s: State, a: Active)
    requires Inv(s) && !s.failed && s.active == Some(a) && Waits(a) && !MarkerIn(InTransit(s), a.request)
    ensures Arrives(s) == Some(s.relay)
  {
    hide Continuous, Ordered, AllIssued, Bound, Answered;
    if InTransit(s) != [] { TrailingMarker(InTransit(s), a); }
  }

  /** The publisher's queue overflows while a marker waits in the data channel. The recovery is given up and the
      publisher goes on; the relay will take its next frame, whatever becomes of the data channel meanwhile, if
      and only if no pin was ahead. */
  lemma PressureIsSafeIff(s: State, what: Mutation, channel: Channel)
    requires Inv(s) && !s.failed && s.active.Some? && s.active.value.place.MarkerQueued?
    requires var f := FrameAt(s.history + [what], |s.history|); OverLimit(s, f) && WithinPressure(s, f)
    requires var p := Next(s, Publish(what)).(channel := channel); p.queue != [] && SendsHead(p)
    ensures var n := Next(Next(s, Publish(what)).(channel := channel), Pump);
            !n.failed && (Arrives(n).Some? <==> !PinAhead(s, s.active.value))
  {
    hide Flow, Ordered, Answered, LastOnly, AllIssued, Outcome, PinAhead, Trailing, Give, Enqueue, OverLimit,
         WithinPressure;
    PinAheadIff(s);
    var f := FrameAt(s.history + [what], |s.history|);
    ContinuousPublish(s.history, s.queue, s.lastSent, s.lastQueued, what);
    OrderedUnpinned(s.history, s.active, Arrives(s).value.held, s.lastSent, s.paused && !s.pumping);
    EnqueueShape(s.(history := s.history + [what]), f);
    SameLimits(s, s.(history := s.history + [what]), f);
    PressedPumps(s.(history := s.history + [what]), f);
    var p := PublishMutation(s, what).(channel := channel);
    ContinuousSend(s.history + [what], p.queue, s.lastSent, CursorAfter(f));
    HeadGiven(p);
    var n := PumpOne(p);
    assert InTransit(n) == InTransit(s) + [Live(p.queue[0])];
    FlowAppend(s.generations, s.relay, InTransit(s), Live(p.queue[0]));
  }

  /** Pressure sets the publisher going again. */
  lemma PressedPumps(s: State, f: Canonical)
    requires !s.failed && OverLimit(s, f)
    ensures var n := Enqueue(s, f); n.queue != [] ==> n.pumping && !n.paused && !n.failed
  {
    hide OverLimit, WithinPressure;
  }

  /** What the relay will have seen and what is queued make up the history, unless the Host has failed. */
  ghost predicate NothingLost(s: State) {
    s.failed || (Arrives(s).Some? && Arrives(s).value.head.event + |s.queue| == |s.history|)
  }

  lemma InvLosesNothing(s: State)
    requires Inv(s)
    ensures NothingLost(s)
  {
    hide Flow, Ordered, Answered, LastOnly, AllIssued, Trailing;
  }

  /** A flush takes a frame off the queue, and may throw. The frame is lost if and only if the recovery was aborted
      and the data channel does not take the frame; then, and only then, the relay will refuse the publisher's next
      one, whenever the data channel takes that. */
  lemma LostFrameIff(s: State, payload: nat, channel: Channel)
    requires Inv(s) && Covers(s)
    ensures var n := Next(s, Flush(payload)); var m := n.(channel := channel);
            var lost := s.active.value.aborted && Drops(s.channel, s.outbox, Live(s.queue[0]));
            && (NothingLost(n) <==> !lost)
            && (m.queue != [] && SendsHead(m) ==> (Arrives(Next(m, Pump)).Some? <==> !lost))
  {
    hide Flow, Ordered, Answered, LastOnly, AllIssued, Outcome, Drops, Trailing, Continuous, Next, NothingLost, Give;
    var n := Next(s, Flush(payload));
    var m := n.(channel := channel);
    if s.active.value.aborted && Drops(s.channel, s.outbox, Live(s.queue[0])) {
      FrameIsLost(s, payload);
      if m.queue != [] && SendsHead(m) { NextIsRefused(s, m); }
    } else {
      assert !Endangers(s, Flush(payload));
      FlushKeeps(s, payload);
      InvLosesNothing(n);
      ChannelKeeps(n, m);
      PumpKeeps(m);
    }
  }

  lemma FrameIsLost(s: State, payload: nat)
    requires Inv(s) && Covers(s) && s.active.value.aborted && Drops(s.channel, s.outbox, Live(s.queue[0]))
    ensures var n := Next(s, Flush(payload));
            && !NothingLost(n) && !n.failed && n.queue == s.queue[1..] && (n.queue != [] ==> n.pumping && !n.paused)
            && n.history == s.history && n.lastSent == s.lastSent && n.channel == s.channel
            && n.generations == s.generations && n.relay == s.relay && n.wire == s.wire && n.outbox == s.outbox
            && n.refused == s.refused
  {
    hide Flow, Ordered, Answered, LastOnly, AllIssued, Trailing, Drops, Give;
    var n := Next(s, Flush(payload));
    assert InTransit(n) == InTransit(s);
  }

  lemma NextIsRefused(s: State, n: State)
    requires Inv(s) && Covers(s) && n.queue == s.queue[1..] && n.queue != [] && !n.failed && n.pumping && !n.paused
    requires n.generations == s.generations && n.relay == s.relay && n.wire == s.wire && n.outbox == s.outbox
    requires SendsHead(n)
    ensures Arrives(Next(n, Pump)).None?
  {
    hide Flow, Ordered, Answered, LastOnly, AllIssued, Trailing, Outcome, Give;
    var second := Live(n.queue[0]);
    ContinuousSend(s.history, s.queue, s.lastSent, s.lastQueued);
    ContinuousSend(s.history, n.queue, CursorAfter(s.queue[0]), s.lastQueued);
    HeadGiven(n);
    assert InTransit(Next(n, Pump)) == InTransit(s) + [second];
    FlowAppend(s.generations, s.relay, InTransit(s), second);
  }

  // ---- Runs ----

  lemma RunMore(s: State, steps: seq<Step>, step: Step)
    ensures Run(s, steps + [step]) == Next(Run(s, steps), step)
  {
    assert (steps + [step])[..|steps|] == steps;
  }

  lemma {:induction false} RunJoins(s: State, before: seq<Step>, after: seq<Step>)
    ensures Run(s, before + after) == Run(Run(s, before), after)
    decreases |after|
  {
    hide Next;
    if after == [] {
      assert before + after == before;
    } else {
      RunJoins(s, before, after[..|after| - 1]);
      assert (before + after)[..|before + after| - 1] == before + after[..|after| - 1];
    }
  }

  lemma RunOne(s: State, a: Step)
    ensures Run(s, [a]) == Next(s, a)
  {
    hide Next;
    RunMore(s, [], a);
    assert [] + [a] == [a] && Run(s, []) == s;
  }

  lemma RunTwo(s: State, a: Step, b: Step)
    ensures Run(s, [a, b]) == Next(Next(s, a), b)
  {
    hide Next;
    RunOne(s, a);
    RunMore(s, [a], b);
    assert [a] + [b] == [a, b];
  }

  lemma RunThree(s: State, a: Step, b: Step, c: Step)
    ensures Run(s, [a, b, c]) == Next(Next(Next(s, a), b), c)
  {
    hide Next;
    RunTwo(s, a, b);
    RunMore(s, [a, b], c);
    assert [a, b] + [c] == [a, b, c];
  }

  /** The relay takes the next n items. */
  function Deliveries(n: nat): seq<Step> { seq(n, i => Delivers(true)) }

  lemma {:induction false} StaysRefused(s: State, n: nat)
    requires s.refused
    ensures Run(s, Deliveries(n)).refused
  {
    if n > 0 {
      StaysRefused(s, n - 1);
      assert Deliveries(n)[..n - 1] == Deliveries(n - 1);
    }
  }

  lemma DeliveryTakes(s: State)
    requires !s.refused && s.wire != []
    ensures var n := Next(s, Delivers(true)); var next := Take(s.generations, s.relay, s.wire[0]);
            && (next.None? ==> n.refused)
            && (next.Some? ==>
                  !n.refused && n.relay == next.value && n.wire == s.wire[1..] && n.generations == s.generations)
  {
  }

  /** What will not flow is refused when it has been delivered. */
  lemma {:induction false} DeliveriesRefuse(s: State, n: nat)
    requires !s.refused && n == |s.wire| && Flow(s.generations, s.relay, s.wire).None?
    ensures Run(s, Deliveries(n)).refused
    decreases n
  {
    hide Next, Take;
    var d := Next(s, Delivers(true));
    DeliveryTakes(s);
    assert Deliveries(n) == [Delivers(true)] + Deliveries(n - 1);
    RunOne(s, Delivers(true));
    RunJoins(s, [Delivers(true)], Deliveries(n - 1));
    if d.refused { StaysRefused(d, n - 1); } else { DeliveriesRefuse(d, n - 1); }
  }

  const ONE: Request := Request(1, 1)
  const BYTE: Mutation := Mutation(true, 1)
  const BIG: Mutation := Mutation(true, 16 * 1024)
  const BIG_BYTES: nat := HEADER_BYTES + 16 * 1024

  /** A Host that has sent nothing, without batches and with. */
  const FRESH: State :=
    State([], [], 0, Mark(0, 0), Mark(0, 0), false, false, None, false, Channel(false, T.Socket(true, 0), 0), [], [],
          [], map[1 := 1], End(Mark(0, 0), None), false)
  const BATCHING: State := FRESH.(channel := Channel(true, T.Socket(true, 0), 0))

  // ---- A run in which a frame is lost ----

  /** How many big frames a socket holds. */
  const FULL: nat := 510

  /** So many big frames were sent, and the socket has passed on none of them. */
  ghost predicate Filled(s: State, n: nat) {
    && Inv(s) && !s.failed && !s.paused && s.active.None? && s.queue == [] && s.queueBytes == 0 && |s.history| == n
    && s.lastSent == s.lastQueued == Mark(n, 16 * 1024 * n)
    && s.channel == Channel(false, T.Socket(true, BIG_BYTES * n), 0) && s.outbox == [] && |s.wire| == n
    && s.generations == map[1 := 1]
  }

  /** One more big frame waits. */
  ghost predicate Filling(s: State, n: nat) {
    && !s.failed && !s.paused && s.pumping && s.active.None? && |s.queue| == 1 && s.queueBytes == BIG_BYTES
    && s.queue[0] == Canonical(n + 1, 16 * 1024 * n, BIG)
    && s.lastQueued == CursorAfter(s.queue[0]) && |s.history| == n + 1
    && s.channel == Channel(false, T.Socket(true, BIG_BYTES * n), 0) && s.outbox == [] && |s.wire| == n
    && s.generations == map[1 := 1]
  }

  lemma PublishFills(s: State, n: nat)
    requires Filled(s, n)
    ensures Filling(Next(s, Publish(BIG)), n)
  {
    NextBig(s, BIG);
    hide Inv, FrameAt, At;
    var f := FrameAt(s.history + [BIG], |s.history|);
    assert f == Canonical(n + 1, 16 * 1024 * n, BIG);
    assert [] + [f] == [f];
  }

  lemma PumpFills(s: State, n: nat)
    requires Filling(s, n) && n < FULL
    ensures var r := Next(s, Pump);
            && !r.failed && !r.paused && r.active.None? && r.queue == [] && r.queueBytes == 0 && |r.history| == n + 1
            && r.lastSent == r.lastQueued == Mark(n + 1, 16 * 1024 * (n + 1))
            && r.channel == Channel(false, T.Socket(true, BIG_BYTES * (n + 1)), 0) && r.outbox == []
            && |r.wire| == n + 1 && r.generations == map[1 := 1]
  {
    assert SendsHead(s);
    hide Outcome;
  }

  lemma FillsMore(s: State, n: nat)
    requires Filled(s, n) && n < FULL
    ensures Filled(Next(Next(s, Publish(BIG)), Pump), n + 1)
  {
    hide Inv, Next;
    PublishFills(s, n);
    StepKeeps(s, Publish(BIG));
    var p := Next(s, Publish(BIG));
    PumpFills(p, n);
    StepKeeps(p, Pump);
  }

  lemma NextBig(s: State, what: Mutation)
    requires Inv(s) && !s.failed
    ensures var f := FrameAt(s.history + [what], |s.history|);
            f.event == s.lastQueued.event + 1 && f.pty == s.lastQueued.pty && f.what == what
  {
    hide Flow, Ordered, Answered, Continuous;
    ContinuousPublish(s.history, s.queue, s.lastSent, s.lastQueued, what);
  }

  function Fill(n: nat): seq<Step> { if n == 0 then [] else Fill(n - 1) + [Publish(BIG), Pump] }

  lemma FreshIsFilled()
    ensures Begins(FRESH) && Filled(FRESH, 0)
  {
    assert Begins(FRESH);
    BeginsInv(FRESH);
    hide Inv, Begins;
  }

  lemma {:induction false} Fills(n: nat)
    requires n <= FULL
    ensures Filled(Run(FRESH, Fill(n)), n)
  {
    hide Filled, Next;
    if n == 0 {
      FreshIsFilled();
    } else {
      Fills(n - 1);
      var s := Run(FRESH, Fill(n - 1));
      FillsMore(s, n - 1);
      RunTwo(s, Publish(BIG), Pump);
      RunJoins(FRESH, Fill(n - 1), [Publish(BIG), Pump]);
    }
  }

  /** A recovery begins while the publisher is at work, and two more frames wait. */
  function Beginning(): seq<Step> { [Begin(ONE), Publish(BIG), Publish(BYTE)] }

  /** The recovery is superseded while the publisher is being paused, and flushes all the same; the first frame is
      too much for the socket, the second is not. */
  function Superseding(): seq<Step> { [Moves(1), Supersede, Pump] }

  function Flushed(): seq<Step> { [Paused(Mark(FULL, 16 * 1024 * FULL), true), Flush(0), Pump] }

  function LostFrame(): seq<Step> {
    Fill(FULL) + Beginning() + Superseding() + Flushed() + Deliveries(FULL + 1)
  }

  /** The two frames wait. */
  ghost predicate Waiting(s: State) {
    && Inv(s) && !s.failed && s.paused && |s.history| == FULL + 2 && |s.queue| == 2
    && s.queue[0].event == FULL + 1 && s.queue[0].what == BIG && s.queue[1].what == BYTE
    && Recorded(s.history, Mark(FULL, 16 * 1024 * FULL))
    && s.channel == Channel(false, T.Socket(true, BIG_BYTES * FULL), 0) && s.outbox == [] && |s.wire| == FULL
  }

  lemma BeginWaits(s: State)
    requires Filled(s, FULL)
    ensures var n := Next(s, Begin(ONE));
            && Inv(n) && n == s.(paused := true, active := n.active) && n.active.Some?
            && n.active.value.request == ONE && n.active.value.place.Pausing?
  {
    StepKeeps(s, Begin(ONE));
    hide Inv;
  }

  /** One more frame waits in a paused publisher. */
  lemma PublishWaits(s: State, what: Mutation)
    requires Inv(s) && !s.failed && s.paused && |s.queue| <= 1 && s.queueBytes <= BIG_BYTES && what.length <= 16 * 1024
    requires s.active.Some? && s.active.value.place.Pausing?
    ensures var n := Next(s, Publish(what)); var f := FrameAt(s.history + [what], |s.history|);
            && n == s.(history := s.history + [what], queue := s.queue + [f], queueBytes := s.queueBytes + BytesOf(f),
                       lastQueued := CursorAfter(f))
            && f.what == what && f.event == s.lastQueued.event + 1 && Inv(n)
  {
    StepKeeps(s, Publish(what));
    NextBig(s, what);
    hide Inv, FrameAt;
  }

  lemma BeginningWaits(s: State)
    requires Filled(s, FULL)
    ensures var n := Run(s, Beginning());
            Waiting(n) && n.generations == map[1 := 1] && n.active.Some? && n.active.value.request == ONE
            && n.active.value.place.Pausing?
  {
    hide Inv, Next, Recorded, FrameAt;
    RunThree(s, Begin(ONE), Publish(BIG), Publish(BYTE));
    BeginWaits(s);
    var s1 := Next(s, Begin(ONE));
    PublishWaits(s1, BIG);
    PublishWaits(Next(s1, Publish(BIG)), BYTE);
    SentIsRecorded(s);
    RecordedStays(s.history, BIG, s.lastSent);
    RecordedStays(s.history + [BIG], BYTE, s.lastSent);
  }

  lemma SentIsRecorded(s: State)
    requires Inv(s) && !s.failed
    ensures Recorded(s.history, s.lastSent)
  {
    hide Flow, Ordered, Answered, LastOnly, AllIssued;
  }

  lemma RecordedStays(history: seq<Mutation>, what: Mutation, m: Mark)
    requires Recorded(history, m)
    ensures Recorded(history + [what], m)
  {
    AtStable(history, what, m.event);
  }

  lemma SupersedingAborts(s: State)
    requires Waiting(s) && s.generations == map[1 := 1]
    requires s.active.Some? && s.active.value.request == ONE && s.active.value.place.Pausing?
    ensures var n := Run(s, Superseding());
            Waiting(n) && n.active.Some? && n.active.value.place.Pausing? && n.active.value.aborted
  {
    hide Inv, Recorded, Next;
    RunThree(s, Moves(1), Supersede, Pump);
    MovesWaits(s);
    SupersedeWaits(Next(s, Moves(1)));
    PumpWaits(Next(Next(s, Moves(1)), Supersede));
  }

  lemma MovesWaits(s: State)
    requires Waiting(s) && s.generations == map[1 := 1]
    ensures var n := Next(s, Moves(1));
            Waiting(n) && n.active == s.active && n.generations == map[1 := 2]
  {
    StepKeeps(s, Moves(1));
    hide Inv, Recorded;
  }

  lemma SupersedeWaits(s: State)
    requires Waiting(s) && s.generations == map[1 := 2]
    requires s.active.Some? && s.active.value.request == ONE && s.active.value.place.Pausing?
    ensures var n := Next(s, Supersede);
            Waiting(n) && n.active == Some(s.active.value.(aborted := true))
  {
    StepKeeps(s, Supersede);
    hide Inv, Recorded;
  }

  lemma PumpWaits(s: State)
    requires Waiting(s)
    ensures var n := Next(s, Pump); Waiting(n) && n.active == s.active
  {
    StepKeeps(s, Pump);
    hide Inv, Recorded;
  }

  lemma PausedFlushes(s: State)
    requires Waiting(s) && s.active.Some? && s.active.value.place.Pausing? && s.active.value.aborted
    ensures var n := Next(s, Paused(Mark(FULL, 16 * 1024 * FULL), true));
            && Inv(n) && n == s.(active := n.active) && Covers(n) && n.active.value.aborted
            && Drops(n.channel, n.outbox, Live(n.queue[0]))
  {
    StepKeeps(s, Paused(Mark(FULL, 16 * 1024 * FULL), true));
    AtEvent(s.history, |s.history|);
    hide Inv, Frames, At, Recorded;
  }

  lemma FlushedLoses(s: State)
    requires Waiting(s) && s.active.Some? && s.active.value.place.Pausing? && s.active.value.aborted
    ensures var n := Run(s, Flushed()); Arrives(n).None? && !n.refused && n.outbox == [] && |n.wire| == FULL + 1
  {
    hide Inv, Recorded, Next, NothingLost, Arrives;
    var base := Mark(FULL, 16 * 1024 * FULL);
    RunThree(s, Paused(base, true), Flush(0), Pump);
    PausedFlushes(s);
    var s1 := Next(s, Paused(base, true));
    NotRefused(s1);
    FrameIsLost(s1, 0);
    var n := Next(s1, Flush(0));
    SmallIsSent(n);
    assert n.(channel := n.channel) == n;
    LostFrameIff(s1, 0, n.channel);
  }

  lemma SmallIsSent(s: State)
    requires s.queue != [] && s.queue[0].what == BYTE && !s.failed && s.pumping && !s.paused
    requires s.channel == Channel(false, T.Socket(true, BIG_BYTES * FULL), 0) && s.outbox == [] && |s.wire| == FULL
    ensures SendsHead(s)
    ensures var n := Next(s, Pump); n.refused == s.refused && n.outbox == [] && |n.wire| == FULL + 1
  {
  }

  lemma NotRefused(s: State)
    requires Inv(s)
    ensures !s.refused
  {
  }

  /** So the Host can be failed by its own recovery: a run from the beginning. */
  lemma LostFrameIsRefused()
    ensures Begins(FRESH) && Run(FRESH, LostFrame()).refused
  {
    hide Next, Filled, Waiting, Inv;
    Fills(FULL);
    var filled := Run(FRESH, Fill(FULL));
    BeginningWaits(filled);
    RunJoins(FRESH, Fill(FULL), Beginning());
    var waiting := Run(filled, Beginning());
    SupersedingAborts(waiting);
    RunJoins(FRESH, Fill(FULL) + Beginning(), Superseding());
    var aborted := Run(waiting, Superseding());
    FlushedLoses(aborted);
    RunJoins(FRESH, Fill(FULL) + Beginning() + Superseding(), Flushed());
    var lost := Run(aborted, Flushed());
    assert InTransit(lost) == lost.wire;
    DeliveriesRefuse(lost, FULL + 1);
    RunJoins(FRESH, Fill(FULL) + Beginning() + Superseding() + Flushed(), Deliveries(FULL + 1));
  }

  // ---- A run in which pressure strikes ----

  const FIRST: Canonical := Canonical(1, 0, BYTE)
  const MARKER: Item := Marker(ONE, Mark(1, 1), Mark(1, 1), 64)

  /** A batch is in flight, a recovery's marker waits behind it, and a publisher is paused with n frames. */
  ghost predicate Crowded(s: State, n: nat) {
    && Inv(s) && !s.failed && s.paused && !s.pumping
    && s.active == Some(Active(ONE, false, MarkerQueued(None), Mark(1, 1), Mark(1, 1), []))
    && |s.queue| == n && s.queueBytes == 49 * n && (forall i :: 0 <= i < n ==> s.queue[i].what == BYTE)
    && s.channel == Channel(true, T.Socket(true, 49), 49) && s.outbox == [MARKER] && |s.wire| == 1
    && s.generations == map[1 := 1]
  }

  lemma CrowdsMore(s: State, n: nat)
    requires Crowded(s, n) && n < MAX_QUEUE_FRAMES
    ensures Crowded(Next(s, Publish(BYTE)), n + 1)
  {
    NextBig(s, BYTE);
    StepKeeps(s, Publish(BYTE));
    hide Inv;
  }

  function Publishes(n: nat): seq<Step> { seq(n, i => Publish(BYTE)) }

  lemma {:induction false} Crowds(s: State, n: nat)
    requires Crowded(s, 0) && n <= MAX_QUEUE_FRAMES
    ensures Crowded(Run(s, Publishes(n)), n)
  {
    hide Crowded, Next;
    if n > 0 {
      Crowds(s, n - 1);
      assert Publishes(n)[..n - 1] == Publishes(n - 1);
      CrowdsMore(Run(s, Publishes(n - 1)), n - 1);
    }
  }

  /** One frame is sent, in a batch of its own. */
  function Starting(): seq<Step> { [Publish(BYTE), Pump, Leaves(1)] }

  /** A recovery pauses the publisher and sends its marker. */
  function Marking(): seq<Step> { [Pump, Begin(ONE), Paused(Mark(1, 1), true)] + [Flush(64)] }

  /** One mutation more overflows the publisher, and its next frame follows the marker. */
  function Overflowing(): seq<Step> { [Publish(BYTE), Pump] }

  /** Batch after batch is acknowledged, and the next one leaves. */
  function Emptying(): seq<Step> { [Acks, Leaves(1)] + [Acks, Leaves(1)] }

  function Pressure(): seq<Step> {
    Starting() + Marking() + Publishes(MAX_QUEUE_FRAMES) + Overflowing() + Emptying() + Deliveries(3)
  }

  const STARTED: State :=
    BATCHING.(history := [BYTE], lastSent := Mark(1, 1), lastQueued := Mark(1, 1), pumping := true,
              channel := Channel(true, T.Socket(true, 49), 49), wire := [Live(FIRST)])

  lemma OneByte()
    ensures At([BYTE], 0) == Mark(0, 0) && At([BYTE], 1) == Mark(1, 1) && FrameAt([BYTE], 0) == FIRST
  {
    assert At([BYTE], 1) == CursorAfter(FrameAt([BYTE], 0));
  }

  const PUBLISHED: State :=
    BATCHING.(history := [BYTE], queue := [FIRST], queueBytes := 49, lastQueued := Mark(1, 1), pumping := true)

  const PUMPED: State :=
    PUBLISHED.(queue := [], queueBytes := 0, lastSent := Mark(1, 1), outbox := [Live(FIRST)])

  lemma PublishStarts()
    ensures Next(BATCHING, Publish(BYTE)) == PUBLISHED
  {
    OneByte();
    assert [] + [BYTE] == [BYTE] && [] + [FIRST] == [FIRST];
  }

  lemma PumpStarts()
    ensures Next(PUBLISHED, Pump) == PUMPED
  {
    assert [FIRST][1..] == [] && [] + [Live(FIRST)] == [Live(FIRST)];
  }

  lemma LeavesStarts()
    ensures Next(PUMPED, Leaves(1)) == STARTED
  {
    OneLeaves(PUMPED);
    assert [Live(FIRST)][1..] == [] && [] + [Live(FIRST)] == [Live(FIRST)];
  }

  lemma BatchingInv()
    ensures Begins(BATCHING) && Inv(BATCHING)
  {
    assert Begins(BATCHING);
    BeginsInv(BATCHING);
    hide Inv, Begins;
  }

  lemma StartIsReached()
    ensures Run(BATCHING, Starting()) == STARTED && Inv(STARTED)
  {
    hide Next, Inv, Endangers;
    BatchingInv();
    RunThree(BATCHING, Publish(BYTE), Pump, Leaves(1));
    PublishStarts();
    PumpStarts();
    LeavesStarts();
    StartsUnharmed();
    StepKeeps(BATCHING, Publish(BYTE));
    StepKeeps(PUBLISHED, Pump);
    StepKeeps(PUMPED, Leaves(1));
  }

  lemma StartsUnharmed()
    ensures !Endangers(BATCHING, Publish(BYTE)) && !Endangers(PUBLISHED, Pump) && !Endangers(PUMPED, Leaves(1))
  {
    assert FRESH.active.None? && BATCHING.active.None? && PUBLISHED.active.None? && PUMPED.active.None?;
  }

  const PAUSED: State :=
    STARTED.(pumping := false, paused := true,
             active := Some(Active(ONE, false, Flushing, Mark(1, 1), Mark(1, 1), [])))

  lemma PausedIsReached()
    ensures Next(Next(Next(STARTED, Pump), Begin(ONE)), Paused(Mark(1, 1), true)) == PAUSED
  {
    OneByte();
  }

  lemma PausedInv()
    ensures Inv(PAUSED)
  {
    hide Inv, Next;
    StartIsReached();
    var s1 := Next(STARTED, Pump);
    var s2 := Next(s1, Begin(ONE));
    StepKeeps(STARTED, Pump);
    StepKeeps(s1, Begin(ONE));
    StepKeeps(s2, Paused(Mark(1, 1), true));
    PausedIsReached();
  }

  lemma MarkerIsSent()
    ensures Next(PAUSED, Flush(64))
            == PAUSED.(active := Some(Active(ONE, false, MarkerQueued(None), Mark(1, 1), Mark(1, 1), [])),
                       outbox := [MARKER])
    ensures !Endangers(PAUSED, Flush(64))
  {
    assert [] + [MARKER] == [MARKER] && STARTED.queue == [];
  }

  lemma MarkerIsReached()
    ensures Crowded(Run(STARTED, Marking()), 0)
  {
    hide Inv, Next, Endangers;
    PausedInv();
    MarkerIsSent();
    StepKeeps(PAUSED, Flush(64));
    RunThree(STARTED, Pump, Begin(ONE), Paused(Mark(1, 1), true));
    PausedIsReached();
    RunOne(PAUSED, Flush(64));
    RunJoins(STARTED, [Pump, Begin(ONE), Paused(Mark(1, 1), true)], [Flush(64)]);
  }

  /** With the queue full, pressure sends its first frame behind the marker. */
  lemma CrowdOverflows(s: State)
    requires Crowded(s, MAX_QUEUE_FRAMES)
    ensures var n := Run(s, Overflowing());
            && Arrives(n).None? && !n.refused && !n.failed && |n.wire| == 1 && n.channel == s.channel
            && n.outbox == [MARKER, Live(s.queue[0])]
  {
    hide Inv, PinAhead, Next, Arrives;
    RunTwo(s, Publish(BYTE), Pump);
    var p := Next(s, Publish(BYTE));
    CrowdPressed(s);
    PressedSends(p);
    assert p.(channel := s.channel) == p;
    PressureIsSafeIff(s, BYTE, s.channel);
  }

  lemma CrowdPressed(s: State)
    requires Crowded(s, MAX_QUEUE_FRAMES)
    ensures var f := FrameAt(s.history + [BYTE], |s.history|); OverLimit(s, f) && WithinPressure(s, f)
    ensures var p := Next(s, Publish(BYTE));
            && p.queue != [] && p.queue[0] == s.queue[0] && p.outbox == s.outbox && p.channel == s.channel
            && p.wire == s.wire && p.pumping && !p.paused && !p.failed && !p.refused
    ensures PinAhead(s, s.active.value)
  {
    NextBig(s, BYTE);
    MarkerIsIn(s);
    NotRefused(s);
    hide Inv, Arrives;
  }

  lemma PressedSends(p: State)
    requires p.queue != [] && p.queue[0].what == BYTE && p.outbox == [MARKER]
    requires p.channel == Channel(true, T.Socket(true, 49), 49) && p.pumping && !p.paused && !p.failed
    ensures SendsHead(p)
    ensures var n := Next(p, Pump);
            && n.outbox == [MARKER, Live(p.queue[0])] && n.wire == p.wire && n.channel == p.channel
            && n.refused == p.refused && !n.failed
  {
    assert [MARKER][1..] == [] && BytesOfAll([MARKER]) == ItemBytes(MARKER);
  }

  lemma MarkerIsIn(s: State)
    requires s.outbox == [MARKER]
    ensures MarkerIn(InTransit(s), ONE)
  {
    assert InTransit(s)[|s.wire|] == MARKER;
  }

  lemma BatchLeaves(s: State)
    requires !s.failed && !s.refused && Arrives(s).None? && s.outbox != [] && ItemBytes(s.outbox[0]) <= 112
    requires s.channel.batching && s.channel.socket.open && s.channel.socket.buffered <= 1000 && s.channel.inFlight > 0
    ensures var n := Run(s, [Acks, Leaves(1)]);
            && !n.failed && !n.refused && Arrives(n).None? && n.outbox == s.outbox[1..] && |n.wire| == |s.wire| + 1
            && n.channel.batching && n.channel.socket.open && n.channel.inFlight > 0
            && n.channel.socket.buffered <= s.channel.socket.buffered + 112
  {
    hide Flow, Run;
    RunTwo(s, Acks, Leaves(1));
    AckFrees(s);
    OneLeaves(Next(s, Acks));
  }

  lemma AckFrees(s: State)
    requires !s.failed && s.channel.inFlight > 0
    ensures Next(s, Acks) == s.(channel := s.channel.(inFlight := 0))
  {
  }

  lemma OneLeaves(s: State)
    requires !s.failed && s.outbox != [] && ItemBytes(s.outbox[0]) <= 112
    requires s.channel.batching && s.channel.socket.open && s.channel.socket.buffered <= 1000 && s.channel.inFlight == 0
    ensures var n := Next(s, Leaves(1)); var bytes := ItemBytes(s.outbox[0]);
            && n == s.(outbox := s.outbox[1..], wire := s.wire + [s.outbox[0]],
                       channel := s.channel.(socket := s.channel.socket.Given(bytes), inFlight := bytes))
            && InTransit(n) == InTransit(s) && bytes > 0
  {
    var first := s.outbox[..1];
    assert first == [s.outbox[0]] && first[1..] == [] && BytesOfAll(first) == ItemBytes(s.outbox[0]);
    assert s.outbox == first + s.outbox[1..];
  }

  lemma EmptyingSends(s: State)
    requires !s.failed && !s.refused && Arrives(s).None? && |s.outbox| == 2
    requires ItemBytes(s.outbox[0]) <= 112 && ItemBytes(s.outbox[1]) <= 112
    requires s.channel.batching && s.channel.socket.open && s.channel.socket.buffered <= 500 && s.channel.inFlight > 0
    ensures var n := Run(s, Emptying()); !n.refused && Arrives(n).None? && n.outbox == [] && |n.wire| == |s.wire| + 2
  {
    hide Arrives, Run;
    BatchLeaves(s);
    BatchLeaves(Run(s, [Acks, Leaves(1)]));
    RunJoins(s, [Acks, Leaves(1)], [Acks, Leaves(1)]);
  }

  lemma PressureIsRefused()
    ensures Begins(BATCHING) && Run(BATCHING, Pressure()).refused
  {
    hide Next, Crowded, Inv;
    StartIsReached();
    MarkerIsReached();
    RunJoins(BATCHING, Starting(), Marking());
    var marked := Run(STARTED, Marking());
    Crowds(marked, MAX_QUEUE_FRAMES);
    RunJoins(BATCHING, Starting() + Marking(), Publishes(MAX_QUEUE_FRAMES));
    var full := Run(marked, Publishes(MAX_QUEUE_FRAMES));
    CrowdOverflows(full);
    CrowdShape(full);
    RunJoins(BATCHING, Starting() + Marking() + Publishes(MAX_QUEUE_FRAMES), Overflowing());
    var over := Run(full, Overflowing());
    EmptyingSends(over);
    RunJoins(BATCHING, Starting() + Marking() + Publishes(MAX_QUEUE_FRAMES) + Overflowing(), Emptying());
    var out := Run(over, Emptying());
    assert InTransit(out) == out.wire;
    DeliveriesRefuse(out, 3);
    RunJoins(BATCHING, Starting() + Marking() + Publishes(MAX_QUEUE_FRAMES) + Overflowing() + Emptying(),
      Deliveries(3));
  }

  lemma CrowdShape(s: State)
    requires Crowded(s, MAX_QUEUE_FRAMES)
    ensures s.channel == Channel(true, T.Socket(true, 49), 49) && s.queue != [] && s.queue[0].what == BYTE
  {
  }
}
