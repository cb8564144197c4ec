/** One Host connection's relay and one Browser's coordinator: whatever the relay sends on any data socket may
    reach the Browser, late, again, or never, and what the Browser shows is the Host's history all the same. */
module EndToEndOutput {
  import opened Collections
  import opened DataFrames
  import opened RelayDeliveries
  import opened ReplicaCursors
  import R = Relays
  import C = Coordination
  import P = CoordinatorProofs
  import Q = CoordinatorRuns

  datatype Net = Net(
    relay: R.Relay,
    browser: C.Coordinator,
    sent: set<Frame>,            // every frame the relay ever sent on a data socket
    heard: seq<C.Event>)         // what the coordinator was given, in order

  datatype Event =
    | AtRelay(ofRelay: R.Event)
    | Arrives(frame: Frame)      // one of the frames that were sent
    | AtBrowser(ofBrowser: C.Event)  // everything but data

  function OnSockets(r: R.Relay): set<Frame> {
    set stream, f | stream in r.sockets && f in r.sockets[stream].stream :: f
  }

  predicate Enabled(w: C.World, history: seq<Mutation>, n: Net, e: Event) {
    match e
    case AtRelay(event) => R.Admissible(event, history)
    case Arrives(frame) => frame in n.sent && C.CandidateKnown(n.browser)
    case AtBrowser(event) => !event.Data? && C.Enabled(w, n.browser, event) && C.CandidateKnown(n.browser)
  }

  /** The coordinator takes a frame that arrives as it is: nothing tells it whether the frame is genuine. */
  function Step(w: C.World, history: seq<Mutation>, n: Net, e: Event): Net {
    if !Enabled(w, history, n, e) then n
    else
      match e
      case AtRelay(event) =>
        var relay := R.Step(n.relay, event);
        n.(relay := relay, sent := n.sent + OnSockets(relay))
      case Arrives(frame) =>
        n.(browser := if P.Open(n.browser) then C.Accept(w, n.browser, frame) else n.browser,
           heard := n.heard + [C.Data(frame)])
      case AtBrowser(event) => Hear(w, n, event)
  }

  function Hear(w: C.World, n: Net, e: C.Event): Net
    requires C.Enabled(w, n.browser, e) && C.CandidateKnown(n.browser)
  {
    n.(browser := C.Step(w, n.browser, e), heard := n.heard + [e])
  }

  function Run(w: C.World, history: seq<Mutation>, n: Net, events: seq<Event>): Net
    decreases |events|
  {
    if events == [] then n else Step(w, history, Run(w, history, n, events[..|events| - 1]), events[|events| - 1])
  }

  /** The relay's connection begins, with the Host's session as the one whose history the Browser may see. */
  ghost predicate Begins(w: C.World, history: seq<Mutation>, n: Net) {
    && R.Begins(n.relay, history) && P.Begins(w, n.browser) && n.sent == {} && n.heard == []
    && w.canonical(n.relay.sessionEpoch) == history
  }

  // ---- Frames keep their session ----

  ghost predicate OfSession(r: R.Relay) {
    forall stream :: stream in r.sockets ==>
      forall f :: f in r.sockets[stream].stream ==> f.sessionEpoch == r.sessionEpoch
  }

  lemma DeliverOfSession(s: R.Socket, f: Frame, generation: int, stream: int, throws: bool, epoch: int)
    requires (forall g :: g in s.stream ==> g.sessionEpoch == epoch) && f.sessionEpoch == epoch
    ensures forall g :: g in R.Deliver(s, f, generation, stream, throws).stream ==> g.sessionEpoch == epoch
  {
  }

  lemma CanonicalOfSession(r: R.Relay, f: Frame, throws: set<int>)
    requires OfSession(r) && f.sessionEpoch == r.sessionEpoch
    ensures OfSession(R.Canonical(r, f, throws)) && R.Canonical(r, f, throws).sessionEpoch == r.sessionEpoch
  {
    var n := R.Canonical(r, f, throws);
    forall stream | stream in n.sockets
      ensures forall g :: g in n.sockets[stream].stream ==> g.sessionEpoch == r.sessionEpoch
    {
      if stream in r.generations {
        DeliverOfSession(r.sockets[stream], f, r.generations[stream], stream, stream in throws, r.sessionEpoch);
      }
      hide R.Deliver;
    }
  }

  lemma DirectedOfSession(r: R.Relay, f: Frame, throws: set<int>)
    requires OfSession(r) && f.sessionEpoch == r.sessionEpoch
    ensures OfSession(R.Directed(r, f, throws)) && R.Directed(r, f, throws).sessionEpoch == r.sessionEpoch
  {
    if f.streamId in r.sockets {
      DeliverOfSession(r.sockets[f.streamId], f, f.deliveryGeneration, f.streamId, f.streamId in throws,
                       r.sessionEpoch);
    }
    hide R.Deliver, R.WithinPin;
  }

  lemma EachOfSession(s: R.Socket, frames: seq<Frame>, generation: int, stream: int, cut: Option<nat>, epoch: int)
    requires frames != [] && (forall f :: f in s.stream ==> f.sessionEpoch == epoch)
    requires forall f :: f in frames ==> f.sessionEpoch == epoch
    ensures forall g :: g in R.DeliverEach(s, frames, generation, stream, cut).stream ==> g.sessionEpoch == epoch
  {
    hide AdvanceEach;
    forall part: seq<Frame>, g | (forall f :: f in part ==> f in frames)
      && g in R.RewrittenEach(part, generation, stream)
      ensures g.sessionEpoch == epoch
    {
      var i :| 0 <= i < |part| && R.RewrittenEach(part, generation, stream)[i] == g;
      assert part[i] in frames;
    }
    if cut.Some? && cut.value < |frames| { assert forall f :: f in frames[..cut.value] ==> f in frames; }
  }

  lemma {:induction false} CommittedOfSession(r: R.Relay, head: Mark, frames: seq<Frame>)
    requires R.CommittedEach(r, head, frames).Some?
    ensures forall f :: f in frames ==> f.sessionEpoch == r.sessionEpoch
    decreases |frames|
  {
    hide R.Committed;
    if frames != [] {
      CommittedOfSession(r, R.Committed(head, frames[0]).value, frames[1..]);
      assert forall f :: f in frames ==> f == frames[0] || f in frames[1..];
    }
  }

  lemma BatchOfSession(r: R.Relay, frames: seq<Frame>, cuts: map<int, nat>)
    requires OfSession(r)
    ensures OfSession(R.Batch(r, frames, cuts)) && R.Batch(r, frames, cuts).sessionEpoch == r.sessionEpoch
  {
    hide R.CommittedEach, R.DeliverEach, R.HasPinnedDelivery;
    var n := R.Batch(r, frames, cuts);
    if !r.failed && R.TakenAsBatch(r, frames) && R.CommittedEach(r, r.head, frames).Some? {
      CommittedOfSession(r, r.head, frames);
      forall stream | stream in n.sockets
        ensures forall g :: g in n.sockets[stream].stream ==> g.sessionEpoch == r.sessionEpoch
      {
        if stream in r.generations {
          EachOfSession(r.sockets[stream], frames, r.generations[stream], stream, R.CutOf(cuts, stream),
                        r.sessionEpoch);
        }
      }
    }
  }

  lemma BarrierOfSession(r: R.Relay, f: Frame, around: R.Surroundings)
    requires OfSession(r)
    ensures OfSession(R.Barrier(r, f, around)) && R.Barrier(r, f, around).sessionEpoch == r.sessionEpoch
  {
  }

  lemma StepOfSession(r: R.Relay, e: R.Event)
    requires OfSession(r)
    ensures OfSession(R.Step(r, e)) && R.Step(r, e).sessionEpoch == r.sessionEpoch
  {
    hide R.Canonical, R.Directed, R.Barrier, R.Batch;
    match e
    case HostFrame(f, around, throws) =>
      if f.sessionEpoch == r.sessionEpoch {
        CanonicalOfSession(r, f, throws);
        DirectedOfSession(r, f, throws);
        BarrierOfSession(r, f, around);
      }
    case HostBatch(frames, cuts) => BatchOfSession(r, frames, cuts);
    case _ =>
  }

  // ---- Invariant ----

  ghost predicate AllGenuine(w: C.World, sent: set<Frame>) { forall f :: f in sent ==> C.Genuine(w, f) }

  ghost predicate Inv(w: C.World, history: seq<Mutation>, c0: C.Coordinator, n: Net) {
    && R.Inv(n.relay, history) && OfSession(n.relay) && w.canonical(n.relay.sessionEpoch) == history
    && AllGenuine(w, n.sent) && n.browser == P.Run(w, c0, n.heard) && P.Inv(w, n.browser)
  }

  lemma SocketsGenuine(w: C.World, history: seq<Mutation>, r: R.Relay)
    requires R.Inv(r, history) && OfSession(r) && w.canonical(r.sessionEpoch) == history
    ensures AllGenuine(w, OnSockets(r))
  {
    forall stream, f | stream in r.sockets && f in r.sockets[stream].stream ensures C.Genuine(w, f) {
      assert R.Served(r.sockets[stream], stream, r.head, history);
      assert R.Addressed(r.sockets[stream].stream, r.sockets[stream].generation, stream, history);
    }
  }

  lemma HearKeeps(w: C.World, history: seq<Mutation>, c0: C.Coordinator, n: Net, e: C.Event)
    requires Inv(w, history, c0, n) && C.Enabled(w, n.browser, e) && C.CandidateKnown(n.browser)
    ensures Inv(w, history, c0, Hear(w, n, e))
  {
    hide R.Inv, OfSession, AllGenuine, P.Inv, C.Step, C.Enabled;
    P.StepKeeps(w, n.browser, e);
    assert (n.heard + [e])[..|n.heard|] == n.heard;
  }

  lemma ArrivesIsHeard(w: C.World, n: Net, frame: Frame)
    requires AllGenuine(w, n.sent) && frame in n.sent && C.CandidateKnown(n.browser)
    ensures C.Enabled(w, n.browser, C.Data(frame))
    ensures C.Step(w, n.browser, C.Data(frame))
            == if P.Open(n.browser) then C.Accept(w, n.browser, frame) else n.browser
  {
    hide C.Accept, C.Genuine;
  }

  lemma StepKeeps(w: C.World, history: seq<Mutation>, c0: C.Coordinator, n: Net, e: Event)
    requires Inv(w, history, c0, n)
    ensures Inv(w, history, c0, Step(w, history, n, e))
  {
    hide R.Inv, OfSession, P.Inv, C.Step, R.Step, R.Admissible, P.Run;
    if Enabled(w, history, n, e) {
      match e
      case AtRelay(event) =>
        R.StepKeeps(n.relay, event, history);
        StepOfSession(n.relay, event);
        SocketsGenuine(w, history, R.Step(n.relay, event));
      case Arrives(frame) =>
        ArrivesIsHeard(w, n, frame);
        HearKeeps(w, history, c0, n, C.Data(frame));
      case AtBrowser(event) => HearKeeps(w, history, c0, n, event);
    }
  }

  lemma BeginsInv(w: C.World, history: seq<Mutation>, n: Net)
    requires Begins(w, history, n)
    ensures Inv(w, history, n.browser, n)
  {
    P.BeginsInv(w, n.browser);
  }

  lemma {:induction false} RunKeeps(w: C.World, history: seq<Mutation>, n: Net, events: seq<Event>)
    requires Begins(w, history, n)
    ensures Inv(w, history, n.browser, Run(w, history, n, events))
    decreases |events|
  {
    hide Inv, Step;
    if events == [] {
      BeginsInv(w, history, n);
    } else {
      hide Begins;
      RunKeeps(w, history, n, events[..|events| - 1]);
      StepKeeps(w, history, n.browser, Run(w, history, n, events[..|events| - 1]), events[|events| - 1]);
    }
  }

  /** End to end: whatever the relay sent to any of its Browsers, in whatever order, however often and however
      late it arrives, mixed with warm replays, restores, time-outs and failures, the adopted replica shows the
      Host's history up to its cursor; always, unless a write to it took effect and threw a protocol error. */
  lemma BrowserShowsHostHistory(w: C.World, history: seq<Mutation>, n: Net, events: seq<Event>)
    requires Begins(w, history, n)
    ensures var c := Run(w, history, n, events).browser;
            && (Q.ShowsHistory(w, c) <==> !c.stale)
            && (Q.Calm(w) ==> Q.ShowsHistory(w, c))
            && (Q.Calm(w) && c.activeCursor.Some? && c.activeCursor.value.sessionEpoch == n.relay.sessionEpoch ==>
                  c.live.Some? && c.live.value in c.sinks && 0 <= c.activeCursor.value.lastEventSeq <= |history|
                  && c.sinks[c.live.value].applied == history[..c.activeCursor.value.lastEventSeq])
  {
    RunKeeps(w, history, n, events);
    var m := Run(w, history, n, events);
    hide Run, R.Inv, OfSession, P.Inv, P.Run, P.Begins, Q.Calm;
    Q.AdoptedStateIsCanonical(w, n.browser, m.heard);
  }
}
