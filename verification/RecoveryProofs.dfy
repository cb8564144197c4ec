/** Every step of a recovery keeps the order in which the relay sees the Host's frames. */
module RecoveryProofs {
  import opened Collections
  import opened RelayDeliveries
  import opened Recovery

  // ---- The history grows at its end ----

  lemma {:induction false} AtStable(history: seq<Mutation>, what: Mutation, n: nat)
    requires n <= |history|
    ensures At(history + [what], n) == At(history, n)
    ensures n < |history| ==> FrameAt(history + [what], n) == FrameAt(history, n)
  {
    if n > 0 { AtStable(history, what, n - 1); }
  }

  lemma {:induction false} AtEvent(history: seq<Mutation>, n: nat)
    requires n <= |history|
    ensures At(history, n).event == n
  {
    if n > 0 { AtEvent(history, n - 1); }
  }

  lemma {:induction false} AtGrows(history: seq<Mutation>, m: nat, n: nat)
    requires m <= n <= |history|
    ensures AtMost(At(history, m), At(history, n))
    decreases n
  {
    if m < n { AtGrows(history, m, n - 1); }
    AtEvent(history, m);
    AtEvent(history, n);
    if m < n { AtEvent(history, n - 1); }
  }

  lemma ContinuousPublish(history: seq<Mutation>, queue: seq<Canonical>, lastSent: Mark, lastQueued: Mark,
                          what: Mutation)
    requires Continuous(history, queue, lastSent, lastQueued)
    ensures var f := FrameAt(history + [what], |history|);
            && f.event == lastQueued.event + 1 && f.pty == lastQueued.pty
            && Continuous(history + [what], queue + [f], lastSent, CursorAfter(f))
  {
    var next := history + [what];
    AtEvent(history, |history|);
    AtStable(history, what, |history|);
    AtStable(history, what, lastSent.event);
    assert At(next, |next|) == CursorAfter(FrameAt(next, |history|));
    forall i | 0 <= i < |queue| ensures queue[i] == FrameAt(next, lastSent.event + i) {
      AtStable(history, what, lastSent.event + i);
    }
  }

  lemma ContinuousSend(history: seq<Mutation>, queue: seq<Canonical>, lastSent: Mark, lastQueued: Mark)
    requires Continuous(history, queue, lastSent, lastQueued) && queue != []
    ensures queue[0].event == lastSent.event + 1 && queue[0].pty == lastSent.pty
    ensures Continuous(history, queue[1..], CursorAfter(queue[0]), lastQueued)
    ensures |queue| == 1 ==> lastQueued == CursorAfter(queue[0])
  {
    var n := lastSent.event;
    AtEvent(history, n);
    AtEvent(history, n + 1);
    assert queue[0] == FrameAt(history, n + 0) && At(history, n + 1) == CursorAfter(queue[0]);
    forall i | 0 <= i < |queue[1..]| ensures queue[1..][i] == FrameAt(history, n + 1 + i) {
      assert queue[1..][i] == queue[i + 1];
    }
  }

  lemma RemainingStable(history: seq<Mutation>, what: Mutation, at: Mark, rest: seq<Canonical>, commit: Mark)
    requires Remaining(history, at, rest, commit)
    ensures Remaining(history + [what], at, rest, commit)
  {
    AtStable(history, what, at.event);
    AtStable(history, what, commit.event);
    forall i | 0 <= i < |rest| ensures rest[i] == FrameAt(history + [what], at.event + i) {
      AtStable(history, what, at.event + i);
    }
  }

  /** The next frame of a directed replay follows, and stays within the commit. */
  lemma RemainingNext(history: seq<Mutation>, at: Mark, rest: seq<Canonical>, commit: Mark)
    requires Remaining(history, at, rest, commit) && rest != []
    ensures rest[0].event == at.event + 1 && rest[0].pty == at.pty && AtMost(CursorAfter(rest[0]), commit)
    ensures Remaining(history, CursorAfter(rest[0]), rest[1..], commit)
  {
    var n := at.event;
    AtEvent(history, n);
    AtEvent(history, n + 1);
    AtGrows(history, n + 1, commit.event);
    assert rest[0] == FrameAt(history, n + 0) && At(history, n + 1) == CursorAfter(rest[0]);
    forall i | 0 <= i < |rest[1..]| ensures rest[1..][i] == FrameAt(history, n + 1 + i) {
      assert rest[1..][i] == rest[i + 1];
    }
  }

  // ---- What the relay makes of a run of items ----

  lemma {:induction false} FlowAppend(generations: map<int, int>, e: End, items: seq<Item>, item: Item)
    requires Flow(generations, e, items).Some?
    ensures Flow(generations, e, items + [item]) == Take(generations, Flow(generations, e, items).value, item)
    decreases |items|
  {
    hide Take;
    if items == [] {
      assert items + [item] == [item];
      assert Flow(generations, e, [item]) == Take(generations, e, item) by {
        if Take(generations, e, item).Some? {
          assert Flow(generations, Take(generations, e, item).value, []) == Take(generations, e, item);
        }
      }
    } else {
      assert (items + [item])[1..] == items[1..] + [item];
      FlowAppend(generations, Take(generations, e, items[0]).value, items[1..], item);
    }
  }

  /** Whatever is pinned at the end is pinned for a current client. */
  lemma {:induction false} FlowCurrent(generations: map<int, int>, e: End, items: seq<Item>)
    requires Flow(generations, e, items).Some? && (e.held.Some? ==> Current(generations, e.held.value.request))
    ensures var r := Flow(generations, e, items).value; r.held.Some? ==> Current(generations, r.held.value.request)
    decreases |items|
  {
    if items != [] {
      var next := Take(generations, e, items[0]).value;
      assert next.held.Some? ==> Current(generations, next.held.value.request);
      hide Take;
      FlowCurrent(generations, next, items[1..]);
    }
  }

  function Bumped(generations: map<int, int>, stream: int): map<int, int>
    requires stream in generations
  {
    generations[stream := generations[stream] + 1]
  }

  lemma TakeMoves(generations: map<int, int>, e: End, item: Item, stream: int)
    requires stream in generations && Take(generations, e, item).Some?
             && (item.Marker? ==> Issued(generations, item.request))
    requires e.held.Some? ==> Current(generations, e.held.value.request)
    ensures Take(Bumped(generations, stream), Cleared(e, stream), item)
            == Some(Cleared(Take(generations, e, item).value, stream))
  {
  }

  /** A client that moves on takes its pin with it, and its barriers are nobody's any more. */
  lemma {:induction false} FlowMoves(generations: map<int, int>, e: End, items: seq<Item>, stream: int)
    requires stream in generations && Flow(generations, e, items).Some? && AllIssued(generations, items, [])
    requires e.held.Some? ==> Current(generations, e.held.value.request)
    ensures Flow(Bumped(generations, stream), Cleared(e, stream), items)
            == Some(Cleared(Flow(generations, e, items).value, stream))
    decreases |items|
  {
    if items != [] {
      TakeMoves(generations, e, items[0], stream);
      assert forall i :: 0 <= i < |items[1..]| ==> items[1..][i] == items[i + 1];
      var next := Take(generations, e, items[0]).value;
      assert next.held.Some? ==> Current(generations, next.held.value.request);
      hide Take, Cleared;
      FlowMoves(generations, next, items[1..], stream);
    }
  }

  /** A client that is gone: the pin is lost wherever it was. */
  lemma {:induction false} FlowGoes(generations: map<int, int>, e: End, items: seq<Item>)
    requires Flow(generations, e, items).Some?
    ensures var r := Flow(generations, e, items).value; var g := Flow(generations, e.(held := None), items);
            g.Some? && g.value.head == r.head && (g.value.held == r.held || g.value.held.None?)
    decreases |items|
  {
    if items != [] && e.held.Some? {
      var next := Take(generations, e, items[0]).value;
      assert Take(generations, e.(held := None), items[0]) == Some(next.(held := None));
      hide Take;
      FlowGoes(generations, next, items[1..]);
    }
  }

  // ---- Items join and leave what is in transit ----

  /** An item that is taken is the last in transit, wherever it waits. */
  lemma GiveJoins(s: State, item: Item)
    ensures InTransit(Give(s, item)) == InTransit(s) + [item]
    ensures Give(s, item) == s.(outbox := Give(s, item).outbox, wire := Give(s, item).wire,
                                channel := Give(s, item).channel)
  {
  }

  lemma LastOnlyAppend(generations: map<int, int>, items: seq<Item>, item: Item)
    requires NoneLive(generations, items)
    ensures LastOnly(generations, items + [item])
    ensures !IsLive(generations, item) ==> NoneLive(generations, items + [item])
  {
  }

  /** One more item leaves the Host. */
  lemma WelcomeAppend(generations: map<int, int>, relay: End, items: seq<Item>, item: Item)
    requires Welcome(generations, relay, items) && NoneLive(generations, items)
    requires Take(generations, Flow(generations, relay, items).value, item).Some?
    ensures Welcome(generations, relay, items + [item])
    ensures Flow(generations, relay, items + [item]) == Take(generations, Flow(generations, relay, items).value, item)
  {
    hide Take;
    FlowAppend(generations, relay, items, item);
    LastOnlyAppend(generations, items, item);
  }

  // ---- Nobody waits for an answer ----

  /** No barrier that may be granted is on its way, and no answer at or beyond the bound. */
  ghost predicate Quiet(generations: map<int, int>, items: seq<Item>, answers: seq<Answer>, bound: int) {
    && NoneLive(generations, items)
    && forall i :: 0 <= i < |answers| && Current(generations, answers[i].request) ==> answers[i].commit.event < bound
  }

  predicate Unawaited(generations: map<int, int>, active: Option<Active>) {
    active.None? || !Waits(active.value) || !Current(generations, active.value.request)
  }

  lemma AnsweredQuiet(size: nat, generations: map<int, int>, items: seq<Item>, answers: seq<Answer>,
                      active: Option<Active>, held: Option<Held>)
    requires Answered(generations, items, answers, active, held, size) && Unawaited(generations, active)
    ensures Quiet(generations, items, answers, Bound(active, size))
  {
  }

  lemma QuietWidens(generations: map<int, int>, items: seq<Item>, answers: seq<Answer>, bound: int, bound': int)
    requires Quiet(generations, items, answers, bound) && bound <= bound'
    ensures Quiet(generations, items, answers, bound') && NoneLive(generations, items)
  {
  }

  lemma QuietAnswered(size: nat, bound: int, generations: map<int, int>, items: seq<Item>, answers: seq<Answer>,
                      active: Option<Active>, held: Option<Held>)
    requires Quiet(generations, items, answers, bound) && bound <= Bound(active, size)
    requires active.Some? && active.value.place.MarkerQueued? && active.value.place.early.Some? ==>
      !Current(generations, active.value.request)
    ensures Answered(generations, items, answers, active, held, size)
  {
  }

  lemma AnsweredGrows(size: nat, generations: map<int, int>, items: seq<Item>, answers: seq<Answer>,
                      active: Option<Active>, held: Option<Held>)
    requires Answered(generations, items, answers, active, held, size)
    ensures Answered(generations, items, answers, active, held, size + 1)
  {
  }

  lemma BoundWithin(history: seq<Mutation>, active: Option<Active>, held: Option<Held>, lastSent: Mark, idle: bool)
    requires Ordered(history, active, held, lastSent, idle)
    ensures Bound(active, |history|) <= |history|
  {
  }

  /** What the invariant says when nobody waits. */
  lemma IdleQuiet(s: State)
    requires Inv(s) && !s.failed && Unawaited(s.generations, s.active)
    ensures Quiet(s.generations, InTransit(s), s.answers, Bound(s.active, |s.history|))
    ensures Quiet(s.generations, InTransit(s), s.answers, |s.history|) && NoneLive(s.generations, InTransit(s))
    ensures Bound(s.active, |s.history|) <= |s.history|
  {
    hide Flow, Continuous, Ordered, Answered, LastOnly, AllIssued, Quiet, Bound;
    var held := Arrives(s).value.held;
    AnsweredQuiet(|s.history|, s.generations, InTransit(s), s.answers, s.active, held);
    BoundWithin(s.history, s.active, held, s.lastSent, s.paused && !s.pumping);
    QuietWidens(s.generations, InTransit(s), s.answers, Bound(s.active, |s.history|), |s.history|);
  }

  /** A recovery that is over or only begins asks for nothing but that no pin is left. */
  lemma OrderedFree(history: seq<Mutation>, a: Active, held: Option<Held>, lastSent: Mark, idle: bool)
    requires held.None? && (a.place.Leaving? || a.place.Pausing?)
    ensures Ordered(history, Some(a), held, lastSent, idle)
  {
  }

  /** Unless it waits or replays, a recovery leaves no pin. */
  lemma OrderedUnpinned(history: seq<Mutation>, active: Option<Active>, held: Option<Held>, lastSent: Mark, idle: bool)
    requires Ordered(history, active, held, lastSent, idle)
    ensures active.None? || !(Waits(active.value) || active.value.place.Replaying?) || !idle ==> held.None?
    ensures active.Some? && (Waits(active.value) || active.value.place.Replaying?) ==>
              idle && lastSent == active.value.commit
    ensures held.Some? ==> active.Some? && held.value.request == active.value.request
  {
  }

  // ---- Publishing ----

  lemma OrderedStable(history: seq<Mutation>, what: Mutation, active: Option<Active>, held: Option<Held>,
                      lastSent: Mark, idle: bool)
    requires Ordered(history, active, held, lastSent, idle)
    ensures Ordered(history + [what], active, held, lastSent, idle)
  {
    if active.Some? && !active.value.place.Pausing? && !active.value.place.Leaving? {
      RemainingStable(history, what, active.value.at, active.value.rest, active.value.commit);
    }
    hide Remaining;
  }

  /** The recovery as pressure leaves it. */
  function Pressed(a: Active): Active {
    if a.place.MarkerQueued? then a.(aborted := true, place := Leaving(false)) else a.(aborted := true)
  }

  lemma OrderedPressed(history: seq<Mutation>, a: Active, held: Option<Held>, lastSent: Mark, idle: bool, idle': bool)
    requires Ordered(history, Some(a), held, lastSent, idle) && PreMarker(a) && (a.place.MarkerQueued? ==> held.None?)
    ensures Ordered(history, Some(Pressed(a)), held, lastSent, idle')
  {
    hide Remaining;
  }

  /** Pressure leaves the recovery without a pin, if none was ahead. */
  lemma NoPinAhead(s: State)
    requires Inv(s) && !s.failed && s.active.Some? && Waits(s.active.value) && !PinAhead(s, s.active.value)
    ensures Arrives(s).value.held.None? && NoneLive(s.generations, InTransit(s))
  {
    hide Continuous, Ordered, AllIssued, Bound;
    var a := s.active.value;
    PinIsCurrent(s);
    if Current(s.generations, a.request) {
      if InTransit(s) != [] { TrailingMarker(InTransit(s), a); }
    }
  }

  lemma TrailingMarker(items: seq<Item>, a: Active)
    requires Trailing(items, Some(a)) && Waits(a) && items != []
    ensures MarkerIn(items, a.request)
  {
    assert items[|items| - 1].Marker?;
  }

  /** The pressure's quiet: what was waited for is now too old to be mistaken. */
  lemma AnsweredPressed(size: nat, generations: map<int, int>, items: seq<Item>, answers: seq<Answer>,
                        active: Option<Active>, held: Option<Held>)
    requires Answered(generations, items, answers, active, held, size) && NoneLive(generations, items)
    requires active.Some? ==> Waits(active.value) ==> active.value.commit.event <= size
    requires Bound(active, size) <= size
    ensures Quiet(generations, items, answers, size + 1)
  {
  }

  lemma PressedKeeps(s: State, n: State, what: Mutation)
    requires Inv(s) && !s.failed && s.active.Some? && PreMarker(s.active.value)
    requires s.active.value.place.MarkerQueued? ==> !PinAhead(s, s.active.value)
    requires n.active == Some(Pressed(s.active.value)) && n.history == s.history + [what]
    ensures Ordered(n.history, n.active, Arrives(s).value.held, s.lastSent, n.paused && !n.pumping)
    ensures Answered(s.generations, InTransit(s), s.answers, n.active, Arrives(s).value.held, |n.history|)
    ensures Trailing(InTransit(s), n.active)
  {
    hide Flow, Continuous, Ordered, Answered, LastOnly, AllIssued, Quiet, Bound, NoneLive;
    var a := s.active.value;
    var held := Arrives(s).value.held;
    OrderedStable(s.history, what, s.active, held, s.lastSent, s.paused && !s.pumping);
    if a.place.MarkerQueued? {
      NoPinAhead(s);
      PressedBound(a, |s.history|);
      WaitedWithin(s.history, a, held, s.lastSent, s.paused && !s.pumping);
      AnsweredPressed(|s.history|, s.generations, InTransit(s), s.answers, s.active, held);
      QuietAnswered(|n.history|, |n.history|, s.generations, InTransit(s), s.answers, n.active, held);
    } else {
      IdleQuiet(s);
      PressedBound(a, |s.history|);
      QuietAnswered(|n.history|, Bound(s.active, |s.history|), s.generations, InTransit(s), s.answers, n.active, held);
    }
    OrderedPressed(n.history, a, held, s.lastSent, s.paused && !s.pumping, n.paused && !n.pumping);
  }

  lemma PressedBound(a: Active, size: nat)
    ensures !a.place.MarkerQueued? ==> Bound(Some(a), size) <= Bound(Some(Pressed(a)), size + 1)
    ensures a.place.MarkerQueued? ==> Bound(Some(Pressed(a)), size + 1) == size + 1
  {
  }

  lemma WaitedWithin(history: seq<Mutation>, a: Active, held: Option<Held>, lastSent: Mark, idle: bool)
    requires Ordered(history, Some(a), held, lastSent, idle) && Waits(a)
    ensures Bound(Some(a), |history|) == a.commit.event <= |history|
  {
  }

  lemma PublishedKeeps(s: State, n: State, what: Mutation)
    requires Inv(s) && !s.failed && n.history == s.history + [what]
    requires n.active == s.active && (n.paused && !n.pumping) == (s.paused && !s.pumping)
    ensures Ordered(n.history, n.active, Arrives(s).value.held, s.lastSent, n.paused && !n.pumping)
    ensures Answered(s.generations, InTransit(s), s.answers, n.active, Arrives(s).value.held, |n.history|)
    ensures Trailing(InTransit(s), n.active)
  {
    hide Flow, Continuous, Ordered, Answered, LastOnly, AllIssued, Trailing;
    var held := Arrives(s).value.held;
    OrderedStable(s.history, what, s.active, held, s.lastSent, s.paused && !s.pumping);
    AnsweredGrows(|s.history|, s.generations, InTransit(s), s.answers, s.active, held);
  }

  /** What enqueueing makes of a publisher. */
  lemma EnqueueShape(s: State, f: Canonical)
    requires !s.failed
    ensures var n := Enqueue(s, f); n.failed ==> n == FailPair(s)
    ensures var n := Enqueue(s, f);
            !n.failed ==>
              && n == s.(queue := s.queue + [f], queueBytes := n.queueBytes, lastQueued := CursorAfter(f),
                         active := n.active, paused := n.paused, pumping := n.pumping)
              && f.event == s.lastQueued.event + 1
              && if OverLimit(s, f) then
                   && WithinPressure(s, f) && s.active.Some? && PreMarker(s.active.value)
                   && n.active == Some(Pressed(s.active.value))
                 else n.active == s.active && n.paused == s.paused && (n.paused ==> n.pumping == s.pumping)
  {
    hide OverLimit, WithinPressure;
  }

  lemma PublishKeeps(s: State, what: Mutation)
    requires Inv(s) && !Endangers(s, Publish(what))
    ensures Inv(Next(s, Publish(what)))
  {
    hide Flow, Continuous, Ordered, Answered, LastOnly, AllIssued, Trailing, PinAhead, PreMarker, Enqueue, OverLimit,
         WithinPressure;
    var f := FrameAt(s.history + [what], |s.history|);
    var h := s.(history := s.history + [what]);
    var n := PublishMutation(s, what);
    if s.failed {
      assert n == h by { FailedEnqueue(h, f); }
      assert InTransit(n) == InTransit(s);
    } else {
      EnqueueShape(h, f);
      SameLimits(s, h, f);
      assert InTransit(n) == InTransit(s) && Arrives(n) == Arrives(s);
      if n.failed {
        FailedKeeps(n);
      } else {
        ContinuousPublish(s.history, s.queue, s.lastSent, s.lastQueued, what);
        if OverLimit(s, f) { PressedKeeps(s, n, what); } else { PublishedKeeps(s, n, what); }
      }
    }
  }

  lemma FailedEnqueue(s: State, f: Canonical)
    requires s.failed
    ensures Enqueue(s, f) == s
  {
  }

  lemma SameLimits(s: State, n: State, f: Canonical)
    requires n.queue == s.queue && n.queueBytes == s.queueBytes
    ensures OverLimit(s, f) == OverLimit(n, f) && WithinPressure(s, f) == WithinPressure(n, f)
  {
  }

  // ---- Sending what is queued ----

  /** A step that fails the pair leaves in transit only what the relay will take. */
  lemma FailedKeeps(n: State)
    requires n.failed && !n.refused && n.active.None?
    requires Welcome(n.generations, n.relay, InTransit(n)) && AllIssued(n.generations, InTransit(n), n.answers)
    ensures Inv(n)
  {
  }

  lemma AllIssuedAppend(generations: map<int, int>, items: seq<Item>, answers: seq<Answer>, item: Item)
    requires AllIssued(generations, items, answers) && (item.Marker? ==> Issued(generations, item.request))
    ensures AllIssued(generations, items + [item], answers)
  {
  }

  lemma QuietAppend(bound: int, generations: map<int, int>, items: seq<Item>, answers: seq<Answer>, item: Item)
    requires Quiet(generations, items, answers, bound) && !IsLive(generations, item)
    ensures Quiet(generations, items + [item], answers, bound)
  {
  }

  /** The head of the queue is the frame the relay takes next, when nothing is pinned. */
  lemma HeadWelcome(s: State)
    requires Inv(s) && !s.failed && s.queue != []
    requires Unawaited(s.generations, s.active) && Arrives(s).value.held.None?
    ensures var items := InTransit(s) + [Live(s.queue[0])];
            && Welcome(s.generations, s.relay, items) && AllIssued(s.generations, items, s.answers)
            && Flow(s.generations, s.relay, items) == Some(End(CursorAfter(s.queue[0]), None))
            && Quiet(s.generations, items, s.answers, Bound(s.active, |s.history|))
            && Bound(s.active, |s.history|) <= |s.history|
            && Continuous(s.history, s.queue[1..], CursorAfter(s.queue[0]), s.lastQueued)
  {
    hide Flow, Continuous, Ordered, Answered, AllIssued;
    var e := Arrives(s).value;
    ContinuousSend(s.history, s.queue, s.lastSent, s.lastQueued);
    IdleQuiet(s);
    WelcomeAppend(s.generations, s.relay, InTransit(s), Live(s.queue[0]));
    AllIssuedAppend(s.generations, InTransit(s), s.answers, Live(s.queue[0]));
    QuietAppend(Bound(s.active, |s.history|), s.generations, InTransit(s), s.answers, Live(s.queue[0]));
  }

  lemma OrderedIrrelevant(history: seq<Mutation>, active: Option<Active>, held: Option<Held>, lastSent: Mark,
                          lastSent': Mark)
    requires Ordered(history, active, held, lastSent, false)
    ensures Ordered(history, active, held, lastSent', false)
  {
    hide Remaining;
  }

  lemma PumpKeeps(s: State)
    requires Inv(s)
    ensures Inv(Next(s, Pump))
  {
    hide Flow, Continuous, Ordered, Answered, LastOnly, AllIssued, Quiet, Outcome, Bound, Trailing, Give;
    var n := PumpOne(s);
    if !s.failed && s.pumping {
      var e := Arrives(s).value;
      OrderedUnpinned(s.history, s.active, e.held, s.lastSent, false);
      if s.paused || s.queue == [] {
        assert InTransit(n) == InTransit(s);
        PumpRests(s, n);
      } else if !SendsHead(s) {
        assert InTransit(n) == InTransit(s);
        FailedKeeps(n);
      } else {
        HeadWelcome(s);
        HeadGiven(s);
        OrderedIrrelevant(s.history, s.active, e.held, s.lastSent, n.lastSent);
        QuietAnswered(|n.history|, Bound(s.active, |s.history|), n.generations, InTransit(n), n.answers, n.active,
          None);
        EmptyQueue(n.history, n.queue, n.lastSent, s.lastQueued);
        Unwaited(s);
      }
    }
  }

  /** What sending the head of the queue changes. */
  lemma HeadGiven(s: State)
    requires s.queue != [] && SendsHead(s)
    ensures var n := SendHead(s);
            && InTransit(n) == InTransit(s) + [Live(s.queue[0])]
            && n == s.(queue := s.queue[1..], queueBytes := n.queueBytes, lastSent := CursorAfter(s.queue[0]),
                       outbox := n.outbox, wire := n.wire, channel := n.channel)
  {
    hide Outcome;
    GiveJoins(s.(queue := s.queue[1..], queueBytes := s.queueBytes - BytesOf(s.queue[0])), Live(s.queue[0]));
  }

  /** While a recovery waits, the publisher is idle: a marker stays the last item. */
  lemma Unwaited(s: State)
    requires Inv(s) && !s.failed && !(s.paused && !s.pumping)
    ensures s.active.None? || !Waits(s.active.value)
    ensures forall items: seq<Item> :: Trailing(items, s.active)
  {
    hide Flow, Continuous, Answered, LastOnly, AllIssued;
  }

  lemma EmptyQueue(history: seq<Mutation>, queue: seq<Canonical>, lastSent: Mark, lastQueued: Mark)
    requires Continuous(history, queue, lastSent, lastQueued)
    ensures queue == [] ==> lastQueued == lastSent
  {
  }

  /** An idle publisher gives a recovery no less than a busy one. */
  lemma OrderedIdle(history: seq<Mutation>, active: Option<Active>, held: Option<Held>, lastSent: Mark, idle: bool)
    requires Ordered(history, active, held, lastSent, false)
    ensures Ordered(history, active, held, lastSent, idle)
  {
    hide Remaining;
  }

  lemma PumpRests(s: State, n: State)
    requires Inv(s) && !s.failed && s.pumping && (s.paused || s.queue == []) && n == SchedulePump(s.(pumping := false))
    ensures Inv(n)
  {
    hide Flow, Continuous, Ordered, Answered, LastOnly, AllIssued, Quiet;
    assert InTransit(n) == InTransit(s) && Arrives(n) == Arrives(s);
    OrderedIdle(s.history, s.active, Arrives(s).value.held, s.lastSent, n.paused && !n.pumping);
  }

  // ---- Beginning, pausing, and giving up ----

  lemma BeginKeeps(s: State, request: Request)
    requires Inv(s)
    ensures Inv(Next(s, Begin(request)))
  {
    hide Flow, Continuous, Ordered, Answered, LastOnly, AllIssued, Quiet;
    var n := BeginRecovery(s, request);
    if n != s {
      assert InTransit(n) == InTransit(s) && Arrives(n) == Arrives(s);
      var held := Arrives(s).value.held;
      OrderedUnpinned(s.history, s.active, held, s.lastSent, s.paused && !s.pumping);
      IdleQuiet(s);
      QuietAnswered(|s.history|, |s.history|, s.generations, InTransit(s), s.answers, n.active, held);
      OrderedFree(s.history, n.active.value, held, s.lastSent, n.paused && !n.pumping);
    }
  }

  /** Leaving a recovery that leaves no pin and is not waited for, whatever the publisher does then. */
  lemma LeavingKeeps(s: State, n: State, a: Active)
    requires Inv(s) && !s.failed && Arrives(s).value.held.None?
    requires Quiet(s.generations, InTransit(s), s.answers, |s.history|)
    requires a.place.Leaving? && Issued(s.generations, a.request)
    requires n == Resume(s.(active := Some(a)))
    ensures Inv(n)
  {
    hide Flow, Continuous, Ordered, Answered, LastOnly, AllIssued, Quiet;
    assert InTransit(n) == InTransit(s) && Arrives(n) == Arrives(s);
    QuietAnswered(|s.history|, |s.history|, s.generations, InTransit(s), s.answers, n.active, None);
    OrderedFree(s.history, a, None, s.lastSent, n.paused && !n.pumping);
  }

  lemma RemainingAll(history: seq<Mutation>, base: Mark)
    requires Recorded(history, base)
    ensures Remaining(history, base, Frames(history, base.event, |history|), At(history, |history|))
    ensures At(history, |history|).event == |history|
  {
    AtEvent(history, |history|);
  }

  lemma OrderedFlushing(history: seq<Mutation>, a: Active, lastSent: Mark, idle: bool)
    requires a.place.Flushing? && Remaining(history, a.at, a.rest, a.commit)
    requires !a.aborted ==> idle && lastSent.event <= a.commit.event
    ensures Ordered(history, Some(a), None, lastSent, idle)
  {
  }

  lemma PausedKeeps(s: State, base: Mark, available: bool)
    requires Inv(s)
    ensures Inv(Next(s, Paused(base, available)))
  {
    hide Flow, Ordered, Answered, LastOnly, AllIssued, Quiet, Remaining, At, Frames;
    var n := PauseDone(s, base, available);
    if n != s {
      var a := s.active.value;
      var held := Arrives(s).value.held;
      OrderedUnpinned(s.history, s.active, held, s.lastSent, s.paused && !s.pumping);
      IdleQuiet(s);
      if !available || !Recorded(s.history, base) {
        LeavingKeeps(s, n, a.(place := Leaving(false)));
      } else {
        assert InTransit(n) == InTransit(s) && Arrives(n) == Arrives(s);
        RemainingAll(s.history, base);
        OrderedFlushing(s.history, n.active.value, s.lastSent, n.paused && !n.pumping);
        QuietAnswered(|s.history|, |s.history|, s.generations, InTransit(s), s.answers, n.active, held);
      }
    }
  }

  // ---- Flushing through the commit ----

  /** The queue holds nothing up to the commit: then the commit was sent. */
  lemma FlushedThrough(history: seq<Mutation>, queue: seq<Canonical>, lastSent: Mark, lastQueued: Mark, at: Mark,
                       rest: seq<Canonical>, commit: Mark)
    requires Continuous(history, queue, lastSent, lastQueued) && Remaining(history, at, rest, commit)
    requires lastSent.event <= commit.event && (queue == [] || queue[0].event > commit.event)
    ensures lastSent == commit
  {
    if queue != [] { ContinuousSend(history, queue, lastSent, lastQueued); }
  }

  /** A flush that was not aborted and has nothing more to send has sent all that its commit covers. */
  lemma FlushReachesCommit(s: State)
    requires Inv(s) && Flushes(s) && !s.active.value.aborted && !Covers(s)
    ensures s.lastSent == s.active.value.commit
  {
    hide Flow, Continuous, Answered, LastOnly, AllIssued, Remaining;
    var a := s.active.value;
    FlushedThrough(s.history, s.queue, s.lastSent, s.lastQueued, a.at, a.rest, a.commit);
  }

  lemma OrderedFlushed(history: seq<Mutation>, a: Active, held: Option<Held>, lastSent: Mark, lastSent': Mark,
      idle: bool)
    requires Ordered(history, Some(a), held, lastSent, idle) && a.place.Flushing?
    requires !a.aborted ==> lastSent'.event <= a.commit.event
    ensures Ordered(history, Some(a), held, lastSent', idle)
  {
    hide Remaining;
  }

  lemma FlushSendKeeps(s: State)
    requires Inv(s) && Covers(s) && (SendsHead(s) || !s.active.value.aborted)
    ensures Inv(FlushHead(s))
  {
    hide Flow, Continuous, Ordered, Answered, LastOnly, AllIssued, Quiet, Bound, Outcome, Give;
    var n := SendHead(s);
    var a := s.active.value;
    var e := Arrives(s).value;
    OrderedUnpinned(s.history, s.active, e.held, s.lastSent, s.paused && !s.pumping);
    if !SendsHead(s) {
      assert InTransit(Caught(n)) == InTransit(s);
      FailedKeeps(Caught(n));
    } else {
      HeadWelcome(s);
      HeadGiven(s);
      OrderedFlushed(s.history, a, e.held, s.lastSent, n.lastSent, s.paused && !s.pumping);
      QuietAnswered(|n.history|, Bound(s.active, |s.history|), n.generations, InTransit(n), n.answers, n.active, None);
    }
  }

  lemma OrderedMarked(history: seq<Mutation>, a: Active, held: Option<Held>, lastSent: Mark, idle: bool,
                      held': Option<Held>)
    requires Ordered(history, Some(a), held, lastSent, idle) && a.place.Flushing? && !a.aborted && lastSent == a.commit
    requires held'.None? || held' == Some(Held(a.request, a.commit, a.at))
    ensures Ordered(history, Some(a.(place := MarkerQueued(None))), held', lastSent, idle)
  {
    hide Remaining;
  }

  lemma AnsweredMarked(size: nat, generations: map<int, int>, items: seq<Item>, answers: seq<Answer>, a: Active,
                       held: Option<Held>, payload: nat)
    requires Quiet(generations, items, answers, a.commit.event) && a.place == MarkerQueued(None)
    ensures Answered(generations, items + [Marker(a.request, a.commit, a.at, payload)], answers, Some(a), held, size)
  {
  }

  lemma MarkerKeeps(s: State, payload: nat)
    requires Inv(s) && Flushes(s) && !s.active.value.aborted && s.lastSent == s.active.value.commit
    ensures Inv(SendMarker(s, payload))
  {
    hide Flow, Continuous, Ordered, Answered, LastOnly, AllIssued, Quiet, Outcome, Give;
    var n := SendMarker(s, payload);
    var a := s.active.value;
    var e := Arrives(s).value;
    var marker := Marker(a.request, a.commit, a.at, payload);
    if !Sends(s, marker) {
      assert InTransit(n) == InTransit(s);
      FailedKeeps(n);
    } else {
      OrderedUnpinned(s.history, s.active, e.held, s.lastSent, s.paused && !s.pumping);
      IdleQuiet(s);
      WelcomeAppend(s.generations, s.relay, InTransit(s), marker);
      AllIssuedAppend(s.generations, InTransit(s), s.answers, marker);
      GiveJoins(s, marker);
      assert InTransit(n) == InTransit(s) + [marker];
      OrderedMarked(s.history, a, e.held, s.lastSent, s.paused && !s.pumping, Arrives(n).value.held);
      AnsweredMarked(|s.history|, s.generations, InTransit(s), s.answers, n.active.value, Arrives(n).value.held,
        payload);
    }
  }

  lemma FlushKeeps(s: State, payload: nat)
    requires Inv(s) && !Endangers(s, Flush(payload))
    ensures Inv(Next(s, Flush(payload)))
  {
    hide Inv, FlushHead, FlushEnd, Drops;
    if Covers(s) { FlushSendKeeps(s); } else if Flushes(s) { FlushEndKeeps(s, payload); }
  }

  lemma FlushEndKeeps(s: State, payload: nat)
    requires Inv(s) && Flushes(s) && !Covers(s)
    ensures Inv(FlushEnd(s, payload))
  {
    hide Flow, Continuous, Ordered, Answered, LastOnly, AllIssued, Quiet, SendMarker, Trailing, Bound;
    EmptyQueue(s.history, s.queue, s.lastSent, s.lastQueued);
    assert s.queue == [] ==> s.(lastQueued := s.lastSent) == s;
    var a := s.active.value;
    if a.aborted {
      OrderedUnpinned(s.history, s.active, Arrives(s).value.held, s.lastSent, s.paused && !s.pumping);
      IdleQuiet(s);
      LeavingKeeps(s, Caught(s), a.(place := Leaving(false)));
    } else {
      FlushReachesCommit(s);
      MarkerKeeps(s, payload);
    }
  }

  // ---- The directed replay ----

  lemma RemainingDone(history: seq<Mutation>, at: Mark, rest: seq<Canonical>, commit: Mark)
    requires Remaining(history, at, rest, commit) && rest == []
    ensures at == commit
  {
  }

  /** A directed replay that was sent whole has reached its pinned commit. */
  lemma ReplayReachesCommit(s: State)
    requires Inv(s) && !s.failed && s.active.Some? && s.active.value.place.Replaying? && s.active.value.rest == []
    ensures s.active.value.at == s.active.value.commit
  {
    hide Flow, Continuous, Answered, LastOnly, AllIssued, Remaining;
    var a := s.active.value;
    RemainingDone(s.history, a.at, a.rest, a.commit);
  }

  lemma OrderedReplaying(history: seq<Mutation>, a: Active, held: Option<Held>, lastSent: Mark, idle: bool)
    requires Ordered(history, Some(a), held, lastSent, idle) && a.place.Replaying?
    ensures Remaining(history, a.at, a.rest, a.commit) && (held.None? || held == Some(Held(a.request, a.commit, a.at)))
    ensures Ordered(history, Some(a), None, lastSent, idle)
  {
  }

  lemma OrderedReplayed(history: seq<Mutation>, a: Active, n: Active, held: Option<Held>, lastSent: Mark, idle: bool,
                        held': Option<Held>)
    requires Ordered(history, Some(a), held, lastSent, idle) && a.place.Replaying?
    requires n == a.(at := n.at, rest := n.rest) && Remaining(history, n.at, n.rest, n.commit)
    requires held'.None? || held' == Some(Held(n.request, n.commit, n.at))
    ensures Ordered(history, Some(n), held', lastSent, idle)
  {
    hide Remaining;
  }

  /** One more item of a replay joins what is in transit, and the relay will take it. */
  lemma ItemKeeps(s: State, item: Item, n: Active)
    requires Inv(s) && !s.failed && s.active.Some? && s.active.value.place.Replaying? && !item.Marker?
    requires Take(s.generations, Arrives(s).value, item).Some?
    requires Take(s.generations, Arrives(s).value, item).value.head == Arrives(s).value.head
    requires n.place.Replaying? && n.request == s.active.value.request && n.commit == s.active.value.commit
    requires var held := Take(s.generations, Arrives(s).value, item).value.held;
             Ordered(s.history, Some(n), held, s.lastSent, s.paused && !s.pumping)
    ensures Inv(Give(s, item).(active := Some(n)))
    ensures Arrives(Give(s, item).(active := Some(n))) == Take(s.generations, Arrives(s).value, item)
    ensures Quiet(s.generations, InTransit(Give(s, item)), s.answers, |s.history|)
  {
    hide Flow, Take, Continuous, Ordered, Answered, LastOnly, AllIssued, Quiet, Give;
    IdleQuiet(s);
    WelcomeAppend(s.generations, s.relay, InTransit(s), item);
    AllIssuedAppend(s.generations, InTransit(s), s.answers, item);
    QuietAppend(Bound(s.active, |s.history|), s.generations, InTransit(s), s.answers, item);
    GiveJoins(s, item);
    var r := Give(s, item).(active := Some(n));
    assert InTransit(r) == InTransit(s) + [item];
    QuietAnswered(|s.history|, Bound(s.active, |s.history|), r.generations, InTransit(r), r.answers, r.active,
                  Arrives(r).value.held);
    QuietWidens(s.generations, InTransit(r), s.answers, Bound(s.active, |s.history|), |s.history|);
  }

  lemma ReplayFrameKeeps(s: State)
    requires Inv(s) && !s.failed && s.active.Some? && s.active.value.place.Replaying? && s.active.value.rest != []
    ensures Inv(ReplayOne(s))
  {
    hide Flow, Continuous, Ordered, Answered, LastOnly, AllIssued, Quiet, Remaining, Outcome, Give;
    var a := s.active.value;
    var e := Arrives(s).value;
    var n := a.(at := CursorAfter(a.rest[0]), rest := a.rest[1..]);
    OrderedReplaying(s.history, a, e.held, s.lastSent, s.paused && !s.pumping);
    RemainingNext(s.history, a.at, a.rest, a.commit);
    var item := Directed(a.request, a.rest[0]);
    var held := Take(s.generations, e, item).value.held;
    OrderedReplayed(s.history, a, n, e.held, s.lastSent, s.paused && !s.pumping, held);
    ItemKeeps(s, item, n);
    FailingKeeps(s);
  }

  /** Failing the pair is always safe. */
  lemma FailingKeeps(s: State)
    requires Inv(s)
    ensures Inv(FailPair(s))
  {
    hide Flow, Continuous, Ordered, Answered, LastOnly, AllIssued;
    assert InTransit(FailPair(s)) == InTransit(s);
    FailedKeeps(FailPair(s));
  }

  lemma ReplayEndKeeps(s: State)
    requires Inv(s) && !s.failed && s.active.Some? && s.active.value.place.Replaying? && s.active.value.rest == []
    ensures Inv(ReplayOne(s))
  {
    hide Flow, Continuous, Ordered, Answered, LastOnly, AllIssued, Quiet, Remaining, Outcome, Give;
    var a := s.active.value;
    var e := Arrives(s).value;
    ReplayReachesCommit(s);
    OrderedReplaying(s.history, a, e.held, s.lastSent, s.paused && !s.pumping);
    var item := Commit(a.request, a.commit);
    assert Take(s.generations, e, item) == Some(e.(held := None));
    FailingKeeps(s);
    if Sends(s, item) {
      ItemKeeps(s, item, a);
      GiveJoins(s, item);
      var r := Give(s, item).(active := Some(a));
      LeavingKeeps(r, ReplayOne(s), a.(place := Leaving(true)));
    }
  }

  lemma ReplayKeeps(s: State)
    requires Inv(s)
    ensures Inv(Next(s, Replay))
  {
    if !s.failed && s.active.Some? && s.active.value.place.Replaying? {
      if s.active.value.rest != [] { ReplayFrameKeeps(s); } else { ReplayEndKeeps(s); }
    }
  }

  // ---- The barrier's answer ----

  lemma OrderedWaiting(history: seq<Mutation>, a: Active, place: Place, held: Option<Held>, lastSent: Mark, idle: bool)
    requires Ordered(history, Some(a), held, lastSent, idle) && Waits(a)
    requires place.MarkerQueued? || place.MarkerSent? || place.Replaying?
    ensures Ordered(history, Some(a.(place := place)), held, lastSent, idle)
  {
    hide Remaining;
  }

  lemma AnsweredSent(size: nat, generations: map<int, int>, items: seq<Item>, answers: seq<Answer>, a: Active,
                     held: Option<Held>)
    requires Answered(generations, items, answers, Some(a), held, size) && a.place == MarkerQueued(None)
    ensures Answered(generations, items, answers, Some(a.(place := MarkerSent)), held, size)
  {
  }

  /** An answer that was heard: nothing else is on its way for this recovery. */
  ghost predicate Heard(s: State, ready: bool) {
    && Inv(s) && !s.failed && s.active.Some?
       && Quiet(s.generations, InTransit(s), s.answers, Bound(s.active, |s.history|))
    && (!ready ==> Arrives(s).value.held.None?)
  }

  lemma ResolveKeeps(s: State, ready: bool)
    requires Heard(s, ready) && Waits(s.active.value)
    ensures Inv(Resolve(s, ready))
  {
    hide Flow, Continuous, Ordered, Answered, LastOnly, AllIssued, Quiet;
    var n := Resolve(s, ready);
    var a := s.active.value;
    var held := Arrives(s).value.held;
    if ready {
      assert InTransit(n) == InTransit(s) && Arrives(n) == Arrives(s);
      OrderedWaiting(s.history, a, Replaying, held, s.lastSent, s.paused && !s.pumping);
      QuietAnswered(|s.history|, Bound(s.active, |s.history|), s.generations, InTransit(s), s.answers, n.active, held);
    } else {
      BoundWithin(s.history, s.active, held, s.lastSent, s.paused && !s.pumping);
      QuietWidens(s.generations, InTransit(s), s.answers, Bound(s.active, |s.history|), |s.history|);
      LeavingKeeps(s, n, a.(place := Leaving(false)));
    }
  }

  /** A pin in sight is for the recovery under way, whose client is then current. */
  lemma PinIsCurrent(s: State)
    requires Inv(s) && !s.failed
    ensures var held := Arrives(s).value.held;
            held.Some? ==> s.active.Some? && held.value.request == s.active.value.request
                           && Current(s.generations, s.active.value.request)
  {
    hide Flow, Continuous, Ordered, Answered, LastOnly, AllIssued;
    FlowCurrent(s.generations, s.relay, InTransit(s));
    OrderedUnpinned(s.history, s.active, Arrives(s).value.held, s.lastSent, s.paused && !s.pumping);
  }

  lemma EarlyQuiet(size: nat, generations: map<int, int>, items: seq<Item>, answers: seq<Answer>, a: Active,
                   held: Option<Held>)
    requires Answered(generations, items, answers, Some(a), held, size) && a.place.MarkerQueued? && a.place.early.Some?
    requires held.Some? ==> Current(generations, a.request)
    ensures Quiet(generations, items, answers, Bound(Some(a), size)) && (!a.place.early.value ==> held.None?)
  {
  }

  lemma ReceiptKeeps(s: State)
    requires Inv(s)
    ensures Inv(Next(s, Receipt))
  {
    hide Flow, Continuous, Ordered, Answered, LastOnly, AllIssued, Quiet, Resolve;
    var r := MarkSent(s);
    if !s.failed && s.channel.socket.buffered > T.QUEUE_MAX_BYTES {
      FailingKeeps(s);
    } else if r != s {
      var a := s.active.value;
      var held := Arrives(s).value.held;
      var n := s.(active := Some(a.(place := MarkerSent)));
      assert InTransit(n) == InTransit(s) && Arrives(n) == Arrives(s);
      OrderedWaiting(s.history, a, MarkerSent, held, s.lastSent, s.paused && !s.pumping);
      PinIsCurrent(s);
      if a.place.early.Some? {
        EarlyQuiet(|s.history|, s.generations, InTransit(s), s.answers, a, held);
        QuietAnswered(|n.history|, Bound(s.active, |s.history|), n.generations, InTransit(n), n.answers, n.active,
                      held);
        ResolveKeeps(n, a.place.early.value);
      } else {
        AnsweredSent(|s.history|, s.generations, InTransit(s), s.answers, a, held);
      }
    }
  }

  lemma AnsweredDrop(size: nat, generations: map<int, int>, items: seq<Item>, answers: seq<Answer>,
                     active: Option<Active>, held: Option<Held>)
    requires Answered(generations, items, answers, active, held, size) && answers != []
    ensures Answered(generations, items, answers[1..], active, held, size)
  {
    assert forall i :: 0 <= i < |answers[1..]| ==> answers[1..][i] == answers[i + 1];
  }

  lemma AllIssuedDrop(generations: map<int, int>, items: seq<Item>, answers: seq<Answer>)
    requires AllIssued(generations, items, answers) && answers != []
    ensures AllIssued(generations, items, answers[1..])
  {
    assert forall i :: 0 <= i < |answers[1..]| ==> answers[1..][i] == answers[i + 1];
  }

  /** The first answer is the one that is waited for: there is no other, and no barrier to come. */
  lemma AnsweredHead(size: nat, generations: map<int, int>, items: seq<Item>, answers: seq<Answer>, a: Active,
                     held: Option<Held>)
    requires Answered(generations, items, answers, Some(a), held, size) && answers != [] && Waits(a)
             && Matches(a, answers[0])
    requires held.Some? ==> Current(generations, a.request)
    requires a.place.MarkerQueued? ==> a.place.early.None?
    ensures Quiet(generations, items, answers[1..], Bound(Some(a), size)) && (!answers[0].ready ==> held.None?)
  {
    assert forall i :: 0 <= i < |answers[1..]| ==> answers[1..][i] == answers[i + 1];
  }

  lemma AnsweredEarly(size: nat, generations: map<int, int>, items: seq<Item>, answers: seq<Answer>, a: Active,
                      held: Option<Held>)
    requires Quiet(generations, items, answers, Bound(Some(a), size)) && a.place.MarkerQueued? && a.place.early.Some?
    requires !a.place.early.value ==> held.None?
    ensures Answered(generations, items, answers, Some(a), held, size)
  {
  }

  lemma HearsKeeps(s: State)
    requires Inv(s)
    ensures Inv(Next(s, Hears))
  {
    hide Flow, Continuous, Ordered, Answered, LastOnly, AllIssued, Quiet, Resolve;
    if s.answers != [] {
      var answer := s.answers[0];
      var n := s.(answers := s.answers[1..]);
      assert InTransit(n) == InTransit(s) && Arrives(n) == Arrives(s);
      AllIssuedDrop(s.generations, InTransit(s), s.answers);
      if !s.failed {
        var held := Arrives(s).value.held;
        AnsweredDrop(|s.history|, s.generations, InTransit(s), s.answers, s.active, held);
        assert Inv(n);
        if s.active.Some? && Matches(s.active.value, answer) && Waits(s.active.value) {
          HeardKeeps(s, n);
        }
      }
    }
  }

  lemma HeardKeeps(s: State, n: State)
    requires Inv(s) && !s.failed && s.answers != [] && n == s.(answers := s.answers[1..]) && Inv(n)
    requires s.active.Some? && Matches(s.active.value, s.answers[0]) && Waits(s.active.value)
    ensures Inv(HearAnswer(s))
  {
    hide Flow, Continuous, Ordered, Answered, LastOnly, AllIssued, Quiet, Resolve;
    var a := s.active.value;
    var held := Arrives(s).value.held;
    var ready := s.answers[0].ready;
    assert InTransit(n) == InTransit(s) && Arrives(n) == Arrives(s);
    PinIsCurrent(s);
    if a.place.MarkerQueued? && a.place.early.Some? {
    } else {
      AnsweredHead(|s.history|, s.generations, InTransit(s), s.answers, a, held);
      if a.place.MarkerSent? {
        ResolveKeeps(n, ready);
      } else {
        var r := n.(active := Some(a.(place := MarkerQueued(Some(ready)))));
        assert InTransit(r) == InTransit(n) && Arrives(r) == Arrives(n);
        OrderedWaiting(s.history, a, MarkerQueued(Some(ready)), held, s.lastSent, s.paused && !s.pumping);
        AnsweredEarly(|s.history|, s.generations, InTransit(s), n.answers, r.active.value, held);
      }
    }
  }

  // ---- Superseded, timed out, over ----

  lemma OrderedAborted(history: seq<Mutation>, a: Active, held: Option<Held>, lastSent: Mark, idle: bool)
    requires Ordered(history, Some(a), held, lastSent, idle)
    ensures Ordered(history, Some(a.(aborted := true)), held, lastSent, idle)
  {
    hide Remaining;
  }

  lemma AbortedKeeps(s: State, n: State, a: Active)
    requires Inv(s) && !s.failed && s.active == Some(a) && Unawaited(s.generations, s.active) && !Waits(a)
    requires n == s.(active := Some(a.(aborted := true)))
    ensures Inv(n)
  {
    hide Flow, Continuous, Ordered, Answered, LastOnly, AllIssued, Quiet, Issued;
    var held := Arrives(s).value.held;
    IdleQuiet(s);
    assert InTransit(n) == InTransit(s) && Arrives(n) == Arrives(s);
    OrderedAborted(s.history, a, held, s.lastSent, s.paused && !s.pumping);
    QuietAnswered(|s.history|, Bound(s.active, |s.history|), s.generations, InTransit(s), s.answers, n.active, held);
  }

  lemma SupersedeKeeps(s: State)
    requires Inv(s)
    ensures Inv(Next(s, Supersede))
  {
    hide Flow, Continuous, Ordered, Answered, LastOnly, AllIssued, Quiet, Issued, Resume;
    var n := Superseded(s);
    if n != s {
      var a := s.active.value;
      IdleQuiet(s);
      PinIsCurrent(s);
      match a.place
      case MarkerQueued(_) => LeavingKeeps(s, n, a.(aborted := true, place := Leaving(false)));
      case MarkerSent =>
        assert InTransit(n) == InTransit(s);
        FailedKeeps(n);
      case _ => AbortedKeeps(s, n, a);
    }
  }

  lemma TimesOutKeeps(s: State)
    requires Inv(s)
    ensures Inv(Next(s, TimesOut))
  {
    hide Flow, Continuous, Ordered, Answered, LastOnly, AllIssued;
    var n := Next(s, TimesOut);
    assert InTransit(n) == InTransit(s);
    if n != s { FailedKeeps(n); }
  }

  lemma ClosesKeeps(s: State)
    requires Inv(s)
    ensures Inv(Next(s, Closes))
  {
    hide Inv;
    if !s.failed { FailingKeeps(s); }
  }

  lemma LeaveKeeps(s: State)
    requires Inv(s)
    ensures Inv(Next(s, Leave))
  {
    hide Flow, Continuous, Answered, LastOnly, AllIssued, Quiet;
    var n := Next(s, Leave);
    if n != s {
      var held := Arrives(s).value.held;
      assert InTransit(n) == InTransit(s) && Arrives(n) == Arrives(s);
      IdleQuiet(s);
      QuietAnswered(|s.history|, |s.history|, s.generations, InTransit(s), s.answers, n.active, held);
    }
  }

  // ---- The data channel and the relay ----

  /** The data channel's own state decides nothing here but what is taken. */
  lemma ChannelKeeps(s: State, n: State)
    requires Inv(s) && InTransit(n) == InTransit(s)
    requires n == s.(channel := n.channel, outbox := n.outbox, wire := n.wire)
    ensures Inv(n)
  {
    hide Flow, Continuous, Ordered, Answered, LastOnly, AllIssued;
  }

  lemma LeavesKeeps(s: State, count: nat)
    requires Inv(s)
    ensures Inv(Next(s, Leaves(count)))
  {
    hide Inv, BytesOfAll;
    var n := Next(s, Leaves(count));
    if n == FailPair(s) {
      FailingKeeps(s);
    } else if n != s {
      assert s.outbox == s.outbox[..count] + s.outbox[count..];
      ChannelKeeps(s, n);
    }
  }

  lemma SocketKeeps(s: State, step: Step)
    requires Inv(s) && (step.Acks? || step.Pings? || step.Drains? || step.Breaks?)
    ensures Inv(Next(s, step))
  {
    hide Inv;
    var n := Next(s, step);
    if n == FailPair(s) { FailingKeeps(s); } else { ChannelKeeps(s, n); }
  }

  /** What is left in transit when the first item has been taken. */
  lemma RestInTransit(s: State)
    requires s.wire != []
    ensures InTransit(s)[0] == s.wire[0] && InTransit(s)[1..] == s.wire[1..] + s.outbox && InTransit(s) != []
  {
  }

  lemma LastOnlyRest(generations: map<int, int>, items: seq<Item>)
    requires LastOnly(generations, items) && items != []
    ensures LastOnly(generations, items[1..])
    ensures IsLive(generations, items[0]) ==> items[1..] == []
  {
    assert forall i :: 0 <= i < |items[1..]| ==> items[1..][i] == items[i + 1];
  }

  lemma AllIssuedRest(generations: map<int, int>, items: seq<Item>, answers: seq<Answer>)
    requires AllIssued(generations, items, answers) && items != []
    ensures AllIssued(generations, items[1..], answers)
    ensures items[0].Marker? ==> forall commit: Mark, ready: bool ::
              AllIssued(generations, items[1..], answers + [Answer(items[0].request, commit, ready)])
  {
    assert forall i :: 0 <= i < |items[1..]| ==> items[1..][i] == items[i + 1];
  }

  lemma AnsweredRest(size: nat, generations: map<int, int>, items: seq<Item>, answers: seq<Answer>,
                     active: Option<Active>, held: Option<Held>)
    requires Answered(generations, items, answers, active, held, size) && items != []
    ensures Answered(generations, items[1..], answers, active, held, size)
  {
    assert forall i :: 0 <= i < |items[1..]| ==> items[1..][i] == items[i + 1];
  }

  /** A barrier leaves the wire and its answer is on its way. */
  lemma AnsweredTaken(size: nat, generations: map<int, int>, items: seq<Item>, answers: seq<Answer>,
                      active: Option<Active>, held: Option<Held>, ready: bool, held': Option<Held>)
    requires Answered(generations, items, answers, active, held, size) && items != [] && items[0].Marker?
    requires LastOnly(generations, items)
    requires if Current(generations, items[0].request) then !ready ==> held'.None? else held' == held
    ensures Answered(generations, items[1..], answers + [Answer(items[0].request, items[0].commit, ready)], active,
                     held', size)
  {
    LastOnlyRest(generations, items);
    assert forall i :: 0 <= i < |items[1..]| ==> items[1..][i] == items[i + 1];
    var more := answers + [Answer(items[0].request, items[0].commit, ready)];
    assert forall i :: 0 <= i < |answers| ==> more[i] == answers[i];
    if IsLive(generations, items[0]) {
      assert !NoneLive(generations, items);
      assert forall i :: 0 <= i < |answers| ==> !Awaited(generations, active, answers[i]);
      assert NoneLive(generations, items[1..]);
    }
  }

  lemma OrderedRefused(history: seq<Mutation>, active: Option<Active>, held: Option<Held>, lastSent: Mark, idle: bool)
    requires Ordered(history, active, held, lastSent, idle)
    ensures Ordered(history, active, None, lastSent, idle)
  {
    hide Remaining;
  }

  lemma TakeKeepsCurrent(generations: map<int, int>, e: End, item: Item)
    requires Take(generations, e, item).Some? && (e.held.Some? ==> Current(generations, e.held.value.request))
    ensures var r := Take(generations, e, item).value; r.held.Some? ==> Current(generations, r.held.value.request)
    ensures item.Marker? && !Current(generations, item.request) ==> Take(generations, e, item).value == e
    ensures item.Marker? && Current(generations, item.request) ==> e.held.None?
  {
  }

  lemma DeliversKeeps(s: State, ready: bool)
    requires Inv(s)
    ensures Inv(Next(s, Delivers(ready)))
  {
    hide Take, Continuous, Ordered, Answered, LastOnly, AllIssued;
    if s.wire != [] {
      var items := InTransit(s);
      RestInTransit(s);
      LastOnlyRest(s.generations, items);
      AllIssuedRest(s.generations, items, s.answers);
      TakeKeepsCurrent(s.generations, s.relay, items[0]);
      if items[0].Marker? { BarrierKeeps(s, ready); } else { ItemTakenKeeps(s, ready); }
    }
  }

  lemma ItemTakenKeeps(s: State, ready: bool)
    requires Inv(s) && s.wire != [] && !InTransit(s)[0].Marker? && InTransit(s)[0] == s.wire[0]
    requires InTransit(s)[1..] == s.wire[1..] + s.outbox && LastOnly(s.generations, InTransit(s)[1..])
    requires AllIssued(s.generations, InTransit(s)[1..], s.answers)
    requires var next := Take(s.generations, s.relay, InTransit(s)[0]);
             next.Some? ==> next.value.held.Some? ==> Current(s.generations, next.value.held.value.request)
    ensures Inv(Deliver(s, ready))
  {
    hide Take, Continuous, Ordered, Answered, LastOnly, AllIssued;
    var n := Deliver(s, ready);
    assert InTransit(n) == InTransit(s)[1..] && Arrives(n) == Arrives(s);
    if !s.failed { AnsweredRest(|s.history|, s.generations, InTransit(s), s.answers, s.active, Arrives(s).value.held); }
  }

  lemma BarrierKeeps(s: State, ready: bool)
    requires Inv(s) && s.wire != [] && InTransit(s)[0].Marker? && InTransit(s)[0] == s.wire[0]
    requires InTransit(s)[1..] == s.wire[1..] + s.outbox && LastOnly(s.generations, InTransit(s)[1..])
    ensures Inv(Deliver(s, ready))
  {
    hide Take, Continuous, Ordered, Answered, LastOnly, AllIssued;
    var n := Deliver(s, ready);
    var items := InTransit(s);
    var granted := ready && Current(s.generations, items[0].request);
    LastOnlyRest(s.generations, items);
    AllIssuedRest(s.generations, items, s.answers);
    TakeKeepsCurrent(s.generations, s.relay, items[0]);
    assert InTransit(n) == items[1..];
    var next := Take(s.generations, s.relay, items[0]).value;
    assert Arrives(s) == Flow(s.generations, next, items[1..]);
    var held := Arrives(s).value.held;
    if Current(s.generations, items[0].request) {
      assert IsLive(s.generations, items[0]) && items[1..] == [];
      TakeMarker(s.generations, s.relay, items[0]);
      assert Arrives(n) == Some(n.relay) && Arrives(s) == Some(next);
    } else {
      assert Arrives(n) == Arrives(s);
    }
    if !s.failed {
      AnsweredTaken(|s.history|, s.generations, items, s.answers, s.active, held, granted, Arrives(n).value.held);
      OrderedRefused(s.history, s.active, held, s.lastSent, s.paused && !s.pumping);
    }
  }

  lemma TakeMarker(generations: map<int, int>, e: End, item: Item)
    requires item.Marker? && Take(generations, e, item).Some?
    ensures Take(generations, e, item).value.head == e.head == item.commit
  {
  }

  // ---- Clients move on, or are gone ----

  lemma LastOnlyMoves(generations: map<int, int>, items: seq<Item>, answers: seq<Answer>, stream: int)
    requires LastOnly(generations, items) && AllIssued(generations, items, answers) && stream in generations
    ensures LastOnly(Bumped(generations, stream), items) && AllIssued(Bumped(generations, stream), items, answers)
  {
    var moved := Bumped(generations, stream);
    assert forall i :: 0 <= i < |items| && IsLive(moved, items[i]) ==> IsLive(generations, items[i]);
  }

  lemma AnsweredMoves(size: nat, generations: map<int, int>, items: seq<Item>, answers: seq<Answer>,
                      active: Option<Active>, held: Option<Held>, stream: int, held': Option<Held>)
    requires Answered(generations, items, answers, active, held, size) && AllIssued(generations, items, answers)
    requires stream in generations && (held' == held || held'.None?)
    requires active.Some? ==> Issued(generations, active.value.request)
    ensures Answered(Bumped(generations, stream), items, answers, active, held', size)
  {
    var moved := Bumped(generations, stream);
    assert forall i :: 0 <= i < |items| && IsLive(moved, items[i]) ==> IsLive(generations, items[i]);
    assert forall i :: 0 <= i < |answers| && Current(moved, answers[i].request) ==>
             Current(generations, answers[i].request);
  }

  lemma MovesKeeps(s: State, stream: int)
    requires Inv(s)
    ensures Inv(Next(s, Moves(stream)))
  {
    hide Flow, Continuous, Ordered, Answered, LastOnly, AllIssued;
    var n := Next(s, Moves(stream));
    if stream in s.generations {
      var items := InTransit(s);
      assert InTransit(n) == items && n.generations == Bumped(s.generations, stream);
      ItemsIssued(s.generations, items, s.answers);
      FlowMoves(s.generations, s.relay, items, stream);
      LastOnlyMoves(s.generations, items, s.answers, stream);
      if !s.failed {
        var held := Arrives(s).value.held;
        AnsweredMoves(|s.history|, s.generations, items, s.answers, s.active, held, stream, Arrives(n).value.held);
        OrderedRefused(s.history, s.active, held, s.lastSent, s.paused && !s.pumping);
      }
    }
  }

  lemma ItemsIssued(generations: map<int, int>, items: seq<Item>, answers: seq<Answer>)
    requires AllIssued(generations, items, answers)
    ensures AllIssued(generations, items, [])
  {
  }

  lemma AnsweredGoes(size: nat, generations: map<int, int>, items: seq<Item>, answers: seq<Answer>,
                     active: Option<Active>, held: Option<Held>)
    requires Answered(generations, items, answers, active, held, size)
    ensures Answered(generations, items, answers, active, None, size)
  {
  }

  lemma GoesKeeps(s: State, stream: int)
    requires Inv(s)
    ensures Inv(Next(s, Goes(stream)))
  {
    hide Flow, Continuous, Ordered, Answered, LastOnly, AllIssued;
    var n := Next(s, Goes(stream));
    assert InTransit(n) == InTransit(s);
    if n != s {
      assert n.relay == s.relay.(held := None);
      FlowGoes(s.generations, s.relay, InTransit(s));
      if !s.failed {
        OrderedRefused(s.history, s.active, Arrives(s).value.held, s.lastSent, s.paused && !s.pumping);
        AnsweredGoes(|s.history|, s.generations, InTransit(s), s.answers, s.active, Arrives(s).value.held);
      }
    }
  }

  // ---- Runs ----

  lemma StepKeeps(s: State, step: Step)
    requires Inv(s) && !Endangers(s, step)
    ensures Inv(Next(s, step))
  {
    hide Inv, Endangers;
    match step
    case Publish(what) => PublishKeeps(s, what);
    case Pump => PumpKeeps(s);
    case Begin(request) => BeginKeeps(s, request);
    case Paused(base, available) => PausedKeeps(s, base, available);
    case Flush(payload) => FlushKeeps(s, payload);
    case Replay => ReplayKeeps(s);
    case Receipt => ReceiptKeeps(s);
    case Hears => HearsKeeps(s);
    case Supersede => SupersedeKeeps(s);
    case TimesOut => TimesOutKeeps(s);
    case Closes => ClosesKeeps(s);
    case Leave => LeaveKeeps(s);
    case Leaves(count) => LeavesKeeps(s, count);
    case Acks => SocketKeeps(s, step);
    case Pings => SocketKeeps(s, step);
    case Drains(_) => SocketKeeps(s, step);
    case Breaks => SocketKeeps(s, step);
    case Delivers(ready) => DeliversKeeps(s, ready);
    case Moves(stream) => MovesKeeps(s, stream);
    case Goes(stream) => GoesKeeps(s, stream);
  }

  lemma BeginsInv(s: State)
    requires Begins(s)
    ensures Inv(s)
  {
    assert InTransit(s) == [];
  }

  lemma {:induction false} RunKeeps(s: State, steps: seq<Step>)
    requires Begins(s) && Unharmed(s, steps)
    ensures Inv(Run(s, steps))
    decreases |steps|
  {
    hide Inv, Begins, Next, Endangers;
    if steps == [] {
      BeginsInv(s);
    } else {
      RunKeeps(s, steps[..|steps| - 1]);
      StepKeeps(Run(s, steps[..|steps| - 1]), steps[|steps| - 1]);
    }
  }
}
