/** How a session hands its canonical frames to subscribers, when their callbacks may reenter it.

    A frame is known by its event number. Each call of a callback is a step of its own, and what the
    callback does before it returns are the steps that follow while the caller is still on the stack:
    subscribing another, or, outside of the actor's own turn, publishing more. */
module Subscriptions {
  import opened Collections

  /** A subscriber: where it attached, what its callback was called with, and what is still due to it. */
  datatype Subscriber = Subscriber(
    base: nat, received: seq<nat>, replay: seq<nat>, pendingLive: seq<nat>, replaying: bool, active: bool)

  datatype Activity =
    | Publishing(event: nat, rest: seq<nat>)   // over a copy of the subscriber set
    | Replaying(id: nat)                       // inside subscribe

  datatype Session = Session(
    events: nat,                       // the journal's head
    subscribers: map<nat, Subscriber>, // everyone who ever attached
    registered: seq<nat>,              // the set, in insertion order
    stack: seq<Activity>)

  datatype Step =
    | Publish
    | Continue(throws: bool)           // the activity on top of the stack goes on; its callback may throw
    | Subscribe(cursor: Option<nat>, gap: bool)
    | Unsubscribe(id: nat)
    | Clear                            // the session failed or was disposed of

  function Range(low: nat, high: nat): (r: seq<nat>)
    requires low <= high
    ensures |r| == high - low && forall i :: 0 <= i < |r| ==> r[i] == low + 1 + i
  {
    seq(high - low, i requires 0 <= i => low + 1 + i)
  }

  /** A publication is somewhere on the stack. */
  predicate Busy(stack: seq<Activity>) {
    stack != [] && (stack[|stack| - 1].Publishing? || Busy(stack[..|stack| - 1]))
  }

  /** Whom the publication under way has still to call. */
  function Rest(stack: seq<Activity>): seq<nat> {
    if stack == [] then []
    else
      match stack[|stack| - 1]
      case Publishing(_, rest) => rest
      case Replaying(_) => Rest(stack[..|stack| - 1])
  }

  /** The wrapped callback: dropped when inactive, kept for later during the subscriber's own replay. */
  function Wrapped(sub: Subscriber, event: nat): Subscriber {
    if !sub.active then sub
    else if sub.replaying then sub.(pendingLive := sub.pendingLive + [event])
    else sub.(received := sub.received + [event])
  }

  function PublishNext(s: Session, throws: bool): Session
    requires s.stack != [] && s.stack[|s.stack| - 1].Publishing?
  {
    var below := s.stack[..|s.stack| - 1];
    var top := s.stack[|s.stack| - 1];
    if top.rest == [] then s.(stack := below)
    else
      var id := top.rest[0];
      var s1 := s.(stack := below + [Publishing(top.event, top.rest[1..])]);
      if id !in s.subscribers then s1
      else
        var sub := s.subscribers[id];
        var called := sub.active && !sub.replaying;
        s1.(subscribers := s.subscribers[id := Wrapped(sub, top.event)],
            registered := if called && throws then Without(s.registered, id) else s.registered)
  }

  function ReplayNext(s: Session, throws: bool): Session
    requires s.stack != [] && s.stack[|s.stack| - 1].Replaying?
  {
    var below := s.stack[..|s.stack| - 1];
    var id := s.stack[|s.stack| - 1].id;
    if id !in s.subscribers then s.(stack := below)
    else
      var sub := s.subscribers[id];
      if sub.replay == [] && sub.pendingLive == [] then
        s.(subscribers := s.subscribers[id := sub.(replaying := false)], stack := below)
      else
        var next := if sub.replay != []
                    then sub.(received := sub.received + [sub.replay[0]], replay := sub.replay[1..])
                    else sub.(received := sub.received + [sub.pendingLive[0]], pendingLive := sub.pendingLive[1..]);
        if throws then
          s.(subscribers := s.subscribers[id := next.(active := false)], registered := Without(s.registered, id),
             stack := below)
        else s.(subscribers := s.subscribers[id := next])
  }

  function Attach(s: Session, cursor: Option<nat>): Session
    requires cursor.Some? ==> cursor.value <= s.events
  {
    var id := |s.subscribers|;
    match cursor
    case None =>
      s.(subscribers := s.subscribers[id := Subscriber(s.events, [], [], [], false, true)],
         registered := s.registered + [id])
    case Some(base) =>
      s.(subscribers := s.subscribers[id := Subscriber(base, [], Range(base, s.events), [], true, true)],
         registered := s.registered + [id], stack := s.stack + [Replaying(id)])
  }

  function Next(s: Session, step: Step): Session {
    match step
    case Publish =>
      // The actor publishes one message at a time: what a callback enqueues meanwhile waits its turn.
      if Busy(s.stack) then s
      else s.(events := s.events + 1, stack := s.stack + [Publishing(s.events + 1, s.registered)])
    case Continue(throws) =>
      if s.stack == [] then s
      else if s.stack[|s.stack| - 1].Publishing? then PublishNext(s, throws) else ReplayNext(s, throws)
    case Subscribe(cursor, gap) =>
      if gap || (cursor.Some? && cursor.value > s.events) then s else Attach(s, cursor)
    case Unsubscribe(id) =>
      if id in s.subscribers && !s.subscribers[id].replaying then
        s.(subscribers := s.subscribers[id := s.subscribers[id].(active := false)],
           registered := Without(s.registered, id))
      else s
    case Clear => s.(registered := [])
  }

  function Run(s: Session, steps: seq<Step>): Session
    decreases |steps|
  {
    if steps == [] then s else Next(Run(s, steps[..|steps| - 1]), steps[|steps| - 1])
  }

  const START: Session := Session(0, map[], [], [])

  // ---- Invariant ----

  predicate Awaits(s: Session, id: nat) { id in Rest(s.stack) }

  /** The events that reached a subscriber so far, in one way or another. */
  function UpTo(s: Session, id: nat): int { if Awaits(s, id) then s.events - 1 else s.events }

  /** What was called, what is replayed and what is kept are the events after the base, in order; for one
      who is still attached they are all of them. */
  ghost predicate InStep(sub: Subscriber, attached: bool, upTo: int) {
    && sub.received + sub.replay + sub.pendingLive
       == Range(sub.base, sub.base + |sub.received| + |sub.replay| + |sub.pendingLive|)
    && (!sub.replaying ==> sub.replay == [] && sub.pendingLive == [])
    && (attached ==> sub.base + |sub.received| + |sub.replay| + |sub.pendingLive| == upTo)
  }

  predicate Attached(s: Session, id: nat)
    requires id in s.subscribers
  {
    s.subscribers[id].active && (id in s.registered || Awaits(s, id))
  }

  /** At most one publication is under way, of the newest event. */
  ghost predicate Stacked(stack: seq<Activity>, events: nat, count: nat) {
    stack != [] ==>
      && Stacked(stack[..|stack| - 1], events, count)
      && match stack[|stack| - 1]
         case Publishing(event, rest) =>
           && !Busy(stack[..|stack| - 1]) && event == events > 0 && Distinct(rest)
           && forall id :: id in rest ==> id < count
         case Replaying(id) => id < count
  }

  ghost predicate Inv(s: Session) {
    && (forall id: nat :: id in s.subscribers <==> id < |s.subscribers|)
    && Distinct(s.registered) && (forall id :: id in s.registered ==> id in s.subscribers)
    && Stacked(s.stack, s.events, |s.subscribers|)
    && (forall id :: id in s.subscribers ==> InStep(s.subscribers[id], Attached(s, id), UpTo(s, id)))
  }

  // ---- Every step keeps it ----

  lemma {:induction false} StackGrows(stack: seq<Activity>, events: nat, count: nat, events': nat, count': nat)
    requires Stacked(stack, events, count) && count <= count' && (Busy(stack) ==> events' == events)
    ensures Stacked(stack, events', count')
    ensures !Busy(stack) ==> Rest(stack) == []
    decreases |stack|
  {
    if stack != [] {
      var below := stack[..|stack| - 1];
      if stack[|stack| - 1].Publishing? { StackGrows(below, events, count, events', count'); }
      else { StackGrows(below, events, count, events', count'); }
    }
  }

  lemma StackPush(stack: seq<Activity>, a: Activity)
    ensures (stack + [a])[..|stack|] == stack && (stack + [a])[|stack|] == a
    ensures Busy(stack + [a]) == (a.Publishing? || Busy(stack))
    ensures Rest(stack + [a]) == if a.Publishing? then a.rest else Rest(stack)
  {
    assert (stack + [a])[..|stack|] == stack;
  }

  lemma RangeMore(low: nat, high: nat)
    requires low <= high
    ensures Range(low, high + 1) == Range(low, high) + [high + 1]
  {
  }

  lemma PublishKeeps(s: Session)
    requires Inv(s)
    ensures Inv(Next(s, Publish))
  {
    if !Busy(s.stack) {
      var n := Next(s, Publish);
      StackGrows(s.stack, s.events, |s.subscribers|, s.events + 1, |s.subscribers|);
      StackPush(s.stack, Publishing(s.events + 1, s.registered));
      hide InStep;
      forall id | id in n.subscribers ensures InStep(n.subscribers[id], Attached(n, id), UpTo(n, id)) {
        assert Attached(n, id) ==> Attached(s, id) && UpTo(n, id) == UpTo(s, id);
        LessInStep(n.subscribers[id], Attached(s, id), UpTo(s, id), Attached(n, id), UpTo(n, id));
      }
    }
  }

  lemma LessInStep(sub: Subscriber, was: bool, upTo: int, now: bool, upTo': int)
    requires InStep(sub, was, upTo) && (now ==> was && upTo' == upTo)
    ensures InStep(sub, now, upTo')
  {
  }

  /** One more event, called at once or kept, for one who had all before it. */
  lemma WrappedInStep(sub: Subscriber, event: nat)
    requires InStep(sub, sub.active, event - 1)
    ensures InStep(Wrapped(sub, event), sub.active, event)
  {
    if sub.active {
      RangeMore(sub.base, event - 1);
      var all := sub.received + sub.replay + sub.pendingLive;
      if sub.replaying {
        assert sub.received + sub.replay + (sub.pendingLive + [event]) == all + [event];
      } else {
        assert (sub.received + [event]) + [] + [] == all + [event];
      }
    }
  }

  lemma PublishNextKeeps(s: Session, throws: bool)
    requires Inv(s) && s.stack != [] && s.stack[|s.stack| - 1].Publishing?
    ensures Inv(PublishNext(s, throws))
  {
    var below := s.stack[..|s.stack| - 1];
    var top := s.stack[|s.stack| - 1];
    var n := PublishNext(s, throws);
    StackGrows(below, s.events, |s.subscribers|, s.events, |s.subscribers|);
    assert Rest(s.stack) == top.rest && Rest(below) == [];
    if top.rest == [] {
      hide InStep;
      forall id | id in n.subscribers ensures InStep(n.subscribers[id], Attached(n, id), UpTo(n, id)) {
        LessInStep(n.subscribers[id], Attached(s, id), UpTo(s, id), Attached(n, id), UpTo(n, id));
      }
    } else {
      var id := top.rest[0];
      StackPush(below, Publishing(top.event, top.rest[1..]));
      CalledKeeps(s, n, id, throws);
    }
  }

  lemma CalledKeeps(s: Session, n: Session, id: nat, throws: bool)
    requires Inv(s) && s.stack != [] && s.stack[|s.stack| - 1].Publishing? && s.stack[|s.stack| - 1].rest != []
    requires id == s.stack[|s.stack| - 1].rest[0] && n == PublishNext(s, throws)
    requires Stacked(s.stack[..|s.stack| - 1], s.events, |s.subscribers|) && !Busy(s.stack[..|s.stack| - 1])
    requires Rest(n.stack) == s.stack[|s.stack| - 1].rest[1..]
    ensures Inv(n)
  {
    hide InStep, Wrapped, Without, Range;
    var top := s.stack[|s.stack| - 1];
    assert top.rest[0] in top.rest && id < |s.subscribers|;
    StackPush(s.stack[..|s.stack| - 1], Publishing(top.event, top.rest[1..]));
    CalledStack(s.stack, n.stack, s.events, |s.subscribers|);
    HeadCalled(top.rest);
    WithoutRemoves(s.registered, id);
    WrappedActive(s.subscribers[id], top.event);
    assert |n.subscribers| == |s.subscribers|;
    assert Rest(s.stack) == top.rest;
    CalledInStep(s, n, id, top.rest);
  }

  lemma HeadCalled(rest: seq<nat>)
    requires Distinct(rest) && rest != []
    ensures rest[0] !in rest[1..] && Distinct(rest[1..])
    ensures forall k :: k in rest <==> k == rest[0] || k in rest[1..]
  {
  }

  lemma CalledStack(stack: seq<Activity>, stack': seq<Activity>, events: nat, count: nat)
    requires Stacked(stack, events, count) && stack != [] && stack[|stack| - 1].Publishing?
    requires stack[|stack| - 1].rest != []
    requires stack' == stack[..|stack| - 1] + [Publishing(stack[|stack| - 1].event, stack[|stack| - 1].rest[1..])]
    ensures Stacked(stack', events, count)
  {
    assert stack'[..|stack'| - 1] == stack[..|stack| - 1];
    HeadCalled(stack[|stack| - 1].rest);
  }

  lemma CalledInStep(s: Session, n: Session, id: nat, rest: seq<nat>)
    requires rest != [] && id == rest[0] && id !in rest[1..] && (forall k :: k in rest <==> k == id || k in rest[1..])
    requires Rest(s.stack) == rest && Rest(n.stack) == rest[1..] && n.events == s.events > 0
    requires id in s.subscribers && n.subscribers == s.subscribers[id := Wrapped(s.subscribers[id], s.events)]
    requires forall k :: k in n.registered ==> k in s.registered
    requires forall k :: k in s.subscribers ==> InStep(s.subscribers[k], Attached(s, k), UpTo(s, k))
    ensures forall k :: k in n.subscribers ==> InStep(n.subscribers[k], Attached(n, k), UpTo(n, k))
  {
    hide InStep, Wrapped, Rest, Range;
    var sub := s.subscribers[id];
    assert InStep(sub, Attached(s, id), UpTo(s, id));
    WrappedInStep(sub, s.events);
    WrappedActive(sub, s.events);
    LessInStep(n.subscribers[id], sub.active, s.events, Attached(n, id), UpTo(n, id));
    OthersInStep(s, n, id);
  }

  lemma WrappedActive(sub: Subscriber, event: nat)
    ensures Wrapped(sub, event).active == sub.active
  {
  }

  lemma ReplayNextKeeps(s: Session, throws: bool)
    requires Inv(s) && s.stack != [] && s.stack[|s.stack| - 1].Replaying?
    ensures Inv(ReplayNext(s, throws))
  {
    var id := s.stack[|s.stack| - 1].id;
    assert id < |s.subscribers|;
    ReplayShape(s, ReplayNext(s, throws), throws);
    ShapeKeeps(s, ReplayNext(s, throws), id);
  }

  lemma ShapeKeeps(s: Session, n: Session, id: nat)
    requires Inv(s) && s.stack != [] && s.stack[|s.stack| - 1] == Replaying(id)
    requires id in s.subscribers && id in n.subscribers && n.subscribers == s.subscribers[id := n.subscribers[id]]
    requires n.events == s.events && (n.stack == s.stack || n.stack == s.stack[..|s.stack| - 1])
    requires TookTurn(s.subscribers[id], n.subscribers[id])
    requires StaysOrLeaves(s.subscribers[id], n.subscribers[id], id, s.registered, n.registered)
    ensures Inv(n)
  {
    hide InStep, Range, Without;
    WithoutRemoves(s.registered, id);
    hide Without;
    assert |n.subscribers| == |s.subscribers|;
    assert InStep(s.subscribers[id], Attached(s, id), UpTo(s, id));
    ReplayedInStep(s.subscribers[id], n.subscribers[id], Attached(s, id), UpTo(s, id));
    assert Rest(n.stack) == Rest(s.stack);
    hide Stacked, Rest, TookTurn;
    LessInStep(n.subscribers[id], Attached(s, id), UpTo(s, id), Attached(n, id), UpTo(n, id));
    OthersInStep(s, n, id);
  }

  /** Who is attached, and the newest event that reached it, in numbers. */
  predicate NoneGained(s: Session, n: Session, k: nat)
    requires k in s.subscribers && k in n.subscribers
  {
    Attached(n, k) ==> Attached(s, k) && UpTo(n, k) == UpTo(s, k)
  }

  /** Everyone but one is as before, and that one is in step. */
  lemma OthersInStep(s: Session, n: Session, id: nat)
    requires id in n.subscribers && InStep(n.subscribers[id], Attached(n, id), UpTo(n, id))
    requires forall k :: k in n.subscribers && k != id ==>
      k in s.subscribers && n.subscribers[k] == s.subscribers[k] && NoneGained(s, n, k)
    requires forall k :: k in s.subscribers ==> InStep(s.subscribers[k], Attached(s, k), UpTo(s, k))
    ensures forall k :: k in n.subscribers ==> InStep(n.subscribers[k], Attached(n, k), UpTo(n, k))
  {
    hide InStep, Rest, Attached, UpTo;
    forall k | k in n.subscribers ensures InStep(n.subscribers[k], Attached(n, k), UpTo(n, k)) {
      if k != id { LessInStep(n.subscribers[k], Attached(s, k), UpTo(s, k), Attached(n, k), UpTo(n, k)); }
    }
  }

  /** What one turn of a replay does to its subscriber ... */
  predicate TookTurn(sub: Subscriber, n: Subscriber) {
    || (sub.replay == [] && sub.pendingLive == [] && n == sub.(replaying := false))
    || (sub.replay != []
        && n == sub.(received := sub.received + [sub.replay[0]], replay := sub.replay[1..], active := n.active))
    || (sub.replay == [] && sub.pendingLive != []
        && n == sub.(received := sub.received + [sub.pendingLive[0]], pendingLive := sub.pendingLive[1..],
                     active := n.active))
  }

  /** ... and to the set. */
  predicate StaysOrLeaves(was: Subscriber, n: Subscriber, id: nat, registered: seq<nat>, registered': seq<nat>) {
    || (registered' == registered && n.active == was.active)
    || (registered' == Without(registered, id) && !n.active)
  }

  lemma ReplayShape(s: Session, n: Session, throws: bool)
    requires s.stack != [] && s.stack[|s.stack| - 1].Replaying? && s.stack[|s.stack| - 1].id in s.subscribers
    requires n == ReplayNext(s, throws)
    ensures var id := s.stack[|s.stack| - 1].id;
            && id in n.subscribers && n.subscribers == s.subscribers[id := n.subscribers[id]]
            && n.events == s.events && (n.stack == s.stack || n.stack == s.stack[..|s.stack| - 1])
            && TookTurn(s.subscribers[id], n.subscribers[id])
            && StaysOrLeaves(s.subscribers[id], n.subscribers[id], id, s.registered, n.registered)
  {
  }

  /** The next of what is due was called; nothing else changed place. */
  lemma ReplayedInStep(sub: Subscriber, n: Subscriber, attached: bool, upTo: int)
    requires InStep(sub, attached, upTo) && TookTurn(sub, n)
    ensures InStep(n, attached, upTo)
  {
    assert n.received + n.replay + n.pendingLive == sub.received + sub.replay + sub.pendingLive;
  }

  /** What is on the stack is sound whether or not the new subscription's replay goes on top. */
  lemma AttachStack(s: Session, cursor: Option<nat>)
    requires Inv(s) && (cursor.Some? ==> cursor.value <= s.events)
    ensures var n := Attach(s, cursor);
            Stacked(n.stack, n.events, |s.subscribers| + 1) && Rest(n.stack) == Rest(s.stack)
  {
    hide InStep, Range, Busy;
    StackGrows(s.stack, s.events, |s.subscribers|, s.events, |s.subscribers| + 1);
    StackPush(s.stack, Replaying(|s.subscribers|));
  }

  lemma AttachKeeps(s: Session, cursor: Option<nat>)
    requires Inv(s) && (cursor.Some? ==> cursor.value <= s.events)
    ensures Inv(Attach(s, cursor))
  {
    hide InStep, Range, Stacked, Rest, Busy, NoneGained, Attached, UpTo;
    var n := Attach(s, cursor);
    var id := |s.subscribers|;
    AttachStack(s, cursor);
    AttacheeInStep(s, cursor);
    AttachedNoneGain(s, cursor);
    assert id !in s.registered && |n.subscribers| == id + 1;
    DistinctAppend(s.registered, id);
    assert n.registered == s.registered + [id];
    OthersInStep(s, n, id);
  }

  lemma AttacheeInStep(s: Session, cursor: Option<nat>)
    requires Inv(s) && (cursor.Some? ==> cursor.value <= s.events)
    ensures var n := Attach(s, cursor); var id := |s.subscribers|;
            id in n.subscribers && InStep(n.subscribers[id], Attached(n, id), UpTo(n, id))
  {
    hide InStep, Range, Stacked, Busy, Rest;
    var id := |s.subscribers|;
    AttachStack(s, cursor);
    RestKnown(s.stack, s.events, id);
    AttachedInStep(Attach(s, cursor).subscribers[id], s.events);
  }

  lemma AttachedNoneGain(s: Session, cursor: Option<nat>)
    requires Inv(s) && (cursor.Some? ==> cursor.value <= s.events)
    ensures var n := Attach(s, cursor);
            forall k :: k in n.subscribers && k != |s.subscribers| ==>
              k in s.subscribers && n.subscribers[k] == s.subscribers[k] && NoneGained(s, n, k)
  {
    hide InStep, Range, Stacked, Busy, Rest;
    AttachStack(s, cursor);
  }

  lemma AttachedInStep(sub: Subscriber, events: nat)
    requires sub.received == [] && sub.pendingLive == [] && sub.base <= events
    requires sub.replay == if sub.replaying then Range(sub.base, events) else []
    requires !sub.replaying ==> sub.base == events
    ensures InStep(sub, true, events)
  {
    assert sub.received + sub.replay + sub.pendingLive == Range(sub.base, events);
  }

  lemma {:induction false} RestKnown(stack: seq<Activity>, events: nat, count: nat)
    requires Stacked(stack, events, count)
    ensures forall id :: id in Rest(stack) ==> id < count
    decreases |stack|
  {
    if stack != [] && stack[|stack| - 1].Replaying? { RestKnown(stack[..|stack| - 1], events, count); }
  }

  lemma UnsubscribeKeeps(s: Session, id: nat)
    requires Inv(s)
    ensures Inv(Next(s, Unsubscribe(id)))
  {
    var n := Next(s, Unsubscribe(id));
    if n != s {
      WithoutRemoves(s.registered, id);
      assert |n.subscribers| == |s.subscribers|;
      Inactive(s.subscribers[id], Attached(s, id), UpTo(s, id));
      hide InStep;
      forall k | k in n.subscribers ensures InStep(n.subscribers[k], Attached(n, k), UpTo(n, k)) {
        if k != id { LessInStep(n.subscribers[k], Attached(s, k), UpTo(s, k), Attached(n, k), UpTo(n, k)); }
      }
    }
  }

  lemma Inactive(sub: Subscriber, attached: bool, upTo: int)
    requires InStep(sub, attached, upTo)
    ensures forall any: int :: InStep(sub.(active := false), false, any)
  {
  }

  lemma StepKeeps(s: Session, step: Step)
    requires Inv(s)
    ensures Inv(Next(s, step))
  {
    match step
    case Publish => PublishKeeps(s);
    case Continue(throws) =>
      if s.stack != [] {
        if s.stack[|s.stack| - 1].Publishing? { PublishNextKeeps(s, throws); } else { ReplayNextKeeps(s, throws); }
      }
    case Subscribe(cursor, gap) =>
      if !gap && !(cursor.Some? && cursor.value > s.events) { AttachKeeps(s, cursor); }
    case Unsubscribe(id) => UnsubscribeKeeps(s, id);
    case Clear =>
      hide InStep;
      var n := Next(s, Clear);
      forall k | k in n.subscribers ensures InStep(n.subscribers[k], Attached(n, k), UpTo(n, k)) {
        LessInStep(n.subscribers[k], Attached(s, k), UpTo(s, k), Attached(n, k), UpTo(n, k));
      }
  }

  lemma {:induction false} RunKeeps(steps: seq<Step>)
    ensures Inv(Run(START, steps))
    decreases |steps|
  {
    hide Inv, Next;
    if steps == [] {
      StartInv();
    } else {
      RunKeeps(steps[..|steps| - 1]);
      StepKeeps(Run(START, steps[..|steps| - 1]), steps[|steps| - 1]);
    }
  }

  lemma StartInv()
    ensures Inv(START)
  {
    assert START.subscribers == map[];
    assert |START.subscribers| == 0;
  }

  /** Exactly once: however subscriptions, callbacks and publications interleave, a subscriber's callback is
      called with base+1, base+2, ... and nothing else; and one that is attached, whose replay is done and
      whom no publication still has to call, was called with every event there is. */
  lemma EachEventOnce(steps: seq<Step>, id: nat)
    requires id in Run(START, steps).subscribers
    ensures var s := Run(START, steps); var sub := s.subscribers[id];
            && sub.received == Range(sub.base, sub.base + |sub.received|)
            && (Attached(s, id) && !sub.replaying && !Awaits(s, id) ==> sub.base + |sub.received| == s.events)
  {
    RunKeeps(steps);
    hide Run;
    var s := Run(START, steps);
    var sub := s.subscribers[id];
    var all := sub.received + sub.replay + sub.pendingLive;
    assert InStep(sub, Attached(s, id), UpTo(s, id));
    forall i | 0 <= i < |sub.received| ensures sub.received[i] == sub.base + 1 + i {
      assert all[i] == sub.received[i];
    }
  }
}
