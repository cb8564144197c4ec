/** Whole turns of the input owner, and what holds over every run of them. */
module InputRuns {
  import opened Collections
  import opened InputAuthority
  import opened IntentLedgers
  import opened InputOwner
  import opened InputOwnerProofs

  /** An answer of "proven not accepted" is only given when nothing went into the channel. */
  predicate Truthful(turns: seq<SenderTurn>) {
    forall t :: t in turns ==> (t.decision.ProvenNotAccepted? ==> !t.enqueued)
  }

  /** Histories only grow. */
  ghost predicate Grows(o: Owner, n: Owner) {
    && o.counter <= n.counter
    && o.handed <= n.handed
    && Log(o) <= Log(n)
    && (forall id :: id in o.identities ==> id in n.identities && n.identities[id] == o.identities[id])
    && n.inlineSend == o.inlineSend && n.drainingQueue == o.drainingQueue
  }

  lemma GrowsOnward(o: Owner, m: Owner, n: Owner)
    requires Grows(o, m) && Grows(m, n)
    ensures Grows(o, n)
  {
  }

  lemma MovesGrow(o: Owner, n: Owner)
    requires Moves(o, n)
    ensures Grows(o, n)
    ensures forall id :: IsConsumed(n.ledger, id) ==> IsConsumed(o.ledger, id)
    ensures forall id :: IsSending(n.ledger, id) ==> IsSending(o.ledger, id)
  {
  }

  // ---- Handing one intent to the sender ----

  /** The queued record at the head became the one being sent. */
  ghost predicate Launches(l: Ledger, n: Ledger, id: Id) {
    && l.queueIds != [] && l.queueIds[0] == id && n.queueIds == l.queueIds[1..]
    && IsQueued(l, id) && IsSending(n, id)
    && n.records == l.records[id := n.records[id]]
    && n.records[id].admission == l.records[id].admission
    && n.records[id].consumedAtMs == l.records[id].consumedAtMs
  }

  lemma LaunchedRecorded(l: Ledger, n: Ledger, id: Id, counter: nat, identities: map<Id, Identity>, handed: seq<Handed>,
                         log: seq<InputResult>, h: Handed)
    requires Launches(l, n, id)
    requires ResultsComplete(l, counter, log) && IdentitiesAssigned(l, counter, identities, log)
    requires HandedSafely(l, identities, handed) && NotSentIsTrue(handed, log)
    requires h == Handed(id, l.records[id].admission.identity, l.records[id].admission.payload, h.enqueued)
    requires Chain(HandedIdentities(handed + [h]))
    ensures ResultsComplete(n, counter, log) && IdentitiesAssigned(n, counter, identities, log)
    ensures HandedSafely(n, identities, handed + [h]) && NotSentIsTrue(handed + [h], log)
  {
    hide Chain, Lookup;
    assert forall k :: IsLive(n, k) <==> IsLive(l, k);
    assert forall k :: IsTerminal(n, k) <==> IsTerminal(l, k);
    assert forall x :: x in handed + [h] <==> x in handed || x == h;
    assert forall r :: r in log ==> r.id != id;
  }

  lemma LaunchedQueue(l: Ledger, n: Ledger, id: Id)
    requires Launches(l, n, id) && Distinct(l.queueIds)
    ensures QueueIdentities(l) == [l.records[id].admission.identity] + QueueIdentities(n)
  {
    forall i | 0 <= i < |n.queueIds| ensures IdentityAt(n, n.queueIds[i]) == IdentityAt(l, l.queueIds[i + 1]) {
      assert l.queueIds[i + 1] != l.queueIds[0];
    }
  }

  lemma HandLaunches(o: Owner, now: int, id: Id, enqueued: bool)
    requires Sound(o, []) && o.ledger.queueIds != [] && o.ledger.queueIds[0] == id && IsQueued(o.ledger, id)
    ensures var n := Hand(o, now, id, enqueued);
            && Valid(n.ledger, []) && Launches(o.ledger, n.ledger, id) && Distinct(o.ledger.queueIds)
            && n == o.(ledger := n.ledger, handed := n.handed)
  {
    StartSendingValid(o.ledger, id, now);
    hide Valid, Recorded;
  }

  lemma HandFits(o: Owner, n: Owner, now: int, id: Id, h: Handed)
    requires QueueFits(o) && o.authority.Open? && Timed(o, now, true)
    requires Launches(o.ledger, n.ledger, id) && Distinct(o.ledger.queueIds)
    requires n == o.(ledger := n.ledger, handed := o.handed + [h])
    requires h.identity == o.ledger.records[id].admission.identity
    requires n.ledger.records[id].stage == Sending(now)
    ensures QueueFits(n) && Timed(n, now, true) && Chain(HandedIdentities(n.handed))
  {
    hide Chain, Timed;
    LaunchedQueue(o.ledger, n.ledger, id);
    assert HandedIdentities(n.handed) == HandedIdentities(o.handed) + [h.identity];
    ChainMoves(HandedIdentities(o.handed), h.identity, QueueIdentities(n.ledger), [NextIdentity(o.authority)]);
    hide Launches, QueueIdentities, HandedIdentities;
    LaunchedTimed(o, n, now, id);
  }

  lemma ChainMoves(handed: seq<Identity>, x: Identity, queue: seq<Identity>, next: seq<Identity>)
    requires Chain(handed + ([x] + queue) + next)
    ensures Chain((handed + [x]) + queue + next) && Chain(handed + [x])
  {
    assert handed + ([x] + queue) + next == (handed + [x]) + (queue + next);
    assert (handed + [x]) + queue + next == (handed + [x]) + (queue + next);
    ChainPrefix(handed + [x], queue + next);
  }

  lemma LaunchedTimed(o: Owner, n: Owner, now: int, id: Id)
    requires Launches(o.ledger, n.ledger, id) && Timed(o, now, true) && n.ledger.records[id].stage == Sending(now)
    ensures Timed(n, now, true)
    ensures forall k :: IsQueued(n.ledger, k) ==>
              IsQueued(o.ledger, k) && n.ledger.records[k] == o.ledger.records[k]
  {
    assert Bounded(o.ledger.records[id], now) && NotDue(o.ledger.records[id], now);
    assert forall k :: IsLive(n.ledger, k) ==> IsLive(o.ledger, k);
  }

  lemma HandGood(o: Owner, now: int, id: Id, enqueued: bool)
    requires Good(o, now, true) && AtRest(o) && o.authority.Open?
    requires o.ledger.queueIds != [] && o.ledger.queueIds[0] == id && IsQueued(o.ledger, id)
    ensures var n := Hand(o, now, id, enqueued);
            && Good(n, now, true) && Grows(o, n) && Heard(o, n, {})
            && (forall k :: !IsConsumed(n.ledger, k) && (IsSending(n.ledger, k) ==> k == id))
            && (forall h :: h in n.handed && h.id == id ==> h.enqueued == enqueued)
  {
    hide NotSentIsTrue, QueueFits, Timed, IdentitiesUnique, ResultsComplete, IdentitiesAssigned, HandedSafely;
    var n := Hand(o, now, id, enqueued);
    var admission := o.ledger.records[id].admission;
    var h := Handed(id, admission.identity, admission.payload, enqueued);
    QueuedNotHanded(o, id);
    HandLaunches(o, now, id, enqueued);
    assert n.ledger.records[id].stage == Sending(now);
    hide Hand, Valid, Launches, ResultsComplete, IdentitiesAssigned, HandedSafely, NotSentIsTrue, QueueFits, Timed,
         IdentitiesUnique;
    assert n.handed == o.handed + [h] by { HandUnfolds(o, now, id, enqueued); }
    HandFits(o, n, now, id, h);
    LaunchedRecorded(o.ledger, n.ledger, id, o.counter, o.identities, o.handed, Log(o), h);
    assert Log(n) == Log(o);
    LaunchedTransient(o.ledger, n.ledger, id);
  }

  lemma HandUnfolds(o: Owner, now: int, id: Id, enqueued: bool)
    requires IsQueued(o.ledger, id)
    ensures Hand(o, now, id, enqueued).handed
         == o.handed + [Handed(id, o.ledger.records[id].admission.identity, o.ledger.records[id].admission.payload,
                               enqueued)]
  {
  }

  lemma LaunchedTransient(l: Ledger, n: Ledger, id: Id)
    requires Launches(l, n, id)
    ensures forall k :: IsConsumed(n, k) ==> IsConsumed(l, k)
    ensures forall k :: IsSending(n, k) && k != id ==> IsSending(l, k)
  {
  }

  /** The sender's answer moves the record on, whatever happened to it meanwhile. */
  lemma DecideGood(o: Owner, now: int, id: Id, decision: Decision, enqueued: bool)
    requires Good(o, now, true) && (decision.ProvenNotAccepted? ==> !enqueued)
    requires forall h :: h in o.handed && h.id == id ==> h.enqueued == enqueued
    ensures var n := Decide(o, now, id, decision);
            Good(n, now, true) && Steps(o, n) && !IsSending(n.ledger, id)
  {
    hide Sound, QueueFits, Steps, FinishAs, SealIdentityEpoch;
    if !IsSending(o.ledger, id) {
      StepsSame(o);
    } else {
      var r := o.ledger.records[id];
      var identity := r.admission.identity;
      match decision
      case Accepted =>
        var stage := Sent(r.stage.sendDecisionAtMs, now + MAX_SENT_AGE_MS);
        assert Bounded(r, now);
        RestageSound(o, now, true, id, stage);
      case ProvenNotAccepted =>
        var m := FinishAs(o, now, id, NotSent(TransportRejected));
        FinishAsGood(o, now, true, id, NotSent(TransportRejected));
        FinishedShrinks(o, now, id, NotSent(TransportRejected));
        FitsBelongs(m);
        SealedAfter(o, m, now, id, identity);
      case SendUncertain =>
        var m := BeginTerminationOf(o, id, TransportUncertain, now + MAX_TERMINATION_AGE_MS);
        FitsBelongs(o);
        BeginTerminationLoose(o, now, id, TransportUncertain);
        SealedAfter(o, m, now, id, identity);
    }
  }

  lemma SealedAfter(o: Owner, m: Owner, now: int, id: Id, identity: Identity)
    requires Sound(m, []) && QueueBelongs(m) && QueueFits(m) && Timed(m, now, true)
    requires Steps(o, m) && !IsSending(m.ledger, id)
    ensures var n := SealIdentityEpoch(m, now, identity, true);
            Good(n, now, true) && Steps(o, n) && !IsSending(n.ledger, id)
  {
    hide Sound, QueueFits, QueueBelongs, Timed, SealIdentityEpoch, Moves, Heard;
    SealIdentityGood(m, now, true, identity, true);
    MovesGrow(m, SealIdentityEpoch(m, now, identity, true));
    StepsOnward(o, m, SealIdentityEpoch(m, now, identity, true));
  }

  // ---- Draining ----

  lemma HeadFacts(o: Owner, now: int)
    requires Good(o, now, true) && o.ledger.queueIds != []
    ensures IsQueued(o.ledger, o.ledger.queueIds[0]) && HeadIsCurrent(o)
    ensures now < o.ledger.records[o.ledger.queueIds[0]].stage.deadlineAtMs
  {
    var id := o.ledger.queueIds[0];
    assert id in o.ledger.queueIds;
    assert IsQueued(o.ledger, id);
    assert NotDue(o.ledger.records[id], now);
  }

  ghost predicate OnlySends(o: Owner, id: Id) {
    forall k :: !IsConsumed(o.ledger, k) && (IsSending(o.ledger, k) ==> k == id)
  }

  ghost predicate HandedAs(o: Owner, id: Id, enqueued: bool) {
    forall h :: h in o.handed && h.id == id ==> h.enqueued == enqueued
  }

  lemma MovesRest(o: Owner, n: Owner, id: Id, enqueued: bool)
    requires Moves(o, n)
    ensures OnlySends(o, id) ==> OnlySends(n, id)
    ensures OnlySends(o, id) && !IsSending(n.ledger, id) ==> AtRest(n)
    ensures HandedAs(o, id, enqueued) ==> HandedAs(n, id, enqueued)
  {
  }

  /** One call of the sender, from the moment its record leaves the queue to the use of its answer. */
  lemma CallGood(o: Owner, now: int, turn: SenderTurn)
    requires Good(o, now, true) && AtRest(o) && Truthful([turn]) && o.ledger.queueIds != []
    ensures IsQueued(o.ledger, o.ledger.queueIds[0])
    ensures var id := o.ledger.queueIds[0];
            var n := Decide(ApplyAll(Hand(o, now, id, turn.enqueued), now, turn.ops), now, id, turn.decision);
            Good(n, now, true) && AtRest(n) && Grows(o, n) && Heard(o, n, OpsClaims(turn.ops))
  {
    hide Good, Hand, ApplyAll, Decide, Grows, Heard;
    HeadFacts(o, now);
    var id := o.ledger.queueIds[0];
    var o1 := Hand(o, now, id, turn.enqueued);
    HandGood(o, now, id, turn.enqueued);
    assert OnlySends(o1, id) && HandedAs(o1, id, turn.enqueued);
    assert turn in [turn];
    hide OnlySends, AtRest;
    AnswerGood(o, o1, now, id, turn);
  }

  lemma AnswerGood(o: Owner, o1: Owner, now: int, id: Id, turn: SenderTurn)
    requires Good(o1, now, true) && OnlySends(o1, id) && HandedAs(o1, id, turn.enqueued) && Grows(o, o1)
    requires Heard(o, o1, {})
    requires turn.decision.ProvenNotAccepted? ==> !turn.enqueued
    ensures var n := Decide(ApplyAll(o1, now, turn.ops), now, id, turn.decision);
            Good(n, now, true) && AtRest(n) && Grows(o, n) && Heard(o, n, OpsClaims(turn.ops))
  {
    var o2 := ApplyAll(o1, now, turn.ops);
    var n := Decide(o2, now, id, turn.decision);
    var claims := OpsClaims(turn.ops);
    hide Good, Moves, Heard, ApplyAll, Decide, Grows, OnlySends, AtRest, OpsClaims;
    ApplyAllGood(o1, now, turn.ops);
    MovesRest(o1, o2, id, turn.enqueued);
    DecideGood(o2, now, id, turn.decision, turn.enqueued);
    MovesRest(o2, n, id, turn.enqueued);
    MovesGrow(o1, o2);
    MovesGrow(o2, n);
    GrowsOnward(o, o1, o2);
    GrowsOnward(o, o2, n);
    HeardOnward(o, o1, o2, {}, claims, claims);
    HeardOnward(o, o2, n, claims, {}, claims);
  }

  function TurnsClaims(turns: seq<SenderTurn>): set<Claim> {
    if turns == [] then {} else OpsClaims(turns[0].ops) + TurnsClaims(turns[1..])
  }

  /** Whatever the sender does on the stack, draining ends at rest. The branches for a head that
      expired or belongs to another authority are never taken. */
  lemma {:induction false} DrainLoopGood(o: Owner, now: int, turns: seq<SenderTurn>)
    requires Good(o, now, true) && AtRest(o) && Truthful(turns)
    ensures var n := DrainLoop(o, now, turns);
            Good(n, now, true) && AtRest(n) && Grows(o, n) && Heard(o, n, TurnsClaims(turns))
    decreases |turns|, |o.ledger.queueIds|
  {
    hide Good;
    if o.ledger.queueIds == [] {
      StepsSame(o);
      HeardOnward(o, o, o, {}, {}, TurnsClaims(turns));
    } else {
      HeadFacts(o, now);
      var id := o.ledger.queueIds[0];
      var turn := if turns == [] then QUIET_TURN else turns[0];
      var rest := if turns == [] then [] else turns[1..];
      var next := Decide(ApplyAll(Hand(o, now, id, turn.enqueued), now, turn.ops), now, id, turn.decision);
      var claims := TurnsClaims(turns);
      assert Truthful([turn]) && Truthful(rest);
      assert OpsClaims(turn.ops) <= claims && TurnsClaims(rest) <= claims;
      DrainLoopTurns(o, now, turns);
      hide Good, AtRest, Hand, ApplyAll, Decide, Grows, DrainLoop, Truthful, Heard, OpsClaims, TurnsClaims;
      CallGood(o, now, turn);
      DrainLoopGood(next, now, rest);
      GrowsOnward(o, next, DrainLoop(next, now, rest));
      HeardOnward(o, next, DrainLoop(next, now, rest), OpsClaims(turn.ops), TurnsClaims(rest), claims);
    }
  }

  /** One round of the loop, given that its head may be sent. */
  lemma DrainLoopTurns(o: Owner, now: int, turns: seq<SenderTurn>)
    requires o.ledger.queueIds != [] && IsQueued(o.ledger, o.ledger.queueIds[0]) && HeadIsCurrent(o)
    requires now < o.ledger.records[o.ledger.queueIds[0]].stage.deadlineAtMs
    ensures var id := o.ledger.queueIds[0];
            var turn := if turns == [] then QUIET_TURN else turns[0];
            var rest := if turns == [] then [] else turns[1..];
            var next := Decide(ApplyAll(Hand(o, now, id, turn.enqueued), now, turn.ops), now, id, turn.decision);
            DrainLoop(o, now, turns) == DrainLoop(next, now, rest)
            && (turns == [] ==> |next.ledger.queueIds| < |o.ledger.queueIds|)
  {
    hide Decide, HeadIsCurrent;
  }

  lemma DrainingGood(o: Owner, n: Owner, now: int)
    requires n == o.(sendScheduled := n.sendScheduled, drainingQueue := n.drainingQueue) && Good(o, now, true)
    ensures Good(n, now, true) && Log(n) == Log(o)
  {
    assert Log(n) == Log(o);
  }

  /** Histories grew; whether the queue is being drained is not compared. */
  ghost predicate HistoriesGrow(o: Owner, n: Owner) {
    && o.counter <= n.counter
    && o.handed <= n.handed
    && Log(o) <= Log(n)
    && (forall id :: id in o.identities ==> id in n.identities && n.identities[id] == o.identities[id])
  }

  lemma DrainGood(o: Owner, now: int, turns: seq<SenderTurn>)
    requires Good(o, now, true) && AtRest(o) && !o.drainingQueue && Truthful(turns)
    ensures var n := Drain(o, now, turns);
            && Good(n, now, true) && AtRest(n) && !n.drainingQueue && HistoriesGrow(o, n)
            && Heard(o, n, TurnsClaims(turns))
  {
    var o1 := o.(sendScheduled := false, drainingQueue := true);
    var o2 := DrainLoop(o1, now, turns);
    var n := o2.(drainingQueue := false);
    hide Good, DrainLoop, Truthful, TurnsClaims;
    DrainingGood(o, o1, now);
    DrainLoopGood(o1, now, turns);
    DrainingGood(o2, n, now);
    hide Log;
  }

  // ---- Turns ----

  /** What holds between turns, the last of which was made at time t. */
  ghost predicate Inv(o: Owner, t: int) {
    && Good(o, t, true) && AtRest(o) && !o.drainingQueue
    && o.notifications == [] && o.deadlineAtMs == EarliestDeadline(o.ledger)
  }

  lemma AtRestAt(o: Owner, t: int, now: int)
    requires Good(o, t, true) && AtRest(o)
    ensures Good(o, now, false)
  {
    hide Sound, QueueFits;
    assert forall id :: IsLive(o.ledger, id) ==> !IsSending(o.ledger, id);
  }

  lemma PerformGood(o: Owner, now: int, op: Op, turns: seq<SenderTurn>)
    requires Good(o, now, true) && AtRest(o) && !o.drainingQueue && Truthful(turns)
    ensures var n := Perform(o, now, op, turns);
            && Good(n, now, true) && AtRest(n) && !n.drainingQueue && HistoriesGrow(o, n)
            && Heard(o, n, OpClaims(op) + TurnsClaims(turns))
  {
    var applied := Apply(o, now, op).0;
    var n := Perform(o, now, op, turns);
    var claims := OpClaims(op) + TurnsClaims(turns);
    hide Good, Apply, Drain, Heard, Moves, HistoriesGrow, OpClaims, TurnsClaims, AtRest;
    ApplyGood(o, now, op);
    MovesSettle(o, applied);
    if Apply(o, now, op).1 {
      DrainGood(applied, now, turns);
      HistoriesOnward(o, applied, n);
      HeardOnward(o, applied, n, OpClaims(op), TurnsClaims(turns), claims);
    } else {
      HeardOnward(o, applied, applied, OpClaims(op), OpClaims(op), claims);
    }
  }

  lemma ConcludeGood(o: Owner, now: int)
    requires Good(o, now, true)
    ensures Good(Conclude(o), now, true) && Log(Conclude(o)) == Log(o)
  {
    var n := Conclude(o);
    assert Log(n) == Log(o);
    hide EarliestDeadline;
  }

  lemma MovesSettle(o: Owner, n: Owner)
    requires Moves(o, n) && AtRest(o)
    ensures HistoriesGrow(o, n) && AtRest(n) && n.drainingQueue == o.drainingQueue
  {
  }

  lemma ConcludedRest(o: Owner, n: Owner)
    requires n.ledger == o.ledger && n.handed == o.handed && n.identities == o.identities && n.counter == o.counter
    requires Log(n) == Log(o)
    ensures AtRest(o) ==> AtRest(n)
    ensures HistoriesGrow(o, n)
    ensures forall m: Owner :: HistoriesGrow(m, o) ==> HistoriesGrow(m, n)
  {
  }

  lemma HistoriesOnward(o: Owner, m: Owner, n: Owner)
    requires HistoriesGrow(o, m) && HistoriesGrow(m, n)
    ensures HistoriesGrow(o, n)
  {
  }

  lemma PublishedGrow(o: Owner, n: Owner)
    requires HistoriesGrow(o, n) && Log(o) == o.published && Log(n) == n.published
    ensures o.published <= n.published
  {
  }

  /** Every outermost turn, whatever its sender does on the stack, ends with the whole invariant true
      and with the histories only extended; a certain result comes only from an acknowledgement or proof
      for its identity that the turn was given. */
  lemma TransactionGood(o: Owner, t: int, now: int, op: Op, turns: seq<SenderTurn>)
    requires Inv(o, t) && Truthful(turns)
    ensures var n := Transaction(o, now, op, turns);
            && Inv(n, now) && HistoriesGrow(o, n) && o.published <= n.published
            && Heard(o, n, OpClaims(op) + TurnsClaims(turns))
  {
    var o1 := ExpireDeadlines(o, now);
    var o2 := Perform(o1, now, op, turns);
    var claims := OpClaims(op) + TurnsClaims(turns);
    hide Good, ExpireDeadlines, Perform, EarliestDeadline, Moves, HistoriesGrow, AtRest, Heard, OpClaims, TurnsClaims;
    AtRestAt(o, t, now);
    ExpireGood(o, now);
    MovesSettle(o, o1);
    PerformGood(o1, now, op, turns);
    ConcludeGood(o2, now);
    var n := Conclude(o2);
    ConcludedRest(o2, n);
    HistoriesOnward(o, o1, n);
    assert Log(o) == o.published;
    assert Log(n) == n.published;
    PublishedGrow(o, n);
    HeardSame(o1, o2, n, claims);
    HeardOnward(o, o1, n, {}, claims, claims);
  }

  /** Before a turn concludes, its ledger is valid. */
  lemma PerformedGood(o: Owner, t: int, now: int, op: Op, turns: seq<SenderTurn>)
    requires Inv(o, t) && Truthful(turns)
    ensures Valid(Perform(ExpireDeadlines(o, now), now, op, turns).ledger, [])
  {
    var o1 := ExpireDeadlines(o, now);
    hide ExpireDeadlines, Perform, EarliestDeadline, Moves, Heard;
    AtRestAt(o, t, now);
    ExpireGood(o, now);
    hide Good;
    MovesSettle(o, o1);
    hide AtRest;
    PerformGood(o1, now, op, turns);
    GoodLedger(Perform(o1, now, op, turns), now);
  }

  lemma GoodLedger(o: Owner, now: int)
    requires Good(o, now, true)
    ensures Valid(o.ledger, [])
  {
  }

  lemma HeardSame(o: Owner, m: Owner, n: Owner, claims: set<Claim>)
    requires Heard(o, m, claims) && Log(n) == Log(m)
    ensures Heard(o, n, claims)
  {
  }

  datatype Turn = Turn(now: int, op: Op, senderTurns: seq<SenderTurn>)

  ghost predicate TruthfulRun(run: seq<Turn>) {
    forall turn :: turn in run ==> Truthful(turn.senderTurns)
  }

  function Run(o: Owner, run: seq<Turn>): Owner
    decreases |run|
  {
    if run == [] then o
    else
      var before := Run(o, run[..|run| - 1]);
      var last := run[|run| - 1];
      Transaction(before, last.now, last.op, last.senderTurns)
  }

  function LastTime(run: seq<Turn>): int {
    if run == [] then 0 else run[|run| - 1].now
  }

  lemma InitialInv(epoch: string, inlineSend: bool, t: int)
    ensures Inv(Initial(epoch, inlineSend), t)
  {
    var o := Initial(epoch, inlineSend);
    assert forall id :: !IsLive(o.ledger, id) && !IsTerminal(o.ledger, id);
    assert QueueIdentities(o.ledger) == [];
  }

  /** The owner's invariant holds after every run. */
  lemma {:induction false} RunKeepsInvariant(epoch: string, inlineSend: bool, run: seq<Turn>)
    requires TruthfulRun(run)
    ensures Inv(Run(Initial(epoch, inlineSend), run), LastTime(run))
    decreases |run|
  {
    hide Inv, Transaction;
    if run == [] {
      InitialInv(epoch, inlineSend, 0);
    } else {
      var last := run[|run| - 1];
      var earlier := run[..|run| - 1];
      assert TruthfulRun(earlier) && last in run;
      RunKeepsInvariant(epoch, inlineSend, earlier);
      TransactionGood(Run(Initial(epoch, inlineSend), earlier), LastTime(earlier), last.now, last.op, last.senderTurns);
    }
  }

  // ---- What the invariant means to a caller ----

  /** No consumed intent is lost and none ends twice: at the end of every run each one is either still
      in the ledger with a deadline ahead of the clock, or has exactly one published result. */
  lemma EveryIntentEndsOnce(epoch: string, inlineSend: bool, run: seq<Turn>, id: Id)
    requires TruthfulRun(run)
    requires 1 <= id <= Run(Initial(epoch, inlineSend), run).counter
    ensures var o := Run(Initial(epoch, inlineSend), run);
            && !o.faulted
            && (IsLive(o.ledger, id) <==> !HasResult(o.published, id))
            && (forall i, j ::
                  (0 <= i < |o.published| && 0 <= j < |o.published|
                   && o.published[i].id == id && o.published[j].id == id) ==> i == j)
  {
    RunKeepsInvariant(epoch, inlineSend, run);
    hide Run, Inv;
    InvEndsOnce(Run(Initial(epoch, inlineSend), run), LastTime(run), id);
  }

  lemma InvEndsOnce(o: Owner, t: int, id: Id)
    requires Inv(o, t) && 1 <= id <= o.counter
    ensures !o.faulted
    ensures IsLive(o.ledger, id) <==> !HasResult(o.published, id)
    ensures forall i, j ::
              (0 <= i < |o.published| && 0 <= j < |o.published|
               && o.published[i].id == id && o.published[j].id == id) ==> i == j
  {
    assert Log(o) == o.published;
    hide EarliestDeadline, Valid, IdentitiesAssigned, HandedSafely, NotSentIsTrue, IdentitiesUnique, QueueFits, Timed;
  }

  /** A published result is never changed or withdrawn by what follows. */
  lemma {:induction false} ResultsAreImmutable(epoch: string, inlineSend: bool, run: seq<Turn>, more: seq<Turn>)
    requires TruthfulRun(run + more)
    ensures Run(Initial(epoch, inlineSend), run).published <= Run(Initial(epoch, inlineSend), run + more).published
    decreases |more|
  {
    if more == [] {
      assert run + more == run;
    } else {
      var last := more[|more| - 1];
      var shorter := more[..|more| - 1];
      assert run + more == (run + shorter) + [last];
      TruthfulSplit(run + shorter, last);
      RunOneMore(Initial(epoch, inlineSend), run + shorter, last);
      hide Inv, Transaction, Run, TruthfulRun, Truthful;
      ResultsAreImmutable(epoch, inlineSend, run, shorter);
      RunKeepsInvariant(epoch, inlineSend, run + shorter);
      TransactionGood(Run(Initial(epoch, inlineSend), run + shorter), LastTime(run + shorter), last.now, last.op,
                      last.senderTurns);
    }
  }

  lemma TruthfulSplit(run: seq<Turn>, last: Turn)
    requires TruthfulRun(run + [last])
    ensures TruthfulRun(run) && Truthful(last.senderTurns)
  {
    assert last in run + [last];
    hide Truthful;
  }

  lemma RunOneMore(o: Owner, run: seq<Turn>, last: Turn)
    ensures Run(o, run + [last]) == Transaction(Run(o, run), last.now, last.op, last.senderTurns)
  {
    assert (run + [last])[..|run|] == run;
    hide Transaction;
  }

  /** However late timers fire, at the end of every turn an intent that is still open was consumed less
      than 35.5 seconds before, it is not past its own deadline, and the armed deadline is the earliest
      of them all. */
  lemma UncertaintyIsBounded(epoch: string, inlineSend: bool, run: seq<Turn>, id: Id)
    requires TruthfulRun(run) && run != []
    requires IsLive(Run(Initial(epoch, inlineSend), run).ledger, id)
    ensures var o := Run(Initial(epoch, inlineSend), run);
            var r := o.ledger.records[id];
            && LastTime(run) < r.consumedAtMs + 35500
            && DueAt(r).Some? && LastTime(run) < DueAt(r).value
            && o.deadlineAtMs.Some? && o.deadlineAtMs.value <= DueAt(r).value
  {
    hide Run;
    RunKeepsInvariant(epoch, inlineSend, run);
    var o := Run(Initial(epoch, inlineSend), run);
    EarliestDeadlineIsLeast(o.ledger);
    var r := o.ledger.records[id];
    assert !IsConsumed(o.ledger, id) && !IsSending(o.ledger, id);
    assert Bounded(r, LastTime(run)) && NotDue(r, LastTime(run));
  }

  lemma {:induction false} ChainAscends(s: seq<Identity>, i: nat, j: nat)
    requires Chain(s) && i < j < |s|
    ensures Before(s[i], s[j])
    ensures s[i].writerFence == s[j].writerFence ==>
              s[i].inputEpoch == s[j].inputEpoch && s[j].clientInputSeq == s[i].clientInputSeq + (j - i)
    decreases j
  {
    assert Succeeds(s[j - 1], s[j]);
    if i < j - 1 { ChainAscends(s, i, j - 1); }
  }

  lemma {:induction false} ChainCountsDown(s: seq<Identity>, j: nat, back: nat)
    requires Chain(s) && j < |s| && back < s[j].clientInputSeq
    ensures back <= j && s[j - back] == Identity(s[j].writerFence, s[j].inputEpoch, s[j].clientInputSeq - back)
    decreases back
  {
    if back > 0 {
      ChainCountsDown(s, j, back - 1);
      var k := j - (back - 1);
      if k > 0 { assert Succeeds(s[k - 1], s[k]); }
    }
  }

  /** Up to position j of its log the sender was called with 1, 2, ..., k of one epoch, k being the
      number of call j, and neither that identity nor that intent occurs in another call. */
  ghost predicate CountsUpTo(handed: seq<Handed>, j: nat)
    requires j < |handed|
  {
    var x := handed[j].identity;
    && 1 <= x.clientInputSeq <= j + 1
    && (forall n :: 1 <= n <= x.clientInputSeq ==>
          handed[j - (x.clientInputSeq - n)].identity == Identity(x.writerFence, x.inputEpoch, n))
    && (forall i :: 0 <= i < |handed| && handed[i].identity == x ==> i == j)
    && (forall i :: 0 <= i < |handed| && handed[i].id == handed[j].id ==> i == j)
  }

  lemma ChainCountsUp(handed: seq<Handed>, j: nat)
    requires j < |handed| && Chain(HandedIdentities(handed))
    requires forall i, j :: 0 <= i < |handed| && 0 <= j < |handed| && handed[i].id == handed[j].id ==>
               handed[i].identity == handed[j].identity
    ensures CountsUpTo(handed, j)
  {
    var s := HandedIdentities(handed);
    var x := s[j];
    NumbersArePositive(s, j);
    ChainCountsDown(s, j, x.clientInputSeq - 1);
    forall n | 1 <= n <= x.clientInputSeq
      ensures handed[j - (x.clientInputSeq - n)].identity == Identity(x.writerFence, x.inputEpoch, n)
    {
      ChainCountsDown(s, j, x.clientInputSeq - n);
    }
    forall i | 0 <= i < |s| && i != j ensures s[i] != x {
      if i < j { ChainAscends(s, i, j); } else { ChainAscends(s, j, i); }
    }
  }

  /** Within one writer fence and epoch the sender is called with exactly 1, 2, ..., k in that order,
      and at most once for an intent or an identity. */
  lemma EpochPrefix(epoch: string, inlineSend: bool, run: seq<Turn>, j: nat)
    requires TruthfulRun(run) && j < |Run(Initial(epoch, inlineSend), run).handed|
    ensures CountsUpTo(Run(Initial(epoch, inlineSend), run).handed, j)
  {
    hide Run, Inv, CountsUpTo, Chain;
    RunKeepsInvariant(epoch, inlineSend, run);
    var o := Run(Initial(epoch, inlineSend), run);
    InvHanded(o, LastTime(run));
    ChainCountsUp(o.handed, j);
  }

  lemma InvHanded(o: Owner, t: int)
    requires Inv(o, t)
    ensures Chain(HandedIdentities(o.handed))
    ensures forall i, j :: 0 <= i < |o.handed| && 0 <= j < |o.handed| && o.handed[i].id == o.handed[j].id ==>
              o.handed[i].identity == o.handed[j].identity
  {
    assert forall i :: 0 <= i < |o.handed| ==> o.handed[i] in o.handed;
    hide Chain;
  }

  lemma {:induction false} NumbersArePositive(s: seq<Identity>, j: nat)
    requires Chain(s) && j < |s|
    ensures s[j].clientInputSeq >= 1
  {
    if j > 0 {
      NumbersArePositive(s, j - 1);
      assert Succeeds(s[j - 1], s[j]);
    }
  }

  /** Two intents never share an identity, over the whole life of the owner. */
  lemma IdentitiesAreUnique(epoch: string, inlineSend: bool, run: seq<Turn>, r1: InputResult, r2: InputResult)
    requires TruthfulRun(run)
    requires r1 in Run(Initial(epoch, inlineSend), run).published
    requires r2 in Run(Initial(epoch, inlineSend), run).published
    requires r1.identity.Some? && r1.identity == r2.identity
    ensures r1 == r2
  {
    hide Run, EarliestDeadline;
    RunKeepsInvariant(epoch, inlineSend, run);
    var o := Run(Initial(epoch, inlineSend), run);
    assert Log(o) == o.published;
    assert r1.id == r2.id;
    var i :| 0 <= i < |o.published| && o.published[i] == r1;
    var j :| 0 <= j < |o.published| && o.published[j] == r2;
  }
}
