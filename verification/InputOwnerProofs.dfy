/** What every turn of the input owner keeps, over every run. */
module InputOwnerProofs {
  import opened Collections
  import opened InputAuthority
  import opened IntentLedgers
  import opened InputOwner

  // ---- Histories ----

  /** x may directly follow p among the identities handed to the sender: either the next number of
      the same epoch, or number 1 under a higher fence. */
  predicate Succeeds(p: Identity, x: Identity) {
    || (p.writerFence < x.writerFence && x.clientInputSeq == 1)
    || (p.writerFence == x.writerFence && p.inputEpoch == x.inputEpoch
        && x.clientInputSeq == p.clientInputSeq + 1)
  }

  ghost predicate Chain(s: seq<Identity>) {
    && (s != [] ==> s[0].clientInputSeq == 1)
    && forall i :: 0 < i < |s| ==> Succeeds(s[i - 1], s[i])
  }

  function HandedIdentities(handed: seq<Handed>): (r: seq<Identity>)
    ensures |r| == |handed| && forall i :: 0 <= i < |r| ==> r[i] == handed[i].identity
  {
    seq(|handed|, i requires 0 <= i < |handed| => handed[i].identity)
  }

  function IdentityAt(l: Ledger, id: Id): Identity {
    if IsActive(l, id) then l.records[id].admission.identity else Identity(0, "", 0)
  }

  function QueueIdentities(l: Ledger): (r: seq<Identity>)
    ensures |r| == |l.queueIds|
    ensures forall i :: 0 <= i < |r| ==> r[i] == IdentityAt(l, l.queueIds[i])
  {
    seq(|l.queueIds|, i requires 0 <= i < |l.queueIds| => IdentityAt(l, l.queueIds[i]))
  }

  function Log(o: Owner): seq<InputResult> { o.published + o.notifications }

  function Lookup(identities: map<Id, Identity>, id: Id): Option<Identity> {
    if id in identities then Some(identities[id]) else None
  }

  ghost predicate HasResult(log: seq<InputResult>, id: Id) {
    exists r :: r in log && r.id == id
  }

  lemma ChainAppend(s: seq<Identity>, x: Identity)
    requires Chain(s)
    requires if s == [] then x.clientInputSeq == 1 else Succeeds(s[|s| - 1], x)
    ensures Chain(s + [x])
  {
  }

  lemma ChainPrefix(s: seq<Identity>, t: seq<Identity>)
    requires Chain(s + t)
    ensures Chain(s)
  {
    forall i | 0 < i < |s| ensures Succeeds(s[i - 1], s[i]) {
      assert (s + t)[i] == s[i] && (s + t)[i - 1] == s[i - 1];
    }
    assert s != [] ==> (s + t)[0] == s[0];
  }

  // ---- The invariant ----

  /** Every id ever given out is either live or has exactly one result, and never both. */
  ghost predicate ResultsComplete(l: Ledger, counter: nat, log: seq<InputResult>) {
    && (forall id :: id in l.records ==> 1 <= id <= counter)
    && (forall i, j :: 0 <= i < j < |log| ==> log[i].id != log[j].id)
    && (forall r :: r in log ==> 1 <= r.id <= counter && !IsLive(l, r.id))
    && (forall id :: 1 <= id <= counter && !IsLive(l, id) ==> HasResult(log, id))
    && (forall id :: IsTerminal(l, id) ==> l.records[id].result in log)
  }

  /** No identity is given out twice. */
  ghost predicate IdentitiesUnique(a: AuthorityState, identities: map<Id, Identity>) {
    && (forall id :: id in identities ==> 0 < identities[id].writerFence <= a.highestWriterFence)
    && (a.Open? ==> forall id :: id in identities ==> Before(identities[id], NextIdentity(a)))
    && (forall i, j :: i in identities && j in identities && identities[i] == identities[j] ==> i == j)
  }

  /** What carries an identity agrees on it. */
  ghost predicate IdentitiesAssigned(l: Ledger, counter: nat, identities: map<Id, Identity>, log: seq<InputResult>) {
    && (forall id :: id in identities ==> 1 <= id <= counter && !IsPre(l, id) && !IsConsumed(l, id))
    && (forall id :: IsActive(l, id) ==> id in identities && identities[id] == l.records[id].admission.identity)
    && (forall r :: r in log ==> r.identity == Lookup(identities, r.id))
  }

  /** The sender was called with gapless numbers and with the payload of the intent, and nothing
      handed out is still queued. */
  ghost predicate HandedSafely(l: Ledger, identities: map<Id, Identity>, handed: seq<Handed>) {
    && Chain(HandedIdentities(handed))
    && (forall h :: h in handed ==> h.id in identities && identities[h.id] == h.identity)
    && (forall h :: h in handed ==> !IsQueued(l, h.id))
    && (forall h :: h in handed && IsActive(l, h.id) ==> l.records[h.id].admission.payload == h.payload)
  }

  /** An intent reported as not sent put nothing into the channel. */
  ghost predicate NotSentIsTrue(handed: seq<Handed>, log: seq<InputResult>) {
    forall h, r :: h in handed && r in log && h.id == r.id && r.outcome.NotSent? ==> !h.enqueued
  }

  /** What the histories say of the records. */
  ghost predicate Recorded(o: Owner) {
    && ResultsComplete(o.ledger, o.counter, Log(o))
    && IdentitiesAssigned(o.ledger, o.counter, o.identities, Log(o))
    && HandedSafely(o.ledger, o.identities, o.handed)
  }

  /** What holds at every point of a turn. */
  ghost predicate Sound(o: Owner, taken: seq<Id>) {
    && !o.faulted
    && Valid(o.ledger, taken)
    && Consistent(o.authority)
    && IdentitiesUnique(o.authority, o.identities)
    && NotSentIsTrue(o.handed, Log(o))
    && Recorded(o)
  }

  /** Queued work belongs to the epoch the authority has. */
  ghost predicate QueueBelongs(o: Owner) {
    forall id :: IsQueued(o.ledger, id) ==> Belongs(o.authority, o.ledger.records[id].admission.identity)
  }

  /** While writing is open the queue continues what was handed out, up to the next identity;
      otherwise it is empty. */
  ghost predicate QueueFits(o: Owner) {
    && (!o.authority.Open? ==> o.ledger.queueIds == [])
    && (o.authority.Open? ==>
          && Chain(HandedIdentities(o.handed) + QueueIdentities(o.ledger) + [NextIdentity(o.authority)])
          && forall id :: IsQueued(o.ledger, id) ==>
               && Belongs(o.authority, o.ledger.records[id].admission.identity)
               && o.ledger.records[id].admission.transportGeneration == o.authority.transport.generation)
  }

  /** How long each phase may last, measured from the one before it. */
  predicate Bounded(r: Record, now: int) {
    r.Active? ==>
      && r.admission.admittedAtMs < r.consumedAtMs + MAX_PRE_ADMISSION_AGE_MS
      && match r.stage
         case Queued(deadline) => deadline == r.admission.admittedAtMs + MAX_QUEUED_AGE_MS
         case Sending(decided) => decided == now && decided < r.admission.admittedAtMs + MAX_QUEUED_AGE_MS
         case Sent(decided, deadline) =>
           decided < r.admission.admittedAtMs + MAX_QUEUED_AGE_MS && deadline == decided + MAX_SENT_AGE_MS
         case Terminating(decided, deadline, _) =>
           && decided < r.admission.admittedAtMs + MAX_QUEUED_AGE_MS
           && deadline <= decided + MAX_SENT_AGE_MS + MAX_TERMINATION_AGE_MS
  }

  predicate NotDue(r: Record, now: int) {
    DueAt(r).Some? ==> now < DueAt(r).value
  }

  /** Every record is within its bounds and, once the turn has caught up with the clock, not yet due. */
  ghost predicate Timed(o: Owner, now: int, caughtUp: bool) {
    forall id :: IsLive(o.ledger, id) ==>
      Bounded(o.ledger.records[id], now) && (caughtUp ==> NotDue(o.ledger.records[id], now))
  }

  /** No record is caught between two phases. */
  ghost predicate AtRest(o: Owner) {
    forall id :: !IsConsumed(o.ledger, id) && !IsSending(o.ledger, id)
  }

  /** What an acknowledgement or a proof says of an identity. */
  datatype Claim = Claim(identity: Identity, result: AckResult)

  predicate Backed(r: InputResult, claims: set<Claim>) {
    r.outcome.Deterministic? ==> r.identity.Some? && Claim(r.identity.value, r.outcome.result) in claims
  }

  /** Every result that n added to o and that claims to be certain repeats one of `claims`. */
  ghost predicate Heard(o: Owner, n: Owner, claims: set<Claim>) {
    forall r :: r in Log(n) ==> r in Log(o) || Backed(r, claims)
  }

  /** How an operation inside a turn moves on: results only get added, nothing is handed to the sender,
      and no record enters a phase that must not outlive its turn. */
  ghost predicate Moves(o: Owner, n: Owner) {
    && o.counter <= n.counter
    && n.handed == o.handed
    && Log(o) <= Log(n)
    && (forall id :: id in o.identities ==> id in n.identities && n.identities[id] == o.identities[id])
    && (forall id :: IsConsumed(n.ledger, id) ==> IsConsumed(o.ledger, id))
    && (forall id :: IsSending(n.ledger, id) ==> IsSending(o.ledger, id))
    && n.inlineSend == o.inlineSend && n.drainingQueue == o.drainingQueue
  }

  /** Such a move that ends no intent with certainty. */
  ghost predicate Steps(o: Owner, n: Owner) {
    Moves(o, n) && Heard(o, n, {})
  }

  // ---- Ending an intent ----

  ghost predicate FinishedFrom(o: Owner, n: Owner, id: Id) {
    && n == o.(ledger := n.ledger, notifications := n.notifications)
    && !IsLive(n.ledger, id)
    && n.ledger.queueIds == Without(o.ledger.queueIds, id)
    && n.ledger.preIds == Without(o.ledger.preIds, id)
    && (forall k :: k != id && IsLive(o.ledger, k) ==> IsLive(n.ledger, k))
    && (forall k :: IsLive(n.ledger, k) ==> IsLive(o.ledger, k) && n.ledger.records[k] == o.ledger.records[k])
  }

  /** The plain effect of finishing a live record on the parts of the state. */
  lemma FinishAsFrame(o: Owner, taken: seq<Id>, now: int, id: Id, outcome: Outcome)
    requires Valid(o.ledger, taken) && IsLive(o.ledger, id)
    ensures var n := FinishAs(o, now, id, outcome);
            var r := ResultOf(o.ledger, id, now, outcome);
            && FinishedFrom(o, n, id)
            && n.notifications == o.notifications + [r]
            && (forall k :: k in n.ledger.records ==> k in o.ledger.records)
            && (forall k :: IsTerminal(n.ledger, k) ==>
                  (n.ledger.records[k].result == r
                   || (IsTerminal(o.ledger, k) && n.ledger.records[k] == o.ledger.records[k])))
  {
    var r := ResultOf(o.ledger, id, now, outcome);
    hide Valid;
    FinishFrame(o.ledger, taken, id, r);
    FinishQueues(o.ledger, taken, id, r);
    hide Finish, Deindex;
  }

  lemma OneMoreResult(o: Owner, n: Owner, id: Id, r: InputResult)
    requires ResultsComplete(o.ledger, o.counter, Log(o)) && IsLive(o.ledger, id) && r.id == id
    requires FinishedFrom(o, n, id)
    requires forall k :: k in n.ledger.records ==> k in o.ledger.records
    requires forall k :: IsTerminal(n.ledger, k) ==>
               (n.ledger.records[k].result == r
                || (IsTerminal(o.ledger, k) && n.ledger.records[k] == o.ledger.records[k]))
    ensures ResultsComplete(n.ledger, n.counter, Log(o) + [r])
  {
    var log := Log(o) + [r];
    assert forall x :: x in log <==> x in Log(o) || x == r;
    forall i | 0 <= i < |Log(o)| ensures Log(o)[i].id != id {
      assert Log(o)[i] in Log(o);
    }
    forall k | 1 <= k <= n.counter && !IsLive(n.ledger, k) ensures HasResult(log, k) {
      if k == id { assert r in log; }
      else {
        assert !IsLive(o.ledger, k);
        var x :| x in Log(o) && x.id == k;
        assert x in log;
      }
    }
  }

  lemma OneMoreSafe(o: Owner, n: Owner, id: Id, r: InputResult)
    requires IsLive(o.ledger, id) && FinishedFrom(o, n, id)
    requires IdentitiesAssigned(o.ledger, o.counter, o.identities, Log(o))
    requires HandedSafely(o.ledger, o.identities, o.handed) && NotSentIsTrue(o.handed, Log(o))
    requires r.id == id && r.identity == Lookup(o.identities, id)
    requires r.outcome.NotSent? ==> forall h :: h in o.handed && h.id == id ==> !h.enqueued
    ensures IdentitiesAssigned(n.ledger, o.counter, o.identities, Log(o) + [r])
    ensures HandedSafely(n.ledger, o.identities, o.handed) && NotSentIsTrue(o.handed, Log(o) + [r])
  {
    assert forall x :: x in Log(o) + [r] <==> x in Log(o) || x == r;
  }

  lemma FinishAsSound(o: Owner, taken: seq<Id>, now: int, id: Id, outcome: Outcome)
    requires Sound(o, taken)
    requires outcome.NotSent? ==> forall h :: h in o.handed && h.id == id ==> !h.enqueued
    ensures Sound(FinishAs(o, now, id, outcome), Without(taken, id))
    ensures Moves(o, FinishAs(o, now, id, outcome))
    ensures FinishedFrom(o, FinishAs(o, now, id, outcome), id)
    ensures !outcome.Deterministic? ==> Steps(o, FinishAs(o, now, id, outcome))
    ensures IsLive(o.ledger, id) ==>
              FinishAs(o, now, id, outcome).notifications == o.notifications + [ResultOf(o.ledger, id, now, outcome)]
  {
    if !IsLive(o.ledger, id) {
      assert !IsPre(o.ledger, id) && !IsQueued(o.ledger, id);
      WithoutAbsent(taken, id);
      WithoutAbsent(o.ledger.queueIds, id);
      WithoutAbsent(o.ledger.preIds, id);
    } else {
      var n := FinishAs(o, now, id, outcome);
      var r := ResultOf(o.ledger, id, now, outcome);
      assert r.identity == Lookup(o.identities, id);
      FinishValid(o.ledger, taken, id, r);
      FinishAsFrame(o, taken, now, id, outcome);
      FinishedExtends(o, n, id, r);
      OneMoreResult(o, n, id, r);
      OneMoreSafe(o, n, id, r);
    }
  }

  lemma FinishedExtends(o: Owner, n: Owner, id: Id, r: InputResult)
    requires FinishedFrom(o, n, id) && n.notifications == o.notifications + [r]
    ensures Log(n) == Log(o) + [r] && Moves(o, n)
    ensures !r.outcome.Deterministic? ==> Steps(o, n)
  {
    assert Log(n) == Log(o) + [r];
    assert forall x :: x in Log(n) <==> x in Log(o) || x == r;
  }

  // ---- Finishing several ----

  /** Finishing leaves every record that is still live as it was, and the authority alone. */
  ghost predicate Shrinks(o: Owner, n: Owner) {
    && Steps(o, n)
    && n == o.(ledger := n.ledger, notifications := n.notifications)
    && (forall k :: IsLive(n.ledger, k) ==> IsLive(o.ledger, k) && n.ledger.records[k] == o.ledger.records[k])
  }

  lemma ShrinkingKeeps(o: Owner, n: Owner, now: int, caughtUp: bool)
    requires Shrinks(o, n)
    ensures QueueBelongs(o) ==> QueueBelongs(n)
    ensures Timed(o, now, caughtUp) ==> Timed(n, now, caughtUp)
  {
  }

  lemma {:induction false} FinishEachSound(o: Owner, taken: seq<Id>, now: int, ids: seq<Id>, outcome: Outcome)
    requires Sound(o, taken) && (taken == ids || taken == []) && !outcome.Deterministic?
    requires forall h :: h in o.handed ==> h.id !in ids
    ensures var n := FinishEach(o, now, ids, outcome);
            Sound(n, []) && Shrinks(o, n) && forall id :: id in ids ==> !IsLive(n.ledger, id)
    decreases |ids|
  {
    hide Valid, Consistent, IdentitiesUnique, NotSentIsTrue, Recorded, FinishAs;
    if ids != [] {
      var next := FinishAs(o, now, ids[0], outcome);
      FinishAsSound(o, taken, now, ids[0], outcome);
      FinishEachSound(next, if taken == [] then [] else ids[1..], now, ids[1..], outcome);
    }
  }

  lemma TakeSound(o: Owner)
    requires Sound(o, [])
    ensures var n := o.(ledger := TakePreAdmission(o.ledger)); Sound(n, o.ledger.preIds) && Shrinks(o, n)
  {
    var n := o.(ledger := TakePreAdmission(o.ledger));
    TakeValid(o.ledger);
    assert Log(n) == Log(o);
    SameRecords(o, n);
  }

  lemma SameRecords(o: Owner, n: Owner)
    requires n == o.(ledger := n.ledger) && n.ledger.records == o.ledger.records
    requires Recorded(o)
    ensures Recorded(n) && Steps(o, n) && Log(n) == Log(o)
  {
    assert Log(n) == Log(o);
    assert forall k :: (IsLive(n.ledger, k) <==> IsLive(o.ledger, k)) && (IsPre(n.ledger, k) <==> IsPre(o.ledger, k));
  }

  lemma SettlePreSound(o: Owner, now: int, reason: NotSentReason)
    requires Sound(o, [])
    ensures var n := SettlePreAdmission(o, now, reason); Sound(n, []) && Shrinks(o, n)
  {
    var o1 := o.(ledger := TakePreAdmission(o.ledger));
    TakeSound(o);
    forall h | h in o.handed ensures h.id !in o.ledger.preIds {
      assert !IsPre(o.ledger, h.id);
    }
    FinishEachSound(o1, o.ledger.preIds, now, o.ledger.preIds, NotSent(reason));
  }

  lemma SettleQueuedSound(o: Owner, now: int, reason: NotSentReason)
    requires Sound(o, [])
    ensures var n := SettleQueued(o, now, reason); Sound(n, []) && Shrinks(o, n) && n.ledger.queueIds == []
  {
    var n := SettleQueued(o, now, reason);
    Indexed(o);
    forall h | h in o.handed ensures h.id !in o.ledger.queueIds {
      assert !IsQueued(o.ledger, h.id);
    }
    FinishEachSound(o, [], now, o.ledger.queueIds, NotSent(reason));
    hide Sound, FinishEach;
    forall k ensures !IsQueued(n.ledger, k) {
      if IsQueued(n.ledger, k) { ShrinksQueue(o, n, k); }
    }
    NoneQueued(n);
  }

  lemma NoneQueued(o: Owner)
    requires Sound(o, []) && forall id :: !IsQueued(o.ledger, id)
    ensures o.ledger.queueIds == []
  {
    EmptyOrInhabited(o.ledger.queueIds);
  }

  // ---- Sealing ----

  lemma ShrinksOnward(o: Owner, m: Owner, n: Owner)
    requires Shrinks(o, m) && Shrinks(m, n)
    ensures Shrinks(o, n)
  {
  }

  lemma ShrinksSame(o: Owner)
    ensures Shrinks(o, o)
  {
  }

  lemma ShrinksQueue(o: Owner, n: Owner, id: Id)
    requires Shrinks(o, n) && IsQueued(n.ledger, id)
    ensures IsQueued(o.ledger, id)
  {
  }

  lemma FinishedShrinks(o: Owner, now: int, id: Id, outcome: Outcome)
    requires Sound(o, []) && !outcome.Deterministic?
    requires outcome.NotSent? ==> forall h :: h in o.handed && h.id == id ==> !h.enqueued
    ensures var n := FinishAs(o, now, id, outcome); Sound(n, []) && Shrinks(o, n) && !IsLive(n.ledger, id)
  {
    FinishAsSound(o, [], now, id, outcome);
  }

  lemma QueuedNotHanded(o: Owner, id: Id)
    requires Sound(o, []) && IsQueued(o.ledger, id)
    ensures forall h :: h in o.handed ==> h.id != id
  {
  }

  lemma {:induction false} FinishEpochSound(o: Owner, now: int, ids: seq<Id>, epoch: EpochState)
    requires Sound(o, []) && QueueBelongs(o) && EpochOf(o.authority) == Some(epoch)
    ensures var n := FinishEpoch(o, now, ids, epoch);
            Sound(n, []) && Shrinks(o, n) && forall id :: id in ids ==> !IsQueued(n.ledger, id)
    decreases |ids|
  {
    hide Sound, Shrinks, FinishAs, QueueBelongs;
    ShrinksSame(o);
    if ids != [] {
      var id := ids[0];
      var next := FinishEpoch(o, now, [id], epoch);
      FinishEpochHead(o, now, ids, epoch);
      hide FinishEpoch;
      ShrinksKeeps(o, next);
      FinishEpochSound(next, now, ids[1..], epoch);
      var n := FinishEpoch(next, now, ids[1..], epoch);
      ShrinksOnward(o, next, n);
      if IsQueued(n.ledger, id) { ShrinksQueue(next, n, id); }
      assert forall k :: k in ids ==> k == id || k in ids[1..];
    }
  }

  lemma ShrinksKeeps(o: Owner, n: Owner)
    requires Shrinks(o, n) && QueueBelongs(o)
    ensures QueueBelongs(n) && n.authority == o.authority
  {
  }

  lemma FinishEpochHead(o: Owner, now: int, ids: seq<Id>, epoch: EpochState)
    requires Sound(o, []) && QueueBelongs(o) && EpochOf(o.authority) == Some(epoch) && ids != []
    ensures var next := FinishEpoch(o, now, [ids[0]], epoch);
            && FinishEpoch(o, now, ids, epoch) == FinishEpoch(next, now, ids[1..], epoch)
            && Sound(next, []) && Shrinks(o, next) && !IsQueued(next.ledger, ids[0])
  {
    hide Sound, Shrinks, FinishAs;
    var id := ids[0];
    ShrinksSame(o);
    if IsQueued(o.ledger, id) {
      assert Belongs(o.authority, o.ledger.records[id].admission.identity);
      QueuedNotHanded(o, id);
      FinishedShrinks(o, now, id, NotSent(EpochSealed));
    }
  }

  /** A change of authority that neither reopens writing nor lowers the fence keeps everything else. */
  lemma ReauthorizeSound(o: Owner, a: AuthorityState)
    requires Sound(o, []) && Consistent(a) && !a.Open? && a.highestWriterFence >= o.authority.highestWriterFence
    ensures Sound(o.(authority := a), []) && Steps(o, o.(authority := a))
  {
    var n := o.(authority := a);
    assert Log(n) == Log(o);
  }

  /** o moved on to n by a change of authority and by finishing records. */
  ghost predicate Closes(o: Owner, n: Owner) {
    && Steps(o, n)
    && n == o.(ledger := n.ledger, authority := n.authority, notifications := n.notifications)
    && (forall k :: IsLive(n.ledger, k) ==> IsLive(o.ledger, k) && n.ledger.records[k] == o.ledger.records[k])
  }

  lemma SealEpochSound(o: Owner, now: int, epoch: EpochState, sealing: AuthorityState)
    requires Sound(o, []) && QueueBelongs(o)
    requires Consistent(sealing) && !sealing.Open? && EpochOf(sealing) == EpochOf(o.authority) == Some(epoch)
    requires sealing.highestWriterFence >= o.authority.highestWriterFence
    ensures var n := FinishEpoch(o.(authority := sealing), now, o.ledger.queueIds, epoch);
            Sound(n, []) && Closes(o, n) && n.authority == sealing && n.ledger.queueIds == []
  {
    hide IdentitiesUnique, NotSentIsTrue, Recorded, FinishEpoch, Steps;
    var o1 := o.(authority := sealing);
    ReauthorizeSound(o, sealing);
    assert QueueBelongs(o1);
    var n := FinishEpoch(o1, now, o.ledger.queueIds, epoch);
    FinishEpochSound(o1, now, o.ledger.queueIds, epoch);
    assert forall k :: IsQueued(o.ledger, k) ==> k in o.ledger.queueIds;
    hide Sound, FinishEpoch;
    forall k ensures !IsQueued(n.ledger, k) {
      if IsQueued(n.ledger, k) { ShrinksQueue(o1, n, k); }
    }
    NoneQueued(n);
    StepsOnward(o, o1, n);
  }

  lemma SealActiveSound(o: Owner, now: int, requireReplacement: bool)
    requires Sound(o, []) && QueueBelongs(o)
    ensures var n := SealActiveEpoch(o, now, requireReplacement);
            Sound(n, []) && Closes(o, n) && n.ledger.queueIds == [] && !n.authority.Open?
  {
    match EpochOf(o.authority) {
      case None =>
        NoneQueued(o);
        assert Closes(o, o);
      case Some(epoch) =>
        SealEpochSound(o, now, epoch,
                       Seal(o.authority, if requireReplacement then ReplacementRequired else TransportReplaced));
    }
  }

  lemma StepsOnward(o: Owner, m: Owner, n: Owner)
    requires Steps(o, m) && Steps(m, n)
    ensures Steps(o, n)
  {
  }

  // ---- Good states ----

  /** What holds between the operations of one turn, before and after the clock is caught up with. */
  ghost predicate Good(o: Owner, now: int, caughtUp: bool) {
    Sound(o, []) && QueueFits(o) && Timed(o, now, caughtUp)
  }

  lemma FitsBelongs(o: Owner)
    requires Sound(o, []) && QueueFits(o)
    ensures QueueBelongs(o)
  {
    forall id | IsQueued(o.ledger, id) ensures o.authority.Open? {
      assert id in o.ledger.queueIds;
    }
  }

  lemma SealActiveGood(o: Owner, now: int, caughtUp: bool, requireReplacement: bool)
    requires Sound(o, []) && QueueBelongs(o) && Timed(o, now, caughtUp)
    ensures var n := SealActiveEpoch(o, now, requireReplacement);
            Good(n, now, caughtUp) && Steps(o, n) && !n.authority.Open?
  {
    SealActiveSound(o, now, requireReplacement);
  }

  lemma SealIdentityGood(o: Owner, now: int, caughtUp: bool, identity: Identity, requireReplacement: bool)
    requires Sound(o, []) && QueueBelongs(o) && Timed(o, now, caughtUp)
    requires QueueFits(o) || Belongs(o.authority, identity)
    ensures var n := SealIdentityEpoch(o, now, identity, requireReplacement); Good(n, now, caughtUp) && Steps(o, n)
  {
    if Belongs(o.authority, identity) {
      SealActiveGood(o, now, caughtUp, requireReplacement);
    }
  }

  /** The queue's own view of a state that changed elsewhere only. */
  lemma SameQueueFits(o: Owner, n: Owner)
    requires n.authority == o.authority && n.handed == o.handed
    requires n.ledger.queueIds == o.ledger.queueIds
    requires forall id :: id in o.ledger.queueIds ==> IsQueued(o.ledger, id)
    requires forall id :: IsQueued(n.ledger, id) <==> IsQueued(o.ledger, id)
    requires forall id :: IsQueued(n.ledger, id) ==>
               IsQueued(o.ledger, id) && n.ledger.records[id] == o.ledger.records[id]
    requires QueueFits(o)
    ensures QueueFits(n)
  {
    assert QueueIdentities(n.ledger) == QueueIdentities(o.ledger) by {
      forall i | 0 <= i < |o.ledger.queueIds|
        ensures IdentityAt(n.ledger, o.ledger.queueIds[i]) == IdentityAt(o.ledger, o.ledger.queueIds[i])
      {
        assert o.ledger.queueIds[i] in o.ledger.queueIds;
      }
    }
  }

  lemma FinishAsGood(o: Owner, now: int, caughtUp: bool, id: Id, outcome: Outcome)
    requires Good(o, now, caughtUp) && !IsQueued(o.ledger, id)
    requires outcome.NotSent? ==> forall h :: h in o.handed && h.id == id ==> !h.enqueued
    ensures Good(FinishAs(o, now, id, outcome), now, caughtUp) && Moves(o, FinishAs(o, now, id, outcome))
    ensures !outcome.Deterministic? ==> Steps(o, FinishAs(o, now, id, outcome))
  {
    hide FinishAs, Consistent, IdentitiesUnique, NotSentIsTrue, Recorded, Moves, Steps, QueueFits;
    var n := FinishAs(o, now, id, outcome);
    FinishAsSound(o, [], now, id, outcome);
    WithoutAbsent(o.ledger.queueIds, id);
    SameQueueFits(o, n);
  }

  /** Ending one queued intent leaves a gap, so its epoch is sealed and the rest of the queue ends too. */
  lemma DropQueuedGood(o: Owner, now: int, caughtUp: bool, id: Id, reason: NotSentReason, requireReplacement: bool)
    requires Good(o, now, caughtUp) && IsQueued(o.ledger, id)
    ensures var identity := o.ledger.records[id].admission.identity;
            var n := SealIdentityEpoch(FinishAs(o, now, id, NotSent(reason)), now, identity, requireReplacement);
            Good(n, now, caughtUp) && Steps(o, n)
  {
    var identity := o.ledger.records[id].admission.identity;
    FitsBelongs(o);
    var o1 := FinishAs(o, now, id, NotSent(reason));
    FinishAsSound(o, [], now, id, NotSent(reason));
    SealIdentityGood(o1, now, caughtUp, identity, requireReplacement);
  }

  lemma Indexed(o: Owner)
    requires Sound(o, [])
    ensures forall k :: IsPre(o.ledger, k) <==> k in o.ledger.preIds
    ensures forall k :: IsQueued(o.ledger, k) <==> k in o.ledger.queueIds
    ensures forall k :: IsActive(o.ledger, k) <==> k in o.ledger.activeOrder
  {
  }

  /** Moving a record that was handed to the sender to its next stage. */
  lemma RestageValid(o: Owner, id: Id, stage: Stage)
    requires Sound(o, []) && (IsSending(o.ledger, id) || IsSent(o.ledger, id)) && (stage.Sent? || stage.Terminating?)
    ensures var n := SetStage(o.ledger, id, stage);
            Valid(n, []) && Restaged(o.ledger, n, id) && n.records[id] == o.ledger.records[id].(stage := stage)
            && n.queueIds == o.ledger.queueIds
  {
    hide Valid, Recorded, IdentitiesUnique, NotSentIsTrue;
    Indexed(o);
    SetStageValid(o.ledger, [], id, stage);
  }

  lemma RestageSound(o: Owner, now: int, caughtUp: bool, id: Id, stage: Stage)
    requires Sound(o, []) && Timed(o, now, caughtUp)
    requires IsSending(o.ledger, id) || IsSent(o.ledger, id)
    requires stage.Sent? || stage.Terminating?
    requires var r := o.ledger.records[id].(stage := stage); Bounded(r, now) && (caughtUp ==> NotDue(r, now))
    ensures var n := o.(ledger := SetStage(o.ledger, id, stage));
            && Sound(n, []) && Timed(n, now, caughtUp) && Steps(o, n)
            && (QueueFits(o) ==> QueueFits(n)) && (QueueBelongs(o) ==> QueueBelongs(n))
  {
    hide Valid, Recorded, Steps, QueueFits, QueueBelongs, Timed, Bounded, NotDue, IdentitiesUnique, NotSentIsTrue,
         SetStage;
    var n := o.(ledger := SetStage(o.ledger, id, stage));
    RestageValid(o, id, stage);
    RestagedKeeps(o, n, id);
    RestagedTimed(o, n, id, now, caughtUp);
    if QueueFits(o) {
      Indexed(o);
      RestagedFits(o, n, id);
    }
  }

  lemma RestagedFits(o: Owner, n: Owner, id: Id)
    requires n == o.(ledger := n.ledger) && Restaged(o.ledger, n.ledger, id) && QueueFits(o)
    requires n.ledger.queueIds == o.ledger.queueIds
    requires forall k :: IsQueued(o.ledger, k) <==> k in o.ledger.queueIds
    ensures QueueFits(n)
  {
    hide QueueFits;
    SameQueueFits(o, n);
  }

  lemma RestagedTimed(o: Owner, n: Owner, id: Id, now: int, caughtUp: bool)
    requires n == o.(ledger := n.ledger) && Restaged(o.ledger, n.ledger, id) && Timed(o, now, caughtUp)
    requires Bounded(n.ledger.records[id], now) && (caughtUp ==> NotDue(n.ledger.records[id], now))
    ensures Timed(n, now, caughtUp)
    ensures QueueBelongs(o) ==> QueueBelongs(n)
  {
    assert forall k :: IsLive(n.ledger, k) ==> IsLive(o.ledger, k);
  }

  ghost predicate Restaged(l: Ledger, n: Ledger, id: Id) {
    && n.records.Keys == l.records.Keys
    && IsActive(l, id) && !IsQueued(l, id)
    && IsActive(n, id) && !IsQueued(n, id) && !IsSending(n, id)
    && n.records[id].admission == l.records[id].admission
    && (forall k :: k in l.records && k != id ==> n.records[k] == l.records[k])
  }

  lemma RestagedKeeps(o: Owner, n: Owner, id: Id)
    requires n == o.(ledger := n.ledger) && Restaged(o.ledger, n.ledger, id)
    requires Recorded(o)
    ensures Recorded(n) && Steps(o, n) && Log(n) == Log(o)
  {
    RestagedSteps(o, n, id);
    hide Steps, Log, ResultsComplete, IdentitiesAssigned, HandedSafely;
    RestagedResults(o.ledger, n.ledger, id, o.counter, Log(o));
    RestagedHanded(o.ledger, n.ledger, id, o.counter, o.identities, o.handed, Log(o));
  }

  lemma RestagedSteps(o: Owner, n: Owner, id: Id)
    requires n == o.(ledger := n.ledger) && Restaged(o.ledger, n.ledger, id)
    ensures Steps(o, n) && Log(n) == Log(o)
  {
    assert Log(n) == Log(o);
  }

  lemma RestagedResults(l: Ledger, n: Ledger, id: Id, counter: nat, log: seq<InputResult>)
    requires Restaged(l, n, id) && ResultsComplete(l, counter, log)
    ensures ResultsComplete(n, counter, log)
  {
    assert forall k :: IsLive(n, k) <==> IsLive(l, k);
    assert forall k :: IsTerminal(n, k) <==> IsTerminal(l, k);
  }

  lemma RestagedHanded(l: Ledger, n: Ledger, id: Id, counter: nat, identities: map<Id, Identity>,
                       handed: seq<Handed>, log: seq<InputResult>)
    requires Restaged(l, n, id) && IdentitiesAssigned(l, counter, identities, log)
             && HandedSafely(l, identities, handed)
    ensures IdentitiesAssigned(n, counter, identities, log) && HandedSafely(n, identities, handed)
  {
    hide Chain;
  }

  // ---- Catching up with the clock ----

  /** o moved on to n, and each record that is still live is the one it was or one not yet due. */
  ghost predicate CatchesUp(o: Owner, n: Owner, now: int) {
    && Steps(o, n)
    && forall k :: IsLive(n.ledger, k) ==>
         IsLive(o.ledger, k) && (n.ledger.records[k] == o.ledger.records[k] || NotDue(n.ledger.records[k], now))
  }

  lemma CatchesUpOnward(o: Owner, m: Owner, n: Owner, now: int)
    requires CatchesUp(o, m, now) && CatchesUp(m, n, now)
    ensures CatchesUp(o, n, now)
  {
    hide Steps;
    StepsOnward(o, m, n);
  }

  /** The record is gone, or not due. */
  ghost predicate Caught(o: Owner, id: Id, now: int) {
    IsLive(o.ledger, id) ==> NotDue(o.ledger.records[id], now)
  }

  lemma StaysCaught(o: Owner, n: Owner, id: Id, now: int)
    requires CatchesUp(o, n, now) && Caught(o, id, now)
    ensures Caught(n, id, now)
  {
  }

  lemma PreNotHanded(o: Owner, taken: seq<Id>, id: Id)
    requires Sound(o, taken) && (IsPre(o.ledger, id) || IsConsumed(o.ledger, id))
    ensures forall h :: h in o.handed ==> h.id != id
  {
  }

  lemma FinishedCatchesUp(o: Owner, now: int, id: Id, outcome: Outcome)
    requires Good(o, now, false) && !IsQueued(o.ledger, id) && !outcome.Deterministic?
    requires outcome.NotSent? ==> forall h :: h in o.handed && h.id == id ==> !h.enqueued
    ensures var n := FinishAs(o, now, id, outcome);
            Good(n, now, false) && CatchesUp(o, n, now) && !IsLive(n.ledger, id)
  {
    FinishAsGood(o, now, false, id, outcome);
    FinishedShrinks(o, now, id, outcome);
  }

  lemma {:induction false} ExpirePreGood(o: Owner, now: int, ids: seq<Id>)
    requires Good(o, now, false)
    ensures var n := ExpirePre(o, now, ids);
            && Good(n, now, false) && CatchesUp(o, n, now)
            && forall id :: id in ids && IsPre(o.ledger, id) ==> Caught(n, id, now)
    decreases |ids|
  {
    hide Sound, QueueFits, Timed, FinishAs, Chain, Moves, Steps, Heard;
    StepsSame(o);
    if ids == [] {
      assert CatchesUp(o, o, now);
    } else {
      var id := ids[0];
      var due := IsPre(o.ledger, id) && now - o.ledger.records[id].consumedAtMs >= MAX_PRE_ADMISSION_AGE_MS;
      var next := if due then FinishAs(o, now, id, NotSent(PreAdmissionExpired)) else o;
      if due {
        PreNotHanded(o, [], id);
        FinishedCatchesUp(o, now, id, NotSent(PreAdmissionExpired));
      } else {
        assert CatchesUp(o, o, now);
      }
      assert IsPre(o.ledger, id) ==> Caught(next, id, now);
      assert ExpirePre(o, now, ids) == ExpirePre(next, now, ids[1..]);
      PreStays(o, next, now);
      hide CatchesUp, Caught;
      ExpirePreGood(next, now, ids[1..]);
      var n := ExpirePre(next, now, ids[1..]);
      CatchesUpOnward(o, next, n, now);
      if IsPre(o.ledger, id) { StaysCaught(next, n, id, now); }
      forall k | k in ids[1..] && IsPre(o.ledger, k) ensures Caught(n, k, now) {
        if !IsPre(next.ledger, k) { StaysCaught(next, n, k, now); }
      }
    }
  }

  lemma PreStays(o: Owner, n: Owner, now: int)
    requires CatchesUp(o, n, now)
    ensures forall k :: IsPre(o.ledger, k) ==> IsPre(n.ledger, k) || Caught(n, k, now)
    ensures forall k :: IsQueued(o.ledger, k) ==> IsQueued(n.ledger, k) || Caught(n, k, now)
    ensures forall k :: IsActive(o.ledger, k) && !IsQueued(o.ledger, k) ==>
              (IsActive(n.ledger, k) && !IsQueued(n.ledger, k)) || Caught(n, k, now)
  {
  }

  /** Ending one queued intent by its deadline. */
  lemma DropQueuedCatchesUp(o: Owner, now: int, id: Id, reason: NotSentReason)
    requires Good(o, now, false) && IsQueued(o.ledger, id)
    ensures var identity := o.ledger.records[id].admission.identity;
            var n := SealIdentityEpoch(FinishAs(o, now, id, NotSent(reason)), now, identity, true);
            Good(n, now, false) && CatchesUp(o, n, now) && !IsLive(n.ledger, id)
  {
    var identity := o.ledger.records[id].admission.identity;
    var m := FinishAs(o, now, id, NotSent(reason));
    var n := SealIdentityEpoch(m, now, identity, true);
    DropQueuedGood(o, now, false, id, reason, true);
    QueuedFinished(o, now, id, reason);
    hide Good, Sound, FinishAs, QueueBelongs, Steps;
    SealedCatchesUp(m, now, identity, true);
    hide SealIdentityEpoch;
    CatchesUpOnward(o, m, n, now);
  }

  lemma QueuedFinished(o: Owner, now: int, id: Id, reason: NotSentReason)
    requires Good(o, now, false) && IsQueued(o.ledger, id)
    ensures var m := FinishAs(o, now, id, NotSent(reason));
            Sound(m, []) && QueueBelongs(m) && CatchesUp(o, m, now) && !IsLive(m.ledger, id)
  {
    FitsBelongs(o);
    QueuedNotHanded(o, id);
    FinishedShrinks(o, now, id, NotSent(reason));
    hide Sound, FinishAs;
    ShrinkingKeeps(o, FinishAs(o, now, id, NotSent(reason)), now, false);
  }

  lemma SealedCatchesUp(o: Owner, now: int, identity: Identity, requireReplacement: bool)
    requires Sound(o, []) && QueueBelongs(o)
    ensures CatchesUp(o, SealIdentityEpoch(o, now, identity, requireReplacement), now)
    ensures forall k :: IsLive(SealIdentityEpoch(o, now, identity, requireReplacement).ledger, k) ==>
              IsLive(o.ledger, k)
              && SealIdentityEpoch(o, now, identity, requireReplacement).ledger.records[k] == o.ledger.records[k]
  {
    if Belongs(o.authority, identity) { SealActiveSound(o, now, requireReplacement); }
    hide Sound, SealActiveEpoch;
  }

  lemma {:induction false} ExpireQueuedGood(o: Owner, now: int, ids: seq<Id>)
    requires Good(o, now, false)
    ensures var n := ExpireQueued(o, now, ids);
            && Good(n, now, false) && CatchesUp(o, n, now)
            && forall id :: id in ids && IsQueued(o.ledger, id) ==> Caught(n, id, now)
    decreases |ids|
  {
    hide FinishAs, SealIdentityEpoch, Good;
    if ids == [] {
      assert CatchesUp(o, o, now);
    } else {
      var id := ids[0];
      var due := IsQueued(o.ledger, id) && now >= o.ledger.records[id].stage.deadlineAtMs;
      var next := if due then
                    SealIdentityEpoch(FinishAs(o, now, id, NotSent(QueueExpired)), now,
                                      o.ledger.records[id].admission.identity, true)
                  else o;
      if due {
        DropQueuedCatchesUp(o, now, id, QueueExpired);
      } else {
        assert CatchesUp(o, o, now);
      }
      assert IsQueued(o.ledger, id) ==> Caught(next, id, now);
      assert ExpireQueued(o, now, ids) == ExpireQueued(next, now, ids[1..]);
      hide ExpireQueued;
      PreStays(o, next, now);
      hide CatchesUp, Caught;
      ExpireQueuedGood(next, now, ids[1..]);
      var n := ExpireQueued(next, now, ids[1..]);
      CatchesUpOnward(o, next, n, now);
      if IsQueued(o.ledger, id) { StaysCaught(next, n, id, now); }
      forall k | k in ids[1..] && IsQueued(o.ledger, k) ensures Caught(n, k, now) {
        if !IsQueued(next.ledger, k) { StaysCaught(next, n, k, now); }
      }
    }
  }

  /** A sent intent past its deadline starts to terminate; every other record is kept or ended. */
  ghost predicate SentExpires(o: Owner, n: Owner, id: Id) {
    && Steps(o, n)
    && (forall k :: IsLive(n.ledger, k) ==> IsLive(o.ledger, k))
    && (forall k :: IsLive(n.ledger, k) && k != id ==> n.ledger.records[k] == o.ledger.records[k])
    && (IsLive(n.ledger, id) ==> n.ledger.records[id] == o.ledger.records[id] || IsTerminating(n.ledger, id))
  }

  lemma SetStageExpires(o: Owner, id: Id, stage: Stage)
    requires IsSent(o.ledger, id) && stage.Terminating?
    requires Steps(o, o.(ledger := SetStage(o.ledger, id, stage)))
    ensures var m := o.(ledger := SetStage(o.ledger, id, stage));
            SentExpires(o, m, id) && !IsSent(m.ledger, id)
  {
    hide Steps;
  }

  lemma RestagedAlone(o: Owner, now: int, id: Id, stage: Stage)
    requires Good(o, now, false) && IsSent(o.ledger, id) && stage.Terminating?
    requires Bounded(o.ledger.records[id].(stage := stage), now)
    ensures var m := o.(ledger := SetStage(o.ledger, id, stage));
            Good(m, now, false) && QueueBelongs(m) && SentExpires(o, m, id) && !IsSent(m.ledger, id)
  {
    hide Sound, QueueFits, Steps, Timed, Bounded, QueueBelongs, SentExpires;
    RestageSound(o, now, false, id, stage);
    FitsBelongs(o.(ledger := SetStage(o.ledger, id, stage)));
    SetStageExpires(o, id, stage);
  }

  lemma RestagedExpires(o: Owner, now: int, id: Id, stage: Stage, identity: Identity)
    requires Good(o, now, false) && IsSent(o.ledger, id) && stage.Terminating?
    requires Bounded(o.ledger.records[id].(stage := stage), now)
    ensures var n := SealIdentityEpoch(o.(ledger := SetStage(o.ledger, id, stage)), now, identity, true);
            Good(n, now, false) && SentExpires(o, n, id) && !IsSent(n.ledger, id)
  {
    var m := o.(ledger := SetStage(o.ledger, id, stage));
    var n := SealIdentityEpoch(m, now, identity, true);
    RestagedAlone(o, now, id, stage);
    hide SetStage, SentExpires, Sound, QueueFits, QueueBelongs, Timed, Steps, SealIdentityEpoch;
    SealIdentityGood(m, now, false, identity, true);
    SealedCatchesUp(m, now, identity, true);
    ExpiresOnward(o, m, n, id);
  }

  lemma ExpiresOnward(o: Owner, m: Owner, n: Owner, id: Id)
    requires SentExpires(o, m, id) && Steps(m, n)
    requires forall k :: IsLive(n.ledger, k) ==> IsLive(m.ledger, k) && n.ledger.records[k] == m.ledger.records[k]
    ensures SentExpires(o, n, id) && (!IsSent(m.ledger, id) ==> !IsSent(n.ledger, id))
  {
    StepsOnward(o, m, n);
    hide Steps;
  }

  lemma ExpiresCaught(o: Owner, n: Owner, id: Id, now: int)
    requires SentExpires(o, n, id)
    requires Caught(n, id, now) || (IsLive(n.ledger, id) && n.ledger.records[id] == o.ledger.records[id])
    ensures CatchesUp(o, n, now)
  {
    hide Steps;
  }

  lemma ExpireSentGood(o: Owner, now: int, id: Id)
    requires Good(o, now, false)
    ensures var n := ExpireSent(o, now, id);
            Good(n, now, false) && SentExpires(o, n, id) && (IsSent(n.ledger, id) ==> Caught(n, id, now))
  {
    hide Sound, QueueFits, SealIdentityEpoch;
    StepsSame(o);
    if IsSent(o.ledger, id) && now >= o.ledger.records[id].stage.deadlineAtMs {
      var r := o.ledger.records[id];
      var stage := Terminating(r.stage.sendDecisionAtMs, r.stage.deadlineAtMs + MAX_TERMINATION_AGE_MS,
                               AcknowledgementTimeout);
      assert Bounded(r, now) && Bounded(r.(stage := stage), now);
      hide Steps;
      RestagedExpires(o, now, id, stage, r.admission.identity);
    }
  }

  lemma ExpireTerminatingGood(m: Owner, now: int, id: Id)
    requires Good(m, now, false) && (IsSent(m.ledger, id) ==> Caught(m, id, now))
    ensures var n := ExpireTerminating(m, now, id);
            && Good(n, now, false) && Steps(m, n)
            && (forall k :: IsLive(n.ledger, k) ==> IsLive(m.ledger, k) && n.ledger.records[k] == m.ledger.records[k])
            && (IsActive(n.ledger, id) && !IsQueued(n.ledger, id) ==> Caught(n, id, now))
  {
    hide Good, Steps, FinishAs;
    if IsTerminating(m.ledger, id) && now >= m.ledger.records[id].stage.deadlineAtMs {
      FinishedLeaves(m, now, id, Uncertain(UncertaintyOf(m.ledger.records[id].stage.terminationReason)));
    } else {
      StepsSame(m);
    }
  }

  lemma StepsSame(o: Owner)
    ensures Steps(o, o)
  {
  }

  lemma ExpireOneGood(o: Owner, now: int, id: Id)
    requires Good(o, now, false)
    ensures var n := ExpireTerminating(ExpireSent(o, now, id), now, id);
            Good(n, now, false) && CatchesUp(o, n, now)
            && (IsActive(o.ledger, id) && !IsQueued(o.ledger, id) ==> Caught(n, id, now))
  {
    var m := ExpireSent(o, now, id);
    var n := ExpireTerminating(m, now, id);
    hide ExpireSent, ExpireTerminating, Good, Steps;
    ExpireSentGood(o, now, id);
    ExpireTerminatingGood(m, now, id);
    ExpiresOnward(o, m, n, id);
    ExpiresCaught(o, n, id, now);
  }

  lemma FinishedLeaves(o: Owner, now: int, id: Id, outcome: Outcome)
    requires Good(o, now, false) && outcome.Uncertain? && !IsQueued(o.ledger, id)
    ensures var n := FinishAs(o, now, id, outcome);
            && Good(n, now, false) && Steps(o, n)
            && !IsLive(n.ledger, id)
            && forall k :: IsLive(n.ledger, k) ==> IsLive(o.ledger, k) && n.ledger.records[k] == o.ledger.records[k]
  {
    FinishAsGood(o, now, false, id, outcome);
    FinishedShrinks(o, now, id, outcome);
  }

  lemma {:induction false} ExpireActiveGood(o: Owner, now: int, ids: seq<Id>)
    requires Good(o, now, false)
    ensures var n := ExpireActive(o, now, ids);
            && Good(n, now, false) && CatchesUp(o, n, now)
            && forall id :: id in ids && IsActive(o.ledger, id) && !IsQueued(o.ledger, id) ==> Caught(n, id, now)
    decreases |ids|
  {
    if ids == [] {
      assert CatchesUp(o, o, now);
    } else {
      var id := ids[0];
      var next := ExpireTerminating(ExpireSent(o, now, id), now, id);
      ExpireOneGood(o, now, id);
      assert ExpireActive(o, now, ids) == ExpireActive(next, now, ids[1..]);
      hide Good, ExpireSent, ExpireTerminating, ExpireActive;
      PreStays(o, next, now);
      hide CatchesUp, Caught;
      ExpireActiveGood(next, now, ids[1..]);
      var n := ExpireActive(next, now, ids[1..]);
      CatchesUpOnward(o, next, n, now);
      if IsActive(o.ledger, id) && !IsQueued(o.ledger, id) { StaysCaught(next, n, id, now); }
      forall k | k in ids[1..] && IsActive(o.ledger, k) && !IsQueued(o.ledger, k) ensures Caught(n, k, now) {
        if !(IsActive(next.ledger, k) && !IsQueued(next.ledger, k)) { StaysCaught(next, n, k, now); }
      }
    }
  }

  /** Whatever the clock says, one pass leaves no record that is due. */
  lemma ExpireGood(o: Owner, now: int)
    requires Good(o, now, false)
    ensures var n := ExpireDeadlines(o, now); Good(n, now, true) && Steps(o, n)
  {
    hide ExpirePre, ExpireQueued, ExpireActive, QueueFits, Valid, IdentitiesUnique, NotSentIsTrue, Recorded,
         Consistent;
    var o1 := ExpirePre(o, now, o.ledger.preIds);
    var o2 := ExpireQueued(o1, now, o1.ledger.queueIds);
    var n := ExpireActive(o2, now, o2.ledger.activeOrder);
    hide ExpirePre, ExpireQueued, ExpireActive, QueueFits;
    ExpirePreGood(o, now, o.ledger.preIds);
    ExpireQueuedGood(o1, now, o1.ledger.queueIds);
    ExpireActiveGood(o2, now, o2.ledger.activeOrder);
    Indexed(o);
    Indexed(o1);
    Indexed(o2);
    hide Sound;
    CatchesUpOnward(o, o1, o2, now);
    CatchesUpOnward(o, o2, n, now);
    forall k | IsLive(n.ledger, k) ensures NotDue(n.ledger.records[k], now) {
      CaughtInTurn(o, o1, o2, n, k, now);
    }
  }

  lemma CaughtInTurn(o: Owner, o1: Owner, o2: Owner, n: Owner, k: Id, now: int)
    requires CatchesUp(o, o1, now) && CatchesUp(o1, o2, now) && CatchesUp(o2, n, now) && IsLive(n.ledger, k)
    requires IsPre(o.ledger, k) ==> Caught(o1, k, now)
    requires IsQueued(o1.ledger, k) ==> Caught(o2, k, now)
    requires IsActive(o2.ledger, k) && !IsQueued(o2.ledger, k) ==> Caught(n, k, now)
    ensures NotDue(n.ledger.records[k], now)
  {
    hide Steps;
    assert IsLive(o2.ledger, k) && IsLive(o1.ledger, k) && IsLive(o.ledger, k);
    if Caught(o1, k, now) { StaysCaught(o1, o2, k, now); }
    if Caught(o2, k, now) { StaysCaught(o2, n, k, now); }
  }

  // ---- Losing, replacing and revoking the transport ----

  /** What holds while a turn has queued work it has not yet ended. */
  ghost predicate Loose(o: Owner, now: int) {
    Sound(o, []) && QueueBelongs(o) && Timed(o, now, true)
  }

  /** Only flags that no record depends on differ. */
  ghost predicate SameButFlags(o: Owner, n: Owner) {
    n == o.(unusedEpoch := n.unusedEpoch, admissionScheduled := n.admissionScheduled,
            sendScheduled := n.sendScheduled, deadlineAtMs := n.deadlineAtMs, latestResize := n.latestResize,
            replicaCurrent := n.replicaCurrent, resizeConfirmed := n.resizeConfirmed)
  }

  lemma FlagsKeepGood(o: Owner, n: Owner, now: int, caughtUp: bool)
    requires SameButFlags(o, n) && Good(o, now, caughtUp)
    ensures Good(n, now, caughtUp) && Steps(o, n)
  {
    assert Log(n) == Log(o);
  }

  lemma BeginTerminationLoose(o: Owner, now: int, id: Id, reason: TerminationReason)
    requires Loose(o, now)
    ensures var n := BeginTerminationOf(o, id, reason, now + MAX_TERMINATION_AGE_MS);
            && Loose(n, now) && Steps(o, n) && (QueueFits(o) ==> QueueFits(n))
            && n.authority == o.authority && n.ledger.queueIds == o.ledger.queueIds
            && !IsSending(n.ledger, id) && n == o.(ledger := n.ledger)
  {
    hide Sound, QueueBelongs, Moves, Steps, QueueFits, Valid;
    if IsSending(o.ledger, id) || IsSent(o.ledger, id) {
      var r := o.ledger.records[id];
      var stage := Terminating(r.stage.sendDecisionAtMs, now + MAX_TERMINATION_AGE_MS, reason);
      assert Bounded(r, now) && NotDue(r, now);
      RestageSound(o, now, true, id, stage);
    } else {
      StepsSame(o);
    }
  }

  lemma {:induction false} TerminateEachLoose(o: Owner, now: int, ids: seq<Id>)
    requires Loose(o, now)
    ensures var n := TerminateEach(o, now, ids);
            Loose(n, now) && Steps(o, n) && n.authority == o.authority && n.ledger.queueIds == o.ledger.queueIds
    decreases |ids|
  {
    if ids == [] {
      StepsSame(o);
    } else {
      var next := BeginTerminationOf(o, ids[0], TerminatedByReplacement, now + MAX_TERMINATION_AGE_MS);
      BeginTerminationLoose(o, now, ids[0], TerminatedByReplacement);
      hide Loose, BeginTerminationOf, Steps;
      TerminateEachLoose(next, now, ids[1..]);
      StepsOnward(o, next, TerminateEach(next, now, ids[1..]));
    }
  }

  lemma FinishedLoose(o: Owner, now: int, id: Id, outcome: Outcome)
    requires Loose(o, now) && outcome.Uncertain?
    ensures Loose(FinishAs(o, now, id, outcome), now) && Shrinks(o, FinishAs(o, now, id, outcome))
  {
    FinishedShrinks(o, now, id, outcome);
    hide Sound, FinishAs;
    ShrinkingKeeps(o, FinishAs(o, now, id, outcome), now, true);
  }

  lemma {:induction false} CloseEachLoose(o: Owner, now: int, ids: seq<Id>)
    requires Loose(o, now)
    ensures var n := CloseEach(o, now, ids); Loose(n, now) && Shrinks(o, n)
    decreases |ids|
  {
    hide Loose, FinishAs, Shrinks;
    ShrinksSame(o);
    if ids != [] {
      var id := ids[0];
      var ends := IsActive(o.ledger, id) && !IsQueued(o.ledger, id);
      var next := if ends then FinishAs(o, now, id, Uncertain(UncertainClosed)) else o;
      if ends { FinishedLoose(o, now, id, Uncertain(UncertainClosed)); }
      CloseEachLoose(next, now, ids[1..]);
      ShrinksOnward(o, next, CloseEach(next, now, ids[1..]));
    }
  }

  lemma SettleWaitingLoose(o: Owner, now: int, before: NotSentReason, queued: NotSentReason)
    requires Loose(o, now)
    ensures var n := SettleQueued(SettlePreAdmission(o, now, before), now, queued);
            Loose(n, now) && Shrinks(o, n) && n.ledger.queueIds == []
  {
    var m := SettlePreAdmission(o, now, before);
    SettlePreSound(o, now, before);
    hide SettlePreAdmission, SettleQueued;
    SettleQueuedSound(m, now, queued);
    hide Sound;
    ShrinkingKeeps(o, m, now, true);
    ShrinkingKeeps(m, SettleQueued(m, now, queued), now, true);
    ShrinksOnward(o, m, SettleQueued(m, now, queued));
  }

  lemma ShrinksSteps(o: Owner, n: Owner)
    requires Shrinks(o, n)
    ensures Steps(o, n) && n.authority == o.authority
  {
  }

  lemma SettleActiveLoose(o: Owner, now: int, closed: bool)
    requires Loose(o, now)
    ensures var n := SettleActive(o, now, closed); Loose(n, now) && Steps(o, n)
  {
    hide Loose, Steps, TerminateEach, CloseEach;
    if closed {
      CloseEachLoose(o, now, o.ledger.activeOrder);
      ShrinksSteps(o, CloseEach(o, now, o.ledger.activeOrder));
    } else {
      TerminateEachLoose(o, now, o.ledger.activeOrder);
    }
  }

  lemma SettleControlGood(o: Owner, now: int, closed: bool)
    requires Good(o, now, true)
    ensures var n := SettleControlTransport(o, now, closed); Good(n, now, true) && Steps(o, n) && !n.authority.Open?
  {
    var reason := if closed then Closed else ControlReplaced;
    var o1 := SettleQueued(SettlePreAdmission(o, now, reason), now, reason);
    var o2 := SettleActive(o1, now, closed);
    var o3 := SealActiveEpoch(o2, now, false);
    var n := o3.(replicaCurrent := false, resizeConfirmed := false);
    FitsBelongs(o);
    hide Sound, SettleQueued, SettlePreAdmission, SettleActive, SealActiveEpoch;
    SettleWaitingLoose(o, now, reason, reason);
    SettleActiveLoose(o1, now, closed);
    SealActiveGood(o2, now, true, false);
    hide Loose, Good;
    ShrinksSteps(o, o1);
    FlagsKeepGood(o3, n, now, true);
    hide Steps, Shrinks;
    StepsOnward(o, o1, o2);
    StepsOnward(o, o2, o3);
    StepsOnward(o, o3, n);
  }

  /** A change of authority on an empty queue. */
  lemma ReauthorizeGood(o: Owner, a: AuthorityState, now: int)
    requires Good(o, now, true) && o.ledger.queueIds == []
    requires Consistent(a) && !a.Open? && a.highestWriterFence >= o.authority.highestWriterFence
    ensures Good(o.(authority := a), now, true) && Steps(o, o.(authority := a))
  {
    ReauthorizeSound(o, a);
  }

  lemma DetachGood(o: Owner, now: int, closed: bool)
    requires Good(o, now, true)
    ensures Good(DoDetach(o, now, closed), now, true) && Steps(o, DoDetach(o, now, closed))
  {
    var o1 := SettleControlTransport(o, now, closed);
    SettleControlGood(o, now, closed);
    hide SettleControlTransport, Steps;
    ReauthorizeGood(o1, Detach(o1.authority), now);
    StepsOnward(o, o1, o1.(authority := Detach(o1.authority)));
  }

  lemma RevokeGood(o: Owner, now: int)
    requires Good(o, now, true)
    ensures Good(DoRevoke(o, now), now, true) && Steps(o, DoRevoke(o, now))
  {
    hide SettleQueued, SettlePreAdmission, TerminateEach, SealActiveEpoch, Steps, Valid, IdentitiesUnique,
         NotSentIsTrue, Recorded;
    var o0 := o.(authority := Revoke(o.authority));
    FitsBelongs(o);
    ReauthorizeSound(o, Revoke(o.authority));
    assert Loose(o0, now);
    var o1 := SettleQueued(SettlePreAdmission(o0, now, NotWritable), now, EpochSealed);
    var o2 := TerminateEach(o1, now, o1.ledger.activeOrder);
    hide Sound, SettleQueued, SettlePreAdmission, TerminateEach, SealActiveEpoch;
    SettleWaitingLoose(o0, now, NotWritable, EpochSealed);
    TerminateEachLoose(o1, now, o1.ledger.activeOrder);
    SealActiveGood(o2, now, true, false);
    hide Loose, Good;
    ShrinksSteps(o0, o1);
    hide Steps, Shrinks;
    StepsOnward(o, o0, o1);
    StepsOnward(o, o1, o2);
    StepsOnward(o, o2, SealActiveEpoch(o2, now, false));
  }

  // ---- Opening writing ----

  lemma LastBounds(o: Owner, fence: nat)
    requires Sound(o, []) && o.authority.highestWriterFence < fence
    ensures forall i :: 0 <= i < |o.handed| ==> o.handed[i].identity.writerFence < fence
  {
    forall i | 0 <= i < |o.handed| ensures o.handed[i].identity.writerFence < fence {
      assert o.handed[i] in o.handed;
    }
  }

  /** A strictly higher fence starts a fresh run of numbers. */
  lemma OpenQueueFits(o: Owner, now: int, transport: Transport, epoch: string)
    requires Good(o, now, true) && o.ledger.queueIds == [] && Accepts(o.authority, transport)
    ensures QueueFits(o.(authority := Attach(o.authority, transport, epoch)))
  {
    hide Timed, NotSentIsTrue;
    var a := Attach(o.authority, transport, epoch);
    var n := o.(authority := a);
    LastBounds(o, a.highestWriterFence);
    var s := HandedIdentities(n.handed) + QueueIdentities(n.ledger) + [NextIdentity(a)];
    assert s == HandedIdentities(o.handed) + [NextIdentity(a)];
    ChainAppend(HandedIdentities(o.handed), NextIdentity(a));
    assert forall id :: !IsQueued(o.ledger, id) by { Indexed(o); }
  }

  lemma OpenGood(o: Owner, now: int, transport: Transport, epoch: string)
    requires Good(o, now, true) && o.ledger.queueIds == [] && Accepts(o.authority, transport)
    ensures var n := o.(authority := Attach(o.authority, transport, epoch)); Good(n, now, true) && Steps(o, n)
  {
    hide QueueFits, Valid;
    var a := Attach(o.authority, transport, epoch);
    var n := o.(authority := a);
    OpenQueueFits(o, now, transport, epoch);
    assert Log(n) == Log(o);
    assert IdentitiesUnique(a, n.identities);
  }

  lemma GoodAuthority(o: Owner, now: int, caughtUp: bool)
    requires Good(o, now, caughtUp)
    ensures Consistent(o.authority) && (!o.authority.Open? ==> o.ledger.queueIds == [])
  {
  }

  lemma ReattachGood(o: Owner, now: int, transport: Transport)
    requires Good(o, now, true)
    requires o.authority.Open? ==> o.authority.transport == transport
    ensures var n := o.(authority := Attach(o.authority, transport, o.unusedEpoch));
            Good(n, now, true) && Steps(o, n)
  {
    GoodAuthority(o, now, true);
    hide Good, Steps;
    if Accepts(o.authority, transport) {
      assert !o.authority.Open?;
      OpenGood(o, now, transport, o.unusedEpoch);
    } else if o.authority.Open? {
      assert o.(authority := Attach(o.authority, transport, o.unusedEpoch)) == o;
      StepsSame(o);
    } else {
      ReauthorizeGood(o, Attach(o.authority, transport, o.unusedEpoch), now);
    }
  }

  lemma AttachGood(o: Owner, now: int, transport: Transport, freshEpoch: string)
    requires Good(o, now, true)
    ensures var n := DoAttach(o, now, transport, freshEpoch); Good(n, now, true) && Steps(o, n)
  {
    hide SettleControlTransport, Steps, Good, Attach, Accepts;
    var previous := TransportOf(o.authority);
    var replaced := previous.Some? && previous.value != transport;
    var o1 := if replaced then SettleControlTransport(o, now, false) else o;
    if replaced { SettleControlGood(o, now, false); } else { StepsSame(o); }
    var o2 := o1.(authority := Attach(o1.authority, transport, o1.unusedEpoch));
    ReattachGood(o1, now, transport);
    var n := DoAttach(o, now, transport, freshEpoch);
    FlagsKeepGood(o2, n, now, true);
    StepsOnward(o, o1, o2);
    StepsOnward(o, o2, n);
  }

  // ---- Acknowledgements and proofs ----

  function OpClaims(op: Op): set<Claim> {
    match op
    case Acknowledge(fence, epoch, seqNo, status, _) =>
      if fence.Some? && status.Settled? then {Claim(Identity(fence.value, epoch, seqNo), status.result)} else {}
    case ProveTombstone(proof, _) => {Claim(proof, Rejected)}
    case _ => {}
  }

  /** A record found under an identity ends with a result for that identity. */
  lemma FinishCertain(o: Owner, now: int, identity: Identity, outcome: Outcome)
    requires Good(o, now, true) && GetByIdentity(o.ledger, identity).Some? && outcome.Deterministic?
    requires !IsQueued(o.ledger, GetByIdentity(o.ledger, identity).value)
    ensures var n := FinishAs(o, now, GetByIdentity(o.ledger, identity).value, outcome);
            Good(n, now, true) && Moves(o, n) && Heard(o, n, {Claim(identity, outcome.result)})
  {
    var id := GetByIdentity(o.ledger, identity).value;
    FoundByIdentity(o, identity);
    FinishAsGood(o, now, true, id, outcome);
    FinishAsSound(o, [], now, id, outcome);
    hide Good, Sound, Moves, FinishAs, FinishedFrom;
    CertainHeard(o, FinishAs(o, now, id, outcome), identity, ResultOf(o.ledger, id, now, outcome));
  }

  lemma FoundByIdentity(o: Owner, identity: Identity)
    requires Sound(o, []) && GetByIdentity(o.ledger, identity).Some?
    ensures var id := GetByIdentity(o.ledger, identity).value;
            IsActive(o.ledger, id) && IdentityOf(o.ledger.records[id]) == Some(identity)
  {
  }

  lemma CertainHeard(o: Owner, n: Owner, identity: Identity, r: InputResult)
    requires n.notifications == o.notifications + [r] && n.published == o.published
    requires r.outcome.Deterministic? && r.identity == Some(identity)
    ensures Heard(o, n, {Claim(identity, r.outcome.result)})
  {
    assert Log(n) == Log(o) + [r];
  }

  lemma AcknowledgeGood(o: Owner, now: int, identity: Identity, status: AckStatus, eventSeq: nat)
    requires Good(o, now, true)
    ensures var n := DoAcknowledge(o, now, identity, status, eventSeq);
            && Good(n, now, true) && Moves(o, n)
            && Heard(o, n, if status.Settled? then {Claim(identity, status.result)} else {})
  {
    hide Good, Moves, FinishAs, SealIdentityEpoch;
    var found := GetByIdentity(o.ledger, identity);
    StepsSame(o);
    if found.None? || !(IsSent(o.ledger, found.value) || IsTerminating(o.ledger, found.value)) {
    } else if status.Unsure? {
      UncertainSealed(o, now, found.value, InputAckUncertain, identity);
    } else {
      FinishCertain(o, now, identity, Deterministic(InputAck, status.result, eventSeq));
    }
  }

  lemma UncertainSealed(o: Owner, now: int, id: Id, reason: UncertainReason, identity: Identity)
    requires Good(o, now, true) && !IsQueued(o.ledger, id)
    ensures var n := SealIdentityEpoch(FinishAs(o, now, id, Uncertain(reason)), now, identity, true);
            Good(n, now, true) && Steps(o, n)
  {
    var m := FinishAs(o, now, id, Uncertain(reason));
    hide Sound, QueueFits, Timed, Steps, FinishAs, SealIdentityEpoch;
    FinishAsGood(o, now, true, id, Uncertain(reason));
    FitsBelongs(m);
    SealIdentityGood(m, now, true, identity, true);
    StepsOnward(o, m, SealIdentityEpoch(m, now, identity, true));
  }

  lemma TombstoneGood(o: Owner, now: int, identity: Identity, eventSeq: nat)
    requires Good(o, now, true)
    ensures var n := DoTombstone(o, now, identity, eventSeq);
            Good(n, now, true) && Moves(o, n) && Heard(o, n, {Claim(identity, Rejected)})
  {
    hide Good, Moves, FinishAs;
    StepsSame(o);
    var found := GetByIdentity(o.ledger, identity);
    if found.Some? && IsTerminating(o.ledger, found.value) {
      FinishCertain(o, now, identity, Deterministic(TombstoneProof, Rejected, eventSeq));
    }
  }

  // ---- Admission ----

  /** A good state in the middle of an admission pass: `taken` still wait for their turn. */
  ghost predicate Admitting(o: Owner, taken: seq<Id>, now: int) {
    Sound(o, taken) && QueueFits(o) && Timed(o, now, true) && o.ledger.preIds == []
  }

  lemma RefuseHead(o: Owner, taken: seq<Id>, now: int, reason: NotSentReason)
    requires Admitting(o, taken, now) && taken != []
    ensures var n := FinishAs(o, now, taken[0], NotSent(reason)); Admitting(n, taken[1..], now) && Steps(o, n)
  {
    hide QueueFits, FinishAs, Consistent, IdentitiesUnique, NotSentIsTrue, Recorded, Steps;
    var id := taken[0];
    var n := FinishAs(o, now, id, NotSent(reason));
    TakenHead(o, taken);
    PreNotHanded(o, taken, id);
    FinishAsSound(o, taken, now, id, NotSent(reason));
    WithoutAbsent(o.ledger.queueIds, id);
    hide Sound, Steps;
    SameQueueFits(o, n);
  }

  lemma TakenHead(o: Owner, taken: seq<Id>)
    requires Sound(o, taken) && taken != []
    ensures IsPre(o.ledger, taken[0])
    ensures forall k :: IsQueued(o.ledger, k) <==> k in o.ledger.queueIds
  {
    assert taken[0] in taken;
  }

  lemma NextIsFree(o: Owner, taken: seq<Id>)
    requires Sound(o, taken) && o.authority.Open?
    ensures NextIdentity(o.authority) !in o.ledger.active
    ensures forall id :: id in o.identities ==> o.identities[id] != NextIdentity(o.authority)
  {
    forall key | key in o.ledger.active ensures key != NextIdentity(o.authority) {
      assert IsActive(o.ledger, o.ledger.active[key]);
    }
  }

  /** The record a head of the pre-admission queue is admitted as. */
  function Admitted(o: Owner, now: int, id: Id): Owner
    requires IsPre(o.ledger, id) && o.authority.Open?
    requires CanAdmit(o.ledger, o.ledger.records[id].normalized.frameBytes)
    requires NextIdentity(o.authority) !in o.ledger.active
  {
    var r := o.ledger.records[id];
    var admission := Admission(NextIdentity(o.authority), r.normalized, r.normalized.frameBytes, now,
                               o.authority.transport.generation);
    o.(authority := Allocate(o.authority),
       ledger := Admit(o.ledger, id, admission, now + MAX_QUEUED_AGE_MS),
       identities := o.identities[id := NextIdentity(o.authority)])
  }

  /** The record of id, waiting so far, became the queued record that n holds. */
  ghost predicate Promotes(l: Ledger, n: Ledger, id: Id) {
    && IsPre(l, id) && IsQueued(n, id)
    && n.records == l.records[id := n.records[id]]
    && n.queueIds == l.queueIds + [id]
  }

  lemma PromotedResults(l: Ledger, n: Ledger, id: Id, counter: nat, log: seq<InputResult>)
    requires Promotes(l, n, id) && ResultsComplete(l, counter, log)
    ensures ResultsComplete(n, counter, log)
  {
  }

  lemma PromotedAssigned(l: Ledger, n: Ledger, id: Id, counter: nat, identities: map<Id, Identity>,
                         log: seq<InputResult>)
    requires Promotes(l, n, id) && ResultsComplete(l, counter, log) && IdentitiesAssigned(l, counter, identities, log)
    ensures IdentitiesAssigned(n, counter, identities[id := n.records[id].admission.identity], log)
    ensures id !in identities
  {
    assert forall r :: r in log ==> r.id != id;
  }

  lemma PromotedHanded(l: Ledger, n: Ledger, id: Id, identities: map<Id, Identity>, identity: Identity,
                       handed: seq<Handed>)
    requires Promotes(l, n, id) && id !in identities && HandedSafely(l, identities, handed)
    ensures HandedSafely(n, identities[id := identity], handed)
  {
    hide Chain;
    assert forall h :: h in handed ==> h.id != id;
  }

  lemma AllocatedUnique(a: AuthorityState, identities: map<Id, Identity>, id: Id)
    requires a.Open? && Consistent(a) && IdentitiesUnique(a, identities) && id !in identities
    ensures Consistent(Allocate(a)) && IdentitiesUnique(Allocate(a), identities[id := NextIdentity(a)])
  {
  }

  lemma AdmittedRecorded(o: Owner, taken: seq<Id>, now: int)
    requires Sound(o, taken) && taken != [] && IsPre(o.ledger, taken[0]) && o.authority.Open?
    requires CanAdmit(o.ledger, o.ledger.records[taken[0]].normalized.frameBytes)
    requires NextIdentity(o.authority) !in o.ledger.active
    ensures var n := Admitted(o, now, taken[0]);
            && Recorded(n) && Steps(o, n) && Promotes(o.ledger, n.ledger, taken[0])
            && Consistent(n.authority) && IdentitiesUnique(n.authority, n.identities)
            && NotSentIsTrue(n.handed, Log(n))
  {
    hide Valid, ResultsComplete, IdentitiesAssigned, HandedSafely, IdentitiesUnique, NotSentIsTrue;
    var id := taken[0];
    var n := Admitted(o, now, id);
    assert Log(n) == Log(o);
    assert Promotes(o.ledger, n.ledger, id);
    PromotedResults(o.ledger, n.ledger, id, o.counter, Log(o));
    PromotedAssigned(o.ledger, n.ledger, id, o.counter, o.identities, Log(o));
    PromotedHanded(o.ledger, n.ledger, id, o.identities, NextIdentity(o.authority), o.handed);
    AllocatedUnique(o.authority, o.identities, id);
  }

  lemma PromotedQueue(l: Ledger, n: Ledger, id: Id)
    requires Promotes(l, n, id) && forall k :: k in l.queueIds ==> k != id
    ensures QueueIdentities(n) == QueueIdentities(l) + [n.records[id].admission.identity]
  {
    forall i | 0 <= i < |l.queueIds| ensures IdentityAt(n, l.queueIds[i]) == IdentityAt(l, l.queueIds[i]) {
      assert l.queueIds[i] in l.queueIds;
    }
  }

  lemma AdmittedFits(o: Owner, now: int, id: Id)
    requires QueueFits(o) && IsPre(o.ledger, id) && o.authority.Open?
    requires forall k :: IsQueued(o.ledger, k) <==> k in o.ledger.queueIds
    requires CanAdmit(o.ledger, o.ledger.records[id].normalized.frameBytes)
    requires NextIdentity(o.authority) !in o.ledger.active
    requires Promotes(o.ledger, Admitted(o, now, id).ledger, id)
    ensures QueueFits(Admitted(o, now, id))
  {
    var n := Admitted(o, now, id);
    var s := HandedIdentities(o.handed) + QueueIdentities(o.ledger) + [NextIdentity(o.authority)];
    PromotedQueue(o.ledger, n.ledger, id);
    var next := NextIdentity(n.authority);
    ChainAppend(s, next);
    assert n.ledger.records[id].admission.identity == NextIdentity(o.authority);
    assert HandedIdentities(n.handed) + QueueIdentities(n.ledger) + [next] == s + [next];
    hide Chain;
    forall k | IsQueued(n.ledger, k)
      ensures Belongs(n.authority, n.ledger.records[k].admission.identity)
      ensures n.ledger.records[k].admission.transportGeneration == n.authority.transport.generation
    {
      assert k == id || IsQueued(o.ledger, k);
    }
  }

  lemma PromotedTimed(o: Owner, n: Owner, id: Id, now: int)
    requires Timed(o, now, true) && Promotes(o.ledger, n.ledger, id)
    requires Bounded(n.ledger.records[id], now) && NotDue(n.ledger.records[id], now)
    ensures Timed(n, now, true)
  {
    assert forall k :: IsLive(n.ledger, k) ==> IsLive(o.ledger, k);
  }

  lemma AdmitHead(o: Owner, taken: seq<Id>, now: int)
    requires Admitting(o, taken, now) && taken != [] && IsPre(o.ledger, taken[0]) && o.authority.Open?
    requires CanAdmit(o.ledger, o.ledger.records[taken[0]].normalized.frameBytes)
    requires now - o.ledger.records[taken[0]].consumedAtMs < MAX_PRE_ADMISSION_AGE_MS
    requires NextIdentity(o.authority) !in o.ledger.active
    ensures var n := Admitted(o, now, taken[0]); Admitting(n, taken[1..], now) && Steps(o, n)
  {
    var id := taken[0];
    var r := o.ledger.records[id];
    var n := Admitted(o, now, id);
    TakenHead(o, taken);
    AdmittedRecorded(o, taken, now);
    hide Valid, Recorded, Steps, QueueFits, IdentitiesUnique, NotSentIsTrue, Timed;
    AdmitValid(o.ledger, taken,
               Admission(NextIdentity(o.authority), r.normalized, r.normalized.frameBytes, now,
                         o.authority.transport.generation), now + MAX_QUEUED_AGE_MS);
    AdmittedFits(o, now, id);
    PromotedTimed(o, n, id, now);
  }

  lemma AdmitOneGood(o: Owner, taken: seq<Id>, now: int)
    requires Admitting(o, taken, now) && taken != []
    ensures var n := AdmitOne(o, now, taken[0]); Admitting(n, taken[1..], now) && Steps(o, n)
  {
    var id := taken[0];
    TakenHead(o, taken);
    var r := o.ledger.records[id];
    var reason := AuthorityReason(o, r.normalized);
    if o.authority.Open? { NextIsFree(o, taken); }
    hide Admitting, Steps, FinishAs, Sound;
    if now - r.consumedAtMs >= MAX_PRE_ADMISSION_AGE_MS {
      RefuseHead(o, taken, now, PreAdmissionExpired);
    } else if reason.Some? {
      RefuseHead(o, taken, now, reason.value);
    } else if |o.ledger.activeOrder| >= MAX_PENDING {
      RefuseHead(o, taken, now, Overload);
    } else if o.authority.epoch.nextSequence > MAX_U64 {
      RefuseHead(o, taken, now, Validation);
    } else if !CanAdmit(o.ledger, r.normalized.frameBytes) {
      RefuseHead(o, taken, now, Overload);
    } else {
      AdmitHead(o, taken, now);
    }
  }

  lemma {:induction false} AdmitEachGood(o: Owner, taken: seq<Id>, now: int)
    requires Admitting(o, taken, now)
    ensures var n := AdmitEach(o, now, taken); Admitting(n, [], now) && Steps(o, n)
    decreases |taken|
  {
    hide Admitting, Steps, AdmitOne;
    if taken == [] {
      StepsSame(o);
    } else {
      AdmitOneGood(o, taken, now);
      var next := AdmitOne(o, now, taken[0]);
      AdmitEachGood(next, taken[1..], now);
      StepsOnward(o, next, AdmitEach(next, now, taken[1..]));
    }
  }

  lemma AdmitPreAdmissionGood(o: Owner, now: int)
    requires Good(o, now, true)
    ensures var n := AdmitPreAdmission(o, now).0; Good(n, now, true) && Steps(o, n)
  {
    var o1 := o.(admissionScheduled := false, ledger := TakePreAdmission(o.ledger));
    var o2 := AdmitEach(o1, now, o.ledger.preIds);
    var n := AdmitPreAdmission(o, now).0;
    hide Good, Admitting, Steps, AdmitEach;
    TakenGood(o, now);
    AdmitEachGood(o1, o.ledger.preIds, now);
    assert SameButFlags(o2, n);
    AdmittingDone(o2, now);
    FlagsKeepGood(o2, n, now, true);
    StepsOnward(o, o1, o2);
    StepsOnward(o, o2, n);
  }

  lemma AdmittingDone(o: Owner, now: int)
    requires Admitting(o, [], now)
    ensures Good(o, now, true)
  {
    hide Sound, QueueFits, Timed;
  }

  lemma TakenGood(o: Owner, now: int)
    requires Good(o, now, true)
    ensures var n := o.(admissionScheduled := false, ledger := TakePreAdmission(o.ledger));
            Admitting(n, o.ledger.preIds, now) && Steps(o, n)
  {
    var m := o.(ledger := TakePreAdmission(o.ledger));
    var n := o.(admissionScheduled := false, ledger := TakePreAdmission(o.ledger));
    TakeSound(o);
    TakenKeeps(o, m, now);
    hide Sound, QueueFits, Timed;
    TakenFlags(m, n, o.ledger.preIds, now);
    hide Steps;
    ShrinksSteps(o, m);
    StepsOnward(o, m, n);
  }

  lemma TakenKeeps(o: Owner, m: Owner, now: int)
    requires Good(o, now, true) && m == o.(ledger := TakePreAdmission(o.ledger))
    ensures QueueFits(m) && Timed(m, now, true)
  {
    Indexed(o);
    hide Sound;
    SameQueueFits(o, m);
  }

  lemma TakenFlags(m: Owner, n: Owner, taken: seq<Id>, now: int)
    requires SameButFlags(m, n) && Sound(m, taken) && QueueFits(m) && Timed(m, now, true) && m.ledger.preIds == []
    ensures Admitting(n, taken, now) && Steps(m, n)
  {
    assert Log(n) == Log(m);
  }

  // ---- Consuming ----

  /** Like Steps, while the record of `id` is still the consumed one that this turn created. */
  ghost predicate StepsBut(o: Owner, n: Owner, id: Id) {
    && o.counter <= n.counter
    && n.handed == o.handed
    && Log(o) <= Log(n)
    && (forall k :: k in o.identities ==> k in n.identities && n.identities[k] == o.identities[k])
    && (forall k :: IsConsumed(n.ledger, k) ==> IsConsumed(o.ledger, k) || k == id)
    && (forall k :: IsSending(n.ledger, k) ==> IsSending(o.ledger, k))
    && n.inlineSend == o.inlineSend && n.drainingQueue == o.drainingQueue
    && Heard(o, n, {})
  }

  lemma StepsButOnward(o: Owner, m: Owner, n: Owner, id: Id)
    requires StepsBut(o, m, id) && Steps(m, n)
    ensures StepsBut(o, n, id) && (!IsConsumed(n.ledger, id) ==> Steps(o, n))
  {
  }

  /** The record of id was written, and is not one a queue or the sender has seen. */
  ghost predicate Writes(l: Ledger, n: Ledger, id: Id) {
    && id in n.records && !n.records[id].Active? && !n.records[id].Terminal?
    && n.records == l.records[id := n.records[id]]
    && (id in l.records ==> IsConsumed(l, id))
    && n.queueIds == l.queueIds
  }

  /** What a write under way leaves as it was. */
  lemma WrittenSame(l: Ledger, n: Ledger, id: Id)
    requires Writes(l, n, id)
    ensures forall k :: k != id ==> (IsLive(n, k) <==> IsLive(l, k)) && (IsActive(n, k) <==> IsActive(l, k))
    ensures forall k :: IsTerminal(n, k) <==> IsTerminal(l, k)
    ensures forall k :: IsTerminal(n, k) ==> n.records[k] == l.records[k]
    ensures forall k :: IsActive(n, k) <==> IsActive(l, k) && k != id
    ensures forall k :: IsActive(n, k) ==> n.records[k] == l.records[k]
    ensures forall k :: IsQueued(n, k) ==> IsQueued(l, k)
    ensures !IsActive(n, id) && !IsTerminal(n, id) && IsLive(n, id)
  {
  }

  lemma WrittenComplete(l: Ledger, n: Ledger, id: Id, counter: nat, counter': nat, log: seq<InputResult>)
    requires Writes(l, n, id) && ResultsComplete(l, counter, log)
    requires if id in l.records then counter' == counter else id == counter + 1 == counter'
    ensures ResultsComplete(n, counter', log) && forall r :: r in log ==> r.id != id
  {
    WrittenSame(l, n, id);
  }

  lemma WrittenRecorded(l: Ledger, n: Ledger, id: Id, counter: nat, counter': nat,
                        identities: map<Id, Identity>, handed: seq<Handed>, log: seq<InputResult>)
    requires Writes(l, n, id) && ResultsComplete(l, counter, log) && IdentitiesAssigned(l, counter, identities, log)
    requires HandedSafely(l, identities, handed)
    requires if id in l.records then counter' == counter else id == counter + 1 == counter'
    ensures ResultsComplete(n, counter', log) && IdentitiesAssigned(n, counter', identities, log)
    ensures HandedSafely(n, identities, handed)
  {
    hide Chain, ResultsComplete, Lookup;
    WrittenComplete(l, n, id, counter, counter', log);
    WrittenSame(l, n, id);
    assert id !in identities;
  }

  lemma WrittenFits(o: Owner, n: Owner, id: Id, now: int)
    requires n == o.(ledger := n.ledger, counter := n.counter) && Writes(o.ledger, n.ledger, id)
    requires forall k :: IsQueued(o.ledger, k) <==> k in o.ledger.queueIds
    requires QueueFits(o) && Timed(o, now, true) && NotDue(n.ledger.records[id], now)
    ensures QueueFits(n) && Timed(n, now, true)
  {
    assert forall k :: k != id ==> (IsLive(n.ledger, k) <==> IsLive(o.ledger, k));
    hide Chain;
    assert forall k :: IsQueued(n.ledger, k) <==> IsQueued(o.ledger, k);
    SameQueueFits(o, n);
  }

  lemma NewIdIsFree(o: Owner)
    requires Sound(o, [])
    ensures o.counter + 1 !in o.ledger.records
  {
  }

  lemma CreatedShape(o: Owner, now: int, event: InputEvent)
    requires o.counter + 1 !in o.ledger.records
    ensures var id := o.counter + 1; var created := CreateConsumed(o.ledger, id, now);
            var kind := if event.wellFormed then event.payload.kind else Unknown;
            && created.records == o.ledger.records[id := Consumed(Unknown, now)]
            && Created(o, now, event).ledger == o.ledger.(records := o.ledger.records[id := Consumed(kind, now)])
            && Created(o, now, event) == o.(counter := id, ledger := Created(o, now, event).ledger)
  {
    var id := o.counter + 1;
    var kind := if event.wellFormed then event.payload.kind else Unknown;
    var created := CreateConsumed(o.ledger, id, now);
    assert created.records[id] == Consumed(Unknown, now);
    assert created.records[id := Consumed(kind, now)] == o.ledger.records[id := Consumed(kind, now)];
  }

  lemma CreatedWrites(o: Owner, now: int, event: InputEvent)
    requires Valid(o.ledger, []) && o.counter + 1 !in o.ledger.records
    ensures var n := Created(o, now, event); var id := o.counter + 1;
            && Valid(n.ledger, []) && Writes(o.ledger, n.ledger, id)
            && IsConsumed(n.ledger, id) && n.ledger.records[id].consumedAtMs == now
            && n == o.(counter := id, ledger := n.ledger)
  {
    hide Valid;
    var id := o.counter + 1;
    var created := CreateConsumed(o.ledger, id, now);
    CreateConsumedValid(o.ledger, id, now);
    CreatedShape(o, now, event);
    if event.wellFormed { IdentifyValid(created, id, event.payload.kind); }
  }

  lemma WritesSteps(o: Owner, n: Owner, id: Id)
    requires n == o.(counter := n.counter, ledger := n.ledger) && Writes(o.ledger, n.ledger, id)
    requires o.counter <= n.counter
    ensures StepsBut(o, n, id)
  {
    assert Log(n) == Log(o);
  }

  lemma CreatedGood(o: Owner, now: int, event: InputEvent)
    requires Good(o, now, true)
    ensures o.counter + 1 !in o.ledger.records
    ensures var n := Created(o, now, event); var id := o.counter + 1;
            Good(n, now, true) && StepsBut(o, n, id) && IsConsumed(n.ledger, id)
            && n.ledger.records[id].consumedAtMs == now
  {
    var id := o.counter + 1;
    NewIdIsFree(o);
    Indexed(o);
    var n := Created(o, now, event);
    hide Valid, ResultsComplete, IdentitiesAssigned, HandedSafely, QueueFits, Timed, IdentitiesUnique, NotSentIsTrue,
         Created, Writes, StepsBut;
    CreatedWrites(o, now, event);
    WritesSteps(o, n, id);
    WrittenRecorded(o.ledger, n.ledger, id, o.counter, id, o.identities, o.handed, Log(o));
    WrittenFits(o, n, id, now);
    assert Log(n) == Log(o);
  }

  lemma RefuseConsumed(o: Owner, m: Owner, now: int, id: Id, reason: NotSentReason)
    requires Good(m, now, true) && StepsBut(o, m, id) && IsConsumed(m.ledger, id)
    ensures var n := FinishAs(m, now, id, NotSent(reason)); Good(n, now, true) && Steps(o, n)
  {
    PreNotHanded(m, [], id);
    FinishAsGood(m, now, true, id, NotSent(reason));
    FinishedShrinks(m, now, id, NotSent(reason));
    hide Good, Sound, FinishAs, Steps;
    StepsButOnward(o, m, FinishAs(m, now, id, NotSent(reason)), id);
  }

  lemma SupersedeGood(o: Owner, now: int, payload: Payload, id: Id)
    requires Good(o, now, true) && IsConsumed(o.ledger, id)
    ensures var n := Supersede(o, now, payload);
            Good(n, now, true) && Steps(o, n) && IsConsumed(n.ledger, id)
            && n.ledger.records[id] == o.ledger.records[id]
  {
    hide Sound;
    Indexed(o);
    StepsSame(o);
    if o.ledger.preIds != [] {
      var last := o.ledger.preIds[|o.ledger.preIds| - 1];
      assert last in o.ledger.preIds;
      PreNotHanded(o, [], last);
      FinishAsSound(o, [], now, last, NotSent(Superseded));
      FinishAsGood(o, now, true, last, NotSent(Superseded));
      hide Good, Steps;
      FinishedOther(o, FinishAs(o, now, last, NotSent(Superseded)), last, id);
    }
  }

  lemma FinishedOther(o: Owner, n: Owner, id: Id, other: Id)
    requires FinishedFrom(o, n, id) && IsLive(o.ledger, other) && other != id
    ensures IsLive(n.ledger, other) && n.ledger.records[other] == o.ledger.records[other]
  {
  }

  lemma EnqueuedGood(o: Owner, now: int, id: Id, payload: Payload, bytes: nat)
    requires Good(o, now, true) && IsConsumed(o.ledger, id) && o.ledger.records[id].consumedAtMs == now
    requires CanReservePreAdmission(o.ledger, bytes)
    ensures var n := o.(ledger := EnqueuePreAdmission(o.ledger, id, payload, bytes));
            Good(n, now, true) && Steps(o, n) && !IsConsumed(n.ledger, id)
  {
    hide Valid, ResultsComplete, IdentitiesAssigned, HandedSafely, QueueFits, Timed, IdentitiesUnique, NotSentIsTrue;
    var n := o.(ledger := EnqueuePreAdmission(o.ledger, id, payload, bytes));
    Indexed(o);
    EnqueueValid(o.ledger, id, payload, bytes);
    assert Writes(o.ledger, n.ledger, id);
    assert Log(n) == Log(o);
    WrittenRecorded(o.ledger, n.ledger, id, o.counter, o.counter, o.identities, o.handed, Log(o));
    WrittenFits(o, n, id, now);
  }

  lemma OfferGood(o: Owner, m: Owner, now: int, id: Id, event: InputEvent)
    requires Good(m, now, true) && StepsBut(o, m, id) && IsConsumed(m.ledger, id)
    requires m.ledger.records[id].consumedAtMs == now
    ensures var n := Offer(m, now, id, event).0; Good(n, now, true) && Steps(o, n)
  {
    hide Good, StepsBut, Steps, FinishAs, Supersede, AdmitPreAdmission;
    var reason := AuthorityReason(m, event.payload);
    if reason.Some? {
      RefuseConsumed(o, m, now, id, reason.value);
    } else {
      var o3 := Supersede(m, now, event.payload);
      SupersedeGood(m, now, event.payload, id);
      StepsButOnward(o, m, o3, id);
      if !CanReservePreAdmission(o3.ledger, event.bytes) {
        RefuseConsumed(o, o3, now, id, Overload);
      } else {
        var o4 := o3.(ledger := EnqueuePreAdmission(o3.ledger, id, event.payload, event.bytes));
        EnqueuedGood(o3, now, id, event.payload, event.bytes);
        StepsButOnward(o, o3, o4, id);
        if event.payload.kind == Key {
          AdmitPreAdmissionGood(o4, now);
          StepsOnward(o, o4, AdmitPreAdmission(o4, now).0);
        } else {
          FlagsKeepGood(o4, o4.(admissionScheduled := true), now, true);
          StepsOnward(o, o4, o4.(admissionScheduled := true));
        }
      }
    }
  }

  lemma ConsumeGood(o: Owner, now: int, event: InputEvent)
    requires Good(o, now, true)
    ensures var n := Consume(o, now, event).0; Good(n, now, true) && Steps(o, n)
  {
    hide Good, StepsBut, Steps, FinishAs, Offer, Created, NoteEvent, Refusal;
    CreatedGood(o, now, event);
    var id := o.counter + 1;
    var o1 := Created(o, now, event);
    if Refusal(event).Some? {
      RefuseConsumed(o, o1, now, id, Refusal(event).value);
    } else {
      NotedGood(o, o1, now, id, event);
    }
  }

  lemma NotedFlags(o: Owner, payload: Payload)
    ensures SameButFlags(o, NoteEvent(o, payload)) && NoteEvent(o, payload).ledger == o.ledger
  {
  }

  lemma NotedGood(o: Owner, o1: Owner, now: int, id: Id, event: InputEvent)
    requires Good(o1, now, true) && StepsBut(o, o1, id) && IsConsumed(o1.ledger, id)
    requires o1.ledger.records[id].consumedAtMs == now
    ensures var n := Offer(NoteEvent(o1, event.payload), now, id, event).0; Good(n, now, true) && Steps(o, n)
  {
    hide Good, StepsBut, Steps, Offer, NoteEvent, SameButFlags;
    var o2 := NoteEvent(o1, event.payload);
    NotedFlags(o1, event.payload);
    FlagsKeepGood(o1, o2, now, true);
    StepsButOnward(o, o1, o2, id);
    OfferGood(o, o2, now, id, event);
  }

  // ---- Every operation ----

  /** Every operation, made at rest or from within the sender, keeps the state good, and ends an intent
      with certainty only on the word of an acknowledgement or proof for its own identity. */
  lemma ApplyGood(o: Owner, now: int, op: Op)
    requires Good(o, now, true)
    ensures var n := Apply(o, now, op).0; Good(n, now, true) && Moves(o, n) && Heard(o, n, OpClaims(op))
  {
    hide Moves, Heard, Sound, QueueFits, Timed, DoAttach, DoDetach, DoRevoke, Consume, DoAcknowledge, DoTombstone,
         AdmitPreAdmission, ExpireDeadlines;
    StepsSame(o);
    match op
    case AttachTransport(transport, freshEpoch) => AttachGood(o, now, transport, freshEpoch);
    case DetachTransport(closed) => DetachGood(o, now, closed);
    case RevokeWriter => RevokeGood(o, now);
    case Send(event) => ConsumeGood(o, now, event);
    case SetReplicaCurrent(_) => FlagsKeepGood(o, Apply(o, now, op).0, now, true);
    case Acknowledge(fence, epoch, seqNo, status, eventSeq) =>
      if fence.Some? { AcknowledgeGood(o, now, Identity(fence.value, epoch, seqNo), status, eventSeq); }
    case ProveTombstone(proof, eventSeq) => TombstoneGood(o, now, proof, eventSeq);
    case ConfirmResize(_) => FlagsKeepGood(o, Apply(o, now, op).0, now, true);
    case RunAdmission => AdmitPreAdmissionGood(o, now);
    case RunSend => FlagsKeepGood(o, Apply(o, now, op).0, now, true);
    case Wake =>
      ForgetCaughtUp(o, now);
      ExpireGood(o, now);
  }

  lemma MovesOnward(o: Owner, m: Owner, n: Owner)
    requires Moves(o, m) && Moves(m, n)
    ensures Moves(o, n)
  {
  }

  lemma HeardOnward(o: Owner, m: Owner, n: Owner, a: set<Claim>, b: set<Claim>, c: set<Claim>)
    requires Heard(o, m, a) && Heard(m, n, b) && a <= c && b <= c
    ensures Heard(o, n, c)
  {
  }

  lemma ForgetCaughtUp(o: Owner, now: int)
    requires Good(o, now, true)
    ensures Good(o, now, false)
  {
    hide Sound, QueueFits;
  }

  function OpsClaims(ops: seq<Op>): set<Claim> {
    if ops == [] then {} else OpClaims(ops[0]) + OpsClaims(ops[1..])
  }

  lemma {:induction false} ApplyAllGood(o: Owner, now: int, ops: seq<Op>)
    requires Good(o, now, true)
    ensures var n := ApplyAll(o, now, ops); Good(n, now, true) && Moves(o, n) && Heard(o, n, OpsClaims(ops))
    decreases |ops|
  {
    hide Good, Moves, Heard, Apply, OpClaims;
    if ops == [] {
      StepsSame(o);
    } else {
      ApplyGood(o, now, ops[0]);
      var next := Apply(o, now, ops[0]).0;
      ApplyAllGood(next, now, ops[1..]);
      var n := ApplyAll(next, now, ops[1..]);
      MovesOnward(o, next, n);
      HeardOnward(o, next, n, OpClaims(ops[0]), OpsClaims(ops[1..]), OpsClaims(ops));
    }
  }
}
