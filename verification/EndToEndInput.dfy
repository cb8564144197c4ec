/** One Browser owner and one Host session, joined by a channel that keeps order and may lose frames.

    The position reached in the log of sender calls is the channel: a frame is carried once, in the order
    it was handed over. `Redeliver` is the one event that breaks "at most once"; what survives it and what
    does not is said at the end. Answers may arrive at any later turn, any number of times, or never. */
module EndToEndInput {
  import opened Collections
  import opened InputAuthority
  import opened IntentLedgers
  import opened InputOwner
  import opened InputOwnerProofs
  import opened InputRuns
  import HostInput

  type Answer = HostInput.Answer

  /** What became of a call of the sender. */
  datatype Fate =
    | NotCarried                // it put nothing into the channel
    | Lost
    | Refused(answer: Answer)   // the relay answered in the Host's place
    | Answered(answer: Answer)  // the Host did

  datatype Reply = Reply(identity: Identity, answer: Answer)

  datatype Net = Net(
    client: string,
    owner: Owner,
    time: int,
    host: HostInput.Host,
    fates: seq<Fate>,     // of owner.handed[..|fates|]
    replies: set<Reply>,
    muddled: set<Identity>)  // identities that a second delivery ran, or rejected although they had run

  datatype Carriage =
    | Loses
    | Refuses(answer: Answer)
    | Delivers(observedEventSeq: Option<nat>, valid: bool, effect: HostInput.Effect)

  datatype Event =
    | OwnerTurn(turn: Turn)
    | Carry(carriage: Carriage)
    | Redeliver(k: nat, observedEventSeq: Option<nat>, valid: bool, effect: HostInput.Effect)
    | Foreign(submission: HostInput.Submission)
    | HostPublishes(events: nat)
    | PtyExits
    | HostFails
    | HostDisposed

  function Start(client: string, epoch: string, inlineSend: bool, entries: nat, time: int): Net {
    Net(client, Initial(epoch, inlineSend), time, HostInput.Fresh(entries), [], {}, {})
  }

  // ---- What may happen ----

  predicate Executed(n: Net, identity: Identity) {
    exists c :: c in n.host.commits && c.clientId == n.client && c.identity == identity && c.completed
  }

  predicate Touched(n: Net, identity: Identity) {
    exists c :: c in n.host.commits && c.clientId == n.client && c.identity == identity
  }

  /** The frame of this identity was left behind on its way. */
  ghost predicate LeftBehind(n: Net, identity: Identity) {
    exists k :: 0 <= k < |n.fates| && k < |n.owner.handed| && n.owner.handed[k].identity == identity
                && !n.fates[k].Answered?
  }

  /** The Host has not run it and never will: what a tombstone proof may truthfully say. */
  ghost predicate NeverRuns(n: Net, identity: Identity) {
    && !Touched(n, identity)
    && (HostInput.Ended(n.host) || identity.writerFence < n.host.fence || LeftBehind(n, identity))
  }

  ghost predicate Known(n: Net, claim: Claim) {
    || Reply(claim.identity, HostInput.Settled(claim.result)) in n.replies
    || (claim.result.Rejected? && NeverRuns(n, claim.identity))
  }

  ghost predicate Enabled(n: Net, e: Event) {
    match e
    case OwnerTurn(turn) =>
      && Truthful(turn.senderTurns)
      && forall claim :: claim in OpClaims(turn.op) + TurnsClaims(turn.senderTurns) ==> Known(n, claim)
    case Carry(carriage) =>
      && |n.fates| < |n.owner.handed|
      && (carriage.Refuses? ==>
            carriage.answer == HostInput.Settled(Rejected) || carriage.answer == HostInput.Unsure)
    case Redeliver(k, _, _, _) => k < |n.fates| && k < |n.owner.handed| && n.fates[k].Answered?
    case Foreign(submission) => submission.clientId != n.client
    case _ => true
  }

  function Submission(n: Net, k: nat, observed: Option<nat>, valid: bool,
                      effect: HostInput.Effect): HostInput.Submission
    requires k < |n.owner.handed|
  {
    HostInput.Submission(n.client, n.owner.handed[k].identity, n.owner.handed[k].payload, observed, valid, effect)
  }

  function CarryNext(n: Net, carriage: Carriage): Net
    requires |n.fates| < |n.owner.handed|
  {
    var h := n.owner.handed[|n.fates|];
    if !h.enqueued then n.(fates := n.fates + [NotCarried])
    else match carriage
      case Loses => n.(fates := n.fates + [Lost])
      case Refuses(answer) =>
        n.(fates := n.fates + [Refused(answer)], replies := n.replies + {Reply(h.identity, answer)})
      case Delivers(observed, valid, effect) =>
        var (host, answer) := HostInput.Submit(n.host, Submission(n, |n.fates|, observed, valid, effect));
        n.(host := host, fates := n.fates + [Answered(answer)], replies := n.replies + {Reply(h.identity, answer)})
  }

  /** A second delivery leaves doubt about an identity in two cases: it runs what the first one refused, or it is
      rejected although the first one ran. */
  function Muddled(n: Net, host: HostInput.Host, identity: Identity, answer: Answer): set<Identity> {
    if host.commits != n.host.commits || (Touched(n, identity) && answer == HostInput.Settled(Rejected))
    then n.muddled + {identity} else n.muddled
  }

  function Step(n: Net, e: Event): Net
    requires e.Carry? ==> |n.fates| < |n.owner.handed|
    requires e.Redeliver? ==> e.k < |n.owner.handed|
  {
    match e
    case OwnerTurn(turn) =>
      n.(owner := Transaction(n.owner, turn.now, turn.op, turn.senderTurns), time := turn.now)
    case Carry(carriage) => CarryNext(n, carriage)
    case Redeliver(k, observed, valid, effect) =>
      var (host, answer) := HostInput.Submit(n.host, Submission(n, k, observed, valid, effect));
      n.(host := host, replies := n.replies + {Reply(n.owner.handed[k].identity, answer)},
         muddled := Muddled(n, host, n.owner.handed[k].identity, answer))
    case Foreign(submission) => n.(host := HostInput.Submit(n.host, submission).0)
    case HostPublishes(events) => n.(host := n.host.(eventSeq := n.host.eventSeq + events))
    case PtyExits => n.(host := n.host.(ptyExited := true))
    case HostFails => n.(host := n.host.(failed := true))
    case HostDisposed => n.(host := n.host.(disposed := true))
  }

  /** An event that cannot happen changes nothing. */
  ghost function Next(n: Net, e: Event): Net {
    if Enabled(n, e) then Step(n, e) else n
  }

  ghost function RunNet(n: Net, events: seq<Event>): Net
    decreases |events|
  {
    if events == [] then n else Next(RunNet(n, events[..|events| - 1]), events[|events| - 1])
  }

  // ---- Invariant ----

  ghost predicate HandedOnce(handed: seq<Handed>) {
    forall i, j :: 0 <= i < |handed| && 0 <= j < |handed| && handed[i].identity == handed[j].identity ==> i == j
  }

  /** Every commit of this client is the effect of one frame that the Host answered, payload and all. */
  ghost predicate CommitsCarried(n: Net)
    requires |n.fates| <= |n.owner.handed|
  {
    forall c :: c in n.host.commits && c.clientId == n.client ==>
      exists k :: 0 <= k < |n.fates| && n.fates[k].Answered?
                  && n.owner.handed[k].identity == c.identity && n.owner.handed[k].payload == c.payload
  }

  ghost predicate FatesAgree(n: Net)
    requires |n.fates| <= |n.owner.handed|
  {
    forall k :: 0 <= k < |n.fates| ==> (n.fates[k].NotCarried? <==> !n.owner.handed[k].enqueued)
  }

  ghost predicate RepliesTrue(n: Net) {
    forall reply :: reply in n.replies && reply.answer.Settled? ==>
      && (!reply.answer.result.Rejected? ==> Executed(n, reply.identity))
      && (reply.answer.result.Rejected? && reply.identity !in n.muddled ==> !Touched(n, reply.identity))
  }

  /** Whatever was answered belongs to a frame that left the channel. */
  ghost predicate RepliesCarried(n: Net)
    requires |n.fates| <= |n.owner.handed|
  {
    forall reply :: reply in n.replies ==>
      exists k :: 0 <= k < |n.fates| && n.owner.handed[k].identity == reply.identity
  }

  ghost predicate ResultsKnown(n: Net) {
    forall r :: r in n.owner.published && r.outcome.Deterministic? ==>
      r.identity.Some? && Known(n, Claim(r.identity.value, r.outcome.result))
  }

  ghost predicate NetInv(n: Net) {
    && Inv(n.owner, n.time) && HandedOnce(n.owner.handed)
    && HostInput.HostInv(n.host)
    && |n.fates| <= |n.owner.handed|
    && FatesAgree(n) && CommitsCarried(n) && RepliesTrue(n) && RepliesCarried(n) && ResultsKnown(n)
  }

  lemma HandedIsOnce(o: Owner, t: int)
    requires Inv(o, t)
    ensures HandedOnce(o.handed)
  {
    hide Inv, Chain, CountsUpTo;
    InvHanded(o, t);
    forall i, j | 0 <= i < |o.handed| && 0 <= j < |o.handed| && o.handed[i].identity == o.handed[j].identity
      ensures i == j
    {
      ChainCountsUp(o.handed, j);
      assert CountsUpTo(o.handed, j);
      CountsOnce(o.handed, i, j);
    }
  }

  lemma CountsOnce(handed: seq<Handed>, i: nat, j: nat)
    requires i < |handed| && j < |handed| && CountsUpTo(handed, j) && handed[i].identity == handed[j].identity
    ensures i == j
  {
  }

  // ---- Every event keeps it ----

  /** What each event leaves standing: histories grow, an ended or fenced Host stays so, and a new commit
      of this client is for a frame that could still run and, unless it is muddled, had no answer yet. */
  ghost predicate Onward(n: Net, m: Net) {
    && m.client == n.client && n.owner.handed <= m.owner.handed && n.fates <= m.fates && n.replies <= m.replies
    && n.host.commits <= m.host.commits
    && (HostInput.Ended(n.host) ==> HostInput.Ended(m.host)) && n.host.fence <= m.host.fence
    && n.muddled <= m.muddled
    && forall i :: |n.host.commits| <= i < |m.host.commits| && m.host.commits[i].clientId == n.client ==>
         NewCommit(n, m, m.host.commits[i].identity)
  }

  ghost predicate NewCommit(n: Net, m: Net, identity: Identity) {
    && !HostInput.Ended(n.host) && identity.writerFence >= n.host.fence && !LeftBehind(n, identity)
    && (identity !in m.muddled ==> forall reply :: reply in n.replies ==> reply.identity != identity)
  }

  lemma ExecutedStays(n: Net, m: Net, identity: Identity)
    requires Onward(n, m) && Executed(n, identity)
    ensures Executed(m, identity)
  {
    var c :| c in n.host.commits && c.clientId == n.client && c.identity == identity && c.completed;
    assert c in m.host.commits;
  }

  lemma TouchedEarlier(n: Net, m: Net, identity: Identity)
    requires Onward(n, m) && Touched(m, identity)
    ensures Touched(n, identity) || NewCommit(n, m, identity)
  {
    var c :| c in m.host.commits && c.clientId == m.client && c.identity == identity;
    var i :| 0 <= i < |m.host.commits| && m.host.commits[i] == c;
    hide NewCommit;
    if i < |n.host.commits| { assert n.host.commits[i] == c && c in n.host.commits; }
  }

  lemma LeftBehindStays(n: Net, m: Net, identity: Identity)
    requires Onward(n, m) && LeftBehind(n, identity)
    ensures LeftBehind(m, identity)
  {
    var k :| 0 <= k < |n.fates| && k < |n.owner.handed| && n.owner.handed[k].identity == identity
             && !n.fates[k].Answered?;
    assert m.fates[k] == n.fates[k] && m.owner.handed[k] == n.owner.handed[k];
  }

  lemma NeverRunsStays(n: Net, m: Net, identity: Identity)
    requires Onward(n, m) && NeverRuns(n, identity)
    ensures NeverRuns(m, identity)
  {
    if Touched(m, identity) { TouchedEarlier(n, m, identity); }
    if LeftBehind(n, identity) { LeftBehindStays(n, m, identity); }
  }

  lemma KnownStays(n: Net, m: Net, claim: Claim)
    requires Onward(n, m) && Known(n, claim)
    ensures Known(m, claim)
  {
    if claim.result.Rejected? && NeverRuns(n, claim.identity) {
      NeverRunsStays(n, m, claim.identity);
    }
    hide NeverRuns;
  }

  lemma RepliesStayTrue(n: Net, m: Net, reply: Reply)
    requires Onward(n, m) && RepliesTrue(n) && reply in n.replies && reply.answer.Settled?
    ensures !reply.answer.result.Rejected? ==> Executed(m, reply.identity)
    ensures reply.answer.result.Rejected? && reply.identity !in m.muddled ==> !Touched(m, reply.identity)
  {
    if !reply.answer.result.Rejected? {
      ExecutedStays(n, m, reply.identity);
    } else if reply.identity !in m.muddled && Touched(m, reply.identity) {
      TouchedEarlier(n, m, reply.identity);
    }
  }

  lemma RepliesStayCarried(n: Net, m: Net, reply: Reply)
    requires Onward(n, m) && |n.fates| <= |n.owner.handed| && RepliesCarried(n) && reply in n.replies
    ensures exists k :: 0 <= k < |m.fates| && k < |m.owner.handed| && m.owner.handed[k].identity == reply.identity
  {
    var k :| 0 <= k < |n.fates| && n.owner.handed[k].identity == reply.identity;
    assert k < |m.fates| && k < |m.owner.handed| && m.owner.handed[k] == n.owner.handed[k];
  }

  lemma CommitStaysCarried(n: Net, m: Net, c: HostInput.Commit)
    requires Onward(n, m) && |n.fates| <= |n.owner.handed| && |m.fates| <= |m.owner.handed|
    requires CommitsCarried(n) && c in n.host.commits && c.clientId == n.client
    ensures exists k :: 0 <= k < |m.fates| && m.fates[k].Answered?
                        && m.owner.handed[k].identity == c.identity && m.owner.handed[k].payload == c.payload
  {
    var k :| 0 <= k < |n.fates| && n.fates[k].Answered?
             && n.owner.handed[k].identity == c.identity && n.owner.handed[k].payload == c.payload;
    assert m.fates[k] == n.fates[k] && m.owner.handed[k] == n.owner.handed[k];
  }

  // ---- Turns of the owner ----

  lemma OwnerOnward(n: Net, turn: Turn)
    requires NetInv(n) && Enabled(n, OwnerTurn(turn))
    ensures var m := Step(n, OwnerTurn(turn));
            && Onward(n, m) && Inv(m.owner, m.time)
            && Heard(n.owner, m.owner, OpClaims(turn.op) + TurnsClaims(turn.senderTurns))
            && Log(n.owner) == n.owner.published && Log(m.owner) == m.owner.published
  {
    hide Heard, Inv, Transaction;
    TransactionGood(n.owner, n.time, turn.now, turn.op, turn.senderTurns);
    InvLog(n.owner, n.time);
    InvLog(Step(n, OwnerTurn(turn)).owner, turn.now);
    hide Inv, Heard, Transaction, HostInput.HostInv;
  }

  lemma InvLog(o: Owner, t: int)
    requires Inv(o, t)
    ensures Log(o) == o.published
  {
    hide Good, AtRest, EarliestDeadline;
  }

  lemma OwnerKeeps(n: Net, turn: Turn)
    requires NetInv(n) && Enabled(n, OwnerTurn(turn))
    ensures NetInv(Step(n, OwnerTurn(turn)))
  {
    var m := Step(n, OwnerTurn(turn));
    OwnerOnward(n, turn);
    HandedIsOnce(m.owner, m.time);
    hide Inv, Known, Heard, HostInput.HostInv, Transaction, OpClaims, TurnsClaims;
    assert m == n.(owner := m.owner, time := m.time);
    OwnerResultsKnown(n, m, OpClaims(turn.op) + TurnsClaims(turn.senderTurns));
    CarriedOnward(n, m);
  }

  lemma OwnerResultsKnown(n: Net, m: Net, claims: set<Claim>)
    requires ResultsKnown(n) && Onward(n, m) && Heard(n.owner, m.owner, claims)
    requires Log(n.owner) == n.owner.published && Log(m.owner) == m.owner.published
    requires forall claim :: claim in claims ==> Known(n, claim)
    ensures ResultsKnown(m)
  {
    hide Known, Onward;
    forall r | r in m.owner.published && r.outcome.Deterministic?
      ensures r.identity.Some? && Known(m, Claim(r.identity.value, r.outcome.result))
    {
      assert r in n.owner.published || Backed(r, claims);
      KnownStays(n, m, Claim(r.identity.value, r.outcome.result));
    }
  }

  /** What an event that adds neither frames' fates nor replies nor commits keeps. */
  lemma CarriedOnward(n: Net, m: Net)
    requires |n.fates| <= |n.owner.handed| && FatesAgree(n) && CommitsCarried(n) && RepliesTrue(n) && RepliesCarried(n)
    requires Onward(n, m) && m.fates == n.fates && m.replies == n.replies && m.host.commits == n.host.commits
    ensures |m.fates| <= |m.owner.handed| && FatesAgree(m) && CommitsCarried(m) && RepliesTrue(m) && RepliesCarried(m)
  {
    forall c | c in m.host.commits && c.clientId == m.client
      ensures exists k :: 0 <= k < |m.fates| && m.fates[k].Answered?
                          && m.owner.handed[k].identity == c.identity && m.owner.handed[k].payload == c.payload
    {
      CommitStaysCarried(n, m, c);
    }
    forall reply | reply in m.replies
      ensures exists k :: 0 <= k < |m.fates| && m.owner.handed[k].identity == reply.identity
    {
      RepliesStayCarried(n, m, reply);
    }
    forall reply | reply in m.replies && reply.answer.Settled?
      ensures !reply.answer.result.Rejected? ==> Executed(m, reply.identity)
      ensures reply.answer.result.Rejected? && reply.identity !in m.muddled ==> !Touched(m, reply.identity)
    {
      RepliesStayTrue(n, m, reply);
    }
  }

  // ---- The Host's own events ----

  lemma HostKeeps(n: Net, host: HostInput.Host)
    requires NetInv(n) && HostInput.HostInv(host) && host.commits == n.host.commits && host.fence >= n.host.fence
    requires HostInput.Ended(n.host) ==> HostInput.Ended(host)
    ensures NetInv(n.(host := host))
  {
    var m := n.(host := host);
    hide Inv, Known, HostInput.HostInv;
    assert Onward(n, m);
    ResultsStayKnown(n, m);
    CarriedOnward(n, m);
  }

  lemma ResultsStayKnown(n: Net, m: Net)
    requires ResultsKnown(n) && Onward(n, m) && m.owner.published == n.owner.published
    ensures ResultsKnown(m)
  {
    hide Known, Onward;
    forall r | r in m.owner.published && r.outcome.Deterministic?
      ensures r.identity.Some? && Known(m, Claim(r.identity.value, r.outcome.result))
    {
      KnownStays(n, m, Claim(r.identity.value, r.outcome.result));
    }
  }

  /** What submitting anything to the Host does, as far as this client is concerned. */
  ghost predicate Submitted(n: Net, host: HostInput.Host, s: HostInput.Submission, answer: Answer) {
    && HostInput.HostInv(host)
    && n.host.fence <= host.fence && (HostInput.Ended(n.host) ==> HostInput.Ended(host))
    && (host.commits == n.host.commits || Ran(n, host, s))
    && (answer.Settled? && answer.result.Rejected? ==> host.commits == n.host.commits)
    && (answer.Settled? && !answer.result.Rejected? ==>
          exists c :: c in host.commits && c.clientId == s.clientId && c.identity == s.identity && c.completed)
  }

  ghost predicate Ran(n: Net, host: HostInput.Host, s: HostInput.Submission) {
    && host.commits == n.host.commits + [HostInput.Commit(s.clientId, s.identity, s.payload, s.effect.completes)]
    && !HostInput.Ended(n.host) && s.identity.writerFence >= n.host.fence
    && forall c :: c in n.host.commits ==> c.identity != s.identity
  }

  lemma SubmitIs(n: Net, s: HostInput.Submission)
    requires HostInput.HostInv(n.host)
    ensures var (host, answer) := HostInput.Submit(n.host, s); Submitted(n, host, s, answer)
  {
    var (host, answer) := HostInput.Submit(n.host, s);
    HostInput.SubmitKeeps(n.host, s);
    HostInput.SubmitAnswers(n.host, s);
    SubmitMonotone(n.host, s);
    hide HostInput.HostInv, HostInput.Submit;
    if host.commits != n.host.commits {
      var last := HostInput.Commit(s.clientId, s.identity, s.payload, s.effect.completes);
      assert last in host.commits;
    }
  }

  lemma SubmitMonotone(h: HostInput.Host, s: HostInput.Submission)
    ensures var n := HostInput.Submit(h, s).0;
            && h.fence <= n.fence && (HostInput.Ended(h) ==> HostInput.Ended(n))
            && (n.commits != h.commits ==> !HostInput.Ended(h) && s.identity.writerFence >= h.fence)
  {
  }

  lemma ForeignKeeps(n: Net, s: HostInput.Submission)
    requires NetInv(n) && s.clientId != n.client
    ensures NetInv(n.(host := HostInput.Submit(n.host, s).0))
  {
    var (host, answer) := HostInput.Submit(n.host, s);
    var m := n.(host := host);
    SubmitIs(n, s);
    hide Inv, Known, HostInput.HostInv, HostInput.Submit;
    ForeignOnward(n, host, s, answer);
    ResultsStayKnown(n, m);
    CarriedMoves(n, m);
  }

  lemma ForeignOnward(n: Net, host: HostInput.Host, s: HostInput.Submission, answer: Answer)
    requires Submitted(n, host, s, answer) && s.clientId != n.client
    ensures Onward(n, n.(host := host))
    ensures forall c :: c in host.commits && c.clientId == n.client ==> c in n.host.commits
  {
    hide HostInput.HostInv;
  }

  /** Everything that was answered, carried or committed before stays so. */
  lemma CarriedMoves(n: Net, m: Net)
    requires |n.fates| <= |n.owner.handed| && FatesAgree(n) && CommitsCarried(n) && RepliesTrue(n) && RepliesCarried(n)
    requires Onward(n, m) && m.fates == n.fates && m.replies == n.replies && m.owner == n.owner
    requires forall c :: c in m.host.commits && c.clientId == m.client ==> c in n.host.commits
    ensures FatesAgree(m) && CommitsCarried(m) && RepliesTrue(m) && RepliesCarried(m)
  {
    forall reply | reply in m.replies && reply.answer.Settled?
      ensures !reply.answer.result.Rejected? ==> Executed(m, reply.identity)
      ensures reply.answer.result.Rejected? && reply.identity !in m.muddled ==> !Touched(m, reply.identity)
    {
      RepliesStayTrue(n, m, reply);
    }
  }

  // ---- The channel ----

  /** m is n after the Host answered frame k: the next one, or one it had answered before. */
  ghost predicate AnswersFrame(n: Net, m: Net, k: nat, s: HostInput.Submission, answer: Answer) {
    && k < |n.owner.handed| && n.owner.handed[k].enqueued
    && s.clientId == n.client && s.identity == n.owner.handed[k].identity && s.payload == n.owner.handed[k].payload
    && m == n.(host := m.host, fates := m.fates, muddled := m.muddled,
               replies := n.replies + {Reply(s.identity, answer)})
    && Submitted(n, m.host, s, answer)
    && if k < |n.fates| then
         n.fates[k].Answered? && m.fates == n.fates && m.muddled == Muddled(n, m.host, s.identity, answer)
       else k == |n.fates| && m.fates == n.fates + [Answered(answer)] && m.muddled == n.muddled
  }

  lemma UncarriedUntouched(n: Net, k: nat)
    requires |n.fates| <= k < |n.owner.handed| && HandedOnce(n.owner.handed) && CommitsCarried(n)
    ensures !Touched(n, n.owner.handed[k].identity)
  {
  }

  lemma AnswerIsNew(n: Net, m: Net, k: nat, s: HostInput.Submission, answer: Answer)
    requires AnswersFrame(n, m, k, s, answer) && |n.fates| <= |n.owner.handed|
    requires HandedOnce(n.owner.handed) && RepliesCarried(n)
    requires Ran(n, m.host, s)
    ensures NewCommit(n, m, s.identity)
  {
    hide HostInput.HostInv;
    if s.identity !in m.muddled {
      forall reply | reply in n.replies ensures reply.identity != s.identity {
        var i :| 0 <= i < |n.fates| && n.owner.handed[i].identity == reply.identity;
        assert i != k;
      }
    }
  }

  lemma AnswerOnward(n: Net, m: Net, k: nat, s: HostInput.Submission, answer: Answer)
    requires AnswersFrame(n, m, k, s, answer) && |n.fates| <= |n.owner.handed|
    requires HandedOnce(n.owner.handed) && RepliesCarried(n)
    ensures Onward(n, m)
  {
    hide HostInput.HostInv, NewCommit, RepliesCarried, HandedOnce;
    if m.host.commits != n.host.commits {
      AnswerIsNew(n, m, k, s, answer);
    }
  }

  lemma AnswerReplies(n: Net, m: Net, k: nat, s: HostInput.Submission, answer: Answer)
    requires AnswersFrame(n, m, k, s, answer) && |n.fates| <= |n.owner.handed| && Onward(n, m)
    requires HandedOnce(n.owner.handed) && RepliesTrue(n) && CommitsCarried(n)
    ensures RepliesTrue(m)
  {
    if k == |n.fates| { UncarriedUntouched(n, k); }
    forall reply | reply in m.replies && reply.answer.Settled?
      ensures !reply.answer.result.Rejected? ==> Executed(m, reply.identity)
      ensures reply.answer.result.Rejected? && reply.identity !in m.muddled ==> !Touched(m, reply.identity)
    {
      if reply in n.replies { RepliesStayTrue(n, m, reply); }
    }
  }

  lemma AnswerCarried(n: Net, m: Net, k: nat, s: HostInput.Submission, answer: Answer)
    requires AnswersFrame(n, m, k, s, answer) && |n.fates| <= |n.owner.handed| && Onward(n, m)
    requires CommitsCarried(n) && RepliesCarried(n) && FatesAgree(n)
    ensures CommitsCarried(m) && RepliesCarried(m) && FatesAgree(m)
  {
    assert k < |m.fates| && m.fates[k].Answered?;
    forall c | c in m.host.commits && c.clientId == m.client
      ensures exists i :: 0 <= i < |m.fates| && m.fates[i].Answered?
                          && m.owner.handed[i].identity == c.identity && m.owner.handed[i].payload == c.payload
    {
      if c in n.host.commits { CommitStaysCarried(n, m, c); }
    }
    forall reply | reply in m.replies
      ensures exists i :: 0 <= i < |m.fates| && m.owner.handed[i].identity == reply.identity
    {
      if reply in n.replies { RepliesStayCarried(n, m, reply); }
    }
  }

  lemma AnswerKeeps(n: Net, m: Net, k: nat, s: HostInput.Submission, answer: Answer)
    requires NetInv(n) && AnswersFrame(n, m, k, s, answer)
    ensures NetInv(m)
  {
    hide Inv, Known, HostInput.HostInv, Onward, HandedOnce, CommitsCarried, FatesAgree, RepliesTrue, RepliesCarried,
         ResultsKnown;
    AnswerOnward(n, m, k, s, answer);
    AnswerReplies(n, m, k, s, answer);
    AnswerCarried(n, m, k, s, answer);
    ResultsStayKnown(n, m);
  }

  /** A frame that does not reach the Host. */
  lemma StrayKeeps(n: Net, m: Net, fate: Fate)
    requires NetInv(n) && |n.fates| < |n.owner.handed| && !fate.Answered?
    requires fate.NotCarried? <==> !n.owner.handed[|n.fates|].enqueued
    requires fate.Refused? && fate.answer.Settled? ==> fate.answer.result.Rejected?
    requires m == n.(fates := n.fates + [fate],
                     replies := if fate.Refused? then
                                  n.replies + {Reply(n.owner.handed[|n.fates|].identity, fate.answer)}
                                else n.replies)
    ensures NetInv(m)
  {
    hide Inv, Known, HostInput.HostInv;
    assert Onward(n, m);
    ResultsStayKnown(n, m);
    UncarriedUntouched(n, |n.fates|);
    StrayReplies(n, m);
    StrayCarried(n, m);
  }

  lemma StrayReplies(n: Net, m: Net)
    requires |n.fates| < |n.owner.handed| && Onward(n, m) && RepliesTrue(n)
    requires m == n.(fates := m.fates, replies := m.replies)
    requires forall reply :: reply in m.replies ==>
               reply in n.replies || (reply.identity == n.owner.handed[|n.fates|].identity
                                      && (reply.answer.Settled? ==> reply.answer.result.Rejected?))
    requires !Touched(n, n.owner.handed[|n.fates|].identity)
    ensures RepliesTrue(m)
  {
    forall reply | reply in m.replies && reply.answer.Settled?
      ensures !reply.answer.result.Rejected? ==> Executed(m, reply.identity)
      ensures reply.answer.result.Rejected? && reply.identity !in m.muddled ==> !Touched(m, reply.identity)
    {
      if reply in n.replies { RepliesStayTrue(n, m, reply); }
    }
  }

  lemma StrayCarried(n: Net, m: Net)
    requires |n.fates| < |n.owner.handed| && |m.fates| == |n.fates| + 1 && Onward(n, m)
    requires m == n.(fates := m.fates, replies := m.replies)
    requires forall reply :: reply in m.replies ==>
               reply in n.replies || reply.identity == n.owner.handed[|n.fates|].identity
    requires CommitsCarried(n) && RepliesCarried(n)
    ensures CommitsCarried(m) && RepliesCarried(m)
  {
    forall c | c in m.host.commits && c.clientId == m.client
      ensures exists i :: 0 <= i < |m.fates| && m.fates[i].Answered?
                          && m.owner.handed[i].identity == c.identity && m.owner.handed[i].payload == c.payload
    {
      CommitStaysCarried(n, m, c);
    }
    forall reply | reply in m.replies
      ensures exists i :: 0 <= i < |m.fates| && m.owner.handed[i].identity == reply.identity
    {
      if reply in n.replies { RepliesStayCarried(n, m, reply); }
    }
  }

  lemma CarryKeeps(n: Net, carriage: Carriage)
    requires NetInv(n) && Enabled(n, Carry(carriage))
    ensures NetInv(CarryNext(n, carriage))
  {
    var k := |n.fates|;
    var m := CarryNext(n, carriage);
    hide NetInv;
    if !n.owner.handed[k].enqueued {
      StrayKeeps(n, m, NotCarried);
    } else {
      match carriage
      case Loses => StrayKeeps(n, m, Lost);
      case Refuses(answer) => StrayKeeps(n, m, Refused(answer));
      case Delivers(observed, valid, effect) => DeliverKeeps(n, m, k, observed, valid, effect);
    }
  }

  lemma DeliverKeeps(n: Net, m: Net, k: nat, observed: Option<nat>, valid: bool, effect: HostInput.Effect)
    requires NetInv(n) && k < |n.owner.handed| && n.owner.handed[k].enqueued
    requires var (host, answer) := HostInput.Submit(n.host, Submission(n, k, observed, valid, effect));
             && m == n.(host := host, fates := m.fates, muddled := m.muddled,
                        replies := n.replies + {Reply(n.owner.handed[k].identity, answer)})
             && if k < |n.fates|
                then n.fates[k].Answered? && m.fates == n.fates
                     && m.muddled == Muddled(n, host, n.owner.handed[k].identity, answer)
                else k == |n.fates| && m.fates == n.fates + [Answered(answer)] && m.muddled == n.muddled
    ensures NetInv(m)
  {
    var s := Submission(n, k, observed, valid, effect);
    var answer := HostInput.Submit(n.host, s).1;
    assert HostInput.HostInv(n.host);
    SubmitIs(n, s);
    hide NetInv, HostInput.Submit, Submitted;
    AnswerKeeps(n, m, k, s, answer);
  }

  lemma RedeliverKeeps(n: Net, k: nat, observed: Option<nat>, valid: bool, effect: HostInput.Effect)
    requires NetInv(n) && Enabled(n, Redeliver(k, observed, valid, effect))
    ensures NetInv(Step(n, Redeliver(k, observed, valid, effect)))
  {
    hide Inv, CommitsCarried, RepliesTrue, RepliesCarried, ResultsKnown, HandedOnce;
    assert n.owner.handed[k].enqueued;
    hide NetInv;
    DeliverKeeps(n, Step(n, Redeliver(k, observed, valid, effect)), k, observed, valid, effect);
  }

  lemma HostEventKeeps(n: Net, e: Event)
    requires NetInv(n) && (e.HostPublishes? || e.PtyExits? || e.HostFails? || e.HostDisposed?)
    ensures NetInv(Step(n, e))
  {
    hide Inv, CommitsCarried, RepliesTrue, RepliesCarried, ResultsKnown, FatesAgree, HandedOnce;
    assert HostInput.HostInv(n.host);
    hide NetInv, HostInput.HostInv;
    HostInput.FlagsKeep(n.host, Step(n, e).host);
    HostKeeps(n, Step(n, e).host);
  }

  lemma EventKeeps(n: Net, e: Event)
    requires NetInv(n)
    ensures NetInv(Next(n, e))
  {
    hide NetInv;
    if Enabled(n, e) {
      match e
      case OwnerTurn(turn) => OwnerKeeps(n, turn);
      case Carry(carriage) => CarryKeeps(n, carriage);
      case Redeliver(k, observed, valid, effect) => RedeliverKeeps(n, k, observed, valid, effect);
      case Foreign(submission) => ForeignKeeps(n, submission);
      case _ => HostEventKeeps(n, e);
    }
  }

  lemma StartInv(client: string, epoch: string, inlineSend: bool, entries: nat, time: int)
    requires entries > 0
    ensures NetInv(Start(client, epoch, inlineSend, entries, time))
  {
    InitialInv(epoch, inlineSend, time);
    HostInput.FreshInv(entries);
    hide Inv, HostInput.HostInv;
  }

  lemma {:induction false} RunKeepsNet(n: Net, events: seq<Event>)
    requires NetInv(n)
    ensures NetInv(RunNet(n, events))
    decreases |events|
  {
    hide NetInv, Next;
    if events != [] {
      RunKeepsNet(n, events[..|events| - 1]);
      EventKeeps(RunNet(n, events[..|events| - 1]), events[|events| - 1]);
    }
  }

  // ---- What a published result means ----

  /** How often an identity was run for a client. */
  function Runs(commits: seq<HostInput.Commit>, client: string, identity: Identity): nat {
    if commits == [] then 0
    else
      var c := commits[|commits| - 1];
      Runs(commits[..|commits| - 1], client, identity) + if c.clientId == client && c.identity == identity then 1 else 0
  }

  /** How often the effect of an intent was run: never, for one that was not given an identity. */
  function IntentRuns(n: Net, id: Id): nat {
    if id in n.owner.identities then Runs(n.host.commits, n.client, n.owner.identities[id]) else 0
  }

  lemma {:induction false} RunsIfTouched(commits: seq<HostInput.Commit>, client: string, identity: Identity)
    ensures Runs(commits, client, identity) == 0 <==>
            !exists c :: c in commits && c.clientId == client && c.identity == identity
  {
    if commits != [] {
      var rest := commits[..|commits| - 1];
      RunsIfTouched(rest, client, identity);
      assert commits == rest + [commits[|commits| - 1]];
    }
  }

  lemma {:induction false} RunsAtMostOnce(commits: seq<HostInput.Commit>, client: string, identity: Identity)
    requires forall i, j :: 0 <= i < j < |commits| ==> commits[i].identity != commits[j].identity
    ensures Runs(commits, client, identity) <= 1
  {
    if commits != [] {
      var rest := commits[..|commits| - 1];
      RunsAtMostOnce(rest, client, identity);
      RunsIfTouched(rest, client, identity);
    }
  }

  lemma CommitsDiffer(h: HostInput.Host)
    requires HostInput.HostInv(h)
    ensures forall i, j :: 0 <= i < j < |h.commits| ==> h.commits[i].identity != h.commits[j].identity
  {
    forall i, j | 0 <= i < j < |h.commits| ensures h.commits[i].identity != h.commits[j].identity {
      assert Before(h.commits[i].identity, h.commits[j].identity);
    }
  }

  /** What each outcome says of the number of times the effect ran. */
  predicate OutcomeFits(outcome: Outcome, runs: nat, muddled: bool) {
    && runs <= 1
    && (outcome.NotSent? ==> runs == 0)
    && (outcome.Deterministic? && !outcome.result.Rejected? ==> runs == 1)
    && (outcome.Deterministic? && outcome.result.Rejected? && !muddled ==> runs == 0)
  }

  lemma PublishedFacts(o: Owner, t: int, r: InputResult)
    requires Inv(o, t) && r in o.published
    ensures 1 <= r.id <= o.counter
    ensures r.identity == Lookup(o.identities, r.id)
    ensures r.outcome.NotSent? && r.identity.Some? ==>
              forall h :: h in o.handed && h.identity == r.identity.value ==> !h.enqueued
  {
    hide EarliestDeadline, Valid, QueueFits, Timed, AtRest, Consistent, Chain;
    assert r in Log(o) by { InvLog(o, t); }
  }

  lemma NotSentUntouched(n: Net, r: InputResult)
    requires NetInv(n) && r in n.owner.published && r.outcome.NotSent? && r.identity.Some?
    ensures !Touched(n, r.identity.value)
  {
    PublishedFacts(n.owner, n.time, r);
    hide Inv, HostInput.HostInv, RepliesTrue, RepliesCarried, ResultsKnown, HandedOnce;
  }

  lemma CertainMeans(n: Net, r: InputResult)
    requires NetInv(n) && r in n.owner.published && r.outcome.Deterministic?
    ensures r.identity.Some?
    ensures !r.outcome.result.Rejected? ==> Executed(n, r.identity.value)
    ensures r.outcome.result.Rejected? && r.identity.value !in n.muddled ==> !Touched(n, r.identity.value)
  {
    hide Inv, HostInput.HostInv, RepliesCarried, HandedOnce, CommitsCarried, FatesAgree;
    assert Known(n, Claim(r.identity.value, r.outcome.result));
  }

  lemma ResultFits(n: Net, r: InputResult)
    requires NetInv(n) && r in n.owner.published
    ensures OutcomeFits(r.outcome, IntentRuns(n, r.id), r.identity.Some? && r.identity.value in n.muddled)
  {
    hide HostInput.HostInv, Inv, CommitsCarried, RepliesTrue, RepliesCarried, ResultsKnown, FatesAgree, HandedOnce;
    PublishedFacts(n.owner, n.time, r);
    CommitsDiffer(n.host);
    if r.identity.Some? {
      var identity := r.identity.value;
      if r.outcome.NotSent? { NotSentUntouched(n, r); }
      if r.outcome.Deterministic? { CertainMeans(n, r); }
      hide NetInv;
      RunsIfTouched(n.host.commits, n.client, identity);
      RunsAtMostOnce(n.host.commits, n.client, identity);
    } else {
      if r.outcome.Deterministic? { CertainMeans(n, r); }
    }
  }

  /** End to end, over every run: a result that says "not sent" means the effect never ran, "written" and
      "duplicate" that it ran exactly once, "uncertain" that it ran at most once, and "rejected" that it
      never ran, unless the channel delivered this very frame twice and the second delivery ran what the first
      had refused, or came when the session had ended or a newer fence had taken over. */
  lemma ResultsTellTheTruth(client: string, epoch: string, inlineSend: bool, entries: nat, time: int,
                            events: seq<Event>, r: InputResult)
    requires entries > 0
    requires r in RunNet(Start(client, epoch, inlineSend, entries, time), events).owner.published
    ensures var n := RunNet(Start(client, epoch, inlineSend, entries, time), events);
            OutcomeFits(r.outcome, IntentRuns(n, r.id), r.identity.Some? && r.identity.value in n.muddled)
  {
    var start := Start(client, epoch, inlineSend, entries, time);
    StartInv(client, epoch, inlineSend, entries, time);
    RunKeepsNet(start, events);
    hide NetInv, RunNet, OutcomeFits;
    ResultFits(RunNet(start, events), r);
  }

  /** When a second delivery muddles an identity. One that had run: exactly when the session has ended or a newer
      fence has taken over, and then without a trace at the Host. One that had not: exactly when the Host accepts it
      now, and then it runs once. */
  lemma SecondDeliveryMuddlesIff(n: Net, s: HostInput.Submission)
    requires HostInput.HostInv(n.host) && s.clientId == n.client && HostInput.WellNamed(s)
    requires s.identity.writerFence <= MAX_U64 && s.identity !in n.muddled
    ensures var (host, answer) := HostInput.Submit(n.host, s);
            if Touched(n, s.identity) then
              && host == n.host
              && (s.identity in Muddled(n, host, s.identity, answer) <==>
                    HostInput.Ended(n.host) || s.identity.writerFence < n.host.fence)
            else
              && (s.identity in Muddled(n, host, s.identity, answer) <==> HostInput.Accepts(n.host, s))
              && host.commits == if HostInput.Accepts(n.host, s)
                                 then n.host.commits
                                      + [HostInput.Commit(s.clientId, s.identity, s.payload, s.effect.completes)]
                                 else n.host.commits
  {
    HostInput.RunsIffAccepted(n.host, s);
    if Touched(n, s.identity) { TouchedMuddlesIff(n, s); }
    hide HostInput.Submit, HostInput.HostInv, HostInput.Accepts, HostInput.WellNamed;
  }

  lemma TouchedMuddlesIff(n: Net, s: HostInput.Submission)
    requires HostInput.HostInv(n.host) && s.clientId == n.client && HostInput.WellNamed(s)
    requires s.identity.writerFence <= MAX_U64 && s.identity !in n.muddled && Touched(n, s.identity)
    ensures var (host, answer) := HostInput.Submit(n.host, s);
            && host == n.host
            && (s.identity in Muddled(n, host, s.identity, answer) <==>
                  HostInput.Ended(n.host) || s.identity.writerFence < n.host.fence)
  {
    var c :| c in n.host.commits && c.clientId == n.client && c.identity == s.identity;
    var k :| 0 <= k < |n.host.commits| && n.host.commits[k] == c;
    HostInput.ResubmissionAnswer(n.host, s, k);
    hide HostInput.Submit, HostInput.HostInv;
  }

  /** Whatever ran for this client is the effect of one call of the sender, for one of its intents and
      with the payload that intent was admitted with. */
  ghost predicate Owned(n: Net, c: HostInput.Commit) {
    exists k :: 0 <= k < |n.owner.handed| && CalledFor(n, n.owner.handed[k], c)
  }

  predicate CalledFor(n: Net, h: Handed, c: HostInput.Commit) {
    h.enqueued && h.identity == c.identity && h.payload == c.payload
    && h.id in n.owner.identities && n.owner.identities[h.id] == c.identity
  }

  lemma HandedFacts(o: Owner, t: int, h: Handed)
    requires Inv(o, t) && h in o.handed
    ensures h.id in o.identities && o.identities[h.id] == h.identity
  {
    hide EarliestDeadline, Valid, QueueFits, Timed, AtRest, Consistent, Chain;
  }

  lemma EffectsAreOwned(client: string, epoch: string, inlineSend: bool, entries: nat, time: int,
                        events: seq<Event>, c: HostInput.Commit)
    requires entries > 0
    requires c in RunNet(Start(client, epoch, inlineSend, entries, time), events).host.commits && c.clientId == client
    ensures Owned(RunNet(Start(client, epoch, inlineSend, entries, time), events), c)
  {
    var start := Start(client, epoch, inlineSend, entries, time);
    var n := RunNet(start, events);
    StartInv(client, epoch, inlineSend, entries, time);
    RunKeepsNet(start, events);
    RunKeepsClient(start, events);
    hide RunNet, Inv, HostInput.HostInv, RepliesTrue, RepliesCarried, ResultsKnown, HandedOnce;
    var k :| 0 <= k < |n.fates| && n.fates[k].Answered?
             && n.owner.handed[k].identity == c.identity && n.owner.handed[k].payload == c.payload;
    HandedFacts(n.owner, n.time, n.owner.handed[k]);
    assert CalledFor(n, n.owner.handed[k], c);
  }

  lemma {:induction false} RunKeepsClient(n: Net, events: seq<Event>)
    ensures RunNet(n, events).client == n.client
    decreases |events|
  {
    hide Enabled;
    if events != [] { RunKeepsClient(n, events[..|events| - 1]); }
  }

  /** The sender is called at most once for an intent, and each intent has at most one result, which it
      has as soon as it is no longer open. */
  lemma IntentsEndOnce(client: string, epoch: string, inlineSend: bool, entries: nat, time: int,
                       events: seq<Event>, id: Id)
    requires entries > 0
    requires 1 <= id <= RunNet(Start(client, epoch, inlineSend, entries, time), events).owner.counter
    ensures var o := RunNet(Start(client, epoch, inlineSend, entries, time), events).owner;
            && (IsLive(o.ledger, id) <==> !HasResult(o.published, id))
            && (forall i, j :: (0 <= i < |o.published| && 0 <= j < |o.published|
                                && o.published[i].id == id && o.published[j].id == id) ==> i == j)
            && (forall i, j :: (0 <= i < |o.handed| && 0 <= j < |o.handed|
                                && o.handed[i].id == id && o.handed[j].id == id) ==> i == j)
  {
    hide RunNet;
    var start := Start(client, epoch, inlineSend, entries, time);
    var n := RunNet(start, events);
    StartInv(client, epoch, inlineSend, entries, time);
    RunKeepsNet(start, events);
    assert Inv(n.owner, n.time) && HandedOnce(n.owner.handed);
    hide NetInv;
    InvEndsOnce(n.owner, n.time, id);
    InvHanded(n.owner, n.time);
  }
}
