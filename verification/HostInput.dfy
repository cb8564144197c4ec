/** How the Host session commits submitted input to the PTY at most once, with bounded memory.

    `Host` is the value of the fields that input touches, with the log of every commit ever attempted.
    The class TerminalInput keeps those fields and updates them in place. */
module HostInput {
  import opened Collections
  import opened InputAuthority
  import opened IntentLedgers

  const MAX_NAME: nat := 128

  datatype Remembered = WasWritten | WasUncertain

  datatype Writer = Writer(clientId: string, highWater: nat, inputEpoch: string)

  /** One execution of a submission's effect. One that threw may have been cut short. */
  datatype Commit = Commit(clientId: string, identity: Identity, payload: Payload, completed: bool)

  /** What running the effect does: whether it returns, how many events it publishes, and whether the
      PTY exits or the session is disposed of while it runs. */
  datatype Effect = Effect(completes: bool, events: nat, ptyExits: bool, disposes: bool)

  datatype Answer = Settled(result: AckResult) | Unsure

  datatype Submission = Submission(
    clientId: string,
    identity: Identity,
    payload: Payload,
    observedEventSeq: Option<nat>,
    valid: bool,       // validate did not throw
    effect: Effect)

  datatype Host = Host(
    ptyExited: bool,
    failed: bool,
    disposed: bool,
    eventSeq: nat,
    fence: nat,
    writer: Option<Writer>,
    results: map<nat, Remembered>,
    order: seq<nat>,              // the insertion order of results
    entries: nat,                 // how many results are remembered
    commits: seq<Commit>)

  function Fresh(entries: nat): Host {
    Host(false, false, false, 0, 0, None, map[], [], entries, [])
  }

  predicate Ended(h: Host) { h.ptyExited || h.failed || h.disposed }

  predicate WellNamed(s: Submission) {
    0 < |s.clientId| <= MAX_NAME && 0 < |s.identity.inputEpoch| <= MAX_NAME && 0 < s.identity.clientInputSeq
  }

  /** The writer that a submission may act as: the established one if it matches, or a new one for the
      first number of its epoch. */
  predicate MayWrite(h: Host, s: Submission) {
    match h.writer
    case Some(w) => w.clientId == s.clientId && w.inputEpoch == s.identity.inputEpoch
    case None => s.identity.clientInputSeq == 1
  }

  /** A strictly newer fence forgets the writer and everything remembered of it. */
  function Advance(h: Host, fence: nat): Host {
    if fence > h.fence then h.(fence := fence, writer := None, results := map[], order := []) else h
  }

  function Trim(results: map<nat, Remembered>, order: seq<nat>, entries: nat): (map<nat, Remembered>, seq<nat>)
    decreases |order|
  {
    if |order| <= entries || order == [] then (results, order)
    else Trim(results - {order[0]}, order[1..], entries)
  }

  function Remember(h: Host, seqNo: nat, result: Remembered): Host
    requires h.writer.Some?
  {
    var order := if seqNo in h.results then h.order else h.order + [seqNo];
    var (results, kept) := Trim(h.results[seqNo := result], order, h.entries);
    h.(results := results, order := kept,
       writer := Some(if seqNo > h.writer.value.highWater then h.writer.value.(highWater := seqNo) else h.writer.value))
  }

  /** The session once the effect of s has run, before its result is remembered. */
  function Ran(h: Host, s: Submission): Host {
    var writer := if h.writer.Some? then h.writer.value else Writer(s.clientId, 0, s.identity.inputEpoch);
    h.(writer := Some(writer), eventSeq := h.eventSeq + s.effect.events,
       ptyExited := h.ptyExited || s.effect.ptyExits, disposed := h.disposed || s.effect.disposes,
       commits := h.commits + [Commit(s.clientId, s.identity, s.payload, s.effect.completes)])
  }

  lemma RanEstablishes(h: Host, s: Submission)
    ensures Ran(h, s).writer.Some? && Ran(h, s).failed == h.failed
  {
  }

  function Execute(h: Host, s: Submission): (Host, Answer) {
    var ran := Ran(h, s);
    if s.effect.completes then
      (Remember(ran, s.identity.clientInputSeq, WasWritten), Settled(Written))
    else
      // A session that was disposed of meanwhile does not fail as well.
      (Remember(ran, s.identity.clientInputSeq, WasUncertain).(failed := h.failed || !ran.disposed), Unsure)
  }

  /** The answer for a number the established writer has used before. */
  function Recall(h: Host, seqNo: nat): Option<Answer> {
    if h.writer.None? then None
    else if seqNo in h.results then Some(if h.results[seqNo].WasWritten? then Settled(Duplicate) else Unsure)
    else if seqNo <= h.writer.value.highWater then Some(Unsure)
    else None
  }

  function Submit(h0: Host, s: Submission): (Host, Answer) {
    if Ended(h0) then (h0, Settled(Rejected))
    else if s.identity.writerFence == 0 || s.identity.writerFence > MAX_U64 then (h0, Settled(Rejected))
    else if s.identity.writerFence < h0.fence then (h0, Settled(Rejected))
    else
      var h := Advance(h0, s.identity.writerFence);
      var recalled := Recall(h, s.identity.clientInputSeq);
      if !WellNamed(s) || !MayWrite(h, s) then (h, Settled(Rejected))
      else if recalled.Some? then (h, recalled.value)
      else if s.observedEventSeq.Some? && s.observedEventSeq.value > h.eventSeq then (h, Settled(Rejected))
      else if !s.valid then (h, Settled(Rejected))
      else Execute(h, s)
  }

  // ---- Invariant ----

  /** Commits ascend strictly by fence and number, and a fence has one client and one epoch. */
  ghost predicate Ascending(commits: seq<Commit>) {
    forall i, j :: 0 <= i < j < |commits| ==>
      && Before(commits[i].identity, commits[j].identity)
      && (commits[i].identity.writerFence == commits[j].identity.writerFence ==>
            && commits[i].clientId == commits[j].clientId
            && commits[i].identity.inputEpoch == commits[j].identity.inputEpoch)
  }

  /** The first commit under a fence carries number 1. */
  ghost predicate StartsAtOne(commits: seq<Commit>) {
    forall j :: 0 <= j < |commits| ==>
      (j == 0 || commits[j - 1].identity.writerFence < commits[j].identity.writerFence ==>
         commits[j].identity.clientInputSeq == 1)
  }

  /** The last commit is the established writer's own. */
  ghost predicate WriterCurrent(h: Host) {
    && (forall c :: c in h.commits ==> 0 < c.identity.writerFence <= h.fence)
    && (h.writer.None? ==>
          h.results == map[] && h.order == [] && forall c :: c in h.commits ==> c.identity.writerFence < h.fence)
    && (h.writer.Some? ==>
          && h.commits != []
          && var last := h.commits[|h.commits| - 1];
             && last.identity.writerFence == h.fence
             && h.writer.value == Writer(last.clientId, last.identity.clientInputSeq, last.identity.inputEpoch))
  }

  /** The remembered numbers, oldest first, are those of the last commits, all under one fence. */
  ghost predicate MemoryMatches(commits: seq<Commit>, order: seq<nat>, results: map<nat, Remembered>, fence: nat) {
    && |order| <= |commits|
    && (forall n :: n in results <==> n in order)
    && forall i :: 0 <= i < |order| ==>
         var c := commits[|commits| - |order| + i];
         && c.identity.writerFence == fence
         && c.identity.clientInputSeq == order[i]
         && order[i] in results
         && (results[order[i]].WasWritten? <==> c.completed)
  }

  /** What is remembered is exactly the newest commits of the current fence, at most `entries` of them. */
  ghost predicate RemembersNewest(h: Host) {
    |h.order| <= h.entries && MemoryMatches(h.commits, h.order, h.results, h.fence)
  }

  /** A commit is forgotten only when newer ones fill the memory. */
  ghost predicate ForgetsOnlyWhenFull(h: Host) {
    h.writer.Some? && |h.order| < h.entries && |h.order| < |h.commits| ==>
      h.commits[|h.commits| - |h.order| - 1].identity.writerFence < h.fence
  }

  ghost predicate HostInv(h: Host) {
    && h.entries > 0
    && Ascending(h.commits) && StartsAtOne(h.commits)
    && WriterCurrent(h) && RemembersNewest(h) && ForgetsOnlyWhenFull(h)
    && (forall c :: c in h.commits && !c.completed ==> Ended(h))
  }

  lemma FreshInv(entries: nat)
    requires entries > 0
    ensures HostInv(Fresh(entries))
  {
  }

  /** Ending, or publishing anything else, leaves input alone. */
  lemma FlagsKeep(h: Host, n: Host)
    requires HostInv(h) && (Ended(h) ==> Ended(n))
    requires n == h.(ptyExited := n.ptyExited, failed := n.failed, disposed := n.disposed, eventSeq := n.eventSeq)
    ensures HostInv(n)
  {
    hide Ascending, StartsAtOne, MemoryMatches;
  }

  lemma AdvanceKeeps(h: Host, fence: nat)
    requires HostInv(h)
    ensures HostInv(Advance(h, fence)) && Advance(h, fence).fence >= fence
  {
  }

  lemma EvictsOldest(results: map<nat, Remembered>, order: seq<nat>, entries: nat)
    requires 0 < entries && |order| <= entries + 1
    ensures Trim(results, order, entries) ==
            if |order| <= entries then (results, order) else (results - {order[0]}, order[1..])
  {
    if |order| > entries {
      assert Trim(results, order, entries) == Trim(results - {order[0]}, order[1..], entries);
    }
  }

  /** What remembering a new number makes of the memory. */
  ghost predicate Remembers(h: Host, n: Host, seqNo: nat, result: Remembered) {
    && 0 < h.entries && seqNo !in h.order
    && n.order == (if |h.order| < h.entries then h.order else h.order[1..]) + [seqNo]
    && (forall k :: k in n.results <==> k in n.order)
    && (forall k :: k in n.results ==>
          if k == seqNo then n.results[k] == result else k in h.results && n.results[k] == h.results[k])
  }

  lemma RememberNew(h: Host, seqNo: nat, result: Remembered)
    requires h.writer.Some? && seqNo !in h.results && |h.order| <= h.entries && h.entries > 0
    requires forall n :: n in h.results <==> n in h.order
    requires Distinct(h.order)
    ensures Remembers(h, Remember(h, seqNo, result), seqNo, result)
  {
    hide Distinct;
    assert Remember(h, seqNo, result).order == Trim(h.results[seqNo := result], h.order + [seqNo], h.entries).1;
    assert Remember(h, seqNo, result).results == Trim(h.results[seqNo := result], h.order + [seqNo], h.entries).0;
    var order := h.order + [seqNo];
    var n := Remember(h, seqNo, result);
    EvictsOldest(h.results[seqNo := result], order, h.entries);
    hide Trim, Distinct, Remember;
    if |h.order| == h.entries {
      assert order[1..] == h.order[1..] + [seqNo];
      forall k ensures k in n.order <==> (k in h.order || k == seqNo) && k != h.order[0] {
        DropOldest(h.order, seqNo, k);
      }
      assert n.results == h.results[seqNo := result] - {h.order[0]};
    } else {
      assert n.order == order && n.results == h.results[seqNo := result];
      forall k ensures k in n.order <==> k in h.order || k == seqNo {}
    }
  }

  lemma DropOldest(s: seq<nat>, x: nat, k: nat)
    requires Distinct(s) && s != [] && x !in s
    ensures k in s[1..] + [x] <==> (k in s || k == x) && k != s[0]
  {
    assert s == [s[0]] + s[1..];
    assert s[0] !in s[1..];
  }

  /** A number not remembered and above the high-water mark can be executed. */
  ghost predicate MayExecute(h: Host, s: Submission) {
    && !Ended(h) && h.fence == s.identity.writerFence > 0
    && WellNamed(s) && MayWrite(h, s) && Recall(h, s.identity.clientInputSeq).None?
  }

  /** The commit that n added to h, and what n remembers. */
  ghost predicate Executed(h: Host, n: Host, s: Submission) {
    && n.entries == h.entries > 0 && n.fence == h.fence == s.identity.writerFence > 0
    && n.writer == Some(Writer(s.clientId, s.identity.clientInputSeq, s.identity.inputEpoch))
    && n.commits == h.commits + [Commit(s.clientId, s.identity, s.payload, s.effect.completes)]
    && Remembers(h, n, s.identity.clientInputSeq, if s.effect.completes then WasWritten else WasUncertain)
    && (!s.effect.completes ==> Ended(n))
  }

  lemma ExecuteShape(h: Host, s: Submission)
    requires HostInv(h) && MayExecute(h, s)
    ensures Executed(h, Execute(h, s).0, s)
  {
    hide Ascending, StartsAtOne, ForgetsOnlyWhenFull;
    var ran := Ran(h, s);
    var result := if s.effect.completes then WasWritten else WasUncertain;
    OrderAscends(h);
    RememberNew(ran, s.identity.clientInputSeq, result);
    hide RemembersNewest, Remembers;
    RemembersSame(h, ran, Remember(ran, s.identity.clientInputSeq, result), Execute(h, s).0,
                  s.identity.clientInputSeq, result);
  }

  lemma RemembersSame(h: Host, ran: Host, m: Host, n: Host, seqNo: nat, result: Remembered)
    requires Remembers(ran, m, seqNo, result)
    requires ran.order == h.order && ran.results == h.results && ran.entries == h.entries
    requires n.order == m.order && n.results == m.results
    ensures Remembers(h, n, seqNo, result)
  {
  }

  /** The i-th number remembered is that of the commit at its place. */
  lemma OrderIsNewest(h: Host, i: nat)
    requires HostInv(h) && i < |h.order|
    ensures var at := |h.commits| - |h.order| + i;
            && 0 <= at < |h.commits| && h.commits[at].identity.writerFence == h.fence
            && h.commits[at].identity.clientInputSeq == h.order[i]
  {
    hide Ascending, StartsAtOne, WriterCurrent, Ended, ForgetsOnlyWhenFull;
    assert h.order[i] in h.results;
  }

  lemma OrderAscends(h: Host)
    requires HostInv(h)
    ensures forall i, j :: 0 <= i < j < |h.order| ==> h.order[i] < h.order[j]
    ensures Distinct(h.order)
    ensures h.writer.Some? ==> forall i :: 0 <= i < |h.order| ==> h.order[i] <= h.writer.value.highWater
  {
    hide RemembersNewest, StartsAtOne, WriterCurrent, Ended, ForgetsOnlyWhenFull;
    var base := |h.commits| - |h.order|;
    forall i, j | 0 <= i < j < |h.order| ensures h.order[i] < h.order[j] {
      OrderIsNewest(h, i);
      OrderIsNewest(h, j);
      assert Before(h.commits[base + i].identity, h.commits[base + j].identity);
    }
    if h.writer.Some? {
      forall i | 0 <= i < |h.order| ensures h.order[i] <= h.writer.value.highWater {
        OrderIsNewest(h, i);
        OneWriterPerFence(h, base + i);
      }
    }
  }

  lemma ExecuteKeeps(h: Host, s: Submission)
    requires HostInv(h) && MayExecute(h, s)
    ensures HostInv(Execute(h, s).0)
  {
    var n := Execute(h, s).0;
    ExecuteShape(h, s);
    hide Execute;
    ExecuteAscends(h, n, s);
    hide Executed, Ascending, StartsAtOne, WriterCurrent, RemembersNewest, ForgetsOnlyWhenFull, MayExecute;
    ExecuteRemembers(h, n, s);
    ExecuteForgets(h, n, s);
    ExecuteCompletes(h, n, s);
  }

  lemma ExecuteCompletes(h: Host, n: Host, s: Submission)
    requires Executed(h, n, s) && MayExecute(h, s) && forall c :: c in h.commits && !c.completed ==> Ended(h)
    ensures forall c :: c in n.commits && !c.completed ==> Ended(n)
  {
  }

  lemma AscendAppend(commits: seq<Commit>, c: Commit)
    requires Ascending(commits) && StartsAtOne(commits)
    requires forall i :: 0 <= i < |commits| ==> Before(commits[i].identity, c.identity)
    requires forall i :: 0 <= i < |commits| && commits[i].identity.writerFence == c.identity.writerFence ==>
               commits[i].clientId == c.clientId && commits[i].identity.inputEpoch == c.identity.inputEpoch
    requires c.identity.clientInputSeq == 1
             || (commits != [] && commits[|commits| - 1].identity.writerFence == c.identity.writerFence)
    ensures Ascending(commits + [c]) && StartsAtOne(commits + [c])
  {
    var n := commits + [c];
    assert StartsAtOne(n) by {
      forall j | 0 <= j < |n| && (j == 0 || n[j - 1].identity.writerFence < n[j].identity.writerFence)
        ensures n[j].identity.clientInputSeq == 1
      {
        if j < |commits| {
          assert n[j] == commits[j];
          assert j > 0 ==> n[j - 1] == commits[j - 1];
        }
      }
    }
  }

  lemma ExecuteAscends(h: Host, n: Host, s: Submission)
    requires HostInv(h) && MayExecute(h, s) && Executed(h, n, s)
    ensures Ascending(n.commits) && StartsAtOne(n.commits) && WriterCurrent(n)
  {
    hide RemembersNewest, ForgetsOnlyWhenFull, Remembers;
    var x := s.identity;
    forall i | 0 <= i < |h.commits|
      ensures Before(h.commits[i].identity, x)
      ensures h.commits[i].identity.writerFence == h.fence ==>
                h.commits[i].clientId == s.clientId && h.commits[i].identity.inputEpoch == x.inputEpoch
    {
      assert h.commits[i] in h.commits;
      if h.writer.Some? && i < |h.commits| - 1 {
        assert Before(h.commits[i].identity, h.commits[|h.commits| - 1].identity);
      }
    }
    AscendAppend(h.commits, Commit(s.clientId, s.identity, s.payload, s.effect.completes));
    hide Ascending, StartsAtOne;
    assert forall c :: c in n.commits <==> c in h.commits || c == n.commits[|h.commits|];
  }

  lemma ExecuteRemembers(h: Host, n: Host, s: Submission)
    requires RemembersNewest(h) && Executed(h, n, s)
    ensures RemembersNewest(n)
  {
    var drop := if |h.order| < h.entries then 0 else 1;
    forall i | 0 <= i < |n.order|
      ensures var c := n.commits[|n.commits| - |n.order| + i];
              && c.identity.writerFence == n.fence
              && c.identity.clientInputSeq == n.order[i]
              && n.order[i] in n.results
              && (n.results[n.order[i]].WasWritten? <==> c.completed)
    {
      assert n.order[i] in n.order;
      if i < |n.order| - 1 { OlderRemembered(h, n, s, i, drop); }
    }
  }

  lemma OlderRemembered(h: Host, n: Host, s: Submission, i: nat, drop: nat)
    requires RemembersNewest(h) && Executed(h, n, s) && i + 1 < |n.order|
    requires drop == if |h.order| < h.entries then 0 else 1
    ensures var c := n.commits[|n.commits| - |n.order| + i];
            && c.identity.writerFence == n.fence
            && c.identity.clientInputSeq == n.order[i]
            && n.order[i] in n.results
            && (n.results[n.order[i]].WasWritten? <==> c.completed)
  {
    var x := h.order[i + drop];
    assert n.order[i] == x && x in h.order && n.order[i] in n.order;
    assert n.commits[|n.commits| - |n.order| + i] == h.commits[|h.commits| - |h.order| + (i + drop)];
    assert x != s.identity.clientInputSeq;
  }

  lemma ExecuteForgets(h: Host, n: Host, s: Submission)
    requires RemembersNewest(h) && ForgetsOnlyWhenFull(h) && WriterCurrent(h) && Executed(h, n, s)
    ensures ForgetsOnlyWhenFull(n)
  {
    if |n.order| < n.entries && |n.order| < |n.commits| {
      var at := |h.commits| - |h.order| - 1;
      assert n.commits[|n.commits| - |n.order| - 1] == h.commits[at];
      assert h.commits[at] in h.commits;
    }
  }

  // ---- What a submission does ----

  lemma SubmitExecutes(h: Host, s: Submission)
    requires HostInv(h) && Submit(h, s).0.commits != h.commits
    ensures var ready := Advance(h, s.identity.writerFence);
            MayExecute(ready, s) && Submit(h, s) == Execute(ready, s) && HostInv(ready)
  {
    AdvanceKeeps(h, s.identity.writerFence);
    hide HostInv;
  }

  /** Every submission keeps the invariant: commits stay strictly ascending, one client and epoch a
      fence, and the memory stays the newest of them. */
  lemma SubmitKeeps(h: Host, s: Submission)
    requires HostInv(h)
    ensures HostInv(Submit(h, s).0)
  {
    hide HostInv;
    AdvanceKeeps(h, s.identity.writerFence);
    if Submit(h, s).0.commits != h.commits {
      SubmitExecutes(h, s);
      ExecuteKeeps(Advance(h, s.identity.writerFence), s);
    } else {
      SubmitIdle(h, s);
    }
  }

  lemma SubmitIdle(h: Host, s: Submission)
    requires Submit(h, s).0.commits == h.commits
    ensures Submit(h, s).0 == h || Submit(h, s).0 == Advance(h, s.identity.writerFence)
    ensures Submit(h, s).1 != Settled(Written)
  {
    var ready := Advance(h, s.identity.writerFence);
    AdvanceCommits(h, s.identity.writerFence);
    ExecuteCommits(ready, s);
    hide Execute, Advance, MayWrite, WellNamed;
    assert ready.commits + [Commit(s.clientId, s.identity, s.payload, s.effect.completes)] != ready.commits;
  }

  lemma AdvanceCommits(h: Host, fence: nat)
    ensures Advance(h, fence).commits == h.commits
  {
  }

  lemma ExecuteCommits(h: Host, s: Submission)
    ensures Execute(h, s).0.commits == h.commits + [Commit(s.clientId, s.identity, s.payload, s.effect.completes)]
    ensures Execute(h, s).1 == if s.effect.completes then Settled(Written) else Unsure
  {
  }

  ghost predicate Committed(commits: seq<Commit>, clientId: string, identity: Identity) {
    exists c :: c in commits && c.clientId == clientId && c.identity == identity
  }

  /** A submission runs its effect at most once and never for an identity, or even a number, that ran
      before; it answers Written exactly when its effect completed, and Rejected only without effect. */
  lemma SubmitAnswers(h: Host, s: Submission)
    requires HostInv(h)
    ensures var (n, answer) := Submit(h, s);
            && (n.commits == h.commits
                || n.commits == h.commits + [Commit(s.clientId, s.identity, s.payload, s.effect.completes)])
            && (n.commits != h.commits ==> forall c :: c in h.commits ==> Before(c.identity, s.identity))
            && (answer == Settled(Written) <==> n.commits != h.commits && s.effect.completes)
            && (answer == Settled(Rejected) || answer == Settled(Duplicate) ==> n.commits == h.commits)
            && (answer == Settled(Duplicate) ==>
                  exists c :: c in h.commits && c.clientId == s.clientId && c.identity == s.identity && c.completed)
  {
    var (n, answer) := Submit(h, s);
    if n.commits != h.commits {
      SubmitExecutes(h, s);
      var ready := Advance(h, s.identity.writerFence);
      ExecuteCommits(ready, s);
      AdvanceCommits(h, s.identity.writerFence);
      ExecuteKeeps(ready, s);
      hide Execute;
      NewestIsLast(n);
    } else {
      SubmitIdle(h, s);
      if answer == Settled(Duplicate) { DuplicateCompleted(h, s); }
    }
  }

  lemma NewestIsLast(h: Host)
    requires HostInv(h) && h.commits != []
    ensures forall c :: c in h.commits[..|h.commits| - 1] ==> Before(c.identity, h.commits[|h.commits| - 1].identity)
  {
  }

  lemma DuplicateCompleted(h: Host, s: Submission)
    requires HostInv(h) && Submit(h, s).1 == Settled(Duplicate)
    ensures exists c :: c in h.commits && c.clientId == s.clientId && c.identity == s.identity && c.completed
  {
    var ready := Advance(h, s.identity.writerFence);
    AdvanceKeeps(h, s.identity.writerFence);
    AdvanceCommits(h, s.identity.writerFence);
    DuplicateRecalled(h, s);
    hide HostInv, Submit;
    RecalledCommit(ready, s.identity.clientInputSeq);
  }

  lemma DuplicateRecalled(h: Host, s: Submission)
    requires Submit(h, s).1 == Settled(Duplicate)
    ensures var ready := Advance(h, s.identity.writerFence);
            && ready.fence == s.identity.writerFence && ready.writer.Some?
            && ready.writer.value.clientId == s.clientId && ready.writer.value.inputEpoch == s.identity.inputEpoch
            && s.identity.clientInputSeq in ready.results && ready.results[s.identity.clientInputSeq].WasWritten?
  {
    ExecuteCommits(Advance(h, s.identity.writerFence), s);
    hide Execute, WellNamed;
  }

  lemma RecalledCommit(h: Host, n: nat)
    requires HostInv(h) && n in h.results && h.writer.Some?
    ensures exists c :: c in h.commits && c.clientId == h.writer.value.clientId
                        && c.identity == Identity(h.fence, h.writer.value.inputEpoch, n)
                        && (c.completed <==> h.results[n].WasWritten?)
  {
    hide Ended, Ascending;
    assert n in h.order;
    var i :| 0 <= i < |h.order| && h.order[i] == n;
    var at := |h.commits| - |h.order| + i;
    OneWriterPerFence(h, at);
    assert h.commits[at] in h.commits;
  }

  lemma OneWriterPerFence(h: Host, k: nat)
    requires HostInv(h) && k < |h.commits| && h.commits[k].identity.writerFence == h.fence
    ensures h.writer.Some?
    ensures h.commits[k].clientId == h.writer.value.clientId
    ensures h.commits[k].identity.inputEpoch == h.writer.value.inputEpoch
    ensures h.commits[k].identity.clientInputSeq <= h.writer.value.highWater
  {
    assert h.commits[k] in h.commits;
    if k < |h.commits| - 1 {
      assert Before(h.commits[k].identity, h.commits[|h.commits| - 1].identity);
    }
  }

  /** Exactly what submitting again answers for something that ran before, as commit k of the log. It
      never runs again. It is told apart as a duplicate if it is among the `entries` newest, and called
      uncertain if it is older; only when the session ended or a newer fence took over is it answered
      "rejected", although it did run. */
  lemma ResubmissionAnswer(h: Host, s: Submission, k: nat)
    requires HostInv(h) && k < |h.commits|
    requires s.clientId == h.commits[k].clientId && s.identity == h.commits[k].identity
    requires WellNamed(s) && s.identity.writerFence <= MAX_U64
    ensures var (n, answer) := Submit(h, s);
            && n == h
            && (answer == Settled(Rejected) <==> Ended(h) || s.identity.writerFence < h.fence)
            && (answer == Settled(Duplicate) <==>
                  !Ended(h) && s.identity.writerFence == h.fence && k + h.entries >= |h.commits|)
            && (answer == Unsure <==>
                  !Ended(h) && s.identity.writerFence == h.fence && k + h.entries < |h.commits|)
  {
    var c := h.commits[k];
    assert c in h.commits;
    if !Ended(h) && s.identity.writerFence == h.fence {
      OneWriterPerFence(h, k);
      assert c.completed;
      RememberedIffNewest(h, k);
      assert Advance(h, s.identity.writerFence) == h;
    }
  }

  lemma RememberedIffNewest(h: Host, k: nat)
    requires HostInv(h) && k < |h.commits| && h.commits[k].identity.writerFence == h.fence
    ensures var n := h.commits[k].identity.clientInputSeq;
            && (n in h.results <==> k + h.entries >= |h.commits|)
            && (n in h.results && h.commits[k].completed ==> h.results[n].WasWritten?)
  {
    var base := |h.commits| - |h.order|;
    var n := h.commits[k].identity.clientInputSeq;
    if k >= base {
      assert h.order[k - base] == n;
    } else {
      assert k < base - 1 ==> Before(h.commits[k].identity, h.commits[base - 1].identity);
      assert h.commits[base - 1] in h.commits;
      assert h.commits[base - 1].identity.writerFence == h.fence;
      forall i | 0 <= i < |h.order| ensures h.order[i] != n {
        assert Before(h.commits[k].identity, h.commits[base + i].identity);
      }
      assert n !in h.order;
    }
  }

  /** No identity runs twice, whatever was evicted from memory. */
  lemma EffectsAreUnique(h: Host, i: nat, j: nat)
    requires HostInv(h) && i < |h.commits| && j < |h.commits|
    requires h.commits[i].identity.writerFence == h.commits[j].identity.writerFence
    requires h.commits[i].identity.clientInputSeq == h.commits[j].identity.clientInputSeq
    ensures i == j
  {
    assert i < j ==> Before(h.commits[i].identity, h.commits[j].identity);
    assert j < i ==> Before(h.commits[j].identity, h.commits[i].identity);
  }

  /** What the Host asks of a submission that it runs: the established writer goes on with a number it has not
      passed, or a new fence begins with 1, and what the submission says of the session is so. */
  predicate Accepts(h: Host, s: Submission) {
    && !Ended(h) && 0 < s.identity.writerFence <= MAX_U64 && h.fence <= s.identity.writerFence && WellNamed(s)
    && s.valid && (s.observedEventSeq.Some? ==> s.observedEventSeq.value <= h.eventSeq)
    && if h.writer.None? || h.fence < s.identity.writerFence then s.identity.clientInputSeq == 1
       else
         && h.writer.value.clientId == s.clientId && h.writer.value.inputEpoch == s.identity.inputEpoch
         && h.writer.value.highWater < s.identity.clientInputSeq
  }

  /** A submission runs exactly if the Host accepts it, and then once, whatever it was answered before. */
  lemma RunsIffAccepted(h: Host, s: Submission)
    requires HostInv(h)
    ensures var n := Submit(h, s).0;
            n.commits == if Accepts(h, s)
                         then h.commits + [Commit(s.clientId, s.identity, s.payload, s.effect.completes)]
                         else h.commits
  {
    var ready := Advance(h, s.identity.writerFence);
    AdvanceCommits(h, s.identity.writerFence);
    ExecuteCommits(ready, s);
    if h.writer.Some? { RecalledIsPassed(h, s.identity.clientInputSeq); }
    hide Execute, HostInv, WellNamed;
  }

  /** What is remembered under a fence is not beyond its high-water mark. */
  lemma RecalledIsPassed(h: Host, n: nat)
    requires HostInv(h) && h.writer.Some?
    ensures Recall(h, n).Some? <==> n <= h.writer.value.highWater
  {
    hide Ended, Ascending;
    if n in h.results {
      assert n in h.order;
      var i :| 0 <= i < |h.order| && h.order[i] == n;
      OneWriterPerFence(h, |h.commits| - |h.order| + i);
    }
  }

  /** A mouse press that does not fit the terminal's dimensions is refused; delivered again after they changed, it
      runs. */
  lemma RefusedThenCommitted()
    ensures var s := Submission("me", Identity(1, "epoch", 1), Payload(Mouse, false, Dimensions(0, 0, 0, 0), 1), None,
                                false, Effect(true, 0, false, false));
            var (once, first) := Submit(Fresh(4096), s);
            var resized := once.(eventSeq := once.eventSeq + 1);
            var (twice, second) := Submit(resized, s.(valid := true));
            && first == Settled(Rejected) && once.commits == []
            && second == Settled(Written) && |twice.commits| == 1 && twice.commits[0].identity == s.identity
  {
  }

  /** A submission that completed can be answered "rejected" when it is delivered a second time. */
  lemma CommittedThenRejected()
    ensures var s := Submission("me", Identity(1, "epoch", 1), Payload(Key, false, Dimensions(0, 0, 0, 0), 1), None,
                                true, Effect(true, 0, true, false));
            var (once, first) := Submit(Fresh(4096), s);
            var (twice, second) := Submit(once, s);
            && first == Settled(Written) && second == Settled(Rejected)
            && |twice.commits| == 1 && twice.commits[0].identity == s.identity && twice.commits[0].completed
  {
  }

  // ---- The session's own fields ----

  class TerminalInput {
    var ptyExited: bool
    var failed: bool
    var disposed: bool
    var eventSeq: nat
    var inputFence: nat
    var inputWriter: Option<Writer>
    var inputResults: map<nat, Remembered>
    var resultOrder: seq<nat>
    const inputDedupEntries: nat
    ghost var commits: seq<Commit>

    ghost function State(): Host
      reads this
    {
      Host(ptyExited, failed, disposed, eventSeq, inputFence, inputWriter, inputResults, resultOrder,
           inputDedupEntries, commits)
    }

    constructor (entries: nat)
      requires entries > 0
      ensures State() == Fresh(entries) && HostInv(State())
    {
      ptyExited, failed, disposed := false, false, false;
      eventSeq, inputFence, inputWriter := 0, 0, None;
      inputResults, resultOrder, inputDedupEntries, commits := map[], [], entries, [];
      new;
      FreshInv(entries);
    }

    method RememberInput(seqNo: nat, result: Remembered)
      requires inputWriter.Some?
      modifies this`inputResults, this`resultOrder, this`inputWriter
      ensures State() == Remember(old(State()), seqNo, result)
    {
      if seqNo !in inputResults { resultOrder := resultOrder + [seqNo]; }
      inputResults := inputResults[seqNo := result];
      if seqNo > inputWriter.value.highWater {
        inputWriter := Some(inputWriter.value.(highWater := seqNo));
      }
      ghost var whole := Trim(inputResults, resultOrder, inputDedupEntries);
      while |resultOrder| > inputDedupEntries
        modifies this`inputResults, this`resultOrder
        invariant Trim(inputResults, resultOrder, inputDedupEntries) == whole
        decreases |resultOrder|
      {
        var oldest := resultOrder[0];
        inputResults := inputResults - {oldest};
        resultOrder := resultOrder[1..];
      }
    }

    /** The actor's turn for one submission. */
    method CommitSubmittedInput(s: Submission) returns (answer: Answer)
      requires HostInv(State())
      modifies this
      ensures (State(), answer) == Submit(old(State()), s) && HostInv(State())
    {
      hide HostInv;
      SubmitKeeps(State(), s);
      if ptyExited || failed || disposed { return Settled(Rejected); }
      if s.identity.writerFence <= 0 || s.identity.writerFence > MAX_U64 { return Settled(Rejected); }
      if s.identity.writerFence < inputFence { return Settled(Rejected); }
      if s.identity.writerFence > inputFence {
        inputFence := s.identity.writerFence;
        inputWriter, inputResults, resultOrder := None, map[], [];
      }
      if |s.clientId| == 0 || |s.clientId| > MAX_NAME || |s.identity.inputEpoch| == 0
         || |s.identity.inputEpoch| > MAX_NAME || s.identity.clientInputSeq <= 0 {
        return Settled(Rejected);
      }
      if inputWriter.Some? {
        if inputWriter.value.clientId != s.clientId || inputWriter.value.inputEpoch != s.identity.inputEpoch {
          return Settled(Rejected);
        }
      } else if s.identity.clientInputSeq != 1 {
        return Settled(Rejected);
      }
      var key := s.identity.clientInputSeq;
      if inputWriter.Some? {
        if key in inputResults {
          return if inputResults[key].WasWritten? then Settled(Duplicate) else Unsure;
        }
        if key <= inputWriter.value.highWater { return Unsure; }
      }
      if s.observedEventSeq.Some? && s.observedEventSeq.value > eventSeq { return Settled(Rejected); }
      if !s.valid { return Settled(Rejected); }
      answer := RunEffect(s);
    }

    /** The effect runs, for the established writer or a new one. */
    method Perform(s: Submission)
      modifies this`inputWriter, this`commits, this`eventSeq, this`ptyExited, this`disposed
      ensures State() == Ran(old(State()), s)
    {
      if inputWriter.None? { inputWriter := Some(Writer(s.clientId, 0, s.identity.inputEpoch)); }
      commits := commits + [Commit(s.clientId, s.identity, s.payload, s.effect.completes)];
      eventSeq := eventSeq + s.effect.events;
      ptyExited := ptyExited || s.effect.ptyExits;
      disposed := disposed || s.effect.disposes;
    }

    method RunEffect(s: Submission) returns (answer: Answer)
      modifies this
      ensures (State(), answer) == Execute(old(State()), s)
    {
      hide Remember, Ran;
      RanEstablishes(State(), s);
      Perform(s);
      if s.effect.completes {
        RememberInput(s.identity.clientInputSeq, WasWritten);
        return Settled(Written);
      }
      RememberInput(s.identity.clientInputSeq, WasUncertain);
      if !failed && !disposed { failed := true; }
      return Unsure;
    }
  }
}
