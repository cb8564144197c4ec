# Zhongduan: a verified model of the terminal relay protocol

Zhongduan carries one PTY from a Host daemon through a Cloudflare relay to Browser replicas. Its README
(README.md:15-30) makes two promises that are about correctness: a replica that a Browser adopts shows a
state that the Host committed, and every input the Browser consumes ends as exactly one of `not-sent`,
`deterministic` or `uncertain`, with no silent loss and no unsafe retry. This project models the code that
carries those promises and proves them, over every run.

`dafny verify dfyconfig.toml` checks all of it.

## How it is built

Each component has three layers. A module of datatypes and functions says what one event does to the
component's state, branch by branch as the source does it. A second module proves what every event keeps, and
what follows for all runs. Where the source is an object that updates its fields, a class has those fields and
methods that update them, with the source's loops, and each method is proved to do what the function says; the
entry points also keep the invariant.

| part | specification | proofs | object |
|---|---|---|---|
| input owner (Browser) | `InputAuthority`, `IntentLedger`, `InputOwner` | `InputOwnerProofs`, `InputRuns` | `IntentLedgerState`, `InputDispatcher` |
| input session (Host) | `HostInput` | `HostInput`, `EndToEndInput` | `HostInput` (`TerminalInput`) |
| wire format | `DataFrame` | `DataFrame` | `DataFrameBuffers` (arrays) |
| replica delivery (Browser) | `ReplicaCursor`, `Coordinator` | `CoordinatorProofs`, `CoordinatorRuns` | `SessionCoordinator` |
| relay delivery | `RelayDelivery`, `Relay`, `HostDataBatch` | the same, `EndToEndOutput` | `RelaySession`, `HostDataBatch` (a shared buffer) |
| journal (Host) | `EventJournal` | `EventJournal` | `EventJournal` |
| subscriptions (Host) | `Subscription` | `Subscription` | |
| recovery (Host to relay) | `Recovery` | `RecoveryProofs`, `RecoveryRuns` | `CanonicalPublisher` |
| data channel (Host) | `HostTransport` | `HostTransport` | `HostTransport` |

Events are atomic steps: a handler up to its next `await`, or one outermost transaction of the input owner with
everything that its sender does on the stack. The clock is a parameter, constant in a transaction and never
going back. Histories (what was published, sent, committed, adopted) are ghost fields or fields of the
specification that no branch reads. Positions, fences and generations are integers; where the source guards the
64-bit range, so does the model.

## What was found

Five properties do not hold of the code as it stands. Each has an example, and the exact condition under which
the property holds.

- A submission that ran can be answered `rejected` when its frame is delivered twice, if the session ended or a
  newer fence took over in between (`HostInput.CommittedThenRejected`; the condition: `ResubmissionAnswer`).
- A submission that was rejected can run when its frame is delivered again, if the Host accepts it by then: a mouse
  press, say, that did not fit the terminal's dimensions before a resize (`HostInput.RefusedThenCommitted`; the
  condition: `RunsIffAccepted`). What either kind of second delivery does to an intent is
  `EndToEndInput.SecondDeliveryMuddlesIff`.
- A live replica whose write takes effect and then throws a protocol error keeps its cursor. The next warm replay
  starts at that cursor and writes the mutation to the same replica a second time
  (`CoordinatorRuns.StaleAfterProtocolError`; the condition: `FailureIsSafeIff`; no other error leaves a cursor to
  start from). The `ReplicaSink` interface allows such a throw; the repository's own replica
  (apps/terminal-cloud/src/browser/replica-host.ts) never makes it.
- When the publisher's queue overflows while a recovery's marker waits in the data channel, the recovery is
  given up and canonical frames follow a marker that the relay then pins (`RecoveryRuns.PressureIsRefused`). It is
  harmless exactly if the client is no longer current, or the marker has arrived and left no pin
  (`PressureIsSafeIff`). The run overflows a queue of 1024 frames behind a marker that waits for a batch in flight.
- A flush that takes a frame off the queue which the data channel does not take, in a recovery that was aborted
  before, loses the frame and goes on behind it (`RecoveryRuns.LostFrameIsRefused`). What the data channel takes is
  decided by the limits on its batches and on its socket (`LostFrameIff`); the run fills the socket with 510 frames of
  16 KiB first. In this and the previous case the relay fails the Host connection, so no Browser is shown a wrong
  state.

Two differences between batches and single frames are harmless: a batch that a Browser cannot take in full gives it
nothing, while the same frames one by one may give it a first part; and a batch whose send throws midway records
nothing of what went out, so the Browser's stream is then ahead of the relay's cursor, and nothing more is sent on
it. The head and all other Browsers agree (`HostDataBatches.BatchIsOneByOne`, `Relays.NothingFollowsATear`).

## Model

| member | source | states |
|---|---|---|
| InputAuthority.ReopensOnlyUnderHigherFence | apps/terminal-cloud/src/browser/input-authority.ts:82-179 | over any run of transitions the fence never falls and the authority's invariants hold; writing that was closed is open again under the same fence only if it never was closed, with the same transport and epoch |
| InputAuthority.AllocationsAreUnique | apps/terminal-cloud/src/browser/input-authority.ts:193-209 | an identity allocated later in a run is strictly after one allocated earlier, whatever detached, sealed or replaced the authority in between |
| InputAuthority.ReplacementStaysRequired | apps/terminal-cloud/src/browser/input-authority.ts:160-179 | a sealed epoch that requires a new control stays that way until a transport is accepted or detached |
| IntentLedgers.EarliestDeadlineIsLeast | apps/terminal-cloud/src/browser/input-intent-ledger.ts:500-534 | the deadline returned is one of the outstanding ones and at most each of them, and none only if nothing waits |
| IntentLedgers.FinishValid | apps/terminal-cloud/src/browser/input-intent-ledger.ts:471-498 | finishing any live record, at any stage, keeps all indexes, exact byte sums and limits, including retention |
| IntentLedgers.AdmitValid | apps/terminal-cloud/src/browser/input-intent-ledger.ts:338-367 | admission keeps every ledger invariant: unique identities, queue and byte limits, exact sums |
| IntentLedgerState.IntentLedger.Finish | apps/terminal-cloud/src/browser/input-intent-ledger.ts:471-498 | finishes a live record exactly once, with its indexes and byte counters updated in place and retention trimmed; a terminal record is left as it is |
| IntentLedgerState.IntentLedger.EarliestDeadline | apps/terminal-cloud/src/browser/input-intent-ledger.ts:500-534 | the loop over the records returns the least deadline, and one that is attained |
| InputRuns.TransactionGood | apps/terminal-cloud/src/browser/input-dispatcher.ts:752-809 | every outermost transaction, whatever its sender reenters, ends with the whole owner invariant and no internal throw; results only grow; a certain result was told by an acknowledgement or proof for that identity |
| InputRuns.RunKeepsInvariant | apps/terminal-cloud/src/browser/input-intent-ledger.ts:536-624 | all ledger and authority invariants hold at the end of every run |
| InputRuns.EveryIntentEndsOnce | apps/terminal-cloud/src/browser/input-dispatcher.ts:639-704 | every consumed intent is either still open or has exactly one published result, and no internal throw was reached |
| InputRuns.ResultsAreImmutable | apps/terminal-cloud/src/browser/input-dispatcher.ts:700-721 | published results are never changed or withdrawn by any continuation of the run |
| InputRuns.UncertaintyIsBounded | apps/terminal-cloud/src/browser/input-dispatcher.ts:605-637 | at the end of any transaction at time t an open intent was consumed less than 35500 ms before, its own deadline is ahead, and the armed deadline is not after it, however late timers fire |
| InputRuns.EpochPrefix | apps/terminal-cloud/src/browser/input-dispatcher.ts:459-519 | within one writer fence and epoch the sender is called with exactly 1, 2, ..., k in order, at most once for an intent |
| InputRuns.IdentitiesAreUnique | apps/terminal-cloud/src/browser/input-dispatcher.ts:402-445 | over the whole life of the owner two intents never have the same identity |
| InputDispatchers.InputDispatcher.Transaction | apps/terminal-cloud/src/browser/input-dispatcher.ts:752-769 | the object's transaction, run in place with its queue drained and deadlines expired, does what the specification says and keeps the invariant of all runs |
| InputDispatchers.InputDispatcher.DrainQueue | apps/terminal-cloud/src/browser/input-dispatcher.ts:459-519 | the drain loop sends first in first out, and seals and settles the rest of the queue at the first drop, refusal or uncertainty, as the specification does |
| InputDispatchers.InputDispatcher.ExpireDeadlines | apps/terminal-cloud/src/browser/input-dispatcher.ts:605-637 | the passes over the records settle what is due at this time, in the source's order, sealing the epoch of what was sent |
| InputDispatchers.InputDispatcher.AcceptAcknowledgement | apps/terminal-cloud/src/browser/input-dispatcher.ts:246-268 | an acknowledgement for no active identity changes nothing; others settle the record and seal its epoch where the status asks for it |
| HostInput.SubmitKeeps | apps/host-daemon/src/session.ts:426-510 | commits stay strictly ascending in fence and sequence, one client and epoch a fence, numbers from one; the bounded memory is the newest commits of the fence |
| HostInput.SubmitAnswers | apps/host-daemon/src/session.ts:426-497 | a submission runs at most once and never for an identity that ran before; `written` exactly when its effect completed, `duplicate` only for one that did, `rejected` only without effect |
| HostInput.ResubmissionAnswer | apps/host-daemon/src/session.ts:456-461 | exactly what submitting a committed identity again answers: `rejected` if and only if the session ended or a newer fence took over, `duplicate` if and only if it is among the remembered newest, `uncertain` otherwise; it never runs again |
| HostInput.EffectsAreUnique | apps/host-daemon/src/session.ts:499-510 | no identity runs twice, whatever was evicted from the memory |
| HostInput.CommittedThenRejected | apps/host-daemon/src/session.ts:431-436 | a submission that completed and is delivered again after the PTY exited is answered `rejected` |
| HostInput.RunsIffAccepted | apps/host-daemon/src/session.ts:426-497 | a submission runs, once, if and only if the session is open, its fence is not behind, its number is beyond the writer's high-water mark or begins a fence, and what it says of the session is valid, whatever it was answered before |
| HostInput.RefusedThenCommitted | apps/host-daemon/src/session.ts:477-481 | a mouse press that is rejected for the terminal's dimensions and delivered again after they changed runs |
| HostInput.TerminalInput.CommitSubmittedInput | apps/host-daemon/src/session.ts:426-497 | the object's turn for one submission updates fence, writer and memory in place as the specification does, and keeps its invariant |
| HostInput.TerminalInput.RememberInput | apps/host-daemon/src/session.ts:499-510 | the eviction loop leaves the newest entries and the raised high-water mark |
| EndToEndInput.ResultsTellTheTruth | apps/terminal-cloud/src/browser/input-dispatcher.ts:293-519 | owner, channel and Host together, over every run: `not-sent` means the effect never ran, `written` and `duplicate` that it ran exactly once, `uncertain` at most once, `rejected` never, unless this intent's own frame was delivered twice and muddled it |
| EndToEndInput.SecondDeliveryMuddlesIff | apps/host-daemon/src/session.ts:426-461 | a second delivery of a frame that had run changes nothing at the Host, and muddles its intent if and only if the session had ended or a newer fence had taken over; one of a frame that had not run muddles it if and only if the Host accepts it now, and then it runs once |
| EndToEndInput.EffectsAreOwned | apps/host-daemon/src/session.ts:479-497 | whatever ran for this client is the effect of one call of the sender for one of its intents, with the identity and payload that intent was admitted with |
| EndToEndInput.IntentsEndOnce | apps/terminal-cloud/src/browser/input-dispatcher.ts:639-704 | in the composed system each intent has at most one result, as soon as it is not open, and at most one call of the sender |
| DataFrames.DecodeOfEncode | packages/protocol/src/data-frame.ts:70-148 | every frame that can be encoded decodes to itself |
| DataFrames.EncodeOfDecode | packages/protocol/src/data-frame.ts:104-148 | every byte string that is accepted is the encoding of what it decodes to |
| DataFrames.DecodeOfRewrite | packages/protocol/src/data-frame.ts:213-227 | rewriting changes the generation and stream of the decoded frame and nothing else |
| DataFrames.EncodesBatch | packages/protocol/src/data-frame.ts:150-179 | a batch is encoded exactly when it has 1 to 64 valid frames and at most 256 KiB |
| DataFrames.DecodeOfEncodeBatch | packages/protocol/src/data-frame.ts:150-207 | an encoded batch decodes to the frames it was made of |
| DataFrames.EncodeOfDecodeBatch | packages/protocol/src/data-frame.ts:181-211 | whatever is accepted as a batch is the encoding of its frames |
| DataFrames.DecodeOfEncodeResize | packages/protocol/src/data-frame.ts:236-252 | a resize payload decodes to the dimensions it was made of |
| DataFrames.EncodeOfDecodeResize | packages/protocol/src/data-frame.ts:254-269 | an accepted resize payload is the encoding of its dimensions |
| DataFrameBuffers.EncodeDataFrame | packages/protocol/src/data-frame.ts:70-102 | writing field by field into a new buffer gives the specified bytes, or the specified error |
| DataFrameBuffers.RewriteDelivery | packages/protocol/src/data-frame.ts:213-227 | rewriting a copy in place gives the specified bytes |
| DataFrameBuffers.EncodeDataFrameBatch | packages/protocol/src/data-frame.ts:150-179 | the two loops, check and copy, give the concatenation or the first error |
| DataFrameBuffers.DecodeDataFrameBatchEntries | packages/protocol/src/data-frame.ts:181-207 | the loop over an offset gives the frames or the first error |
| CoordinatorProofs.StepKeeps | packages/session-client/src/session-coordinator.ts:201-410 | every event keeps the coordinator's invariant: fence, buffers, candidate, and what live replica and candidate hold |
| CoordinatorRuns.NeverMismatched | packages/session-client/src/session-coordinator.ts:525-544 | over every run of warm replays, restores and failures, the check that applied and received positions agree when a commit is due never fails |
| CoordinatorRuns.AdoptedStateIsCanonical | packages/session-client/src/session-coordinator.ts:525-544 | over every run of warm replays, early tails, restores, superseded attempts and failures in which no write takes effect and throws a protocol error, the live replica has applied exactly the canonical history up to the active cursor; otherwise exactly until such a write, which leaves it ahead of its cursor until it is replaced or its cursor is withdrawn |
| CoordinatorRuns.FailureIsSafeIff | packages/session-client/src/session-coordinator.ts:378-410 | after a live frame the replica shows exactly the history up to its cursor if and only if its write did not both take effect and throw a protocol error; after any other error there is no cursor for a warm replay to start from |
| CoordinatorRuns.StaleAfterProtocolError | packages/session-client/src/session-coordinator.ts:400-410 | a run of five events in which a write takes effect and throws a protocol error, the resync starts warm at the kept cursor, and the replica has applied the first mutation twice under a cursor that claims it once |
| CoordinatorRuns.CandidatesAreOwned | packages/session-client/src/session-coordinator.ts:243-324 | every restored replica is at each point exactly one of held by the delivery, live or formerly live, or disposed of once, and no end is undone |
| CoordinatorRuns.SupersededNeverAdopts | packages/session-client/src/session-coordinator.ts:272-300 | over every run, once an attempt is superseded, a replica of it that was not adopted by then is never adopted and never live in any continuation, whether it had been yielded or is yielded later, and is disposed of once |
| CoordinatorRuns.RestoringLeavesLiveAlone | packages/session-client/src/session-coordinator.ts:243-324 | between the start of a snapshot and its adoption no event writes to the live replica |
| CoordinatorRuns.BuffersFitTheFence | packages/session-client/src/session-coordinator.ts:412-490 | after every event pending frames and the delivery carry exactly the fence's generation, no pending frame could be retained, and both budgets are met |
| CoordinatorRuns.FenceNeverFalls | packages/session-client/src/session-coordinator.ts:466-490 | the fence never decreases and a frame below it changes nothing |
| SessionCoordinators.SessionCoordinator.Handle | packages/session-client/src/session-coordinator.ts:193-349 | the object handles every event in place as the specification says and keeps the invariant |
| RelayDeliveries.AdvanceDeliveryCursorBatch | apps/terminal-cloud/src/worker/relay-delivery.ts:31-108 | the one-pass batch with its running variables is advancing frame by frame, the first error winning |
| RelayDeliveries.AdvanceEachAppend | apps/terminal-cloud/src/worker/relay-delivery.ts:24-29 | advancing frame by frame is a left fold that stops at its first error |
| Relays.StreamsStayWhole | apps/terminal-cloud/src/worker/host-relay-controller.ts:229-310 | over every run, single frames and negotiated batches, with sends that throw anywhere: on every socket and within its generation seed+1 to the pinned commit, one commit marker, then the live frames, without gap or repetition; acknowledged at most sent at most head, and never more outstanding than 524288 |
| Relays.BrowserReceivesHistory | apps/terminal-cloud/src/worker/browser-delivery-controller.ts:252-284 | the mutations sent on a synced socket are exactly the history from its seed to its cursor; where a send threw in the middle of a batch, to a point beyond the cursor and no further than the head |
| Relays.NothingFollowsATear | apps/terminal-cloud/src/worker/host-data-batch-processor.ts:147-215 | after a send that threw in the middle of a batch nothing more is sent on that socket until a reset or a new connection takes it away |
| Relays.HeadIsFixedWhilePinned | apps/terminal-cloud/src/worker/delivery-barrier-controller.ts:281-290 | over every run, as long as some recovery is pinned and unfinished the canonical head does not move, and stands at the commit of each of them |
| Relays.SyncsExactlyAtHead | apps/terminal-cloud/src/worker/host-relay-controller.ts:312-333 | a socket becomes synced only by its commit marker, standing at its pinned commit, which is the head of that moment |
| Relays.CappedReplayFitsCredit | packages/protocol/src/delivery-credit.ts:9-26 | a directed replay admitted under the Host's 256 KiB cap never exceeds the relay's credit, whatever was acknowledged |
| RelaySessions.RelaySession.Handle | apps/terminal-cloud/src/worker/host-relay-controller.ts:174-310 | the object handles every event in place, with its loops over sockets, as the specification says, and keeps the invariant |
| RelaySessions.RelaySession.HandleBarrier | apps/terminal-cloud/src/worker/delivery-barrier-controller.ts:80-279 | the barrier pins, seeds, refuses or fails exactly as specified |
| RelaySessions.RelaySession.HandleBatch | apps/terminal-cloud/src/worker/host-relay-controller.ts:174-229 | a batch is planned for all sockets before any is served, and each gets all of it, the part before its throw, or nothing, as specified |
| HostDataBatches.BatchIsOneByOne | apps/terminal-cloud/src/worker/host-data-batch-processor.ts:75-215 | a batch that validates gives the same head as its frames one by one and, to every Browser it can serve, the same frames wherever sends throw, and the same cursor unless one did; one it cannot serve in full it leaves untouched |
| HostDataBatches.ReaddressedDecodes | apps/terminal-cloud/src/worker/host-data-batch-processor.ts:36-48 | what is sent for a batch decodes to its frames with only generation and stream changed |
| HostDataBatches.RewriteBatchInPlace | apps/terminal-cloud/src/worker/host-data-batch-processor.ts:36-48 | writing the two fields of every frame into the shared buffer turns it into exactly the readdressed batch |
| HostDataBatches.FanOut | apps/terminal-cloud/src/worker/host-data-batch-processor.ts:147-215 | every Browser gets the frames as they arrived with only its own generation and stream; the one that may be served from the rewritten buffer is the only one that sees it |
| HostDataBatches.FanOutIsDelivered | apps/terminal-cloud/src/worker/host-data-batch-processor.ts:147-215 | the bytes that a Browser is sent for a batch, whole or cut by a throw, decode to the frames that the relay's state machine delivers to its socket, with the same cursors |
| EndToEndOutput.BrowserShowsHostHistory | packages/session-client/src/session-coordinator.ts:326-410 | relay and coordinator together: whatever was sent on any socket, frame by frame or in batches cut by throws, may arrive late, again, out of order or never, and the adopted replica still shows the Host's history up to its cursor |
| Journals.EventJournal.Append | apps/host-daemon/src/journal.ts:73-114 | an accepted frame extends the unbounded history; the bytes kept never exceed the limit, even for one oversize frame; a refused one changes nothing |
| Journals.EventJournal.Prune | apps/host-daemon/src/journal.ts:177-194 | eviction takes whole sealed segments, oldest first, and as many as age and size ask for |
| Journals.EventJournal.ReplayThrough | apps/host-daemon/src/journal.ts:126-162 | a replay is granted if and only if evicted is at most base, base at most commit, commit at most head, and both offsets are the recorded ones; then it is exactly the history's frames base+1 to commit |
| Journals.EventJournal.ReplayFrom | apps/host-daemon/src/journal.ts:121-124 | the same up to the head |
| Subscriptions.EachEventOnce | apps/host-daemon/src/session.ts:189-229 | however subscriptions, callbacks and publications nest, a callback is called with base+1, base+2, ... and nothing else; one that is attached, replayed and not still to be called was called with every event there is |
| Subscriptions.StepKeeps | apps/host-daemon/src/session.ts:546-556 | every call of a callback, with whatever it does before it returns, keeps received, replay and deferred events one contiguous range for each subscriber |
| RecoveryProofs.StepKeeps | apps/host-daemon/src/cloud/delivery-scheduler.ts:573-661 | every step of publisher, recovery, data channel, socket and relay, but the two that are endangered, keeps the order: what is in transit leads the relay's head to the publisher's cursor, nothing canonical is in transit behind a barrier that may be pinned before its commit, and no answer can be taken for one of another recovery |
| RecoveryProofs.FlushReachesCommit | apps/host-daemon/src/cloud/canonical-publisher.ts:91-115 | a flush of a recovery that was not aborted, with nothing left to send, has sent exactly the history up to its commit |
| RecoveryProofs.ReplayReachesCommit | apps/host-daemon/src/cloud/delivery-scheduler.ts:663-693 | a directed replay that was sent whole has reached its pinned commit, so its check cannot fail |
| RecoveryRuns.RelayIsNeverSurprised | apps/terminal-cloud/src/worker/delivery-barrier-controller.ts:93-103 | over every run without the two steps whose exact conditions are given below the relay never fails the Host: each barrier arrives at the canonical head, each canonical frame next and with nothing pinned, each directed frame next in its replay |
| RecoveryRuns.HostChecksHold | apps/host-daemon/src/cloud/canonical-publisher.ts:127-145 | in those runs the publisher never receives a discontinuous frame, a flush that was not aborted never misses its commit, and a directed replay never misses its own |
| RecoveryRuns.RelayHoldsAPrefix | apps/terminal-cloud/src/worker/host-relay-controller.ts:335-362 | in every run, without exception, the relay's head is a cursor of the Host's history and every frame in transit is the history's at its position |
| RecoveryRuns.PressureIsSafeIff | apps/host-daemon/src/cloud/delivery-scheduler.ts:201-212 | if the queue overflows while a marker waits for its receipt, the relay takes the publisher's next frame, whatever the data channel does meanwhile, if and only if the client is not current, or the marker is no longer on its way and the relay holds no pin for it |
| RecoveryRuns.PressureIsRefused | apps/host-daemon/src/cloud/canonical-publisher.ts:146-164 | a run from the beginning, with a batch in flight, a marker behind it and 1024 queued frames, in which that makes the relay fail the Host |
| RecoveryRuns.LostFrameIff | apps/host-daemon/src/cloud/delivery-scheduler.ts:416-436 | a flush loses the frame it takes off the queue, and the relay refuses the publisher's next one, if and only if the recovery was aborted and the data channel's socket is not open, holds too much, or the frame cannot be admitted within the channel's limits |
| RecoveryRuns.LostFrameIsRefused | apps/host-daemon/src/cloud/delivery-scheduler.ts:573-581 | a run from the beginning: 510 frames fill the socket, a recovery is superseded while its publisher is being paused, flushes, loses a frame and gets the Host failed |
| Recovery.Outcome | apps/host-daemon/src/cloud/delivery-scheduler.ts:756-765 | the scheduler's two looks at the socket around a send: it throws exactly at what the data channel does not take, and never at what it took |
| CanonicalPublishers.CanonicalPublisher.Enqueue | apps/host-daemon/src/cloud/canonical-publisher.ts:127-165 | a frame is refused exactly if it is discontinuous or over the limits without a recovery to press aside; otherwise it is the history's next, the queue owes it, and a pump runs unless paused |
| CanonicalPublishers.CanonicalPublisher.PumpTurn | apps/host-daemon/src/cloud/canonical-publisher.ts:191-209 | one turn of the pump sends the head of the queue in order, as many as end at a yield after 64 frames or 256 KiB; a throw stops the publisher |
| CanonicalPublishers.CanonicalPublisher.FlushTurn | apps/host-daemon/src/cloud/canonical-publisher.ts:91-115 | a turn sends only what the commit covers; when all of that is sent the commit was reached, if it is a cursor of the history not passed before |
| CanonicalPublishers.CanonicalPublisher.Activate | apps/host-daemon/src/cloud/canonical-publisher.ts:71-78 | publishing starts if and only if the relay acknowledged the advertised cursor, and then nothing that waits is left without a pump |
| CanonicalPublishers.CanonicalPublisher.Pause | apps/host-daemon/src/cloud/canonical-publisher.ts:80-83 | pausing keeps the queue, the cursors and the pump that is running |
| HostTransport.WellBatchedEncodes | apps/host-daemon/src/cloud/host-relay-connection.ts:433-459 | a batch within the limits always encodes, to as many bytes as its frames have, and decodes to them |
| HostTransport.HostDataChannel.TakeCount | apps/host-daemon/src/cloud/host-relay-connection.ts:433-459 | the counting loop takes 1 to 64 frames of at most 256 KiB, a latency-sensitive one alone, and stops only for a limit |
| HostTransport.HostDataChannel.FlushDataBatch | apps/host-daemon/src/cloud/host-relay-connection.ts:433-459 | unless a batch is in flight, the first frames in line leave as one batch with the fate that the socket's limits decide, in order and even if the send throws; if it does not, nothing stays pending without a batch in flight |
| HostTransport.HostDataChannel.EnqueueData | apps/host-daemon/src/cloud/host-relay-connection.ts:383-431 | a frame is refused exactly if the channel is closed or, when it batches, its limits are exceeded, and then nothing changes; otherwise it is last in line, and if a batch is due the next one leaves at once; a channel that batches never throws at a frame it took, has a wake-up for whatever is pending, and is open only as long as every send returned |
| HostTransport.HostDataChannel.OnDataAck | apps/host-daemon/src/cloud/host-relay-connection.ts:223-247 | an acknowledgement frees the channel and the next batch leaves; one for nothing, like a throw, closes it, which drops what is pending |
| HostTransport.HostDataChannel.RunScheduled | apps/host-daemon/src/cloud/host-relay-connection.ts:419-431 | the scheduled flush sends the next batch in line, and closes the channel exactly if the send throws |
| HostTransport.OwnFlushIsTaken | apps/host-daemon/src/cloud/host-relay-connection.ts:401-418 | a batch that leaves as soon as its last frame was admitted is always taken by an open socket, and nothing throws after it |
| HostTransport.OnlyThrownBatchesAreLost | apps/host-daemon/src/cloud/host-relay-connection.ts:448-458 | the socket was given what left the queue in its order, but for whole batches whose send threw before they were taken |

## Left out

- JSON control frames and their schemas, capability tokens, tickets, HTTP, R2 and SQL text: what a handler finds there is a parameter of its event.
- Heartbeats, reconnection, retry backoff, acknowledgement coalescing, checkpoint age and the recovery queue's timing: when a recovery is begun is open in the model, that it may begin at all is not.
- The terminal engine, PTY and snapshot formats: a replica is the list of mutations written to it, a snapshot a value at its cut.
- Status snapshots and listeners of the dispatcher, and result listeners beyond what they are told.
- Callbacks other than the sender (identifier generation, policies, observers, coordinator callbacks) return without reentering: an identifier generator that reentered `send` could hand out an identifier twice, and an acknowledgement callback that closed the coordinator could let a delivery go live on a disposed candidate.
- The clock is read once in a transaction.
- The relay answers an input with its connection's fence; in the model an acknowledgement carries the identity it is for.
- The nullable event and PTY fields of a socket attachment, always set together in the source, are one optional mark; a Delivery object is a value of the coordinator's field, so its aliases are not modelled.
- The awaits inside a relay reset are one event, as are those inside attach.
- Relay socket runtime, stores, connection stores, message queue and writer authority are not part of this model; a data socket belongs to the generation it was attached for.
- Subscriptions.EachEventOnce: publish and subscribe are steps of a state machine with a call stack, because a callback may reenter both; the other messages of the session's actor are not in that model.
- RecoveryRuns.RelayIsNeverSurprised: the scheduler is a state machine on values, because its handlers interleave at every await, with a loop sending one frame a step; the relay in it has one pin and no credit, a client that lost its socket ignores what is directed to it, and the seed that the relay keeps for a client is the base that the Host replays from.
- RecoveryRuns.LostFrameIff: a socket counts the application bytes it was given and has not passed on, as the standard WebSocket does, and loses none of that count within a turn, so an injected one that counts more is not part of this model; an open WebSocket's own send does not throw. A batch that is due at once leaves in a step of its own, and any number of frames within the batch limits may leave.
- RecoveryRuns.HostChecksHold: a publisher whose pump throws is failed in the same step, while the source does so a microtask later.
- CanonicalPublishers.CanonicalPublisher.PumpTurn: what a send may do to the publisher before it returns is a throw and nothing else.
- EndToEndOutput.BrowserShowsHostHistory: a restored replica equals the Host's state at its snapshot's cut, which is the Host's history in the epoch of the relay's connection; restores of other epochs are judged against that epoch's history.
- HostTransport.HostDataChannel.EnqueueData: rejecting the receipts of frames that are not sent, and the heartbeat that flushes as a scheduled flush does, are not modelled.
