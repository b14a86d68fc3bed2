# Artoo: verified models

Artoo's server sends start, stop and resume commands to an execution node over a WebSocket that
drops, repeats and replays. The node runs one writer process per run and streams numbered events
back until the server has committed them. These Dafny modules model the state machines this rests on
and prove what they keep.

| module | models |
|---|---|
| `EventKeys`, `Transport`, `TransportLife`, `WsTransport` | the node's transport: pending map, replay, receipts, reconnects, its end, and the promises of `send` |
| `EventDelivery`, `DeliveryProgress` | streams, transport and server commits together, over a lossy network |
| `NodeRun`, `NodeAnswers`, `NodeClient` | the node's handlers between awaits, per run, for legacy and per-run starts |
| `StopDispatch`, `StopOutcomes`, `NodeBinding` | the server's binding: awaited stops, timers, acks and the serialized `tail` |
| `RunProtocol` | node and bindings together |
| `OwnedRun` | a per-run start on the node and the adapter's process behind it together |
| `NodeStream`, `StreamFailure`, `RunStream` | one stream: forwarding, retention reports, failure handling |
| `GitCleanup` | the walk over a cyclic error graph |
| `ProcessLifecycle`, `ProcessOutcomes`, `OwnedProcess` | the child, its guardian, closure facts, receipts and lifecycle events |
| `EventQueue`, `EventStream` | the adapter's queue, and what a consumer gets of the process's events through it |
| `LineEmitter`, `StructuredOutput`, `OutputFields` | the adapter's line splitter and provider-output state machine |
| `CommandQueue`, `CommandOutcomes`, `Idempotency` | exactly-once commands: the offline queue and the two-phase reservation |
| `ArtifactStore`, `UploadOutcomes`, `Backup` | the content-addressed store with crash points, backup and restore |
| `RateLimit`, `SyncClient` | the pairing limiter and the resumable event sync |

`Common` holds the shared vocabulary. Verify everything with `dafny verify dfyconfig.toml`.

## How to read it

A protocol is a `State`, an `Action` type with what is `Possible` next, and a step function; its results
are lemmas over every run. The step functions follow the code segment by segment: an action is the code
between two awaits, one inbound frame, one timer or one step of the environment. Beside each there is a
class with the source's own mutable variables, whose methods are proved to perform those steps; where a
class has many variables, a ghost `state` follows the specification, and `Valid` ties every variable to it and
carries its invariant.

Answers of the world (does a write succeed, does a stop, what does a probe find) are parameters, so that
each theorem holds for all of them. Timers may fire at any time while armed.

Safety results say what never happens; beside them each operation has a lemma that says exactly what it does, in terms
of its inputs and the state it finds (`...Exactly`), and the protocols have results that say what does happen.

## Assumptions

- JavaScript runs ready promise continuations before the next socket message is dispatched
  (`NodeRun.Scheduled`). `NodeRun.StopNeedsMicrotasksFirst` shows that `run.stop` needs it.
- The operating system reports `exit` and `close` of a process only after its `spawn`, a failed spawn never
  closes with code 0, and a process or group that is gone does not come back.
- A legacy adapter `stop` that resolves means that the writer is gone. For per-run starts this
  is proved: a closing receipt is true (`OwnedRun.ClosedMeansGone`).
- A run has one stream and one counter in `EventDelivery`; `NodeRun.OneStreamPerRun` proves that it has no second one.
- The server commits a frame at most once and may answer any delivery of it (`ingestWireRunEvent` is not part of this model).
- Run ids carry their prefix (packages/domain/src/ids.ts:11-14), so no run is called `frame`.
- A key enqueued again in the command queue stands for the same command, and version numbers never fall.
- `onSend` runs at most once per request; a request may also vanish at any point.

## Where the code does not keep a stronger promise

- **Transport.** Re-sending a non-retention run event whose key is pending overwrites the entry and leaves the
  first promise unsettled for ever. `LosesIffResends` gives the exact condition; `EventDelivery` shows that the
  node's own streams never meet it.
- **Start.** Two processes of one legacy run can be alive: `adapter.start` rejects with its process left behind, the
  entries of the run are deleted, and a repeated `run.start` launches another (`TwoWritersAfterARejectedStart`).
  `OneProcessIff` gives the exact condition.
- **Stop.** A legacy stop can be accepted, and the server's `dispatchRunStop` resolve, while such a process or one left
  by a stream's `finally` is alive (`AcceptedStopBesideAWriter`); `AcceptedStopLeavesTheForsaken` says exactly which
  processes are. Per-run starts have no such case (`OwnedRun.ClosedMeansGone`).
- **Retention.** A completed event needs the receipt of its typed report only when no failed or cancelled terminal
  event came before it (`CompletedNeedsReceiptIff`, `CompletedWithoutReceipt`).
- **Stop dispatch.** After a failed send the promise is already rejected while its map entry waits for the owner's
  `finally`; an ack that comes before it is queued and confirmed although the caller has failed
  (`RejectedStopStillWaits`). `StopWaitsInOneWay` gives the exact condition.
- **Close.** A `dispatchRunStop` whose ownership query is still out when the binding closes creates its stop afterwards,
  and waits for its timer in vain (`StopCreatedAfterClose`, `AfterCloseOnlyQueuedStopsResolve`).
- **Physical facts.** Starting the guardian takes back `guardianStdioClosed` and `guardianGroupAbsent`; every other
  step only adds (`FactsGrowUntilGuardian`). On Windows group absence rests on `taskkill` and is not claimed.
- **Idempotency.** A success without a JSON body is not remembered (`WithoutJsonItRunsAgain`), and a request that
  dies in its handler blocks its key (`VanishedReservationBlocks`).
- **Limiter.** A window always admits its first attempt, so the bound is in `max(capacity, 1)`.
- **Command queue.** `duplicate` is what the server knew when the command was first sent, which is not what it knew
  before the attempt that was answered when an earlier answer was lost (`DuplicateIsStoredAtFirstSend`).
- **Sync.** A frame whose event has no string id still moves the cursor, and a reconnect then skips events for good
  (`NamelessFrameSkipsAnEvent`, `GaplessIffNothingMissed`).

## Model

| member | source | states |
|---|---|---|
| EventKeys.EventKeyInjective | apps/artood/src/ws-transport.ts:65 | two run events share a pending key exactly when they are the same run and the same sequence, whatever colons the run id contains |
| EventKeys.FrameKeyInjective | apps/artood/src/ws-transport.ts:173 | counter keys never repeat, and a run event meets one only if its run is literally called `frame` |
| Transport.EveryPromiseIsTracked | apps/artood/src/ws-transport.ts:172-197 | main result: in every run in which no pending key is re-sent, each accepted promise is settled or its entry is pending and never both, replay order is enqueue order, at most 1000 entries are pending, a closed transport has none |
| Transport.LosesIffResends | apps/artood/src/ws-transport.ts:172-183 | the condition of the previous row is exact: a promise is lost in a run if and only if some accepted send used a key that was still pending |
| Transport.ResendingLosesAPromise | apps/artood/src/ws-transport.ts:176-183 | for every such send of a non-retention run event, the first promise is neither settled nor pending in any later state |
| Transport.RunKeepsValid | apps/artood/src/ws-transport.ts:78-99 | over any run the accounting of promises holds, what was settled never changes, and a closed transport stays closed and empty |
| Transport.ResolvedOnlyByItsReceipt | apps/artood/src/ws-transport.ts:121-126 | a pending run event that needs a receipt is resolved by no step other than the accepting receipt of its own run and sequence |
| Transport.ReceiptSettlesItsEntryOnly | apps/artood/src/ws-transport.ts:121-126 | a receipt settles the one entry under its key with its verdict and leaves every other entry pending |
| Transport.OpenReplaysInEnqueueOrder | apps/artood/src/ws-transport.ts:104-118 | a reconnect writes hello and then the pending frames in the order they were enqueued, as far as the socket lets it; what needs a receipt or was not reached stays, in that order; if hello itself throws nothing is replayed and readiness stays open |
| Transport.FlushWritesInOrder | apps/artood/src/ws-transport.ts:92-99 | a replay pass writes exactly the first frames of the map, in Map order, up to the first refused write |
| Transport.FlushLeavesRemaining | apps/artood/src/ws-transport.ts:92-99 | a replay pass leaves the frames `Remaining` says: those that need a receipt and those not reached |
| Transport.RemainingIsUnreceipted | apps/artood/src/ws-transport.ts:92-99 | what remains is the unreceipted part of the frames written followed by the frames not reached |
| Transport.PendingOnlyFromSends | apps/artood/src/ws-transport.ts:172-189 | no step puts an entry into `pending` except a required send, and that one is the entry of its message |
| Transport.StepWritesOnly | apps/artood/src/ws-transport.ts:88-99 | a step writes only hello, frames that were pending and the frame it sends; counters only grow |
| Transport.AcceptedEventWaits | apps/artood/src/ws-transport.ts:181-196 | with receipts on, a run event that `send` accepts is pending under a promise never used before |
| Transport.ClosedStaysEmpty | apps/artood/src/ws-transport.ts:132-145 | after close or a terminal disconnect nothing is queued, written or reconnected, and every send throws |
| WsTransport.WebSocketTransport.constructor | apps/artood/src/ws-transport.ts:49-64 | a fresh transport is connecting, with nothing pending and readiness unsettled |
| WsTransport.WebSocketTransport.SettlePending | apps/artood/src/ws-transport.ts:78-84 | removes the entry under a key, if there is one, and settles its promise once |
| WsTransport.WebSocketTransport.FailPending | apps/artood/src/ws-transport.ts:85-87 | rejects every pending promise and empties the map |
| WsTransport.WebSocketTransport.Flush | apps/artood/src/ws-transport.ts:92-99 | the replay loop over the live map performs `FlushRest` on it |
| WsTransport.WebSocketTransport.OnOpen | apps/artood/src/ws-transport.ts:104-118 | the open event: late opens of a closed transport change nothing else; otherwise hello, replay, readiness; a hello that throws ends the handler before replay and readiness |
| WsTransport.WebSocketTransport.OnReceipt | apps/artood/src/ws-transport.ts:121-126 | the receipt event performs the receipt transition and keeps the accounting |
| WsTransport.WebSocketTransport.OnClose | apps/artood/src/ws-transport.ts:132-145 | the close event: terminal before the first connection or on code 1008, otherwise a reconnect timer |
| WsTransport.WebSocketTransport.OnReconnectTimer | apps/artood/src/ws-transport.ts:100-103 | a reconnect timer connects again unless the transport was closed meanwhile |
| WsTransport.WebSocketTransport.OnRetentionTimer | apps/artood/src/ws-transport.ts:184-189 | the retention deadline rejects the entry it was armed for |
| WsTransport.WebSocketTransport.Close | apps/artood/src/ws-transport.ts:202-211 | close rejects everything pending and leaves the map empty |
| WsTransport.WebSocketTransport.Send | apps/artood/src/ws-transport.ts:153-197 | `send` throws, writes, queues or refuses exactly as `Transport.Send` and keeps the accounting |
| WsTransport.WebSocketTransport.Install | apps/artood/src/ws-transport.ts:181-196 | the promise constructor records the entry, keeping a replaced key's position, and settles it at once only if it was written and needs no receipt |
| TransportLife.ClosedExactly | apps/artood/src/ws-transport.ts:132-145 | main result: over every run the transport is closed if and only if it was shut down, revoked with code 1008, or closed before it ever opened; no other drop, error or timeout ends it |
| TransportLife.DropIsFollowedByReplay | apps/artood/src/ws-transport.ts:92-145 | main result: what is pending at any other drop is written again, all of it and in order, on the next connection that takes it, and then waits only for the receipts it needs |
| TransportLife.DropKeepsEverything | apps/artood/src/ws-transport.ts:132-145 | an ordinary drop keeps every pending entry and every verdict and arms the reconnect, which connects again |
| TransportLife.EndRejectsWhatIsPending | apps/artood/src/ws-transport.ts:85-87 | a terminal event rejects exactly what was pending and leaves every other promise as it was |
| TransportLife.ReadinessIsDecidedOnce | apps/artood/src/ws-transport.ts:69-73 | readiness is decided by the first open that can say hello, or by an error or end before any, and never again |
| TransportLife.FlushSettles | apps/artood/src/ws-transport.ts:92-99 | a replay resolves exactly the frames it wrote that need no receipt |
| TransportLife.TimeoutRejectsExactly | apps/artood/src/ws-transport.ts:184-189 | a retention deadline takes its own entry out and rejects it, and touches no other |
| TransportLife.SendThrowsExactly | apps/artood/src/ws-transport.ts:153-180 | a send throws exactly for its kind, a closed transport, a key that waits or is guarded, a full map or an optional write that fails, and then has done nothing |
| TransportLife.QueuedSendExactly | apps/artood/src/ws-transport.ts:181-196 | a queued send is written if the socket takes it, and resolved at once exactly if it was and needs no receipt; otherwise its entry waits, with a deadline exactly for retention events under receipts |
| DeliveryProgress.WaitingEventGetsThere | apps/artood/src/node-client.ts:742-763 | main result: from any reachable world an event its stream waits for survives an ordinary drop: after a reconnect, one delivery and one receipt it is committed with the content sent, its send has resolved and its stream is free |
| DeliveryProgress.StreamsExactly | apps/artood/src/node-client.ts:751-763 | a send takes the next sequence of its run and carries its content under it; best-effort output waits for nothing, a required event exactly if it was queued |
| DeliveryProgress.CommitReleases | apps/artood/src/node-client.ts:751-763 | the commit of a written event and its accepting receipt release the stream that waits for it |
| EventDelivery.ResolvedMeansCommitted | apps/artood/src/node-client.ts:702-763 | main result: over any drops, repetitions and reorderings, a required send that resolved was committed by the server for that run and sequence, with the content that was sent |
| EventDelivery.ResolvedInSequenceOrder | apps/artood/src/node-client.ts:751-763 | a resolved event was committed before any later event of its run that the server has |
| EventDelivery.OneRequiredEventPerRun | apps/artood/src/node-client.ts:751-763 | a run has at most one required event pending, and it is the last sequence its stream took |
| EventDelivery.SequencesAreNeverReused | apps/artood/src/node-client.ts:711-724 | a send never takes a sequence again, and every frame on the wire still carries what was first sent under its sequence |
| EventDelivery.NoStreamIsForgotten | apps/artood/src/ws-transport.ts:172-197 | a stream that awaits a send has its entry in the replay map or its answer already there |
| EventDelivery.OnlyTheAwaitedReceiptCounts | apps/artood/src/ws-transport.ts:121-126 | a receipt for any sequence but the one its stream awaits leaves the transport unchanged |
| EventDelivery.OptionalReceiptSettlesNothing | apps/artood/src/ws-transport.ts:159-167 | a receipt for best-effort output settles nothing |
| EventDelivery.ReceiptReleasesTheStream | apps/artood/src/ws-transport.ts:121-126 | the accepting receipt of the awaited event, however late, resolves its send and lets the stream go on |
| EventDelivery.RunKeepsInv | apps/server/src/node-binding.ts:86-108 | the invariant of node streams, transport and server commits holds over every run |
| NodeRun.OneProcessIff | apps/artood/src/node-client.ts:561-633 | main result: however start, stop and resume commands are repeated and interleaved with the handlers' awaits, at most one process of a run is alive in every state if and only if no launch is made while a process left by a rejected legacy `adapter.start` still runs |
| NodeRun.TwoWritersAfterARejectedStart | apps/artood/src/node-client.ts:601-618 | that condition can fail: a concrete scheduled run with two live processes and two starts |
| NodeRun.RejectedStartLeavesAWriter | apps/artood/src/node-client.ts:601-618 | how it gets there: a rejected `adapter.start` with its process left, and no entry that remembers it |
| NodeRun.AtMostOneWriter | apps/artood/src/node-client.ts:481-559 | a run has at most one writer that is starting or live and not abandoned, in every state of every run |
| NodeRun.OneStreamPerRun | apps/artood/src/node-client.ts:698-724 | over every run at most one handler of a run ever streams its events, so its sequences come from one counter |
| NodeRun.RunAdvances | apps/artood/src/node-client.ts:561-633 | once a run is finished, tombstoned, physically started or fenced it stays so, and the adapter is not called for it again |
| NodeRun.OwnedStartHappensOnce | apps/artood/src/node-client.ts:423-436 | a per-run allocation reaches `startOwnedRun` at most once, and then the record of it stays |
| NodeRun.AcceptedStopIsFinal | apps/artood/src/node-client.ts:888-902 | from an accepted stop on, in every later state, no writer runs but abandoned ones and no start happens again |
| NodeRun.AbandonedIffAbandons | apps/artood/src/node-client.ts:601-618 | a writer is abandoned in a run exactly when a legacy `adapter.start` rejects, or a legacy stream's `finally` runs, while its process is still there |
| NodeRun.AcceptedStopLeavesTheForsaken | apps/artood/src/node-client.ts:821-903 | main result: at and after an accepted stop, the processes alive are exactly those whose abandonment is a move of the run and which have neither exited nor been proved gone since; none is alive if and only if there is no such process |
| NodeRun.ForsakenAreTheAbandonedAlive | apps/artood/src/node-client.ts:601-618 | over every run, that account of abandoned processes is kept move by move |
| NodeRun.AcceptedStopBesideAWriter | apps/artood/src/node-client.ts:888-896 | a concrete scheduled run that ends with an accepted stop and a live process |
| NodeRun.AcceptedStopMeansNoWriter | apps/artood/src/node-client.ts:821-903 | a run without an abandoning move leaves no process after an accepted stop |
| NodeRun.StopAfterTheMapsForgot | apps/artood/src/node-client.ts:888-896 | for a legacy run that has left the maps, the next stop is accepted at once and stops nothing: the processes alive stay as they are |
| NodeRun.ResumeReportsTruthfully | apps/artood/src/node-client.ts:911-1003 | a resume starts nothing, reports `process_exited` only when no unabandoned writer runs, and accepts only while there is an execution |
| NodeRun.StopNeedsMicrotasksFirst | apps/artood/src/node-client.ts:888 | without the rule that ready continuations run before the next message, a stop can be accepted while a writer is live: a concrete run |
| NodeRun.RunKeepsInv | apps/artood/src/node-client.ts:481-1003 | the invariant behind these results holds over every run |
| NodeAnswers.EveryCommandIsAnsweredOnce | apps/artood/src/node-client.ts:481-1003 | main result: over every run each start, stop and resume command delivered gets exactly one answer, of its own kind and under its own id, and is without one exactly while its handler is at work on it |
| NodeAnswers.StopAnswersExactly | apps/artood/src/node-client.ts:880-902 | a stop calls its adapter or the owned execution, or ends: accepted exactly if nothing was there to stop, the stop it awaited succeeded or the record was already closed, otherwise rejected with the code of its path |
| NodeAnswers.StartDispatchesExactly | apps/artood/src/node-client.ts:481-559 | a start is accepted at once exactly if it repeats a legacy launch under the same binding, waits exactly for a per-run start with its own key, begins exactly if the run has none, and is refused otherwise |
| NodeAnswers.StartAnswersExactly | apps/artood/src/node-client.ts:561-633 | a start under way calls its adapter exactly after a preparation that succeeded, is accepted exactly when that call returns, and rejected otherwise |
| NodeAnswers.RepeatedStartGetsTheOriginalAnswer | apps/artood/src/node-client.ts:514-520 | a repeated per-run start that waited for the original is given the original's own verdict and starts nothing |
| NodeAnswers.NoStartAwaitsALegacyOne | apps/artood/src/node-client.ts:525-539 | no start ever waits for a legacy one: a per-run start that meets one is refused for its other binding |
| NodeAnswers.ResumeAnswersExactly | apps/artood/src/node-client.ts:911-1003 | a resume inspects exactly a retained execution; it is accepted exactly for a run with a handle or an execution that still delivers and was found running or closed, and says exited exactly of what is known to have exited |
| NodeAnswers.LegacyStreamGoesOn | apps/artood/src/node-client.ts:764-785 | a legacy stream that fails awaits a stop of its writer, and every end of it goes through the `finally` |
| NodeAnswers.RecordClosesExactly | apps/artood/src/node-client.ts:263-279 | a per-run record is closed by exactly the confirmed answers of a stop, an inspection, a failed startup or a cancelled preparation, and for good |
| NodeAnswers.FinishesExactly | apps/artood/src/node-client.ts:778-785 | a run is finished by exactly the end of its stream or a stop that found nothing to stop |
| NodeAnswers.ExecutionIsKeptWhileNeeded | apps/artood/src/node-client.ts:236-245 | over every run an execution is kept exactly from a successful start until it is both closed and delivered |
| NodeClient.NodeClient.constructor | apps/artood/src/node-client.ts:140-160 | a fresh client knows no run |
| NodeClient.NodeClient.OnRunStart | apps/artood/src/node-client.ts:481-559 | the start handler up to its first await performs the start move of its run and touches no other run |
| NodeClient.NodeClient.ExecuteStart | apps/artood/src/node-client.ts:561-633 | each segment of a legacy start and stream performs its move, with the same maps, reply and adapter call |
| NodeClient.NodeClient.ExecutePhysicalStart | apps/artood/src/node-client.ts:281-421 | each segment of a per-run start performs its move |
| NodeClient.NodeClient.ConfirmClosed | apps/artood/src/node-client.ts:263-279 | a confirmed closure marks the record and compacts it |
| NodeClient.NodeClient.FinishStream | apps/artood/src/node-client.ts:778-785 | the legacy `finally` tombstones the run and forgets its handle |
| NodeClient.NodeClient.OnRunStop | apps/artood/src/node-client.ts:821-890 | the stop handler up to its first await |
| NodeClient.NodeClient.ContinueRunStop | apps/artood/src/node-client.ts:880-902 | the rest of the stop handler: tombstone, adapter stop or owned stop, and the reply that outcome allows |
| NodeClient.NodeClient.ContinueRunResume | apps/artood/src/node-client.ts:911-1003 | the rest of the resume handler |
| StopDispatch.StopWaitsInOneWay | apps/server/src/node-binding.ts:333-362 | main result: an unsettled stop waits with its timer armed or behind its queued ack, never both; a settled one still waits there if and only if its send failed while it waited and nothing (timer, `finally`, close, its ack's settlement) has taken it out since |
| StopDispatch.RejectedStopStillWaits | apps/server/src/node-binding.ts:353-354 | both ways occur: concrete runs that leave a rejected stop armed, and then queued and confirmed |
| StopDispatch.OneAwaitedStopPerRun | apps/server/src/node-binding.ts:336-347 | one binding awaits at most one stop per run |
| StopDispatch.ResolvedCallWasConfirmed | apps/server/src/node-binding.ts:109-117 | main result: a `dispatchRunStop` call resolves only through one stop of its own run that the node accepted, and after every run event received before that ack was processed |
| StopDispatch.MarkCountsEarlierEvents | apps/server/src/node-binding.ts:80-84 | the events of the previous row are those received before the ack, and `tail` processes them in order of arrival |
| StopDispatch.StopsActOnTheirOwn | apps/server/src/node-binding.ts:338-362 | each stop is created for one call, confirmed only by its own ack and settled once, by its own timer, failed send, ack or the close |
| StopDispatch.LateAckChangesNothing | apps/server/src/node-binding.ts:109-112 | the ack of a stop that timed out or was closed changes nothing, in particular not a newer stop |
| StopDispatch.AfterCloseOnlyQueuedStopsResolve | apps/server/src/node-binding.ts:335-383 | main result for close: at any later time an unsettled stop has its ack queued if it was there at the close, and otherwise was created by an ownership query that finished afterwards; that one keeps its timer and never resolves |
| StopDispatch.StopCreatedAfterClose | apps/server/src/node-binding.ts:335-345 | the second case occurs: a concrete run |
| StopDispatch.CloseSettlesEveryWaitingStop | apps/server/src/node-binding.ts:373-383 | at the close itself every unsettled stop has its ack already queued |
| StopDispatch.RunKeepsInv | apps/server/src/node-binding.ts:78-117 | the invariant of the binding holds over every run |
| StopOutcomes.TailSettlesExactly | apps/server/src/node-binding.ts:109-117 | main result: over every run, when `tail` reaches the ack of a stop that still waits, its promise resolves if and only if the run is still owned and that ack accepted it, and is rejected otherwise; nothing else changes |
| StopOutcomes.AcceptedStopResolvesItsCall | apps/server/src/node-binding.ts:333-362 | main result: from any reachable state in which a call waits for its stop on an open binding, the accepting ack, the work queued before it and the call's turn make the call return that very stop |
| StopOutcomes.CallsEndExactly | apps/server/src/node-binding.ts:333-362 | a call ends in exactly three ways: refused by a closed binding, not owning the run, or with the outcome of the stop it waits for; and once |
| StopOutcomes.StoppingExactly | apps/server/src/node-binding.ts:336-361 | over every run each call is under way or has returned, and a run is being stopped if and only if the call that created its stop is still at work on it |
| StopOutcomes.OwnersWaitForOneStop | apps/server/src/node-binding.ts:335-355 | an owner joins the stop under way or sends the one just created, and a failed send rejects that stop |
| StopOutcomes.AckIsQueued | apps/server/src/node-binding.ts:109-117 | an ack taken in queues its stop with its own verdict behind everything received before |
| StopOutcomes.EventIsQueued | apps/server/src/node-binding.ts:86-93 | an event is queued on an open binding and ignored on a closed one |
| StopOutcomes.SomeCallResolves | apps/server/src/node-binding.ts:333-362 | a concrete run in which a call returns its stop |
| StopOutcomes.RunKeepsVerdicts | apps/server/src/node-binding.ts:109-117 | over every run a stop is confirmed exactly if its accepting ack was taken in |
| NodeBinding.NodeBinding.constructor | apps/server/src/node-binding.ts:64-79 | a fresh binding awaits nothing |
| NodeBinding.NodeBinding.DispatchRunStop | apps/server/src/node-binding.ts:333-335 | a closed binding refuses at once; otherwise the ownership query starts |
| NodeBinding.NodeBinding.AfterOwnership | apps/server/src/node-binding.ts:335-347 | a stop already under way for the run is joined; otherwise one is created with its timer and sent |
| NodeBinding.NodeBinding.AfterSend | apps/server/src/node-binding.ts:353-354 | a failed send rejects the stop it was for, if it is still pending |
| NodeBinding.NodeBinding.AfterSettled | apps/server/src/node-binding.ts:355-361 | the owner's `finally` removes timer and entries; every caller reports the promise's outcome |
| NodeBinding.NodeBinding.OnStopTimer | apps/server/src/node-binding.ts:340-343 | a timeout removes the entry and rejects that stop |
| NodeBinding.NodeBinding.ReceiveAck | apps/server/src/node-binding.ts:109-117 | an ack of a pending stop disarms its timer and queues its settlement with the ack's own verdict; any other ack changes nothing |
| NodeBinding.NodeBinding.ReceiveEvent | apps/server/src/node-binding.ts:86-93 | a run event is queued behind everything received before it |
| NodeBinding.NodeBinding.AdvanceTail | apps/server/src/node-binding.ts:79-84 | the head of `tail` finishes: a waiting stop resolves exactly if it is this one, its ack accepted it and the run is still owned |
| NodeBinding.NodeBinding.Close | apps/server/src/node-binding.ts:373-383 | in every valid state close rejects every pending stop and clears the map |
| RunProtocol.ConfirmedStopHolds | apps/server/src/node-binding.ts:333-362 | main result, end to end: once `dispatchRunStop` has resolved, in every later state the node accepted exactly that stop, the run can never be launched again, and the processes alive are exactly those its handlers abandoned and that have neither exited nor been proved gone since |
| RunProtocol.AcceptedStopConfirms | apps/server/src/node-binding.ts:333-362 | main result, the other direction: from any reachable state in which a call waits for a stop the node has accepted, delivering the acknowledgement and letting the server's own work go on makes the call return it |
| RunProtocol.NodeTraceIsARun | apps/artood/src/node-client.ts:481-903 | what the whole system does to one run on the node is a run of that node's handlers |
| RunProtocol.FenceHoldsForever | apps/artood/src/node-client.ts:880-902 | no later step of server, network or node starts that run again |
| RunProtocol.FenceHolds | apps/artood/src/node-client.ts:481-559 | the same for one step of the whole system |
| RunProtocol.RunKeepsInv | apps/server/src/node-binding.ts:109-117 | node and bindings agree on every stop over every run of the system |
| OwnedRun.ClosedMeansGone | apps/artood/src/node-client.ts:263-279 | main result for per-run starts, node and adapter together: when the node's record says closed, and so after every accepted stop, no child, pipe or guardian exists, and on POSIX no member of either process group, in that and every later state |
| OwnedRun.ClosesByReceipt | apps/artood/src/node-client.ts:265-273 | a record becomes closed only by a closing receipt the adapter issued, or before the adapter was ever called |
| OwnedRun.ClosedNeverStarts | apps/artood/src/node-client.ts:281-421 | after that the adapter is never called |
| OwnedRun.RunKeepsInv | apps/artood/src/process-adapter.ts:857-914 | node record, receipts and processes agree over every joint run |
| NodeStream.OneOrTwoReports | apps/artood/src/node-client.ts:704-738 | for every adapter sequence and every pattern of failing sends, a worktree stream attempts one retention report or two; typed: two only as completed then incomplete delivery |
| NodeStream.TerminalFollowsItsReport | apps/artood/src/node-client.ts:745-751 | no terminal lifecycle event goes out before a report, and the adapter's own only after the report of its first terminal phase |
| NodeStream.CompletedNeedsReceiptIff | apps/artood/src/node-client.ts:718-721 | when a completed event is forwarded, the receipt of the typed completed report is there if and only if no failed or cancelled terminal event came first |
| NodeStream.CompletedWithoutReceipt | apps/artood/src/node-client.ts:704-709 | failed followed by completed: the completed event goes out and no receipt exists |
| NodeStream.SequencesAreConsecutive | apps/artood/src/node-client.ts:711-724 | every run event takes the next sequence, whatever failed before |
| NodeStream.FailureFollowsStop | apps/artood/src/node-client.ts:764-777 | the stream reports failure, and forwards the end of an owned run, only after the writer is known to be stopped |
| NodeStream.ForwardsInOrder | apps/artood/src/node-client.ts:742-763 | the events forwarded are the adapter's own, in order and from the first on; all of them unless something threw |
| StreamFailure.FailureIsReportedExactly | apps/artood/src/node-client.ts:764-777 | main result: a stream sends exactly one failed lifecycle event of its own if and only if its `try` block threw and the writer is known to have stopped once the `catch` block has tried; reports only come after it |
| StreamFailure.TryThrowsExactly | apps/artood/src/node-client.ts:739-763 | the `try` block throws if and only if the adapter's events break it or an attempt failed that it does not swallow |
| StreamFailure.CatchKnowsWhatStopped | apps/artood/src/node-client.ts:764-773 | the `catch` block's stop fails exactly if the writer is still not known to be gone |
| StreamFailure.ReportsExactly | apps/artood/src/node-client.ts:704-738 | main result: which retention outcomes a worktree stream reports: that of the `try` block if it got to one, incomplete delivery exactly if it failed with its writer stopped and nothing but completion was reported, unconfirmed exactly if nothing is remembered |
| StreamFailure.EveryReportHasItsDiagnostic | apps/artood/src/node-client.ts:718-737 | each typed report is followed at once by its diagnostic, unless it is a report of completion that failed |
| StreamFailure.LegacyStopsExactly | apps/artood/src/node-client.ts:764-773 | a legacy stream stops its writer exactly once, exactly if it threw |
| StreamFailure.OwnedStreamStops | apps/artood/src/node-client.ts:786-792 | an owned stream never ends without having tried to stop its writer or noticed that it is gone |
| RunStream.RunStream.constructor | apps/artood/src/node-client.ts:698-703 | a stream starts at sequence 0 with nothing reported |
| RunStream.RunStream.ReportRetainedWorkspace | apps/artood/src/node-client.ts:704-738 | one report call: which sends it attempts, what it remembers and when it throws |
| RunStream.RunStream.StopPhysical | apps/artood/src/node-client.ts:263-279 | an owned stop succeeds at once when the closure is already confirmed, otherwise with the adapter's receipt |
| RunStream.RunStream.HandleEvent | apps/artood/src/node-client.ts:742-762 | one turn of the loop: stop, report, forward, each only if the previous one did not throw |
| RunStream.RunStream.ForwardEvents | apps/artood/src/node-client.ts:742-763 | the loop over the adapter's events ends at the first throw |
| RunStream.RunStream.HandleError | apps/artood/src/node-client.ts:764-777 | the catch block reports and fails only when the writer is known to have stopped |
| RunStream.RunStream.Finish | apps/artood/src/node-client.ts:778-802 | the finally block: the last stop of an owned run and the unconfirmed report |
| RunStream.RunStream.Run | apps/artood/src/node-client.ts:698-802 | the whole of `streamStartedRun` is `Stream` |
| GitCleanup.ConfirmedOwnedGitCleanup | apps/artood/src/node-client.ts:1102-1117 | terminates on every finite, possibly cyclic error graph and is true exactly when some Git error is reachable through `cause` and `errors` and every reachable one has confirmed cleanup and disposed observers |
| GitCleanup.ClosedSetHoldsReachable | apps/artood/src/node-client.ts:1105-1115 | a set that holds the start and all successors of its members holds everything reachable |
| ProcessLifecycle.ConfirmedReceiptsAreTrue | apps/artood/src/process-adapter.ts:564-628 | main result: whenever closed facts or a `confirmed_closed` receipt exist, child, pipes and guardian are gone now, and on POSIX both process groups |
| ProcessLifecycle.NotSpawnedReceiptsAreTrue | apps/artood/src/process-adapter.ts:883-898 | whenever a `not_spawned` receipt exists, no child of the admission was ever created |
| ProcessLifecycle.AtMostOneChild | apps/artood/src/process-adapter.ts:857-860 | an admission spawns at most one child and one guardian, and presenting it again changes nothing |
| ProcessLifecycle.ClosedFactsNeverChange | apps/artood/src/process-adapter.ts:582-594 | recorded closed facts keep their value for ever, even when the closure is confirmed again |
| ProcessLifecycle.StepKeepsClosedFacts | apps/artood/src/process-adapter.ts:564-581 | the same for one step |
| ProcessLifecycle.FactsGrowUntilGuardian | apps/artood/src/process-adapter.ts:765-772 | a step only adds to the physical facts if and only if it is not startup going on with an unfinished run whose child has a pid, which spawns the guardian |
| ProcessLifecycle.GuardianTakesFactsBack | apps/artood/src/process-adapter.ts:555-563 | a concrete run that gets there, on either platform |
| ProcessLifecycle.TerminalIsLast | apps/artood/src/process-adapter.ts:633-645 | at most one terminal lifecycle event is emitted and nothing after it |
| ProcessLifecycle.CompletedMeansSuccess | apps/artood/src/process-adapter.ts:681-705 | on POSIX completed means exit code 0, the group gone, no provider failure and collected artifacts, for good |
| ProcessLifecycle.CompletedWithoutStopRequest | apps/artood/src/process-adapter.ts:669-705 | completed is emitted only while no stop was requested |
| ProcessLifecycle.NoEndBeforeTheGroupIsGone | apps/artood/src/process-adapter.ts:662-668 | on POSIX no terminal event of any kind is emitted for a spawned child before its whole group is gone |
| ProcessLifecycle.CancelledOnlyOnRequest | apps/artood/src/process-adapter.ts:671-680 | a run is cancelled only if a stop was requested |
| ProcessLifecycle.StartupReceiptIsExact | apps/artood/src/process-adapter.ts:883-898 | a failed startup says confirmed closed exactly when closed facts exist and the child is gone, not spawned exactly when no child ever was and that is proved |
| ProcessLifecycle.Concludes | apps/artood/src/process-adapter.ts:671-717 | the tail of the close handler ends the run with exactly one terminal event, completed in exactly one case |
| ProcessLifecycle.RunKeepsInv | apps/artood/src/process-adapter.ts:456-717 | the invariant of observed flags and real processes holds over every run |
| ProcessOutcomes.EmitsExactly | apps/artood/src/process-adapter.ts:633-757 | main result: every step of an open run emits exactly its events, and the run ends exactly at the end of the close handler, cancelled, completed or failed under exactly these conditions; nothing is emitted after it |
| ProcessOutcomes.GoneIsConfirmed | apps/artood/src/process-adapter.ts:564-594 | main result: once child and guardian have been seen to end, the next observation makes the next stop say closed, and it is true |
| ProcessOutcomes.ObservesExactly | apps/artood/src/process-adapter.ts:555-581 | an observation records the closure exactly when both are seen gone, with exactly the facts seen |
| ProcessOutcomes.ReceiptsExactly | apps/artood/src/process-adapter.ts:618-628 | a stop says closed exactly when the facts are there; an inspection then too, running exactly when everything else was found running, uncertain otherwise; a failed startup says what is known of it; no other step issues a receipt |
| ProcessOutcomes.RunningIsTrue | apps/artood/src/process-adapter.ts:618-628 | an inspection that says running is right at that moment |
| ProcessOutcomes.TerminatesExactly | apps/artood/src/process-adapter.ts:536-549 | termination begins exactly at a POSIX exit or close and at a kill of an unfinished run, once, and a stop is requested exactly by a kill |
| ProcessOutcomes.ChildIsSeenExactly | apps/artood/src/process-adapter.ts:647-668 | each event of the child sets its own flag and nothing else does; an error counts as a failed spawn exactly without a pid |
| ProcessOutcomes.GuardianIsSeenExactly | apps/artood/src/process-adapter.ts:777-786 | so does each event of the guardian |
| ProcessOutcomes.WaitingRunEnds | apps/artood/src/process-adapter.ts:662-705 | a run whose group is gone and whose handler waits for that ends, and completes on code 0 if all is well |
| ProcessOutcomes.StartsExactly | apps/artood/src/process-adapter.ts:857-914 | the phases of startup, and that an admission is claimed once and stays what its first presentation was |
| OwnedProcess.OwnedProcess.Spawned | apps/artood/src/process-adapter.ts:466-487 | the closure variables right after spawn |
| OwnedProcess.OwnedProcess.OnSpawnEvent | apps/artood/src/process-adapter.ts:754-757 | the started event always goes out: a child that has just spawned cannot have ended its run |
| OwnedProcess.OwnedProcess.OnErrorEvent | apps/artood/src/process-adapter.ts:647-653 | an error before the spawn event counts as a failed spawn exactly when no child was ever created |
| OwnedProcess.OwnedProcess.OnExitEvent | apps/artood/src/process-adapter.ts:654-661 | the exit event starts group cleanup on POSIX |
| OwnedProcess.OwnedProcess.OnCloseEvent | apps/artood/src/process-adapter.ts:662-668 | the close event up to its first await |
| OwnedProcess.OwnedProcess.OnTermination | apps/artood/src/process-adapter.ts:543-549 | the group counts as gone exactly when its termination succeeded, and on POSIX it then is |
| OwnedProcess.OwnedProcess.ContinueClose | apps/artood/src/process-adapter.ts:669-717 | the rest of the close handler |
| OwnedProcess.OwnedProcess.ContinueStartup | apps/artood/src/process-adapter.ts:765-772 | a guardian is attempted exactly when the run is not over, and at most one exists |
| OwnedProcess.OwnedProcess.Kill | apps/artood/src/process-adapter.ts:536-541 | afterwards termination is under way or the run over, nothing was emitted, and whatever the close handler finds an open run ends cancelled |
| OwnedProcess.OwnedProcess.ObserveFullClosure | apps/artood/src/process-adapter.ts:564-581 | says closed exactly when child and guardian are observed closed, and then all of them are gone |
| OwnedProcess.OwnedProcess.BeginStop | apps/artood/src/process-adapter.ts:606-616 | `control.stop` up to its first await: closed now, a kill of a child seen running, waiting for an end already seen, or a throw, each in exactly its case |
| OwnedProcess.OwnedProcess.StopOwnedRun | apps/artood/src/process-adapter.ts:901-910 | the receipt once `control.stop` is over: confirmed exactly when closed facts exist, and then everything is gone |
| OwnedProcess.OwnedProcess.ConcludeRun | apps/artood/src/process-adapter.ts:671-717 | ends an open run with one last terminal event: cancelled if a stop was requested, completed on code 0 without failure and with artifacts, failed otherwise |
| EventQueue.DeliveredInPushOrder | apps/artood/src/process-adapter.ts:251-296 | for every interleaving, the n-th request gets the n-th item pushed, and is told the end only when there is none and never will be |
| EventQueue.NobodyStarves | apps/artood/src/process-adapter.ts:256-266 | no request stays open while an item is there for it or after the end |
| EventQueue.PushedIsHistory | apps/artood/src/process-adapter.ts:256-275 | every item pushed before the end is accepted, in order, and the queue ends exactly when somebody ends it |
| EventQueue.EndIsFinal | apps/artood/src/process-adapter.ts:268-275 | nothing pushed after the end is ever delivered |
| EventQueue.RunKeepsInv | apps/artood/src/process-adapter.ts:251-296 | items and waiters are never both present, over every run |
| EventQueue.AsyncEventQueue.Push | apps/artood/src/process-adapter.ts:256-266 | serves the oldest waiter or stores the item; ignored after the end |
| EventQueue.AsyncEventQueue.End | apps/artood/src/process-adapter.ts:268-275 | dismisses every waiter |
| EventQueue.AsyncEventQueue.Pull | apps/artood/src/process-adapter.ts:277-295 | one turn of `drain` |
| EventStream.TerminalIsDeliveredLast | apps/artood/src/process-adapter.ts:633-645 | main result, process and queue together: for every interleaving with the consumer the request that gets the terminal event is the last to get any, every later one is told the end, and once the run has ended the request of that number gets it |
| EventStream.FeedKeepsInv | apps/artood/src/process-adapter.ts:256-275 | the queue takes exactly what a step emits and ends exactly when the run does |
| EventStream.RunKeepsInv | apps/artood/src/process-adapter.ts:251-296 | that holds over every joint run |
| LineEmitter.ChunksDoNotMatter | apps/artood/src/process-adapter.ts:298-322 | for every way of cutting a text into chunks, feeding and flushing emits the lines of the whole text |
| LineEmitter.FlushTwice | apps/artood/src/process-adapter.ts:314-320 | a second flush adds nothing |
| LineEmitter.SplitsExactly | apps/artood/src/process-adapter.ts:305-320 | the lines of a text are its newline-free lines, each without exactly one trailing carriage return if it has one, and a nonempty rest as one more |
| LineEmitter.StripsOneCr | apps/artood/src/process-adapter.ts:305-313 | exactly one trailing carriage return goes, if there is one |
| LineEmitter.JoinUndoesSplit | apps/artood/src/process-adapter.ts:305-313 | the raw lines and the remainder contain no newline and join to the text |
| LineEmitter.SplitIsUnique | apps/artood/src/process-adapter.ts:305-313 | and no other division of the text does |
| LineEmitter.Emitter.Feed | apps/artood/src/process-adapter.ts:305-313 | the buffer loop emits the completed lines and keeps the remainder |
| LineEmitter.Emitter.Flush | apps/artood/src/process-adapter.ts:314-320 | a nonempty remainder is emitted as a line, once |
| StructuredOutput.CodexAnswer | apps/artood/src/structured-output.ts:42-55 | Codex: the run has the answer `text` exactly when no line failed or was oversized and `text` is the last valid agent message before the last completed turn |
| StructuredOutput.DirectAnswer | apps/artood/src/structured-output.ts:56-78 | Claude and plain adapters: the answer is the last valid text, unless some result failed |
| StructuredOutput.CodexState | apps/artood/src/structured-output.ts:42-55 | what every prefix of a Codex output has made of candidate, answer and failure |
| StructuredOutput.LastOfferIsUnique | apps/artood/src/structured-output.ts:45-49 | the last offered text is unique, so the two rows above determine the answer |
| StructuredOutput.LastUsageIsReported | apps/artood/src/structured-output.ts:20-34 | the usage emitted is exactly the last one reported, with the session id named last by then, whether or not the process succeeded |
| StructuredOutput.AtMostUsageThenAnswer | apps/artood/src/structured-output.ts:80-85 | whatever the output, at most usage and then one answer, and no answer after a failure |
| StructuredOutput.Output.Accept | apps/artood/src/structured-output.ts:37-79 | after each line the closure variables are what the lines consumed so far make of them |
| StructuredOutput.CodexStep | apps/artood/src/structured-output.ts:42-55 | what one Codex line does to failure, candidate and answer, whatever came before |
| StructuredOutput.DirectStep | apps/artood/src/structured-output.ts:56-78 | the same for Claude and plain adapters |
| StructuredOutput.Output.Emit | apps/artood/src/structured-output.ts:80-85 | for the lines consumed: the usage is the last report, and the answer is there exactly when the process succeeded, no line failed and it is the last offer that counts |
| OutputFields.CodexOffersExactly | apps/artood/src/structured-output.ts:44-49 | Codex: a line offers a text exactly if it is a completed agent message whose text has 1 to 200000 characters |
| OutputFields.ClaudeOffersExactly | apps/artood/src/structured-output.ts:58-66 | Claude: exactly a result that is no error, of subtype success or none, with such a text |
| OutputFields.PlainOffersExactly | apps/artood/src/structured-output.ts:71-73 | plain adapters: exactly an answer event with such a text in its payload |
| OutputFields.CodexReportsExactly | apps/artood/src/structured-output.ts:20-34 | which field of a Codex turn becomes which count, and when it reports nothing |
| OutputFields.ClaudeReportsExactly | apps/artood/src/structured-output.ts:20-34 | the same for a Claude result, with its own key for cached tokens and its cost |
| OutputFields.PlainReportsExactly | apps/artood/src/structured-output.ts:74-77 | a plain payload counts exactly if every field is absent or fit, and is then taken as it is |
| OutputFields.SessionsExactly | apps/artood/src/structured-output.ts:43-57 | which lines name a session, of at most 500 characters |
| OutputFields.LastReasonWins | apps/artood/src/structured-output.ts:48-67 | the failure reason of an output is that of its last failing line, and there is one exactly if a line failed |
| CommandQueue.ServerAppliesOnceInOrder | packages/client/src/command-queue.ts:88-115 | main result: over a network that loses, delays and repeats, the server's log is what applying the settled commands once per key in enqueue order gives, plus at most the unacknowledged head |
| CommandQueue.SettledThenPendingIsHistory | packages/client/src/command-queue.ts:88-135 | settled commands followed by `pending()` are the enqueue history, whatever is enqueued during a pass |
| CommandQueue.DuplicateIffAppliedBefore | packages/client/src/command-queue.ts:97-107 | `duplicate` is true exactly when an earlier outcome had already applied the key |
| CommandQueue.DuplicateIsStoredAtFirstSend | packages/client/src/command-queue.ts:97-107 | main result: over every run `duplicate` says whether the server knew the key when the command was first sent; it differs from what the server knew before the answered attempt if and only if an earlier attempt of the same enqueued command took effect and its answer was lost |
| CommandQueue.LostAnswerIsNoDuplicate | packages/client/src/command-queue.ts:97-107 | and there it does differ: the answer is a replay of what the server had done, and `duplicate` is false |
| CommandQueue.AnswerCanBeLost | packages/client/src/command-queue.ts:92-95 | a concrete run that reaches the state of the previous row |
| CommandQueue.ReplaysGiveTheStoredResponse | packages/db/src/idempotency.ts:55-64 | every applied outcome of a key carries the one response the server stored |
| CommandQueue.EffectiveIsApplyOnce | packages/client/src/command-queue.ts:96-112 | the outcomes a client saw are those of the reference that applies each key once in order |
| CommandQueue.RunKeepsInv | packages/client/src/command-queue.ts:79-137 | queue, network and server agree over every run |
| CommandQueue.CommandQueue.Enqueue | packages/client/src/command-queue.ts:118-120 | appends to the tail |
| CommandQueue.CommandQueue.Flush | packages/client/src/command-queue.ts:121-132 | a flush during a pass starts nothing; otherwise the head goes out |
| CommandQueue.CommandQueue.OnAnswer | packages/client/src/command-queue.ts:96-113 | one settled attempt: the head leaves, its outcome is reported, the next command goes out |
| CommandOutcomes.OutcomesAreAnswers | packages/client/src/command-queue.ts:96-112 | main result: over every run each outcome reports what the server answered to that very command: the response, or the command's base version and the newer version of its resource |
| CommandOutcomes.FlushDrains | packages/client/src/command-queue.ts:88-132 | main result: from any reachable state at rest one flush over a network that delivers settles every pending command, in order, and loses none |
| CommandOutcomes.OneSendAtATime | packages/client/src/command-queue.ts:121-132 | however flushes are requested, at most one command is on its way, and one is exactly while a pass awaits it |
| CommandOutcomes.SettlesExactly | packages/client/src/command-queue.ts:96-112 | one answer settles the head with itself, last, and remembers the key exactly if it was applied |
| CommandOutcomes.SendsExactly | packages/client/src/command-queue.ts:90-92 | which command a step puts on the wire |
| Idempotency.SuccessHappensOnce | apps/server/src/idempotency-middleware.ts:71-129 | main result: under any interleaving and any crash, no handler runs for a scope and key after one that succeeded with a JSON body |
| Idempotency.ReplaysReturnTheEffect | apps/server/src/idempotency-middleware.ts:96-101 | every replay returns the response of that execution, to a request with the same body |
| Idempotency.OnlyTheReserverTouchesItsRow | apps/server/src/idempotency-middleware.ts:71-129 | a row changes only by the insert that reserves it or by `onSend` of the one request that holds it |
| Idempotency.SuccessIsReplayed | apps/server/src/idempotency-middleware.ts:80-101 | main result: over every run, once a success with a JSON body has gone out, every later request with that key is answered from it: the same body gets that response, another body is refused, as `runIdempotent` would, and none reaches a handler |
| Idempotency.FirstRunsSecondReplays | apps/server/src/idempotency-middleware.ts:71-129 | from any state in which a key is free, the first request runs its handler and the second gets its response |
| Idempotency.LooksExactly | apps/server/src/idempotency-middleware.ts:80-101 | each answer to a blocked request has exactly its case: the row gone, of another body, still reserved, or stored |
| Idempotency.ArrivesExactly | apps/server/src/idempotency-middleware.ts:71-105 | a request runs its handler exactly if its insert went through |
| Idempotency.SendsExactly | apps/server/src/idempotency-middleware.ts:108-129 | a response that goes out stores a JSON success in its own row and frees the key in every other case |
| Idempotency.RefinesRunIdempotent | packages/db/src/idempotency.ts:49-81 | every step is, on the abstract table, a first execution, a replay or a mismatch of `runIdempotent`, or nothing |
| Idempotency.WithoutJsonItRunsAgain | apps/server/src/idempotency-middleware.ts:110-122 | after an error or a success without a JSON body the same request runs its handler again |
| Idempotency.VanishedReservationBlocks | apps/server/src/idempotency-middleware.ts:71-96 | a request that dies while it holds a row leaves the key reserved for good |
| Idempotency.RunKeepsInv | apps/server/src/idempotency-middleware.ts:71-129 | the invariant of rows, requests and executions holds over every run |
| Idempotency.Middleware.PreHandler | apps/server/src/idempotency-middleware.ts:71-105 | reserves and tags exactly when no row is there, and then this request alone holds the key |
| Idempotency.LookInforms | apps/server/src/idempotency-middleware.ts:80-101 | the row a blocked request finds is true of the handlers that ran: a replay names a success with this body, contended means none succeeded, another body means none with this body did, in progress means none with another body did |
| Idempotency.Middleware.OnConflict | apps/server/src/idempotency-middleware.ts:80-101 | so is the answer it sends; it is in progress exactly while the row is reserved for this body, and a replay exactly of what is stored for it |
| Idempotency.Middleware.OnSend | apps/server/src/idempotency-middleware.ts:108-129 | a tagged request finds its own reservation: a JSON success is stored in it, anything else deletes it; untagged requests change nothing |
| Idempotency.Database.RunOnce | packages/db/src/idempotency.ts:44-82 | one transaction of `runIdempotent`: a replay writes no events; a first run appends exactly its events and stores their ids |
| RateLimit.SlidingBound | apps/server/src/claim-rate-limit.ts:34-46 | with a nondecreasing clock every half-open interval of one window length allows at most 2 * max(capacity, 1) - 1 attempts |
| RateLimit.BoundIsTight | apps/server/src/claim-rate-limit.ts:34-46 | the bound is attained for every capacity, below 1 included, and every window of at least 2 ms |
| RateLimit.SourcesAreIndependent | apps/server/src/claim-rate-limit.ts:32-46 | the decisions a source gets are those on its own calls alone |
| RateLimit.SlidingBoundPerSource | apps/server/src/claim-rate-limit.ts:32-46 | hence the bound holds for every source of the shared limiter |
| RateLimit.ClaimLimiter.Attempt | apps/server/src/claim-rate-limit.ts:34-46 | one attempt updates the source's window only and is decided as `Consume` |
| ArtifactStore.RowsNameTheirBytes | apps/server/src/artifact-routes.ts:49-77 | main result: in every reachable store, crashes between any steps included, each row's storage key names a file whose hash is that key, and checksum and size are those of the uploaded bytes |
| ArtifactStore.RowsKeepTheirBytes | apps/server/src/artifact-routes.ts:49-77 | if no two received bodies share a hash, that file is exactly what was uploaded |
| ArtifactStore.ReachableStoreIsClean | apps/server/src/artifact-routes.ts:55-60 | every directory entry is a staging file or a blob under its own hash, and no two rows have the same run, checksum, filename and type |
| ArtifactStore.StepKeepsRows | apps/server/src/artifact-routes.ts:61-77 | no step takes a row or the blob it names away |
| ArtifactStore.RunKeepsInv | apps/server/src/artifact-routes.ts:49-77 | the invariant of uploads, files and rows holds over every run |
| ArtifactStore.Store.StoreBlob | apps/server/src/artifact-routes.ts:53-60 | the body ends up under its digest and the staging file is gone |
| ArtifactStore.Store.InsertArtifact | apps/server/src/artifact-routes.ts:61-77 | refuses an ended run, returns an equal row or inserts one; never a second equal row |
| UploadOutcomes.UploadSucceeds | apps/server/src/artifact-routes.ts:52-77 | main result: from any reachable state an admitted upload of an active run, left alone, ends with its row and exactly its bytes stored |
| UploadOutcomes.InsertsExactly | apps/server/src/artifact-routes.ts:61-77 | the transaction does nothing for an ended run, nothing if the run has a row of the same digest, file name and type, and otherwise adds one row that says exactly what was uploaded |
| UploadOutcomes.AdmitsExactly | apps/server/src/artifact-routes.ts:41-51 | a request is taken exactly if its run is active, its file name fit, its body at most 10 MiB and its checksum that of the body |
| UploadOutcomes.PublishesExactly | apps/server/src/artifact-routes.ts:55-60 | publishing puts exactly the uploaded bytes under their digest, takes the staging file away and moves nothing else |
| UploadOutcomes.NoUploadHasTwoRows | apps/server/src/artifact-routes.ts:66-70 | in every reachable store no run has two rows of the same digest, file name and type |
| Backup.BackupThenRestore | apps/server/src/storage-operations.ts:29-95 | main result: from any store uploads and crashes can have produced, a backup is intact and restoring it gives the same database bytes and exactly the stored blobs |
| Backup.BackupOfReachableStoreNeverFails | apps/server/src/storage-operations.ts:36-48 | the per-file checks of a backup hold on every reachable store |
| Backup.RowsSurvive | apps/server/src/storage-operations.ts:56-95 | every artifact row finds its blob in the restored store |
| Backup.RestoredFilesAreSound | apps/server/src/storage-operations.ts:64-94 | whatever the archive holds, a restored file has the hash it is named by |
| Backup.IntactExactly | apps/server/src/storage-operations.ts:59-87 | an archive passes a restore exactly if the database and each listed artifact are there, of the length and hash their entries say, named as they must be and none twice |
| Backup.BacksUpExactly | apps/server/src/storage-operations.ts:36-47 | what is backed up is every entry of the directory but unfinished uploads, under its own name |
| Backup.BackupIsIntact | apps/server/src/storage-operations.ts:49-51 | a backup of a clean store passes every check of a restore |
| Backup.CopyBlobs | apps/server/src/storage-operations.ts:36-48 | the copying loop ends well exactly on a clean directory and copies every blob |
| Backup.WriteBackup | apps/server/src/storage-operations.ts:29-53 | succeeds exactly on a clean directory with a new destination, and then is a backup of it |
| Backup.RestoreArtifacts | apps/server/src/storage-operations.ts:85-87 | copies every listed artifact, or fails if one does not verify |
| Backup.Disk.RestoreStorage | apps/server/src/storage-operations.ts:56-95 | publishes exactly when the destination is new at both checks, the archive intact and its database healthy; otherwise it leaves nothing behind and never overwrites what another process put there |
| Backup.CopyVerified | apps/server/src/storage-operations.ts:97-113 | for every chunking the streaming verifier accepts exactly what the whole-file check accepts, and then wrote the file |
| SyncClient.GaplessIffNothingMissed | packages/client/src/sync-client.ts:105-135 | main result: over any disconnects, repetitions, junk and frames without a string id, no event of the log is skipped between two emitted ones if and only if nothing new was emitted after a reconnect whose cursor had run past an event not yet emitted |
| SyncClient.ResumesUnlessItMisses | packages/client/src/sync-client.ts:28-37 | a subscription from the cursor starts right after the last emitted event if and only if no event lies between that one and the cursor |
| SyncClient.CursorIsLastUnlessNameless | packages/client/src/sync-client.ts:57-63 | the cursor is the higher of the last emitted position and the highest cursor of a frame without a string id; so it is the last position if and only if no such frame carried a higher one |
| SyncClient.MissedIsLost | packages/client/src/sync-client.ts:28-37 | an event missed by a reconnect is never emitted later |
| SyncClient.NamelessFrameSkipsAnEvent | packages/client/src/sync-client.ts:60-63 | a concrete run in which a frame without a string id makes the client skip an event |
| SyncClient.AcceptsTheFirstOfEachId | packages/client/src/sync-client.ts:44-71 | main result for any frames at all, with whatever ids and cursors: the emitted events are those that are first under their id, in order of arrival, and the cursor is the highest any event frame carried |
| SyncClient.EmitsInOrder | packages/client/src/sync-client.ts:49-66 | over any connections to a log, with repetitions, junk and frames without a string id, the emitted events are events of the log in its order, each once |
| SyncClient.GaplessIsStretch | packages/client/src/sync-client.ts:49-66 | in order and without gaps means a contiguous stretch of the log |
| SyncClient.EmitsAStretchOfTheLog | packages/client/src/sync-client.ts:105-135 | without frames that lack a string id the emitted events are a contiguous stretch and the cursor is the position of the last |
| SyncClient.EmittedOnlyGrows | packages/client/src/sync-client.ts:44-71 | what was emitted is only ever extended |
| SyncClient.RunKeepsInv | packages/client/src/sync-client.ts:105-135 | the invariant holds over every run |
| SyncClient.SyncState.AcceptFrame | packages/client/src/sync-client.ts:49-66 | one frame: which event it emits, and how cursor and seen ids change |
| SyncClient.Client.Open | packages/client/src/sync-client.ts:111-135 | opens unless stopped and subscribes from the cursor, live only when it is 0 |
| SyncClient.Client.OnClose | packages/client/src/sync-client.ts:129-133 | a close asks for a reconnect unless stopped |
| SyncClient.Client.Stop | packages/client/src/sync-client.ts:141-144 | no transport and no reconnect afterwards |

## Left out

- The `managedJournal` and mixed-execution branches of the node client: the journal is not part of this model.
- `dispatchRunStart` with its coalescing map, `sendRunStart`, `dispatchRunResume` and its timers, and `drain` in the node
  binding: database reads and guards around one send; what the node does with those commands is in `NodeRun` and `RunProtocol`.
- Several connections of the sync client at once, and a second `start()`.
- The legacy (unowned) control surface of the process adapter, redaction of secrets, and the context file.
- Signals, `taskkill`, Git, SQL, Fastify, sockets, `StringDecoder` and SHA-256: environment steps or parameters.
- Durability of a rename across a power failure, and links or other irregular files in the artifact directory.
- Artifact rows that do not come from the upload route; the authorization checks in front of it.
- Retry delays, heartbeats and other wall-clock durations.
- Restart of the node process: the node's maps are those of one client lifetime.
- The web wrapper around the command queue, which settles other API errors as applied with an error inside.
- NodeRun.AtMostOneWriter: speaks of writers that are not abandoned, because two processes can be alive; `OneProcessIff` has the exact condition.
- RunProtocol.ConfirmedStopHolds: does not say that no process is alive, because an abandoned one can be; it says exactly which are.
- RunStream.RunStream.StopPhysical: a stop another handler has under way counts as the one awaited, so the shared `stopPending` promise shows only by its outcome; a record without an execution cannot occur in a stream before its closure is confirmed.
- NodeStream.CompletedNeedsReceiptIff: the receipt is guaranteed only under the stated condition, because the code gives no more.
- ProcessLifecycle.ConfirmedReceiptsAreTrue: claims process groups on POSIX only.
- OwnedProcess.OwnedProcess.Spawned: the closure variables are grouped into three records, so writes to single variables show as record updates.
- RateLimit.SlidingBound: uses max(capacity, 1), because a window admits its first attempt even with capacity 0.
- SyncClient.EmitsInOrder: a server that sends an event under a cursor other than its position in the log, or an id that is not in the log, is covered by AcceptsTheFirstOfEachId only.
