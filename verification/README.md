# Delegated execution: a verified model

A buyer controller dispatches requests, a message hub carries them, a seller runtime queues, executes, signs and
returns them, and a platform binds requests, tokens, sellers and keys. This project models those four parties and
proves what holds over every run of each of them and of buyer, hub and seller together, strangers' mail included.

Concurrency is modelled as interleaving. One step is one stretch of JavaScript between two `await`s; a run is a
sequence of states linked by such steps, in any order, with any number of activities in flight. A snapshot is one
atomic copy of the seller's state, and a crash resumes from the last one. Ed25519, SHA-256, base64, UTF-8 and number
conversion are functions known only by their defining laws (`Contracts.Host.Lawful`; base64 as in section 4 of RFC
4648). The stable sort is specified as in section 23.1.3.30 of ECMA-262. Clocks, random ids and the outcomes of
executors, token checks and guardrails are parameters.

| file | what it models |
|---|---|
| `Json.dfy`, `Contracts.dfy` | JSON values, the signed projection of a result package, the host's primitives |
| `SellerResult.dfy`, `ResultContents.dfy` | from an execution to the signed package and its attachments; what the package tells of the execution |
| `SellerStore.dfy`, `SellerRuntime.dfy` | the seller's state as a value, and the object the runtime updates in place |
| `SellerMachine.dfy`, `SellerGuarantees.dfy` | every run of the seller with crashes; its invariant and what follows from it |
| `SellerOnce.dfy`, `SellerOverlap.dfy` | at most one execution per request, and exactly which runs have it |
| `SellerInbox.dfy` | one pass over the seller's inbox |
| `BuyerRequest.dfy`, `BuyerMachine.dfy` | a buyer request, its verification ladder and timeouts; every run of the buyer |
| `BuyerVerdicts.dfy` | each verdict, timeout and route, if and only if, in the fields of request and package |
| `BuyerSync.dfy`, `BuyerInbox.dfy` | batched event sync, and the inbox loop that applies before it acknowledges |
| `Hub.dfy` | the local hub: send, poll, ack |
| `RoundTrip.dfy` | dispatch, execution, signature, verdict, end to end |
| `Protocol.dfy`, `ProtocolSafety.dfy`, `ProtocolDelivery.dfy`, `ProtocolReach.dfy` | buyer, hub and seller composed: safety, delivery, and reachability |
| `RateLimiter.dfy` | the sliding window |
| `PlatformRequests.dfy`, `PlatformHistory.dfy` | request binding, tokens, delivery meta and the capped event log |
| `PlatformAccounts.dfy`, `PlatformOwnership.dfy` | users, keys, sellers, catalog |
| `EnvFile.dfy` | the env file printer and parser |

Some assumptions are named wherever a theorem needs them. A *careful* run is one in which the seller accepts no envelope
whose request was executed or still may be (`SellerOnce.CarefulRun`), a *guarded* run one in which every inbox insert,
accepted or rejected, finds its request not indexed (`SellerMachine.GuardedRun`). Guarded runs are careful
(`SellerOnce.GuardedMeansCareful`), and runs in which no two entry points handle the same request at once are guarded
(`SellerMachine.NoOverlapMeansGuarded`). An *admitted* run is one in which nobody forges the seller's signature: a result
that verifies under the seller's key has the bytes of one the seller signed, wherever it comes from
(`ProtocolSafety.IsAdmitted`). A *reliable* run has no crash, new message and request ids, and sends that reach their
queue (`ProtocolDelivery.IsReliable`). `ProtocolReach.EveryOutcomeIsReachable` shows that all of them can be met
together.

Where the code does not keep what one might expect of it, the model keeps the code and says exactly when it does:

- A request is executed at most once in every careful run, and the careful runs are exactly those that no careful
  continuation, of them or of a beginning of them, takes to a second execution (`SellerGuarantees.ExecutedAtMostOnce`,
  `SellerOverlap.AtMostOnceIff`). The inbox and a posted task that overlap are not careful
  (`SellerOverlap.OverlapExecutesTwice`).
- Work is conserved in a state exactly when it holds no restored queue that has seen no enqueue; right after a restart,
  exactly when the snapshot's queue was empty (`SellerGuarantees.WorkConservationIff`,
  `SellerGuarantees.RestartConservesIff`).
- A pull from another receiver's queue acknowledges in the adapter's own queue
  (`SellerInbox.ForeignPullDrainsNothing`).
- An inbox pass leaves the queue as it is exactly when nothing it polls is recognised, which lasts until a request one
  of those messages names is created (`BuyerInbox.PassStuckIff`). A result whose check throws, at the head of the queue,
  ends every pass before anything is acknowledged while its request stays active (`BuyerInbox.ThrowsAgainIff`,
  `BuyerInbox.ThrowingHeadBlocks`).
- SUCCEEDED for a request pinned to the seller's key warrants an execution exactly when the package carries a signature:
  the check lets an unsigned package pass (`ProtocolSafety.WarrantsIffSigned`, `ProtocolSafety.UnsignedSucceeds`).
- The check of the artifacts throws exactly when there are artifacts and the attachments are no array, or the first
  artifact that does not pass is null, meets a null attachment before its own, or is matched with an attachment whose
  size or content cannot be converted (`BuyerMachine.ThrowsIff`). It never throws for a posted result, which has no
  attachments (`BuyerMachine.PostedConcludes`).
- Outcomes are final exactly in the runs in which no posted result comes late, that is, is applied to a request that
  another result has ended since the route's test; `null` for a request without a package is harmless. Verdicts match the
  timeline exactly in those in which no posted object comes late for a request that has its verdict
  (`BuyerMachine.OutcomesAreFinalIff`, `BuyerMachine.VerdictsMatchTimelineIff`, `BuyerMachine.LateResultOverwrites`).
- Only verdicts come with a package, and only an unparsable body is a verdict without one, exactly when no result from
  the inbox makes the check of its artifacts throw after context and signature have passed, no object is posted late
  where the body was unparsable, and no `null` is posted late where there is a package
  (`BuyerMachine.PackagesMatchVerdictsIff`, `BuyerMachine.NullArtifactLeavesPackage`).
- The full history of a request repeats an acknowledgement or an outcome exactly when the first one had been evicted
  from the capped log (`PlatformHistory.HistoryRepeatsIff`, `PlatformHistory.EvictionRepeatsAck`), and a review test
  under an existing id rebinds it (`PlatformHistory.ReviewTestKeepsBindingIff`).
- A submission after the seller's key was revoked hands out a key the seller record does not get
  (`PlatformOwnership.SubmittedKeyIsCurrentIff`).
- A quoted env value with white space at its edges does not survive the next update (`EnvFile.QuotedValueStableIff`).

## Model

| member | source | states |
|---|---|---|
| Contracts.Canonicalize | packages/contracts/src/index.js:200-223 | the loop yields an entry for exactly those of the twelve named keys that the package has, with its values, in list order; what is written of it is the signed object |
| Contracts.SignedBytesAgree | packages/contracts/src/index.js:200-223 | two packages have the same signed bytes if and only if they agree on each of the twelve named properties, output among them, an undefined value counting as an absent one |
| Contracts.ExtraKeysUnsigned | packages/contracts/src/index.js:200-223 | properties outside the list, such as the signature fields, do not change the signed bytes |
| Contracts.LawsCanHold | packages/seller-runtime-core/src/index.js:268-277 | some host meets all the laws that are assumed of signing, hashing and base64 |
| SellerResult.FinishIsSigned | packages/seller-runtime-core/src/index.js:268-277 | every finished package carries a signature over exactly the bytes a reader recomputes from it |
| SellerResult.OkPackageMeansOkExecution | packages/seller-runtime-core/src/index.js:166-266 | a package says "ok" if and only if the executor returned an object with status "ok" whose artifacts fit the limit |
| ResultContents.FinishTells | packages/seller-runtime-core/src/index.js:139-266 | for every outcome: the finished package reports the executor's own output, or null if it has none, or the code, message and retryable of the error that the outcome calls for, and in either case the schema flag and usage, with the defaults where the executor left them out |
| ResultContents.RejectionTells | packages/seller-runtime-core/src/index.js:775-799 | the package of a task that was turned away is a signed error with the refusal's code and message |
| ResultContents.FinishIdentifies | packages/seller-runtime-core/src/index.js:112-137 | the package names its task's request, seller, subagent and verification, when it was accepted and finished, and the key that signed it |
| ResultContents.FinishCarries | packages/seller-runtime-core/src/index.js:201-246 | an ok execution that fits the limit sends every artifact with its name, type, size, digest and content, and the package declares each of them without its content |
| SellerStore.InsertShape | packages/seller-runtime-core/src/index.js:684-694 | the new task is inserted after every task with a smaller priority number, or an equal one and an enqueued_at that is not later, before all others, and none of those is moved |
| SellerStore.PushThenSort | packages/seller-runtime-core/src/index.js:681-694 | pushing onto a sorted queue and sorting it is ordered insertion |
| SellerStore.StrictOrderIsUnique | packages/seller-runtime-core/src/index.js:684-694 | only one permutation meets the specification of the stable sort |
| SellerStore.EnqueueIsOrderedInsertion | packages/seller-runtime-core/src/index.js:681-694 | for every engine: a result meets the specification of the stable sort if and only if it is the ordered insertion, and then it is ordered by priority number, then by enqueued_at, and the new task is last among its equals |
| SellerStore.ScheduleGrowsActive | packages/seller-runtime-core/src/index.js:648-674 | the scheduling loop appends exactly the tasks it starts to the active list |
| SellerStore.ScheduleFillsWorkers | packages/seller-runtime-core/src/index.js:648-674 | after the loop the queue is empty or all workers are busy, unknown ids included |
| SellerRuntime.Entries | packages/seller-runtime-core/src/index.js:572-576 | listing a map's entries and setting them again gives the map back, one entry per key |
| SellerRuntime.SellerState.RememberTask | packages/seller-runtime-core/src/index.js:614-617 | both maps get the task, nothing else changes, and looking its request up finds it |
| SellerRuntime.SellerState.EnqueueTask | packages/seller-runtime-core/src/index.js:676-694 | the new state is the enqueue specification; afterwards of any two waiting tasks the first has a smaller priority number, or an equal one and an enqueued_at that is not later, and the new task comes after its equals |
| SellerRuntime.SellerState.ScheduleProcessQueue | packages/seller-runtime-core/src/index.js:648-674 | the loop terminates, leaves the specified state, and leaves no worker idle while a task waits |
| SellerRuntime.SellerState.FinalizeTask | packages/seller-runtime-core/src/index.js:493-536 | the task is COMPLETED with a package that tells the outcome of its execution (the executor's output and usage, or the error's code, message and retryable), names its task, and is signed over the bytes a reader recomputes; no other task changes |
| SellerRuntime.SellerState.ReleaseTask | packages/seller-runtime-core/src/index.js:641-642 | the filter loop keeps exactly the other tasks on the active list, in their order |
| SellerRuntime.SellerState.Serialize | packages/seller-runtime-core/src/index.js:572-583 | the snapshot denotes the whole state |
| SellerRuntime.SellerState.Hydrate | packages/seller-runtime-core/src/index.js:585-607 | the state becomes the snapshot's, with an empty active list and at least one worker, whatever the snapshot says |
| SellerRuntime.SaveThenRestart | packages/seller-runtime-core/src/index.js:572-607 | serialize then hydrate keeps everything but the active list |
| SellerMachine.RunKeepsInv | packages/seller-runtime-core/src/index.js:493-817 | the invariant of the seller holds in every state of every guarded run, crashes included |
| SellerMachine.NoOverlapMeansGuarded | packages/seller-runtime-core/src/index.js:735-816 | if no two entry points handle the same request at once, every insert finds its request not indexed |
| SellerGuarantees.ExecutedAtMostOnce | packages/seller-runtime-core/src/index.js:572-758 | in every careful run, over any number of crashes and redeliveries, the executor is called at most once per request |
| SellerGuarantees.SnapshotBeforeExecution | packages/seller-runtime-core/src/index.js:623-646 | in a careful run, when the executor is called, the snapshot on disk has the request indexed and out of the queue, and it was never executed before |
| SellerGuarantees.ReachableStates | packages/seller-runtime-core/src/index.js:493-698 | queue and active list are duplicate-free and disjoint, workers are bounded, QUEUED means queued, RUNNING means active, deferred or interrupted by a crash, COMPLETED means there is a result, both indexes agree |
| SellerGuarantees.RunningMeansActiveOrDeferred | packages/seller-runtime-core/src/index.js:623-646 | without crashes only active and deferred tasks are RUNNING |
| SellerGuarantees.StartedIsLeast | packages/seller-runtime-core/src/index.js:648-694 | in every reachable state a started task has, against each task that waits, a smaller priority number, or an equal one and an earlier enqueued_at, or both equal and an earlier arrival |
| SellerGuarantees.WorkConservation | packages/seller-runtime-core/src/index.js:641-697 | without crashes, a waiting task and a free worker mean that some continuation still owes a scheduling call |
| SellerGuarantees.WorkConservationIff | packages/seller-runtime-core/src/index.js:600-697 | over all guarded runs, crashes included: a waiting task and a free worker have an owed scheduling call if and only if the state does not hold a restored queue that has seen no enqueue since |
| SellerGuarantees.RestartConservesIff | packages/seller-runtime-core/src/index.js:585-607 | right after a restart work is conserved if and only if the snapshot's queue was empty |
| SellerGuarantees.IdleMeansDrained | packages/seller-runtime-core/src/index.js:641-697 | when no run and no owed call is left, the queue is empty |
| SellerGuarantees.RestoredQueueWaits | packages/seller-runtime-core/src/index.js:600-601 | a run in which a restart leaves a task waiting with all workers free and nobody to schedule it |
| SellerGuarantees.InsertKeepsAgreementIff | packages/seller-runtime-core/src/index.js:676-698 | inserting a fresh task keeps tasks and requestIndex in agreement if and only if its request is not indexed yet |
| SellerOverlap.OverlapExecutesTwice | packages/seller-runtime-core/src/index.js:735-816 | a run without a crash in which the inbox and a posted task overlap on one request and both execute it |
| SellerOverlap.CarelessExecutesTwice | packages/seller-runtime-core/src/index.js:735-816 | accepting an envelope whose request was executed or still may be can be carried on, without another accept, to a second execution |
| SellerOverlap.AtMostOnceIff | packages/seller-runtime-core/src/index.js:572-817 | the exact condition: a run is careful if and only if no careful continuation of it, or of any beginning of it, executes a request twice |
| SellerOnce.GuardedMeansCareful | packages/seller-runtime-core/src/index.js:735-816 | a run whose inserts, accepted or rejected, all find their request not indexed is careful |
| SellerGuarantees.ResultsAreFinal | packages/seller-runtime-core/src/index.js:493-523 | a stored result never changes as long as nothing throws after the executor and the process lives |
| SellerInbox.Inbox.HandleEnvelope | packages/seller-runtime-core/src/index.js:724-816 | the state and every queue after one envelope: skipped, deduplicated with a replay to the stored delivery address or else the sender, rejected, or enqueued and scheduled |
| SellerInbox.Inbox.ProcessSellerInbox | packages/seller-runtime-core/src/index.js:700-820 | the state and every queue after a whole pass, for any limit |
| SellerInbox.PassDrains | packages/seller-runtime-core/src/index.js:724-816 | a pass over the adapter's own queue removes exactly the polled envelopes addressed to this seller |
| SellerInbox.ForeignPullDrainsNothing | packages/seller-runtime-core/src/index.js:1080-1095 | a pass over any other queue removes nothing from it |
| SellerInbox.SecondPassChangesNothing | packages/seller-runtime-core/src/index.js:735-758 | redelivering all envelopes of a pass leaves the seller's state exactly as it is |
| SellerInbox.EnvelopeBecomesTask | packages/seller-runtime-core/src/index.js:724-817 | an envelope for this seller with an unknown request becomes a task with the envelope's request, parties, priority (5 if there is none), verification and return address; it waits or runs, or is completed with a signed error that says why it was turned away; any other envelope leaves the state as it is |
| SellerInbox.SentIff | packages/seller-runtime-core/src/index.js:735-758 | handling an envelope sends something if and only if its request has a result and there is somebody to send it to, namely the stored delivery address, or else this envelope's sender, or else the first one, or if it is turned away; the replay is the stored package with its attachments |
| SellerInbox.DispatchBecomesTask | packages/seller-runtime-core/src/index.js:380-412 | from the buyer's dispatch to the seller's task the request, the priority, the bound parties and the return address arrive |
| BuyerRequest.RequestRecord.EvaluateTimeouts | packages/buyer-controller-core/src/index.js:291-345 | the delivery timeout fires if and only if the request is SENT, unacknowledged, not told to wait, and at or past a non-zero deadline; the hard timeout if and only if that one does not, auto-finalize is on, and an active request not told to wait is at or past it; otherwise the user is asked if and only if it is asked by default, the soft timeout has passed and no decision was taken |
| BuyerRequest.RequestRecord.SetSentState | packages/buyer-controller-core/src/index.js:467-475 | SENT, error cleared, first sent time kept, an acknowledgement deadline ack_deadline_s seconds from now, one timeline entry |
| BuyerRequest.RequestRecord.ApplyResultPackage | packages/buyer-controller-core/src/index.js:520-585 | the package is stored, and the ladder of context, signature, artifacts, schema and status ends in a verdict, or throws in the check of the artifacts and leaves status and timeline; it ends in RESULT_CONTEXT_MISMATCH if and only if the request id, a version, or a bound seller, subagent or display code differs |
| BuyerRequest.RequestRecord.ApplyPlatformEvents | packages/buyer-controller-core/src/index.js:963-986 | the first ACKED event acknowledges an active request with its time and hint, and nothing changes the status of a terminal one |
| BuyerRequest.RequestRecord.DecideTimeout | packages/buyer-controller-core/src/index.js:1431-1460 | the decision is recorded and the question withdrawn; a terminal request keeps status and error, and stopping times out an active one with EXEC_TIMEOUT_MANUAL_STOP |
| BuyerMachine.VerdictsMatchTimeline | packages/buyer-controller-core/src/index.js:520-585 | in every run whose posted results come in time, SUCCEEDED, FAILED and UNVERIFIED hold exactly when the timeline has exactly one verdict, the same one; otherwise it has none |
| BuyerMachine.VerdictsMatchTimelineIff | packages/buyer-controller-core/src/index.js:1383-1410 | they do so all along a run if and only if no posted object comes late for a request that has its verdict |
| BuyerMachine.OutcomesAreFinalIff | packages/buyer-controller-core/src/index.js:1383-1410 | all along a run terminal requests keep status, verdicts and package if and only if no posted result comes late, `null` for a request without a package apart |
| BuyerMachine.VerdictsAreFinal | packages/buyer-controller-core/src/index.js:1294-1460 | across all routes and loops of an undisturbed run a terminal status and its package never change |
| BuyerMachine.TimelyVerdictsAreFinal | packages/buyer-controller-core/src/index.js:1294-1460 | in particular when every posted result is applied while its request is active |
| BuyerMachine.ResultReadIsStable | packages/buyer-controller-core/src/index.js:1166-1183 | in an undisturbed run, once the result reads as available it returns the same package forever |
| BuyerMachine.PostedIsReadable | packages/buyer-controller-core/src/index.js:1166-1183 | a result posted to an active request can be read at once, whatever its verdict, and nothing can before |
| BuyerMachine.TerminalNeverReopens | packages/buyer-controller-core/src/index.js:1383-1410 | even with a late posted result a terminal request never becomes active |
| BuyerMachine.LateResultOverwrites | packages/buyer-controller-core/src/index.js:1397-1403 | a run in which two results are posted at once, the later one turning the success into a failure, with two verdicts in the timeline |
| BuyerMachine.PackagesMatchVerdictsIff | packages/buyer-controller-core/src/index.js:520-585 | all along a run, late results included, TIMED_OUT has no package, and a verdict lacks one exactly when the body was not JSON, if and only if no inbox result makes the artifact check throw, no object is posted late where the body was not JSON, and no `null` late where there is a package |
| BuyerMachine.ThrowsIff | packages/buyer-controller-core/src/index.js:434-460 | the check of the artifact bindings throws if and only if there are artifacts and the attachments are no array, or the first artifact that does not pass breaks the search for its attachment or has a size or content that cannot be converted |
| BuyerMachine.PostedConcludes | packages/buyer-controller-core/src/index.js:434-460 | without attachments, as for every posted result, the check never throws and there is always a verdict |
| BuyerMachine.NullArtifactLeavesPackage | packages/buyer-controller-core/src/index.js:434-460 | a run that ends with a timed-out request holding a package: an inbox result with one attachment and a null artifact made the check throw |
| BuyerMachine.AcknowledgedNeverDeliveryTimeout | packages/buyer-controller-core/src/index.js:303-316 | a request that was ever acknowledged never ends in DELIVERY_OR_ACCEPTANCE_TIMEOUT, re-dispatched or not |
| BuyerMachine.TimeoutsAreSound | packages/buyer-controller-core/src/index.js:291-345 | every TIMED_OUT request was stopped by its user, or evaluated past a deadline and not told to wait |
| BuyerMachine.PassSettlesEverything | packages/buyer-controller-core/src/index.js:747-754 | after a pass begun at t no earlier request is active past a hard timeout at or before t unless told to wait |
| BuyerVerdicts.MismatchIff | packages/buyer-controller-core/src/index.js:477-499 | a result is a context mismatch if and only if its request id differs, a string result_version is not "0.1.0", or a bound seller id, subagent id or display code differs |
| BuyerVerdicts.ArtifactPassesIff | packages/buyer-controller-core/src/index.js:440-457 | a declared artifact passes if and only if the first attachment of its name has its type, size and digest, as far as they are declared |
| BuyerVerdicts.VerdictIff | packages/buyer-controller-core/src/index.js:520-610 | each of the seven ends of the ladder, if and only if the package agrees with the request in its fields, is unsigned or verifies under the pinned key, has its artifacts attached as declared, has a valid schema, and says ok, up to the check that fails |
| BuyerVerdicts.ConcludedOnAgreement | packages/buyer-controller-core/src/index.js:520-610 | over every run: a SUCCEEDED or FAILED request became so on a package that agreed with it on request, version, and the seller, subagent and display code it was bound to, and has held no other package since |
| BuyerVerdicts.RoutesMoveIff | packages/buyer-controller-core/src/index.js:1294-1381 | mark-sent and ack move every active request and no other; only sending sets a deadline, and neither disturbs what the other recorded |
| BuyerVerdicts.PreparesIff | packages/buyer-controller-core/src/index.js:847-863 | preparing leaves a request as it was if and only if it comes with another key than the pinned one; otherwise it is bound as asked, and a pinned key stays |
| BuyerVerdicts.EvaluationIff | packages/buyer-controller-core/src/index.js:291-345 | evaluating an active request leaves DELIVERY_OR_ACCEPTANCE_TIMEOUT if and only if it was SENT, unacknowledged, not told to wait, and at or past a non-zero deadline, EXEC_TIMEOUT_HARD if and only if only the hard timeout applies, and needs_timeout_confirmation exactly when asked by default |
| BuyerVerdicts.PassLeavesNoneLate | packages/buyer-controller-core/src/index.js:301-316 | over runs: after a pass begun at t no earlier request is SENT and unacknowledged past a deadline at or before t unless told to wait, if whatever is sent meanwhile is given a later deadline |
| BuyerSync.GetEventsBatch | apps/platform-api/src/server.js:2047-2101 | the batch route answers one to a hundred non-empty ids in order, each exactly as the single route would, and refuses otherwise |
| BuyerSync.ApplyEventsIdempotent | packages/buyer-controller-core/src/index.js:963-986 | applying the same events again changes nothing |
| BuyerSync.AnswerMatchesSingle | packages/buyer-controller-core/src/index.js:719-724 | looking an id up in a batch answer, repeated ids included, gives what the single call gives |
| BuyerSync.EventsReadableIff | apps/platform-api/src/server.js:2019-2045 | the events of a request go to its own buyer, to the seller and subagent it is bound to, and to administrators, and to nobody else; each refusal has its own condition |
| BuyerSync.SyncEachSays | packages/buyer-controller-core/src/index.js:688-745 | a pass takes the events over if and only if the request is active, has a client, and that client may read them |
| BuyerSync.BuyerController.SyncBatchOneByOne | packages/buyer-controller-core/src/index.js:731-742 | the fallback loop leaves each request of the batch as syncing it alone does |
| BuyerSync.BuyerController.SyncBatch | packages/buyer-controller-core/src/index.js:714-743 | one batch, refused, interrupted half-way by a metric call or not, has the effect of syncing each request alone |
| BuyerSync.BuyerController.SyncGroup | packages/buyer-controller-core/src/index.js:710-745 | so do all batches of a client, for every batch size from 1 |
| BuyerSync.BuyerController.GroupActive | packages/buyer-controller-core/src/index.js:688-708 | the groups hold exactly the active requests that have a client, each under its own |
| BuyerSync.BuyerController.SyncActiveEvents | packages/buyer-controller-core/src/index.js:688-745 | the whole event half of a pass equals syncing each active request alone |
| BuyerSync.BuyerController.EvaluateAll | packages/buyer-controller-core/src/index.js:747-754 | every request is evaluated; none stays SENT and unacknowledged past a deadline, and with auto-finalize none active past a hard timeout, at or before the start, unless told to wait |
| Hub.LocalHub.Send | packages/transports/local/src/index.js:53-63 | the message is last in its target's queue; no other queue changes |
| Hub.LocalHub.Poll | packages/transports/local/src/index.js:65-70 | a prefix of at most `limit` messages, and no queue changes |
| Hub.LocalHub.Ack | packages/transports/local/src/index.js:72-80 | the first message with the id is gone, if there is one, which the answer says; no other queue changes |
| Hub.AckRemovesOne | packages/transports/local/src/index.js:72-80 | an ack removes one message at most and none with another id |
| Hub.AckKeepsUnique | packages/transports/local/src/index.js:72-80 | with unique ids the acknowledged id is gone and ids stay unique |
| BuyerInbox.Inbox.HandleMessage | packages/buyer-controller-core/src/index.js:645-679 | one message: applied first, acknowledged only if recognised and if neither the check nor the metric call in between throws; exactly when one of them does |
| BuyerInbox.Inbox.PollBuyerInbox | packages/buyer-controller-core/src/index.js:627-686 | a pass throws if and only if some polled message throws after its predecessors; either way the requests are those after the messages handled, and exactly the recognised ones among those it got through have left the queue |
| BuyerInbox.PassShortensIff | packages/buyer-controller-core/src/index.js:639-679 | a pass shortens the queue by min(10, length) if and only if everything it polled is recognised |
| BuyerInbox.PassStuckIff | packages/buyer-controller-core/src/index.js:659-666 | with the requests there are, a pass leaves the queue as it is if and only if nothing it polls is recognised |
| BuyerInbox.ThrowsAgainIff | packages/buyer-controller-core/src/index.js:434-460 | a result whose check throws does so again at every later pass if and only if its request is still active, its terms and binding being the same |
| BuyerInbox.MessageThrowsIff | packages/buyer-controller-core/src/index.js:627-686 | a message throws if and only if its request is active, its context and signature pass, and the check of its artifacts throws |
| BuyerInbox.RecognisedIff | packages/buyer-controller-core/src/index.js:645-679 | acknowledged are the results that name a known request and the unparsable bodies that come with a request id, and no other messages |
| BuyerInbox.ReceivedSays | packages/buyer-controller-core/src/index.js:645-679 | an active request gets the result with the attachments it was sent with, or becomes UNVERIFIED with RESULT_BODY_INVALID_JSON; every other request stays as it is |
| BuyerInbox.ThrowingHeadBlocks | packages/buyer-controller-core/src/index.js:627-686 | at the head of the queue it ends the pass with the queue as it was |
| BuyerInbox.AckedMeansTerminal | packages/buyer-controller-core/src/index.js:663-679 | whatever result a pass acknowledges, its request is terminal afterwards |
| RoundTrip.BindingsIff | packages/buyer-controller-core/src/index.js:434-460 | the bindings of a seller's own artifacts verify if and only if artifacts of one name have equal content |
| RoundTrip.SignatureVerifies | packages/buyer-controller-core/src/index.js:501-518 | a package signed by the pinned key always passes the signature check |
| RoundTrip.ContextIsMatched | packages/buyer-controller-core/src/index.js:477-499 | a package for a task made from the request's own envelope always matches its context |
| RoundTrip.VerdictIsOutcome | packages/seller-runtime-core/src/index.js:127-305 | end to end, for every execution: the buyer's verdict and error code are the ones its outcome calls for, the stored package tells that outcome, and on SUCCEEDED its output and usage are the executor's own |
| RoundTrip.ArtifactsArrive | packages/seller-runtime-core/src/index.js:279-305 | of an ok execution within the limit every artifact arrives as an attachment, in its place, with its name, type, size and content, and is declared in the package |
| ProtocolSafety.SignedPackage | packages/seller-runtime-core/src/index.js:493-523 | every signed package names its task's request and says ok exactly when the executor did |
| ProtocolSafety.SucceededMeansExecuted | packages/buyer-controller-core/src/index.js:627-686 | in every run with strangers who cannot forge, duplicates, replays, crashes, overlaps and failed sends: SUCCEEDED for a request pinned to the seller's key, with a signed package, means the executor was called for that request, returned ok at a step of the run, and the package holds that execution's output and agrees with the one signed for that task on each of the twelve signed properties, by name |
| ProtocolSafety.SucceededThroughOwnSeller | packages/buyer-controller-core/src/index.js:627-686 | when all results come from this seller, the same holds with no signer pinned, and the stored package is exactly the signed one, with the execution's output |
| ProtocolSafety.UnsignedSucceeds | packages/buyer-controller-core/src/index.js:501-518 | a run in which a stranger's unsigned package makes a pinned request SUCCEED though the executor was never called |
| ProtocolSafety.WarrantsIffSigned | packages/buyer-controller-core/src/index.js:501-518 | of the packages that make a pinned request succeed, exactly those with a signature warrant in every run that the executor was called for it |
| ProtocolDelivery.SucceededMeansExecutedOnce | packages/seller-runtime-core/src/index.js:623-758 | in a careful run such a request was executed exactly once |
| ProtocolReach.EveryOutcomeIsReachable | packages/buyer-controller-core/src/index.js:627-686 | for every outcome of an execution there is a run of buyer, hub and seller, admitted, reliable, guarded and without strangers, that ends with the verdict it calls for, adding just that verdict to the timeline |
| ProtocolDelivery.NoStrandedTask | packages/seller-runtime-core/src/index.js:719-817 | every dispatched request has its envelope in the seller's queue or its id in requestIndex |
| ProtocolDelivery.NoStrandedResult | packages/buyer-controller-core/src/index.js:638-679 | every finished task that replies to the buyer has a result in the buyer's queue or a terminal buyer request |
| ProtocolDelivery.AtRestAllTerminal | packages/transports/local/src/index.js:53-80 | once both queues are drained and nothing waits, runs or was deferred, every dispatched request is terminal |
| RateLimiter.Limiter.Allow | apps/platform-api/src/server.js:318-347 | the answer and the one bucket that changes, for a window of the configured windowMs, a minute if that is 0, at least a second; unlimited routes are always admitted and leave no trace |
| RateLimiter.NoWindowExceedsLimit | apps/platform-api/src/server.js:329-341 | over the full history no window of windowMs, wherever it starts, contains more than limit admissions |
| RateLimiter.RefusedIff | apps/platform-api/src/server.js:329-337 | a call is refused if and only if limit admissions lie in the window that ends with it |
| RateLimiter.NextCallAdmittedIff | apps/platform-api/src/server.js:331-337 | after a refusal the next call is admitted if and only if the oldest counted admission has left the window, which is what retryAfterMs, floored at a second, counts down to |
| RateLimiter.WaitingIsEnough | apps/platform-api/src/server.js:333-336 | a caller that waits retryAfterMs, with no other calls in between, is admitted |
| RateLimiter.KeysDiffer | apps/platform-api/src/server.js:328 | bucket keys are unambiguous for route keys without a colon |
| RateLimiter.BucketsAreIndependent | apps/platform-api/src/server.js:318-347 | whatever else is called, a bucket is what its own calls alone make of it |
| PlatformRequests.Registry.IssueTaskToken | apps/platform-api/src/server.js:1067-1117 | a token is issued if and only if all ids are given, the entry is visible, and the request, if known, is bound to nobody and nothing else; it carries exactly the binding its record then has, and a refusal changes nothing |
| PlatformRequests.Registry.IssueDeliveryMeta | apps/platform-api/src/server.js:1808-1887 | an answer is given if and only if the ids and the delivery are good, the entry is visible, the token, if there is one, names the same user, request, seller and subagent, and the request is known and bindable; its display code is the record's, kept if it had one; a refusal changes nothing |
| PlatformRequests.Registry.AckRequest | apps/platform-api/src/server.js:1890-1936 | accepted if and only if the caller is the named seller, with the named subagent among its own, and the request is known and not bound to another; the acknowledgement, with its time and hint, is then last in the log unless there was one, and a refusal changes nothing |
| PlatformRequests.Registry.AppendLifecycle | apps/platform-api/src/server.js:1938-2017 | accepted on the same condition; the outcome, with its time, is then last in the log unless this seller and subagent had reported it, whatever the cap, and a refusal changes nothing |
| PlatformRequests.Registry.StartReviewTest | apps/platform-api/src/server.js:2493-2515 | the record is rebound to the review buyer, seller, subagent and signer, and the token carries exactly that binding |
| PlatformHistory.CappedAgain | apps/platform-api/src/server.js:273-280 | capping after every push is capping the whole history once |
| PlatformHistory.BindingsArePermanent | apps/platform-api/src/server.js:1081-1099 | a stored request has buyer, seller and subagent bound, and they never change |
| PlatformHistory.TokensCarryTheBinding | apps/platform-api/src/server.js:1093-1102 | every token ever issued for a request carries exactly its binding |
| PlatformHistory.DisplayCodeIsStable | apps/platform-api/src/server.js:1265-1302 | all delivery-meta objects of a request show the same, non-empty display code |
| PlatformHistory.LogIsEndOfHistory | apps/platform-api/src/server.js:950-956 | the retained log is always the last min(n, limit) entries of the full history, a limit of 0 standing for the default of 5000 |
| PlatformHistory.RetainedAtMostOnce | apps/platform-api/src/server.js:1926-2009 | at most one seller ACKED, one COMPLETED and one FAILED event are retained, even after evictions |
| PlatformHistory.EvictionRepeatsAck | apps/platform-api/src/server.js:1926-1932 | a run, with a cap of one event, whose history holds two acknowledgements |
| PlatformHistory.ReportRepeatsIff | apps/platform-api/src/server.js:1926-2009 | in every reachable state: an accepted acknowledgement or outcome leaves the full history with no second one of its kind if and only if none had been evicted from the log |
| PlatformHistory.HistoryRepeatsIff | apps/platform-api/src/server.js:1926-2009 | over a whole run the history holds no second event of a kind if and only if each accepted report of that kind found none evicted |
| PlatformHistory.ReviewTestKeepsBindingIff | apps/platform-api/src/server.js:2493-2499 | a review test keeps an existing request's binding if and only if it was already bound that way |
| PlatformAccounts.Accounts.RegisterBuyerUser | apps/platform-api/src/server.js:506-528 | refused, with nothing changed, without a contact address; otherwise the new key resolves to the user, with the user's roles as scopes |
| PlatformAccounts.Accounts.AddUserRole | apps/platform-api/src/server.js:530-546 | the user and every one of its buyer keys have the role afterwards; no other record changes |
| PlatformAccounts.Accounts.RevokeApiKey | apps/platform-api/src/server.js:548-567 | exactly that key stops resolving, and its holder's reference to it is gone |
| PlatformAccounts.Accounts.RotateBuyerApiKey | apps/platform-api/src/server.js:569-589 | the user's new key resolves to it with its roles, and the old one no longer resolves |
| PlatformAccounts.Accounts.RotateSellerApiKey | apps/platform-api/src/server.js:591-613 | the seller's new key resolves to its owner and list, and the old one no longer resolves |
| PlatformAccounts.Accounts.SubmitCatalogSubagent | apps/platform-api/src/server.js:1304-1460 | accepted if and only if all fields are given, the entry is new or this seller's, and the seller is new, with a caller or open creation, or is managed by its owner or itself within its quota; a refusal changes nothing; an accepted subagent is in the catalog and on its seller's list, is not visible before review, and the key handed out resolves |
| PlatformAccounts.SubmitWrites | apps/platform-api/src/server.js:1359-1437 | an accepted submission changes one entry and one seller: a known seller keeps owner and key and is up for review again if and only if an address or its public key changes; a new one belongs to the submitting user, or else the named one, and is up for review |
| PlatformAccounts.Accounts.DecideSeller | apps/platform-api/src/server.js:2588-2696 | enabling what is not approved is refused; approving and enabling switch a seller on, rejecting and disabling off, only approving and rejecting change its review, and nothing becomes visible but by an approval or an enabling |
| PlatformAccounts.Accounts.DecideItem | apps/platform-api/src/server.js:2698-2806 | the same for a catalog entry, and no other entry becomes visible |
| PlatformOwnership.RunKeepsInv | apps/platform-api/src/server.js:506-613 | the invariant of the platform's records holds after any sequence of operations |
| PlatformOwnership.OwnershipIndex | apps/platform-api/src/server.js:1304-1456 | catalog entries and sellers' lists name each other exactly, lists are disjoint, duplicate-free and within quota, a seller's current key record carries the same list, enabled implies approved |
| PlatformOwnership.BuyerCredentials | apps/platform-api/src/server.js:506-589 | live buyer keys and users with a key correspond one to one, and scopes are roles as sets |
| PlatformOwnership.RetiredKeysStayRetired | apps/platform-api/src/server.js:548-589 | a key that stopped resolving, by rotation or revocation, never resolves again |
| PlatformOwnership.SubmittedKeyIsCurrentIff | apps/platform-api/src/server.js:1360-1437 | the key a submission hands out always resolves, and is the seller's current one if and only if that had not been revoked |
| PlatformOwnership.VisibleMeansApproved | apps/platform-api/src/server.js:376-394 | in every reachable state public visibility needs no more than both switches being on, and then entry and seller are approved |
| PlatformOwnership.BootstrappedOkIff | apps/platform-api/src/server.js:670-740 | the bootstrapped platform is consistent if and only if its two sellers differ in id, key and subagent, or are one seller with one subagent |
| EnvFile.ParseEnvText | packages/runtime-utils/src/index.js:147-163 | the loop yields the map of the assignments its lines make, later ones winning |
| EnvFile.ParsedIsGood | packages/runtime-utils/src/index.js:147-163 | whatever the text, parsed keys are non-empty, trimmed, free of '=' and line breaks and do not start with '#' |
| EnvFile.AssignmentReads | packages/runtime-utils/src/index.js:147-163 | a line assigns its value, without one pair of quotes, to its key, whatever white space surrounds key, separator and value |
| EnvFile.NothingReads | packages/runtime-utils/src/index.js:147-157 | a comment, a line without a separator and one without a key before it assign nothing |
| EnvFile.FormatParses | packages/runtime-utils/src/index.js:186-191 | printing any good keys with newline-free values and parsing gives those keys with each value trimmed and unquoted |
| EnvFile.RoundTripIff | packages/runtime-utils/src/index.js:186-191 | parsing what was printed gives the map back if and only if all its keys and values are good, in whatever order it was printed |
| EnvFile.QuotedValueStableIff | packages/runtime-utils/src/index.js:15-20 | a quoted value is read without its quotes, and survives the next printing if and only if it is good unquoted |
| EnvFile.File.UpdateEnvFile | packages/runtime-utils/src/index.js:193-211 | the result is the map update with nulls removed when asked, and reading the file back gives it if and only if everything in it is good |

## Left out

- HTTP routing, CORS, body parsing, fetch clients and error formatting; only the state step of each route is modelled.
- Email and relay transports, the SQLite and Postgres stores, and network failures other than a send or a metric call that throws.
- Executors and their adapters: an outcome is an arbitrary value, deferral or exception.
- Token signing and parsing, token expiry, introspection and guardrail rules: the token check and the guardrails are a refusal or none.
- Key generation, PEM handling and the rotation of signing keys; the pinned key of a request is a string.
- Metrics, audit and review telemetry, heartbeats, availability, admin listings, pagination and templates.
- Hub.LocalHub.Send: receiver names are compared as they are; parsing `local://` addresses (`resolveReceiver`) and the fallback targets of a message are left out.
- Task and request fields no decision depends on (payload, thread id, lease, delay, timestamps of timeline entries, `started_at`), and ISO timestamps: times are integer milliseconds, and `localeCompare` on them is integer order.
- Priority, worker count, poll limits and rate limits are integers; the per-call override of the worker count is assumed equal to the stored one.
- Envelopes without a request id, for which the seller would draw one, and envelopes in the seller's queue that are no task requests, which the code would treat as such.
- A task's route is its delivery address and the sender of its envelope; a `return_route` that a posted task sets apart from its `reply_to` is not kept apart.
- JSON values nested in a package hold no undefined; at the top level of the signed object an undefined value counts as absent.
- Task ids are new: a `POST /controller/tasks` that reuses an id of its own choosing is left out.
- A posted body that is neither an object nor `null` counts as an object without properties, JSON numbers are integers, and the display codes that the platform issues are strings.
- BuyerInbox.Inbox.PollBuyerInbox: the persist call at the end of a pass, which may throw, has no effect on requests or queue and is left out.
- SellerMachine.RunKeepsInv: a run of runQueuedTask is a sequence of steps of a state machine, not a method, because other activities interleave at its awaits; the stretches themselves are the methods of `SellerRuntime.SellerState`.
- SellerInbox.Inbox.ProcessSellerInbox: a pass without interleaving; interleaved handling is in `Protocol`.
- BuyerSync.BuyerController.SyncActiveEvents: the requests are values in a map that the method replaces, so aliasing of request objects is not captured; the platform does not change during the pass.
- BuyerMachine.AcknowledgedNeverDeliveryTimeout: platform ACKED events are assumed to be dated, as the platform dates them.
- ProtocolSafety.SucceededMeansExecuted: a `null` posted late for a request that has succeeded is left out, since it wipes out the package that the theorem is about.
- ProtocolDelivery.NoStrandedTask: runs without a crash, with new message and request ids.
- EnvFile.File.UpdateEnvFile: the file system is one optional text, and values are strings.
- PlatformOwnership.OwnershipIndex: a list is bounded by the quota or, when that is below one, by one, since a seller's first submission is not checked against it.
