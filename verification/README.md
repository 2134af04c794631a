# A model of the job queue, the GPU worker, sequence packing and the model pool

Hatchery serves many fine-tuning sessions from shared GPU workers. This project models, in Dafny,
the parts of it that carry state from one request to the next, and proves what holds over every run.

* **Job queue** (`MemoryQueueState`, `MemoryQueueInvariants`, `MemoryQueueRuns`, `MemoryQueueRetries`,
  `InMemoryJobQueue`, `SqliteQueueState`, `SqliteQueue`, `QueueRefinement`, `PinProtocol`). The in-memory
  queue spreads each job over several dictionaries; the invariant says that they agree, that every job is
  waiting once, or in flight, or finished, and that a session's job in flight followed by its deque is
  strictly increasing in submission order. On that rest in-order delivery, optimal selection, the retry
  bound, and a simulation between the in-memory queue and the SQLite row table, with the exact condition
  under which each call keeps the two together. Releasing expired leases and selecting a job are separate
  atomic steps, because the source takes the lock twice.
* **Worker** (`Names`, `WorkerState`, `WorkerInvariants`, `WorkerHandlers`, `NewSessions`, `PrivateSessions`,
  `WorkerRuns`, `WorkerGradients`, `WorkerLimits`, `AdapterAttach`, `LeftoverGradients`, `TrainerSwap`,
  `GPUWorker`). One live base model is shared by adapter and full-parameter sessions through stashing,
  restoring, eviction and reloading. The model has the names under which gradients are kept, which change when
  an adapter wraps a layer; the trainable flags, which change when an adapter is attached, selected or deleted;
  and the `.grad` fields of all parameters, which outlive the pass that filled them. Under stated guards, any
  interleaving of sessions leaves each of them as if it had been trained alone on a private copy: weights,
  gradients and counters. Each guard is a case in which the source breaks this; `WorkerLimits`, `AdapterAttach`
  and `LeftoverGradients` hold the exact conditions.
* **Witness runs** (`WitnessRuns`, `WitnessLimits`, `WitnessSharing`, `WitnessLeftovers`, `WitnessReloads`,
  `WitnessQueues`, `WitnessPins`): for each finding about the worker or the queue a run from the initial state that
  ends in it, and for the pin protocol one in which the pin decides.
* **Adapter cache** (`Cadence`, `AdapterCache`, `SmartLoRACache`): which session leaves a full cache.
* **Worker group** (`Lockstep`): rank 0 and its followers issue the same collectives in the same order.
* **Packing** (`FirstFit`, `Packing`, `PackSequences`, `PackingLoss`): the first-fit-decreasing bound,
  the round trip, document boundaries, and the loss over packs.
* **Model pool** (`ModelPoolState`, `ModelPoolLru`, `ModelPool`): two tiers are one LRU list.
* **Data-parallel batches** (`Batching`).

Objects that the source updates in place are classes (`InMemoryJobQueue`, `SQLiteJobQueue`, `GPUWorker`,
`SmartLoRACache`, `StepCadenceTracker`, `RewrapModelPool`, `TieredModelPool`); each method is proved equal
to a step function, and the lemmas are about runs of those steps. Time, randomness and numerical kernels
are parameters: every step takes its clock readings, and a `Network` supplies gradients and optimizer
steps as arbitrary functions of the weights they run on.

## Findings

Where the code does not do what its comments promise, the code is modelled, the exact condition is proved, and
a lemma shows a run or an input that fails. Condition and witness are named after each finding.

* Adding an adapter wraps layers in place, which renames their parameters to `.base_layer.`, and leaves the
  base frozen (`hatchery/core/worker.py:1408-1413`). Gradients are kept under live names
  (`hatchery/core/worker.py:1971-1980`) and are not renamed, and the trainable flags are set again only when
  the active session changes (`hatchery/core/worker.py:973-985`). So a full-parameter session that is active
  when another session's adapter is created, or reloaded by `load_weights`, loses its next step: the step is
  counted, the weights stay, the gradients are gone (`hatchery/core/worker.py:2346`, `:2388-2408`).
  `AttachUnnoticedIff`, `ReloadUnnoticedIff`; `AttachLosesStep`.
* `disable_adapter` enables the adapters again behind a full-parameter pass, and with that makes the current
  adapter trainable beside the base (`hatchery/core/worker.py:1006-1017`). A full-parameter step moves that
  adapter, another session's, with whatever the accumulator holds for it (`hatchery/core/worker.py:2388-2400`).
  `StepSparesIff`. Two things get there:
  * Zeros: every step keeps zeros for all trainable parameters (`hatchery/core/worker.py:2405-2408`), and weight
    decay or momentum turns them into a change at the next step. `StepLeavesZeros`; `StepsWearDown`. When the
    current adapter is evicted, another one is selected and suffers the same
    (`hatchery/core/worker.py:1028-1034`). `HeirIsWornDown`.
  * A neighbour's gradient: a pass drops the `.grad` fields of trainable parameters only
    (`hatchery/core/worker.py:1796-1799`), and activation freezes the adapters without dropping theirs
    (`hatchery/core/worker.py:995-998`), so the gradient of the adapter's own last pass is still there when the
    accumulation loop behind a full-parameter pass finds the adapter trainable
    (`hatchery/core/worker.py:1971-1980`). That step needs no weight decay to move it. The trainer has the same
    loop (`hatchery/core/trainer.py:912-946`). `PassTakesInIff`; `StepTakesGradient`.
* An adapter that becomes trainable beside the base, or ceases to be, also changes the number of parameters of
  the optimizer, whose state then does not fit and starts anew (`hatchery/core/worker.py:2363-2368`).
  `MomentsSurviveIff`.
* An ack of a job whose lease already ran out records a result but leaves the job in its deque, so the job
  is delivered again (`hatchery/core/backends/queue/memory.py:245-256`). The SQLite ack finishes the job
  instead, and stores `completed` whatever the status (`hatchery/core/backends/queue/sqlite.py:283-299`).
  The SQLite module claims the same invariants as the in-memory queue. It also stores empty metrics as none
  (`hatchery/core/backends/queue/sqlite.py:285`). `AckAgrees`; `AckedJobComesAgain`, `EmptyMetricsVanish`.
* SQLite has no affinity window: a fresh job that prefers one worker goes to any other
  (`hatchery/core/backends/queue/sqlite.py:204-281`). `PollAgrees`; `WindowDiffers`. Nor does it store the
  required context-parallel degree (`hatchery/core/backends/queue/sqlite.py:45-79`). `StoredWholeIff`.
* For a job that failed for the last time with an empty error SQLite answers "job failed"
  (`hatchery/core/backends/queue/sqlite.py:368`) and the in-memory queue the empty string. `NackAgrees`;
  `LastFailureDiffers`.
* A full cache may drop the very session that is being loaded
  (`hatchery/core/scheduler.py:128-135`, `hatchery/core/worker.py:1277`). For a full-parameter session the
  handler then trains on the pristine base and saves it over the session's weights. `PutDropsItselfIff`,
  `SelfEvictionResets`; `NewcomerIsDropped`, `SelfEvictionLosesStep`.
* Restoring weights with `strict=False` (`hatchery/core/worker.py:934`) lets an incomplete checkpoint take
  the missing parameters from whichever session ran before. `CompleteIff`; `IncompleteCheckpointBorrows`.
* The marker `fp_pristine_init` survives a reload and is saved again (`hatchery/core/worker.py:1186-1187`,
  `:1269`, `:1590`), so a session evicted before its first save and trained later reloads as pristine.
  `ReloadRestoresIff`; `MarkerLosesStep`.
* `load_weights` clears gradients in memory but leaves the gradient file when the accumulator is empty, and
  restored gradients outside a cycle are saved as nothing (`hatchery/core/worker.py:1538-1558`, `:2510-2535`).
  `LoadKeepsGradientsIff`; `ClearedGradientsReturn`.
* After an optimizer step the accumulator holds zeros, but a reload makes it empty, and an empty accumulator
  raises (`hatchery/core/worker.py:2348`): a second step in a row depends on whether the session was evicted.
  The zeros also keep parameters in the next cycle that its passes do not reach. `StepAgreesAfterReloadIff`,
  `ReloadChangesUnreachedIff`; `StepTooMany`.
* The standalone trainer restores the pristine base when it attaches an adapter but keeps the active session
  (`hatchery/core/trainer.py:598-599`), so an active full-parameter session goes on from the pristine base
  and the next switch stashes that. `AttachKeepsIff`; `TrainerAttachResets`.
* Reloads do not pass the one-full-parameter-session gate (`hatchery/core/worker.py:1316-1342`).
  `ReloadPassesGateIff`; `TwoResidents`.
* The standalone trainer divides by the number of targets of each pack without a floor, so its loss is a
  number exactly when every pack has a target (`hatchery/core/trainer.py:905-939`). `TrainerLoss`;
  `LoneTokenHasNoLoss`.
* Adapters go by session ids with underscores for dashes (`hatchery/core/worker.py:868-870`), so two ids that
  differ only there share an adapter. The gateway's ids have no underscores. `SharedNameIff`; `DashedIdsDiffer`.

## Model

| member | source | states |
|---|---|---|
| MemoryQueueRuns.ReachableIsGood | hatchery/core/backends/queue/memory.py:70-100 | in every run, late acks and expiries included, the lease, session and pending indexes describe the same jobs, at most one per session, and every submitted job is waiting once in its own session, or in flight, or has a result; a set event implies a stored result |
| MemoryQueueInvariants.EnqueueKeepsInv | hatchery/core/backends/queue/memory.py:110-117 | a job with a fresh id joins the end of its session's line and nothing else moves |
| MemoryQueueInvariants.RequeueExpiredKeepsInv | hatchery/core/backends/queue/memory.py:119-145 | all expired leases return to the front of their deques without breaking the order or losing a job |
| MemoryQueueInvariants.DeliverKeepsInv | hatchery/core/backends/queue/memory.py:230-243 | taking the chosen head into flight keeps the invariant |
| MemoryQueueInvariants.AckKeepsInv | hatchery/core/backends/queue/memory.py:245-256 | so does any ack, of a job in flight, waiting again or unknown |
| MemoryQueueInvariants.NackKeepsInv | hatchery/core/backends/queue/memory.py:258-283 | so does any nack, whether the job is retried at the front or dead-lettered |
| MemoryQueueRuns.SelectionIsOptimal | hatchery/core/backends/queue/memory.py:169-228 | a poll is empty exactly when no session is eligible; otherwise it picks an eligible head that comes before every other one |
| MemoryQueueRuns.PollIsEmptyIff | hatchery/core/backends/queue/memory.py:169-221 | a poll is empty exactly when every session has a job in flight, nothing waiting, or a head that may not go: a model the worker lacks, a standing pin of another worker, or less than two seconds of age with another preferred worker |
| MemoryQueueRuns.HighestPriorityFirst | hatchery/core/backends/queue/memory.py:222-231 | against every eligible head the job picked has at least its priority; at equal priority it is the worker's own if the other is; and then it was submitted no later |
| MemoryQueueRuns.BestIsUnique | hatchery/core/backends/queue/memory.py:222-228 | no second head meets the description of the one that is picked |
| MemoryQueueRuns.DeliveryIsInOrder | hatchery/core/backends/queue/memory.py:230-243 | when a job is delivered, every earlier job of its session already has a result, whatever the priorities |
| MemoryQueueRuns.DeliveryIsExclusive | hatchery/core/backends/queue/memory.py:173-177 | a session with a job in flight is not served, and a delivered job was not in flight |
| MemoryQueueRuns.LineIsFifo | hatchery/core/backends/queue/memory.py:110-145 | a step appends to a session's line, stamped with the time unless the caller gave one, or removes its head when the job in flight finishes, or leaves it alone; expiry and retry do not reorder it |
| MemoryQueueRetries.CountIsBalanced | hatchery/core/backends/queue/memory.py:245-283 | over any run the deliveries, expiries, failures and acks of one job balance with its attempts and its present state |
| MemoryQueueRetries.DeliveriesAreBounded | hatchery/core/backends/queue/memory.py:258-283 | a job is delivered at most three times plus once per expiry and twice per late ack, is acked in flight at most once, and every other ack of it in the run is a late one |
| MemoryQueueRetries.DeadLettersStayDead | hatchery/core/backends/queue/memory.py:266-279 | a dead-lettered job failed three times (exactly, without late acks), was never acked in flight, and is never delivered again |
| InMemoryJobQueues.InMemoryJobQueue.Enqueue | hatchery/core/backends/queue/memory.py:110-117 | the dictionaries change as the step function says and stay valid |
| InMemoryJobQueues.InMemoryJobQueue.RequeueExpired | hatchery/core/backends/queue/memory.py:119-145 | the loop over expired leases, in whatever order, releases exactly the expired ones |
| InMemoryJobQueues.InMemoryJobQueue.Dequeue | hatchery/core/backends/queue/memory.py:156-243 | the job returned and the new state are those of release followed by delivery |
| InMemoryJobQueues.InMemoryJobQueue.CollectCandidates | hatchery/core/backends/queue/memory.py:169-221 | the scan finds exactly the heads that may be served |
| InMemoryJobQueues.InMemoryJobQueue.FirstByKey | hatchery/core/backends/queue/memory.py:222-228 | the job returned has the highest priority, then is the worker's own if any is, then has the least submission number |
| InMemoryJobQueues.InMemoryJobQueue.Ack | hatchery/core/backends/queue/memory.py:245-256 | new state of an ack, leased or not |
| InMemoryJobQueues.InMemoryJobQueue.Nack | hatchery/core/backends/queue/memory.py:258-283 | new state of a nack: retry at the front, or dead letter with a failed result |
| InMemoryJobQueues.InMemoryJobQueue.StartWaiting | hatchery/core/backends/queue/memory.py:285-301 | the stored result if there is one, else an unset event that an ack will set |
| InMemoryJobQueues.InMemoryJobQueue.GetQueueDepth | hatchery/core/backends/queue/memory.py:303-326 | the number of submitted, unfinished jobs that pass the filter |
| InMemoryJobQueues.AllCounted | hatchery/core/backends/queue/memory.py:303-326 | waiting jobs and jobs in flight are disjoint and together are all unfinished jobs |
| SqliteQueues.QueryIsComplete | hatchery/core/backends/queue/sqlite.py:204-281 | the query returns no row exactly when none matches its WHERE clause |
| SqliteQueues.MatchesIff | hatchery/core/backends/queue/sqlite.py:204-281 | a row matches exactly when it is queued, every other unfinished row of its session is queued with a greater number, no other worker has pinned the session, and the worker serves its model |
| SqliteQueues.HighestPriorityFirst | hatchery/core/backends/queue/sqlite.py:250-257 | against every matching row the one returned has at least its priority; at equal priority it is the worker's own if the other is; and then its number is no greater |
| SqliteQueues.FirstIsUnique | hatchery/core/backends/queue/sqlite.py:204-281 | no second row meets the description of the one returned |
| SqliteQueues.DeliveryIsInOrder | hatchery/core/backends/queue/sqlite.py:204-281 | a delivered row has no earlier queued or leased row in its session |
| SqliteQueues.DequeueKeepsInv | hatchery/core/backends/queue/sqlite.py:204-281 | distinct sequence numbers and at most one leased row per session survive a dequeue |
| SqliteQueues.NackKeepsInv | hatchery/core/backends/queue/sqlite.py:301-344 | and a nack |
| SqliteQueues.SQLiteJobQueue.Dequeue | hatchery/core/backends/queue/sqlite.py:204-281 | housekeeping, selection and assignment as one transaction on the rows |
| SqliteQueues.SQLiteJobQueue.Ack | hatchery/core/backends/queue/sqlite.py:283-299 | the row becomes completed whatever the status |
| SqliteQueues.SQLiteJobQueue.Nack | hatchery/core/backends/queue/sqlite.py:301-344 | the row is queued again with one more attempt, or dead |
| QueueRefinement.SelectionsAgree | hatchery/core/backends/queue/sqlite.py:204-281 | in matching states both queues pick the same job, unless the row picked is reserved for another worker |
| QueueRefinement.PollAgrees | hatchery/core/backends/queue/memory.py:156-243 | a poll is answered alike exactly when the row picked is not in another worker's affinity window, and then the states stay matched |
| QueueRefinement.AckAgrees | hatchery/core/backends/queue/sqlite.py:283-299 | an ack keeps the states matched exactly when its job is not waiting to be retried and the result is a plain success, without an error and without an empty dictionary of metrics |
| QueueRefinement.NackAgrees | hatchery/core/backends/queue/sqlite.py:301-344 | a nack keeps the states matched exactly when it is not a last failure with an empty error |
| QueueRefinement.PinsAgree | hatchery/core/backends/queue/sqlite.py:164-189 | setting and clearing pins keep them matched |
| QueueRefinement.AgreeableIsExact | hatchery/core/backends/queue/sqlite.py:136-344 | in matching states a call is answered alike and leaves the states matched exactly when it is within those conditions, pin calls and fresh submissions always |
| QueueRefinement.RunsAgree | hatchery/core/backends/queue/memory.py:156-283 | after every run of calls within those conditions both queues satisfy their invariants and match |
| QueueRefinement.SameAnswers | hatchery/core/backends/queue/memory.py:156-243 | after such a run the next poll is answered alike exactly when the job is not reserved |
| QueueRefinement.SameResults | hatchery/core/backends/queue/sqlite.py:346-376 | after such a run a job is finished in both queues or in neither, and a finished job has the same result in both, metrics and the text of a failure included |
| QueueRefinement.StoredWholeIff | hatchery/core/backends/queue/sqlite.py:390-410 | a row read back is the job that was stored exactly when the job asked for context-parallel degree one |
| WitnessQueues.AckedJobComesAgain | hatchery/core/backends/queue/memory.py:245-256 | a run of four steps after which a job has a result and is handed out by the next poll |
| WitnessQueues.WindowDiffers | hatchery/core/backends/queue/sqlite.py:204-281 | one job that SQLite hands at once to a worker the job does not prefer, and the in-memory queue does not |
| WitnessQueues.LastFailureDiffers | hatchery/core/backends/queue/sqlite.py:364-369 | a run of agreeing calls after which one more nack leaves the two queues with different errors |
| WitnessQueues.EmptyMetricsVanish | hatchery/core/backends/queue/sqlite.py:283-299 | a run after which an ack with empty metrics leaves empty metrics in one queue and none in the other |
| PinProtocol.ReachableIsSafe | hatchery/core/worker.py:691-700 | with several workers, crashes included, the pin of a session that has gradients on a worker stands whenever the session is not in that worker's hands |
| PinProtocol.SessionStaysWithItsGradients | hatchery/core/worker.py:740-760 | from the ack of an accumulating job to the pin clear of an optimizer step, every job of the session goes to the worker that holds its gradients |
| PinProtocol.GradientsStayPut | hatchery/core/worker.py:694-701 | in terms of the actions alone: after the ack of a `forward_backward` or `forward_custom_step2` by a worker, and with no pin update for an `optim_step` of the session since, that worker is the only one to get a job of the session |
| PinProtocol.PinFollowsOperation | hatchery/core/worker.py:725-748 | the two accumulating operations pin, `optim_step` unpins, no other operation touches the pins |
| PinProtocol.WorkersMayFail | hatchery/core/worker.py:660-701 | a crash, an expiry, a failed ack or a nack may come at any point, and reaches the queue as that |
| PinProtocol.AckFirstWouldLeak | hatchery/core/worker.py:694-701 | with the ack before the pin another worker could be served in between |
| WitnessPins.PinDecides | hatchery/core/worker.py:725-748 | a run after which the pin keeps a job from one worker and lets another have it |
| WorkerRuns.RunsArePrivate | hatchery/core/worker.py:948-1050 | after any interleaving within the guards of `Legal`, every session is what its own jobs alone make of a private copy: weights, counters, and the gradients its optimizer would find for its own parameters; the guards are listed under Left out |
| WorkerRuns.StepIsPrivate | hatchery/core/worker.py:961-993 | within the guards every handler is one private step of its session and changes no other session, evicted ones included; a pass needs no guard against gradients left at a neighbour's adapter, the step that would use them has one |
| WorkerRuns.LegalWithoutGuard | hatchery/core/worker.py:818-841 | reads, checkpoint saves and jobs for unknown sessions are within the guards whatever the state, the choice of a victim apart |
| WorkerRuns.NeighboursDoNotMatter | hatchery/core/worker.py:961-993 | two such runs with the same jobs of a session leave it in the same state |
| WorkerRuns.LegalJobsSucceed | hatchery/core/worker.py:1052-1076 | within the guards a job succeeds exactly when it creates a session, or its session exists (is resident, for a checkpoint save) and its batch, if it has one, is not empty |
| WorkerInvariants.ActivateKeeps | hatchery/core/worker.py:961-993 | after activation a full-parameter session faces its own weights, an adapter session the pristine base and its own adapter; a change of session leaves exactly the parameters of the session it turns to trainable; all stashes stay true |
| WorkerInvariants.EvictKeeps | hatchery/core/worker.py:1019-1050 | eviction leaves a clean base and the other sessions untouched, also when deleting the current adapter selects another one |
| WorkerInvariants.StashKeeps | hatchery/core/worker.py:948-959 | stashing records what each full-parameter session holds |
| WorkerInvariants.InsertedHeld | hatchery/core/worker.py:1344-1371 | attaching a session stages exactly the weights it was given, pristine for none |
| WorkerHandlers.ReloadRestoresIff | hatchery/core/worker.py:1109-1290 | eviction and reload give the same session back exactly when the initialization marker is gone or the weights never left the pristine base |
| WorkerHandlers.NeverStale | hatchery/core/worker.py:1078-1107 | on a single worker the resident copy is never behind its files |
| WorkerHandlers.NewerCopyIsOpened | hatchery/core/worker.py:1078-1107 | with files ahead of the resident copy, in steps or at equal steps in passes, the files are loaded, else the resident copy is kept |
| WorkerHandlers.LoadIsGood | hatchery/core/worker.py:1109-1290 | a reload, with whatever eviction it causes, changes no session's weights, counters or gradients |
| WorkerHandlers.SaveIsGood | hatchery/core/worker.py:1474-1642 | a save makes the files agree with the resident session and touches no other |
| PrivateSessions.ForwardBackwardIsPrivate | hatchery/core/worker.py:1971-1987 | with the trainable flags set for the session, the gradient added for its own parameters is the one at its own weights, in full, whatever earlier passes left behind |
| PrivateSessions.CollectedIsOwn | hatchery/core/worker.py:1971-1980 | the accumulation loop finds exactly that gradient and, for a full-parameter session, the gradients left at the current adapter if the adapter was not trainable before the pass |
| PrivateSessions.OptimStepIsPrivate | hatchery/core/worker.py:2335-2431 | with the flags set, the step is taken from the session's own weights and sum and resets the cycle, and no other session moves if the accumulator holds nothing for the adapter trainable beside the base, or only zeros with which the optimizer does nothing; WorkerGradients.StepUsesWholeCycle says what the sum is divided by |
| PrivateSessions.LoadWeightsIsPrivate | hatchery/core/worker.py:2475-2540 | a complete checkpoint replaces the session's weights, active or not |
| NewSessions.GateIsGood | hatchery/core/worker.py:1316-1342 | the gate admits exactly when no other resident full-parameter session has stepped, and changes no session either way |
| NewSessions.InitFullParamIsPrivate | hatchery/core/worker.py:1672-1699 | a new full-parameter session starts from the pristine base |
| NewSessions.InitLoraIsPrivate | hatchery/core/worker.py:1701-1730 | a new adapter session starts from its initial adapter; the others keep weights, counters and gradients if the adapter wraps no layer one of them has a gradient for |
| NewSessions.WideningKeepsIff | hatchery/core/worker.py:1408-1413 | wrapping layers leaves a session its gradients exactly when it is an adapter session, is between cycles, or none of the base layers is wrapped anew |
| NewSessions.GradientIsLost | hatchery/core/worker.py:2388-2394 | a gradient under a name that is taken away is not found again |
| WorkerGradients.AccumulatorIsCycle | hatchery/core/worker.py:1971-1987 | in legal runs what the accumulator holds for the session's own parameters is the sum of the gradients, at the present weights, of exactly the passes since the last step; the counters count those passes and their tokens |
| WorkerGradients.GradientsAreExact | hatchery/core/worker.py:1538-1558 | what the optimizer finds in the resident accumulator, and in the gradient file after an eviction, reads as that sum, so the empty file written between cycles loses nothing |
| WorkerGradients.StepUsesWholeCycle | hatchery/core/worker.py:2380-2394 | the step is taken on gradients that, times the cycle's tokens where the caller asks for that and there are several, are the sum over the cycle's passes, parameter by parameter |
| WorkerLimits.SelfEvictionResets | hatchery/core/worker.py:1257-1277 | if the cache drops the full-parameter session it loads, what is added to its gradient file is the gradient at the pristine base and what was left at the current adapter, and the saved weights survive exactly when they were pristine |
| WorkerLimits.CompleteIff | hatchery/core/worker.py:915-934 | a restored base is independent of what was live exactly when the checkpoint names every base parameter |
| WorkerLimits.IncompleteCheckpointLeaks | hatchery/core/worker.py:2497-2504 | a parameter missing from a checkpoint is taken from the session that was active before |
| WorkerLimits.MarkerOutlivesTraining | hatchery/core/worker.py:1186-1187 | a session reloaded under the marker, stepped from the pristine base and evicted again has pristine weights, whatever the step made of them |
| WorkerLimits.CleanAfterJob | hatchery/core/worker.py:1590-1607 | once the marker is gone no job of any session brings it back, so behind any such job the session can be evicted without losing its weights |
| WorkerLimits.FirstSaveSettles | hatchery/core/worker.py:1644-1668 | the first save of a session that was never reloaded removes the marker |
| WorkerLimits.LoadKeepsGradientsIff | hatchery/core/worker.py:2510-2535 | after `load_weights` the gradient file reads like the accumulator exactly when nothing was pending and nothing nonzero is restored between cycles |
| WorkerLimits.StepAgreesAfterReloadIff | hatchery/core/worker.py:2346-2349 | a step succeeds or raises alike before and after an eviction exactly when it raises before it just in case the gradient file is empty |
| WorkerLimits.StepAfterReloadRaises | hatchery/core/worker.py:2348-2349 | the failing side: a second step in a row goes through while the session is resident and raises after a reload of the same session |
| WorkerLimits.ReloadChangesUnreachedIff | hatchery/core/worker.py:2405-2408 | the zeros kept by a step and dropped by a reload make a difference to the next accumulator exactly when the next pass does not reach all of their parameters |
| WorkerLimits.InitLeavesOneFullParam | hatchery/core/worker.py:1316-1342 | a successful initialization leaves the new session as the only full-parameter session |
| WorkerLimits.ReloadPassesGateIff | hatchery/core/worker.py:1257-1277 | with one full-parameter session at most, a reload leaves one at most exactly when the session was resident, is an adapter session, is dropped again, or takes the place of the one there was |
| WorkerLimits.ReloadBypassesGate | hatchery/core/worker.py:1257-1258 | the failing side: a reload brings in a second full-parameter session, whatever the first one has done |
| AdapterAttach.AttachUnnoticedIff | hatchery/core/worker.py:1408-1425 | a new adapter leaves a full-parameter session as it was and ready to train exactly when that session is not active and has no gradient under a name that is taken away |
| AdapterAttach.ReloadUnnoticedIff | hatchery/core/worker.py:1257-1277 | `load_weights` of an evicted adapter session between cycles leaves every full-parameter session its state, and ready to train exactly when it is not active |
| AdapterAttach.FrozenPassAddsNothing | hatchery/core/worker.py:1971-1987 | a pass over a frozen base advances the counters and adds no gradient but what was left at another session's adapter, none if that adapter was trainable before the pass |
| AdapterAttach.FrozenStepDropsAll | hatchery/core/worker.py:2388-2412 | a step on a frozen base is counted and throws the accumulator away, with the weights unchanged |
| AdapterAttach.TurnRearms | hatchery/core/worker.py:973-1004 | once any other session has been active, a full-parameter session is ready to train again |
| AdapterAttach.StepSparesIff | hatchery/core/worker.py:2388-2400 | a full-parameter step leaves all other sessions alone under every optimizer exactly when no adapter is trainable beside the base or the accumulator holds nothing for it |
| AdapterAttach.HarmlessStepSpares | hatchery/core/worker.py:2388-2400 | nor does it change one if the accumulator holds only zeros for that adapter and the optimizer does nothing with zeros |
| AdapterAttach.MayStepIsExact | hatchery/core/worker.py:2388-2400 | the guard of the step in `Legal` holds for every network exactly when no network moves another session |
| AdapterAttach.StepLeavesZeros | hatchery/core/worker.py:2405-2408 | a step taken while an adapter is trainable leaves entries for all of its parameters in the accumulator, all zero, so the next step is not spared |
| AdapterAttach.MomentsSurviveIff | hatchery/core/worker.py:2363-2368 | the optimizer state saved by a full-parameter step fits the parameters of a later one exactly when the adapters trainable beside the base at the two steps, if any, have equally many parameters |
| LeftoverGradients.PassTakesInIff | hatchery/core/worker.py:1796-1799 | a full-parameter pass adds the gradient at the session's own weights and no more exactly when nothing is left at the current adapter, or the session is active and that adapter trainable already; otherwise it adds what is left there too |
| LeftoverGradients.PassIsTakenNext | hatchery/core/worker.py:1796-1799 | behind a pass of an adapter session that condition fails for every full-parameter session, unless another job comes between |
| LeftoverGradients.LeftoverIsLastPass | hatchery/core/worker.py:1971-1980 | in every legal run what is left at an adapter is the gradient of its session's last pass, at the session's present weights, and the session has not stepped since |
| LeftoverGradients.TakenInIsPending | hatchery/core/worker.py:1971-1980 | so in legal runs what a full-parameter pass takes in is the gradient of a pass whose own session still has to step with it |
| AdapterAttach.SharedNameIff | hatchery/core/worker.py:868-870 | two ids have one adapter name exactly when they differ in dashes for underscores at most |
| AdapterAttach.DashedIdsDiffer | hatchery/core/gateway.py:763 | ids without underscores have distinct adapter names |
| WitnessRuns.AttachLosesStep | hatchery/core/worker.py:1408-1425 | four jobs, with any targets, after which a step is counted, the gradient gone and the weights pristine, where the session alone would have moved |
| WitnessSharing.StepsWearDown | hatchery/core/worker.py:1006-1017 | six jobs after which an adapter that no job trained has lost half its weight |
| WitnessSharing.HeirIsWornDown | hatchery/core/worker.py:1028-1034 | a run in which the adapter worn down is the one selected when the current one was evicted |
| WitnessLeftovers.StepTakesGradient | hatchery/core/worker.py:1971-1980 | five jobs, the first four within the guards and private, after which a full-parameter session's first step has moved another session's adapter, with an optimizer that does nothing with zeros |
| WitnessLeftovers.OwnStepIsLegal | hatchery/core/worker.py:2335-2431 | a run within the guards that ends with an optimizer step on the session's own pass |
| WitnessLimits.MarkerLosesStep | hatchery/core/worker.py:1186-1187 | a run after which a session has stepped and reloads as pristine |
| WitnessReloads.StepTooMany | hatchery/core/worker.py:2348-2349 | two runs that differ in an eviction, after which the same step succeeds and raises |
| WitnessReloads.SelfEvictionLosesStep | hatchery/core/worker.py:1257-1277 | a run whose last pass overwrites the trained weights in the store with the pristine ones |
| WitnessReloads.TwoResidents | hatchery/core/worker.py:1316-1342 | a run that ends with two full-parameter sessions resident |
| WitnessReloads.IncompleteCheckpointBorrows | hatchery/core/worker.py:915-934 | a run in which an untrained session runs on another session's trained weights |
| WitnessReloads.ClearedGradientsReturn | hatchery/core/worker.py:2510-2535 | a run in which gradients cleared by `load_weights` are back after a reload |
| TrainerSwap.TrainerActivateKeeps | hatchery/core/trainer.py:377-410 | the trainer's activation, with its extra restores, is the worker's |
| TrainerSwap.AttachKeepsIff | hatchery/core/trainer.py:598-599 | attaching an adapter leaves all sessions alone exactly when no full-parameter session with trained weights is active |
| TrainerSwap.AttachLosesTraining | hatchery/core/trainer.py:598-599 | otherwise the next switch overwrites the stash with the pristine base |
| WitnessReloads.TrainerAttachResets | hatchery/core/trainer.py:598-599 | a run after which the trainer's attach puts a trained active session back on the pristine base |
| GPUWorkers.GPUWorker.ExecuteJob | hatchery/core/worker.py:818-841 | every job makes the step of the specification and returns or raises as it says; a legal one keeps the invariant and is private |
| GPUWorkers.GPUWorker.ActivateSession | hatchery/core/worker.py:961-993 | stash, restore, switch and flags in the order of the source |
| GPUWorkers.GPUWorker.SetGradForSession | hatchery/core/worker.py:995-1004 | the base is trainable for a full-parameter session, and only its adapter for another |
| GPUWorkers.GPUWorker.ExecContext | hatchery/core/worker.py:1006-1017 | behind a full-parameter pass the current adapter is trainable again |
| GPUWorkers.GPUWorker.DeleteAdapter | hatchery/core/worker.py:1028-1034 | deleting the current adapter selects the first remaining one and makes it trainable, whoever is active |
| GPUWorkers.GPUWorker.CaptureLiveBaseWeights | hatchery/core/worker.py:900-913 | whatever is wrapped, the snapshot is the live base under its unwrapped names |
| GPUWorkers.GPUWorker.LoadBaseIntoLive | hatchery/core/worker.py:915-934 | the loop that builds the payload, with `.base_layer.` put in for wrapped layers, overwrites exactly the named parameters |
| GPUWorkers.GPUWorker.SaveSessionToStore | hatchery/core/worker.py:1474-1642 | files written by a save, and the refreshed stash |
| GPUWorkers.GPUWorker.LoadSessionFromStore | hatchery/core/worker.py:1109-1290 | pristine fallback, attachment and caching of a reloaded session |
| GPUWorkers.GPUWorker.ClearGrads | hatchery/core/worker.py:1796-1799 | the `.grad` fields dropped are those of the trainable parameters and no others |
| GPUWorkers.GPUWorker.BackwardPass | hatchery/core/worker.py:1796-1966 | fields dropped, fields filled, and the flags behind the pass |
| GPUWorkers.GPUWorker.AccumulateOnCpu | hatchery/core/worker.py:1971-1980 | the loop over all parameters adds the `.grad` of every trainable one that has any, leftovers included, key by key |
| GPUWorkers.GPUWorker.EnforceFftCapacity | hatchery/core/worker.py:1316-1342 | the loop over incumbents is the gate |
| Cadence.AverageIsSpanOverGaps | hatchery/core/scheduler.py:43-64 | the average interval is the span of the window over its gaps, and a rate is known exactly when the span is positive |
| Cadence.WindowIsNewest | hatchery/core/scheduler.py:28-35 | recording keeps exactly the newest timestamps |
| Cadence.AverageOverRun | hatchery/core/scheduler.py:43-49 | over a whole run only the last timestamp and the one at the window's start matter |
| Cadence.ScoreIsRateOverWait | hatchery/core/scheduler.py:171-180 | the score is the rate divided by the wait for the next request, a hundredth of a second at least, and infinite exactly when the rate is unknown |
| Cadence.ScoreFromTimestamps | hatchery/core/scheduler.py:43-64 | with n requests, the next is due the average gap after the last one, and the score times the wait for it times the span is n - 1; there is a score exactly when the span is positive |
| Cadence.SoonerAndFasterStays | hatchery/core/scheduler.py:171-180 | a session that asks at least as often as another and is due no later does not score below it |
| Cadence.OverdueByRate | hatchery/core/scheduler.py:171-180 | sessions that are due already are ranked by rate alone |
| Cadence.StepCadenceTracker.AverageInterRequestInterval | hatchery/core/scheduler.py:43-49 | the two loops compute the average |
| AdapterCache.ReachableIsGood | hatchery/core/scheduler.py:120-169 | after any run the cache is within its slots and its order lists its keys once each |
| AdapterCache.OrderIsLastUse | hatchery/core/scheduler.py:120-135 | in every run the entries stand in the order of their last lookup or store |
| AdapterCache.EntriesAreLastStored | hatchery/core/scheduler.py:120-153 | in every run a lookup finds the state last stored or nothing, and nothing behind a drop |
| AdapterCache.PutEvictsOneVictim | hatchery/core/scheduler.py:128-135 | a store drops nothing, or on overflow exactly the first entry of lowest score |
| AdapterCache.VictimIsUnique | hatchery/core/scheduler.py:155-169 | there is one first entry that none scores below |
| AdapterCache.UnknownRatesGoLast | hatchery/core/scheduler.py:155-180 | a session of unknown rate is dropped only if all rates are unknown, and then it is the oldest |
| AdapterCache.PutDropsItselfIff | hatchery/core/scheduler.py:128-169 | a store drops the session it inserts exactly when the cache was full and the session scores strictly below every resident |
| AdapterCache.NewcomerIsDropped | hatchery/core/scheduler.py:128-135 | a run in which a store of the slower of two sessions drops it at once |
| AdapterCache.NewcomerStays | hatchery/core/scheduler.py:171-174 | a session with fewer than two recorded requests is never dropped by its own store |
| SmartLoRACaches.SmartLoRACache.Put | hatchery/core/scheduler.py:128-135 | new order, entries and eviction count, and the one call of the eviction callback |
| SmartLoRACaches.SmartLoRACache.FirstOfLowestScore | hatchery/core/scheduler.py:155-165 | the scan finds the first entry of lowest score, the oldest if no score is finite |
| SmartLoRACaches.SmartLoRACache.Get | hatchery/core/scheduler.py:120-126 | a hit moves to the end; hits and misses count the lookups |
| Lockstep.ReachableIsLockstep | hatchery/core/worker.py:534-656 | in every reachable state each rank stands at a place of rank 0's script, and a gather that one rank completed all ranks have issued |
| Lockstep.NoMismatch | hatchery/core/worker.py:78-96 | the k-th collectives of any two ranks, pending ones included, are of the same kind |
| Lockstep.SomeoneCanMove | hatchery/core/worker.py:534-656 | until every rank has seen the shutdown some rank can go on |
| Lockstep.GroupCanFinish | hatchery/core/worker.py:534-656 | from every reachable state the run can be continued until all ranks have stopped, with exactly `max_jobs` jobs settled |
| Lockstep.GroupStopsAtMax | hatchery/core/worker.py:555-559 | a shutdown has been sent, and a rank has stopped, only when exactly `max_jobs` jobs are settled |
| Lockstep.EveryPollIsAnswered | hatchery/core/worker.py:561-600 | before that a poll that finds a job starts it, and an empty, failed or too wide one leads to the next poll; behind the last job rank 0 stops |
| Lockstep.CompletedMeansEveryRank | hatchery/core/worker.py:601-616 | about each job it executed rank 0 says completed exactly when all ranks gathered after the job's broadcast, none raised, and rank 0's own result is completed; an exception on any rank is nacked with that rank's error |
| Lockstep.RanksRunTheSameJobs | hatchery/core/worker.py:618-656 | each rank has run a prefix of the jobs broadcast, and at the end all ranks have run the same ones |
| Lockstep.EveryJobIsSettledOnce | hatchery/core/worker.py:600-616 | the jobs whose gather is complete are settled once each in the order of their broadcasts, and there are at most `max_jobs` |
| Lockstep.TakenIsRunOrRejected | hatchery/core/worker.py:561-600 | a job taken from the queue is broadcast to the group or handed back for its parallel degree, never both and never neither |
| Lockstep.OnlyTheLeaderCanMove | hatchery/core/worker.py:555-559 | a group that has caught up waits for rank 0, so leaving its loop without a shutdown would strand the followers |
| FirstFit.PlaceAllKeeps | hatchery/core/packing.py:82-106 | every item is in one bin, each bin fits or is one oversize item, and no later item would have fit an earlier bin |
| FirstFit.FirstFitDecreasingBound | hatchery/core/packing.py:82-106 | every way of packing the same items into packs of the capacity, oversize items alone, needs at least two thirds as many packs |
| FirstFit.FirstFitAgainstAny | hatchery/core/packing.py:82-106 | first-fit-decreasing packs every item once within capacity, oversize items alone, and needs at most half as many packs again as any other list of packs that does so |
| PackSequences.ByLengthIsSorted | hatchery/core/packing.py:82-90 | the order of placement is a stable decreasing sort |
| PackSequences.InOrderIsSorted | hatchery/core/packing.py:108-116 | the members of a pack are back in their original order |
| PackSequences.BinsArePacking | hatchery/core/packing.py:55-116 | the bins of `pack_sequences` partition the items within capacity, and any other such list of packs has at least two thirds as many |
| PackSequences.PackSequences | hatchery/core/packing.py:55-116 | value errors for a bad capacity or misaligned labels, else exactly the packs of those bins |
| PackSequences.EverythingInOnePack | hatchery/core/trainer.py:1172-1187 | with the sum of the lengths as capacity there is exactly one pack, and none for an empty batch |
| Packing.BuildPack | hatchery/core/packing.py:119-162 | the loop builds the concatenated streams, slices and cumulative lengths |
| Packing.UnpackInvertsConcat | hatchery/core/packing.py:165-180 | unpacking gives the documents back token for token |
| Packing.PackRoundTrip | hatchery/core/packing.py:119-180 | the slices cut a pack into its documents: token ids, offsets from 0, and as labels the given ones, or the ids where none were given, with the first one -100 if boundaries are masked |
| Packing.SlicesTile | hatchery/core/packing.py:124-149 | slices follow each other from 0 to the total without gap or overlap |
| Packing.BoundariesAreRecoverable | hatchery/core/packing.py:124-149 | the resets of the position ids are the cumulative lengths exactly when no document is empty |
| Packing.PositionIsOffset | hatchery/core/packing.py:145-149 | a token lies in one document, and its position id is its distance from that document's start |
| Packing.NoResetMeansSameDocument | hatchery/core/packing.py:124-149 | two tokens share a document exactly when no reset lies after the first and up to the second |
| PackingLoss.PackingPreservesLoss | hatchery/core/trainer.py:905-939 | the weighted loss over packs is the mean over the unmasked targets of the batch, whatever the bins |
| PackingLoss.PackedBatchIsPacks | hatchery/core/packing.py:119-162 | the labels of that loss are those of the packs returned |
| PackingLoss.TargetsAreCounted | hatchery/core/trainer.py:905-911 | targets are the labels other than -100 |
| PackingLoss.EachTargetCounts | hatchery/core/trainer.py:905-939 | more loss at a target is as much more in the sum, and at an ignored label none |
| PackingLoss.EqualLosses | hatchery/core/trainer.py:905-939 | equal losses add up to their value times the number of targets |
| PackingLoss.MaskedTargets | hatchery/core/packing.py:136-142 | masking costs one target per document whose first label counts |
| PackingLoss.TrainerLoss | hatchery/core/trainer.py:905-939 | the trainer's loop gives that mean exactly when every pack has a target |
| PackingLoss.LoneTokenHasNoLoss | hatchery/core/trainer.py:905-939 | a batch of one single-token document makes one pack without a target |
| PackingLoss.WorkerLoss | hatchery/core/worker.py:1831-1966 | the worker's loop gives the mean, zero without targets |
| ModelPoolLru.TwoTiersAreOneLru | hatchery/core/model_pool.py:495-587 | after any run, `get_or_load` is one use of a flat list of both capacities, `evict` one removal, and `get` a touch of the resident tier |
| ModelPoolLru.EvictLruFlat | hatchery/core/model_pool.py:550-560 | `evict_lru` demotes the oldest resident, dropping the oldest of all when the host tier is full |
| ModelPoolLru.LoaderIsCalledOnMiss | hatchery/core/model_pool.py:502-539 | in runs of `get_or_load` the loader is called exactly when the name is not among the most recent distinct names |
| ModelPoolLru.ReachableIsGood | hatchery/core/model_pool.py:495-587 | every slot ever loaded is in one tier or was torn down, and no torn slot is served |
| ModelPoolLru.NoHostTierIsRewrap | hatchery/core/model_pool.py:240-278 | without a host tier the pool does what the rewrap pool does |
| ModelPools.TieredModelPool.GetOrLoad | hatchery/core/model_pool.py:502-539 | the slot returned is the most recent resident and was not torn down |
| ModelPools.TieredModelPool.DemoteOrDestroy | hatchery/core/model_pool.py:578-587 | new host tier, oldest slots torn down first |
| ModelPools.RewrapModelPool.GetOrLoad | hatchery/core/model_pool.py:247-278 | the eviction loop and the load of the rewrap pool |
| Batching.AllocatedIff | hatchery/core/batching.py:146-199 | an allocation fails exactly for a bad degree, rank, empty batch or indivisible split, and the first of these is reported |
| Batching.MeanOfEqual | hatchery/core/batching.py:146-199 | the mean of equal values is that value |
| Batching.WastedIsRepeatedWork | hatchery/core/batching.py:162-197 | the reported waste is the share of the group's item computations that repeat another rank's; a replicated allocation is the whole batch |
| Batching.SplitIsPartition | hatchery/core/batching.py:180-197 | the ranks' slices in rank order are the batch |
| Batching.MeanOfMeansIsMean | hatchery/core/batching.py:146-199 | for every strategy the mean over ranks of local item means is the mean of the batch |

## Left out

- The gateway, request coalescing and its `seq_id` retries, authentication, discovery and metrics: plumbing around the queue.
- Tensor kernels, FSDP, PEFT and vLLM: weights are maps from parameter names to numbers, gradients and steps arbitrary functions; bf16 rounding of saved weights is not modelled.
- Optimizer moments: a step is a function of weights and gradients. Of the saved moments only whether their number fits is stated (AdapterAttach.MomentsSurviveIff), with the accumulator's keys standing for the parameters they were saved for; their values, and the shapes of tensors, are not modelled.
- The cached first half of custom losses, and the sequence counter beside the token counter: they travel with the runtime like the step counters. Gradient clipping is part of the step function, which sees one session's parameters: a norm taken over the base and another session's adapter together is not modelled.
- What PEFT is taken to do: adding an adapter wraps its target layers in place, freezes the base and makes the new adapter the trainable one; selecting an adapter makes it alone trainable; leaving `disable_adapter` makes the current one trainable; deleting the current adapter selects a remaining one and makes it trainable. PEFT chooses that one layer by layer; the model takes the first by name for all layers, and no theorem but the witness run depends on which one it is.
- A pass over a frozen base does not raise, because input gradients are always enabled (`hatchery/core/model_pool.py:339-340`).
- Embedding adapters: captured base weights are assumed to hold no adapter parameters, which the source ensures by name for linear adapters only.
- Handlers that fail half-way because of storage or device errors; only the failures the worker raises itself are modelled.
- Several workers sharing a store: staleness across workers and the choice between local and remote copies.
- The trainer's eviction and saving: of its copy of the swapping logic only activation and the adapter attach are modelled.
- WorkerRuns.RunsArePrivate: assumes fresh ids with adapter names of their own; victims other than the session being loaded whose marker does not misdescribe them; adapters that wrap no layer for which a session has a gradient; full-parameter jobs only while the base is trainable for them; steps only after a backward pass and, while an adapter is trainable beside the base, only with nothing in the accumulator for it, or nothing but zeros and an optimizer that does nothing with them; complete checkpoints, loaded between cycles and without gradients. Outside of these the source fails, as the findings show. The eviction policy is any choice of victim, so it covers the cache's own. An accumulator's entries for adapters of other sessions are not part of a session; LeftoverGradients.PassTakesInIff says when there are any.
- WorkerRuns.StepIsPrivate: takes every backward pass to give each trainable parameter a gradient (`Trains`); WorkerLimits.ReloadChangesUnreachedIff says what a pass that misses one changes.
- The multi-model slot pool inside the worker: one slot is routed at a time.
- Collectives inside a job's execution; a job runs on each rank as one step.
- Lockstep.SomeoneCanMove: runs end through `max_jobs`; a coordinator stopped by its `running` flag sends no shutdown.
- SQLite: metrics are a dictionary of texts that survives its JSON encoding; enqueue is one step although the source allocates the number and inserts in two, and one clock reading serves a whole poll.
- The wait for a result: the two halves around the wait are modelled, the wait itself and its timeout are not.
- Constructor errors for capacities below one are preconditions of the constructors.
- LRU touches of the worker's cache during a switch, which matter only to the choice of victim.
- Workload classes, hit ratio, average durations, `should_pack` and dead-letter listings: easy readings of state.
