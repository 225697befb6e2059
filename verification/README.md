# Verified model of the MinerU gateway's scheduler

The gateway queues document tasks, dispatches them to a fleet of cloud workers, stores their results and
answers repeated requests from a cache. This project models its protocols in Dafny and proves what they keep.

**The deployment as a state machine.** `Protocol.dfy` has the task table, the worker table, the object store,
the clock and what each of the two scheduler loops holds between two database sessions. A step is one session,
one store call or one answer of a worker. Steps of the gateway, the administrator, the dispatching (fast) loop,
the reconciling (slow) loop and the clock interleave in any order, and the scheduler can crash between any two.
`Invariant.dfy` states what every reachable state satisfies; `WorkerProofs.dfy` and `TaskProofs.dfy` show that
every step keeps it. `Theorems.dfy`, `WorkerTheorems.dfy`, `Backoff.dfy`, `Spacing.dfy`, `Fairness.dfy` and
`Capacity.dfy` state what follows for all runs; `Runs.dfy` continues runs step by step, for the reachable
counterexamples.

**The program as it runs.** `Database.dfy` has the tables and the store as fields that are updated in place,
with their history as a run of the protocol. `TaskRepository.dfy`, `Results.dfy`, `Scheduler.dfy`, `Fleet.dfy`,
`Rotation.dfy`, `Retention.dfy`, `Reconcile.dfy` and `Ticks.dfy` are the loops' methods: each session records
the protocol step it is, and at every await the other components may take any number of steps. So every state
these methods pass through, in every interleaving, is one the theorems speak about. The contracts say what each
loop does as growth of its log, the steps of that loop in their order.

**The cache.** `CacheProtocol.dfy` is a second state machine, of cache rows with generations, objects and any
number of concurrent calls; `CacheProofs.dfy` and `CacheTheorems.dfy` prove its invariant and theorems, and
`CacheService.dfy` has the service's methods, refined to it in the same way. `Composition.dfy` runs both
machines side by side and shows that what a cache hit copies is what a worker served for the same job.

**Codecs.** `Json.dfy` is a printer and parser of the JSON that the payload header and the cache key use,
`Payload.dfy` packs and rebuilds requests, `CacheKey.dfy` builds the key material, `UploadPaths.dfy` sanitises
names, `Storage.dfy` renders object keys.

Answers of workers, of the cloud and of the store are chosen arbitrarily. Time is in whole seconds and only
moves forward. The digest is any injective function of the bytes; drawn ids and names are fresh.

Five claims one might expect are false of the code. Each is stated with the exact condition instead, and all but
the last are shown to fail in reachable runs: retry spacing at the failure limit (`Spacing.NoSpacingAtTheLimit`,
`Spacing.CountForcesGapIff`); the generation checks of a sweep and of an invalidation across lifetimes of a cache
row (`CacheTheorems.SweepCanRemoveALaterRow`, `CacheTheorems.InvalidationCanUnlinkAnother`); capacity after an
autoscaler's drain (`Capacity.DrainCanLeaveTooFew`, `Capacity.DrainKeepsCapacityIff`); and progress under a status
report taken by itself (`Status.ReportLosesProgressIff`).

## Model

| member | source | states |
|---|---|---|
| `WorkerTheorems.DrainNeverLosesWork` | src/mineru_gateway/scheduler/scheduler.py:567-583 | In every run, when a drain is committed its worker has no task in dispatching, processing or storing_result, although the count was taken earlier; none is attached while the worker keeps the intent, which for termination is forever. |
| `WorkerTheorems.WorkOnlyShrinksOutOfService` | src/mineru_gateway/scheduler/worker_repository.py:105-159 | Over any stretch of a run in which a worker is not serviceable, its set of active tasks only shrinks. |
| `WorkerTheorems.IdleWhenStopped` | src/mineru_gateway/scheduler/scheduler.py:577-583 | In every reachable state a worker whose intent is to be stopped has no active task, nor has one terminated by a drain or as stalled without work. |
| `WorkerTheorems.TerminationIsFinal` | src/mineru_gateway/scheduler/scheduler.py:381-413 | The intent to terminate a worker is never withdrawn in any run. |
| `WorkerTheorems.StalledUntilRecovered` | src/mineru_gateway/scheduler/worker_repository.py:399-422 | A stalled worker keeps its stall time, stays unhealthy and out of service until an administrator recovers it. |
| `WorkerTheorems.StalledServesOnlyAfterRecoveryAndProbe` | src/mineru_gateway/scheduler/worker_repository.py:590-607 | A stalled worker that serves again was first recovered by an administrator and later probed healthy by the slow loop, in that order. |
| `WorkerTheorems.StalledWorkersConverge` | src/mineru_gateway/scheduler/scheduler.py:381-413 | A worker at the failure limit when a convergence pass lists it is marked for termination by the end of the pass if, when the pass begins, it has no active work or its grace period is over; the mark stays, and reconciliation does not skip it. |
| `WorkerTheorems.FleetIsBounded` | src/mineru_gateway/scheduler/scheduler.py:530-556 | In every run at most max_workers + 1 workers are live and at most one replacement is on its way; links have depth one and a replacement is one generation ahead of its target. |
| `Theorems.InvAlways` | src/mineru_gateway/scheduler/scheduler.py:126-145 | The invariant of tables, objects and loops holds in every state of every run, with crashes between any two sessions. |
| `Theorems.UpstreamIdentityIsWriteOnce` | src/mineru_gateway/scheduler/task_repository.py:156-183 | However often a task is claimed, submitted and recovered, the upstream id and base URL on its row are written at most once, and its status never falls behind processing afterwards. |
| `Theorems.ResultIsOfRecordedSubmission` | src/mineru_gateway/tasks/results.py:42-53 | Until retention, the stored result of a completed dispatched task is what the recorded worker served for the recorded upstream id, which that worker gave for this task's own request. |
| `Theorems.AcceptedRequestsAreTheClients` | src/mineru_gateway/scheduler/task_repository.py:334-362 | Every worker that ever accepted a task was sent exactly the request its client had uploaded. |
| `Theorems.DispatchFindsThePayload` | src/mineru_gateway/scheduler/task_repository.py:225-236 | While a task with a payload key is being dispatched its payload object is there and rebuilds to the client's request, so the payload-missing failure cannot occur. |
| `Theorems.ShapeAlways` | src/mineru_gateway/scheduler/task_repository.py:164-223 | Which fields a task row has set is determined by its status, in every reachable state. |
| `Theorems.TaskEvolvesOverRun` | src/mineru_gateway/scheduler/task_repository.py:396-411 | Between any two states of a run a row keeps its creation time, payload and cache key; once it has an upstream id its rank never falls; terminal rows are final. |
| `Theorems.AbandonedClaimIsRecovered` | src/mineru_gateway/scheduler/task_repository.py:156-183 | A claim left behind by a crash or an exception is claimable again after the first recovery past its timeout, with its place in the queue. |
| `Theorems.OnlyRetentionDeletes` | src/mineru_gateway/scheduler/task_repository.py:532-551 | A row leaves the table only when it is terminal and was completed before the retention cutoff. |
| `Theorems.GoneForGood` | src/mineru_gateway/scheduler/task_repository.py:87-115 | A task id that has left the table is never used again. |
| `Theorems.CapacityAlways` | src/mineru_gateway/scheduler/worker_repository.py:130-159 | In every reachable state no worker has more tasks in dispatching or processing than target_per_worker. |
| `Theorems.PollEvolves` | src/mineru_gateway/scheduler/task_repository.py:396-411 | Applying a status report to a polled row never moves it back and keeps its identity. |
| `Status.LiveTasksNeverRequeue` | src/mineru_gateway/tasks/status.py:38-53 | From processing or storing_result no reported status maps to queued or dispatching. |
| `Status.ReportLosesProgressIff` | src/mineru_gateway/tasks/status.py:38-53 | A report moves a live task back exactly when the task is storing its result and the report says queued, pending or processing. |
| `Fairness.OlderTasksFirst` | src/mineru_gateway/scheduler/task_repository.py:196-223 | No task is claimed while an older one is queued; tasks put back into the queue keep their place. |
| `Fairness.ClaimTakesLeastLoaded` | src/mineru_gateway/scheduler/worker_repository.py:144-159 | The worker a claim chooses has the least load of all serviceable workers. |
| `Fairness.SpreadNeverGrows` | src/mineru_gateway/scheduler/worker_repository.py:144-159 | While the same workers are in service and no work ends, any sequence of claims keeps the load spread within max(initial spread, 1). |
| `Selection.Acquire` | src/mineru_gateway/scheduler/worker_repository.py:144-159 | A worker is found exactly when some serviceable one outside the excluded set is below its target, and it is first by load, last activity (never active first) and id. |
| `Backoff.FailuresAreSpaced` | src/mineru_gateway/scheduler/scheduler.py:231-240 | Below the failure limit, consecutive failures that reconciliation records of a worker are at least retry_delay apart, across passes, aborts and crashes. |
| `Backoff.BackoffAddsUp` | src/mineru_gateway/scheduler/worker_repository.py:41-48 | The n-th failure of a streak comes no sooner than the sum of the first n-1 delays after the first. |
| `Backoff.DelaysGrow` | src/mineru_gateway/scheduler/worker_repository.py:41-48 | Delays do not decrease from one failure to the next, start at 5 and are capped at 300 seconds. |
| `Spacing.CountForcesGapIff` | src/mineru_gateway/scheduler/worker_repository.py:399-422 | For every configuration and count: all failures that leave this count force its delay before the next failure at the same count, in every continuation of every run, if and only if the count is below the limit. |
| `Spacing.FailureForcesGapIff` | src/mineru_gateway/scheduler/worker_repository.py:411-420 | Failure by failure: a retryable failure of a live worker that is marked for termination, has no active work or is past its grace period forces the delay exactly when the count it leaves is below the limit; at the limit an unspaced continuation of the same run is built. |
| `Spacing.NoSpacingAtTheLimit` | src/mineru_gateway/scheduler/scheduler.py:231-240 | At every count from the limit on there is a reachable run in which the same worker fails twice at that count at the same time. |
| `Scaling.DesiredIsLeastAllowedCover` | src/mineru_gateway/scheduler/scaling.py:44-58 | Desired is the least n within [min, max] with n * target >= queue depth, or max when there is none. |
| `Scaling.DesiredThreshold` | src/mineru_gateway/scheduler/scaling.py:44-58 | For min < d <= max, desired >= d exactly when the depth is at least (d - 1) * target + 1. |
| `Autoscale.AutoscaleDrainKeepsCapacity` | src/mineru_gateway/scheduler/scheduler.py:503-518 | With all five counts and the idle worker taken of one state, draining it leaves at least the desired number in service, and while it drains the autoscaler asks neither for another drain nor, for the same queue, for a replacement. |
| `Autoscale.NewWorkerClosesGap` | src/mineru_gateway/scheduler/scheduler.py:479-501 | With all five counts taken of one state, a new worker closes the gap to desired by exactly one and never opens a surplus. |
| `Autoscale.RestartIsNotYetCounted` | src/mineru_gateway/scheduler/scheduler.py:530-542 | A restarted stopped worker leaves the scaling signal unchanged until reconciliation has seen its instance start. |
| `Capacity.DrainKeepsCapacityIff` | src/mineru_gateway/scheduler/scheduler.py:503-518 | Over a run, from the session that counts the workers in service to the commit of the drain: exactly the drained worker and those an administrator drains meanwhile go out of service, so the desired number is left if and only if no more of the counted workers go than there were too many; when no other is drained, it is left. |
| `Capacity.DrainCanLeaveTooFew` | src/mineru_gateway/scheduler/scheduler.py:503-518 | A reachable run in which an administrator drains a worker between the decision and its commit, and fewer than desired are left. |
| `Capacity.CreationClosesGapIff` | src/mineru_gateway/scheduler/scheduler.py:479-501 | Over a run, from the separate counts to the creation: only workers that an administrator recovers come to count as starting; beyond those the new worker never opens a surplus, and it closes the gap by exactly one if and only if as many come to count as are drained of the counted ones. |
| `Capacity.CountsOverDecision` | src/mineru_gateway/scheduler/worker_repository.py:236-251 | While a decision is on its way the workers in service, and those starting, change only as an administrator drains or recovers them. |
| `Fleet.TurnKeepsCapacity` | src/mineru_gateway/scheduler/scheduler.py:473-518 | The capacity theorem applies to what the autoscaler's method does: its counts and its commit belong to one decision of the history. |
| `Vms.OneVmPerWorker` | src/mineru_gateway/scheduler/scheduler.py:182-266 | Of a discovery list, a managed VM that is not ending is sent terminate exactly when it is not the VM its known worker keeps; every known worker with VMs keeps one, which is spared. |
| `Vms.OrderDoesNotMatter` | src/mineru_gateway/scheduler/scheduler.py:210-229 | Which VMs are kept and terminated depends neither on the order nor on repetitions of the discovery list. |
| `Vms.VmKeeper.DiscoverAndDedupe` | src/mineru_gateway/scheduler/scheduler.py:182-208 | The loops pick for each worker the kept VM, correct the rows of workers with several VMs and send terminate to exactly the duplicates. |
| `Vms.VmKeeper.ResolveDuplicateVms` | src/mineru_gateway/scheduler/scheduler.py:210-229 | The kept VM is the recorded one if discovered, else the least id; all others of the worker not already ending are sent terminate. |
| `Vms.VmKeeper.TerminateOrphanVms` | src/mineru_gateway/scheduler/scheduler.py:242-252 | Exactly the managed VMs of no known worker, not already ending, are sent terminate. |
| `Payload.RebuildInvertsPack` | src/mineru_gateway/scheduler/task_repository.py:334-362 | Rebuilding a packed payload gives back every field and every upload, name, type and bytes, in order, exactly when every upload name is one that sanitising accepts. |
| `Payload.PackPayload` | src/mineru_gateway/gateway/ingest.py:410-435 | The loop over the uploads builds the length-prefixed header with tiling offsets, followed by the concatenated bytes. |
| `Payload.RebuildPayload` | src/mineru_gateway/scheduler/task_repository.py:341-362 | The loop over the header entries rebuilds the uploads by slicing the body, and raises on the first entry it cannot use. |
| `Payload.BodyTiles` | src/mineru_gateway/gateway/ingest.py:416-431 | Slicing the body at an entry's recorded offset and size gives that upload's bytes. |
| `Payload.ReadBigEndianInverts` | src/mineru_gateway/gateway/ingest.py:433-435 | Decoding the four length bytes inverts encoding them. |
| `UploadPaths.SanitizeAcceptsIffSafe` | src/mineru_gateway/util/upload_paths.py:19-36 | Sanitising accepts exactly the non-blank single path components that are neither dot entry, and changes none of them. |
| `Json.ParsePrint` | src/mineru_gateway/gateway/ingest.py:433-435 | In the standard styles, parsing what json.dumps prints gives the value back and the text that follows, whatever follows that does not begin with a digit. |
| `Json.PrintIsPrefixFree` | src/mineru_gateway/scheduler/cache_service.py:103-109 | In the standard styles, two printed values, each followed by text that does not begin with a digit, are equal texts only if the values and the following texts are equal. |
| `CacheKey.SameKeyIffSameRequest` | src/mineru_gateway/scheduler/cache_service.py:103-109 | Two requests have equal key material exactly when they have the same (name, digest) records in order, the same last-wins scalar fields and the same multiset of languages. |
| `CacheKey.BuildCacheOptions` | src/mineru_gateway/scheduler/cache_service.py:81-94 | The loop keeps the last value of a scalar field and all values of the repeated field, sorted. |
| `Strings.SortedIsUnique` | src/mineru_gateway/scheduler/cache_service.py:91-94 | Sorting depends on the contents only: two sorted sequences with the same contents are equal. |
| `Storage.KeysAreDistinct` | src/mineru_gateway/tasks/storage.py:19-33 | Different payload, zipped result and generation-named cache objects, the ones the protocols use, have different key texts, whatever the task ids and cache keys. |
| `Storage.TextsAreDistinct` | src/mineru_gateway/tasks/storage.py:19-33 | The key builders give different texts for different arguments, JSON results and cache objects without generation included, for digests and generations without a slash. |
| `CacheTheorems.NoDanglingPointer` | src/mineru_gateway/scheduler/cache_service.py:125-175 | In every interleaving of lookups, placeholders, populations, invalidations, sweeps, time and crashes, an unexpired row with an object key points at an object in the store, whose bytes were produced for that cache key. |
| `CacheTheorems.HitsAgreeWithComputation` | src/mineru_gateway/scheduler/cache_service.py:275-303 | The result copied for a cache hit holds the bytes a worker produced for a task with the same files and options. |
| `CacheTheorems.SameKeyIffSameJob` | src/mineru_gateway/scheduler/cache_service.py:97-123 | Requests share a cache key exactly when they have the same file names and contents in order and the same effective options. |
| `CacheTheorems.GenerationIsSound` | src/mineru_gateway/scheduler/cache_service.py:254-262 | Within one lifetime of a row its generation never falls, and an equal generation means an equal object key and an equal expiry. |
| `CacheTheorems.AlwaysOutlived` | src/mineru_gateway/scheduler/cache_service.py:177-220 | In every run, a row of another lifetime than an expired one that a sweep has read expires later than that one, or never. |
| `CacheTheorems.SweepRemovesWhatItReadIffSameExpiry` | src/mineru_gateway/scheduler/cache_service.py:340-357 | When a sweep's generation check passes, the row is of the lifetime in which it was read if and only if it still has the expiry that was read, for a later row expires later or never; then the object key is the one read, too, and the row has expired. |
| `CacheTheorems.SweepCanRemoveALaterRow` | src/mineru_gateway/scheduler/cache_service.py:349-355 | A reachable state in which the sweep's generation check passes on a later row of the same key and removes it, unexpired and pointing to a stored object. |
| `CacheTheorems.InvalidationDeletesWhatItUnlinks` | src/mineru_gateway/scheduler/cache_service.py:305-338 | When an invalidation's claim succeeds, the object it goes on to delete is the one it unlinks, by its object key, if and only if the row is of the lifetime in which it was read; in either case no row points to the deleted object afterwards or ever again. |
| `CacheTheorems.InvalidationCanUnlinkAnother` | src/mineru_gateway/scheduler/cache_service.py:305-338 | A reachable run in which an invalidation unlinks the object of a later row and deletes another; the unlinked one stays in the store with no row pointing to it. |
| `CacheTheorems.CacheAlways` | src/mineru_gateway/scheduler/cache_service.py:162-357 | The cache invariant holds in every state of every run. |
| `Composition.HitsAreServedResults` | src/mineru_gateway/scheduler/cache_service.py:275-303 | With the cache and the deployment running side by side in any interleaving: the bytes copied for a cache hit are what a worker served for an upstream id it had given to a task whose client uploaded the same job. |
| `Composition.JointAlways` | src/mineru_gateway/scheduler/cache_service.py:238-273 | In every joint run both invariants hold, and every result the cache knows of was served for the request that the client of its task uploaded. |
| `CacheService.Cache.Lookup` | src/mineru_gateway/scheduler/cache_service.py:162-175 | A hit is returned exactly for an unexpired row with an object key, counts the hit, and its object is in the store with bytes made for the key; a miss on an unexpired row changes nothing. |
| `CacheService.Cache.CreatePlaceholder` | src/mineru_gateway/scheduler/cache_service.py:177-220 | A missing row is inserted, an unexpired one left alone, an expired one moved to its next generation with a new expiry; the object of an expired row is deleted, if the store lets it, and no row points to it. |
| `CacheService.Cache.PopulateFromTask` | src/mineru_gateway/scheduler/cache_service.py:238-273 | Copy, read of the generation, and compare-and-set, each at its place in the history; the row is linked exactly if at the compare-and-set it is of the generation read and without an object, and then its object holds bytes produced for the key; a copy not linked is deleted, if the store lets it, and no row points to it. |
| `CacheService.Cache.CompareAndSet` | src/mineru_gateway/scheduler/cache_service.py:254-269 | Links the copy if and only if the row is there, of the expected generation and without an object; otherwise the rows are untouched and the copy is deleted, if the store lets it. |
| `CacheService.Cache.CreateHitTask` | src/mineru_gateway/scheduler/cache_service.py:275-303 | A task comes to be exactly when the source object is still there; its result is a copy of that object, byte for byte one produced for the same key; otherwise tables and store are untouched. |
| `CacheService.Cache.Invalidate` | src/mineru_gateway/scheduler/cache_service.py:305-338 | Claims the row exactly if it is of the generation read; then deletes the object it read, and removes the row exactly if it is as it was claimed; when the store refuses, the call ends there. |
| `CacheService.Cache.SweepExpired` | src/mineru_gateway/scheduler/cache_service.py:340-357 | The rows it counts as removed were listed as expired, at most as many as the limit, and each was removed by a step of this sweep that found it of the generation listed. |
| `CacheService.Cache.SweepOne` | src/mineru_gateway/scheduler/cache_service.py:347-356 | One listed row: its object first; then, unless the store refused, the row, exactly if its generation is the one read. |
| `CacheService.Cache.DropObject` | src/mineru_gateway/scheduler/cache_service.py:159-160 | Deleting a stale or unlinked object; on success it is not in the store. |
| `TaskRepository.Repository.ClaimNextDispatch` | src/mineru_gateway/scheduler/task_repository.py:196-223 | Claims the oldest queued task for the first dispatchable worker, or nothing when there is no queued task or no such worker; the time since when dispatch has been deferred is kept. |
| `TaskRepository.Repository.SubmitClaimedTask` | src/mineru_gateway/scheduler/task_repository.py:225-280 | Ends with the task dispatched, failed, or back in the queue without worker, never left claimed unless an exception escapes; the attempts are bounded by the number of workers. |
| `TaskRepository.Repository.Attempt` | src/mineru_gateway/scheduler/task_repository.py:229-278 | One pass of the retry loop: an outcome, or another worker holds the claim and the last one is excluded. |
| `TaskRepository.Repository.ReassignAfterExclusion` | src/mineru_gateway/scheduler/task_repository.py:282-332 | The claim passes to a worker outside the grown excluded set, or the task goes back to the queue. |
| `TaskRepository.Repository.MarkProcessing` | src/mineru_gateway/scheduler/task_repository.py:364-384 | The upstream id and base URL are recorded together with a status of at least processing. |
| `TaskRepository.Repository.MarkFailed` | src/mineru_gateway/scheduler/task_repository.py:386-394 | A claimed task becomes failed. |
| `TaskRepository.Repository.RecoverStaleDispatchClaims` | src/mineru_gateway/scheduler/task_repository.py:156-183 | Exactly the claims past their timeout without upstream id go back to the queue, and their number is returned. |
| `TaskRepository.Repository.RebuildPayload` | src/mineru_gateway/scheduler/task_repository.py:334-342 | Gives what the stored object rebuilds to, or that there is none. |
| `TaskRepository.Repository.DispatchQueuedTasks` | src/mineru_gateway/scheduler/task_repository.py:185-194 | A dispatch tick that no exception ends leaves no task claimed that was not claimed before. |
| `Results.FetchAndStoreResult` | src/mineru_gateway/tasks/results.py:30-70 | If stored, the task is completed and its object holds what the recorded worker served; if not, the task still waits and is put off by the poll delay. |
| `Results.StoreResult` | src/mineru_gateway/tasks/results.py:20-26 | The object is in the store, and counts as served, before any row points to it; no row changes. |
| `Results.RecordResult` | src/mineru_gateway/scheduler/task_repository.py:141-154 | Recording completes the row with a result that is in the store; when it fails the row is untouched and the object is deleted, if the store lets it. |
| `Results.ApplyAnswer` | src/mineru_gateway/scheduler/task_repository.py:396-419 | An answer is applied to the row and moves it on, never back; no answer puts its next poll off. |
| `Results.RefreshTaskFromUpstream` | src/mineru_gateway/scheduler/task_repository.py:425-449 | An unanswered poll puts the row off and changes nothing else; an answer is applied, and a row that is not finished by it has its poll time cleared and is otherwise what the answer makes of it. |
| `Results.SyncDispatchedTaskStatuses` | src/mineru_gateway/scheduler/task_repository.py:451-479 | Of the tasks that can be polled all, or as many as the limit, are listed; each listed one has its answer applied or is put off. |
| `Results.PersistPendingResults` | src/mineru_gateway/scheduler/task_repository.py:481-530 | Of the tasks that wait for their result all, or as many as the limit, are listed; each listed one is recorded as completed or put off, and counted as one or the other. |
| `Scheduler.ConvergeStalledWorkers` | src/mineru_gateway/scheduler/scheduler.py:381-413 | What the method does is a convergence pass of the run, to which the convergence theorem applies. |
| `Scheduler.DecideConvergence` | src/mineru_gateway/scheduler/scheduler.py:389-413 | Terminate when no work is left or the grace period is over, else wait; the stamp of a missing stall time and a second count that differs cannot occur. |
| `Scheduler.ConvergeOne` | src/mineru_gateway/scheduler/scheduler.py:384-413 | One listed worker is counted and decided on. |
| `Scheduler.RefreshWorkerHealth` | src/mineru_gateway/scheduler/scheduler.py:415-423 | Without candidates nothing changes; else a batch of candidates is listed, and afterwards exactly the rows of the batch have what their probe says. |
| `Scheduler.ApplyHealthChecks` | src/mineru_gateway/scheduler/worker_repository.py:435-464 | The loop writes to exactly the probed rows, what their probe says. |
| `Scheduler.LooksDrained` | src/mineru_gateway/scheduler/scheduler.py:568-572 | A draining worker is passed over unless it has no active task. |
| `Scheduler.DecideDrain` | src/mineru_gateway/scheduler/scheduler.py:573-583 | The intent follows the replacement and the drain target; a worker whose replacement is not ready is deferred. |
| `Scheduler.CommitDrain` | src/mineru_gateway/scheduler/scheduler.py:577-583 | The write that ends the drain is the protocol's commit step. |
| `Scheduler.AdvanceDrains` | src/mineru_gateway/scheduler/scheduler.py:567-583 | Every draining worker is looked at, and nothing else is done. |
| `Scheduler.AdvanceDrain` | src/mineru_gateway/scheduler/scheduler.py:568-583 | A draining worker with work is left; one without is deferred, or its drain is decided and committed, and then it has the intent and no active work. |
| `Scheduler.FinalizeTerminatedWorker` | src/mineru_gateway/scheduler/worker_repository.py:511-520 | No row keeps a replacement link to the finalized worker, which is stamped. |
| `Scheduler.FinalizeTerminations` | src/mineru_gateway/scheduler/scheduler.py:626-628 | Every live worker that is to be terminated and is, is finalized, and nothing else is done. |
| `Fleet.ComputeScalingSignal` | src/mineru_gateway/scheduler/worker_repository.py:236-251 | The five counts are those of five states of the history, in this order, all of one decision; desired is computed from them and stays within the bounds. |
| `Fleet.ScaleUp` | src/mineru_gateway/scheduler/scheduler.py:530-556 | A stopped worker is restarted if there is one; else at most one live worker is added, within the limit, or one beyond it only in an emergency. |
| `Fleet.MayCreate` | src/mineru_gateway/scheduler/scheduler.py:543-552 | Creation is allowed exactly below the limit, or below one more in an emergency; an emergency means that a worker was seen stalled and after that none seen serving. |
| `Fleet.RestartStopped` | src/mineru_gateway/scheduler/scheduler.py:531-542 | A stopped worker is asked to run again with a clean failure count; the fleet does not grow. |
| `Fleet.CreateWorker` | src/mineru_gateway/scheduler/worker_repository.py:466-480 | The fleet grows by exactly one. |
| `Fleet.DrainIdle` | src/mineru_gateway/scheduler/scheduler.py:503-506 | The idle worker found is put to drain; the fleet does not change. |
| `Fleet.Autoscaler.ApplyAutoscaling` | src/mineru_gateway/scheduler/scheduler.py:473-518 | The signal is of counts taken in this turn; the turn drains only on a signal down and creates only on a signal up, adds at most one worker and never exceeds the limit by more than one. |
| `Rotation.ProgressRotation` | src/mineru_gateway/scheduler/scheduler.py:598-624 | An overdue replacement is marked for termination; a ready one has its old worker put to drain, also when an administrator interferes between read and write. |
| `Rotation.ProgressRotations` | src/mineru_gateway/scheduler/scheduler.py:594-624 | Every live replacement listed gets the step it calls for: given up when overdue, passed over when not ready, else its old worker put to drain unless that cannot be. |
| `Rotation.FindTarget` | src/mineru_gateway/scheduler/worker_repository.py:322-344 | The oldest eligible worker an administrator asked to rotate; else, by a later query, the oldest that is due; none only if both queries find none. |
| `Rotation.StartNewRotations` | src/mineru_gateway/scheduler/scheduler.py:630-646 | With a replacement on its way, or at the limit, nothing is started; else a replacement is started for exactly the target that the two queries give. |
| `Rotation.StartRotationReplacement` | src/mineru_gateway/scheduler/worker_repository.py:522-540 | The replacement and the cleared request are one step of the protocol. |
| `Retention.DeleteTask` | src/mineru_gateway/scheduler/scheduler.py:664-674 | Payload object, result object, row, in that order; a failed deletion keeps the row. |
| `Retention.CleanupExpiredTasks` | src/mineru_gateway/scheduler/scheduler.py:660-668 | Of the finished tasks past the cutoff all, or as many as the limit, are listed; each listed one is deleted, or kept because an object of it could not be. |
| `Reconcile.CommitFields` | src/mineru_gateway/scheduler/worker_repository.py:65-75 | The row gets exactly the change, on what it was at that session, and no other row changes. |
| `Reconcile.RecordFailure` | src/mineru_gateway/scheduler/worker_repository.py:399-422 | Below the limit the retry time is set by the new count; at the limit the worker is stalled, unhealthy and put to drain for termination. |
| `Reconcile.ResetCloudFailures` | src/mineru_gateway/scheduler/worker_repository.py:482-491 | The failure count and the retry time are cleared. |
| `Reconcile.SyncDiscoveredState` | src/mineru_gateway/scheduler/scheduler.py:309-317 | What differs from the discovery is written: the instance id, and the state unless unknown. |
| `Reconcile.LaunchMissing` | src/mineru_gateway/scheduler/scheduler.py:276-284 | A worker without instance is launched, closed, or left, and the visit ends. |
| `Reconcile.TransitionPowerState` | src/mineru_gateway/scheduler/scheduler.py:335-361 | Acts exactly when intent and cloud state differ in one of three ways. |
| `Reconcile.CheckRunningReadiness` | src/mineru_gateway/scheduler/scheduler.py:367-379 | The address is written when it has changed; the visit ends with a failure when the worker is late to become ready or the address is refused, otherwise with a reset. |
| `Reconcile.FollowInstance` | src/mineru_gateway/scheduler/scheduler.py:286-307 | A disappeared instance closes the row; otherwise the state is followed, then power or readiness is settled, as the answers say. |
| `Reconcile.ReconcileOneWorker` | src/mineru_gateway/scheduler/scheduler.py:268-307 | What a visit writes is, in order, the log that discovery and the cloud's answers determine. |
| `Reconcile.VisitEndsOnce` | src/mineru_gateway/scheduler/scheduler.py:167-180 | Whatever is discovered and answered, a visit ends once, at its end: by a failure recorded exactly when a call it makes is refused or the worker is late, else by the failures reset. |
| `Reconcile.ReconcileWorkers` | src/mineru_gateway/scheduler/scheduler.py:155-180 | Every live worker is visited, or skipped exactly when it is stalled or backing off, and the VMs sent terminate are exactly the duplicates and orphans of the discovery list. |
| `Ticks.Ticker.FastTick` | src/mineru_gateway/scheduler/scheduler.py:126-135 | Recovery of stale claims, then polling, then storing of results, then dispatching, each with steps of its own kind only. |
| `Ticks.Ticker.SlowTick` | src/mineru_gateway/scheduler/scheduler.py:137-145 | Reconciliation, convergence, health, autoscaling, rotations, drains, terminations, new rotations and retention follow each other in this order, from idle to idle, without abort. |
| `Ticks.Ticker.AdvanceDrainsAndRotations` | src/mineru_gateway/scheduler/scheduler.py:558-565 | Rotations, drains, finalizing and new rotations in this order, the last exactly when the check is due; the next check is an interval later. |
| `Ticks.Ticker.CleanupIfDue` | src/mineru_gateway/scheduler/scheduler.py:648-653 | Retention exactly when it is due, and the next is an interval later; when not due nothing is deleted. |
| `Interleaving.FastAwaits` | src/mineru_gateway/scheduler/task_repository.py:225-280 | While the dispatcher awaits, its claim and the rows of unfinished tasks stay as they are. |
| `Interleaving.SlowAwaits` | src/mineru_gateway/scheduler/scheduler.py:137-145 | While the slow loop awaits, nobody else changes a worker's intent, links or liveness. |

## Left out

- HTTP routes, authentication, metrics, logging, configuration loading, migrations and the cloud clients.
- SQL row locks, `skip_locked` and lost updates under READ COMMITTED: a session block is one atomic step.
- More than one scheduler: the advisory lock is taken to work.
- Deployments without an object store or without a cloud provider, and rows of other deployments.
- Exceptions inside the loops' methods other than those handled there and the escape in `Attempt`; in the
  protocol a loop can be aborted between any two sessions. After an escaping exception in a concurrent batch
  the original may let the rest of the batch run on; here it is forgotten.
- Results.PersistPendingResults: handles one task at a time, where the original handles up to four at once; the protocol interleaves them in any order.
- Results.SyncDispatchedTaskStatuses: as above; also the order in which candidates are preferred is not modelled.
- Scheduler.RefreshWorkerHealth: the order in which workers are preferred for a probe is not modelled.
- Fleet.RestartStopped: which of several stopped workers is restarted is not modelled.
- Fleet.DrainIdle: the preference for the worker idle longest is not modelled.
- Selection.Acquire: worker ids are integers, compared for equality and order only.
- Payload.RebuildPayload: a header that is not ASCII, or has JSON numbers and literals that packing never writes, counts as raising; the printed header is always ASCII.
- CacheKey.SameKeyIffSameRequest: the SHA-256 digests are identified with what they digest; strings are sequences of Unicode scalar values.
- CacheService.Cache.PopulateFromTask: a commit that fails is a step of the cache protocol but not a branch of the method; the result format and the other metadata columns of a row are not modelled.
- CacheService.Cache.CreateHitTask: the failing insert and its compensating delete are in the deployment's protocol (`DropHit`), not in the method.
- Theorems.InvAlways: the cache rows are not part of this machine; `Composition.dfy` runs it with the cache's.
- Composition.HitsAreServedResults: each machine keeps its own view of the object store; they are tied at the three steps they share.
- Spacing.FailureForcesGapIff: not stated for a stalled worker that is busy and within its grace period, which convergence, not backoff, keeps from being visited; `Spacing.CountForcesGapIff` has no such restriction.
- Columns that only report: error texts, backends, file names, client expiry, update times, scaling events.
- Staging of uploads on disk, size limits, the choice of a free file name, and OCR preprocessing: branch-level facts.
- That every task is eventually completed: the code does not promise it without help of workers and cloud.
