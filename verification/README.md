# Fairlane: verified model of scheduling, admission and the task lifecycle

Fairlane is a multi-tenant task queue: PostgreSQL holds the tasks and their audit log, Redis holds
per-tenant waiting rooms, an execution stream, rate-limit buckets and concurrency slots, and workers
execute what the dispatcher streams to them. This Dafny project models the three state machines that
carry its guarantees and proves what they keep.

1. **The weighted fair queue.** `FairQueue.dfy` has the Redis state with the enqueue script and the
   dispatch script, once as functions and once as the methods of the class `WaitingRooms`, each method
   proved equal to its function. `QueueRuns.dfy` proves order, conservation and work conservation over
   every interleaving of enqueues, dispatch passes and finishes; `Fairness.dfy` the lag bound, weighted
   fairness and the bounded wait, `FairnessLimits.dfy` the runs in which they do not help;
   `Dispatcher.dfy` the backpressure of a dispatch cycle;
   `StreamAccounting.dfy` the in-stream counters under crashes and reclaims; `Recovery.dfy` the rebuild
   after a Redis wipe.
2. **Admission control.** `TokenBucket.dfy` has the token bucket script and its exact law over call logs;
   `Slots.dfy` the slot protocol as separate Redis commands of interleaved processes.
3. **The task lifecycle.** `Lifecycle.dfy` has the transactions of the workers, the retry poller, the
   reaper and the replay endpoints; `TaskStore.dfy` the methods that run them;
   `LifecycleLaws.dfy` says what each does for a task and what of a row never changes; `LifecycleProofs.dfy`
   proves that every reachable record is exactly what its event log says, and fencing, side effects,
   accounting and reclaim from that; `Stranding.dfy` follows a task's copies in Redis as well and proves
   which tasks are lost.

`Tasks.dfy` and `SortedSet.dfy` are shared: task rows, scores, Redis sorted sets and finite sums.

Assumptions. Each Lua script, each Redis command and each database transaction is atomic. Virtual
times and tokens are exact reals. The bucket's clock never goes back (`Timely`). Cached weights are at
least 1 and rates positive, as the API's schema demands. Names are compared through integers that are
ordered as their bytes are: a task id is a UUID, whose text sorts as its 128-bit value, and tenant and
worker names are numbered in byte order. Time, retry delays, the retryable verdict and which rows are
locked elsewhere are parameters.

Where the code falls short of its documentation, the model follows the code, a lemma shows the failing
case and another says when the property does hold:

- `docs/GUARANTEES.md` says that no task is lost and that a dead worker's tasks run again. A replayed
  task keeps its dead letter, so dying a second time aborts the transaction and leaves it running
  under a lock that no reclaim can clear, with no copy of it in Redis, for good
  (`ReplayedTaskIsStranded`, `StrandedForever`). When its worker dies, the tasks that run there with it,
  replayed or not, are not recovered either (`OthersAreTakenAlong`, `TakenAlongForever`). `ReclaimOutcome`
  and `FailLostIff` say exactly when a reclaim and a failure are recorded.
- The same document says that noisy neighbours cannot freeze out quiet tenants. A task that drains its
  room is never charged, so a tenant that submits one task at a time starves the tenant next in line
  whenever it enters before it (`VisitsStarveIff`): at a tie, by its name, even against the first task of
  all (`FirstComerStarves`); under any name, if a tenant at its cap holds the least virtual time
  (`LatecomerStarves`), for ever if that tenant's slots have leaked (`LeakStarvesOthers`). `BoundedWait`
  says what each activation costs.
- Skipping a tenant at its cap breaks the lag bound, without limit (`LagUnbounded`); `PassKeepsLagIff` says
  exactly which passes keep it.
- The reaper deletes a message without lowering the tenant's in-stream counter, so a crash costs a slot
  for good (`OneCrashLeaksTheSlot`, `LeakedOutForever`); `CountExactIff` says exactly when the counter is
  right and `SlotsLostIff` which runs lose a slot.
- The rank check that should make slot acquisition safe relies on entries arriving in score order
  (`ClocksOutOfOrder`); `CapHoldsIff` says exactly when the cap holds, `SlotCap` that ordered scores
  suffice, `SlotsNearLimit` what holds always.

## Model

| member | source | states |
|---|---|---|
| FairQueue.WaitingRooms.EnqueueTask | src/fairlane/scheduler/__init__.py:25-83 | the scored enqueue moves the stored state exactly as the enqueue script's function; the score is the recorded original enqueue time, else the creation time, plus (priority - 1) * aging |
| FairQueue.WaitingRooms.PickTenant | src/fairlane/scheduler/dispatch.lua:20-48 | the scan returns the tenant of least (virtual time, name) among those below the cap, or none if there is none |
| FairQueue.WaitingRooms.PopBest | src/fairlane/scheduler/dispatch.lua:50-79 | pops the first entry of the room and removes the tenant's virtual time, or advances it by 1/(cached weight, or 1 if none) |
| FairQueue.WaitingRooms.Append | src/fairlane/scheduler/dispatch.lua:81-89 | one more in stream for the tenant, the task appended under a fresh entry id |
| FairQueue.WaitingRooms.DispatchOne | src/fairlane/scheduler/dispatch.lua:19-91 | one pass of the outer loop is one iteration of the specification |
| FairQueue.WaitingRooms.Dispatch | src/fairlane/scheduler/dispatch.lua:15-93 | the nested loops with their early exits compute the specified batch and return the dispatched ids in order |
| FairQueue.WaitingRooms.FinishTask | src/fairlane/worker/main.py:507-508 | the worker's DECR of the in-stream counter |
| QueueRuns.BatchIsPasses | src/fairlane/scheduler/dispatch.lua:18-91 | a batch is that many consecutive passes, so results about runs of passes cover interleaved batches |
| QueueRuns.ReachableIndex | src/fairlane/scheduler/__init__.py:32-45 | in every reachable state a tenant has a virtual time exactly when its room is non-empty, and every entry is its own tenant's task under its own score |
| QueueRuns.BatchOrder | src/fairlane/scheduler/dispatch.lua:50-83 | a batch takes from each tenant exactly its first tasks by (score, id), in order, leaves the rest, counts them in stream within the cap and charges k/weight |
| QueueRuns.BatchAppends | src/fairlane/scheduler/dispatch.lua:85-86 | the stream gains exactly the dispatched tasks, in order, and loses nothing |
| QueueRuns.BoundedOvertaking | src/fairlane/scheduler/__init__.py:63-71 | over any run, a task sent while another waits in the same room was enqueued (recorded original time, else creation) at most (priority difference) * aging later, hence at most 9 * aging |
| QueueRuns.PassUsesCapacity | src/fairlane/scheduler/dispatch.lua:31-48 | a pass stops exactly when no tenant has capacity and otherwise uses up one unit |
| QueueRuns.WorkConserving | src/fairlane/scheduler/dispatch.lua:19-91 | a batch sends exactly min(batch size, sum over tenants of min(waiting, free in-stream slots)) tasks |
| Fairness.PassCharges | src/fairlane/scheduler/dispatch.lua:63-79 | a pass charges the tenant it serves 1/weight by the cached weight, 1 if none is cached, unless it drains its room, and no one else |
| Fairness.PassKeepsLagIff | src/fairlane/scheduler/dispatch.lua:31-79 | a pass keeps the lag bound if and only if no tenant is below the cap, or the first that is has at most one task waiting or the least virtual time of all |
| Fairness.ReachableLag | src/fairlane/scheduler/__init__.py:35-45 | without skipped capped tenants any two active tenants satisfy vtime[a] - vtime[b] <= 1/weight[a], newly activated ones included |
| Fairness.MinNeverDecreases | src/fairlane/scheduler/__init__.py:35-45 | with or without caps the least virtual time never goes back over any run in which some tenant stays active |
| Fairness.FairShares | src/fairlane/scheduler/dispatch.lua:19-91 | two tenants that stay backlogged below the cap get nA*wB and nB*wA within wA + wB of each other over every run, wA and wB being the cached weights |
| Fairness.FairSharesReachable | src/fairlane/scheduler/dispatch.lua:19-91 | the same from a wiped Redis on, for any contended stretch after a run that skipped no capped tenant |
| Fairness.BoundedWait | src/fairlane/scheduler/dispatch.lua:31-79 | a backlogged tenant below the cap is overlooked by at most the sum over tenants not behind it of floor(weight * lead) + 1 passes, plus the same amount for each tenant that becomes active meanwhile, with its lead at that moment |
| Fairness.BatchServes | src/fairlane/scheduler/dispatch.lua:31-79 | one batch larger than that bound serves the tenant |
| FairnessLimits.LagUnbounded | src/fairlane/scheduler/dispatch.lua:31-48 | for every cap and every n a run from a wiped Redis leaves two active tenants of weight 1 n apart in virtual time, one of them skipped at its cap |
| FairnessLimits.VisitorServedForever | src/fairlane/scheduler/dispatch.lua:69-79 | a tenant that enters before the one next in line is served at once for every task of any sequence submitted one at a time, and all rooms, virtual times and counters stay as they were |
| FairnessLimits.VisitsStarveIff | src/fairlane/scheduler/__init__.py:35-45 | whoever else is active, such visits starve the tenant next in line if and only if the least virtual time is below that tenant's, or equal to it with the visitor's name first |
| FairnessLimits.FirstComerStarves | src/fairlane/scheduler/dispatch.lua:69-79 | from a wiped Redis: the first task ever submitted waits through any number of tasks of a tenant listed before its own |
| FairnessLimits.LatecomerStarves | src/fairlane/scheduler/dispatch.lua:31-79 | from a wiped Redis, under every cap: with a tenant at its cap left behind, any third tenant, whatever its name, starves the waiting one |
| Dispatcher.DispatchCycle | src/fairlane/scheduler/dispatcher.py:66-102 | a cycle dispatches the specified batch for the stream length and worker count it read |
| Dispatcher.CycleFillsToTarget | src/fairlane/scheduler/dispatcher.py:82-102 | a cycle sends exactly what batch size, free depth and caps allow and never lifts the stream above max(length read, target depth) |
| Dispatcher.CycleEnds | src/fairlane/scheduler/dispatcher.py:66-102 | a cycle sends at most the batch size and the depth left below twice the workers, and less than both only if no waiting tenant is below its cap |
| StreamAccounting.InStreamCap | src/fairlane/worker/main.py:502-508 | in every interleaving of dispatch, delivery, acknowledgement, DECR, crash and reclaim, live messages <= counter <= cap, the difference being the messages that left without DECR |
| StreamAccounting.CountExactIff | src/fairlane/worker/main.py:502-508 | after every run the counter is the number of live messages if and only if every message that left the stream has had its DECR |
| StreamAccounting.OrderlyCountIsExact | src/fairlane/worker/main.py:319-326 | in particular after atomic finishes without crash or reclaim |
| StreamAccounting.FinishIsBoth | src/fairlane/worker/main.py:319-326 | an atomic finish is an acknowledgement and its DECR |
| StreamAccounting.StepLeaksIff | src/fairlane/worker/main.py:502-508 | a step makes a count of t permanent if and only if it is the crash of a worker holding or still owing the DECR of a message of t, or the discard of one whose task row is missing |
| StreamAccounting.SlotsLostIff | src/fairlane/reaper.py:104-115 | after every run the counter can still come back to zero if and only if no step of the run was of that kind |
| StreamAccounting.LeakedOutForever | src/fairlane/reaper.py:104-115 | a tenant whose whole allowance has leaked is never dispatched again in any run |
| StreamAccounting.FloorStaysForever | src/fairlane/scheduler/dispatch.lua:35-43 | if such a tenant holds the least virtual time, that minimum never moves again in any run |
| StreamAccounting.LeakStarvesOthers | src/fairlane/scheduler/__init__.py:35-45 | and then, after any run, any visitor starves whoever is next in line above it |
| StreamAccounting.OneCrashLeaksTheSlot | src/fairlane/reaper.py:85-115 | the concrete run: one crash and reclaim under a cap of one leave an empty stream and a full counter |
| TokenBucket.Bucket.Take | src/fairlane/ratelimit/token_bucket.lua:14-45 | the script's reply and new hash are those of the specified step |
| TokenBucket.ExactLevel | src/fairlane/ratelimit/token_bucket.lua:18-33 | the level before a call is the minimum over all windows ending there of burst + refill - granted |
| TokenBucket.DeniedIff | src/fairlane/ratelimit/token_bucket.lua:32-44 | a call is denied exactly when granting it would break some window |
| TokenBucket.RemainingExact | src/fairlane/ratelimit/token_bucket.lua:32-44 | the remaining tokens in a reply are exactly what the tightest window leaves after the call; a grant quotes delay 0, a denial a positive one |
| TokenBucket.WindowLaw | src/fairlane/ratelimit/token_bucket.lua:27-36 | every window grants at most burst + rate * length |
| TokenBucket.TracelessCalls | src/fairlane/ratelimit/token_bucket.lua:27-44 | deleting any denied or zero-token calls from a log leaves every other reply unchanged |
| TokenBucket.ExpiryTransparentIff | src/fairlane/ratelimit/token_bucket.lua:22-35 | key expiry is invisible on every log if and only if burst <= expiry * rate |
| TokenBucket.RetryAfterExact | src/fairlane/ratelimit/token_bucket.lua:38-44 | after a denial and any traceless calls the same request is allowed at t if and only if the quoted delay has passed and the request is within the burst |
| Slots.SlotsNearLimit | src/fairlane/ratelimit/limiter.py:121-137 | whatever the clocks and interleaving, N processes never take the set above max_concurrent - 1 + N |
| Slots.SlotCap | src/fairlane/ratelimit/limiter.py:112-142 | with distinct tasks and scores rising in ZADD order, confirmed holders still in the set never exceed max_concurrent |
| Slots.EntryGoneIff | src/fairlane/ratelimit/limiter.py:121-142 | an entry disappears if and only if a clean-up finds it expired, its holder releases it or its process takes it back |
| Slots.ExpiryIsAnHour | src/fairlane/ratelimit/limiter.py:117-122 | the clean-up leaves exactly the entries that expire later than now; a new slot expires in an hour |
| Slots.ChecksDecide | src/fairlane/ratelimit/limiter.py:124-137 | the count passes exactly below the limit, the rank check exactly with fewer than the limit before the entry or the entry gone |
| Slots.HeldSlotStays | src/fairlane/ratelimit/limiter.py:112-142 | whatever others do before it expires, a holder that does nothing keeps its slot and its entry's score |
| Slots.SoloAcquireIff | src/fairlane/ratelimit/limiter.py:112-137 | the four commands without interference grant the slot if and only if fewer than the limit are unexpired |
| Slots.CapBrokenIff | src/fairlane/ratelimit/limiter.py:121-137 | a command lifts the confirmed holders above max_concurrent if and only if it is a rank check that passes while there are max_concurrent holders; its entry then stands before a holder's |
| Slots.CapHoldsIff | src/fairlane/ratelimit/limiter.py:112-142 | the cap holds at every point of a run if and only if no rank check passes while the slots are full |
| Slots.AddKeepsRanksIff | src/fairlane/ratelimit/limiter.py:129-135 | the invariant behind SlotCap: adding an entry keeps every holder's rank below the limit if and only if it does not enter in front of a holder of the last allowed rank |
| Slots.ClocksOutOfOrder | src/fairlane/ratelimit/limiter.py:119-137 | two clocks read in one order and added in the other give two holders of the only slot |
| Slots.SlotSet.AcquireSlot | src/fairlane/ratelimit/limiter.py:112-137 | without interference the slot is granted exactly when fewer than the limit are unexpired, and the stored set is exactly that |
| Slots.SlotSet.ReleaseSlot | src/fairlane/ratelimit/limiter.py:139-142 | removes the task's entry and nothing else |
| TaskStore.Store.ThrottleTask | src/fairlane/worker/main.py:153-169 | pending with a retry time, the lock left as it was |
| TaskStore.Store.Begin | src/fairlane/worker/main.py:186-213 | running, one more attempt, locked, whatever the status was |
| TaskStore.Store.Succeed | src/fairlane/worker/main.py:267-317 | success, its event and the side effect commit together if the worker owns the lock; otherwise no record changes |
| TaskStore.Store.RecordFailure | src/fairlane/worker/main.py:342-490 | retry or dead letter without an ownership check; a second dead letter leaves the record unchanged |
| TaskStore.Store.ReclaimRows | src/fairlane/reaper.py:141-231 | the loop treats every selected row, counts those not terminal and detects a second dead letter |
| TaskStore.Store.ReclaimTasks | src/fairlane/reaper.py:125-233 | the transaction commits all treated rows or, on a second dead letter, none; it counts those claimed or running under the dead worker that were not terminal |
| TaskStore.Store.PollAndRequeue | src/fairlane/scheduler/__init__.py:119-174 | exactly the pending rows whose retry time has come and that are not locked elsewhere lose it and get an original enqueue time and a REQUEUED event, as a run of requeue steps; each is enqueued under its score |
| TaskStore.RequeuesMoveDue | src/fairlane/scheduler/__init__.py:125-174 | a run of requeue steps changes exactly the pending rows among those named whose retry time has come, each once |
| TaskStore.Store.ReplayDeadLetter | src/fairlane/api/dlq_routes.py:131-238 | the replay with its three refusals, and the enqueue after it |
| TaskStore.Store.ReplayBulk | src/fairlane/api/dlq_routes.py:241-278 | refuses a request without filter; otherwise replays and enqueues exactly the dead tasks among the matching dead letters, in order, as a run of replay steps, and touches nothing else |
| LifecycleLaws.CompletionOutcome | src/fairlane/worker/main.py:267-317 | a completion logs one success if and only if the worker holds the lock, and then the task is Succeeded, unlocked, with one side effect more; without the lock its record is unchanged |
| LifecycleLaws.FailureOutcome | src/fairlane/worker/main.py:342-490 | a failure is retried at the given time if and only if it is transient with attempts left; else the task dies at once with its category and attempts, if it has not died before; the lock is not asked for |
| LifecycleLaws.ThrottleOutcome | src/fairlane/worker/main.py:153-169 | a refused task is pending until the time given, under the lock it had |
| LifecycleLaws.DeliverySucceeds | src/fairlane/worker/main.py:186-331 | an undisturbed delivery ends in success with one attempt and one side effect more and a free worker, whatever the task's state was |
| LifecycleLaws.ChangeIsLogged | src/fairlane/worker/main.py:203-213 | no step changes a record without logging one event of its own kind |
| LifecycleLaws.LogOnlyGrows | src/fairlane/worker/main.py:203-213 | over every run a task's log only grows |
| LifecycleLaws.SubmissionIsForLife | src/fairlane/scheduler/__init__.py:63-71 | in every later state a task has the tenant, priority, attempts and creation time it was submitted with, and is scored by that time and priority |
| LifecycleProofs.ReachableFaithful | src/fairlane/worker/main.py:186-213 | in every reachable state status, lock, attempts, retry time, dead letter and side effects are what the event log says, the log obeys the protocol, and a running task without dead letter is being executed by its lock holder |
| LifecycleProofs.ReachableFencing | src/fairlane/worker/main.py:276-317 | successes plus a held lock never exceed starts, and every success is by the worker of the latest start |
| LifecycleProofs.ReachableSideEffects | src/fairlane/worker/main.py:267-317 | a demo task's side-effect count equals its successes |
| LifecycleProofs.ReachableAccounting | src/fairlane/reaper.py:155-217 | attempts count starts, reclaims and poison pills since the last resetting replay; running means locked; dead means exactly one dead letter, with its attempts, cause and replay count |
| LifecycleProofs.ReclaimOutcome | src/fairlane/reaper.py:128-233 | a reclaim treats the tasks of the claimed messages and the dead worker's running ones; it commits if and only if none of them is out of attempts with an old dead letter, and then each that was not terminal has one attempt more, no lock, its event, and is dead or pending by its attempts, all others unchanged |
| LifecycleProofs.CollisionBlocksReclaim | src/fairlane/reaper.py:160-233 | one such task makes every reclaim of its worker change nothing |
| Stranding.ReclaimedIsRedelivered | src/fairlane/reaper.py:235-245 | a committed reclaim puts exactly the treated tasks with attempts left back into their rooms |
| LifecycleProofs.FailLostIff | src/fairlane/worker/main.py:371-490 | the failure branch is lost if and only if the failure is final and the task died before |
| Stranding.ReplayedTaskIsStranded | src/fairlane/api/dlq_routes.py:155-181 | for every max_attempts (5 by default), with and without resetting attempts: the run in which a task fails its attempts, is replayed and fails again leaves it running, locked, out of attempts, with no worker on it and neither a room entry nor an undelivered message |
| Stranding.StrandedForever | src/fairlane/reaper.py:160-233 | from there no possible run (ids are dispatched from rooms, messages received once, only pending tasks enqueued) ever changes the task's row or makes a copy of it |
| Stranding.OthersAreTakenAlong | src/fairlane/reaper.py:128-233 | from there the same worker can be executing a fresh task that never died |
| Stranding.TakenAlongForever | src/fairlane/reaper.py:128-233 | and if the worker goes silent, that task's row never changes either, as long as no other worker's reclaim claims its message |
| LifecycleProofs.ScoreIsForLifeRun | src/fairlane/scheduler/__init__.py:137-139 | a task's tenant and score never change over any run |
| Recovery.RebuildFromPostgres | src/fairlane/scheduler/__init__.py:90-116 | the loop enqueues every selected row and counts them |
| Recovery.ReconcileMissing | src/fairlane/reaper.py:278-311 | the loop enqueues exactly the pending rows without retry time older than ten seconds |
| Recovery.RebuildIsExact | src/fairlane/scheduler/__init__.py:99-109 | after a wipe each room holds exactly the tenant's due pending tasks under their scores, and just those tenants are active, at virtual time 0, in any row order |
| Recovery.RebuildCovers | src/fairlane/scheduler/__init__.py:95-109 | after a rebuild a task waits if and only if it is pending without a retry time later than now |
| Recovery.RebuildTwiceIsOnce | src/fairlane/scheduler/__init__.py:90-116 | a second rebuild on unchanged rows changes nothing |
| Recovery.RebuildKeepsOriginalScores | src/fairlane/scheduler/__init__.py:63-71 | whatever happened to a task since an earlier state, it comes back under the score it had then |
| Recovery.ReconcileHeals | src/fairlane/reaper.py:278-311 | after reconciling every overdue task waits in its room and nothing waiting is lost |
| Recovery.ReconcileCovers | src/fairlane/reaper.py:278-311 | reconciling adds exactly the pending tasks without retry time enqueued more than ten seconds ago |
| Recovery.OvertakingByCreation | src/fairlane/scheduler/__init__.py:63-71 | bounded overtaking over the rows of any reachable database state, by creation times |

## Left out

- HTTP routing, validation, CLI, metrics, logging and migrations: presentation.
- The reaper's re-delivery after a committed reclaim: the same enqueue loop as in `Recovery.ReconcileMissing`.
- Client libraries, reconnects, script reloads and failed Redis commands: commands are atomic and succeed, except that a failure anywhere in `process_task` may lead to its failure branch.
- Cancellation of a worker coroutine between delivery and DECR: the process shuts down only between messages.
- Lost updates between reading a row and writing it: a transaction reads and writes its rows at once.
- Clock regressions of the bucket: the script writes the earlier time back, which the exact law excludes by assumption.
- Floating-point rounding of virtual times and tokens, and virtual times after a weight change inside a fairness interval.
- The paging of XAUTOCLAIM: a reclaim takes any set of delivered messages, from any consumer.
- The dispatcher and reaper leases: safety rests on the atomicity of the script, not on the lease.
- Heartbeats and death detection: any worker may be reclaimed at any time, dead or merely slow.
- Backoff delays, failure classification and payload-injected failures: a retry time and a retryable verdict are parameters.
- Idempotency keys, pending quota, payload patches, DLQ listing and tenant limit updates: easy members.
- In-stream counters across a Redis wipe, which resets them while workers still owe DECRs.
- The text of tenant and worker names: they are numbered in byte order.
