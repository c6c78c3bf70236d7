# Verified model of the cluster rate limiter

One primary process hands out permits to many workers over IPC, either as a semaphore (at most N callers
at once) or as a sliding window (at most N starts per window). This project models the two arbiters, the
ring buffers under them, the worker side, the boot handshake and the routing maps, and proves what the
whole promises.

## Layout

| file | what it is |
|---|---|
| `Int32Queue.dfy`, `Float64SortedQueue.dfy` | the two ring buffers, as classes over arrays |
| `SortedLog.dfy`, `ParallelQueues.dfy` | facts about sorted logs; two queues read as one |
| `DurationModel.dfy` | the sliding-window limiter as a state machine; its invariant and the proof that every event keeps it |
| `DurationTheorems.dfy` | what every run guarantees, and the exact limit of the advertised bound |
| `DurationProgress.dfy` | what each event achieves: slots come back, attempts run out, every waiting request can be granted |
| `PrimaryDurationLimiter.dfy` | the class; each method is one synchronous stretch and is proved to be one step of the machine |
| `SemaphoreModel.dfy` | the semaphore handlers as functions; their invariants over every run |
| `PrimarySemaphoreLimiter.dfy` | the class with its re-entrant handlers, proved equal to those functions |
| `SemaphoreProtocol.dfy` | primary, workers, messages, timers and crashes as one transition system |
| `SemaphoreProgress.dfy` | permits go round and come back, failed sends are repeated and run out |
| `Handshake.dfy`, `BaseWorkerLimiter.dfy`, `WorkerSemaphoreLimiter.dfy`, `WorkerRules.dfy`, `RequestIds.dfy` | the worker side |
| `Registries.dfy`, `Routing.dfy` | the routing maps and the system-wide routing argument |
| `Environment.dfy`, `Common.dfy` | the clock, the view of `cluster.workers`, 32-bit storage |

The classes are proved against the functions `Step`, `Drain` and so on: each method says that the object's
abstract value after the call is that function of the value before it. The promises are then proved about
those functions over all runs. A worker's limiter object is tied to the whole protocol the same way: its
pending map and id counter make exactly the steps that `WorkerViewSteps` projects out of the protocol, and the
class and the protocol share the rules that decide what a grant or a failed release leads to.

## How the system is read

- Time is counted in integer ticks of any length (`ticksPerMs`); `performance.now()` never goes backwards
  and does not return the same value forever.
- One event is one synchronous stretch of an event loop. The async grant loop of the duration limiter is
  cut at its `await` points, so any other event may happen while it sleeps or is about to resume.
- A send has exactly one outcome: delivered, reported as failed (then not delivered), or thrown
  synchronously. A message accepted for a worker that then dies may vanish.
- Worker ids are never reused, and a dead worker runs no callers. `isDead()` and the `exit` event may lag
  behind the actual death by any amount.
- In `SemaphoreProtocol` every id comes from its worker's generator. A worker asks for a permit only while none
  of its outstanding requests lies a whole number of id cycles (2^31 requests) back; `NextIdIsFreshExactly` shows that
  this is exactly when the next id is in use nowhere. `SemaphoreModel` does not assume it.
- Worker ids fit in 32 bits.

## Where code and documentation differ

- `README.md:270` says the duration mode never exceeds N starts in any trailing window. The code keeps the
  original timestamp on a retry (`PrimaryDurationLimiter.js:151`), so a permit can take effect more than the
  50 ms jitter after it was recorded. `DurationTheorems.JitterCoversExactly` gives the exact limit: the
  statement holds for all runs if and only if no permit is later than the jitter.
  `RetryBreaksTheAdvertisedLimit` is the smallest failing run.
- `BaseWorkerLimiter.js` documents `ready()` as resolving once the primary has confirmed. Two orders of
  events break this without ever letting a permit through wrongly: a late send error of an earlier attempt
  drops the trackers of a retry (`LateErrorOrphansRetry`), and a handshake request that throws stays rejected
  even if the reply arrives (`ThrownRequestStaysRejected`). `WaiterServedExactly` and `ReplyVerdict` say
  exactly when the reply serves the waiting caller.
- Grants are attempted four times (`PrimarySemaphoreLimiter.js:65`), releases five times
  (`BaseWorkerLimiter.js:264`).

## Model

| member | source | states |
|---|---|---|
| DurationTheorems.WindowBound | rateLimiter/primary/PrimaryDurationLimiter.js:70-132 | refund safety: after any mix of grants, prunes, failures and oldest-entry refunds, no closed window of the configured length holds more than N grants that were not given up |
| DurationModel.RefundDominates | rateLimiter/primary/PrimaryDurationLimiter.js:119-132 | for every threshold in the current window, dropping the oldest entry for a failed grant keeps the live grants at or above it no more than the log entries at or above it, even if the failed grant's own entry was dropped by an earlier refund |
| DurationModel.GrantKeeps | rateLimiter/primary/PrimaryDurationLimiter.js:94-106 | a grant after a prune that left room keeps the domination and the bound of every window |
| DurationModel.PruneKeeps | rateLimiter/primary/PrimaryDurationLimiter.js:70-84 | sweeping and either going to sleep or leaving keeps log order, domination, windows and history |
| DurationModel.StepKeeps | rateLimiter/primary/PrimaryDurationLimiter.js:70-186 | every event, in every interleaving at the await points, keeps the invariant |
| DurationTheorems.Spacing | rateLimiter/primary/PrimaryDurationLimiter.js:70-111 | t[i+N] - t[i] > window for all successive grants that were not given up, so for all grants when no send fails |
| DurationTheorems.LongRunRate | rateLimiter/primary/PrimaryDurationLimiter.js:70-111 | an interval of length L holds at most N * (L / window + 1) live grants |
| DurationTheorems.JitterCoversExactly | rateLimiter/primary/PrimaryDurationLimiter.js:55 | with jitter ticks added to the advertised duration, every run whose permits take effect at most `delay` late keeps to N starts per advertised duration, if and only if delay <= jitter |
| DurationTheorems.RetryBreaksTheAdvertisedLimit | rateLimiter/primary/PrimaryDurationLimiter.js:150-151 | a run with one retried grant in which two permits take effect within the advertised duration although N is one |
| DurationTheorems.LockIsSound | rateLimiter/primary/PrimaryDurationLimiter.js:90-111 | at every interleaving the lock is free exactly when nothing waits, the log never overflows, and a resumed loop finds a request and a free slot |
| DurationTheorems.FirstComeFirstServed | rateLimiter/primary/PrimaryDurationLimiter.js:94-103 | over every run, the requests decided so far followed by those waiting are exactly those of its ACQUIRE messages, each once and in arrival order |
| DurationTheorems.RefundFindsAnEntry | rateLimiter/primary/PrimaryDurationLimiter.js:122-130 | a refund of a grant that has not expired always has an entry to drop |
| DurationProgress.GiveUpFreesASlot | rateLimiter/primary/PrimaryDurationLimiter.js:119-132 | in every reachable state, giving up a grant that has not expired drops exactly the oldest log entry, so that a full log has room; giving up an expired one drops none; nothing else changes but the grant is recorded as failed |
| DurationProgress.ContinueDecides | rateLimiter/primary/PrimaryDurationLimiter.js:94-107 | one turn of the loop decides exactly the first waiting request, skipped if and only if its worker is gone; a throwing send gives a slot back; then the loop ends, or sweeps and sleeps exactly if the log is full |
| DurationProgress.ArriveWaits | rateLimiter/primary/PrimaryDurationLimiter.js:178-186 | every ACQUIRE joins the end of the queue, and starts the loop exactly if it is idle |
| DurationProgress.WakeSweeps | rateLimiter/primary/PrimaryDurationLimiter.js:72-83 | a wake-up drops exactly the entries older than the window, and goes back to sleep exactly if the log is still full |
| DurationProgress.AttemptMovesOn | rateLimiter/primary/PrimaryDurationLimiter.js:145-158 | an error before the fourth leads to the next attempt, a retry timer sends that attempt, a success delivers; nothing else changes |
| DurationProgress.AttemptsRunOut | rateLimiter/primary/PrimaryDurationLimiter.js:145-158 | over a whole run a grant sees at most four error callbacks and three retry timers, and keeps its request and its original timestamp |
| DurationProgress.SleepIsJustified | rateLimiter/primary/PrimaryDurationLimiter.js:74-81 | while the loop sleeps on a full log, at least N grants were stamped less than a window before it armed its timer |
| DurationProgress.EveryRequestCanBeGranted | rateLimiter/primary/PrimaryDurationLimiter.js:90-111 | from every reachable state the run can go on so that every waiting request is granted, in order |
| DurationTheorems.ExitPreservesEverything | rateLimiter/primary/PrimaryDurationLimiter.js:60 | a worker's exit changes no reachable state of the duration limiter |
| DurationTheorems.PruneEnds | rateLimiter/primary/PrimaryDurationLimiter.js:72-83 | while any other events go on, the prune goes back to sleep fewer than window/least times, where every timer runs, from its arming, for `least` ticks or until the oldest entry expires; with `least` the timer cap this is the timer the code asks for, and one that covers the window is enough |
| PrimaryDurationLimiters.PrimaryDurationLimiter.SweepUntilFreeOrBlocked | rateLimiter/primary/PrimaryDurationLimiter.js:72-83 | the loop terminates, including the spin at zero remaining time, with the entries inside the window and either room in the log or the time to wait, capped at 2147483647 ms |
| PrimaryDurationLimiters.PrimaryDurationLimiter.GrantPendingRequests | rateLimiter/primary/PrimaryDurationLimiter.js:90-111 | nothing while the lock is held, otherwise one pass of the loop head |
| PrimaryDurationLimiters.PrimaryDurationLimiter.ContinueAfterPrune | rateLimiter/primary/PrimaryDurationLimiter.js:94-107 | the stretch after the awaited prune is the Continue step: dequeue, skip or grant, possibly refund, go round, and ask for the timer that the new state sleeps in |
| PrimaryDurationLimiters.PrimaryDurationLimiter.RefundSlot | rateLimiter/primary/PrimaryDurationLimiter.js:119-132 | drops the oldest entry unless the failed grant has expired (what that achieves is `GiveUpFreesASlot`), then restarts the loop if it is not running, with its timer |
| PrimaryDurationLimiters.PrimaryDurationLimiter.SendCallback | rateLimiter/primary/PrimaryDurationLimiter.js:145-158 | success, retry with the original timestamp in 50 ms, or refund when the worker is dead or four attempts failed; the clock is read only for a refund |
| PrimaryDurationLimiters.PrimaryDurationLimiter.HandleHotMessage | rateLimiter/primary/PrimaryDurationLimiter.js:178-186 | an ACQUIRE is queued and starts an idle loop, which asks for exactly the timer it sleeps in; other opcodes change nothing |
| PrimaryDurationLimiters.PrimaryDurationLimiter.constructor | rateLimiter/primary/PrimaryDurationLimiter.js:51-62 | an empty limiter whose window is the duration plus 50 ms |
| SemaphoreProtocol.AtMostMaxExecuting | rateLimiter/primary/PrimarySemaphoreLimiter.js:58-178 | end-to-end safety: in every reachable state of primary, workers and channels at most N callers execute on live workers, each holding its own lease |
| SemaphoreProtocol.EveryLeaseAccountedFor | rateLimiter/worker/BaseWorkerLimiter.js:206-340 | tokens and leases add up to N; a live worker's lease is exactly one of grant under way, caller running, release under way, release reported lost; any other lease belongs to a worker whose exit is not handled yet |
| SemaphoreProtocol.SettledMissesExactlyTheLost | rateLimiter/worker/BaseWorkerLimiter.js:206-287 | once nothing is under way on live workers and all deaths are known, N minus exactly the lost releases of live workers are free: all N tokens are back if and only if no live worker lost a release, and requests wait only if every token is lost |
| SemaphoreProtocol.TimedOutNeverRuns | rateLimiter/worker/BaseWorkerLimiter.js:206-213 | from the moment a request is neither pending nor running, a caller that runs under its id in any continuation belongs to a later request of the worker, however late the grant arrives |
| SemaphoreProtocol.GrantIsAnswered | rateLimiter/worker/BaseWorkerLimiter.js:325-339 | in every reachable state a grant that reaches a live worker finds its lease held, and starts the caller if and only if the request still waits for it; otherwise the worker sends or reports a release |
| SemaphoreProtocol.OrphanedTokenReturns | rateLimiter/worker/BaseWorkerLimiter.js:329-335 | in every reachable state a grant under way to a live worker that no longer waits for it can arrive, runs no caller, is answered with a release, and once that is read the lease is gone, tokens and leases add up to N and no token idles while requests wait |
| SemaphoreProtocol.NextIdIsFreshExactly | rateLimiter/worker/BaseWorkerLimiter.js:192-197 | the next id of a worker is in use nowhere (not pending, queued, leased, in a message, a timer or a caller) if and only if none of its outstanding requests lies a whole number of cycles back; so whenever all of them lie less than one cycle back, and in any case for the first 2^31 requests |
| SemaphoreProtocol.WorkerViewSteps | rateLimiter/worker/BaseWorkerLimiter.js:186-223 | every event of the protocol changes a worker's pending map and id counter as the limiter object in that worker does, or not at all |
| SemaphoreProtocol.AttemptsAreBounded | rateLimiter/worker/BaseWorkerLimiter.js:253-272 | in every reachable state attempts are numbered below four for grants and below five for releases |
| SemaphoreProgress.GrantAttemptsRunOut | rateLimiter/primary/PrimarySemaphoreLimiter.js:58-74 | over any stretch of a run in which a request stays leased, at most four error callbacks and three retry timers come for its grant |
| SemaphoreProgress.EndedGrantFreesItsToken | rateLimiter/primary/PrimarySemaphoreLimiter.js:60-74 | the fourth error, an error of a dead worker or a retry that throws leaves the request neither leased nor being sent; tokens and leases still add up to N and no token idles while requests wait |
| SemaphoreProgress.GrantIsRepeated | rateLimiter/primary/PrimarySemaphoreLimiter.js:65-67 | an earlier error leads to the next attempt and its timer sends that attempt, the lease staying |
| SemaphoreProgress.OnlyItsOwnEventsEndALease | rateLimiter/primary/PrimarySemaphoreLimiter.js:140-163 | in every reachable state a lease survives every event but the reading of its own release, the end of its own transmission, and its worker being found dead |
| SemaphoreProgress.DeadWorkerKeepsNothing | rateLimiter/primary/PrimarySemaphoreLimiter.js:150-163 | a worker found dead, by its exit or by a failed send to it, keeps no lease, and its tokens are back or with waiting requests |
| SemaphoreProgress.ReleaseAttemptsRunOut | rateLimiter/worker/BaseWorkerLimiter.js:253-272 | over any stretch of a run in which a release is under way, at most five error callbacks and four retry timers come for it |
| SemaphoreProgress.ReleaseIsRepeated | rateLimiter/worker/BaseWorkerLimiter.js:262-271 | an error of a release leads to the next attempt until the fifth has failed, and only then to the report |
| SemaphoreProgress.SettledCallerReleases | rateLimiter/worker/WorkerSemaphoreLimiter.js:91-98 | in every reachable state a caller that settles sends its release, which is reported lost if and only if the channel does not take it; nothing else changes |
| SemaphoreProgress.SettledTokenReturns | rateLimiter/worker/WorkerSemaphoreLimiter.js:93-97 | that release can be read, which ends the lease and frees a token unless a waiting request takes it |
| SemaphoreProgress.PermitGoesRound | rateLimiter/worker/WorkerSemaphoreLimiter.js:91-98 | from every reachable state with a token free, a live worker's call can be granted, runs while its lease is held, and after it has settled leases, tokens, messages and queue are exactly what they were |
| SemaphoreProgress.TimedOutGoesRound | rateLimiter/worker/BaseWorkerLimiter.js:206-213 | the same for a call that times out before its grant: no caller runs, and the books end up as they were |
| SemaphoreProgress.FailedAcquireLeavesNothing | rateLimiter/worker/BaseWorkerLimiter.js:215-221 | a request whose ACQUIRE is reported as not sent is afterwards referred to nowhere |
| SemaphoreProgress.AskSendsExactly | rateLimiter/worker/BaseWorkerLimiter.js:199-222 | a call sends its ACQUIRE if and only if the channel takes it, under the next id of its worker, and changes nothing at the primary |
| SemaphoreProtocol.StepKeeps | rateLimiter/worker/WorkerSemaphoreLimiter.js:91-98 | every event of the transition system keeps the invariant, including acquire, run and the release in the finally block |
| SemaphoreProtocol.DrainKeeps | rateLimiter/primary/PrimarySemaphoreLimiter.js:97-117 | the grant loop keeps every request in exactly one place and every lease of a live worker held |
| SemaphoreModel.HandlersKeepTheLimit | rateLimiter/primary/PrimarySemaphoreLimiter.js:97-178 | over every run with any ids: tokens >= 0, tokens + leases <= N, nothing waits while a token is free, and the requests decided and waiting are those of the ACQUIRE messages, each once and in order |
| SemaphoreModel.ConservedExactlyWhenIdsAreFresh | rateLimiter/primary/PrimarySemaphoreLimiter.js:124-148 | tokens + leases == N after a run if and only if no grant of the run repeated an id still leased |
| SemaphoreModel.RepeatedIdLosesAToken | rateLimiter/primary/PrimarySemaphoreLimiter.js:127-131 | an id granted twice and released twice leaves one token lost |
| SemaphoreModel.DrainServesAPrefix | rateLimiter/primary/PrimarySemaphoreLimiter.js:101-112 | the loop decides a prefix of the queue in order, sends exactly that prefix's grants to reachable workers, and stops early only without tokens |
| SemaphoreModel.ExitIsIdempotent | rateLimiter/primary/PrimarySemaphoreLimiter.js:154-163 | after an exit the worker holds no lease, and a second exit changes nothing |
| SemaphoreModel.ReclaimTotal | rateLimiter/primary/PrimarySemaphoreLimiter.js:154-158 | reclaiming removes exactly that worker's leases and gives back as many tokens |
| PrimarySemaphoreLimiters.LeasesOfWorker | rateLimiter/primary/PrimarySemaphoreLimiter.js:157 | the size of a worker's id set is the number of leases it stands for |
| PrimarySemaphoreLimiters.PrimarySemaphoreLimiter.GrantPendingRequests | rateLimiter/primary/PrimarySemaphoreLimiter.js:97-117 | terminates although its sends can re-enter it; drains the queue, or does nothing under the lock |
| PrimarySemaphoreLimiters.PrimarySemaphoreLimiter.GrantRequest | rateLimiter/primary/PrimarySemaphoreLimiter.js:58-93 | a send under way, or on a throw the lease released or the dead worker reclaimed |
| PrimarySemaphoreLimiters.PrimarySemaphoreLimiter.DecrementWorkerUsage | rateLimiter/primary/PrimarySemaphoreLimiter.js:140-148 | gives a leased token back once and restarts the loop; an unknown id changes nothing; no empty set stays in the map |
| PrimarySemaphoreLimiters.PrimarySemaphoreLimiter.ReclaimDeadWorkerTokens | rateLimiter/primary/PrimarySemaphoreLimiter.js:154-158 | the map loses the worker, the counter regains its leases |
| PrimarySemaphoreLimiters.PrimarySemaphoreLimiter.SendCallback | rateLimiter/primary/PrimarySemaphoreLimiter.js:60-74 | success, retry in 50 ms, release after four attempts, or reclaim when the worker is dead |
| PrimarySemaphoreLimiters.PrimarySemaphoreLimiter.HandleHotMessage | rateLimiter/primary/PrimarySemaphoreLimiter.js:168-178 | ACQUIRE queues and drains, RELEASE releases, GRANT is ignored |
| Float64SortedQueues.Float64SortedQueue.BinarySearchLowerBound | lib/Float64SortedQueue.js:84-99 | on any contents it stops at a boundary; on sorted contents that is the number of items below the target |
| Float64SortedQueues.Float64SortedQueue.RemoveBefore | lib/Float64SortedQueue.js:101-113 | drops a prefix up to a boundary; from a sorted log it keeps exactly the items not below the target |
| Float64SortedQueues.Float64SortedQueue.Enqueue | lib/Float64SortedQueue.js:49-57 | appends at any wrap position, or reports QUEUE_FULL exactly when full and changes nothing |
| Float64SortedQueues.ShiftHalvesExactly | lib/Float64SortedQueue.js:90 | the 32-bit shift halves a number if and only if it is below 2^31 |
| SortedLog.BoundaryIsExact | lib/Float64SortedQueue.js:103-112 | in a sorted log a boundary is unique: it counts the items below the target, and what follows is what must be kept |
| Int32Queues.Int32Queue.Enqueue | lib/Int32Queue.js:19-26 | appends the 32-bit value of its argument to the FIFO, growing when full |
| Int32Queues.Int32Queue.Dequeue | lib/Int32Queue.js:28-34 | removes and returns the oldest value, nothing when empty |
| Int32Queues.Int32Queue.Grow | lib/Int32Queue.js:43-54 | doubles the ring and keeps the contents in order from any wrap position |
| Int32Queues.Int32Queue.GrowthIsAmortised | lib/Int32Queue.js:43-54 | growth has copied fewer than two cells per enqueue |
| Handshake.VerdictIsStable | rateLimiter/worker/BaseWorkerLimiter.js:292-375 | once completed, the current promise is settled, and verdict and number never change, whatever arrives or fires later |
| Handshake.AcquiresAreMatched | rateLimiter/worker/BaseWorkerLimiter.js:186-198 | every ACQUIRE is sent after the modes matched and carries the number of the primary's first reply |
| Handshake.ReplyVerdict | rateLimiter/worker/BaseWorkerLimiter.js:347-374 | the reply resolves the current promise if and only if the modes match and the tracked promise, if any, is not one whose request threw |
| Handshake.WaiterServedExactly | rateLimiter/worker/BaseWorkerLimiter.js:354-373 | the reply settles a promise somebody awaits, the current one or an earlier one, if and only if the trackers refer to that promise; otherwise its timer is still armed |
| Handshake.EveryWaiterHasATimer | rateLimiter/worker/BaseWorkerLimiter.js:303-313 | nobody waits for ever: in every reachable state an unsettled promise has a timer that can fire and rejects it |
| Handshake.BootSucceeds | rateLimiter/worker/BaseWorkerLimiter.js:342-375 | as long as the first request has neither timed out nor been reported as not sent, a first reply in the right mode resolves the constructor's promise and installs the number; one in the other mode rejects it for that reason and installs nothing |
| Handshake.FailureAllowsRetry | rateLimiter/worker/BaseWorkerLimiter.js:303-320 | a time-out or a send error rejects the waiting promise for its reason and leaves nothing tracked |
| Handshake.RetryCanSucceed | rateLimiter/worker/BaseWorkerLimiter.js:292-323 | an attempt starts if and only if none is tracked and no reply has come; a reply in the right mode then resolves its own promise |
| Handshake.AttemptCanFailAtOnce | rateLimiter/worker/BaseWorkerLimiter.js:296-321 | without a channel, or when the request throws, an attempt is rejected at once for that reason; only the latter stays tracked, until its timer fires |
| Handshake.LateErrorOrphansRetry | rateLimiter/worker/BaseWorkerLimiter.js:303-320 | a run in which a late send error makes a retry's caller time out although the handshake succeeded |
| Handshake.ThrownRequestStaysRejected | rateLimiter/worker/BaseWorkerLimiter.js:314-321 | after a first request that threw, a matching reply completes the handshake but the promise stays rejected for good |
| BaseWorkerLimiters.BaseWorkerLimiter.AcknowledgePrimary | rateLimiter/worker/BaseWorkerLimiter.js:292-323 | the current promise while an attempt is under way or done, otherwise a new attempt |
| BaseWorkerLimiters.BaseWorkerLimiter.HandleColdMessage | rateLimiter/worker/BaseWorkerLimiter.js:342-375 | the first reply settles the handshake and, if the modes match, installs and routes the number |
| BaseWorkerLimiters.BaseWorkerLimiter.AcquirePermit | rateLimiter/worker/BaseWorkerLimiter.js:186-223 | uses the next request id, becomes pending, and sends it to the assigned number only after a match |
| BaseWorkerLimiters.BaseWorkerLimiter.HandleHotMessage | rateLimiter/worker/BaseWorkerLimiter.js:325-340 | in both modes a grant runs a request if and only if that request waits for it; an unawaited grant is given back, by a release to the assigned number, if and only if the mode is semaphore |
| WorkerSemaphoreLimiters.WorkerSemaphoreLimiter.FinishRun | rateLimiter/worker/WorkerSemaphoreLimiter.js:93-97 | whether the caller returned or threw, its permit is released and its outcome passed on |
| WorkerRules.ReleaseFate | rateLimiter/worker/BaseWorkerLimiter.js:253-286 | however the attempts end, a release is received at the first attempt that is not answered with an error, and reported as lost exactly when one of the first five is refused after errors only or all five err; there is never a sixth |
| RequestIds.SameIdExactly | rateLimiter/worker/BaseWorkerLimiter.js:192-197 | two requests of a worker carry the same id if and only if they lie a whole number of cycles apart |
| RequestIds.IdsDistinct | rateLimiter/worker/BaseWorkerLimiter.js:192-197 | any 2^31 consecutive request ids are pairwise distinct |
| RequestIds.EveryIdIsIssued | rateLimiter/worker/BaseWorkerLimiter.js:72-75 | within one cycle every value of [-2^30, 2^30 - 1] is issued |
| RequestIds.IdsCycle | rateLimiter/worker/BaseWorkerLimiter.js:192-197 | after 2^31 requests the ids repeat |
| RequestIds.IdsFitTheQueue | lib/Int32Queue.js:19-34 | every request id survives storage in the 32-bit queue |
| Routing.HotMessagesStayWithTheirProvider | rateLimiter/primary/registry/primaryLimiterRegistry.js:58-93 | a hot message sent by a worker's limiter for P reaches the primary limiter for P or nobody, and a grant of P's limiter reaches that worker's limiter for P or nobody |
| Routing.GrantsArrive | rateLimiter/worker/registry/workerLimiterRegistry.js:57-82 | a grant under the number a worker's limiter learned does reach that limiter |
| Routing.MapsAgree | rateLimiter/primary/registry/primaryLimiterRegistry.js:105-129 | the number of the limiter registered for P routes to P in every reachable state |
| Routing.RepliesAreTruthful | rateLimiter/primary/BasePrimaryLimiter.js:177-216 | every boot configuration under way names the provider and the mode its number was constructed with |
| Routing.ConstructionIsAnnounced | rateLimiter/primary/BasePrimaryLimiter.js:162-216 | a new limiter is routed under its number and announced, with number and mode, to every worker its greeting reaches |
| Routing.HandshakeInstallsRoute | rateLimiter/worker/BaseWorkerLimiter.js:342-374 | a worker's limiter that asks for its provider is answered; it learns the number if and only if the modes match, and the number then leads to it in its worker and to its provider's limiter at the primary |
| Routing.MatchedSidesHearEachOther | rateLimiter/primary/registry/primaryLimiterRegistry.js:58-93 | what a client sends under the number it knows reaches its provider's limiter while that is published, what that limiter sends to the worker reaches the client, and both are in the same mode |
| Registries.PublishIsAllOrNothing | rateLimiter/primary/BasePrimaryLimiter.js:162-175 | a newly numbered limiter is refused only for its provider id or a failed greeting; then nothing changed, otherwise both maps lead to it and still agree |
| Registries.PrimaryRegistry.PublishLimiter | rateLimiter/primary/BasePrimaryLimiter.js:162-175 | register by provider, register by number, greet; roll both back on a later failure |
| Registries.PrimaryRegistry.GenerateApiUniqueNumber | rateLimiter/primary/registry/primaryLimiterRegistry.js:132-140 | the numbers handed out so far are always 1, 2, 3 and so on, so a new number is none of the earlier ones |
| Registries.ExecuteProactiveHandshake | rateLimiter/primary/BasePrimaryLimiter.js:177-216 | every worker whose send does not fail is sent the boot configuration |

## Left out

- Timestamps are exact ticks: the rounding of doubles and the truncation of timers below a millisecond are not modelled.
- Int32Queue with an initial capacity of 0, which stores nothing and never grows; the limiters only use the default of 1024.
- Float64SortedQueues.Float64SortedQueue.constructor: requires fewer than 2^31 cells; with more the shift in the binary search no longer halves (`ShiftHalvesExactly`), and what the search then returns is not modelled.
- PrimaryDurationLimiters.PrimaryDurationLimiter.constructor: requires a limit below 2^31 for the same reason, although the validator accepts any positive integer.
- Argument validation, the factories in `index.js`, `config` strings and malformed messages: their results are preconditions.
- Event listeners, warnings and error texts; they report failures and do not touch permit state. A listener that calls back into the limiter is not modelled.
- The message signature and length test of the two routers; messages are taken to be the library's own.
- The callers passed to `run` are opaque: they start, and they may settle.
- Worker processes in duration mode: a permit's effect is one event of the primary's state machine, at the time it takes effect.
- Prompt re-granting after a refund: a sleeping prune is not woken by it, and no bound on that wait is claimed beyond the end of the sleep.
- The heap side of async functions: a suspended call is a program counter, and a promise is a position in a list.
