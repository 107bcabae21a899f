# Distributed patterns: a Dafny model

A Dafny 4.11 model of four small protocols that the repository builds three times, in FastAPI,
NestJS and Spring Boot: a circuit breaker, a Redis lock guarding purchases, a sliding-window rate
limiter, and a job queue on a Redis stream. `dafny verify dfyconfig.toml` checks all of it.

Each protocol is a transition system over an in-memory Redis (or, for the breaker, over the
breaker's own fields) with a clock. Every Redis command, and every critical section of the
breaker, is one step; between two steps anybody else may act, time may pass, and any process may
die, or be cancelled and run only its clean-up code. A run is a sequence of such steps, so a lemma
about all runs is a lemma about all interleavings. Beside each transition system stands the
imperative code of the services, with every method proved against the functions the steps are made
of, and the commands it sends to Redis, in order, against those of the runs. Inductive proofs are
written out, and lemmas turn Dafny's own induction off.

| module | what it holds |
|---|---|
| `BreakerModel`, `CircuitBreakerObject` | the breaker as a value with its overlapping runs; the object of the three services |
| `BreakerRule`, `BreakerLoad`, `BreakerProbes`, `BreakerPolling` | invariants and the admission rule; load during an outage; probes of a HALF_OPEN period; when polling shows |
| `SerialBreaker` | the Java breaker, whose whole call is one synchronized step |
| `LockModel`, `LockRuns`, `LockService` | the commands on a lock key; its runs; the retry loop |
| `PurchaseModel`, `PurchaseDamage`, `PurchaseOrder`, `PurchaseCount`, `PurchaseService` | interleaved purchases; what holds of all of them, and when units are oversold; when they are serial; how many succeed; the routines, alone and as runs |
| `PurchaseLease` | how long a request may stall under the lock |
| `RateLimitModel`, `RateLimiterService` | the script and its runs; the script command by command |
| `RateLimitLog`, `RateLimitDisorder` | agreement with a log that forgets nothing; what is left of it when timestamps come in any order |
| `RateLimitSkew`, `RateLimitRetry`, `RateLimitBurst` | the rate under clock skew; what an answer promises; extreme runs |
| `QueueModel`, `QueueTurns`, `QueueService` | the stream, the hashes and the runs; what a worker's turn comes to; the worker programs |
| `QueueDelivery`, `QueueRecords`, `QueueOwners`, `QueueOutcome` | where entries are; what records say, and whom they name; lifecycle, acknowledgement and schedule independence |
| `QueueFate`, `QueueProgress` | entries nobody holds any more; when a run can be brought to an end |

What is trusted is the meaning of the Redis commands: SET NX PX, GET, SET, ZREMRANGEBYSCORE with
both bounds included, ZCARD, ZADD, EXPIRE, HSET, XADD, XREADGROUP with `>` and a pending list, XACK,
and atomic Lua scripts. A key with a lifetime is gone from the very millisecond its lifetime ends.

Where the code and its documentation differ, the model follows the code:

- `docs/02-distributed-patterns.md` draws HALF_OPEN as letting one probe through. That is so of the
  synchronized Java breaker (`OneProbePerEpisode`). The other two let through as many as may be in
  flight together, and any number if probes can be cancelled, so they keep to one probe exactly if
  their callers never have two calls in flight and cancel none (`MostProbes`).
- The same page says the lock makes concurrent purchases safe. It does exactly if all requests take
  the lock and never stall under it for as long as its lease, or if no two of them can ever write
  (`SafeIffPrompt`). `LeaseExpiryOversells` is a run of two locked purchases, without a crash, that
  sells one unit twice. Of a single run, units are conserved and replies serial exactly if every
  write finds the stock as its writer read it (`ConservesIffCurrent`, `SerialIffCurrent`).
- It also promises an exact global rate. With clocks up to d apart from the node's, the longest
  stretch over which the rate holds is the window less 2d (`RateIsExact`). Answers are those of a
  complete log, if timestamps arrive in order, exactly if clocks are within half a second
  (`HalfASecondIsExact`); if they may arrive in any order, exactly if there is one clock, or clocks
  are within half a second and the limit is one (`AnyOrderIsExact`).
- The FastAPI worker says it acknowledges an entry once its job is dealt with. A worker that is
  cancelled in the task, as on Ctrl-C, acknowledges it all the same, and the job says PROCESSING for
  ever. An acknowledgement means a final status exactly if that cannot happen, or in Spring
  (`AckIsFinalIffNotCancelled`).
- Nothing reclaims pending entries, so what a dying worker or an aborted Spring batch held is never
  worked on again (`DroppedIsStranded`).

## Model

| member | source | states |
|---|---|---|
| `BreakerRule.StateMeaning` | fastapi/app/cases/case4_resilience/circuit_breaker.py:48-104 | in every reachable state of overlapping calls CLOSED holds exactly if fewer failures than the threshold are counted, and an OPEN circuit is timed from the latest recorded failure |
| `BreakerRule.AdmissionRule` | fastapi/app/cases/case4_resilience/circuit_breaker.py:69-75 | after any run a call gets through exactly if the count is below the threshold or the latest recorded failure is at least the recovery time old |
| `BreakerRule.ClosedCountsStreak` | fastapi/app/cases/case4_resilience/circuit_breaker.py:90-104 | while CLOSED the count is the current row of failures, and the circuit opens with exactly the failure that makes the row as long as the threshold |
| `BreakerRule.ChangeIsStamped` | fastapi/app/cases/case4_resilience/circuit_breaker.py:48-104 | the time of the last change is stamped with every change of state and every failure that comes back while OPEN, and at no other time |
| `BreakerRule.CountMoves` | fastapi/app/cases/case4_resilience/circuit_breaker.py:90-104 | every failure adds one to the count in any state, a success starts it again unless the circuit is OPEN, and nothing else touches it |
| `BreakerLoad.OutageLoadBound` | fastapi/app/cases/case4_resilience/circuit_breaker.py:48-104 | if every call fails and at most n are in flight, a run of length T starts at most F - 1 + n + n * floor(T / R) downstream calls |
| `BreakerLoad.LoadBoundByWaits` | fastapi/app/cases/case4_resilience/circuit_breaker.py:48-104 | the same bound for a run too short for one more wait, without a division |
| `BreakerLoad.OutageLoadReached` | nestjs/src/cases/case4-resilience/circuit-breaker.service.ts:49-90 | the bound is attained, for every number of waits, by an outage of just that length |
| `BreakerProbes.ProbesAreInFlight` | fastapi/app/cases/case4_resilience/circuit_breaker.py:69-104 | if no call is cancelled, the calls let through in a HALF_OPEN period never outnumber those in flight while it lasts |
| `BreakerProbes.MostProbes` | fastapi/app/cases/case4_resilience/circuit_breaker.py:69-104 | no HALF_OPEN period has more than m probes, over all overlapping runs with at most n calls in flight, if and only if n is zero, or no call may be cancelled and n is at most m |
| `BreakerPolling.PollVisibility` | nestjs/src/cases/case4-resilience/circuit-breaker.service.ts:27-41 | asking for the state changes some later admission if and only if the circuit is OPEN and due, an earlier call is still in flight, the threshold is at least two and the recovery time positive |
| `BreakerPolling.PollInvisible` | nestjs/src/cases/case4-resilience/circuit-breaker.service.ts:27-70 | otherwise every continuation admits the same calls with and without the poll |
| `BreakerPolling.PollSeen` | nestjs/src/cases/case4-resilience/circuit-breaker.service.ts:59-81 | in that case a late success, a failure and one more call tell the two apart |
| `SerialBreaker.PollingIsInvisible` | spring-boot/src/main/java/com/playground/distributed/case4/CircuitBreaker.java:27-103 | any number of polls put anywhere into a synchronized run change no verdict and no state after a completed call |
| `SerialBreaker.OneProbePerEpisode` | spring-boot/src/main/java/com/playground/distributed/case4/CircuitBreaker.java:49-90 | each HALF_OPEN period has at most one downstream call, over any run, unless an action dies without an exception |
| `SerialBreaker.EpisodesCountProbes` | spring-boot/src/main/java/com/playground/distributed/case4/CircuitBreaker.java:49-70 | a period starts on entering HALF_OPEN, and a call that runs while HALF_OPEN adds exactly one to it |
| `SerialBreaker.HalfOpenAfterExecute` | spring-boot/src/main/java/com/playground/distributed/case4/CircuitBreaker.java:59-69 | a completed call leaves HALF_OPEN exactly if it was a probe whose action died without running a handler |
| `SerialBreaker.ExecuteIsArriveThenFinish` | spring-boot/src/main/java/com/playground/distributed/case4/CircuitBreaker.java:49-70 | a synchronized call is an arrival and its own return with nothing in between, in the overlapping model |
| `SerialBreaker.SerialIsOverlapping` | spring-boot/src/main/java/com/playground/distributed/case4/CircuitBreaker.java:27-103 | every synchronized run, polls included, is one of the overlapping runs with the same breaker and the same calls let through |
| `CircuitBreakerObject.CircuitBreaker.UpdateStateIfNeeded` | fastapi/app/cases/case4_resilience/circuit_breaker.py:48-54 | moves the fields as the breaker value moves, both clock readings included |
| `CircuitBreakerObject.CircuitBreaker.OnSuccess` | fastapi/app/cases/case4_resilience/circuit_breaker.py:90-97 | the same for a recorded success |
| `CircuitBreakerObject.CircuitBreaker.OnFailure` | fastapi/app/cases/case4_resilience/circuit_breaker.py:99-104 | the same for a recorded failure |
| `CircuitBreakerObject.CircuitBreaker.Admit` | fastapi/app/cases/case4_resilience/circuit_breaker.py:69-75 | the first critical section is the arrival step of any overlapping run, and says whether the call is let through |
| `CircuitBreakerObject.CircuitBreaker.Complete` | fastapi/app/cases/case4_resilience/circuit_breaker.py:78-88 | the second critical section is the return step of any overlapping run |
| `CircuitBreakerObject.CircuitBreaker.GetState` | nestjs/src/cases/case4-resilience/circuit-breaker.service.ts:27-30 | the observer updates before it answers |
| `CircuitBreakerObject.CircuitBreaker.Execute` | spring-boot/src/main/java/com/playground/distributed/case4/CircuitBreaker.java:49-70 | the synchronized call is the serial step; a blocked call gets the fallback's result or the circuit's error and changes nothing, a call whose action raised gets the fallback's result or else the exception and is counted, and any other gets what its action came to |
| `LockRuns.LockConservation` | fastapi/app/cases/case1_lock/lock_service.py:8-14 | every token that ever held a lock was released once, expired once or holds it now, so acquires = true releases + expiries + (1 if held) |
| `LockRuns.AcquireTakesFreeKey` | fastapi/app/cases/case1_lock/lock_service.py:46-53 | an acquire gets the key, for its time to live, exactly if it is free |
| `LockRuns.ReleaseFreesOwnKey` | fastapi/app/cases/case1_lock/lock_service.py:8-14 | a release empties the key exactly if it carries the token |
| `LockRuns.TimeFreesKey` | fastapi/app/cases/case1_lock/lock_service.py:46-49 | time empties the key at the end of its lease and not before |
| `LockRuns.LeaseSurvives` | fastapi/app/cases/case1_lock/lock_service.py:46-64 | a lease ends before its time only by a release with its own token, whatever others acquire or release |
| `LockService.DistributedLock.Acquire` | fastapi/app/cases/case1_lock/lock_service.py:39-54 | alone on the key, the loop succeeds exactly if the sleeps needed to outlive the present lease are fewer than the attempts, after exactly that many sleeps, and otherwise leaves no key of its own; with no delay it succeeds exactly if the key is free at once |
| `LockService.SleepsIsLeast` | fastapi/app/cases/case1_lock/lock_service.py:46-54 | the sleeps needed are the rounded-up quotient of the remaining lease and the delay |
| `LockService.EnoughAttempts` | fastapi/app/cases/case1_lock/lock_service.py:46-54 | n attempts are enough exactly if the last, n - 1 delays on, comes when the lease is over |
| `LockService.DistributedLock.Release` | fastapi/app/cases/case1_lock/lock_service.py:56-64 | nothing happens without a token, and otherwise only a key that carries it is deleted |
| `PurchaseDamage.BoundedDamage` | fastapi/app/cases/case1_lock/lock_service.py:89-120 | in every run of locked and unlocked purchases with stalls, expiries and crashes the stock stays between 0 and its start, and stock plus units sold never falls below the start |
| `PurchaseDamage.NothingFromNothing` | fastapi/app/cases/case1_lock/lock_service.py:83-103 | in no run from a stock that was never set is anything sold or the stock set, and every reply that is not a timeout is out of stock with nothing left |
| `PurchaseDamage.UnwindFreesOwnLease` | fastapi/app/cases/case1_lock/lock_service.py:73-75 | an exception under the lock gives back the request's own lease and touches nothing else |
| `PurchaseDamage.CrashLeavesLease` | fastapi/app/cases/case1_lock/lock_service.py:46-49 | a crash changes neither lease nor stock, and whatever the others do the lease stays until its time is up |
| `PurchaseDamage.LeaseExpiryOversells` | fastapi/app/cases/case1_lock/lock_service.py:95-103 | two locked purchases sell one unit twice when the first outlives its lease |
| `PurchaseDamage.ConservesIffCurrent` | fastapi/app/cases/case1_lock/lock_service.py:95-120 | in every run of positive purchases, locked or not, stock plus units sold is the initial stock if and only if every write found the stock as its writer read it |
| `PurchaseLease.SafeIffPrompt` | fastapi/app/cases/case1_lock/lock_service.py:39-103 | for positive quantities, all runs whose writes come at most h ms after the attempt that won the lock conserve units, and all of them are answered as atomic purchases, if and only if no two requests can ever write, or all take the lock and h is less than its time to live |
| `PurchaseService.FiveSeconds` | fastapi/app/cases/case1_lock/lock_service.py:39-103 | with the time to live in use that is, for two or more locked requests, exactly if nobody stalls under the lock for 5000 ms |
| `PurchaseLease.PromptIsInLease` | spring-boot/src/main/java/com/playground/distributed/case1/DistributedLockService.java:92-114 | whoever won the lock less than its time to live ago and is still inside owns it, so prompt writes are in lease |
| `PurchaseDamage.BalanceByChance` | fastapi/app/cases/case1_lock/lock_service.py:113-120 | with quantities of zero the books can balance although writes were stale |
| `PurchaseOrder.SerialIffCurrent` | fastapi/app/cases/case1_lock/lock_service.py:96-102 | the replies are those of atomic purchases in order of effect if and only if every write found the stock as its writer read it |
| `PurchaseOrder.LeaseKeepsCurrent` | fastapi/app/cases/case1_lock/lock_service.py:89-103 | a write inside the writer's lease finds the stock as read |
| `PurchaseOrder.Linearizable` | fastapi/app/cases/case1_lock/lock_service.py:39-103 | if writes land inside leases, every interleaving is a run of atomic purchases with the same replies and stock, each answered request in it exactly once, and no unit lost or sold twice |
| `PurchaseOrder.SerialReply` | fastapi/app/cases/case1_lock/lock_service.py:95-103 | each reply in such a history is a sale exactly if there was enough stock, and tells the stock that is left |
| `PurchaseOrder.RealTimeOrder` | nestjs/src/cases/case1-lock/lock.service.ts:76-95 | in that order a request answered before another began comes first |
| `PurchaseCount.ExactSaleCount` | fastapi/app/cases/case1_lock/lock_service.py:89-103 | of N answered one-unit purchases exactly min(N, S) succeed and S - min(N, S) units are left |
| `PurchaseCount.RefusalsStand` | spring-boot/src/main/java/com/playground/distributed/case1/DistributedLockService.java:92-114 | nobody was refused for stock that is still there at the end |
| `PurchaseService.PurchaseWithLock` | spring-boot/src/main/java/com/playground/distributed/case1/DistributedLockService.java:92-114 | alone, a lease with more than 950 ms to go makes it time out after 1000 ms and change nothing; otherwise it is one atomic purchase that leaves the lock free, reading the stock after getting the lock and releasing after the write; the reply tells the stock, and a key that was never set is no stock |
| `PurchaseService.PurchaseWithoutLock` | spring-boot/src/main/java/com/playground/distributed/case1/DistributedLockService.java:119-132 | alone, it is one atomic purchase, 10 ms long if it sells; the reply tells the stock, and a key that was never set is no stock |
| `PurchaseService.LockedVisitIsARun` | spring-boot/src/main/java/com/playground/distributed/case1/DistributedLockService.java:92-114 | in any world, whatever the other requests are about, a locked purchase that nobody interrupts is a run that asks for the same commands in the same order as the routine, ends where it ends, and has its write in lease |
| `PurchaseService.UnlockedVisitIsARun` | fastapi/app/cases/case1_lock/lock_service.py:106-120 | the same for a purchase without the lock |
| `RateLimitModel.LifetimeOutlastsWindow` | fastapi/app/cases/case1_lock/rate_limiter.py:25 | the key's lifetime is at least one second and less than two longer than the window |
| `RateLimitModel.SetWithinLimit` | fastapi/app/cases/case1_lock/rate_limiter.py:16-29 | whatever the clocks say, the sorted set never holds more than `limit` entries |
| `RateLimitLog.SetRefinesLedger` | fastapi/app/cases/case1_lock/rate_limiter.py:8-30 | with timestamps in order and clocks within half a second, every decision and remaining count is that of a log never pruned and never expiring |
| `RateLimitLog.HalfASecondIsExact` | fastapi/app/cases/case1_lock/rate_limiter.py:25-50 | for whole-second windows that holds if and only if the clocks are within 500 ms |
| `RateLimitDisorder.AnyOrderIsExact` | fastapi/app/cases/case1_lock/rate_limiter.py:16-50 | for whole-second windows, callers within `skew` of the node who come in any order are answered as by the log if and only if the limit is zero, or there is no skew, or the limit is one and skew at most 500 ms |
| `RateLimitDisorder.OutOfOrderOverAdmits` | fastapi/app/cases/case1_lock/rate_limiter.py:16-26 | for every limit above one, two clocks a millisecond apart make the set admit a call the log refuses |
| `RateLimitSkew.RateUnderSkew` | fastapi/app/cases/case1_lock/rate_limiter.py:16-28 | if every clock is within d of the node's, no stretch of node time of length w - 2d or less has more than `limit` admissions |
| `RateLimitSkew.RateIsExact` | fastapi/app/cases/case1_lock/rate_limiter.py:16-28 | stretches of a positive length keep the limit in all such runs if and only if they are no longer than w - 2d |
| `RateLimitRetry.RemainingIsExact` | fastapi/app/cases/case1_lock/rate_limiter.py:22-28 | after any run, an answer with r remaining means that exactly the next r calls of that instant pass, counting down |
| `RateLimitRetry.RetryTime` | fastapi/app/cases/case1_lock/rate_limiter.py:16-28 | after any run ending in a refusal, retries are refused until the oldest entry of the set is a window old or the key expires, and the first one from then on passes |
| `RateLimitRetry.RetryTimeInOrder` | nestjs/src/cases/case1-lock/rate-limiter.service.ts:10-30 | with timestamps in order and clocks within half a second, expiry never comes first and the moment is that of the oldest admission that still counts |
| `RateLimiterService.SortedSetKey.Eval` | spring-boot/src/main/java/com/playground/distributed/case1/RateLimiterService.java:21-35 | the commands of the script in turn amount to the script as one step |
| `RateLimiterService.CheckRateLimit` | fastapi/app/cases/case1_lock/rate_limiter.py:33-64 | the window in seconds becomes milliseconds and a lifetime of just one second more |
| `QueueDelivery.DeliveryConservation` | fastapi/app/cases/case2_queue/worker.py:35-67 | with crashes anywhere, entries are undelivered, pending under one consumer or acknowledged, no two workers hold the same one, and none is started twice |
| `QueueDelivery.DeliveredInOrder` | fastapi/app/cases/case2_queue/worker.py:35-45 | over any run entries are delivered in the order of XADD, none left out and none twice, and every worker has its own in that order |
| `QueueDelivery.StreamAppends` | nestjs/src/cases/case2-queue/queue.service.ts:37-63 | the stream grows by the one entry of a publishing producer, or of a foreign one, and in no other way |
| `QueueDelivery.ReadTakes` | spring-boot/src/main/java/com/playground/distributed/case2/JobWorker.java:42-49 | FastAPI and NestJS are given one entry at a time, Spring all there are |
| `QueueRecords.RunRecords` | fastapi/app/cases/case2_queue/worker.py:46-67 | in every reachable state, cancelled workers included, each record says what the place of its entry calls for |
| `QueueOutcome.RecordsAreWhole` | fastapi/app/cases/case2_queue/queue_service.py:47-97 | exactly the submitted jobs have a hash, it is whole, and id, type, payload and creation time are as submitted |
| `QueueOwners.RecordsNameTheirConsumer` | fastapi/app/cases/case2_queue/queue_service.py:47-97 | in every reachable state a record names no worker exactly while it is PENDING, and from then on the consumer its entry was delivered to |
| `QueueOutcome.StepLifecycle` | fastapi/app/cases/case2_queue/queue_service.py:79-97 | a step takes a record at most one status forward |
| `QueueOutcome.JobLifecycle` | fastapi/app/cases/case2_queue/worker.py:54-64 | between any two moments a record only moves from PENDING to PROCESSING to COMPLETED or FAILED, a final status keeps its result, and the submitted part never changes |
| `QueueOutcome.AckImpliesOutcome` | fastapi/app/cases/case2_queue/worker.py:60-67 | an acknowledged entry's job says COMPLETED or FAILED, as its task returned or raised, with the text of either, exactly if its worker was not cancelled in the task, and PROCESSING otherwise; in Spring always COMPLETED |
| `QueueOutcome.AckIsFinalIffNotCancelled` | fastapi/app/cases/case2_queue/worker.py:54-67 | every acknowledged job is final in every run if and only if no worker can be cancelled, or the service is Spring's |
| `QueueOutcome.ScheduleIndependence` | fastapi/app/cases/case2_queue/worker.py:23-69 | two drained runs on the same jobs agree on every status, result, type and payload, for any workers, any interleaving and either kind of service |
| `QueueProgress.DrainsIffManageable` | spring-boot/src/main/java/com/playground/distributed/case2/JobWorker.java:38-88 | with at least one worker, every run without losses can be continued without losses until nothing is left to do; in Spring if and only if no submitted task throws |
| `QueueFate.GoneIsForever` | fastapi/app/cases/case2_queue/worker.py:35-42 | once an entry is in nobody's hands, no continuation delivers or acknowledges it or changes the record of its job |
| `QueueFate.DroppedIsStranded` | spring-boot/src/main/java/com/playground/distributed/case2/JobWorker.java:38-88 | whatever a worker holds when it dies or an exception drops its batch stays pending for ever, its job's record as it is at that moment |
| `QueueFate.LostIsPending` | spring-boot/src/main/java/com/playground/distributed/case2/JobQueueService.java:57-72 | a job whose entry its producer fails to add is never given to anybody and says PENDING for ever |
| `QueueService.UpdateJobStatus` | fastapi/app/cases/case2_queue/queue_service.py:79-97 | writes the status and only those of the other fields that the service writes |
| `QueueService.EnqueueJob` | spring-boot/src/main/java/com/playground/distributed/case2/JobQueueService.java:45-72 | a whole PENDING hash, every field given, without result or worker, and only then one stream entry |
| `QueueService.ProcessOneJob` | fastapi/app/cases/case2_queue/worker.py:23-69 | says whether there was an entry, takes exactly one, records COMPLETED or FAILED with result and worker, acknowledges it and touches nothing else |
| `QueueService.HandleMessage` | fastapi/app/cases/case2_queue/worker.py:44-67 | the loop body, command by command: PROCESSING, then COMPLETED or FAILED, then the acknowledgement |
| `QueueService.HandleRecord` | spring-boot/src/main/java/com/playground/distributed/case2/JobWorker.java:55-83 | the loop body, command by command: PROCESSING and, unless the task threw, COMPLETED and then the acknowledgement |
| `QueueService.ProcessStream` | spring-boot/src/main/java/com/playground/distributed/case2/JobWorker.java:38-88 | gives out every entry there is and handles them in order; those before the first that throws are acknowledged, the others stay pending, and if none throws all jobs are COMPLETED |
| `QueueTurns.OneJobTurn` | fastapi/app/cases/case2_queue/worker.py:23-69 | the same of the turn as a function: one entry, its outcome in words, and nothing else |
| `QueueTurns.StreamTurn` | spring-boot/src/main/java/com/playground/distributed/case2/JobWorker.java:38-88 | the same of the Spring turn as a function |
| `QueueTurns.BatchAcks` | spring-boot/src/main/java/com/playground/distributed/case2/JobWorker.java:55-88 | exactly the entries of a batch that come before the first that throws are acknowledged |
| `QueueTurns.EntryIsTurned` | nestjs/src/cases/case2-queue/worker.service.ts:73-91 | a turn at one entry ends as COMPLETED or FAILED and acknowledged or, in Spring when the task threw, as PROCESSING and pending, with the worker named and no other record touched |
| `QueueTurns.TurnOutcome` | nestjs/src/cases/case2-queue/worker.service.ts:66-91 | a turn leaves the job's outcome, result and worker in its record, touches no other record, and acknowledges the entry unless a Spring action threw |
| `QueueService.BatchIsARun` | spring-boot/src/main/java/com/playground/distributed/case2/JobWorker.java:55-84 | in any world, whatever the other workers and the producers are about, a worker's program followed without a break is one of the runs of the transition system, with the same commands in the same order |
| `QueueService.EnqueueIsARun` | fastapi/app/cases/case2_queue/queue_service.py:58-64 | so is a producer's, the hash first and the entry after it |
| `QueueModel.StepIsItsCommand` | fastapi/app/cases/case2_queue/queue_service.py:58-64 | a step of the transition system writes with one command at most, and nothing but that changes what is in Redis |
| `QueueService.OthersDoNotDisturb` | fastapi/app/cases/case2_queue/worker.py:46-67 | between two commands of a worker any run of the others leaves its entry and its next command as they were, and that command possible |

## Left out

- HTTP routes, request defaults, configuration, lifespan, nginx, Docker and the demo scripts: each would add only one-branch members.
- Case 3, WebSocket and Pub/Sub: socket traffic and set bookkeeping.
- Redis failures and lost replies: commands are steps that succeed. A process that dies or is cancelled between two commands is modelled.
- Exceptions inside a NestJS turn other than a failed job, and `InterruptedException` in the Java retry loop; under the lock it is an `Unwind`.
- The two time stamps of a fresh FastAPI or NestJS job are taken as one reading of the clock.
- JSON encoding: payloads are opaque strings, and `process_task` is an arbitrary function of type and payload that may fail.
- Consumer-group creation: the group exists before the first entry.
- Setting the stock again in mid-run, and quantities below zero.
- Several items, clients or limits at once: keys of different items and clients are disjoint, so one of each is followed; a client keeps one limit and one window.
- Clocks that go back, for the breaker and for the Redis node.
- Reentrant breaker calls.
- The FastAPI breaker runs the fallback of a fast-failed call while it holds its lock. That only delays other calls, so the model allows more interleavings than the code.
- Rounding of floating-point seconds: breaker times are real numbers.
- Members of the sorted set that collide: the random suffix is taken to be fresh.
- Negative limits, windows and retry counts.
- OutageLoadBound: the recovery time is taken to be positive, since without one an OPEN circuit blocks nothing.
