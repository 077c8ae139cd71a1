# Protocols of the multi-tenant ERP backend, modelled and proved in Dafny

The project models the stateful parts of the backend and proves what they keep over whole runs. Each component has a
file with its operations, written as a class whose methods update its fields the way the original does, and tied by
their contracts to functions on the component's state. Where the original runs operations concurrently, a second file
interleaves those same functions, one critical section, Redis command or SQL statement at a time, and proves the
results about every run, of any length and with any number of participants.

| files | component |
|---|---|
| `TenantPool.dfy`, `TenantPoolRuns.dfy`, `TenantPoolClock.dfy` | the reference-counted pool of tenant database handles: singleflight opening, release, idle and LRU eviction, removal |
| `BillingQueue.dfy`, `BillingQueueRuns.dfy`, `BillingQueueSteps.dfy`, `BillingQueueRetries.dfy`, `BillingQueueOutcomes.dfy`, `BillingQueueOrder.dfy`, `BillingQueueLocks.dfy`, `BillingQueueCrashes.dfy` | the Redis billing queue: claim, per-key lock, ack, retry timers, dead letter, crashes and recovery |
| `ExchangeRate.dfy`, `ExchangeRateRuns.dfy`, `ExchangeRateAnswers.dfy`, `ExchangeRateRaces.dfy` | exchange rates: cache, central table, provider, fallback to an earlier date, cooldown |
| `PrepaymentLedger.dfy`, `PrepaymentRuns.dfy` | prepayment vouchers, the applications that consume them and the reversals that restore them, in cents, and reversals that overlap with other transactions |
| `EventHub.dfy`, `EventHubRuns.dfy`, `EventHubMisses.dfy` | the fan-out of billing events to server-sent-event clients |
| `RateLimit.dfy` | the sliding-window limiter with its in-place compaction of aliased slices |
| `FleetLease.dfy`, `FleetRuns.dfy` | leases, marks, target bumps, stale recovery, drift reconciliation and backoff of schema migrations, and the life of a migration worker |
| `DocSeries.dfy` | document correlatives under a row lock |
| `BillingState.dfy`, `BillingLifecycle.dfy`, `BillingStatus.dfy`, `BillingStatusMeaning.dfy`, `BillingStatusRuns.dfy`, `Text.dfy` | the fiscal state machine of an invoice, its evidence and repair, and the sale status that never degrades |
| `Wrappers.dfy` | Option and Max |

Money is in integer cents and time in integer nanoseconds; dates are ordered integers. The clock, the answers of the
provider and of the job processor, map iteration order and the scheduler are parameters or nondeterministic choices,
so the results hold for all of them.

## What does not hold as promised

Some of the code's comments and natural expectations are false. Each is stated here with the member that proves it and
with the condition under which the promise does hold.

- A shared flight can hand out a closed handle: one waiter inserts, releases and is evicted before the other waiter
  inserts the same handle. From every reachable state with two such waiters some run gets there
  (`SharedFlightCanReturnClosedHandle`). Handles of unshared flights are safe in every run (`UnsharedHandleOwnedOnce`,
  `ClosedAndUsedIsShared`).
- That no processor call outlives the lock's TTL is not enough for mutual exclusion, because DEL is unconditional and
  comes after the ack (`ProcessorBoundIsNotEnough`). No second worker can lock the key of a running one exactly as long
  as no running worker's deadline is reached and no other worker deletes its key (`OneProcessorIffNoFoul`). It is enough
  that every section from SETNX to DEL fits the TTL (`OneProcessorPerKey`), and an owner that is late anywhere in it can
  be followed by two processors at once (`LateDeleteAdmitsTwo`).
- Recovery pops a job and then pushes it back, so a crash in between loses it, besides the jobs in timers and handovers
  that any crash loses (`CrashesAreAccounted`). A recovery that no crash meets restores the list in its order
  (`CrashIsRecovered`).
- The backoff is the doubled base up to 30 minutes exactly while the largest shift fits in 63 bits
  (`DelayDoublesIff`); the first shift that does not fit is negative, so its timer fires at once. With the default base
  of 30 s that is attempt 29 (`DelayWraps`). A limit BILLING_MAX_RETRIES <= 0 still gives every job one run
  (`ProcessorRunsAreBounded`).
- `ForceRefresh` is documented as asking the provider again whatever the cooldown. It skips the cooldown, but a live
  cache entry or a row confirmed for its own date still answers without asking (`ForcedAsksIff`).
- A date that has a usable rate can lose it. A rate confirmed under another day's date is asked for again as soon as the
  cache forgets it, and a failed attempt replaces it by none if no earlier date has a confirmed rate
  (`FailedAttemptLosesRate`, `TodaysRateIsLost`). When a lookup does end with a rate is `LookupAnswersIff`.
- The attempt count of a rate row is forgotten: whenever an earlier confirmed rate exists to borrow, a failed attempt
  ends with the count at 1 (`AttemptsAfterFailure`).
- The fallback upsert is meant not to overwrite a confirmed rate, but it reads and then saves. A rate confirmed for its
  own date survives every failed attempt and fallback if and only if no fallback upsert has found an older row for that
  date and not yet saved (`OwnRowSurvivesIff`); a lookup that borrows while the holder of the lock confirms can lose the
  rate (`LateFallbackOverwrites`).
- A hub client can receive a message published before it subscribed if and only if its tenant's Redis loop lags at that
  moment (`OldMessagesIffLoopLags`).
- A client can miss messages: its stream is complete if and only if no delivery skipped one or found it with 16 waiting
  (`StreamIsCompleteIff`).
- The limiter reads the clock before it takes its mutex, so two calls of a key can be decided in the other order. For
  every limit of 2 or more and every such step back, however small, one window can get one admission more than allowed
  (`StepBackOverfills`). The bound holds whatever the times exactly for limits up to 1 (`BoundsEveryClockIff`), and for
  every limit if the times of the key's own calls do not decrease (`AtMostMaxPerWindow`).
- The lease does not keep a tenant to one migration worker, even if every worker finishes in time. The deferred release
  clears the lock of the next worker when the mark has cleared it before (`DeferredReleaseAdmitsSecond`); a worker that
  fails releases first and records the failure, clearing the lock again, when the next one may be running
  (`LateFailureAdmitsSecond`); and one that was refused the lease records that as a failure, which clears the lock of the
  holder (`RefusedWorkerAdmitsSecond`). No second worker can get in exactly as long as nobody else's update clears the
  lock of a tenant being migrated and no lease runs out (`OneWorkerIffNoFoul`).
- A worker that fails reads the attempts and writes them in two statements, so two overlapping failures count as one
  (`OverlappingFailuresCountOnce`).
- A completion that proves a version below a target raised in the meantime hides the tenant from the list
  (`NoneHiddenIffAllProve`), whatever recoveries and crashes follow, until someone reconciles, retries, marks or acquires
  it or raises the target (`HiddenUntilRevealed`). The tenant of a worker that crashes under its lease always comes back
  if it is behind (`CrashedWorkersTenantComesBack`).
- A voucher emitted a second time gets its full balance back; the ledger stays right exactly if nothing un-reversed
  consumes it (`EmitKeepsLedgerIffUnconsumed`).
- A second reversal of a sale changes nothing after the first (`SecondReversalIsNoOp`), but two that overlap both read the
  applications before they lock a voucher and both refund. The clamp at the original amount hides that only if nothing
  else consumes the voucher (`DoubleReversalBreaks`, `LedgerSurvivesIff`).
- The sale status is said never to degrade. That holds for reconciles that take turns (`StatusNeverDegrades`) or do not
  write over each other's writes (`UndisturbedReachHighest`). A reconcile writes what it computed from its earlier read,
  so of two that overlap the slower one can lower the status (`OverlapDegrades`). Some order of the outstanding writes
  lowers it exactly if one of them stores less than the status or less than another (`OutstandingWritesLowerIff`).
- The status inferred for an invoice without pipeline text is meant to be the one its columns came from. It is if and only
  if the evidence matches the state and the state was a stage after DRAFT or an end (`InferenceRecoversIff`).
- A refused pipeline transition becomes UNKNOWN, from where the same request passes (`AskingTwiceIsEnough`). In the
  detector of inconsistent invoices the second branch is dead, and OBSERVED without evidence is accepted as long as no
  other column claims success (`ConsistentMeans`).

## Model

| member | source | states |
|---|---|---|
| TenantPool.TenantDBManager.AcquireHit | pkg/database/tenant_manager.go:90-104 | a hit hands out the pool's handle, counts one more user and renews the use time; an invalid name or a miss changes nothing |
| TenantPool.TenantDBManager.AcquireLand | pkg/database/tenant_manager.go:114-132 | an opened handle is inserted, after evicting a least recently used idle entry if the pool is full; if another caller was faster, its handle is used and an unshared one of ours closed |
| TenantPool.TenantDBManager.EvictLRULocked | pkg/database/tenant_manager.go:222-240 | for any iteration order the victim is idle and no idle entry was used earlier; none is chosen only if all are in use; exactly the victim is dropped and closed once |
| TenantPool.TenantDBManager.Release | pkg/database/tenant_manager.go:134-151 | the counter goes down by one and never below zero; an unknown name changes nothing |
| TenantPool.TenantDBManager.TryRemove | pkg/database/tenant_manager.go:158-177 | removal is over exactly when the entry is gone or idle, and an idle entry is dropped and closed once |
| TenantPool.TenantDBManager.EvictIdle | pkg/database/tenant_manager.go:204-220 | deleting while iterating drops exactly the idle entries unused since the cutoff, and closes each of their handles once |
| TenantPoolRuns.RefCountIsHolders | pkg/database/tenant_manager.go:90-240 | in every interleaving, shared flights included, inUse is the number of current holders and all of them hold the entry's handle |
| TenantPoolRuns.ReleaseFindsItsEntry | pkg/database/tenant_manager.go:134-151 | a release by a holder never meets a missing entry or a zero counter: the underflow warning is unreachable |
| TenantPoolRuns.StepSparesHeldHandles | pkg/database/tenant_manager.go:114-132 | no step of any kind closes a handle that a caller holds before or after it |
| TenantPoolRuns.UnsharedHandleOwnedOnce | pkg/database/tenant_manager.go:106-132 | a handle from an unshared flight is in the pool, or with exactly one caller in flight, or closed exactly once, whatever other flights do |
| TenantPoolRuns.ClosedAndUsedIsShared | pkg/database/tenant_manager.go:106-119 | a closed handle that the pool offers or a caller holds can only come from a shared flight |
| TenantPoolRuns.SharedFlightCanReturnClosedHandle | pkg/database/tenant_manager.go:106-131 | from every reachable state where two waiters of one flight have yet to insert, whatever else the pool holds, a run lets the second return a closed handle |
| TenantPoolRuns.PoolsNeverExceedPeak | pkg/database/tenant_manager.go:124-131 | with a limit, open pools never outnumber the larger of the limit and the highest number of pools in use at once |
| TenantPoolClock.LastUsedIsLastEntrance | pkg/database/tenant_manager.go:95-129 | in every run, the use time of an entry is the time at which the last caller that found or inserted it had entered acquire |
| TenantPoolClock.PoolDropsIff | pkg/database/tenant_manager.go:124-240 | a step drops a pool if and only if nobody holds it and the step removes it, is an idle tick whose cutoff is after that last use, or evicts it to make room in a full pool |
| TenantPoolClock.EvictsLeastRecentlyUsed | pkg/database/tenant_manager.go:222-240 | in every run the eviction to make room takes, of the pools nobody holds, the one whose last caller entered first, and none exactly if all are held |
| TenantPoolClock.RecentUseSurvives | pkg/database/tenant_manager.go:204-240 | the pool used last, by a hit or an insertion, outlives any idle tick up to that use, and is evicted only if all others are held |
| TenantPoolClock.PoolNamesAreSafe | pkg/database/tenant.go:13-76 | every pool ever open is named by the prefix and more, in lower-case letters, digits and underscores |
| BillingQueue.Redis.Enqueue | pkg/billingqueue/queue.go:114-132 | a job without key gets tenant:sale, and is pushed at the left end |
| BillingQueue.KeyIdentifiesSale | pkg/billingqueue/queue.go:118-120 | two jobs enqueued without a key get the same one if and only if they are for the same sale of the same tenant |
| BillingQueue.Redis.Claim | pkg/billingqueue/queue.go:181-193 | the oldest payload moves from the queue to the processing list in one step, or nothing changes when the queue is empty |
| BillingQueue.Redis.TryLock | pkg/billingqueue/queue.go:212-217 | the lock is given exactly if no unexpired one stands, and then stands until now + TTL |
| BillingQueue.Redis.ScheduleRetry | pkg/billingqueue/queue.go:261-268 | the payload leaves processing first, then a timer waits the 64-bit shifted base, capped at 30 minutes |
| BillingQueue.Redis.ProcessOne | pkg/billingqueue/queue.go:206-242 | a claimed job leaves processing and goes to exactly one of queue, dead list, timer or completion, with the incremented attempt, and its lock is gone afterwards |
| BillingQueue.Redis.RecoverStuckProcessing | pkg/billingqueue/queue.go:153-171 | recovery terminates, empties the processing list and puts its non-empty payloads before the queue in their order |
| BillingQueue.DelayDoublesUpToCap | pkg/billingqueue/queue.go:261-268 | while base * 2^attempt fits in 63 bits the delay is that product capped at 30 minutes, and never shrinks with the attempt |
| BillingQueue.DelayDoublesIff | pkg/billingqueue/queue.go:263-266 | for every base and attempt k: the delays of all attempts up to k are the doubled base capped at 30 minutes if and only if base * 2^k fits in 63 bits |
| BillingQueue.DelayWraps | pkg/billingqueue/queue.go:263-266 | an instance: with a base of 30 s the first delay is a minute, that of attempt 28 half an hour, and that of attempt 29 negative |
| BillingQueueRuns.EveryPayloadInOnePlace | pkg/billingqueue/queue.go:114-290 | in every reachable state of any number of workers, each payload ever enqueued is in exactly one of queue, timer, dead list, done or one worker's hands, even among equal payloads |
| BillingQueueRuns.ProcessingIsWhatWorkersHold | pkg/billingqueue/queue.go:173-268 | the processing list is, with repetitions, exactly what the workers have claimed and not acked, although LREM removes by value |
| BillingQueueRuns.CrashLosesTimersAndHandovers | pkg/billingqueue/queue.go:153-171 | after a crash in any state, recovery restores everything pending except timers and the ack-to-requeue handovers; what was dead and un-acked comes back too |
| BillingQueueCrashes.CrashesAreAccounted | pkg/billingqueue/queue.go:153-268 | over any run with any number of crashes, also in the middle of recovery, a ticket is in one place, plus those that were dead and un-acked at a crash, less those that a crash met in a timer, a handover or between a recovery's pop and push |
| BillingQueueCrashes.CrashIsPossible | pkg/billingqueue/queue.go:153-171 | in every state such a run reaches, what the workers held accounts for the processing list in its order |
| BillingQueueCrashes.CrashIsRecovered | pkg/billingqueue/queue.go:153-171 | after a crash in any such state, recovery left alone ends with processing empty, what it held before the queue in its order, and nothing more lost |
| BillingQueueSteps.ProcessOneIsARun | pkg/billingqueue/queue.go:206-268 | one worker's steps in the interleaved system can do exactly what processOne does undisturbed, for every job, outcome and state |
| BillingQueueRetries.ProcessorRunsAreBounded | pkg/billingqueue/queue.go:225-241 | a job enqueued at attempt 0 is run at most max(1, BILLING_MAX_RETRIES) times in every run |
| BillingQueueRetries.WaitingJobsAreBelowLimit | pkg/billingqueue/queue.go:225-241 | whatever waits is the job enqueued under its ticket, in the queue below the limit if and only if it was enqueued below the limit, in a timer always |
| BillingQueueRetries.DeadAfterExactlyTheLimit | pkg/billingqueue/queue.go:226-234 | a job is in the dead list only after exactly as many failed runs as its limit allows |
| BillingQueueRetries.BackoffSeparatesRuns | pkg/billingqueue/queue.go:261-268 | in every run, when a job that failed before can be started again, at least the delay of its attempt has passed since its last start |
| BillingQueueRetries.BackoffDoubles | pkg/billingqueue/queue.go:261-268 | that delay is at least base * 2^attempt up to the cap, with the attempt counting the runs, if the longest shift fits |
| BillingQueueOutcomes.JobsGoWhereOutcomesSay | pkg/billingqueue/queue.go:224-242 | every job ever enqueued, in every run: it is done, or about to be, if and only if its processor failed some times and then succeeded; dead, or about to be, if and only if it only failed and its failures reach the limit; and in the queue, a timer or a worker's hands if and only if it only failed and they do not |
| BillingQueueOutcomes.LockLastsTTL | pkg/billingqueue/queue.go:209-217 | in every run an owner's lock stands under its job's key until the TTL after the start of its processor |
| BillingQueueOrder.FirstInFirstOut | pkg/billingqueue/queue.go:127-181 | in every run, when a job is claimed, whatever stays in the queue and never left it was enqueued later |
| BillingQueueOrder.RetryFiresAfterDelay | pkg/billingqueue/queue.go:261-268 | an armed retry can return to the queue exactly from the end of the delay of its attempt on |
| BillingQueueLocks.OneProcessorIffNoFoul | pkg/billingqueue/queue.go:212-225 | no state of a run lets a second worker lock the key of a running one if and only if no step reaches a running worker's deadline or deletes its key for it; then no two workers run the processor for one key |
| BillingQueueLocks.OpenIffSecondRuns | pkg/billingqueue/queue.go:212-217 | a running worker's key is open exactly if a worker that has claimed a job with it runs beside it after its next try |
| BillingQueueLocks.OneProcessorPerKey | pkg/billingqueue/queue.go:212-225 | if no section from SETNX to DEL outlives the TTL, two workers never run the processor for one idempotency key |
| BillingQueueLocks.LateDeleteAdmitsTwo | pkg/billingqueue/queue.go:216-241 | from any state where an owner, wherever between SETNX and DEL, is past its deadline and two workers have claimed its key, both come to run the processor at once without the clock moving |
| BillingQueueLocks.ProcessorBoundIsNotEnough | pkg/billingqueue/queue.go:216-241 | for every job and TTL a run in which every processor call ends in time still has two of them running for one key |
| ExchangeRate.CacheService.FindLastConfirmedBefore | internal/exchangerate/repository.go:36-48 | finds the confirmed row with the greatest date before the given one, or that there is none |
| ExchangeRate.CacheService.SaveFallback | internal/exchangerate/repository.go:76-100 | writes the fallback and keeps the fetch time, unless the row is confirmed for its own date, which stays as it is |
| ExchangeRate.CacheService.RecordFailure | internal/exchangerate/service.go:237-259 | a failed attempt leaves a fallback borrowed from the last earlier confirmed rate, or an unavailable row, to be retried in an hour |
| ExchangeRate.CacheService.BuildFallbackFromPrevious | internal/exchangerate/service.go:268-315 | answers with the current row's rate or the last earlier confirmed one, recording what was borrowed |
| ExchangeRate.CacheService.WaitForPeer | internal/exchangerate/lock.go:45-58 | a lookup without the lock takes the first result that any of its looks at the cache finds |
| ExchangeRate.CacheService.Fetch | internal/exchangerate/service.go:154-235 | under the lock: cache, provider, then table and cache on a rate, or the recorded failure and an earlier rate; without the lock a peer's result, an earlier rate or an error |
| ExchangeRate.CacheService.Get | internal/exchangerate/service.go:70-126 | the whole lookup from cache to table to provider to fallback, with its writes and whether the provider was asked |
| ExchangeRateRuns.LookupKeepsProvenance | internal/exchangerate/service.go:70-315 | one lookup, whatever cache, lock and provider do, keeps every stored and answered rate backed by a quote for that date or, as a fallback, an earlier one |
| ExchangeRateRuns.RatesWereQuoted | internal/exchangerate/service.go:70-126 | after any lookups from an empty store, confirmed rows carry the provider's quote for that date, fallback rows one for an earlier date, answers likewise, and no row is pending |
| ExchangeRateRuns.OwnRateIsFinal | internal/exchangerate/service.go:86-91 | once a rate is confirmed for its own date, no later lookups, forced or not, change the row or ask the provider for that date |
| ExchangeRateRuns.FailedAttemptIsNotRepeated | internal/exchangerate/service.go:128-152 | after a failed attempt at t no unforced lookup for that date asks before t + 1 h, unless a forced one got a rate in between |
| ExchangeRateRuns.ForcedAsksIff | internal/exchangerate/service.go:61-103 | a forced lookup asks the provider if and only if the cache has no live result when it starts, the row is not confirmed for its own date and the lock is free |
| ExchangeRateRuns.AttemptsAfterFailure | internal/exchangerate/service.go:172-176 | a failed attempt counts up only while no earlier confirmed rate exists; otherwise the count ends at 1 |
| ExchangeRateAnswers.LookupAsksIff | internal/exchangerate/service.go:61-167 | for every store and request: the provider is asked if and only if no live cache entry is met, the date is not settled, the lookup is forced or past the cooldown and for today, later or a date without confirmed row, and the lock is free |
| ExchangeRateAnswers.AskedRateIsAnswered | internal/exchangerate/service.go:191-222 | a rate that the provider gives is the answer and the whole new row of its date, and no other row changes |
| ExchangeRateAnswers.CachedRateServes | internal/exchangerate/redis_cache.go:38-58 | then lookups with a working cache get that answer without any effect for two days if it is today's, for thirty days if not |
| ExchangeRateAnswers.FailedLookupBorrowsLatest | internal/exchangerate/service.go:268-315 | after a failed attempt the answer is the rate of the latest earlier confirmed date, under that date and marked as a fallback |
| ExchangeRateAnswers.FailedAttemptIsRecorded | internal/exchangerate/service.go:178-259 | the whole row a failed attempt leaves: borrowed from that date, or unavailable with one attempt more, its error, and a retry after an hour |
| ExchangeRateAnswers.LookupAnswersIff | internal/exchangerate/service.go:70-126 | in every store that lookups produce, the answer has a rate if and only if it is cached or settled, an earlier date has a confirmed one, a wanted fetch or the peer doing it gives one, or no fetch is wanted and the row has one |
| ExchangeRateAnswers.RowIsAnswered | internal/exchangerate/service.go:108-113 | without a fetch a usable row is answered as it is and kept, marked as a fallback exactly if it is not the date's own |
| ExchangeRateAnswers.RefusalSaysWhy | internal/exchangerate/service.go:120-235 | an answer without a rate is the provider's error, the notice that a fetch is under way, or an unavailable result, by what went wrong |
| ExchangeRateAnswers.BorrowedIsCachedBriefly | internal/exchangerate/service.go:115-118 | a rate borrowed because no fetch was due is cached for exactly five minutes |
| ExchangeRateAnswers.FailedAttemptLosesRate | internal/exchangerate/service.go:178-259 | if no earlier date has a confirmed rate, a failed attempt leaves no rate for the date, whatever its row had |
| ExchangeRateAnswers.TodaysRateIsLost | internal/exchangerate/service.go:128-189 | a run from an empty store that does so: the rate of another day answered first, then gone at the next failure |
| ExchangeRateAnswers.CooldownEnds | internal/exchangerate/service.go:128-152 | an hour after a failed attempt a lookup of today or later with a free lock and no cached rate asks again |
| ExchangeRateAnswers.FetchTimeIsLastFetch | internal/exchangerate/repository.go:57-100 | after any lookups a row's fetch time is that of the last rate the provider gave for its date, also after it was replaced by a borrowed one |
| ExchangeRateRaces.RatesWereQuotedInAnyOrder | internal/exchangerate/service.go:70-315 | provenance, and that no row is pending, in every interleaving of the single reads, calls, finds and saves of any number of lookups |
| ExchangeRateRaces.OwnRowSurvivesIff | internal/exchangerate/repository.go:57-100 | in every reachable state, a row confirmed for its own date is unchanged by every run without another confirmation if and only if no fallback upsert has found an older row for that date and not yet saved |
| ExchangeRateRaces.LateFallbackOverwrites | internal/exchangerate/repository.go:76-100 | from every state with an earlier rate to borrow, a lookup that borrows while another confirms leaves a fallback in place of the confirmed rate |
| ExchangeRateRaces.LookupIsARun | internal/exchangerate/service.go:70-126 | the undisturbed lookup is one of the interleaved runs: same store, same quotes, same answered rate |
| PrepaymentLedger.Service.Persist | internal/prepayment/service.go:37-72 | for an invoice or receipt code and a valid group the sale's voucher is created, or overwritten, with its full amount as balance, awaiting acceptance; otherwise nothing changes |
| PrepaymentLedger.Service.OnFiscalAccept | internal/prepayment/service.go:88-112 | acceptance opens the voucher without touching its balance; a missing one is no error |
| PrepaymentLedger.Service.PersistApplicationsTx | internal/prepayment/deduction_service.go:200-231 | all deductions are applied in order, or an error leaves the ledger exactly as it was |
| PrepaymentLedger.Service.ReverseApplicationsForConsumerSaleTx | internal/prepayment/deduction_service.go:247-282 | every un-reversed application of the sale is refunded and marked, also when its voucher is gone |
| PrepaymentLedger.LedgerIsConserved | internal/prepayment/deduction_service.go:200-282 | after any operations, for every voucher, balance plus un-reversed applications is the total of the sale that last issued it, and neither is negative |
| PrepaymentLedger.VouchersAreThoseIssued | internal/prepayment/service.go:37-112 | after any operations the vouchers are those of the sales that issued one, open exactly if accepted since |
| PrepaymentLedger.DeductionsFitWhatWasPaid | internal/prepayment/deduction_service.go:200-231 | after any operations, a sale's deductions commit if and only if each source was issued and what all un-reversed deductions and these take from it is at most the total it was issued for |
| PrepaymentLedger.AppliedExactlyIfCovered | internal/prepayment/deduction_service.go:200-231 | a sale's deductions commit if and only if every source exists and the sum asked of each fits its balance, however often a source repeats; each balance then falls by exactly that sum |
| PrepaymentLedger.ClampsAreNeverTaken | internal/prepayment/deduction_service.go:222-266 | in every reachable ledger a deduction that passes the check leaves no negative balance and a refund never passes the original amount |
| PrepaymentLedger.ReversedKeepsInv | internal/prepayment/deduction_service.go:247-282 | reversing raises each balance by exactly what the sale had taken from it and keeps the ledger conserved |
| PrepaymentLedger.ReversalUndoesPersist | internal/prepayment/deduction_service.go:200-282 | annulling a sale restores every voucher to what it was before the sale's deductions |
| PrepaymentLedger.SecondReversalIsNoOp | internal/prepayment/deduction_service.go:247-282 | reversing the same sale twice, one after the other, equals reversing it once, in any ledger |
| PrepaymentRuns.LedgerSurvivesIff | internal/prepayment/deduction_service.go:247-282 | with reversals overlapping anything else, every state of a run is conserved if and only if no reversal commits after another reversed what it had read as due from a voucher that something else still consumes |
| PrepaymentRuns.DoubleReversalBreaks | internal/prepayment/deduction_service.go:247-282 | whenever a sale and another consume one voucher, two reversals of the sale that both read before one commits break the ledger |
| PrepaymentLedger.EmitKeepsLedgerIffUnconsumed | internal/prepayment/service.go:50-70 | saving the voucher of a sale again keeps the ledger conserved if and only if no un-reversed application consumes it |
| EventHub.HubObject.Subscribe | pkg/billingevents/hub.go:64-82 | the new channel is the next client of the tenant's fan-out, which is created, with its Redis loop, for the first one |
| EventHub.HubObject.Unsubscribe | pkg/billingevents/hub.go:84-103 | fires once: the client leaves, its channel is closed, and the last one cancels and removes the fan-out |
| EventHub.HubObject.Deliver | pkg/billingevents/hub.go:121-129 | each client with room gets the message once, slow ones miss it, all other channels stay as they were |
| EventHubRuns.FanoutsCountTheirClients | pkg/billingevents/hub.go:64-132 | in every interleaving refCount is the number of clients, a tenant's fan-out exists exactly while it has some, and it has one loop, cancelled when it leaves |
| EventHubRuns.ChannelsAreClosedOnce | pkg/billingevents/hub.go:84-103 | every channel is closed exactly once, by its own unsubscription, and is a client until then |
| EventHubRuns.NoSendOnClosedChannel | pkg/billingevents/hub.go:107-132 | no loop, current or cancelled, ever sends to a closed channel |
| EventHubRuns.ClientIdsAreNotReused | pkg/billingevents/hub.go:72-74 | no two subscriptions of a fan-out ever had the same id |
| EventHubRuns.StreamsAreInOrder | pkg/billingevents/hub.go:107-132 | a client's stream is an in-order subsequence, without repetition, of the messages its loop had yet to read; of those published since it subscribed if the loop had caught up |
| EventHubRuns.OldMessagesIffLoopLags | pkg/billingevents/hub.go:64-132 | in every reachable state, some run sends a new subscriber a message published before it subscribed if and only if its tenant's loop has not read everything published |
| EventHubRuns.LaggingLoopDeliversOldMessage | pkg/billingevents/hub.go:107-132 | the very next delivery of a lagging loop is such a message |
| EventHubMisses.DeliveryReachesClientsWithRoom | pkg/billingevents/hub.go:107-132 | in every run a delivery appends its message to exactly the streams of its loop's subscribed clients that have fewer than 16 messages waiting |
| EventHubMisses.StreamIsCompleteIff | pkg/billingevents/hub.go:46-132 | for every subscription and run after it, a client still subscribed has exactly what its loop has read since, in order and once each, if and only if no delivery skipped a message or found 16 waiting |
| RateLimit.Compact | internal/agent/ratelimit.go:33-39 | writing through the aliased slice keeps exactly the times after the cutoff, in order |
| RateLimit.SessionRateLimiter.Allow | internal/agent/ratelimit.go:26-47 | the decision is the one the calls so far determine, and no other key's times are disturbed through shared arrays |
| RateLimit.StoredIsRecentHistory | internal/agent/ratelimit.go:33-46 | what is stored, once compacted, equals the key's whole admission history filtered by the cutoff |
| RateLimit.AtMostMaxPerWindow | internal/agent/ratelimit.go:26-47 | if the times of the key's own calls do not decrease, at most max of its admissions lie in any interval (x, x + window] |
| RateLimit.AtMostMaxPerLeftClosedWindow | internal/agent/ratelimit.go:26-47 | the same for every interval [x, x + window) |
| RateLimit.DeniedIffWindowIsFull | internal/agent/ratelimit.go:40-46 | a call is denied if and only if max admissions lie in its own window, and an admitted call extends the history |
| RateLimit.StepBackOverfills | internal/agent/ratelimit.go:26-47 | for every limit of 2 or more, every window and every step back by 1 or more, a run with one such step has max + 1 admissions in a window |
| RateLimit.BoundsEveryClockIff | internal/agent/ratelimit.go:26-47 | no window ever gets more than max admissions, whatever the calls and their times, if and only if max is at most 1 |
| RateLimit.SingleIsSpaced | internal/agent/ratelimit.go:33-46 | with max 1 any two admissions of a key are at least a window apart, whatever the times |
| FleetLease.Registry.TryAcquireSchemaMigrationLock | pkg/database/tenant_schema_registry.go:195-208 | the lease is given exactly if the row exists and its lock is absent or expired, and only that row changes |
| FleetLease.Registry.MarkTenantSchemaFailed | pkg/database/tenant_schema_registry.go:133-152 | undisturbed: one more attempt, the matching backoff, and the lock cleared, whoever calls |
| FleetLease.Registry.MarkTenantSchemaCompleted | pkg/database/tenant_schema_registry.go:115-130 | the version is recorded and lock, retry time and attempts are cleared, whoever calls |
| FleetLease.Registry.ReleaseSchemaMigrationLock | pkg/database/tenant_schema_registry.go:211-218 | the lock is gone, whoever held it, and nothing else changes |
| FleetLease.Registry.SyncTenantSchemaCurrentVersion | pkg/database/tenant_schema_registry.go:91-112 | version and status are recorded; completion also clears lock, retry time and attempts, any other status leaves them |
| FleetLease.Registry.ReconcileTenantSchemaDrift | pkg/database/engine/reconcile.go:89-116 | unless it is a dry run, version, target and a drifted or completed status are written, the lock being left as it is |
| FleetLease.Registry.BumpFleetTargetVersion | pkg/database/tenant_schema_registry.go:49-60 | exactly the rows behind the new target become pending at that target, keeping their locks, and are counted |
| FleetLease.Registry.RecoverStaleMigrationLocks | pkg/database/fleet_status.go:90-105 | exactly the running rows with an expired lock become pending and unlocked, and are counted |
| FleetLease.Registry.ListPendingSchemaTenants | pkg/database/tenant_schema_registry.go:164-192 | lists, the fewest attempts first and up to the limit, tenants that exist, are behind their target, waiting, unlocked or expired and past their retry time, skipping none with fewer attempts; nothing while the circuit is open |
| FleetRuns.OneWorkerIffNoFoul | pkg/database/engine/central.go:87-124 | from an unlocked registry, no state of a run lets a second worker into a tenant being migrated if and only if no step clears its lock for its worker or outlasts its lease; then no tenant has two |
| FleetRuns.OpenIffSecondGetsIn | pkg/database/tenant_schema_registry.go:195-208 | a running worker's tenant is open exactly if any idle worker that asks now works beside it |
| FleetRuns.FoulAdmitsSecond | pkg/database/tenant_schema_registry.go:91-218 | after any such clearing update or overrun of a running worker's tenant the next acquisition puts two workers on it |
| FleetRuns.DeferredReleaseAdmitsSecond | pkg/database/engine/central.go:87-124 | from every state reached without such a step and with a free tenant: a worker syncs in time, the next acquires, the first's deferred release clears that lock, and a third works beside the second |
| FleetRuns.LateFailureAdmitsSecond | pkg/database/engine/fleet.go:97-98 | the same by a worker that fails, releases and records the failure when the next one is running |
| FleetRuns.RefusedWorkerAdmitsSecond | pkg/database/engine/fleet.go:97-98 | the same by a worker that was refused the lease and records that as a failure |
| FleetRuns.ExpiredLeaseIsRecovered | pkg/database/fleet_status.go:90-105 | in every run a locked row has an expiry, and once expired passes the list's lock and status filters after recovery if and only if it was not marked completed; without recovery exactly if it is pending or drifted |
| FleetRuns.CrashedWorkersTenantComesBack | pkg/database/fleet_status.go:90-105 | in every run in which nobody clears a running worker's lock and no lease runs out: after a crash, the end of the lease and recovery, the tenant is listed if and only if it is behind its target and past its retry time, whatever status was written under the lease |
| FleetRuns.NoneHiddenIffAllProve | pkg/database/engine/history.go:53-58 | no state of a run has a tenant completed below its target if and only if every completion proves at least the target its row then has |
| FleetRuns.HiddenUntilRevealed | pkg/database/tenant_schema_registry.go:174-182 | a tenant completed below its target is not listed through any recoveries, crashes, releases and time, until someone reconciles, overrides, marks or acquires it or raises its target |
| FleetRuns.StaleCompletionHidesTenant | pkg/database/engine/history.go:53-58 | such a completion is not undone by recovery or a bump to the row's target; a reconciliation lists the tenant if and only if it is behind that one's target |
| FleetRuns.RaisedTargetReachesAll | pkg/database/tenant_schema_registry.go:49-60 | after a raised target and the end of the leases and retry times of the moment, a tenant is listed if and only if it is behind it |
| FleetRuns.LeaseLastsItsTime | pkg/database/tenant_schema_registry.go:195-208 | a lease undisturbed lets a second worker in exactly after its duration |
| FleetRuns.FailureIsMarked | pkg/database/tenant_schema_registry.go:133-152 | a worker's two statements, undisturbed, record one attempt more and its backoff |
| FleetRuns.OverlappingFailuresCountOnce | pkg/database/tenant_schema_registry.go:133-152 | two failures of one tenant that both read the attempts before either writes count as one |
| FleetLease.FailedTenantWaitsItsBackoff | pkg/database/fleet_backoff.go:5-31 | a failed tenant behind its target is listed again exactly 1, 5, 15 and, from the fourth failure on, 60 minutes later |
| FleetLease.RaisedTargetListsTenants | pkg/database/tenant_schema_registry.go:49-60 | a raised target lists exactly the tenants behind it that are unlocked or expired and past their retry time, also completed and paused ones |
| FleetLease.OverrideDecides | internal/superadmin/service/migration_fleet_service.go:194-239 | a pause keeps any tenant off the list, a retry lists it exactly if it is behind its target |
| DocSeries.Table.ReserveNextStandalone | pkg/docseries/correlative.go:51-59 | hands out the series' next number and moves on by one, or fails without any change |
| DocSeries.Transaction.ReserveNext | pkg/docseries/correlative.go:36-48 | within a transaction the next number follows the transaction's own earlier ones; an unknown or inactive series writes nothing |
| DocSeries.CommittedNumbersAreGapFree | pkg/docseries/correlative.go:36-59 | for any interleaving of transactions, the committed numbers of a series are start, start + 1, ..., in order, whatever aborted |
| DocSeries.OpenNumbersAreNew | pkg/docseries/correlative.go:36-48 | two open transactions never hold numbers of one series, and an open number is none of the committed ones |
| DocSeries.ActiveSeriesGivesNext | pkg/docseries/correlative.go:36-48 | in every run, a reservation that gets the row of an active series takes the number after all committed and its own ones; of an inactive series it takes none |
| DocSeries.CommitIssuesReserved | pkg/docseries/correlative.go:36-59 | in every run, exactly a commit issues numbers: those its transaction reserved |
| DocSeries.WaitingEndsWithTransaction | pkg/docseries/correlative.go:36-48 | in every run a reservation waits only for another open transaction, whose commit or abort lets it in |
| BillingState.NormalizeIsStable | pkg/billingstate/state.go:80-115 | a normalized state written back and read again is the same state, for every text |
| BillingLifecycle.TextsOnTheWay | pkg/billingstate/state.go:80-115 | which cleaned-up texts read as which stage up to the provider, both ways |
| BillingLifecycle.TextsOfSunat | pkg/billingstate/state.go:80-115 | the same for the stages and verdicts of SUNAT |
| BillingLifecycle.TextsOutside | pkg/billingstate/state.go:80-115 | the same for the other ends and UNKNOWN |
| BillingState.AcceptedExactlyOnEvidence | pkg/billingstate/evidence.go:22-78 | an answer counts as accepted or observed if and only if it has no connection error and carries CDR code 0, acceptance, signed XML, CDR and SUNAT success |
| BillingLifecycle.VerdictFollowsAnswer | pkg/billingstate/evidence.go:22-78 | for every answer, by its raw contents: when it counts as failed, rejected, received, observed or accepted, each both ways, and else as on its way to SUNAT |
| BillingState.EvidenceIsFiles | pkg/billingstate/evidence.go:81-94 | stored evidence depends on the CDR code and the stored files only, never on a status column |
| BillingState.InvoiceRecord.Apply | pkg/billingstate/apply.go:54-86 | empty patch fields keep the old value, the two status columns are always replaced, and success clears the last error |
| BillingState.PatchRule | pkg/billingstate/apply.go:54-86 | column by column, what any patch leaves in any invoice |
| BillingLifecycle.UpdateWritesNothingElse | pkg/billingstate/apply.go:27-86 | an update changes the state columns, the message and the last error only, the error by its state |
| BillingLifecycle.ColumnsSayState | pkg/billingstate/apply.go:27-86 | after any update the texts of the two status columns tell the state, both ways |
| BillingLifecycle.RequestsMoveAlongStages | pkg/billingstate/state.go:49-77 | the state after every request in every state: ends always, from an end only a restart, on the way every stage that is not an earlier one, and otherwise UNKNOWN |
| BillingState.UpdateKeepsColumnsDerived | pkg/billingstate/apply.go:27-86 | after building and applying any patch, the state is the requested one or UNKNOWN, and sunat_status and job_status are its functions |
| BillingState.UpdateMovesForward | pkg/billingstate/state.go:49-77 | a terminal state is left only for queue, processing, retrying or UNKNOWN, and other stages never go back |
| BillingState.AskingTwiceIsEnough | pkg/billingstate/apply.go:27-31 | every known state but DRAFT is reached from any other by asking twice |
| BillingState.RunsKeepEvidenceAndColumns | pkg/billingstate/apply.go:27-86 | along any run of updates evidence is neither gained nor lost and the derived columns follow the pipeline |
| BillingState.ConsistentMeans | pkg/billingstate/apply.go:223-246 | an invoice is found consistent if and only if it has evidence and a success state, or neither evidence nor a claim of acceptance; the job_status finding never occurs |
| BillingState.RepairReachesFixpoint | pkg/billingstate/apply.go:223-246 | repairing any invoice once leaves nothing to repair and keeps its evidence |
| BillingLifecycle.RepairLeadsTo | pkg/billingstate/apply.go:223-246 | an inconsistent invoice is repaired to UNKNOWN without evidence, and with it to OBSERVED or SUNAT_ACCEPTED as its column remembers |
| BillingStatus.Tables.ReconcileSaleBillingStatus | pkg/billingstate/effective.go:71-91 | the sale gets the higher of its own and its invoice's status and returns it; sale 0 and an unknown sale change nothing |
| BillingStatus.Tables.IndexBySale | pkg/billingstate/effective.go:102-107 | the index maps each sale to the last of its invoices and nothing else |
| BillingStatus.Tables.EnrichSalesBillingStatus | pkg/billingstate/effective.go:94-118 | the listed sales are corrected in memory, and in the table where their status differs |
| BillingStatus.InferredAcceptanceHasEvidence | pkg/billingstate/apply.go:190-220 | for an old invoice without pipeline, acceptance is inferred if and only if there is evidence |
| BillingStatus.StatusNeverDegrades | pkg/billingstate/effective.go:58-91 | after any sequence of invoice changes and reconciliations that take turns, the stored sale status is the rank-maximum of the first one and all invoice statuses seen |
| BillingStatusMeaning.StoredIsTheBestSeen | pkg/billingstate/effective.go:20-91 | after any reconciliations the stored text is "accepted" once that was seen, or else "rejected", "error", "sent", and "pending" only if nothing else ever was |
| BillingStatusMeaning.AcceptanceIsFinal | pkg/billingstate/effective.go:58-91 | once an invoice brought to a success state was seen, the sale is stored as "accepted", whatever was seen before or after |
| BillingStatusMeaning.StatusAgreesWithColumns | pkg/billingstate/state.go:118-150 | after any update but to DRAFT the sale status of the invoice and its column texts agree, both ways |
| BillingStatusMeaning.InferredState | pkg/billingstate/apply.go:190-220 | which state is inferred from which columns, both ways |
| BillingStatusMeaning.InferenceRecoversIff | pkg/billingstate/apply.go:190-220 | the sale status inferred from the columns of an updated invoice that lost its pipeline text is the right one if and only if evidence and state match and the state was a stage after DRAFT or an end |
| BillingStatusRuns.OutstandingWritesLowerIff | pkg/billingstate/effective.go:71-118 | in every state, some order of the writes that reconciles owe after their reads lowers the status if and only if one of those writes stores less than the status, or less than another of them |
| BillingStatusRuns.OverlapDegrades | pkg/billingstate/effective.go:71-118 | whenever two reconciles overlap and the slower saw a lower status that it has to write, the higher status is stored and then lost |
| BillingStatusRuns.UndisturbedReachHighest | pkg/billingstate/effective.go:71-118 | interleaved reconciles that do not write over each other's writes leave the rank-maximum of all invoices seen |
| BillingStatus.HighestSeenIsTheMaximum | pkg/billingstate/effective.go:20-26 | a status is one of those seen and ranks at least as high as each if and only if it is that maximum |
| BillingStatus.ReconcileIsIdempotent | pkg/billingstate/effective.go:71-91 | a second reconcile with the same invoice changes nothing |
| BillingStatus.BatchEqualsPerSale | pkg/billingstate/effective.go:71-118 | over a list just read, with at most one invoice per sale, the batch form leaves the table exactly as reconciling sale by sale |

## Left out

- The forced branch of `Remove` after 30 s and `Shutdown` of the pool: they close handles in use by design.
- Pool entries are values in the map rather than heap objects: no pointer to an entry leaves the mutex, so aliasing plays no part. The compare-and-swap loop of `release` runs under the mutex and is one decrement; the 32-bit range of `inUse` is not modelled.
- Failures of Redis and SQL connections, `Stop` of the workers, the enqueue claim keys and the SQL update that marks a dead job's invoice.
- The JSON text of jobs and of dead-letter records: a payload is a job in some spelling, or a text that is no job. Jobs with a negative attempt are not modelled.
- BillingQueueCrashes.CrashesAreAccounted: speaks of crashes of the whole process, which is when recovery runs; several processes sharing the lists, whose recovery would take jobs of a live one, are not modelled, nor are the retry bounds across crashes.
- BillingQueueOutcomes.JobsGoWhereOutcomesSay: is about runs without crashes of the process; what a crash does to jobs is accounted by ticket only.
- Rounding of rates, currency and message texts, and the retry time shown in answers.
- ExchangeRate.CacheService.Fetch: errors of the central database are left out; the looks for a peer's result are made at given times.
- ExchangeRate.CacheService.Get: errors of the central database are left out.
- ExchangeRateRuns.FailedAttemptIsNotRepeated: is about lookups one after another; with overlapping lookups a second one can have decided to ask before the first failed.
- PrepaymentLedger.LedgerIsConserved: transactions take turns; overlapping reversals are in the interleaved runs. Negative deduction totals are excluded.
- PrepaymentLedger.Service.Persist: the affectation-group check is a parameter and the descriptive fields are left out; planning of deductions and tax totals are not part of this model.
- Shutdown of the event hub, a hub without Redis, and the life of a Redis subscription; a message can also be lost before a loop reads it. Fan-outs and channels are addresses in maps rather than heap objects.
- The limiter's mutex: calls are whole critical sections, in the order in which they take it. Growth of a full slice doubles the array, as one instance of what append may do.
- FleetLease.Registry.MarkTenantSchemaFailed: as a method it runs undisturbed; that it reads the attempt count and updates in two statements is modelled in the interleaved workers.
- FleetLease.Registry.ListPendingSchemaTenants: the order among equal attempts by last update is left out, and the column for the next retry is taken to exist.
- FleetLease.Registry.ReconcileTenantSchemaDrift: what it finds in the tenant's own database, and repairs there, is given by its parameters; an error before its last statement leaves the registry as it is.
- FleetRuns.OneWorkerIffNoFoul: migrations that take no lease, at provisioning or repair, appear with their marks only and are not counted as workers.
- 64-bit overflow of correlatives, the branch check of document series, and the administrator's edit of a correlative (internal/company/service/company_service.go:631), after which numbers can repeat or skip.
- Upper and lower case and blanks beyond Latin letters and the Latin-1 blanks in status columns.
- `SyncSaleBillingStatus` and `TransitionPipeline`, which write unconditionally and can degrade a status, the PSE evaluation, and the status view with its display labels: direct assignments without a law of their own.
- BillingState.UpdateKeepsColumnsDerived: is about non-nil invoices; BuildPatch would dereference a nil one before its own check.
- HTTP handlers, configuration, logging, metrics, seeds and the clients of external services.
