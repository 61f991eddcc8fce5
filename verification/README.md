# A verified model of the license API

This project models the concurrent and stateful core of a license server and proves what it keeps over whole
runs. `dafny verify dfyconfig.toml` checks everything.

* **Seats.** `SeatProtocol` is a step machine over any number of database transactions: activations that lock
  the license row, releases that do not, admin writes that need the row, usage metering. `SeatInvariant` proves
  its inductive invariant, `SeatSafety` what follows for every interleaving, `SeatProgress` that no transaction is
  ever stuck, and `ActivationRepo` states what each call of the repository answers and that every call is a run of
  that machine. The license a caller was shown by the cache plays no part, so it may be arbitrarily stale.
  `ActivationFlow` compares the service's check with the transaction, and `ShardLock` is the in-process lock in front.
* **Limits.** `TokenBucket` and `BucketMaps` are the rate limiters, `AdaptiveLimiter`, `AdaptiveBounds`,
  `AdaptiveCauses`, `AdaptiveHits` and `AdaptiveTight` the failure limiter in local mode. Buckets are shown equal to
  a limiter defined by windows alone, and what one request costs is `BucketLaws`; strikes and blocks are told from the
  replies alone; eviction and pruning are compared with limiters that never forget.
* **Caches.** `Lru` is the bounded first level and `LruOrder` what it evicts. `LicenseStore` is the two-level license cache;
  `LicenseStoreRuns` and `LicenseStoreExact` compare it on its own, over whole runs, with a map of latest writes.
  `PlanSystem` and `Features` are plans and resolved features, `TenantSystem` and `TenantAuth` tenants and key
  rotation, each with its own first level. `LicenseSystem` and `LicenseService` put all of them on the one second
  level the server has, with the license table, the administrative service, activation, warm-up and validation.
  `LicenseCoherence` proves exactly when cache and table agree over whole runs, `LicenseFreshness` which copy a
  look-up answers, `LicenseTerms` that what was saved binds later validations, `LicenseRevocation` exactly when a
  license never validates again. `LicenseRules` says which licenses are accepted, `Validity` is the verdict at one
  instant and `Validation` the whole decision, backed by both tables.
* **Queues.** `WorkerPool`, `Audit` with `AuditColumns`, and `Webhook` with `WebhookPairs` and `WebhookCauses` are the
  three queue machines.
* **Failures.** Where the code fails a property, the condition under which it holds is stated and a run from the
  initial state shows the failure without it: `SeatFailures`, `LicenseFailures`, and one run each in `PlanSystem`,
  `TenantAuth` and `Validation`.

Conventions. A system is a state value, a datatype of operations and a function `Exec` or `Apply`; `Run` folds it
over a sequence. A class has the same state in fields and each of its methods is proved to make exactly that
step. Every clock reading is a parameter in nanoseconds (the token bucket uses real seconds); generated ids,
hashes and the order in which a set is listed are parameters too. Database calls that may fail take a flag saying
whether they did. A step that is not enabled in a run leaves the state alone.

What the code does where one would expect otherwise; the code is followed:

* the webhook schedule lists five delays, but the fifth attempt is the last, so ten minutes is never waited;
* the migrations have no columns for the grace days, the usage counters and the revocation time. The statements
  that use the counters and the time are modelled as written;
* all caches share one second level, whose reader takes every payload for a license. What the tenant, plan and
  product caches store there reads back as a license with every field blank, which is valid for every product at
  every instant. So with a second level, a key that is the name of a plan or product (`plan:...`, `product:...`) or
  the hash of one of the tenant's keys may validate without a license, or after its revocation, while such an entry
  lives. `LicenseCoherence.StepKeepsCoherentIff`, `LicenseRevocation.NeverValidIff` and
  `Validation.AlwaysBackedIff` are exact about it; `Validation.NamedIsValid`, `LicenseFailures.TenantKeyIsALicense`
  and `LicenseFailures.RevokedValidatesAgain` are runs. With the default times to live of zero for those caches the
  entry lives only at the instant of the write;
* the grace days and, for a plan license, the product live on the cached copy only and are lost on every reload
  from the table: `Validation.RefillKeepsVerdictIff` says exactly when that changes the verdict and
  `Validation.RefillKeepsValidityIff` when it changes validity, `LicenseFailures.ReloadForgetsTheProduct` and `LicenseFailures.ReloadForgetsTheGrace` are runs;
* a license update that matches no row, or another tenant's, succeeds and is cached:
  `LicenseCoherence.UpdateKeepsCoherentIff`, `LicenseFailures.UpdateWithoutRow`. What it leaves behind outlives a
  revocation by the owner: `LicenseFailures.StrayUpdateOutlivesRevocation`;
* a plan created under an id that has a deleted row, or another tenant's, is cached but not visible in the table:
  `PlanSystem.CreateKeepsAgreementIff`, `PlanSystem.RecreatedPlanIsOnlyCached`;
* a tenant suspension reports success even if it could not drop the cached tenant:
  `TenantAuth.SuspendTakesHoldIff`, `TenantAuth.SuspensionMissesTheCache`;
* the rule on a license's dates knows neither the clock skew nor the grace of the verdict, so a license that starts
  shortly after its expiry is refused although it could be used: `LicenseRules.RefusedThoughUsableIff`;
* the failure limiter counts at most 2F failures in a half-open minute, one fewer than its window counts alone
  suggest, and 2F is reached: `AdaptiveTight.TwiceTheThreshold`.

## Model

| member | source | states |
|---|---|---|
| `SeatInvariant.StepKeepsInv` | internal/infrastructure/db/activation_repo.go:47-187 | every statement of every activating or metering transaction, lock-free release and admin write keeps the protocol invariant: lock ownership, snapshots that still match the locked row, a seat count that is never below the truth, one active row per client |
| `SeatInvariant.RunKeepsInv` | internal/infrastructure/db/activation_repo.go:47-187 | the invariant holds after every interleaving of any number of transactions |
| `SeatInvariant.InitHasInv` | migrations/001_init.sql:102-126 | any license table with unique keys, no activation and nothing running satisfies it |
| `SeatSafety.CommitIsSafe` | internal/infrastructure/db/activation_repo.go:54-152 | in every reachable state a committing insert finds its license row under the requested tenant and key, not deleted, active, unexpired at the check and with a free seat, whatever the cache supplied; what it reports as remaining, its own seat and the count it took make up the seats, and there are no more active rows after it than those |
| `SeatSafety.FreshRemaining` | internal/infrastructure/db/activation_repo.go:79-152 | a fresh activation reports the seats less the rows active when it counted and its own, whatever runs before its commit |
| `SeatSafety.StepKeepsBoundIff` | internal/infrastructure/db/license_repo.go:121-150 | a step takes some license over its seats if and only if it is an update that sets seats_total below the current use |
| `SeatSafety.SeatsNeverExceeded` | internal/infrastructure/db/activation_repo.go:47-187 | if no update lowers seats_total, active rows never exceed it in any reachable state (-1 exempt) |
| `SeatFailures.LoweringBreaksBound` | internal/infrastructure/db/license_repo.go:125-141 | a run from a fresh database: a client takes the one seat, an update lowers the seats to none, and the bound that held before is broken |
| `SeatSafety.OneActivePerClient` | migrations/001_init.sql:272-273 | in every reachable state two active rows of one license and client are the same row |
| `SeatSafety.UniqueViolationUnreachable` | internal/infrastructure/db/activation_repo.go:112-148 | under the row lock the insert can hit neither the primary key nor the partial unique index |
| `SeatSafety.RecordsOnlyGoToReleased` | internal/infrastructure/db/activation_repo.go:161-187 | over every run activation rows keep their identity and only go from active to released |
| `SeatSafety.NoSecondSeat` | internal/infrastructure/db/activation_repo.go:79-111 | while a client holds an active row no further row is inserted for it, in any run |
| `SeatSafety.RepeatReturnsExisting` | internal/infrastructure/db/activation_repo.go:79-111 | a repeat activation can only report the row the client already holds and changes no row, whatever runs in between; what it reports as remaining and the rows active when it counted make up the seats |
| `SeatSafety.NoActivationAfterRevoke` | internal/infrastructure/db/license_repo.go:109-119 | once a license row is not active, no new activation of it commits in any run until an update names it |
| `SeatSafety.RevokeTakesHold` | internal/infrastructure/db/license_repo.go:109-119 | a revocation marks exactly the license it names as revoked |
| `SeatSafety.UpdateTakesHold` | internal/infrastructure/db/license_repo.go:121-160 | an update sets seats, status and expiry of exactly the license it names and changes nothing else |
| `SeatSafety.UpdateShuts` | internal/infrastructure/db/activation_repo.go:84-92 | once an update has made a license inactive or set its expiry to the past, no new activation of it commits in any run until another update names it |
| `SeatSafety.UsageIsConserved` | internal/infrastructure/db/activation_repo.go:195-232 | in every run a license's running usage total is the sum of its committed usage records |
| `SeatProgress.HolderFinishes` | internal/infrastructure/db/activation_repo.go:47-159 | from every state with the invariant, a transaction that holds a license row can end by at most four further statements of its own, none of them an abort, moving nobody else, and the row is then free |
| `SeatProgress.EveryTransactionCanEnd` | internal/infrastructure/db/activation_repo.go:47-232 | no deadlock: from every reachable state every transaction can be run to its end, without aborting any, by steps of itself and of the one transaction that holds the row it waits for |
| `ActivationRepo.Repo.ActivateWithLock` | internal/infrastructure/db/activation_repo.go:47-159 | the answer case by case: not found exactly when no row matches, then revoked, expired, repeat with the held id, seat limit or fresh exactly when the matched row, its active rows and the clock say so; remaining and active rows after the call add up to the seats, or remaining is -1 for unlimited; only a fresh answer adds its one row |
| `ActivationRepo.AnswerAddsUp` | internal/infrastructure/db/activation_repo.go:98-152 | for every repeat or fresh answer, remaining and the rows active after the call, a new one included, make up the seats of the license |
| `ActivationRepo.CallIsARun` | internal/infrastructure/db/activation_repo.go:47-159 | every such call, whatever it answers, is a run of the seat protocol that begins with this request, is never aborted, and ends with this answer and these tables |
| `ActivationRepo.Repo.ReleaseById` | internal/infrastructure/db/activation_repo.go:161-165 | the named row becomes inactive and nothing else changes |
| `ActivationRepo.Repo.ReleaseByClient` | internal/infrastructure/db/activation_repo.go:167-187 | releases the client's rows of the license and no other, and reports not-found exactly when there was none |
| `ActivationRepo.Repo.RecordUsage` | internal/infrastructure/db/activation_repo.go:195-232 | records usage exactly for a live license and positive units, adds the units to the running total, inserts the usage row and answers the new total and the limit |
| `ActivationRepo.UseRun` | internal/infrastructure/db/activation_repo.go:195-232 | such a call is a run of the protocol that begins with this metering request and ends with these tables |
| `LicenseService.Service.Resolve` | internal/app/activation_service.go:178-197 | cache first, then the table, which refills the cache; equals the specified store and answer |
| `LicenseService.Service.Activate` | internal/app/activation_service.go:57-121 | not found, revoked, expired, in grace, seat limit or done exactly as status, expiry, grace and seats of the resolved license and the commit of the transaction say; when done nothing stays cached under the key |
| `ActivationFlow.TransactionAfterCheck` | internal/app/activation_service.go:57-97 | on a license that agrees with its row, the transaction behind the service check refuses exactly a status that is neither active nor revoked (reported as revoked), the very instant the grace ends (which the check lets pass), and a client without a seat when all seats are taken; each of the three as an if-and-only-if |
| `LicenseService.Service.Deactivate` | internal/app/activation_service.go:123-147 | resolves, releases and drops the key from the cache; not found exactly when nothing resolves, otherwise the answer of the release; when done nothing stays cached under the key |
| `ShardLock.Shard` | internal/infrastructure/lock/activation_lock.go:17-23 | the wrapping 32-bit loop yields the unbounded base-33 polynomial modulo 256, for every byte string |
| `ShardLock.MutualExclusion` | internal/infrastructure/lock/activation_lock.go:25-31 | in no run of locks and unlocks do two threads hold one license id or two ids of one shard |
| `ShardLock.LockGetsInIff` | internal/infrastructure/lock/activation_lock.go:25-31 | a lock gets in exactly when its thread is outside and its shard is free, and an unlock frees the shard |
| `TokenBucket.Bucket.Allow` | internal/infrastructure/ratelimit/token_bucket.go:49-67 | admits exactly when at least one token is available and leaves the specified level |
| `TokenBucket.TokensStayInRange` | internal/infrastructure/ratelimit/token_bucket.go:19-67 | over every run 0 <= tokens <= burst |
| `TokenBucket.BucketIsGreedy` | internal/infrastructure/ratelimit/token_bucket.go:49-67 | a bucket answers every call sequence exactly as the limiter that admits a call whenever no window ending with it would exceed burst + rps times its length |
| `TokenBucket.WindowBound` | internal/infrastructure/ratelimit/token_bucket.go:49-67 | in every run and every window of length T at most burst + rps * T calls are admitted |
| `BucketMaps.BucketMap.Allow` | internal/http/middleware/rate_limit.go:62-80 | get-or-create and take; an existing bucket keeps the limits it was created with, and at the cap a new bucket is used once and not kept |
| `BucketMaps.BucketMap.AdmitPublic` | internal/http/middleware/public_license_rate_limiter.go:43-69 | the bucket of the route first, then that of the license key or, without one, of the client address; the first refusal ends the request |
| `BucketMaps.BucketMap.CleanupIdle` | internal/http/middleware/rate_limit.go:48-60 | drops exactly the buckets idle for more than five minutes |
| `BucketMaps.BucketMap.AdmitTenant` | internal/http/middleware/rate_limit.go:28-40 | the tenant's own bucket with its own limits |
| `BucketMaps.BucketMap.Forget` | internal/http/middleware/rate_limit.go:42-46 | drops exactly that tenant's bucket |
| `BucketLaws.RequestPays` | internal/http/middleware/rate_limit.go:62-80 | a kept bucket admits exactly when it has a whole token by then, a new one when its burst is at least one; it keeps its limits, no other bucket changes, and at the cap a new one is not kept |
| `BucketLaws.BothMustAdmit` | internal/http/middleware/public_license_rate_limiter.go:43-69 | a public request passes exactly when both buckets admit; a refusal by the first leaves the second as it was |
| `BucketLaws.ForgottenStartsFull` | internal/http/middleware/rate_limit.go:42-46 | a tenant whose bucket was dropped, or whose limits changed, starts with a whole burst; other buckets stay |
| `BucketLaws.CapHolds` | internal/http/middleware/rate_limit.go:62-80 | in every run there are at most as many buckets as the cap allows |
| `BucketMaps.EvictionUnobservable` | internal/http/middleware/public_license_rate_limiter.go:71-100 | every run whose limits refill within the idle time and whose keys fit under the cap gets the same answers as without eviction |
| `BucketMaps.EvictionUnobservableIff` | internal/http/middleware/rate_limit.go:48-80 | for a tenant, no run tells the evicting limiter from the one that never forgets if and only if burst <= 300 * rps |
| `AdaptiveLimiter.LoadConfig` | internal/setup/limiter.go:26-73 | thresholds are at least one and every block lasts at least a minute |
| `AdaptiveLimiter.BlockDurationForStrike` | internal/http/middleware/adaptive_fail_limiter.go:295-307 | with blocks of at least a minute configured, every strike blocks for at least a minute |
| `AdaptiveLimiter.BlockLadder` | internal/setup/limiter.go:26-73 | with the settings or their defaults of 20, 100 and 5, 15 and 60 minutes: the first strike blocks for the first duration, the second for the second, every later one for the third |
| `AdaptiveLimiter.AdaptiveFailLimiter.PruneLocal` | internal/http/middleware/adaptive_fail_limiter.go:356-379 | the four loops drop exactly ended blocks and windows older than their span, at most once a minute |
| `AdaptiveLimiter.AdaptiveFailLimiter.IncrementFailureLocal` | internal/http/middleware/adaptive_fail_limiter.go:309-322 | prune, then count in the current or a new window; reports whether the count exceeds the threshold |
| `AdaptiveLimiter.AdaptiveFailLimiter.IncrementGlobalLocal` | internal/http/middleware/adaptive_fail_limiter.go:324-337 | the same for the per-address window |
| `AdaptiveLimiter.AdaptiveFailLimiter.IncrementStrikeLocal` | internal/http/middleware/adaptive_fail_limiter.go:339-354 | strikes restart each calendar day |
| `AdaptiveLimiter.AdaptiveFailLimiter.Serve` | internal/http/middleware/adaptive_fail_limiter.go:128-152 | one request end to end: blocked, passed, or counted with its threshold, global and strike answers |
| `AdaptiveBounds.PruningUnobservable` | internal/http/middleware/adaptive_fail_limiter.go:309-379 | with and without pruning every run under a non-decreasing clock gets the same replies |
| `AdaptiveCauses.BlockedIff` | internal/http/middleware/adaptive_fail_limiter.go:181-193 | in every run a request is refused if and only if it falls within the block of its key's last hit, and what is not refused is counted exactly if it failed |
| `AdaptiveHits.HitsIff` | internal/http/middleware/adaptive_fail_limiter.go:128-152 | in every run, told from the replies alone: a counted failure is a threshold hit exactly when it is more than FailsPerMinute in its key's minute window, a global hit exactly when it is more than GlobalFailsPerMinute in the window of its address over all tenants, and gets a strike exactly when it is either, numbered by the key's hits that day |
| `AdaptiveCauses.HitHasItsFailures` | internal/http/middleware/adaptive_fail_limiter.go:309-322 | in every run a threshold hit comes with more than FailsPerMinute counted failures of its key within one minute |
| `AdaptiveBounds.FailuresPerMinute` | internal/http/middleware/adaptive_fail_limiter.go:128-152 | in every run and every half-open minute a key has at most 2 * FailsPerMinute counted failures (a closed minute may have one more) |
| `AdaptiveTight.TwiceTheThreshold` | internal/http/middleware/adaptive_fail_limiter.go:128-152 | the bound is tight: for every threshold F, with an address threshold no lower, a run has exactly 2F failures of its key in a half-open minute and 2F + 1 in the closed one |
| `Lru.L1Cache.Get` | internal/infrastructure/cache/l1_lru.go:29-39 | promotes a live entry, removes an expired one, answers accordingly; at most capacity entries with distinct keys |
| `Lru.L1Cache.Set` | internal/infrastructure/cache/l1_lru.go:41-51 | the entry becomes the newest, with no expiry for a non-positive time to live; the oldest goes when over capacity |
| `Lru.L1Cache.InvalidateAll` | internal/infrastructure/cache/l1_lru.go:58-64 | the walk over a snapshot of the keys removes exactly those with the prefix, keeping the order of the rest |
| `Lru.L1Cache.CleanupExpired` | internal/infrastructure/cache/l1_lru.go:67-87 | removes expired entries oldest first up to the limit and answers how many |
| `Lru.DropExpiredOk` | internal/infrastructure/cache/l1_lru.go:67-87 | a clean-up only drops expired entries, at most the limit, and all of them unless the limit stops it |
| `Lru.ReadOk` | internal/infrastructure/cache/l1_lru.go:29-39 | reading invents nothing, keeps keys distinct and within capacity, and never answers an expired entry |
| `Lru.WriteOk` | internal/infrastructure/cache/l1_lru.go:41-51 | after a write the key maps to the new entry, every other entry was there before, length within capacity |
| `LruOrder.EvictsLeastRecent` | internal/infrastructure/cache/l1_lru.go:29-51 | after every run of reads, writes, removals and clean-ups, a write of a new key to a full cache pushes out exactly the entry whose last read or write is the furthest back |
| `LruOrder.AnswersAreLastWrites` | internal/infrastructure/cache/l1_lru.go:29-66 | after every run what a look-up answers is the payload of the key's last write, not invalidated since and not past its time to live |
| `LruOrder.OldestExpiredFirst` | internal/infrastructure/cache/l1_lru.go:67-87 | a clean-up stopped by its limit has dropped the oldest of the expired entries |
| `LicenseStore.CacheKeyInjective` | internal/infrastructure/cache/keys.go:6-8 | for colon-free tenants the canonical key determines tenant and key, and a tenant prefix matches exactly that tenant's keys |
| `LicenseStore.ColonsCollide` | internal/infrastructure/cache/keys.go:6-8 | two tenants, one with a colon, that share a cache key |
| `LicenseStore.L2Cache.Get` | internal/infrastructure/cache/l2_redis.go:88-148 | answers what is stored unless it has expired |
| `LicenseStore.L2Cache.Set` | internal/infrastructure/cache/l2_redis.go:150-231 | whatever kind of payload is written, what will be read is a license: the one written, or the blank one |
| `LicenseStore.DisturbOk` | internal/server/server.go:208-220 | another cache on the second level adds nothing but blank licenses, and those exactly at the places where it stores |
| `LicenseStore.LicenseCache.Get` | internal/infrastructure/cache/license_store.go:37-79 | first level with refresh, then second level with backfill, then bounded negative caching; equals the specified store and answer |
| `LicenseStore.LicenseCache.Set` | internal/infrastructure/cache/license_store.go:82-90 | writes both indices of the first level and the second level |
| `LicenseStore.LicenseCache.Invalidate` | internal/infrastructure/cache/license_store.go:93-102 | removes the key from both indices and the second level |
| `LicenseStore.LicenseCache.InvalidateTenant` | internal/infrastructure/cache/license_store.go:105-116 | removes what carries the tenant prefix from both levels |
| `LicenseStore.LicenseCache.WarmUp` | internal/infrastructure/cache/license_store.go:134-152 | the loop writes active rows that are not live in the first level and nothing else |
| `LicenseStore.LicenseCache.GetByGlobalKey` | internal/infrastructure/cache/license_store.go:156-171 | first level only, with bounded negative caching |
| `LicenseStore.DropTenantOk` | internal/infrastructure/cache/license_store.go:105-116 | a tenant invalidation drops exactly what is filed under that tenant; the key-only index stays |
| `LicenseStore.AnswersAreLive` | internal/infrastructure/cache/license_store.go:37-90 | a look-up answers only a license that one of the levels holds at its place and that has not expired there; by key alone only the first level answers |
| `LicenseStore.PutThenFetch` | internal/infrastructure/cache/license_store.go:82-90 | until it expires, what was written last is what both look-ups answer |
| `LicenseStore.HitStaysHot` | internal/infrastructure/cache/license_store.go:41-56 | after a first-level hit the license is still answered at any time up to half the active time to live later |
| `LicenseStore.MissEvictsNothing` | internal/infrastructure/cache/license_store.go:74-78 | remembering a miss never pushes another entry out of the first level |
| `LicenseStore.MissIsRemembered` | internal/infrastructure/cache/license_store.go:74-78 | below nine tenths of the capacity a miss is remembered for its time to live; above, it leaves no trace |
| `LicenseStore.HitIsBackfilled` | internal/infrastructure/cache/license_store.go:58-72 | what the second level answered, the first answers by itself from then on, until its entry expires |
| `LicenseStore.WarmedIsAnswered` | internal/infrastructure/cache/license_store.go:134-152 | a warmed active row is answered by both look-ups; a row not active, or with something live cached for it, changes nothing |
| `LicenseStoreRuns.LookupsAreLatest` | internal/infrastructure/cache/license_store.go:37-171 | after every run of this store alone, with losses and clean-ups at any point, a look-up answers the last version written for that tenant and key and not invalidated since, or not found; length within capacity |
| `LicenseStoreRuns.IndicesAgree` | internal/infrastructure/cache/license_store.go:82-90 | with globally unique keys the tenant look-up and the key-only look-up never find different licenses |
| `LicenseStoreExact.LookupsAreExact` | internal/infrastructure/cache/license_store.go:37-79 | with a second level that loses nothing and a clock that does not go back, a look-up answers exactly the latest version for the second level's whole time to live, whatever was evicted or negatively cached |
| `LicenseService.Service.CreateLicense` | internal/app/admin_service.go:225-258 | without a name or breaking a rule it is refused, with the first rule broken; a well-formed license is refused by a rule exactly when its dates leave no instant or its seats are exceeded; it succeeds exactly for an acceptable license with an unused key the database takes, and the row, plan cache, license cache and second level are then as specified, the features a correct resolution, and the saved copy usable at some instant unless revoked |
| `LicenseService.Service.UpdateLicense` | internal/app/admin_service.go:264-297 | the same for updates, which keep the row's id, and succeed and are cached even when no row matches |
| `LicenseRules.PassesIff` | internal/domain/license_resolution.go:8-53 | a license passes the rules exactly when it is well formed, some instant is not before its start and not after its expiry, and its seats suffice; among well-formed ones the two refusals say which |
| `LicenseRules.FirstRuleBroken` | internal/domain/license_resolution.go:8-53 | the refusal given is the first broken of the thirteen rules, each stated by the fields |
| `LicenseRules.SavedIsUsable` | internal/app/admin_service.go:225-297 | whatever a create or update accepts is, as saved and as reloaded, judged valid at some instant unless it is revoked |
| `LicenseRules.RefusedThoughUsableIff` | internal/domain/license_resolution.go:46-48 | the rule on dates knows neither skew nor grace: a well-formed usable license is refused for its dates exactly when it starts after it expires |
| `LicenseService.Service.RevokeLicense` | internal/app/admin_service.go:351-361 | marks exactly the named row as revoked and writes it through; which error it gives, and an error after the update leaves the cache as it was |
| `LicenseService.Service.Validate` | internal/app/validation_service.go:57-92 | reads only the cache and gives the verdict on what it answers; from a coherent cache a verdict is given only on the tenant's own row, and is that of a revocation when the row is revoked |
| `LicenseCoherence.StepExplained` | internal/infrastructure/cache/license_store.go:37-171 | whatever the license cache holds after an operation was written by it, or is the blank license where another cache has stored its entry, or was there before and not displaced; the writes and stores of every operation are listed |
| `LicenseCoherence.IntrusionsAreNamed` | internal/infrastructure/cache/plan_store.go:25-27 | another cache stores only for a proper tenant and only under the name of a plan or product or a key hash that a tenant has or is given |
| `LicenseCoherence.StepKeepsCoherentAt` | internal/app/activation_service.go:57-197 | every operation that is not an update without a row or a half-failed revocation of the key, and in which no other cache stores under it, keeps every cached license under the key, for any tenant and for the key alone, in agreement with a row of that tenant |
| `LicenseCoherence.StepKeepsCoherentIff` | internal/infrastructure/cache/l2_redis.go:111-121 | exactly: an operation keeps a key coherent if and only if it is not an update without a row, not a revocation that fails half-way on a cached license, and leaves no other cache's entry under the key |
| `LicenseCoherence.RunIsCoherent` | internal/app/admin_service.go:225-361 | from an empty cache every run that is orderly on a key keeps it coherent with the table, if there is no second level or the key is neither a plan's or product's name nor a key hash of a tenant |
| `LicenseCoherence.TenantIsForgotten` | internal/infrastructure/cache/license_store.go:105-116 | forgetting a tenant leaves none of its licenses cached under its keys and touches neither another tenant's entries nor those by key alone |
| `LicenseCoherence.FailedValidationIsRemembered` | internal/infrastructure/cache/license_store.go:78-83 | a validation by tenant or by key alone that finds nothing leaves, if there is room, a note that answers the next look-ups until it expires |
| `LicenseCoherence.UpdateKeepsCoherentIff` | internal/infrastructure/db/license_repo.go:142-149 | a successful update keeps its key coherent if and only if its tenant has the row it names |
| `LicenseCoherence.RevokeKeepsCoherentIff` | internal/app/admin_service.go:351-361 | a revocation keeps its key coherent if and only if it does not fail between update and read-back on a license that is cached |
| `LicenseFailures.UpdateWithoutRow` | internal/app/admin_service.go:264-297 | a run: one update on an empty table, which stays empty while both look-ups answer a valid license |
| `LicenseFailures.HalfRevocationStaysValid` | internal/app/admin_service.go:351-361 | a run: create, then a revocation whose read-back fails; the row is revoked and the look-up still valid |
| `LicenseFreshness.LookupsAnswerTheLastCopy` | internal/infrastructure/cache/license_store.go:37-171 | from any write of a key on, through every run that goes astray on it by no update without a row, half-failed revocation or other cache, the owner's look-up and the look-up by key answer exactly the last copy written, or nothing, and that copy shares the persisted fields of the row as it is now, its id aside |
| `LicenseRevocation.RevocationIsSticky` | internal/app/admin_service.go:351-361 | after a revocation returned without error, in every mix of operations until an update names the key: no activation passes the service check, no validation by key alone says valid, and none for the owner or for a tenant with nothing cached under the key does, unless another cache can name the key and then only on the blank license |
| `LicenseRevocation.NeverValidIff` | internal/infrastructure/cache/license_store.go:37-79 | for a tenant whose row is revoked or another's, no later validation says valid, in any run without such an update, if and only if there is no second level or the key is no plan's or product's name, and every license cached for the tenant under the key is revoked or over before it begins; for an active time to live of at least two nanoseconds, so that a hit prolongs an entry |
| `LicenseFailures.StrayUpdateOutlivesRevocation` | internal/app/admin_service.go:264-361 | a run: tenant b updates a key of tenant a; b's look-up then answers a valid license, also after a's license was revoked |
| `LicenseTerms.ValidWithinTerms` | internal/app/validation_service.go:64-92 | from a save on, in every mix of operations until an update names the key: what validates lies within the saved dates and grace and, for a product license, asks for no other product, unless another cache can name the key and it is the blank license |
| `LicenseTerms.OtherProductsRefused` | internal/app/validation_service.go:68-77 | a license saved for one product never validates for another, neither for its tenant nor by key alone, until an update names the key, where no other cache can name it |
| `LicenseFreshness.SavedFeatures` | internal/app/admin_service.go:234-256 | after saving a plan license with an existing plan both look-ups answer it with a duplicate-free feature list equal, as a set, to ((active trial ? trial : plan) + add) - remove without empty names |
| `LicenseFreshness.FeaturesOverRuns` | internal/app/admin_service.go:225-297 | from such a save on, until another update names the key, whatever a look-up finds shows those features, or is the bare row with none, and the latter exactly when something was written under the key since |
| `Features.ResolveFinalFeatures` | internal/domain/license_resolution.go:55-93 | the loops list, once each, exactly the resolved set, or take a full override as it stands |
| `Features.ResolvedFeatures` | internal/domain/license_resolution.go:8-93 | what a license that passes the rules resolves to, in both kinds |
| `PlanSystem.PlanAdmin.CreatePlan` | internal/app/admin_service.go:85-109 | succeeds exactly for a named tenant and plan whose id no successful look-up shows to the tenant, and writes through to both levels |
| `PlanSystem.PlanAdmin.UpdatePlan` | internal/app/admin_service.go:111-128 | succeeds exactly for a visible plan, and writes through to both levels |
| `PlanSystem.UpdatedPlanIsRead` | internal/app/admin_service.go:111-147 | a plan just updated is what a look-up answers, from the cache until its entry expires and from the table after that |
| `PlanSystem.CreatedPlanIsRead` | internal/app/admin_service.go:85-147 | a plan just created under a new id is what a look-up answers |
| `PlanSystem.LookupLeaves` | internal/infrastructure/cache/plan_store.go:29-62 | a plan read from the table is cached; a miss is remembered if there is room and the second level does not answer |
| `PlanSystem.PlanAdmin.GetPlan` | internal/app/admin_service.go:130-147 | reads through, with a second level that never yields a plan; given agreement it answers what the table holds |
| `PlanSystem.PlanAdmin.DeletePlan` | internal/app/admin_service.go:159-173 | hides the row and drops the entry from both levels |
| `PlanSystem.PlanAdmin.SetPlanActive` | internal/app/admin_service.go:175-189 | sets the flag and drops the entry from both levels |
| `PlanSystem.PlanAdmin.RestorePlan` | internal/app/admin_service.go:191-215 | shows the row again and writes it through, or reports an error with the row shown and the cache as it was |
| `PlanSystem.CreateKeepsAgreementIff` | internal/infrastructure/db/plan_repo.go:58-71 | a creation keeps cache and table in agreement if and only if its id has no row, or one its tenant sees; not a deleted one and not another tenant's |
| `PlanSystem.RecreatedPlanIsOnlyCached` | internal/app/admin_service.go:85-173 | a run: create, delete and create again under one id; the cache answers a plan the table does not show |
| `PlanSystem.PlanCacheIsTransparent` | internal/infrastructure/cache/plan_store.go:29-79 | after every run that creates plans under such ids only, reading a plan through the cache is reading the table |
| `TenantSystem.RowAcceptsLastTwo` | internal/infrastructure/db/tenant_repo.go:159-172 | after any mix of operations a row accepts exactly its current key and, until that rotation's grace in whole seconds ends, the one before it |
| `TenantSystem.OlderKeysAreDead` | internal/domain/tenant.go:47-55 | with distinct hashes a key two or more rotations old is never accepted again, and which of the last two is accepted when |
| `TenantSystem.WholeSecondsOf` | internal/infrastructure/db/tenant_repo.go:159-172 | the grace of a rotation is its whole seconds, truncated toward zero |
| `TenantAuth.AuthenticationMatchesRow` | internal/infrastructure/cache/tenant_store.go:37-81 | after every serial run, whatever the second level answers, authentication succeeds only for a key the row accepts now and answers the row's status, limits and allow-list |
| `TenantAuth.SuspendTakesHoldIff` | internal/app/admin_service.go:370-400 | a suspension reaches the cache if and only if its second look-up works, the tenant was suspended already, or nothing was cached |
| `TenantAuth.SuspensionMissesTheCache` | internal/app/admin_service.go:370-400 | a run: create and suspend with a failing second look-up; the row is suspended and the key still authenticates a tenant in good standing |
| `TenantAuth.CreatedAuthenticates` | internal/app/admin_service.go:299-338 | until the entry expires, a tenant just created authenticates with its key |
| `TenantAuth.WarmedAuthenticates` | cmd/cli/cache.go:60-77 | after a warm-up with room for four entries the row answers for its current key and for the former one within its grace, until the entries expire |
| `TenantAuth.TenantService.Get` | internal/infrastructure/cache/tenant_store.go:37-81 | the look-up with its drop of entries that no longer accept the key, and with a second level that never yields a tenant; given agreement the row accepts the key and has that status |
| `TenantAuth.TenantService.Set` | internal/infrastructure/cache/tenant_store.go:118-126 | writes both indices on both levels |
| `TenantAuth.TenantService.Invalidate` | internal/infrastructure/cache/tenant_store.go:128-138 | removes both entries from both levels |
| `TenantAuth.TenantService.InvalidateByTenantID` | internal/infrastructure/cache/tenant_store.go:140-147 | removes what carries the tenant prefix from the first level and, licenses and plans included, from the second |
| `TenantAuth.TenantService.CreateTenant` | internal/app/admin_service.go:299-338 | which answer it gives; the new row field by field, and the cache |
| `TenantAuth.TenantService.SuspendTenant` | internal/app/admin_service.go:370-400 | which answer it gives; the row is suspended and otherwise unchanged, the tenant's licenses are dropped in any case, and when the second look-up works no cached copy in good standing is left |
| `TenantAuth.TenantService.ReinstateTenant` | internal/app/admin_service.go:402-415 | which answer it gives; the row is back in good standing and otherwise unchanged |
| `TenantAuth.TenantService.DeleteTenant` | internal/app/admin_service.go:417-437 | which answer it gives; the row is marked deleted, which counts as suspended, and otherwise unchanged, and no cached copy in good standing is left |
| `TenantAuth.TenantService.RotateTenantAPIKey` | internal/app/admin_service.go:439-459 | the row field by field: the new key is accepted at once, the former key becomes the previous one until its grace ends; cached entries go |
| `TenantAuth.TenantService.UpdateTenantProfile` | internal/app/admin_service.go:595-616 | writes the profile through under the current key only; succeeds whenever the database does |
| `TenantAuth.TenantService.UpdateTenantLimits` | internal/app/admin_service.go:461-477 | which answer it gives; the row has the new limits and is otherwise unchanged; cached entries go |
| `TenantAuth.TenantService.UpdateTenantIPAllowlist` | internal/app/admin_service.go:479-493 | the row has the new list and is otherwise unchanged; cached entries go |
| `TenantAuth.DisownedIsDropped` | internal/infrastructure/cache/tenant_store.go:47-51 | a cached tenant that no longer accepts the key is not answered, and nothing stays cached under that key; by key alone only a tenant that accepts it is answered |
| `TenantAuth.MissIsRemembered` | internal/infrastructure/cache/tenant_store.go:76-80 | a miss is remembered if there is room and the second level does not answer |
| `Validity.NeverExpiredInGrace` | internal/domain/license.go:82-104 | expired and in grace never both hold |
| `Validity.ValidityIsAnInterval` | internal/app/validation_service.go:64-92 | a fitting, unrevoked license is valid exactly from not-before minus five minutes to expiry plus max(0, grace) |
| `Validity.VerdictIff` | internal/app/validation_service.go:64-92 | each verdict by the license's own fields: revoked, another product named by product id or older product name, not begun, over, or valid and whether in grace |
| `Validity.InlineVerdictIff` | internal/http/license/handler.go:88-127 | the public handler's verdicts by the same fields, in its own order |
| `Validity.InlineAgreesIff` | internal/http/license/handler.go:88-127 | the public handler agrees on validity exactly where the not-before test does not decide, and on the whole verdict for licenses without one |
| `Validation.ValidIsBacked` | internal/app/validation_service.go:37-92 | after any run of the whole server from empty caches in which no suspension lapses and that is orderly on the key, for a key no other cache can name or without a second level, a valid answer means the tenant's row is in good standing and has this API key, now or within its grace, and the license has a row, which is that tenant's own, not revoked, inside its dates and, if for one product, for the one asked about |
| `Validation.RefusalIff` | internal/app/validation_service.go:37-63 | which part of the request is at fault for each refusal; a suspension is reported only for a row out of standing, and a verdict is given only for one in good standing that has the key |
| `Validation.NoVerdictUntilReinstated` | internal/app/validation_service.go:57-61 | once a tenant was deleted, or suspended with its second look-up working, no validation for it gives a verdict, in any run of the whole server, until a reinstatement names it |
| `Validation.AlwaysBackedIff` | internal/server/server.go:208-220 | from a system without licenses, every valid answer on a key is so backed in every such run if and only if there is no second level or the key is not the name of a plan or a product |
| `Validation.NamedIsValid` | internal/infrastructure/cache/l2_redis.go:111-121 | a run for every such name: one plan or product stored, one tenant created, and the answer is valid for any product although no license row exists |
| `LicenseFailures.TenantKeyIsALicense` | internal/infrastructure/cache/tenant_store.go:118-126 | a run: a tenant is created with a second level; asked about its own key hash as a license key, validation says valid although no license row exists |
| `LicenseFailures.RevokedValidatesAgain` | internal/infrastructure/cache/plan_store.go:64-70 | a run: a license under the name of a plan or product is created and revoked, the plan or product is created, the first level loses the license, and it validates again |
| `Validation.RefillKeepsVerdictIff` | internal/infrastructure/db/license_repo.go:23-68 | for every product and instant, the verdict on the saved copy is that on the license reloaded from its row, unless neither revocation nor the row's own product decides and either the plan's product, kept on the copy only, speaks against it, or it is open and within its grace |
| `Validation.RefillKeepsValidityIff` | internal/infrastructure/db/license_repo.go:23-68 | validity alone is lost or gained by a reload exactly when the license is otherwise good and either the lost product alone speaks against it before expiry, or no product does and it is within its grace |
| `LicenseFailures.ReloadForgetsTheProduct` | internal/app/admin_service.go:246-250 | a run: a license on a plan for another product is turned away, and valid for the same product after an activation and a reload |
| `LicenseFailures.ReloadForgetsTheGrace` | internal/infrastructure/db/license_repo.go:23-68 | a run: a license in its grace is valid, and expired after an activation and a reload |
| `WorkerPool.StepKeepsInv` | internal/worker/worker.go:24-68 | each enqueue, hand-over, take, cancellation check, execution and read keeps order, conservation, bounds and one result per answer |
| `WorkerPool.JobsAreConserved` | internal/worker/pool.go:34-94 | in every run accepted = queued + in flight + answered + discarded as multisets, first in first out; queue within capacity; in flight plus discarded within the workers; none discarded before cancellation |
| `WorkerPool.AnsweredOnce` | internal/worker/worker.go:35-68 | every answered job with a slot gets exactly one result, its own, panics included, and no job is answered twice |
| `WorkerPool.UnansweredGetNothing` | internal/worker/job.go:31-38 | a job not answered has received nothing |
| `WorkerPool.EveryAnswerWasExecuted` | internal/worker/worker.go:35-68 | every answer of a run is that of an execution of its job: an internal error exactly if it panicked, else its verdict |
| `WorkerPool.NothingStartsAfterCancel` | internal/worker/worker.go:24-45 | a cancelled pool starts no execution in any run |
| `WorkerPool.EnqueueAcceptsIff` | internal/worker/pool.go:59-66 | a job is taken into the queue exactly when there is room, and goes last |
| `WorkerPool.WorkersStay` | internal/worker/pool.go:34-57 | over every run no worker leaves a pool that is not cancelled, and none is added |
| `WorkerPool.EveryWorkerCanLeave` | internal/worker/pool.go:80-94 | draining can end: from every state of a cancelled and closed pool all workers can leave, by at most three steps each |
| `WorkerPool.ReadAtMostOnce` | internal/worker/worker.go:66-74 | over every run the results read for a job are at most those sent to it, and at most one |
| `Audit.RunLoop` | internal/infrastructure/audit/worker.go:53-91 | flushed batches followed by the pending one equal the non-nil entries dequeued, in order; batches have 1 to 100 entries; nothing is pending on return |
| `Audit.EachEntryOnce` | internal/infrastructure/audit/worker.go:53-91 | given a writer, the entries taken over are those received, each once and in order of arrival; without one, none |
| `Audit.WriteBatchWithRetry` | internal/infrastructure/audit/worker.go:109-128 | at most maxRetries + 1 attempts, stopping at the first success and otherwise only for exhaustion, no delay or cancellation |
| `Audit.WriteBatch` | internal/infrastructure/db/audit_writer.go:55-127 | the text reads back as parameters 1 to 9n in order, and the arguments are the n rows one after the other |
| `Audit.StatementNumbersItsArguments` | internal/infrastructure/db/audit_writer.go:60-104 | for every n, scanning the generated statement yields exactly 1..9n |
| `AuditColumns.ArgumentsMatchColumns` | internal/infrastructure/db/audit_writer.go:60-121 | argument 9r + k + 1 is what belongs into the k-th column the statement lists, of the r-th entry that is there and has an id, with the defaults for actor, address, metadata and time; no such entry is left out |
| `AuditColumns.GroupsJoined` | internal/infrastructure/db/audit_writer.go:60-104 | after its header the statement is one bracket of nine marks for each row, with commas between |
| `Audit.ItoaRoundTrip` | internal/infrastructure/db/audit_writer.go:143-145 | decimal notation reads back as the number |
| `Webhook.StepUsesWork` | internal/webhook/dispatcher.go:145-217 | every delivery uses up at least one of the attempts still possible; timers and loading never add any |
| `Webhook.RetriesTerminate` | internal/webhook/dispatcher.go:145-217 | without new dispatches a run makes at most as many deliveries as the attempts possible at its start |
| `Webhook.NothingSentAfterLeaving` | internal/webhook/dispatcher.go:92-104 | once the delivery loop has been left no run sends anything more, and what is queued stays queued |
| `WebhookPairs.AtMostFiveDeliveries` | internal/webhook/dispatcher.go:106-217 | in every run each payload goes to each webhook at most five times with strictly rising attempt numbers; queue within 500; the last schedule entry is never used |
| `WebhookPairs.FailingHookIsTriedFiveTimes` | internal/webhook/dispatcher.go:196-216 | from the initial state: webhooks loaded, an event dispatched to the one webhook of a tenant, every delivery failing; it gets exactly the attempts 1 to 5 and leaves nothing behind |
| `WebhookCauses.EveryJobIsCaused` | internal/webhook/dispatcher.go:106-143 | in every run whatever is queued, waits for a retry or was sent was caused by a dispatch of that payload to a tenant with that webhook, subscribed to the event |
| `WebhookCauses.OfferAllFits` | internal/webhook/dispatcher.go:106-143 | a dispatch appends a first attempt for each subscribed webhook in order, as far as there is room |
| `WebhookCauses.RetriesWait` | internal/webhook/dispatcher.go:196-216 | in every run a retry waits 1, 5, 25 seconds or two minutes after the first, second, third or fourth failure, and there is none after the fifth |
| `WebhookPairs.Dispatcher.Dispatch` | internal/webhook/dispatcher.go:106-143 | the queue afterwards is the old one with a first attempt for each subscribed webhook, cut off at its capacity; nothing else changes |
| `WebhookPairs.Dispatcher.Deliver` | internal/webhook/dispatcher.go:145-217 | one delivery: queue, log and retry timer by its outcome; the remaining work strictly decreases and the schedule is indexed within bounds |
| `WebhookPairs.Dispatcher.Fire` | internal/webhook/dispatcher.go:207-215 | a timer puts its job back with the next attempt number, or drops it |

## Left out

- Overlapping cache operations: license, plan and tenant caches are modelled as serial operations; races between a refill and a write are not covered.
- A failing second level: its circuit breaker, skipped writes and Pub/Sub delivery. The second level here is absent or never fails, but may lose any entry at any time; a received invalidation is such a loss in the first level.
- JSON encoding: a license in the second level round-trips as a value, and any other payload reads back as the blank license, as its decoder makes it.
- Tenant look-up by key alone: its entries survive a tenant invalidation, so nothing is claimed for what it answers; it is an operation of the model and proved not to disturb the other index.
- The key-only license index after a tenant invalidation keeps its entries until they expire; the model does this too.
- Tenant ids with colons, and a tenant called `by_api_key`: ids are generated and never look like that; `LicenseStore.ColonsCollide` shows why it matters.
- BucketMaps.BucketMap.Allow: creating a bucket and its first use share one clock reading, and a bucket is a value in the map, so two callers holding one bucket across its eviction are not modelled.
- LicenseService.Service.Activate: the locked transaction's answer is a parameter; what it can be is `ActivationFlow.TransactionAfterCheck`, and what the transaction does is the seat protocol.
- Grace periods count days of 24 hours.
- Floating point: token counts are real numbers, so rounding is not modelled.
- Redis branches of the failure limiter; requests are serial there.
- Whether draining the pool ends before its time-out, enqueueing after it, and result channels closed by their owner.
- Duplicate audit rows when a write fails half-way and is retried.
- The product table and the first level of the product cache, which have the shape of the plan's; what that cache does to the second level is in the model.
- HTTP handlers apart from the inline verdict, the command line, configuration, migrations, address checks, signatures, encryption and id generation.
