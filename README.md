# TimekeeperV2 core, modelled and proved in Dafny

TimekeeperV2 is a Discord time-tracking bot. Users clock in and out of
categories, and admins control who may use the tracker. A small HTTP API
serves the data behind API keys with tiers and rate limits, and users can open
support tickets with the developer. This project models the logic under those
features. Redis, Discord and Flask only move data in and out of that logic.
The modules are:

- `CircuitBreaker`: the `AdvancedCircuitBreaker` state machine (CLOSED, OPEN,
  HALF_OPEN) that guards every Redis call. It has a pure transition function
  and a class whose methods are proved against it.
- `TokenBuckets`: the `TokenBucket` rate limiter of the batch processor.
- `BatchProcessor`: `BatchOperation` and the `EnterpriseBatchProcessor`. The
  processor has a priority queue, a flush-due test, bounded batch extraction,
  and a retry / dead-letter policy.
- `CacheHierarchy`: the tracker's seven caches (L1, L2, L3, user, leaderboard,
  settings, analytics) behind `_get_from_cache_hierarchy`,
  `_set_in_cache_hierarchy` and `_invalidate_cache_pattern`.
- `TrackerValidation`: `_validate_time_entry`, `_validate_category_data`, the
  brightness step of `_generate_category_color`, and the tracker's
  `_format_time`.
- `ClockManagement`: `UltimateClockManager`'s session store, with clock in,
  clock out, the active-session lookup, and how finished time is added to the
  totals.
- `Permissions`: the per-server permission record of `PermissionMixin`. It
  covers suspension, required roles, bulk operations, cleanup and the access
  decision.
- `ApiAuthentication`: API tiers, the endpoint matcher, key generation with
  sub-key limits, key validation, the per-minute rate limit, revocation, and
  the checks of `require_api_key`.
- `ConfigCommands`: the `/config` duration parser `_parse_time_string`, the
  admin test, and `check_user_permissions`.
- `ExportFormat`: the export command's `_format_time`, proved to parse back
  through `_parse_time_string`.
- `TimecardCommands`: category suggestions, session tips, session quality and
  session insights of the `/clockin` and `/clockout` commands.
- `SupportTickets`: the support-ticket desk of the help command. It has a
  per-user ticket dictionary, a ticket counter, replies, closing, the ticket
  list and the submit form.
- `Text` and `Wrappers`: string helpers (ASCII lower-casing, stripping,
  decimal rendering and reading, zero padding) and `Option` / `Result`.

Modelling conventions:
- Time is an integer `now` (seconds) passed in by the caller.
- Redis stores are Dafny maps held in class fields.
- Random tokens, uuids and the outcome of a Discord DM are parameters.
- Python dicts whose insertion order is visible are sequences of pairs.
- Durations that the source computes in float hours are integer seconds here;
  for example, 4 hours is 14400 seconds.

## Model

| member | source | states |
|---|---|---|
| CircuitBreaker.Initial | Utils/timekeeper.py:265-299 | A new breaker is CLOSED with both counters at zero. |
| CircuitBreaker.Cleared | Utils/timekeeper.py:464-481 | `reset` restores CLOSED, zeroes the failure, success and request counters, and keeps the configuration. |
| CircuitBreaker.CallKeepsInv | Utils/timekeeper.py:301-394 | Every call and every reset keeps the breaker invariant. An OPEN breaker has a last failure time and at least `failure_threshold` failures. A HALF_OPEN breaker has a last failure time, and its failures plus successes reach the threshold. The invariant says nothing about CLOSED, where successes keep counting. |
| CircuitBreaker.BlockedInsideWindow | Utils/timekeeper.py:309-316 | While OPEN and inside the recovery window, a call is refused with the circuit-open error. The wrapped function is not run, and only the request counter moves. |
| CircuitBreaker.HalfOpenAfterWindow | Utils/timekeeper.py:309-324 | Once the recovery window has passed, an OPEN breaker admits the call, moves to HALF_OPEN with the success count reset to 0, and keeps its failure count. |
| CircuitBreaker.FailureCounting | Utils/timekeeper.py:370-394 | A failure adds exactly one to `failure_count`. The state is OPEN afterwards exactly when it was OPEN already or the new count reaches the threshold; otherwise the state is unchanged. |
| CircuitBreaker.SuccessCounting | Utils/timekeeper.py:346-368 | A success adds one to the success count. In HALF_OPEN it closes the breaker and clears the failures at the success threshold. In CLOSED it lowers the failure count by one but not below zero. |
| CircuitBreaker.ThresholdFailuresOpen | Utils/timekeeper.py:370-394 | Starting CLOSED at zero, n failures (n at most the threshold) leave failure count n. The breaker is OPEN exactly when n reaches the threshold. |
| CircuitBreaker.FailuresStep | Utils/timekeeper.py:301-344 | Each of those failures is one full `call` whose function raises. |
| CircuitBreaker.SuccessesDrainFailures | Utils/timekeeper.py:346-368 | In CLOSED, n successes lower the failure count by n, floored at zero, and the breaker stays CLOSED. |
| CircuitBreaker.HalfOpenRecovers | Utils/timekeeper.py:346-368 | From HALF_OPEN with no successes, the breaker stays HALF_OPEN until exactly `success_threshold` successes. Then it is CLOSED with the failure count at 0. |
| CircuitBreaker.HalfOpenCounts | Utils/timekeeper.py:346-368 | From any HALF_OPEN success count, n further successes add n. The breaker closes exactly when the threshold is reached. |
| CircuitBreaker.ProbeFailureReopens | Utils/timekeeper.py:309-394 | A failing call after the window (the breaker still meets the threshold) leaves the breaker OPEN with a fresh failure time, so calls in the next window are blocked. |
| CircuitBreaker.HalfOpenFailureMayStayHalfOpen | Utils/timekeeper.py:301-394 | HALF_OPEN admits every call; there is no single-probe gate. A failure below the threshold keeps the breaker HALF_OPEN. |
| CircuitBreaker.AdvancedCircuitBreaker.constructor | Utils/timekeeper.py:265-299 | The object starts in the `Initial` state for its configuration. |
| CircuitBreaker.AdvancedCircuitBreaker.Call | Utils/timekeeper.py:301-344 | The new fields and the call's outcome are exactly `Step` of the old state; the invariant is kept. |
| CircuitBreaker.AdvancedCircuitBreaker.RecordSuccess | Utils/timekeeper.py:346-368 | The fields become `OnSuccess` of the old state. |
| CircuitBreaker.AdvancedCircuitBreaker.RecordFailure | Utils/timekeeper.py:370-394 | The fields become `OnFailure` of the old state. |
| CircuitBreaker.AdvancedCircuitBreaker.Reset | Utils/timekeeper.py:464-481 | The fields become `Cleared` of the old state. |
| TokenBuckets.Consumed | Utils/timekeeper.py:861-879 | After refilling (capped at capacity) tokens stay within [0, capacity]. A request is granted iff the refilled amount covers n. A grant deducts exactly n; a refusal deducts nothing. |
| TokenBuckets.FullRefillGrants | Utils/timekeeper.py:861-879 | After enough idle time, any request up to capacity is granted. |
| TokenBuckets.BurstWithinTokens | Utils/timekeeper.py:861-879 | With no time passing, k single-token requests in a row are all granted iff k is at most the tokens held. |
| TokenBuckets.TokenBucket.constructor | Utils/timekeeper.py:854-859 | A new bucket is full. |
| TokenBuckets.TokenBucket.Consume | Utils/timekeeper.py:861-879 | The tokens and the verdict are `Consumed` of the old tokens and the elapsed time. |
| BatchProcessor.Priority.Value | Utils/timekeeper.py:231-236 | The enum values are HIGH 1 < NORMAL 2 < LOW 3 < BACKGROUND 4. |
| BatchProcessor.NewOperation | Utils/timekeeper.py:239-251 | A new operation has 0 retries, a limit of 3 retries and the current time as its creation time. |
| BatchProcessor.Pow2Monotone | Utils/timekeeper.py:770 | The exponential backoff base 2^n grows with n. |
| BatchProcessor.RetryDelaySchedule | Utils/timekeeper.py:770 | The retry delay min(2^retry_count, 60) lies in [1, 60], is 2^n up to 5 retries and 60 from 6 on, and never shrinks. |
| BatchProcessor.FailedFate | Utils/timekeeper.py:763-788 | A failed operation has its retry count raised by one. It is requeued with that backoff delay iff the new count is at most `max_retries`; otherwise it is dead-lettered with the current timestamp. |
| BatchProcessor.RetriesEndInDeadLetter | Utils/timekeeper.py:763-788 | An operation that keeps failing is dead-lettered after exactly `max_retries + 1` failures. |
| BatchProcessor.AppendBounded | Utils/timekeeper.py:779-784 | The bounded dead-letter deque (maxlen 1000) appends the entry and drops the oldest one when full. |
| BatchProcessor.MinRankIndex | Utils/timekeeper.py:683-696 | The index found holds an operation of least priority value, which `heappop` takes next. |
| BatchProcessor.RemoveAtMultiset | Utils/timekeeper.py:683-696 | Popping one element leaves the other elements as a multiset. |
| BatchProcessor.PopKeepsOrder | Utils/timekeeper.py:683-696 | Adding a least-priority element to the batch keeps the batch sorted by priority, ahead of everything left, and keeps the contents as a multiset. |
| BatchProcessor.EnterpriseBatchProcessor.constructor | Utils/timekeeper.py:486-531 | The processor starts stopped with empty queues, zero retried and dead-letter counters, and a fresh full bucket (1000 of 1000 tokens, refilling 100 per second, last refilled now). |
| BatchProcessor.EnterpriseBatchProcessor.Start | Utils/timekeeper.py:533-549 | Starting sets the running flag and changes no queue. |
| BatchProcessor.EnterpriseBatchProcessor.Stop | Utils/timekeeper.py:551-574 | Stopping clears the running flag and changes no queue. |
| BatchProcessor.EnterpriseBatchProcessor.AddOperation | Utils/timekeeper.py:576-598 | The call returns False and leaves the queue unchanged when stopped, when the bucket refuses, or when the queue is at `max_queue_size`. The bucket is not touched when stopped. Otherwise the queue grows by exactly the operation. |
| BatchProcessor.EnterpriseBatchProcessor.ShouldProcessBatch | Utils/timekeeper.py:637-646 | A batch is due iff the queue holds `batch_size` items, or it is non-empty and the flush interval has passed. A due batch is never empty. |
| BatchProcessor.EnterpriseBatchProcessor.ExtractBatch | Utils/timekeeper.py:683-696 | min(`batch_size`, queue size) operations are removed, lowest priority value first. The batch and the new queue together are a permutation of the old queue. The flush time is reset. The class invariant holds afterwards, and the running flag, the dead-letter queue and both counters stay as they were. |
| BatchProcessor.EnterpriseBatchProcessor.HandleFailedOperation | Utils/timekeeper.py:763-788 | The queue or the bounded dead-letter queue changes exactly as `FailedFate` says. |
| BatchProcessor.EnterpriseBatchProcessor.ClearDeadLetterQueue | Utils/timekeeper.py:844-848 | The dead-letter queue and its counter are emptied; nothing else changes. |
| CacheHierarchy.Lookup | Utils/timekeeper.py:1879-1916 | A lookup finds a value iff some cache holds the key, and L1 takes precedence. |
| CacheHierarchy.Got | Utils/timekeeper.py:1879-1916 | `_get_from_cache_hierarchy` returns what `Lookup` sees. |
| CacheHierarchy.ReadYourWrite | Utils/timekeeper.py:1879-1935 | Right after a set of key k to v, a get of k returns v (eviction ignored). |
| CacheHierarchy.PutKeepsOtherKeys | Utils/timekeeper.py:1918-1935 | A set changes what no other key looks up to. |
| CacheHierarchy.GetCountsOnce | Utils/timekeeper.py:1879-1916 | Each lookup adds exactly one to hits or misses, and it is a hit iff a value is returned. |
| CacheHierarchy.PromotionMakesRepeatHitL1 | Utils/timekeeper.py:1890-1912 | An L2 or L3 hit is copied into the faster tiers, so the next lookup of the key hits in L1. |
| CacheHierarchy.GetPreservesLookups | Utils/timekeeper.py:1879-1916 | Promotion never changes what any key looks up to. |
| CacheHierarchy.GotWithoutPromotion | Utils/timekeeper.py:1886-1916 | An L1 hit or a miss changes what no key looks up to. |
| CacheHierarchy.GotFromL3 | Utils/timekeeper.py:1898-1904 | Copying an L3 hit into L2 and L1 changes what no key looks up to. |
| CacheHierarchy.GotIntoL1 | Utils/timekeeper.py:1891-1912 | Copying an L2 or specialised-cache hit into L1 changes what no key looks up to. |
| CacheHierarchy.PromotedToL1 | Utils/timekeeper.py:1891-1912 | Writing a key's current value into L1, or into L2 when L1 lacks it, leaves every lookup as it was. |
| CacheHierarchy.InvalidateRemovesExactlyMatches | Utils/timekeeper.py:1937-1952 | After invalidation, a key containing the pattern misses everywhere, and every other key looks up as before. |
| CacheHierarchy.DropMatching | Utils/timekeeper.py:1937-1952 | The per-cache loop removes exactly the keys containing the pattern. |
| CacheHierarchy.CacheHierarchy.constructor | Utils/timekeeper.py:1745-1753 | The caches start empty. |
| CacheHierarchy.CacheHierarchy.Get | Utils/timekeeper.py:1879-1916 | The caches and the result are `Got` of the old caches. |
| CacheHierarchy.CacheHierarchy.Set | Utils/timekeeper.py:1918-1935 | The caches become `Put` with the specialised cache the `cache_type` selects. |
| CacheHierarchy.CacheHierarchy.InvalidatePattern | Utils/timekeeper.py:1937-1952 | The caches become `Invalidated` by the pattern. |
| TrackerValidation.ValidateTimeEntry | Utils/timekeeper.py:2019-2048 | An entry is valid iff 0 < seconds <= 86400, the server has categories, and `validate_category` accepts the category, possibly from a cached verdict. Each error is given exactly when its check is the first to fail, in the source's order. |
| TrackerValidation.ValidateCategory | Utils/timekeeper.py:2835-2855 | A cached verdict is returned as it is. Without one, the category is accepted iff its lower-cased, stripped name is one of the server's categories. |
| TrackerValidation.CachedVerdictOutlivesChange | Utils/timekeeper.py:2835-2855 | A verdict cached under the old category list still decides entries once the list changes. A removed category keeps validating, and one checked before it was added stays refused. |
| TrackerValidation.ValidateCategoryData | Utils/timekeeper.py:2519-2552 | A category is accepted iff the name is non-blank, at most 50 characters, from the class `[A-Za-z0-9\s\-_]` and not reserved; the description is at most 200 characters; the colour is empty or `#RRGGBB`; and the weight lies in [0, 5]. Each rejection names a violated rule. |
| TrackerValidation.AcceptedNameShape | Utils/timekeeper.py:2519-2552 | An accepted name has 1 to 50 characters and is not all blank. |
| TrackerValidation.AdjustBrightness | Utils/timekeeper.py:2565-2570 | Channels stay below 256 and never darken. A colour already bright (sum >= 384) is kept; a dark one has every channel at least 64 and gains at least 64 in total. |
| TrackerValidation.HexDigit | Utils/timekeeper.py:2572 | Each digit the formatter prints is a hexadecimal digit. |
| TrackerValidation.Hex2 | Utils/timekeeper.py:2572 | A channel prints as exactly two hexadecimal digits. |
| TrackerValidation.GeneratedColorIsValid | Utils/timekeeper.py:2543-2572 | Every generated colour passes the category colour check. |
| TrackerValidation.TrackerDisplay | Utils/timekeeper.py:2157-2172 | The chosen display shape and its components add back up to the input seconds, with minutes and seconds below 60. |
| TrackerValidation.Render | Utils/timekeeper.py:2157-2172 | Every rendered duration has at least two characters. |
| TrackerValidation.FormatTime | Utils/timekeeper.py:2157-2172 | The text ends in 's' iff it shows seconds, and in 'h' iff it shows whole hours. |
| ClockManagement.ClockOutDuration | Utils/timekeeper.py:3572-3589 | Without `force`, a duration below 1 s is SESSION_TOO_SHORT and one above 86400 s is SESSION_TOO_LONG; otherwise it is recorded unchanged. With `force`, durations are capped at 86400. |
| ClockManagement.AddedToTotalsEffect | Utils/timekeeper.py:3696-3704 | Finished time is added to its category and to the `total` field. No other field changes. A category named `total` is counted twice. |
| ClockManagement.ClockManager.constructor | Utils/timekeeper.py:3419-3436 | All stores start empty and the counters at zero. |
| ClockManagement.ClockManager.GetActiveSession | Utils/timekeeper.py:3936-3958 | The call returns the stored session for (server, user), copying it into the local cache, or None; the store is unchanged. |
| ClockManagement.ClockManager.ClockIn | Utils/timekeeper.py:3438-3552 | An existing session gives ALREADY_CLOCKED_IN and nothing is written. Otherwise a session in the lower-cased, stripped category starting now is written to the store and the cache, and one session is counted. |
| ClockManagement.ClockManager.ClockOut | Utils/timekeeper.py:3554-3683 | With no session the result is NOT_CLOCKED_IN, and a refused duration gives its error; in both cases no store, total, entry or leaderboard changes. On success the time is added to the totals, the completion is recorded, and the session is deleted from both the store and the local cache. |
| ClockManagement.ClockManager.Finish | Utils/timekeeper.py:3613-3675 | The success path of clock-out. The user's and server's totals, the entries and the leaderboards rise by the seconds. The session leaves the store and the local cache. The completion is kept under its session id, one more completed session is counted, and the result carries the new category total. |
| ClockManagement.ClockManager.AddSessionTime | Utils/timekeeper.py:3685-3739 | The user's and server's totals, the time entry and the category and total leaderboards each rise by the session's seconds. The result is the new category total. |
| Permissions.RemoveFirst | Utils/permissions.py:110 | `list.remove` deletes exactly one occurrence. |
| Permissions.SuspendKeepsNoDuplicates | Utils/permissions.py:77-97 | Suspending keeps the suspended list free of duplicates, the user is suspended afterwards, and suspending twice equals suspending once. |
| Permissions.UnsuspendUndoesSuspend | Utils/permissions.py:77-115 | Suspend followed by unsuspend restores the original list. |
| Permissions.RemoveFirstOfFreshLast | Utils/permissions.py:110 | Removing a user that was just appended restores the list. |
| Permissions.UnsuspendRemovesUser | Utils/permissions.py:99-115 | After unsuspending, the user is not suspended, and exactly the other users remain. |
| Permissions.CountOne | Utils/permissions.py:84-97 | In a duplicate-free list each user occurs once. |
| Permissions.Kept | Utils/permissions.py:296-312 | The cleanup filter keeps exactly the ids present in both lists, never lengthening the list. |
| Permissions.KeptIdempotent | Utils/permissions.py:296-312 | Cleanup twice equals cleanup once, and a list already valid is left as it is. |
| Permissions.SuspendAllMembers | Utils/permissions.py:222-253 | A bulk suspension stays duplicate-free, and the suspended set is the old set plus the ids. |
| Permissions.UnsuspendAllMembers | Utils/permissions.py:255-282 | A bulk unsuspension stays duplicate-free, and the suspended set is the old set minus the ids. |
| Permissions.RemovalKeepsNoDuplicates | Utils/permissions.py:99-115 | Unsuspending keeps the list duplicate-free. |
| Permissions.RemoveFirstKeepsNoDuplicates | Utils/permissions.py:110 | Removing one occurrence keeps a list duplicate-free. |
| Permissions.CheckUserAccess | Utils/permissions.py:176-205 | Access is granted iff the system is enabled, the user is not suspended, and the required roles are empty or overlap the user's roles. A grant has an empty reason; the disabled and suspended denials give their own messages, in that order. |
| Permissions.AccessMonotoneInRoles | Utils/permissions.py:176-205 | Holding one more role never takes access away, and no role overrides a suspension. |
| Permissions.PermissionStore.constructor | Utils/permissions.py:16-21 | The store starts with no records. |
| Permissions.PermissionStore.Save | Utils/permissions.py:38-70 | The record is stored under its server with `updated_at` set to now. |
| Permissions.PermissionStore.SuspendUser | Utils/permissions.py:77-97 | The call returns False and changes nothing for a suspended user; otherwise it appends the user, saves, and returns True. |
| Permissions.PermissionStore.UnsuspendUser | Utils/permissions.py:99-115 | The call returns False and changes nothing for a user who is not suspended; otherwise it removes the user, saves, and returns True. |
| Permissions.PermissionStore.AddRequiredRole | Utils/permissions.py:117-134 | A non-positive role id is a validation error. A present role gives False with nothing saved. Otherwise the role is appended and the result is True. |
| Permissions.PermissionStore.RemoveRequiredRole | Utils/permissions.py:136-153 | A non-positive role id is a validation error. An absent role gives False with nothing saved. Otherwise the role is removed and the result is True. |
| Permissions.PermissionStore.BulkSuspendUsers | Utils/permissions.py:222-253 | The three counts sum to the number of ids. The changed count is the number of newly suspended ids. The record is saved iff that count is positive. |
| Permissions.PermissionStore.BulkUnsuspendUsers | Utils/permissions.py:255-282 | The three counts sum to the number of ids. The changed count is the number of ids actually unsuspended. The record is saved iff that count is positive. |
| Permissions.PermissionStore.CleanupInvalidPermissions | Utils/permissions.py:284-332 | Only valid role and user ids are kept, in order. Each removed count is old length minus new length, the total is their sum, and the record is saved iff it is positive. |
| ApiAuthentication.Tier.Value | API/middleware/auth..py:16-21 | Tiers are ordered SUPPORTER 1 < PREMIUM 2 < ENTERPRISE 3 < ADMIN 4. |
| ApiAuthentication.RateLimit | API/middleware/auth..py:24-103 | Every tier but ADMIN has a positive per-minute limit; ADMIN has none. |
| ApiAuthentication.SupportsSubKeys | API/middleware/auth..py:24-103 | Exactly ENTERPRISE and ADMIN have the `sub_keys` feature. |
| ApiAuthentication.AnyAdmits | API/middleware/auth..py:117-125 | The loop over allowed entries succeeds iff some entry admits the endpoint. |
| ApiAuthentication.CanAccessEndpoint | API/middleware/auth..py:110-125 | Access is granted iff the tier's list has `*`, or some entry equals the endpoint, or some entry ends in `:full` and the endpoint starts with that entry's text before the first `:`. |
| ApiAuthentication.TierAccessMonotone | API/middleware/auth..py:24-125 | Any endpoint a lower tier can reach, every higher tier can reach too. |
| ApiAuthentication.BeforeFirstOfJoin | API/middleware/auth..py:121 | The resource part of `base:scope` is `base`. |
| ApiAuthentication.FullScopeCovers | API/middleware/auth..py:117-125 | A `base:full` entry admits every endpoint that any `base:scope` entry admits. |
| ApiAuthentication.StepSupporterPremium | API/middleware/auth..py:24-125 | Every SUPPORTER entry that admits an endpoint has a PREMIUM entry admitting it. |
| ApiAuthentication.ReadFullCovers | API/middleware/auth..py:24-125 | `users:read:full` admits whatever `users:full` admits. |
| ApiAuthentication.StepPremiumEnterprise | API/middleware/auth..py:24-125 | Every PREMIUM entry that admits an endpoint has an ENTERPRISE entry admitting it. |
| ApiAuthentication.PremiumWithinEnterprise | API/middleware/auth..py:24-103 | Each PREMIUM entry is either repeated at the same position of the ENTERPRISE list or widened there from `base:scope` to `base:full`. |
| ApiAuthentication.Validate | API/middleware/auth..py:223-265 | A key validates iff it starts with `tk`, is stored, and is enabled. A sub-key's rate pool is its parent's hash, and any other key's pool is its own. |
| ApiAuthentication.RateDecision | API/middleware/auth..py:277-301 | The request is allowed iff the post-increment count is within the limit; remaining is max(0, limit - count). |
| ApiAuthentication.MinuteBudget | API/middleware/auth..py:280-301 | In a fresh minute, k requests of a limited key leave k on its pool's counter, and exactly min(k, limit) of them are allowed. |
| ApiAuthentication.RateCheck | API/middleware/auth..py:268-301 | ADMIN keys and keys without a limit are allowed and leave the counters alone. Any other request sets its pool's counter for the minute to one more than before and is allowed iff that count is within the limit. |
| ApiAuthentication.UnlimitedAlwaysAllowed | API/middleware/auth..py:276-278 | For ADMIN keys and keys without a limit, every one of k requests is allowed and nothing is counted. |
| ApiAuthentication.Revoked | API/middleware/auth..py:339-358 | Revocation disables the key and every listed stored sub-key, changing only their `enabled` field; a missing key becomes a disabled stub record; every other key is left as it was. |
| ApiAuthentication.Screen | API/middleware/auth..py:377-428 | The checks run in the order missing key, invalid key, tier below `min_tier`, endpoint not available to the tier, and missing permissions. Each denial is given exactly when its check is the first to fail. A request passes iff the key validates, the tier reaches `min_tier` and the endpoint, and the permissions hold `*` or some required one. |
| ApiAuthentication.ApiAuth.constructor | API/middleware/auth..py:128-129 | The key stores start empty. |
| ApiAuthentication.ApiAuth.GenerateApiKey | API/middleware/auth..py:132-220 | Sub-key creation fails for a missing parent, a parent tier without `sub_keys`, or a parent at `max_sub_keys`. On success the key starts with `tk_sub_` for a sub-key and `tk_` otherwise, and it is stored enabled and indexed under its guild and parent. |
| ApiAuthentication.ApiAuth.CheckRateLimit | API/middleware/auth..py:268-301 | The verdict and the new counters are `RateCheck` of the old counters. For a limited key the verdict is `RateDecision` of the limit and the incremented count. The key stores are unchanged. |
| ApiAuthentication.ApiAuth.RevokeKey | API/middleware/auth..py:339-358 | The keys become `Revoked` with the key's stored sub-keys. |
| ApiAuthentication.ApiAuth.Authorize | API/middleware/auth..py:377-441 | A request refused by `Screen` gets that denial and counts nothing. Otherwise the rate counters become `RateCheck`'s. The request is refused with RATE_001 unless the rate verdict allows it. A passing request adds one to the key's `total_requests`; a refused one changes no key. |
| ConfigCommands.RunEnd | commands/config.py:513 | `\d+` matches a maximal digit run. |
| ConfigCommands.InRange | commands/config.py:532-538 | A total is accepted iff it lies in [0, 604800]. |
| ConfigCommands.ParseTime | commands/config.py:500-538 | Every accepted duration lies in [0, 604800]. |
| ConfigCommands.ParseTimeString | commands/config.py:500-538 | The loop over the unit patterns and their matches computes `ParseTime`. |
| ConfigCommands.RunEndOfDigits | commands/config.py:513 | A digit run that ends in a non-digit ends there. |
| ConfigCommands.FindallToken | commands/config.py:513 | `re.findall` yields a number followed by its unit and then continues after it. |
| ConfigCommands.FindallSkip | commands/config.py:513 | Non-digit characters are skipped by the scan. |
| ConfigCommands.ParseOfUnits | commands/config.py:504-519 | When some unit pattern matches, the result is 3600 times the hour numbers plus 60 times the minute numbers plus the second numbers, range-checked. |
| ConfigCommands.UnitsUnfold | commands/config.py:506-519 | The unit loop sums the three units with multipliers 3600, 60 and 1, and "some unit matched" means one of the three match lists is non-empty. |
| ConfigCommands.ParseOfDigits | commands/config.py:521-530 | A plain digit string with no unit is read as an integer and range-checked. |
| ConfigCommands.FindallTwoAt | commands/config.py:513 | When a string holds a number and its unit, a digit-free run, and then a second number and its unit, each unit's match list holds exactly the numbers written with it. |
| ConfigCommands.FindallLastToken | commands/config.py:513 | A number and its unit that end the string are the last match of that unit's pattern and of no other. |
| ConfigCommands.FindallTwoTokens | commands/config.py:513 | Over "<a><u1><sep><b><u2>" with a digit-free separator, each unit's match list holds exactly the numbers written with it. |
| ConfigCommands.TwoTokensNormal | commands/config.py:504-505 | Such a string is already lower-case and stripped. |
| ConfigCommands.OneTokenNormal | commands/config.py:504-505 | A number followed by its unit is already lower-case and stripped. |
| ConfigCommands.ParseTokens | commands/config.py:504-538 | A string whose match lists are one or two tokens parses to their weighted sum. |
| ConfigCommands.WeightedTokens | commands/config.py:506-519 | Weighting the hour, minute and second match lists of one or two tokens by 3600, 60 and 1 gives the seconds the tokens denote. |
| ConfigCommands.UnitWeight | commands/config.py:506-519 | One number weighted by the size of its unit: 3600 for h, 60 for m, 1 for s. |
| ConfigCommands.TokenSum | commands/config.py:517-519 | A match list of one or two numbers adds up to those numbers. |
| ConfigCommands.ParseTwoTokens | commands/config.py:504-538 | "<a><u1> <b><u2>" parses to multiplier(u1)·a + multiplier(u2)·b when in range. |
| ConfigCommands.ParseOneToken | commands/config.py:504-538 | "<a><u>" parses to multiplier(u)·a when in range. |
| ConfigCommands.ParsePlainNumber | commands/config.py:521-538 | A plain number n parses to n when in range. |
| ConfigCommands.ParseNegativeNumber | commands/config.py:521-535 | "-n" is rejected as negative. |
| ConfigCommands.IsAdmin | commands/config.py:47-50 | A user is an admin iff they have `manage_guild` or `administrator`. |
| ConfigCommands.RoleNames | commands/config.py:94-100 | The listed role names are names the guild has, one for each required role the guild knows. |
| ConfigCommands.CollectRoleNames | commands/config.py:95-99 | The loop over the required roles yields `RoleNames`: the guild's name for each required role it knows, in order. |
| ConfigCommands.CheckUserPermissions | commands/config.py:77-106 | The loop computes `PermissionDecision` on the server's record. That decision denies, in order: a disabled system, a suspended user, then required roles set but none held. Otherwise it returns (True, ""). |
| ConfigCommands.DecisionAgreesWithAccessCheck | commands/config.py:77-106 | The command's check reaches the same verdict as `check_user_access` in Utils/permissions.py. |
| ExportFormat.Decomposition | commands/export.py:210-212 | h·3600 + m·60 + r = s with m and r in [0, 60), and h > 0 iff s >= 3600. |
| ExportFormat.FormatParsesBack | commands/export.py:208-219 | Within [0, 604800] the exported text parses back through `_parse_time_string` to the input, with the seconds dropped once hours are shown. |
| ExportFormat.HoursParseBack | commands/export.py:214-215 | "{h}h {m}m" parses back to s minus its seconds. |
| ExportFormat.MinutesParseBack | commands/export.py:216-217 | "{m}m {r}s" parses back to s. |
| ExportFormat.SecondsParseBack | commands/export.py:218-219 | "{r}s" parses back to s. |
| ExportFormat.ParsesAs | commands/export.py:214-217 | A two-unit export string parses to its weighted sum. |
| ExportFormat.FormatTime | commands/export.py:208-219 | `_format_time`: the text is at least two characters long and ends in 'm' iff the input is at least one hour (hours shown), otherwise in 's'. |
| ExportFormat.NegativeShownModuloHour | commands/export.py:210-219 | A negative input is shown as its remainder modulo an hour. |
| TimecardCommands.Filtered | commands/timecard.py:113-121 | A filter pass keeps exactly the categories the rule admits, in order. |
| TimecardCommands.GetCategorySuggestions | commands/timecard.py:104-123 | The method computes `Suggestions`. |
| TimecardCommands.CollectMatches | commands/timecard.py:113-121 | Each loop appends the filtered categories. |
| TimecardCommands.FilteredIsSubsequence | commands/timecard.py:113-121 | A filter pass keeps the original order. |
| TimecardCommands.PrefixIsSubsequence | commands/timecard.py:123 | Truncating to three keeps that order. |
| TimecardCommands.SuggestionsSpec | commands/timecard.py:104-123 | There are at most 3 suggestions, taken from the categories in order, and none without categories. Substring matches in either direction, ignoring case, come first. The overlap rule (at least min(2, len//2) shared letters) applies only when no substring matches. |
| TimecardCommands.SessionTip | commands/timecard.py:125-135 | There is a tip iff the category is one of the six known ones. |
| TimecardCommands.AnalyzeSessionQuality | commands/timecard.py:446-476 | There is a rating iff the category is work, development, meeting or break. |
| TimecardCommands.QualityByLevel | commands/timecard.py:450-476 | Work and development rate Excellent, Good, Fair, Short or Brief at the 4 h, 2 h, 1 h and 0.5 h thresholds. Meetings rate Efficient up to 0.5 h, Standard up to 1.5 h, and Extended beyond. Breaks rate Perfect up to 0.5 h and Extended beyond. |
| TimecardCommands.LevelsMonotone | commands/timecard.py:450-470 | Longer sessions never rate lower on the work scale, nor on the meeting scale. |
| TimecardCommands.Insights | commands/timecard.py:478-492 | The deep-work insight appears iff a focus session is at least 2 h. The recharge insight appears iff a break is at least 0.25 h. The productivity insight appears iff a non-break session is at least 1 h. |
| TimecardCommands.GenerateSessionInsights | commands/timecard.py:478-496 | There is no insight iff a break is under 0.25 h, or a non-break session is under 1 h. |
| TimecardCommands.InsightsCombined | commands/timecard.py:492 | The insights are joined with " • " in the source's order. |
| SupportTickets.TicketIdNumber | commands/help.py:564-565 | A ticket id is "TK" plus the counter zero-padded to 4 digits, and the number reads back from the id. |
| SupportTickets.TicketIdInjective | commands/help.py:564-565 | Different counters give different ids. |
| SupportTickets.KeyIndex | commands/help.py:584 | The dictionary slot of a user holds that user's ticket, and no slot exists for an absent user. |
| SupportTickets.AssignedKeys | commands/help.py:584 | Assigning keeps keys unique and in place; a new user is appended at the end. |
| SupportTickets.AssignedLookup | commands/help.py:584 | After assigning, the user's ticket is the new one, and every other user's is unchanged. |
| SupportTickets.UniqueKeyIndex | commands/help.py:584 | With unique keys, a user's slot is the one holding that user. |
| SupportTickets.IndexOfId | commands/help.py:678-742 | The ticket found is the first with that id, and no ticket has the id when none is found. |
| SupportTickets.Listed | commands/help.py:885-888 | Only tickets with the filtered status are listed, or all of them for "all". |
| SupportTickets.ListedPartition | commands/help.py:885-888 | The open and the closed tickets together are all tickets; any other filter lists nothing. |
| SupportTickets.NewTicketKeepsWellKept | commands/help.py:562-584 | Storing a fresh ticket numbered counter + 1 keeps ids unique, each within the counter, and each stored under its own user. |
| SupportTickets.UpdateKeepsWellKept | commands/help.py:678-752 | Replying to or closing a ticket keeps that invariant. |
| SupportTickets.TicketDesk.constructor | commands/help.py:24-33 | The desk starts with no tickets and counter 0. |
| SupportTickets.TicketDesk.CreateTicket | commands/help.py:562-584 | The counter goes up by exactly one. The id is `TK` plus the new counter padded to four digits. An open ticket holding exactly the user's message replaces any earlier ticket of that user. |
| SupportTickets.TicketDesk.FindTicket | commands/help.py:678-682 | The search loop finds `IndexOfId`. |
| SupportTickets.TicketDesk.SendTicketResponse | commands/help.py:672-730 | An unknown id gives "Ticket not found" and a closed ticket gives "Ticket is already closed", both changing nothing. Otherwise exactly one developer message is appended, and the DM outcome decides the reply. |
| SupportTickets.TicketDesk.CloseTicket | commands/help.py:732-801 | An unknown id gives "Ticket not found". Otherwise the ticket is closed with `closed_at` and the reason, and re-closing also succeeds. |
| SupportTickets.TicketDesk.TicketsList | commands/help.py:874-926 | Only the developer may list. The total counts the tickets that match the filter, and at most the first 10 are shown. |
| SupportTickets.TicketDesk.OnSubmit | commands/help.py:1011-1056 | A user whose ticket is open is refused with that ticket's id; otherwise a ticket is created. |
| SupportTickets.SubmitBlocksResubmit | commands/help.py:1015-1034 | Right after a ticket is created, the user cannot submit another. |
| SupportTickets.ClosedTicketAllowsSubmit | commands/help.py:1015-1034 | A closed ticket does not block a new one. |

## Left out

- `AdvancedAnalyticsEngine`, the health score, and metrics/average updates (`_update_health_score`, `_update_metrics`, `_update_processing_metrics`, `_update_operation_metrics`, `get_metrics`): floating-point statistics. Response times are not modelled.
- Redis, Discord, Flask and asyncio are not modelled. This covers connect/disconnect, worker and stats loops, health/metrics/maintenance loops, the audit buffer, and `get_shared_tracker`'s global instance and lock. Redis is a set of maps, and every call is sequential.
- `_process_batch` and `_execute_batch`: they are Redis pipeline plumbing. As written, `_process_batch` tests `op not in successful_ops` on an integer, which raises, so every batch takes the failure path. Only `_handle_failed_operation`, which that path calls, is modelled.
- `EnterpriseBatchProcessor.Stop`: the final flush calls `_flush_queue`, which the class does not define. The model only clears the running flag.
- The eviction and TTL of the cachetools caches: caches are unbounded maps, so `ReadYourWrite` holds only while nothing is evicted.
- The md5 step of `_generate_category_color`: the three channels are inputs, and only the brightness step and hex formatting are modelled.
- Role assignment (`_get_or_create_role`, role add/remove in clock in/out): Discord calls. As written, `_get_or_create_role` is also called with too few arguments.
- ClockManagement.ClockManager.ClockIn: the check for an existing session and the write are two steps; no atomic check-and-set is modelled, since the code has none.
- ClockManagement.ClockManager.ClockOut: analytics fields of the result are not modelled. The session's 24-hour Redis expiry (`setex` with 86400 s) is not modelled either. In the source, a clock-out more than 24 hours after clock-in finds no session and reports NOT_CLOCKED_IN. The model keeps the session, so it reports SESSION_TOO_LONG there, or caps the session when forced. The source reaches those branches only in the moment before expiry.
- ClockManagement.ClockManager.ClockIn: the stored session does not expire after 24 hours, as it does in the source. A user whose session has expired can clock in again in the source, while the model reports ALREADY_CLOCKED_IN.
- Permissions.PermissionStore.SuspendUser: the forced clock-out of the suspended user is not modelled. The source deletes the user's active session through `_get_session_key`, which no class of the repository defines, so as written the call raises after the record is saved. The model returns True at that point.
- Permissions.PermissionStore.BulkSuspendUsers: the forced clock-out of each newly suspended user is not modelled. As written, the missing `_get_session_key` raises for each such user. The raise is caught, so each newly suspended id also counts as an error. The model keeps `errors` at zero.
- ClockManagement.AddedToTotalsEffect: the source adds the session to both the category field and the `total` field. A category literally named "total" is therefore counted twice, and the model keeps that behaviour.
- Leaderboards (sorted sets): a user's score per (server, category) is a map entry, so the ordering and range queries of Redis sorted sets are not modelled.
- CircuitBreaker: HALF_OPEN lets every call through. It reopens only when `failure_count` reaches the threshold; a single failed probe does not reopen it. The model follows the code in both respects. The error-type histogram and response times are left out.
- BatchProcessor: there is no write coalescing. Operation type names that the pipeline skips are not modelled. `max_queue_size`, `batch_size` and `flush_interval` are constructor parameters, as in the source.
- TokenBuckets.Consumed: the refill rate is a whole number of tokens per second and elapsed time is whole seconds. The source's float tokens and fractional refills are not modelled.
- Text: lower-casing and `\d` are ASCII only; stripping and `\s` cover the whitespace characters up to U+00FF (ASCII whitespace, U+001C-U+001F, U+0085 and U+00A0). Unicode whitespace above U+00FF (such as U+2003 or U+3000), Python's Unicode case mapping, Unicode digits and the underscores `int()` accepts are not modelled.
- ConfigCommands.ParseTime: `int()` also accepts surrounding whitespace and `_` digit separators; the model accepts an optional sign followed by ASCII digits only.
- Permissions.Lookup: the model reads the stored permission lists as if the Redis hash came back with decoded `str` field names. The tracker's client is built with `decode_responses=False`, so as written `hgetall` yields `bytes` field names. The `str` lookups of `get_server_permissions` (Utils/permissions.py) and `_get_server_permissions` (commands/config.py) then always fall back to their defaults. As written, every access check passes, each suspension overwrites the stored list with just the newest user, and unsuspending always returns False. The same applies to ConfigCommands.CheckUserPermissions.
- TokenBuckets.TokenBucket.Consume: the clock is required not to run backwards. The source accepts a backwards clock; its negative elapsed time then drains tokens, possibly below zero.
- ApiAuthentication: keys are stored under their own text, since sha256 is treated as the identity. Token randomness and uuids are parameters. The `last_used` timestamp of `update_key_usage` and the `list_sub_keys` ordering are not modelled; the `total_requests` increment is modelled in `ApiAuthentication.ApiAuth.Authorize`.
- ApiAuthentication.ApiAuth.GenerateApiKey: as in the source, revoked sub-keys still count toward `max_sub_keys`. A disabled parent may still create sub-keys, and the sub-key's tier is the caller's argument.
- ApiAuthentication.ApiAuth.CheckRateLimit: the minute window is `now / 60`, and the Redis key expiry is not modelled.
- TrackerValidation.ValidateCategory: the exception fallback of `validate_category`, which accepts only "work", "break" and "meeting" when Redis fails, is not modelled. The cached verdict is an input; the write of the fresh verdict into the cache hierarchy is not modelled.
- TrackerValidation.ValidateCategoryData: the weight is a Dafny `real`, so a NaN weight, which passes no comparison in Python, is not modelled.
- TimecardCommands: durations are integer seconds where the source compares float hours. This is exact, because every threshold is a whole number of seconds.
- SupportTickets: persistence (`_load_tickets` / `_save_tickets`) is not modelled. The ticket counter loaded from Redis is assumed to be an integer. The DM to the user is an input (`dmError`). Embeds and logging are not modelled.
- SupportTickets.TicketDesk.TicketsList: only which tickets are shown is modelled, not the embed text.
- ExportFormat.NegativeShownModuloHour: negative durations are formatted as Python's floor division gives them. The model states that behaviour rather than rejecting negative input.
- The API routes (including tier management), the webhook GUI and the premium modules are not part of this model.
