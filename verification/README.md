# BotHive protocols in Dafny

BotHive keeps many bots alive behind job queues. This project models the stateful protocols in its
worker, core and API packages and proves what they promise over whole runs: for every interleaving,
every interval of time, every outage of Redis, every script, every payload.

## How the model is built

* Time is an integer number of milliseconds. Asynchronous code is cut into atomic steps at its
  `await`s; timers may fire late, never early. Random numbers, clock readings, condition outcomes,
  action durations and failures are parameters, so every theorem holds for all of them.
* An object of the source is a class whose methods change its fields in place. Each method is tied
  to a function on values (`Apply`, `Step`, `AfterCheck`, ...), and the theorems are about all runs
  of that function. Conditions on a run, such as `Clock` or `Possible`, say only that time moves
  forward and that random choices were ones the code can make.
* Map keys are strings wrapped in a one-field datatype; ids that are only compared are numbers.

| file | component |
|---|---|
| CircuitBreaker, Backoff, Reconnect | the connection breaker, the adaptive delay, the per-bot reconnect loop |
| Leadership | the Redis lease that elects one worker per platform |
| RateLimiter, RedisRateLimiter | the sliding window in memory, the shared fixed window with its fallback |
| Idempotency, Batcher | event claims and their stores, the write-behind batchers |
| CredentialCipher, Tables, Backup, BackupRoundTrip | key rotation, table passes, import, export |
| RegexScan, ScriptConfig, ScriptRun, ScriptIndex | the script validator, the interpreter, the trigger index |
| Strategies | SMA and RSI over the reals |
| StickySessions, StreamHub, LogStream, WaitTracker, Windows | proxy bindings, shared price sockets, the ring buffers |
| MapLimit | the bounded parallel map |
| Common, Texts | small definitions, and split and join of strings |

## What turned out differently from the comments or the obvious reading

* The Redis limiter is described as a sliding window
  (packages/core/src/utils/redis-rate-limiter.ts:10) but counts from the first hit of an armed
  window. All replicas together stay within 2·max−1 hits in any window-long interval, not 2·max:
  the hit that armed the older window lies outside the interval. The bound is reached.
* The backoff is described as twice as long for a bot that fails half its actions
  (packages/core/src/resilience/adaptive-backoff.ts:9-11); the code makes it one and a half times
  as long, and twice for one that fails all of them.
* Sticky sessions (packages/core/src/proxy/sticky-sessions.ts:105-112): unbinding a binding that
  has already expired removes it without lowering the load. Load is exactly bindings plus such
  leaks; enough of them make an unused proxy ineligible for good. Cleaning up before every
  operation prevents this only if the clock is read once, because breaking a binding reads it
  again.
* Re-encryption loses an encrypted empty string under an older key, and nothing else.
* Backup validation accepts fractional references, and the import then fails on them.
* Renewing the lease is GET followed by PEXPIRE; if the lease expires in between, two replicas
  lead. Mutual exclusion is proved for runs in which no lease expires between the two.
* `mapLimit` with a limit below one resolves at once to a list of holes.
* A script trigger that contains a colon drops out of the index at the next unregistration of any
  bot. `unregister` deletes a cooldown under the bot id, which no cooldown is stored under, so it
  lifts none.
* A stream hub entry whose first socket constructor throws gets neither a socket nor a timer until
  its last listener leaves.
* An accepted script configuration may lack `actions`; its run then rejects without being counted
  as a script error.

## Model

| member | source | states |
|---|---|---|
| CircuitBreakers.CircuitBreaker.CanAttempt | packages/core/src/resilience/circuit-breaker.ts:85-112 | an attempt is let through when closed, after the cooldown, or while half-open probes remain; each half-open permission uses up one probe |
| CircuitBreakers.CircuitBreaker.RecordFailure | packages/core/src/resilience/circuit-breaker.ts:128-148 | a half-open failure reopens at once, a closed one counts towards the threshold |
| CircuitBreakers.CircuitBreaker.RecordSuccess | packages/core/src/resilience/circuit-breaker.ts:114-126 | enough half-open successes close the breaker; a closed success clears the streak, which FailuresAreTheRun ties to the calls of a run |
| CircuitBreakers.CircuitBreaker.RemainingCooldownMs | packages/core/src/resilience/circuit-breaker.ts:167-171 | the time until an open breaker allows a probe, 0 otherwise |
| CircuitBreakers.EveryStateIsPlausible | packages/core/src/resilience/circuit-breaker.ts:68-186 | in every run, probes stay within the budget, the streak is below the threshold while closed, and the breaker never opened in the future |
| CircuitBreakers.HalfOpenBudget | packages/core/src/resilience/circuit-breaker.ts:68-186 | in every state of every run that is not closed there is a last opening with no close since, and while half-open the attempts permitted since then plus the remaining probes equal successThreshold |
| CircuitBreakers.AttemptsPerCooldown | packages/core/src/resilience/circuit-breaker.ts:85-148 | after an opening, until something closes the breaker, at most successThreshold attempts pass per whole cooldown elapsed |
| CircuitBreakers.ConsecutiveOpenings | packages/core/src/resilience/circuit-breaker.ts:85-186 | two openings without a close or reset between them are at least resetTimeoutMs apart, with at most successThreshold permitted attempts between |
| CircuitBreakers.RecoversIffProbesAllowed | packages/core/src/resilience/circuit-breaker.ts:68-112 | after every run, one refused call and one cooldown lead to a permitted attempt, exactly when successThreshold is at least 1 |
| CircuitBreakers.FailuresAreTheRun | packages/core/src/resilience/circuit-breaker.ts:114-156 | in every run a closed breaker counts exactly the failures since the last success or reset |
| CircuitBreakers.ClosedOpensIff | packages/core/src/resilience/circuit-breaker.ts:114-156 | it opens exactly on the failure that makes up failureThreshold of them in a row, with no success and no reset between |
| CircuitBreakers.OpenMovesIff | packages/core/src/resilience/circuit-breaker.ts:68-171 | an open breaker becomes half-open exactly when it is looked at one resetTimeoutMs or more after its opening, closes exactly on a reset, and remainingCooldownMs is the exact rest of that time |
| CircuitBreakers.HalfOpenMovesIff | packages/core/src/resilience/circuit-breaker.ts:85-156 | a half-open breaker closes exactly on a reset or on the success that makes up successThreshold since it was half-opened, and reopens exactly on a failure or on one attempt more than successThreshold |
| CircuitBreakers.AttemptPermittedIff | packages/core/src/resilience/circuit-breaker.ts:85-112 | which attempts pass, by the history alone: all while closed, those from the end of the cooldown on while open, the first successThreshold while half-open |
| Backoff.BackoffBounds | packages/core/src/resilience/adaptive-backoff.ts:32-56 | the delay lies between the plain exponential and the fully jittered doubled one, and never above the cap |
| Backoff.BackoffDoubles | packages/core/src/resilience/adaptive-backoff.ts:32-56 | each further attempt doubles the delay until the cap |
| Backoff.BackoffGrowsWithFailures | packages/core/src/resilience/adaptive-backoff.ts:32-56 | a higher failure rate never shortens the delay |
| Backoff.DefaultBackoffBounds | packages/core/src/resilience/adaptive-backoff.ts:14-56 | with default options the delay lies between the capped exponential of one second and five minutes |
| Backoff.BackoffIs | packages/core/src/resilience/adaptive-backoff.ts:32-56 | without jitter exactly base * 2^n for no failures, one and a half times that when half the actions fail, twice when all fail, and full jitter adds its random share; all up to the cap |
| Backoff.OddArguments | packages/core/src/resilience/adaptive-backoff.ts:37-56 | arguments that are not finite or out of range count as the nearest sensible value or the default |
| Reconnect.ReconnectLoop.ScheduleReconnect | packages/workers/src/base-worker.ts:674-780 | a failed connect counts, trips the breaker if due, and arms one timer or gives up |
| Reconnect.ReconnectLoop.AttemptReconnect | packages/workers/src/base-worker.ts:796-811 | a fired timer connects exactly when the breaker lets it; a refused firing leaves the bot without any timer, which is why EveryTimerRetries matters |
| Reconnect.BackoffMsBounds | packages/workers/src/base-worker.ts:674-780 | the rounded jittered delay is at least 3/4 of the plain exponential and at most 1.25 times five minutes |
| Reconnect.NextWait | packages/workers/src/base-worker.ts:674-780 | what a failed connect arms, by clock readings: nothing after ten retries; with the breaker tripped the rest of the minute since it opened; asleep at least a minute and until waking; else the backoff |
| Reconnect.EveryTimerRetries | packages/workers/src/base-worker.ts:674-811 | whatever the breaker's state, every timer firing of a failing run is a connect attempt and leaves a new timer |
| Reconnect.GivesUpAfterTheLastRetry | packages/workers/src/base-worker.ts:674-811 | a run of failing connects makes exactly MAX_RECONNECT_ATTEMPTS retries, then has no timer, counter 0, a closed breaker and status error |
| Reconnect.NoLaterRetry | packages/workers/src/base-worker.ts:674-811 | no run of failing retries is longer |
| Reconnect.FreshRunBreaker | packages/workers/src/base-worker.ts:674-811 | from the fifth failure on, every retry comes at least one breaker cooldown after the failure before it |
| Leadership.LeaseStore.SetNx | packages/workers/src/base-worker.ts:1570-1574 | the lease is taken only when it is free or has expired |
| Leadership.Elector.EnsureLeadershipState | packages/workers/src/base-worker.ts:1543-1582 | one undisturbed tick, by the fields of the stored lease: a free or expired lease is taken, another replica's stays as it is and the replica does not lead, its own is extended |
| Leadership.Elector.StopLeadership | packages/workers/src/base-worker.ts:1605-1626 | the lease is given back if it is still its own and left alone otherwise |
| Leadership.NeverBothLead | packages/workers/src/base-worker.ts:1570-1582 | of two replicas that tick one after the other without an expiry between, the second does not lead |
| Leadership.TickIsThreeCommands | packages/workers/src/base-worker.ts:1570-1582 | the three Redis commands of an undisturbed tick leave the lease and the belief that one tick of an elector leaves, and no other replica changes |
| Leadership.StopIsTwoCommands | packages/workers/src/base-worker.ts:1605-1626 | the commands of stopLeadership leave what an elector leaves and end its leading |
| Leadership.GetDecides | packages/workers/src/base-worker.ts:1543-1582 | a GET that finds another holder or none ends the leading, one that finds its own id does not, and a failing command changes nobody's belief |
| Leadership.BackedHolds | packages/workers/src/base-worker.ts:1543-1634 | in every interleaving of the single Redis commands of all replicas, every unexpired backing is the lease itself |
| Leadership.HoldsLeaseIffTicked | packages/workers/src/base-worker.ts:1570-1582 | a live replica holds the lease exactly while its own last successful tick is less than the TTL old |
| Leadership.AtMostOneLeader | packages/workers/src/base-worker.ts:1333-1338 | while every believing leader ticked within the TTL, at most one replica passes the job guard, and it owns the unexpired lease |
| Leadership.Takeover | packages/workers/src/base-worker.ts:82-83 | one TTL after a crash the dead replica's lease is gone, and after the next live tick the lease belongs to a replica that wrote it less than the TTL ago: the ticking one, unless another was faster |
| Leadership.RenewalSplitsIff | packages/workers/src/base-worker.ts:1576-1579 | after any undisturbed run a renewing replica comes out leading; another then leads with the lease exactly if it did at that instant, and the renewing one holds the lease exactly if it had not lost it since its GET |
| Leadership.DisturbedRenewalSplitsLeadership | packages/workers/src/base-worker.ts:1576-1579 | a run in which the lease expires between GET and PEXPIRE ends with two leaders |
| RateLimiters.RateLimiter.Check | packages/core/src/utils/rate-limiter.ts:9-36 | check accepts while the window has room, records accepted calls only, and prunes other keys when the table grows |
| RateLimiters.RateLimiter.PruneExpired | packages/core/src/utils/rate-limiter.ts:77-85 | pruning keeps exactly the timestamps inside the window |
| RateLimiters.RateLimiter.GetWaitDelay | packages/core/src/utils/rate-limiter.ts:56-64 | the wait computed from the oldest timestamp in the window |
| RateLimiters.RemembersAccepted | packages/core/src/utils/rate-limiter.ts:9-36 | after any run the limiter holds exactly the accepted calls of the current window |
| RateLimiters.SlidingWindow | packages/core/src/utils/rate-limiter.ts:9-36 | at most maxRequests accepted calls on a key lie in (t−windowMs, t], for every t and every run |
| RateLimiters.PruningIsInvisible | packages/core/src/utils/rate-limiter.ts:77-85 | a pruned table holds the same windows from now on |
| RateLimiters.AlikeForever | packages/core/src/utils/rate-limiter.ts:9-85 | two such tables answer every query alike and stay alike whatever is checked next |
| RateLimiters.QueriesAgree | packages/core/src/utils/rate-limiter.ts:9-71 | check accepts iff getRemaining is positive iff waitDelay is 0 |
| RateLimiters.WaitIsExact | packages/core/src/utils/rate-limiter.ts:44-64 | check accepts after a delay exactly when it is at least the one waitDelay answers |
| RateLimiters.AcceptsIffRoom | packages/core/src/utils/rate-limiter.ts:9-71 | in every run a call is accepted exactly when fewer than maxRequests accepted calls on its key lie in (now−windowMs, now], and getRemaining answers the difference |
| RateLimiters.TableStaysTidy | packages/core/src/utils/rate-limiter.ts:27-36 | an accepted call leaves at most 1000 keys or none without a timestamp in the window, and no check leaves its key empty |
| RedisRateLimiters.RedisServer.Eval | packages/core/src/utils/redis-rate-limiter.ts:55-70 | the counter is incremented, and armed anew when there is none or it has expired, in one step; CounterCountsEffects says what it counts in a run |
| RedisRateLimiters.RedisRateLimiter.Check | packages/core/src/utils/redis-rate-limiter.ts:36-79 | an answered call is decided by the shared count, a failed or missing client by the replica's own memory; RefusedIff and FallbackAdmitsIff say which hits of a run that refuses |
| RedisRateLimiters.PerArmedWindow | packages/core/src/utils/redis-rate-limiter.ts:55-70 | each armed window admits at most maxRequests, over any number of replicas |
| RedisRateLimiters.FixedWindow | packages/core/src/utils/redis-rate-limiter.ts:55-70 | all replicas together admit at most 2·maxRequests−1 hits in any (t−windowMs, t] |
| RedisRateLimiters.FixedWindowBoundIsReached | packages/core/src/utils/redis-rate-limiter.ts:55-70 | for every limit there is a run that reaches that bound |
| RedisRateLimiters.CounterCountsEffects | packages/core/src/utils/redis-rate-limiter.ts:55-70 | after any run the counter of a key is the number of hits that took effect since the one that armed its window |
| RedisRateLimiters.RefusedIff | packages/core/src/utils/redis-rate-limiter.ts:55-79 | an answered hit is refused exactly when at least maxRequests hits took effect since the still running window was armed |
| RedisRateLimiters.RefusedOnlyWhenBusy | packages/core/src/utils/redis-rate-limiter.ts:55-79 | so a refused hit has at least maxRequests hits that took effect in the windowMs before it: a key with fewer is never blocked |
| RedisRateLimiters.FallbackAdmitsIff | packages/core/src/utils/redis-rate-limiter.ts:36-79 | a hit that Redis did not answer is admitted exactly when its replica admitted fewer than maxRequests from memory in the windowMs before it |
| RedisRateLimiters.AdmittedSplits | packages/core/src/utils/redis-rate-limiter.ts:36-79 | every admitted hit was admitted by Redis or by exactly one replica's memory |
| RedisRateLimiters.OutageBound | packages/core/src/utils/redis-rate-limiter.ts:36-79 | with Redis failing at arbitrary calls N replicas admit at most (N+2)·maxRequests−1 |
| Idempotency.SameIdIffSameSource | packages/core/src/utils/idempotency.ts:112-146 | two deliveries with natural ids get the same event id exactly when platform, bot, type and natural id agree; FirstFieldDecides says which field that is |
| Idempotency.FirstFieldDecides | packages/core/src/utils/idempotency.ts:112-146 | the first present of id, messageId, update_id, tweetId, data.id and raw.id decides: two deliveries that both give it share an event id exactly when it and the source are the same, whatever their other fields say |
| Idempotency.NaturalIdIff | packages/core/src/utils/idempotency.ts:112-130 | an event has a natural id exactly when the first of these fields that is present is not empty |
| Idempotency.MemoryDedupStore.Claim | packages/core/src/utils/idempotency.ts:30-37 | a key is granted exactly when it is free, and is then taken for the TTL |
| Idempotency.MemoryDedupStore.Prune | packages/core/src/utils/idempotency.ts:43-58 | only expired claims are removed |
| Idempotency.PruningIsInvisible | packages/core/src/utils/idempotency.ts:43-58 | pruning never changes an answer, now or later |
| Idempotency.AlikeForever | packages/core/src/utils/idempotency.ts:30-58 | stores that answer alike keep doing so whatever is claimed next |
| Idempotency.EventDedup.Emit | packages/workers/src/base-worker.ts:544-568 | a live event with a natural id fans out exactly when its claim is granted; all others always do |
| Idempotency.OneGrantPerTtl | packages/core/src/utils/idempotency.ts:27-92 | one store grants at most one claim of a key in any TTL-long interval |
| Idempotency.FanOutBound | packages/workers/src/base-worker.ts:544-568 | with Redis failing at arbitrary calls n processes fan an event out at most n+1 times in any TTL-long interval |
| Idempotency.OnceWithoutOutage | packages/core/src/utils/idempotency.ts:65-92 | without an outage the whole fleet fans it out at most once |
| Idempotency.TakenIsClaimed | packages/core/src/utils/idempotency.ts:27-92 | in every run a key is taken only because a delivery claimed it less than the TTL ago |
| Idempotency.DroppedOnlyAsDuplicate | packages/workers/src/base-worker.ts:544-568 | a delivery is dropped only if it is live, has a natural id, and its event was claimed less than the TTL before |
| Batchers.Batcher.Enqueue | packages/workers/src/event-batcher.ts:43-63 | a row joins the buffer, the oldest is dropped beyond 2000, and a timer is armed |
| Batchers.Batcher.Flush | packages/workers/src/event-batcher.ts:65-81 | a flush takes the whole buffer unless one is in flight |
| Batchers.StepMoves | packages/workers/src/event-batcher.ts:43-81 | what each step moves in any interleaving: only the oldest row of a full buffer is dropped, an idle batcher hands over its whole buffer as one batch, a busy one nothing, and a write that ends settles its own batch |
| Batchers.ControlHolds | packages/workers/src/event-batcher.ts:29-81 | in every interleaving at most one write is outstanding and one timer pending, the buffer is bounded, and a non-empty buffer has a timer or a flush in flight |
| Batchers.DrainsByItself | packages/workers/src/event-batcher.ts:33-81 | from any reachable state, settling the flush and one timer hand every buffered row to the database |
| Batchers.EveryRowHasOneFate | packages/workers/src/log-batcher.ts:26-70 | every enqueued row is in exactly one of buffered, in flight, written, failed or dropped, and each list keeps enqueue order |
| Batchers.BatchesDoNotMatter | packages/workers/src/event-batcher.ts:65-81 | how the rows were batched makes no difference to the event store |
| Batchers.StoredIffWritten | packages/workers/src/event-batcher.ts:65-81 | the store holds an event id exactly when a row with that id was written |
| Batchers.FirstRowPerEventId | packages/workers/src/event-batcher.ts:65-81 | it keeps one row per id, the first written |
| CredentialCipher.BuildKeyRegistry | packages/core/src/utils/credential-cipher.ts:14-52 | the registry of a key list: later entries override, the last one is current, malformed entries are an error |
| CredentialCipher.LastEntryIsCurrent | packages/core/src/utils/credential-cipher.ts:14-52 | a list that ends in version:key makes this version current with the hash of this key, whatever blanks surround it |
| CredentialCipher.OneKeyRegistry | packages/core/src/utils/credential-cipher.ts:14-52 | the registry of a list of one entry |
| CredentialCipher.SingleKeyRegistry | packages/core/src/utils/credential-cipher.ts:44-52 | without a list the single key is current under v1 |
| CredentialCipher.EntryParts | packages/core/src/utils/credential-cipher.ts:21-40 | an entry version:key gives this version and this key, and what follows a second colon is ignored |
| CredentialCipher.RefusedIffIncomplete | packages/core/src/utils/credential-cipher.ts:14-43 | a key list is refused exactly when it has no entries or one of them has no key |
| CredentialCipher.StoredForm | packages/core/src/utils/credential-cipher.ts:73-99 | the stored text of a credential, field by field |
| CredentialCipher.KeyRing.GetRegistry | packages/core/src/utils/credential-cipher.ts:54-61 | the registry is built once and cached until reset |
| CredentialCipher.DecryptUndoesEncrypt | packages/core/src/utils/credential-cipher.ts:73-140 | decrypting an encrypted value gives the value back, whatever the version is called |
| CredentialCipher.LegacyFormOpens | packages/core/src/utils/credential-cipher.ts:101-140 | the three-part form without a version opens under v1 |
| CredentialCipher.RotationKeepsSecret | packages/core/src/utils/credential-cipher.ts:152-174 | re-encryption keeps a readable value exactly when it is not an empty string encrypted under an older key |
| CredentialCipher.RotationIsIdempotent | packages/core/src/utils/credential-cipher.ts:152-174 | its result is under the current version and is left alone the next time |
| CredentialCipher.EnsureEncryptedIsIdempotent | packages/core/src/utils/credential-cipher.ts:142-150 | nothing is encrypted twice, with or without a key |
| CredentialCipher.EnsureEncryptedKeepsPlaintext | packages/core/src/utils/credential-cipher.ts:142-150 | every plaintext that does not look encrypted can be read back |
| CredentialCipher.WithoutKey | packages/core/src/utils/credential-cipher.ts:73-174 | encrypting fails exactly in production without a key; elsewhere without a key a value is kept and read back as it is |
| CredentialCipher.DecryptionSurvivesAppending | packages/core/src/utils/credential-cipher.ts:14-52 | appending keys changes the reading of no value that could be read |
| CredentialCipher.AppendingToTheVariable | packages/core/src/utils/credential-cipher.ts:14-52 | appending to the environment variable appends to the key list |
| CredentialCipher.BuiltRegistryIsUsable | packages/core/src/utils/credential-cipher.ts:14-52 | every registry built from the environment has colon-free versions and a key for its current one |
| CredentialCipher.KeyRotation | packages/core/src/utils/credential-cipher.ts:14-174 | append keys, restart, re-encrypt: every non-empty readable secret ends under the new current version with its plaintext |
| Tables.Upsert | packages/api/src/routes/backup.ts:307-401 | one table's pass of the import: find by key, update or create, collect ids |
| Tables.EntriesAreFound | packages/api/src/routes/backup.ts:307-401 | every imported entry ends up in the first row with its key, and that row's id is returned |
| Tables.LastImportWins | packages/api/src/routes/backup.ts:307-401 | that row holds exactly what was imported for the key last, field by field |
| Tables.LastEntryIsHeld | packages/api/src/routes/backup.ts:307-401 | an entry that no later one shares its key with is held whole |
| Tables.ReadingCommutes | packages/api/src/routes/backup.ts:307-401 | importing sealed values and reading them equals importing the readings |
| Backup.ValidateImport | packages/api/src/routes/backup.ts:101-194 | a payload is refused exactly for another version than 1, too many entries, an empty or long name, a malformed key pool, a reference missing or out of range, or a config or trigger its schema refuses |
| Backup.Api.PostImport | packages/api/src/routes/backup.ts:288-406 | the database changes only when the payload is acceptable and every reference resolves, and then as one import |
| Backup.TheCipherKeeps | packages/core/src/utils/credential-cipher.ts:142-150 | the credential cipher satisfies what the import asks of it |
| Backup.SealingKeepsReadings | packages/api/src/routes/backup.ts:61-90 | sealing the credentials of a payload keeps what they say, absent fields stay absent, nulls clear |
| Backup.AcceptedImportsIffIntegerRefs | packages/api/src/routes/backup.ts:101-194 | an accepted payload is imported exactly when every reference is an integer |
| Backup.AccountIsStored | packages/api/src/routes/backup.ts:61-90 | after a committed import an account's credentials are what the payload says: null or empty clears, anything else is sealed, the pool keeps the complete pairs |
| Backup.BotIsStored | packages/api/src/routes/backup.ts:332-362 | a bot is stored under the account it refers to with its own config or an empty one |
| Backup.ScriptIsStored | packages/api/src/routes/backup.ts:364-401 | a script is stored under its bot with its trigger and config, enabled unless the payload says otherwise |
| Backup.ImportTwice | packages/api/src/routes/backup.ts:301-406 | a second import of the same payload creates nothing and leaves the same rows, links and decrypted credentials |
| BackupRoundTrip.ExportIsAcceptableIff | packages/api/src/routes/backup.ts:101-194 | an export passes the import validation exactly when the stored rows fit the limits and schemas and every bot is linked to an exported account |
| BackupRoundTrip.ExportThenImport | packages/api/src/routes/backup.ts:213-283 | exporting an owner's rows with credentials and importing them for an empty owner is accepted and rebuilds the same contents and links, up to ids and re-encryption |
| BackupRoundTrip.StrippedImportKeepsCredentials | packages/api/src/routes/backup.ts:61-90 | a backup without credentials imported over the same accounts changes none of them |
| BackupRoundTrip.NothingRevealed | packages/api/src/routes/backup.ts:213-283 | an export without credentials depends on no credential and on no part of a config that the mask removes: databases that differ only there have the same export |
| RegexScan.ParenthesesNest | packages/core/src/validation/script-config.ts:58-75 | the scan accepts a pattern exactly when its parentheses outside escapes and classes nest properly |
| RegexScan.ClosesIffNested | packages/core/src/validation/script-config.ts:58-75 | counting recognises exactly the texts of a nesting grammar |
| RegexScan.GroupsAreParens | packages/core/src/validation/script-config.ts:58-75 | read as escapes, classes, parentheses and other characters, the scan looks at exactly the parentheses |
| RegexScan.ReadTokens | packages/core/src/validation/script-config.ts:58-75 | every pattern is a sequence of such tokens, possibly ended by a lone backslash or an unclosed class |
| ScriptConfigs.IsRegexSafe | packages/core/src/validation/script-config.ts:52-76 | a pattern is safe exactly when it is short, matches no forbidden shape and its groups nest |
| ScriptConfigs.Validation.Walk | packages/core/src/validation/script-config.ts:162-229 | the recursive walk appends to the shared errors and counts every action in the shared counter |
| ScriptConfigs.Validation.CheckFilters | packages/core/src/validation/script-config.ts:104-136 | the problems of the filter list, in order |
| ScriptConfigs.ValidateScriptConfig | packages/core/src/validation/script-config.ts:235-263 | the error list is empty exactly for acceptable configurations |
| ScriptConfigs.NoProblemsIffAcceptable | packages/core/src/validation/script-config.ts:162-263 | silence means: every action of the tree is fine, at most MAX_ACTIONS of them, nested at most MAX_NESTING, and all ranges hold; and the other way round |
| ScriptConfigs.AcceptableIff | packages/core/src/validation/script-config.ts:3-12 | the acceptable configurations by the limits' own numbers, for every action at any depth |
| ScriptConfigs.FineIffEachIs | packages/core/src/validation/script-config.ts:162-229 | an action tree is fine exactly when each action in it is |
| ScriptConfigs.OutOfRangeIff | packages/core/src/validation/script-config.ts:244-261 | a number is reported exactly when it is present and converts to no integer of its range |
| ScriptConfigs.WalkActionsClean | packages/core/src/validation/script-config.ts:162-229 | a walk that adds no error has counted exactly the actions of the tree |
| ScriptRuns.Context.RunSteps | packages/workers/src/script-engine.ts:453-539 | the loop over actions, with the deadline check between steps and failures kept inside their step |
| ScriptRuns.Context.RunScript | packages/workers/src/script-engine.ts:360-411 | a run notifies at most once, and exactly when a step failed or maxExecutionMs had passed at its end; no step has its turn once they have passed, and while they have not, every step the document leads to has had its turn |
| ScriptRuns.ActionsOrderly | packages/workers/src/script-engine.ts:453-539 | each step has at most one turn, in document order, one after the other in time, none at or after the deadline |
| ScriptRuns.ActionsLead | packages/workers/src/script-engine.ts:453-539 | the turns follow the document: an entered `if` leads to its first action, any other turn past the step's whole subtree, and only the deadline ends them early |
| ScriptRuns.ActionsTimed | packages/workers/src/script-engine.ts:453-539 | the timetable of every run: one turn a draw, each starting as soon as the one before has ended and the clock was read, taking its own time plus that of logging a failure |
| ScriptRuns.EveryStepRuns | packages/workers/src/script-engine.ts:453-539 | without a deadline and with all conditions holding every step of the tree has its turn |
| ScriptRuns.FailedIffBadTurn | packages/workers/src/script-engine.ts:517-537 | the run is marked failed exactly when one of its steps failed or had a throwing condition |
| ScriptRuns.SlowerRunsLag | packages/workers/src/script-engine.ts:453-539 | without a deadline every run with the same condition outcomes has the same turns, whatever fails and however long it takes; with one a slower run has the first of them |
| ScriptRuns.FailuresAreIsolated | packages/workers/src/script-engine.ts:531-537 | a run with failing actions, which also spends time on logging them, has the turns of the run in which every action works, or the first of them if that time brings it to its deadline |
| ScriptRuns.AcceptedScriptsAreBounded | packages/workers/src/script-engine.ts:453-539 | a configuration the validator accepts runs at most MAX_ACTIONS steps, each once, nested at most MAX_NESTING, none from the deadline on |
| ScriptRuns.AcceptedWithoutActions | packages/core/src/validation/script-config.ts:162-171 | an accepted configuration has no action list exactly when it does not mention actions |
| ScriptRuns.EmptyConfigIsAccepted | packages/core/src/validation/script-config.ts:235-263 | the empty configuration is accepted and has no action list |
| ScriptRuns.Context.RunAccepted | packages/workers/src/script-engine.ts:360-411 | of the accepted configurations exactly those that do not mention actions are rejected when they run, without a notification; all others keep to the bounds |
| ScriptIndex.ScriptEngine.Register | packages/workers/src/script-engine.ts:286-303 | the script replaces its namesake in table and list |
| ScriptIndex.ScriptEngine.Unregister | packages/workers/src/script-engine.ts:305-312 | the bot's scripts leave the table and the index is rebuilt |
| ScriptIndex.ScriptEngine.RebuildIndex | packages/workers/src/script-engine.ts:275-284 | every table entry is filed under the first two fields of its key |
| ScriptIndex.HasMatchIffRegistered | packages/workers/src/script-engine.ts:333-335 | after any run over colon-free names something is listed for a bot and event exactly when a script is registered for them |
| ScriptIndex.ScriptEngine.Execute | packages/workers/src/script-engine.ts:337-349 | every listed script is started unless it cools down |
| ScriptIndex.IndexMatchesTable | packages/workers/src/script-engine.ts:265-319 | after any run over colon-free names each trigger list holds exactly the registered scripts of that bot and trigger, without duplicates |
| ScriptIndex.OncePerEvent | packages/workers/src/script-engine.ts:337-349 | an event reaches each script registered for it exactly once and no other |
| ScriptIndex.UnregisterIsLocal | packages/workers/src/script-engine.ts:305-312 | unregistering a bot empties its lists and leaves every other bot's unchanged as sets |
| ScriptIndex.SurvivesRebuildIffColonFree | packages/workers/src/script-engine.ts:275-284 | after any run over colon-free names, a script registered next is still found once another bot has unregistered exactly if its trigger is colon-free |
| ScriptIndex.ColonTriggersDropOut | packages/workers/src/script-engine.ts:275-284 | after every run, over any names, nothing is listed under a trigger with a colon once some bot has unregistered |
| ScriptIndex.ColonTriggerIsLost | packages/workers/src/script-engine.ts:275-312 | the smallest such loss: the script is still in the table and no event finds it |
| ScriptIndex.CooldownsHold | packages/workers/src/script-engine.ts:360-379 | two cooled runs of one script are at least its cooldown apart, also across unregistering and registering its bot |
| ScriptIndex.StartsIffCooledDown | packages/workers/src/script-engine.ts:360-379 | a listed script starts exactly when none of its cooled runs is more recent than its cooldown |
| ScriptIndex.EventStartsIff | packages/workers/src/script-engine.ts:337-379 | after any run over colon-free names an event starts exactly the scripts registered for it that have rested since their last run, each once |
| Strategies.Sma | packages/core/src/crypto/strategies.ts:20-26 | the mean of the last period values, or none |
| Strategies.CrossOf | packages/core/src/crypto/strategies.ts:28-39 | a buy exactly when the fast mean was not above the slow one before the last close and is now, a sell exactly the other way round |
| Strategies.Rsi | packages/core/src/crypto/strategies.ts:41-62 | the two loops compute the index of the smoothed gains and losses, whose weights SmoothedIsWeighted gives in closed form |
| Strategies.RsiRange | packages/core/src/crypto/strategies.ts:41-62 | the result lies in [0, 100] and exists exactly for whole periods of at least 2 with enough closes |
| Strategies.SmoothedIsWeighted | packages/core/src/crypto/strategies.ts:47-59 | the smoothed average is the mean of the first period moves and a period-th of each later one, each reduced by (period−1)/period for every bar since |
| Strategies.SmoothedBetween | packages/core/src/crypto/strategies.ts:47-59 | it lies between the least and the greatest move, so equal moves average to themselves |
| Strategies.TrendsAtTheEnds | packages/core/src/crypto/strategies.ts:41-62 | a rising series has index 100, a falling one 0, a flat one 50 |
| Strategies.IndexIsShare | packages/core/src/crypto/strategies.ts:60-61 | the index is the gains' share of all movement, in percent |
| Strategies.RsiScaled | packages/core/src/crypto/strategies.ts:41-62 | positive scaling of the closes leaves the index unchanged |
| Strategies.RsiShifted | packages/core/src/crypto/strategies.ts:41-62 | shifting the closes leaves it unchanged |
| Strategies.RsiMirrored | packages/core/src/crypto/strategies.ts:41-62 | negating the closes gives 100 minus it, flat series included |
| Strategies.RsiSignalMirrored | packages/core/src/crypto/strategies.ts:64-75 | with mirrored thresholds the negated series gives the opposite signal |
| Strategies.SignalOfTrend | packages/core/src/crypto/strategies.ts:64-75 | a falling series is a signal to buy and a rising one to sell |
| Strategies.RsiRisesWithLastClose | packages/core/src/crypto/strategies.ts:41-62 | a higher last close never lowers the index |
| Strategies.SmaCrossSymmetries | packages/core/src/crypto/strategies.ts:28-39 | scaling and shifting keep the signal, negation swaps buy and sell |
| Strategies.CrossDirection | packages/core/src/crypto/strategies.ts:28-39 | a higher last close leaves a buy a buy, a lower one a sell a sell |
| Strategies.SignalsAlternate | packages/core/src/crypto/strategies.ts:28-39 | between two buy signals of a growing series there is a sell signal, unless the averages met exactly |
| StickySessions.StickySessionManager.GetProxyForBot | packages/core/src/proxy/sticky-sessions.ts:55-87 | the bot's own usable proxy, else any proxy of the best tier below the cap, newly bound, else the fallback without a binding |
| StickySessions.StickySessionManager.Bind | packages/core/src/proxy/sticky-sessions.ts:92-97 | the old binding goes, the new one is added and its load raised |
| StickySessions.StickySessionManager.Unbind | packages/core/src/proxy/sticky-sessions.ts:102-113 | the binding goes; the load is lowered only if it had not expired |
| StickySessions.StickySessionManager.Cleanup | packages/core/src/proxy/sticky-sessions.ts:132-142 | every expired binding goes and lowers its proxy's load |
| StickySessions.InPool | packages/core/src/proxy/proxy-pool.ts:33-35 | a proxy is found exactly when the pool has one with the id |
| StickySessions.BestTier | packages/core/src/proxy/sticky-sessions.ts:67-83 | exactly the eligible proxies of the highest priority |
| StickySessions.LoadIsBindingsPlusLeaks | packages/core/src/proxy/sticky-sessions.ts:55-142 | in every run the load of a proxy is its number of bindings plus the number unbound after expiry |
| StickySessions.CapHolds | packages/core/src/proxy/sticky-sessions.ts:55-142 | without explicit over-cap binds no proxy ever carries more than maxBotsPerProxy bots |
| StickySessions.TidyRunsAreExact | packages/core/src/proxy/sticky-sessions.ts:132-142 | runs that clean up before each operation, at one clock reading, keep load and bindings equal |
| StickySessions.SecondReadingLeaks | packages/core/src/proxy/sticky-sessions.ts:57-64 | with a second clock reading they may not |
| StickySessions.StaysSticky | packages/core/src/proxy/sticky-sessions.ts:55-64 | until expiry and while its proxy stays usable, a bot that nobody rebinds gets the same proxy at every request, whatever happens to others |
| StickySessions.StickyForItsDuration | packages/core/src/proxy/sticky-sessions.ts:55-97 | a bot given a proxy at time t keeps it before t + stickyDurationMs and no longer |
| StickySessions.FoundMeans | packages/core/src/proxy/sticky-sessions.ts:55-87 | what an answer says about the proxies afterwards: enabled, healthy, bound, within the cap, and nothing better free |
| StickySessions.WearLeaks | packages/core/src/proxy/sticky-sessions.ts:102-113 | binding and unbinding after expiry, as often as there are places, leaves an unused proxy at its cap |
| StickySessions.NeverChosenAgain | packages/core/src/proxy/sticky-sessions.ts:66-87 | once leaks reach the cap no later request yields that proxy afresh |
| StreamHub.SymbolStreamHub.Subscribe | packages/workers/src/crypto/stream-hub.ts:44-97 | the first listener of a symbol creates its entry, later ones join it |
| StreamHub.SymbolStreamHub.Unsubscribe | packages/workers/src/crypto/stream-hub.ts:52-57 | the last listener to leave closes the entry |
| StreamHub.SymbolStreamHub.OnClose | packages/workers/src/crypto/stream-hub.ts:118-121 | a closed socket is forgotten and a reconnect scheduled |
| StreamHub.SymbolStreamHub.OnHeartbeat | packages/workers/src/crypto/stream-hub.ts:76-95 | a stale socket is given up and a reconnect scheduled |
| StreamHub.SymbolStreamHub.OnTimer | packages/workers/src/crypto/stream-hub.ts:144-152 | the reconnect timer opens a socket or schedules again |
| StreamHub.HubIsSound | packages/workers/src/crypto/stream-hub.ts:44-174 | in every reachable state a mapped entry has a listener and exactly one of a socket and a reconnect timer, unless its first socket could not be constructed, which leaves it with neither; every other entry has nothing left |
| StreamHub.MapMatchesListeners | packages/workers/src/crypto/stream-hub.ts:44-58 | the map holds exactly the upper-cased symbols somebody listens to, with exactly those listeners |
| StreamHub.KeysIgnoreCase | packages/workers/src/crypto/stream-hub.ts:44-50 | two symbols share an entry exactly when they differ in letter case only |
| StreamHub.OneSocketPerSymbol | packages/workers/src/crypto/stream-hub.ts:31-39 | two sockets whose close is still handled never serve one symbol |
| StreamHub.StepHistory | packages/workers/src/crypto/stream-hub.ts:64-97 | entries are only added by a first subscription, and whether the first constructor threw is settled there |
| StreamHub.ClosedStaysClosed | packages/workers/src/crypto/stream-hub.ts:154-174 | an entry that left the map never gets a socket or timer again |
| StreamHub.SocketLostIff | packages/workers/src/crypto/stream-hub.ts:76-121 | an entry loses its socket exactly by its close, by a heartbeat more than 90 seconds after the last message, or with its last listener; the first two leave a pending reconnect |
| StreamHub.ReconnectEndsIff | packages/workers/src/crypto/stream-hub.ts:144-174 | a pending reconnect ends only by firing, which opens a new socket or waits again, or with the last listener |
| StreamHub.SilenceSince | packages/workers/src/crypto/stream-hub.ts:76-117 | the silence a heartbeat measures starts at the last message or opening, or when the last socket was created |
| StreamHub.OpeningResetsDelay | packages/workers/src/crypto/stream-hub.ts:110-152 | a connection lost after it had opened is retried after one second |
| StreamHub.DelaysDouble | packages/workers/src/crypto/stream-hub.ts:144-152 | the k-th reconnect in a row waits the delay for k−1 more failed attempts |
| StreamHub.DelayValues | packages/workers/src/crypto/stream-hub.ts:146-146 | delays start at one second, double, and stay at thirty |
| LogStreams.LogStreamHub.Push | packages/api/src/services/log-stream.ts:81-87 | the ring read from its head is the last 200 entries, and the entry goes to every socket that may see it |
| LogStreams.LogStreamHub.Add | packages/api/src/services/log-stream.ts:39-71 | a new socket is refused beyond 200, else gets its visible part of the backlog, oldest first |
| LogStreams.LogStreamHub.BroadcastLog | packages/api/src/services/log-stream.ts:89-108 | sockets that may not see an entry are passed over, overflowing or failing ones evicted, all others get it |
| LogStreams.ReplayThenLive | packages/api/src/services/log-stream.ts:39-108 | a client still connected has received, in order, the visible part of the last 200 entries before it joined as far as their sends did not fail, and then without a gap every later entry it may see |
| LogStreams.ConnectedIff | packages/api/src/services/log-stream.ts:39-108 | a client is let in below 200 and stays exactly as long as every message meant for it can be sent and nobody removes it |
| LogStreams.StreamHasNoGap | packages/api/src/services/log-stream.ts:39-108 | if no send of its replay failed, it has every entry it may see from those 200 on |
| LogStreams.NothingForeign | packages/api/src/services/log-stream.ts:22-28 | no client ever received an entry its filter rejects |
| LogStreams.SocketsAreBounded | packages/api/src/services/log-stream.ts:39-71 | there are never more than 200 clients |
| Windows.RingStep | packages/api/src/services/log-stream.ts:81-85 | writing the next slot of a ring that holds the last n of a history makes it hold the last n of the longer history |
| Windows.RingAt | packages/api/src/services/log-stream.ts:56-57 | entry i of the ring stands i slots after its head |
| WaitTrackers.WaitTimeTracker.Record | packages/workers/src/wait-tracker.ts:37-42 | the ring holds exactly the last min(n, capacity) valid samples |
| WaitTrackers.WaitTimeTracker.Percentiles | packages/workers/src/wait-tracker.ts:49-63 | p50 ≤ p95 ≤ p99, each the nearest-rank percentile of the fresh ones among those samples |
| WaitTrackers.PickedByRank | packages/workers/src/wait-tracker.ts:57-61 | indexing the sorted values by rank gives the nearest-rank percentile |
| WaitTrackers.NearestRankIsUnique | packages/workers/src/wait-tracker.ts:49-63 | there is one nearest-rank value, whatever the order of the samples |
| WaitTrackers.NearestRankShare | packages/workers/src/wait-tracker.ts:57-61 | at least so many per cent of the values are at most the percentile, fewer are below it |
| WaitTrackers.FreshAt | packages/workers/src/wait-tracker.ts:49-56 | a sample counts exactly when it is not older than the cutoff, in its place among the others |
| MapLimit.Mapper.Step | packages/workers/src/base-worker.ts:177-193 | one step of one task: store a result, take the next item, or return |
| MapLimit.StartsEachOnce | packages/workers/src/base-worker.ts:177-193 | in every interleaving the started items are exactly 0 to next−1, each once |
| MapLimit.EveryStepDoesWork | packages/workers/src/base-worker.ts:177-193 | every step of an unfinished task does one unit of the remaining work: every schedule ends |
| MapLimit.AtMostLimitInFlight | packages/workers/src/base-worker.ts:177-193 | at most min(limit, n) calls are in flight |
| MapLimit.ResultsAtCompletion | packages/workers/src/base-worker.ts:177-193 | at completion every result is that of its item, exactly when the limit is at least 1 or there are no items |

## Left out

- Leadership.AtMostOneLeader: assumes that no lease expires between the GET and the PEXPIRE or DEL of one tick, because the code does not hold without it, as DisturbedRenewalSplitsLeadership shows. Overlapping ticks of one replica are not modelled, and a command takes effect when its reply arrives.
- Leadership.BackedHolds: covers runs in which no lease expires between reading it and acting on it, as AtMostOneLeader does.
- Leadership.HoldsLeaseIffTicked: likewise; RenewalSplitsIff says what one disturbed renewal does.
- Reconnect.EveryTimerRetries: the sleep schedule is an arbitrary longer delay; time zones are not part of this model.
- Backoff.BackoffBounds: computes over the reals; rounding, and the overflow of the exponential at very many attempts, are not modelled.
- Strategies.Rsi: computes over the reals; floating-point rounding is not modelled.
- WaitTrackers.WaitTimeTracker.Percentiles: ranks are exact fractions; the rounding of `q * n` is not modelled.
- RedisRateLimiters.RedisRateLimiter.Check: Redis is used through the atomic script only; the fallback to separate INCR and PEXPIRE for clients without eval is not modelled. A counter at exactly its expiry is gone.
- Backup.ValidateImport: answers accept or reject, without the list of problems; payload values of the wrong JSON type are excluded by the types of the model.
- Backup.Api.PostImport: rows are looked up in order of creation, and one random IV stands for all values sealed by one import.
- StickySessions.StickySessionManager.GetProxyForBot: which proxy the pool's own round-robin falls back to is not modelled; that fallback never touches bindings.
- StreamHub.SymbolStreamHub.Subscribe: entries are values in a numbered table rather than objects, and upper-casing covers the Latin letters of trading symbols.
- LogStreams.LogStreamHub.Push: log entries are objects; a message that parses to a falsy JSON value is not modelled.
- ScriptRuns.Context.RunSteps: actions are outcomes with a duration; what replies, webhooks, counters and sandboxed code do, and how conditions and filters are evaluated, is not modelled. Actions that are not an array are excluded by the type of the interpreter's input.
- ScriptIndex.ScriptEngine.Execute: manual test runs, which bypass the cooldown, and the shared counters are not modelled.
- ScriptConfigs.IsRegexSafe: the forbidden regular-expression patterns, the webhook URL rules and the conversion of a value to a number are parameters. The scan ends a class at its first closing bracket, escaped or not, as the code does.
- Several clock readings within one synchronous call are told apart only where they matter: the limiter's pruning, the reconnect loop and the breaking of sticky bindings.
- AES-GCM, scrypt and SHA-256: an inverse pair of functions and an arbitrary hash.
- The bot state machine, quotas, contract versions, cookies, alert thresholds and parameter validation of strategies: table look-ups and comparisons.
- Platform adapters, the script sandbox, HTTP routes, metrics, tracing and the dashboard: input, output and user interface.
