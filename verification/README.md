# Verified model of identity-mservice

The service keeps two MySQL tables (`users`, `user_auth_mapping`), two Redis caches over them, a map of
pending Singpass logins and two Kafka topics. Its handlers run concurrently and share all of it. This
project models that shared state and the handlers, and proves what survives every interleaving, every
failed I/O operation and every eviction.

## How it is built

**Kernels.** `Text`, `Decimal`, `Headers`, `RsaExponent`, `Jwks`, `ClerkEmail`, `KycEmail`, `StateStore` and
`ProfileUpdate` model the arithmetic, string and in-memory parts. Code that loops or updates fields is a
method or a class here too: the exponent loop, the JWKS cache, the allowed-role set, the pending-login map
with its purge loop, the record the `apply*Update` helpers fill.

**The step machine.** `World` is one state machine for the whole service. A handler call is a thread whose
program counter stands at its next I/O operation; `Next` performs one such operation, with its outcome
chosen by the action; `Run` performs a list of actions. A theorem over all action lists therefore covers
every interleaving of any number of `GetUserProfile`, `UpdateProfile`, `GetByClerkUserID`, `CreateUser`,
`StartSingpassLogin` and `SingpassCallback` calls, with any operation failing and any cache entry evicted
at any time. A users row is the sequence of its states, the last one being the row in the table; the earlier
ones, and the field `history`, are read by no step and only let the theorems speak about the past.

**Invariants and results.** `Tables`, `ProfileCache`, `MappingCache`, `Registration` and `Kyc` each state an
inductive invariant and prove that every step keeps it; `RowWrites` and `Statuses` do so for the statements on a
row and the status they store. `Runs` lifts them to runs. The results hold from any state that satisfies the
invariants, or from any such state at rest, with no call in progress; `Restarts` proves that a process that dies
and comes back over a warm Redis is in such a state. Where a result needs more of its start, its row says so. `ProfileCacheRuns`, `MappingRuns`, `RegistrationRuns`,
`EmailRuns`, `WebhookRuns`, `KycRuns`, `StatusRuns`, `RowRuns`, `Outcomes` and `Authentication` hold the main
results. Where a property fails under
interleaving, `Counterexamples` gives the run and the results say exactly when it holds.

**The handlers, imperatively.** `Service` writes the DAOs, the services and the caches as classes over mutable
tables and one Redis key space of strings, and proves each method against `SerialSpec`, where Redis does not
exist. `Alone` closes the triangle: the steps of one uninterrupted call in `World` do what `SerialSpec` says.

## What is assumed of libraries

- Each DAO statement is atomic (server/repository/init.go:31); one that returns an error has had no effect.
- GORM's `Updates(struct)` writes only the non-zero fields; `Update` writes the one column.
- A transaction is all-or-nothing, other readers see only committed rows, a failed one still uses up its ids,
  and inserting a key that another open transaction holds waits for that transaction.
- `clerk_user_id` is unique; auto-increment ids are fresh; `First` returns the row with the lowest id.
- Columns compare by the tables' case-insensitive collation, modelled as ASCII case folding
  (server/resources/sql/2026-05-16_user_auth_mapping.sql:13).
- Redis `Get`, `Set` and `Del` are atomic, may fail, and an entry may vanish at any time. Cached JSON decodes to
  what was encoded.
- The clock never goes backwards. `OAuth state` values, names, Singpass and Clerk answers are chosen by the
  action, so nothing depends on their being random.

## Where code and comments differ

- server/service/user_profile_service.go:139 says a market may only be initialized once. `UpdateProfile` reads and
  writes in two statements, so two overlapping calls can set it twice (`RacingUpdatesOverwriteMarket`). The
  model follows the code: a set market is proved to be overwritten if and only if a statement sets another one
  and its handler's read was overtaken; hence write-once for calls that do not overlap.
- The JWKS fetch bound holds per cache object (`JwksCache.ServeAll`). `AuthForward` builds a new authenticator,
  hence a new cache, for each request (server/http/api/auth_forward.go:23, server/auth/authenticator.go:38-42), so
  across requests every lookup fetches (`ServeEachAnew`).

## Model

| member | source | states |
|---|---|---|
| `ProfileCacheRuns.StaleEntryIsExplained` | server/service/user_profile_service.go:97-136 | Over any warm Redis, every interleaving and failure: a cached profile that disagrees with the current join has a writer between its later database write and its delete, or that delete failed, or it was set by a reader whose read preceded a later write |
| `ProfileCacheRuns.CacheIsExactIff` | server/service/user_profile_service.go:97-136 | From any invariant state, every interleaving, failure and eviction: whenever no delete due to a write later than the entry is pending or has failed, the entry is the current join if and only if the row, when the entry was set, still showed the name, market and KYC status the setting reader had read |
| `ProfileCacheRuns.CacheIsExactWhenQuiet` | server/service/user_profile_service.go:250-272 | Hence, if no reader's window from user read to cache set contains a write to that user, and an entry found at the start was set that way too (`SetFresh`), then whenever nothing is due the entry is absent or is the current join |
| `ProfileCacheRuns.SetIsExactIff` | server/service/user_profile_service.go:125-133 | A cache set leaves the entry up to date if and only if the row still shows the name, market and KYC status the reader read |
| `ProfileCacheRuns.RepliesAreBoundedStale` | server/service/user_profile_service.go:101-135 | Every returned profile has the exact id, email and registration time; its other columns come from one row state that was current less than the one-hour lifetime plus the longest read-to-set delay before |
| `ProfileCache.NextKeepsCache` | server/service/user_profile_service.go:233-272 | Inductive step for the two results above: every step of every handler keeps each entry and each reader's pending profile a join with a row state current when read, and keeps every late write explained |
| `MappingRuns.CachedMappingIsExact` | server/repository/dao/user_auth_mapping_cache.go:22-60 | Over any warm Redis, every interleaving, eviction and failed delete: a cached row is the row the table holds for that Clerk id |
| `MappingRuns.LookupIsLinearizable` | server/repository/dao/user_auth_mapping_dao.go:40-60 | A lookup that returns without error, called directly or inside `CreateUser`, returns what an uncached read would return at some instant of the call |
| `RegistrationRuns.CreatedRowsPair` | server/service/user_mapping_service.go:91-113 | Any duplicate and concurrent deliveries with any step failing: one mapping per Clerk id, created users and mappings pair one to one (no orphan after a lost race), role user, trimmed email with "@" |
| `RegistrationRuns.PublishedAfterCommit` | server/service/user_mapping_service.go:100-119 | At every point of every run the publish calls are for distinct users, each already committed with its mapping |
| `RegistrationRuns.RedeliveryAddsNothing` | server/service/user_mapping_service.go:71-79 | A delivery that starts with its Clerk id mapped adds no row and no publish call, whatever runs beside it |
| `EmailRuns.CommitSharesEmailIff` | server/service/user_mapping_service.go:81-113 | A creator that passes its email check at one action and commits at a later one shares its email with a committed mapping if and only if another creator commits that email strictly in between |
| `EmailRuns.EmailsDistinctIff` | server/service/user_mapping_service.go:81-113 | Over a whole run created emails stay distinct if and only if no creator commits an email while another one that goes on to commit it is already past its check |
| `EmailRuns.SerialCreatesHaveDistinctEmails` | server/service/user_mapping_service.go:81-89 | Hence, if no two `CreateUser` calls overlap, no created mapping shares its email with any other mapping |
| `WebhookRuns.CreatedFromWebhook` | server/service/user_mapping_service.go:63-113 | Every created mapping was committed by a delivery of a webhook with that very Clerk id and, by the rule for choosing it, that email; the same delivery had inserted the user it names, with the name given, status PENDING, no other column set and that creation time |
| `Registration.NextKeepsRegistration` | server/service/user_mapping_service.go:63-121 | Inductive step: every step of every handler keeps rows paired, publish calls distinct and open transactions apart |
| `KycRuns.KycWritesAreSafe` | server/service/kyc_service.go:83-184 | Every status write was made by one callback that, earlier in its own steps, took the binding of a login for that user within ten minutes and was then told the user info by Singpass; the email check is on that login and that info, and PASSED is written exactly for a non-empty name in it; no two writes go back to the same login |
| `KycRuns.KycIsConserved` | server/service/kyc_service.go:162-206 | Every published event is for a write of its own with the same user and status; as multisets published pairs are among written ones, and per user writes ≤ consumes ≤ saves |
| `KycRuns.LoginIsHonoured` | server/service/kyc_service.go:59-62 | Whatever else runs: until its state is saved or presented again, a login's binding is given to the callback that presents its state if and only if at most ten minutes have passed |
| `KycRuns.SuccessIsPublished` | server/service/kyc_service.go:174-213 | A callback returns nil only after a status write of its own whose event, with that user and status, it then published |
| `Kyc.NextKeepsKyc` | server/service/kyc_service.go:74-214 | Inductive step: concurrent callbacks never share a consume or a write, and every record traces to its own predecessor |
| `KycRuns.StoredStatusIsSafe` | server/service/kyc_service.go:162-186 | The stored status of a user is the one it had at the start, PENDING for every user created in the run, or was stored by such a safe write for that very user |
| `StatusRuns.LastEventIff` | server/service/kyc_service.go:174-206 | The last event of a user carries the stored status if and only if its write has the status of the user's last write; once that one is published, if and only if no earlier write with another status was published after it |
| `StatusRuns.OrderedLastEvent` | server/service/kyc_service.go:174-206 | From any invariant state: if no status of a user is written while another callback owes its event, then once the last write, made in the run to an existing row, is published, the last event is for it and carries the stored status |
| `Statuses.NextKeepsStored` | server/repository/dao/user_dao.go:70-83 | Inductive step: a row stores what the last write that found it wrote, or what it started with |
| `Statuses.NextKeepsOrder` | server/service/kyc_service.go:174-206 | Inductive step: while no write overtakes an event, only the user's last write may be owed its event, and once published that event stays last |
| `RowRuns.NoLostUpdates` | server/repository/dao/user_dao.go:70-99 | From any state and for every interleaving, each column of a row is what the last UPDATE of that column wrote; profile updates never touch the KYC status and nothing touches id, creation time, segment or risk level |
| `RowRuns.MarketStaysSet` | server/service/user_profile_service.go:210-227 | Every interleaving: a non-empty market never becomes empty and is always one of the listed markets |
| `RowRuns.SeenMarketIsKept` | server/service/user_profile_service.go:141-165 | A write whose read saw a non-empty market leaves the market as it was |
| `RowRuns.MarketOverwrittenIff` | server/service/user_profile_service.go:145-160 | Every interleaving: a statement overwrites a set market if and only if it sets another market and, between the read and the write of its handler, another statement changed the market |
| `RowRuns.SerialMarketIsWriteOnce` | server/service/user_profile_service.go:138-165 | If no two `UpdateProfile` calls for a user overlap, its market is write-once over the whole run, whatever else interleaves |
| `Tables.NextKeepsTables` | server/repository/dao/user_auth_mapping_dao.go:98-121 | Inductive step: unique Clerk ids, fresh rows in open transactions, row histories chained by their statements |
| `Tables.NextGrows` | server/repository/dao/user_dao.go:40-99 | No step removes a row, rewrites a row state or changes what a found Clerk id or user id maps to |
| `Runs.RunInv` | server/service/user_profile_service.go:97-165 | All invariants hold after every run of all handlers from every state in which they hold, and what was readable stays readable |
| `Restarts.RestartRests` | server/service/kyc_state_store.go:115-125 | A process that dies in any reachable state, losing its calls, open transactions and pending logins, restarts over the same tables and Redis into a state at rest that satisfies all invariants |
| `Runs.StartRests` | server/resources/sql/2026-05-17_seed_users.sql:2-9 | So is a service that starts for the first time over valid tables, with or without mappings for their users |
| `Counterexamples.LateSetLeavesStaleEntry` | server/service/user_profile_service.go:106-133 | A run that ends with a stale entry although no delete is due and none failed |
| `Counterexamples.RacingUpdatesOverwriteMarket` | server/service/user_profile_service.go:145-160 | A run in which a set market is overwritten |
| `Counterexamples.RacingCreatesShareEmail` | server/service/user_mapping_service.go:81-113 | A run that ends with two mappings for one email |
| `Counterexamples.LastEventIsNotStoredStatus` | server/service/kyc_service.go:174-194 | A run whose last published status differs from the stored one |
| `Service.UserProfileService.GetUserProfile` | server/service/user_profile_service.go:97-136 | Returns the value or error of the uncached join and keeps the caches coherent |
| `Service.UserProfileService.UpdateProfile` | server/service/user_profile_service.go:141-165 | Changes the row and answers as the serial specification says and keeps the caches coherent |
| `Service.UserAuthMappingDao.GetByClerkUserId` | server/repository/dao/user_auth_mapping_dao.go:40-60 | Returns what an uncached read returns, from a cache in the key space it shares with profiles |
| `Service.UserAuthMappingDao.CreateInTransaction` | server/repository/dao/user_auth_mapping_dao.go:98-121 | Inserts unless the Clerk id is taken, and only drops cache entries |
| `Service.UserMappingService.CreateUser` | server/service/user_mapping_service.go:63-121 | Both rows or none, event only for a committed user, caches coherent |
| `Service.KycService.SingpassCallback` | server/service/kyc_service.go:74-214 | The pipeline's order, errors, status and event are those of the serial specification; caches stay coherent |
| `Service.UserDao.UpdateProfile` | server/repository/dao/user_dao.go:85-99 | Writes exactly the non-empty columns of the update to an existing row |
| `Service.TouchedEntryDropped` | server/service/user_profile_service.go:264-272 | Dropping one user's entry makes both caches coherent again after any change that leaves other users' profiles and committed mappings alone |
| `Service.Server.ServeAll` | server/service/user_profile_service.go:97-136 | Serial refinement: for every sequence of calls with arbitrary evictions, every reply and the final state are those of the service without Redis |
| `SerialSpec.RegisterKeeps` | server/service/user_mapping_service.go:71-113 | The checks before the insert keep the unique index, and no other user's profile or committed mapping changes |
| `Alone.UpdateAlone` | server/service/user_profile_service.go:141-165 | The uninterrupted steps of an update do to the tables what the serial specification says, with the same error |
| `Alone.ReadAlone` | server/service/user_profile_service.go:97-136 | An uninterrupted read whose SELECTs succeed, whether its Redis get and set succeed or fail: a get that finds a live entry replies with it, any other reads the tables and replies with the join or the same error |
| `Alone.CallbackAlone` | server/service/kyc_service.go:74-214 | An uninterrupted callback, for every answer of Singpass and every outcome of the statement, the cache delete and the publish: a failed UPDATE is the error, with tables and topics as they were; otherwise same error, status, event and remaining bindings as the serial one over the purging map |
| `Alone.CreateAlone` | server/service/user_mapping_service.go:63-121 | From any invariant state without another open mapping, an uninterrupted `CreateUser` whose publish succeeds creates exactly the serial rows, outcome and event, through a cache hit, a read or a miss |
| `Outcomes.ReaderEndsIff` | server/service/user_profile_service.go:97-136 | Every run: a read fails if and only if a SELECT of its own failed, and answers not found or bad argument exactly for a missing row, a missing mapping or a non-positive id; Redis failures are no cause |
| `Outcomes.UpdaterEndsIff` | server/service/user_profile_service.go:141-227 | Every run: an update ends in each error, or without one, exactly for its own cause: its statement failed, no request, no row, the first field at fault by the listed languages and markets, nothing to write, or written |
| `Outcomes.CallbackEndsIff` | server/service/kyc_service.go:74-214 | Every run: a callback ends in each error exactly by its own step, and without one exactly by a publish that succeeded |
| `Outcomes.LookupFailsIff` | server/repository/dao/user_auth_mapping_dao.go:40-60 | Every run: a lookup fails if and only if its own SELECT failed |
| `Outcomes.CreatorEndsIff` | server/service/user_mapping_service.go:63-121 | Every run: a delivery is skipped, finds the user existing, fails or creates exactly for its own cause, with mappings compared case-insensitively by Clerk id and email |
| `Outcomes.FailedLookHasCause` | server/service/user_mapping_service.go:71-75 | The lookup inside a delivery has failed only by a SELECT of that delivery |
| `Outcomes.FailureWritesNothing` | server/repository/dao/user_dao.go:70-99 | A failed operation of any handler writes no row, no mapping and no KYC event |
| `Outcomes.RedisWriteIsInvisible` | server/service/user_profile_service.go:250-272 | Whether a Redis set or delete succeeds changes nothing but what Redis holds: every call goes on alike |
| `Outcomes.FailedGetIsMiss` | server/service/user_profile_service.go:233-248 | A Redis get that fails is a miss |
| `Outcomes.DeletesDrop` | server/repository/dao/user_auth_mapping_dao.go:98-121 | A delete that succeeds leaves no entry of that user or Clerk id |
| `Outcomes.SetMappingIsFound` | server/repository/dao/user_auth_mapping_cache.go:39-51 | A mapping set in the cache is what the next get of its Clerk id finds, without the table |
| `StateStore.MemoryKycStateStore.Save` | server/service/kyc_state_store.go:44-63 | The map after a save, with no expired item left |
| `StateStore.MemoryKycStateStore.Consume` | server/service/kyc_state_store.go:65-104 | The map after a consume and its answer, with neither the state nor an expired item left |
| `StateStore.SavedIsConsumable` | server/service/kyc_state_store.go:44-54 | A save under a non-empty state is what the next consume of that state returns, with its user and email, exactly up to its expiry |
| `StateStore.MemoryKycStateStore.PurgeExpiredLocked` | server/service/kyc_state_store.go:106-113 | The in-place purge loop keeps exactly the unexpired items |
| `StateStore.StoreRefinesLog` | server/service/kyc_state_store.go:44-113 | For every sequence of calls under a non-decreasing clock the purging map answers as an append-only log, where a consume succeeds exactly for the latest unconsumed, unexpired save |
| `StateStore.EachSaveReturnedOnce` | server/service/kyc_state_store.go:65-104 | Each save is returned at most once and the empty key never |
| `ProfileUpdate.BuildProfileUpdate` | server/service/user_profile_service.go:167-227 | The helpers over the shared record give exactly the columns, no-op or error of the specification |
| `ProfileUpdate.ServeIsAtomicAndIdempotent` | server/service/user_profile_service.go:153-159 | A rejected request changes nothing even if some fields were valid; an accepted one repeated gives the same row and answer; acceptance and each error exactly characterised by membership in the listed languages and markets |
| `ProfileUpdate.SerialRequests` | server/service/user_profile_service.go:167-227 | After any serial list name and language are the last accepted non-blank values, the market is the accepted one and never changes once set, other columns never change |
| `Jwks.JwksCache.PublicKey` | server/auth/jwks.go:46-65 | Fetches exactly after expiry; a failed fetch is the error and changes nothing; after a successful one the answer is the last entry of that response alone that offers an RSA key with this id, with the values of its decoded modulus and exponent, or "not found" when none does; until expiry the entries stand |
| `Jwks.JwksCache.Refresh` | server/auth/jwks.go:67-98 | The entries afterwards are exactly the last ones offered by this response, for every key id; a failure leaves them |
| `Jwks.JwksCache.ServeAll` | server/auth/jwks.go:46-98 | For every sequence of calls with any fetch outcomes: each reply comes from the response of the latest refresh alone, and k successful refreshes within a window take at least (k - 1) times five minutes of it |
| `Jwks.ServeEachAnew` | server/auth/authenticator.go:38-42 | With a new cache per call every call fetches, n times within any window that holds n calls, and is answered from its own fetch |
| `Jwks.WindowBound` | server/auth/jwks.go:50-59 | Times at least one lifetime apart: k of them in a window span (k - 1) lifetimes |
| `Jwks.LastUsableIsLast` | server/auth/jwks.go:84-94 | Characterises the chosen entry by position: usable, with this id, and none such after it |
| `RsaExponent.Exponent` | server/auth/jwks.go:109-112 | The loop yields the big-endian value reduced to a signed 64-bit int, and that value itself exactly when it is below 2^63 (section 4.2 of RFC 8017) |
| `RsaExponent.Os2ipIsWeighted` | server/auth/jwks.go:109-113 | The value is the sum of the octets, each times 256 to the number of octets behind it (section 4.2 of RFC 8017) |
| `RsaExponent.LeadingZeros` | server/auth/jwks.go:109-112 | Leading zero octets do not change the value |
| `Headers.ForwardReply.AuthForward` | server/http/api/auth_forward.go:17-31 | The headers set for each outcome of authentication |
| `Headers.IdentityRoundTrip` | common/auth/middleware.go:59-73 | Parsing recovers exactly what was printed for ids from 1 to 2^63 - 1 with a non-blank role, trimmed, and nothing for any other identity |
| `Headers.RequireRole` | common/auth/middleware.go:32-57 | Unauthorized exactly without an identity, forbidden exactly when some non-blank role is listed and none equals the caller's, else admitted with that identity |
| `Headers.BearerIff` | server/http/api/auth_forward.go:33-40 | The token is what follows the word and one space, trimmed and not blank |
| `Headers.ForwardedIdentityAdmitted` | server/http/api/auth_forward.go:17-31 | A handler requiring some roles admits a forwarded request exactly for an accepted bearer token with a positive 64-bit id and an allowed non-blank role, and answers unauthorized exactly without such a token, id or role |
| `Authentication.AdmittedIdentityIsCommitted` | server/auth/authenticator.go:46-68 | Every interleaving: with a valid token the request is admitted exactly when the lookup of its subject found a mapping that can enter; the identity is that of a committed mapping of the subject, held by the table at an instant of the lookup, and for users created by registration has their id and role user |
| `Service.Authenticator.Authenticate` | server/auth/authenticator.go:46-68 | The identity of the row an uncached read of the subject finds, or none |
| `Decimal.FormatParse` | common/auth/middleware.go:65-68 | Decimal printing and parsing are inverse on exactly the 64-bit integers |
| `Decimal.ParsedIsDecimal` | common/auth/middleware.go:65-68 | Only an optional sign, zeros and the decimal digits of a 64-bit value parse to it |
| `Decimal.KeysDistinct` | server/service/user_profile_service.go:229-231 | Cache keys of distinct users or Clerk ids differ, and no profile key is a mapping key |
| `ClerkEmail.EmailAddress` | server/http/data/clerk_callback_data.go:31-56 | By position: the address of the first entry with the primary id, trimmed, or nothing if it has no "@"; without such an entry the first trimmed address with an "@", or nothing |
| `ClerkEmail.SelectedEmailIsUsable` | server/http/data/clerk_callback_data.go:31-56 | A selected email is trimmed, contains "@" and comes from the list; without a primary entry it is empty only if none is usable |
| `Text.TrimSpaceCuts` | server/http/data/clerk_callback_data.go:50-51 | Trimming cuts white space off both ends and nothing else |
| `Text.EqualFoldIff` | server/service/kyc_service.go:221-225 | Equality under folding is equality up to the case of ASCII letters, place by place |
| `Text.RemoveAllJoined` | server/service/kyc_service.go:224 | For a word whose first letter does not recur in it: what is left of parts joined by the word, after removing it, is the parts put together |
| `KycEmail.TaggedEmailMatches` | server/service/kyc_service.go:218-226 | For every pending address, as tag-free parts joined by the tag: it matches exactly itself and the parts put together, up to case and surrounding white space |
| `KycEmail.PartsExist` | server/service/kyc_service.go:218-226 | Every pending address is such parts |
| `KycEmail.UntaggedEmailMatches` | server/service/kyc_service.go:218-226 | Without the tag the comparison is trimmed, case-insensitive equality |
| `KycEmail.UntaggedIsEquivalence` | server/service/kyc_service.go:218-226 | Hence an equivalence relation on addresses without the tag |
| `KycEmail.TaggedIsNotSymmetric` | server/service/kyc_service.go:224-225 | With the tag it is not symmetric |

## Left out

- HTTP, gRPC, routing, CORS, middleware other than `RequireRole`, generated code: plumbing.
- Singpass and JWKS network calls, JWE and JWS, signatures, Svix, JSON and base64 codecs, random generation: their results are parameters.
- Kafka delivery: publishing is a step that appends to a log or fails; `registered` in `World` records every publish call, failed ones included.
- `GetProfile`, email masking, log prefixes, configuration, telemetry, singletons: each is read off one body.
- Private-network checks: their substance is in Go's `net` package.
- Unicode case folding and the exact collation: ASCII letters only; white space is Go's `unicode.IsSpace` table.
- `created_at` and `updated_at` of a mapping, and column length limits: no property depends on them; an oversized value is a failed statement.
- A statement that takes effect although it reports an error (a timeout after commit): assumed not to happen.
- A cached value that does not decode: treated as an entry that is not there.
- Clock rewinds: the store refinement and the run theorems need a clock that does not go backwards.
- `World` numbers its threads and never reuses a number within a run; a handler call is told apart by it.
- Service: the classes serve one call at a time with database statements and Redis deletes succeeding; interleaving and failures are the subject of `World`.
- Jwks: `PublicKey` is one step, as the mutex makes it.
- KycRuns: writes are traced within the life of one process, from a state at rest; the pending logins of an earlier process are gone.
