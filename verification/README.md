# Stock dashboard backend — a Dafny model of its core

This project models the core of a Spring Boot backend for a stock dashboard:

- **The Redis-backed caches.**
  - The realtime quote cache has fresh and stale tiers and a single-flight lock.
  - The lock is released by compare-and-delete on the caller's own token.
  - The sparkline cache has a lock and an empty-result marker.
  - The daily-candle cache.
- **The daily recommendation pool.** It is a Redis list mirrored by a set, with a refill lock, a cooldown marker and today/yesterday versions. It has:
  - the refill service that samples the stock catalogue into the pool;
  - the paged reader that scans the pool for a home page.
- **The home page assembly.** It covers fixed symbols first, then recommendations, a status rule and a snapshot fallback.
- **The portfolio and trading.** Holdings are computed from trades by the average-cost ledger, and a sell may not exceed the holding.
- **The user account.**
  - The `User` entity, registration guards and nickname/username generation.
  - Device records and JWT-based login, refresh and logout.
  - E-mail verification by one-time tokens and codes, and social (OAuth) login.
  - The two request filters and the exception-to-status table.

The shared store (`KeyValue`) is a class whose fields are the store's strings, lists, sets and key lifetimes. Each command is a method whose postcondition ties the new state to a pure function of the old one. The services are written as methods on that store and proved equal to pure descriptions of what one request does. The properties are then lemmas about those descriptions.

Other processes that act on the store while a request waits (during a fetch, a sleep, a batch) are an explicit sequence of commands applied at those points. External systems are parameters:

- the quote, time-series and catalogue providers;
- the JSON codec and the password encoder;
- SHA-256, UUIDs and the clock;
- the mail sender.

Java `null` is `None`. An exception is an `Err` carrying the exception's class and the message the source gives it. Exceptions raised by the JDK (`NumberFormatException`, `NullPointerException`, `ArithmeticException`) carry their class name as message. A refused save (`DataIntegrityViolation`) and a failure of an external system (`Unavailable`) carry no message. `BigDecimal` amounts are exact reals with `HALF_UP` rounding written out.

## Model

| member | source | states |
|---|---|---|
| KeyValue.SetThenGet | src/main/java/com/stock/dashboard/backend/market/cache/RedisStringCache.java:30-36 | after `set` the key reads back as the written value, holds no list or set, and has a lifetime exactly when one was given |
| KeyValue.DeleteRemoves | src/main/java/com/stock/dashboard/backend/market/cache/RedisStringCache.java:42-44 | `delete` leaves the key absent with no lifetime, whatever it held, and reports whether it existed |
| KeyValue.SetIfAbsentWritesIffAbsent | src/main/java/com/stock/dashboard/backend/market/cache/RedisStringCache.java:38-40 | set-if-absent reports a write exactly when the key is missing; then the key holds the value, otherwise the store is unchanged |
| KeyValue.SetIfAbsentExcludes | src/main/java/com/stock/dashboard/backend/market/cache/RedisStringCache.java:38-40 | once a set-if-absent has written a key, a second one on that key fails and changes nothing, and the first value stays |
| KeyValue.DeleteIfValueMatchesOnlyOwn | src/main/java/com/stock/dashboard/backend/market/cache/RedisStringCache.java:21-27 | the compare-and-delete script deletes, and reports deleting, exactly when the key holds the expected value; otherwise the store is unchanged |
| KeyValue.OpTouchesOnlyItsKey | src/main/java/com/stock/dashboard/backend/market/cache/RedisStringCache.java:30-50 | every command leaves every key other than its own as it was |
| KeyValue.OpsTouchOnlyTheirKeys | src/main/java/com/stock/dashboard/backend/market/cache/RedisStringCache.java:30-50 | a run of commands on keys outside a set leaves every key of that set as it was |
| KeyValue.ListRangeIsSlice | src/main/java/com/stock/dashboard/backend/home/recommendation/pool/RecommendationPoolRepository.java:47-49 | `LRANGE key o (o+n-1)` is the slice of at most n elements from o, and empty when o is past the end |
| KeyValue.Store.constructor | src/main/java/com/stock/dashboard/backend/market/cache/RedisStringCache.java:13-15 | a new store is empty |
| KeyValue.Store.Load | src/main/java/com/stock/dashboard/backend/market/cache/RedisStringCache.java:14-18 | the store's fields become the given content |
| KeyValue.Store.Set | src/main/java/com/stock/dashboard/backend/market/cache/RedisStringCache.java:34-36 | the new content is `SET key value EX ttl` applied to the old content |
| KeyValue.Store.SetIfAbsent | src/main/java/com/stock/dashboard/backend/market/cache/RedisStringCache.java:38-40 | the new content and the returned flag are `SET NX EX` applied to the old content |
| KeyValue.Store.Delete | src/main/java/com/stock/dashboard/backend/market/cache/RedisStringCache.java:42-44 | the new content and the returned flag are `DEL` applied to the old content |
| KeyValue.Store.DeleteIfValueMatches | src/main/java/com/stock/dashboard/backend/market/cache/RedisStringCache.java:47-50 | the new content and the returned flag are the compare-and-delete script applied to the old content |
| KeyValue.Store.Expire | src/main/java/com/stock/dashboard/backend/home/recommendation/pool/RecommendationPoolRepository.java:97-101 | the new content is `EXPIRE` applied to the old content: an existing key gets the lifetime |
| KeyValue.ExpireF | src/main/java/com/stock/dashboard/backend/home/recommendation/pool/RecommendationPoolRepository.java:97-101 | `EXPIRE` changes no value; an existing key gets the lifetime, a missing key gains none, and every other key keeps its lifetime or its lack of one |
| KeyValue.Store.RightPush | src/main/java/com/stock/dashboard/backend/home/recommendation/pool/RecommendationPoolRepository.java:65 | the new content is `RPUSH` applied to the old content: the value is appended to the list |
| KeyValue.Store.SetAdd | src/main/java/com/stock/dashboard/backend/home/recommendation/pool/RecommendationPoolRepository.java:63 | the new content and the returned flag are `SADD` applied to the old content: the flag says the member is new |
| KeyValue.Store.Interleave | src/main/java/com/stock/dashboard/backend/market/service/MarketRealtimePriceService.java:98 | the new content is the old content with the other processes' commands applied in order |
| RealtimePrice.KeysDistinct | src/main/java/com/stock/dashboard/backend/market/service/MarketRealtimePriceService.java:25-27 | the fresh, stale and lock keys of any symbols never coincide |
| RealtimePrice.NormalizeSymbol | src/main/java/com/stock/dashboard/backend/market/service/MarketRealtimePriceService.java:150-154 | null, or empty after trimming, is an IllegalArgumentException; otherwise the result is non-empty, trimmed and upper-case |
| RealtimePrice.NormalizeSymbolIdempotent | src/main/java/com/stock/dashboard/backend/market/service/MarketRealtimePriceService.java:150-154 | normalising a normalised symbol gives it back |
| RealtimePrice.FreshHitIsServedFromCache | src/main/java/com/stock/dashboard/backend/market/service/MarketRealtimePriceService.java:40-42 | a fresh hit is returned as it is, without calling the provider and without writing the store |
| RealtimePrice.ProviderCalledOnlyUnderLock | src/main/java/com/stock/dashboard/backend/market/service/MarketRealtimePriceService.java:48-55 | the provider is called exactly when the symbol is valid, the fresh tier misses and the lock is free |
| RealtimePrice.LockLoserWritesNothing | src/main/java/com/stock/dashboard/backend/market/service/MarketRealtimePriceService.java:90-103 | a caller that finds the lock taken writes nothing: the store afterwards is only the other processes' doing |
| RealtimePrice.FetchWritesBothTiers | src/main/java/com/stock/dashboard/backend/market/service/MarketRealtimePriceService.java:20-65 | after a successful fetch the result is the fetched quote, and both tiers read back as it, with lifetimes of 10 s and 600 s |
| RealtimePrice.ReleaseKeepsForeignLock | src/main/java/com/stock/dashboard/backend/market/service/MarketRealtimePriceService.java:79-84 | the release removes the lock only while it holds this caller's token; a lock re-taken by another token survives |
| RealtimePrice.FailureFallsBackToStale | src/main/java/com/stock/dashboard/backend/market/service/MarketRealtimePriceService.java:67-87 | on an empty answer or a provider failure the result is the stale tier if readable, else the provider's exception or an IllegalStateException |
| RealtimePrice.GetCached | src/main/java/com/stock/dashboard/backend/market/service/MarketRealtimePriceService.java:130-139 | the result is the parsed entry, and a missing, blank or unparseable entry is a miss |
| RealtimePrice.GetRealtimePrice | src/main/java/com/stock/dashboard/backend/market/service/MarketRealtimePriceService.java:33-104 | the result, the provider call and the store afterwards are those of the one-request description `Lookup` over the old store |
| RecommendationPool.KeysDistinct | src/main/java/com/stock/dashboard/backend/home/recommendation/pool/RecommendationPoolRepository.java:28-31 | the list, set, lock and last-run keys are pairwise different, for any two versions |
| RecommendationPool.KeysInjective | src/main/java/com/stock/dashboard/backend/home/recommendation/pool/RecommendationPoolRepository.java:28-31 | different versions use different keys of each kind |
| RecommendationPool.PrevDay | src/main/java/com/stock/dashboard/backend/home/recommendation/pool/RecommendationPoolRepository.java:37-39 | the day before a valid date is a valid, different date |
| RecommendationPool.NextDayOfPrevDay | src/main/java/com/stock/dashboard/backend/home/recommendation/pool/RecommendationPoolRepository.java:37-39 | the next day of yesterday is today, across month, year and leap-day boundaries |
| RecommendationPool.Pad | src/main/java/com/stock/dashboard/backend/home/recommendation/pool/RecommendationPoolRepository.java:21 | a zero-padded field has at least its width and only digits |
| RecommendationPool.PadValue | src/main/java/com/stock/dashboard/backend/home/recommendation/pool/RecommendationPoolRepository.java:21 | reading a zero-padded field back gives the number |
| RecommendationPool.Version | src/main/java/com/stock/dashboard/backend/home/recommendation/pool/RecommendationPoolRepository.java:21-35 | a `yyyyMMdd` version is eight digits |
| RecommendationPool.VersionInjective | src/main/java/com/stock/dashboard/backend/home/recommendation/pool/RecommendationPoolRepository.java:21-39 | two valid days with the same version are the same day |
| RecommendationPool.YesterdayIsAnotherPool | src/main/java/com/stock/dashboard/backend/home/recommendation/pool/RecommendationPoolRepository.java:33-39 | yesterday's version differs from today's, and yesterday is the day whose next day is today |
| RecommendationPool.NextDay | src/main/java/com/stock/dashboard/backend/home/recommendation/pool/RecommendationPoolRepository.java:37-39 | below 9999-12-31 the next day of a valid date is a valid date after 0001-01-01 whose day before is the given date |
| RecommendationPool.VersionNamesOneDay | src/main/java/com/stock/dashboard/backend/home/recommendation/pool/RecommendationPoolRepository.java:21-39 | a valid day's version names that day and no other |
| RecommendationPool.TodayVersion | src/main/java/com/stock/dashboard/backend/home/recommendation/pool/RecommendationPoolRepository.java:33-35 | today's version is eight digits naming today and no other day |
| RecommendationPool.YesterdayVersion | src/main/java/com/stock/dashboard/backend/home/recommendation/pool/RecommendationPoolRepository.java:37-39 | yesterday's version is eight digits, differs from today's, and names only the day before today, whose next day is today |
| RecommendationPool.Size | src/main/java/com/stock/dashboard/backend/home/recommendation/pool/RecommendationPoolRepository.java:41-44 | the size is the length of the version's list, 0 when there is no list |
| RecommendationPool.PushUnique | src/main/java/com/stock/dashboard/backend/home/recommendation/pool/RecommendationPoolRepository.java:62-68 | the loop only appends to the version's list, at most one symbol per input symbol |
| RecommendationPool.PushOneF | src/main/java/com/stock/dashboard/backend/home/recommendation/pool/RecommendationPoolRepository.java:63-67 | one turn of the loop reports a symbol new exactly when the set did not hold it, and then appends it to the list, else leaves the list as it was |
| RecommendationPool.TouchTtlF | src/main/java/com/stock/dashboard/backend/home/recommendation/pool/RecommendationPoolRepository.java:97-101 | renewing lifetimes changes no value, and the list, set and last-run keys that exist get the 48-hour lifetime |
| RecommendationPool.AddAllUniqueF | src/main/java/com/stock/dashboard/backend/home/recommendation/pool/RecommendationPoolRepository.java:58-71 | a null or empty input changes nothing and counts 0; otherwise the count is at most the input's length and the old list is a prefix of the new one |
| RecommendationPool.CooldownPassedF | src/main/java/com/stock/dashboard/backend/home/recommendation/pool/RecommendationPoolRepository.java:84-90 | no record passes; a record that does not parse as a long fails; a parsed record passes exactly when now is at least 600 s after it |
| RecommendationPool.IsCooldownPassed | src/main/java/com/stock/dashboard/backend/home/recommendation/pool/RecommendationPoolRepository.java:84-90 | the same, read from the shared store |
| RecommendationPool.UpdateLastRunAtF | src/main/java/com/stock/dashboard/backend/home/recommendation/pool/RecommendationPoolRepository.java:92-95 | the last-run key then holds the time in decimal with the 48-hour lifetime, and every other key is as it was |
| RecommendationPool.NewUniqueFacts | src/main/java/com/stock/dashboard/backend/home/recommendation/pool/RecommendationPoolRepository.java:58-71 | the symbols an add appends have no duplicates and are exactly the input's symbols that were not yet present |
| RecommendationPool.NewUniqueOfSeen | src/main/java/com/stock/dashboard/backend/home/recommendation/pool/RecommendationPoolRepository.java:62-67 | input symbols that are all present add nothing |
| RecommendationPool.Range | src/main/java/com/stock/dashboard/backend/home/recommendation/pool/RecommendationPoolRepository.java:47-56 | for a non-negative offset and positive limit, the result is the list's slice from the offset, at most limit long, clamped to the end |
| RecommendationPool.PushStep | src/main/java/com/stock/dashboard/backend/home/recommendation/pool/RecommendationPoolRepository.java:62-67 | one turn of the loop puts the symbol in the set and touches no key but the list and the set |
| RecommendationPool.PushUniqueEffect | src/main/java/com/stock/dashboard/backend/home/recommendation/pool/RecommendationPoolRepository.java:62-68 | the loop appends the not-yet-present symbols once each in input order, the set gains every input symbol, and no other key changes |
| RecommendationPool.TouchTtlKeepsValues | src/main/java/com/stock/dashboard/backend/home/recommendation/pool/RecommendationPoolRepository.java:97-101 | renewing the three lifetimes changes no value |
| RecommendationPool.AddAllUniqueKeepsConsistency | src/main/java/com/stock/dashboard/backend/home/recommendation/pool/RecommendationPoolRepository.java:58-71 | adding keeps the pool consistent: the list stays duplicate-free and holds exactly the set's members |
| RecommendationPool.AddAllUniqueAppendsNewSymbols | src/main/java/com/stock/dashboard/backend/home/recommendation/pool/RecommendationPoolRepository.java:58-71 | the list is the old list followed by the new symbols, the count returned is the growth of the list, and the set gains the input |
| RecommendationPool.AddAllUniqueIdempotent | src/main/java/com/stock/dashboard/backend/home/recommendation/pool/RecommendationPoolRepository.java:58-71 | adding the same symbols a second time returns 0 and leaves the list as it was |
| RecommendationPool.AddAllUnique | src/main/java/com/stock/dashboard/backend/home/recommendation/pool/RecommendationPoolRepository.java:58-71 | the new store and the count are the add description over the old store: nothing for null or empty input, else the loop, then the lifetimes |
| RecommendationPool.TouchTtl | src/main/java/com/stock/dashboard/backend/home/recommendation/pool/RecommendationPoolRepository.java:97-101 | the new store is the old one with the list, set and last-run keys given the 48-hour lifetime |
| RecommendationPool.TryLock | src/main/java/com/stock/dashboard/backend/home/recommendation/pool/RecommendationPoolRepository.java:25-78 | the new store and the result are set-if-absent of "1" with a 60 s lifetime on the version's lock key |
| RecommendationPool.Unlock | src/main/java/com/stock/dashboard/backend/home/recommendation/pool/RecommendationPoolRepository.java:80-82 | the new store is the old one with the lock key deleted, whoever holds it |
| RecommendationPool.UpdateLastRunAt | src/main/java/com/stock/dashboard/backend/home/recommendation/pool/RecommendationPoolRepository.java:92-95 | the new store records the time in decimal under the last-run key with the 48-hour lifetime |
| RecommendationPool.CooldownAfterUpdate | src/main/java/com/stock/dashboard/backend/home/recommendation/pool/RecommendationPoolRepository.java:26-95 | after recording time t, the cooldown has passed at time t' exactly when t' >= t + 600 |
| RecommendationPool.CooldownWithoutRecord | src/main/java/com/stock/dashboard/backend/home/recommendation/pool/RecommendationPoolRepository.java:84-86 | without a last-run record the cooldown has passed |
| PoolRefill.IsPickable | src/main/java/com/stock/dashboard/backend/home/recommendation/service/RecommendationPoolRefillService.java:127-131 | no contract of its own: an entry is pickable when its symbol, trimmed and upper-cased, is one to six letters A-Z; `PickFacts` states what the picking keeps of it |
| PoolRefill.PickStepFacts | src/main/java/com/stock/dashboard/backend/home/recommendation/service/RecommendationPoolRefillService.java:117-121 | one turn of the picking loop keeps the picked symbols distinct, plain tickers from the inspected entries, and adds at most one |
| PoolRefill.PickFromFacts | src/main/java/com/stock/dashboard/backend/home/recommendation/service/RecommendationPoolRefillService.java:107-124 | the picking loop returns at most `target` symbols, none twice, each one to six letters A-Z and the pool form of one of the first `maxAttempts` entries |
| PoolRefill.PickFacts | src/main/java/com/stock/dashboard/backend/home/recommendation/service/RecommendationPoolRefillService.java:107-131 | the picked symbols are at most `target`, distinct, and plain tickers from the first `maxAttempts` entries |
| PoolRefill.PickFromExtends | src/main/java/com/stock/dashboard/backend/home/recommendation/service/RecommendationPoolRefillService.java:111-122 | the loop only appends to what it has picked |
| PoolRefill.PickFromComplete | src/main/java/com/stock/dashboard/backend/home/recommendation/service/RecommendationPoolRefillService.java:111-122 | when every entry may be inspected and fewer than `target` symbols come out, every pickable entry's symbol is among them |
| PoolRefill.PickSymbols | src/main/java/com/stock/dashboard/backend/home/recommendation/service/RecommendationPoolRefillService.java:97-125 | the result is the picking description: empty for a non-positive need or an empty catalogue sample, the catalogue's failure, or the loop over the re-shuffled sample |
| PoolRefill.PickLoop | src/main/java/com/stock/dashboard/backend/home/recommendation/service/RecommendationPoolRefillService.java:107-124 | the loop's output is the picking function over the shuffled sample |
| PoolRefill.Gate | src/main/java/com/stock/dashboard/backend/home/recommendation/service/RecommendationPoolRefillService.java:57-84 | a pass goes on to pick only when the pool is below 20; otherwise it stops as cooldown-active, pool-full, or the cooldown record's parse failure |
| PoolRefill.RefillPass | src/main/java/com/stock/dashboard/backend/home/recommendation/service/RecommendationPoolRefillService.java:51-95 | the outcome and the new store are those of one refill pass over the old store, with or without the cooldown |
| PoolRefill.RefillAsync | src/main/java/com/stock/dashboard/backend/home/recommendation/service/RecommendationPoolRefillService.java:74-95 | the outcome and new store are those of a pass that honours the cooldown |
| PoolRefill.RefillOnceNoCooldown | src/main/java/com/stock/dashboard/backend/home/recommendation/service/RecommendationPoolRefillService.java:51-72 | the outcome and new store are those of a pass that skips the cooldown |
| PoolRefill.RefillLockDiscipline | src/main/java/com/stock/dashboard/backend/home/recommendation/service/RecommendationPoolRefillService.java:54-94 | a pass gives up exactly when the lock key exists and then changes nothing; a pass that takes the lock always ends with no lock key |
| PoolRefill.RefilledRecordsRun | src/main/java/com/stock/dashboard/backend/home/recommendation/service/RecommendationPoolRefillService.java:65-91 | a pass that got as far as picking records its start time as the last run, with the 48-hour lifetime, even when it added nothing |
| PoolRefill.RefillRespectsCooldown | src/main/java/com/stock/dashboard/backend/home/recommendation/service/RecommendationPoolRefillService.java:81 | honouring the cooldown, a pass less than 600 s after the recorded run changes nothing but the lock key |
| PoolRefill.RefillBounded | src/main/java/com/stock/dashboard/backend/home/recommendation/service/RecommendationPoolRefillService.java:27-90 | with no other writer on the pool, a pass grows the pool by at most 5, never past 20 from below, and keeps the list duplicate-free and equal to its set |
| PoolRefill.FillBounded | src/main/java/com/stock/dashboard/backend/home/recommendation/service/RecommendationPoolRefillService.java:86-91 | the picking part grows a consistent pool below 20 by at most min(5, 20 - size) and keeps it consistent |
| PoolRefill.LockAndRaceKeepPool | src/main/java/com/stock/dashboard/backend/home/recommendation/service/RecommendationPoolRefillService.java:78-88 | taking the lock, and other processes' writes to other keys, leave the pool's list and set as they were |
| PoolRefill.UnlockKeepsPool | src/main/java/com/stock/dashboard/backend/home/recommendation/service/RecommendationPoolRefillService.java:92-94 | deleting the lock key leaves the pool's list and set as they were |
| PoolRefill.FinishKeepsPool | src/main/java/com/stock/dashboard/backend/home/recommendation/service/RecommendationPoolRefillService.java:91 | recording the run leaves the pool's list and set as they were |
| PoolRefill.PickedWithinNeed | src/main/java/com/stock/dashboard/backend/home/recommendation/service/RecommendationPoolRefillService.java:97-125 | picking never returns more symbols than max(0, need) |
| PoolRefill.AddAllUniqueGrowth | src/main/java/com/stock/dashboard/backend/home/recommendation/service/RecommendationPoolRefillService.java:90 | adding symbols to a consistent pool grows it by at most their number and keeps it consistent |
| PoolRefill.WarmUpFillToTarget | src/main/java/com/stock/dashboard/backend/home/recommendation/service/RecommendationPoolRefillService.java:37-49 | the passes run, the failure that ended the warm-up and the new store are those of `WarmUpF` with `refillOnceNoCooldown` as every pass and the other processes' commands applied during each sleep |
| PoolRefill.NoCooldownPass | src/main/java/com/stock/dashboard/backend/home/recommendation/service/RecommendationPoolRefillService.java:51-72 | each warm-up pass is `refillOnceNoCooldown` with that pass's inputs |
| PoolRefill.WarmUpF | src/main/java/com/stock/dashboard/backend/home/recommendation/service/RecommendationPoolRefillService.java:37-49 | a warm-up runs at most 10 passes; one that stops before 10 without a failure leaves at least 20 symbols in the pool; a failure ends it right after the pass that threw |
| PoolRefill.PassThenSleepBounded | src/main/java/com/stock/dashboard/backend/home/recommendation/service/RecommendationPoolRefillService.java:37-72 | with no other writer on the pool, one pass below 20 and the sleep after it keep the pool consistent, never shrink it, and grow it by at most 5 and not past 20 |
| PoolRefill.NoCooldownPassesBounded | src/main/java/com/stock/dashboard/backend/home/recommendation/service/RecommendationPoolRefillService.java:37-72 | with no other writer on the pool, every `refillOnceNoCooldown` pass of the warm-up is bounded in that way |
| PoolRefill.WarmUpBounded | src/main/java/com/stock/dashboard/backend/home/recommendation/service/RecommendationPoolRefillService.java:37-49 | with bounded passes, a warm-up from a consistent pool of at most 20 never shrinks it, never takes it past 20, adds at most 5 per pass run, and keeps the list duplicate-free and equal to its set |
| PoolRefill.WarmUpOnFullPool | src/main/java/com/stock/dashboard/backend/home/recommendation/service/RecommendationPoolRefillService.java:39-43 | a warm-up that finds 20 symbols runs no pass and changes nothing |
| StockCatalog.IsCommonStock | src/main/java/com/stock/dashboard/backend/market/twelvedata/service/StockCatalogService.java:58-61 | no contract of its own: a null type is not a common stock; otherwise the trimmed type equals "common stock" ignoring case; `CandidatesComplete` states that every such entry with a safe symbol is offered |
| StockCatalog.IsSafeSymbol | src/main/java/com/stock/dashboard/backend/market/twelvedata/service/StockCatalogService.java:63-67 | no contract of its own: a null symbol is not safe; otherwise the trimmed, upper-cased symbol is one to `max` letters A-Z (5 here); `GetCandidatePool` states that only such symbols come out |
| StockCatalog.GetCandidatePool | src/main/java/com/stock/dashboard/backend/market/twelvedata/service/StockCatalogService.java:21-67 | a failed listing fails; a result holds only common stocks with one-to-five-letter symbols, at most `poolSize` of them, drawn from the listing without repetition beyond it |
| StockCatalog.CandidatesSurviveShuffle | src/main/java/com/stock/dashboard/backend/market/twelvedata/service/StockCatalogService.java:30-45 | the shuffled candidates are all candidates, and together they are a sub-multiset of the listing |
| StockCatalog.LargePoolKeepsAllCandidates | src/main/java/com/stock/dashboard/backend/market/twelvedata/service/StockCatalogService.java:44-48 | when the pool size covers every candidate, the pool is the whole shuffled candidate list, each candidate as often as listed |
| StockCatalog.CandidatesComplete | src/main/java/com/stock/dashboard/backend/market/twelvedata/service/StockCatalogService.java:30-39 | every listed entry that is a common stock with a safe symbol is offered to the shuffle |
| Sparkline.SparklineKey | src/main/java/com/stock/dashboard/backend/market/twelvedata/service/SparklineService.java:94-96 | the cache key is longer than the symbol it names |
| Sparkline.LockKeyDiffers | src/main/java/com/stock/dashboard/backend/market/twelvedata/service/SparklineService.java:45 | a cache key and its `:lock` key differ |
| Sparkline.ParsedCloses | src/main/java/com/stock/dashboard/backend/market/twelvedata/service/SparklineService.java:107-110 | the parsed closes are no more than the closes given |
| Sparkline.ParsedClosesExact | src/main/java/com/stock/dashboard/backend/market/twelvedata/service/SparklineService.java:107-125 | a number is among the parsed closes exactly when some close is present, not blank and parses to it; when every close parses, none is lost |
| Sparkline.ToSparkline | src/main/java/com/stock/dashboard/backend/market/twelvedata/service/SparklineService.java:102-120 | no contract of its own: the parsed closes, reversed and numbered from 0, or nothing when fewer than two parse; `ToSparklineReversesCloses` states that |
| Sparkline.ToSparklineReversesCloses | src/main/java/com/stock/dashboard/backend/market/twelvedata/service/SparklineService.java:102-120 | a sparkline is empty exactly when fewer than two closes parse; otherwise point i has index i and, read from the newest back, the closes are the parsed closes in the provider's order |
| Sparkline.SparkHitIsServedFromCache | src/main/java/com/stock/dashboard/backend/market/twelvedata/service/SparklineService.java:38-42 | a cache hit is returned as it is, without the lock or the provider, and the store is not written |
| Sparkline.CorruptEntryIsDeleted | src/main/java/com/stock/dashboard/backend/market/twelvedata/service/SparklineService.java:82-92 | an entry that does not parse is a miss and is deleted, and no other key is touched |
| Sparkline.SparkSingleFlight | src/main/java/com/stock/dashboard/backend/market/twelvedata/service/SparklineService.java:44-58 | the provider is called exactly when the cache misses and the lock is free; a caller that does not call it always answers, with what it re-reads or an empty list |
| Sparkline.SparkLockAlwaysDeleted | src/main/java/com/stock/dashboard/backend/market/twelvedata/service/SparklineService.java:76-78 | a caller that took the lock ends with no lock key, on every path |
| Sparkline.SparkFetchResult | src/main/java/com/stock/dashboard/backend/market/twelvedata/service/SparklineService.java:31-75 | a rate limit propagates, any other failure is an empty list, and a series becomes its sparkline, which reads back from the cache with a 60 s lifetime when empty and the configured one otherwise |
| Sparkline.ReadCache | src/main/java/com/stock/dashboard/backend/market/twelvedata/service/SparklineService.java:82-92 | the result and new store are the read description: a missing key is a miss, an unparseable entry is a miss and deleted |
| Sparkline.GetSparklineOnly | src/main/java/com/stock/dashboard/backend/market/twelvedata/service/SparklineService.java:37-80 | the result, the provider call and the new store are those of the one-request description `SparkLookup` over the old store |
| TimeSeriesClient.IsRateLimitBody | src/main/java/com/stock/dashboard/backend/market/client/TwelveDataTimeSeriesClient.java:118-125 | no contract of its own: a body with text holding one of the five rate-limit markers, the last two looked for in the lower-cased body; `RateLimitBodyInContext` and `FetchAsDto` state its use |
| TimeSeriesClient.RateLimitBodyInContext | src/main/java/com/stock/dashboard/backend/market/client/TwelveDataTimeSeriesClient.java:118-125 | a rate-limit body stays one inside any surrounding text |
| TimeSeriesClient.Prefix | src/main/java/com/stock/dashboard/backend/market/client/TwelveDataTimeSeriesClient.java:147-152 | "null" for a string without text; the trimmed string when it fits; else its first `max` characters and "...", never longer than max + 3 |
| TimeSeriesClient.RateLimitMessage | src/main/java/com/stock/dashboard/backend/market/client/TwelveDataTimeSeriesClient.java:127-130 | the message is the fixed head followed by the body's prefix of 300 characters |
| TimeSeriesClient.SuspiciousRule | src/main/java/com/stock/dashboard/backend/market/client/TwelveDataTimeSeriesClient.java:132-145 | for a 2xx status, a blank body is suspicious, a rate-limit body never is, and a body with non-empty `values` and no error markers is not |
| TimeSeriesClient.ShouldLogSuspicious | src/main/java/com/stock/dashboard/backend/market/client/TwelveDataTimeSeriesClient.java:132-145 | no contract of its own: a missing or non-2xx status or a blank body is suspicious, a rate-limit body is not, and otherwise an error marker or missing or empty `values` is; `SuspiciousRule` states the 2xx cases |
| TimeSeriesClient.FetchAsDto | src/main/java/com/stock/dashboard/backend/market/client/TwelveDataTimeSeriesClient.java:65-116 | a rate-limit exception is raised exactly when an answer's body is a rate-limit body, with the built message; a DTO comes only from a 2xx body with text that reads; every other failure is null |
| MarketCandles.CandleKey | src/main/java/com/stock/dashboard/backend/market/service/MarketCandleService.java:25-35 | the key is the fixed prefix followed by the upper-cased symbol |
| MarketCandles.KeyDependsOnUpperCaseOnly | src/main/java/com/stock/dashboard/backend/market/service/MarketCandleService.java:33-35 | two symbols share a cache entry exactly when they upper-case alike; the number of days plays no part |
| MarketCandles.Clamp | src/main/java/com/stock/dashboard/backend/market/service/MarketCandleService.java:88-90 | for lo <= hi the result lies in lo..hi, equals v when v already does, and is always one of v, lo and hi |
| MarketCandles.SliceTail | src/main/java/com/stock/dashboard/backend/market/service/MarketCandleService.java:80-86 | the result is the last min(size, days) candles, or all of them when days is not positive |
| MarketCandles.SliceTailIdempotent | src/main/java/com/stock/dashboard/backend/market/service/MarketCandleService.java:80-86 | slicing a slice again with the same days changes nothing |
| MarketCandles.Decimal | src/main/java/com/stock/dashboard/backend/market/service/MarketCandleService.java:92-95 | a field that is absent, blank or "null" in any case is 0; a field that parses is its number |
| MarketCandles.Long | src/main/java/com/stock/dashboard/backend/market/service/MarketCandleService.java:97-100 | the result is a long; a field that is absent, blank or "null" is 0 |
| MarketCandles.LongOfPrinted | src/main/java/com/stock/dashboard/backend/market/service/MarketCandleService.java:97-100 | a long printed in decimal reads back as itself |
| MarketCandles.DateLeqIsPreorder | src/main/java/com/stock/dashboard/backend/market/service/MarketCandleService.java:68 | the comparison by date string is total and transitive |
| MarketCandles.SortByDateSorts | src/main/java/com/stock/dashboard/backend/market/service/MarketCandleService.java:59-69 | sorting yields the same candles, as a multiset, in ascending order of date |
| MarketCandles.CandleHitIsSliced | src/main/java/com/stock/dashboard/backend/market/service/MarketCandleService.java:38-46 | a hit returns the last min(size, n) cached candles, n the days clamped to 1..90, without the provider and without writing |
| MarketCandles.CorruptCandlesRefetched | src/main/java/com/stock/dashboard/backend/market/service/MarketCandleService.java:44-53 | an entry that does not read leads to a provider call, and the entry is gone when nothing replaces it |
| MarketCandles.EmptyAnswerWritesNothing | src/main/java/com/stock/dashboard/backend/market/service/MarketCandleService.java:53-56 | a null or empty answer gives an empty list, and no key other than the symbol's entry is touched |
| MarketCandles.BuildSorted | src/main/java/com/stock/dashboard/backend/market/service/MarketCandleService.java:58-69 | no contract of its own: one candle per provider entry, sorted by date, or a `NullPointerException` when two or more entries exist and one has no date; `BuildSortedFacts` states the sorted result |
| MarketCandles.BuildSortedFacts | src/main/java/com/stock/dashboard/backend/market/service/MarketCandleService.java:59-69 | the built list holds one candle per provider entry, as a multiset, in ascending order of date |
| MarketCandles.FetchCachesSortedList | src/main/java/com/stock/dashboard/backend/market/service/MarketCandleService.java:31-77 | on a miss, the answer is the tail of the sorted list, which is cached whole for 12 hours and reads back as itself |
| MarketCandles.GetDailyCandles | src/main/java/com/stock/dashboard/backend/market/service/MarketCandleService.java:37-78 | the result, the provider call and the new store are those of the one-request description `CandlesLookup` over the old store |
| PoolReader.BuildItemSafe | src/main/java/com/stock/dashboard/backend/home/service/RecommendationPoolService.java:169-184 | a blank symbol is no item; an item carries the trimmed, upper-cased symbol and a non-empty sparkline |
| PoolReader.CollectedSplit | src/main/java/com/stock/dashboard/backend/home/service/RecommendationPoolService.java:101-117 | the items of a stretch of the pool are those of its two halves |
| PoolReader.CollectedChain | src/main/java/com/stock/dashboard/backend/home/service/RecommendationPoolService.java:95-121 | items collected up to a midpoint and then from it on are the items of the whole stretch |
| PoolReader.BatchFrom | src/main/java/com/stock/dashboard/backend/home/service/RecommendationPoolService.java:101-117 | the inner loop visits at most its batch, only adds items, and never fills past the page size |
| PoolReader.ScanStep | src/main/java/com/stock/dashboard/backend/home/service/RecommendationPoolService.java:95-121 | one outer pass moves the cursor forward but never past the scan window, and never fills past the page size |
| PoolReader.ScanFrom | src/main/java/com/stock/dashboard/backend/home/service/RecommendationPoolService.java:93-121 | the scan's cursor stays between its start and the window's end, and the page never exceeds its size |
| PoolReader.CurrentVersion | src/main/java/com/stock/dashboard/backend/home/service/RecommendationPoolService.java:45-49 | the current version is today's exactly when today's pool is non-empty, and otherwise it is yesterday's |
| PoolReader.PageBounds | src/main/java/com/stock/dashboard/backend/home/service/RecommendationPoolService.java:93-128 | as written, a page has at most `pageSize` items, and a next offset lies strictly past the start, inside the pool, and within three pages of the start: paging always moves forward |
| PoolReader.WholeBatchAdvances | src/main/java/com/stock/dashboard/backend/home/service/RecommendationPoolService.java:96-120 | inside the window and with room on the page, the scan as written ends past where it started |
| PoolReader.PageIsStretch | src/main/java/com/stock/dashboard/backend/home/service/RecommendationPoolService.java:93-121 | the page as written holds exactly the items of the pool's symbols from the start up to the point where a scan that skips nothing stops, in pool order |
| PoolReader.HomeRefillRule | src/main/java/com/stock/dashboard/backend/home/service/RecommendationPoolService.java:145-167 | the home read fires a refill exactly when today's pool is non-empty and below the trigger threshold, or today's and yesterday's pools are both empty and the threshold and target are positive; it never fires while yesterday's pool is shown |
| PoolReader.NextOffsetRule | src/main/java/com/stock/dashboard/backend/home/service/RecommendationPoolService.java:74-128 | an empty pool or a start past its end is an empty page with no next offset; otherwise the page holds the scan's items and the next offset is the cursor exactly when the pool goes on past it and the page has items or met a rate limit |
| PoolReader.RefillTriggerRule | src/main/java/com/stock/dashboard/backend/home/service/RecommendationPoolService.java:74-167 | a refill is fired only below the trigger threshold; on an exhausted read exactly when also below the target; otherwise exactly when the version read is today's |
| PoolReader.DefaultsRule | src/main/java/com/stock/dashboard/backend/home/service/RecommendationPoolService.java:63-64 | a null version reads the current version, and a negative offset reads from 0 |
| PoolReader.ForHome | src/main/java/com/stock/dashboard/backend/home/service/RecommendationPoolService.java:145-152 | the home list is the first min(5, n) items of page 0 as written |
| PoolReader.WholeBatchSkipsSymbols | src/main/java/com/stock/dashboard/backend/home/service/RecommendationPoolService.java:101-123 | as written, with pool A B C D, a page of 2 and A yielding no item, page 0 shows B and C with no next offset, so D is never shown |
| PoolReader.WholeBatchOnExample | src/main/java/com/stock/dashboard/backend/home/service/RecommendationPoolService.java:93-121 | the scan as written over that example ends with items B, C at cursor 4, while the pool's items are B, C, D |
| PoolReader.FullPageEndsBatch | src/main/java/com/stock/dashboard/backend/home/service/RecommendationPoolService.java:102 | a batch read with a full page visits nothing more |
| PoolReader.PerSymbolKeepsUnvisited | src/main/java/com/stock/dashboard/backend/home/service/RecommendationPoolService.java:120 | with the cursor advanced past visited symbols only, the same example offers offset 3 next |
| PoolReader.BatchCollects | src/main/java/com/stock/dashboard/backend/home/service/RecommendationPoolService.java:101-117 | one batch adds exactly the items of the symbols it visited, and a rate-limit stop is at the next unvisited symbol |
| PoolReader.CollectedFirst | src/main/java/com/stock/dashboard/backend/home/service/RecommendationPoolService.java:101-117 | the items of a stretch are those of its first symbol followed by those of the rest |
| PoolReader.StepInWindow | src/main/java/com/stock/dashboard/backend/home/service/RecommendationPoolService.java:96-99 | inside the window a batch is a non-empty slice of the pool ending inside the window, so the empty-batch stop never fires |
| PoolReader.WholeBatchStep | src/main/java/com/stock/dashboard/backend/home/service/RecommendationPoolService.java:96-120 | one pass as written reads the next slice of the pool and moves the cursor past all of it |
| PoolReader.ScanStops | src/main/java/com/stock/dashboard/backend/home/service/RecommendationPoolService.java:95 | once the window is used up or the page is full, the scan ends where it stands, whichever way the cursor moves |
| PoolReader.PerSymbolStep | src/main/java/com/stock/dashboard/backend/home/service/RecommendationPoolService.java:96-120 | one pass advancing past visited symbols only adds exactly their items and leaves a rate limit's symbol as the cursor |
| PoolReader.PerSymbolSkipsNothing | src/main/java/com/stock/dashboard/backend/home/service/RecommendationPoolService.java:95-128 | advancing past visited symbols only, the page holds exactly the items from the start up to the cursor, and a rate-limit stop leaves the cursor on the symbol to retry |
| PoolReader.AdvanceKeepsItems | src/main/java/com/stock/dashboard/backend/home/service/RecommendationPoolService.java:95-121 | the page's items are the same whichever way the cursor advances; only the next offset differs |
| PoolReader.PassesAgree | src/main/java/com/stock/dashboard/backend/home/service/RecommendationPoolService.java:96-120 | one pass advancing either way ends with, or goes on with, the same items |
| PoolReader.ScanDone | src/main/java/com/stock/dashboard/backend/home/service/RecommendationPoolService.java:95-121 | a pass that ends the scan gives the scan's end |
| PoolReader.ScanNext | src/main/java/com/stock/dashboard/backend/home/service/RecommendationPoolService.java:95-121 | a pass that goes on continues the scan from its cursor and items |
| PoolReader.BatchFullWhenCut | src/main/java/com/stock/dashboard/backend/home/service/RecommendationPoolService.java:101-117 | a batch that ends early without a rate limit ends with a full page |
| PoolReader.PageFullEndsScan | src/main/java/com/stock/dashboard/backend/home/service/RecommendationPoolService.java:95 | a scan that starts with a full page adds nothing |
| PoolReader.CurrentVersionOf | src/main/java/com/stock/dashboard/backend/home/service/RecommendationPoolService.java:45-49 | the version returned is the current version of the store's content |
| PoolReader.GetRecommendationsFromPool | src/main/java/com/stock/dashboard/backend/home/service/RecommendationPoolService.java:61-131 | the page and the refill trigger are those of the read description `FromPool` over the store, with the cursor moved past each whole batch as written |
| PoolReader.ScanPool | src/main/java/com/stock/dashboard/backend/home/service/RecommendationPoolService.java:87-121 | the items, cursor and rate-limit flag are those of the scan description over the version's list, with the cursor moved past each whole batch |
| PoolReader.ScanWindow | src/main/java/com/stock/dashboard/backend/home/service/RecommendationPoolService.java:95-121 | the outer loop over the window ends as the scan description from the start offset, whole batch by whole batch |
| PoolReader.ScanBatch | src/main/java/com/stock/dashboard/backend/home/service/RecommendationPoolService.java:96-120 | one pass moves the cursor strictly forward, past the whole batch and never past the window, never fills past the page size, and continues the scan description exactly |
| PoolReader.ReadBatch | src/main/java/com/stock/dashboard/backend/home/service/RecommendationPoolService.java:101-117 | the items and the rate-limit flag after one batch are those of the inner-loop description |
| PoolReader.GetRecommendationsForHome | src/main/java/com/stock/dashboard/backend/home/service/RecommendationPoolService.java:145-152 | the home list is the first five items of page 0 of the store's content, and the refill fired is the one that page read fires |
| HomeRecommendation.IsPlainSymbol | src/main/java/com/stock/dashboard/backend/home/service/HomeRecommendationService.java:135-138 | no contract of its own: a symbol is plain when it is present and, untrimmed, one to five letters A-Z; `ItemAt` and `ItemsAreShown` state that every item comes from one |
| HomeRecommendation.ItemAt | src/main/java/com/stock/dashboard/backend/home/service/HomeRecommendationService.java:63-138 | an entry yields an item only for a plain symbol (1-5 letters A-Z, untrimmed), under that symbol and with a non-empty sparkline |
| HomeRecommendation.ItemsIn | src/main/java/com/stock/dashboard/backend/home/service/HomeRecommendationService.java:62-84 | a stretch of entries yields at most one item per entry |
| HomeRecommendation.ItemsAreShown | src/main/java/com/stock/dashboard/backend/home/service/HomeRecommendationService.java:66-79 | every item of a stretch comes from a plain symbol and has a sparkline |
| HomeRecommendation.PlainCount | src/main/java/com/stock/dashboard/backend/home/service/HomeRecommendationService.java:109-111 | a stretch has at most as many plain symbols as entries |
| HomeRecommendation.MoreFrom | src/main/java/com/stock/dashboard/backend/home/service/HomeRecommendationService.java:62-84 | the page loop ends between its index and the end of the pool |
| HomeRecommendation.MoreCollects | src/main/java/com/stock/dashboard/backend/home/service/HomeRecommendationService.java:62-84 | the page loop adds exactly the items of the entries it reads, and stops before the end only on a full page |
| HomeRecommendation.MoreStopsWhenFull | src/main/java/com/stock/dashboard/backend/home/service/HomeRecommendationService.java:62 | the page loop reads no entry once the page is full |
| HomeRecommendation.PageRule | src/main/java/com/stock/dashboard/backend/home/service/HomeRecommendationService.java:50-88 | a page of a non-empty pool has at most `pageSize` items, exactly those of the entries from max(0, offset) to the next offset or the end, and a next offset only when the page is full |
| HomeRecommendation.GetRecommendations | src/main/java/com/stock/dashboard/backend/home/service/HomeRecommendationService.java:50-88 | the page returned is the page description over the candidate pool, a failing catalogue included |
| HomeRecommendation.HomeFrom | src/main/java/com/stock/dashboard/backend/home/service/HomeRecommendationService.java:103-129 | the home loop stops between its entry and the end of the pool |
| HomeRecommendation.HomeCollects | src/main/java/com/stock/dashboard/backend/home/service/HomeRecommendationService.java:103-129 | the home loop gathers exactly the items of the entries it passed, and counts exactly their plain symbols as attempts |
| HomeRecommendation.HomeBounds | src/main/java/com/stock/dashboard/backend/home/service/HomeRecommendationService.java:104-111 | the home loop never exceeds `homeSize` items or `maxAttempts` attempts, and makes an attempt for every item |
| HomeRecommendation.HomeStopReason | src/main/java/com/stock/dashboard/backend/home/service/HomeRecommendationService.java:104-106 | a home loop that stops before the end of the pool has reached the size, the deadline or the attempt limit |
| HomeRecommendation.ForHomeRule | src/main/java/com/stock/dashboard/backend/home/service/HomeRecommendationService.java:94-133 | the home list has at most `homeSize` items, no more than the attempts made, which are at most `maxAttempts`, each from a plain symbol with a sparkline, in pool order |
| HomeRecommendation.HomeReadsAllWhenUnhurried | src/main/java/com/stock/dashboard/backend/home/service/HomeRecommendationService.java:103-129 | with no limit reached, the home list is the items of the whole pool |
| HomeRecommendation.StretchMonotone | src/main/java/com/stock/dashboard/backend/home/service/HomeRecommendationService.java:103-129 | a shorter stretch from the start yields no more items and no more plain symbols than the whole pool |
| HomeRecommendation.GetRecommendationsForHome | src/main/java/com/stock/dashboard/backend/home/service/HomeRecommendationService.java:94-133 | a catalogue failure propagates; otherwise the list returned is the home loop's description with the clock's readings |
| Home.ParseSymbols | src/main/java/com/stock/dashboard/backend/home/service/HomeService.java:122-126 | no contract of its own: the comma-separated pieces, trimmed, without blank ones, first occurrences only; `ParseSymbolsSound` and `ParseSymbolsComplete` state both directions |
| Home.Pieces | src/main/java/com/stock/dashboard/backend/home/service/HomeService.java:122 | cutting at every comma gives at least one piece, empty ones included, and no piece holds a comma |
| Home.PiecesJoin | src/main/java/com/stock/dashboard/backend/home/service/HomeService.java:122 | those pieces, joined back with commas, are the original text |
| Home.DropTrailingEmpty | src/main/java/com/stock/dashboard/backend/home/service/HomeService.java:122 | dropping trailing empty strings keeps a prefix of the list, drops only empty strings, and leaves no empty string last |
| Home.Split | src/main/java/com/stock/dashboard/backend/home/service/HomeService.java:122 | `split(",")` gives no piece holding a comma |
| Home.SplitDropsOnlyEmpty | src/main/java/com/stock/dashboard/backend/home/service/HomeService.java:122 | `split(",")` is the pieces between commas in order, less only empty pieces at the end |
| Home.SplitExamples | src/main/java/com/stock/dashboard/backend/home/service/HomeService.java:122 | "" splits to [""], "," to nothing, "A," to ["A"], ",A" to ["", "A"], and "A,,B,," to ["A", "", "B"] |
| Home.TrimAll | src/main/java/com/stock/dashboard/backend/home/service/HomeService.java:123 | each piece is trimmed in place, and the count is kept |
| Home.TrimmedPiece | src/main/java/com/stock/dashboard/backend/home/service/HomeService.java:123 | a trimmed piece is trimmed and still holds no comma |
| Home.ParseSymbolsSound | src/main/java/com/stock/dashboard/backend/home/service/HomeService.java:122-126 | the configured symbols are trimmed, non-blank, comma-free pieces of the list, none twice |
| Home.ParseSymbolsComplete | src/main/java/com/stock/dashboard/backend/home/service/HomeService.java:122-126 | every piece between commas that is not blank after trimming is among the configured symbols, including pieces that `split` drops |
| Home.TickerOf | src/main/java/com/stock/dashboard/backend/home/service/HomeService.java:177-195 | a ticker is built only under the symbol it was asked for, with no name; a failing quote or sparkline gives none |
| Home.TickersOf | src/main/java/com/stock/dashboard/backend/home/service/HomeService.java:128-131 | the tickers number at most the symbols, and each is for a configured symbol |
| Home.NewerFirstIsPreorder | src/main/java/com/stock/dashboard/backend/home/service/HomeService.java:203 | the newest-first comparison on the provider's times is a total preorder |
| Home.BuildNews | src/main/java/com/stock/dashboard/backend/home/service/HomeService.java:197-216 | a failing news provider or a negative limit gives no news; otherwise exactly min(limit, provider count) items |
| Home.NewsShown | src/main/java/com/stock/dashboard/backend/home/service/HomeService.java:203-213 | the i-th news item shown is the i-th of the provider's items in newest-first order, with its time in milliseconds |
| Home.NewsNewestFirst | src/main/java/com/stock/dashboard/backend/home/service/HomeService.java:203-213 | the news shown is ordered newest first and every item of it comes from the provider |
| Home.NewsDropsOnlyOlder | src/main/java/com/stock/dashboard/backend/home/service/HomeService.java:203-204 | a provider item that is not shown is no newer than any item that is |
| Home.FillShare | src/main/java/com/stock/dashboard/backend/home/service/HomeService.java:243-262 | a fixed symbol adds an item only when it is not blank, its trimmed upper-case form is not yet used, and its sparkline is non-empty; the item is under that form |
| Home.Truncate | src/main/java/com/stock/dashboard/backend/home/service/HomeService.java:239-266 | the list is cut to at most n items and the kept items are its prefix |
| Home.FillGrows | src/main/java/com/stock/dashboard/backend/home/service/HomeService.java:242-264 | the top-up loop keeps what it had first and in order, and stops adding at the target |
| Home.FillAddsFresh | src/main/java/com/stock/dashboard/backend/home/service/HomeService.java:242-264 | every item the loop adds is for a fixed symbol, not previously used, with a sparkline |
| Home.FillAddsOnce | src/main/java/com/stock/dashboard/backend/home/service/HomeService.java:247-261 | the loop never adds the same symbol twice |
| Home.FillComplete | src/main/java/com/stock/dashboard/backend/home/service/HomeService.java:242-264 | a loop that ends short of the target has added (or found in use) every fixed symbol that builds |
| Home.FillRule | src/main/java/com/stock/dashboard/backend/home/service/HomeService.java:223-267 | the top-up of a short base keeps the base first, returns at most `target` items, adds only unused fixed symbols once each with sparklines, and when it falls short every buildable fixed symbol is present |
| Home.NormIdempotent | src/main/java/com/stock/dashboard/backend/home/service/HomeService.java:231-248 | normalising a symbol twice is normalising it once |
| Home.FillCutsLongBase | src/main/java/com/stock/dashboard/backend/home/service/HomeService.java:238-266 | a base already at or over the target is cut to its first `target` items |
| Home.FillHomeRecommendations | src/main/java/com/stock/dashboard/backend/home/service/HomeService.java:223-267 | the loop that tops up the home list returns the top-up description |
| Home.BuildSnapshot | src/main/java/com/stock/dashboard/backend/home/service/HomeService.java:119-163 | the build fails exactly when the pool read fails; tickers and news absorb their failures |
| Home.StatusOf | src/main/java/com/stock/dashboard/backend/home/service/HomeService.java:142-144 | no contract of its own: READY when the pool gave at least `homeSize` items, BUILDING otherwise; `SnapshotRule` states the snapshot built from it |
| Home.SnapshotRule | src/main/java/com/stock/dashboard/backend/home/service/HomeService.java:136-162 | a built snapshot is READY exactly when the pool gave `homeSize` items and then shows them unchanged; while BUILDING it shows them first, topped up to at most `homeSize`; it carries the version read and the build time as id and update time |
| Home.RecoPage0 | src/main/java/com/stock/dashboard/backend/home/service/HomeService.java:165-175 | page 0 is the first min(size, pageSize) home items, with next offset their count, and no next offset when there are none |
| Home.HomeCache.constructor | src/main/java/com/stock/dashboard/backend/home/service/HomeCacheStore.java:12 | the cache starts empty |
| Home.HomeCache.RefreshHomeCache | src/main/java/com/stock/dashboard/backend/home/service/HomeService.java:57-69 | a built snapshot replaces the cached one; a failed build leaves the cache unchanged and is passed up |
| Home.HomeCache.GetOrBuildSnapshotSafe | src/main/java/com/stock/dashboard/backend/home/service/HomeService.java:92-117 | the cached snapshot is served unchanged; else a fresh build is cached and served; else the empty BUILDING snapshot with no items, under the current version of the pool read from the store, is served and nothing is cached |
| Home.HomeCache.GetHome | src/main/java/com/stock/dashboard/backend/home/service/HomeService.java:72-90 | the response carries the served snapshot's tickers, news, version, status and update time, with page 0 of its recommendations; the empty snapshot carries the pool's current version |
| RecommendationItems.Of | src/main/java/com/stock/dashboard/backend/home/dto/RecommendationItem.java:7-10 | a missing symbol becomes empty; any other is the trimmed symbol in upper case (same letters ignoring case, same length); the volume is never negative and equals the given one when that is not |
| RecommendationItems.OfIdempotent | src/main/java/com/stock/dashboard/backend/home/dto/RecommendationItem.java:7-10 | normalising an already normalised item changes nothing |
| Portfolio.RoundHalfUp | src/main/java/com/stock/dashboard/backend/portfolio/PortfolioService.java:231-241 | the whole number chosen is within half a unit of the value and on the same side of zero |
| Portfolio.RoundTo | src/main/java/com/stock/dashboard/backend/portfolio/PortfolioService.java:193-241 | rounding to a whole number of 1/unit is HALF_UP of the scaled value |
| Portfolio.RoundToIsNearest | src/main/java/com/stock/dashboard/backend/portfolio/PortfolioService.java:193-241 | rounding to 1/unit moves the value by at most half a unit and never across zero |
| Portfolio.HalfUpIsNearest | src/main/java/com/stock/dashboard/backend/portfolio/PortfolioService.java:196-241 | `setScale(places, HALF_UP)` moves a value by at most half a unit in the last kept place and never across zero |
| Portfolio.HalfUpKeepsExact | src/main/java/com/stock/dashboard/backend/portfolio/PortfolioService.java:231-241 | a value that already has at most `places` decimals is left unchanged by rounding |
| Portfolio.RoundToKeepsExact | src/main/java/com/stock/dashboard/backend/portfolio/PortfolioService.java:231-241 | a value that is already a whole number of 1/unit is left unchanged |
| Portfolio.WholeStays | src/main/java/com/stock/dashboard/backend/portfolio/PortfolioService.java:239-241 | rounding a whole number to scale 0 keeps it |
| Portfolio.RefusalSticks | src/main/java/com/stock/dashboard/backend/portfolio/PortfolioService.java:176-193 | once a trade of the ledger is refused, the whole calculation fails with that same exception |
| Portfolio.Calculate | src/main/java/com/stock/dashboard/backend/portfolio/PortfolioService.java:170-215 | the loop of `calculate` returns the ledger description: shares held, average cost (0 when none held) and realised P&L, or the refusal |
| Portfolio.HeldIsBoughtLessSold | src/main/java/com/stock/dashboard/backend/portfolio/PortfolioService.java:181-203 | the shares held after a booked ledger are the shares bought less the shares sold |
| Portfolio.CashBalances | src/main/java/com/stock/dashboard/backend/portfolio/PortfolioService.java:181-205 | realised P&L less the cost basis still on the book equals sale proceeds less purchase spend, whatever the rounding of the average |
| Portfolio.NoOverselling | src/main/java/com/stock/dashboard/backend/portfolio/PortfolioService.java:188-193 | for trades of at least one share the ledger books iff no SELL exceeds the shares held just before it; the only refusal is a BadRequest and the holding is never negative |
| Portfolio.LargerFirstIsPreorder | src/main/java/com/stock/dashboard/backend/portfolio/PortfolioService.java:159-165 | ordering positions by market value, largest first, is a total preorder |
| Portfolio.Summarize | src/main/java/com/stock/dashboard/backend/portfolio/PortfolioService.java:112-167 | a missing or non-positive rate gives exactly one FX_RATE_UNAVAILABLE warning and empty KRW fields, a good rate fills all three; zero cost gives a 0 return; the positions are the loop's, sorted largest market value first |
| Common.SortByStable | src/main/java/com/stock/dashboard/backend/portfolio/PortfolioService.java:159-164 | the sort behind `List.sort` and `Stream.sorted` is stable: for any value, the elements that tie with it appear in the output in their input order |
| Portfolio.GetPortfolio | src/main/java/com/stock/dashboard/backend/portfolio/PortfolioService.java:28-168 | the method returns the portfolio description over the trades, the grouping order, the quotes and the rate, a refused ledger included |
| Portfolio.TallyAppends | src/main/java/com/stock/dashboard/backend/portfolio/PortfolioService.java:48-110 | the symbol loop only appends positions and warnings |
| Portfolio.VisitAppends | src/main/java/com/stock/dashboard/backend/portfolio/PortfolioService.java:48-110 | one symbol of the loop only appends positions and warnings |
| Portfolio.VisitCostIgnoresQuote | src/main/java/com/stock/dashboard/backend/portfolio/PortfolioService.java:50-54 | one symbol adds the same cost whatever its quote |
| Portfolio.VisitExplained | src/main/java/com/stock/dashboard/backend/portfolio/PortfolioService.java:51-105 | one symbol of the loop keeps every position and warning accounted for by a held symbol and its quote |
| Portfolio.TallyExplained | src/main/java/com/stock/dashboard/backend/portfolio/PortfolioService.java:48-110 | the whole loop keeps every position and warning accounted for |
| Portfolio.PortfolioExplained | src/main/java/com/stock/dashboard/backend/portfolio/PortfolioService.java:48-110 | every position is a held symbol at its positive quote; every symbol warning is QUOTE_UNAVAILABLE for a missing quote or INVALID_QUOTE_PRICE for a non-positive price |
| Portfolio.VisitAdds | src/main/java/com/stock/dashboard/backend/portfolio/PortfolioService.java:61-105 | a held symbol yields its warning or its position |
| Portfolio.TallyCovers | src/main/java/com/stock/dashboard/backend/portfolio/PortfolioService.java:48-110 | every held symbol the loop passes leaves its warning or position |
| Portfolio.PortfolioCovers | src/main/java/com/stock/dashboard/backend/portfolio/PortfolioService.java:48-110 | every held symbol appears: as a position when its quote is positive, otherwise as a warning with the right code |
| Portfolio.HeldIsKey | src/main/java/com/stock/dashboard/backend/portfolio/PortfolioService.java:36-38 | when the keys are those of the grouping map (each ledger symbol once), every held symbol is a key, so `PortfolioCovers` applies to it |
| Portfolio.CostIgnoresQuotes | src/main/java/com/stock/dashboard/backend/portfolio/PortfolioService.java:50-119 | the total cost does not depend on the quotes, so a symbol whose quote fails still counts in the cost |
| Portfolio.ExampleBook | src/test/java/com/stock/dashboard/backend/portfolio/PortfolioServiceSmokeTest.java:64-101 | buy 2 at 100 then sell 1 at 120 books 1 share at average 100 with 20 realised |
| Portfolio.ExampleTally | src/test/java/com/stock/dashboard/backend/portfolio/PortfolioServiceSmokeTest.java:64-101 | the loop over that ledger quoted at 110 gives 20 realised, 10 unrealised and 100 cost |
| Portfolio.ExampleTotals | src/test/java/com/stock/dashboard/backend/portfolio/PortfolioServiceSmokeTest.java:86-101 | those totals summarise as P&L 30 and a return of 30% |
| Portfolio.ExampleReturn | src/test/java/com/stock/dashboard/backend/portfolio/PortfolioServiceSmokeTest.java:64-101 | the worked example gives realised 20, unrealised 10, P&L 30, cost 100 and return 30% |
| Portfolio.SingleBuyBook | src/test/java/com/stock/dashboard/backend/portfolio/PortfolioServiceSmokeTest.java:104-131 | a single buy of 1 at 100 books 1 share at average 100 |
| Portfolio.ExampleQuoteUnavailable | src/test/java/com/stock/dashboard/backend/portfolio/PortfolioServiceSmokeTest.java:104-131 | a held symbol whose quote fails gives no position and a QUOTE_UNAVAILABLE warning for that symbol |
| Trading.Validate | src/main/java/com/stock/dashboard/backend/trade/TradeService.java:57-69 | the request passes iff it is present with a symbol that has text, a side, a kind, a quantity of at least 1 and a positive price; every failure is a BadRequest |
| Trading.Admit | src/main/java/com/stock/dashboard/backend/trade/TradeService.java:23-55 | an invalid request fails with its validation error; otherwise the trade is admitted iff it is not a SELL above the holding of the normalised symbol; the saved row carries the next id, the user, the trimmed upper-case symbol and the request's values |
| Trading.TradeRepository.constructor | src/main/java/com/stock/dashboard/backend/trade/TradeService.java:19 | the ledger starts empty with no holding negative |
| Trading.TradeRepository.Create | src/main/java/com/stock/dashboard/backend/trade/TradeService.java:23-55 | a refused request saves nothing; an admitted one appends its row and returns its id; no holding ever goes negative |
| Trading.Holding | src/main/java/com/stock/dashboard/backend/trade/TradeService.java:32 | no contract of its own: the holding the oversell check reads, bought less sold over the (user, symbol) rows, 0 with none; `HoldingAppend` and `AdmittedKeepsHoldings` state how it moves |
| Trading.HoldingAppend | src/main/java/com/stock/dashboard/backend/trade/TradeService.java:32-33 | appending a row changes only its own (user, symbol) holding, by its signed quantity |
| Trading.AdmittedMovesHolding | src/main/java/com/stock/dashboard/backend/trade/TradeService.java:31-54 | an admitted SELL lowers only its own holding by its quantity; a BUY raises it |
| Trading.AdmittedKeepsHoldings | src/main/java/com/stock/dashboard/backend/trade/TradeService.java:31-42 | admitting a trade never leaves any holding negative |
| Trading.ExampleScenarios | src/test/java/com/stock/dashboard/backend/trade/TradeServiceTest.java:32-177 | after buying 1, selling 2 is refused; after buying 2, selling 1 is saved and leaves a holding of 1 |
| DeviceTypes.NormalizeOrThrow | src/main/java/com/stock/dashboard/backend/validation/validator/DeviceTypeValidator.java:28-41 | a type without text is WEB; otherwise the trimmed upper-case type is returned iff it is one of WEB, ANDROID, IOS, WINDOWS, MACOS, and any other is a BadRequest |
| DeviceTypes.AllowedIsNormal | src/main/java/com/stock/dashboard/backend/validation/validator/DeviceTypeValidator.java:15-33 | every allowed type has text and is its own trimmed upper-case form |
| DeviceTypes.NormalizeIdempotent | src/main/java/com/stock/dashboard/backend/validation/validator/DeviceTypeValidator.java:28-41 | normalising an accepted type's result again gives the same result |
| DeviceTypes.AcceptedTypes | src/main/java/com/stock/dashboard/backend/validation/validator/DeviceTypeValidator.java:28-41 | a type is accepted iff it has no text or, trimmed, equals an allowed platform ignoring case |
| DeviceTypes.ExampleTypes | src/main/java/com/stock/dashboard/backend/validation/validator/DeviceTypeValidator.java:28-41 | " ios " gives IOS, "macOS" gives MACOS, "ETC" is refused, and blanks give WEB |
| UserDevices.Find | src/main/java/com/stock/dashboard/backend/service/UserDeviceService.java:21-22 | the lookup returns a row of the (user, device id) pair, or none when no row has that pair |
| UserDevices.Upsert | src/main/java/com/stock/dashboard/backend/service/UserDeviceService.java:20-48 | the call fails exactly when the device type is refused, with the validator's exception |
| UserDevices.UpsertKeepsOneRow | src/main/java/com/stock/dashboard/backend/service/UserDeviceService.java:20-48 | a successful call leaves exactly one row for the pair, holding the normalised type with refresh active; it appends only when the pair had no row and changes no other row |
| UserDevices.DeviceRepository.constructor | src/main/java/com/stock/dashboard/backend/service/UserDeviceService.java:18 | the repository starts with no rows |
| UserDevices.DeviceRepository.CreateOrUpdate | src/main/java/com/stock/dashboard/backend/service/UserDeviceService.java:20-48 | the rows after the call are the upsert's, a refused type leaving them unchanged; pairs stay unique |
| Nicknames.RemoveSpaces | src/main/java/com/stock/dashboard/backend/util/NicknameGenerator.java:19 | the result is no longer than the input and holds no regex whitespace |
| Nicknames.KeepNicknameChars | src/main/java/com/stock/dashboard/backend/util/NicknameGenerator.java:22 | the result is no longer than the input and holds only digits, ASCII letters, Hangul syllables and '_' |
| Nicknames.IndexOf | src/main/java/com/stock/dashboard/backend/util/NicknameGenerator.java:15 | the position is -1 iff the character is absent, otherwise its first occurrence |
| Nicknames.BaseFrom | src/main/java/com/stock/dashboard/backend/util/NicknameGenerator.java:10-28 | a base is 1 to 12 characters, all of them allowed nickname characters |
| Nicknames.BaseFromIdempotent | src/main/java/com/stock/dashboard/backend/util/NicknameGenerator.java:10-28 | feeding a base back in gives the same base |
| Nicknames.EmailUsesLocalPart | src/main/java/com/stock/dashboard/backend/util/NicknameGenerator.java:15-16 | for an address with a non-empty local part, the base is built from the local part alone |
| Nicknames.LeadingAtIsDropped | src/main/java/com/stock/dashboard/backend/util/NicknameGenerator.java:15-16 | an '@' at position 0 does not cut: "@kim" gives "kim" |
| Nicknames.ExampleAddress | src/main/java/com/stock/dashboard/backend/util/NicknameGenerator.java:10-28 | "j.k@x" gives "jk" |
| Nicknames.ExampleFallbacks | src/main/java/com/stock/dashboard/backend/util/NicknameGenerator.java:11-24 | a missing name, or one with no allowed character, gives "user" |
| Nicknames.WithSuffix | src/main/java/com/stock/dashboard/backend/util/NicknameGenerator.java:30-33 | the base is followed by exactly four decimal digits, not starting with 0, whose value is 1000 plus the draw |
| Usernames.ShortHash | src/main/java/com/stock/dashboard/backend/util/UsernameGenerator.java:37-45 | the short hash is the first 20 hex digits of the digest |
| Usernames.Generate | src/main/java/com/stock/dashboard/backend/util/UsernameGenerator.java:19-35 | a provider without text, then a provider id without text, is an IllegalArgumentException; otherwise the name is the lower-cased provider, '_' and the short hash, kept whole when it fits in 30 characters and cut to 30 otherwise |
| Usernames.ShortProviderKeepsHash | src/main/java/com/stock/dashboard/backend/util/UsernameGenerator.java:27-34 | for a provider of at most 9 characters the whole hash is kept, so two ids get the same username exactly when their short hashes agree |
| Users.ProfileUpdated | src/main/java/com/stock/dashboard/backend/model/User.java:168-175 | no request changes nothing; otherwise name, nickname, age and phone number each take the request's value when it has one, and no other column changes |
| Users.ProfileUpdateIdempotent | src/main/java/com/stock/dashboard/backend/model/User.java:168-175 | applying the same profile update twice is applying it once |
| Users.RemoveFirst | src/main/java/com/stock/dashboard/backend/model/User.java:186-189 | removing from a list drops exactly one occurrence when there is one (one element fewer, the same multiset less that element) and leaves a list without it unchanged |
| Users.RemoveFirstOfAppended | src/main/java/com/stock/dashboard/backend/model/User.java:181-189 | removing an element just appended to a list that lacked it gives back the list |
| Users.User.Local | src/main/java/com/stock/dashboard/backend/model/User.java:97-107 | a local account has the given e-mail, encoded password, name, age and phone, is active, verified as the caller says, has provider "local" whatever is passed, and no id, username, nickname or roles |
| Users.User.Social | src/main/java/com/stock/dashboard/backend/service/oauth/SocialLoginService.java:311-358 | a social account is active, linked to the provider and id, holds exactly the given role, and has no password, nickname or id |
| Users.User.IsAccountNonLocked | src/main/java/com/stock/dashboard/backend/model/User.java:134 | no contract of its own: an account is unlocked exactly when it is active |
| Users.User.IsEnabled | src/main/java/com/stock/dashboard/backend/model/User.java:140 | no contract of its own: an account is enabled exactly when its e-mail is verified; `Users.User.VerifyEmail` states that verifying enables it |
| Users.User.FromRow | src/main/java/com/stock/dashboard/backend/service/UserService.java:144-145 | an entity loaded from a row has the row's columns and roles |
| Users.User.UpdatePassword | src/main/java/com/stock/dashboard/backend/model/User.java:145-147 | only the password changes |
| Users.User.UpdateProfile | src/main/java/com/stock/dashboard/backend/model/User.java:168-175 | the columns become the profile update of the old ones; roles are unchanged |
| Users.User.UpdateNickname | src/main/java/com/stock/dashboard/backend/service/UserService.java:198-219 | only the nickname changes |
| Users.User.ConnectEmail | src/main/java/com/stock/dashboard/backend/service/EmailVerificationService.java:158 | only the e-mail changes |
| Users.User.VerifyEmail | src/main/java/com/stock/dashboard/backend/service/EmailVerificationService.java:159 | only the verified flag changes, to true, so the account is enabled |
| Users.User.UpdateProfileImage | src/main/java/com/stock/dashboard/backend/service/oauth/SocialLoginService.java:278-323 | only the profile image changes |
| Users.User.ConnectSocial | src/main/java/com/stock/dashboard/backend/service/oauth/SocialLoginService.java:271 | only the provider and provider id change |
| Users.User.AddRole | src/main/java/com/stock/dashboard/backend/model/User.java:181-184 | the role joins the user's roles and the user is appended to the role's list; no column changes |
| Users.User.RemoveRole | src/main/java/com/stock/dashboard/backend/model/User.java:186-189 | the role leaves the user's roles and the user's first entry leaves the role's list; no column changes |
| Users.RemoveRoleUndoesAddRole | src/main/java/com/stock/dashboard/backend/model/User.java:181-189 | for a role the user lacked and a list without the user, adding then removing restores both sides |
| Users.SaveRow | src/main/java/com/stock/dashboard/backend/model/User.java:28-41 | a save fails with a DataIntegrityViolation exactly when the user's e-mail or nickname is taken by another row; the unique `username` column is not checked, since no modelled path sets a username |
| Users.SaveKeepsConstraints | src/main/java/com/stock/dashboard/backend/model/User.java:28-41 | an accepted save keeps ids, e-mails and nicknames unique, stores the user's columns under its id, changes no other row, and adds a row only for a new user |
| Users.RowOfUnique | src/main/java/com/stock/dashboard/backend/model/User.java:28-31 | under the constraints the lookup by a row's id finds that row |
| Users.SameKeysNeverClash | src/main/java/com/stock/dashboard/backend/service/UserService.java:153-168 | saving a row back with its id, e-mail and nickname unchanged never clashes |
| Users.UserRepository.constructor | src/main/java/com/stock/dashboard/backend/service/UserService.java:29 | the table starts empty and satisfies the constraints |
| Users.UserRepository.FindById | src/main/java/com/stock/dashboard/backend/service/UserService.java:144-145 | the row found has that id; none means no row has it |
| Users.UserRepository.FindByEmail | src/main/java/com/stock/dashboard/backend/service/UserService.java:68 | the row found has that e-mail; none means no row has it |
| Users.UserRepository.FindByProviderAndProviderId | src/main/java/com/stock/dashboard/backend/service/oauth/SocialLoginService.java:149-209 | the row found has that provider and id; none means no row has both |
| Users.UserRepository.Save | src/main/java/com/stock/dashboard/backend/service/UserService.java:98-105 | a clash leaves the table and the entity unchanged; otherwise the table is the save description's, the entity receives its id, its row is found by that id, and the constraints hold |
| UserServices.SeedFrom | src/main/java/com/stock/dashboard/backend/service/UserService.java:192-217 | the seed always has text |
| UserServices.SeedPrecedence | src/main/java/com/stock/dashboard/backend/service/UserService.java:192-217 | the seed is the first candidate that has text, in the order preferred seed, name, e-mail, username |
| UserServices.SeedFallback | src/main/java/com/stock/dashboard/backend/service/UserService.java:196-217 | with no candidate that has text the seed is "user" |
| UserServices.Candidate | src/main/java/com/stock/dashboard/backend/service/UserService.java:176 | every candidate starts with the base and is longer than it |
| UserServices.NicknameFrom | src/main/java/com/stock/dashboard/backend/service/UserService.java:175-183 | whatever the loop settles on starts with the base and is longer than it |
| UserServices.UniqueNickname | src/main/java/com/stock/dashboard/backend/service/UserService.java:171-184 | a generated nickname starts with the seed's base, is longer than it and has text |
| UserServices.NicknameChoice | src/main/java/com/stock/dashboard/backend/service/UserService.java:175-183 | the result is the first of the 20 candidates no row holds, or, only when all 20 are taken, the base followed by the clock modulo 100000 |
| UserServices.NicknameChoiceFrom | src/main/java/com/stock/dashboard/backend/service/UserService.java:175-183 | from any try on, the loop returns the first free candidate from there, or the clock fallback when every remaining one is taken |
| UserServices.GenerateUniqueNickname | src/main/java/com/stock/dashboard/backend/service/UserService.java:171-184 | the loop returns the generated nickname of the description and changes nothing |
| UserServices.ForceRegenerateNickname | src/main/java/com/stock/dashboard/backend/service/UserService.java:211-220 | only the nickname changes, to one generated from the first seed with text |
| UserServices.EnsureNicknameBeforeSave | src/main/java/com/stock/dashboard/backend/service/UserService.java:201-206 | a nickname with text is kept and nothing changes; otherwise only the nickname changes, to a generated one; afterwards the nickname has text |
| UserServices.EnsureNickname | src/main/java/com/stock/dashboard/backend/service/UserService.java:189-200 | as above, seeded from name, e-mail, username or "user" |
| UserServices.RegisterUser | src/main/java/com/stock/dashboard/backend/service/UserService.java:63-137 | a taken e-mail, then a missing ROLE_USER, is refused with nothing saved; on success exactly one row is appended for a local, active, unverified user with the form's data, a nickname and ROLE_USER, one unused token for its id and e-mail with the hashed raw token and the TTL is saved, and the raw token is mailed; no failure sends mail or saves a token |
| UserServices.CreateLocalUser | src/main/java/com/stock/dashboard/backend/service/UserService.java:65-105 | the e-mail check, the entity, its nickname, ROLE_USER on both sides and the save: refusals change no row; success appends exactly the new user's row |
| UserServices.SaveNewUser | src/main/java/com/stock/dashboard/backend/service/UserService.java:96-105 | a clean save keeps the nickname; a clash regenerates it from the name (or the e-mail when the name is blank) and saves once more; only the nickname and id change, and a second clash leaves the table unchanged |
| UserServices.GetUserProfile | src/main/java/com/stock/dashboard/backend/service/UserService.java:143-147 | the profile is found iff the user exists, and then is that row's columns; otherwise ResourceNotFound("User", "id", id) |
| UserServices.UpdateUserProfile | src/main/java/com/stock/dashboard/backend/service/UserService.java:149-156 | an unknown user is ResourceNotFound and nothing changes; otherwise the user's row becomes the profile update of its columns and no other row changes |
| UserServices.ChangePassword | src/main/java/com/stock/dashboard/backend/service/UserService.java:158-169 | an unknown user, then a wrong old password, is refused with nothing changed; it succeeds iff the user exists and the old password matches, and then only that user's password column changes |
| EmailTokens.EmailVerificationToken.Create | src/main/java/com/stock/dashboard/backend/model/EmailVerificationToken.java:43-45 | a new token holds the user id, e-mail and hash, expires `ttl` after now, is not used, and with a non-negative TTL is not expired at creation |
| EmailTokens.EmailVerificationToken.IsExpired | src/main/java/com/stock/dashboard/backend/model/EmailVerificationToken.java:47-49 | no contract of its own: a token is expired strictly after its expiry instant; `Create` states that a new token is not expired |
| EmailTokens.EmailVerificationToken.IsUsed | src/main/java/com/stock/dashboard/backend/model/EmailVerificationToken.java:51-53 | no contract of its own: a token is used once it has a moment of use; `MarkUsed` states that it is used afterwards |
| EmailTokens.EmailVerificationToken.MarkUsed | src/main/java/com/stock/dashboard/backend/model/EmailVerificationToken.java:55-57 | the token records the moment of use and is used from then on |
| EmailTokens.TokenRepository.constructor | src/main/java/com/stock/dashboard/backend/model/EmailVerificationToken.java:8-14 | the table starts empty with unique hashes |
| EmailTokens.TokenRepository.FindByTokenHash | src/main/java/com/stock/dashboard/backend/repository/EmailVerificationTokenRepository.java:11 | the token found has that hash; none means no token has it |
| EmailTokens.TokenRepository.Save | src/main/java/com/stock/dashboard/backend/model/EmailVerificationToken.java:12-27 | saving a token already stored changes nothing; a new token whose hash is taken is a DataIntegrityViolation with nothing changed; any other is appended |
| EmailTokens.FindIn | src/main/java/com/stock/dashboard/backend/repository/EmailVerificationTokenRepository.java:11 | the lookup over a list of tokens finds one with the hash, or none when no token has it |
| EmailTokens.IssueVerification | src/main/java/com/stock/dashboard/backend/service/UserService.java:110-133 | issuing succeeds iff the hash of the raw token is new; then exactly one unused token for the user, e-mail and hash, expiring `ttl` after now, is appended and the raw token is mailed; a refusal changes nothing and sends nothing |
| EmailTokens.Outbox.constructor | src/main/java/com/stock/dashboard/backend/service/UserService.java:37 | the outbox starts empty |
| EmailTokens.Outbox.SendEmailVerification | src/main/java/com/stock/dashboard/backend/service/UserService.java:133 | one more mail is sent, carrying the address and the raw token |
| VerifyCodes.WithoutDashes | src/main/java/com/stock/dashboard/backend/service/email/EmailVerifyCodeStore.java:22 | the code holds no dash and is no longer than the UUID |
| VerifyCodes.WithoutDashesOfPlain | src/main/java/com/stock/dashboard/backend/service/email/EmailVerifyCodeStore.java:22 | a text without dashes is kept unchanged |
| VerifyCodes.IssueF | src/main/java/com/stock/dashboard/backend/service/email/EmailVerifyCodeStore.java:21-25 | the code holds no dash, and the payload is stored under the code's key with the five-minute lifetime |
| VerifyCodes.ConsumeF | src/main/java/com/stock/dashboard/backend/service/email/EmailVerifyCodeStore.java:27-35 | consuming returns what the code's key held; an absent code changes nothing; a present one is deleted with its lifetime |
| VerifyCodes.IssueThenConsume | src/main/java/com/stock/dashboard/backend/service/email/EmailVerifyCodeStore.java:21-35 | a code that was issued can be consumed and gives back the payload |
| VerifyCodes.ConsumeTwice | src/main/java/com/stock/dashboard/backend/service/email/EmailVerifyCodeStore.java:32-34 | a consumed code is gone: consuming it again gives nothing and changes nothing |
| VerifyCodes.OnlyItsKey | src/main/java/com/stock/dashboard/backend/service/email/EmailVerifyCodeStore.java:23-33 | issuing and consuming touch no key other than the code's own |
| VerifyCodes.IssueCode | src/main/java/com/stock/dashboard/backend/service/email/EmailVerifyCodeStore.java:21-25 | the store and code after the call are those of the issue description |
| VerifyCodes.ConsumeCode | src/main/java/com/stock/dashboard/backend/service/email/EmailVerifyCodeStore.java:27-35 | the store and payload after the call are those of the consume description |
| Auth.AuthenticateUser | src/main/java/com/stock/dashboard/backend/service/AuthService.java:90-125 | an unknown e-mail gives no authentication; a known one with a wrong password is BadCredentials "Invalid password"; a right password on an unverified account is BadCredentials "EMAIL_NOT_VERIFIED"; otherwise the principal is that user's row |
| Auth.FindByDevice | src/main/java/com/stock/dashboard/backend/service/AuthService.java:150 | the refresh token found belongs to the (user, device) pair; none means no token does |
| Auth.FindByToken | src/main/java/com/stock/dashboard/backend/service/AuthService.java:217-218 | the refresh token found has that value; none means no token has it |
| Auth.RotateOrCreate | src/main/java/com/stock/dashboard/backend/service/AuthService.java:150-162 | no contract of its own: the device's refresh token gets the new value and expiry, or a token is appended for the device; `RotateKeepsOnePerDevice` states one token per device afterwards |
| Auth.RotateKeepsOnePerDevice | src/main/java/com/stock/dashboard/backend/service/AuthService.java:150-162 | after rotate-or-create the device has exactly one refresh token, with the new value and expiry; a row is added only when it had none; other devices' tokens are unchanged |
| Auth.RefreshTokenRepository.constructor | src/main/java/com/stock/dashboard/backend/service/AuthService.java:55 | the refresh-token table starts empty |
| Auth.RefreshTokenRepository.Issue | src/main/java/com/stock/dashboard/backend/service/AuthService.java:150-162 | the table becomes the rotate-or-create of the old one and keeps one token per device |
| Auth.GenerateTokens | src/main/java/com/stock/dashboard/backend/service/AuthService.java:134-171 | an unknown user is "User not found" with nothing changed; a login without device info fails on reading it, changing nothing; a refused device type changes no device and no token; success records the device, rotates or creates its refresh token, and returns the access token, the new refresh token, the expiry and the user id |
| Auth.BearerToken | src/main/java/com/stock/dashboard/backend/service/AuthService.java:180-187 | a token is read iff the header starts with "Bearer ", and the header is "Bearer " followed by it; otherwise "No JWT token found in request header" |
| Auth.BearerRoundTrip | src/main/java/com/stock/dashboard/backend/service/AuthService.java:182-187 | the token sent as "Bearer " + token is the token logout acts on |
| Auth.LogoutCache.constructor | src/main/java/com/stock/dashboard/backend/service/AuthService.java:54 | no logout has been recorded |
| Auth.LogoutCache.Logout | src/main/java/com/stock/dashboard/backend/service/AuthService.java:179-209 | a missing or non-Bearer header, then a token that fails validation, is refused with nothing recorded; otherwise exactly one logout event for the token's user and the token is recorded |
| Auth.RefreshAccessToken | src/main/java/com/stock/dashboard/backend/service/AuthService.java:214-235 | an unknown refresh token is "Refresh token not found"; an expired one fails with the expiry check's exception; success returns a new access token with the same refresh token for that token's owner |
| Auth.ResendVerificationEmail | src/main/java/com/stock/dashboard/backend/service/AuthService.java:258-298 | an unknown e-mail, then an already verified user, is refused with no token saved and no mail sent; otherwise one unused token for the user's id, e-mail and hashed raw token, expiring after the TTL, is saved and the raw token is mailed |
| SocialLogin.FirstSupporting | src/main/java/com/stock/dashboard/backend/service/oauth/SocialLoginService.java:100-111 | the index chosen is of an adapter that supports the provider with none before it doing so; none means no adapter supports it |
| SocialLogin.GetLoginUrl | src/main/java/com/stock/dashboard/backend/service/oauth/SocialLoginService.java:100-111 | "Unsupported provider: " + provider exactly when no adapter supports it; otherwise the authorize URL, for the redirect URI, of the first adapter that does |
| SocialLogin.GetUserInfo | src/main/java/com/stock/dashboard/backend/service/oauth/SocialLoginService.java:119-126 | "Unsupported provider: " + provider exactly when no adapter supports it; otherwise the user info the first supporting adapter returns for the code |
| SocialLogin.LoginEmail | src/main/java/com/stock/dashboard/backend/service/oauth/SocialLoginService.java:147-168 | the provider's e-mail when it has text; otherwise the e-mail of the account linked to the provider id exactly when that account exists, has an e-mail with text and is verified; otherwise EMAIL_REQUIRED naming provider and provider id |
| SocialLogin.LoginTarget | src/main/java/com/stock/dashboard/backend/service/oauth/SocialLoginService.java:266-268 | the account linked to provider and provider id when there is one, else the account holding the e-mail; the account returned is a row of the table |
| SocialLogin.SaveWithForcedRetry | src/main/java/com/stock/dashboard/backend/service/oauth/SocialLoginService.java:284-290 | a save the table accepts is the result; a refused one regenerates the nickname from the social nickname, name, e-mail and username and saves once more; both refused leaves the table unchanged with DataIntegrityViolation; only id and nickname of the account change; a saved account is stored under its id and keeps its id when it had a row |
| SocialLogin.LoadSocialUser | src/main/java/com/stock/dashboard/backend/service/oauth/SocialLoginService.java:266-268 | an existing target account is loaded unchanged with the table untouched; without one, no ROLE_USER is an IllegalState and nothing is written; otherwise one new row is appended: the provider's e-mail, social flag, verification flag, provider, provider id and image, with ROLE_USER only |
| SocialLogin.SyncAndSave | src/main/java/com/stock/dashboard/backend/service/oauth/SocialLoginService.java:270-290 | the saved account carries the provider and provider id, a nickname with text, its e-mail unchanged and the provider's image when that has text (else its old one); a refused save is DataIntegrityViolation with the table unchanged; an existing account keeps its id |
| SocialLogin.ProcessSocialLogin | src/main/java/com/stock/dashboard/backend/service/oauth/SocialLoginService.java:251-295 | no target and no ROLE_USER is an IllegalState with nothing written; a login returns the issued token pair for an account that now has the provider link and a nickname, the provider's image when it has text, the target's id and e-mail when there was a target and the provider's e-mail otherwise; the device table is the old one with the request's device upserted for that user and the refresh-token table the old one with that device's token rotated or created; a refusal leaves both tables unchanged |
| SocialLogin.LoginWithSocialInfo | src/main/java/com/stock/dashboard/backend/service/oauth/SocialLoginService.java:134-177 | when no login e-mail can be found the refusal is returned and no table changes; a login happens only with a login e-mail and lands on an account linked to the provider, without a provider e-mail the account already linked to the provider id; a login upserts the request's device and rotates or creates its refresh token, and nothing else in those tables changes |
| SocialLogin.ConnectEmailAndSendVerification | src/main/java/com/stock/dashboard/backend/service/oauth/SocialLoginService.java:195-239 | a blank e-mail is "Email required"; an unknown social account is "Social user not found"; an e-mail held by another account is a conflict on User.email; on success exactly one unused token is appended for the account and the typed e-mail, hashed from the raw token, expiring after the TTL, and one mail with the raw token is sent; a refusal writes and sends nothing; the user table is never written |
| SocialLogin.LoadStub | src/main/java/com/stock/dashboard/backend/service/oauth/SocialLoginService.java:304-318 | the account linked to the provider id is loaded as stored; without one, no ROLE_USER is an IllegalState; otherwise a new unsaved social account without e-mail, unverified, with provider, provider id, image and ROLE_USER |
| SocialLogin.UpsertSocialStubIfNeeded | src/main/java/com/stock/dashboard/backend/service/oauth/SocialLoginService.java:297-336 | a provider e-mail means nothing happens; an unlinked provider id without ROLE_USER is an IllegalState with nothing written; a refused save ends in DataIntegrityViolation or, when the retry succeeds, in the rollback of the whole transaction, and every refusal leaves the table and its id counter unchanged; on success an account linked to the provider id exists with a nickname and with the provider's image when that has text |
| SocialLogin.SaveOrRollBack | src/main/java/com/stock/dashboard/backend/service/oauth/SocialLoginService.java:329-335 | a first save the table accepts is the result; a refused one regenerates the nickname and retries inside the transaction that the refusal already marked rollback-only, so the outcome is DataIntegrityViolation or RolledBack and the table and id counter are as before; a saved account is stored under its id |
| EmailVerification.VerifyCheck | src/main/java/com/stock/dashboard/backend/service/EmailVerificationService.java:112-153 | the refusals in the source's order: no token text is "Token is required"; an unknown hash "Invalid email verification token"; an expired token "Email verification token expired"; a used one a conflict "already used"; an unknown user "User not found"; an e-mail another account holds a conflict on User.email; success gives an unexpired, unused token with that hash and its user's row, and the e-mail is free or the user's own |
| EmailVerification.OwnEmailNeverClashes | src/main/java/com/stock/dashboard/backend/service/EmailVerificationService.java:149-160 | an account given an e-mail nobody else holds, with its own nickname, clashes with no other row, so its save cannot be refused |
| EmailVerification.AttachEmail | src/main/java/com/stock/dashboard/backend/service/EmailVerificationService.java:158-173 | the user's row, under its id and with no row added, now holds the token's e-mail and the verified flag, and ROLE_USER when it had no role; every other column and role is unchanged, and every other user's row is as it was |
| EmailVerification.VerifiedUser | src/main/java/com/stock/dashboard/backend/service/EmailVerificationService.java:158-171 | the user entity after `connectEmail`, `verifyEmail` and, when it had no role, `addRole(ROLE_USER)`: its columns are the row's with the e-mail and the verified flag set |
| EmailVerification.SpendToken | src/main/java/com/stock/dashboard/backend/service/EmailVerificationService.java:178-179 | the token is marked used at the current time; the token table keeps the same tokens |
| EmailVerification.VerifyEmail | src/main/java/com/stock/dashboard/backend/service/EmailVerificationService.java:107-197 | a failed check is returned and nothing changes; a roleless user without ROLE_USER available is an IllegalState and nothing changes; on success the token alone is marked used, the user's row holds the e-mail, the verified flag and a role, no row is added and no other user's row changes, the code maps to the user's id for 300 seconds, and the result is the front-end URL carrying the code |
| EmailVerification.Redeem | src/main/java/com/stock/dashboard/backend/service/EmailVerificationService.java:158-196 | the writes after the checks: the user's row gets the e-mail, the verified flag and a role, other rows are kept, the token is spent, the code is stored for 300 seconds and the URL carries it |
| EmailVerification.TokenVerifiesOnce | src/main/java/com/stock/dashboard/backend/service/EmailVerificationService.java:131-136 | once its token is used, every later verification with the same raw token is refused, at any time |
| EmailVerification.ExchangeGuard | src/main/java/com/stock/dashboard/backend/service/EmailVerificationService.java:205-214 | "Code is required", then "DeviceInfo is required", then "DeviceInfo.deviceId is required"; the guards pass exactly when code, device info and device id are all present with text |
| EmailVerification.ExchangeCode | src/main/java/com/stock/dashboard/backend/service/EmailVerificationService.java:203-244 | a failed guard or a missing code changes nothing; after the read, the key is deleted from whatever the store then holds and a caller whose delete finds it gone gets a conflict; an unparsable payload, unknown user or unverified e-mail is refused, and every refusal leaves the device and refresh-token tables unchanged; success means the code was read and deleted and parses to a verified user's id, who gets the issued token pair, the request's device upserted for that user and a rotated or new refresh token for the device |
| EmailVerification.VerifiedCodeNamesItsUser | src/main/java/com/stock/dashboard/backend/service/EmailVerificationService.java:184-188 | right after it is stored, the code's payload parses back to the user's id, for every id in the long range |
| EmailVerification.CodeDeletedOnce | src/main/java/com/stock/dashboard/backend/service/EmailVerificationService.java:223-226 | of two deletes of the same code, with any operations on other keys between them, the second finds nothing to delete |
| Filters.AnyPrefix | src/main/java/com/stock/dashboard/backend/security/JwtAuthenticationFilter.java:64 | true exactly when some prefix of the list begins the path |
| Filters.ShouldNotFilter | src/main/java/com/stock/dashboard/backend/security/JwtAuthenticationFilter.java:52-67 | no contract of its own: OPTIONS in any letter case, or a path under an excluded prefix, is not filtered; `OptionsInAnyCaseSkipped`, `AuthPathsSkipped` and `AccountPathsFiltered` state its cases |
| Filters.OptionsInAnyCaseSkipped | src/main/java/com/stock/dashboard/backend/security/JwtAuthenticationFilter.java:58-62 | OPTIONS written in any mix of upper and lower case is never filtered, whatever the path |
| Filters.AuthPathsSkipped | src/main/java/com/stock/dashboard/backend/security/JwtAuthenticationFilter.java:38-48 | every path under "/api/auth/" is left unfiltered, for every method |
| Filters.AccountPathsFiltered | src/main/java/com/stock/dashboard/backend/security/JwtAuthenticationFilter.java:51-68 | a non-OPTIONS request to any path under "/api/user" is filtered: none of the excluded prefixes begins it |
| Filters.RemoveAll | src/main/java/com/stock/dashboard/backend/security/JwtAuthenticationFilter.java:106 | removing every occurrence never lengthens the header |
| Filters.RemoveAllAbsent | src/main/java/com/stock/dashboard/backend/security/JwtAuthenticationFilter.java:106 | a header in which the prefix never occurs is left as it is |
| Filters.JwtFromHeader | src/main/java/com/stock/dashboard/backend/security/JwtAuthenticationFilter.java:103-109 | a token is read exactly when the header has text and begins with the prefix |
| Filters.JwtRoundTrip | src/main/java/com/stock/dashboard/backend/security/JwtAuthenticationFilter.java:103-109 | a header made of the prefix and a trimmed token not containing the prefix yields exactly that token |
| Filters.AuthenticatedUser | src/main/java/com/stock/dashboard/backend/security/JwtAuthenticationFilter.java:77-98 | a request is authenticated exactly when its token has text, validates, yields a user id and that user loads, and then as that user; a validator, id reader or loader that throws means no authentication |
| Filters.NoPrefixNoAuthentication | src/main/java/com/stock/dashboard/backend/security/JwtAuthenticationFilter.java:103-109 | a request without the header, or whose header lacks the prefix, is never authenticated |
| Filters.SecurityContext.constructor | src/main/java/com/stock/dashboard/backend/security/JwtAuthenticationFilter.java:93 | a request's security context starts without authentication |
| Filters.FilterChain.constructor | src/main/java/com/stock/dashboard/backend/security/JwtAuthenticationFilter.java:100 | no request has been passed on yet |
| Filters.FilterChain.DoFilter | src/main/java/com/stock/dashboard/backend/security/JwtAuthenticationFilter.java:100 | the request is passed on once more |
| Filters.DoFilterInternal | src/main/java/com/stock/dashboard/backend/security/JwtAuthenticationFilter.java:71-101 | the context is set to the authenticated user when there is one and otherwise kept; the request is passed on exactly once in every case, failures included |
| Filters.VerifiedEmailGate | src/main/java/com/stock/dashboard/backend/security/EmailVerificationFilter.java:30-61 | outside the guarded prefixes, or with a missing or invalid token, the request passes; a valid token naming no user is "User not found" exactly then; a 403 EMAIL_VERIFICATION_REQUIRED exactly for a known user whose e-mail is not verified; any other outcome is to pass |
| Filters.GuardedByPrefix | src/main/java/com/stock/dashboard/backend/security/EmailVerificationFilter.java:24-37 | every path that begins with "/api/user", "/api/post" or "/api/order" is guarded |
| Errors.Handle | src/main/java/com/stock/dashboard/backend/exception/GlobalExceptionHandler.java:12-60 | a bad request is 400 BAD_REQUEST with its message; a conflict is 409 RESOURCE_ALREADY_IN_USE with the exception's message; an expired token is 410 TOKEN_EXPIRED; bad credentials are 401, EMAIL_NOT_VERIFIED with its fixed message exactly when the message is EMAIL_NOT_VERIFIED, else INVALID_CREDENTIALS with its fixed message; the handler answers exactly these four failures |
| Errors.LoginRefusalsAre401 | src/main/java/com/stock/dashboard/backend/service/AuthService.java:105-114 | for a known e-mail, a wrong password reaches the client as 401 INVALID_CREDENTIALS, and a right password on an unverified account as 401 EMAIL_NOT_VERIFIED |
| Errors.VerifyRefusalsAreClientErrors | src/main/java/com/stock/dashboard/backend/service/EmailVerificationService.java:112-153 | every refusal of a verification link is answered by the handler with 400, 409 or 410 |

## Left out

- Network calls, mail and the OAuth adapters' HTTP exchanges are not modelled. Their outcomes are parameters: the quote, time-series, catalogue and news answers; the adapter functions; the outbox of sent mails.
- SHA-256, UUIDs, `SecureRandom`, bcrypt, JWT signing and validation, and the clock are parameters. Any function of the right type stands in for them.
- Floating point is not modelled. Quotes, closes and amounts are exact reals. A `double` quote that is NaN or infinite therefore cannot occur; only the `<= 0` half of the price check is modelled.
- The iteration order of `HashMap` grouping in `PortfolioService` is a parameter: the sequence of symbol keys.
- Java's 32- and 64-bit integer overflow is not modelled, except where `Long.parseLong` and `Long.toString` bound the values that round-trip (`MinLong`..`MaxLong`).
- Logging, metrics and the `[DEBUG]` output are left out. They change no state and no result.
- Case mapping (`toUpperCase`, `toLowerCase`, `equalsIgnoreCase`) covers the ASCII letters only. Other letters are left as they are.
- `@Transactional` marks `upsertSocialStubIfNeeded` (SocialLoginService.java:297), `verifyEmail` and `exchangeCode` (EmailVerificationService.java:106 and 202) and the trade service (TradeService.java:22). The stub upsert's rollback after a refused save is modelled by `SocialLogin.SaveOrRollBack`. The others check their refusals before writing, so a refused call writes nothing, and the contracts state that. A rollback caused by a database failure after a write is not modelled. `processSocialLogin` runs outside any transaction, so there a refused save rolls back only itself and the retry can commit (`SocialLogin.SaveWithForcedRetry`).
- EmailVerification.AttachEmail: saves the user once with e-mail, verified flag and role together, where the source saves twice inside one transaction. The committed row is the same.
- Auth.RefreshAccessToken: the signed access token is a parameter, so the contract does not say that it is signed for the token's user.
- Auth.GenerateTokens: the refresh-token row's `updatedAt` timestamp is not kept, and the response's `false` flag is not part of the model.
- `UriUtils.encode` of the login code is the identity here. A UUID has no character that it would escape.
- SocialLogin.ConnectEmailAndSendVerification: uses this service's default token lifetime of 30 minutes, where `UserService` and `AuthService` default to 15. The setting `app.email.verify-token-ttl-minutes` itself is not modelled.
- SocialLogin.LoadSocialUser: whether a new social account starts verified is the parameter `socialVerified`, decided by the caller's provider check.
- Users.User.Social: `User.createSocialUser` and `User.createSocialStub` do not appear in `model/User.java`. The `Social` constructor stands in for them: it gives the new account exactly ROLE_USER and does not add it to the role's `userList`; only `AddRole` and `RemoveRole` keep both sides.
- The `User` fields `interests`, the copy constructor and the `UserDetails` wrapper are left out. No core operation reads them.
- `User` mutators such as `connectEmail`, `verifyEmail`, `connectSocial`, `updateNickname` and `updateProfileImage`, and the factories used by the services, do not appear in `model/User.java`. The model writes them as setters of exactly the column they are named after.
- TradeRepository.java:7-12 declares only `findByUserIdOrderByTradedAtDesc` and `findByUserIdAndSymbolOrderByTradedAtAsc`. The code calls three methods it does not declare, so as written it does not compile:
  - `getNetQuantity`, at TradeService.java:32 and at TradeServiceTest.java:115, 155 and 176. `Trading.Holding` models the query the code evidently intends: the bought quantity minus the sold quantity of (user, symbol) in the ledger.
  - `findByUser_IdOrderByTradedAtAsc`, at PortfolioService.java:34. The ledger that `Portfolio` reads, oldest first, models the query the code evidently intends.
  - `findByUser_IdAndSymbolOrderByTradedAtDesc`, at TradeService.java:73, in `getTradesBySymbol`. That is a plain listing and is not modelled.
- The repositories (`UserRepository`, `RoleRepository`, `RefreshTokenRepository`, `UserDeviceRepository`, `EmailVerificationTokenRepository`) are sequences of rows. A JPA lookup returns the first row that matches. `RoleRepository` is the optional ROLE_USER given to each call.
- `RefreshToken`, `RefreshTokenService`, `Role.java`, `UserDevice.java`, `LoggedOutJwtTokenCache` and `JwtTokenProvider.resolveToken` are not part of this model. What the services do with them is modelled by the repository classes, `LogoutCache` and the filters' parameters.
- Errors.Handle: the message of a `ResourceAlreadyInUseException` is the parameter `conflictMessage`, because the exception class is not part of this model. Exceptions the handler does not catch give `None`.
- The JSON codecs are parameters. Serialisation failures other than an unreadable cached entry are not modelled.
- `DeviceTypeValidator`'s refusal message prints `Set.of`, whose order is not fixed. The model fixes one order.
- The empty-batch `break` of the pool scan cannot be taken: within the scan window the store returns a non-empty range. The model proves that and leaves the branch out.
- The news and sparkline services that `HomeService` calls are given as results and as a `Market`.
- HomeRecommendationService.java:70 and :115 call `sparklineService.getSparkline(symbol)`, but `SparklineService` declares only `getSparklineOnly` (SparklineService.java:37). As written this does not compile. `HomeRecommendation.ItemAt` models the evidently intended `getSparklineOnly`: it reads `Market.sparkline`, as the pool reader and `HomeService` do.
- `HomeCacheStore.lastSuccessAt` and `hasValue` are not modelled. Nothing in the core reads them.
- Concurrency is modelled only at these points, where other processes' store commands are an explicit sequence:
  - while the quote and sparkline caches wait for a lock or fetch from the provider;
  - while a refill pass fetches the catalogue, and while the warm-up sleeps between passes;
  - between the read and the delete of a login code in `EmailVerification.ExchangeCode`. `VerifyCodes.ConsumeCode` reads and deletes with nothing in between.
- The pool reader runs with no other process acting on the store. Its `Market` is a pure function of the symbol: the writes of the sparkline and quote caches it calls are dropped. Thread interleavings within the JVM are not modelled.
- SocialLoginService.java:230 passes the `User` object to `EmailVerificationToken.create`, whose first parameter is the `Long` user id (EmailVerificationToken.java:43). As written this does not compile. The model passes the user's id.
- The `Boolean` field `isEmailVerified` (User.java:59) gets the Lombok getter `getIsEmailVerified()`, which User.java:118 itself uses. Five places call `getEmailVerified()` instead, so as written they do not compile. At each of them the model reads the verified flag:
  - SocialLoginService.java:155, the fallback to a linked account's e-mail (`SocialLogin.LoginEmail`);
  - AuthService.java:112, the EMAIL_NOT_VERIFIED login check (`Auth.AuthenticateUser`);
  - AuthService.java:267, the already-verified check of the resend (`Auth.ResendVerificationEmail`);
  - EmailVerificationService.java:238, the check of the code exchange (`EmailVerification.ExchangeCode`);
  - EmailVerificationFilter.java:54, the verified-e-mail gate (`Filters.VerifiedEmailGate`).

## Findings

| source | as written | input that shows it | evidently intended | confidence | as-written member | corrected member |
|---|---|---|---|---|---|---|
| src/main/java/com/stock/dashboard/backend/home/service/RecommendationPoolService.java:101-120 | after a batch, the cursor moves past every symbol of the batch, even those the inner loop never visited because the page filled up | pool A B C D, page size 2, start 0, A yields no item: page 0 shows B and C and offers no next offset, so D is never shown | the cursor moves past the symbols actually visited, so the next page starts at the first unvisited symbol (offset 3 here) | not executed | PoolReader.WholeBatchSkipsSymbols | PoolReader.PerSymbolSkipsNothing |

The scan description `PoolReader.Scan` is written once, for both ways of moving the cursor. `PoolReader.PerSymbolKeepsUnvisited` shows the corrected cursor on the same example. `PoolReader.AdvanceKeepsItems` proves that the page's items are the same either way; only the next offset differs. The reader's methods, from `PoolReader.GetRecommendationsFromPool` down to `PoolReader.ReadBatch`, model the cursor as written. They are proved against `PoolReader.Scan` with the whole-batch cursor. The corrected definition is `PoolReader.Scan` with the per-symbol cursor. `PoolReader.PerSymbolSkipsNothing` proves the intended property about it: the page holds exactly the items from the start up to the cursor, and a rate-limit stop leaves the cursor on the symbol to retry. `PoolReader.PageIsStretch` ties the page as written to that corrected scan.
