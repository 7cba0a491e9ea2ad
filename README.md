# Bitcoin energy aggregation layer, modelled in Dafny

The system is a GraphQL backend that prices Bitcoin data by its energy cost.
Every byte costs 4.56 energy units. The data comes from an upstream
blockchain data provider: raw blocks, address transaction pages and block
listings by day. Successful block, address and by-date fetches are cached
in a key-value store under `block:<hash>`, `address:<address>` and
`blocksByDate:<millis>`, and each day's computed total under
`totalEnergyConsumption:<millis>`. An address is cached once, as the
concatenation of all its pages; the transaction count, failed answers and a
by-date answer that is not an array are not cached. The cache is
cache-aside: read first, fetch on a miss, write back, and never expire.

The model covers the aggregation core: the two cache helpers, the three
fetch operations (block transactions, address transactions and blocks by
date), the block-energy sum, and the bodies of the per-day and per-address
resolvers.

The model has two layers.

* `Pipeline` is a set of pure state transformers. Each one takes the
  upstream `Provider` and a `State` and yields a `Step`: its result and the
  state it leaves. A `State` is the cache contents plus the log of upstream
  requests issued, oldest first. Each transformer follows the branches of
  the source: a hit, a miss, each failure and each error wrapper.
* `Service.Aggregator` is the same code in its imperative form. It is a
  class whose `cache` and `requests` fields its methods update in place,
  and it has the source's loops. The three fetch methods, the block-energy
  task and sum, `ComputeDay`, `DayTotalTask` and the two resolvers each have
  a postcondition saying that their result, new cache and new request log
  are exactly those of their `Pipeline` counterpart. The cache helpers, the
  upstream calls and the page loop `FetchPages` are stated directly against
  the map, the provider and the page plan. The fetch methods, the
  block-energy tasks and the two resolvers also require and keep the class
  invariant `Valid()`: every key namespace holds the shape its writers
  write. The raw helpers (`GetFromCache`, `SetToCache`, `GetRawBlock`,
  `GetRawAddr`, `GetBlocksForDate`) and `FetchPages` do not speak of
  `Valid()`, and `SetToCache` can break it.

`Properties` proves what the source promises about these transformers:
- hits issue no request and write nothing;
- misses issue exactly the stated requests and cache exactly the stated
  entry;
- failures are wrapped and write nothing;
- a second call is a hit;
- address pages are requested in order, every one of them, and a failed
  page contributes nothing;
- per-day totals are cached one per day, including 0 for a failed day, and
  are answered from the cache;
- the energy sum gives each block its price on the cache the sum started
  from, duplicates included, whatever the cache holds
  (`Properties.CostsArePrices`); it agrees with pricing every block afresh
  only when every cached block entry prices as upstream does
  (`Properties.TotalMatchesUpstream`).

Some of these lemmas also show an interaction the source leaves open. Two
writers share the `block:<hash>` namespace with different shapes: the
per-transaction path stores a mapped block without `size`, and the energy
sum stores the raw payload without `transactions`. A block cached by one
path is priced 0 by the other, or makes it fail
(`Properties.PerTransactionPathZeroesBlock`,
`Properties.MappedBlockAddsZeroToTotal`,
`Properties.RawBlockBreaksTransactions`). The model keeps this behaviour as
the code has it.

The model follows the code's behaviour, including its less obvious cases.
For example, the energy sum prices a block by the `size` field of whatever
is cached under `block:<hash>`, and a hit in the per-day resolver is any
present entry, 0 included, while the fetch operations treat a cached 0 as
a miss.

Files:
- `results.dfy`: `Option`, `Result` and the error causes.
- `energy.dfy`: byte pricing and the sums.
- `jsarray.dfy`: `Array.prototype.slice`.
- `keys.dfy`: key rendering and namespace disjointness.
- `upstream.dfy`: the provider's payloads.
- `cache.dfy`: cached values, JavaScript truthiness and the shape invariant.
- `pipeline.dfy`: the state transformers.
- `service.dfy`: the class.
- `properties.dfy`: the lemmas.

## Model

| member | source | states |
|---|---|---|
| Energy.EnergyCost | src/schema.ts:76-77 | the cost is size × 4.56 exactly (100·e = 456·size) and is non-negative for non-negative sizes |
| Energy.EnergyCostAdditive | src/schema.ts:77 | pricing a combined size is the sum of the prices |
| Energy.MapTxs | src/schema.ts:101-105 | one priced transaction per raw one, same hash, cost = price of its size, in order |
| Energy.MappedEnergy | src/schema.ts:160-164 | summing the priced transactions equals pricing their total byte size |
| Energy.SumEnergyAppend | src/schema.ts:387-390 | the energy sum over a concatenation is the sum of the parts |
| Energy.SumEnergy | src/schema.ts:387-390 | the left fold `sum + tx.energyCost` from 0; no contract of its own, its behaviour is stated by `Energy.MappedEnergy`, `Energy.SumEnergyAppend` and `Properties.PagesEnergy` |
| Energy.SumReals | src/schema.ts:291-294 | the left fold `total + blockEnergyCost` from 0; no contract of its own, it is the sum `Properties.TotalIsSumOfPrices` and `Properties.TotalMatchesUpstream` speak of |
| Energy.TransactionOf250Bytes | src/schema.ts:101-105 | a 250-byte transaction is priced 1140 |
| JsArray.Slice | src/schema.ts:90 | `slice(start, end)`: either bound counts back from the end when negative and is then clamped to the list; the length is that clamped window and element k is the element k places after its start; for a non-negative start element k is `s[start + k]`, and a start past the end gives nothing |
| JsArray.SliceExample | src/schema.ts:117 | offset 1, limit 2 over five elements yields the second and third |
| JsArray.SliceFromEnd | src/schema.ts:90 | negative bounds count from the end: `slice(-2, 48)` over three elements is the last two, `slice(0, -1)` drops the last |
| CacheKeys.NatToDecimal | src/schema.ts:198 | the digits of `${millis}` (also line 337): at least one character, every one a decimal digit; distinct values render distinctly by `CacheKeys.NatToDecimalInjective` |
| CacheKeys.IntToDecimal | src/schema.ts:198 | the decimal rendering of epoch millis, with a leading '-' exactly when negative |
| CacheKeys.NatToDecimalInjective | src/schema.ts:198 | distinct naturals render to distinct decimal strings |
| CacheKeys.IntToDecimalInjective | src/schema.ts:337 | distinct integers render to distinct decimal strings |
| CacheKeys.BlockKey | src/schema.ts:85 | `block:<hash>` has at least six characters, 'b' first and ':' at index 5, which is what tells it from the other namespaces |
| CacheKeys.AddressKey | src/schema.ts:127 | `address:<address>` starts with 'a' |
| CacheKeys.DateKey | src/schema.ts:198 | `blocksByDate:<millis>` is told apart from block keys at index 5 |
| CacheKeys.TotalKey | src/schema.ts:337 | `totalEnergyConsumption:<millis>` starts with 't' |
| CacheKeys.NamespacesDisjoint | src/schema.ts:85 | no key of one namespace equals a key of another |
| CacheKeys.BlockKeyInjective | src/schema.ts:245 | different hashes have different block keys |
| CacheKeys.AddressKeyInjective | src/schema.ts:127 | different addresses have different address keys |
| CacheKeys.DateKeyInjective | src/schema.ts:198 | different days have different listing keys |
| CacheKeys.TotalKeyInjective | src/schema.ts:337 | different days have different total keys |
| Cache.BlockWriteShaped | src/schema.ts:115 | writing a mapped block or raw payload under a block key keeps every namespace in shape |
| Cache.AddressWriteShaped | src/schema.ts:183-186 | writing an address entry keeps every namespace in shape |
| Cache.DateWriteShaped | src/schema.ts:224 | writing a block listing keeps every namespace in shape |
| Cache.TotalWriteShaped | src/schema.ts:357 | writing a number under a total key keeps every namespace in shape |
| Cache.Truthy | src/schema.ts:249 | JavaScript truthiness of a parsed entry (`!blockData` here, `if (block)`, `if (cachedData)` at lines 89, 131, 202): every object and array is truthy, only the number 0 is not; no contract of its own, used by `Pipeline.Hit` and stated by `Cache.EntriesAreTruthy` and `Properties.DayCachedTotalIsHit` |
| Cache.TransactionsField | src/schema.ts:90 | reading `.transactions` (also line 133): present on a mapped block and an address entry only; no contract of its own, its effect is stated by `Properties.BlockHitServesCachedWindow` and `Properties.RawBlockBreaksTransactions` |
| Cache.SizeField | src/schema.ts:274 | reading `.size`: present only on a raw block payload; no contract of its own, its effect is stated by `Properties.MappedBlockContributesZero` and `Properties.CostsArePrices` |
| Cache.EntriesAreTruthy | src/schema.ts:89 | in a well-shaped cache, the truthiness tests of the block, address and date paths are presence tests |
| Pipeline.Issue | src/schema.ts:96-98 | one upstream GET (also lines 140-142, 156-158, 207-209, 251-253): the request is appended to the log and the cache is unchanged; no contract of its own, its effect is stated by `Properties.BlockMissStoresMappedBlock`, `AddressMissFetchesEveryPage`, `DateMiss` and `BlockEnergyMiss` |
| Pipeline.Write | src/schema.ts:48-51 | `setToCache` in the pure layer: one key overwritten, log unchanged; no contract of its own, its effect is stated by `Properties.BlockMissStoresMappedBlock`, `DayTotalIsCached` and `Cache.BlockWriteShaped` and its siblings |
| Pipeline.PageRequests | src/schema.ts:151-158 | the page requests of the address fetch; stated by `Properties.PagePlan`: n requests, page i at offset i × 50 with limit 50 |
| Pipeline.DayMillis | src/schema.ts:335-336 | `today - i * 86400000`; stated by `Properties.PerDayEntry` and `ThreeDays` |
| Pipeline.DayTask | src/schema.ts:334-367 | the pool closure for day i: the day task for that day's millis; stated by `Properties.PerDayEntry`, `DayTasksRecordTheirDays` and `DayTasksKeepOtherDays` |
| Pipeline.UpstreamBlockEnergy | src/schema.ts:251-285 | what a block contributes when fetched afresh; stated by `Properties.UpstreamBlockEnergyCases`: 0 on failure or without a size, otherwise its priced size |
| Pipeline.Hit | src/schema.ts:89 | the `if (cached)` test of every fetch (also lines 131, 202, 249): present and truthy; no contract of its own, stated by `Cache.EntriesAreTruthy` |
| Pipeline.BlockTransactions | src/schema.ts:80-123 | the block fetch: hit, miss, failure and missing field, branch for branch; its behaviour is stated by `Properties.BlockHitServesCachedWindow`, `BlockMissStoresMappedBlock`, `BlockFailureWritesNothing`, `BlockWindowsShareOneList` and `RawBlockBreaksTransactions` |
| Pipeline.PageTxs | src/schema.ts:154-173 | one page task: the page's priced transactions, or `[]` when its request fails; stated by `Properties.PagesInOrder` and `FailedPageContributesNothing` |
| Pipeline.Flatten | src/schema.ts:179-180 | `results.flat()`; stated by `Properties.FlattenAppend`, `FlattenSplit` and `PageInPlace` |
| Pipeline.AddressTransactions | src/schema.ts:126-194 | the address fetch; its behaviour is stated by `Properties.AddressMissFetchesEveryPage`, `AddressCountFailure`, `AddressHitIgnoresTimestamp`, `AddressSecondCallHits` and `MiddlePageFails` |
| Pipeline.BlocksByDate | src/schema.ts:197-232 | the by-date fetch; its behaviour is stated by `Properties.DateHitServesCached`, `DateMiss`, `DateSecondCallHits` and `DateFailureWritesNothing` |
| Pipeline.BlockEnergy | src/schema.ts:242-286 | one block task of the energy sum; its behaviour is stated by `Properties.BlockEnergyHit`, `BlockEnergyMiss`, `MappedBlockContributesZero` and `BlockEnergyKeepsPrices` |
| Pipeline.TotalEnergyConsumption | src/schema.ts:235-295 | the energy sum; its behaviour is stated by `Properties.TotalIsSumOfPrices`, `BlockCostsAllHits` and `TotalMatchesUpstream` |
| Pipeline.DayCompute | src/schema.ts:346-366 | the `try`/`catch` body of a day task; its behaviour is stated by `Properties.DayErrorCachesZero`, `DayWithoutBlocksIsZero` and `DayWithBlocksIsTheirTotal` |
| Pipeline.DayTotal | src/schema.ts:334-367 | one day task; its behaviour is stated by `Properties.DayCachedTotalIsHit`, `DayTotalIsCached`, `DayTotalIsNumber` and `Pipeline.DayTotalKeepsOtherDays` |
| Pipeline.PerDay | src/schema.ts:318-374 | the per-day resolver's tasks for `days` days; its behaviour is stated by `Properties.PerDayEntry`, `PerDayCachesEveryDay`, `PerDayAnswersAreNumbers`, `PerDayAllCached`, `ThreeDays` and `NoDaysNoTasks` |
| Pipeline.AddressTotal | src/schema.ts:383-399 | the per-address resolver; its behaviour is stated by `Properties.AddressTotalSumsFetched` and `AddressTotalOfFreshFetch` |
| Pipeline.PageCount | src/schema.ts:143-145 | `Math.ceil(n_tx / 50)`: the fewest pages of 50 that cover n_tx, and 0 for n_tx <= 0 |
| Pipeline.Pages | src/schema.ts:151-179 | one result per page, as many as pages planned |
| Pipeline.SizeEnergy | src/schema.ts:274-277 | `if (!size) return 0` agrees with pricing a missing size as 0 bytes |
| Pipeline.BlockCosts | src/schema.ts:240-288 | one cost per block; cost i is block i's price, as `Properties.CostsArePrices` states |
| Pipeline.BlocksByDateKeepsTotals | src/schema.ts:197-232 | fetching a day's listing touches no per-day total |
| Pipeline.BlockCostsKeepTotals | src/schema.ts:240-288 | the block tasks touch no per-day total |
| Pipeline.DayTotalKeepsOtherDays | src/schema.ts:334-367 | a day task writes no other day's total |
| Pipeline.DayTotalKeepsNumbers | src/schema.ts:357-364 | a day task writes only numbers under total keys |
| Pipeline.RunTasks | src/schema.ts:372 | `Promise.all` over n tasks run in index order: one answer per task |
| Service.Aggregator.GetFromCache | src/schema.ts:37-46 | returns the parsed entry exactly when the key is present |
| Service.Aggregator.SetToCache | src/schema.ts:48-51 | overwrites one key and nothing else |
| Service.Aggregator.GetRawBlock | src/schema.ts:96-98 | answers as the provider does and logs one `rawblock` request |
| Service.Aggregator.GetRawAddr | src/schema.ts:156-158 | answers as the provider does and logs one `rawaddr` request |
| Service.Aggregator.GetBlocksForDate | src/schema.ts:207-209 | answers as the provider does and logs one `blocks` request |
| Service.Aggregator.FetchBlockTransactionsWithEnergy | src/schema.ts:80-123 | result, cache and request log are those of `Pipeline.BlockTransactions`, and the cache stays well shaped |
| Service.Aggregator.FetchPages | src/schema.ts:147-179 | the page results are `Pipeline.Pages` and the requests are one per page at offsets 0, 50, 100, … |
| Service.Aggregator.FetchAllTransactionsForAddress | src/schema.ts:126-194 | result, cache and request log are those of `Pipeline.AddressTransactions`, and the cache stays well shaped |
| Service.Aggregator.FetchBlockDataByDate | src/schema.ts:197-232 | result, cache and request log are those of `Pipeline.BlocksByDate`, and the cache stays well shaped |
| Service.Aggregator.BlockEnergyTask | src/schema.ts:242-286 | cost, cache and log are those of `Pipeline.BlockEnergy`, and the cache stays well shaped |
| Service.Aggregator.CalculateTotalEnergyConsumption | src/schema.ts:235-295 | total, cache and log are those of `Pipeline.TotalEnergyConsumption`, and the cache stays well shaped |
| Service.Aggregator.ComputeDay | src/schema.ts:346-366 | a day's total (0 on a failed or empty day), cache and log are those of `Pipeline.DayCompute` |
| Service.Aggregator.DayTotalTask | src/schema.ts:334-367 | answer, cache and log are those of `Pipeline.DayTotal`, and the cache stays well shaped |
| Service.Aggregator.TotalEnergyConsumptionPerDay | src/schema.ts:318-374 | answers, cache and log are those of `Pipeline.PerDay`, the cache stays well shaped, and every answer is a number, as the `[Float!]!` type expects |
| Service.Aggregator.TotalEnergyConsumptionByAddress | src/schema.ts:378-400 | result, cache and log are those of `Pipeline.AddressTotal` |
| Properties.BlockHitServesCachedWindow | src/schema.ts:87-92 | a hit issues nothing, writes nothing and serves exactly the `[offset, offset + limit)` window of the cached list |
| Properties.PaginationExample | src/schema.ts:88-91 | a hit with offset 1, limit 2 over five cached transactions serves the second and third |
| Properties.BlockMissStoresMappedBlock | src/schema.ts:94-118 | a miss issues one `rawblock` request, caches the mapped block (height as index, every transaction priced) and serves its window |
| Properties.BlockFailureWritesNothing | src/schema.ts:120-122 | a failed fetch is wrapped as "Failed to fetch block data" and writes nothing |
| Properties.BlockWindowsShareOneList | src/schema.ts:88-118 | after a success, any later window for the block is served from the very list the first call sliced, with no request |
| Properties.BlockTransactionsIdempotent | src/schema.ts:88-92 | the same call twice gives the same result, and the second issues nothing |
| Properties.OneTransactionBlockEndToEnd | src/schema.ts:305-315 | a block with one 250-byte transaction, default window, empty cache: `[{hash, energyCost: 1140}]` |
| Properties.PagePlan | src/schema.ts:151-158 | exactly n page requests, page i at offset i × 50 with limit 50, offsets strictly increasing |
| Properties.PagesInOrder | src/schema.ts:151-179 | page result i is page i's priced transactions, or none if it failed |
| Properties.FlattenAppend | src/schema.ts:180 | `flat()` over a concatenation is the concatenation of the flats |
| Properties.PagesPrefix | src/schema.ts:151-179 | the first i page results are those of an i-page plan |
| Properties.FlattenSplit | src/schema.ts:180 | flattening around element i: what precedes it, it, and what follows it |
| Properties.PageInPlace | src/schema.ts:179-180 | in the concatenation, page i's transactions sit right after those of pages 0 to i - 1 |
| Properties.FailedPageContributesNothing | src/schema.ts:168-173 | a failed page adds nothing, and the pages after it still do |
| Properties.MiddlePageFails | src/schema.ts:143-188 | 101 to 150 transactions over three pages with the middle one failing: the fetch succeeds with pages 1 and 3 |
| Properties.AddressMissFetchesEveryPage | src/schema.ts:136-188 | a miss logs the count request and then one request per page, and caches the in-order concatenation with the timestamp |
| Properties.AddressCountFailure | src/schema.ts:189-193 | a failed count request is wrapped as "Failed to fetch transactions for address" and writes nothing |
| Properties.AddressHitIgnoresTimestamp | src/schema.ts:130-134 | a cached entry is served as is whatever its timestamp: entries never expire |
| Properties.AddressSecondCallHits | src/schema.ts:130-134 | after a success, any later call is served from the cache with no request |
| Properties.DateHitServesCached | src/schema.ts:201-204 | a cached listing is served as is, with no request |
| Properties.DateMiss | src/schema.ts:206-231 | a miss issues one request; a failure or a non-array fails and writes nothing; an array is cached and served |
| Properties.DateSecondCallHits | src/schema.ts:201-225 | after a success, the next call is a hit |
| Properties.DateFailureWritesNothing | src/schema.ts:213-231 | a failed listing leaves the cache as it was |
| Properties.BlockEnergyMiss | src/schema.ts:249-258 | a miss prices the block by its size (0 without one) and caches the raw payload; a failure contributes 0 and writes nothing |
| Properties.BlockEnergyHit | src/schema.ts:248-279 | any truthy entry, including a raw payload an earlier sum cached (line 257), is priced by its `size`, with no request and no write |
| Properties.BlockCostsAllHits | src/schema.ts:240-294 | when every block is cached, the sum issues no request and writes nothing |
| Properties.MappedBlockContributesZero | src/schema.ts:274-276 | a block cached as a mapped block has no `size` and contributes 0 with no request |
| Properties.PerTransactionPathZeroesBlock | src/schema.ts:115 | after the per-transaction path has cached a block, the energy sum counts that block as 0 |
| Properties.RawBlockBreaksTransactions | src/schema.ts:257 | after the energy sum has cached a raw payload, the per-transaction path finds no `transactions` and fails |
| Properties.UpstreamCosts | src/schema.ts:240-288 | the fresh-fetch reference: one cost per block |
| Properties.UpstreamCostsInOrder | src/schema.ts:241 | reference cost i is block i's fresh-fetch price |
| Properties.UpstreamBlockEnergyCases | src/schema.ts:274-285 | a fresh block contributes 0 when its fetch fails or it has no size, and its priced size otherwise |
| Properties.Prices | src/schema.ts:240-288 | the reference: each block's price on one fixed cache (a truthy entry's `size`, else the fresh fetch), one per block |
| Properties.PricesInOrder | src/schema.ts:241 | reference price i is block i's price on that cache |
| Properties.BlockEnergyKeepsPrices | src/schema.ts:248-279 | a block task answers its block's price and changes no block's price: it writes only a key that missed, with a payload that prices as the fetch did |
| Properties.BlockCostsKeepPrices | src/schema.ts:240-288 | the block tasks together change no block's price |
| Properties.CostsArePrices | src/schema.ts:240-288 | on any cache, cost i is block i's price on the cache the sum started from, duplicates included |
| Properties.TotalIsSumOfPrices | src/schema.ts:290-294 | on any cache, the total is the sum of those prices |
| Properties.MappedBlockAddsZeroToTotal | src/schema.ts:274-276 | a block whose entry the per-transaction path wrote contributes 0 to the total, whatever its upstream size |
| Properties.PricesMatchUpstream | src/schema.ts:249-258 | when every cached block entry prices as upstream does, the prices are the fresh-fetch ones |
| Properties.CostsMatchUpstream | src/schema.ts:240-288 | under that condition every block (duplicates included) costs its fresh-fetch price, in order |
| Properties.TotalMatchesUpstream | src/schema.ts:290-294 | the total is then the sum of the fresh-fetch prices |
| Properties.DayCachedTotalIsHit | src/schema.ts:340-344 | a cached total, 0 included, is answered as stored, with no request |
| Properties.DayErrorCachesZero | src/schema.ts:359-366 | a day whose listing fails answers 0 and caches 0 |
| Properties.DayWithoutBlocksIsZero | src/schema.ts:348-358 | a day with no blocks answers 0 and caches 0 |
| Properties.DayWithBlocksIsTheirTotal | src/schema.ts:348-358 | a day with blocks answers their energy total and caches it |
| Properties.DayTotalIsCached | src/schema.ts:357-365 | after a day task its key holds exactly what it answered |
| Properties.DayTotalIsNumber | src/schema.ts:340-356 | on a cache whose totals are numbers, a day task answers a number |
| Properties.RunTasksPrefix | src/schema.ts:332-372 | later tasks do not change the earlier answers |
| Properties.RunTasksEntry | src/schema.ts:372 | answer i is task i's answer on the state tasks 0 to i - 1 left |
| Properties.PerDayEntry | src/schema.ts:332-373 | entry i is the day task for i days before today |
| Properties.RunTasksKeep | src/schema.ts:332-372 | an invariant every task keeps is kept by the whole run |
| Properties.RunTasksRecord | src/schema.ts:332-372 | tasks that record their answer under their own key leave every answer recorded |
| Properties.DayTasksRecordTheirDays | src/schema.ts:357-365 | each day task records its answer under its day's key |
| Properties.DayTasksKeepOtherDays | src/schema.ts:334-367 | no day task touches another day's key |
| Properties.PerDayCachesEveryDay | src/schema.ts:332-373 | after the resolver, every requested day's total is cached, holding the answer given for that day |
| Properties.PerDayKeepsNumbers | src/schema.ts:357-364 | the resolver keeps every cached total a number |
| Properties.PerDayAnswersAreNumbers | src/schema.ts:319 | on a well-kept cache every answer is a number, as the `[Float!]!` type expects |
| Properties.PerDayAllCachedKeepsState | src/schema.ts:340-344 | when every requested day is cached, no request is issued and nothing is written |
| Properties.PerDayAllCached | src/schema.ts:340-344 | ... and the answers are the cached totals, in day order |
| Properties.ThreeDays | src/schema.ts:332-337 | three days yield three answers: today, yesterday and the day before |
| Properties.NoDaysNoTasks | src/schema.ts:332 | `days <= 0` runs no task |
| Properties.BlocksByDateShaped | src/schema.ts:224 | fetching a listing keeps the cache well shaped |
| Properties.BlockEnergyShaped | src/schema.ts:257 | a block task keeps the cache well shaped |
| Properties.BlockCostsShaped | src/schema.ts:240-288 | the block tasks keep the cache well shaped |
| Properties.DayComputeShaped | src/schema.ts:346-366 | computing a day keeps the cache well shaped |
| Properties.DayTotalShaped | src/schema.ts:334-367 | a day task keeps the cache well shaped |
| Properties.AddressTotalSumsFetched | src/schema.ts:383-399 | the address total sums the fetched energy costs, and wraps a failed fetch as "Failed to calculate total energy consumption for address" |
| Properties.PagesEnergy | src/schema.ts:160-164 | the energy of the concatenated pages is the price of their total byte size |
| Properties.AddressTotalOfFreshFetch | src/schema.ts:383-393 | on a miss, the address total is the price of every successful page's bytes |

## Left out

- The Redis client and its connection handling (src/schema.ts:14-34) are not modelled. The store is a map, and `getFromCache`'s test on the raw string is a presence test, because every stored JSON text is non-empty.
- JSON serialisation is left out. Entries are stored and read back as typed values (`CachedValue`), which matches the shapes the source writes.
- HTTP, URLs and the response envelopes are left out. Each upstream endpoint is a total function (`Provider`) that yields a payload or a failure. A repeated request therefore gets the identical answer, and a failure is permanent: transient failures and changing upstream data are not modelled. The model keeps only the payload fields the core reads.
- Concurrency is left out. Each `p-limit` pool (src/schema.ts:147, 238, 322) runs one task at a time, in index order. Interleavings and races between tasks sharing the cache are not modelled. The address pool already has concurrency 1.
- The clock is a parameter. Today's UTC midnight is `today`, and `Date.now()` is `now`.
- Energy is a `real`, not an IEEE double, so rounding in `size * 4.56` and in the sums is not modelled.
- GraphQL is left out: type registration, argument defaults (limit 50, offset 0), the `hello` field, `buildSchema`, and the coercion of answers to `Float`. The `energyConsumptionForBlock` resolver only forwards to the block fetch. `src/fn_graphql.ts` is not part of this model.
- Logging (`console.log`, `console.error`) is not modelled.
- Reading a property that does not exist on a cached value becomes `Err(MissingField(...))`. The source instead throws a TypeError or returns `undefined`. One such case does occur on a well-shaped cache: a raw payload that the energy sum cached under `block:<hash>` has no `transactions`, so a later block fetch fails (`Properties.RawBlockBreaksTransactions`). In the source that TypeError is thrown at src/schema.ts:90, outside the `try`, so it reaches the caller without the "Failed to fetch block data" wrapper; the model likewise returns it unwrapped.
- The "blocks && blocks.length > 0" test on a cached listing that is not an array is modelled as a failed listing. Both give the per-day answer 0.
- `n_tx` is an integer. A missing or non-numeric count, which makes the source plan no pages, is not modelled.
- Keys render epoch millis with plain decimal digits. JavaScript's exponent notation for numbers of 10^21 and more is not modelled.
- Service.Aggregator.TotalEnergyConsumptionPerDay: answers the cached values as stored (`Cache.CachedValue`) rather than as floats. Its postcondition states that they are all numbers (`Properties.PerDayAnswersAreNumbers`).
- The log line of the by-date fetch (src/schema.ts:217-221) renders `new Date(dateMillis).toISOString()`, which throws a RangeError inside the `try` when the absolute value of the millis exceeds 8.64·10^15. The source then fails with the by-date wrapper and writes nothing; `Pipeline.BlocksByDate` caches the listing and succeeds. Only a per-day request with `days` above about 10^8 reaches such a date. The failure is left out with the logging.
- `allTransactions.push(...results.flat())` (src/schema.ts:180) passes every transaction as a call argument. The JavaScript engine throws a RangeError beyond its argument limit, in the order of 10^5 transactions, and the `try` at src/schema.ts:136 turns it into "Failed to fetch transactions for address" with nothing cached. That engine limit is not modelled: `Pipeline.Flatten` always succeeds.
