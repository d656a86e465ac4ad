# steamtools backend core in Dafny

This project models the backend core of steamtools. steamtools is a game-price aggregator that lists games
sold on Steam, the Epic Games Store and GOG, keeps the prices in a MySQL catalogue and answers
the front end's queries through tRPC routers.

The model covers the following parts:

- **Platform service** (`PlatformService`). This covers the in-memory TTL cache (get with expiry eviction,
  set, pattern invalidation and clear), `fetchWithRetry` with its exponential back-off, and the three
  normalisers. The normalisers turn Epic, GOG and Steam payloads into one `NormalizedGame`.
  `AdapterCache` proves that the untyped shared cache only ever returns the kind of value its key
  prefix promises, so the unchecked cast in `getCache<T>` is safe.
- **Store adapters** (`SteamAdapter`, `EpicAdapter`, `GogAdapter`). These cover search, details,
  featured lists, GOG deals and the Steam price. Each one works as cache hit or fetch, then shaping,
  then cache store.
- **First-generation sync** (`SyncEngine`, from `services/sync.ts`). A `Catalog` class holds the
  `games`, `game_platforms` and `sync_logs` tables. It models find-or-create by name, the offer upsert
  and the platform refresh. It also models the per-record loop with its counters and a record that
  throws half way, plus the sync-log life cycle and `getSyncStatus`. The central properties are
  proved by lemmas:
  - offers stay unique per game and store;
  - after a run, every record is stored;
  - a repeated run adds no rows.
- **Second-generation services** (`PlatformApiBase`, `EpicGamesService`, `PlatformManager`). This
  covers the `shouldSync` throttle over `platform_sync_logs`, `logSync` and per-platform
  availability. It also covers the Epic service's transform, merge and upsert and its
  sync with the error-tolerance status, plus the manager's registry, fan-out sync, search,
  details and availability.
- **Games router** (`GamesRouter`). This covers `getAll`, `searchAll` (database page, offers, filters,
  external fallback), `getDetails`, `getPlatformAvailability` and `searchExternalPlatforms`.
- **Advanced router**. `SearchShaping` covers the paging and the grouping of joined rows into per-game
  summaries with lowest and highest price. `PriceComparison` covers the comparison cache, cheapest
  option, savings, best deal and the where-to-buy recommendations. `Trending` covers the
  popular-search counter, the trending list and autocomplete.

Database query results, upstream HTTP answers, thrown faults and the clock are inputs to the model.
Each is a sequence, a function from attempt number to outcome, or a `now` parameter. Money is kept
exactly, in hundredths (`Money`). The schema's decimal(10,2) columns are read this way.

## Model

| member | source | states |
|---|---|---|
| PlatformService.Lookup | backend/src/services/platform.ts:7-17 | a key hits exactly when it is present and `now` is not past its expiry, and a hit returns the stored data |
| PlatformService.Evict | backend/src/services/platform.ts:11-12 | an expired entry read at `now` is deleted; every other entry survives unchanged |
| PlatformService.Store | backend/src/services/platform.ts:19-24 | the key is added with expiry `now + ttl`, and all other keys keep their entries |
| PlatformService.AfterAside | backend/src/services/platform.ts:7-24 | the cache after one read-then-fill step: unchanged on a live hit; otherwise the expired entry is gone and a fetched value is stored with expiry `now + ttl`, or the key stays absent. Every other key keeps its entry |
| PlatformService.Without | backend/src/services/platform.ts:26-33 | exactly the keys the pattern does not match remain, unchanged |
| PlatformService.TtlCache.constructor | backend/src/services/platform.ts:3 | the cache starts empty |
| PlatformService.TtlCache.Get | backend/src/services/platform.ts:7-17 | returns `Lookup` on the old entries and leaves the entries evicted of the expired key |
| PlatformService.TtlCache.Set | backend/src/services/platform.ts:19-24 | the new entries are `Store` of the old ones |
| PlatformService.TtlCache.Invalidate | backend/src/services/platform.ts:26-33 | the new entries are the old ones without matching keys |
| PlatformService.TtlCache.Clear | backend/src/services/platform.ts:35-37 | the cache becomes empty |
| PlatformService.StoreThenLookup | backend/src/services/platform.ts:7-24 | a stored value is read back until its TTL passes, and after that it misses and is evicted |
| PlatformService.OtherKeysUnaffected | backend/src/services/platform.ts:7-24 | storing or evicting one key never changes what another key reads |
| PlatformService.AttemptError | backend/src/services/platform.ts:59-65 | an HTTP failure's error message starts with "HTTP " |
| PlatformService.RetryOutcome | backend/src/services/platform.ts:48-74 | a body comes from some attempt that delivered, and a failure means no attempt delivered |
| PlatformService.FetchWithRetry | backend/src/services/platform.ts:40-75 | it makes at most `maxRetries` attempts and stops at the first delivery. All earlier attempts failed. On failure the last error is kept. The waits are `base * 2^k`, one fewer than the attempts |
| PlatformService.FindImage | backend/src/services/platform.ts:182-185 | finds the first key image of the type, or reports that none has it |
| PlatformService.UrlAt | backend/src/services/platform.ts:182-185 | the url of the found image, or nothing |
| PlatformService.EpicCoverImage | backend/src/services/platform.ts:182-185 | the cover is a non-empty url of one of the key images: the first Thumbnail's url when truthy, else the first DieselGameBox's url when truthy, else the first image's url when non-empty; absent when there are no key images or none of the three is truthy |
| PlatformService.QuotientBrackets | backend/src/services/platform.ts:199-201 | integer division brackets the real quotient, which is how `Math.round` is computed exactly |
| PlatformService.RoundedPercent | backend/src/services/platform.ts:199-201 | `Math.round(a/o*100)` equals the integer `(200a + o) div 2o` |
| PlatformService.PercentBounds | backend/src/services/platform.ts:199-201 | a discount no larger than the original gives a percentage in 0..100 |
| PlatformService.EpicDiscountPercent | backend/src/services/platform.ts:197-201 | the discount is the rounded percentage saved, and lies in 0..100 when the discounted price does not exceed the original |
| PlatformService.NormalizeEpicGame | backend/src/services/platform.ts:181-212 | name and description fallback. Prices are present iff upstream gives a non-zero amount. The discount is 0 unless both prices exist. The currency is the upstream code when non-empty, else USD. The url is present iff there is a product slug, and cover and imageUrl agree |
| PlatformService.NormalizeGogGame | backend/src/services/platform.ts:214-241 | description fallback. The cover is the logo, else the box art, else absent. The platform id parses back to the numeric GOG id. Prices are present iff non-zero, the discount is taken as given or 0, the currency is the upstream one or USD, and the url is present iff there is a slug |
| PlatformService.NormalizeSteamGame | backend/src/services/platform.ts:243-264 | no price, discount 0 and no cover. The store url and the CDN header image are built from the app id |
| AdapterCache.DisciplineKept | backend/src/services/platform.ts:7-37 | every cache operation keeps each key mapped to a value of the kind its prefix names, when stores respect it |
| AdapterCache.HitFits | backend/src/services/platform.ts:7-17 | a cache hit has the kind its key promises, so the `as T` cast in `getCache` is sound |
| SteamAdapter.FilterByName | backend/src/services/steam.ts:34-41 | keeps exactly the apps whose lower-cased name contains the lower-cased query |
| SteamAdapter.ToSteamApps | backend/src/services/steam.ts:43-46 | one game per app, carrying the app id as a decimal string and the name |
| SteamAdapter.ToSteamAppsMembers | backend/src/services/steam.ts:43-46 | every converted game comes from an app, and every app is converted |
| SteamAdapter.SearchResultOf | backend/src/services/steam.ts:34-46 | total equals the number of games. With no query every app of the list is converted, in order. With a query exactly the matching apps are listed |
| SteamAdapter.SearchSteamGames | backend/src/services/steam.ts:16-55 | the result is `SearchAnswer` of the old cache: a fresh hit as stored, else the shaped app list of a delivered fetch, else an empty result. The new cache is `SearchCache` of the old one: unchanged on a hit, the answer stored for a day after a fetch, the expired entry dropped after a failure. Only the search key is written |
| SteamAdapter.GetSteamGameDetails | backend/src/services/steam.ts:57-122 | the details are `DetailsAnswer` of the old cache: a hit as is, else the fetched details. The new cache is `DetailsCache` of the old one, which stores fetched details only when present |
| SteamAdapter.GetFeaturedSteamGames | backend/src/services/steam.ts:124-150 | a hit is returned as stored and the cache is unchanged. On a miss the result is the first twenty games of the unfiltered search, read from the cache as it was. The new cache is `FeaturedCache`: the unfiltered search's own cache step, then the list under the featured key |
| SteamAdapter.FeaturedCacheFrame | backend/src/services/steam.ts:124-150 | a featured lookup leaves every key other than the featured key and the unfiltered search key as it was |
| SteamAdapter.SteamPriceOf | backend/src/services/steam.ts:161-168 | a price exists iff the details carry price data, and its fields come from that data |
| SteamAdapter.GetSteamPrice | backend/src/services/steam.ts:152-176 | the details read are `DetailsAnswer` of the old cache, cached or fetched, the new cache is `DetailsCache` of the old one, and the price is `SteamPriceOf` of the details |
| EpicAdapter.SearchRequest | backend/src/services/epic.ts:104-140 | defaults: count 50 (or as asked), offset 0, relevancy, DESC, category "games", and the query as keywords |
| EpicAdapter.SearchResultOf | backend/src/services/epic.ts:146-155 | hasMore iff at least `count` games came back. Total is the paging total when non-zero, else the number of games |
| EpicAdapter.SearchEpicGames | backend/src/services/epic.ts:99-162 | the result is `SearchAnswer` of the old cache: a hit unfetched, else the shaped answer to `SearchRequest`, else an empty result with hasMore false. The new cache is `SearchCache` of the old one: unchanged on a hit, games and total stored for eight hours after a fetch, the expired entry dropped after a failure. Only the search key is written |
| EpicAdapter.FirstElement | backend/src/services/epic.ts:194-201 | the first search element exists iff the list is non-empty |
| EpicAdapter.GetEpicGameDetails | backend/src/services/epic.ts:164-206 | the game is `DetailsAnswer` of the old cache: a hit as is, else the first element fetched. The new cache is `DetailsCache` of the old one, which stores the element only when there is one |
| EpicAdapter.GetFeaturedEpicGames | backend/src/services/epic.ts:208-227 | a hit is returned as stored and the cache is unchanged. On a miss the games are those of the search under the featured parameters, on the old cache. The new cache is `FeaturedCache`: that search's own cache step, then the games under the featured key for eight hours |
| EpicAdapter.FeaturedCacheFrame | backend/src/services/epic.ts:208-227 | a featured lookup leaves every key other than the featured key and the featured search key as it was |
| GogAdapter.CatalogRequest | backend/src/services/gog.ts:35-42 | page defaults to 1 and the limit is the catalogue page size. The search parameter is sent iff the query is non-empty |
| GogAdapter.TotalPages | backend/src/services/gog.ts:60 | at least one page, and the reported number when it is non-zero |
| GogAdapter.SearchResultOf | backend/src/services/gog.ts:54-60 | items as given; total is the reported count or the number of items. hasMore iff the page is before the last page |
| GogAdapter.SearchGogGames | backend/src/services/gog.ts:30-70 | the result is `SearchAnswer` of the old cache: a hit unfetched, else the shaped catalogue page, else an empty page without more. The new cache is `SearchCache` of the old one: unchanged on a hit, the page stored after a fetch, the expired entry dropped after a failure. Only the search key is written |
| GogAdapter.GetGogGameDetails | backend/src/services/gog.ts:72-99 | the product is `DetailsAnswer` of the old cache: a hit as is, else the fetched product. The new cache is `DetailsCache` of the old one, which stores the product only when present |
| GogAdapter.GetFeaturedGogGames | backend/src/services/gog.ts:101-118 | a hit is returned as stored and the cache is unchanged. On a miss the items are those of the catalogue search under the featured parameters, on the old cache. The new cache is `ListCache` for the featured key: the search's own cache step, then the items under the featured key |
| GogAdapter.Deals | backend/src/services/gog.ts:133-137 | keeps exactly the games with a positive discount |
| GogAdapter.GetGogDeals | backend/src/services/gog.ts:120-143 | every result is a deal. On a miss the result is `Deals` of the games of the deals search page on the old cache. The new cache is `ListCache` for the deals key: the search's own cache step, then the deals under the deals key for the deals lifetime |
| GogAdapter.ListCacheFrame | backend/src/services/gog.ts:101-143 | a featured or deals lookup leaves every key other than its list key and its search key as it was |
| SyncEngine.SyncTypeOf | backend/src/services/sync.ts:169-171 | the run is manual unless `manual` is explicitly false. It is full only when it is not manual and `fullSync` is true |
| SyncEngine.FirstGameNamed | backend/src/services/sync.ts:64-72 | the first game with the name, or proof that none has it |
| SyncEngine.FirstOffer | backend/src/services/sync.ts:97-106 | the first offer of the game on the store, or proof that none exists |
| SyncEngine.FindOrCreate | backend/src/services/sync.ts:59-84 | an existing game is reused. Otherwise exactly one game is appended with the next id. Old rows and offers are untouched, and the returned id is the named game's |
| SyncEngine.StoredOffer | backend/src/services/sync.ts:94-145 | a zero or missing price is stored as null, and currency defaults to USD. The other fields are copied and the check time is `now` |
| SyncEngine.Upsert | backend/src/services/sync.ts:86-146 | an existing offer for the game and store is updated in place; otherwise one is appended. Other offers are unchanged and uniqueness per game and store is preserved |
| SyncEngine.Distinct | backend/src/services/sync.ts:153 | the platforms without duplicates, same members |
| SyncEngine.PlatformsOfGame | backend/src/services/sync.ts:149-156 | exactly the stores on which the game has an offer |
| SyncEngine.MultiPlatformIff | backend/src/services/sync.ts:153-158 | more than one distinct platform iff two listed platforms differ |
| SyncEngine.RefreshPlatforms | backend/src/services/sync.ts:148-162 | only the game's own row changes, and its platform list and multi-platform flag are recomputed from the offers |
| SyncEngine.MultiPlatformMeansTwoStores | backend/src/services/sync.ts:148-162 | after the refresh a game is multi-platform iff it has offers on two different stores |
| SyncEngine.Reach | backend/src/services/sync.ts:186-218 | how many statements of one record ran before it threw, four when it finished |
| SyncEngine.StatementsCounts | backend/src/services/sync.ts:196-218 | the counters reflect exactly the statements that ran |
| SyncEngine.Step | backend/src/services/sync.ts:184-222 | a record is counted processed iff it finished. It is counted added or updated iff the upsert ran, and a record that threw before anything ran leaves the tables unchanged |
| SyncEngine.Run | backend/src/services/sync.ts:184-222 | over n records, processed ≤ added + updated ≤ n |
| SyncEngine.RunStep | backend/src/services/sync.ts:184-222 | a run of i+1 records is the run of i followed by one step |
| SyncEngine.RunKeepsOffersUnique | backend/src/services/sync.ts:86-146 | a sync run never creates a second offer for the same game and store |
| SyncEngine.RunSyncsAll | backend/src/services/sync.ts:184-222 | when no record fails, every record's game and offer are stored afterwards |
| SyncEngine.RunKeepsSynced | backend/src/services/sync.ts:184-222 | records already stored stay stored through any run, failures included |
| SyncEngine.SyncedRunAddsNothing | backend/src/services/sync.ts:196-210 | re-running over already stored records adds no game and no offer, and counts nothing as added |
| SyncEngine.ResyncAddsNothing | backend/src/services/sync.ts:164-257 | a second clean run of the same records adds no rows |
| SyncEngine.CompleteLog | backend/src/services/sync.ts:50-57 | only the run's log row changes; it becomes completed with the counts and completion time |
| SyncEngine.FailLog | backend/src/services/sync.ts:239-256 | only the run's log row changes; it becomes failed with the message and completion time |
| SyncEngine.LatestLog | backend/src/services/sync.ts:498-522 | the platform's log with the latest start; it is the first such log among equal starts, and absent iff the platform has no log |
| SyncEngine.StatusOf | backend/src/services/sync.ts:498-522 | the latest log's status and counts, or no status and no last sync when there is none |
| SyncEngine.GetSyncStatus | backend/src/services/sync.ts:498-522 | one status per platform, in platform order |
| SyncEngine.FulfilledResults | backend/src/services/sync.ts:469-496 | exactly the results of the settled syncs that fulfilled |
| SyncEngine.EpicRecords | backend/src/services/sync.ts:184-186 | each Epic game becomes a record of its id and normalised game |
| SyncEngine.GogRecords | backend/src/services/sync.ts:308 | each GOG game becomes a record keyed by `String(id)` |
| SyncEngine.SteamRecord | backend/src/services/sync.ts:386-402 | the Steam record keeps the app id and name. It has prices only when the details carry price data, converted from cents |
| SyncEngine.SteamRecords | backend/src/services/sync.ts:372-402 | one record per app, each from that app's details |
| SyncEngine.Catalog.constructor | backend/src/services/sync.ts:37-48 | empty tables and id counters at 1 |
| SyncEngine.Catalog.CreateSyncLog | backend/src/services/sync.ts:37-48 | appends a running log row with the next id; the catalogue is unchanged |
| SyncEngine.Catalog.FindOrCreateGame | backend/src/services/sync.ts:59-84 | the tables become `FindOrCreate` of the old ones, and the id is its id |
| SyncEngine.Catalog.UpsertGamePlatform | backend/src/services/sync.ts:86-146 | the tables become `Upsert` of the old ones, and the id is the stored offer's |
| SyncEngine.Catalog.UpdateGamePlatformsArray | backend/src/services/sync.ts:148-162 | the tables become `RefreshPlatforms` of the old ones |
| SyncEngine.Catalog.SyncRecord | backend/src/services/sync.ts:186-221 | the tables and counters follow `Step` for the record |
| SyncEngine.Catalog.SyncRecords | backend/src/services/sync.ts:184-222 | the tables and counters follow `Run` over all records |
| SyncEngine.Catalog.RunAndLog | backend/src/services/sync.ts:184-256 | the tables follow `Run`. The result reports the counts, or failure with zero counts and the message. The log row is closed as completed with the counts, or as failed |
| SyncEngine.Catalog.SyncEpicGames | backend/src/services/sync.ts:164-257 | the whole new state is `EpicRun` of the old tables, logs, log id and cache. The sync is rejected iff creating its log fails, which changes nothing. Otherwise the games synced are the Epic search answer for the sync parameters and the cache is that search's `SearchCache`. The tables, the reported result and the one new log row follow `Run` over their records |
| SyncEngine.Catalog.SyncGogGames | backend/src/services/sync.ts:259-352 | the whole new state is `GogRun`: the same life cycle for the GOG search answer, with ids converted by `String` |
| SyncEngine.Catalog.SyncSteamGames | backend/src/services/sync.ts:354-467 | the whole new state is `SteamRun`: the same life cycle for the first fifty apps of the Steam search answer, priced from their details |
| SyncEngine.Catalog.RunPlatform | backend/src/services/sync.ts:475-479 | one platform's sync: the new state and outcome are `RunOn` of the old state |
| SyncEngine.Catalog.SyncAllPlatforms | backend/src/services/sync.ts:469-496 | the whole new state and the three outcomes are `AllRuns`: the Epic, GOG and Steam runs composed in that order, each on the state the previous one left. Each is rejected iff its log row cannot be created, and the results are those of the runs that fulfilled |
| SyncEngine.RunOnReport | backend/src/services/sync.ts:164-257 | a run is rejected iff its log row cannot be created, and then changes nothing. Otherwise it reports its own platform, succeeds iff the completion update does not throw, and adds exactly one log row and one log id |
| SyncEngine.AllRunsOutcomes | backend/src/services/sync.ts:469-496 | the three outcomes report Epic, GOG and Steam in that order, each rejected iff its log row cannot be created |
| SyncEngine.AllRunsLogged | backend/src/services/sync.ts:469-496 | the log table and the log id counter grow by the number of results returned |
| PlatformApiBase.Amount | shared/src/types.ts:1-58 | a `Money` amount is its hundredths divided by 100 |
| PlatformApiBase.SuccessCompletions | backend/src/services/platformApi.ts:52-58 | exactly the completion times of the platform's successful logs |
| PlatformApiBase.DueIff | backend/src/services/platformApi.ts:60-63 | a completion is due iff at least the TTL in hours has elapsed |
| PlatformApiBase.DueEarlier | backend/src/services/platformApi.ts:60-63 | if a later completion is due, every earlier one is due |
| PlatformApiBase.Earliest | backend/src/services/platformApi.ts:52-58 | the first row of an ascending `completedAt` order, where null sorts first |
| PlatformApiBase.Latest | backend/src/services/platformApi.ts:52-58 | the greatest completion time, absent iff none is recorded |
| PlatformApiBase.ShouldSyncAsWrittenIff | backend/src/services/platformApi.ts:48-64 | as written, a sync is due iff there is no success or the oldest success is past the TTL |
| PlatformApiBase.ShouldSyncIff | backend/src/services/platformApi.ts:48-64 | corrected, a sync is due iff no successful log has a completion within the TTL |
| PlatformApiBase.OldestLogDefeatsThrottle | backend/src/services/platformApi.ts:52-63 | a concrete case where the code as written syncs again one hour after a success |
| PlatformApiBase.LoggedSuccessDefersSync | backend/src/services/platformApi.ts:48-81 | right after a successful run is logged, the corrected throttle says no sync is due |
| PlatformApiBase.RowsOn | backend/src/services/platformApi.ts:87-101 | exactly the offers on the platform |
| PlatformApiBase.AvailabilityOf | backend/src/services/platformApi.ts:87-101 | one availability entry per offer on the platform, carrying the game name and the offer's price fields |
| PlatformApiBase.ServiceDb.constructor | backend/src/db/schema.ts:1-57 | empty tables with ids starting at 1 |
| PlatformApiBase.PlatformApi.constructor | backend/src/services/platformApi.ts:38-42 | the TTL defaults to 12 hours and the rate-limit delay to 1000 ms |
| PlatformApiBase.PlatformApi.LogSync | backend/src/services/platformApi.ts:66-81 | appends exactly one log row, with the errors joined by newlines; the other tables are unchanged |
| PlatformApiBase.PlatformApi.GetPlatformAvailability | backend/src/services/platformApi.ts:87-101 | returns `AvailabilityOf` for this service's platform |
| EpicGamesService.FirstStorefront | backend/src/services/epicGamesService.ts:443-445 | the first DieselStoreFrontWide or DieselStoreFrontTall image, or proof there is none |
| EpicGamesService.TransformEpicGame | backend/src/services/epicGamesService.ts:442-474 | id and title are carried over and the prices are taken in hundredths. The discount is `Math.round` of the upstream percentage. The description falls back to the short one, and the url uses the product slug or else the url slug. The currency is USD and the game is available and not DRM-free |
| EpicGamesService.NoSalePriceMeansOriginal | backend/src/services/epicGamesService.ts:447-449 | without a discount price the sale price equals the original |
| EpicGamesService.MergeGame | backend/src/services/epicGamesService.ts:363-380 | id and name are kept. Each of the nine descriptive columns takes the new value when it is truthy and keeps the stored one otherwise, so a stored description is never lost |
| EpicGamesService.MergeIdempotent | backend/src/services/epicGamesService.ts:363-380 | merging the same data twice is the same as once |
| EpicGamesService.FirstKeyed | backend/src/services/epicGamesService.ts:356-408 | the first row whose key (the game name, or the offer's platform id) is the wanted one, or proof there is none |
| EpicGamesService.SaveGame | backend/src/services/epicGamesService.ts:356-399 | an existing game is merged in place; otherwise one is inserted with the next id. Offers are untouched |
| EpicGamesService.SaveOffer | backend/src/services/epicGamesService.ts:402-439 | an existing offer with the platform id is updated in place; otherwise one is inserted. Games are untouched |
| EpicGamesService.Reach | backend/src/services/epicGamesService.ts:352-440 | how many of the two writes ran before a fault |
| EpicGamesService.GameStatements | backend/src/services/epicGamesService.ts:352-440 | with no statement run the tables are unchanged |
| EpicGamesService.CleanSyncGame | backend/src/services/epicGamesService.ts:352-440 | a clean sync is `SaveGame` then `SaveOffer` of the transformed game |
| EpicGamesService.SyncGameStores | backend/src/services/epicGamesService.ts:352-440 | after a clean sync the game's title and its Epic id are both stored |
| EpicGamesService.ResyncAddsNoRows | backend/src/services/epicGamesService.ts:352-440 | syncing the same game again adds no game and no offer |
| EpicGamesService.SyncAll | backend/src/services/epicGamesService.ts:311-321 | every element is counted as synced or named in one error, and the errors are exactly the faulting ones |
| EpicGamesService.ErrorsNameFailedElements | backend/src/services/epicGamesService.ts:316-320 | every error names the title of a game whose sync failed |
| EpicGamesService.RunStatus | backend/src/services/epicGamesService.ts:323-328 | success iff no errors, partial iff 1 to 5 errors, failed iff more than 5 |
| EpicGamesService.SucceededIffNotFailed | backend/src/services/epicGamesService.ts:330-335 | the reported success flag is true iff the status is not failed |
| EpicGamesService.DeliveredGames | backend/src/services/epicGamesService.ts:304-309 | the catalogue elements, or none when the answer has no elements |
| EpicGamesService.SyncOutcomeTolerance | backend/src/services/epicGamesService.ts:220-350 | a run succeeds iff the fetch delivered and at most five elements failed. A failed fetch reports its message and syncs nothing |
| EpicGamesService.EpicGamesService.constructor | backend/src/services/epicGamesService.ts:59-61 | an Epic platform service with a 12-hour TTL and a 1000 ms rate-limit delay |
| EpicGamesService.EpicGamesService.SyncEpicGame | backend/src/services/epicGamesService.ts:352-440 | the tables become `SyncGame` of the old ones; the logs are unchanged |
| EpicGamesService.EpicGamesService.SyncElements | backend/src/services/epicGamesService.ts:311-321 | the tables, synced count and errors are those of `SyncAll` |
| EpicGamesService.EpicGamesService.SyncGames | backend/src/services/epicGamesService.ts:220-350 | when not forced and the throttle as written says no, it is skipped with no writes. Otherwise the result, tables and one new log follow `SyncOutcome`. Success means at most five errors |
| EpicGamesService.EpicGamesService.SyncGamesCorrected | backend/src/services/epicGamesService.ts:220-350 | corrected: the same as `SyncGames`, throttled by the newest successful run |
| EpicGamesService.EpicGamesService.FetchAndSync | backend/src/services/epicGamesService.ts:304-335 | the result, tables and one appended log follow `SyncOutcome` |
| EpicGamesService.EpicGamesService.RecordFetchFailure | backend/src/services/epicGamesService.ts:336-349 | a failed fetch leaves the tables alone and appends one failed log |
| PlatformManager.NotFoundReason | backend/src/services/platformManager.ts:55-58 | the reason text for a platform without a service |
| PlatformManager.FailedSync | backend/src/services/platformManager.ts:55-58 | a failed result with no games and one error naming the platform and reason |
| PlatformManager.SettleSync | backend/src/services/platformManager.ts:55-75 | an unregistered platform fails as not found; a fulfilled sync is passed on; a rejected one becomes a failed result with its reason |
| PlatformManager.Targets | backend/src/services/platformManager.ts:49-51 | 'all' targets the registered order, and otherwise the one named platform |
| PlatformManager.SyncResults | backend/src/services/platformManager.ts:48-76 | one settled result per target, in order |
| PlatformManager.SyncResultShape | backend/src/services/platformManager.ts:63-75 | each result is the fulfilled value or a failure naming the platform |
| PlatformManager.SyncEveryPlatformFindsServices | backend/src/services/platformManager.ts:49-75 | syncing 'all' never reports a missing service |
| PlatformManager.Tagged | backend/src/services/platformManager.ts:30-38 | a failed search contributes nothing; a successful one contributes each game tagged with its platform |
| PlatformManager.SearchAllMembers | backend/src/services/platformManager.ts:26-46 | a tagged game is in the result iff some registered service's successful search found it |
| PlatformManager.SearchAllLength | backend/src/services/platformManager.ts:26-46 | the result holds exactly as many games as the successful searches returned |
| PlatformManager.AvailabilityAllEntries | backend/src/services/platformManager.ts:95-110 | every entry names the game and comes from a registered service that did not fail |
| PlatformManager.AvailabilityAllComplete | backend/src/services/platformManager.ts:95-110 | every entry of a registered service that did not fail is in the combined list |
| PlatformManager.DetailsFrom | backend/src/services/platformManager.ts:78-93 | a missing service is an error. A found game is returned tagged with its platform, and a missing game is none |
| PlatformManager.PlatformManager.constructor | backend/src/services/platformManager.ts:9-12 | Epic and GOG are registered in that order, and Steam has no service |
| PlatformManager.PlatformManager.RegisterPlatform | backend/src/services/platformManager.ts:14-16 | the map gains or replaces the platform, and a new platform is appended to the order |
| PlatformManager.PlatformManager.GetPlatformService | backend/src/services/platformManager.ts:18-20 | the service is found iff the platform is registered |
| PlatformManager.PlatformManager.GetAllPlatformServices | backend/src/services/platformManager.ts:22-24 | every service in registration order |
| PlatformManager.PlatformManager.SyncPlatform | backend/src/services/platformManager.ts:48-76 | returns `SyncResults` for the targets |
| PlatformManager.PlatformManager.SearchAllPlatforms | backend/src/services/platformManager.ts:26-46 | returns `SearchAll` over the registered services |
| PlatformManager.PlatformManager.GetGameDetails | backend/src/services/platformManager.ts:78-93 | returns `DetailsFrom` for the platform |
| PlatformManager.PlatformManager.GetPlatformAvailability | backend/src/services/platformManager.ts:95-110 | gathers availability from every service whose query did not fail. Every entry names the game and comes from such a service, and every entry of every such service is included |
| PlatformManager.UnregisteredSyncFails | backend/src/services/platformManager.ts:55-58 | syncing one unregistered platform gives exactly one not-found failure |
| GamesRouter.OffersOf | backend/src/routers/games.ts:178-185 | exactly the game's offers, optionally on one platform |
| GamesRouter.GetAllLimit | backend/src/routers/games.ts:41 | the limit is the given one if non-zero, else 50 |
| GamesRouter.GetAllOffset | backend/src/routers/games.ts:42 | the offset is the given one, else 0 |
| GamesRouter.JoinOnMembers | backend/src/routers/games.ts:45-51 | a pair is in the join iff the offer belongs to the game and is on the platform |
| GamesRouter.GetAll | backend/src/routers/games.ts:41-57 | with a platform, a page of the join; otherwise a page of the games |
| GamesRouter.GetAllPage | backend/src/routers/games.ts:41-57 | the page holds at most `limit` rows, all from the tables. With no input it is the first 50 games |
| GamesRouter.DbPage | backend/src/routers/games.ts:156-175 | at most `limit` games, all among those matching |
| GamesRouter.WithOffers | backend/src/routers/games.ts:178-185 | each game is paired with exactly its offers |
| GamesRouter.Filter | backend/src/routers/games.ts:187-203 | keeps exactly the games the predicate accepts |
| GamesRouter.KeepPlatforms | backend/src/routers/games.ts:187-193 | an empty platform filter keeps everything; otherwise it keeps the games with an offer on one of the platforms |
| GamesRouter.KeepPriceRange | backend/src/routers/games.ts:195-203 | keeps exactly the games whose price lies in the range |
| GamesRouter.PriceRangeKeeps | backend/src/routers/games.ts:195-203 | the membership test for the range filter |
| GamesRouter.Filtered | backend/src/routers/games.ts:156-203 | the filtered list is no longer than the database page |
| GamesRouter.FilteredGamesPass | backend/src/routers/games.ts:156-203 | every listed game is on the page, carries its offers, and passes both filters |
| Common.AmountOrNull | backend/src/routers/games.ts:518 | the null fallback on an upstream amount: a non-zero amount becomes a positive number, and zero or missing becomes null |
| GamesRouter.SteamHit | backend/src/routers/games.ts:471-503 | a Steam row with `parseInt` of the app id, null when it is 0. No price, USD, and the store url and CDN image |
| GamesRouter.SteamHitAppId | backend/src/routers/games.ts:473 | the parsed id of a decimal app id is the number itself, or null for 0 |
| GamesRouter.CategoryNames | backend/src/routers/games.ts:519 | the category names, in order |
| GamesRouter.EpicHit | backend/src/routers/games.ts:509-548 | an Epic row whose price is present iff a non-zero discount price is given. Url iff there is a product slug; cover and image agree |
| GamesRouter.GogHit | backend/src/routers/games.ts:551-593 | a GOG row with `String(id)`; price iff non-zero, discount as given, and url iff there is a slug |
| GamesRouter.PlatformList | backend/src/routers/games.ts:463 | the requested platforms, or all three |
| GamesRouter.MapSteam | backend/src/routers/games.ts:471-503 | one row per Steam hit |
| GamesRouter.MapEpic | backend/src/routers/games.ts:509-548 | one row per Epic game |
| GamesRouter.MapGog | backend/src/routers/games.ts:551-593 | one row per GOG game |
| GamesRouter.OnlyFromConcat | backend/src/routers/games.ts:393-598 | rows from allowed platforms stay allowed when concatenated |
| GamesRouter.Asked | backend/src/routers/games.ts:463-551 | the set of platforms that were searched |
| GamesRouter.ExternalRowsPlatforms | backend/src/routers/games.ts:393-598 | every row comes from a platform that was searched, and the row count is the sum of the hits |
| GamesRouter.MapSteamOn | backend/src/routers/games.ts:471-503 | Steam hits give only Steam rows |
| GamesRouter.MapEpicOn | backend/src/routers/games.ts:509-548 | Epic hits give only Epic rows |
| GamesRouter.MapGogOn | backend/src/routers/games.ts:551-593 | GOG hits give only GOG rows |
| GamesRouter.ExternalRowsAsked | backend/src/routers/games.ts:463-596 | rows only come from requested platforms, and Steam only when there is a query |
| GamesRouter.SearchExternalPlatforms | backend/src/routers/games.ts:393-598 | each store's answer is its adapter's search answer on the old cache, for the query and five hits. Steam is asked iff requested and there is a query, and Epic and GOG iff requested. The rows are exactly `ExternalRows` of those answers. The new cache is `ExternalCache`: the searches' own cache steps, Steam then Epic then GOG |
| GamesRouter.ExternalCacheFrame | backend/src/routers/games.ts:463-594 | the fallback leaves every key other than the three search keys as it was |
| GamesRouter.PushSteamHits | backend/src/routers/games.ts:470-503 | the loop pushes exactly `MapSteam` of the hits |
| GamesRouter.PushEpicHits | backend/src/routers/games.ts:514-546 | the loop pushes exactly `MapEpic` of the games |
| GamesRouter.PushGogHits | backend/src/routers/games.ts:556-591 | the loop pushes exactly `MapGog` of the games |
| GamesRouter.AskSteam | backend/src/routers/games.ts:466-507 | Steam is searched iff asked with a query. The answer is the adapter's search answer and the rows are the first five hits mapped. The new cache is the adapter's `SearchCache` when asked and unchanged otherwise |
| GamesRouter.AskEpic | backend/src/routers/games.ts:509-549 | Epic is searched iff asked. The answer is the adapter's search answer for five hits and the rows are its games mapped. The new cache is the adapter's `SearchCache` when asked and unchanged otherwise |
| GamesRouter.AskGog | backend/src/routers/games.ts:551-594 | GOG is searched iff asked. The answer is the adapter's search answer for five hits and the rows are its games mapped. The new cache is the adapter's `SearchCache` when asked and unchanged otherwise, so only the GOG search key is written |
| GamesRouter.FallbackKeysDistinct | backend/src/routers/games.ts:466-594 | the Steam, Epic and GOG search keys of one query differ, so one store's search never changes what the next reads |
| GamesRouter.DbRows | backend/src/routers/games.ts:206-219 | one database-tagged row per listed game |
| GamesRouter.StoreRows | backend/src/routers/games.ts:206-219 | one store-tagged row per external hit |
| GamesRouter.SearchAll | backend/src/routers/games.ts:133-219 | the database rows come first. Total equals the count, and hasMore iff the filtered list filled the limit. With no fallback only database rows are returned and the cache is unchanged. With the fallback the store rows of the external answers on the old cache follow, and the new cache is `ExternalCache` |
| GamesRouter.GenresOnlyStaysLocal | backend/src/routers/games.ts:206-208 | a genre-filtered search never falls back to the stores |
| GamesRouter.OfferEntry | backend/src/routers/games.ts:350-351 | an offer's availability entry copies its price and has no original price |
| GamesRouter.OfferEntries | backend/src/routers/games.ts:334-360 | one entry per offer |
| GamesRouter.DbAvailabilitySources | backend/src/routers/games.ts:334-360 | every entry comes from an offer of one of the matched games |
| GamesRouter.DbAvailabilityComplete | backend/src/routers/games.ts:334-360 | every offer of a matched game has its entry in the listing |
| GamesRouter.CentsOrNull | backend/src/routers/games.ts:372-377 | non-zero cents become the amount divided by 100, and zero becomes null |
| GamesRouter.SteamEntry | backend/src/routers/games.ts:363-386 | the Steam entry has its prices from the price data or none, and the store url and header image |
| GamesRouter.WithSteamAddsOnlyIfAbsent | backend/src/routers/games.ts:363-386 | the Steam entry is appended only when details exist and no Steam entry is there yet |
| GamesRouter.GetPlatformAvailability | backend/src/routers/games.ts:313-389 | database entries for the first five matches, plus Steam when asked. Steam is not fetched without an app id. With an app id the Steam details are the adapter's `DetailsAnswer` on the old cache and the new cache is its `DetailsCache` |
| GamesRouter.GameById | backend/src/routers/games.ts:233-251 | the first game with the id, or proof there is none |
| GamesRouter.FirstOn | backend/src/routers/games.ts:267-276 | the first offer on the platform, or proof there is none |
| GamesRouter.GogId | backend/src/routers/games.ts:267-268 | the parsed GOG id, 0 when the platform id is empty |
| GamesRouter.SteamDetailsOf | backend/src/routers/games.ts:275-298 | Steam details view with the first developer when present, and the normalised platform data |
| GamesRouter.ExternalOf | backend/src/routers/games.ts:257-303 | each store's raw details are normalised by that store's normaliser, and no details give none |
| GamesRouter.GetDetails | backend/src/routers/games.ts:229-310 | a known game id reads the database. Otherwise the store answer is `StoreAnswer` on the old cache (the named store's adapter lookup for the platform id) and the new cache is `StoreCache`. Nothing is fetched when no store can be asked |
| GamesRouter.StoreAnswer | backend/src/routers/games.ts:257-303 | an answer exists only when a store can be asked, and it comes from the named store |
| GamesRouter.StoreLookupCached | backend/src/routers/games.ts:257-303 | the lookup writes at most its own key. While that key holds a live entry the cache is unchanged and the answer does not depend on the network |
| Trending.IndexOfQuery | backend/src/routers/gamesAdvanced.ts:676-680 | the first row for the query, or proof there is none |
| Trending.TotalAfterReplace | backend/src/routers/gamesAdvanced.ts:682-689 | replacing a row changes the total count by the difference |
| Trending.TotalAfterAppend | backend/src/routers/gamesAdvanced.ts:690-695 | appending a row adds its count |
| Trending.SearchStats.constructor | backend/src/routers/gamesAdvanced.ts:674-699 | no searches recorded |
| Trending.SearchStats.TrackPopularSearch | backend/src/routers/gamesAdvanced.ts:674-699 | the table becomes `Tracked` of the old one: a known query's first row gets one more search and the current time, and every other row is kept. Otherwise a row with the next id and count 1 is appended. Either way the total rises by one, and a failure changes nothing |
| Trending.Tracked | backend/src/routers/gamesAdvanced.ts:674-699 | the total rises by one. A known query's first row is bumped and stamped, and every other row is kept. An unknown query gets an appended row with count 1 |
| Trending.Threshold | backend/src/routers/gamesAdvanced.ts:536-537 | the cut-off is a week or thirty days before `now` |
| Trending.RecentSearches | backend/src/routers/gamesAdvanced.ts:540-547 | exactly the searches made since the threshold |
| Trending.TrendingSearches | backend/src/routers/gamesAdvanced.ts:540-547 | at most `limit` searches, all recent |
| Trending.Shown | backend/src/routers/gamesAdvanced.ts:566-580 | a listed game carries its row and count, and one platform iff the row has an offer |
| Trending.IdsOf | backend/src/routers/gamesAdvanced.ts:566-580 | exactly the ids of the listed games |
| Trending.ListOneMore | backend/src/routers/gamesAdvanced.ts:566-580 | adding a game not yet seen keeps the list free of repeats |
| Trending.ListMatches | backend/src/routers/gamesAdvanced.ts:550-581 | the list becomes `Listed` of the matches: unseen matches are appended in order until the limit, without repeats |
| Trending.ListRecent | backend/src/routers/gamesAdvanced.ts:584-611 | the list becomes `Listed` of the recent rows: every unseen row is appended in order, without repeats |
| Trending.ListedShape | backend/src/routers/gamesAdvanced.ts:566-580 | listing rows extends the list, without repeats, by at most the rows, and within the limit |
| Trending.ListedOnlyRows | backend/src/routers/gamesAdvanced.ts:566-580 | every appended game is one of the rows, shown with the count |
| Trending.ListedComplete | backend/src/routers/gamesAdvanced.ts:566-580 | when the list stays under the limit (or there is room for all), every row's game is listed |
| Trending.SearchPhaseShape | backend/src/routers/gamesAdvanced.ts:550-581 | the search phase extends the list without repeats and within the limit |
| Trending.SearchPhaseComplete | backend/src/routers/gamesAdvanced.ts:550-581 | when the search phase ends under the limit, the first three matches of every trending search are listed |
| Trending.BackfillComplete | backend/src/routers/gamesAdvanced.ts:583-611 | the back-fill asks for `limit` minus the listed count, keeps the list free of repeats and within the limit, and lists every row it got |
| Trending.TrendingComplete | backend/src/routers/gamesAdvanced.ts:527-617 | when the search phase leaves room, the trending list holds every first-three match of every trending search and every back-fill row |
| Trending.ListSearchMatches | backend/src/routers/gamesAdvanced.ts:550-581 | the loop over the trending searches lists `SearchPhase` of them, each game from a search's matches |
| Trending.ListBackfill | backend/src/routers/gamesAdvanced.ts:583-611 | the back-fill step gives `WithBackfill` of the list; each new game is from the recent rows |
| Trending.GetTrending | backend/src/routers/gamesAdvanced.ts:527-617 | the games are `TrendingGames`: at most `limit` without repeats, each from a trending search's first three matches or from the back-fill of `limit` minus the listed count |
| Trending.AbsorbProperties | backend/src/routers/gamesAdvanced.ts:640-660 | keeps what was gathered, adds no duplicates, stays within the limit, and takes only candidates. It stops short only when candidates ran out |
| Trending.GetAutoCompleteSuggestions | backend/src/routers/gamesAdvanced.ts:626-670 | the game names are taken first, then the past queries, each step up to the limit |
| Trending.SuggestionsShape | backend/src/routers/gamesAdvanced.ts:626-670 | the suggestions are distinct, within the limit, and drawn from the two sources |
| SearchShaping.PageNumber | backend/src/routers/gamesAdvanced.ts:36 | the page is the given one if non-zero, else 1 |
| SearchShaping.PageSize | backend/src/routers/gamesAdvanced.ts:37 | the limit is the given one if non-zero, else 20 |
| SearchShaping.Offset | backend/src/routers/gamesAdvanced.ts:36 | offset plus limit is page times limit, so the first page starts at 0 |
| SearchShaping.Listing | backend/src/routers/gamesAdvanced.ts:168-181 | a joined offer's summary entry carries its platform and prices |
| SearchShaping.DistinctIds | backend/src/routers/gamesAdvanced.ts:156-166 | each game id once, exactly the ids in the rows |
| SearchShaping.EntriesFor | backend/src/routers/gamesAdvanced.ts:168-181 | one entry per offer row of the game |
| SearchShaping.SummaryPlatforms | backend/src/routers/gamesAdvanced.ts:156-192 | a game's summary lists exactly its offers, and its platform count is their number |
| SearchShaping.EntriesAbsent | backend/src/routers/gamesAdvanced.ts:156-192 | a game without rows has no entries |
| SearchShaping.SummaryGame | backend/src/routers/gamesAdvanced.ts:158-166 | the summary's game is one of the game's rows |
| SearchShaping.AbsorbKeepsLowest | backend/src/routers/gamesAdvanced.ts:183-190 | absorbing an offer keeps the lowest price the minimum of the listed prices |
| SearchShaping.AbsorbKeepsHighest | backend/src/routers/gamesAdvanced.ts:183-190 | absorbing an offer keeps the highest price the maximum of the listed prices |
| SearchShaping.SummaryExtremes | backend/src/routers/gamesAdvanced.ts:156-192 | a summary's lowest and highest prices are the minimum and maximum over its offers |
| SearchShaping.SummaryStep | backend/src/routers/gamesAdvanced.ts:156-192 | one more row changes only that game's summary, starting it fresh when first seen |
| SearchShaping.AddListing | backend/src/routers/gamesAdvanced.ts:168-191 | the updated summary is `Absorb` of the offer |
| SearchShaping.GroupedStep | backend/src/routers/gamesAdvanced.ts:156-192 | the grouping invariant is kept by one iteration |
| SearchShaping.GroupResults | backend/src/routers/gamesAdvanced.ts:151-196 | one summary per distinct game, in first-seen order, each the game's complete summary |
| SearchShaping.AdvancedSearch | backend/src/routers/gamesAdvanced.ts:35-202 | the search table becomes `Tracked` of the old one unless tracking fails, when it is unchanged. The page and limit are echoed and the total is the number of grouped games. Each result is its game's summary |
| PriceComparison.EntryOf | backend/src/routers/gamesAdvanced.ts:270-276 | a comparison entry copies the offer's price, discount and availability, and the DRM flag only for GOG |
| PriceComparison.LastOn | backend/src/routers/gamesAdvanced.ts:265-288 | the last offer on the platform, which the loop leaves in place; absent iff none |
| PriceComparison.CheapestIndex | backend/src/routers/gamesAdvanced.ts:284-287 | the first offer with the strictly lowest price; absent iff no offer has a price |
| PriceComparison.EveryPlatformVisited | backend/src/routers/gamesAdvanced.ts:256-263 | the comparison has a slot for every platform |
| PriceComparison.CollectStep | backend/src/routers/gamesAdvanced.ts:265-288 | one iteration sets only its platform's entry and updates the cheapest correctly |
| PriceComparison.CollectEntries | backend/src/routers/gamesAdvanced.ts:265-288 | the entries are the last offer per platform, and the cheapest is the lowest price |
| PriceComparison.SavingsOf | backend/src/routers/gamesAdvanced.ts:297-307 | each other priced platform's saving is its price minus the lowest |
| PriceComparison.DealOf | backend/src/routers/gamesAdvanced.ts:310-330 | the deal is the first platform with the strictly largest positive discount; none iff no entry qualifies |
| PriceComparison.WithEntries | backend/src/routers/gamesAdvanced.ts:256-276 | each platform slot holds its entry or null |
| PriceComparison.EntriesDescribe | backend/src/routers/gamesAdvanced.ts:265-276 | every platform slot holds the entry of the last offer there, or null |
| PriceComparison.SavingsDescribe | backend/src/routers/gamesAdvanced.ts:290-308 | the stored savings are exact |
| PriceComparison.DealDescribe | backend/src/routers/gamesAdvanced.ts:310-330 | the stored best deal is exact |
| PriceComparison.BuildComparison | backend/src/routers/gamesAdvanced.ts:256-330 | corrected: the comparison describes the offers, skipping empty slots, and keeps the original price |
| PriceComparison.WithoutOriginal | backend/src/routers/gamesAdvanced.ts:270-276 | the same entries with no original price |
| PriceComparison.ReadsNullEntry | backend/src/routers/gamesAdvanced.ts:299-321 | the loops throw iff some platform other than the skipped one has no entry |
| PriceComparison.CompareAsWritten | backend/src/routers/gamesAdvanced.ts:290-330 | as written: it throws iff a platform slot is null. Otherwise the comparison describes the offers as written, and no entry and no best deal has an original price |
| PriceComparison.BuildComparisonAsWritten | backend/src/routers/gamesAdvanced.ts:256-330 | as written: it throws iff some platform has no offer. Otherwise the entries are the last offers without original price, and the cheapest option, savings and best deal are exact |
| PriceComparison.SummariseAsWritten | backend/src/routers/gamesAdvanced.ts:290-330 | with an entry on every platform, the savings and best-deal loops give a comparison that describes the offers as written |
| PriceComparison.AsWrittenDescribes | backend/src/routers/gamesAdvanced.ts:256-330 | the entries, savings and best deal gathered by the loops as written describe the offers |
| PriceComparison.EntriesAsWritten | backend/src/routers/gamesAdvanced.ts:265-276 | with an offer on every platform, each slot holds the last offer's entry without original price |
| PriceComparison.SummarisesOf | backend/src/routers/gamesAdvanced.ts:284-330 | the cheapest loop's state with exact savings and an exact best deal summarise the offers |
| PriceComparison.AsWrittenWithoutOriginal | backend/src/routers/gamesAdvanced.ts:270-276 | a comparison as written has an entry on every platform and no original price on any entry or on the best deal |
| PriceComparison.EpicOnlyGameThrows | backend/src/routers/gamesAdvanced.ts:299-321 | a game sold only on Epic has null Steam and GOG slots, so the code as written throws |
| PriceComparison.IndexOfGame | backend/src/routers/gamesAdvanced.ts:234-247 | the first cached comparison for the game, or proof there is none |
| PriceComparison.ResolveGameId | backend/src/routers/gamesAdvanced.ts:215-232 | a given id is used; otherwise the first game with the name |
| PriceComparison.OffersOfGame | backend/src/routers/gamesAdvanced.ts:249-253 | exactly the game's offers |
| PriceComparison.Saving | backend/src/routers/gamesAdvanced.ts:386 | the deal's saving is its original price minus its price, and none without an original price |
| PriceComparison.DealPriority | backend/src/routers/gamesAdvanced.ts:387 | priority 2 iff the discount is at least 50, else 3 |
| PriceComparison.Candidates | backend/src/routers/gamesAdvanced.ts:369-400 | at most three sorted recommendations. The cheapest comes first when there is one, then the deal when discounted, and the DRM-free GOG offer last when present |
| PriceComparison.PushCandidates | backend/src/routers/gamesAdvanced.ts:369-400 | the pushes produce exactly `Candidates` |
| PriceComparison.InsertCounts | backend/src/routers/gamesAdvanced.ts:403 | insertion keeps every element and adds exactly one |
| PriceComparison.InsertSorted | backend/src/routers/gamesAdvanced.ts:403 | insertion into a sorted list keeps it sorted |
| PriceComparison.InsertLast | backend/src/routers/gamesAdvanced.ts:403 | an element no smaller than the last goes at the end, so the sort is stable |
| PriceComparison.SortByPriority | backend/src/routers/gamesAdvanced.ts:403 | the output is sorted by priority and a permutation of the input, and sorted input is unchanged |
| PriceComparison.ComparisonCache.constructor | backend/src/routers/gamesAdvanced.ts:234-247 | no cached comparisons |
| PriceComparison.ComparisonCache.GetPriceComparison | backend/src/routers/gamesAdvanced.ts:211-345 | an unknown game is an error with no write. A comparison fresher than six hours is returned unchanged. Otherwise, as written, a game without an offer on every platform throws with no write, and any other game gets a comparison that describes its offers as written, updated in or appended to the cache |
| PriceComparison.ComparisonCache.GetPriceComparisonCorrected | backend/src/routers/gamesAdvanced.ts:211-345 | corrected: the same, except that a stale or missing comparison is rebuilt by `BuildComparison` for every game, keeping original prices |
| PriceComparison.ComparisonCache.WhereToBuy | backend/src/routers/gamesAdvanced.ts:349-414 | it errors iff no comparison is cached. Otherwise it returns the platform entries, the first sorted candidate as the recommendation and the rest as alternatives |
| PriceComparison.AdviseOn | backend/src/routers/gamesAdvanced.ts:369-414 | the advice keeps the three entries, recommends the first of the sorted candidates and offers the rest as alternatives, and recommends nothing iff there is no candidate |
| PriceComparison.DealSavingShown | backend/src/routers/gamesAdvanced.ts:380-389 | in the corrected comparison, the best deal's saving is the offer's original price minus its price |

## Left out

- HTTP, GraphQL and JSON parsing are not modelled. Upstream answers are given as parsed values, and `JSON.stringify` in cache keys is rendered without escaping.
- The `RegExp`/`includes` name match is a predicate on exact characters. MySQL's case-insensitive collation is not modelled, so database names and queries match exactly.
- Promise concurrency (`Promise.all`, `Promise.allSettled`) is modelled as sequential evaluation in the code's order. The un-awaited `trackPopularSearch` in the advanced search is modelled as completing before the select.
- `setTimeout` back-off delays are recorded as a list of waits, not waited.
- Date parsing and `Date.now()` are not modelled. Times are integers in milliseconds passed as `now`, and `startedAt` is `now`.
- Floating point is not modelled. Prices are exact hundredths. `toFixed` reason strings are not rendered, and the `/ 100` and `Number(...)` conversions are exact reals.
- SQL `LIKE`/`MATCH`, the advanced-search filters, the ordering and `limit` are not modelled. Each query's selection is an input function or sequence.
- `searchByGenre` (backend/src/routers/gamesAdvanced.ts:416-525) is not modelled. It is a separate query shape outside the price and search core.
- zod input validation is not modelled; inputs are taken as validated. `performance.responseTime` is left out because it is a clock reading.
- A new popular-search row's `lastSearched` is `now`, standing for the column's default.
- PriceComparison.BuildComparison: a null `originalPrice` counts as missing. JavaScript would read it as 0 in the savings arithmetic.
- backend/src/services/gogService.ts is not part of this model; only the Epic service of the second generation is modelled.
- The `platformName` column, the `metadata` JSON and the `createdAt`/`updatedAt` timestamps are carried as opaque values or left out.
- SyncEngine.Catalog.SyncSteamGames: the per-app detail answers are given as a function of the app id, not fetched through the cache one by one.
- Failures while writing a sync log (other than creating it) are not modelled.
- GamesRouter.EpicHit: the Epic price is kept in upstream minor units, as the code passes it through unconverted.
- backend/src/services/platform.test.ts:118 expects the DieselGameBox url where the code prefers Thumbnail. The model follows the code.
- SteamAdapter.FilterByName: lower-casing folds only the ASCII letters A to Z. `toLowerCase` also folds other Unicode letters, so a query "é" matches a name "É" in the code but not in the model.
- GamesRouter.GogId: only a platform id made wholly of decimal digits parses. `parseInt` also accepts leading whitespace, a sign and trailing non-digits, so " 12", "+7", "-5" and "12abc" give a GOG id in the code and 0 in the model.
- PriceComparison.NullEntryError: the error text is one label for both null reads. Node's message ends in "(reading 'price')" or "(reading 'discountPercent')", depending on which loop meets the null entry first.
- PlatformService.FetchWithRetry: `fetch` throwing and a non-OK status are both failed attempts. The distinct error texts are kept only as far as the "HTTP " prefix.

## Findings

| source | as written | input that shows it | evidently intended | confidence | as-written member | corrected member |
|---|---|---|---|---|---|---|
| backend/src/routers/gamesAdvanced.ts:299-321 | the savings and best-deal loops read `.price` and `.discountPercent` of every platform's entry, and entries for platforms without an offer are null, so a `TypeError` is thrown | a game whose only offer is on Epic (lemma `PriceComparison.EpicOnlyGameThrows`) | skip platforms without an entry, and build the comparison from the offers that exist | not executed | PriceComparison.BuildComparisonAsWritten (run by `PriceComparison.ComparisonCache.GetPriceComparison`) | PriceComparison.BuildComparison (run by `PriceComparison.ComparisonCache.GetPriceComparisonCorrected`) |
| backend/src/services/platformApi.ts:52-63 | the latest successful sync is selected with ascending `completedAt` order, so the oldest success decides whether the TTL has passed | successes completed at 0 h and 12 h, asked at 13 h with a 12 h TTL: it syncs again (lemma `PlatformApiBase.OldestLogDefeatsThrottle`) | sync only when the most recent success is older than the TTL | not executed | PlatformApiBase.ShouldSyncAsWritten (throttles `EpicGamesService.EpicGamesService.SyncGames`) | PlatformApiBase.ShouldSync (throttles `EpicGamesService.EpicGamesService.SyncGamesCorrected`; proved by `PlatformApiBase.ShouldSyncIff` and `PlatformApiBase.LoggedSuccessDefersSync`) |
| backend/src/routers/gamesAdvanced.ts:270-276 | the per-platform entries never set `originalPrice`, yet the where-to-buy reason subtracts the best deal's `originalPrice`, so the saving shows as NaN | a game with offers on all three storefronts, one of them available at a positive discount (any other game throws first, as in the first row; `PriceComparison.BuildComparisonAsWritten` ensures the deal has no original price) | carry the offer's original price into the entry so the saving is original minus price | not executed | PriceComparison.BuildComparisonAsWritten | PriceComparison.BuildComparison (with `PriceComparison.DealSavingShown`) |
