// The GOG adapter: cache-aside catalogue search by page, product lookup by
// numeric id, a featured list and a list of discounted games.

module GogAdapter {
  import opened Common
  import opened PlatformService
  import opened AdapterCache

  /** Eight hours; the deals list is kept for two. */
  const GogCacheTtl: int := 8 * 60 * 60 * 1000
  const GogDealsTtl: int := 2 * 60 * 60 * 1000
  /** The catalogue URL always asks for this many items, whatever the caller's limit. */
  const CatalogPageSize: nat := 50

  datatype GogSearchParams = GogSearchParams(query: Option<string>, page: Option<nat>, limit: Option<nat>)

  /** The query string of the catalogue URL; `search` is present only for a non-empty query. */
  datatype GogCatalogRequest = GogCatalogRequest(page: nat, limit: nat, search: Option<string>)

  /** The `_page` block of a catalogue answer. */
  datatype GogPage = GogPage(totalPages: Option<nat>, totalElements: Option<nat>)

  /** A catalogue answer: `_embedded.items` and `_page`, each possibly missing. */
  datatype GogCatalogPayload = GogCatalogPayload(items: Option<seq<GOGGameResponse>>, page: Option<GogPage>)

  datatype GogSearchResult = GogSearchResult(games: seq<GOGGameResponse>, total: nat, hasMore: bool)

  function EffectivePage(p: GogSearchParams): nat {
    if p.page.Some? then p.page.value else 1
  }

  function EffectiveLimit(p: GogSearchParams): nat {
    if p.limit.Some? then p.limit.value else 50
  }

  /** The catalogue request for the parameters: their page, a fixed page size, the query if non-empty. */
  function CatalogRequest(p: GogSearchParams): (r: GogCatalogRequest)
    ensures r.page == EffectivePage(p)
    ensures r.limit == CatalogPageSize
    ensures r.search.Some? <==> TruthyStr(p.query)
    ensures r.search.Some? ==> r.search == p.query
  {
    GogCatalogRequest(EffectivePage(p), CatalogPageSize, NonEmpty(p.query))
  }

  /** JSON.stringify of the parameters as given; string escaping is not modelled. */
  function ParamsJson(p: GogSearchParams): string {
    var fields :=
      (if p.query.Some? then ["\"query\":\"" + p.query.value + "\""] else [])
      + (if p.page.Some? then ["\"page\":" + NatToString(p.page.value)] else [])
      + (if p.limit.Some? then ["\"limit\":" + NatToString(p.limit.value)] else []);
    "{" + Join(fields, ",") + "}"
  }

  function SearchKey(p: GogSearchParams): string {
    GogSearchPrefix + ParamsJson(p)
  }

  function ProductKey(gameId: nat): string {
    GogProductPrefix + NatToString(gameId)
  }

  function TotalPages(payload: GogCatalogPayload): (r: nat)
    ensures r >= 1
    ensures payload.page.Some? && TruthyNat(payload.page.value.totalPages) ==> r == payload.page.value.totalPages.value
  {
    if payload.page.Some? && TruthyNat(payload.page.value.totalPages) then payload.page.value.totalPages.value else 1
  }

  /**
   * The answer built from a fetched catalogue page: its items (none when
   * missing), the upstream element count unless missing or zero, and whether
   * a later page exists.
   */
  function SearchResultOf(payload: GogCatalogPayload, page: nat): (r: GogSearchResult)
    ensures r.games == if payload.items.Some? then payload.items.value else []
    ensures r.total == if payload.page.Some? && TruthyNat(payload.page.value.totalElements)
                       then payload.page.value.totalElements.value else |r.games|
    ensures r.hasMore <==> page < TotalPages(payload)
    ensures page >= 1 && (payload.page.None? || !TruthyNat(payload.page.value.totalPages)) ==> !r.hasMore
  {
    var games := if payload.items.Some? then payload.items.value else [];
    var total := if payload.page.Some? && TruthyNat(payload.page.value.totalElements)
                 then payload.page.value.totalElements.value else |games|;
    GogSearchResult(games, total, page < TotalPages(payload))
  }

  /**
   * What searchGOGGames answers against the cache `entries`: the cached
   * games (hasMore recomputed) while the entry is live, else the fetched
   * page, else nothing.  The arm for a foreign cached value only makes the
   * function total; a Disciplined cache never holds one there.
   */
  function SearchAnswer(entries: map<string, CacheEntry<CacheValue>>, params: GogSearchParams, now: int,
                        respond: GogCatalogRequest -> nat -> Attempt<GogCatalogPayload>): GogSearchResult
  {
    var hit := Lookup(entries, SearchKey(params), now);
    if hit.Some? then
      if hit.value.GogSearchValue? then
        GogSearchResult(hit.value.items, hit.value.total, |hit.value.items| >= EffectiveLimit(params))
      else GogSearchResult([], 0, false)
    else
      var outcome := Retried(respond(CatalogRequest(params)), 3);
      if outcome.Body? then SearchResultOf(outcome.body, EffectivePage(params)) else GogSearchResult([], 0, false)
  }

  /** What getGOGGameDetails answers against the cache `entries`. */
  function DetailsAnswer(entries: map<string, CacheEntry<CacheValue>>, gameId: nat, now: int,
                         respond: nat -> nat -> Attempt<Option<GOGGameResponse>>): Option<GOGGameResponse>
  {
    var hit := Lookup(entries, ProductKey(gameId), now);
    if hit.Some? then
      if hit.value.GogProductValue? then Some(hit.value.product) else None
    else
      var outcome := Retried(respond(gameId), 3);
      if outcome.Body? then outcome.body else None
  }

  /**
   * The cache after searchGOGGames against `entries`: a live hit leaves it
   * alone, a fetched page's games and total are cached under the search key
   * for eight hours, and a failed fetch only drops the expired entry.
   */
  function SearchCache(entries: map<string, CacheEntry<CacheValue>>, params: GogSearchParams, now: int,
                       respond: GogCatalogRequest -> nat -> Attempt<GogCatalogPayload>): map<string, CacheEntry<CacheValue>>
  {
    var outcome := Retried(respond(CatalogRequest(params)), 3);
    var fetched := if outcome.Body? then var r := SearchResultOf(outcome.body, EffectivePage(params)); Some(GogSearchValue(r.games, r.total)) else None;
    AfterAside(entries, SearchKey(params), now, fetched, GogCacheTtl)
  }

  /** The cache after getGOGGameDetails against `entries`. */
  function DetailsCache(entries: map<string, CacheEntry<CacheValue>>, gameId: nat, now: int,
                        respond: nat -> nat -> Attempt<Option<GOGGameResponse>>): map<string, CacheEntry<CacheValue>>
  {
    var outcome := Retried(respond(gameId), 3);
    var fetched := if outcome.Body? && outcome.body.Some? then Some(GogProductValue(outcome.body.value)) else None;
    AfterAside(entries, ProductKey(gameId), now, fetched, GogCacheTtl)
  }

  /**
   * searchGOGGames: a live cached answer is returned (hasMore recomputed
   * against the requested limit) without a fetch; otherwise the catalogue
   * page is fetched and its games and total cached for eight hours; a failed
   * fetch yields an empty answer and caches nothing.
   */
  method SearchGogGames(cache: TtlCache<CacheValue>, params: GogSearchParams, now: int,
                        respond: GogCatalogRequest -> nat -> Attempt<GogCatalogPayload>)
    returns (result: GogSearchResult, fetched: bool)
    requires Disciplined(cache.entries)
    modifies cache
    ensures Disciplined(cache.entries)
    ensures result == SearchAnswer(old(cache.entries), params, now, respond)
    ensures cache.entries == SearchCache(old(cache.entries), params, now, respond)
    ensures AgreeExcept(old(cache.entries), cache.entries, SearchKey(params))
    ensures Lookup(old(cache.entries), SearchKey(params), now).Some? ==>
      !fetched && cache.entries == old(cache.entries)
      && Lookup(old(cache.entries), SearchKey(params), now).value == GogSearchValue(result.games, result.total)
      && (result.hasMore <==> |result.games| >= EffectiveLimit(params))
    ensures Lookup(old(cache.entries), SearchKey(params), now).None? ==> fetched
    ensures Lookup(old(cache.entries), SearchKey(params), now).None? && Retried(respond(CatalogRequest(params)), 3).Body? ==>
      result == SearchResultOf(Retried(respond(CatalogRequest(params)), 3).body, EffectivePage(params))
      && cache.entries == Store(Evict(old(cache.entries), SearchKey(params), now), SearchKey(params),
                                GogSearchValue(result.games, result.total), GogCacheTtl, now)
    ensures Lookup(old(cache.entries), SearchKey(params), now).None? && Retried(respond(CatalogRequest(params)), 3).Failed? ==>
      result == GogSearchResult([], 0, false) && cache.entries == Evict(old(cache.entries), SearchKey(params), now)
  {
    var key := SearchKey(params);
    KindOfGogKeys(ParamsJson(params));
    DisciplineKept(cache.entries, key, GogSearchValue([], 0), GogCacheTtl, now, _ => false);
    var cached := cache.Get(key, now);
    if cached.Some? {
      HitFits(old(cache.entries), key, now);
      var games := cached.value.items;
      return GogSearchResult(games, cached.value.total, |games| >= EffectiveLimit(params)), false;
    }
    fetched := true;
    var outcome, _, _ := FetchWithRetry(respond(CatalogRequest(params)), 3, 1000);
    if outcome.Body? {
      result := SearchResultOf(outcome.body, EffectivePage(params));
      DisciplineKept(cache.entries, key, GogSearchValue(result.games, result.total), GogCacheTtl, now, _ => false);
      cache.Set(key, GogSearchValue(result.games, result.total), GogCacheTtl, now);
    } else {
      result := GogSearchResult([], 0, false);
    }
  }

  /**
   * getGOGGameDetails: the cached product, or the fetched product when the
   * answer is not null (cached for eight hours).
   */
  method GetGogGameDetails(cache: TtlCache<CacheValue>, gameId: nat, now: int,
                           respond: nat -> nat -> Attempt<Option<GOGGameResponse>>)
    returns (game: Option<GOGGameResponse>, fetched: bool)
    requires Disciplined(cache.entries)
    modifies cache
    ensures Disciplined(cache.entries)
    ensures game == DetailsAnswer(old(cache.entries), gameId, now, respond)
    ensures cache.entries == DetailsCache(old(cache.entries), gameId, now, respond)
    ensures Lookup(old(cache.entries), ProductKey(gameId), now).Some? ==>
      !fetched && cache.entries == old(cache.entries) && game.Some?
      && Lookup(old(cache.entries), ProductKey(gameId), now).value == GogProductValue(game.value)
    ensures Lookup(old(cache.entries), ProductKey(gameId), now).None? ==> fetched
    ensures Lookup(old(cache.entries), ProductKey(gameId), now).None? ==>
      var outcome := Retried(respond(gameId), 3);
      if outcome.Body? && outcome.body.Some? then
        game == outcome.body
        && cache.entries == Store(Evict(old(cache.entries), ProductKey(gameId), now), ProductKey(gameId),
                                  GogProductValue(game.value), GogCacheTtl, now)
      else
        game.None? && cache.entries == Evict(old(cache.entries), ProductKey(gameId), now)
  {
    var key := ProductKey(gameId);
    KindOfGogKeys(NatToString(gameId));
    DisciplineKept(cache.entries, key, GogProductValue(GOGGameResponse(0, "", None, None, None, None, None, None, None, None, None, None)), GogCacheTtl, now, _ => false);
    var cached := cache.Get(key, now);
    if cached.Some? {
      HitFits(old(cache.entries), key, now);
      return Some(cached.value.product), false;
    }
    fetched := true;
    var outcome, _, _ := FetchWithRetry(respond(gameId), 3, 1000);
    if outcome.Body? && outcome.body.Some? {
      game := outcome.body;
      DisciplineKept(cache.entries, key, GogProductValue(game.value), GogCacheTtl, now, _ => false);
      cache.Set(key, GogProductValue(game.value), GogCacheTtl, now);
    } else {
      game := None;
    }
  }

  const FeaturedParams: GogSearchParams := GogSearchParams(None, Some(1), Some(20))
  const DealsParams: GogSearchParams := GogSearchParams(None, Some(1), Some(50))

  /**
   * The cache after a list lookup under `listKey` against `entries`: a live
   * list leaves it alone; otherwise the expired list is dropped, the search
   * with `params` runs against what is left, and the list it yields (all
   * its games, or only the deals) is cached under `listKey` for `ttlMs`.
   */
  function ListCache(entries: map<string, CacheEntry<CacheValue>>, listKey: string, params: GogSearchParams, onlyDeals: bool,
                     ttlMs: int, now: int, respond: GogCatalogRequest -> nat -> Attempt<GogCatalogPayload>): map<string, CacheEntry<CacheValue>>
  {
    if Lookup(entries, listKey, now).Some? then entries
    else
      var searched := SearchCache(Evict(entries, listKey, now), params, now, respond);
      var games := SearchAnswer(entries, params, now, respond).games;
      Store(searched, listKey, GogListValue(if onlyDeals then Deals(games) else games), ttlMs, now)
  }

  /** A list lookup writes only its own key and its search's key. */
  lemma ListCacheFrame(entries: map<string, CacheEntry<CacheValue>>, listKey: string, params: GogSearchParams, onlyDeals: bool,
                       ttlMs: int, now: int, respond: GogCatalogRequest -> nat -> Attempt<GogCatalogPayload>, k: string)
    requires k != listKey && k != SearchKey(params)
    ensures k in ListCache(entries, listKey, params, onlyDeals, ttlMs, now, respond) <==> k in entries
    ensures k in entries ==> ListCache(entries, listKey, params, onlyDeals, ttlMs, now, respond)[k] == entries[k]
  {
    if Lookup(entries, listKey, now).None? {
      var evicted := Evict(entries, listKey, now);
      assert k in evicted <==> k in entries;
      assert AgreeExcept(evicted, SearchCache(evicted, params, now, respond), SearchKey(params));
    }
  }

  /**
   * getFeaturedGOGGames: the cached list, or the games of the first catalogue
   * page, cached for eight hours (an empty answer after a failed search too).
   */
  method GetFeaturedGogGames(cache: TtlCache<CacheValue>, now: int,
                             respond: GogCatalogRequest -> nat -> Attempt<GogCatalogPayload>)
    returns (games: seq<GOGGameResponse>)
    requires Disciplined(cache.entries)
    modifies cache
    ensures Disciplined(cache.entries)
    ensures cache.entries == ListCache(old(cache.entries), GogFeaturedKey, FeaturedParams, false, GogCacheTtl, now, respond)
    ensures Lookup(old(cache.entries), GogFeaturedKey, now).Some? ==>
      cache.entries == old(cache.entries) && Lookup(old(cache.entries), GogFeaturedKey, now).value == GogListValue(games)
    ensures Lookup(old(cache.entries), GogFeaturedKey, now).None? ==>
      games == SearchAnswer(old(cache.entries), FeaturedParams, now, respond).games
      && GogFeaturedKey in cache.entries && cache.entries[GogFeaturedKey] == CacheEntry(GogListValue(games), now + GogCacheTtl)
  {
    KindOfGogKeys("");
    DisciplineKept(cache.entries, GogFeaturedKey, GogListValue([]), GogCacheTtl, now, _ => false);
    var cached := cache.Get(GogFeaturedKey, now);
    if cached.Some? {
      HitFits(old(cache.entries), GogFeaturedKey, now);
      return cached.value.items;
    }
    KindOfGogKeys(ParamsJson(FeaturedParams));
    OtherKeysUnaffected(old(cache.entries), GogFeaturedKey, SearchKey(FeaturedParams), GogListValue([]), GogCacheTtl, now, now);
    var result, _ := SearchGogGames(cache, FeaturedParams, now, respond);
    games := result.games;
    DisciplineKept(cache.entries, GogFeaturedKey, GogListValue(games), GogCacheTtl, now, _ => false);
    cache.Set(GogFeaturedKey, GogListValue(games), GogCacheTtl, now);
  }

  /** A game is a deal when its price carries a positive discount. */
  predicate IsDeal(g: GOGGameResponse) {
    g.price.Some? && TruthyInt(g.price.value.discountPercent) && g.price.value.discountPercent.value > 0
  }

  /** The discounted games, in catalogue order. */
  function Deals(games: seq<GOGGameResponse>): (r: seq<GOGGameResponse>)
    ensures |r| <= |games|
    ensures forall g :: g in r ==> g in games && IsDeal(g)
    ensures forall g :: g in games && IsDeal(g) ==> g in r
  {
    if |games| == 0 then []
    else (if IsDeal(games[0]) then [games[0]] else []) + Deals(games[1..])
  }

  /**
   * getGOGDeals: the cached list, or the discounted games of the first
   * catalogue page, cached for two hours.
   */
  method GetGogDeals(cache: TtlCache<CacheValue>, now: int,
                     respond: GogCatalogRequest -> nat -> Attempt<GogCatalogPayload>)
    returns (deals: seq<GOGGameResponse>)
    requires Disciplined(cache.entries)
    modifies cache
    ensures Disciplined(cache.entries)
    ensures cache.entries == ListCache(old(cache.entries), GogDealsKey, DealsParams, true, GogDealsTtl, now, respond)
    ensures Lookup(old(cache.entries), GogDealsKey, now).Some? ==>
      cache.entries == old(cache.entries) && Lookup(old(cache.entries), GogDealsKey, now).value == GogListValue(deals)
    ensures Lookup(old(cache.entries), GogDealsKey, now).None? ==>
      deals == Deals(SearchAnswer(old(cache.entries), DealsParams, now, respond).games)
      && (forall g :: g in deals ==> IsDeal(g))
      && GogDealsKey in cache.entries && cache.entries[GogDealsKey] == CacheEntry(GogListValue(deals), now + GogDealsTtl)
  {
    KindOfGogKeys("");
    DisciplineKept(cache.entries, GogDealsKey, GogListValue([]), GogDealsTtl, now, _ => false);
    var cached := cache.Get(GogDealsKey, now);
    if cached.Some? {
      HitFits(old(cache.entries), GogDealsKey, now);
      return cached.value.items;
    }
    KindOfGogKeys(ParamsJson(DealsParams));
    OtherKeysUnaffected(old(cache.entries), GogDealsKey, SearchKey(DealsParams), GogListValue([]), GogDealsTtl, now, now);
    var result, _ := SearchGogGames(cache, DealsParams, now, respond);
    deals := Deals(result.games);
    DisciplineKept(cache.entries, GogDealsKey, GogListValue(deals), GogDealsTtl, now, _ => false);
    cache.Set(GogDealsKey, GogListValue(deals), GogDealsTtl, now);
  }
}
