// The Epic Games Store adapter: cache-aside catalogue search, product lookup
// by slug and a featured list.  The catalogue answers a GraphQL request whose
// variables are built from the search parameters with their defaults.

module EpicAdapter {
  import opened Common
  import opened PlatformService
  import opened AdapterCache

  /** Eight hours. */
  const EpicCacheTtl: int := 8 * 60 * 60 * 1000
  const DefaultCount: nat := 50

  /** The caller's parameters; an absent field takes its default. */
  datatype EpicSearchParams = EpicSearchParams(
    query: Option<string>,
    category: Option<string>,
    offset: Option<nat>,
    count: Option<nat>,
    sortBy: Option<string>,
    sortDir: Option<string>)

  /** The variables of the catalogue request (country and locale are fixed to US / en-US). */
  datatype EpicRequest =
    | CatalogSearch(category: string, count: nat, keywords: Option<string>, offset: nat, sortBy: string, sortDir: string, start: nat)
    | ProductLookup(slug: string)

  /** data.Catalog.searchStore of the answer; None when any step of the path is missing. */
  datatype EpicSearchStore = EpicSearchStore(elements: Option<seq<EpicGameResponse>>, pagingTotal: Option<nat>)

  datatype EpicSearchResult = EpicSearchResult(games: seq<EpicGameResponse>, total: nat, hasMore: bool)

  function EffectiveCount(p: EpicSearchParams): nat {
    if p.count.Some? then p.count.value else DefaultCount
  }

  /** The request variables: offset 0, count 50, relevancy, DESC and category 'games' by default. */
  function SearchRequest(p: EpicSearchParams): (r: EpicRequest)
    ensures r.CatalogSearch?
    ensures r.count == EffectiveCount(p) && r.keywords == p.query
    ensures r.offset == r.start == (if p.offset.Some? then p.offset.value else 0)
    ensures r.sortBy == (if p.sortBy.Some? then p.sortBy.value else "relevancy")
    ensures r.sortDir == (if p.sortDir.Some? then p.sortDir.value else "DESC")
    ensures r.category == StrOr(p.category, "games")
  {
    var offset := if p.offset.Some? then p.offset.value else 0;
    CatalogSearch(
      StrOr(p.category, "games"),
      EffectiveCount(p),
      p.query,
      offset,
      if p.sortBy.Some? then p.sortBy.value else "relevancy",
      if p.sortDir.Some? then p.sortDir.value else "DESC",
      offset)
  }

  function JsonString(s: string): string {
    "\"" + s + "\""
  }

  function JsonField(name: string, value: string): string {
    JsonString(name) + ":" + value
  }

  /**
   * JSON.stringify of the parameters as given (absent fields are omitted, so
   * an explicit default and an absent field give different keys).  String
   * escaping is not modelled.
   */
  function ParamsJson(p: EpicSearchParams): string {
    var fields :=
      (if p.query.Some? then [JsonField("query", JsonString(p.query.value))] else [])
      + (if p.category.Some? then [JsonField("category", JsonString(p.category.value))] else [])
      + (if p.offset.Some? then [JsonField("offset", NatToString(p.offset.value))] else [])
      + (if p.count.Some? then [JsonField("count", NatToString(p.count.value))] else [])
      + (if p.sortBy.Some? then [JsonField("sortBy", JsonString(p.sortBy.value))] else [])
      + (if p.sortDir.Some? then [JsonField("sortDir", JsonString(p.sortDir.value))] else []);
    "{" + Join(fields, ",") + "}"
  }

  function SearchKey(p: EpicSearchParams): string {
    EpicSearchPrefix + ParamsJson(p)
  }

  function ProductKey(slug: string): string {
    EpicProductPrefix + slug
  }

  /**
   * The answer built from a fetched search store: the elements (none when
   * missing), the upstream total unless it is missing or zero, and whether
   * a full page came back.
   */
  function SearchResultOf(store: Option<EpicSearchStore>, count: nat): (r: EpicSearchResult)
    ensures r.hasMore <==> |r.games| >= count
    ensures store.None? || store.value.elements.None? ==> r.games == []
    ensures store.Some? && store.value.elements.Some? ==> r.games == store.value.elements.value
    ensures r.total == if store.Some? && TruthyNat(store.value.pagingTotal) then store.value.pagingTotal.value else |r.games|
  {
    var elements := if store.Some? && store.value.elements.Some? then store.value.elements.value else [];
    var total := if store.Some? && TruthyNat(store.value.pagingTotal) then store.value.pagingTotal.value else |elements|;
    EpicSearchResult(elements, total, |elements| >= count)
  }

  /**
   * What searchEpicGames answers against the cache `entries`: the cached
   * games (hasMore recomputed) while the entry is live, else the fetched
   * store's elements, else nothing.  The arm for a foreign cached value only
   * makes the function total; a Disciplined cache never holds one there.
   */
  function SearchAnswer(entries: map<string, CacheEntry<CacheValue>>, params: EpicSearchParams, now: int,
                        respond: EpicRequest -> nat -> Attempt<Option<EpicSearchStore>>): EpicSearchResult
  {
    var hit := Lookup(entries, SearchKey(params), now);
    if hit.Some? then
      if hit.value.EpicSearchValue? then
        EpicSearchResult(hit.value.games, hit.value.total, |hit.value.games| >= EffectiveCount(params))
      else EpicSearchResult([], 0, false)
    else
      var outcome := Retried(respond(SearchRequest(params)), 3);
      if outcome.Body? then SearchResultOf(outcome.body, EffectiveCount(params)) else EpicSearchResult([], 0, false)
  }

  /** What getEpicGameDetails answers against the cache `entries`. */
  function DetailsAnswer(entries: map<string, CacheEntry<CacheValue>>, slug: string, now: int,
                         respond: EpicRequest -> nat -> Attempt<Option<EpicSearchStore>>): Option<EpicGameResponse>
  {
    var hit := Lookup(entries, ProductKey(slug), now);
    if hit.Some? then
      if hit.value.EpicProductValue? then Some(hit.value.game) else None
    else
      var outcome := Retried(respond(ProductLookup(slug)), 3);
      if outcome.Body? then FirstElement(outcome.body) else None
  }

  /**
   * The cache after searchEpicGames against `entries`: a live hit leaves it
   * alone, a fetched answer's games and total are cached under the search
   * key for eight hours, and a failed fetch only drops the expired entry.
   */
  function SearchCache(entries: map<string, CacheEntry<CacheValue>>, params: EpicSearchParams, now: int,
                       respond: EpicRequest -> nat -> Attempt<Option<EpicSearchStore>>): map<string, CacheEntry<CacheValue>>
  {
    var outcome := Retried(respond(SearchRequest(params)), 3);
    var fetched := if outcome.Body? then var r := SearchResultOf(outcome.body, EffectiveCount(params)); Some(EpicSearchValue(r.games, r.total)) else None;
    AfterAside(entries, SearchKey(params), now, fetched, EpicCacheTtl)
  }

  /** The cache after getEpicGameDetails against `entries`. */
  function DetailsCache(entries: map<string, CacheEntry<CacheValue>>, slug: string, now: int,
                        respond: EpicRequest -> nat -> Attempt<Option<EpicSearchStore>>): map<string, CacheEntry<CacheValue>>
  {
    var outcome := Retried(respond(ProductLookup(slug)), 3);
    var first := if outcome.Body? then FirstElement(outcome.body) else None;
    var fetched := if first.Some? then Some(EpicProductValue(first.value)) else None;
    AfterAside(entries, ProductKey(slug), now, fetched, EpicCacheTtl)
  }

  /**
   * searchEpicGames: a live cached answer is returned (hasMore recomputed
   * against the requested count) without a fetch; otherwise the catalogue
   * is queried, the games and total are cached for eight hours; a failed
   * fetch yields an empty answer and caches nothing.
   */
  method SearchEpicGames(cache: TtlCache<CacheValue>, params: EpicSearchParams, now: int,
                         respond: EpicRequest -> nat -> Attempt<Option<EpicSearchStore>>)
    returns (result: EpicSearchResult, fetched: bool)
    requires Disciplined(cache.entries)
    modifies cache
    ensures Disciplined(cache.entries)
    ensures result == SearchAnswer(old(cache.entries), params, now, respond)
    ensures cache.entries == SearchCache(old(cache.entries), params, now, respond)
    ensures AgreeExcept(old(cache.entries), cache.entries, SearchKey(params))
    ensures Lookup(old(cache.entries), SearchKey(params), now).Some? ==>
      !fetched && cache.entries == old(cache.entries)
      && Lookup(old(cache.entries), SearchKey(params), now).value == EpicSearchValue(result.games, result.total)
      && (result.hasMore <==> |result.games| >= EffectiveCount(params))
    ensures Lookup(old(cache.entries), SearchKey(params), now).None? ==> fetched
    ensures Lookup(old(cache.entries), SearchKey(params), now).None? && Retried(respond(SearchRequest(params)), 3).Body? ==>
      result == SearchResultOf(Retried(respond(SearchRequest(params)), 3).body, EffectiveCount(params))
      && cache.entries == Store(Evict(old(cache.entries), SearchKey(params), now), SearchKey(params),
                                EpicSearchValue(result.games, result.total), EpicCacheTtl, now)
    ensures Lookup(old(cache.entries), SearchKey(params), now).None? && Retried(respond(SearchRequest(params)), 3).Failed? ==>
      result == EpicSearchResult([], 0, false) && cache.entries == Evict(old(cache.entries), SearchKey(params), now)
  {
    var key := SearchKey(params);
    var count := EffectiveCount(params);
    KindOfEpicKeys(ParamsJson(params));
    DisciplineKept(cache.entries, key, EpicSearchValue([], 0), EpicCacheTtl, now, _ => false);
    var cached := cache.Get(key, now);
    if cached.Some? {
      HitFits(old(cache.entries), key, now);
      var games := cached.value.games;
      return EpicSearchResult(games, cached.value.total, |games| >= count), false;
    }
    fetched := true;
    var outcome, _, _ := FetchWithRetry(respond(SearchRequest(params)), 3, 1000);
    if outcome.Body? {
      result := SearchResultOf(outcome.body, count);
      DisciplineKept(cache.entries, key, EpicSearchValue(result.games, result.total), EpicCacheTtl, now, _ => false);
      cache.Set(key, EpicSearchValue(result.games, result.total), EpicCacheTtl, now);
    } else {
      result := EpicSearchResult([], 0, false);
    }
  }

  /** The first element of a fetched search store, if there is one. */
  function FirstElement(store: Option<EpicSearchStore>): (r: Option<EpicGameResponse>)
    ensures r.Some? <==> store.Some? && store.value.elements.Some? && |store.value.elements.value| > 0
    ensures r.Some? ==> r.value == store.value.elements.value[0]
  {
    if store.Some? && store.value.elements.Some? && |store.value.elements.value| > 0
    then Some(store.value.elements.value[0]) else None
  }

  /**
   * getEpicGameDetails: the cached product, or the first element the
   * catalogue returns for the slug as keywords (cached for eight hours).
   */
  method GetEpicGameDetails(cache: TtlCache<CacheValue>, slug: string, now: int,
                            respond: EpicRequest -> nat -> Attempt<Option<EpicSearchStore>>)
    returns (game: Option<EpicGameResponse>, fetched: bool)
    requires Disciplined(cache.entries)
    modifies cache
    ensures Disciplined(cache.entries)
    ensures game == DetailsAnswer(old(cache.entries), slug, now, respond)
    ensures cache.entries == DetailsCache(old(cache.entries), slug, now, respond)
    ensures Lookup(old(cache.entries), ProductKey(slug), now).Some? ==>
      !fetched && cache.entries == old(cache.entries) && game.Some?
      && Lookup(old(cache.entries), ProductKey(slug), now).value == EpicProductValue(game.value)
    ensures Lookup(old(cache.entries), ProductKey(slug), now).None? ==> fetched
    ensures Lookup(old(cache.entries), ProductKey(slug), now).None? ==>
      var outcome := Retried(respond(ProductLookup(slug)), 3);
      if outcome.Body? && FirstElement(outcome.body).Some? then
        game == FirstElement(outcome.body)
        && cache.entries == Store(Evict(old(cache.entries), ProductKey(slug), now), ProductKey(slug),
                                  EpicProductValue(game.value), EpicCacheTtl, now)
      else
        game.None? && cache.entries == Evict(old(cache.entries), ProductKey(slug), now)
  {
    var key := ProductKey(slug);
    KindOfEpicKeys(slug);
    DisciplineKept(cache.entries, key, EpicProductValue(EpicGameResponse("", "", None, None, None, None, None, None, None, None, None)), EpicCacheTtl, now, _ => false);
    var cached := cache.Get(key, now);
    if cached.Some? {
      HitFits(old(cache.entries), key, now);
      return Some(cached.value.game), false;
    }
    fetched := true;
    var outcome, _, _ := FetchWithRetry(respond(ProductLookup(slug)), 3, 1000);
    if outcome.Body? && FirstElement(outcome.body).Some? {
      game := FirstElement(outcome.body);
      DisciplineKept(cache.entries, key, EpicProductValue(game.value), EpicCacheTtl, now, _ => false);
      cache.Set(key, EpicProductValue(game.value), EpicCacheTtl, now);
    } else {
      game := None;
    }
  }

  /** The parameters of the featured list: base games by popularity, twenty of them. */
  const FeaturedParams: EpicSearchParams :=
    EpicSearchParams(None, Some("games/edition/base"), None, Some(20), Some("popularity"), None)

  /**
   * The cache after getFeaturedEpicGames against `entries`: a live featured
   * list leaves it alone; otherwise the expired list is dropped, the
   * featured search runs against what is left, and its games are cached
   * under the featured key for eight hours.
   */
  function FeaturedCache(entries: map<string, CacheEntry<CacheValue>>, now: int,
                         respond: EpicRequest -> nat -> Attempt<Option<EpicSearchStore>>): map<string, CacheEntry<CacheValue>>
  {
    if Lookup(entries, EpicFeaturedKey, now).Some? then entries
    else
      var searched := SearchCache(Evict(entries, EpicFeaturedKey, now), FeaturedParams, now, respond);
      Store(searched, EpicFeaturedKey, EpicListValue(SearchAnswer(entries, FeaturedParams, now, respond).games), EpicCacheTtl, now)
  }

  /** A featured lookup writes only the featured key and the featured search's key. */
  lemma FeaturedCacheFrame(entries: map<string, CacheEntry<CacheValue>>, now: int,
                           respond: EpicRequest -> nat -> Attempt<Option<EpicSearchStore>>, k: string)
    requires k != EpicFeaturedKey && k != SearchKey(FeaturedParams)
    ensures k in FeaturedCache(entries, now, respond) <==> k in entries
    ensures k in entries ==> FeaturedCache(entries, now, respond)[k] == entries[k]
  {
    if Lookup(entries, EpicFeaturedKey, now).None? {
      var evicted := Evict(entries, EpicFeaturedKey, now);
      assert k in evicted <==> k in entries;
      assert AgreeExcept(evicted, SearchCache(evicted, FeaturedParams, now, respond), SearchKey(FeaturedParams));
    }
  }

  /**
   * getFeaturedEpicGames: the cached list, or the games of the featured
   * search, cached for eight hours (an empty answer after a failed search is
   * cached as well).
   */
  method GetFeaturedEpicGames(cache: TtlCache<CacheValue>, now: int,
                              respond: EpicRequest -> nat -> Attempt<Option<EpicSearchStore>>)
    returns (games: seq<EpicGameResponse>)
    requires Disciplined(cache.entries)
    modifies cache
    ensures Disciplined(cache.entries)
    ensures cache.entries == FeaturedCache(old(cache.entries), now, respond)
    ensures Lookup(old(cache.entries), EpicFeaturedKey, now).Some? ==>
      cache.entries == old(cache.entries) && Lookup(old(cache.entries), EpicFeaturedKey, now).value == EpicListValue(games)
    ensures Lookup(old(cache.entries), EpicFeaturedKey, now).None? ==>
      games == SearchAnswer(old(cache.entries), FeaturedParams, now, respond).games
      && EpicFeaturedKey in cache.entries && cache.entries[EpicFeaturedKey] == CacheEntry(EpicListValue(games), now + EpicCacheTtl)
  {
    KindOfEpicKeys("");
    DisciplineKept(cache.entries, EpicFeaturedKey, EpicListValue([]), EpicCacheTtl, now, _ => false);
    var cached := cache.Get(EpicFeaturedKey, now);
    if cached.Some? {
      HitFits(old(cache.entries), EpicFeaturedKey, now);
      return cached.value.games;
    }
    KindOfEpicKeys(ParamsJson(FeaturedParams));
    OtherKeysUnaffected(old(cache.entries), EpicFeaturedKey, SearchKey(FeaturedParams), EpicListValue([]), EpicCacheTtl, now, now);
    var result, _ := SearchEpicGames(cache, FeaturedParams, now, respond);
    games := result.games;
    DisciplineKept(cache.entries, EpicFeaturedKey, EpicListValue(games), EpicCacheTtl, now, _ => false);
    cache.Set(EpicFeaturedKey, EpicListValue(games), EpicCacheTtl, now);
  }
}
