// The Steam adapter: cache-aside lookups of the app list (filtered by name),
// of one app's details, of a featured list, and of an app's price.  The
// network is the function `respond` from a request and an attempt number to
// what that attempt produced; each lookup goes through the retrying fetch
// (three attempts, one second base delay) and a failure yields the empty
// answer without caching it.

module SteamAdapter {
  import opened Common
  import opened PlatformService
  import opened AdapterCache

  /** Twelve hours: Steam data changes slowly. */
  const SteamCacheTtl: int := 12 * 60 * 60 * 1000
  const FeaturedCount: nat := 20

  datatype SteamSearchResult = SteamSearchResult(games: seq<SteamApp>, total: nat)

  datatype SteamPrice = SteamPrice(price: real, originalPrice: real, discountPercent: int, currency: string)

  function SearchKey(query: Option<string>): string {
    SteamSearchPrefix + StrOr(query, "all")
  }

  function DetailsKey(appId: string): string {
    SteamDetailsPrefix + appId
  }

  /** Case-insensitive containment of the query in the app name. */
  predicate NameMatches(name: string, query: string) {
    Includes(Lower(name), Lower(query))
  }

  function FilterByName(apps: seq<RawSteamApp>, query: string): (r: seq<RawSteamApp>)
    ensures |r| <= |apps|
    ensures forall a :: a in r ==> a in apps && NameMatches(a.name, query)
    ensures forall a :: a in apps && NameMatches(a.name, query) ==> a in r
  {
    if |apps| == 0 then []
    else (if NameMatches(apps[0].name, query) then [apps[0]] else []) + FilterByName(apps[1..], query)
  }

  function ToSteamApps(apps: seq<RawSteamApp>): (r: seq<SteamApp>)
    ensures |r| == |apps|
    ensures forall i :: 0 <= i < |apps| ==> r[i] == SteamApp(NatToString(apps[i].appid), apps[i].name)
  {
    if |apps| == 0 then [] else [SteamApp(NatToString(apps[0].appid), apps[0].name)] + ToSteamApps(apps[1..])
  }

  /** Each converted app comes from one of the raw apps, and each raw app is converted. */
  lemma ToSteamAppsMembers(apps: seq<RawSteamApp>)
    ensures forall g :: g in ToSteamApps(apps) ==> exists a :: a in apps && g == SteamApp(NatToString(a.appid), a.name)
    ensures forall a :: a in apps ==> SteamApp(NatToString(a.appid), a.name) in ToSteamApps(apps)
  {
    var games := ToSteamApps(apps);
    forall g | g in games ensures exists a :: a in apps && g == SteamApp(NatToString(a.appid), a.name) {
      var i :| 0 <= i < |games| && games[i] == g;
      assert apps[i] in apps;
    }
    forall a | a in apps ensures SteamApp(NatToString(a.appid), a.name) in games {
      var i :| 0 <= i < |apps| && apps[i] == a;
      assert games[i] == SteamApp(NatToString(a.appid), a.name);
    }
  }

  /**
   * The answer built from a fetched app list (a missing list is empty):
   * with a non-empty query exactly the apps whose name contains it, ignoring
   * case; the total is the number of games returned.
   */
  function SearchResultOf(query: Option<string>, apps: Option<seq<RawSteamApp>>): (r: SteamSearchResult)
    ensures r.total == |r.games|
    ensures !TruthyStr(query) ==> r.games == ToSteamApps(if apps.Some? then apps.value else [])
    ensures TruthyStr(query) ==> forall g :: g in r.games ==> NameMatches(g.name, query.value)
    ensures TruthyStr(query) && apps.Some? ==>
      forall a :: a in apps.value && NameMatches(a.name, query.value) ==> SteamApp(NatToString(a.appid), a.name) in r.games
    ensures apps.Some? ==> forall g :: g in r.games ==> exists a :: a in apps.value && g == SteamApp(NatToString(a.appid), a.name)
  {
    var all := if apps.Some? then apps.value else [];
    var kept := if TruthyStr(query) then FilterByName(all, query.value) else all;
    var games := ToSteamApps(kept);
    ToSteamAppsMembers(kept);
    SteamSearchResult(games, |kept|)
  }

  /**
   * What searchSteamGames answers against the cache `entries`: the cached
   * search while it is live, else the filtered fetch, else no games.  (A
   * live search key holds a search value whenever the cache is Disciplined;
   * the last match arm only makes the function total.)
   */
  function SearchAnswer(entries: map<string, CacheEntry<CacheValue>>, query: Option<string>, now: int,
                        appList: nat -> Attempt<Option<seq<RawSteamApp>>>): SteamSearchResult
  {
    var hit := Lookup(entries, SearchKey(query), now);
    if hit.Some? then
      if hit.value.SteamSearchValue? then SteamSearchResult(hit.value.apps, hit.value.total) else SteamSearchResult([], 0)
    else
      var outcome := Retried(appList, 3);
      if outcome.Body? then SearchResultOf(query, outcome.body) else SteamSearchResult([], 0)
  }

  /** What getSteamGameDetails answers against the cache `entries`. */
  function DetailsAnswer(entries: map<string, CacheEntry<CacheValue>>, appId: string, now: int,
                         appDetails: string -> nat -> Attempt<map<string, SteamAppDetails>>): Option<SteamAppDetails>
  {
    var hit := Lookup(entries, DetailsKey(appId), now);
    if hit.Some? then
      if hit.value.SteamDetailsValue? then Some(hit.value.details) else None
    else
      var outcome := Retried(appDetails(appId), 3);
      if outcome.Body? && appId in outcome.body then Some(outcome.body[appId]) else None
  }

  /**
   * The cache after searchSteamGames against `entries`: a live hit leaves it
   * alone, a fetched answer is cached under the search key for twelve hours,
   * and a failed fetch only drops the expired entry.
   */
  function SearchCache(entries: map<string, CacheEntry<CacheValue>>, query: Option<string>, now: int,
                       appList: nat -> Attempt<Option<seq<RawSteamApp>>>): map<string, CacheEntry<CacheValue>>
  {
    var outcome := Retried(appList, 3);
    var fetched := if outcome.Body? then var r := SearchResultOf(query, outcome.body); Some(SteamSearchValue(r.games, r.total)) else None;
    AfterAside(entries, SearchKey(query), now, fetched, SteamCacheTtl)
  }

  /** The cache after getSteamGameDetails against `entries`. */
  function DetailsCache(entries: map<string, CacheEntry<CacheValue>>, appId: string, now: int,
                        appDetails: string -> nat -> Attempt<map<string, SteamAppDetails>>): map<string, CacheEntry<CacheValue>>
  {
    var outcome := Retried(appDetails(appId), 3);
    var fetched := if outcome.Body? && appId in outcome.body then Some(SteamDetailsValue(outcome.body[appId])) else None;
    AfterAside(entries, DetailsKey(appId), now, fetched, SteamCacheTtl)
  }

  /**
   * searchSteamGames: a live cached answer is returned without a fetch;
   * otherwise the app list is fetched, filtered, cached for twelve hours and
   * returned; a failed fetch yields no games and caches nothing.
   */
  method SearchSteamGames(cache: TtlCache<CacheValue>, query: Option<string>, now: int,
                          appList: nat -> Attempt<Option<seq<RawSteamApp>>>)
    returns (result: SteamSearchResult, fetched: bool)
    requires Disciplined(cache.entries)
    modifies cache
    ensures Disciplined(cache.entries)
    ensures result == SearchAnswer(old(cache.entries), query, now, appList)
    ensures cache.entries == SearchCache(old(cache.entries), query, now, appList)
    ensures AgreeExcept(old(cache.entries), cache.entries, SearchKey(query))
    ensures Lookup(old(cache.entries), SearchKey(query), now).Some? ==>
      !fetched && cache.entries == old(cache.entries)
      && Lookup(old(cache.entries), SearchKey(query), now).value == SteamSearchValue(result.games, result.total)
    ensures Lookup(old(cache.entries), SearchKey(query), now).None? ==> fetched
    ensures Lookup(old(cache.entries), SearchKey(query), now).None? && Retried(appList, 3).Body? ==>
      result == SearchResultOf(query, Retried(appList, 3).body)
      && cache.entries == Store(Evict(old(cache.entries), SearchKey(query), now), SearchKey(query), SteamSearchValue(result.games, result.total), SteamCacheTtl, now)
    ensures Lookup(old(cache.entries), SearchKey(query), now).None? && Retried(appList, 3).Failed? ==>
      result == SteamSearchResult([], 0) && cache.entries == Evict(old(cache.entries), SearchKey(query), now)
  {
    var key := SearchKey(query);
    KindOfSteamKeys(StrOr(query, "all"));
    DisciplineKept(cache.entries, key, SteamSearchValue([], 0), SteamCacheTtl, now, _ => false);
    var cached := cache.Get(key, now);
    if cached.Some? {
      HitFits(old(cache.entries), key, now);
      return SteamSearchResult(cached.value.apps, cached.value.total), false;
    }
    fetched := true;
    var outcome, _, _ := FetchWithRetry(appList, 3, 1000);
    if outcome.Body? {
      result := SearchResultOf(query, outcome.body);
      DisciplineKept(cache.entries, key, SteamSearchValue(result.games, result.total), SteamCacheTtl, now, _ => false);
      cache.Set(key, SteamSearchValue(result.games, result.total), SteamCacheTtl, now);
    } else {
      result := SteamSearchResult([], 0);
    }
  }

  /**
   * getSteamGameDetails: the cached details, or the entry for `appId` in
   * the fetched answer (cached for twelve hours); None when the answer has
   * no such entry or the fetch failed.
   */
  method GetSteamGameDetails(cache: TtlCache<CacheValue>, appId: string, now: int,
                             appDetails: string -> nat -> Attempt<map<string, SteamAppDetails>>)
    returns (details: Option<SteamAppDetails>, fetched: bool)
    requires Disciplined(cache.entries)
    modifies cache
    ensures Disciplined(cache.entries)
    ensures details == DetailsAnswer(old(cache.entries), appId, now, appDetails)
    ensures cache.entries == DetailsCache(old(cache.entries), appId, now, appDetails)
    ensures Lookup(old(cache.entries), DetailsKey(appId), now).Some? ==>
      !fetched && cache.entries == old(cache.entries) && details.Some?
      && Lookup(old(cache.entries), DetailsKey(appId), now).value == SteamDetailsValue(details.value)
    ensures Lookup(old(cache.entries), DetailsKey(appId), now).None? ==> fetched
    ensures Lookup(old(cache.entries), DetailsKey(appId), now).None? ==>
      var outcome := Retried(appDetails(appId), 3);
      if outcome.Body? && appId in outcome.body then
        details == Some(outcome.body[appId])
        && cache.entries == Store(Evict(old(cache.entries), DetailsKey(appId), now), DetailsKey(appId), SteamDetailsValue(outcome.body[appId]), SteamCacheTtl, now)
      else
        details.None? && cache.entries == Evict(old(cache.entries), DetailsKey(appId), now)
  {
    var key := DetailsKey(appId);
    KindOfSteamKeys(appId);
    DisciplineKept(cache.entries, key, SteamDetailsValue(SteamAppDetails(false, None)), SteamCacheTtl, now, _ => false);
    var cached := cache.Get(key, now);
    if cached.Some? {
      HitFits(old(cache.entries), key, now);
      return Some(cached.value.details), false;
    }
    fetched := true;
    var outcome, _, _ := FetchWithRetry(appDetails(appId), 3, 1000);
    if outcome.Body? && appId in outcome.body {
      var entry := outcome.body[appId];
      DisciplineKept(cache.entries, key, SteamDetailsValue(entry), SteamCacheTtl, now, _ => false);
      cache.Set(key, SteamDetailsValue(entry), SteamCacheTtl, now);
      details := Some(entry);
    } else {
      details := None;
    }
  }

  /**
   * The cache after getFeaturedSteamGames against `entries`: a live featured
   * list leaves it alone; otherwise the expired list is dropped, the
   * unfiltered search runs against what is left, and its first twenty games
   * are cached under the featured key for twelve hours.
   */
  function FeaturedCache(entries: map<string, CacheEntry<CacheValue>>, now: int,
                         appList: nat -> Attempt<Option<seq<RawSteamApp>>>): map<string, CacheEntry<CacheValue>>
  {
    if Lookup(entries, SteamFeaturedKey, now).Some? then entries
    else
      var searched := SearchCache(Evict(entries, SteamFeaturedKey, now), None, now, appList);
      Store(searched, SteamFeaturedKey, SteamListValue(Take(SearchAnswer(entries, None, now, appList).games, FeaturedCount)), SteamCacheTtl, now)
  }

  /**
   * A featured lookup writes only the featured key and the key of the
   * unfiltered search: every other entry is kept as it was.
   */
  lemma FeaturedCacheFrame(entries: map<string, CacheEntry<CacheValue>>, now: int,
                           appList: nat -> Attempt<Option<seq<RawSteamApp>>>, k: string)
    requires k != SteamFeaturedKey && k != SearchKey(None)
    ensures k in FeaturedCache(entries, now, appList) <==> k in entries
    ensures k in entries ==> FeaturedCache(entries, now, appList)[k] == entries[k]
  {
    if Lookup(entries, SteamFeaturedKey, now).None? {
      var evicted := Evict(entries, SteamFeaturedKey, now);
      assert k in evicted <==> k in entries;
      assert AgreeExcept(evicted, SearchCache(evicted, None, now, appList), SearchKey(None));
    }
  }

  /**
   * getFeaturedSteamGames: the cached list, or the first twenty games of the
   * unfiltered search, cached for twelve hours.
   */
  method GetFeaturedSteamGames(cache: TtlCache<CacheValue>, now: int, appList: nat -> Attempt<Option<seq<RawSteamApp>>>)
    returns (featured: seq<SteamApp>)
    requires Disciplined(cache.entries)
    modifies cache
    ensures Disciplined(cache.entries)
    ensures cache.entries == FeaturedCache(old(cache.entries), now, appList)
    ensures Lookup(old(cache.entries), SteamFeaturedKey, now).Some? ==>
      cache.entries == old(cache.entries)
      && Lookup(old(cache.entries), SteamFeaturedKey, now).value == SteamListValue(featured)
    ensures Lookup(old(cache.entries), SteamFeaturedKey, now).None? ==>
      featured == Take(SearchAnswer(old(cache.entries), None, now, appList).games, FeaturedCount)
      && |featured| <= FeaturedCount
      && SteamFeaturedKey in cache.entries
      && cache.entries[SteamFeaturedKey] == CacheEntry(SteamListValue(featured), now + SteamCacheTtl)
  {
    KindOfSteamKeys("");
    DisciplineKept(cache.entries, SteamFeaturedKey, SteamListValue([]), SteamCacheTtl, now, _ => false);
    var cached := cache.Get(SteamFeaturedKey, now);
    if cached.Some? {
      HitFits(old(cache.entries), SteamFeaturedKey, now);
      return cached.value.apps;
    }
    KindOfSteamKeys(StrOr(None, "all"));
    OtherKeysUnaffected(old(cache.entries), SteamFeaturedKey, SearchKey(None), SteamListValue([]), SteamCacheTtl, now, now);
    var all, _ := SearchSteamGames(cache, None, now, appList);
    featured := Take(all.games, FeaturedCount);
    DisciplineKept(cache.entries, SteamFeaturedKey, SteamListValue(featured), SteamCacheTtl, now, _ => false);
    cache.Set(SteamFeaturedKey, SteamListValue(featured), SteamCacheTtl, now);
  }

  /**
   * The price part of getSteamPrice: present exactly when the details carry
   * price data; amounts are converted from cents.
   */
  function SteamPriceOf(details: Option<SteamAppDetails>): (r: Option<SteamPrice>)
    ensures r.Some? <==> details.Some? && details.value.data.Some? && details.value.data.value.priceData.Some?
    ensures r.Some? ==>
      var p := details.value.data.value.priceData.value;
      r.value.price * 100.0 == p.final as real && r.value.originalPrice * 100.0 == p.initial as real
      && r.value.discountPercent == p.discountPercent && r.value.currency == p.currency
  {
    if details.Some? && details.value.data.Some? && details.value.data.value.priceData.Some? then
      var p := details.value.data.value.priceData.value;
      Some(SteamPrice(p.final as real / 100.0, p.initial as real / 100.0, p.discountPercent, p.currency))
    else None
  }

  /** getSteamPrice: the price of the (possibly cached) details of `appId`. */
  method GetSteamPrice(cache: TtlCache<CacheValue>, appId: string, now: int,
                       appDetails: string -> nat -> Attempt<map<string, SteamAppDetails>>)
    returns (price: Option<SteamPrice>, details: Option<SteamAppDetails>)
    requires Disciplined(cache.entries)
    modifies cache
    ensures Disciplined(cache.entries)
    ensures price == SteamPriceOf(details)
    ensures details == DetailsAnswer(old(cache.entries), appId, now, appDetails)
    ensures cache.entries == DetailsCache(old(cache.entries), appId, now, appDetails)
    ensures Lookup(old(cache.entries), DetailsKey(appId), now).Some? ==>
      details.Some? && Lookup(old(cache.entries), DetailsKey(appId), now).value == SteamDetailsValue(details.value)
  {
    var fetched;
    details, fetched := GetSteamGameDetails(cache, appId, now, appDetails);
    price := SteamPriceOf(details);
  }
}
