// The adapters share one cache.  Its values are modelled as the union of the
// payloads the adapters store, and every adapter writes a payload kind that
// is fixed by its key prefix; the invariant `Disciplined` records this, so a
// cache hit always has the shape its reader expects.

module AdapterCache {
  import opened Common
  import opened PlatformService

  datatype CacheValue =
    | SteamSearchValue(apps: seq<SteamApp>, total: nat)
    | SteamDetailsValue(details: SteamAppDetails)
    | SteamListValue(apps: seq<SteamApp>)
    | EpicSearchValue(games: seq<EpicGameResponse>, total: nat)
    | EpicProductValue(game: EpicGameResponse)
    | EpicListValue(games: seq<EpicGameResponse>)
    | GogSearchValue(items: seq<GOGGameResponse>, total: nat)
    | GogProductValue(product: GOGGameResponse)
    | GogListValue(items: seq<GOGGameResponse>)

  datatype Kind =
    | SteamSearchKind | SteamDetailsKind | SteamListKind
    | EpicSearchKind | EpicProductKind | EpicListKind
    | GogSearchKind | GogProductKind | GogListKind
    | ForeignKind

  const SteamSearchPrefix: string := "steam:search:"
  const SteamDetailsPrefix: string := "steam:details:"
  const SteamFeaturedKey: string := "steam:featured"
  const EpicSearchPrefix: string := "epic:search:"
  const EpicProductPrefix: string := "epic:product:"
  const EpicFeaturedKey: string := "epic:featured"
  const GogSearchPrefix: string := "gog:search:"
  const GogProductPrefix: string := "gog:product:"
  const GogFeaturedKey: string := "gog:featured"
  const GogDealsKey: string := "gog:deals"

  /** The payload kind a key's prefix names. */
  function KindOf(key: string): Kind {
    if SteamSearchPrefix <= key then SteamSearchKind
    else if SteamDetailsPrefix <= key then SteamDetailsKind
    else if key == SteamFeaturedKey then SteamListKind
    else if EpicSearchPrefix <= key then EpicSearchKind
    else if EpicProductPrefix <= key then EpicProductKind
    else if key == EpicFeaturedKey then EpicListKind
    else if GogSearchPrefix <= key then GogSearchKind
    else if GogProductPrefix <= key then GogProductKind
    else if key == GogFeaturedKey || key == GogDealsKey then GogListKind
    else ForeignKind
  }

  predicate Fits(k: Kind, v: CacheValue) {
    match k
    case SteamSearchKind => v.SteamSearchValue?
    case SteamDetailsKind => v.SteamDetailsValue?
    case SteamListKind => v.SteamListValue?
    case EpicSearchKind => v.EpicSearchValue?
    case EpicProductKind => v.EpicProductValue?
    case EpicListKind => v.EpicListValue?
    case GogSearchKind => v.GogSearchValue?
    case GogProductKind => v.GogProductValue?
    case GogListKind => v.GogListValue?
    case ForeignKind => true
  }

  /** Every entry holds the payload kind its key names. */
  predicate Disciplined(entries: map<string, CacheEntry<CacheValue>>) {
    forall k :: k in entries ==> Fits(KindOf(k), entries[k].data)
  }

  lemma NotPrefix(p: string, key: string, i: nat)
    requires i < |p| && i < |key| && p[i] != key[i]
    ensures !(p <= key)
  {}

  lemma KindOfSteamKeys(s: string)
    ensures KindOf(SteamSearchPrefix + s) == SteamSearchKind
    ensures KindOf(SteamDetailsPrefix + s) == SteamDetailsKind
    ensures KindOf(SteamFeaturedKey) == SteamListKind
  {
    assert SteamSearchPrefix <= SteamSearchPrefix + s;
    NotPrefix(SteamSearchPrefix, SteamDetailsPrefix + s, 6);
    assert SteamDetailsPrefix <= SteamDetailsPrefix + s;
    NotPrefix(SteamSearchPrefix, SteamFeaturedKey, 6);
    NotPrefix(SteamDetailsPrefix, SteamFeaturedKey, 6);
  }

  lemma KindOfEpicKeys(s: string)
    ensures KindOf(EpicSearchPrefix + s) == EpicSearchKind
    ensures KindOf(EpicProductPrefix + s) == EpicProductKind
    ensures KindOf(EpicFeaturedKey) == EpicListKind
  {
    NotPrefix(SteamSearchPrefix, EpicSearchPrefix + s, 0);
    NotPrefix(SteamDetailsPrefix, EpicSearchPrefix + s, 0);
    assert EpicSearchPrefix <= EpicSearchPrefix + s;
    NotPrefix(SteamSearchPrefix, EpicProductPrefix + s, 0);
    NotPrefix(SteamDetailsPrefix, EpicProductPrefix + s, 0);
    NotPrefix(EpicSearchPrefix, EpicProductPrefix + s, 5);
    assert EpicProductPrefix <= EpicProductPrefix + s;
    NotPrefix(SteamSearchPrefix, EpicFeaturedKey, 0);
    NotPrefix(SteamDetailsPrefix, EpicFeaturedKey, 0);
    NotPrefix(EpicSearchPrefix, EpicFeaturedKey, 5);
    NotPrefix(EpicProductPrefix, EpicFeaturedKey, 5);
  }

  lemma KindOfGogKeys(s: string)
    ensures KindOf(GogSearchPrefix + s) == GogSearchKind
    ensures KindOf(GogProductPrefix + s) == GogProductKind
    ensures KindOf(GogFeaturedKey) == GogListKind
    ensures KindOf(GogDealsKey) == GogListKind
  {
    NotPrefix(SteamSearchPrefix, GogSearchPrefix + s, 0);
    NotPrefix(SteamDetailsPrefix, GogSearchPrefix + s, 0);
    NotPrefix(EpicSearchPrefix, GogSearchPrefix + s, 0);
    NotPrefix(EpicProductPrefix, GogSearchPrefix + s, 0);
    assert GogSearchPrefix <= GogSearchPrefix + s;
    NotPrefix(SteamSearchPrefix, GogProductPrefix + s, 0);
    NotPrefix(SteamDetailsPrefix, GogProductPrefix + s, 0);
    NotPrefix(EpicSearchPrefix, GogProductPrefix + s, 0);
    NotPrefix(EpicProductPrefix, GogProductPrefix + s, 0);
    NotPrefix(GogSearchPrefix, GogProductPrefix + s, 4);
    assert GogProductPrefix <= GogProductPrefix + s;
    NotPrefix(SteamSearchPrefix, GogFeaturedKey, 0);
    NotPrefix(SteamDetailsPrefix, GogFeaturedKey, 0);
    NotPrefix(EpicSearchPrefix, GogFeaturedKey, 0);
    NotPrefix(EpicProductPrefix, GogFeaturedKey, 0);
    NotPrefix(GogSearchPrefix, GogFeaturedKey, 4);
    NotPrefix(GogProductPrefix, GogFeaturedKey, 4);
    NotPrefix(SteamSearchPrefix, GogDealsKey, 0);
    NotPrefix(SteamDetailsPrefix, GogDealsKey, 0);
    NotPrefix(EpicSearchPrefix, GogDealsKey, 0);
    NotPrefix(EpicProductPrefix, GogDealsKey, 0);
    NotPrefix(GogSearchPrefix, GogDealsKey, 4);
    NotPrefix(GogProductPrefix, GogDealsKey, 4);
  }

  /** Reading, writing a fitting value, invalidating and clearing keep the discipline. */
  lemma DisciplineKept(entries: map<string, CacheEntry<CacheValue>>, key: string, v: CacheValue, ttlMs: int, now: int, matches: string -> bool)
    requires Disciplined(entries)
    ensures Disciplined(Evict(entries, key, now))
    ensures Fits(KindOf(key), v) ==> Disciplined(Store(entries, key, v, ttlMs, now))
    ensures Disciplined(Without(entries, matches))
    ensures Disciplined(map[])
  {}

  /** A hit under a disciplined key has the kind the key names. */
  lemma HitFits(entries: map<string, CacheEntry<CacheValue>>, key: string, now: int)
    requires Disciplined(entries)
    requires Lookup(entries, key, now).Some?
    ensures Fits(KindOf(key), Lookup(entries, key, now).value)
  {}
}
