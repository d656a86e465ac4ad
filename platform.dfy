// The shared platform layer: the in-memory TTL cache every adapter uses,
// the retrying fetch with exponential back-off, the upstream record shapes
// of the three storefronts, and the normalisers that turn an upstream record
// into the store-independent game shape.

module PlatformService {
  import opened Common

  // =====================================================================
  // TTL cache

  datatype CacheEntry<V> = CacheEntry(data: V, expiresAt: int)

  /** Six hours, in milliseconds: the lifetime setCache uses when none is given. */
  const DefaultCacheTtl: int := 6 * 60 * 60 * 1000

  /** What a read of `key` at time `now` yields: an entry is still live at its expiry instant. */
  function Lookup<V>(entries: map<string, CacheEntry<V>>, key: string, now: int): (r: Option<V>)
    ensures r.Some? <==> key in entries && now <= entries[key].expiresAt
    ensures r.Some? ==> r.value == entries[key].data
  {
    if key in entries && now <= entries[key].expiresAt then Some(entries[key].data) else None
  }

  /** The table after a read: a read that finds an expired entry deletes it. */
  function Evict<V>(entries: map<string, CacheEntry<V>>, key: string, now: int): (r: map<string, CacheEntry<V>>)
    ensures r.Keys <= entries.Keys
    ensures forall k :: k in r ==> r[k] == entries[k]
    ensures key in entries && now > entries[key].expiresAt ==> key !in r
    ensures forall k :: k in entries && (k != key || now <= entries[k].expiresAt) ==> k in r
  {
    if key in entries && now > entries[key].expiresAt then entries - {key} else entries
  }

  /** The table after a write of `data` under `key` living `ttlMs` from `now`. */
  function Store<V>(entries: map<string, CacheEntry<V>>, key: string, data: V, ttlMs: int, now: int): (r: map<string, CacheEntry<V>>)
    ensures r.Keys == entries.Keys + {key}
    ensures r[key] == CacheEntry(data, now + ttlMs)
    ensures forall k :: k in entries && k != key ==> r[k] == entries[k]
  {
    entries[key := CacheEntry(data, now + ttlMs)]
  }

  /** The table after invalidating every key the pattern matches. */
  function Without<V>(entries: map<string, CacheEntry<V>>, matches: string -> bool): (r: map<string, CacheEntry<V>>)
    ensures forall k :: k in r <==> k in entries && !matches(k)
    ensures forall k :: k in r ==> r[k] == entries[k]
  {
    map k | k in entries && !matches(k) :: entries[k]
  }

  /** The module-level cache: a table of entries, each with an absolute expiry time. */
  class TtlCache<V> {
    var entries: map<string, CacheEntry<V>>

    constructor()
      ensures entries == map[]
    {
      entries := map[];
    }

    /** getCache: the live value, if any; an expired entry is removed on the way. */
    method Get(key: string, now: int) returns (r: Option<V>)
      modifies this
      ensures r == Lookup(old(entries), key, now)
      ensures entries == Evict(old(entries), key, now)
    {
      if key !in entries {
        return None;
      }
      if now > entries[key].expiresAt {
        entries := entries - {key};
        return None;
      }
      r := Some(entries[key].data);
    }

    /** setCache: overwrite the entry, expiring `ttlMs` after `now`. */
    method Set(key: string, data: V, ttlMs: int, now: int)
      modifies this
      ensures entries == Store(old(entries), key, data, ttlMs, now)
    {
      entries := entries[key := CacheEntry(data, now + ttlMs)];
    }

    /** invalidateCache: delete, one key at a time, every key the pattern matches. */
    method Invalidate(matches: string -> bool)
      modifies this
      ensures entries == Without(old(entries), matches)
    {
      var pending := entries.Keys;
      ghost var start := entries;
      while pending != {}
        invariant pending <= start.Keys
        invariant entries.Keys <= start.Keys
        invariant forall k :: k in entries ==> entries[k] == start[k]
        invariant forall k :: k in start ==> (k in entries <==> k in pending || !matches(k))
        decreases pending
      {
        var k :| k in pending;
        if matches(k) {
          entries := entries - {k};
        }
        pending := pending - {k};
      }
      assert entries == Without(start, matches);
    }

    /** clearCache. */
    method Clear()
      modifies this
      ensures entries == map[]
    {
      entries := map[];
    }
  }

  /** A value written with a non-negative lifetime is read back until it expires. */
  lemma StoreThenLookup<V>(entries: map<string, CacheEntry<V>>, key: string, data: V, ttlMs: int, now: int, later: int)
    requires now <= later
    ensures later <= now + ttlMs ==> Lookup(Store(entries, key, data, ttlMs, now), key, later) == Some(data)
    ensures later > now + ttlMs ==> Lookup(Store(entries, key, data, ttlMs, now), key, later) == None
    ensures later > now + ttlMs ==> key !in Evict(Store(entries, key, data, ttlMs, now), key, later)
  {
  }

  /** A write or an eviction of one key leaves every other key's reads unchanged. */
  lemma OtherKeysUnaffected<V>(entries: map<string, CacheEntry<V>>, key: string, other: string, data: V, ttlMs: int, now: int, t: int)
    requires other != key
    ensures Lookup(Store(entries, key, data, ttlMs, now), other, t) == Lookup(entries, other, t)
    ensures Lookup(Evict(entries, key, now), other, t) == Lookup(entries, other, t)
  {
  }

  /** `a` and `b` hold the same entries under every key but `key`. */
  ghost predicate AgreeExcept<V>(a: map<string, CacheEntry<V>>, b: map<string, CacheEntry<V>>, key: string) {
    forall k :: k != key ==> (k in a <==> k in b) && (k in a ==> a[k] == b[k])
  }

  /** Caches that agree away from `key` answer every other key alike. */
  lemma AgreeExceptLookup<V>(a: map<string, CacheEntry<V>>, b: map<string, CacheEntry<V>>, key: string, other: string, t: int)
    requires AgreeExcept(a, b, key) && other != key
    ensures Lookup(a, other, t) == Lookup(b, other, t)
  {
  }

  /**
   * The table after one cache-aside read of `key` (getCache, then on a miss
   * the fetch and setCache): unchanged on a live hit; otherwise the expired
   * entry is dropped and, when the fetch produced a value to cache, that
   * value is stored for `ttlMs`.
   */
  function AfterAside<V>(entries: map<string, CacheEntry<V>>, key: string, now: int, fetched: Option<V>, ttlMs: int)
    : (r: map<string, CacheEntry<V>>)
    ensures AgreeExcept(entries, r, key)
    ensures Lookup(entries, key, now).Some? ==> r == entries
    ensures Lookup(entries, key, now).None? && fetched.Some? ==> key in r && r[key] == CacheEntry(fetched.value, now + ttlMs)
    ensures Lookup(entries, key, now).None? && fetched.None? ==> key !in r
  {
    if Lookup(entries, key, now).Some? then entries
    else if fetched.Some? then Store(Evict(entries, key, now), key, fetched.value, ttlMs, now)
    else Evict(entries, key, now)
  }

  // =====================================================================
  // Fetch with retry and exponential back-off

  /** What one network attempt produced. */
  datatype Attempt<T> =
    | Delivered(body: T)
    | HttpFailure(status: nat, statusText: string)
    | Thrown(message: string)

  /** The message of the error an unsuccessful attempt raises. */
  function AttemptError<T>(a: Attempt<T>): (m: string)
    requires !a.Delivered?
    ensures a.HttpFailure? ==> "HTTP " <= m
  {
    match a
    case HttpFailure(status, text) => "HTTP " + NatToString(status) + ": " + text
    case Thrown(message) => message
  }

  /** The outcome of fetchWithRetry: a body, or the last error (undefined when no attempt ran). */
  datatype Fetched<T> = Body(body: T) | Failed(lastError: Option<string>)

  /**
   * The outcome of attempts `from`, `from + 1`, ... below `maxRetries`, when
   * `last` is the error of the attempt before `from`: the first delivered
   * body, or the last error once the attempts run out.
   */
  function RetryOutcome<T>(respond: nat -> Attempt<T>, from: nat, maxRetries: nat, last: Option<string>): (r: Fetched<T>)
    ensures r.Body? ==> exists k :: from <= k < maxRetries && respond(k) == Delivered(r.body)
    ensures r.Failed? ==> forall k :: from <= k < maxRetries ==> !respond(k).Delivered?
    decreases maxRetries - from
  {
    if from >= maxRetries then Failed(last)
    else if respond(from).Delivered? then Body(respond(from).body)
    else RetryOutcome(respond, from + 1, maxRetries, Some(AttemptError(respond(from))))
  }

  /** What fetchWithRetry settles to when attempt `k` answers `respond(k)`. */
  function Retried<T>(respond: nat -> Attempt<T>, maxRetries: nat): Fetched<T> {
    RetryOutcome(respond, 0, maxRetries, None)
  }

  /**
   * fetchWithRetry: attempt `k` answers `respond(k)`.  At most `maxRetries`
   * attempts run; the first delivered body is returned; after each failed
   * attempt except the last allowed one the caller waits
   * `baseDelayMs * 2^k` milliseconds (the waits are returned in order).
   */
  method FetchWithRetry<T>(respond: nat -> Attempt<T>, maxRetries: nat, baseDelayMs: nat)
    returns (r: Fetched<T>, attempts: nat, waits: seq<nat>)
    ensures r == Retried(respond, maxRetries)
    ensures attempts <= maxRetries
    ensures forall k :: 0 <= k < attempts - 1 ==> !respond(k).Delivered?
    ensures r.Body? <==> attempts > 0 && respond(attempts - 1).Delivered?
    ensures r.Body? ==> r.body == respond(attempts - 1).body
    ensures r.Failed? ==> attempts == maxRetries
    ensures r.Failed? ==> r.lastError == if maxRetries == 0 then None else Some(AttemptError(respond(maxRetries - 1)))
    ensures |waits| == if attempts == 0 then 0 else attempts - 1
    ensures forall k :: 0 <= k < |waits| ==> waits[k] == baseDelayMs * Pow2(k)
  {
    var attempt: nat := 0;
    var lastError: Option<string> := None;
    waits := [];
    while attempt < maxRetries
      invariant attempt <= maxRetries
      invariant Retried(respond, maxRetries) == RetryOutcome(respond, attempt, maxRetries, lastError)
      invariant forall k :: 0 <= k < attempt ==> !respond(k).Delivered?
      invariant lastError == if attempt == 0 then None else Some(AttemptError(respond(attempt - 1)))
      invariant |waits| == if attempt == 0 then 0 else if attempt < maxRetries then attempt else attempt - 1
      invariant forall k :: 0 <= k < |waits| ==> waits[k] == baseDelayMs * Pow2(k)
    {
      var outcome := respond(attempt);
      if outcome.Delivered? {
        r, attempts := Body(outcome.body), attempt + 1;
        return;
      }
      lastError := Some(AttemptError(outcome));
      if attempt < maxRetries - 1 {
        waits := waits + [baseDelayMs * Pow2(attempt)];
      }
      attempt := attempt + 1;
    }
    r, attempts := Failed(lastError), attempt;
  }

  // =====================================================================
  // Upstream record shapes

  datatype KeyImage = KeyImage(imageType: string, url: Option<string>)

  /** price.totalPrice of an Epic catalogue element, amounts in minor units. */
  datatype EpicTotalPrice = EpicTotalPrice(discountPrice: Option<nat>, originalPrice: Option<nat>, currencyCode: Option<string>)

  datatype EpicCategory = EpicCategory(path: string, name: string)

  /** An Epic catalogue element; a missing `price` or `price.totalPrice` is None. */
  datatype EpicGameResponse = EpicGameResponse(
    id: string,
    title: string,
    description: Option<string>,
    shortDescription: Option<string>,
    productSlug: Option<string>,
    keyImages: Option<seq<KeyImage>>,
    totalPrice: Option<EpicTotalPrice>,
    categories: Option<seq<EpicCategory>>,
    releaseDate: Option<string>,
    publisher: Option<string>,
    developer: Option<string>)

  datatype GogImages = GogImages(logo: Option<string>, boxArtImage: Option<string>)

  datatype GogPrice = GogPrice(finalAmount: Option<nat>, originalAmount: Option<nat>, currency: Option<string>, discountPercent: Option<int>)

  /** A GOG catalogue product. */
  datatype GOGGameResponse = GOGGameResponse(
    id: nat,
    title: string,
    overview: Option<string>,
    description: Option<string>,
    images: Option<GogImages>,
    price: Option<GogPrice>,
    genre: Option<seq<string>>,
    releaseDate: Option<string>,
    publisher: Option<string>,
    developer: Option<string>,
    isDRMFree: Option<bool>,
    slug: Option<string>)

  /** One application of Steam's app list. */
  datatype RawSteamApp = RawSteamApp(appid: nat, name: string)

  /** The shape the Steam adapter hands out: the app id as a decimal string. */
  datatype SteamApp = SteamApp(appId: string, name: string)

  /** Steam's price_data, amounts in cents. */
  datatype SteamPriceData = SteamPriceData(final: int, initial: int, discountPercent: int, currency: string)

  /** The `data` object of a Steam appdetails answer (genres as their descriptions). */
  datatype SteamAppData = SteamAppData(
    name: string,
    shortDescription: Option<string>,
    headerImage: Option<string>,
    genres: Option<seq<string>>,
    developers: Option<seq<string>>,
    releaseDate: Option<string>,
    priceData: Option<SteamPriceData>)

  /** One entry of a Steam appdetails answer. */
  datatype SteamAppDetails = SteamAppDetails(success: bool, data: Option<SteamAppData>)

  // =====================================================================
  // The store-independent game shape

  datatype Metadata =
    | EpicMetadata(publisher: Option<string>, productSlug: Option<string>)
    | GogMetadata(publisher: Option<string>, isDRMFree: Option<bool>, slug: Option<string>)
    | NoMetadata

  datatype PlatformData = PlatformData(
    platform: Platform,
    platformId: string,
    price: Option<real>,
    originalPrice: Option<real>,
    discountPercent: int,
    currency: string,
    url: Option<string>,
    imageUrl: Option<string>,
    isAvailable: bool,
    metadata: Metadata)

  /** The release date is kept as the upstream text. */
  datatype NormalizedGame = NormalizedGame(
    name: string,
    description: string,
    coverImage: Option<string>,
    genres: seq<string>,
    developer: Option<string>,
    releaseDate: Option<string>,
    platformData: PlatformData)

  const EpicStorePrefix: string := "https://www.epicgames.com/store/en-US/p/"
  const GogStorePrefix: string := "https://www.gog.com/game/"
  const SteamStorePrefix: string := "https://store.steampowered.com/app/"
  const SteamCdnPrefix: string := "https://steamcdn-a.akamaihd.net/steam/apps/"

  // ---------------------------------------------------------------------
  // Epic

  /** Array.prototype.find by image type: the index of the first image of type `t`. */
  function FindImage(images: seq<KeyImage>, t: string): (r: Option<nat>)
    ensures r.Some? ==> r.value < |images| && images[r.value].imageType == t
    ensures r.Some? ==> forall j :: 0 <= j < r.value ==> images[j].imageType != t
    ensures r.None? ==> forall j :: 0 <= j < |images| ==> images[j].imageType != t
  {
    if |images| == 0 then None
    else if images[0].imageType == t then Some(0)
    else
      var rest := FindImage(images[1..], t);
      if rest.Some? then Some(rest.value + 1) else None
  }

  function UrlAt(images: seq<KeyImage>, i: Option<nat>): (r: Option<string>)
    ensures i.Some? && i.value < |images| ==> r == images[i.value].url
    ensures i.None? || i.value >= |images| ==> r == None
  {
    if i.Some? && i.value < |images| then images[i.value].url else None
  }

  /**
   * The cover: the first Thumbnail's url, else the first DieselGameBox's
   * url, else the first image's url; an empty url falls through.
   */
  function EpicCoverImage(keyImages: Option<seq<KeyImage>>): (r: Option<string>)
    ensures r.Some? ==> r.value != "" && keyImages.Some?
    ensures r.Some? ==> exists i :: 0 <= i < |keyImages.value| && keyImages.value[i].url == r
    ensures keyImages.Some? && TruthyStr(UrlAt(keyImages.value, FindImage(keyImages.value, "Thumbnail")))
      ==> r == UrlAt(keyImages.value, FindImage(keyImages.value, "Thumbnail"))
    ensures keyImages.Some? && FindImage(keyImages.value, "Thumbnail").None? && FindImage(keyImages.value, "DieselGameBox").None?
      ==> r == (if |keyImages.value| > 0 then NonEmpty(keyImages.value[0].url) else None)
    ensures keyImages.Some? && !TruthyStr(UrlAt(keyImages.value, FindImage(keyImages.value, "Thumbnail")))
      && TruthyStr(UrlAt(keyImages.value, FindImage(keyImages.value, "DieselGameBox")))
      ==> r == UrlAt(keyImages.value, FindImage(keyImages.value, "DieselGameBox"))
    ensures keyImages.Some? && !TruthyStr(UrlAt(keyImages.value, FindImage(keyImages.value, "Thumbnail")))
      && !TruthyStr(UrlAt(keyImages.value, FindImage(keyImages.value, "DieselGameBox")))
      ==> r == (if |keyImages.value| > 0 then NonEmpty(keyImages.value[0].url) else None)
    ensures keyImages.None? ==> r.None?
  {
    var images := if keyImages.Some? then keyImages.value else [];
    var first := if |images| > 0 then images[0].url else None;
    OrStr(UrlAt(images, FindImage(images, "Thumbnail")),
      OrStr(UrlAt(images, FindImage(images, "DieselGameBox")), NonEmpty(first)))
  }

  // Real-arithmetic steps behind the integer form of Math.round(a / o * 100).

  lemma NonNegFactor(t: real, m: real)
    requires m > 0.0 && t * m >= 0.0
    ensures t >= 0.0
  {}

  lemma UnitBracket(x: real, m: real, r: real)
    requires m > 0.0 && x * m == r && 0.0 <= r < m
    ensures 0.0 <= x < 1.0
  {}

  lemma QuotientTimes(a: real, o: real)
    requires o > 0.0
    ensures a / o * o == a
  {}

  lemma CastMul(a: int, b: int)
    ensures (a * b) as real == a as real * b as real
  {}

  lemma ScaledSum(x: real, o: real, a: real)
    requires x * o == a
    ensures (x * 100.0 + 0.5) * (2.0 * o) == 200.0 * a + o
  {}

  lemma ScaledPercent(a: int, o: int)
    requires o > 0
    ensures (a as real / o as real * 100.0 + 0.5) * ((2 * o) as real) == (a * 200 + o) as real
  {
    QuotientTimes(a as real, o as real);
    ScaledSum(a as real / o as real, o as real, a as real);
  }

  lemma SubTimes(y: real, q: real, m: real)
    ensures (y - q) * m == y * m - q * m
  {}

  lemma QuotientBrackets(n: int, m: int, y: real)
    requires m > 0
    requires y * (m as real) == n as real
    ensures (n / m) as real <= y < (n / m) as real + 1.0
  {
    var q, rem := n / m, n % m;
    assert (y - q as real) * (m as real) == rem as real by {
      assert n == q * m + rem;
      CastMul(q, m);
      SubTimes(y, q as real, m as real);
    }
    UnitBracket(y - q as real, m as real, rem as real);
  }

  /** Math.round(a / o * 100) is the integer quotient (200a + o) div 2o. */
  lemma RoundedPercent(a: int, o: int)
    requires o > 0
    ensures JsRound(a as real / o as real * 100.0) == (a * 200 + o) / (2 * o)
  {
    ScaledPercent(a, o);
    QuotientBrackets(a * 200 + o, 2 * o, a as real / o as real * 100.0 + 0.5);
  }

  /** A share of at most the whole is between 0 and 100 percent. */
  lemma PercentBounds(a: int, o: int)
    requires 0 <= a <= o && o > 0
    ensures 0.0 <= a as real / o as real * 100.0 <= 100.0
  {
    var x := a as real / o as real;
    QuotientTimes(a as real, o as real);
    NonNegFactor(x, o as real);
    assert (1.0 - x) * (o as real) == o as real - a as real;
    NonNegFactor(1.0 - x, o as real);
  }

  /** Math.round(((o - d) / o) * 100) written on integers. */
  function EpicDiscountPercent(original: nat, discounted: nat): (r: int)
    requires original > 0
    ensures r == JsRound((original - discounted) as real / original as real * 100.0)
    ensures discounted <= original ==> 0 <= r <= 100
  {
    var percent := ((original - discounted) * 200 + original) / (2 * original);
    RoundedPercent(original - discounted, original);
    if discounted <= original then PercentBounds(original - discounted, original); percent else percent
  }

  /** normalizeEpicGame. */
  function NormalizeEpicGame(game: EpicGameResponse): (r: NormalizedGame)
    ensures r.name == game.title
    ensures r.description == StrOr(OrStr(game.shortDescription, game.description), "")
    ensures r.coverImage == EpicCoverImage(game.keyImages)
    ensures r.platformData.platform == Epic && r.platformData.platformId == game.id
    ensures r.platformData.imageUrl == r.coverImage && r.platformData.isAvailable
    ensures r.platformData.price.Some? <==> game.totalPrice.Some? && TruthyNat(game.totalPrice.value.discountPrice)
    ensures r.platformData.originalPrice.Some? <==> game.totalPrice.Some? && TruthyNat(game.totalPrice.value.originalPrice)
    ensures r.platformData.originalPrice.Some? ==> r.platformData.originalPrice.value > 0.0
    ensures r.platformData.price.None? || r.platformData.originalPrice.None? ==> r.platformData.discountPercent == 0
    ensures r.platformData.price.Some? && r.platformData.originalPrice.Some? ==>
      var o, d := r.platformData.originalPrice.value, r.platformData.price.value;
      r.platformData.discountPercent == JsRound((o - d) / o * 100.0)
    ensures r.platformData.currency != ""
    ensures game.totalPrice.Some? && TruthyStr(game.totalPrice.value.currencyCode) ==>
      r.platformData.currency == game.totalPrice.value.currencyCode.value
    ensures game.totalPrice.None? || !TruthyStr(game.totalPrice.value.currencyCode) ==> r.platformData.currency == "USD"
    ensures r.platformData.url.Some? <==> TruthyStr(game.productSlug)
    ensures r.platformData.url.Some? ==> r.platformData.url.value == EpicStorePrefix + game.productSlug.value
  {
    var cover := EpicCoverImage(game.keyImages);
    var total := game.totalPrice;
    var discounted := if total.Some? then total.value.discountPrice else None;
    var original := if total.Some? then total.value.originalPrice else None;
    var percent :=
      if TruthyNat(original) && TruthyNat(discounted)
      then EpicDiscountPercent(original.value, discounted.value)
      else 0;
    NormalizedGame(
      game.title,
      StrOr(OrStr(game.shortDescription, game.description), ""),
      cover,
      if game.categories.Some? then seq(|game.categories.value|, i requires 0 <= i < |game.categories.value| => game.categories.value[i].name) else [],
      NonEmpty(game.developer),
      NonEmpty(game.releaseDate),
      PlatformData(
        Epic,
        game.id,
        AmountOrNull(discounted),
        AmountOrNull(original),
        percent,
        StrOr(if total.Some? then total.value.currencyCode else None, "USD"),
        if TruthyStr(game.productSlug) then Some(EpicStorePrefix + game.productSlug.value) else None,
        cover,
        true,
        EpicMetadata(game.publisher, game.productSlug)))
  }

  // ---------------------------------------------------------------------
  // GOG

  /** normalizeGOGGame. */
  function NormalizeGogGame(game: GOGGameResponse): (r: NormalizedGame)
    ensures r.name == game.title
    ensures r.description == StrOr(OrStr(game.overview, game.description), "")
    ensures r.coverImage.Some? ==>
      (game.images.Some? && r.coverImage.value != ""
       && (r.coverImage == game.images.value.logo || r.coverImage == game.images.value.boxArtImage))
    ensures game.images.Some? && TruthyStr(game.images.value.logo) ==> r.coverImage == game.images.value.logo
    ensures game.images.Some? && !TruthyStr(game.images.value.logo) && TruthyStr(game.images.value.boxArtImage) ==>
      r.coverImage == game.images.value.boxArtImage
    ensures r.coverImage.None? <==>
      game.images.None? || (!TruthyStr(game.images.value.logo) && !TruthyStr(game.images.value.boxArtImage))
    ensures r.platformData.platform == Gog && ParseDigits(r.platformData.platformId) == Some(game.id)
    ensures r.platformData.imageUrl == r.coverImage && r.platformData.isAvailable
    ensures r.platformData.price.Some? <==> game.price.Some? && TruthyNat(game.price.value.finalAmount)
    ensures r.platformData.originalPrice.Some? <==> game.price.Some? && TruthyNat(game.price.value.originalAmount)
    ensures r.platformData.discountPercent == (if game.price.Some? then IntOrZero(game.price.value.discountPercent) else 0)
    ensures r.platformData.currency != ""
    ensures game.price.Some? && TruthyStr(game.price.value.currency) ==> r.platformData.currency == game.price.value.currency.value
    ensures game.price.None? || !TruthyStr(game.price.value.currency) ==> r.platformData.currency == "USD"
    ensures r.platformData.url.Some? <==> TruthyStr(game.slug)
    ensures r.platformData.url.Some? ==> r.platformData.url.value == GogStorePrefix + game.slug.value
  {
    var cover :=
      if game.images.Some? then OrStr(game.images.value.logo, NonEmpty(game.images.value.boxArtImage)) else None;
    var price := game.price;
    ParseDigitsOfNatToString(game.id);
    NormalizedGame(
      game.title,
      StrOr(OrStr(game.overview, game.description), ""),
      cover,
      if game.genre.Some? then game.genre.value else [],
      NonEmpty(game.developer),
      NonEmpty(game.releaseDate),
      PlatformData(
        Gog,
        NatToString(game.id),
        if price.Some? then AmountOrNull(price.value.finalAmount) else None,
        if price.Some? then AmountOrNull(price.value.originalAmount) else None,
        if price.Some? then IntOrZero(price.value.discountPercent) else 0,
        StrOr(if price.Some? then price.value.currency else None, "USD"),
        if TruthyStr(game.slug) then Some(GogStorePrefix + game.slug.value) else None,
        cover,
        true,
        GogMetadata(game.publisher, game.isDRMFree, game.slug)))
  }

  // ---------------------------------------------------------------------
  // Steam

  /** normalizeSteamGame: only the name and the app id are known; no price. */
  function NormalizeSteamGame(appId: string, name: string): (r: NormalizedGame)
    ensures r.name == name && r.description == "" && r.coverImage.None? && r.genres == []
    ensures r.platformData.platform == Steam && r.platformData.platformId == appId
    ensures r.platformData.price.None? && r.platformData.originalPrice.None? && r.platformData.discountPercent == 0
    ensures r.platformData.url == Some(SteamStorePrefix + appId)
    ensures r.platformData.imageUrl == Some(SteamCdnPrefix + appId + "/header.jpg")
  {
    NormalizedGame(name, "", None, [], None, None,
      PlatformData(Steam, appId, None, None, 0, "USD",
        Some(SteamStorePrefix + appId),
        Some(SteamCdnPrefix + appId + "/header.jpg"),
        true, NoMetadata))
  }
}
