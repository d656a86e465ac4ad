// The games router's own logic between the database and the storefront
// adapters: the listing defaults and platform join of getAll, the in-memory
// platform and price filters of searchAll with its fallback to the
// storefronts, the shaping of storefront hits into result rows, the merged
// availability listing, and the choice of where getDetails takes its answer.
//
// The SQL queries (LIKE matching, limit/offset) are given as the rows they
// select in table order; the storefront searches and lookups are the
// adapters over the shared cache.

module GamesRouter {
  import opened Common
  import opened PlatformService
  import opened AdapterCache
  import SyncEngine
  import SteamAdapter
  import EpicAdapter
  import GogAdapter

  type GameRow = SyncEngine.GameRow
  type OfferRow = SyncEngine.OfferRow

  const DefaultLimit: nat := 50
  /** Fewer database matches than this, for a text query, also asks the storefronts. */
  const FallbackThreshold: nat := 10
  /** How many hits each storefront contributes to a fallback search. */
  const ExternalHits: nat := 5
  /** How many name matches getPlatformAvailability looks at. */
  const AvailabilityMatches: nat := 5

  // ---------------------------------------------------------------------
  // Offers of a game

  /** The offer rows of a game, in table order, optionally only those on one platform. */
  function OffersOf(offers: seq<OfferRow>, gameId: nat, platform: Option<Platform>): (r: seq<OfferRow>)
    ensures |r| <= |offers|
    ensures forall o :: o in r <==> o in offers && o.gameId == gameId && (platform.None? || o.platform == platform.value)
  {
    if |offers| == 0 then []
    else
      var rest := OffersOf(offers[1..], gameId, platform);
      assert forall o :: o in offers <==> o == offers[0] || o in offers[1..];
      if offers[0].gameId == gameId && (platform.None? || offers[0].platform == platform.value)
      then [offers[0]] + rest
      else rest
  }

  // ---------------------------------------------------------------------
  // getAll

  datatype GetAllInput = GetAllInput(limit: Option<nat>, offset: Option<nat>, platform: Option<Platform>)

  /** `input?.limit || 50`. */
  function GetAllLimit(input: Option<GetAllInput>): (r: nat)
    ensures r > 0
    ensures input.Some? && TruthyNat(input.value.limit) ==> r == input.value.limit.value
  {
    if input.Some? && TruthyNat(input.value.limit) then input.value.limit.value else DefaultLimit
  }

  /** `input?.offset || 0`. */
  function GetAllOffset(input: Option<GetAllInput>): (r: nat)
    ensures input.None? || input.value.offset.None? ==> r == 0
    ensures input.Some? && input.value.offset.Some? ==> r == input.value.offset.value
  {
    if input.Some? && input.value.offset.Some? then input.value.offset.value else 0
  }

  /** The inner join of games with their offers on one platform, game by game. */
  function JoinOn(games: seq<GameRow>, offers: seq<OfferRow>, platform: Platform): (r: seq<(GameRow, OfferRow)>)
    decreases |games|
  {
    if |games| == 0 then []
    else
      var mine := OffersOf(offers, games[0].id, Some(platform));
      seq(|mine|, k requires 0 <= k < |mine| => (games[0], mine[k])) + JoinOn(games[1..], offers, platform)
  }

  /**
   * A pair is in the join exactly when its game is a games row, its offer an
   * offers row of that game, and the offer is on the platform.
   */
  lemma {:induction false} JoinOnMembers(games: seq<GameRow>, offers: seq<OfferRow>, platform: Platform, g: GameRow, o: OfferRow)
    ensures (g, o) in JoinOn(games, offers, platform) <==>
      g in games && o in offers && o.gameId == g.id && o.platform == platform
    decreases |games|
  {
    if |games| > 0 {
      JoinOnMembers(games[1..], offers, platform, g, o);
      var mine := OffersOf(offers, games[0].id, Some(platform));
      var head := seq(|mine|, k requires 0 <= k < |mine| => (games[0], mine[k]));
      assert JoinOn(games, offers, platform) == head + JoinOn(games[1..], offers, platform);
      assert (g, o) in head <==> g == games[0] && o in mine by {
        if (g, o) in head {
          var k :| 0 <= k < |head| && head[k] == (g, o);
        }
        if g == games[0] && o in mine {
          var k :| 0 <= k < |mine| && mine[k] == o;
          assert head[k] == (g, o);
        }
      }
      assert g in games <==> g == games[0] || g in games[1..];
    }
  }

  datatype GetAllResult = Listed(games: seq<GameRow>) | JoinedRows(rows: seq<(GameRow, OfferRow)>)

  /**
   * getAll: with a platform, the page of the join with that platform's
   * offers; without, the page of the games table.
   */
  function GetAll(games: seq<GameRow>, offers: seq<OfferRow>, input: Option<GetAllInput>): (r: GetAllResult)
    ensures r.JoinedRows? <==> input.Some? && input.value.platform.Some?
    ensures r.Listed? ==> r.games == Slice(games, GetAllOffset(input), GetAllOffset(input) + GetAllLimit(input))
    ensures r.JoinedRows? ==> r.rows == Slice(JoinOn(games, offers, input.value.platform.value),
                                             GetAllOffset(input), GetAllOffset(input) + GetAllLimit(input))
  {
    var limit := GetAllLimit(input);
    var offset := GetAllOffset(input);
    if input.Some? && input.value.platform.Some? then
      JoinedRows(Slice(JoinOn(games, offers, input.value.platform.value), offset, offset + limit))
    else
      Listed(Slice(games, offset, offset + limit))
  }

  /**
   * At most `limit` rows come back (fifty when none is given), and every
   * joined row pairs a game with one of its own offers on the platform.
   */
  lemma GetAllPage(games: seq<GameRow>, offers: seq<OfferRow>, input: Option<GetAllInput>)
    ensures var r := GetAll(games, offers, input);
      (r.Listed? ==> |r.games| <= GetAllLimit(input))
      && (r.JoinedRows? ==>
            (|r.rows| <= GetAllLimit(input)
             && forall k :: 0 <= k < |r.rows| ==>
                  r.rows[k].0 in games && r.rows[k].1 in offers
                  && r.rows[k].1.gameId == r.rows[k].0.id && r.rows[k].1.platform == input.value.platform.value))
    ensures input.None? ==> GetAll(games, offers, input) == Listed(Take(games, DefaultLimit))
  {
    var r := GetAll(games, offers, input);
    if r.JoinedRows? {
      var p := input.value.platform.value;
      var all := JoinOn(games, offers, p);
      forall k | 0 <= k < |r.rows|
        ensures r.rows[k].0 in games && r.rows[k].1 in offers
          && r.rows[k].1.gameId == r.rows[k].0.id && r.rows[k].1.platform == p
      {
        var i := GetAllOffset(input) + k;
        assert r.rows[k] == all[i];
        JoinOnMembers(games, offers, p, all[i].0, all[i].1);
      }
    }
  }

  // ---------------------------------------------------------------------
  // searchAll

  datatype PriceRange = PriceRange(min: Option<real>, max: Option<real>)

  datatype SearchInput = SearchInput(
    query: Option<string>,
    platforms: Option<seq<Platform>>,
    genres: Option<seq<string>>,
    priceRange: Option<PriceRange>,
    limit: Option<nat>,
    offset: Option<nat>)

  /** `input || {}`. */
  function Fields(input: Option<SearchInput>): SearchInput {
    if input.Some? then input.value else SearchInput(None, None, None, None, None, None)
  }

  /** The destructuring defaults, which apply only to an absent value. */
  function SearchLimit(s: SearchInput): nat {
    if s.limit.Some? then s.limit.value else DefaultLimit
  }

  function SearchOffset(s: SearchInput): nat {
    if s.offset.Some? then s.offset.value else 0
  }

  /** A games row as searchAll selects it: the row and its price column. */
  datatype CatalogGame = CatalogGame(row: GameRow, price: Option<real>)

  /** A selected game with all of its offer rows. */
  datatype ListedGame = ListedGame(game: CatalogGame, platformsData: seq<OfferRow>)

  /** The database query has a where clause exactly when a query text or a genre list is given. */
  predicate HasConditions(s: SearchInput) {
    TruthyStr(s.query) || (s.genres.Some? && |s.genres.value| > 0)
  }

  /** The page the database answers: the matching rows from offset, at most limit of them. */
  function DbPage(matching: seq<CatalogGame>, s: SearchInput): (r: seq<CatalogGame>)
    ensures |r| <= SearchLimit(s)
    ensures forall k :: 0 <= k < |r| ==> r[k] in matching
  {
    Slice(matching, SearchOffset(s), SearchOffset(s) + SearchLimit(s))
  }

  /** Each selected game with its offers. */
  function WithOffers(page: seq<CatalogGame>, offers: seq<OfferRow>): (r: seq<ListedGame>)
    ensures |r| == |page|
    ensures forall k :: 0 <= k < |r| ==> r[k].game == page[k] && r[k].platformsData == OffersOf(offers, page[k].row.id, None)
  {
    seq(|page|, k requires 0 <= k < |page| => ListedGame(page[k], OffersOf(offers, page[k].row.id, None)))
  }

  /** Array.prototype.filter over listed games. */
  function Filter(gs: seq<ListedGame>, keep: ListedGame -> bool): (r: seq<ListedGame>)
    ensures |r| <= |gs|
    ensures forall g :: g in r <==> g in gs && keep(g)
  {
    if |gs| == 0 then []
    else
      var rest := Filter(gs[1..], keep);
      assert forall g :: g in gs <==> g == gs[0] || g in gs[1..];
      if keep(gs[0]) then [gs[0]] + rest else rest
  }

  /** Some offer row of the game is on one of the platforms. */
  predicate OnAnyOf(g: ListedGame, platforms: seq<Platform>) {
    exists k :: 0 <= k < |g.platformsData| && g.platformsData[k].platform in platforms
  }

  /** The platform filter; an absent or empty list keeps every game. */
  function KeepPlatforms(gs: seq<ListedGame>, platforms: Option<seq<Platform>>): (r: seq<ListedGame>)
    ensures platforms.None? || |platforms.value| == 0 ==> r == gs
    ensures platforms.Some? && |platforms.value| > 0 ==>
      forall g :: g in r <==> g in gs && OnAnyOf(g, platforms.value)
  {
    if platforms.Some? && |platforms.value| > 0 then Filter(gs, (g: ListedGame) => OnAnyOf(g, platforms.value)) else gs
  }

  /** A known price outside a given bound fails the range; an unknown price never does. */
  predicate InRange(price: Option<real>, range: PriceRange) {
    !(range.min.Some? && price.Some? && price.value < range.min.value)
    && !(range.max.Some? && price.Some? && price.value > range.max.value)
  }

  /** The price-range filter. */
  function KeepPriceRange(gs: seq<ListedGame>, range: Option<PriceRange>): (r: seq<ListedGame>)
    ensures range.None? ==> r == gs
    ensures range.Some? ==> forall g :: g in r <==> g in gs && InRange(g.game.price, range.value)
  {
    if range.Some? then Filter(gs, (g: ListedGame) => InRange(g.game.price, range.value)) else gs
  }

  /**
   * The price filter drops a game exactly when its price is known and below
   * the minimum or above the maximum; a game with no price always stays.
   */
  lemma PriceRangeKeeps(gs: seq<ListedGame>, range: PriceRange, g: ListedGame)
    requires g in gs
    ensures g in KeepPriceRange(gs, Some(range)) <==>
      g.game.price.None?
      || ((range.min.None? || g.game.price.value >= range.min.value)
          && (range.max.None? || g.game.price.value <= range.max.value))
  {
  }

  /** The games searchAll keeps from the database page, in page order. */
  function Filtered(matching: seq<CatalogGame>, offers: seq<OfferRow>, s: SearchInput): (r: seq<ListedGame>)
    ensures |r| <= |DbPage(matching, s)|
  {
    KeepPriceRange(KeepPlatforms(WithOffers(DbPage(matching, s), offers), s.platforms), s.priceRange)
  }

  /**
   * The storefronts are asked when the database query had no conditions,
   * or when a query text matched fewer than ten games.
   */
  predicate UsesExternal(s: SearchInput, dbCount: nat) {
    !HasConditions(s) || (TruthyStr(s.query) && dbCount < FallbackThreshold)
  }

  /**
   * A kept game passed every filter that was given: it has an offer on one
   * of the requested platforms, and its price (if known) is in range.
   */
  lemma FilteredGamesPass(matching: seq<CatalogGame>, offers: seq<OfferRow>, s: SearchInput, g: ListedGame)
    requires g in Filtered(matching, offers, s)
    ensures g.game in DbPage(matching, s)
    ensures g.platformsData == OffersOf(offers, g.game.row.id, None)
    ensures s.platforms.Some? && |s.platforms.value| > 0 ==> OnAnyOf(g, s.platforms.value)
    ensures s.priceRange.Some? ==> InRange(g.game.price, s.priceRange.value)
  {
    var listed := WithOffers(DbPage(matching, s), offers);
    assert g in listed;
    var k :| 0 <= k < |listed| && listed[k] == g;
  }

  // ---------------------------------------------------------------------
  // Storefront hits as result rows

  /** The offer part of a storefront hit (id, game id and timestamps are fixed or fresh; it is always available). */
  datatype ExternalOffer = ExternalOffer(
    platform: Platform,
    platformId: string,
    platformName: string,
    price: Option<real>,
    priceCurrency: string,
    discountPercent: int,
    url: Option<string>,
    imageUrl: Option<string>)

  /** A storefront hit in the shape of a games row with its one offer. */
  datatype ExternalGame = ExternalGame(
    appId: Option<nat>,
    name: string,
    description: Option<string>,
    price: Option<real>,
    genres: Option<string>,
    developer: Option<string>,
    releaseDate: Option<string>,
    coverImage: Option<string>,
    offer: ExternalOffer)

  /** A Steam hit: only its name and app id are known. */
  function SteamHit(app: SteamApp): (r: ExternalGame)
    ensures r.offer.platform == Steam && r.offer.platformId == app.appId && r.name == app.name
    ensures r.appId == (match ParseDigits(app.appId) case Some(n) => if n == 0 then None else Some(n) case None => None)
    ensures r.price.None? && r.offer.price.None? && r.offer.discountPercent == 0 && r.offer.priceCurrency == "USD"
    ensures r.offer.url == Some(SteamStorePrefix + app.appId)
    ensures r.offer.imageUrl == Some(SteamCdnPrefix + app.appId + "/header.jpg")
  {
    var parsed := ParseDigits(app.appId);
    ExternalGame(
      if parsed.Some? && parsed.value != 0 then parsed else None,
      app.name, None, None, None, None, None, None,
      ExternalOffer(Steam, app.appId, app.name, None, "USD", 0,
        Some(SteamStorePrefix + app.appId), Some(SteamCdnPrefix + app.appId + "/header.jpg")))
  }

  /** A Steam hit built from the adapter's app carries that app's numeric id, unless it is 0. */
  lemma SteamHitAppId(appid: nat, name: string)
    ensures SteamHit(SteamApp(NatToString(appid), name)).appId == if appid == 0 then None else Some(appid)
  {
    ParseDigitsOfNatToString(appid);
  }

  function CategoryNames(cs: seq<EpicCategory>): (r: seq<string>)
    ensures |r| == |cs| && forall k :: 0 <= k < |cs| ==> r[k] == cs[k].name
  {
    seq(|cs|, k requires 0 <= k < |cs| => cs[k].name)
  }

  /**
   * An Epic hit: the discounted price in minor units as the upstream gives
   * it (0 or missing is null), the first key image, and the store url only
   * when there is a product slug.
   */
  function EpicHit(g: EpicGameResponse): (r: ExternalGame)
    ensures r.offer.platform == Epic && r.offer.platformId == g.id && r.name == g.title && r.offer.platformName == g.title
    ensures r.appId.None? && r.offer.discountPercent == 0
    ensures r.price == r.offer.price
    ensures r.price.Some? <==> g.totalPrice.Some? && TruthyNat(g.totalPrice.value.discountPrice)
    ensures r.price.Some? ==> r.price.value == g.totalPrice.value.discountPrice.value as real
    ensures r.offer.url.Some? <==> TruthyStr(g.productSlug)
    ensures r.offer.url.Some? ==> r.offer.url.value == EpicStorePrefix + g.productSlug.value
    ensures r.offer.priceCurrency != ""
    ensures r.coverImage == r.offer.imageUrl
    ensures r.genres.Some? ==> r.genres.value != ""
  {
    var price := if g.totalPrice.Some? then AmountOrNull(g.totalPrice.value.discountPrice) else None;
    var currency := if g.totalPrice.Some? then g.totalPrice.value.currencyCode else None;
    var image := if g.keyImages.Some? && |g.keyImages.value| > 0 then NonEmpty(g.keyImages.value[0].url) else None;
    var genres := if g.categories.Some? then NonEmpty(Some(Join(CategoryNames(g.categories.value), ", "))) else None;
    ExternalGame(
      None, g.title, NonEmpty(g.shortDescription), price, genres, NonEmpty(g.developer), NonEmpty(g.releaseDate), image,
      ExternalOffer(Epic, g.id, g.title, price, StrOr(currency, "USD"), 0,
        if TruthyStr(g.productSlug) then Some(EpicStorePrefix + g.productSlug.value) else None,
        image))
  }

  /** A GOG hit: the final amount (0 or missing is null), the upstream discount, the logo and the store url by slug. */
  function GogHit(g: GOGGameResponse): (r: ExternalGame)
    ensures r.offer.platform == Gog && r.offer.platformId == NatToString(g.id) && r.name == g.title
    ensures r.appId.None?
    ensures r.price == r.offer.price
    ensures r.price.Some? <==> g.price.Some? && TruthyNat(g.price.value.finalAmount)
    ensures r.offer.discountPercent == (if g.price.Some? then IntOrZero(g.price.value.discountPercent) else 0)
    ensures r.offer.url.Some? <==> TruthyStr(g.slug)
    ensures r.offer.url.Some? ==> r.offer.url.value == GogStorePrefix + g.slug.value
    ensures r.offer.priceCurrency != ""
    ensures r.coverImage == r.offer.imageUrl
  {
    var price := if g.price.Some? then AmountOrNull(g.price.value.finalAmount) else None;
    var currency := if g.price.Some? then g.price.value.currency else None;
    var discount := if g.price.Some? then IntOrZero(g.price.value.discountPercent) else 0;
    var logo := if g.images.Some? then NonEmpty(g.images.value.logo) else None;
    var genres := if g.genre.Some? then NonEmpty(Some(Join(g.genre.value, ", "))) else None;
    ExternalGame(
      None, g.title, NonEmpty(g.overview), price, genres, NonEmpty(g.developer), NonEmpty(g.releaseDate), logo,
      ExternalOffer(Gog, NatToString(g.id), g.title, price, StrOr(currency, "USD"), discount,
        if TruthyStr(g.slug) then Some(GogStorePrefix + g.slug.value) else None,
        logo))
  }

  /** `platforms || ['steam', 'epic', 'gog']`: an empty list is kept as given. */
  function PlatformList(platforms: Option<seq<Platform>>): (r: seq<Platform>)
    ensures platforms.Some? ==> r == platforms.value
    ensures platforms.None? ==> r == AllPlatforms
  {
    if platforms.Some? then platforms.value else AllPlatforms
  }

  /** Steam is asked only for a non-empty query. */
  predicate AsksSteam(query: string, platforms: Option<seq<Platform>>) {
    Steam in PlatformList(platforms) && query != ""
  }

  /** The result rows of the storefront answers: Steam's first five, then Epic's, then GOG's. */
  function ExternalRows(steam: Option<SteamAdapter.SteamSearchResult>, epic: Option<EpicAdapter.EpicSearchResult>,
                        gog: Option<GogAdapter.GogSearchResult>): (r: seq<ExternalGame>)
  {
    (if steam.Some? then MapSteam(Take(steam.value.games, ExternalHits)) else [])
    + (if epic.Some? then MapEpic(epic.value.games) else [])
    + (if gog.Some? then MapGog(gog.value.games) else [])
  }

  function MapSteam(apps: seq<SteamApp>): (r: seq<ExternalGame>)
    ensures |r| == |apps| && forall k :: 0 <= k < |apps| ==> r[k] == SteamHit(apps[k])
  {
    seq(|apps|, k requires 0 <= k < |apps| => SteamHit(apps[k]))
  }

  function MapEpic(games: seq<EpicGameResponse>): (r: seq<ExternalGame>)
    ensures |r| == |games| && forall k :: 0 <= k < |games| ==> r[k] == EpicHit(games[k])
  {
    seq(|games|, k requires 0 <= k < |games| => EpicHit(games[k]))
  }

  function MapGog(games: seq<GOGGameResponse>): (r: seq<ExternalGame>)
    ensures |r| == |games| && forall k :: 0 <= k < |games| ==> r[k] == GogHit(games[k])
  {
    seq(|games|, k requires 0 <= k < |games| => GogHit(games[k]))
  }

  /** Every row lies on one of the platforms. */
  predicate OnlyFrom(rows: seq<ExternalGame>, platforms: set<Platform>) {
    forall k :: 0 <= k < |rows| ==> rows[k].offer.platform in platforms
  }

  lemma OnlyFromConcat(a: seq<ExternalGame>, b: seq<ExternalGame>, platforms: set<Platform>)
    requires OnlyFrom(a, platforms) && OnlyFrom(b, platforms)
    ensures OnlyFrom(a + b, platforms)
  {
    forall k | 0 <= k < |a + b|
      ensures (a + b)[k].offer.platform in platforms
    {
      if k < |a| {
        assert (a + b)[k] == a[k];
      } else {
        assert (a + b)[k] == b[k - |a|];
      }
    }
  }

  /** The storefronts whose answer is present. */
  function Asked(steam: Option<SteamAdapter.SteamSearchResult>, epic: Option<EpicAdapter.EpicSearchResult>,
                 gog: Option<GogAdapter.GogSearchResult>): (r: set<Platform>)
    ensures Steam in r <==> steam.Some?
    ensures Epic in r <==> epic.Some?
    ensures Gog in r <==> gog.Some?
  {
    (if steam.Some? then {Steam} else {}) + (if epic.Some? then {Epic} else {}) + (if gog.Some? then {Gog} else {})
  }

  /**
   * Every storefront row lies on a storefront that answered, and there are
   * at most five Steam rows followed by one row per Epic and GOG hit.
   */
  lemma ExternalRowsPlatforms(steam: Option<SteamAdapter.SteamSearchResult>, epic: Option<EpicAdapter.EpicSearchResult>,
                              gog: Option<GogAdapter.GogSearchResult>)
    ensures OnlyFrom(ExternalRows(steam, epic, gog), Asked(steam, epic, gog))
    ensures |ExternalRows(steam, epic, gog)|
      == (if steam.Some? then |Take(steam.value.games, ExternalHits)| else 0)
         + (if epic.Some? then |epic.value.games| else 0)
         + (if gog.Some? then |gog.value.games| else 0)
  {
    var asked := Asked(steam, epic, gog);
    var s := if steam.Some? then MapSteam(Take(steam.value.games, ExternalHits)) else [];
    var e := if epic.Some? then MapEpic(epic.value.games) else [];
    var g := if gog.Some? then MapGog(gog.value.games) else [];
    assert ExternalRows(steam, epic, gog) == s + e + g;
    assert OnlyFrom(s, asked) by {
      if steam.Some? { MapSteamOn(Take(steam.value.games, ExternalHits)); }
    }
    assert OnlyFrom(e, asked) by {
      if epic.Some? { MapEpicOn(epic.value.games); }
    }
    assert OnlyFrom(g, asked) by {
      if gog.Some? { MapGogOn(gog.value.games); }
    }
    OnlyFromConcat(s, e, asked);
    OnlyFromConcat(s + e, g, asked);
  }

  lemma MapSteamOn(apps: seq<SteamApp>)
    ensures OnlyFrom(MapSteam(apps), {Steam})
  {
  }

  lemma MapEpicOn(games: seq<EpicGameResponse>)
    ensures OnlyFrom(MapEpic(games), {Epic})
  {
  }

  lemma MapGogOn(games: seq<GOGGameResponse>)
    ensures OnlyFrom(MapGog(games), {Gog})
  {
  }

  /** The store rows of a fallback search all lie on asked platforms, and Steam rows need a query. */
  lemma ExternalRowsAsked(query: string, platforms: Option<seq<Platform>>, steam: Option<SteamAdapter.SteamSearchResult>,
                          epic: Option<EpicAdapter.EpicSearchResult>, gog: Option<GogAdapter.GogSearchResult>)
    requires steam.Some? <==> AsksSteam(query, platforms)
    requires epic.Some? <==> Epic in PlatformList(platforms)
    requires gog.Some? <==> Gog in PlatformList(platforms)
    ensures var r := ExternalRows(steam, epic, gog);
      forall k :: 0 <= k < |r| ==>
        r[k].offer.platform in PlatformList(platforms) && (r[k].offer.platform == Steam ==> query != "")
  {
    ExternalRowsPlatforms(steam, epic, gog);
  }

  /** The Epic search of the fallback: the query, five hits. */
  function ExternalEpicParams(query: string): EpicAdapter.EpicSearchParams {
    EpicAdapter.EpicSearchParams(Some(query), None, None, Some(ExternalHits), None, None)
  }

  /** The GOG search of the fallback: the query, five hits. */
  function ExternalGogParams(query: string): GogAdapter.GogSearchParams {
    GogAdapter.GogSearchParams(Some(query), None, Some(ExternalHits))
  }

  /**
   * What each storefront answers the fallback against the cache `entries`
   * it started from (None for a storefront that is not asked).  The three
   * searches use distinct keys, so an earlier search does not change what a
   * later one finds in the cache.
   */
  function SteamAnswerOf(entries: map<string, CacheEntry<CacheValue>>, query: string, platforms: Option<seq<Platform>>, now: int,
                         appList: nat -> Attempt<Option<seq<RawSteamApp>>>): Option<SteamAdapter.SteamSearchResult>
  {
    if AsksSteam(query, platforms) then Some(SteamAdapter.SearchAnswer(entries, Some(query), now, appList)) else None
  }

  function EpicAnswerOf(entries: map<string, CacheEntry<CacheValue>>, query: string, platforms: Option<seq<Platform>>, now: int,
                        epicRespond: EpicAdapter.EpicRequest -> nat -> Attempt<Option<EpicAdapter.EpicSearchStore>>): Option<EpicAdapter.EpicSearchResult>
  {
    if Epic in PlatformList(platforms) then Some(EpicAdapter.SearchAnswer(entries, ExternalEpicParams(query), now, epicRespond)) else None
  }

  function GogAnswerOf(entries: map<string, CacheEntry<CacheValue>>, query: string, platforms: Option<seq<Platform>>, now: int,
                       gogRespond: GogAdapter.GogCatalogRequest -> nat -> Attempt<GogAdapter.GogCatalogPayload>): Option<GogAdapter.GogSearchResult>
  {
    if Gog in PlatformList(platforms) then Some(GogAdapter.SearchAnswer(entries, ExternalGogParams(query), now, gogRespond)) else None
  }

  /** The storefront rows of the fallback against the cache `entries`. */
  function ExternalAnswer(entries: map<string, CacheEntry<CacheValue>>, query: string, platforms: Option<seq<Platform>>, now: int,
                          appList: nat -> Attempt<Option<seq<RawSteamApp>>>,
                          epicRespond: EpicAdapter.EpicRequest -> nat -> Attempt<Option<EpicAdapter.EpicSearchStore>>,
                          gogRespond: GogAdapter.GogCatalogRequest -> nat -> Attempt<GogAdapter.GogCatalogPayload>): seq<ExternalGame>
  {
    ExternalRows(SteamAnswerOf(entries, query, platforms, now, appList), EpicAnswerOf(entries, query, platforms, now, epicRespond),
                 GogAnswerOf(entries, query, platforms, now, gogRespond))
  }

  /**
   * The cache after the fallback against `entries`: each asked storefront's
   * search runs against the cache the previous one left, Steam, then Epic,
   * then GOG.
   */
  function ExternalCache(entries: map<string, CacheEntry<CacheValue>>, query: string, platforms: Option<seq<Platform>>, now: int,
                         appList: nat -> Attempt<Option<seq<RawSteamApp>>>,
                         epicRespond: EpicAdapter.EpicRequest -> nat -> Attempt<Option<EpicAdapter.EpicSearchStore>>,
                         gogRespond: GogAdapter.GogCatalogRequest -> nat -> Attempt<GogAdapter.GogCatalogPayload>)
    : map<string, CacheEntry<CacheValue>>
  {
    var afterSteam := if AsksSteam(query, platforms) then SteamAdapter.SearchCache(entries, Some(query), now, appList) else entries;
    var afterEpic := if Epic in PlatformList(platforms) then EpicAdapter.SearchCache(afterSteam, ExternalEpicParams(query), now, epicRespond) else afterSteam;
    if Gog in PlatformList(platforms) then GogAdapter.SearchCache(afterEpic, ExternalGogParams(query), now, gogRespond) else afterEpic
  }

  /** The fallback writes only the three search keys: every other entry is kept as it was. */
  lemma ExternalCacheFrame(entries: map<string, CacheEntry<CacheValue>>, query: string, platforms: Option<seq<Platform>>, now: int,
                           appList: nat -> Attempt<Option<seq<RawSteamApp>>>,
                           epicRespond: EpicAdapter.EpicRequest -> nat -> Attempt<Option<EpicAdapter.EpicSearchStore>>,
                           gogRespond: GogAdapter.GogCatalogRequest -> nat -> Attempt<GogAdapter.GogCatalogPayload>, k: string)
    requires k != SteamAdapter.SearchKey(Some(query)) && k != EpicAdapter.SearchKey(ExternalEpicParams(query))
    requires k != GogAdapter.SearchKey(ExternalGogParams(query))
    ensures var r := ExternalCache(entries, query, platforms, now, appList, epicRespond, gogRespond);
      (k in r <==> k in entries) && (k in entries ==> r[k] == entries[k])
  {
    var afterSteam := if AsksSteam(query, platforms) then SteamAdapter.SearchCache(entries, Some(query), now, appList) else entries;
    var afterEpic := if Epic in PlatformList(platforms) then EpicAdapter.SearchCache(afterSteam, ExternalEpicParams(query), now, epicRespond) else afterSteam;
    assert (k in afterSteam <==> k in entries) && (k in entries ==> afterSteam[k] == entries[k]);
    assert (k in afterEpic <==> k in entries) && (k in entries ==> afterEpic[k] == entries[k]);
  }

  /** The three fallback searches are cached under three different keys. */
  lemma FallbackKeysDistinct(query: string)
    ensures SteamAdapter.SearchKey(Some(query)) != EpicAdapter.SearchKey(ExternalEpicParams(query))
    ensures SteamAdapter.SearchKey(Some(query)) != GogAdapter.SearchKey(ExternalGogParams(query))
    ensures EpicAdapter.SearchKey(ExternalEpicParams(query)) != GogAdapter.SearchKey(ExternalGogParams(query))
  {
    KindOfSteamKeys(query);
    KindOfEpicKeys(EpicAdapter.ParamsJson(ExternalEpicParams(query)));
    KindOfGogKeys(GogAdapter.ParamsJson(ExternalGogParams(query)));
  }

  /** The Epic answer depends on the cache only through the Epic search key. */
  lemma EpicAnswerFrame(a: map<string, CacheEntry<CacheValue>>, b: map<string, CacheEntry<CacheValue>>, query: string,
                        platforms: Option<seq<Platform>>, now: int,
                        epicRespond: EpicAdapter.EpicRequest -> nat -> Attempt<Option<EpicAdapter.EpicSearchStore>>)
    requires Lookup(a, EpicAdapter.SearchKey(ExternalEpicParams(query)), now) == Lookup(b, EpicAdapter.SearchKey(ExternalEpicParams(query)), now)
    ensures EpicAnswerOf(a, query, platforms, now, epicRespond) == EpicAnswerOf(b, query, platforms, now, epicRespond)
  {
  }

  /** The GOG answer depends on the cache only through the GOG search key. */
  lemma GogAnswerFrame(a: map<string, CacheEntry<CacheValue>>, b: map<string, CacheEntry<CacheValue>>, query: string,
                       platforms: Option<seq<Platform>>, now: int,
                       gogRespond: GogAdapter.GogCatalogRequest -> nat -> Attempt<GogAdapter.GogCatalogPayload>)
    requires Lookup(a, GogAdapter.SearchKey(ExternalGogParams(query)), now) == Lookup(b, GogAdapter.SearchKey(ExternalGogParams(query)), now)
    ensures GogAnswerOf(a, query, platforms, now, gogRespond) == GogAnswerOf(b, query, platforms, now, gogRespond)
  {
  }

  /**
   * searchExternalPlatforms: asks Steam (for a non-empty query), Epic and
   * GOG, each only when it is in the platform list, five hits each, and
   * turns the hits into result rows in that order. The adapters' answers
   * are returned beside the rows; an adapter that was not asked is None.
   */
  method SearchExternalPlatforms(cache: TtlCache<CacheValue>, query: string, platforms: Option<seq<Platform>>, now: int,
                                 appList: nat -> Attempt<Option<seq<RawSteamApp>>>,
                                 epicRespond: EpicAdapter.EpicRequest -> nat -> Attempt<Option<EpicAdapter.EpicSearchStore>>,
                                 gogRespond: GogAdapter.GogCatalogRequest -> nat -> Attempt<GogAdapter.GogCatalogPayload>)
    returns (results: seq<ExternalGame>, steam: Option<SteamAdapter.SteamSearchResult>,
             epic: Option<EpicAdapter.EpicSearchResult>, gog: Option<GogAdapter.GogSearchResult>)
    requires Disciplined(cache.entries)
    modifies cache
    ensures Disciplined(cache.entries)
    ensures steam.Some? <==> AsksSteam(query, platforms)
    ensures epic.Some? <==> Epic in PlatformList(platforms)
    ensures gog.Some? <==> Gog in PlatformList(platforms)
    ensures steam == SteamAnswerOf(old(cache.entries), query, platforms, now, appList)
    ensures epic == EpicAnswerOf(old(cache.entries), query, platforms, now, epicRespond)
    ensures gog == GogAnswerOf(old(cache.entries), query, platforms, now, gogRespond)
    ensures results == ExternalRows(steam, epic, gog)
    ensures results == ExternalAnswer(old(cache.entries), query, platforms, now, appList, epicRespond, gogRespond)
    ensures cache.entries == ExternalCache(old(cache.entries), query, platforms, now, appList, epicRespond, gogRespond)
    ensures steam.None? && epic.None? && gog.None? ==> cache.entries == old(cache.entries)
  {
    ghost var start := cache.entries;
    FallbackKeysDistinct(query);
    var steamRows, epicRows, gogRows;
    steam, steamRows := AskSteam(cache, query, platforms, now, appList);
    ghost var afterSteam := cache.entries;
    AgreeExceptLookup(start, afterSteam, SteamAdapter.SearchKey(Some(query)), EpicAdapter.SearchKey(ExternalEpicParams(query)), now);
    AgreeExceptLookup(start, afterSteam, SteamAdapter.SearchKey(Some(query)), GogAdapter.SearchKey(ExternalGogParams(query)), now);
    EpicAnswerFrame(start, afterSteam, query, platforms, now, epicRespond);
    GogAnswerFrame(start, afterSteam, query, platforms, now, gogRespond);
    epic, epicRows := AskEpic(cache, query, platforms, now, epicRespond);
    AgreeExceptLookup(afterSteam, cache.entries, EpicAdapter.SearchKey(ExternalEpicParams(query)), GogAdapter.SearchKey(ExternalGogParams(query)), now);
    GogAnswerFrame(afterSteam, cache.entries, query, platforms, now, gogRespond);
    gog, gogRows := AskGog(cache, query, platforms, now, gogRespond);
    results := steamRows + epicRows + gogRows;
  }

  /** The Steam part of the fallback: asked only for a non-empty query; its first five hits become rows. */
  method AskSteam(cache: TtlCache<CacheValue>, query: string, platforms: Option<seq<Platform>>, now: int,
                  appList: nat -> Attempt<Option<seq<RawSteamApp>>>)
    returns (steam: Option<SteamAdapter.SteamSearchResult>, rows: seq<ExternalGame>)
    requires Disciplined(cache.entries)
    modifies cache
    ensures Disciplined(cache.entries)
    ensures steam == SteamAnswerOf(old(cache.entries), query, platforms, now, appList)
    ensures rows == if steam.Some? then MapSteam(Take(steam.value.games, ExternalHits)) else []
    ensures AgreeExcept(old(cache.entries), cache.entries, SteamAdapter.SearchKey(Some(query)))
    ensures cache.entries == if steam.Some? then SteamAdapter.SearchCache(old(cache.entries), Some(query), now, appList) else old(cache.entries)
  {
    steam, rows := None, [];
    if Steam in PlatformList(platforms) && query != "" {
      var answer, _ := SteamAdapter.SearchSteamGames(cache, Some(query), now, appList);
      steam := Some(answer);
      rows := PushSteamHits(Take(answer.games, ExternalHits));
    }
  }

  /** The Epic part of the fallback: five hits for the query, each a row. */
  method AskEpic(cache: TtlCache<CacheValue>, query: string, platforms: Option<seq<Platform>>, now: int,
                 epicRespond: EpicAdapter.EpicRequest -> nat -> Attempt<Option<EpicAdapter.EpicSearchStore>>)
    returns (epic: Option<EpicAdapter.EpicSearchResult>, rows: seq<ExternalGame>)
    requires Disciplined(cache.entries)
    modifies cache
    ensures Disciplined(cache.entries)
    ensures epic == EpicAnswerOf(old(cache.entries), query, platforms, now, epicRespond)
    ensures rows == if epic.Some? then MapEpic(epic.value.games) else []
    ensures AgreeExcept(old(cache.entries), cache.entries, EpicAdapter.SearchKey(ExternalEpicParams(query)))
    ensures cache.entries == if epic.Some? then EpicAdapter.SearchCache(old(cache.entries), ExternalEpicParams(query), now, epicRespond) else old(cache.entries)
  {
    epic, rows := None, [];
    if Epic in PlatformList(platforms) {
      var answer, _ := EpicAdapter.SearchEpicGames(cache, ExternalEpicParams(query), now, epicRespond);
      epic := Some(answer);
      rows := PushEpicHits(answer.games);
    }
  }

  /** The GOG part of the fallback: five hits for the query, each a row. */
  method AskGog(cache: TtlCache<CacheValue>, query: string, platforms: Option<seq<Platform>>, now: int,
                gogRespond: GogAdapter.GogCatalogRequest -> nat -> Attempt<GogAdapter.GogCatalogPayload>)
    returns (gog: Option<GogAdapter.GogSearchResult>, rows: seq<ExternalGame>)
    requires Disciplined(cache.entries)
    modifies cache
    ensures Disciplined(cache.entries)
    ensures gog == GogAnswerOf(old(cache.entries), query, platforms, now, gogRespond)
    ensures rows == if gog.Some? then MapGog(gog.value.games) else []
    ensures AgreeExcept(old(cache.entries), cache.entries, GogAdapter.SearchKey(ExternalGogParams(query)))
    ensures cache.entries == if gog.Some? then GogAdapter.SearchCache(old(cache.entries), ExternalGogParams(query), now, gogRespond) else old(cache.entries)
  {
    gog, rows := None, [];
    if Gog in PlatformList(platforms) {
      var answer, _ := GogAdapter.SearchGogGames(cache, ExternalGogParams(query), now, gogRespond);
      gog := Some(answer);
      rows := PushGogHits(answer.games);
    }
  }

  /** The row-building loop over Steam hits. */
  method PushSteamHits(hits: seq<SteamApp>) returns (rows: seq<ExternalGame>)
    ensures rows == MapSteam(hits)
  {
    rows := [];
    var i := 0;
    while i < |hits|
      invariant 0 <= i <= |hits|
      invariant rows == MapSteam(hits[..i])
    {
      assert hits[..i + 1] == hits[..i] + [hits[i]];
      rows := rows + [SteamHit(hits[i])];
      i := i + 1;
    }
    assert hits[..|hits|] == hits;
  }

  /** The row-building loop over Epic hits. */
  method PushEpicHits(games: seq<EpicGameResponse>) returns (rows: seq<ExternalGame>)
    ensures rows == MapEpic(games)
  {
    rows := [];
    var i := 0;
    while i < |games|
      invariant 0 <= i <= |games|
      invariant rows == MapEpic(games[..i])
    {
      assert games[..i + 1] == games[..i] + [games[i]];
      rows := rows + [EpicHit(games[i])];
      i := i + 1;
    }
    assert games[..|games|] == games;
  }

  /** The row-building loop over GOG hits. */
  method PushGogHits(games: seq<GOGGameResponse>) returns (rows: seq<ExternalGame>)
    ensures rows == MapGog(games)
  {
    rows := [];
    var i := 0;
    while i < |games|
      invariant 0 <= i <= |games|
      invariant rows == MapGog(games[..i])
    {
      assert games[..i + 1] == games[..i] + [games[i]];
      rows := rows + [GogHit(games[i])];
      i := i + 1;
    }
    assert games[..|games|] == games;
  }

  datatype SearchRow = FromDb(listed: ListedGame) | FromStore(hit: ExternalGame)

  datatype SearchAllResult = SearchAllResult(games: seq<SearchRow>, total: nat, hasMore: bool)

  function DbRows(gs: seq<ListedGame>): (r: seq<SearchRow>)
    ensures |r| == |gs| && forall k :: 0 <= k < |gs| ==> r[k] == FromDb(gs[k])
  {
    seq(|gs|, k requires 0 <= k < |gs| => FromDb(gs[k]))
  }

  function StoreRows(hits: seq<ExternalGame>): (r: seq<SearchRow>)
    ensures |r| == |hits| && forall k :: 0 <= k < |hits| ==> r[k] == FromStore(hits[k])
  {
    seq(|hits|, k requires 0 <= k < |hits| => FromStore(hits[k]))
  }

  /**
   * searchAll over the rows the database query matches (in table order):
   * the page, each game with its offers, the platform and price filters,
   * then the storefront rows when the fallback applies. total counts every
   * row returned; hasMore compares only the filtered database rows with the
   * limit.
   */
  method SearchAll(cache: TtlCache<CacheValue>, matching: seq<CatalogGame>, offers: seq<OfferRow>, input: Option<SearchInput>, now: int,
                   appList: nat -> Attempt<Option<seq<RawSteamApp>>>,
                   epicRespond: EpicAdapter.EpicRequest -> nat -> Attempt<Option<EpicAdapter.EpicSearchStore>>,
                   gogRespond: GogAdapter.GogCatalogRequest -> nat -> Attempt<GogAdapter.GogCatalogPayload>)
    returns (result: SearchAllResult)
    requires Disciplined(cache.entries)
    modifies cache
    ensures Disciplined(cache.entries)
    ensures result.total == |result.games|
    ensures result.hasMore <==> |Filtered(matching, offers, Fields(input))| >= SearchLimit(Fields(input))
    ensures |result.games| >= |Filtered(matching, offers, Fields(input))|
    ensures result.games[..|Filtered(matching, offers, Fields(input))|] == DbRows(Filtered(matching, offers, Fields(input)))
    ensures forall k :: |Filtered(matching, offers, Fields(input))| <= k < |result.games| ==>
      result.games[k].FromStore?
      && result.games[k].hit.offer.platform in PlatformList(Fields(input).platforms)
      && (result.games[k].hit.offer.platform == Steam ==> TruthyStr(Fields(input).query))
    ensures !UsesExternal(Fields(input), |DbPage(matching, Fields(input))|) ==>
      result.games == DbRows(Filtered(matching, offers, Fields(input))) && cache.entries == old(cache.entries)
    ensures UsesExternal(Fields(input), |DbPage(matching, Fields(input))|) ==>
      result.games == DbRows(Filtered(matching, offers, Fields(input)))
                      + StoreRows(ExternalAnswer(old(cache.entries), StrOr(Fields(input).query, ""), Fields(input).platforms, now,
                                                 appList, epicRespond, gogRespond))
      && cache.entries == ExternalCache(old(cache.entries), StrOr(Fields(input).query, ""), Fields(input).platforms, now,
                                        appList, epicRespond, gogRespond)
  {
    var s := Fields(input);
    var dbGames := DbPage(matching, s);
    var filtered := Filtered(matching, offers, s);
    var rows := DbRows(filtered);
    if UsesExternal(s, |dbGames|) {
      var query := StrOr(s.query, "");
      var hits, steam, epic, gog := SearchExternalPlatforms(cache, query, s.platforms, now, appList, epicRespond, gogRespond);
      ExternalRowsAsked(query, s.platforms, steam, epic, gog);
      rows := rows + StoreRows(hits);
      assert rows[..|filtered|] == DbRows(filtered);
    }
    result := SearchAllResult(rows, |rows|, |filtered| >= SearchLimit(s));
  }

  /** A database match never triggers the fallback when genres are given but no query text. */
  lemma GenresOnlyStaysLocal(s: SearchInput, dbCount: nat)
    requires !TruthyStr(s.query) && s.genres.Some? && |s.genres.value| > 0
    ensures !UsesExternal(s, dbCount)
  {
  }

  // ---------------------------------------------------------------------
  // getPlatformAvailability

  datatype AvailabilityEntry = AvailabilityEntry(
    platform: Platform,
    platformId: string,
    platformName: Option<string>,
    price: Option<real>,
    originalPrice: Option<real>,
    discountPercent: int,
    currency: string,
    url: Option<string>,
    imageUrl: Option<string>,
    isAvailable: bool)

  /** An offer row as an availability entry; the platformName column is always null as the sync engine writes it. */
  function OfferEntry(o: OfferRow): (r: AvailabilityEntry)
    ensures r.platform == o.platform && r.platformId == o.platformId && r.price == o.price && r.originalPrice.None?
    ensures r.discountPercent == o.discountPercent && r.currency == o.priceCurrency && r.isAvailable == o.isAvailable
  {
    AvailabilityEntry(o.platform, o.platformId, None, o.price, None, o.discountPercent, o.priceCurrency, o.url, o.imageUrl, o.isAvailable)
  }

  function OfferEntries(os: seq<OfferRow>): (r: seq<AvailabilityEntry>)
    ensures |r| == |os| && forall k :: 0 <= k < |os| ==> r[k] == OfferEntry(os[k])
  {
    seq(|os|, k requires 0 <= k < |os| => OfferEntry(os[k]))
  }

  /** The entries of the matched games' offers, game by game. */
  function DbAvailability(gs: seq<GameRow>, offers: seq<OfferRow>): (r: seq<AvailabilityEntry>)
    decreases |gs|
  {
    if |gs| == 0 then []
    else DbAvailability(gs[..|gs| - 1], offers) + OfferEntries(OffersOf(offers, gs[|gs| - 1].id, None))
  }

  /** Every database entry comes from an offer row of one of the matched games. */
  lemma {:induction false} DbAvailabilitySources(gs: seq<GameRow>, offers: seq<OfferRow>, e: AvailabilityEntry)
    requires e in DbAvailability(gs, offers)
    ensures exists o :: o in offers && e == OfferEntry(o) && exists k :: 0 <= k < |gs| && gs[k].id == o.gameId
    decreases |gs|
  {
    var n := |gs| - 1;
    var init := gs[..n];
    var tail := OfferEntries(OffersOf(offers, gs[n].id, None));
    if e in tail {
      var j :| 0 <= j < |tail| && tail[j] == e;
      var o := OffersOf(offers, gs[n].id, None)[j];
      assert o in OffersOf(offers, gs[n].id, None);
      assert o in offers && e == OfferEntry(o) && gs[n].id == o.gameId;
    } else {
      DbAvailabilitySources(init, offers, e);
      var o :| o in offers && e == OfferEntry(o) && exists k :: 0 <= k < |init| && init[k].id == o.gameId;
      var k :| 0 <= k < |init| && init[k].id == o.gameId;
      assert gs[k] == init[k];
    }
  }

  /** Every offer row of a matched game has its entry in the listing. */
  lemma {:induction false} DbAvailabilityComplete(gs: seq<GameRow>, offers: seq<OfferRow>, o: OfferRow, k: nat)
    requires o in offers && k < |gs| && gs[k].id == o.gameId
    ensures OfferEntry(o) in DbAvailability(gs, offers)
    decreases |gs|
  {
    var n := |gs| - 1;
    var os := OffersOf(offers, gs[n].id, None);
    if k == n {
      assert o in os;
      var j :| 0 <= j < |os| && os[j] == o;
      assert OfferEntries(os)[j] == OfferEntry(o);
    } else {
      assert gs[..n][k] == gs[k];
      DbAvailabilityComplete(gs[..n], offers, o, k);
    }
  }

  /** `x ? x / 100 : null` on a Steam amount in cents. */
  function CentsOrNull(c: int): (r: Option<real>)
    ensures r.Some? <==> c != 0
    ensures r.Some? ==> r.value * 100.0 == c as real
  {
    if c != 0 then Some(c as real / 100.0) else None
  }

  /** The Steam entry built from an appdetails answer. */
  function SteamEntry(appId: string, data: SteamAppData): (r: AvailabilityEntry)
    ensures r.platform == Steam && r.platformId == appId && r.platformName == Some(data.name) && r.isAvailable
    ensures data.priceData.None? ==> r.price.None? && r.originalPrice.None? && r.discountPercent == 0 && r.currency == "USD"
    ensures data.priceData.Some? ==>
      r.price == CentsOrNull(data.priceData.value.final) && r.originalPrice == CentsOrNull(data.priceData.value.initial)
      && r.discountPercent == data.priceData.value.discountPercent
      && r.currency == (if data.priceData.value.currency == "" then "USD" else data.priceData.value.currency)
    ensures r.url == Some(SteamStorePrefix + appId) && r.imageUrl == data.headerImage
  {
    match data.priceData
    case None => AvailabilityEntry(Steam, appId, Some(data.name), None, None, 0, "USD", Some(SteamStorePrefix + appId), data.headerImage, true)
    case Some(pd) =>
      AvailabilityEntry(Steam, appId, Some(data.name), CentsOrNull(pd.final), CentsOrNull(pd.initial), pd.discountPercent,
        if pd.currency == "" then "USD" else pd.currency, Some(SteamStorePrefix + appId), data.headerImage, true)
  }

  predicate HasSteam(entries: seq<AvailabilityEntry>) {
    exists k :: 0 <= k < |entries| && entries[k].platform == Steam
  }

  /** The listing after the Steam check: the Steam entry is appended only when there is data and no Steam entry yet. */
  function WithSteam(entries: seq<AvailabilityEntry>, appId: string, details: Option<SteamAppDetails>): (r: seq<AvailabilityEntry>)
  {
    if details.Some? && details.value.data.Some? && !HasSteam(entries)
    then entries + [SteamEntry(appId, details.value.data.value)]
    else entries
  }

  /**
   * The Steam check adds at most one entry, only a Steam one, and only when
   * none was there; after it, a Steam answer with data always leaves a
   * Steam entry in the listing.
   */
  lemma WithSteamAddsOnlyIfAbsent(entries: seq<AvailabilityEntry>, appId: string, details: Option<SteamAppDetails>)
    ensures var r := WithSteam(entries, appId, details);
      r[..|entries|] == entries
      && (r == entries || (|r| == |entries| + 1 && r[|entries|].platform == Steam && !HasSteam(entries)))
      && (HasSteam(entries) ==> r == entries)
      && (details.Some? && details.value.data.Some? ==> HasSteam(r))
  {
    var r := WithSteam(entries, appId, details);
    if details.Some? && details.value.data.Some? && !HasSteam(entries) {
      assert r[|entries|].platform == Steam;
    }
  }

  /**
   * getPlatformAvailability: the offers of the first five games matching
   * the name (when one is given), then the Steam check (when an app id is
   * given). The Steam details looked up are returned beside the listing.
   */
  method GetPlatformAvailability(cache: TtlCache<CacheValue>, matching: seq<GameRow>, offers: seq<OfferRow>,
                                 gameName: Option<string>, steamAppId: Option<string>, now: int,
                                 appDetails: string -> nat -> Attempt<map<string, SteamAppDetails>>)
    returns (availability: seq<AvailabilityEntry>, steamDetails: Option<SteamAppDetails>)
    requires Disciplined(cache.entries)
    modifies cache
    ensures Disciplined(cache.entries)
    ensures !TruthyStr(steamAppId) ==> steamDetails.None? && cache.entries == old(cache.entries)
    ensures TruthyStr(steamAppId) ==>
      steamDetails == SteamAdapter.DetailsAnswer(old(cache.entries), steamAppId.value, now, appDetails)
      && cache.entries == SteamAdapter.DetailsCache(old(cache.entries), steamAppId.value, now, appDetails)
    ensures availability == WithSteam(if TruthyStr(gameName) then DbAvailability(Take(matching, AvailabilityMatches), offers) else [],
                                      if TruthyStr(steamAppId) then steamAppId.value else "", steamDetails)
  {
    availability := [];
    if TruthyStr(gameName) {
      var games := Take(matching, AvailabilityMatches);
      var i := 0;
      while i < |games|
        invariant 0 <= i <= |games|
        invariant availability == DbAvailability(games[..i], offers)
      {
        var platformsData := OffersOf(offers, games[i].id, None);
        ghost var before := availability;
        var j := 0;
        while j < |platformsData|
          invariant 0 <= j <= |platformsData|
          invariant availability == before + OfferEntries(platformsData[..j])
        {
          assert platformsData[..j + 1] == platformsData[..j] + [platformsData[j]];
          availability := availability + [OfferEntry(platformsData[j])];
          j := j + 1;
        }
        assert platformsData[..j] == platformsData;
        assert games[..i + 1][..i] == games[..i];
        i := i + 1;
      }
      assert games[..i] == games;
    }
    steamDetails := None;
    if TruthyStr(steamAppId) {
      var details, _ := SteamAdapter.GetSteamGameDetails(cache, steamAppId.value, now, appDetails);
      steamDetails := details;
      if details.Some? && details.value.data.Some? && !HasSteam(availability) {
        availability := availability + [SteamEntry(steamAppId.value, details.value.data.value)];
      }
    }
  }

  // ---------------------------------------------------------------------
  // getDetails

  datatype DetailsInput = DetailsInput(gameId: Option<nat>, platform: Platform, platformId: Option<string>)

  /** The record getDetails builds from a Steam appdetails answer. */
  datatype SteamDetailsView = SteamDetailsView(
    name: string,
    description: Option<string>,
    coverImage: Option<string>,
    genres: seq<string>,
    developer: Option<string>,
    releaseDate: Option<string>,
    platformData: PlatformData)

  datatype ExternalDetails = Normalized(game: NormalizedGame) | SteamView(view: SteamDetailsView)

  datatype DetailsResult =
    | DbDetails(game: GameRow, platformData: Option<OfferRow>, allPlatforms: seq<OfferRow>)
    | StoreDetails(external: Option<ExternalDetails>)

  /** What a storefront lookup answered. */
  datatype RawDetails = EpicRaw(epic: EpicGameResponse) | GogRaw(gog: GOGGameResponse) | SteamRaw(steam: SteamAppDetails)

  /** The first games row with the id. */
  function GameById(games: seq<GameRow>, id: nat): (r: Option<GameRow>)
    ensures r.Some? ==> r.value in games && r.value.id == id
    ensures r.None? ==> forall k :: 0 <= k < |games| ==> games[k].id != id
    ensures r.Some? ==> exists k :: 0 <= k < |games| && games[k] == r.value && forall j :: 0 <= j < k ==> games[j].id != id
  {
    if |games| == 0 then None
    else if games[0].id == id then Some(games[0])
    else
      var rest := GameById(games[1..], id);
      if rest.Some? then
        ghost var k :| 0 <= k < |games[1..]| && games[1..][k] == rest.value && forall j :: 0 <= j < k ==> games[1..][j].id != id;
        assert games[k + 1] == rest.value && forall j :: 0 <= j < k + 1 ==> games[j].id != id;
        rest
      else rest
  }

  /** Array.prototype.find by platform. */
  function FirstOn(os: seq<OfferRow>, platform: Platform): (r: Option<OfferRow>)
    ensures r.Some? ==> r.value in os && r.value.platform == platform
    ensures r.None? ==> forall k :: 0 <= k < |os| ==> os[k].platform != platform
    ensures |os| > 0 && os[0].platform == platform ==> r == Some(os[0])
  {
    if |os| == 0 then None
    else if os[0].platform == platform then Some(os[0])
    else FirstOn(os[1..], platform)
  }

  /** `platformId ? parseInt(platformId) : 0`, with NaN (falsy) read as 0. */
  function GogId(platformId: Option<string>): (r: nat)
    ensures !TruthyStr(platformId) ==> r == 0
    ensures TruthyStr(platformId) && ParseDigits(platformId.value).Some? ==> r == ParseDigits(platformId.value).value
  {
    if TruthyStr(platformId) then
      match ParseDigits(platformId.value)
      case Some(n) => n
      case None => 0
    else 0
  }

  /** The Steam record: genres default to none, the developer is the first one if non-empty. */
  function SteamDetailsOf(appId: string, data: SteamAppData): (r: SteamDetailsView)
    ensures r.name == data.name && r.description == data.shortDescription && r.coverImage == data.headerImage
    ensures r.genres == (if data.genres.Some? then data.genres.value else [])
    ensures r.developer.Some? ==> data.developers.Some? && |data.developers.value| > 0 && r.developer.value == data.developers.value[0] != ""
    ensures r.platformData == NormalizeSteamGame(appId, data.name).platformData
  {
    SteamDetailsView(
      data.name, data.shortDescription, data.headerImage,
      if data.genres.Some? then data.genres.value else [],
      if data.developers.Some? && |data.developers.value| > 0 then NonEmpty(Some(data.developers.value[0])) else None,
      NonEmpty(data.releaseDate),
      NormalizeSteamGame(appId, data.name).platformData)
  }

  /** The details record for what a storefront answered. */
  function ExternalOf(raw: Option<RawDetails>, appId: string): (r: Option<ExternalDetails>)
    ensures raw.None? ==> r.None?
    ensures raw.Some? && raw.value.EpicRaw? ==> r == Some(Normalized(NormalizeEpicGame(raw.value.epic)))
    ensures raw.Some? && raw.value.GogRaw? ==> r == Some(Normalized(NormalizeGogGame(raw.value.gog)))
    ensures raw.Some? && raw.value.SteamRaw? ==>
      r == (if raw.value.steam.data.Some? then Some(SteamView(SteamDetailsOf(appId, raw.value.steam.data.value))) else None)
  {
    match raw
    case None => None
    case Some(EpicRaw(g)) => Some(Normalized(NormalizeEpicGame(g)))
    case Some(GogRaw(g)) => Some(Normalized(NormalizeGogGame(g)))
    case Some(SteamRaw(d)) => if d.data.Some? then Some(SteamView(SteamDetailsOf(appId, d.data.value))) else None
  }

  /** The id names a games row, so the answer comes from the database. */
  predicate FromDatabase(games: seq<GameRow>, input: DetailsInput) {
    TruthyNat(input.gameId) && GameById(games, input.gameId.value).Some?
  }

  /** The storefront is asked: Epic and Steam need a platform id, GOG a non-zero numeric one. */
  predicate AsksStore(input: DetailsInput) {
    match input.platform
    case Epic => TruthyStr(input.platformId)
    case Steam => TruthyStr(input.platformId)
    case Gog => GogId(input.platformId) != 0
  }

  /**
   * What the storefront answers a getDetails that is not served from the
   * database, against the cache `entries`: the Epic product for the slug,
   * the GOG product for the numeric id, or the Steam appdetails entry for
   * the app id, each through its adapter; None when the storefront is not
   * asked or has nothing.
   */
  function StoreAnswer(entries: map<string, CacheEntry<CacheValue>>, input: DetailsInput, now: int,
                       epicRespond: EpicAdapter.EpicRequest -> nat -> Attempt<Option<EpicAdapter.EpicSearchStore>>,
                       gogRespond: nat -> nat -> Attempt<Option<GOGGameResponse>>,
                       appDetails: string -> nat -> Attempt<map<string, SteamAppDetails>>): (r: Option<RawDetails>)
    ensures r.Some? ==> AsksStore(input)
    ensures r.Some? ==> (r.value.EpicRaw? <==> input.platform == Epic) && (r.value.GogRaw? <==> input.platform == Gog)
  {
    if !AsksStore(input) then None
    else
      match input.platform
      case Epic =>
        var g := EpicAdapter.DetailsAnswer(entries, input.platformId.value, now, epicRespond);
        if g.Some? then Some(EpicRaw(g.value)) else None
      case Gog =>
        var g := GogAdapter.DetailsAnswer(entries, GogId(input.platformId), now, gogRespond);
        if g.Some? then Some(GogRaw(g.value)) else None
      case Steam =>
        var d := SteamAdapter.DetailsAnswer(entries, input.platformId.value, now, appDetails);
        if d.Some? then Some(SteamRaw(d.value)) else None
  }

  /** The cache key of the storefront lookup getDetails makes. */
  function StoreKey(input: DetailsInput): string {
    match input.platform
    case Epic => EpicAdapter.ProductKey(StrOr(input.platformId, ""))
    case Gog => GogAdapter.ProductKey(GogId(input.platformId))
    case Steam => SteamAdapter.DetailsKey(StrOr(input.platformId, ""))
  }

  /** The cache after the storefront lookup of getDetails against `entries`. */
  function StoreCache(entries: map<string, CacheEntry<CacheValue>>, input: DetailsInput, now: int,
                      epicRespond: EpicAdapter.EpicRequest -> nat -> Attempt<Option<EpicAdapter.EpicSearchStore>>,
                      gogRespond: nat -> nat -> Attempt<Option<GOGGameResponse>>,
                      appDetails: string -> nat -> Attempt<map<string, SteamAppDetails>>): (r: map<string, CacheEntry<CacheValue>>)
  {
    if !AsksStore(input) then entries
    else
      match input.platform
      case Epic => EpicAdapter.DetailsCache(entries, input.platformId.value, now, epicRespond)
      case Gog => GogAdapter.DetailsCache(entries, GogId(input.platformId), now, gogRespond)
      case Steam => SteamAdapter.DetailsCache(entries, input.platformId.value, now, appDetails)
  }

  /**
   * A storefront lookup writes at most its own key, and while that key holds
   * a live product the answer is the cached one whatever the network does.
   */
  lemma StoreLookupCached(entries: map<string, CacheEntry<CacheValue>>, input: DetailsInput, now: int,
                          epicRespond: EpicAdapter.EpicRequest -> nat -> Attempt<Option<EpicAdapter.EpicSearchStore>>,
                          gogRespond: nat -> nat -> Attempt<Option<GOGGameResponse>>,
                          appDetails: string -> nat -> Attempt<map<string, SteamAppDetails>>,
                          epicOther: EpicAdapter.EpicRequest -> nat -> Attempt<Option<EpicAdapter.EpicSearchStore>>,
                          gogOther: nat -> nat -> Attempt<Option<GOGGameResponse>>,
                          appOther: string -> nat -> Attempt<map<string, SteamAppDetails>>)
    ensures AgreeExcept(entries, StoreCache(entries, input, now, epicRespond, gogRespond, appDetails), StoreKey(input))
    ensures Lookup(entries, StoreKey(input), now).Some? ==>
      StoreCache(entries, input, now, epicRespond, gogRespond, appDetails) == entries
      && StoreAnswer(entries, input, now, epicRespond, gogRespond, appDetails) == StoreAnswer(entries, input, now, epicOther, gogOther, appOther)
  {
  }

  /**
   * getDetails: a known game id answers from the database (the game, its
   * first offer on the platform, all its offers); otherwise the platform's
   * storefront is asked when the id allows it, and what it answered is
   * returned beside the result.
   */
  method GetDetails(cache: TtlCache<CacheValue>, games: seq<GameRow>, offers: seq<OfferRow>, input: DetailsInput, now: int,
                    epicRespond: EpicAdapter.EpicRequest -> nat -> Attempt<Option<EpicAdapter.EpicSearchStore>>,
                    gogRespond: nat -> nat -> Attempt<Option<GOGGameResponse>>,
                    appDetails: string -> nat -> Attempt<map<string, SteamAppDetails>>)
    returns (r: DetailsResult, raw: Option<RawDetails>)
    requires Disciplined(cache.entries)
    modifies cache
    ensures Disciplined(cache.entries)
    ensures FromDatabase(games, input) ==>
      var g := GameById(games, input.gameId.value).value;
      r == DbDetails(g, FirstOn(OffersOf(offers, g.id, None), input.platform), OffersOf(offers, g.id, None))
      && raw.None? && cache.entries == old(cache.entries)
    ensures !FromDatabase(games, input) ==> r == StoreDetails(ExternalOf(raw, if TruthyStr(input.platformId) then input.platformId.value else ""))
    ensures !FromDatabase(games, input) ==>
      raw == StoreAnswer(old(cache.entries), input, now, epicRespond, gogRespond, appDetails)
      && cache.entries == StoreCache(old(cache.entries), input, now, epicRespond, gogRespond, appDetails)
    ensures !AsksStore(input) ==> raw.None? && cache.entries == old(cache.entries)
    ensures raw.Some? ==> !FromDatabase(games, input) && AsksStore(input)
    ensures raw.Some? ==> (raw.value.EpicRaw? <==> input.platform == Epic) && (raw.value.GogRaw? <==> input.platform == Gog)
  {
    raw := None;
    if TruthyNat(input.gameId) {
      var found := GameById(games, input.gameId.value);
      if found.Some? {
        var all := OffersOf(offers, found.value.id, None);
        return DbDetails(found.value, FirstOn(all, input.platform), all), None;
      }
    }
    match input.platform {
      case Epic =>
        if TruthyStr(input.platformId) {
          var g, _ := EpicAdapter.GetEpicGameDetails(cache, input.platformId.value, now, epicRespond);
          if g.Some? {
            raw := Some(EpicRaw(g.value));
          }
        }
      case Gog =>
        var gogId := GogId(input.platformId);
        if gogId != 0 {
          var g, _ := GogAdapter.GetGogGameDetails(cache, gogId, now, gogRespond);
          if g.Some? {
            raw := Some(GogRaw(g.value));
          }
        }
      case Steam =>
        if TruthyStr(input.platformId) {
          var d, _ := SteamAdapter.GetSteamGameDetails(cache, input.platformId.value, now, appDetails);
          if d.Some? {
            raw := Some(SteamRaw(d.value));
          }
        }
    }
    r := StoreDetails(ExternalOf(raw, if TruthyStr(input.platformId) then input.platformId.value else ""));
  }
}
