// The class-based Epic service: turns a catalogue element into the
// service-level game shape, merges it into the games table by exact name,
// upserts its offer row matched by the store's product id, and runs a whole
// sync behind the throttle, isolating each element's failure and logging
// the run with a status decided by the number of errors.

module EpicGamesService {
  import opened Common
  import opened PlatformService
  import opened PlatformApiBase

  const EpicProductUrlPrefix: string := "https://store.epicgames.com/p/"
  const SkippedMessage: string := "Sync skipped - not due yet"

  /** Up to this many failed elements the run still counts as a success. */
  const ToleratedErrors: nat := 5

  /** price.totalPrice of a catalogue element: amounts in cents, the discount as sent. */
  datatype EpicServicePrice = EpicServicePrice(originalPrice: Option<nat>, discountPrice: Option<nat>, discount: Option<real>)

  /**
   * A catalogue element as this service requests it.  Categories are their
   * paths, tags their names, and the seller is reduced to its name.
   */
  datatype EpicCatalogGame = EpicCatalogGame(
    id: string,
    title: string,
    description: Option<string>,
    longDescription: Option<string>,
    keyImages: Option<seq<KeyImage>>,
    categories: Option<seq<string>>,
    tags: Option<seq<string>>,
    sellerName: Option<string>,
    price: Option<EpicServicePrice>,
    urlSlug: Option<string>,
    productSlug: Option<string>,
    releaseDate: Option<string>)

  /** What the catalogue request produced. */
  datatype CatalogAnswer =
    | Delivered(elements: Option<seq<EpicCatalogGame>>)
    | HttpError(status: nat)
    | FetchThrew(thrown: Thrown)

  /** Where the processing of one element throws: before any write, or after the game row was written. */
  datatype ElementFault = BeforeGameWrite(thrown: Thrown) | BeforeOfferWrite(thrown: Thrown)

  // ---------------------------------------------------------------------
  // transformEpicGame

  predicate IsStorefront(image: KeyImage) {
    image.imageType == "DieselStoreFrontWide" || image.imageType == "DieselStoreFrontTall"
  }

  /** The position of the first storefront image. */
  function FirstStorefront(images: seq<KeyImage>): (r: Option<nat>)
    ensures r.Some? ==> r.value < |images| && IsStorefront(images[r.value])
    ensures r.Some? ==> forall j :: 0 <= j < r.value ==> !IsStorefront(images[j])
    ensures r.None? ==> forall j :: 0 <= j < |images| ==> !IsStorefront(images[j])
  {
    if |images| == 0 then None
    else if IsStorefront(images[0]) then Some(0)
    else
      var rest := FirstStorefront(images[1..]);
      if rest.Some? then Some(rest.value + 1) else None
  }

  /** `${value}` of an optional string: a missing one prints as "undefined". */
  function Interpolated(s: Option<string>): string {
    if s.Some? then s.value else "undefined"
  }

  /** `originalPrice || 0`, in cents. */
  function OriginalCents(g: EpicCatalogGame): nat {
    if g.price.Some? && TruthyNat(g.price.value.originalPrice) then g.price.value.originalPrice.value else 0
  }

  /** `discountPrice || price`, in cents. */
  function DiscountCents(g: EpicCatalogGame): nat {
    if g.price.Some? && TruthyNat(g.price.value.discountPrice) then g.price.value.discountPrice.value else OriginalCents(g)
  }

  /** `discount || 0`. */
  function UpstreamDiscount(g: EpicCatalogGame): real {
    if g.price.Some? && g.price.value.discount.Some? then g.price.value.discount.value else 0.0
  }

  /**
   * transformEpicGame: prices converted from cents, with the sale price
   * falling back to the original price; the discount as sent, rounded; the
   * first storefront image; categories and tags comma-joined; the seller as
   * developer and publisher; the product page by product slug, else URL slug.
   */
  function TransformEpicGame(g: EpicCatalogGame): (r: PlatformGame)
    ensures r.platformId == g.id && r.name == g.title
    ensures r.platformPrice == Some(Hundredths(DiscountCents(g)))
    ensures r.originalPrice == Some(Hundredths(OriginalCents(g)))
    ensures r.discountPercent.Some?
    ensures r.discountPercent.value as real <= UpstreamDiscount(g) + 0.5 < r.discountPercent.value as real + 1.0
    ensures TruthyStr(g.longDescription) ==> r.description == g.longDescription
    ensures !TruthyStr(g.longDescription) ==> r.description == g.description
    ensures r.shortDescription == g.description
    ensures g.keyImages.None? ==> r.imageUrl.None?
    ensures g.keyImages.Some? ==>
      var k := FirstStorefront(g.keyImages.value);
      (k.None? ==> r.imageUrl.None?) && (k.Some? ==> r.imageUrl == g.keyImages.value[k.value].url)
    ensures r.genres == Some(Join(if g.categories.Some? then g.categories.value else [], ","))
    ensures r.tags == Some(Join(if g.tags.Some? then g.tags.value else [], ","))
    ensures r.developer == g.sellerName && r.publisher == g.sellerName
    ensures r.releaseDate == NonEmpty(g.releaseDate) && r.metacriticScore.None?
    ensures r.currency == Some("USD") && r.available == Some(FlagTrue) && r.drmFree == Some(FlagFalse)
    ensures TruthyStr(g.productSlug) ==> r.platformUrl == Some(EpicProductUrlPrefix + g.productSlug.value)
    ensures !TruthyStr(g.productSlug) ==> r.platformUrl == Some(EpicProductUrlPrefix + Interpolated(g.urlSlug))
  {
    var image := if g.keyImages.Some? then FirstStorefront(g.keyImages.value) else None;
    PlatformGame(
      g.id,
      g.title,
      OrStr(g.longDescription, g.description),
      g.description,
      if image.Some? then g.keyImages.value[image.value].url else None,
      Some(Join(if g.categories.Some? then g.categories.value else [], ",")),
      Some(Join(if g.tags.Some? then g.tags.value else [], ",")),
      g.sellerName,
      g.sellerName,
      NonEmpty(g.releaseDate),
      None,
      Some(Hundredths(DiscountCents(g))),
      Some(Hundredths(OriginalCents(g))),
      Some(JsRound(UpstreamDiscount(g))),
      Some("USD"),
      Some(EpicProductUrlPrefix + (if TruthyStr(g.productSlug) then g.productSlug.value else Interpolated(g.urlSlug))),
      Some(FlagTrue),
      Some(FlagFalse))
  }

  /** Without a sale price (missing or zero) the offer's price is its original price. */
  lemma NoSalePriceMeansOriginal(g: EpicCatalogGame)
    requires g.price.None? || !TruthyNat(g.price.value.discountPrice)
    ensures TransformEpicGame(g).platformPrice == TransformEpicGame(g).originalPrice
  {
  }

  // ---------------------------------------------------------------------
  // syncEpicGame as functions on the tables

  /** `value || existing` on an optional value whose present values are all truthy (a release date is a `Date`). */
  function OrOption<T>(value: Option<T>, existing: Option<T>): Option<T> {
    if value.Some? then value else existing
  }

  /** `value || existing` on an optional number. */
  function OrScore(value: Option<int>, existing: Option<int>): Option<int> {
    if TruthyInt(value) then value else existing
  }

  /**
   * The update of an existing game: each descriptive column takes the new
   * value when it is truthy and keeps the stored one otherwise, so no
   * truthy column is ever cleared and a truthy new value always lands.
   */
  function MergeGame(existing: ServiceGameRow, pg: PlatformGame): (r: ServiceGameRow)
    ensures r.id == existing.id && r.name == existing.name
    ensures TruthyStr(existing.description) ==> TruthyStr(r.description)
    ensures TruthyStr(pg.description) ==> r.description == pg.description
    ensures !TruthyStr(pg.description) ==> r.description == existing.description
    ensures TruthyStr(pg.imageUrl) ==> r.imageUrl == pg.imageUrl
    ensures !TruthyStr(pg.imageUrl) ==> r.imageUrl == existing.imageUrl
    ensures TruthyStr(pg.genres) ==> r.genres == pg.genres
    ensures !TruthyStr(pg.genres) ==> r.genres == existing.genres
    ensures TruthyInt(pg.metacriticScore) ==> r.metacriticScore == pg.metacriticScore
    ensures !TruthyInt(pg.metacriticScore) ==> r.metacriticScore == existing.metacriticScore
    ensures TruthyStr(pg.shortDescription) ==> r.shortDescription == pg.shortDescription
    ensures !TruthyStr(pg.shortDescription) ==> r.shortDescription == existing.shortDescription
    ensures TruthyStr(pg.tags) ==> r.tags == pg.tags
    ensures !TruthyStr(pg.tags) ==> r.tags == existing.tags
    ensures TruthyStr(pg.developer) ==> r.developer == pg.developer
    ensures !TruthyStr(pg.developer) ==> r.developer == existing.developer
    ensures TruthyStr(pg.publisher) ==> r.publisher == pg.publisher
    ensures !TruthyStr(pg.publisher) ==> r.publisher == existing.publisher
    ensures pg.releaseDate.Some? ==> r.releaseDate == pg.releaseDate
    ensures pg.releaseDate.None? ==> r.releaseDate == existing.releaseDate
  {
    existing.(
      description := OrStr(pg.description, existing.description),
      shortDescription := OrStr(pg.shortDescription, existing.shortDescription),
      imageUrl := OrStr(pg.imageUrl, existing.imageUrl),
      genres := OrStr(pg.genres, existing.genres),
      tags := OrStr(pg.tags, existing.tags),
      developer := OrStr(pg.developer, existing.developer),
      publisher := OrStr(pg.publisher, existing.publisher),
      releaseDate := OrOption(pg.releaseDate, existing.releaseDate),
      metacriticScore := OrScore(pg.metacriticScore, existing.metacriticScore))
  }

  /** Merging the same game twice is merging it once. */
  lemma MergeIdempotent(existing: ServiceGameRow, pg: PlatformGame)
    ensures MergeGame(MergeGame(existing, pg), pg) == MergeGame(existing, pg)
  {
  }

  /** The position of the first row whose key is `want` (a `select … where … limit 1` on that column). */
  function FirstKeyed<T>(rows: seq<T>, key: T -> string, want: string): (r: Option<nat>)
    ensures r.Some? ==> r.value < |rows| && key(rows[r.value]) == want
    ensures r.Some? ==> forall j :: 0 <= j < r.value ==> key(rows[j]) != want
    ensures r.None? ==> forall j :: 0 <= j < |rows| ==> key(rows[j]) != want
  {
    if |rows| == 0 then None
    else if key(rows[0]) == want then Some(0)
    else
      var rest := FirstKeyed(rows[1..], key, want);
      if rest.Some? then Some(rest.value + 1) else None
  }

  function NameOf(g: ServiceGameRow): string { g.name }

  function PlatformIdOf(o: PlatformOffer): string { o.platformId }

  /** The position of the first game with exactly this name. */
  function FirstNamed(games: seq<ServiceGameRow>, name: string): Option<nat> {
    FirstKeyed(games, NameOf, name)
  }

  /** The position of the first offer with this product id, whatever its platform. */
  function FirstWithPlatformId(offers: seq<PlatformOffer>, platformId: string): Option<nat> {
    FirstKeyed(offers, PlatformIdOf, platformId)
  }

  /**
   * The game statement: the first game with the exact name is merged and
   * its id returned; otherwise a new game takes the next id.
   */
  function SaveGame(t: ServiceTables, pg: PlatformGame): (r: (ServiceTables, nat))
    ensures r.0.offers == t.offers && r.0.nextOfferId == t.nextOfferId
    ensures FirstNamed(t.games, pg.name).Some? ==>
      var k := FirstNamed(t.games, pg.name).value;
      r.1 == t.games[k].id && r.0.games == t.games[k := MergeGame(t.games[k], pg)] && r.0.nextGameId == t.nextGameId
    ensures FirstNamed(t.games, pg.name).None? ==>
      r.1 == t.nextGameId && r.0.nextGameId == t.nextGameId + 1
      && r.0.games == t.games + [ServiceGameRow(t.nextGameId, pg.name, pg.description, pg.shortDescription, pg.imageUrl,
                                                pg.genres, pg.tags, pg.developer, pg.publisher, pg.releaseDate, pg.metacriticScore)]
  {
    var found := FirstNamed(t.games, pg.name);
    if found.Some? then
      (t.(games := t.games[found.value := MergeGame(t.games[found.value], pg)]), t.games[found.value].id)
    else
      (t.(games := t.games + [ServiceGameRow(t.nextGameId, pg.name, pg.description, pg.shortDescription, pg.imageUrl,
                                             pg.genres, pg.tags, pg.developer, pg.publisher, pg.releaseDate, pg.metacriticScore)],
          nextGameId := t.nextGameId + 1),
       t.nextGameId)
  }

  /**
   * The offer statement: the first row with the product id gets the new
   * prices, discount, currency, availability and sync date (its game,
   * platform, URL and DRM flag stay); otherwise an Epic row for the game is
   * appended, marked not DRM-free.
   */
  function SaveOffer(t: ServiceTables, gameId: nat, pg: PlatformGame, now: int): (r: ServiceTables)
    ensures r.games == t.games && r.nextGameId == t.nextGameId
    ensures FirstWithPlatformId(t.offers, pg.platformId).Some? ==> |r.offers| == |t.offers| && r.nextOfferId == t.nextOfferId
    ensures FirstWithPlatformId(t.offers, pg.platformId).Some? ==>
      var k := FirstWithPlatformId(t.offers, pg.platformId).value;
      var o := r.offers[k];
      (forall j :: 0 <= j < |t.offers| && j != k ==> r.offers[j] == t.offers[j])
      && o.id == t.offers[k].id && o.gameId == t.offers[k].gameId && o.platform == t.offers[k].platform
      && o.platformId == pg.platformId && o.platformUrl == t.offers[k].platformUrl && o.drmFree == t.offers[k].drmFree
      && o.platformPrice == pg.platformPrice && o.originalPrice == pg.originalPrice
      && o.discountPercent == pg.discountPercent && o.currency == pg.currency
      && o.available == pg.available && o.lastSyncDate == Some(now)
    ensures FirstWithPlatformId(t.offers, pg.platformId).None? ==>
      r.nextOfferId == t.nextOfferId + 1
      && r.offers == t.offers + [PlatformOffer(t.nextOfferId, gameId, Epic, pg.platformId, pg.platformUrl, pg.platformPrice,
                                               pg.originalPrice, pg.discountPercent, pg.currency, pg.available, Some(FlagFalse), Some(now))]
  {
    var found := FirstWithPlatformId(t.offers, pg.platformId);
    if found.Some? then
      var o := t.offers[found.value];
      t.(offers := t.offers[found.value := o.(platformPrice := pg.platformPrice, originalPrice := pg.originalPrice,
                                               discountPercent := pg.discountPercent, currency := pg.currency,
                                               lastSyncDate := Some(now), available := pg.available)])
    else
      t.(offers := t.offers + [PlatformOffer(t.nextOfferId, gameId, Epic, pg.platformId, pg.platformUrl, pg.platformPrice,
                                              pg.originalPrice, pg.discountPercent, pg.currency, pg.available, Some(FlagFalse), Some(now))],
         nextOfferId := t.nextOfferId + 1)
  }

  /** How many of the two statements (game, offer) an element's processing completes. */
  function Reach(fault: Option<ElementFault>): (k: nat)
    ensures k <= 2
  {
    if fault.None? then 2 else if fault.value.BeforeGameWrite? then 0 else 1
  }

  /**
   * The tables, the game id and the transformed product after the first k
   * writes of syncEpicGame (save the game, then its offer).  The transform
   * comes first and cannot throw.
   */
  function GameStatements(t: ServiceTables, g: EpicCatalogGame, now: int, k: nat): (r: (ServiceTables, nat, PlatformGame))
    requires k <= 2
    ensures k == 0 ==> r.0 == t
  {
    if k == 0 then (t, 0, TransformEpicGame(g))
    else
      var p := GameStatements(t, g, now, k - 1);
      if k == 1 then var saved := SaveGame(p.0, p.2); (saved.0, saved.1, p.2)
      else (SaveOffer(p.0, p.1, p.2, now), p.1, p.2)
  }

  /** syncEpicGame, up to the statement that throws, if any. */
  function SyncGame(t: ServiceTables, g: EpicCatalogGame, fault: Option<ElementFault>, now: int): ServiceTables {
    GameStatements(t, g, now, Reach(fault)).0
  }

  /** A clean sync of an element saves its game and then its offer. */
  lemma CleanSyncGame(t: ServiceTables, g: EpicCatalogGame, now: int)
    ensures var pg := TransformEpicGame(g);
      var saved := SaveGame(t, pg);
      SyncGame(t, g, None, now) == SaveOffer(saved.0, saved.1, pg, now)
  {
    var pg := TransformEpicGame(g);
    assert GameStatements(t, g, now, 1).0 == SaveGame(t, pg).0;
    assert GameStatements(t, g, now, 1).1 == SaveGame(t, pg).1 && GameStatements(t, g, now, 1).2 == pg;
  }

  /**
   * After a clean sync of an element, the tables hold a game with its
   * title and an offer with its product id.
   */
  lemma SyncGameStores(t: ServiceTables, g: EpicCatalogGame, now: int)
    ensures FirstNamed(SyncGame(t, g, None, now).games, g.title).Some?
    ensures FirstWithPlatformId(SyncGame(t, g, None, now).offers, g.id).Some?
  {
    var pg := TransformEpicGame(g);
    var saved := SaveGame(t, pg);
    var r := SaveOffer(saved.0, saved.1, pg, now);
    CleanSyncGame(t, g, now);
    var k := FirstNamed(t.games, g.title);
    if k.None? {
      assert saved.0.games[|t.games|].name == g.title;
    } else {
      assert saved.0.games[k.value].name == g.title;
    }
    var m := FirstWithPlatformId(saved.0.offers, g.id);
    if m.None? {
      assert r.offers[|saved.0.offers|].platformId == g.id;
    } else {
      assert r.offers[m.value].platformId == g.id;
    }
  }

  /** Syncing an element again adds no game and no offer row. */
  lemma ResyncAddsNoRows(t: ServiceTables, g: EpicCatalogGame, now: int, later: int)
    ensures var once := SyncGame(t, g, None, now);
      var twice := SyncGame(once, g, None, later);
      |twice.games| == |once.games| && |twice.offers| == |once.offers|
  {
    SyncGameStores(t, g, now);
    CleanSyncGame(SyncGame(t, g, None, now), g, later);
  }

  // ---------------------------------------------------------------------
  // The run

  /** The message recorded for an element that failed. */
  function ElementError(title: string, thrown: Thrown): string {
    "Failed to sync Epic game " + title + ": " + ThrownMessage(thrown)
  }

  /** The number of faulted elements among the first n. */
  function FaultCount(faults: nat -> Option<ElementFault>, n: nat): nat {
    if n == 0 then 0 else FaultCount(faults, n - 1) + (if faults(n - 1).Some? then 1 else 0)
  }

  /**
   * The loop over the elements: the tables, the number synced and the
   * errors after the first n elements.  Every element either counts as
   * synced or adds exactly one error naming it.
   */
  function SyncAll(t: ServiceTables, games: seq<EpicCatalogGame>, faults: nat -> Option<ElementFault>, now: int, n: nat)
    : (r: (ServiceTables, nat, seq<string>))
    requires n <= |games|
    ensures r.1 + |r.2| == n
    ensures |r.2| == FaultCount(faults, n)
  {
    if n == 0 then (t, 0, [])
    else
      var p := SyncAll(t, games, faults, now, n - 1);
      var next := SyncGame(p.0, games[n - 1], faults(n - 1), now);
      if faults(n - 1).Some? then (next, p.1, p.2 + [ElementError(games[n - 1].title, faults(n - 1).value.thrown)])
      else (next, p.1 + 1, p.2)
  }

  /** One more element: its statements run on the tables so far, then it counts as synced or adds its error. */
  lemma SyncAllStep(t: ServiceTables, games: seq<EpicCatalogGame>, faults: nat -> Option<ElementFault>, now: int, i: nat)
    requires i < |games|
    ensures var p := SyncAll(t, games, faults, now, i);
      SyncAll(t, games, faults, now, i + 1).0 == SyncGame(p.0, games[i], faults(i), now)
    ensures var p := SyncAll(t, games, faults, now, i);
      SyncAll(t, games, faults, now, i + 1).1 == if faults(i).Some? then p.1 else p.1 + 1
    ensures var p := SyncAll(t, games, faults, now, i);
      SyncAll(t, games, faults, now, i + 1).2
        == if faults(i).Some? then p.2 + [ElementError(games[i].title, faults(i).value.thrown)] else p.2
  {
  }

  /** Each recorded error names an element that failed, with what it threw. */
  lemma {:induction false} ErrorsNameFailedElements(t: ServiceTables, games: seq<EpicCatalogGame>, faults: nat -> Option<ElementFault>,
                                                    now: int, n: nat)
    requires n <= |games|
    ensures forall e :: e in SyncAll(t, games, faults, now, n).2 ==>
      exists i :: 0 <= i < n && faults(i).Some? && e == ElementError(games[i].title, faults(i).value.thrown)
  {
    if n > 0 {
      ErrorsNameFailedElements(t, games, faults, now, n - 1);
    }
  }

  /** The logged status: success without errors, partial with up to five, failed beyond. */
  function RunStatus(errorCount: nat): (s: ServiceSyncStatus)
    ensures s == SyncSuccess <==> errorCount == 0
    ensures s == SyncPartial <==> 0 < errorCount <= ToleratedErrors
    ensures s == SyncFailed <==> errorCount > ToleratedErrors
  {
    if errorCount > 0 then (if errorCount > ToleratedErrors then SyncFailed else SyncPartial) else SyncSuccess
  }

  /** The returned flag, `errors.length === 0 || errors.length <= 5`. */
  function RunSucceeded(errorCount: nat): bool {
    errorCount == 0 || errorCount <= ToleratedErrors
  }

  /** The returned flag is true exactly when the logged status is not 'failed'. */
  lemma SucceededIffNotFailed(errorCount: nat)
    ensures RunSucceeded(errorCount) <==> RunStatus(errorCount) != SyncFailed
  {
  }

  /** The message of a catalogue request that did not deliver. */
  function FetchFailure(answer: CatalogAnswer): string
    requires !answer.Delivered?
  {
    match answer
    case HttpError(status) => "Epic sync error: " + NatToString(status)
    case FetchThrew(thrown) => ThrownMessage(thrown)
  }

  /** The elements a delivered answer carries (`elements || []`). */
  function DeliveredGames(answer: CatalogAnswer): (games: seq<EpicCatalogGame>)
    requires answer.Delivered?
    ensures answer.elements.None? ==> games == []
  {
    if answer.elements.Some? then answer.elements.value else []
  }

  /** The result syncGames returns once it does not skip. */
  function SyncOutcome(t: ServiceTables, answer: CatalogAnswer, faults: nat -> Option<ElementFault>, start: int, now: int)
    : PlatformSyncResult
  {
    if answer.Delivered? then
      var run := SyncAll(t, DeliveredGames(answer), faults, now, |DeliveredGames(answer)|);
      PlatformSyncResult(RunSucceeded(|run.2|), run.1, run.2, now - start)
    else
      PlatformSyncResult(false, 0, ["Epic sync failed: " + FetchFailure(answer)], now - start)
  }

  /** The game and offer tables once syncGames does not skip: a failed fetch writes nothing. */
  function SyncOutcomeTables(t: ServiceTables, answer: CatalogAnswer, faults: nat -> Option<ElementFault>, now: int)
    : ServiceTables
  {
    if answer.Delivered? then SyncAll(t, DeliveredGames(answer), faults, now, |DeliveredGames(answer)|).0 else t
  }

  /**
   * The log row syncGames appends once it does not skip; the start time is
   * back-dated by one rate-limit delay per synced game.
   */
  function SyncOutcomeLog(t: ServiceTables, answer: CatalogAnswer, faults: nat -> Option<ElementFault>, now: int)
    : PlatformLogRow
  {
    if answer.Delivered? then
      var run := SyncAll(t, DeliveredGames(answer), faults, now, |DeliveredGames(answer)|);
      PlatformLogRow(Epic, FullSync, RunStatus(|run.2|), run.1, Join(run.2, "\n"),
                     now - run.1 * DefaultRateLimitDelay, Some(now))
    else
      PlatformLogRow(Epic, FullSync, SyncFailed, 0, "Epic sync failed: " + FetchFailure(answer), now, Some(now))
  }

  /**
   * A run that does not skip succeeds exactly when the fetch was delivered
   * and at most five elements failed; its status and its result agree.
   */
  lemma SyncOutcomeTolerance(t: ServiceTables, answer: CatalogAnswer, faults: nat -> Option<ElementFault>, start: int, now: int)
    ensures var r := SyncOutcome(t, answer, faults, start, now);
      (r.success <==> answer.Delivered? && |r.errors| <= ToleratedErrors)
      && (r.success <==> SyncOutcomeLog(t, answer, faults, now).status != SyncFailed)
  {
    if answer.Delivered? {
      var run := SyncAll(t, DeliveredGames(answer), faults, now, |DeliveredGames(answer)|);
      SucceededIffNotFailed(|run.2|);
    }
  }

  class EpicGamesService {
    const api: PlatformApi

    /** The service's base is configured for epic, a twelve-hour throttle and a one-second delay. */
    predicate Valid() {
      api.platform == Epic && api.cacheTtlHours == DefaultCacheTtlHours && api.rateLimitDelay == DefaultRateLimitDelay
    }

    /** Platform epic, a twelve-hour throttle and a one-second delay between games. */
    constructor()
      ensures fresh(api) && Valid()
    {
      api := new PlatformApi(Epic, Some(12), Some(1000));
    }

    /** syncEpicGame against the database. */
    method SyncEpicGame(db: ServiceDb, g: EpicCatalogGame, fault: Option<ElementFault>, now: int)
      modifies db
      ensures db.State() == SyncGame(old(db.State()), g, fault, now)
      ensures db.logs == old(db.logs)
    {
      var pg := TransformEpicGame(g);
      if fault.Some? && fault.value.BeforeGameWrite? {
        assert db.State() == GameStatements(old(db.State()), g, now, 0).0;
        return;
      }
      var gameId: nat;
      var found := FirstNamed(db.games, pg.name);
      if found.Some? {
        gameId := db.games[found.value].id;
        db.games := db.games[found.value := MergeGame(db.games[found.value], pg)];
      } else {
        gameId := db.nextGameId;
        db.games := db.games + [ServiceGameRow(gameId, pg.name, pg.description, pg.shortDescription, pg.imageUrl,
                                               pg.genres, pg.tags, pg.developer, pg.publisher, pg.releaseDate, pg.metacriticScore)];
        db.nextGameId := db.nextGameId + 1;
      }
      assert db.State() == GameStatements(old(db.State()), g, now, 1).0;
      assert gameId == GameStatements(old(db.State()), g, now, 1).1 && pg == GameStatements(old(db.State()), g, now, 1).2;
      if fault.Some? {
        return;
      }
      var existing := FirstWithPlatformId(db.offers, pg.platformId);
      if existing.Some? {
        var o := db.offers[existing.value];
        db.offers := db.offers[existing.value := o.(platformPrice := pg.platformPrice, originalPrice := pg.originalPrice,
                                                     discountPercent := pg.discountPercent, currency := pg.currency,
                                                     lastSyncDate := Some(now), available := pg.available)];
      } else {
        db.offers := db.offers + [PlatformOffer(db.nextOfferId, gameId, Epic, pg.platformId, pg.platformUrl, pg.platformPrice,
                                                pg.originalPrice, pg.discountPercent, pg.currency, pg.available, Some(FlagFalse), Some(now))];
        db.nextOfferId := db.nextOfferId + 1;
      }
      assert db.State() == GameStatements(old(db.State()), g, now, 2).0;
    }

    /** The loop over the delivered elements, each in its own try. */
    method SyncElements(db: ServiceDb, games: seq<EpicCatalogGame>, faults: nat -> Option<ElementFault>, now: int)
      returns (synced: nat, errors: seq<string>)
      modifies db
      ensures db.State() == SyncAll(old(db.State()), games, faults, now, |games|).0
      ensures synced == SyncAll(old(db.State()), games, faults, now, |games|).1
      ensures errors == SyncAll(old(db.State()), games, faults, now, |games|).2
      ensures db.logs == old(db.logs)
    {
      synced, errors := 0, [];
      var i := 0;
      while i < |games|
        invariant 0 <= i <= |games|
        invariant db.State() == SyncAll(old(db.State()), games, faults, now, i).0
        invariant synced == SyncAll(old(db.State()), games, faults, now, i).1
        invariant errors == SyncAll(old(db.State()), games, faults, now, i).2
        invariant db.logs == old(db.logs)
      {
        SyncAllStep(old(db.State()), games, faults, now, i);
        SyncEpicGame(db, games[i], faults(i), now);
        if faults(i).Some? {
          errors := errors + [ElementError(games[i].title, faults(i).value.thrown)];
        } else {
          synced := synced + 1;
        }
        i := i + 1;
      }
    }

    /**
     * syncGames: skipped (nothing fetched or written) unless forced or due
     * by the throttle as written (`ShouldSyncAsWritten`, which reads the
     * oldest successful run);
     * otherwise the delivered elements are synced one by one and the run is
     * logged with the status its error count decides; a request that does
     * not deliver is logged as failed with nothing synced.
     */
    method SyncGames(db: ServiceDb, force: bool, answer: CatalogAnswer, faults: nat -> Option<ElementFault>, start: int, now: int)
      returns (result: PlatformSyncResult)
      requires Valid()
      modifies db
      ensures !force && !ShouldSyncAsWritten(old(db.logs), Epic, api.cacheTtlHours, start) ==>
        result == PlatformSyncResult(true, 0, [SkippedMessage], 0)
        && db.State() == old(db.State()) && db.logs == old(db.logs)
      ensures (force || ShouldSyncAsWritten(old(db.logs), Epic, api.cacheTtlHours, start)) ==>
        result == SyncOutcome(old(db.State()), answer, faults, start, now)
        && db.State() == SyncOutcomeTables(old(db.State()), answer, faults, now)
        && db.logs == old(db.logs) + [SyncOutcomeLog(old(db.State()), answer, faults, now)]
      ensures result.success ==> |result.errors| <= ToleratedErrors
      ensures answer.Delivered? && !result.success ==> |result.errors| > ToleratedErrors
    {
      if !force && !ShouldSyncAsWritten(db.logs, Epic, api.cacheTtlHours, start) {
        return PlatformSyncResult(true, 0, [SkippedMessage], 0);
      }
      result := FetchAndSync(db, answer, faults, start, now);
      SyncOutcomeTolerance(old(db.State()), answer, faults, start, now);
    }

    /**
     * syncGames as evidently intended: as `SyncGames`, but throttled by
     * `ShouldSync`, which reads the newest successful run; skipped unless
     * forced or due;
     * otherwise the delivered elements are synced one by one and the run is
     * logged with the status its error count decides; a request that does
     * not deliver is logged as failed with nothing synced.
     */
    method SyncGamesCorrected(db: ServiceDb, force: bool, answer: CatalogAnswer, faults: nat -> Option<ElementFault>, start: int, now: int)
      returns (result: PlatformSyncResult)
      requires Valid()
      modifies db
      ensures !force && !ShouldSync(old(db.logs), Epic, api.cacheTtlHours, start) ==>
        result == PlatformSyncResult(true, 0, [SkippedMessage], 0)
        && db.State() == old(db.State()) && db.logs == old(db.logs)
      ensures (force || ShouldSync(old(db.logs), Epic, api.cacheTtlHours, start)) ==>
        result == SyncOutcome(old(db.State()), answer, faults, start, now)
        && db.State() == SyncOutcomeTables(old(db.State()), answer, faults, now)
        && db.logs == old(db.logs) + [SyncOutcomeLog(old(db.State()), answer, faults, now)]
      ensures result.success ==> |result.errors| <= ToleratedErrors
      ensures answer.Delivered? && !result.success ==> |result.errors| > ToleratedErrors
    {
      if !force && !ShouldSync(db.logs, Epic, api.cacheTtlHours, start) {
        return PlatformSyncResult(true, 0, [SkippedMessage], 0);
      }
      result := FetchAndSync(db, answer, faults, start, now);
      SyncOutcomeTolerance(old(db.State()), answer, faults, start, now);
    }

    /** The try block of syncGames and its catch: fetch, loop over the elements, log the run. */
    method FetchAndSync(db: ServiceDb, answer: CatalogAnswer, faults: nat -> Option<ElementFault>, start: int, now: int)
      returns (result: PlatformSyncResult)
      requires Valid()
      modifies db
      ensures result == SyncOutcome(old(db.State()), answer, faults, start, now)
      ensures db.State() == SyncOutcomeTables(old(db.State()), answer, faults, now)
      ensures db.logs == old(db.logs) + [SyncOutcomeLog(old(db.State()), answer, faults, now)]
    {
      if !answer.Delivered? {
        result := RecordFetchFailure(db, answer, faults, start, now);
        return;
      }
      var games := DeliveredGames(answer);
      var synced, errors := SyncElements(db, games, faults, now);
      ghost var run := SyncAll(old(db.State()), games, faults, now, |games|);
      assert synced * api.rateLimitDelay == run.1 * DefaultRateLimitDelay;
      ghost var row := SyncOutcomeLog(old(db.State()), answer, faults, now);
      assert row == PlatformLogRow(Epic, FullSync, RunStatus(|errors|), synced, Join(errors, "\n"),
                                   now - synced * api.rateLimitDelay, Some(now));
      api.LogSync(db, FullSync, RunStatus(|errors|), synced, errors, now);
      result := PlatformSyncResult(RunSucceeded(|errors|), synced, errors, now - start);
    }

    /** The catch block of syncGames: the request failed, so only a failed run is logged. */
    method RecordFetchFailure(db: ServiceDb, answer: CatalogAnswer, faults: nat -> Option<ElementFault>, start: int, now: int)
      returns (result: PlatformSyncResult)
      requires Valid() && !answer.Delivered?
      modifies db
      ensures result == SyncOutcome(old(db.State()), answer, faults, start, now)
      ensures db.State() == old(db.State())
      ensures db.logs == old(db.logs) + [SyncOutcomeLog(old(db.State()), answer, faults, now)]
    {
      var errors := ["Epic sync failed: " + FetchFailure(answer)];
      assert 0 * api.rateLimitDelay == 0;
      api.LogSync(db, FullSync, SyncFailed, 0, errors, now);
      result := PlatformSyncResult(false, 0, errors, now - start);
    }
  }
}
