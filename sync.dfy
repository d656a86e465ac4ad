// The sync engine: pulls a listing from one storefront adapter, then for
// each upstream record finds or creates the game by exact name, upserts the
// offer row of (game, platform), recomputes the game's platform list, and
// keeps added / updated / processed counters.  A record that throws is
// skipped; the run is logged in the sync-log table.
//
// The database is the class `Catalog`.  Each statement against it is one
// method, proved against a pure function on the value `Tables`; the loop over
// the records is proved against the fold `Run`, about which the lemmas state
// the counter bounds, the one-row-per-(game, platform) invariant and that
// re-syncing the same records adds nothing.

module SyncEngine {
  import opened Common
  import opened PlatformService
  import opened AdapterCache
  import SteamAdapter
  import EpicAdapter
  import GogAdapter

  const SyncBatchSize: nat := 50

  /** A row of the games table as this engine writes it. */
  datatype GameRow = GameRow(
    id: nat,
    name: string,
    description: string,
    coverImage: Option<string>,
    isMultiPlatform: bool,
    platforms: Option<seq<Platform>>)

  /**
   * A row of the offers table as this engine writes it.  The price column
   * holds String(price); the model keeps the number.  The platformName
   * column is always written as null (the normalised record has no such
   * field) and is not modelled.
   */
  datatype OfferRow = OfferRow(
    id: nat,
    gameId: nat,
    platform: Platform,
    platformId: string,
    price: Option<real>,
    priceCurrency: string,
    discountPercent: int,
    url: Option<string>,
    imageUrl: Option<string>,
    isAvailable: bool,
    metadata: Metadata,
    lastCheckedAt: int)

  datatype SyncType = Full | Incremental | Manual

  datatype LogStatus = LogRunning | LogCompleted | LogFailed

  datatype SyncLogRow = SyncLogRow(
    id: nat,
    platform: Platform,
    syncType: SyncType,
    status: LogStatus,
    startedAt: int,
    completedAt: Option<int>,
    gamesProcessed: nat,
    gamesAdded: nat,
    gamesUpdated: nat,
    errorMessage: Option<string>)

  /** The two tables the per-record loop writes, with their next auto-increment ids. */
  datatype Tables = Tables(games: seq<GameRow>, offers: seq<OfferRow>, nextGameId: nat, nextOfferId: nat)

  datatype Counts = Counts(processed: nat, added: nat, updated: nat)

  /** An upstream record ready for the loop: the offer's platform id and the normalised game. */
  datatype SyncRecord = SyncRecord(platformId: string, game: NormalizedGame)

  /** The statement of a record's processing that throws, if any; earlier statements took effect. */
  datatype Stage = AtFindOrCreate | AtExistenceCheck | AtUpsert | AtPlatformsUpdate

  datatype SyncOptions = SyncOptions(query: Option<string>, fullSync: Option<bool>, manual: Option<bool>)

  /**
   * Faults injected into one platform's run: whether creating the log row
   * throws, which statement throws for the record at each position, and
   * whether the final log update throws.
   */
  datatype SyncFaults = SyncFaults(logCreate: bool, perRecord: nat -> Option<Stage>, completion: Option<Thrown>)

  datatype SyncResult = SyncResult(
    platform: Platform,
    success: bool,
    gamesProcessed: nat,
    gamesAdded: nat,
    gamesUpdated: nat,
    error: Option<string>)

  /** A settled promise of one platform's run. */
  datatype SyncOutcome = Fulfilled(result: SyncResult) | Rejected

  /** 'manual' unless manual is false; then 'full' if fullSync, else 'incremental'. */
  function SyncTypeOf(options: SyncOptions): (r: SyncType)
    ensures r == Manual <==> options.manual != Some(false)
    ensures r == Full <==> options.manual == Some(false) && options.fullSync == Some(true)
  {
    var manual := if options.manual.Some? then options.manual.value else true;
    var fullSync := if options.fullSync.Some? then options.fullSync.value else false;
    if manual then Manual else if fullSync then Full else Incremental
  }

  // ---------------------------------------------------------------------
  // Queries

  /** The first game whose name equals `name` exactly. */
  function FirstGameNamed(games: seq<GameRow>, name: string): (r: Option<nat>)
    ensures r.Some? ==> r.value < |games| && games[r.value].name == name
    ensures r.Some? ==> forall k :: 0 <= k < r.value ==> games[k].name != name
    ensures r.None? ==> forall k :: 0 <= k < |games| ==> games[k].name != name
  {
    if |games| == 0 then None
    else if games[0].name == name then Some(0)
    else match FirstGameNamed(games[1..], name)
      case None => None
      case Some(k) => Some(k + 1)
  }

  predicate OfferOf(o: OfferRow, gameId: nat, platform: Platform) {
    o.gameId == gameId && o.platform == platform
  }

  /** The first offer row of (gameId, platform). */
  function FirstOffer(offers: seq<OfferRow>, gameId: nat, platform: Platform): (r: Option<nat>)
    ensures r.Some? ==> r.value < |offers| && OfferOf(offers[r.value], gameId, platform)
    ensures r.Some? ==> forall k :: 0 <= k < r.value ==> !OfferOf(offers[k], gameId, platform)
    ensures r.None? ==> forall k :: 0 <= k < |offers| ==> !OfferOf(offers[k], gameId, platform)
  {
    if |offers| == 0 then None
    else if OfferOf(offers[0], gameId, platform) then Some(0)
    else match FirstOffer(offers[1..], gameId, platform)
      case None => None
      case Some(k) => Some(k + 1)
  }

  /** At most one offer row per (game, platform). */
  predicate OffersUnique(offers: seq<OfferRow>) {
    forall i, j :: 0 <= i < j < |offers| ==> !OfferOf(offers[j], offers[i].gameId, offers[i].platform)
  }

  lemma {:induction false} FirstGameNamedAppend(games: seq<GameRow>, g: GameRow, name: string)
    ensures FirstGameNamed(games + [g], name) ==
      if FirstGameNamed(games, name).Some? then FirstGameNamed(games, name)
      else if g.name == name then Some(|games|) else None
  {
    if |games| > 0 {
      assert (games + [g])[1..] == games[1..] + [g];
      FirstGameNamedAppend(games[1..], g, name);
    }
  }

  lemma {:induction false} FirstGameNamedSameNames(g1: seq<GameRow>, g2: seq<GameRow>, name: string)
    requires |g1| == |g2|
    requires forall i :: 0 <= i < |g1| ==> g1[i].name == g2[i].name
    ensures FirstGameNamed(g1, name) == FirstGameNamed(g2, name)
  {
    if |g1| > 0 {
      FirstGameNamedSameNames(g1[1..], g2[1..], name);
    }
  }

  // ---------------------------------------------------------------------
  // Statements, as functions of the tables

  /**
   * findOrCreateGame: the id of a game with exactly this name; a new game
   * (not multi-platform, no platform list) is appended only when no game
   * has the name.
   */
  function FindOrCreate(t: Tables, name: string, description: string, coverImage: Option<string>): (r: (Tables, nat))
    ensures r.0.offers == t.offers && r.0.nextOfferId == t.nextOfferId
    ensures |r.0.games| == |t.games| + (if FirstGameNamed(t.games, name).Some? then 0 else 1)
    ensures r.0.games[..|t.games|] == t.games
    ensures FirstGameNamed(r.0.games, name).Some?
    ensures r.0.games[FirstGameNamed(r.0.games, name).value].id == r.1
    ensures FirstGameNamed(t.games, name).None? ==>
      r.1 == t.nextGameId && r.0.games[|t.games|] == GameRow(t.nextGameId, name, description, coverImage, false, None)
  {
    match FirstGameNamed(t.games, name)
    case Some(k) => (t, t.games[k].id)
    case None =>
      var row := GameRow(t.nextGameId, name, description, coverImage, false, None);
      FirstGameNamedAppend(t.games, row, name);
      assert (t.games + [row])[..|t.games|] == t.games;
      (t.(games := t.games + [row], nextGameId := t.nextGameId + 1), t.nextGameId)
  }

  /**
   * The offer row written by upsertGamePlatform: a missing or zero price is
   * stored as null, an empty currency as 'USD'; the other fields are copied.
   */
  function StoredOffer(id: nat, gameId: nat, platform: Platform, platformId: string, pd: PlatformData, now: int): (r: OfferRow)
    ensures r.id == id && OfferOf(r, gameId, platform) && r.platformId == platformId
    ensures r.price.None? <==> pd.price.None? || pd.price.value == 0.0
    ensures r.price.Some? ==> r.price == pd.price
    ensures r.priceCurrency == if pd.currency == "" then "USD" else pd.currency
    ensures r.discountPercent == pd.discountPercent && r.isAvailable == pd.isAvailable
    ensures r.url == pd.url && r.imageUrl == pd.imageUrl && r.metadata == pd.metadata
    ensures r.lastCheckedAt == now
  {
    var price := if pd.price.Some? && pd.price.value != 0.0 then pd.price else None;
    OfferRow(id, gameId, platform, platformId, price, StrOr(Some(pd.currency), "USD"),
             pd.discountPercent, pd.url, pd.imageUrl, pd.isAvailable, pd.metadata, now)
  }

  /**
   * upsertGamePlatform: the row of (gameId, platform) is rewritten in place
   * if there is one, else a row is appended; every other row is unchanged and
   * the one-row-per-pair invariant is kept.
   */
  function Upsert(t: Tables, gameId: nat, platform: Platform, platformId: string, pd: PlatformData, now: int): (r: Tables)
    ensures r.games == t.games && r.nextGameId == t.nextGameId
    ensures |r.offers| == |t.offers| + (if FirstOffer(t.offers, gameId, platform).Some? then 0 else 1)
    ensures forall k :: 0 <= k < |t.offers| ==> OfferOf(r.offers[k], t.offers[k].gameId, t.offers[k].platform)
    ensures forall k :: 0 <= k < |t.offers| && !OfferOf(t.offers[k], gameId, platform) ==> r.offers[k] == t.offers[k]
    ensures FirstOffer(r.offers, gameId, platform).Some?
    ensures var k := FirstOffer(r.offers, gameId, platform).value;
      r.offers[k] == StoredOffer(r.offers[k].id, gameId, platform, platformId, pd, now)
    ensures OffersUnique(t.offers) ==> OffersUnique(r.offers)
  {
    match FirstOffer(t.offers, gameId, platform)
    case Some(k) =>
      t.(offers := t.offers[k := StoredOffer(t.offers[k].id, gameId, platform, platformId, pd, now)])
    case None =>
      var offers := t.offers + [StoredOffer(t.nextOfferId, gameId, platform, platformId, pd, now)];
      assert FirstOffer(offers, gameId, platform) == Some(|t.offers|) by {
        assert OfferOf(offers[|t.offers|], gameId, platform);
      }
      t.(offers := offers, nextOfferId := t.nextOfferId + 1)
  }

  /** `[...new Set(ps)]`: each platform once, in order of first occurrence. */
  function Distinct(ps: seq<Platform>): (r: seq<Platform>)
    ensures NoDuplicates(r)
    ensures forall p :: p in r <==> p in ps
    ensures |r| <= |ps|
  {
    if |ps| == 0 then []
    else
      var d := Distinct(ps[..|ps| - 1]);
      assert forall p :: p in ps <==> p in ps[..|ps| - 1] || p == ps[|ps| - 1] by {
        assert ps == ps[..|ps| - 1] + [ps[|ps| - 1]];
      }
      if ps[|ps| - 1] in d then d else d + [ps[|ps| - 1]]
  }

  /** Some offer row of the game is on platform `p`. */
  predicate HasOfferOn(offers: seq<OfferRow>, gameId: nat, p: Platform) {
    exists k :: 0 <= k < |offers| && OfferOf(offers[k], gameId, p)
  }

  lemma HasOfferOnTail(offers: seq<OfferRow>, gameId: nat, p: Platform)
    requires |offers| > 0
    ensures HasOfferOn(offers, gameId, p) <==> OfferOf(offers[0], gameId, p) || HasOfferOn(offers[1..], gameId, p)
  {
    if HasOfferOn(offers[1..], gameId, p) {
      var k :| 0 <= k < |offers[1..]| && OfferOf(offers[1..][k], gameId, p);
      assert OfferOf(offers[k + 1], gameId, p);
    }
    if HasOfferOn(offers, gameId, p) {
      var k :| 0 <= k < |offers| && OfferOf(offers[k], gameId, p);
      if k > 0 {
        assert OfferOf(offers[1..][k - 1], gameId, p);
      }
    }
  }

  /** The platforms of a game's offer rows, in table order. */
  function PlatformsOfGame(offers: seq<OfferRow>, gameId: nat): (r: seq<Platform>)
    ensures forall p :: p in r <==> HasOfferOn(offers, gameId, p)
  {
    if |offers| == 0 then []
    else
      var rest := PlatformsOfGame(offers[1..], gameId);
      assert forall p :: HasOfferOn(offers, gameId, p) <==> OfferOf(offers[0], gameId, p) || HasOfferOn(offers[1..], gameId, p) by {
        forall p ensures HasOfferOn(offers, gameId, p) <==> OfferOf(offers[0], gameId, p) || HasOfferOn(offers[1..], gameId, p) {
          HasOfferOnTail(offers, gameId, p);
        }
      }
      if offers[0].gameId == gameId then [offers[0].platform] + rest else rest
  }

  /** Two distinct platforms in a sequence make its distinct set longer than one, and conversely. */
  lemma MultiPlatformIff(ps: seq<Platform>)
    ensures |Distinct(ps)| > 1 <==> exists i, j :: 0 <= i < |ps| && 0 <= j < |ps| && ps[i] != ps[j]
  {
    var d := Distinct(ps);
    if |d| > 1 {
      assert d[0] in ps && d[1] in ps;
      var i :| 0 <= i < |ps| && ps[i] == d[0];
      var j :| 0 <= j < |ps| && ps[j] == d[1];
      assert ps[i] != ps[j];
    }
    if exists i, j :: 0 <= i < |ps| && 0 <= j < |ps| && ps[i] != ps[j] {
      var i, j :| 0 <= i < |ps| && 0 <= j < |ps| && ps[i] != ps[j];
      assert ps[i] in d && ps[j] in d;
      var a :| 0 <= a < |d| && d[a] == ps[i];
      var b :| 0 <= b < |d| && d[b] == ps[j];
      assert a != b;
    }
  }

  /**
   * updateGamePlatformsArray: every row of the game gets the distinct
   * platforms of its offers and is multi-platform iff there are several;
   * names, ids and all other rows are unchanged.
   */
  function RefreshPlatforms(t: Tables, gameId: nat): (r: Tables)
    ensures r.offers == t.offers && r.nextGameId == t.nextGameId && r.nextOfferId == t.nextOfferId
    ensures |r.games| == |t.games|
    ensures forall k :: 0 <= k < |t.games| ==> r.games[k].id == t.games[k].id && r.games[k].name == t.games[k].name
    ensures forall k :: 0 <= k < |t.games| && t.games[k].id != gameId ==> r.games[k] == t.games[k]
    ensures forall k :: 0 <= k < |t.games| && t.games[k].id == gameId ==>
      r.games[k].platforms == Some(Distinct(PlatformsOfGame(t.offers, gameId)))
      && (r.games[k].isMultiPlatform <==> |Distinct(PlatformsOfGame(t.offers, gameId))| > 1)
  {
    var ps := Distinct(PlatformsOfGame(t.offers, gameId));
    var games := seq(|t.games|, k requires 0 <= k < |t.games| =>
      if t.games[k].id == gameId then t.games[k].(platforms := Some(ps), isMultiPlatform := |ps| > 1) else t.games[k]);
    t.(games := games)
  }

  /** Two offer rows of the game on different platforms. */
  predicate OnTwoStores(offers: seq<OfferRow>, gameId: nat) {
    exists i, j :: 0 <= i < |offers| && 0 <= j < |offers|
      && offers[i].gameId == gameId && offers[j].gameId == gameId && offers[i].platform != offers[j].platform
  }

  lemma TwoStoresGiveTwoPlatforms(offers: seq<OfferRow>, gameId: nat)
    requires OnTwoStores(offers, gameId)
    ensures exists a, b ::
      (0 <= a < |PlatformsOfGame(offers, gameId)| && 0 <= b < |PlatformsOfGame(offers, gameId)|
       && PlatformsOfGame(offers, gameId)[a] != PlatformsOfGame(offers, gameId)[b])
  {
    var ps := PlatformsOfGame(offers, gameId);
    var i, j :| 0 <= i < |offers| && 0 <= j < |offers|
      && offers[i].gameId == gameId && offers[j].gameId == gameId && offers[i].platform != offers[j].platform;
    assert OfferOf(offers[i], gameId, offers[i].platform);
    assert OfferOf(offers[j], gameId, offers[j].platform);
    assert offers[i].platform in ps && offers[j].platform in ps;
    var a :| 0 <= a < |ps| && ps[a] == offers[i].platform;
    var b :| 0 <= b < |ps| && ps[b] == offers[j].platform;
    assert ps[a] != ps[b];
  }

  lemma TwoPlatformsGiveTwoStores(offers: seq<OfferRow>, gameId: nat, a: nat, b: nat)
    requires a < |PlatformsOfGame(offers, gameId)| && b < |PlatformsOfGame(offers, gameId)|
    requires PlatformsOfGame(offers, gameId)[a] != PlatformsOfGame(offers, gameId)[b]
    ensures OnTwoStores(offers, gameId)
  {
    var ps := PlatformsOfGame(offers, gameId);
    assert ps[a] in ps && ps[b] in ps;
    var i :| 0 <= i < |offers| && OfferOf(offers[i], gameId, ps[a]);
    var j :| 0 <= j < |offers| && OfferOf(offers[j], gameId, ps[b]);
    assert offers[i].platform != offers[j].platform;
  }

  /** A game is marked multi-platform exactly when it has offers on two different platforms. */
  lemma MultiPlatformMeansTwoStores(t: Tables, gameId: nat, k: nat)
    requires k < |t.games| && t.games[k].id == gameId
    ensures RefreshPlatforms(t, gameId).games[k].isMultiPlatform <==> OnTwoStores(t.offers, gameId)
  {
    var ps := PlatformsOfGame(t.offers, gameId);
    MultiPlatformIff(ps);
    if OnTwoStores(t.offers, gameId) {
      TwoStoresGiveTwoPlatforms(t.offers, gameId);
    }
    if |Distinct(ps)| > 1 {
      var a, b :| 0 <= a < |ps| && 0 <= b < |ps| && ps[a] != ps[b];
      TwoPlatformsGiveTwoStores(t.offers, gameId, a, b);
    }
  }

  // ---------------------------------------------------------------------
  // The per-record loop, as a fold

  /**
   * How many of a record's four statements run before the throw: find or
   * create the game, check for its offer row, upsert the offer, refresh the
   * platform list.  Without a throw all four run.
   */
  function Reach(stage: Option<Stage>): (r: nat)
    ensures r <= 4
    ensures r == 4 <==> stage.None?
  {
    match stage
    case None => 4
    case Some(AtFindOrCreate) => 0
    case Some(AtExistenceCheck) => 1
    case Some(AtUpsert) => 2
    case Some(AtPlatformsUpdate) => 3
  }

  /**
   * The tables, the game id and the counters after the first `k` of a
   * record's four statements: find or create the game; count it as added if
   * its (game, platform) row does not exist yet and as updated otherwise;
   * upsert the offer; refresh the platform list and count the record as
   * processed.
   */
  function Statements(t: Tables, platform: Platform, rec: SyncRecord, now: int, k: nat): (r: (Tables, nat, Counts))
    requires k <= 4
    ensures k == 0 ==> r.0 == t
  {
    if k == 0 then (t, 0, Counts(0, 0, 0))
    else
      var p := Statements(t, platform, rec, now, k - 1);
      if k == 1 then
        var found := FindOrCreate(p.0, rec.game.name, rec.game.description, rec.game.coverImage);
        (found.0, found.1, p.2)
      else if k == 2 then
        var isNew := FirstOffer(p.0.offers, p.1, platform).None?;
        (p.0, p.1, Counts(0, if isNew then 1 else 0, if isNew then 0 else 1))
      else if k == 3 then
        (Upsert(p.0, p.1, platform, rec.platformId, rec.game.platformData, now), p.1, p.2)
      else
        (RefreshPlatforms(p.0, p.1), p.1, p.2.(processed := 1))
  }

  /**
   * The counters of a record's statements: it is counted as added or as
   * updated once its existence check has run, and as processed only once all
   * four have run.
   */
  lemma {:induction false} StatementsCounts(t: Tables, platform: Platform, rec: SyncRecord, now: int, k: nat)
    requires k <= 4
    ensures var c := Statements(t, platform, rec, now, k).2;
      c.processed <= c.added + c.updated <= 1
      && (c.processed == 1 <==> k == 4)
      && (c.added + c.updated == 1 <==> k >= 2)
  {
    if k > 0 {
      StatementsCounts(t, platform, rec, now, k - 1);
    }
  }

  /**
   * One record inside its try: the statements before the throw stand, with
   * their counters; without a throw all four run.
   */
  function Step(t: Tables, platform: Platform, rec: SyncRecord, stage: Option<Stage>, now: int): (r: (Tables, Counts))
    ensures r.1.processed <= r.1.added + r.1.updated <= 1
    ensures r.1.processed == 1 <==> stage.None?
    ensures r.1.added + r.1.updated == 1 <==> Reach(stage) >= 2
    ensures Reach(stage) == 0 ==> r.0 == t
  {
    StatementsCounts(t, platform, rec, now, Reach(stage));
    var s := Statements(t, platform, rec, now, Reach(stage));
    (s.0, s.2)
  }

  function Plus(a: Counts, b: Counts): Counts {
    Counts(a.processed + b.processed, a.added + b.added, a.updated + b.updated)
  }

  /**
   * The tables and counters after the first `n` records.  Counting never
   * outruns the records: processed <= added + updated <= n.
   */
  function Run(t: Tables, platform: Platform, records: seq<SyncRecord>, fault: nat -> Option<Stage>, now: int, n: nat): (r: (Tables, Counts))
    requires n <= |records|
    ensures r.1.processed <= r.1.added + r.1.updated <= n
  {
    if n == 0 then (t, Counts(0, 0, 0))
    else
      var prev := Run(t, platform, records, fault, now, n - 1);
      var step := Step(prev.0, platform, records[n - 1], fault(n - 1), now);
      (step.0, Plus(prev.1, step.1))
  }

  /** One more record extends a run by that record's step. */
  lemma RunStep(t: Tables, platform: Platform, records: seq<SyncRecord>, fault: nat -> Option<Stage>, now: int, i: nat)
    requires i < |records|
    ensures Run(t, platform, records, fault, now, i + 1).0
      == Step(Run(t, platform, records, fault, now, i).0, platform, records[i], fault(i), now).0
    ensures Run(t, platform, records, fault, now, i + 1).1
      == Plus(Run(t, platform, records, fault, now, i).1, Step(Run(t, platform, records, fault, now, i).0, platform, records[i], fault(i), now).1)
  {
  }

  lemma {:induction false} StatementsKeepOffersUnique(t: Tables, platform: Platform, rec: SyncRecord, now: int, k: nat)
    requires k <= 4
    requires OffersUnique(t.offers)
    ensures OffersUnique(Statements(t, platform, rec, now, k).0.offers)
  {
    if k > 0 {
      StatementsKeepOffersUnique(t, platform, rec, now, k - 1);
    }
  }

  /** Whatever the faults, a run never leaves two offer rows for one (game, platform). */
  lemma {:induction false} RunKeepsOffersUnique(t: Tables, platform: Platform, records: seq<SyncRecord>, fault: nat -> Option<Stage>, now: int, n: nat)
    requires n <= |records|
    requires OffersUnique(t.offers)
    ensures OffersUnique(Run(t, platform, records, fault, now, n).0.offers)
  {
    if n > 0 {
      RunKeepsOffersUnique(t, platform, records, fault, now, n - 1);
      var prev := Run(t, platform, records, fault, now, n - 1).0;
      StatementsKeepOffersUnique(prev, platform, records[n - 1], now, Reach(fault(n - 1)));
    }
  }

  // ---------------------------------------------------------------------
  // Re-syncing the same records adds nothing

  /** The record's game exists and has an offer row on `platform`. */
  predicate Synced(t: Tables, platform: Platform, rec: SyncRecord) {
    var g := FirstGameNamed(t.games, rec.game.name);
    g.Some? && FirstOffer(t.offers, t.games[g.value].id, platform).Some?
  }

  lemma OfferSurvivesUpsert(t: Tables, gameId: nat, platform: Platform, platformId: string, pd: PlatformData, now: int, g: nat, p: Platform)
    requires FirstOffer(t.offers, g, p).Some?
    ensures FirstOffer(Upsert(t, gameId, platform, platformId, pd, now).offers, g, p).Some?
  {
    var k := FirstOffer(t.offers, g, p).value;
    assert OfferOf(Upsert(t, gameId, platform, platformId, pd, now).offers[k], g, p);
  }

  /** Every one of the first `m` records is synced. */
  predicate AllSynced(t: Tables, platform: Platform, records: seq<SyncRecord>, m: nat)
    requires m <= |records|
  {
    forall j {:trigger Synced(t, platform, records[j])} :: 0 <= j < m ==> Synced(t, platform, records[j])
  }

  lemma AllSyncedAt(t: Tables, platform: Platform, records: seq<SyncRecord>, m: nat, j: nat)
    requires j < m <= |records|
    requires AllSynced(t, platform, records, m)
    ensures Synced(t, platform, records[j])
  {
  }

  lemma FindOrCreateKeepsSynced(t: Tables, name: string, description: string, coverImage: Option<string>, platform: Platform, other: SyncRecord)
    requires Synced(t, platform, other)
    ensures Synced(FindOrCreate(t, name, description, coverImage).0, platform, other)
  {
    var t1 := FindOrCreate(t, name, description, coverImage).0;
    var idx := FirstGameNamed(t.games, other.game.name).value;
    if FirstGameNamed(t.games, name).None? {
      assert t1.games == t.games + [t1.games[|t.games|]];
      FirstGameNamedAppend(t.games, t1.games[|t.games|], other.game.name);
    }
    assert t1.games[idx] == t.games[idx];
  }

  lemma UpsertKeepsSynced(t: Tables, gameId: nat, platform: Platform, platformId: string, pd: PlatformData, now: int, other: SyncRecord)
    requires Synced(t, platform, other)
    ensures Synced(Upsert(t, gameId, platform, platformId, pd, now), platform, other)
  {
    var idx := FirstGameNamed(t.games, other.game.name).value;
    OfferSurvivesUpsert(t, gameId, platform, platformId, pd, now, t.games[idx].id, platform);
  }

  lemma RefreshKeepsSynced(t: Tables, gameId: nat, platform: Platform, other: SyncRecord)
    requires Synced(t, platform, other)
    ensures Synced(RefreshPlatforms(t, gameId), platform, other)
  {
    var t3 := RefreshPlatforms(t, gameId);
    FirstGameNamedSameNames(t.games, t3.games, other.game.name);
    var idx := FirstGameNamed(t.games, other.game.name).value;
    assert t3.games[idx].id == t.games[idx].id;
  }

  lemma {:induction false} StatementsKeepSynced(t: Tables, platform: Platform, rec: SyncRecord, now: int, k: nat, other: SyncRecord)
    requires k <= 4
    requires Synced(t, platform, other)
    ensures Synced(Statements(t, platform, rec, now, k).0, platform, other)
  {
    if k > 0 {
      StatementsKeepSynced(t, platform, rec, now, k - 1, other);
      var p := Statements(t, platform, rec, now, k - 1);
      var r := Statements(t, platform, rec, now, k).0;
      if k == 1 {
        FindOrCreateKeepsSynced(p.0, rec.game.name, rec.game.description, rec.game.coverImage, platform, other);
        assert r == FindOrCreate(p.0, rec.game.name, rec.game.description, rec.game.coverImage).0;
      } else if k == 2 {
        assert r == p.0;
      } else if k == 3 {
        UpsertKeepsSynced(p.0, p.1, platform, rec.platformId, rec.game.platformData, now, other);
        assert r == Upsert(p.0, p.1, platform, rec.platformId, rec.game.platformData, now);
      } else {
        RefreshKeepsSynced(p.0, p.1, platform, other);
        assert r == RefreshPlatforms(p.0, p.1);
      }
    }
  }

  lemma StepKeepsSynced(t: Tables, platform: Platform, rec: SyncRecord, stage: Option<Stage>, now: int, other: SyncRecord)
    requires Synced(t, platform, other)
    ensures Synced(Step(t, platform, rec, stage, now).0, platform, other)
  {
    StatementsKeepSynced(t, platform, rec, now, Reach(stage), other);
  }

  /** A step keeps every record of a prefix synced. */
  lemma StepKeepsAllSynced(t: Tables, platform: Platform, rec: SyncRecord, stage: Option<Stage>, now: int, records: seq<SyncRecord>, m: nat)
    requires m <= |records|
    requires AllSynced(t, platform, records, m)
    ensures AllSynced(Step(t, platform, rec, stage, now).0, platform, records, m)
  {
    forall j | 0 <= j < m
      ensures Synced(Step(t, platform, rec, stage, now).0, platform, records[j])
    {
      StepKeepsSynced(t, platform, rec, stage, now, records[j]);
    }
  }

  /** The four statements of a record, one by one. */
  lemma StatementsUnfold(t: Tables, platform: Platform, rec: SyncRecord, now: int)
    ensures var found := FindOrCreate(t, rec.game.name, rec.game.description, rec.game.coverImage);
      var s2 := Statements(t, platform, rec, now, 2);
      var s3 := Statements(t, platform, rec, now, 3);
      var s4 := Statements(t, platform, rec, now, 4);
      s2.0 == found.0 && s2.1 == found.1
      && (s2.2.added == 1 <==> FirstOffer(found.0.offers, found.1, platform).None?)
      && s3.0 == Upsert(found.0, found.1, platform, rec.platformId, rec.game.platformData, now) && s3.1 == found.1
      && s4.0 == RefreshPlatforms(s3.0, found.1) && s4.2 == s2.2.(processed := 1)
  {
    var s1 := Statements(t, platform, rec, now, 1);
    var s2 := Statements(t, platform, rec, now, 2);
    assert s2.0 == s1.0 && s2.1 == s1.1;
    var s3 := Statements(t, platform, rec, now, 3);
    assert s3.1 == s2.1 && s3.2 == s2.2;
  }

  lemma StepSyncs(t: Tables, platform: Platform, rec: SyncRecord, stage: Option<Stage>, now: int)
    requires stage.None?
    ensures Synced(Step(t, platform, rec, stage, now).0, platform, rec)
  {
    StatementsUnfold(t, platform, rec, now);
    var name := rec.game.name;
    var found := FindOrCreate(t, name, rec.game.description, rec.game.coverImage);
    var idx := FirstGameNamed(found.0.games, name).value;
    var t2 := Upsert(found.0, found.1, platform, rec.platformId, rec.game.platformData, now);
    assert t2.games == found.0.games;
    assert FirstOffer(t2.offers, found.1, platform).Some?;
    var t3 := RefreshPlatforms(t2, found.1);
    FirstGameNamedSameNames(t2.games, t3.games, name);
    assert t3.games[idx].id == found.1;
    assert Step(t, platform, rec, stage, now).0 == t3;
  }

  lemma SyncedStepAddsNothing(t: Tables, platform: Platform, rec: SyncRecord, stage: Option<Stage>, now: int)
    requires stage.None?
    requires Synced(t, platform, rec)
    ensures var r := Step(t, platform, rec, stage, now);
      r.1.added == 0 && r.1.updated == 1 && |r.0.games| == |t.games| && |r.0.offers| == |t.offers|
  {
    StatementsUnfold(t, platform, rec, now);
  }

  /** A fault-free step on the next record extends the synced prefix by one. */
  lemma StepExtendsSynced(t: Tables, platform: Platform, records: seq<SyncRecord>, stage: Option<Stage>, now: int, n: nat)
    requires 0 < n <= |records|
    requires stage.None?
    requires AllSynced(t, platform, records, n - 1)
    ensures AllSynced(Step(t, platform, records[n - 1], stage, now).0, platform, records, n)
  {
    var t2 := Step(t, platform, records[n - 1], stage, now).0;
    StepKeepsAllSynced(t, platform, records[n - 1], stage, now, records, n - 1);
    StepSyncs(t, platform, records[n - 1], stage, now);
    forall j | 0 <= j < n
      ensures Synced(t2, platform, records[j])
    {
      if j < n - 1 {
        assert AllSynced(t2, platform, records, n - 1);
      }
    }
  }

  /** Record `i` runs all four statements. */
  predicate Clean(fault: nat -> Option<Stage>, i: nat) {
    fault(i).None?
  }

  /** None of the first `m` records throws. */
  predicate NoFaults(fault: nat -> Option<Stage>, m: nat) {
    forall i {:trigger Clean(fault, i)} :: 0 <= i < m ==> Clean(fault, i)
  }

  /** After a run without faults every record is synced. */
  lemma {:induction false} RunSyncsAll(t: Tables, platform: Platform, records: seq<SyncRecord>, fault: nat -> Option<Stage>, now: int, n: nat)
    requires n <= |records|
    requires NoFaults(fault, |records|)
    ensures AllSynced(Run(t, platform, records, fault, now, n).0, platform, records, n)
  {
    if n > 0 {
      RunSyncsAll(t, platform, records, fault, now, n - 1);
      var t1 := Run(t, platform, records, fault, now, n - 1).0;
      assert Clean(fault, n - 1);
      StepExtendsSynced(t1, platform, records, fault(n - 1), now, n);
      assert Run(t, platform, records, fault, now, n).0 == Step(t1, platform, records[n - 1], fault(n - 1), now).0;
    }
  }

  /** Whatever the faults, a run keeps synced records synced. */
  lemma {:induction false} RunKeepsSynced(t: Tables, platform: Platform, records: seq<SyncRecord>, fault: nat -> Option<Stage>, now: int, n: nat)
    requires n <= |records|
    requires AllSynced(t, platform, records, |records|)
    ensures AllSynced(Run(t, platform, records, fault, now, n).0, platform, records, |records|)
  {
    if n > 0 {
      RunKeepsSynced(t, platform, records, fault, now, n - 1);
      var t1 := Run(t, platform, records, fault, now, n - 1).0;
      StepKeepsAllSynced(t1, platform, records[n - 1], fault(n - 1), now, records, |records|);
    }
  }

  /** One fault-free step of a run over a synced record adds no row and counts no addition. */
  lemma RunStepOverSynced(t: Tables, platform: Platform, records: seq<SyncRecord>, fault: nat -> Option<Stage>, now: int, n: nat)
    requires 0 < n <= |records|
    requires NoFaults(fault, |records|)
    requires AllSynced(Run(t, platform, records, fault, now, n - 1).0, platform, records, |records|)
    ensures Run(t, platform, records, fault, now, n).1.added == Run(t, platform, records, fault, now, n - 1).1.added
    ensures |Run(t, platform, records, fault, now, n).0.games| == |Run(t, platform, records, fault, now, n - 1).0.games|
    ensures |Run(t, platform, records, fault, now, n).0.offers| == |Run(t, platform, records, fault, now, n - 1).0.offers|
    ensures AllSynced(Run(t, platform, records, fault, now, n).0, platform, records, |records|)
  {
    var prev := Run(t, platform, records, fault, now, n - 1);
    AllSyncedAt(prev.0, platform, records, |records|, n - 1);
    assert Clean(fault, n - 1);
    var step := Step(prev.0, platform, records[n - 1], fault(n - 1), now);
    SyncedStepAddsNothing(prev.0, platform, records[n - 1], fault(n - 1), now);
    StepKeepsAllSynced(prev.0, platform, records[n - 1], fault(n - 1), now, records, |records|);
    assert Run(t, platform, records, fault, now, n).0 == step.0;
    assert Run(t, platform, records, fault, now, n).1 == Plus(prev.1, step.1);
  }

  /** Over tables where every record is already synced, a run without faults adds no row and counts no addition. */
  lemma {:induction false} SyncedRunAddsNothing(t: Tables, platform: Platform, records: seq<SyncRecord>, fault: nat -> Option<Stage>, now: int, n: nat)
    requires n <= |records|
    requires NoFaults(fault, |records|)
    requires AllSynced(t, platform, records, |records|)
    ensures Run(t, platform, records, fault, now, n).1.added == 0
    ensures |Run(t, platform, records, fault, now, n).0.games| == |t.games|
    ensures |Run(t, platform, records, fault, now, n).0.offers| == |t.offers|
    ensures AllSynced(Run(t, platform, records, fault, now, n).0, platform, records, |records|)
  {
    if n > 0 {
      SyncedRunAddsNothing(t, platform, records, fault, now, n - 1);
      RunStepOverSynced(t, platform, records, fault, now, n);
    }
  }

  /**
   * Re-syncing: running the same records again without faults adds no game
   * row, no offer row, and reports every record as updated rather than added.
   */
  lemma ResyncAddsNothing(t: Tables, platform: Platform, records: seq<SyncRecord>, fault: nat -> Option<Stage>, now: int, later: int)
    requires NoFaults(fault, |records|)
    ensures var first := Run(t, platform, records, fault, now, |records|).0;
      var again := Run(first, platform, records, fault, later, |records|);
      again.1.added == 0 && |again.0.games| == |first.games| && |again.0.offers| == |first.offers|
  {
    var first := Run(t, platform, records, fault, now, |records|).0;
    RunSyncsAll(t, platform, records, fault, now, |records|);
    SyncedRunAddsNothing(first, platform, records, fault, later, |records|);
  }

  // ---------------------------------------------------------------------
  // Sync log and status

  /** The log row `id` after the run completed. */
  function CompleteLog(logs: seq<SyncLogRow>, id: nat, now: int, c: Counts): (r: seq<SyncLogRow>)
    ensures |r| == |logs|
    ensures forall k :: 0 <= k < |logs| && logs[k].id != id ==> r[k] == logs[k]
    ensures forall k :: 0 <= k < |logs| && logs[k].id == id ==>
      r[k] == logs[k].(status := LogCompleted, completedAt := Some(now), gamesProcessed := c.processed,
                       gamesAdded := c.added, gamesUpdated := c.updated)
  {
    seq(|logs|, k requires 0 <= k < |logs| =>
      if logs[k].id == id
      then logs[k].(status := LogCompleted, completedAt := Some(now), gamesProcessed := c.processed,
                    gamesAdded := c.added, gamesUpdated := c.updated)
      else logs[k])
  }

  /** The log row `id` after the run failed: the counters keep their initial zeros. */
  function FailLog(logs: seq<SyncLogRow>, id: nat, now: int, message: string): (r: seq<SyncLogRow>)
    ensures |r| == |logs|
    ensures forall k :: 0 <= k < |logs| && logs[k].id != id ==> r[k] == logs[k]
    ensures forall k :: 0 <= k < |logs| && logs[k].id == id ==>
      r[k] == logs[k].(status := LogFailed, completedAt := Some(now), errorMessage := Some(message))
  {
    seq(|logs|, k requires 0 <= k < |logs| =>
      if logs[k].id == id then logs[k].(status := LogFailed, completedAt := Some(now), errorMessage := Some(message))
      else logs[k])
  }

  /** The log once a run whose loop counted `c` ends: completed, or failed when the completion update throws. */
  function ClosedLog(logs: seq<SyncLogRow>, id: nat, now: int, c: Counts, completion: Option<Thrown>): seq<SyncLogRow> {
    if completion.None? then CompleteLog(logs, id, now, c) else FailLog(logs, id, now, ThrownMessage(completion.value))
  }

  /** What a run whose loop counted `c` reports: the counters, or zero counters and the message of the throw. */
  function Reported(platform: Platform, c: Counts, completion: Option<Thrown>): SyncResult {
    if completion.None? then SyncResult(platform, true, c.processed, c.added, c.updated, None)
    else SyncResult(platform, false, 0, 0, 0, Some(ThrownMessage(completion.value)))
  }

  /** The running row createSyncLog appends. */
  function OpenedLog(logs: seq<SyncLogRow>, id: nat, platform: Platform, syncType: SyncType, now: int): seq<SyncLogRow> {
    logs + [SyncLogRow(id, platform, syncType, LogRunning, now, None, 0, 0, 0, None)]
  }

  /** The Epic search a sync runs: the options' query, fifty games. */
  function EpicSyncParams(options: SyncOptions): EpicAdapter.EpicSearchParams {
    EpicAdapter.EpicSearchParams(options.query, None, None, Some(SyncBatchSize), None, None)
  }

  /** The GOG search a sync runs: the options' query, fifty games. */
  function GogSyncParams(options: SyncOptions): GogAdapter.GogSearchParams {
    GogAdapter.GogSearchParams(options.query, None, Some(SyncBatchSize))
  }

  /**
   * The log row getSyncStatus reports for a platform: of the platform's
   * rows, one with the latest start, the first such in the given order.
   */
  function LatestLog(logs: seq<SyncLogRow>, platform: Platform): (r: Option<nat>)
    ensures r.None? <==> forall k :: 0 <= k < |logs| ==> logs[k].platform != platform
    ensures r.Some? ==> r.value < |logs| && logs[r.value].platform == platform
    ensures r.Some? ==> forall k :: 0 <= k < |logs| && logs[k].platform == platform ==> logs[k].startedAt <= logs[r.value].startedAt
    ensures r.Some? ==> forall k :: 0 <= k < r.value && logs[k].platform == platform ==> logs[k].startedAt < logs[r.value].startedAt
  {
    if |logs| == 0 then None
    else
      var rest := LatestLog(logs[..|logs| - 1], platform);
      var last := |logs| - 1;
      if logs[last].platform != platform then rest
      else if rest.None? || logs[last].startedAt > logs[rest.value].startedAt then Some(last)
      else rest
  }

  datatype SyncStatus = SyncStatus(platform: Platform, lastSync: Option<int>, status: Option<LogStatus>)

  function StatusOf(logs: seq<SyncLogRow>, platform: Platform): (r: SyncStatus)
    ensures r.platform == platform
    ensures r.status.None? <==> LatestLog(logs, platform).None?
    ensures r.status.Some? ==>
      r.status.value == logs[LatestLog(logs, platform).value].status
      && r.lastSync == logs[LatestLog(logs, platform).value].completedAt
    ensures r.status.None? ==> r.lastSync.None?
  {
    match LatestLog(logs, platform)
    case None => SyncStatus(platform, None, None)
    case Some(k) => SyncStatus(platform, logs[k].completedAt, Some(logs[k].status))
  }

  /** getSyncStatus: one entry per platform, in the order steam, epic, gog. */
  function GetSyncStatus(logs: seq<SyncLogRow>): (r: seq<SyncStatus>)
    ensures |r| == |AllPlatforms|
    ensures forall i :: 0 <= i < |r| ==> r[i] == StatusOf(logs, AllPlatforms[i])
  {
    [StatusOf(logs, Steam), StatusOf(logs, Epic), StatusOf(logs, Gog)]
  }

  /** The fulfilled results, in the order the runs were started. */
  function FulfilledResults(outcomes: seq<SyncOutcome>): (r: seq<SyncResult>)
    ensures |r| <= |outcomes|
    ensures forall x :: x in r <==> Fulfilled(x) in outcomes
    ensures (forall i :: 0 <= i < |outcomes| ==> outcomes[i].Fulfilled?) ==>
      |r| == |outcomes| && forall i :: 0 <= i < |r| ==> r[i] == outcomes[i].result
  {
    if |outcomes| == 0 then []
    else (if outcomes[0].Fulfilled? then [outcomes[0].result] else []) + FulfilledResults(outcomes[1..])
  }

  // ---------------------------------------------------------------------
  // Building the records from each storefront's listing

  function EpicRecords(games: seq<EpicGameResponse>): (r: seq<SyncRecord>)
    ensures |r| == |games|
    ensures forall i :: 0 <= i < |games| ==> r[i] == SyncRecord(games[i].id, NormalizeEpicGame(games[i]))
  {
    if |games| == 0 then [] else [SyncRecord(games[0].id, NormalizeEpicGame(games[0]))] + EpicRecords(games[1..])
  }

  function GogRecords(games: seq<GOGGameResponse>): (r: seq<SyncRecord>)
    ensures |r| == |games|
    ensures forall i :: 0 <= i < |games| ==> r[i] == SyncRecord(NatToString(games[i].id), NormalizeGogGame(games[i]))
  {
    if |games| == 0 then [] else [SyncRecord(NatToString(games[0].id), NormalizeGogGame(games[0]))] + GogRecords(games[1..])
  }

  /**
   * A Steam app with its looked-up details: when the details have data and a
   * price, the offer takes the price (in units), the original price, the
   * discount and the currency; otherwise the bare normalised record.
   */
  function SteamRecord(app: SteamApp, details: Option<SteamAppDetails>): (r: SyncRecord)
    ensures r.platformId == app.appId && r.game.name == app.name
    ensures r.game.platformData.platform == Steam
    ensures details.None? || details.value.data.None? || details.value.data.value.priceData.None? ==>
      r.game == NormalizeSteamGame(app.appId, app.name)
    ensures details.Some? && details.value.data.Some? && details.value.data.value.priceData.Some? ==>
      var p := details.value.data.value.priceData.value;
      r.game.platformData.price.Some? && r.game.platformData.price.value * 100.0 == p.final as real
      && r.game.platformData.originalPrice.Some? && r.game.platformData.originalPrice.value * 100.0 == p.initial as real
      && r.game.platformData.discountPercent == p.discountPercent && r.game.platformData.currency == p.currency
  {
    var g := NormalizeSteamGame(app.appId, app.name);
    var price := if details.Some? && details.value.data.Some? then SteamAdapter.SteamPriceOf(details) else None;
    if price.Some? then
      var pd := g.platformData.(price := Some(price.value.price), originalPrice := Some(price.value.originalPrice),
                                discountPercent := price.value.discountPercent, currency := price.value.currency);
      SyncRecord(app.appId, g.(platformData := pd))
    else SyncRecord(app.appId, g)
  }

  function SteamRecords(apps: seq<SteamApp>, detailsOf: string -> Option<SteamAppDetails>): (r: seq<SyncRecord>)
    ensures |r| == |apps|
    ensures forall i :: 0 <= i < |apps| ==> r[i] == SteamRecord(apps[i], detailsOf(apps[i].appId))
  {
    if |apps| == 0 then [] else [SteamRecord(apps[0], detailsOf(apps[0].appId))] + SteamRecords(apps[1..], detailsOf)
  }

  /** The upstream services one run can reach. */
  datatype Upstream = Upstream(
    epic: EpicAdapter.EpicRequest -> nat -> Attempt<Option<EpicAdapter.EpicSearchStore>>,
    gog: GogAdapter.GogCatalogRequest -> nat -> Attempt<GogAdapter.GogCatalogPayload>,
    steamAppList: nat -> Attempt<Option<seq<RawSteamApp>>>,
    steamDetailsOf: string -> Option<SteamAppDetails>)

  /** What the runs work on: the tables, the sync log with its id counter, and the adapters' cache. */
  datatype World = World(tables: Tables, logs: seq<SyncLogRow>, nextLogId: nat, cache: map<string, CacheEntry<CacheValue>>)

  /** A run's end state and what its promise settled to. */
  datatype Ran = Ran(world: World, outcome: SyncOutcome)

  /**
   * A run once its log row is created and its search has left the cache
   * `cache`: the loop over `records`, then the log row closed and the
   * counters (or the failure) reported.
   */
  function Finished(w: World, platform: Platform, options: SyncOptions, records: seq<SyncRecord>,
                    cache: map<string, CacheEntry<CacheValue>>, faults: SyncFaults, now: int): Ran
  {
    var r := Run(w.tables, platform, records, faults.perRecord, now, |records|);
    var logs := ClosedLog(OpenedLog(w.logs, w.nextLogId, platform, SyncTypeOf(options), now), w.nextLogId, now, r.1, faults.completion);
    Ran(World(r.0, logs, w.nextLogId + 1, cache), Fulfilled(Reported(platform, r.1, faults.completion)))
  }

  /** syncEpicGames from `w`: rejected when the log row cannot be created, otherwise the Epic search's games synced. */
  function EpicRun(w: World, options: SyncOptions, upstream: Upstream, faults: SyncFaults, now: int): Ran {
    if faults.logCreate then Ran(w, Rejected)
    else
      var listed := EpicAdapter.SearchAnswer(w.cache, EpicSyncParams(options), now, upstream.epic).games;
      Finished(w, Epic, options, EpicRecords(listed), EpicAdapter.SearchCache(w.cache, EpicSyncParams(options), now, upstream.epic), faults, now)
  }

  /** syncGOGGames from `w`. */
  function GogRun(w: World, options: SyncOptions, upstream: Upstream, faults: SyncFaults, now: int): Ran {
    if faults.logCreate then Ran(w, Rejected)
    else
      var listed := GogAdapter.SearchAnswer(w.cache, GogSyncParams(options), now, upstream.gog).games;
      Finished(w, Gog, options, GogRecords(listed), GogAdapter.SearchCache(w.cache, GogSyncParams(options), now, upstream.gog), faults, now)
  }

  /** syncSteamGames from `w`: the first fifty apps of the Steam search. */
  function SteamRun(w: World, options: SyncOptions, upstream: Upstream, faults: SyncFaults, now: int): Ran {
    if faults.logCreate then Ran(w, Rejected)
    else
      var listed := Take(SteamAdapter.SearchAnswer(w.cache, options.query, now, upstream.steamAppList).games, SyncBatchSize);
      Finished(w, Steam, options, SteamRecords(listed, upstream.steamDetailsOf),
               SteamAdapter.SearchCache(w.cache, options.query, now, upstream.steamAppList), faults, now)
  }

  /** The order syncAllPlatforms runs the platforms in. */
  const SyncOrder: seq<Platform> := [Epic, Gog, Steam]

  /** The platform's run from `w`. */
  function RunOn(p: Platform, w: World, options: SyncOptions, upstream: Upstream, faults: SyncFaults, now: int): Ran {
    match p
    case Epic => EpicRun(w, options, upstream, faults, now)
    case Gog => GogRun(w, options, upstream, faults, now)
    case Steam => SteamRun(w, options, upstream, faults, now)
  }

  /** syncAllPlatforms from `w`: the three runs one after the other, each from the state the previous one left. */
  function AllRuns(w: World, options: SyncOptions, upstream: Upstream, faults: Platform -> SyncFaults, now: int)
    : (World, seq<SyncOutcome>)
  {
    var e := RunOn(Epic, w, options, upstream, faults(Epic), now);
    var g := RunOn(Gog, e.world, options, upstream, faults(Gog), now);
    var s := RunOn(Steam, g.world, options, upstream, faults(Steam), now);
    (s.world, [e.outcome, g.outcome, s.outcome])
  }

  /**
   * One run is rejected exactly when its log row cannot be created, and then
   * changes nothing; otherwise it adds one log row and reports its own
   * platform, successful exactly when the completion update does not throw.
   */
  lemma RunOnReport(p: Platform, w: World, options: SyncOptions, upstream: Upstream, faults: SyncFaults, now: int)
    ensures var ran := RunOn(p, w, options, upstream, faults, now);
      Reports(ran.outcome, p, faults)
      && (ran.outcome.Rejected? ==> ran.world == w)
      && (ran.outcome.Fulfilled? ==> |ran.world.logs| == |w.logs| + 1 && ran.world.nextLogId == w.nextLogId + 1)
  {
  }

  /** The outcome a run of `p` settles to under `faults`: rejected iff no log row, else `p`'s report. */
  predicate Reports(o: SyncOutcome, p: Platform, faults: SyncFaults) {
    (o.Rejected? <==> faults.logCreate)
    && (o.Fulfilled? ==> o.result.platform == p && (o.result.success <==> faults.completion.None?))
  }

  /**
   * syncAllPlatforms settles one outcome per platform in the order Epic,
   * GOG, Steam, each rejected exactly when its log row cannot be created and
   * otherwise its own platform's report, successful exactly when the
   * completion update does not throw.
   */
  lemma AllRunsOutcomes(w: World, options: SyncOptions, upstream: Upstream, faults: Platform -> SyncFaults, now: int)
    ensures var outcomes := AllRuns(w, options, upstream, faults, now).1;
      |outcomes| == 3 && forall k :: 0 <= k < 3 ==> Reports(outcomes[k], SyncOrder[k], faults(SyncOrder[k]))
  {
    var e := RunOn(Epic, w, options, upstream, faults(Epic), now);
    var g := RunOn(Gog, e.world, options, upstream, faults(Gog), now);
    var s := RunOn(Steam, g.world, options, upstream, faults(Steam), now);
    RunOnReport(Epic, w, options, upstream, faults(Epic), now);
    RunOnReport(Gog, e.world, options, upstream, faults(Gog), now);
    RunOnReport(Steam, g.world, options, upstream, faults(Steam), now);
    assert AllRuns(w, options, upstream, faults, now).1 == [e.outcome, g.outcome, s.outcome];
    InOrder(e.outcome, g.outcome, s.outcome, faults);
  }

  /** Three outcomes that each report their platform, in the order of SyncOrder. */
  lemma InOrder(a: SyncOutcome, b: SyncOutcome, c: SyncOutcome, faults: Platform -> SyncFaults)
    requires Reports(a, Epic, faults(Epic)) && Reports(b, Gog, faults(Gog)) && Reports(c, Steam, faults(Steam))
    ensures forall k :: 0 <= k < 3 ==> Reports([a, b, c][k], SyncOrder[k], faults(SyncOrder[k]))
  {
    forall k | 0 <= k < 3 ensures Reports([a, b, c][k], SyncOrder[k], faults(SyncOrder[k])) {
      assert SyncOrder[k] == [Epic, Gog, Steam][k];
    }
  }

  /** syncAllPlatforms writes one log row, and uses one log id, per run that was not rejected. */
  lemma AllRunsLogged(w: World, options: SyncOptions, upstream: Upstream, faults: Platform -> SyncFaults, now: int)
    ensures var all := AllRuns(w, options, upstream, faults, now);
      |all.0.logs| == |w.logs| + |FulfilledResults(all.1)|
      && all.0.nextLogId == w.nextLogId + |FulfilledResults(all.1)|
  {
    var e := RunOn(Epic, w, options, upstream, faults(Epic), now);
    var g := RunOn(Gog, e.world, options, upstream, faults(Gog), now);
    var s := RunOn(Steam, g.world, options, upstream, faults(Steam), now);
    RunOnReport(Epic, w, options, upstream, faults(Epic), now);
    RunOnReport(Gog, e.world, options, upstream, faults(Gog), now);
    RunOnReport(Steam, g.world, options, upstream, faults(Steam), now);
    assert AllRuns(w, options, upstream, faults, now) == (s.world, [e.outcome, g.outcome, s.outcome]);
    Tally(w, e, g, s, faults);
  }

  /** The bookkeeping of three runs in a row, from what each run reports. */
  lemma Tally(w: World, e: Ran, g: Ran, s: Ran, faults: Platform -> SyncFaults)
    requires e.outcome.Rejected? ==> e.world == w
    requires e.outcome.Fulfilled? ==> |e.world.logs| == |w.logs| + 1 && e.world.nextLogId == w.nextLogId + 1
    requires g.outcome.Rejected? ==> g.world == e.world
    requires g.outcome.Fulfilled? ==> |g.world.logs| == |e.world.logs| + 1 && g.world.nextLogId == e.world.nextLogId + 1
    requires s.outcome.Rejected? ==> s.world == g.world
    requires s.outcome.Fulfilled? ==> |s.world.logs| == |g.world.logs| + 1 && s.world.nextLogId == g.world.nextLogId + 1
    ensures |s.world.logs| == |w.logs| + |FulfilledResults([e.outcome, g.outcome, s.outcome])|
    ensures s.world.nextLogId == w.nextLogId + |FulfilledResults([e.outcome, g.outcome, s.outcome])|
  {
    FulfilledCount(e.outcome, g.outcome, s.outcome);
  }

  /** Three outcomes give one result per fulfilled one. */
  lemma FulfilledCount(a: SyncOutcome, b: SyncOutcome, c: SyncOutcome)
    ensures |FulfilledResults([a, b, c])| == (if a.Fulfilled? then 1 else 0) + (if b.Fulfilled? then 1 else 0) + (if c.Fulfilled? then 1 else 0)
  {
    var outcomes := [a, b, c];
    assert outcomes[1..] == [b, c];
    assert outcomes[1..][1..] == [c];
    assert outcomes[1..][1..][1..] == [];
    assert |FulfilledResults([c])| == (if c.Fulfilled? then 1 else 0) by {
      assert FulfilledResults([c]) == (if c.Fulfilled? then [c.result] else []) + FulfilledResults([]);
    }
    assert |FulfilledResults([b, c])| == (if b.Fulfilled? then 1 else 0) + |FulfilledResults([c])|;
  }

  // ---------------------------------------------------------------------
  // The database

  class Catalog {
    var games: seq<GameRow>
    var offers: seq<OfferRow>
    var logs: seq<SyncLogRow>
    var nextGameId: nat
    var nextOfferId: nat
    var nextLogId: nat

    function State(): Tables
      reads this
    {
      Tables(games, offers, nextGameId, nextOfferId)
    }

    constructor()
      ensures games == [] && offers == [] && logs == []
      ensures nextGameId == 1 && nextOfferId == 1 && nextLogId == 1
    {
      games := [];
      offers := [];
      logs := [];
      nextGameId := 1;
      nextOfferId := 1;
      nextLogId := 1;
    }

    /** createSyncLog: a 'running' row started now, with zero counters. */
    method CreateSyncLog(platform: Platform, syncType: SyncType, now: int) returns (id: nat)
      modifies this
      ensures id == old(nextLogId) && nextLogId == old(nextLogId) + 1
      ensures logs == old(logs) + [SyncLogRow(id, platform, syncType, LogRunning, now, None, 0, 0, 0, None)]
      ensures State() == old(State())
    {
      id := nextLogId;
      logs := logs + [SyncLogRow(id, platform, syncType, LogRunning, now, None, 0, 0, 0, None)];
      nextLogId := nextLogId + 1;
    }

    method FindOrCreateGame(name: string, description: string, coverImage: Option<string>) returns (id: nat)
      modifies this
      ensures State() == FindOrCreate(old(State()), name, description, coverImage).0
      ensures id == FindOrCreate(old(State()), name, description, coverImage).1
      ensures logs == old(logs) && nextLogId == old(nextLogId)
    {
      var found := FirstGameNamed(games, name);
      if found.Some? {
        return games[found.value].id;
      }
      id := nextGameId;
      games := games + [GameRow(id, name, description, coverImage, false, None)];
      nextGameId := nextGameId + 1;
    }

    method UpsertGamePlatform(gameId: nat, platform: Platform, platformId: string, game: NormalizedGame, now: int)
      returns (id: nat)
      modifies this
      ensures State() == Upsert(old(State()), gameId, platform, platformId, game.platformData, now)
      ensures id == offers[FirstOffer(offers, gameId, platform).value].id
      ensures logs == old(logs) && nextLogId == old(nextLogId)
    {
      var existing := FirstOffer(offers, gameId, platform);
      if existing.Some? {
        id := offers[existing.value].id;
        offers := offers[existing.value := StoredOffer(id, gameId, platform, platformId, game.platformData, now)];
      } else {
        id := nextOfferId;
        offers := offers + [StoredOffer(id, gameId, platform, platformId, game.platformData, now)];
        nextOfferId := nextOfferId + 1;
      }
    }

    method UpdateGamePlatformsArray(gameId: nat)
      modifies this
      ensures State() == RefreshPlatforms(old(State()), gameId)
      ensures logs == old(logs) && nextLogId == old(nextLogId)
    {
      games := RefreshPlatforms(State(), gameId).games;
    }

    /** The body of the loop for one record, inside its try. */
    method SyncRecord(platform: Platform, rec: SyncRecord, stage: Option<Stage>, now: int) returns (delta: Counts)
      modifies this
      ensures State() == Step(old(State()), platform, rec, stage, now).0
      ensures delta == Step(old(State()), platform, rec, stage, now).1
      ensures logs == old(logs) && nextLogId == old(nextLogId)
    {
      var reach := Reach(stage);
      delta := Counts(0, 0, 0);
      if reach > 0 {
        var gameId := FindOrCreateGame(rec.game.name, rec.game.description, rec.game.coverImage);
        ghost var s1 := Statements(old(State()), platform, rec, now, 1);
        assert State() == s1.0 && gameId == s1.1;
        assert delta == Statements(old(State()), platform, rec, now, 1).2;
        if reach > 1 {
          if FirstOffer(offers, gameId, platform).None? {
            delta := Counts(0, 1, 0);
          } else {
            delta := Counts(0, 0, 1);
          }
          ghost var s2 := Statements(old(State()), platform, rec, now, 2);
          assert State() == s2.0 && gameId == s2.1 && delta == s2.2;
          if reach > 2 {
            var _ := UpsertGamePlatform(gameId, platform, rec.platformId, rec.game, now);
            ghost var s3 := Statements(old(State()), platform, rec, now, 3);
            assert State() == s3.0 && gameId == s3.1 && delta == s3.2;
            if reach > 3 {
              UpdateGamePlatformsArray(gameId);
              delta := delta.(processed := 1);
              ghost var s4 := Statements(old(State()), platform, rec, now, 4);
              assert State() == s4.0 && gameId == s4.1 && delta == s4.2;
            }
          }
        }
      }
    }

    /** The loop over the records, each in its own try. */
    method SyncRecords(platform: Platform, records: seq<SyncRecord>, fault: nat -> Option<Stage>, now: int)
      returns (counts: Counts)
      modifies this
      ensures State() == Run(old(State()), platform, records, fault, now, |records|).0
      ensures counts == Run(old(State()), platform, records, fault, now, |records|).1
      ensures logs == old(logs) && nextLogId == old(nextLogId)
    {
      counts := Counts(0, 0, 0);
      var i := 0;
      while i < |records|
        invariant 0 <= i <= |records|
        invariant State() == Run(old(State()), platform, records, fault, now, i).0
        invariant counts == Run(old(State()), platform, records, fault, now, i).1
        invariant logs == old(logs) && nextLogId == old(nextLogId)
      {
        RunStep(old(State()), platform, records, fault, now, i);
        var delta := SyncRecord(platform, records[i], fault(i), now);
        counts := Plus(counts, delta);
        i := i + 1;
      }
    }

    /**
     * The common part of the three syncs once the log row exists: the loop,
     * then the completion update; if that throws, the row is marked failed
     * and the result reports zero counters (the rows written stay).
     */
    method RunAndLog(platform: Platform, logId: nat, records: seq<SyncRecord>, faults: SyncFaults, now: int)
      returns (result: SyncResult)
      modifies this
      ensures var r := Run(old(State()), platform, records, faults.perRecord, now, |records|);
        State() == r.0
        && result == Reported(platform, r.1, faults.completion)
        && logs == ClosedLog(old(logs), logId, now, r.1, faults.completion)
      ensures nextLogId == old(nextLogId)
      ensures result.gamesProcessed <= result.gamesAdded + result.gamesUpdated <= |records|
    {
      var counts := SyncRecords(platform, records, faults.perRecord, now);
      if faults.completion.None? {
        logs := CompleteLog(logs, logId, now, counts);
        result := SyncResult(platform, true, counts.processed, counts.added, counts.updated, None);
      } else {
        var message := ThrownMessage(faults.completion.value);
        logs := FailLog(logs, logId, now, message);
        result := SyncResult(platform, false, 0, 0, 0, Some(message));
      }
    }

    /** syncEpicGames: a batch of fifty from the Epic search. */
    method SyncEpicGames(cache: TtlCache<CacheValue>, options: SyncOptions, upstream: Upstream, faults: SyncFaults, now: int)
      returns (outcome: SyncOutcome, listed: seq<EpicGameResponse>)
      requires Disciplined(cache.entries)
      modifies this, cache
      ensures Disciplined(cache.entries)
      ensures var ran := EpicRun(World(old(State()), old(logs), old(nextLogId), old(cache.entries)), options, upstream, faults, now);
        outcome == ran.outcome && State() == ran.world.tables && logs == ran.world.logs
        && nextLogId == ran.world.nextLogId && cache.entries == ran.world.cache
      ensures outcome.Rejected? <==> faults.logCreate
      ensures faults.logCreate ==> State() == old(State()) && logs == old(logs)
      ensures outcome.Fulfilled? ==>
        listed == EpicAdapter.SearchAnswer(old(cache.entries), EpicSyncParams(options), now, upstream.epic).games
        && var r := Run(old(State()), Epic, EpicRecords(listed), faults.perRecord, now, |listed|);
        State() == r.0
        && outcome.result == Reported(Epic, r.1, faults.completion)
        && logs == ClosedLog(OpenedLog(old(logs), old(nextLogId), Epic, SyncTypeOf(options), now), old(nextLogId), now, r.1, faults.completion)
        && |old(logs)| + 1 == |logs| && logs[|old(logs)|].platform == Epic
        && outcome.result.gamesProcessed <= outcome.result.gamesAdded + outcome.result.gamesUpdated <= |listed|
    {
      listed := [];
      if faults.logCreate {
        return Rejected, listed;
      }
      var logId := CreateSyncLog(Epic, SyncTypeOf(options), now);
      var search, _ := EpicAdapter.SearchEpicGames(cache, EpicSyncParams(options), now, upstream.epic);
      listed := search.games;
      var result := RunAndLog(Epic, logId, EpicRecords(listed), faults, now);
      outcome := Fulfilled(result);
    }

    /** syncGOGGames: a batch of fifty from the GOG search. */
    method SyncGogGames(cache: TtlCache<CacheValue>, options: SyncOptions, upstream: Upstream, faults: SyncFaults, now: int)
      returns (outcome: SyncOutcome, listed: seq<GOGGameResponse>)
      requires Disciplined(cache.entries)
      modifies this, cache
      ensures Disciplined(cache.entries)
      ensures var ran := GogRun(World(old(State()), old(logs), old(nextLogId), old(cache.entries)), options, upstream, faults, now);
        outcome == ran.outcome && State() == ran.world.tables && logs == ran.world.logs
        && nextLogId == ran.world.nextLogId && cache.entries == ran.world.cache
      ensures outcome.Rejected? <==> faults.logCreate
      ensures faults.logCreate ==> State() == old(State()) && logs == old(logs)
      ensures outcome.Fulfilled? ==>
        listed == GogAdapter.SearchAnswer(old(cache.entries), GogSyncParams(options), now, upstream.gog).games
        && var r := Run(old(State()), Gog, GogRecords(listed), faults.perRecord, now, |listed|);
        State() == r.0
        && outcome.result == Reported(Gog, r.1, faults.completion)
        && logs == ClosedLog(OpenedLog(old(logs), old(nextLogId), Gog, SyncTypeOf(options), now), old(nextLogId), now, r.1, faults.completion)
        && |old(logs)| + 1 == |logs| && logs[|old(logs)|].platform == Gog
        && outcome.result.gamesProcessed <= outcome.result.gamesAdded + outcome.result.gamesUpdated <= |listed|
    {
      listed := [];
      if faults.logCreate {
        return Rejected, listed;
      }
      var logId := CreateSyncLog(Gog, SyncTypeOf(options), now);
      var search, _ := GogAdapter.SearchGogGames(cache, GogSyncParams(options), now, upstream.gog);
      listed := search.games;
      var result := RunAndLog(Gog, logId, GogRecords(listed), faults, now);
      outcome := Fulfilled(result);
    }

    /** syncSteamGames: the first fifty apps of the Steam search, each priced from its details. */
    method SyncSteamGames(cache: TtlCache<CacheValue>, options: SyncOptions, upstream: Upstream, faults: SyncFaults, now: int)
      returns (outcome: SyncOutcome, listed: seq<SteamApp>)
      requires Disciplined(cache.entries)
      modifies this, cache
      ensures Disciplined(cache.entries)
      ensures var ran := SteamRun(World(old(State()), old(logs), old(nextLogId), old(cache.entries)), options, upstream, faults, now);
        outcome == ran.outcome && State() == ran.world.tables && logs == ran.world.logs
        && nextLogId == ran.world.nextLogId && cache.entries == ran.world.cache
      ensures outcome.Rejected? <==> faults.logCreate
      ensures faults.logCreate ==> State() == old(State()) && logs == old(logs)
      ensures outcome.Fulfilled? ==>
        |listed| <= SyncBatchSize
        && listed == Take(SteamAdapter.SearchAnswer(old(cache.entries), options.query, now, upstream.steamAppList).games, SyncBatchSize)
        && var r := Run(old(State()), Steam, SteamRecords(listed, upstream.steamDetailsOf), faults.perRecord, now, |listed|);
        State() == r.0
        && outcome.result == Reported(Steam, r.1, faults.completion)
        && logs == ClosedLog(OpenedLog(old(logs), old(nextLogId), Steam, SyncTypeOf(options), now), old(nextLogId), now, r.1, faults.completion)
        && |old(logs)| + 1 == |logs| && logs[|old(logs)|].platform == Steam
        && outcome.result.gamesProcessed <= outcome.result.gamesAdded + outcome.result.gamesUpdated <= |listed|
    {
      listed := [];
      if faults.logCreate {
        return Rejected, listed;
      }
      var logId := CreateSyncLog(Steam, SyncTypeOf(options), now);
      var search, _ := SteamAdapter.SearchSteamGames(cache, options.query, now, upstream.steamAppList);
      listed := Take(search.games, SyncBatchSize);
      var result := RunAndLog(Steam, logId, SteamRecords(listed, upstream.steamDetailsOf), faults, now);
      outcome := Fulfilled(result);
    }

    /** The run of platform `p`: syncEpicGames, syncGOGGames or syncSteamGames. */
    method RunPlatform(p: Platform, cache: TtlCache<CacheValue>, options: SyncOptions, upstream: Upstream, faults: SyncFaults, now: int)
      returns (outcome: SyncOutcome)
      requires Disciplined(cache.entries)
      modifies this, cache
      ensures Disciplined(cache.entries)
      ensures var ran := RunOn(p, World(old(State()), old(logs), old(nextLogId), old(cache.entries)), options, upstream, faults, now);
        outcome == ran.outcome && State() == ran.world.tables && logs == ran.world.logs
        && nextLogId == ran.world.nextLogId && cache.entries == ran.world.cache
    {
      match p
      case Epic =>
        var listed;
        outcome, listed := SyncEpicGames(cache, options, upstream, faults, now);
      case Gog =>
        var listed;
        outcome, listed := SyncGogGames(cache, options, upstream, faults, now);
      case Steam =>
        var listed;
        outcome, listed := SyncSteamGames(cache, options, upstream, faults, now);
    }

    /**
     * syncAllPlatforms: the three runs (in the order epic, gog, steam) and
     * the results of those that were not rejected, in that order.
     */
    method SyncAllPlatforms(cache: TtlCache<CacheValue>, options: SyncOptions, upstream: Upstream,
                            faults: Platform -> SyncFaults, now: int)
      returns (results: seq<SyncResult>, outcomes: seq<SyncOutcome>)
      requires Disciplined(cache.entries)
      modifies this, cache
      ensures Disciplined(cache.entries)
      ensures |outcomes| == 3
      ensures outcomes[0].Rejected? <==> faults(Epic).logCreate
      ensures outcomes[1].Rejected? <==> faults(Gog).logCreate
      ensures outcomes[2].Rejected? <==> faults(Steam).logCreate
      ensures results == FulfilledResults(outcomes)
      ensures var all := AllRuns(World(old(State()), old(logs), old(nextLogId), old(cache.entries)), options, upstream, faults, now);
        outcomes == all.1 && State() == all.0.tables && logs == all.0.logs
        && nextLogId == all.0.nextLogId && cache.entries == all.0.cache
    {
      ghost var w0 := World(State(), logs, nextLogId, cache.entries);
      var epic := RunPlatform(Epic, cache, options, upstream, faults(Epic), now);
      ghost var w1 := World(State(), logs, nextLogId, cache.entries);
      var gog := RunPlatform(Gog, cache, options, upstream, faults(Gog), now);
      ghost var w2 := World(State(), logs, nextLogId, cache.entries);
      var steam := RunPlatform(Steam, cache, options, upstream, faults(Steam), now);
      ghost var w3 := World(State(), logs, nextLogId, cache.entries);
      outcomes := [epic, gog, steam];
      assert AllRuns(w0, options, upstream, faults, now) == (w3, outcomes);
      RunOnReport(Epic, w0, options, upstream, faults(Epic), now);
      RunOnReport(Gog, w1, options, upstream, faults(Gog), now);
      RunOnReport(Steam, w2, options, upstream, faults(Steam), now);
      results := FulfilledResults(outcomes);
    }
  }
}
