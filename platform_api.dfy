// The base of the class-based platform services: the rows they read and
// write (a games row with descriptive columns, an offer row with string
// flags, and the platform sync log), the sync throttle, the log writer and
// the per-platform availability listing.
//
// The throttle as written selects the OLDEST successful sync (the first row
// in ascending order of completion); `ShouldSyncAsWritten` models that and
// throttles the Epic service's `SyncGames`; `ShouldSync`, which selects the
// newest one, throttles its `SyncGamesCorrected`.

module PlatformApiBase {
  import opened Common

  const MillisPerHour: int := 60 * 60 * 1000
  const DefaultCacheTtlHours: nat := 12
  const DefaultRateLimitDelay: nat := 1000

  /**
   * The value of a decimal(10,2) price column, held exactly as a whole
   * number of hundredths: the services only ever write whole cents divided
   * by one hundred, which such a column stores without rounding.
   */
  datatype Money = Hundredths(hundredths: int)

  /** The amount a price column denotes, in currency units. */
  function Amount(m: Money): (r: real)
    ensures r * 100.0 == m.hundredths as real
  {
    m.hundredths as real / 100.0
  }

  /** A row of the games table as the platform services write it. */
  datatype ServiceGameRow = ServiceGameRow(
    id: nat,
    name: string,
    description: Option<string>,
    shortDescription: Option<string>,
    imageUrl: Option<string>,
    genres: Option<string>,
    tags: Option<string>,
    developer: Option<string>,
    publisher: Option<string>,
    releaseDate: Option<string>,
    metacriticScore: Option<int>)

  /**
   * A row of the offers table in the column set of the platform services.
   * The decimal columns come back from the driver as strings such as
   * "0.00", which are truthy; the model keeps their exact value.
   */
  datatype PlatformOffer = PlatformOffer(
    id: nat,
    gameId: nat,
    platform: Platform,
    platformId: string,
    platformUrl: Option<string>,
    platformPrice: Option<Money>,
    originalPrice: Option<Money>,
    discountPercent: Option<int>,
    currency: Option<string>,
    available: Option<Flag>,
    drmFree: Option<Flag>,
    lastSyncDate: Option<int>)

  /** A games row left-joined to one of its offers (None when it has no offer). */
  datatype JoinedRow = JoinedRow(game: ServiceGameRow, platform: Option<PlatformOffer>)

  datatype ServiceSyncType = FullSync | IncrementalSync

  datatype ServiceSyncStatus = SyncSuccess | SyncPartial | SyncFailed

  /** A row of the platform sync log. */
  datatype PlatformLogRow = PlatformLogRow(
    platform: Platform,
    syncType: ServiceSyncType,
    status: ServiceSyncStatus,
    gamesSynced: nat,
    errors: string,
    startedAt: int,
    completedAt: Option<int>)

  /** What a service hands out for one store product; every field but the first two is optional. */
  datatype PlatformGame = PlatformGame(
    platformId: string,
    name: string,
    description: Option<string>,
    shortDescription: Option<string>,
    imageUrl: Option<string>,
    genres: Option<string>,
    tags: Option<string>,
    developer: Option<string>,
    publisher: Option<string>,
    releaseDate: Option<string>,
    metacriticScore: Option<int>,
    platformPrice: Option<Money>,
    originalPrice: Option<Money>,
    discountPercent: Option<int>,
    currency: Option<string>,
    platformUrl: Option<string>,
    available: Option<Flag>,
    drmFree: Option<Flag>)

  datatype PlatformSyncResult = PlatformSyncResult(success: bool, gamesSynced: nat, errors: seq<string>, durationMs: int)

  /** One entry of a service's availability listing. */
  datatype Availability = Availability(
    platform: Platform,
    platformId: string,
    name: string,
    price: Option<Money>,
    available: bool,
    url: Option<string>)

  // ---------------------------------------------------------------------
  // The throttle

  /** The completion times of the platform's successful syncs, in table order. */
  function SuccessCompletions(logs: seq<PlatformLogRow>, platform: Platform): (r: seq<Option<int>>)
    ensures |r| <= |logs|
    ensures |r| == 0 <==> forall i :: 0 <= i < |logs| ==> !(logs[i].platform == platform && logs[i].status == SyncSuccess)
    ensures forall c :: c in r <==>
      exists i :: 0 <= i < |logs| && logs[i].platform == platform && logs[i].status == SyncSuccess && logs[i].completedAt == c
  {
    if |logs| == 0 then []
    else
      var rest := SuccessCompletions(logs[1..], platform);
      assert forall i :: 0 < i < |logs| ==> logs[i] == logs[1..][i - 1];
      if logs[0].platform == platform && logs[0].status == SyncSuccess then [logs[0].completedAt] + rest else rest
  }

  /** Hours elapsed between a completion and now. */
  function HoursSince(completedAt: int, now: int): real {
    (now - completedAt) as real / MillisPerHour as real
  }

  /** `hoursSinceLastSync >= cacheTtlHours`. */
  predicate Due(completedAt: int, now: int, ttlHours: nat) {
    HoursSince(completedAt, now) >= ttlHours as real
  }

  /** The throttle in whole milliseconds: at least ttl hours have passed. */
  lemma DueIff(completedAt: int, now: int, ttlHours: nat)
    ensures Due(completedAt, now, ttlHours) <==> now - completedAt >= ttlHours * MillisPerHour
  {
    var h := MillisPerHour as real;
    var age := (now - completedAt) as real;
    assert age / h * h == age;
    assert (ttlHours * MillisPerHour) as real == ttlHours as real * h;
    if age / h >= ttlHours as real {
      assert age / h * h >= ttlHours as real * h;
    } else {
      assert age / h * h < ttlHours as real * h;
    }
  }

  /** An earlier completion is due whenever a later one is. */
  lemma DueEarlier(earlier: int, later: int, now: int, ttlHours: nat)
    requires earlier <= later
    requires Due(later, now, ttlHours)
    ensures Due(earlier, now, ttlHours)
  {
    DueIff(later, now, ttlHours);
    DueIff(earlier, now, ttlHours);
  }

  /**
   * The first row of the rows ordered by ascending completion, where a
   * missing completion sorts first; None when there is no row.
   */
  function Earliest(cs: seq<Option<int>>): (r: Option<Option<int>>)
    ensures r.None? <==> |cs| == 0
    ensures r == Some(None) <==> None in cs
    ensures r.Some? && r.value.Some? ==>
      r.value in cs && forall c :: c in cs ==> c.Some? && r.value.value <= c.value
  {
    if |cs| == 0 then None
    else
      var rest := Earliest(cs[1..]);
      assert forall c :: c in cs ==> c == cs[0] || c in cs[1..];
      if cs[0].None? || rest == Some(None) then Some(None)
      else if rest.None? || cs[0].value <= rest.value.value then Some(cs[0])
      else rest
  }

  /** The newest recorded completion, if any row records one. */
  function Latest(cs: seq<Option<int>>): (r: Option<int>)
    ensures r.None? <==> forall c :: c in cs ==> c.None?
    ensures r.Some? ==> Some(r.value) in cs && forall c :: c in cs && c.Some? ==> c.value <= r.value
  {
    if |cs| == 0 then None
    else
      var rest := Latest(cs[1..]);
      assert forall c :: c in cs ==> c == cs[0] || c in cs[1..];
      if cs[0].None? then rest
      else if rest.None? || rest.value <= cs[0].value then cs[0]
      else rest
  }

  /**
   * shouldSync as written: the successful sync that comes first in
   * ascending order of completion decides; no such row, or one without a
   * completion, means a sync is due.
   */
  function ShouldSyncAsWritten(logs: seq<PlatformLogRow>, platform: Platform, ttlHours: nat, now: int): bool {
    var first := Earliest(SuccessCompletions(logs, platform));
    first.None? || first.value.None? || Due(first.value.value, now, ttlHours)
  }

  /** shouldSync as intended: the newest successful sync decides. */
  function ShouldSync(logs: seq<PlatformLogRow>, platform: Platform, ttlHours: nat, now: int): bool {
    var last := Latest(SuccessCompletions(logs, platform));
    last.None? || Due(last.value, now, ttlHours)
  }

  /**
   * As written, a sync is due when there is no successful sync, when one
   * lacks a completion, or when ANY successful sync is older than the TTL.
   */
  lemma ShouldSyncAsWrittenIff(logs: seq<PlatformLogRow>, platform: Platform, ttlHours: nat, now: int)
    ensures ShouldSyncAsWritten(logs, platform, ttlHours, now) <==>
      (forall i :: 0 <= i < |logs| ==> !(logs[i].platform == platform && logs[i].status == SyncSuccess))
      || (exists i :: 0 <= i < |logs| && logs[i].platform == platform && logs[i].status == SyncSuccess
                      && (logs[i].completedAt.None? || Due(logs[i].completedAt.value, now, ttlHours)))
  {
    var cs := SuccessCompletions(logs, platform);
    var first := Earliest(cs);
    if first.Some? && first.value.Some? {
      var m := first.value.value;
      if exists i :: 0 <= i < |logs| && logs[i].platform == platform && logs[i].status == SyncSuccess
                      && (logs[i].completedAt.None? || Due(logs[i].completedAt.value, now, ttlHours)) {
        var i :| 0 <= i < |logs| && logs[i].platform == platform && logs[i].status == SyncSuccess
                  && (logs[i].completedAt.None? || Due(logs[i].completedAt.value, now, ttlHours));
        assert logs[i].completedAt in cs;
        DueEarlier(m, logs[i].completedAt.value, now, ttlHours);
      }
      var k :| 0 <= k < |logs| && logs[k].platform == platform && logs[k].status == SyncSuccess && logs[k].completedAt == first.value;
    } else if first.Some? {
      var k :| 0 <= k < |logs| && logs[k].platform == platform && logs[k].status == SyncSuccess && logs[k].completedAt == None;
    }
  }

  /** As intended, a sync is due exactly when no successful sync completed within the TTL. */
  lemma ShouldSyncIff(logs: seq<PlatformLogRow>, platform: Platform, ttlHours: nat, now: int)
    ensures ShouldSync(logs, platform, ttlHours, now) <==>
      forall i :: 0 <= i < |logs| && logs[i].platform == platform && logs[i].status == SyncSuccess && logs[i].completedAt.Some?
        ==> Due(logs[i].completedAt.value, now, ttlHours)
  {
    var cs := SuccessCompletions(logs, platform);
    var last := Latest(cs);
    if last.Some? {
      var k :| 0 <= k < |logs| && logs[k].platform == platform && logs[k].status == SyncSuccess && logs[k].completedAt == Some(last.value);
      if Due(last.value, now, ttlHours) {
        forall i | 0 <= i < |logs| && logs[i].platform == platform && logs[i].status == SyncSuccess && logs[i].completedAt.Some?
          ensures Due(logs[i].completedAt.value, now, ttlHours)
        {
          assert logs[i].completedAt in cs;
          DueEarlier(logs[i].completedAt.value, last.value, now, ttlHours);
        }
      }
    } else {
      forall i | 0 <= i < |logs| && logs[i].platform == platform && logs[i].status == SyncSuccess
        ensures logs[i].completedAt.None?
      {
        assert logs[i].completedAt in cs;
      }
    }
  }

  /**
   * The two throttles disagree: with a twelve-hour TTL, a first successful
   * sync at time 0 and another one hour before now (thirteen hours), the
   * selection as written finds the old row and declares a sync due, though
   * one completed an hour ago.
   */
  lemma OldestLogDefeatsThrottle()
    ensures var now := 13 * MillisPerHour;
      var logs := [PlatformLogRow(Epic, FullSync, SyncSuccess, 10, "", 0, Some(0)),
                   PlatformLogRow(Epic, FullSync, SyncSuccess, 10, "", now - MillisPerHour - 10000, Some(now - MillisPerHour))];
      ShouldSyncAsWritten(logs, Epic, 12, now) && !ShouldSync(logs, Epic, 12, now)
  {
    var now := 13 * MillisPerHour;
    var logs := [PlatformLogRow(Epic, FullSync, SyncSuccess, 10, "", 0, Some(0)),
                 PlatformLogRow(Epic, FullSync, SyncSuccess, 10, "", now - MillisPerHour - 10000, Some(now - MillisPerHour))];
    assert logs[1..] == [logs[1]];
    assert SuccessCompletions([logs[1]], Epic) == [Some(now - MillisPerHour)] + SuccessCompletions([], Epic);
    var cs := SuccessCompletions(logs, Epic);
    assert cs == [Some(0), Some(now - MillisPerHour)];
    DueIff(0, now, 12);
    DueIff(now - MillisPerHour, now, 12);
  }

  /** A success logged now (with a positive TTL) makes the intended throttle answer "not due". */
  lemma LoggedSuccessDefersSync(logs: seq<PlatformLogRow>, row: PlatformLogRow, ttlHours: nat, now: int)
    requires row.status == SyncSuccess && row.completedAt == Some(now) && ttlHours > 0
    ensures !ShouldSync(logs + [row], row.platform, ttlHours, now)
  {
    var all := logs + [row];
    assert all[|logs|] == row;
    DueIff(now, now, ttlHours);
    ShouldSyncIff(all, row.platform, ttlHours, now);
  }

  // ---------------------------------------------------------------------
  // Availability

  /** The offers of one platform, in table order. */
  function RowsOn(offers: seq<PlatformOffer>, platform: Platform): (r: seq<PlatformOffer>)
    ensures |r| <= |offers|
    ensures forall o :: o in r <==> o in offers && o.platform == platform
  {
    if |offers| == 0 then []
    else
      var rest := RowsOn(offers[1..], platform);
      assert forall o :: o in offers ==> o == offers[0] || o in offers[1..];
      if offers[0].platform == platform then [offers[0]] + rest else rest
  }

  /**
   * getPlatformAvailability: one entry per offer row of the platform, in
   * order, carrying the caller's game name; available exactly when the
   * stored flag is 'true'; price and url as stored.
   */
  function AvailabilityOf(offers: seq<PlatformOffer>, platform: Platform, gameName: string): (r: seq<Availability>)
    ensures |r| == |RowsOn(offers, platform)|
    ensures forall i :: 0 <= i < |r| ==>
      var o := RowsOn(offers, platform)[i];
      r[i].platform == platform && r[i].name == gameName && r[i].platformId == o.platformId
      && r[i].price == o.platformPrice && r[i].url == o.platformUrl
      && (r[i].available <==> o.available == Some(FlagTrue))
  {
    var rows := RowsOn(offers, platform);
    seq(|rows|, i requires 0 <= i < |rows| =>
      Availability(platform, rows[i].platformId, gameName, rows[i].platformPrice, rows[i].available == Some(FlagTrue), rows[i].platformUrl))
  }

  // ---------------------------------------------------------------------
  // The tables the services share

  /** The games and offers tables with their next auto-increment ids. */
  datatype ServiceTables = ServiceTables(games: seq<ServiceGameRow>, offers: seq<PlatformOffer>, nextGameId: nat, nextOfferId: nat)

  class ServiceDb {
    var games: seq<ServiceGameRow>
    var offers: seq<PlatformOffer>
    var logs: seq<PlatformLogRow>
    var nextGameId: nat
    var nextOfferId: nat

    function State(): ServiceTables
      reads this
    {
      ServiceTables(games, offers, nextGameId, nextOfferId)
    }

    constructor()
      ensures games == [] && offers == [] && logs == []
      ensures nextGameId == 1 && nextOfferId == 1
    {
      games := [];
      offers := [];
      logs := [];
      nextGameId := 1;
      nextOfferId := 1;
    }
  }

  /** The common part of a platform service: its platform, throttle TTL and per-game delay. */
  class PlatformApi {
    const platform: Platform
    const cacheTtlHours: nat
    const rateLimitDelay: nat

    /** Absent arguments take the defaults of twelve hours and one second. */
    constructor(platform: Platform, cacheTtlHours: Option<nat>, rateLimitDelay: Option<nat>)
      ensures this.platform == platform
      ensures this.cacheTtlHours == if cacheTtlHours.Some? then cacheTtlHours.value else DefaultCacheTtlHours
      ensures this.rateLimitDelay == if rateLimitDelay.Some? then rateLimitDelay.value else DefaultRateLimitDelay
    {
      this.platform := platform;
      this.cacheTtlHours := if cacheTtlHours.Some? then cacheTtlHours.value else DefaultCacheTtlHours;
      this.rateLimitDelay := if rateLimitDelay.Some? then rateLimitDelay.value else DefaultRateLimitDelay;
    }

    /**
     * logSync: appends a row completed now, started gamesSynced delays
     * earlier, with the errors joined by newlines; nothing else changes.
     */
    method LogSync(db: ServiceDb, syncType: ServiceSyncType, status: ServiceSyncStatus, gamesSynced: nat,
                   errors: seq<string>, now: int)
      modifies db
      ensures db.logs == old(db.logs) + [PlatformLogRow(platform, syncType, status, gamesSynced, Join(errors, "\n"),
                                                        now - gamesSynced * rateLimitDelay, Some(now))]
      ensures db.games == old(db.games) && db.offers == old(db.offers)
      ensures db.nextGameId == old(db.nextGameId) && db.nextOfferId == old(db.nextOfferId)
      ensures db.State() == old(db.State())
    {
      db.logs := db.logs + [PlatformLogRow(platform, syncType, status, gamesSynced, Join(errors, "\n"),
                                           now - gamesSynced * rateLimitDelay, Some(now))];
    }

    /** getPlatformAvailability over the offers table. */
    method GetPlatformAvailability(db: ServiceDb, gameName: string) returns (r: seq<Availability>)
      ensures r == AvailabilityOf(db.offers, platform, gameName)
    {
      r := AvailabilityOf(db.offers, platform, gameName);
    }
  }
}
