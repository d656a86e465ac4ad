// The platform registry: a map from platform to its service, filled in
// registration order, and the fan-out operations that ask every registered
// service (or one) and combine the settled outcomes into one answer.
//
// The services' own asynchronous calls (search, sync, details) are inputs:
// each is given as the outcome it settled with, so the combination logic is
// what is modelled here. The fan-out runs the services one after another in
// registry order, which is the order the combined answer has anyway.

module PlatformManager {
  import opened Common
  import opened PlatformApiBase
  import EpicGamesService

  /** How a promise settled: with a value, or rejected with the reason as it prints. */
  datatype Settled<T> = Fulfilled(value: T) | Rejected(reason: string)

  /** What syncPlatform is asked to sync: every registered platform, or one. */
  datatype SyncTarget = EveryPlatform | OnePlatform(platform: Platform)

  /** A service's game with the platform field the manager adds. */
  datatype TaggedGame = TaggedGame(game: PlatformGame, platform: Platform)

  /** The message of the Error thrown for a platform with no service. */
  function NotFoundReason(p: Platform): (r: string)
    ensures |r| > |"Error: "|
  {
    "Error: Platform service not found: " + PlatformName(p)
  }

  /** The fixed shape a failed or impossible sync is reported in. */
  function FailedSync(p: Platform, reason: string): (r: PlatformSyncResult)
    ensures !r.success && r.gamesSynced == 0 && r.durationMs == 0
    ensures r.errors == ["Failed to sync " + PlatformName(p) + ": " + reason]
  {
    PlatformSyncResult(false, 0, ["Failed to sync " + PlatformName(p) + ": " + reason], 0)
  }

  /**
   * The result for one target: a registered service's fulfilled sync as it
   * is, its rejection in the failure shape, and a missing service as the
   * rejection its lookup throws.
   */
  function SettleSync(p: Platform, registered: bool, syncOf: Platform -> Settled<PlatformSyncResult>): (r: PlatformSyncResult)
    ensures !registered ==> r == FailedSync(p, NotFoundReason(p))
    ensures registered && syncOf(p).Fulfilled? ==> r == syncOf(p).value
    ensures registered && syncOf(p).Rejected? ==> r == FailedSync(p, syncOf(p).reason)
  {
    var outcome := if registered then syncOf(p) else Rejected(NotFoundReason(p));
    match outcome
    case Fulfilled(v) => v
    case Rejected(reason) => FailedSync(p, reason)
  }

  /** The platforms a sync targets: all registered keys in registration order, or just the one named. */
  function Targets(order: seq<Platform>, target: SyncTarget): (r: seq<Platform>)
    ensures target.EveryPlatform? ==> r == order
    ensures target.OnePlatform? ==> r == [target.platform]
  {
    match target
    case EveryPlatform => order
    case OnePlatform(p) => [p]
  }

  /** One result per target, in target order. */
  function SyncResults(targets: seq<Platform>, registry: map<Platform, PlatformApi>,
                       syncOf: Platform -> Settled<PlatformSyncResult>): (r: seq<PlatformSyncResult>)
    ensures |r| == |targets|
    ensures forall i :: 0 <= i < |r| ==> r[i] == SettleSync(targets[i], targets[i] in registry, syncOf)
  {
    seq(|targets|, i requires 0 <= i < |targets| => SettleSync(targets[i], targets[i] in registry, syncOf))
  }

  /**
   * Every result is either what a registered service's sync fulfilled with,
   * or a failure with no games, no duration and exactly one error that
   * names the platform.
   */
  lemma SyncResultShape(targets: seq<Platform>, registry: map<Platform, PlatformApi>,
                        syncOf: Platform -> Settled<PlatformSyncResult>, i: nat)
    requires i < |targets|
    ensures var r := SyncResults(targets, registry, syncOf)[i];
      (targets[i] in registry && syncOf(targets[i]).Fulfilled? && r == syncOf(targets[i]).value)
      || (!r.success && r.gamesSynced == 0 && r.durationMs == 0 && |r.errors| == 1
          && r.errors[0][..|"Failed to sync " + PlatformName(targets[i]) + ": "|] == "Failed to sync " + PlatformName(targets[i]) + ": ")
  {
    var p := targets[i];
    var prefix := "Failed to sync " + PlatformName(p) + ": ";
    var r := SyncResults(targets, registry, syncOf)[i];
    if !(p in registry && syncOf(p).Fulfilled?) {
      var reason := if p in registry then syncOf(p).reason else NotFoundReason(p);
      assert r == FailedSync(p, reason);
      assert r.errors[0] == prefix + reason;
      assert r.errors[0][..|prefix|] == prefix;
    }
  }

  /**
   * The registry is well formed when its key order lists exactly the
   * registered platforms, each once.
   */
  ghost predicate WellFormed(registry: map<Platform, PlatformApi>, order: seq<Platform>) {
    (forall p :: p in registry <==> p in order) && NoDuplicates(order)
  }

  /**
   * Syncing every platform never reports a missing service: each result is
   * the settled sync of the registered service at that position.
   */
  lemma SyncEveryPlatformFindsServices(registry: map<Platform, PlatformApi>, order: seq<Platform>,
                                       syncOf: Platform -> Settled<PlatformSyncResult>)
    requires WellFormed(registry, order)
    ensures var r := SyncResults(Targets(order, EveryPlatform), registry, syncOf);
      |r| == |order|
      && forall i :: 0 <= i < |order| ==>
           r[i] == (match syncOf(order[i])
                    case Fulfilled(v) => v
                    case Rejected(reason) => FailedSync(order[i], reason))
  {
    var r := SyncResults(Targets(order, EveryPlatform), registry, syncOf);
    forall i | 0 <= i < |order|
      ensures r[i] == (match syncOf(order[i])
                       case Fulfilled(v) => v
                       case Rejected(reason) => FailedSync(order[i], reason))
    {
      assert order[i] in registry;
    }
  }

  // ---------------------------------------------------------------------
  // Searching and availability across the services

  /** A service's games tagged with its platform; a failed search contributes none. */
  function Tagged(platform: Platform, outcome: Result<seq<PlatformGame>>): (r: seq<TaggedGame>)
    ensures outcome.Err? ==> r == []
    ensures outcome.Ok? ==>
      (|r| == |outcome.value| && forall j :: 0 <= j < |r| ==> r[j] == TaggedGame(outcome.value[j], platform))
  {
    if outcome.Err? then []
    else seq(|outcome.value|, j requires 0 <= j < |outcome.value| => TaggedGame(outcome.value[j], platform))
  }

  /**
   * searchAllPlatforms over services listed in registry order: each
   * service's games, tagged with that service's platform, concatenated.
   */
  function SearchAll(services: seq<PlatformApi>, searchOf: Platform -> Result<seq<PlatformGame>>): (r: seq<TaggedGame>)
    decreases |services|
  {
    if |services| == 0 then []
    else
      var last := services[|services| - 1];
      SearchAll(services[..|services| - 1], searchOf) + Tagged(last.platform, searchOf(last.platform))
  }

  /** The service's search succeeded with the game, and the game carries the service's platform. */
  predicate FoundBy(service: PlatformApi, searchOf: Platform -> Result<seq<PlatformGame>>, t: TaggedGame) {
    service.platform == t.platform && searchOf(service.platform).Ok? && t.game in searchOf(service.platform).value
  }

  /**
   * A game is in the combined search exactly when some service's search
   * succeeded with it, and it carries that service's platform.
   */
  lemma {:induction false} SearchAllMembers(services: seq<PlatformApi>, searchOf: Platform -> Result<seq<PlatformGame>>, t: TaggedGame)
    ensures t in SearchAll(services, searchOf) <==> exists i :: 0 <= i < |services| && FoundBy(services[i], searchOf, t)
    decreases |services|
  {
    if |services| > 0 {
      var n := |services| - 1;
      var init := services[..n];
      var last := services[n];
      SearchAllMembers(init, searchOf, t);
      var tail := Tagged(last.platform, searchOf(last.platform));
      assert SearchAll(services, searchOf) == SearchAll(init, searchOf) + tail;
      if t in tail {
        var j :| 0 <= j < |tail| && tail[j] == t;
        assert FoundBy(services[n], searchOf, t);
      }
      if exists i :: 0 <= i < |services| && FoundBy(services[i], searchOf, t) {
        var i :| 0 <= i < |services| && FoundBy(services[i], searchOf, t);
        if i < n {
          assert FoundBy(init[i], searchOf, t);
        } else {
          var j :| 0 <= j < |searchOf(last.platform).value| && searchOf(last.platform).value[j] == t.game;
          assert tail[j] == t;
        }
      }
    }
  }

  /** The combined search is as long as all successful searches together; failed ones add nothing. */
  function SuccessfulHits(services: seq<PlatformApi>, searchOf: Platform -> Result<seq<PlatformGame>>): nat
    decreases |services|
  {
    if |services| == 0 then 0
    else
      var last := services[|services| - 1];
      var o := searchOf(last.platform);
      SuccessfulHits(services[..|services| - 1], searchOf) + (if o.Ok? then |o.value| else 0)
  }

  lemma {:induction false} SearchAllLength(services: seq<PlatformApi>, searchOf: Platform -> Result<seq<PlatformGame>>)
    ensures |SearchAll(services, searchOf)| == SuccessfulHits(services, searchOf)
    decreases |services|
  {
    if |services| > 0 {
      SearchAllLength(services[..|services| - 1], searchOf);
    }
  }

  /**
   * getPlatformAvailability across services in registry order: each
   * service's listing from the offers table; a service whose lookup fails
   * contributes nothing.
   */
  function AvailabilityAll(services: seq<PlatformApi>, offers: seq<PlatformOffer>, gameName: string,
                           fails: Platform -> bool): (r: seq<Availability>)
    decreases |services|
  {
    if |services| == 0 then []
    else
      var last := services[|services| - 1];
      AvailabilityAll(services[..|services| - 1], offers, gameName, fails)
        + (if fails(last.platform) then [] else AvailabilityOf(offers, last.platform, gameName))
  }

  /**
   * Every combined availability entry names the caller's game and lies on
   * the platform of a service whose lookup did not fail.
   */
  lemma {:induction false} AvailabilityAllEntries(services: seq<PlatformApi>, offers: seq<PlatformOffer>, gameName: string,
                                                  fails: Platform -> bool)
    ensures forall a :: a in AvailabilityAll(services, offers, gameName, fails) ==>
      a.name == gameName && exists i :: 0 <= i < |services| && services[i].platform == a.platform && !fails(a.platform)
    decreases |services|
  {
    if |services| > 0 {
      var n := |services| - 1;
      var init := services[..n];
      var last := services[n];
      AvailabilityAllEntries(init, offers, gameName, fails);
      var tail := if fails(last.platform) then [] else AvailabilityOf(offers, last.platform, gameName);
      assert AvailabilityAll(services, offers, gameName, fails) == AvailabilityAll(init, offers, gameName, fails) + tail;
      forall a | a in AvailabilityAll(services, offers, gameName, fails)
        ensures a.name == gameName && exists i :: 0 <= i < |services| && services[i].platform == a.platform && !fails(a.platform)
      {
        if a in tail {
          var j :| 0 <= j < |tail| && tail[j] == a;
          assert services[n].platform == a.platform;
        } else {
          var i :| 0 <= i < |init| && init[i].platform == a.platform && !fails(a.platform);
          assert services[i].platform == a.platform;
        }
      }
    }
  }

  /**
   * Every entry of a service whose lookup did not fail is in the combined
   * availability.
   */
  lemma {:induction false} AvailabilityAllComplete(services: seq<PlatformApi>, offers: seq<PlatformOffer>, gameName: string,
                                                   fails: Platform -> bool, i: nat, a: Availability)
    requires i < |services| && !fails(services[i].platform)
    requires a in AvailabilityOf(offers, services[i].platform, gameName)
    ensures a in AvailabilityAll(services, offers, gameName, fails)
    decreases |services|
  {
    var n := |services| - 1;
    var init := services[..n];
    var tail := if fails(services[n].platform) then [] else AvailabilityOf(offers, services[n].platform, gameName);
    assert AvailabilityAll(services, offers, gameName, fails) == AvailabilityAll(init, offers, gameName, fails) + tail;
    if i < n {
      assert init[i] == services[i];
      AvailabilityAllComplete(init, offers, gameName, fails, i, a);
      InPrefix(AvailabilityAll(init, offers, gameName, fails), tail, a);
    } else {
      assert i == n && tail == AvailabilityOf(offers, services[i].platform, gameName);
      InSuffix(AvailabilityAll(init, offers, gameName, fails), tail, a);
    }
  }

  /** Membership carries over to a sequence extended at the end. */
  lemma InPrefix<T>(xs: seq<T>, ys: seq<T>, x: T)
    requires x in xs
    ensures x in xs + ys
  {
  }

  /** Membership carries over to a sequence extended at the front. */
  lemma InSuffix<T>(xs: seq<T>, ys: seq<T>, x: T)
    requires x in ys
    ensures x in xs + ys
  {
  }

  // ---------------------------------------------------------------------
  // Details

  /**
   * getGameDetails: a missing service and a missing game are errors with
   * the messages thrown; a rejected lookup passes its reason on; a found
   * game comes back with the platform added.
   */
  function DetailsFrom(p: Platform, registered: bool, platformId: string,
                       detailsOf: Platform -> Result<Option<PlatformGame>>): (r: Result<TaggedGame>)
    ensures !registered ==> r == Err("Platform service not found: " + PlatformName(p))
    ensures registered && detailsOf(p).Ok? && detailsOf(p).value.None? ==>
      r == Err("Game not found: " + platformId + " on " + PlatformName(p))
    ensures r.Ok? <==> registered && detailsOf(p).Ok? && detailsOf(p).value.Some?
    ensures r.Ok? ==> r.value == TaggedGame(detailsOf(p).value.value, p)
  {
    if !registered then Err("Platform service not found: " + PlatformName(p))
    else
      match detailsOf(p)
      case Err(reason) => Err(reason)
      case Ok(found) =>
        if found.None? then Err("Game not found: " + platformId + " on " + PlatformName(p))
        else Ok(TaggedGame(found.value, p))
  }

  // ---------------------------------------------------------------------
  // The registry

  class PlatformManager {
    var platforms: map<Platform, PlatformApi>
    /** The keys of `platforms` in the order they were first set. */
    var order: seq<Platform>

    ghost predicate Valid()
      reads this
    {
      WellFormed(platforms, order)
    }

    /** Registers epic, then gog; steam has no service. */
    constructor()
      ensures Valid()
      ensures order == [Epic, Gog]
      ensures platforms.Keys == {Epic, Gog}
      ensures platforms[Epic].platform == Epic && platforms[Gog].platform == Gog
      ensures GetPlatformService(Steam) == None
    {
      platforms := map[];
      order := [];
      new;
      var epic := new EpicGamesService.EpicGamesService();
      var gog := new PlatformApi(Gog, None, None);
      RegisterPlatform(Epic, epic.api);
      RegisterPlatform(Gog, gog);
    }

    /**
     * registerPlatform: Map.set, so a platform registered again keeps its
     * position and takes the new service.
     */
    method RegisterPlatform(platform: Platform, service: PlatformApi)
      modifies this
      requires Valid()
      ensures Valid()
      ensures platforms == old(platforms)[platform := service]
      ensures order == if platform in old(platforms) then old(order) else old(order) + [platform]
    {
      if platform !in platforms {
        order := order + [platform];
      }
      platforms := platforms[platform := service];
    }

    /** getPlatformService: the registered service, or none. */
    function GetPlatformService(platform: Platform): (r: Option<PlatformApi>)
      reads this
      ensures r.Some? <==> platform in platforms
      ensures r.Some? ==> r.value == platforms[platform]
    {
      if platform in platforms then Some(platforms[platform]) else None
    }

    /** getAllPlatformServices: the services in registration order. */
    function GetAllPlatformServices(): (r: seq<PlatformApi>)
      reads this
      requires Valid()
      ensures |r| == |order|
      ensures forall i :: 0 <= i < |r| ==> r[i] == platforms[order[i]]
    {
      assert forall i :: 0 <= i < |order| ==> order[i] in platforms;
      seq(|order|, i requires 0 <= i < |order| && order[i] in platforms reads this => platforms[order[i]])
    }

    /** syncPlatform: one result per target, in order. */
    method SyncPlatform(target: SyncTarget, syncOf: Platform -> Settled<PlatformSyncResult>)
      returns (results: seq<PlatformSyncResult>)
      requires Valid()
      ensures results == SyncResults(Targets(order, target), platforms, syncOf)
    {
      results := SyncResults(Targets(order, target), platforms, syncOf);
    }

    /** searchAllPlatforms: every service's games tagged and concatenated in registry order. */
    method SearchAllPlatforms(searchOf: Platform -> Result<seq<PlatformGame>>) returns (games: seq<TaggedGame>)
      requires Valid()
      ensures games == SearchAll(GetAllPlatformServices(), searchOf)
    {
      games := SearchAll(GetAllPlatformServices(), searchOf);
    }

    /** getGameDetails for one platform. */
    method GetGameDetails(platform: Platform, platformId: string, detailsOf: Platform -> Result<Option<PlatformGame>>)
      returns (r: Result<TaggedGame>)
      ensures r == DetailsFrom(platform, platform in platforms, platformId, detailsOf)
    {
      r := DetailsFrom(platform, platform in platforms, platformId, detailsOf);
    }

    /** getPlatformAvailability: every service's listing from the shared offers table, in registry order. */
    method GetPlatformAvailability(db: ServiceDb, gameName: string, fails: Platform -> bool) returns (r: seq<Availability>)
      requires Valid()
      ensures r == AvailabilityAll(GetAllPlatformServices(), db.offers, gameName, fails)
      ensures forall a :: a in r ==>
        a.name == gameName
        && exists i :: 0 <= i < |GetAllPlatformServices()| && GetAllPlatformServices()[i].platform == a.platform && !fails(a.platform)
      ensures forall i, a ::
        (0 <= i < |GetAllPlatformServices()| && !fails(GetAllPlatformServices()[i].platform)
         && a in AvailabilityOf(db.offers, GetAllPlatformServices()[i].platform, gameName)) ==> a in r
    {
      var services := GetAllPlatformServices();
      r := AvailabilityAll(services, db.offers, gameName, fails);
      AvailabilityAllEntries(services, db.offers, gameName, fails);
      forall i, a | 0 <= i < |services| && !fails(services[i].platform) && a in AvailabilityOf(db.offers, services[i].platform, gameName)
        ensures a in r
      {
        AvailabilityAllComplete(services, db.offers, gameName, fails, i, a);
      }
    }
  }

  /**
   * Syncing a platform with no service (steam, after construction) gives a
   * single failure that reports the missing service.
   */
  lemma UnregisteredSyncFails(order: seq<Platform>, registry: map<Platform, PlatformApi>, p: Platform,
                              syncOf: Platform -> Settled<PlatformSyncResult>)
    requires p !in registry
    ensures SyncResults(Targets(order, OnePlatform(p)), registry, syncOf) == [FailedSync(p, NotFoundReason(p))]
  {
    var r := SyncResults(Targets(order, OnePlatform(p)), registry, syncOf);
    assert r[0] == FailedSync(p, NotFoundReason(p));
  }
}
