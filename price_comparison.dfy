// The price comparison of one game across the three storefronts and the
// where-to-buy advice read back from it.  The comparison lists each
// storefront's offer, picks the cheapest known price with the savings
// against the other storefronts, and the available offer with the largest
// discount; it is kept in a cache table for six hours.  The advice ranks
// the cheapest offer, the best deal and a DRM-free copy.
//
// As written, the savings and best-deal loops read `price` and
// `discountPercent` from the entry of every storefront, including the ones
// the game has no offer on, whose entry is null: the comparison then throws
// a TypeError.  The entries also never carry an original price, so the
// best deal's saving cannot be computed.  `BuildComparisonAsWritten`
// models that code and the cache's `GetPriceComparison` runs it;
// `BuildComparison`, which skips missing entries and keeps the original
// price, is what `GetPriceComparisonCorrected` runs.

module PriceComparison {
  import opened Common
  import opened PlatformApiBase
  import EpicGamesService

  /** How long a stored comparison is served: six hours. */
  const CacheTtlMillis: int := 6 * 60 * 60 * 1000
  /**
   * A label for the TypeError a comparison loop throws on a null entry.  The
   * runtime's message continues with the field read, "(reading 'price')" in
   * the savings loop or "(reading 'discountPercent')" in the best-deal loop;
   * the label leaves that suffix out.
   */
  const NullEntryError: string := "TypeError: Cannot read properties of null"
  const GameNotFound: string := "Game not found"
  const NoComparison: string := "Comparison data not found. Please run price comparison first."

  /** One storefront's entry of the comparison; only GOG entries carry drmFree. */
  datatype ComparisonEntry = ComparisonEntry(
    price: Option<Money>,
    originalPrice: Option<Money>,
    discountPercent: Option<int>,
    url: Option<string>,
    available: Option<Flag>,
    currency: Option<string>,
    drmFree: Option<Flag>)

  datatype CheapestOption = CheapestOption(platform: Platform, price: Money, savings: map<Platform, Money>)

  datatype BestDeal = BestDeal(platform: Platform, discountPercent: int, price: Option<Money>, originalPrice: Option<Money>)

  datatype Comparison = Comparison(
    gameId: nat,
    steam: Option<ComparisonEntry>,
    epic: Option<ComparisonEntry>,
    gog: Option<ComparisonEntry>,
    cheapestOption: Option<CheapestOption>,
    bestDeal: Option<BestDeal>)

  /** The comparison's entry for storefront `p`. */
  function EntryOn(c: Comparison, p: Platform): Option<ComparisonEntry> {
    match p
    case Steam => c.steam
    case Epic => c.epic
    case Gog => c.gog
  }

  /** The order in which the loops over the comparison's keys meet the storefronts. */
  function Rank(p: Platform): nat {
    match p
    case Steam => 0
    case Epic => 1
    case Gog => 2
  }

  /** The entry built from an offer row. */
  function EntryOf(o: PlatformOffer): (e: ComparisonEntry)
    ensures e.price == o.platformPrice && e.originalPrice == o.originalPrice
    ensures e.discountPercent == o.discountPercent && e.available == o.available
    ensures e.drmFree == if o.platform == Gog then o.drmFree else None
  {
    ComparisonEntry(o.platformPrice, o.originalPrice, o.discountPercent, o.platformUrl, o.available, o.currency,
      if o.platform == Gog then o.drmFree else None)
  }

  // ---------------------------------------------------------------------
  // Reference definitions

  /** The last of the rows on storefront `p`: each row overwrites the entry of its storefront. */
  function LastOn(rows: seq<PlatformOffer>, p: Platform): (r: Option<PlatformOffer>)
    ensures r.None? <==> forall i :: 0 <= i < |rows| ==> rows[i].platform != p
    ensures r.Some? ==> exists i :: 0 <= i < |rows| && rows[i] == r.value && r.value.platform == p
                         && forall j :: i < j < |rows| ==> rows[j].platform != p
  {
    if |rows| == 0 then None
    else if rows[|rows| - 1].platform == p then Some(rows[|rows| - 1])
    else
      var init := rows[..|rows| - 1];
      assert forall i :: 0 <= i < |init| ==> init[i] == rows[i];
      var r := LastOn(init, p);
      assert r.Some? ==> exists i :: 0 <= i < |rows| && rows[i] == r.value && r.value.platform == p
                                    && forall j :: i < j < |rows| ==> rows[j].platform != p by {
        if r.Some? {
          var i :| 0 <= i < |init| && init[i] == r.value && r.value.platform == p
                   && forall j :: i < j < |init| ==> init[j].platform != p;
          assert rows[i] == r.value;
        }
      }
      r
  }

  /**
   * The position of the row the cheapest-price loop settles on: the first
   * row holding the strictly smallest known price.
   */
  function CheapestIndex(rows: seq<PlatformOffer>): (r: Option<nat>)
    ensures r.None? <==> forall i :: 0 <= i < |rows| ==> rows[i].platformPrice.None?
    ensures r.Some? ==> r.value < |rows| && rows[r.value].platformPrice.Some?
    ensures r.Some? ==> forall j :: 0 <= j < |rows| && rows[j].platformPrice.Some? ==>
      rows[r.value].platformPrice.value.hundredths <= rows[j].platformPrice.value.hundredths
    ensures r.Some? ==> forall j :: 0 <= j < r.value && rows[j].platformPrice.Some? ==>
      rows[r.value].platformPrice.value.hundredths < rows[j].platformPrice.value.hundredths
  {
    if |rows| == 0 then None
    else
      var n := |rows| - 1;
      var init := rows[..n];
      assert forall i :: 0 <= i < n ==> init[i] == rows[i];
      var c := CheapestIndex(init);
      var p := rows[n].platformPrice;
      if p.Some? && (c.None? || p.value.hundredths < rows[c.value].platformPrice.value.hundredths) then Some(n)
      else c
  }

  /** Storefront `p` has an available entry with a positive discount. */
  predicate Eligible(c: Comparison, p: Platform) {
    EntryOn(c, p).Some? && EntryOn(c, p).value.available == Some(FlagTrue) && IntOrZero(EntryOn(c, p).value.discountPercent) > 0
  }

  /**
   * The savings against the cheapest price `low` on `cheapest`: exactly
   * the other storefronts whose known price is strictly higher, each
   * valued at the difference.
   */
  ghost predicate SavingsExact(savings: map<Platform, Money>, c: Comparison, cheapest: Platform, low: Money) {
    forall q: Platform ::
      && (q in savings <==>
           q != cheapest && EntryOn(c, q).Some? && EntryOn(c, q).value.price.Some?
           && EntryOn(c, q).value.price.value.hundredths > low.hundredths)
      && (q in savings ==> savings[q].hundredths == EntryOn(c, q).value.price.value.hundredths - low.hundredths)
  }

  /**
   * The best deal: none when no entry is eligible; otherwise an eligible
   * storefront with the largest discount, the first in key order among
   * equals, carrying that entry's prices.
   */
  ghost predicate DealExact(deal: Option<BestDeal>, c: Comparison) {
    && (deal.None? <==> forall p: Platform :: !Eligible(c, p))
    && (deal.Some? ==>
         && Eligible(c, deal.value.platform)
         && deal.value.discountPercent == IntOrZero(EntryOn(c, deal.value.platform).value.discountPercent)
         && deal.value.price == EntryOn(c, deal.value.platform).value.price
         && deal.value.originalPrice == EntryOn(c, deal.value.platform).value.originalPrice
         && (forall p: Platform :: Eligible(c, p) ==> IntOrZero(EntryOn(c, p).value.discountPercent) <= deal.value.discountPercent)
         && (forall p: Platform :: Eligible(c, p) && Rank(p) < Rank(deal.value.platform) ==>
               IntOrZero(EntryOn(c, p).value.discountPercent) < deal.value.discountPercent))
  }

  /** `c` is the comparison of game `gameId` over its offer rows. */
  ghost predicate Describes(c: Comparison, gameId: nat, rows: seq<PlatformOffer>) {
    && c.gameId == gameId
    && (forall p: Platform :: EntryOn(c, p) == (if LastOn(rows, p).Some? then Some(EntryOf(LastOn(rows, p).value)) else None))
    && Summarises(c, rows)
  }

  /**
   * The comparison as written, over offer rows that reach every storefront:
   * each entry is built from the storefront's last row without its original
   * price, and the cheapest option and best deal are as in `Describes`.
   */
  ghost predicate DescribesAsWritten(c: Comparison, gameId: nat, rows: seq<PlatformOffer>) {
    && c.gameId == gameId
    && (forall p: Platform :: LastOn(rows, p).Some? && EntryOn(c, p) == Some(EntryOf(LastOn(rows, p).value).(originalPrice := None)))
    && Summarises(c, rows)
  }

  /** The cheapest option and the best deal of `c`, read from its entries and the offer rows. */
  ghost predicate Summarises(c: Comparison, rows: seq<PlatformOffer>) {
    && (c.cheapestOption.None? <==> CheapestIndex(rows).None?)
    && (CheapestIndex(rows).Some? ==>
         && c.cheapestOption.Some?
         && c.cheapestOption.value.platform == rows[CheapestIndex(rows).value].platform
         && c.cheapestOption.value.price == rows[CheapestIndex(rows).value].platformPrice.value
         && SavingsExact(c.cheapestOption.value.savings, c, c.cheapestOption.value.platform, c.cheapestOption.value.price))
    && DealExact(c.bestDeal, c)
  }

  // ---------------------------------------------------------------------
  // Building the comparison

  /** The entries gathered so far: one per storefront met, built from its last row. */
  ghost predicate EntriesFrom(entries: map<Platform, ComparisonEntry>, rows: seq<PlatformOffer>) {
    forall p: Platform ::
      && (p in entries <==> LastOn(rows, p).Some?)
      && (p in entries ==> entries[p] == EntryOf(LastOn(rows, p).value))
  }

  /** The state of the cheapest-price loop after `rows`. */
  ghost predicate CheapestFrom(lowest: Option<Money>, cheapest: Option<Platform>, rows: seq<PlatformOffer>) {
    && (cheapest.None? <==> CheapestIndex(rows).None?)
    && (lowest.None? <==> CheapestIndex(rows).None?)
    && (CheapestIndex(rows).Some? ==>
         cheapest == Some(rows[CheapestIndex(rows).value].platform)
         && lowest == rows[CheapestIndex(rows).value].platformPrice)
  }

  /** The loops over the comparison's keys visit every storefront. */
  lemma EveryPlatformVisited()
    ensures forall q: Platform :: q in AllPlatforms
  {
    forall q: Platform
      ensures q in AllPlatforms
    {
      assert AllPlatforms[Rank(q)] == q;
    }
  }

  /** One more row on storefront `p` replaces its last row. */
  lemma LastOnStep(rows: seq<PlatformOffer>, i: nat, p: Platform)
    requires i < |rows|
    ensures LastOn(rows[..i + 1], p) == if rows[i].platform == p then Some(rows[i]) else LastOn(rows[..i], p)
  {
    var r := rows[..i + 1];
    assert r[..|r| - 1] == rows[..i];
    assert r[|r| - 1] == rows[i];
  }

  /** One more row: only its storefront's entry and possibly the cheapest change. */
  lemma CollectStep(rows: seq<PlatformOffer>, i: nat)
    requires i < |rows|
    ensures LastOn(rows[..i + 1], rows[i].platform) == Some(rows[i])
    ensures forall p: Platform :: p != rows[i].platform ==> LastOn(rows[..i + 1], p) == LastOn(rows[..i], p)
    ensures CheapestIndex(rows[..i + 1]) ==
      var c := CheapestIndex(rows[..i]);
      if rows[i].platformPrice.Some? && (c.None? || rows[i].platformPrice.value.hundredths < rows[c.value].platformPrice.value.hundredths)
      then Some(i) else c
  {
    assert rows[..i + 1][..i] == rows[..i];
    assert forall j :: 0 <= j < i ==> rows[..i][j] == rows[j];
    forall p: Platform
      ensures LastOn(rows[..i + 1], p) == if rows[i].platform == p then Some(rows[i]) else LastOn(rows[..i], p)
    {
      LastOnStep(rows, i, p);
    }
  }

  /** The first loop: record each row's entry and track the cheapest known price. */
  method CollectEntries(rows: seq<PlatformOffer>)
    returns (entries: map<Platform, ComparisonEntry>, lowest: Option<Money>, cheapest: Option<Platform>)
    ensures EntriesFrom(entries, rows)
    ensures CheapestFrom(lowest, cheapest, rows)
  {
    entries, lowest, cheapest := map[], None, None;
    var i := 0;
    while i < |rows|
      invariant i <= |rows|
      invariant EntriesFrom(entries, rows[..i])
      invariant CheapestFrom(lowest, cheapest, rows[..i])
    {
      var row := rows[i];
      CollectStep(rows, i);
      entries := entries[row.platform := EntryOf(row)];
      if row.platformPrice.Some? && (lowest.None? || row.platformPrice.value.hundredths < lowest.value.hundredths) {
        lowest := row.platformPrice;
        cheapest := Some(row.platform);
      }
      i := i + 1;
    }
    assert rows[..i] == rows;
  }

  /** The savings, over the entries held in a map (a missing key is a null entry). */
  ghost predicate SavingsFrom(savings: map<Platform, Money>, entries: map<Platform, ComparisonEntry>, cheapest: Platform,
                              low: Money, done: seq<Platform>) {
    forall q: Platform ::
      && (q in savings <==>
           q in done && q != cheapest && q in entries && entries[q].price.Some?
           && entries[q].price.value.hundredths > low.hundredths)
      && (q in savings ==> savings[q].hundredths == entries[q].price.value.hundredths - low.hundredths)
  }

  /** The savings loop, skipping storefronts without an entry. */
  method SavingsOf(entries: map<Platform, ComparisonEntry>, cheapest: Platform, low: Money)
    returns (savings: map<Platform, Money>)
    ensures SavingsFrom(savings, entries, cheapest, low, AllPlatforms)
  {
    savings := map[];
    var k := 0;
    while k < |AllPlatforms|
      invariant k <= |AllPlatforms|
      invariant SavingsFrom(savings, entries, cheapest, low, AllPlatforms[..k])
    {
      var q := AllPlatforms[k];
      assert AllPlatforms[..k + 1] == AllPlatforms[..k] + [q];
      if q != cheapest && q in entries {
        var data := entries[q];
        if data.price.Some? && data.price.value.hundredths > low.hundredths {
          savings := savings[q := Hundredths(data.price.value.hundredths - low.hundredths)];
        }
      }
      k := k + 1;
    }
    assert AllPlatforms[..k] == AllPlatforms;
  }

  /** Storefront `p` has an available entry in the map with a positive discount. */
  predicate EligibleIn(entries: map<Platform, ComparisonEntry>, p: Platform) {
    p in entries && entries[p].available == Some(FlagTrue) && IntOrZero(entries[p].discountPercent) > 0
  }

  /** The state of the best-deal loop after visiting `done`. */
  ghost predicate DealFrom(best: int, bestPlatform: Option<Platform>, entries: map<Platform, ComparisonEntry>, done: seq<Platform>) {
    && (bestPlatform.None? ==> best == 0 && forall q: Platform :: q in done ==> !EligibleIn(entries, q))
    && (bestPlatform.Some? ==>
         && bestPlatform.value in done && EligibleIn(entries, bestPlatform.value)
         && best == IntOrZero(entries[bestPlatform.value].discountPercent)
         && (forall q: Platform :: q in done && EligibleIn(entries, q) ==> IntOrZero(entries[q].discountPercent) <= best)
         && (forall q: Platform :: q in done && EligibleIn(entries, q) && Rank(q) < Rank(bestPlatform.value) ==>
               IntOrZero(entries[q].discountPercent) < best))
  }

  /** The best-deal loop: a strictly larger discount on an available entry wins, starting from 0. */
  method DealOf(entries: map<Platform, ComparisonEntry>) returns (deal: Option<BestDeal>)
    ensures deal.None? ==> forall q: Platform :: !EligibleIn(entries, q)
    ensures deal.Some? ==> DealFrom(deal.value.discountPercent, Some(deal.value.platform), entries, AllPlatforms)
    ensures deal.Some? ==> deal.value.price == entries[deal.value.platform].price
                           && deal.value.originalPrice == entries[deal.value.platform].originalPrice
  {
    var best := 0;
    var bestPlatform: Option<Platform> := None;
    var k := 0;
    while k < |AllPlatforms|
      invariant k <= |AllPlatforms|
      invariant forall q: Platform :: q in AllPlatforms[..k] <==> Rank(q) < k
      invariant DealFrom(best, bestPlatform, entries, AllPlatforms[..k])
    {
      var q := AllPlatforms[k];
      assert AllPlatforms[..k + 1] == AllPlatforms[..k] + [q];
      assert Rank(q) == k;
      if q in entries {
        var data := entries[q];
        if IntOrZero(data.discountPercent) > best && data.available == Some(FlagTrue) {
          best := IntOrZero(data.discountPercent);
          bestPlatform := Some(q);
        }
      }
      k := k + 1;
    }
    assert AllPlatforms[..k] == AllPlatforms;
    if bestPlatform.Some? {
      var data := entries[bestPlatform.value];
      deal := Some(BestDeal(bestPlatform.value, best, data.price, data.originalPrice));
    } else {
      deal := None;
    }
  }

  /** The comparison whose entries are the map's values. */
  function WithEntries(gameId: nat, entries: map<Platform, ComparisonEntry>): (c: Comparison)
    ensures forall p: Platform :: EntryOn(c, p) == if p in entries then Some(entries[p]) else None
    ensures c.gameId == gameId && c.cheapestOption.None? && c.bestDeal.None?
  {
    Comparison(gameId,
      if Steam in entries then Some(entries[Steam]) else None,
      if Epic in entries then Some(entries[Epic]) else None,
      if Gog in entries then Some(entries[Gog]) else None,
      None, None)
  }

  /** The entries held in the map are the entries of the comparison. */
  ghost predicate HoldsEntries(c: Comparison, entries: map<Platform, ComparisonEntry>) {
    forall p: Platform :: EntryOn(c, p) == if p in entries then Some(entries[p]) else None
  }

  lemma EntriesDescribe(c: Comparison, entries: map<Platform, ComparisonEntry>, rows: seq<PlatformOffer>)
    requires HoldsEntries(c, entries) && EntriesFrom(entries, rows)
    ensures forall p: Platform :: EntryOn(c, p) == (if LastOn(rows, p).Some? then Some(EntryOf(LastOn(rows, p).value)) else None)
  {
  }

  lemma SavingsDescribe(c: Comparison, entries: map<Platform, ComparisonEntry>, cheapest: Platform, low: Money,
                        savings: map<Platform, Money>)
    requires HoldsEntries(c, entries) && SavingsFrom(savings, entries, cheapest, low, AllPlatforms)
    ensures SavingsExact(savings, c, cheapest, low)
  {
    EveryPlatformVisited();
  }

  lemma DealDescribe(c: Comparison, entries: map<Platform, ComparisonEntry>, deal: Option<BestDeal>)
    requires HoldsEntries(c, entries)
    requires deal.None? ==> forall q: Platform :: !EligibleIn(entries, q)
    requires deal.Some? ==> DealFrom(deal.value.discountPercent, Some(deal.value.platform), entries, AllPlatforms)
    requires deal.Some? ==> deal.value.price == entries[deal.value.platform].price
                            && deal.value.originalPrice == entries[deal.value.platform].originalPrice
    ensures DealExact(deal, c)
  {
    EveryPlatformVisited();
    assert forall p: Platform :: Eligible(c, p) <==> EligibleIn(entries, p);
  }

  /** The comparison of game `gameId` over its offer rows, null entries skipped. */
  method BuildComparison(gameId: nat, rows: seq<PlatformOffer>) returns (c: Comparison)
    ensures Describes(c, gameId, rows)
  {
    var entries, lowest, cheapest := CollectEntries(rows);
    c := WithEntries(gameId, entries);
    if cheapest.Some? {
      var savings := SavingsOf(entries, cheapest.value, lowest.value);
      c := c.(cheapestOption := Some(CheapestOption(cheapest.value, lowest.value, savings)));
      SavingsDescribe(c, entries, cheapest.value, lowest.value, savings);
    }
    var deal := DealOf(entries);
    c := c.(bestDeal := deal);
    EntriesDescribe(c, entries, rows);
    DealDescribe(c, entries, deal);
  }

  /** The entries as written: built without the original price. */
  function WithoutOriginal(entries: map<Platform, ComparisonEntry>): (r: map<Platform, ComparisonEntry>)
    ensures forall p :: p in r <==> p in entries
    ensures forall p :: p in r ==> r[p] == entries[p].(originalPrice := None)
  {
    map p | p in entries :: entries[p].(originalPrice := None)
  }

  /**
   * A loop over the comparison's keys that reads a field of each
   * storefront's entry except `skip`'s: it throws at the first null entry.
   */
  method ReadsNullEntry(entries: map<Platform, ComparisonEntry>, skip: Option<Platform>) returns (throws: bool)
    ensures throws <==> exists q: Platform :: Some(q) != skip && q !in entries
  {
    var k := 0;
    while k < |AllPlatforms|
      invariant k <= |AllPlatforms|
      invariant forall q :: q in AllPlatforms[..k] && Some(q) != skip ==> q in entries
    {
      var q := AllPlatforms[k];
      assert AllPlatforms[..k + 1] == AllPlatforms[..k] + [q];
      if Some(q) != skip && q !in entries {
        return true;
      }
      k := k + 1;
    }
    assert AllPlatforms[..k] == AllPlatforms;
    EveryPlatformVisited();
    return false;
  }

  /** Entries gathered from rows on every storefront, less their original price, are the entries as written. */
  lemma EntriesAsWritten(c: Comparison, collected: map<Platform, ComparisonEntry>, rows: seq<PlatformOffer>)
    requires HoldsEntries(c, WithoutOriginal(collected)) && EntriesFrom(collected, rows)
    requires forall p: Platform :: p in collected
    ensures forall p: Platform :: LastOn(rows, p).Some? && EntryOn(c, p) == Some(EntryOf(LastOn(rows, p).value).(originalPrice := None))
  {
  }

  /**
   * The savings and best-deal loops as written over the gathered entries:
   * each reads a field of every storefront's entry (the savings loop skips
   * the cheapest one) and throws on a null entry.
   */
  method CompareAsWritten(gameId: nat, collected: map<Platform, ComparisonEntry>, lowest: Option<Money>, cheapest: Option<Platform>,
                          ghost rows: seq<PlatformOffer>)
    returns (r: Result<Comparison>)
    requires EntriesFrom(collected, rows) && CheapestFrom(lowest, cheapest, rows)
    requires cheapest.Some? <==> lowest.Some?
    ensures r.Err? <==> exists p: Platform :: p !in collected
    ensures r.Ok? ==> DescribesAsWritten(r.value, gameId, rows)
    ensures r.Err? ==> r.error == NullEntryError
    ensures r.Ok? ==> forall p: Platform :: EntryOn(r.value, p).Some? && EntryOn(r.value, p).value.originalPrice.None?
    ensures r.Ok? && r.value.bestDeal.Some? ==> r.value.bestDeal.value.originalPrice.None?
  {
    var entries := WithoutOriginal(collected);
    if cheapest.Some? {
      var throws := ReadsNullEntry(entries, cheapest);
      if throws {
        return Err(NullEntryError);
      }
    }
    var throws := ReadsNullEntry(entries, None);
    if throws {
      return Err(NullEntryError);
    }
    var c := SummariseAsWritten(gameId, collected, lowest, cheapest, rows);
    AsWrittenWithoutOriginal(c, gameId, rows);
    r := Ok(c);
  }

  /** A comparison as written carries no original price, on its entries or its best deal. */
  lemma AsWrittenWithoutOriginal(c: Comparison, gameId: nat, rows: seq<PlatformOffer>)
    requires DescribesAsWritten(c, gameId, rows)
    ensures forall p: Platform :: EntryOn(c, p).Some? && EntryOn(c, p).value.originalPrice.None?
    ensures c.bestDeal.Some? ==> c.bestDeal.value.originalPrice.None?
  {
  }

  /** The comparison as written once neither loop has met a null entry: every storefront has one. */
  method SummariseAsWritten(gameId: nat, collected: map<Platform, ComparisonEntry>, lowest: Option<Money>, cheapest: Option<Platform>,
                            ghost rows: seq<PlatformOffer>)
    returns (c: Comparison)
    requires EntriesFrom(collected, rows) && CheapestFrom(lowest, cheapest, rows)
    requires cheapest.Some? <==> lowest.Some?
    requires forall p: Platform :: p in collected
    ensures DescribesAsWritten(c, gameId, rows)
  {
    var entries := WithoutOriginal(collected);
    var savings: map<Platform, Money> := map[];
    if cheapest.Some? {
      savings := SavingsOf(entries, cheapest.value, lowest.value);
    }
    var deal := DealOf(entries);
    var option := if cheapest.Some? then Some(CheapestOption(cheapest.value, lowest.value, savings)) else None;
    c := WithEntries(gameId, entries).(cheapestOption := option, bestDeal := deal);
    WithEntriesHolds(gameId, entries, option, deal);
    AsWrittenDescribes(c, gameId, collected, rows, lowest, cheapest, savings);
  }

  /** Setting the cheapest option and the best deal keeps the entries. */
  lemma WithEntriesHolds(gameId: nat, entries: map<Platform, ComparisonEntry>, option: Option<CheapestOption>, deal: Option<BestDeal>)
    ensures HoldsEntries(WithEntries(gameId, entries).(cheapestOption := option, bestDeal := deal), entries)
  {
  }

  /** The comparison assembled from the savings and best-deal loops' results describes the rows as written. */
  lemma AsWrittenDescribes(c: Comparison, gameId: nat, collected: map<Platform, ComparisonEntry>, rows: seq<PlatformOffer>,
                           lowest: Option<Money>, cheapest: Option<Platform>, savings: map<Platform, Money>)
    requires EntriesFrom(collected, rows) && CheapestFrom(lowest, cheapest, rows)
    requires cheapest.Some? <==> lowest.Some?
    requires forall p: Platform :: p in collected
    requires cheapest.Some? ==> SavingsFrom(savings, WithoutOriginal(collected), cheapest.value, lowest.value, AllPlatforms)
    requires c.bestDeal.None? ==> forall q: Platform :: !EligibleIn(WithoutOriginal(collected), q)
    requires c.bestDeal.Some? ==> DealFrom(c.bestDeal.value.discountPercent, Some(c.bestDeal.value.platform), WithoutOriginal(collected), AllPlatforms)
    requires c.bestDeal.Some? ==> c.bestDeal.value.platform in collected
                                  && c.bestDeal.value.price == collected[c.bestDeal.value.platform].price
                                  && c.bestDeal.value.originalPrice.None?
    requires c.gameId == gameId && HoldsEntries(c, WithoutOriginal(collected))
    requires c.cheapestOption == if cheapest.Some? then Some(CheapestOption(cheapest.value, lowest.value, savings)) else None
    ensures DescribesAsWritten(c, gameId, rows)
  {
    var entries := WithoutOriginal(collected);
    if cheapest.Some? {
      SavingsDescribe(c, entries, cheapest.value, lowest.value, savings);
    }
    DealDescribe(c, entries, c.bestDeal);
    SummarisesOf(c, rows, lowest, cheapest);
    EntriesAsWritten(c, collected, rows);
  }

  /** The cheapest-price loop's state, the savings and the best deal together summarise the rows. */
  lemma SummarisesOf(c: Comparison, rows: seq<PlatformOffer>, lowest: Option<Money>, cheapest: Option<Platform>)
    requires CheapestFrom(lowest, cheapest, rows)
    requires cheapest.None? ==> c.cheapestOption.None?
    requires cheapest.Some? ==> && lowest.Some? && c.cheapestOption.Some?
                                && c.cheapestOption.value.platform == cheapest.value
                                && c.cheapestOption.value.price == lowest.value
                                && SavingsExact(c.cheapestOption.value.savings, c, cheapest.value, lowest.value)
    requires DealExact(c.bestDeal, c)
    ensures Summarises(c, rows)
  {
  }

  /**
   * The comparison as written: entries carry no original price, and the
   * savings and best-deal loops dereference the entry of every storefront,
   * throwing on the null entry of a storefront the game has no offer on.
   */
  method BuildComparisonAsWritten(gameId: nat, rows: seq<PlatformOffer>) returns (r: Result<Comparison>)
    ensures r.Err? <==> exists p: Platform :: LastOn(rows, p).None?
    ensures r.Err? ==> r.error == NullEntryError
    ensures r.Ok? ==> forall p: Platform :: EntryOn(r.value, p).Some? && EntryOn(r.value, p).value.originalPrice.None?
    ensures r.Ok? && r.value.bestDeal.Some? ==> r.value.bestDeal.value.originalPrice.None?
    ensures r.Ok? ==> DescribesAsWritten(r.value, gameId, rows)
  {
    var collected, lowest, cheapest := CollectEntries(rows);
    r := CompareAsWritten(gameId, collected, lowest, cheapest, rows);
    if r.Err? {
      var q: Platform :| q !in collected;
      assert LastOn(rows, q).None?;
    }
  }

  /** A game offered on Epic alone: its Steam and GOG entries are null, so the comparison as written throws. */
  lemma EpicOnlyGameThrows(offer: PlatformOffer)
    requires offer.platform == Epic
    ensures LastOn([offer], Steam).None? && LastOn([offer], Gog).None?
    ensures exists p: Platform :: LastOn([offer], p).None?
  {
  }

  // ---------------------------------------------------------------------
  // The cache table

  /** A row of the comparison cache table. */
  datatype CacheRow = CacheRow(id: nat, gameId: nat, data: Comparison, lastUpdated: int)

  /** The position of the first cache row of game `gameId` (the lookup's `limit(1)`). */
  function IndexOfGame(rows: seq<CacheRow>, gameId: nat): (r: Option<nat>)
    ensures r.None? <==> forall i :: 0 <= i < |rows| ==> rows[i].gameId != gameId
    ensures r.Some? ==> r.value < |rows| && rows[r.value].gameId == gameId
    ensures r.Some? ==> forall i :: 0 <= i < r.value ==> rows[i].gameId != gameId
  {
    if |rows| == 0 then None
    else if rows[0].gameId == gameId then Some(0)
    else match IndexOfGame(rows[1..], gameId)
      case None => None
      case Some(k) => Some(k + 1)
  }

  /** A stored comparison is served while it is younger than six hours. */
  predicate IsFresh(row: CacheRow, now: int) {
    now - row.lastUpdated < CacheTtlMillis
  }

  /** No game has two cache rows. */
  predicate OneRowPerGame(rows: seq<CacheRow>) {
    forall i, j :: 0 <= i < j < |rows| ==> rows[i].gameId != rows[j].gameId
  }

  /** A comparison request names the game by id or, failing a truthy id, by exact name. */
  datatype ComparisonInput = ComparisonInput(gameId: Option<nat>, gameName: Option<string>)

  /** The game a request is about; None (or 0) is "Game not found". */
  function ResolveGameId(input: ComparisonInput, games: seq<ServiceGameRow>): (r: Option<nat>)
    ensures TruthyNat(input.gameId) ==> r == input.gameId
    ensures !TruthyNat(input.gameId) && !TruthyStr(input.gameName) ==> r == input.gameId
    ensures !TruthyNat(input.gameId) && TruthyStr(input.gameName) ==>
      match EpicGamesService.FirstNamed(games, input.gameName.value)
      case Some(k) => r == Some(games[k].id) && games[k].name == input.gameName.value
      case None => r == input.gameId
  {
    if TruthyStr(input.gameName) && !TruthyNat(input.gameId) then
      match EpicGamesService.FirstNamed(games, input.gameName.value)
      case Some(k) => Some(games[k].id)
      case None => input.gameId
    else input.gameId
  }

  /** The offers of one game, in table order. */
  function OffersOfGame(offers: seq<PlatformOffer>, gameId: nat): (r: seq<PlatformOffer>)
    ensures forall o :: o in r <==> o in offers && o.gameId == gameId
  {
    if |offers| == 0 then []
    else
      OffersOfGame(offers[..|offers| - 1], gameId)
        + (if offers[|offers| - 1].gameId == gameId then [offers[|offers| - 1]] else [])
  }

  // ---------------------------------------------------------------------
  // Where to buy

  datatype AdviceKind = CheapestAdvice | BestDealAdvice | DrmFreeAdvice

  /**
   * Why an option is recommended.  The saving of a deal is original price
   * minus price; None stands for the not-a-number the text shows when the
   * original price is missing.  The text rendering (`toFixed`) is not
   * modelled.
   */
  datatype Reason = BestPrice(price: Money) | PercentOff(percent: int, saving: Option<Money>) | PlayWithoutDrm

  datatype Recommendation = Recommendation(kind: AdviceKind, platform: Platform, price: Option<Money>,
                                           discountPercent: Option<int>, reason: Reason, priority: nat)

  datatype Advice = Advice(recommendation: Option<Recommendation>, alternatives: seq<Recommendation>,
                           steam: Option<ComparisonEntry>, epic: Option<ComparisonEntry>, gog: Option<ComparisonEntry>)

  /** The saving a deal's reason shows. */
  function Saving(deal: BestDeal): (r: Option<Money>)
    ensures deal.originalPrice.None? ==> r.None?
    ensures deal.originalPrice.Some? ==>
      r.Some? && r.value.hundredths + (if deal.price.Some? then deal.price.value.hundredths else 0) == deal.originalPrice.value.hundredths
  {
    if deal.originalPrice.None? then None
    else Some(Hundredths(deal.originalPrice.value.hundredths - (if deal.price.Some? then deal.price.value.hundredths else 0)))
  }

  /** A discount of half or more ranks just below the cheapest option. */
  function DealPriority(percent: int): (r: nat)
    ensures r == 2 <==> percent >= 50
    ensures r == 3 <==> percent < 50
  {
    if percent >= 50 then 2 else 3
  }

  /** A deal is recommended only with a positive discount. */
  predicate RecommendsDeal(c: Comparison) {
    c.bestDeal.Some? && c.bestDeal.value.discountPercent > 0
  }

  /** A DRM-free copy is recommended when the GOG entry says so. */
  predicate RecommendsDrmFree(c: Comparison) {
    c.gog.Some? && c.gog.value.drmFree == Some(FlagTrue)
  }

  predicate SortedByPriority(s: seq<Recommendation>) {
    forall i, j :: 0 <= i < j < |s| ==> s[i].priority <= s[j].priority
  }

  /**
   * The recommendations in the order they are pushed: the cheapest option,
   * the best deal, the DRM-free copy, each when it applies.
   */
  function Candidates(c: Comparison): (r: seq<Recommendation>)
    ensures |r| <= 3 && SortedByPriority(r)
    ensures c.cheapestOption.Some? <==> |r| > 0 && r[0].kind == CheapestAdvice
    ensures RecommendsDeal(c) ==>
      |r| > (if c.cheapestOption.Some? then 1 else 0) && r[if c.cheapestOption.Some? then 1 else 0].kind == BestDealAdvice
    ensures !RecommendsDeal(c) ==> forall k :: 0 <= k < |r| ==> r[k].kind != BestDealAdvice
    ensures RecommendsDrmFree(c) <==> |r| > 0 && r[|r| - 1].kind == DrmFreeAdvice
    ensures forall k :: 0 <= k < |r| && r[k].kind == BestDealAdvice ==>
      r[k].priority == DealPriority(c.bestDeal.value.discountPercent) && r[k].platform == c.bestDeal.value.platform
  {
    (if c.cheapestOption.Some? then
       [Recommendation(CheapestAdvice, c.cheapestOption.value.platform, Some(c.cheapestOption.value.price), None,
                       BestPrice(c.cheapestOption.value.price), 1)]
     else [])
    + (if RecommendsDeal(c) then
         var d := c.bestDeal.value;
         [Recommendation(BestDealAdvice, d.platform, d.price, Some(d.discountPercent), PercentOff(d.discountPercent, Saving(d)),
                         DealPriority(d.discountPercent))]
       else [])
    + (if RecommendsDrmFree(c) then [Recommendation(DrmFreeAdvice, Gog, c.gog.value.price, None, PlayWithoutDrm, 4)] else [])
  }

  /** The pushes of the where-to-buy advice, in order. */
  method PushCandidates(c: Comparison) returns (recommendations: seq<Recommendation>)
    ensures recommendations == Candidates(c)
  {
    recommendations := [];
    if c.cheapestOption.Some? {
      var o := c.cheapestOption.value;
      recommendations := recommendations + [Recommendation(CheapestAdvice, o.platform, Some(o.price), None, BestPrice(o.price), 1)];
    }
    if c.bestDeal.Some? && c.bestDeal.value.discountPercent > 0 {
      var d := c.bestDeal.value;
      recommendations := recommendations + [Recommendation(BestDealAdvice, d.platform, d.price, Some(d.discountPercent),
                                                           PercentOff(d.discountPercent, Saving(d)), DealPriority(d.discountPercent))];
    }
    if c.gog.Some? && c.gog.value.drmFree == Some(FlagTrue) {
      recommendations := recommendations + [Recommendation(DrmFreeAdvice, Gog, c.gog.value.price, None, PlayWithoutDrm, 4)];
    }
  }

  /** Stable insertion: `x` goes after every element whose priority is not larger. */
  function InsertByPriority(s: seq<Recommendation>, x: Recommendation): seq<Recommendation>
  {
    if |s| == 0 then [x]
    else if s[0].priority > x.priority then [x] + s
    else [s[0]] + InsertByPriority(s[1..], x)
  }

  /** Insertion adds exactly `x`. */
  lemma {:induction false} InsertCounts(s: seq<Recommendation>, x: Recommendation)
    ensures multiset(InsertByPriority(s, x)) == multiset(s) + multiset{x}
    ensures forall e :: e in InsertByPriority(s, x) <==> e in s || e == x
  {
    if |s| > 0 && s[0].priority <= x.priority {
      InsertCounts(s[1..], x);
      assert s == [s[0]] + s[1..];
    }
  }

  /** Insertion keeps the order sorted. */
  lemma {:induction false} InsertSorted(s: seq<Recommendation>, x: Recommendation)
    requires SortedByPriority(s)
    ensures SortedByPriority(InsertByPriority(s, x))
  {
    if |s| > 0 && s[0].priority <= x.priority {
      var rest := InsertByPriority(s[1..], x);
      InsertSorted(s[1..], x);
      InsertCounts(s[1..], x);
      assert forall e :: e in rest ==> s[0].priority <= e.priority;
      assert InsertByPriority(s, x) == [s[0]] + rest;
    }
  }

  /** Inserting an element no smaller than every other appends it. */
  lemma {:induction false} InsertLast(s: seq<Recommendation>, x: Recommendation)
    requires forall k :: 0 <= k < |s| ==> s[k].priority <= x.priority
    ensures InsertByPriority(s, x) == s + [x]
  {
    if |s| > 0 {
      InsertLast(s[1..], x);
      assert s == [s[0]] + s[1..];
    }
  }

  /** `recommendations.sort((a, b) => a.priority - b.priority)`: a stable sort by priority. */
  method SortByPriority(recs: seq<Recommendation>) returns (sorted: seq<Recommendation>)
    ensures SortedByPriority(sorted)
    ensures multiset(sorted) == multiset(recs)
    ensures SortedByPriority(recs) ==> sorted == recs
  {
    sorted := [];
    var i := 0;
    while i < |recs|
      invariant i <= |recs|
      invariant SortedByPriority(sorted)
      invariant multiset(sorted) == multiset(recs[..i])
      invariant SortedByPriority(recs) ==> sorted == recs[..i]
    {
      InsertSorted(sorted, recs[i]);
      InsertCounts(sorted, recs[i]);
      if SortedByPriority(recs) {
        InsertLast(sorted, recs[i]);
      }
      assert recs[..i + 1] == recs[..i] + [recs[i]];
      sorted := InsertByPriority(sorted, recs[i]);
      i := i + 1;
    }
    assert recs[..i] == recs;
  }

  /**
   * The comparison cache table.  `nextId` is the auto-increment counter.
   */
  class ComparisonCache {
    var rows: seq<CacheRow>
    var nextId: nat

    ghost predicate Valid()
      reads this
    {
      OneRowPerGame(rows) && forall i :: 0 <= i < |rows| ==> rows[i].id < nextId
    }

    constructor()
      ensures rows == [] && nextId == 1 && Valid()
    {
      rows := [];
      nextId := 1;
    }

    /**
     * The comparison of a game as written: a stored one younger than six
     * hours is returned as it is; otherwise it is rebuilt from the game's
     * offers by `BuildComparisonAsWritten`, which throws (and nothing is
     * stored) unless the game has an offer on every storefront, and stored,
     * updating the game's row or inserting one.
     */
    method GetPriceComparison(input: ComparisonInput, games: seq<ServiceGameRow>, offers: seq<PlatformOffer>, now: int)
      returns (r: Result<Comparison>)
      requires Valid()
      modifies this
      ensures Valid()
      ensures !TruthyNat(ResolveGameId(input, games)) ==> r == Err(GameNotFound) && rows == old(rows) && nextId == old(nextId)
      ensures TruthyNat(ResolveGameId(input, games)) ==>
        var id := ResolveGameId(input, games).value;
        var cached := IndexOfGame(old(rows), id);
        if cached.Some? && IsFresh(old(rows)[cached.value], now) then
          r == Ok(old(rows)[cached.value].data) && rows == old(rows) && nextId == old(nextId)
        else if exists p: Platform :: LastOn(OffersOfGame(offers, id), p).None? then
          r == Err(NullEntryError) && rows == old(rows) && nextId == old(nextId)
        else
          r.Ok? && DescribesAsWritten(r.value, id, OffersOfGame(offers, id))
          && (cached.Some? ==> rows == old(rows)[cached.value := old(rows)[cached.value].(data := r.value, lastUpdated := now)]
                               && nextId == old(nextId))
          && (cached.None? ==> rows == old(rows) + [CacheRow(old(nextId), id, r.value, now)] && nextId == old(nextId) + 1)
    {
      var gameId := ResolveGameId(input, games);
      if !TruthyNat(gameId) {
        return Err(GameNotFound);
      }
      var id := gameId.value;
      var cached := IndexOfGame(rows, id);
      if cached.Some? && IsFresh(rows[cached.value], now) {
        return Ok(rows[cached.value].data);
      }
      r := BuildComparisonAsWritten(id, OffersOfGame(offers, id));
      if r.Err? {
        return;
      }
      if cached.Some? {
        rows := rows[cached.value := rows[cached.value].(data := r.value, lastUpdated := now)];
      } else {
        rows := rows + [CacheRow(nextId, id, r.value, now)];
        nextId := nextId + 1;
      }
    }

    /**
     * The comparison of a game as evidently intended: as `GetPriceComparison`,
     * but rebuilt by `BuildComparison`, which skips null entries and keeps
     * the original prices, so a game on fewer than three storefronts gets a
     * comparison too.
     */
    method GetPriceComparisonCorrected(input: ComparisonInput, games: seq<ServiceGameRow>, offers: seq<PlatformOffer>, now: int)
      returns (r: Result<Comparison>)
      requires Valid()
      modifies this
      ensures Valid()
      ensures r.Err? <==> !TruthyNat(ResolveGameId(input, games))
      ensures r.Err? ==> r.error == GameNotFound && rows == old(rows) && nextId == old(nextId)
      ensures r.Ok? ==>
        var id := ResolveGameId(input, games).value;
        var cached := IndexOfGame(old(rows), id);
        if cached.Some? && IsFresh(old(rows)[cached.value], now) then
          r.value == old(rows)[cached.value].data && rows == old(rows) && nextId == old(nextId)
        else
          Describes(r.value, id, OffersOfGame(offers, id))
          && (cached.Some? ==> rows == old(rows)[cached.value := old(rows)[cached.value].(data := r.value, lastUpdated := now)]
                               && nextId == old(nextId))
          && (cached.None? ==> rows == old(rows) + [CacheRow(old(nextId), id, r.value, now)] && nextId == old(nextId) + 1)
    {
      var gameId := ResolveGameId(input, games);
      if !TruthyNat(gameId) {
        return Err(GameNotFound);
      }
      var id := gameId.value;
      var cached := IndexOfGame(rows, id);
      if cached.Some? && IsFresh(rows[cached.value], now) {
        return Ok(rows[cached.value].data);
      }
      var comparison := BuildComparison(id, OffersOfGame(offers, id));
      if cached.Some? {
        rows := rows[cached.value := rows[cached.value].(data := comparison, lastUpdated := now)];
      } else {
        rows := rows + [CacheRow(nextId, id, comparison, now)];
        nextId := nextId + 1;
      }
      r := Ok(comparison);
    }

    /**
     * The advice for a game from its stored comparison: the candidates
     * sorted by priority, the first recommended and the rest offered as
     * alternatives, next to the three entries.
     */
    method WhereToBuy(gameId: nat) returns (r: Result<Advice>)
      ensures r.Err? <==> IndexOfGame(rows, gameId).None?
      ensures r.Err? ==> r.error == NoComparison
      ensures r.Ok? ==> r.value.steam == rows[IndexOfGame(rows, gameId).value].data.steam
      ensures r.Ok? ==> r.value.epic == rows[IndexOfGame(rows, gameId).value].data.epic
      ensures r.Ok? ==> r.value.gog == rows[IndexOfGame(rows, gameId).value].data.gog
      ensures r.Ok? ==> (r.value.recommendation.None? <==> |Candidates(rows[IndexOfGame(rows, gameId).value].data)| == 0)
      ensures r.Ok? && r.value.recommendation.Some? ==>
        [r.value.recommendation.value] + r.value.alternatives == Candidates(rows[IndexOfGame(rows, gameId).value].data)
    {
      var cached := IndexOfGame(rows, gameId);
      if cached.None? {
        return Err(NoComparison);
      }
      var advice := AdviseOn(rows[cached.value].data);
      r := Ok(advice);
    }
  }

  /** The advice read from one comparison: its candidates sorted, the first recommended, the rest alternatives. */
  method AdviseOn(c: Comparison) returns (a: Advice)
    ensures a.steam == c.steam && a.epic == c.epic && a.gog == c.gog
    ensures a.recommendation.None? <==> |Candidates(c)| == 0
    ensures a.recommendation.Some? ==> [a.recommendation.value] + a.alternatives == Candidates(c)
  {
    var recommendations := PushCandidates(c);
    var sorted := SortByPriority(recommendations);
    assert sorted == Candidates(c);
    if |sorted| == 0 {
      a := Advice(None, [], c.steam, c.epic, c.gog);
    } else {
      assert sorted == [sorted[0]] + sorted[1..];
      a := Advice(Some(sorted[0]), sorted[1..], c.steam, c.epic, c.gog);
    }
  }

  /**
   * A stored comparison built by `BuildComparison` whose best deal is on
   * an offer with an original price shows the saving as original price
   * minus price; one built as written shows no saving.
   */
  lemma DealSavingShown(c: Comparison, rows: seq<PlatformOffer>, gameId: nat)
    requires Describes(c, gameId, rows) && RecommendsDeal(c)
    requires EntryOn(c, c.bestDeal.value.platform).value.originalPrice.Some?
    ensures Saving(c.bestDeal.value).Some?
    ensures Saving(c.bestDeal.value).value.hundredths ==
      LastOn(rows, c.bestDeal.value.platform).value.originalPrice.value.hundredths
      - (if c.bestDeal.value.price.Some? then c.bestDeal.value.price.value.hundredths else 0)
  {
  }
}
