// The advanced search's result shaping: the page arithmetic handed to the
// database, and the loop that folds the joined (game, offer) rows of the
// page into one summary per game (its offers, their count, and the lowest
// and highest known price).  The text matching, filters and ordering are
// SQL and arrive as the rows the database returned for the page.

module SearchShaping {
  import opened Common
  import opened PlatformApiBase
  import Trending

  const DefaultPage: nat := 1
  const DefaultPageSize: nat := 20

  /** `page || 1`: a missing or zero page is the first. */
  function PageNumber(page: Option<nat>): (r: nat)
    ensures r >= 1
    ensures TruthyNat(page) ==> r == page.value
    ensures !TruthyNat(page) ==> r == DefaultPage
  {
    if TruthyNat(page) then page.value else DefaultPage
  }

  /** `limit || 20`. */
  function PageSize(limit: Option<nat>): (r: nat)
    ensures r >= 1
    ensures TruthyNat(limit) ==> r == limit.value
    ensures !TruthyNat(limit) ==> r == DefaultPageSize
  {
    if TruthyNat(limit) then limit.value else DefaultPageSize
  }

  /** The rows to skip: every row of the earlier pages. */
  function Offset(page: Option<nat>, limit: Option<nat>): (r: nat)
    ensures r + PageSize(limit) == PageNumber(page) * PageSize(limit)
    ensures !TruthyNat(page) ==> r == 0
  {
    (PageNumber(page) - 1) * PageSize(limit)
  }

  /** One offer of a game as the search lists it. */
  datatype SearchPlatform = SearchPlatform(
    platform: Platform,
    price: Option<Money>,
    originalPrice: Option<Money>,
    discountPercent: Option<int>,
    url: Option<string>,
    available: Option<Flag>,
    drmFree: Option<Flag>)

  /** One game of the result: its row, its offers, their count and price extremes. */
  datatype GameSummary = GameSummary(
    game: ServiceGameRow,
    platforms: seq<SearchPlatform>,
    lowestPrice: Option<Money>,
    highestPrice: Option<Money>,
    platformCount: nat)

  datatype AdvancedSearchResult = AdvancedSearchResult(results: seq<GameSummary>, page: nat, limit: nat, total: nat)

  /** The listing of one offer; the decimal columns are truthy whenever present. */
  function Listing(o: PlatformOffer): (e: SearchPlatform)
    ensures e.platform == o.platform && e.price == o.platformPrice && e.originalPrice == o.originalPrice
  {
    SearchPlatform(o.platform, o.platformPrice, o.originalPrice, o.discountPercent, o.platformUrl, o.available, o.drmFree)
  }

  // ---------------------------------------------------------------------
  // Reference definitions

  /** The game ids of the rows, each once, in order of first appearance. */
  function DistinctIds(rows: seq<JoinedRow>): (r: seq<nat>)
    ensures NoDuplicates(r) && |r| <= |rows|
    ensures forall id :: id in r <==> exists i :: 0 <= i < |rows| && rows[i].game.id == id
  {
    if |rows| == 0 then []
    else
      var init := rows[..|rows| - 1];
      assert forall i :: 0 <= i < |init| ==> init[i] == rows[i];
      var ids := DistinctIds(init);
      if rows[|rows| - 1].game.id in ids then ids else ids + [rows[|rows| - 1].game.id]
  }

  /** The listings of the offers joined to game `id`, in row order. */
  function EntriesFor(rows: seq<JoinedRow>, id: nat): (r: seq<SearchPlatform>)
    ensures |r| <= |rows|
  {
    if |rows| == 0 then []
    else
      var last := rows[|rows| - 1];
      EntriesFor(rows[..|rows| - 1], id)
        + (if last.game.id == id && last.platform.Some? then [Listing(last.platform.value)] else [])
  }

  /** `v` is the lowest known price among `es`, or null when none is known. */
  predicate IsLowest(v: Option<Money>, es: seq<SearchPlatform>) {
    && (v.None? <==> forall k :: 0 <= k < |es| ==> es[k].price.None?)
    && (v.Some? ==> exists k :: 0 <= k < |es| && es[k].price == v)
    && (v.Some? ==> forall k :: 0 <= k < |es| && es[k].price.Some? ==> v.value.hundredths <= es[k].price.value.hundredths)
  }

  /** `v` is the highest known price among `es`, or null when none is known. */
  predicate IsHighest(v: Option<Money>, es: seq<SearchPlatform>) {
    && (v.None? <==> forall k :: 0 <= k < |es| ==> es[k].price.None?)
    && (v.Some? ==> exists k :: 0 <= k < |es| && es[k].price == v)
    && (v.Some? ==> forall k :: 0 <= k < |es| && es[k].price.Some? ==> v.value.hundredths >= es[k].price.value.hundredths)
  }

  // ---------------------------------------------------------------------
  // The grouping fold

  /** The entry a game gets on its first row. */
  function Fresh(game: ServiceGameRow): GameSummary {
    GameSummary(game, [], None, None, 0)
  }

  /**
   * One row folded into its game's summary: a row with an offer appends the
   * listing, counts it, and moves an extreme only on a strictly lower or
   * higher known price.
   */
  function Absorb(s: GameSummary, row: JoinedRow): GameSummary {
    if row.platform.None? then s
    else
      var e := Listing(row.platform.value);
      var lowest := if e.price.Some? && (s.lowestPrice.None? || e.price.value.hundredths < s.lowestPrice.value.hundredths)
        then e.price else s.lowestPrice;
      var highest := if e.price.Some? && (s.highestPrice.None? || e.price.value.hundredths > s.highestPrice.value.hundredths)
        then e.price else s.highestPrice;
      GameSummary(s.game, s.platforms + [e], lowest, highest, s.platformCount + 1)
  }

  /** The summary of game `id` after folding every row. */
  function SummaryOf(rows: seq<JoinedRow>, id: nat): GameSummary
    requires id in DistinctIds(rows)
    decreases |rows|
  {
    var n := |rows| - 1;
    var last := rows[n];
    if last.game.id != id then SummaryOf(rows[..n], id)
    else if id in DistinctIds(rows[..n]) then Absorb(SummaryOf(rows[..n], id), last)
    else Absorb(Fresh(last.game), last)
  }

  /** A game's listings are exactly the offers joined to it, and its count is their number. */
  lemma {:induction false} SummaryPlatforms(rows: seq<JoinedRow>, id: nat)
    requires id in DistinctIds(rows)
    ensures SummaryOf(rows, id).platforms == EntriesFor(rows, id)
    ensures SummaryOf(rows, id).platformCount == |EntriesFor(rows, id)|
    decreases |rows|
  {
    var n := |rows| - 1;
    if rows[n].game.id != id || id in DistinctIds(rows[..n]) {
      SummaryPlatforms(rows[..n], id);
    } else {
      EntriesAbsent(rows[..n], id);
    }
  }

  /** A game that has no row has no listings. */
  lemma {:induction false} EntriesAbsent(rows: seq<JoinedRow>, id: nat)
    requires id !in DistinctIds(rows)
    ensures EntriesFor(rows, id) == []
    decreases |rows|
  {
    if |rows| > 0 {
      EntriesAbsent(rows[..|rows| - 1], id);
    }
  }

  /** A game's row is the one on its first joined row. */
  lemma {:induction false} SummaryGame(rows: seq<JoinedRow>, id: nat)
    requires id in DistinctIds(rows)
    ensures exists i :: 0 <= i < |rows| && rows[i].game.id == id && SummaryOf(rows, id).game == rows[i].game
                        && forall j :: 0 <= j < i ==> rows[j].game.id != id
    decreases |rows|
  {
    var n := |rows| - 1;
    var init := rows[..n];
    if id in DistinctIds(init) {
      SummaryGame(init, id);
      var i :| 0 <= i < |init| && init[i].game.id == id && SummaryOf(init, id).game == init[i].game
        && forall j :: 0 <= j < i ==> init[j].game.id != id;
      assert rows[i] == init[i];
    } else {
      assert forall j :: 0 <= j < n ==> rows[j] == init[j];
    }
  }

  /** Folding a row keeps the lowest price exact for the listings so far. */
  lemma AbsorbKeepsLowest(s: GameSummary, row: JoinedRow)
    requires IsLowest(s.lowestPrice, s.platforms)
    ensures IsLowest(Absorb(s, row).lowestPrice, Absorb(s, row).platforms)
  {
    if row.platform.Some? {
      var es := Absorb(s, row).platforms;
      var v := Absorb(s, row).lowestPrice;
      assert es == s.platforms + [Listing(row.platform.value)];
      assert forall k :: 0 <= k < |s.platforms| ==> es[k] == s.platforms[k];
      if v.Some? {
        if v == es[|s.platforms|].price {
        } else {
          var k :| 0 <= k < |s.platforms| && s.platforms[k].price == v;
          assert es[k].price == v;
        }
      }
    }
  }

  /** Folding a row keeps the highest price exact for the listings so far. */
  lemma AbsorbKeepsHighest(s: GameSummary, row: JoinedRow)
    requires IsHighest(s.highestPrice, s.platforms)
    ensures IsHighest(Absorb(s, row).highestPrice, Absorb(s, row).platforms)
  {
    if row.platform.Some? {
      var es := Absorb(s, row).platforms;
      var v := Absorb(s, row).highestPrice;
      assert es == s.platforms + [Listing(row.platform.value)];
      assert forall k :: 0 <= k < |s.platforms| ==> es[k] == s.platforms[k];
      if v.Some? {
        if v == es[|s.platforms|].price {
        } else {
          var k :| 0 <= k < |s.platforms| && s.platforms[k].price == v;
          assert es[k].price == v;
        }
      }
    }
  }

  /** lowestPrice and highestPrice are the least and greatest known prices of the game's listings. */
  lemma {:induction false} SummaryExtremes(rows: seq<JoinedRow>, id: nat)
    requires id in DistinctIds(rows)
    ensures IsLowest(SummaryOf(rows, id).lowestPrice, SummaryOf(rows, id).platforms)
    ensures IsHighest(SummaryOf(rows, id).highestPrice, SummaryOf(rows, id).platforms)
    decreases |rows|
  {
    var n := |rows| - 1;
    if rows[n].game.id != id {
      SummaryExtremes(rows[..n], id);
    } else if id in DistinctIds(rows[..n]) {
      SummaryExtremes(rows[..n], id);
      AbsorbKeepsLowest(SummaryOf(rows[..n], id), rows[n]);
      AbsorbKeepsHighest(SummaryOf(rows[..n], id), rows[n]);
    } else {
      AbsorbKeepsLowest(Fresh(rows[n].game), rows[n]);
      AbsorbKeepsHighest(Fresh(rows[n].game), rows[n]);
    }
  }

  /** The fold after one more row: only the row's own game changes. */
  lemma SummaryStep(rows: seq<JoinedRow>, i: nat, id: nat)
    requires i < |rows| && id in DistinctIds(rows[..i + 1])
    ensures id != rows[i].game.id ==> id in DistinctIds(rows[..i]) && SummaryOf(rows[..i + 1], id) == SummaryOf(rows[..i], id)
    ensures id == rows[i].game.id && id in DistinctIds(rows[..i]) ==>
      SummaryOf(rows[..i + 1], id) == Absorb(SummaryOf(rows[..i], id), rows[i])
    ensures id == rows[i].game.id && id !in DistinctIds(rows[..i]) ==>
      SummaryOf(rows[..i + 1], id) == Absorb(Fresh(rows[i].game), rows[i])
  {
    assert rows[..i + 1][..i] == rows[..i];
  }

  // ---------------------------------------------------------------------
  // The grouping loop

  /**
   * The per-row update of a game's entry: append the listing, count it,
   * and move an extreme on a strictly lower or higher known price.
   */
  method AddListing(data: GameSummary, offer: PlatformOffer) returns (data': GameSummary)
    ensures data' == Absorb(data, JoinedRow(data.game, Some(offer)))
  {
    var price := offer.platformPrice;
    data' := data.(platforms := data.platforms + [Listing(offer)], platformCount := data.platformCount + 1);
    if price.Some? {
      if data'.lowestPrice.None? || price.value.hundredths < data'.lowestPrice.value.hundredths {
        data' := data'.(lowestPrice := price);
      }
      if data'.highestPrice.None? || price.value.hundredths > data'.highestPrice.value.hundredths {
        data' := data'.(highestPrice := price);
      }
    }
  }

  /** Every game seen so far is in the table with the summary of the rows so far. */
  ghost predicate Grouped(rows: seq<JoinedRow>, i: nat, ids: seq<nat>, table: map<nat, GameSummary>)
    requires i <= |rows|
  {
    && ids == DistinctIds(rows[..i])
    && (forall id :: id in table <==> id in ids)
    && (forall id :: id in ids ==> table[id] == SummaryOf(rows[..i], id))
  }

  /** Storing the updated entry of row i's game extends the grouping by one row. */
  lemma GroupedStep(rows: seq<JoinedRow>, i: nat, ids: seq<nat>, table: map<nat, GameSummary>,
                    ids': seq<nat>, table': map<nat, GameSummary>)
    requires i < |rows| && Grouped(rows, i, ids, table)
    requires rows[i].game.id in table ==> ids' == ids && table' == table[rows[i].game.id := Absorb(table[rows[i].game.id], rows[i])]
    requires rows[i].game.id !in table ==>
      ids' == ids + [rows[i].game.id] && table' == table[rows[i].game.id := Absorb(Fresh(rows[i].game), rows[i])]
    ensures Grouped(rows, i + 1, ids', table')
  {
    assert rows[..i + 1][..i] == rows[..i];
    forall id' | id' in ids'
      ensures table'[id'] == SummaryOf(rows[..i + 1], id')
    {
      SummaryStep(rows, i, id');
    }
  }

  /**
   * Groups the page's rows by game: the result lists each game once, in
   * order of first appearance, with the summary the fold defines.
   */
  method GroupResults(rows: seq<JoinedRow>) returns (results: seq<GameSummary>)
    ensures |results| == |DistinctIds(rows)|
    ensures forall k :: 0 <= k < |results| ==> results[k] == SummaryOf(rows, DistinctIds(rows)[k])
  {
    var ids: seq<nat> := [];
    var table: map<nat, GameSummary> := map[];
    var i := 0;
    while i < |rows|
      invariant i <= |rows| && Grouped(rows, i, ids, table)
    {
      var row := rows[i];
      var id := row.game.id;
      ghost var ids0, table0 := ids, table;
      var data;
      if id !in table {
        data := Fresh(row.game);
        ids := ids + [id];
      } else {
        data := table[id];
      }
      ghost var base := data;
      if row.platform.Some? {
        data := AddListing(data, row.platform.value);
      }
      assert data == Absorb(base, row);
      table := table[id := data];
      GroupedStep(rows, i, ids0, table0, ids, table);
      i := i + 1;
    }
    assert rows[..i] == rows;
    results := seq(|ids|, k requires 0 <= k < |ids| => table[ids[k]]);
  }

  /**
   * The advanced search: counts the query, asks the database for the page
   * (`select(limit, offset)`), and groups what comes back.  The total is
   * the number of distinct games on the page.
   */
  method AdvancedSearch(stats: Trending.SearchStats, query: string, page: Option<nat>, limit: Option<nat>,
                        select: (nat, nat) -> seq<JoinedRow>, trackFails: bool, now: int)
    returns (r: AdvancedSearchResult)
    requires stats.Valid()
    modifies stats
    ensures stats.Valid()
    ensures !trackFails ==> Trending.TotalSearches(stats.rows) == Trending.TotalSearches(old(stats.rows)) + 1
    ensures trackFails ==> stats.rows == old(stats.rows) && stats.nextId == old(stats.nextId)
    ensures !trackFails ==>
      stats.rows == Trending.Tracked(old(stats.rows), old(stats.nextId), query, now)
      && stats.nextId == Trending.TrackedNextId(old(stats.rows), old(stats.nextId), query)
    ensures r.page == PageNumber(page) && r.limit == PageSize(limit)
    ensures var rows := select(PageSize(limit), Offset(page, limit));
      r.total == |r.results| == |DistinctIds(rows)| <= |rows|
    ensures var rows := select(PageSize(limit), Offset(page, limit));
      forall k :: 0 <= k < |r.results| ==> r.results[k] == SummaryOf(rows, DistinctIds(rows)[k])
  {
    var offset := Offset(page, limit);
    var size := PageSize(limit);
    stats.TrackPopularSearch(query, now, trackFails);
    var rows := select(size, offset);
    var results := GroupResults(rows);
    r := AdvancedSearchResult(results, PageNumber(page), size, |results|);
  }
}
