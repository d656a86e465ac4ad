// The popular-search counter and the two read paths built on it: the
// trending list (games matched by the most searched queries of the last
// week or month, back-filled with recently updated offers) and the
// autocomplete suggestions (matching game names, then matching queries).
//
// The SQL selections (LIKE matching, ordering by search count, the
// per-query limit of three rows) are inputs; the loops that de-duplicate
// and cap what they return are modelled as written.

module Trending {
  import opened Common
  import opened PlatformApiBase

  const MillisPerDay: int := 24 * 60 * 60 * 1000
  /** Rows fetched per trending query. */
  const MatchesPerSearch: nat := 3
  /** Rows fetched from each autocomplete source. */
  const SuggestionsPerSource: nat := 5

  /** A row of the popular-searches table. */
  datatype SearchRow = SearchRow(id: nat, query: string, searchCount: nat, lastSearched: Option<int>)

  // ---------------------------------------------------------------------
  // The counter

  /** The position of the first row holding query `q` (the lookup's `limit(1)`). */
  function IndexOfQuery(rows: seq<SearchRow>, q: string): (r: Option<nat>)
    ensures r.None? <==> forall i :: 0 <= i < |rows| ==> rows[i].query != q
    ensures r.Some? ==> r.value < |rows| && rows[r.value].query == q
    ensures r.Some? ==> forall i :: 0 <= i < r.value ==> rows[i].query != q
  {
    if |rows| == 0 then None
    else if rows[0].query == q then Some(0)
    else match IndexOfQuery(rows[1..], q)
      case None => None
      case Some(k) => Some(k + 1)
  }

  /** No query is counted in two rows. */
  predicate UniqueQueries(rows: seq<SearchRow>) {
    forall i, j :: 0 <= i < j < |rows| ==> rows[i].query != rows[j].query
  }

  /** The number of searches the table has recorded. */
  function TotalSearches(rows: seq<SearchRow>): nat {
    if |rows| == 0 then 0 else TotalSearches(rows[..|rows| - 1]) + rows[|rows| - 1].searchCount
  }

  /** Replacing one row changes the total by the difference of the two counts. */
  lemma {:induction false} TotalAfterReplace(rows: seq<SearchRow>, k: nat, row: SearchRow)
    requires k < |rows|
    ensures TotalSearches(rows[k := row]) + rows[k].searchCount == TotalSearches(rows) + row.searchCount
    decreases |rows|
  {
    var n := |rows| - 1;
    assert rows[k := row][..n] == if k == n then rows[..n] else rows[..n][k := row];
    if k < n {
      TotalAfterReplace(rows[..n], k, row);
    }
  }

  /** Appending a row adds its count to the total. */
  lemma TotalAfterAppend(rows: seq<SearchRow>, row: SearchRow)
    ensures TotalSearches(rows + [row]) == TotalSearches(rows) + row.searchCount
  {
    assert (rows + [row])[..|rows|] == rows;
  }

  /**
   * The table after one search for `query` is counted: the first row holding
   * it gets one more search and lastSearched `now`, every other row is kept;
   * without such a row, a row with id `nextId` and count 1 is appended.
   */
  function Tracked(rows: seq<SearchRow>, nextId: nat, query: string, now: int): (r: seq<SearchRow>)
    ensures TotalSearches(r) == TotalSearches(rows) + 1
    ensures IndexOfQuery(rows, query).Some? ==>
      var k := IndexOfQuery(rows, query).value;
      |r| == |rows| && r[k] == rows[k].(searchCount := rows[k].searchCount + 1, lastSearched := Some(now))
      && forall i :: 0 <= i < |rows| && i != k ==> r[i] == rows[i]
    ensures IndexOfQuery(rows, query).None? ==> r == rows + [SearchRow(nextId, query, 1, Some(now))]
  {
    match IndexOfQuery(rows, query)
    case Some(k) =>
      var row := rows[k].(searchCount := rows[k].searchCount + 1, lastSearched := Some(now));
      TotalAfterReplace(rows, k, row);
      rows[k := row]
    case None =>
      TotalAfterAppend(rows, SearchRow(nextId, query, 1, Some(now)));
      rows + [SearchRow(nextId, query, 1, Some(now))]
  }

  /** The id counter after one search for `query` is counted: advanced only by an insert. */
  function TrackedNextId(rows: seq<SearchRow>, nextId: nat, query: string): nat {
    if IndexOfQuery(rows, query).Some? then nextId else nextId + 1
  }

  /**
   * The popular-searches table.  `nextId` is the auto-increment counter;
   * a new row's lastSearched takes the column default, the time of the insert.
   */
  class SearchStats {
    var rows: seq<SearchRow>
    var nextId: nat

    ghost predicate Valid()
      reads this
    {
      UniqueQueries(rows) && forall i :: 0 <= i < |rows| ==> rows[i].id < nextId
    }

    constructor()
      ensures rows == [] && nextId == 1 && Valid()
    {
      rows := [];
      nextId := 1;
    }

    /**
     * Counts one search for `query`: the existing row gets one more search
     * and a new lastSearched, otherwise a row with count 1 is inserted.  A
     * database failure (`fails`) is logged and swallowed, leaving the table
     * as it was.
     */
    method TrackPopularSearch(query: string, now: int, fails: bool)
      requires Valid()
      modifies this
      ensures Valid()
      ensures fails ==> rows == old(rows) && nextId == old(nextId)
      ensures !fails ==> rows == Tracked(old(rows), old(nextId), query, now) && nextId == TrackedNextId(old(rows), old(nextId), query)
      ensures !fails ==> TotalSearches(rows) == TotalSearches(old(rows)) + 1
      ensures !fails && IndexOfQuery(old(rows), query).Some? ==>
        var k := IndexOfQuery(old(rows), query).value;
        |rows| == |old(rows)| && nextId == old(nextId)
        && rows[k] == old(rows)[k].(searchCount := old(rows)[k].searchCount + 1, lastSearched := Some(now))
        && (forall i :: 0 <= i < |rows| && i != k ==> rows[i] == old(rows)[i])
      ensures !fails && IndexOfQuery(old(rows), query).None? ==>
        rows == old(rows) + [SearchRow(old(nextId), query, 1, Some(now))] && nextId == old(nextId) + 1
    {
      if fails {
        return;
      }
      match IndexOfQuery(rows, query)
      case Some(k) =>
        var row := rows[k].(searchCount := rows[k].searchCount + 1, lastSearched := Some(now));
        TotalAfterReplace(rows, k, row);
        rows := rows[k := row];
      case None =>
        TotalAfterAppend(rows, SearchRow(nextId, query, 1, Some(now)));
        rows := rows + [SearchRow(nextId, query, 1, Some(now))];
        nextId := nextId + 1;
    }
  }

  // ---------------------------------------------------------------------
  // Trending

  datatype Timeframe = Week | Month

  /** The start of the window: seven days back for a week, thirty otherwise. */
  function Threshold(now: int, timeframe: Timeframe): (r: int)
    ensures timeframe == Week <==> now - r == 7 * 86400000
    ensures timeframe == Month <==> now - r == 30 * 86400000
  {
    now - (if timeframe == Week then 7 else 30) * MillisPerDay
  }

  /** The rows searched at or after `threshold`, in table order. */
  function RecentSearches(rows: seq<SearchRow>, threshold: int): (r: seq<SearchRow>)
    ensures |r| <= |rows|
    ensures forall s :: s in r <==> s in rows && s.lastSearched.Some? && s.lastSearched.value >= threshold
  {
    if |rows| == 0 then []
    else
      var last := rows[|rows| - 1];
      RecentSearches(rows[..|rows| - 1], threshold)
        + (if last.lastSearched.Some? && last.lastSearched.value >= threshold then [last] else [])
  }

  /**
   * The trending queries: the window's searches, taken from the table in
   * the order the database returns them (by descending count), capped at
   * `limit`.
   */
  function TrendingSearches(byCount: seq<SearchRow>, threshold: int, limit: nat): (r: seq<SearchRow>)
    ensures |r| <= limit
    ensures forall s :: s in r ==> s in byCount && s.lastSearched.Some? && s.lastSearched.value >= threshold
  {
    Take(RecentSearches(byCount, threshold), limit)
  }

  datatype TrendPlatform = TrendPlatform(platform: Platform, price: Option<Money>, discountPercent: Option<int>)

  /** A trending game: the games row, the count of the query that found it, and its joined offer. */
  datatype TrendingGame = TrendingGame(game: ServiceGameRow, searchCount: Option<nat>, platforms: seq<TrendPlatform>)

  datatype TrendingResult = TrendingResult(timeframe: Timeframe, games: seq<TrendingGame>, count: nat)

  /** How a joined row is listed; a row without an offer lists no platforms. */
  function Shown(row: JoinedRow, searchCount: Option<nat>): (g: TrendingGame)
    ensures g.game == row.game && g.searchCount == searchCount
    ensures |g.platforms| == if row.platform.Some? then 1 else 0
  {
    TrendingGame(row.game, searchCount,
      if row.platform.Some? then
        [TrendPlatform(row.platform.value.platform, row.platform.value.platformPrice, row.platform.value.discountPercent)]
      else [])
  }

  predicate DistinctGames(games: seq<TrendingGame>) {
    forall a, b :: 0 <= a < b < |games| ==> games[a].game.id != games[b].game.id
  }

  /** The ids of the listed games (the `seenGameIds` set). */
  function IdsOf(games: seq<TrendingGame>): (r: set<nat>)
    ensures forall id :: id in r <==> exists a :: 0 <= a < |games| && games[a].game.id == id
  {
    if |games| == 0 then {}
    else
      var init := games[..|games| - 1];
      assert forall a :: 0 <= a < |init| ==> init[a] == games[a];
      IdsOf(init) + {games[|games| - 1].game.id}
  }

  /** Listing one more game adds its id to the seen set and keeps the list distinct when the id was new. */
  lemma ListOneMore(games: seq<TrendingGame>, g: TrendingGame)
    requires DistinctGames(games) && g.game.id !in IdsOf(games)
    ensures IdsOf(games + [g]) == IdsOf(games) + {g.game.id}
    ensures DistinctGames(games + [g])
  {
    assert (games + [g])[..|games|] == games;
  }

  /** `g` lists one of the first three rows matching a trending query, with that query's count. */
  ghost predicate FromSearch(g: TrendingGame, searches: seq<SearchRow>, matchesOf: string -> seq<JoinedRow>) {
    exists s, k :: 0 <= s < |searches| && 0 <= k < |matchesOf(searches[s].query)| && k < MatchesPerSearch
      && g == Shown(matchesOf(searches[s].query)[k], Some(searches[s].searchCount))
  }

  /** `g` lists one of the recently updated rows of a back-fill request for at most `limit` rows. */
  ghost predicate FromRecent(g: TrendingGame, threshold: int, limit: nat, recentSince: (int, nat) -> seq<JoinedRow>) {
    exists n: nat, k :: n <= limit && 0 <= k < n && k < |recentSince(threshold, n)|
      && g == Shown(recentSince(threshold, n)[k], None)
  }

  /** `g` lists one of `rows` with search count `count`. */
  ghost predicate ListedFrom(g: TrendingGame, rows: seq<JoinedRow>, count: Option<nat>) {
    exists k :: 0 <= k < |rows| && g == Shown(rows[k], count)
  }

  /** What a prefix of the list holds, the whole list holds. */
  lemma IdsOfPrefix(games: seq<TrendingGame>, more: seq<TrendingGame>)
    requires games <= more
    ensures IdsOf(games) <= IdsOf(more)
  {
    forall id | id in IdsOf(games)
      ensures id in IdsOf(more)
    {
      var a :| 0 <= a < |games| && games[a].game.id == id;
      assert more[a] == games[a];
    }
  }

  /**
   * The list after walking `rows` in order: a row whose game is listed
   * already is skipped; otherwise the walk stops once `limit` games are
   * listed, or lists the row with search count `count`.
   */
  function Listed(games: seq<TrendingGame>, rows: seq<JoinedRow>, count: Option<nat>, limit: nat): seq<TrendingGame>
    decreases |rows|
  {
    if |rows| == 0 then games
    else if rows[0].game.id in IdsOf(games) then Listed(games, rows[1..], count, limit)
    else if |games| >= limit then games
    else Listed(games + [Shown(rows[0], count)], rows[1..], count, limit)
  }

  /** The walk extends the list, keeps it free of repeats, and stays within the limit and one game per row. */
  lemma {:induction false} ListedShape(games: seq<TrendingGame>, rows: seq<JoinedRow>, count: Option<nat>, limit: nat)
    requires DistinctGames(games)
    ensures games <= Listed(games, rows, count, limit)
    ensures DistinctGames(Listed(games, rows, count, limit))
    ensures |Listed(games, rows, count, limit)| <= |games| + |rows|
    ensures |games| <= limit ==> |Listed(games, rows, count, limit)| <= limit
    decreases |rows|
  {
    if |rows| == 0 {
    } else if rows[0].game.id in IdsOf(games) {
      ListedShape(games, rows[1..], count, limit);
    } else if |games| >= limit {
    } else {
      var g := Shown(rows[0], count);
      ListOneMore(games, g);
      ListedShape(games + [g], rows[1..], count, limit);
      assert games <= games + [g];
    }
  }

  /** Every game the walk adds lists one of `rows` with the walk's count. */
  lemma {:induction false} ListedOnlyRows(games: seq<TrendingGame>, rows: seq<JoinedRow>, count: Option<nat>, limit: nat)
    requires DistinctGames(games)
    ensures forall a :: |games| <= a < |Listed(games, rows, count, limit)| ==>
      ListedFrom(Listed(games, rows, count, limit)[a], rows, count)
    decreases |rows|
  {
    if |rows| == 0 {
    } else if rows[0].game.id in IdsOf(games) {
      var r := Listed(games, rows[1..], count, limit);
      ListedOnlyRows(games, rows[1..], count, limit);
      forall a | |games| <= a < |r|
        ensures ListedFrom(r[a], rows, count)
      {
        assert ListedFrom(r[a], rows[1..], count);
        var k :| 0 <= k < |rows[1..]| && r[a] == Shown(rows[1..][k], count);
        assert r[a] == Shown(rows[k + 1], count);
      }
    } else if |games| >= limit {
    } else {
      var g := Shown(rows[0], count);
      ListOneMore(games, g);
      var r := Listed(games + [g], rows[1..], count, limit);
      ListedOnlyRows(games + [g], rows[1..], count, limit);
      ListedShape(games + [g], rows[1..], count, limit);
      forall a | |games| <= a < |r|
        ensures ListedFrom(r[a], rows, count)
      {
        if a == |games| {
          assert r[a] == (games + [g])[a] == g;
        } else {
          assert |games + [g]| <= a;
          assert ListedFrom(r[a], rows[1..], count);
          var k :| 0 <= k < |rows[1..]| && r[a] == Shown(rows[1..][k], count);
          assert r[a] == Shown(rows[k + 1], count);
        }
      }
    }
  }

  /**
   * The walk lists every row's game unless it stopped at the limit: so
   * whenever fewer than `limit` games come out, or the rows cannot fill
   * the list.
   */
  lemma {:induction false} ListedComplete(games: seq<TrendingGame>, rows: seq<JoinedRow>, count: Option<nat>, limit: nat)
    requires DistinctGames(games)
    requires |Listed(games, rows, count, limit)| < limit || |games| + |rows| <= limit
    ensures forall q :: 0 <= q < |rows| ==> rows[q].game.id in IdsOf(Listed(games, rows, count, limit))
    decreases |rows|
  {
    var r := Listed(games, rows, count, limit);
    if |rows| == 0 {
    } else if rows[0].game.id in IdsOf(games) {
      ListedComplete(games, rows[1..], count, limit);
      ListedShape(games, rows[1..], count, limit);
      IdsOfPrefix(games, r);
      CoversRows(rows, IdsOf(r));
    } else if |games| >= limit {
      assert false;
    } else {
      var g := Shown(rows[0], count);
      ListOneMore(games, g);
      ListedComplete(games + [g], rows[1..], count, limit);
      ListedShape(games + [g], rows[1..], count, limit);
      IdsOfPrefix(games + [g], r);
      CoversRows(rows, IdsOf(r));
    }
  }

  /** The first row's game and those of the rest together are all the rows' games. */
  lemma CoversRows(rows: seq<JoinedRow>, ids: set<nat>)
    requires |rows| > 0 && rows[0].game.id in ids
    requires forall q :: 0 <= q < |rows[1..]| ==> rows[1..][q].game.id in ids
    ensures forall q :: 0 <= q < |rows| ==> rows[q].game.id in ids
  {
    forall q | 0 <= q < |rows|
      ensures rows[q].game.id in ids
    {
      if q > 0 { assert rows[q] == rows[1..][q - 1]; }
    }
  }

  /**
   * The inner loop over one trending query's matches: skip a game already
   * listed, stop once `limit` games are listed, otherwise list the row with
   * the query's count.
   */
  method ListMatches(games: seq<TrendingGame>, seen: set<nat>, matching: seq<JoinedRow>, count: Option<nat>, limit: nat)
    returns (games': seq<TrendingGame>, seen': set<nat>)
    requires seen == IdsOf(games) && DistinctGames(games) && |games| <= limit
    ensures seen' == IdsOf(games') && DistinctGames(games') && |games'| <= limit
    ensures games <= games'
    ensures forall a :: |games| <= a < |games'| ==> ListedFrom(games'[a], matching, count)
    ensures games' == Listed(games, matching, count, limit)
  {
    games', seen' := games, seen;
    var j := 0;
    while j < |matching|
      invariant j <= |matching| && |games'| <= limit && games <= games'
      invariant seen' == IdsOf(games') && DistinctGames(games')
      invariant forall a :: |games| <= a < |games'| ==> ListedFrom(games'[a], matching, count)
      invariant Listed(games', matching[j..], count, limit) == Listed(games, matching, count, limit)
    {
      var m := matching[j];
      assert matching[j..][1..] == matching[j + 1..];
      if m.game.id in seen' {
        j := j + 1;
        continue;
      }
      if |games'| >= limit {
        break;
      }
      ListOneMore(games', Shown(m, count));
      games' := games' + [Shown(m, count)];
      seen' := seen' + {m.game.id};
      j := j + 1;
    }
  }

  /**
   * The back-fill loop: list every row whose game is not listed yet.  The
   * loop has no limit check; the ghost `limit` is the bound the request's
   * size already respects.
   */
  method ListRecent(games: seq<TrendingGame>, seen: set<nat>, recent: seq<JoinedRow>, ghost limit: nat)
    returns (games': seq<TrendingGame>, seen': set<nat>)
    requires seen == IdsOf(games) && DistinctGames(games)
    requires |games| + |recent| <= limit
    ensures seen' == IdsOf(games') && DistinctGames(games')
    ensures games <= games' && |games'| <= |games| + |recent|
    ensures forall a :: |games| <= a < |games'| ==> ListedFrom(games'[a], recent, None)
    ensures games' == Listed(games, recent, None, limit)
  {
    games', seen' := games, seen;
    var k := 0;
    while k < |recent|
      invariant k <= |recent| && |games'| <= |games| + k && games <= games'
      invariant seen' == IdsOf(games') && DistinctGames(games')
      invariant forall a :: |games| <= a < |games'| ==> ListedFrom(games'[a], recent, None)
      invariant Listed(games', recent[k..], None, limit) == Listed(games, recent, None, limit)
    {
      var m := recent[k];
      assert recent[k..][1..] == recent[k + 1..];
      if m.game.id in seen' {
        k := k + 1;
        continue;
      }
      ListOneMore(games', Shown(m, None));
      games' := games' + [Shown(m, None)];
      seen' := seen' + {m.game.id};
      k := k + 1;
    }
  }

  /**
   * The search phase of getTrending: for each trending query in turn,
   * unless `limit` games are listed already, walk its first three matches.
   */
  function SearchPhase(games: seq<TrendingGame>, searches: seq<SearchRow>, matchesOf: string -> seq<JoinedRow>, limit: nat): seq<TrendingGame>
    decreases |searches|
  {
    if |searches| == 0 || |games| >= limit then games
    else SearchPhase(Listed(games, Take(matchesOf(searches[0].query), MatchesPerSearch), Some(searches[0].searchCount), limit),
                     searches[1..], matchesOf, limit)
  }

  /**
   * The back-fill of getTrending: when the list has room, walk the request
   * for as many recently updated rows as are missing.  That walk has no
   * limit check of its own; the request's size keeps it from reaching the
   * limit, so it is the walk with the limit.
   */
  function WithBackfill(listed: seq<TrendingGame>, threshold: int, limit: nat, recentSince: (int, nat) -> seq<JoinedRow>): seq<TrendingGame> {
    if |listed| < limit then
      Listed(listed, Take(recentSince(threshold, limit - |listed|), limit - |listed|), None, limit)
    else listed
  }

  /** The trending list: the search phase, then the back-fill. */
  function TrendingGames(byCount: seq<SearchRow>, timeframe: Timeframe, limit: nat, now: int,
                         matchesOf: string -> seq<JoinedRow>, recentSince: (int, nat) -> seq<JoinedRow>): seq<TrendingGame>
  {
    var threshold := Threshold(now, timeframe);
    WithBackfill(SearchPhase([], TrendingSearches(byCount, threshold, limit), matchesOf, limit), threshold, limit, recentSince)
  }

  /** The search phase extends the list, keeps it free of repeats and within the limit. */
  lemma {:induction false} SearchPhaseShape(games: seq<TrendingGame>, searches: seq<SearchRow>, matchesOf: string -> seq<JoinedRow>, limit: nat)
    requires DistinctGames(games)
    ensures games <= SearchPhase(games, searches, matchesOf, limit)
    ensures DistinctGames(SearchPhase(games, searches, matchesOf, limit))
    ensures |games| <= limit ==> |SearchPhase(games, searches, matchesOf, limit)| <= limit
    decreases |searches|
  {
    if |searches| == 0 || |games| >= limit {
    } else {
      var rows := Take(matchesOf(searches[0].query), MatchesPerSearch);
      var next := Listed(games, rows, Some(searches[0].searchCount), limit);
      ListedShape(games, rows, Some(searches[0].searchCount), limit);
      SearchPhaseShape(next, searches[1..], matchesOf, limit);
    }
  }

  /**
   * When the search phase leaves room, it listed the game of each of the
   * first three matches of every trending query.
   */
  lemma {:induction false} SearchPhaseComplete(games: seq<TrendingGame>, searches: seq<SearchRow>, matchesOf: string -> seq<JoinedRow>, limit: nat)
    requires DistinctGames(games)
    requires |SearchPhase(games, searches, matchesOf, limit)| < limit
    ensures forall s, k :: 0 <= s < |searches| && 0 <= k < |matchesOf(searches[s].query)| && k < MatchesPerSearch ==>
      matchesOf(searches[s].query)[k].game.id in IdsOf(SearchPhase(games, searches, matchesOf, limit))
    decreases |searches|
  {
    if |searches| == 0 {
    } else if |games| >= limit {
      assert false;
    } else {
      var rows := Take(matchesOf(searches[0].query), MatchesPerSearch);
      var count := Some(searches[0].searchCount);
      var next := Listed(games, rows, count, limit);
      var r := SearchPhase(next, searches[1..], matchesOf, limit);
      ListedShape(games, rows, count, limit);
      SearchPhaseShape(next, searches[1..], matchesOf, limit);
      ListedComplete(games, rows, count, limit);
      IdsOfPrefix(next, r);
      SearchPhaseComplete(next, searches[1..], matchesOf, limit);
      forall s, k | 0 <= s < |searches| && 0 <= k < |matchesOf(searches[s].query)| && k < MatchesPerSearch
        ensures matchesOf(searches[s].query)[k].game.id in IdsOf(r)
      {
        if s == 0 {
          assert rows[k] == matchesOf(searches[0].query)[k];
        } else {
          assert searches[s] == searches[1..][s - 1];
        }
      }
    }
  }

  /**
   * The back-fill keeps the list free of repeats and within the limit, and
   * lists the game of every row of the request for the missing number.
   */
  lemma BackfillComplete(listed: seq<TrendingGame>, threshold: int, limit: nat, recentSince: (int, nat) -> seq<JoinedRow>, want: nat)
    requires DistinctGames(listed) && |listed| < limit && want == limit - |listed|
    ensures listed <= WithBackfill(listed, threshold, limit, recentSince)
    ensures DistinctGames(WithBackfill(listed, threshold, limit, recentSince))
    ensures |WithBackfill(listed, threshold, limit, recentSince)| <= limit
    ensures forall k :: 0 <= k < |recentSince(threshold, want)| && k < want ==>
      recentSince(threshold, want)[k].game.id in IdsOf(WithBackfill(listed, threshold, limit, recentSince))
  {
    var recent := Take(recentSince(threshold, want), want);
    var r := Listed(listed, recent, None, limit);
    assert WithBackfill(listed, threshold, limit, recentSince) == r;
    ListedShape(listed, recent, None, limit);
    ListedComplete(listed, recent, None, limit);
    forall k | 0 <= k < |recentSince(threshold, want)| && k < want
      ensures recentSince(threshold, want)[k].game.id in IdsOf(r)
    {
      assert recent[k] == recentSince(threshold, want)[k];
    }
  }

  /**
   * The trending list is free of repeats and within the limit; when the
   * search phase left room, it holds the game of each of the first three
   * matches of every trending query and of every row of the back-fill
   * request for the missing number of games.
   */
  lemma TrendingComplete(byCount: seq<SearchRow>, timeframe: Timeframe, limit: nat, now: int,
                         matchesOf: string -> seq<JoinedRow>, recentSince: (int, nat) -> seq<JoinedRow>,
                         searches: seq<SearchRow>, listed: seq<TrendingGame>, want: nat)
    requires searches == TrendingSearches(byCount, Threshold(now, timeframe), limit)
    requires listed == SearchPhase([], searches, matchesOf, limit)
    requires |listed| < limit && want == limit - |listed|
    ensures DistinctGames(TrendingGames(byCount, timeframe, limit, now, matchesOf, recentSince))
    ensures |TrendingGames(byCount, timeframe, limit, now, matchesOf, recentSince)| <= limit
    ensures forall s, k :: 0 <= s < |searches| && 0 <= k < |matchesOf(searches[s].query)| && k < MatchesPerSearch ==>
      matchesOf(searches[s].query)[k].game.id in IdsOf(TrendingGames(byCount, timeframe, limit, now, matchesOf, recentSince))
    ensures forall k :: 0 <= k < |recentSince(Threshold(now, timeframe), want)| && k < want ==>
      recentSince(Threshold(now, timeframe), want)[k].game.id in IdsOf(TrendingGames(byCount, timeframe, limit, now, matchesOf, recentSince))
  {
    var r := WithBackfill(listed, Threshold(now, timeframe), limit, recentSince);
    assert TrendingGames(byCount, timeframe, limit, now, matchesOf, recentSince) == r;
    SearchPhaseShape([], searches, matchesOf, limit);
    SearchPhaseComplete([], searches, matchesOf, limit);
    BackfillComplete(listed, Threshold(now, timeframe), limit, recentSince, want);
    IdsOfPrefix(listed, r);
  }

  /**
   * The search phase of getTrending: for each trending query in turn,
   * unless `limit` games are listed already, list the unseen games among its
   * first three matches.
   */
  method ListSearchMatches(searches: seq<SearchRow>, limit: nat, matchesOf: string -> seq<JoinedRow>)
    returns (games: seq<TrendingGame>, seen: set<nat>)
    ensures games == SearchPhase([], searches, matchesOf, limit)
    ensures seen == IdsOf(games) && DistinctGames(games) && |games| <= limit
    ensures forall g :: g in games ==> FromSearch(g, searches, matchesOf)
  {
    games, seen := [], {};
    var i := 0;
    while i < |searches|
      invariant i <= |searches| && |games| <= limit
      invariant seen == IdsOf(games) && DistinctGames(games)
      invariant forall g :: g in games ==> FromSearch(g, searches, matchesOf)
      invariant SearchPhase(games, searches[i..], matchesOf, limit) == SearchPhase([], searches, matchesOf, limit)
    {
      if |games| >= limit {
        break;
      }
      var search := searches[i];
      assert searches[i..][1..] == searches[i + 1..];
      ghost var before := games;
      games, seen := ListMatches(games, seen, Take(matchesOf(search.query), MatchesPerSearch), Some(search.searchCount), limit);
      forall g | g in games
        ensures FromSearch(g, searches, matchesOf)
      {
        var a :| 0 <= a < |games| && games[a] == g;
        if a >= |before| {
          var k :| 0 <= k < |Take(matchesOf(search.query), MatchesPerSearch)|
            && g == Shown(Take(matchesOf(search.query), MatchesPerSearch)[k], Some(search.searchCount));
          assert g == Shown(matchesOf(searches[i].query)[k], Some(searches[i].searchCount));
        } else {
          assert g in before;
        }
      }
      i := i + 1;
    }
    assert i == |searches| || |games| >= limit;
  }

  /**
   * The back-fill phase of getTrending: when the list has room, ask for as
   * many recently updated rows as are missing and list the unseen ones.
   */
  method ListBackfill(games: seq<TrendingGame>, seen: set<nat>, threshold: int, limit: nat, recentSince: (int, nat) -> seq<JoinedRow>)
    returns (games': seq<TrendingGame>, seen': set<nat>)
    requires seen == IdsOf(games) && DistinctGames(games) && |games| <= limit
    ensures games' == WithBackfill(games, threshold, limit, recentSince)
    ensures seen' == IdsOf(games') && DistinctGames(games') && |games'| <= limit
    ensures forall g :: g in games' ==> g in games || FromRecent(g, threshold, limit, recentSince)
  {
    games', seen' := games, seen;
    if |games| < limit {
      var want := limit - |games|;
      var recent := Take(recentSince(threshold, want), want);
      assert |games| + |recent| <= limit;
      assert WithBackfill(games, threshold, limit, recentSince) == Listed(games, recent, None, limit);
      games', seen' := ListRecent(games, seen, recent, limit);
      BackfillSources(games, games', threshold, limit, recentSince, want, recent);
    }
  }

  /** A game listed from the back-fill request for `want` rows, `want` at most `limit`, comes from the recent rows. */
  lemma BackfillRowFromRecent(g: TrendingGame, threshold: int, limit: nat, recentSince: (int, nat) -> seq<JoinedRow>,
                              want: nat, recent: seq<JoinedRow>)
    requires want <= limit && recent == Take(recentSince(threshold, want), want) && ListedFrom(g, recent, None)
    ensures FromRecent(g, threshold, limit, recentSince)
  {
    var k :| 0 <= k < |recent| && g == Shown(recent[k], None);
    assert recent[k] == recentSince(threshold, want)[k];
  }

  /** Every game of the back-filled list was listed before or comes from the recent rows. */
  lemma BackfillSources(games: seq<TrendingGame>, games': seq<TrendingGame>, threshold: int, limit: nat,
                        recentSince: (int, nat) -> seq<JoinedRow>, want: nat, recent: seq<JoinedRow>)
    requires want <= limit && recent == Take(recentSince(threshold, want), want)
    requires games <= games'
    requires forall a :: |games| <= a < |games'| ==> ListedFrom(games'[a], recent, None)
    ensures forall g :: g in games' ==> g in games || FromRecent(g, threshold, limit, recentSince)
  {
    forall g | g in games'
      ensures g in games || FromRecent(g, threshold, limit, recentSince)
    {
      var a :| 0 <= a < |games'| && games'[a] == g;
      if a >= |games| {
        BackfillRowFromRecent(g, threshold, limit, recentSince, want, recent);
      } else {
        assert games'[a] == games[a];
      }
    }
  }

  /** The trending list is the back-fill of the search phase's list. */
  lemma TrendingGamesUnfold(byCount: seq<SearchRow>, timeframe: Timeframe, limit: nat, now: int,
                            matchesOf: string -> seq<JoinedRow>, recentSince: (int, nat) -> seq<JoinedRow>, listed: seq<TrendingGame>)
    requires listed == SearchPhase([], TrendingSearches(byCount, Threshold(now, timeframe), limit), matchesOf, limit)
    ensures TrendingGames(byCount, timeframe, limit, now, matchesOf, recentSince) == WithBackfill(listed, Threshold(now, timeframe), limit, recentSince)
  {
  }

  /**
   * The trending list.  `byCount` is the popular-searches table in
   * descending order of count, `matchesOf(q)` the games rows whose name
   * contains q (joined to their offers), and `recentSince(t, n)` the rows
   * whose offer was updated at or after t, newest first, of which the
   * first n are asked for.
   */
  method GetTrending(byCount: seq<SearchRow>, timeframe: Timeframe, limit: nat, now: int,
                     matchesOf: string -> seq<JoinedRow>, recentSince: (int, nat) -> seq<JoinedRow>)
    returns (result: TrendingResult)
    ensures result.timeframe == timeframe && result.count == |result.games| <= limit
    ensures DistinctGames(result.games)
    ensures forall g :: g in result.games ==>
      FromSearch(g, TrendingSearches(byCount, Threshold(now, timeframe), limit), matchesOf)
      || FromRecent(g, Threshold(now, timeframe), limit, recentSince)
    ensures result.games == TrendingGames(byCount, timeframe, limit, now, matchesOf, recentSince)
  {
    var threshold := Threshold(now, timeframe);
    var searches := TrendingSearches(byCount, threshold, limit);
    var games, seen := ListSearchMatches(searches, limit, matchesOf);
    TrendingGamesUnfold(byCount, timeframe, limit, now, matchesOf, recentSince, games);
    ghost var listed := games;
    games, seen := ListBackfill(games, seen, threshold, limit, recentSince);
    forall g | g in games
      ensures FromSearch(g, searches, matchesOf) || FromRecent(g, threshold, limit, recentSince)
    {
      if g !in listed {
        assert FromRecent(g, threshold, limit, recentSince);
      }
    }
    result := TrendingResult(timeframe, games, |games|);
  }

  // ---------------------------------------------------------------------
  // Autocomplete

  /**
   * One suggestion loop: walk `candidates` in order, stop once `limit`
   * suggestions are held, and skip what is already suggested.
   */
  function Absorb(acc: seq<string>, candidates: seq<string>, limit: nat): seq<string>
    decreases |candidates|
  {
    if |candidates| == 0 || |acc| >= limit then acc
    else if candidates[0] in acc then Absorb(acc, candidates[1..], limit)
    else Absorb(acc + [candidates[0]], candidates[1..], limit)
  }

  /**
   * What a suggestion loop promises: it only extends what it was given,
   * adds candidates only, stays distinct and within the limit, and takes
   * every candidate unless the limit was reached.
   */
  lemma {:induction false} AbsorbProperties(acc: seq<string>, candidates: seq<string>, limit: nat)
    requires NoDuplicates(acc)
    ensures acc <= Absorb(acc, candidates, limit)
    ensures NoDuplicates(Absorb(acc, candidates, limit))
    ensures |acc| <= limit ==> |Absorb(acc, candidates, limit)| <= limit
    ensures forall s :: s in Absorb(acc, candidates, limit) ==> s in acc || s in candidates
    ensures |Absorb(acc, candidates, limit)| < limit ==>
      forall c :: c in candidates ==> c in Absorb(acc, candidates, limit)
    decreases |candidates|
  {
    if |candidates| == 0 || |acc| >= limit {
    } else if candidates[0] in acc {
      AbsorbProperties(acc, candidates[1..], limit);
    } else {
      AbsorbProperties(acc + [candidates[0]], candidates[1..], limit);
      assert (acc + [candidates[0]])[|acc|] == candidates[0];
    }
  }

  /**
   * The suggestions for a query: `gameNames` are the names of the matching
   * games and `searchQueries` the matching popular queries by descending
   * count, each source capped at five rows by the database.
   */
  method GetAutoCompleteSuggestions(limit: nat, gameNames: seq<string>, searchQueries: seq<string>)
    returns (suggestions: seq<string>)
    ensures suggestions == Absorb(Absorb([], Take(gameNames, SuggestionsPerSource), limit),
                                  Take(searchQueries, SuggestionsPerSource), limit)
  {
    suggestions := [];
    var names := Take(gameNames, SuggestionsPerSource);
    var i := 0;
    while i < |names|
      invariant i <= |names|
      invariant Absorb(suggestions, names[i..], limit) == Absorb([], names, limit)
    {
      if |suggestions| >= limit {
        break;
      }
      assert names[i..][1..] == names[i + 1..];
      if names[i] !in suggestions {
        suggestions := suggestions + [names[i]];
      }
      i := i + 1;
    }
    var queries := Take(searchQueries, SuggestionsPerSource);
    ghost var fromNames := suggestions;
    var j := 0;
    while j < |queries|
      invariant j <= |queries|
      invariant Absorb(suggestions, queries[j..], limit) == Absorb(fromNames, queries, limit)
    {
      if |suggestions| >= limit {
        break;
      }
      assert queries[j..][1..] == queries[j + 1..];
      if queries[j] !in suggestions {
        suggestions := suggestions + [queries[j]];
      }
      j := j + 1;
    }
  }

  /**
   * The suggestions are distinct, at most `limit`, game names before
   * queries, and every fetched name and query is suggested unless the
   * limit was reached.
   */
  lemma SuggestionsShape(limit: nat, gameNames: seq<string>, searchQueries: seq<string>)
    ensures var names := Take(gameNames, SuggestionsPerSource);
      var queries := Take(searchQueries, SuggestionsPerSource);
      var all := Absorb(Absorb([], names, limit), queries, limit);
      && NoDuplicates(all) && |all| <= limit
      && Absorb([], names, limit) <= all
      && (forall s :: s in Absorb([], names, limit) ==> s in names)
      && (forall s :: s in all ==> s in names || s in queries)
      && (|all| < limit ==> (forall c :: c in names ==> c in all) && (forall c :: c in queries ==> c in all))
  {
    var names := Take(gameNames, SuggestionsPerSource);
    var queries := Take(searchQueries, SuggestionsPerSource);
    AbsorbProperties([], names, limit);
    AbsorbProperties(Absorb([], names, limit), queries, limit);
  }
}
