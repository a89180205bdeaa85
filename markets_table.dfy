/** The markets table (`MarketsTable`): rows from live data or the fallback,
    sorted in descending order by the chosen column, optionally cut to the
    top ten; the choice between skeleton, retry prompt, empty message and
    table (with a cached-data warning on error); and the watch button. */
module MarketsTable {
  import opened Common
  import opened Sorting
  import opened Coingecko
  import opened Fallback
  import opened Watchlist

  datatype SortKey = Price | Change24h | MarketCap

  const DefaultSortKey := MarketCap
  const TopCount := 10

  /** The column each comparator of `sorters` subtracts. */
  function SortValue(key: SortKey, m: Market): real {
    match key
    case Price => m.currentPrice
    case Change24h => m.priceChangePercentage24h
    case MarketCap => m.marketCap
  }

  function ColumnOf(key: SortKey): Market -> real {
    m => SortValue(key, m)
  }

  /** The `markets` memo: a sorted copy of the source, then the top-ten cut. */
  function Rows(live: Option<seq<Market>>, fallback: seq<Market>, key: SortKey, onlyTop10: bool): seq<Market> {
    var sorted := Sort(Source(live, fallback), ByKeyDesc(ColumnOf(key)));
    if onlyTop10 then Take(sorted, TopCount) else sorted
  }

  /** All rows: every source market exactly once, the chosen column never
      increasing. With the top-ten cut: the first `min(10, n)` of those rows. */
  lemma RowsSortedDescending(live: Option<seq<Market>>, fallback: seq<Market>, key: SortKey, onlyTop10: bool)
    ensures var src := Source(live, fallback);
      var all := Rows(live, fallback, key, false);
      var rows := Rows(live, fallback, key, onlyTop10);
      && multiset(all) == multiset(src)
      && (forall i, j :: 0 <= i < j < |rows| ==> SortValue(key, rows[i]) >= SortValue(key, rows[j]))
      && (!onlyTop10 ==> rows == all)
      && (onlyTop10 ==> |rows| == (if |src| < TopCount then |src| else TopCount) && rows == all[..|rows|])
  {
    var src := Source(live, fallback);
    SortByKeyDesc(src, ColumnOf(key));
    var all := Rows(live, fallback, key, false);
    var rows := Rows(live, fallback, key, onlyTop10);
    forall i, j | 0 <= i < j < |rows| ensures SortValue(key, rows[i]) >= SortValue(key, rows[j]) {
      assert rows[i] == all[i] && rows[j] == all[j];
      assert ColumnOf(key)(all[i]) >= ColumnOf(key)(all[j]);
    }
  }

  // ---------------------------------------------------------------------------
  // Branch selection

  datatype TableView =
    | LoadingSkeleton
    | RetryPrompt
    | NoData
    | Table(rows: seq<Market>, cachedWarning: bool)

  function ViewOf(isLoading: bool, isError: bool, rows: seq<Market>): TableView {
    if isLoading then LoadingSkeleton
    else if isError && |rows| == 0 then RetryPrompt
    else if |rows| == 0 then NoData
    else Table(rows, isError && |rows| > 0)
  }

  /** Loading wins; an error with no rows offers a retry; rows are always
      shown when there are any, with the warning exactly when the query failed. */
  lemma ViewBranches(isLoading: bool, isError: bool, rows: seq<Market>)
    ensures isLoading <==> ViewOf(isLoading, isError, rows) == LoadingSkeleton
    ensures ViewOf(isLoading, isError, rows) == RetryPrompt <==> !isLoading && isError && |rows| == 0
    ensures !isLoading && |rows| > 0 ==> ViewOf(isLoading, isError, rows) == Table(rows, isError)
  {
  }

  /** A failed request with no earlier data still shows the fallback rows,
      with the cached-data warning: every fallback market appears when the
      top-ten cut is off. */
  lemma FailedRequestShowsFallback(fallback: seq<Market>, key: SortKey, onlyTop10: bool, m: Market)
    requires |fallback| > 0
    ensures var rows := Rows(None, fallback, key, onlyTop10);
      && ViewOf(false, true, rows) == Table(rows, true)
      && (!onlyTop10 && m in fallback ==> m in rows)
  {
    RowsSortedDescending(None, fallback, key, onlyTop10);
    var rows := Rows(None, fallback, key, onlyTop10);
    assert |rows| > 0;
    if !onlyTop10 && m in fallback {
      assert m in multiset(fallback);
      assert m in multiset(rows);
    }
  }

  // ---------------------------------------------------------------------------
  // The watch button

  /** `watchlist.items.some((item) => item.id === market.id)`. */
  predicate IsWatched(items: seq<WatchlistItem>, id: string) {
    HasId(items, id)
  }

  /** The button removes a watched market and adds an unwatched one, so each
      press flips whether the row is watched. */
  method ToggleWatch(store: WatchlistStore, m: Market)
    requires store.Valid()
    modifies store
    ensures store.Valid()
    ensures IsWatched(old(store.items), m.id) ==> store.items == RemoveId(old(store.items), m.id)
    ensures !IsWatched(old(store.items), m.id) ==>
      store.items == AddItem(old(store.items), WatchlistItem(m.id, m.symbol, m.name))
    ensures IsWatched(store.items, m.id) <==> !IsWatched(old(store.items), m.id)
  {
    if IsWatched(store.items, m.id) {
      store.Remove(m.id);
    } else {
      store.Add(WatchlistItem(m.id, m.symbol, m.name));
    }
  }
}
