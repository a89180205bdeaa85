/** The fallback rule shared by the table, the watchlist panel, the search bar
    and the coin page: the live market list when the query has produced one,
    otherwise the bundled demo list. The demo list is not part of this model;
    every member takes it as the parameter `fallback`. */
module Fallback {
  import opened Common
  import opened Coingecko

  /** `Array.isArray(data) ? data : demoMarkets`, and equally `data ?? demoMarkets`:
      a query result is either a list or absent. */
  function Source(live: Option<seq<Market>>, fallback: seq<Market>): seq<Market> {
    live.GetOr(fallback)
  }

  /** `markets.find((m) => m.id === id)`: the first market with that id. */
  function FindById(markets: seq<Market>, id: string): (r: Option<Market>)
    ensures r.Some? ==> exists i :: FirstWithId(markets, id, i) && markets[i] == r.value
    ensures r.None? <==> forall k :: 0 <= k < |markets| ==> markets[k].id != id
  {
    if |markets| == 0 then None
    else if markets[0].id == id then
      assert FirstWithId(markets, id, 0);
      Some(markets[0])
    else
      var r := FindById(markets[1..], id);
      if r.Some? then
        var i :| FirstWithId(markets[1..], id, i) && markets[1..][i] == r.value;
        assert FirstWithId(markets, id, i + 1);
        r
      else r
  }

  /** `markets[i]` carries `id` and no earlier market does. */
  predicate FirstWithId(markets: seq<Market>, id: string, i: int) {
    && 0 <= i < |markets| && markets[i].id == id
    && forall j :: 0 <= j < i ==> markets[j].id != id
  }

  /** Live data always wins; without it the fallback is used in full. */
  lemma SourceChoice(live: Option<seq<Market>>, fallback: seq<Market>, id: string)
    ensures live.Some? ==> Source(live, fallback) == live.value
    ensures live.None? ==> FindById(Source(live, fallback), id) == FindById(fallback, id)
    ensures live == Some([]) ==> FindById(Source(live, fallback), id).None?
  {
  }
}
