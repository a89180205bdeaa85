/** The watchlist panel (`WatchlistPanel`): each watched id looked up in the
    market list (live data or the fallback), ids without a market dropped,
    and the choice between skeleton, hint and list. */
module WatchlistPanel {
  import opened Common
  import opened Coingecko
  import opened Fallback
  import opened Watchlist

  /** `items.map((item) => markets.find(...)).filter(Boolean)`. */
  function PanelItems(items: seq<WatchlistItem>, markets: seq<Market>): (r: seq<Market>)
    ensures |r| <= |items|
    ensures forall k :: 0 <= k < |r| ==> FindById(markets, r[k].id) == Some(r[k])
  {
    if |items| == 0 then []
    else
      var rest := PanelItems(items[1..], markets);
      match FindById(markets, items[0].id)
      case Some(m) =>
        assert items[0].id == m.id;
        [m] + rest
      case None => rest
  }

  /** The watched items whose id has a market, in watchlist order. */
  function FoundItems(items: seq<WatchlistItem>, markets: seq<Market>): (r: seq<WatchlistItem>)
    ensures Subsequence(r, items)
    ensures forall x :: x in r <==> x in items && FindById(markets, x.id).Some?
  {
    if |items| == 0 then []
    else
      var rest := FoundItems(items[1..], markets);
      assert items == [items[0]] + items[1..];
      if FindById(markets, items[0].id).Some? then
        assert ([items[0]] + rest)[1..] == rest;
        [items[0]] + rest
      else
        SubsequenceOfTail(rest, items);
        rest
  }

  /** The panel holds one market per found watched item, in the same order:
      the market that the item's id finds. */
  lemma {:induction false} PanelFollowsFoundItems(items: seq<WatchlistItem>, markets: seq<Market>)
    ensures var r := PanelItems(items, markets); var found := FoundItems(items, markets);
      && |r| == |found|
      && forall k :: 0 <= k < |r| ==> r[k].id == found[k].id && Some(r[k]) == FindById(markets, found[k].id)
  {
    if |items| > 0 {
      PanelFollowsFoundItems(items[1..], markets);
      var rest := PanelItems(items[1..], markets);
      var restFound := FoundItems(items[1..], markets);
      var head := FindById(markets, items[0].id);
      if head.Some? {
        assert PanelItems(items, markets) == [head.value] + rest;
        assert FoundItems(items, markets) == [items[0]] + restFound;
      } else {
        assert PanelItems(items, markets) == rest;
        assert FoundItems(items, markets) == restFound;
      }
    }
  }

  /** Every panel item belongs to a watched id. */
  lemma {:induction false} PanelItemsAreWatched(items: seq<WatchlistItem>, markets: seq<Market>)
    ensures forall m :: m in PanelItems(items, markets) ==> HasId(items, m.id)
  {
    if |items| > 0 {
      var rest := PanelItems(items[1..], markets);
      PanelItemsAreWatched(items[1..], markets);
      forall m | m in rest ensures HasId(items, m.id) {
        var i :| 0 <= i < |items[1..]| && items[1..][i].id == m.id;
        assert items[i + 1].id == m.id;
      }
      var head := FindById(markets, items[0].id);
      if head.Some? {
        assert PanelItems(items, markets) == [head.value] + rest;
        assert head.value.id == items[0].id;
      }
    }
  }

  /** Every watched id that has a market shows up in the panel. */
  lemma {:induction false} FoundIdsAreShown(items: seq<WatchlistItem>, markets: seq<Market>, k: nat)
    requires k < |items| && FindById(markets, items[k].id).Some?
    ensures FindById(markets, items[k].id).value in PanelItems(items, markets)
  {
    var rest := PanelItems(items[1..], markets);
    var head := FindById(markets, items[0].id);
    var r := PanelItems(items, markets);
    if k == 0 {
      assert r == [head.value] + rest;
      assert r[0] == head.value;
    } else {
      assert items[1..][k - 1] == items[k];
      FoundIdsAreShown(items[1..], markets, k - 1);
      if head.Some? {
        assert r == [head.value] + rest;
      } else {
        assert r == rest;
      }
    }
  }

  /** When every watched id has a market, the panel lists them one for one,
      in watchlist order. */
  lemma {:induction false} AllFoundFollowsWatchlistOrder(items: seq<WatchlistItem>, markets: seq<Market>)
    requires forall k :: 0 <= k < |items| ==> FindById(markets, items[k].id).Some?
    ensures var r := PanelItems(items, markets);
      |r| == |items| && forall k :: 0 <= k < |items| ==> r[k].id == items[k].id
  {
    if |items| > 0 {
      AllFoundFollowsWatchlistOrder(items[1..], markets);
    }
  }

  datatype PanelView = PanelSkeleton | AddAssetsHint | PanelList(markets: seq<Market>)

  function ViewOf(isLoading: bool, shown: seq<Market>): PanelView {
    if isLoading then PanelSkeleton
    else if |shown| == 0 then AddAssetsHint
    else PanelList(shown)
  }

  /** The panel as rendered from the store and the query: an empty watchlist
      always ends in the hint once loading is over. */
  lemma EmptyWatchlistShowsHint(live: Option<seq<Market>>, fallback: seq<Market>)
    ensures ViewOf(false, PanelItems([], Source(live, fallback))) == AddAssetsHint
    ensures ViewOf(true, PanelItems([], Source(live, fallback))) == PanelSkeleton
  {
  }
}
