/** The live-trades panel (`LiveTicker`): the hook's updates newest first,
    the first six turned into cards whose percentage change is measured
    against the price the panel recorded for the symbol last time, and the
    choice between a skeleton, a waiting message and the cards. */
module LiveTicker {
  import opened Common
  import opened Sorting
  import opened BinanceWs
  import opened BinanceTicker

  const MaxEntries := 6

  function EventTime(u: TickerUpdate): real {
    u.eventTime as real
  }

  /** `Object.values(data).sort((a, b) => b.eventTime - a.eventTime)`. */
  function Updates(tickers: seq<TickerUpdate>): seq<TickerUpdate> {
    Sort(tickers, ByKeyDesc(EventTime))
  }

  /** The updates are every stored update, most recent event first. */
  lemma UpdatesNewestFirst(tickers: seq<TickerUpdate>)
    ensures multiset(Updates(tickers)) == multiset(tickers)
    ensures forall i, j :: 0 <= i < j < |tickers| ==> Updates(tickers)[i].eventTime >= Updates(tickers)[j].eventTime
  {
    SortByKeyDesc(tickers, EventTime);
    var r := Updates(tickers);
    forall i, j | 0 <= i < j < |tickers| ensures r[i].eventTime >= r[j].eventTime {
      assert EventTime(r[i]) >= EventTime(r[j]);
    }
  }

  // ---------------------------------------------------------------------------
  // Cards and the previous-price table

  datatype Entry = Entry(symbol: string, price: real, changePct: real, quantity: real, updatedAt: int)

  /** Percentage change of `u` against the price last recorded for its symbol;
      with no record the update is compared with itself, and a recorded price
      of zero gives zero. */
  function ChangePct(previous: map<string, real>, u: TickerUpdate): real {
    var p := if u.symbol in previous then previous[u.symbol] else u.price;
    if p != 0.0 then (u.price - p) / p * 100.0 else 0.0
  }

  function MakeEntry(previous: map<string, real>, u: TickerUpdate): Entry {
    Entry(u.symbol, u.price, ChangePct(previous, u), u.quantity, u.eventTime)
  }

  datatype Projection = Projection(previous: map<string, real>, entries: seq<Entry>)

  /** The `map` callback applied to `shown` from left to right: each update
      is measured against the table as the earlier ones left it, then records
      its own price. */
  function Project(previous: map<string, real>, shown: seq<TickerUpdate>): Projection
    decreases |shown|
  {
    if |shown| == 0 then Projection(previous, [])
    else
      var before := Project(previous, shown[..|shown| - 1]);
      var u := shown[|shown| - 1];
      Projection(before.previous[u.symbol := u.price], before.entries + [MakeEntry(before.previous, u)])
  }

  /** One card per shown update, in the same order, carrying its symbol,
      price, quantity and event time. */
  lemma {:induction false} ProjectShape(previous: map<string, real>, shown: seq<TickerUpdate>)
    ensures var es := Project(previous, shown).entries;
      && |es| == |shown|
      && forall k :: 0 <= k < |shown| ==>
           && es[k].symbol == shown[k].symbol && es[k].price == shown[k].price
           && es[k].quantity == shown[k].quantity && es[k].updatedAt == shown[k].eventTime
    decreases |shown|
  {
    if |shown| > 0 {
      ProjectShape(previous, shown[..|shown| - 1]);
    }
  }

  /** `shown[k]` is the last shown update for `symbol`. */
  predicate LastOccurrence(shown: seq<TickerUpdate>, k: int, symbol: string) {
    && 0 <= k < |shown| && shown[k].symbol == symbol
    && forall m :: k < m < |shown| ==> shown[m].symbol != symbol
  }

  /** Afterwards the table has a record for every symbol it had before and
      every shown symbol, and for nothing else: nothing is ever removed. */
  lemma {:induction false} ProjectTableKeys(previous: map<string, real>, shown: seq<TickerUpdate>, symbol: string)
    ensures symbol in Project(previous, shown).previous <==>
      symbol in previous || exists k :: 0 <= k < |shown| && shown[k].symbol == symbol
    decreases |shown|
  {
    if |shown| > 0 {
      var init := shown[..|shown| - 1];
      var u := shown[|shown| - 1];
      ProjectTableKeys(previous, init, symbol);
      if symbol == u.symbol {
        assert shown[|shown| - 1].symbol == symbol;
      } else {
        if exists k :: 0 <= k < |shown| && shown[k].symbol == symbol {
          var k :| 0 <= k < |shown| && shown[k].symbol == symbol;
          assert init[k] == shown[k];
        }
        if exists k :: 0 <= k < |init| && init[k].symbol == symbol {
          var k :| 0 <= k < |init| && init[k].symbol == symbol;
          assert shown[k] == init[k];
        }
      }
    }
  }

  /** A symbol that is not shown keeps its record. */
  lemma {:induction false} ProjectTableUntouched(previous: map<string, real>, shown: seq<TickerUpdate>, symbol: string)
    requires symbol in previous
    requires forall k :: 0 <= k < |shown| ==> shown[k].symbol != symbol
    ensures symbol in Project(previous, shown).previous
    ensures Project(previous, shown).previous[symbol] == previous[symbol]
    decreases |shown|
  {
    if |shown| > 0 {
      var init := shown[..|shown| - 1];
      assert forall k :: 0 <= k < |init| ==> init[k] == shown[k];
      ProjectTableUntouched(previous, init, symbol);
    }
  }

  /** A shown symbol's record is the price of its last shown update. */
  lemma {:induction false} ProjectTableLatest(previous: map<string, real>, shown: seq<TickerUpdate>, symbol: string, k: int)
    requires LastOccurrence(shown, k, symbol)
    ensures symbol in Project(previous, shown).previous
    ensures Project(previous, shown).previous[symbol] == shown[k].price
    decreases |shown|
  {
    var init := shown[..|shown| - 1];
    if k < |shown| - 1 {
      assert shown[|shown| - 1].symbol != symbol;
      assert LastOccurrence(init, k, symbol) by {
        assert forall m :: k < m < |init| ==> init[m] == shown[m];
      }
      ProjectTableLatest(previous, init, symbol, k);
    }
  }

  /** When the shown symbols are distinct, each card's change is measured
      against the table as it stood before the recompute. */
  lemma {:induction false} ProjectChange(previous: map<string, real>, shown: seq<TickerUpdate>)
    requires DistinctSymbols(shown)
    ensures var es := Project(previous, shown).entries;
      |es| == |shown| && forall k :: 0 <= k < |shown| ==> es[k].changePct == ChangePct(previous, shown[k])
    decreases |shown|
  {
    ProjectShape(previous, shown);
    if |shown| > 0 {
      var init := shown[..|shown| - 1];
      var u := shown[|shown| - 1];
      ProjectChange(previous, init);
      var before := Project(previous, init);
      assert forall k :: 0 <= k < |init| ==> init[k].symbol != u.symbol;
      ProjectTableKeys(previous, init, u.symbol);
      if u.symbol in previous {
        ProjectTableUntouched(previous, init, u.symbol);
      }
      assert ChangePct(before.previous, u) == ChangePct(previous, u);
    }
  }

  /** Recomputing the same distinct updates a second time shows every change
      as zero: the first pass recorded exactly those prices. */
  lemma SecondPassIsFlat(previous: map<string, real>, shown: seq<TickerUpdate>)
    requires DistinctSymbols(shown)
    ensures var once := Project(previous, shown);
      var twice := Project(once.previous, shown).entries;
      |twice| == |shown| && forall k :: 0 <= k < |shown| ==> twice[k].changePct == 0.0
  {
    var once := Project(previous, shown);
    ProjectChange(once.previous, shown);
    forall k | 0 <= k < |shown| ensures ChangePct(once.previous, shown[k]) == 0.0 {
      RecordedPriceIsFlat(previous, shown, k);
    }
  }

  /** After a pass, each shown update's change against the new table is zero. */
  lemma RecordedPriceIsFlat(previous: map<string, real>, shown: seq<TickerUpdate>, k: int)
    requires DistinctSymbols(shown) && 0 <= k < |shown|
    ensures ChangePct(Project(previous, shown).previous, shown[k]) == 0.0
  {
    var u := shown[k];
    assert LastOccurrence(shown, k, u.symbol);
    ProjectTableLatest(previous, shown, u.symbol, k);
    var table := Project(previous, shown).previous;
    assert table[u.symbol] == u.price;
    assert u.price - table[u.symbol] == 0.0;
  }

  /** A symbol traded at 100, then 110, then 121 shows +10% twice, after 0% on
      first sight. */
  lemma TenPercentSteps(u: TickerUpdate)
    ensures var a := Project(map[], [u.(price := 100.0)]);
      var b := Project(a.previous, [u.(price := 110.0)]);
      var c := Project(b.previous, [u.(price := 121.0)]);
      && a.entries[0].changePct == 0.0
      && b.entries[0].changePct == 10.0
      && c.entries[0].changePct == 10.0
  {
    var a := Project(map[], [u.(price := 100.0)]);
    ProjectOne(map[], u.(price := 100.0));
    var b := Project(a.previous, [u.(price := 110.0)]);
    ProjectOne(a.previous, u.(price := 110.0));
    ProjectOne(b.previous, u.(price := 121.0));
  }

  lemma ProjectOne(previous: map<string, real>, u: TickerUpdate)
    ensures Project(previous, [u]) == Projection(previous[u.symbol := u.price], [MakeEntry(previous, u)])
  {
    assert [u][..0] == [];
  }

  // ---------------------------------------------------------------------------
  // The component state

  class LiveTickerView {
    /** `previousPriceRef.current`: it lives as long as the component and is
        never cleared. */
    var previousPrice: map<string, real>
    var entries: seq<Entry>

    constructor ()
      ensures previousPrice == map[] && entries == []
    {
      previousPrice := map[];
      entries := [];
    }

    /** The effect run for a new `updates` array: nothing when it is empty,
        otherwise the first six become the cards. */
    method Recompute(updates: seq<TickerUpdate>)
      modifies this
      ensures |updates| == 0 ==> previousPrice == old(previousPrice) && entries == old(entries)
      ensures |updates| > 0 ==>
        Projection(previousPrice, entries) == Project(old(previousPrice), Take(updates, MaxEntries))
    {
      if |updates| == 0 {
        return;
      }
      var shown := Take(updates, MaxEntries);
      var next: seq<Entry> := [];
      ghost var start := previousPrice;
      var i := 0;
      while i < |shown|
        invariant 0 <= i <= |shown|
        invariant Projection(previousPrice, next) == Project(start, shown[..i])
      {
        var u := shown[i];
        assert shown[..i + 1][..i] == shown[..i];
        next := next + [MakeEntry(previousPrice, u)];
        previousPrice := previousPrice[u.symbol := u.price];
        i := i + 1;
      }
      assert shown[..|shown|] == shown;
      entries := next;
    }
  }

  // ---------------------------------------------------------------------------
  // What is rendered

  datatype TickerView =
    | TickerSkeleton
    | WaitingForTrades
    | Cards(entries: seq<Entry>, updatedAt: Option<int>)

  /** The render branches; the "Updated" line shows only for a truthy
      `lastUpdate`, so a clock reading of 0 is not shown. */
  function Render(status: ConnectionStatus, updates: seq<TickerUpdate>, entries: seq<Entry>, lastUpdate: Option<int>): (v: TickerView)
    ensures v.Cards? ==> v.entries == entries
  {
    if status == Connecting || status == Reconnecting then TickerSkeleton
    else if status == Closed || |updates| == 0 then WaitingForTrades
    else Cards(entries, if lastUpdate.Some? && lastUpdate.value != 0 then lastUpdate else None)
  }

  /** Cards appear exactly when the connection is idle or open and trades
      have arrived; a connection attempt always shows the skeleton. */
  lemma RenderBranches(status: ConnectionStatus, updates: seq<TickerUpdate>, entries: seq<Entry>, lastUpdate: Option<int>)
    ensures var v := Render(status, updates, entries, lastUpdate);
      && (v.Cards? <==> (status == Idle || status == Open) && |updates| > 0)
      && (v.TickerSkeleton? <==> status == Connecting || status == Reconnecting)
      && (status == Closed ==> v == WaitingForTrades)
  {
  }
}
