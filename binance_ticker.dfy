/** The live-ticker hook (`useBinanceTicker`): it normalises the requested
    symbols, owns one streaming client per subscription, keeps the latest
    update per symbol and mirrors the client's connection status.

    The React machinery is reduced to what it does here: the effect is the
    method `ApplySymbols` (its cleanup runs first, as React runs the previous
    effect's cleanup before the next effect), unmounting is `Unmount`, and the
    three state setters write the fields `status`, `tickers` and `lastUpdate`. */
module BinanceTicker {
  import opened Common
  import opened Sorting
  import opened BinanceWs

  // ---------------------------------------------------------------------------
  // Symbol normalisation and the subscription key

  function LowerAll(symbols: seq<string>): (r: seq<string>)
    ensures |r| == |symbols|
    ensures forall k :: 0 <= k < |r| ==> r[k] == Lower(symbols[k])
  {
    seq(|symbols|, k requires 0 <= k < |symbols| => Lower(symbols[k]))
  }

  /** `normaliseSymbols(symbols).sort()`: lower-cased, then in string order. */
  function NormaliseSymbols(symbols: seq<string>): (r: seq<string>)
    ensures |r| == |symbols|
  {
    Sort(LowerAll(symbols), LexLe)
  }

  /** The effect's key: the normalised symbols joined by commas. */
  function SubscriptionKey(symbols: seq<string>): string {
    Join(NormaliseSymbols(symbols), ',')
  }

  /** The normalised list is the lower-cased input, rearranged into string order. */
  lemma NormalisedSymbols(symbols: seq<string>)
    ensures var r := NormaliseSymbols(symbols);
      && Sorted(r, LexLe)
      && multiset(r) == multiset(LowerAll(symbols))
      && forall k :: 0 <= k < |r| ==> IsLowerCase(r[k])
  {
    LexLeIsTotalOrder();
    SortSorted(LowerAll(symbols), LexLe);
    var r := NormaliseSymbols(symbols);
    forall k | 0 <= k < |r| ensures IsLowerCase(r[k]) {
      assert r[k] in multiset(LowerAll(symbols));
      var i :| 0 <= i < |symbols| && LowerAll(symbols)[i] == r[k];
      LowerIsLowerCase(symbols[i]);
    }
  }

  /** Two requests naming the same symbols, in any order and any letter case,
      give the same normalised list and the same key. */
  lemma SameSymbolsSameKey(xs: seq<string>, ys: seq<string>)
    requires multiset(LowerAll(xs)) == multiset(LowerAll(ys))
    ensures NormaliseSymbols(xs) == NormaliseSymbols(ys)
    ensures SubscriptionKey(xs) == SubscriptionKey(ys)
  {
    NormalisedSymbols(xs);
    NormalisedSymbols(ys);
    LexLeIsTotalOrder();
    SortedUnique(NormaliseSymbols(xs), NormaliseSymbols(ys), LexLe);
  }

  /** The key determines the subscription: when no symbol holds a comma,
      splitting the key gives the normalised list back. */
  lemma KeyDeterminesSymbols(symbols: seq<string>)
    requires |symbols| > 0
    requires forall k :: 0 <= k < |symbols| ==> ',' !in symbols[k]
    ensures Split(SubscriptionKey(symbols), ',') == NormaliseSymbols(symbols)
  {
    NormalisedSymbols(symbols);
    var r := NormaliseSymbols(symbols);
    forall k | 0 <= k < |r| ensures ',' !in r[k] {
      assert r[k] in multiset(LowerAll(symbols));
      var i :| 0 <= i < |symbols| && LowerAll(symbols)[i] == r[k];
      LowerKeepsOtherChars(symbols[i], ',');
    }
    SplitJoin(r, ',');
  }

  // ---------------------------------------------------------------------------
  // The ticker map: one entry per symbol, in the order symbols first arrived

  function Symbols(t: seq<TickerUpdate>): (r: seq<string>)
    ensures |r| == |t| && forall k :: 0 <= k < |t| ==> r[k] == t[k].symbol
  {
    seq(|t|, k requires 0 <= k < |t| => t[k].symbol)
  }

  predicate DistinctSymbols(t: seq<TickerUpdate>) {
    forall i, j :: 0 <= i < j < |t| ==> t[i].symbol != t[j].symbol
  }

  /** `data[symbol]`. */
  function Lookup(t: seq<TickerUpdate>, symbol: string): (r: Option<TickerUpdate>)
    ensures r.Some? ==> r.value in t && r.value.symbol == symbol
    ensures r.None? <==> forall k :: 0 <= k < |t| ==> t[k].symbol != symbol
  {
    if |t| == 0 then None
    else if t[0].symbol == symbol then Some(t[0])
    else Lookup(t[1..], symbol)
  }

  /** `{ ...prev, [update.symbol]: update }`: an existing entry for the
      symbol is replaced where it stands, otherwise the update goes last. */
  function Upsert(t: seq<TickerUpdate>, u: TickerUpdate): (r: seq<TickerUpdate>)
    ensures |r| == if Lookup(t, u.symbol).Some? then |t| else |t| + 1
  {
    if |t| == 0 then [u]
    else if t[0].symbol == u.symbol then [u] + t[1..]
    else [t[0]] + Upsert(t[1..], u)
  }

  /** After the update its symbol maps to it and every other symbol keeps its entry. */
  lemma {:induction false} UpsertLookup(t: seq<TickerUpdate>, u: TickerUpdate, symbol: string)
    ensures Lookup(Upsert(t, u), symbol) == if symbol == u.symbol then Some(u) else Lookup(t, symbol)
  {
    if |t| > 0 && t[0].symbol != u.symbol {
      var r := Upsert(t, u);
      assert r[1..] == Upsert(t[1..], u);
      if symbol != t[0].symbol {
        UpsertLookup(t[1..], u, symbol);
      }
    } else if |t| > 0 {
      assert ([u] + t[1..])[1..] == t[1..];
    }
  }

  /** The keys keep their order; a new symbol is added after the existing ones. */
  lemma {:induction false} UpsertSymbols(t: seq<TickerUpdate>, u: TickerUpdate)
    ensures Symbols(Upsert(t, u)) == if Lookup(t, u.symbol).Some? then Symbols(t) else Symbols(t) + [u.symbol]
  {
    if |t| > 0 {
      if t[0].symbol == u.symbol {
        assert Symbols([u] + t[1..]) == Symbols(t);
      } else {
        UpsertSymbols(t[1..], u);
        assert Upsert(t, u) == [t[0]] + Upsert(t[1..], u);
        SymbolsCons(t[0], Upsert(t[1..], u));
        assert t == [t[0]] + t[1..];
        SymbolsCons(t[0], t[1..]);
        assert Lookup(t, u.symbol) == Lookup(t[1..], u.symbol);
      }
    }
  }

  lemma SymbolsCons(x: TickerUpdate, rest: seq<TickerUpdate>)
    ensures Symbols([x] + rest) == [x.symbol] + Symbols(rest)
  {
    assert forall k :: 0 < k < |rest| + 1 ==> ([x] + rest)[k] == rest[k - 1];
  }

  /** Each symbol keeps a single entry. */
  lemma UpsertKeepsSymbolsDistinct(t: seq<TickerUpdate>, u: TickerUpdate)
    requires DistinctSymbols(t)
    ensures DistinctSymbols(Upsert(t, u))
  {
    UpsertSymbols(t, u);
    var r := Upsert(t, u);
    forall i, j | 0 <= i < j < |r| ensures r[i].symbol != r[j].symbol {
      assert Symbols(r)[i] == r[i].symbol && Symbols(r)[j] == r[j].symbol;
      if j == |t| {
        assert Lookup(t, u.symbol).None?;
        assert Symbols(r)[i] == Symbols(t)[i] == t[i].symbol;
      } else {
        assert Symbols(r)[i] == t[i].symbol && Symbols(r)[j] == t[j].symbol;
      }
    }
  }

  // ---------------------------------------------------------------------------
  // What the hook returns, and how a client step changes it

  datatype HookState = HookState(status: ConnectionStatus, tickers: seq<TickerUpdate>, lastUpdate: Option<int>)

  /** Initial `useState` values: `idle`, `{}` and no update time. */
  function InitialHook(): HookState {
    HookState(Idle, [], None)
  }

  /** The hook's handlers applied to one client step: every status change is
      passed to `setStatus` (the last one wins), and a delivered update is
      stored under its symbol with the event's clock reading as `lastUpdate`. */
  function Absorb(h: HookState, o: Outcome, ev: Event): HookState {
    HookState(
      if |o.emitted| == 0 then h.status else o.emitted[|o.emitted| - 1],
      if o.delivered.Some? then Upsert(h.tickers, o.delivered.value) else h.tickers,
      if o.delivered.Some? && ev.MessageEvent? then Some(ev.now) else h.lastUpdate)
  }

  /** A trade frame lands in the map under its lower-cased symbol and stamps
      the update time; the status and every other symbol's entry stay. */
  lemma TradeIsRecorded(cfg: Config, s: ClientState, h: HookState, now: int, p: TradePayload)
    requires p.eventType == "trade"
    ensures var ev := MessageEvent(now, Parsed(Some(p)));
      var h2 := Absorb(h, Step(cfg, s, ev), ev);
      && Lookup(h2.tickers, Lower(p.symbol)) == Some(CreateTickerUpdate(p))
      && (forall sym :: sym != Lower(p.symbol) ==> Lookup(h2.tickers, sym) == Lookup(h.tickers, sym))
      && h2.lastUpdate == Some(now)
      && h2.status == h.status
  {
    var u := CreateTickerUpdate(p);
    UpsertLookup(h.tickers, u, u.symbol);
    forall sym | sym != u.symbol
      ensures Lookup(Upsert(h.tickers, u), sym) == Lookup(h.tickers, sym)
    {
      UpsertLookup(h.tickers, u, sym);
    }
  }

  /** A frame that is not a trade changes nothing the hook returns. */
  lemma OtherFramesIgnored(cfg: Config, s: ClientState, h: HookState, now: int, frame: InboundFrame)
    requires !(frame.Parsed? && frame.data.Some? && frame.data.value.eventType == "trade")
    ensures var ev := MessageEvent(now, frame);
      Absorb(h, Step(cfg, s, ev), ev) == h
  {
  }

  /** A dropped connection shows as `reconnecting` while the last known
      prices stay on display. */
  lemma DropKeepsPrices(cfg: Config, s: ClientState, h: HookState)
    requires !s.closedByUser
    ensures var h2 := Absorb(h, Step(cfg, s, CloseEvent), CloseEvent);
      h2.status == Reconnecting && h2.tickers == h.tickers && h2.lastUpdate == h.lastUpdate
  {
  }

  /** The events that reach the hook from its client's socket and timers. */
  predicate FromTransport(ev: Event) {
    !ev.ConnectCalled? && !ev.DisconnectCalled?
  }

  // ---------------------------------------------------------------------------
  // The hook instance

  class TickerHook {
    var status: ConnectionStatus
    var tickers: seq<TickerUpdate>
    var lastUpdate: Option<int>
    /** `clientRef.current`. */
    var client: BinanceWebSocketClient?

    function View(): HookState
      reads this
    {
      HookState(status, tickers, lastUpdate)
    }

    /** The status on display is the last one the current client reported;
        with no client there is nothing on display but `idle` or `closed`
        and no tickers; each symbol has one lower-case entry. */
    ghost predicate Valid()
      reads this, client
    {
      && DistinctSymbols(tickers)
      && (forall k :: 0 <= k < |tickers| ==> IsLowerCase(tickers[k].symbol))
      && (client == null ==> (status == Idle || status == Closed) && tickers == [])
      && (client != null ==>
            && |client.symbols| > 0
            && |client.statusLog| > 0
            && status == client.statusLog[|client.statusLog| - 1])
    }

    constructor ()
      ensures Valid() && View() == InitialHook() && client == null
    {
      status := Idle;
      tickers := [];
      lastUpdate := None;
      client := null;
    }

    /** The cleanup: disconnect the current client (its `closed` reaches
        `setStatus`) and forget it. */
    method Unmount()
      requires Valid()
      modifies this, client
      ensures client == null
      ensures old(client) != null ==>
        && old(client).State() == DisconnectStep(old(client.State())).next
        && status == Closed
      ensures tickers == old(tickers) && lastUpdate == old(lastUpdate)
    {
      if client != null {
        var emitted := client.Disconnect();
        status := emitted[|emitted| - 1];
        client := null;
      }
    }

    /** The effect, run for a new `symbols` array: the previous client is shut
        down, then either the map is cleared and the status set to `closed`
        (no symbols) or a new client is created for the normalised symbols and
        connected. Entries for symbols no longer subscribed are kept. */
    method ApplySymbols(symbols: seq<string>, endpoint: string, now: int)
      requires Valid()
      modifies this, client
      ensures Valid()
      ensures old(client) != null ==> old(client).State() == DisconnectStep(old(client.State())).next
      ensures |symbols| == 0 ==>
        client == null && status == Closed && tickers == [] && lastUpdate == old(lastUpdate)
      ensures |symbols| > 0 ==>
        && client != null && fresh(client)
        && client.symbols == NormaliseSymbols(symbols) && client.endpoint == endpoint
        && client.State() == ConnectStep(client.Cfg(), Initial(now)).next
        && status == Connecting
        && tickers == old(tickers) && lastUpdate == old(lastUpdate)
    {
      if client != null {
        var emitted := client.Disconnect();
        status := emitted[|emitted| - 1];
        client := null;
      }
      var normalised := NormaliseSymbols(symbols);
      if |normalised| == 0 {
        tickers := [];
        status := Closed;
        return;
      }
      var c := new BinanceWebSocketClient(normalised, endpoint, now);
      client := c;
      var emitted := c.Connect();
      status := emitted[|emitted| - 1];
    }

    /** One event from the current client's socket or timers: the client
        performs its step and the hook absorbs what the step reports. */
    method OnTransportEvent(ev: Event)
      requires Valid() && client != null && FromTransport(ev)
      modifies this, client
      ensures Valid() && client == old(client)
      ensures var o := Step(client.Cfg(), old(client.State()), ev);
        && client.State() == o.next
        && View() == Absorb(old(View()), o, ev)
    {
      match ev {
        case MessageEvent(now, frame) =>
          OnClientMessage(now, frame);
        case OpenEvent => OnClientStatusEvent(ev);
        case CloseEvent => OnClientStatusEvent(ev);
        case ErrorEvent => OnClientStatusEvent(ev);
        case ReconnectTimer => OnClientStatusEvent(ev);
        case HeartbeatTimer(_) => OnClientStatusEvent(ev);
      }
    }

    /** A socket message: a trade reaches `onMessage`, which stores it and
        stamps the update time. */
    method OnClientMessage(now: int, frame: InboundFrame)
      requires Valid() && client != null
      modifies this, client
      ensures Valid() && client == old(client)
      ensures var ev := MessageEvent(now, frame);
        var o := Step(client.Cfg(), old(client.State()), ev);
        && client.State() == o.next
        && View() == Absorb(old(View()), o, ev)
    {
      var delivered := client.OnMessage(now, frame);
      if delivered.Some? {
        UpsertKeepsSymbolsDistinct(tickers, delivered.value);
        LowerIsLowerCase(delivered.value.raw.symbol);
        Upserted(tickers, delivered.value);
        tickers := Upsert(tickers, delivered.value);
        lastUpdate := Some(now);
      }
    }

    /** Any other socket or timer event: only status changes come out of it. */
    method OnClientStatusEvent(ev: Event)
      requires Valid() && client != null && FromTransport(ev) && !ev.MessageEvent?
      modifies this, client
      ensures Valid() && client == old(client)
      ensures var o := Step(client.Cfg(), old(client.State()), ev);
        && client.State() == o.next
        && View() == Absorb(old(View()), o, ev)
    {
      var emitted: seq<ConnectionStatus> := [];
      match ev {
        case OpenEvent =>
          emitted := client.OnOpen();
        case CloseEvent =>
          var delay;
          emitted, delay := client.OnClose();
        case ErrorEvent =>
          client.OnError();
        case ReconnectTimer =>
          emitted := client.OnReconnectTimer();
        case HeartbeatTimer(now) =>
          var ping := client.HeartbeatTick(now);
      }
      Forward(emitted);
      if |emitted| > 0 {
        assert client.statusLog[|client.statusLog| - 1] == emitted[|emitted| - 1];
      }
    }

    /** `onStatusChange: setStatus`, for each status in turn. */
    method Forward(emitted: seq<ConnectionStatus>)
      modifies this`status
      ensures status == if |emitted| == 0 then old(status) else emitted[|emitted| - 1]
    {
      for k := 0 to |emitted|
        invariant status == if k == 0 then old(status) else emitted[k - 1]
      {
        status := emitted[k];
      }
    }
  }

  /** Every entry written into the map by an update of a lower-case symbol
      keeps the map's symbols lower-case. */
  lemma Upserted(t: seq<TickerUpdate>, u: TickerUpdate)
    requires forall k :: 0 <= k < |t| ==> IsLowerCase(t[k].symbol)
    requires IsLowerCase(u.symbol)
    ensures forall k :: 0 <= k < |Upsert(t, u)| ==> IsLowerCase(Upsert(t, u)[k].symbol)
  {
    UpsertSymbols(t, u);
    var r := Upsert(t, u);
    forall k | 0 <= k < |r| ensures IsLowerCase(r[k].symbol) {
      assert Symbols(r)[k] == r[k].symbol;
      if k < |t| { assert Symbols(r)[k] == Symbols(t)[k]; }
    }
  }
}
