# Crypto Dashboard core, modelled in Dafny

This project models the stateful and decision-making core of the Crypto
Dashboard web application and proves properties of that model. The model
covers six parts:

- **The streaming trade client** (`BinanceWebSocketClient`, module `BinanceWs`). Its
  behaviour is the pure transition function `Step` over a `ClientState`,
  driven by abstract events: `connect`, socket open, message, close, error,
  reconnect timer, heartbeat tick and `disconnect`. The class
  `BinanceWebSocketClient` has the source's fields (`reconnectAttempts`,
  `closedByUser`, the heartbeat flag, `lastMessageAt`, the socket). Each of
  its methods is proved to move the object to exactly the state `Step`
  gives. Every `onStatusChange` call and every scheduled reconnect delay is
  recorded in a ghost log.
- **CoinGecko requests** (module `Coingecko`).
  - The rate-limit retry loop `withRetry` is a method with a `while` loop
    over a scripted sequence of responses.
  - `appendKey` and the request configurations of `getMarkets`,
    `getCoinHistory` and `getCoinDetails` are pure functions.
- **The watchlist store** (module `Watchlist`).
  - The pure updaters `add`, `remove` and `clear`.
  - The class `WatchlistStore`, whose `persisted` snapshot is rewritten
    with `{items}` after every update.
- **Live-ticker reconciliation** (modules `BinanceTicker` and `LiveTicker`).
  - The `useBinanceTicker` hook: symbol normalisation and its subscription
    key; the per-symbol last-write-wins ticker map, kept as an
    insertion-ordered list like a JavaScript object's keys; the effect that
    replaces the client; and the handlers that update `status`, `tickers`
    and `lastUpdate`.
  - The `LiveTicker` projection: newest updates first, the top six, and the
    change percentage against a per-symbol previous-price table that
    advances on every recompute. The component's render branches.
- **Fallback merge and view selection** (modules `Fallback`, `MarketsTable`,
  `WatchlistPanel`, `AppHeader`, `CoinPage`).
  - Live data if present, otherwise the demo list. The demo list is the
    parameter `fallback`, and nothing depends on its contents.
  - The descending sorts and the top-ten cut, lookup by id, and the search
    filter.
  - The loading / error / warning / not-found branches and the watch
    buttons.
  - The coin page's field coalescing and its description sanitiser.
- **The simulated market overview** (module `MarketOverview`): gainer and
  decliner counting, and the clamped interval tick. The random move is a
  parameter.

Supporting modules: `Common`, `Sorting`.
- `Common` holds `Option` with JavaScript's `??` as `GetOr`; ASCII
  `toLowerCase`/`toUpperCase`; `join` and `split`; `trim` with JavaScript's
  whitespace set; substring search; and `slice(0, n)`.
- `Sorting` holds a generic insertion sort with proofs that the result is
  sorted and a permutation of its input, the descending-by-key comparator
  used for `b.x - a.x` comparators, and the code-unit string order of
  `Array.prototype.sort`. It also proves that a sorted permutation under an
  antisymmetric order is unique.

Prices and other numbers are `real`. Clock readings and event times are
`int` or `real`.

## Behaviours of the code worth noting

- The live ticker's previous-price table lives in a `useRef` that is never
  cleared, even when the symbol set changes (`LiveTicker.tsx:11`). The model
  keeps it for the component's lifetime (`LiveTicker.LiveTickerView`).
- The live ticker's effect runs once per new `updates` array, not once per
  trade, and the previous-price table advances once per displayed entry on
  each run. That is what `LiveTicker.Project` folds.
- The ticker map is not cleared when the symbol set changes to another
  non-empty set. Old symbols' entries stay until the list becomes empty
  (`BinanceTicker.TickerHook.ApplySymbols`).
- The `!markets` branch in `WatchlistPanel.tsx:15-17` can never be taken,
  because `markets` is `liveMarkets ?? demoMarkets`. It is not modelled.
- A search of only spaces opens the dropdown with "No matches"
  (`AppHeader.BlankSearchSaysNoMatches`). The emptiness test is on the raw
  input, while the filter trims it.
- On the coin page, details whose `name` is the empty string hide the
  fallback coin's name, because `??` skips only `null` and `undefined`,
  not the empty string. The page then shows "not found"
  (`CoinPage.PageView`).

## Model

| member | source | states |
|---|---|---|
| Common.Lower | src/services/binanceWs.ts:42 | `toLowerCase` on ASCII: same length, each letter A-Z mapped to a-z and every other character kept |
| Common.Upper | src/pages/CoinPage.tsx:27 | `toUpperCase` on ASCII: same length, each letter a-z mapped to A-Z and every other character kept |
| Common.LowerIsLowerCase | src/features/live-data/hooks/useBinanceTicker.ts:16 | a lower-cased string has no upper-case letter, and lower-casing twice equals lower-casing once |
| Common.Trim | src/components/AppHeader.tsx:38 | `trim` returns the slice of its input left once a blank prefix and a blank suffix are dropped; the slice neither starts nor ends with JavaScript whitespace, and is empty exactly when the input is all whitespace |
| Common.SplitJoin | src/features/live-data/hooks/useBinanceTicker.ts:25 | splitting a separator-joined list of separator-free parts gives back the parts |
| Common.Take | src/components/AppHeader.tsx:46 | `slice(0, n)`: the first `min(n, length)` elements of the input |
| Sorting.SortSorted | src/features/market-data/components/MarketsTable.tsx:37 | for any total preorder the sort's result is sorted and a permutation of its input |
| Sorting.SortedUnique | src/features/live-data/hooks/useBinanceTicker.ts:24 | two sorted permutations of the same multiset under an antisymmetric order are equal |
| Sorting.LexLeIsTotalOrder | src/features/live-data/hooks/useBinanceTicker.ts:24 | the default string order of `sort()` is total, transitive and antisymmetric |
| BinanceWs.StreamUrlLayout | src/services/binanceWs.ts:85-86 | the URL is the endpoint, then `/stream?streams=`, then one `symbol@trade` name per symbol, lower-cased, in input order, separated by `/` |
| BinanceWs.StreamName | src/services/binanceWs.ts:42 | a stream name is the lower-cased symbol followed by `@trade`, and has a `/` exactly when the symbol does |
| BinanceWs.StreamUrl | src/services/binanceWs.ts:85-86 | the URL starts with the endpoint followed by `/stream?streams=` |
| BinanceWs.BackoffDelay | src/services/binanceWs.ts:161 | every reconnect delay lies between 1000 and 15000 ms |
| BinanceWs.CreateTickerUpdate | src/services/binanceWs.ts:44-55 | the update carries the lower-cased symbol, the price and quantity, the trade id, event and trade times, the maker flag and the raw payload |
| BinanceWs.BackoffSchedule | src/services/binanceWs.ts:159-161 | the nth reconnect waits 1000, 2000, 4000, 8000, then 15000 ms from the fifth on, and the delay never decreases |
| BinanceWs.ConnectWithoutSymbols | src/services/binanceWs.ts:78-80 | with no symbols `connect` changes nothing, opens no socket and reports no status |
| BinanceWs.ConnectReportsAttempt | src/services/binanceWs.ts:82-88 | `connect` clears `closedByUser`, opens a socket on the stream URL and reports `reconnecting` after a failed attempt, `connecting` otherwise |
| BinanceWs.OpenResetsBackoff | src/services/binanceWs.ts:90-94 | opening resets the attempt counter, reports `open` and starts the heartbeat, so the next drop waits the base delay |
| BinanceWs.MessageDeliversTradesOnly | src/services/binanceWs.ts:96-106 | every frame refreshes `lastMessageAt`; exactly the trade payloads reach the handler, with the symbol lower-cased |
| BinanceWs.CloseSchedulesReconnect | src/services/binanceWs.ts:108-114 | a close stops the heartbeat and reports `closed`; it schedules a reconnect, reporting `reconnecting`, exactly when the user has not disconnected |
| BinanceWs.ErrorStep | src/services/binanceWs.ts:116-121 | an error reports no status, delivers nothing, schedules no reconnect and keeps the counters; it moves a connecting or open socket to closing unless the user disconnected, and changes nothing else |
| BinanceWs.TimerAfterDisconnectIsInert | src/services/binanceWs.ts:164-167 | a reconnect timer that fires after `disconnect` changes nothing |
| BinanceWs.DisconnectIdempotent | src/services/binanceWs.ts:124-132 | `disconnect` marks the session user-closed, stops the heartbeat, drops the socket and reports `closed`; a second call leaves the same state |
| BinanceWs.HeartbeatPingsOnlyWhenIdle | src/services/binanceWs.ts:136-149 | a tick sends a PING exactly when the heartbeat runs on an open socket silent for more than 45 s, and changes no state |
| BinanceWs.ConsecutiveDropsBackOff | src/services/binanceWs.ts:159-169 | n close-and-retry rounds without an open raise the counter by n and wait `BackoffDelay(k+1)`, ..., `BackoffDelay(k+n)` |
| BinanceWs.FreshClientBackoff | src/services/binanceWs.ts:159-161 | from a fresh client five drops wait 1000, 2000, 4000, 8000 and 15000 ms |
| BinanceWs.DisconnectIsTerminal | src/services/binanceWs.ts:108-121 | after `disconnect`, no sequence of socket and timer events reopens a socket, restarts the heartbeat, schedules a reconnect or sends a PING, and every status reported is `closed` |
| BinanceWs.ConnectThenDisconnect | src/services/binanceWs.ts:77-132 | `connect` then `disconnect` leaves no socket, no heartbeat, no scheduled delay, and a pending timer inert |
| BinanceWs.BinanceWebSocketClient.constructor | src/services/binanceWs.ts:57-75 | a new client holds its symbols and endpoint, zero attempts, no socket, no heartbeat, and empty logs |
| BinanceWs.BinanceWebSocketClient.Connect | src/services/binanceWs.ts:77-88 | the new state is `Step`'s for `connect`, and the reported statuses are appended to the log |
| BinanceWs.BinanceWebSocketClient.OnOpen | src/services/binanceWs.ts:90-94 | the new state is `Step`'s for an open event, and `open` is logged |
| BinanceWs.BinanceWebSocketClient.OnMessage | src/services/binanceWs.ts:96-106 | the new state is `Step`'s for the frame, and the delivered update is returned |
| BinanceWs.BinanceWebSocketClient.OnClose | src/services/binanceWs.ts:108-114 | the new state is `Step`'s for a close; the statuses and the reconnect delay are logged |
| BinanceWs.BinanceWebSocketClient.OnError | src/services/binanceWs.ts:116-121 | the new state is `Step`'s for an error: the socket is asked to close unless the user disconnected |
| BinanceWs.BinanceWebSocketClient.Disconnect | src/services/binanceWs.ts:124-132 | the new state is `Step`'s for `disconnect`, and `closed` is logged |
| BinanceWs.BinanceWebSocketClient.HeartbeatTick | src/services/binanceWs.ts:136-149 | returns whether to send a PING: heartbeat on, socket open and idle for more than 45 s |
| BinanceWs.BinanceWebSocketClient.OnReconnectTimer | src/services/binanceWs.ts:164-169 | the new state is `Step`'s for the timer: nothing after `disconnect`, a new `connect` otherwise |
| BinanceWs.BinanceWebSocketClient.StartHeartbeat | src/services/binanceWs.ts:134-150 | the heartbeat is running |
| BinanceWs.BinanceWebSocketClient.StopHeartbeat | src/services/binanceWs.ts:152-157 | the heartbeat is stopped |
| BinanceWs.BinanceWebSocketClient.ScheduleReconnect | src/services/binanceWs.ts:159-170 | the counter grows by one, the delay is the capped backoff for the new count, and `reconnecting` is logged |
| Coingecko.WithRetry | src/services/coingecko.ts:8-25 | the result is the first answer that is not a 429, or the last 429 once `retries + 1` requests were made; every earlier answer was a 429; the waits are `baseDelay * 2^k` |
| Coingecko.AttemptCount | src/services/coingecko.ts:9-22 | at most `retries + 1` requests are made, every answer before the last is a 429, and the last is not a 429 unless the budget is used up |
| Coingecko.AllRateLimitedExhaustsBudget | src/services/coingecko.ts:16-22 | when every answer is a 429, exactly `retries + 1` requests are made |
| Coingecko.FirstAnswerNotRateLimited | src/services/coingecko.ts:12 | a first answer that is not a 429, success or other failure, ends the loop after one request |
| Coingecko.OneRateLimitThenSuccess | src/services/coingecko.test.ts:32-59 | one 429 then a success makes two requests and returns the success |
| Coingecko.DefaultSchedule | src/services/coingecko.ts:8-19 | with the defaults the waits are 500, 1000 and 2000 ms |
| Coingecko.AppendKey | src/services/coingecko.ts:27-41 | with no key the config is unchanged; otherwise the key is added under its parameter name and every other parameter and field is kept |
| Coingecko.MarketsConfigDefaults | src/services/coingecko.ts:61-77 | `getMarkets` asks `/coins/markets` with `per_page` 20 and `page` 1 unless given, `order=market_cap_desc`, `sparkline=false`, and the key exactly when one is configured |
| Coingecko.MarketsConfig | src/services/coingecko.ts:61-77 | the markets request is a GET to `/coins/markets` whose parameters are exactly the six query parameters plus the key when one is configured |
| Coingecko.HistoryConfig | src/services/coingecko.ts:95-103 | the history request is a GET to `/coins/<id>/market_chart` whose parameters are exactly `days`, `interval` and, when a key is configured, the key; `days` is the caller's, `interval` the caller's or `undefined` when not given, unless the key's parameter name overrides them |
| Coingecko.DetailsConfig | src/services/coingecko.ts:132-143 | the details request is a GET to `/coins/<id>` whose parameters are exactly `localization`, `tickers`, `community_data`, `developer_data` and `sparkline`, all `false`, plus the key when one is configured |
| Coingecko.GetMarkets | src/services/coingecko.ts:61-81 | the request is the markets config, sent through the retry loop with the default budget |
| Watchlist.AddItem | src/store/useWatchlist.ts:21-27 | the result is the old list when the id was present, and otherwise the old list with the item appended; either way the id is present |
| Watchlist.RemoveId | src/store/useWatchlist.ts:28-31 | the result keeps exactly the items with another id, and the id is gone |
| Watchlist.RemoveAbsentIsNoOp | src/store/useWatchlist.ts:28-31 | removing an id that is not present returns the same list |
| Watchlist.RemoveKeepsOrder | src/store/useWatchlist.ts:30 | the remaining items keep their relative order |
| Watchlist.UpdatersKeepIdsDistinct | src/store/useWatchlist.ts:22-31 | `add` and `remove` keep the ids pairwise distinct |
| Watchlist.AddTwiceThenRemove | src/store/useWatchlist.test.ts:18-40 | adding bitcoin twice keeps one item, and removing it leaves the list empty |
| Watchlist.StoreScenario | src/store/useWatchlist.test.ts:18-40 | on the store class, adding bitcoin persists `[bitcoin]`, adding it again persists the same list, and removing it persists `[]` |
| Watchlist.WatchlistStore.constructor | src/store/useWatchlist.ts:20 | the store starts with an empty list and nothing persisted |
| Watchlist.WatchlistStore.SetItems | src/store/useWatchlist.ts:34-37 | `set` replaces the items and persists exactly `{items}` |
| Watchlist.WatchlistStore.Add | src/store/useWatchlist.ts:21-27 | the items become `AddItem` of the old ones, the snapshot is `{items}`, and the ids stay distinct |
| Watchlist.WatchlistStore.Remove | src/store/useWatchlist.ts:28-31 | the items become `RemoveId` of the old ones, the snapshot is `{items}`, and the ids stay distinct |
| Watchlist.WatchlistStore.Clear | src/store/useWatchlist.ts:32 | the items and the snapshot are empty |
| BinanceTicker.LowerAll | src/features/live-data/hooks/useBinanceTicker.ts:16 | every symbol is lower-cased, in place |
| BinanceTicker.NormaliseSymbols | src/features/live-data/hooks/useBinanceTicker.ts:24 | the normalised list has one entry per input symbol |
| BinanceTicker.NormalisedSymbols | src/features/live-data/hooks/useBinanceTicker.ts:24 | the normalised list is sorted, a permutation of the lower-cased input, and every symbol in it is lower-case |
| BinanceTicker.SameSymbolsSameKey | src/features/live-data/hooks/useBinanceTicker.ts:24-25 | inputs with the same symbols up to case and order give the same list and the same key |
| BinanceTicker.KeyDeterminesSymbols | src/features/live-data/hooks/useBinanceTicker.ts:25 | splitting the key at commas gives back the normalised list |
| BinanceTicker.Lookup | src/features/live-data/hooks/useBinanceTicker.ts:8 | a lookup finds an entry stored under that symbol, and misses exactly when no entry has it |
| BinanceTicker.Upsert | src/features/live-data/hooks/useBinanceTicker.ts:37 | the map grows by one exactly when the symbol was new |
| BinanceTicker.UpsertLookup | src/features/live-data/hooks/useBinanceTicker.ts:37 | after storing an update, its symbol maps to it and every other symbol maps to what it did before |
| BinanceTicker.UpsertSymbols | src/features/live-data/hooks/useBinanceTicker.ts:37 | the keys keep their order, and a new key goes last |
| BinanceTicker.UpsertKeepsSymbolsDistinct | src/features/live-data/hooks/useBinanceTicker.ts:37 | there is at most one entry per symbol |
| BinanceTicker.Upserted | src/features/live-data/hooks/useBinanceTicker.ts:37 | an upsert keeps every key lower-case |
| BinanceTicker.TradeIsRecorded | src/features/live-data/hooks/useBinanceTicker.ts:36-39 | a trade frame is stored under its lower-cased symbol, stamps `lastUpdate`, and leaves the status and the other symbols alone |
| BinanceTicker.OtherFramesIgnored | src/features/live-data/hooks/useBinanceTicker.ts:36-39 | a frame that is not a trade changes nothing the hook returns |
| BinanceTicker.DropKeepsPrices | src/features/live-data/hooks/useBinanceTicker.ts:40 | a dropped connection shows `reconnecting` and keeps the last prices |
| BinanceTicker.TickerHook.constructor | src/features/live-data/hooks/useBinanceTicker.ts:19-22 | the hook starts `idle`, with no tickers, no `lastUpdate` and no client |
| BinanceTicker.TickerHook.Unmount | src/features/live-data/hooks/useBinanceTicker.ts:49-52 | the cleanup disconnects the current client and drops it |
| BinanceTicker.TickerHook.ApplySymbols | src/features/live-data/hooks/useBinanceTicker.ts:27-53 | the old client is disconnected; an empty list clears the tickers and shows `closed`; otherwise a new client on the normalised symbols is connected and its status shown |
| BinanceTicker.TickerHook.OnTransportEvent | src/features/live-data/hooks/useBinanceTicker.ts:35-47 | an event on the client's socket or timers moves the client as `Step` does, and the hook's view as `Absorb` of that outcome |
| BinanceTicker.TickerHook.OnClientMessage | src/features/live-data/hooks/useBinanceTicker.ts:36-39 | a frame moves the client as `Step` does and the hook's view as `Absorb` does |
| BinanceTicker.TickerHook.OnClientStatusEvent | src/features/live-data/hooks/useBinanceTicker.ts:40 | a non-message event moves the client as `Step` does; the last status it reports becomes the hook's status |
| BinanceTicker.TickerHook.Forward | src/features/live-data/hooks/useBinanceTicker.ts:40 | after forwarding a run of statuses, the hook shows the last one, or the old one if there were none |
| LiveTicker.UpdatesNewestFirst | src/features/live-data/components/LiveTicker.tsx:10 | `updates` holds every ticker exactly once, newest event first |
| LiveTicker.ProjectShape | src/features/live-data/components/LiveTicker.tsx:27-39 | one card per shown update, in order, with its symbol, price, quantity and event time |
| LiveTicker.ProjectTableKeys | src/features/live-data/components/LiveTicker.tsx:28-30 | afterwards the table has a record exactly for the symbols it had before and the shown ones: nothing is removed |
| LiveTicker.ProjectTableUntouched | src/features/live-data/components/LiveTicker.tsx:28-30 | a symbol that is not shown keeps its recorded price |
| LiveTicker.ProjectTableLatest | src/features/live-data/components/LiveTicker.tsx:28-30 | a shown symbol's record is the price of its last shown update |
| LiveTicker.ProjectChange | src/features/live-data/components/LiveTicker.tsx:28-29 | for distinct symbols each change is measured against the table from before the recompute: 0 without a record or with a zero record, otherwise `(price - p) / p * 100` |
| LiveTicker.SecondPassIsFlat | src/features/live-data/components/LiveTicker.tsx:28-30 | recomputing the same updates again shows every change as 0 |
| LiveTicker.RecordedPriceIsFlat | src/features/live-data/components/LiveTicker.tsx:28-30 | after a pass over distinct updates, each of them shows a change of 0 against the new table |
| LiveTicker.TenPercentSteps | src/features/live-data/components/LiveTicker.tsx:28-29 | prices 100, 110, 121 in successive recomputes show 0%, 10% and 10% |
| LiveTicker.LiveTickerView.constructor | src/features/live-data/components/LiveTicker.tsx:11-20 | the component starts with an empty table and no cards |
| LiveTicker.LiveTickerView.Recompute | src/features/live-data/components/LiveTicker.tsx:22-42 | empty updates change nothing; otherwise the cards and the table are the projection of the first six updates over the old table |
| LiveTicker.Render | src/features/live-data/components/LiveTicker.tsx:44-60 | the cards shown are the current entries |
| LiveTicker.RenderBranches | src/features/live-data/components/LiveTicker.tsx:44-54 | a connection attempt shows the skeleton; `closed` shows the waiting message; cards appear exactly when idle or open with updates present |
| Fallback.FindById | src/pages/CoinPage.tsx:19-22 | the result is the first market with the id, and there is none exactly when no market has it |
| Fallback.SourceChoice | src/features/market-data/components/MarketsTable.tsx:36 | live data wins when present, otherwise lookups go to the demo list; an empty live list finds nothing |
| MarketsTable.RowsSortedDescending | src/features/market-data/components/MarketsTable.tsx:35-39 | all rows are a permutation of the source, never increasing in the chosen column; with the top-ten cut they are the first `min(10, n)` of those |
| MarketsTable.ViewBranches | src/features/market-data/components/MarketsTable.tsx:41-76 | loading wins; the retry prompt shows exactly for an error with no rows; rows are always shown when there are any, with the warning exactly on error |
| MarketsTable.FailedRequestShowsFallback | src/features/market-data/components/MarketsTable.test.tsx:114-125 | a failed request shows the demo rows with the cached-data warning, and every demo market appears without the cut |
| MarketsTable.ToggleWatch | src/features/market-data/components/MarketsTable.tsx:167-171 | a watched row is removed and an unwatched one added, so each press flips whether the row is watched |
| WatchlistPanel.PanelItems | src/features/watchlist/WatchlistPanel.tsx:14-21 | at most one panel item per watched item, each the first market with its id |
| WatchlistPanel.FoundItems | src/features/watchlist/WatchlistPanel.tsx:18-20 | the watched items whose id has a market, in watchlist order |
| WatchlistPanel.PanelFollowsFoundItems | src/features/watchlist/WatchlistPanel.tsx:18-20 | the panel holds exactly one market per found watched item, in the same order, each the market its id finds |
| WatchlistPanel.PanelItemsAreWatched | src/features/watchlist/WatchlistPanel.tsx:18-20 | every panel item has a watched id |
| WatchlistPanel.FoundIdsAreShown | src/features/watchlist/WatchlistPanel.tsx:18-20 | every watched id that has a market is shown |
| WatchlistPanel.AllFoundFollowsWatchlistOrder | src/features/watchlist/WatchlistPanel.tsx:18-20 | when every watched id has a market, the panel lists them one for one in watchlist order |
| WatchlistPanel.EmptyWatchlistShowsHint | src/features/watchlist/WatchlistPanel.tsx:23-35 | loading shows the skeleton, and an empty watchlist then shows the hint |
| AppHeader.MatchesOf | src/components/AppHeader.tsx:42-45 | the matches are exactly the markets whose lower-cased name or symbol contains the lower-cased query, in source order |
| AppHeader.Filtered | src/components/AppHeader.tsx:37-47 | a blank search gives nothing; otherwise the first six matches in market order, so at most six, each matching, and all of them when there are at most six |
| AppHeader.FilteredKeepsSourceOrder | src/components/AppHeader.tsx:42-46 | the results keep the market list's order |
| AppHeader.BlankSearchSaysNoMatches | src/components/AppHeader.tsx:72-76 | a non-empty search of only whitespace opens the list with "No matches" |
| AppHeader.SearchBar.constructor | src/components/AppHeader.tsx:30 | the search starts empty |
| AppHeader.SearchBar.HandleAdd | src/components/AppHeader.tsx:49-56 | an unknown id changes nothing; otherwise the market is added, the search cleared, and its Watch button becomes disabled |
| AppHeader.SearchBar.HandleNavigate | src/components/AppHeader.tsx:58-61 | the search is cleared and the route is `/coins/<id>` |
| AppHeader.Toggled | src/components/AppHeader.tsx:11-12 | the theme always changes |
| AppHeader.ToggleTwiceRestores | src/components/AppHeader.tsx:11-12 | toggling twice restores the theme |
| AppHeader.ThemeToggle.constructor | src/components/AppHeader.tsx:9 | the theme starts dark |
| AppHeader.ThemeToggle.Toggle | src/components/AppHeader.tsx:11-14 | the theme becomes the other one |
| CoinPage.Coalesce | src/pages/CoinPage.tsx:26-33 | `??`: the first value when present, the second otherwise |
| CoinPage.FieldsPreferDetails | src/pages/CoinPage.tsx:26-37 | for each of name, symbol, image, price, market cap and 24h change: the details' value when they hold one, the fallback coin's otherwise; the symbol is upper-cased; the highs, lows and supplies come only from the details' market data, the rank only from the fallback coin |
| CoinPage.TargetCoinId | src/pages/CoinPage.tsx:24 | the chart's coin is always the route id |
| CoinPage.StripTags | src/pages/CoinPage.tsx:44 | removing tags never lengthens the text and adds no character |
| CoinPage.StripTagsRemovesTag | src/pages/CoinPage.tsx:44 | a `<`, one or more characters other than `>`, and a `>` are removed together, and the tag-free text before them is kept |
| CoinPage.StripTagsKeepsPrefix | src/pages/CoinPage.tsx:44 | text without `<` in front of the rest is kept as it is, and only the rest is stripped |
| CoinPage.NoTagLeft | src/pages/CoinPage.tsx:44 | no `<...>` tag is left after stripping |
| CoinPage.StripTagsPlainText | src/pages/CoinPage.tsx:44 | text without `<` is unchanged |
| CoinPage.StripTagsNoClose | src/pages/CoinPage.tsx:44 | text with no `>` is unchanged: a `<` that no `>` follows starts no tag and is kept |
| CoinPage.CollapseNewlines | src/pages/CoinPage.tsx:44 | no newline is left, and the text does not grow |
| CoinPage.CollapseNewlinesRun | src/pages/CoinPage.tsx:44 | a whole run of newlines becomes exactly one space, and the text around it is kept |
| CoinPage.CollapseNewlinesPlainText | src/pages/CoinPage.tsx:44 | text without a newline is unchanged |
| CoinPage.PlainText | src/pages/CoinPage.tsx:44 | the text stripped of tags, with newline runs collapsed and trimmed, holds no newline |
| CoinPage.Description | src/pages/CoinPage.tsx:39-46 | no description exactly for a missing or empty source; otherwise the plain text when it has at most 320 characters, and its first 320 characters followed by an ellipsis when it is longer |
| CoinPage.CleanTextUnchanged | src/pages/CoinPage.tsx:44-45 | short plain text without tags, newlines or surrounding whitespace is shown as it is |
| CoinPage.PageView | src/pages/CoinPage.tsx:64-69 | out of the loading state the page is found exactly when the display name is present and non-empty, so a found page always has a non-empty name |
| CoinPage.PageBranches | src/pages/CoinPage.tsx:55-154 | the skeleton shows exactly in the loading state; otherwise the page is found exactly when the display name is non-empty, and a found page shows the coalesced fields of the details and the fallback coin and the cleaned description of the details; an id known to neither query is not found; a found page draws the chart for the route id exactly when it is non-empty, and warns exactly when the details query failed |
| CoinPage.ListedCoinIsShown | src/pages/CoinPage.tsx:64-69 | once both queries have settled, a named coin in the market list is shown even when its details failed |
| MarketOverview.Seed | src/features/market-data/components/MarketOverview.tsx:15-48 | the seed has four assets |
| MarketOverview.Gainers | src/features/market-data/components/MarketOverview.tsx:55-66 | the number of gainers is at most the number of assets |
| MarketOverview.CountMovers | src/features/market-data/components/MarketOverview.tsx:55-66 | the gainers are the assets with a 24h change of at least 0, and gainers plus decliners is the asset count |
| MarketOverview.SeedMovers | src/features/market-data/components/MarketOverview.tsx:15-48 | the seed has three gainers |
| MarketOverview.TickAsset | src/features/market-data/components/MarketOverview.tsx:73-84 | a moved asset keeps its name and symbol, its 24h change lies in [-12, 12], and its price, volume and market cap are not negative |
| MarketOverview.Tick | src/features/market-data/components/MarketOverview.tsx:72-85 | every asset moves by its own delta, in place in the list |
| MarketOverview.TickKeepsShape | src/features/market-data/components/MarketOverview.tsx:72-85 | a tick keeps the count, order, names and symbols, and leaves every asset in range |
| MarketOverview.ZeroTickIsIdentity | src/features/market-data/components/MarketOverview.tsx:75-83 | a zero move leaves an in-range list unchanged |
| MarketOverview.SeedInRange | src/features/market-data/components/MarketOverview.tsx:15-48 | the seed is in range |
| MarketOverview.Overview.constructor | src/features/market-data/components/MarketOverview.tsx:53 | the overview starts from the seed |
| MarketOverview.Overview.OnInterval | src/features/market-data/components/MarketOverview.tsx:71-87 | the assets become the tick of the old ones and stay in range |

## Left out

- WebSocket transport, `setTimeout`/`setInterval` and `Date.now`: socket and timer callbacks are events, and the clock reading is a parameter of the events that use it.
- `JSON.parse`, `Number(...)` on decimal strings and `console` logging: a frame arrives already parsed, as `InboundFrame`, with numeric price and quantity.
- Events from a superseded socket or an old client (for example, a close that arrives after the hook has replaced its client and sets the status to `closed`) are not modelled. The model drives only the current client.
- BinanceWs.BinanceWebSocketClient: the optional `onStatusChange` and `onError` handlers are always present in the model, as they are for the only caller. Errors are not forwarded, because that handler only logs.
- The `readyState <= OPEN` guard in `disconnect` only decides whether `close()` is called on a socket that is then dropped. The model drops the socket in every case.
- axios, the HTTP round trip and promises: the retry loop runs over a scripted function from attempt number to response. Coingecko.WithRetry does not model the time actually spent waiting. It returns the list of delays instead.
- `getCoinHistory` and `getCoinDetails` send through the same retry loop as `getMarkets`. Only their request configurations are modelled.
- react-query (`useMarketsQuery`, `useCoinDetailsQuery`, caching, `refetch`): `data`, `isLoading` and `isError` are plain inputs to the branch logic.
- zustand `persist` and localStorage: persistence is the `persisted` snapshot field. Rehydration from storage at start-up is not modelled. `persist` also rewrites the snapshot after an `add` that changes nothing, and so does the model.
- The contents of `demoMarkets`, which is not part of this model: the demo list is the parameter `fallback`, and no lemma depends on its contents.
- Common.Lower and Common.Upper: only ASCII letters change case. The Unicode case mappings of `toLowerCase`/`toUpperCase` are not modelled.
- Strings are sequences of characters, not UTF-16 code units. `slice(0, 320)` could split a surrogate pair in the source, and the model cannot.
- Sorting.Sort: stability is not proved. The result is proved sorted, a permutation and, for strings, unique. Ties between equal keys in the markets table and the ticker list follow insertion sort's order.
- The JavaScript object key order that puts integer-like keys first is not modelled. Ticker symbols keep insertion order.
- MarketOverview.Tick: requires one delta per asset, drawn outside. `Math.random` and the uniform range [-1.2, 1.2) are not modelled, and the delta may be any real.
- Floating point: prices, change percentages and the tick arithmetic are exact `real`s. Rounding and `NaN` are not modelled.
- The formatted texts: `trendSummary`'s string, `formatCurrency`/`formatPercent`, `toLocaleTimeString` and `toLocaleString`.
- PriceChart, useInterval, JSX markup and styling, page metadata, routing, authentication, and React StrictMode's double effect runs.
- CoinPage.Description: that no tag is left is proved for the tag-stripping step (CoinPage.NoTagLeft) and not carried through the later steps, which only turn newline runs into spaces, drop surrounding whitespace and cut the text.
