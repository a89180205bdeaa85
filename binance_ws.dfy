/** The streaming trade client (`BinanceWebSocketClient`): one combined-stream
    socket for a list of symbols, trade frames turned into ticker updates,
    a heartbeat that pings an idle socket, and reconnection with capped
    exponential backoff unless the user disconnected.

    The socket, its timers and the clock are not modelled as such: the
    listeners become events (`Event`), the time of an event is a parameter,
    and what a listener does is the pure transition `Step`. The class
    `BinanceWebSocketClient` holds the same fields as the source's class and
    each of its methods is proved to perform `Step`. */
module BinanceWs {
  import opened Common

  const DefaultEndpoint := "wss://data-stream.binance.vision"
  const HeartbeatIntervalMs := 30000
  const IdleThresholdMs := 45000
  const ReconnectBaseDelayMs := 1000
  const ReconnectMaxDelayMs := 15000

  datatype ConnectionStatus = Idle | Connecting | Open | Reconnecting | Closed

  /** The `data` object of a combined-stream frame. `price` and `quantity`
      hold the numbers that the frame's decimal strings `p` and `q` denote. */
  datatype TradePayload = TradePayload(
    eventType: string,    // e
    eventTime: int,       // E
    symbol: string,       // s
    tradeId: int,         // t
    price: real,          // p
    quantity: real,       // q
    buyerOrderId: int,    // b
    sellerOrderId: int,   // a
    tradeTime: int,       // T
    isBuyerMaker: bool,   // m
    isBestMatch: bool)    // M

  /** An inbound frame: text that is not JSON, or a parsed object whose
      `data` member may be missing. */
  datatype InboundFrame = Unparseable | Parsed(data: Option<TradePayload>)

  datatype TickerUpdate = TickerUpdate(
    symbol: string,
    price: real,
    quantity: real,
    tradeId: int,
    eventTime: int,
    tradeTime: int,
    isBuyerMaker: bool,
    raw: TradePayload)

  // ---------------------------------------------------------------------------
  // Stream names and the combined-stream URL

  /** `${symbol.toLowerCase()}@trade`: the symbol, lower-cased, then `@trade`;
      a `/` can only come from the symbol. */
  function StreamName(symbol: string): (r: string)
    ensures |r| == |symbol| + 6 && r[|symbol|..] == "@trade"
    ensures r[..|symbol|] == Lower(symbol) && IsLowerCase(r[..|symbol|])
    ensures '/' in r <==> '/' in symbol
  {
    LowerIsLowerCase(symbol);
    LowerKeepsOtherChars(symbol, '/');
    var r := Lower(symbol) + "@trade";
    assert r[..|symbol|] == Lower(symbol);
    assert '/' in r <==> '/' in Lower(symbol) || '/' in "@trade";
    r
  }

  function StreamPath(symbols: seq<string>): string {
    Join(seq(|symbols|, i requires 0 <= i < |symbols| => StreamName(symbols[i])), '/')
  }

  function StreamUrl(endpoint: string, symbols: seq<string>): (url: string)
    ensures |url| >= |endpoint| + 16 && url[..|endpoint| + 16] == endpoint + "/stream?streams="
  {
    var url := endpoint + "/stream?streams=" + StreamPath(symbols);
    assert url[..|endpoint| + 16] == endpoint + "/stream?streams=";
    url
  }

  /** The URL is the endpoint, then `/stream?streams=`, then one lower-cased
      `symbol@trade` name per symbol, in input order, separated by `/`. */
  lemma StreamUrlLayout(endpoint: string, symbols: seq<string>)
    requires |symbols| > 0
    requires forall k :: 0 <= k < |symbols| ==> '/' !in symbols[k]
    ensures var url := StreamUrl(endpoint, symbols);
      && |url| >= |endpoint| + 16
      && url[..|endpoint| + 16] == endpoint + "/stream?streams="
      && Split(url[|endpoint| + 16..], '/')
         == seq(|symbols|, i requires 0 <= i < |symbols| => Lower(symbols[i]) + "@trade")
  {
    var names := seq(|symbols|, i requires 0 <= i < |symbols| => StreamName(symbols[i]));
    forall k | 0 <= k < |names| ensures '/' !in names[k] {
      LowerKeepsOtherChars(symbols[k], '/');
    }
    SplitJoin(names, '/');
    var url := StreamUrl(endpoint, symbols);
    assert url[|endpoint| + 16..] == StreamPath(symbols);
  }

  /** `createTickerUpdate`: the symbol is lower-cased, the other fields copied. */
  function CreateTickerUpdate(p: TradePayload): (u: TickerUpdate)
    ensures u.symbol == Lower(p.symbol) && IsLowerCase(u.symbol)
    ensures u.price == p.price && u.quantity == p.quantity
    ensures u.tradeId == p.tradeId && u.eventTime == p.eventTime && u.tradeTime == p.tradeTime
    ensures u.isBuyerMaker == p.isBuyerMaker && u.raw == p
  {
    LowerIsLowerCase(p.symbol);
    TickerUpdate(Lower(p.symbol), p.price, p.quantity, p.tradeId, p.eventTime, p.tradeTime, p.isBuyerMaker, p)
  }

  // ---------------------------------------------------------------------------
  // Backoff

  /** Delay before the `attempt`-th consecutive reconnect (`scheduleReconnect`). */
  function BackoffDelay(attempt: nat): (d: nat)
    requires attempt >= 1
    ensures ReconnectBaseDelayMs <= d <= ReconnectMaxDelayMs
  {
    var d := ReconnectBaseDelayMs * Pow2(attempt - 1);
    if d < ReconnectMaxDelayMs then d else ReconnectMaxDelayMs
  }

  /** 1000, 2000, 4000, 8000, then 15000 for ever; never decreasing. */
  lemma BackoffSchedule(n: nat)
    requires n >= 1
    ensures BackoffDelay(1) == 1000 && BackoffDelay(2) == 2000 && BackoffDelay(3) == 4000
    ensures BackoffDelay(4) == 8000 && BackoffDelay(5) == 15000
    ensures n >= 5 ==> BackoffDelay(n) == ReconnectMaxDelayMs
    ensures BackoffDelay(n) <= BackoffDelay(n + 1)
  {
    assert Pow2(4) == 16;
    if n >= 5 { Pow2Monotone(4, n - 1); }
    Pow2Monotone(n - 1, n);
  }

  // ---------------------------------------------------------------------------
  // Client state and its transitions

  /** `WebSocket.readyState`: CONNECTING, OPEN, CLOSING, CLOSED. */
  datatype ReadyState = WsConnecting | WsOpen | WsClosing | WsClosed

  datatype Socket = NoSocket | Live(url: string, readyState: ReadyState)

  datatype Config = Config(symbols: seq<string>, endpoint: string)

  datatype ClientState = ClientState(
    socket: Socket,
    reconnectAttempts: nat,
    heartbeatActive: bool,
    lastMessageAt: int,
    closedByUser: bool)

  /** What the environment can do to the client: the two public calls, the
      four socket listeners and the two timers. */
  datatype Event =
    | ConnectCalled
    | OpenEvent
    | MessageEvent(now: int, frame: InboundFrame)
    | CloseEvent
    | ErrorEvent
    | ReconnectTimer
    | HeartbeatTimer(now: int)
    | DisconnectCalled

  /** The new state and what the step hands to the outside: status changes,
      a delivered update, a scheduled reconnect delay and a sent PING. */
  datatype Outcome = Outcome(
    next: ClientState,
    emitted: seq<ConnectionStatus>,
    delivered: Option<TickerUpdate>,
    reconnectDelay: Option<nat>,
    pingSent: bool)

  function Initial(now: int): ClientState {
    ClientState(NoSocket, 0, false, now, false)
  }

  function WithReadyState(s: Socket, r: ReadyState): Socket {
    if s.Live? then s.(readyState := r) else s
  }

  function Quiet(s: ClientState, emitted: seq<ConnectionStatus>): Outcome {
    Outcome(s, emitted, None, None, false)
  }

  function ConnectStep(cfg: Config, s: ClientState): Outcome {
    if |cfg.symbols| == 0 then Quiet(s, [])
    else
      Quiet(s.(closedByUser := false, socket := Live(StreamUrl(cfg.endpoint, cfg.symbols), WsConnecting)),
            [if s.reconnectAttempts != 0 then Reconnecting else Connecting])
  }

  function OpenStep(s: ClientState): Outcome {
    Quiet(s.(reconnectAttempts := 0, heartbeatActive := true, socket := WithReadyState(s.socket, WsOpen)), [Open])
  }

  /** A trade is delivered only for a parsed frame whose `data.e` is `trade`. */
  function Delivery(frame: InboundFrame): Option<TickerUpdate> {
    if frame.Parsed? && frame.data.Some? && frame.data.value.eventType == "trade"
    then Some(CreateTickerUpdate(frame.data.value))
    else None
  }

  function MessageStep(s: ClientState, now: int, frame: InboundFrame): Outcome {
    Outcome(s.(lastMessageAt := now), [], Delivery(frame), None, false)
  }

  function CloseStep(s: ClientState): Outcome {
    var stopped := s.(heartbeatActive := false, socket := WithReadyState(s.socket, WsClosed));
    if s.closedByUser then Quiet(stopped, [Closed])
    else
      var n := s.reconnectAttempts + 1;
      Outcome(stopped.(reconnectAttempts := n), [Closed, Reconnecting], None, Some(BackoffDelay(n)), false)
  }

  /** Unless the user disconnected, an error asks the socket to close; the
      close listener then runs when the socket reports it (`CloseEvent`). */
  function ErrorStep(s: ClientState): (r: Outcome)
    ensures r.emitted == [] && r.delivered.None? && r.reconnectDelay.None? && !r.pingSent
    ensures r.next.reconnectAttempts == s.reconnectAttempts && r.next.closedByUser == s.closedByUser
    ensures r.next.heartbeatActive == s.heartbeatActive && r.next.lastMessageAt == s.lastMessageAt
    ensures s.closedByUser || s.socket.NoSocket? || s.socket.readyState == WsClosed ==> r.next == s
    ensures !s.closedByUser && s.socket.Live? && s.socket.readyState != WsClosed ==>
      r.next.socket == s.socket.(readyState := WsClosing)
  {
    if !s.closedByUser && s.socket.Live? && s.socket.readyState in {WsConnecting, WsOpen}
    then Quiet(s.(socket := s.socket.(readyState := WsClosing)), [])
    else
      assert s.socket.Live? && s.socket.readyState == WsClosing ==>
        s.socket == Live(s.socket.url, WsClosing);
      Quiet(s, [])
  }

  function ReconnectTimerStep(cfg: Config, s: ClientState): Outcome {
    if s.closedByUser then Quiet(s, []) else ConnectStep(cfg, s)
  }

  predicate ShouldPing(s: ClientState, now: int) {
    s.heartbeatActive && s.socket.Live? && s.socket.readyState == WsOpen
    && now - s.lastMessageAt > IdleThresholdMs
  }

  function HeartbeatStep(s: ClientState, now: int): Outcome {
    Outcome(s, [], None, None, ShouldPing(s, now))
  }

  function DisconnectStep(s: ClientState): Outcome {
    Quiet(s.(closedByUser := true, heartbeatActive := false, socket := NoSocket), [Closed])
  }

  function Step(cfg: Config, s: ClientState, ev: Event): Outcome {
    match ev
    case ConnectCalled => ConnectStep(cfg, s)
    case OpenEvent => OpenStep(s)
    case MessageEvent(now, frame) => MessageStep(s, now, frame)
    case CloseEvent => CloseStep(s)
    case ErrorEvent => ErrorStep(s)
    case ReconnectTimer => ReconnectTimerStep(cfg, s)
    case HeartbeatTimer(now) => HeartbeatStep(s, now)
    case DisconnectCalled => DisconnectStep(s)
  }

  function OptionToSeq<T>(o: Option<T>): seq<T> {
    if o.Some? then [o.value] else []
  }

  /** The outputs of a run of events, concatenated in order. */
  datatype Trace = Trace(final: ClientState, emitted: seq<ConnectionStatus>, delays: seq<nat>, pings: nat)

  function Run(cfg: Config, s: ClientState, evs: seq<Event>): Trace
    decreases |evs|
  {
    if |evs| == 0 then Trace(s, [], [], 0)
    else
      var o := Step(cfg, s, evs[0]);
      var t := Run(cfg, o.next, evs[1..]);
      Trace(t.final, o.emitted + t.emitted, OptionToSeq(o.reconnectDelay) + t.delays,
            (if o.pingSent then 1 else 0) + t.pings)
  }

  // ---------------------------------------------------------------------------
  // Properties of the transitions

  /** With no symbols, `connect` does nothing at all. */
  lemma ConnectWithoutSymbols(cfg: Config, s: ClientState)
    requires |cfg.symbols| == 0
    ensures Step(cfg, s, ConnectCalled) == Outcome(s, [], None, None, false)
  {
  }

  /** `connect` clears `closedByUser`, opens a socket on the combined-stream URL
      and reports `reconnecting` on a retry, `connecting` otherwise. */
  lemma ConnectReportsAttempt(cfg: Config, s: ClientState)
    requires |cfg.symbols| > 0
    ensures var o := Step(cfg, s, ConnectCalled);
      && !o.next.closedByUser
      && o.next.socket == Live(StreamUrl(cfg.endpoint, cfg.symbols), WsConnecting)
      && o.emitted == [if s.reconnectAttempts > 0 then Reconnecting else Connecting]
      && o.next.reconnectAttempts == s.reconnectAttempts
  {
  }

  /** Opening resets the attempt counter, reports `open` and starts the heartbeat,
      so the next drop waits the base delay again. */
  lemma OpenResetsBackoff(cfg: Config, s: ClientState)
    requires !s.closedByUser
    ensures var o := Step(cfg, s, OpenEvent);
      && o.next.reconnectAttempts == 0 && o.next.heartbeatActive && o.emitted == [Open]
      && Step(cfg, o.next, CloseEvent).reconnectDelay == Some(ReconnectBaseDelayMs)
  {
  }

  /** A close stops the heartbeat and reports `closed`; it schedules a reconnect
      (reporting `reconnecting`) exactly when the user has not disconnected. */
  lemma CloseSchedulesReconnect(cfg: Config, s: ClientState)
    ensures var o := Step(cfg, s, CloseEvent);
      && !o.next.heartbeatActive
      && o.emitted[0] == Closed
      && (o.reconnectDelay.Some? <==> !s.closedByUser)
      && (!s.closedByUser ==> o.emitted == [Closed, Reconnecting]
                              && o.next.reconnectAttempts == s.reconnectAttempts + 1
                              && o.reconnectDelay == Some(BackoffDelay(s.reconnectAttempts + 1)))
  {
  }

  /** A reconnect timer that fires after `disconnect` does nothing. */
  lemma TimerAfterDisconnectIsInert(cfg: Config, s: ClientState)
    requires s.closedByUser
    ensures Step(cfg, s, ReconnectTimer) == Outcome(s, [], None, None, false)
  {
  }

  /** `disconnect` marks the session user-terminated, stops the heartbeat, drops
      the socket and reports `closed`; a second call leaves the same state. */
  lemma DisconnectIdempotent(cfg: Config, s: ClientState)
    ensures var o := Step(cfg, s, DisconnectCalled);
      && o.next.closedByUser && !o.next.heartbeatActive && o.next.socket == NoSocket
      && o.emitted == [Closed]
      && Step(cfg, o.next, DisconnectCalled).next == o.next
  {
  }

  /** A PING goes out only while the heartbeat runs on an open socket that has
      been silent for more than 45 seconds, and a tick changes no state. */
  lemma HeartbeatPingsOnlyWhenIdle(cfg: Config, s: ClientState, now: int)
    ensures var o := Step(cfg, s, HeartbeatTimer(now));
      && o.next == s && o.emitted == []
      && (o.pingSent <==> s.heartbeatActive && s.socket.Live? && s.socket.readyState == WsOpen
                          && now - s.lastMessageAt > 45000)
  {
  }

  /** Every frame refreshes `lastMessageAt`; only trade payloads reach the
      handler, lower-cased. */
  lemma MessageDeliversTradesOnly(cfg: Config, s: ClientState, now: int, frame: InboundFrame)
    ensures var o := Step(cfg, s, MessageEvent(now, frame));
      && o.next == s.(lastMessageAt := now) && o.emitted == []
      && (o.delivered.Some? <==> frame.Parsed? && frame.data.Some? && frame.data.value.eventType == "trade")
      && (o.delivered.Some? ==> o.delivered.value.symbol == Lower(frame.data.value.symbol))
  {
  }

  /** `n` rounds of "socket closes, reconnect timer fires" without an open in
      between wait `BackoffDelay(k + 1)`, ..., `BackoffDelay(k + n)`. */
  function DropCycles(n: nat): (evs: seq<Event>)
    ensures |evs| == 2 * n
  {
    if n == 0 then [] else [CloseEvent, ReconnectTimer] + DropCycles(n - 1)
  }

  /** Running two events then the rest: the outputs of each, in order. */
  lemma RunTwo(cfg: Config, s: ClientState, e1: Event, e2: Event, rest: seq<Event>)
    ensures var o1 := Step(cfg, s, e1);
      var o2 := Step(cfg, o1.next, e2);
      var t := Run(cfg, o2.next, rest);
      var all := Run(cfg, s, [e1, e2] + rest);
      && all.final == t.final
      && all.delays == OptionToSeq(o1.reconnectDelay) + OptionToSeq(o2.reconnectDelay) + t.delays
  {
    var evs := [e1, e2] + rest;
    assert evs[1..] == [e2] + rest;
    assert evs[1..][1..] == rest;
  }

  lemma {:induction false} ConsecutiveDropsBackOff(cfg: Config, s: ClientState, n: nat)
    requires !s.closedByUser
    ensures var t := Run(cfg, s, DropCycles(n));
      && t.final.reconnectAttempts == s.reconnectAttempts + n
      && !t.final.closedByUser
      && t.delays == seq(n, i requires 0 <= i < n => BackoffDelay(s.reconnectAttempts + i + 1))
    decreases n
  {
    if n > 0 {
      var closed := Step(cfg, s, CloseEvent);
      var retried := Step(cfg, closed.next, ReconnectTimer);
      assert closed.reconnectDelay == Some(BackoffDelay(s.reconnectAttempts + 1));
      assert retried.reconnectDelay == None;
      assert retried.next.reconnectAttempts == s.reconnectAttempts + 1;
      RunTwo(cfg, s, CloseEvent, ReconnectTimer, DropCycles(n - 1));
      ConsecutiveDropsBackOff(cfg, retried.next, n - 1);
      var rest := Run(cfg, retried.next, DropCycles(n - 1)).delays;
      var want := seq(n, i requires 0 <= i < n => BackoffDelay(s.reconnectAttempts + i + 1));
      assert want == [BackoffDelay(s.reconnectAttempts + 1)] + rest;
    }
  }

  /** From a fresh client the reconnect delays are 1000, 2000, 4000, 8000, 15000. */
  lemma FreshClientBackoff(cfg: Config, now: int)
    ensures Run(cfg, Initial(now), DropCycles(5)).delays == [1000, 2000, 4000, 8000, 15000]
  {
    ConsecutiveDropsBackOff(cfg, Initial(now), 5);
    FirstFiveDelays();
  }

  lemma FirstFiveDelays()
    ensures seq(5, i requires 0 <= i < 5 => BackoffDelay(0 + i + 1)) == [1000, 2000, 4000, 8000, 15000]
  {
    BackoffSchedule(5);
  }

  predicate TransportOnly(ev: Event) {
    ev.MessageEvent? || ev.CloseEvent? || ev.ErrorEvent? || ev.ReconnectTimer? || ev.HeartbeatTimer?
  }

  /** After `disconnect`, nothing the old socket or the timers do brings the
      session back: no socket, no heartbeat, no reconnect, no PING, and every
      status reported is `closed`. */
  lemma {:induction false} DisconnectIsTerminal(cfg: Config, s: ClientState, evs: seq<Event>)
    requires s.closedByUser && s.socket == NoSocket && !s.heartbeatActive
    requires forall k :: 0 <= k < |evs| ==> TransportOnly(evs[k])
    ensures var t := Run(cfg, s, evs);
      && t.final.closedByUser && t.final.socket == NoSocket && !t.final.heartbeatActive
      && t.final.reconnectAttempts == s.reconnectAttempts
      && t.delays == [] && t.pings == 0
      && forall k :: 0 <= k < |t.emitted| ==> t.emitted[k] == Closed
    decreases |evs|
  {
    if |evs| > 0 {
      var o := Step(cfg, s, evs[0]);
      TerminalStep(cfg, s, evs[0]);
      assert forall k :: 0 <= k < |evs[1..]| ==> TransportOnly(evs[1..][k]) by {
        assert forall k :: 0 <= k < |evs[1..]| ==> evs[1..][k] == evs[k + 1];
      }
      DisconnectIsTerminal(cfg, o.next, evs[1..]);
      var t := Run(cfg, o.next, evs[1..]);
      assert Run(cfg, s, evs).emitted == o.emitted + t.emitted;
    }
  }

  /** One socket or timer event after `disconnect`: the session stays closed
      and at most `closed` is reported. */
  lemma TerminalStep(cfg: Config, s: ClientState, ev: Event)
    requires s.closedByUser && s.socket == NoSocket && !s.heartbeatActive
    requires TransportOnly(ev)
    ensures var o := Step(cfg, s, ev);
      && o.next.closedByUser && o.next.socket == NoSocket && !o.next.heartbeatActive
      && o.next.reconnectAttempts == s.reconnectAttempts
      && o.reconnectDelay.None? && !o.pingSent
      && (o.emitted == [] || o.emitted == [Closed])
  {
  }

  /** `connect` followed by `disconnect` leaves no socket, no heartbeat and no
      way for a pending reconnect timer to act. */
  lemma ConnectThenDisconnect(cfg: Config, s: ClientState)
    ensures var t := Run(cfg, s, [ConnectCalled, DisconnectCalled]);
      && t.final.socket == NoSocket && !t.final.heartbeatActive && t.final.closedByUser
      && t.delays == []
      && Step(cfg, t.final, ReconnectTimer).next == t.final
  {
    var evs := [ConnectCalled, DisconnectCalled];
    assert evs[1..] == [DisconnectCalled];
    assert evs[1..][1..] == [];
  }

  // ---------------------------------------------------------------------------
  // The client object

  class BinanceWebSocketClient {
    const symbols: seq<string>
    const endpoint: string
    var socket: Socket
    var reconnectAttempts: nat
    var heartbeatActive: bool
    var lastMessageAt: int
    var closedByUser: bool
    /** Every `onStatusChange` call, in order. */
    ghost var statusLog: seq<ConnectionStatus>
    /** Every delay passed to the reconnect timer, in order. */
    ghost var reconnectDelays: seq<nat>

    function Cfg(): Config {
      Config(symbols, endpoint)
    }

    function State(): ClientState
      reads this
    {
      ClientState(socket, reconnectAttempts, heartbeatActive, lastMessageAt, closedByUser)
    }

    /** `now` is the clock reading that initialises `lastMessageAt`. */
    constructor (symbols: seq<string>, endpoint: string, now: int)
      ensures this.symbols == symbols && this.endpoint == endpoint
      ensures State() == Initial(now)
      ensures statusLog == [] && reconnectDelays == []
    {
      this.symbols := symbols;
      this.endpoint := endpoint;
      socket := NoSocket;
      reconnectAttempts := 0;
      heartbeatActive := false;
      lastMessageAt := now;
      closedByUser := false;
      statusLog := [];
      reconnectDelays := [];
    }

    method Connect() returns (emitted: seq<ConnectionStatus>)
      modifies this
      ensures var o := Step(Cfg(), old(State()), ConnectCalled);
        State() == o.next && emitted == o.emitted
      ensures statusLog == old(statusLog) + emitted && reconnectDelays == old(reconnectDelays)
    {
      emitted := [];
      if |symbols| == 0 {
        return;
      }
      closedByUser := false;
      emitted := [if reconnectAttempts != 0 then Reconnecting else Connecting];
      statusLog := statusLog + emitted;
      var url := StreamUrl(endpoint, symbols);
      socket := Live(url, WsConnecting);
    }

    method OnOpen() returns (emitted: seq<ConnectionStatus>)
      modifies this
      ensures var o := Step(Cfg(), old(State()), OpenEvent);
        State() == o.next && emitted == o.emitted
      ensures statusLog == old(statusLog) + emitted && reconnectDelays == old(reconnectDelays)
    {
      reconnectAttempts := 0;
      socket := WithReadyState(socket, WsOpen);
      emitted := [Open];
      statusLog := statusLog + emitted;
      StartHeartbeat();
    }

    method OnMessage(now: int, frame: InboundFrame) returns (delivered: Option<TickerUpdate>)
      modifies this
      ensures var o := Step(Cfg(), old(State()), MessageEvent(now, frame));
        State() == o.next && delivered == o.delivered
      ensures statusLog == old(statusLog) && reconnectDelays == old(reconnectDelays)
    {
      lastMessageAt := now;
      delivered := None;
      if frame.Parsed? && frame.data.Some? && frame.data.value.eventType == "trade" {
        delivered := Some(CreateTickerUpdate(frame.data.value));
      }
    }

    method OnClose() returns (emitted: seq<ConnectionStatus>, reconnectDelay: Option<nat>)
      modifies this
      ensures var o := Step(Cfg(), old(State()), CloseEvent);
        State() == o.next && emitted == o.emitted && reconnectDelay == o.reconnectDelay
      ensures statusLog == old(statusLog) + emitted
      ensures reconnectDelays == old(reconnectDelays) + OptionToSeq(reconnectDelay)
    {
      StopHeartbeat();
      socket := WithReadyState(socket, WsClosed);
      emitted := [Closed];
      statusLog := statusLog + [Closed];
      reconnectDelay := None;
      if !closedByUser {
        var more, delay := ScheduleReconnect();
        emitted := emitted + more;
        reconnectDelay := Some(delay);
      }
    }

    method OnError()
      modifies this
      ensures State() == Step(Cfg(), old(State()), ErrorEvent).next
      ensures statusLog == old(statusLog) && reconnectDelays == old(reconnectDelays)
    {
      if !closedByUser && socket.Live? && socket.readyState in {WsConnecting, WsOpen} {
        socket := socket.(readyState := WsClosing);
      }
    }

    method Disconnect() returns (emitted: seq<ConnectionStatus>)
      modifies this
      ensures var o := Step(Cfg(), old(State()), DisconnectCalled);
        State() == o.next && emitted == o.emitted
      ensures statusLog == old(statusLog) + emitted && reconnectDelays == old(reconnectDelays)
    {
      closedByUser := true;
      StopHeartbeat();
      socket := NoSocket;
      emitted := [Closed];
      statusLog := statusLog + emitted;
    }

    /** The heartbeat interval's callback; it changes no field. */
    method HeartbeatTick(now: int) returns (sendPing: bool)
      ensures sendPing <==> heartbeatActive && socket.Live? && socket.readyState == WsOpen
                            && now - lastMessageAt > IdleThresholdMs
    {
      if !heartbeatActive || !socket.Live? || socket.readyState != WsOpen {
        return false;
      }
      var idleFor := now - lastMessageAt;
      sendPing := idleFor > IdleThresholdMs;
    }

    /** The callback of a timer set by `ScheduleReconnect`. */
    method OnReconnectTimer() returns (emitted: seq<ConnectionStatus>)
      modifies this
      ensures var o := Step(Cfg(), old(State()), ReconnectTimer);
        State() == o.next && emitted == o.emitted
      ensures statusLog == old(statusLog) + emitted && reconnectDelays == old(reconnectDelays)
    {
      if closedByUser {
        return [];
      }
      emitted := Connect();
    }

    method StartHeartbeat()
      modifies this`heartbeatActive
      ensures heartbeatActive
    {
      StopHeartbeat();
      heartbeatActive := true;
    }

    method StopHeartbeat()
      modifies this`heartbeatActive
      ensures !heartbeatActive
    {
      if heartbeatActive {
        heartbeatActive := false;
      }
    }

    method ScheduleReconnect() returns (emitted: seq<ConnectionStatus>, delay: nat)
      modifies this`reconnectAttempts, this`statusLog, this`reconnectDelays
      ensures reconnectAttempts == old(reconnectAttempts) + 1
      ensures delay == BackoffDelay(reconnectAttempts) && emitted == [Reconnecting]
      ensures statusLog == old(statusLog) + emitted
      ensures reconnectDelays == old(reconnectDelays) + [delay]
    {
      reconnectAttempts := reconnectAttempts + 1;
      delay := BackoffDelay(reconnectAttempts);
      emitted := [Reconnecting];
      statusLog := statusLog + emitted;
      reconnectDelays := reconnectDelays + [delay];
    }
  }
}
