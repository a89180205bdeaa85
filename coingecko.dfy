/** The market-data API client: the rate-limit retry loop `withRetry`, the
    optional API-key parameter (`appendKey`) and the request configurations
    built by `getMarkets`, `getCoinHistory` and `getCoinDetails`.

    The HTTP transport is not modelled: `respond(k)` is what the `k`-th
    attempt of a request yields, and the timer between attempts is recorded
    as the list of delays waited. */
module Coingecko {
  import opened Common

  const RateLimitStatus := 429
  const DefaultRetries := 3
  const DefaultBaseDelayMs := 500
  const DefaultApiKeyParam := "x_cg_demo_api_key"
  const DefaultPerPage := 20
  const DefaultPage := 1

  /** One row of `/coins/markets`. */
  datatype Market = Market(
    id: string,
    symbol: string,
    name: string,
    image: string,
    currentPrice: real,
    marketCap: real,
    marketCapRank: int,
    totalVolume: real,
    priceChangePercentage24h: real)

  /** What one attempt yields: the data, or an error carrying the HTTP status
      when a response arrived (`error.response?.status`). */
  datatype Response<T> = Ok(data: T) | Failed(status: Option<int>)

  predicate IsRateLimited<T>(r: Response<T>) {
    r.Failed? && r.status == Some(RateLimitStatus)
  }

  // ---------------------------------------------------------------------------
  // withRetry

  /** Number of attempts `withRetry` makes when it has reached attempt `k`:
      it goes on while the answer is 429 and the budget lasts. */
  function AttemptCount<T>(respond: nat -> Response<T>, retries: nat, k: nat): (n: nat)
    requires k <= retries
    ensures k < n <= retries + 1
    ensures forall j :: k <= j < n - 1 ==> IsRateLimited(respond(j))
    ensures !IsRateLimited(respond(n - 1)) || n == retries + 1
    decreases retries - k
  {
    if IsRateLimited(respond(k)) && k < retries then AttemptCount(respond, retries, k + 1)
    else k + 1
  }

  /** The retry loop. It returns the last answer: the first that is not a 429,
      or the 429 that exhausted the budget (which the caller receives as an
      error). Before retry `k` it waits `baseDelay * 2^k`. */
  method WithRetry<T>(respond: nat -> Response<T>, retries: nat, baseDelay: nat)
    returns (result: Response<T>, attempts: nat, delays: seq<nat>)
    ensures attempts == AttemptCount(respond, retries, 0)
    ensures 1 <= attempts <= retries + 1 && result == respond(attempts - 1)
    ensures forall k :: 0 <= k < attempts - 1 ==> IsRateLimited(respond(k))
    ensures IsRateLimited(result) ==> attempts == retries + 1
    ensures delays == seq(attempts - 1, k requires 0 <= k < attempts - 1 => baseDelay * Pow2(k))
  {
    var attempt: nat := 0;
    delays := [];
    while true
      invariant attempt <= retries
      invariant AttemptCount(respond, retries, attempt) == AttemptCount(respond, retries, 0)
      invariant forall k :: 0 <= k < attempt ==> IsRateLimited(respond(k))
      invariant delays == seq(attempt, k requires 0 <= k < attempt => baseDelay * Pow2(k))
      decreases retries - attempt
    {
      var answer := respond(attempt);
      if answer.Ok? {
        return answer, attempt + 1, delays;
      }
      if answer.status == Some(RateLimitStatus) && attempt < retries {
        var delay := baseDelay * Pow2(attempt);
        delays := delays + [delay];
        attempt := attempt + 1;
        continue;
      }
      return answer, attempt + 1, delays;
    }
  }

  /** Answers that are all 429 cause exactly `retries + 1` requests. */
  lemma {:induction false} AllRateLimitedExhaustsBudget<T>(respond: nat -> Response<T>, retries: nat, k: nat)
    requires k <= retries
    requires forall j :: IsRateLimited(respond(j))
    ensures AttemptCount(respond, retries, k) == retries + 1
    decreases retries - k
  {
    if k < retries { AllRateLimitedExhaustsBudget(respond, retries, k + 1); }
  }

  /** A success, or any failure other than 429, ends the loop at once. */
  lemma FirstAnswerNotRateLimited<T>(respond: nat -> Response<T>, retries: nat)
    requires !IsRateLimited(respond(0))
    ensures AttemptCount(respond, retries, 0) == 1
  {
  }

  /** One 429 followed by a success: two requests and the success's data. */
  lemma OneRateLimitThenSuccess<T>(data: T)
    ensures var respond := (k: nat) => if k == 0 then Failed(Some(RateLimitStatus)) else Ok(data);
      && AttemptCount(respond, DefaultRetries, 0) == 2
      && respond(AttemptCount(respond, DefaultRetries, 0) - 1) == Ok(data)
  {
    var respond := (k: nat) => if k == 0 then Failed(Some(RateLimitStatus)) else Ok(data);
    assert IsRateLimited(respond(0)) && !IsRateLimited(respond(1));
    assert AttemptCount(respond, DefaultRetries, 1) == 2;
  }

  /** With the defaults the waits are 500, 1000 and 2000 ms: four requests in all. */
  lemma DefaultSchedule()
    ensures seq(DefaultRetries, k requires 0 <= k < DefaultRetries => DefaultBaseDelayMs * Pow2(k))
            == [500, 1000, 2000]
  {
    assert Pow2(1) == 2 && Pow2(2) == 4;
  }

  // ---------------------------------------------------------------------------
  // Request configurations

  datatype ParamValue = PStr(s: string) | PInt(n: int) | PBool(b: bool) | PUndefined

  datatype RequestConfig = RequestConfig(url: string, httpMethod: string, params: Option<map<string, ParamValue>>)

  /** The two build-time settings: the key (absent or empty means none) and
      the name of its query parameter. */
  datatype ApiKeySettings = ApiKeySettings(apiKey: Option<string>, keyParam: Option<string>)

  function KeyParamName(env: ApiKeySettings): string {
    env.keyParam.GetOr(DefaultApiKeyParam)
  }

  predicate HasKey(env: ApiKeySettings) {
    env.apiKey.Some? && env.apiKey.value != ""
  }

  /** `appendKey`: with no key the config is returned as it is; otherwise the
      key is added under its parameter name and every other parameter and
      field is kept. */
  function AppendKey(config: RequestConfig, env: ApiKeySettings): (r: RequestConfig)
    ensures !HasKey(env) ==> r == config
    ensures HasKey(env) ==>
      && r.url == config.url && r.httpMethod == config.httpMethod && r.params.Some?
      && r.params.value.Keys == config.params.GetOr(map[]).Keys + {KeyParamName(env)}
      && r.params.value[KeyParamName(env)] == PStr(env.apiKey.value)
      && forall k :: k in config.params.GetOr(map[]) && k != KeyParamName(env) ==>
           r.params.value[k] == config.params.value[k]
  {
    if !HasKey(env) then config
    else
      var params := config.params.GetOr(map[])[KeyParamName(env) := PStr(env.apiKey.value)];
      config.(params := Some(params))
  }

  datatype MarketsQuery = MarketsQuery(vsCurrency: string, perPage: Option<int>, page: Option<int>)

  function MarketsConfig(q: MarketsQuery, env: ApiKeySettings): (c: RequestConfig)
    ensures c.url == "/coins/markets" && c.httpMethod == "GET" && c.params.Some?
    ensures c.params.value.Keys ==
      {"vs_currency", "per_page", "page", "order", "price_change_percentage", "sparkline"}
      + (if HasKey(env) then {KeyParamName(env)} else {})
    ensures HasKey(env) ==> c.params.value[KeyParamName(env)] == PStr(env.apiKey.value)
  {
    AppendKey(RequestConfig("/coins/markets", "GET", Some(map[
      "vs_currency" := PStr(q.vsCurrency),
      "per_page" := PInt(q.perPage.GetOr(DefaultPerPage)),
      "page" := PInt(q.page.GetOr(DefaultPage)),
      "order" := PStr("market_cap_desc"),
      "price_change_percentage" := PStr("1h,24h,7d"),
      "sparkline" := PBool(false)])), env)
  }

  /** `getMarkets` asks for 20 rows of page 1 unless told otherwise, always by
      market cap descending and without sparklines. */
  lemma MarketsConfigDefaults(q: MarketsQuery, env: ApiKeySettings)
    requires KeyParamName(env) !in {"vs_currency", "per_page", "page", "order", "price_change_percentage", "sparkline"}
    ensures var c := MarketsConfig(q, env);
      && c.url == "/coins/markets" && c.httpMethod == "GET" && c.params.Some?
      && c.params.value["vs_currency"] == PStr(q.vsCurrency)
      && c.params.value["per_page"] == PInt(if q.perPage.None? then 20 else q.perPage.value)
      && c.params.value["page"] == PInt(if q.page.None? then 1 else q.page.value)
      && c.params.value["order"] == PStr("market_cap_desc")
      && c.params.value["sparkline"] == PBool(false)
      && (HasKey(env) <==> KeyParamName(env) in c.params.value)
  {
  }

  datatype HistoryQuery = HistoryQuery(id: string, days: ParamValue, interval: Option<string>)

  function HistoryConfig(q: HistoryQuery, env: ApiKeySettings): (c: RequestConfig)
    ensures c.url == "/coins/" + q.id + "/market_chart" && c.httpMethod == "GET"
    ensures c.params.Some?
    ensures c.params.value.Keys == {"days", "interval"} + (if HasKey(env) then {KeyParamName(env)} else {})
    ensures KeyParamName(env) != "days" || !HasKey(env) ==> c.params.value["days"] == q.days
    ensures KeyParamName(env) != "interval" || !HasKey(env) ==>
      c.params.value["interval"] == (if q.interval.None? then PUndefined else PStr(q.interval.value))
    ensures HasKey(env) ==> c.params.value[KeyParamName(env)] == PStr(env.apiKey.value)
  {
    AppendKey(RequestConfig("/coins/" + q.id + "/market_chart", "GET", Some(map[
      "days" := q.days,
      "interval" := if q.interval.Some? then PStr(q.interval.value) else PUndefined])), env)
  }

  function DetailsConfig(id: string, env: ApiKeySettings): (c: RequestConfig)
    ensures c.url == "/coins/" + id && c.httpMethod == "GET" && c.params.Some?
    ensures c.params.value.Keys ==
      {"localization", "tickers", "community_data", "developer_data", "sparkline"}
      + (if HasKey(env) then {KeyParamName(env)} else {})
    ensures forall k :: k in c.params.value && (k != KeyParamName(env) || !HasKey(env)) ==>
      c.params.value[k] == PBool(false)
    ensures HasKey(env) ==> c.params.value[KeyParamName(env)] == PStr(env.apiKey.value)
  {
    AppendKey(RequestConfig("/coins/" + id, "GET", Some(map[
      "localization" := PBool(false),
      "tickers" := PBool(false),
      "community_data" := PBool(false),
      "developer_data" := PBool(false),
      "sparkline" := PBool(false)])), env)
  }

  /** `getMarkets`: the request is built once and sent through the retry loop
      with the default budget and base delay. */
  method GetMarkets(q: MarketsQuery, env: ApiKeySettings, respond: nat -> Response<seq<Market>>)
    returns (config: RequestConfig, result: Response<seq<Market>>, attempts: nat)
    ensures config == MarketsConfig(q, env)
    ensures attempts == AttemptCount(respond, DefaultRetries, 0) && result == respond(attempts - 1)
  {
    config := MarketsConfig(q, env);
    var delays;
    result, attempts, delays := WithRetry(respond, DefaultRetries, DefaultBaseDelayMs);
  }
}
