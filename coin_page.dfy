/** The coin page (`CoinPage`): the fallback coin found by id, each field
    taken from the details when present and from the fallback coin otherwise,
    the description cleaned of markup and cut to 320 characters, and the
    choice between loading, not-found and the details section. */
module CoinPage {
  import opened Common
  import opened Coingecko
  import opened Fallback

  const DescriptionLimit := 320
  const Ellipsis := '\U{2026}'

  /** The part of the details response the page reads. Each `Record<string,
      number>` is a map from currency to value; `totalSupply` is `None` for
      both a missing and a `null` value. */
  datatype DetailsMarketData = DetailsMarketData(
    currentPrice: Option<map<string, real>>,
    marketCap: Option<map<string, real>>,
    high24h: Option<map<string, real>>,
    low24h: Option<map<string, real>>,
    priceChangePercentage24h: Option<real>,
    circulatingSupply: Option<real>,
    totalSupply: Option<real>)

  datatype CoinDetails = CoinDetails(
    id: string,
    symbol: string,
    name: string,
    descriptionEn: Option<string>,
    imageLarge: Option<string>,
    marketData: Option<DetailsMarketData>)

  /** `record?.usd`. */
  function Usd(r: Option<map<string, real>>): Option<real> {
    if r.Some? && "usd" in r.value then Some(r.value["usd"]) else None
  }

  /** `a ?? b` on optional values. */
  function Coalesce<T>(a: Option<T>, b: Option<T>): (r: Option<T>)
    ensures a.Some? ==> r == a
    ensures a.None? ==> r == b
  {
    if a.Some? then a else b
  }

  // ---------------------------------------------------------------------------
  // Fields

  datatype CoinFields = CoinFields(
    name: Option<string>,
    symbol: Option<string>,
    image: Option<string>,
    currentPrice: Option<real>,
    marketCap: Option<real>,
    priceChange24h: Option<real>,
    high24h: Option<real>,
    low24h: Option<real>,
    circulatingSupply: Option<real>,
    totalSupply: Option<real>,
    rank: Option<int>)

  function MapOpt<T, U>(o: Option<T>, f: T -> U): Option<U> {
    if o.Some? then Some(f(o.value)) else None
  }

  /** `details?.market_data`. */
  function MarketDataOf(details: Option<CoinDetails>): Option<DetailsMarketData> {
    if details.Some? then details.value.marketData else None
  }

  function FieldsOf(details: Option<CoinDetails>, coin: Option<Market>): CoinFields {
    var md := MarketDataOf(details);
    CoinFields(
      Coalesce(MapOpt(details, (d: CoinDetails) => d.name), MapOpt(coin, (m: Market) => m.name)),
      MapOpt(Coalesce(MapOpt(details, (d: CoinDetails) => d.symbol), MapOpt(coin, (m: Market) => m.symbol)), Upper),
      Coalesce(if details.Some? then details.value.imageLarge else None, MapOpt(coin, (m: Market) => m.image)),
      Coalesce(if md.Some? then Usd(md.value.currentPrice) else None, MapOpt(coin, (m: Market) => m.currentPrice)),
      Coalesce(if md.Some? then Usd(md.value.marketCap) else None, MapOpt(coin, (m: Market) => m.marketCap)),
      Coalesce(if md.Some? then md.value.priceChangePercentage24h else None,
               MapOpt(coin, (m: Market) => m.priceChangePercentage24h)),
      if md.Some? then Usd(md.value.high24h) else None,
      if md.Some? then Usd(md.value.low24h) else None,
      if md.Some? then md.value.circulatingSupply else None,
      if md.Some? then md.value.totalSupply else None,
      MapOpt(coin, (m: Market) => m.marketCapRank))
  }

  /** Each shared field comes from the details when they hold it and from
      the fallback coin otherwise; the symbol is upper-cased either way. The
      24h high and low and the supplies exist only in the details, the rank
      only in the fallback coin. */
  lemma FieldsPreferDetails(details: Option<CoinDetails>, coin: Option<Market>)
    ensures var f := FieldsOf(details, coin);
      && (details.Some? ==> f.name == Some(details.value.name))
      && (details.None? ==> f.name == MapOpt(coin, (m: Market) => m.name))
      && (details.Some? ==> f.symbol == Some(Upper(details.value.symbol)))
      && (details.None? && coin.Some? ==> f.symbol == Some(Upper(coin.value.symbol)))
      && (details.None? && coin.None? ==> f.symbol.None?)
    ensures var f := FieldsOf(details, coin);
      && (details.Some? && details.value.imageLarge.Some? ==> f.image == details.value.imageLarge)
      && ((details.None? || details.value.imageLarge.None?) ==>
            f.image == MapOpt(coin, (m: Market) => m.image))
    ensures var f := FieldsOf(details, coin); var md := MarketDataOf(details);
      && (md.Some? && Usd(md.value.currentPrice).Some? ==> f.currentPrice == Usd(md.value.currentPrice))
      && ((md.None? || Usd(md.value.currentPrice).None?) ==>
            f.currentPrice == MapOpt(coin, (m: Market) => m.currentPrice))
      && (md.Some? && Usd(md.value.marketCap).Some? ==> f.marketCap == Usd(md.value.marketCap))
      && ((md.None? || Usd(md.value.marketCap).None?) ==>
            f.marketCap == MapOpt(coin, (m: Market) => m.marketCap))
      && (md.Some? && md.value.priceChangePercentage24h.Some? ==>
            f.priceChange24h == md.value.priceChangePercentage24h)
      && ((md.None? || md.value.priceChangePercentage24h.None?) ==>
            f.priceChange24h == MapOpt(coin, (m: Market) => m.priceChangePercentage24h))
    ensures var f := FieldsOf(details, coin); var md := MarketDataOf(details);
      && (md.Some? ==>
            && f.high24h == Usd(md.value.high24h) && f.low24h == Usd(md.value.low24h)
            && f.circulatingSupply == md.value.circulatingSupply
            && f.totalSupply == md.value.totalSupply)
      && (md.None? ==>
            f.high24h.None? && f.low24h.None? && f.circulatingSupply.None? && f.totalSupply.None?)
      && f.rank == MapOpt(coin, (m: Market) => m.marketCapRank)
  {
  }

  /** `id ?? fallbackCoin?.id ?? ''`: the route id is always a string (it
      defaults to `''`), so the chart's coin is always the route id. */
  function TargetCoinId(id: string, coin: Option<Market>): (r: string)
    ensures r == id
  {
    Some(id).GetOr(if coin.Some? then coin.value.id else "")
  }

  // ---------------------------------------------------------------------------
  // The description

  /** `s.replace(/<[^>]+>/g, '')`: a `<` followed by at least one character
      other than `>` and then a `>` is removed together with them; any other
      character stays. */
  function StripTags(s: string): (r: string)
    ensures |r| <= |s|
    ensures forall c :: c in r ==> c in s
    decreases |s|
  {
    if |s| == 0 then ""
    else if TagAt(s, 0) then
      var k := IndexOf(s[1..], '>').value;
      StripTags(s[k + 2..])
    else
      var rest := StripTags(s[1..]);
      assert forall c :: c in [s[0]] + rest ==> c == s[0] || c in rest;
      [s[0]] + rest
  }

  /** A tag starts at `i`: `<`, one or more characters other than `>`, `>`. */
  predicate TagAt(s: string, i: nat) {
    i < |s| && s[i] == '<' && IndexOf(s[i + 1..], '>').Some? && IndexOf(s[i + 1..], '>').value >= 1
  }

  /** No tag is left after stripping. */
  lemma {:induction false} NoTagLeft(s: string)
    ensures forall i: nat :: !TagAt(StripTags(s), i)
    decreases |s|
  {
    if |s| == 0 {
    } else if TagAt(s, 0) {
      var k := IndexOf(s[1..], '>').value;
      NoTagLeft(s[k + 2..]);
    } else {
      var rest := StripTags(s[1..]);
      var r := [s[0]] + rest;
      NoTagLeft(s[1..]);
      forall i: nat ensures !TagAt(r, i) {
        if 0 < i < |r| {
          assert r[i + 1..] == rest[i..];
          assert !TagAt(rest, i - 1);
        } else if i == 0 && s[0] == '<' {
          // Here no `>` follows at all, or one follows at once.
          if IndexOf(s[1..], '>').None? {
            assert '>' !in rest;
            assert r[1..] == rest;
          } else {
            assert s[1] == '>';
            assert s[1..][0] == '>' && !TagAt(s[1..], 0);
            assert rest[0] == '>';
            assert r[1..] == rest;
          }
        }
      }
    }
  }

  /** A tag is removed whole and the markup-free text before it is kept. */
  lemma StripTagsRemovesTag(a: string, t: string, b: string)
    requires '<' !in a && |t| > 0 && '>' !in t
    ensures StripTags(a + ['<'] + t + ['>'] + b) == a + StripTags(b)
  {
    var tag := ['<'] + t + ['>'] + b;
    Regroup(a, t, b);
    StripTagsKeepsPrefix(a, tag);
    StripTagsLeadingTag(t, b);
  }

  lemma Regroup(a: string, t: string, b: string)
    ensures a + ['<'] + t + ['>'] + b == a + (['<'] + t + ['>'] + b)
  {
  }

  /** With no `>` anywhere, no tag can start: every `<` is kept, and so is
      the rest of the text. */
  lemma {:induction false} StripTagsNoClose(s: string)
    requires '>' !in s
    ensures StripTags(s) == s
    decreases |s|
  {
    if |s| > 0 {
      assert '>' !in s[1..];
      assert !TagAt(s, 0);
      StripTagsNoClose(s[1..]);
      assert s == [s[0]] + s[1..];
    }
  }

  /** Text without `<` before the rest is kept as it is. */
  lemma {:induction false} StripTagsKeepsPrefix(a: string, u: string)
    requires '<' !in a
    ensures StripTags(a + u) == a + StripTags(u)
    decreases |a|
  {
    if |a| > 0 {
      assert a + u == [a[0]] + (a[1..] + u);
      StripTagsKeepsHead(a[0], a[1..] + u);
      StripTagsKeepsPrefix(a[1..], u);
      assert a == [a[0]] + a[1..];
    } else {
      assert a + u == u;
    }
  }

  lemma StripTagsLeadingTag(t: string, b: string)
    requires |t| > 0 && '>' !in t
    ensures StripTags(['<'] + t + ['>'] + b) == StripTags(b)
  {
    var s := ['<'] + t + ['>'] + b;
    FirstCloseAfter(t, b);
    assert s[1..] == t + ['>'] + b;
    assert TagAt(s, 0);
    assert s[|t| + 2..] == b;
  }

  lemma StripTagsKeepsHead(c: char, s: string)
    requires c != '<'
    ensures StripTags([c] + s) == [c] + StripTags(s)
  {
    assert ([c] + s)[1..] == s;
  }

  /** The first `>` of `t + ['>'] + b` is the one after `t` when `t` has none. */
  lemma FirstCloseAfter(t: string, b: string)
    requires '>' !in t
    ensures IndexOf(t + ['>'] + b, '>') == Some(|t|)
  {
    var u := t + ['>'] + b;
    assert u[|t|] == '>';
  }

  /** Markup-free text is not changed by the stripping. */
  lemma {:induction false} StripTagsPlainText(s: string)
    requires '<' !in s
    ensures StripTags(s) == s
    decreases |s|
  {
    if |s| > 0 {
      StripTagsPlainText(s[1..]);
      assert s == [s[0]] + s[1..];
    }
  }

  /** Length of the run of newlines at the front of `s`. */
  function NewlineRun(s: string): (n: nat)
    ensures n <= |s|
    ensures forall k :: 0 <= k < n ==> s[k] == '\n'
    ensures n < |s| ==> s[n] != '\n'
  {
    if |s| == 0 || s[0] != '\n' then 0 else 1 + NewlineRun(s[1..])
  }

  /** `s.replace(/\n+/g, ' ')`: each run of newlines becomes one space. */
  function CollapseNewlines(s: string): (r: string)
    ensures '\n' !in r
    ensures |r| <= |s|
    decreases |s|
  {
    if |s| == 0 then ""
    else if s[0] == '\n' then " " + CollapseNewlines(s[NewlineRun(s)..])
    else [s[0]] + CollapseNewlines(s[1..])
  }

  lemma {:induction false} CollapseNewlinesPlainText(s: string)
    requires '\n' !in s
    ensures CollapseNewlines(s) == s
    decreases |s|
  {
    if |s| > 0 {
      CollapseNewlinesPlainText(s[1..]);
      assert s == [s[0]] + s[1..];
    }
  }

  /** A run of newlines between newline-free text and text that does not
      start with a newline becomes one space. */
  lemma {:induction false} CollapseNewlinesRun(a: string, k: nat, b: string)
    requires '\n' !in a && k > 0 && (b == [] || b[0] != '\n')
    ensures CollapseNewlines(a + seq(k, _ => '\n') + b) == a + [' '] + CollapseNewlines(b)
    decreases |a|
  {
    var s := a + seq(k, _ => '\n') + b;
    if |a| == 0 {
      assert s == seq(k, _ => '\n') + b;
      RunLength(k, b);
      assert s[k..] == b;
    } else {
      assert s[0] == a[0];
      assert s[1..] == a[1..] + seq(k, _ => '\n') + b;
      CollapseNewlinesRun(a[1..], k, b);
      assert a == [a[0]] + a[1..];
    }
  }

  lemma {:induction false} RunLength(k: nat, b: string)
    requires b == [] || b[0] != '\n'
    ensures NewlineRun(seq(k, _ => '\n') + b) == k
  {
    if k > 0 {
      var s := seq(k, _ => '\n') + b;
      assert s[1..] == seq(k - 1, _ => '\n') + b;
      RunLength(k - 1, b);
    } else {
      assert seq(k, _ => '\n') + b == b;
    }
  }

  /** The text the description is cut from: markup stripped, newline runs
      collapsed, surrounding whitespace trimmed. */
  function PlainText(s: string): (r: string)
    ensures '\n' !in r
  {
    var collapsed := CollapseNewlines(StripTags(s));
    TrimKeeps(collapsed, '\n');
    Trim(collapsed)
  }

  /** A character absent from `s` is absent from its trim. */
  lemma TrimKeeps(s: string, c: char)
    requires c !in s
    ensures c !in Trim(s)
  {
    var i, j :| 0 <= i <= j <= |s| && IsBlank(s[..i]) && IsBlank(s[j..]) && Trim(s) == s[i..j];
    assert forall k :: 0 <= k < j - i ==> s[i..j][k] == s[i + k];
  }

  /** The `description` memo: nothing for a missing or empty source;
      otherwise the plain text, cut to its first 320 characters followed by
      an ellipsis when it is longer. */
  function Description(raw: Option<string>): (r: Option<string>)
    ensures raw.None? || raw == Some("") <==> r.None?
    ensures r.Some? && |PlainText(raw.value)| > DescriptionLimit ==>
      r.value == PlainText(raw.value)[..DescriptionLimit] + [Ellipsis]
    ensures r.Some? && |PlainText(raw.value)| <= DescriptionLimit ==>
      r.value == PlainText(raw.value)
    ensures r.Some? ==> |r.value| <= DescriptionLimit + 1 && '\n' !in r.value
  {
    if raw.None? || raw.value == "" then None
    else
      var plain := PlainText(raw.value);
      if |plain| > DescriptionLimit then
        var cut := plain[..DescriptionLimit];
        assert forall k :: 0 <= k < |cut| ==> cut[k] == plain[k];
        Some(cut + [Ellipsis])
      else Some(plain)
  }

  /** Text that is already clean (no markup, no newline, nothing to trim) and
      at most 320 characters long is shown as it is. */
  lemma CleanTextUnchanged(s: string)
    requires 0 < |s| <= DescriptionLimit
    requires '<' !in s && '\n' !in s
    requires !IsWhitespace(s[0]) && !IsWhitespace(s[|s| - 1])
    ensures Description(Some(s)) == Some(s)
  {
    StripTagsPlainText(s);
    CollapseNewlinesPlainText(s);
    assert LeadingSpace(s) == 0;
    assert s[0..] == s;
    assert TrailingSpace(s) == 0;
    assert s[0..|s| - 0] == s;
  }

  // ---------------------------------------------------------------------------
  // What is rendered

  /** `isLoadingState`. */
  predicate IsLoadingState(coin: Option<Market>, marketsLoading: bool, coinLoading: bool, details: Option<CoinDetails>) {
    (coin.None? && marketsLoading) || (coinLoading && details.None?)
  }

  datatype CoinView =
    | LoadingView
    | NotFound
    | Found(fields: CoinFields, description: Option<string>, chartFor: Option<string>, staleNotice: bool)

  /** The page body for route `id`; `markets` is the query's data and
      `fallback` the demo list. A display name that is empty counts as
      missing. */
  function PageView(id: string, markets: Option<seq<Market>>, fallback: seq<Market>,
                    marketsLoading: bool, details: Option<CoinDetails>, coinLoading: bool, isError: bool): (v: CoinView)
    ensures v.Found? ==> v.fields.name.Some? && v.fields.name.value != ""
    ensures var coin := FindById(Source(markets, fallback), id); var f := FieldsOf(details, coin);
      !IsLoadingState(coin, marketsLoading, coinLoading, details) ==>
        (v.Found? <==> f.name.Some? && f.name.value != "")
  {
    var coin := FindById(Source(markets, fallback), id);
    var fields := FieldsOf(details, coin);
    var target := TargetCoinId(id, coin);
    if IsLoadingState(coin, marketsLoading, coinLoading, details) then LoadingView
    else if fields.name.None? || fields.name.value == "" then NotFound
    else Found(fields, Description(if details.Some? then details.value.descriptionEn else None),
               if target != "" then Some(target) else None, isError)
  }

  /** Out of the loading state, the page is found exactly when the display
      name is non-empty, and then shows the coalesced fields and the cleaned
      description; an id found in neither the details nor the market list is
      "not found"; a found page draws the chart for the route id exactly when
      it is non-empty, and warns of stale data exactly when the details query
      failed. */
  lemma PageBranches(id: string, markets: Option<seq<Market>>, fallback: seq<Market>,
                     marketsLoading: bool, details: Option<CoinDetails>, coinLoading: bool, isError: bool)
    ensures var coin := FindById(Source(markets, fallback), id);
      var v := PageView(id, markets, fallback, marketsLoading, details, coinLoading, isError);
      && (v == LoadingView <==> IsLoadingState(coin, marketsLoading, coinLoading, details))
      && (!IsLoadingState(coin, marketsLoading, coinLoading, details) && details.None? && coin.None? ==> v == NotFound)
      && (v.Found? ==> (v.chartFor.Some? <==> id != "") && (v.chartFor.Some? ==> v.chartFor.value == id)
                       && v.staleNotice == isError)
    ensures var coin := FindById(Source(markets, fallback), id); var f := FieldsOf(details, coin);
      var v := PageView(id, markets, fallback, marketsLoading, details, coinLoading, isError);
      !IsLoadingState(coin, marketsLoading, coinLoading, details) ==>
        && (v.Found? <==> f.name.Some? && f.name.value != "")
        && (v.Found? ==> v.fields == f
                         && v.description == Description(if details.Some? then details.value.descriptionEn else None))
  {
  }

  /** Once both queries have settled, a coin in the market list is always
      shown, even when its details failed to load. */
  lemma ListedCoinIsShown(id: string, markets: Option<seq<Market>>, fallback: seq<Market>, isError: bool)
    requires FindById(Source(markets, fallback), id).Some?
    requires FindById(Source(markets, fallback), id).value.name != ""
    ensures PageView(id, markets, fallback, false, None, false, isError).Found?
  {
  }
}
