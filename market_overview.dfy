/** The simulated market overview (`MarketOverview`): four seeded assets, a
    count of gainers and decliners, and the tick that moves every asset by a
    random percentage. The random draw is the parameter `deltas`, one value
    per asset. */
module MarketOverview {

  datatype Asset = Asset(name: string, symbol: string, price: real, change24h: real, volume: real, marketCap: real)

  const ChangeBound := 12.0
  const TickIntervalMs := 5000

  function Seed(): (s: seq<Asset>)
    ensures |s| == 4
  {
    [ Asset("Bitcoin", "BTC", 67123.0, 1.85, 32120000000.0, 1320000000000.0),
      Asset("Ethereum", "ETH", 3450.22, -0.74, 16940000000.0, 420000000000.0),
      Asset("Solana", "SOL", 182.56, 3.24, 4320000000.0, 82000000000.0),
      Asset("Avalanche", "AVAX", 49.72, 0.94, 1520000000.0, 18200000000.0) ]
  }

  // ---------------------------------------------------------------------------
  // Gainers and decliners

  /** Number of assets whose 24h change is not negative. */
  function Gainers(assets: seq<Asset>): (n: nat)
    ensures n <= |assets|
  {
    if |assets| == 0 then 0
    else Gainers(assets[..|assets| - 1]) + (if assets[|assets| - 1].change24h >= 0.0 then 1 else 0)
  }

  /** The `reduce` behind `trendSummary`: every asset is a gainer or a decliner. */
  method CountMovers(assets: seq<Asset>) returns (gainers: nat, decliners: nat)
    ensures gainers == Gainers(assets)
    ensures gainers + decliners == |assets|
  {
    gainers, decliners := 0, 0;
    for i := 0 to |assets|
      invariant gainers == Gainers(assets[..i])
      invariant gainers + decliners == i
    {
      assert assets[..i + 1][..i] == assets[..i];
      if assets[i].change24h >= 0.0 {
        gainers := gainers + 1;
      } else {
        decliners := decliners + 1;
      }
    }
    assert assets[..|assets|] == assets;
  }

  /** The seed starts with three gainers and one decliner. */
  lemma SeedMovers()
    ensures Gainers(Seed()) == 3
  {
    var s := Seed();
    assert s[..4] == s;
    assert Gainers(s[..1]) == 1 by { assert s[..1][..0] == []; }
    assert Gainers(s[..2]) == 1 by { assert s[..2][..1] == s[..1]; }
    assert Gainers(s[..3]) == 2 by { assert s[..3][..2] == s[..2]; }
    assert s[..4][..3] == s[..3];
  }

  // ---------------------------------------------------------------------------
  // The tick

  function Max(a: real, b: real): real { if a >= b then a else b }
  function Min(a: real, b: real): real { if a <= b then a else b }

  /** One asset after a move of `delta` percent: price by the full delta,
      the 24h change by an eighth of it within [-12, 12], volume by a tenth,
      market cap by a twelfth, none below zero. */
  function TickAsset(a: Asset, delta: real): (r: Asset)
    ensures r.name == a.name && r.symbol == a.symbol
    ensures -ChangeBound <= r.change24h <= ChangeBound
    ensures r.price >= 0.0 && r.volume >= 0.0 && r.marketCap >= 0.0
  {
    a.(price := Max(a.price * (1.0 + delta / 100.0), 0.0),
       change24h := Max(Min(a.change24h + delta / 8.0, ChangeBound), -ChangeBound),
       volume := Max(a.volume * (1.0 + delta / 10.0), 0.0),
       marketCap := Max(a.marketCap * (1.0 + delta / 12.0), 0.0))
  }

  function Tick(assets: seq<Asset>, deltas: seq<real>): (r: seq<Asset>)
    requires |deltas| == |assets|
    ensures |r| == |assets|
    ensures forall k :: 0 <= k < |r| ==> r[k] == TickAsset(assets[k], deltas[k])
  {
    seq(|assets|, k requires 0 <= k < |assets| => TickAsset(assets[k], deltas[k]))
  }

  /** Every asset is in range: change within [-12, 12], nothing negative. */
  predicate InRange(assets: seq<Asset>) {
    forall k :: 0 <= k < |assets| ==>
      && -ChangeBound <= assets[k].change24h <= ChangeBound
      && assets[k].price >= 0.0 && assets[k].volume >= 0.0 && assets[k].marketCap >= 0.0
  }

  /** A tick keeps the list's length, order, names and symbols, and leaves
      every asset in range. */
  lemma TickKeepsShape(assets: seq<Asset>, deltas: seq<real>)
    requires |deltas| == |assets|
    ensures var r := Tick(assets, deltas);
      && |r| == |assets| && InRange(r)
      && forall k :: 0 <= k < |r| ==> r[k].name == assets[k].name && r[k].symbol == assets[k].symbol
  {
  }

  /** A zero move changes nothing on an asset list already in range. */
  lemma ZeroTickIsIdentity(assets: seq<Asset>)
    requires InRange(assets)
    ensures Tick(assets, seq(|assets|, _ => 0.0)) == assets
  {
    var r := Tick(assets, seq(|assets|, _ => 0.0));
    forall k | 0 <= k < |assets| ensures r[k] == assets[k] {
      assert r[k] == TickAsset(assets[k], 0.0);
    }
  }

  /** The seed is in range. */
  lemma SeedInRange()
    ensures InRange(Seed())
  {
  }

  class Overview {
    var assets: seq<Asset>

    constructor ()
      ensures assets == Seed() && InRange(assets)
    {
      assets := Seed();
    }

    /** The interval callback: `setAssets` with the tick of the current list. */
    method OnInterval(deltas: seq<real>)
      requires |deltas| == |assets|
      modifies this
      ensures assets == Tick(old(assets), deltas)
      ensures InRange(assets) && |assets| == |old(assets)|
    {
      assets := Tick(assets, deltas);
    }
  }
}
