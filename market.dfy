/**
 * The market service of src/app/core/services/market.service.ts: the
 * per-id-set stream cache, the search guard, the demo fallbacks and the
 * mapping of the price API's rows.
 *
 * HTTP responses are parameters (`Ok` with the body, or `Err` with the
 * HTTP status); the polling stream itself is the value `Stream`, which
 * records what it fetches and how often.
 */
module Market {
  import opened Wrappers
  import opened Models
  import opened Strings

  const API_URL: string := "https://api.coingecko.com/api/v3"

  /** Failed detail and history requests fall back to demo data. */
  const USE_DEMO_MODE: bool := true

  const REFRESH_INTERVAL: int := 60000

  const DAY_MS: int := 24 * 60 * 60 * 1000

  /** The ids `getMarketAssets()` prices when called without any. */
  const DEFAULT_MARKET_IDS: seq<string> := ["bitcoin", "ethereum", "solana", "cardano", "polkadot"]

  /** The default ids in the default string order, as `sort` leaves them. */
  const SORTED_DEFAULT_IDS: seq<string> := ["bitcoin", "cardano", "ethereum", "polkadot", "solana"]

  /** The defaults sort to `SORTED_DEFAULT_IDS`, whatever sort produced them. */
  lemma DefaultIdsSorted(ids: seq<string>)
    requires SortedStrings(ids) && multiset(ids) == multiset(DEFAULT_MARKET_IDS)
    ensures ids == SORTED_DEFAULT_IDS
  {
    var d := SORTED_DEFAULT_IDS;
    var firsts := ['b', 'c', 'e', 'p', 's'];
    forall i, j | 0 <= i < j < |d|
      ensures StrLe(d[i], d[j])
    {
      assert d[i][0] == firsts[i] && d[j][0] == firsts[j];
    }
    assert multiset(d) == multiset(DEFAULT_MARKET_IDS);
    SortedUnique(ids, d);
  }

  /** `timer(0, REFRESH_INTERVAL)` fetching market data for `ids` in `currency`, shared by all subscribers. */
  datatype Stream = Stream(ids: seq<string>, currency: string, refreshMs: int)

  /** The cache key: the sorted ids joined with ','. */
  function CacheKey(sortedIds: seq<string>): string
  {
    Join(sortedIds, ",")
  }

  /** Whatever order the caller passes the same ids in, the sorted list and so the key are the same. */
  lemma KeyIgnoresOrder(a: seq<string>, b: seq<string>)
    requires SortedStrings(a) && SortedStrings(b) && multiset(a) == multiset(b)
    ensures CacheKey(a) == CacheKey(b)
  {
    SortedUnique(a, b);
  }

  /** `ids.sort()`: an in-place insertion sort under the default string order. */
  method SortIds(a: array<string>)
    modifies a
    ensures SortedStrings(a[..])
    ensures multiset(a[..]) == multiset(old(a[..]))
  {
    var i := 0;
    while i < a.Length
      invariant 0 <= i <= a.Length
      invariant SortedStrings(a[..i])
      invariant multiset(a[..]) == multiset(old(a[..]))
    {
      Insert(a, i);
      i := i + 1;
    }
    assert a[..] == a[..a.Length];
  }

  /** `s[..i + 1]` is sorted except for the element at `j`. */
  predicate SortedExcept(s: seq<string>, i: nat, j: nat)
    requires i < |s|
  {
    forall k, l :: 0 <= k < l <= i && k != j && l != j ==> StrLe(s[k], s[l])
  }

  /** The element at `j` is no greater than anything after it up to `i`. */
  predicate BelowRest(s: seq<string>, i: nat, j: nat)
    requires j <= i < |s|
  {
    forall l :: j < l <= i ==> StrLe(s[j], s[l])
  }

  function Swap(s: seq<string>, j: nat): seq<string>
    requires 0 < j < |s|
  {
    s[j - 1 := s[j]][j := s[j - 1]]
  }

  lemma InsertStart(s: seq<string>, i: nat)
    requires i < |s| && SortedStrings(s[..i])
    ensures SortedExcept(s, i, i) && BelowRest(s, i, i)
  {
    forall k, l | 0 <= k < l <= i && k != i && l != i
      ensures StrLe(s[k], s[l])
    {
      assert s[k] == s[..i][k] && s[l] == s[..i][l];
    }
  }

  lemma InsertSwap(s: seq<string>, i: nat, j: nat)
    requires 0 < j <= i < |s|
    requires SortedExcept(s, i, j) && BelowRest(s, i, j) && !StrLe(s[j - 1], s[j])
    ensures SortedExcept(Swap(s, j), i, j - 1) && BelowRest(Swap(s, j), i, j - 1)
    ensures multiset(Swap(s, j)) == multiset(s)
  {
    StrLeTotal(s[j - 1], s[j]);
    var t := Swap(s, j);
    forall l | j - 1 < l <= i
      ensures StrLe(t[j - 1], t[l])
    {
    }
  }

  lemma InsertFinish(s: seq<string>, i: nat, j: nat)
    requires j <= i < |s|
    requires SortedExcept(s, i, j) && BelowRest(s, i, j) && (j == 0 || StrLe(s[j - 1], s[j]))
    ensures SortedStrings(s[..i + 1])
  {
    forall k, l | 0 <= k < l <= i
      ensures StrLe(s[k], s[l])
    {
      if l == j && k < j - 1 {
        StrLeTransitive(s[k], s[j - 1], s[j]);
      }
    }
  }

  /** Moves `a[i]` left into the sorted prefix `a[..i]`. */
  method Insert(a: array<string>, i: nat)
    requires i < a.Length
    requires SortedStrings(a[..i])
    modifies a
    ensures SortedStrings(a[..i + 1])
    ensures multiset(a[..]) == multiset(old(a[..]))
  {
    InsertStart(a[..], i);
    var j := i;
    while j > 0 && !StrLe(a[j - 1], a[j])
      invariant 0 <= j <= i
      invariant multiset(a[..]) == multiset(old(a[..]))
      invariant SortedExcept(a[..], i, j) && BelowRest(a[..], i, j)
    {
      InsertSwap(a[..], i, j);
      a[j - 1], a[j] := a[j], a[j - 1];
      j := j - 1;
    }
    InsertFinish(a[..], i, j);
  }

  class MarketService {
    var cacheMap: map<string, Stream>

    constructor ()
      ensures cacheMap == map[]
    {
      cacheMap := map[];
    }

    /**
     * `getMarketAssets(ids, currency)`: sorts the caller's array, then
     * returns the stream cached under the key, creating it only when the
     * key is absent.
     */
    method GetMarketAssets(ids: array<string>, currency: string) returns (stream: Stream)
      modifies this, ids
      ensures SortedStrings(ids[..]) && multiset(ids[..]) == multiset(old(ids[..]))
      ensures CacheKey(ids[..]) in old(cacheMap) ==>
                cacheMap == old(cacheMap) && stream == old(cacheMap)[CacheKey(ids[..])]
      ensures CacheKey(ids[..]) !in old(cacheMap) ==>
                stream == Stream(ids[..], currency, REFRESH_INTERVAL) &&
                cacheMap == old(cacheMap)[CacheKey(ids[..]) := stream]
    {
      SortIds(ids);
      var cacheKey := CacheKey(ids[..]);
      if cacheKey !in cacheMap {
        var created := Stream(ids[..], currency, REFRESH_INTERVAL);
        cacheMap := cacheMap[cacheKey := created];
      }
      stream := cacheMap[cacheKey];
    }

    /** `getMarketAssets()` with its default ids and currency. */
    method GetDefaultMarketAssets() returns (stream: Stream)
      modifies this
      ensures var key := CacheKey(SORTED_DEFAULT_IDS);
              (key in old(cacheMap) ==> cacheMap == old(cacheMap) && stream == old(cacheMap)[key]) &&
              (key !in old(cacheMap) ==>
                 stream == Stream(SORTED_DEFAULT_IDS, "usd", REFRESH_INTERVAL) && cacheMap == old(cacheMap)[key := stream])
    {
      var ids := new string[5](i requires 0 <= i < 5 => DEFAULT_MARKET_IDS[i]);
      assert ids[..] == DEFAULT_MARKET_IDS;
      stream := GetMarketAssets(ids, "usd");
      DefaultIdsSorted(ids[..]);
    }

    /** `clearCache`. */
    method ClearCache()
      modifies this
      ensures cacheMap == map[]
    {
      cacheMap := map[];
    }
  }

  /**
   * Two calls with the same ids in any order share one stream: the second
   * finds the first one's entry and leaves the cache as it was.
   */
  lemma SecondCallHits(m: map<string, Stream>, a: seq<string>, b: seq<string>, s: Stream)
    requires SortedStrings(a) && SortedStrings(b) && multiset(a) == multiset(b)
    requires m[CacheKey(a) := s] == m
    ensures CacheKey(b) in m && m[CacheKey(b)] == s
  {
    KeyIgnoresOrder(a, b);
    assert CacheKey(a) in m[CacheKey(a) := s];
  }

  /** A search hit: `{id, symbol, name, image: coin.large}`. */
  datatype SearchHit = SearchHit(id: string, symbol: string, name: string, image: string)

  /** A coin of the search response. */
  datatype SearchCoin = SearchCoin(id: string, symbol: string, name: string, large: string)

  /** What `searchAssets` does: the request it sends (if any) and the hits it yields. */
  datatype SearchOutcome = SearchOutcome(request: Option<string>, hits: seq<SearchHit>)

  function Hits(coins: seq<SearchCoin>): (hits: seq<SearchHit>)
    ensures |hits| == |coins|
    ensures forall i :: 0 <= i < |coins| ==>
              hits[i] == SearchHit(coins[i].id, coins[i].symbol, coins[i].name, coins[i].large)
  {
    if |coins| == 0 then []
    else
      var c := coins[|coins| - 1];
      Hits(coins[..|coins| - 1]) + [SearchHit(c.id, c.symbol, c.name, c.large)]
  }

  /** `searchAssets(query)`, given the response the request would get (`Err` on failure). */
  function SearchAssets(query: string, response: Result<seq<SearchCoin>, int>): (r: SearchOutcome)
    ensures |query| < 2 ==> r == SearchOutcome(None, [])
    ensures |query| >= 2 ==> r.request == Some(API_URL + "/search?query=" + query)
    ensures |query| >= 2 && response.Err? ==> r.hits == []
    ensures |query| >= 2 && response.Ok? ==>
              |r.hits| == |response.value| && (forall i :: 0 <= i < |r.hits| ==> r.hits[i].id == response.value[i].id)
  {
    if |query| < 2 then SearchOutcome(None, [])
    else SearchOutcome(Some(API_URL + "/search?query=" + query),
                       match response case Ok(coins) => Hits(coins) case Err(_) => [])
  }

  /** The demo price table. */
  const DEMO_PRICES: map<string, real> := map[
    "bitcoin" := 45000.0,
    "ethereum" := 2500.0,
    "binancecoin" := 320.0,
    "solana" := 100.0,
    "ripple" := 0.55,
    "cardano" := 0.48,
    "dogecoin" := 0.08,
    "polkadot" := 6.5,
    "matic-network" := 0.85,
    "avalanche-2" := 35.0,
    "chainlink" := 15.0,
    "uniswap" := 6.2]

  /** `basePrices[id] || 100`: every listed price is non-zero, so the table value or 100. */
  function DemoPrice(id: string): (p: real)
    ensures p > 0.0
    ensures id in DEMO_PRICES ==> p == DEMO_PRICES[id]
    ensures id !in DEMO_PRICES ==> p == 100.0
  {
    if id in DEMO_PRICES && DEMO_PRICES[id] != 0.0 then DEMO_PRICES[id] else 100.0
  }

  lemma DemoPriceTable()
    ensures DemoPrice("bitcoin") == 45000.0 && DemoPrice("ripple") == 0.55 && DemoPrice("unknown-coin") == 100.0
  {
  }

  /**
   * A coin-details body: `market_data.current_price.usd`, when present. The
   * three levels are one `Option`, so a body with `market_data` but without
   * `current_price` (which makes `calculate` throw a `TypeError`) is not
   * represented.
   */
  datatype AssetDetails = AssetDetails(id: string, marketData: Option<real>)

  function DemoAssetDetails(id: string): AssetDetails
  {
    AssetDetails(id, Some(DemoPrice(id)))
  }

  /** `getAssetDetails(id)`, given the HTTP outcome. */
  function GetAssetDetails(id: string, response: Result<AssetDetails, int>): (r: Result<AssetDetails, string>)
    ensures r.Ok?
    ensures response.Ok? ==> r.value == response.value
    ensures response.Err? ==> r.value == AssetDetails(id, Some(DemoPrice(id)))
  {
    match response
    case Ok(body) => Ok(body)
    case Err(status) =>
      if USE_DEMO_MODE || status == 0 then Ok(DemoAssetDetails(id))
      else Err("No se pudo obtener información de " + id + ". Por favor intenta de nuevo.")
  }

  /** A `[timestamp, price]` pair of a price history. */
  datatype PricePoint = PricePoint(timestamp: int, price: real)

  /** A market-chart body; `prices` may be missing. */
  datatype History = History(prices: Option<seq<PricePoint>>)

  /** The i-th demo price: a drift of up to 2.5% around the base, growing with i; `r` is the random draw. */
  function WalkPrice(basePrice: real, r: real, i: int, days: int): real
    requires days > 0
  {
    var variation := (r - 0.48) * 0.05;
    basePrice * (1.0 + variation * (i as real) / (days as real))
  }

  /** The first demo price is the base price, and every one stays within 2.6% of it. */
  lemma WalkPriceBounds(basePrice: real, r: real, i: int, days: int)
    requires days > 0 && 0 <= i < days && 0.0 <= r < 1.0 && basePrice > 0.0
    ensures i == 0 ==> WalkPrice(basePrice, r, i, days) == basePrice
    ensures basePrice * 0.974 <= WalkPrice(basePrice, r, i, days) <= basePrice * 1.026
  {
    var variation := (r - 0.48) * 0.05;
    var f := (i as real) / (days as real);
    FractionBounds(i, days);
    ScaledVariation(variation, f);
    assert variation * (i as real) / (days as real) == variation * f;
    ScaleBounds(basePrice, 1.0 + variation * f);
    assert WalkPrice(basePrice, r, i, days) == basePrice * (1.0 + variation * f);
    if i == 0 {
      assert f == 0.0;
    }
  }

  lemma FractionBounds(i: int, days: int)
    requires 0 <= i < days
    ensures 0.0 <= (i as real) / (days as real) < 1.0
  {
    var f := (i as real) / (days as real);
    assert f * (days as real) == i as real;
  }

  lemma ScaledVariation(variation: real, f: real)
    requires -0.024 <= variation < 0.026 && 0.0 <= f < 1.0
    ensures -0.024 <= variation * f <= 0.026
  {
    if variation >= 0.0 {
      assert variation * f <= variation;
    } else {
      assert variation * f >= variation;
    }
  }

  lemma ScaleBounds(basePrice: real, g: real)
    requires basePrice > 0.0 && 0.974 <= g <= 1.026
    ensures basePrice * 0.974 <= basePrice * g <= basePrice * 1.026
  {
    assert basePrice * (g - 0.974) >= 0.0;
    assert basePrice * (1.026 - g) >= 0.0;
  }

  /**
   * `generateDemoHistoryData(id, days)`: one point per day, the last one a
   * day before `now`. `random(i)` is the i-th `Math.random()` draw.
   */
  method GenerateDemoHistoryData(id: string, days: int, now: int, random: nat -> real) returns (h: History)
    ensures h.prices.Some?
    ensures days <= 0 ==> h.prices.value == []
    ensures days > 0 ==> |h.prices.value| == days
    ensures forall i :: 0 <= i < |h.prices.value| ==>
              h.prices.value[i] == PricePoint(now - (days - i) * DAY_MS, WalkPrice(DemoPrice(id), random(i), i, days))
  {
    var basePrice := DemoPrice(id);
    var prices: seq<PricePoint> := [];
    var i := 0;
    while i < days
      invariant days > 0 ==> 0 <= i <= days
      invariant days <= 0 ==> i == 0
      invariant |prices| == i
      invariant forall k :: 0 <= k < i ==>
                  prices[k] == PricePoint(now - (days - k) * DAY_MS, WalkPrice(basePrice, random(k), k, days))
    {
      var point := PricePoint(now - (days - i) * DAY_MS, WalkPrice(basePrice, random(i), i, days));
      prices := prices + [point];
      i := i + 1;
    }
    h := History(Some(prices));
  }

  /** Demo timestamps are a day apart, strictly increasing, and end one day before `now`. */
  lemma DemoTimestamps(points: seq<PricePoint>, days: int, now: int)
    requires days > 0 && |points| == days
    requires forall i :: 0 <= i < days ==> points[i].timestamp == now - (days - i) * DAY_MS
    ensures forall i, j :: 0 <= i < j < days ==> points[i].timestamp < points[j].timestamp
    ensures points[days - 1].timestamp == now - DAY_MS
    ensures points[0].timestamp == now - days * DAY_MS
  {
  }

  /** `getAssetHistory(id, days)`, given the HTTP outcome and the demo data it would fall back to. */
  function GetAssetHistory(response: Result<History, int>, demo: History): (r: Result<History, string>)
    ensures r.Ok?
    ensures response.Ok? ==> r.value == response.value
    ensures response.Err? ==> r.value == demo
  {
    match response
    case Ok(body) => Ok(body)
    case Err(status) =>
      if USE_DEMO_MODE || status == 0 then Ok(demo)
      else Err("No se pudo obtener el historial de precios. Por favor intenta de nuevo.")
  }

  /** A row of the markets API. `last_updated` is parsed by the parameter `parseDate`. */
  datatype CoinMarket = CoinMarket(
    id: string,
    symbol: string,
    name: string,
    current_price: real,
    price_change_24h: real,
    price_change_percentage_24h: real,
    market_cap: real,
    total_volume: real,
    image: string,
    last_updated: string)

  /** `mapToAsset`. */
  function MapToAsset(data: CoinMarket, parseDate: string -> int): Asset
  {
    Asset(data.id, data.symbol, data.name, data.current_price, data.price_change_24h,
          data.price_change_percentage_24h, data.market_cap, data.total_volume, data.image,
          parseDate(data.last_updated))
  }

  /** The API row an asset comes from, with `formatDate` rendering its timestamp. */
  function CoinOf(a: Asset, formatDate: int -> string): CoinMarket
  {
    CoinMarket(a.id, a.symbol, a.name, a.currentPrice, a.priceChange24h, a.priceChangePercentage24h,
               a.marketCap, a.volume24h, a.image, formatDate(a.lastUpdate))
  }

  /** `mapToAsset` loses nothing: it renames every field, so it inverts `CoinOf` whenever the dates round-trip. */
  lemma MapToAssetRenames(a: Asset, formatDate: int -> string, parseDate: string -> int)
    requires parseDate(formatDate(a.lastUpdate)) == a.lastUpdate
    ensures MapToAsset(CoinOf(a, formatDate), parseDate) == a
  {
  }

  /** `data.map(coin => this.mapToAsset(coin))`. */
  function MapAll(rows: seq<CoinMarket>, parseDate: string -> int): (r: seq<Asset>)
    ensures |r| == |rows|
    ensures forall i :: 0 <= i < |rows| ==> r[i] == MapToAsset(rows[i], parseDate)
  {
    if |rows| == 0 then []
    else MapAll(rows[..|rows| - 1], parseDate) + [MapToAsset(rows[|rows| - 1], parseDate)]
  }

  /** `fetchMarketData`: the mapped rows, or the fixed error message. */
  function FetchMarketData(response: Result<seq<CoinMarket>, int>, parseDate: string -> int): (r: Result<seq<Asset>, string>)
    ensures response.Err? ==> r == Err("Failed to load market data. Please try again later.")
    ensures response.Ok? ==>
              r.Ok? && |r.value| == |response.value| &&
              (forall i :: 0 <= i < |r.value| ==>
                 r.value[i].id == response.value[i].id && r.value[i].currentPrice == response.value[i].current_price)
  {
    match response
    case Ok(rows) => Ok(MapAll(rows, parseDate))
    case Err(_) => Err("Failed to load market data. Please try again later.")
  }
}
