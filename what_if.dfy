/**
 * The "what if I had invested" calculator of
 * src/app/features/dashboard/components/what-if-calculator/what-if-calculator.component.ts.
 *
 * The two market requests the calculation awaits are the parameters
 * `fetchDetails(id)` and `fetchHistory(id, days)` (`None` where the promise
 * yields nothing); the toast the calculation shows is returned.
 */
module WhatIf {
  import opened Wrappers
  import opened Toasts
  import opened Market

  datatype PopularAsset = PopularAsset(symbol: string, name: string, id: string)

  const POPULAR_ASSETS: seq<PopularAsset> := [
    PopularAsset("BTC", "Bitcoin", "bitcoin"),
    PopularAsset("ETH", "Ethereum", "ethereum"),
    PopularAsset("BNB", "Binance Coin", "binancecoin"),
    PopularAsset("SOL", "Solana", "solana"),
    PopularAsset("XRP", "Ripple", "ripple"),
    PopularAsset("ADA", "Cardano", "cardano"),
    PopularAsset("DOGE", "Dogecoin", "dogecoin"),
    PopularAsset("DOT", "Polkadot", "polkadot"),
    PopularAsset("MATIC", "Polygon", "matic-network"),
    PopularAsset("AVAX", "Avalanche", "avalanche-2"),
    PopularAsset("LINK", "Chainlink", "chainlink"),
    PopularAsset("UNI", "Uniswap", "uniswap")]

  const INVALID_AMOUNT: string := "Por favor ingresa una cantidad válida"
  const ASSET_NOT_FOUND: string := "Asset not found"
  const NO_CURRENT_PRICE: string := "Could not fetch current price"
  const NO_HISTORY: string := "Could not fetch historical price"
  const DONE: string := "Cálculo completado"

  datatype WhatIfResult = WhatIfResult(
    invested: real,
    currentValue: real,
    profit: real,
    profitPercentage: real,
    priceAtStart: real,
    priceNow: real,
    quantity: real)

  /** `popularAssets.find(a => a.symbol === symbol)`. */
  function FindPopular(table: seq<PopularAsset>, symbol: string): Option<PopularAsset>
  {
    if |table| == 0 then None
    else if table[0].symbol == symbol then Some(table[0])
    else FindPopular(table[1..], symbol)
  }

  /** The lookup finds nothing exactly when no entry has the symbol, and otherwise the first such entry. */
  lemma {:induction false} FindPopularFirst(table: seq<PopularAsset>, symbol: string)
    ensures FindPopular(table, symbol).None? <==> forall i :: 0 <= i < |table| ==> table[i].symbol != symbol
    ensures FindPopular(table, symbol).Some? ==>
              exists i :: 0 <= i < |table| && table[i] == FindPopular(table, symbol).value &&
                table[i].symbol == symbol && forall k :: 0 <= k < i ==> table[k].symbol != symbol
  {
    if |table| > 0 && table[0].symbol != symbol {
      FindPopularFirst(table[1..], symbol);
      assert forall i :: 1 <= i < |table| ==> table[i] == table[1..][i - 1];
      if FindPopular(table, symbol).Some? {
        var j :| 0 <= j < |table[1..]| && table[1..][j] == FindPopular(table, symbol).value &&
          table[1..][j].symbol == symbol && forall k :: 0 <= k < j ==> table[1..][k].symbol != symbol;
        assert table[j + 1] == table[1..][j];
      }
    }
  }

  /** The scenario for `invested` money bought at `priceAtStart` and valued at `priceNow`. */
  function Scenario(invested: real, priceAtStart: real, priceNow: real): WhatIfResult
    requires priceAtStart > 0.0 && invested > 0.0
  {
    var quantity := invested / priceAtStart;
    var currentValue := quantity * priceNow;
    var profit := currentValue - invested;
    WhatIfResult(invested, currentValue, profit, profit / invested * 100.0, priceAtStart, priceNow, quantity)
  }

  /**
   * The scenario buys exactly `invested` worth at the start price, is worth
   * its quantity at today's price, gains exactly when the price rose, and its
   * percentage is the price ratio's growth.
   */
  lemma ScenarioMeaning(invested: real, priceAtStart: real, priceNow: real)
    requires priceAtStart > 0.0 && invested > 0.0
    ensures var r := Scenario(invested, priceAtStart, priceNow);
            r.quantity * priceAtStart == invested &&
            r.currentValue * priceAtStart == invested * priceNow &&
            r.currentValue == r.invested + r.profit &&
            (r.profit >= 0.0 <==> priceNow >= priceAtStart) &&
            r.profitPercentage * priceAtStart == (priceNow - priceAtStart) * 100.0
  {
    var r := Scenario(invested, priceAtStart, priceNow);
    var q := invested / priceAtStart;
    assert q * priceAtStart == invested;
    assert r.currentValue * priceAtStart == invested * priceNow by {
      assert r.currentValue * priceAtStart == q * priceAtStart * priceNow;
    }
    assert r.profit * priceAtStart == invested * (priceNow - priceAtStart);
    if priceNow >= priceAtStart {
      assert r.profit * priceAtStart >= 0.0;
    } else {
      assert r.profit * priceAtStart < 0.0;
    }
    assert r.profitPercentage * invested == r.profit * 100.0;
    assert r.profitPercentage * invested * priceAtStart == invested * (priceNow - priceAtStart) * 100.0;
  }

  /** A history whose first price, when there is one, is positive. */
  predicate StartPriceUsable(history: Option<History>)
  {
    history.None? || history.value.prices.None? || |history.value.prices.value| == 0 ||
    history.value.prices.value[0].price > 0.0
  }

  class WhatIfCalculator {
    var visible: bool
    var isCalculating: bool
    var result: Option<WhatIfResult>
    var amountValue: real
    var symbolValue: string
    var timeframeValue: int
    var symbol: string
    var timeframe: int

    constructor ()
      ensures !visible && !isCalculating && result.None?
      ensures amountValue == 1000.0 && symbolValue == "BTC" && timeframeValue == 365
      ensures symbol == "BTC" && timeframe == 365
    {
      visible, isCalculating, result := false, false, None;
      amountValue, symbolValue, timeframeValue := 1000.0, "BTC", 365;
      symbol, timeframe := "BTC", 365;
    }

    method Open()
      modifies this
      ensures visible && result.None?
      ensures isCalculating == old(isCalculating) && amountValue == old(amountValue)
      ensures symbolValue == old(symbolValue) && timeframeValue == old(timeframeValue)
      ensures symbol == old(symbol) && timeframe == old(timeframe)
    {
      visible := true;
      result := None;
    }

    method Close()
      modifies this
      ensures !visible && result.None?
      ensures isCalculating == old(isCalculating) && amountValue == old(amountValue)
      ensures symbolValue == old(symbolValue) && timeframeValue == old(timeframeValue)
      ensures symbol == old(symbol) && timeframe == old(timeframe)
    {
      visible := false;
      result := None;
    }

    /** The form field and its signal always move together. */
    method SelectAsset(s: string)
      modifies this
      ensures symbolValue == s && symbol == s
      ensures visible == old(visible) && isCalculating == old(isCalculating) && result == old(result)
      ensures amountValue == old(amountValue) && timeframeValue == old(timeframeValue) && timeframe == old(timeframe)
    {
      symbolValue := s;
      symbol := s;
    }

    method SelectTimeframe(days: int)
      modifies this
      ensures timeframeValue == days && timeframe == days
      ensures visible == old(visible) && isCalculating == old(isCalculating) && result == old(result)
      ensures amountValue == old(amountValue) && symbolValue == old(symbolValue) && symbol == old(symbol)
    {
      timeframeValue := days;
      timeframe := days;
    }

    /**
     * `calculate`: a non-positive amount only shows an error. Otherwise the
     * result is cleared, the asset is looked up, both prices are fetched,
     * and either the scenario is stored with a success toast or an error toast
     * names the step that failed; the calculation ends not busy.
     */
    method Calculate(fetchDetails: string -> Option<AssetDetails>, fetchHistory: (string, int) -> Option<History>)
      returns (toast: ToastRequest)
      requires var a := FindPopular(POPULAR_ASSETS, symbolValue);
               a.None? || StartPriceUsable(fetchHistory(a.value.id, timeframeValue))
      modifies this
      ensures visible == old(visible) && amountValue == old(amountValue) && symbolValue == old(symbolValue)
      ensures timeframeValue == old(timeframeValue) && symbol == old(symbol) && timeframe == old(timeframe)
      ensures amountValue <= 0.0 ==>
                toast == ToastRequest(Error, INVALID_AMOUNT) &&
                result == old(result) && isCalculating == old(isCalculating)
      ensures amountValue > 0.0 ==> !isCalculating
      ensures amountValue > 0.0 ==> (toast.kind == Success <==> result.Some?)
      ensures amountValue > 0.0 && FindPopular(POPULAR_ASSETS, symbolValue).None? ==>
                result.None? && toast == ToastRequest(Error, ASSET_NOT_FOUND)
      ensures amountValue > 0.0 && FindPopular(POPULAR_ASSETS, symbolValue).Some? ==>
                var a := FindPopular(POPULAR_ASSETS, symbolValue).value;
                var details := fetchDetails(a.id);
                var history := fetchHistory(a.id, timeframeValue);
                (details.None? || details.value.marketData.None? ==>
                   result.None? && toast == ToastRequest(Error, NO_CURRENT_PRICE)) &&
                (details.Some? && details.value.marketData.Some? &&
                 (history.None? || history.value.prices.None? || |history.value.prices.value| == 0) ==>
                   result.None? && toast == ToastRequest(Error, NO_HISTORY)) &&
                (details.Some? && details.value.marketData.Some? &&
                 history.Some? && history.value.prices.Some? && |history.value.prices.value| > 0 ==>
                   result.Some?)
      ensures amountValue > 0.0 && result.Some? ==>
                FindPopular(POPULAR_ASSETS, symbolValue).Some? &&
                var a := FindPopular(POPULAR_ASSETS, symbolValue).value;
                var details := fetchDetails(a.id);
                var history := fetchHistory(a.id, timeframeValue);
                details.Some? && details.value.marketData.Some? &&
                history.Some? && history.value.prices.Some? && |history.value.prices.value| > 0 &&
                result.value == Scenario(amountValue, history.value.prices.value[0].price, details.value.marketData.value) &&
                toast == ToastRequest(Success, DONE)
    {
      if amountValue <= 0.0 {
        return ToastRequest(Error, INVALID_AMOUNT);
      }
      isCalculating := true;
      result := None;
      var invested := amountValue;
      var daysAgo := timeframeValue;
      var asset := FindPopular(POPULAR_ASSETS, symbolValue);
      if asset.None? {
        toast := ToastRequest(Error, ASSET_NOT_FOUND);
      } else {
        var currentData := fetchDetails(asset.value.id);
        if currentData.None? || currentData.value.marketData.None? {
          toast := ToastRequest(Error, NO_CURRENT_PRICE);
        } else {
          var priceNow := currentData.value.marketData.value;
          var historicalData := fetchHistory(asset.value.id, daysAgo);
          if historicalData.None? || historicalData.value.prices.None? || |historicalData.value.prices.value| == 0 {
            toast := ToastRequest(Error, NO_HISTORY);
          } else {
            var priceAtStart := historicalData.value.prices.value[0].price;
            result := Some(Scenario(invested, priceAtStart, priceNow));
            toast := ToastRequest(Success, DONE);
          }
        }
      }
      isCalculating := false;
    }
  }

  /** In demo mode every listed symbol gets a current price, whatever the details request does. */
  lemma DemoDetailsAlwaysPriced(symbol: string, response: Result<AssetDetails, int>)
    requires FindPopular(POPULAR_ASSETS, symbol).Some? && response.Err?
    ensures var a := FindPopular(POPULAR_ASSETS, symbol).value;
            GetAssetDetails(a.id, response).value.marketData == Some(DemoPrice(a.id))
  {
  }
}
