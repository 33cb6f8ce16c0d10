/**
 * Portfolio valuation and sharp-move detection of
 * src/app/features/dashboard/dashboard-state.service.ts.
 *
 * The valuation is a pure map/reduce of holdings against market quotes. The
 * per-holding pass also asks the alert service to check the price and shows
 * a toast for a sharp 24h move at most once per asset; those side effects
 * are returned as `AlertCheck` and `SharpMove` values, in the order the pass
 * produces them, and `notifiedAssets` is the service's mutable set.
 */
module DashboardState {
  import opened Wrappers
  import opened Models
  import opened Toasts

  /** Coins priced when the user holds nothing. */
  const DEFAULT_IDS: seq<string> := ["bitcoin", "ethereum", "solana"]

  /** |24h change| at or above this many percent is a sharp move. */
  const SHARP_MOVE_PERCENT: real := 5.0

  /** `assets.map(a => a.asset_id)`. */
  function HoldingIds(holdings: seq<DatabaseAsset>): (ids: seq<string>)
    ensures |ids| == |holdings|
    ensures forall i :: 0 <= i < |ids| ==> ids[i] == holdings[i].asset_id
  {
    if |holdings| == 0 then []
    else HoldingIds(holdings[..|holdings| - 1]) + [holdings[|holdings| - 1].asset_id]
  }

  /** The ids whose prices the dashboard fetches. */
  function AssetIds(holdings: seq<DatabaseAsset>): (ids: seq<string>)
    ensures |holdings| == 0 ==> ids == ["bitcoin", "ethereum", "solana"]
    ensures |holdings| > 0 ==> |ids| == |holdings| && forall i :: 0 <= i < |ids| ==> ids[i] == holdings[i].asset_id
  {
    if |holdings| > 0 then HoldingIds(holdings) else DEFAULT_IDS
  }

  /** Index of the first quote with this id, or |prices| when there is none. */
  function FirstMatch(prices: seq<Asset>, id: string): (k: nat)
    ensures k <= |prices|
    ensures k < |prices| ==> prices[k].id == id
    ensures forall j :: 0 <= j < k ==> prices[j].id != id
  {
    if |prices| == 0 then 0
    else if prices[0].id == id then 0
    else 1 + FirstMatch(prices[1..], id)
  }

  /** `marketPrices.find(m => m.id === id)`. */
  function FindMarket(prices: seq<Asset>, id: string): (r: Option<Asset>)
    ensures r.None? <==> forall j :: 0 <= j < |prices| ==> prices[j].id != id
    ensures r.Some? ==> r.value in prices && r.value.id == id
  {
    var k := FirstMatch(prices, id);
    if k < |prices| then Some(prices[k]) else None
  }

  /** `marketData?.currentPrice || 0`. */
  function CurrentPrice(prices: seq<Asset>, id: string): real
  {
    match FindMarket(prices, id)
    case Some(m) => m.currentPrice
    case None => 0.0
  }

  /** `marketData?.priceChangePercentage24h || 0`. */
  function Change24h(prices: seq<Asset>, id: string): real
  {
    match FindMarket(prices, id)
    case Some(m) => m.priceChangePercentage24h
    case None => 0.0
  }

  function Abs(x: real): real
  {
    if x < 0.0 then -x else x
  }

  /** `base > 0 ? part / base * 100 : 0`. */
  function Percentage(part: real, base: real): (p: real)
    ensures base > 0.0 ==> p * base == part * 100.0
    ensures base <= 0.0 ==> p == 0.0
  {
    if base > 0.0 then part / base * 100.0 else 0.0
  }

  /** `marketData?.name || ua.asset_name || ua.asset_id`: the first non-empty one. */
  function DisplayName(market: Option<Asset>, ua: DatabaseAsset): (name: string)
    ensures market.Some? && market.value.name != "" ==> name == market.value.name
    ensures (market.None? || market.value.name == "") && ua.asset_name != "" ==> name == ua.asset_name
    ensures (market.None? || market.value.name == "") && ua.asset_name == "" ==> name == ua.asset_id
  {
    if market.Some? && market.value.name != "" then market.value.name
    else if ua.asset_name != "" then ua.asset_name
    else ua.asset_id
  }

  /** One holding valued at its market price. */
  function Enrich(ua: DatabaseAsset, prices: seq<Asset>): (pa: PortfolioAsset)
    ensures pa.id == ua.id && pa.assetId == ua.asset_id && pa.symbol == ua.symbol
    ensures pa.quantity == ua.amount && pa.averageBuyPrice == ua.purchase_price
    ensures pa.name == DisplayName(FindMarket(prices, ua.asset_id), ua)
    ensures FindMarket(prices, ua.asset_id).Some? ==>
              var m := FindMarket(prices, ua.asset_id).value;
              pa.currentPrice == m.currentPrice && pa.image == Some(m.image) &&
              pa.change24h == Some(m.priceChangePercentage24h)
    ensures FindMarket(prices, ua.asset_id).None? ==>
              pa.currentPrice == 0.0 && pa.totalValue == 0.0 && pa.image.None? && pa.change24h.None?
    ensures pa.totalValue == ua.amount * pa.currentPrice
    ensures pa.profitLoss == ua.amount * pa.currentPrice - ua.amount * ua.purchase_price
    ensures ua.amount * ua.purchase_price > 0.0 ==>
              pa.profitLossPercentage * (ua.amount * ua.purchase_price) == pa.profitLoss * 100.0
    ensures ua.amount * ua.purchase_price <= 0.0 ==> pa.profitLossPercentage == 0.0
  {
    var market := FindMarket(prices, ua.asset_id);
    var currentPrice := CurrentPrice(prices, ua.asset_id);
    var totalValue := ua.amount * currentPrice;
    var investment := ua.amount * ua.purchase_price;
    var profitLoss := totalValue - investment;
    PortfolioAsset(
      ua.id, ua.asset_id, ua.symbol, DisplayName(market, ua), ua.amount, ua.purchase_price,
      currentPrice, totalValue, profitLoss, Percentage(profitLoss, investment),
      if market.Some? then Some(market.value.image) else None,
      if market.Some? then Some(market.value.priceChangePercentage24h) else None)
  }

  /** `userAssets.map(...)`: one enriched entry per holding, in order. */
  function EnrichAll(holdings: seq<DatabaseAsset>, prices: seq<Asset>): (r: seq<PortfolioAsset>)
    ensures |r| == |holdings|
    ensures forall i :: 0 <= i < |r| ==> r[i] == Enrich(holdings[i], prices)
    ensures forall i :: 0 <= i < |r| ==>
              r[i].id == holdings[i].id && r[i].assetId == holdings[i].asset_id &&
              r[i].quantity == holdings[i].amount && r[i].averageBuyPrice == holdings[i].purchase_price
  {
    if |holdings| == 0 then []
    else EnrichAll(holdings[..|holdings| - 1], prices) + [Enrich(holdings[|holdings| - 1], prices)]
  }

  /** Sum of `totalValue`, folded from the left like `reduce`. */
  function SumValues(assets: seq<PortfolioAsset>): real
  {
    if |assets| == 0 then 0.0 else SumValues(assets[..|assets| - 1]) + assets[|assets| - 1].totalValue
  }

  /** Sum of `profitLoss`. */
  function SumProfitLoss(assets: seq<PortfolioAsset>): real
  {
    if |assets| == 0 then 0.0 else SumProfitLoss(assets[..|assets| - 1]) + assets[|assets| - 1].profitLoss
  }

  /** Sum of `amount * purchase_price`. */
  function Investment(holdings: seq<DatabaseAsset>): real
  {
    if |holdings| == 0 then 0.0
    else Investment(holdings[..|holdings| - 1]) + holdings[|holdings| - 1].amount * holdings[|holdings| - 1].purchase_price
  }

  datatype PortfolioState = PortfolioState(
    assets: seq<PortfolioAsset>,
    totalValue: real,
    totalInvestment: real,
    totalProfitLoss: real,
    totalProfitLossPercentage: real,
    isLoading: bool)

  /** The state shown before the first valuation arrives. */
  const INITIAL_STATE: PortfolioState := PortfolioState([], 0.0, 0.0, 0.0, 0.0, true)

  /** The totals over an enriched list. */
  function Summarize(enriched: seq<PortfolioAsset>, holdings: seq<DatabaseAsset>): PortfolioState
  {
    var totalValue := SumValues(enriched);
    var totalInvestment := Investment(holdings);
    PortfolioState(enriched, totalValue, totalInvestment, totalValue - totalInvestment,
                   Percentage(totalValue - totalInvestment, totalInvestment), false)
  }

  /** The `portfolio$` valuation of holdings against market quotes. */
  function Valuate(holdings: seq<DatabaseAsset>, prices: seq<Asset>): (s: PortfolioState)
    ensures s.assets == EnrichAll(holdings, prices)
    ensures s.totalValue == SumValues(s.assets) && s.totalInvestment == Investment(holdings)
    ensures s.totalProfitLoss == s.totalValue - s.totalInvestment
    ensures s.totalProfitLossPercentage == Percentage(s.totalProfitLoss, s.totalInvestment)
    ensures !s.isLoading
  {
    Summarize(EnrichAll(holdings, prices), holdings)
  }

  /** The total profit/loss is the sum of the per-asset profit/loss. */
  lemma {:induction false} TotalProfitLossIsSumOfAssets(holdings: seq<DatabaseAsset>, prices: seq<Asset>)
    ensures Valuate(holdings, prices).totalProfitLoss == SumProfitLoss(EnrichAll(holdings, prices))
  {
    if |holdings| > 0 {
      var prefix := holdings[..|holdings| - 1];
      TotalProfitLossIsSumOfAssets(prefix, prices);
      var all := EnrichAll(holdings, prices);
      assert all[..|all| - 1] == EnrichAll(prefix, prices);
    }
  }

  /** With no holdings everything is zero. */
  lemma EmptyPortfolioIsZero(prices: seq<Asset>)
    ensures Valuate([], prices) == PortfolioState([], 0.0, 0.0, 0.0, 0.0, false)
  {
  }

  /** 2 units bought at 10, now at 15: worth 30, profit 10, that is 50%. */
  lemma ValuationExample(ua: DatabaseAsset, quote: Asset)
    requires ua.amount == 2.0 && ua.purchase_price == 10.0
    requires quote.id == ua.asset_id && quote.currentPrice == 15.0
    ensures var s := Valuate([ua], [quote]);
            s.totalValue == 30.0 && s.totalProfitLoss == 10.0 && s.totalProfitLossPercentage == 50.0
  {
    assert FindMarket([quote], ua.asset_id) == Some(quote);
    var e := Enrich(ua, [quote]);
    assert e.totalValue == 30.0;
    assert EnrichAll([ua], [quote]) == [e];
    assert [e][..0] == [] && [ua][..0] == [];
    assert SumValues([e]) == 30.0;
    assert Investment([ua]) == 20.0;
  }

  // ---- per-holding side effects ----

  /** A request to `alertService.checkAlerts(assetId, price)`. */
  datatype AlertCheck = AlertCheck(assetId: string, price: real)

  /** A sharp-move toast for one asset. */
  datatype SharpMove = SharpMove(assetId: string, toast: ToastRequest)

  predicate IsPriced(ua: DatabaseAsset, prices: seq<Asset>)
  {
    CurrentPrice(prices, ua.asset_id) > 0.0
  }

  predicate IsSharpMove(ua: DatabaseAsset, prices: seq<Asset>, notified: set<string>)
  {
    IsPriced(ua, prices) && Abs(Change24h(prices, ua.asset_id)) >= SHARP_MOVE_PERCENT && ua.asset_id !in notified
  }

  /** The toast: 'success' for a rise, 'warning' otherwise; `fixed2` is `toFixed(2)`. */
  function SharpMoveToast(ua: DatabaseAsset, prices: seq<Asset>, fixed2: real -> string): ToastRequest
  {
    var change := Change24h(prices, ua.asset_id);
    ToastRequest(if change > 0.0 then Success else Warning,
                 "Movimiento brusco: " + ua.symbol + " ha " + (if change > 0.0 then "subido" else "bajado")
                 + " un " + fixed2(Abs(change)) + "%")
  }

  /** The alert checks of one pass: every priced holding, in order. */
  function PricedChecks(holdings: seq<DatabaseAsset>, prices: seq<Asset>): (checks: seq<AlertCheck>)
    ensures forall c :: c in checks ==> c.price > 0.0 && c.price == CurrentPrice(prices, c.assetId)
    ensures forall ua :: ua in holdings && IsPriced(ua, prices) ==>
              AlertCheck(ua.asset_id, CurrentPrice(prices, ua.asset_id)) in checks
    ensures |checks| <= |holdings|
  {
    if |holdings| == 0 then []
    else
      var ua := holdings[|holdings| - 1];
      PricedChecks(holdings[..|holdings| - 1], prices)
      + (if IsPriced(ua, prices) then [AlertCheck(ua.asset_id, CurrentPrice(prices, ua.asset_id))] else [])
  }

  /** `notifiedAssets` after the pass over `holdings`, starting from `notified`. */
  function NotifiedAfter(holdings: seq<DatabaseAsset>, prices: seq<Asset>, notified: set<string>): set<string>
  {
    if |holdings| == 0 then notified
    else
      var before := NotifiedAfter(holdings[..|holdings| - 1], prices, notified);
      var ua := holdings[|holdings| - 1];
      if IsSharpMove(ua, prices, before) then before + {ua.asset_id} else before
  }

  /** The sharp-move toasts of the pass over `holdings`, in order. */
  function MovesOf(holdings: seq<DatabaseAsset>, prices: seq<Asset>, notified: set<string>,
                   fixed2: real -> string): seq<SharpMove>
  {
    if |holdings| == 0 then []
    else
      var prefix := holdings[..|holdings| - 1];
      var ua := holdings[|holdings| - 1];
      MovesOf(prefix, prices, notified, fixed2)
      + (if IsSharpMove(ua, prices, NotifiedAfter(prefix, prices, notified))
         then [SharpMove(ua.asset_id, SharpMoveToast(ua, prices, fixed2))] else [])
  }

  function MovedIds(moves: seq<SharpMove>): set<string>
  {
    set m | m in moves :: m.assetId
  }

  /**
   * A pass fires only for priced assets moving at least 5%, never for an
   * already notified asset, never twice for one asset, and adds exactly the
   * fired assets to the notified set.
   */
  lemma {:induction false} SharpMovesAreDeduplicated(holdings: seq<DatabaseAsset>, prices: seq<Asset>,
                                                     notified: set<string>, fixed2: real -> string)
    ensures var moves := MovesOf(holdings, prices, notified, fixed2);
            && (forall i :: 0 <= i < |moves| ==> moves[i].assetId !in notified)
            && (forall i, j :: 0 <= i < j < |moves| ==> moves[i].assetId != moves[j].assetId)
            && (forall i :: 0 <= i < |moves| ==>
                  CurrentPrice(prices, moves[i].assetId) > 0.0 &&
                  Abs(Change24h(prices, moves[i].assetId)) >= SHARP_MOVE_PERCENT)
            && NotifiedAfter(holdings, prices, notified) == notified + MovedIds(moves)
  {
    if |holdings| > 0 {
      var prefix := holdings[..|holdings| - 1];
      SharpMovesAreDeduplicated(prefix, prices, notified, fixed2);
      var before := MovesOf(prefix, prices, notified, fixed2);
      var moves := MovesOf(holdings, prices, notified, fixed2);
      var ua := holdings[|holdings| - 1];
      if IsSharpMove(ua, prices, NotifiedAfter(prefix, prices, notified)) {
        var m := SharpMove(ua.asset_id, SharpMoveToast(ua, prices, fixed2));
        assert moves == before + [m];
        assert MovedIds(moves) == MovedIds(before) + {m.assetId};
      } else {
        assert moves == before;
      }
    }
  }

  /** Over the service's lifetime an asset is announced at most once: a later pass never repeats it. */
  lemma AtMostOncePerLifetime(h1: seq<DatabaseAsset>, p1: seq<Asset>, h2: seq<DatabaseAsset>, p2: seq<Asset>,
                              notified: set<string>, fixed2: real -> string)
    ensures MovedIds(MovesOf(h1, p1, notified, fixed2)) !! MovedIds(MovesOf(h2, p2, NotifiedAfter(h1, p1, notified), fixed2))
  {
    SharpMovesAreDeduplicated(h1, p1, notified, fixed2);
    var later := MovesOf(h2, p2, NotifiedAfter(h1, p1, notified), fixed2);
    SharpMovesAreDeduplicated(h2, p2, NotifiedAfter(h1, p1, notified), fixed2);
    forall id | id in MovedIds(later)
      ensures id !in MovedIds(MovesOf(h1, p1, notified, fixed2))
    {
      var m :| m in later && m.assetId == id;
      var i :| 0 <= i < |later| && later[i] == m;
    }
  }

  /** One more holding extends each of the pass's results by that holding's contribution. */
  lemma RecomputeStep(holdings: seq<DatabaseAsset>, i: int, prices: seq<Asset>, notified: set<string>,
                      fixed2: real -> string)
    requires 0 <= i < |holdings|
    ensures var ua, p := holdings[i], holdings[..i];
            var before := NotifiedAfter(p, prices, notified);
            EnrichAll(holdings[..i + 1], prices) == EnrichAll(p, prices) + [Enrich(ua, prices)] &&
            PricedChecks(holdings[..i + 1], prices) ==
              PricedChecks(p, prices) + (if IsPriced(ua, prices) then [AlertCheck(ua.asset_id, CurrentPrice(prices, ua.asset_id))] else []) &&
            NotifiedAfter(holdings[..i + 1], prices, notified) ==
              (if IsSharpMove(ua, prices, before) then before + {ua.asset_id} else before) &&
            MovesOf(holdings[..i + 1], prices, notified, fixed2) ==
              MovesOf(p, prices, notified, fixed2) +
              (if IsSharpMove(ua, prices, before) then [SharpMove(ua.asset_id, SharpMoveToast(ua, prices, fixed2))] else [])
  {
    assert holdings[..i + 1][..i] == holdings[..i];
  }

  class DashboardStateService {
    /** Assets already announced with a sharp-move toast. */
    var notifiedAssets: set<string>

    constructor ()
      ensures notifiedAssets == {}
    {
      notifiedAssets := {};
    }

    /**
     * One emission of `portfolio$`: values the holdings and, for each priced
     * holding in order, requests an alert check and possibly a sharp-move toast.
     */
    method Recompute(holdings: seq<DatabaseAsset>, prices: seq<Asset>, fixed2: real -> string)
      returns (state: PortfolioState, checks: seq<AlertCheck>, moves: seq<SharpMove>)
      modifies this
      ensures state == Valuate(holdings, prices)
      ensures checks == PricedChecks(holdings, prices)
      ensures moves == MovesOf(holdings, prices, old(notifiedAssets), fixed2)
      ensures notifiedAssets == NotifiedAfter(holdings, prices, old(notifiedAssets))
    {
      var enriched: seq<PortfolioAsset> := [];
      checks, moves := [], [];
      var i := 0;
      while i < |holdings|
        invariant 0 <= i <= |holdings|
        invariant enriched == EnrichAll(holdings[..i], prices)
        invariant checks == PricedChecks(holdings[..i], prices)
        invariant moves == MovesOf(holdings[..i], prices, old(notifiedAssets), fixed2)
        invariant notifiedAssets == NotifiedAfter(holdings[..i], prices, old(notifiedAssets))
      {
        var ua := holdings[i];
        RecomputeStep(holdings, i, prices, old(notifiedAssets), fixed2);
        var currentPrice := CurrentPrice(prices, ua.asset_id);
        if currentPrice > 0.0 {
          checks := checks + [AlertCheck(ua.asset_id, currentPrice)];
          var change := Change24h(prices, ua.asset_id);
          if Abs(change) >= SHARP_MOVE_PERCENT && ua.asset_id !in notifiedAssets {
            moves := moves + [SharpMove(ua.asset_id, SharpMoveToast(ua, prices, fixed2))];
            notifiedAssets := notifiedAssets + {ua.asset_id};
          }
        }
        enriched := enriched + [Enrich(ua, prices)];
        i := i + 1;
      }
      assert holdings[..|holdings|] == holdings;
      state := Summarize(enriched, holdings);
    }
  }
}
