/**
 * The records the client passes around (src/app/core/models/asset.model.ts,
 * automation.model.ts, auth.model.ts). Money and prices are exact reals,
 * dates are millisecond timestamps.
 */
module Models {
  import opened Wrappers

  /** A coin as the market service delivers it. */
  datatype Asset = Asset(
    id: string,
    symbol: string,
    name: string,
    currentPrice: real,
    priceChange24h: real,
    priceChangePercentage24h: real,
    marketCap: real,
    volume24h: real,
    image: string,
    lastUpdate: int)

  /** A holding row as the valuation reads it (`amount`, `purchase_price`). */
  datatype DatabaseAsset = DatabaseAsset(
    id: Option<string>,
    user_id: string,
    symbol: string,
    asset_name: string,
    amount: real,
    purchase_price: real,
    asset_id: string)

  /** A holding enriched with its market price and profit/loss. */
  datatype PortfolioAsset = PortfolioAsset(
    id: Option<string>,
    assetId: string,
    symbol: string,
    name: string,
    quantity: real,
    averageBuyPrice: real,
    currentPrice: real,
    totalValue: real,
    profitLoss: real,
    profitLossPercentage: real,
    image: Option<string>,
    change24h: Option<real>)

  /**
   * A recorded movement. The declared model has no `symbol`, but the CSV
   * export reads one (`tx.symbol || ''`), so it is optional here; `kind` is
   * the `type` string ('buy', 'sell', 'update', 'delete').
   */
  datatype Transaction = Transaction(
    id: Option<string>,
    user_id: string,
    asset_id: string,
    kind: string,
    amount: real,
    price_per_unit: real,
    total: real,
    date: int,
    symbol: Option<string>)

  datatype Condition = Above | Below

  /** A price alert row (`ABOVE` / `BELOW`), the one the alert engine uses. */
  datatype PriceAlert = PriceAlert(
    id: string,
    user_id: string,
    asset_id: string,
    symbol: string,
    target_price: real,
    condition: Condition,
    is_active: bool,
    created_at: Option<int>,
    triggered_at: Option<int>)

  datatype FinancialGoal = FinancialGoal(
    id: string,
    user_id: string,
    name: string,
    target_amount: real,
    current_amount: Option<real>,
    deadline: Option<string>)

  datatype User = User(id: string, email: string, name: string, avatar: Option<string>, createdAt: int)

  datatype AuthResponse = AuthResponse(user: User, token: string, refreshToken: string)
}
