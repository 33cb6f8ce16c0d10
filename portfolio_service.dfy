/**
 * The holdings store of src/app/core/services/portfolio.service.ts.
 *
 * Its records name the quantity and buy price `quantity` and `avg_buy_price`
 * (unlike the `amount`/`purchase_price` rows the dashboard values). Loading
 * is split at the request: `LoadPortfolio` starts it, `LoadFinished` takes
 * the backend's answer.
 */
module PortfolioService {
  import opened Wrappers
  import opened Models

  datatype UserAsset = UserAsset(
    id: Option<string>,
    user_id: Option<string>,
    asset_id: string,
    symbol: string,
    quantity: real,
    avg_buy_price: real,
    created_at: Option<int>)

  const NOT_AUTHENTICATED: string := "User not authenticated"

  /** `marketPrices[id]?.current_price || 0`: a missing entry, a missing price and 0 all give 0. */
  function PriceOf(marketPrices: map<string, Option<real>>, id: string): real
  {
    if id in marketPrices && marketPrices[id].Some? then marketPrices[id].value else 0.0
  }

  /** The `reduce` of `getPortfolioValue`, from the first asset to the last. */
  function Value(assets: seq<UserAsset>, marketPrices: map<string, Option<real>>): real
  {
    if |assets| == 0 then 0.0
    else
      var a := assets[|assets| - 1];
      Value(assets[..|assets| - 1], marketPrices) + a.quantity * PriceOf(marketPrices, a.asset_id)
  }

  /** The value of two lists one after the other is the sum of their values. */
  lemma {:induction false} ValueConcat(xs: seq<UserAsset>, ys: seq<UserAsset>, marketPrices: map<string, Option<real>>)
    ensures Value(xs + ys, marketPrices) == Value(xs, marketPrices) + Value(ys, marketPrices)
  {
    if |ys| > 0 {
      var last := ys[|ys| - 1];
      assert (xs + ys)[..|xs + ys| - 1] == xs + ys[..|ys| - 1];
      assert (xs + ys)[|xs + ys| - 1] == last;
      ValueConcat(xs, ys[..|ys| - 1], marketPrices);
    } else {
      assert xs + ys == xs;
    }
  }

  /**
   * Nothing is worth 0, one asset is worth its quantity times its price, and
   * an asset with no price entry adds nothing wherever it stands.
   */
  lemma ValueShape(xs: seq<UserAsset>, a: UserAsset, ys: seq<UserAsset>, marketPrices: map<string, Option<real>>)
    ensures Value([], marketPrices) == 0.0
    ensures Value([a], marketPrices) == a.quantity * PriceOf(marketPrices, a.asset_id)
    ensures a.asset_id !in marketPrices ==> Value(xs + [a] + ys, marketPrices) == Value(xs + ys, marketPrices)
  {
    assert [a][..0] == [];
    ValueConcat(xs + [a], ys, marketPrices);
    ValueConcat(xs, [a], marketPrices);
    ValueConcat(xs, ys, marketPrices);
  }

  /** With every price present and every quantity non-negative, the value is never negative. */
  lemma {:induction false} ValueNonNegative(assets: seq<UserAsset>, marketPrices: map<string, Option<real>>)
    requires forall i :: 0 <= i < |assets| ==> assets[i].quantity >= 0.0 && PriceOf(marketPrices, assets[i].asset_id) >= 0.0
    ensures Value(assets, marketPrices) >= 0.0
  {
    if |assets| > 0 {
      var a := assets[|assets| - 1];
      ValueNonNegative(assets[..|assets| - 1], marketPrices);
      assert a.quantity * PriceOf(marketPrices, a.asset_id) >= 0.0;
    }
  }

  /**
   * `addAsset`: without a user it fails and sends nothing; otherwise it sends
   * the record with `user_id` taken from the user.
   */
  function AddAssetRequest(user: Option<User>, asset: UserAsset): (r: Result<UserAsset, string>)
    ensures r.Err? <==> user.None?
    ensures r.Err? ==> r.error == NOT_AUTHENTICATED
    ensures r.Ok? ==> r.value.user_id == Some(user.value.id)
  {
    if user.None? then Err(NOT_AUTHENTICATED) else Ok(asset.(user_id := Some(user.value.id)))
  }

  /** Every field but `user_id` is sent as given. */
  lemma AddAssetKeepsRecord(user: User, asset: UserAsset)
    ensures var r := AddAssetRequest(Some(user), asset);
            r.Ok? && r.value.(user_id := asset.user_id) == asset
  {
  }

  class PortfolioService {
    var assets: seq<UserAsset>
    var loading: bool

    /** The subjects' initial values; the constructor's own `loadPortfolio` is `LoadPortfolio`. */
    constructor ()
      ensures assets == [] && !loading
    {
      assets, loading := [], false;
    }

    /** `loadPortfolio`: with a user, the request starts and the store is loading. */
    method LoadPortfolio(user: Option<User>) returns (requested: bool)
      modifies this
      ensures requested <==> user.Some?
      ensures loading == (old(loading) || requested)
      ensures assets == old(assets)
    {
      if user.None? {
        return false;
      }
      loading := true;
      requested := true;
    }

    /**
     * The answer to the load: rows replace the list (no rows give `[]`); an
     * error keeps the list. Either way loading ends.
     */
    method LoadFinished(response: Result<Option<seq<UserAsset>>, string>)
      modifies this
      ensures !loading
      ensures response.Ok? ==> assets == response.value.GetOr([])
      ensures response.Err? ==> assets == old(assets)
    {
      if response.Ok? {
        assets := response.value.GetOr([]);
      }
      loading := false;
    }

    /** `getPortfolioValue` on the current list. */
    function GetPortfolioValue(marketPrices: map<string, Option<real>>): (v: real)
      reads this
      ensures assets == [] ==> v == 0.0
    {
      Value(assets, marketPrices)
    }
  }
}
