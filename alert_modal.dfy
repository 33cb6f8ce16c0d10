/**
 * The "create price alert" dialog of
 * src/app/features/dashboard/components/alert-modal/alert-modal.component.ts.
 *
 * The form's `target_price` control is a `PriceField`: `Blank` stands for the
 * empty string, `null` after a reset, and any text that is not a number.
 * Submitting is split at the request: `BeginSubmit` runs the guard and hands
 * out the row to insert, `FinishSubmit` handles the answer.
 */
module AlertModal {
  import opened Wrappers
  import opened Models
  import opened Toasts
  import Alerts

  datatype PriceField = Blank | Amount(v: real)

  /** JavaScript truthiness of the control's value: a number other than 0. */
  predicate Truthy(f: PriceField)
  {
    f.Amount? && f.v != 0.0
  }

  /** `Validators.required` on both controls and `Validators.min(0.01)` on the price. */
  predicate FormValid(target: PriceField, condition: Option<Condition>)
  {
    target.Amount? && target.v >= 0.01 && condition.Some?
  }

  /** The condition `onPriceChange` suggests: ABOVE only for a target strictly over the current price. */
  function Suggest(target: real, current: real): (c: Condition)
    ensures c == Above <==> target > current
  {
    if target > current then Above else Below
  }

  /**
   * The suggested condition never fires at the price the dialog was opened
   * with, unless the target is that very price.
   */
  lemma SuggestionWaits(draft: Alerts.AlertDraft, id: string, user: string, current: real)
    requires draft.condition == Suggest(draft.target_price, current)
    ensures var a := PriceAlert(id, user, draft.asset_id, draft.symbol, draft.target_price, draft.condition, true, None, None);
            Alerts.Triggers(a, current) <==> draft.target_price == current
  {
  }

  /**
   * `priceChangePercentage`: the target's distance from the current price in
   * percent; 0 without an asset or a truthy target. `None` stands for the
   * non-finite number JavaScript computes for a current price of 0.
   */
  function PriceChangePercentage(selected: Option<PortfolioAsset>, target: PriceField): (r: Option<real>)
    ensures selected.None? || !Truthy(target) ==> r == Some(0.0)
    ensures selected.Some? && Truthy(target) ==>
              (r.None? <==> selected.value.currentPrice == 0.0)
    ensures r.Some? && selected.Some? && Truthy(target) ==>
              r.value * selected.value.currentPrice == (target.v - selected.value.currentPrice) * 100.0
  {
    if selected.None? || !Truthy(target) then Some(0.0)
    else if selected.value.currentPrice == 0.0 then None
    else
      var c := selected.value.currentPrice;
      Some((target.v - c) / c * 100.0)
  }

  /** For a positive current price, the sign of the percentage is the suggested condition. */
  lemma PercentageAgreesWithSuggestion(asset: PortfolioAsset, target: real)
    requires asset.currentPrice > 0.0 && target != 0.0
    ensures var r := PriceChangePercentage(Some(asset), Amount(target));
            r.Some? && (r.value > 0.0 <==> Suggest(target, asset.currentPrice) == Above)
  {
    var c := asset.currentPrice;
    var r := PriceChangePercentage(Some(asset), Amount(target));
    assert r.value * c == (target - c) * 100.0;
    if r.value > 0.0 {
      assert r.value * c > 0.0;
    } else {
      assert r.value * c <= 0.0;
    }
  }

  class AlertModalComponent {
    var visible: bool
    var isLoading: bool
    var selectedAsset: Option<PortfolioAsset>
    var suggestedCondition: Condition
    var target: PriceField
    var condition: Option<Condition>

    /** Field initialisers followed by `ngOnInit`'s form. */
    constructor ()
      ensures !visible && !isLoading && selectedAsset.None? && suggestedCondition == Above
      ensures target == Blank && condition == Some(Above)
    {
      visible, isLoading, selectedAsset, suggestedCondition := false, false, None, Above;
      target, condition := Blank, Some(Above);
    }

    /** `open`: the asset's current price and ABOVE prefill the form. */
    method Open(asset: PortfolioAsset)
      modifies this
      ensures selectedAsset == Some(asset) && visible && suggestedCondition == Above
      ensures target == Amount(asset.currentPrice) && condition == Some(Above)
      ensures isLoading == old(isLoading)
    {
      selectedAsset := Some(asset);
      visible := true;
      suggestedCondition := Above;
      target, condition := Amount(asset.currentPrice), Some(Above);
    }

    /** `close`: `reset()` leaves both controls `null`. */
    method Close()
      modifies this
      ensures !visible && target == Blank && condition.None? && selectedAsset.None?
      ensures isLoading == old(isLoading) && suggestedCondition == old(suggestedCondition)
    {
      visible := false;
      target, condition := Blank, None;
      selectedAsset := None;
    }

    /** `onPriceChange`: with an asset and a truthy target, re-suggest the condition. */
    method OnPriceChange()
      modifies this
      ensures selectedAsset.Some? && Truthy(target) ==>
                condition == Some(suggestedCondition) &&
                (suggestedCondition == Above <==> target.v > selectedAsset.value.currentPrice)
      ensures selectedAsset.None? || !Truthy(target) ==>
                condition == old(condition) && suggestedCondition == old(suggestedCondition)
      ensures visible == old(visible) && isLoading == old(isLoading)
      ensures selectedAsset == old(selectedAsset) && target == old(target)
    {
      if selectedAsset.None? {
        return;
      }
      if Truthy(target) {
        var c := Suggest(target.v, selectedAsset.value.currentPrice);
        condition := Some(c);
        suggestedCondition := c;
      }
    }

    /**
     * The guard of `onSubmit`: an invalid form, a request in flight or no
     * asset sends nothing; otherwise the dialog becomes busy and the row for
     * `addAlert` is built from the asset and the form.
     */
    method BeginSubmit() returns (draft: Option<Alerts.AlertDraft>)
      modifies this
      ensures draft.None? <==> !FormValid(target, condition) || old(isLoading) || selectedAsset.None?
      ensures draft.None? ==> isLoading == old(isLoading)
      ensures draft.Some? ==>
                isLoading &&
                draft.value == Alerts.AlertDraft(selectedAsset.value.assetId, selectedAsset.value.symbol,
                                                 target.v, condition.value) &&
                draft.value.target_price >= 0.01
      ensures visible == old(visible) && selectedAsset == old(selectedAsset) && target == old(target)
      ensures condition == old(condition) && suggestedCondition == old(suggestedCondition)
    {
      if !FormValid(target, condition) || isLoading || selectedAsset.None? {
        return None;
      }
      isLoading := true;
      var asset := selectedAsset.value;
      draft := Some(Alerts.AlertDraft(asset.assetId, asset.symbol, target.v, condition.value));
    }

    /**
     * The answer to `addAlert`: `failed` is an error from the request
     * itself. Success shows the alert and closes the dialog; failure keeps it
     * open with an error. Either way the dialog is no longer busy.
     */
    method FinishSubmit(draft: Alerts.AlertDraft, failed: bool, num: real -> string) returns (toast: ToastRequest)
      modifies this
      ensures !isLoading
      ensures !failed ==>
                toast == ToastRequest(Success, "Alerta creada: " + draft.symbol + " " +
                                               (if draft.condition == Above then ">" else "<") + " $" +
                                               num(draft.target_price)) &&
                !visible && target == Blank && condition.None? && selectedAsset.None?
      ensures failed ==>
                toast == ToastRequest(Error, "Error al crear la alerta") &&
                visible == old(visible) && target == old(target) && condition == old(condition) &&
                selectedAsset == old(selectedAsset)
      ensures suggestedCondition == old(suggestedCondition)
    {
      isLoading := false;
      if failed {
        toast := ToastRequest(Error, "Error al crear la alerta");
      } else {
        toast := ToastRequest(Success, "Alerta creada: " + draft.symbol + " " +
                                       (if draft.condition == Above then ">" else "<") + " $" +
                                       num(draft.target_price));
        Close();
      }
    }
  }
}
