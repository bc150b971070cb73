/**
 * Portfolio arithmetic (lib/portfolio.ts): the live value of a list of assets at their types'
 * current unit prices, and the change against the frozen initial values.
 */
module Portfolio {
  import opened Wrappers
  import opened Types
  import opened Sums

  /** An asset with its type's current unit price, as the dashboard receives it. */
  datatype PortfolioAsset = PortfolioAsset(
    initialValue: real,
    quantity: Option<real>,
    grams: Option<real>,
    assetType: AssetType,
    currentValue: Option<real>)

  /** Change of a total against its initial value. */
  datatype ValueChange = ValueChange(changeAmount: real, changePercentage: real, isProfit: bool)

  /** `asset.quantity || 1`: an absent or zero quantity counts as one. */
  function QuantityOrOne(quantity: Option<real>): real {
    if quantity.None? || quantity.value == 0.0 then 1.0 else quantity.value
  }

  /** What one asset adds to the current portfolio value. */
  function Contribution(asset: PortfolioAsset): real {
    var unit := asset.currentValue.GetOr(0.0);
    if asset.grams.Some? && asset.grams.value != 0.0 && IsWeighedGold(asset.assetType) then
      unit * asset.grams.value
    else if asset.assetType == TurkishLira || asset.assetType == Dollar || asset.assetType == Euro then
      unit * QuantityOrOne(asset.quantity)
    else
      unit * QuantityOrOne(asset.quantity)
  }

  function InitialValueOf(asset: PortfolioAsset): real {
    asset.initialValue
  }

  /** `calculateCurrentPortfolioValue`: a left fold of the contributions from 0. */
  function CurrentPortfolioValue(assets: seq<PortfolioAsset>): real {
    FoldLeft(0.0, assets, Contribution)
  }

  /** The sum of the frozen initial values. */
  function TotalInitialValue(assets: seq<PortfolioAsset>): real {
    FoldLeft(0.0, assets, InitialValueOf)
  }

  /** Change amount, percentage (0 unless the initial total is positive) and profit flag. */
  function ChangeMetrics(initialValue: real, currentValue: real): (c: ValueChange)
    ensures c.changeAmount + initialValue == currentValue
    ensures c.isProfit <==> initialValue <= currentValue
    ensures initialValue <= 0.0 ==> c.changePercentage == 0.0
    ensures 0.0 < initialValue ==> c.changePercentage * initialValue == c.changeAmount * 100.0
    ensures 0.0 < initialValue ==> (0.0 <= c.changePercentage <==> c.isProfit)
  {
    var changeAmount := currentValue - initialValue;
    var changePercentage := if initialValue > 0.0 then (changeAmount / initialValue) * 100.0 else 0.0;
    ValueChange(changeAmount, changePercentage, changeAmount >= 0.0)
  }

  /** `calculatePortfolioChange`. */
  function CalculatePortfolioChange(assets: seq<PortfolioAsset>): ValueChange {
    ChangeMetrics(TotalInitialValue(assets), CurrentPortfolioValue(assets))
  }

  /** The per-asset rule: weighed gold with a non-zero weight counts by grams, everything else
      (gold without a weight included) by quantity or one; a missing unit price counts as 0. */
  lemma ContributionRule(asset: PortfolioAsset)
    ensures asset.grams.Some? && asset.grams.value != 0.0 && IsWeighedGold(asset.assetType) ==>
      Contribution(asset) == asset.currentValue.GetOr(0.0) * asset.grams.value
    ensures !(asset.grams.Some? && asset.grams.value != 0.0 && IsWeighedGold(asset.assetType)) ==>
      Contribution(asset) == asset.currentValue.GetOr(0.0) * QuantityOrOne(asset.quantity)
    ensures asset.currentValue.None? || asset.currentValue.value == 0.0 ==> Contribution(asset) == 0.0
  {
  }

  /** The current value is 0 for no assets and adds up over concatenation. */
  lemma {:induction false} CurrentValueIsAdditive(a: seq<PortfolioAsset>, b: seq<PortfolioAsset>)
    ensures CurrentPortfolioValue([]) == 0.0
    ensures CurrentPortfolioValue(a + b) == CurrentPortfolioValue(a) + CurrentPortfolioValue(b)
  {
    FoldLeftIsSum(0.0, a + b, Contribution);
    FoldLeftIsSum(0.0, a, Contribution);
    FoldLeftIsSum(0.0, b, Contribution);
    SumConcat(a, b, Contribution);
  }

  /** The change of the whole portfolio: current minus initial totals, percentage and profit
      flag as `ChangeMetrics` states them. */
  lemma {:induction false} PortfolioChangeSpec(assets: seq<PortfolioAsset>)
    ensures var c := CalculatePortfolioChange(assets);
      && c.changeAmount == Sum(assets, Contribution) - Sum(assets, InitialValueOf)
      && (c.isProfit <==> Sum(assets, InitialValueOf) <= Sum(assets, Contribution))
      && (Sum(assets, InitialValueOf) <= 0.0 ==> c.changePercentage == 0.0)
  {
    FoldLeftIsSum(0.0, assets, Contribution);
    FoldLeftIsSum(0.0, assets, InitialValueOf);
  }
}
