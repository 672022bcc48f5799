/** The portfolio widget: the two totals over the fetched assets and the per-asset sign, arrow and badge. */
module PortfolioSummary {
  import opened Wrappers
  import opened JsValues
  import opened RenderState
  import Formatters

  /** An asset record as fetched; `assetType` None is a missing `asset_type`. */
  datatype Asset = Asset(
    symbol: string,
    quantity: real,
    assetType: Option<string>,
    currentValue: JsNumber,
    profitLoss: JsNumber,
    profitLossPercent: JsNumber)

  /** `assets.reduce((sum, asset) => sum + (field(asset) || 0), 0)` */
  function FieldSum(assets: seq<Asset>, field: Asset -> JsNumber): (total: real)
    ensures (forall i :: 0 <= i < |assets| ==> OrZero(field(assets[i])) >= 0.0) ==> total >= 0.0
    ensures (forall i :: 0 <= i < |assets| ==> OrZero(field(assets[i])) == 0.0) ==> total == 0.0
    decreases |assets|
  {
    if |assets| == 0 then 0.0
    else
      var init := assets[..|assets| - 1];
      assert forall i :: 0 <= i < |init| ==> init[i] == assets[i];
      FieldSum(init, field) + OrZero(field(assets[|assets| - 1]))
  }

  function CurrentValue(a: Asset): JsNumber { a.currentValue }
  function ProfitLoss(a: Asset): JsNumber { a.profitLoss }

  /** The sum over a concatenation is the sum of the sums. */
  lemma {:induction false} FieldSumAppend(a: seq<Asset>, b: seq<Asset>, field: Asset -> JsNumber)
    ensures FieldSum(a + b, field) == FieldSum(a, field) + FieldSum(b, field)
    decreases |b|
  {
    if |b| == 0 {
      assert a + b == a;
    } else {
      assert (a + b)[..|a + b| - 1] == a + b[..|b| - 1];
      FieldSumAppend(a, b[..|b| - 1], field);
    }
  }

  /** Each asset contributes its own value, and a missing one contributes nothing. */
  lemma FieldSumSingle(a: Asset, field: Asset -> JsNumber)
    ensures FieldSum([a], field) == if field(a).Num? then field(a).x else 0.0
  {
    assert [a][..0] == [];
  }

  /** `data.portfolio || []` */
  function PortfolioList(portfolio: Option<seq<Asset>>): (list: seq<Asset>)
    ensures portfolio.None? ==> list == []
    ensures portfolio.Some? ==> list == portfolio.value
  {
    portfolio.GetOr([])
  }

  datatype Totals = Totals(totalValue: real, totalGain: real)

  /** The totals after the fetch: assigned only for a non-empty portfolio, otherwise left at their initial 0. */
  function TotalsAfterFetch(portfolio: Option<seq<Asset>>): (t: Totals)
    ensures portfolio.None? || portfolio.value == [] ==> t == Totals(0.0, 0.0)
  {
    if portfolio.Some? && |portfolio.value| > 0 then
      Totals(FieldSum(portfolio.value, CurrentValue), FieldSum(portfolio.value, ProfitLoss))
    else
      Totals(0.0, 0.0)
  }

  /** The guard makes no difference: the totals are always the sums over the list the widget shows. */
  lemma TotalsAreSums(portfolio: Option<seq<Asset>>)
    ensures TotalsAfterFetch(portfolio) == Totals(FieldSum(PortfolioList(portfolio), CurrentValue), FieldSum(PortfolioList(portfolio), ProfitLoss))
  {
  }

  /** The prefix before the total gain: zero counts as a gain. */
  function GainPrefix(totalGain: real): (prefix: string)
    ensures prefix == "+" <==> totalGain >= 0.0
    ensures prefix != "+" ==> prefix == ""
  {
    if totalGain >= 0.0 then "+" else ""
  }

  /** The colour of the total gain, chosen by the same test as its prefix. */
  function GainColor(totalGain: real): (color: string)
    ensures color == "text-green-600" <==> GainPrefix(totalGain) == "+"
    ensures color != "text-green-600" ==> color == "text-red-600"
  {
    if totalGain >= 0.0 then "text-green-600" else "text-red-600"
  }

  /** `asset.profit_loss >= 0 ? '▲' : '▼'`; a null profit compares as 0, a missing one as false. */
  function Arrow(profitLoss: JsNumber): (arrow: string)
    ensures arrow == "\U{25B2}" <==> AtLeastZero(profitLoss)
    ensures arrow != "\U{25B2}" ==> arrow == "\U{25BC}"
    ensures profitLoss.Num? ==> (arrow == "\U{25B2}" <==> profitLoss.x >= 0.0)
  {
    if AtLeastZero(profitLoss) then "\U{25B2}" else "\U{25BC}"
  }

  /** `formatPercentage(Math.abs(asset.profit_loss_percent))`: the percentage is shown without its sign. */
  function ShownPercent(percent: JsNumber, render: Formatters.LocaleNumber): (s: string)
    ensures percent.Num? ==> s == render(if percent.x < 0.0 then -percent.x else percent.x, 2) + "%"
    ensures percent.Null? ==> s == render(0.0, 2) + "%"
    ensures percent.Undefined? || percent.NaN? ==> s == "-"
  {
    Formatters.FormatPercentage(Abs(percent), Formatters.DefaultPercentDecimals, render)
  }

  /** A loss and the gain of the same size show the same percentage. */
  lemma ShownPercentIgnoresSign(x: real, render: Formatters.LocaleNumber)
    ensures ShownPercent(Num(-x), render) == ShownPercent(Num(x), render)
  {
  }

  /** The badge letter: 'S' for a stock, 'C' for anything else. */
  function Badge(assetType: Option<string>): (letter: string)
    ensures letter == "S" <==> assetType == Some("stock")
    ensures letter != "S" ==> letter == "C"
  {
    if assetType == Some("stock") then "S" else "C"
  }

  /** The unit after the quantity, chosen by the same test as the badge. */
  function UnitLabel(assetType: Option<string>): (unit: string)
    ensures unit == "shares" <==> Badge(assetType) == "S"
    ensures unit != "shares" ==> unit == "coins"
  {
    if assetType == Some("stock") then "shares" else "coins"
  }

  /**
   * What the widget renders, in the order of its early returns. This widget has
   * its own loading, error and empty checks; like the others it is an instance of
   * the shared `ViewOf` selection, over its own portfolio list.
   */
  function Screen(loading: bool, error: string, portfolio: seq<Asset>): (v: View)
    ensures v.Loading? <==> loading
    ensures v == Failed(error) <==> !loading && error != ""
    ensures v.Empty? <==> !loading && error == "" && |portfolio| == 0
    ensures v.Populated? <==> !loading && error == "" && |portfolio| > 0
  {
    ViewOf(loading, error, |portfolio| == 0)
  }
}
