/** The budget widget: one progress bar per budget, coloured by how much of it is used. */
module BudgetOverview {
  import opened JsValues
  import opened RenderState

  /** A budget status record as fetched, reduced to the field the bar reads. */
  datatype BudgetStatus = BudgetStatus(category: string, percentageUsed: JsNumber)

  /** `getBudgetStatusColor(percentage)` */
  function StatusColor(percentage: real): (color: string)
    ensures color == "bg-red-500" <==> percentage >= 100.0
    ensures color == "bg-yellow-500" <==> 80.0 <= percentage < 100.0
    ensures color == "bg-green-500" <==> percentage < 80.0
  {
    if percentage >= 100.0 then "bg-red-500"
    else if percentage >= 80.0 then "bg-yellow-500"
    else "bg-green-500"
  }

  /** `Math.min(percentage, 100)`: the width of the filled bar. */
  function BarWidth(percentage: real): (width: real)
    ensures width <= 100.0
    ensures width <= percentage
    ensures percentage <= 100.0 ==> width == percentage
    ensures percentage >= 100.0 ==> width == 100.0
  {
    if percentage < 100.0 then percentage else 100.0
  }

  datatype Bar = Bar(width: real, color: string)

  /** `BudgetProgressBar`: the width is capped, the colour is taken from the uncapped percentage. */
  function ProgressBar(percentage: real): (bar: Bar)
    ensures bar.width == BarWidth(percentage) && bar.color == StatusColor(percentage)
  {
    Bar(BarWidth(percentage), StatusColor(percentage))
  }

  /** A budget at 150% fills the bar to 100% and is red. */
  lemma OverspentBarIsFullAndRed()
    ensures ProgressBar(150.0) == Bar(100.0, "bg-red-500")
  {
  }

  /** Capping never changes the colour: the capped width has the colour of the uncapped percentage. */
  lemma CappedColourAgrees(percentage: real)
    ensures StatusColor(BarWidth(percentage)) == StatusColor(percentage)
  {
  }

  /** `budget.percentage_used || 0` */
  function PercentUsed(b: BudgetStatus): (p: real)
    ensures b.percentageUsed.Num? ==> p == b.percentageUsed.x
    ensures !b.percentageUsed.Num? ==> p == 0.0
  {
    OrZero(b.percentageUsed)
  }

  /** A budget without a usable `percentage_used` shows an empty green bar. */
  lemma MissingPercentIsGreen(category: string, v: JsNumber)
    requires !v.Num?
    ensures ProgressBar(PercentUsed(BudgetStatus(category, v))) == Bar(0.0, "bg-green-500")
  {
  }

  /**
   * The colour of the percentage label. The component writes this as a second
   * threshold chain of its own, with text classes rather than the bar's
   * background classes; `ColoursAgree` proves that the two chains agree.
   */
  function LabelColor(percentUsed: real): (color: string)
    ensures color == "text-red-600" <==> percentUsed >= 100.0
    ensures color == "text-yellow-600" <==> 80.0 <= percentUsed < 100.0
    ensures color == "text-green-600" <==> percentUsed < 80.0
  {
    if percentUsed >= 100.0 then "text-red-600"
    else if percentUsed >= 80.0 then "text-yellow-600"
    else "text-green-600"
  }

  /** The hue both colours name. */
  function Hue(percentage: real): string {
    if percentage >= 100.0 then "red" else if percentage >= 80.0 then "yellow" else "green"
  }

  /** The bar and its label always name the same hue. */
  lemma ColoursAgree(percentage: real)
    ensures StatusColor(percentage) == "bg-" + Hue(percentage) + "-500"
    ensures LabelColor(percentage) == "text-" + Hue(percentage) + "-600"
  {
  }

  /** What the widget renders, in the order of its early returns. */
  function Screen(loading: bool, error: string, budgets: seq<BudgetStatus>): (v: View)
    ensures v.Loading? <==> loading
    ensures v == Failed(error) <==> !loading && error != ""
    ensures v.Empty? <==> !loading && error == "" && |budgets| == 0
    ensures v.Populated? <==> !loading && error == "" && |budgets| > 0
  {
    ViewOf(loading, error, |budgets| == 0)
  }
}
