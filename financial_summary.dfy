/** The financial summary widget: the doughnut chart data and the three summary cards. */
module FinancialSummary {
  import opened Wrappers
  import opened RenderState

  /**
   * The fetched summary, reduced to what the widget reads: the
   * `[category, amount]` pairs of `top_spending_categories` (None when the
   * field is missing) and whether `monthly_spending` is present.
   */
  datatype Summary = Summary(topSpendingCategories: Option<seq<(string, real)>>, hasMonthlySpending: bool)

  /** The pairs of `summary.top_spending_categories`, when both are present. */
  function Categories(summary: Option<Summary>): Option<seq<(string, real)>> {
    if summary.None? then None else summary.value.topSpendingCategories
  }

  /** One chart dataset; its colours and border width are constants of the chart and are not modelled. */
  datatype Dataset = Dataset(data: seq<real>)

  datatype ChartData = ChartData(labels: seq<string>, datasets: seq<Dataset>)

  /** `prepareChartData()`: the categories become the labels and the amounts the single dataset. */
  function PrepareChartData(summary: Option<Summary>): (chart: ChartData)
    ensures Categories(summary).None? ==> chart == ChartData([], [])
    ensures Categories(summary).Some? ==>
      var pairs := Categories(summary).value;
      && |chart.datasets| == 1
      && |chart.labels| == |pairs| == |chart.datasets[0].data|
      && (forall i :: 0 <= i < |pairs| ==> chart.labels[i] == pairs[i].0 && chart.datasets[0].data[i] == pairs[i].1)
  {
    match Categories(summary)
    case None => ChartData([], [])
    case Some(pairs) =>
      ChartData(seq(|pairs|, i requires 0 <= i < |pairs| => pairs[i].0), [Dataset(seq(|pairs|, i requires 0 <= i < |pairs| => pairs[i].1))])
  }

  /** Pairs labels with values again. */
  function Zip(labels: seq<string>, values: seq<real>): (pairs: seq<(string, real)>)
    requires |labels| == |values|
    ensures |pairs| == |labels|
    ensures forall i :: 0 <= i < |pairs| ==> pairs[i] == (labels[i], values[i])
  {
    seq(|labels|, i requires 0 <= i < |labels| => (labels[i], values[i]))
  }

  /** Nothing is lost or reordered: zipping the labels with the data gives back the pairs. */
  lemma ChartDataRoundTrip(summary: Option<Summary>)
    requires Categories(summary).Some?
    ensures var chart := PrepareChartData(summary);
      Zip(chart.labels, chart.datasets[0].data) == Categories(summary).value
  {
  }

  /**
   * `pairs.reduce((total, [, amount]) => total + amount, 0)`. With no negative
   * amount the total is not negative and bounds every single amount.
   */
  function SumAmounts(pairs: seq<(string, real)>): (total: real)
    ensures |pairs| == 0 ==> total == 0.0
    ensures (forall i :: 0 <= i < |pairs| ==> pairs[i].1 >= 0.0) ==> total >= 0.0
    ensures (forall i :: 0 <= i < |pairs| ==> pairs[i].1 >= 0.0) ==> forall i :: 0 <= i < |pairs| ==> pairs[i].1 <= total
    decreases |pairs|
  {
    if |pairs| == 0 then 0.0
    else
      var init := pairs[..|pairs| - 1];
      assert forall i :: 0 <= i < |init| ==> init[i] == pairs[i];
      SumAmounts(init) + pairs[|pairs| - 1].1
  }

  /** Appending a pair adds its amount to the total. */
  lemma {:induction false} SumAmountsAppend(pairs: seq<(string, real)>, category: string, amount: real)
    ensures SumAmounts(pairs + [(category, amount)]) == SumAmounts(pairs) + amount
  {
    assert (pairs + [(category, amount)])[..|pairs|] == pairs;
  }

  datatype Totals = Totals(income: real, expenses: real, savings: real)

  /** The placeholder income rate: income is expenses times 1.3. */
  const IncomeRate: real := 1.3

  /** `calculateTotals()` */
  function CalculateTotals(summary: Option<Summary>): (t: Totals)
    ensures summary.None? || !summary.value.hasMonthlySpending ==> t == Totals(0.0, 0.0, 0.0)
    ensures summary.Some? && summary.value.hasMonthlySpending ==>
      && t.expenses == (if Categories(summary).Some? then SumAmounts(Categories(summary).value) else 0.0)
      && t.income == t.expenses * IncomeRate
      && t.savings == t.income - t.expenses
  {
    if summary.None? || !summary.value.hasMonthlySpending then Totals(0.0, 0.0, 0.0)
    else
      var expenses := if summary.value.topSpendingCategories.Some? then SumAmounts(summary.value.topSpendingCategories.value) else 0.0;
      var income := expenses * IncomeRate;
      Totals(income, expenses, income - expenses)
  }

  /** The savings are three tenths of the expenses, and income is expenses plus savings. */
  lemma SavingsAreThreeTenths(summary: Option<Summary>)
    ensures CalculateTotals(summary).savings == CalculateTotals(summary).expenses * 0.3
    ensures CalculateTotals(summary).income == CalculateTotals(summary).expenses + CalculateTotals(summary).savings
  {
  }

  /** When no amount is negative, neither are the expenses and savings, and income covers the expenses. */
  lemma SavingsNonNegative(summary: Option<Summary>)
    requires Categories(summary).Some? ==> forall i :: 0 <= i < |Categories(summary).value| ==> Categories(summary).value[i].1 >= 0.0
    ensures CalculateTotals(summary).savings >= 0.0
    ensures CalculateTotals(summary).income >= CalculateTotals(summary).expenses >= 0.0
  {
  }

  /** The doughnut is drawn only for a present, non-empty category list; otherwise the placeholder text is shown. */
  function ChartShown(summary: Option<Summary>): (shown: bool)
    ensures shown <==> Categories(summary).Some? && |Categories(summary).value| > 0
    ensures shown ==> |PrepareChartData(summary).labels| > 0
  {
    Categories(summary).Some? && |Categories(summary).value| > 0
  }

  /** An empty but present category list still yields a chart object, with no labels: it is just not drawn. */
  lemma EmptyCategoriesNotDrawn()
    ensures var summary := Some(Summary(Some([]), true));
      !ChartShown(summary) && PrepareChartData(summary) == ChartData([], [Dataset([])])
  {
  }

  /** What the widget renders: it has no empty state of its own. */
  function Screen(loading: bool, error: string): (v: View)
    ensures v.Loading? <==> loading
    ensures v == Failed(error) <==> !loading && error != ""
    ensures v.Populated? <==> !loading && error == ""
    ensures !v.Empty?
  {
    ViewOf(loading, error, false)
  }
}
