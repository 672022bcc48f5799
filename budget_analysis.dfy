/**
 * The budget analysis route: the start of the three-month window, the
 * `"YYYY-MM"` month key, the grouping of expense transactions by month and
 * category, and the comparison of every budget with every month's spending.
 */
module BudgetAnalysis {
  import opened Wrappers
  import opened BudgetDocs
  import Decimal

  // ---------------------------------------------------------------------------
  // The window start

  /**
   * Day 1 of the month three months before `now`. In January to March the year
   * goes back by one; for a date in January to March of year 1 Python's
   * `datetime` refuses year 0, which is the None result.
   */
  function ThreeMonthsAgo(now: DateTime): (r: Option<DateTime>)
    ensures r.Some? <==> now.year > 1 || now.month > 3
    ensures r.Some? ==> r.value.year * 12 + r.value.month == now.year * 12 + now.month - 3
    ensures r.Some? ==> r.value.day == 1
  {
    if now.month > 3 then Some(DateTime(now.year, now.month - 3, 1))
    else if now.year > 1 then Some(DateTime(now.year - 1, now.month + 9, 1))
    else None
  }

  /** The window start is determined by its month count alone, so no other date satisfies the contract. */
  lemma ThreeMonthsAgoUnique(now: DateTime, d: DateTime)
    requires d.year * 12 + d.month == now.year * 12 + now.month - 3 && d.day == 1
    ensures ThreeMonthsAgo(now) == Some(d)
  {
  }

  // ---------------------------------------------------------------------------
  // The month key

  /** `f"{year}-{month:02d}"` */
  function MonthKey(d: DateTime): (k: string)
    ensures |k| >= 4 && k[|k| - 3] == '-'
  {
    Decimal.Show(d.year) + "-" + Decimal.Pad2(d.month)
  }

  /** Reads a month key back into its year and month. */
  function ParseMonthKey(k: string): Option<(int, int)> {
    if |k| < 4 || k[|k| - 3] != '-' then None
    else
      var y, m := k[..|k| - 3], k[|k| - 2..];
      if Decimal.AllDigits(y) && Decimal.AllDigits(m) then Some((Decimal.Parse(y), Decimal.Parse(m)))
      else None
  }

  lemma ParseMonthKeyRoundTrip(d: DateTime)
    ensures ParseMonthKey(MonthKey(d)) == Some((d.year as int, d.month as int))
  {
    var y, m := Decimal.Show(d.year), Decimal.Pad2(d.month);
    var k := MonthKey(d);
    assert k[..|k| - 3] == y;
    assert k[|k| - 2..] == m;
    Decimal.ParseShow(d.year);
  }

  /** Two transactions share a month key exactly when they fall in the same calendar month. */
  lemma MonthKeyInjective(a: DateTime, b: DateTime)
    ensures MonthKey(a) == MonthKey(b) <==> a.year == b.year && a.month == b.month
  {
    ParseMonthKeyRoundTrip(a);
    ParseMonthKeyRoundTrip(b);
  }

  // ---------------------------------------------------------------------------
  // Grouping by month and category

  predicate Matches(tx: Tx, month: string, category: string) {
    MonthKey(tx.date) == month && CategoryOf(tx) == category
  }

  /** The total amount of the transactions in `month` with `category`. */
  function Spent(txs: seq<Tx>, month: string, category: string): real
    decreases |txs|
  {
    if txs == [] then 0.0
    else
      var last := txs[|txs| - 1];
      Spent(txs[..|txs| - 1], month, category) + (if Matches(last, month, category) then AmountOf(last) else 0.0)
  }

  /** The month keys of the transactions in order of first appearance, each once. */
  function MonthsOf(txs: seq<Tx>): seq<string>
    decreases |txs|
  {
    if txs == [] then []
    else
      var earlier := MonthsOf(txs[..|txs| - 1]);
      var k := MonthKey(txs[|txs| - 1].date);
      if k in earlier then earlier else earlier + [k]
  }

  lemma {:induction false} MonthsOfExactly(txs: seq<Tx>, month: string)
    ensures month in MonthsOf(txs) <==> exists i :: 0 <= i < |txs| && MonthKey(txs[i].date) == month
    decreases |txs|
  {
    if txs != [] {
      var init := txs[..|txs| - 1];
      MonthsOfExactly(init, month);
      if month in MonthsOf(txs) && month !in MonthsOf(init) {
        assert MonthKey(txs[|txs| - 1].date) == month;
      }
      if month in MonthsOf(init) {
        var i :| 0 <= i < |init| && MonthKey(init[i].date) == month;
        assert txs[i] == init[i];
      }
      if i :| 0 <= i < |txs| && MonthKey(txs[i].date) == month {
        if i < |init| {
          assert init[i] == txs[i];
        }
      }
    }
  }

  lemma {:induction false} MonthsOfDistinct(txs: seq<Tx>)
    ensures forall i, j :: 0 <= i < j < |MonthsOf(txs)| ==> MonthsOf(txs)[i] != MonthsOf(txs)[j]
    decreases |txs|
  {
    if txs != [] {
      MonthsOfDistinct(txs[..|txs| - 1]);
    }
  }

  /** Splitting the transactions splits every total. */
  lemma {:induction false} SpentAppend(a: seq<Tx>, b: seq<Tx>, month: string, category: string)
    ensures Spent(a + b, month, category) == Spent(a, month, category) + Spent(b, month, category)
    decreases |b|
  {
    if b == [] {
      assert a + b == a;
    } else {
      assert (a + b)[..|a + b| - 1] == a + b[..|b| - 1];
      SpentAppend(a, b[..|b| - 1], month, category);
    }
  }

  /** A month or category no transaction has contributes nothing. */
  lemma {:induction false} SpentWithoutMatch(txs: seq<Tx>, month: string, category: string)
    requires forall i :: 0 <= i < |txs| ==> !Matches(txs[i], month, category)
    ensures Spent(txs, month, category) == 0.0
    decreases |txs|
  {
    if txs != [] {
      SpentWithoutMatch(txs[..|txs| - 1], month, category);
    }
  }

  /** With non-negative amounts every total is non-negative. */
  lemma {:induction false} SpentNonNegative(txs: seq<Tx>, month: string, category: string)
    requires forall i :: 0 <= i < |txs| ==> AmountOf(txs[i]) >= 0.0
    ensures Spent(txs, month, category) >= 0.0
    decreases |txs|
  {
    if txs != [] {
      SpentNonNegative(txs[..|txs| - 1], month, category);
    }
  }

  /** `monthly_spending[month].get(category, 0)`, absent months also reading as 0. */
  function Lookup(spending: map<string, map<string, real>>, month: string, category: string): real {
    if month in spending && category in spending[month] then spending[month][category] else 0.0
  }

  /** One step of the grouping loop: create the month and the category when missing, then add. */
  function Added(m: map<string, map<string, real>>, key: string, category: string, amount: real): map<string, map<string, real>> {
    var m1 := if key in m then m else m[key := map[]];
    var m2 := if category in m1[key] then m1 else m1[key := m1[key][category := 0.0]];
    m2[key := m2[key][category := m2[key][category] + amount]]
  }

  /** A step adds the month to the keys and the amount to its one lookup, and changes no other lookup. */
  lemma LookupAdded(m: map<string, map<string, real>>, key: string, category: string, amount: real)
    ensures forall month :: month in Added(m, key, category, amount) <==> month in m || month == key
    ensures forall month, c ::
      Lookup(Added(m, key, category, amount), month, c) == Lookup(m, month, c) + (if month == key && c == category then amount else 0.0)
  {
  }

  /**
   * The loop that fills `monthly_spending`. The dictionary is an insertion-ordered
   * pair: `months` is its key order, `spending` its contents.
   */
  method GroupSpending(txs: seq<Tx>) returns (months: seq<string>, spending: map<string, map<string, real>>)
    ensures months == MonthsOf(txs)
    ensures forall month :: month in spending <==> month in months
    ensures forall month, category :: Lookup(spending, month, category) == Spent(txs, month, category)
  {
    months, spending := [], map[];
    var i := 0;
    while i < |txs|
      invariant 0 <= i <= |txs|
      invariant months == MonthsOf(txs[..i])
      invariant forall month :: month in spending <==> month in months
      invariant forall month, category :: Lookup(spending, month, category) == Spent(txs[..i], month, category)
    {
      var tx := txs[i];
      var key := MonthKey(tx.date);
      var category := CategoryOf(tx);
      ghost var before := spending;
      if key !in spending {
        spending := spending[key := map[]];
        months := months + [key];
      }
      if category !in spending[key] {
        spending := spending[key := spending[key][category := 0.0]];
      }
      spending := spending[key := spending[key][category := spending[key][category] + AmountOf(tx)]];
      assert spending == Added(before, key, category, AmountOf(tx));
      LookupAdded(before, key, category, AmountOf(tx));
      assert txs[..i + 1][..i] == txs[..i];
      assert txs[..i + 1][i] == tx;
      i := i + 1;
    }
    assert txs[..i] == txs;
  }

  // ---------------------------------------------------------------------------
  // Comparing budgets with the months' spending

  datatype MonthRow = MonthRow(month: string, spent: real, difference: real, percentUsed: real)

  /** One entry of `budget_analysis`; `category` is None when the budget has no category field. */
  datatype CategoryAnalysis = CategoryAnalysis(category: Option<Value>, budgetAmount: Value, monthlySpending: seq<MonthRow>)

  /** The error Python raises when a non-numeric budget amount meets arithmetic. */
  const TypeError := "TypeError"

  /** `budget.get("category")` */
  function CategoryKey(b: Doc): Option<Value> {
    if "category" in b then Some(b["category"]) else None
  }

  /** `budget.get("amount", 0)` */
  function BudgetAmount(b: Doc): Value {
    if "amount" in b then b["amount"] else Num(0.0)
  }

  /** `percent_used` is `spent` as a percentage of a positive budget, and 0 for any other budget. */
  predicate PercentOf(row: MonthRow, budgetAmount: real) {
    && (budgetAmount > 0.0 ==> row.percentUsed * budgetAmount == row.spent * 100.0)
    && (budgetAmount <= 0.0 ==> row.percentUsed == 0.0)
  }

  /** One row of the comparison, with `percent_used` guarded against a non-positive budget. */
  function Row(month: string, spent: real, budgetAmount: real): (row: MonthRow)
    ensures row.month == month && row.spent == spent
    ensures row.spent + row.difference == budgetAmount
    ensures PercentOf(row, budgetAmount)
  {
    MonthRow(month, spent, budgetAmount - spent, if budgetAmount > 0.0 then spent / budgetAmount * 100.0 else 0.0)
  }

  /** Within budget and with non-negative spending, the percentage lies in 0..100. */
  lemma PercentUsedBounds(month: string, spent: real, budgetAmount: real)
    requires 0.0 <= spent <= budgetAmount && budgetAmount > 0.0
    ensures 0.0 <= Row(month, spent, budgetAmount).percentUsed <= 100.0
    ensures Row(month, spent, budgetAmount).difference >= 0.0
  {
    var p := Row(month, spent, budgetAmount).percentUsed;
    assert p * budgetAmount == spent * 100.0;
  }

  /** What a budget's category has spent in `month`: only a string category can match a transaction. */
  function SpentOn(txs: seq<Tx>, month: string, category: Option<Value>): real {
    if category.Some? && category.value.Str? then Spent(txs, month, category.value.s) else 0.0
  }

  /** The entry for one budget, one row per month; no rows when the amount is not a number. */
  function Entry(b: Doc, months: seq<string>, txs: seq<Tx>): (e: CategoryAnalysis)
    ensures e.category == CategoryKey(b) && e.budgetAmount == BudgetAmount(b)
    ensures |e.monthlySpending| == if BudgetAmount(b).Num? then |months| else 0
    ensures forall j :: 0 <= j < |e.monthlySpending| ==>
      && e.monthlySpending[j].month == months[j]
      && e.monthlySpending[j].spent == SpentOn(txs, months[j], CategoryKey(b))
      && e.monthlySpending[j].spent + e.monthlySpending[j].difference == BudgetAmount(b).x
      && e.monthlySpending[j] == Row(months[j], e.monthlySpending[j].spent, BudgetAmount(b).x)
  {
    var amount := BudgetAmount(b);
    var rows :=
      if amount.Num? then seq(|months|, j requires 0 <= j < |months| => Row(months[j], SpentOn(txs, months[j], CategoryKey(b)), amount.x))
      else [];
    CategoryAnalysis(CategoryKey(b), amount, rows)
  }

  /** Some budget's amount would meet arithmetic without being a number. */
  predicate AmountFailure(budgets: seq<Doc>, months: seq<string>) {
    months != [] && exists k :: 0 <= k < |budgets| && !BudgetAmount(budgets[k]).Num?
  }

  /** The analysis as a value: one entry per budget, in budget order. */
  function Analysis(budgets: seq<Doc>, txs: seq<Tx>): (r: Result<seq<CategoryAnalysis>, string>)
    ensures r.Failure? <==> AmountFailure(budgets, MonthsOf(txs))
    ensures r.Failure? ==> r.error == TypeError
    ensures r.Success? ==> |r.value| == |budgets|
    ensures r.Success? ==> forall k :: 0 <= k < |budgets| ==> r.value[k] == Entry(budgets[k], MonthsOf(txs), txs)
  {
    var months := MonthsOf(txs);
    if AmountFailure(budgets, months) then Failure(TypeError)
    else Success(seq(|budgets|, k requires 0 <= k < |budgets| => Entry(budgets[k], months, txs)))
  }

  /** Row `j` of a numeric budget's entry: its month, its category's spending, and the derived fields. */
  lemma EntryRowMeaning(b: Doc, months: seq<string>, txs: seq<Tx>, j: nat, c: string)
    requires BudgetAmount(b).Num? && j < |months| && CategoryKey(b) == Some(Str(c))
    ensures var row := Entry(b, months, txs).monthlySpending[j]; var amount := BudgetAmount(b).x;
      && row.month == months[j]
      && row.spent == Spent(txs, months[j], c)
      && row.spent + row.difference == amount
      && PercentOf(row, amount)
  {
    var row := Entry(b, months, txs).monthlySpending[j];
    assert row == Row(months[j], row.spent, BudgetAmount(b).x);
  }

  /**
   * What the analysis promises: one entry per budget in order, one row per month
   * present in the transactions, `spent` the sum of that category's expenses in
   * that month, `difference` and `percent_used` derived from it.
   */
  lemma AnalysisMeaning(budgets: seq<Doc>, txs: seq<Tx>, k: nat, j: nat, c: string)
    requires Analysis(budgets, txs).Success? && k < |budgets| && j < |MonthsOf(txs)|
    requires CategoryKey(budgets[k]) == Some(Str(c))
    ensures var e := Analysis(budgets, txs).value[k];
      && |Analysis(budgets, txs).value| == |budgets|
      && e.budgetAmount.Num?
      && |e.monthlySpending| == |MonthsOf(txs)|
      && e.monthlySpending[j].month == MonthsOf(txs)[j]
      && e.monthlySpending[j].spent == Spent(txs, MonthsOf(txs)[j], c)
      && e.monthlySpending[j].spent + e.monthlySpending[j].difference == e.budgetAmount.x
      && PercentOf(e.monthlySpending[j], e.budgetAmount.x)
  {
    var months := MonthsOf(txs);
    assert Analysis(budgets, txs).value[k] == Entry(budgets[k], months, txs);
    EntryRowMeaning(budgets[k], months, txs, j, c);
  }

  /** A budget whose category no transaction carries shows zero spending in every month. */
  lemma UnusedCategorySpendsNothing(budgets: seq<Doc>, txs: seq<Tx>, k: nat, j: nat, c: string)
    requires Analysis(budgets, txs).Success? && k < |budgets| && j < |MonthsOf(txs)|
    requires CategoryKey(budgets[k]) == Some(Str(c))
    requires forall i :: 0 <= i < |txs| ==> CategoryOf(txs[i]) != c
    ensures Analysis(budgets, txs).value[k].monthlySpending[j].spent == 0.0
  {
    SpentWithoutMatch(txs, MonthsOf(txs)[j], c);
  }

  /** `categories.get(category, 0)` where `category` is the budget's raw category field. */
  function LookupCategory(spending: map<string, map<string, real>>, month: string, category: Option<Value>): real {
    if category.Some? && category.value.Str? then Lookup(spending, month, category.value.s) else 0.0
  }

  /** Rows built one month at a time make up the budget's entry. */
  lemma EntryFromRows(b: Doc, months: seq<string>, txs: seq<Tx>, rows: seq<MonthRow>)
    requires BudgetAmount(b).Num? || months == []
    requires |rows| == |months|
    requires forall q :: 0 <= q < |rows| ==> rows[q] == Row(months[q], SpentOn(txs, months[q], CategoryKey(b)), BudgetAmount(b).x)
    ensures CategoryAnalysis(CategoryKey(b), BudgetAmount(b), rows) == Entry(b, months, txs)
  {
    assert rows == Entry(b, months, txs).monthlySpending;
  }

  /** Entries built one budget at a time make up the successful analysis. */
  lemma AnalysisFromEntries(budgets: seq<Doc>, txs: seq<Tx>, analysis: seq<CategoryAnalysis>)
    requires !AmountFailure(budgets, MonthsOf(txs))
    requires |analysis| == |budgets|
    requires forall q :: 0 <= q < |budgets| ==> analysis[q] == Entry(budgets[q], MonthsOf(txs), txs)
    ensures Analysis(budgets, txs) == Success(analysis)
  {
    assert Analysis(budgets, txs).value == analysis;
  }

  /**
   * The inner loop of the route: one row per month for one budget. A TypeError
   * as soon as a month meets an amount that is not a number.
   */
  method MonthlyRows(b: Doc, months: seq<string>, spending: map<string, map<string, real>>, txs: seq<Tx>)
    returns (r: Result<seq<MonthRow>, string>)
    requires forall month, c :: Lookup(spending, month, c) == Spent(txs, month, c)
    ensures r.Failure? <==> months != [] && !BudgetAmount(b).Num?
    ensures r.Failure? ==> r.error == TypeError
    ensures r.Success? ==> CategoryAnalysis(CategoryKey(b), BudgetAmount(b), r.value) == Entry(b, months, txs)
  {
    var category := CategoryKey(b);
    var amount := BudgetAmount(b);
    var rows: seq<MonthRow> := [];
    var j := 0;
    while j < |months|
      invariant 0 <= j <= |months|
      invariant |rows| == j
      invariant j > 0 ==> amount.Num?
      invariant forall q :: 0 <= q < j ==> rows[q] == Row(months[q], SpentOn(txs, months[q], category), amount.x)
    {
      if !amount.Num? {
        return Failure(TypeError);
      }
      var spent := LookupCategory(spending, months[j], category);
      assert spent == SpentOn(txs, months[j], category);
      rows := rows + [Row(months[j], spent, amount.x)];
      j := j + 1;
    }
    EntryFromRows(b, months, txs, rows);
    return Success(rows);
  }

  /** The two nested loops of the route, after the grouping loop. */
  method AnalyseBudgets(budgets: seq<Doc>, txs: seq<Tx>) returns (r: Result<seq<CategoryAnalysis>, string>)
    ensures r == Analysis(budgets, txs)
  {
    var months, spending := GroupSpending(txs);
    var analysis: seq<CategoryAnalysis> := [];
    var k := 0;
    while k < |budgets|
      invariant 0 <= k <= |budgets|
      invariant |analysis| == k
      invariant forall q :: 0 <= q < k ==> analysis[q] == Entry(budgets[q], months, txs)
      invariant months != [] ==> forall q :: 0 <= q < k ==> BudgetAmount(budgets[q]).Num?
    {
      var rows := MonthlyRows(budgets[k], months, spending, txs);
      if rows.Failure? {
        assert AmountFailure(budgets, months);
        return Failure(rows.error);
      }
      analysis := analysis + [CategoryAnalysis(CategoryKey(budgets[k]), BudgetAmount(budgets[k]), rows.value)];
      k := k + 1;
    }
    assert !AmountFailure(budgets, months);
    AnalysisFromEntries(budgets, txs, analysis);
    return Success(analysis);
  }
}
