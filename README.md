# Wonder-Finance core, modelled in Dafny

Wonder-Finance is a personal-finance dashboard: a FastAPI back end that keeps
each user's budgets inside their user document and analyses their expense
transactions, and a Next.js front end whose widgets format and summarise what
the back end returns. This project models the deterministic core of both:

- the budget routes (`backend/routes/budget.py`). It covers the bearer-header
  check, and create, list, update and delete over a user's budget list. The
  list operations are `$push`, positional `$set` and `$pull`. It also covers
  the three-month analysis: the window start, the `"YYYY-MM"` month key, the
  grouping loop and the per-budget, per-month comparison loops;
- `validate_transaction` and `format_currency` (`backend/utils.py`). The
  currency is taken in integer paise;
- the formatting helpers (`frontend/utils/formatters.js`). It models their
  guards, fallbacks, the option set they choose, the relative-time bucketing
  and `truncateText`;
- the read-state machine of the notification bell
  (`frontend/components/NotificationCenter.js`);
- the logic of the budget, portfolio and financial-summary widgets. This is
  the thresholds, caps, sums, signs, chart zipping and totals.

Each module follows one source file:

| module | file |
|---|---|
| `BudgetDocs`, `BudgetAnalysis`, `BudgetRoutes` | backend/routes/budget.py |
| `BackendUtils` | backend/utils.py |
| `Formatters` | frontend/utils/formatters.js |
| `NotificationCenter` | frontend/components/NotificationCenter.js |
| `BudgetOverview` | frontend/components/BudgetOverview.js |
| `PortfolioSummary` | frontend/components/PortfolioSummary.js |
| `FinancialSummary` | frontend/components/FinancialSummary.js |
| `JsValues`, `RenderState`, `Decimal`, `Wrappers` | shared helpers: JavaScript number coercions, the loading/error/empty/populated precedence, decimal digits and Option/Result |

Some state is updated step by step in the source:

- the users collection, held as a `map` from e-mail to user document;
- the `monthly_spending` dictionary, filled by a loop;
- the analysis list, built by nested loops;
- the notification component's state.

These are modelled as classes and methods with loop invariants. Each method is
proved against a specification function. Everything else is functions and
lemmas. Intl, `toLocaleString`, date parsing, the clock and
`calculate_budget_status` are not part of this model. Each enters as a
parameter, a function value or a millisecond reading.

## Model

| member | source | states |
|---|---|---|
| BudgetRoutes.BearerToken | backend/routes/budget.py:10-14 | 401 "Invalid authorization header" exactly when the header is absent or lacks the "Bearer " prefix. Otherwise the token is the text after the prefix up to the next space or the end, and it contains no space. |
| BudgetRoutes.SplitSpace | backend/routes/budget.py:14 | `split(" ")` yields at least one field and no field contains a space |
| BudgetRoutes.JoinSplit | backend/routes/budget.py:14 | joining the fields of `split(" ")` with single spaces restores the header |
| BudgetRoutes.SplitAfterWord | backend/routes/budget.py:14 | a space-free word followed by a space is the first field, and the rest splits independently (this makes "Bearer" field 0 and the token field 1) |
| BudgetRoutes.FirstFieldShape | backend/routes/budget.py:14 | the first field is a prefix of the text that ends at a space or at the end |
| BudgetDocs.ToDoc | backend/routes/budget.py:34 | `budget.dict()` has exactly the keys user_email, category and amount, with the request's values |
| BudgetRoutes.UsersCollection.CreateBudget | backend/routes/budget.py:18-43 | 403 when the body's user_email is not the caller; then 400 when the caller has a budget with that category; then 404 for an unknown user. Success exactly otherwise: it appends exactly `budget.dict()` to the end of the caller's list and leaves other users unchanged. Every error leaves the collection unchanged. |
| BudgetRoutes.UsersCollection.GetBudgets | backend/routes/budget.py:45-78 | the empty list for an unknown user or a missing `budgets` field. Otherwise one entry per budget, in order, each entry being the budget's fields overridden by its status fields. |
| BudgetRoutes.FirstWithCategory | backend/routes/budget.py:91-96 | the positional `$` is the first budget with the category, and it is \|s\| exactly when none has it |
| BudgetRoutes.WithoutUserEmail | backend/routes/budget.py:88-89 | the update loses its `user_email` key and keeps every other key and value |
| BudgetRoutes.SetOnFirst | backend/routes/budget.py:91-97 | positional `$set` keeps the list's length |
| BudgetRoutes.SetOnFirstEffect | backend/routes/budget.py:91-97 | only the first budget with the category changes: it gains every field of the update and keeps its other fields |
| BudgetRoutes.UpdateKeepsOwner | backend/routes/budget.py:88-97 | after stripping, an update never adds, removes or changes any budget's `user_email` |
| BudgetRoutes.UsersCollection.UpdateBudget | backend/routes/budget.py:80-102 | success exactly when the caller has a budget with the category. The new state is the stripped update set on the first such budget. Otherwise 404 "Budget for category '…' not found" with the collection unchanged. |
| BudgetRoutes.Pulled | backend/routes/budget.py:107-110 | `$pull` leaves no budget with the category and only budgets of the original list |
| BudgetRoutes.PulledAppend | backend/routes/budget.py:107-110 | the pull distributes over concatenation, so the kept budgets keep their relative order |
| BudgetRoutes.PulledKeepsOthers | backend/routes/budget.py:107-110 | every budget without the category survives |
| BudgetRoutes.PulledLength | backend/routes/budget.py:107-110 | the pull removes exactly as many budgets as carry the category |
| BudgetRoutes.PulledUnchanged | backend/routes/budget.py:107-113 | the list is unchanged (modified_count 0) exactly when no budget carries the category |
| BudgetRoutes.PulledNoMatch | backend/routes/budget.py:107-113 | with no matching budget the pull is the identity |
| BudgetRoutes.UsersCollection.DeleteBudget | backend/routes/budget.py:104-115 | success exactly when the caller has a budget with the category. The new list is the pull. Otherwise 404 with the collection unchanged. |
| BudgetRoutes.UsersCollection.GetBudgetAnalysis | backend/routes/budget.py:117-179 | 404 "No budgets found" for an unknown user or a missing `budgets` field. A 500 when the analysis raises. Otherwise the analysis of the stored list, including an empty one. |
| BudgetAnalysis.ThreeMonthsAgo | backend/routes/budget.py:129-130 | a date exists exactly unless the month would fall before year 1. Its year*12+month is three less than now's, and it is day 1. The month stays in 1..12 by type. |
| BudgetAnalysis.ThreeMonthsAgoUnique | backend/routes/budget.py:129-130 | any day-1 date three months back is the one computed |
| BudgetAnalysis.MonthKey | backend/routes/budget.py:144 | the key has at least four characters, with the dash third from the end |
| BudgetAnalysis.ParseMonthKeyRoundTrip | backend/routes/budget.py:144 | the key reads back as the date's year and month (the month is zero-padded to two digits) |
| BudgetAnalysis.MonthKeyInjective | backend/routes/budget.py:144 | two dates share a key exactly when they share year and month |
| BudgetAnalysis.MonthsOfExactly | backend/routes/budget.py:141-148 | the month keys of the dictionary are exactly the keys of the transactions' dates |
| BudgetAnalysis.MonthsOfDistinct | backend/routes/budget.py:141-148 | each month key appears once |
| BudgetAnalysis.SpentAppend | backend/routes/budget.py:142-153 | the per-month, per-category sum splits over concatenated transaction lists |
| BudgetAnalysis.SpentWithoutMatch | backend/routes/budget.py:142-153 | a month/category pair no transaction has sums to 0 |
| BudgetAnalysis.SpentNonNegative | backend/routes/budget.py:142-153 | with non-negative amounts every sum is non-negative |
| BudgetAnalysis.GroupSpending | backend/routes/budget.py:141-153 | the loop's key order is the transactions' months in first-seen order. Its keys are exactly those months. Each `monthly_spending[m].get(c, 0)` is the sum of the amounts of transactions keyed m with category c (missing category "Other", missing amount 0). |
| BudgetAnalysis.Row | backend/routes/budget.py:169-175 | spent + difference = budget amount. percent_used × amount = spent × 100 when the amount is positive, and 0 otherwise. |
| BudgetAnalysis.PercentUsedBounds | backend/routes/budget.py:173-174 | within budget, percent_used lies in 0..100 and the difference is non-negative |
| BudgetAnalysis.Entry | backend/routes/budget.py:156-177 | an entry carries the budget's raw category and its amount (0 when absent). It has one row per month in order when the amount is a number, each with that category's spending that month, spent + difference = amount, and `percent_used` as `Row` states it. It has no rows otherwise. |
| BudgetAnalysis.Analysis | backend/routes/budget.py:156-177 | a TypeError exactly when some budget's amount is not a number and there is at least one month. Otherwise one entry per budget, in budget order. |
| BudgetAnalysis.EntryRowMeaning | backend/routes/budget.py:166-176 | row j of a numeric budget's entry is month j, `spent` is the category's sum in that month, spent + difference = amount, and `percent_used` × amount = spent × 100 for a positive amount (0 otherwise) |
| BudgetAnalysis.AnalysisMeaning | backend/routes/budget.py:156-177 | one entry per budget in order, one row per month in the dictionary's order, `spent` the category's sum in that month, `difference` consistent with it, and `percent_used` × amount = spent × 100 for a positive amount and 0 otherwise |
| BudgetAnalysis.UnusedCategorySpendsNothing | backend/routes/budget.py:169 | a budget whose category no transaction carries shows 0 spent in every month |
| BudgetAnalysis.MonthlyRows | backend/routes/budget.py:159-176 | the inner loop raises TypeError exactly when there is a month and the amount is not a number. Otherwise its rows make up the budget's entry. |
| BudgetAnalysis.AnalyseBudgets | backend/routes/budget.py:141-179 | the nested loops compute the analysis function. That includes the TypeError when a non-numeric amount meets a month. |
| BackendUtils.FirstMissing | backend/utils.py:34-36 | the index of the first required field absent from the data; every field before it is present |
| BackendUtils.ValidateTransaction | backend/utils.py:31-37 | None exactly when amount, category and date are all keys. Otherwise "Missing field: X" with X the first absent key in that order. |
| BackendUtils.ValidationSeesOnlyRequiredKeys | backend/utils.py:33-37 | the verdict depends only on which required keys are present, not on values or extra keys |
| BackendUtils.FirstMissingSeesOnlyKeys | backend/utils.py:34-35 | the first missing field depends only on key presence |
| BackendUtils.FormatCurrency | backend/utils.py:11-13 | the text starts with "₹" and has a "-" next exactly when the amount is negative. Then come rupees made of digits and commas, starting with a digit. It ends with "." and exactly two digits. |
| BackendUtils.FormatCurrencyRoundTrip | backend/utils.py:11-13 | the text reads back to the same amount in paise, so no two amounts share a text |
| BackendUtils.CurrencyPartsOf | backend/utils.py:13 | the ₹, sign, grouped integer part and two fraction digits can be read back apart |
| Decimal.ParseShow | backend/routes/budget.py:144 | the decimal rendering of a year reads back to the year |
| Decimal.Pad2 | backend/routes/budget.py:144 | `:02d` of a month gives two digits that read back to the month, and equals the plain rendering from 10 up |
| Decimal.UngroupGroup | backend/utils.py:13 | removing the thousands separators of a grouped digit string restores it |
| Decimal.GroupShape | backend/utils.py:13 | a grouped number starts and ends with a digit and contains only digits and commas |
| Formatters.CurrencyRequest | frontend/utils/formatters.js:7-18 | no Intl call for null, undefined or NaN. Otherwise the currency defaults to INR, and the locale is en-IN exactly when the currency is INR, else en-US. |
| Formatters.FormatCurrency | frontend/utils/formatters.js:7-21 | '-' for null, undefined or NaN; otherwise the Intl result of that request |
| Formatters.FormatNumber | frontend/utils/formatters.js:53-60 | '-' for null, undefined or NaN; otherwise the locale rendering with the given decimals |
| Formatters.FormatPercentage | frontend/utils/formatters.js:68-75 | '-' exactly for null, undefined or NaN. Otherwise the rendering followed by '%', so the text ends with '%'. |
| Formatters.StyleFor | frontend/utils/formatters.js:36-44 | a known key selects its own option set; any other key selects medium |
| Formatters.StyleForName | frontend/utils/formatters.js:36-44 | every option set is selected by its own key |
| Formatters.ResolveDate | frontend/utils/formatters.js:30-34 | '-' exactly for a falsy date and 'Invalid date' exactly for an unparseable string or invalid Date; otherwise the time value |
| Formatters.FormatDate | frontend/utils/formatters.js:29-45 | '-' for a falsy date, 'Invalid date' for an unparseable one, otherwise the locale rendering with the selected option set |
| Formatters.Floor | frontend/utils/formatters.js:91-94 | `Math.floor(a / b)` is the q with q·b ≤ a < q·b + b |
| Formatters.FloorUnique | frontend/utils/formatters.js:91-94 | the floor is the only integer in that bracket |
| Formatters.FloorFloor | frontend/utils/formatters.js:91-94 | two floors in a row equal one floor by the product of the divisors |
| Formatters.NestedFloors | frontend/utils/formatters.js:91-94 | diffInDays = floor(diffMs / 86400000), and it is negative exactly when diffMs is |
| Formatters.DayCountRange | frontend/utils/formatters.js:91-94 | the floored day count is below -30 beyond 30 days back. It lies in -30..-1 for a past moment within 30 days, and it is ≥ 0 for a moment not in the past. |
| Formatters.RelativeTime | frontend/utils/formatters.js:89-106 | as written: '-' exactly for a falsy date, 'Invalid date' exactly for an invalid one, and 'just now' exactly for a moment not in the past. The absolute date only beyond 30 days back. Otherwise a day count in -30..-1 that is the floor of the difference in days. |
| Formatters.RelativeTimeBranches | frontend/utils/formatters.js:91-106 | as written: a non-past date gives 'just now'. A date up to 30 days back gives a day count in -30..-1, and one further back gives the absolute date. The hour and minute branches are never taken. |
| Formatters.OneSecondAgoIsADayAgo | frontend/utils/formatters.js:91-99 | as written: a time one second ago is reported as one day ago |
| Formatters.Trunc | frontend/utils/formatters.js:91-94 | rounding toward zero is the floor of the magnitude, carrying the sign |
| Formatters.RelativeTimeIntendedUnits | frontend/utils/formatters.js:91-106 | corrected: under a minute is 'just now', then whole minutes under an hour, whole hours under a day, whole days up to 30, and the absolute date from 31 days back |
| Formatters.TwoHoursAgoIntended | frontend/utils/formatters.js:77-82 | the documented example: two hours ago reads as 2 hours with the corrected bucketing, and as a day as written |
| Formatters.RelativeTimeString | frontend/utils/formatters.js:82-107 | as written: '-' and 'Invalid date' as in formatDate, and 'just now' for a moment not in the past. Up to 30 days back, the relative phrase for the floored (negative) day count. Further back, the medium absolute date. |
| Formatters.RelativeTimeStringIntended | frontend/utils/formatters.js:82-107 | corrected: 'just now' under a minute back. Then the phrase for minus the whole minutes, hours or days in each range. From 31 days back, the medium absolute date. |
| Formatters.SliceEnd | frontend/utils/formatters.js:119 | `slice(0, end)` clamps to the length and counts a negative end from the back |
| Formatters.TruncateText | frontend/utils/formatters.js:115-120 | '' for falsy text. The text itself when it is no longer than the limit. Otherwise, for a non-negative limit, the first maxLength characters then "...", maxLength+3 long. |
| Formatters.TruncateIdempotent | frontend/utils/formatters.js:115-120 | for a non-negative limit, truncating a truncated text changes nothing |
| Formatters.TruncateNegativeLimit | frontend/utils/formatters.js:117-119 | with a negative limit the text is cut from the back and a second truncation shortens it again |
| JsValues.OrZero | frontend/components/BudgetOverview.js:148 | `v \|\| 0` is the number itself, and 0 for null, undefined or NaN |
| JsValues.Abs | frontend/components/PortfolioSummary.js:185 | `Math.abs` is non-negative on numbers and null and NaN on undefined and NaN; it keeps the magnitude |
| RenderState.ViewOf | frontend/components/NotificationCenter.js:163-178 | exactly one of loading, error (with its message), empty and items is shown, in that precedence |
| NotificationCenter.CountUnread | frontend/components/NotificationCenter.js:56 | the unread count is at most the list length and is 0 exactly when every notification is read |
| NotificationCenter.MarkedRead | frontend/components/NotificationCenter.js:69-75 | same length and order. Notifications with the id become read, and every other one is unchanged. |
| NotificationCenter.AllRead | frontend/components/NotificationCenter.js:80-82 | same length and order, every notification read and otherwise unchanged |
| NotificationCenter.MarkedReadCount | frontend/components/NotificationCenter.js:68-76 | marking an id read lowers the real unread count by exactly the number of unread notifications with that id |
| NotificationCenter.UniqueIdsCountAtMostOne | frontend/components/NotificationCenter.js:68-76 | with distinct ids at most one notification is affected, and exactly one when an unread one has the id |
| NotificationCenter.AllReadSettles | frontend/components/NotificationCenter.js:79-84 | after mark-all nothing is unread, and marking all again changes nothing |
| NotificationCenter.Decremented | frontend/components/NotificationCenter.js:76 | `Math.max(0, prev - 1)` is never negative and is one less when positive |
| NotificationCenter.MarkAsReadKeepsCounterBelow | frontend/components/NotificationCenter.js:68-76 | with distinct ids, a counter at or below the real count stays at or below it |
| NotificationCenter.BadgeHiddenWhileUnread | frontend/components/NotificationCenter.js:76 | as written: clicking an already read notification drops the counter to 0 and hides the badge while one notification is still unread |
| NotificationCenter.DecrementedBy | frontend/components/NotificationCenter.js:76 | corrected decrement: never negative, and subtracts exactly what was marked when the counter covers it |
| NotificationCenter.DecrementedByKeepsExact | frontend/components/NotificationCenter.js:68-76 | corrected: an exact counter stays exact after marking any id |
| NotificationCenter.Badge | frontend/components/NotificationCenter.js:136-140 | the badge shows the counter exactly when it is positive |
| NotificationCenter.MarkAllButtonShown | frontend/components/NotificationCenter.js:144-159 | the button shows exactly when the panel is open and the badge would show |
| NotificationCenter.IconFor | frontend/components/NotificationCenter.js:86-120 | alert, success and market select their own icon; every other type, 'info' included, gets the default |
| NotificationCenter.SampleNotifications | frontend/components/NotificationCenter.js:20-53 | four past notifications with distinct ids, two of them unread |
| NotificationCenter.Center.constructor | frontend/components/NotificationCenter.js:5-9 | empty list, not loading, no error, counter 0, closed |
| NotificationCenter.Center.StartLoading | frontend/components/NotificationCenter.js:14 | loading is set, nothing else changes, so a non-negative and an exact counter stay so |
| NotificationCenter.Center.LoadSucceeded | frontend/components/NotificationCenter.js:55-61 | the list is stored, the counter equals its unread count, and loading ends |
| NotificationCenter.Center.LoadFailed | frontend/components/NotificationCenter.js:59-61 | the error message is stored and loading ends, and nothing else changes, so a non-negative and an exact counter stay so |
| NotificationCenter.Center.MarkAsRead | frontend/components/NotificationCenter.js:68-77 | as written: the list is the marked list and the counter is decremented whatever was marked. The counter stays non-negative, and with distinct ids stays at or below the real count. |
| NotificationCenter.Center.MarkAsReadExact | frontend/components/NotificationCenter.js:68-77 | corrected: the counter drops by the number marked, so an exact counter stays exact |
| NotificationCenter.Center.MarkAllAsRead | frontend/components/NotificationCenter.js:79-84 | every notification read and the counter 0, which is exact |
| NotificationCenter.Center.ToggleOpen | frontend/components/NotificationCenter.js:128 | the panel flag flips, nothing else changes, so a non-negative and an exact counter stay so |
| NotificationCenter.Center.Close | frontend/components/NotificationCenter.js:205 | the panel is closed, nothing else changes, so a non-negative and an exact counter stay so |
| NotificationCenter.Center.PanelContent | frontend/components/NotificationCenter.js:163-178 | the panel shows the view the render precedence selects for the current flags and list |
| BudgetOverview.StatusColor | frontend/components/BudgetOverview.js:49-53 | red exactly from 100, yellow exactly from 80 below 100, green exactly below 80 |
| BudgetOverview.BarWidth | frontend/components/BudgetOverview.js:57 | the width never exceeds 100 or the percentage, equals the percentage up to 100, and is 100 beyond |
| BudgetOverview.ProgressBar | frontend/components/BudgetOverview.js:56-68 | the bar's width is the capped percentage and its colour comes from the uncapped one |
| BudgetOverview.OverspentBarIsFullAndRed | frontend/components/BudgetOverview.js:57-58 | 150% gives a full red bar |
| BudgetOverview.CappedColourAgrees | frontend/components/BudgetOverview.js:57-58 | capping the width never changes the colour |
| BudgetOverview.PercentUsed | frontend/components/BudgetOverview.js:148 | a `percentage_used` that is missing, null, undefined, NaN or 0 reads as 0 |
| BudgetOverview.MissingPercentIsGreen | frontend/components/BudgetOverview.js:148 | such a budget shows an empty green bar |
| BudgetOverview.LabelColor | frontend/components/BudgetOverview.js:163-167 | the label is red, yellow and green on the same thresholds |
| BudgetOverview.ColoursAgree | frontend/components/BudgetOverview.js:49-53 | the bar and the label name the same hue for every percentage |
| BudgetOverview.Screen | frontend/components/BudgetOverview.js:71-134 | loading, then error, then the empty state for no budgets, then the list |
| PortfolioSummary.FieldSumAppend | frontend/components/PortfolioSummary.js:42-43 | the reduction splits over concatenation |
| PortfolioSummary.FieldSumSingle | frontend/components/PortfolioSummary.js:42-43 | each asset contributes its field, and 0 when the field is missing or falsy |
| PortfolioSummary.FieldSum | frontend/components/PortfolioSummary.js:42-43 | with no negative field the total is non-negative. When every field is missing, falsy or 0, the total is 0. |
| PortfolioSummary.PortfolioList | frontend/components/PortfolioSummary.js:38 | a missing `portfolio` field is the empty list |
| PortfolioSummary.TotalsAfterFetch | frontend/components/PortfolioSummary.js:9-10 | for a missing or empty portfolio the totals stay at their initial 0 |
| PortfolioSummary.TotalsAreSums | frontend/components/PortfolioSummary.js:41-46 | the totals are always the sums over the list the widget shows, the guard making no difference |
| PortfolioSummary.GainPrefix | frontend/components/PortfolioSummary.js:159 | '+' exactly when the total gain is at least 0, so zero gets '+'; '' otherwise |
| PortfolioSummary.GainColor | frontend/components/PortfolioSummary.js:158 | green exactly when the prefix is '+', red otherwise |
| PortfolioSummary.Arrow | frontend/components/PortfolioSummary.js:184-185 | ▲ exactly when `profit_loss >= 0` holds under JavaScript's comparison (null counts as 0), ▼ otherwise |
| PortfolioSummary.ShownPercent | frontend/components/PortfolioSummary.js:185 | the percentage is formatted from its magnitude (null as 0), '-' when undefined or NaN |
| PortfolioSummary.ShownPercentIgnoresSign | frontend/components/PortfolioSummary.js:185 | a loss and a gain of the same size show the same text |
| PortfolioSummary.Badge | frontend/components/PortfolioSummary.js:174 | 'S' exactly for asset_type 'stock', 'C' otherwise |
| PortfolioSummary.UnitLabel | frontend/components/PortfolioSummary.js:179 | 'shares' exactly when the badge is 'S', 'coins' otherwise |
| PortfolioSummary.Screen | frontend/components/PortfolioSummary.js:59-137 | loading, then error, then the empty state for no assets, then the list |
| FinancialSummary.PrepareChartData | frontend/components/FinancialSummary.js:54-85 | empty labels and datasets without a summary or categories. Otherwise one dataset, with labels and data of the input's length and order and pair i split into labels[i] and data[i]. |
| FinancialSummary.Zip | frontend/components/FinancialSummary.js:59-60 | re-pairs labels with values index by index |
| FinancialSummary.ChartDataRoundTrip | frontend/components/FinancialSummary.js:59-60 | zipping the labels with the data restores the category pairs |
| FinancialSummary.SumAmounts | frontend/components/FinancialSummary.js:125 | no pairs sum to 0. With no negative amount the expense total is non-negative and at least every single amount. |
| FinancialSummary.SumAmountsAppend | frontend/components/FinancialSummary.js:125 | each pair adds its amount to the total |
| FinancialSummary.CalculateTotals | frontend/components/FinancialSummary.js:113-136 | all zeros without `monthly_spending`, even with categories. Otherwise expenses are the sum of the amounts (0 without categories), income is 1.3 × expenses, and savings are income − expenses. |
| FinancialSummary.SavingsAreThreeTenths | frontend/components/FinancialSummary.js:129-134 | savings are 0.3 × expenses and income is expenses + savings |
| FinancialSummary.SavingsNonNegative | frontend/components/FinancialSummary.js:124-134 | with non-negative amounts, savings ≥ 0 and income ≥ expenses ≥ 0 |
| FinancialSummary.ChartShown | frontend/components/FinancialSummary.js:212 | the doughnut is drawn exactly for a present, non-empty category list, and then it has labels |
| FinancialSummary.EmptyCategoriesNotDrawn | frontend/components/FinancialSummary.js:55-60 | an empty but present list still yields one empty dataset, but no chart is drawn |
| FinancialSummary.Screen | frontend/components/FinancialSummary.js:141-175 | loading, then error, then the summary; this widget has no empty state |

## Left out

- HTTP, FastAPI and MongoDB plumbing are outside the model:
  - `Depends`, `HTTPException` are represented as replies;
  - the `find`/`to_list(length=1000)` cursor and its date-range and `transaction_type` filter. Each route takes the already fetched expense transactions as a parameter;
  - concurrent requests between `find_one` and `update_one`. Each handler is one atomic step.
- `verify_token` is not part of this model. It is imported but not defined in backend/utils.py. `BudgetRoutes.BearerToken` ends at the extracted token, and every handler takes the caller's e-mail as a parameter.
- BudgetRoutes.UsersCollection.GetBudgets: `calculate_budget_status` is not part of this model. It is a function parameter, so the route's merge is stated and the status fields are not.
- The `datetime.now()` clock is a parameter (`now`, `nowMs`).
- BudgetRoutes.UsersCollection.UpdateBudget: some `$set` corner cases are not modelled:
  - an update that is empty after stripping `user_email`. Before MongoDB 5.0 an empty `$set` is rejected. From 5.0 on it is a no-op that still matches, which is what `SetOnFirst` with an empty update gives. The model follows 5.0 and later;
  - update keys containing dots or `$`, which MongoDB treats as paths.
- `$pull` and `"budgets.category"` match a category by equality with a string value. Array-valued categories and query operators are not modelled.
- BudgetAnalysis.GroupSpending: some transaction shapes are not modelled:
  - a transaction `date` that is not a datetime (Python raises AttributeError);
  - a `category` present but None;
  - an `amount` present but None or non-numeric (TypeError in `+=`).
  A transaction's category and amount are either a value or absent.
- BudgetAnalysis.Analysis uses reals, not Python floats, so rounding is not modelled. The TypeError path covers non-numeric budget amounts; a string or None amount raises as soon as a month row is computed.
- Python `,.2f` formatting of floats is not modelled. `BackendUtils.FormatCurrency` takes an integer number of paise, and rounding floats to paise is not modelled.
- Intl, `toLocaleString`, `toLocaleDateString`, `Intl.RelativeTimeFormat` and `new Date(string)` are parameters. Only the guards, the fallbacks and the arguments of each call are modelled.
- Formatters.FormatCurrency: an explicit `null` currency (which makes Intl throw) is not distinguished from the default; `Option` None stands for the defaulted argument.
- Formatters.FormatDate: a format key inherited from `Object.prototype` (such as "toString") is not modelled; every key outside the five option sets selects medium.
- Formatters.ResolveDate: dates passed as numbers or other objects are not modelled, only strings, Date objects and null/undefined.
- JsValues: Infinity and -0 are not distinguished from other numbers; numbers are reals.
- JsValues: a string in a numeric position is not modelled. A JavaScript string is truthy, so `v || 0` would keep it; the model's values are numbers, null, undefined or NaN.
- Formatters.TruncateText: lengths count code points (Dafny characters), not JavaScript's UTF-16 code units. A text with characters outside the Basic Multilingual Plane is cut at a different place than `slice` would cut it.
- BudgetDocs.ToDoc: the `Budget` request model is not part of this model; backend/models.py does not define it. Its fields are taken to be user_email, category and amount, as the routes read them.
- `toFixed(0)` of the budget percentage label is not modelled (floating-point output).
- React scheduling: effects, the simulated 800 ms delay, batched state updates and stale closures are not modelled. Each handler is one atomic update of the component's state.
- Chart.js colours, options and tooltips, and all JSX, SVG and CSS beyond the class names chosen by the modelled conditions, are not modelled.
- The other source files are not part of this model. They are network wrappers or rendering only: market, news, ai, users and transactions routes, the database and models modules, stockService.js, dashboard.js, MarketData.js, Navbar.js, index.js, AISuggestion.js and TransactionList.js.

## Findings

| source | as written | input that shows it | evidently intended | confidence | as-written member | corrected member |
|---|---|---|---|---|---|---|
| frontend/utils/formatters.js:91-106 | the nested divisions use `Math.floor`, which rounds a negative difference down, so any past moment yields a negative day count and the hour and minute branches are never taken | a date 1000 ms before now gives `rtf.format(-1, 'day')` ("yesterday"); two hours ago also gives a day | the documented "2 hours ago": round toward zero so minutes, hours and days are each reached | not executed | Formatters.OneSecondAgoIsADayAgo | Formatters.RelativeTimeStringIntended |
| frontend/components/NotificationCenter.js:76 | `markAsRead` decrements the unread counter on every click, whether or not the notification was unread | notifications [id 1 read, id 2 unread] with counter 1; clicking id 1 sets the counter to 0 and hides the badge while id 2 is unread | the counter keeps equal to the number of unread notifications | not executed | NotificationCenter.BadgeHiddenWhileUnread | NotificationCenter.DecrementedByKeepsExact |
