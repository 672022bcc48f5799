/**
 * The documents the budget routes read and write: the budgets stored inside a
 * user document, the body of a budget-creation request, and the expense
 * transactions the analysis reads. Field names follow the stored documents.
 */
module BudgetDocs {
  import opened Wrappers

  /** A field value of a stored document: a string, a number, or Python's None. */
  datatype Value = Str(s: string) | Num(x: real) | Null

  /** One budget in a user's `budgets` array: a dictionary of fields. */
  type Doc = map<string, Value>

  /** A user document, reduced to its `budgets` field; None when the field is absent. */
  datatype UserDoc = UserDoc(budgets: Option<seq<Doc>>)

  /** The budgets of a user document, the empty list when the field is absent. */
  function BudgetsOf(u: UserDoc): seq<Doc> {
    u.budgets.GetOr([])
  }

  /** The body of a create request: the fields the route reads of the `Budget` model. */
  datatype Budget = Budget(userEmail: string, category: string, amount: real)

  /** `budget.dict()`: the document that is pushed onto the user's list. */
  function ToDoc(b: Budget): (d: Doc)
    ensures d.Keys == {"user_email", "category", "amount"}
    ensures HasCategory(d, b.category)
    ensures d["user_email"] == Str(b.userEmail) && d["amount"] == Num(b.amount)
  {
    map["user_email" := Str(b.userEmail), "category" := Str(b.category), "amount" := Num(b.amount)]
  }

  /** The stored budget matches the query `{"category": c}`. */
  predicate HasCategory(d: Doc, c: string) {
    "category" in d && d["category"] == Str(c)
  }

  /** Some budget of the list matches `{"category": c}` (the query `"budgets.category": c`). */
  predicate AnyHasCategory(s: seq<Doc>, c: string) {
    exists i :: 0 <= i < |s| && HasCategory(s[i], c)
  }

  /** Python `datetime` fields; the types carry `datetime`'s own range checks. */
  type Year = y: int | 1 <= y <= 9999 witness 1
  type Month = m: int | 1 <= m <= 12 witness 1
  type Day = d: int | 1 <= d <= 31 witness 1

  datatype DateTime = DateTime(year: Year, month: Month, day: Day)

  /** An expense transaction as returned by the query: its date, and optional category and amount. */
  datatype Tx = Tx(date: DateTime, category: Option<string>, amount: Option<real>)

  /** `tx.get("category", "Other")` */
  function CategoryOf(tx: Tx): string {
    tx.category.GetOr("Other")
  }

  /** `tx.get("amount", 0)` */
  function AmountOf(tx: Tx): real {
    tx.amount.GetOr(0.0)
  }
}
