/**
 * The budget routes: the bearer-header check every route depends on, and the
 * create, list, update, delete and analysis handlers over the users
 * collection. The collection is held in memory as a map from e-mail address
 * to user document; `$push`, positional `$set` and `$pull` are modelled by
 * their effect on the user's budget list.
 */
module BudgetRoutes {
  import opened Wrappers
  import opened BudgetDocs
  import BudgetAnalysis

  /** A route's reply: its success message, or the status and detail of the HTTPException it raises. */
  datatype Reply = Ok(message: string) | HttpError(status: int, detail: string)

  // ---------------------------------------------------------------------------
  // The authorization header

  /** Python's `s.split(" ")`: the fields between single spaces, empty ones included. */
  function SplitSpace(s: string): (fields: seq<string>)
    ensures |fields| >= 1
    ensures forall i :: 0 <= i < |fields| ==> ' ' !in fields[i]
    decreases |s|
  {
    if s == [] then [""]
    else if s[0] == ' ' then [""] + SplitSpace(s[1..])
    else
      var rest := SplitSpace(s[1..]);
      [[s[0]] + rest[0]] + rest[1..]
  }

  /** `" ".join(fields)` */
  function JoinSpace(fields: seq<string>): string
    requires |fields| >= 1
    decreases |fields|
  {
    if |fields| == 1 then fields[0] else fields[0] + " " + JoinSpace(fields[1..])
  }

  /** Splitting loses nothing: joining the fields with single spaces gives the header back. */
  lemma {:induction false} JoinSplit(s: string)
    ensures JoinSpace(SplitSpace(s)) == s
    decreases |s|
  {
    if s != [] {
      JoinSplit(s[1..]);
      var rest := SplitSpace(s[1..]);
      if s[0] == ' ' {
        assert ([""] + rest)[1..] == rest;
        assert s == [' '] + s[1..];
      } else {
        var fields := [[s[0]] + rest[0]] + rest[1..];
        if |rest| == 1 {
          assert s == [s[0]] + s[1..];
        } else {
          assert fields[1..] == rest[1..];
          assert JoinSpace(rest) == rest[0] + " " + JoinSpace(rest[1..]);
          assert s == [s[0]] + s[1..];
        }
      }
    }
  }

  /** A word followed by a space is the first field, and the remainder is split on its own. */
  lemma {:induction false} SplitAfterWord(w: string, rest: string)
    requires ' ' !in w
    ensures SplitSpace(w + " " + rest) == [w] + SplitSpace(rest)
    decreases |w|
  {
    if w == [] {
      assert w + " " + rest == [' '] + rest;
    } else {
      assert (w + " " + rest)[1..] == w[1..] + " " + rest;
      SplitAfterWord(w[1..], rest);
      assert [w[0]] + w[1..] == w;
    }
  }

  /** The first field of a split: the longest prefix free of spaces. */
  lemma {:induction false} FirstFieldShape(s: string)
    ensures SplitSpace(s)[0] <= s
    ensures |SplitSpace(s)[0]| == |s| || s[|SplitSpace(s)[0]|] == ' '
    decreases |s|
  {
    if s != [] && s[0] != ' ' {
      FirstFieldShape(s[1..]);
    }
  }

  const BearerPrefix := "Bearer "

  /**
   * `get_current_user` up to the token check: 401 unless the header is present
   * and starts with "Bearer "; otherwise the token is the second space-separated
   * field, which is the text after the prefix up to the next space.
   */
  function BearerToken(authorization: Option<string>): (r: Result<string, Reply>)
    ensures r.Failure? <==> authorization.None? || !(BearerPrefix <= authorization.value)
    ensures r.Failure? ==> r.error == HttpError(401, "Invalid authorization header")
    ensures r.Success? ==>
      var rest := authorization.value[|BearerPrefix|..];
      && r.value <= rest
      && ' ' !in r.value
      && (|r.value| == |rest| || rest[|r.value|] == ' ')
  {
    if authorization.None? || authorization.value == "" || !(BearerPrefix <= authorization.value) then
      Failure(HttpError(401, "Invalid authorization header"))
    else
      var header := authorization.value;
      var rest := header[|BearerPrefix|..];
      assert header == "Bearer" + " " + rest;
      SplitAfterWord("Bearer", rest);
      FirstFieldShape(rest);
      Success(SplitSpace(header)[1])
  }

  // ---------------------------------------------------------------------------
  // List semantics of the update operators

  /** The index of the first budget with category c (positional `$`), |s| when there is none. */
  function FirstWithCategory(s: seq<Doc>, c: string): (i: nat)
    ensures i <= |s|
    ensures forall j :: 0 <= j < i ==> !HasCategory(s[j], c)
    ensures i < |s| ==> HasCategory(s[i], c)
    ensures i == |s| <==> !AnyHasCategory(s, c)
    decreases |s|
  {
    if s == [] then 0
    else if HasCategory(s[0], c) then 0
    else
      var i := 1 + FirstWithCategory(s[1..], c);
      assert forall j :: 1 <= j < |s| ==> s[j] == s[1..][j - 1];
      i
  }

  /** The update with its `user_email` key deleted. */
  function WithoutUserEmail(update: Doc): (u: Doc)
    ensures "user_email" !in u
    ensures forall k :: k in update && k != "user_email" ==> k in u && u[k] == update[k]
    ensures u.Keys <= update.Keys
  {
    update - {"user_email"}
  }

  /** Positional `$set`: every field of the update set on the first budget with category c. */
  function SetOnFirst(s: seq<Doc>, c: string, update: Doc): (r: seq<Doc>)
    requires AnyHasCategory(s, c)
    ensures |r| == |s|
  {
    var i := FirstWithCategory(s, c);
    s[i := s[i] + update]
  }

  /**
   * What an update does: only the first budget with the category changes; it
   * takes every field of the update and keeps its other fields.
   */
  lemma SetOnFirstEffect(s: seq<Doc>, c: string, update: Doc, j: nat)
    requires AnyHasCategory(s, c) && j < |s|
    ensures j != FirstWithCategory(s, c) ==> SetOnFirst(s, c, update)[j] == s[j]
    ensures j == FirstWithCategory(s, c) ==>
      && SetOnFirst(s, c, update)[j].Keys == s[j].Keys + update.Keys
      && (forall k :: k in update ==> SetOnFirst(s, c, update)[j][k] == update[k])
      && (forall k :: k in s[j] && k !in update ==> SetOnFirst(s, c, update)[j][k] == s[j][k])
  {
  }

  /** An update never changes the owner: after `user_email` is stripped, every budget's `user_email` is as before. */
  lemma UpdateKeepsOwner(s: seq<Doc>, c: string, update: Doc, j: nat)
    requires AnyHasCategory(s, c) && j < |s|
    ensures var r := SetOnFirst(s, c, WithoutUserEmail(update));
      && ("user_email" in r[j] <==> "user_email" in s[j])
      && ("user_email" in s[j] ==> r[j]["user_email"] == s[j]["user_email"])
  {
  }

  /** `$pull: {"category": c}`: the budgets without category c, in their order. */
  function Pulled(s: seq<Doc>, c: string): (r: seq<Doc>)
    ensures |r| <= |s|
    ensures forall i :: 0 <= i < |r| ==> !HasCategory(r[i], c)
    ensures forall i :: 0 <= i < |r| ==> r[i] in s
    decreases |s|
  {
    if s == [] then []
    else
      var init := Pulled(s[..|s| - 1], c);
      var last := s[|s| - 1];
      if HasCategory(last, c) then init else init + [last]
  }

  /** The number of budgets with category c. */
  function CountWithCategory(s: seq<Doc>, c: string): nat
    decreases |s|
  {
    if s == [] then 0
    else CountWithCategory(s[..|s| - 1], c) + (if HasCategory(s[|s| - 1], c) then 1 else 0)
  }

  /** Pulling distributes over concatenation: the kept budgets stay in their relative order. */
  lemma {:induction false} PulledAppend(a: seq<Doc>, b: seq<Doc>, c: string)
    ensures Pulled(a + b, c) == Pulled(a, c) + Pulled(b, c)
    decreases |b|
  {
    if b == [] {
      assert a + b == a;
    } else {
      assert (a + b)[..|a + b| - 1] == a + b[..|b| - 1];
      PulledAppend(a, b[..|b| - 1], c);
    }
  }

  /** Every budget without category c survives the pull. */
  lemma {:induction false} PulledKeepsOthers(s: seq<Doc>, c: string, d: Doc)
    requires d in s && !HasCategory(d, c)
    ensures d in Pulled(s, c)
    decreases |s|
  {
    if d != s[|s| - 1] {
      var i :| 0 <= i < |s| && s[i] == d;
      assert s[..|s| - 1][i] == d;
      PulledKeepsOthers(s[..|s| - 1], c, d);
    }
  }

  /** The pull removes exactly the budgets with category c. */
  lemma {:induction false} PulledLength(s: seq<Doc>, c: string)
    ensures |Pulled(s, c)| + CountWithCategory(s, c) == |s|
    ensures CountWithCategory(s, c) == 0 <==> !AnyHasCategory(s, c)
    decreases |s|
  {
    if s != [] {
      var init := s[..|s| - 1];
      PulledLength(init, c);
      if AnyHasCategory(init, c) {
        var i :| 0 <= i < |init| && HasCategory(init[i], c);
        assert s[i] == init[i];
      }
      if AnyHasCategory(s, c) && !HasCategory(s[|s| - 1], c) {
        var i :| 0 <= i < |s| && HasCategory(s[i], c);
        assert init[i] == s[i];
      }
    }
  }

  /** The pull leaves the list as it was exactly when no budget has category c (the 404 case). */
  lemma PulledUnchanged(s: seq<Doc>, c: string)
    ensures Pulled(s, c) == s <==> !AnyHasCategory(s, c)
  {
    PulledLength(s, c);
    if !AnyHasCategory(s, c) {
      PulledNoMatch(s, c);
    }
  }

  lemma {:induction false} PulledNoMatch(s: seq<Doc>, c: string)
    requires !AnyHasCategory(s, c)
    ensures Pulled(s, c) == s
    decreases |s|
  {
    if s != [] {
      var init := s[..|s| - 1];
      assert !AnyHasCategory(init, c) by {
        forall i | 0 <= i < |init| ensures !HasCategory(init[i], c) {
          assert init[i] == s[i];
        }
      }
      PulledNoMatch(init, c);
      assert init + [s[|s| - 1]] == s;
    }
  }

  /** The user has a budget with category c. */
  predicate HasBudget(users: map<string, UserDoc>, email: string, c: string) {
    email in users && AnyHasCategory(BudgetsOf(users[email]), c)
  }

  // ---------------------------------------------------------------------------
  // The users collection and the handlers

  class UsersCollection {
    var users: map<string, UserDoc>

    constructor (initial: map<string, UserDoc>)
      ensures users == initial
    {
      users := initial;
    }

    /** `create_budget`: 403 for another user's budget, 400 for a taken category, 404 for an unknown user. */
    method CreateBudget(callerEmail: string, budget: Budget) returns (reply: Reply)
      modifies this
      ensures budget.userEmail != callerEmail ==>
        reply == HttpError(403, "Not authorized to create budget for another user")
      ensures budget.userEmail == callerEmail && HasBudget(old(users), callerEmail, budget.category) ==>
        reply == HttpError(400, "Budget for category '" + budget.category + "' already exists")
      ensures budget.userEmail == callerEmail && !HasBudget(old(users), callerEmail, budget.category) && callerEmail !in old(users) ==>
        reply == HttpError(404, "User not found")
      ensures reply.Ok? <==> budget.userEmail == callerEmail && callerEmail in old(users) && !HasBudget(old(users), callerEmail, budget.category)
      ensures reply.Ok? ==>
        && reply.message == "Budget for " + budget.category + " created successfully"
        && users == old(users)[callerEmail := UserDoc(Some(BudgetsOf(old(users)[callerEmail]) + [ToDoc(budget)]))]
      ensures !reply.Ok? ==> users == old(users)
    {
      if budget.userEmail != callerEmail {
        return HttpError(403, "Not authorized to create budget for another user");
      }
      if HasBudget(users, callerEmail, budget.category) {
        return HttpError(400, "Budget for category '" + budget.category + "' already exists");
      }
      if callerEmail !in users {
        return HttpError(404, "User not found");
      }
      users := users[callerEmail := UserDoc(Some(BudgetsOf(users[callerEmail]) + [ToDoc(budget)]))];
      return Ok("Budget for " + budget.category + " created successfully");
    }

    /**
     * `get_budgets`: the empty list for an unknown user or a user without a
     * `budgets` field; otherwise every budget merged with its status. The status
     * calculation is not part of this model and is a parameter.
     */
    method GetBudgets(callerEmail: string, txs: seq<Tx>, status: (Doc, seq<Tx>) -> Doc) returns (r: seq<Doc>)
      ensures callerEmail !in users || users[callerEmail].budgets.None? ==> r == []
      ensures callerEmail in users && users[callerEmail].budgets.Some? ==>
        var budgets := users[callerEmail].budgets.value;
        && |r| == |budgets|
        && forall k :: 0 <= k < |budgets| ==>
             && r[k].Keys == budgets[k].Keys + status(budgets[k], txs).Keys
             && (forall f :: f in status(budgets[k], txs) ==> r[k][f] == status(budgets[k], txs)[f])
             && (forall f :: f in budgets[k] && f !in status(budgets[k], txs) ==> r[k][f] == budgets[k][f])
    {
      if callerEmail !in users || users[callerEmail].budgets.None? {
        return [];
      }
      var budgets := users[callerEmail].budgets.value;
      r := [];
      var k := 0;
      while k < |budgets|
        invariant 0 <= k <= |budgets| && |r| == k
        invariant forall q :: 0 <= q < k ==> r[q] == budgets[q] + status(budgets[q], txs)
      {
        r := r + [budgets[k] + status(budgets[k], txs)];
        k := k + 1;
      }
    }

    /** `update_budget`: `user_email` is stripped, then the fields are set on the first budget with the category. */
    method UpdateBudget(callerEmail: string, category: string, update: Doc) returns (reply: Reply)
      modifies this
      ensures reply.Ok? <==> HasBudget(old(users), callerEmail, category)
      ensures reply.Ok? ==>
        && reply.message == "Budget for " + category + " updated successfully"
        && users == old(users)[callerEmail := UserDoc(Some(SetOnFirst(BudgetsOf(old(users)[callerEmail]), category, WithoutUserEmail(update))))]
      ensures !reply.Ok? ==>
        reply == HttpError(404, "Budget for category '" + category + "' not found") && users == old(users)
    {
      var fields := WithoutUserEmail(update);
      if !HasBudget(users, callerEmail, category) {
        return HttpError(404, "Budget for category '" + category + "' not found");
      }
      users := users[callerEmail := UserDoc(Some(SetOnFirst(BudgetsOf(users[callerEmail]), category, fields)))];
      return Ok("Budget for " + category + " updated successfully");
    }

    /** `delete_budget`: every budget with the category is pulled; 404 when nothing was removed. */
    method DeleteBudget(callerEmail: string, category: string) returns (reply: Reply)
      modifies this
      ensures reply.Ok? <==> HasBudget(old(users), callerEmail, category)
      ensures reply.Ok? ==>
        && reply.message == "Budget for " + category + " deleted successfully"
        && users == old(users)[callerEmail := UserDoc(Some(Pulled(BudgetsOf(old(users)[callerEmail]), category)))]
      ensures !reply.Ok? ==>
        reply == HttpError(404, "Budget for category '" + category + "' not found") && users == old(users)
    {
      if callerEmail !in users || users[callerEmail].budgets.None? {
        return HttpError(404, "Budget for category '" + category + "' not found");
      }
      var budgets := users[callerEmail].budgets.value;
      var kept := Pulled(budgets, category);
      PulledUnchanged(budgets, category);
      if kept == budgets {
        return HttpError(404, "Budget for category '" + category + "' not found");
      }
      users := users[callerEmail := UserDoc(Some(kept))];
      return Ok("Budget for " + category + " deleted successfully");
    }

    /**
     * `get_budget_analysis` over the expense transactions the route fetched: 404
     * for an unknown user or one without a `budgets` field (an empty list is
     * analysed), a 500 for the TypeError of a non-numeric amount, otherwise the
     * analysis.
     */
    method GetBudgetAnalysis(callerEmail: string, txs: seq<Tx>) returns (r: Result<seq<BudgetAnalysis.CategoryAnalysis>, Reply>)
      ensures callerEmail !in users || users[callerEmail].budgets.None? ==>
        r == Failure(HttpError(404, "No budgets found"))
      ensures callerEmail in users && users[callerEmail].budgets.Some? ==>
        var analysis := BudgetAnalysis.Analysis(users[callerEmail].budgets.value, txs);
        && (analysis.Success? ==> r == Success(analysis.value))
        && (analysis.Failure? ==> r == Failure(HttpError(500, "Internal Server Error")))
    {
      if callerEmail !in users || users[callerEmail].budgets.None? {
        return Failure(HttpError(404, "No budgets found"));
      }
      var analysis := BudgetAnalysis.AnalyseBudgets(users[callerEmail].budgets.value, txs);
      if analysis.Failure? {
        return Failure(HttpError(500, "Internal Server Error"));
      }
      return Success(analysis.value);
    }
  }
}
