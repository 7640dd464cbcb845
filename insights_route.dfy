/** `POST /api/ai/insights` (app/api/ai/insights/route.ts): the array and
    size checks on the posted spending data, then the validated call to the
    insight generator. */
module InsightsRoute {
  import opened Json
  import opened Optional
  import opened Seqs
  import opened RouteChecks

  const MaxExpensesCount: nat := 500
  const MaxBudgetsCount: nat := 50

  const ExpensesNotArray: string := "Expenses must be an array"
  const TooManyExpenses: string := "Too many expenses. Maximum allowed: 500"
  const BudgetsNotArray: string := "Budgets must be an array"
  const TooManyBudgets: string := "Too many budgets. Maximum allowed: 50"
  const InsightsFailed: string := "Failed to generate insights"

  /** The arguments handed to `generateFinancialInsights`. */
  datatype InsightsCall = InsightsCall(expenses: seq<Value>, budgets: seq<Value>, totalSpent: Number)

  function Post(userId: Option<string>, body: Option<Value>): Outcome<InsightsCall>
  {
    if !Authorized(userId) then Unauthorized
    else if !BodyReadable(body) then ServerError(InsightsFailed)
    else
      var expenses := Get(body.value, "expenses");
      if !expenses.Arr? then BadRequest(ExpensesNotArray)
      else if |expenses.items| > MaxExpensesCount then BadRequest(TooManyExpenses)
      else
        var budgets := Get(body.value, "budgets");
        if !budgets.Arr? then BadRequest(BudgetsNotArray)
        else if |budgets.items| > MaxBudgetsCount then BadRequest(TooManyBudgets)
        else Accepted(InsightsCall(Filter(expenses.items, ValidExpense),
                                   Filter(budgets.items, ValidBudget),
                                   ClampTotal(Get(body.value, "totalSpent"))))
  }

  /** The outcome is decided by the first failing check, in the handler's
      order, and a request passing them all is accepted. */
  lemma Classification(userId: Option<string>, body: Option<Value>)
    ensures var r := Post(userId, body);
            && (r == Unauthorized <==> !Authorized(userId))
            && (Authorized(userId) && !BodyReadable(body) ==> r == ServerError(InsightsFailed))
            && (Authorized(userId) && BodyReadable(body) ==>
                  var es, bs := Get(body.value, "expenses"), Get(body.value, "budgets");
                  && (!es.Arr? ==> r == BadRequest(ExpensesNotArray))
                  && (es.Arr? && |es.items| > MaxExpensesCount ==> r == BadRequest(TooManyExpenses))
                  && (es.Arr? && |es.items| <= MaxExpensesCount && !bs.Arr? ==> r == BadRequest(BudgetsNotArray))
                  && (es.Arr? && |es.items| <= MaxExpensesCount && bs.Arr? && |bs.items| > MaxBudgetsCount ==>
                        r == BadRequest(TooManyBudgets))
                  && (es.Arr? && |es.items| <= MaxExpensesCount && bs.Arr? && |bs.items| <= MaxBudgetsCount <==>
                        r.Accepted?))
  {
  }

  /** An accepted call carries only valid rows, in their posted order and
      within the caps, and a total that is neither negative nor NaN. */
  lemma AcceptedSpec(userId: Option<string>, body: Option<Value>)
    requires Post(userId, body).Accepted?
    ensures var call := Post(userId, body).call;
            && call.expenses == Filter(Get(body.value, "expenses").items, ValidExpense)
            && |call.expenses| <= MaxExpensesCount
            && (forall i :: 0 <= i < |call.expenses| ==> ValidExpense(call.expenses[i]))
            && call.budgets == Filter(Get(body.value, "budgets").items, ValidBudget)
            && |call.budgets| <= MaxBudgetsCount
            && (forall i :: 0 <= i < |call.budgets| ==> ValidBudget(call.budgets[i]))
            && NonNegative(call.totalSpent)
  {
  }
}
