/** The financial context the insights panel and the chat widget send to the
    AI routes (components/AIInsights.tsx, components/AIChat.tsx): the month's
    expenses, each monthly budget with what was spent on its category, and
    the total spent. Both components build it with the same loop, a `map`
    whose callback also updates a spending dictionary and a running total. */
module SpendingContext {
  import opened Seqs
  import Tally
  import opened Utilization
  import opened Optional

  /** An expense as both components select it and send it on. */
  datatype ExpenseData = ExpenseData(category: string, amount: real, description: Option<string>, date: string)

  /** A budget row; only its category and amount are read. */
  datatype BudgetRow = BudgetRow(category: string, amount: real)

  datatype BudgetData = BudgetData(category: string, amount: real, spent: real, percentage: real)

  datatype Context = Context(expenses: seq<ExpenseData>, budgets: seq<BudgetData>, totalSpent: real)

  /** What is sent without a user or after a failure. */
  const EmptyContext: Context := Context([], [], 0.0)

  function Entries(rows: seq<ExpenseData>): (es: seq<(string, real)>)
    ensures |es| == |rows|
    ensures forall i :: 0 <= i < |rows| ==> es[i] == (rows[i].category, rows[i].amount)
  {
    if rows == [] then [] else Entries(Init(rows)) + [(Last(rows).category, Last(rows).amount)]
  }

  function BudgetFor(b: BudgetRow, spending: map<string, real>): (d: BudgetData)
    ensures d.category == b.category && d.amount == b.amount
    ensures d.spent == Tally.Lookup(spending, b.category)
    ensures d.percentage == PercentOf(d.spent, d.amount)
  {
    var spent := Tally.Lookup(spending, b.category);
    BudgetData(b.category, b.amount, spent, PercentOf(spent, b.amount))
  }

  function BudgetsFor(budgets: seq<BudgetRow>, spending: map<string, real>): (ds: seq<BudgetData>)
    ensures |ds| == |budgets|
    ensures forall i :: 0 <= i < |budgets| ==> ds[i] == BudgetFor(budgets[i], spending)
  {
    if budgets == [] then [] else BudgetsFor(Init(budgets), spending) + [BudgetFor(Last(budgets), spending)]
  }

  /** The context built from the fetched rows. */
  function ContextOf(rows: seq<ExpenseData>, budgets: seq<BudgetRow>): Context
  {
    var es := Entries(rows);
    Context(rows, BudgetsFor(budgets, Tally.SumsOf(es)), Tally.Total(es))
  }

  function Amount(e: ExpenseData): real
  {
    e.amount
  }

  lemma {:induction false} EntriesTotal(rows: seq<ExpenseData>)
    ensures Tally.Total(Entries(rows)) == SumBy(rows, Amount)
  {
    if rows != [] {
      EntriesTotal(Init(rows));
    }
  }

  /** The context keeps every fetched expense in order, sums all their
      amounts, and gives each budget, in order, the sum spent on its category
      and a percentage that is 0 for a non-positive amount. */
  lemma ContextSpec(rows: seq<ExpenseData>, budgets: seq<BudgetRow>)
    ensures var ctx := ContextOf(rows, budgets);
            && ctx.expenses == rows
            && ctx.totalSpent == SumBy(rows, Amount)
            && |ctx.budgets| == |budgets|
            && (forall i :: 0 <= i < |budgets| ==>
                  ctx.budgets[i].category == budgets[i].category &&
                  ctx.budgets[i].spent == Tally.SumFor(Entries(rows), budgets[i].category) &&
                  (budgets[i].amount <= 0.0 ==> ctx.budgets[i].percentage == 0.0))
  {
    EntriesTotal(rows);
    forall i | 0 <= i < |budgets|
      ensures ContextOf(rows, budgets).budgets[i].spent == Tally.SumFor(Entries(rows), budgets[i].category)
    {
      Tally.LookupIsSumFor(Entries(rows), budgets[i].category);
    }
  }

  /** The `expensesData?.map(...)` loop followed by `budgetsData?.map(...)`. */
  method BuildContext(rows: seq<ExpenseData>, budgets: seq<BudgetRow>) returns (ctx: Context)
    ensures ctx == ContextOf(rows, budgets)
  {
    var spendingByCategory: map<string, real> := map[];
    var totalSpent := 0.0;
    var expenses: seq<ExpenseData> := [];
    ghost var es := Entries(rows);
    for i := 0 to |rows|
      invariant spendingByCategory == Tally.SumsOf(es[..i])
      invariant totalSpent == Tally.Total(es[..i])
      invariant expenses == rows[..i]
    {
      var e := rows[i];
      assert es[..i + 1] == es[..i] + [(e.category, e.amount)];
      Tally.SnocStep(es[..i], (e.category, e.amount));
      spendingByCategory := spendingByCategory[e.category := Tally.Lookup(spendingByCategory, e.category) + e.amount];
      totalSpent := totalSpent + e.amount;
      expenses := expenses + [ExpenseData(e.category, e.amount, e.description, e.date)];
    }
    assert rows[..|rows|] == rows && es[..|rows|] == es;
    ctx := Context(expenses, BudgetsFor(budgets, spendingByCategory), totalSpent);
  }
}
