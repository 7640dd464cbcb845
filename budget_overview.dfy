/** The budget overview card (components/BudgetOverview.tsx): this month's
    spending folded into a per-category map and a running total, one stat per
    monthly budget, the overall percentage, and how each budget's bar and
    label are drawn. */
module BudgetOverview {
  import opened Seqs
  import Tally
  import opened Utilization
  import opened Optional

  /** An expense row as the card selects it: category and amount only. */
  datatype SpendRow = SpendRow(category: string, amount: real)

  datatype Budget = Budget(id: string, category: string, amount: real, period: string)

  datatype BudgetStat = BudgetStat(id: string, category: string, spent: real, budget: real,
                                   percentage: real, period: string)

  /** The (category, amount) pairs the loop folds, keyed by the raw category. */
  function Entries(rows: seq<SpendRow>): (es: seq<(string, real)>)
    ensures |es| == |rows|
    ensures forall i :: 0 <= i < |rows| ==> es[i] == (rows[i].category, rows[i].amount)
  {
    if rows == [] then [] else Entries(Init(rows)) + [(Last(rows).category, Last(rows).amount)]
  }

  function BudgetAmount(b: Budget): real
  {
    b.amount
  }

  /** The stat of one budget: the category's spending (0 when nothing was
      spent on it) against the budget's amount. */
  function StatFor(b: Budget, spending: map<string, real>): (s: BudgetStat)
    ensures s.id == b.id && s.category == b.category && s.budget == b.amount && s.period == b.period
    ensures s.spent == Tally.Lookup(spending, b.category)
    ensures s.percentage == PercentOf(s.spent, s.budget)
  {
    var spent := Tally.Lookup(spending, b.category);
    BudgetStat(b.id, b.category, spent, b.amount, PercentOf(spent, b.amount), b.period)
  }

  /** `budgetStats`: one stat per budget, in the budgets' order. */
  function StatsFor(budgets: seq<Budget>, spending: map<string, real>): (ss: seq<BudgetStat>)
    ensures |ss| == |budgets|
    ensures forall i :: 0 <= i < |budgets| ==> ss[i] == StatFor(budgets[i], spending)
  {
    if budgets == [] then [] else StatsFor(Init(budgets), spending) + [StatFor(Last(budgets), spending)]
  }

  /** With the spending map the loop builds, every stat's `spent` is the sum
      of that category's amounts. */
  lemma StatsSpent(rows: seq<SpendRow>, budgets: seq<Budget>, i: nat)
    requires i < |budgets|
    ensures StatsFor(budgets, Tally.SumsOf(Entries(rows)))[i].spent == Tally.SumFor(Entries(rows), budgets[i].category)
  {
    Tally.LookupIsSumFor(Entries(rows), budgets[i].category);
  }

  /** The spending map is keyed by exactly the raw categories that occur
      (there is no "Other" default), and its values add up to the total. */
  lemma SpendingMapSpec(rows: seq<SpendRow>)
    ensures forall i :: 0 <= i < |rows| ==> rows[i].category in Tally.SumsOf(Entries(rows))
    ensures forall k :: k in Tally.SumsOf(Entries(rows)) ==> exists i :: 0 <= i < |rows| && rows[i].category == k
    ensures Tally.SumOver(Tally.Keys(Entries(rows)), Entries(rows)) == Tally.Total(Entries(rows))
  {
    var es := Entries(rows);
    forall i | 0 <= i < |rows|
      ensures rows[i].category in Tally.SumsOf(es)
    {
      assert es[i].0 == rows[i].category;
      assert rows[i].category in Tally.Keys(es);
    }
    forall k | k in Tally.SumsOf(es)
      ensures exists i :: 0 <= i < |rows| && rows[i].category == k
    {
      assert k in Tally.Keys(es);
      Tally.KeysComeFromEntries(es, k);
      var j :| 0 <= j < |es| && es[j].0 == k;
      assert rows[j].category == k;
    }
    Tally.PartitionSum(es);
  }

  /** `overallPercentage`. */
  function OverallPercentage(totalSpent: real, totalBudget: real): (r: real)
    ensures totalBudget <= 0.0 ==> r == 0.0
    ensures totalBudget > 0.0 ==> r * totalBudget == totalSpent * 100.0
  {
    PercentOf(totalSpent, totalBudget)
  }

  datatype StatusLabel = OverBudgetLabel | Remaining(percent: real)

  /** "Over budget!" above 100%, otherwise the percentage still unspent. */
  function Label(percentage: real): (l: StatusLabel)
    ensures l.OverBudgetLabel? <==> percentage > 100.0
    ensures l.Remaining? ==> 0.0 <= l.percent && l.percent + percentage == 100.0
  {
    if percentage > 100.0 then OverBudgetLabel else Remaining(100.0 - percentage)
  }

  datatype BarTone = Red | Amber | CategoryColour

  /** The bar's colour: red above 100%, amber above 80%, otherwise the
      category's own gradient. */
  function Tone(percentage: real): (t: BarTone)
    ensures t == Red <==> percentage > 100.0
    ensures t == Amber <==> 80.0 < percentage <= 100.0
    ensures t == CategoryColour <==> percentage <= 80.0
  {
    if percentage > 100.0 then Red else if percentage > 80.0 then Amber else CategoryColour
  }

  /** The label and the bar agree: a budget is labelled over exactly when its
      bar is red, and both follow the shared utilisation bands. */
  lemma LabelMatchesBar(percentage: real)
    ensures Label(percentage).OverBudgetLabel? <==> Tone(percentage) == Red
    ensures Tone(percentage) == Red <==> BandOf(percentage) == OverBudget
    ensures Tone(percentage) == Amber <==> BandOf(percentage) == NearLimit
  {
  }

  /** The card's state. */
  class Overview {
    var stats: seq<BudgetStat>
    var totalSpent: real
    var totalBudget: real
    var loading: bool

    constructor()
      ensures stats == [] && totalSpent == 0.0 && totalBudget == 0.0 && loading
    {
      stats, totalSpent, totalBudget, loading := [], 0.0, 0.0, true;
    }

    /** `fetchBudgetStats`. Without a user nothing happens. The budgets are
        queried only after the expenses succeeded, so `budgets` is ignored
        when `expenses` failed; on either failure the previous figures stay
        and only `loading` is cleared. */
    method FetchBudgetStats(signedIn: bool, expenses: Fetch<SpendRow>, budgets: Fetch<Budget>)
      modifies this
      ensures !signedIn ==> stats == old(stats) && totalSpent == old(totalSpent) &&
                            totalBudget == old(totalBudget) && loading == old(loading)
      ensures signedIn ==> !loading
      ensures signedIn && (expenses.QueryError? || budgets.QueryError?) ==>
                stats == old(stats) && totalSpent == old(totalSpent) && totalBudget == old(totalBudget)
      ensures signedIn && expenses.Rows? && budgets.Rows? ==>
                && totalSpent == Tally.Total(Entries(expenses.rows))
                && totalBudget == SumBy(budgets.rows, BudgetAmount)
                && stats == StatsFor(budgets.rows, Tally.SumsOf(Entries(expenses.rows)))
    {
      if !signedIn {
        return;
      }
      if expenses.QueryError? || budgets.QueryError? {
        loading := false;
        return;
      }
      var _, spendingByCategory, total := Tally.Accumulate(Entries(expenses.rows));
      totalSpent := total;
      totalBudget := SumBy(budgets.rows, BudgetAmount);
      stats := StatsFor(budgets.rows, spendingByCategory);
      loading := false;
    }
  }
}
