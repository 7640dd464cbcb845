/** The analytics page (app/analytics/page.tsx): the time window and the
    preceding window, period totals and their changes, the savings rate, the
    per-category breakdown and its top five, average daily spending, and
    budget utilisation with its three display bands. */
module Analytics {
  import opened Seqs
  import Tally
  import ObjectKeys
  import StableSort
  import opened Optional
  import opened Utilization

  datatype TxKind = Expense | Income

  /** A row of the `expenses` table as the page uses it. `category` is ""
      when the column is missing or empty; `date` is the stored
      "YYYY-MM-DD" text. */
  datatype ExpenseRow = ExpenseRow(id: string, amount: real, kind: TxKind, category: string, date: string)

  datatype Budget = Budget(id: string, category: string, amount: real)

  datatype TimeRange = Week | Month | Quarter | Year

  /** Instants are milliseconds since the epoch. */
  datatype Window = Window(start: int, end: int)

  /** `new Date(text).getTime()`, or None for an Invalid Date. */
  type DateParser = string -> Option<int>

  const MillisPerDay: int := 86400000

  /** `getDateRange`: the window ends now. The week starts seven 24-hour
      days earlier (`setDate` counts local calendar days, which this does not
      model across a daylight-saving change); month, quarter and year start at `calendarStart`, the instant
      `setMonth`/`setFullYear` produce, which the caller supplies. */
  function DateRange(range: TimeRange, now: int, calendarStart: int): (w: Window)
  {
    Window(if range == Week then now - 7 * MillisPerDay else calendarStart, now)
  }

  /** The current window is closed at both ends. */
  predicate InCurrent(w: Window, t: int)
  {
    w.start <= t <= w.end
  }

  /** The previous window: as long as the current one and ending where it
      starts, open at that end. */
  function Previous(w: Window): (p: Window)
    ensures p.end == w.start
    ensures p.end - p.start == w.end - w.start
    ensures forall t :: !(InCurrent(w, t) && p.start <= t < p.end)
    ensures w.start <= w.end ==> forall t :: (InCurrent(w, t) || p.start <= t < p.end) <==> p.start <= t <= w.end
  {
    Window(w.start - (w.end - w.start), w.start)
  }

  predicate InPrevious(w: Window, t: int)
  {
    Previous(w).start <= t < Previous(w).end
  }

  /** The week window is seven days long, and a row stamped exactly at the
      start of a window counts in that window and not in the one before. */
  lemma WeekWindow(now: int, calendarStart: int)
    ensures var w := DateRange(Week, now, calendarStart);
            w.end - w.start == 7 * MillisPerDay && InCurrent(w, w.start) && !InPrevious(w, w.start) &&
            Previous(w).start == now - 14 * MillisPerDay
  {
  }

  /** `filteredExpenses`: the rows whose date parses into the current window. */
  function CurrentRows(rows: seq<ExpenseRow>, w: Window, timeOf: DateParser): seq<ExpenseRow>
  {
    Filter(rows, (r: ExpenseRow) => timeOf(r.date).Some? && InCurrent(w, timeOf(r.date).value))
  }

  /** `previousPeriodExpenses`: the rows whose date parses into the previous window. */
  function PreviousRows(rows: seq<ExpenseRow>, w: Window, timeOf: DateParser): seq<ExpenseRow>
  {
    Filter(rows, (r: ExpenseRow) => timeOf(r.date).Some? && InPrevious(w, timeOf(r.date).value))
  }

  /** The two memos read the clock separately, so the previous period is
      built from its own window `later`. No row is counted in both periods
      as long as `later` starts no later than `current`, as when both come
      from the same reading of the clock. */
  lemma PeriodsDisjoint(rows: seq<ExpenseRow>, current: Window, later: Window, timeOf: DateParser)
    requires later.start <= current.start
    ensures forall r :: r in CurrentRows(rows, current, timeOf) ==> r !in PreviousRows(rows, later, timeOf)
  {
    forall r | r in CurrentRows(rows, current, timeOf)
      ensures r !in PreviousRows(rows, later, timeOf)
    {
      var t := timeOf(r.date).value;
      assert InCurrent(current, t);
      assert !InPrevious(later, t);
    }
  }

  /** When the clock moves on between the two reads (by less than a week),
      the week's windows overlap: the instant `now - 7 days` of the first
      read lies in the current window and in the previous window of the
      second read. */
  lemma LaterClockOverlaps(now: int, later: int, calendarStart: int)
    requires now < later <= now + 7 * MillisPerDay
    ensures var t := now - 7 * MillisPerDay;
            InCurrent(DateRange(Week, now, calendarStart), t) &&
            InPrevious(DateRange(Week, later, calendarStart), t)
  {
  }

  function Amount(r: ExpenseRow): real
  {
    r.amount
  }

  predicate IsExpense(r: ExpenseRow)
  {
    r.kind == Expense
  }

  predicate IsIncome(r: ExpenseRow)
  {
    r.kind == Income
  }

  /** `rows.filter(e => e.transaction_type === kind).reduce((sum, e) => sum + e.amount, 0)`. */
  function TotalOf(rows: seq<ExpenseRow>, kind: TxKind): real
  {
    SumBy(Filter(rows, if kind == Expense then IsExpense else IsIncome), Amount)
  }

  /** Expense total and income total together account for every row's amount. */
  lemma KindsPartitionTotal(rows: seq<ExpenseRow>)
    ensures TotalOf(rows, Expense) + TotalOf(rows, Income) == SumBy(rows, Amount)
  {
    SumByPartition(rows, IsExpense, IsIncome, Amount);
  }

  /** Both totals are non-negative when the stored amounts are. */
  lemma TotalsNonNegative(rows: seq<ExpenseRow>, kind: TxKind)
    requires forall i :: 0 <= i < |rows| ==> rows[i].amount >= 0.0
    ensures TotalOf(rows, kind) >= 0.0
  {
    var p := if kind == Expense then IsExpense else IsIncome;
    SumByNonNegative(Filter(rows, p), Amount);
  }

  /** Period-over-period change in percent; 0 when the previous total is 0
      (the source tests the previous total for truthiness). */
  function ChangePercent(current: real, previous: real): (r: real)
    ensures previous == 0.0 ==> r == 0.0
    ensures previous != 0.0 ==> r * previous == (current - previous) * 100.0
    ensures previous > 0.0 ==> (r > 0.0 <==> current > previous) && (r == 0.0 <==> current == previous)
  {
    if previous != 0.0 then (current - previous) / previous * 100.0 else 0.0
  }

  /** Net savings as a percentage of income; 0 unless income is positive. */
  function SavingsRate(income: real, expenses: real): (r: real)
    ensures income <= 0.0 ==> r == 0.0
    ensures income > 0.0 ==> r * income == (income - expenses) * 100.0
    ensures income > 0.0 && expenses >= 0.0 ==> r <= 100.0
    ensures income > 0.0 ==> (r >= 0.0 <==> expenses <= income)
  {
    PercentOf(income - expenses, income)
  }

  /** The breakdown key of an expense row: its category, "Other" when empty. */
  function CategoryKey(r: ExpenseRow): (k: string)
    ensures k != ""
    ensures r.category != "" ==> k == r.category
  {
    if r.category == "" then "Other" else r.category
  }

  /** The (key, amount) pairs the breakdown reduce consumes, in row order. */
  function CategoryEntries(rows: seq<ExpenseRow>): (es: seq<(string, real)>)
    ensures |es| == |Filter(rows, IsExpense)|
  {
    if rows == [] then []
    else CategoryEntries(Init(rows)) + (if IsExpense(Last(rows)) then [(CategoryKey(Last(rows)), Last(rows).amount)] else [])
  }

  /** The (date, amount) pairs the daily-spending reduce consumes. */
  function DailyEntries(rows: seq<ExpenseRow>): (es: seq<(string, real)>)
    ensures |es| == |Filter(rows, IsExpense)|
  {
    if rows == [] then []
    else DailyEntries(Init(rows)) + (if IsExpense(Last(rows)) then [(Last(rows).date, Last(rows).amount)] else [])
  }

  lemma {:induction false} CategoryEntriesTotal(rows: seq<ExpenseRow>)
    ensures Tally.Total(CategoryEntries(rows)) == TotalOf(rows, Expense)
    ensures Tally.Total(DailyEntries(rows)) == TotalOf(rows, Expense)
  {
    if rows != [] {
      CategoryEntriesTotal(Init(rows));
      var r := Last(rows);
      SumByAppend(Filter(Init(rows), IsExpense), if IsExpense(r) then [r] else [], Amount);
      assert SumBy([r], Amount) == r.amount by {
        assert Init([r]) == [];
      }
      if IsExpense(r) {
        var c := CategoryEntries(Init(rows)) + [(CategoryKey(r), r.amount)];
        assert Init(c) == CategoryEntries(Init(rows));
        var d := DailyEntries(Init(rows)) + [(r.date, r.amount)];
        assert Init(d) == DailyEntries(Init(rows));
      } else {
        assert CategoryEntries(rows) == CategoryEntries(Init(rows));
        assert DailyEntries(rows) == DailyEntries(Init(rows));
      }
    }
  }

  /** Every breakdown key is "Other" or the category of some expense row. */
  lemma {:induction false} CategoryEntriesKeys(rows: seq<ExpenseRow>, i: nat)
    requires i < |CategoryEntries(rows)|
    ensures exists j :: 0 <= j < |rows| && IsExpense(rows[j]) && CategoryEntries(rows)[i] == (CategoryKey(rows[j]), rows[j].amount)
  {
    if i < |CategoryEntries(Init(rows))| {
      CategoryEntriesKeys(Init(rows), i);
      var j :| 0 <= j < |Init(rows)| && IsExpense(Init(rows)[j]) &&
               CategoryEntries(Init(rows))[i] == (CategoryKey(Init(rows)[j]), Init(rows)[j].amount);
      assert rows[j] == Init(rows)[j];
    } else {
      assert rows[|rows| - 1] == Last(rows);
    }
  }

  /** `Object.entries(dict)`: the pairs in the listing order `keys`. */
  function EntriesOf(keys: seq<string>, sums: map<string, real>): (es: seq<(string, real)>)
    requires forall i :: 0 <= i < |keys| ==> keys[i] in sums
    ensures |es| == |keys|
    ensures forall i :: 0 <= i < |keys| ==> es[i] == (keys[i], sums[keys[i]])
  {
    if keys == [] then [] else EntriesOf(Init(keys), sums) + [(Last(keys), sums[Last(keys)])]
  }

  /** The sort key of `(a, b) => b[1] - a[1]`: larger amounts first. */
  function ByAmountDesc(e: (string, real)): real
  {
    -e.1
  }

  /** `sortedCategories`: the breakdown entries stably sorted by amount,
      largest first, cut to five. */
  function TopCategories(entries: seq<(string, real)>): seq<(string, real)>
  {
    var sorted := StableSort.Sort(entries, ByAmountDesc);
    sorted[..if |sorted| < 5 then |sorted| else 5]
  }

  lemma {:induction false} WithKeyPrefix<T>(s: seq<T>, key: T -> real, v: real, n: nat)
    requires n <= |s|
    ensures StableSort.WithKey(s[..n], key, v) <= StableSort.WithKey(s, key, v)
    decreases |s|
  {
    if n < |s| {
      WithKeyPrefix(Init(s), key, v, n);
      assert Init(s)[..n] == s[..n];
    } else {
      assert s[..n] == s;
    }
  }

  /** The top five: at most five entries, each taken from the breakdown,
      largest amount first. */
  lemma TopCategoriesOrdered(entries: seq<(string, real)>)
    ensures var top := TopCategories(entries);
            && |top| == (if |entries| < 5 then |entries| else 5)
            && multiset(top) <= multiset(entries)
            && (forall i, j :: 0 <= i < j < |top| ==> top[i].1 >= top[j].1)
  {
    var sorted := StableSort.Sort(entries, ByAmountDesc);
    StableSort.SortSpec(entries, ByAmountDesc);
    var n := if |sorted| < 5 then |sorted| else 5;
    assert sorted == sorted[..n] + sorted[n..];
    assert multiset(sorted) == multiset(sorted[..n]) + multiset(sorted[n..]);
    var top := sorted[..n];
    forall i, j | 0 <= i < j < |top|
      ensures top[i].1 >= top[j].1
    {
      assert ByAmountDesc(sorted[i]) <= ByAmountDesc(sorted[j]);
    }
  }

  /** No breakdown entry left out of the top five is larger than one kept. */
  lemma TopCategoriesLargest(entries: seq<(string, real)>)
    ensures var top := TopCategories(entries);
            forall x, y :: x in top && y in multiset(entries) - multiset(top) ==> y.1 <= x.1
  {
    var sorted := StableSort.Sort(entries, ByAmountDesc);
    StableSort.SortSpec(entries, ByAmountDesc);
    var n := if |sorted| < 5 then |sorted| else 5;
    MultisetSplit(sorted, n);
    PrefixDominates(sorted, n);
  }

  /** In a list sorted by descending amount, every element of a prefix is at
      least as large as every element after it. */
  lemma PrefixDominates(sorted: seq<(string, real)>, n: nat)
    requires StableSort.Sorted(sorted, ByAmountDesc)
    requires n <= |sorted|
    ensures forall x, y :: x in sorted[..n] && y in multiset(sorted[n..]) ==> y.1 <= x.1
  {
    var top, rest := sorted[..n], sorted[n..];
    forall x: (string, real), y: (string, real) | x in top && y in multiset(rest)
      ensures y.1 <= x.1
    {
      var i :| 0 <= i < |top| && top[i] == x;
      var j :| 0 <= j < |rest| && rest[j] == y;
      assert sorted[n + j] == y;
      assert ByAmountDesc(sorted[i]) <= ByAmountDesc(sorted[n + j]);
    }
  }

  lemma MultisetSplit<T>(s: seq<T>, n: nat)
    requires n <= |s|
    ensures multiset(s) - multiset(s[..n]) == multiset(s[n..])
  {
    assert s == s[..n] + s[n..];
  }

  /** Among equal amounts the top five keep the order of the breakdown's
      entries (the object's listing order, `ObjectKeys.PropertyOrder`): for every amount, the kept entries with it are a prefix of the
      breakdown's entries with it. */
  lemma TopCategoriesStable(entries: seq<(string, real)>, v: real)
    ensures StableSort.WithKey(TopCategories(entries), ByAmountDesc, v) <= StableSort.WithKey(entries, ByAmountDesc, v)
  {
    var sorted := StableSort.Sort(entries, ByAmountDesc);
    StableSort.SortSpec(entries, ByAmountDesc);
    var n := if |sorted| < 5 then |sorted| else 5;
    WithKeyPrefix(sorted, ByAmountDesc, v, n);
    StableSort.SortIsStable(entries, ByAmountDesc, v);
  }

  /** Average spending per day that has at least one expense: the sum of the
      per-day totals over the number of distinct expense dates, 0 when there
      are none. */
  function AverageDaily(days: seq<string>, daily: map<string, real>): real
    requires forall i :: 0 <= i < |days| ==> days[i] in daily
  {
    var values := EntriesOf(days, daily);
    if |values| > 0 then SumBy(values, (e: (string, real)) => e.1) / (|values| as real) else 0.0
  }

  lemma {:induction false} EntriesOfSum(keys: seq<string>, entries: seq<(string, real)>)
    requires forall i :: 0 <= i < |keys| ==> keys[i] in Tally.SumsOf(entries)
    requires forall i :: 0 <= i < |keys| ==> keys[i] in Tally.Keys(entries)
    ensures SumBy(EntriesOf(keys, Tally.SumsOf(entries)), (e: (string, real)) => e.1) == Tally.SumOver(keys, entries)
  {
    if keys != [] {
      EntriesOfSum(Init(keys), entries);
    }
  }

  /** The daily average is the expense total over the number of distinct
      expense dates; days without an expense do not count. */
  lemma AverageDailySpec(rows: seq<ExpenseRow>)
    ensures var es := DailyEntries(rows);
            var days := Tally.Keys(es);
            && (days == [] ==> AverageDaily(days, Tally.SumsOf(es)) == 0.0)
            && (days != [] ==> AverageDaily(days, Tally.SumsOf(es)) == TotalOf(rows, Expense) / (|days| as real))
            && (forall i :: 0 <= i < |rows| && IsExpense(rows[i]) ==> rows[i].date in days)
  {
    var es := DailyEntries(rows);
    var days := Tally.Keys(es);
    EntriesOfSum(days, es);
    Tally.PartitionSum(es);
    CategoryEntriesTotal(rows);
    forall i | 0 <= i < |rows| && IsExpense(rows[i])
      ensures rows[i].date in days
    {
      DailyEntriesContain(rows, i);
    }
  }

  lemma {:induction false} DailyEntriesContain(rows: seq<ExpenseRow>, i: nat)
    requires i < |rows| && IsExpense(rows[i])
    ensures (rows[i].date, rows[i].amount) in DailyEntries(rows)
  {
    if i < |rows| - 1 {
      DailyEntriesContain(Init(rows), i);
    } else {
      assert Last(rows) == rows[i];
    }
  }

  /** The page's derived figures for one window. `categoryKeys` is the
      breakdown's keys in the order `Object.entries` lists them. */
  datatype Summary = Summary(
    totalExpenses: real,
    totalIncome: real,
    netSavings: real,
    savingsRate: real,
    expenseChange: real,
    incomeChange: real,
    categoryKeys: seq<string>,
    categoryBreakdown: map<string, real>,
    sortedCategories: seq<(string, real)>,
    avgDailySpending: real,
    transactionCount: nat)

  /** Every key `Object.entries` lists has a total in the dictionary. */
  lemma ListedInBreakdown(entries: seq<(string, real)>)
    ensures var listed := ObjectKeys.PropertyOrder(Tally.Keys(entries));
            forall i :: 0 <= i < |listed| ==> listed[i] in Tally.SumsOf(entries)
  {
    var keys := Tally.Keys(entries);
    var listed := ObjectKeys.PropertyOrder(keys);
    ObjectKeys.PropertyOrderPermutes(keys);
    forall i | 0 <= i < |listed|
      ensures listed[i] in Tally.SumsOf(entries)
    {
      assert listed[i] in multiset(keys);
    }
  }

  /** `categoryBreakdown` and `sortedCategories`: the reduce into the
      dictionary, then its entries in listing order, sorted and cut. */
  method CategoryFigures(filtered: seq<ExpenseRow>)
    returns (listed: seq<string>, breakdown: map<string, real>, top: seq<(string, real)>)
    ensures listed == ObjectKeys.PropertyOrder(Tally.Keys(CategoryEntries(filtered)))
    ensures breakdown == Tally.SumsOf(CategoryEntries(filtered))
    ensures forall i :: 0 <= i < |listed| ==> listed[i] in breakdown
    ensures top == TopCategories(EntriesOf(listed, breakdown))
  {
    var keys, sums, _ := Tally.Accumulate(CategoryEntries(filtered));
    ListedInBreakdown(CategoryEntries(filtered));
    listed, breakdown := ObjectKeys.PropertyOrder(keys), sums;
    top := TopCategories(EntriesOf(listed, breakdown));
  }

  /** The `analytics` memo over the rows of the current and previous windows. */
  method Summarize(filtered: seq<ExpenseRow>, previous: seq<ExpenseRow>) returns (a: Summary)
    ensures a.totalExpenses == TotalOf(filtered, Expense) && a.totalIncome == TotalOf(filtered, Income)
    ensures a.netSavings == a.totalIncome - a.totalExpenses
    ensures a.savingsRate == SavingsRate(a.totalIncome, a.totalExpenses)
    ensures a.expenseChange == ChangePercent(a.totalExpenses, TotalOf(previous, Expense))
    ensures a.incomeChange == ChangePercent(a.totalIncome, TotalOf(previous, Income))
    ensures a.categoryKeys == ObjectKeys.PropertyOrder(Tally.Keys(CategoryEntries(filtered)))
    ensures a.categoryBreakdown == Tally.SumsOf(CategoryEntries(filtered))
    ensures forall i :: 0 <= i < |a.categoryKeys| ==> a.categoryKeys[i] in a.categoryBreakdown
    ensures a.sortedCategories == TopCategories(EntriesOf(a.categoryKeys, a.categoryBreakdown))
    ensures a.avgDailySpending == AverageDaily(Tally.Keys(DailyEntries(filtered)), Tally.SumsOf(DailyEntries(filtered)))
    ensures a.transactionCount == |filtered|
  {
    var totalExpenses := TotalOf(filtered, Expense);
    var totalIncome := TotalOf(filtered, Income);
    var prevExpenses := TotalOf(previous, Expense);
    var prevIncome := TotalOf(previous, Income);
    var listed, breakdown, top := CategoryFigures(filtered);
    var days, daily, _ := Tally.Accumulate(DailyEntries(filtered));
    a := Summary(
      totalExpenses, totalIncome, totalIncome - totalExpenses,
      SavingsRate(totalIncome, totalExpenses),
      ChangePercent(totalExpenses, prevExpenses), ChangePercent(totalIncome, prevIncome),
      listed, breakdown, top,
      AverageDaily(days, daily), |filtered|);
  }

  /** The breakdown covers the expense rows only, and its values add up to
      the expense total. */
  lemma BreakdownPartitionsExpenses(rows: seq<ExpenseRow>)
    ensures Tally.SumOver(Tally.Keys(CategoryEntries(rows)), CategoryEntries(rows)) == TotalOf(rows, Expense)
    ensures forall i :: 0 <= i < |rows| && IsExpense(rows[i]) ==> CategoryKey(rows[i]) in Tally.Keys(CategoryEntries(rows))
  {
    Tally.PartitionSum(CategoryEntries(rows));
    CategoryEntriesTotal(rows);
    forall i | 0 <= i < |rows| && IsExpense(rows[i])
      ensures CategoryKey(rows[i]) in Tally.Keys(CategoryEntries(rows))
    {
      CategoryEntriesContain(rows, i);
    }
  }

  lemma {:induction false} CategoryEntriesContain(rows: seq<ExpenseRow>, i: nat)
    requires i < |rows| && IsExpense(rows[i])
    ensures (CategoryKey(rows[i]), rows[i].amount) in CategoryEntries(rows)
  {
    if i < |rows| - 1 {
      CategoryEntriesContain(Init(rows), i);
    } else {
      assert Last(rows) == rows[i];
    }
  }

  /** A category's share of total spending in percent, 0 when nothing was spent. */
  function SharePercent(amount: real, totalExpenses: real): (r: real)
    ensures totalExpenses <= 0.0 ==> r == 0.0
    ensures totalExpenses > 0.0 ==> r * totalExpenses == amount * 100.0
    ensures totalExpenses > 0.0 && 0.0 <= amount <= totalExpenses ==> 0.0 <= r <= 100.0
  {
    PercentOf(amount, totalExpenses)
  }

  function BudgetAmount(b: Budget): real
  {
    b.amount
  }

  /** Overall utilisation: expense total over the summed budget limits, in
      percent, 0 when that sum is not positive. */
  function OverallUtilization(totalExpenses: real, budgets: seq<Budget>): (r: real)
    ensures SumBy(budgets, BudgetAmount) <= 0.0 ==> r == 0.0
    ensures SumBy(budgets, BudgetAmount) > 0.0 ==> r * SumBy(budgets, BudgetAmount) == totalExpenses * 100.0
  {
    PercentOf(totalExpenses, SumBy(budgets, BudgetAmount))
  }

  /** Utilisation of one budget: the breakdown's total for its category (0
      when absent) over its limit, in percent, 0 when the limit is not positive. */
  function BudgetUtilization(breakdown: map<string, real>, b: Budget): (r: real)
    ensures b.amount <= 0.0 ==> r == 0.0
    ensures b.amount > 0.0 ==> r * b.amount == Tally.Lookup(breakdown, b.category) * 100.0
    ensures b.amount > 0.0 && b.category !in breakdown ==> r == 0.0
  {
    PercentOf(Tally.Lookup(breakdown, b.category), b.amount)
  }

  /** Per-budget utilisation over the rows equals their expense sum for that
      category over the limit. */
  lemma BudgetUtilizationSpent(rows: seq<ExpenseRow>, b: Budget)
    requires b.amount > 0.0
    ensures BudgetUtilization(Tally.SumsOf(CategoryEntries(rows)), b) * b.amount ==
            Tally.SumFor(CategoryEntries(rows), b.category) * 100.0
  {
    Tally.LookupIsSumFor(CategoryEntries(rows), b.category);
    UtilizationOfLookup(Tally.SumsOf(CategoryEntries(rows)), b, Tally.SumFor(CategoryEntries(rows), b.category));
  }

  lemma UtilizationOfLookup(breakdown: map<string, real>, b: Budget, spent: real)
    requires b.amount > 0.0 && Tally.Lookup(breakdown, b.category) == spent
    ensures BudgetUtilization(breakdown, b) * b.amount == spent * 100.0
  {
  }

  /** `budgets.slice(0, 4)`: the page lists the first four budgets individually. */
  function ShownBudgets(budgets: seq<Budget>): (r: seq<Budget>)
    ensures |r| <= 4 && r <= budgets
    ensures |r| == (if |budgets| < 4 then |budgets| else 4)
    ensures |budgets| <= 4 ==> r == budgets
  {
    if |budgets| <= 4 then budgets else budgets[..4]
  }

  /** `Math.min(Math.max(rate, 0), 100)`: the savings bar stays within [0, 100]. */
  function SavingsBarWidth(rate: real): (w: real)
    ensures 0.0 <= w <= 100.0
    ensures 0.0 <= rate <= 100.0 ==> w == rate
    ensures rate < 0.0 ==> w == 0.0
    ensures rate > 100.0 ==> w == 100.0
  {
    var lo := if rate > 0.0 then rate else 0.0;
    if lo < 100.0 then lo else 100.0
  }

  datatype SavingsBand = Healthy | Modest | Low

  /** The savings bar colour: at least 20%, at least 10%, below. */
  function SavingsRateBand(rate: real): (b: SavingsBand)
    ensures b == Healthy <==> rate >= 20.0
    ensures b == Modest <==> 10.0 <= rate < 20.0
    ensures b == Low <==> rate < 10.0
  {
    if rate >= 20.0 then Healthy else if rate >= 10.0 then Modest else Low
  }
}
