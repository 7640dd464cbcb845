/** The transaction ledger view (app/transactions/page.tsx): expenses and
    incomes merged into one list, filtered by type, search text and an ISO
    date range, sorted in place in one of four orders, paginated fifteen to
    a page and totalled; plus the page and filter state and the edit form. */
module Transactions {
  import opened Seqs
  import opened Optional
  import opened JsString
  import StableSort

  datatype TxType = ExpenseTx | IncomeTx

  /** A row of the `expenses` table, as far as the ledger reads it. */
  datatype Expense = Expense(id: string, amount: real, currency: string, category: string,
                             description: Option<string>, date: string, createdAt: string)

  /** A row of the `incomes` table; `source` is one of the income sources. */
  datatype Income = Income(id: string, amount: real, currency: string, source: string,
                           description: Option<string>, date: string, createdAt: string)

  /** The ledger's own row: an expense carries a category and no source, an
      income a source and no category. */
  datatype Transaction = Transaction(id: string, kind: TxType, amount: real, currency: string,
                                     category: Option<string>, source: Option<string>,
                                     description: Option<string>, date: string, createdAt: string)

  datatype FilterType = All | OnlyExpenses | OnlyIncomes
  datatype SortType = DateDesc | DateAsc | AmountDesc | AmountAsc

  /** The filter inputs; "" is the empty search box or date field. */
  datatype Criteria = Criteria(filterType: FilterType, query: string, start: string, end: string)

  const PageSize: nat := 15

  function FromExpense(e: Expense): Transaction
  {
    Transaction(e.id, ExpenseTx, e.amount, e.currency, Some(e.category), None, e.description, e.date, e.createdAt)
  }

  function FromIncome(i: Income): Transaction
  {
    Transaction(i.id, IncomeTx, i.amount, i.currency, None, Some(i.source), i.description, i.date, i.createdAt)
  }

  function MapExpenses(es: seq<Expense>): (ts: seq<Transaction>)
    ensures |ts| == |es|
    ensures forall i :: 0 <= i < |es| ==> ts[i] == FromExpense(es[i])
  {
    if es == [] then [] else MapExpenses(Init(es)) + [FromExpense(Last(es))]
  }

  function MapIncomes(incomes: seq<Income>): (ts: seq<Transaction>)
    ensures |ts| == |incomes|
    ensures forall i :: 0 <= i < |incomes| ==> ts[i] == FromIncome(incomes[i])
  {
    if incomes == [] then [] else MapIncomes(Init(incomes)) + [FromIncome(Last(incomes))]
  }

  /** The `transactions` memo: every expense, then every income, each tagged
      with its origin and keeping its id, amount and date. */
  function Merge(expenses: seq<Expense>, incomes: seq<Income>): (ts: seq<Transaction>)
    ensures |ts| == |expenses| + |incomes|
    ensures forall i :: 0 <= i < |expenses| ==>
              ts[i].kind == ExpenseTx && ts[i].id == expenses[i].id && ts[i].amount == expenses[i].amount &&
              ts[i].date == expenses[i].date && ts[i].category == Some(expenses[i].category) && ts[i].source.None?
    ensures forall i :: 0 <= i < |incomes| ==>
              var t := ts[|expenses| + i];
              t.kind == IncomeTx && t.id == incomes[i].id && t.amount == incomes[i].amount &&
              t.date == incomes[i].date && t.source == Some(incomes[i].source) && t.category.None?
  {
    MapExpenses(expenses) + MapIncomes(incomes)
  }

  predicate TypeMatches(ft: FilterType, t: Transaction)
  {
    match ft
    case All => true
    case OnlyExpenses => t.kind == ExpenseTx
    case OnlyIncomes => t.kind == IncomeTx
  }

  /** `field?.toLowerCase().includes(q)`: false for a missing field. */
  predicate FieldContains(field: Option<string>, q: string)
  {
    field.Some? && Includes(ToLower(field.value), q)
  }

  /** The search test, with `q` the lower-cased query. */
  predicate MatchesSearch(q: string, t: Transaction)
  {
    FieldContains(t.description, q) || FieldContains(t.category, q) || FieldContains(t.source, q)
  }

  /** All four filters at once; an empty field imposes nothing. */
  predicate Accepts(c: Criteria, t: Transaction)
  {
    && TypeMatches(c.filterType, t)
    && (c.query == "" || MatchesSearch(ToLower(c.query), t))
    && (c.start == "" || StrLe(c.start, t.date))
    && (c.end == "" || StrLe(t.date, c.end))
  }

  predicate NoFilter(c: Criteria)
  {
    c.filterType == All && c.query == "" && c.start == "" && c.end == ""
  }

  /** The filter chain of `filteredAndSortedTransactions`: each active
      filter narrows the result of the one before. */
  function Filtered(ts: seq<Transaction>, c: Criteria): seq<Transaction>
  {
    var a := if c.filterType == All then ts else Filter(ts, (t: Transaction) => TypeMatches(c.filterType, t));
    var q := ToLower(c.query);
    var b := if c.query == "" then a else Filter(a, (t: Transaction) => MatchesSearch(q, t));
    var d := if c.start == "" then b else Filter(b, (t: Transaction) => StrLe(c.start, t.date));
    if c.end == "" then d else Filter(d, (t: Transaction) => StrLe(t.date, c.end))
  }

  /** The chain of filters is a single filter by the conjunction of the
      active tests: the result keeps the input's order, holds exactly the
      accepted transactions, and adds nothing. */
  lemma FilteredIsOneFilter(ts: seq<Transaction>, c: Criteria)
    ensures Filtered(ts, c) == Filter(ts, (t: Transaction) => Accepts(c, t))
  {
    var q := ToLower(c.query);
    var p1 := (t: Transaction) => TypeMatches(c.filterType, t);
    var p2 := (t: Transaction) => TypeMatches(c.filterType, t) && (c.query == "" || MatchesSearch(q, t));
    var p3 := (t: Transaction) => p2(t) && (c.start == "" || StrLe(c.start, t.date));
    var p4 := (t: Transaction) => Accepts(c, t);
    var a := if c.filterType == All then ts else Filter(ts, (t: Transaction) => TypeMatches(c.filterType, t));
    assert a == Filter(ts, p1) by {
      if c.filterType == All {
        FilterAll(ts, p1);
      }
    }
    var b := if c.query == "" then a else Filter(a, (t: Transaction) => MatchesSearch(q, t));
    assert b == Filter(ts, p2) by {
      if c.query == "" {
        FilterFilter(ts, p1, (t: Transaction) => true, p2);
        FilterAll(a, (t: Transaction) => true);
      } else {
        FilterFilter(ts, p1, (t: Transaction) => MatchesSearch(q, t), p2);
      }
    }
    var d := if c.start == "" then b else Filter(b, (t: Transaction) => StrLe(c.start, t.date));
    assert d == Filter(ts, p3) by {
      if c.start == "" {
        FilterFilter(ts, p2, (t: Transaction) => true, p3);
        FilterAll(b, (t: Transaction) => true);
      } else {
        FilterFilter(ts, p2, (t: Transaction) => StrLe(c.start, t.date), p3);
      }
    }
    if c.end == "" {
      FilterFilter(ts, p3, (t: Transaction) => true, p4);
      FilterAll(d, (t: Transaction) => true);
    } else {
      FilterFilter(ts, p3, (t: Transaction) => StrLe(t.date, c.end), p4);
    }
  }

  /** What the filters guarantee, element by element. */
  lemma FilteredSpec(ts: seq<Transaction>, c: Criteria)
    ensures var r := Filtered(ts, c);
            && |r| <= |ts|
            && (forall i :: 0 <= i < |r| ==> r[i] in ts && Accepts(c, r[i]))
            && (forall i :: 0 <= i < |ts| && Accepts(c, ts[i]) ==> ts[i] in r)
            && (c.filterType == OnlyExpenses ==> forall i :: 0 <= i < |r| ==> r[i].kind == ExpenseTx)
            && (c.filterType == OnlyIncomes ==> forall i :: 0 <= i < |r| ==> r[i].kind == IncomeTx)
            && (c.query != "" ==> forall i :: 0 <= i < |r| ==> MatchesSearch(ToLower(c.query), r[i]))
            && (c.start != "" ==> forall i :: 0 <= i < |r| ==> StrLe(c.start, r[i].date))
            && (c.end != "" ==> forall i :: 0 <= i < |r| ==> StrLe(r[i].date, c.end))
  {
    FilteredIsOneFilter(ts, c);
  }

  /** The sort key of each mode; `timeOf` is `new Date(date).getTime()`. */
  function SortKey(mode: SortType, timeOf: string -> int): Transaction -> real
  {
    match mode
    case DateDesc => (t: Transaction) => -(timeOf(t.date) as real)
    case DateAsc => (t: Transaction) => timeOf(t.date) as real
    case AmountDesc => (t: Transaction) => -t.amount
    case AmountAsc => (t: Transaction) => t.amount
  }

  /** The list the ledger shows, before pagination. */
  function View(ts: seq<Transaction>, c: Criteria, mode: SortType, timeOf: string -> int): seq<Transaction>
  {
    StableSort.Sort(Filtered(ts, c), SortKey(mode, timeOf))
  }

  /** The view is a permutation of the filtered list, ordered by the chosen
      key, with transactions of equal key in their filtered order. */
  lemma ViewSpec(ts: seq<Transaction>, c: Criteria, mode: SortType, timeOf: string -> int)
    ensures var r, f := View(ts, c, mode, timeOf), Filtered(ts, c);
            && multiset(r) == multiset(f)
            && (mode == DateDesc ==> forall i, j :: 0 <= i < j < |r| ==> timeOf(r[i].date) >= timeOf(r[j].date))
            && (mode == DateAsc ==> forall i, j :: 0 <= i < j < |r| ==> timeOf(r[i].date) <= timeOf(r[j].date))
            && (mode == AmountDesc ==> forall i, j :: 0 <= i < j < |r| ==> r[i].amount >= r[j].amount)
            && (mode == AmountAsc ==> forall i, j :: 0 <= i < j < |r| ==> r[i].amount <= r[j].amount)
            && (forall v :: StableSort.WithKey(r, SortKey(mode, timeOf), v) == StableSort.WithKey(f, SortKey(mode, timeOf), v))
  {
    var key := SortKey(mode, timeOf);
    var f := Filtered(ts, c);
    var r := StableSort.Sort(f, key);
    StableSort.SortSpec(f, key);
    forall v
      ensures StableSort.WithKey(r, key, v) == StableSort.WithKey(f, key, v)
    {
      StableSort.SortIsStable(f, key, v);
    }
    forall i, j | 0 <= i < j < |r|
      ensures key(r[i]) <= key(r[j])
    {
    }
  }

  /** `filteredAndSortedTransactions`. The sort works in place: when no
      filter is active, the array sorted is the merged list itself, which
      the sort then reorders; otherwise the filters built a fresh array and
      the merged list is untouched. */
  method FilteredAndSorted(transactions: array<Transaction>, c: Criteria, mode: SortType, timeOf: string -> int)
    returns (r: array<Transaction>)
    modifies transactions
    ensures NoFilter(c) ==> r == transactions
    ensures !NoFilter(c) ==> fresh(r) && transactions[..] == old(transactions[..])
    ensures r[..] == View(old(transactions[..]), c, mode, timeOf)
  {
    var s := Filtered(transactions[..], c);
    if NoFilter(c) {
      r := transactions;
    } else {
      r := new Transaction[|s|](i requires 0 <= i < |s| => s[i]);
    }
    assert r[..] == s;
    StableSort.SortInPlace(r, SortKey(mode, timeOf));
  }

  /** `Math.ceil(n / 15)`. */
  function TotalPages(n: nat): (p: nat)
    ensures p * PageSize >= n
    ensures p == 0 || (p - 1) * PageSize < n
    ensures p == 0 <==> n == 0
  {
    (n + PageSize - 1) / PageSize
  }

  function Min(a: int, b: int): int
  {
    if a < b then a else b
  }

  /** `slice((page - 1) * 15, (page - 1) * 15 + 15)` for a page number of at
      least 1, so the start is never negative. */
  function Page<T>(ts: seq<T>, page: nat): (r: seq<T>)
    requires page >= 1
  {
    var start := (page - 1) * PageSize;
    ts[Min(start, |ts|)..Min(start + PageSize, |ts|)]
  }

  /** A page holds at most fifteen items. Pages 1 to `TotalPages` are the
      non-empty ones, each of the length the "Showing a - b of n" label
      reports, and later pages are empty. */
  lemma PageSpec<T>(ts: seq<T>, page: nat)
    requires page >= 1
    ensures |Page(ts, page)| <= PageSize
    ensures page <= TotalPages(|ts|) ==> |Page(ts, page)| == Min(page * PageSize, |ts|) - (page - 1) * PageSize > 0
    ensures page > TotalPages(|ts|) ==> Page(ts, page) == []
  {
  }

  /** Pages 1 to k, one after the other. */
  function PagesUpTo<T>(ts: seq<T>, k: nat): seq<T>
  {
    if k == 0 then [] else PagesUpTo(ts, k - 1) + Page(ts, k)
  }

  lemma {:induction false} PagesUpToPrefix<T>(ts: seq<T>, k: nat)
    ensures PagesUpTo(ts, k) == ts[..Min(k * PageSize, |ts|)]
  {
    if k > 0 {
      PagesUpToPrefix(ts, k - 1);
      var a, b := Min((k - 1) * PageSize, |ts|), Min(k * PageSize, |ts|);
      assert ts[..a] + ts[a..b] == ts[..b];
    }
  }

  /** Reading every page in order gives back the whole list, exactly once. */
  lemma PagesReassemble<T>(ts: seq<T>)
    ensures PagesUpTo(ts, TotalPages(|ts|)) == ts
  {
    PagesUpToPrefix(ts, TotalPages(|ts|));
  }

  /** The figures above the list. */
  datatype Totals = Totals(totalIncome: real, totalExpense: real, net: real)

  predicate IsIncome(t: Transaction)
  {
    t.kind == IncomeTx
  }

  predicate IsExpense(t: Transaction)
  {
    t.kind == ExpenseTx
  }

  function Amount(t: Transaction): real
  {
    t.amount
  }

  function TotalsOf(ts: seq<Transaction>): Totals
  {
    var income := SumBy(Filter(ts, IsIncome), Amount);
    var expense := SumBy(Filter(ts, IsExpense), Amount);
    Totals(income, expense, income - expense)
  }

  function IncomeAmount(t: Transaction): real
  {
    if IsIncome(t) then t.amount else 0.0
  }

  function ExpenseAmount(t: Transaction): real
  {
    if IsExpense(t) then t.amount else 0.0
  }

  /** The totals are taken over the whole filtered list, whatever the sort
      order and page: income and expense together are the sum of every
      filtered amount, and net is their difference. */
  lemma TotalsSpec(ts: seq<Transaction>, c: Criteria, mode: SortType, timeOf: string -> int)
    ensures var t, f := TotalsOf(View(ts, c, mode, timeOf)), Filtered(ts, c);
            && t == TotalsOf(f)
            && t.totalIncome + t.totalExpense == SumBy(f, Amount)
            && t.net == t.totalIncome - t.totalExpense
  {
    var key := SortKey(mode, timeOf);
    var f := Filtered(ts, c);
    var r := View(ts, c, mode, timeOf);
    SumByFilter(r, IsIncome, Amount, IncomeAmount);
    SumByFilter(f, IsIncome, Amount, IncomeAmount);
    SumByFilter(r, IsExpense, Amount, ExpenseAmount);
    SumByFilter(f, IsExpense, Amount, ExpenseAmount);
    StableSort.SortKeepsSum(f, key, IncomeAmount);
    StableSort.SortKeepsSum(f, key, ExpenseAmount);
    SumByPartition(f, IsIncome, IsExpense, Amount);
  }

  /** The "previous page" button: `Math.max(1, page - 1)`. */
  function PrevPage(page: int): (r: int)
    ensures r >= 1
    ensures page > 1 ==> r == page - 1
    ensures page <= 1 ==> r == 1
  {
    if page - 1 > 1 then page - 1 else 1
  }

  /** The "next page" button: `Math.min(totalPages, page + 1)`. */
  function NextPage(page: int, totalPages: nat): (r: int)
    ensures r <= totalPages
    ensures 1 <= page <= totalPages ==> 1 <= r <= totalPages && (r == page + 1 || r == page == totalPages)
    ensures page >= totalPages ==> r == totalPages
  {
    if totalPages < page + 1 then totalPages else page + 1
  }

  datatype EditForm = EditForm(amount: string, category: string, source: string, description: string, date: string)

  /** `startEditing`: the form filled from the transaction; a missing
      category or description shows as "", a missing source as "Other".
      `amountText` is `transaction.amount.toString()`. */
  function EditFormFor(t: Transaction, amountText: string): (f: EditForm)
    ensures f.date == t.date && f.amount == amountText
    ensures f.source == (if t.source.Some? && t.source.value != "" then t.source.value else "Other")
    ensures f.category == (if t.category.Some? then t.category.value else "")
    ensures f.description == (if t.description.Some? then t.description.value else "")
  {
    EditForm(amountText,
             if t.category.Some? then t.category.value else "",
             if t.source.Some? && t.source.value != "" then t.source.value else "Other",
             if t.description.Some? then t.description.value else "",
             t.date)
  }

  const ClearedForm: EditForm := EditForm("", "", "Other", "", "")

  /** The page's filter, sort, page and edit state. */
  class Listing {
    var searchQuery: string
    var filterType: FilterType
    var sortType: SortType
    var currentPage: int
    var dateStart: string
    var dateEnd: string
    var editing: Option<Transaction>
    var form: EditForm
    var saving: bool

    ghost predicate Valid()
      reads this
    {
      currentPage >= 1
    }

    function CurrentCriteria(): (c: Criteria)
      reads this
    {
      Criteria(filterType, searchQuery, dateStart, dateEnd)
    }

    constructor()
      ensures Valid()
      ensures searchQuery == "" && filterType == All && sortType == DateDesc && currentPage == 1
      ensures dateStart == "" && dateEnd == "" && editing == None && !saving
      ensures form == EditForm("", "", "", "", "")
    {
      searchQuery, filterType, sortType, currentPage := "", All, DateDesc, 1;
      dateStart, dateEnd := "", "";
      editing, form, saving := None, EditForm("", "", "", "", ""), false;
    }

    /** Typing in the search box returns to page 1. */
    method SetSearch(q: string)
      modifies this
      ensures searchQuery == q && currentPage == 1 && Valid()
      ensures filterType == old(filterType) && sortType == old(sortType)
      ensures dateStart == old(dateStart) && dateEnd == old(dateEnd)
      ensures editing == old(editing) && form == old(form) && saving == old(saving)
    {
      searchQuery, currentPage := q, 1;
    }

    /** Choosing a type filter returns to page 1. */
    method SetFilterType(ft: FilterType)
      modifies this
      ensures filterType == ft && currentPage == 1 && Valid()
      ensures searchQuery == old(searchQuery) && sortType == old(sortType)
      ensures dateStart == old(dateStart) && dateEnd == old(dateEnd)
      ensures editing == old(editing) && form == old(form) && saving == old(saving)
    {
      filterType, currentPage := ft, 1;
    }

    /** Choosing a sort order keeps the current page. */
    method SetSortType(st: SortType)
      modifies this
      ensures sortType == st && currentPage == old(currentPage)
      ensures searchQuery == old(searchQuery) && filterType == old(filterType)
      ensures dateStart == old(dateStart) && dateEnd == old(dateEnd)
      ensures editing == old(editing) && form == old(form) && saving == old(saving)
    {
      sortType := st;
    }

    /** Changing the "from" date returns to page 1. */
    method SetDateStart(d: string)
      modifies this
      ensures dateStart == d && currentPage == 1 && Valid()
      ensures searchQuery == old(searchQuery) && filterType == old(filterType) && sortType == old(sortType)
      ensures dateEnd == old(dateEnd)
      ensures editing == old(editing) && form == old(form) && saving == old(saving)
    {
      dateStart, currentPage := d, 1;
    }

    /** Changing the "to" date returns to page 1. */
    method SetDateEnd(d: string)
      modifies this
      ensures dateEnd == d && currentPage == 1 && Valid()
      ensures searchQuery == old(searchQuery) && filterType == old(filterType) && sortType == old(sortType)
      ensures dateStart == old(dateStart)
      ensures editing == old(editing) && form == old(form) && saving == old(saving)
    {
      dateEnd, currentPage := d, 1;
    }

    method GoToPreviousPage()
      modifies this
      ensures currentPage == PrevPage(old(currentPage)) && Valid()
      ensures CurrentCriteria() == old(CurrentCriteria()) && sortType == old(sortType)
      ensures editing == old(editing) && form == old(form) && saving == old(saving)
    {
      currentPage := PrevPage(currentPage);
    }

    /** The pagination controls exist only when there is more than one page. */
    method GoToNextPage(totalPages: nat)
      requires totalPages > 1
      modifies this
      ensures currentPage == NextPage(old(currentPage), totalPages)
      ensures old(Valid()) && old(currentPage) <= totalPages ==> Valid() && currentPage <= totalPages
      ensures CurrentCriteria() == old(CurrentCriteria()) && sortType == old(sortType)
      ensures editing == old(editing) && form == old(form) && saving == old(saving)
    {
      currentPage := NextPage(currentPage, totalPages);
    }

    /** `resetFilters`: every filter cleared, newest first, page 1. */
    method ResetFilters()
      modifies this
      ensures NoFilter(CurrentCriteria()) && sortType == DateDesc && currentPage == 1 && Valid()
      ensures editing == old(editing) && form == old(form) && saving == old(saving)
    {
      searchQuery, filterType, sortType := "", All, DateDesc;
      dateStart, dateEnd, currentPage := "", "", 1;
    }

    method StartEditing(t: Transaction, amountText: string)
      modifies this
      ensures editing == Some(t) && form == EditFormFor(t, amountText)
      ensures CurrentCriteria() == old(CurrentCriteria()) && sortType == old(sortType)
      ensures currentPage == old(currentPage) && saving == old(saving)
    {
      editing, form := Some(t), EditFormFor(t, amountText);
    }

    method CancelEditing()
      modifies this
      ensures editing == None && form == ClearedForm
      ensures CurrentCriteria() == old(CurrentCriteria()) && sortType == old(sortType)
      ensures currentPage == old(currentPage) && saving == old(saving)
    {
      editing, form := None, ClearedForm;
    }

    /** The Save button is enabled only when no save is running and both the
        amount and the date are filled in. */
    predicate CanSave()
      reads this
    {
      !saving && form.amount != "" && form.date != ""
    }
  }

  /** A form cleared by Cancel, or one for a transaction stored without a
      date, cannot be saved. */
  lemma ClearedFormCannotSave(l: Listing)
    requires l.form == ClearedForm || l.form.date == ""
    ensures !l.CanSave()
  {
  }

  datatype TxConfig = TxConfig(icon: string, color: string, bgColor: string)

  const CategoryConfig: seq<(string, TxConfig)> := [
    ("Food", TxConfig("🍔", "text-orange-600", "bg-gradient-to-br from-orange-100 to-red-100")),
    ("Transport", TxConfig("🚗", "text-blue-600", "bg-gradient-to-br from-blue-100 to-indigo-100")),
    ("Entertainment", TxConfig("🎬", "text-purple-600", "bg-gradient-to-br from-purple-100 to-pink-100")),
    ("Shopping", TxConfig("🛍️", "text-pink-600", "bg-gradient-to-br from-pink-100 to-rose-100")),
    ("Bills", TxConfig("💡", "text-yellow-600", "bg-gradient-to-br from-yellow-100 to-orange-100")),
    ("Health", TxConfig("🏥", "text-green-600", "bg-gradient-to-br from-green-100 to-emerald-100")),
    ("Other", TxConfig("📦", "text-gray-600", "bg-gradient-to-br from-gray-100 to-slate-100"))
  ]

  const SourceConfig: seq<(string, TxConfig)> := [
    ("Salary", TxConfig("💼", "text-green-600", "bg-gradient-to-br from-green-100 to-emerald-100")),
    ("Freelance", TxConfig("💻", "text-blue-600", "bg-gradient-to-br from-blue-100 to-indigo-100")),
    ("Business", TxConfig("🏢", "text-purple-600", "bg-gradient-to-br from-purple-100 to-violet-100")),
    ("Investments", TxConfig("📈", "text-amber-600", "bg-gradient-to-br from-amber-100 to-orange-100")),
    ("Rental", TxConfig("🏠", "text-teal-600", "bg-gradient-to-br from-teal-100 to-cyan-100")),
    ("Gifts", TxConfig("🎁", "text-pink-600", "bg-gradient-to-br from-pink-100 to-rose-100")),
    ("Refunds", TxConfig("💸", "text-lime-600", "bg-gradient-to-br from-lime-100 to-green-100")),
    ("Other", TxConfig("📦", "text-gray-600", "bg-gradient-to-br from-gray-100 to-slate-100"))
  ]

  /** `table[name] || table.Other`. */
  function ConfigIn(table: seq<(string, TxConfig)>, name: string, fallback: TxConfig): TxConfig
  {
    match FindFirst(table, (e: (string, TxConfig)) => e.0 == name)
    case Some(e) => e.1
    case None => fallback
  }

  /** With distinct names, a listed name finds its own entry and an unlisted
      one the fallback. */
  lemma ConfigInSpec(table: seq<(string, TxConfig)>, name: string, fallback: TxConfig)
    requires forall i, j :: 0 <= i < j < |table| ==> table[i].0 != table[j].0
    ensures forall i :: 0 <= i < |table| && table[i].0 == name ==> ConfigIn(table, name, fallback) == table[i].1
    ensures (forall i :: 0 <= i < |table| ==> table[i].0 != name) ==> ConfigIn(table, name, fallback) == fallback
  {
    var r := FindFirst(table, (e: (string, TxConfig)) => e.0 == name);
    if r.Some? {
      var k :| 0 <= k < |table| && table[k] == r.value && table[k].0 == name;
      forall i | 0 <= i < |table| && table[i].0 == name
        ensures ConfigIn(table, name, fallback) == table[i].1
      {
        if i != k {
          assert false;
        }
      }
    }
  }

  /** The name `getTransactionConfig` looks up: the source of an income, the
      category of an expense, "Other" when that is missing or empty. */
  function ConfigName(t: Transaction): (n: string)
    ensures n != ""
  {
    if t.kind == IncomeTx then
      (if t.source.Some? && t.source.value != "" then t.source.value else "Other")
    else
      (if t.category.Some? && t.category.value != "" then t.category.value else "Other")
  }

  function ConfigTable(kind: TxType): seq<(string, TxConfig)>
  {
    if kind == IncomeTx then SourceConfig else CategoryConfig
  }

  /** `getTransactionConfig`. */
  function TransactionConfig(t: Transaction): TxConfig
  {
    if t.kind == IncomeTx then ConfigIn(SourceConfig, ConfigName(t), SourceConfig[7].1)
    else ConfigIn(CategoryConfig, ConfigName(t), CategoryConfig[6].1)
  }

  /** Every transaction gets an entry of its own table: the entry of its name
      when that is listed, the "Other" entry when the name is missing or
      unknown. */
  lemma TransactionConfigSpec(t: Transaction)
    ensures var table := ConfigTable(t.kind);
            && (exists i :: 0 <= i < |table| && TransactionConfig(t) == table[i].1)
            && (forall i :: 0 <= i < |table| && table[i].0 == ConfigName(t) ==> TransactionConfig(t) == table[i].1)
            && ((forall i :: 0 <= i < |table| ==> table[i].0 != ConfigName(t)) ==>
                  exists i :: 0 <= i < |table| && table[i].0 == "Other" && TransactionConfig(t) == table[i].1)
  {
    NamesDistinct();
    var table := ConfigTable(t.kind);
    var other := if t.kind == IncomeTx then 7 else 6;
    assert table[other].0 == "Other";
    assert TransactionConfig(t) == ConfigIn(table, ConfigName(t), table[other].1);
    ConfigWithOther(table, ConfigName(t), other);
  }

  /** `ConfigIn` over a table with distinct names whose entry `other` is the
      "Other" fallback. */
  lemma ConfigWithOther(table: seq<(string, TxConfig)>, name: string, other: nat)
    requires forall i, j :: 0 <= i < j < |table| ==> table[i].0 != table[j].0
    requires other < |table| && table[other].0 == "Other"
    ensures var c := ConfigIn(table, name, table[other].1);
            && (exists i :: 0 <= i < |table| && c == table[i].1)
            && (forall i :: 0 <= i < |table| && table[i].0 == name ==> c == table[i].1)
            && ((forall i :: 0 <= i < |table| ==> table[i].0 != name) ==>
                  exists i :: 0 <= i < |table| && table[i].0 == "Other" && c == table[i].1)
  {
    ConfigInSpec(table, name, table[other].1);
    if forall i :: 0 <= i < |table| ==> table[i].0 != name {
      assert ConfigIn(table, name, table[other].1) == table[other].1;
    } else {
      var i :| 0 <= i < |table| && table[i].0 == name;
      assert ConfigIn(table, name, table[other].1) == table[i].1;
    }
  }

  lemma NamesDistinct()
    ensures forall i, j :: 0 <= i < j < |CategoryConfig| ==> CategoryConfig[i].0 != CategoryConfig[j].0
    ensures forall i, j :: 0 <= i < j < |SourceConfig| ==> SourceConfig[i].0 != SourceConfig[j].0
  {
  }
}
