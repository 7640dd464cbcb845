# Foretrack AI: a verified model of its deterministic core

Foretrack AI is a personal-finance web application. Users record expenses,
incomes and monthly budgets. They see analytics and a transaction ledger, and
they talk to an AI assistant that answers from their spending data. Most of
the application renders pages and calls external services: the Supabase
database, Clerk authentication and the Gemini model. Under that sits a set
of sequential computations, and those are modelled here in Dafny:

- the analytics page: time windows and the window before, totals, change
  and savings rates, the per-category and per-day breakdowns, the top five
  categories, and budget utilisation with its colour bands;
- the transaction ledger: merging expenses and incomes, type, search and
  date filters, the four sort orders, pagination at 15 per page, totals, the
  page buttons, filter resets, and the edit form;
- three loops that fold fetched rows into a per-category spending
  dictionary and a running total. These are the budget overview card, the
  insights panel and the chat widget's context;
- the chat widget's message log, and the insights panel's fallbacks and
  styles;
- the request checks of the three AI routes (chat, insights, categorize);
- how the model's answers are normalised (lib/gemini.ts);
- the currency table and the precedence between the default, stored and
  saved currency;
- the category manager's colour and emoji lookups and its form state.

## How the model is built

- Amounts are exact `real`s. Instants are integers (milliseconds).
- Date strings stay strings. The date parser is a function parameter: the
  analytics page gives `None` for an invalid date, and the ledger sort uses
  a plain `string -> int`.
- A JavaScript object used as a dictionary of running totals becomes two
  things: its keys in first-insertion order, and a map (module `Tally`).
  `Tally.Accumulate` is the loop itself. `Object.entries` does not list keys
  in insertion order: keys that are array indices ("7", "2024") come first,
  in ascending numeric order, then the others in insertion order. Module
  `ObjectKeys` models that order, and the analytics breakdown is listed
  through it before the top five are chosen.
- `Array.prototype.sort` with a `key(a) - key(b)` comparator is stable. It
  therefore has exactly one result, which is `StableSort.Sort`.
  `StableSort.SortInPlace` is an in-place insertion sort on an `array`, proved
  to produce that result. The ledger's in-place sort uses it.
- A request body is a `Json.Value` with JavaScript's `undefined`, `null`,
  NaN and infinities. The route handlers are functions from the user id and
  the parsed body to an `Outcome` (401, 400 with a message, 500 with a
  message, or the accepted call).
- Components whose state the source updates with setters become classes.
  The class fields are that state, and the methods are the handlers. A
  handler's database result, fetch result or model reply is an input, and the write it sends is
  an output.

Modules: `Optional`, `Seqs`, `JsString`, `Json`, `Tally`, `ObjectKeys`, `StableSort`,
`Utilization` (shared helpers); `Analytics`, `Transactions`, `BudgetOverview`,
`SpendingContext`, `AIInsights`, `AIChat`, `RouteChecks`, `ChatRoute`,
`InsightsRoute`, `CategorizeRoute`, `Gemini`, `CurrencySetting`,
`CategoryManager`.

## Model

| member | source | states |
|---|---|---|
| Tally.Keys | app/analytics/page.tsx:192-201 | the dictionary's keys are distinct and include the key of every entry |
| Tally.KeysComeFromEntries | app/analytics/page.tsx:192-201 | every dictionary key was the key of some folded entry |
| Tally.LookupIsSumFor | components/BudgetOverview.tsx:132 | `dict[key] \|\| 0` reads back the sum of that key's amounts, 0 for a key never seen |
| Tally.PartitionSum | components/BudgetOverview.tsx:113-123 | the per-key totals add up to the sum of all folded amounts |
| Tally.KeysSnoc | components/BudgetOverview.tsx:118-119 | one more entry appends its key to the key order exactly when the key is new |
| Tally.SnocStep | components/BudgetOverview.tsx:118-119 | one more entry adds its amount to its own key's total (from 0 for a new key) and to the grand total, and changes no other key |
| Tally.Accumulate | app/analytics/page.tsx:192-213 | the accumulation loop yields the key order, the per-key sums and the grand total |
| ObjectKeys.PropertyOrderPermutes | app/analytics/page.tsx:222 | `Object.entries` lists every key of the dictionary exactly once |
| ObjectKeys.PartsOfPropertyOrder | app/analytics/page.tsx:222 | the leading part of the listing holds only array-index keys and the rest none |
| ObjectKeys.IndicesFirstAscending | app/analytics/page.tsx:222 | array-index keys come before all other keys, in ascending numeric order |
| ObjectKeys.NamedKeysKeepOrder | app/analytics/page.tsx:222 | the keys that are not array indices keep their insertion order |
| ObjectKeys.NoIndexKeepsCreationOrder | app/analytics/page.tsx:222 | without array-index keys the listing is the insertion order itself |
| ObjectKeys.IndexBeforeNamed | app/analytics/page.tsx:222 | an array-index key created after another key is listed before it |
| ObjectKeys.IndexListedFirst | app/analytics/page.tsx:222 | a category "7" created after "Food" is listed before it |
| StableSort.SortSpec | app/transactions/page.tsx:271-284 | the sort is ordered by its key and is a permutation of its input |
| StableSort.SortIsStable | app/transactions/page.tsx:271-284 | elements with equal keys keep their relative order |
| StableSort.SortKeepsSum | app/transactions/page.tsx:301-309 | sorting changes no sum over the elements |
| StableSort.InsertIntoPrefix | app/transactions/page.tsx:271-284 | one inner pass inserts `a[i]` into the sorted prefix and leaves the rest alone |
| StableSort.SortInPlace | app/transactions/page.tsx:271-284 | the in-place sort leaves the array equal to the stable sort of its old contents |
| Utilization.PercentOf | app/analytics/page.tsx:640-643 | 0 for a non-positive whole; otherwise `r * whole == part * 100`, above 100 exactly when part exceeds whole, within [0, 100] for 0 <= part <= whole |
| Utilization.BandOf | app/analytics/page.tsx:673-678 | the three bands are exactly <= 80, (80, 100] and > 100 |
| Utilization.BandMonotone | app/analytics/page.tsx:602-606 | a higher utilisation never falls in a lower band |
| Utilization.BarWidth | app/analytics/page.tsx:624 | the bar width is `min(u, 100)`, never above 100 |
| Analytics.Previous | app/analytics/page.tsx:151-161 | the previous window ends where the current starts, has the same length, is disjoint from it, and the two together cover one contiguous span |
| Analytics.WeekWindow | app/analytics/page.tsx:121-128 | the week window is seven days; a row at its start counts in it and not in the previous week |
| Analytics.PeriodsDisjoint | app/analytics/page.tsx:143-161 | each memo has its own window; no row is counted in both periods when the previous period's window starts no later than the current one, as with a single reading of the clock |
| Analytics.LaterClockOverlaps | app/analytics/page.tsx:122-161 | when the clock moves on (by up to a week) between the two reads, the week windows overlap at the first read's start |
| Analytics.KindsPartitionTotal | app/analytics/page.tsx:164-170 | expense total plus income total is the sum of all row amounts |
| Analytics.TotalsNonNegative | app/analytics/page.tsx:164-170 | totals of non-negative amounts are non-negative |
| Analytics.ChangePercent | app/analytics/page.tsx:180-186 | 0 when the previous total is 0; otherwise the relative change in percent, positive exactly when the total grew |
| Analytics.SavingsRate | app/analytics/page.tsx:188-189 | 0 unless income is positive; otherwise net over income in percent, at most 100, non-negative exactly when expenses do not exceed income |
| Analytics.CategoryKey | app/analytics/page.tsx:196 | a missing category becomes "Other", any other category is kept |
| Analytics.CategoryEntries | app/analytics/page.tsx:192-201 | one breakdown entry per expense row; income rows are skipped |
| Analytics.DailyEntries | app/analytics/page.tsx:204-213 | one daily entry per expense row |
| Analytics.CategoryEntriesTotal | app/analytics/page.tsx:192-213 | the breakdown entries and the daily entries both add up to the expense total |
| Analytics.CategoryEntriesKeys | app/analytics/page.tsx:192-201 | every breakdown entry comes from an expense row, keyed by its category or "Other" |
| Analytics.EntriesOf | app/analytics/page.tsx:222 | `Object.entries` lists each key with its value, in the listing order it is given |
| Analytics.TopCategoriesOrdered | app/analytics/page.tsx:222-224 | the top list has min(5, n) entries taken from the breakdown, in non-increasing amount order |
| Analytics.TopCategoriesLargest | app/analytics/page.tsx:222-224 | no entry left out of the top five is larger than one kept |
| Analytics.PrefixDominates | app/analytics/page.tsx:222-224 | in a list sorted by descending amount, each element of a prefix is at least as large as each later one |
| Analytics.TopCategoriesStable | app/analytics/page.tsx:222-224 | among equal amounts the kept entries are the first ones in the order the breakdown's entries are listed |
| Analytics.AverageDailySpec | app/analytics/page.tsx:204-219 | the daily average is the expense total over the number of distinct expense dates, 0 with none; every expense date is counted |
| Analytics.ListedInBreakdown | app/analytics/page.tsx:192-222 | every key `Object.entries` lists has its total in the dictionary |
| Analytics.CategoryFigures | app/analytics/page.tsx:192-224 | the breakdown is the per-category sums; its keys are listed in JavaScript's property order; the top five are taken from the entries in that order |
| Analytics.Summarize | app/analytics/page.tsx:163-238 | the analytics memo: totals, net, savings rate, both changes, the breakdown in property order, the top five, the daily average and the count, each equal to its specification |
| Analytics.BreakdownPartitionsExpenses | app/analytics/page.tsx:192-201 | the breakdown's values sum to the expense total and it has a key for every expense row |
| Analytics.SharePercent | app/analytics/page.tsx:520-523 | a category's share is 0 with no spending, otherwise amount over total in percent, within [0, 100] |
| Analytics.OverallUtilization | app/analytics/page.tsx:240-242 | expense total over the summed budget limits in percent, 0 when that sum is not positive |
| Analytics.BudgetUtilization | app/analytics/page.tsx:640-643 | a budget's category total (0 when absent) over its limit in percent, 0 for a non-positive limit |
| Analytics.BudgetUtilizationSpent | app/analytics/page.tsx:640-643 | per-budget utilisation is the category's expense sum over the limit |
| Analytics.ShownBudgets | app/analytics/page.tsx:639 | `slice(0, 4)`: a prefix of the budgets of length exactly min(4, count), so all of them when there are at most four |
| Analytics.SavingsBarWidth | app/analytics/page.tsx:480 | the savings bar width is the rate clamped to [0, 100] |
| Analytics.SavingsRateBand | app/analytics/page.tsx:484-488 | the savings colour bands are exactly >= 20, [10, 20) and < 10 |
| Transactions.MapExpenses | app/transactions/page.tsx:218-228 | one expense-typed transaction per expense, in order |
| Transactions.MapIncomes | app/transactions/page.tsx:229-239 | one income-typed transaction per income, in order |
| Transactions.Merge | app/transactions/page.tsx:217-241 | the merged list has both lengths added, every expense before every income, each typed by its origin |
| Transactions.FilteredIsOneFilter | app/transactions/page.tsx:243-268 | the chain of type, search and date filters is one filter by their conjunction |
| Transactions.FilteredSpec | app/transactions/page.tsx:247-268 | the result is a sub-list; a type filter, a query and date bounds each hold of every result, and every accepted row is kept |
| Transactions.ViewSpec | app/transactions/page.tsx:271-284 | the sorted view is a permutation of the filtered list, ordered by the chosen key, stable for equal keys |
| Transactions.FilteredAndSorted | app/transactions/page.tsx:243-287 | without filters the state's own array is sorted in place and returned; with filters a fresh array is sorted and the original is untouched; the contents are the view |
| Transactions.TotalPages | app/transactions/page.tsx:297-299 | the page count is `ceil(n / 15)` |
| Transactions.PageSpec | app/transactions/page.tsx:289-295 | a page holds at most 15 items, exactly the right count for a page in range, none beyond |
| Transactions.PagesUpToPrefix | app/transactions/page.tsx:289-295 | the first k pages together are the list's first min(15k, n) items |
| Transactions.PagesReassemble | app/transactions/page.tsx:289-299 | pages 1..totalPages concatenated give back the filtered list |
| Transactions.TotalsSpec | app/transactions/page.tsx:301-309 | totals are over the whole filtered list (sorting changes nothing), income plus expense is the sum of amounts, net is their difference |
| Transactions.PrevPage | app/transactions/page.tsx:830 | the previous page never goes below 1 |
| Transactions.NextPage | app/transactions/page.tsx:842 | the next page never goes past the last page; from within range it is the following page or stays on the last, and from the last page or beyond it is the last page |
| Transactions.EditFormFor | app/transactions/page.tsx:332-341 | the edit form takes the row's amount text, date, category and description (a missing category or description becoming "") and its source (a missing or empty one becoming "Other") |
| Transactions.Listing.constructor | app/transactions/page.tsx:163-181 | the ledger starts unfiltered, newest first, on page 1, not editing |
| Transactions.Listing.SetSearch | app/transactions/page.tsx:587-590 | a new query resets to page 1 and changes nothing else |
| Transactions.Listing.SetFilterType | app/transactions/page.tsx:627-630 | a new type filter resets to page 1 and changes nothing else |
| Transactions.Listing.SetSortType | app/transactions/page.tsx:646 | a new sort order keeps the page |
| Transactions.Listing.SetDateStart | app/transactions/page.tsx:664-669 | a new start date resets to page 1 |
| Transactions.Listing.SetDateEnd | app/transactions/page.tsx:683-688 | a new end date resets to page 1 |
| Transactions.Listing.GoToPreviousPage | app/transactions/page.tsx:830 | the page becomes `max(1, page - 1)` |
| Transactions.Listing.GoToNextPage | app/transactions/page.tsx:842 | the page becomes `min(totalPages, page + 1)` and stays in range |
| Transactions.Listing.ResetFilters | app/transactions/page.tsx:412-418 | all filters cleared, newest first, page 1 |
| Transactions.Listing.StartEditing | app/transactions/page.tsx:332-341 | editing the row with its edit form |
| Transactions.Listing.CancelEditing | app/transactions/page.tsx:343-353 | not editing, the form cleared with source "Other" |
| Transactions.ClearedFormCannotSave | app/transactions/page.tsx:1031 | Save is disabled for the cleared form, whose amount and date are empty |
| Transactions.ConfigInSpec | app/transactions/page.tsx:403-410 | with distinct names, a listed name finds its entry and an unlisted one the fallback |
| Transactions.ConfigName | app/transactions/page.tsx:403-410 | the lookup name is never empty |
| Transactions.ConfigWithOther | app/transactions/page.tsx:403-410 | over a table with distinct names and an "Other" entry, the lookup always yields an entry: the name's own, or "Other" when it is unlisted |
| Transactions.TransactionConfigSpec | app/transactions/page.tsx:403-410 | every transaction gets an entry of its table: its own name's, or "Other" |
| Transactions.NamesDistinct | app/transactions/page.tsx:49-132 | the category and source tables have distinct names |
| BudgetOverview.Entries | components/BudgetOverview.tsx:116-121 | one (category, amount) entry per fetched row, in order |
| BudgetOverview.StatFor | components/BudgetOverview.tsx:130-142 | a stat keeps the budget's id, category, amount and period; spent is the category's total or 0; the percentage is spent over amount |
| BudgetOverview.StatsFor | components/BudgetOverview.tsx:130-143 | exactly one stat per budget, in order |
| BudgetOverview.StatsSpent | components/BudgetOverview.tsx:113-142 | each stat's spent is the sum of its category's amounts |
| BudgetOverview.SpendingMapSpec | components/BudgetOverview.tsx:113-123 | the map is keyed by exactly the raw categories that occur, with no "Other" default, and its values add up to the total |
| BudgetOverview.OverallPercentage | components/BudgetOverview.tsx:200-201 | total spent over total budget in percent, 0 when the budget is not positive |
| BudgetOverview.Label | components/BudgetOverview.tsx:374-381 | "Over budget!" exactly above 100%, otherwise the non-negative remainder to 100 |
| BudgetOverview.Tone | components/BudgetOverview.tsx:466-472 | red above 100, amber above 80 up to 100, the category colour otherwise |
| BudgetOverview.LabelMatchesBar | components/BudgetOverview.tsx:374-381 | the label says over budget exactly when the bar is red, and the bar follows the shared bands |
| BudgetOverview.Overview.constructor | components/BudgetOverview.tsx:75-78 | no stats, zero totals, loading |
| BudgetOverview.Overview.FetchBudgetStats | components/BudgetOverview.tsx:89-150 | without a user nothing changes; on a query error the stats and totals stay and loading ends; otherwise the loop's total, the budget total and the stats equal their specifications |
| SpendingContext.Entries | components/AIInsights.tsx:62-74 | one (category, amount) entry per fetched row, in order |
| SpendingContext.BudgetFor | components/AIInsights.tsx:76-86 | a budget's spent is its category's total or 0, and its percentage is spent over amount |
| SpendingContext.BudgetsFor | components/AIChat.tsx:72-82 | exactly one budget entry per budget, in order |
| SpendingContext.EntriesTotal | components/AIChat.tsx:56-70 | the running total is the sum of the amounts |
| SpendingContext.ContextSpec | components/AIInsights.tsx:59-86 | the context keeps every expense in order, sums all amounts, and gives each budget its category's spending and a 0 percentage for a non-positive amount |
| SpendingContext.BuildContext | components/AIChat.tsx:56-84 | the loop over the rows builds exactly that context |
| AIInsights.Panel.constructor | components/AIInsights.tsx:28-30 | no insights, loading, no error |
| AIInsights.Panel.FetchInsights | components/AIInsights.tsx:32-128 | without a user nothing happens; a query error or a failed request gives the one "Track Your Spending" tip and the error text; no expenses gives the one "Start Tracking" tip and sends nothing; otherwise the context is sent and the reply's insights shown |
| AIInsights.TypeStylesSpec | components/AIInsights.tsx:135-166 | warning, achievement and suggestion each have their own style, and every other type the default style |
| AIInsights.DisplayIcon | components/AIInsights.tsx:263 | the icon-map entry when the emoji is mapped, else the type's icon |
| AIInsights.IconMapSpec | components/AIInsights.tsx:18-24 | every icon is reachable from some emoji; the two fixed tips show the rocket and the light bulb |
| AIChat.FinancialContext | components/AIChat.tsx:36-88 | no user or a failure gives the empty context, otherwise the built context |
| AIChat.ReplyMessage | components/AIChat.tsx:108-120 | the reply is one assistant message carrying the response (possibly missing), or the fixed apology on failure |
| AIChat.ChatWidget.constructor | components/AIChat.tsx:17-25 | the log starts with exactly the greeting, empty input, not loading, and the suggested questions are shown |
| AIChat.ChatWidget.SetInput | components/AIChat.tsx:289 | typing changes only the input |
| AIChat.ChatWidget.BeginSubmit | components/AIChat.tsx:91-98 | a blank input or a request in flight does nothing; otherwise the trimmed message is sent and appended as a user message, the input cleared and loading set |
| AIChat.ChatWidget.Complete | components/AIChat.tsx:100-123 | exactly one assistant message is appended and loading ends |
| AIChat.FirstExchange | components/AIChat.tsx:255 | across `handleSubmit`, the suggested questions (`messages.length <= 2`) show on a fresh widget and while the first request is in flight, and are gone after the reply exactly when the submitted text was not blank |
| AIChat.SentMessageNotBlank | components/AIChat.tsx:93-95 | a sent message is never blank and is already trimmed |
| RouteChecks.Status | app/api/ai/chat/route.ts:39-145 | status 200 exactly for an accepted request |
| RouteChecks.ValidatorsSpec | app/api/ai/chat/route.ts:10-34 | the expense validator accepts exactly objects with a string category, a non-negative non-NaN amount and a string date; the budget validator also needs a non-NaN `spent` and a numeric `percentage` |
| RouteChecks.ClampTotal | app/api/ai/chat/route.ts:122-125 | the total is never negative or NaN; a valid non-negative total is kept, anything else becomes 0 |
| RouteChecks.SanitizeSpec | app/api/ai/chat/route.ts:128-130 | the sanitised text has no angle bracket, is within the limit and no longer than its input, and keeps every other character when the input fits |
| ChatRoute.AuthFirst | app/api/ai/chat/route.ts:39-44 | 401 exactly without a user id; an unreadable body is a 500 |
| ChatRoute.MessageChecks | app/api/ai/chat/route.ts:55-75 | missing or empty message is "required", whitespace only "cannot be empty", trimmed over 1000 "too long"; otherwise the context checks decide |
| ChatRoute.CheckContext | app/api/ai/chat/route.ts:78-116 | past the message checks, the answer is a 400 or the accepted call, never a 401 or 500 |
| ChatRoute.ContextChecks | app/api/ai/chat/route.ts:78-116 | context, expenses array and cap, budgets array and cap are checked in this order; the first failure decides, and passing all is accepted |
| ChatRoute.AcceptedSpec | app/api/ai/chat/route.ts:101-136 | an accepted call has the bracket-free trimmed message within 1000, only valid expenses and budgets in order within the caps, and a clamped total |
| InsightsRoute.Classification | app/api/ai/insights/route.ts:42-85 | 401 without a user, 500 for an unreadable body, then the expenses and budgets checks in order; accepted exactly when all pass |
| InsightsRoute.AcceptedSpec | app/api/ai/insights/route.ts:70-100 | only valid elements are passed on, in order and within the caps, with a clamped total |
| CategorizeRoute.Classification | app/api/ai/categorize/route.ts:12-44 | 401, 500, then "required", "cannot be empty", "too long" in order; accepted exactly when the trimmed description has 1 to 500 characters |
| CategorizeRoute.AcceptedSpec | app/api/ai/categorize/route.ts:47-51 | the categorised text is the trimmed description without brackets, at most 500 characters |
| Gemini.TextOr | lib/gemini.ts:116-119 | `text \|\| fallback`: a non-empty text is passed through, a missing or empty one gives the fallback |
| Gemini.CategorizeExpense | lib/gemini.ts:126-155 | the category is always one of the seven listed |
| Gemini.CategorizeExpenseSpec | lib/gemini.ts:149-154 | a listed trimmed answer is returned as that trim; any other, blank or missing answer and a failure give "Other" |
| Gemini.StripFences | lib/gemini.ts:71-74 | the cleaned text has no leading or trailing whitespace |
| Gemini.StripFencesPlain | lib/gemini.ts:71-74 | an answer without backticks is only trimmed |
| Gemini.StripFencesFenced | lib/gemini.ts:177-180 | a fenced JSON answer gives back its trimmed body |
| Gemini.ParsedOr | lib/gemini.ts:63-88 | a failed call or an unparsable answer gives the fallback, otherwise the parsed value |
| Gemini.GenerateInsights | lib/gemini.ts:77-88 | on failure exactly one "tip" insight with the light bulb |
| Gemini.GenerateSavingsTips | lib/gemini.ts:182-189 | on failure exactly the three fixed tips |
| Gemini.ParseFailureFallsBack | lib/gemini.ts:170-189 | an answer that does not parse gives the fixed fallbacks |
| Gemini.GenerateSpendingAnalysis | lib/gemini.ts:110-123 | never empty; the answer's text when present, else the fixed encouragement |
| Gemini.ChatWithAI | lib/gemini.ts:211-224 | never empty; a non-empty answer is passed through unchanged, a failure gives the error reply, an empty answer the help reply |
| CurrencySetting.CodesDistinct | lib/currency.tsx:13-29 | the currency codes are pairwise distinct |
| CurrencySetting.FindIn | lib/currency.tsx:54 | in any table, a code finds an entry with that code, or nothing exactly when no entry has it |
| CurrencySetting.FindByCode | lib/currency.tsx:54 | a code finds a table entry with that code, or nothing exactly when no entry has it |
| CurrencySetting.FindByCodeFindsEntry | lib/currency.tsx:13-29 | every listed code finds its own entry |
| CurrencySetting.EmptyCodeUnknown | lib/currency.tsx:53 | the empty code names no currency |
| CurrencySetting.Known | lib/currency.tsx:53-54 | a missing code names nothing; a present one names the table entry with that code, if any |
| CurrencySetting.Resolve | lib/currency.tsx:52-55 | a known code selects its currency; a missing or unknown one leaves the current currency; the result is the current currency or a listed one |
| CurrencySetting.AfterUserLoadSpec | lib/currency.tsx:66-87 | a known saved code wins over the stored one and is stored; otherwise the stored code's currency is kept, or the current one |
| CurrencySetting.AfterUserLoadListed | lib/currency.tsx:66-87 | after loading the user's setting the currency is the current one or one of the table |
| CurrencySetting.Provider.constructor | lib/currency.tsx:44-45 | the initial currency is the first entry, USD, and loading is set |
| CurrencySetting.Provider.LoadUserCurrency | lib/currency.tsx:61-93 | without a user nothing changes; otherwise the state follows the precedence and loading ends |
| CurrencySetting.Provider.OnAuthChange | lib/currency.tsx:47-59 | nothing before auth has loaded; a signed-in user loads the saved setting, a signed-out one applies the stored code; loading ends either way |
| CurrencySetting.Provider.SetCurrency | lib/currency.tsx:95-115 | state and storage always follow the choice; the settings upsert is sent exactly for a signed-in user |
| CategoryManager.EmojiKeysDistinct | components/CategoryManager.tsx:25-252 | the emoji tab labels are distinct |
| CategoryManager.ColorNamesDistinct | components/CategoryManager.tsx:255-399 | the colour names are distinct |
| CategoryManager.FindNamed | components/CategoryManager.tsx:582 | in any option list, a name finds an option with that name, or nothing exactly when none has it |
| CategoryManager.FindColorAt | components/CategoryManager.tsx:580-585 | every listed colour name finds its own option |
| CategoryManager.FindColor | components/CategoryManager.tsx:582 | the lookup finds an option with that name, or nothing exactly when none has it |
| CategoryManager.Gray | components/CategoryManager.tsx:583 | the "Gray" option exists in the table; it is the 24th entry |
| CategoryManager.GetColorConfig | components/CategoryManager.tsx:580-585 | the result is always an option of the table: the named one, or "Gray" |
| CategoryManager.GetColorConfigListed | components/CategoryManager.tsx:580-585 | a listed name finds its own option |
| CategoryManager.GetColorConfigUnlisted | components/CategoryManager.tsx:580-585 | an unlisted name gets the table's "Gray" option |
| CategoryManager.FlattenSpec | components/CategoryManager.tsx:447-449 | all emojis holds every group's emojis and nothing else |
| CategoryManager.FilteredEmojisSpec | components/CategoryManager.tsx:453-462 | a blank search gives the active group or nothing for an unknown key; a non-blank one gives all emojis unfiltered |
| CategoryManager.GetFilteredEmojisSpec | components/CategoryManager.tsx:453-462 | on the picker's own table a blank search on a tab shows that tab |
| CategoryManager.SaveErrorMessage | components/CategoryManager.tsx:524-535 | code "23505" gives the duplicate-name message, anything else the generic one |
| CategoryManager.SubmitWrite | components/CategoryManager.tsx:489-517 | nothing without a user or with a blank name; otherwise the trimmed name with the form's icon and colour, an update exactly when editing, else an insert for the user |
| CategoryManager.SubmitWriteName | components/CategoryManager.tsx:491-512 | the written name is non-empty and has no edge whitespace |
| CategoryManager.BlankFormNeverSubmits | components/CategoryManager.tsx:491 | the blank form is never submitted |
| CategoryManager.Manager.constructor | components/CategoryManager.tsx:402-423 | the form starts blank and hidden, and the first emoji tab is active |
| CategoryManager.Manager.HandleSubmit | components/CategoryManager.tsx:489-539 | the write as specified; after a save the form is blank, hidden, not editing and the list refreshed; after a failure the form is kept and the mapped alert shown |
| CategoryManager.Manager.FinishSave | components/CategoryManager.tsx:518-539 | after a save the form is blank, hidden, not editing and the list is refreshed; after a failure the form stays and the mapped alert is shown; saving ends and the pickers are untouched |
| CategoryManager.Manager.StartEditing | components/CategoryManager.tsx:541-549 | editing the category with its name, icon and colour, form shown |
| CategoryManager.Manager.CancelForm | components/CategoryManager.tsx:571-578 | form blank, hidden, not editing, both pickers closed, search cleared |
| CategoryManager.Manager.SelectEmoji | components/CategoryManager.tsx:587-591 | only the icon changes; the emoji picker closes and its search clears |
| CategoryManager.Manager.SelectColor | components/CategoryManager.tsx:593-596 | only the colour changes and the colour picker closes |

## Left out

- Database queries, authentication, `fetch` to the routes, the model call
  and `JSON.parse` are I/O or foreign code. Their results are inputs: `Fetch`
  rows or `QueryError`, a `ModelReply`, a `parse` function parameter. The
  writes they perform are outputs of the methods.
- Date parsing, `toISOString`, and the `setMonth`/`setFullYear` calendar
  arithmetic of `getDateRange` are functions or values supplied by the
  caller. The month, quarter and year window starts are therefore inputs.
- Analytics.PeriodsDisjoint: the two memos read the clock separately, and the
  model does not fix how far apart the reads are. Disjointness is proved only
  when the previous period's window starts no later than the current one, as
  with a single reading; `LaterClockOverlaps` shows the overlap otherwise.
- Analytics.DateRange: the week's `setDate(getDate() - 7)` moves back seven
  local calendar days. The model moves back exactly 7 × 86 400 000 ms, which
  is an hour off when a daylight-saving change falls inside the week,
  because local time zones are not modelled.
- Floating point is not modelled: amounts are exact reals, so
  `parseFloat(x.toString())` is the identity and `toFixed` rounding is
  display only. The ledger's edit form takes the amount's text as an input.
- Strings are sequences of code points, not of UTF-16 code units, so
  `length` and `substring` count code points.
- `toLowerCase` folds only ASCII letters, and string comparison is by code
  point.
- The ledger sort assumes dates that parse: for an invalid date JavaScript's
  sort key is NaN, and the comparator is then inconsistent.
- Keys inherited from `Object.prototype` are not modelled, in the
  dictionaries or in `categoryConfig`/`sourceConfig`/`emojiCategories`.
  An own key is always assumed.
- Asynchronous ordering is not modelled: stale responses, React's batching
  of state updates, and the click-outside handlers that close the pickers.
- Gemini.GenerateInsights: `JSON.parse` output is cast to the insight type
  without a check. The model's parser returns insights directly.
- `deleteCategory` and `fetchCategories` in the category manager only query
  the database, so they are not modelled. `formatAmount` is `Intl` formatting
  and is not modelled either.
- Rendering, animations and styles beyond the colour bands and style
  classes above are not modelled.
