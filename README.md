# Budget tracker core, modelled in Dafny

This project models the budgeting core of a bi-monthly personal budget
tracker. The core has five parts:

- **Periods.** A budgeting period is the 1st–15th or the 16th–last day of a
  calendar month. The period calculator gives a period's inclusive bounds and
  its label.
- **Income.** Each income source carries a frequency (none, weekly, biweekly,
  monthly, yearly). The frequency normaliser turns its amount into a monthly
  equivalent. A period counts half of that, except that income without a
  frequency counts in full.
- **Store.** The database has three tables: income sources, budget
  categories and transactions. The create/update/delete actions change them.
  Deleting a category deletes its transactions through a cascading foreign
  key.
- **Reports.** The read actions report each category's spending in a period,
  and list the period's transactions joined with their categories, by date.
- **Pages.** The dashboard and the budget page compute totals,
  over-budget markers, the income balance and the per-category rows from
  those reads.

Modules, in dependency order:

- `Common` — option values, order-keeping filters, key columns, unique
  keys and a stable insertion sort that stands for `ORDER BY`.
- `Calendar` — local date-times at one-second precision, Gregorian month
  lengths, the JavaScript "day 0 of the next month" idiom and
  chronological order.
- `Schema` — the enums, the row types, column defaults, `decimal(12, 2)`,
  and the integrity rules of the database (`TablesConsistent`).
- `Periods` — `getPeriodBounds` and what a period contains.
- `Income` — the multiplier table, monthly and period income, and the
  period-income loop as a method.
- `Aggregation` — the grouped spending sums (a loop building the spending
  map), the spending report and the transaction join/filter/sort.
- `Actions` — a `Store` class holding the three tables as sequences. Its
  create/update/delete methods preserve `TablesConsistent`, and its read
  members state what each query returns.
- `Format` — `getCurrentPeriodLabel`.
- `Dashboard` and `BudgetPage` — the arithmetic of the two pages.

Conventions of the model:

- Months are 1-based, January being 1; JavaScript's `getMonth` counts from 0.
- Money is an exact `real`. A value the `decimal(12, 2)` column can hold
  satisfies `Schema.IsMoney`.
- The random uuid and `defaultNow()` the database supplies are parameters
  (`id`, `now`). The clock read by `new Date()` for the default period is
  the `periodDate` parameter.
- Apart from an id that is not a uuid (see "## Left out"), a statement the
  database would refuse makes the modelled action return `ok == false` and leaves every table unchanged. These are:
  - a duplicate key;
  - a label outside an enum;
  - an amount that is not `decimal(12, 2)`;
  - a transaction naming a category that does not exist;
  - an invalid date.

Notes on the code that the model follows:

- Only the forms ask for a positive amount
  (app/income/add-income-dialog.tsx:37,
  app/transactions/add-transaction-dialog.tsx:61-66). Neither the schema
  nor the actions enforce a sign, so the model allows any `decimal(12, 2)`
  amount.
- The budget page's captions speak of "16th–30th"
  (app/budget/page.tsx:43). The label and the bounds use the real last day
  of the month (lib/format.ts:19, lib/db/actions.ts:118), and so does the
  model.
- The transaction query is an inner join (lib/db/actions.ts:153), so a
  transaction whose category is missing is not listed. Under the
  database's integrity rules the join drops nothing
  (`TransactionsForPeriodTotal`).

## Model

| member | source | states |
|---|---|---|
| Calendar.LastDayViaDayZero | lib/db/actions.ts:118 | `new Date(y, m + 1, 0)` rolls December over into January of the next year and steps back one day; the day it lands on is the length of month `m`, leap Februaries included (years 0–99 as given; see "## Left out") |
| Periods.PeriodBounds | lib/db/actions.ts:105-122 | days 1–15 give the 1st 00:00:00 to the 15th 23:59:59 of the same month; later days give the 16th 00:00:00 to the month's last day 23:59:59; both bounds are valid date-times |
| Periods.PeriodMembership | lib/db/actions.ts:105-122 | a valid time lies within a date's period iff it has the same year and month and falls in the same half of the month |
| Periods.DateInOwnPeriod | lib/db/actions.ts:105-122 | the reference date lies inside its own period |
| Periods.HalvesPartitionMonth | lib/db/actions.ts:113-119 | the two halves of a month are disjoint and together hold exactly the times of that month |
| Periods.PeriodBoundsStable | lib/db/actions.ts:105-122 | every time inside a period maps back to the same period |
| Periods.FifteenthLastSecondInFirstHalf | lib/db/actions.ts:115-117 | 15th 23:59:59 belongs to the first half and not to the second |
| Schema.ParseFrequency | lib/db/schema.ts:11-17 | a label is accepted exactly when it is one of the five `income_frequency` labels, and maps to the value with that label |
| Schema.ParseCategoryType | lib/db/schema.ts:19-24 | a label is accepted exactly when it is one of the four `budget_category_type` labels |
| Schema.LabelsRoundTrip | lib/db/schema.ts:11-24 | every enum value survives the trip through its stored label |
| Schema.InsertedIncomeSource | lib/db/schema.ts:26-33 | an inserted income source keeps the given fields; frequency defaults to monthly, the active flag to 1, the creation time to now |
| Schema.InsertedBudgetCategory | lib/db/schema.ts:35-44 | an inserted category keeps the given fields; its type defaults to expense |
| Income.MonthlyMultipliers | lib/db/actions.ts:15-25 | the monthly equivalent is 0 for none, ×4.33 weekly, ×2.17 biweekly, ×1 monthly, ÷12 yearly, and ×1 for a label missing from the table |
| Income.ActiveSources | lib/db/actions.ts:27-29 | exactly the sources whose active flag is 1, each as often as in the table and in table order |
| Income.MonthlyIncomeMatchesReduce | lib/db/actions.ts:31-37 | the monthly income is `getTotalMonthlyIncome`'s left-to-right `reduce` from 0 of each source's monthly equivalent |
| Income.InactiveSourcesIgnored | lib/db/actions.ts:27-37 | when no source is active, the monthly and the period income are both 0 |
| Income.TotalPeriodIncome | lib/db/actions.ts:124-136 | the loop's total is the period income: each source without a frequency counts in full, each other source counts half its monthly equivalent |
| Income.PeriodIncomeIsHalfMonthlyPlusUnscheduled | lib/db/actions.ts:31-37 | period income = monthly income / 2 + the income that has no frequency |
| Income.PeriodIncomeExample | lib/db/actions.ts:124-136 | a monthly 100 and a frequency-less 50 give period income 100 and monthly income 100 |
| Aggregation.SpendingByCategory | lib/db/actions.ts:163-193 | one row per category, in table order, with the category's fields, its spending in the period and `remaining = allocated − spent` |
| Aggregation.SpendingRows | lib/db/actions.ts:181-192 | one entry per category in the order given, with the map's sum for its id or 0 when the map has none (`?? 0`), and remaining = allocated − spent |
| Aggregation.SpentByCategory | lib/db/actions.ts:168-180 | the grouped sums: a key exactly for the categories with a transaction dated in the period, holding the sum of those transactions |
| Aggregation.NoSpendingMeansZero | lib/db/actions.ts:182 | a category without a group in the period has spent 0 (the `?? 0`) |
| Aggregation.SpentCoversWindow | lib/db/actions.ts:168-176 | with unique category ids and no dangling reference, the categories' spending sums to the total of all transactions dated in the period |
| Aggregation.SpendingAfterCascade | lib/db/schema.ts:49-51 | after a category and its transactions are deleted, the spending report is the old report without that category's row, the other rows unchanged |
| Aggregation.CategorySpentWithout | lib/db/schema.ts:49-51 | deleting one category's transactions leaves every other category's spending unchanged |
| Aggregation.FindCategory | lib/db/actions.ts:152-156 | the join partner of a category id is a category with that id, and is missing only when no category has it |
| Aggregation.FindCategoryUnique | lib/db/actions.ts:152-156 | with unique category ids the join partner is the one category with that id |
| Aggregation.JoinsToUnique | lib/db/actions.ts:152-156 | with unique category ids a transaction's joined row is determined by the transaction and its category |
| Aggregation.JoinInWindowMembership | lib/db/actions.ts:142-158 | a joined row is produced exactly for a transaction dated in the period whose category exists |
| Aggregation.EarlierOrSameTotalPreorder | lib/db/actions.ts:158 | ordering by date is total and transitive |
| Aggregation.TransactionsForPeriod | lib/db/actions.ts:138-161 | the rows are ordered by date and are a permutation of the period's joined rows |
| Aggregation.TransactionsForPeriodMembership | lib/db/actions.ts:138-161 | a row is listed exactly when it is the join of a transaction dated in the period with its existing category |
| Aggregation.FindCategoryWithout | lib/db/schema.ts:49-51 | after a category is deleted, the join finds no partner for its id and the same partner as before for every other id |
| Aggregation.TransactionsAfterCascade | lib/db/schema.ts:49-51 | after a category delete, the period lists exactly the rows it listed before, less those of the deleted category |
| Aggregation.TransactionsForPeriodTotal | lib/db/actions.ts:138-161 | with no dangling reference, the listed amounts sum to the total of all transactions dated in the period |
| Actions.TextOrderTotal | lib/db/actions.ts:62 | any two names are comparable |
| Actions.TextOrderTransitive | lib/db/actions.ts:62 | name order is transitive |
| Actions.NameOrderTotalPreorder | lib/db/actions.ts:62 | ordering categories by name is a total preorder |
| Actions.Patched | lib/db/actions.ts:84-91 | an update overwrites a field only when it is supplied, a name only when non-empty; the id and creation time are kept |
| Actions.Store.constructor | lib/db/schema.ts:26-55 | the empty database satisfies the integrity rules |
| Actions.Store.CreateIncomeSource | lib/db/actions.ts:39-52 | succeeds iff the id is new, the frequency is an enum label and the amount fits `decimal(12, 2)`; then appends the row with its defaults, else changes nothing; the integrity rules are kept |
| Actions.Store.DeleteIncomeSource | lib/db/actions.ts:54-59 | removes exactly the source with that id and nothing else; the integrity rules are kept |
| Actions.Store.CreateBudgetCategory | lib/db/actions.ts:65-78 | succeeds iff the id is new, the type is an enum label and the allocation fits `decimal(12, 2)`; then appends the row, else changes nothing |
| Actions.Store.UpdateBudgetCategory | lib/db/actions.ts:80-95 | succeeds iff a supplied type is an enum label and a supplied allocation fits; then patches the row with that id and leaves every other row as it was |
| Actions.Store.DeleteBudgetCategory | lib/db/actions.ts:97-103 | removes the category and exactly its transactions (the cascade); every period's spending report loses that category's row and nothing else; the integrity rules are kept |
| Actions.Store.CreateTransaction | lib/db/actions.ts:195-210 | succeeds iff the id is new, the category exists, the amount fits and the date is valid; then appends the row, else changes nothing |
| Actions.Store.DeleteTransaction | lib/db/actions.ts:212-217 | removes exactly the transaction with that id |
| Actions.Store.GetIncomeSources | lib/db/actions.ts:27-29 | exactly the stored sources whose active flag is 1, each as often as stored and in table order |
| Actions.Store.GetTotalPeriodIncome | lib/db/actions.ts:124-136 | the period income of the active sources, which is half their monthly income plus their frequency-less income |
| Actions.Store.GetBudgetCategories | lib/db/actions.ts:61-63 | every stored category once, ordered by name |
| Actions.Store.GetTransactions | lib/db/actions.ts:138-161 | rows ordered by date; a row is listed iff it joins a stored transaction dated in the reference date's period with its existing category, carrying that category's name and type, each join once; every row names a live category |
| Actions.Store.GetSpendingByCategory | lib/db/actions.ts:163-193 | the grouped-sum implementation yields the spending report of the stored tables for the reference date's period |
| Actions.Store.SpendingCoversPeriod | lib/db/actions.ts:138-193 | over the store's consistent tables, the report's spending total and the listed transactions both sum to the total of the transactions dated in the period |
| Format.PeriodLabel | lib/format.ts:11-20 | the label's second character tells the halves apart, and the month's short name and the year sit at fixed places after the day range |
| Format.MonthName | lib/format.ts:13 | a short month name is three characters |
| Format.MonthNameInjective | lib/format.ts:13 | distinct months have distinct short names |
| Format.NatToStringInjective | lib/format.ts:18-19 | different numbers are written differently |
| Format.IntToStringInjective | lib/format.ts:18-19 | different years are written differently |
| Format.MonthEndSuffix | lib/format.ts:16 | for the days a month can end on, the correct ordinal suffix is "st" on the 31st and "th" otherwise |
| Format.LabelNamesPeriod | lib/format.ts:11-20 | the label is the ordinal of the period's first day, an en dash, the ordinal of its last day, the month's short name and the year |
| Format.LabelIdentifiesPeriod | lib/format.ts:11-20 | two dates get the same label iff they lie in the same period |
| Dashboard.FoldsMatchReduce | app/page.tsx:25-29 | the budget and spending totals are the page's left-to-right `reduce` from 0 over the report rows |
| Dashboard.AllocatedMinusSpent | app/page.tsx:25-29 | total budget minus total spent is the sum of the per-category remainders |
| Dashboard.TotalSpentOfReport | app/page.tsx:29 | the dashboard's spent total is the sum of each category's period spending |
| Dashboard.TotalSpentIsWindowTotal | app/page.tsx:29 | over consistent tables, "Spent This Period" is the total of the transactions dated in the period |
| Dashboard.OverBudget | app/page.tsx:30 | exactly the report rows with a negative remainder, each as often as in the report and in report order |
| Dashboard.OverBudgetMeansOverspent | app/page.tsx:30 | a category is flagged over budget iff its period spending exceeds its allocation |
| Dashboard.Overage | app/page.tsx:94 | the amount shown as "over" is positive and equals spending minus allocation |
| Dashboard.FirstListed | app/page.tsx:159 | as written: the first up to five rows of the date-ascending list |
| Dashboard.FirstListedAreEarliest | app/page.tsx:159 | as written, the rows shown are the period's earliest |
| Dashboard.LatestNotShown | app/page.tsx:159 | as written, with more than five rows the latest one is not shown once it is later than the fifth |
| Dashboard.RecentListMissesLatestExample | app/page.tsx:159 | six transactions on consecutive days: the latest is not shown |
| Dashboard.MostRecent | app/page.tsx:159 | corrected: up to five rows, each taken from the list |
| Dashboard.MostRecentAreLatest | app/page.tsx:159 | corrected: the rows shown are the latest, newest first, and no row left out is later than one shown |
| Dashboard.DashboardOverview | app/page.tsx:18-30 | the overview carries the period income, the two totals as the page's `reduce`, exactly the rows with remaining < 0, each as often as in the report and in report order, and, as written, the first five rows of the listed transactions |
| Dashboard.OverviewOfDatabase | app/page.tsx:25-30 | when both reads see the same consistent tables and the same period, the spent figure is the period's transaction total (also the total of the listed transactions), and budget minus spent is the sum of the remainders |
| BudgetPage.TotalAllocatedMatchesReduce | app/budget/page.tsx:30-33 | the total budget is the page's left-to-right `reduce` from 0 of the allocations |
| BudgetPage.TotalAllocatedSorted | app/budget/page.tsx:30-33 | the total budget does not depend on the order of the categories |
| BudgetPage.ReportAllocated | app/page.tsx:25-28 | the dashboard's budget total equals the categories' total allocation |
| BudgetPage.SameBudgetOnBothPages | app/budget/page.tsx:30-33 | the budget page and the dashboard show the same total budget |
| BudgetPage.Balance | app/budget/page.tsx:73-75 | "over income" iff the budget exceeds the income; the amount shown is non-negative and, with its sign, is income minus budget |
| BudgetPage.SpendingLookup | app/budget/page.tsx:26-28 | the map has a key exactly for each report row's category id, holding a row with that id |
| BudgetPage.LookupKeepsLast | app/budget/page.tsx:26-28 | for a repeated id the later entry wins |
| BudgetPage.RowFor | app/budget/page.tsx:101-112 | a row shows the category with its entry's spent and remaining, or 0 spent and the full allocation remaining when it has no entry |
| BudgetPage.CategoryRows | app/budget/page.tsx:100-115 | one row per category, in the order given |
| BudgetPage.LookupFindsEntry | app/budget/page.tsx:101 | with unique category ids every category has an entry, holding its period spending and remainder |
| BudgetPage.RowsMatchSpending | app/budget/page.tsx:100-115 | when both reads see the same tables and the same period, rows follow name order, one per category, each showing the category's period spending and allocation minus spending; the fallback is never taken |
| BudgetPage.FallbackIsNoSpending | app/budget/page.tsx:111-112 | the fallback row equals the report row of a period without spending |

## Left out

- Rendering, routing, `revalidatePath`, the forms and their validation, progress bars, the pie chart and the breakdown list: user interface, not computation.
- `formatCurrency`: locale-dependent number formatting.
- Receipt images and `updateTransaction`: not part of this model.
- Floating point: amounts are exact reals. The JavaScript `Number` rounding of sums and of `4.33`, `2.17` and `1 / 12` is not modelled.
- Postgres rounding of a third decimal place on insert or update: Actions.Store.CreateIncomeSource, Actions.Store.CreateBudgetCategory, Actions.Store.UpdateBudgetCategory and Actions.Store.CreateTransaction reject such an amount (`ok == false`, nothing changes), where Postgres would store it rounded to two places ("12.345" becomes 12.35).
- Time zones, milliseconds and the sub-second gap between 23:59:59 and midnight: times have one-second precision. A transaction at 23:59:59.5 on a period's last day, which the query misses, cannot be expressed.
- Actions.Store.UpdateBudgetCategory: an update with no field supplied succeeds without changing anything, while the query builder refuses an empty `SET`. The resulting tables are the same either way.
- Actions.Store.GetBudgetCategories: names are ordered by character code; the database collation is not modelled.
- Aggregation.TransactionsForPeriod: SQL leaves the order of rows with equal dates unspecified. The model fixes one order, and its contract promises only date order and the set of rows.
- Actions.Store.GetTotalMonthlyIncome: carries no contract of its own. Its properties are `Income.MonthlyMultipliers` and `Income.PeriodIncomeIsHalfMonthlyPlusUnscheduled`.
- The database connection and concurrent callers: each action is atomic in the model.
- Dashboard.OverviewOfDatabase, BudgetPage.RowsMatchSpending: each page runs its reads as separate queries (app/page.tsx:18-23, app/budget/page.tsx:20-24), and each read takes its own clock reading (`periodDate ?? new Date()`). The lemmas assume one table state and one period for all of a page's reads. A write between the queries, or a period boundary crossed between the two clock readings, can break them: the spent figure can then differ from the listed total, and the budget page's fallback row can be taken (`BudgetPage.FallbackIsNoSpending` states what it then shows).
- Ids: the model takes an id as any string, assuming a well-formed uuid. Postgres refuses a `DELETE` or `UPDATE` whose id is not a uuid, but the model does not: Actions.Store.UpdateBudgetCategory returns `ok == true` and changes nothing, and Actions.Store.DeleteIncomeSource, Actions.Store.DeleteBudgetCategory and Actions.Store.DeleteTransaction remove nothing.
- Periods.PeriodBounds: years 0–99 are taken as they are. JavaScript's `new Date(year, month, ...)` reads them as 1900–1999, so a reference date in year 50 would get bounds in 1950. The pages only pass the clock.
- Calendar.LastDayViaDayZero, Format.PeriodLabel: for years 0–99 the last day comes from the year as given, not from 1900–1999. For February of year 0 the model gives 29 where JavaScript gives 28.
- Aggregation.SpendingByCategory: the categories and income sources are read without `ORDER BY`. The model fixes table order (insertion order, updates in place), while the database may return rows in any order.
- Income.ActiveSources: the income sources are likewise read in the model's table order.
- Income.MonthlyMultipliers: a frequency label that names an inherited `Object.prototype` member ("constructor", "toString", "valueOf", "hasOwnProperty", "__proto__") finds a function or object in the table, so `?? 1` does not apply and JavaScript computes NaN. The model gives such a label the ×1 default like any other label missing from the table. Only enum labels reach `toMonthlyAmount` from the database.

## Findings

| source | as written | input that shows it | evidently intended | confidence | as-written member | corrected member |
|---|---|---|---|---|---|---|
| app/page.tsx:159 | "Recent Transactions" shows `slice(0, 5)` of `getTransactions`, which orders by date ascending, so it shows the five earliest transactions of the period | six transactions dated the 1st to the 6th of a month: the one on the 6th is not shown | the five latest transactions, newest first | medium, not executed | Dashboard.LatestNotShown | Dashboard.MostRecentAreLatest |
