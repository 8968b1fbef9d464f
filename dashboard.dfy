/** The dashboard's arithmetic over the spending report and the period's
    transactions: the budget and spending totals, the categories over
    budget, and the short list of transactions it shows. */
module Dashboard {
  import opened Common
  import opened Calendar
  import opened Schema
  import opened Periods
  import opened Aggregation

  /** The sum of the allocations in the report (`totalAllocated`). */
  function TotalAllocated(rows: seq<CategorySpending>): real {
    if rows == [] then 0.0 else rows[0].allocatedAmount + TotalAllocated(rows[1..])
  }

  /** The sum of the spending in the report (`totalSpent`). */
  function TotalSpent(rows: seq<CategorySpending>): real {
    if rows == [] then 0.0 else rows[0].spent + TotalSpent(rows[1..])
  }

  /** The sum of what remains in each category. */
  function TotalRemaining(rows: seq<CategorySpending>): real {
    if rows == [] then 0.0 else rows[0].remaining + TotalRemaining(rows[1..])
  }

  function AllocatedOf(r: CategorySpending): real { r.allocatedAmount }
  function SpentOf(r: CategorySpending): real { r.spent }

  /** The totals are the page's `reduce` from 0, left to right. */
  lemma {:induction false} FoldsMatchReduce(rows: seq<CategorySpending>)
    ensures TotalAllocated(rows) == Reduce(rows, AllocatedOf, 0.0)
    ensures TotalSpent(rows) == Reduce(rows, SpentOf, 0.0)
  {
    if rows != [] {
      FoldsMatchReduce(rows[1..]);
      ReduceFrom(rows[1..], AllocatedOf, 0.0 + rows[0].allocatedAmount);
      ReduceFrom(rows[1..], SpentOf, 0.0 + rows[0].spent);
    }
  }

  /** The budget left over on the dashboard is the sum of the per-category
      remainders, overspent categories counting negatively. */
  lemma {:induction false} AllocatedMinusSpent(rows: seq<CategorySpending>)
    requires forall r :: r in rows ==> r.remaining == r.allocatedAmount - r.spent
    ensures TotalAllocated(rows) - TotalSpent(rows) == TotalRemaining(rows)
  {
    if rows != [] {
      assert rows[0] in rows;
      AllocatedMinusSpent(rows[1..]);
    }
  }

  /** The report's spending total is the spending of each category summed. */
  lemma {:induction false} TotalSpentOfReport(cats: seq<BudgetCategory>, ts: seq<Transaction>, p: Period)
    ensures TotalSpent(SpendingByCategory(cats, ts, p)) == SpentOverCategories(cats, ts, p)
  {
    if cats != [] {
      assert cats == [cats[0]] + cats[1..];
      SpendingByCategoryAppend([cats[0]], cats[1..], ts, p);
      TotalSpentOfReport(cats[1..], ts, p);
    }
  }

  /** "Spent This Period" is the sum of every transaction dated in the
      period: with unique category ids and no dangling category reference,
      each such transaction is counted under exactly one category. */
  lemma TotalSpentIsWindowTotal(cats: seq<BudgetCategory>, ts: seq<Transaction>, p: Period)
    requires Distinct(Keys(cats, CategoryId))
    requires forall t :: t in ts ==> t.budgetCategoryId in Keys(cats, CategoryId)
    ensures TotalSpent(SpendingByCategory(cats, ts, p)) == InWindowTotal(ts, p)
  {
    TotalSpentOfReport(cats, ts, p);
    SpentCoversWindow(cats, ts, p);
  }

  predicate IsOverBudget(r: CategorySpending) { r.remaining < 0.0 }

  /** The categories with a negative remainder (`overBudget`), in report
      order. */
  function OverBudget(rows: seq<CategorySpending>): (over: seq<CategorySpending>)
    ensures forall r :: r in over <==> r in rows && r.remaining < 0.0
    ensures forall r :: multiset(over)[r] == if r.remaining < 0.0 then multiset(rows)[r] else 0
    ensures Subsequence(over, rows)
  {
    FilterSelects(rows, IsOverBudget);
    Filter(rows, IsOverBudget)
  }

  /** A category is listed as over budget exactly when it spent more in the
      period than was allocated to it. */
  lemma OverBudgetMeansOverspent(cats: seq<BudgetCategory>, ts: seq<Transaction>, p: Period, i: int)
    requires 0 <= i < |cats|
    ensures SpendingByCategory(cats, ts, p)[i] in OverBudget(SpendingByCategory(cats, ts, p))
            <==> CategorySpent(ts, cats[i].id, p) > cats[i].allocatedAmount
  {
  }

  /** The amount shown as "over" for an over-budget category. */
  function Overage(r: CategorySpending): (amount: real)
    requires r.remaining < 0.0
    ensures amount > 0.0
    ensures r.remaining == r.allocatedAmount - r.spent ==> amount == r.spent - r.allocatedAmount
  {
    -r.remaining
  }

  /** The number of transactions the dashboard lists. */
  const RECENT_LIMIT: nat := 5

  function Min(a: nat, b: nat): nat { if a <= b then a else b }

  /** `recentTransactions.slice(0, 5)` as written: the first five rows of
      `getTransactions`, which orders by date ascending. */
  function FirstListed(vs: seq<TransactionView>): (r: seq<TransactionView>)
    ensures |r| == Min(RECENT_LIMIT, |vs|)
    ensures forall i :: 0 <= i < |r| ==> r[i] == vs[i]
  {
    vs[..Min(RECENT_LIMIT, |vs|)]
  }

  /** On a date-ascending list, the rows shown are the earliest ones: none
      left out is earlier than any shown. */
  lemma FirstListedAreEarliest(vs: seq<TransactionView>)
    requires SortedBy(vs, EarlierOrSame)
    ensures var r := FirstListed(vs);
            forall i, j :: 0 <= i < |r| <= j < |vs| ==> AtOrBefore(r[i].date, vs[j].date)
  {
  }

  /** With more than five transactions in the period, the latest one is
      not shown under "Recent Transactions" once it is dated after the
      fifth. */
  lemma LatestNotShown(vs: seq<TransactionView>)
    requires SortedBy(vs, EarlierOrSame) && |vs| > RECENT_LIMIT
    requires !AtOrBefore(vs[|vs| - 1].date, vs[RECENT_LIMIT - 1].date)
    ensures vs[|vs| - 1] !in FirstListed(vs)
  {
  }

  /** Six transactions on the 1st to the 6th of a month: the one on the
      6th, the most recent, is missing from the five shown. */
  lemma RecentListMissesLatestExample(view: TransactionView)
    ensures var vs := seq(6, d requires 0 <= d < 6 => view.(date := DateTime(2025, 3, d + 1, 12, 0, 0)));
            SortedBy(vs, EarlierOrSame) && vs[5] !in FirstListed(vs)
  {
    var vs := seq(6, d requires 0 <= d < 6 => view.(date := DateTime(2025, 3, d + 1, 12, 0, 0)));
    assert SortedBy(vs, EarlierOrSame);
    LatestNotShown(vs);
  }

  /** The list the "Recent Transactions" card evidently means: the five
      latest rows of the period, newest first. */
  function MostRecent(vs: seq<TransactionView>): (r: seq<TransactionView>)
    ensures |r| == Min(RECENT_LIMIT, |vs|)
    ensures forall i :: 0 <= i < |r| ==> r[i] in vs
  {
    var k := Min(RECENT_LIMIT, |vs|);
    seq(k, i requires 0 <= i < k => vs[|vs| - 1 - i])
  }

  /** On a date-ascending list, the rows `MostRecent` shows are the latest
      ones, newest first, and the very latest row heads the list. */
  lemma MostRecentAreLatest(vs: seq<TransactionView>)
    requires SortedBy(vs, EarlierOrSame)
    ensures var r := MostRecent(vs);
            && (forall i, j :: 0 <= i < j < |r| ==> AtOrBefore(r[j].date, r[i].date))
            && (forall i, j :: 0 <= i < |r| && 0 <= j < |vs| - |r| ==> AtOrBefore(vs[j].date, r[i].date))
            && (vs != [] ==> r[0] == vs[|vs| - 1])
  {
  }

  /** What the dashboard shows for a period. */
  datatype Overview = Overview(
    periodIncome: real, totalAllocated: real, totalSpent: real,
    overBudget: seq<CategorySpending>, recent: seq<TransactionView>)

  /** The dashboard's figures from the three reads it makes, the list of
      transactions as the page takes it (`slice(0, 5)`). */
  function DashboardOverview(periodIncome: real, rows: seq<CategorySpending>, listed: seq<TransactionView>)
    : (o: Overview)
    ensures o.periodIncome == periodIncome
    ensures o.totalAllocated == Reduce(rows, AllocatedOf, 0.0)
    ensures o.totalSpent == Reduce(rows, SpentOf, 0.0)
    ensures forall r :: r in o.overBudget <==> r in rows && r.remaining < 0.0
    ensures forall r :: multiset(o.overBudget)[r] == if r.remaining < 0.0 then multiset(rows)[r] else 0
    ensures Subsequence(o.overBudget, rows)
    ensures o.recent == FirstListed(listed)
  {
    FoldsMatchReduce(rows);
    Overview(periodIncome, TotalAllocated(rows), TotalSpent(rows), OverBudget(rows), FirstListed(listed))
  }

  /** Over a consistent database, the dashboard's spending figure is the
      total of the transactions dated in the period, and the budget left is
      the sum of the category remainders. */
  lemma OverviewOfDatabase(periodIncome: real, cats: seq<BudgetCategory>, ts: seq<Transaction>, p: Period)
    requires TablesConsistent([], cats, ts)
    ensures var o := DashboardOverview(periodIncome, SpendingByCategory(cats, ts, p), TransactionsForPeriod(ts, cats, p));
            && o.totalSpent == InWindowTotal(ts, p)
            && o.totalAllocated - o.totalSpent == TotalRemaining(SpendingByCategory(cats, ts, p))
            && o.totalSpent == ListedTotal(TransactionsForPeriod(ts, cats, p))
  {
    TotalSpentIsWindowTotal(cats, ts, p);
    TransactionsForPeriodTotal(ts, cats, p);
    var rows := SpendingByCategory(cats, ts, p);
    forall r | r in rows ensures r.remaining == r.allocatedAmount - r.spent {
      var i :| 0 <= i < |rows| && rows[i] == r;
    }
    AllocatedMinusSpent(rows);
  }
}
