/** The budget page's arithmetic: the total allocation, the balance
    against the period income, and one row per category joined with its
    spending through a lookup keyed by category id. */
module BudgetPage {
  import opened Common
  import opened Schema
  import opened Periods
  import opened Aggregation
  import opened Actions
  import Dashboard

  /** The sum of the categories' allocations (`totalAllocated`). */
  function TotalAllocated(cats: seq<BudgetCategory>): real {
    if cats == [] then 0.0 else cats[0].allocatedAmount + TotalAllocated(cats[1..])
  }

  function AllocationOf(c: BudgetCategory): real { c.allocatedAmount }

  /** The sum is the page's `reduce` from 0, left to right. */
  lemma {:induction false} TotalAllocatedMatchesReduce(cats: seq<BudgetCategory>)
    ensures TotalAllocated(cats) == Reduce(cats, AllocationOf, 0.0)
  {
    if cats != [] {
      TotalAllocatedMatchesReduce(cats[1..]);
      ReduceFrom(cats[1..], AllocationOf, 0.0 + cats[0].allocatedAmount);
    }
  }

  lemma {:induction false} TotalAllocatedInsert(c: BudgetCategory, cats: seq<BudgetCategory>,
                                                le: (BudgetCategory, BudgetCategory) -> bool)
    ensures TotalAllocated(InsertBy(c, cats, le)) == c.allocatedAmount + TotalAllocated(cats)
  {
    if cats != [] && !le(c, cats[0]) {
      TotalAllocatedInsert(c, cats[1..], le);
    }
  }

  /** The total does not depend on the order the categories are listed in. */
  lemma {:induction false} TotalAllocatedSorted(cats: seq<BudgetCategory>, le: (BudgetCategory, BudgetCategory) -> bool)
    ensures TotalAllocated(SortBy(cats, le)) == TotalAllocated(cats)
  {
    if cats != [] {
      TotalAllocatedSorted(cats[1..], le);
      TotalAllocatedInsert(cats[0], SortBy(cats[1..], le), le);
    }
  }

  lemma {:induction false} ReportAllocated(cats: seq<BudgetCategory>, ts: seq<Transaction>, p: Period)
    ensures Dashboard.TotalAllocated(SpendingByCategory(cats, ts, p)) == TotalAllocated(cats)
  {
    if cats != [] {
      assert cats == [cats[0]] + cats[1..];
      SpendingByCategoryAppend([cats[0]], cats[1..], ts, p);
      ReportAllocated(cats[1..], ts, p);
    }
  }

  /** The budget page (summing the categories by name) and the dashboard
      (summing the spending report) show the same total budget. */
  lemma SameBudgetOnBothPages(cats: seq<BudgetCategory>, ts: seq<Transaction>, p: Period)
    ensures TotalAllocated(SortBy(cats, NameOrder)) == Dashboard.TotalAllocated(SpendingByCategory(cats, ts, p))
  {
    TotalAllocatedSorted(cats, NameOrder);
    ReportAllocated(cats, ts, p);
  }

  /** The line under the total budget: how far it is over the period
      income, or how much income it leaves. */
  datatype IncomeBalance = OverIncome(amount: real) | IncomeRemaining(amount: real)

  function Balance(totalAllocated: real, periodIncome: real): (b: IncomeBalance)
    ensures b.amount >= 0.0
    ensures b.OverIncome? <==> totalAllocated > periodIncome
    ensures periodIncome - totalAllocated == if b.OverIncome? then -b.amount else b.amount
  {
    if totalAllocated > periodIncome then OverIncome(totalAllocated - periodIncome)
    else IncomeRemaining(periodIncome - totalAllocated)
  }

  /** `new Map(spendingByCategory.map(s => [s.categoryId, s]))`: keyed by
      category id, a later entry replacing an earlier one with the same id. */
  function SpendingLookup(rows: seq<CategorySpending>): (m: map<Id, CategorySpending>)
    ensures forall k :: k in m <==> exists r :: r in rows && r.categoryId == k
    ensures forall k :: k in m ==> m[k] in rows && m[k].categoryId == k
  {
    if rows == [] then map[]
    else
      var last := rows[|rows| - 1];
      assert rows == rows[..|rows| - 1] + [last];
      SpendingLookup(rows[..|rows| - 1])[last.categoryId := last]
  }

  /** In the lookup, the entry for an id is the last row carrying it. */
  lemma {:induction false} LookupKeepsLast(rows: seq<CategorySpending>, i: int)
    requires 0 <= i < |rows|
    requires forall j :: i < j < |rows| ==> rows[j].categoryId != rows[i].categoryId
    ensures SpendingLookup(rows)[rows[i].categoryId] == rows[i]
  {
    if i < |rows| - 1 {
      LookupKeepsLast(rows[..|rows| - 1], i);
    }
  }

  /** One row of the category list. */
  datatype CategoryRow = CategoryRow(
    id: Id, name: string, categoryType: CategoryType, allocatedAmount: real, spent: real, remaining: real)

  /** The row shown for category `c`: its spending entry's figures, or no
      spending and the whole allocation remaining when it has no entry. */
  function RowFor(c: BudgetCategory, lookup: map<Id, CategorySpending>): (row: CategoryRow)
    ensures row.id == c.id && row.name == c.name && row.categoryType == c.categoryType
    ensures row.allocatedAmount == c.allocatedAmount
    ensures c.id !in lookup ==> row.spent == 0.0 && row.remaining == c.allocatedAmount
    ensures c.id in lookup ==> row.spent == lookup[c.id].spent && row.remaining == lookup[c.id].remaining
  {
    var spent := if c.id in lookup then lookup[c.id].spent else 0.0;
    var remaining := if c.id in lookup then lookup[c.id].remaining else c.allocatedAmount;
    CategoryRow(c.id, c.name, c.categoryType, c.allocatedAmount, spent, remaining)
  }

  /** The category list: one row per category, in the order given. */
  function CategoryRows(cats: seq<BudgetCategory>, lookup: map<Id, CategorySpending>): (rows: seq<CategoryRow>)
    ensures |rows| == |cats|
    ensures forall i :: 0 <= i < |cats| ==> rows[i] == RowFor(cats[i], lookup)
  {
    seq(|cats|, i requires 0 <= i < |cats| => RowFor(cats[i], lookup))
  }

  /** Over a database with unique category ids, the report has exactly one
      entry per category, and the lookup finds it. */
  lemma LookupFindsEntry(cats: seq<BudgetCategory>, ts: seq<Transaction>, p: Period, c: BudgetCategory)
    requires Distinct(Keys(cats, CategoryId)) && c in cats
    ensures var lookup := SpendingLookup(SpendingByCategory(cats, ts, p));
            && c.id in lookup
            && lookup[c.id].spent == CategorySpent(ts, c.id, p)
            && lookup[c.id].remaining == c.allocatedAmount - CategorySpent(ts, c.id, p)
  {
    var report := SpendingByCategory(cats, ts, p);
    var i :| 0 <= i < |cats| && cats[i] == c;
    forall j | i < j < |report| ensures report[j].categoryId != report[i].categoryId {
      assert Keys(cats, CategoryId)[i] != Keys(cats, CategoryId)[j];
    }
    LookupKeepsLast(report, i);
  }

  /** Each row of the budget page, for the categories in name order, shows
      the category's spending in the period and the allocation left after
      it, the same figures as the spending report; the fallback for a
      category without an entry is never taken. */
  lemma RowsMatchSpending(cats: seq<BudgetCategory>, ts: seq<Transaction>, p: Period)
    requires Distinct(Keys(cats, CategoryId))
    ensures var sorted := SortBy(cats, NameOrder);
            var rows := CategoryRows(sorted, SpendingLookup(SpendingByCategory(cats, ts, p)));
            && |rows| == |cats|
            && SortedBy(sorted, NameOrder) && multiset(sorted) == multiset(cats)
            && forall i :: 0 <= i < |rows| ==>
                 && rows[i].id == sorted[i].id
                 && rows[i].spent == CategorySpent(ts, sorted[i].id, p)
                 && rows[i].remaining == sorted[i].allocatedAmount - rows[i].spent
  {
    var sorted := SortBy(cats, NameOrder);
    NameOrderTotalPreorder();
    SortBySorted(cats, NameOrder);
    forall i | 0 <= i < |sorted| ensures sorted[i] in cats {
      assert sorted[i] in multiset(sorted);
    }
    forall i | 0 <= i < |sorted|
      ensures sorted[i].id in SpendingLookup(SpendingByCategory(cats, ts, p))
      ensures SpendingLookup(SpendingByCategory(cats, ts, p))[sorted[i].id].spent == CategorySpent(ts, sorted[i].id, p)
      ensures SpendingLookup(SpendingByCategory(cats, ts, p))[sorted[i].id].remaining
              == sorted[i].allocatedAmount - CategorySpent(ts, sorted[i].id, p)
    {
      LookupFindsEntry(cats, ts, p, sorted[i]);
    }
  }

  /** When the spending report misses a category (it was read from a
      different moment of the database, say), the row shows what a report
      with no spending in the period would have shown for it. */
  lemma FallbackIsNoSpending(c: BudgetCategory, lookup: map<Id, CategorySpending>, p: Period)
    requires c.id !in lookup
    ensures var e := SpendingByCategory([c], [], p)[0];
            RowFor(c, lookup) == CategoryRow(c.id, c.name, c.categoryType, e.allocatedAmount, e.spent, e.remaining)
  {
  }
}
