/** The server actions over the database: the three tables held in a store
    object, the create/update/delete actions as methods that change it, and
    the read actions that query it. */
module Actions {
  import opened Common
  import opened Calendar
  import opened Schema
  import opened Periods
  import opened Income
  import opened Aggregation
  import Dashboard

  /** Text order by character code, shorter prefix first (`ORDER BY name`). */
  predicate TextAtOrBefore(a: string, b: string) {
    if a == [] then true
    else if b == [] then false
    else if a[0] != b[0] then a[0] < b[0]
    else TextAtOrBefore(a[1..], b[1..])
  }

  lemma {:induction false} TextOrderTotal(a: string, b: string)
    ensures TextAtOrBefore(a, b) || TextAtOrBefore(b, a)
  {
    if a != [] && b != [] && a[0] == b[0] {
      TextOrderTotal(a[1..], b[1..]);
    }
  }

  lemma {:induction false} TextOrderTransitive(a: string, b: string, c: string)
    requires TextAtOrBefore(a, b) && TextAtOrBefore(b, c)
    ensures TextAtOrBefore(a, c)
  {
    if a != [] && b != [] && c != [] && a[0] == b[0] && b[0] == c[0] {
      TextOrderTransitive(a[1..], b[1..], c[1..]);
    }
  }

  predicate NameOrder(a: BudgetCategory, b: BudgetCategory) {
    TextAtOrBefore(a.name, b.name)
  }

  lemma NameOrderTotalPreorder()
    ensures TotalPreorder(NameOrder)
  {
    forall a: BudgetCategory, b: BudgetCategory ensures NameOrder(a, b) || NameOrder(b, a) {
      TextOrderTotal(a.name, b.name);
    }
    forall a: BudgetCategory, b: BudgetCategory, c: BudgetCategory | NameOrder(a, b) && NameOrder(b, c)
      ensures NameOrder(a, c)
    {
      TextOrderTransitive(a.name, b.name, c.name);
    }
  }

  /** An optional text field counts as supplied when present and non-empty
      (the `data.name && ...` spread of `updateBudgetCategory`). */
  predicate Supplied(field: Option<string>) {
    field.Some? && field.value != ""
  }

  /** Category `c` with the supplied fields overwritten. */
  function Patched(c: BudgetCategory, name: Option<string>, categoryType: Option<CategoryType>,
                   allocatedAmount: Option<real>): (r: BudgetCategory)
    ensures r.id == c.id && r.createdAt == c.createdAt
    ensures r.name == (if Supplied(name) then name.value else c.name)
    ensures r.categoryType == (if categoryType.Some? then categoryType.value else c.categoryType)
    ensures r.allocatedAmount == (if allocatedAmount.Some? then allocatedAmount.value else c.allocatedAmount)
  {
    c.(name := if Supplied(name) then name.value else c.name,
       categoryType := categoryType.GetOr(c.categoryType),
       allocatedAmount := allocatedAmount.GetOr(c.allocatedAmount))
  }

  /** The category type an update asks for: none when the field is absent or
      empty. */
  function RequestedType(categoryType: Option<string>): Option<CategoryType> {
    if Supplied(categoryType) then ParseCategoryType(categoryType.value) else None
  }

  /** The database: the rows of `income_sources`, `budget_categories` and
      `transactions`, in table order. */
  class Store {
    var incomeSources: seq<IncomeSource>
    var budgetCategories: seq<BudgetCategory>
    var transactions: seq<Transaction>

    ghost predicate Valid()
      reads this
    {
      TablesConsistent(incomeSources, budgetCategories, transactions)
    }

    constructor ()
      ensures Valid()
      ensures incomeSources == [] && budgetCategories == [] && transactions == []
    {
      incomeSources, budgetCategories, transactions := [], [], [];
    }

    /** `createIncomeSource`. `id` and `now` stand for the random uuid and
        the clock the database supplies; the insert fails when the id is
        taken, the frequency is not an enum label or the amount does not fit
        `decimal(12, 2)`. */
    method CreateIncomeSource(id: Id, name: string, amount: real, frequency: string, now: DateTime)
      returns (ok: bool)
      requires Valid() && ValidDateTime(now)
      modifies this
      ensures Valid()
      ensures ok <==> id !in Keys(old(incomeSources), SourceId) && ParseFrequency(frequency).Some? && IsMoney(amount)
      ensures incomeSources == if ok
                then old(incomeSources) + [InsertedIncomeSource(id, name, amount, ParseFrequency(frequency), now)]
                else old(incomeSources)
      ensures budgetCategories == old(budgetCategories) && transactions == old(transactions)
    {
      var f := ParseFrequency(frequency);
      if id in Keys(incomeSources, SourceId) || f.None? || !IsMoney(amount) {
        return false;
      }
      var row := InsertedIncomeSource(id, name, amount, f, now);
      DistinctAppend(incomeSources, row, SourceId);
      incomeSources := incomeSources + [row];
      ok := true;
    }

    /** `deleteIncomeSource`: removes the row with that id, if any. */
    method DeleteIncomeSource(id: Id)
      requires Valid()
      modifies this
      ensures Valid()
      ensures incomeSources == Without(old(incomeSources), SourceId, id)
      ensures budgetCategories == old(budgetCategories) && transactions == old(transactions)
    {
      DistinctFilter(incomeSources, SourceId, KeyIsNot(SourceId, id));
      incomeSources := Without(incomeSources, SourceId, id);
    }

    /** `createBudgetCategory`; fails like `CreateIncomeSource`. */
    method CreateBudgetCategory(id: Id, name: string, categoryType: string, allocatedAmount: real,
                                now: DateTime) returns (ok: bool)
      requires Valid() && ValidDateTime(now)
      modifies this
      ensures Valid()
      ensures ok <==> id !in Keys(old(budgetCategories), CategoryId)
                      && ParseCategoryType(categoryType).Some? && IsMoney(allocatedAmount)
      ensures budgetCategories == if ok
                then old(budgetCategories)
                     + [InsertedBudgetCategory(id, name, ParseCategoryType(categoryType), allocatedAmount, now)]
                else old(budgetCategories)
      ensures incomeSources == old(incomeSources) && transactions == old(transactions)
    {
      var t := ParseCategoryType(categoryType);
      if id in Keys(budgetCategories, CategoryId) || t.None? || !IsMoney(allocatedAmount) {
        return false;
      }
      var row := InsertedBudgetCategory(id, name, t, allocatedAmount, now);
      DistinctAppend(budgetCategories, row, CategoryId);
      KeysAppend(budgetCategories, row, CategoryId);
      budgetCategories := budgetCategories + [row];
      ok := true;
    }

    /** `updateBudgetCategory`: overwrites, in the row with that id, the
        fields supplied (absent or empty text is not supplied). It fails,
        changing nothing, when a supplied type is not an enum label or the
        amount does not fit `decimal(12, 2)`. */
    method UpdateBudgetCategory(id: Id, name: Option<string>, categoryType: Option<string>,
                                allocatedAmount: Option<real>) returns (ok: bool)
      requires Valid()
      modifies this
      ensures Valid()
      ensures ok <==> (Supplied(categoryType) ==> RequestedType(categoryType).Some?)
                      && (allocatedAmount.Some? ==> IsMoney(allocatedAmount.value))
      ensures |budgetCategories| == |old(budgetCategories)|
      ensures forall i :: 0 <= i < |budgetCategories| ==>
                budgetCategories[i] == if ok && old(budgetCategories)[i].id == id
                  then Patched(old(budgetCategories)[i], name, RequestedType(categoryType), allocatedAmount)
                  else old(budgetCategories)[i]
      ensures incomeSources == old(incomeSources) && transactions == old(transactions)
    {
      var t := RequestedType(categoryType);
      if (Supplied(categoryType) && t.None?) || (allocatedAmount.Some? && !IsMoney(allocatedAmount.value)) {
        return false;
      }
      var cats := budgetCategories;
      budgetCategories := seq(|cats|, i requires 0 <= i < |cats| =>
                                if cats[i].id == id then Patched(cats[i], name, t, allocatedAmount) else cats[i]);
      assert Keys(budgetCategories, CategoryId) == Keys(cats, CategoryId);
      forall c | c in budgetCategories ensures IsMoney(c.allocatedAmount) && ValidDateTime(c.createdAt) {
        var i :| 0 <= i < |cats| && budgetCategories[i] == c;
        assert cats[i] in cats;
      }
      ok := true;
    }

    /** `deleteBudgetCategory`: removes the category and, through the
        cascading foreign key, exactly its transactions. */
    method DeleteBudgetCategory(id: Id)
      requires Valid()
      modifies this
      ensures Valid()
      ensures budgetCategories == Without(old(budgetCategories), CategoryId, id)
      ensures transactions == Without(old(transactions), TransactionCategoryId, id)
      ensures incomeSources == old(incomeSources)
      ensures forall p :: SpendingByCategory(budgetCategories, transactions, p)
                          == Without(SpendingByCategory(old(budgetCategories), old(transactions), p),
                                     SpendingCategoryId, id)
    {
      var cats, ts := budgetCategories, transactions;
      DistinctFilter(cats, CategoryId, KeyIsNot(CategoryId, id));
      DistinctFilter(ts, TransactionId, KeyIsNot(TransactionCategoryId, id));
      budgetCategories := Without(cats, CategoryId, id);
      transactions := Without(ts, TransactionCategoryId, id);
      forall t | t in transactions ensures t.budgetCategoryId in Keys(budgetCategories, CategoryId) {
        KeysMembership(cats, CategoryId, t.budgetCategoryId);
        KeysMembership(budgetCategories, CategoryId, t.budgetCategoryId);
      }
      forall p ensures SpendingByCategory(budgetCategories, transactions, p)
                       == Without(SpendingByCategory(cats, ts, p), SpendingCategoryId, id) {
        SpendingAfterCascade(cats, ts, p, id);
      }
    }

    /** `createTransaction`. The insert fails when the id is taken, the
        category does not exist (the foreign key), the amount does not fit
        `decimal(12, 2)` or the date is not a valid date. */
    method CreateTransaction(id: Id, amount: real, budgetCategoryId: Id, date: DateTime,
                             description: Option<string>, now: DateTime) returns (ok: bool)
      requires Valid() && ValidDateTime(now)
      modifies this
      ensures Valid()
      ensures ok <==> && id !in Keys(old(transactions), TransactionId)
                      && budgetCategoryId in Keys(old(budgetCategories), CategoryId)
                      && IsMoney(amount) && ValidDateTime(date)
      ensures transactions == if ok
                then old(transactions) + [Transaction(id, amount, budgetCategoryId, date, description, now)]
                else old(transactions)
      ensures incomeSources == old(incomeSources) && budgetCategories == old(budgetCategories)
    {
      if id in Keys(transactions, TransactionId) || budgetCategoryId !in Keys(budgetCategories, CategoryId)
         || !IsMoney(amount) || !ValidDateTime(date) {
        return false;
      }
      var row := Transaction(id, amount, budgetCategoryId, date, description, now);
      DistinctAppend(transactions, row, TransactionId);
      transactions := transactions + [row];
      ok := true;
    }

    /** `deleteTransaction`: removes the row with that id, if any. */
    method DeleteTransaction(id: Id)
      requires Valid()
      modifies this
      ensures Valid()
      ensures transactions == Without(old(transactions), TransactionId, id)
      ensures incomeSources == old(incomeSources) && budgetCategories == old(budgetCategories)
    {
      DistinctFilter(transactions, TransactionId, KeyIsNot(TransactionId, id));
      transactions := Without(transactions, TransactionId, id);
    }

    /** `getIncomeSources`. */
    function GetIncomeSources(): (r: seq<IncomeSource>)
      reads this
      ensures forall s :: s in r <==> s in incomeSources && s.isActive == 1
      ensures forall s :: multiset(r)[s] == if s.isActive == 1 then multiset(incomeSources)[s] else 0
      ensures Subsequence(r, incomeSources)
    {
      ActiveSources(incomeSources)
    }

    /** `getTotalMonthlyIncome`. */
    function GetTotalMonthlyIncome(): real
      reads this
    {
      TotalMonthlyIncome(GetIncomeSources())
    }

    /** `getTotalPeriodIncome`: half the monthly income of the active
        sources plus the full amount of those without a frequency. */
    method GetTotalPeriodIncome() returns (total: real)
      ensures total == PeriodIncome(GetIncomeSources())
      ensures total == GetTotalMonthlyIncome() / 2.0 + UnscheduledIncome(GetIncomeSources())
    {
      total := TotalPeriodIncome(GetIncomeSources());
      PeriodIncomeIsHalfMonthlyPlusUnscheduled(GetIncomeSources());
    }

    /** `getBudgetCategories`: every category once, ordered by name. */
    function GetBudgetCategories(): (r: seq<BudgetCategory>)
      reads this
      ensures SortedBy(r, NameOrder)
      ensures multiset(r) == multiset(budgetCategories)
    {
      NameOrderTotalPreorder();
      SortBySorted(budgetCategories, NameOrder);
      SortBy(budgetCategories, NameOrder)
    }

    /** `getTransactions`: the period's transactions with their categories,
        by date. */
    function GetTransactions(periodDate: DateTime): (r: seq<TransactionView>)
      reads this
      requires ValidDateTime(periodDate)
      ensures SortedBy(r, EarlierOrSame)
      ensures forall v :: v in r ==> v.categoryId in Keys(budgetCategories, CategoryId)
      ensures forall v :: v in r ==> InPeriod(v.date, PeriodBounds(periodDate))
      ensures forall v :: v in r <==>
                exists t :: t in transactions && JoinsTo(v, t, budgetCategories, PeriodBounds(periodDate))
      ensures multiset(r) == multiset(JoinInWindow(transactions, budgetCategories, PeriodBounds(periodDate)))
    {
      var r := TransactionsForPeriod(transactions, budgetCategories, PeriodBounds(periodDate));
      forall v ensures v in r <==>
                 exists t :: t in transactions && JoinsTo(v, t, budgetCategories, PeriodBounds(periodDate))
      {
        TransactionsForPeriodMembership(transactions, budgetCategories, PeriodBounds(periodDate), v);
      }
      forall v | v in r
        ensures v.categoryId in Keys(budgetCategories, CategoryId) && InPeriod(v.date, PeriodBounds(periodDate))
      {
        TransactionsForPeriodMembership(transactions, budgetCategories, PeriodBounds(periodDate), v);
        var t :| t in transactions && JoinsTo(v, t, budgetCategories, PeriodBounds(periodDate));
        KeysMembership(budgetCategories, CategoryId, v.categoryId);
      }
      r
    }

    /** `getSpendingByCategory`: the grouped sums put into a map, then one
        entry per category. */
    method GetSpendingByCategory(periodDate: DateTime) returns (rows: seq<CategorySpending>)
      requires ValidDateTime(periodDate)
      ensures rows == SpendingByCategory(budgetCategories, transactions, PeriodBounds(periodDate))
    {
      var p := PeriodBounds(periodDate);
      var spentMap := SpentByCategory(transactions, p);
      rows := SpendingRows(budgetCategories, spentMap);
      forall i | 0 <= i < |budgetCategories| && budgetCategories[i].id !in spentMap
        ensures CategorySpent(transactions, budgetCategories[i].id, p) == 0.0
      {
        NoSpendingMeansZero(transactions, budgetCategories[i].id, p);
      }
    }

    /** Over the store's consistent tables, the dashboard's spending total
        and the listed transactions of any period both come to the total of
        the transactions dated in that period. */
    lemma SpendingCoversPeriod(periodDate: DateTime)
      requires Valid() && ValidDateTime(periodDate)
      ensures Dashboard.TotalSpent(SpendingByCategory(budgetCategories, transactions, PeriodBounds(periodDate)))
              == InWindowTotal(transactions, PeriodBounds(periodDate))
      ensures ListedTotal(GetTransactions(periodDate)) == InWindowTotal(transactions, PeriodBounds(periodDate))
    {
      Dashboard.TotalSpentIsWindowTotal(budgetCategories, transactions, PeriodBounds(periodDate));
      TransactionsForPeriodTotal(transactions, budgetCategories, PeriodBounds(periodDate));
    }
  }
}
