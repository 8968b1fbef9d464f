/** The aggregation engine: per-category spending for a period
    (`getSpendingByCategory`) and the period's transactions joined with
    their categories (`getTransactions`), both over plain table contents. */
module Aggregation {
  import opened Common
  import opened Calendar
  import opened Schema
  import opened Periods

  // ---------------------------------------------------------------------
  // Spending per category
  // ---------------------------------------------------------------------

  /** One entry of `getSpendingByCategory`'s result. */
  datatype CategorySpending = CategorySpending(
    categoryId: Id, categoryName: string, categoryType: CategoryType,
    allocatedAmount: real, spent: real, remaining: real)

  function SpendingCategoryId(r: CategorySpending): Id { r.categoryId }

  /** What transaction `t` adds to category `id`'s spending in period `p`. */
  function Contribution(t: Transaction, id: Id, p: Period): real {
    if t.budgetCategoryId == id && InPeriod(t.date, p) then t.amount else 0.0
  }

  /** The sum of the amounts of category `id`'s transactions dated in `p`. */
  function CategorySpent(ts: seq<Transaction>, id: Id, p: Period): real {
    if ts == [] then 0.0 else Contribution(ts[0], id, p) + CategorySpent(ts[1..], id, p)
  }

  /** Category `id` has a transaction dated in `p`: a group of the
      `GROUP BY budget_category_id` query exists for it. */
  ghost predicate HasSpending(ts: seq<Transaction>, id: Id, p: Period) {
    exists t :: t in ts && t.budgetCategoryId == id && InPeriod(t.date, p)
  }

  /** The sum of the amounts of all transactions dated in `p`. */
  function InWindowTotal(ts: seq<Transaction>, p: Period): real {
    if ts == [] then 0.0
    else (if InPeriod(ts[0].date, p) then ts[0].amount else 0.0) + InWindowTotal(ts[1..], p)
  }

  lemma {:induction false} CategorySpentAppend(a: seq<Transaction>, b: seq<Transaction>, id: Id, p: Period)
    ensures CategorySpent(a + b, id, p) == CategorySpent(a, id, p) + CategorySpent(b, id, p)
  {
    if a == [] {
      assert a + b == b;
    } else {
      assert (a + b)[0] == a[0] && (a + b)[1..] == a[1..] + b;
      CategorySpentAppend(a[1..], b, id, p);
    }
  }

  /** A category without transactions in the period has spent nothing. */
  lemma {:induction false} NoSpendingMeansZero(ts: seq<Transaction>, id: Id, p: Period)
    requires !HasSpending(ts, id, p)
    ensures CategorySpent(ts, id, p) == 0.0
  {
    if ts != [] {
      assert ts[0] in ts;
      assert !HasSpending(ts[1..], id, p) by {
        forall t | t in ts[1..] ensures !(t.budgetCategoryId == id && InPeriod(t.date, p)) {
          assert t in ts;
        }
      }
      NoSpendingMeansZero(ts[1..], id, p);
    }
  }

  /** The entry for category `c` given what it spent. */
  function Entry(c: BudgetCategory, spent: real): CategorySpending {
    CategorySpending(c.id, c.name, c.categoryType, c.allocatedAmount, spent, c.allocatedAmount - spent)
  }

  /** Reference definition of `getSpendingByCategory`: one entry per
      category, in table order, with what it spent in `p` and what remains
      of its allocation. */
  function SpendingByCategory(cats: seq<BudgetCategory>, ts: seq<Transaction>, p: Period)
    : (rows: seq<CategorySpending>)
    ensures |rows| == |cats|
    ensures forall i :: 0 <= i < |cats| ==>
              && rows[i].categoryId == cats[i].id
              && rows[i].categoryName == cats[i].name
              && rows[i].categoryType == cats[i].categoryType
              && rows[i].allocatedAmount == cats[i].allocatedAmount
              && rows[i].spent == CategorySpent(ts, cats[i].id, p)
              && rows[i].remaining == rows[i].allocatedAmount - rows[i].spent
  {
    seq(|cats|, i requires 0 <= i < |cats| => Entry(cats[i], CategorySpent(ts, cats[i].id, p)))
  }

  /** The grouped sums of the in-period transactions, as `spentMap`: a key
      for every category with a transaction in `p`, holding its total. */
  method SpentByCategory(ts: seq<Transaction>, p: Period) returns (spent: map<Id, real>)
    ensures forall id :: id in spent <==> HasSpending(ts, id, p)
    ensures forall id :: id in spent ==> spent[id] == CategorySpent(ts, id, p)
  {
    spent := map[];
    for i := 0 to |ts|
      invariant forall id :: id in spent <==> HasSpending(ts[..i], id, p)
      invariant forall id :: id in spent ==> spent[id] == CategorySpent(ts[..i], id, p)
    {
      var t := ts[i];
      assert ts[..i + 1] == ts[..i] + [t];
      forall id ensures CategorySpent(ts[..i + 1], id, p) == CategorySpent(ts[..i], id, p) + Contribution(t, id, p) {
        CategorySpentAppend(ts[..i], [t], id, p);
      }
      if InPeriod(t.date, p) {
        var k := t.budgetCategoryId;
        if k !in spent {
          NoSpendingMeansZero(ts[..i], k, p);
        }
        var prior := if k in spent then spent[k] else 0.0;
        spent := spent[k := prior + t.amount];
      }
    }
    assert ts[..|ts|] == ts;
  }

  /** The final `categories.map(...)` step: each category's sum from the
      map, or 0 when the map has none. */
  function SpendingRows(cats: seq<BudgetCategory>, spent: map<Id, real>): (rows: seq<CategorySpending>)
    ensures |rows| == |cats|
    ensures forall i :: 0 <= i < |cats| ==>
              && rows[i].categoryId == cats[i].id
              && rows[i].allocatedAmount == cats[i].allocatedAmount
              && rows[i].spent == (if cats[i].id in spent then spent[cats[i].id] else 0.0)
              && rows[i].remaining == rows[i].allocatedAmount - rows[i].spent
  {
    seq(|cats|, i requires 0 <= i < |cats| =>
      Entry(cats[i], if cats[i].id in spent then spent[cats[i].id] else 0.0))
  }

  /** The spending of every category, summed over the categories. */
  ghost function SpentOverCategories(cats: seq<BudgetCategory>, ts: seq<Transaction>, p: Period): real {
    if cats == [] then 0.0 else CategorySpent(ts, cats[0].id, p) + SpentOverCategories(cats[1..], ts, p)
  }

  /** Summing one transaction's contribution over all categories. */
  ghost function ContributionOverCategories(cats: seq<BudgetCategory>, t: Transaction, p: Period): real {
    if cats == [] then 0.0 else Contribution(t, cats[0].id, p) + ContributionOverCategories(cats[1..], t, p)
  }

  lemma {:induction false} SpentOverCategoriesSplit(cats: seq<BudgetCategory>, ts: seq<Transaction>, p: Period)
    requires ts != []
    ensures SpentOverCategories(cats, ts, p)
            == ContributionOverCategories(cats, ts[0], p) + SpentOverCategories(cats, ts[1..], p)
  {
    if cats != [] {
      SpentOverCategoriesSplit(cats[1..], ts, p);
    }
  }

  /** A transaction's amount is counted once, by the one category it names. */
  lemma {:induction false} ContributionCountedOnce(cats: seq<BudgetCategory>, t: Transaction, p: Period)
    requires Distinct(Keys(cats, CategoryId))
    ensures ContributionOverCategories(cats, t, p) ==
            if t.budgetCategoryId in Keys(cats, CategoryId) && InPeriod(t.date, p) then t.amount else 0.0
  {
    if cats != [] {
      assert Keys(cats[1..], CategoryId) == Keys(cats, CategoryId)[1..];
      assert Keys(cats, CategoryId) == [cats[0].id] + Keys(cats[1..], CategoryId);
      ContributionCountedOnce(cats[1..], t, p);
      if cats[0].id == t.budgetCategoryId {
        assert t.budgetCategoryId !in Keys(cats[1..], CategoryId) by {
          forall j | 0 <= j < |cats[1..]| ensures Keys(cats[1..], CategoryId)[j] != t.budgetCategoryId {
            assert Keys(cats, CategoryId)[0] != Keys(cats, CategoryId)[j + 1];
          }
        }
      }
    }
  }

  /** With unique category ids and every transaction naming a live
      category, the categories' spending adds up to the total of the
      transactions dated in the period. */
  lemma {:induction false} SpentCoversWindow(cats: seq<BudgetCategory>, ts: seq<Transaction>, p: Period)
    requires Distinct(Keys(cats, CategoryId))
    requires forall t :: t in ts ==> t.budgetCategoryId in Keys(cats, CategoryId)
    ensures SpentOverCategories(cats, ts, p) == InWindowTotal(ts, p)
  {
    if ts == [] {
      assert SpentOverCategories(cats, ts, p) == 0.0 by {
        ZeroSpendingWithoutTransactions(cats, p);
      }
    } else {
      assert ts[0] in ts;
      SpentOverCategoriesSplit(cats, ts, p);
      ContributionCountedOnce(cats, ts[0], p);
      assert forall t :: t in ts[1..] ==> t in ts;
      SpentCoversWindow(cats, ts[1..], p);
    }
  }

  lemma {:induction false} ZeroSpendingWithoutTransactions(cats: seq<BudgetCategory>, p: Period)
    ensures SpentOverCategories(cats, [], p) == 0.0
  {
    if cats != [] {
      ZeroSpendingWithoutTransactions(cats[1..], p);
    }
  }

  // ---------------------------------------------------------------------
  // Deleting a category
  // ---------------------------------------------------------------------

  /** Removing the transactions of category `id` leaves every other
      category's spending as it was. */
  lemma {:induction false} CategorySpentWithout(ts: seq<Transaction>, id: Id, other: Id, p: Period)
    requires other != id
    ensures CategorySpent(Without(ts, TransactionCategoryId, id), other, p) == CategorySpent(ts, other, p)
  {
    if ts != [] {
      CategorySpentWithout(ts[1..], id, other, p);
      WithoutCons(ts, TransactionCategoryId, id);
      var head := if ts[0].budgetCategoryId != id then [ts[0]] else [];
      CategorySpentAppend(head, Without(ts[1..], TransactionCategoryId, id), other, p);
    }
  }

  lemma SpendingByCategoryAppend(a: seq<BudgetCategory>, b: seq<BudgetCategory>, ts: seq<Transaction>, p: Period)
    ensures SpendingByCategory(a + b, ts, p) == SpendingByCategory(a, ts, p) + SpendingByCategory(b, ts, p)
  {
  }

  /** After deleting category `id` and, by the cascade, its transactions,
      the spending report is the old one without that category's entry:
      every other entry is unchanged and keeps its place. */
  lemma {:induction false} SpendingAfterCascade(cats: seq<BudgetCategory>, ts: seq<Transaction>, p: Period, id: Id)
    ensures SpendingByCategory(Without(cats, CategoryId, id), Without(ts, TransactionCategoryId, id), p)
            == Without(SpendingByCategory(cats, ts, p), SpendingCategoryId, id)
  {
    var ts' := Without(ts, TransactionCategoryId, id);
    if cats != [] {
      SpendingAfterCascade(cats[1..], ts, p, id);
      var rows := SpendingByCategory(cats, ts, p);
      assert rows == [rows[0]] + SpendingByCategory(cats[1..], ts, p);
      var head := if cats[0].id != id then [cats[0]] else [];
      assert Without(cats, CategoryId, id) == head + Without(cats[1..], CategoryId, id);
      SpendingByCategoryAppend(head, Without(cats[1..], CategoryId, id), ts', p);
      if cats[0].id != id {
        CategorySpentWithout(ts, id, cats[0].id, p);
      }
    }
  }

  // ---------------------------------------------------------------------
  // Transactions of a period
  // ---------------------------------------------------------------------

  /** One row of `getTransactions`: a transaction with its category's name
      and type. */
  datatype TransactionView = TransactionView(
    id: Id, amount: real, date: DateTime, description: Option<string>,
    categoryId: Id, categoryName: string, categoryType: CategoryType)

  /** The first category with id `id`, the inner join's partner row. */
  function FindCategory(cats: seq<BudgetCategory>, id: Id): (r: Option<BudgetCategory>)
    ensures r.Some? ==> r.value in cats && r.value.id == id
    ensures r.None? ==> forall c :: c in cats ==> c.id != id
  {
    if cats == [] then None
    else if cats[0].id == id then Some(cats[0])
    else FindCategory(cats[1..], id)
  }

  /** With unique ids the join partner is the one category carrying the id. */
  lemma {:induction false} FindCategoryUnique(cats: seq<BudgetCategory>, c: BudgetCategory)
    requires Distinct(Keys(cats, CategoryId)) && c in cats
    ensures FindCategory(cats, c.id) == Some(c)
  {
    if cats[0] != c {
      assert Keys(cats[1..], CategoryId) == Keys(cats, CategoryId)[1..];
      var j :| 0 <= j < |cats| && cats[j] == c;
      assert Keys(cats, CategoryId)[0] != Keys(cats, CategoryId)[j];
      FindCategoryUnique(cats[1..], c);
    }
  }

  function Joined(t: Transaction, c: BudgetCategory): TransactionView {
    TransactionView(t.id, t.amount, t.date, t.description, t.budgetCategoryId, c.name, c.categoryType)
  }

  /** `v` is the joined row of transaction `t`: dated in `p`, with a
      category to join. */
  ghost predicate JoinsTo(v: TransactionView, t: Transaction, cats: seq<BudgetCategory>, p: Period) {
    InPeriod(t.date, p) && FindCategory(cats, t.budgetCategoryId).Some?
    && v == Joined(t, FindCategory(cats, t.budgetCategoryId).value)
  }

  /** The `WHERE` and `INNER JOIN` of `getTransactions`, before ordering. */
  function JoinInWindow(ts: seq<Transaction>, cats: seq<BudgetCategory>, p: Period): seq<TransactionView> {
    if ts == [] then []
    else
      var found := FindCategory(cats, ts[0].budgetCategoryId);
      (if InPeriod(ts[0].date, p) && found.Some? then [Joined(ts[0], found.value)] else [])
      + JoinInWindow(ts[1..], cats, p)
  }

  lemma {:induction false} JoinInWindowMembership(ts: seq<Transaction>, cats: seq<BudgetCategory>, p: Period,
                                                  v: TransactionView)
    ensures v in JoinInWindow(ts, cats, p) <==> exists t :: t in ts && JoinsTo(v, t, cats, p)
  {
    if ts != [] {
      JoinInWindowMembership(ts[1..], cats, p, v);
      assert forall t :: t in ts <==> t == ts[0] || t in ts[1..];
      if v in JoinInWindow(ts, cats, p) && v !in JoinInWindow(ts[1..], cats, p) {
        assert JoinsTo(v, ts[0], cats, p);
      }
    }
  }

  predicate EarlierOrSame(a: TransactionView, b: TransactionView) {
    AtOrBefore(a.date, b.date)
  }

  lemma EarlierOrSameTotalPreorder()
    ensures TotalPreorder(EarlierOrSame)
  {
    AtOrBeforeTotalOrder();
  }

  /** Reference definition of `getTransactions`: the joined in-period rows
      ordered by date. */
  function TransactionsForPeriod(ts: seq<Transaction>, cats: seq<BudgetCategory>, p: Period)
    : (r: seq<TransactionView>)
    ensures SortedBy(r, EarlierOrSame)
    ensures multiset(r) == multiset(JoinInWindow(ts, cats, p))
  {
    EarlierOrSameTotalPreorder();
    SortBySorted(JoinInWindow(ts, cats, p), EarlierOrSame);
    SortBy(JoinInWindow(ts, cats, p), EarlierOrSame)
  }

  /** `getTransactions` lists exactly the transactions dated within the
      period whose category exists, each joined with that category. */
  lemma TransactionsForPeriodMembership(ts: seq<Transaction>, cats: seq<BudgetCategory>, p: Period,
                                        v: TransactionView)
    ensures v in TransactionsForPeriod(ts, cats, p) <==>
            exists t :: t in ts && JoinsTo(v, t, cats, p)
  {
    assert v in TransactionsForPeriod(ts, cats, p) <==> v in multiset(TransactionsForPeriod(ts, cats, p));
    JoinInWindowMembership(ts, cats, p, v);
  }

  /** With unique category ids, a joined row carries the transaction's own
      category's name and type. */
  lemma JoinsToUnique(v: TransactionView, t: Transaction, c: BudgetCategory, cats: seq<BudgetCategory>, p: Period)
    requires Distinct(Keys(cats, CategoryId)) && c in cats && c.id == t.budgetCategoryId
    ensures JoinsTo(v, t, cats, p) <==> InPeriod(t.date, p) && v == Joined(t, c)
  {
    FindCategoryUnique(cats, c);
  }

  lemma {:induction false} FindCategoryWithout(cats: seq<BudgetCategory>, id: Id, x: Id)
    ensures FindCategory(Without(cats, CategoryId, id), x) == if x == id then None else FindCategory(cats, x)
  {
    if cats != [] {
      FindCategoryWithout(cats[1..], id, x);
      WithoutCons(cats, CategoryId, id);
      var rest := Without(cats[1..], CategoryId, id);
      if cats[0].id != id {
        assert ([cats[0]] + rest)[0] == cats[0] && ([cats[0]] + rest)[1..] == rest;
        assert Without(cats, CategoryId, id) == [cats[0]] + rest;
      } else {
        assert Without(cats, CategoryId, id) == rest;
      }
    }
  }

  /** After deleting category `id` and, by the cascade, its transactions,
      the period's list loses exactly the rows of that category. */
  lemma TransactionsAfterCascade(cats: seq<BudgetCategory>, ts: seq<Transaction>, p: Period, id: Id,
                                 v: TransactionView)
    ensures v in TransactionsForPeriod(Without(ts, TransactionCategoryId, id), Without(cats, CategoryId, id), p)
            <==> v in TransactionsForPeriod(ts, cats, p) && v.categoryId != id
  {
    var ts', cats' := Without(ts, TransactionCategoryId, id), Without(cats, CategoryId, id);
    TransactionsForPeriodMembership(ts', cats', p, v);
    TransactionsForPeriodMembership(ts, cats, p, v);
    forall t ensures JoinsTo(v, t, cats', p) <==> JoinsTo(v, t, cats, p) && t.budgetCategoryId != id {
      FindCategoryWithout(cats, id, t.budgetCategoryId);
    }
  }

  /** The sum of the amounts of a list of joined rows. */
  ghost function ListedTotal(vs: seq<TransactionView>): real {
    if vs == [] then 0.0 else vs[0].amount + ListedTotal(vs[1..])
  }

  lemma {:induction false} ListedTotalInsert(x: TransactionView, vs: seq<TransactionView>)
    ensures ListedTotal(InsertBy(x, vs, EarlierOrSame)) == x.amount + ListedTotal(vs)
  {
    if vs != [] && !EarlierOrSame(x, vs[0]) {
      ListedTotalInsert(x, vs[1..]);
    }
  }

  lemma {:induction false} ListedTotalSorted(vs: seq<TransactionView>)
    ensures ListedTotal(SortBy(vs, EarlierOrSame)) == ListedTotal(vs)
  {
    if vs != [] {
      ListedTotalSorted(vs[1..]);
      ListedTotalInsert(vs[0], SortBy(vs[1..], EarlierOrSame));
    }
  }

  lemma {:induction false} JoinedTotal(ts: seq<Transaction>, cats: seq<BudgetCategory>, p: Period)
    requires forall t :: t in ts ==> FindCategory(cats, t.budgetCategoryId).Some?
    ensures ListedTotal(JoinInWindow(ts, cats, p)) == InWindowTotal(ts, p)
  {
    if ts != [] {
      assert ts[0] in ts;
      assert forall t :: t in ts[1..] ==> t in ts;
      JoinedTotal(ts[1..], cats, p);
      var head := JoinInWindow(ts, cats, p)[..if InPeriod(ts[0].date, p) then 1 else 0];
      ListedTotalAppend(head, JoinInWindow(ts[1..], cats, p));
      assert JoinInWindow(ts, cats, p) == head + JoinInWindow(ts[1..], cats, p);
    }
  }

  lemma {:induction false} ListedTotalAppend(a: seq<TransactionView>, b: seq<TransactionView>)
    ensures ListedTotal(a + b) == ListedTotal(a) + ListedTotal(b)
  {
    if a == [] {
      assert a + b == b;
    } else {
      assert (a + b)[0] == a[0] && (a + b)[1..] == a[1..] + b;
      ListedTotalAppend(a[1..], b);
    }
  }

  /** Under referential integrity the listed transactions of a period add
      up to the same total as the period's transactions. */
  lemma TransactionsForPeriodTotal(ts: seq<Transaction>, cats: seq<BudgetCategory>, p: Period)
    requires forall t :: t in ts ==> t.budgetCategoryId in Keys(cats, CategoryId)
    ensures ListedTotal(TransactionsForPeriod(ts, cats, p)) == InWindowTotal(ts, p)
  {
    forall t | t in ts ensures FindCategory(cats, t.budgetCategoryId).Some? {
      KeysMembership(cats, CategoryId, t.budgetCategoryId);
    }
    ListedTotalSorted(JoinInWindow(ts, cats, p));
    JoinedTotal(ts, cats, p);
  }
}
