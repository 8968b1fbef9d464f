/** The three tables of the budgeting database: their enums, row shapes,
    column defaults, money columns and the integrity rules the database
    enforces (primary keys and the cascading foreign key from transactions
    to budget categories). */
module Schema {
  import opened Common
  import opened Calendar

  /** A uuid primary key, as text. */
  type Id = string

  /** The `income_frequency` enum. */
  datatype Frequency = NoFrequency | Weekly | Biweekly | Monthly | Yearly {
    /** The label stored in the column. */
    function Label(): string {
      match this
      case NoFrequency => "none"
      case Weekly => "weekly"
      case Biweekly => "biweekly"
      case Monthly => "monthly"
      case Yearly => "yearly"
    }
  }

  /** The enum value a label denotes; `None` when the database would refuse
      the label as invalid input for the enum. */
  function ParseFrequency(text: string): (f: Option<Frequency>)
    ensures f.Some? ==> f.value.Label() == text
    ensures f.None? ==> forall g: Frequency :: g.Label() != text
  {
    if text == "none" then Some(NoFrequency)
    else if text == "weekly" then Some(Weekly)
    else if text == "biweekly" then Some(Biweekly)
    else if text == "monthly" then Some(Monthly)
    else if text == "yearly" then Some(Yearly)
    else None
  }

  /** The `budget_category_type` enum. */
  datatype CategoryType = Expense | Savings | Insurance | Other {
    function Label(): string {
      match this
      case Expense => "expense"
      case Savings => "savings"
      case Insurance => "insurance"
      case Other => "other"
    }
  }

  function ParseCategoryType(text: string): (c: Option<CategoryType>)
    ensures c.Some? ==> c.value.Label() == text
    ensures c.None? ==> forall d: CategoryType :: d.Label() != text
  {
    if text == "expense" then Some(Expense)
    else if text == "savings" then Some(Savings)
    else if text == "insurance" then Some(Insurance)
    else if text == "other" then Some(Other)
    else None
  }

  /** Every enum value survives a trip through its stored label. */
  lemma LabelsRoundTrip(f: Frequency, c: CategoryType)
    ensures ParseFrequency(f.Label()) == Some(f)
    ensures ParseCategoryType(c.Label()) == Some(c)
  {
  }

  const DEFAULT_FREQUENCY: Frequency := Monthly
  const DEFAULT_CATEGORY_TYPE: CategoryType := Expense
  const DEFAULT_IS_ACTIVE: int := 1

  /** A value a `decimal(12, 2)` column holds: a whole number of cents and
      at most 12 digits in all, so at most 10 before the decimal point. */
  predicate IsMoney(x: real) {
    var cents := x * 100.0;
    cents == cents.Floor as real && -1_000_000_000_000 < cents.Floor < 1_000_000_000_000
  }

  /** A row of `income_sources`. */
  datatype IncomeSource = IncomeSource(
    id: Id, name: string, amount: real, frequency: Frequency, isActive: int, createdAt: DateTime)

  /** A row of `budget_categories`. */
  datatype BudgetCategory = BudgetCategory(
    id: Id, name: string, categoryType: CategoryType, allocatedAmount: real, createdAt: DateTime)

  /** A row of `transactions`; `description` is the one nullable column. */
  datatype Transaction = Transaction(
    id: Id, amount: real, budgetCategoryId: Id, date: DateTime, description: Option<string>,
    createdAt: DateTime)

  function SourceId(s: IncomeSource): Id { s.id }
  function CategoryId(c: BudgetCategory): Id { c.id }
  function TransactionId(t: Transaction): Id { t.id }
  function TransactionCategoryId(t: Transaction): Id { t.budgetCategoryId }

  /** The row an insert produces, with the column defaults filled in for the
      columns the insert leaves out. */
  function InsertedIncomeSource(id: Id, name: string, amount: real, frequency: Option<Frequency>,
                                now: DateTime): (s: IncomeSource)
    ensures s.id == id && s.name == name && s.amount == amount && s.createdAt == now
    ensures s.frequency == (if frequency.Some? then frequency.value else Monthly)
    ensures s.isActive == 1
  {
    IncomeSource(id, name, amount, frequency.GetOr(DEFAULT_FREQUENCY), DEFAULT_IS_ACTIVE, now)
  }

  function InsertedBudgetCategory(id: Id, name: string, categoryType: Option<CategoryType>,
                                  allocatedAmount: real, now: DateTime): (c: BudgetCategory)
    ensures c.id == id && c.name == name && c.allocatedAmount == allocatedAmount && c.createdAt == now
    ensures c.categoryType == (if categoryType.Some? then categoryType.value else Expense)
  {
    BudgetCategory(id, name, categoryType.GetOr(DEFAULT_CATEGORY_TYPE), allocatedAmount, now)
  }

  /** What the database guarantees of its three tables at all times: unique
      primary keys, every transaction referring to a live category, money
      columns holding `decimal(12, 2)` values and well-formed timestamps. */
  ghost predicate TablesConsistent(sources: seq<IncomeSource>, categories: seq<BudgetCategory>,
                                   transactions: seq<Transaction>) {
    && Distinct(Keys(sources, SourceId))
    && Distinct(Keys(categories, CategoryId))
    && Distinct(Keys(transactions, TransactionId))
    && (forall t :: t in transactions ==> t.budgetCategoryId in Keys(categories, CategoryId))
    && (forall s :: s in sources ==> IsMoney(s.amount) && ValidDateTime(s.createdAt))
    && (forall c :: c in categories ==> IsMoney(c.allocatedAmount) && ValidDateTime(c.createdAt))
    && (forall t :: t in transactions ==>
          IsMoney(t.amount) && ValidDateTime(t.date) && ValidDateTime(t.createdAt))
  }
}
