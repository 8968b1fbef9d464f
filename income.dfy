/** The frequency normaliser and the income totals: an income amount is
    turned into its monthly equivalent through a fixed multiplier table,
    and a period (half a month) counts half of that, except that income
    without a frequency counts in full. */
module Income {
  import opened Common
  import opened Schema

  /** Monthly multipliers by frequency label (`FREQUENCY_TO_MONTHLY`). */
  const FREQUENCY_TO_MONTHLY: map<string, real> :=
    map["none" := 0.0, "weekly" := 4.33, "biweekly" := 2.17, "monthly" := 1.0, "yearly" := 1.0 / 12.0]

  /** The table's multiplier, or 1 for a label the table lacks (`?? 1`). */
  function Multiplier(frequency: string): real {
    if frequency in FREQUENCY_TO_MONTHLY then FREQUENCY_TO_MONTHLY[frequency] else 1.0
  }

  /** `toMonthlyAmount`. */
  function ToMonthlyAmount(amount: real, frequency: string): real {
    amount * Multiplier(frequency)
  }

  /** The multiplier of every enum value, and the monthly default for any
      other label. */
  lemma MonthlyMultipliers(amount: real, other: string)
    requires ParseFrequency(other).None?
    ensures ToMonthlyAmount(amount, NoFrequency.Label()) == 0.0
    ensures ToMonthlyAmount(amount, Weekly.Label()) == amount * 4.33
    ensures ToMonthlyAmount(amount, Biweekly.Label()) == amount * 2.17
    ensures ToMonthlyAmount(amount, Monthly.Label()) == amount
    ensures ToMonthlyAmount(amount, Yearly.Label()) == amount / 12.0
    ensures ToMonthlyAmount(amount, other) == amount
  {
    assert other !in FREQUENCY_TO_MONTHLY by {
      assert Weekly.Label() == "weekly" && Biweekly.Label() == "biweekly" && Yearly.Label() == "yearly";
      assert NoFrequency.Label() == "none" && Monthly.Label() == "monthly";
    }
  }

  predicate IsActive(s: IncomeSource) { s.isActive == 1 }

  /** `getIncomeSources`: the active sources, each once, in table order. */
  function ActiveSources(sources: seq<IncomeSource>): (r: seq<IncomeSource>)
    ensures forall s :: s in r <==> s in sources && s.isActive == 1
    ensures forall s :: multiset(r)[s] == if s.isActive == 1 then multiset(sources)[s] else 0
    ensures Subsequence(r, sources)
  {
    FilterSelects(sources, IsActive);
    Filter(sources, IsActive)
  }

  /** The monthly equivalent of one source. */
  function MonthlyOf(s: IncomeSource): real {
    ToMonthlyAmount(s.amount, s.frequency.Label())
  }

  /** The `reduce` of `getTotalMonthlyIncome` over the sources it is given. */
  function TotalMonthlyIncome(sources: seq<IncomeSource>): real {
    if sources == [] then 0.0 else MonthlyOf(sources[0]) + TotalMonthlyIncome(sources[1..])
  }

  /** The sum is `getTotalMonthlyIncome`'s `reduce` from 0, left to right. */
  lemma {:induction false} MonthlyIncomeMatchesReduce(sources: seq<IncomeSource>)
    ensures TotalMonthlyIncome(sources) == Reduce(sources, MonthlyOf, 0.0)
  {
    if sources != [] {
      MonthlyIncomeMatchesReduce(sources[1..]);
      ReduceFrom(sources[1..], MonthlyOf, 0.0 + MonthlyOf(sources[0]));
    }
  }

  /** What one source adds to a period's income: a source without a
      frequency counts in full, any other counts half its monthly equivalent. */
  function PeriodShare(s: IncomeSource): real {
    if s.frequency == NoFrequency then s.amount else MonthlyOf(s) / 2.0
  }

  function PeriodIncome(sources: seq<IncomeSource>): real {
    if sources == [] then 0.0 else PeriodShare(sources[0]) + PeriodIncome(sources[1..])
  }

  /** The total amount of the sources without a frequency. */
  function UnscheduledIncome(sources: seq<IncomeSource>): real {
    if sources == [] then 0.0
    else (if sources[0].frequency == NoFrequency then sources[0].amount else 0.0)
         + UnscheduledIncome(sources[1..])
  }

  lemma {:induction false} PeriodIncomeAppend(a: seq<IncomeSource>, b: seq<IncomeSource>)
    ensures PeriodIncome(a + b) == PeriodIncome(a) + PeriodIncome(b)
  {
    if a == [] {
      assert a + b == b;
    } else {
      assert (a + b)[0] == a[0] && (a + b)[1..] == a[1..] + b;
      PeriodIncomeAppend(a[1..], b);
    }
  }

  /** `getTotalPeriodIncome`'s loop over the sources it is given. */
  method TotalPeriodIncome(sources: seq<IncomeSource>) returns (total: real)
    ensures total == PeriodIncome(sources)
  {
    total := 0.0;
    for i := 0 to |sources|
      invariant total == PeriodIncome(sources[..i])
    {
      var s := sources[i];
      var amount := s.amount;
      if s.frequency.Label() == "none" {
        total := total + amount;
      } else {
        total := total + (amount * Multiplier(s.frequency.Label())) / 2.0;
      }
      assert sources[..i + 1] == sources[..i] + [s];
      PeriodIncomeAppend(sources[..i], [s]);
    }
    assert sources[..|sources|] == sources;
  }

  /** The period income is half the monthly income plus the income that has
      no frequency: the "none" multiplier 0 keeps such income out of the
      monthly total, and the period adds it back undivided. */
  lemma {:induction false} PeriodIncomeIsHalfMonthlyPlusUnscheduled(sources: seq<IncomeSource>)
    ensures PeriodIncome(sources) == TotalMonthlyIncome(sources) / 2.0 + UnscheduledIncome(sources)
  {
    if sources != [] {
      PeriodIncomeIsHalfMonthlyPlusUnscheduled(sources[1..]);
    }
  }

  /** The totals only ever see active sources. */
  lemma {:induction false} InactiveSourcesIgnored(sources: seq<IncomeSource>)
    ensures (forall s :: s in sources ==> s.isActive != 1) ==> PeriodIncome(ActiveSources(sources)) == 0.0
    ensures (forall s :: s in sources ==> s.isActive != 1) ==> TotalMonthlyIncome(ActiveSources(sources)) == 0.0
  {
  }

  /** A monthly source of 100 and a source of 50 without a frequency give a
      period income of 100, and a monthly income of 100. */
  lemma PeriodIncomeExample(now: Calendar.DateTime)
    ensures var sources := [IncomeSource("a", "Salary", 100.0, Monthly, 1, now),
                            IncomeSource("b", "Gift", 50.0, NoFrequency, 1, now)];
            PeriodIncome(sources) == 100.0 && TotalMonthlyIncome(sources) == 100.0
  {
    var sources := [IncomeSource("a", "Salary", 100.0, Monthly, 1, now),
                    IncomeSource("b", "Gift", 50.0, NoFrequency, 1, now)];
    assert sources[1..][1..] == [];
    assert Monthly.Label() == "monthly" && NoFrequency.Label() == "none";
    assert MonthlyOf(sources[0]) == 100.0 && MonthlyOf(sources[1]) == 0.0;
    assert PeriodShare(sources[0]) == 50.0 && PeriodShare(sources[1]) == 50.0;
    assert sources[1..][0] == sources[1];
    assert PeriodIncome(sources[1..]) == 50.0 && TotalMonthlyIncome(sources[1..]) == 0.0;
  }
}
