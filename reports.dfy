/** The Reports page's three summary cards over the monthly rows: total
    income, total expenses and net savings for the six months shown. */
module Reports {
  import opened Common
  import opened MockData

  /** `reduce((sum, m) => sum + m.income, 0)`. */
  function TotalIncome(rows: seq<MonthlyRow>): real
  {
    Sum(rows, (m: MonthlyRow) => m.income)
  }

  /** `reduce((sum, m) => sum + m.expenses, 0)`. */
  function TotalExpenses(rows: seq<MonthlyRow>): real
  {
    Sum(rows, (m: MonthlyRow) => m.expenses)
  }

  /** `reduce((sum, m) => sum + m.income - m.expenses, 0)`: each month's
      saving added on in turn. */
  function NetSavings(rows: seq<MonthlyRow>): real
  {
    Sum(rows, (m: MonthlyRow) => m.income - m.expenses)
  }

  /** Net savings are total income less total expenses; no rows give zero on
      all three cards. */
  lemma NetIsIncomeLessExpenses(rows: seq<MonthlyRow>)
    ensures NetSavings(rows) == TotalIncome(rows) - TotalExpenses(rows)
    ensures rows == [] ==> TotalIncome(rows) == 0.0 && TotalExpenses(rows) == 0.0 && NetSavings(rows) == 0.0
  {
    SumDifference(rows, (m: MonthlyRow) => m.income, (m: MonthlyRow) => m.expenses,
      (m: MonthlyRow) => m.income - m.expenses);
  }

  /** A period in which no month spends more than it earns does not lose money. */
  lemma NoLosingMonthNoLoss(rows: seq<MonthlyRow>)
    requires forall m :: m in rows ==> m.expenses <= m.income
    ensures NetSavings(rows) >= 0.0
    ensures TotalExpenses(rows) <= TotalIncome(rows)
  {
    SumNonNegative(rows, (m: MonthlyRow) => m.income - m.expenses);
    NetIsIncomeLessExpenses(rows);
  }

  /** The seed months: 47850 in, 20780 out, 27070 saved. */
  lemma SeedReport()
    ensures TotalIncome(MonthlyChartData) == 47850.0
    ensures TotalExpenses(MonthlyChartData) == 20780.0
    ensures NetSavings(MonthlyChartData) == 27070.0
  {
    var rs := MonthlyChartData;
    var inc := (m: MonthlyRow) => m.income;
    var exp := (m: MonthlyRow) => m.expenses;
    assert rs[..6] == rs && rs[..6][..5] == rs[..5] && rs[..5][..4] == rs[..4];
    assert rs[..4][..3] == rs[..3] && rs[..3][..2] == rs[..2] && rs[..2][..1] == rs[..1];
    assert rs[..1][..0] == [];
    assert Sum(rs[..1], inc) == 7200.0 && Sum(rs[..1], exp) == 3100.0;
    assert Sum(rs[..2], inc) == 15000.0 && Sum(rs[..2], exp) == 6500.0;
    assert Sum(rs[..3], inc) == 23100.0 && Sum(rs[..3], exp) == 9700.0;
    assert Sum(rs[..4], inc) == 30600.0 && Sum(rs[..4], exp) == 13300.0;
    assert Sum(rs[..5], inc) == 39500.0 && Sum(rs[..5], exp) == 17500.0;
    NetIsIncomeLessExpenses(rs);
  }
}
