/** The dashboard's record types and the seed data every widget renders. */
module MockData {

  /** A calendar date as written in the data, `YYYY-MM-DD`. */
  datatype Date = Date(year: int, month: int, day: int)

  /** Chronological order; for zero-padded ISO strings it coincides with string order. */
  predicate DateLe(a: Date, b: Date)
  {
    a.year < b.year
    || (a.year == b.year && (a.month < b.month || (a.month == b.month && a.day <= b.day)))
  }

  datatype Category =
    Food | Transport | Shopping | Bills | Entertainment | Other | Salary | Freelance | Investment

  datatype TransactionType = Income | Expense

  datatype TransactionStatus = Completed | Pending | Failed | Refunded

  datatype PaymentMethod = Card | Bank | Cash | Crypto | PayPal

  datatype Transaction = Transaction(
    id: string,
    date: Date,
    description: string,
    category: Category,
    amount: real,
    kind: TransactionType,
    status: TransactionStatus,
    paymentMethod: PaymentMethod)

  datatype StatsData = StatsData(
    totalBalance: real,
    monthlyIncome: real,
    monthlyExpenses: real,
    savingsRate: real,
    balanceChange: real,
    incomeChange: real,
    expenseChange: real,
    investmentValue: real,
    investmentChange: real,
    creditScore: int,
    budgetUsed: real)

  /** Leap years of the Gregorian calendar. */
  predicate IsLeapYear(y: int)
  {
    (y % 4 == 0 && y % 100 != 0) || y % 400 == 0
  }

  /** How many leap years precede year `y` (counting from year 1). */
  function LeapYearsBefore(y: int): int
  {
    (y - 1) / 4 - (y - 1) / 100 + (y - 1) / 400
  }

  /** Days of the year before the first of month `m`. */
  function DaysBeforeMonth(y: int, m: int): int
  {
    var days :=
      if m <= 1 then 0 else if m == 2 then 31 else if m == 3 then 59 else if m == 4 then 90
      else if m == 5 then 120 else if m == 6 then 151 else if m == 7 then 181 else if m == 8 then 212
      else if m == 9 then 243 else if m == 10 then 273 else if m == 11 then 304 else 334;
    if m > 2 && IsLeapYear(y) then days + 1 else days
  }

  /** The days from 1970-01-01 to a date, so that subtracting two day numbers
      counts the whole days between them. */
  function DayNumber(d: Date): int
  {
    365 * (d.year - 1970) + (LeapYearsBefore(d.year) - LeapYearsBefore(1970))
    + DaysBeforeMonth(d.year, d.month) + d.day - 1
  }

  /** Day numbers start at the Unix epoch. */
  lemma DayNumberEpoch()
    ensures DayNumber(Date(1970, 1, 1)) == 0
  {
  }

  /** The next day of the same month has the next day number. */
  lemma DayNumberNextDay(y: int, m: int, d: int)
    ensures DayNumber(Date(y, m, d + 1)) == DayNumber(Date(y, m, d)) + 1
  {
  }

  /** Day numbers run on across every month end and year end: the first of
      the next month follows the last day of this one, and a year lasts 366
      days when it is a leap year and 365 otherwise. 2024 and 2026 show both. */
  lemma DayNumberRollover(y: int, m: int)
    requires 1 <= m <= 12
    ensures m < 12 ==> DayNumber(Date(y, m + 1, 1)) == DayNumber(Date(y, m, DaysInMonth(y, m))) + 1
    ensures DayNumber(Date(y + 1, 1, 1)) == DayNumber(Date(y, 12, 31)) + 1
    ensures DayNumber(Date(y + 1, 1, 1)) - DayNumber(Date(y, 1, 1)) == if IsLeapYear(y) then 366 else 365
    ensures IsLeapYear(2024) && !IsLeapYear(2026)
  {
    LeapYearsStep(y);
  }

  /** The number of days in month `m` of year `y`. */
  function DaysInMonth(y: int, m: int): int
  {
    if m == 12 then 31 else DaysBeforeMonth(y, m + 1) - DaysBeforeMonth(y, m)
  }

  /** The calendar day before `d`. */
  function PreviousDay(d: Date): Date
  {
    if d.day > 1 then Date(d.year, d.month, d.day - 1)
    else if d.month > 1 then Date(d.year, d.month - 1, DaysInMonth(d.year, d.month - 1))
    else Date(d.year - 1, 12, 31)
  }

  /** One more year adds one to a quotient exactly when it is a multiple. */
  lemma QuotientSteps(z: int)
    ensures z / 4 - (z - 1) / 4 == if z % 4 == 0 then 1 else 0
    ensures z / 100 - (z - 1) / 100 == if z % 100 == 0 then 1 else 0
    ensures z / 400 - (z - 1) / 400 == if z % 400 == 0 then 1 else 0
  {
  }

  /** Passing year `y` adds one to the leap-year count exactly when `y` is a leap year. */
  lemma LeapYearsStep(y: int)
    ensures LeapYearsBefore(y + 1) - LeapYearsBefore(y) == if IsLeapYear(y) then 1 else 0
  {
    QuotientSteps(y);
  }

  /** The day before a date of a real month has the previous day number,
      across month and year ends. */
  lemma PreviousDayNumber(d: Date)
    requires 1 <= d.month <= 12 && d.day >= 1
    ensures DayNumber(PreviousDay(d)) + 1 == DayNumber(d)
  {
    if d.day == 1 && d.month == 1 {
      LeapYearsStep(d.year - 1);
    }
  }

  /** A bill; `dueDate` is a day number, so `dueDate - today` counts whole days. */
  datatype Bill = Bill(
    id: string,
    name: string,
    amount: real,
    dueDate: int,
    isAutoPay: bool,
    category: string,
    isOverdue: bool,
    icon: string)

  /** A savings goal; `deadline` is a day number. */
  datatype SavingsGoal = SavingsGoal(
    id: string,
    name: string,
    targetAmount: real,
    currentAmount: real,
    deadline: int,
    icon: string,
    color: string)

  datatype BillingCycle = Monthly | Yearly

  /** A subscription; `nextBilling` is a day number. */
  datatype Subscription = Subscription(
    id: string,
    name: string,
    amount: real,
    billingCycle: BillingCycle,
    nextBilling: int,
    icon: string,
    category: string,
    color: string)

  datatype InvestmentType = Stock | Bond | CryptoAsset | RealEstate | Etf

  datatype Investment = Investment(
    id: string,
    name: string,
    symbol: string,
    kind: InvestmentType,
    value: real,
    change24h: real,
    quantity: real,
    color: string)

  datatype NotificationType = Warning | Info | Success | Alert

  datatype Notification = Notification(
    id: string,
    kind: NotificationType,
    title: string,
    message: string,
    time: string,
    isRead: bool)

  datatype InsightType = Tip | InsightWarning | Achievement | InsightAlert

  datatype FinancialInsight = FinancialInsight(
    id: string,
    kind: InsightType,
    title: string,
    description: string,
    icon: string)

  datatype FinancialHealthScore = FinancialHealthScore(
    overall: int,
    savingsRate: int,
    debtToIncome: int,
    emergencyFund: int,
    spendingDiscipline: int,
    investmentDiversification: int)

  datatype BudgetCategory = BudgetCategory(
    name: string,
    budget: real,
    spent: real,
    color: string,
    icon: string)

  /** The category as the data spells it (`'Food'`, `'Transport'`, ...). */
  function CategoryName(c: Category): string
  {
    match c
    case Food => "Food"
    case Transport => "Transport"
    case Shopping => "Shopping"
    case Bills => "Bills"
    case Entertainment => "Entertainment"
    case Other => "Other"
    case Salary => "Salary"
    case Freelance => "Freelance"
    case Investment => "Investment"
  }

  function StatusName(s: TransactionStatus): string
  {
    match s
    case Completed => "completed"
    case Pending => "pending"
    case Failed => "failed"
    case Refunded => "refunded"
  }

  /** Distinct categories have distinct names, and no name is the `'all'` sentinel. */
  lemma CategoryNamesDistinct(a: Category, b: Category)
    ensures CategoryName(a) == CategoryName(b) <==> a == b
    ensures CategoryName(a) != "all"
  {
  }

  /** The chart colour of each transaction category. */
  function GetCategoryColor(c: Category): (color: string)
    ensures c == Salary <==> color == "hsl(160, 84%, 39%)"
    ensures c in {Shopping, Freelance} <==> color == "hsl(270, 70%, 60%)"
    ensures c in {Transport, Category.Investment} <==> color == "hsl(239, 84%, 67%)"
  {
    match c
    case Food => "hsl(38, 92%, 50%)"
    case Transport => "hsl(239, 84%, 67%)"
    case Shopping => "hsl(270, 70%, 60%)"
    case Bills => "hsl(187, 94%, 43%)"
    case Entertainment => "hsl(330, 81%, 60%)"
    case Other => "hsl(215, 20%, 65%)"
    case Salary => "hsl(160, 84%, 39%)"
    case Freelance => "hsl(270, 70%, 60%)"
    case Investment => "hsl(239, 84%, 67%)"
  }

  // ---------------------------------------------------------------------
  // Seed data

  const Stats: StatsData := StatsData(24563.00, 8350.00, 3280.00, 60.7, 12.5, 8.2, -5.3, 45230.00, 3.8, 742, 67.3)

  const Transactions: seq<Transaction> := [
    Transaction("1", Date(2026, 1, 23), "Salary Deposit", Salary, 5500.00, Income, Completed, Bank),
    Transaction("2", Date(2026, 1, 22), "Grocery Shopping", Food, 156.32, Expense, Completed, Card),
    Transaction("3", Date(2026, 1, 21), "Uber Ride", Transport, 24.50, Expense, Completed, Card),
    Transaction("4", Date(2026, 1, 21), "Freelance Project", Freelance, 1200.00, Income, Pending, PayPal),
    Transaction("5", Date(2026, 1, 20), "Netflix Subscription", Entertainment, 15.99, Expense, Completed, Card),
    Transaction("6", Date(2026, 1, 20), "Electric Bill", Bills, 145.00, Expense, Completed, Bank),
    Transaction("7", Date(2026, 1, 19), "Amazon Purchase", Shopping, 89.99, Expense, Refunded, Card),
    Transaction("8", Date(2026, 1, 18), "Restaurant Dinner", Food, 67.50, Expense, Completed, Card),
    Transaction("9", Date(2026, 1, 17), "Gas Station", Transport, 55.00, Expense, Completed, Card),
    Transaction("10", Date(2026, 1, 16), "Consulting Fee", Freelance, 850.00, Income, Failed, Bank),
    Transaction("11", Date(2026, 1, 15), "Internet Bill", Bills, 79.99, Expense, Completed, Bank),
    Transaction("12", Date(2026, 1, 14), "Coffee Shop", Food, 12.50, Expense, Completed, Card),
    Transaction("13", Date(2026, 1, 13), "Bitcoin Purchase", Category.Investment, 500.00, Expense, Completed, Crypto),
    Transaction("14", Date(2026, 1, 12), "Dividend Payment", Category.Investment, 125.00, Income, Completed, Bank)
  ]

  /** One month of the six-month income/expense chart. */
  datatype MonthlyRow = MonthlyRow(month: string, income: real, expenses: real)

  const MonthlyChartData: seq<MonthlyRow> := [
    MonthlyRow("Aug", 7200.0, 3100.0),
    MonthlyRow("Sep", 7800.0, 3400.0),
    MonthlyRow("Oct", 8100.0, 3200.0),
    MonthlyRow("Nov", 7500.0, 3600.0),
    MonthlyRow("Dec", 8900.0, 4200.0),
    MonthlyRow("Jan", 8350.0, 3280.0)
  ]

  const SeedBills: seq<Bill> := [
    Bill("1", "Rent", 1500.0, DayNumber(Date(2026, 1, 31)), true, "Housing", false, "Home"),
    Bill("2", "Electric Bill", 145.0, DayNumber(Date(2026, 1, 27)), false, "Utilities", false, "Zap"),
    Bill("3", "Internet", 79.99, DayNumber(Date(2026, 1, 25)), true, "Utilities", false, "Wifi"),
    Bill("4", "Phone Bill", 85.0, DayNumber(Date(2026, 1, 28)), true, "Utilities", false, "Smartphone"),
    Bill("5", "Car Insurance", 120.0, DayNumber(Date(2026, 1, 22)), false, "Insurance", true, "Car"),
    Bill("6", "Gym Membership", 49.99, DayNumber(Date(2026, 2, 1)), true, "Health", false, "Dumbbell")
  ]

  const SavingsGoals: seq<SavingsGoal> := [
    SavingsGoal("1", "Emergency Fund", 10000.0, 7500.0, DayNumber(Date(2026, 6, 1)), "Shield", "emerald"),
    SavingsGoal("2", "Vacation", 5000.0, 3200.0, DayNumber(Date(2026, 8, 15)), "Plane", "cyan"),
    SavingsGoal("3", "New Car", 25000.0, 8500.0, DayNumber(Date(2027, 1, 1)), "Car", "violet"),
    SavingsGoal("4", "Home Down Payment", 50000.0, 12000.0, DayNumber(Date(2028, 1, 1)), "Home", "amber")
  ]

  const Subscriptions: seq<Subscription> := [
    Subscription("1", "Netflix", 15.99, Monthly, DayNumber(Date(2026, 2, 20)), "Tv", "Entertainment", "#E50914"),
    Subscription("2", "Spotify", 9.99, Monthly, DayNumber(Date(2026, 2, 15)), "Music", "Entertainment", "#1DB954"),
    Subscription("3", "Adobe CC", 54.99, Monthly, DayNumber(Date(2026, 2, 10)), "Palette", "Productivity", "#FF0000"),
    Subscription("4", "iCloud", 2.99, Monthly, DayNumber(Date(2026, 2, 5)), "Cloud", "Storage", "#3B82F6"),
    Subscription("5", "GitHub Pro", 48.0, Yearly, DayNumber(Date(2026, 5, 1)), "Code", "Development", "#333333"),
    Subscription("6", "ChatGPT Plus", 20.0, Monthly, DayNumber(Date(2026, 2, 18)), "Bot", "AI", "#10A37F")
  ]

  const Investments: seq<Investment> := [
    Investment.Investment("1", "Apple Inc", "AAPL", Stock, 12500.0, 2.3, 50.0, "#A3AAAE"),
    Investment.Investment("2", "Bitcoin", "BTC", CryptoAsset, 8200.0, -1.5, 0.2, "#F7931A"),
    Investment.Investment("3", "S&P 500 ETF", "SPY", Etf, 15000.0, 0.8, 30.0, "#3B82F6"),
    Investment.Investment("4", "Ethereum", "ETH", CryptoAsset, 4500.0, 3.2, 2.0, "#627EEA"),
    Investment.Investment("5", "Treasury Bonds", "TLT", Bond, 5030.0, -0.2, 50.0, "#10B981")
  ]

  const Notifications: seq<Notification> := [
    Notification("1", Warning, "Budget Alert", "Food budget is 90% used", "5m ago", false),
    Notification("2", Info, "Bill Due Soon", "Electric bill due in 3 days", "1h ago", false),
    Notification("3", Success, "Goal Progress", "Emergency fund is 75% complete!", "2h ago", false),
    Notification("4", Alert, "Large Transaction", "$850 withdrawal detected", "1d ago", true),
    Notification("5", Success, "Payment Received", "Salary of $5,500 deposited", "1d ago", true),
    Notification("6", Info, "Investment Update", "AAPL is up 2.3% today", "2d ago", true)
  ]

  const BudgetCategories: seq<BudgetCategory> := [
    BudgetCategory("Food", 600.0, 580.0, "hsl(38, 92%, 50%)", "UtensilsCrossed"),
    BudgetCategory("Transport", 400.0, 320.0, "hsl(239, 84%, 67%)", "Car"),
    BudgetCategory("Shopping", 300.0, 450.0, "hsl(270, 70%, 60%)", "ShoppingBag"),
    BudgetCategory("Bills", 800.0, 680.0, "hsl(187, 94%, 43%)", "Receipt"),
    BudgetCategory("Entertainment", 200.0, 280.0, "hsl(330, 81%, 60%)", "Film"),
    BudgetCategory("Other", 500.0, 970.0, "hsl(215, 20%, 65%)", "MoreHorizontal")
  ]

  const HealthScore: FinancialHealthScore := FinancialHealthScore(78, 18, 15, 14, 16, 15)

  const ExchangeRates: map<string, real> := map[
    "USD" := 1.0,
    "EUR" := 0.92,
    "GBP" := 0.79,
    "JPY" := 148.50,
    "CAD" := 1.35,
    "AUD" := 1.53,
    "BTC" := 0.000024,
    "ETH" := 0.00042
  ]

  /** The seed transactions are listed most recent first. */
  lemma TransactionsNewestFirst()
    ensures forall i, j :: 0 <= i < j < |Transactions| ==> DateLe(Transactions[j].date, Transactions[i].date)
  {
    var t := Transactions;
    forall i, j | 0 <= i < j < |t| ensures DateLe(t[j].date, t[i].date) {
      assert t[i].date.year == 2026 && t[j].date.year == 2026;
      assert t[i].date.month == 1 && t[j].date.month == 1;
      assert forall k :: 0 <= k < |t| ==> t[k].date.day == 23 - k + (if k >= 3 then 1 else 0) + (if k >= 5 then 1 else 0);
    }
  }

  /** Every seed transaction has a positive amount. */
  lemma TransactionsPositive()
    ensures forall t :: t in Transactions ==> t.amount > 0.0
  {
  }

  /** The overall health score is the sum of its five parts, each out of 20. */
  lemma HealthScoreConsistent()
    ensures HealthScore.overall == HealthScore.savingsRate + HealthScore.debtToIncome
      + HealthScore.emergencyFund + HealthScore.spendingDiscipline + HealthScore.investmentDiversification
    ensures 0 <= HealthScore.savingsRate <= 20 && 0 <= HealthScore.debtToIncome <= 20
      && 0 <= HealthScore.emergencyFund <= 20 && 0 <= HealthScore.spendingDiscipline <= 20
      && 0 <= HealthScore.investmentDiversification <= 20
  {
  }

  /** USD is the base currency and every listed rate is positive. */
  lemma ExchangeRatesPositive()
    ensures "USD" in ExchangeRates && ExchangeRates["USD"] == 1.0
    ensures forall code :: code in ExchangeRates ==> ExchangeRates[code] > 0.0
  {
  }

  /** Measured from the newest transaction's date, 2026-01-23, the seed's
      `isOverdue` flags mark exactly the bills whose due date has passed. */
  lemma BillOverdueFlagsConsistent()
    ensures forall b :: b in SeedBills ==> (b.isOverdue <==> b.dueDate < DayNumber(Date(2026, 1, 23)))
  {
  }

  /** Every seed budget has a positive limit and a non-negative spent figure. */
  lemma BudgetCategoriesWellFormed()
    ensures forall c :: c in BudgetCategories ==> c.budget > 0.0 && c.spent >= 0.0
  {
  }

  /** Each budget row is coloured like the transaction category of the same name. */
  lemma BudgetColorsMatchCategories()
    ensures forall i :: 0 <= i < |BudgetCategories| ==>
      BudgetCategories[i].name == CategoryName([Food, Transport, Shopping, Bills, Entertainment, Other][i])
      && BudgetCategories[i].color == GetCategoryColor([Food, Transport, Shopping, Bills, Entertainment, Other][i])
  {
  }
}
