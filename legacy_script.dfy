/** The legacy Bootstrap page script: the add-transaction form, the
    transaction list kept in browser storage, the dashboard refresh with its
    monthly sums, the category icon lookup and the light/dark theme toggle.
    Browser storage is modelled as the field of a class; its `transactions`
    key is `None` until something has been saved. */
module LegacyScript {
  import opened Common
  import opened MockData

  /** A transaction as the script stores it: the form's strings, the parsed
      amount, and the id taken from the clock when it was added. */
  datatype StoredTransaction = StoredTransaction(
    id: int,
    kind: string,
    amount: real,
    category: string,
    description: string,
    date: Date)

  /** The add-transaction form. Each field is the text of its input; `amount`
      and `date` also carry what `parseFloat` and `new Date` read from them. */
  datatype Form = Form(
    kindText: string,
    amountText: string,
    amount: real,
    categoryText: string,
    descriptionText: string,
    dateText: string,
    date: Date)

  /** The guard of `addTransaction`: every field is non-empty. */
  predicate FormComplete(f: Form)
  {
    f.kindText != "" && f.amountText != "" && f.categoryText != ""
    && f.descriptionText != "" && f.dateText != ""
  }

  /** The record `addTransaction` builds from a complete form. */
  function FromForm(f: Form, id: int): (t: StoredTransaction)
    ensures t.id == id && t.kind == f.kindText && t.amount == f.amount
    ensures t.category == f.categoryText && t.description == f.descriptionText && t.date == f.date
  {
    StoredTransaction(id, f.kindText, f.amount, f.categoryText, f.descriptionText, f.date)
  }

  /** `JSON.parse(localStorage.getItem('transactions')) || []`: a missing key reads as empty. */
  function Loaded(stored: Option<seq<StoredTransaction>>): (ts: seq<StoredTransaction>)
    ensures stored.None? ==> ts == []
    ensures stored.Some? ==> ts == stored.value
  {
    if stored.None? then [] else stored.value
  }

  /** The list `saveTransaction` writes back: the new record first, then the old list. */
  function Prepended(stored: Option<seq<StoredTransaction>>, t: StoredTransaction): (ts: seq<StoredTransaction>)
    ensures |ts| == |Loaded(stored)| + 1
    ensures ts[0] == t && ts[1..] == Loaded(stored)
    ensures forall x :: x in ts <==> x == t || x in Loaded(stored)
  {
    [t] + Loaded(stored)
  }

  /** The page's storage: the `transactions` key and the `theme` key. */
  class Storage {
    var transactions: Option<seq<StoredTransaction>>
    var theme: Option<string>

    constructor(transactions0: Option<seq<StoredTransaction>>, theme0: Option<string>)
      ensures transactions == transactions0 && theme == theme0
    {
      transactions := transactions0;
      theme := theme0;
    }

    function Load(): seq<StoredTransaction>
      reads this
    {
      Loaded(transactions)
    }

    /** `saveTransaction`: read the list, `unshift` the record, write it back. */
    method Save(t: StoredTransaction)
      modifies this
      ensures transactions == Some(Prepended(old(transactions), t))
      ensures theme == old(theme)
    {
      var ts := Loaded(transactions);
      ts := [t] + ts;
      transactions := Some(ts);
    }

    /** `addTransaction`: an incomplete form saves nothing; a complete one is
        stored first, with `id` standing for `Date.now()`. */
    method AddTransaction(f: Form, id: int) returns (saved: bool)
      modifies this
      ensures saved <==> FormComplete(f)
      ensures saved ==> transactions == Some(Prepended(old(transactions), FromForm(f, id)))
      ensures !saved ==> transactions == old(transactions)
      ensures theme == old(theme)
    {
      if !FormComplete(f) {
        return false;
      }
      Save(FromForm(f, id));
      return true;
    }
  }

  /** Adding a complete form grows the list by one, with the new record on top
      and the earlier records after it in their old order. */
  lemma AddKeepsHistory(stored: Option<seq<StoredTransaction>>, f: Form, id: int)
    ensures var after := Prepended(stored, FromForm(f, id));
      && |after| == |Loaded(stored)| + 1
      && after[0].id == id && after[0].amount == f.amount
      && (forall i :: 0 <= i < |Loaded(stored)| ==> after[i + 1] == Loaded(stored)[i])
  {
  }

  /** Which side of UTC the browser's zone lies on. `new Date('YYYY-MM-DD')`
      is midnight UTC of that date; west of UTC that instant is still the
      evening before in local time, which is what `getMonth` and
      `getFullYear` read. */
  datatype Zone = WestOfUtc | UtcOrEast

  /** The local calendar date of `new Date(d)` for a date-only string. */
  function LocalDate(d: Date, zone: Zone): (l: Date)
    ensures zone.UtcOrEast? ==> l == d
    ensures zone.WestOfUtc? && 1 <= d.month <= 12 && d.day >= 1 ==> DayNumber(l) + 1 == DayNumber(d)
  {
    if zone.UtcOrEast? then d
    else if 1 <= d.month <= 12 && d.day >= 1 then PreviousDayNumber(d); PreviousDay(d)
    else PreviousDay(d)
  }

  /** Whether a stored transaction falls in the given local month (1-12) and
      year, as `updateStats` reads its date. */
  predicate InMonth(t: StoredTransaction, month: int, year: int, zone: Zone)
  {
    LocalDate(t.date, zone).month == month && LocalDate(t.date, zone).year == year
  }

  /** At or east of UTC, and on any day but the first of a month, a record
      counts in the month written in its date; west of UTC a record dated the
      first counts in the month before, and one dated 1 January in December
      of the year before. */
  lemma InMonthCases(t: StoredTransaction, month: int, year: int, zone: Zone)
    ensures zone.UtcOrEast? || t.date.day > 1 ==>
      (InMonth(t, month, year, zone) <==> t.date.month == month && t.date.year == year)
    ensures zone.WestOfUtc? && t.date.day == 1 && t.date.month > 1 ==>
      (InMonth(t, month, year, zone) <==> t.date.month - 1 == month && t.date.year == year)
    ensures zone.WestOfUtc? && t.date.day == 1 && t.date.month == 1 ==>
      (InMonth(t, month, year, zone) <==> month == 12 && t.date.year - 1 == year)
  {
  }

  /** `updateStats` income: the amounts of this month's `'income'` records. */
  function MonthlyIncome(ts: seq<StoredTransaction>, month: int, year: int, zone: Zone): real
  {
    Sum(Filter(Filter(ts, (t: StoredTransaction) => InMonth(t, month, year, zone)),
               (t: StoredTransaction) => t.kind == "income"),
        (t: StoredTransaction) => t.amount)
  }

  /** `updateStats` expenses: the amounts of this month's `'expense'` records. */
  function MonthlyExpenses(ts: seq<StoredTransaction>, month: int, year: int, zone: Zone): real
  {
    Sum(Filter(Filter(ts, (t: StoredTransaction) => InMonth(t, month, year, zone)),
               (t: StoredTransaction) => t.kind == "expense"),
        (t: StoredTransaction) => t.amount)
  }

  /** Summing a two-stage filter is summing the amount guarded by both tests. */
  lemma MonthlySumGuarded(ts: seq<StoredTransaction>, month: int, year: int, zone: Zone, kind: string)
    ensures Sum(Filter(Filter(ts, (t: StoredTransaction) => InMonth(t, month, year, zone)),
                       (t: StoredTransaction) => t.kind == kind),
                (t: StoredTransaction) => t.amount)
         == Sum(ts, (t: StoredTransaction) => if InMonth(t, month, year, zone) && t.kind == kind then t.amount else 0.0)
  {
    var inMonth := (t: StoredTransaction) => InMonth(t, month, year, zone);
    var ofKind := (t: StoredTransaction) => t.kind == kind;
    var both := (t: StoredTransaction) => InMonth(t, month, year, zone) && t.kind == kind;
    FilterFilter(ts, inMonth, ofKind, both);
    SumFilter(ts, both, (t: StoredTransaction) => t.amount,
      (t: StoredTransaction) => if InMonth(t, month, year, zone) && t.kind == kind then t.amount else 0.0);
  }

  /** The monthly income counts exactly the income records of that month, and
      is non-negative when no stored amount is negative. */
  lemma MonthlyIncomeMeaning(ts: seq<StoredTransaction>, month: int, year: int, zone: Zone)
    ensures MonthlyIncome(ts, month, year, zone)
      == Sum(ts, (t: StoredTransaction) => if InMonth(t, month, year, zone) && t.kind == "income" then t.amount else 0.0)
    ensures (forall t :: t in ts ==> t.amount >= 0.0) ==> MonthlyIncome(ts, month, year, zone) >= 0.0
  {
    MonthlySumGuarded(ts, month, year, zone, "income");
    if forall t :: t in ts ==> t.amount >= 0.0 {
      SumNonNegative(ts, (t: StoredTransaction) => if InMonth(t, month, year, zone) && t.kind == "income" then t.amount else 0.0);
    }
  }

  /** The monthly expenses count exactly the expense records of that month, and
      are non-negative when no stored amount is negative. */
  lemma MonthlyExpensesMeaning(ts: seq<StoredTransaction>, month: int, year: int, zone: Zone)
    ensures MonthlyExpenses(ts, month, year, zone)
      == Sum(ts, (t: StoredTransaction) => if InMonth(t, month, year, zone) && t.kind == "expense" then t.amount else 0.0)
    ensures (forall t :: t in ts ==> t.amount >= 0.0) ==> MonthlyExpenses(ts, month, year, zone) >= 0.0
  {
    MonthlySumGuarded(ts, month, year, zone, "expense");
    if forall t :: t in ts ==> t.amount >= 0.0 {
      SumNonNegative(ts, (t: StoredTransaction) => if InMonth(t, month, year, zone) && t.kind == "expense" then t.amount else 0.0);
    }
  }

  /** West of UTC an income dated 1 January 2026 is counted in December 2025
      and not in January 2026; at or east of UTC it is counted in January. */
  lemma NewYearsDayIncome(t: StoredTransaction)
    requires t.date == Date(2026, 1, 1) && t.kind == "income"
    ensures MonthlyIncome([t], 1, 2026, WestOfUtc) == 0.0
    ensures MonthlyIncome([t], 12, 2025, WestOfUtc) == t.amount
    ensures MonthlyIncome([t], 1, 2026, UtcOrEast) == t.amount
  {
    InMonthCases(t, 1, 2026, WestOfUtc);
    InMonthCases(t, 12, 2025, WestOfUtc);
    InMonthCases(t, 1, 2026, UtcOrEast);
    MonthlyIncomeMeaning([t], 1, 2026, WestOfUtc);
    MonthlyIncomeMeaning([t], 12, 2025, WestOfUtc);
    MonthlyIncomeMeaning([t], 1, 2026, UtcOrEast);
  }

  /** When every record is typed `'income'` or `'expense'` (the only options of
      the form's select), income and expenses together are all of the month's amounts. */
  lemma MonthlyTotalsPartition(ts: seq<StoredTransaction>, month: int, year: int, zone: Zone)
    requires forall t :: t in ts ==> t.kind == "income" || t.kind == "expense"
    ensures MonthlyIncome(ts, month, year, zone) + MonthlyExpenses(ts, month, year, zone)
      == Sum(Filter(ts, (t: StoredTransaction) => InMonth(t, month, year, zone)), (t: StoredTransaction) => t.amount)
  {
    var inc := (t: StoredTransaction) => if InMonth(t, month, year, zone) && t.kind == "income" then t.amount else 0.0;
    var exp := (t: StoredTransaction) => if InMonth(t, month, year, zone) && t.kind == "expense" then t.amount else 0.0;
    var month' := (t: StoredTransaction) => if InMonth(t, month, year, zone) then t.amount else 0.0;
    MonthlyIncomeMeaning(ts, month, year, zone);
    MonthlyExpensesMeaning(ts, month, year, zone);
    SumAddition(ts, inc, exp, (t: StoredTransaction) => inc(t) + exp(t));
    SumCongruent(ts, (t: StoredTransaction) => inc(t) + exp(t), month');
    SumFilter(ts, (t: StoredTransaction) => InMonth(t, month, year, zone), (t: StoredTransaction) => t.amount, month');
  }

  /** What `updateDashboard` shows: the first four records and the month's sums. */
  datatype DashboardView = DashboardView(recent: seq<StoredTransaction>, income: real, expenses: real)

  /** `updateDashboard`: nothing for an empty store, otherwise the first four
      stored records and this month's income and expense sums. */
  function UpdateDashboard(stored: Option<seq<StoredTransaction>>, month: int, year: int, zone: Zone): (r: Option<DashboardView>)
    ensures r.None? <==> |Loaded(stored)| == 0
    ensures r.Some? ==> |r.value.recent| == (if |Loaded(stored)| < 4 then |Loaded(stored)| else 4)
    ensures r.Some? ==> r.value.recent <= Loaded(stored)
    ensures r.Some? ==> r.value.income == MonthlyIncome(Loaded(stored), month, year, zone)
    ensures r.Some? ==> r.value.expenses == MonthlyExpenses(Loaded(stored), month, year, zone)
  {
    var ts := Loaded(stored);
    if |ts| > 0 then
      Some(DashboardView(SliceTo(ts, 4), MonthlyIncome(ts, month, year, zone), MonthlyExpenses(ts, month, year, zone)))
    else
      None
  }

  /** Right after a save the dashboard shows the new record on top. */
  lemma DashboardShowsNewest(stored: Option<seq<StoredTransaction>>, t: StoredTransaction, month: int, year: int, zone: Zone)
    ensures var r := UpdateDashboard(Some(Prepended(stored, t)), month, year, zone);
      r.Some? && r.value.recent[0] == t
  {
  }

  /** The names a plain object inherits from `Object.prototype`; looking one
      of them up on an object literal finds the inherited member. */
  const ObjectPrototypeNames: set<string> := {
    "constructor", "__proto__", "hasOwnProperty", "isPrototypeOf", "propertyIsEnumerable",
    "toLocaleString", "toString", "valueOf",
    "__defineGetter__", "__defineSetter__", "__lookupGetter__", "__lookupSetter__"
  }

  /** What `icons[category] || 'bi-three-dots'` yields: an icon class, or,
      for an inherited name, the inherited member itself (a function, or the
      prototype object for `__proto__`), which is truthy and so is returned. */
  datatype IconValue = IconClass(name: string) | InheritedMember(name: string)

  /** `getTransactionIcon`: the Bootstrap icon of a listed category, the
      inherited member for an `Object.prototype` name, `bi-three-dots` for
      anything else. */
  function TransactionIcon(category: string): (icon: IconValue)
    ensures category == "food" ==> icon == IconClass("bi-cup-straw")
    ensures category == "transport" ==> icon == IconClass("bi-fuel-pump")
    ensures category == "shopping" ==> icon == IconClass("bi-cart")
    ensures category == "bills" ==> icon == IconClass("bi-receipt")
    ensures category == "entertainment" ==> icon == IconClass("bi-controller")
    ensures category == "salary" ==> icon == IconClass("bi-arrow-down")
    ensures category in ObjectPrototypeNames ==> icon == InheritedMember(category)
    ensures category !in {"food", "transport", "shopping", "bills", "entertainment", "salary"} && category !in ObjectPrototypeNames
      ==> icon == IconClass("bi-three-dots")
  {
    var icons := map[
      "food" := "bi-cup-straw",
      "transport" := "bi-fuel-pump",
      "shopping" := "bi-cart",
      "bills" := "bi-receipt",
      "entertainment" := "bi-controller",
      "salary" := "bi-arrow-down",
      "other" := "bi-three-dots"
    ];
    if category in icons then IconClass(icons[category])
    else if category in ObjectPrototypeNames then InheritedMember(category)
    else IconClass("bi-three-dots")
  }

  /** `localStorage.getItem('theme') || 'light'`: a missing or empty value is light. */
  function InitialTheme(saved: Option<string>): (theme: string)
    ensures theme == "light" <==> saved.None? || saved.value == "" || saved.value == "light"
    ensures saved.Some? && saved.value != "" ==> theme == saved.value
  {
    if saved.None? || saved.value == "" then "light" else saved.value
  }

  /** The theme the toggle switches to: `'dark'` becomes light, anything else dark. */
  function NextTheme(current: string): (next: string)
    ensures next == "light" <==> current == "dark"
    ensures next == "dark" <==> current != "dark"
  {
    if current == "dark" then "light" else "dark"
  }

  /** Toggling twice from either named theme comes back to it. */
  lemma ToggleTwice(current: string)
    ensures current in {"light", "dark"} ==> NextTheme(NextTheme(current)) == current
    ensures NextTheme(NextTheme(current)) in {"light", "dark"}
  {
  }

  /** The page's `data-bs-theme` attribute, backed by the stored theme. */
  class ThemePage {
    var attribute: string
    const storage: Storage

    /** Page load: the attribute is the saved theme, or light. */
    constructor(storage: Storage)
      ensures this.storage == storage
      ensures attribute == InitialTheme(storage.theme)
    {
      this.storage := storage;
      attribute := InitialTheme(storage.theme);
    }

    /** The toggle's click handler: flip the attribute and store the new theme. */
    method Toggle()
      modifies this, storage
      ensures attribute == NextTheme(old(attribute))
      ensures storage.theme == Some(attribute)
      ensures storage.transactions == old(storage.transactions)
    {
      var newTheme := NextTheme(attribute);
      attribute := newTheme;
      storage.theme := Some(newTheme);
    }
  }
}
