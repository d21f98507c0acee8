# Financial dashboard — a verified model of its logic

This project is a Dafny model of the logic inside a personal-finance dashboard.
The dashboard itself is a React single-page app with a legacy Bootstrap page script.
Its screens are:

- the stat cards;
- the transaction table;
- the command palette;
- the budget tracker and the Budget Planner page;
- savings goals, bill reminders, subscriptions and the portfolio widgets;
- the Investments page;
- the currency converter and the Converter page;
- the loan, investment and savings calculators;
- the notification panel;
- the Reports page;
- the financial health score;
- the sparkline;
- the keyboard-shortcut and date-time hooks.

Every screen works on the seed data in `src/data/mockData.ts`.

The model keeps each piece in the form the code has.

- **Pure expressions become functions.** This covers `reduce` sums, `filter` chains, threshold bands and formulas.
- **State updates become classes with methods.** These are the notification list, the bill list, the converter's currencies and favourites, and the legacy script's local storage and theme attribute.
- **Imperative loops stay loops with invariants.** These are the portfolio's group-by reduce over a growing accumulator, the sparkline's path-building `for` loop, and the bill sort on a copied array.

Several choices shape the model:

- Money is an exact `real`.
- Dates are whole day numbers, counted from 1970-01-01.
- The clock is a parameter: today's day number and the milliseconds since midnight (`Clock.Now`), or a month and year, or an hour. Day counts follow date-fns `differenceInDays`, which counts full days, so once the day has begun something due tomorrow is 0 days away.
- The legacy script reads a date-only string as midnight UTC and its month in local time; the side of UTC the zone lies on is a parameter (`LegacyScript.Zone`).
- A JavaScript division whose denominator can be zero returns a `Num`: `Fin(v)`, `PosInf`, `NegInf` or `NaN`. Comparisons and `Math.min` follow JavaScript on each of these.
- `parseFloat(x) || d` is an `Option` that has already been parsed, followed by the zero-or-missing rule.

One module per source file:

- `MockData`: types, seeds and the calendar.
- `Clock`: the clock reading and date-fns `differenceInDays`.
- `TransactionsTable` and `GlobalSearch`.
- `LegacyScript`.
- `BudgetTracker` and `BudgetPage`.
- `SavingsGoalsWidget`, `BillRemindersWidget`, `RecurringPaymentsWidget` and `InvestmentDashboardWidget`.
- `InvestmentsPage`.
- `CurrencyConverterWidget` and `ConverterPage`.
- `Calculator`.
- `NotificationPanel` and `Reports`.
- `EnhancedStats` and `HealthScoreWidget`.
- `Sparkline`.
- `KeyboardShortcut` and `DateTime`.

`Common` holds the shared pieces:

- `Option`;
- ASCII lower-casing and substring search;
- `Filter` and a left-fold `Sum`, with their algebra;
- the `Num` arithmetic.

The model follows the code, including these behaviours a reader might not expect:

- The calculators read a tenure or a year count of 0 as 1, because they use `parseFloat(x) || 1`.
- A savings target that is already passed gives a negative monthly saving; nothing clamps it.
- The Converter page's Ether fallback rate is 0.00041. The seed table holds 0.00042. `ConverterPage.CryptoPrices` states both.
- For a negative budget the tracker's "over" flag and its label disagree. `BudgetTracker.NegativeBudgetDisagreement` states this.

## Model

| member | source | states |
|---|---|---|
| MockData.GetCategoryColor | src/data/mockData.ts:383-396 | every one of the nine categories gets a colour; Salary alone gets the emerald hue, Shopping and Freelance share purple, Transport and Investment share indigo |
| MockData.CategoryNamesDistinct | src/data/mockData.ts:3 | the category names are pairwise distinct and none is the `'all'` filter sentinel |
| MockData.TransactionsNewestFirst | src/data/mockData.ts:132-273 | the seed transactions are ordered by date, most recent first |
| MockData.TransactionsPositive | src/data/mockData.ts:132-273 | every seed transaction has a positive amount |
| MockData.HealthScoreConsistent | src/data/mockData.ts:351-358 | the overall health score is the sum of its five components, each between 0 and 20 |
| MockData.ExchangeRatesPositive | src/data/mockData.ts:371-380 | USD maps to 1 and every listed rate is positive |
| MockData.BudgetCategoriesWellFormed | src/data/mockData.ts:361-368 | every seed budget is positive and every spent figure non-negative |
| MockData.BudgetColorsMatchCategories | src/data/mockData.ts:361-368 | each budget row's colour is the chart colour of the transaction category of the same name |
| MockData.BillOverdueFlagsConsistent | src/data/mockData.ts:296-303 | measured from 2026-01-23, a seed bill is flagged overdue exactly when its due date has passed |
| MockData.DayNumberNextDay | src/components/widgets/BillReminders.tsx:31-34 | consecutive days of a month have consecutive day numbers, so a difference of day numbers is a difference of calendar days (the full-day count of `differenceInDays` is `Clock.DifferenceInDays`) |
| MockData.DayNumberRollover | src/components/widgets/BillReminders.tsx:31-34 | for every year and month, the first of the next month has the day number after the month's last day, 1 January follows 31 December, and a year spans 366 day numbers when it is a leap year (2024) and 365 otherwise (2026) |
| MockData.PreviousDayNumber | assets/js/script.js:331-334 | the calendar day before a date, across month and year ends and leap days, has the previous day number |
| Clock.DifferenceInDays | src/components/widgets/BillReminders.tsx:31-34 | `differenceInDays(parseISO(date), new Date())`: full days from now to the midnight starting the date, truncated toward zero; its cases are `Clock.DifferenceInDaysCases` |
| Clock.DifferenceInDaysCases | src/components/widgets/BillReminders.tsx:31-34 | a past date or today counts the plain day-number difference; a future date counts one less once the day has begun, and the plain difference at midnight |
| Clock.CountLagsCalendar | src/components/widgets/SavingsGoals.tsx:74 | the full-day count is the calendar difference or one less, and is positive iff the date is past tomorrow (past today at midnight) |
| Clock.TomorrowCountsZero | src/components/widgets/BillReminders.tsx:31-34 | in the afternoon of 2026-01-23, 2026-01-24 counts 0 full days and 2026-01-22 counts -1 |
| TransactionsTable.MatchesSearch | src/components/dashboard/TransactionsTable.tsx:44-51 | the lower-cased description or category contains the lower-cased query; `EmptySearchMatches` and `UnlimitedMembership` pin it down |
| TransactionsTable.FilteredTransactions | src/components/dashboard/TransactionsTable.tsx:41-62 | the staged search, category and status filters and the optional limit; `UnlimitedIsOneFilter`, `UnlimitedMembership`, `LimitIsPrefix` and `FilterIdempotent` pin it down |
| TransactionsTable.EmptySearchMatches | src/components/dashboard/TransactionsTable.tsx:44-51 | an empty query matches every transaction |
| TransactionsTable.UnlimitedIsOneFilter | src/components/dashboard/TransactionsTable.tsx:44-59 | the three optional stages amount to one filter by the conjunction of the enabled tests |
| TransactionsTable.UnlimitedMembership | src/components/dashboard/TransactionsTable.tsx:44-59 | a transaction is shown iff it is in the input and matches the search, category and status; the result is a subsequence of the input (order kept, nothing added) |
| TransactionsTable.NoFiltersIsIdentity | src/components/dashboard/TransactionsTable.tsx:41-62 | empty search, both selectors on `'all'` and no limit shows the input unchanged |
| TransactionsTable.LimitIsPrefix | src/components/dashboard/TransactionsTable.tsx:61 | a positive limit keeps the first min(limit, n) matches, a limit of 0 keeps all; the result is a subsequence of the input |
| TransactionsTable.FilterIdempotent | src/components/dashboard/TransactionsTable.tsx:41-62 | filtering the table's result again with the same controls changes nothing |
| TransactionsTable.AmountPrefix | src/components/dashboard/TransactionsTable.tsx:64-70 | the amount is signed `+` exactly for income and `-` exactly for expenses |
| GlobalSearch.SearchTransactions | src/components/search/GlobalSearch.tsx:56-61 | the first five matches of the search; `SearchIsFirstMatches` and `SearchIsTableFilter` pin it down |
| GlobalSearch.SearchIsFirstMatches | src/components/search/GlobalSearch.tsx:56-61 | the palette lists at most five transactions, exactly the first matches of the case-insensitive search, in list order |
| GlobalSearch.SearchIsTableFilter | src/components/search/GlobalSearch.tsx:56-61 | the palette search is the table's pipeline with both selectors on `'all'` and a limit of five |
| GlobalSearch.EmptySearchMatchesAll | src/components/search/GlobalSearch.tsx:56-61 | an empty search lists the first five transactions |
| GlobalSearch.GroupHiddenForEmptySearch | src/components/search/GlobalSearch.tsx:140 | although an empty search matches everything, the Transactions group is hidden for it |
| GlobalSearch.HandleSelect | src/components/search/GlobalSearch.tsx:63-84 | selecting anything closes the dialog and clears the search; pages route to their url, transactions and add-transaction to `/transactions`, nothing else navigates (both directions) |
| GlobalSearch.ActionsWithoutNavigation | src/components/search/GlobalSearch.tsx:73-82 | export and the other actions cause no navigation |
| LegacyScript.FromForm | assets/js/script.js:192-200 | the stored record carries the form's type, amount, category, description and date and the given id |
| LegacyScript.Loaded | assets/js/script.js:221 | a missing `transactions` key reads as the empty list |
| LegacyScript.Prepended | assets/js/script.js:220-224 | the saved list is the new record followed by the old list unchanged, one longer, holding exactly the old records and the new one |
| LegacyScript.Storage.constructor | assets/js/script.js:221 | the store starts from the given `transactions` and `theme` keys |
| LegacyScript.Storage.Save | assets/js/script.js:220-224 | the `transactions` key becomes the prepended list; the theme key is untouched |
| LegacyScript.Storage.AddTransaction | assets/js/script.js:174-217 | the record is saved iff every field is non-empty; an incomplete form leaves the store as it was |
| LegacyScript.AddKeepsHistory | assets/js/script.js:220-224 | after an add the list is one longer, the new record is first and the earlier ones follow in order |
| LegacyScript.FormComplete | assets/js/script.js:186 | every form field is non-empty; `Storage.AddTransaction` saves iff it holds |
| LegacyScript.LocalDate | assets/js/script.js:331-334 | `new Date('YYYY-MM-DD')` read in local time: the same date at or east of UTC, the day before (previous day number) west of UTC |
| LegacyScript.InMonth | assets/js/script.js:331-334 | the record's local date falls in the given month and year; its cases are `InMonthCases` |
| LegacyScript.InMonthCases | assets/js/script.js:331-334 | at or east of UTC, or on any day but the 1st, a record counts in its written month; west of UTC the 1st counts in the month before, and 1 January in December of the year before |
| LegacyScript.MonthlyIncome | assets/js/script.js:337-339 | the income sum of the month's records; `MonthlyIncomeMeaning` and `MonthlyTotalsPartition` pin it down |
| LegacyScript.MonthlyExpenses | assets/js/script.js:341-343 | the expense sum of the month's records; `MonthlyExpensesMeaning` and `MonthlyTotalsPartition` pin it down |
| LegacyScript.NewYearsDayIncome | assets/js/script.js:331-339 | west of UTC an income dated 2026-01-01 counts in December 2025 and not in January 2026; at or east of UTC it counts in January |
| LegacyScript.MonthlySumGuarded | assets/js/script.js:331-343 | summing after the month and type filters is summing the amount guarded by both tests |
| LegacyScript.MonthlyIncomeMeaning | assets/js/script.js:337-339 | the month's income adds exactly the income records whose date, read in the local zone, falls in that month and year, and is non-negative when the amounts are |
| LegacyScript.MonthlyExpensesMeaning | assets/js/script.js:341-343 | the same for expense records, with the same local-zone reading of the date |
| LegacyScript.MonthlyTotalsPartition | assets/js/script.js:331-343 | when every record is income or expense, the two sums together add all of the month's amounts |
| LegacyScript.UpdateDashboard | assets/js/script.js:247-257 | nothing is shown for an empty store; otherwise the first min(4, n) records and that local month's income and expense sums |
| LegacyScript.DashboardShowsNewest | assets/js/script.js:216 | right after a save the dashboard shows the new record on top |
| LegacyScript.TransactionIcon | assets/js/script.js:296-308 | each of the six listed categories gets its icon class; an `Object.prototype` name such as `constructor` yields the inherited member, not the fallback; anything else gets `bi-three-dots` |
| LegacyScript.InitialTheme | assets/js/script.js:10 | a missing or empty stored theme is light; otherwise the stored theme is used |
| LegacyScript.NextTheme | assets/js/script.js:16 | dark becomes light and anything else becomes dark |
| LegacyScript.ToggleTwice | assets/js/script.js:14-21 | toggling twice returns to a named theme, and two toggles always end on light or dark |
| LegacyScript.ThemePage.constructor | assets/js/script.js:10-11 | page load sets the attribute to the stored theme or light |
| LegacyScript.ThemePage.Toggle | assets/js/script.js:14-21 | the attribute flips and is stored; the stored transactions are untouched |
| BudgetTracker.Percentage | src/components/dashboard/BudgetTracker.tsx:26 | spent over budget times 100 as a JavaScript number; `PercentageAbove` pins it down |
| BudgetTracker.TotalBudget | src/components/dashboard/BudgetTracker.tsx:39 | the budgets added up; `TotalsAdditive` and `SeedTotals` pin it down |
| BudgetTracker.TotalSpent | src/components/dashboard/BudgetTracker.tsx:40 | the spent figures added up; `TotalsAdditive` and `SeedTotals` pin it down |
| BudgetTracker.PercentageAbove | src/components/dashboard/BudgetTracker.tsx:26 | for a positive budget the percentage exceeds k exactly when spending exceeds k% of the budget |
| BudgetTracker.StatusColor | src/components/dashboard/BudgetTracker.tsx:25-30 | rose iff spending exceeds the budget, amber iff above 80% up to 100%, emerald iff at most 80% (and the zero-budget cases) |
| BudgetTracker.StatusText | src/components/dashboard/BudgetTracker.tsx:32-37 | Over budget, Near limit and On track on the same three bands |
| BudgetTracker.BoundaryPercentages | src/components/dashboard/BudgetTracker.tsx:32-37 | exactly 80% is on track and exactly 100% is near the limit |
| BudgetTracker.ColorAgreesWithText | src/components/dashboard/BudgetTracker.tsx:107-112 | bar colour, label colour and label text always agree |
| BudgetTracker.BarWidth | src/components/dashboard/BudgetTracker.tsx:57 | never above 100; min(spent/budget*100, 100), within [0, 100] for non-negative spending, full once the budget is reached |
| BudgetTracker.OverBudgetIffLabel | src/components/dashboard/BudgetTracker.tsx:58 | for a non-negative budget, over budget iff the label says so |
| BudgetTracker.NegativeBudgetDisagreement | src/components/dashboard/BudgetTracker.tsx:58 | for a negative budget, nothing spent counts as over budget while the label says on track |
| BudgetTracker.OverflowWidth | src/components/dashboard/BudgetTracker.tsx:100 | the overflow segment never exceeds 30, and is positive when over budget |
| BudgetTracker.OverLeftAmount | src/components/dashboard/BudgetTracker.tsx:115-118 | the figure is spent - budget when over and budget - spent otherwise, never negative |
| BudgetTracker.OverLeftWord | src/components/dashboard/BudgetTracker.tsx:115-118 | the word is "over" exactly when over budget, else "left" |
| BudgetTracker.TotalsAdditive | src/components/dashboard/BudgetTracker.tsx:39-40 | the header totals add over a split of the categories and are non-negative for well-formed rows |
| BudgetTracker.SeedTotals | src/components/dashboard/BudgetTracker.tsx:39-40 | the seed budgets total 2800 and spending 3280 |
| BudgetTracker.SeedStatuses | src/components/dashboard/BudgetTracker.tsx:32-37 | three of the six seed categories are over budget |
| BudgetPage.Remaining | src/pages/Budget.tsx:19-21 | total budget less total spent; `RemainingIsSumOfLeftovers` pins it down |
| BudgetPage.RemainingIsSumOfLeftovers | src/pages/Budget.tsx:19-21 | what remains is the sum of each category's unspent budget, non-negative when no category is overspent |
| BudgetPage.PercentUsed | src/pages/Budget.tsx:22 | spent over budget times 100 for a non-zero total; an empty list gives NaN |
| BudgetPage.UsageColor | src/pages/Budget.tsx:131-134 | emerald iff below 70, amber iff in [70, 90), rose iff at least 90; NaN and infinity are rose |
| BudgetPage.UsageColorMonotone | src/pages/Budget.tsx:131-134 | more spending never gives a milder colour |
| BudgetPage.OverallBarWidth | src/pages/Budget.tsx:135 | never above 100, and within [0, 100] for a positive total |
| BudgetPage.BandsDiffer | src/pages/Budget.tsx:131-134 | the planner and the tracker band 75% and 95% differently |
| BudgetPage.SeedSummary | src/pages/Budget.tsx:19-22 | the seed budgets are overspent by 480; the bar is full and rose |
| SavingsGoalsWidget.Progress | src/components/widgets/SavingsGoals.tsx:73 | saved over target times 100 as a JavaScript number; `CompleteIffReached` and `BarWidth` pin it down |
| SavingsGoalsWidget.CompleteIffReached | src/components/widgets/SavingsGoals.tsx:73-75 | for a positive target a goal is complete iff the saved amount reaches it |
| SavingsGoalsWidget.BarWidth | src/components/widgets/SavingsGoals.tsx:110 | never above 100; full exactly when the goal is complete |
| SavingsGoalsWidget.OverallProgress | src/components/widgets/SavingsGoals.tsx:34-36 | total saved over total target times 100; NaN for no goals |
| SavingsGoalsWidget.OverallProgressBounded | src/components/widgets/SavingsGoals.tsx:34-36 | with positive targets and no over-saved goal the overall progress lies in [0, 100] |
| SavingsGoalsWidget.DaysRemaining | src/components/widgets/SavingsGoals.tsx:74 | the full days from now to the deadline; `DeadlineText` states what it shows |
| SavingsGoalsWidget.DeadlineText | src/components/widgets/SavingsGoals.tsx:74-116 | "N days remaining" iff the deadline is past tomorrow once the day has begun (past today at midnight), with N one less than the calendar difference after midnight; a deadline tomorrow, today or earlier reads "Deadline passed" |
| SavingsGoalsWidget.SeedGoals | src/data/mockData.ts:306-311 | at any time on 2026-01-23 no seed goal is complete, every deadline is ahead, and 31200 of 90000 is saved |
| BillRemindersWidget.DaysUntilDue | src/components/widgets/BillReminders.tsx:31-34 | the full days from now to the due date; `Clock.DifferenceInDaysCases` and `DueWithin30Window` pin it down |
| BillRemindersWidget.ToggledList | src/components/widgets/BillReminders.tsx:23-29 | same length; only bills with the id have auto-pay flipped, every other field and bill unchanged |
| BillRemindersWidget.ToggleTwiceRestores | src/components/widgets/BillReminders.tsx:23-29 | toggling the same id twice restores the list |
| BillRemindersWidget.TogglesCommute | src/components/widgets/BillReminders.tsx:23-29 | toggles of two ids commute |
| BillRemindersWidget.ToggleUnknownId | src/components/widgets/BillReminders.tsx:23-29 | an id no bill has changes nothing |
| BillRemindersWidget.BillReminders.constructor | src/components/widgets/BillReminders.tsx:21 | the list starts as the given bills |
| BillRemindersWidget.BillReminders.ToggleAutoPay | src/components/widgets/BillReminders.tsx:23-29 | the state becomes the toggled list |
| BillRemindersWidget.BillReminders.SortedBills | src/components/widgets/BillReminders.tsx:43-47 | the result is ordered by days until due and is a permutation of the list, which is not reordered |
| BillRemindersWidget.SortByDue | src/components/widgets/BillReminders.tsx:43-47 | sorts the array in place by the days-until-due key the comparator computes, as a permutation |
| BillRemindersWidget.InsertLast | src/components/widgets/BillReminders.tsx:43-47 | one insertion step extends the sorted prefix by one cell, as a permutation |
| BillRemindersWidget.SwapAdjacent | src/components/widgets/BillReminders.tsx:43-47 | exchanges two neighbouring cells and nothing else |
| BillRemindersWidget.DueWithin30 | src/components/widgets/BillReminders.tsx:50 | 0 to 30 full days until due; `DueWithin30Window` restates it in day numbers |
| BillRemindersWidget.DueWithin30Window | src/components/widgets/BillReminders.tsx:49-51 | a bill is in the 30-day window iff it is due from today up to 30 days ahead at midnight, or 31 days ahead once the day has begun |
| BillRemindersWidget.TotalDue | src/components/widgets/BillReminders.tsx:49-51 | the amounts of the bills in the window added up; `TotalDueIgnoresOrder` and `TotalDueBounds` pin it down |
| BillRemindersWidget.TotalDueIgnoresOrder | src/components/widgets/BillReminders.tsx:49-51 | the total due is the same over the sorted copy and the list; it is the sum of amounts with 0 to 30 full days to go, that is due from today to 30 days ahead, or 31 once the day has begun |
| BillRemindersWidget.TotalDueBounds | src/components/widgets/BillReminders.tsx:49-51 | with non-negative amounts the total due is between 0 and the sum of all bills |
| BillRemindersWidget.UrgencyOf | src/components/widgets/BillReminders.tsx:76-77 | every bill falls in exactly one bucket: overdue (< 0), due soon (0 to 3), later (> 3) |
| BillRemindersWidget.CardClass | src/components/widgets/BillReminders.tsx:81-86 | the rose, amber or plain card style of each bucket; `LabelMatchesUrgency` pins it to the label |
| BillRemindersWidget.DueLabelOf | src/components/widgets/BillReminders.tsx:111-117 | "Due today" iff 0 days; overdue shows the absolute day count; otherwise the days ahead |
| BillRemindersWidget.LabelMatchesUrgency | src/components/widgets/BillReminders.tsx:84-86 | the overdue text appears exactly on the overdue card style, and due-today bills are due soon |
| BillRemindersWidget.DueTomorrowReadsToday | src/components/widgets/BillReminders.tsx:111-114 | once the day has begun, a bill due tomorrow (like one due today) reads "Due today" on an amber card |
| BillRemindersWidget.SeedTotalDue | src/components/widgets/BillReminders.tsx:49-51 | at any time on 2026-01-23 the seed total due is 1859.98 |
| BillRemindersWidget.SeedGuardedSum | src/components/widgets/BillReminders.tsx:49-51 | the guarded sum of the seed bills at any time on that day number is 1859.98 |
| RecurringPaymentsWidget.MonthlyShare | src/components/widgets/RecurringPayments.tsx:33 | a monthly price, or a twelfth of a yearly one; `MonthlyTotalSplit` pins down its sum |
| RecurringPaymentsWidget.MonthlyTotal | src/components/widgets/RecurringPayments.tsx:32-34 | the monthly shares added up; `MonthlyTotalSplit` and `MonthlyTotalCases` pin it down |
| RecurringPaymentsWidget.YearlyTotal | src/components/widgets/RecurringPayments.tsx:36 | twelve times the monthly total; `YearlyTotalSplit` pins it down |
| RecurringPaymentsWidget.MonthlyTotalSplit | src/components/widgets/RecurringPayments.tsx:32-34 | the monthly total is the sum of monthly prices plus a twelfth of the yearly ones |
| RecurringPaymentsWidget.YearlyTotalSplit | src/components/widgets/RecurringPayments.tsx:36 | the yearly total is twelve times the monthly prices plus the yearly prices |
| RecurringPaymentsWidget.MonthlyTotalCases | src/components/widgets/RecurringPayments.tsx:32-34 | no subscriptions cost 0; all-monthly lists cost the plain sum; non-negative prices give a non-negative total |
| RecurringPaymentsWidget.RenewLabelOf | src/components/widgets/RecurringPayments.tsx:66-90 | "Renews in Nd" iff the billing date is past tomorrow once the day has begun (past today at midnight), with N the full days; a renewal tomorrow, today or earlier reads "Renews soon" |
| RecurringPaymentsWidget.SeedTotals | src/components/widgets/RecurringPayments.tsx:32-36 | the seed subscriptions cost 107.96 a month and 1295.52 a year |
| InvestmentDashboardWidget.GroupStep | src/components/widgets/InvestmentDashboard.tsx:19-27 | one reduce step: add to the slice of the same type, or append a new slice; `StepKinds` pins it down |
| InvestmentDashboardWidget.Group | src/components/widgets/InvestmentDashboard.tsx:19-27 | the reduce as a function; `GroupOnePerType`, `GroupValuesAndColors`, `GroupFirstAppearanceOrder` and `GroupSumIsTotal` pin it down |
| InvestmentDashboardWidget.TotalValue | src/components/widgets/InvestmentDashboard.tsx:29 | the values added up; `GroupSumIsTotal` pins it down |
| InvestmentDashboardWidget.Share | src/components/widgets/InvestmentDashboard.tsx:90 | a slice's value over the total times 100; `SharesSumTo100` pins it down |
| InvestmentDashboardWidget.FindKind | src/components/widgets/InvestmentDashboard.tsx:20 | the index of the first slice of a type, or -1 iff there is none |
| InvestmentDashboardWidget.PortfolioData | src/components/widgets/InvestmentDashboard.tsx:19-27 | the loop that adds into an existing slice or pushes a new one computes the grouping |
| InvestmentDashboardWidget.FirstIndex | src/components/widgets/InvestmentDashboard.tsx:24 | the position of the first investment of a type, or the length iff none |
| InvestmentDashboardWidget.StepKinds | src/components/widgets/InvestmentDashboard.tsx:20-25 | a step keeps the slice types, adding the new type at the end when it was absent |
| InvestmentDashboardWidget.GroupOnePerType | src/components/widgets/InvestmentDashboard.tsx:19-27 | one slice per distinct type present, and no other |
| InvestmentDashboardWidget.TypeTotalAbsent | src/components/widgets/InvestmentDashboard.tsx:22 | a type no investment has totals zero |
| InvestmentDashboardWidget.GroupValuesAndColors | src/components/widgets/InvestmentDashboard.tsx:20-25 | each slice's value is the total of its type and its colour that of the type's first investment |
| InvestmentDashboardWidget.GroupFirstAppearanceOrder | src/components/widgets/InvestmentDashboard.tsx:19-27 | slices come in order of each type's first appearance |
| InvestmentDashboardWidget.GroupSumIsTotal | src/components/widgets/InvestmentDashboard.tsx:19-29 | the slice values add up to the total value |
| InvestmentDashboardWidget.SharesSumTo100 | src/components/widgets/InvestmentDashboard.tsx:90 | for a positive total the tooltip shares add up to 100 |
| InvestmentDashboardWidget.SharesOfSlices | src/components/widgets/InvestmentDashboard.tsx:90 | any slices whose values add up to a non-zero total have tooltip shares adding up to 100 |
| InvestmentDashboardWidget.TopHoldings | src/components/widgets/InvestmentDashboard.tsx:110 | the top holdings are the first min(4, n) investments in list order |
| InvestmentDashboardWidget.SeedPortfolio | src/components/widgets/InvestmentDashboard.tsx:19-29 | the seed portfolio has four slices (stock, crypto, ETF, bond) and a total of 45230 |
| InvestmentDashboardWidget.SeedGroups | src/components/widgets/InvestmentDashboard.tsx:19-27 | the seed grouping puts Bitcoin and Ethereum in one crypto slice of 12700 in Bitcoin's colour, after stocks and before ETFs and bonds |
| InvestmentDashboardWidget.SeedTotal | src/components/widgets/InvestmentDashboard.tsx:29 | the seed holdings are worth 45230 |
| InvestmentsPage.TotalChange | src/pages/Investments.tsx:22 | the value-weighted 24-hour changes added up; `TotalChangeBounds` and `NoMovement` pin it down |
| InvestmentsPage.TotalChangeBounds | src/pages/Investments.tsx:22 | when every change lies in [lo, hi] percent, the total change lies between lo% and hi% of the total value |
| InvestmentsPage.PercentChange | src/pages/Investments.tsx:23 | the total change relative to the value before it, times 100, when that value is non-zero |
| InvestmentsPage.NoMovement | src/pages/Investments.tsx:22-23 | with no movement the total change and its percentage are zero |
| InvestmentsPage.BestIndex | src/pages/Investments.tsx:106-109 | defined iff the list is non-empty; the best performer's change is at least every other's and it is the earliest with that change |
| InvestmentsPage.ChangePrefix | src/pages/Investments.tsx:154 | `+` exactly for a non-negative change |
| InvestmentsPage.SeedBestPerformer | src/pages/Investments.tsx:106 | the seed's best performer is Ethereum |
| CurrencyConverterWidget.RateOf | src/components/widgets/CurrencyConverter.tsx:34-35 | a missing or zero rate reads as 1, a listed non-zero rate as itself; never zero |
| CurrencyConverterWidget.Convert | src/components/widgets/CurrencyConverter.tsx:33-37 | value over the source rate times the target rate; `ConvertMeaning`, `ConvertSame` and `ConvertRoundTrip` pin it down |
| CurrencyConverterWidget.ConvertMeaning | src/components/widgets/CurrencyConverter.tsx:33-37 | the converted value times the source rate equals the value times the target rate |
| CurrencyConverterWidget.ConvertSame | src/components/widgets/CurrencyConverter.tsx:33-37 | converting a currency to itself changes nothing |
| CurrencyConverterWidget.ConvertRoundTrip | src/components/widgets/CurrencyConverter.tsx:33-37 | converting there and back gives the starting value |
| CurrencyConverterWidget.ConvertIsAmountTimesRate | src/components/widgets/CurrencyConverter.tsx:39-40 | the converted amount is the amount times the rate for one unit |
| CurrencyConverterWidget.AmountOrZero | src/components/widgets/CurrencyConverter.tsx:39 | an amount that does not parse is 0 |
| CurrencyConverterWidget.PairKey | src/components/widgets/CurrencyConverter.tsx:53 | the key is the source code, a dash, and the target code |
| CurrencyConverterWidget.ToggledFavorites | src/components/widgets/CurrencyConverter.tsx:47-51 | the pair's membership flips and no other pair's does; an added pair goes at the end; a removal keeps the others in order |
| CurrencyConverterWidget.FilterDropsOne | src/components/widgets/CurrencyConverter.tsx:49 | removing a present pair shortens the list |
| CurrencyConverterWidget.ToggleTwiceAbsent | src/components/widgets/CurrencyConverter.tsx:47-51 | adding then removing a pair restores the list |
| CurrencyConverterWidget.FractionDigits | src/components/widgets/CurrencyConverter.tsx:60-66 | eight digits exactly for BTC and ETH, two otherwise |
| CurrencyConverterWidget.Converter.constructor | src/components/widgets/CurrencyConverter.tsx:28-31 | starts at 1000 from USD to EUR with USD-EUR and USD-GBP as favourites |
| CurrencyConverterWidget.Converter.Rate | src/components/widgets/CurrencyConverter.tsx:40 | one unit of the source currency at the source rate is worth the target rate |
| CurrencyConverterWidget.Converter.ConvertedAmount | src/components/widgets/CurrencyConverter.tsx:39 | the typed amount at the rate, and the amount itself for the same currency |
| CurrencyConverterWidget.Converter.Swap | src/components/widgets/CurrencyConverter.tsx:42-45 | exchanges the two currencies and changes nothing else |
| CurrencyConverterWidget.Converter.ToggleFavorite | src/components/widgets/CurrencyConverter.tsx:47-51 | the favourites become the toggled list and the pair's membership flips |
| CurrencyConverterWidget.Converter.ToggleCurrentPair | src/components/widgets/CurrencyConverter.tsx:79 | the star button toggles the current pair, so the star flips |
| CurrencyConverterWidget.SwapTwice | src/components/widgets/CurrencyConverter.tsx:42-45 | swapping twice restores both currencies and the shown amount |
| CurrencyConverterWidget.SeedConversion | src/components/widgets/CurrencyConverter.tsx:33-40 | with the seed rates 1000 USD is 920 EUR, and an unknown code is at par |
| ConverterPage.GetRate | src/pages/Converter.tsx:17-21 | the rate times the source rate is the target rate, with the missing-or-zero fallback to 1 |
| ConverterPage.GetRateIsWidgetRate | src/pages/Converter.tsx:17-21 | the page's rate is the widget's conversion of one unit |
| ConverterPage.GetRateSame | src/pages/Converter.tsx:17-21 | a currency against itself is 1 |
| ConverterPage.GetRateReciprocal | src/pages/Converter.tsx:17-21 | the two directions of a pair multiply to 1 |
| ConverterPage.CryptoPrice | src/pages/Converter.tsx:80 | the price is the inverse of the listed non-zero rate, or of the fallback |
| ConverterPage.CryptoPrices | src/pages/Converter.tsx:89 | the seed prices are 1/0.000024 and 1/0.00042; without entries the fallbacks apply, and Ether's differs from the seed |
| Calculator.OrDefault | src/pages/Calculator.tsx:28-29 | a missing or zero input reads as the default |
| Calculator.CountOrOne | src/pages/Calculator.tsx:30 | a tenure or year count of 0 or missing reads as 1; never 0 |
| Calculator.PowAboveOne | src/pages/Calculator.tsx:33 | a base above 1 to a positive power is above 1 |
| Calculator.Emi | src/pages/Calculator.tsx:27-35 | without interest the EMI is the principal over n |
| Calculator.EmiFinite | src/pages/Calculator.tsx:33 | a positive rate gives a finite EMI satisfying the annuity equation |
| Calculator.BalanceClosedForm | src/pages/Calculator.tsx:33 | the balance after k payments in closed form |
| Calculator.ClosedFormStep | src/pages/Calculator.tsx:33 | the arithmetic step of the closed form: one month of interest and a payment keep it |
| Calculator.BalanceNoInterest | src/pages/Calculator.tsx:32 | without interest each payment lowers the balance by itself |
| Calculator.EmiAmortises | src/pages/Calculator.tsx:27-35 | n payments of the EMI pay the loan off exactly |
| Calculator.TotalPayment | src/pages/Calculator.tsx:38 | the EMI times the tenure; `NoInterestAtZeroRate` and `InterestPositive` pin it down |
| Calculator.TotalInterest | src/pages/Calculator.tsx:39 | the total payment less the principal; `NoInterestAtZeroRate` and `InterestPositive` pin it down |
| Calculator.NoInterestAtZeroRate | src/pages/Calculator.tsx:37-39 | at a zero rate the total paid is the principal and the interest 0 |
| Calculator.InterestPositive | src/pages/Calculator.tsx:37-39 | a positive rate on a positive loan costs positive interest |
| Calculator.PaysMoreThanBorrowed | src/pages/Calculator.tsx:38-39 | the arithmetic step: the payments exceed the principal |
| Calculator.GrowthBound | src/pages/Calculator.tsx:33 | (1+r)^n - 1 < n r (1+r)^n for a positive rate |
| Calculator.GrowthStep | src/pages/Calculator.tsx:33 | the inductive step of that bound |
| Calculator.FutureValue | src/pages/Calculator.tsx:43-49 | the principal compounded yearly; `CompoundsYearly` and `GainSign` pin it down |
| Calculator.CompoundsYearly | src/pages/Calculator.tsx:47 | one more year multiplies the future value by 1 + r |
| Calculator.GainSign | src/pages/Calculator.tsx:42-52 | a zero rate leaves the principal with no gain; a positive rate on a positive principal gains |
| Calculator.PowOfOne | src/pages/Calculator.tsx:47 | 1 to any power is 1 |
| Calculator.MonthlySavings | src/pages/Calculator.tsx:55-62 | the saving times the months is what remains; with positive months it is negative exactly when the goal is passed |
| Calculator.Round | src/pages/Calculator.tsx:282 | the nearest integer, halves rounded up |
| Calculator.SavingsProgress | src/pages/Calculator.tsx:282 | the rounded percentage of saved over goal, with a zero goal read as 1 |
| Calculator.DefaultFigures | src/pages/Calculator.tsx:12-24 | the starting values give 1875 a month, 10% progress and a future value of 17623.416832 |
| Calculator.ProgressEdgeCases | src/pages/Calculator.tsx:55-62 | a zero goal shows progress against 1, and a passed goal a negative saving |
| NotificationPanel.AllRead | src/components/notifications/NotificationPanel.tsx:28-30 | same length and order, every item unchanged except that it is read |
| NotificationPanel.UnreadCount | src/components/notifications/NotificationPanel.tsx:36 | the count is at most the list length |
| NotificationPanel.UnreadZeroIffAllRead | src/components/notifications/NotificationPanel.tsx:36 | nothing unread iff every item is read |
| NotificationPanel.MarkAllClearsBadge | src/components/notifications/NotificationPanel.tsx:28-30 | after marking all read nothing is unread, and marking again changes nothing |
| NotificationPanel.BadgeNeedsItems | src/components/notifications/NotificationPanel.tsx:45 | the unread badge implies the actions are shown |
| NotificationPanel.Panel.constructor | src/components/notifications/NotificationPanel.tsx:26 | starts with the seed notifications |
| NotificationPanel.Panel.MarkAllAsRead | src/components/notifications/NotificationPanel.tsx:28-30 | every item becomes read and the unread count is 0 |
| NotificationPanel.Panel.ClearAll | src/components/notifications/NotificationPanel.tsx:32-34 | the list becomes empty, nothing is unread and the actions are hidden |
| NotificationPanel.SeedUnread | src/data/mockData.ts:333-340 | three seed notifications are unread |
| Reports.TotalIncome | src/pages/Reports.tsx:53 | the monthly incomes added up; `SeedReport` pins down the seed figure |
| Reports.TotalExpenses | src/pages/Reports.tsx:65 | the monthly expenses added up; `SeedReport` pins down the seed figure |
| Reports.NetSavings | src/pages/Reports.tsx:78 | each month's income less expenses added up; `NetIsIncomeLessExpenses` pins it down |
| Reports.NetIsIncomeLessExpenses | src/pages/Reports.tsx:78 | net savings are total income minus total expenses; no rows give 0 on all three |
| Reports.NoLosingMonthNoLoss | src/pages/Reports.tsx:78 | if no month spends more than it earns, net savings are non-negative |
| Reports.SeedReport | src/pages/Reports.tsx:53 | the seed months take in 47850, spend 20780 and save 27070 |
| EnhancedStats.CreditCategory | src/components/dashboard/EnhancedStatsCards.tsx:154-159 | Excellent iff at least 750, Good iff in [700, 750), Fair iff in [650, 700), Poor iff below 650 |
| EnhancedStats.CreditCategoryMonotone | src/components/dashboard/EnhancedStatsCards.tsx:154-159 | a higher score never gets a lower category |
| EnhancedStats.CreditPercentage | src/components/dashboard/EnhancedStatsCards.tsx:149-152 | the gauge position is the score's distance from 300 as a share of 550, times 100 |
| EnhancedStats.CreditPercentageBounds | src/components/dashboard/EnhancedStatsCards.tsx:149-152 | within [0, 100] on the 300-850 scale, 0 at 300, 100 at 850, and monotone |
| EnhancedStats.ChangeBadgeOf | src/components/dashboard/EnhancedStatsCards.tsx:61-70 | the arrow points up and is green iff the change is not negative; the number shown is its absolute value |
| EnhancedStats.SparklineColour | src/components/dashboard/EnhancedStatsCards.tsx:120 | the sparkline is success-coloured iff the badge points up |
| EnhancedStats.BudgetBar | src/components/dashboard/EnhancedStatsCards.tsx:135-138 | the card bar uses the Budget page's 70/90 bands, width min(value, 100) |
| EnhancedStats.GaugeScheme | src/components/dashboard/EnhancedStatsCards.tsx:79 | success iff both value and max are present and non-zero and value/max exceeds 0.7 |
| EnhancedStats.GaugeAboveSeventyPercent | src/components/dashboard/EnhancedStatsCards.tsx:79 | for a positive maximum, success iff the value exceeds 70% of it |
| EnhancedStats.AboveFraction | src/components/dashboard/EnhancedStatsCards.tsx:79 | value/max > 0.7 iff value > 0.7 max for positive max |
| EnhancedStats.SeedCards | src/data/mockData.ts:111-123 | the seed 742 score is Good at about 80.36% of the gauge; falling expenses show a red 5.3; the budget bar is emerald at 67.3 |
| HealthScoreWidget.ScoreLevel | src/components/widgets/FinancialHealthScore.tsx:21-26 | exactly one level per score: Excellent at 80, Good at 60, Fair at 40, else Needs Work |
| HealthScoreWidget.ScoreLevelMonotone | src/components/widgets/FinancialHealthScore.tsx:21-26 | a higher score never gets a lower level |
| HealthScoreWidget.BarColor | src/components/widgets/FinancialHealthScore.tsx:30-36 | for a positive maximum the bar takes the level colour of value/max*100 |
| HealthScoreWidget.CategoriesCoverScale | src/components/widgets/FinancialHealthScore.tsx:10-16 | five distinct categories, each out of 20, with maxima adding up to 100 |
| HealthScoreWidget.SeedHealth | src/components/widgets/FinancialHealthScore.tsx:72-73 | the seed 78 is Good; savings and spending bars are emerald, the rest cyan |
| Sparkline.SeqMin | src/components/shared/Sparkline.tsx:28 | the minimum is at most every value and is one of them |
| Sparkline.SeqMax | src/components/shared/Sparkline.tsx:29 | the maximum is at least every value and is one of them |
| Sparkline.Range | src/components/shared/Sparkline.tsx:30 | positive; max - min, or 1 when all values are equal |
| Sparkline.Points | src/components/shared/Sparkline.tsx:33-37 | one point per value |
| Sparkline.XPositions | src/components/shared/Sparkline.tsx:34 | the first x is the padding and the last x the width minus the padding; strictly increasing when the box is wider than twice the padding |
| Sparkline.XSpacing | src/components/shared/Sparkline.tsx:34 | the x formula puts index 0 on the padding, the last index on the width minus the padding, and spaces the rest in increasing order |
| Sparkline.FractionsIncrease | src/components/shared/Sparkline.tsx:34 | scaling preserves the order of the fractions |
| Sparkline.YPositions | src/components/shared/Sparkline.tsx:35 | every y lies within the padded box; the minimum sits on the bottom edge and the maximum on the top edge |
| Sparkline.YScaling | src/components/shared/Sparkline.tsx:35 | the y formula maps any value between min and max into the padded box, min to the bottom edge and max to the top |
| Sparkline.UnitFraction | src/components/shared/Sparkline.tsx:35 | a value's offset over the range lies in [0, 1] |
| Sparkline.ScaleWithin | src/components/shared/Sparkline.tsx:35 | (1 - t) h lies in [0, h] |
| Sparkline.Segments | src/components/shared/Sparkline.tsx:41-46 | one curve per pair of consecutive points |
| Sparkline.SegmentsAt | src/components/shared/Sparkline.tsx:41-46 | the curve at position i is controlled by point i and ends half-way to point i + 1 |
| Sparkline.LinePath | src/components/shared/Sparkline.tsx:40-47 | M, one Q per consecutive pair, L; `LinePathShape` and `BuildPath` pin it down |
| Sparkline.LinePathShape | src/components/shared/Sparkline.tsx:40-47 | one move first, one curve per consecutive pair, and a final line to the last point |
| Sparkline.BuildPath | src/components/shared/Sparkline.tsx:40-47 | the loop appending one curve per point builds the line path |
| Sparkline.AreaPath | src/components/shared/Sparkline.tsx:50-52 | the line path, then down to the bottom edge and closed |
| Sparkline.TrendOf | src/components/shared/Sparkline.tsx:55 | neutral iff fewer than two values; otherwise up iff the last value is at least the first |
| Sparkline.ShapeOf | src/components/shared/Sparkline.tsx:24-26 | fewer than two values give empty paths and no trend |
| Sparkline.EndDot | src/components/shared/Sparkline.tsx:118-124 | the dot's centre from its own formula; `EndDotOnLastPoint` pins it down |
| Sparkline.EndDotOnLastPoint | src/components/shared/Sparkline.tsx:117-124 | the end dot, computed on its own, sits on the line's last point |
| Sparkline.TrendColour | src/components/shared/Sparkline.tsx:67-71 | green up, red down, otherwise the requested colour |
| Sparkline.DefaultProps | src/components/shared/Sparkline.tsx:14-21 | with the default 100 by 30 box every point lies between y = 2 and 28 and the line runs from x = 2 to 98; a drawn sparkline is never in the `color` prop's colour, because two or more values always give an up or down trend, and a flat series is drawn emerald |
| KeyboardShortcut.ModifierMatch | src/hooks/useKeyboardShortcut.ts:12-20 | the modifier test; `CmdCtrlInterchangeable` and `ExactWithoutCmdCtrl` pin it down |
| KeyboardShortcut.CmdCtrlInterchangeable | src/hooks/useKeyboardShortcut.ts:18-19 | with Cmd or Ctrl requested either key will do; shift and alt must match |
| KeyboardShortcut.ExactWithoutCmdCtrl | src/hooks/useKeyboardShortcut.ts:12-20 | with neither requested all four flags must match, so an extra modifier blocks |
| KeyboardShortcut.KeyCaseInsensitive | src/hooks/useKeyboardShortcut.ts:22 | the key comparison ignores case |
| KeyboardShortcut.HandleKeyDown | src/hooks/useKeyboardShortcut.ts:22-25 | the callback runs, with the default prevented, iff the key and the modifiers match |
| KeyboardShortcut.SearchShortcut | src/hooks/useKeyboardShortcut.ts:18-25 | Cmd+K fires on Ctrl+K and Cmd+k but not on plain k or with Alt |
| DateTime.Greeting | src/hooks/useDateTime.ts:29-34 | morning iff before 12, afternoon iff 12 to 16, evening iff 17 on |
| DateTime.GreetingChangesTwice | src/hooks/useDateTime.ts:29-34 | over a day the greeting changes exactly at noon and at five |

## Left out

- Rendering is not modelled: JSX, Recharts, icons and the other static style tables.
- Locale formatting (`Intl.NumberFormat`, `toLocaleString`, `toFixed`, date formatting) is library and locale dependent. The model keeps only sign prefixes and the choice of fraction digits.
- Floating point: money is an exact real, so float rounding is not reproduced. `Math.pow` exponents (tenure, years) are natural numbers.
- String parsing: `parseFloat` is modelled as an already-parsed `Option`; a number typed in is not parsed from text.
- Clocks: `new Date()` and `Date.now()` ids are parameters (a day number with the time since midnight, a month and year, an hour). Days are 24 hours long: daylight-saving days are not modelled.
- Time zones: only which side of UTC the zone lies on is modelled, which is all that moves a date-only string's local month; the zone's other effects are not.
- The legacy form carries the parsed amount next to its text. The JSON timestamp field is not stored.
- Lower-casing is ASCII only; there is no Unicode case folding.
- Side effects are not modelled: the DOM, Bootstrap modals and alerts, `navigate` beyond the route returned, and listener registration. Local storage is a class field, and a malformed JSON entry (which the code does not recover from) is not modelled.
- Timers and animation are not modelled: `setInterval` in the date-time hook, animated numbers, circular progress and the script's value animation.
- BillRemindersWidget.SortByDue: it proves the result sorted and a permutation, but not that the browser sort keeps bills with equal day counts in their original order.
- BillRemindersWidget.BillReminders.SortedBills: the same gap; the order among bills with the same day count is not stated.
- InvestmentsPage: the holdings count (`investments.length`) is the list length and has no member of its own.
- Sparkline: the `className`, `showArea` and `animate` props only style the drawing and are not modelled.
- Sparkline: paths are lists of drawing commands; how their numbers are printed into the path string is not modelled.
- ConverterPage.CryptoPrice: it requires a non-zero fallback. Both fallbacks in the code are non-zero constants.
- TopBar's unread count duplicates the notification panel's and is not modelled.
- CurrencyConverterWidget.SwapTwice: it is a method on the converter object because it states a property of two state changes.
