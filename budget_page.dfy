/** The Budget Planner page's summary: totals, what remains, the percentage
    used and its colour bands (below 70% emerald, below 90% amber, rose from
    90% on), which the stats cards reuse for their budget bar. */
module BudgetPage {
  import opened Common
  import opened MockData
  import BudgetTracker

  /** `remaining = totalBudget - totalSpent`. */
  function Remaining(cats: seq<BudgetCategory>): real
  {
    BudgetTracker.TotalBudget(cats) - BudgetTracker.TotalSpent(cats)
  }

  /** What remains is the sum, over categories, of each one's unspent budget. */
  lemma RemainingIsSumOfLeftovers(cats: seq<BudgetCategory>)
    ensures Remaining(cats) == Sum(cats, (c: BudgetCategory) => c.budget - c.spent)
    ensures (forall c :: c in cats ==> c.spent <= c.budget) ==> Remaining(cats) >= 0.0
  {
    var left := (c: BudgetCategory) => c.budget - c.spent;
    SumDifference(cats, (c: BudgetCategory) => c.budget, (c: BudgetCategory) => c.spent, left);
    if forall c :: c in cats ==> c.spent <= c.budget {
      SumNonNegative(cats, left);
    }
  }

  /** `percentUsed = totalSpent / totalBudget * 100`. */
  function PercentUsed(cats: seq<BudgetCategory>): (p: Num)
    ensures BudgetTracker.TotalBudget(cats) != 0.0 ==>
      p == Fin(BudgetTracker.TotalSpent(cats) / BudgetTracker.TotalBudget(cats) * 100.0)
    ensures cats == [] ==> p == NaN
  {
    Percent(BudgetTracker.TotalSpent(cats), BudgetTracker.TotalBudget(cats))
  }

  /** The bar colour for a percentage used. */
  function UsageColor(p: Num): (color: string)
    ensures color in {"bg-emerald-500", "bg-amber-500", "bg-rose-500"}
    ensures p.Fin? ==> (color == "bg-emerald-500" <==> p.v < 70.0)
    ensures p.Fin? ==> (color == "bg-amber-500" <==> 70.0 <= p.v < 90.0)
    ensures p.Fin? ==> (color == "bg-rose-500" <==> p.v >= 90.0)
    ensures p.NaN? || p.PosInf? ==> color == "bg-rose-500"
  {
    if Lt(p, 70.0) then "bg-emerald-500"
    else if Lt(p, 90.0) then "bg-amber-500"
    else "bg-rose-500"
  }

  /** The severity of a band: 0 emerald, 1 amber, 2 rose. */
  function Severity(color: string): nat
  {
    if color == "bg-emerald-500" then 0 else if color == "bg-amber-500" then 1 else 2
  }

  /** More spending never moves the bar to a milder colour. */
  lemma UsageColorMonotone(a: real, b: real)
    requires a <= b
    ensures Severity(UsageColor(Fin(a))) <= Severity(UsageColor(Fin(b)))
  {
  }

  /** The overall bar width, `Math.min(percentUsed, 100)`. */
  function OverallBarWidth(cats: seq<BudgetCategory>): (w: Num)
    ensures !Gt(w, 100.0)
    ensures BudgetTracker.TotalBudget(cats) > 0.0 && BudgetTracker.TotalSpent(cats) >= 0.0 ==>
      w.Fin? && 0.0 <= w.v <= 100.0
  {
    Min(PercentUsed(cats), 100.0)
  }

  /** The planner page and the tracker card band the same percentage
      differently: at 75% the page is amber while the card is on track, and at
      95% the page is rose while the card is near the limit. */
  lemma BandsDiffer()
    ensures UsageColor(Fin(75.0)) == "bg-amber-500" && BudgetTracker.StatusColor(75.0, 100.0) == "bg-emerald-500"
    ensures UsageColor(Fin(95.0)) == "bg-rose-500" && BudgetTracker.StatusColor(95.0, 100.0) == "bg-amber-500"
  {
  }

  /** With the seed budgets, 480 is overspent in total, the bar is full and rose. */
  lemma SeedSummary()
    ensures Remaining(BudgetCategories) == -480.0
    ensures PercentUsed(BudgetCategories).Fin? && PercentUsed(BudgetCategories).v > 100.0
    ensures UsageColor(PercentUsed(BudgetCategories)) == "bg-rose-500"
    ensures OverallBarWidth(BudgetCategories) == Fin(100.0)
  {
    BudgetTracker.SeedTotals();
  }
}
