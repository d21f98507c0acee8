/** The dashboard's budget tracker card: per-category status bands (over 100%
    and over 80%), the clamped progress bar, the overflow segment, the
    over/left figure and the header totals. Percentages are JavaScript
    numbers, so a zero budget gives an infinity or NaN rather than an error. */
module BudgetTracker {
  import opened Common
  import opened MockData

  /** `spent / budget * 100`. */
  function Percentage(spent: real, budget: real): Num
  {
    Percent(spent, budget)
  }

  /** For a positive budget the percentage exceeds a bound `k` exactly when
      spending exceeds `k` percent of the budget. */
  lemma PercentageAbove(spent: real, budget: real, k: real)
    ensures budget > 0.0 ==> (Gt(Percentage(spent, budget), k) <==> spent > budget * k / 100.0)
  {
    if budget > 0.0 {
      var p := spent / budget * 100.0;
      assert p * budget == spent * 100.0;
      if p > k {
        assert p * budget > k * budget;
      } else {
        assert p * budget <= k * budget;
      }
    }
  }

  /** `getStatusColor`: rose above 100%, amber above 80%, emerald otherwise. */
  function StatusColor(spent: real, budget: real): (color: string)
    ensures budget > 0.0 ==> (color == "bg-rose-500" <==> spent > budget)
    ensures budget > 0.0 ==> (color == "bg-amber-500" <==> budget * 0.8 < spent <= budget)
    ensures budget > 0.0 ==> (color == "bg-emerald-500" <==> spent <= budget * 0.8)
    ensures budget == 0.0 ==> (color == "bg-rose-500" <==> spent > 0.0)
    ensures budget == 0.0 ==> (color == "bg-emerald-500" <==> spent <= 0.0)
  {
    var percentage := Percentage(spent, budget);
    PercentageAbove(spent, budget, 100.0);
    PercentageAbove(spent, budget, 80.0);
    if Gt(percentage, 100.0) then "bg-rose-500"
    else if Gt(percentage, 80.0) then "bg-amber-500"
    else "bg-emerald-500"
  }

  /** `getStatusText`: the label for the same two thresholds. */
  function StatusText(spent: real, budget: real): (text: string)
    ensures budget > 0.0 ==> (text == "Over budget" <==> spent > budget)
    ensures budget > 0.0 ==> (text == "Near limit" <==> budget * 0.8 < spent <= budget)
    ensures budget > 0.0 ==> (text == "On track" <==> spent <= budget * 0.8)
    ensures budget == 0.0 ==> (text == "Over budget" <==> spent > 0.0)
  {
    var percentage := Percentage(spent, budget);
    PercentageAbove(spent, budget, 100.0);
    PercentageAbove(spent, budget, 80.0);
    if Gt(percentage, 100.0) then "Over budget"
    else if Gt(percentage, 80.0) then "Near limit"
    else "On track"
  }

  /** Exactly 80% is on track and exactly 100% is near the limit. */
  lemma BoundaryPercentages(budget: real)
    requires budget > 0.0
    ensures StatusText(budget * 0.8, budget) == "On track"
    ensures StatusText(budget, budget) == "Near limit"
  {
  }

  /** The colour of the status label, chosen from the bar colour. */
  function LabelColor(spent: real, budget: real): string
  {
    var bar := StatusColor(spent, budget);
    if bar == "bg-emerald-500" then "text-emerald-400"
    else if bar == "bg-amber-500" then "text-amber-400"
    else "text-rose-400"
  }

  /** The two functions use the same thresholds, so the label's colour always
      matches its text, whatever the budget (zero and negative included). */
  lemma ColorAgreesWithText(spent: real, budget: real)
    ensures StatusText(spent, budget) == "Over budget" <==> StatusColor(spent, budget) == "bg-rose-500"
    ensures StatusText(spent, budget) == "Near limit" <==> StatusColor(spent, budget) == "bg-amber-500"
    ensures StatusText(spent, budget) == "On track" <==> StatusColor(spent, budget) == "bg-emerald-500"
    ensures StatusText(spent, budget) == "Over budget" <==> LabelColor(spent, budget) == "text-rose-400"
    ensures StatusText(spent, budget) == "On track" <==> LabelColor(spent, budget) == "text-emerald-400"
  {
  }

  /** The bar width, `Math.min(spent / budget * 100, 100)`. */
  function BarWidth(spent: real, budget: real): (w: Num)
    ensures !Gt(w, 100.0)
    ensures budget > 0.0 ==> w == Fin(MinReal(spent / budget * 100.0, 100.0))
    ensures budget > 0.0 && spent >= 0.0 ==> w.Fin? && 0.0 <= w.v <= 100.0
    ensures budget > 0.0 && spent >= budget ==> w == Fin(100.0)
  {
    Min(Percentage(spent, budget), 100.0)
  }

  /** `isOverBudget`: spending strictly above the budget. */
  predicate IsOverBudget(spent: real, budget: real)
  {
    spent > budget
  }

  /** For any non-negative budget the over-budget flag and the `Over budget`
      label coincide (for a zero budget, `x / 0 * 100` is Infinity when
      `x > 0` and NaN or -Infinity otherwise). */
  lemma OverBudgetIffLabel(spent: real, budget: real)
    requires budget >= 0.0
    ensures IsOverBudget(spent, budget) <==> StatusText(spent, budget) == "Over budget"
  {
    if budget == 0.0 && spent < 0.0 {
      assert Percentage(spent, budget) == NegInf;
    }
  }

  /** A negative budget separates the two: nothing spent counts as over budget,
      yet the label says on track. */
  lemma NegativeBudgetDisagreement()
    ensures IsOverBudget(0.0, -10.0) && StatusText(0.0, -10.0) == "On track"
  {
    assert Percentage(0.0, -10.0) == Fin(0.0);
  }

  /** The faint segment past the end of an over-budget bar,
      `Math.min((spent - budget) / budget * 100, 30)`. */
  function OverflowWidth(spent: real, budget: real): (w: Num)
    ensures !Gt(w, 30.0)
    ensures budget > 0.0 ==> w == Fin(MinReal((spent - budget) / budget * 100.0, 30.0))
    ensures budget > 0.0 && IsOverBudget(spent, budget) ==> w.Fin? && 0.0 < w.v <= 30.0
  {
    assert budget > 0.0 && spent > budget ==> (spent - budget) / budget > 0.0;
    Min(Percent(spent - budget, budget), 30.0)
  }

  /** The figure after the bar: how much over, or how much is left. */
  function OverLeftAmount(spent: real, budget: real): (amount: real)
    ensures amount >= 0.0
    ensures amount == Abs(spent - budget)
    ensures IsOverBudget(spent, budget) ==> amount == spent - budget
    ensures !IsOverBudget(spent, budget) ==> amount == budget - spent
  {
    if IsOverBudget(spent, budget) then spent - budget else budget - spent
  }

  /** The word after the figure. */
  function OverLeftWord(spent: real, budget: real): (word: string)
    ensures word == "over" <==> IsOverBudget(spent, budget)
    ensures word == "left" <==> !IsOverBudget(spent, budget)
  {
    if IsOverBudget(spent, budget) then "over" else "left"
  }

  /** The header total of budgets. */
  function TotalBudget(cats: seq<BudgetCategory>): real
  {
    Sum(cats, (c: BudgetCategory) => c.budget)
  }

  /** The header total of spending. */
  function TotalSpent(cats: seq<BudgetCategory>): real
  {
    Sum(cats, (c: BudgetCategory) => c.spent)
  }

  /** Totals are additive over a split of the category list and non-negative
      for well-formed categories. */
  lemma TotalsAdditive(a: seq<BudgetCategory>, b: seq<BudgetCategory>)
    ensures TotalBudget(a + b) == TotalBudget(a) + TotalBudget(b)
    ensures TotalSpent(a + b) == TotalSpent(a) + TotalSpent(b)
    ensures (forall c :: c in a ==> c.budget > 0.0 && c.spent >= 0.0) ==> TotalBudget(a) >= 0.0 && TotalSpent(a) >= 0.0
  {
    SumAppend(a, b, (c: BudgetCategory) => c.budget);
    SumAppend(a, b, (c: BudgetCategory) => c.spent);
    if forall c :: c in a ==> c.budget > 0.0 && c.spent >= 0.0 {
      SumNonNegative(a, (c: BudgetCategory) => c.budget);
      SumNonNegative(a, (c: BudgetCategory) => c.spent);
    }
  }

  /** The seed categories add up to a budget of 2800 and spending of 3280. */
  lemma SeedTotals()
    ensures TotalBudget(BudgetCategories) == 2800.0
    ensures TotalSpent(BudgetCategories) == 3280.0
  {
    var cs := BudgetCategories;
    var fb := (c: BudgetCategory) => c.budget;
    var fs := (c: BudgetCategory) => c.spent;
    assert cs[..6] == cs;
    assert cs[..5][..4] == cs[..4] && cs[..4][..3] == cs[..3] && cs[..3][..2] == cs[..2];
    assert cs[..2][..1] == cs[..1] && cs[..1][..0] == [];
    assert Sum(cs[..1], fb) == 600.0 && Sum(cs[..1], fs) == 580.0;
    assert Sum(cs[..2], fb) == 1000.0 && Sum(cs[..2], fs) == 900.0;
    assert Sum(cs[..3], fb) == 1300.0 && Sum(cs[..3], fs) == 1350.0;
    assert Sum(cs[..4], fb) == 2100.0 && Sum(cs[..4], fs) == 2030.0;
    assert Sum(cs[..5], fb) == 2300.0 && Sum(cs[..5], fs) == 2310.0;
  }

  /** Three of the six seed categories (Shopping, Entertainment, Other) are over budget. */
  lemma SeedStatuses()
    ensures [StatusText(580.0, 600.0), StatusText(320.0, 400.0), StatusText(450.0, 300.0),
             StatusText(680.0, 800.0), StatusText(280.0, 200.0), StatusText(970.0, 500.0)]
         == ["Near limit", "On track", "Over budget", "Near limit", "Over budget", "Over budget"]
  {
  }
}
