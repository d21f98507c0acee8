/** The dashboard's stat cards: the change indicator, the budget-used bar,
    the gauge colour and the credit score card. */
module EnhancedStats {
  import opened Common
  import opened MockData
  import BudgetPage

  /** The credit score card's category. */
  datatype CreditBand = Excellent | Good | Fair | Poor

  /** `getScoreCategory`: 750 and up excellent, 700 good, 650 fair, below that poor. */
  function CreditCategory(score: int): (band: CreditBand)
    ensures band == Excellent <==> score >= 750
    ensures band == Good <==> 700 <= score < 750
    ensures band == Fair <==> 650 <= score < 700
    ensures band == Poor <==> score < 650
  {
    if score >= 750 then Excellent
    else if score >= 700 then Good
    else if score >= 650 then Fair
    else Poor
  }

  /** The category's label and colour. */
  function CreditLabel(band: CreditBand): (string, string)
  {
    match band
    case Excellent => ("Excellent", "text-emerald-400")
    case Good => ("Good", "text-cyan-400")
    case Fair => ("Fair", "text-amber-400")
    case Poor => ("Poor", "text-rose-400")
  }

  /** A higher score never gets a lower category (the bands in order). */
  function BandRank(band: CreditBand): nat
  {
    match band
    case Poor => 0
    case Fair => 1
    case Good => 2
    case Excellent => 3
  }

  lemma CreditCategoryMonotone(a: int, b: int)
    requires a <= b
    ensures BandRank(CreditCategory(a)) <= BandRank(CreditCategory(b))
  {
  }

  const MinScore: int := 300
  const MaxScore: int := 850

  /** `((score - minScore) / (maxScore - minScore)) * 100`, where the gauge sits. */
  function CreditPercentage(score: int): (p: real)
    ensures p * 550.0 == (score - MinScore) as real * 100.0
  {
    ((score - MinScore) as real / (MaxScore - MinScore) as real) * 100.0
  }

  /** On the scale's range the gauge is between empty and full: empty at 300,
      full at 850, and it rises with the score. */
  lemma CreditPercentageBounds(score: int, other: int)
    ensures MinScore <= score <= MaxScore ==> 0.0 <= CreditPercentage(score) <= 100.0
    ensures CreditPercentage(MinScore) == 0.0 && CreditPercentage(MaxScore) == 100.0
    ensures score <= other ==> CreditPercentage(score) <= CreditPercentage(other)
  {
  }

  /** The change badge: arrow up in green when the change is not negative,
      down in red otherwise, followed by the size of the change. */
  datatype ChangeBadge = ChangeBadge(up: bool, colour: string, magnitude: real)

  function ChangeBadgeOf(change: real): (b: ChangeBadge)
    ensures b.up <==> change >= 0.0
    ensures b.colour == (if change >= 0.0 then "text-emerald-400" else "text-rose-400")
    ensures b.magnitude >= 0.0 && (b.magnitude == change || b.magnitude == -change)
  {
    var isPositive := change >= 0.0;
    ChangeBadge(isPositive, if isPositive then "text-emerald-400" else "text-rose-400", Abs(change))
  }

  /** The sparkline's colour follows the same sign. */
  function SparklineColour(change: real): (colour: string)
    ensures colour == "success" <==> ChangeBadgeOf(change).up
  {
    if change >= 0.0 then "success" else "danger"
  }

  /** The budget-used bar under a card: the Budget page's bands on the
      percentage, and a width capped at 100. */
  datatype UsageBar = UsageBar(colour: string, width: real)

  function BudgetBar(progressValue: real): (bar: UsageBar)
    ensures bar.colour == BudgetPage.UsageColor(Fin(progressValue))
    ensures bar.width == MinReal(progressValue, 100.0) && bar.width <= 100.0
    ensures progressValue >= 0.0 ==> bar.width >= 0.0
  {
    var colour :=
      if progressValue < 70.0 then "bg-emerald-500"
      else if progressValue < 90.0 then "bg-amber-500"
      else "bg-rose-500";
    UsageBar(colour, MinReal(progressValue, 100.0))
  }

  /** The gauge's colour scheme. */
  datatype Scheme = SuccessScheme | PrimaryScheme

  /** `progressValue && progressMax && progressValue / progressMax > 0.7`:
      a missing or zero value or maximum gives `primary`. */
  function GaugeScheme(progressValue: Option<real>, progressMax: Option<real>): (s: Scheme)
    ensures s == SuccessScheme <==>
      progressValue.Some? && progressValue.value != 0.0 && progressMax.Some? && progressMax.value != 0.0
      && progressValue.value / progressMax.value > 0.7
  {
    if progressValue.Some? && progressValue.value != 0.0 && progressMax.Some? && progressMax.value != 0.0
      && progressValue.value / progressMax.value > 0.7
    then SuccessScheme else PrimaryScheme
  }

  /** For a positive maximum the gauge is `success` exactly when the value is
      above 70% of it. */
  lemma GaugeAboveSeventyPercent(value: real, max: real)
    requires max > 0.0
    ensures GaugeScheme(Some(value), Some(max)) == SuccessScheme <==> value > 0.7 * max
  {
    AboveFraction(value, max);
  }

  /** `value / max > 0.7` is `value > 0.7 max` when `max` is positive. */
  lemma AboveFraction(value: real, max: real)
    requires max > 0.0
    ensures value / max > 0.7 <==> value > 0.7 * max
  {
    var q := value / max;
    assert q * max == value;
    if q > 0.7 {
      assert (q - 0.7) * max > 0.0;
    } else {
      assert (0.7 - q) * max >= 0.0;
    }
  }

  /** The seed cards: a 742 score is good, at 80.36% of the gauge; expenses
      fell by 5.3%; 67.3% of the budget used is green; a 60.7% savings rate
      leaves the gauge `primary`. */
  lemma SeedCards()
    ensures CreditCategory(Stats.creditScore) == Good
    ensures 80.36 < CreditPercentage(Stats.creditScore) < 80.37
    ensures ChangeBadgeOf(Stats.expenseChange) == ChangeBadge(false, "text-rose-400", 5.3)
    ensures BudgetBar(Stats.budgetUsed) == UsageBar("bg-emerald-500", 67.3)
    ensures GaugeScheme(Some(Stats.savingsRate), Some(100.0)) == PrimaryScheme
  {
  }
}
