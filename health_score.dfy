/** The financial health widget: the overall score's level and the five
    category bars with their colours. */
module HealthScoreWidget {
  import opened Common
  import opened MockData

  /** `getScoreLevel`'s four levels. */
  datatype Level = Excellent | Good | Fair | NeedsWork

  /** 80 and up excellent, 60 good, 40 fair, below that needs work. */
  function ScoreLevel(score: real): (level: Level)
    ensures level == Excellent <==> score >= 80.0
    ensures level == Good <==> 60.0 <= score < 80.0
    ensures level == Fair <==> 40.0 <= score < 60.0
    ensures level == NeedsWork <==> score < 40.0
  {
    if score >= 80.0 then Excellent
    else if score >= 60.0 then Good
    else if score >= 40.0 then Fair
    else NeedsWork
  }

  /** A level's label, text colour and gauge scheme. */
  datatype LevelStyle = LevelStyle(text: string, colour: string, scheme: string)

  function StyleOf(level: Level): LevelStyle
  {
    match level
    case Excellent => LevelStyle("Excellent", "text-emerald-400", "success")
    case Good => LevelStyle("Good", "text-cyan-400", "primary")
    case Fair => LevelStyle("Fair", "text-amber-400", "warning")
    case NeedsWork => LevelStyle("Needs Work", "text-rose-400", "danger")
  }

  /** The levels in order, worst first. */
  function Rank(level: Level): nat
  {
    match level
    case NeedsWork => 0
    case Fair => 1
    case Good => 2
    case Excellent => 3
  }

  /** A higher score never gets a lower level. */
  lemma ScoreLevelMonotone(a: real, b: real)
    requires a <= b
    ensures Rank(ScoreLevel(a)) <= Rank(ScoreLevel(b))
  {
  }

  /** `getBarColor(value, max)`: the same four bands on `value / max * 100`. */
  function BarColor(value: real, max: real): (colour: string)
    ensures max > 0.0 ==> colour == LevelBarColor(ScoreLevel(value / max * 100.0))
  {
    var percentage := Percent(value, max);
    if Ge(percentage, 80.0) then "bg-emerald-500"
    else if Ge(percentage, 60.0) then "bg-cyan-500"
    else if Ge(percentage, 40.0) then "bg-amber-500"
    else "bg-rose-500"
  }

  /** The bar colour that goes with each level. */
  function LevelBarColor(level: Level): string
  {
    match level
    case Excellent => "bg-emerald-500"
    case Good => "bg-cyan-500"
    case Fair => "bg-amber-500"
    case NeedsWork => "bg-rose-500"
  }

  /** The five categories, each out of 20. */
  datatype HealthCategory = SavingsRate | DebtToIncome | EmergencyFund | SpendingDiscipline | Diversification

  const Categories: seq<HealthCategory> := [SavingsRate, DebtToIncome, EmergencyFund, SpendingDiscipline, Diversification]

  function CategoryMax(c: HealthCategory): int
  {
    20
  }

  function CategoryLabel(c: HealthCategory): string
  {
    match c
    case SavingsRate => "Savings Rate"
    case DebtToIncome => "Debt-to-Income"
    case EmergencyFund => "Emergency Fund"
    case SpendingDiscipline => "Spending Discipline"
    case Diversification => "Diversification"
  }

  /** `financialHealthScore[category.key]`. */
  function CategoryValue(h: FinancialHealthScore, c: HealthCategory): int
  {
    match c
    case SavingsRate => h.savingsRate
    case DebtToIncome => h.debtToIncome
    case EmergencyFund => h.emergencyFund
    case SpendingDiscipline => h.spendingDiscipline
    case Diversification => h.investmentDiversification
  }

  /** The category bar's colour. */
  function CategoryBarColor(h: FinancialHealthScore, c: HealthCategory): string
  {
    BarColor(CategoryValue(h, c) as real, CategoryMax(c) as real)
  }

  /** Every category appears once, and the maxima add up to the overall
      score's scale of 100. */
  lemma CategoriesCoverScale()
    ensures |Categories| == 5
    ensures forall c: HealthCategory :: c in Categories
    ensures forall i, j :: 0 <= i < j < |Categories| ==> Categories[i] != Categories[j]
    ensures CategoryMax(Categories[0]) + CategoryMax(Categories[1]) + CategoryMax(Categories[2])
      + CategoryMax(Categories[3]) + CategoryMax(Categories[4]) == 100
  {
    forall c: HealthCategory ensures c in Categories {
      match c
      case SavingsRate => assert Categories[0] == c;
      case DebtToIncome => assert Categories[1] == c;
      case EmergencyFund => assert Categories[2] == c;
      case SpendingDiscipline => assert Categories[3] == c;
      case Diversification => assert Categories[4] == c;
    }
  }

  /** The seed score of 78 is good; savings (18 of 20) and spending (16) show
      green bars, the other three cyan. */
  lemma SeedHealth()
    ensures ScoreLevel(HealthScore.overall as real) == Good
    ensures CategoryBarColor(HealthScore, SavingsRate) == "bg-emerald-500"
    ensures CategoryBarColor(HealthScore, SpendingDiscipline) == "bg-emerald-500"
    ensures CategoryBarColor(HealthScore, DebtToIncome) == "bg-cyan-500"
    ensures CategoryBarColor(HealthScore, EmergencyFund) == "bg-cyan-500"
    ensures CategoryBarColor(HealthScore, Diversification) == "bg-cyan-500"
  {
  }
}
