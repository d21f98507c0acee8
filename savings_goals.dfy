/** The savings goals widget: each goal's progress, completion badge, bar
    width and deadline message, and the overall progress across goals. */
module SavingsGoalsWidget {
  import opened Common
  import opened MockData
  import opened Clock

  /** `progress = currentAmount / targetAmount * 100`. */
  function Progress(g: SavingsGoal): Num
  {
    Percent(g.currentAmount, g.targetAmount)
  }

  /** `isComplete = progress >= 100`. */
  predicate IsComplete(g: SavingsGoal)
  {
    Ge(Progress(g), 100.0)
  }

  /** A goal with a positive target is complete exactly when the saved amount
      has reached it. With a zero target any positive saving counts as
      complete (Infinity) and nothing saved does not (NaN). */
  lemma CompleteIffReached(g: SavingsGoal)
    ensures g.targetAmount > 0.0 ==> (IsComplete(g) <==> g.currentAmount >= g.targetAmount)
    ensures g.targetAmount == 0.0 ==> (IsComplete(g) <==> g.currentAmount > 0.0)
  {
    if g.targetAmount > 0.0 {
      var p := g.currentAmount / g.targetAmount * 100.0;
      assert p * g.targetAmount == g.currentAmount * 100.0;
      if p >= 100.0 {
        assert p * g.targetAmount >= 100.0 * g.targetAmount;
      } else {
        assert p * g.targetAmount < 100.0 * g.targetAmount;
      }
    }
  }

  /** The goal's bar width, `Math.min(progress, 100)`. */
  function BarWidth(g: SavingsGoal): (w: Num)
    ensures !Gt(w, 100.0)
    ensures g.targetAmount > 0.0 && g.currentAmount >= 0.0 ==> w.Fin? && 0.0 <= w.v <= 100.0
    ensures g.targetAmount > 0.0 ==> (w == Fin(100.0) <==> IsComplete(g))
  {
    CompleteIffReached(g);
    Min(Progress(g), 100.0)
  }

  /** The sum of saved amounts. */
  function TotalSaved(goals: seq<SavingsGoal>): real
  {
    Sum(goals, (g: SavingsGoal) => g.currentAmount)
  }

  /** The sum of targets. */
  function TotalTarget(goals: seq<SavingsGoal>): real
  {
    Sum(goals, (g: SavingsGoal) => g.targetAmount)
  }

  /** `overallProgress = totalSaved / totalTarget * 100`; the bar uses it unclamped. */
  function OverallProgress(goals: seq<SavingsGoal>): (p: Num)
    ensures TotalTarget(goals) != 0.0 ==> p == Fin(TotalSaved(goals) / TotalTarget(goals) * 100.0)
    ensures goals == [] ==> p == NaN
  {
    Percent(TotalSaved(goals), TotalTarget(goals))
  }

  /** When no goal is over-saved and every target is positive, the overall
      progress lies between 0 and 100. */
  lemma OverallProgressBounded(goals: seq<SavingsGoal>)
    requires |goals| > 0
    requires forall g :: g in goals ==> g.targetAmount > 0.0 && 0.0 <= g.currentAmount <= g.targetAmount
    ensures OverallProgress(goals).Fin?
    ensures 0.0 <= OverallProgress(goals).v <= 100.0
  {
    var saved := (g: SavingsGoal) => g.currentAmount;
    var target := (g: SavingsGoal) => g.targetAmount;
    var gap := (g: SavingsGoal) => g.targetAmount - g.currentAmount;
    SumNonNegative(goals, saved);
    SumNonNegative(goals, gap);
    SumDifference(goals, target, saved, gap);
    SumCons(goals, target);
    SumNonNegative(goals[1..], target);
    var s := TotalSaved(goals);
    var t := TotalTarget(goals);
    assert 0.0 <= s <= t && t > 0.0;
    assert s / t <= 1.0 by {
      assert s / t * t == s;
    }
  }

  /** `daysRemaining`: the full days from now to the deadline's midnight. */
  function DaysRemaining(g: SavingsGoal, now: Now): int
  {
    DifferenceInDays(g.deadline, now)
  }

  /** The line under a goal. */
  datatype DeadlineMessage = DaysLeft(days: int) | DeadlinePassed

  /** `daysRemaining > 0 ? ... days remaining : 'Deadline passed'`. Once the
      day has begun, a deadline tomorrow already reads as passed, and a later
      one shows one day fewer than the calendar difference. */
  function DeadlineText(g: SavingsGoal, now: Now): (m: DeadlineMessage)
    ensures m.DaysLeft? <==> g.deadline > now.today + (if now.elapsed > 0 then 1 else 0)
    ensures m.DaysLeft? ==> m.days == g.deadline - now.today - (if now.elapsed > 0 then 1 else 0) && m.days > 0
    ensures g.deadline <= now.today ==> m == DeadlinePassed
  {
    DifferenceInDaysCases(g.deadline, now);
    var daysRemaining := DaysRemaining(g, now);
    if daysRemaining > 0 then DaysLeft(daysRemaining) else DeadlinePassed
  }

  /** At any time on 2026-01-23 no seed goal is complete, every deadline is
      ahead, and the goals are 31200 saved of 90000 in all. */
  lemma SeedGoals(now: Now)
    requires now.today == DayNumber(Date(2026, 1, 23))
    ensures forall g :: g in SavingsGoals ==> !IsComplete(g)
    ensures forall g :: g in SavingsGoals ==> DeadlineText(g, now).DaysLeft?
    ensures TotalSaved(SavingsGoals) == 31200.0 && TotalTarget(SavingsGoals) == 90000.0
  {
    forall g | g in SavingsGoals ensures !IsComplete(g) {
      CompleteIffReached(g);
    }
    var gs := SavingsGoals;
    var fs := (g: SavingsGoal) => g.currentAmount;
    var ft := (g: SavingsGoal) => g.targetAmount;
    assert gs[..4] == gs && gs[..4][..3] == gs[..3] && gs[..3][..2] == gs[..2];
    assert gs[..2][..1] == gs[..1] && gs[..1][..0] == [];
    assert Sum(gs[..1], fs) == 7500.0 && Sum(gs[..1], ft) == 10000.0;
    assert Sum(gs[..2], fs) == 10700.0 && Sum(gs[..2], ft) == 15000.0;
    assert Sum(gs[..3], fs) == 19200.0 && Sum(gs[..3], ft) == 40000.0;
  }
}
