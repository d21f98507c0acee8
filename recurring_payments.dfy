/** The subscriptions widget: the monthly equivalent of all subscriptions
    (a yearly one counts a twelfth of its price), the yearly figure and each
    subscription's renewal line. */
module RecurringPaymentsWidget {
  import opened Common
  import opened MockData
  import opened Clock

  /** What one subscription costs per month. */
  function MonthlyShare(s: Subscription): real
  {
    if s.billingCycle.Monthly? then s.amount else s.amount / 12.0
  }

  /** `monthlyTotal`: the monthly shares added up. */
  function MonthlyTotal(subs: seq<Subscription>): real
  {
    Sum(subs, MonthlyShare)
  }

  /** `yearlyTotal = monthlyTotal * 12`. */
  function YearlyTotal(subs: seq<Subscription>): real
  {
    MonthlyTotal(subs) * 12.0
  }

  /** The monthly total is the monthly subscriptions' prices plus a twelfth
      of the yearly ones'. */
  lemma MonthlyTotalSplit(subs: seq<Subscription>)
    ensures MonthlyTotal(subs)
      == Sum(Filter(subs, (s: Subscription) => s.billingCycle.Monthly?), (s: Subscription) => s.amount)
       + Sum(Filter(subs, (s: Subscription) => s.billingCycle.Yearly?), (s: Subscription) => s.amount) / 12.0
  {
    var amount := (s: Subscription) => s.amount;
    var monthlyPart := (s: Subscription) => if s.billingCycle.Monthly? then s.amount else 0.0;
    var yearlyPart := (s: Subscription) => if s.billingCycle.Yearly? then s.amount else 0.0;
    var yearlyTwelfth := (s: Subscription) => if s.billingCycle.Yearly? then s.amount / 12.0 else 0.0;
    var m := Sum(Filter(subs, (s: Subscription) => s.billingCycle.Monthly?), amount);
    var y := Sum(Filter(subs, (s: Subscription) => s.billingCycle.Yearly?), amount);
    SumFilter(subs, (s: Subscription) => s.billingCycle.Monthly?, amount, monthlyPart);
    assert m == Sum(subs, monthlyPart);
    SumFilter(subs, (s: Subscription) => s.billingCycle.Yearly?, amount, yearlyPart);
    assert y == Sum(subs, yearlyPart);
    SumTwelfth(subs, yearlyPart, yearlyTwelfth);
    assert Sum(subs, yearlyTwelfth) == y / 12.0;
    SumAddition(subs, monthlyPart, yearlyTwelfth, MonthlyShare);
    assert MonthlyTotal(subs) == m + y / 12.0;
  }

  /** Scaling by a twelfth is dividing by twelve. */
  lemma Twelfth(y: real)
    ensures (1.0 / 12.0) * y == y / 12.0
  {
  }

  /** Summing twelfths is taking a twelfth of the sum. */
  lemma SumTwelfth(subs: seq<Subscription>, part: Subscription -> real, twelfth: Subscription -> real)
    requires forall x :: twelfth(x) == part(x) / 12.0
    ensures Sum(subs, twelfth) == Sum(subs, part) / 12.0
  {
    forall x ensures twelfth(x) == (1.0 / 12.0) * part(x) {
      Twelfth(part(x));
    }
    SumScale(subs, part, 1.0 / 12.0, twelfth);
    Twelfth(Sum(subs, part));
  }

  /** The yearly figure is the monthly subscriptions twelve times plus the
      yearly ones once. */
  lemma YearlyTotalSplit(subs: seq<Subscription>)
    ensures YearlyTotal(subs)
      == 12.0 * Sum(Filter(subs, (s: Subscription) => s.billingCycle.Monthly?), (s: Subscription) => s.amount)
       + Sum(Filter(subs, (s: Subscription) => s.billingCycle.Yearly?), (s: Subscription) => s.amount)
  {
    MonthlyTotalSplit(subs);
  }

  /** No subscriptions cost nothing; a list of monthly ones costs the plain sum
      of their prices; prices that are not negative give a total that is not. */
  lemma MonthlyTotalCases(subs: seq<Subscription>)
    ensures subs == [] ==> MonthlyTotal(subs) == 0.0
    ensures (forall s :: s in subs ==> s.billingCycle.Monthly?) ==> MonthlyTotal(subs) == Sum(subs, (s: Subscription) => s.amount)
    ensures (forall s :: s in subs ==> s.amount >= 0.0) ==> MonthlyTotal(subs) >= 0.0
  {
    if forall s :: s in subs ==> s.billingCycle.Monthly? {
      SumCongruent(subs, MonthlyShare, (s: Subscription) => s.amount);
    }
    if forall s :: s in subs ==> s.amount >= 0.0 {
      SumNonNegative(subs, MonthlyShare);
    }
  }

  /** The renewal line. */
  datatype RenewLabel = RenewsIn(days: int) | RenewsSoon

  /** `daysUntilBilling > 0 ? Renews in ...d : 'Renews soon'`, counting full
      days with `differenceInDays`: once the day has begun a renewal tomorrow
      reads as soon. */
  function RenewLabelOf(s: Subscription, now: Now): (l: RenewLabel)
    ensures l.RenewsIn? <==> s.nextBilling > now.today + (if now.elapsed > 0 then 1 else 0)
    ensures l.RenewsIn? ==> l.days == s.nextBilling - now.today - (if now.elapsed > 0 then 1 else 0) && l.days > 0
    ensures s.nextBilling <= now.today ==> l == RenewsSoon
  {
    DifferenceInDaysCases(s.nextBilling, now);
    var daysUntilBilling := DifferenceInDays(s.nextBilling, now);
    if daysUntilBilling > 0 then RenewsIn(daysUntilBilling) else RenewsSoon
  }

  /** The seed subscriptions: five monthly ones at 103.96 and GitHub at 48 a
      year, so 107.96 a month and 1295.52 a year. */
  lemma SeedTotals()
    ensures MonthlyTotal(Subscriptions) == 107.96
    ensures YearlyTotal(Subscriptions) == 1295.52
  {
    var ss := Subscriptions;
    assert ss[..6] == ss && ss[..6][..5] == ss[..5] && ss[..5][..4] == ss[..4];
    assert ss[..4][..3] == ss[..3] && ss[..3][..2] == ss[..2] && ss[..2][..1] == ss[..1];
    assert ss[..1][..0] == [];
    assert MonthlyShare(ss[4]) == 4.0;
    assert Sum(ss[..1], MonthlyShare) == 15.99;
    assert Sum(ss[..2], MonthlyShare) == 25.98;
    assert Sum(ss[..3], MonthlyShare) == 80.97;
    assert Sum(ss[..4], MonthlyShare) == 83.96;
    assert Sum(ss[..5], MonthlyShare) == 87.96;
  }
}
