/** The Investments page's summary cards: total value, the value change over
    the last 24 hours and its percentage, and the best performer. */
module InvestmentsPage {
  import opened Common
  import opened MockData
  import InvestmentDashboardWidget

  /** What one holding gained or lost in 24 hours, `value * change24h / 100`. */
  function DayChange(inv: Investment): real
  {
    inv.value * inv.change24h / 100.0
  }

  /** `totalChange`: the holdings' 24-hour changes added up. */
  function TotalChange(invs: seq<Investment>): real
  {
    Sum(invs, DayChange)
  }

  /** When every holding's change lies between `lo` and `hi` percent and no
      value is negative, the total change lies between `lo` and `hi` percent
      of the total value. */
  lemma TotalChangeBounds(invs: seq<Investment>, lo: real, hi: real)
    requires forall inv :: inv in invs ==> inv.value >= 0.0 && lo <= inv.change24h <= hi
    ensures lo / 100.0 * InvestmentDashboardWidget.TotalValue(invs) <= TotalChange(invs)
    ensures TotalChange(invs) <= hi / 100.0 * InvestmentDashboardWidget.TotalValue(invs)
  {
    TotalChangeAbove(invs, lo);
    TotalChangeBelow(invs, hi);
  }

  /** The lower half of `TotalChangeBounds`. */
  lemma TotalChangeAbove(invs: seq<Investment>, lo: real)
    requires forall inv :: inv in invs ==> inv.value >= 0.0 && lo <= inv.change24h
    ensures lo / 100.0 * InvestmentDashboardWidget.TotalValue(invs) <= TotalChange(invs)
  {
    var c := lo / 100.0;
    var low := (inv: Investment) => c * inv.value;
    forall inv | inv in invs ensures low(inv) <= DayChange(inv) {
      ScaledBetween(inv.value, lo, inv.change24h, inv.change24h);
    }
    SumMonotone(invs, low, DayChange);
    SumScale(invs, (inv: Investment) => inv.value, c, low);
  }

  /** The upper half of `TotalChangeBounds`. */
  lemma TotalChangeBelow(invs: seq<Investment>, hi: real)
    requires forall inv :: inv in invs ==> inv.value >= 0.0 && inv.change24h <= hi
    ensures TotalChange(invs) <= hi / 100.0 * InvestmentDashboardWidget.TotalValue(invs)
  {
    var c := hi / 100.0;
    var high := (inv: Investment) => c * inv.value;
    forall inv | inv in invs ensures DayChange(inv) <= high(inv) {
      ScaledBetween(inv.value, inv.change24h, inv.change24h, hi);
    }
    SumMonotone(invs, DayChange, high);
    SumScale(invs, (inv: Investment) => inv.value, c, high);
  }

  /** A non-negative value scaled by percentages in order keeps the order. */
  lemma ScaledBetween(v: real, lo: real, c: real, hi: real)
    requires v >= 0.0 && lo <= c <= hi
    ensures lo / 100.0 * v <= v * c / 100.0 <= hi / 100.0 * v
  {
    assert (c - lo) * v >= 0.0 && (hi - c) * v >= 0.0;
  }

  /** `percentChange = totalChange / (totalValue - totalChange) * 100`: the
      change against the value 24 hours ago. */
  function PercentChange(invs: seq<Investment>): (p: Num)
    ensures var before := InvestmentDashboardWidget.TotalValue(invs) - TotalChange(invs);
      before != 0.0 ==> p == Fin(TotalChange(invs) / before * 100.0)
  {
    Percent(TotalChange(invs), InvestmentDashboardWidget.TotalValue(invs) - TotalChange(invs))
  }

  /** With no movement at all the change is zero, and so is its percentage
      when anything is held. */
  lemma NoMovement(invs: seq<Investment>)
    requires forall inv :: inv in invs ==> inv.change24h == 0.0
    ensures TotalChange(invs) == 0.0
    ensures InvestmentDashboardWidget.TotalValue(invs) != 0.0 ==> PercentChange(invs) == Fin(0.0)
  {
    var zero := (inv: Investment) => 0.0 * inv.value;
    SumCongruent(invs, DayChange, zero);
    SumScale(invs, (inv: Investment) => inv.value, 0.0, zero);
  }

  /** The best performer, `reduce((best, inv) => inv.change24h > best.change24h ? inv : best)`,
      as a position. The reduce has no initial value, so an empty list has no
      best performer (the call throws). Because the comparison is strict, the
      earliest of several equal maxima wins. */
  function BestIndex(invs: seq<Investment>): (r: Option<nat>)
    ensures r.Some? <==> |invs| > 0
    ensures r.Some? ==> r.value < |invs|
    ensures r.Some? ==> forall i :: 0 <= i < |invs| ==> invs[i].change24h <= invs[r.value].change24h
    ensures r.Some? ==> forall i :: 0 <= i < r.value ==> invs[i].change24h < invs[r.value].change24h
    decreases |invs|
  {
    if |invs| == 0 then None
    else if |invs| == 1 then Some(0)
    else
      var n := |invs| - 1;
      var best := BestIndex(invs[..n]).value;
      if invs[n].change24h > invs[best].change24h then Some(n) else Some(best)
  }

  /** The sign shown before a holding's change: `+` when it is not negative. */
  function ChangePrefix(inv: Investment): (prefix: string)
    ensures prefix == "+" <==> inv.change24h >= 0.0
    ensures prefix == "" <==> inv.change24h < 0.0
  {
    if inv.change24h >= 0.0 then "+" else ""
  }

  /** The seed's best performer is Ethereum at +3.2%. */
  lemma SeedBestPerformer()
    ensures BestIndex(Investments) == Some(3)
    ensures Investments[3].symbol == "ETH"
  {
    var s := Investments;
    assert s[..5][..4] == s[..4] && s[..4][..3] == s[..3] && s[..3][..2] == s[..2];
    assert BestIndex(s[..2]) == Some(0);
    assert BestIndex(s[..3]) == Some(0);
    assert BestIndex(s[..4]) == Some(3);
  }
}
