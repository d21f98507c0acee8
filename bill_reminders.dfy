/** The bill reminders widget: the auto-pay toggle on the bill list state,
    the bills sorted by days until due (a sort of a copy, in place), the total
    due within thirty days, and each bill's urgency bucket and due label. Days
    are day numbers, and the clock reading `now` is passed in. */
module BillRemindersWidget {
  import opened Common
  import opened MockData
  import opened Clock

  /** `getDaysUntilDue`: the full days from now to the due date's midnight
      (negative once passed). */
  function DaysUntilDue(b: Bill, now: Now): int
  {
    DifferenceInDays(b.dueDate, now)
  }

  /** One bill after `toggleAutoPay(id)`. */
  function ToggledBill(b: Bill, id: string): Bill
  {
    if b.id == id then b.(isAutoPay := !b.isAutoPay) else b
  }

  /** The bill list after `toggleAutoPay(id)` (`prev.map(...)`): same length and
      order; the bills with that id have their auto-pay flag flipped and every
      other field kept; all other bills are untouched. */
  function ToggledList(bills: seq<Bill>, id: string): (r: seq<Bill>)
    ensures |r| == |bills|
    ensures forall i :: 0 <= i < |bills| && bills[i].id == id ==>
      r[i].isAutoPay == !bills[i].isAutoPay && r[i].(isAutoPay := bills[i].isAutoPay) == bills[i]
    ensures forall i :: 0 <= i < |bills| && bills[i].id != id ==> r[i] == bills[i]
  {
    seq(|bills|, i requires 0 <= i < |bills| => ToggledBill(bills[i], id))
  }

  /** Toggling the same id twice gives back the original list. */
  lemma ToggleTwiceRestores(bills: seq<Bill>, id: string)
    ensures ToggledList(ToggledList(bills, id), id) == bills
  {
  }

  /** Toggles of two ids can be applied in either order. */
  lemma TogglesCommute(bills: seq<Bill>, id1: string, id2: string)
    ensures ToggledList(ToggledList(bills, id1), id2) == ToggledList(ToggledList(bills, id2), id1)
  {
  }

  /** Toggling an id no bill carries changes nothing. */
  lemma ToggleUnknownId(bills: seq<Bill>, id: string)
    requires forall b :: b in bills ==> b.id != id
    ensures ToggledList(bills, id) == bills
  {
  }

  /** Bills in non-decreasing order of a whole-number key. */
  predicate SortedBy(s: seq<Bill>, key: Bill -> int)
  {
    forall i, j :: 0 <= i < j < |s| ==> key(s[i]) <= key(s[j])
  }

  /** Bills in non-decreasing order of days until due. */
  predicate SortedByDue(s: seq<Bill>, now: Now)
  {
    SortedBy(s, (b: Bill) => DaysUntilDue(b, now))
  }

  /** The widget's state: `billList`. */
  class BillReminders {
    var billList: seq<Bill>

    constructor(bills: seq<Bill>)
      ensures billList == bills
    {
      billList := bills;
    }

    /** `toggleAutoPay`: replace the list by its toggled copy. */
    method ToggleAutoPay(id: string)
      modifies this
      ensures billList == ToggledList(old(billList), id)
    {
      billList := ToggledList(billList, id);
    }

    /** `sortedBills`: sort a copy of the list by days until due; the state
        itself is not reordered. */
    method SortedBills(now: Now) returns (sorted: seq<Bill>)
      ensures SortedByDue(sorted, now)
      ensures multiset(sorted) == multiset(billList)
    {
      var a := new Bill[|billList|](i requires 0 <= i < |billList| reads this => billList[i]);
      assert a[..] == billList;
      var daysUntil := (b: Bill) => DaysUntilDue(b, now);
      SortByDue(a, daysUntil);
      sorted := a[..];
    }
  }

  /** The sort the copy goes through: insertion by adjacent swaps, comparing
      each bill's days until due (`daysA - daysB`), given as `daysUntil`. */
  method SortByDue(a: array<Bill>, daysUntil: Bill -> int)
    modifies a
    ensures SortedBy(a[..], daysUntil)
    ensures multiset(a[..]) == multiset(old(a[..]))
  {
    var i := 0;
    while i < a.Length
      invariant 0 <= i <= a.Length
      invariant SortedPrefix(a, i, daysUntil)
      invariant multiset(a[..]) == multiset(old(a[..]))
    {
      InsertLast(a, i, daysUntil);
      i := i + 1;
    }
  }

  /** The first `n` cells of the array are in order of days until due. */
  predicate SortedPrefix(a: array<Bill>, n: int, daysUntil: Bill -> int)
    reads a
  {
    forall k, l :: 0 <= k < l < n && l < a.Length ==> daysUntil(a[k]) <= daysUntil(a[l])
  }

  /** One insertion step: move `a[i]` left past the later-due bills before it. */
  method InsertLast(a: array<Bill>, i: int, daysUntil: Bill -> int)
    requires 0 <= i < a.Length
    requires SortedPrefix(a, i, daysUntil)
    modifies a
    ensures SortedPrefix(a, i + 1, daysUntil)
    ensures multiset(a[..]) == multiset(old(a[..]))
  {
    var j := i;
    while j > 0 && daysUntil(a[j - 1]) > daysUntil(a[j])
      invariant 0 <= j <= i
      invariant multiset(a[..]) == multiset(old(a[..]))
      invariant forall k, l :: 0 <= k < l <= i && l != j ==> daysUntil(a[k]) <= daysUntil(a[l])
      invariant 0 < j < i ==> daysUntil(a[j - 1]) <= daysUntil(a[j + 1])
    {
      SwapAdjacent(a, j - 1);
      j := j - 1;
    }
  }

  /** Exchange two neighbouring cells. */
  method SwapAdjacent(a: array<Bill>, k: int)
    requires 0 <= k < a.Length - 1
    modifies a
    ensures a[k] == old(a[k + 1]) && a[k + 1] == old(a[k])
    ensures forall m :: 0 <= m < a.Length && m != k && m != k + 1 ==> a[m] == old(a[m])
    ensures multiset(a[..]) == multiset(old(a[..]))
  {
    var t := a[k];
    a[k] := a[k + 1];
    a[k + 1] := t;
  }

  /** Bills counted in the total: between 0 and 30 full days until due. */
  predicate DueWithin30(b: Bill, now: Now)
  {
    DaysUntilDue(b, now) <= 30 && DaysUntilDue(b, now) >= 0
  }

  /** In day numbers the total's window runs from today to thirty days ahead
      at midnight, and to thirty-one days ahead once the day has begun. */
  lemma DueWithin30Window(b: Bill, now: Now)
    ensures DueWithin30(b, now) <==> now.today <= b.dueDate <= now.today + 30 + (if now.elapsed > 0 then 1 else 0)
  {
    DifferenceInDaysCases(b.dueDate, now);
  }

  /** `totalDue`: the amounts of the sorted bills due within thirty days. */
  function TotalDue(sorted: seq<Bill>, now: Now): real
  {
    Sum(Filter(sorted, (b: Bill) => DueWithin30(b, now)), (b: Bill) => b.amount)
  }

  /** The total does not depend on the order: it is the same over the sorted
      copy and over the list itself, and it counts every bill with 0 to 30
      full days to go and nothing else; in day numbers, the bills due from
      today up to thirty days ahead, or thirty-one once the day has begun. */
  lemma TotalDueIgnoresOrder(sorted: seq<Bill>, bills: seq<Bill>, now: Now)
    requires multiset(sorted) == multiset(bills)
    ensures TotalDue(sorted, now) == TotalDue(bills, now)
    ensures TotalDue(bills, now) == Sum(bills, (b: Bill) => if DueWithin30(b, now) then b.amount else 0.0)
    ensures TotalDue(bills, now) == Sum(bills, (b: Bill) =>
      if now.today <= b.dueDate <= now.today + 30 + (if now.elapsed > 0 then 1 else 0) then b.amount else 0.0)
  {
    forall b: Bill {
      DueWithin30Window(b, now);
    }
    SumCongruent(bills, (b: Bill) => if DueWithin30(b, now) then b.amount else 0.0, (b: Bill) =>
      if now.today <= b.dueDate <= now.today + 30 + (if now.elapsed > 0 then 1 else 0) then b.amount else 0.0);
    var p := (b: Bill) => DueWithin30(b, now);
    var f := (b: Bill) => b.amount;
    var g := (b: Bill) => if DueWithin30(b, now) then b.amount else 0.0;
    SumFilter(sorted, p, f, g);
    SumFilter(bills, p, f, g);
    SumPermutation(sorted, bills, g);
  }

  /** With non-negative amounts the total is non-negative and at most the sum of all bills. */
  lemma TotalDueBounds(bills: seq<Bill>, now: Now)
    requires forall b :: b in bills ==> b.amount >= 0.0
    ensures 0.0 <= TotalDue(bills, now) <= Sum(bills, (b: Bill) => b.amount)
  {
    var f := (b: Bill) => b.amount;
    var g := (b: Bill) => if DueWithin30(b, now) then b.amount else 0.0;
    var rest := (b: Bill) => if DueWithin30(b, now) then 0.0 else b.amount;
    TotalDueIgnoresOrder(bills, bills, now);
    SumNonNegative(bills, g);
    SumNonNegative(bills, rest);
    SumAddition(bills, g, rest, f);
  }

  /** The card's bucket: overdue, due within three days, or later. */
  datatype Urgency = Overdue | DueSoon | Later

  function UrgencyOf(daysUntil: int): (u: Urgency)
    ensures u.Overdue? <==> daysUntil < 0
    ensures u.DueSoon? <==> 0 <= daysUntil <= 3
    ensures u.Later? <==> daysUntil > 3
  {
    var isOverdue := daysUntil < 0;
    var isDueSoon := daysUntil <= 3 && daysUntil >= 0;
    if isOverdue then Overdue else if isDueSoon then DueSoon else Later
  }

  /** The card's border classes for its bucket. */
  function CardClass(u: Urgency): string
  {
    match u
    case Overdue => "bg-rose-500/10 border border-rose-500/30"
    case DueSoon => "bg-amber-500/10 border border-amber-500/30"
    case Later => "glass-subtle"
  }

  /** The due line under the bill's name. */
  datatype DueLabel = OverdueBy(days: int) | DueToday | DueIn(days: int)

  function DueLabelOf(daysUntil: int): (l: DueLabel)
    ensures l == DueToday <==> daysUntil == 0
    ensures l.OverdueBy? <==> daysUntil < 0
    ensures l.OverdueBy? ==> l.days == -daysUntil && l.days > 0
    ensures l.DueIn? ==> l.days == daysUntil && l.days > 0
  {
    if daysUntil < 0 then OverdueBy(-daysUntil)
    else if daysUntil == 0 then DueToday
    else DueIn(daysUntil)
  }

  /** The label agrees with the bucket: the overdue text appears exactly on
      rose cards, and `Due today` only on amber ones. */
  lemma LabelMatchesUrgency(daysUntil: int)
    ensures DueLabelOf(daysUntil).OverdueBy? <==> CardClass(UrgencyOf(daysUntil)) == CardClass(Overdue)
    ensures DueLabelOf(daysUntil) == DueToday ==> UrgencyOf(daysUntil) == DueSoon
  {
  }

  /** Once the day has begun, a bill due tomorrow reads `Due today` on an
      amber card, and one due today reads the same. */
  lemma DueTomorrowReadsToday(b: Bill, now: Now)
    requires now.elapsed > 0
    requires b.dueDate == now.today + 1 || b.dueDate == now.today
    ensures DueLabelOf(DaysUntilDue(b, now)) == DueToday
    ensures UrgencyOf(DaysUntilDue(b, now)) == DueSoon
  {
    DifferenceInDaysCases(b.dueDate, now);
  }

  /** At any time on 2026-01-23 the seed total due is everything but the
      overdue car insurance: 1859.98. */
  lemma SeedTotalDue(now: Now)
    requires now.today == DayNumber(Date(2026, 1, 23))
    ensures TotalDue(SeedBills, now) == 1859.98
  {
    assert now.today == 20476;
    TotalDueIgnoresOrder(SeedBills, SeedBills, now);
    SeedGuardedSum(now);
  }

  /** The guarded sum behind `SeedTotalDue`, on the day number of 2026-01-23. */
  lemma SeedGuardedSum(now: Now)
    requires now.today == 20476
    ensures Sum(SeedBills, (b: Bill) => if DueWithin30(b, now) then b.amount else 0.0) == 1859.98
  {
    var bs := SeedBills;
    var g := (b: Bill) => if DueWithin30(b, now) then b.amount else 0.0;
    forall i | 0 <= i < |bs| ensures DueWithin30(bs[i], now) <==> i != 4 {
      DueWithin30Window(bs[i], now);
    }
    assert g(bs[0]) == 1500.0 && g(bs[1]) == 145.0 && g(bs[2]) == 79.99;
    assert g(bs[3]) == 85.0 && g(bs[4]) == 0.0 && g(bs[5]) == 49.99;
    assert bs[..6] == bs && bs[..6][..5] == bs[..5] && bs[..5][..4] == bs[..4];
    assert bs[..4][..3] == bs[..3] && bs[..3][..2] == bs[..2] && bs[..2][..1] == bs[..1];
    assert bs[..1][..0] == [];
    assert Sum(bs[..1], g) == 1500.0;
    assert Sum(bs[..2], g) == 1645.0;
    assert Sum(bs[..3], g) == 1724.99;
    assert Sum(bs[..4], g) == 1809.99;
    assert Sum(bs[..5], g) == 1809.99;
  }
}
