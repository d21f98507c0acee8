/** The clock the widgets read through `new Date()`, and date-fns's
    `differenceInDays(parseISO(date), new Date())`, which they use to count
    the days to a due date, a deadline or a renewal. Days are day numbers in
    the local zone (see `MockData.DayNumber`), each 24 hours long. */
module Clock {
  import opened MockData

  /** Milliseconds in a day. */
  const MsPerDay: int := 86400000

  /** Milliseconds elapsed since local midnight. */
  type MsOfDay = m: int | 0 <= m < 86400000

  /** The moment `new Date()` returns: today's day number and how far into
      the day it is. */
  datatype Now = Now(today: int, elapsed: MsOfDay)

  /** The moment in milliseconds since the epoch, local time. */
  function Instant(now: Now): int
  {
    now.today * MsPerDay + now.elapsed
  }

  /** Integer division that drops the fraction toward zero, like `Math.trunc(a / b)`. */
  function TruncDiv(a: int, b: int): int
    requires b > 0
  {
    if a >= 0 then a / b else -((-a) / b)
  }

  /** `differenceInDays(parseISO(date), now)`: the number of full days from
      now to the midnight that starts `date`, negative once that midnight has
      passed; a part of a day does not count. */
  function DifferenceInDays(date: int, now: Now): int
  {
    TruncDiv(date * MsPerDay - Instant(now), MsPerDay)
  }

  /** `(q * MsPerDay + r) / MsPerDay == q` for a remainder within a day. */
  lemma DivWithinDay(q: int, r: int)
    requires 0 <= r < MsPerDay
    ensures (q * MsPerDay + r) / MsPerDay == q
  {
  }

  /** What the full-day count comes to. A date in the past, or today, counts
      the plain difference of day numbers; a future date loses one day as
      soon as the current day has begun, because the last day up to its
      midnight is not yet full. At midnight itself every count is the plain
      difference. */
  lemma {:induction false} DifferenceInDaysCases(date: int, now: Now)
    ensures date <= now.today ==> DifferenceInDays(date, now) == date - now.today
    ensures date > now.today && now.elapsed == 0 ==> DifferenceInDays(date, now) == date - now.today
    ensures date > now.today && now.elapsed > 0 ==> DifferenceInDays(date, now) == date - now.today - 1
  {
    var k := date - now.today;
    var a := date * MsPerDay - Instant(now);
    assert a == k * MsPerDay - now.elapsed;
    if k <= 0 {
      if a >= 0 {
        assert k == 0 && now.elapsed == 0;
        DivWithinDay(0, 0);
      } else {
        assert -a == (-k) * MsPerDay + now.elapsed;
        DivWithinDay(-k, now.elapsed);
      }
    } else if now.elapsed == 0 {
      DivWithinDay(k, 0);
    } else {
      assert a == (k - 1) * MsPerDay + (MsPerDay - now.elapsed);
      DivWithinDay(k - 1, MsPerDay - now.elapsed);
    }
  }

  /** The count never runs ahead of the calendar and lags it by at most one day. */
  lemma CountLagsCalendar(date: int, now: Now)
    ensures date - now.today - 1 <= DifferenceInDays(date, now) <= date - now.today
    ensures DifferenceInDays(date, now) > 0 <==> date > now.today + (if now.elapsed > 0 then 1 else 0)
  {
    DifferenceInDaysCases(date, now);
  }

  /** In the afternoon of 2026-01-23, something due on 2026-01-24 counts zero
      full days, and something due on 2026-01-22 counts minus one. */
  lemma TomorrowCountsZero()
    ensures DifferenceInDays(DayNumber(Date(2026, 1, 24)), Now(DayNumber(Date(2026, 1, 23)), 14 * 3600000)) == 0
    ensures DifferenceInDays(DayNumber(Date(2026, 1, 22)), Now(DayNumber(Date(2026, 1, 23)), 14 * 3600000)) == -1
  {
    var now := Now(DayNumber(Date(2026, 1, 23)), 14 * 3600000);
    assert now.today == 20476;
    DifferenceInDaysCases(DayNumber(Date(2026, 1, 24)), now);
    DifferenceInDaysCases(DayNumber(Date(2026, 1, 22)), now);
  }
}
