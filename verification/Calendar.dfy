/**
 Singapore calendar arithmetic: the SGT day a UTC instant falls in, the UTC
 bounds of an SGT month and the stepping between statement periods.

 Instants are microseconds since the midnight that opens 1 January of year 1
 (UTC); SGT is UTC+8 with no daylight saving.
 */
module Calendar {

  const DAY := 86_400_000_000
  const SGT_OFFSET := 28_800_000_000

  function DayOf(t: int): int {
    (t + SGT_OFFSET) / DAY
  }

  /** Midnight in Singapore of the day that holds t, as a UTC instant. */
  function SgtDayStartUtc(t: int): (start: int)
    ensures start <= t < start + DAY
    ensures DayOf(start) == DayOf(t) && (start + SGT_OFFSET) % DAY == 0
  {
    (t + SGT_OFFSET) - (t + SGT_OFFSET) % DAY - SGT_OFFSET
  }

  /** An instant is at or after the day start of t exactly when its SGT day is not earlier. */
  lemma SinceDayStart(t: int, x: int)
    ensures SgtDayStartUtc(t) <= x <==> DayOf(t) <= DayOf(x)
  {
  }

  datatype Date = Date(year: int, month: int, day: int)

  predicate Leap(y: int) {
    y % 4 == 0 && (y % 100 != 0 || y % 400 == 0)
  }

  function DaysInMonth(y: int, m: int): int {
    if m == 2 then (if Leap(y) then 29 else 28)
    else if m == 4 || m == 6 || m == 9 || m == 11 then 30
    else 31
  }

  predicate Valid(d: Date) {
    1 <= d.month <= 12 && 1 <= d.day <= DaysInMonth(d.year, d.month)
  }

  function DaysBeforeYear(y: int): int {
    (y - 1) * 365 + (y - 1) / 4 - (y - 1) / 100 + (y - 1) / 400
  }

  function DaysBeforeMonth(y: int, m: int): int
    requires 1 <= m <= 13
  {
    if m == 1 then 0 else DaysBeforeMonth(y, m - 1) + DaysInMonth(y, m - 1)
  }

  /** Proleptic Gregorian day number; day 0 is 1 January of year 1. */
  function Ordinal(d: Date): int
    requires Valid(d)
  {
    DaysBeforeYear(d.year) + DaysBeforeMonth(d.year, d.month) + d.day - 1
  }

  function NextDay(d: Date): (n: Date)
    requires Valid(d)
    ensures Valid(n)
  {
    if d.day < DaysInMonth(d.year, d.month) then Date(d.year, d.month, d.day + 1)
    else if d.month < 12 then Date(d.year, d.month + 1, 1)
    else Date(d.year + 1, 1, 1)
  }

  function AddDays(d: Date, n: nat): (r: Date)
    requires Valid(d)
    ensures Valid(r)
  {
    if n == 0 then d else NextDay(AddDays(d, n - 1))
  }

  lemma MultiplesPassed(y: int, n: int)
    requires n > 0
    ensures y / n == (y - 1) / n + (if y % n == 0 then 1 else 0)
  {
    var q, r := (y - 1) / n, (y - 1) % n;
    assert y == n * q + r + 1;
    if r + 1 < n {
      DivisionIsUnique(y, n, q, r + 1);
    } else {
      assert y == n * (q + 1) + 0;
      DivisionIsUnique(y, n, q + 1, 0);
    }
  }

  lemma DivisionIsUnique(y: int, n: int, q: int, r: int)
    requires n > 0 && 0 <= r < n && y == n * q + r
    ensures y / n == q && y % n == r
  {
    var d := y / n - q;
    assert d >= 1 ==> n * d >= n;
    assert d <= -1 ==> n * d <= -n;
    assert n * d == r - y % n;
  }

  /** Twelve months make the year: 365 days, or 366 in a leap year. */
  lemma YearLength(y: int)
    ensures DaysBeforeYear(y + 1) == DaysBeforeYear(y) + 337 + DaysInMonth(y, 2)
    ensures DaysBeforeMonth(y, 13) == 337 + DaysInMonth(y, 2)
  {
    MultiplesPassed(y, 4);
    MultiplesPassed(y, 100);
    MultiplesPassed(y, 400);
    MonthTable(y);
  }

  lemma MonthTable(y: int)
    ensures DaysBeforeMonth(y, 13) == 337 + DaysInMonth(y, 2)
  {
    var february := DaysInMonth(y, 2);
    assert DaysBeforeMonth(y, 2) == 31;
    assert DaysBeforeMonth(y, 3) == 31 + february;
    assert DaysBeforeMonth(y, 5) == 92 + february;
    assert DaysBeforeMonth(y, 7) == 153 + february;
    assert DaysBeforeMonth(y, 9) == 215 + february;
    assert DaysBeforeMonth(y, 11) == 276 + february;
    assert DaysBeforeMonth(y, 13) == 337 + february;
  }

  /** One calendar day later is one ordinal later, across month, year and leap boundaries. */
  lemma NextDayOrdinal(d: Date)
    requires Valid(d)
    ensures Ordinal(NextDay(d)) == Ordinal(d) + 1
  {
    YearLength(d.year);
  }

  lemma {:induction false} AddDaysOrdinal(d: Date, n: nat)
    requires Valid(d)
    ensures Ordinal(AddDays(d, n)) == Ordinal(d) + n
  {
    if n > 0 {
      AddDaysOrdinal(d, n - 1);
      NextDayOrdinal(AddDays(d, n - 1));
    }
  }

  // ----- statement periods

  datatype Period = Period(year: int, month: int)

  predicate Proper(p: Period) {
    1 <= p.month <= 12
  }

  /** The period delta months away, with the floor division of the source. */
  function AdjacentPeriod(p: Period, delta: int): (q: Period)
    ensures Proper(q)
    ensures q.year * 12 + q.month == p.year * 12 + p.month + delta
  {
    var zeroBased := p.year * 12 + (p.month - 1) + delta;
    Period(zeroBased / 12, zeroBased % 12 + 1)
  }

  /** Stepping forward and back again returns to the same period, for any two steps. */
  lemma SteppingComposes(p: Period, a: int, b: int)
    requires Proper(p)
    ensures AdjacentPeriod(AdjacentPeriod(p, a), b) == AdjacentPeriod(p, a + b)
    ensures AdjacentPeriod(AdjacentPeriod(p, a), -a) == p
  {
    assert AdjacentPeriod(p, 0) == p;
  }

  function MidnightUtc(d: Date): int
    requires Valid(d)
  {
    Ordinal(d) * DAY - SGT_OFFSET
  }

  function FirstOf(p: Period): (d: Date)
    requires Proper(p)
    ensures Valid(d)
  {
    Date(p.year, p.month, 1)
  }

  function MonthStart(p: Period): int
    requires Proper(p)
  {
    MidnightUtc(FirstOf(p))
  }

  /** UTC [start, end) of an SGT month: the end is day 28 plus four days, put back to day one. */
  function SgtMonthBoundsUtc(p: Period): (int, int)
    requires Proper(p)
  {
    var later := AddDays(Date(p.year, p.month, 28), 4);
    (MonthStart(p), MidnightUtc(Date(later.year, later.month, 1)))
  }

  /** Four days after the 28th is always in the following month, leap year or not. */
  lemma FourDaysAfterThe28th(p: Period)
    requires Proper(p)
    ensures var later := AddDays(Date(p.year, p.month, 28), 4);
            Period(later.year, later.month) == AdjacentPeriod(p, 1) && later.day <= 4
  {
    var d := Date(p.year, p.month, 28);
    assert AddDays(d, 1) == NextDay(d);
    assert AddDays(d, 2) == NextDay(NextDay(d));
    assert AddDays(d, 4) == NextDay(NextDay(AddDays(d, 2)));
  }

  lemma NextPeriod(p: Period)
    requires Proper(p)
    ensures AdjacentPeriod(p, 1) == if p.month < 12 then Period(p.year, p.month + 1) else Period(p.year + 1, 1)
  {
  }

  /** From the first of a month to the first of the next. */
  lemma MonthLength(p: Period)
    requires Proper(p)
    ensures Ordinal(FirstOf(AdjacentPeriod(p, 1))) == Ordinal(FirstOf(p)) + DaysInMonth(p.year, p.month)
  {
    NextPeriod(p);
    if p.month == 12 {
      YearLength(p.year);
    }
  }

  /** A month ends where the next begins, and lasts between 28 and 31 days. */
  lemma MonthEndsWhereNextBegins(p: Period)
    requires Proper(p)
    ensures SgtMonthBoundsUtc(p).1 == SgtMonthBoundsUtc(AdjacentPeriod(p, 1)).0
    ensures SgtMonthBoundsUtc(p).1 == SgtMonthBoundsUtc(p).0 + DaysInMonth(p.year, p.month) * DAY
    ensures 28 <= DaysInMonth(p.year, p.month) <= 31
  {
    FourDaysAfterThe28th(p);
    MonthLength(p);
  }

  predicate InMonth(t: int, p: Period)
    requires Proper(p)
  {
    SgtMonthBoundsUtc(p).0 <= t < SgtMonthBoundsUtc(p).1
  }

  lemma NextMonthStartsLater(p: Period)
    requires Proper(p)
    ensures MonthStart(AdjacentPeriod(p, 1)) > MonthStart(p)
    ensures SgtMonthBoundsUtc(p) == (MonthStart(p), MonthStart(AdjacentPeriod(p, 1)))
  {
    MonthEndsWhereNextBegins(p);
  }

  /** Months numbered through, and the start of the month with a number. */
  function Number(p: Period): int { p.year * 12 + p.month - 1 }

  function StartOf(k: int): int {
    MonthStart(AdjacentPeriod(Period(0, 1), k))
  }

  predicate Rises(f: int -> int, k: int) { f(k) < f(k + 1) }

  lemma {:induction false} RisingIsMonotone(f: int -> int, a: int, n: nat)
    requires forall k :: Rises(f, k)
    ensures f(a) <= f(a + n)
  {
    if n > 0 {
      RisingIsMonotone(f, a, n - 1);
      assert Rises(f, a + n - 1);
    }
  }

  lemma NumberedMonth(p: Period)
    requires Proper(p)
    ensures StartOf(Number(p)) == MonthStart(p)
  {
    assert AdjacentPeriod(Period(0, 1), Number(p)) == p;
  }

  lemma StartRises(k: int)
    ensures Rises(StartOf, k)
  {
    SteppingComposes(Period(0, 1), k, 1);
    NextMonthStartsLater(AdjacentPeriod(Period(0, 1), k));
  }

  lemma StartsNeverFall(a: int, n: nat)
    ensures StartOf(a) <= StartOf(a + n)
  {
    forall k ensures Rises(StartOf, k) {
      StartRises(k);
    }
    RisingIsMonotone(StartOf, a, n);
  }

  /** A later month does not start earlier. */
  lemma LaterMonthStartsLater(p: Period, q: Period)
    requires Proper(p) && Proper(q) && Number(p) <= Number(q)
    ensures MonthStart(p) <= MonthStart(q)
  {
    StartsNeverFall(Number(p), Number(q) - Number(p));
    NumberedMonth(p);
    NumberedMonth(q);
  }

  /** Walks the calendar from a month that starts no later than t (or ends no earlier) to t's own month. */
  lemma {:induction false} WalkToMonth(t: int, p: Period) returns (q: Period)
    requires Proper(p)
    ensures Proper(q) && InMonth(t, q)
    decreases if t < SgtMonthBoundsUtc(p).0 then SgtMonthBoundsUtc(p).0 - t else t - SgtMonthBoundsUtc(p).0
  {
    MonthEndsWhereNextBegins(p);
    if InMonth(t, p) {
      q := p;
    } else if t < SgtMonthBoundsUtc(p).0 {
      var back := AdjacentPeriod(p, -1);
      SteppingComposes(p, -1, 1);
      assert AdjacentPeriod(p, 0) == p;
      MonthEndsWhereNextBegins(back);
      if InMonth(t, back) {
        q := back;
      } else {
        q := WalkToMonth(t, back);
      }
    } else {
      q := WalkToMonth(t, AdjacentPeriod(p, 1));
    }
  }

  /** The SGT months tile the whole time line: every instant lies in exactly one of them. */
  lemma MonthsTile(t: int)
    ensures exists p | Proper(p) :: InMonth(t, p)
    ensures forall p, q | Proper(p) && Proper(q) && InMonth(t, p) && InMonth(t, q) :: p == q
  {
    var m := WalkToMonth(t, Period(1, 1));
    forall p, q | Proper(p) && Proper(q) && InMonth(t, p) && InMonth(t, q) ensures p == q {
      SameMonth(t, p, q);
    }
  }

  lemma SameMonth(t: int, p: Period, q: Period)
    requires Proper(p) && Proper(q) && InMonth(t, p) && InMonth(t, q)
    ensures p == q
  {
    OneMonthOnly(t, p, q);
    OneMonthOnly(t, q, p);
  }

  lemma OneMonthOnly(t: int, p: Period, q: Period)
    requires Proper(p) && Proper(q) && InMonth(t, p) && InMonth(t, q)
    ensures Number(q) <= Number(p)
  {
    NextMonthStartsLater(p);
    NextMonthStartsLater(q);
    if Number(q) > Number(p) {
      LaterMonthStartsLater(AdjacentPeriod(p, 1), q);
    }
  }

  // ----- the calendar's numbers

  /** An SGT day starts at 16:00 UTC of the day before and lasts 24 hours, in microseconds. */
  lemma DayStarts(n: int)
    ensures SgtDayStartUtc(n * 86_400_000_000 - 8 * 3_600_000_000) == n * 86_400_000_000 - 8 * 3_600_000_000
    ensures DayOf(n * 86_400_000_000 - 8 * 3_600_000_000) == n
  {
  }

  /** Gregorian months: 31, 30 or, in February, 28 or 29 days. */
  lemma MonthLengths(y: int, m: int)
    requires 1 <= m <= 12
    ensures DaysInMonth(y, m) == 31 <==> m in [1, 3, 5, 7, 8, 10, 12]
    ensures DaysInMonth(y, m) == 30 <==> m in [4, 6, 9, 11]
  {
  }

  lemma LeapYears(y: int)
    ensures DaysInMonth(y, 2) == if y % 4 == 0 && !(y % 100 == 0 && y % 400 != 0) then 29 else 28
  {
  }

  /** 1 January of year 1 is day 0; a period's month starts at its first midnight in Singapore. */
  lemma EpochStarts()
    ensures Ordinal(Date(1, 1, 1)) == 0 && SgtMonthBoundsUtc(Period(1, 1)).0 == -8 * 3_600_000_000
    ensures Ordinal(Date(1970, 1, 1)) == 719_162
  {
  }
}
