/**
 * A proleptic Gregorian calendar written out by hand: dates as (year, month, day), their day
 * number counted from 1970-01-01 (the value `new Date('YYYY-MM-DD').getTime()` has in days),
 * the weekday, and the start of the week (Monday), month, quarter and year containing a date.
 */
module Calendar {

  datatype Date = Date(year: int, month: int, day: int)

  predicate IsLeapYear(y: int) {
    (y % 4 == 0 && y % 100 != 0) || y % 400 == 0
  }

  function DaysInMonth(y: int, m: int): (n: int)
    requires 1 <= m <= 12
    ensures 28 <= n <= 31
  {
    if m == 2 then (if IsLeapYear(y) then 29 else 28)
    else if m == 4 || m == 6 || m == 9 || m == 11 then 30
    else 31
  }

  predicate ValidDate(d: Date) {
    1 <= d.month <= 12 && 1 <= d.day <= DaysInMonth(d.year, d.month)
  }

  /** A date that exists in the calendar. */
  type CivilDate = d: Date | ValidDate(d) witness Date(1970, 1, 1)

  function DaysInYear(y: int): int {
    if IsLeapYear(y) then 366 else 365
  }

  /** Days from 1970-01-01 to January 1 of year `y` (negative before 1970). */
  function DaysBeforeYear(y: int): int
    decreases if y >= 1970 then y - 1970 else 1970 - y
  {
    if y == 1970 then 0
    else if y > 1970 then DaysBeforeYear(y - 1) + DaysInYear(y - 1)
    else DaysBeforeYear(y + 1) - DaysInYear(y)
  }

  lemma DaysBeforeNextYear(y: int)
    ensures DaysBeforeYear(y + 1) == DaysBeforeYear(y) + DaysInYear(y)
  {
  }

  /**
   * Days from January 1 to the first of month `m` in year `y`: 0, 31, 59, 90, 120, 151, 181,
   * 212, 243, 273, 304, 334 in a common year, one more from March on in a leap year.
   */
  function DaysBeforeMonth(y: int, m: int): int
    requires 1 <= m <= 12
  {
    (367 * m - 362) / 12 - (if m <= 2 then 0 else if IsLeapYear(y) then 1 else 2)
  }

  /** Days from 1970-01-01 to `d`. */
  function DayNumber(d: CivilDate): int {
    DaysBeforeYear(d.year) + DaysBeforeMonth(d.year, d.month) + d.day - 1
  }

  /** The weekday of a day number, 0 for Sunday up to 6 for Saturday (`Date.getDay` in UTC). */
  function Weekday(n: int): (w: int)
    ensures 0 <= w < 7
  {
    (n + 4) % 7
  }

  /** The day after 1970-01-01 was a Thursday. */
  lemma EpochIsThursday()
    ensures DayNumber(Date(1970, 1, 1)) == 0 && Weekday(0) == 4
  {
  }

  /** Month index: months counted from January of year 0. */
  function MonthIndex(d: CivilDate): int {
    12 * d.year + d.month - 1
  }

  /** The first day of the month with index `mi`. */
  function MonthStart(mi: int): CivilDate {
    Date(mi / 12, mi % 12 + 1, 1)
  }

  lemma MonthStartOfIndex(d: CivilDate)
    ensures MonthStart(MonthIndex(d)) == Date(d.year, d.month, 1)
  {
  }

  /** Month indices and month starts are inverse: the start of month `mi` lies in month `mi`. */
  lemma MonthIndexOfStart(mi: int)
    ensures MonthIndex(MonthStart(mi)) == mi
  {
  }

  /** The next month starts as many days later as this month has. */
  lemma MonthStartStep(mi: int)
    ensures DayNumber(MonthStart(mi + 1)) == DayNumber(MonthStart(mi)) + DaysInMonth(mi / 12, mi % 12 + 1)
  {
    if mi % 12 == 11 {
      assert (mi + 1) / 12 == mi / 12 + 1 && (mi + 1) % 12 == 0;
      DaysBeforeNextYear(mi / 12);
    } else {
      assert (mi + 1) / 12 == mi / 12 && (mi + 1) % 12 == mi % 12 + 1;
    }
  }

  /** Month starts are strictly increasing in the month index. */
  lemma {:induction false} MonthStartMonotone(a: int, b: int)
    requires a < b
    ensures DayNumber(MonthStart(a)) + 28 * (b - a) <= DayNumber(MonthStart(b))
    decreases b - a
  {
    MonthStartStep(a);
    if a + 1 < b {
      MonthStartMonotone(a + 1, b);
    }
  }

  lemma MonthStartLe(a: int, b: int)
    requires a <= b
    ensures DayNumber(MonthStart(a)) <= DayNumber(MonthStart(b))
  {
    if a < b {
      MonthStartMonotone(a, b);
    }
  }

  /** A date lies in its own month: between the first of it and the first of the next one. */
  lemma InOwnMonth(d: CivilDate)
    ensures DayNumber(MonthStart(MonthIndex(d))) <= DayNumber(d) < DayNumber(MonthStart(MonthIndex(d) + 1))
  {
    MonthStartOfIndex(d);
    MonthStartStep(MonthIndex(d));
  }

  /** The month index of a date is the one month whose span holds its day number. */
  lemma MonthIndexUnique(d: CivilDate, mi: int)
    requires DayNumber(MonthStart(mi)) <= DayNumber(d) < DayNumber(MonthStart(mi + 1))
    ensures MonthIndex(d) == mi
  {
    InOwnMonth(d);
    var m := MonthIndex(d);
    if m < mi {
      MonthStartLe(m + 1, mi);
    } else if m > mi {
      MonthStartLe(mi + 1, m);
    }
  }

  /** Two dates with the same day number are the same date. */
  lemma DayNumberInjective(a: CivilDate, b: CivilDate)
    requires DayNumber(a) == DayNumber(b)
    ensures a == b
  {
    InOwnMonth(a);
    MonthIndexUnique(b, MonthIndex(a));
    MonthStartOfIndex(a);
    MonthStartOfIndex(b);
  }

  /** The date `k` days before `d`, for `k` below the length of any month. */
  function SubDays(d: CivilDate, k: int): (r: CivilDate)
    requires 0 <= k < 28
    ensures DayNumber(r) == DayNumber(d) - k
  {
    if d.day > k then
      Date(d.year, d.month, d.day - k)
    else
      var prev := MonthIndex(d) - 1;
      var p := MonthStart(prev);
      MonthStartStep(prev);
      MonthStartOfIndex(d);
      Date(p.year, p.month, DaysInMonth(p.year, p.month) + d.day - k)
  }

  /** The date `k` days after `d`, for `k` of at most 28. */
  function AddDays(d: CivilDate, k: int): (r: CivilDate)
    requires 0 <= k <= 28
    ensures DayNumber(r) == DayNumber(d) + k
  {
    if d.day + k <= DaysInMonth(d.year, d.month) then
      Date(d.year, d.month, d.day + k)
    else
      var next := MonthStart(MonthIndex(d) + 1);
      MonthStartStep(MonthIndex(d));
      MonthStartOfIndex(d);
      Date(next.year, next.month, d.day + k - DaysInMonth(d.year, d.month))
  }

  predicate IsMonday(d: CivilDate) {
    Weekday(DayNumber(d)) == 1
  }

  /** `startOfWeek(d, { weekStartsOn: 1 })`: the Monday on or before `d`. */
  function StartOfWeek(d: CivilDate): (r: CivilDate)
    ensures IsMonday(r)
    ensures DayNumber(r) <= DayNumber(d) < DayNumber(r) + 7
  {
    MondayBefore(DayNumber(d));
    SubDays(d, (Weekday(DayNumber(d)) + 6) % 7)
  }

  /** Going back `(weekday + 6) % 7` days from any day lands on a Monday. */
  lemma MondayBefore(n: int)
    ensures 0 <= (Weekday(n) + 6) % 7 < 7
    ensures Weekday(n - (Weekday(n) + 6) % 7) == 1
  {
    var w := Weekday(n);
    var q := (n + 4) / 7;
    assert n + 4 == 7 * q + w;
    if w == 0 {
      assert (w + 6) % 7 == 6;
      assert n - 6 + 4 == 7 * (q - 1) + 1;
    } else {
      assert (w + 6) % 7 == w - 1;
      assert n - (w - 1) + 4 == 7 * q + 1;
    }
  }

  /** Two day numbers less than a week apart fall on the same weekday only if they are equal. */
  lemma SameWeekday(a: int, b: int)
    requires a <= b < a + 7 && Weekday(a) == Weekday(b)
    ensures a == b
  {
    var k := b - a;
    assert (a + 4 + k) % 7 == (a + 4) % 7;
    assert k % 7 == 0;
  }

  /** A Monday starts the week of every date in the seven days from it. */
  lemma StartOfWeekUnique(d: CivilDate, monday: CivilDate)
    requires IsMonday(monday) && DayNumber(monday) <= DayNumber(d) < DayNumber(monday) + 7
    ensures StartOfWeek(d) == monday
  {
    var w := StartOfWeek(d);
    var a, b := DayNumber(w), DayNumber(monday);
    if a <= b {
      SameWeekday(a, b);
    } else {
      SameWeekday(b, a);
    }
    DayNumberInjective(w, monday);
  }

  /** `startOfMonth`. */
  function StartOfMonth(d: CivilDate): CivilDate {
    Date(d.year, d.month, 1)
  }

  /** `startOfQuarter`: the first of January, April, July or October. */
  function StartOfQuarter(d: CivilDate): CivilDate {
    Date(d.year, 3 * ((d.month - 1) / 3) + 1, 1)
  }

  /** `startOfYear`. */
  function StartOfYear(d: CivilDate): CivilDate {
    Date(d.year, 1, 1)
  }

  /** The first of the month `n` months after the month starting at `d`. */
  function AddMonthStarts(d: CivilDate, n: nat): CivilDate {
    MonthStart(MonthIndex(d) + n)
  }

  /**
   * The month, quarter and year starts, expressed on month indices: the start of the span of
   * `span` months (1, 3 or 12) that holds month index `mi` is `mi - mi % span`.
   */
  lemma SpanStarts(d: CivilDate)
    ensures StartOfMonth(d) == MonthStart(MonthIndex(d))
    ensures StartOfQuarter(d) == MonthStart(MonthIndex(d) - MonthIndex(d) % 3)
    ensures StartOfYear(d) == MonthStart(MonthIndex(d) - MonthIndex(d) % 12)
  {
    var mi, r := MonthIndex(d), d.month - 1;
    assert mi == 12 * d.year + r;
    assert mi % 12 == r && mi / 12 == d.year by { SplitMonthIndex(d.year, r); }
    assert mi % 3 == r % 3 by { SplitMonthIndex(d.year, r); }
    var q := 3 * (r / 3);
    assert mi - mi % 3 == 12 * d.year + q;
    assert 0 <= q < 12;
    SplitMonthIndex(d.year, q);
    SplitMonthIndex(d.year, 0);
  }

  /** The month index `12 * y + r` for a month `r` counted from zero within year `y`. */
  lemma SplitMonthIndex(y: int, r: int)
    requires 0 <= r < 12
    ensures (12 * y + r) / 12 == y && (12 * y + r) % 12 == r
    ensures (12 * y + r) % 3 == r % 3
  {
    assert 12 * y + r == 3 * (4 * y + r / 3) + r % 3;
  }

  /** A date whose day number lies in the span starting at month index `b` has its month in it. */
  lemma InSpanMonths(d: CivilDate, span: int, b: int)
    requires span > 0
    requires DayNumber(MonthStart(b)) <= DayNumber(d) < DayNumber(MonthStart(b + span))
    ensures b <= MonthIndex(d) < b + span
  {
    var mi := MonthIndex(d);
    InOwnMonth(d);
    if mi < b {
      MonthStartLe(mi + 1, b);
    }
    if mi >= b + span {
      MonthStartLe(b + span, mi);
    }
  }

  /** A date whose month lies in the span starting at month index `b` has its day number in it. */
  lemma InSpanDays(d: CivilDate, span: int, b: int)
    requires span > 0 && b <= MonthIndex(d) < b + span
    ensures DayNumber(MonthStart(b)) <= DayNumber(d) < DayNumber(MonthStart(b + span))
  {
    var mi := MonthIndex(d);
    assert DayNumber(MonthStart(b)) <= DayNumber(d) by {
      InOwnMonth(d);
      MonthStartLe(b, mi);
    }
    assert DayNumber(d) < DayNumber(MonthStart(b + span)) by {
      InOwnMonth(d);
      MonthStartLe(mi + 1, b + span);
    }
  }

  /**
   * For a span of `span` months starting at month index `b` (a multiple of `span`), a date lies
   * in that span exactly when its span start is `b`.
   */
  lemma SpanOfDate(d: CivilDate, span: int, b: int)
    requires span == 1 || span == 3 || span == 12
    requires b % span == 0
    ensures DayNumber(MonthStart(b)) <= DayNumber(d) < DayNumber(MonthStart(b + span))
        <==> MonthIndex(d) - MonthIndex(d) % span == b
  {
    var mi := MonthIndex(d);
    if DayNumber(MonthStart(b)) <= DayNumber(d) < DayNumber(MonthStart(b + span)) {
      InSpanMonths(d, span, b);
      SpanStartOf(mi, span, b);
    }
    if mi - mi % span == b {
      InSpanDays(d, span, b);
    }
  }

  /** Within `[b, b + span)`, with `b` a multiple of `span`, every index rounds down to `b`. */
  lemma SpanStartOf(mi: int, span: int, b: int)
    requires span == 1 || span == 3 || span == 12
    requires b % span == 0 && b <= mi < b + span
    ensures mi - mi % span == b
  {
    var q, r := b / span, mi - b;
    assert b == span * q;
    if span == 3 {
      assert mi == 3 * q + r;
      assert mi % 3 == r;
    } else if span == 12 {
      assert mi == 12 * q + r;
      assert mi % 12 == r;
    }
  }
}
