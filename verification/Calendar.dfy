/** Calendar arithmetic behind the budget windows: datetimes, ordinals, day and month windows. */
module Calendar {

  datatype DateTime = DateTime(year: int, month: int, day: int, hour: int, minute: int, second: int, micro: int)

  const DAY: int := 86_400_000_000  // microseconds

  predicate Leap(y: int) {
    y % 4 == 0 && (y % 100 != 0 || y % 400 == 0)
  }

  function DaysInMonth(y: int, m: int): (n: int)
    ensures 28 <= n <= 31
  {
    if m == 2 then (if Leap(y) then 29 else 28)
    else if m == 4 || m == 6 || m == 9 || m == 11 then 30
    else 31
  }

  /** A value datetime accepts. */
  predicate IsDateTime(t: DateTime) {
    && 1 <= t.year <= 9999 && 1 <= t.month <= 12 && 1 <= t.day <= DaysInMonth(t.year, t.month)
    && 0 <= t.hour < 24 && 0 <= t.minute < 60 && 0 <= t.second < 60 && 0 <= t.micro < 1_000_000
  }

  // date.toordinal, with 0001-01-01 as day 1.
  function DaysBeforeYear(y: int): int {
    (y - 1) * 365 + (y - 1) / 4 - (y - 1) / 100 + (y - 1) / 400
  }

  function DaysBeforeMonth(y: int, m: int): (n: int)
    requires 1 <= m <= 13
    ensures n >= 0
  {
    if m == 1 then 0 else DaysBeforeMonth(y, m - 1) + DaysInMonth(y, m - 1)
  }

  function Ordinal(y: int, m: int, d: int): int
    requires 1 <= m <= 12
  {
    DaysBeforeYear(y) + DaysBeforeMonth(y, m) + d
  }

  function TimeOfDay(t: DateTime): int {
    ((t.hour * 60 + t.minute) * 60 + t.second) * 1_000_000 + t.micro
  }

  /** Microseconds since the start of the calendar. */
  function Instant(t: DateTime): int
    requires 1 <= t.month <= 12
  {
    Ordinal(t.year, t.month, t.day) * DAY + TimeOfDay(t)
  }

  lemma TimeOfDayRange(t: DateTime)
    requires IsDateTime(t)
    ensures 0 <= TimeOfDay(t) < DAY
  {
  }

  // ---- the ordinal counts days one by one

  lemma QuotientStep(y: int)
    ensures y / 4 == (y - 1) / 4 + if y % 4 == 0 then 1 else 0
    ensures y / 100 == (y - 1) / 100 + if y % 100 == 0 then 1 else 0
    ensures y / 400 == (y - 1) / 400 + if y % 400 == 0 then 1 else 0
  {
  }

  lemma Multiples(y: int)
    ensures y % 100 == 0 ==> y % 4 == 0
    ensures y % 400 == 0 ==> y % 100 == 0
  {
    assert y % 100 == 0 ==> y == 4 * (25 * (y / 100));
    assert y % 400 == 0 ==> y == 100 * (4 * (y / 400));
  }

  lemma YearLength(y: int)
    ensures DaysBeforeYear(y + 1) == DaysBeforeYear(y) + if Leap(y) then 366 else 365
  {
    QuotientStep(y);
    Multiples(y);
  }

  lemma MonthsFillTheYear(y: int)
    ensures DaysBeforeMonth(y, 13) == if Leap(y) then 366 else 365
  {
    var leap := if Leap(y) then 1 else 0;
    assert DaysBeforeMonth(y, 2) == 31;
    assert DaysBeforeMonth(y, 3) == 59 + leap;
    assert DaysBeforeMonth(y, 4) == 90 + leap;
    assert DaysBeforeMonth(y, 5) == 120 + leap;
    assert DaysBeforeMonth(y, 6) == 151 + leap;
    assert DaysBeforeMonth(y, 7) == 181 + leap;
    assert DaysBeforeMonth(y, 8) == 212 + leap;
    assert DaysBeforeMonth(y, 9) == 243 + leap;
    assert DaysBeforeMonth(y, 10) == 273 + leap;
    assert DaysBeforeMonth(y, 11) == 304 + leap;
    assert DaysBeforeMonth(y, 12) == 334 + leap;
  }

  lemma {:induction false} MonthsGrow(y: int, m: int, n: int)
    requires 1 <= m < n <= 13
    ensures DaysBeforeMonth(y, m) + DaysInMonth(y, m) <= DaysBeforeMonth(y, n)
    decreases n
  {
    if m < n - 1 {
      MonthsGrow(y, m, n - 1);
    }
  }

  lemma {:induction false} YearsGrow(y: int, z: int)
    requires y < z
    ensures DaysBeforeYear(y) + (if Leap(y) then 366 else 365) <= DaysBeforeYear(z)
    decreases z - y
  {
    YearLength(z - 1);
    if y < z - 1 {
      YearsGrow(y, z - 1);
    }
  }

  predicate DateLess(y: int, m: int, d: int, y': int, m': int, d': int) {
    y < y' || (y == y' && (m < m' || (m == m' && d < d')))
  }

  /** Earlier dates have smaller ordinals, so the ordinal identifies the date. */
  lemma OrdinalOrder(y: int, m: int, d: int, y': int, m': int, d': int)
    requires 1 <= m <= 12 && 1 <= m' <= 12 && 1 <= d <= DaysInMonth(y, m) && 1 <= d' <= DaysInMonth(y', m')
    requires DateLess(y, m, d, y', m', d')
    ensures Ordinal(y, m, d) < Ordinal(y', m', d')
  {
    MonthsGrow(y, m, 13);
    MonthsFillTheYear(y);
    if y < y' {
      YearsGrow(y, y');
    } else if m < m' {
      MonthsGrow(y, m, m');
    }
  }

  /** The Gregorian calendar: the month lengths, 146097 days in 400 years, and the Unix epoch as day 719163. */
  lemma Gregorian(y: int, m: int, d: int)
    requires 1 <= m <= 12
    ensures DaysInMonth(y, m) == [31, if y % 4 == 0 && (y % 100 != 0 || y % 400 == 0) then 29 else 28,
                                  31, 30, 31, 30, 31, 31, 30, 31, 30, 31][m - 1]
    ensures Ordinal(y + 400, m, d) == Ordinal(y, m, d) + 146_097
    ensures Ordinal(1970, 1, 1) == 719_163
  {
    LeapCycle(y);
    SameLengths(y, y + 400, m);
    assert (y + 399) / 4 == (y - 1) / 4 + 100 && (y + 399) / 100 == (y - 1) / 100 + 4 && (y + 399) / 400 == (y - 1) / 400 + 1;
  }

  lemma LeapCycle(y: int)
    ensures Leap(y + 400) == Leap(y)
  {
    assert (y + 400) % 4 == y % 4 && (y + 400) % 100 == y % 100 && (y + 400) % 400 == y % 400;
  }

  lemma {:induction false} SameLengths(y: int, z: int, m: int)
    requires 1 <= m <= 13 && Leap(y) == Leap(z)
    ensures DaysBeforeMonth(y, m) == DaysBeforeMonth(z, m)
  {
    if m > 1 {
      SameLengths(y, z, m - 1);
    }
  }

  predicate Earlier(a: DateTime, b: DateTime) {
    || DateLess(a.year, a.month, a.day, b.year, b.month, b.day)
    || (a.year == b.year && a.month == b.month && a.day == b.day && TimeOfDay(a) < TimeOfDay(b))
  }

  lemma SameOrdinalSameDate(a: DateTime, b: DateTime)
    requires IsDateTime(a) && IsDateTime(b)
    ensures Ordinal(a.year, a.month, a.day) == Ordinal(b.year, b.month, b.day) <==>
            a.year == b.year && a.month == b.month && a.day == b.day
  {
    if DateLess(a.year, a.month, a.day, b.year, b.month, b.day) {
      OrdinalOrder(a.year, a.month, a.day, b.year, b.month, b.day);
    } else if DateLess(b.year, b.month, b.day, a.year, a.month, a.day) {
      OrdinalOrder(b.year, b.month, b.day, a.year, a.month, a.day);
    }
  }

  /** Field by field order is time order. */
  lemma EarlierIsSmallerInstant(a: DateTime, b: DateTime)
    requires IsDateTime(a) && IsDateTime(b)
    ensures Earlier(a, b) <==> Instant(a) < Instant(b)
  {
    TimeOfDayRange(a);
    TimeOfDayRange(b);
    if DateLess(a.year, a.month, a.day, b.year, b.month, b.day) {
      OrdinalOrder(a.year, a.month, a.day, b.year, b.month, b.day);
    } else if DateLess(b.year, b.month, b.day, a.year, a.month, a.day) {
      OrdinalOrder(b.year, b.month, b.day, a.year, a.month, a.day);
    }
  }

  // ---- BudgetEngine's windows

  function DayStart(now: DateTime): DateTime {
    now.(hour := 0, minute := 0, second := 0, micro := 0)
  }

  /** The first day after now's: day_start plus timedelta(days=1). */
  function NextDay(now: DateTime): DateTime {
    var s := DayStart(now);
    if s.day < DaysInMonth(s.year, s.month) then s.(day := s.day + 1)
    else if s.month < 12 then s.(month := s.month + 1, day := 1)
    else s.(year := s.year + 1, month := 1, day := 1)
  }

  function MonthStart(now: DateTime): DateTime {
    now.(day := 1, hour := 0, minute := 0, second := 0, micro := 0)
  }

  function NextMonth(now: DateTime): DateTime {
    var s := MonthStart(now);
    if s.month == 12 then s.(year := s.year + 1, month := 1) else s.(month := s.month + 1)
  }

  /** Both window ends exist: datetime cannot go past year 9999. */
  predicate HasWindows(now: DateTime) {
    IsDateTime(now) && (now.year < 9999 || now.month < 12)
  }

  predicate SameDay(a: DateTime, b: DateTime) {
    a.year == b.year && a.month == b.month && a.day == b.day
  }

  predicate SameMonth(a: DateTime, b: DateTime) {
    a.year == b.year && a.month == b.month
  }

  predicate InWindow(t: DateTime, since: DateTime, before: DateTime)
    requires IsDateTime(t) && IsDateTime(since) && IsDateTime(before)
  {
    Instant(since) <= Instant(t) < Instant(before)
  }

  lemma WindowEnds(now: DateTime)
    requires HasWindows(now)
    ensures IsDateTime(DayStart(now)) && IsDateTime(NextDay(now)) && IsDateTime(MonthStart(now)) && IsDateTime(NextMonth(now))
    ensures Instant(NextDay(now)) == Instant(DayStart(now)) + DAY
    ensures Instant(NextMonth(now)) == Instant(MonthStart(now)) + DaysInMonth(now.year, now.month) * DAY
  {
    YearLength(now.year);
    MonthsFillTheYear(now.year);
    var o := Ordinal(now.year, now.month, 1);
    assert Ordinal(NextMonth(now).year, NextMonth(now).month, 1) == o + DaysInMonth(now.year, now.month);
    assert Ordinal(NextDay(now).year, NextDay(now).month, NextDay(now).day) == Ordinal(now.year, now.month, now.day) + 1;
  }

  /** The daily window holds exactly the times of now's calendar day, leap days included. */
  lemma DayWindow(t: DateTime, now: DateTime)
    requires IsDateTime(t) && HasWindows(now)
    ensures IsDateTime(DayStart(now)) && IsDateTime(NextDay(now))
    ensures InWindow(t, DayStart(now), NextDay(now)) <==> SameDay(t, now)
  {
    WindowEnds(now);
    TimeOfDayRange(t);
    SameOrdinalSameDate(t, now);
    OrdinalInWindow(Ordinal(t.year, t.month, t.day), TimeOfDay(t), Ordinal(now.year, now.month, now.day), 1);
  }

  lemma OrdinalInWindow(o: int, time: int, start: int, days: int)
    requires 0 <= time < DAY
    ensures start * DAY <= o * DAY + time < (start + days) * DAY <==> start <= o < start + days
  {
  }

  /** The monthly window holds exactly the times of now's calendar month, December included. */
  lemma MonthWindow(t: DateTime, now: DateTime)
    requires IsDateTime(t) && HasWindows(now)
    ensures IsDateTime(MonthStart(now)) && IsDateTime(NextMonth(now))
    ensures InWindow(t, MonthStart(now), NextMonth(now)) <==> SameMonth(t, now)
  {
    WindowEnds(now);
    TimeOfDayRange(t);
    var n := DaysInMonth(now.year, now.month);
    var start := Ordinal(now.year, now.month, 1);
    var o := Ordinal(t.year, t.month, t.day);
    OrdinalInWindow(o, TimeOfDay(t), start, n);
    if !SameMonth(t, now) {
      if DateLess(t.year, t.month, t.day, now.year, now.month, 1) {
        OrdinalOrder(t.year, t.month, t.day, now.year, now.month, 1);
      } else {
        OrdinalOrder(now.year, now.month, n, t.year, t.month, t.day);
      }
    }
  }
}
