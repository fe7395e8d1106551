/**
 * Instants, calendar dates and the date arithmetic the components perform with JavaScript `Date`
 * and date-fns. An instant is a whole number of milliseconds since 1970-01-01T00:00 and the
 * local time zone is taken to be UTC without daylight saving, so a day is exactly 86 400 000 ms.
 */
module Calendar {

  const HourMs: int := 3600000
  const DayMs: int := 86400000

  // ---------------------------------------------------------------- days and weeks

  /** The day number of an instant (days since 1970-01-01, rounded down). */
  function Day(t: int): int {
    t / DayMs
  }

  /** Milliseconds since the most recent midnight. */
  function TimeOfDay(t: int): (r: int)
    ensures 0 <= r < DayMs
    ensures t == Day(t) * DayMs + r
  {
    t % DayMs
  }

  /** Local midnight starting the day of t (`startOfDay`, or formatting as "yyyy-MM-dd" and parsing back). */
  function StartOfDay(t: int): (r: int)
    ensures r <= t < r + DayMs
    ensures Day(r) == Day(t) && TimeOfDay(r) == 0
  {
    Day(t) * DayMs
  }

  /** `addDays(t, n)`: the same time of day, n days later. */
  function AddDays(t: int, n: int): (r: int)
    ensures Day(r) == Day(t) + n && TimeOfDay(r) == TimeOfDay(t)
  {
    t + n * DayMs
  }

  /** The Sunday-started week containing day z; 1970-01-01 was a Thursday. */
  function WeekOfDay(z: int): int {
    (z + 4) / 7
  }

  /** Day of the week, 0 = Sunday (`getDay`). */
  function Weekday(z: int): (r: int)
    ensures 0 <= r < 7 && z + 4 == 7 * WeekOfDay(z) + r
  {
    (z + 4) % 7
  }

  /** `isToday(t)` at instant now. */
  predicate IsToday(t: int, now: int)
    ensures IsToday(t, now) <==> StartOfDay(t) == StartOfDay(now)
    ensures IsToday(t, now) ==> -DayMs < t - now < DayMs
  {
    assert t == Day(t) * DayMs + TimeOfDay(t) && now == Day(now) * DayMs + TimeOfDay(now);
    Day(t) == Day(now)
  }

  /** `isThisWeek(t)` at instant now, with weeks starting on Sunday (the date-fns default). */
  predicate IsThisWeek(t: int, now: int)
    ensures IsToday(t, now) ==> IsThisWeek(t, now)
    ensures IsThisWeek(t, now) ==> -7 < Day(t) - Day(now) < 7
  {
    assert Day(t) + 4 == 7 * WeekOfDay(Day(t)) + Weekday(Day(t));
    assert Day(now) + 4 == 7 * WeekOfDay(Day(now)) + Weekday(Day(now));
    WeekOfDay(Day(t)) == WeekOfDay(Day(now))
  }

  /** Two days of the same week are less than seven days apart. */
  lemma SameWeekNear(a: int, b: int)
    requires WeekOfDay(a) == WeekOfDay(b)
    ensures -7 < a - b < 7
  {
    var ra := Weekday(a);
    var rb := Weekday(b);
  }

  // ---------------------------------------------------------------- years

  predicate IsLeap(y: int) {
    y % 4 == 0 && (y % 100 != 0 || y % 400 == 0)
  }

  function YearDays(y: int): int {
    if IsLeap(y) then 366 else 365
  }

  /** Day number of 1 January of year y, counted from 1 January 1970 in either direction. */
  function YearStart(y: int): int
    decreases if y >= 1970 then y - 1970 else 1970 - y
  {
    if y == 1970 then 0
    else if y > 1970 then YearStart(y - 1) + YearDays(y - 1)
    else YearStart(y + 1) - YearDays(y)
  }

  /** Consecutive years start a year's length apart. */
  lemma YearStartStep(y: int)
    ensures YearStart(y + 1) == YearStart(y) + YearDays(y)
  {
  }

  /** Later years start later. */
  lemma {:induction false} YearStartMonotone(a: int, b: int)
    requires a <= b
    ensures YearStart(a) <= YearStart(b)
    ensures a < b ==> YearStart(a) + 365 <= YearStart(b)
    decreases b - a
  {
    if a < b {
      YearStartStep(b - 1);
      YearStartMonotone(a, b - 1);
    }
  }

  /** Day z lies in year y. */
  predicate InYear(z: int, y: int) {
    YearStart(y) <= z < YearStart(y + 1)
  }

  /** Every day lies in at most one year. */
  lemma YearUnique(z: int, y1: int, y2: int)
    requires InYear(z, y1) && InYear(z, y2)
    ensures y1 == y2
  {
    if y1 < y2 {
      YearStartMonotone(y1 + 1, y2);
    } else if y2 < y1 {
      YearStartMonotone(y2 + 1, y1);
    }
  }

  function YearSearchUp(z: int, y: int): (r: int)
    requires YearStart(y) <= z
    ensures InYear(z, r)
    decreases z - YearStart(y)
  {
    YearStartStep(y);
    if z < YearStart(y + 1) then y else YearSearchUp(z, y + 1)
  }

  function YearSearchDown(z: int, y: int): (r: int)
    requires z < YearStart(y + 1)
    ensures InYear(z, r)
    decreases YearStart(y + 1) - z
  {
    YearStartStep(y);
    if YearStart(y) <= z then y else YearSearchDown(z, y - 1)
  }

  /** The year containing day z (`getFullYear`). */
  function YearOf(z: int): (r: int)
    ensures InYear(z, r)
  {
    if z >= 0 then YearSearchUp(z, 1970) else YearSearchDown(z, 1969)
  }

  // ---------------------------------------------------------------- months

  /** Month lengths; m runs from 1 (January) to 12. */
  function MonthLength(y: int, m: int): int
    requires 1 <= m <= 12
  {
    if m == 2 then (if IsLeap(y) then 29 else 28)
    else if m == 4 || m == 6 || m == 9 || m == 11 then 30
    else 31
  }

  /** Days of year y before the first of month m. */
  function MonthOffset(y: int, m: int): int
    requires 1 <= m <= 12
  {
    [0, 31, 59, 90, 120, 151, 181, 212, 243, 273, 304, 334][m - 1] + (if IsLeap(y) && m > 2 then 1 else 0)
  }

  /** Each month starts where the previous one ends, and December ends the year. */
  lemma MonthOffsetStep(y: int, m: int)
    requires 1 <= m <= 12
    ensures m < 12 ==> MonthOffset(y, m + 1) == MonthOffset(y, m) + MonthLength(y, m)
    ensures m == 12 ==> MonthOffset(y, m) + MonthLength(y, m) == YearDays(y)
  {
  }

  /** Earlier months end no later than later months begin. */
  lemma {:induction false} MonthOffsetMonotone(y: int, a: int, b: int)
    requires 1 <= a < b <= 12
    ensures MonthOffset(y, a) + MonthLength(y, a) <= MonthOffset(y, b)
    decreases b - a
  {
    MonthOffsetStep(y, b - 1);
    if a < b - 1 {
      MonthOffsetMonotone(y, a, b - 1);
    }
  }

  predicate InMonth(y: int, doy: int, m: int)
    requires 1 <= m <= 12
  {
    MonthOffset(y, m) <= doy < MonthOffset(y, m) + MonthLength(y, m)
  }

  function MonthSearch(y: int, doy: int, m: int): (r: int)
    requires 1 <= m <= 12 && 0 <= doy < MonthOffset(y, m) + MonthLength(y, m)
    ensures 1 <= r <= m && InMonth(y, doy, r)
    decreases m
  {
    if MonthOffset(y, m) <= doy || m == 1 then m
    else
      MonthOffsetStep(y, m - 1);
      MonthSearch(y, doy, m - 1)
  }

  /** The month containing day-of-year doy of year y. */
  function MonthOf(y: int, doy: int): (r: int)
    requires 0 <= doy < YearDays(y)
    ensures 1 <= r <= 12 && InMonth(y, doy, r)
  {
    MonthOffsetStep(y, 12);
    MonthSearch(y, doy, 12)
  }

  lemma MonthUnique(y: int, doy: int, m1: int, m2: int)
    requires 1 <= m1 <= 12 && 1 <= m2 <= 12
    requires InMonth(y, doy, m1) && InMonth(y, doy, m2)
    ensures m1 == m2
  {
    if m1 < m2 {
      MonthOffsetMonotone(y, m1, m2);
    } else if m2 < m1 {
      MonthOffsetMonotone(y, m2, m1);
    }
  }

  // ---------------------------------------------------------------- civil dates

  /** A calendar date: year, month 1..12, day of month 1..31. */
  datatype Civil = Civil(year: int, month: int, day: int)

  predicate ValidCivil(c: Civil) {
    1 <= c.month <= 12 && 1 <= c.day <= MonthLength(c.year, c.month)
  }

  /** Day number of a valid calendar date. */
  function DaysFromCivil(c: Civil): int
    requires 1 <= c.month <= 12
  {
    YearStart(c.year) + MonthOffset(c.year, c.month) + c.day - 1
  }

  /** The search for the calendar date of day z: its year first, then its month within the year. */
  function CivilSearch(z: int): (c: Civil)
    ensures ValidCivil(c) && DaysFromCivil(c) == z
  {
    var y := YearOf(z);
    YearStartStep(y);
    var doy := z - YearStart(y);
    var m := MonthOf(y, doy);
    Civil(y, m, doy - MonthOffset(y, m) + 1)
  }

  /** A valid date lies in its own year. */
  lemma DaysFromCivilInYear(c: Civil)
    requires ValidCivil(c)
    ensures InYear(DaysFromCivil(c), c.year)
  {
    YearStartStep(c.year);
    MonthOffsetStep(c.year, 12);
    if c.month < 12 {
      MonthOffsetMonotone(c.year, c.month, 12);
    }
  }

  /** Distinct valid dates have distinct day numbers. */
  lemma DaysFromCivilInjective(a: Civil, b: Civil)
    requires ValidCivil(a) && ValidCivil(b) && DaysFromCivil(a) == DaysFromCivil(b)
    ensures a == b
  {
    var z := DaysFromCivil(a);
    DaysFromCivilInYear(a);
    DaysFromCivilInYear(b);
    YearUnique(z, a.year, b.year);
    var doy := z - YearStart(a.year);
    MonthUnique(a.year, doy, a.month, b.month);
  }

  lemma CivilUniqueAt(z: int)
    ensures forall a: Civil, b: Civil :: ValidCivil(a) && ValidCivil(b) && DaysFromCivil(a) == z && DaysFromCivil(b) == z ==> a == b
  {
    forall a: Civil, b: Civil | ValidCivil(a) && ValidCivil(b) && DaysFromCivil(a) == z && DaysFromCivil(b) == z
      ensures a == b
    {
      DaysFromCivilInjective(a, b);
    }
  }

  /** The calendar date of day z: the one valid date whose day number is z. */
  function CivilFromDays(z: int): (c: Civil)
    ensures ValidCivil(c) && DaysFromCivil(c) == z
  {
    var w := CivilSearch(z);
    CivilUniqueAt(z);
    var c :| ValidCivil(c) && DaysFromCivil(c) == z;
    c
  }

  /** Converting a valid date to its day number and back gives the same date. */
  lemma CivilRoundTrip(c: Civil)
    requires ValidCivil(c)
    ensures CivilFromDays(DaysFromCivil(c)) == c
  {
    DaysFromCivilInjective(CivilFromDays(DaysFromCivil(c)), c);
  }

  /** `getFullYear()`, `getMonth()` (0-based) and `getDate()` of an instant. */
  function FullYear(t: int): int { CivilFromDays(Day(t)).year }
  function Month0(t: int): int { CivilFromDays(Day(t)).month - 1 }
  function DateOfMonth(t: int): int { CivilFromDays(Day(t)).day }

  /** `isThisMonth(t)` at instant now: the same calendar month of the same year. */
  predicate IsThisMonth(t: int, now: int)
    ensures IsToday(t, now) ==> IsThisMonth(t, now)
  {
    FullYear(t) == FullYear(now) && Month0(t) == Month0(now)
  }

  /** An instant on the same day lies in the same week and the same month. */
  lemma TodayInWeekAndMonth(t: int, now: int)
    requires IsToday(t, now)
    ensures IsThisWeek(t, now) && IsThisMonth(t, now)
  {
  }

  // ---------------------------------------------------------------- Date construction

  /**
   * ECMAScript MakeDay(year, month, date): the month index m0 (0-based) may be out of range and
   * carries into the year by floor division; the date may overflow into the following months.
   */
  function MakeDay(y: int, m0: int, d: int): (r: int)
    ensures 1 <= d <= MonthLength(y + m0 / 12, m0 % 12 + 1) ==> CivilFromDays(r) == Civil(y + m0 / 12, m0 % 12 + 1, d)
  {
    var c := Civil(y + m0 / 12, m0 % 12 + 1, d);
    if 1 <= d <= MonthLength(c.year, c.month) then
      assert DaysFromCivil(Civil(c.year, c.month, 1)) + d - 1 == DaysFromCivil(c);
      CivilRoundTrip(c);
      DaysFromCivil(Civil(y + m0 / 12, m0 % 12 + 1, 1)) + d - 1
    else
      DaysFromCivil(Civil(y + m0 / 12, m0 % 12 + 1, 1)) + d - 1
  }

  /** A month index 12 higher is the same month of the following year. */
  lemma MakeDayYearCarry(y: int, m0: int, d: int)
    ensures MakeDay(y, m0 + 12, d) == MakeDay(y + 1, m0, d)
  {
  }

  /** For an in-range month and date, MakeDay gives the day of that calendar date. */
  lemma MakeDayOfValid(c: Civil)
    requires ValidCivil(c)
    ensures MakeDay(c.year, c.month - 1, c.day) == DaysFromCivil(c)
    ensures CivilFromDays(MakeDay(c.year, c.month - 1, c.day)) == c
  {
    CivilRoundTrip(c);
  }

  /** When the date exists in the normalised month, MakeDay lands on exactly that calendar date. */
  lemma MakeDayFields(y: int, m0: int, d: int)
    requires 1 <= d <= MonthLength(y + m0 / 12, m0 % 12 + 1)
    ensures CivilFromDays(MakeDay(y, m0, d)) == Civil(y + m0 / 12, m0 % 12 + 1, d)
  {
    var c := Civil(y + m0 / 12, m0 % 12 + 1, d);
    assert MakeDay(y, m0, d) == DaysFromCivil(c);
    CivilRoundTrip(c);
  }

  /** A date past the end of its month rolls over into the next month (and year). */
  lemma MakeDayOverflow(y: int, m0: int, d: int)
    requires d > MonthLength(y + m0 / 12, m0 % 12 + 1)
    ensures MakeDay(y, m0, d) == MakeDay(y, m0 + 1, d - MonthLength(y + m0 / 12, m0 % 12 + 1))
  {
    var yy := y + m0 / 12;
    var m := m0 % 12 + 1;
    MonthOffsetStep(yy, m);
    if m == 12 {
      assert (m0 + 1) / 12 == m0 / 12 + 1 && (m0 + 1) % 12 == 0;
      YearStartStep(yy);
    } else {
      assert (m0 + 1) / 12 == m0 / 12 && (m0 + 1) % 12 == m0 % 12 + 1;
    }
  }

  /** A month index from -12 to -1 is a month of the previous year. */
  lemma MakeDayNegativeMonth(y: int, w: int, d: int)
    requires -12 <= w < 0
    ensures MakeDay(y, w, d) == MakeDay(y - 1, w + 12, d)
  {
    assert w / 12 == -1 && w % 12 == w + 12;
    assert (w + 12) / 12 == 0 && (w + 12) % 12 == w + 12;
  }

  /** The same month and date one year earlier is an earlier day. */
  lemma MakeDayYearEarlier(y: int, m0: int, d: int)
    requires 0 <= m0 < 12
    ensures MakeDay(y - 1, m0, d) < MakeDay(y, m0, d)
  {
    assert m0 / 12 == 0 && m0 % 12 == m0;
    YearStartStep(y - 1);
  }

  /** `new Date(y, m0, d)`: local midnight of MakeDay(y, m0, d). */
  function NewDate(y: int, m0: int, d: int): (t: int)
    ensures TimeOfDay(t) == 0 && Day(t) == MakeDay(y, m0, d)
  {
    MakeDay(y, m0, d) * DayMs
  }

  /** The fields of `new Date(y, m0, d)` when the date exists in the normalised month. */
  lemma NewDateFields(y: int, m0: int, d: int)
    requires 1 <= d <= MonthLength(y + m0 / 12, m0 % 12 + 1)
    ensures FullYear(NewDate(y, m0, d)) == y + m0 / 12
    ensures Month0(NewDate(y, m0, d)) == m0 % 12
    ensures DateOfMonth(NewDate(y, m0, d)) == d
  {
    MakeDayFields(y, m0, d);
  }

  /** `new Date(y0, nm, d)` for a month index nm counted from January of y0, carried into the year by floor division. */
  function MonthIndexDate(y0: int, nm: int, d: int): int {
    NewDate(y0 + nm / 12, nm % 12, d)
  }

  /** Month index nm counted from January of year y0 names the month 12 * y0 + nm on the flat month scale. */
  lemma MonthIndexDateFields(y0: int, nm: int, d: int)
    requires 1 <= d <= 28
    ensures 12 * FullYear(MonthIndexDate(y0, nm, d)) + Month0(MonthIndexDate(y0, nm, d)) == 12 * y0 + nm
    ensures DateOfMonth(MonthIndexDate(y0, nm, d)) == d
    ensures TimeOfDay(MonthIndexDate(y0, nm, d)) == 0
  {
    var m := nm % 12;
    assert m / 12 == 0 && m % 12 == m;
    NewDateFields(y0 + nm / 12, m, d);
  }

  /** A date past the end of the target month rolls over into the following month. */
  lemma MonthIndexDateOverflow(y0: int, nm: int, d: int)
    requires d > MonthLength(y0 + nm / 12, nm % 12 + 1)
    ensures Day(MonthIndexDate(y0, nm, d)) == MakeDay(y0 + nm / 12, nm % 12 + 1, d - MonthLength(y0 + nm / 12, nm % 12 + 1))
  {
    var y := y0 + nm / 12;
    var m := nm % 12;
    assert m / 12 == 0 && m % 12 == m;
    MakeDayOverflow(y, m, d);
  }

  /** `t.setMonth(m0)`: the same date of month and time of day, in month index m0 of t's year. */
  function SetMonth(t: int, m0: int): (r: int)
    ensures Day(r) == MakeDay(FullYear(t), m0, DateOfMonth(t))
    ensures TimeOfDay(r) == TimeOfDay(t)
  {
    MakeDay(FullYear(t), m0, DateOfMonth(t)) * DayMs + TimeOfDay(t)
  }

  /** `d.setMonth(d.getMonth() + k)`, the idiom for "k months later". */
  function AddMonths(t: int, k: int): (r: int)
    ensures TimeOfDay(r) == TimeOfDay(t)
    ensures k == 0 ==> r == t
  {
    var c := CivilFromDays(Day(t));
    if k == 0 then
      MakeDayOfValid(c);
      SetMonth(t, Month0(t) + k)
    else
      SetMonth(t, Month0(t) + k)
  }

  /** Adding no months changes nothing. */
  lemma AddMonthsZero(t: int)
    ensures AddMonths(t, 0) == t
  {
    var c := CivilFromDays(Day(t));
    MakeDayOfValid(c);
  }

  /**
   * A date of month that exists in every month (1..28) survives adding k months: the result is
   * the same date of month, k months on, at the same time of day.
   */
  lemma AddMonthsKeepsDate(t: int, k: int)
    requires DateOfMonth(t) <= 28
    ensures DateOfMonth(AddMonths(t, k)) == DateOfMonth(t)
    ensures 12 * FullYear(AddMonths(t, k)) + Month0(AddMonths(t, k)) == 12 * FullYear(t) + Month0(t) + k
    ensures TimeOfDay(AddMonths(t, k)) == TimeOfDay(t)
  {
    var m0 := Month0(t) + k;
    var d := DateOfMonth(t);
    var c := Civil(FullYear(t) + m0 / 12, m0 % 12 + 1, d);
    assert ValidCivil(c);
    var r := AddMonths(t, k);
    assert Day(r) == MakeDay(FullYear(t), m0, d);
    assert Day(r) == DaysFromCivil(c);
    CivilRoundTrip(c);
    assert CivilFromDays(Day(r)) == c;
    assert 12 * c.year + (c.month - 1) == 12 * FullYear(t) + m0;
  }

  /** Adding months never moves an instant backwards when k >= 0 and never forwards when k <= 0. */
  lemma AddMonthsMonotone(t: int, k: int)
    requires DateOfMonth(t) <= 28
    ensures k >= 0 ==> AddMonths(t, k) >= t
    ensures k <= 0 ==> AddMonths(t, k) <= t
  {
    AddMonthsKeepsDate(t, k);
    var r := AddMonths(t, k);
    var a := CivilFromDays(Day(t));
    var b := CivilFromDays(Day(r));
    assert DaysFromCivil(a) == Day(t) && DaysFromCivil(b) == Day(r);
    if k >= 0 {
      CivilOrder(a, b);
    }
    if k <= 0 {
      CivilOrder(b, a);
    }
  }

  /** Day numbers follow the order of (year, month) for valid dates with a common date of month. */
  lemma CivilOrder(a: Civil, b: Civil)
    requires ValidCivil(a) && ValidCivil(b) && a.day == b.day
    requires 12 * a.year + a.month <= 12 * b.year + b.month
    ensures DaysFromCivil(a) <= DaysFromCivil(b)
  {
    if a.year < b.year {
      DaysFromCivilInYear(a);
      YearStartMonotone(a.year + 1, b.year);
    } else if a.month < b.month {
      MonthOffsetMonotone(a.year, a.month, b.month);
    }
  }

  /** The first day of a later month index is no earlier. */
  lemma FirstOfMonthMonotone(y: int, a: int, b: int)
    requires a <= b
    ensures MakeDay(y, a, 1) <= MakeDay(y, b, 1)
  {
    var ca := Civil(y + a / 12, a % 12 + 1, 1);
    var cb := Civil(y + b / 12, b % 12 + 1, 1);
    assert ValidCivil(ca) && ValidCivil(cb);
    CivilOrder(ca, cb);
  }

  /** Adding a non-negative number of months, whatever the date of month, never moves an instant backwards. */
  lemma AddMonthsForward(t: int, k: int)
    requires k >= 0
    ensures AddMonths(t, k) >= t
  {
    AddMonthsDayShift(t, k);
    FirstOfMonthMonotone(FullYear(t), Month0(t), Month0(t) + k);
    SameTimeOfDayOrder(t, AddMonths(t, k));
  }

  /** k months later is as many days later as the first of the month moves. */
  lemma AddMonthsDayShift(t: int, k: int)
    ensures Day(AddMonths(t, k)) - Day(t) == MakeDay(FullYear(t), Month0(t) + k, 1) - MakeDay(FullYear(t), Month0(t), 1)
  {
    var c := CivilFromDays(Day(t));
    MakeDayOfValid(c);
    MakeDayFromFirst(c.year, c.month - 1, c.day);
    MakeDayFromFirst(c.year, c.month - 1 + k, c.day);
  }

  /** The day of date d is d - 1 days after the first of the month. */
  lemma MakeDayFromFirst(y: int, m0: int, d: int)
    ensures MakeDay(y, m0, d) == MakeDay(y, m0, 1) + d - 1
  {
  }

  /** Two instants at the same time of day are ordered as their days are. */
  lemma SameTimeOfDayOrder(a: int, b: int)
    requires TimeOfDay(a) == TimeOfDay(b) && Day(a) <= Day(b)
    ensures a <= b
  {
  }
}
