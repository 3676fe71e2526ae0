/**
 * The proleptic Gregorian calendar on day numbers, with the overflowing date arithmetic of
 * ECMA-262 section 21.4.1: day 0 is 1 January 1970, a Thursday. Months are numbered through:
 * month i is month i % 12 + 1 of the year i / 12.
 */
module Calendar {
  const MS_PER_DAY := 86400000
  const EPOCH_MONTH := 12 * 1970

  predicate Leap(y: int) {
    y % 4 == 0 && (y % 100 != 0 || y % 400 == 0)
  }

  function DaysInMonth(y: int, m: int): (n: int)
    requires 1 <= m <= 12
    ensures 28 <= n <= 31
  {
    if m == 2 then if Leap(y) then 29 else 28
    else if m == 4 || m == 6 || m == 9 || m == 11 then 30
    else 31
  }

  function MonthLength(i: int): (n: int)
    ensures 28 <= n <= 31
  {
    DaysInMonth(i / 12, i % 12 + 1)
  }

  /** Day number of the first of a month: the lengths of the months between it and January 1970. */
  function MonthStart(i: int): int
    decreases if i < EPOCH_MONTH then EPOCH_MONTH - i else i - EPOCH_MONTH
  {
    if i == EPOCH_MONTH then 0
    else if i > EPOCH_MONTH then MonthStart(i - 1) + MonthLength(i - 1)
    else MonthStart(i + 1) - MonthLength(i)
  }

  lemma MonthStep(i: int)
    ensures MonthStart(i + 1) == MonthStart(i) + MonthLength(i)
  {}

  /** A calendar date, by its month (numbered through) and its day of that month. */
  datatype Date = Date(index: int, day: int) {
    predicate Valid() {
      1 <= day <= MonthLength(index)
    }

    function Year(): int { index / 12 }

    function Month(): (m: int)
      ensures 1 <= m <= 12 && 12 * Year() + m - 1 == index
    {
      index % 12 + 1
    }
  }

  function DayOf(d: Date): int {
    MonthStart(d.index) + d.day - 1
  }

  // ---- The length of years ----

  function DayFromYear(y: int): int {
    MonthStart(12 * y)
  }

  lemma MonthAt(y: int, m: int)
    requires 1 <= m <= 12
    ensures MonthStart(12 * y + m) == MonthStart(12 * y + m - 1) + DaysInMonth(y, m)
  {
    var i := 12 * y + m - 1;
    assert i / 12 == y && i % 12 == m - 1;
    MonthStep(i);
  }

  lemma YearLength(y: int)
    ensures DayFromYear(y + 1) == DayFromYear(y) + if Leap(y) then 366 else 365
  {
    MonthAt(y, 1); MonthAt(y, 2); MonthAt(y, 3); MonthAt(y, 4); MonthAt(y, 5); MonthAt(y, 6);
    MonthAt(y, 7); MonthAt(y, 8); MonthAt(y, 9); MonthAt(y, 10); MonthAt(y, 11); MonthAt(y, 12);
  }

  function LeapsTo(y: int): int {
    y / 4 - y / 100 + y / 400
  }

  lemma LeapStep(y: int)
    ensures LeapsTo(y) - LeapsTo(y - 1) == if Leap(y) then 1 else 0
  {
    FourStep(y);
    HundredStep(y);
    FourHundredStep(y);
    Multiples(y);
  }

  lemma FourStep(y: int)
    ensures y / 4 - (y - 1) / 4 == if y % 4 == 0 then 1 else 0
  {}

  lemma HundredStep(y: int)
    ensures y / 100 - (y - 1) / 100 == if y % 100 == 0 then 1 else 0
  {}

  lemma FourHundredStep(y: int)
    ensures y / 400 - (y - 1) / 400 == if y % 400 == 0 then 1 else 0
  {}

  lemma Multiples(y: int)
    ensures y % 400 == 0 ==> y % 100 == 0
    ensures y % 100 == 0 ==> y % 4 == 0
  {}

  /** The closed form of ECMA-262 section 21.4.1, up to the choice of offsets. */
  lemma {:induction false} DayFromYearClosed(y: int)
    ensures DayFromYear(y) == 365 * (y - 1970) + LeapsTo(y - 1) - LeapsTo(1969)
    decreases if y < 1970 then 1970 - y else y - 1970
  {
    if y > 1970 {
      DayFromYearClosed(y - 1);
      YearLength(y - 1);
      LeapStep(y - 1);
    } else if y < 1970 {
      DayFromYearClosed(y + 1);
      YearLength(y);
      LeapStep(y);
    }
  }

  /** Four hundred years are 4800 months and 146097 days, and leap years repeat with them. */
  lemma {:induction false} Cycle(i: int)
    ensures MonthLength(i + 4800) == MonthLength(i)
    ensures MonthStart(i + 4800) == MonthStart(i) + 146097
    decreases if i < EPOCH_MONTH then EPOCH_MONTH - i else i - EPOCH_MONTH
  {
    hide MonthLength;
    LengthsRepeat(i);
    if i > EPOCH_MONTH {
      Cycle(i - 1);
      LengthsRepeat(i - 1);
      MonthStep(i + 4799);
    } else if i < EPOCH_MONTH {
      Cycle(i + 1);
      MonthStep(i + 4800);
    } else {
      FourCenturies();
    }
  }

  lemma FourCenturies()
    ensures MonthStart(EPOCH_MONTH + 4800) == 146097
  {
    hide MonthStart;
    DayFromYearClosed(2370);
  }

  lemma LengthsRepeat(i: int)
    ensures MonthLength(i + 4800) == MonthLength(i)
  {
    var y := i / 12;
    assert (i + 4800) / 12 == y + 400 && (i + 4800) % 12 == i % 12;
    assert (y + 400) % 4 == y % 4 && (y + 400) % 100 == y % 100 && (y + 400) % 400 == y % 400;
  }

  // ---- Day numbers and dates ----

  function MonthScan(n: int, i: int): (k: int)
    requires MonthStart(i) <= n
    ensures k >= i && MonthStart(k) <= n < MonthStart(k) + MonthLength(k)
    decreases n - MonthStart(i)
  {
    MonthStep(i);
    if n < MonthStart(i + 1) then i else MonthScan(n, i + 1)
  }

  /** The month a day number falls in: found in the 400 years from 1970, which then repeat. */
  function MonthOf(n: int): (i: int)
    ensures MonthStart(i) <= n < MonthStart(i) + MonthLength(i)
    decreases if n < 0 then 1 else 0, if n < 0 then -n else n
  {
    if n < 0 then
      var i := MonthOf(n + 146097);
      Cycle(i - 4800);
      i - 4800
    else if n >= 146097 then
      var i := MonthOf(n - 146097);
      Cycle(i);
      i + 4800
    else MonthScan(n, EPOCH_MONTH)
  }

  /** The calendar date of a day number. */
  function CivilOf(n: int): (d: Date)
    ensures d.Valid() && DayOf(d) == n
  {
    Date(MonthOf(n), n - MonthStart(MonthOf(n)) + 1)
  }

  lemma {:induction false} MonthsAscend(i: int, j: int)
    requires i < j
    ensures MonthStart(i) + MonthLength(i) <= MonthStart(j)
    decreases j - i
  {
    MonthStep(i);
    if i + 1 < j { MonthsAscend(i + 1, j); }
  }

  /** A date is recovered from its day number. */
  lemma CivilRoundTrip(d: Date)
    requires d.Valid()
    ensures CivilOf(DayOf(d)) == d
  {
    hide MonthStart, MonthLength;
    var i := MonthOf(DayOf(d));
    if i < d.index { MonthsAscend(i, d.index); }
    if d.index < i { MonthsAscend(d.index, i); }
  }

  // ---- Adding months ----

  /** MakeDay of ECMA-262: the zero-based month and the day may lie outside their ranges. */
  function MakeDay(year: int, month0: int, dt: int): int {
    MonthStart(12 * year + month0) + dt - 1
  }

  /** The date k months on, its day clamped to the last day of the month reached. */
  function ClampedMonths(d: Date, k: int): (r: Date)
    requires d.Valid()
    ensures r.Valid()
  {
    var i := d.index + k;
    Date(i, if d.day <= MonthLength(i) then d.day else MonthLength(i))
  }

  /** new Date(year, month, day), all three free to overflow. */
  function NewDate(year: int, month0: int, dt: int): Date {
    CivilOf(MakeDay(year, month0, dt))
  }

  /** setDate: the day counted from the first of the date's own month. */
  function SetDate(d: Date, dt: int): Date {
    CivilOf(MakeDay(d.Year(), d.Month() - 1, dt))
  }

  lemma NewDateIsFirst(d: Date, k: int)
    ensures NewDate(d.Year(), d.Month() - 1 + k, 1) == Date(d.index + k, 1)
  {
    hide MonthStart, MonthLength;
    assert 12 * d.Year() + (d.Month() - 1 + k) == d.index + k;
    CivilRoundTrip(Date(d.index + k, 1));
  }

  lemma NewDateIsLast(i: int)
    ensures NewDate(Date(i, 1).Year(), Date(i, 1).Month() - 1 + 1, 0) == Date(i, MonthLength(i))
  {
    hide MonthStart, MonthLength;
    var first, last := Date(i, 1), Date(i, MonthLength(i));
    assert 12 * first.Year() + (first.Month() - 1 + 1) == i + 1;
    MonthStep(i);
    CivilRoundTrip(last);
    assert MakeDay(first.Year(), first.Month() - 1 + 1, 0) == DayOf(last);
  }

  lemma SetDateInside(i: int, day: int)
    requires Date(i, day).Valid()
    ensures SetDate(Date(i, 1), day) == Date(i, day)
  {
    hide MonthStart, MonthLength;
    CivilRoundTrip(Date(i, day));
  }

  /** addCalendarMonths: go to the first of the target month, then set the clamped day. */
  method AddCalendarMonths(d: Date, months: int) returns (r: Date)
    requires d.Valid()
    ensures r == ClampedMonths(d, months)
  {
    hide MonthStart, MonthLength;
    ghost var i := d.index + months;
    NewDateIsFirst(d, months);
    var result := NewDate(d.Year(), d.Month() - 1 + months, 1);
    NewDateIsLast(i);
    var lastDay := NewDate(result.Year(), result.Month() - 1 + 1, 0).day;
    assert lastDay == MonthLength(i);
    var day := if d.day < lastDay then d.day else lastDay;
    assert ClampedMonths(d, months) == Date(i, day);
    SetDateInside(i, day);
    r := SetDate(result, day);
  }

  /** Where a day lands: in its month when it fits, else early in the month after. */
  lemma Landing(i: int, day: int)
    requires 1 <= day <= 31
    ensures day <= MonthLength(i) ==> CivilOf(MonthStart(i) + day - 1) == Date(i, day)
    ensures day > MonthLength(i) ==> CivilOf(MonthStart(i) + day - 1) == Date(i + 1, day - MonthLength(i))
  {
    hide MonthStart, MonthLength;
    MonthStep(i);
    if day <= MonthLength(i) { CivilRoundTrip(Date(i, day)); }
    else { CivilRoundTrip(Date(i + 1, day - MonthLength(i))); }
  }

  /** Where addMonths ends: the month overflowed into, or rolled back to the last day before it. */
  function RolledBack(d: Date, k: int): int {
    var n := MakeDay(d.Year(), d.Month() - 1 + k, d.day);
    var c := CivilOf(n);
    if c.day < d.day then MakeDay(c.Year(), c.Month() - 1, 0) else n
  }

  /** The two ways the program adds months agree on every date and every month count. */
  lemma RollBackClamps(d: Date, k: int)
    requires d.Valid()
    ensures RolledBack(d, k) == DayOf(ClampedMonths(d, k))
  {
    hide MonthStart, MonthLength;
    Landing(d.index + k, d.day);
    MonthStep(d.index + k);
  }

  lemma SplitTimestamp(n: int, ms: int)
    requires 0 <= ms < MS_PER_DAY
    ensures (n * MS_PER_DAY + ms) / MS_PER_DAY == n && (n * MS_PER_DAY + ms) % MS_PER_DAY == ms
  {}

  /**
   * addMonths on a timestamp: let the day overflow into the next month, then roll back with
   * day 0 when it did. It lands on the clamped date and keeps the time of day.
   */
  method AddMonths(t: int, months: int) returns (r: int)
    ensures r / MS_PER_DAY == DayOf(ClampedMonths(CivilOf(t / MS_PER_DAY), months))
    ensures r % MS_PER_DAY == t % MS_PER_DAY
  {
    hide MonthStart, MonthLength;
    var d := CivilOf(t / MS_PER_DAY);
    var n := MakeDay(d.Year(), d.Month() - 1 + months, d.day);
    var c := CivilOf(n);
    if c.day < d.day {
      n := MakeDay(c.Year(), c.Month() - 1, 0);
    }
    assert n == RolledBack(d, months);
    RollBackClamps(d, months);
    SplitTimestamp(n, t % MS_PER_DAY);
    r := n * MS_PER_DAY + t % MS_PER_DAY;
  }

  // ---- Weeks ----

  /** Days since Monday: 0 is Monday, 6 is Sunday. */
  function WeekdayFromMonday(n: int): int {
    (n + 3) % 7
  }

  /** Weeks run from Monday to Sunday; they are numbered through from the week of day 0. */
  function WeekIndex(n: int): int {
    (n + 3) / 7
  }

  /** The Thursday of a day's week, which decides the year the week belongs to. */
  function ThursdayOf(n: int): (t: int)
    ensures t == 7 * WeekIndex(n)
  {
    n - WeekdayFromMonday(n) + 3
  }

  function WeekYear(n: int): int {
    CivilOf(ThursdayOf(n)).Year()
  }

  function WeekNumber(n: int): int {
    (ThursdayOf(n) - DayFromYear(WeekYear(n))) / 7 + 1
  }

  /** A day number lies in the year of its date. */
  lemma YearHolds(n: int)
    ensures var y := CivilOf(n).Year(); DayFromYear(y) <= n < DayFromYear(y + 1)
  {
    var i := CivilOf(n).index;
    var y := i / 12;
    if 12 * y < i { MonthsAscend(12 * y, i); }
    MonthStep(i);
    if i + 1 < 12 * (y + 1) { MonthsAscend(i + 1, 12 * (y + 1)); }
  }

  /** ISO 8601:2004 section 2.2.10: 1 to 53, and week 1 is the one that has 4 January in it. */
  lemma WeekNumberIsIso(n: int)
    ensures 1 <= WeekNumber(n) <= 53
    ensures WeekNumber(n) == WeekIndex(n) - WeekIndex(DayFromYear(WeekYear(n)) + 3) + 1
  {
    YearHolds(ThursdayOf(n));
    YearLength(WeekYear(n));
  }

  /** Year and number together name exactly one Monday-to-Sunday week. */
  lemma WeekNamed(a: int, b: int)
    ensures WeekYear(a) == WeekYear(b) && WeekNumber(a) == WeekNumber(b) <==> WeekIndex(a) == WeekIndex(b)
  {}
}
