/** Due dates and period keys of reminders (src/services/reminder-schedule.ts). */
module ReminderSchedule {
  import opened Wrappers
  import opened JsText
  import opened Calendar

  /** OTHER stands for any frequency text the program has no case for. */
  datatype Frequency = WEEKLY | MONTHLY | QUARTERLY | BIANNUAL | YEARLY | CUSTOM | OTHER

  datatype Status = UPCOMING | DUE | OVERDUE | COMPLETED | DISMISSED

  /** Months from one due date to the next, for the frequencies counted in months. */
  function MonthsOf(f: Frequency): (k: int)
    ensures k >= 1
  {
    match f
    case QUARTERLY => 3
    case BIANNUAL => 6
    case YEARLY => 12
    case _ => 1
  }

  /** The due date that follows; a CUSTOM frequency has none (the program throws). */
  function NextDueDate(from: Date, f: Frequency): (next: Option<Date>)
    requires from.Valid()
    ensures next.Some? <==> f != CUSTOM
    ensures next.Some? ==> next.value.Valid()
  {
    if f == CUSTOM then None
    else if f == WEEKLY then Some(NewDate(from.Year(), from.Month() - 1, from.day + 7))
    else Some(ClampedMonths(from, MonthsOf(f)))
  }

  /** formatLocalDay: year, month and day joined by dashes. */
  function DayText(d: Date): Text
    requires d.Valid()
  {
    IntText(d.Year()) + ([DASH] + (Pad2(d.Month()) + ([DASH] + Pad2(d.day))))
  }

  /** The name of the period a date falls in; W, Q and H mark weeks, quarters and half-years. */
  function PeriodKey(d: Date, f: Frequency): Text
    requires d.Valid()
  {
    match f
    case CUSTOM => [67, 85, 83, 84, 79, 77, DASH] + DayText(d)
    case WEEKLY => IntText(WeekYear(DayOf(d))) + ([DASH, 87] + Pad2(Week(d)))
    case QUARTERLY => IntText(d.Year()) + ([DASH, 81] + Decimal((d.Month() - 1) / 3 + 1))
    case BIANNUAL => IntText(d.Year()) + ([DASH, 72] + Decimal(if d.Month() <= 6 then 1 else 2))
    case YEARLY => IntText(d.Year())
    case _ => IntText(d.Year()) + ([DASH] + Pad2(d.Month()))
  }

  function Week(d: Date): (w: nat)
    ensures w == WeekNumber(DayOf(d)) && 1 <= w <= 53
  {
    WeekNumberIsIso(DayOf(d));
    WeekNumber(DayOf(d))
  }

  /** The WEEKLY branch of periodKey: step a Date to the Thursday of its week, then count from New Year. */
  method WeeklyKey(d: Date) returns (key: Text)
    requires d.Valid()
    ensures key == PeriodKey(d, WEEKLY)
  {
    hide MonthStart, MonthLength, MonthOf, Pad2, IntText;
    var tmp := DayOf(d);
    var utcDay := (tmp + 4) % 7;
    var dayNum := if utcDay == 0 then 7 else utcDay;
    tmp := tmp + 4 - dayNum;
    StepToThursday(DayOf(d));
    var yearStart := DayFromYear(CivilOf(tmp).Year());
    var weekNo := CeilDiv(tmp - yearStart + 1, 7);
    CeilIsFloorPlusOne(tmp - yearStart);
    assert weekNo == Week(d);
    key := IntText(CivilOf(tmp).Year()) + ([DASH, 87] + Pad2(weekNo));
  }

  /** Math.ceil of a quotient. */
  function CeilDiv(n: int, k: int): int
    requires k > 0
  {
    -((-n) / k)
  }

  lemma CeilIsFloorPlusOne(n: int)
    ensures CeilDiv(n + 1, 7) == n / 7 + 1
  {}

  lemma StepToThursday(n: int)
    ensures n + 4 - (if (n + 4) % 7 == 0 then 7 else (n + 4) % 7) == ThursdayOf(n)
  {}

  /** The periods of a frequency, numbered through: weeks, months, quarters, half-years, years, days. */
  function PeriodIndex(d: Date, f: Frequency): int {
    match f
    case WEEKLY => WeekIndex(DayOf(d))
    case QUARTERLY => d.index / 3
    case BIANNUAL => d.index / 6
    case YEARLY => d.index / 12
    case CUSTOM => DayOf(d)
    case _ => d.index
  }

  lemma MonthParts(a: Date, b: Date)
    ensures a.index == b.index <==> a.Year() == b.Year() && a.Month() == b.Month()
    ensures a.index / 3 == b.index / 3 <==> a.Year() == b.Year() && (a.Month() - 1) / 3 == (b.Month() - 1) / 3
    ensures a.index / 6 == b.index / 6 <==> a.Year() == b.Year() && (a.Month() <= 6 <==> b.Month() <= 6)
  {
    QuarterOf(a);
    QuarterOf(b);
  }

  lemma QuarterOf(a: Date)
    ensures a.index / 3 == 4 * a.Year() + (a.Month() - 1) / 3
    ensures a.index / 6 == 2 * a.Year() + if a.Month() <= 6 then 0 else 1
  {}

  /** A year, a marker and a part of fixed length: equal texts have equal years and parts. */
  lemma YearAndPart(y: int, p: Text, z: int, q: Text, mark: Text)
    requires |p| == |q|
    ensures IntText(y) + (mark + p) == IntText(z) + (mark + q) <==> y == z && p == q
  {
    SplitTail(IntText(y), mark + p, IntText(z), mark + q);
    SplitTail(mark, p, mark, q);
    if IntText(y) == IntText(z) { IntTextInjective(y, z); }
  }

  lemma YearAndDigit(y: int, p: nat, z: int, q: nat, mark: Text)
    requires 1 <= p <= 4 && 1 <= q <= 4
    ensures IntText(y) + (mark + Decimal(p)) == IntText(z) + (mark + Decimal(q)) <==> y == z && p == q
  {
    assert Decimal(p) == [48 + p] && Decimal(q) == [48 + q];
    YearAndPart(y, Decimal(p), z, Decimal(q), mark);
  }

  lemma YearAndTwoDigits(y: int, p: nat, z: int, q: nat, mark: Text)
    requires p < 100 && q < 100
    ensures IntText(y) + (mark + Pad2(p)) == IntText(z) + (mark + Pad2(q)) <==> y == z && p == q
  {
    Pad2Injective(p, q);
    YearAndPart(y, Pad2(p), z, Pad2(q), mark);
  }

  lemma DayTextInjective(a: Date, b: Date)
    requires a.Valid() && b.Valid()
    ensures DayText(a) == DayText(b) <==> a == b
  {
    hide MonthLength, Decimal, Pad2, IntText;
    Pad2Injective(a.Month(), b.Month());
    Pad2Injective(a.day, b.day);
    var da, db := [DASH] + Pad2(a.day), [DASH] + Pad2(b.day);
    SplitTail([DASH], Pad2(a.day), [DASH], Pad2(b.day));
    SplitTail(Pad2(a.Month()), da, Pad2(b.Month()), db);
    YearAndPart(a.Year(), Pad2(a.Month()) + da, b.Year(), Pad2(b.Month()) + db, [DASH]);
  }

  lemma CustomKeys(a: Date, b: Date)
    requires a.Valid() && b.Valid()
    ensures PeriodKey(a, CUSTOM) == PeriodKey(b, CUSTOM) <==> DayOf(a) == DayOf(b)
  {
    hide DayText, MonthStart, MonthLength, MonthOf, CivilOf;
    DayTextInjective(a, b);
    CivilRoundTrip(a);
    CivilRoundTrip(b);
    assert PeriodKey(a, CUSTOM)[7..] == DayText(a) && PeriodKey(b, CUSTOM)[7..] == DayText(b);
  }

  /** Two dates get the same key exactly when they fall in the same period. */
  lemma SameKeyIffSamePeriod(a: Date, b: Date, f: Frequency)
    requires a.Valid() && b.Valid()
    ensures PeriodKey(a, f) == PeriodKey(b, f) <==> PeriodIndex(a, f) == PeriodIndex(b, f)
  {
    hide MonthStart, MonthLength, Decimal, WeekNumber, WeekYear, WeekIndex, MonthOf, CivilOf, Pad2, IntText, DayText;
    MonthParts(a, b);
    match f
    case WEEKLY =>
      YearAndTwoDigits(WeekYear(DayOf(a)), Week(a), WeekYear(DayOf(b)), Week(b), [DASH, 87]);
      WeekNamed(DayOf(a), DayOf(b));
    case QUARTERLY => YearAndDigit(a.Year(), (a.Month() - 1) / 3 + 1, b.Year(), (b.Month() - 1) / 3 + 1, [DASH, 81]);
    case BIANNUAL =>
      YearAndDigit(a.Year(), if a.Month() <= 6 then 1 else 2, b.Year(), if b.Month() <= 6 then 1 else 2, [DASH, 72]);
    case YEARLY => if PeriodKey(a, f) == PeriodKey(b, f) { IntTextInjective(a.Year(), b.Year()); }
    case CUSTOM => CustomKeys(a, b);
    case _ => YearAndTwoDigits(a.Year(), a.Month(), b.Year(), b.Month(), [DASH]);
  }

  /** A later day is never in an earlier period: periods are runs of consecutive days. */
  lemma PeriodsAreOrdered(a: Date, b: Date, f: Frequency)
    requires a.Valid() && b.Valid() && DayOf(a) <= DayOf(b)
    ensures PeriodIndex(a, f) <= PeriodIndex(b, f)
  {
    if b.index < a.index { MonthsAscend(b.index, a.index); }
  }

  /**
   * An advance never repeats and never skips a period, whatever the day was clamped to: the next
   * due date is at least a week later and lies in the period right after.
   */
  lemma NextDueIsNextPeriod(d: Date, f: Frequency)
    requires d.Valid() && f != CUSTOM
    ensures var next := NextDueDate(d, f).value;
            DayOf(next) >= DayOf(d) + 7 && PeriodIndex(next, f) == PeriodIndex(d, f) + 1
  {
    hide MonthStart, MonthLength, MonthOf;
    if f == WEEKLY {
      assert 12 * d.Year() + (d.Month() - 1) == d.index;
    } else {
      NextMonthsLater(d, MonthsOf(f));
    }
  }

  lemma NextMonthsLater(d: Date, k: int)
    requires d.Valid() && k >= 1
    ensures DayOf(ClampedMonths(d, k)) >= DayOf(d) + 28
  {
    hide MonthLength;
    MonthsAscend(d.index, d.index + k);
    MonthStep(d.index);
    assert d.day <= MonthLength(d.index);
    var e := ClampedMonths(d, k);
    if e.day < d.day {
      ClampedLength(d, k);
    }
  }

  lemma ClampedLength(d: Date, k: int)
    requires d.Valid()
    ensures ClampedMonths(d, k).day == d.day || ClampedMonths(d, k).day == MonthLength(d.index + k) >= 28
  {}

  /** Where a due date stands against today, with the lead days on both sides counting as due. */
  function ComputeStatus(due: Date, leadDays: int, today: int): (s: Status)
    ensures s in {UPCOMING, DUE, OVERDUE}
    ensures s in {DUE, OVERDUE} <==> DayOf(due) <= today + (if leadDays > 0 then leadDays else 0)
  {
    var diffDays := DayOf(due) - today;
    var lead := if leadDays > 0 then leadDays else 0;
    if diffDays < -lead then OVERDUE
    else if diffDays <= lead then DUE
    else UPCOMING
  }
}
