/**
 * Incentive periods, revenue and shares (src/lib/company-target-periods.ts, company-target-engine.ts).
 * Money is in paise.
 */
module Incentives {
  import opened Wrappers
  import opened Words
  import opened Calendar

  // ---- Periods ----

  datatype PeriodType = MONTHLY | QUARTERLY | HALF_YEARLY | YEARLY

  /** First and last millisecond of a period, and the month it starts with. */
  datatype Boundary = Boundary(start: int, end: int, month: int, year: int)

  function UtcDay(year: int, month: int, day: int): int {
    MakeDay(year, month - 1, day) * MS_PER_DAY
  }

  function UtcEndOfDay(year: int, month: int, day: int): int {
    MakeDay(year, month - 1, day) * MS_PER_DAY + MS_PER_DAY - 1
  }

  /** Day 0 of the next month. */
  function LastDayOfMonth(year: int, month: int): int {
    CivilOf(MakeDay(year, month, 0)).day
  }

  function Span(year: int, first: int, last: int): Boundary {
    Boundary(UtcDay(year, first, 1), UtcEndOfDay(year, last, LastDayOfMonth(year, last)), first, year)
  }

  function PeriodsForYear(year: int, t: PeriodType): seq<Boundary> {
    match t
    case MONTHLY => seq(12, i => Span(year, i + 1, i + 1))
    case QUARTERLY => [Span(year, 1, 3), Span(year, 4, 6), Span(year, 7, 9), Span(year, 10, 12)]
    case HALF_YEARLY => [Span(year, 1, 6), Boundary(UtcDay(year, 7, 1), UtcEndOfDay(year, 12, 31), 7, year)]
    case YEARLY => [Boundary(UtcDay(year, 1, 1), UtcEndOfDay(year, 12, 31), 1, year)]
  }

  /** First millisecond of a month, counted within a year; month 13 is the next January. */
  function MonthMs(year: int, month: int): int {
    MonthStart(12 * year + month - 1) * MS_PER_DAY
  }

  /** How many months a period has. */
  function MonthsIn(t: PeriodType): int {
    match t
    case MONTHLY => 1
    case QUARTERLY => 3
    case HALF_YEARLY => 6
    case YEARLY => 12
  }

  lemma PeriodCount(year: int, t: PeriodType)
    ensures |PeriodsForYear(year, t)| * MonthsIn(t) == 12
    ensures |PeriodsForYear(year, t)| >= 1
  {}

  lemma SpanCovers(year: int, first: int, last: int)
    ensures Span(year, first, last) == Boundary(MonthMs(year, first), MonthMs(year, last + 1) - 1, first, year)
  {
    hide MonthStart, MonthLength, MonthOf;
    var i := 12 * year + last - 1;
    MonthStep(i);
    CivilRoundTrip(Date(i, MonthLength(i)));
    assert MakeDay(year, last, 0) == DayOf(Date(i, MonthLength(i)));
    assert MakeDay(year, last - 1, LastDayOfMonth(year, last)) == MonthStart(i + 1) - 1;
    assert MakeDay(year, first - 1, 1) == MonthStart(12 * year + first - 1);
  }

  lemma DecemberCovers(year: int)
    ensures LastDayOfMonth(year, 12) == 31
  {
    hide MonthStart, MonthOf;
    var i := 12 * year + 11;
    MonthStep(i);
    assert i / 12 == year && i % 12 == 11 && MonthLength(i) == 31;
    CivilRoundTrip(Date(i, 31));
    assert MakeDay(year, 12, 0) == DayOf(Date(i, 31));
  }

  /**
   * The periods of a year follow one another without gap or overlap: period k runs from the first
   * millisecond of its first month up to the millisecond before the next period begins.
   */
  lemma PeriodsTileTheYear(year: int, t: PeriodType, k: nat)
    requires k < |PeriodsForYear(year, t)|
    ensures var n := MonthsIn(t);
            PeriodsForYear(year, t)[k] ==
                Boundary(MonthMs(year, k * n + 1), MonthMs(year, (k + 1) * n + 1) - 1, k * n + 1, year)
  {
    hide MonthMs, UtcDay, UtcEndOfDay, LastDayOfMonth;
    var n := MonthsIn(t);
    DecemberCovers(year);
    assert PeriodsForYear(year, t)[k] == Span(year, k * n + 1, (k + 1) * n) by {
      SpanCovers(year, k * n + 1, (k + 1) * n);
    }
    SpanCovers(year, k * n + 1, (k + 1) * n);
  }

  lemma MonthsAreOrdered(year: int, m: int, n: int)
    requires m < n
    ensures MonthMs(year, m) < MonthMs(year, n)
  {
    MonthsAscend(12 * year + m - 1, 12 * year + n - 1);
  }

  /** January 1970 begins at 0 and lasts 31 days of 24 hours. */
  lemma FirstMonth()
    ensures MonthMs(1970, 1) == 0 && MonthMs(1970, 2) == 31 * 24 * 60 * 60 * 1000
  {
    MonthStep(12 * 1970);
    assert MonthStart(12 * 1970) == 0;
  }

  predicate In(t: int, b: Boundary) {
    b.start <= t <= b.end
  }

  /** Every millisecond of the year lies in exactly one of its periods, and none outside the year lies in any. */
  lemma {:induction false} ExactlyOnePeriod(year: int, t: PeriodType, ms: int)
    ensures MonthMs(year, 1) <= ms < MonthMs(year, 13) <==>
        exists k :: 0 <= k < |PeriodsForYear(year, t)| && In(ms, PeriodsForYear(year, t)[k])
    ensures forall j, k :: 0 <= j < k < |PeriodsForYear(year, t)| ==>
              !(In(ms, PeriodsForYear(year, t)[j]) && In(ms, PeriodsForYear(year, t)[k]))
  {
    hide MonthMs;
    var ps, n := PeriodsForYear(year, t), MonthsIn(t);
    PeriodCount(year, t);
    PeriodsTileTheYear(year, t, 0);
    forall k | 0 <= k < |ps|
      ensures ps[k] == Boundary(MonthMs(year, k * n + 1), MonthMs(year, (k + 1) * n + 1) - 1, k * n + 1, year)
    {
      PeriodsTileTheYear(year, t, k);
    }
    forall m, p {:trigger MonthMs(year, m), MonthMs(year, p)} | m < p ensures MonthMs(year, m) < MonthMs(year, p) {
      MonthsAreOrdered(year, m, p);
    }
    forall j, k | 0 <= j < k < |ps| ensures !(In(ms, ps[j]) && In(ms, ps[k])) {
      PeriodsApart(year, n, j, k);
    }
    if MonthMs(year, 1) <= ms < MonthMs(year, 13) { var k := FindPeriod(year, t, ms, 0); }
    if k :| 0 <= k < |ps| && In(ms, ps[k]) { WithinYear(year, t, k); }
  }

  lemma PeriodsApart(year: int, n: int, j: int, k: int)
    requires j < k && n >= 1
    ensures MonthMs(year, (j + 1) * n + 1) <= MonthMs(year, k * n + 1)
  {
    assert (j + 1) * n <= k * n by { assert k * n - (j + 1) * n == (k - j - 1) * n; }
    if (j + 1) * n < k * n { MonthsAreOrdered(year, (j + 1) * n + 1, k * n + 1); }
  }

  lemma WithinYear(year: int, t: PeriodType, k: nat)
    requires k < |PeriodsForYear(year, t)|
    ensures var b := PeriodsForYear(year, t)[k]; MonthMs(year, 1) <= b.start && b.end < MonthMs(year, 13)
  {
    hide MonthMs, PeriodsForYear;
    var n := MonthsIn(t);
    PeriodCount(year, t);
    PeriodsTileTheYear(year, t, k);
    assert 0 <= k * n && (k + 1) * n <= 12;
    if k * n > 0 { MonthsAreOrdered(year, 1, k * n + 1); }
    if (k + 1) * n < 12 { MonthsAreOrdered(year, (k + 1) * n + 1, 13); }
  }

  lemma FindPeriod(year: int, t: PeriodType, ms: int, from: nat) returns (k: nat)
    requires from < |PeriodsForYear(year, t)| && PeriodsForYear(year, t)[from].start <= ms < MonthMs(year, 13)
    ensures k < |PeriodsForYear(year, t)| && In(ms, PeriodsForYear(year, t)[k])
    decreases |PeriodsForYear(year, t)| - from
  {
    hide MonthMs, PeriodsForYear;
    PeriodCount(year, t);
    PeriodsTileTheYear(year, t, from);
    if In(ms, PeriodsForYear(year, t)[from]) {
      k := from;
    } else {
      assert (from + 1) * MonthsIn(t) != 12;
      PeriodsTileTheYear(year, t, from + 1);
      k := FindPeriod(year, t, ms, from + 1);
    }
  }

  /** getPeriodForMonth: the first period whose months include the given one; the last for a month out of range. */
  method PeriodForMonth(month: int, year: int, t: PeriodType) returns (p: Boundary)
    ensures p in PeriodsForYear(year, t)
    ensures 1 <= month <= 12 ==> p.start <= MonthMs(year, month) && MonthMs(year, month + 1) - 1 <= p.end
    ensures !(1 <= month <= 12) ==> p == PeriodsForYear(year, t)[|PeriodsForYear(year, t)| - 1]
  {
    hide MonthMs, CivilOf, PeriodsForYear;
    var all := PeriodsForYear(year, t);
    var n := MonthsIn(t);
    var i := 0;
    PeriodCount(year, t);
    while i < |all|
      invariant 0 <= i <= |all|
      invariant 1 <= month <= 12 ==> month > i * n
    {
      p := all[i];
      PeriodsTileTheYear(year, t, i);
      EndMonth(year, t, i);
      var endMonth := CivilOf(p.end / MS_PER_DAY).Month();
      if p.month <= month && month <= endMonth {
        if p.month < month { MonthsAreOrdered(year, p.month, month); }
        if month < endMonth { MonthsAreOrdered(year, month + 1, endMonth + 1); }
        return;
      }
      i := i + 1;
    }
    p := all[|all| - 1];
  }

  lemma EndMonth(year: int, t: PeriodType, k: nat)
    requires k < |PeriodsForYear(year, t)|
    ensures CivilOf(PeriodsForYear(year, t)[k].end / MS_PER_DAY).Month() == (k + 1) * MonthsIn(t)
  {
    hide MonthStart, MonthLength, MonthOf;
    var m := (k + 1) * MonthsIn(t);
    PeriodCount(year, t);
    PeriodsTileTheYear(year, t, k);
    var i := 12 * year + m - 1;
    MonthStep(i);
    var n := MonthStart(i + 1);
    assert n * MS_PER_DAY - 1 == (n - 1) * MS_PER_DAY + (MS_PER_DAY - 1);
    assert (n * MS_PER_DAY - 1) / MS_PER_DAY == n - 1;
    CivilRoundTrip(Date(i, MonthLength(i)));
    assert 1 <= m <= 12 && i % 12 == m - 1;
  }

  // ---- Revenue ----

  datatype Invoice = Invoice(status: string, grandTotal: int, createdAt: Option<int>)

  predicate CountsAsRevenue(status: string) {
    Lower(status) in ["issued", "partial", "partially_paid", "paid"]
  }

  /** Counted and created between the two ends, both included; an unreadable date is never counted. */
  predicate RevenueIn(inv: Invoice, from: int, to: int) {
    CountsAsRevenue(inv.status) && inv.createdAt.Some? && from <= inv.createdAt.value <= to
  }

  function FilterRevenueInvoices(invoices: seq<Invoice>, from: int, to: int): seq<Invoice> {
    if invoices == [] then []
    else
      (if RevenueIn(invoices[0], from, to) then [invoices[0]] else [])
      + FilterRevenueInvoices(invoices[1..], from, to)
  }

  function CalcRevenue(invoices: seq<Invoice>): int {
    if invoices == [] then 0 else invoices[0].grandTotal + CalcRevenue(invoices[1..])
  }

  function Revenue(invoices: seq<Invoice>, from: int, to: int): int {
    CalcRevenue(FilterRevenueInvoices(invoices, from, to))
  }

  lemma RevenueStep(invoices: seq<Invoice>, from: int, to: int)
    requires invoices != []
    ensures Revenue(invoices, from, to) ==
            (if RevenueIn(invoices[0], from, to) then invoices[0].grandTotal else 0) + Revenue(invoices[1..], from, to)
  {
    hide RevenueIn;
    var rest := FilterRevenueInvoices(invoices[1..], from, to);
    if RevenueIn(invoices[0], from, to) {
      assert FilterRevenueInvoices(invoices, from, to) == [invoices[0]] + rest;
      assert ([invoices[0]] + rest)[1..] == rest;
    } else {
      assert FilterRevenueInvoices(invoices, from, to) == [] + rest == rest;
    }
  }

  /** Revenue of adjoining stretches of time adds up. */
  lemma {:induction false} RevenueAdds(invoices: seq<Invoice>, from: int, middle: int, to: int)
    requires from <= middle <= to + 1
    ensures Revenue(invoices, from, middle - 1) + Revenue(invoices, middle, to) == Revenue(invoices, from, to)
  {
    hide Revenue, CountsAsRevenue;
    if invoices == [] {
      NoInvoices(from, middle - 1); NoInvoices(middle, to); NoInvoices(from, to);
    } else {
      RevenueStep(invoices, from, middle - 1);
      RevenueStep(invoices, middle, to);
      RevenueStep(invoices, from, to);
      RevenueAdds(invoices[1..], from, middle, to);
    }
  }

  lemma NoInvoices(from: int, to: int)
    ensures Revenue([], from, to) == 0
  {}

  /** The revenues of the first k periods of a year. */
  function RevenueOfPeriods(invoices: seq<Invoice>, ps: seq<Boundary>, k: nat): int
    requires k <= |ps|
  {
    if k == 0 then 0 else RevenueOfPeriods(invoices, ps, k - 1) + Revenue(invoices, ps[k - 1].start, ps[k - 1].end)
  }

  lemma {:induction false} PrefixRevenue(invoices: seq<Invoice>, year: int, t: PeriodType, k: nat)
    requires k <= |PeriodsForYear(year, t)|
    ensures RevenueOfPeriods(invoices, PeriodsForYear(year, t), k) ==
            Revenue(invoices, MonthMs(year, 1), MonthMs(year, k * MonthsIn(t) + 1) - 1)
  {
    hide Revenue, MonthMs, PeriodsForYear;
    var n := MonthsIn(t);
    if k == 0 {
      EmptyStretch(invoices, MonthMs(year, 1));
    } else {
      PrefixRevenue(invoices, year, t, k - 1);
      PeriodsTileTheYear(year, t, k - 1);
      var a, b, c := MonthMs(year, 1), MonthMs(year, (k - 1) * n + 1), MonthMs(year, k * n + 1);
      if k > 1 { assert (k - 1) * n > 0; MonthsAreOrdered(year, 1, (k - 1) * n + 1); }
      assert k * n == (k - 1) * n + n;
      MonthsAreOrdered(year, (k - 1) * n + 1, k * n + 1);
      RevenueAdds(invoices, a, b, c - 1);
    }
  }

  lemma {:induction false} EmptyStretch(invoices: seq<Invoice>, at: int)
    ensures Revenue(invoices, at, at - 1) == 0
  {
    hide Revenue;
    if invoices == [] { NoInvoices(at, at - 1); }
    else {
      RevenueStep(invoices, at, at - 1);
      EmptyStretch(invoices[1..], at);
    }
  }

  /** Whatever the period type, a year's periods together take in exactly the year's revenue. */
  lemma PeriodsSumToTheYear(invoices: seq<Invoice>, year: int, t: PeriodType)
    ensures var ps, whole := PeriodsForYear(year, t), PeriodsForYear(year, YEARLY)[0];
            RevenueOfPeriods(invoices, ps, |ps|) == Revenue(invoices, whole.start, whole.end)
  {
    hide Revenue, MonthMs, RevenueOfPeriods, PeriodsForYear;
    PeriodCount(year, t);
    PeriodCount(year, YEARLY);
    PeriodsTileTheYear(year, YEARLY, 0);
    PrefixRevenue(invoices, year, t, |PeriodsForYear(year, t)|);
  }

  lemma ThreeMonths(invoices: seq<Invoice>, year: int, m: int)
    ensures Revenue(invoices, MonthMs(year, m), MonthMs(year, m + 1) - 1)
            + Revenue(invoices, MonthMs(year, m + 1), MonthMs(year, m + 2) - 1)
            + Revenue(invoices, MonthMs(year, m + 2), MonthMs(year, m + 3) - 1)
            == Revenue(invoices, MonthMs(year, m), MonthMs(year, m + 3) - 1)
  {
    hide Revenue, MonthMs;
    MonthsAreOrdered(year, m, m + 1);
    MonthsAreOrdered(year, m, m + 2);
    MonthsAreOrdered(year, m + 1, m + 2);
    MonthsAreOrdered(year, m + 2, m + 3);
    RevenueAdds(invoices, MonthMs(year, m), MonthMs(year, m + 1), MonthMs(year, m + 2) - 1);
    RevenueAdds(invoices, MonthMs(year, m), MonthMs(year, m + 2), MonthMs(year, m + 3) - 1);
  }

  function RevenueOf(invoices: seq<Invoice>, b: Boundary): int {
    Revenue(invoices, b.start, b.end)
  }

  lemma MonthRevenue(invoices: seq<Invoice>, year: int, m: nat)
    requires m < 12
    ensures |PeriodsForYear(year, MONTHLY)| == 12
    ensures RevenueOf(invoices, PeriodsForYear(year, MONTHLY)[m]) ==
        Revenue(invoices, MonthMs(year, m + 1), MonthMs(year, m + 2) - 1)
  {
    hide Revenue, MonthMs;
    PeriodsTileTheYear(year, MONTHLY, m);
  }

  /** A quarter takes in exactly the revenue of its three months. */
  lemma QuarterIsItsMonths(invoices: seq<Invoice>, year: int, q: nat)
    requires q < 4
    ensures |PeriodsForYear(year, MONTHLY)| == 12 && |PeriodsForYear(year, QUARTERLY)| == 4
    ensures var ms := PeriodsForYear(year, MONTHLY);
            RevenueOf(invoices, ms[3 * q]) + RevenueOf(invoices, ms[3 * q + 1]) + RevenueOf(invoices, ms[3 * q + 2])
            == RevenueOf(invoices, PeriodsForYear(year, QUARTERLY)[q])
  {
    hide Revenue, MonthMs, PeriodsForYear;
    MonthRevenue(invoices, year, 3 * q);
    MonthRevenue(invoices, year, 3 * q + 1);
    MonthRevenue(invoices, year, 3 * q + 2);
    PeriodCount(year, MONTHLY);
    PeriodCount(year, QUARTERLY);
    PeriodsTileTheYear(year, QUARTERLY, q);
    ThreeMonths(invoices, year, 3 * q + 1);
  }

  // ---- Pools and shares ----

  /** Math.round. */
  function Round(x: real): int {
    (x + 0.5).Floor
  }

  datatype Tier = Tier(targetAmount: int, rewardPercent: real, role: string)

  datatype Staff = Staff(id: string, role: string, isActive: bool, joined: Option<Date>)

  datatype Breakdown = Breakdown(tierIndex: int, achieved: bool, pool: int, eligible: nat, share: int)

  /** Active, no super admin, joined by the period's last day and within the first five days of a month. */
  predicate Eligible(s: Staff, periodEnd: int) {
    s.isActive && s.role != "SUPER_ADMIN" && s.joined.Some?
    && DayOf(s.joined.value) <= periodEnd / MS_PER_DAY && s.joined.value.day <= 5
  }

  /** The eligible staff of a role, roles compared by their normalized keys. */
  function EligibleOf(staff: seq<Staff>, periodEnd: int, role: string, key: string -> string): nat {
    if staff == [] then 0
    else
      (if Eligible(staff[0], periodEnd) && key(staff[0].role) == key(role) then 1 else 0)
      + EligibleOf(staff[1..], periodEnd, role, key)
  }

  function CalcRewardPool(revenue: int, percent: real): int {
    Round(revenue as real * percent / 100.0)
  }

  /** Math.round of pool / count: the floor of the quotient plus one half. */
  function CalcShare(pool: int, count: nat): int {
    if count == 0 then 0 else (2 * pool + count) / (2 * count)
  }

  function RowFor(revenue: int, t: Tier, i: int, staff: seq<Staff>, periodEnd: int, key: string -> string): Breakdown {
    var achieved := revenue >= t.targetAmount;
    var pool := if achieved then CalcRewardPool(revenue, t.rewardPercent) else 0;
    var count := EligibleOf(staff, periodEnd, t.role, key);
    Breakdown(i, achieved, pool, count, if achieved then CalcShare(pool, count) else 0)
  }

  function RoleBreakdown(revenue: int, tiers: seq<Tier>, staff: seq<Staff>, periodEnd: int,
      key: string -> string): seq<Breakdown> {
    seq(|tiers|, i requires 0 <= i < |tiers| => RowFor(revenue, tiers[i], i, staff, periodEnd, key))
  }

  /** The pool is the tier's percentage of the revenue, to the nearest paisa. */
  lemma PoolIsNearest(revenue: int, percent: real)
    ensures -50.0 <= 100.0 * CalcRewardPool(revenue, percent) as real - revenue as real * percent <= 50.0
  {
    var exact := revenue as real * percent / 100.0;
    assert exact - 0.5 <= Round(exact) as real <= exact + 0.5;
    assert 100.0 * exact == revenue as real * percent;
  }

  lemma {:induction false} EligibleSplit(
    a: seq<Staff>, b: seq<Staff>, periodEnd: int, role: string, key: string -> string)
    ensures EligibleOf(a + b, periodEnd, role, key) ==
            EligibleOf(a, periodEnd, role, key) + EligibleOf(b, periodEnd, role, key)
  {
    if a == [] {
      assert a + b == b;
    } else {
      assert (a + b)[1..] == a[1..] + b;
      EligibleSplit(a[1..], b, periodEnd, role, key);
    }
  }

  /**
   * A member of staff, anywhere in the list, adds one to those who share a tier's pool exactly if active, of the
   * tier's role, no super admin, and joined by the period's last day within the first five days of a month.
   */
  lemma EachMemberCountsIff(
    a: seq<Staff>, s: Staff, b: seq<Staff>, periodEnd: int, role: string, key: string -> string)
    ensures var counts := s.isActive && key(s.role) == key(role) && s.role != "SUPER_ADMIN" && s.joined.Some?
                          && s.joined.value.day <= 5 && DayOf(s.joined.value) * MS_PER_DAY <= periodEnd;
            EligibleOf(a + [s] + b, periodEnd, role, key) ==
            EligibleOf(a + b, periodEnd, role, key) + if counts then 1 else 0
  {
    EligibleSplit(a + [s], b, periodEnd, role, key);
    EligibleSplit(a, [s], periodEnd, role, key);
    EligibleSplit(a, b, periodEnd, role, key);
    assert [s][1..] == [];
    assert EligibleOf([s], periodEnd, role, key) ==
           (if Eligible(s, periodEnd) && key(s.role) == key(role) then 1 else 0) + EligibleOf([], periodEnd, role, key);
    if s.joined.Some? { DayWithin(DayOf(s.joined.value), periodEnd); }
  }

  lemma DayWithin(day: int, at: int)
    ensures day <= at / MS_PER_DAY <==> day * MS_PER_DAY <= at
  {}

  /** Issued and wholly or partly paid invoices count, in any case of letters; a draft or a cancelled one does not. */
  lemma RevenueWords(word: string)
    ensures word in {"issued", "partial", "partially_paid", "paid"} ==> CountsAsRevenue(word)
    ensures word in {"draft", "cancelled"} ==> !CountsAsRevenue(word)
    ensures CountsAsRevenue(Upper(word)) == CountsAsRevenue(word)
  {
    hide Lower, Upper;
    LowerTwice(word);
    if word == "issued" {
      LowerStays("issued");
    } else if word == "partial" {
      LowerStays("partial");
    } else if word == "partially_paid" {
      LowerStays("partially_paid");
    } else if word == "paid" {
      LowerStays("paid");
    } else if word == "draft" {
      LowerStays("draft");
    } else if word == "cancelled" {
      LowerStays("cancelled");
    }
    assert |"issued"| == 6 && |"partial"| == 7 && |"partially_paid"| == 14 && |"paid"| == 4;
    assert |"draft"| == 5 && |"cancelled"| == 9;
  }

  /** selectAchievedTier: the achieved tier of the highest target, the first of equals. */
  method SelectAchievedTier(revenue: int, tiers: seq<Tier>) returns (best: Option<nat>)
    ensures best.None? <==> forall i :: 0 <= i < |tiers| ==> revenue < tiers[i].targetAmount
    ensures best.Some? ==>
      && best.value < |tiers| && tiers[best.value].targetAmount <= revenue
      && (forall i :: 0 <= i < |tiers| && tiers[i].targetAmount <= revenue ==>
           tiers[i].targetAmount <= tiers[best.value].targetAmount)
      && (forall i :: 0 <= i < best.value && tiers[i].targetAmount <= revenue ==>
           tiers[i].targetAmount < tiers[best.value].targetAmount)
  {
    best := None;
    for i := 0 to |tiers|
      invariant best.None? <==> forall j :: 0 <= j < i ==> revenue < tiers[j].targetAmount
      invariant best.Some? ==>
        && best.value < i && tiers[best.value].targetAmount <= revenue
        && (forall j :: 0 <= j < i && tiers[j].targetAmount <= revenue ==>
             tiers[j].targetAmount <= tiers[best.value].targetAmount)
        && (forall j :: 0 <= j < best.value && tiers[j].targetAmount <= revenue ==>
             tiers[j].targetAmount < tiers[best.value].targetAmount)
    {
      if tiers[i].targetAmount <= revenue {
        if best.None? || tiers[i].targetAmount > tiers[best.value].targetAmount { best := Some(i); }
      }
    }
  }

  /** Equal shares miss the pool by at most half a paisa each. */
  predicate SharesNearPool(pool: int, count: int, share: int) {
    -count <= 2 * (count * share - pool) <= count
  }

  lemma ShareIsNearest(pool: int, count: nat)
    requires count > 0
    ensures SharesNearPool(pool, count, CalcShare(pool, count))
  {
    var a, b, s := 2 * pool + count, 2 * count, CalcShare(pool, count);
    assert a == b * s + a % b;
    assert b * s == 2 * (count * s);
  }

  /**
   * Each achieved tier pays its role's eligible staff equal shares that miss its pool by at most
   * half a paisa each; a tier not achieved pays nothing, and neither depends on the other tiers.
   */
  lemma TiersPayTheirPools(revenue: int, tiers: seq<Tier>, staff: seq<Staff>, periodEnd: int, key: string -> string,
      i: nat)
    requires i < |tiers|
    ensures var r := RoleBreakdown(revenue, tiers, staff, periodEnd, key)[i];
            && (r.achieved <==> revenue >= tiers[i].targetAmount)
            && (!r.achieved ==> r.pool == 0 && r.share == 0)
            && (r.achieved && r.eligible > 0 ==> SharesNearPool(r.pool, r.eligible, r.share))
            && (r.eligible == 0 ==> r.share == 0)
            && [r.(tierIndex := 0)] == RoleBreakdown(revenue, [tiers[i]], staff, periodEnd, key)
  {
    hide CalcShare, CalcRewardPool, SharesNearPool;
    var r := RowFor(revenue, tiers[i], i, staff, periodEnd, key);
    if r.achieved && r.eligible > 0 { ShareIsNearest(r.pool, r.eligible); }
    NoStaffNoShare(r.pool);
  }

  lemma NoStaffNoShare(pool: int)
    ensures CalcShare(pool, 0) == 0
  {}
}
