/**
 * Whom the reminder job writes to, and how a reminder moves on (src/services/reminder-auto-whatsapp.ts:39-134,
 * reminder-schedule.ts:44-117, reminder-job.service.ts:72-155).
 */
module ReminderProperties {
  import opened Wrappers
  import opened JsText
  import opened Calendar
  import opened ReminderSchedule
  import opened ReminderJob

  // ---- Status and dates ----

  function StatusRank(s: Status): nat {
    match s
    case UPCOMING => 0
    case DUE => 1
    case OVERDUE => 2
    case _ => 3
  }

  /** As days pass a due date is upcoming, then due, then overdue; on its own day it is due. */
  lemma StatusAdvances(due: Date, leadDays: int, today: int, later: int)
    requires today <= later
    ensures StatusRank(ComputeStatus(due, leadDays, today)) <= StatusRank(ComputeStatus(due, leadDays, later)) <= 2
    ensures ComputeStatus(due, leadDays, DayOf(due)) == DUE
    ensures leadDays <= 0 && later > DayOf(due) ==> ComputeStatus(due, leadDays, later) == OVERDUE
    ensures leadDays <= 0 && today < DayOf(due) ==> ComputeStatus(due, leadDays, today) == UPCOMING
  {
    hide DayOf;
  }

  /** A week on, or the same day of the month one, three, six or twelve months on, the last when it has no such day. */
  lemma NextDueKeepsDay(d: Date, f: Frequency)
    requires d.Valid() && f != CUSTOM
    ensures var next, months := NextDueDate(d, f).value, map[QUARTERLY := 3, BIANNUAL := 6, YEARLY := 12];
            if f == WEEKLY then DayOf(next) == DayOf(d) + 7
            else
              && next.index == d.index + (if f in months then months[f] else 1)
              && (d.day <= MonthLength(next.index) ==> next.day == d.day)
              && (d.day > MonthLength(next.index) ==> next.day == MonthLength(next.index))
  {
    hide MonthStart, MonthLength, MonthOf;
    if f == WEEKLY { NextWeek(d); }
  }

  lemma NextWeek(d: Date)
    requires d.Valid()
    ensures DayOf(NewDate(d.Year(), d.Month() - 1, d.day + 7)) == DayOf(d) + 7
  {
    hide MonthStart, MonthLength, MonthOf;
    assert 12 * d.Year() + d.Month() - 1 == d.index;
  }

  const NewYear1970 := Date(EPOCH_MONTH, 1)

  lemma Epoch()
    ensures DayOf(NewYear1970) == 0 && NewYear1970.Year() == 1970 && NewYear1970.Month() == 1 && NewYear1970.Valid()
  {
    assert MonthStart(EPOCH_MONTH) == 0;
  }

  lemma Digits1970()
    ensures IntText(1970) == [49, 57, 55, 48] && Decimal(1) == [49] && Pad2(1) == [48, 49]
  {
    assert Decimal(19) == [49] + [57] && Decimal(197) == Decimal(19) + [55] && Decimal(1970) == Decimal(197) + [48];
  }

  lemma FirstWeek()
    ensures WeekYear(0) == 1970 && WeekNumber(0) == 1
  {
    hide CivilOf, MonthStart, DayOf;
    Epoch();
    CivilRoundTrip(NewYear1970);
    assert ThursdayOf(0) == 0;
    YearStarts();
  }

  lemma YearStarts()
    ensures DayFromYear(1970) == 0
  {}

  /** The keys of 1 January 1970: 1970-01, 1970-Q1, 1970-H1 and 1970. */
  lemma KeysRead()
    ensures PeriodKey(NewYear1970, MONTHLY) == [49, 57, 55, 48, DASH, 48, 49]
    ensures PeriodKey(NewYear1970, QUARTERLY) == [49, 57, 55, 48, DASH, 81, 49]
    ensures PeriodKey(NewYear1970, BIANNUAL) == [49, 57, 55, 48, DASH, 72, 49]
    ensures PeriodKey(NewYear1970, YEARLY) == [49, 57, 55, 48]
  {
    Epoch();
    Digits1970();
    hide IntText, Decimal, Pad2, DayOf, MonthStart;
  }

  /** And 1970-W01, the day being a Thursday. */
  lemma WeekKeyReads()
    ensures PeriodKey(NewYear1970, WEEKLY) == [49, 57, 55, 48, DASH, 87, 48, 49]
  {
    Epoch();
    Digits1970();
    FirstWeek();
    hide IntText, Pad2, DayOf, WeekYear, WeekNumber;
    assert Week(NewYear1970) == 1;
    hide Week;
    assert PeriodKey(NewYear1970, WEEKLY) == IntText(1970) + ([DASH, 87] + Pad2(1));
  }

  /** And CUSTOM-1970-01-01. */
  lemma CustomKeyReads()
    ensures PeriodKey(NewYear1970, CUSTOM) ==
            [67, 85, 83, 84, 79, 77, DASH, 49, 57, 55, 48, DASH, 48, 49, DASH, 48, 49]
  {
    Epoch();
    Digits1970();
    hide IntText, Pad2, DayOf;
    assert DayText(NewYear1970) == [49, 57, 55, 48] + ([DASH] + ([48, 49] + ([DASH] + [48, 49])));
    hide DayText;
  }

  // ---- Who is written to ----

  /** The live balance of its invoice decides; a reminder without one goes by the amount it stores. */
  predicate OwesMoreThan(r: Reminder, env: Env, paise: int) {
    if r.invoiceId.Some? && r.invoiceId.value in env.live then env.live[r.invoiceId.value] > paise
    else if r.outstandingAmount.Some? then r.outstandingAmount.value > paise
    else 0 > paise
  }

  /** Open, due within the lead days, reachable, not written to in this period, and, for a payment, owed for. */
  predicate Awaits(r: Reminder, env: Env) {
    && r.status != COMPLETED && r.status != DISMISSED
    && DayOf(r.dueDate) <= env.today + (if env.leadDays > 0 then env.leadDays else 0)
    && !Blank(r.phone) && r.lastMessageSentAt == None && !r.whatsappSent
    && (r.kind == PAYMENT ==> OwesMoreThan(r, env, 1))
  }

  lemma QualifiesIff(r: Reminder, env: Env)
    ensures Qualifies(WithFreshStatus(r, env), env) <==> Awaits(r, env)
  {
    hide Blank, DayOf;
  }

  lemma {:induction false} SelectedIsStored(rs: seq<Reminder>, j: nat, env: Env) returns (i: nat)
    requires j < |Select(rs, env)|
    ensures i < |rs| && Select(rs, env)[j] == WithFreshStatus(rs[i], env) && Qualifies(WithFreshStatus(rs[i], env), env)
  {
    hide Qualifies;
    var first := Qualifies(WithFreshStatus(rs[0], env), env);
    if j == 0 && first {
      i := 0;
    } else {
      var k := SelectedIsStored(rs[1..], if first then j - 1 else j, env);
      i := k + 1;
    }
  }

  /** A reminder is selected if and only if it awaits a message. */
  lemma SelectedIff(rs: seq<Reminder>, i: nat, env: Env)
    requires DistinctIds(rs) && i < |rs|
    ensures (exists j :: 0 <= j < |Select(rs, env)| && Select(rs, env)[j].id == rs[i].id) <==> Awaits(rs[i], env)
  {
    hide Qualifies, Awaits, Select;
    QualifiesIff(rs[i], env);
    if Awaits(rs[i], env) {
      var j := SelectsQualifying(rs, i, env);
    }
    if j :| 0 <= j < |Select(rs, env)| && Select(rs, env)[j].id == rs[i].id {
      var k := SelectedIsStored(rs, j, env);
      assert rs[k].id == rs[i].id;
      assert k == i;
    }
  }

  /**
   * A payment reminder whose invoice has a live balance of at most one paisa gets no message in any series of runs,
   * whatever amount it stores; one without a live balance gets none while it stores at most that.
   */
  lemma PaidGetsNoMessage(rows: seq<Reminder>, i: nat, runs: seq<nat -> Outcome>, env: Env)
    requires DistinctIds(rows) && i < |rows| && rows[i].kind == PAYMENT
    requires var r := rows[i];
             if r.invoiceId.Some? && r.invoiceId.value in env.live then env.live[r.invoiceId.value] <= 1
             else r.outstandingAmount.Some? ==> r.outstandingAmount.value <= 1
    ensures MessagesIn(rows, runs, Some(rows[i].id), env) == 0
  {
    hide Budget, MessagesIn, DistinctIds;
    QualifiesIff(rows[i], env);
    BudgetIsPositive(rows[i], env);
    BudgetOfId(rows, i, env);
    NoBudgetNoMessages(rows, runs, rows[i].id, env);
  }

  /** One that is closed, already written to, without a phone number or not yet due gets none either. */
  lemma OthersGetNoMessage(rows: seq<Reminder>, i: nat, runs: seq<nat -> Outcome>, env: Env)
    requires DistinctIds(rows) && i < |rows| && !Awaits(rows[i], env)
    ensures MessagesIn(rows, runs, Some(rows[i].id), env) == 0
  {
    hide Budget, MessagesIn, DistinctIds, Awaits;
    QualifiesIff(rows[i], env);
    BudgetIsPositive(rows[i], env);
    BudgetOfId(rows, i, env);
    NoBudgetNoMessages(rows, runs, rows[i].id, env);
  }

  // ---- What a send leaves ----

  predicate OwesExactly(r: Reminder, env: Env, paise: int) {
    OwesMoreThan(r, env, paise - 1) && !OwesMoreThan(r, env, paise)
  }

  /**
   * After a send a payment reminder is open again in its next period: due at the next due date, named by its key,
   * followed by the date after, its status fresh, unsent, and storing the balance it was sent for.
   */
  lemma SentPaymentMovesOn(r: Reminder, env: Env)
    requires r.kind == PAYMENT && Awaits(r, env)
    ensures var sent := AfterSend(WithFreshStatus(r, env), env);
            var f := if r.frequency == CUSTOM then MONTHLY else r.frequency;
            && NextDueDate(r.dueDate, f).Some? && NextDueDate(r.dueDate, f).value == sent.dueDate
            && PeriodIndex(sent.dueDate, f) == PeriodIndex(r.dueDate, f) + 1
            && sent.periodKey == Some(PeriodKey(sent.dueDate, f))
            && sent.nextDueDate.Some? && sent.nextDueDate.value == NextDueDate(sent.dueDate, f).value
            && sent.status == ComputeStatus(sent.dueDate, env.leadDays, env.today)
            && sent.lastMessageSentAt == None && !sent.whatsappSent
            && sent.outstandingAmount.Some? && OwesExactly(r, env, sent.outstandingAmount.value)
            && sent == r.(dueDate := sent.dueDate, nextDueDate := sent.nextDueDate, periodKey := sent.periodKey,
                          status := sent.status, outstandingAmount := sent.outstandingAmount,
                          lastMessageSentAt := None, whatsappSent := false)
  {
    hide PeriodKey, NextDueDate, PeriodIndex, ComputeStatus, DayOf, Blank;
    NextDueIsNextPeriod(r.dueDate, if r.frequency == CUSTOM then MONTHLY else r.frequency);
  }

  /** After a send a service reminder is marked as sent for its period and is otherwise as it was. */
  lemma SentServiceIsMarked(r: Reminder, env: Env)
    requires r.kind == SERVICE && Awaits(r, env)
    ensures var sent := AfterSend(WithFreshStatus(r, env), env);
            && sent.whatsappSent && sent.lastMessageSentAt == Some(env.now)
            && sent.periodKey ==
               Some(if r.periodKey.Some? then r.periodKey.value else PeriodKey(r.dueDate, r.frequency))
            && sent == r.(status := ComputeStatus(r.dueDate, env.leadDays, env.today), periodKey := sent.periodKey,
                          whatsappSent := true, lastMessageSentAt := Some(env.now))
  {
    hide PeriodKey, ComputeStatus, DayOf, Blank;
  }
}
