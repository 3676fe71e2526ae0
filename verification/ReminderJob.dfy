/**
 * The reminder job and the choice of reminders to send (src/services/reminder-job.service.ts,
 * reminder-auto-whatsapp.ts).
 */
module ReminderJob {
  import opened Wrappers
  import opened JsText
  import opened Calendar
  import opened ReminderSchedule

  type ValidDate = d: Date | d.Valid() witness Date(EPOCH_MONTH, 1)

  datatype Kind = SERVICE | PAYMENT

  datatype Reminder = Reminder(
    id: string, kind: Kind, phone: Text, frequency: Frequency, dueDate: ValidDate,
    nextDueDate: Option<ValidDate>, periodKey: Option<Text>, status: Status,
    whatsappSent: bool, lastMessageSentAt: Option<int>, invoiceId: Option<string>, outstandingAmount: Option<int>)

  /** What one run of the job sees: the lead days, live invoice balances in paise, the day and the instant. */
  datatype Env = Env(leadDays: int, live: map<string, int>, today: int, now: int)

  /** A send attempt ends in one of three ways; the message went out in the last two. */
  datatype Outcome = SendFailed | SaveFailed | Saved

  datatype JobResult = JobResult(attempted: int, sent: int, skippedPaid: int, skippedDuplicate: int, failed: int,
      advanced: int)

  // ---- Selection ----

  function Outstanding(r: Reminder, env: Env): int {
    if r.invoiceId.Some? && r.invoiceId.value in env.live then env.live[r.invoiceId.value]
    else if r.outstandingAmount.Some? then r.outstandingAmount.value
    else 0
  }

  predicate AlreadySent(r: Reminder) {
    r.lastMessageSentAt.Some? || r.whatsappSent
  }

  function WithFreshStatus(r: Reminder, env: Env): Reminder {
    if r.status == COMPLETED || r.status == DISMISSED then r
    else r.(status := ComputeStatus(r.dueDate, env.leadDays, env.today))
  }

  predicate Qualifies(r: Reminder, env: Env) {
    && (r.status == DUE || r.status == OVERDUE)
    && !Blank(r.phone)
    && !AlreadySent(r)
    && (r.kind == PAYMENT ==> Outstanding(r, env) > 1)
  }

  function Select(rs: seq<Reminder>, env: Env): seq<Reminder> {
    if rs == [] then []
    else
      var r := WithFreshStatus(rs[0], env);
      (if Qualifies(r, env) then [r] else []) + Select(rs[1..], env)
  }

  // ---- One send ----

  function MarkSent(r: Reminder, sentAt: int): Reminder {
    r.(periodKey := Some(if r.periodKey.Some? then r.periodKey.value else PeriodKey(r.dueDate, r.frequency)),
       whatsappSent := true, lastMessageSentAt := Some(sentAt))
  }

  /** The reminder moved on to its next period, open again; nothing for SERVICE or a settled balance. */
  function Advance(r: Reminder, env: Env, outstanding: int): (a: Option<Reminder>)
    ensures a.Some? <==> r.kind == PAYMENT && outstanding > 1
  {
    if r.kind != PAYMENT || outstanding <= 1 then None
    else
      var f := if r.frequency == CUSTOM then MONTHLY else r.frequency;
      var newDue := NextDueDate(r.dueDate, f).value;
      Some(r.(dueDate := newDue,
              nextDueDate := Some(NextDueDate(newDue, f).value),
              periodKey := Some(PeriodKey(newDue, f)),
              status := ComputeStatus(newDue, env.leadDays, env.today),
              outstandingAmount := Some(outstanding),
              lastMessageSentAt := None, whatsappSent := false))
  }

  function AfterSend(r: Reminder, env: Env): Reminder {
    var marked := MarkSent(r, env.now);
    var amount := Outstanding(r, env);
    if r.kind == PAYMENT then
      var advanced := Advance(marked, env, amount);
      if advanced.Some? then advanced.value
      else if amount <= 1 then marked.(status := COMPLETED, outstandingAmount := Some(0))
      else marked
    else marked
  }

  // ---- The table of stored reminders ----

  function IndexOf(rows: seq<Reminder>, id: string): (i: nat)
    ensures i <= |rows|
    ensures i < |rows| ==> rows[i].id == id
    ensures forall j :: 0 <= j < i ==> rows[j].id != id
  {
    if rows == [] then 0 else if rows[0].id == id then 0 else 1 + IndexOf(rows[1..], id)
  }

  /** Save by id: replace the row, or add one. */
  function SaveRow(rows: seq<Reminder>, next: Reminder): seq<Reminder> {
    var i := IndexOf(rows, next.id);
    if i < |rows| then rows[i := next] else rows + [next]
  }

  function RunFrom(rows: seq<Reminder>, candidates: seq<Reminder>, outcomes: nat -> Outcome, k: nat,
      env: Env): seq<Reminder>
    requires k <= |candidates|
    decreases |candidates| - k
  {
    if k == |candidates| then rows
    else
      var next := if outcomes(k) == Saved then SaveRow(rows, AfterSend(candidates[k], env)) else rows;
      RunFrom(next, candidates, outcomes, k + 1, env)
  }

  /** The stored reminders after one run over the whole table. */
  function Run(rows: seq<Reminder>, outcomes: nat -> Outcome, env: Env): seq<Reminder> {
    RunFrom(rows, Select(rows, env), outcomes, 0, env)
  }

  function Count(outcomes: nat -> Outcome, n: nat, o: Outcome): (c: nat)
    ensures c <= n
  {
    if n == 0 then 0 else Count(outcomes, n - 1, o) + if outcomes(n - 1) == o then 1 else 0
  }

  /** PAYMENT candidates whose message went out, saved or not. */
  function Advanced(candidates: seq<Reminder>, outcomes: nat -> Outcome, n: nat): nat
    requires n <= |candidates|
  {
    if n == 0 then 0
    else Advanced(candidates, outcomes, n - 1) +
         if outcomes(n - 1) != SendFailed && candidates[n - 1].kind == PAYMENT then 1 else 0
  }

  lemma {:induction false} SelectQualifies(rs: seq<Reminder>, env: Env)
    ensures forall r :: r in Select(rs, env) ==> Qualifies(r, env)
    ensures forall r :: r in Select(rs, env) ==> exists i :: 0 <= i < |rs| && r == WithFreshStatus(rs[i], env)
  {
    if rs != [] {
      SelectQualifies(rs[1..], env);
      forall r | r in Select(rs, env)
        ensures Qualifies(r, env) && exists i :: 0 <= i < |rs| && r == WithFreshStatus(rs[i], env)
      {
        if r in Select(rs[1..], env) {
          var i :| 0 <= i < |rs[1..]| && r == WithFreshStatus(rs[1..][i], env);
          assert r == WithFreshStatus(rs[i + 1], env);
        } else {
          assert r == WithFreshStatus(rs[0], env);
        }
      }
    }
  }

  /** What is done to a reminder once its message is out: mark it, then move a PAYMENT one on or close it. */
  method MoveOn(reminder: Reminder, outstanding: int, env: Env) returns (next: Reminder, moved: bool)
    requires outstanding == Outstanding(reminder, env)
    ensures next == AfterSend(reminder, env)
    ensures moved <==> reminder.kind == PAYMENT && outstanding > 1
  {
    hide Outstanding;
    next, moved := MarkSent(reminder, env.now), false;
    if reminder.kind == PAYMENT {
      var advanced := Advance(next, env, outstanding);
      if advanced.Some? {
        next, moved := advanced.value, true;
      } else if outstanding <= 1 {
        next := next.(status := COMPLETED, outstandingAmount := Some(0));
      }
    }
  }

  class ReminderTable {
    var rows: seq<Reminder>

    constructor (initial: seq<Reminder>)
      ensures rows == initial
    {
      rows := initial;
    }

    method Save(next: Reminder)
      modifies this
      ensures rows == SaveRow(old(rows), next)
    {
      var i := 0;
      while i < |rows| && rows[i].id != next.id
        invariant 0 <= i <= |rows|
        invariant rows == old(rows)
        invariant forall j :: 0 <= j < i ==> rows[j].id != next.id
      {
        i := i + 1;
      }
      assert i == IndexOf(rows, next.id);
      if i < |rows| {
        rows := rows[i := next];
      } else {
        rows := rows + [next];
      }
    }

    /**
     * processOrganizationReminders: choose candidates from the loaded reminders, then send, move on
     * and save one by one. Every attempt is counted once, and the two skip branches are never taken.
     */
    method Process(enabled: bool, reminders: seq<Reminder>, outcomes: nat -> Outcome, env: Env)
        returns (result: JobResult)
      modifies this
      ensures !enabled ==> rows == old(rows) && result == JobResult(0, 0, 0, 0, 0, 0)
      ensures enabled ==>
        var candidates := Select(reminders, env);
        && rows == RunFrom(old(rows), candidates, outcomes, 0, env)
        && result == JobResult(|candidates|, Count(outcomes, |candidates|, Saved), 0, 0,
                               |candidates| - Count(outcomes, |candidates|, Saved),
                               Advanced(candidates, outcomes, |candidates|))
    {
      hide AfterSend, Blank, SaveRow, Outstanding, Select;
      result := JobResult(0, 0, 0, 0, 0, 0);
      if !enabled { return; }
      var candidates := Select(reminders, env);
      ghost var chosen := candidates;
      SelectQualifies(reminders, env);
      result := result.(attempted := |candidates|);
      var i := 0;
      while i < |candidates|
        invariant 0 <= i <= |candidates| == |chosen|
        invariant forall j :: i <= j < |chosen| ==> candidates[j] == chosen[j]
        invariant RunFrom(old(rows), chosen, outcomes, 0, env) == RunFrom(rows, chosen, outcomes, i, env)
        invariant result.attempted == |candidates| && result.skippedPaid == 0 && result.skippedDuplicate == 0
        invariant result.sent == Count(outcomes, i, Saved) && result.failed == i - result.sent
        invariant result.advanced == Advanced(chosen, outcomes, i)
      {
        var reminder := candidates[i];
        assert reminder == chosen[i] && reminder in chosen;
        var outstanding := Outstanding(reminder, env);
        if reminder.kind == PAYMENT && outstanding <= 1 {
          result := result.(skippedPaid := result.skippedPaid + 1);
        } else if reminder.lastMessageSentAt.Some? || reminder.whatsappSent {
          result := result.(skippedDuplicate := result.skippedDuplicate + 1);
        } else if outcomes(i) == SendFailed {
          result := result.(failed := result.failed + 1);
        } else {
          var next, moved := MoveOn(reminder, outstanding, env);
          if moved { result := result.(advanced := result.advanced + 1); }
          if outcomes(i) == SaveFailed {
            result := result.(failed := result.failed + 1);
          } else {
            Save(next);
            candidates := candidates[i := reminder.(whatsappSent := true, lastMessageSentAt := Some(env.now))];
            result := result.(sent := result.sent + 1);
          }
        }
        i := i + 1;
      }
    }
  }

  // ---- Repeated runs ----

  predicate DistinctIds(rs: seq<Reminder>) {
    forall i, j :: 0 <= i < j < |rs| ==> rs[i].id != rs[j].id
  }

  /** The messages a reminder can still cause at a fixed moment. */
  function Budget(r: Reminder, env: Env): nat {
    var horizon := env.today + if env.leadDays > 0 then env.leadDays else 0;
    if !Qualifies(WithFreshStatus(r, env), env) then 0
    else if r.kind == SERVICE then 1
    else if DayOf(r.dueDate) > horizon then 0
    else (horizon - DayOf(r.dueDate)) / 7 + 1
  }

  /** A sum over all reminders, or over the one with a given id. */
  predicate Counts(only: Option<string>, r: Reminder) {
    only.None? || only.value == r.id
  }

  function TotalBudget(rs: seq<Reminder>, only: Option<string>, env: Env): nat {
    if rs == [] then 0
    else (if Counts(only, rs[0]) then Budget(rs[0], env) else 0) + TotalBudget(rs[1..], only, env)
  }

  function SavedOf(candidates: seq<Reminder>, outcomes: nat -> Outcome, k: nat, only: Option<string>): nat
    decreases |candidates| - k
  {
    if k >= |candidates| then 0
    else
      (if outcomes(k) == Saved && Counts(only, candidates[k]) then 1 else 0)
      + SavedOf(candidates, outcomes, k + 1, only)
  }

  lemma BudgetIsPositive(r: Reminder, env: Env)
    ensures Qualifies(WithFreshStatus(r, env), env) <==> Budget(r, env) >= 1
  {}

  /** Each saved send spends at least one message of the budget, and a SERVICE reminder spends its last. */
  lemma SendSpends(r: Reminder, env: Env)
    requires Qualifies(WithFreshStatus(r, env), env)
    ensures Budget(AfterSend(WithFreshStatus(r, env), env), env) < Budget(r, env)
    ensures r.kind == PAYMENT ==> DayOf(AfterSend(WithFreshStatus(r, env), env).dueDate) >= DayOf(r.dueDate) + 7
  {
    hide PeriodKey, NextDueDate, MonthStart, MonthLength, Blank;
    var c := WithFreshStatus(r, env);
    if r.kind == PAYMENT {
      NextDueIsNextPeriod(r.dueDate, if r.frequency == CUSTOM then MONTHLY else r.frequency);
      var a := AfterSend(c, env);
      assert DayOf(a.dueDate) >= DayOf(r.dueDate) + 7;
    }
  }

  lemma {:induction false} UpdateBudget(rs: seq<Reminder>, i: nat, x: Reminder, only: Option<string>, env: Env)
    requires i < |rs| && x.id == rs[i].id
    ensures TotalBudget(rs[i := x], only, env) ==
            TotalBudget(rs, only, env) + if Counts(only, x) then Budget(x, env) - Budget(rs[i], env) else 0
  {
    hide Budget;
    if i == 0 {
      assert rs[i := x][1..] == rs[1..];
    } else {
      UpdateBudget(rs[1..], i - 1, x, only, env);
      assert rs[i := x][1..] == rs[1..][i - 1 := x];
    }
  }

  /** The candidates still to come are the stored rows as they are now. */
  ghost predicate Pending(rows: seq<Reminder>, candidates: seq<Reminder>, k: nat, env: Env) {
    && DistinctIds(rows) && DistinctIds(candidates)
    && forall j :: k <= j < |candidates| ==> Stored(rows, candidates[j], env)
  }

  ghost predicate Stored(rows: seq<Reminder>, c: Reminder, env: Env) {
    var i := IndexOf(rows, c.id);
    i < |rows| && c == WithFreshStatus(rows[i], env) && Qualifies(c, env)
  }

  lemma SaveKeepsPending(rows: seq<Reminder>, candidates: seq<Reminder>, k: nat, only: Option<string>, env: Env)
    requires Pending(rows, candidates, k, env) && k < |candidates|
    ensures var rows' := SaveRow(rows, AfterSend(candidates[k], env));
            && Pending(rows', candidates, k + 1, env)
            && TotalBudget(rows', only, env) + (if Counts(only, candidates[k]) then 1 else 0) <=
               TotalBudget(rows, only, env)
  {
    hide AfterSend, Budget, Qualifies, WithFreshStatus;
    var c := candidates[k];
    assert Stored(rows, c, env);
    AfterSendKeepsId(c, env);
    var i := IndexOf(rows, c.id);
    var next := AfterSend(c, env);
    var rows' := SaveRow(rows, next);
    assert rows' == rows[i := next];
    SendSpends(rows[i], env);
    UpdateBudget(rows, i, next, only, env);
    forall j | k + 1 <= j < |candidates| ensures Stored(rows', candidates[j], env) {
      assert Stored(rows, candidates[j], env);
      assert candidates[k].id != candidates[j].id;
      IndexIsUnique(rows', candidates[j].id, IndexOf(rows, candidates[j].id));
    }
  }

  lemma AfterSendKeepsId(c: Reminder, env: Env)
    ensures AfterSend(c, env).id == c.id
  {}

  lemma IndexIsUnique(rows: seq<Reminder>, id: string, i: nat)
    requires DistinctIds(rows) && i < |rows| && rows[i].id == id
    ensures IndexOf(rows, id) == i
  {}

  lemma {:induction false} RunSpends(
    rows: seq<Reminder>, candidates: seq<Reminder>, outcomes: nat -> Outcome, k: nat, only: Option<string>, env: Env)
    requires k <= |candidates| && Pending(rows, candidates, k, env)
    ensures var end := RunFrom(rows, candidates, outcomes, k, env);
            && DistinctIds(end)
            && TotalBudget(end, only, env) + SavedOf(candidates, outcomes, k, only) <= TotalBudget(rows, only, env)
    decreases |candidates| - k
  {
    hide Stored, AfterSend, SaveRow, Counts;
    if k < |candidates| {
      if outcomes(k) == Saved {
        SaveKeepsPending(rows, candidates, k, only, env);
        RunSpends(SaveRow(rows, AfterSend(candidates[k], env)), candidates, outcomes, k + 1, only, env);
      } else {
        RunSpends(rows, candidates, outcomes, k + 1, only, env);
      }
    }
  }

  lemma ConsPending(rows: seq<Reminder>, r: Reminder, tail: seq<Reminder>, env: Env)
    requires Stored(rows, r, env) && Pending(rows, tail, 0, env)
    requires forall c :: c in tail ==> c.id != r.id
    ensures Pending(rows, [r] + tail, 0, env)
  {
    hide Stored;
    var all := [r] + tail;
    forall j | 0 <= j < |all| ensures Stored(rows, all[j], env) {
      if j > 0 { assert all[j] == tail[j - 1]; }
    }
    forall i, j | 0 <= i < j < |all| ensures all[i].id != all[j].id {
      assert all[j] == tail[j - 1] && tail[j - 1] in tail;
      if i > 0 { assert all[i] == tail[i - 1]; }
    }
  }

  lemma {:induction false} SelectPending(rows: seq<Reminder>, rs: seq<Reminder>, env: Env)
    requires DistinctIds(rows)
    requires |rs| <= |rows| && rs == rows[|rows| - |rs|..]
    ensures Pending(rows, Select(rs, env), 0, env)
    ensures forall c :: c in Select(rs, env) ==> |rows| - |rs| <= IndexOf(rows, c.id) < |rows|
  {
    hide Qualifies, IndexOf;
    if rs != [] {
      var n := |rows| - |rs|;
      var r := WithFreshStatus(rs[0], env);
      var tail := Select(rs[1..], env);
      SelectPending(rows, rs[1..], env);
      IndexIsUnique(rows, r.id, n);
      if Qualifies(r, env) {
        assert Select(rs, env) == [r] + tail;
        ConsPending(rows, r, tail, env);
      }
    }
  }

  function RunTimes(rows: seq<Reminder>, runs: seq<nat -> Outcome>, env: Env): seq<Reminder>
    decreases |runs|
  {
    if runs == [] then rows else RunTimes(Run(rows, runs[0], env), runs[1..], env)
  }

  /** Sends saved over a series of runs, of one reminder or of all. */
  function SavedIn(rows: seq<Reminder>, runs: seq<nat -> Outcome>, only: Option<string>, env: Env): nat
    decreases |runs|
  {
    if runs == [] then 0
    else SavedOf(Select(rows, env), runs[0], 0, only) + SavedIn(Run(rows, runs[0], env), runs[1..], only, env)
  }

  /** Whatever sends and saves fail, repeating the job at one moment saves no more sends than the budget. */
  lemma {:induction false} RepeatedRunsAreBounded(
    rows: seq<Reminder>, runs: seq<nat -> Outcome>, only: Option<string>, env: Env)
    requires DistinctIds(rows)
    ensures DistinctIds(RunTimes(rows, runs, env))
    ensures TotalBudget(RunTimes(rows, runs, env), only, env) + SavedIn(rows, runs, only, env) <=
        TotalBudget(rows, only, env)
    decreases |runs|
  {
    if runs != [] {
      SelectPending(rows, rows, env);
      RunSpends(rows, Select(rows, env), runs[0], 0, only, env);
      RepeatedRunsAreBounded(Run(rows, runs[0], env), runs[1..], only, env);
    }
  }

  lemma {:induction false} BudgetOfId(rs: seq<Reminder>, i: nat, env: Env)
    requires DistinctIds(rs) && i < |rs|
    ensures TotalBudget(rs, Some(rs[i].id), env) == Budget(rs[i], env)
  {
    hide Budget;
    if i == 0 { NoBudget(rs[1..], rs[0].id, env); } else { BudgetOfId(rs[1..], i - 1, env); }
  }

  lemma {:induction false} NoBudget(rs: seq<Reminder>, id: string, env: Env)
    requires forall j :: 0 <= j < |rs| ==> rs[j].id != id
    ensures TotalBudget(rs, Some(id), env) == 0
  {
    hide Budget;
    if rs != [] { NoBudget(rs[1..], id, env); }
  }

  // ---- Messages that went out, saved or not ----

  function MessagesOf(candidates: seq<Reminder>, outcomes: nat -> Outcome, k: nat, only: Option<string>): nat
    decreases |candidates| - k
  {
    if k >= |candidates| then 0
    else
      (if outcomes(k) != SendFailed && Counts(only, candidates[k]) then 1 else 0)
      + MessagesOf(candidates, outcomes, k + 1, only)
  }

  /** Messages sent over a series of runs. */
  function MessagesIn(rows: seq<Reminder>, runs: seq<nat -> Outcome>, only: Option<string>, env: Env): nat
    decreases |runs|
  {
    if runs == [] then 0
    else MessagesOf(Select(rows, env), runs[0], 0, only) + MessagesIn(Run(rows, runs[0], env), runs[1..], only, env)
  }

  function LostOf(candidates: seq<Reminder>, outcomes: nat -> Outcome, k: nat, only: Option<string>): nat
    decreases |candidates| - k
  {
    if k >= |candidates| then 0
    else
      (if outcomes(k) == SaveFailed && Counts(only, candidates[k]) then 1 else 0)
      + LostOf(candidates, outcomes, k + 1, only)
  }

  /** Messages sent whose reminder could not be saved afterwards. */
  function LostIn(rows: seq<Reminder>, runs: seq<nat -> Outcome>, only: Option<string>, env: Env): nat
    decreases |runs|
  {
    if runs == [] then 0
    else LostOf(Select(rows, env), runs[0], 0, only) + LostIn(Run(rows, runs[0], env), runs[1..], only, env)
  }

  lemma {:induction false} SavedOrLost(candidates: seq<Reminder>, outcomes: nat -> Outcome, k: nat,
      only: Option<string>)
    ensures MessagesOf(candidates, outcomes, k, only) ==
            SavedOf(candidates, outcomes, k, only) + LostOf(candidates, outcomes, k, only)
    decreases |candidates| - k
  {
    if k < |candidates| { SavedOrLost(candidates, outcomes, k + 1, only); }
  }

  lemma {:induction false} MessagesAreSavedOrLost(rows: seq<Reminder>, runs: seq<nat -> Outcome>,
      only: Option<string>, env: Env)
    ensures MessagesIn(rows, runs, only, env) == SavedIn(rows, runs, only, env) + LostIn(rows, runs, only, env)
    decreases |runs|
  {
    hide Run, Select;
    if runs != [] {
      SavedOrLost(Select(rows, env), runs[0], 0, only);
      MessagesAreSavedOrLost(Run(rows, runs[0], env), runs[1..], only, env);
    }
  }

  /**
   * The messages of one reminder over any series of runs at one moment: a PAYMENT reminder due by the horizon
   * gets at most one for each week up to it, a SERVICE reminder at most one, and one that is not due none,
   * beside one more for each time that saving it failed after its message had gone out.
   */
  lemma MessagesOfOneReminder(rows: seq<Reminder>, i: nat, runs: seq<nat -> Outcome>, env: Env)
    requires DistinctIds(rows) && i < |rows| && env.leadDays >= 0
    ensures var r, only := rows[i], Some(rows[i].id);
            var n := MessagesIn(rows, runs, only, env) - LostIn(rows, runs, only, env);
            var slack := env.today + env.leadDays - DayOf(r.dueDate);
            if slack < 0 then n == 0 else if r.kind == PAYMENT then n <= slack / 7 + 1 else n <= 1
  {
    hide MessagesIn, LostIn, SavedIn;
    RepeatedRunsAreBounded(rows, runs, Some(rows[i].id), env);
    BudgetOfId(rows, i, env);
    BudgetOfOne(rows[i], env);
    MessagesAreSavedOrLost(rows, runs, Some(rows[i].id), env);
  }

  const ALL_LOST: nat -> Outcome := k => SaveFailed

  function LostRuns(n: nat): seq<nat -> Outcome> {
    if n == 0 then [] else [ALL_LOST] + LostRuns(n - 1)
  }

  /** When no save succeeds the stored reminders stay as they are. */
  lemma {:induction false} NothingIsSaved(rows: seq<Reminder>, candidates: seq<Reminder>, k: nat, env: Env)
    requires k <= |candidates|
    ensures RunFrom(rows, candidates, ALL_LOST, k, env) == rows
    decreases |candidates| - k
  {
    if k < |candidates| { NothingIsSaved(rows, candidates, k + 1, env); }
  }

  lemma {:induction false} SendsOneOf(candidates: seq<Reminder>, j: nat, k: nat, id: string)
    requires k <= j < |candidates| && candidates[j].id == id
    ensures MessagesOf(candidates, ALL_LOST, k, Some(id)) >= 1
    decreases j - k
  {
    if k < j { SendsOneOf(candidates, j, k + 1, id); }
  }

  lemma {:induction false} SelectsQualifying(rs: seq<Reminder>, i: nat, env: Env) returns (j: nat)
    requires i < |rs| && Qualifies(WithFreshStatus(rs[i], env), env)
    ensures j < |Select(rs, env)| && Select(rs, env)[j] == WithFreshStatus(rs[i], env)
  {
    hide Qualifies;
    if i == 0 {
      j := 0;
    } else {
      var k := SelectsQualifying(rs[1..], i - 1, env);
      j := if Qualifies(WithFreshStatus(rs[0], env), env) then k + 1 else k;
    }
  }

  lemma {:induction false} LostRunsRepeat(rows: seq<Reminder>, i: nat, n: nat, env: Env)
    requires i < |rows| && Qualifies(WithFreshStatus(rows[i], env), env)
    ensures MessagesIn(rows, LostRuns(n), Some(rows[i].id), env) >= n
    decreases n
  {
    hide Select, Qualifies, RunFrom;
    if n > 0 {
      var j := SelectsQualifying(rows, i, env);
      SendsOneOf(Select(rows, env), j, 0, rows[i].id);
      NothingIsSaved(rows, Select(rows, env), 0, env);
      LostRunsRepeat(rows, i, n - 1, env);
      assert LostRuns(n)[1..] == LostRuns(n - 1);
    }
  }

  lemma {:induction false} NoneSelected(rs: seq<Reminder>, outcomes: nat -> Outcome, k: nat, id: string, env: Env)
    requires forall j :: 0 <= j < |rs| ==> rs[j].id != id
    ensures MessagesOf(rs, outcomes, k, Some(id)) == 0
    decreases |rs| - k
  {
    if k < |rs| { NoneSelected(rs, outcomes, k + 1, id, env); }
  }

  lemma {:induction false} NotAmongSelected(rs: seq<Reminder>, id: string, env: Env)
    requires TotalBudget(rs, Some(id), env) == 0
    ensures forall j :: 0 <= j < |Select(rs, env)| ==> Select(rs, env)[j].id != id
  {
    hide Qualifies, Budget;
    if rs != [] {
      BudgetIsPositive(rs[0], env);
      NotAmongSelected(rs[1..], id, env);
    }
  }

  lemma {:induction false} NoBudgetNoMessages(rows: seq<Reminder>, runs: seq<nat -> Outcome>, id: string, env: Env)
    requires DistinctIds(rows) && TotalBudget(rows, Some(id), env) == 0
    ensures MessagesIn(rows, runs, Some(id), env) == 0
    decreases |runs|
  {
    hide Select, RunFrom, TotalBudget, SavedOf, DistinctIds, Pending, MessagesOf;
    if runs != [] {
      NotAmongSelected(rows, id, env);
      NoneSelected(Select(rows, env), runs[0], 0, id, env);
      assert rows[|rows| - |rows|..] == rows;
      SelectPending(rows, rows, env);
      RunSpends(rows, Select(rows, env), runs[0], 0, Some(id), env);
      NoBudgetNoMessages(Run(rows, runs[0], env), runs[1..], id, env);
    }
  }

  ghost predicate AtMost(rows: seq<Reminder>, id: string, env: Env, most: nat) {
    forall runs: seq<nat -> Outcome> :: MessagesIn(rows, runs, Some(id), env) <= most
  }

  /** Some number bounds the messages of a reminder whatever fails. */
  ghost predicate Bounded(rows: seq<Reminder>, id: string, env: Env) {
    exists most: nat :: AtMost(rows, id, env, most)
  }

  /** Only a reminder that gets no message has such a bound: failing saves let any other go out again and again. */
  lemma BoundedIffNone(rows: seq<Reminder>, i: nat, env: Env)
    requires DistinctIds(rows) && i < |rows|
    ensures Bounded(rows, rows[i].id, env) <==> !Qualifies(WithFreshStatus(rows[i], env), env)
  {
    hide Qualifies, MessagesIn, DistinctIds;
    var id := rows[i].id;
    BudgetOfId(rows, i, env);
    BudgetIsPositive(rows[i], env);
    if Qualifies(WithFreshStatus(rows[i], env), env) {
      forall most: nat ensures !AtMost(rows, id, env, most) {
        LostRunsRepeat(rows, i, most + 1, env);
        assert MessagesIn(rows, LostRuns(most + 1), Some(id), env) > most;
      }
    } else {
      forall runs: seq<nat -> Outcome> ensures MessagesIn(rows, runs, Some(id), env) <= 0 {
        NoBudgetNoMessages(rows, runs, id, env);
      }
      assert AtMost(rows, id, env, 0);
    }
  }

  const DueToday := Reminder(
    "a", SERVICE, [49], MONTHLY, Date(EPOCH_MONTH, 1), None, None, UPCOMING, false, None, None, None)

  /** A service reminder due today, with a phone number: no number bounds its messages. */
  lemma MessagesCanRepeat()
    ensures var env := Env(7, map[], 0, 0);
            Qualifies(WithFreshStatus(DueToday, env), env) && !Bounded([DueToday], "a", env)
  {
    hide Bounded;
    var env := Env(7, map[], 0, 0);
    assert MonthStart(EPOCH_MONTH) == 0;
    assert Qualifies(WithFreshStatus(DueToday, env), env);
    BoundedIffNone([DueToday], 0, env);
  }

  lemma BudgetOfOne(r: Reminder, env: Env)
    requires env.leadDays >= 0
    ensures var slack := env.today + env.leadDays - DayOf(r.dueDate);
            Budget(r, env) <= if slack < 0 then 0 else if r.kind == PAYMENT then slack / 7 + 1 else 1
  {
    hide MonthStart, Blank;
  }

  const ALL_SAVED: nat -> Outcome := k => Saved

  function CleanRuns(rows: seq<Reminder>, n: nat, env: Env): seq<Reminder>
    decreases n
  {
    if n == 0 then rows else CleanRuns(Run(rows, ALL_SAVED, env), n - 1, env)
  }

  lemma {:induction false} NothingLeft(rs: seq<Reminder>, env: Env)
    ensures TotalBudget(rs, None, env) == 0 <==> Select(rs, env) == []
  {
    hide Budget, Qualifies;
    if rs != [] {
      BudgetIsPositive(rs[0], env);
      NothingLeft(rs[1..], env);
    }
  }

  lemma OneIsSaved(candidates: seq<Reminder>)
    requires candidates != []
    ensures SavedOf(candidates, ALL_SAVED, 0, None) >= 1
  {
    assert ALL_SAVED(0) == Saved;
  }

  /** With sends and saves succeeding, as many runs as the budget leave nothing to send. */
  lemma {:induction false} RunsGoQuiet(rows: seq<Reminder>, n: nat, env: Env)
    requires DistinctIds(rows) && TotalBudget(rows, None, env) <= n
    ensures Select(CleanRuns(rows, n, env), env) == []
    decreases n
  {
    hide Select, SavedOf, TotalBudget, RunFrom, DistinctIds, Pending;
    NothingLeft(rows, env);
    if n > 0 {
      assert rows[|rows| - |rows|..] == rows;
      SelectPending(rows, rows, env);
      RunSpends(rows, Select(rows, env), ALL_SAVED, 0, None, env);
      if Select(rows, env) != [] { OneIsSaved(Select(rows, env)); }
      RunsGoQuiet(Run(rows, ALL_SAVED, env), n - 1, env);
    }
  }
}
