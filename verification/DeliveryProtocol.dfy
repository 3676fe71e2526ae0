/**
 * Any number of callers of sendInspectionReport and any number of provider webhooks, every statement
 * a step of its own (src/modules/inspections/inspection-delivery.service.ts:59-263).
 */
module DeliveryProtocol {
  import opened Wrappers
  import opened Words
  import opened Delivery

  /** Where a caller stands; from Sending on it is the one that created row id. */
  datatype Pc =
    | Start
    | Checking
    | Inserting
    | Raced
    | Sending(id: nat)
    | Called(id: nat)
    | Recording(id: nat, status: SendStatus, providerId: string)
    | Reading(id: nat)
    | Catching(id: nat)
    | Done(id: nat)
    | Refused

  datatype Caller = Caller(request: Request, pc: Pc)

  /** One call of a channel's send function. */
  datatype Call = Call(request: Request, id: nat)

  /** A WhatsApp callback that passed its first look and has not written yet. */
  datatype Hook = Hook(id: nat, status: SendStatus, providerId: string, error: Option<string>)

  datatype State = State(table: Table, callers: map<nat, Caller>, calls: seq<Call>, hooks: set<Hook>)

  const Initial := State([], map[], [], {})

  datatype Action =
    | Begin(c: nat, request: Request)
    | FindExisting(c: nat, visible: bool)   // the caller's branches may hide the row
    | CheckReport(c: nat, ready: bool)      // finalized report, its document, the subscription
    | Insert(c: nat)
    | FindRaced(c: nat)
    | SkipProvider(c: nat)                  // no document, or the channel is not configured
    | CallProvider(c: nat)
    | Answer(c: nat, status: string, providerId: string)
    | Throw(c: nat)                         // the provider or a statement of the try block fails
    | Record(c: nat)
    | ReadBack(c: nat)
    | Fail(c: nat, message: string)
    | Abandon(c: nat)                       // the request dies at whatever point it had reached
    | HookArrives(id: nat, providerId: string, providerStatus: string, error: Option<string>)
    | HookWrites(hook: Hook)
    | EmailEvent(providerId: string, sendLogId: Option<nat>, eventType: string, error: Option<string>)

  predicate At(s: State, c: nat, pc: Pc) {
    c in s.callers && s.callers[c].pc == pc
  }

  function Go(s: State, c: nat, pc: Pc): State
    requires c in s.callers
  {
    s.(callers := s.callers[c := s.callers[c].(pc := pc)])
  }

  /** What a caller makes of a row it found under its key. */
  function Judge(s: State, c: nat, i: nat): State
    requires c in s.callers && i < |s.table|
  {
    Go(s, c, if s.table[i].request == s.callers[c].request then Done(i) else Refused)
  }

  /** One step of one caller; a step the caller is not ready for changes nothing. */
  function CallerStep(s: State, c: nat, a: Action): State
    requires c in s.callers
  {
    var r, pc := s.callers[c].request, s.callers[c].pc;
    var i := Find(s.table, r);
    match (a, pc)
    case (FindExisting(_, visible), Start) => if visible && i < |s.table| then Judge(s, c, i) else Go(s, c, Checking)
    case (CheckReport(_, ready), Checking) => Go(s, c, if ready then Inserting else Refused)
    case (Insert(_), Inserting) =>
      var made := Create(s.table, r);
      if made.Some? then Go(s.(table := made.value), c, Sending(|s.table|)) else Go(s, c, Raced)
    case (FindRaced(_), Raced) => if i < |s.table| then Judge(s, c, i) else Go(s, c, Refused)
    case (SkipProvider(_), Sending(id)) => Go(s, c, Catching(id))
    case (CallProvider(_), Sending(id)) => Go(s.(calls := s.calls + [Call(r, id)]), c, Called(id))
    case (Answer(_, status, providerId), Called(id)) => Go(s, c, Recording(id, Submitted(r, status), providerId))
    case (Throw(_), Called(id)) => Go(s, c, Catching(id))
    case (Throw(_), Recording(id, _, _)) => Go(s, c, Catching(id))
    case (Throw(_), Reading(id)) => Go(s, c, Catching(id))
    case (Record(_), Recording(id, status, providerId)) =>
      Go(s.(table := RecordSubmitted(s.table, id, status, providerId)), c, Reading(id))
    case (ReadBack(_), Reading(id)) => Go(s, c, Done(id))
    case (Fail(_, message), Catching(id)) => Go(s.(table := RecordFailed(s.table, id, message)), c, Done(id))
    case (Abandon(_), _) => if pc.Done? then s else Go(s, c, Refused)
    case _ => s
  }

  function Next(s: State, a: Action): State {
    match a
    case Begin(c, r) => if c in s.callers then s else s.(callers := s.callers[c := Caller(r, Start)])
    case HookArrives(id, providerId, providerStatus, error) =>
      if WhatsAppAccepts(s.table, id, providerId)
      then s.(hooks := s.hooks + {Hook(id, WhatsAppStatus(providerStatus), providerId, error)}) else s
    case HookWrites(h) =>
      if h in s.hooks
      then s.(hooks := s.hooks - {h}, table := WhatsAppWrite(s.table, h.id, h.status, h.providerId, h.error)) else s
    case EmailEvent(providerId, sendLogId, eventType, error) =>
      s.(table := EmailWrite(s.table, eventType, providerId, sendLogId, error))
    case _ => if a.c in s.callers then CallerStep(s, a.c, a) else s
  }

  function Run(s: State, actions: seq<Action>): State
    decreases |actions|
  {
    if actions == [] then s else Run(Next(s, actions[0]), actions[1..])
  }

  // ---- Rows only gain status ----

  function Rank(s: SendStatus): nat {
    match s case QUEUED => 0 case SENT => 1 case DELIVERED => 2 case FAILED => 3
  }

  /** Rows stay, with their request; a status never falls. */
  predicate Grows(t: Table, t': Table) {
    && |t| <= |t'|
    && forall i :: 0 <= i < |t| ==>
       && t'[i].request == t[i].request
       && Rank(t[i].status) <= Rank(t'[i].status)
       && (t[i].providerId.Some? ==> t'[i].providerId.Some?)
  }

  lemma CallerStepGrows(s: State, c: nat, a: Action)
    requires c in s.callers
    ensures Grows(s.table, CallerStep(s, c, a).table)
  {
  }

  lemma StepGrows(s: State, a: Action)
    ensures Grows(s.table, Next(s, a).table)
  {
    hide CallerStep;
    if !(a.Begin? || a.HookArrives? || a.HookWrites? || a.EmailEvent?) && a.c in s.callers {
      CallerStepGrows(s, a.c, a);
    }
  }

  lemma {:induction false} RunGrows(s: State, actions: seq<Action>)
    ensures Grows(s.table, Run(s, actions).table)
    decreases |actions|
  {
    hide Next;
    if actions != [] {
      StepGrows(s, actions[0]);
      RunGrows(Next(s, actions[0]), actions[1..]);
    }
  }

  /** A delivered row is overwritten by one thing only: the catch of the caller that created it. */
  lemma DeliveredIsLeftIff(s: State, a: Action, i: nat)
    requires i < |s.table| && s.table[i].status == DELIVERED
    ensures i < |Next(s, a).table|
    ensures Next(s, a).table[i].status != DELIVERED <==> a.Fail? && At(s, a.c, Catching(i))
  {
    StepGrows(s, a);
  }

  ghost predicate Reachable(s: State) {
    exists run :: Run(Initial, run) == s
  }

  lemma {:induction false} RunOneMore(s: State, actions: seq<Action>, a: Action)
    ensures Run(s, actions + [a]) == Next(Run(s, actions), a)
    decreases |actions|
  {
    hide Next;
    if actions == [] {
      assert Run(Next(s, a), [a][1..]) == Next(s, a);
    } else {
      assert (actions + [a])[1..] == actions[1..] + [a];
      RunOneMore(Next(s, actions[0]), actions[1..], a);
    }
  }

  lemma ReachableSteps(s: State, a: Action, s': State)
    requires Reachable(s) && Next(s, a) == s'
    ensures Reachable(s')
  {
    hide Next, Run;
    var run :| Run(Initial, run) == s;
    RunOneMore(Initial, run, a);
  }

  lemma NoSteps()
    ensures Reachable(Initial)
  {
    assert Run(Initial, []) == Initial;
  }

  function Alone(t: Table, r: Request, pc: Pc, calls: seq<Call>): State {
    State(t, map[0 := Caller(r, pc)], calls, {})
  }

  lemma SenderInserts(r: Request)
    ensures Reachable(Alone([Log(r, QUEUED, None, None)], r, Sending(0), []))
  {
    hide Reachable, Run;
    NoSteps();
    ReachableSteps(Initial, Begin(0, r), Alone([], r, Start, []));
    ReachableSteps(Alone([], r, Start, []), FindExisting(0, true), Alone([], r, Checking, []));
    ReachableSteps(Alone([], r, Checking, []), CheckReport(0, true), Alone([], r, Inserting, []));
    ReachableSteps(Alone([], r, Inserting, []), Insert(0), Alone([Log(r, QUEUED, None, None)], r, Sending(0), []));
  }

  lemma SenderCallsProvider(r: Request)
    ensures Reachable(Alone([Log(r, QUEUED, None, None)], r, Recording(0, Submitted(r, "queued"), "SM1"), [Call(r, 0)]))
  {
    hide Reachable, Run, Find, Submitted;
    SenderInserts(r);
    var t := [Log(r, QUEUED, None, None)];
    ReachableSteps(Alone(t, r, Sending(0), []), CallProvider(0), Alone(t, r, Called(0), [Call(r, 0)]));
    ReachableSteps(Alone(t, r, Called(0), [Call(r, 0)]), Answer(0, "queued", "SM1"),
                   Alone(t, r, Recording(0, Submitted(r, "queued"), "SM1"), [Call(r, 0)]));
  }

  lemma DeliveredWord()
    ensures WhatsAppStatus("delivered") == DELIVERED
  {
    assert Lower("delivered") == "delivered";
  }

  lemma CallbackDelivers(r: Request)
    requires r.channel == WHATSAPP
    ensures Reachable(Alone([Log(r, DELIVERED, Some("SM1"), None)], r, Catching(0), [Call(r, 0)]))
  {
    hide Reachable, Run, Find, Submitted, WhatsAppStatus;
    SenderCallsProvider(r);
    DeliveredWord();
    var t', h := [Log(r, DELIVERED, Some("SM1"), None)], Hook(0, DELIVERED, "SM1", None);
    var s := Alone([Log(r, QUEUED, None, None)], r, Recording(0, Submitted(r, "queued"), "SM1"), [Call(r, 0)]);
    ReachableSteps(s, HookArrives(0, "SM1", "delivered", None), s.(hooks := {h}));
    ReachableSteps(s.(hooks := {h}), HookWrites(h), s.(table := t'));
    ReachableSteps(s.(table := t'), Throw(0), Alone(t', r, Catching(0), [Call(r, 0)]));
  }

  /** It does happen: a WhatsApp message is delivered, then the sender's own update fails. */
  lemma DeliveredCanBeLost(r: Request)
    requires r.channel == WHATSAPP
    ensures exists s :: Reachable(s) && s.table == [Log(r, DELIVERED, Some("SM1"), None)]
              && Next(s, Fail(0, "lost")).table == [Log(r, FAILED, Some("SM1"), Some("lost"))]
  {
    hide Reachable, Find;
    CallbackDelivers(r);
    var s := Alone([Log(r, DELIVERED, Some("SM1"), None)], r, Catching(0), [Call(r, 0)]);
    assert Next(s, Fail(0, "lost")).table == [Log(r, FAILED, Some("SM1"), Some("lost"))];
  }

  // ---- One row and at most one send for a key ----

  predicate Owns(pc: Pc) {
    pc.Sending? || pc.Called? || pc.Recording? || pc.Reading? || pc.Catching?
  }

  predicate OneRowPerKey(t: Table) {
    forall i, j :: 0 <= i < j < |t| ==> !SameKey(t[i].request, t[j].request)
  }

  /** A caller working on a row, or given it as its result, asked for exactly that send. */
  predicate RowOfItsOwn(t: Table, caller: Caller) {
    Owns(caller.pc) || caller.pc.Done? ==> caller.pc.id < |t| && t[caller.pc.id].request == caller.request
  }

  ghost predicate RowsAreTheirOwn(s: State) {
    forall c <- s.callers :: RowOfItsOwn(s.table, s.callers[c])
  }

  ghost predicate OneCreatorPerRow(s: State) {
    forall c, d | c in s.callers && d in s.callers && c != d && Owns(s.callers[c].pc) && Owns(s.callers[d].pc) ::
      s.callers[c].pc.id != s.callers[d].pc.id
  }

  /** A send belongs to a row and was made for that row's request. */
  predicate CallIsFor(s: State, k: Call) {
    k.id < |s.table| && k.request == s.table[k.id].request
  }

  ghost predicate CallsAreSingle(s: State) {
    && (forall i :: 0 <= i < |s.calls| ==> CallIsFor(s, s.calls[i]))
    && (forall i, j :: 0 <= i < j < |s.calls| ==> s.calls[i].id != s.calls[j].id)
    && (forall c, i | c in s.callers && s.callers[c].pc.Sending? && 0 <= i < |s.calls| ::
         s.calls[i].id != s.callers[c].pc.id)
  }

  ghost predicate OneSend(s: State) {
    OneRowPerKey(s.table) && RowsAreTheirOwn(s) && OneCreatorPerRow(s) && CallsAreSingle(s)
  }

  predicate SameRequests(t: Table, t': Table) {
    |t| == |t'| && forall i :: 0 <= i < |t| ==> t'[i].request == t[i].request
  }

  /** A caller moves on without inserting or sending; it owns nothing it did not own before. */
  predicate Quiet(s: State, c: nat, pc: Pc, s': State)
    requires c in s.callers
  {
    var caller := s.callers[c];
    && SameRequests(s.table, s'.table)
    && s'.callers == s.callers[c := caller.(pc := pc)]
    && s'.calls == s.calls
    && (Owns(pc) ==> Owns(caller.pc) && pc.id == caller.pc.id)
    && (pc.Sending? ==> caller.pc.Sending?)
    && RowOfItsOwn(s.table, caller.(pc := pc))
  }

  lemma QuietKeeps(s: State, c: nat, pc: Pc, s': State)
    requires OneSend(s) && c in s.callers && Quiet(s, c, pc, s')
    ensures OneSend(s')
  {
    hide SameKey;
    forall d | d in s'.callers ensures RowOfItsOwn(s'.table, s'.callers[d]) {
      if d != c { assert RowOfItsOwn(s.table, s.callers[d]); }
    }
    forall i | 0 <= i < |s'.calls| ensures CallIsFor(s', s'.calls[i]) {
      assert CallIsFor(s, s.calls[i]);
    }
  }

  lemma InsertKeeps(s: State, c: nat, a: Action)
    requires a.Insert? && OneSend(s) && At(s, c, Inserting) && Find(s.table, s.callers[c].request) == |s.table|
    ensures OneSend(CallerStep(s, c, a))
  {
    var s' := CallerStep(s, c, a);
    var r := s.callers[c].request;
    assert s'.table == s.table + [Log(r, QUEUED, None, None)];
    hide CallerStep;
    assert OneRowPerKey(s'.table);
    assert RowsAreTheirOwn(s');
    hide SameKey, OneRowPerKey;
    assert OneCreatorPerRow(s') && CallsAreSingle(s');
  }

  lemma CallKeeps(s: State, c: nat, id: nat, a: Action)
    requires a.CallProvider? && OneSend(s) && At(s, c, Sending(id))
    ensures OneSend(CallerStep(s, c, a))
  {
    var s' := CallerStep(s, c, a);
    hide CallerStep, SameKey, Owns;
    assert RowsAreTheirOwn(s') && OneCreatorPerRow(s');
    assert CallsAreSingle(s');
  }

  lemma CallerStepKeeps(s: State, c: nat, a: Action)
    requires OneSend(s) && c in s.callers
    ensures OneSend(CallerStep(s, c, a))
  {
    hide OneSend, CallerStep, Find, Quiet;
    var s' := CallerStep(s, c, a);
    var pc := s.callers[c].pc;
    if a.Insert? && pc.Inserting? && Find(s.table, s.callers[c].request) == |s.table| {
      InsertKeeps(s, c, a);
    } else if a.CallProvider? && pc.Sending? {
      CallKeeps(s, c, pc.id, a);
    } else {
      OwnRow(s, c);
      OthersAreQuiet(s, c, a);
      QuietKeeps(s, c, s'.callers[c].pc, s');
    }
  }

  lemma OthersAreQuiet(s: State, c: nat, a: Action)
    requires c in s.callers && RowOfItsOwn(s.table, s.callers[c])
    requires !(a.Insert? && s.callers[c].pc.Inserting? && Find(s.table, s.callers[c].request) == |s.table|)
    requires !(a.CallProvider? && s.callers[c].pc.Sending?)
    ensures c in CallerStep(s, c, a).callers && Quiet(s, c, CallerStep(s, c, a).callers[c].pc, CallerStep(s, c, a))
  {
    hide SameKey, Submitted, Find;
    var s' := CallerStep(s, c, a);
    assert s'.callers[c] == s.callers[c].(pc := s'.callers[c].pc);
  }

  lemma OwnRow(s: State, c: nat)
    requires OneSend(s) && c in s.callers
    ensures RowOfItsOwn(s.table, s.callers[c])
  {
  }

  lemma OthersKeep(s: State, s': State)
    requires OneSend(s) && SameRequests(s.table, s'.table) && s'.callers == s.callers && s'.calls == s.calls
    ensures OneSend(s')
  {
  }

  lemma BeginKeeps(s: State, c: nat, r: Request)
    requires OneSend(s) && c !in s.callers
    ensures OneSend(Next(s, Begin(c, r)))
  {
    hide SameKey;
  }

  lemma StepKeeps(s: State, a: Action)
    requires OneSend(s)
    ensures OneSend(Next(s, a))
  {
    hide OneSend, CallerStep;
    match a
    case Begin(c, r) => if c !in s.callers { BeginKeeps(s, c, r); }
    case HookArrives(_, _, _, _) => OthersKeep(s, Next(s, a));
    case HookWrites(_) => OthersKeep(s, Next(s, a));
    case EmailEvent(_, _, _, _) => OthersKeep(s, Next(s, a));
    case _ => if a.c in s.callers { CallerStepKeeps(s, a.c, a); }
  }

  lemma {:induction false} RunKeeps(s: State, actions: seq<Action>)
    requires OneSend(s)
    ensures OneSend(Run(s, actions))
    decreases |actions|
  {
    hide OneSend, Next;
    if actions != [] {
      StepKeeps(s, actions[0]);
      RunKeeps(Next(s, actions[0]), actions[1..]);
    }
  }

  lemma ReachableKeeps(s: State)
    requires Reachable(s)
    ensures OneSend(s)
  {
    hide Run;
    var run :| Run(Initial, run) == s;
    RunKeeps(Initial, run);
  }

  /** However many callers retry or race on a key, the channel's send function is called at most once for it. */
  lemma AtMostOneSendPerKey(s: State, i: nat, j: nat)
    requires Reachable(s) && i < |s.calls| && j < |s.calls|
    requires SameKey(s.calls[i].request, s.calls[j].request)
    ensures i == j
  {
    hide Reachable;
    ReachableKeeps(s);
    assert CallIsFor(s, s.calls[i]) && CallIsFor(s, s.calls[j]);
  }

  /** Callers of one key that get a result get the same row, and each asked for exactly the send it records. */
  lemma ResultsAgree(s: State, c: nat, d: nat)
    requires Reachable(s) && c in s.callers && d in s.callers
    requires s.callers[c].pc.Done? && s.callers[d].pc.Done?
    requires SameKey(s.callers[c].request, s.callers[d].request)
    ensures s.callers[c].pc == s.callers[d].pc && s.callers[c].pc.id < |s.table|
    ensures s.table[s.callers[c].pc.id].request == s.callers[c].request == s.callers[d].request
  {
    hide Reachable;
    ReachableKeeps(s);
    assert RowOfItsOwn(s.table, s.callers[c]) && RowOfItsOwn(s.table, s.callers[d]);
  }

  /** Once a key's row exists, a caller asking for anything else under that key never gets a result and never sends. */
  lemma MismatchGetsNothing(s: State, i: nat, c: nat, actions: seq<Action>)
    requires Reachable(s) && i < |s.table| && c in s.callers
    requires SameKey(s.table[i].request, s.callers[c].request) && s.table[i].request != s.callers[c].request
    ensures var later := Run(s, actions);
            && c in later.callers && !later.callers[c].pc.Done?
            && forall k <- later.calls :: SameKey(k.request, s.callers[c].request) ==> k.request == s.table[i].request
  {
    hide Reachable, Run;
    ReachableKeeps(s);
    RunKeeps(s, actions);
    RunGrows(s, actions);
    RunRemembers(s, actions, c);
    var later := Run(s, actions);
    assert RowOfItsOwn(later.table, later.callers[c]);
    forall k | k in later.calls && SameKey(k.request, s.callers[c].request) ensures k.request == s.table[i].request {
      var n :| 0 <= n < |later.calls| && later.calls[n] == k;
      assert CallIsFor(later, later.calls[n]);
    }
  }

  lemma StepRemembers(s: State, a: Action, c: nat)
    requires c in s.callers
    ensures c in Next(s, a).callers && Next(s, a).callers[c].request == s.callers[c].request
    ensures s.callers[c].pc.Done? ==> Next(s, a).callers[c] == s.callers[c]
  {
    hide Find, Create, RecordSubmitted, RecordFailed, WhatsAppWrite, EmailWrite;
  }

  /** A caller's request never changes and its result is final. */
  lemma {:induction false} RunRemembers(s: State, actions: seq<Action>, c: nat)
    requires c in s.callers
    ensures c in Run(s, actions).callers && Run(s, actions).callers[c].request == s.callers[c].request
    ensures s.callers[c].pc.Done? ==> Run(s, actions).callers[c] == s.callers[c]
    decreases |actions|
  {
    hide Next;
    if actions != [] {
      StepRemembers(s, actions[0], c);
      RunRemembers(Next(s, actions[0]), actions[1..], c);
    }
  }

  /** A caller that lost the race for its key finds the winner's row. */
  lemma RacedRowIsThere(s: State, c: nat, actions: seq<Action>)
    requires c in s.callers && s.callers[c].pc == Inserting
    requires CallerStep(s, c, Insert(c)).callers[c].pc == Raced
    ensures Find(Run(Next(s, Insert(c)), actions).table, s.callers[c].request) ==
        Find(s.table, s.callers[c].request) < |s.table|
  {
    hide Run;
    var s' := Next(s, Insert(c));
    assert s'.table == s.table;
    RunGrows(s', actions);
  }
}
