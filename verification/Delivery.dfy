/**
 * Sending a finalized report (src/modules/inspections/inspection-delivery.service.ts): the send-log
 * table with its unique (organization, request) key, and the statements that change a row.
 */
module Delivery {
  import opened Wrappers
  import opened Words

  datatype Channel = WHATSAPP | EMAIL

  datatype SendStatus = QUEUED | SENT | DELIVERED | FAILED

  datatype Request = Request(
    organization: string, requestId: string, reportId: string, revision: int, channel: Channel, recipient: string)

  /** A row of the send log; its id is its place in the table. */
  datatype Log = Log(request: Request, status: SendStatus, providerId: Option<string>, error: Option<string>)

  type Table = seq<Log>

  // ---- Statements ----

  predicate SameKey(a: Request, b: Request) {
    a.organization == b.organization && a.requestId == b.requestId
  }

  /** The row under a key, or the size of the table. */
  function Find(t: Table, r: Request): (i: nat)
    ensures i <= |t|
    ensures i < |t| ==> SameKey(t[i].request, r)
    ensures forall j :: 0 <= j < i ==> !SameKey(t[j].request, r)
  {
    if t == [] then 0 else if SameKey(t[0].request, r) then 0 else 1 + Find(t[1..], r)
  }

  /** Insert under the unique key; nothing when the key is taken. */
  function Create(t: Table, r: Request): Option<Table> {
    if Find(t, r) < |t| then None else Some(t + [Log(r, QUEUED, None, None)])
  }

  /** The sender's guarded update: only a row still QUEUED takes the provider's answer. */
  function RecordSubmitted(t: Table, id: nat, status: SendStatus, providerId: string): Table {
    if id < |t| && t[id].status == QUEUED
        then t[id := t[id].(status := status, providerId := Some(providerId), error := None)] else t
  }

  /** The sender's catch: fails the row whatever its status. */
  function RecordFailed(t: Table, id: nat, message: string): Table {
    if id < |t| then t[id := t[id].(status := FAILED, error := Some(message))] else t
  }

  function NormalizeTwilioStatus(status: string): (s: SendStatus)
    ensures s in {QUEUED, SENT, FAILED}
  {
    var n := Lower(status);
    if n in ["failed", "undelivered", "canceled"] then FAILED else if n == "sent" then SENT else QUEUED
  }

  function WhatsAppStatus(status: string): SendStatus {
    var n := Lower(status);
    if n in ["delivered", "read"] then DELIVERED
    else if n == "sent" then SENT
    else if n in ["failed", "undelivered", "canceled"] then FAILED
    else QUEUED
  }

  /** The webhook's first look: the row exists, is a WhatsApp send and is not another message's. */
  predicate WhatsAppAccepts(t: Table, id: nat, providerId: string) {
    id < |t| && t[id].request.channel == WHATSAPP && (t[id].providerId.None? || t[id].providerId.value == providerId)
  }

  /** Which statuses a webhook may move a row from. */
  predicate Allowed(from: SendStatus, to: SendStatus) {
    if to == FAILED || to == DELIVERED then from == QUEUED || from == SENT else from == QUEUED
  }

  /** The webhook's guarded update. */
  function WhatsAppWrite(t: Table, id: nat, status: SendStatus, providerId: string, error: Option<string>): Table {
    if id < |t| && Allowed(t[id].status, status)
    then t[id := t[id].(status := status, providerId := Some(providerId), error := error)] else t
  }

  function EmailStatus(eventType: string): Option<SendStatus> {
    var e := Lower(eventType);
    if e == "email.delivered" then Some(DELIVERED)
    else if e in ["email.bounced", "email.failed", "email.complained"] then Some(FAILED)
    else if e == "email.sent" then Some(SENT)
    else None
  }

  /** The rows an e-mail event speaks of: by log id when it carries one, else by provider message. */
  predicate EmailMatches(l: Log, id: nat, providerId: string, sendLogId: Option<nat>) {
    && l.request.channel == EMAIL
    && if sendLogId.Some? then id == sendLogId.value && (l.providerId.None? || l.providerId.value == providerId)
       else l.providerId == Some(providerId)
  }

  function EmailRow(l: Log, id: nat, status: SendStatus, providerId: string, sendLogId: Option<nat>,
      error: Option<string>): Log {
    if EmailMatches(l, id, providerId, sendLogId) && Allowed(l.status, status)
    then l.(status := status, providerId := Some(providerId), error := if status == FAILED then error else None) else l
  }

  function EmailWrite(t: Table, eventType: string, providerId: string, sendLogId: Option<nat>,
      error: Option<string>): (t': Table)
    ensures |t'| == |t|
  {
    var status := EmailStatus(eventType);
    if status.None? then t
    else
      var text := if error.Some? then error else Some(Lower(eventType));
      seq(|t|, i requires 0 <= i < |t| => EmailRow(t[i], i, status.value, providerId, sendLogId, text))
  }

  /** What becomes of the provider call: not made, failed, or answered. */
  datatype Outcome = NotMade(message: string) | Threw(message: string) | Answered(status: string, providerId: string)

  function Submitted(r: Request, status: string): SendStatus {
    if r.channel == EMAIL then SENT else NormalizeTwilioStatus(status)
  }

  function Concluded(r: Request, outcome: Outcome): Log {
    match outcome
    case Answered(status, providerId) => Log(r, Submitted(r, status), Some(providerId), None)
    case _ => Log(r, FAILED, None, Some(outcome.message))
  }

  // ---- What rows a provider's word is for ----

  predicate Open(s: SendStatus) {
    s == QUEUED || s == SENT
  }

  /** A callback is for another message: no such row, an e-mail, or a row of a different provider message. */
  predicate Foreign(t: Table, id: nat, providerId: string) {
    id >= |t| || t[id].request.channel == EMAIL || (t[id].providerId.Some? && t[id].providerId.value != providerId)
  }

  /** An e-mail event is for a row: an e-mail, named by log id with its message unset or the same, else by message. */
  predicate Concerns(l: Log, i: nat, providerId: string, sendLogId: Option<nat>) {
    && l.request.channel == EMAIL
    && match sendLogId
       case Some(id) => i == id && l.providerId in {None, Some(providerId)}
       case None => l.providerId == Some(providerId)
  }

  // ---- The imperative form ----

  class SendLog {
    var rows: Table

    constructor ()
      ensures rows == []
    {
      rows := [];
    }

    method Lookup(r: Request) returns (i: nat)
      ensures i == Find(rows, r)
    {
      i := 0;
      while i < |rows| && !SameKey(rows[i].request, r)
        invariant 0 <= i <= |rows|
        invariant forall j :: 0 <= j < i ==> !SameKey(rows[j].request, r)
      {
        i := i + 1;
      }
    }

    /** create, with the unique constraint. */
    method Insert(r: Request) returns (id: Option<nat>)
      modifies this
      ensures if Create(old(rows), r).Some?
              then rows == Create(old(rows), r).value && id == Some(|old(rows)|)
              else rows == old(rows) && id == None
    {
      var i := Lookup(r);
      if i < |rows| { return None; }
      id := Some(|rows|);
      rows := rows + [Log(r, QUEUED, None, None)];
    }

    method MarkSubmitted(id: nat, status: SendStatus, providerId: string)
      modifies this
      ensures rows == RecordSubmitted(old(rows), id, status, providerId)
    {
      if id < |rows| && rows[id].status == QUEUED {
        rows := rows[id := rows[id].(status := status, providerId := Some(providerId), error := None)];
      }
    }

    method MarkFailed(id: nat, message: string)
      modifies this
      ensures rows == RecordFailed(old(rows), id, message)
    {
      if id < |rows| { rows := rows[id := rows[id].(status := FAILED, error := Some(message))]; }
    }

    /** sendInspectionReport with nothing else running: the row it returns, and whether the provider was called. */
    method SendInspectionReport(r: Request, visible: bool, ready: bool, outcome: Outcome)
        returns (id: Option<nat>, called: bool)
      modifies this
      ensures var t, i := old(rows), Find(old(rows), r);
              if i < |t| then
                rows == t && !called && id == (if (visible || ready) && t[i].request == r then Some(i) else None)
              else if ready then
                rows == t + [Concluded(r, outcome)] && id == Some(i) && called == !outcome.NotMade?
              else rows == t && !called && id == None
    {
      var i := Lookup(r);
      if i < |rows| && visible { return if rows[i].request == r then Some(i) else None, false; }
      if !ready { return None, false; }
      var made := Insert(r);
      if made.None? {
        i := Lookup(r);
        return if rows[i].request == r then Some(i) else None, false;
      }
      called := !outcome.NotMade?;
      if outcome.Answered? {
        var status := if r.channel == EMAIL then SENT else NormalizeTwilioStatus(outcome.status);
        MarkSubmitted(made.value, status, outcome.providerId);
      } else {
        MarkFailed(made.value, outcome.message);
      }
      id := made;
    }

    /** updateInspectionWhatsAppStatus, its two statements run back to back. */
    method UpdateWhatsAppStatus(id: nat, providerId: string, providerStatus: string, providerError: Option<string>)
        returns (updated: bool)
      modifies this
      ensures var status := WhatsAppStatus(providerStatus);
              if WhatsAppAccepts(old(rows), id, providerId)
              then rows == WhatsAppWrite(old(rows), id, status, providerId, providerError)
                   && (updated <==> Allowed(old(rows)[id].status, status))
              else rows == old(rows) && !updated
      ensures updated ==> !Foreign(old(rows), id, providerId) && Open(old(rows)[id].status)
      ensures updated ==>
        var l := Log(old(rows)[id].request, WhatsAppStatus(providerStatus), Some(providerId), providerError);
        rows == old(rows)[id := l]
      ensures WhatsAppStatus(providerStatus) in {FAILED, DELIVERED} ==>
                (updated <==> !Foreign(old(rows), id, providerId) && Open(old(rows)[id].status))
    {
      hide WhatsAppStatus;
      var status := WhatsAppStatus(providerStatus);
      if id >= |rows| || rows[id].request.channel != WHATSAPP { return false; }
      if rows[id].providerId.Some? && rows[id].providerId.value != providerId { return false; }
      var allowed :=
        if status == FAILED then {QUEUED, SENT} else if status == DELIVERED then {QUEUED, SENT} else {QUEUED};
      if rows[id].status !in allowed { return false; }
      rows := rows[id := rows[id].(status := status, providerId := Some(providerId), error := providerError)];
      return true;
    }

    /** updateInspectionEmailStatus: one updateMany over the matching rows. */
    method UpdateEmailStatus(providerId: string, sendLogId: Option<nat>, eventType: string, error: Option<string>)
      modifies this
      ensures rows == EmailWrite(old(rows), eventType, providerId, sendLogId, error)
      ensures forall i :: 0 <= i < |rows| && rows[i] != old(rows)[i] ==>
                Concerns(old(rows)[i], i, providerId, sendLogId) && Open(old(rows)[i].status)
    {
      var status := EmailStatus(eventType);
      if status.None? { return; }
      var text := if error.Some? then error else Some(Lower(eventType));
      var i := 0;
      while i < |rows|
        invariant 0 <= i <= |rows| == |old(rows)|
        invariant forall k :: 0 <= k < i ==>
            rows[k] == EmailRow(old(rows)[k], k, status.value, providerId, sendLogId, text)
        invariant forall k :: 0 <= k < i && rows[k] != old(rows)[k] ==>
            Concerns(old(rows)[k], k, providerId, sendLogId) && Open(old(rows)[k].status)
        invariant forall k :: i <= k < |rows| ==> rows[k] == old(rows)[k]
      {
        var l := rows[i];
        var mine := if sendLogId.Some?
                    then i == sendLogId.value && (l.providerId.None? || l.providerId.value == providerId)
                    else l.providerId == Some(providerId);
        if mine && l.request.channel == EMAIL && Allowed(l.status, status.value) {
          var error' := if status.value == FAILED then text else None;
          rows := rows[i := l.(status := status.value, providerId := Some(providerId), error := error')];
        }
        i := i + 1;
      }
    }
  }
}
