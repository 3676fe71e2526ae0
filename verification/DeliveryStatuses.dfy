/**
 * What provider words do to a send (src/modules/inspections/inspection-delivery.service.ts:52-57, 144-197, 201-263).
 */
module DeliveryStatuses {
  import opened Wrappers
  import opened Words
  import opened Delivery
  import opened DeliveryProtocol

  // ---- Words ----

  /** An answer to a submission and a callback read a text alike, but that only a callback can say delivered. */
  lemma CallbackAgreesWithAnswer(text: string)
    ensures WhatsAppStatus(text) == FAILED <==> NormalizeTwilioStatus(text) == FAILED
    ensures WhatsAppStatus(text) == SENT <==> NormalizeTwilioStatus(text) == SENT
    ensures WhatsAppStatus(text) in {QUEUED, DELIVERED} <==> NormalizeTwilioStatus(text) == QUEUED
  {
    hide Lower;
    Apart();
  }

  lemma Apart()
    ensures forall w <- ["delivered", "read"] :: w != "sent" && w !in ["failed", "undelivered", "canceled"]
    ensures "sent" !in ["failed", "undelivered", "canceled"]
  {
    var read, sent := "read", "sent";
    assert read[0] != sent[0];
    assert |"delivered"| == 9 && |"failed"| == 6 && |"undelivered"| == 11 && |"canceled"| == 8;
  }

  /** Case does not matter. */
  lemma CaseDoesNotMatter(text: string)
    ensures WhatsAppStatus(Upper(text)) == WhatsAppStatus(text)
    ensures NormalizeTwilioStatus(Upper(text)) == NormalizeTwilioStatus(text)
    ensures EmailStatus(Upper(text)) == EmailStatus(text)
  {
    hide Lower, Upper;
    LowerTwice(text);
  }

  lemma FailureWords(word: string)
    requires word in {"failed", "undelivered", "canceled"}
    ensures WhatsAppStatus(word) == FAILED && NormalizeTwilioStatus(word) == FAILED
  {
    hide Lower;
    if word == "failed" {
      LowerStays("failed");
    } else if word == "undelivered" {
      LowerStays("undelivered");
    } else {
      LowerStays("canceled");
    }
    Apart();
  }

  lemma SentWord()
    ensures WhatsAppStatus("sent") == SENT && NormalizeTwilioStatus("sent") == SENT
  {
    LowerStays("sent");
    hide Lower;
    Apart();
  }

  lemma DeliveredWords(word: string)
    requires word in {"delivered", "read"}
    ensures WhatsAppStatus(word) == DELIVERED && NormalizeTwilioStatus(word) == QUEUED
  {
    hide Lower;
    if word == "read" { LowerStays("read"); } else { LowerStays("delivered"); }
    Apart();
  }

  lemma QueuedWord()
    ensures WhatsAppStatus("queued") == QUEUED && NormalizeTwilioStatus("queued") == QUEUED
  {
    var failed, queued := "failed", "queued";
    LowerStays(queued);
    hide Lower;
    assert failed[0] != queued[0] && |queued| == 6;
    assert |"delivered"| == 9 && |"read"| == 4 && |"sent"| == 4 && |"undelivered"| == 11 && |"canceled"| == 8;
  }

  lemma EmailDeliveredWord()
    ensures EmailStatus("email.delivered") == Some(DELIVERED)
  {
    hide Lower;
    LowerStays("email.delivered");
  }

  lemma EmailFailureWords(word: string)
    requires word in {"email.bounced", "email.failed", "email.complained"}
    ensures EmailStatus(word) == Some(FAILED)
  {
    hide Lower;
    if word == "email.bounced" {
      LowerStays("email.bounced");
    } else if word == "email.failed" {
      LowerStays("email.failed");
    } else {
      LowerStays("email.complained");
    }
    assert |word| in {12, 13, 16} && |"email.delivered"| == 15;
  }

  lemma EmailSentWord()
    ensures EmailStatus("email.sent") == Some(SENT)
  {
    hide Lower;
    LowerStays("email.sent");
    assert |"email.sent"| == 10 && |"email.delivered"| == 15;
    assert |"email.bounced"| == 13 && |"email.failed"| == 12 && |"email.complained"| == 16;
  }

  /** Any other event is ignored. */
  lemma OtherEmailWord()
    ensures EmailStatus("email.opened") == None
  {
    hide EmailStatus, Lower;
    OpenedIsLower();
    NotAnEvent("email.opened");
  }

  lemma OpenedIsLower()
    ensures Lower("email.opened") == "email.opened"
  {
    hide Lower;
    LowerStays("email.opened");
  }

  lemma NotAnEvent(word: string)
    requires Lower(word) == word && |word| == 12 && word[6] == 'o'
    ensures EmailStatus(word) == None
  {
    hide Lower;
    var failed := "email.failed";
    assert failed[6] == 'f' && |"email.sent"| == 10 && |"email.delivered"| == 15;
    assert |"email.bounced"| == 13 && |"email.complained"| == 16;
  }

  // ---- Rows ----

  /** What both statements of a callback, run back to back, make of the table. */
  function AfterCallback(t: Table, id: nat, providerId: string, text: string, error: Option<string>): Table {
    if WhatsAppAccepts(t, id, providerId) then WhatsAppWrite(t, id, WhatsAppStatus(text), providerId, error) else t
  }

  /**
   * A failure or delivery callback on an open row of its own message leaves it failed or delivered; any callback
   * on another's row, or a row already settled, changes nothing; no callback touches a second row.
   */
  lemma CallbackSettles(t: Table, id: nat, providerId: string, text: string, error: Option<string>)
    ensures var after := AfterCallback(t, id, providerId, text, error);
            && |after| == |t|
            && (forall i :: 0 <= i < |t| && i != id ==> after[i] == t[i])
            && (Foreign(t, id, providerId) || !Open(t[id].status) ==> after == t)
            && (!Foreign(t, id, providerId) && Open(t[id].status) && WhatsAppStatus(text) in {FAILED, DELIVERED} ==>
                  after[id] == Log(t[id].request, WhatsAppStatus(text), Some(providerId), error))
            && (!Foreign(t, id, providerId) && t[id].status == QUEUED && WhatsAppStatus(text) in {QUEUED, SENT} ==>
                  after[id] == Log(t[id].request, WhatsAppStatus(text), Some(providerId), error))
            && (!Foreign(t, id, providerId) && t[id].status == SENT && WhatsAppStatus(text) in {QUEUED, SENT} ==>
                  after == t)
  {
    hide WhatsAppStatus;
  }

  /** A failure or delivery event settles exactly the open rows it concerns; no other row changes. */
  lemma EmailEventSettles(
    t: Table, event: string, providerId: string, sendLogId: Option<nat>, error: Option<string>, i: nat)
    requires i < |t|
    ensures var after := EmailWrite(t, event, providerId, sendLogId, error);
            var mine := Concerns(t[i], i, providerId, sendLogId);
            var reason := if error.Some? then error.value else Lower(event);
            && |after| == |t|
            && (after[i] != t[i] ==> mine && Open(t[i].status))
            && (EmailStatus(event) == None ==> after == t)
            && (EmailStatus(event) == Some(FAILED) && mine && Open(t[i].status) ==>
                  after[i] == Log(t[i].request, FAILED, Some(providerId), Some(reason)))
            && (EmailStatus(event) == Some(DELIVERED) && mine && Open(t[i].status) ==>
                  after[i] == Log(t[i].request, DELIVERED, Some(providerId), None))
            && (EmailStatus(event) == Some(SENT) && mine && t[i].status == QUEUED ==>
                  after[i] == Log(t[i].request, SENT, Some(providerId), None))
            && (EmailStatus(event) == Some(SENT) && t[i].status != QUEUED ==> after[i] == t[i])
  {
    hide EmailStatus, Lower;
  }

  /** What a send leaves: an accepted e-mail sent, a WhatsApp message as its answer reads, anything else failed. */
  lemma Conclusions(r: Request, word: string, providerId: string, message: string)
    ensures r.channel == EMAIL ==> Concluded(r, Answered(word, providerId)) == Log(r, SENT, Some(providerId), None)
    ensures r.channel == WHATSAPP && word in {"failed", "undelivered", "canceled"} ==>
              Concluded(r, Answered(word, providerId)) == Log(r, FAILED, Some(providerId), None)
    ensures r.channel == WHATSAPP && word == "sent" ==>
              Concluded(r, Answered(word, providerId)) == Log(r, SENT, Some(providerId), None)
    ensures r.channel == WHATSAPP && word == "queued" ==>
              Concluded(r, Answered(word, providerId)) == Log(r, QUEUED, Some(providerId), None)
    ensures Concluded(r, Threw(message)) == Concluded(r, NotMade(message)) == Log(r, FAILED, None, Some(message))
  {
    hide NormalizeTwilioStatus;
    if word in {"failed", "undelivered", "canceled"} { FailureWords(word); }
    SentWord();
    QueuedWord();
  }

  /** A retry of the same send finds the row in one step, and one that lost the race finds it in the next. */
  lemma RetryGetsRow(s: State, c: nat, i: nat)
    requires Reachable(s) && i < |s.table| && c in s.callers && s.callers[c].request == s.table[i].request
    ensures At(s, c, Start) ==> At(Next(s, FindExisting(c, true)), c, Done(i))
    ensures At(s, c, Raced) ==> At(Next(s, FindRaced(c)), c, Done(i))
  {
    hide Reachable;
    ReachableKeeps(s);
    assert Find(s.table, s.callers[c].request) == i;
  }

  /** A caller not ready to send, for want of a final report or its document, inserts nothing and ends refused. */
  lemma NotReadyIsRefused(s: State, c: nat)
    requires At(s, c, Checking)
    ensures At(Next(s, CheckReport(c, false)), c, Refused) && Next(s, CheckReport(c, false)).table == s.table
    ensures Next(s, CallProvider(c)) == s && Next(s, Insert(c)) == s
  {
  }
}
