# Verification of the garage backend's stateful core

A Dafny model of the parts of the backend that keep state under rules or do loop-heavy arithmetic, with
proofs of what they promise. `dafny verify dfyconfig.toml` checks everything.

- **Inspections** (`InspectionData`, `Inspection`, `InspectionProtocol`, `InspectionSafety`,
  `InspectionRevisions`, `InspectionContent`, `InspectionComplete`, `InspectionAccess`, `InspectionExample`).
  `InspectionData` is the JSON a report holds: the photos it refers to, when it is complete, the snapshot that
  finalizing keeps. `Inspection` has every transaction as a function on the tables of reports, versions, uploads
  and stored objects, and the class `InspectionDb` that runs the same transactions in place, proved equal to the
  functions. `InspectionProtocol` lets everything happen at once: finalization is a read and a later
  compare-and-set commit, and each cleanup job is a sequence of separate claim, object-delete, row-delete and
  release statements, with any number of jobs, any of which may fail or die. `InspectionSafety` and
  `InspectionRevisions` state what holds over all runs, `InspectionContent` what drafts and versions hold,
  `InspectionComplete` that they are complete when finalized, `InspectionAccess` who may change them;
  `InspectionExample` runs a report with a photo up to its finalization.
- **Delivery** (`Delivery`, `DeliveryProtocol`, `DeliveryStatuses`). The send log with its unique key, its
  guarded updates, what provider words do to a row, and the interleaving of any number of callers and provider
  callbacks, every statement a step.
- **Reminders** (`Calendar`, `ReminderSchedule`, `ReminderJob`, `ReminderProperties`). A Gregorian calendar
  built from month lengths, the two ways the program adds months, ISO 8601 week dates, period keys, and the
  repeated job.
- **Wallets** (`Wallet`, `WalletPostings`, `WalletProperties`). Balances, the append-only ledger and diff-based
  invoice saves.
- **Messages** (`JsText`, `MessageSplit`, `MessageLines`, `MessageSplitStops`). The greedy splitter over UTF-16
  code units, what it does to lines and paragraphs, and exactly when it stops, for any limit.
- **Party statements** (`PartyLedger`, `PartySelection`, `PartyReconciliation`). The statement builders, whose
  documents they show, and their results against independently computed balances and summaries.
- **Documents** (`Json`, `JsonStore`, `JsonStoreProtocol`). The document store as a refinement of a map per
  organization, and singleton writes interleaved statement by statement.
- **Incentives** (`Incentives`) and the **rate limiter** (`RateLimiter`).

`Wrappers` and `Words` hold options, results, case and trimming.

Where the source mutates, the model has a class or a method with the source's loops, proved equal to a
function on values; the properties are then proved about that function, or about runs of it. Money is in
paise, days are integers counted from 1 January 1970, instants are milliseconds.

## What does not hold

Each of these has a lemma with the exact condition under which the code does meet the property, and one at a
concrete input where it does not.

- A draft can keep a photo whose object is gone. When the cleanup job deletes the object and then fails to
  delete the row, its `catch` releases the claim, and the row can be linked again
  (`InspectionSafety.StoredUnlessEmptyRowReturns`, `InspectionSafety.DraftCanLoseItsPhoto`). Finalized
  versions are not affected (`InspectionSafety.FinalizedPhotosAreStored`).
- A delivered message can end as FAILED: the sender's `catch` writes without a guard
  (`DeliveryProtocol.DeliveredIsLeftIff`, `DeliveryProtocol.DeliveredCanBeLost`).
- An invoice edit that changes a stamped extra is stored but not posted
  (`WalletProperties.SaveTelescopesIff`, `WalletProperties.EditedExtraIsNotPosted`).
- The public statement leaves out wallet use of exactly one paisa
  (`PartyReconciliation.PublicStatementReconcilesIff`, `PartyReconciliation.OnePaisaIsLeftOut`).
- The supplier statement leaves out negative amounts paid
  (`PartyReconciliation.SupplierStatementReconcilesIff`, `PartyReconciliation.NegativePaidIsLeftOut`), and its
  payments differ from the summary's when an expense is not paid as marked
  (`PartyReconciliation.SupplierColumnsMatchIff`, `PartyReconciliation.SupplierColumnsCanDiffer`).
- The first scoped write of a legacy document makes its writer the recorded creator
  (`JsonStore.CreatorSurvivesIff`, `JsonStore.CreatorIsReplaced`).
- A reminder whose message goes out but whose save then fails is sent again in the next run, without a bound
  (`ReminderJob.BoundedIffNone`, `ReminderJob.MessagesCanRepeat`); beside such saves the bound holds
  (`ReminderJob.MessagesOfOneReminder`).
- A legacy document is gone while its first scoped write is between its deletion and its write, and lost if that
  writer, the only one about to write, then fails (`JsonStoreProtocol.VanishesIff`,
  `JsonStoreProtocol.StepKeepsDocumentIff`, `JsonStoreProtocol.DocumentCanBeLost`).
- The splitter's exported function never stops when the limit leaves no unit for content after the label
  (`MessageSplitStops.StopsIff`, `MessageSplitStops.NeverStops`). The program itself calls it with the default
  limit of 1600 only (`src/services/twilio-sms.service.ts:248`), for which it always stops
  (`MessageSplitStops.EveryStringStops`).
- Past 9999 chunks a labelled part can exceed the limit, at the default limit of 1600 too
  (`MessageSplitStops.SessionMessageCanExceed`; `MessageSplitStops.MessageCanExceed` has a smaller body at a limit
  of 15, which the program never passes). Up to 9999 it never does. For bodies without white space
  `MessageSplitStops.SolidFitsIff` is exact, with both chunk counts computed from length and limit
  (`MessageSplitStops.SolidCounts`); for others it depends on how full each chunk is.

Reading a document by list and by get could part only after a write under another organization's storage id
(`JsonStore.ForeignWriteParts`), so by a service calling the store directly: the route that saves documents takes
singletons under `default` only (`src/modules/collections/collection.controller.ts:188`), and along such writes the
two always agree (`JsonStore.ListAgreesAfterWrites`).

## Model

| member | source | states |
|---|---|---|
| InspectionData.CollectUploadIds | src/modules/inspections/inspection.service.ts:110-124 | the recursive walk that fills one growing set adds exactly the ids the value names, whatever the set held before |
| InspectionData.CollectedIffNamed | src/modules/inspections/inspection.service.ts:110-124 | an id is collected if and only if some path into the value leads to an object naming it: by its own id under a photo list (arrays pass the list's key on), or under photoId or uploadId |
| InspectionData.AssertInspectionComplete | src/modules/inspections/inspection-validation.ts:113-143 | throws nothing exactly when there are sections, each with checkpoints, all rated and checked, and an override has its reason; otherwise names the gap of the first incomplete section, or that there are no sections, or that the reason is missing |
| InspectionData.WorstIsMostSevere | src/modules/inspections/inspection-validation.ts:154-160 | the summary rating has the greatest severity of the ratings summed up, N/A being the least |
| InspectionData.OverallIsTheWorstCheckpoint | src/modules/inspections/inspection-validation.ts:162-175 | rating sections first and then the report gives the most severe of all checkpoints' ratings |
| InspectionData.SnapshotStaysComplete | src/modules/inspections/inspection-validation.ts:162-175 | a snapshot of complete data is complete and rates the same, so a revision of it can be finalized unchanged |
| InspectionData.SanitizingAddsNoIds | src/modules/inspections/inspection.service.ts:212-221 | what is stored of a payload refers to no photo that the payload does not |
| InspectionData.FinalSnapshotAddsNoIds | src/modules/inspections/inspection.service.ts:497-536 | conditions, customer, vehicle, branch, branding and ratings put into a version add no photo reference |
| Inspection.InspectionDb.LinkPendingUploads | src/modules/inspections/inspection.service.ts:126-177 | same links, same refusals in the same order, uploads untouched on a refusal |
| Inspection.InspectionDb.ExpireDetachedDraftUploads | src/modules/inspections/inspection.service.ts:179-205 | exactly the report's uploads outside the new data and every version become pending for a day |
| Inspection.InspectionDb.UploadInspectionPhoto | src/modules/inspections/inspection-assets.service.ts:60-80 | the new row is pending, expires in a day, and its object is stored |
| Inspection.InspectionDb.CreateInspection | src/modules/inspections/inspection.service.ts:223-249 | the whole transaction: a draft at revision 1 with its photos linked, or nothing |
| Inspection.InspectionDb.UpdateInspection | src/modules/inspections/inspection.service.ts:251-284 | the whole transaction: compare, write, link, detach; on any refusal all tables are as before |
| Inspection.InspectionDb.FinalizeInspection | src/modules/inspections/inspection.service.ts:480-573 | reads then commit without a pause equals the two halves the protocol interleaves |
| Inspection.InspectionDb.CreateInspectionRevision | src/modules/inspections/inspection.service.ts:575-600 | the next draft carries the data of the version of highest revision |
| Inspection.InspectionDb.SoftDeleteInspection | src/modules/inspections/inspection.service.ts:405-416 | marks a report in scope deleted and touches nothing else |
| Inspection.Latest | src/modules/inspections/inspection.service.ts:579 | a stored version that no other exceeds in revision |
| Inspection.InspectionDb.CleanUpload | src/modules/inspections/inspection.service.ts:777-793 | only an expired pending row is removed; a failure gives the row back unchanged, its object gone if that delete had succeeded |
| Inspection.InspectionDb.CleanupExpiredInspectionUploads | src/modules/inspections/inspection.service.ts:770-795 | removes rows and objects of expired pending uploads only, up to the clamped limit, all of them when there are fewer; a failure stops it with at most one row left without its object |
| InspectionProtocol.LinkTakes | src/modules/inspections/inspection.service.ts:158-176 | after linking every named photo is the report's; any row that changed was pending, not being cleaned, and of the same organization and branch |
| InspectionProtocol.LinkCounts | src/modules/inspections/inspection.service.ts:167-169 | no report ever gets more than 24 linked photos |
| InspectionProtocol.StepEvolves | src/modules/inspections/inspection.service.ts:263-282 | in every step a report's content stands still or 2 x revision + (1 if final) grows, versions are only appended, organization and branch stay |
| InspectionProtocol.UpdateKeeps | src/modules/inspections/inspection.service.ts:263-282 | a save keeps: needed photos linked, links sound, 24 at most, versions consistent |
| InspectionProtocol.CommitKeeps | src/modules/inspections/inspection.service.ts:552-565 | a commit of an earlier read keeps the same invariant whatever happened in between |
| InspectionProtocol.ReviseKeeps | src/modules/inspections/inspection.service.ts:576-597 | starting a revision keeps the invariant |
| InspectionProtocol.CleanerStepKeeps | src/modules/inspections/inspection.service.ts:777-793 | no cleanup statement, in any state of any job, harms the invariant |
| InspectionProtocol.FinalizersKeep | src/modules/inspections/inspection.service.ts:491-551 | after any step, a finalization whose revision is still open read exactly the data the report has |
| InspectionProtocol.CleanersKeep | src/modules/inspections/inspection.service.ts:778-793 | after any step, each job's upload is marked as being cleaned and is no other job's |
| InspectionProtocol.RunKeeps | src/modules/inspections/inspection.service.ts:126-205 | all of the invariant over every run of every interleaving |
| InspectionSafety.ReferencedPhotosAreSafe | src/modules/inspections/inspection.service.ts:126-205 | in every reachable state a photo named by a report's data or any version exists, is linked to that report, never expires and is claimed by no cleanup |
| InspectionSafety.NoStepTakesReferenced | src/modules/inspections/inspection.service.ts:770-795 | no step claims or deletes a photo referenced when it is taken, nor its object |
| InspectionSafety.AtMost24InAll | src/modules/inspections/inspection.service.ts:167-169 | data and all versions of a report together refer to at most 24 photos |
| InspectionSafety.SaveLinksExactly | src/modules/inspections/inspection.service.ts:279-280 | after a save the linked uploads are exactly those of the new draft and the versions |
| InspectionSafety.KeptForADay | src/modules/inspections/inspection.service.ts:201-204 | a photo uploaded at a time, or linked until then, keeps its row and object through every run of the following 24 hours, saves that drop it and cleanups included |
| InspectionSafety.FinalizedPhotosAreStored | src/modules/inspections/inspection.service.ts:537-565 | every photo of every finalized version has its object in storage, in every reachable state, with no assumption on failures |
| InspectionSafety.StoredUnlessEmptyRowReturns | src/modules/inspections/inspection.service.ts:783-792 | a step keeps the object of every usable upload if and only if it is not the release of a claim after its object was deleted |
| InspectionSafety.DraftPhotosAreStored | src/modules/inspections/inspection.service.ts:783-792 | in a run without such a release every photo a draft names has its object too |
| InspectionSafety.DraftCanLoseItsPhoto | src/modules/inspections/inspection.service.ts:789-792 | a concrete run after which a draft names a linked photo whose object is gone |
| InspectionRevisions.RevisionStartsFromLatest | src/modules/inspections/inspection.service.ts:576-597 | a final report equals its own version, a draft is past all its versions, revisions of versions are distinct, and a new revision starts as the final data unchanged |
| InspectionRevisions.CommitIsOfWhatWasRead | src/modules/inspections/inspection.service.ts:552-565 | a commit succeeds only while the report still has the data its finalization read, and never meets an existing version |
| InspectionRevisions.NoAba | src/modules/inspections/inspection.service.ts:552-556 | over any run the rank never falls, and equal rank means equal data; earlier versions stay a prefix |
| InspectionRevisions.StaleWritesFail | src/modules/inspections/inspection.service.ts:268-278 | once a revision was saved over, finalized or revised, every later save or commit against it fails |
| InspectionRevisions.VersionsAreBuiltFromDrafts | src/modules/inspections/inspection.service.ts:491-565 | every version in every run is the snapshot of the data the report held as a draft at that revision |
| InspectionContent.UpdateStoresWhatWasSent | src/modules/inspections/inspection.service.ts:212-221 | after a save every key outside the conditions is stored if and only if it was sent and is no server field, with its value; pins as many as sent, in order, names trimmed; the overall condition as sent; defaults only for what is absent; other reports untouched |
| InspectionContent.CreateStoresWhatWasSent | src/modules/inspections/inspection.service.ts:223-249 | the same of a new report, a draft at revision 1 of the caller's organization and branch |
| InspectionContent.SnapshotNames | src/modules/inspections/inspection.service.ts:518-536 | a version carries the customer's, vehicle's and branch's names and contacts, the branding texts and the actor, each under its own field |
| InspectionContent.SnapshotConditions | src/modules/inspections/inspection.service.ts:497-501 | a version's conditions are those given when it was finalized, else the draft's own |
| InspectionContent.SnapshotKeepsTheRest | src/modules/inspections/inspection-validation.ts:162-175 | every other field of a version is the draft's, its sections the draft's with a rating each |
| InspectionContent.SectionGainsItsRating | src/modules/inspections/inspection-validation.ts:165-168 | a section in a version has its fields as in the draft, but for the rating computed from its checkpoints |
| InspectionComplete.FinalSnapshotIsComplete | src/modules/inspections/inspection-validation.ts:113-143 | a draft complete under the given conditions gives a complete snapshot |
| InspectionComplete.IncompleteIsRefused | src/modules/inspections/inspection.service.ts:503 | one that is not complete under them is not read for finalization, and nothing happens |
| InspectionComplete.FinalizedIsComplete | src/modules/inspections/inspection.service.ts:490-566 | in every reachable state every version, and every final report, is complete |
| InspectionComplete.CompleteMeans | src/modules/inspections/inspection-validation.ts:113-143 | complete data has sections, each with checkpoints, each checkpoint a rating other than not checked, and a reason that is not blank for an override |
| InspectionComplete.CheckpointsComeFirst | src/modules/inspections/inspection-validation.ts:124-128 | a section's checkpoints are its list of that name, only else its items |
| InspectionComplete.RatingWords | src/modules/inspections/inspection-validation.ts:154-160 | bad is worse than average, average than good |
| InspectionComplete.NotApplicableWords | src/modules/inspections/inspection-validation.ts:154-160 | the three words for not applicable count for nothing |
| InspectionComplete.RatingIsTheFirst | src/modules/inspections/inspection-validation.ts:101-111 | a checkpoint's rating is the first of its five rating fields that reads as one |
| InspectionComplete.OverrideDecides | src/modules/inspections/inspection-validation.ts:169-173 | an override is the report's rating whatever its checkpoints say |
| InspectionContent.PhotoIsCollected | src/modules/inspections/inspection.service.ts:110-124 | a photo is collected from each of the five places that name photos |
| InspectionContent.FittingPins | src/modules/inspections/inspection-validation.ts:18-34 | at most 200 pins fit, none sharing its trimmed id or its number with another |
| InspectionContent.FittingPin | src/modules/inspections/inspection-validation.ts:20-28 | the bounds on each field of a pin |
| InspectionAccess.ChangesStayInScope | src/modules/inspections/inspection.service.ts:264-277 | in every run a step changes only a report that is not deleted and that its caller's organization and branches include |
| InspectionAccess.ReadsStayInScope | src/modules/inspections/inspection.service.ts:491-494 | a finalization is begun only by such a caller |
| InspectionAccess.DeletedStays | src/modules/inspections/inspection.service.ts:405-416 | a deleted report stays exactly as it is in every run |
| InspectionAccess.DeletingMarks | src/modules/inspections/inspection.service.ts:405-416 | deleting succeeds exactly in scope, marks that report and touches nothing else |
| InspectionAccess.SaveNeeds | src/modules/inspections/inspection.service.ts:263-278 | a save succeeds only on a live draft of that organization and branch at the revision the caller saw |
| InspectionAccess.FinalizeNeeds | src/modules/inspections/inspection.service.ts:491-548 | a finalization is read only from such a draft, all of whose photos, at most 24, are linked to it and stored |
| InspectionAccess.AssociationsHoldIff | src/modules/inspections/inspection.service.ts:148-157 | the associations hold if and only if every checkpointId at any depth reads as a checkpoint of the report |
| InspectionAccess.SavedDraftPointsInside | src/modules/inspections/inspection.service.ts:136-157 | so it is in every saved draft that names photos |
| InspectionAccess.UploadedEndsAfterADay | src/modules/inspections/inspection-assets.service.ts:60-73 | a new photo can be claimed for removal from 24 hours on and not before |
| InspectionAccess.DroppedEndsAfterADay | src/modules/inspections/inspection.service.ts:199-204 | so can a photo that a save drops from a report |
| InspectionAccess.CleanupLimits | src/modules/inspections/inspection.service.ts:774 | cleanup takes on 1 to 1000 uploads |
| InspectionExample.ReportCanBeFinalized | src/modules/inspections/inspection.service.ts:480-573 | a concrete run that uploads a photo, creates a report and finalizes it, whose version names the photo |
| Delivery.SendLog.SendInspectionReport | src/modules/inspections/inspection-delivery.service.ts:59-199 | undisturbed, one call yields the existing row of its key, a new row with the provider's outcome, or a refusal, and says when the provider is called |
| Delivery.SendLog.UpdateWhatsAppStatus | src/modules/inspections/inspection-delivery.service.ts:201-232 | which rows a callback may move, to what, and what it answers |
| Delivery.SendLog.UpdateEmailStatus | src/modules/inspections/inspection-delivery.service.ts:234-263 | exactly the matching rows change, by log id with an unset or equal provider id, else by provider id |
| DeliveryStatuses.CallbackAgreesWithAnswer | src/modules/inspections/inspection-delivery.service.ts:52-57 | for every text a callback reads failed, or sent, if and only if an answer to a submission does |
| DeliveryStatuses.CaseDoesNotMatter | src/modules/inspections/inspection-delivery.service.ts:207-214 | letters in either case read alike, in answers, callbacks and e-mail events |
| DeliveryStatuses.FailureWords | src/modules/inspections/inspection-delivery.service.ts:207-214 | failed, undelivered and canceled read as failed in both |
| DeliveryStatuses.DeliveredWords | src/modules/inspections/inspection-delivery.service.ts:207-214 | delivered and read read as delivered in a callback |
| DeliveryStatuses.EmailFailureWords | src/modules/inspections/inspection-delivery.service.ts:240-247 | bounced, failed and complained e-mails are failed |
| DeliveryStatuses.CallbackSettles | src/modules/inspections/inspection-delivery.service.ts:215-231 | a failure or delivery callback on an own open row leaves it so; one for another's row or a settled one changes nothing; no second row changes |
| DeliveryStatuses.EmailEventSettles | src/modules/inspections/inspection-delivery.service.ts:249-262 | the same of e-mail events, with the reason of a failure |
| DeliveryStatuses.Conclusions | src/modules/inspections/inspection-delivery.service.ts:144-197 | an accepted e-mail is sent, a WhatsApp message stands as its answer reads, anything else has failed |
| DeliveryStatuses.RetryGetsRow | src/modules/inspections/inspection-delivery.service.ts:75-81 | in every reachable state a retry of a recorded send gets its row in one step |
| DeliveryStatuses.NotReadyIsRefused | src/modules/inspections/inspection-delivery.service.ts:93-107 | without a final report, its document or a live subscription nothing is inserted or sent |
| DeliveryProtocol.RunGrows | src/modules/inspections/inspection-delivery.service.ts:155-158 | over every interleaving rows stay with their requests, and status only rises in QUEUED, SENT, DELIVERED, FAILED; FAILED is final |
| DeliveryProtocol.DeliveredIsLeftIff | src/modules/inspections/inspection-delivery.service.ts:191-197 | a step takes a row out of DELIVERED if and only if it is the catch update of the caller that created the row |
| DeliveryProtocol.DeliveredCanBeLost | src/modules/inspections/inspection-delivery.service.ts:191-197 | a concrete run in which that happens |
| DeliveryProtocol.RunKeeps | src/modules/inspections/inspection-delivery.service.ts:109-135 | over every interleaving: one row per key, one creator per row, at most one send per row, results are rows of the caller's own request |
| DeliveryProtocol.AtMostOneSendPerKey | src/modules/inspections/inspection-delivery.service.ts:137-181 | however many callers retry or race, the provider is called at most once for an organization and request id |
| DeliveryProtocol.ResultsAgree | src/modules/inspections/inspection-delivery.service.ts:75-81 | all callers of a key that get a result get one row, and asked for exactly the send it records |
| DeliveryProtocol.MismatchGetsNothing | src/modules/inspections/inspection-delivery.service.ts:130-133 | a caller asking for something else under a used key never gets a result, and no send is ever made for it |
| DeliveryProtocol.RunRemembers | src/modules/inspections/inspection-delivery.service.ts:75-81 | requests never change and results are final |
| DeliveryProtocol.RacedRowIsThere | src/modules/inspections/inspection-delivery.service.ts:124-129 | a caller that lost the race always finds the winner's row afterwards |
| Calendar.CivilRoundTrip | src/lib/subscription-lock.ts:40-49 | a date is recovered from its day number, in the proleptic Gregorian calendar |
| Calendar.DayFromYearClosed | src/lib/subscription-lock.ts:40-49 | counting month lengths gives the closed leap-year form of ECMA-262 section 21.4.1 |
| Calendar.AddCalendarMonths | src/services/reminder-schedule.ts:36-42 | the steps on a Date end on the target month's same day, clamped to its last |
| Calendar.AddMonths | src/lib/subscription-lock.ts:40-49 | overflow and setUTCDate(0) end on the clamped date, time of day kept, for every instant and month count |
| Calendar.RollBackClamps | src/lib/subscription-lock.ts:40-49 | rolling back from an overflowed month is clamping |
| Calendar.WeekNumberIsIso | src/services/reminder-schedule.ts:80-87 | week numbers are 1 to 53, week 1 being the one with 4 January in it |
| Calendar.WeekNamed | src/services/reminder-schedule.ts:80-87 | two days have the same week year and number if and only if they share a Monday-to-Sunday week |
| ReminderSchedule.WeeklyKey | src/services/reminder-schedule.ts:80-87 | moving a Date to Thursday and dividing from New Year yields the ISO week key |
| ReminderSchedule.SameKeyIffSamePeriod | src/services/reminder-schedule.ts:72-103 | for every frequency two dates have equal key texts if and only if they are in the same period |
| ReminderSchedule.PeriodsAreOrdered | src/services/reminder-schedule.ts:72-103 | a later day is never in an earlier period |
| ReminderSchedule.NextDueIsNextPeriod | src/services/reminder-schedule.ts:44-70 | the next due date is at least 7 days later and in the period right after, despite clamping |
| ReminderSchedule.ComputeStatus | src/services/reminder-schedule.ts:105-117 | open reminders are due or overdue exactly from the due date less the lead days on |
| ReminderProperties.StatusAdvances | src/services/reminder-schedule.ts:105-117 | as days pass a due date is upcoming, due, overdue, in that order, and due on its own day |
| ReminderProperties.NextDueKeepsDay | src/services/reminder-schedule.ts:36-70 | a week on, or the same day one, three, six or twelve months on, the last where there is no such day |
| ReminderProperties.KeysRead | src/services/reminder-schedule.ts:72-103 | the keys of 1 January 1970 read 1970-01, 1970-Q1, 1970-H1 and 1970 |
| ReminderProperties.WeekKeyReads | src/services/reminder-schedule.ts:80-87 | and 1970-W01 |
| ReminderJob.SelectQualifies | src/services/reminder-auto-whatsapp.ts:64-89 | what is selected is due, reachable, unsent and unpaid, and is a given reminder with fresh status |
| ReminderProperties.SelectedIff | src/services/reminder-auto-whatsapp.ts:64-89 | a reminder is selected if and only if it is open, due within the lead days, reachable, unsent and, for a payment, owed for: by the live balance of its invoice, else by the amount it stores |
| ReminderProperties.PaidGetsNoMessage | src/services/reminder-auto-whatsapp.ts:43-52 | a payment reminder whose invoice is paid gets no message in any series of runs, whatever it stores |
| ReminderProperties.OthersGetNoMessage | src/services/reminder-auto-whatsapp.ts:79-88 | nor does any other that does not await one |
| ReminderProperties.SentPaymentMovesOn | src/services/reminder-auto-whatsapp.ts:91-118 | after a send a payment reminder is open in its next period, with its key, the date after, a fresh status and the balance it was sent for |
| ReminderProperties.SentServiceIsMarked | src/services/reminder-auto-whatsapp.ts:120-134 | a service reminder is marked as sent and otherwise as it was |
| ReminderJob.MoveOn | src/services/reminder-auto-whatsapp.ts:91-134 | a sent reminder is marked, then a PAYMENT one moves to its next period while money is owed |
| ReminderJob.ReminderTable.Process | src/services/reminder-job.service.ts:72-155 | one run: the rows saved, attempted = sent + failed, both skip counters 0, advances counted even when the save then fails |
| ReminderJob.SendSpends | src/services/reminder-job.service.ts:119-148 | a send moves a PAYMENT due date at least 7 days and lowers the number of messages the reminder can still cause |
| ReminderJob.RepeatedRunsAreBounded | src/services/reminder-job.service.ts:104-152 | over any series of runs at one moment, with any failures, saved sends stay within the budget |
| ReminderJob.MessagesOfOneReminder | src/services/reminder-job.service.ts:104-152 | over any series of runs at one moment the messages of a PAYMENT reminder, less those whose save failed, are at most (now + lead - due) div 7 + 1, of a SERVICE one at most one, of one not due none |
| ReminderJob.BoundedIffNone | src/services/reminder-job.service.ts:119-151 | the messages of a reminder are bounded over every series of runs, whatever fails, if and only if it gets none: failing saves let it go out in every run |
| ReminderJob.MessagesCanRepeat | src/services/reminder-job.service.ts:119-151 | a service reminder due today whose messages no number bounds |
| ReminderJob.RunsGoQuiet | src/services/reminder-job.service.ts:96-154 | with sends and saves succeeding, repeating the job ends with nothing selected |
| Wallet.WalletDb.UpsertInvoice | src/modules/invoices/wallet-sync.service.ts:3-179 | the loops post exactly usage change, new extras and reversals in order, stamp the payments, store the invoice; a refusal changes nothing |
| Wallet.WalletDb.AdjustWallet | src/modules/customers/customer.service.ts:302-357 | one posting, nothing for an unknown customer, refused without effect for bad amounts or overdrafts |
| Wallet.CreditExtras | src/modules/invoices/wallet-sync.service.ts:96-133 | every unstamped qualifying extra is credited once, in order, and stamped with its own transaction |
| Wallet.ReverseDeleted | src/modules/invoices/wallet-sync.service.ts:136-171 | exactly the stamped extras of removed payments are taken back, stopping at the first that would overdraw |
| WalletProperties.RunReconciles | src/modules/invoices/wallet-sync.service.ts:20-178 | over every run each balance is its start plus credits minus debits, each balanceAfter the running sum, and non-negative stays non-negative |
| WalletProperties.RunFromStartReconciles | src/modules/customers/customer.service.ts:311-356 | from an empty ledger and any balances every run reconciles with those balances |
| WalletProperties.LedgerOnlyGrows | src/modules/invoices/wallet-sync.service.ts:54-61 | a run keeps every earlier ledger row in place |
| WalletProperties.SaveTelescopesIff | src/modules/invoices/wallet-sync.service.ts:28-171 | a save keeps ledger and stored invoice in step if and only if the stamped extras coming in equal those kept |
| WalletProperties.SanctionedKeeps | src/modules/invoices/wallet-sync.service.ts:135-145 | keeping surviving payments as stored and adding unstamped ones meets that condition |
| WalletProperties.EditsTelescope | src/modules/invoices/invoices.service.ts:109-121 | after any history of such edits, among any other saves and adjustments, the invoice's ledger total is its stamped extras minus its wallet use |
| WalletProperties.EditedExtraIsNotPosted | src/modules/invoices/wallet-sync.service.ts:97-100 | a run of two saves from an empty wallet, the second raising the stamped extra, after which ledger and stored invoice differ |
| WalletProperties.ResaveChangesNothing | src/modules/invoices/wallet-sync.service.ts:28-171 | saving the stored invoice again adds no ledger row and changes nothing, with a known customer, an unknown one or none |
| WalletPostings.PostIff | src/modules/invoices/wallet-sync.service.ts:28-171 | postings succeed if and only if every debit is covered when its turn comes, and add one row each, in order, with the running balance |
| WalletPostings.SaveRefusedIff | src/modules/invoices/wallet-sync.service.ts:12-143 | a save is refused if and only if the invoice is another organization's or a debit is not covered |
| WalletPostings.StampsPointToCredits | src/modules/invoices/wallet-sync.service.ts:96-133 | every newly stamped payment names the ledger row that credits its extra; all others are stored as they came |
| WalletPostings.SaveStoresWhatCame | src/modules/invoices/invoices.service.ts:109-121 | but for stamps the stored invoice is what came, and no other invoice changes |
| WalletPostings.ForeignInvoicesStay | src/modules/invoices/wallet-sync.service.ts:12-14 | no run changes another organization's invoice |
| WalletPostings.AdjustMoves | src/modules/customers/customer.service.ts:302-357 | exactly when an adjustment is refused, and the one row and balance it leaves |
| MessageSplit.SplitAtBoundaries | src/services/whatsapp-message-split.ts:8-55 | the closures and nested loops compute the packing specification |
| MessageSplit.ChunksKeep | src/services/whatsapp-message-split.ts:8-55 | chunks fit, are not empty, and in order hold every non-white-space unit of the text and no other |
| MessageLines.LinesSurvive | src/services/whatsapp-message-split.ts:8-55 | where every line of a text fits, no line is broken and no two are joined, within a chunk or across chunks |
| MessageLines.ParagraphsArePackedGreedily | src/services/whatsapp-message-split.ts:20-54 | where every paragraph fits, chunks are groups of paragraphs in order, blank lines between them, each as full as it could be |
| MessageSplit.SplitWhatsAppMessage | src/services/whatsapp-message-split.ts:57-78 | two passes and labelling give the labelled chunks, for every body and every limit, negative ones included, for which the program stops |
| MessageSplit.MessageKeepsContent | src/services/whatsapp-message-split.ts:57-78 | labels removed, the parts spell the body's non-white-space content in order |
| MessageLines.MessageKeepsLines | src/services/whatsapp-message-split.ts:57-78 | labels removed, a message's written lines are its body's where they fit |
| MessageLines.LabelIsItsOwnLine | src/services/whatsapp-message-split.ts:77 | a label is a line of its own before its chunk's |
| MessageSplit.MessageFits | src/services/whatsapp-message-split.ts:65-78 | every part fits with its label, for up to 9999 chunks and beyond that while the second pass needs no more digits |
| MessageSplitStops.StopsIff | src/services/whatsapp-message-split.ts:8-78 | for any limit: within some number of turns of the cutting loop the program comes back if and only if each pass it makes leaves at least one unit for content, and then with the specified message |
| MessageSplitStops.NeverStops | src/services/whatsapp-message-split.ts:43-45 | two letters under a limit of one are cut forever |
| MessageSplitStops.UpTo9999ChunksStop | src/services/whatsapp-message-split.ts:57-78 | with a limit above 12 and at most 9999 chunks splitting stops and every part fits |
| MessageSplitStops.ChunkCount | src/services/whatsapp-message-split.ts:8-55 | a text makes at most its length plus three chunks |
| MessageSplitStops.EveryStringStops | src/services/whatsapp-message-split.ts:2 | from a limit of 37 on, so also at 1600, splitting stops for every string of up to 2^53 - 1 units |
| MessageSplitStops.MessageCanExceed | src/services/whatsapp-message-split.ts:69-77 | 100002 letters under a limit of 15 give a last part of 17 |
| MessageSplitStops.SolidCounts | src/services/whatsapp-message-split.ts:65-74 | a body of n units without white space over the limit makes n / (limit - 12) chunks at first, rounded up, and n / (limit - kept back) in the end, all but the last full |
| MessageSplitStops.SolidFitsIff | src/services/whatsapp-message-split.ts:65-78 | its parts all fit if and only if it is not cut, or makes at most 9999 chunks at first, or the second pass needs no more digits |
| MessageSplitStops.SessionMessageCanExceed | src/services/whatsapp-message-split.ts:58-78 | at a limit of 1600, 99999 x 1588 letters give a part of 1601 units |
| PartyLedger.SortKeeps | src/lib/party-ledger.ts:181-293 | entries are ordered by time, none lost or added |
| PartyLedger.SortIsStable | src/lib/party-ledger.ts:181-293 | entries of one moment keep the order in which they were pushed |
| PartyLedger.LatestPayment | src/lib/party-ledger.ts:301-419 | the wallet row is dated with the latest payment |
| PartyLedger.BuildPartyStatement | src/lib/party-ledger.ts:181-293 | pushing, sorting and the running-balance loop yield the statement specification |
| PartyLedger.BuildPublicCustomerStatement | src/lib/party-ledger.ts:301-419 | the same for the public form, with wallet rows |
| PartySelection.ForeignInvoiceMakesNoDifference | src/lib/party-ledger.ts:33-52 | another customer's invoice, anywhere in the list, changes no statement, public statement, summary or balance |
| PartySelection.ForeignExpenseMakesNoDifference | src/lib/party-ledger.ts:44-50 | nor does an expense at another vendor |
| PartySelection.CustomerRowsIff | src/lib/party-ledger.ts:205-241 | a customer statement has a row if and only if it is the sale or a payment of an own invoice dated in the period |
| PartySelection.PublicRowsIff | src/lib/party-ledger.ts:301-419 | the public one also for wallet use above one paisa |
| PartySelection.SupplierRowsIff | src/lib/party-ledger.ts:242-271 | a supplier statement if and only if it is the purchase, or the payment, of an own expense dated in the period |
| PartySelection.OpeningHasItsSide | src/lib/party-ledger.ts:55-63 | an opening balance counts up on a party's own side and down on the other |
| PartySelection.StatementsOpenAtOpening | src/lib/party-ledger.ts:187-198 | statements begin at that balance |
| PartySelection.OverdueIsOutstandingIff | src/lib/party-ledger.ts:455-460 | what is overdue is part of what is outstanding, and all of it if and only if no invoice of one paisa or marked paid is outstanding |
| PartyReconciliation.TotalOfPermutation | src/lib/party-ledger.ts:181-293 | totals do not depend on how ties are ordered |
| PartyReconciliation.RowBalance | src/lib/party-ledger.ts:181-293 | each row's balance is opening plus the debits less credits up to it |
| PartyReconciliation.ClosingIsOpeningPlusNet | src/lib/party-ledger.ts:181-293 | the closing balance is opening plus the unsorted entries' net |
| PartyReconciliation.PublicStatementReconciles | src/lib/party-ledger.ts:301-419 | over all time closing plus overpayment equals the current balance plus hidden wallet use |
| PartyReconciliation.PublicStatementReconcilesIff | src/lib/party-ledger.ts:65-77 | it equals the current balance if and only if the wallet uses of at most one paisa cancel out; where none is negative, if and only if no invoice used exactly one paisa |
| PartyReconciliation.OnePaisaIsLeftOut | src/lib/party-ledger.ts:301-419 | an invoice of 100 with one paisa of wallet use: 99 owed, closing at 100 |
| PartyReconciliation.SupplierStatementReconciles | src/lib/party-ledger.ts:181-293 | the supplier statement reconciles up to negative amounts paid |
| PartyReconciliation.SupplierStatementReconcilesIff | src/lib/party-ledger.ts:65-77 | exactly if no open expense records a negative amount paid |
| PartyReconciliation.NegativePaidIsLeftOut | src/lib/party-ledger.ts:256-268 | a pending expense of 100 with -30 paid: 130 owed, closing at 100 |
| PartyReconciliation.BuildPartySummary | src/lib/party-ledger.ts:436-483 | the summary's folds and loops give its specification |
| PartyReconciliation.CustomerColumnsMatchSummary | src/lib/party-ledger.ts:436-483 | for any period a customer statement's columns sum to the summary's sales and receipts |
| PartyReconciliation.SupplierColumnsAgainstSummary | src/lib/party-ledger.ts:436-483 | for suppliers purchases match, payments up to unmarked part payments, which the summary leaves out, and negative marked ones, which it subtracts |
| PartyReconciliation.SupplierColumnsMatchIff | src/lib/party-ledger.ts:466-472 | for any period a supplier statement's payments sum to the summary's if and only if every expense in it is PAID, or PARTIAL with an amount paid not below zero, or otherwise marked with none above zero |
| PartyReconciliation.SupplierColumnsCanDiffer | src/lib/party-ledger.ts:466-472 | a pending expense with 40 paid: the statement shows 40, the summary 0 |
| JsonStore.StorageIdInjective | src/constants/json-collections.ts:68-70 | organizations never share a storage id, nor the legacy one |
| JsonStore.AppJsonStore.UpsertItem | src/modules/collections/app-json-store.ts:270-342 | the upsert with its migration and user tracking, or a conflict without effect |
| JsonStore.UpsertRefines | src/modules/collections/app-json-store.ts:279-341 | a singleton write, migrating or not, is a plain map update of its organization's document; no other organization's view changes, and no one gets both row kinds |
| JsonStore.LastWriteWins | src/modules/collections/app-json-store.ts:234-260 | after any run of writes an organization reads exactly its own last write, tracked against what that write replaced, or what it read at the start |
| JsonStore.TrackedIsPayload | src/modules/collections/app-json-store.ts:310-320 | beside the two tracking fields a stored document has the payload's fields, unchanged, and no other |
| JsonStore.ListAgreesWithGet | src/modules/collections/app-json-store.ts:103-139 | listing gives what getting gives |
| JsonStore.ListAgreesWithGetIff | src/modules/collections/app-json-store.ts:103-139 | on arbitrary rows they agree unless a foreign row with another payload sits under the scoped id over an own legacy row |
| JsonStore.ListAgreesAfterWrites | src/modules/collections/app-json-store.ts:103-139 | along every run of singleton writes listing gives what getting gives |
| JsonStore.ForeignWriteParts | src/modules/collections/app-json-store.ts:279-291 | a direct write under another organization's storage id is accepted and makes the two differ |
| JsonStore.CreatorSurvivesIff | src/modules/collections/app-json-store.ts:310-320 | a write by a known user keeps the recorded creator if and only if the document was already scoped or the writer is the creator; one without a user if and only if its payload names that creator |
| JsonStore.CreatorIsReplaced | src/modules/collections/app-json-store.ts:311-319 | a first scoped write by v of a document created by u records v |
| JsonStoreProtocol.StatementsMakeUpsert | src/modules/collections/app-json-store.ts:279-342 | undisturbed, the look-up, search, deletion and write amount to the upsert as one step, refusal included |
| JsonStoreProtocol.OthersSeeNothing | src/modules/collections/app-json-store.ts:279-342 | no statement of a writer changes what another organization, or another collection, reads |
| JsonStoreProtocol.VanishesIff | src/modules/collections/app-json-store.ts:294-307 | a step makes a document unreadable if and only if it deletes the legacy row of its organization while no scoped row is there |
| JsonStoreProtocol.StepKeepsDocumentIff | src/modules/collections/app-json-store.ts:294-342 | a document that is there or about to be written stays so in a step if and only if the step is not the failure of the only writer about to write it while it is gone |
| JsonStoreProtocol.DocumentSurvives | src/modules/collections/app-json-store.ts:294-342 | over every interleaving without such a failure a document is there again whenever no writer is about to write it |
| JsonStoreProtocol.DocumentCanBeLost | src/modules/collections/app-json-store.ts:303-332 | a run of one writer that leaves nothing where a legacy document was |
| JsonStore.LastItemWins | src/modules/collections/app-json-store.ts:398-405 | a snapshot's map holds, for each usable trimmed id, the last item with it |
| JsonStore.AppJsonStore.ReplaceArray | src/modules/collections/app-json-store.ts:387-486 | the snapshot replacement, or a refusal without effect |
| JsonStore.ReplaceIsExact | src/modules/collections/app-json-store.ts:426-473 | afterwards the organization has exactly the snapshot, each document with its former creator, and every other row is untouched |
| JsonStore.ReplaceRefusedIff | src/modules/collections/app-json-store.ts:58-72 | a snapshot is refused if and only if it would empty a financial collection that holds something, or claims an id another organization holds |
| JsonStore.OthersRowsStay | src/modules/collections/app-json-store.ts:289-291 | no write, single or snapshot, changes another organization's row |
| JsonStore.ArrayWriteIsRead | src/modules/collections/app-json-store.ts:285-342 | a document is written unless another organization holds its id, is then what a get gives, and no other row changes |
| JsonStore.WriterIsNoted | src/modules/collections/app-json-store.ts:312-320 | a known user is noted as last writer, and as creator of a new document |
| JsonStore.SnapshotNotesWriter | src/modules/collections/app-json-store.ts:448-456 | a snapshot does so on each of its documents |
| Incentives.PeriodsTileTheYear | src/lib/company-target-periods.ts:48-108 | each period starts the millisecond after the one before ends |
| Incentives.FirstMonth | src/lib/company-target-periods.ts:22-29 | January 1970 begins at instant 0 and lasts 31 days of 24 hours |
| Incentives.ExactlyOnePeriod | src/lib/company-target-periods.ts:48-108 | a millisecond lies in a period if and only if it lies in the year, and never in two |
| Incentives.PeriodForMonth | src/lib/company-target-periods.ts:114-129 | the period found covers the whole month, the last one for a month out of range |
| Incentives.RevenueAdds | src/lib/company-target-engine.ts:95-115 | revenues of adjoining stretches add up, for any invoices |
| Incentives.PeriodsSumToTheYear | src/lib/company-target-engine.ts:95-115 | a year's periods of any type sum to the year's revenue |
| Incentives.QuarterIsItsMonths | src/lib/company-target-periods.ts:63-77 | a quarter's revenue is that of its three months |
| Incentives.SelectAchievedTier | src/lib/company-target-engine.ts:132-147 | none exactly if no target is reached, else the highest reached, the first of equals |
| Incentives.ShareIsNearest | src/lib/company-target-engine.ts:210-220 | n equal rounded shares miss the pool by at most n/2 paise |
| Incentives.PoolIsNearest | src/lib/company-target-engine.ts:152-154 | a pool is the tier's percentage of the revenue to the nearest paisa |
| Incentives.EachMemberCountsIff | src/lib/company-target-engine.ts:165-195 | a member of staff adds one to those sharing a pool if and only if active, of the role, no super admin, and joined in time within the first five days of a month |
| Incentives.RevenueWords | src/lib/company-target-engine.ts:86-90 | which invoice statuses count as revenue, in any case of letters |
| Incentives.TiersPayTheirPools | src/lib/company-target-engine.ts:228-250 | that bound for every achieved tier with staff; nothing for others; no tier affects another |
| RateLimiter.Limiter.Enforce | src/controllers/public.controller.ts:32-50 | accepts or refuses and updates only the key's own entry |
| RateLimiter.FewerThanTwiceTheLimit | src/controllers/public.controller.ts:32-50 | with a clock that never goes back, any half-open interval of a window's length has at most 2 x limit - 1 acceptances per key |
| RateLimiter.BoundIsReached | src/controllers/public.controller.ts:32-50 | that bound is attained, for every key, every limit of at least 1 and every window of at least 2 milliseconds |
| RateLimiter.AtMostTheLimitInAWindow | src/controllers/public.controller.ts:32-50 | from the request that opens a window at most the limit is accepted until it ends |
| RateLimiter.RefusedOnlyAtTheLimit | src/controllers/public.controller.ts:32-50 | a refusal means the limit was already accepted within the last window's length |

## Left out

- Transactions are atomic: within a transaction no other step is interleaved, except finalization, whose reads and commit are separate steps. Locking and isolation levels of the database are not modelled.
- Uploading a photo (create the row, store the object, delete the row on failure) is one step that succeeds or does nothing.
- The access guards `assertBranch`, `assertRelatedRecords` and the size, text length, rating and odometer limits of `validateInspectionPayload`: they only refuse, before anything is written. The condition fields are parsed in full, with integer pin coordinates.
- The finalized PDF, its document key and its removal after a failed commit; listing, templates, file downloads and customer access to inspections.
- A cleanup job's first query is a choice of any upload at any time, since the claim repeats its condition.
- Deleting reports, rows of the send log or organizations outright (database cascades): the service only marks reports deleted.
- The report, version and subscription checks before a send are one yes-or-no input; contents of messages and documents, and Twilio, Resend and object storage themselves, are outcomes of a step.
- Lower-casing and upper-casing are those of ASCII letters.
- Time zones and daylight saving, parsing of date texts (dates are calendar dates, instants milliseconds), and period labels.
- Floating point: amounts are whole paise, so rounding shows only in rewards and shares; reward percentages are reals.
- Message texts of reminders, and reading settings from stored payloads.
- Reading an invoice, syncing its wallet and storing it is one step; the code would lose the stamps if it stopped in between. Referral and tax guards of `upsertInvoice`, `replaceInvoices`, `deleteInvoice` and `updateCustomer`, which bypass the wallet, are left out.
- Transaction ids are positions in the ledger; names, descriptions, sources and dates of ledger rows are left out.
- MessageSplit.SplitWhatsAppMessage: requires the condition under which the loops stop, since a method that never returns has no result to state; MessageSplitStops.StopsIff proves that outside it they do not.
- MessageSplit.MessageFits: gives no exact condition past 9999 chunks, since whether a part fits then depends on how full each chunk is; MessageSplitStops.SolidFitsIff is exact for bodies without white space.
- Item-wise reports, transaction lists, and relative report presets; a period is an arbitrary condition on timestamps.
- The document store's name tables (a collection is given as singleton or array), paged and branch-scoped lists, deletes, the pickup-and-drop write block, activity logs, creation dates, and arrays as payloads of an upsert. In JsonStore an upsert's find, delete and write are one step; JsonStoreProtocol splits them, for singletons only. Direct writes to a singleton under its raw storage id are left out of both.
- `computePeriodResult`, and `normalizeRoleKey`, which is any function on role texts.
- Routes, controllers other than the limiter, sign-in, pricing, plans, attendance and scripts, which would add only easy members.
