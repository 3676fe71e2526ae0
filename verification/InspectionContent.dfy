/**
 * What reports hold: a save stores what was sent, and a version holds the draft with the conditions and names of its
 * finalization (src/modules/inspections/inspection.service.ts:212-284, 480-573, inspection-validation.ts:18-42).
 */
module InspectionContent {
  import opened Wrappers
  import opened Words
  import opened Json
  import opened InspectionData
  import opened Inspection

  // ---- A save stores what was sent ----

  const OVERALL := "overallPreDriveCondition"
  const PINS := "vehicleConditions"

  predicate SameTextTrimmed(sent: Json, stored: Json) {
    sent.Str? && stored == Str(Strip(sent.text))
  }

  /** A stored pin: every declared field as sent, the two names trimmed, and nothing else. */
  predicate SamePin(sent: Json, stored: Json) {
    && stored.Obj? && stored.fields.Keys <= {"id", "number", "type", "x", "y", "area", "notes"}
    && SameTextTrimmed(FieldOf(sent, "id"), FieldOf(stored, "id"))
    && SameTextTrimmed(FieldOf(sent, "area"), FieldOf(stored, "area"))
    && (forall k <- {"number", "type", "x", "y", "notes"} :: FieldOf(stored, k) == FieldOf(sent, k))
  }

  predicate SamePins(sent: Json, stored: Json) {
    && sent.Arr? && stored.Arr? && |stored.items| == |sent.items|
    && forall i :: 0 <= i < |sent.items| ==> SamePin(sent.items[i], stored.items[i])
  }

  /** The conditions as sent, absent ones at their defaults. */
  predicate StoresConditions(sent: Fields, stored: Fields) {
    && OVERALL in stored && stored[OVERALL] == (if OVERALL in sent then sent[OVERALL] else Null)
    && PINS in stored && (if PINS in sent then SamePins(sent[PINS], stored[PINS]) else stored[PINS] == Arr([]))
  }

  /** Fields the server alone decides. */
  predicate IsServerField(k: string) {
    k in [
      "id", "branchId", "reportNumber", "revision", "status", "inspectorId",
      "createdAt", "createdBy", "updatedAt", "updatedBy", "finalizedAt", "finalizedBy"]
  }

  /** Outside the conditions a key is stored exactly when it was sent and is no server field, with its value. */
  ghost predicate StoresFields(sent: Fields, stored: Fields) {
    forall k: string | k != OVERALL && k != PINS ::
      && (k in stored <==> k in sent && !IsServerField(k))
      && (k in stored ==> stored[k] == sent[k])
  }

  lemma ParsedPin(j: Json)
    requires PinFits(j)
    ensures SamePin(j, ParsePin(j))
  {
    hide Strip;
  }

  lemma ParsedPins(j: Json)
    requires PinsFit(j)
    ensures SamePins(j, ParsePins(j))
  {
    hide PinFits, ParsePin, SamePin;
    forall i | 0 <= i < |j.items| ensures SamePin(j.items[i], ParsePins(j).items[i]) {
      ParsedPin(j.items[i]);
    }
  }

  lemma NormalizedConditions(payload: Fields)
    requires ConditionsFit(payload)
    ensures StoresConditions(payload, NormalizeConditions(payload))
    ensures NormalizeConditions(payload).Keys == {OVERALL, PINS}
  {
    hide PinsFit, ParsePins, SamePins;
    assert |OVERALL| == 24 && |PINS| == 17;
    if PINS in payload { ParsedPins(payload[PINS]); }
  }

  lemma Sanitized(payload: Fields)
    requires ConditionsFit(payload)
    ensures StoresConditions(payload, SanitizeDraft(payload)) && StoresFields(payload, SanitizeDraft(payload))
  {
    hide ConditionsFit, NormalizeConditions, SamePins, IsServerField;
    NormalizedConditions(payload);
    NoConditionIsServerField();
    forall k: string ensures IsServerField(k) <==> k in SERVER_FIELDS { ServerFieldIff(k); }
  }

  lemma ServerFieldIff(k: string)
    ensures IsServerField(k) <==> k in SERVER_FIELDS
  {}

  lemma NoConditionIsServerField()
    ensures OVERALL !in SERVER_FIELDS && PINS !in SERVER_FIELDS
  {
    assert |OVERALL| == 24 && |PINS| == 17;
    assert forall k <- SERVER_FIELDS :: |k| <= 13;
  }

  /** After a save the draft holds what was sent, at the next revision, and every other report is as before. */
  lemma UpdateStoresWhatWasSent(
    db: Db, organization: string, branch: string, id: string, expected: int, raw: Fields, now: int)
    requires Update(db, organization, branch, id, expected, raw, now).Ok?
    ensures var after := Update(db, organization, branch, id, expected, raw, now).value;
            && id in db.reports && after.reports.Keys == db.reports.Keys && after.assets == db.assets
            && (forall other <- db.reports :: other != id ==> after.reports[other] == db.reports[other])
            && StoresConditions(raw, after.reports[id].data) && StoresFields(raw, after.reports[id].data)
            && after.reports[id].revision == db.reports[id].revision + 1 && after.reports[id].status == DRAFT
  {
    hide ConditionsFit, SanitizeDraft, Link, Expire, Ids, VersionIds, StoresConditions, StoresFields;
    Sanitized(raw);
  }

  /** A new report holds what was sent, as a draft at revision 1 of the caller's organization and branch. */
  lemma CreateStoresWhatWasSent(db: Db, id: string, organization: string, branch: string, raw: Fields)
    requires Create(db, id, organization, branch, raw).Ok?
    ensures var after := Create(db, id, organization, branch, raw).value;
            && id !in db.reports && after.reports.Keys == db.reports.Keys + {id} && after.assets == db.assets
            && (forall other <- db.reports :: after.reports[other] == db.reports[other])
            && StoresConditions(raw, after.reports[id].data) && StoresFields(raw, after.reports[id].data)
            && after.reports[id] == Report(organization, branch, 1, DRAFT, after.reports[id].data, false, [])
  {
    hide ConditionsFit, SanitizeDraft, Link, Ids, StoresConditions, StoresFields;
    Sanitized(raw);
  }

  // ---- What a version holds ----

  /** The snapshot of a draft carries the names and contacts the database had, the branding texts and the actor. */
  predicate NamesAre(r: Related, snapshot: Fields) {
    && FieldOf(Obj(snapshot), "customerName") == Str(r.customerName)
    && FieldOf(Obj(snapshot), "customerPhone") == Str(r.customerPhone)
    && FieldOf(Obj(snapshot), "customerEmail") == Str(r.customerEmail)
    && FieldOf(Obj(snapshot), "vehicleRegistration") == Str(r.registration)
    && FieldOf(Obj(snapshot), "registrationNumber") == Str(r.registration)
    && FieldOf(Obj(snapshot), "vehicleMake") == Str(r.make)
    && FieldOf(Obj(snapshot), "vehicleModel") == Str(r.model)
    && FieldOf(Obj(snapshot), "vehicleMakeModel") == Str(Strip(r.make + " " + r.model))
    && FieldOf(Obj(snapshot), "branchName") == Str(r.branchName)
    && FieldOf(Obj(snapshot), "branchAddress") == Str(r.branchAddress)
    && FieldOf(Obj(snapshot), "finalizedBy") == Str(r.actor)
    && BrandingIs(r.settings, FieldOf(Obj(snapshot), "organizationBranding"))
  }

  predicate BrandingIs(settings: Fields, branding: Json) {
    && branding.Obj?
    && (forall k <- branding.fields :: k in BRANDING)
    && forall k <- BRANDING :: FieldOf(branding, k) == if k in settings && settings[k].Str? then settings[k] else Null
  }

  const DETAIL_KEYS := {
    "customerName", "customerPhone", "customerEmail", "vehicleRegistration", "registrationNumber", "vehicleMake",
    "vehicleModel", "vehicleMakeModel", "branchName", "branchAddress", "organizationBranding", "finalizedBy"}

  lemma DetailsAre(r: Related)
    ensures NamesAre(r, Details(r)) && Details(r).Keys == DETAIL_KEYS
  {
    hide Strip;
  }

  lemma LongKeys(k: string)
    requires |k| in {8, 14, 17, 21, 24}
    ensures k !in DETAIL_KEYS
  {
    assert forall d <- DETAIL_KEYS :: |d| in {9, 10, 11, 12, 13, 16, 18, 19, 20};
  }

  lemma SnapshotNames(data: Fields, conditions: Fields, r: Related)
    requires ConditionsFit(conditions) && ConditionsFit(WithConditions(data, conditions))
    ensures NamesAre(r, FinalSnapshot(data, conditions, r))
  {
    hide ConditionsFit, WithConditions, Details, Snapshot;
    DetailsAre(r);
    StillFits(WithConditions(data, conditions), r);
    var payload, snapshot := FinalPayload(data, conditions, r), FinalSnapshot(data, conditions, r);
    forall k | k in DETAIL_KEYS ensures FieldOf(Obj(snapshot), k) == FieldOf(Obj(Details(r)), k) {
      if k in {OVERALL, PINS, "sections", "computedOverallRating"} {
        assert |OVERALL| == 24 && |PINS| == 17 && |"sections"| == 8 && |"computedOverallRating"| == 21;
        LongKeys(k);
      }
      SnapshotKeepsField(payload, k);
    }
    hide FinalSnapshot, BrandingIs;
    SameNames(r, Details(r), snapshot);
  }

  lemma SameNames(r: Related, a: Fields, b: Fields)
    requires NamesAre(r, a) && forall k <- DETAIL_KEYS :: FieldOf(Obj(b), k) == FieldOf(Obj(a), k)
    ensures NamesAre(r, b)
  {
    hide BrandingIs;
  }

  /** The value a draft's condition field has once those given at finalization are put over it. */
  function Given(data: Fields, conditions: Fields, key: string): Option<Json> {
    if key in conditions then Some(conditions[key]) else if key in data then Some(data[key]) else None
  }

  lemma TwiceTrimmed(a: Json, b: Json, c: Json)
    requires SameTextTrimmed(a, b) && SameTextTrimmed(b, c)
    ensures SameTextTrimmed(a, c)
  {
    StripTwice(a.text);
  }

  lemma SamePinTwice(a: Json, b: Json, c: Json)
    requires SamePin(a, b) && SamePin(b, c)
    ensures SamePin(a, c)
  {
    hide SameTextTrimmed;
    TwiceTrimmed(FieldOf(a, "id"), FieldOf(b, "id"), FieldOf(c, "id"));
    TwiceTrimmed(FieldOf(a, "area"), FieldOf(b, "area"), FieldOf(c, "area"));
  }

  lemma SamePinsTwice(a: Json, b: Json, c: Json)
    requires SamePins(a, b) && SamePins(b, c)
    ensures SamePins(a, c)
  {
    hide SamePin;
    forall i | 0 <= i < |a.items| ensures SamePin(a.items[i], c.items[i]) {
      SamePinTwice(a.items[i], b.items[i], c.items[i]);
    }
  }

  predicate ConditionsAre(data: Fields, conditions: Fields, snapshot: Fields) {
    var overall, pins := Given(data, conditions, OVERALL), Given(data, conditions, PINS);
    && FieldOf(Obj(snapshot), OVERALL) == (if overall.Some? then overall.value else Null)
    && PINS in snapshot && if pins.Some? then SamePins(pins.value, snapshot[PINS]) else snapshot[PINS] == Arr([])
  }

  lemma ParsedOver(data: Fields, conditions: Fields)
    requires ConditionsFit(conditions)
    ensures var mid := WithConditions(data, conditions);
            && (OVERALL in mid <==> Given(data, conditions, OVERALL).Some?)
            && (OVERALL in mid ==> mid[OVERALL] == Given(data, conditions, OVERALL).value)
            && (PINS in mid <==> Given(data, conditions, PINS).Some?)
            && (PINS in mid ==>
                  if PINS in conditions then SamePins(conditions[PINS], mid[PINS]) else mid[PINS] == data[PINS])
  {
    hide SamePins, ParsePins, PinsFit;
    assert |OVERALL| == 24 && |PINS| == 17;
    if PINS in conditions { ParsedPins(conditions[PINS]); }
  }

  lemma SnapshotNormalizes(payload: Fields)
    requires ConditionsFit(payload)
    ensures StoresConditions(payload, Snapshot(payload))
  {
    hide ConditionsFit, NormalizeConditions, SamePins, RatedSections, OverallRating;
    assert |OVERALL| == 24 && |PINS| == 17 && |"sections"| == 8 && |"computedOverallRating"| == 21;
    NormalizedConditions(payload);
  }

  /** The conditions of a version are those given when it was finalized, else the draft's own. */
  lemma SnapshotConditions(data: Fields, conditions: Fields, r: Related)
    requires ConditionsFit(conditions) && ConditionsFit(WithConditions(data, conditions))
    ensures ConditionsAre(data, conditions, FinalSnapshot(data, conditions, r))
  {
    hide ConditionsFit, WithConditions, Details, Snapshot, SamePins;
    var mid, snapshot := WithConditions(data, conditions), FinalSnapshot(data, conditions, r);
    var payload := FinalPayload(data, conditions, r);
    ParsedOver(data, conditions);
    DetailsAre(r);
    LongKeys(OVERALL);
    LongKeys(PINS);
    StillFits(mid, r);
    SnapshotNormalizes(payload);
    if PINS in conditions { SamePinsTwice(conditions[PINS], mid[PINS], snapshot[PINS]); }
  }

  /** Every other field of a version is the draft's, a section's only addition its rating. */
  lemma SnapshotKeepsTheRest(data: Fields, conditions: Fields, r: Related, k: string)
    requires ConditionsFit(conditions) && ConditionsFit(WithConditions(data, conditions))
    requires k !in DETAIL_KEYS && k !in {OVERALL, PINS, "computedOverallRating"}
    ensures var snapshot := FinalSnapshot(data, conditions, r);
            if k != "sections" then FieldOf(Obj(snapshot), k) == FieldOf(Obj(data), k)
            else SectionsOf(snapshot) == RatedSections(SectionsOf(data))
  {
    hide ConditionsFit, Details, Snapshot, RatedSections, ParsePins;
    DetailsAre(r);
    StillFits(WithConditions(data, conditions), r);
    var payload := FinalPayload(data, conditions, r);
    if k == "sections" {
      LongKeys(k);
      assert |k| == 8 && |OVERALL| == 24 && |PINS| == 17;
      SnapshotSections(payload);
    } else {
      SnapshotKeepsField(payload, k);
    }
  }

  lemma SectionGainsItsRating(section: Json, k: string)
    ensures FieldOf(RatedSection(section), k) ==
            if k == "computedRating" then Str(SectionRating(section)) else FieldOf(section, k)
  {
    hide SectionRating;
  }

  // ---- Where photos are named, and what pins fit ----

  /** The five places: by id in a list of photos, attachments or inspection photos, or under photoId or uploadId. */
  lemma PhotoPlaces(k: string)
    ensures IsPhotoList(k) <==> k == "photos" || k == "attachments" || k == "inspectionPhotos"
    ensures IsPhotoKey(k) <==> k == "photoId" || k == "uploadId"
  {
  }

  /** A photo in any of them is collected. */
  lemma PhotoIsCollected(k: string, x: string)
    ensures IsPhotoList(k) ==> x in UploadIds(Arr([Obj(map["id" := Str(x)])]), k)
    ensures IsPhotoKey(k) ==> x in UploadIds(Obj(map[k := Str(x)]), "")
  {
    hide UploadIds;
    ArrIds([Obj(map["id" := Str(x)])], k);
    ObjIds(map["id" := Str(x)], k);
    ObjIds(map[k := Str(x)], "");
    var item := Obj(map["id" := Str(x)]);
    assert IsPhotoList(k) ==> x in UploadIds([item][0], k);
    if IsPhotoKey(k) { assert x in MemberIds(k, map[k := Str(x)][k]); }
  }

  /** A pin that fits: name and area of bounded length, a positive number, a known type, a place in percent. */
  lemma FittingPin(j: Json)
    requires PinFits(j)
    ensures j.Obj?
    ensures FieldOf(j, "id").Str? && 1 <= |Strip(FieldOf(j, "id").text)| <= 120
    ensures FieldOf(j, "area").Str? && 1 <= |Strip(FieldOf(j, "area").text)| <= 200
    ensures FieldOf(j, "number").Num? && FieldOf(j, "number").number >= 1
    ensures FieldOf(j, "type") in {Str("SCRATCH"), Str("DENT"), Str("CRACK"), Str("PAINT_CHIP"), Str("OTHER")}
    ensures FieldOf(j, "x").Num? && 0 <= FieldOf(j, "x").number <= 100
    ensures FieldOf(j, "y").Num? && 0 <= FieldOf(j, "y").number <= 100
    ensures "notes" in j.fields ==> j.fields["notes"].Str? && |j.fields["notes"].text| <= 4000
  {
    hide Strip;
  }

  /** At most 200 pins fit, no two of the same trimmed id or the same number. */
  lemma FittingPins(j: Json)
    requires PinsFit(j)
    ensures j.Arr? && |j.items| <= 200 && forall i :: 0 <= i < |j.items| ==> PinFits(j.items[i])
    ensures forall i, k :: 0 <= i < k < |j.items| ==>
              && Strip(FieldOf(j.items[i], "id").text) != Strip(FieldOf(j.items[k], "id").text)
              && FieldOf(j.items[i], "number") != FieldOf(j.items[k], "number")
  {
    forall i | 0 <= i < |j.items|
      ensures ParsePin(j.items[i]).fields["id"] == Str(Strip(FieldOf(j.items[i], "id").text))
      ensures ParsePin(j.items[i]).fields["number"] == FieldOf(j.items[i], "number")
    {
      ParsedNames(j.items[i]);
    }
    hide Strip, PinFits, ParsePin;
  }

  lemma ParsedNames(j: Json)
    requires PinFits(j)
    ensures ParsePin(j).fields["id"] == Str(Strip(FieldOf(j, "id").text))
    ensures ParsePin(j).fields["number"] == FieldOf(j, "number")
  {
    hide Strip;
  }
}
