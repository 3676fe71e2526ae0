/**
 * What an inspection report holds: which photos its data refers to
 * (src/modules/inspections/inspection.service.ts:110-221), when it is complete, and the snapshot that is
 * kept when it is finalized (src/modules/inspections/inspection-validation.ts).
 */
module InspectionData {
  import opened Wrappers
  import opened Words
  import opened JsText
  import opened Json

  type Fields = map<string, Json>

  // ---- Photos ----

  predicate IsPhotoList(key: string) {
    key in ["photos", "attachments", "inspectionPhotos"]
  }

  predicate IsPhotoKey(key: string) {
    key in ["photoId", "uploadId"]
  }

  function OwnId(fields: Fields, parentKey: string): set<string> {
    if IsPhotoList(parentKey) && "id" in fields && fields["id"].Str? then {fields["id"].text} else {}
  }

  function KeyedId(key: string, child: Json): set<string> {
    if IsPhotoKey(key) && child.Str? then {child.text} else {}
  }

  /** The ids that collectUploadIds adds for a value found under parentKey. */
  function UploadIds(value: Json, parentKey: string): set<string> {
    match value
    case Arr(items) => set i, id | 0 <= i < |items| && id in UploadIds(items[i], parentKey) :: id
    case Obj(fields) =>
      OwnId(fields, parentKey)
      + set k, id | k in fields && id in KeyedId(k, fields[k]) + UploadIds(fields[k], k) :: id
    case _ => {}
  }

  /** The ids found under one key. */
  function MemberIds(key: string, child: Json): set<string> {
    KeyedId(key, child) + UploadIds(child, key)
  }

  function AllMemberIds(fields: Fields, keys: set<string>): set<string>
    requires keys <= fields.Keys
  {
    set k, id | k in keys && id in MemberIds(k, fields[k]) :: id
  }

  function ItemIds(items: seq<Json>, parentKey: string): set<string> {
    set i, id | 0 <= i < |items| && id in UploadIds(items[i], parentKey) :: id
  }

  lemma ObjIds(fields: Fields, parentKey: string)
    ensures UploadIds(Obj(fields), parentKey) == OwnId(fields, parentKey) + AllMemberIds(fields, fields.Keys)
  {
    var left, right := UploadIds(Obj(fields), parentKey), OwnId(fields, parentKey) + AllMemberIds(fields, fields.Keys);
    forall id | id in left ensures id in right {
      if id !in OwnId(fields, parentKey) {
        var k :| k in fields && id in KeyedId(k, fields[k]) + UploadIds(fields[k], k);
        assert id in MemberIds(k, fields[k]);
      }
    }
    forall id | id in right ensures id in left {
      if id !in OwnId(fields, parentKey) {
        var k :| k in fields.Keys && id in MemberIds(k, fields[k]);
        assert id in KeyedId(k, fields[k]) + UploadIds(fields[k], k);
      }
    }
  }

  lemma OneMoreMember(fields: Fields, keys: set<string>, k: string)
    requires keys <= fields.Keys && k in fields
    ensures AllMemberIds(fields, keys + {k}) == AllMemberIds(fields, keys) + MemberIds(k, fields[k])
  {
    hide MemberIds;
    forall id | id in MemberIds(k, fields[k]) ensures id in AllMemberIds(fields, keys + {k}) {
      assert k in keys + {k};
    }
  }

  lemma OneMoreItem(items: seq<Json>, i: nat, parentKey: string)
    requires i < |items|
    ensures ItemIds(items[..i + 1], parentKey) == ItemIds(items[..i], parentKey) + UploadIds(items[i], parentKey)
  {
    hide UploadIds;
    var more := items[..i + 1];
    assert more[..i] == items[..i] && more[i] == items[i];
    forall id | id in ItemIds(more, parentKey)
      ensures id in ItemIds(items[..i], parentKey) + UploadIds(items[i], parentKey)
    {
      var j :| 0 <= j < |more| && id in UploadIds(more[j], parentKey);
      if j < i { assert items[..i][j] == more[j]; }
    }
    forall id | id in ItemIds(items[..i], parentKey) ensures id in ItemIds(more, parentKey) {
      var j :| 0 <= j < i && id in UploadIds(items[..i][j], parentKey);
      assert more[j] == items[..i][j];
    }
    forall id | id in UploadIds(items[i], parentKey) ensures id in ItemIds(more, parentKey) {
      assert id in UploadIds(more[i], parentKey);
    }
  }

  lemma ArrIds(items: seq<Json>, parentKey: string)
    ensures UploadIds(Arr(items), parentKey) == ItemIds(items, parentKey)
  {
  }

  lemma NoIds(items: seq<Json>, parentKey: string)
    ensures ItemIds(items[..0], parentKey) == {}
  {
  }

  lemma NoMembers(fields: Fields)
    ensures AllMemberIds(fields, fields.Keys - fields.Keys) == {}
  {
  }

  lemma LeafIds(value: Json, parentKey: string)
    requires !value.Arr? && !value.Obj?
    ensures UploadIds(value, parentKey) == {}
  {
  }

  /** collectUploadIds: threads the growing set through the whole value. */
  method CollectUploadIds(value: Json, parentKey: string, ids: set<string>) returns (all: set<string>)
    ensures all == ids + UploadIds(value, parentKey)
  {
    hide UploadIds, OwnId, AllMemberIds, ItemIds;
    all := ids;
    match value
    case Arr(items) =>
      ArrIds(items, parentKey);
      NoIds(items, parentKey);
      for i := 0 to |items|
        invariant all == ids + ItemIds(items[..i], parentKey)
      {
        OneMoreItem(items, i, parentKey);
        all := CollectUploadIds(items[i], parentKey, all);
      }
      assert items[..|items|] == items;
    case Obj(fields) =>
      ObjIds(fields, parentKey);
      all := all + OwnId(fields, parentKey);
      var left := fields.Keys;
      NoMembers(fields);
      while left != {}
        invariant left <= fields.Keys
        invariant all == ids + OwnId(fields, parentKey) + AllMemberIds(fields, fields.Keys - left)
      {
        var k :| k in left;
        OneMoreMember(fields, fields.Keys - left, k);
        assert fields.Keys - (left - {k}) == fields.Keys - left + {k};
        if IsPhotoKey(k) && fields[k].Str? { all := all + {fields[k].text}; }
        all := CollectUploadIds(fields[k], k, all);
        left := left - {k};
      }
      assert fields.Keys - {} == fields.Keys;
    case _ => LeafIds(value, parentKey);
  }

  /** A step into a JSON value. */
  datatype Step = Item(i: nat) | Member(key: string)

  predicate Names(value: Json, parentKey: string, id: string) {
    && value.Obj?
    && (id in OwnId(value.fields, parentKey) || exists k <- value.fields :: id in KeyedId(k, value.fields[k]))
  }

  /** The path leads to an object that names the photo; entering an array keeps the key above it. */
  predicate NamedAt(value: Json, parentKey: string, path: seq<Step>, id: string)
    decreases |path|
  {
    if path == [] then Names(value, parentKey, id)
    else match path[0]
      case Item(i) => value.Arr? && i < |value.items| && NamedAt(value.items[i], parentKey, path[1..], id)
      case Member(k) => value.Obj? && k in value.fields && NamedAt(value.fields[k], k, path[1..], id)
  }

  lemma {:induction false} NamedIsCollected(value: Json, parentKey: string, path: seq<Step>, id: string)
    requires NamedAt(value, parentKey, path, id)
    ensures id in UploadIds(value, parentKey)
    decreases |path|
  {
    if path != [] {
      match path[0]
      case Item(i) => NamedIsCollected(value.items[i], parentKey, path[1..], id);
      case Member(k) =>
        NamedIsCollected(value.fields[k], k, path[1..], id);
        assert id in KeyedId(k, value.fields[k]) + UploadIds(value.fields[k], k);
    } else if id !in OwnId(value.fields, parentKey) {
      var k :| k in value.fields && id in KeyedId(k, value.fields[k]);
      assert id in KeyedId(k, value.fields[k]) + UploadIds(value.fields[k], k);
    }
  }

  lemma {:induction false} CollectedIsNamed(value: Json, parentKey: string, id: string) returns (path: seq<Step>)
    requires id in UploadIds(value, parentKey)
    ensures NamedAt(value, parentKey, path, id)
  {
    match value
    case Arr(items) =>
      var i :| 0 <= i < |items| && id in UploadIds(items[i], parentKey);
      var rest := CollectedIsNamed(items[i], parentKey, id);
      path := [Item(i)] + rest;
      assert path[1..] == rest;
    case Obj(fields) =>
      path := [];
      if id !in OwnId(fields, parentKey) {
        var k :| k in fields && id in KeyedId(k, fields[k]) + UploadIds(fields[k], k);
        if id !in KeyedId(k, fields[k]) {
          var rest := CollectedIsNamed(fields[k], k, id);
          path := [Member(k)] + rest;
          assert path[1..] == rest;
        }
      }
    case _ =>
  }

  ghost predicate NamedSomewhere(value: Json, parentKey: string, id: string) {
    exists path :: NamedAt(value, parentKey, path, id)
  }

  /** A photo is collected exactly when some place in the value names it. */
  lemma CollectedIffNamed(value: Json, parentKey: string, id: string)
    ensures id in UploadIds(value, parentKey) <==> NamedSomewhere(value, parentKey, id)
  {
    if id in UploadIds(value, parentKey) {
      var path := CollectedIsNamed(value, parentKey, id);
      assert NamedSomewhere(value, parentKey, id);
    } else if NamedSomewhere(value, parentKey, id) {
      var path :| NamedAt(value, parentKey, path, id);
      NamedIsCollected(value, parentKey, path, id);
      assert false;
    }
  }

  /** The photos a payload refers to. */
  function Ids(fields: Fields): set<string> {
    UploadIds(Obj(fields), "")
  }

  /** Changing fields adds no photo when each new value names only photos its key named before. */
  lemma NoNewIds(before: Fields, after: Fields, parentKey: string)
    requires !IsPhotoList(parentKey)
    requires forall k <- after :: MemberIds(k, after[k]) <= if k in before then MemberIds(k, before[k]) else {}
    ensures UploadIds(Obj(after), parentKey) <= UploadIds(Obj(before), parentKey)
  {
    hide UploadIds, MemberIds;
    ObjIds(before, parentKey);
    ObjIds(after, parentKey);
    forall id | id in AllMemberIds(after, after.Keys) ensures id in AllMemberIds(before, before.Keys) {
      var k :| k in after.Keys && id in MemberIds(k, after[k]);
      assert k in before.Keys && id in MemberIds(k, before[k]);
    }
  }

  // ---- Conversions ----

  function Chars(t: Text): string
    requires forall i :: 0 <= i < |t| ==> 48 <= t[i] <= 57
  {
    seq(|t|, i requires 0 <= i < |t| => t[i] as char)
  }

  /** String(value). */
  function StringOf(j: Json): string {
    match j
    case Null => "null"
    case Bool(b) => if b then "true" else "false"
    case Num(n) => if n < 0 then "-" + Chars(Decimal(-n)) else Chars(Decimal(n))
    case Str(s) => s
    case Arr(items) => JoinItems(items)
    case Obj(_) => "[object Object]"
  }

  /** An array prints its items with commas between; null prints as nothing. */
  function JoinItems(items: seq<Json>): string {
    if items == [] then ""
    else
      var first := if items[0].Null? then "" else StringOf(items[0]);
      if |items| == 1 then first else first + "," + JoinItems(items[1..])
  }

  // ---- Conditions ----

  predicate TextWithin(j: Json, most: nat) {
    j.Str? && 1 <= |Strip(j.text)| <= most
  }

  predicate Percent(j: Json) {
    j.Num? && 0 <= j.number <= 100
  }

  predicate PinFits(j: Json) {
    && j.Obj?
    && TextWithin(FieldOf(j, "id"), 120)
    && FieldOf(j, "number").Num? && FieldOf(j, "number").number > 0
    && FieldOf(j, "type") in [Str("SCRATCH"), Str("DENT"), Str("CRACK"), Str("PAINT_CHIP"), Str("OTHER")]
    && Percent(FieldOf(j, "x")) && Percent(FieldOf(j, "y"))
    && TextWithin(FieldOf(j, "area"), 200)
    && ("notes" in j.fields ==> j.fields["notes"].Str? && |j.fields["notes"].text| <= 4000)
  }

  /** A parsed pin keeps its declared fields, the names trimmed, and drops every other. */
  function ParsePin(j: Json): Json
    requires PinFits(j)
  {
    Obj(map[
      "id" := Str(Strip(j.fields["id"].text)), "number" := j.fields["number"], "type" := j.fields["type"],
      "x" := j.fields["x"], "y" := j.fields["y"], "area" := Str(Strip(j.fields["area"].text))]
      + if "notes" in j.fields then map["notes" := j.fields["notes"]] else map[])
  }

  predicate PinsFit(j: Json) {
    && j.Arr? && |j.items| <= 200
    && (forall i :: 0 <= i < |j.items| ==> PinFits(j.items[i]))
    && (forall i, k :: 0 <= i < k < |j.items| ==>
        && ParsePin(j.items[i]).fields["id"] != ParsePin(j.items[k]).fields["id"]
        && ParsePin(j.items[i]).fields["number"] != ParsePin(j.items[k]).fields["number"])
  }

  function ParsePins(j: Json): Json
    requires PinsFit(j)
  {
    Arr(seq(|j.items|, i requires 0 <= i < |j.items| => ParsePin(j.items[i])))
  }

  predicate ConditionsFit(payload: Fields) {
    && ("overallPreDriveCondition" in payload ==>
        payload["overallPreDriveCondition"] in [Null, Str("GOOD"), Str("FAIR"), Str("POOR")])
    && ("vehicleConditions" in payload ==> PinsFit(payload["vehicleConditions"]))
  }

  /** The parsed condition fields that are present. */
  function ParseConditions(payload: Fields): Fields
    requires ConditionsFit(payload)
  {
    (if "overallPreDriveCondition" in payload
        then map["overallPreDriveCondition" := payload["overallPreDriveCondition"]] else map[])
    + (if "vehicleConditions" in payload
        then map["vehicleConditions" := ParsePins(payload["vehicleConditions"])] else map[])
  }

  /** normalizeInspectionConditions: an absent field gets its default. */
  function NormalizeConditions(payload: Fields): Fields
    requires ConditionsFit(payload)
  {
    map["overallPreDriveCondition" := Null, "vehicleConditions" := Arr([])] + ParseConditions(payload)
  }

  const SERVER_FIELDS := {
    "id", "reportNumber", "revision", "status", "createdAt", "updatedAt", "createdBy",
    "updatedBy", "inspectorId", "finalizedBy", "finalizedAt", "branchId"}

  /** sanitizeDraftPayload. */
  function SanitizeDraft(payload: Fields): Fields
    requires ConditionsFit(payload)
  {
    (payload + NormalizeConditions(payload)) - SERVER_FIELDS
  }

  lemma LeafMember(key: string, child: Json)
    requires !IsPhotoKey(key) && !child.Arr? && !child.Obj?
    ensures MemberIds(key, child) == {}
  {
  }

  lemma EmptyNamesNothing(parentKey: string)
    ensures UploadIds(Obj(map[]), parentKey) == {}
  {
  }

  lemma PinNamesNothing(pin: Json)
    requires PinFits(pin)
    ensures UploadIds(ParsePin(pin), "vehicleConditions") == {}
  {
    hide MemberIds, UploadIds, Strip;
    var f := ParsePin(pin).fields;
    assert f.Keys <= {"id", "number", "type", "x", "y", "area", "notes"};
    forall k | k in f ensures MemberIds(k, f[k]) == {} {
      assert |k| != 7 && |k| != 8;
      assert !f[k].Arr? && !f[k].Obj?;
      LeafMember(k, f[k]);
    }
    assert ParsePin(pin) == Obj(f);
    hide PinFits, ParsePin;
    NoNewIds(map[], f, "vehicleConditions");
    EmptyNamesNothing("vehicleConditions");
  }

  lemma PinsNameNothing(j: Json)
    requires PinsFit(j)
    ensures UploadIds(ParsePins(j), "vehicleConditions") == {}
  {
    forall i | 0 <= i < |j.items| ensures UploadIds(ParsePins(j).items[i], "vehicleConditions") == {} {
      assert ParsePins(j).items[i] == ParsePin(j.items[i]);
      PinNamesNothing(j.items[i]);
    }
    assert ParsePins(j).Arr?;
    hide ParsePins, UploadIds;
    ArrIds(ParsePins(j).items, "vehicleConditions");
  }

  lemma ConditionsNameNothing(payload: Fields, k: string)
    requires ConditionsFit(payload) && k in NormalizeConditions(payload)
    ensures MemberIds(k, NormalizeConditions(payload)[k]) == {}
  {
    hide PinsFit, UploadIds, ParsePins;
    var f := NormalizeConditions(payload);
    if k == "overallPreDriveCondition" {
      LeafMember(k, f[k]);
    } else {
      assert k == "vehicleConditions" && |k| == 17;
      if k in payload { PinsNameNothing(payload[k]); } else { ArrIds([], k); }
    }
  }

  lemma SanitizingAddsNoIds(payload: Fields)
    requires ConditionsFit(payload)
    ensures Ids(SanitizeDraft(payload)) <= Ids(payload)
  {
    hide UploadIds, MemberIds, NormalizeConditions, ConditionsFit;
    var clean := SanitizeDraft(payload);
    forall k | k in clean ensures MemberIds(k, clean[k]) <= if k in payload then MemberIds(k, payload[k]) else {} {
      if k in NormalizeConditions(payload) { ConditionsNameNothing(payload, k); }
    }
    hide SanitizeDraft;
    NoNewIds(payload, clean, "");
  }

  // ---- Checkpoints ----

  function SectionsOf(payload: Fields): seq<Json> {
    if "sections" in payload && payload["sections"].Arr? then payload["sections"].items else []
  }

  function CheckpointsOf(section: Json): seq<Json> {
    if FieldOf(section, "checkpoints").Arr? then FieldOf(section, "checkpoints").items
    else if FieldOf(section, "items").Arr? then FieldOf(section, "items").items
    else []
  }

  function CheckpointIds(payload: Fields): set<string> {
    set s, c | s in SectionsOf(payload) && c in CheckpointsOf(s) && FieldOf(c, "id").Str? :: FieldOf(c, "id").text
  }

  /** Wherever the value carries a checkpointId, it is one of these. */
  predicate AssociationsHold(value: Json, checkpoints: set<string>) {
    match value
    case Arr(items) => forall i :: 0 <= i < |items| ==> AssociationsHold(items[i], checkpoints)
    case Obj(fields) =>
      && (Truthy(FieldOf(value, "checkpointId")) ==> StringOf(FieldOf(value, "checkpointId")) in checkpoints)
      && forall k <- fields :: AssociationsHold(fields[k], checkpoints)
    case _ => true
  }

  const RATINGS := {"GOOD", "AVERAGE", "BAD", "N/A", "NA", "NOT_APPLICABLE", "NOT_CHECKED"}

  function FirstRating(checkpoint: Json, keys: seq<string>): (r: Option<string>)
    ensures r.Some? ==> r.value in RATINGS
  {
    if keys == [] then None
    else
      var value := FieldOf(checkpoint, keys[0]);
      if value.Str? && Upper(Strip(value.text)) in RATINGS then Some(Upper(Strip(value.text)))
      else FirstRating(checkpoint, keys[1..])
  }

  function RatingForCheckpoint(checkpoint: Json): Option<string> {
    FirstRating(checkpoint, ["rating", "conditionRating", "severity", "status", "result"])
  }

  predicate Rated(checkpoint: Json) {
    RatingForCheckpoint(checkpoint).Some? && RatingForCheckpoint(checkpoint) != Some("NOT_CHECKED")
  }

  predicate SectionComplete(section: Json) {
    CheckpointsOf(section) != [] && forall c <- CheckpointsOf(section) :: Rated(c)
  }

  predicate ReasonGiven(payload: Fields) {
    var reason := FieldOf(Obj(payload), "overrideReason");
    Truthy(FieldOf(Obj(payload), "overallRatingOverride")) ==> !reason.Null? && Strip(StringOf(reason)) != ""
  }

  /** Every section has checkpoints, every checkpoint a verdict, and an override its reason. */
  predicate Complete(payload: Fields) {
    SectionsOf(payload) != [] && (forall s <- SectionsOf(payload) :: SectionComplete(s)) && ReasonGiven(payload)
  }

  datatype Gap = NoSections | NotASection | EmptySection | Unchecked | NoReason

  /** What is wrong with a section that is not complete. */
  function GapOf(section: Json): Gap {
    if !section.Obj? && !section.Arr? then NotASection
    else if CheckpointsOf(section) == [] then EmptySection
    else Unchecked
  }

  /** assertInspectionComplete: the gap it throws for, if any, found in the first section that has one. */
  method AssertInspectionComplete(payload: Fields) returns (gap: Option<Gap>)
    ensures gap.None? <==> Complete(payload)
    ensures gap == Some(NoSections) <==> SectionsOf(payload) == []
    ensures gap == Some(NoReason) <==>
        SectionsOf(payload) != [] && (forall s <- SectionsOf(payload) :: SectionComplete(s)) && !ReasonGiven(payload)
    ensures gap.Some? && gap.value !in {NoSections, NoReason} ==>
      exists i :: 0 <= i < |SectionsOf(payload)| && !SectionComplete(SectionsOf(payload)[i])
          && gap.value == GapOf(SectionsOf(payload)[i])
                  && forall j :: 0 <= j < i ==> SectionComplete(SectionsOf(payload)[j])
  {
    hide Rated, ReasonGiven;
    var sections := SectionsOf(payload);
    if sections == [] { return Some(NoSections); }
    for i := 0 to |sections|
      invariant forall j :: 0 <= j < i ==> SectionComplete(sections[j])
    {
      var section := sections[i];
      if !section.Obj? && !section.Arr? {
        assert !SectionComplete(section) && section in sections;
        return Some(NotASection);
      }
      var checkpoints := CheckpointsOf(section);
      if checkpoints == [] { return Some(EmptySection); }
      for k := 0 to |checkpoints|
        invariant forall j :: 0 <= j < k ==> Rated(checkpoints[j])
      {
        if !Rated(checkpoints[k]) { return Some(Unchecked); }
      }
    }
    gap := if ReasonGiven(payload) then None else Some(NoReason);
  }

  // ---- Ratings ----

  predicate NotApplicable(rating: string) {
    rating in ["N/A", "NA", "NOT_APPLICABLE"]
  }

  function Applicable(ratings: seq<string>): seq<string> {
    if ratings == [] then []
    else (if NotApplicable(ratings[0]) then [] else [ratings[0]]) + Applicable(ratings[1..])
  }

  function WorstRating(ratings: seq<string>): string {
    var applicable := Applicable(ratings);
    if applicable == [] then "N/A"
    else if "BAD" in applicable then "BAD"
    else if "AVERAGE" in applicable then "AVERAGE"
    else "GOOD"
  }

  function Severity(rating: string): nat {
    if NotApplicable(rating) then 0 else if rating == "BAD" then 3 else if rating == "AVERAGE" then 2 else 1
  }

  function MaxSeverity(ratings: seq<string>): (m: nat)
    ensures m <= 3
  {
    if ratings == [] then 0
    else if Severity(ratings[0]) > MaxSeverity(ratings[1..]) then Severity(ratings[0]) else MaxSeverity(ratings[1..])
  }

  /** The verdict is the most severe of the ratings it sums up. */
  lemma {:induction false} WorstIsMostSevere(ratings: seq<string>)
    ensures Severity(WorstRating(ratings)) == MaxSeverity(ratings)
    ensures WorstRating(ratings) in ["N/A", "GOOD", "AVERAGE", "BAD"]
  {
    if ratings != [] {
      WorstIsMostSevere(ratings[1..]);
    }
  }

  function AllWorst(lists: seq<seq<string>>): seq<string> {
    if lists == [] then [] else [WorstRating(lists[0])] + AllWorst(lists[1..])
  }

  function Flatten(lists: seq<seq<string>>): seq<string> {
    if lists == [] then [] else lists[0] + Flatten(lists[1..])
  }

  lemma {:induction false} SeverityOfBoth(a: seq<string>, b: seq<string>)
    ensures MaxSeverity(a + b) == if MaxSeverity(a) > MaxSeverity(b) then MaxSeverity(a) else MaxSeverity(b)
  {
    hide Severity;
    if a == [] {
      assert a + b == b;
    } else {
      assert (a + b)[1..] == a[1..] + b;
      SeverityOfBoth(a[1..], b);
    }
  }

  lemma {:induction false} WorstOfWorst(lists: seq<seq<string>>)
    ensures WorstRating(AllWorst(lists)) == WorstRating(Flatten(lists))
    ensures MaxSeverity(AllWorst(lists)) == MaxSeverity(Flatten(lists))
  {
    if lists != [] {
      hide WorstRating, Severity;
      WorstOfWorst(lists[1..]);
      WorstIsMostSevere(lists[0]);
      SeverityOfBoth(lists[0], Flatten(lists[1..]));
      assert AllWorst(lists)[1..] == AllWorst(lists[1..]);
    }
    SameSeverity(AllWorst(lists), Flatten(lists));
  }

  lemma SameSeverity(a: seq<string>, b: seq<string>)
    requires MaxSeverity(a) == MaxSeverity(b)
    ensures WorstRating(a) == WorstRating(b)
  {
    hide WorstRating, MaxSeverity;
    WorstIsMostSevere(a);
    WorstIsMostSevere(b);
  }

  // ---- The finalized snapshot ----

  /** checkpointRatings. */
  function CheckpointRatings(checkpoints: seq<Json>): seq<string> {
    if checkpoints == [] then []
    else
      var first := RatingForCheckpoint(checkpoints[0]);
      (if first.Some? then [first.value] else []) + CheckpointRatings(checkpoints[1..])
  }

  function SectionRating(section: Json): string {
    WorstRating(CheckpointRatings(CheckpointsOf(section)))
  }

  function RatedSection(section: Json): Json {
    Obj((if section.Obj? then section.fields else map[]) + map["computedRating" := Str(SectionRating(section))])
  }

  function RatedSections(sections: seq<Json>): (r: seq<Json>)
    ensures |r| == |sections|
    ensures forall i :: 0 <= i < |r| ==> r[i] == RatedSection(sections[i])
  {
    if sections == [] then [] else [RatedSection(sections[0])] + RatedSections(sections[1..])
  }

  function SectionRatings(sections: seq<Json>): seq<string> {
    if sections == [] then [] else [SectionRating(sections[0])] + SectionRatings(sections[1..])
  }

  function OverallRating(payload: Fields): string {
    var override := FieldOf(Obj(payload), "overallRatingOverride");
    if Truthy(override) then Upper(Strip(StringOf(override))) else WorstRating(SectionRatings(SectionsOf(payload)))
  }

  /** snapshotInspectionPayload. */
  function Snapshot(payload: Fields): Fields
    requires ConditionsFit(payload)
  {
    payload + NormalizeConditions(payload)
      + map["sections" := Arr(RatedSections(SectionsOf(payload))),
          "computedOverallRating" := Str(OverallRating(payload))]
  }

  function AllCheckpointRatings(sections: seq<Json>): seq<string> {
    if sections == [] then [] else CheckpointRatings(CheckpointsOf(sections[0])) + AllCheckpointRatings(sections[1..])
  }

  lemma {:induction false} RatingsOfSections(sections: seq<Json>) returns (lists: seq<seq<string>>)
    ensures AllWorst(lists) == SectionRatings(sections) && Flatten(lists) == AllCheckpointRatings(sections)
  {
    lists := [];
    if sections != [] {
      var rest := RatingsOfSections(sections[1..]);
      lists := [CheckpointRatings(CheckpointsOf(sections[0]))] + rest;
      assert lists[1..] == rest;
    }
  }

  /** Without an override the report's rating is the most severe of all its checkpoints' ratings. */
  lemma OverallIsTheWorstCheckpoint(payload: Fields)
    requires ConditionsFit(payload) && !Truthy(FieldOf(Obj(payload), "overallRatingOverride"))
    ensures Snapshot(payload)["computedOverallRating"].Str?
    ensures Severity(Snapshot(payload)["computedOverallRating"].text) ==
        MaxSeverity(AllCheckpointRatings(SectionsOf(payload)))
  {
    hide WorstRating, MaxSeverity, Severity, ConditionsFit, NormalizeConditions;
    var lists := RatingsOfSections(SectionsOf(payload));
    WorstOfWorst(lists);
    WorstIsMostSevere(Flatten(lists));
  }

  /** Rating a section leaves its checkpoints as they were. */
  lemma RatingKeepsCheckpoints(section: Json)
    ensures CheckpointsOf(RatedSection(section)) == CheckpointsOf(section)
    ensures SectionRating(RatedSection(section)) == SectionRating(section)
  {
    assert |"checkpoints"| == 11 && |"items"| == 5 && |"computedRating"| == 14;
  }

  lemma {:induction false} RatingKeepsRatings(sections: seq<Json>)
    ensures SectionRatings(RatedSections(sections)) == SectionRatings(sections)
  {
    hide SectionRating, RatedSection;
    if sections != [] {
      RatingKeepsCheckpoints(sections[0]);
      RatingKeepsRatings(sections[1..]);
      assert RatedSections(sections)[1..] == RatedSections(sections[1..]);
    }
  }

  lemma SnapshotKeepsField(payload: Fields, key: string)
    requires ConditionsFit(payload)
        && key !in {"overallPreDriveCondition", "vehicleConditions", "sections", "computedOverallRating"}
    ensures FieldOf(Obj(Snapshot(payload)), key) == FieldOf(Obj(payload), key)
  {
    hide RatedSections, OverallRating, ParsePins, PinsFit;
  }

  lemma OverrideStays(payload: Fields)
    requires ConditionsFit(payload)
    ensures var o, r := "overallRatingOverride", "overrideReason";
            && FieldOf(Obj(Snapshot(payload)), o) == FieldOf(Obj(payload), o)
            && FieldOf(Obj(Snapshot(payload)), r) == FieldOf(Obj(payload), r)
  {
    hide Snapshot, ConditionsFit;
    var o, c := "overallRatingOverride", "computedOverallRating";
    assert o[0] != c[0];
    assert |"overrideReason"| == 14 && |o| == 21 && |"overallPreDriveCondition"| == 24 && |"vehicleConditions"| == 17
        && |"sections"| == 8;
    SnapshotKeepsField(payload, o);
    SnapshotKeepsField(payload, "overrideReason");
  }

  lemma SnapshotSections(payload: Fields)
    requires ConditionsFit(payload)
    ensures SectionsOf(Snapshot(payload)) == RatedSections(SectionsOf(payload))
  {
    hide RatedSections, OverallRating, ParsePins, PinsFit, NormalizeConditions;
    assert |"sections"| == 8 && |"computedOverallRating"| == 21;
  }

  /** What is kept is itself complete and rated as before, so a revision of it can be finalized unchanged. */
  lemma SnapshotStaysComplete(payload: Fields)
    requires ConditionsFit(payload) && Complete(payload)
    ensures Complete(Snapshot(payload))
    ensures OverallRating(Snapshot(payload)) == OverallRating(payload)
  {
    hide ConditionsFit, Snapshot, RatedSection;
    var sections, kept := SectionsOf(payload), SectionsOf(Snapshot(payload));
    SnapshotSections(payload);
    OverrideStays(payload);
    forall s | s in kept ensures SectionComplete(s) {
      var i :| 0 <= i < |kept| && kept[i] == s;
      RatingKeepsCheckpoints(sections[i]);
      assert SectionComplete(sections[i]);
    }
    RatingKeepsRatings(sections);
  }

  lemma RatedSectionAddsNoIds(section: Json)
    ensures UploadIds(RatedSection(section), "sections") <= UploadIds(section, "sections")
  {
    hide UploadIds, MemberIds, SectionRating;
    var before := if section.Obj? then section.fields else map[];
    var after := RatedSection(section).fields;
    assert |"computedRating"| == 14;
    LeafMember("computedRating", after["computedRating"]);
    NoNewIds(before, after, "sections");
    if !section.Obj? { EmptyNamesNothing("sections"); }
  }

  lemma RatingAddsNoIds(sections: seq<Json>)
    ensures UploadIds(Arr(RatedSections(sections)), "sections") <= UploadIds(Arr(sections), "sections")
  {
    hide UploadIds, RatedSection;
    ArrIds(sections, "sections");
    ArrIds(RatedSections(sections), "sections");
    forall id | id in ItemIds(RatedSections(sections), "sections") ensures id in ItemIds(sections, "sections") {
      var i :| 0 <= i < |sections| && id in UploadIds(RatedSections(sections)[i], "sections");
      RatedSectionAddsNoIds(sections[i]);
    }
  }

  /** A snapshot refers to no photo that the data it was made from does not refer to. */
  lemma SnapshotAddsNoIds(payload: Fields)
    requires ConditionsFit(payload)
    ensures Ids(Snapshot(payload)) <= Ids(payload)
  {
    hide UploadIds, MemberIds, NormalizeConditions, ConditionsFit, RatedSections, OverallRating;
    var after := Snapshot(payload);
    forall k | k in after ensures MemberIds(k, after[k]) <= if k in payload then MemberIds(k, payload[k]) else {} {
      SnapshotMember(payload, k);
    }
    hide Snapshot;
    NoNewIds(payload, after, "");
  }

  lemma SnapshotMember(payload: Fields, k: string)
    requires ConditionsFit(payload) && k in Snapshot(payload)
    ensures MemberIds(k, Snapshot(payload)[k]) <= if k in payload then MemberIds(k, payload[k]) else {}
  {
    hide UploadIds, NormalizeConditions, ConditionsFit, RatedSections, OverallRating;
    if k == "computedOverallRating" {
      assert |k| == 21;
      LeafMember(k, Snapshot(payload)[k]);
    } else if k == "sections" {
      RatingAddsNoIds(SectionsOf(payload));
      assert k in payload || UploadIds(Arr([]), k) == {} by { ArrIds([], k); }
      if k !in payload || !payload[k].Arr? { ArrIds([], k); ArrIds(RatedSections([]), k); }
    } else if k in NormalizeConditions(payload) {
      ConditionsNameNothing(payload, k);
    }
  }

  /** What the database says about a report's customer, vehicle, branch and organization. */
  datatype Related = Related(
    customerName: string, customerPhone: string, customerEmail: string,
    registration: string, make: string, model: string, branchName: string, branchAddress: string,
    settings: Fields, actor: string)

  const BRANDING := {
    "businessName", "businessLogo", "businessTagline", "businessPhone", "businessWhatsApp",
    "businessEmail", "businessAddress", "businessWebsite", "brandPrimary"}

  function Details(r: Related): Fields {
    map[
      "customerName" := Str(r.customerName), "customerPhone" := Str(r.customerPhone),
      "customerEmail" := Str(r.customerEmail),
      "vehicleRegistration" := Str(r.registration), "registrationNumber" := Str(r.registration),
      "vehicleMake" := Str(r.make), "vehicleModel" := Str(r.model),
      "vehicleMakeModel" := Str(Strip(r.make + " " + r.model)),
      "branchName" := Str(r.branchName), "branchAddress" := Str(r.branchAddress),
      "organizationBranding" := Obj(map k | k in BRANDING && k in r.settings && r.settings[k].Str? :: r.settings[k]),
      "finalizedBy" := Str(r.actor)]
  }

  /** The draft with the conditions given at finalization put over its own. */
  function WithConditions(data: Fields, conditions: Fields): Fields
    requires ConditionsFit(conditions)
  {
    data + ParseConditions(conditions)
  }

  function FinalPayload(data: Fields, conditions: Fields, related: Related): Fields
    requires ConditionsFit(conditions)
  {
    WithConditions(data, conditions) + Details(related)
  }

  lemma StillFits(data: Fields, related: Related)
    requires ConditionsFit(data)
    ensures ConditionsFit(data + Details(related))
  {
    hide PinsFit;
    assert |"overallPreDriveCondition"| == 24 && |"vehicleConditions"| == 17;
    var details := Details(related);
    forall k | k in details ensures |k| != 24 && |k| != 17 { KeyLengths(related, k); }
    hide Details;
    assert "overallPreDriveCondition" !in details && "vehicleConditions" !in details;
  }

  lemma KeyLengths(related: Related, k: string)
    requires k in Details(related)
    ensures |k| in {9, 10, 11, 12, 13, 16, 18, 19, 20} && !IsPhotoKey(k)
    ensures MemberIds(k, Details(related)[k]) == {}
  {
    hide MemberIds;
    var d := Details(related);
    assert |k| in {9, 10, 11, 12, 13, 16, 18, 19, 20};
    if k == "organizationBranding" {
      var branding := map b | b in BRANDING && b in related.settings && related.settings[b].Str? :: related.settings[b];
      assert d[k] == Obj(branding);
      BrandingNamesNothing(branding);
    } else {
      LeafMember(k, d[k]);
    }
  }

  lemma BrandingNamesNothing(branding: Fields)
    requires forall b <- branding :: branding[b].Str? && b in BRANDING
    ensures MemberIds("organizationBranding", Obj(branding)) == {}
  {
    assert |"organizationBranding"| == 20;
    forall b | b in branding ensures MemberIds(b, branding[b]) == {} {
      assert |b| in {10, 11, 12, 13, 15, 16};
      LeafMember(b, branding[b]);
    }
    hide MemberIds;
    NoNewIds(map[], branding, "organizationBranding");
    EmptyNamesNothing("organizationBranding");
    MemberOfObject("organizationBranding", branding);
  }

  lemma MemberOfObject(key: string, fields: Fields)
    requires !IsPhotoKey(key)
    ensures MemberIds(key, Obj(fields)) == UploadIds(Obj(fields), key)
  {
  }

  lemma FinalPayloadAddsNoIds(data: Fields, conditions: Fields, related: Related)
    requires ConditionsFit(conditions)
    ensures Ids(WithConditions(data, conditions)) <= Ids(data)
    ensures Ids(FinalPayload(data, conditions, related)) <= Ids(WithConditions(data, conditions))
  {
    hide UploadIds, MemberIds, ConditionsFit, Details, NormalizeConditions, ParseConditions;
    var mid := WithConditions(data, conditions);
    forall k | k in mid ensures MemberIds(k, mid[k]) <= if k in data then MemberIds(k, data[k]) else {} {
      if k in ParseConditions(conditions) { ParsedNameNothing(conditions, k); }
    }
    NoNewIds(data, mid, "");
    var last := FinalPayload(data, conditions, related);
    forall k | k in last ensures MemberIds(k, last[k]) <= if k in mid then MemberIds(k, mid[k]) else {} {
      if k in Details(related) { KeyLengths(related, k); }
    }
    NoNewIds(mid, last, "");
  }

  lemma ParsedNameNothing(conditions: Fields, k: string)
    requires ConditionsFit(conditions) && k in ParseConditions(conditions)
    ensures MemberIds(k, ParseConditions(conditions)[k]) == {}
  {
    hide MemberIds, PinsFit, ParsePins;
    assert NormalizeConditions(conditions)[k] == ParseConditions(conditions)[k];
    ConditionsNameNothing(conditions, k);
  }

  /** What finalizing a draft keeps as its version. */
  function FinalSnapshot(data: Fields, conditions: Fields, related: Related): Fields
    requires ConditionsFit(conditions) && ConditionsFit(WithConditions(data, conditions))
  {
    StillFits(WithConditions(data, conditions), related);
    Snapshot(FinalPayload(data, conditions, related))
  }

  /** The kept version refers to no photo that the draft did not refer to. */
  lemma FinalSnapshotAddsNoIds(data: Fields, conditions: Fields, related: Related)
    requires ConditionsFit(conditions) && ConditionsFit(WithConditions(data, conditions))
    ensures Ids(FinalSnapshot(data, conditions, related)) <= Ids(WithConditions(data, conditions)) <= Ids(data)
  {
    hide ConditionsFit, Snapshot, WithConditions, Details, Ids;
    StillFits(WithConditions(data, conditions), related);
    SnapshotAddsNoIds(FinalPayload(data, conditions, related));
    FinalPayloadAddsNoIds(data, conditions, related);
  }
}
