/** A run in which a report with a photo is created and finalized. */
module InspectionExample {
  import opened Wrappers
  import opened Words
  import opened Json
  import opened InspectionData
  import opened Inspection
  import opened InspectionProtocol
  import opened InspectionSafety

  const Checkpoints: Json := Arr([Obj(map["rating" := Str("GOOD")])])
  const Section: Json := Obj(map["checkpoints" := Checkpoints])
  const Sections: Json := Arr([Section])

  /** One section with one checkpoint, rated, and the photo p. */
  const Data: Fields := map[
    "photos" := Listed, "sections" := Sections, "overallPreDriveCondition" := Null, "vehicleConditions" := Arr([])]

  const Names := Related("n", "1", "e", "r", "m", "t", "b", "a", map[], "u")

  lemma NoPins()
    ensures PinsFit(Arr([])) && ParsePins(Arr([])) == Arr([])
  {}

  lemma DataFits()
    ensures ConditionsFit(Data) && SanitizeDraft(Data) == Data
    ensures ConditionsFit(map[]) && WithConditions(Data, map[]) == Data
  {
    hide PinsFit, ParsePins;
    NoPins();
    assert |"photos"| == 6 && |"sections"| == 8;
    assert ParseConditions(Data) == map["overallPreDriveCondition" := Null, "vehicleConditions" := Arr([])];
    assert Data.Keys !! SERVER_FIELDS;
  }

  lemma GoodStays()
    ensures Upper(Strip("GOOD")) == "GOOD"
  {
    var good := "GOOD";
    assert Strip(good) == good;
    assert good[1..] == "OOD" && good[1..][1..] == "OD" && good[1..][1..][1..] == "D";
    assert Upper("D") == "D" && Upper("OD") == "OD" && Upper("OOD") == "OOD";
  }

  lemma CheckpointIsRated()
    ensures Rated(Checkpoints.items[0])
  {
    hide Upper, Strip;
    GoodStays();
    var good, unchecked := "GOOD", "NOT_CHECKED";
    assert |good| != |unchecked|;
    assert FieldOf(Checkpoints.items[0], "rating") == Str("GOOD");
    assert RatingForCheckpoint(Checkpoints.items[0]) == Some("GOOD");
  }

  lemma DataIsComplete()
    ensures Complete(Data)
  {
    hide Rated;
    CheckpointIsRated();
    assert |"photos"| == 6 && |"sections"| == 8;
    assert CheckpointsOf(Section) == Checkpoints.items;
    assert SectionComplete(Section);
    assert SectionsOf(Data) == [Section];
    assert |"overallRatingOverride"| == 21 && "overallRatingOverride" !in Data;
  }

  lemma NothingToAssociateHere()
    ensures AssociationsHold(Obj(Data), CheckpointIds(Data))
  {
    hide CheckpointIds, AssociationsHold;
    var none := CheckpointIds(Data);
    assert |"checkpoints"| == 11 && |"rating"| == 6 && |"id"| == 2 && |"checkpointId"| == 12;
    LeafHolds(Str("p"), none);
    UnderKey("id", Str("p"), none);
    InList(Obj(Entry), none);
    LeafHolds(Str("GOOD"), none);
    UnderKey("rating", Str("GOOD"), none);
    InList(Checkpoints.items[0], none);
    UnderKey("checkpoints", Checkpoints, none);
    InList(Section, none);
    LeafHolds(Null, none);
    LeafHolds(Arr([]), none);
    DataHolds(none);
  }

  lemma DataHolds(checkpoints: set<string>)
    requires AssociationsHold(Listed, checkpoints) && AssociationsHold(Sections, checkpoints)
    requires AssociationsHold(Null, checkpoints) && AssociationsHold(Arr([]), checkpoints)
    ensures AssociationsHold(Obj(Data), checkpoints)
  {
    assert |"checkpointId"| == 12 && |"photos"| == 6 && |"sections"| == 8;
    assert |"overallPreDriveCondition"| == 24 && |"vehicleConditions"| == 17;
    assert "checkpointId" !in Data;
  }

  lemma LeafHolds(j: Json, checkpoints: set<string>)
    requires !j.Obj? && (j.Arr? ==> j.items == [])
    ensures AssociationsHold(j, checkpoints)
  {}

  lemma UnderKey(key: string, child: Json, checkpoints: set<string>)
    requires key != "checkpointId" && AssociationsHold(child, checkpoints)
    ensures AssociationsHold(Obj(map[key := child]), checkpoints)
  {}

  lemma InList(j: Json, checkpoints: set<string>)
    requires AssociationsHold(j, checkpoints)
    ensures AssociationsHold(Arr([j]), checkpoints)
  {}

  lemma SectionsNameNothing()
    ensures MemberIds("sections", Sections) == {}
  {
    hide UploadIds;
    var rated := Checkpoints.items[0];
    assert |"checkpoints"| == 11 && |"sections"| == 8 && |"rating"| == 6;
    LeafMember("rating", Str("GOOD"));
    MembersOfOne("rating", Str("GOOD"));
    ObjIds(rated.fields, "checkpoints");
    ArrIds(Checkpoints.items, "checkpoints");
    MembersOfOne("checkpoints", Checkpoints);
    ObjIds(Section.fields, "sections");
    ArrIds(Sections.items, "sections");
  }

  lemma MembersOfOne(key: string, child: Json)
    requires MemberIds(key, child) == {}
    ensures AllMemberIds(map[key := child], map[key := child].Keys) == {}
  {
  }

  lemma OnlyPhotoIsNamed()
    ensures Ids(Data) == {"p"}
  {
    hide UploadIds, MemberIds;
    ObjIds(Data, "");
    EntryNames();
    SectionsNameNothing();
    LeafMember("overallPreDriveCondition", Null) by { assert |"overallPreDriveCondition"| == 24; }
    EmptyListNames();
    assert "p" in MemberIds("photos", Data["photos"]);
  }

  lemma EmptyListNames()
    ensures MemberIds("vehicleConditions", Arr([])) == {}
  {
    ConditionMembers("vehicleConditions");
  }

  const LinkedPhoto: Uploads := map["p" := Upload("o", "b", Some("r"), None, false)]

  const Created := Db(map["r" := Report("o", "b", 1, DRAFT, Data, false, [])], LinkedPhoto, {"p"})

  lemma PhotoLinks()
    ensures Link(PhotoRow(false), "o", "b", "r", Data) == Ok(LinkedPhoto)
  {
    hide Ids, AssociationsHold, CheckpointIds;
    NothingToAssociateHere();
    OnlyPhotoIsNamed();
    var rows := PhotoRow(false);
    assert LinkedTo(rows, "r") == {};
    assert Pending(rows, {"p"}) == {"p"};
    var linked := Link(rows, "o", "b", "r", Data);
    assert linked.Ok? && linked.value.Keys == {"p"};
    assert linked.value == LinkedPhoto;
  }

  lemma ReportIsCreated()
    ensures Reachable(State(Created, map[], map[]))
  {
    hide Reachable, Run, Link, ConditionsFit, SanitizeDraft, Update, FinalizeRead, FinalizeCommit, Revise, SoftDelete;
    hide PhotoRow;
    var uploaded := State(Db(map[], PhotoRow(false), {"p"}), map[], map[]);
    PhotoIsUploaded();
    DataFits();
    PhotoLinks();
    ReachableSteps(uploaded, ReportCreated("r", "o", "b", Data), State(Created, map[], map[]));
  }

  const All := Scope("o", None)

  lemma ReadSucceeds()
    ensures ConditionsFit(map[]) && ConditionsFit(WithConditions(Data, map[]))
    ensures FinalizeRead(Created, All, "r", 1, map[], Names) == Ok(FinalSnapshot(Data, map[], Names))
  {
    hide ConditionsFit, WithConditions, Complete, Ids, FinalSnapshot;
    DataFits();
    DataIsComplete();
    OnlyPhotoIsNamed();
  }

  function Snapped(): Fields {
    DataFits();
    FinalSnapshot(Data, map[], Names)
  }

  const Finalized := Db(
    map["r" := Report("o", "b", 1, FINAL, Snapped(), false, [Version(1, Snapped())])], LinkedPhoto, {"p"})

  lemma ReportIsFinalized()
    ensures Reachable(State(Finalized, map[], map[]))
  {
    hide Reachable, Run, Create, Update, Revise, SoftDelete, FinalizeRead;
    hide Snapped, FinalSnapshot, ConditionsFit, WithConditions;
    ReportIsCreated();
    ReadSucceeds();
    SnappedIs();
    var pending := Finalizer("o", "r", 1, Data, map[], Names, Snapped());
    ReachableSteps(State(Created, map[], map[]), FinalizeReads(0, All, "r", 1, map[], Names),
                   State(Created, map[0 := pending], map[]));
    assert map[0 := pending] - {0} == map[];
    CommitSucceeds();
    ReachableSteps(State(Created, map[0 := pending], map[]), FinalizeCommits(0), State(Finalized, map[], map[]));
  }

  lemma SnappedIs()
    ensures ConditionsFit(map[]) && ConditionsFit(WithConditions(Data, map[]))
    ensures Snapped() == FinalSnapshot(Data, map[], Names)
  {
    DataFits();
  }

  lemma CommitSucceeds()
    ensures FinalizeCommit(Created, "o", "r", 1, Snapped()) == Ok(Finalized)
  {
    hide Snapped;
    var v := Version(1, Snapped());
    assert [] + [v] == [v];
    assert Created.reports["r"].(status := FINAL, data := Snapped(), versions := [] + [v]) == Finalized.reports["r"];
    assert Created.reports["r" := Finalized.reports["r"]] == Finalized.reports;
  }

  lemma SnappedKeepsPhotos()
    ensures "photos" in Snapped() && Snapped()["photos"] == Listed
  {
    hide ConditionsFit, WithConditions, Details, Snapshot;
    SnappedIs();
    StillFits(WithConditions(Data, map[]), Names);
    PayloadKeepsPhotos();
    assert |"photos"| == 6 && |"sections"| == 8;
    assert |"overallPreDriveCondition"| == 24 && |"vehicleConditions"| == 17 && |"computedOverallRating"| == 21;
    SnapshotKeepsField(FinalPayload(Data, map[], Names), "photos");
  }

  lemma PayloadKeepsPhotos()
    requires ConditionsFit(map[])
    ensures FieldOf(Obj(FinalPayload(Data, map[], Names)), "photos") == Listed
  {
    hide ConditionsFit, Details;
    DataFits();
    assert |"photos"| == 6;
    if "photos" in Details(Names) { KeyLengths(Names, "photos"); }
  }

  lemma VersionNamesPhoto()
    ensures "p" in VersionIds([Version(1, Snapped())])
  {
    hide UploadIds, MemberIds, Snapped;
    SnappedKeepsPhotos();
    EntryNames();
    ObjIds(Snapped(), "");
    assert "p" in MemberIds("photos", Snapped()["photos"]);
    var v := Version(1, Snapped());
    assert [] + [v] == [v];
    OneMoreVersion([], v);
    assert "p" in Ids(v.data);
  }

  /** There is a run that finalizes a report, and its version names a photo. */
  lemma ReportCanBeFinalized()
    ensures exists s :: Reachable(s) && "r" in s.db.reports && s.db.reports["r"].status == FINAL
              && "p" in VersionIds(s.db.reports["r"].versions)
  {
    hide Reachable, Snapped, VersionIds;
    ReportIsFinalized();
    VersionNamesPhoto();
    var s := State(Finalized, map[], map[]);
    assert Reachable(s) && "r" in s.db.reports && s.db.reports["r"].status == FINAL;
  }
}
