/** What the inspection protocol guarantees over whole runs, and the one thing it does not. */
module InspectionSafety {
  import opened Wrappers
  import opened Json
  import opened InspectionData
  import opened Inspection
  import opened InspectionProtocol

  ghost predicate Reachable(s: State) {
    exists run :: Run(Initial, run) == s
  }

  lemma InitialKeeps()
    ensures Inv(Initial) && Reachable(Initial)
  {
    assert Run(Initial, []) == Initial;
    forall id: string ensures |LinkedTo(Initial.db.uploads, id)| <= MAX_PHOTOS {
      assert LinkedTo(Initial.db.uploads, id) == {};
    }
  }

  lemma ReachableKeeps(s: State)
    requires Reachable(s)
    ensures Inv(s)
  {
    hide Run, Inv;
    var run :| Run(Initial, run) == s;
    InitialKeeps();
    RunKeeps(Initial, run);
  }

  lemma {:induction false} RunAppend(s: State, first: seq<Action>, second: seq<Action>)
    ensures Run(s, first + second) == Run(Run(s, first), second)
    decreases |first|
  {
    hide Next;
    if first == [] {
      assert first + second == second;
    } else {
      assert (first + second)[1..] == first[1..] + second;
      RunAppend(Next(s, first[0]), first[1..], second);
    }
  }

  lemma OneStep(s: State, a: Action)
    ensures Run(s, [a]) == Next(s, a)
  {
    hide Next;
    assert Run(Next(s, a), [a][1..]) == Next(s, a);
  }

  lemma ReachableSteps(s: State, a: Action, s': State)
    requires Reachable(s) && Next(s, a) == s'
    ensures Reachable(s')
  {
    hide Run, Next;
    var run :| Run(Initial, run) == s;
    RunAppend(Initial, run, [a]);
    OneStep(s, a);
  }

  // ---- Photos ----

  /**
   * A photo that a report's data or any of its versions names is present, linked to that report alone,
   * never expires, and no cleaner has claimed it; a report has at most 24 photos linked.
   */
  lemma ReferencedPhotosAreSafe(s: State, id: string, u: string)
    requires Reachable(s) && id in s.db.reports && u in Referenced(s.db.reports[id])
    ensures u in s.db.uploads && |LinkedTo(s.db.uploads, id)| <= 24
    ensures var up, r := s.db.uploads[u], s.db.reports[id];
            && up.reportId == Some(id) && up.expiresAt == None && !up.cleaning
            && up.organization == r.organization && up.branch == r.branch
    ensures forall c <- s.cleaners :: s.cleaners[c].upload != u
  {
    hide Reachable, Referenced;
    ReachableKeeps(s);
    assert Holds(s.db.uploads, u, id) && LinkSound(s.db.reports, s.db.uploads[u]);
    assert forall c <- s.cleaners :: BeingCleaned(s.db.uploads, s.cleaners[c].upload);
  }

  lemma WritesKeepAssets(s: State, a: Action)
    requires CleanerStep(s, a) == s
    ensures s.db.assets <= Next(s, a).db.assets
  {
    hide Link, Expire, FinalizeRead, Ids, VersionIds, CleanerStep, SanitizeDraft, ConditionsFit;
  }

  /** Only a cleaner deletes an object, and only of the upload it claimed. */
  lemma StepKeepsObject(s: State, a: Action, u: string)
    requires CleanersSound(s) && u in s.db.assets && !BeingCleaned(s.db.uploads, u)
    ensures u in Next(s, a).db.assets
  {
    hide Create, Update, FinalizeRead, FinalizeCommit, Revise, SoftDelete;
    if CleanerStep(s, a) == s {
      WritesKeepAssets(s, a);
    } else {
      assert forall c <- s.cleaners :: BeingCleaned(s.db.uploads, s.cleaners[c].upload);
    }
  }

  lemma NeededIsNotCleaned(s: State, id: string, u: string)
    requires DbInv(s.db) && id in s.db.reports && u in Referenced(s.db.reports[id])
    ensures !BeingCleaned(s.db.uploads, u)
  {
    hide Referenced;
    assert Holds(s.db.uploads, u, id) && LinkSound(s.db.reports, s.db.uploads[u]);
  }

  predicate StillThere(uploads: Uploads, after: Uploads) {
    uploads.Keys <= after.Keys && forall u <- uploads :: after[u].cleaning == uploads[u].cleaning
  }

  lemma WritesKeepRows(s: State, a: Action)
    requires CleanerStep(s, a) == s
    ensures StillThere(s.db.uploads, Next(s, a).db.uploads)
  {
    hide FinalizeRead, Ids, VersionIds, CleanerStep, SanitizeDraft, ConditionsFit, Link;
    match a
    case ReportCreated(id, organization, branch, raw) =>
      if Create(s.db, id, organization, branch, raw).Ok? {
        LinkTakes(s.db.uploads, organization, branch, id, SanitizeDraft(raw));
      }
    case ReportUpdated(organization, branch, id, expected, raw, now) =>
      if Update(s.db, organization, branch, id, expected, raw, now).Ok? {
        LinkTakes(s.db.uploads, organization, branch, id, SanitizeDraft(raw));
      }
    case _ =>
  }

  /** No step claims or deletes a photo that is referenced when the step is taken, even one that the step detaches. */
  lemma NoStepTakesReferenced(s: State, a: Action, id: string, u: string)
    requires Reachable(s) && id in s.db.reports && u in Referenced(s.db.reports[id])
    ensures u in Next(s, a).db.uploads && !Next(s, a).db.uploads[u].cleaning
    ensures u in s.db.assets ==> u in Next(s, a).db.assets
  {
    hide Reachable, Referenced, FinalizersSound;
    ReachableKeeps(s);
    NeededIsNotCleaned(s, id, u);
    assert Holds(s.db.uploads, u, id);
    if u in s.db.assets { StepKeepsObject(s, a, u); }
    if CleanerStep(s, a) == s {
      WritesKeepRows(s, a);
    } else {
      assert Next(s, a) == CleanerStep(s, a) by { hide Create, Update, UploadPhoto, FinalizeRead, FinalizeCommit,
          Revise, SoftDelete; }
      hide Next;
    }
  }

  /** All the photos a report needs, over its data and all its versions, are at most 24. */
  lemma AtMost24InAll(s: State, id: string)
    requires Reachable(s) && id in s.db.reports
    ensures Referenced(s.db.reports[id]) <= LinkedTo(s.db.uploads, id)
    ensures |Referenced(s.db.reports[id])| <= |LinkedTo(s.db.uploads, id)| <= 24
  {
    hide Reachable, Referenced;
    ReachableKeeps(s);
    forall u | u in Referenced(s.db.reports[id]) ensures u in LinkedTo(s.db.uploads, id) {
      assert Holds(s.db.uploads, u, id);
    }
    Whole(Referenced(s.db.reports[id]), LinkedTo(s.db.uploads, id));
  }

  /** A save leaves linked exactly the photos of the new draft and of the finalized versions. */
  lemma SaveLinksExactly(s: State, organization: string, branch: string, id: string, expected: int, raw: Fields,
      now: int)
    requires Reachable(s)
    ensures var saved := Update(s.db, organization, branch, id, expected, raw, now);
            saved.Ok? ==>
              && id in saved.value.reports
              && LinkedTo(saved.value.uploads, id) == Referenced(saved.value.reports[id])
  {
    hide Reachable, Link, ConditionsFit, SanitizeDraft, Ids, VersionIds;
    var saved := Update(s.db, organization, branch, id, expected, raw, now);
    if saved.Ok? {
      var s' := Settle(s, saved);
      assert Next(s, ReportUpdated(organization, branch, id, expected, raw, now)) == s';
      ReachableSteps(s, ReportUpdated(organization, branch, id, expected, raw, now), s');
      AtMost24InAll(s', id);
    }
  }

  // ---- A day of grace ----

  /** Not being removed and, unless a report has it, not due for removal until a day after t. */
  predicate Spared(uploads: Uploads, u: string, t: int) {
    && u in uploads && !uploads[u].cleaning
    && (uploads[u].reportId.None? ==> uploads[u].expiresAt.Some? && uploads[u].expiresAt.value >= t + DAY_MS)
  }

  predicate HappensWithin(a: Action, from: int, to: int) {
    match a
    case PhotoUploaded(_, _, _, now) => from <= now < to
    case ReportUpdated(_, _, _, _, _, now) => from <= now < to
    case CleanerClaims(_, _, now) => from <= now < to
    case _ => true
  }

  lemma WritesSpare(s: State, a: Action, u: string, t: int)
    requires CleanerStep(s, a) == s && Spared(s.db.uploads, u, t) && HappensWithin(a, t, t + DAY_MS)
    ensures Spared(Next(s, a).db.uploads, u, t)
  {
    hide FinalizeRead, Ids, VersionIds, CleanerStep, SanitizeDraft, ConditionsFit, Link;
    match a
    case ReportCreated(id, organization, branch, raw) =>
      if Create(s.db, id, organization, branch, raw).Ok? {
        LinkTakes(s.db.uploads, organization, branch, id, SanitizeDraft(raw));
      }
    case ReportUpdated(organization, branch, id, expected, raw, now) =>
      if Update(s.db, organization, branch, id, expected, raw, now).Ok? {
        LinkTakes(s.db.uploads, organization, branch, id, SanitizeDraft(raw));
      }
    case _ =>
  }

  lemma StepSpares(s: State, a: Action, u: string, t: int)
    requires CleanersSound(s) && Spared(s.db.uploads, u, t) && HappensWithin(a, t, t + DAY_MS)
    ensures Spared(Next(s, a).db.uploads, u, t)
    ensures u in s.db.assets ==> u in Next(s, a).db.assets
  {
    if u in s.db.assets { StepKeepsObject(s, a, u); }
    if CleanerStep(s, a) == s {
      WritesSpare(s, a, u, t);
    } else {
      assert Next(s, a) == CleanerStep(s, a) by { hide Create, Update, UploadPhoto, FinalizeRead, FinalizeCommit,
          Revise, SoftDelete; }
      hide Next;
      assert forall c <- s.cleaners :: BeingCleaned(s.db.uploads, s.cleaners[c].upload);
    }
  }

  lemma {:induction false} RunSpares(s: State, actions: seq<Action>, u: string, t: int)
    requires Inv(s) && Spared(s.db.uploads, u, t) && forall a <- actions :: HappensWithin(a, t, t + DAY_MS)
    ensures Spared(Run(s, actions).db.uploads, u, t)
    ensures u in s.db.assets ==> u in Run(s, actions).db.assets
    decreases |actions|
  {
    hide DbInv, FinalizersSound, CleanersSound, Next, Spared;
    if actions != [] {
      StepKeeps(s, actions[0]);
      assert actions[0] in actions && forall a <- actions[1..] :: a in actions;
      StepSpares(s, actions[0], u, t);
      RunSpares(Next(s, actions[0]), actions[1..], u, t);
    }
  }

  /**
   * A photo uploaded at t, or linked to a report until t, is kept for the day after t, through saves that
   * drop it and cleanups that run meanwhile.
   */
  lemma KeptForADay(s: State, actions: seq<Action>, u: string, t: int)
    requires Reachable(s) && u in s.db.uploads && forall a <- actions :: HappensWithin(a, t, t + DAY_MS)
    requires s.db.uploads[u].reportId.Some?
        || (!s.db.uploads[u].cleaning && s.db.uploads[u].expiresAt == Some(t + DAY_MS))
    ensures u in Run(s, actions).db.uploads && !Run(s, actions).db.uploads[u].cleaning
    ensures u in s.db.assets ==> u in Run(s, actions).db.assets
  {
    hide Reachable, Run;
    ReachableKeeps(s);
    assert LinkSound(s.db.reports, s.db.uploads[u]);
    RunSpares(s, actions, u, t);
  }

  // ---- Finalized photos are kept for good ----

  ghost predicate VersionsStored(db: Db) {
    forall id, u | id in db.reports && u in VersionIds(db.reports[id].versions) :: u in db.assets
  }

  predicate SnapshotStored(db: Db, x: Finalizer) {
    x.id in db.reports && Rank(db.reports[x.id]) == 2 * x.revision ==> Ids(x.snapshot) <= db.assets
  }

  ghost predicate SnapshotsStored(s: State) {
    forall f <- s.finalizers :: SnapshotStored(s.db, s.finalizers[f])
  }

  lemma OpenSnapshotStays(s: State, a: Action, x: Finalizer)
    requires Inv(s) && FinalizerSound(s.db, x) && SnapshotStored(s.db, x)
    ensures SnapshotStored(Next(s, a).db, x)
  {
    hide Next, Ids, BuiltFrom, DbInv, FinalizersSound, CleanersSound;
    StepEvolves(s, a);
    assert Evolves(s.db.reports[x.id], Next(s, a).db.reports[x.id]);
    if Rank(s.db.reports[x.id]) == 2 * x.revision {
      BuiltNamesNoMore(x);
      forall u | u in Ids(x.snapshot) ensures u in Next(s, a).db.assets {
        NeededIsNotCleaned(s, x.id, u);
        StepKeepsObject(s, a, u);
      }
    }
  }

  lemma NewSnapshotStored(s: State, a: Action, f: nat)
    requires f in Next(s, a).finalizers && !(f in s.finalizers && Next(s, a).finalizers[f] == s.finalizers[f])
    ensures SnapshotStored(Next(s, a).db, Next(s, a).finalizers[f])
  {
    hide Create, Update, FinalizeCommit, Revise, SoftDelete, Ids, ConditionsFit, Complete, PhotosReady,
        WithConditions, FinalSnapshot;
    assert a.FinalizeReads? && a.f == f;
    FinalSnapshotAddsNoIds(s.db.reports[a.id].data, a.conditions, a.related);
  }

  lemma SnapshotsStay(s: State, a: Action)
    requires Inv(s) && SnapshotsStored(s)
    ensures SnapshotsStored(Next(s, a))
  {
    hide DbInv, CleanersSound, FinalizerSound, SnapshotStored;
    forall f | f in Next(s, a).finalizers ensures SnapshotStored(Next(s, a).db, Next(s, a).finalizers[f]) {
      if f in s.finalizers && Next(s, a).finalizers[f] == s.finalizers[f] {
        OpenSnapshotStays(s, a, s.finalizers[f]);
      } else {
        NewSnapshotStored(s, a, f);
      }
    }
  }

  /** A step that adds a version is a commit of a finalizer whose revision was still open. */
  lemma NewVersionIsCommitted(s: State, a: Action, id: string)
    requires id in Next(s, a).db.reports
    requires Next(s, a).db.reports[id].versions != if id in s.db.reports then s.db.reports[id].versions else []
    ensures id in s.db.reports && a.FinalizeCommits? && a.f in s.finalizers
    ensures var x, r := s.finalizers[a.f], s.db.reports[id];
            && x.id == id && r.revision == x.revision && r.status == DRAFT
            && Next(s, a).db.reports[id].versions == r.versions + [Version(x.revision, x.snapshot)]
            && Next(s, a).db.assets == s.db.assets
  {
    hide Link, Expire, FinalizeRead, Ids, VersionIds, SanitizeDraft, ConditionsFit, CleanerStep;
    if CleanerStep(s, a) != s { assert Next(s, a).db.reports == s.db.reports by { CleanersLeaveReports(s, a); } }
  }

  lemma CleanersLeaveReports(s: State, a: Action)
    requires CleanerStep(s, a) != s
    ensures Next(s, a).db.reports == s.db.reports
  {
    hide Create, Update, FinalizeRead, FinalizeCommit, Revise, SoftDelete;
  }

  lemma VersionsStay(s: State, a: Action)
    requires Inv(s) && VersionsStored(s.db) && SnapshotsStored(s)
    ensures VersionsStored(Next(s, a).db)
  {
    hide Next, Ids, VersionIds, DbInv, FinalizerSound, CleanersSound;
    var s' := Next(s, a);
    forall id, u | id in s'.db.reports && u in VersionIds(s'.db.reports[id].versions) ensures u in s'.db.assets {
      if id in s.db.reports && u in VersionIds(s.db.reports[id].versions) {
        NeededIsNotCleaned(s, id, u);
        StepKeepsObject(s, a, u);
      } else {
        NoVersionsNoIds();
        NewVersionIsCommitted(s, a, id);
        var x := s.finalizers[a.f];
        OneMoreVersion(s.db.reports[id].versions, Version(x.revision, x.snapshot));
        assert SnapshotStored(s.db, x);
      }
    }
  }

  lemma NoVersionsNoIds()
    ensures VersionIds([]) == {}
  {
  }

  lemma {:induction false} RunStores(s: State, actions: seq<Action>)
    requires Inv(s) && VersionsStored(s.db) && SnapshotsStored(s)
    ensures VersionsStored(Run(s, actions).db)
    decreases |actions|
  {
    hide Inv, Next, VersionsStored, SnapshotsStored;
    if actions != [] {
      StepKeeps(s, actions[0]);
      VersionsStay(s, actions[0]);
      SnapshotsStay(s, actions[0]);
      RunStores(Next(s, actions[0]), actions[1..]);
    }
  }

  /** Every photo of every finalized version has its object in storage, in every reachable state. */
  lemma FinalizedPhotosAreStored(s: State, id: string, u: string)
    requires Reachable(s) && id in s.db.reports && u in VersionIds(s.db.reports[id].versions)
    ensures u in s.db.assets && Holds(s.db.uploads, u, id)
  {
    hide Run, Inv, VersionIds;
    var run :| Run(Initial, run) == s;
    InitialKeeps();
    RunStores(Initial, run);
    ReachableKeeps(s);
    HeldBy(s, id, u);
  }

  lemma HeldBy(s: State, id: string, u: string)
    requires Inv(s) && id in s.db.reports && u in Referenced(s.db.reports[id])
    ensures Holds(s.db.uploads, u, id)
  {
  }

  // ---- Photos of drafts ----

  /** Every upload that can still be linked, or is, has its object in storage. */
  ghost predicate UploadsStored(db: Db) {
    forall u | u in db.uploads && !db.uploads[u].cleaning :: u in db.assets
  }

  /** A cleaner gives its claim back although the object is already gone. */
  predicate ReturnsEmptyRow(s: State, a: Action) {
    a.CleanerGivesUp? && CleanerAt(s, a.c, GivingUp) && s.cleaners[a.c].upload !in s.db.assets
  }

  lemma WritesKeepStored(s: State, a: Action)
    requires CleanerStep(s, a) == s && UploadsStored(s.db)
    ensures UploadsStored(Next(s, a).db)
  {
    hide FinalizeRead, Ids, VersionIds, CleanerStep, SanitizeDraft, ConditionsFit, Link;
    match a
    case ReportCreated(id, organization, branch, raw) =>
      if Create(s.db, id, organization, branch, raw).Ok? {
        LinkTakes(s.db.uploads, organization, branch, id, SanitizeDraft(raw));
      }
    case ReportUpdated(organization, branch, id, expected, raw, now) =>
      if Update(s.db, organization, branch, id, expected, raw, now).Ok? {
        LinkTakes(s.db.uploads, organization, branch, id, SanitizeDraft(raw));
      }
    case _ =>
  }

  /** One step breaks the promise, and only in one way: the cleanup job's failure path after the object is deleted. */
  lemma StoredUnlessEmptyRowReturns(s: State, a: Action)
    requires CleanersSound(s) && UploadsStored(s.db)
    ensures UploadsStored(Next(s, a).db) <==> !ReturnsEmptyRow(s, a)
  {
    if CleanerStep(s, a) == s {
      WritesKeepStored(s, a);
    } else {
      assert Next(s, a) == CleanerStep(s, a) by { hide Create, Update, UploadPhoto, FinalizeRead, FinalizeCommit,
          Revise, SoftDelete; }
      hide Next;
      assert forall c <- s.cleaners :: BeingCleaned(s.db.uploads, s.cleaners[c].upload);
    }
  }

  predicate NoEmptyRowReturns(s: State, actions: seq<Action>)
    decreases |actions|
  {
    actions != [] ==> !ReturnsEmptyRow(s, actions[0]) && NoEmptyRowReturns(Next(s, actions[0]), actions[1..])
  }

  lemma {:induction false} RunKeepsStored(s: State, actions: seq<Action>)
    requires Inv(s) && UploadsStored(s.db) && NoEmptyRowReturns(s, actions)
    ensures UploadsStored(Run(s, actions).db)
    decreases |actions|
  {
    hide DbInv, FinalizersSound, CleanersSound, Next, UploadsStored, ReturnsEmptyRow;
    if actions != [] {
      StepKeeps(s, actions[0]);
      StoredUnlessEmptyRowReturns(s, actions[0]);
      RunKeepsStored(Next(s, actions[0]), actions[1..]);
    }
  }

  /** In a run without such a step every photo a report names, draft or final, has its object. */
  lemma DraftPhotosAreStored(actions: seq<Action>, id: string, u: string)
    requires NoEmptyRowReturns(Initial, actions)
    requires id in Run(Initial, actions).db.reports && u in Referenced(Run(Initial, actions).db.reports[id])
    ensures u in Run(Initial, actions).db.assets
  {
    hide Next, Inv, Referenced, NoEmptyRowReturns, Run;
    InitialKeeps();
    RunKeeps(Initial, actions);
    RunKeepsStored(Initial, actions);
    HeldNotCleaned(Run(Initial, actions), id, u);
  }

  lemma HeldNotCleaned(s: State, id: string, u: string)
    requires Inv(s) && id in s.db.reports && u in Referenced(s.db.reports[id])
    ensures u in s.db.uploads && !s.db.uploads[u].cleaning
  {
    hide Referenced;
    assert Holds(s.db.uploads, u, id);
    NeededIsNotCleaned(s, id, u);
  }

  // ---- The run that does break it ----

  /** A draft whose one photo is p. */
  const Entry: Fields := map["id" := Str("p")]
  const Listed: Json := Arr([Obj(Entry)])
  const Draft: Fields := map["photos" := Listed]
  const Saved: Fields := map["photos" := Listed, "overallPreDriveCondition" := Null, "vehicleConditions" := Arr([])]

  lemma DraftFits()
    ensures ConditionsFit(Draft)
  {
    hide PinsFit;
    assert |"photos"| == 6 && |"vehicleConditions"| == 17 && |"overallPreDriveCondition"| == 24;
  }

  lemma DraftIsSaved()
    ensures ConditionsFit(Draft) && SanitizeDraft(Draft) == Saved
  {
    hide ConditionsFit, PinsFit, ParsePins;
    DraftFits();
    assert |"photos"| == 6;
    assert ParseConditions(Draft) == map[];
    assert "photos" !in SERVER_FIELDS && "overallPreDriveCondition" !in SERVER_FIELDS
        && "vehicleConditions" !in SERVER_FIELDS;
  }

  lemma NothingToAssociate()
    ensures AssociationsHold(Obj(Saved), CheckpointIds(Saved))
  {
    hide CheckpointIds;
    var none := CheckpointIds(Saved);
    assert |"photos"| == 6 && |"checkpointId"| == 12;
    assert AssociationsHold(Obj(Entry), none);
    assert AssociationsHold(Listed, none);
    assert AssociationsHold(Arr([]), none);
  }

  lemma EntryNames()
    ensures MemberIds("photos", Listed) == {"p"}
  {
    hide UploadIds;
    ArrIds(Listed.items, "photos");
    ObjIds(Entry, "photos");
    EntryMembers();
    assert Listed.items[0] == Obj(Entry);
  }

  lemma EntryMembers()
    ensures AllMemberIds(Entry, Entry.Keys) == {}
  {
    hide UploadIds, MemberIds;
    assert |"id"| == 2;
    LeafMember("id", Entry["id"]);
  }

  lemma ConditionMembers(k: string)
    requires k in Saved && k != "photos"
    ensures MemberIds(k, Saved[k]) == {}
  {
    hide UploadIds;
    assert |k| == 17 || |k| == 24;
    if k == "vehicleConditions" { ArrIds([], k); } else { LeafMember(k, Saved[k]); }
  }

  lemma PhotoIsNamed()
    ensures Ids(Saved) == {"p"}
  {
    hide UploadIds, MemberIds;
    ObjIds(Saved, "");
    EntryNames();
    assert "p" in MemberIds("photos", Saved["photos"]);
    forall id | id in AllMemberIds(Saved, Saved.Keys) ensures id == "p" {
      var k :| k in Saved && id in MemberIds(k, Saved[k]);
      if k != "photos" { ConditionMembers(k); }
    }
  }

  function PhotoRow(cleaning: bool): Uploads {
    map["p" := Upload("o", "b", None, Some(DAY_MS), cleaning)]
  }

  function WithCleaner(assets: set<string>, stage: Stage): State {
    State(Db(map[], PhotoRow(true), assets), map[], map[0 := Cleaner("p", stage)])
  }

  lemma PhotoIsUploaded()
    ensures Reachable(State(Db(map[], PhotoRow(false), {"p"}), map[], map[]))
  {
    hide Reachable, Run;
    InitialKeeps();
    var uploaded := State(Db(map[], PhotoRow(false), {"p"}), map[], map[]);
    ReachableSteps(Initial, PhotoUploaded("p", "o", "b", 0), uploaded);
  }

  lemma ObjectIsDeleted()
    ensures Reachable(WithCleaner({}, ObjectDeleted))
  {
    hide Reachable, Run, Create, Update, FinalizeRead, FinalizeCommit, Revise, SoftDelete;
    var uploaded := State(Db(map[], PhotoRow(false), {"p"}), map[], map[]);
    PhotoIsUploaded();
    ReachableSteps(uploaded, CleanerClaims(0, "p", DAY_MS), WithCleaner({"p"}, Claimed));
    assert {"p"} - {"p"} == {};
    ReachableSteps(WithCleaner({"p"}, Claimed), CleanerDeletesObject(0, true, true), WithCleaner({}, ObjectDeleted));
  }

  lemma RowComesBackEmpty()
    ensures Reachable(State(Db(map[], PhotoRow(false), {}), map[], map[]))
  {
    hide Reachable, Run, Create, Update, FinalizeRead, FinalizeCommit, Revise, SoftDelete;
    ObjectIsDeleted();
    ReachableSteps(WithCleaner({}, ObjectDeleted), CleanerDeletesRow(0, false), WithCleaner({}, GivingUp));
    ReachableSteps(WithCleaner({}, GivingUp), CleanerGivesUp(0), State(Db(map[], PhotoRow(false), {}), map[], map[]));
  }

  lemma EmptyRowLinks()
    ensures Link(PhotoRow(false), "o", "b", "r", Saved) == Ok(map["p" := Upload("o", "b", Some("r"), None, false)])
  {
    hide Ids, AssociationsHold, CheckpointIds;
    NothingToAssociate();
    PhotoIsNamed();
    var rows := PhotoRow(false);
    assert LinkedTo(rows, "r") == {};
    assert Pending(rows, {"p"}) == {"p"};
    var linked := Link(rows, "o", "b", "r", Saved);
    assert linked.Ok? && linked.value.Keys == {"p"};
    assert linked.value == map["p" := Upload("o", "b", Some("r"), None, false)];
  }

  lemma DraftTakesEmptyRow()
    ensures var taken := map["p" := Upload("o", "b", Some("r"), None, false)];
            Create(Db(map[], PhotoRow(false), {}), "r", "o", "b", Draft)
            == Ok(Db(map["r" := Report("o", "b", 1, DRAFT, Saved, false, [])], taken, {}))
  {
    hide ConditionsFit, SanitizeDraft, Link, PhotoRow;
    DraftIsSaved();
    EmptyRowLinks();
  }

  /** There is a run after which a draft refers to a photo, linked to it, whose object is gone. */
  lemma DraftCanLoseItsPhoto()
    ensures exists s :: Reachable(s) && "r" in s.db.reports && "p" in Referenced(s.db.reports["r"])
              && Holds(s.db.uploads, "p", "r") && "p" !in s.db.assets
  {
    hide Reachable, Run, Create, Ids;
    RowComesBackEmpty();
    DraftTakesEmptyRow();
    PhotoIsNamed();
    var before := State(Db(map[], PhotoRow(false), {}), map[], map[]);
    var s := Next(before, ReportCreated("r", "o", "b", Draft));
    ReachableSteps(before, ReportCreated("r", "o", "b", Draft), s);
    assert "p" in Referenced(s.db.reports["r"]);
  }
}
