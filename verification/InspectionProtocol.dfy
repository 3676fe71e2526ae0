/**
 * Everything that happens to inspection reports at once: uploads, saves, finalizations split into their
 * reads and their commit, and any number of cleanup jobs, each statement a step of its own
 * (src/modules/inspections/inspection.service.ts:126-205, 223-284, 405-416, 480-600, 770-795).
 */
module InspectionProtocol {
  import opened Wrappers
  import opened InspectionData
  import opened Inspection

  /** Where a cleanup job stands with the upload it claimed. */
  datatype Stage = Claimed | ObjectDeleted | GivingUp

  datatype Cleaner = Cleaner(upload: string, stage: Stage)

  /** A finalization past its reads: what it read, what it was given, and the snapshot it will commit. */
  datatype Finalizer = Finalizer(
    organization: string, id: string, revision: int, source: Fields, conditions: Fields, related: Related,
        snapshot: Fields)

  datatype State = State(db: Db, finalizers: map<nat, Finalizer>, cleaners: map<nat, Cleaner>)

  const Initial := State(Db(map[], map[], {}), map[], map[])

  datatype Action =
    | PhotoUploaded(u: string, organization: string, branch: string, now: int)
    | ReportCreated(id: string, organization: string, branch: string, raw: Fields)
    | ReportUpdated(organization: string, branch: string, id: string, expected: int, raw: Fields, now: int)
    | FinalizeReads(f: nat, scope: Scope, id: string, revision: int, conditions: Fields, related: Related)
    | FinalizeCommits(f: nat)
    | FinalizeDrops(f: nat)
    | RevisionStarted(scope: Scope, id: string, revision: int)
    | ReportDeleted(scope: Scope, id: string)
    | CleanerClaims(c: nat, u: string, now: int)
    | CleanerDeletesObject(c: nat, ok: bool, gone: bool)   // a failed delete may still have removed the object
    | CleanerDeletesRow(c: nat, ok: bool)
    | CleanerGivesUp(c: nat)
    | CleanerDies(c: nat)

  function Settle(s: State, outcome: Result<Db, Problem>): State {
    if outcome.Ok? then s.(db := outcome.value) else s
  }

  predicate CleanerAt(s: State, c: nat, stage: Stage) {
    c in s.cleaners && s.cleaners[c].stage == stage
  }

  function MoveCleaner(s: State, c: nat, stage: Stage): State
    requires c in s.cleaners
  {
    s.(cleaners := s.cleaners[c := s.cleaners[c].(stage := stage)])
  }

  function CleanerStep(s: State, a: Action): State {
    match a
    case CleanerClaims(c, u, now) =>
      var claimed := Claim(s.db.uploads, u, now);
      if c in s.cleaners || claimed.None? then s
      else s.(db := s.db.(uploads := claimed.value), cleaners := s.cleaners[c := Cleaner(u, Claimed)])
    case CleanerDeletesObject(c, ok, gone) =>
      if !CleanerAt(s, c, Claimed) then s
      else
        var assets := if ok || gone then s.db.assets - {s.cleaners[c].upload} else s.db.assets;
        MoveCleaner(s, c, if ok then ObjectDeleted else GivingUp).(db := s.db.(assets := assets))
    case CleanerDeletesRow(c, ok) =>
      if !CleanerAt(s, c, ObjectDeleted) then s
      else if !ok then MoveCleaner(s, c, GivingUp)
      else s.(db := s.db.(uploads := RemoveRow(s.db.uploads, s.cleaners[c].upload)), cleaners := s.cleaners - {c})
    case CleanerGivesUp(c) =>
      if !CleanerAt(s, c, GivingUp) then s
      else s.(db := s.db.(uploads := Release(s.db.uploads, s.cleaners[c].upload)), cleaners := s.cleaners - {c})
    case CleanerDies(c) => s.(cleaners := s.cleaners - {c})
    case _ => s
  }

  function Next(s: State, a: Action): State {
    match a
    case PhotoUploaded(u, organization, branch, now) => Settle(s, UploadPhoto(s.db, u, organization, branch, now))
    case ReportCreated(id, organization, branch, raw) => Settle(s, Create(s.db, id, organization, branch, raw))
    case ReportUpdated(organization, branch, id, expected, raw, now) =>
      Settle(s, Update(s.db, organization, branch, id, expected, raw, now))
    case FinalizeReads(f, scope, id, revision, conditions, related) =>
      var read := FinalizeRead(s.db, scope, id, revision, conditions, related);
      if f in s.finalizers || read.Err? then s
      else s.(finalizers := s.finalizers[f := Finalizer(scope.organization, id, revision, s.db.reports[id].data,
          conditions, related, read.value)])
    case FinalizeCommits(f) =>
      if f !in s.finalizers then s
      else
        var x := s.finalizers[f];
        Settle(s.(finalizers := s.finalizers - {f}), FinalizeCommit(s.db, x.organization, x.id, x.revision, x.snapshot))
    case FinalizeDrops(f) => s.(finalizers := s.finalizers - {f})
    case RevisionStarted(scope, id, revision) => Settle(s, Revise(s.db, scope, id, revision))
    case ReportDeleted(scope, id) => Settle(s, SoftDelete(s.db, scope, id))
    case _ => CleanerStep(s, a)
  }

  function Run(s: State, actions: seq<Action>): State
    decreases |actions|
  {
    if actions == [] then s else Run(Next(s, actions[0]), actions[1..])
  }

  // ---- What every reachable state satisfies ----

  /** The photos a report still needs: those of its data and of every version it ever finalized. */
  function Referenced(r: Report): set<string> {
    Ids(r.data) + VersionIds(r.versions)
  }

  predicate Holds(uploads: Uploads, u: string, id: string) {
    u in uploads && uploads[u].reportId == Some(id)
  }

  /** Every photo a report needs is there and linked to it. */
  ghost predicate PhotosKept(db: Db) {
    forall id, u | id in db.reports && u in Referenced(db.reports[id]) :: Holds(db.uploads, u, id)
  }

  /** A linked upload is its report's own, does not expire and is not being removed. */
  predicate LinkSound(reports: map<string, Report>, up: Upload) {
    up.reportId.Some? ==>
      && up.reportId.value in reports && up.expiresAt.None? && !up.cleaning
      && up.organization == reports[up.reportId.value].organization && up.branch == reports[up.reportId.value].branch
  }

  ghost predicate LinksSound(db: Db) {
    forall u <- db.uploads :: LinkSound(db.reports, db.uploads[u])
  }

  ghost predicate FewPhotos(uploads: Uploads) {
    forall id: string :: |LinkedTo(uploads, id)| <= MAX_PHOTOS
  }

  predicate Ascending(versions: seq<Version>) {
    forall i, j :: 0 <= i < j < |versions| ==> versions[i].revision < versions[j].revision
  }

  /** A final report's last version is what it holds; a draft is past all its versions. */
  predicate HistorySound(r: Report) {
    && r.revision >= 1
    && Ascending(r.versions)
    && (r.status == DRAFT ==> forall v <- r.versions :: v.revision < r.revision)
    && (r.status == FINAL ==> r.versions != [] && r.versions[|r.versions| - 1] == Version(r.revision, r.data))
  }

  ghost predicate HistoriesSound(db: Db) {
    forall id <- db.reports :: HistorySound(db.reports[id])
  }

  ghost predicate DbInv(db: Db) {
    PhotosKept(db) && LinksSound(db) && FewPhotos(db.uploads) && HistoriesSound(db)
  }

  function Rank(r: Report): int {
    2 * r.revision + if r.status == FINAL then 1 else 0
  }

  predicate BuiltFrom(snapshot: Fields, source: Fields, conditions: Fields, related: Related) {
    && ConditionsFit(conditions) && ConditionsFit(WithConditions(source, conditions))
    && snapshot == FinalSnapshot(source, conditions, related)
  }

  /** A finalizer whose revision is still open read exactly the data the report still has. */
  predicate FinalizerSound(db: Db, x: Finalizer) {
    && x.id in db.reports
    && BuiltFrom(x.snapshot, x.source, x.conditions, x.related)
    && Rank(db.reports[x.id]) >= 2 * x.revision
    && (Rank(db.reports[x.id]) == 2 * x.revision ==> db.reports[x.id].data == x.source)
  }

  ghost predicate FinalizersSound(s: State) {
    forall f <- s.finalizers :: FinalizerSound(s.db, s.finalizers[f])
  }

  predicate BeingCleaned(uploads: Uploads, u: string) {
    u in uploads && uploads[u].cleaning
  }

  /** Each upload being removed is some one cleaner's. */
  ghost predicate CleanersSound(s: State) {
    && (forall c <- s.cleaners :: BeingCleaned(s.db.uploads, s.cleaners[c].upload))
    && (forall c, d | c in s.cleaners && d in s.cleaners && c != d :: s.cleaners[c].upload != s.cleaners[d].upload)
  }

  ghost predicate Inv(s: State) {
    DbInv(s.db) && FinalizersSound(s) && CleanersSound(s)
  }

  // ---- How a report may change ----

  /** Its content stands still or its rank grows; versions are only appended; once deleted it stays as it is. */
  predicate Evolves(r: Report, r': Report) {
    && r'.organization == r.organization && r'.branch == r.branch
    && (r.deleted ==> r' == r)
    && |r.versions| <= |r'.versions| && r'.versions[..|r.versions|] == r.versions
    && (Rank(r') > Rank(r)
        || (r'.revision == r.revision && r'.status == r.status && r'.data == r.data && r'.versions == r.versions))
  }

  ghost predicate AllEvolve(db: Db, db': Db) {
    forall id <- db.reports :: id in db'.reports && Evolves(db.reports[id], db'.reports[id])
  }

  lemma EvolvesTransitively(a: Report, b: Report, c: Report)
    requires Evolves(a, b) && Evolves(b, c)
    ensures Evolves(a, c)
  {
    assert c.versions[..|a.versions|] == c.versions[..|b.versions|][..|a.versions|];
  }

  lemma StepEvolves(s: State, a: Action)
    ensures AllEvolve(s.db, Next(s, a).db)
  {
    hide ConditionsFit, SanitizeDraft, Link, Expire, Ids, VersionIds, FinalizeRead, Latest;
    forall id | id in s.db.reports
      ensures id in Next(s, a).db.reports && Evolves(s.db.reports[id], Next(s, a).db.reports[id])
    {
    }
  }

  lemma {:induction false} RunEvolves(s: State, actions: seq<Action>)
    ensures AllEvolve(s.db, Run(s, actions).db)
    decreases |actions|
  {
    hide Next;
    if actions == [] {
      forall id | id in s.db.reports ensures Evolves(s.db.reports[id], s.db.reports[id]) {}
    } else {
      var s' := Next(s, actions[0]);
      StepEvolves(s, actions[0]);
      RunEvolves(s', actions[1..]);
      var s'' := Run(s', actions[1..]);
      forall id | id in s.db.reports ensures id in s''.db.reports && Evolves(s.db.reports[id], s''.db.reports[id]) {
        EvolvesTransitively(s.db.reports[id], s'.db.reports[id], s''.db.reports[id]);
      }
    }
  }

  // ---- Linking and detaching ----

  predicate NewlyLinked(up: Upload, up': Upload, organization: string, branch: string, id: string) {
    && up.reportId.None? && !up.cleaning && up.organization == organization && up.branch == branch
    && up' == up.(reportId := Some(id), expiresAt := None)
  }

  lemma LinkTakes(uploads: Uploads, organization: string, branch: string, id: string, payload: Fields)
    requires Link(uploads, organization, branch, id, payload).Ok?
    ensures var after := Link(uploads, organization, branch, id, payload).value;
            && after.Keys == uploads.Keys
            && (forall u <- Ids(payload) :: Holds(after, u, id))
            && (forall u <- uploads ::
                 after[u] == uploads[u] || NewlyLinked(uploads[u], after[u], organization, branch, id))
  {
    hide Ids, AssociationsHold, CheckpointIds;
  }

  lemma LinkCounts(uploads: Uploads, organization: string, branch: string, id: string, payload: Fields)
    requires Link(uploads, organization, branch, id, payload).Ok? && FewPhotos(uploads)
    ensures FewPhotos(Link(uploads, organization, branch, id, payload).value)
  {
    hide Ids, AssociationsHold, CheckpointIds;
    var after := Link(uploads, organization, branch, id, payload).value;
    forall other: string ensures |LinkedTo(after, other)| <= MAX_PHOTOS {
      if other == id {
        if Ids(payload) != {} {
          var pending := Pending(uploads, Ids(payload));
          assert LinkedTo(after, id) == LinkedTo(uploads, id) + pending;
          assert |LinkedTo(uploads, id) + pending| <= |LinkedTo(uploads, id)| + |pending|;
        }
      } else {
        assert LinkedTo(after, other) == LinkedTo(uploads, other);
      }
      assert |LinkedTo(uploads, other)| <= MAX_PHOTOS;
    }
  }

  lemma FewerPhotos(uploads: Uploads, after: Uploads)
    requires FewPhotos(uploads)
    requires forall u <- after :: after[u].reportId.Some? ==> u in uploads && uploads[u].reportId == after[u].reportId
    ensures FewPhotos(after)
  {
    forall id: string ensures |LinkedTo(after, id)| <= MAX_PHOTOS {
      assert |LinkedTo(uploads, id)| <= MAX_PHOTOS;
      Whole(LinkedTo(after, id), LinkedTo(uploads, id));
    }
  }

  /** Rows may come and go, but the linked ones are the same before and after. */
  predicate SameLinks(uploads: Uploads, after: Uploads) {
    && (forall u <- uploads :: uploads[u].reportId.Some? ==> u in after && after[u] == uploads[u])
    && (forall u <- after :: after[u].reportId.Some? ==> u in uploads && uploads[u].reportId == after[u].reportId)
  }

  lemma UploadsKeep(db: Db, after: Uploads, assets: set<string>)
    requires DbInv(db) && SameLinks(db.uploads, after)
    ensures DbInv(db.(uploads := after, assets := assets))
  {
    hide Referenced, HistorySound;
    FewerPhotos(db.uploads, after);
    var db' := db.(uploads := after, assets := assets);
    assert HistoriesSound(db');
    forall u | u in after ensures LinkSound(db'.reports, after[u]) {
      if after[u].reportId.Some? { assert LinkSound(db.reports, db.uploads[u]); }
    }
    forall id, u | id in db'.reports && u in Referenced(db'.reports[id]) ensures Holds(after, u, id) {
      assert Holds(db.uploads, u, id);
    }
  }

  lemma ReportKeeps(db: Db, id: string, r: Report)
    requires DbInv(db) && id in db.reports && HistorySound(r)
    requires r.organization == db.reports[id].organization && r.branch == db.reports[id].branch
    requires Referenced(r) <= Referenced(db.reports[id])
    ensures DbInv(db.(reports := db.reports[id := r]))
  {
    hide Referenced, HistorySound, Holds;
    var db' := db.(reports := db.reports[id := r]);
    forall u | u in db.uploads ensures LinkSound(db'.reports, db.uploads[u]) {
      assert LinkSound(db.reports, db.uploads[u]);
    }
    forall i, u | i in db'.reports && u in Referenced(db'.reports[i]) ensures Holds(db.uploads, u, i) {
      assert u in Referenced(db.reports[i]);
    }
  }

  lemma CreateKeeps(db: Db, id: string, organization: string, branch: string, raw: Fields)
    requires DbInv(db) && Create(db, id, organization, branch, raw).Ok?
    ensures DbInv(Create(db, id, organization, branch, raw).value)
  {
    hide ConditionsFit, SanitizeDraft, Link, Ids, FewPhotos;
    var data := SanitizeDraft(raw);
    var after := Link(db.uploads, organization, branch, id, data).value;
    LinkTakes(db.uploads, organization, branch, id, data);
    LinkCounts(db.uploads, organization, branch, id, data);
    var db' := Create(db, id, organization, branch, raw).value;
    assert db'.uploads == after;
    forall u | u in after ensures LinkSound(db'.reports, after[u]) {
      assert LinkSound(db.reports, db.uploads[u]);
    }
    forall i, u | i in db'.reports && u in Referenced(db'.reports[i]) ensures Holds(after, u, i) {
      if i != id { assert Holds(db.uploads, u, i); }
    }
  }

  lemma UpdateKeeps(db: Db, organization: string, branch: string, id: string, expected: int, raw: Fields, now: int)
    requires DbInv(db) && Update(db, organization, branch, id, expected, raw, now).Ok?
    ensures DbInv(Update(db, organization, branch, id, expected, raw, now).value)
  {
    hide ConditionsFit, SanitizeDraft, Link, Ids, VersionIds, FewPhotos;
    var data, r := SanitizeDraft(raw), db.reports[id];
    var linked := Link(db.uploads, organization, branch, id, data).value;
    LinkTakes(db.uploads, organization, branch, id, data);
    LinkCounts(db.uploads, organization, branch, id, data);
    assert HistorySound(r);
    DetachKeeps(db, linked, id, organization, branch, r.(data := data, revision := expected + 1), now);
  }

  /** Once a draft's new photos are linked, giving it its new data and detaching what it dropped is safe. */
  lemma DetachKeeps(db: Db, linked: Uploads, id: string, organization: string, branch: string, r: Report, now: int)
    requires DbInv(db) && id in db.reports && FewPhotos(linked) && HistorySound(r)
    requires r.organization == db.reports[id].organization == organization
        && r.branch == db.reports[id].branch == branch
    requires r.versions == db.reports[id].versions
    requires linked.Keys == db.uploads.Keys
    requires forall u <- Ids(r.data) :: Holds(linked, u, id)
    requires forall u <- db.uploads ::
        linked[u] == db.uploads[u] || NewlyLinked(db.uploads[u], linked[u], organization, branch, id)
    ensures DbInv(db.(reports := db.reports[id := r], uploads := Expire(linked, id, Referenced(r), now)))
  {
    hide Ids, VersionIds, FewPhotos, HistorySound;
    var db' := db.(reports := db.reports[id := r], uploads := Expire(linked, id, Referenced(r), now));
    FewerPhotos(linked, db'.uploads);
    forall u | u in db'.uploads ensures LinkSound(db'.reports, db'.uploads[u]) {
      assert LinkSound(db.reports, db.uploads[u]);
    }
    forall i, u | i in db'.reports && u in Referenced(db'.reports[i]) ensures Holds(db'.uploads, u, i) {
      if u !in Ids(r.data) || i != id { assert u in Referenced(db.reports[i]) && Holds(db.uploads, u, i); }
    }
  }

  lemma BuiltNamesNoMore(x: Finalizer)
    requires BuiltFrom(x.snapshot, x.source, x.conditions, x.related)
    ensures Ids(x.snapshot) <= Ids(x.source)
  {
    hide Ids, ConditionsFit, WithConditions, FinalSnapshot;
    FinalSnapshotAddsNoIds(x.source, x.conditions, x.related);
  }

  lemma CommitKeeps(db: Db, x: Finalizer)
    requires DbInv(db) && FinalizerSound(db, x)
    requires FinalizeCommit(db, x.organization, x.id, x.revision, x.snapshot).Ok?
    ensures DbInv(FinalizeCommit(db, x.organization, x.id, x.revision, x.snapshot).value)
  {
    hide Ids, VersionIds, BuiltFrom;
    var r := db.reports[x.id];
    var r' := r.(status := FINAL, data := x.snapshot, versions := r.versions + [Version(x.revision, x.snapshot)]);
    assert HistorySound(r);
    BuiltNamesNoMore(x);
    OneMoreVersion(r.versions, Version(x.revision, x.snapshot));
    ReportKeeps(db, x.id, r');
  }

  lemma LatestIsLast(versions: seq<Version>)
    requires versions != [] && Ascending(versions)
    ensures Latest(versions) == versions[|versions| - 1]
  {
    hide Latest;
    assert versions[|versions| - 1] in versions;
  }

  lemma ReviseKeeps(db: Db, scope: Scope, id: string, revision: int)
    requires DbInv(db) && Revise(db, scope, id, revision).Ok?
    ensures DbInv(Revise(db, scope, id, revision).value)
  {
    hide Ids, Latest;
    var r := db.reports[id];
    var latest := Latest(r.versions);
    assert HistorySound(r);
    assert Ids(latest.data) <= VersionIds(r.versions);
    LatestIsLast(r.versions);
    ReportKeeps(db, id, r.(revision := revision + 1, status := DRAFT, data := latest.data));
  }

  lemma CleanerStepKeeps(s: State, a: Action)
    requires DbInv(s.db)
    ensures DbInv(CleanerStep(s, a).db)
  {
    hide DbInv;
    var db' := CleanerStep(s, a).db;
    assert SameLinks(s.db.uploads, db'.uploads) by { CleanerKeepsLinks(s, a); }
    assert db' == s.db.(uploads := db'.uploads, assets := db'.assets);
    UploadsKeep(s.db, db'.uploads, db'.assets);
  }

  lemma CleanerKeepsLinks(s: State, a: Action)
    requires DbInv(s.db)
    ensures SameLinks(s.db.uploads, CleanerStep(s, a).db.uploads)
  {
    hide PhotosKept, HistoriesSound, FewPhotos;
    assert forall u <- s.db.uploads :: LinkSound(s.db.reports, s.db.uploads[u]);
  }

  // ---- Every step keeps the invariant ----

  lemma DbStepKeeps(s: State, a: Action)
    requires DbInv(s.db) && FinalizersSound(s)
    ensures DbInv(Next(s, a).db)
  {
    hide DbInv, FinalizerSound, Create, Update, FinalizeRead, FinalizeCommit, Revise, CleanerStep;
    match a
    case PhotoUploaded(_, _, _, _) => UploadsKeep(s.db, Next(s, a).db.uploads, Next(s, a).db.assets);
    case ReportCreated(id, organization, branch, raw) =>
      if Create(s.db, id, organization, branch, raw).Ok? { CreateKeeps(s.db, id, organization, branch, raw); }
    case ReportUpdated(organization, branch, id, expected, raw, now) =>
      if Update(s.db, organization, branch, id, expected, raw, now).Ok? {
        UpdateKeeps(s.db, organization, branch, id, expected, raw, now);
      }
    case FinalizeCommits(f) =>
      if f in s.finalizers {
        var x := s.finalizers[f];
        if FinalizeCommit(s.db, x.organization, x.id, x.revision, x.snapshot).Ok? { CommitKeeps(s.db, x); }
      }
    case RevisionStarted(scope, id, revision) =>
      if Revise(s.db, scope, id, revision).Ok? { ReviseKeeps(s.db, scope, id, revision); }
    case ReportDeleted(scope, id) =>
      if SoftDelete(s.db, scope, id).Ok? { SoftDeleteKeeps(s.db, id); }
    case FinalizeReads(_, _, _, _, _, _) =>
    case FinalizeDrops(_) =>
    case _ => CleanerStepKeeps(s, a);
  }

  lemma SoftDeleteKeeps(db: Db, id: string)
    requires DbInv(db) && id in db.reports
    ensures DbInv(db.(reports := db.reports[id := db.reports[id].(deleted := true)]))
  {
    hide Ids;
    assert HistorySound(db.reports[id]);
    ReportKeeps(db, id, db.reports[id].(deleted := true));
  }

  lemma FinalizerEvolves(db: Db, db': Db, x: Finalizer)
    requires FinalizerSound(db, x) && AllEvolve(db, db')
    ensures FinalizerSound(db', x)
  {
    hide BuiltFrom;
    assert Evolves(db.reports[x.id], db'.reports[x.id]);
  }

  lemma ReadIsSound(db: Db, scope: Scope, id: string, revision: int, conditions: Fields, related: Related)
    requires FinalizeRead(db, scope, id, revision, conditions, related).Ok?
    ensures FinalizerSound(db, Finalizer(scope.organization, id, revision, db.reports[id].data, conditions, related,
                                         FinalizeRead(db, scope, id, revision, conditions, related).value))
  {
    hide Ids, ConditionsFit, Complete, PhotosReady, WithConditions, FinalSnapshot;
  }

  lemma FinalizersKeep(s: State, a: Action)
    requires FinalizersSound(s)
    ensures FinalizersSound(Next(s, a))
  {
    hide FinalizerSound, AllEvolve;
    StepEvolves(s, a);
    forall f | f in Next(s, a).finalizers ensures FinalizerSound(Next(s, a).db, Next(s, a).finalizers[f]) {
      if f in s.finalizers && Next(s, a).finalizers[f] == s.finalizers[f] {
        FinalizerEvolves(s.db, Next(s, a).db, s.finalizers[f]);
      } else {
        NewFinalizer(s, a, f);
      }
    }
  }

  lemma NewFinalizer(s: State, a: Action, f: nat)
    requires f in Next(s, a).finalizers && !(f in s.finalizers && Next(s, a).finalizers[f] == s.finalizers[f])
    ensures FinalizerSound(Next(s, a).db, Next(s, a).finalizers[f])
  {
    hide FinalizerSound, FinalizeRead, Create, Update, FinalizeCommit, Revise, SoftDelete;
    assert a.FinalizeReads? && a.f == f;
    ReadIsSound(s.db, a.scope, a.id, a.revision, a.conditions, a.related);
  }

  /** Nothing but the cleaners themselves touches an upload that is being removed. */
  predicate CleaningKept(uploads: Uploads, after: Uploads) {
    forall u <- uploads :: uploads[u].cleaning ==> BeingCleaned(after, u)
  }

  lemma OthersKeepCleaning(s: State, a: Action)
    requires CleanerStep(s, a) == s
    ensures CleaningKept(s.db.uploads, Next(s, a).db.uploads) && Next(s, a).cleaners == s.cleaners
  {
    hide Link, FinalizeRead, FinalizeCommit, Revise, SoftDelete, CleanerStep, Ids, VersionIds, ConditionsFit,
        SanitizeDraft;
    match a
    case ReportCreated(id, organization, branch, raw) =>
      if Create(s.db, id, organization, branch, raw).Ok? {
        LinkTakes(s.db.uploads, organization, branch, id, SanitizeDraft(raw));
      }
    case ReportUpdated(organization, branch, id, expected, raw, now) =>
      if Update(s.db, organization, branch, id, expected, raw, now).Ok? {
        LinkTakes(s.db.uploads, organization, branch, id, SanitizeDraft(raw));
      }
    case _ => WritesOnlyReports(s, a);
  }

  lemma WritesOnlyReports(s: State, a: Action)
    requires !a.ReportCreated? && !a.ReportUpdated? && CleanerStep(s, a) == s
    ensures CleaningKept(s.db.uploads, Next(s, a).db.uploads) && Next(s, a).cleaners == s.cleaners
  {
    hide FinalizeRead;
  }

  lemma CleanersKeep(s: State, a: Action)
    requires CleanersSound(s)
    ensures CleanersSound(Next(s, a))
  {
    if CleanerStep(s, a) == s {
      OthersKeepCleaning(s, a);
      hide Next, CleanerStep;
      assert forall c <- s.cleaners :: BeingCleaned(s.db.uploads, s.cleaners[c].upload);
    } else {
      assert Next(s, a) == CleanerStep(s, a) by { hide Create, Update, UploadPhoto, FinalizeRead, FinalizeCommit,
          Revise, SoftDelete; }
      hide Next;
    }
  }

  lemma StepKeeps(s: State, a: Action)
    requires Inv(s)
    ensures Inv(Next(s, a))
  {
    hide DbInv, FinalizersSound, CleanersSound, Next;
    DbStepKeeps(s, a);
    FinalizersKeep(s, a);
    CleanersKeep(s, a);
  }

  lemma {:induction false} RunKeeps(s: State, actions: seq<Action>)
    requires Inv(s)
    ensures Inv(Run(s, actions))
    decreases |actions|
  {
    hide Inv, Next;
    if actions != [] {
      StepKeeps(s, actions[0]);
      RunKeeps(Next(s, actions[0]), actions[1..]);
    }
  }
}
