/**
 * Who may change a report and until when, what photos may point at, and when a pending photo may go
 * (src/modules/inspections/inspection.service.ts:126-205, 251-284, 405-416, 480-600, 770-795).
 */
module InspectionAccess {
  import opened Wrappers
  import opened Json
  import opened InspectionData
  import opened Inspection
  import opened InspectionProtocol

  // ---- What a save and a finalization need ----

  /** A save succeeds only on a live draft of that organization and branch, at the revision the caller saw. */
  lemma SaveNeeds(db: Db, organization: string, branch: string, id: string, expected: int, raw: Fields, now: int)
    requires Update(db, organization, branch, id, expected, raw, now).Ok?
    ensures id in db.reports
    ensures var r := db.reports[id];
            && !r.deleted && r.organization == organization && r.branch == branch
            && r.revision == expected && r.status == DRAFT
  {
    hide ConditionsFit, SanitizeDraft, Link, Expire, Ids, VersionIds;
  }

  /**
   * A finalization is read only from a live draft in scope, at the revision the caller saw, all of whose photos, at
   * most 24, are linked to it, of its organization and branch, and stored.
   */
  lemma FinalizeNeeds(db: Db, scope: Scope, id: string, revision: int, conditions: Fields, related: Related)
    requires FinalizeRead(db, scope, id, revision, conditions, related).Ok?
    ensures id in db.reports && ConditionsFit(conditions)
    ensures var r, photos := db.reports[id], Ids(WithConditions(db.reports[id].data, conditions));
            && InScope(r, scope) && r.revision == revision && r.status == DRAFT && |photos| <= 24
            && forall u <- photos ::
                 && u in db.assets && Holds(db.uploads, u, id)
                 && db.uploads[u].organization == r.organization && db.uploads[u].branch == r.branch
  {
    hide ConditionsFit, WithConditions, Complete, Ids, FinalSnapshot;
  }

  /** Cleanup takes on at least one upload, and at most a thousand. */
  lemma CleanupLimits(limit: int)
    ensures 1 <= Take(limit) <= 1000 && (1 <= limit <= 1000 ==> Take(limit) == limit)
    ensures limit < 1 ==> Take(limit) == 1
    ensures limit > 1000 ==> Take(limit) == 1000
  {
  }

  // ---- Scope and deletion ----

  /** The caller a step acts for; a commit acts for the caller whose finalization it ends. */
  function Caller(s: State, a: Action): Option<Scope> {
    match a
    case ReportUpdated(organization, branch, _, _, _, _) => Some(Scope(organization, Some({branch})))
    case FinalizeCommits(f) => if f in s.finalizers then Some(Scope(s.finalizers[f].organization, None)) else None
    case RevisionStarted(scope, _, _) => Some(scope)
    case ReportDeleted(scope, _) => Some(scope)
    case _ => None
  }

  /** A step changes no report but one that its caller may use and that is not deleted. */
  lemma ChangesStayInScope(s: State, a: Action, id: string)
    requires id in s.db.reports
    ensures id in Next(s, a).db.reports
    ensures Next(s, a).db.reports[id] != s.db.reports[id] ==>
              Caller(s, a).Some? && InScope(s.db.reports[id], Caller(s, a).value)
  {
    hide ConditionsFit, SanitizeDraft, Link, Expire, Ids, VersionIds, FinalizeRead, Latest, Claim, RemoveRow, Release;
    StepEvolves(s, a);
  }

  /** In scope: not deleted, of the caller's organization, and of one of the branches the caller may use. */
  lemma InScopeMeans(r: Report, scope: Scope)
    ensures InScope(r, scope) ==>
      && !r.deleted && r.organization == scope.organization
      && (scope.branches.Some? ==> r.branch in scope.branches.value)
  {
  }

  /** A finalization is read by a caller whose branches include the report's. */
  lemma ReadsStayInScope(s: State, a: Action, f: nat)
    requires a.FinalizeReads? && f in Next(s, a).finalizers && f !in s.finalizers
    ensures a.id in s.db.reports && InScope(s.db.reports[a.id], a.scope)
    ensures Next(s, a).finalizers[f].id == a.id && Next(s, a).finalizers[f].organization == a.scope.organization
  {
    hide ConditionsFit, WithConditions, Complete, PhotosReady, Ids, FinalSnapshot;
  }

  /** Deleting marks a report in scope and nothing else; out of scope it changes nothing. */
  lemma DeletingMarks(db: Db, scope: Scope, id: string)
    ensures var r := SoftDelete(db, scope, id);
            && (r.Ok? <==> id in db.reports && InScope(db.reports[id], scope))
            && (r.Ok? ==>
                  && r.value.reports.Keys == db.reports.Keys
                  && r.value.uploads == db.uploads && r.value.assets == db.assets
                  && r.value.reports[id].deleted
                  && forall other <- db.reports :: other != id ==> r.value.reports[other] == db.reports[other])
  {
  }

  /** A deleted report stays exactly as it is, in every run. */
  lemma DeletedStays(s: State, actions: seq<Action>, id: string)
    requires id in s.db.reports && s.db.reports[id].deleted
    ensures id in Run(s, actions).db.reports && Run(s, actions).db.reports[id] == s.db.reports[id]
  {
    hide Run;
    RunEvolves(s, actions);
    assert Evolves(s.db.reports[id], Run(s, actions).db.reports[id]);
  }

  // ---- What photos may point at ----

  /** The path leads to an object with a checkpointId that reads t. */
  predicate PointsAt(value: Json, path: seq<Step>, t: string)
    decreases |path|
  {
    if path == [] then
      value.Obj? && Truthy(FieldOf(value, "checkpointId")) && StringOf(FieldOf(value, "checkpointId")) == t
    else match path[0]
      case Item(i) => value.Arr? && i < |value.items| && PointsAt(value.items[i], path[1..], t)
      case Member(k) => value.Obj? && k in value.fields && PointsAt(value.fields[k], path[1..], t)
  }

  lemma {:induction false} HoldsAtPath(value: Json, path: seq<Step>, t: string, checkpoints: set<string>)
    requires AssociationsHold(value, checkpoints) && PointsAt(value, path, t)
    ensures t in checkpoints
    decreases |path|
  {
    if path != [] {
      match path[0]
      case Item(i) => HoldsAtPath(value.items[i], path[1..], t, checkpoints);
      case Member(k) => HoldsAtPath(value.fields[k], path[1..], t, checkpoints);
    }
  }

  lemma {:induction false} FailsAtPath(value: Json, checkpoints: set<string>) returns (path: seq<Step>, t: string)
    requires !AssociationsHold(value, checkpoints)
    ensures PointsAt(value, path, t) && t !in checkpoints
  {
    match value
    case Arr(items) =>
      var i :| 0 <= i < |items| && !AssociationsHold(items[i], checkpoints);
      var rest;
      rest, t := FailsAtPath(items[i], checkpoints);
      path := [Item(i)] + rest;
      assert path[1..] == rest;
    case Obj(fields) =>
      path, t := [], StringOf(FieldOf(value, "checkpointId"));
      if !(Truthy(FieldOf(value, "checkpointId")) && t !in checkpoints) {
        var k :| k in fields && !AssociationsHold(fields[k], checkpoints);
        var rest;
        rest, t := FailsAtPath(fields[k], checkpoints);
        path := [Member(k)] + rest;
        assert path[1..] == rest;
      }
    case _ =>
  }

  ghost predicate AllPointInside(value: Json, checkpoints: set<string>) {
    forall path, t :: PointsAt(value, path, t) ==> t in checkpoints
  }

  /** The associations hold exactly when every checkpointId anywhere in the value is one of the report's. */
  lemma AssociationsHoldIff(value: Json, checkpoints: set<string>)
    ensures AssociationsHold(value, checkpoints) <==> AllPointInside(value, checkpoints)
  {
    if AssociationsHold(value, checkpoints) {
      forall path, t | PointsAt(value, path, t) ensures t in checkpoints {
        HoldsAtPath(value, path, t, checkpoints);
      }
    } else {
      var path, t := FailsAtPath(value, checkpoints);
    }
  }

  ghost predicate HasCheckpoint(data: Fields, t: string) {
    exists s, c :: s in SectionsOf(data) && c in CheckpointsOf(s) && FieldOf(c, "id") == Str(t)
  }

  lemma LinkedDataPointsInside(
    uploads: Uploads, organization: string, branch: string, id: string, data: Fields, path: seq<Step>, t: string)
    requires Link(uploads, organization, branch, id, data).Ok? && Ids(data) != {} && PointsAt(Obj(data), path, t)
    ensures HasCheckpoint(data, t)
  {
    hide Ids, CheckpointsOf, SectionsOf, PointsAt, AssociationsHold;
    HoldsAtPath(Obj(data), path, t, CheckpointIds(data));
    var s, c :| s in SectionsOf(data) && c in CheckpointsOf(s) && FieldOf(c, "id").Str? && FieldOf(c, "id").text == t;
    assert FieldOf(c, "id") == Str(t);
  }

  /** In a saved draft that names photos every checkpointId, however deep, is the id of one of its checkpoints. */
  lemma SavedDraftPointsInside(
    db: Db, organization: string, branch: string, id: string, expected: int, raw: Fields, now: int,
    path: seq<Step>, t: string)
    requires Update(db, organization, branch, id, expected, raw, now).Ok?
    requires var data := Update(db, organization, branch, id, expected, raw, now).value.reports[id].data;
             Ids(data) != {} && PointsAt(Obj(data), path, t)
    ensures HasCheckpoint(Update(db, organization, branch, id, expected, raw, now).value.reports[id].data, t)
  {
    hide ConditionsFit, SanitizeDraft, Link, Expire, Ids, VersionIds, PointsAt, HasCheckpoint;
    LinkedDataPointsInside(db.uploads, organization, branch, id, SanitizeDraft(raw), path, t);
  }

  // ---- When a pending photo may go ----

  /** A photo just uploaded can be claimed from a day later on, and not before. */
  lemma UploadedEndsAfterADay(db: Db, u: string, organization: string, branch: string, now: int, t: int)
    requires u !in db.uploads
    ensures var after := UploadPhoto(db, u, organization, branch, now);
            after.Ok? && (Claim(after.value.uploads, u, t).Some? <==> t >= now + 24 * 60 * 60 * 1000)
            && after.value.uploads[u].organization == organization && after.value.uploads[u].branch == branch
  {
  }

  /** So can a photo that a save just dropped from a report. */
  lemma DroppedEndsAfterADay(
    s: State, organization: string, branch: string, id: string, expected: int, raw: Fields, now: int, u: string, t: int)
    requires Inv(s) && Update(s.db, organization, branch, id, expected, raw, now).Ok?
    requires Holds(s.db.uploads, u, id)
    requires u !in Referenced(Update(s.db, organization, branch, id, expected, raw, now).value.reports[id])
    ensures var after := Update(s.db, organization, branch, id, expected, raw, now).value.uploads;
            u in after && after[u].reportId == None && (Claim(after, u, t).Some? <==> t >= now + 24 * 60 * 60 * 1000)
  {
    hide ConditionsFit, SanitizeDraft, Link, Ids, VersionIds;
    LinkTakes(s.db.uploads, organization, branch, id, SanitizeDraft(raw));
    assert LinkSound(s.db.reports, s.db.uploads[u]);
  }
}
