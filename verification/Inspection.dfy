/**
 * Inspection reports, their versions and their photo uploads (src/modules/inspections/inspection.service.ts,
 * inspection-assets.service.ts): every transaction as a function on the database, and the in-place form.
 */
module Inspection {
  import opened Wrappers
  import opened Json
  import opened InspectionData

  datatype Status = DRAFT | FINAL

  datatype Version = Version(revision: int, data: Fields)

  datatype Report = Report(
    organization: string, branch: string, revision: int, status: Status, data: Fields, deleted: bool,
        versions: seq<Version>)

  datatype Upload = Upload(organization: string, branch: string, reportId: Option<string>, expiresAt: Option<int>,
      cleaning: bool)

  type Uploads = map<string, Upload>

  /** assets: the uploads whose object is in private storage. */
  datatype Db = Db(reports: map<string, Report>, uploads: Uploads, assets: set<string>)

  /** The branches a caller may use; None is all of them. */
  datatype Scope = Scope(organization: string, branches: Option<set<string>>)

  datatype Problem =
    | NotFound | Stale | WrongStatus | Taken
    | TooManyPhotos | ForeignCheckpoint | PhotoUnavailable | PhotoGone
    | BadConditions | Incomplete

  const MAX_PHOTOS := 24
  const DAY_MS := 24 * 60 * 60 * 1000

  predicate InScope(r: Report, scope: Scope) {
    !r.deleted && r.organization == scope.organization && (scope.branches.None? || r.branch in scope.branches.value)
  }

  // ---- Photos ----

  function LinkedTo(uploads: Uploads, id: string): set<string> {
    set u | u in uploads && uploads[u].reportId == Some(id)
  }

  predicate Linkable(up: Upload, organization: string, branch: string, id: string) {
    && up.organization == organization && up.branch == branch && !up.cleaning
    && (up.reportId.None? || up.reportId.value == id)
  }

  function Pending(uploads: Uploads, ids: set<string>): set<string> {
    set u | u in ids && u in uploads && uploads[u].reportId.None?
  }

  /** linkPendingUploads. */
  function Link(uploads: Uploads, organization: string, branch: string, id: string, payload: Fields)
    : Result<Uploads, Problem>
  {
    var ids := Ids(payload);
    if ids == {} then Ok(uploads)
    else if |ids| > MAX_PHOTOS then Err(TooManyPhotos)
    else if !AssociationsHold(Obj(payload), CheckpointIds(payload)) then Err(ForeignCheckpoint)
    else if exists u <- ids :: u !in uploads || !Linkable(uploads[u], organization, branch, id)
    then Err(PhotoUnavailable)
    else if |LinkedTo(uploads, id)| + |Pending(uploads, ids)| > MAX_PHOTOS then Err(TooManyPhotos)
    else Ok(map u | u in uploads ::
        if u in Pending(uploads, ids) then uploads[u].(reportId := Some(id), expiresAt := None) else uploads[u])
  }

  function VersionIds(versions: seq<Version>): set<string> {
    set v, u | v in versions && u in Ids(v.data) :: u
  }

  /** expireDetachedDraftUploads: the report's uploads outside `kept` go back to pending, for a day. */
  function Expire(uploads: Uploads, id: string, kept: set<string>, now: int): Uploads {
    map u | u in uploads ::
      if uploads[u].reportId == Some(id) && u !in kept
      then uploads[u].(reportId := None, expiresAt := Some(now + DAY_MS))
      else uploads[u]
  }

  /** uploadInspectionPhoto, once row and object are both written. */
  function UploadPhoto(db: Db, u: string, organization: string, branch: string, now: int): Result<Db, Problem> {
    if u in db.uploads then Err(Taken)
    else Ok(db.(uploads := db.uploads[u := Upload(organization, branch, None, Some(now + DAY_MS), false)],
        assets := db.assets + {u}))
  }

  // ---- Reports ----

  function Create(db: Db, id: string, organization: string, branch: string, raw: Fields): Result<Db, Problem> {
    if !ConditionsFit(raw) then Err(BadConditions)
    else if id in db.reports then Err(Taken)
    else
      var data := SanitizeDraft(raw);
      var linked := Link(db.uploads, organization, branch, id, data);
      if linked.Err? then Err(linked.error)
      else Ok(db.(uploads := linked.value,
          reports := db.reports[id := Report(organization, branch, 1, DRAFT, data, false, [])]))
  }

  function Update(db: Db, organization: string, branch: string, id: string, expected: int, raw: Fields,
      now: int): Result<Db, Problem> {
    if !ConditionsFit(raw) then Err(BadConditions)
    else if id !in db.reports || !InScope(db.reports[id], Scope(organization, Some({branch}))) then Err(NotFound)
    else if db.reports[id].revision != expected then Err(Stale)
    else if db.reports[id].status != DRAFT then Err(WrongStatus)
    else
      var data, r := SanitizeDraft(raw), db.reports[id];
      var linked := Link(db.uploads, organization, branch, id, data);
      if linked.Err? then Err(linked.error)
      else Ok(db.(
        reports := db.reports[id := r.(data := data, revision := expected + 1)],
        uploads := Expire(linked.value, id, Ids(data) + VersionIds(r.versions), now)))
  }

  /** The photos finalizing needs: linked to this report, of its organization and branch. */
  predicate PhotosReady(db: Db, id: string, photos: set<string>)
    requires id in db.reports
  {
    && |photos| <= MAX_PHOTOS
    && forall u <- photos ::
       && u in db.uploads && db.uploads[u].reportId == Some(id)
       && db.uploads[u].organization == db.reports[id].organization && db.uploads[u].branch == db.reports[id].branch
  }

  /** The reading half of finalizeInspection: what the version will hold. */
  function FinalizeRead(db: Db, scope: Scope, id: string, revision: int, conditions: Fields,
      related: Related): (f: Result<Fields, Problem>)
    ensures f.Ok? ==>
        && id in db.reports && ConditionsFit(conditions)
        && ConditionsFit(WithConditions(db.reports[id].data, conditions))
  {
    if !ConditionsFit(conditions) then Err(BadConditions)
    else if id !in db.reports || !InScope(db.reports[id], scope) then Err(NotFound)
    else if db.reports[id].revision != revision then Err(Stale)
    else if db.reports[id].status != DRAFT then Err(WrongStatus)
    else
      var data := WithConditions(db.reports[id].data, conditions);
      if !ConditionsFit(data) then Err(BadConditions)
      else if !Complete(data) then Err(Incomplete)
      else if !PhotosReady(db, id, Ids(data)) then Err(PhotoUnavailable)
      else if !(Ids(data) <= db.assets) then Err(PhotoGone)
      else Ok(FinalSnapshot(db.reports[id].data, conditions, related))
  }

  predicate HasVersion(r: Report, revision: int) {
    exists v <- r.versions :: v.revision == revision
  }

  /** The writing half: compare and set, then the version under its unique (report, revision). */
  function FinalizeCommit(db: Db, organization: string, id: string, revision: int, snapshot: Fields)
    : Result<Db, Problem>
  {
    if id !in db.reports then Err(Stale)
    else
      var r := db.reports[id];
      if r.deleted || r.organization != organization || r.revision != revision || r.status != DRAFT then Err(Stale)
      else if HasVersion(r, revision) then Err(Taken)
      else Ok(db.(reports := db.reports[id := r.(status := FINAL, data := snapshot,
          versions := r.versions + [Version(revision, snapshot)])]))
  }

  /** The version of the highest revision. */
  function Latest(versions: seq<Version>): (v: Version)
    requires versions != []
    ensures v in versions
    ensures forall w <- versions :: w.revision <= v.revision
  {
    if |versions| == 1 then versions[0]
    else
      var rest := Latest(versions[1..]);
      if versions[0].revision > rest.revision then versions[0] else rest
  }

  /** createInspectionRevision. */
  function Revise(db: Db, scope: Scope, id: string, revision: int): Result<Db, Problem> {
    if id !in db.reports || !InScope(db.reports[id], scope) then Err(NotFound)
    else
      var r := db.reports[id];
      if r.revision != revision then Err(Stale)
      else if r.status != FINAL || r.versions == [] then Err(WrongStatus)
      else Ok(db.(reports := db.reports[id := r.(revision := revision + 1, status := DRAFT,
          data := Latest(r.versions).data)]))
  }

  function SoftDelete(db: Db, scope: Scope, id: string): Result<Db, Problem> {
    if id !in db.reports || !InScope(db.reports[id], scope) then Err(NotFound)
    else Ok(db.(reports := db.reports[id := db.reports[id].(deleted := true)]))
  }

  // ---- The cleanup job, statement by statement ----

  predicate Expired(up: Upload, now: int) {
    up.reportId.None? && !up.cleaning && up.expiresAt.Some? && up.expiresAt.value <= now
  }

  function Claim(uploads: Uploads, u: string, now: int): Option<Uploads> {
    if u in uploads && Expired(uploads[u], now) then Some(uploads[u := uploads[u].(cleaning := true)]) else None
  }

  function RemoveRow(uploads: Uploads, u: string): Uploads {
    if u in uploads && uploads[u].cleaning && uploads[u].reportId.None? then uploads - {u} else uploads
  }

  function Release(uploads: Uploads, u: string): Uploads {
    if u in uploads && uploads[u].cleaning then uploads[u := uploads[u].(cleaning := false)] else uploads
  }

  // ---- In place ----

  class InspectionDb {
    var reports: map<string, Report>
    var uploads: Uploads
    var assets: set<string>

    function State(): Db
      reads this
    {
      Db(reports, uploads, assets)
    }

    constructor ()
      ensures State() == Db(map[], map[], {})
    {
      reports, uploads, assets := map[], map[], {};
    }

    method CountPending(ids: set<string>) returns (pending: set<string>)
      ensures pending == Pending(uploads, ids)
    {
      pending := {};
      var left := ids;
      while left != {}
        invariant left <= ids && pending == Pending(uploads, ids - left)
      {
        var u :| u in left;
        if u in uploads && uploads[u].reportId.None? { pending := pending + {u}; }
        left := left - {u};
      }
    }

    /** Inside a transaction: the caller restores the tables when it fails. */
    method LinkPendingUploads(organization: string, branch: string, id: string, payload: Fields)
        returns (problem: Option<Problem>)
      modifies this`uploads
      ensures var spec := Link(old(uploads), organization, branch, id, payload);
              if spec.Ok? then problem == None && uploads == spec.value
              else problem == Some(spec.error) && uploads == old(uploads)
    {
      hide UploadIds, AssociationsHold, CheckpointIds;
      var ids := CollectUploadIds(Obj(payload), "", {});
      assert ids == Ids(payload);
      if ids == {} { return None; }
      if |ids| > MAX_PHOTOS { return Some(TooManyPhotos); }
      if !AssociationsHold(Obj(payload), CheckpointIds(payload)) { return Some(ForeignCheckpoint); }
      var left := ids;
      while left != {}
        invariant left <= ids
        invariant forall u <- ids - left :: u in uploads && Linkable(uploads[u], organization, branch, id)
      {
        var u :| u in left;
        if u !in uploads || !Linkable(uploads[u], organization, branch, id) { return Some(PhotoUnavailable); }
        left := left - {u};
      }
      var pending := CountPending(ids);
      if |LinkedTo(uploads, id)| + |pending| > MAX_PHOTOS { return Some(TooManyPhotos); }
      MarkLinked(pending, id);
      return None;
    }

    /** The updateMany over the pending uploads. */
    method MarkLinked(pending: set<string>, id: string)
      requires pending <= uploads.Keys
      modifies this`uploads
      ensures uploads == map u | u in old(uploads) ::
                if u in pending then old(uploads)[u].(reportId := Some(id), expiresAt := None) else old(uploads)[u]
    {
      var left := pending;
      ghost var was := uploads;
      while left != {}
        invariant left <= pending && uploads.Keys == was.Keys
        invariant forall u <- was ::
            uploads[u] == if u in pending - left then was[u].(reportId := Some(id), expiresAt := None) else was[u]
      {
        var u :| u in left;
        uploads := uploads[u := uploads[u].(reportId := Some(id), expiresAt := None)];
        left := left - {u};
      }
    }

    method ExpireDetachedDraftUploads(id: string, payload: Fields, versions: seq<Version>, now: int)
      modifies this`uploads
      ensures uploads == Expire(old(uploads), id, Ids(payload) + VersionIds(versions), now)
    {
      hide UploadIds;
      var kept := CollectUploadIds(Obj(payload), "", {});
      assert versions[..0] == [];
      for i := 0 to |versions|
        invariant uploads == old(uploads) && kept == Ids(payload) + VersionIds(versions[..i])
      {
        var more := CollectUploadIds(Obj(versions[i].data), "", {});
        OneMoreVersion(versions[..i], versions[i]);
        assert versions[..i + 1] == versions[..i] + [versions[i]];
        kept := kept + more;
      }
      assert versions[..|versions|] == versions;
      var left := uploads.Keys;
      ghost var was := uploads;
      while left != {}
        invariant left <= was.Keys && uploads.Keys == was.Keys
        invariant forall u <- was :: uploads[u] == if u !in left then Expire(was, id, kept, now)[u] else was[u]
      {
        var u :| u in left;
        if uploads[u].reportId == Some(id) && u !in kept {
          uploads := uploads[u := uploads[u].(reportId := None, expiresAt := Some(now + DAY_MS))];
        }
        left := left - {u};
      }
      assert kept == Ids(payload) + VersionIds(versions);
      assert uploads == Expire(was, id, kept, now);
    }

    method UploadInspectionPhoto(u: string, organization: string, branch: string, now: int)
        returns (problem: Option<Problem>)
      modifies this
      ensures Outcome(problem, old(State()), UploadPhoto(old(State()), u, organization, branch, now))
    {
      if u in uploads { return Some(Taken); }
      uploads := uploads[u := Upload(organization, branch, None, Some(now + DAY_MS), false)];
      assets := assets + {u};
      return None;
    }

    /** A step either takes effect as specified or reports its problem and leaves everything as it was. */
    ghost predicate Outcome(problem: Option<Problem>, before: Db, spec: Result<Db, Problem>)
      reads this
    {
      if spec.Ok? then problem == None && State() == spec.value else problem == Some(spec.error) && State() == before
    }

    method CreateInspection(id: string, organization: string, branch: string, raw: Fields)
        returns (problem: Option<Problem>)
      modifies this
      ensures Outcome(problem, old(State()), Create(old(State()), id, organization, branch, raw))
    {
      hide ConditionsFit, SanitizeDraft, Link;
      if !ConditionsFit(raw) { return Some(BadConditions); }
      if id in reports { return Some(Taken); }
      var data := SanitizeDraft(raw);
      var before := reports;
      reports := reports[id := Report(organization, branch, 1, DRAFT, data, false, [])];
      problem := LinkPendingUploads(organization, branch, id, data);
      if problem.Some? { reports := before; }
    }

    method UpdateInspection(organization: string, branch: string, id: string, expected: int, raw: Fields, now: int)
        returns (problem: Option<Problem>)
      modifies this
      ensures Outcome(problem, old(State()), Update(old(State()), organization, branch, id, expected, raw, now))
    {
      hide ConditionsFit, SanitizeDraft, Link, Expire, Ids, VersionIds;
      if !ConditionsFit(raw) { return Some(BadConditions); }
      if id !in reports || reports[id].deleted || reports[id].organization != organization
          || reports[id].branch != branch {
        return Some(NotFound);
      }
      if reports[id].revision != expected { return Some(Stale); }
      if reports[id].status != DRAFT { return Some(WrongStatus); }
      var data := SanitizeDraft(raw);
      var before := reports;
      reports := reports[id := reports[id].(data := data, revision := reports[id].revision + 1)];
      problem := LinkPendingUploads(organization, branch, id, data);
      if problem.Some? { reports := before; return; }
      ExpireDetachedDraftUploads(id, data, reports[id].versions, now);
    }

    /** finalizeInspection with nothing in between its reads and its writes. */
    method FinalizeInspection(scope: Scope, id: string, revision: int, conditions: Fields, related: Related)
        returns (problem: Option<Problem>)
      modifies this
      ensures var read := FinalizeRead(old(State()), scope, id, revision, conditions, related);
              if read.Err? then problem == Some(read.error) && State() == old(State())
              else Outcome(problem, old(State()),
                  FinalizeCommit(old(State()), scope.organization, id, revision, read.value))
    {
      hide ConditionsFit, UploadIds, Complete, FinalSnapshot, WithConditions, PhotosReady, ReasonGiven;
      if !ConditionsFit(conditions) { return Some(BadConditions); }
      if id !in reports || !InScope(reports[id], scope) { return Some(NotFound); }
      if reports[id].revision != revision { return Some(Stale); }
      if reports[id].status != DRAFT { return Some(WrongStatus); }
      var data := WithConditions(reports[id].data, conditions);
      if !ConditionsFit(data) { return Some(BadConditions); }
      var gap := AssertInspectionComplete(data);
      if gap.Some? { return Some(Incomplete); }
      var photos := CollectUploadIds(Obj(data), "", {});
      assert photos == Ids(data);
      if !PhotosReady(State(), id, photos) { return Some(PhotoUnavailable); }
      if !(photos <= assets) { return Some(PhotoGone); }
      var snapshot := FinalSnapshot(reports[id].data, conditions, related);
      if HasVersion(reports[id], revision) { return Some(Taken); }
      reports := reports[id := reports[id].(status := FINAL, data := snapshot,
          versions := reports[id].versions + [Version(revision, snapshot)])];
      return None;
    }

    method CreateInspectionRevision(scope: Scope, id: string, revision: int) returns (problem: Option<Problem>)
      modifies this
      ensures Outcome(problem, old(State()), Revise(old(State()), scope, id, revision))
    {
      if id !in reports || !InScope(reports[id], scope) { return Some(NotFound); }
      if reports[id].revision != revision { return Some(Stale); }
      if reports[id].status != FINAL || reports[id].versions == [] { return Some(WrongStatus); }
      var latest := Latest(reports[id].versions);
      reports := reports[id := reports[id].(revision := reports[id].revision + 1, status := DRAFT,
          data := latest.data)];
      return None;
    }

    method SoftDeleteInspection(scope: Scope, id: string) returns (problem: Option<Problem>)
      modifies this
      ensures Outcome(problem, old(State()), SoftDelete(old(State()), scope, id))
    {
      if id !in reports || !InScope(reports[id], scope) { return Some(NotFound); }
      reports := reports[id := reports[id].(deleted := true)];
      return None;
    }

    /** One turn of the job: claim, delete the object, delete the row; on a failure give the claim back. */
    method CleanUpload(u: string, now: int, storageFails: bool, rowFails: bool) returns (gone: bool, failed: bool)
      modifies this
      ensures reports == old(reports)
      ensures var claimed := u in old(uploads) && Expired(old(uploads)[u], now);
              && gone == (claimed && !storageFails && !rowFails) && failed == (claimed && (storageFails || rowFails))
              && uploads == (if gone then old(uploads) - {u} else old(uploads))
              && assets == (if claimed && !storageFails then old(assets) - {u} else old(assets))
    {
      gone, failed := false, false;
      ghost var was := uploads;
      var claimed := Claim(uploads, u, now);
      if claimed.None? { return; }
      uploads := claimed.value;
      if !storageFails { assets := assets - {u}; }
      if storageFails || rowFails {
        uploads := Release(uploads, u);
        assert uploads == was;
        return false, true;
      }
      uploads := RemoveRow(uploads, u);
      gone := true;
    }

    /**
     * cleanupExpiredInspectionUploads with nothing running beside it. The two sets name the uploads whose
     * object, or whose row, cannot be deleted; such a failure ends the job.
     */
    method CleanupExpiredInspectionUploads(limit: int, now: int, storageFails: set<string>, rowFails: set<string>)
      returns (removed: nat, failed: bool, ghost done: set<string>)
      modifies this
      ensures reports == old(reports)
      ensures done <= ExpiredNow(old(uploads), now) && uploads == old(uploads) - done
          && removed == |done| <= Take(limit)
      ensures !failed ==>
          && assets == old(assets) - done
          && (removed == Take(limit) || done == ExpiredNow(old(uploads), now))
      ensures failed ==> exists u <- ExpiredNow(old(uploads), now) - done ::
                && (u in storageFails || u in rowFails)
                && assets == if u in storageFails then old(assets) - done else old(assets) - done - {u}
    {
      ghost var all := ExpiredNow(uploads, now);
      var expired := Choose(ExpiredNow(uploads, now), Take(limit));
      removed, failed, done := 0, false, {};
      while expired != {}
        invariant reports == old(reports)
        invariant expired <= all && done <= all && done !! expired
        invariant !failed && removed == |done|
        invariant |done| + |expired| == if |all| < Take(limit) then |all| else Take(limit)
        invariant uploads == old(uploads) - done && assets == old(assets) - done
      {
        var u :| u in expired;
        expired := expired - {u};
        assert u in uploads && uploads[u] == old(uploads)[u];
        var gone;
        gone, failed := CleanUpload(u, now, u in storageFails, u in rowFails);
        if failed { return; }
        removed, done := removed + 1, done + {u};
      }
      Whole(done, all);
    }
  }

  lemma Whole(part: set<string>, all: set<string>)
    requires part <= all
    ensures |part| <= |all| && (|part| == |all| ==> part == all)
  {
    var rest := all - part;
    assert all == part + rest;
  }

  /** Some of a set's elements, as a query without an order and with a limit returns them. */
  method Choose(from: set<string>, most: nat) returns (some: set<string>)
    ensures some <= from && |some| == if |from| < most then |from| else most
  {
    some := {};
    var left := from;
    while left != {} && |some| < most
      invariant left !! some && left + some == from && |some| <= most
      invariant |left| + |some| == |from|
    {
      var x :| x in left;
      left, some := left - {x}, some + {x};
    }
  }

  function ExpiredNow(uploads: Uploads, now: int): set<string> {
    set u | u in uploads && Expired(uploads[u], now)
  }

  /** How many rows one cleanup takes on. */
  function Take(limit: int): nat {
    if limit < 1 then 1 else if limit > 1000 then 1000 else limit
  }

  lemma OneMoreVersion(versions: seq<Version>, v: Version)
    ensures VersionIds(versions + [v]) == VersionIds(versions) + Ids(v.data)
  {
    hide Ids;
    forall u | u in Ids(v.data) ensures u in VersionIds(versions + [v]) {
      assert v in versions + [v];
    }
  }
}
