/**
 * Only complete reports are finalized, and what completeness and ratings are
 * (src/modules/inspections/inspection-validation.ts:101-175).
 */
module InspectionComplete {
  import opened Wrappers
  import opened Words
  import opened Json
  import opened InspectionData
  import opened Inspection
  import opened InspectionProtocol
  import opened InspectionSafety
  import opened InspectionContent

  // ---- Only complete reports are finalized ----

  lemma NamesLeaveComplete(data: Fields, r: Related)
    requires Complete(data)
    ensures Complete(data + Details(r))
  {
    hide Details, SectionComplete;
    DetailsAre(r);
    LongKeys("sections");
    LongKeys("overallRatingOverride");
    LongKeys("overrideReason");
  }

  /** The snapshot of a draft that is complete under the conditions given is complete. */
  lemma FinalSnapshotIsComplete(data: Fields, conditions: Fields, r: Related)
    requires ConditionsFit(conditions) && ConditionsFit(WithConditions(data, conditions))
    requires Complete(WithConditions(data, conditions))
    ensures Complete(FinalSnapshot(data, conditions, r))
  {
    hide ConditionsFit, WithConditions, Complete, Details, Snapshot;
    NamesLeaveComplete(WithConditions(data, conditions), r);
    StillFits(WithConditions(data, conditions), r);
    SnapshotStaysComplete(FinalPayload(data, conditions, r));
  }

  /** A draft that is incomplete under the conditions given is not read for finalization, and nothing happens. */
  lemma IncompleteIsRefused(
    s: State, f: nat, scope: Scope, id: string, revision: int, conditions: Fields, related: Related)
    requires id in s.db.reports && ConditionsFit(conditions)
    requires !Complete(WithConditions(s.db.reports[id].data, conditions))
    ensures FinalizeRead(s.db, scope, id, revision, conditions, related).Err?
    ensures Next(s, FinalizeReads(f, scope, id, revision, conditions, related)) == s
  {
    hide ConditionsFit, WithConditions, Complete, PhotosReady, Ids;
  }

  ghost predicate VersionsComplete(db: Db) {
    forall id, v | id in db.reports && v in db.reports[id].versions :: Complete(v.data)
  }

  ghost predicate FinalizersComplete(s: State) {
    forall f <- s.finalizers :: Complete(s.finalizers[f].snapshot)
  }

  lemma FinalizersStayComplete(s: State, a: Action)
    requires FinalizersComplete(s)
    ensures FinalizersComplete(Next(s, a))
  {
    hide Complete, ConditionsFit, WithConditions, FinalSnapshot, PhotosReady, Ids;
    hide Create, Update, FinalizeCommit, Revise, SoftDelete;
    forall f | f in Next(s, a).finalizers ensures Complete(Next(s, a).finalizers[f].snapshot) {
      if !(f in s.finalizers && Next(s, a).finalizers[f] == s.finalizers[f]) {
        assert a.FinalizeReads? && a.f == f;
        FinalSnapshotIsComplete(s.db.reports[a.id].data, a.conditions, a.related);
      }
    }
  }

  lemma VersionsStayComplete(s: State, a: Action)
    requires VersionsComplete(s.db) && FinalizersComplete(s)
    ensures VersionsComplete(Next(s, a).db)
  {
    hide Complete, Next;
    var s' := Next(s, a);
    forall id, v | id in s'.db.reports && v in s'.db.reports[id].versions ensures Complete(v.data) {
      if !(id in s.db.reports && v in s.db.reports[id].versions) { NewVersionIsCommitted(s, a, id); }
    }
  }

  lemma {:induction false} RunStaysComplete(s: State, actions: seq<Action>)
    requires VersionsComplete(s.db) && FinalizersComplete(s)
    ensures VersionsComplete(Run(s, actions).db)
    decreases |actions|
  {
    hide VersionsComplete, FinalizersComplete, Next;
    if actions != [] {
      FinalizersStayComplete(s, actions[0]);
      VersionsStayComplete(s, actions[0]);
      RunStaysComplete(Next(s, actions[0]), actions[1..]);
    }
  }

  /** Every version ever stored, and every report that is final, is complete. */
  lemma FinalizedIsComplete(s: State, id: string)
    requires Reachable(s) && id in s.db.reports
    ensures forall v <- s.db.reports[id].versions :: Complete(v.data)
    ensures s.db.reports[id].status == FINAL ==> Complete(s.db.reports[id].data)
  {
    hide Run, Complete, Inv;
    var run :| Run(Initial, run) == s;
    RunStaysComplete(Initial, run);
    ReachableKeeps(s);
    if s.db.reports[id].status == FINAL { FinalIsItsVersion(s, id); }
  }

  lemma FinalIsItsVersion(s: State, id: string)
    requires Inv(s) && id in s.db.reports && s.db.reports[id].status == FINAL
    ensures Version(s.db.reports[id].revision, s.db.reports[id].data) in s.db.reports[id].versions
  {
    assert HistorySound(s.db.reports[id]);
  }

  // ---- Ratings ----

  const RATING_KEYS := ["rating", "conditionRating", "severity", "status", "result"]

  /** The field reads as a rating, trimmed and in capitals. */
  function RatingAt(checkpoint: Json, key: string): Option<string> {
    var value := FieldOf(checkpoint, key);
    if value.Str? && Upper(Strip(value.text)) in RATINGS then Some(Upper(Strip(value.text))) else None
  }

  lemma {:induction false} FirstRatingIff(checkpoint: Json, keys: seq<string>, r: string)
    ensures FirstRating(checkpoint, keys) == Some(r) <==>
            exists i :: 0 <= i < |keys| && RatingAt(checkpoint, keys[i]) == Some(r)
                        && forall j :: 0 <= j < i ==> RatingAt(checkpoint, keys[j]) == None
  {
    hide Upper, Strip;
    if keys != [] {
      FirstRatingIff(checkpoint, keys[1..], r);
      if FirstRating(checkpoint, keys[1..]) == Some(r) && RatingAt(checkpoint, keys[0]) == None {
        var i :| 0 <= i < |keys[1..]| && RatingAt(checkpoint, keys[1..][i]) == Some(r)
                 && forall j :: 0 <= j < i ==> RatingAt(checkpoint, keys[1..][j]) == None;
        assert RatingAt(checkpoint, keys[i + 1]) == Some(r);
        assert forall j :: 1 <= j < i + 1 ==> keys[j] == keys[1..][j - 1];
      }
      if i :| 0 < i < |keys| && RatingAt(checkpoint, keys[i]) == Some(r)
              && forall j :: 0 <= j < i ==> RatingAt(checkpoint, keys[j]) == None {
        assert RatingAt(checkpoint, keys[1..][i - 1]) == Some(r);
        assert forall j :: 0 <= j < i - 1 ==> keys[1..][j] == keys[j + 1];
      }
    }
  }

  /** A checkpoint's rating is the first of its five rating fields that reads as one. */
  lemma RatingIsTheFirst(checkpoint: Json, r: string)
    ensures RatingForCheckpoint(checkpoint) == Some(r) <==>
            exists i :: 0 <= i < |RATING_KEYS| && RatingAt(checkpoint, RATING_KEYS[i]) == Some(r)
                        && forall j :: 0 <= j < i ==> RatingAt(checkpoint, RATING_KEYS[j]) == None
  {
    hide RatingAt, FirstRating;
    FirstRatingIff(checkpoint, RATING_KEYS, r);
  }

  /** An override given as a text is the report's rating, trimmed and in capitals, whatever its checkpoints say. */
  lemma OverrideDecides(payload: Fields, text: string)
    requires ConditionsFit(payload) && text != ""
    requires FieldOf(Obj(payload), "overallRatingOverride") == Str(text)
    ensures Snapshot(payload)["computedOverallRating"] == Str(Upper(Strip(text)))
  {
    hide Upper, Strip, NormalizeConditions, ConditionsFit, RatedSections;
  }

  // ---- Words ----

  /** A section's checkpoints are its list of that name; only without one, its items. */
  lemma CheckpointsComeFirst(section: Json)
    ensures FieldOf(section, "checkpoints").Arr? ==> CheckpointsOf(section) == FieldOf(section, "checkpoints").items
    ensures !FieldOf(section, "checkpoints").Arr? && FieldOf(section, "items").Arr? ==>
              CheckpointsOf(section) == FieldOf(section, "items").items
    ensures !FieldOf(section, "checkpoints").Arr? && !FieldOf(section, "items").Arr? ==> CheckpointsOf(section) == []
  {
  }

  /** What completeness asks for: sections with checkpoints, a verdict for each, and a reason for an override. */
  lemma CompleteMeans(payload: Fields)
    requires Complete(payload)
    ensures SectionsOf(payload) != []
    ensures forall s, c :: s in SectionsOf(payload) && c in CheckpointsOf(s) ==>
              RatingForCheckpoint(c).Some? && RatingForCheckpoint(c).value in
                {"GOOD", "AVERAGE", "BAD", "N/A", "NA", "NOT_APPLICABLE"}
    ensures forall s <- SectionsOf(payload) :: CheckpointsOf(s) != []
    ensures var override := FieldOf(Obj(payload), "overallRatingOverride");
            Truthy(override) ==>
              var reason := FieldOf(Obj(payload), "overrideReason");
              !reason.Null? && Strip(StringOf(reason)) != ""
  {
    hide FirstRating, Strip, StringOf;
    forall s, c | s in SectionsOf(payload) && c in CheckpointsOf(s)
      ensures RatingForCheckpoint(c).Some? && RatingForCheckpoint(c).value in
                {"GOOD", "AVERAGE", "BAD", "N/A", "NA", "NOT_APPLICABLE"}
    {
      assert SectionComplete(s) && Rated(c);
      assert RatingForCheckpoint(c).value in RATINGS;
    }
  }

  /** Bad is worse than average, and average than good. */
  lemma RatingWords()
    ensures WorstRating(["GOOD", "BAD", "AVERAGE"]) == "BAD" && WorstRating(["GOOD", "AVERAGE"]) == "AVERAGE"
  {
    hide Applicable;
    assert |"GOOD"| == 4 && |"AVERAGE"| == 7 && ("BAD")[0] != ("N/A")[0];
    Applies("BAD", ["AVERAGE"]);
    Applies("AVERAGE", []);
    Applies("GOOD", ["BAD", "AVERAGE"]);
    Applies("GOOD", ["AVERAGE"]);
    NoneApplies();
    assert ["GOOD"] + ["BAD", "AVERAGE"] == ["GOOD", "BAD", "AVERAGE"] && ["BAD"] + ["AVERAGE"] == ["BAD", "AVERAGE"];
    assert ["GOOD"] + ["AVERAGE"] == ["GOOD", "AVERAGE"] && ["AVERAGE"] + [] == ["AVERAGE"];
  }

  lemma NoneApplies()
    ensures Applicable([]) == []
  {}

  /** What does not apply counts for nothing. */
  lemma NotApplicableWords()
    ensures WorstRating(["N/A", "NA", "NOT_APPLICABLE"]) == "N/A" && WorstRating(["NA", "GOOD"]) == "GOOD"
  {
    hide Applicable;
    assert |"GOOD"| == 4 && |"BAD"| == 3 && |"AVERAGE"| == 7;
    DoesNotApply("N/A", ["NA", "NOT_APPLICABLE"]);
    DoesNotApply("NA", ["NOT_APPLICABLE"]);
    DoesNotApply("NOT_APPLICABLE", []);
    DoesNotApply("NA", ["GOOD"]);
    Applies("GOOD", []);
    NoneApplies();
    assert ["N/A"] + ["NA", "NOT_APPLICABLE"] == ["N/A", "NA", "NOT_APPLICABLE"];
    assert ["NA"] + ["NOT_APPLICABLE"] == ["NA", "NOT_APPLICABLE"] && ["NOT_APPLICABLE"] + [] == ["NOT_APPLICABLE"];
    assert ["NA"] + ["GOOD"] == ["NA", "GOOD"] && ["GOOD"] + [] == ["GOOD"];
  }

  lemma Applies(r: string, rest: seq<string>)
    requires r != "N/A" && r != "NA" && r != "NOT_APPLICABLE"
    ensures Applicable([r] + rest) == [r] + Applicable(rest)
  {
    assert ([r] + rest)[1..] == rest;
  }

  lemma DoesNotApply(r: string, rest: seq<string>)
    requires r == "N/A" || r == "NA" || r == "NOT_APPLICABLE"
    ensures Applicable([r] + rest) == Applicable(rest)
  {
    assert ([r] + rest)[1..] == rest;
  }
}
