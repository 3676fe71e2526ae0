/** Revisions and versions of a report over whole runs: no lost update, no return to an earlier state. */
module InspectionRevisions {
  import opened Wrappers
  import opened InspectionData
  import opened Inspection
  import opened InspectionProtocol
  import opened InspectionSafety

  /**
   * A final report holds its own version; a draft is past every version; a revision begins with the latest
   * finalized data.
   */
  lemma RevisionStartsFromLatest(s: State, scope: Scope, id: string, revision: int)
    requires Reachable(s) && id in s.db.reports
    ensures var r := s.db.reports[id];
            && (r.status == FINAL ==> r.versions != [] && Latest(r.versions) == Version(r.revision, r.data))
            && (r.status == DRAFT ==> forall v <- r.versions :: v.revision < r.revision)
            && (forall i, j :: 0 <= i < j < |r.versions| ==> r.versions[i].revision != r.versions[j].revision)
    ensures var after := Revise(s.db, scope, id, revision);
            after.Ok? ==>
              && s.db.reports[id].status == FINAL
              && after.value.reports[id].data == Latest(s.db.reports[id].versions).data == s.db.reports[id].data
              && after.value.reports[id] == s.db.reports[id].(revision := revision + 1, status := DRAFT)
  {
    hide Reachable, Latest;
    ReachableKeeps(s);
    var r := s.db.reports[id];
    assert HistorySound(r);
    if r.versions != [] { LatestIsLast(r.versions); }
  }

  /**
   * A commit that succeeds does so on the very data its finalizer read, and never stumbles on an
   * existing version; whatever else was saved in between makes it fail instead.
   */
  lemma CommitIsOfWhatWasRead(s: State, f: nat)
    requires Reachable(s) && f in s.finalizers
    ensures var x := s.finalizers[f];
            var outcome := FinalizeCommit(s.db, x.organization, x.id, x.revision, x.snapshot);
            && x.id in s.db.reports
            && BuiltFrom(x.snapshot, x.source, x.conditions, x.related)
            && outcome != Err(Taken)
            && (outcome.Ok? ==> s.db.reports[x.id].data == x.source && s.db.reports[x.id].status == DRAFT)
  {
    hide Reachable, BuiltFrom;
    ReachableKeeps(s);
    var x := s.finalizers[f];
    assert FinalizerSound(s.db, x) && HistorySound(s.db.reports[x.id]);
  }

  /** Within a run a report never returns to an earlier revision and status with other data. */
  lemma NoAba(s: State, actions: seq<Action>, id: string)
    requires id in s.db.reports
    ensures var s' := Run(s, actions);
            && id in s'.db.reports
            && Rank(s'.db.reports[id]) >= Rank(s.db.reports[id])
            && (Rank(s'.db.reports[id]) == Rank(s.db.reports[id]) ==> s'.db.reports[id].data == s.db.reports[id].data)
            && s.db.reports[id].versions <= s'.db.reports[id].versions
  {
    hide Run;
    RunEvolves(s, actions);
    assert Evolves(s.db.reports[id], Run(s, actions).db.reports[id]);
  }

  /** Once a revision has been saved over, finalized or revised, no later save or commit against it succeeds. */
  lemma StaleWritesFail(s: State, actions: seq<Action>, id: string, revision: int,
                        organization: string, branch: string, raw: Fields, now: int, snapshot: Fields)
    requires id in s.db.reports && Rank(s.db.reports[id]) > 2 * revision
    ensures var db := Run(s, actions).db;
            && Update(db, organization, branch, id, revision, raw, now).Err?
            && FinalizeCommit(db, organization, id, revision, snapshot).Err?
  {
    hide Run, Link, Expire, SanitizeDraft, ConditionsFit, Ids;
    NoAba(s, actions, id);
  }

  /** Some state of the run held this revision as a draft, and the version is the snapshot of exactly that data. */
  ghost predicate BuiltInRun(run: seq<Action>, id: string, v: Version) {
    exists n: nat, conditions, related :: n <= |run| && BuiltAt(Run(Initial, run[..n]), id, v, conditions, related)
  }

  predicate BuiltAt(s: State, id: string, v: Version, conditions: Fields, related: Related) {
    && id in s.db.reports && s.db.reports[id].revision == v.revision && s.db.reports[id].status == DRAFT
    && BuiltFrom(v.data, s.db.reports[id].data, conditions, related)
  }

  lemma StillBuiltInRun(run: seq<Action>, a: Action, id: string, v: Version)
    requires BuiltInRun(run, id, v)
    ensures BuiltInRun(run + [a], id, v)
  {
    hide BuiltAt, Run;
    var n: nat, conditions, related :| n <= |run| && BuiltAt(Run(Initial, run[..n]), id, v, conditions, related);
    assert (run + [a])[..n] == run[..n];
  }

  lemma CommittedIsBuilt(run: seq<Action>, a: Action, id: string, v: Version)
    requires id in Next(Run(Initial, run), a).db.reports && v in Next(Run(Initial, run), a).db.reports[id].versions
    requires id in Run(Initial, run).db.reports ==> v !in Run(Initial, run).db.reports[id].versions
    ensures BuiltInRun(run + [a], id, v)
  {
    hide Next, Run, Inv, BuiltFrom;
    var s := Run(Initial, run);
    assert Reachable(s);
    NewVersionIsCommitted(s, a, id);
    var x := s.finalizers[a.f];
    CommitIsOfWhatWasRead(s, a.f);
    SourceIsCurrent(s, a.f);
    assert (run + [a])[..|run|] == run;
    assert BuiltAt(s, id, v, x.conditions, x.related);
  }

  lemma SourceIsCurrent(s: State, f: nat)
    requires Reachable(s) && f in s.finalizers
    ensures var x := s.finalizers[f];
            x.id in s.db.reports && (Rank(s.db.reports[x.id]) == 2 * x.revision ==> s.db.reports[x.id].data == x.source)
  {
    hide Reachable, BuiltFrom;
    ReachableKeeps(s);
    assert FinalizerSound(s.db, s.finalizers[f]);
  }

  /** Every version ever stored is the snapshot of the data its report held, as a draft, at that revision. */
  lemma {:induction false} VersionsAreBuiltFromDrafts(run: seq<Action>, id: string, v: Version)
    requires id in Run(Initial, run).db.reports && v in Run(Initial, run).db.reports[id].versions
    ensures BuiltInRun(run, id, v)
    decreases |run|
  {
    hide Next, BuiltInRun;
    if run != [] {
      var before, a := run[..|run| - 1], run[|run| - 1];
      assert run == before + [a];
      RunAppend(Initial, before, [a]);
      OneStep(Run(Initial, before), a);
      if id in Run(Initial, before).db.reports && v in Run(Initial, before).db.reports[id].versions {
        VersionsAreBuiltFromDrafts(before, id, v);
        StillBuiltInRun(before, a, id, v);
      } else {
        CommittedIsBuilt(before, a, id, v);
      }
    }
  }
}
