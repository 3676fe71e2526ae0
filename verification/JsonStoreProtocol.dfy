/**
 * Singleton writes statement by statement (src/modules/collections/app-json-store.ts:279-342): the look-up, the
 * search for a legacy row, its deletion and the write are not one transaction, and other writers come in between.
 */
module JsonStoreProtocol {
  import opened Wrappers
  import opened Json
  import opened JsonStore

  /** Where a write stands; Putting carries the payload its look-up found under the scoped id. */
  datatype Pc = Start | Searching | Deleting | Putting(existing: Option<Json>) | Done | Failed

  datatype Writer = Writer(write: Write, pc: Pc)

  datatype State = State(rows: Rows, writers: map<nat, Writer>)

  datatype Action =
    | Begin(w: nat, write: Write)
    | LookUp(w: nat)
    | FindLegacy(w: nat)
    | DeleteLegacy(w: nat)
    | Put(w: nat)
    | Die(w: nat)   // the request, or the statement it is at, fails

  function ScopedKey(x: Write): Key {
    Key(x.collection, StorageId(x.organization))
  }

  function LegacyKey(x: Write): Key {
    Key(x.collection, SINGLETON_ID)
  }

  function Go(s: State, w: nat, pc: Pc): State
    requires w in s.writers
  {
    s.(writers := s.writers[w := s.writers[w].(pc := pc)])
  }

  predicate At(s: State, w: nat, pc: Pc) {
    w in s.writers && s.writers[w].pc == pc
  }

  /** One statement; one that the writer is not ready for changes nothing. */
  function WriterStep(s: State, a: Action): State
    requires a.w in s.writers
  {
    var w, x, pc := a.w, s.writers[a.w].write, s.writers[a.w].pc;
    match (a, pc)
    case (LookUp(_), Start) =>
      var found := PayloadAt(s.rows, ScopedKey(x));
      if found.None? then Go(s, w, Searching)
      else Go(s, w, if s.rows[ScopedKey(x)].organization == x.organization then Putting(found) else Failed)
    case (FindLegacy(_), Searching) =>
      Go(s, w, if Owns(s.rows, LegacyKey(x), x.organization) then Deleting else Putting(None))
    case (DeleteLegacy(_), Deleting) =>
      if LegacyKey(x) in s.rows then Go(s, w, Putting(None)).(rows := s.rows - {LegacyKey(x)}) else Go(s, w, Failed)
    case (Put(_), Putting(existing)) =>
      Go(s, w, Done).(rows := s.rows[ScopedKey(x) := Row(x.organization, Tracked(x.payload, existing, x.user), x.now)])
    case (Die(_), _) => Go(s, w, if pc.Done? then Done else Failed)
    case _ => s
  }

  function Next(s: State, a: Action): State {
    if a.Begin? then
      if a.w in s.writers || !a.write.collection.Singleton? then s
      else s.(writers := s.writers[a.w := Writer(a.write, Start)])
    else if a.w in s.writers then WriterStep(s, a)
    else s
  }

  function Run(s: State, actions: seq<Action>): State
    decreases |actions|
  {
    if actions == [] then s else Run(Next(s, actions[0]), actions[1..])
  }

  function View(s: State, c: Collection, organization: string): Option<Json> {
    Get(s.rows, c, SINGLETON_ID, organization)
  }

  predicate WritesTo(x: Write, c: Collection, organization: string) {
    x.collection == c && x.organization == organization
  }

  // ---- What every state satisfies ----

  predicate WriterSound(rows: Rows, w: Writer) {
    && w.write.collection.Singleton?
    && (w.pc == Deleting && LegacyKey(w.write) in rows ==>
          rows[LegacyKey(w.write)].organization == w.write.organization)
  }

  ghost predicate Inv(s: State) {
    WellScoped(s.rows) && forall w <- s.writers :: WriterSound(s.rows, s.writers[w])
  }

  /** No statement creates a legacy row or gives one to someone else. */
  lemma LegacyOnlyGoes(s: State, a: Action, c: Collection)
    requires Inv(s)
    ensures var k := Key(c, SINGLETON_ID); k in Next(s, a).rows ==> k in s.rows && Next(s, a).rows[k] == s.rows[k]
  {
    hide Tracked, WellScoped;
    if a.w in s.writers {
      var o := s.writers[a.w].write.organization;
      StorageIdInjective(o, o);
    }
  }

  lemma StepKeeps(s: State, a: Action)
    requires Inv(s)
    ensures Inv(Next(s, a))
  {
    ScopedRowsStay(s, a);
    forall w | w in Next(s, a).writers ensures WriterSound(Next(s, a).rows, Next(s, a).writers[w]) {
      hide Tracked, WellScoped;
      LegacyOnlyGoes(s, a, Next(s, a).writers[w].write.collection);
      if w in s.writers { assert WriterSound(s.rows, s.writers[w]); }
    }
  }

  lemma ScopedRowsStay(s: State, a: Action)
    requires Inv(s)
    ensures WellScoped(Next(s, a).rows)
  {
    hide Tracked;
    if a.w in s.writers {
      var mine := s.writers[a.w].write.organization;
      forall o: string ensures StorageId(o) == StorageId(mine) ==> o == mine {
        StorageIdInjective(o, mine);
      }
    }
  }

  // ---- Who sees what ----

  /** A statement shows only to the organization and in the collection it writes for. */
  lemma OthersSeeNothing(s: State, a: Action, c: Collection, organization: string)
    requires Inv(s) && c.Singleton?
    requires a.w in s.writers ==> !WritesTo(s.writers[a.w].write, c, organization)
    ensures View(Next(s, a), c, organization) == View(s, c, organization)
  {
    hide Tracked, WellScoped;
    if a.w in s.writers {
      var x := s.writers[a.w].write;
      StorageIdInjective(x.organization, organization);
      StorageIdInjective(organization, x.organization);
      assert WriterSound(s.rows, s.writers[a.w]);
    }
  }

  /** The one statement that takes a document away: deleting the legacy row when no scoped row is there yet. */
  lemma VanishesIff(s: State, a: Action, c: Collection, organization: string)
    requires Inv(s) && c.Singleton? && View(s, c, organization).Some?
    ensures View(Next(s, a), c, organization).None? <==>
            && a.DeleteLegacy? && At(s, a.w, Deleting) && WritesTo(s.writers[a.w].write, c, organization)
            && Key(c, StorageId(organization)) !in s.rows
  {
    if a.w in s.writers && WritesTo(s.writers[a.w].write, c, organization) {
      hide Tracked;
      StorageIdInjective(organization, organization);
      assert WriterSound(s.rows, s.writers[a.w]);
    } else {
      hide WellScoped, Next, Get;
      OthersSeeNothing(s, a, c, organization);
    }
  }

  predicate PutsFor(w: Writer, c: Collection, organization: string) {
    w.pc.Putting? && WritesTo(w.write, c, organization)
  }

  /** The document is there, or a writer is about to put it. */
  ghost predicate Kept(s: State, c: Collection, organization: string) {
    View(s, c, organization).Some? || exists w <- s.writers :: PutsFor(s.writers[w], c, organization)
  }

  /** With the document gone, the only writer about to put it fails. */
  ghost predicate Loses(s: State, a: Action, c: Collection, organization: string) {
    && View(s, c, organization).None? && a.Die? && a.w in s.writers && PutsFor(s.writers[a.w], c, organization)
    && forall w <- s.writers :: w != a.w ==> !PutsFor(s.writers[w], c, organization)
  }

  lemma StepKeepsDocumentIff(s: State, a: Action, c: Collection, organization: string)
    requires Inv(s) && c.Singleton? && Kept(s, c, organization)
    ensures Kept(Next(s, a), c, organization) <==> !Loses(s, a, c, organization)
  {
    hide Tracked, WellScoped;
    var s' := Next(s, a);
    StepGaps(s, a, c, organization);
    if View(s, c, organization).Some? {
      VanishesIff(s, a, c, organization);
    } else if !(a.w in s.writers && WritesTo(s.writers[a.w].write, c, organization)) {
      OthersSeeNothing(s, a, c, organization);
    } else {
      AppearsOnPut(s, a, c, organization);
    }
  }

  /** What a step does to the writers about to put. */
  lemma StepGaps(s: State, a: Action, c: Collection, organization: string)
    ensures forall w <- s.writers :: w in Next(s, a).writers && (w != a.w ==> Next(s, a).writers[w] == s.writers[w])
    ensures forall w <- Next(s, a).writers :: w in s.writers || Next(s, a).writers[w].pc == Start
    ensures a.DeleteLegacy? && At(s, a.w, Deleting) && LegacyKey(s.writers[a.w].write) in s.rows ==>
              Next(s, a).writers[a.w] == s.writers[a.w].(pc := Putting(None))
    ensures a.w in s.writers && PutsFor(s.writers[a.w], c, organization) && !a.Put? && !a.Die? ==>
              Next(s, a).writers[a.w] == s.writers[a.w]
    ensures a.w in s.writers && a.Die? ==> !PutsFor(Next(s, a).writers[a.w], c, organization)
  {
    hide Tracked;
  }

  lemma AppearsOnPut(s: State, a: Action, c: Collection, organization: string)
    requires Inv(s) && c.Singleton? && a.w in s.writers && WritesTo(s.writers[a.w].write, c, organization)
    requires View(s, c, organization).None?
    ensures View(Next(s, a), c, organization).Some? <==> a.Put? && s.writers[a.w].pc.Putting?
  {
    hide Tracked, WellScoped;
    StorageIdInjective(organization, organization);
    assert WriterSound(s.rows, s.writers[a.w]);
  }

  ghost predicate NothingLost(s: State, actions: seq<Action>, c: Collection, organization: string)
    decreases |actions|
  {
    actions != [] ==>
      !Loses(s, actions[0], c, organization) && NothingLost(Next(s, actions[0]), actions[1..], c, organization)
  }

  lemma {:induction false} RunKeepsDocument(s: State, actions: seq<Action>, c: Collection, organization: string)
    requires Inv(s) && c.Singleton? && Kept(s, c, organization) && NothingLost(s, actions, c, organization)
    ensures Inv(Run(s, actions)) && Kept(Run(s, actions), c, organization)
    decreases |actions|
  {
    hide Inv, Kept, Next, Loses;
    if actions != [] {
      StepKeeps(s, actions[0]);
      StepKeepsDocumentIff(s, actions[0], c, organization);
      RunKeepsDocument(Next(s, actions[0]), actions[1..], c, organization);
    }
  }

  /**
   * However writers interleave, a document once there is there again whenever no writer is about to put it,
   * unless the only writer that was about to put it failed while it was gone.
   */
  lemma DocumentSurvives(s: State, actions: seq<Action>, c: Collection, organization: string)
    requires Inv(s) && c.Singleton? && View(s, c, organization).Some? && NothingLost(s, actions, c, organization)
    requires forall w <- Run(s, actions).writers :: !PutsFor(Run(s, actions).writers[w], c, organization)
    ensures View(Run(s, actions), c, organization).Some?
  {
    hide Inv, Run, NothingLost;
    RunKeepsDocument(s, actions, c, organization);
  }

  // ---- One writer alone ----

  function Alone(rows: Rows, x: Write, pc: Pc): State {
    State(rows, map[0 := Writer(x, pc)])
  }

  lemma RunOfFour(s: State, a: Action, b: Action, c: Action, d: Action)
    ensures Run(s, [a, b, c, d]) == Next(Next(Next(Next(s, a), b), c), d)
  {
    hide Next;
    var t := Next(Next(Next(s, a), b), c);
    assert [a, b, c, d][1..] == [b, c, d] && [b, c, d][1..] == [c, d] && [c, d][1..] == [d] && [d][1..] == [];
    assert Run(t, [d]) == Run(Next(t, d), []) == Next(t, d);
    assert Run(Next(Next(s, a), b), [c, d]) == Run(t, [d]);
    assert Run(Next(s, a), [b, c, d]) == Run(Next(Next(s, a), b), [c, d]);
  }

  /** Undisturbed, the four statements amount to the upsert as one step. */
  lemma StatementsMakeUpsert(rows: Rows, x: Write)
    requires x.collection.Singleton?
    ensures var end := Run(Alone(rows, x, Start), [LookUp(0), FindLegacy(0), DeleteLegacy(0), Put(0)]);
            var r := Upsert(rows, x.collection, SINGLETON_ID, x.payload, x.organization, x.user, x.now);
            if r.Ok? then end == Alone(r.value, x, Done) else end == Alone(rows, x, Failed)
  {
    hide Run, Tracked;
    RunOfFour(Alone(rows, x, Start), LookUp(0), FindLegacy(0), DeleteLegacy(0), Put(0));
    StorageIdInjective(x.organization, x.organization);
    var k := ScopedKey(x);
    if k in rows && rows[k].organization == x.organization {
      FoundThenPut(rows, x);
    } else if k !in rows {
      NotFoundThenPut(rows, x);
    } else {
      Rejected(rows, x);
    }
  }

  lemma FoundThenPut(rows: Rows, x: Write)
    requires x.collection.Singleton? && Owns(rows, ScopedKey(x), x.organization)
    ensures var s := Next(Next(Next(Next(Alone(rows, x, Start), LookUp(0)), FindLegacy(0)), DeleteLegacy(0)), Put(0));
            var r := Upsert(rows, x.collection, SINGLETON_ID, x.payload, x.organization, x.user, x.now);
            s == Alone(r.value, x, Done)
  {
    hide Tracked;
    var found := Alone(rows, x, Putting(PayloadAt(rows, ScopedKey(x))));
    assert Next(Alone(rows, x, Start), LookUp(0)) == found;
    assert Next(found, FindLegacy(0)) == found && Next(found, DeleteLegacy(0)) == found;
  }

  lemma Rejected(rows: Rows, x: Write)
    requires x.collection.Singleton? && ScopedKey(x) in rows && rows[ScopedKey(x)].organization != x.organization
    ensures var s := Next(Next(Next(Next(Alone(rows, x, Start), LookUp(0)), FindLegacy(0)), DeleteLegacy(0)), Put(0));
            s == Alone(rows, x, Failed)
  {
    var failed := Alone(rows, x, Failed);
    assert Next(Alone(rows, x, Start), LookUp(0)) == failed;
    assert Next(failed, FindLegacy(0)) == failed && Next(failed, DeleteLegacy(0)) == failed;
    assert Next(failed, Put(0)) == failed;
  }

  lemma NotFoundThenPut(rows: Rows, x: Write)
    requires x.collection.Singleton? && ScopedKey(x) !in rows
    ensures var s := Next(Next(Next(Next(Alone(rows, x, Start), LookUp(0)), FindLegacy(0)), DeleteLegacy(0)), Put(0));
            var r := Upsert(rows, x.collection, SINGLETON_ID, x.payload, x.organization, x.user, x.now);
            s == Alone(r.value, x, Done)
  {
    hide Tracked;
    StorageIdInjective(x.organization, x.organization);
    assert Next(Alone(rows, x, Start), LookUp(0)) == Alone(rows, x, Searching);
    var free := Alone(rows, x, Putting(None));
    if Owns(rows, LegacyKey(x), x.organization) {
      assert Next(Alone(rows, x, Searching), FindLegacy(0)) == Alone(rows, x, Deleting);
      var left := rows - {LegacyKey(x)};
      assert Next(Alone(rows, x, Deleting), DeleteLegacy(0)) == Alone(left, x, Putting(None));
    } else {
      assert Next(Alone(rows, x, Searching), FindLegacy(0)) == free && Next(free, DeleteLegacy(0)) == free;
    }
  }

  /** It does happen: a's first scoped write fails after deleting the legacy document, and nothing is left. */
  lemma DocumentCanBeLost(x: Write)
    requires x.collection.Singleton? && x.organization == "a"
    ensures var rows := map[LegacyKey(x) := Row("a", Obj(map[]), 0)];
            var end := Run(Alone(rows, x, Start), [LookUp(0), FindLegacy(0), DeleteLegacy(0), Die(0)]);
            && View(Alone(rows, x, Start), x.collection, "a") == Some(Obj(map[]))
            && end == Alone(map[], x, Failed) && View(end, x.collection, "a") == None
  {
    hide Run, Tracked;
    var rows := map[LegacyKey(x) := Row("a", Obj(map[]), 0)];
    StorageIdInjective("a", "a");
    RunOfFour(Alone(rows, x, Start), LookUp(0), FindLegacy(0), DeleteLegacy(0), Die(0));
    assert Next(Alone(rows, x, Start), LookUp(0)) == Alone(rows, x, Searching);
    assert Next(Alone(rows, x, Searching), FindLegacy(0)) == Alone(rows, x, Deleting);
    assert rows - {LegacyKey(x)} == map[];
    assert Next(Alone(rows, x, Deleting), DeleteLegacy(0)) == Alone(map[], x, Putting(None));
  }
}
