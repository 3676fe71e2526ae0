/** The AppJsonRow document store (src/modules/collections/app-json-store.ts). */
module JsonStore {
  import opened Wrappers
  import opened Json
  import opened Words

  /** Single-document collections, and collections of documents by id. */
  datatype Collection = Singleton(name: string) | Array(name: string, financial: bool)

  /** The primary key; it is global, across organizations. */
  datatype Key = Key(collection: Collection, id: string)

  datatype Row = Row(organization: string, payload: Json, updatedAt: int)

  type Rows = map<Key, Row>

  datatype Error = OwnedElsewhere | WouldEmpty

  const SINGLETON_ID := "default"
  const SCOPE_SUFFIX := "::default"

  function StorageId(organization: string): string {
    organization + SCOPE_SUFFIX
  }

  /** Organizations never share a storage id, nor take the legacy one. */
  lemma StorageIdInjective(a: string, b: string)
    ensures StorageId(a) == StorageId(b) <==> a == b
    ensures StorageId(a) != SINGLETON_ID
  {
    assert StorageId(a)[..|StorageId(a)| - 9] == a && StorageId(b)[..|StorageId(b)| - 9] == b;
    assert |StorageId(a)| >= 9;
  }

  predicate Owns(rows: Rows, k: Key, organization: string) {
    k in rows && rows[k].organization == organization
  }

  // ---- Reading ----

  /** getCollectionItem with an organization. */
  function Get(rows: Rows, c: Collection, id: string, organization: string): Option<Json> {
    if c.Singleton? && id == SINGLETON_ID then
      if Owns(rows, Key(c, StorageId(organization)), organization)
          then Some(rows[Key(c, StorageId(organization))].payload)
      else if Owns(rows, Key(c, SINGLETON_ID), organization) then Some(rows[Key(c, SINGLETON_ID)].payload)
      else None
    else if Owns(rows, Key(c, id), organization) then Some(rows[Key(c, id)].payload)
    else None
  }

  /** The row findFirst picks among the organization's two: the one updated last. */
  function NewestOwn(rows: Rows, c: Collection, organization: string): Option<Key> {
    var scoped, legacy := Key(c, StorageId(organization)), Key(c, SINGLETON_ID);
    if Owns(rows, scoped, organization) && Owns(rows, legacy, organization) then
      Some(if rows[legacy].updatedAt > rows[scoped].updatedAt then legacy else scoped)
    else if Owns(rows, scoped, organization) then Some(scoped)
    else if Owns(rows, legacy, organization) then Some(legacy)
    else None
  }

  /** listCollectionItems of a singleton: the newest own row, but a scoped row, whoever owns it, over a legacy one. */
  function ListSingleton(rows: Rows, c: Collection, organization: string): seq<Json> {
    var found := NewestOwn(rows, c, organization);
    if found.None? then []
    else if found.value.id == SINGLETON_ID && Key(c, StorageId(organization)) in rows
    then [rows[Key(c, StorageId(organization))].payload]
    else [rows[found.value].payload]
  }

  // ---- Writing ----

  function Fields(payload: Json): map<string, Json> {
    if payload.Obj? then payload.fields else map[]
  }

  /** The payload as stored, with the creator and the last writer noted when the user is known. */
  function Tracked(payload: Json, existing: Option<Json>, user: Option<string>): Json {
    var fields := Fields(payload);
    if user.None? then Obj(fields)
    else
      var creator := if existing.None? then Str(user.value) else FieldOf(existing.value, "createdByUserId");
      var noted := if Truthy(creator) || existing.None? then fields["createdByUserId" := creator] else fields;
      Obj(noted["updatedByUserId" := Str(user.value)])
  }

  function PayloadAt(rows: Rows, k: Key): Option<Json> {
    if k in rows then Some(rows[k].payload) else None
  }

  function KeyFor(c: Collection, id: string, organization: string): Key {
    if c.Singleton? && id == SINGLETON_ID then Key(c, StorageId(organization)) else Key(c, id)
  }

  /** upsertCollectionItem: a first scoped write also drops the organization's legacy row. */
  function Upsert(rows: Rows, c: Collection, id: string, payload: Json, organization: string, user: Option<string>,
      now: int): Result<Rows, Error> {
    var k := KeyFor(c, id, organization);
    if k in rows && rows[k].organization != organization then Err(OwnedElsewhere)
    else
      var migrates := c.Singleton? && id == SINGLETON_ID && k !in rows
          && Owns(rows, Key(c, SINGLETON_ID), organization);
      var kept := if migrates then rows - {Key(c, SINGLETON_ID)} else rows;
      Ok(kept[k := Row(organization, Tracked(payload, PayloadAt(rows, k), user), now)])
  }

  // ---- Replacing a whole collection ----

  /** An item of a snapshot; entries that are no objects or have no text id are Unusable. */
  datatype Item = Unusable | Item(id: string, fields: map<string, Json>)

  /** Items by trimmed id, the last of each winning; blank ids are dropped. */
  function ById(items: seq<Item>): map<string, map<string, Json>> {
    if items == [] then map[]
    else
      var before, last := ById(items[..|items| - 1]), items[|items| - 1];
      if last.Unusable? || Strip(last.id) == "" then before
      else before[Strip(last.id) := last.fields["id" := Str(Strip(last.id))]]
  }

  /** The creator a stored document records, if any. */
  function CreatorOf(rows: Rows, k: Key): string {
    if k in rows && FieldOf(rows[k].payload, "createdByUserId").Str?
        then FieldOf(rows[k].payload, "createdByUserId").text else ""
  }

  function Restamped(fields: map<string, Json>, creator: string, user: Option<string>): Json {
    if user.Some? then
      var kept := if creator != "" then creator else user.value;
      Obj(fields["createdByUserId" := Str(kept)]["updatedByUserId" := Str(user.value)])
    else if creator != "" then Obj(fields["createdByUserId" := Str(creator)])
    else Obj(fields)
  }

  predicate OwnsAny(rows: Rows, c: Collection, organization: string) {
    exists k :: k in rows && k.collection == c && rows[k].organization == organization
  }

  predicate TakesForeign(rows: Rows, c: Collection, ids: set<string>, organization: string) {
    exists id :: id in ids && Key(c, id) in rows && rows[Key(c, id)].organization != organization
  }

  function Others(rows: Rows, c: Collection, organization: string): Rows {
    map k | k in rows && !(k.collection == c && rows[k].organization == organization) :: rows[k]
  }

  /** replaceCollectionArray: the organization's rows of the collection become exactly the snapshot. */
  function Replace(rows: Rows, c: Collection, items: seq<Item>, organization: string, user: Option<string>,
      now: int): Result<Rows, Error>
    requires c.Array?
  {
    var byId := ById(items);
    if byId == map[] && c.financial && OwnsAny(rows, c, organization) then Err(WouldEmpty)
    else if TakesForeign(rows, c, byId.Keys, organization) then Err(OwnedElsewhere)
    else Ok(Others(rows, c, organization) + Created(rows, c, byId, organization, user, now))
  }

  function Created(rows: Rows, c: Collection, byId: map<string, map<string, Json>>, organization: string,
      user: Option<string>, now: int): Rows {
    map id | id in byId :: Key(c, id) := Row(organization,
        Restamped(byId[id], OwnCreator(rows, Key(c, id), organization), user), now)
  }

  function OwnCreator(rows: Rows, k: Key, organization: string): string {
    if Owns(rows, k, organization) then CreatorOf(rows, k) else ""
  }

  // ---- The imperative form ----

  class AppJsonStore {
    var rows: Rows

    constructor (initial: Rows)
      ensures rows == initial
    {
      rows := initial;
    }

    method UpsertItem(c: Collection, id: string, payload: Json, organization: string, user: Option<string>, now: int)
        returns (error: Option<Error>)
      modifies this
      ensures var r := Upsert(old(rows), c, id, payload, organization, user, now);
              if r.Ok? then error == None && rows == r.value else error == Some(r.error) && rows == old(rows)
    {
      var k := if c.Singleton? && id == SINGLETON_ID then Key(c, StorageId(organization)) else Key(c, id);
      var existing := if k in rows then Some(rows[k]) else None;
      if existing.Some? && existing.value.organization != organization {
        return Some(OwnedElsewhere);
      }
      if c.Singleton? && id == SINGLETON_ID && existing.None? {
        var legacy := Key(c, SINGLETON_ID);
        if legacy in rows && rows[legacy].organization == organization {
          rows := rows - {legacy};
        }
      }
      var fields := Fields(payload);
      if user.Some? {
        if existing.None? {
          fields := fields["createdByUserId" := Str(user.value)];
        } else {
          var creator := FieldOf(existing.value.payload, "createdByUserId");
          if Truthy(creator) { fields := fields["createdByUserId" := creator]; }
        }
        fields := fields["updatedByUserId" := Str(user.value)];
      }
      rows := rows[k := Row(organization, Obj(fields), now)];
      return None;
    }

    method ReplaceArray(c: Collection, items: seq<Item>, organization: string, user: Option<string>, now: int)
        returns (error: Option<Error>)
      requires c.Array?
      modifies this
      ensures var r := Replace(old(rows), c, items, organization, user, now);
              if r.Ok? then error == None && rows == r.value else error == Some(r.error) && rows == old(rows)
    {
      hide Restamped, CreatorOf, ById;
      var byId := Index(items);
      if byId == map[] && c.financial && OwnsAny(rows, c, organization) { return Some(WouldEmpty); }
      if TakesForeign(rows, c, byId.Keys, organization) { return Some(OwnedElsewhere); }
      var created := NewRows(rows, c, byId, organization, user, now);
      rows := Others(rows, c, organization);
      rows := rows + created;
      return None;
    }
  }

  /** The rows a snapshot creates, each with the creator its predecessor recorded. */
  method NewRows(before: Rows, c: Collection, byId: map<string, map<string, Json>>, organization: string,
      user: Option<string>, now: int)
    returns (created: Rows)
    ensures created == Created(before, c, byId, organization, user, now)
  {
    hide Restamped, CreatorOf;
    created := map[];
    var left := byId.Keys;
    while left != {}
      invariant left <= byId.Keys
      invariant forall k :: k in created <==> k.collection == c && k.id in byId && k.id !in left
      invariant forall k :: k in created ==>
        created[k] == Row(organization, Restamped(byId[k.id], OwnCreator(before, k, organization), user), now)
      decreases left
    {
      var id :| id in left;
      var k := Key(c, id);
      var creator := if k in before && before[k].organization == organization then CreatorOf(before, k) else "";
      created := created[k := Row(organization, Restamped(byId[id], creator, user), now)];
      left := left - {id};
    }
    ghost var all := Created(before, c, byId, organization, user, now);
    assert forall k :: k in all <==> k.collection == c && k.id in byId by {
      forall k: Key | k.collection == c && k.id in byId ensures k in all { assert k == Key(c, k.id); }
    }
  }

  /** The loop that fills the map of items by id. */
  method Index(items: seq<Item>) returns (byId: map<string, map<string, Json>>)
    ensures byId == ById(items)
  {
    byId := map[];
    var i := 0;
    while i < |items|
      invariant 0 <= i <= |items|
      invariant byId == ById(items[..i])
    {
      assert items[..i + 1][..i] == items[..i];
      if items[i].Item? {
        var id := Strip(items[i].id);
        if id != "" { byId := byId[id := items[i].fields["id" := Str(id)]]; }
      }
      i := i + 1;
    }
    assert items[..i] == items;
  }

  // ---- Refinement of a plain map ----

  /** Scoped rows belong to the organization they are named for. */
  ghost predicate WellScoped(rows: Rows) {
    forall c: Collection, organization: string :: Key(c, StorageId(organization)) in rows && c.Singleton? ==>
      rows[Key(c, StorageId(organization))].organization == organization
  }

  /** No organization holds both a legacy and a scoped row of one collection. */
  ghost predicate NoDouble(rows: Rows) {
    forall c: Collection, organization: string :: c.Singleton? && Owns(rows, Key(c, SINGLETON_ID), organization) ==>
      Key(c, StorageId(organization)) !in rows
  }

  /** One document per collection and organization. */
  type Documents = map<(Collection, string), Json>

  ghost predicate Refines(rows: Rows, docs: Documents) {
    forall c: Collection, organization: string :: c.Singleton? ==>
      Get(rows, c, SINGLETON_ID, organization) ==
      if (c, organization) in docs then Some(docs[(c, organization)]) else None
  }

  /**
   * A singleton write succeeds and acts as an update of the plain map: it changes the writer's
   * document and no other organization's or collection's, and keeps rows well scoped and single.
   */
  lemma UpsertRefines(rows: Rows, docs: Documents, c: Collection, payload: Json, organization: string,
      user: Option<string>, now: int)
    requires c.Singleton? && WellScoped(rows) && Refines(rows, docs)
    ensures var r := Upsert(rows, c, SINGLETON_ID, payload, organization, user, now);
            && r.Ok? && WellScoped(r.value)
            && Refines(r.value, docs[(c, organization) := Tracked(payload,
                 PayloadAt(rows, Key(c, StorageId(organization))), user)])
            && (NoDouble(rows) ==> NoDouble(r.value))
  {
    hide Tracked;
    var k := Key(c, StorageId(organization));
    var r := Upsert(rows, c, SINGLETON_ID, payload, organization, user, now);
    var written := Tracked(payload, PayloadAt(rows, k), user);
    var docs' := docs[(c, organization) := written];
    forall d: Collection, o: string | d.Singleton?
      ensures Get(r.value, d, SINGLETON_ID, o) == if (d, o) in docs' then Some(docs'[(d, o)]) else None
      ensures Key(d, StorageId(o)) in r.value ==> r.value[Key(d, StorageId(o))].organization == o
      ensures NoDouble(rows) && Owns(r.value, Key(d, SINGLETON_ID), o) ==> Key(d, StorageId(o)) !in r.value
    {
      StorageIdInjective(o, organization);
      assert Get(rows, d, SINGLETON_ID, o) == if (d, o) in docs then Some(docs[(d, o)]) else None;
    }
  }

  /** Listing a singleton gives the document a get gives, or nothing. */
  lemma ListAgreesWithGet(rows: Rows, c: Collection, organization: string)
    requires c.Singleton? && WellScoped(rows)
    ensures var doc := Get(rows, c, SINGLETON_ID, organization);
            ListSingleton(rows, c, organization) == if doc.Some? then [doc.value] else []
  {
    StorageIdInjective(organization, organization);
  }

  /** Without scoping they differ exactly when a foreign row sits under the scoped id, over an own legacy row. */
  lemma ListAgreesWithGetIff(rows: Rows, c: Collection, organization: string)
    requires c.Singleton?
    ensures var scoped, legacy := Key(c, StorageId(organization)), Key(c, SINGLETON_ID);
            var doc := Get(rows, c, SINGLETON_ID, organization);
            ListSingleton(rows, c, organization) == (if doc.Some? then [doc.value] else [])
            <==> !(Owns(rows, legacy, organization) && scoped in rows && rows[scoped].organization != organization
                   && rows[scoped].payload != rows[legacy].payload)
  {
    StorageIdInjective(organization, organization);
    var scoped, legacy := Key(c, StorageId(organization)), Key(c, SINGLETON_ID);
    if Owns(rows, legacy, organization) && scoped in rows && rows[scoped].organization != organization {
      assert ListSingleton(rows, c, organization)[0] == rows[scoped].payload;
      assert [rows[legacy].payload][0] == rows[legacy].payload;
    }
  }

  datatype Write = Write(collection: Collection, payload: Json, organization: string, user: Option<string>, now: int)

  function ApplyWrites(rows: Rows, ws: seq<Write>): Rows
    decreases |ws|
  {
    if ws == [] then rows
    else
      var r := Upsert(rows, ws[0].collection, SINGLETON_ID, ws[0].payload, ws[0].organization, ws[0].user, ws[0].now);
      ApplyWrites(if r.Ok? then r.value else rows, ws[1..])
  }

  /**
   * After any run of singleton writes an organization sees its own last write, tracked against the
   * document it replaced, or what it saw at the start.
   */
  lemma {:induction false} LastWriteWins(rows: Rows, ws: seq<Write>, c: Collection, organization: string)
    requires c.Singleton? && WellScoped(rows)
    requires forall i :: 0 <= i < |ws| ==> ws[i].collection.Singleton?
    ensures WellScoped(ApplyWrites(rows, ws))
    ensures NoDouble(rows) ==> NoDouble(ApplyWrites(rows, ws))
    ensures var last, k := LastWrite(ws, c, organization), Key(c, StorageId(organization));
            Get(ApplyWrites(rows, ws), c, SINGLETON_ID, organization) ==
            if last == |ws| then Get(rows, c, SINGLETON_ID, organization)
            else Some(Tracked(ws[last].payload, PayloadAt(ApplyWrites(rows, ws[..last]), k), ws[last].user))
    decreases |ws|
  {
    hide Tracked, WellScoped, NoDouble, PayloadAt;
    if ws != [] {
      var w := ws[0];
      OneWrite(rows, w, c, organization);
      var r := Upsert(rows, w.collection, SINGLETON_ID, w.payload, w.organization, w.user, w.now);
      LastWriteWins(r.value, ws[1..], c, organization);
      var last := LastWrite(ws, c, organization);
      if 0 < last < |ws| { assert ws[..last][1..] == ws[1..][..last - 1]; }
    }
  }

  /** The place of an organization's last write to a collection; the number of writes if there is none. */
  function LastWrite(ws: seq<Write>, c: Collection, organization: string): (last: nat)
    ensures last <= |ws|
    ensures last < |ws| ==> ws[last].collection == c && ws[last].organization == organization
    ensures forall i :: last < i < |ws| || 0 <= i < |ws| == last ==>
        ws[i].collection != c || ws[i].organization != organization
    decreases |ws|
  {
    if ws == [] then 0
    else
      var later := LastWrite(ws[1..], c, organization);
      assert forall i :: 1 <= i < |ws| ==> ws[i] == ws[1..][i - 1];
      if later < |ws| - 1 then later + 1
      else if ws[0].collection == c && ws[0].organization == organization then 0
      else |ws|
  }

  predicate IsTracking(key: string) {
    key == "createdByUserId" || key == "updatedByUserId"
  }

  /** Beside the two tracking fields a stored document has the payload's fields and no other. */
  lemma TrackedIsPayload(payload: Json, existing: Option<Json>, user: Option<string>, key: string)
    requires !IsTracking(key)
    ensures Tracked(payload, existing, user).Obj?
    ensures key in Tracked(payload, existing, user).fields <==> key in Fields(payload)
    ensures key in Fields(payload) ==> Tracked(payload, existing, user).fields[key] == Fields(payload)[key]
  {}

  /** One write, seen from any collection and organization. */
  lemma OneWrite(rows: Rows, w: Write, c: Collection, organization: string)
    requires c.Singleton? && w.collection.Singleton? && WellScoped(rows)
    ensures var r := Upsert(rows, w.collection, SINGLETON_ID, w.payload, w.organization, w.user, w.now);
            && r.Ok? && WellScoped(r.value) && (NoDouble(rows) ==> NoDouble(r.value))
            && Get(r.value, c, SINGLETON_ID, organization) ==
               if w.collection == c && w.organization == organization
               then Some(Tracked(w.payload, PayloadAt(rows, Key(c, StorageId(organization))), w.user))
               else Get(rows, c, SINGLETON_ID, organization)
  {
    hide Tracked;
    var k := Key(w.collection, StorageId(w.organization));
    var r := Upsert(rows, w.collection, SINGLETON_ID, w.payload, w.organization, w.user, w.now);
    forall d: Collection, o: string | d.Singleton?
      ensures Get(r.value, d, SINGLETON_ID, o) ==
              if (d, o) == (w.collection, w.organization) then Some(r.value[k].payload)
              else Get(rows, d, SINGLETON_ID, o)
      ensures Key(d, StorageId(o)) in r.value ==> r.value[Key(d, StorageId(o))].organization == o
      ensures NoDouble(rows) && Owns(r.value, Key(d, SINGLETON_ID), o) ==> Key(d, StorageId(o)) !in r.value
    {
      StorageIdInjective(o, w.organization);
    }
  }

  /** A write with a known user notes it as the last writer and, on a document not there yet, as its creator. */
  lemma WriterIsNoted(payload: Json, existing: Option<Json>, user: string)
    ensures FieldOf(Tracked(payload, existing, Some(user)), "updatedByUserId") == Str(user)
    ensures existing == None ==> FieldOf(Tracked(payload, existing, Some(user)), "createdByUserId") == Str(user)
  {}

  /** So along every run of such writes listing gives what getting gives. */
  lemma ListAgreesAfterWrites(rows: Rows, ws: seq<Write>, c: Collection, organization: string)
    requires c.Singleton? && WellScoped(rows)
    requires forall i :: 0 <= i < |ws| ==> ws[i].collection.Singleton?
    ensures var end := ApplyWrites(rows, ws);
            var doc := Get(end, c, SINGLETON_ID, organization);
            ListSingleton(end, c, organization) == if doc.Some? then [doc.value] else []
  {
    hide WellScoped, NoDouble, Get, ListSingleton;
    LastWriteWins(rows, ws, c, organization);
    ListAgreesWithGet(ApplyWrites(rows, ws), c, organization);
  }

  /**
   * A service that wrote a singleton under another organization's storage id itself would part the two: with
   * a legacy document of b in place, a's write under b's scoped id is accepted, and b lists a's document.
   */
  lemma ForeignWriteParts()
    ensures var c, mine, theirs := Singleton("appSettings"), Obj(map["n" := Num(1)]), Obj(map["n" := Num(2)]);
            var rows := map[Key(c, SINGLETON_ID) := Row("b", mine, 0)];
            var r := Upsert(rows, c, StorageId("b"), theirs, "a", None, 1);
            && WellScoped(rows) && r.Ok? && !WellScoped(r.value)
            && Get(r.value, c, SINGLETON_ID, "b") == Some(mine) && ListSingleton(r.value, c, "b") == [theirs]
  {
    var c, mine, theirs := Singleton("appSettings"), Obj(map["n" := Num(1)]), Obj(map["n" := Num(2)]);
    var rows := map[Key(c, SINGLETON_ID) := Row("b", mine, 0)];
    var scoped := Key(c, StorageId("b"));
    StorageIdInjective("b", "b");
    forall o: string ensures StorageId(o) != SINGLETON_ID { StorageIdInjective(o, o); }
    var r := Upsert(rows, c, StorageId("b"), theirs, "a", None, 1);
    assert r == Ok(rows[scoped := Row("a", theirs, 1)]);
    var a, b := "a", "b";
    assert a[0] != b[0] && c.Singleton?;
    assert Key(c, StorageId(b)) in r.value && r.value[Key(c, StorageId(b))].organization == a;
    assert !WellScoped(r.value);
    assert Get(r.value, c, SINGLETON_ID, "b") == Some(mine);
    assert NewestOwn(r.value, c, "b") == Some(Key(c, SINGLETON_ID));
    assert ListSingleton(r.value, c, "b") == [theirs];
    assert WellScoped(rows);
  }

  /**
   * The recorded creator survives a write by a known user exactly when the document was already scoped or the
   * writer is the creator; a write without a user leaves the creator that its payload names.
   */
  lemma CreatorSurvivesIff(rows: Rows, c: Collection, payload: Json, organization: string, user: Option<string>,
      now: int, creator: string)
    requires c.Singleton? && WellScoped(rows) && creator != ""
    requires var doc := Get(rows, c, SINGLETON_ID, organization);
             doc.Some? && FieldOf(doc.value, "createdByUserId") == Str(creator)
    ensures var r := Upsert(rows, c, SINGLETON_ID, payload, organization, user, now);
            var end := Get(r.value, c, SINGLETON_ID, organization);
            && r.Ok? && end.Some?
            && (FieldOf(end.value, "createdByUserId") == Str(creator) <==>
                if user.Some? then Key(c, StorageId(organization)) in rows || user.value == creator
                else FieldOf(payload, "createdByUserId") == Str(creator))
  {
    StorageIdInjective(organization, organization);
  }

  /** The first scoped write of a legacy document created by u makes its writer v the creator. */
  lemma CreatorIsReplaced()
    ensures var c := Singleton("appSettings");
            var rows := map[Key(c, SINGLETON_ID) := Row("a", Obj(map["createdByUserId" := Str("u")]), 0)];
            var r := Upsert(rows, c, SINGLETON_ID, Obj(map[]), "a", Some("v"), 1);
            && WellScoped(rows) && r.Ok? && Get(r.value, c, SINGLETON_ID, "a").Some?
            && FieldOf(Get(r.value, c, SINGLETON_ID, "a").value, "createdByUserId") == Str("v")
  {
    forall o: string ensures StorageId(o) != SINGLETON_ID { StorageIdInjective(o, o); }
  }

  // ---- Snapshots ----

  predicate Usable(item: Item, id: string) {
    item.Item? && Strip(item.id) == id && id != ""
  }

  predicate LastUsable(items: seq<Item>, id: string, i: nat)
    requires i < |items|
  {
    Usable(items[i], id) && forall j :: i < j < |items| ==> !Usable(items[j], id)
  }

  /** The map of a snapshot holds, for each usable id, the fields of the last item with it. */
  lemma {:induction false} LastItemWins(items: seq<Item>, id: string)
    ensures id in ById(items) <==> exists i :: 0 <= i < |items| && Usable(items[i], id)
    ensures forall i :: 0 <= i < |items| && LastUsable(items, id, i) ==>
              ById(items)[id] == items[i].fields["id" := Str(id)]
  {
    if items != [] {
      var n := |items| - 1;
      LastItemWins(items[..n], id);
      assert forall i :: 0 <= i < n ==> items[..n][i] == items[i];
      if Usable(items[n], id) {
        assert id in ById(items);
      } else {
        assert id in ById(items) <==> id in ById(items[..n]);
        assert id in ById(items) ==> ById(items)[id] == ById(items[..n])[id];
      }
    }
  }

  /**
   * A replaced collection holds exactly the snapshot for its organization, every document keeping
   * its recorded creator, and every row of another organization or collection as it was.
   */
  lemma ReplaceIsExact(rows: Rows, c: Collection, items: seq<Item>, organization: string, user: Option<string>,
      now: int, k: Key)
    requires c.Array? && Replace(rows, c, items, organization, user, now).Ok?
    ensures var r := Replace(rows, c, items, organization, user, now).value;
            var byId := ById(items);
            if k.collection == c && k.id in byId then
              && Owns(r, k, organization)
              && (forall key :: key in byId[k.id] && key != "createdByUserId" && key != "updatedByUserId" ==>
                    FieldOf(r[k].payload, key) == byId[k.id][key])
              && (Owns(rows, k, organization) && CreatorOf(rows, k) != "" ==> CreatorOf(r, k) == CreatorOf(rows, k))
            else
              && (k in r <==> k in rows && !(k.collection == c && rows[k].organization == organization))
              && (k in r ==> r[k] == rows[k])
  {
    hide ById;
    var byId := ById(items);
    var created := Created(rows, c, byId, organization, user, now);
    assert k in created <==> k.collection == c && k.id in byId;
    assert k.collection == c && k.id in byId ==> Key(c, k.id) == k;
  }

  // ---- Refusals, and other organizations ----

  predicate HasUsable(items: seq<Item>) {
    exists i :: 0 <= i < |items| && items[i].Item? && Strip(items[i].id) != ""
  }

  lemma NothingUsableIff(items: seq<Item>)
    ensures ById(items) == map[] <==> !HasUsable(items)
  {
    hide ById, Strip;
    if ById(items) != map[] {
      var id :| id in ById(items);
      LastItemWins(items, id);
    }
    if i :| 0 <= i < |items| && items[i].Item? && Strip(items[i].id) != "" {
      LastItemWins(items, Strip(items[i].id));
      assert Usable(items[i], Strip(items[i].id));
    }
  }

  /** Some usable item has the id of a row that another organization holds. */
  predicate ClaimsForeign(rows: Rows, c: Collection, items: seq<Item>, organization: string) {
    exists i :: 0 <= i < |items| && items[i].Item? && Strip(items[i].id) != ""
      && Key(c, Strip(items[i].id)) in rows && rows[Key(c, Strip(items[i].id))].organization != organization
  }

  lemma ClaimsForeignIff(rows: Rows, c: Collection, items: seq<Item>, organization: string)
    ensures TakesForeign(rows, c, ById(items).Keys, organization) <==> ClaimsForeign(rows, c, items, organization)
  {
    hide ById, Strip;
    if id :| id in ById(items).Keys && Key(c, id) in rows && rows[Key(c, id)].organization != organization {
      LastItemWins(items, id);
    }
    if i :| 0 <= i < |items| && items[i].Item? && Strip(items[i].id) != ""
            && Key(c, Strip(items[i].id)) in rows && rows[Key(c, Strip(items[i].id))].organization != organization {
      LastItemWins(items, Strip(items[i].id));
      assert Usable(items[i], Strip(items[i].id));
    }
  }

  /**
   * A snapshot is refused exactly when it would empty a financial collection that holds something, or when it
   * claims an id that another organization holds.
   */
  lemma ReplaceRefusedIff(
    rows: Rows, c: Collection, items: seq<Item>, organization: string, user: Option<string>, now: int)
    requires c.Array?
    ensures Replace(rows, c, items, organization, user, now).Err? <==>
            || (c.financial && !HasUsable(items)
                && exists k <- rows :: k.collection == c && rows[k].organization == organization)
            || ClaimsForeign(rows, c, items, organization)
  {
    hide ById, HasUsable, ClaimsForeign, TakesForeign;
    NothingUsableIff(items);
    ClaimsForeignIff(rows, c, items, organization);
  }

  /** No write of an organization, snapshot or single, singleton or not, changes a row of another. */
  lemma OthersRowsStay(
    rows: Rows, c: Collection, id: string, payload: Json, items: seq<Item>, organization: string, user: Option<string>,
    now: int, k: Key)
    requires k in rows && rows[k].organization != organization
    ensures var r := Upsert(rows, c, id, payload, organization, user, now);
            r.Ok? ==> k in r.value && r.value[k] == rows[k]
    ensures c.Array? ==>
              var r := Replace(rows, c, items, organization, user, now);
              r.Ok? ==> k in r.value && r.value[k] == rows[k]
  {
    hide Tracked, ById;
    if c.Array? && Replace(rows, c, items, organization, user, now).Ok? {
      ReplaceIsExact(rows, c, items, organization, user, now, k);
    }
  }

  /** A document of a collection is written unless another organization holds its id; then it is what a get gives. */
  lemma ArrayWriteIsRead(
    rows: Rows, c: Collection, id: string, payload: Json, organization: string, user: Option<string>, now: int)
    requires c.Array?
    ensures var r, k := Upsert(rows, c, id, payload, organization, user, now), Key(c, id);
            && (r.Err? <==> k in rows && rows[k].organization != organization)
            && (r.Ok? ==>
                  && Get(r.value, c, id, organization) == Some(Tracked(payload, PayloadAt(rows, k), user))
                  && r.value.Keys == rows.Keys + {k} && forall j <- rows :: j != k ==> r.value[j] == rows[j])
  {
    hide Tracked;
  }

  /** A snapshot notes its writer on every document, and as creator where none was recorded. */
  lemma SnapshotNotesWriter(
    rows: Rows, c: Collection, items: seq<Item>, organization: string, user: string, now: int, id: string)
    requires c.Array? && Replace(rows, c, items, organization, Some(user), now).Ok? && id in ById(items)
    ensures var r, k := Replace(rows, c, items, organization, Some(user), now).value, Key(c, id);
            && k in r && FieldOf(r[k].payload, "updatedByUserId") == Str(user)
            && (!Owns(rows, k, organization) || CreatorOf(rows, k) == "" ==>
                  FieldOf(r[k].payload, "createdByUserId") == Str(user))
  {
    hide ById, TakesForeign, OwnsAny;
  }
}
