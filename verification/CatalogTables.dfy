/**
 What the tables of the catalogue hold after a build (scripts/util/build_location_catalog.py:483-796,
 1688-1716): a row for every entity, name, identifier, geometry and area that some call gave, and
 no other row.

 The rows are described by what was given, without the functions that insert them.
 */
module CatalogTables {
  import opened Wrappers
  import opened Shoelace
  import opened Centroid
  import opened Catalog
  import CatalogLoader
  import Wkb

  // ---------------------------------------------------------------- what a call leaves alone

  lemma {:induction false} NamesKeepRest(texts: Texts, s: Store, entity: nat, names: seq<NameIn>)
    ensures var s1 := AddNames(texts, s, entity, names).store;
            s1 == s.(names := s1.names, fts := s1.fts, trigram := s1.trigram)
    decreases |names|
  {
    if names != [] {
      NamesKeepRest(texts, s, entity, names[..|names| - 1]);
      hide AnyConflict;
    }
  }

  lemma GeometryRowKeepsRest(s: Store, row: GeometryRow)
    ensures var s1 := AddGeometryRow(s, row); s1 == s.(geometries := s1.geometries, rtree := s1.rtree)
  {
    hide RepeatsGeometry;
  }

  lemma CentroidKeepsRest(texts: Texts, s: Store, w: Where, g: Geometry)
    ensures var s1 := AddCentroid(texts, s, w, g).0; s1 == s.(geometries := s1.geometries, rtree := s1.rtree)
  {
    hide AddGeometryRow, Encode, GeometryCentroid;
    if GeometryCentroid(g).Ok? && Encode(texts, PointGeometry(GeometryCentroid(g).value)).Some? {
      var p := GeometryCentroid(g).value;
      GeometryRowKeepsRest(s, Row(w, "point", Encode(texts, PointGeometry(p)).value, PointBox(p)));
    }
  }

  lemma AreaKeepsRest(s: Store, row: AreaRow)
    ensures var s1 := AddArea(s, row); s1 == s.(areas := s1.areas, areaRtree := s1.areaRtree)
  {
    hide RepeatsArea;
  }

  lemma GeometryKeepsRest(texts: Texts, s: Store, w: Where, given: Geometry)
    ensures var s1 := AddGeometry(texts, s, w, given).0;
            s1 == s.(geometries := s1.geometries, rtree := s1.rtree, areas := s1.areas, areaRtree := s1.areaRtree)
  {
    hide AddGeometryRow, AddArea, AddCentroid, Encode, BoundingBox, Sanitize;
    var g := Sanitize(given);
    if BoundingBox(g).Ok? && Encode(texts, g).Some? {
      var blob, box := Encode(texts, g).value, BoundingBox(g).value;
      GeometryRowKeepsRest(s, Row(w, Kind(g), blob, box));
      AreaKeepsRest(s, AreaOf(w, Kind(g), blob, box));
      CentroidKeepsRest(texts, AddArea(s, AreaOf(w, Kind(g), blob, box)), w, g);
    }
  }

  /** The stages of a record: its entity, identifiers and names; its geometry may fail after them. */
  lemma AddEntityIs(texts: Texts, s: Store, r: Record)
    ensures var id := IdOf(texts, r);
            var s1, s2 := WithEntity(texts, s, r), AddEntity(texts, s, r).0;
            var entity := EntityOf(s1, id);
            var named := AddNames(texts, s1.(identifiers := AddIdentifiers(texts, s.identifiers, entity, r.identifiers)),
                                  entity, r.names).store;
            && s2.split == s.split && s2.entities == s1.entities && s2.names == named.names
            && s2.identifiers == AddIdentifiers(texts, s.identifiers, entity, r.identifiers)
            && named.geometries == s.geometries && named.areas == s.areas && named.split == s.split
            && (r.geometry.None? ==> s2.geometries == s.geometries && s2.areas == s.areas)
            && (r.geometry.Some? ==>
                  var s3 := AddGeometry(texts, named, Where(entity, id, r.source, r.validFrom, r.validTo), r.geometry.value).0;
                  s2.geometries == s3.geometries && s2.areas == s3.areas)
  {
    hide AddNames, AddIdentifiers, AddGeometry, Upsert, FindEntity;
    var id := IdOf(texts, r);
    var s1 := WithEntity(texts, s, r);
    var entity := EntityOf(s1, id);
    var s2 := s1.(identifiers := AddIdentifiers(texts, s1.identifiers, entity, r.identifiers));
    NamesKeepRest(texts, s2, entity, r.names);
    if r.geometry.Some? {
      GeometryKeepsRest(texts, AddNames(texts, s2, entity, r.names).store,
                        Where(entity, id, r.source, r.validFrom, r.validTo), r.geometry.value);
    }
  }

  /** Every other call leaves entities, identifiers, names and areas as they are. */
  lemma OthersKeepRest(texts: Texts, s: Store, call: Call)
    requires !call.CallEntity?
    ensures var s1 := Apply(texts, s, call);
            && s1.split == s.split && s1.entities == s.entities && s1.identifiers == s.identifiers
            && s1.names == s.names && s1.areas == s.areas
            && (!call.CallDeployment? ==> s1.geometries == s.geometries)
  {
    hide Encode, BoundingBox;
  }

  // ---------------------------------------------------------------- entities

  /** The records of an entity, in the order in which they were given. */
  function RecordsOf(texts: Texts, calls: seq<Call>, id: string): seq<Record>
    decreases |calls|
  {
    if calls == [] then []
    else
      var front, last := RecordsOf(texts, calls[..|calls| - 1], id), calls[|calls| - 1];
      if last.CallEntity? && texts.stableId(last.record.authority, last.record.kind, last.record.provider) == id
      then front + [last.record] else front
  }

  /** The first value that is given. */
  predicate IsFirst(v: Option<string>, given: seq<Option<string>>) {
    if v.None? then forall i | 0 <= i < |given| :: given[i].None?
    else exists i :: 0 <= i < |given| && given[i] == v && forall j | 0 <= j < i :: given[j].None?
  }

  predicate IsLast(v: Option<string>, given: seq<Option<string>>) {
    if v.None? then forall i | 0 <= i < |given| :: given[i].None?
    else exists i :: 0 <= i < |given| && given[i] == v && forall j | i < j < |given| :: given[j].None?
  }

  function Starts(rs: seq<Record>): seq<Option<string>> {
    seq(|rs|, i requires 0 <= i < |rs| => rs[i].validFrom)
  }

  function Ends(rs: seq<Record>): seq<Option<string>> {
    seq(|rs|, i requires 0 <= i < |rs| => rs[i].validTo)
  }

  predicate IsBest(quality: real, rs: seq<Record>) {
    && (exists i :: 0 <= i < |rs| && rs[i].quality == quality)
    && (forall i | 0 <= i < |rs| :: rs[i].quality <= quality)
  }

  /** Active if any record is, and else what the last one says. */
  predicate IsLifecycle(lifecycle: string, rs: seq<Record>)
    requires rs != []
  {
    if exists i :: 0 <= i < |rs| && rs[i].lifecycle == "active" then lifecycle == "active"
    else lifecycle == rs[|rs| - 1].lifecycle
  }

  /** An entity sums up its records: the best quality, active if any is, valid from the first start
      that is given to the last end that is given. */
  predicate SumsUp(e: Entity, rs: seq<Record>) {
    && rs != [] && IsBest(e.quality, rs) && IsLifecycle(e.lifecycle, rs)
    && IsFirst(e.validFrom, Starts(rs)) && IsLast(e.validTo, Ends(rs))
  }

  lemma OneRecord(e: Entity, r: Record)
    requires e.quality == r.quality && e.lifecycle == r.lifecycle && e.validFrom == r.validFrom && e.validTo == r.validTo
    ensures SumsUp(e, [r])
  {
    assert Starts([r])[0] == r.validFrom && Ends([r])[0] == r.validTo;
    assert [r][0].quality == e.quality;
  }

  lemma FirstGrows(v: Option<string>, given: seq<Option<string>>, more: Option<string>)
    requires IsFirst(v, given)
    ensures IsFirst(if v.Some? then v else more, given + [more])
  {
    var all := given + [more];
    assert all[|given|] == more;
    if v.Some? {
      var i :| 0 <= i < |given| && given[i] == v && forall j | 0 <= j < i :: given[j].None?;
      assert all[i] == v;
    }
  }

  lemma LastGrows(v: Option<string>, given: seq<Option<string>>, more: Option<string>)
    requires IsLast(v, given)
    ensures IsLast(if more.Some? then more else v, given + [more])
  {
    var all := given + [more];
    assert all[|given|] == more;
    if v.Some? {
      var i :| 0 <= i < |given| && given[i] == v && forall j | i < j < |given| :: given[j].None?;
      assert all[i] == v;
    }
  }

  lemma LifecycleGrows(lifecycle: string, rs: seq<Record>, r: Record)
    requires rs != [] && IsLifecycle(lifecycle, rs)
    ensures IsLifecycle(if lifecycle == "active" || r.lifecycle == "active" then "active" else r.lifecycle, rs + [r])
  {
    var all := rs + [r];
    assert all[|rs|] == r;
    if i :| 0 <= i < |rs| && rs[i].lifecycle == "active" {
      assert all[i].lifecycle == "active";
    }
  }

  lemma BestGrows(quality: real, rs: seq<Record>, r: Record)
    requires IsBest(quality, rs)
    ensures IsBest(if quality < r.quality then r.quality else quality, rs + [r])
  {
    var all := rs + [r];
    assert all[|rs|] == r;
    var i :| 0 <= i < |rs| && rs[i].quality == quality;
    assert all[i].quality == quality;
  }

  lemma MergedSumsUp(known: Entity, rs: seq<Record>, e: Entity, r: Record)
    requires SumsUp(known, rs)
    requires e.quality == r.quality && e.lifecycle == r.lifecycle && e.validFrom == r.validFrom && e.validTo == r.validTo
    ensures SumsUp(MergeEntity(known, e), rs + [r])
  {
    hide IsFirst, IsLast, IsLifecycle, IsBest;
    BestGrows(known.quality, rs, r);
    LifecycleGrows(known.lifecycle, rs, r);
    FirstGrows(known.validFrom, Starts(rs), r.validFrom);
    LastGrows(known.validTo, Ends(rs), r.validTo);
    assert Starts(rs + [r]) == Starts(rs) + [r.validFrom];
    assert Ends(rs + [r]) == Ends(rs) + [r.validTo];
  }

  /** The entity of an id, if there is one, sums up its records. */
  predicate EntityIs(texts: Texts, s: Store, calls: seq<Call>, id: string) {
    var rs := RecordsOf(texts, calls, id);
    && (rs == [] ==> forall i | 0 <= i < |s.entities| :: s.entities[i].id != id)
    && (rs != [] ==> exists i :: 0 <= i < |s.entities| && s.entities[i].id == id && SumsUp(s.entities[i], rs))
  }

  lemma UpsertIs(entities: seq<Entity>, e: Entity, i: nat)
    requires forall a, b | 0 <= a < b < |entities| :: entities[a].id != entities[b].id
    requires i < |entities|
    ensures i < |Upsert(entities, e)|
    ensures Upsert(entities, e)[i] == if entities[i].id == e.id then MergeEntity(entities[i], e) else entities[i]
  {
    hide MergeEntity;
  }

  lemma UpsertNew(entities: seq<Entity>, e: Entity)
    requires forall a | 0 <= a < |entities| :: entities[a].id != e.id
    ensures Upsert(entities, e) == entities + [e]
  {
  }

  lemma UpsertOther(entities: seq<Entity>, e: Entity, i: nat)
    requires i < |Upsert(entities, e)|
    ensures Upsert(entities, e)[i].id == e.id || (i < |entities| && Upsert(entities, e)[i] == entities[i])
  {
  }

  lemma EntityStep(texts: Texts, s: Store, calls: seq<Call>, r: Record, id: string)
    requires EntityIs(texts, s, calls, id) && DistinctEntities(s)
    ensures EntityIs(texts, WithEntity(texts, s, r), calls + [CallEntity(r)], id)
  {
    var e := Entity(IdOf(texts, r), r.quality, r.lifecycle, r.validFrom, r.validTo);
    var all := calls + [CallEntity(r)];
    assert all[..|calls|] == calls;
    var rs := RecordsOf(texts, calls, id);
    var entities := Upsert(s.entities, e);
    hide Upsert, MergeEntity, SumsUp, FindEntity;
    if rs == [] {
      if e.id == id {
        UpsertNew(s.entities, e);
        OneRecord(e, r);
        assert [] + [r] == [r];
        assert entities[|s.entities|] == e;
      } else {
        forall i | 0 <= i < |entities|
          ensures entities[i].id != id
        {
          UpsertOther(s.entities, e, i);
        }
      }
    } else {
      var i :| 0 <= i < |s.entities| && s.entities[i].id == id && SumsUp(s.entities[i], rs);
      UpsertIs(s.entities, e, i);
      MergedSumsUp(s.entities[i], rs, e, r);
      MergeKeepsId(s.entities[i], e);
    }
  }

  lemma MergeKeepsId(known: Entity, e: Entity)
    ensures MergeEntity(known, e).id == known.id
  {
  }

  lemma GoodIsDistinct(texts: Texts, split: bool, calls: seq<Call>)
    ensures DistinctEntities(Build(texts, split, calls))
  {
    IndexesAgree(texts, split, calls);
    hide Build, NamesIndexed, GeometriesIndexed, AreasIndexed, DistinctNames, NamesOwned;
  }

  /** After every sequence of calls, also when calls fail: there is an entity for exactly the ids that
      records were given for, and it sums up all of them. */
  lemma {:induction false} EntitiesSumUpRecords(texts: Texts, split: bool, calls: seq<Call>, id: string)
    ensures EntityIs(texts, Build(texts, split, calls), calls, id)
    decreases |calls|
  {
    if calls != [] {
      var n := |calls| - 1;
      var s, call := Build(texts, split, calls[..n]), calls[n];
      EntitiesSumUpRecords(texts, split, calls[..n], id);
      GoodIsDistinct(texts, split, calls[..n]);
      assert calls == calls[..n] + [call];
      hide WithEntity, AddEntity, SumsUp, DistinctEntities;
      match call {
        case CallEntity(r) =>
          EntityStep(texts, s, calls[..n], r, id);
          RecordEntities(texts, s, r, calls, id);
          hide Apply, EntityIs;
        case _ =>
          OthersKeepRest(texts, s, call);
          hide Apply;
      }
    }
  }

  lemma RecordEntities(texts: Texts, s: Store, r: Record, calls: seq<Call>, id: string)
    requires EntityIs(texts, WithEntity(texts, s, r), calls, id)
    ensures EntityIs(texts, Apply(texts, s, CallEntity(r)), calls, id)
  {
    AddEntityIs(texts, s, r);
    hide WithEntity, AddEntity, AddNames, AddGeometry, AddIdentifiers, EntityIs;
    SameEntities(texts, WithEntity(texts, s, r), AddEntity(texts, s, r).0, calls, id);
  }

  lemma SameEntities(texts: Texts, s: Store, t: Store, calls: seq<Call>, id: string)
    requires EntityIs(texts, s, calls, id) && t.entities == s.entities
    ensures EntityIs(texts, t, calls, id)
  {
    hide RecordsOf, SumsUp;
  }

  // ---------------------------------------------------------------- names and identifiers

  /** The rows of an entity belong to the id it has. */
  function IdAt(s: Store, entity: nat): Option<string> {
    if entity < |s.entities| then Some(s.entities[entity].id) else None
  }

  predicate IsOf(texts: Texts, call: Call, id: Option<string>) {
    call.CallEntity? && id == Some(texts.stableId(call.record.authority, call.record.kind, call.record.provider))
  }

  /** A record of this id gives the name, which is not blank when normalized. */
  predicate GivesName(texts: Texts, call: Call, id: Option<string>, n: Name) {
    && IsOf(texts, call, id)
    && n.normalized == texts.normalName(n.name) != ""
    && exists k :: 0 <= k < |call.record.names| && call.record.names[k] == NameIn(n.locale, n.name, n.kind)
  }

  predicate GivesIdentifier(texts: Texts, call: Call, id: Option<string>, row: Identifier) {
    && IsOf(texts, call, id) && row.normalized != ""
    && exists k :: 0 <= k < |call.record.identifiers|
                   && call.record.identifiers[k].authority == row.authority
                   && call.record.identifiers[k].scheme == row.scheme
                   && row.normalized == texts.normalIdentifier(row.scheme, call.record.identifiers[k].value)
  }

  predicate NameIsGiven(texts: Texts, s: Store, calls: seq<Call>, n: Name) {
    exists c :: 0 <= c < |calls| && GivesName(texts, calls[c], IdAt(s, n.entity), n)
  }

  predicate IdentifierIsGiven(texts: Texts, s: Store, calls: seq<Call>, row: Identifier) {
    exists c :: 0 <= c < |calls| && GivesIdentifier(texts, calls[c], IdAt(s, row.entity), row)
  }

  predicate HasName(s: Store, id: Option<string>, x: NameIn) {
    exists i :: 0 <= i < |s.names| && IdAt(s, s.names[i].entity) == id
                && NameIn(s.names[i].locale, s.names[i].name, s.names[i].kind) == x
  }

  predicate HasIdentifier(texts: Texts, s: Store, id: Option<string>, x: IdentifierIn) {
    exists i :: 0 <= i < |s.identifiers| && IdAt(s, s.identifiers[i].entity) == id
                && s.identifiers[i].authority == x.authority && s.identifiers[i].scheme == x.scheme
                && s.identifiers[i].normalized == texts.normalIdentifier(x.scheme, x.value)
  }

  predicate StoresNames(texts: Texts, s: Store, call: Call)
    requires call.CallEntity?
  {
    forall k | 0 <= k < |call.record.names| && texts.normalName(call.record.names[k].name) != "" ::
      HasName(s, Some(texts.stableId(call.record.authority, call.record.kind, call.record.provider)), call.record.names[k])
  }

  predicate StoresIdentifiers(texts: Texts, s: Store, call: Call)
    requires call.CallEntity?
  {
    forall k | 0 <= k < |call.record.identifiers|
               && texts.normalIdentifier(call.record.identifiers[k].scheme, call.record.identifiers[k].value) != "" ::
      HasIdentifier(texts, s, Some(texts.stableId(call.record.authority, call.record.kind, call.record.provider)),
                    call.record.identifiers[k])
  }

  predicate AreDistinct(rows: seq<Identifier>) {
    forall i, j | 0 <= i < j < |rows| :: rows[i] != rows[j]
  }

  /** The two tables hold what was given, and nothing else. */
  predicate TextsAre(texts: Texts, s: Store, calls: seq<Call>) {
    && AreDistinct(s.identifiers)
    && (forall i | 0 <= i < |s.names| :: NameIsGiven(texts, s, calls, s.names[i]))
    && (forall i | 0 <= i < |s.identifiers| :: IdentifierIsGiven(texts, s, calls, s.identifiers[i]))
    && (forall c | 0 <= c < |calls| && calls[c].CallEntity? ::
          StoresNames(texts, s, calls[c]) && StoresIdentifiers(texts, s, calls[c]))
  }

  /** Rows stay where they are, under entities that keep their ids. */
  predicate Extends(s: Store, t: Store) {
    && Grown(s.entities, t.entities)
    && |s.names| <= |t.names| && t.names[..|s.names|] == s.names
    && |s.identifiers| <= |t.identifiers| && t.identifiers[..|s.identifiers|] == s.identifiers
  }

  lemma IdStays(s: Store, t: Store, entity: nat)
    requires Extends(s, t) && entity < |s.entities|
    ensures IdAt(t, entity) == IdAt(s, entity)
  {
  }

  lemma GivenStays(texts: Texts, s: Store, t: Store, calls: seq<Call>, call: Call)
    requires Extends(s, t)
    ensures forall n | NameIsGiven(texts, s, calls, n) :: NameIsGiven(texts, t, calls + [call], n)
    ensures forall row | IdentifierIsGiven(texts, s, calls, row) :: IdentifierIsGiven(texts, t, calls + [call], row)
  {
    var all := calls + [call];
    forall n | NameIsGiven(texts, s, calls, n)
      ensures NameIsGiven(texts, t, all, n)
    {
      var c :| 0 <= c < |calls| && GivesName(texts, calls[c], IdAt(s, n.entity), n);
      IdStays(s, t, n.entity);
      assert all[c] == calls[c];
    }
    forall row | IdentifierIsGiven(texts, s, calls, row)
      ensures IdentifierIsGiven(texts, t, all, row)
    {
      var c :| 0 <= c < |calls| && GivesIdentifier(texts, calls[c], IdAt(s, row.entity), row);
      IdStays(s, t, row.entity);
      assert all[c] == calls[c];
    }
  }

  lemma HeldStays(texts: Texts, s: Store, t: Store, id: string)
    requires Extends(s, t)
    ensures forall x | HasName(s, Some(id), x) :: HasName(t, Some(id), x)
    ensures forall x | HasIdentifier(texts, s, Some(id), x) :: HasIdentifier(texts, t, Some(id), x)
  {
    forall x | HasName(s, Some(id), x)
      ensures HasName(t, Some(id), x)
    {
      var i :| 0 <= i < |s.names| && IdAt(s, s.names[i].entity) == Some(id)
               && NameIn(s.names[i].locale, s.names[i].name, s.names[i].kind) == x;
      assert t.names[i] == t.names[..|s.names|][i];
    }
    forall x | HasIdentifier(texts, s, Some(id), x)
      ensures HasIdentifier(texts, t, Some(id), x)
    {
      var i :| 0 <= i < |s.identifiers| && IdAt(s, s.identifiers[i].entity) == Some(id)
               && s.identifiers[i].authority == x.authority && s.identifiers[i].scheme == x.scheme
               && s.identifiers[i].normalized == texts.normalIdentifier(x.scheme, x.value);
      assert t.identifiers[i] == t.identifiers[..|s.identifiers|][i];
    }
  }

  /** What adding names to an entity does to their table. */
  predicate NamesAdded(texts: Texts, s: Store, t: Store, entity: nat, names: seq<NameIn>) {
    && |s.names| <= |t.names| && t.names[..|s.names|] == s.names
    && (forall i | |s.names| <= i < |t.names| :: IsNewName(texts, t.names[i], entity, names))
    && (forall k | 0 <= k < |names| && texts.normalName(names[k].name) != "" :: HasNameAt(t, entity, names[k]))
  }

  predicate IsNewName(texts: Texts, n: Name, entity: nat, names: seq<NameIn>) {
    && n.entity == entity && n.normalized == texts.normalName(n.name) != ""
    && exists k :: 0 <= k < |names| && names[k] == NameIn(n.locale, n.name, n.kind)
  }

  predicate HasNameAt(s: Store, entity: nat, x: NameIn) {
    exists i :: 0 <= i < |s.names| && s.names[i].entity == entity
                && NameIn(s.names[i].locale, s.names[i].name, s.names[i].kind) == x
  }

  lemma InsertNameIs(s: Store, row: Name)
    ensures var t := InsertName(s, row);
            && (t.names == s.names || t.names == s.names + [row])
            && HasNameAt(t, row.entity, NameIn(row.locale, row.name, row.kind))
  {
    var t := InsertName(s, row);
    if AnyConflict(s.names, row) {
      var i :| 0 <= i < |s.names| && NamesConflict(s.names[i], row);
      assert t.names[i] == s.names[i];
    } else {
      assert t.names[|s.names|] == row;
    }
  }

  lemma MoreNames(texts: Texts, n: Name, entity: nat, front: seq<NameIn>, last: NameIn)
    ensures IsNewName(texts, n, entity, front) ==> IsNewName(texts, n, entity, front + [last])
    ensures n.entity == entity && NameIn(n.locale, n.name, n.kind) == last && n.normalized == texts.normalName(n.name) != "" ==>
              IsNewName(texts, n, entity, front + [last])
  {
    var all := front + [last];
    assert all[|front|] == last;
    if k :| 0 <= k < |front| && front[k] == NameIn(n.locale, n.name, n.kind) {
      assert all[k] == front[k];
    }
  }

  lemma HeldAtStays(s: Store, t: Store, entity: nat, x: NameIn)
    requires HasNameAt(s, entity, x) && |s.names| <= |t.names| && t.names[..|s.names|] == s.names
    ensures HasNameAt(t, entity, x)
  {
    var i :| 0 <= i < |s.names| && s.names[i].entity == entity
             && NameIn(s.names[i].locale, s.names[i].name, s.names[i].kind) == x;
    assert t.names[i] == t.names[..|s.names|][i];
  }

  lemma {:induction false} AddNamesIs(texts: Texts, s: Store, entity: nat, names: seq<NameIn>)
    ensures NamesAdded(texts, s, AddNames(texts, s, entity, names).store, entity, names)
    decreases |names|
  {
    if names != [] {
      var front, last := names[..|names| - 1], names[|names| - 1];
      AddNamesIs(texts, s, entity, front);
      var n := AddNames(texts, s, entity, front);
      var t := AddNames(texts, s, entity, names).store;
      var row := Name(entity, last.locale, last.name, texts.normalName(last.name), last.kind);
      assert front + [last] == names;
      hide AddNames, InsertName, HasNameAt, IsNewName;
      if row.normalized == "" {
        assert t == n.store by { OneMoreName(texts, s, entity, names); }
      } else if last in n.seen {
        assert t == n.store by { OneMoreName(texts, s, entity, names); }
        var k := SeenWasGiven(texts, s, entity, front, last);
      } else {
        assert t == InsertName(n.store, row) by { OneMoreName(texts, s, entity, names); }
        InsertNameIs(n.store, row);
        assert t.names[..|n.store.names|] == n.store.names;
      }
      assert t.names[..|s.names|] == t.names[..|n.store.names|][..|s.names|];
      forall i | |s.names| <= i < |t.names|
        ensures IsNewName(texts, t.names[i], entity, names)
      {
        MoreNames(texts, t.names[i], entity, front, last);
        if i < |n.store.names| {
          assert t.names[i] == t.names[..|n.store.names|][i];
        }
      }
      forall k | 0 <= k < |names| && texts.normalName(names[k].name) != ""
        ensures HasNameAt(t, entity, names[k])
      {
        if k < |front| {
          assert HasNameAt(n.store, entity, front[k]);
          HeldAtStays(n.store, t, entity, front[k]);
        } else if last in n.seen {
          var j := SeenWasGiven(texts, s, entity, front, last);
          assert HasNameAt(n.store, entity, front[j]);
          HeldAtStays(n.store, t, entity, front[j]);
        }
      }
    }
  }

  lemma OneMoreName(texts: Texts, s: Store, entity: nat, names: seq<NameIn>)
    requires names != []
    ensures var front, last := names[..|names| - 1], names[|names| - 1];
            var n := AddNames(texts, s, entity, front);
            var row := Name(entity, last.locale, last.name, texts.normalName(last.name), last.kind);
            AddNames(texts, s, entity, names).store
            == if row.normalized == "" || last in n.seen then n.store else InsertName(n.store, row)
  {
    hide InsertName;
  }

  /** What adding identifiers to an entity does to their table. */
  predicate IdentifiersAdded(texts: Texts, rows: seq<Identifier>, all: seq<Identifier>, entity: nat, ids: seq<IdentifierIn>) {
    && |rows| <= |all| && all[..|rows|] == rows && (AreDistinct(rows) ==> AreDistinct(all))
    && (forall i | |rows| <= i < |all| :: IsNewIdentifier(texts, all[i], entity, ids))
    && (forall k | 0 <= k < |ids| && texts.normalIdentifier(ids[k].scheme, ids[k].value) != "" ::
          Identifier(entity, ids[k].authority, ids[k].scheme, texts.normalIdentifier(ids[k].scheme, ids[k].value)) in all)
  }

  predicate IsNewIdentifier(texts: Texts, row: Identifier, entity: nat, ids: seq<IdentifierIn>) {
    && row.entity == entity && row.normalized != ""
    && exists k :: 0 <= k < |ids| && ids[k].authority == row.authority && ids[k].scheme == row.scheme
                   && row.normalized == texts.normalIdentifier(row.scheme, ids[k].value)
  }

  lemma MoreIdentifiers(texts: Texts, row: Identifier, entity: nat, front: seq<IdentifierIn>, last: IdentifierIn)
    ensures IsNewIdentifier(texts, row, entity, front) ==> IsNewIdentifier(texts, row, entity, front + [last])
    ensures row.normalized != ""
            && row == Identifier(entity, last.authority, last.scheme, texts.normalIdentifier(last.scheme, last.value)) ==>
              IsNewIdentifier(texts, row, entity, front + [last])
  {
    var all := front + [last];
    assert all[|front|] == last;
    if k :| 0 <= k < |front| && front[k].authority == row.authority && front[k].scheme == row.scheme
            && row.normalized == texts.normalIdentifier(row.scheme, front[k].value) {
      assert all[k] == front[k];
    }
  }

  lemma {:induction false} AddIdentifiersIs(texts: Texts, rows: seq<Identifier>, entity: nat, ids: seq<IdentifierIn>)
    ensures IdentifiersAdded(texts, rows, AddIdentifiers(texts, rows, entity, ids), entity, ids)
    decreases |ids|
  {
    if ids != [] {
      var front, last := ids[..|ids| - 1], ids[|ids| - 1];
      AddIdentifiersIs(texts, rows, entity, front);
      var before, after := AddIdentifiers(texts, rows, entity, front), AddIdentifiers(texts, rows, entity, ids);
      assert front + [last] == ids;
      assert after == AddIdentifier(texts, before, entity, last);
      hide AddIdentifiers, IsNewIdentifier;
      assert after[..|before|] == before;
      assert after[..|rows|] == after[..|before|][..|rows|];
      forall i | |rows| <= i < |after|
        ensures IsNewIdentifier(texts, after[i], entity, ids)
      {
        MoreIdentifiers(texts, after[i], entity, front, last);
        if i < |before| {
          assert after[i] == after[..|before|][i];
        }
      }
    }
  }

  lemma RecordEntityIs(texts: Texts, s: Store, r: Record)
    ensures var entity := EntityOf(WithEntity(texts, s, r), IdOf(texts, r));
            var t := AddEntity(texts, s, r).0;
            && Grown(s.entities, t.entities) && IdAt(t, entity) == Some(IdOf(texts, r))
            && t.identifiers == AddIdentifiers(texts, s.identifiers, entity, r.identifiers)
            && t.names == AddNames(texts, Ready(texts, s, r), entity, r.names).store.names
            && Ready(texts, s, r).names == s.names
  {
    AddEntityIs(texts, s, r);
    hide AddEntity, AddNames, AddIdentifiers, AddGeometry;
    UpsertGrows(s.entities, Entity(IdOf(texts, r), r.quality, r.lifecycle, r.validFrom, r.validTo));
    hide Upsert, FindEntity, Grown;
  }

  /** The store when the names of a record are added. */
  function Ready(texts: Texts, s: Store, r: Record): Store {
    var s1 := WithEntity(texts, s, r);
    s1.(identifiers := AddIdentifiers(texts, s.identifiers, EntityOf(s1, IdOf(texts, r)), r.identifiers))
  }

  /** What a record does to the names. */
  lemma RecordNames(texts: Texts, s: Store, r: Record)
    ensures var t := AddEntity(texts, s, r).0;
            && |s.names| <= |t.names| && t.names[..|s.names|] == s.names
            && StoresNames(texts, t, CallEntity(r))
            && forall i | |s.names| <= i < |t.names| :: GivesName(texts, CallEntity(r), IdAt(t, t.names[i].entity), t.names[i])
  {
    hide AddEntity, AddNames, AddIdentifiers, AddGeometry, WithEntity, EntityOf, Ready, IdAt;
    var id, t := IdOf(texts, r), AddEntity(texts, s, r).0;
    var entity := EntityOf(WithEntity(texts, s, r), id);
    RecordEntityIs(texts, s, r);
    AddNamesIs(texts, Ready(texts, s, r), entity, r.names);
    var named := AddNames(texts, Ready(texts, s, r), entity, r.names).store;
    forall k | 0 <= k < |r.names| && texts.normalName(r.names[k].name) != ""
      ensures HasName(t, Some(id), r.names[k])
    {
      assert HasNameAt(named, entity, r.names[k]);
      var i :| 0 <= i < |named.names| && named.names[i].entity == entity
               && NameIn(named.names[i].locale, named.names[i].name, named.names[i].kind) == r.names[k];
      assert t.names[i] == named.names[i];
    }
    forall i | |s.names| <= i < |t.names|
      ensures GivesName(texts, CallEntity(r), IdAt(t, t.names[i].entity), t.names[i])
    {
      assert IsNewName(texts, named.names[i], entity, r.names);
    }
  }

  /** What a record does to the identifiers. */
  lemma RecordIdentifiers(texts: Texts, s: Store, r: Record)
    ensures var t := AddEntity(texts, s, r).0;
            && |s.identifiers| <= |t.identifiers| && t.identifiers[..|s.identifiers|] == s.identifiers
            && (AreDistinct(s.identifiers) ==> AreDistinct(t.identifiers))
            && StoresIdentifiers(texts, t, CallEntity(r))
            && forall i | |s.identifiers| <= i < |t.identifiers| ::
                 GivesIdentifier(texts, CallEntity(r), IdAt(t, t.identifiers[i].entity), t.identifiers[i])
  {
    hide AddEntity, AddNames, AddIdentifiers, AddGeometry, WithEntity, EntityOf, Ready, IdAt;
    var id, t := IdOf(texts, r), AddEntity(texts, s, r).0;
    var entity := EntityOf(WithEntity(texts, s, r), id);
    RecordEntityIs(texts, s, r);
    AddIdentifiersIs(texts, s.identifiers, entity, r.identifiers);
    forall k | 0 <= k < |r.identifiers| && texts.normalIdentifier(r.identifiers[k].scheme, r.identifiers[k].value) != ""
      ensures HasIdentifier(texts, t, Some(id), r.identifiers[k])
    {
      var x := r.identifiers[k];
      var row := Identifier(entity, x.authority, x.scheme, texts.normalIdentifier(x.scheme, x.value));
      assert row in t.identifiers;
      var i :| 0 <= i < |t.identifiers| && t.identifiers[i] == row;
    }
    forall i | |s.identifiers| <= i < |t.identifiers|
      ensures GivesIdentifier(texts, CallEntity(r), IdAt(t, t.identifiers[i].entity), t.identifiers[i])
    {
      assert IsNewIdentifier(texts, t.identifiers[i], entity, r.identifiers);
    }
  }

  /** What a record does to both tables. */
  lemma RecordExtends(texts: Texts, s: Store, r: Record)
    ensures Extends(s, AddEntity(texts, s, r).0)
    ensures AreDistinct(s.identifiers) ==> AreDistinct(AddEntity(texts, s, r).0.identifiers)
    ensures StoresNames(texts, AddEntity(texts, s, r).0, CallEntity(r))
    ensures StoresIdentifiers(texts, AddEntity(texts, s, r).0, CallEntity(r))
    ensures var t := AddEntity(texts, s, r).0;
            && (forall i | |s.names| <= i < |t.names| ::
                  GivesName(texts, CallEntity(r), IdAt(t, t.names[i].entity), t.names[i]))
            && (forall i | |s.identifiers| <= i < |t.identifiers| ::
                  GivesIdentifier(texts, CallEntity(r), IdAt(t, t.identifiers[i].entity), t.identifiers[i]))
  {
    RecordNames(texts, s, r);
    RecordIdentifiers(texts, s, r);
    RecordEntityIs(texts, s, r);
    hide AddEntity, AddNames, AddIdentifiers, Grown, StoresNames, StoresIdentifiers, GivesName, GivesIdentifier, AreDistinct;
  }

  lemma TextsStep(texts: Texts, s: Store, t: Store, calls: seq<Call>, call: Call)
    requires TextsAre(texts, s, calls) && Extends(s, t) && (AreDistinct(s.identifiers) ==> AreDistinct(t.identifiers))
    requires call.CallEntity? ==> StoresNames(texts, t, call) && StoresIdentifiers(texts, t, call)
    requires forall i | |s.names| <= i < |t.names| :: GivesName(texts, call, IdAt(t, t.names[i].entity), t.names[i])
    requires forall i | |s.identifiers| <= i < |t.identifiers| ::
               GivesIdentifier(texts, call, IdAt(t, t.identifiers[i].entity), t.identifiers[i])
    ensures TextsAre(texts, t, calls + [call])
  {
    var all := calls + [call];
    assert all[|calls|] == call;
    GivenStays(texts, s, t, calls, call);
    forall i | 0 <= i < |t.names|
      ensures NameIsGiven(texts, t, all, t.names[i])
    {
      if i < |s.names| {
        assert t.names[i] == t.names[..|s.names|][i];
      }
    }
    forall i | 0 <= i < |t.identifiers|
      ensures IdentifierIsGiven(texts, t, all, t.identifiers[i])
    {
      if i < |s.identifiers| {
        assert t.identifiers[i] == t.identifiers[..|s.identifiers|][i];
      }
    }
    hide NameIsGiven, IdentifierIsGiven, HasName, HasIdentifier, Extends, GivesName, GivesIdentifier;
    forall c | 0 <= c < |all| && all[c].CallEntity?
      ensures StoresNames(texts, t, all[c]) && StoresIdentifiers(texts, t, all[c])
    {
      if c < |calls| {
        var r := calls[c].record;
        assert all[c] == calls[c];
        HeldStays(texts, s, t, texts.stableId(r.authority, r.kind, r.provider));
      }
    }
  }

  /** After every sequence of calls, also when calls fail: the names and identifiers in the tables are
      those that records gave and that are not blank, each under the entity of its record; identifiers
      are there once. */
  lemma {:induction false} TextsAreTheGivenOnes(texts: Texts, split: bool, calls: seq<Call>)
    ensures TextsAre(texts, Build(texts, split, calls), calls)
    decreases |calls|
  {
    if calls != [] {
      var n := |calls| - 1;
      var s, call := Build(texts, split, calls[..n]), calls[n];
      TextsAreTheGivenOnes(texts, split, calls[..n]);
      assert calls == calls[..n] + [call];
      var t := Apply(texts, s, call);
      if call.CallEntity? {
        RecordExtends(texts, s, call.record);
      } else {
        OthersKeepRest(texts, s, call);
      }
      hide Apply, AddEntity, TextsAre, GivesName, GivesIdentifier, StoresNames, StoresIdentifiers, Build;
      TextsStep(texts, s, t, calls[..n], call);
    }
  }

  // ---------------------------------------------------------------- geometries and areas

  function KindName(g: Geometry): string {
    if g.PointGeometry? then "point" else if g.Polygon? then "polygon" else "multipolygon"
  }

  /** The call asks for this row of the core: the geometry of a record as it was given or, in a split
      build, the representative point of an area; or the position of a deployment.  The key is the
      database's. */
  predicate AsksRow(texts: Texts, s: Store, call: Call, row: GeometryRow) {
    && row.entity < |s.entities|
    && match call
       case CallEntity(r) =>
         && s.entities[row.entity].id == texts.stableId(r.authority, r.kind, r.provider)
         && r.geometry.Some? && row.source == r.source && row.validFrom == r.validFrom && row.validTo == r.validTo
         && var g := Sanitize(r.geometry.value);
            && BoundingBox(g).Ok? && Encode(texts, g).Some?
            && if s.split && (g.Polygon? || g.MultiPolygon?) then
                 && GeometryCentroid(g).Ok?
                 && var p := GeometryCentroid(g).value;
                    row.kind == "point" && Encode(texts, PointGeometry(p)) == Some(row.blob)
                    && row.box == Box(p.lon, p.lon, p.lat, p.lat)
               else row.kind == KindName(g) && Encode(texts, g) == Some(row.blob) && BoundingBox(g) == Ok(row.box)
       case CallDeployment(entity, at, source, validFrom, validTo) =>
         && row.entity == entity && row.kind == "point"
         && row.source == source && row.validFrom == validFrom && row.validTo == validTo
         && Encode(texts, PointGeometry(at)) == Some(row.blob) && BoundingBox(PointGeometry(at)) == Ok(row.box)
       case _ => false
  }

  /** The call asks for this row of the geometry file: an area as it was given. */
  predicate AsksArea(texts: Texts, call: Call, a: AreaRow) {
    && call.CallEntity? && call.record.geometry.Some?
    && var (r, g) := (call.record, Sanitize(call.record.geometry.value));
       && (g.Polygon? || g.MultiPolygon?)
       && a.id == texts.stableId(r.authority, r.kind, r.provider) && a.kind == KindName(g)
       && a.source == r.source && a.validFrom == r.validFrom && a.validTo == r.validTo
       && Encode(texts, g) == Some(a.blob) && BoundingBox(g) == Ok(a.box)
  }

  function TextOf(o: Option<string>): string {
    match o case None => "" case Some(t) => t
  }

  /** A row stands for what is asked for, if an earlier one has the same entity, kind, bytes, source and
      times. */
  predicate StandsFor(a: GeometryRow, row: GeometryRow) {
    && a.entity == row.entity && a.kind == row.kind && a.blob == row.blob && a.source == row.source
    && TextOf(a.validFrom) == TextOf(row.validFrom) && TextOf(a.validTo) == TextOf(row.validTo)
  }

  predicate HasRow(s: Store, row: GeometryRow) {
    exists i :: 0 <= i < |s.geometries| && StandsFor(s.geometries[i], row)
  }

  predicate AreaStandsFor(a: AreaRow, row: AreaRow) {
    && a.id == row.id && a.kind == row.kind && a.blob == row.blob && a.source == row.source
    && TextOf(a.validFrom) == TextOf(row.validFrom) && TextOf(a.validTo) == TextOf(row.validTo)
  }

  predicate HasArea(s: Store, row: AreaRow) {
    exists i :: 0 <= i < |s.areas| && AreaStandsFor(s.areas[i], row)
  }

  /** The table of the core after a call: at most one row more, which the call asked for, and then what
      it asked for is there. */
  ghost predicate RowsAdded(texts: Texts, s: Store, t: Store, call: Call) {
    && (t.geometries == s.geometries
        || (|t.geometries| == |s.geometries| + 1 && t.geometries[..|s.geometries|] == s.geometries
            && AsksRow(texts, t, call, t.geometries[|s.geometries|])))
    && forall row | AsksRow(texts, t, call, row) :: HasRow(t, row)
  }

  lemma AddRowIs(s: Store, row: GeometryRow)
    ensures var t := AddGeometryRow(s, row);
            && (t.geometries == s.geometries || t.geometries == s.geometries + [row.(pk := |s.geometries| + 1)])
            && HasRow(t, row)
  {
    var t := AddGeometryRow(s, row);
    if i :| 0 <= i < |s.geometries| && RepeatsGeometry(s.geometries[i], row) {
      assert StandsFor(t.geometries[i], row);
    } else {
      assert StandsFor(t.geometries[|s.geometries|], row);
    }
  }

  /** What is asked of an entity's place, apart from the entity. */
  predicate AsksPlace(texts: Texts, split: bool, w: Where, g: Geometry, row: GeometryRow) {
    && row.entity == w.entity && row.source == w.source && row.validFrom == w.validFrom && row.validTo == w.validTo
    && BoundingBox(g).Ok? && Encode(texts, g).Some?
    && if split && (g.Polygon? || g.MultiPolygon?) then
         && GeometryCentroid(g).Ok?
         && var p := GeometryCentroid(g).value;
            row.kind == "point" && Encode(texts, PointGeometry(p)) == Some(row.blob) && row.box == Box(p.lon, p.lon, p.lat, p.lat)
       else row.kind == KindName(g) && Encode(texts, g) == Some(row.blob) && BoundingBox(g) == Ok(row.box)
  }

  lemma SamePlace(texts: Texts, split: bool, w: Where, g: Geometry, a: GeometryRow, b: GeometryRow)
    requires AsksPlace(texts, split, w, g, a) && AsksPlace(texts, split, w, g, b)
    ensures a == b.(pk := a.pk)
  {
    hide Encode, BoundingBox, GeometryCentroid;
  }

  lemma HasSame(s: Store, a: GeometryRow, b: GeometryRow)
    requires HasRow(s, a) && a == b.(pk := a.pk)
    ensures HasRow(s, b)
  {
    var i :| 0 <= i < |s.geometries| && StandsFor(s.geometries[i], a);
    assert StandsFor(s.geometries[i], b);
  }

  /** One row more at most, and whatever is asked of this place is there. */
  ghost predicate PlaceAdded(texts: Texts, s: Store, t: Store, split: bool, w: Where, g: Geometry) {
    && (t.geometries == s.geometries
        || (|t.geometries| == |s.geometries| + 1 && t.geometries[..|s.geometries|] == s.geometries
            && AsksPlace(texts, split, w, g, t.geometries[|s.geometries|])))
    && forall row | AsksPlace(texts, split, w, g, row) :: HasRow(t, row)
  }

  lemma KeyIsNotAsked(texts: Texts, split: bool, w: Where, g: Geometry, row: GeometryRow, pk: nat)
    requires AsksPlace(texts, split, w, g, row)
    ensures AsksPlace(texts, split, w, g, row.(pk := pk))
  {
    hide Encode, BoundingBox, GeometryCentroid;
  }

  lemma RowIsAdded(texts: Texts, s: Store, split: bool, w: Where, g: Geometry, row: GeometryRow)
    requires AsksPlace(texts, split, w, g, row)
    ensures PlaceAdded(texts, s, AddGeometryRow(s, row), split, w, g)
  {
    hide AsksPlace, AddGeometryRow, HasRow;
    var t := AddGeometryRow(s, row);
    AddRowIs(s, row);
    KeyIsNotAsked(texts, split, w, g, row, |s.geometries| + 1);
    forall other | AsksPlace(texts, split, w, g, other)
      ensures HasRow(t, other)
    {
      SamePlace(texts, split, w, g, row, other);
      HasSame(t, row, other);
    }
  }

  lemma NothingAsked(texts: Texts, s: Store, split: bool, w: Where, g: Geometry)
    requires forall row :: !AsksPlace(texts, split, w, g, row)
    ensures PlaceAdded(texts, s, s, split, w, g)
  {
  }

  lemma AddGeometryIs(texts: Texts, s: Store, w: Where, given: Geometry)
    ensures PlaceAdded(texts, s, AddGeometry(texts, s, w, given).0, s.split, w, Sanitize(given))
  {
    var g := Sanitize(given);
    hide Encode, BoundingBox, GeometryCentroid, Sanitize, AddGeometryRow, PlaceAdded, AddArea;
    if BoundingBox(g).Err? || Encode(texts, g).None? {
      NothingAsked(texts, s, s.split, w, g);
    } else if s.split && IsArea(g) {
      var s1 := AddArea(s, AreaOf(w, Kind(g), Encode(texts, g).value, BoundingBox(g).value));
      AreaKeepsRest(s, AreaOf(w, Kind(g), Encode(texts, g).value, BoundingBox(g).value));
      AddCentroidIs(texts, s1, w, g);
      OtherTable(texts, s, s1, AddCentroid(texts, s1, w, g).0, w, g);
    } else {
      EncodableIsKnown(texts, g);
      RowIsAdded(texts, s, s.split, w, g, Row(w, Kind(g), Encode(texts, g).value, BoundingBox(g).value));
    }
  }

  lemma OtherTable(texts: Texts, s: Store, s1: Store, t: Store, w: Where, g: Geometry)
    requires s1.geometries == s.geometries && s1.split == s.split && PlaceAdded(texts, s1, t, s1.split, w, g)
    ensures PlaceAdded(texts, s, t, s.split, w, g)
  {
    hide AsksPlace, HasRow;
  }

  lemma EncodableIsKnown(texts: Texts, g: Geometry)
    requires Encode(texts, g).Some?
    ensures Kind(g) == KindName(g)
  {
    if g.OtherGeometry? {
      OtherIsNotEncoded(texts);
    }
    hide Encode;
  }

  lemma OtherIsNotEncoded(texts: Texts)
    ensures Encode(texts, OtherGeometry) == None
  {
  }

  lemma AddCentroidIs(texts: Texts, s: Store, w: Where, g: Geometry)
    requires s.split && IsArea(g) && BoundingBox(g).Ok? && Encode(texts, g).Some?
    ensures PlaceAdded(texts, s, AddCentroid(texts, s, w, g).0, s.split, w, g)
  {
    hide Encode, BoundingBox, GeometryCentroid, AddGeometryRow, PlaceAdded;
    if GeometryCentroid(g).Ok? && Encode(texts, PointGeometry(GeometryCentroid(g).value)).Some? {
      var p := GeometryCentroid(g).value;
      RowIsAdded(texts, s, s.split, w, g, Row(w, "point", Encode(texts, PointGeometry(p)).value, PointBox(p)));
    } else {
      NothingAsked(texts, s, s.split, w, g);
    }
  }

  lemma AskedOfPlace(texts: Texts, t: Store, r: Record, w: Where, row: GeometryRow)
    requires DistinctEntities(t) && r.geometry.Some? && w.entity < |t.entities| && t.entities[w.entity].id == w.id
    requires w == Where(w.entity, texts.stableId(r.authority, r.kind, r.provider), r.source, r.validFrom, r.validTo)
    ensures AsksRow(texts, t, CallEntity(r), row) <==> AsksPlace(texts, t.split, w, Sanitize(r.geometry.value), row)
  {
    hide Encode, BoundingBox, GeometryCentroid, Sanitize;
  }

  lemma EntityRows(texts: Texts, s: Store, r: Record)
    requires DistinctEntities(AddEntity(texts, s, r).0)
    ensures RowsAdded(texts, s, AddEntity(texts, s, r).0, CallEntity(r))
  {
    AddEntityIs(texts, s, r);
    var id := IdOf(texts, r);
    var s1, t := WithEntity(texts, s, r), AddEntity(texts, s, r).0;
    UpsertGrows(s.entities, Entity(id, r.quality, r.lifecycle, r.validFrom, r.validTo));
    var entity := EntityOf(s1, id);
    assert entity < |t.entities| && t.entities[entity].id == id;
    hide AddEntity, AddNames, AddIdentifiers, Upsert, FindEntity, WithEntity, AddGeometry, DistinctEntities;
    if r.geometry.Some? {
      var w := Where(entity, id, r.source, r.validFrom, r.validTo);
      var named := AddNames(texts, s1.(identifiers := AddIdentifiers(texts, s.identifiers, entity, r.identifiers)),
                            entity, r.names).store;
      AddGeometryIs(texts, named, w, r.geometry.value);
      hide AsksPlace, AsksRow, HasRow, Sanitize;
      forall row
        ensures AsksRow(texts, t, CallEntity(r), row) <==> AsksPlace(texts, t.split, w, Sanitize(r.geometry.value), row)
      {
        AskedOfPlace(texts, t, r, w, row);
      }
      SameRows(AddGeometry(texts, named, w, r.geometry.value).0, t);
    } else {
      hide HasRow;
    }
  }

  lemma SameRows(s: Store, t: Store)
    requires t.geometries == s.geometries
    ensures forall row :: HasRow(t, row) <==> HasRow(s, row)
  {
  }

  lemma DeploymentRows(texts: Texts, s: Store, call: Call)
    requires call.CallDeployment?
    ensures RowsAdded(texts, s, Apply(texts, s, call), call)
  {
    hide Encode, BoundingBox;
    var t := Apply(texts, s, call);
    if t.geometries != s.geometries {
      var last := t.geometries[|s.geometries|];
      assert AsksRow(texts, t, call, last);
      forall row | AsksRow(texts, t, call, row)
        ensures HasRow(t, row)
      {
        assert StandsFor(last, row);
      }
    }
  }

  /** What the table of the core holds: rows that calls asked for, and a row for all they asked for. */
  ghost predicate RowsAre(texts: Texts, split: bool, s: Store, calls: seq<Call>) {
    && (forall i | 0 <= i < |s.geometries| :: RowIsAsked(texts, s, calls, s.geometries[i]))
    && (forall c | 0 <= c < |calls| :: AllHeld(texts, Build(texts, split, calls[..c + 1]), calls[c], s))
  }

  predicate RowIsAsked(texts: Texts, s: Store, calls: seq<Call>, row: GeometryRow) {
    exists c :: 0 <= c < |calls| && AsksRow(texts, s, calls[c], row)
  }

  ghost predicate AllHeld(texts: Texts, t: Store, call: Call, s: Store) {
    forall row | AsksRow(texts, t, call, row) :: HasRow(s, row)
  }

  lemma AskedStays(texts: Texts, s: Store, t: Store, calls: seq<Call>, call: Call, row: GeometryRow)
    requires RowIsAsked(texts, s, calls, row) && Grown(s.entities, t.entities) && t.split == s.split
    ensures RowIsAsked(texts, t, calls + [call], row)
  {
    hide Encode, BoundingBox, GeometryCentroid, Sanitize;
    var c :| 0 <= c < |calls| && AsksRow(texts, s, calls[c], row);
    assert (calls + [call])[c] == calls[c];
  }

  lemma RowsStay(s: Store, t: Store)
    requires |s.geometries| <= |t.geometries| && t.geometries[..|s.geometries|] == s.geometries
    ensures forall row | HasRow(s, row) :: HasRow(t, row)
  {
    forall row | HasRow(s, row)
      ensures HasRow(t, row)
    {
      var i :| 0 <= i < |s.geometries| && StandsFor(s.geometries[i], row);
      assert t.geometries[i] == t.geometries[..|s.geometries|][i];
    }
  }

  lemma RowsStep(texts: Texts, split: bool, s: Store, t: Store, calls: seq<Call>, call: Call)
    requires RowsAre(texts, split, s, calls) && RowsAdded(texts, s, t, call)
    requires Grown(s.entities, t.entities) && t.split == s.split
    requires t == Build(texts, split, calls + [call])
    ensures RowsAre(texts, split, t, calls + [call])
  {
    hide AsksRow, HasRow, Build;
    var all := calls + [call];
    assert all[|calls|] == call && all[..|calls| + 1] == all;
    assert t.geometries[..|s.geometries|] == s.geometries;
    RowsStay(s, t);
    forall i | 0 <= i < |t.geometries|
      ensures RowIsAsked(texts, t, all, t.geometries[i])
    {
      if i < |s.geometries| {
        assert t.geometries[i] == t.geometries[..|s.geometries|][i];
        assert RowIsAsked(texts, s, calls, s.geometries[i]);
        AskedStays(texts, s, t, calls, call, s.geometries[i]);
      }
    }
    forall c | 0 <= c < |all|
      ensures AllHeld(texts, Build(texts, split, all[..c + 1]), all[c], t)
    {
      if c < |calls| {
        assert all[..c + 1] == calls[..c + 1];
        assert AllHeld(texts, Build(texts, split, calls[..c + 1]), calls[c], s);
      }
    }
  }

  lemma EntitiesGrow(texts: Texts, s: Store, call: Call)
    ensures Grown(s.entities, Apply(texts, s, call).entities) && Apply(texts, s, call).split == s.split
  {
    if call.CallEntity? {
      var r := call.record;
      AddEntityIs(texts, s, r);
      UpsertGrows(s.entities, Entity(IdOf(texts, r), r.quality, r.lifecycle, r.validFrom, r.validTo));
    } else {
      OthersKeepRest(texts, s, call);
    }
    hide AddEntity, AddNames, AddIdentifiers, AddGeometry, Upsert, AddDeployment;
  }

  /** After every sequence of calls, also when calls fail: the geometries of the core are those that
      calls asked for, and each of these is there. */
  lemma {:induction false} GeometriesAreTheGivenOnes(texts: Texts, split: bool, calls: seq<Call>)
    ensures Build(texts, split, calls).split == split
    ensures RowsAre(texts, split, Build(texts, split, calls), calls)
    decreases |calls|
  {
    if calls != [] {
      var n := |calls| - 1;
      var s, call := Build(texts, split, calls[..n]), calls[n];
      GeometriesAreTheGivenOnes(texts, split, calls[..n]);
      assert calls == calls[..n] + [call];
      var t := Apply(texts, s, call);
      assert t == Build(texts, split, calls);
      EntitiesGrow(texts, s, call);
      GoodIsDistinct(texts, split, calls);
      match call {
        case CallEntity(r) => EntityRows(texts, s, r);
        case CallDeployment(_, _, _, _, _) => DeploymentRows(texts, s, call);
        case _ => OthersKeepRest(texts, s, call); NothingAdded(texts, s, t, call);
      }
      hide Apply, AddEntity, RowsAre, RowsAdded, Build, DistinctEntities;
      RowsStep(texts, split, s, t, calls[..n], call);
    }
  }

  lemma NothingAdded(texts: Texts, s: Store, t: Store, call: Call)
    requires t.geometries == s.geometries && (call.CallSource? || call.CallCount?)
    ensures RowsAdded(texts, s, t, call)
  {
  }

  /** No row more, or one that stands for the same as none before it. */
  ghost predicate NewOnly(s: Store, t: Store) {
    t.geometries == s.geometries
    || (|t.geometries| == |s.geometries| + 1 && t.geometries[..|s.geometries|] == s.geometries
        && forall i | 0 <= i < |s.geometries| :: !StandsFor(s.geometries[i], t.geometries[|s.geometries|]))
  }

  lemma AddRowIsNew(s: Store, row: GeometryRow)
    ensures NewOnly(s, AddGeometryRow(s, row))
  {
    forall i | 0 <= i < |s.geometries|
      ensures RepeatsGeometry(s.geometries[i], row) <==> StandsFor(s.geometries[i], row.(pk := |s.geometries| + 1))
    {
    }
    hide RepeatsGeometry, StandsFor;
  }

  lemma AddGeometryIsNew(texts: Texts, s: Store, w: Where, given: Geometry)
    ensures NewOnly(s, AddGeometry(texts, s, w, given).0)
  {
    hide Encode, BoundingBox, GeometryCentroid, Sanitize, AddGeometryRow, AddArea, StandsFor;
    var g := Sanitize(given);
    if BoundingBox(g).Ok? && Encode(texts, g).Some? {
      if s.split && IsArea(g) {
        AreaKeepsRest(s, AreaOf(w, Kind(g), Encode(texts, g).value, BoundingBox(g).value));
        var s1 := AddArea(s, AreaOf(w, Kind(g), Encode(texts, g).value, BoundingBox(g).value));
        if GeometryCentroid(g).Ok? && Encode(texts, PointGeometry(GeometryCentroid(g).value)).Some? {
          var p := GeometryCentroid(g).value;
          AddRowIsNew(s1, Row(w, "point", Encode(texts, PointGeometry(p)).value, PointBox(p)));
        }
      } else {
        AddRowIsNew(s, Row(w, Kind(g), Encode(texts, g).value, BoundingBox(g).value));
      }
    }
  }

  lemma EntityIsNew(texts: Texts, s: Store, r: Record)
    ensures NewOnly(s, AddEntity(texts, s, r).0)
  {
    AddEntityIs(texts, s, r);
    hide AddEntity, AddNames, AddIdentifiers, WithEntity, AddGeometry, StandsFor;
    if r.geometry.Some? {
      var id := IdOf(texts, r);
      var entity := EntityOf(WithEntity(texts, s, r), id);
      AddGeometryIsNew(texts, AddNames(texts, Ready(texts, s, r), entity, r.names).store,
                       Where(entity, id, r.source, r.validFrom, r.validTo), r.geometry.value);
    }
  }

  predicate DeploymentAsks(texts: Texts, s: Store, calls: seq<Call>, row: GeometryRow) {
    exists c :: 0 <= c < |calls| && calls[c].CallDeployment? && AsksRow(texts, s, calls[c], row)
  }

  lemma DeploymentStays(texts: Texts, s: Store, t: Store, calls: seq<Call>, call: Call, row: GeometryRow)
    requires DeploymentAsks(texts, s, calls, row) && Grown(s.entities, t.entities)
    ensures DeploymentAsks(texts, t, calls + [call], row)
  {
    hide Encode, BoundingBox, GeometryCentroid, Sanitize;
    var c :| 0 <= c < |calls| && calls[c].CallDeployment? && AsksRow(texts, s, calls[c], row);
    assert (calls + [call])[c] == calls[c];
  }

  ghost predicate RepeatStep(texts: Texts, s: Store, t: Store, call: Call) {
    NewOnly(s, t)
    || (|t.geometries| == |s.geometries| + 1 && t.geometries[..|s.geometries|] == s.geometries
        && call.CallDeployment? && AsksRow(texts, t, call, t.geometries[|s.geometries|]))
  }

  lemma CallRepeats(texts: Texts, s: Store, call: Call)
    ensures RepeatStep(texts, s, Apply(texts, s, call), call)
  {
    hide StandsFor, AsksRow, AddEntity, AddDeployment;
    match call
    case CallEntity(r) => EntityIsNew(texts, s, r);
    case CallDeployment(_, _, _, _, _) => DeploymentRows(texts, s, call);
    case _ => OthersKeepRest(texts, s, call);
  }

  lemma LaterRow(texts: Texts, s: Store, t: Store, call: Call, i: nat, j: nat)
    requires RepeatStep(texts, s, t, call) && i < j < |t.geometries| && StandsFor(t.geometries[i], t.geometries[j])
    ensures if j < |s.geometries| then t.geometries[i] == s.geometries[i] && t.geometries[j] == s.geometries[j]
            else call.CallDeployment? && AsksRow(texts, t, call, t.geometries[j])
  {
    hide StandsFor, AsksRow;
    if t.geometries != s.geometries {
      assert forall k | 0 <= k < |s.geometries| :: t.geometries[k] == t.geometries[..|s.geometries|][k];
    }
  }

  /** After every sequence of calls, also when calls fail: a row of the core that repeats an earlier one
      is one that a deployment asked for. */
  lemma {:induction false} OnlyDeploymentsRepeat(texts: Texts, split: bool, calls: seq<Call>, i: nat, j: nat)
    requires i < j < |Build(texts, split, calls).geometries|
    requires StandsFor(Build(texts, split, calls).geometries[i], Build(texts, split, calls).geometries[j])
    ensures DeploymentAsks(texts, Build(texts, split, calls), calls, Build(texts, split, calls).geometries[j])
    decreases |calls|
  {
    hide Apply, StandsFor, AsksRow, RepeatStep;
    var n := |calls| - 1;
    var s, call := Build(texts, split, calls[..n]), calls[n];
    var t := Build(texts, split, calls);
    assert calls == calls[..n] + [call];
    EntitiesGrow(texts, s, call);
    CallRepeats(texts, s, call);
    LaterRow(texts, s, t, call, i, j);
    if j < |s.geometries| {
      OnlyDeploymentsRepeat(texts, split, calls[..n], i, j);
      DeploymentStays(texts, s, t, calls[..n], call, s.geometries[j]);
    }
  }

  /** Every deployment of an entity that is there has its row, whether or not it repeats one, if its
      position is inside WGS84. */
  lemma DeploymentHasItsRow(texts: Texts, s: Store, entity: nat, at: Point, source: string,
                            validFrom: Option<string>, validTo: Option<string>)
    requires entity < |s.entities|
    ensures var t := Apply(texts, s, CallDeployment(entity, at, source, validFrom, validTo));
            if -180.0 <= at.lon <= 180.0 && -90.0 <= at.lat <= 90.0 then
              exists blob :: Encode(texts, PointGeometry(at)) == Some(blob)
                && t.geometries == s.geometries + [GeometryRow(|s.geometries| + 1, entity, "point", blob,
                                                               Box(at.lon, at.lon, at.lat, at.lat), validFrom, validTo, source)]
            else t == s
  {
    BoxIsExact(PointGeometry(at));
    PointEncodes(texts, at);
    hide Encode;
  }

  lemma PointEncodes(texts: Texts, at: Point)
    ensures Encode(texts, PointGeometry(at)).Some?
  {
  }

  /** What the geometry file holds: rows that calls asked for, and a row for all they asked for. */
  ghost predicate AreasAreAsked(texts: Texts, s: Store, calls: seq<Call>) {
    && (forall i | 0 <= i < |s.areas| :: AreaIsAsked(texts, calls, s.areas[i]))
    && (forall c, row | 0 <= c < |calls| && AsksArea(texts, calls[c], row) :: HasArea(s, row))
  }

  predicate AreaIsAsked(texts: Texts, calls: seq<Call>, a: AreaRow) {
    exists c :: 0 <= c < |calls| && AsksArea(texts, calls[c], a)
  }

  lemma RowOfIsAsked(texts: Texts, call: Call, pk: nat)
    requires CatalogLoader.GivesArea(texts, call)
    ensures AsksArea(texts, call, CatalogLoader.RowOf(texts, call).(pk := pk))
  {
    hide Encode, BoundingBox, Sanitize;
  }

  lemma AskedIsRowOf(texts: Texts, call: Call, row: AreaRow)
    requires AsksArea(texts, call, row)
    ensures CatalogLoader.GivesArea(texts, call) && CatalogLoader.RowOf(texts, call) == row.(pk := 0)
  {
    hide Encode, BoundingBox, Sanitize;
  }

  lemma {:induction false} EveryAreaIsAsked(texts: Texts, calls: seq<Call>)
    ensures var s := Build(texts, true, calls);
            s.split && forall i | 0 <= i < |s.areas| :: AreaIsAsked(texts, calls, s.areas[i])
    decreases |calls|
  {
    hide Encode, BoundingBox, Sanitize, Points, AsksArea, CatalogLoader.RowOf, CatalogLoader.GivesArea, RepeatsArea;
    if calls != [] {
      var n := |calls| - 1;
      var s, call := Build(texts, true, calls[..n]), calls[n];
      EveryAreaIsAsked(texts, calls[..n]);
      CatalogLoader.ApplyAreas(texts, s, call);
      var t := Apply(texts, s, call);
      assert t == Build(texts, true, calls);
      hide Build, Apply;
      forall i | 0 <= i < |t.areas|
        ensures AreaIsAsked(texts, calls, t.areas[i])
      {
        if i < |s.areas| {
          assert t.areas[i] == s.areas[i];
          var c :| 0 <= c < n && AsksArea(texts, calls[..n][c], s.areas[i]);
          assert calls[..n][c] == calls[c];
        } else {
          RowOfIsAsked(texts, call, |s.areas| + 1);
        }
      }
    }
  }

  /** After every sequence of calls of a split build, also when calls fail: the areas of the geometry
      file are those that calls asked for, boxes included, and each of these is there. */
  lemma AreasAreTheAskedOnes(texts: Texts, calls: seq<Call>)
    ensures AreasAreAsked(texts, Build(texts, true, calls), calls)
  {
    EveryAreaIsAsked(texts, calls);
    CatalogLoader.AreasAreTheGivenOnes(texts, true, calls);
    var s := Build(texts, true, calls);
    hide Build, AsksArea, CatalogLoader.RowOf, CatalogLoader.GivesArea, AreaIsAsked, CatalogLoader.IsGiven;
    forall c, row | 0 <= c < |calls| && AsksArea(texts, calls[c], row)
      ensures HasArea(s, row)
    {
      AskedIsRowOf(texts, calls[c], row);
      assert CatalogLoader.IsStored(s.areas, CatalogLoader.RowOf(texts, calls[c]));
      var i :| 0 <= i < |s.areas| && RepeatsArea(s.areas[i], CatalogLoader.RowOf(texts, calls[c]));
      assert AreaStandsFor(s.areas[i], row);
    }
  }

  // ---------------------------------------------------------------- coordinates on their way into a row

  /** A coordinate stays, unless it is a millionth of a degree outside its range, or less: then it is
      moved to the edge of it. */
  predicate IsSnapped(x: real, edge: real, y: real) {
    if -edge <= x <= edge || x < -edge - 0.000001 || x > edge + 0.000001 then y == x
    else y == if x > 0.0 then edge else -edge
  }

  predicate PointIsSnapped(p: Point, q: Point) {
    IsSnapped(p.lon, 180.0, q.lon) && IsSnapped(p.lat, 90.0, q.lat)
  }

  predicate RingIsSnapped(a: Ring, b: Ring) {
    |a| == |b| && forall i | 0 <= i < |a| :: PointIsSnapped(a[i], b[i])
  }

  predicate RingsAreSnapped(a: seq<Ring>, b: seq<Ring>) {
    |a| == |b| && forall i | 0 <= i < |a| :: RingIsSnapped(a[i], b[i])
  }

  /** Every coordinate of a geometry is snapped, and nothing else changes. */
  lemma GeometryIsSnapped(g: Geometry)
    ensures match (g, Sanitize(g))
            case (PointGeometry(p), PointGeometry(q)) => PointIsSnapped(p, q)
            case (Polygon(a), Polygon(b)) => RingsAreSnapped(a, b)
            case (MultiPolygon(a), MultiPolygon(b)) =>
              |a| == |b| && forall i | 0 <= i < |a| :: RingsAreSnapped(a[i], b[i])
            case (OtherGeometry, OtherGeometry) => true
            case _ => false
  {
    forall p
      ensures PointIsSnapped(p, SnapPoint(p))
    {
    }
    hide SnapPoint, PointIsSnapped;
    forall a
      ensures RingsAreSnapped(a, SnapRings(a))
    {
    }
    hide RingsAreSnapped, SnapRings;
  }

  predicate RingHas(ring: Ring, p: Point) {
    exists i :: 0 <= i < |ring| && ring[i] == p
  }

  predicate RingsHave(rings: seq<Ring>, p: Point) {
    exists i :: 0 <= i < |rings| && RingHas(rings[i], p)
  }

  lemma {:induction false} RingsPointsAre(rings: seq<Ring>, p: Point)
    ensures p in RingsPoints(rings) <==> RingsHave(rings, p)
    decreases |rings|
  {
    if rings != [] {
      var n := |rings| - 1;
      RingsPointsAre(rings[..n], p);
      hide RingHas;
      assert p in rings[n] <==> RingHas(rings[n], p) by { RingHasIs(rings[n], p); }
      if i :| 0 <= i < |rings| && RingHas(rings[i], p) {
        assert i < n ==> rings[..n][i] == rings[i];
      }
      if j :| 0 <= j < n && RingHas(rings[..n][j], p) {
        assert rings[j] == rings[..n][j];
      }
    }
  }

  lemma RingHasIs(ring: Ring, p: Point)
    ensures p in ring <==> RingHas(ring, p)
  {
  }

  lemma {:induction false} PolygonsPointsAre(polygons: seq<seq<Ring>>, p: Point)
    ensures p in PolygonsPoints(polygons) <==> exists i :: 0 <= i < |polygons| && RingsHave(polygons[i], p)
    decreases |polygons|
  {
    if polygons != [] {
      var n := |polygons| - 1;
      PolygonsPointsAre(polygons[..n], p);
      RingsPointsAre(polygons[n], p);
      hide RingsHave, RingsPoints;
      if i :| 0 <= i < |polygons| && RingsHave(polygons[i], p) {
        assert i < n ==> polygons[..n][i] == polygons[i];
      }
      if j :| 0 <= j < n && RingsHave(polygons[..n][j], p) {
        assert polygons[j] == polygons[..n][j];
      }
    }
  }

  /** The points a box is drawn around are all vertices of the geometry. */
  lemma PointsAreVertices(g: Geometry, p: Point)
    ensures p in Points(g) <==>
            match g
            case PointGeometry(at) => p == at
            case Polygon(rings) => RingsHave(rings, p)
            case MultiPolygon(polygons) => exists i :: 0 <= i < |polygons| && RingsHave(polygons[i], p)
            case OtherGeometry => false
  {
    hide RingsHave, RingsPoints, PolygonsPoints;
    match g {
      case Polygon(rings) => RingsPointsAre(rings, p);
      case MultiPolygon(polygons) => PolygonsPointsAre(polygons, p);
      case _ =>
    }
  }

  predicate IsDouble(texts: Texts, p: Point, q: Wkb.Position) {
    q == Wkb.Position(texts.double(p.lon), texts.double(p.lat), [])
  }

  predicate AreDoubles(texts: Texts, a: seq<Ring>, b: seq<Wkb.Ring>) {
    |a| == |b| && forall i | 0 <= i < |a| :: |a[i]| == |b[i]| && forall j | 0 <= j < |a[i]| :: IsDouble(texts, a[i][j], b[i][j])
  }

  lemma RingsAreDoubles(texts: Texts, a: seq<Ring>)
    ensures AreDoubles(texts, a, DoubleRings(texts, a))
  {
  }

  /** What a row stores can be read back as its geometry: every vertex, longitude first, rounded to
      doubles, with rings closed. */
  lemma BlobHoldsGeometry(texts: Texts, g: Geometry) returns (d: Wkb.Geometry)
    requires Encode(texts, g).Some?
    ensures Wkb.Decode(Encode(texts, g).value) == Wkb.Parsed(Wkb.Canonical(d), [])
    ensures match (g, d)
            case (PointGeometry(p), Point(q)) => IsDouble(texts, p, q)
            case (Polygon(a), Polygon(b)) => AreDoubles(texts, a, b)
            case (MultiPolygon(a), MultiPolygon(b)) =>
              |a| == |b| && forall i | 0 <= i < |a| :: AreDoubles(texts, a[i], b[i])
            case _ => false
  {
    EncodedIsReadable(texts, g);
    d := Doubles(texts, g);
    if g.OtherGeometry? {
      OtherIsNotEncoded(texts);
    }
    forall a
      ensures AreDoubles(texts, a, DoubleRings(texts, a))
    {
      RingsAreDoubles(texts, a);
    }
    hide DoubleRings, AreDoubles, Wkb.Decode, Wkb.Canonical, Encode;
  }

  // ---------------------------------------------------------------- what is taken

  /** After every sequence of calls a record is taken exactly if its source is registered and its
      geometry, once snapped, has positions, all of them inside WGS84, and can be written; of an area
      of a split build the representative point, too. */
  lemma RecordIsTakenIff(texts: Texts, split: bool, calls: seq<Call>, r: Record)
    ensures ErrorOf(texts, Build(texts, split, calls), CallEntity(r)) == None <==>
            && CallSource(r.source) in calls
            && (r.geometry.Some? ==>
                  var g := Sanitize(r.geometry.value);
                  && Points(g) != []
                  && (forall p <- Points(g) :: -180.0 <= p.lon <= 180.0 && -90.0 <= p.lat <= 90.0)
                  && Encode(texts, g).Some?
                  && (split && !g.PointGeometry? ==>
                        GeometryCentroid(g).Ok? && Encode(texts, PointGeometry(GeometryCentroid(g).value)).Some?))
  {
    var s := Build(texts, split, calls);
    GeometriesAreTheGivenOnes(texts, split, calls);
    CatalogLoader.CountsAreRecords(texts, split, calls, r.source);
    AddEntityError(texts, s, r);
    hide *;
    if r.geometry.Some? {
      var g := Sanitize(r.geometry.value);
      BoxIsExact(g);
      GeometryErrorIff(texts, s, g);
    }
  }

  predicate CanBeAdded(texts: Texts, s: Store, g: Geometry) {
    && BoundingBox(g).Ok? && Encode(texts, g).Some?
    && (s.split && !g.PointGeometry? ==>
          GeometryCentroid(g).Ok? && Encode(texts, PointGeometry(GeometryCentroid(g).value)).Some?)
  }

  lemma GeometryErrorIff(texts: Texts, s: Store, g: Geometry)
    ensures CanBeAdded(texts, s, g) <==>
            && BoundingBox(g).Ok? && Encode(texts, g).Some?
            && (s.split && !g.PointGeometry? ==>
                  GeometryCentroid(g).Ok? && Encode(texts, PointGeometry(GeometryCentroid(g).value)).Some?)
  {
  }

  lemma AddEntityError(texts: Texts, s: Store, r: Record)
    ensures ErrorOf(texts, s, CallEntity(r)) == None <==>
            r.source in s.counts && (r.geometry.Some? ==> CanBeAdded(texts, s, Sanitize(r.geometry.value)))
  {
    hide AddNames, AddIdentifiers, AddGeometry, Upsert, FindEntity, CanBeAdded, Sanitize;
    var id := IdOf(texts, r);
    var s1 := WithEntity(texts, s, r);
    var entity := EntityOf(s1, id);
    var s2 := s1.(identifiers := AddIdentifiers(texts, s1.identifiers, entity, r.identifiers));
    CatalogLoader.NamesLeaveAreas(texts, s2, entity, r.names);
    if r.geometry.Some? {
      var s3 := AddNames(texts, s2, entity, r.names).store;
      AddGeometryError(texts, s, s3, Where(entity, id, r.source, r.validFrom, r.validTo), r.geometry.value);
    }
  }

  lemma AddGeometryError(texts: Texts, s: Store, t: Store, w: Where, given: Geometry)
    requires t.split == s.split
    ensures AddGeometry(texts, t, w, given).1 == None <==> CanBeAdded(texts, s, Sanitize(given))
    ensures AddGeometry(texts, t, w, given).0.counts == t.counts
  {
    hide Sanitize, BoundingBox, Encode, GeometryCentroid;
  }

  /** A row of the deployment history is: the record of its station, exactly if there is no entity of
      that id; the deployment, if it has a position, of the entity that has the id; and a count. */
  lemma HistoryRowIs(texts: Texts, s: Store, row: HistoryRow)
    ensures var calls, r := HistoryCalls(texts, s, row), row.record;
            var id, n := texts.stableId(r.authority, r.kind, r.provider), |calls| - 1;
            && n >= 0 && calls[n] == CallCount(r.source)
            && (CallEntity(r) in calls <==> forall i | 0 <= i < |s.entities| :: s.entities[i].id != id)
            && (CallEntity(r) in calls ==> calls[0] == CallEntity(r))
            && n == (if CallEntity(r) in calls then 1 else 0) + (if row.at.Some? then 1 else 0)
            && (row.at.Some? ==>
                  exists e: nat :: IsAt(ApplyAll(texts, s, calls[..n - 1]), e, id)
                                   && calls[n - 1] == CallDeployment(e, row.at.value, r.source, row.validFrom, row.validTo))
  {
    var id := IdOf(texts, row.record);
    var added := if IsEntity(s, id) then [] else [CallEntity(row.record)];
    var entity := EntityOf(ApplyAll(texts, s, added), id);
    StationIsThere(texts, s, row.record);
    hide ApplyAll;
    if row.at.Some? {
      var calls := HistoryCalls(texts, s, row);
      assert calls[..|calls| - 2] == added;
      assert IsAt(ApplyAll(texts, s, added), entity, id);
    }
  }

  predicate IsAt(s: Store, e: nat, id: string) {
    e < |s.entities| && s.entities[e].id == id
  }

  lemma StationIsThere(texts: Texts, s: Store, r: Record)
    ensures var id := IdOf(texts, r);
            var t := ApplyAll(texts, s, if IsEntity(s, id) then [] else [CallEntity(r)]);
            IsAt(t, EntityOf(t, id), id)
  {
    var id := IdOf(texts, r);
    if !IsEntity(s, id) {
      RecordEntityIs(texts, s, r);
      AddEntityIs(texts, s, r);
      assert [CallEntity(r)][..0] == [];
      hide AddEntity, Upsert, AddNames, AddGeometry, AddIdentifiers;
    }
  }

  /** Of the population rows exactly those count that find a division: each with one call. */
  lemma {:induction false} PopulationRowsCount(identifiers: seq<Identifier>, dguids: seq<string>, source: string)
    ensures var calls := PopulationCalls(identifiers, dguids, source);
            && (forall k | 0 <= k < |calls| :: calls[k] == CallCount(source))
            && |calls| == |Finding(identifiers, dguids)|
    decreases |dguids|
  {
    if dguids != [] {
      var n := |dguids| - 1;
      PopulationRowsCount(identifiers, dguids[..n], source);
      var found := Finding(identifiers, dguids[..n]);
      assert forall k | 0 <= k < n :: dguids[..n][k] == dguids[k];
      assert Finding(identifiers, dguids) == if HasDguid(identifiers, dguids[n]) then found + {n} else found;
    }
  }

  /** The rows whose DGUID, as it is in the tables, Statistics Canada gave to an entity. */
  function Finding(identifiers: seq<Identifier>, dguids: seq<string>): set<nat> {
    set k: nat | k < |dguids| && exists i ::
      0 <= i < |identifiers| && identifiers[i].authority == "statcan" && identifiers[i].scheme == "sgc_dguid"
      && identifiers[i].normalized == dguids[k]
  }
}
