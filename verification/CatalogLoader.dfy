/**
 A finished catalogue in front of the loader that has to take it
 (scripts/util/build_location_catalog.py:483-906; crates/haze-location/src/catalog.rs:570-839).

 The builder checks its own indexes; the loader also counts the records of every source and
 decodes every stored area.  What a build stores is related to the calls that built it, so that
 "the loader takes the pack" becomes a condition on those calls.
 */
module CatalogLoader {
  import opened Wrappers
  import opened Shoelace
  import opened Centroid
  import opened Catalog
  import opened Longitude
  import Wkb
  import WkbLoader

  // ---------------------------------------------------------------- the loader's checks

  /** The loader's check of a core pack (crates/haze-location/src/catalog.rs:749-839): counts as
      written, complete text indexes, boxes ordered and inside WGS84, readable geometries.  The
      point it probes with lies outside every box, so it reads each geometry to its end. */
  predicate CoreLoads(s: Store, written: Counts) {
    && s.counts.Keys != {}
    && (forall source <- s.counts :: source in written.records && written.records[source] > 0)
    && written.entities == |s.entities| && written.identifiers == |s.identifiers|
    && written.names == |s.names| && written.geometries == |s.geometries|
    && |s.fts| == |s.names| && |s.trigram| == |s.names|
    && (forall i | 0 <= i < |s.geometries| :: BoxOk(s.geometries[i].box) && IsReadable(s.geometries[i].blob))
  }

  function TypeName(g: Wkb.Geometry): string {
    match g
    case Point(_) => "point"
    case Polygon(_) => "polygon"
    case MultiPolygon(_) => "multipolygon"
    case Unsupported => ""
  }

  /** An area row: an identifier, a box, and bytes that decode to a geometry of the stored type. */
  predicate AreaLoads(a: AreaRow) {
    && a.id != "" && BoxOk(a.box)
    && var decoded := WkbLoader.Load(a.blob);
       decoded.Some? && TypeName(decoded.value) == a.kind
  }

  /** And of a geometry pack (crates/haze-location/src/catalog.rs:570-723). */
  predicate GeometryLoads(s: Store, written: Counts) {
    && s.counts.Keys != {}
    && written.areas == |s.areas| && |s.areaRtree| == |s.areas|
    && (forall i | 0 <= i < |s.areas| :: AreaLoads(s.areas[i]))
    && (forall i | 0 <= i < |s.areas| :: IsKnown(s, s.areas[i]))
  }

  /** Every file a build made; only a split build makes a geometry pack. */
  predicate PacksLoad(s: Store, written: Counts) {
    CoreLoads(s, written) && (s.split ==> GeometryLoads(s, written))
  }

  // ---------------------------------------------------------------- rings that are long enough

  predicate LongPolygon(rings: seq<Wkb.Ring>) {
    rings != [] && forall i | 0 <= i < |rings| :: |rings[i]| >= 4
  }

  /** Every polygon has a ring, and every ring four positions. */
  predicate LongRings(g: Wkb.Geometry) {
    match g
    case Polygon(rings) => LongPolygon(rings)
    case MultiPolygon(polygons) => forall i | 0 <= i < |polygons| :: LongPolygon(polygons[i])
    case _ => true
  }

  /** The same of a geometry as it is given: its rings, once closed, are long enough. */
  predicate GivenLong(texts: Texts, g: Geometry) {
    LongRings(Wkb.Canonical(Doubles(texts, g)))
  }

  predicate PointsInside(points: seq<Point>) {
    forall i | 0 <= i < |points| :: Inside(points[i])
  }

  predicate RingsInside(rings: seq<Ring>) {
    forall i | 0 <= i < |rings| :: PointsInside(rings[i])
  }

  lemma {:induction false} RingsPointsInside(rings: seq<Ring>)
    requires PointsInside(RingsPoints(rings))
    ensures RingsInside(rings)
    decreases |rings|
  {
    hide Inside;
    if rings != [] {
      var n := |rings| - 1;
      var front := RingsPoints(rings[..n]);
      var all := RingsPoints(rings);
      assert all == front + rings[n];
      assert forall i | 0 <= i < |front| :: front[i] == all[i];
      assert forall i | 0 <= i < |rings[n]| :: rings[n][i] == all[|front| + i];
      RingsPointsInside(rings[..n]);
      assert forall i | 0 <= i < n :: rings[..n][i] == rings[i];
    }
  }

  predicate PolygonsInside(polygons: seq<seq<Ring>>) {
    forall i | 0 <= i < |polygons| :: RingsInside(polygons[i])
  }

  lemma {:induction false} PolygonsPointsInside(polygons: seq<seq<Ring>>)
    requires PointsInside(PolygonsPoints(polygons))
    ensures PolygonsInside(polygons)
    decreases |polygons|
  {
    hide Inside, RingsInside;
    if polygons != [] {
      var n := |polygons| - 1;
      var front, last := PolygonsPoints(polygons[..n]), RingsPoints(polygons[n]);
      var all := PolygonsPoints(polygons);
      assert all == front + last;
      assert forall i | 0 <= i < |front| :: front[i] == all[i];
      assert forall i | 0 <= i < |last| :: last[i] == all[|front| + i];
      PolygonsPointsInside(polygons[..n]);
      RingsPointsInside(polygons[n]);
      assert forall i | 0 <= i < n :: polygons[..n][i] == polygons[i];
    }
  }

  /** A closed ring of rounded coordinates stays inside, so only its length is left to check. */
  lemma RingLoadsIfLong(texts: Texts, ring: Ring)
    requires Rounds(texts) && PointsInside(ring)
    ensures var flat := Wkb.FlatRing(Wkb.CloseRing(DoubleRing(texts, ring)));
            WkbLoader.RingLoads(flat) <==> |flat| >= 4
  {
    var doubles := DoubleRing(texts, ring);
    var flat := Wkb.FlatRing(Wkb.CloseRing(doubles));
    WkbLoader.ClosedForTheLoader(doubles);
    forall i | 0 <= i < |flat|
      ensures WkbLoader.Inside(flat[i])
    {
      var k := if i < |ring| then i else 0;
      assert flat[i] == DoublePoint(texts, ring[k]) && Inside(ring[k]);
    }
    hide Wkb.CloseRing, Wkb.IsClosed;
  }

  lemma PolygonLoadsIfLong(texts: Texts, rings: seq<Ring>)
    requires Rounds(texts) && RingsInside(rings)
    ensures var kept := Wkb.Kept(DoubleRings(texts, rings));
            WkbLoader.PolygonLoads(kept) <==> LongPolygon(kept)
  {
    hide Rounds, PointsInside, WkbLoader.RingLoads, Wkb.CloseRing, Wkb.FlatRing;
    var kept := Wkb.Kept(DoubleRings(texts, rings));
    forall i | 0 <= i < |kept|
      ensures WkbLoader.RingLoads(kept[i]) <==> |kept[i]| >= 4
    {
      RingLoadsIfLong(texts, rings[i]);
      assert kept[i] == Wkb.FlatRing(Wkb.CloseRing(DoubleRing(texts, rings[i])));
    }
  }

  /** An area whose coordinates were found inside WGS84 is one the loader takes exactly when its
      rings are long enough. */
  lemma AreaLoadsIfLong(texts: Texts, g: Geometry)
    requires Rounds(texts) && IsArea(g) && AllInside(Points(g))
    ensures WkbLoader.Loads(Wkb.Canonical(Doubles(texts, g))) <==> GivenLong(texts, g)
  {
    hide Rounds, Inside, WkbLoader.PolygonLoads, LongPolygon, Wkb.Kept, DoubleRings, RingsInside;
    match g
    case Polygon(rings) =>
      RingsPointsInside(rings);
      PolygonLoadsIfLong(texts, rings);
    case MultiPolygon(polygons) =>
      PolygonsPointsInside(polygons);
      var kept := Wkb.Canonical(Doubles(texts, g)).polygons;
      forall i | 0 <= i < |polygons|
        ensures WkbLoader.PolygonLoads(kept[i]) <==> LongPolygon(kept[i])
      {
        PolygonLoadsIfLong(texts, polygons[i]);
        assert kept[i] == Wkb.Kept(DoubleRings(texts, polygons[i]));
      }
  }

  // ---------------------------------------------------------------- the areas that were given

  /** A call that reaches the area table: a record with an area inside WGS84 that can be encoded. */
  predicate GivesArea(texts: Texts, call: Call) {
    && call.CallEntity? && call.record.geometry.Some?
    && var g := Sanitize(call.record.geometry.value);
       IsArea(g) && BoundingBox(g).Ok? && Encode(texts, g).Some?
  }

  function Given(texts: Texts, call: Call): Geometry
    requires GivesArea(texts, call)
  {
    Sanitize(call.record.geometry.value)
  }

  /** The row such a call asks for. */
  function RowOf(texts: Texts, call: Call): AreaRow
    requires GivesArea(texts, call)
  {
    var (g, r) := (Given(texts, call), call.record);
    AreaOf(Where(0, IdOf(texts, r), r.source, r.validFrom, r.validTo), Kind(g), Encode(texts, g).value, BoundingBox(g).value)
  }

  function WithArea(areas: seq<AreaRow>, row: AreaRow): seq<AreaRow> {
    if exists i :: 0 <= i < |areas| && RepeatsArea(areas[i], row) then areas
    else areas + [row.(pk := |areas| + 1)]
  }

  lemma {:induction false} NamesLeaveAreas(texts: Texts, s: Store, entity: nat, names: seq<NameIn>)
    ensures AddNames(texts, s, entity, names).store.areas == s.areas
    ensures AddNames(texts, s, entity, names).store.counts == s.counts
    ensures AddNames(texts, s, entity, names).store.split == s.split
    decreases |names|
  {
    hide AnyConflict;
    if names != [] {
      NamesLeaveAreas(texts, s, entity, names[..|names| - 1]);
    }
  }

  lemma AddCentroidAreas(texts: Texts, s: Store, w: Where, g: Geometry)
    ensures var s1 := AddCentroid(texts, s, w, g).0;
            s1.split == s.split && s1.counts == s.counts && s1.areas == s.areas
  {
    hide Encode, GeometryCentroid, RepeatsGeometry;
  }

  lemma AddGeometryAreas(texts: Texts, s: Store, w: Where, given: Geometry)
    ensures var g := Sanitize(given);
            var s1 := AddGeometry(texts, s, w, given).0;
            && s1.split == s.split && s1.counts == s.counts
            && s1.areas == if s.split && IsArea(g) && BoundingBox(g).Ok? && Encode(texts, g).Some?
                           then WithArea(s.areas, AreaOf(w, Kind(g), Encode(texts, g).value, BoundingBox(g).value))
                           else s.areas
  {
    hide RepeatsArea, Sanitize, BoundingBox, Encode, RepeatsGeometry, AddCentroid, AreaOf, Row;
    var g := Sanitize(given);
    if s.split && IsArea(g) && BoundingBox(g).Ok? && Encode(texts, g).Some? {
      var row := AreaOf(w, Kind(g), Encode(texts, g).value, BoundingBox(g).value);
      AddCentroidAreas(texts, AddArea(s, row), w, g);
    }
  }

  /** What one call does to the area table. */
  lemma ApplyAreas(texts: Texts, s: Store, call: Call)
    ensures var s1 := Apply(texts, s, call);
            s1.split == s.split
            && s1.areas == if s.split && GivesArea(texts, call) then WithArea(s.areas, RowOf(texts, call)) else s.areas
  {
    hide Sanitize, BoundingBox, Encode, AddGeometry, Upsert, FindEntity, AddIdentifiers, AddNames, WithArea;
    if call.CallEntity? {
      var r := call.record;
      var s1 := WithEntity(texts, s, r);
      var entity := EntityOf(s1, IdOf(texts, r));
      var s2 := s1.(identifiers := AddIdentifiers(texts, s1.identifiers, entity, r.identifiers));
      NamesLeaveAreas(texts, s2, entity, r.names);
      if r.geometry.Some? {
        var s3 := AddNames(texts, s2, entity, r.names).store;
        AddGeometryAreas(texts, s3, Where(entity, IdOf(texts, r), r.source, r.validFrom, r.validTo), r.geometry.value);
      }
    }
  }

  /** The row came from one of the calls. */
  predicate IsGiven(texts: Texts, calls: seq<Call>, a: AreaRow) {
    exists c :: 0 <= c < |calls| && GivesArea(texts, calls[c]) && RepeatsArea(RowOf(texts, calls[c]), a)
  }

  predicate IsStored(areas: seq<AreaRow>, row: AreaRow) {
    exists i :: 0 <= i < |areas| && RepeatsArea(areas[i], row)
  }

  ghost predicate AreasAre(texts: Texts, areas: seq<AreaRow>, calls: seq<Call>) {
    && (forall i | 0 <= i < |areas| :: IsGiven(texts, calls, areas[i]))
    && (forall c | 0 <= c < |calls| && GivesArea(texts, calls[c]) :: IsStored(areas, RowOf(texts, calls[c])))
    && (forall i, j | 0 <= i < j < |areas| :: !RepeatsArea(areas[i], areas[j]))
  }

  lemma GivenStays(texts: Texts, calls: seq<Call>, call: Call, a: AreaRow)
    ensures IsGiven(texts, calls, a) ==> IsGiven(texts, calls + [call], a)
    ensures GivesArea(texts, call) && RepeatsArea(RowOf(texts, call), a) ==> IsGiven(texts, calls + [call], a)
  {
    hide GivesArea, RepeatsArea, RowOf;
    var all := calls + [call];
    assert all[|calls|] == call;
    if IsGiven(texts, calls, a) {
      var c :| 0 <= c < |calls| && GivesArea(texts, calls[c]) && RepeatsArea(RowOf(texts, calls[c]), a);
      assert all[c] == calls[c];
    }
  }

  lemma StoredStays(areas: seq<AreaRow>, more: AreaRow, row: AreaRow)
    ensures IsStored(areas, row) ==> IsStored(areas + [more], row)
    ensures RepeatsArea(more, row) ==> IsStored(areas + [more], row)
  {
    hide RepeatsArea;
    var all := areas + [more];
    assert all[|areas|] == more;
    if IsStored(areas, row) {
      var i :| 0 <= i < |areas| && RepeatsArea(areas[i], row);
      assert all[i] == areas[i];
    }
  }

  lemma AreasAreMore(texts: Texts, areas: seq<AreaRow>, calls: seq<Call>, call: Call)
    requires AreasAre(texts, areas, calls)
    ensures !GivesArea(texts, call) ==> AreasAre(texts, areas, calls + [call])
    ensures GivesArea(texts, call) ==> AreasAre(texts, WithArea(areas, RowOf(texts, call)), calls + [call])
  {
    hide GivesArea, RowOf, IsGiven, IsStored, RepeatsArea;
    var after := if GivesArea(texts, call) then WithArea(areas, RowOf(texts, call)) else areas;
    var all := calls + [call];
    forall i | 0 <= i < |after|
      ensures IsGiven(texts, all, after[i])
    {
      GivenStays(texts, calls, call, after[i]);
      if i == |areas| {
        RowRepeatsItself(RowOf(texts, call), i + 1);
      }
    }
    forall c | 0 <= c < |all| && GivesArea(texts, all[c])
      ensures IsStored(after, RowOf(texts, all[c]))
    {
      var row := RowOf(texts, all[c]);
      if c < |calls| {
        assert IsStored(areas, row) by { assert all[c] == calls[c]; }
      } else {
        StoredUnlessNew(areas, row);
        RowRepeatsItself(row, |areas| + 1);
      }
      if |after| > |areas| {
        StoredStays(areas, after[|areas|], row);
      }
    }
    forall i, j | 0 <= i < j < |after|
      ensures !RepeatsArea(after[i], after[j])
    {
      if j == |areas| {
        RepeatsIgnoresKey(after[i], RowOf(texts, call), j + 1);
      }
    }
  }

  lemma StoredUnlessNew(areas: seq<AreaRow>, row: AreaRow)
    ensures WithArea(areas, row) == if IsStored(areas, row) then areas else areas + [row.(pk := |areas| + 1)]
  {
    hide RepeatsArea;
  }

  lemma RowRepeatsItself(row: AreaRow, pk: nat)
    ensures RepeatsArea(row, row.(pk := pk)) && RepeatsArea(row.(pk := pk), row)
  {
  }

  lemma RepeatsIgnoresKey(a: AreaRow, row: AreaRow, pk: nat)
    ensures RepeatsArea(a, row.(pk := pk)) <==> RepeatsArea(a, row)
  {
  }

  /** The area table of a split build holds the areas that were given, each once: every row comes
      from a call, every given area is a row, and no two rows repeat each other. */
  lemma {:induction false} AreasAreTheGivenOnes(texts: Texts, split: bool, calls: seq<Call>)
    ensures var s := Build(texts, split, calls);
            s.split == split && if split then AreasAre(texts, s.areas, calls) else s.areas == []
    decreases |calls|
  {
    hide GivesArea, RowOf, WithArea, IsGiven, IsStored, RepeatsArea, Apply;
    if calls != [] {
      hide AreasAre;
      var n := |calls| - 1;
      AreasAreTheGivenOnes(texts, split, calls[..n]);
      var s := Build(texts, split, calls[..n]);
      ApplyAreas(texts, s, calls[n]);
      if split {
        AreasAreMore(texts, s.areas, calls[..n], calls[n]);
      }
      assert calls[..n] + [calls[n]] == calls;
    }
  }

  /** A row that a call asked for holds the bytes of the area that was given. */
  lemma RowHoldsArea(texts: Texts, call: Call, a: AreaRow)
    requires GivesArea(texts, call) && RepeatsArea(RowOf(texts, call), a)
    ensures var doubles := Doubles(texts, Given(texts, call));
            && Wkb.Encode(doubles) == Ok(a.blob)
            && Wkb.Decode(a.blob) == Wkb.Parsed(Wkb.Canonical(doubles), [])
            && a.id == IdOf(texts, call.record) && a.kind == Kind(Given(texts, call))
  {
    EncodedIsReadable(texts, Given(texts, call));
    hide Doubles, Wkb.Decode, Wkb.Canonical, Wkb.Encode, Sanitize, BoundingBox;
  }

  lemma StoredArea(texts: Texts, calls: seq<Call>, i: nat) returns (c: nat)
    requires i < |Build(texts, true, calls).areas|
    ensures c < |calls| && GivesArea(texts, calls[c])
    ensures RepeatsArea(RowOf(texts, calls[c]), Build(texts, true, calls).areas[i])
  {
    AreasAreTheGivenOnes(texts, true, calls);
    hide Build, GivesArea, RowOf, RepeatsArea, IsStored;
    var a := Build(texts, true, calls).areas[i];
    assert IsGiven(texts, calls, a);
    c :| 0 <= c < |calls| && GivesArea(texts, calls[c]) && RepeatsArea(RowOf(texts, calls[c]), a);
  }

  predicate SamePlace(a: AreaRow, b: AreaRow) {
    a.id == b.id && a.source == b.source && Text(a.validFrom) == Text(b.validFrom) && Text(a.validTo) == Text(b.validTo)
  }

  /** Comparing bytes keeps one row for each geometry: two areas that one source gives one entity
      for one time are different geometries, not only different bytes. */
  lemma StoredAreasDiffer(texts: Texts, calls: seq<Call>, i: nat, j: nat)
    requires i < |Build(texts, true, calls).areas| && j < |Build(texts, true, calls).areas|
    requires SamePlace(Build(texts, true, calls).areas[i], Build(texts, true, calls).areas[j])
    ensures var areas := Build(texts, true, calls).areas;
            Wkb.Decode(areas[i].blob) == Wkb.Decode(areas[j].blob) <==> i == j
  {
    var c := StoredArea(texts, calls, i);
    var d := StoredArea(texts, calls, j);
    AreasAreTheGivenOnes(texts, true, calls);
    var areas := Build(texts, true, calls).areas;
    hide Build, GivesArea, RowOf, IsGiven, IsStored, Wkb.Decode, Wkb.Encode, Wkb.Canonical, Doubles, Kind;
    RowHoldsArea(texts, calls[c], areas[i]);
    RowHoldsArea(texts, calls[d], areas[j]);
    var g, h := Given(texts, calls[c]), Given(texts, calls[d]);
    if Wkb.Decode(areas[i].blob) == Wkb.Decode(areas[j].blob) {
      Wkb.BytesIdentifyGeometry(Doubles(texts, g), Doubles(texts, h));
      SameKind(texts, g, h);
      assert RepeatsArea(areas[i], areas[j]) && RepeatsArea(areas[j], areas[i]);
    }
  }

  lemma SameKind(texts: Texts, g: Geometry, h: Geometry)
    requires Wkb.Canonical(Doubles(texts, g)) == Wkb.Canonical(Doubles(texts, h))
    ensures Kind(g) == Kind(h)
  {
  }

  // ---------------------------------------------------------------- the records of a source

  /** A record of the source: an entity, or a row that an adapter counts itself. */
  predicate IsRecordOf(call: Call, source: string) {
    (call.CallEntity? && call.record.source == source) || call == CallCount(source)
  }

  /** A call that brings a record of the source, without an error, and after which the source is
      not registered anew. */
  ghost predicate TakenAt(texts: Texts, split: bool, calls: seq<Call>, k: nat, source: string)
    requires k < |calls|
  {
    && IsRecordOf(calls[k], source)
    && ErrorOf(texts, Build(texts, split, calls[..k]), calls[k]).None?
    && forall j | k < j < |calls| :: calls[j] != CallSource(source)
  }

  ghost predicate HasRecord(texts: Texts, split: bool, calls: seq<Call>, source: string) {
    exists k: nat :: k < |calls| && TakenAt(texts, split, calls, k, source)
  }

  /** Counting is the last thing a record does: it is counted exactly when nothing failed. */
  lemma ApplyCounts(texts: Texts, s: Store, call: Call)
    ensures var s1 := Apply(texts, s, call);
            match call
            case CallSource(source) => s1.counts == s.counts[source := 0]
            case CallEntity(r) =>
              if AddEntity(texts, s, r).1.None?
              then r.source in s.counts && s1.counts == s.counts[r.source := s.counts[r.source] + 1]
              else s1.counts == s.counts
            case CallDeployment(_, _, _, _, _) => s1.counts == s.counts
            case CallCount(source) =>
              if source in s.counts then s1.counts == s.counts[source := s.counts[source] + 1]
              else s1.counts == s.counts
  {
    hide Sanitize, BoundingBox, Encode, AddGeometry, Upsert, FindEntity, AddIdentifiers, AddNames;
    if call.CallEntity? {
      var r := call.record;
      var s1 := WithEntity(texts, s, r);
      var entity := EntityOf(s1, IdOf(texts, r));
      var s2 := s1.(identifiers := AddIdentifiers(texts, s1.identifiers, entity, r.identifiers));
      NamesLeaveAreas(texts, s2, entity, r.names);
      if r.geometry.Some? {
        var s3 := AddNames(texts, s2, entity, r.names).store;
        AddGeometryAreas(texts, s3, Where(entity, IdOf(texts, r), r.source, r.validFrom, r.validTo), r.geometry.value);
      }
    }
  }

  lemma HasRecordGrows(texts: Texts, split: bool, calls: seq<Call>, source: string)
    requires calls != []
    ensures var n := |calls| - 1;
            HasRecord(texts, split, calls, source) <==>
            TakenAt(texts, split, calls, n, source)
            || (HasRecord(texts, split, calls[..n], source) && calls[n] != CallSource(source))
  {
    hide ErrorOf, IsRecordOf, Build;
    var n := |calls| - 1;
    var front := calls[..n];
    forall k: nat | k < n
      ensures TakenAt(texts, split, calls, k, source) <==>
              TakenAt(texts, split, front, k, source) && calls[n] != CallSource(source)
    {
      assert front[..k] == calls[..k] && front[k] == calls[k];
      assert forall j | k < j < n :: front[j] == calls[j];
    }
  }

  lemma CountStep(texts: Texts, s: Store, call: Call, source: string)
    ensures var s1 := Apply(texts, s, call);
            && (source in s1.counts <==> source in s.counts || call == CallSource(source))
            && (source in s1.counts ==>
                  (s1.counts[source] > 0 <==>
                    (IsRecordOf(call, source) && ErrorOf(texts, s, call).None?)
                    || (source in s.counts && s.counts[source] > 0 && call != CallSource(source))))
            && (source in s.counts ==>
                  s1.counts[source] == if call == CallSource(source) then 0
                                       else if IsRecordOf(call, source) && ErrorOf(texts, s, call).None? then s.counts[source] + 1
                                       else s.counts[source])
            && (call == CallSource(source) ==> s1.counts[source] == 0)
  {
    ApplyCounts(texts, s, call);
    hide Apply, AddEntity;
  }

  /** Counting a row of a registered source gives the source a record, whatever came before. */
  lemma CountedRowIsRecord(texts: Texts, split: bool, calls: seq<Call>, source: string)
    requires CallSource(source) in calls
    ensures HasRecord(texts, split, calls + [CallCount(source)], source)
  {
    CountsAreRecords(texts, split, calls, source);
    hide Build;
    var all := calls + [CallCount(source)];
    assert all[..|calls|] == calls;
    assert TakenAt(texts, split, all, |calls|, source);
  }

  /** How many records of a source were taken since it was registered. */
  function Taken(texts: Texts, split: bool, calls: seq<Call>, source: string): nat
    decreases |calls|
  {
    if calls == [] || calls[|calls| - 1] == CallSource(source) then 0
    else
      var front, last := calls[..|calls| - 1], calls[|calls| - 1];
      Taken(texts, split, front, source)
      + if IsRecordOf(last, source) && ErrorOf(texts, Build(texts, split, front), last).None? then 1 else 0
  }

  /** The sources of a build are the registered ones, and each counts exactly its records that were
      taken; more than nothing exactly when there is one. */
  lemma {:induction false} CountsAreRecords(texts: Texts, split: bool, calls: seq<Call>, source: string)
    ensures var s := Build(texts, split, calls);
            && (source in s.counts <==> CallSource(source) in calls)
            && (source in s.counts ==> (s.counts[source] > 0 <==> HasRecord(texts, split, calls, source)))
            && (source in s.counts ==> s.counts[source] == Taken(texts, split, calls, source))
    decreases |calls|
  {
    hide Apply, ErrorOf, HasRecord;
    if calls != [] {
      var n := |calls| - 1;
      CountsAreRecords(texts, split, calls[..n], source);
      HasRecordGrows(texts, split, calls, source);
      CountStep(texts, Build(texts, split, calls[..n]), calls[n], source);
      assert calls == calls[..n] + [calls[n]];
    }
  }

  // ---------------------------------------------------------------- when the loader takes the pack

  /** The loader takes a row exactly when the area that was given has long enough rings. */
  lemma RowLoadsIff(texts: Texts, call: Call, a: AreaRow)
    requires Rounds(texts) && NamesEntities(texts)
    requires GivesArea(texts, call) && RepeatsArea(RowOf(texts, call), a) && BoxOk(a.box)
    ensures AreaLoads(a) <==> GivenLong(texts, Given(texts, call))
  {
    RowHoldsArea(texts, call, a);
    var g := Given(texts, call);
    var doubles := Doubles(texts, g);
    AreaLoadsIfLong(texts, g);
    WkbLoader.LoadsWhatWasEncodedIff(doubles);
    assert TypeName(Wkb.Canonical(doubles)) == Kind(g);
    hide Rounds, GivesArea, RowOf, RepeatsArea, GivenLong, WkbLoader.Load, WkbLoader.Loads, BoxOk;
    hide Doubles, Wkb.Decode, Wkb.Canonical, Wkb.Encode, Sanitize, BoundingBox, Kind, TypeName;
    assert texts.stableId(call.record.authority, call.record.kind, call.record.provider) != "";
  }

  ghost predicate AllRowsLoad(s: Store) {
    forall i | 0 <= i < |s.areas| :: AreaLoads(s.areas[i])
  }

  /** No area that was given has a ring that is too short, or a polygon without rings. */
  predicate AllGivenLong(texts: Texts, calls: seq<Call>) {
    forall c | 0 <= c < |calls| && GivesArea(texts, calls[c]) :: GivenLong(texts, Given(texts, calls[c]))
  }

  lemma RowsLoadIff(texts: Texts, calls: seq<Call>)
    requires Rounds(texts) && NamesEntities(texts)
    ensures AllRowsLoad(Build(texts, true, calls)) <==> AllGivenLong(texts, calls)
  {
    var s := Build(texts, true, calls);
    AreasAreTheGivenOnes(texts, true, calls);
    IndexesAgree(texts, true, calls);
    GoodBoxes(s);
    hide Rounds, NamesEntities, Build, GivesArea, RowOf, RepeatsArea, GivenLong, AreaLoads, Good, BoxOk, IsReadable;
    if AllGivenLong(texts, calls) {
      forall i | 0 <= i < |s.areas|
        ensures AreaLoads(s.areas[i])
      {
        var c := StoredArea(texts, calls, i);
        RowLoadsIff(texts, calls[c], s.areas[i]);
      }
    }
    if AllRowsLoad(s) {
      forall c | 0 <= c < |calls| && GivesArea(texts, calls[c])
        ensures GivenLong(texts, Given(texts, calls[c]))
      {
        var row := RowOf(texts, calls[c]);
        assert IsStored(s.areas, row);
        var i :| 0 <= i < |s.areas| && RepeatsArea(s.areas[i], row);
        RepeatsBothWays(s.areas[i], row);
        RowLoadsIff(texts, calls[c], s.areas[i]);
      }
    }
  }

  lemma RepeatsBothWays(a: AreaRow, b: AreaRow)
    ensures RepeatsArea(a, b) <==> RepeatsArea(b, a)
  {
  }

  lemma GoodBoxes(s: Store)
    requires Good(s)
    ensures |s.fts| == |s.names| && |s.trigram| == |s.names| && |s.areaRtree| == |s.areas|
    ensures forall i | 0 <= i < |s.geometries| :: BoxOk(s.geometries[i].box) && IsReadable(s.geometries[i].blob)
    ensures forall i | 0 <= i < |s.areas| :: BoxOk(s.areas[i].box) && IsKnown(s, s.areas[i])
  {
    hide BoxOk, IsKnown, IsReadable;
    forall i | 0 <= i < |s.geometries|
      ensures BoxOk(s.geometries[i].box) && IsReadable(s.geometries[i].blob)
    {
      assert GeometryAt(s, i);
    }
    forall i | 0 <= i < |s.areas|
      ensures BoxOk(s.areas[i].box) && IsKnown(s, s.areas[i])
    {
      assert AreaAt(s, i);
    }
  }

  /** Some source was registered, and each has a record. */
  ghost predicate SourcesHaveRecords(texts: Texts, split: bool, calls: seq<Call>) {
    && (exists source :: CallSource(source) in calls)
    && (forall source | CallSource(source) in calls :: HasRecord(texts, split, calls, source))
  }

  lemma CountsPositiveIff(texts: Texts, split: bool, calls: seq<Call>)
    ensures var counts := Build(texts, split, calls).counts;
            counts.Keys != {} && (forall source <- counts :: counts[source] > 0)
            <==> SourcesHaveRecords(texts, split, calls)
  {
    hide Build, HasRecord;
    var counts := Build(texts, split, calls).counts;
    forall source: string
      ensures source in counts <==> CallSource(source) in calls
      ensures source in counts ==> (counts[source] > 0 <==> HasRecord(texts, split, calls, source))
    {
      CountsAreRecords(texts, split, calls, source);
    }
    if counts.Keys != {} {
      var source :| source in counts.Keys;
      assert CallSource(source) in calls;
    }
  }

  /** What the builder checked of its indexes, the loader need not refuse. */
  lemma GoodCoreLoadsIff(s: Store)
    requires Good(s)
    ensures CoreLoads(s, CountsOf(s)) <==> s.counts.Keys != {} && forall source <- s.counts :: s.counts[source] > 0
  {
    GoodBoxes(s);
    hide Good, BoxOk, IsReadable, IsKnown;
  }

  lemma GoodGeometryLoadsIff(s: Store)
    requires Good(s)
    ensures GeometryLoads(s, CountsOf(s)) <==> s.counts.Keys != {} && AllRowsLoad(s)
  {
    GoodBoxes(s);
    hide Good, BoxOk, IsReadable, IsKnown, AreaLoads;
  }

  /** The loader takes the packs of a finished build exactly when a source was registered, every
      registered source has a record, and no area that was given has a ring of fewer than four
      positions or a polygon without rings. */
  lemma FinishedPackLoadsIff(texts: Texts, split: bool, calls: seq<Call>, expected: seq<Expected>)
    requires Rounds(texts) && NamesEntities(texts)
    requires Finish(Build(texts, split, calls), expected, true).Ok?
    ensures var s := Build(texts, split, calls);
            PacksLoad(s, Finish(s, expected, true).value) <==>
            SourcesHaveRecords(texts, split, calls) && (split ==> AllGivenLong(texts, calls))
  {
    IndexesAgree(texts, split, calls);
    AreasAreTheGivenOnes(texts, split, calls);
    CountsPositiveIff(texts, split, calls);
    if split {
      RowsLoadIff(texts, calls);
    }
    hide Build, AreasPass, Good, Rounds, NamesEntities, AreasAre, SourcesHaveRecords, AllGivenLong, AllRowsLoad;
    hide CoreLoads, GeometryLoads, FirstTooFew;
    GoodCoreLoadsIff(Build(texts, split, calls));
    GoodGeometryLoadsIff(Build(texts, split, calls));
  }

  /** With at least one record expected of every source, a finished build loads exactly when its
      areas have long enough rings: what `finish` checks leaves out only the rings. */
  lemma ExpectedRecordsSuffice(texts: Texts, split: bool, calls: seq<Call>, expected: seq<Expected>)
    requires Rounds(texts) && NamesEntities(texts)
    requires Finish(Build(texts, split, calls), expected, true).Ok?
    requires exists source :: CallSource(source) in calls
    requires forall source | CallSource(source) in calls ::
               exists i :: 0 <= i < |expected| && expected[i].source == source && expected[i].minimum >= 1
    ensures var s := Build(texts, split, calls);
            PacksLoad(s, Finish(s, expected, true).value) <==> (split ==> AllGivenLong(texts, calls))
  {
    FinishedPackLoadsIff(texts, split, calls, expected);
    var s := Build(texts, split, calls);
    hide AreasPass, PacksLoad, Build, Rounds, NamesEntities, AllGivenLong, HasRecord;
    forall source | CallSource(source) in calls
      ensures HasRecord(texts, split, calls, source)
    {
      CountsAreRecords(texts, split, calls, source);
      var i :| 0 <= i < |expected| && expected[i].source == source && expected[i].minimum >= 1;
      assert CountOf(s, expected[i].source) >= expected[i].minimum;
    }
  }

  // ---------------------------------------------------------------- a hole without area

  const TRIANGLE: Ring := [Point(0.0, 0.0), Point(10.0, 0.0), Point(0.0, 10.0), Point(0.0, 0.0)]

  const SLIT: Ring := [Point(0.0, 0.0), Point(1.0, 1.0), Point(0.0, 0.0)]

  const SLIT_TRIANGLE := Polygon([TRIANGLE, SLIT])

  function SlitRecord(): Record {
    Record("areas", "areas", "1", "zone", [], [], Some(SLIT_TRIANGLE), 1.0, "active", None, None)
  }

  lemma TriangleUnwraps()
    ensures Unwrapped(TRIANGLE) == TRIANGLE
  {
    var a := TRIANGLE;
    assert a[..3][..2] == [a[0], a[1]] && a[..3][..2][..1] == [a[0]];
    assert UnwrapOpen(a[..3][..2]) == [a[0], a[1]];
    assert UnwrapOpen(a[..3]) == [a[0], a[1], a[2]];
  }

  lemma TriangleSums()
    ensures Total(Area, TRIANGLE) == 100.0 && Total(Lon, TRIANGLE) == 1000.0 && Total(Lat, TRIANGLE) == 1000.0
  {
    hide Total, Edge;
    EdgeOf(0.0, 0.0, 10.0, 0.0, 0.0);
    EdgeOf(10.0, 0.0, 0.0, 10.0, 100.0);
    EdgeOf(0.0, 10.0, 0.0, 0.0, 0.0);
    var o, p, q := Point(0.0, 0.0), Point(10.0, 0.0), Point(0.0, 10.0);
    TriangleSum(Area, o, p, q);
    TriangleSum(Lon, o, p, q);
    TriangleSum(Lat, o, p, q);
  }

  lemma TriangleCentroid()
    ensures RingCentroid(TRIANGLE) == Some(Weighted(10.0 / 3.0, 10.0 / 3.0, 50.0))
  {
    TriangleUnwraps();
    TriangleSums();
    hide Total, Unwrapped;
  }

  lemma SlitHasNoCentroid()
    ensures RingCentroid(SLIT) == None
  {
    var a := SLIT;
    assert a[..2] == [a[0], a[1]] && a[..2][..1] == [a[0]];
    assert UnwrapOpen(a[..2]) == [a[0], a[1]];
    assert UnwrapOpen(a) == a;
  }

  lemma SlitTriangleHasCentroid()
    ensures GeometryCentroid(SLIT_TRIANGLE).Ok?
  {
    TriangleCentroid();
    SlitHasNoCentroid();
    hide RingCentroid;
    var rings := SLIT_TRIANGLE.rings;
    var exterior := Weighted(10.0 / 3.0, 10.0 / 3.0, 50.0);
    assert Net(rings, exterior, 1) == Weighted(500.0 / 3.0, 500.0 / 3.0, 50.0);
    assert Net(rings, exterior, 2) == Net(rings, exterior, 1);
    assert PolygonCentroid(rings).Ok? && PolygonCentroid(rings).value.lat == 10.0 / 3.0;
    NormalizeIsCanonical(PolygonCentroid(rings).value.lon);
  }

  lemma SlitDoubles(texts: Texts)
    requires Rounds(texts)
    ensures Encode(texts, SLIT_TRIANGLE).Some? && !GivenLong(texts, SLIT_TRIANGLE)
  {
    var rings := SLIT_TRIANGLE.rings;
    var doubles := DoubleRings(texts, rings);
    assert doubles == [DoubleRing(texts, TRIANGLE), DoubleRing(texts, SLIT)];
    RoundedRingIsClosed(texts, TRIANGLE);
    RoundedRingIsClosed(texts, SLIT);
    hide Rounds, Wkb.IsClosed;
    assert |Wkb.CloseRing(doubles[0])| == 4 && |Wkb.CloseRing(doubles[1])| == 3;
    Wkb.EncodesIff(Wkb.Polygon(doubles));
    assert |Wkb.Kept(doubles)[1]| == 3;
  }

  lemma SlitSanitized()
    ensures Sanitize(SLIT_TRIANGLE) == SLIT_TRIANGLE
  {
    assert SnapRing(TRIANGLE) == TRIANGLE && SnapRing(SLIT) == SLIT;
    var rings := SLIT_TRIANGLE.rings;
    hide SnapRing;
    assert SnapRings(rings) == rings;
  }

  lemma SlitInside()
    ensures BoundingBox(SLIT_TRIANGLE).Ok?
  {
    var rings := SLIT_TRIANGLE.rings;
    assert RingsPoints(rings[..1]) == TRIANGLE;
    assert RingsPoints(rings) == TRIANGLE + SLIT;
  }

  lemma SlitIsStored(texts: Texts)
    requires Rounds(texts)
    ensures GivesArea(texts, CallEntity(SlitRecord())) && Given(texts, CallEntity(SlitRecord())) == SLIT_TRIANGLE
    ensures !GivenLong(texts, SLIT_TRIANGLE)
  {
    SlitDoubles(texts);
    SlitSanitized();
    SlitInside();
    hide Rounds, Encode, GivenLong, Sanitize, BoundingBox;
  }

  lemma RoundedRingIsClosed(texts: Texts, ring: Ring)
    requires Rounds(texts) && ring != [] && Inside(ring[0]) && ring[0] == ring[|ring| - 1]
    ensures Wkb.IsClosed(DoubleRing(texts, ring))
  {
  }

  /** An area with a centroid is taken by a split build that knows its source. */
  lemma AreaIsTaken(texts: Texts, s: Store, r: Record)
    requires s.split && r.source in s.counts && GivesArea(texts, CallEntity(r))
    requires GeometryCentroid(Given(texts, CallEntity(r))).Ok?
    ensures AddEntity(texts, s, r).1.None?
  {
    hide Sanitize, BoundingBox, Upsert, FindEntity, AddIdentifiers, AddNames, GeometryCentroid, RepeatsArea, RepeatsGeometry;
    var s1 := WithEntity(texts, s, r);
    var entity := EntityOf(s1, IdOf(texts, r));
    var s2 := s1.(identifiers := AddIdentifiers(texts, s1.identifiers, entity, r.identifiers));
    NamesLeaveAreas(texts, s2, entity, r.names);
    var s3 := AddNames(texts, s2, entity, r.names).store;
    AddGeometryAreas(texts, s3, Where(entity, IdOf(texts, r), r.source, r.validFrom, r.validTo), r.geometry.value);
  }

  lemma SourceAlone(texts: Texts, source: string)
    ensures Build(texts, true, [CallSource(source)]) == AddSource(Empty(true), source)
  {
    assert [CallSource(source)][..0] == [];
    assert Build(texts, true, []) == Empty(true);
  }

  /** One source with one area: one record. */
  lemma OneAreaCounts(texts: Texts, r: Record)
    requires GivesArea(texts, CallEntity(r)) && GeometryCentroid(Given(texts, CallEntity(r))).Ok?
    ensures Build(texts, true, [CallSource(r.source), CallEntity(r)]).counts == map[r.source := 1]
  {
    SourceAlone(texts, r.source);
    hide GivesArea, AddEntity, Apply, GeometryCentroid;
    var calls, s0 := [CallSource(r.source), CallEntity(r)], AddSource(Empty(true), r.source);
    assert calls[..1] == [CallSource(r.source)];
    AreaIsTaken(texts, s0, r);
    ApplyCounts(texts, s0, calls[1]);
  }

  /** A split build of one area finishes, and loads exactly when the area has long enough rings. */
  lemma OneAreaLoadsIff(texts: Texts, r: Record)
    requires Rounds(texts) && NamesEntities(texts)
    requires GivesArea(texts, CallEntity(r)) && GeometryCentroid(Given(texts, CallEntity(r))).Ok?
    ensures var calls := [CallSource(r.source), CallEntity(r)];
            var s := Build(texts, true, calls);
            var finished := Finish(s, [Expected(r.source, 1)], true);
            && finished.Ok? && SourcesHaveRecords(texts, true, calls)
            && (PacksLoad(s, finished.value) <==> GivenLong(texts, Given(texts, CallEntity(r))))
  {
    OneAreaCounts(texts, r);
    hide Build, Rounds, NamesEntities, GivesArea, GivenLong, HasRecord, PacksLoad, GeometryCentroid;
    var calls, expected := [CallSource(r.source), CallEntity(r)], [Expected(r.source, 1)];
    FinishFailsOnlyForMissingRecords(texts, true, calls, expected);
    CountsPositiveIff(texts, true, calls);
    hide Finish, SourcesHaveRecords, AllGivenLong;
    FinishedPackLoadsIff(texts, true, calls, expected);
    OneGivenLong(texts, r);
  }

  lemma OneGivenLong(texts: Texts, r: Record)
    requires GivesArea(texts, CallEntity(r))
    ensures AllGivenLong(texts, [CallSource(r.source), CallEntity(r)]) <==> GivenLong(texts, Given(texts, CallEntity(r)))
  {
    hide Sanitize, BoundingBox, Encode, GivenLong;
    var calls := [CallSource(r.source), CallEntity(r)];
    assert calls[1] == CallEntity(r);
  }

  /** A hole drawn out and back along a line has no centroid and is passed over, is written with its
      three positions, and passes every check of `finish`; the loader refuses the pack. */
  lemma ShortHoleIsRefused(texts: Texts)
    requires Rounds(texts) && NamesEntities(texts)
    ensures var calls := [CallSource("areas"), CallEntity(SlitRecord())];
            var s := Build(texts, true, calls);
            var finished := Finish(s, [Expected("areas", 1)], true);
            finished.Ok? && SourcesHaveRecords(texts, true, calls) && !PacksLoad(s, finished.value)
  {
    SlitIsStored(texts);
    SlitTriangleHasCentroid();
    hide Build, Rounds, NamesEntities, GivesArea, GivenLong, SourcesHaveRecords, PacksLoad, GeometryCentroid, Finish;
    OneAreaLoadsIff(texts, SlitRecord());
  }
}
