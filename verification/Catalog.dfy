/**
 The tables of a location catalogue and the indexes derived from them
 (scripts/util/build_location_catalog.py:162-202, 232-241, 413-906, 1626-1777;
 crates/haze-location/schema/v1.sql, crates/haze-location/schema/geometry_v1.sql).

 A table is the list of its rows; a primary key that the database assigns is a position plus
 one, since rows are never deleted.  Text normalisation, identifiers and the rounding of a
 coordinate to a double are functions given from outside.
 */
module Catalog {
  import opened Wrappers
  import opened Shoelace
  import opened Centroid
  import Wkb
  import WkbLoader

  // ---------------------------------------------------------------- geometries

  /** A coordinate a hair outside the allowed range is moved onto its edge. */
  function Snap(x: real, edge: real): real {
    if edge < x <= edge + 0.000001 then edge
    else if -edge - 0.000001 <= x < -edge then -edge
    else x
  }

  function SnapPoint(p: Point): Point {
    Point(Snap(p.lon, 180.0), Snap(p.lat, 90.0))
  }

  function SnapRing(ring: Ring): (r: Ring)
    ensures |r| == |ring| && forall i | 0 <= i < |ring| :: r[i] == SnapPoint(ring[i])
  {
    seq(|ring|, i requires 0 <= i < |ring| => SnapPoint(ring[i]))
  }

  function SnapRings(rings: seq<Ring>): seq<Ring> {
    seq(|rings|, i requires 0 <= i < |rings| => SnapRing(rings[i]))
  }

  function Sanitize(g: Geometry): Geometry {
    match g
    case PointGeometry(at) => PointGeometry(SnapPoint(at))
    case Polygon(rings) => Polygon(SnapRings(rings))
    case MultiPolygon(polygons) =>
      MultiPolygon(seq(|polygons|, i requires 0 <= i < |polygons| => SnapRings(polygons[i])))
    case OtherGeometry => OtherGeometry
  }

  predicate Inside(p: Point) {
    -180.0 <= p.lon <= 180.0 && -90.0 <= p.lat <= 90.0
  }

  function RingsPoints(rings: seq<Ring>): seq<Point>
    decreases |rings|
  {
    if rings == [] then [] else RingsPoints(rings[..|rings| - 1]) + rings[|rings| - 1]
  }

  function PolygonsPoints(polygons: seq<seq<Ring>>): seq<Point>
    decreases |polygons|
  {
    if polygons == [] then []
    else PolygonsPoints(polygons[..|polygons| - 1]) + RingsPoints(polygons[|polygons| - 1])
  }

  /** `walk_coordinates`. */
  function Points(g: Geometry): seq<Point> {
    match g
    case PointGeometry(at) => [at]
    case Polygon(rings) => RingsPoints(rings)
    case MultiPolygon(polygons) => PolygonsPoints(polygons)
    case OtherGeometry => []
  }

  datatype Box = Box(minLon: real, maxLon: real, minLat: real, maxLat: real)

  predicate Contains(b: Box, p: Point) {
    b.minLon <= p.lon <= b.maxLon && b.minLat <= p.lat <= b.maxLat
  }

  predicate BoxOk(b: Box) {
    b.minLon <= b.maxLon && b.minLat <= b.maxLat
    && -180.0 <= b.minLon && b.maxLon <= 180.0 && -90.0 <= b.minLat && b.maxLat <= 90.0
  }

  datatype Error =
    | NoCoordinates
    | Outside
    | NotEncodable
    | NoCentroid
    | UnknownSource
    | TooFew(source: string)
    | Inconsistent

  predicate HasLon(points: seq<Point>, x: real) {
    exists i :: 0 <= i < |points| && points[i].lon == x
  }

  predicate HasLat(points: seq<Point>, y: real) {
    exists i :: 0 <= i < |points| && points[i].lat == y
  }

  /** The smallest box around the points. */
  predicate Tight(b: Box, points: seq<Point>) {
    && (forall i | 0 <= i < |points| :: Contains(b, points[i]))
    && HasLon(points, b.minLon) && HasLon(points, b.maxLon)
    && HasLat(points, b.minLat) && HasLat(points, b.maxLat)
  }

  function Smaller(a: real, b: real): real {
    if a < b then a else b
  }

  function Larger(a: real, b: real): real {
    if a < b then b else a
  }

  function Hull(points: seq<Point>): (b: Box)
    requires points != []
    ensures Tight(b, points)
    decreases |points|
  {
    var p := points[|points| - 1];
    if |points| == 1 then Box(p.lon, p.lon, p.lat, p.lat)
    else
      var front := points[..|points| - 1];
      var b := Hull(front);
      var r := Box(Smaller(b.minLon, p.lon), Larger(b.maxLon, p.lon), Smaller(b.minLat, p.lat), Larger(b.maxLat, p.lat));
      assert Tight(r, points) by {
        HullGrows(front, p, b, r);
        assert front + [p] == points;
      }
      r
  }

  lemma HullGrows(front: seq<Point>, p: Point, b: Box, r: Box)
    requires Tight(b, front)
    requires r == Box(Smaller(b.minLon, p.lon), Larger(b.maxLon, p.lon), Smaller(b.minLat, p.lat), Larger(b.maxLat, p.lat))
    ensures Tight(r, front + [p])
  {
    var all := front + [p];
    assert all[|front|] == p;
    assert forall i | 0 <= i < |front| :: all[i] == front[i];
    HasMore(front, p, b.minLon);
    HasMore(front, p, b.maxLon);
    HasMore(front, p, b.minLat);
    HasMore(front, p, b.maxLat);
  }

  lemma HasMore(front: seq<Point>, p: Point, x: real)
    ensures HasLon(front, x) ==> HasLon(front + [p], x)
    ensures HasLat(front, x) ==> HasLat(front + [p], x)
    ensures HasLon(front + [p], p.lon) && HasLat(front + [p], p.lat)
  {
    var all := front + [p];
    assert all[|front|] == p;
    assert forall i | 0 <= i < |front| :: all[i] == front[i];
  }

  predicate AllInside(points: seq<Point>) {
    forall i | 0 <= i < |points| :: Inside(points[i])
  }

  /** `geometry_bbox`. */
  function BoundingBox(g: Geometry): (r: Result<Box, Error>)
    ensures r.Ok? <==> Points(g) != [] && AllInside(Points(g))
    ensures r.Ok? ==> Tight(r.value, Points(g)) && BoxOk(r.value)
  {
    var points := Points(g);
    if points == [] then Err(NoCoordinates)
    else if !AllInside(points) then Err(Outside)
    else Ok(Hull(points))
  }

  /** There is a box exactly if there is a position and all of them are inside WGS84; every position
      is between its sides, and on each side there is one. */
  lemma BoxIsExact(g: Geometry)
    ensures BoundingBox(g).Ok? <==>
            Points(g) != [] && forall p <- Points(g) :: -180.0 <= p.lon <= 180.0 && -90.0 <= p.lat <= 90.0
    ensures BoundingBox(g).Ok? ==>
              var b := BoundingBox(g).value;
              && (forall p <- Points(g) :: b.minLon <= p.lon <= b.maxLon && b.minLat <= p.lat <= b.maxLat)
              && (exists p <- Points(g) :: p.lon == b.minLon) && (exists p <- Points(g) :: p.lon == b.maxLon)
              && (exists p <- Points(g) :: p.lat == b.minLat) && (exists p <- Points(g) :: p.lat == b.maxLat)
  {
    var points := Points(g);
    var box := BoundingBox(g);
    assert AllInside(points) <==> forall p <- points :: Inside(p) by {
      if forall p <- points :: Inside(p) {
        assert forall i | 0 <= i < |points| :: points[i] in points;
      }
    }
    if box.Ok? {
      var b := box.value;
      assert forall p <- points :: Contains(b, p);
      var i :| 0 <= i < |points| && points[i].lon == b.minLon;
      var j :| 0 <= j < |points| && points[j].lon == b.maxLon;
      var k :| 0 <= k < |points| && points[k].lat == b.minLat;
      var l :| 0 <= l < |points| && points[l].lat == b.maxLat;
      assert points[i] in points && points[j] in points && points[k] in points && points[l] in points;
    }
  }

  // ---------------------------------------------------------------- tables

  type Blob = seq<Wkb.Byte>

  /** What the catalogue takes from outside: normal forms, and the double nearest to a number. */
  datatype Texts = Texts(
    stableId: (string, string, string) -> string,
    normalName: string -> string,
    normalIdentifier: (string, string) -> string,
    double: real -> Wkb.Double)

  /** Rounding does not leave the range of coordinates, whose limits are doubles. */
  ghost predicate Rounds(texts: Texts) {
    && (forall x: real | -180.0 <= x <= 180.0 :: WkbLoader.Within(texts.double(x), WkbLoader.DEGREES_180))
    && (forall x: real | -90.0 <= x <= 90.0 :: WkbLoader.Within(texts.double(x), WkbLoader.DEGREES_90))
  }

  /** An identifier is a URN, never empty. */
  ghost predicate NamesEntities(texts: Texts) {
    forall authority, kind, provider :: texts.stableId(authority, kind, provider) != ""
  }

  // ---------------------------------------------------------------- geometries as bytes

  function DoublePoint(texts: Texts, p: Point): Wkb.Position {
    Wkb.Position(texts.double(p.lon), texts.double(p.lat), [])
  }

  function DoubleRing(texts: Texts, ring: Ring): Wkb.Ring {
    seq(|ring|, i requires 0 <= i < |ring| => DoublePoint(texts, ring[i]))
  }

  function DoubleRings(texts: Texts, rings: seq<Ring>): seq<Wkb.Ring> {
    seq(|rings|, i requires 0 <= i < |rings| => DoubleRing(texts, rings[i]))
  }

  function Doubles(texts: Texts, g: Geometry): Wkb.Geometry {
    match g
    case PointGeometry(at) => Wkb.Point(DoublePoint(texts, at))
    case Polygon(rings) => Wkb.Polygon(DoubleRings(texts, rings))
    case MultiPolygon(polygons) =>
      Wkb.MultiPolygon(seq(|polygons|, i requires 0 <= i < |polygons| => DoubleRings(texts, polygons[i])))
    case OtherGeometry => Wkb.Unsupported
  }

  /** The bytes `geometry_wkb` stores for a geometry. */
  function Encode(texts: Texts, g: Geometry): Option<Blob> {
    match Wkb.Encode(Doubles(texts, g))
    case Ok(bytes) => Some(bytes)
    case Err(_) => None
  }

  /** The bytes read back number by number, to the end. */
  predicate IsReadable(blob: Blob) {
    var d := Wkb.Decode(blob);
    d.Parsed? && d.rest == []
  }

  lemma EncodedIsReadable(texts: Texts, g: Geometry)
    requires Encode(texts, g).Some?
    ensures var blob := Encode(texts, g).value;
            && Wkb.Decode(blob) == Wkb.Parsed(Wkb.Canonical(Doubles(texts, g)), [])
            && IsReadable(blob) && |blob| >= 9
  {
    Wkb.EncodedIsFramed(Doubles(texts, g));
    Wkb.RoundTrip(Doubles(texts, g), []);
    assert Encode(texts, g).value + [] == Encode(texts, g).value;
  }

  datatype Entity = Entity(
    id: string, quality: real, lifecycle: string, validFrom: Option<string>, validTo: Option<string>)

  datatype Identifier = Identifier(entity: nat, authority: string, scheme: string, normalized: string)

  datatype Name = Name(entity: nat, locale: Option<string>, name: string, normalized: string, kind: string)

  datatype FtsRow = FtsRow(name: string, normalized: string, entity: nat, locale: Option<string>)

  datatype TrigramRow = TrigramRow(normalized: string, entity: nat)

  datatype GeometryRow = GeometryRow(
    pk: nat, entity: nat, kind: string, blob: Blob, box: Box,
    validFrom: Option<string>, validTo: Option<string>, source: string)

  datatype AreaRow = AreaRow(
    pk: nat, id: string, kind: string, blob: Blob, box: Box,
    validFrom: Option<string>, validTo: Option<string>, source: string)

  datatype IndexRow = IndexRow(pk: nat, box: Box)

  datatype Store = Store(
    split: bool,
    entities: seq<Entity>,
    identifiers: seq<Identifier>,
    names: seq<Name>,
    fts: seq<FtsRow>,
    trigram: seq<TrigramRow>,
    geometries: seq<GeometryRow>,
    rtree: seq<IndexRow>,
    areas: seq<AreaRow>,
    areaRtree: seq<IndexRow>,
    counts: map<string, nat>)

  function Empty(split: bool): Store {
    Store(split, [], [], [], [], [], [], [], [], [], map[])
  }

  // ---------------------------------------------------------------- add_entity

  function FindEntity(entities: seq<Entity>, id: string): (r: Option<nat>)
    ensures r.Some? ==> r.value < |entities| && entities[r.value].id == id
    ensures r.None? ==> forall i | 0 <= i < |entities| :: entities[i].id != id
    decreases |entities|
  {
    if entities == [] then None
    else if entities[|entities| - 1].id == id then Some(|entities| - 1)
    else FindEntity(entities[..|entities| - 1], id)
  }

  function Coalesce(a: Option<string>, b: Option<string>): Option<string> {
    if a.Some? then a else b
  }

  /** A record that comes again: the better quality, the earlier start, the later end, and an
      activity that is never taken back. */
  function MergeEntity(known: Entity, e: Entity): Entity {
    Entity(known.id, Larger(known.quality, e.quality),
           if known.lifecycle == "active" || e.lifecycle == "active" then "active" else e.lifecycle,
           Coalesce(known.validFrom, e.validFrom), Coalesce(e.validTo, known.validTo))
  }

  function Upsert(entities: seq<Entity>, e: Entity): seq<Entity> {
    match FindEntity(entities, e.id)
    case None => entities + [e]
    case Some(i) => entities[i := MergeEntity(entities[i], e)]
  }

  datatype IdentifierIn = IdentifierIn(authority: string, scheme: string, value: string)

  datatype NameIn = NameIn(locale: Option<string>, name: string, kind: string)

  function AddIdentifier(texts: Texts, rows: seq<Identifier>, entity: nat, i: IdentifierIn): seq<Identifier> {
    var row := Identifier(entity, i.authority, i.scheme, texts.normalIdentifier(i.scheme, i.value));
    if row.normalized == "" || row in rows then rows else rows + [row]
  }

  function AddIdentifiers(texts: Texts, rows: seq<Identifier>, entity: nat, ids: seq<IdentifierIn>): seq<Identifier>
    decreases |ids|
  {
    if ids == [] then rows
    else AddIdentifier(texts, AddIdentifiers(texts, rows, entity, ids[..|ids| - 1]), entity, ids[|ids| - 1])
  }

  /** The unique constraint of `names`; a missing locale never equals another. */
  predicate NamesConflict(a: Name, b: Name) {
    a.entity == b.entity && a.locale.Some? && a.locale == b.locale && a.name == b.name && a.kind == b.kind
  }

  predicate AnyConflict(names: seq<Name>, row: Name) {
    exists i :: 0 <= i < |names| && NamesConflict(names[i], row)
  }

  datatype Naming = Naming(store: Store, seen: set<NameIn>)

  function FtsOf(n: Name): FtsRow {
    FtsRow(n.name, n.normalized, n.entity, n.locale)
  }

  function TrigramOf(n: Name): TrigramRow {
    TrigramRow(n.normalized, n.entity)
  }

  function InsertName(s: Store, row: Name): Store {
    if AnyConflict(s.names, row) then s
    else s.(names := s.names + [row], fts := s.fts + [FtsOf(row)], trigram := s.trigram + [TrigramOf(row)])
  }

  function AddName(texts: Texts, n: Naming, entity: nat, x: NameIn): Naming {
    var normalized := texts.normalName(x.name);
    if normalized == "" || x in n.seen then n
    else Naming(InsertName(n.store, Name(entity, x.locale, x.name, normalized, x.kind)), n.seen + {x})
  }

  function AddNames(texts: Texts, s: Store, entity: nat, names: seq<NameIn>): Naming
    decreases |names|
  {
    if names == [] then Naming(s, {})
    else AddName(texts, AddNames(texts, s, entity, names[..|names| - 1]), entity, names[|names| - 1])
  }

  function Text(o: Option<string>): string {
    if o.Some? then o.value else ""
  }

  predicate RepeatsGeometry(a: GeometryRow, b: GeometryRow) {
    && a.entity == b.entity && a.kind == b.kind && a.blob == b.blob
    && Text(a.validFrom) == Text(b.validFrom) && Text(a.validTo) == Text(b.validTo) && a.source == b.source
  }

  predicate RepeatsArea(a: AreaRow, b: AreaRow) {
    && a.id == b.id && a.kind == b.kind && a.blob == b.blob
    && Text(a.validFrom) == Text(b.validFrom) && Text(a.validTo) == Text(b.validTo) && a.source == b.source
  }

  /** A row and its entry in the R-tree. */
  function InsertGeometry(s: Store, row: GeometryRow): Store {
    var pk := |s.geometries| + 1;
    s.(geometries := s.geometries + [row.(pk := pk)], rtree := s.rtree + [IndexRow(pk, row.box)])
  }

  function AddGeometryRow(s: Store, row: GeometryRow): Store {
    if exists i :: 0 <= i < |s.geometries| && RepeatsGeometry(s.geometries[i], row) then s else InsertGeometry(s, row)
  }

  /** `_add_area_geometry`. */
  function AddArea(s: Store, row: AreaRow): Store {
    if exists i :: 0 <= i < |s.areas| && RepeatsArea(s.areas[i], row) then s
    else
      var pk := |s.areas| + 1;
      s.(areas := s.areas + [row.(pk := pk)], areaRtree := s.areaRtree + [IndexRow(pk, row.box)])
  }

  predicate IsArea(g: Geometry) {
    g.Polygon? || g.MultiPolygon?
  }

  function Kind(g: Geometry): string {
    match g
    case PointGeometry(_) => "point"
    case Polygon(_) => "polygon"
    case MultiPolygon(_) => "multipolygon"
    case OtherGeometry => ""
  }

  datatype Where = Where(entity: nat, id: string, source: string, validFrom: Option<string>, validTo: Option<string>)

  function PointBox(p: Point): Box {
    Box(p.lon, p.lon, p.lat, p.lat)
  }

  function Row(w: Where, kind: string, blob: Blob, box: Box): GeometryRow {
    GeometryRow(0, w.entity, kind, blob, box, w.validFrom, w.validTo, w.source)
  }

  function AreaOf(w: Where, kind: string, blob: Blob, box: Box): AreaRow {
    AreaRow(0, w.id, kind, blob, box, w.validFrom, w.validTo, w.source)
  }

  /** The centroid row of an area in a split catalogue. */
  function AddCentroid(texts: Texts, s: Store, w: Where, g: Geometry): (Store, Option<Error>) {
    match GeometryCentroid(g)
    case Err(_) => (s, Some(NoCentroid))
    case Ok(p) =>
      match Encode(texts, PointGeometry(p))
      case None => (s, Some(NotEncodable))
      case Some(blob) => (AddGeometryRow(s, Row(w, "point", blob, PointBox(p))), None)
  }

  /** The store after the geometry of a record, and the error that stopped it. */
  function AddGeometry(texts: Texts, s: Store, w: Where, given: Geometry): (Store, Option<Error>) {
    var g := Sanitize(given);
    match BoundingBox(g)
    case Err(e) => (s, Some(e))
    case Ok(box) =>
      match Encode(texts, g)
      case None => (s, Some(NotEncodable))
      case Some(blob) =>
        if s.split && IsArea(g) then AddCentroid(texts, AddArea(s, AreaOf(w, Kind(g), blob, box)), w, g)
        else (AddGeometryRow(s, Row(w, Kind(g), blob, box)), None)
  }

  datatype Record = Record(
    source: string, authority: string, provider: string, kind: string,
    names: seq<NameIn>, identifiers: seq<IdentifierIn>, geometry: Option<Geometry>,
    quality: real, lifecycle: string, validFrom: Option<string>, validTo: Option<string>)

  function IdOf(texts: Texts, r: Record): string {
    texts.stableId(r.authority, r.kind, r.provider)
  }

  function Count(s: Store, source: string): (Store, Option<Error>) {
    if source in s.counts then (s.(counts := s.counts[source := s.counts[source] + 1]), None)
    else (s, Some(UnknownSource))
  }

  function WithEntity(texts: Texts, s: Store, r: Record): Store {
    s.(entities := Upsert(s.entities, Entity(IdOf(texts, r), r.quality, r.lifecycle, r.validFrom, r.validTo)))
  }

  function EntityOf(s: Store, id: string): nat {
    var at := FindEntity(s.entities, id);
    if at.Some? then at.value else 0
  }

  /** `add_entity`: whatever fails, what was inserted before stays. */
  function AddEntity(texts: Texts, s: Store, r: Record): (Store, Option<Error>) {
    var id := IdOf(texts, r);
    var s1 := WithEntity(texts, s, r);
    var entity := EntityOf(s1, id);
    var s2 := s1.(identifiers := AddIdentifiers(texts, s1.identifiers, entity, r.identifiers));
    var s3 := AddNames(texts, s2, entity, r.names).store;
    if r.geometry.None? then Count(s3, r.source)
    else
      var (s4, error) := AddGeometry(texts, s3, Where(entity, id, r.source, r.validFrom, r.validTo), r.geometry.value);
      if error.Some? then (s4, error) else Count(s4, r.source)
  }

  function AddSource(s: Store, source: string): Store {
    s.(counts := s.counts[source := 0])
  }

  /** A deployment with a position, inserted by the buoy adapters for an entity that is there. */
  function AddDeployment(texts: Texts, s: Store, entity: nat, at: Point, source: string,
                         validFrom: Option<string>, validTo: Option<string>): (Store, Option<Error>)
    requires entity < |s.entities|
  {
    match BoundingBox(PointGeometry(at))
    case Err(e) => (s, Some(e))
    case Ok(box) =>
      match Encode(texts, PointGeometry(at))
      case None => (s, Some(NotEncodable))
      case Some(blob) => (InsertGeometry(s, GeometryRow(0, entity, "point", blob, box, validFrom, validTo, source)), None)
  }

  // ---------------------------------------------------------------- finish

  /** A source and the fewest records it must have. */
  datatype Expected = Expected(source: string, minimum: int)

  function CountOf(s: Store, source: string): nat {
    if source in s.counts then s.counts[source] else 0
  }

  function FirstTooFew(s: Store, expected: seq<Expected>): (r: Option<string>)
    ensures r.Some? <==> exists i :: 0 <= i < |expected| && CountOf(s, expected[i].source) < expected[i].minimum
  {
    if expected == [] then None
    else if CountOf(s, expected[0].source) < expected[0].minimum then Some(expected[0].source)
    else
      assert forall i | 0 < i < |expected| :: expected[i] == expected[1..][i - 1];
      FirstTooFew(s, expected[1..])
  }

  predicate AreaOk(a: AreaRow) {
    && (a.kind == "polygon" || a.kind == "multipolygon")
    && |a.blob| >= 5 && BoxOk(a.box)
  }

  predicate IsKnown(s: Store, a: AreaRow) {
    exists i :: 0 <= i < |s.entities| && s.entities[i].id == a.id
  }

  /** The checks of the geometry file. */
  predicate AreasPass(s: Store) {
    && |s.areas| == |s.areaRtree|
    && (forall i | 0 <= i < |s.areas| :: AreaOk(s.areas[i]))
    && (forall i | 0 <= i < |s.areas| :: IsKnown(s, s.areas[i]))
  }

  /** The counts written into a pack. */
  datatype Counts = Counts(
    entities: nat, identifiers: nat, names: nat, geometries: nat, areas: nat, records: map<string, nat>)

  function CountsOf(s: Store): Counts {
    Counts(|s.entities|, |s.identifiers|, |s.names|, |s.geometries|, |s.areas|, s.counts)
  }

  /** `finish`: the counts that are written into the pack, or why the build fails.  `sound` is
      what the database says of its own files. */
  function Finish(s: Store, expected: seq<Expected>, sound: bool): Result<Counts, Error> {
    match FirstTooFew(s, expected)
    case Some(source) => Err(TooFew(source))
    case None =>
      if !sound || |s.fts| != |s.names| || |s.trigram| != |s.names| then Err(Inconsistent)
      else if s.split && !AreasPass(s) then Err(Inconsistent)
      else Ok(CountsOf(s))
  }

  // ---------------------------------------------------------------- the catalogue itself

  class Catalog {
    const texts: Texts
    const split: bool
    var entities: seq<Entity>
    var identifiers: seq<Identifier>
    var names: seq<Name>
    var fts: seq<FtsRow>
    var trigram: seq<TrigramRow>
    var geometries: seq<GeometryRow>
    var rtree: seq<IndexRow>
    var areas: seq<AreaRow>
    var areaRtree: seq<IndexRow>
    var sourceCounts: map<string, nat>

    function State(): Store
      reads this
    {
      Store(split, entities, identifiers, names, fts, trigram, geometries, rtree, areas, areaRtree, sourceCounts)
    }

    constructor (texts: Texts, split: bool)
      ensures this.texts == texts && State() == Empty(split)
    {
      this.texts, this.split := texts, split;
      entities, identifiers, names, fts, trigram := [], [], [], [], [];
      geometries, rtree, areas, areaRtree, sourceCounts := [], [], [], [], map[];
    }

    method RegisterSource(source: string)
      modifies this
      ensures State() == AddSource(old(State()), source)
    {
      sourceCounts := sourceCounts[source := 0];
    }

    method InsertEntity(e: Entity) returns (pk: nat)
      modifies this`entities
      ensures entities == Upsert(old(entities), e)
      ensures Some(pk) == FindEntity(entities, e.id)
    {
      var at := FindEntity(entities, e.id);
      ghost var before := entities;
      if at.Some? {
        entities := entities[at.value := MergeEntity(entities[at.value], e)];
        SamePositions(before, entities, e.id);
        pk := at.value;
      } else {
        entities := entities + [e];
        pk := |entities| - 1;
      }
    }

    method InsertIdentifiers(entity: nat, ids: seq<IdentifierIn>)
      modifies this`identifiers
      ensures identifiers == AddIdentifiers(texts, old(identifiers), entity, ids)
    {
      var i := 0;
      while i < |ids|
        invariant 0 <= i <= |ids|
        invariant identifiers == AddIdentifiers(texts, old(identifiers), entity, ids[..i])
      {
        assert ids[..i + 1][..i] == ids[..i];
        var normalized := texts.normalIdentifier(ids[i].scheme, ids[i].value);
        var row := Identifier(entity, ids[i].authority, ids[i].scheme, normalized);
        if normalized != "" && row !in identifiers {
          identifiers := identifiers + [row];
        }
        i := i + 1;
      }
      assert ids[..|ids|] == ids;
    }

    method InsertNames(entity: nat, given: seq<NameIn>)
      modifies this
      ensures State() == AddNames(texts, old(State()), entity, given).store
    {
      hide InsertName;
      var seen: set<NameIn> := {};
      var i := 0;
      while i < |given|
        invariant 0 <= i <= |given|
        invariant Naming(State(), seen) == AddNames(texts, old(State()), entity, given[..i])
      {
        assert given[..i + 1][..i] == given[..i];
        var normalized := texts.normalName(given[i].name);
        if normalized != "" && given[i] !in seen {
          seen := seen + {given[i]};
          InsertOneName(Name(entity, given[i].locale, given[i].name, normalized, given[i].kind));
        }
        i := i + 1;
      }
      assert given[..|given|] == given;
    }

    /** A row that the unique constraint takes goes into both text indexes. */
    method InsertOneName(row: Name)
      modifies this
      ensures State() == InsertName(old(State()), row)
    {
      var inserted := !AnyConflict(names, row);
      if inserted {
        names := names + [row];
        fts := fts + [FtsOf(row)];
        trigram := trigram + [TrigramOf(row)];
      }
    }

    method InsertGeometryRow(row: GeometryRow)
      modifies this
      ensures State() == InsertGeometry(old(State()), row)
    {
      var pk := |geometries| + 1;
      geometries := geometries + [row.(pk := pk)];
      rtree := rtree + [IndexRow(pk, row.box)];
    }

    method InsertNewGeometry(row: GeometryRow)
      modifies this
      ensures State() == AddGeometryRow(old(State()), row)
    {
      if exists i :: 0 <= i < |geometries| && RepeatsGeometry(geometries[i], row) {
        return;
      }
      InsertGeometryRow(row);
    }

    method InsertArea(row: AreaRow)
      modifies this
      ensures State() == AddArea(old(State()), row)
    {
      if exists i :: 0 <= i < |areas| && RepeatsArea(areas[i], row) {
        return;
      }
      var pk := |areas| + 1;
      areas := areas + [row.(pk := pk)];
      areaRtree := areaRtree + [IndexRow(pk, row.box)];
    }

    method InsertRecordGeometry(w: Where, given: Geometry) returns (error: Option<Error>)
      modifies this
      ensures (State(), error) == AddGeometry(texts, old(State()), w, given)
    {
      hide Sanitize, BoundingBox, GeometryCentroid, AddArea, AddGeometryRow, Row, AreaOf;
      var g := Sanitize(given);
      var box := BoundingBox(g);
      if box.Err? {
        return Some(box.error);
      }
      var blob := Encode(texts, g);
      if blob.None? {
        return Some(NotEncodable);
      }
      if split && IsArea(g) {
        InsertArea(AreaOf(w, Kind(g), blob.value, box.value));
        var centroid := ComputeGeometryCentroid(g);
        if centroid.Err? {
          return Some(NoCentroid);
        }
        var point := Encode(texts, PointGeometry(centroid.value));
        if point.None? {
          return Some(NotEncodable);
        }
        InsertNewGeometry(Row(w, "point", point.value, PointBox(centroid.value)));
      } else {
        InsertNewGeometry(Row(w, Kind(g), blob.value, box.value));
      }
      return None;
    }

    method CountRecord(source: string) returns (error: Option<Error>)
      modifies this`sourceCounts
      ensures (State(), error) == Count(old(State()), source)
    {
      if source !in sourceCounts {
        return Some(UnknownSource);
      }
      sourceCounts := sourceCounts[source := sourceCounts[source] + 1];
      return None;
    }

    method AddEntityRecord(r: Record) returns (error: Option<Error>)
      modifies this
      ensures (State(), error) == AddEntity(texts, old(State()), r)
    {
      hide AddIdentifiers, AddNames, AddGeometry, Upsert, FindEntity;
      var id := IdOf(texts, r);
      var entity := InsertEntity(Entity(id, r.quality, r.lifecycle, r.validFrom, r.validTo));
      InsertIdentifiers(entity, r.identifiers);
      InsertNames(entity, r.names);
      if r.geometry.Some? {
        error := InsertRecordGeometry(Where(entity, id, r.source, r.validFrom, r.validTo), r.geometry.value);
        if error.Some? {
          return;
        }
      }
      error := CountRecord(r.source);
    }

    method InsertDeployment(entity: nat, at: Point, source: string, validFrom: Option<string>, validTo: Option<string>)
      returns (error: Option<Error>)
      requires entity < |entities|
      modifies this
      ensures (State(), error) == AddDeployment(texts, old(State()), entity, at, source, validFrom, validTo)
    {
      hide BoundingBox;
      var box := BoundingBox(PointGeometry(at));
      if box.Err? {
        return Some(box.error);
      }
      var blob := Encode(texts, PointGeometry(at));
      if blob.None? {
        return Some(NotEncodable);
      }
      InsertGeometryRow(GeometryRow(0, entity, "point", blob.value, box.value, validFrom, validTo, source));
      return None;
    }

    method Perform(call: Call) returns (error: Option<Error>)
      modifies this
      ensures State() == Apply(texts, old(State()), call) && error == ErrorOf(texts, old(State()), call)
    {
      hide AddEntity, AddDeployment;
      error := None;
      match call {
        case CallSource(source) => RegisterSource(source);
        case CallEntity(r) => error := AddEntityRecord(r);
        case CallDeployment(entity, at, source, validFrom, validTo) =>
          if entity < |entities| {
            error := InsertDeployment(entity, at, source, validFrom, validTo);
          }
        case CallCount(source) => error := CountRecord(source);
      }
    }

    /** A row of `deployment_history_source`; counted last, with or without a position. */
    method AddHistoryRow(row: HistoryRow) returns (error: Option<Error>, ghost performed: nat)
      modifies this
      ensures var calls := HistoryCalls(texts, old(State()), row);
              performed <= |calls| && State() == ApplyAll(texts, old(State()), calls[..performed])
              && (error.None? ==> performed == |calls|)
    {
      hide Apply, ErrorOf, FindEntity;
      ghost var s0, calls := State(), HistoryCalls(texts, State(), row);
      var id, source := IdOf(texts, row.record), row.record.source;
      error, performed := None, 0;
      if !IsEntity(State(), id) {
        assert calls[0] == CallEntity(row.record);
        OneMoreCall(texts, s0, calls, 0);
        error := Perform(CallEntity(row.record));
        performed := 1;
        if error.Some? {
          return;
        }
      }
      ghost var added := performed;
      assert calls[..added] == if IsEntity(s0, id) then [] else [CallEntity(row.record)];
      if row.at.Some? {
        OneMoreCall(texts, s0, calls, performed);
        error := Perform(CallDeployment(EntityOf(State(), id), row.at.value, source, row.validFrom, row.validTo));
        performed := performed + 1;
        if error.Some? {
          return;
        }
      }
      OneMoreCall(texts, s0, calls, performed);
      error := Perform(CallCount(source));
      performed := performed + 1;
    }

    /** The loop of `statcan_csd_population_source`, which adds no entities. */
    method AddPopulation(dguids: seq<string>, source: string)
      requires source in sourceCounts
      modifies this`sourceCounts
      ensures State() == ApplyAll(texts, old(State()), PopulationCalls(identifiers, dguids, source))
    {
      ghost var s0 := State();
      var i := 0;
      while i < |dguids|
        invariant 0 <= i <= |dguids| && source in sourceCounts
        invariant State() == ApplyAll(texts, s0, PopulationCalls(identifiers, dguids[..i], source))
      {
        PopulationStep(texts, s0, identifiers, dguids, i, source);
        hide ApplyAll, PopulationCalls, HasDguid;
        if HasDguid(identifiers, dguids[i]) {
          var error := CountRecord(source);
        }
        i := i + 1;
      }
      assert dguids[..|dguids|] == dguids;
    }

    /** What the adapters do to a new catalogue, up to the first call that fails. */
    method RunAdapters(calls: seq<Call>) returns (performed: nat, error: Option<Error>)
      requires State() == Empty(split)
      modifies this
      ensures performed <= |calls| && State() == Build(texts, split, calls[..performed])
      ensures error.None? ==> performed == |calls|
      ensures error.Some? ==>
                performed > 0
                && error == ErrorOf(texts, Build(texts, split, calls[..performed - 1]), calls[performed - 1])
    {
      hide Apply, ErrorOf;
      performed, error := 0, None;
      while performed < |calls|
        invariant performed <= |calls| && error.None?
        invariant State() == Build(texts, split, calls[..performed])
      {
        assert calls[..performed + 1][..performed] == calls[..performed];
        error := Perform(calls[performed]);
        performed := performed + 1;
        if error.Some? {
          return;
        }
      }
    }

    method FinishBuild(expected: seq<Expected>, sound: bool) returns (r: Result<Counts, Error>)
      ensures r == Finish(State(), expected, sound)
    {
      var i := 0;
      while i < |expected|
        invariant 0 <= i <= |expected|
        invariant FirstTooFew(State(), expected) == FirstTooFew(State(), expected[i..])
      {
        assert expected[i..][1..] == expected[i + 1..];
        if CountOf(State(), expected[i].source) < expected[i].minimum {
          return Err(TooFew(expected[i].source));
        }
        i := i + 1;
      }
      if !sound || |fts| != |names| || |trigram| != |names| {
        return Err(Inconsistent);
      }
      if split && !AreasPass(State()) {
        return Err(Inconsistent);
      }
      return Ok(CountsOf(State()));
    }
  }

  lemma OneMoreCall(texts: Texts, s: Store, calls: seq<Call>, n: nat)
    requires n < |calls|
    ensures ApplyAll(texts, s, calls[..n + 1]) == Apply(texts, ApplyAll(texts, s, calls[..n]), calls[n])
  {
    assert calls[..n + 1][..n] == calls[..n];
  }

  lemma PopulationStep(texts: Texts, s: Store, identifiers: seq<Identifier>, dguids: seq<string>, i: nat, source: string)
    requires i < |dguids|
    ensures var before := ApplyAll(texts, s, PopulationCalls(identifiers, dguids[..i], source));
            ApplyAll(texts, s, PopulationCalls(identifiers, dguids[..i + 1], source))
            == if HasDguid(identifiers, dguids[i]) then Count(before, source).0 else before
  {
    assert dguids[..i + 1][..i] == dguids[..i];
    var calls := PopulationCalls(identifiers, dguids[..i], source);
    var more := calls + [CallCount(source)];
    assert more[..|calls|] == calls && more[..|calls| + 1] == more && calls + [] == calls;
    OneMoreCall(texts, s, more, |calls|);
    hide ApplyAll, HasDguid;
  }

  lemma {:induction false} SamePositions(a: seq<Entity>, b: seq<Entity>, id: string)
    requires |a| == |b| && forall i | 0 <= i < |a| :: a[i].id == b[i].id
    ensures FindEntity(a, id) == FindEntity(b, id)
    decreases |a|
  {
    if a != [] {
      SamePositions(a[..|a| - 1], b[..|b| - 1], id);
    }
  }

  // ---------------------------------------------------------------- the indexes agree with the tables

  /** The text indexes hold one row for each name, in the same order. */
  predicate NamesIndexed(s: Store) {
    && |s.fts| == |s.names| && |s.trigram| == |s.names|
    && forall i | 0 <= i < |s.names| ::
         var n := s.names[i];
         s.fts[i] == FtsRow(n.name, n.normalized, n.entity, n.locale) && s.trigram[i] == TrigramRow(n.normalized, n.entity)
  }

  predicate GeometryAt(s: Store, i: nat)
    requires i < |s.geometries| == |s.rtree|
  {
    && s.geometries[i].pk == i + 1 && s.geometries[i].entity < |s.entities| && BoxOk(s.geometries[i].box)
    && IsReadable(s.geometries[i].blob)
    && s.rtree[i] == IndexRow(i + 1, s.geometries[i].box)
  }

  /** The R-tree holds one box for each geometry, under its key. */
  predicate GeometriesIndexed(s: Store) {
    |s.rtree| == |s.geometries| && forall i | 0 <= i < |s.geometries| :: GeometryAt(s, i)
  }

  predicate AreaAt(s: Store, i: nat)
    requires i < |s.areas| == |s.areaRtree|
  {
    && s.areas[i].pk == i + 1 && IsKnown(s, s.areas[i]) && AreaOk(s.areas[i])
    && s.areaRtree[i] == IndexRow(i + 1, s.areas[i].box)
  }

  predicate AreasIndexed(s: Store) {
    |s.areaRtree| == |s.areas| && forall i | 0 <= i < |s.areas| :: AreaAt(s, i)
  }

  predicate DistinctEntities(s: Store) {
    forall i, j | 0 <= i < j < |s.entities| :: s.entities[i].id != s.entities[j].id
  }

  predicate DistinctNames(s: Store) {
    forall i, j | 0 <= i < j < |s.names| :: !NamesConflict(s.names[i], s.names[j])
  }

  predicate NamesOwned(s: Store) {
    forall i | 0 <= i < |s.names| :: s.names[i].entity < |s.entities|
  }

  predicate Good(s: Store) {
    NamesIndexed(s) && GeometriesIndexed(s) && AreasIndexed(s)
    && DistinctEntities(s) && DistinctNames(s) && NamesOwned(s)
  }

  lemma InsertNameKeeps(s: Store, row: Name)
    requires NamesIndexed(s) && DistinctNames(s) && NamesOwned(s) && row.entity < |s.entities|
    ensures NamesIndexed(InsertName(s, row)) && DistinctNames(InsertName(s, row)) && NamesOwned(InsertName(s, row))
  {
    hide NamesConflict;
  }

  lemma {:induction false} AddNamesKeeps(texts: Texts, s: Store, entity: nat, names: seq<NameIn>)
    requires Good(s) && entity < |s.entities|
    ensures var s1 := AddNames(texts, s, entity, names).store;
            Good(s1) && s1 == s.(names := s1.names, fts := s1.fts, trigram := s1.trigram)
    decreases |names|
  {
    if names != [] {
      AddNamesKeeps(texts, s, entity, names[..|names| - 1]);
      var n := AddNames(texts, s, entity, names[..|names| - 1]);
      var x := names[|names| - 1];
      hide NamesIndexed, DistinctNames, NamesOwned, GeometriesIndexed, AreasIndexed, DistinctEntities;
      if texts.normalName(x.name) != "" && x !in n.seen {
        var row := Name(entity, x.locale, x.name, texts.normalName(x.name), x.kind);
        InsertNameKeeps(n.store, row);
        NamesOnly(n.store, InsertName(n.store, row));
      }
    }
  }

  /** The other tables do not depend on the names. */
  lemma NamesOnly(s: Store, s1: Store)
    requires Good(s) && s1 == s.(names := s1.names, fts := s1.fts, trigram := s1.trigram)
    ensures GeometriesIndexed(s1) && AreasIndexed(s1) && DistinctEntities(s1)
  {
    hide NamesIndexed, DistinctNames, NamesOwned;
    assert forall i | 0 <= i < |s.geometries| :: GeometryAt(s, i) ==> GeometryAt(s1, i);
    assert forall i | 0 <= i < |s.areas| :: AreaAt(s, i) ==> AreaAt(s1, i);
  }

  /** Entities are merged in place or appended: keys and ids stay. */
  predicate Grown(a: seq<Entity>, b: seq<Entity>) {
    |a| <= |b| && forall i | 0 <= i < |a| :: a[i].id == b[i].id
  }

  lemma UpsertGrows(entities: seq<Entity>, e: Entity)
    ensures Grown(entities, Upsert(entities, e))
    ensures FindEntity(Upsert(entities, e), e.id).Some?
    ensures (forall i, j | 0 <= i < j < |entities| :: entities[i].id != entities[j].id) ==>
              forall i, j | 0 <= i < j < |Upsert(entities, e)| :: Upsert(entities, e)[i].id != Upsert(entities, e)[j].id
  {
    var all := Upsert(entities, e);
    var at := FindEntity(entities, e.id);
    if at.Some? {
      assert all[at.value].id == e.id;
    } else {
      assert all[|entities|] == e;
    }
  }

  lemma KnownGrows(s: Store, s1: Store, a: AreaRow)
    requires Grown(s.entities, s1.entities) && IsKnown(s, a)
    ensures IsKnown(s1, a)
  {
    var i :| 0 <= i < |s.entities| && s.entities[i].id == a.id;
    assert s1.entities[i].id == a.id;
  }

  lemma WithEntityKeeps(texts: Texts, s: Store, r: Record)
    requires Good(s)
    ensures Good(WithEntity(texts, s, r))
    ensures FindEntity(WithEntity(texts, s, r).entities, IdOf(texts, r)).Some?
  {
    var e := Entity(IdOf(texts, r), r.quality, r.lifecycle, r.validFrom, r.validTo);
    UpsertGrows(s.entities, e);
    hide Upsert, FindEntity, AreaOk, BoxOk, NamesConflict, IsKnown;
    var s1 := WithEntity(texts, s, r);
    forall i | 0 <= i < |s1.geometries|
      ensures GeometryAt(s1, i)
    {
      assert GeometryAt(s, i);
    }
    forall i | 0 <= i < |s1.areas|
      ensures AreaAt(s1, i)
    {
      assert AreaAt(s, i);
      KnownGrows(s, s1, s.areas[i]);
    }
  }

  lemma InsertGeometryKeeps(s: Store, row: GeometryRow)
    requires Good(s) && row.entity < |s.entities| && BoxOk(row.box) && IsReadable(row.blob)
    ensures Good(InsertGeometry(s, row))
  {
    hide AreaOk, BoxOk, IsReadable, NamesConflict;
    var s1 := InsertGeometry(s, row);
    forall i | 0 <= i < |s1.geometries|
      ensures GeometryAt(s1, i)
    {
      if i < |s.geometries| {
        assert GeometryAt(s, i);
      }
    }
    assert forall i | 0 <= i < |s.areas| :: AreaAt(s, i) ==> AreaAt(s1, i);
  }

  lemma AddAreaKeeps(s: Store, row: AreaRow)
    requires Good(s) && IsKnown(s, row) && AreaOk(row)
    ensures Good(AddArea(s, row))
  {
    var s1 := AddArea(s, row);
    hide BoxOk, NamesConflict, RepeatsArea;
    forall i | 0 <= i < |s1.areas|
      ensures s1 != s ==> AreaAt(s1, i)
    {
      if i < |s.areas| {
        assert AreaAt(s, i);
      }
    }
    assert forall i | 0 <= i < |s.geometries| :: GeometryAt(s, i) ==> GeometryAt(s1, i);
  }

  lemma AddGeometryRowKeeps(s: Store, row: GeometryRow)
    requires Good(s) && row.entity < |s.entities| && BoxOk(row.box) && IsReadable(row.blob)
    ensures Good(AddGeometryRow(s, row))
  {
    InsertGeometryKeeps(s, row);
    hide Good, InsertGeometry;
  }

  /** The place of a record: its entity is there under its id. */
  predicate Placed(s: Store, w: Where) {
    w.entity < |s.entities| && s.entities[w.entity].id == w.id
  }

  lemma AddCentroidKeeps(texts: Texts, s: Store, w: Where, g: Geometry)
    requires Good(s) && Placed(s, w)
    ensures Good(AddCentroid(texts, s, w, g).0)
  {
    hide Good, AddGeometryRow, Encode, IsReadable;
    if GeometryCentroid(g).Ok? && Encode(texts, PointGeometry(GeometryCentroid(g).value)).Some? {
      var p := GeometryCentroid(g).value;
      EncodedIsReadable(texts, PointGeometry(p));
      AddGeometryRowKeeps(s, Row(w, "point", Encode(texts, PointGeometry(p)).value, PointBox(p)));
    }
  }

  lemma AddAreaEntities(s: Store, row: AreaRow)
    ensures AddArea(s, row).entities == s.entities
  {
  }

  lemma AddGeometryKeeps(texts: Texts, s: Store, w: Where, given: Geometry)
    requires Good(s) && Placed(s, w)
    ensures Good(AddGeometry(texts, s, w, given).0)
  {
    hide Good, AddGeometryRow, AddArea, AddCentroid, Sanitize, Encode, IsReadable;
    var g := Sanitize(given);
    var box := BoundingBox(g);
    var blob := Encode(texts, g);
    if box.Ok? && blob.Some? {
      EncodedIsReadable(texts, g);
      AddGeometryRowKeeps(s, Row(w, Kind(g), blob.value, box.value));
      if IsArea(g) {
        var row := AreaOf(w, Kind(g), blob.value, box.value);
        assert s.entities[w.entity].id == row.id;
        AddAreaKeeps(s, row);
        AddAreaEntities(s, row);
        AddCentroidKeeps(texts, AddArea(s, row), w, g);
      }
    }
  }

  lemma IdentifiersOnly(s: Store, rows: seq<Identifier>)
    requires Good(s)
    ensures Good(s.(identifiers := rows))
  {
    var s1 := s.(identifiers := rows);
    assert forall i | 0 <= i < |s.geometries| :: GeometryAt(s, i) ==> GeometryAt(s1, i);
    assert forall i | 0 <= i < |s.areas| :: AreaAt(s, i) ==> AreaAt(s1, i);
    hide AreaOk, BoxOk, IsReadable, NamesConflict;
  }

  lemma CountsOnly(s: Store, counts: map<string, nat>)
    requires Good(s)
    ensures Good(s.(counts := counts))
  {
    var s1 := s.(counts := counts);
    assert forall i | 0 <= i < |s.geometries| :: GeometryAt(s, i) ==> GeometryAt(s1, i);
    assert forall i | 0 <= i < |s.areas| :: AreaAt(s, i) ==> AreaAt(s1, i);
    hide AreaOk, BoxOk, IsReadable, NamesConflict;
  }

  lemma CountKeeps(s: Store, source: string)
    requires Good(s)
    ensures Good(Count(s, source).0)
  {
    hide Good;
    if source in s.counts {
      CountsOnly(s, s.counts[source := s.counts[source] + 1]);
    }
  }

  /** Whether a record is taken or fails half way, the indexes agree with the tables. */
  lemma AddEntityKeeps(texts: Texts, s: Store, r: Record)
    requires Good(s)
    ensures Good(AddEntity(texts, s, r).0)
  {
    var id := IdOf(texts, r);
    var s1 := WithEntity(texts, s, r);
    WithEntityKeeps(texts, s, r);
    var entity := EntityOf(s1, id);
    var s2 := s1.(identifiers := AddIdentifiers(texts, s1.identifiers, entity, r.identifiers));
    IdentifiersOnly(s1, s2.identifiers);
    AddNamesKeeps(texts, s2, entity, r.names);
    hide Good, AddNames, AddGeometry, WithEntity, AddIdentifiers;
    var s3 := AddNames(texts, s2, entity, r.names).store;
    CountKeeps(s3, r.source);
    if r.geometry.Some? {
      var w := Where(entity, id, r.source, r.validFrom, r.validTo);
      AddGeometryKeeps(texts, s3, w, r.geometry.value);
      CountKeeps(AddGeometry(texts, s3, w, r.geometry.value).0, r.source);
    }
  }

  lemma AddDeploymentKeeps(texts: Texts, s: Store, entity: nat, at: Point, source: string,
                           validFrom: Option<string>, validTo: Option<string>)
    requires Good(s) && entity < |s.entities|
    ensures Good(AddDeployment(texts, s, entity, at, source, validFrom, validTo).0)
  {
    hide Good, InsertGeometry, Encode, IsReadable;
    var box := BoundingBox(PointGeometry(at));
    var blob := Encode(texts, PointGeometry(at));
    if box.Ok? && blob.Some? {
      EncodedIsReadable(texts, PointGeometry(at));
      InsertGeometryKeeps(s, GeometryRow(0, entity, "point", blob.value, box.value, validFrom, validTo, source));
    }
  }

  // ---------------------------------------------------------------- whole builds

  datatype Call =
    | CallSource(source: string)
    | CallEntity(record: Record)
    | CallDeployment(entity: nat, at: Point, source: string, validFrom: Option<string>, validTo: Option<string>)
    | CallCount(source: string)

  /** A call of an adapter; deployments are for entities that are there.  Adapters that add no
      entity for a row count the row themselves. */
  function Apply(texts: Texts, s: Store, call: Call): Store {
    match call
    case CallSource(source) => AddSource(s, source)
    case CallEntity(r) => AddEntity(texts, s, r).0
    case CallDeployment(entity, at, source, validFrom, validTo) =>
      if entity < |s.entities| then AddDeployment(texts, s, entity, at, source, validFrom, validTo).0 else s
    case CallCount(source) => Count(s, source).0
  }

  function ErrorOf(texts: Texts, s: Store, call: Call): Option<Error> {
    match call
    case CallSource(_) => None
    case CallEntity(r) => AddEntity(texts, s, r).1
    case CallDeployment(entity, at, source, validFrom, validTo) =>
      if entity < |s.entities| then AddDeployment(texts, s, entity, at, source, validFrom, validTo).1 else None
    case CallCount(source) => Count(s, source).1
  }

  /** Calls one after the other, whether or not they fail. */
  function ApplyAll(texts: Texts, s: Store, calls: seq<Call>): Store
    decreases |calls|
  {
    if calls == [] then s else Apply(texts, ApplyAll(texts, s, calls[..|calls| - 1]), calls[|calls| - 1])
  }

  /** A row of a deployment history: the record of its station, in case that is new, and where the
      buoy was, if the row says so. */
  datatype HistoryRow = HistoryRow(
    record: Record, at: Option<Point>, validFrom: Option<string>, validTo: Option<string>)

  predicate IsEntity(s: Store, id: string) {
    FindEntity(s.entities, id).Some?
  }

  function HistoryCalls(texts: Texts, s: Store, row: HistoryRow): seq<Call> {
    var id, source := IdOf(texts, row.record), row.record.source;
    var added := if IsEntity(s, id) then [] else [CallEntity(row.record)];
    var entity := EntityOf(ApplyAll(texts, s, added), id);
    added
    + (if row.at.Some? then [CallDeployment(entity, row.at.value, source, row.validFrom, row.validTo)] else [])
    + [CallCount(source)]
  }

  predicate HasDguid(identifiers: seq<Identifier>, dguid: string) {
    exists i :: 0 <= i < |identifiers| && identifiers[i].authority == "statcan"
                && identifiers[i].scheme == "sgc_dguid" && identifiers[i].normalized == dguid
  }

  /** Population rows enrich subdivisions that are there; each of these is counted. */
  function PopulationCalls(identifiers: seq<Identifier>, dguids: seq<string>, source: string): seq<Call>
    decreases |dguids|
  {
    if dguids == [] then []
    else
      var n := |dguids| - 1;
      PopulationCalls(identifiers, dguids[..n], source) + if HasDguid(identifiers, dguids[n]) then [CallCount(source)] else []
  }

  function Build(texts: Texts, split: bool, calls: seq<Call>): Store
    decreases |calls|
  {
    if calls == [] then Empty(split) else Apply(texts, Build(texts, split, calls[..|calls| - 1]), calls[|calls| - 1])
  }

  /** After every sequence of calls, also when calls fail: text rows match names one for one,
      R-tree ids equal geometry ids in both files, every area's entity exists and its box is
      ordered and inside WGS84. */
  lemma {:induction false} IndexesAgree(texts: Texts, split: bool, calls: seq<Call>)
    ensures Good(Build(texts, split, calls))
    decreases |calls|
  {
    if calls != [] {
      var s := Build(texts, split, calls[..|calls| - 1]);
      IndexesAgree(texts, split, calls[..|calls| - 1]);
      hide Good, AddEntity, AddDeployment;
      match calls[|calls| - 1] {
        case CallSource(source) => CountsOnly(s, s.counts[source := 0]);
        case CallEntity(r) => AddEntityKeeps(texts, s, r);
        case CallDeployment(entity, at, source, validFrom, validTo) =>
          if entity < |s.entities| {
            AddDeploymentKeeps(texts, s, entity, at, source, validFrom, validTo);
          }
        case CallCount(source) => CountKeeps(s, source);
      }
    }
  }

  lemma GoodAreasPass(s: Store)
    requires Good(s)
    ensures AreasPass(s)
  {
    hide NamesIndexed, GeometriesIndexed, DistinctEntities, DistinctNames, NamesOwned, AreaOk, IsKnown;
    forall i | 0 <= i < |s.areas|
      ensures AreaOk(s.areas[i]) && IsKnown(s, s.areas[i])
    {
      assert AreaAt(s, i);
    }
  }

  /** A build whose files the database finds sound finishes exactly when every source has its
      expected number of records: the checks of the indexes cannot fail. */
  lemma FinishFailsOnlyForMissingRecords(
      texts: Texts, split: bool, calls: seq<Call>, expected: seq<Expected>)
    ensures var s := Build(texts, split, calls);
            Finish(s, expected, true).Ok? <==>
            forall i | 0 <= i < |expected| :: CountOf(s, expected[i].source) >= expected[i].minimum
  {
    IndexesAgree(texts, split, calls);
    GoodAreasPass(Build(texts, split, calls));
    hide Build, AreasPass, GeometriesIndexed, AreasIndexed, DistinctEntities, DistinctNames, NamesOwned;
  }

  // ---------------------------------------------------------------- records that come again

  function NameRow(texts: Texts, entity: nat, x: NameIn): Name {
    Name(entity, x.locale, x.name, texts.normalName(x.name), x.kind)
  }

  predicate Blank(texts: Texts, x: NameIn) {
    texts.normalName(x.name) == ""
  }

  /** The name is in the table, under a locale. */
  predicate Stored(texts: Texts, s: Store, entity: nat, x: NameIn) {
    x.locale.Some? && AnyConflict(s.names, NameRow(texts, entity, x))
  }

  lemma NamesOnlyGrow(texts: Texts, s: Store, entity: nat, x: NameIn, row: Name)
    requires AnyConflict(s.names, row)
    ensures AnyConflict(InsertName(s, NameRow(texts, entity, x)).names, row)
  {
    hide NamesConflict;
    var i :| 0 <= i < |s.names| && NamesConflict(s.names[i], row);
    assert InsertName(s, NameRow(texts, entity, x)).names[i] == s.names[i];
  }

  lemma InsertedIsStored(texts: Texts, s: Store, entity: nat, x: NameIn)
    requires x.locale.Some?
    ensures Stored(texts, InsertName(s, NameRow(texts, entity, x)), entity, x)
  {
    var row := NameRow(texts, entity, x);
    if !AnyConflict(s.names, row) {
      assert InsertName(s, row).names[|s.names|] == row;
      assert NamesConflict(row, row);
    }
  }

  /** After a record was added, each of its names that has a locale is stored. */
  lemma {:induction false} NamesAreStored(texts: Texts, s: Store, entity: nat, names: seq<NameIn>, i: nat)
    requires i < |names| && names[i].locale.Some? && !Blank(texts, names[i])
    ensures Stored(texts, AddNames(texts, s, entity, names).store, entity, names[i])
    ensures names[i] in AddNames(texts, s, entity, names).seen
    decreases |names|
  {
    var front, last := names[..|names| - 1], names[|names| - 1];
    var n := AddNames(texts, s, entity, front);
    hide InsertName, AnyConflict;
    if i < |front| {
      NamesAreStored(texts, s, entity, front, i);
      NamesOnlyGrow(texts, n.store, entity, last, NameRow(texts, entity, names[i]));
    } else if last in n.seen {
      var k := SeenWasGiven(texts, s, entity, front, last);
      NamesAreStored(texts, s, entity, front, k);
    } else {
      InsertedIsStored(texts, n.store, entity, last);
    }
  }

  lemma {:induction false} SeenWasGiven(texts: Texts, s: Store, entity: nat, names: seq<NameIn>, x: NameIn)
    returns (k: nat)
    requires x in AddNames(texts, s, entity, names).seen
    ensures k < |names| && names[k] == x
    decreases |names|
  {
    hide InsertName;
    if x in AddNames(texts, s, entity, names[..|names| - 1]).seen {
      k := SeenWasGiven(texts, s, entity, names[..|names| - 1], x);
    } else {
      k := |names| - 1;
    }
  }

  lemma {:induction false} StoredNamesAddNothing(texts: Texts, s: Store, entity: nat, names: seq<NameIn>)
    requires forall i | 0 <= i < |names| :: Blank(texts, names[i]) || Stored(texts, s, entity, names[i])
    ensures AddNames(texts, s, entity, names).store == s
    decreases |names|
  {
    if names != [] {
      StoredNamesAddNothing(texts, s, entity, names[..|names| - 1]);
      hide AnyConflict;
    }
  }

  lemma {:induction false} UnlocatedNameIsAdded(texts: Texts, s: Store, entity: nat, names: seq<NameIn>, i: nat)
    requires i < |names| && names[i].locale.None? && !Blank(texts, names[i])
    ensures |AddNames(texts, s, entity, names).store.names| > |s.names|
    decreases |names|
  {
    var front, last := names[..|names| - 1], names[|names| - 1];
    var n := AddNames(texts, s, entity, front);
    NamesNeverShrink(texts, s, entity, front);
    if i < |front| {
      UnlocatedNameIsAdded(texts, s, entity, front, i);
    } else if last in n.seen {
      var k := SeenWasGiven(texts, s, entity, front, last);
      UnlocatedNameIsAdded(texts, s, entity, front, k);
    }
    hide AddNames;
  }

  lemma {:induction false} NamesNeverShrink(texts: Texts, s: Store, entity: nat, names: seq<NameIn>)
    ensures |AddNames(texts, s, entity, names).store.names| >= |s.names|
    decreases |names|
  {
    if names != [] {
      NamesNeverShrink(texts, s, entity, names[..|names| - 1]);
      hide AnyConflict;
    }
  }

  /** A record added again adds no names exactly when all its names have a locale: a name without
      one is stored, and indexed, once for every time it comes. */
  lemma NamesAddedAgainIff(texts: Texts, s: Store, entity: nat, names: seq<NameIn>)
    ensures var s1 := AddNames(texts, s, entity, names).store;
            AddNames(texts, s1, entity, names).store.names == s1.names <==>
            forall i | 0 <= i < |names| :: names[i].locale.Some? || Blank(texts, names[i])
  {
    var s1 := AddNames(texts, s, entity, names).store;
    hide AddNames, Stored, Blank;
    if forall i | 0 <= i < |names| :: names[i].locale.Some? || Blank(texts, names[i]) {
      forall i | 0 <= i < |names|
        ensures Blank(texts, names[i]) || Stored(texts, s1, entity, names[i])
      {
        if !Blank(texts, names[i]) {
          NamesAreStored(texts, s, entity, names, i);
        }
      }
      StoredNamesAddNothing(texts, s1, entity, names);
    } else {
      var i :| 0 <= i < |names| && !(names[i].locale.Some? || Blank(texts, names[i]));
      UnlocatedNameIsAdded(texts, s1, entity, names, i);
    }
  }
}
