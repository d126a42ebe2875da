/**
 Representative points of area geometries (scripts/util/build_location_catalog.py:251-341).

 Rings are unwrapped across the antimeridian and reduced to their shoelace centroid and
 area, holes are subtracted, and parts are averaged by area.  Coordinates are exact reals.
 Every loop of the source is a method, proved against a function; the laws are proved about
 the functions: the result moves with the geometry, does not depend on the direction of a
 ring, and depends on longitudes only modulo whole turns.
 */
module Centroid {
  import opened Wrappers
  import opened Longitude
  import opened Shoelace

  type Ring = seq<Point>

  datatype Geometry =
    | PointGeometry(at: Point)
    | Polygon(rings: seq<Ring>)
    | MultiPolygon(polygons: seq<seq<Ring>>)
    | OtherGeometry

  /** A centroid and the area it stands for. */
  datatype Weighted = Weighted(lon: real, lat: real, area: real)

  datatype Error =
    | NoRings
    | ZeroAreaExterior
    | NoPositiveArea
    | NoPolygons
    | UnsupportedType
    | OutsideWgs84

  const EPSILON: real := 0.000000000001

  // ---------------------------------------------------------------- rings

  /** The ring with every longitude aligned to the one before it. */
  function UnwrapOpen(ring: Ring): (u: Ring)
    ensures |u| == |ring|
    ensures ring != [] ==> u[0] == ring[0]
  {
    if |ring| <= 1 then ring
    else
      var n := |ring| - 1;
      var u := UnwrapOpen(ring[..n]);
      u + [Point(Align(ring[n].lon, u[n - 1].lon), ring[n].lat)]
  }

  function Close(u: Ring): Ring {
    if u != [] && u[0] != u[|u| - 1] then u + [u[0]] else u
  }

  function Unwrapped(ring: Ring): Ring {
    Close(UnwrapOpen(ring))
  }

  method UnwrapRing(ring: Ring) returns (unwrapped: Ring)
    ensures unwrapped == Unwrapped(ring)
  {
    if ring == [] {
      return [];
    }
    unwrapped := [ring[0]];
    for i := 1 to |ring|
      invariant unwrapped == UnwrapOpen(ring[..i])
    {
      var previous := unwrapped[|unwrapped| - 1].lon;
      var longitude := AlignLongitude(ring[i].lon, previous);
      unwrapped := unwrapped + [Point(longitude, ring[i].lat)];
      assert ring[..i + 1][..i] == ring[..i];
    }
    assert ring[..|ring|] == ring;
    if unwrapped[0] != unwrapped[|unwrapped| - 1] {
      unwrapped := unwrapped + [unwrapped[0]];
    }
  }

  function Abs(x: real): real {
    if x < 0.0 then -x else x
  }

  /** The centroid of a chain of points, if it encloses an area. */
  function ChainCentroid(pts: seq<Point>): Option<Weighted> {
    var twiceArea := Total(Area, pts);
    if |pts| < 4 || Abs(twiceArea) <= EPSILON then None
    else Some(Weighted(Total(Lon, pts) / (3.0 * twiceArea), Total(Lat, pts) / (3.0 * twiceArea), Abs(twiceArea) / 2.0))
  }

  function RingCentroid(ring: Ring): Option<Weighted> {
    ChainCentroid(Unwrapped(ring))
  }

  method ComputeRingCentroid(ring: Ring) returns (r: Option<Weighted>)
    ensures r == RingCentroid(ring)
  {
    var points := UnwrapRing(ring);
    if |points| < 4 {
      return None;
    }
    var twiceArea, lonSum, latSum := Totals(points);
    if Abs(twiceArea) <= EPSILON {
      return None;
    }
    r := Some(Weighted(lonSum / (3.0 * twiceArea), latSum / (3.0 * twiceArea), Abs(twiceArea) / 2.0));
  }

  // ---------------------------------------------------------------- polygons

  /** The weighted sums after the first `n` rings; the first ring is the exterior. */
  function Net(polygon: seq<Ring>, exterior: Weighted, n: nat): Weighted
    requires 1 <= n <= |polygon|
  {
    if n == 1 then Weighted(exterior.lon * exterior.area, exterior.lat * exterior.area, exterior.area)
    else Subtract(Net(polygon, exterior, n - 1), RingCentroid(polygon[n - 1]), exterior.lon)
  }

  function Subtract(sums: Weighted, hole: Option<Weighted>, reference: real): Weighted {
    match hole
    case None => sums
    case Some(h) => SubtractAligned(sums, h, Align(h.lon, reference))
  }

  function SubtractAligned(sums: Weighted, hole: Weighted, longitude: real): Weighted {
    Weighted(sums.lon - longitude * hole.area, sums.lat - hole.lat * hole.area, sums.area - hole.area)
  }

  function Mean(sums: Weighted): Weighted
    requires sums.area != 0.0
  {
    Weighted(sums.lon / sums.area, sums.lat / sums.area, sums.area)
  }

  function PolygonCentroid(polygon: seq<Ring>): (r: Result<Weighted, Error>)
    ensures r.Ok? ==> r.value.area > EPSILON
  {
    if polygon == [] then Err(NoRings)
    else
      match RingCentroid(polygon[0])
      case None => Err(ZeroAreaExterior)
      case Some(exterior) =>
        var sums := Net(polygon, exterior, |polygon|);
        if sums.area <= EPSILON then Err(NoPositiveArea) else Ok(Mean(sums))
  }

  method ComputePolygonCentroid(polygon: seq<Ring>) returns (r: Result<Weighted, Error>)
    ensures r == PolygonCentroid(polygon)
  {
    if polygon == [] {
      return Err(NoRings);
    }
    var first := ComputeRingCentroid(polygon[0]);
    if first == None {
      return Err(ZeroAreaExterior);
    }
    var exterior := first.value;
    var sums := Weighted(exterior.lon * exterior.area, exterior.lat * exterior.area, exterior.area);
    for i := 1 to |polygon|
      invariant sums == Net(polygon, exterior, i)
    {
      var hole := ComputeRingCentroid(polygon[i]);
      if hole.Some? {
        var holeLongitude := AlignLongitude(hole.value.lon, exterior.lon);
        sums := SubtractAligned(sums, hole.value, holeLongitude);
      }
    }
    if sums.area <= EPSILON {
      return Err(NoPositiveArea);
    }
    r := Ok(Weighted(sums.lon / sums.area, sums.lat / sums.area, sums.area));
  }

  // ---------------------------------------------------------------- geometries

  function PartCentroids(polygons: seq<seq<Ring>>): (r: Result<seq<Weighted>, Error>)
    ensures r.Ok? ==> |r.value| == |polygons|
    ensures r.Ok? ==> forall i | 0 <= i < |polygons| :: PolygonCentroid(polygons[i]) == Ok(r.value[i])
  {
    if polygons == [] then Ok([])
    else
      var n := |polygons| - 1;
      var parts :- PartCentroids(polygons[..n]);
      var part :- PolygonCentroid(polygons[n]);
      Ok(parts + [part])
  }

  /** The weighted sums over the first `n` parts. */
  function PartSums(parts: seq<Weighted>, n: nat): Weighted
    requires 0 < |parts| && n <= |parts|
  {
    if n == 0 then Weighted(0.0, 0.0, 0.0)
    else Add(PartSums(parts, n - 1), parts[n - 1], parts[0].lon)
  }

  function Add(sums: Weighted, part: Weighted, reference: real): Weighted {
    AddAligned(sums, part, Align(part.lon, reference))
  }

  function AddAligned(sums: Weighted, part: Weighted, longitude: real): Weighted {
    Weighted(sums.lon + longitude * part.area, sums.lat + part.lat * part.area, sums.area + part.area)
  }

  lemma {:induction false} PartSumsArePositive(parts: seq<Weighted>, n: nat)
    requires 0 < n <= |parts| && forall part <- parts :: part.area > EPSILON
    ensures PartSums(parts, n).area > EPSILON
  {
    if n > 1 {
      PartSumsArePositive(parts, n - 1);
    }
  }

  /** The centroid before its longitude is normalized. */
  function RawCentroid(geometry: Geometry): Result<Weighted, Error> {
    match geometry
    case Polygon(rings) => PolygonCentroid(rings)
    case MultiPolygon(polygons) =>
      var parts :- PartCentroids(polygons);
      if parts == [] then Err(NoPolygons)
      else
        PartSumsArePositive(parts, |parts|);
        Ok(Mean(PartSums(parts, |parts|)))
    case _ => Err(UnsupportedType)
  }

  function GeometryCentroid(geometry: Geometry): (r: Result<Point, Error>)
    ensures r.Ok? ==> -180.0 <= r.value.lon <= 180.0 && -90.0 <= r.value.lat <= 90.0
  {
    var raw :- RawCentroid(geometry);
    var longitude := Normalize(raw.lon);
    if -180.0 <= longitude <= 180.0 && -90.0 <= raw.lat <= 90.0 then Ok(Point(longitude, raw.lat))
    else Err(OutsideWgs84)
  }

  lemma {:induction false} PartCentroidsFailEarly(polygons: seq<seq<Ring>>, n: nat)
    requires n <= |polygons| && PartCentroids(polygons[..n]).Err?
    ensures PartCentroids(polygons) == PartCentroids(polygons[..n])
    decreases |polygons| - n
  {
    if n < |polygons| {
      assert polygons[..n + 1][..n] == polygons[..n];
      PartCentroidsFailEarly(polygons, n + 1);
    } else {
      assert polygons[..n] == polygons;
    }
  }

  method ComputeParts(polygons: seq<seq<Ring>>) returns (r: Result<seq<Weighted>, Error>)
    ensures r == PartCentroids(polygons)
  {
    var parts: seq<Weighted> := [];
    for i := 0 to |polygons|
      invariant PartCentroids(polygons[..i]) == Ok(parts)
    {
      assert polygons[..i + 1][..i] == polygons[..i];
      var part := ComputePolygonCentroid(polygons[i]);
      if part.Err? {
        PartCentroidsFailEarly(polygons, i + 1);
        return Err(part.error);
      }
      parts := parts + [part.value];
    }
    assert polygons[..|polygons|] == polygons;
    r := Ok(parts);
  }

  method ComputePartSums(parts: seq<Weighted>) returns (sums: Weighted)
    requires parts != []
    ensures sums == PartSums(parts, |parts|)
  {
    sums := Weighted(0.0, 0.0, 0.0);
    for i := 0 to |parts|
      invariant sums == PartSums(parts, i)
    {
      var longitude := AlignLongitude(parts[i].lon, parts[0].lon);
      sums := AddAligned(sums, parts[i], longitude);
    }
  }

  method ComputeGeometryCentroid(geometry: Geometry) returns (r: Result<Point, Error>)
    ensures r == GeometryCentroid(geometry)
  {
    var raw: Result<Weighted, Error>;
    match geometry {
      case Polygon(rings) =>
        raw := ComputePolygonCentroid(rings);
      case MultiPolygon(polygons) =>
        var parts := ComputeParts(polygons);
        if parts.Err? {
          return Err(parts.error);
        }
        if parts.value == [] {
          return Err(NoPolygons);
        }
        var sums := ComputePartSums(parts.value);
        PartSumsArePositive(parts.value, |parts.value|);
        raw := Ok(Mean(sums));
      case _ =>
        raw := Err(UnsupportedType);
    }
    if raw.Err? {
      return Err(raw.error);
    }
    var longitude := Normalize(raw.value.lon);
    if !(-180.0 <= longitude <= 180.0 && -90.0 <= raw.value.lat <= 90.0) {
      return Err(OutsideWgs84);
    }
    r := Ok(Point(longitude, raw.value.lat));
  }

  // ---------------------------------------------------------------- moving a ring

  function Move(w: Weighted, dx: real, dy: real): Weighted {
    Weighted(w.lon + dx, w.lat + dy, w.area)
  }

  function MoveOption(w: Option<Weighted>, dx: real, dy: real): Option<Weighted> {
    if w.Some? then Some(Move(w.value, dx, dy)) else None
  }

  lemma QuotientMoves(sum: real, d: real, area: real)
    requires area != 0.0
    ensures (sum + d * area) / area == sum / area + d
  {
    var q := sum / area;
    assert sum == q * area;
    assert sum + d * area == (q + d) * area;
  }

  /** The centroid of a closed chain moves with it, and its area stays. */
  lemma ChainCentroidMoves(pts: seq<Point>, dx: real, dy: real)
    requires pts == [] || IsClosed(pts)
    ensures ChainCentroid(TranslateAll(pts, dx, dy)) == MoveOption(ChainCentroid(pts), dx, dy)
  {
    hide Total;
    if pts != [] {
      ClosedTranslation(pts, dx, dy);
      var twiceArea := Total(Area, pts);
      if Abs(twiceArea) > EPSILON {
        var scale := 3.0 * twiceArea;
        QuotientMoves(Total(Lon, pts), dx, scale);
        QuotientMoves(Total(Lat, pts), dy, scale);
        var moved := TranslateAll(pts, dx, dy);
        assert Total(Lon, moved) / scale == Total(Lon, pts) / scale + dx;
        assert Total(Lat, moved) / scale == Total(Lat, pts) / scale + dy;
      }
    }
  }

  lemma CloseMoves(u: Ring, dx: real, dy: real)
    ensures Close(TranslateAll(u, dx, dy)) == TranslateAll(Close(u), dx, dy)
  {
    if u != [] && u[0] != u[|u| - 1] {
      var n := |u| - 1;
      assert Translate(u[0], dx, dy) != Translate(u[n], dx, dy) by {
        assert Translate(u[0], dx, dy).lon - dx == u[0].lon && Translate(u[0], dx, dy).lat - dy == u[0].lat;
      }
    }
  }

  lemma AlignMoves(longitude: real, reference: real, d: real)
    ensures Align(longitude + d, reference + d) == Align(longitude, reference) + d
  {
    assert (longitude + d) - (reference + d) == longitude - reference;
  }

  lemma {:induction false} UnwrapMoves(ring: Ring, dx: real, dy: real)
    ensures UnwrapOpen(TranslateAll(ring, dx, dy)) == TranslateAll(UnwrapOpen(ring), dx, dy)
    decreases |ring|
  {
    if |ring| > 1 {
      var n := |ring| - 1;
      UnwrapMoves(ring[..n], dx, dy);
      assert TranslateAll(ring, dx, dy)[..n] == TranslateAll(ring[..n], dx, dy);
      AlignMoves(ring[n].lon, UnwrapOpen(ring[..n])[n - 1].lon, dx);
    }
  }

  /** Moving every vertex of any ring moves its centroid along and keeps its area. */
  lemma RingCentroidMoves(ring: Ring, dx: real, dy: real)
    ensures RingCentroid(TranslateAll(ring, dx, dy)) == MoveOption(RingCentroid(ring), dx, dy)
  {
    UnwrapMoves(ring, dx, dy);
    CloseMoves(UnwrapOpen(ring), dx, dy);
    ChainCentroidMoves(Unwrapped(ring), dx, dy);
  }

  // ---------------------------------------------------------------- longitudes modulo turns

  /** The same ring, with some longitudes written differently. */
  predicate SameRing(a: Ring, b: Ring) {
    |a| == |b| && forall i | 0 <= i < |a| :: a[i].lat == b[i].lat && IsTurns(b[i].lon - a[i].lon)
  }

  /** No edge spans exactly half a turn, so every edge has one shorter way round. */
  predicate NoHalfTurnEdge(ring: Ring) {
    forall i | 0 < i < |ring| :: !IsHalfTurn(ring[i].lon - ring[i - 1].lon)
  }

  lemma AlignedHalfTurn(a: real, r: real)
    requires Align(a, r) - r == 180.0 || Align(a, r) - r == -180.0
    ensures IsHalfTurn(a - r)
  {
    AlignIsNear(a, r);
    var x := Align(a, r) - r;
    TurnsAreTurns(x - 180.0, if x == 180.0 then 0 else -1);
    TurnsAdd(x - 180.0, Align(a, r) - a);
    assert (x - 180.0) - (Align(a, r) - a) == a - r - 180.0;
  }

  /** Aligning depends on the longitude and the reference only modulo turns. */
  lemma AlignModuloTurns(a: real, r: real, b: real, s: real)
    requires IsTurns(b - a) && IsTurns(s - r) && !IsHalfTurn(a - r)
    ensures Align(b, s) - s == Align(a, r) - r
  {
    AlignIsNear(a, r);
    AlignIsNear(b, s);
    var x, y := Align(a, r) - r, Align(b, s) - s;
    TurnsAdd(Align(b, s) - b, b - a);
    TurnsAdd(Align(b, s) - a, Align(a, r) - a);
    TurnsAdd(Align(b, s) - Align(a, r), s - r);
    assert y - x == (Align(b, s) - Align(a, r)) - (s - r);
    if x == 180.0 || x == -180.0 {
      AlignedHalfTurn(a, r);
      assert false;
    }
    TurnsAdd(x - x, y - x);
    NearIsUnique(x, y);
  }

  lemma {:induction false} UnwrapKeepsMeridians(ring: Ring, i: nat)
    requires i < |ring|
    ensures IsTurns(UnwrapOpen(ring)[i].lon - ring[i].lon) && UnwrapOpen(ring)[i].lat == ring[i].lat
    decreases |ring|
  {
    var n := |ring| - 1;
    if n == 0 {
      TurnsAreTurns(0.0, 0);
    } else if i < n {
      UnwrapKeepsMeridians(ring[..n], i);
    } else {
      AlignIsNear(ring[n].lon, UnwrapOpen(ring[..n])[n - 1].lon);
    }
  }

  lemma HalfTurnModuloTurns(d: real, e: real)
    requires IsTurns(e - d)
    ensures IsHalfTurn(d) ==> IsHalfTurn(e)
  {
    if IsHalfTurn(d) {
      TurnsAdd(d - 180.0, e - d);
      assert (d - 180.0) + (e - d) == e - 180.0;
    }
  }

  /** One step of unwrapping two writings of a ring whose unwrapped chains differ by `t` so far:
      vertex longitudes `a0`, `a1` and `b1`, with `p` the unwrapped form of `a0`. */
  lemma NextAligns(a0: real, a1: real, p: real, b1: real, t: real)
    requires IsTurns(p - a0) && IsTurns(b1 - a1) && IsTurns(t) && !IsHalfTurn(a1 - a0)
    ensures Align(b1, p + t) == Align(a1, p) + t
  {
    HalfTurnModuloTurns(a1 - p, a1 - a0);
    assert (p + t) - p == t;
    AlignModuloTurns(a1, p, b1, p + t);
  }

  lemma NoHalfTurnOfPrefix(ring: Ring)
    requires NoHalfTurnEdge(ring) && |ring| > 1
    ensures var n := |ring| - 1; NoHalfTurnEdge(ring[..n]) && !IsHalfTurn(ring[n].lon - ring[n - 1].lon)
  {
    hide IsHalfTurn;
  }

  /** However a ring's longitudes are written, unwrapping gives the same chain, up to the
      writing of its first vertex. */
  lemma {:induction false} UnwrapModuloTurns(a: Ring, b: Ring)
    requires SameRing(a, b) && NoHalfTurnEdge(a) && a != []
    ensures UnwrapOpen(b) == TranslateAll(UnwrapOpen(a), b[0].lon - a[0].lon, 0.0)
    decreases |a|
  {
    if |a| > 1 {
      var n := |a| - 1;
      var u, v := UnwrapOpen(a[..n]), UnwrapOpen(b[..n]);
      var t := b[0].lon - a[0].lon;
      NoHalfTurnOfPrefix(a);
      hide NoHalfTurnEdge, Align, IsTurns, IsHalfTurn;
      UnwrapModuloTurns(a[..n], b[..n]);
      UnwrapKeepsMeridians(a[..n], n - 1);
      NextAligns(a[n - 1].lon, a[n].lon, u[n - 1].lon, b[n].lon, t);
      var x, y := Align(a[n].lon, u[n - 1].lon), Align(b[n].lon, v[n - 1].lon);
      assert y == x + t;
      assert UnwrapOpen(b) == v + [Point(y, b[n].lat)];
      assert UnwrapOpen(a) == u + [Point(x, a[n].lat)];
    }
  }

  /** Unwrapping gives one chain for every writing of the longitudes, up to the writing of the
      first vertex. */
  ghost predicate UnwrapsModuloTurns(a: Ring)
    requires a != []
  {
    forall b: Ring | SameRing(a, b) :: UnwrapsAs(a, b)
  }

  predicate UnwrapsAs(a: Ring, b: Ring) {
    a != [] && b != [] && UnwrapOpen(b) == TranslateAll(UnwrapOpen(a), b[0].lon - a[0].lon, 0.0)
  }

  lemma {:induction false} UnwrapOfPrefix(ring: Ring, n: nat)
    requires n <= |ring|
    ensures UnwrapOpen(ring)[..n] == UnwrapOpen(ring[..n])
    decreases |ring|
  {
    if n < |ring| {
      hide Align;
      var front := ring[..|ring| - 1];
      UnwrapOfPrefix(front, n);
      assert front[..n] == ring[..n];
    } else {
      assert ring[..n] == ring;
    }
  }

  /** The ring with vertex `i` written on the other side of the vertex before it. */
  function Flipped(a: Ring, i: nat): Ring
    requires 0 < i < |a|
  {
    a[i := Point(2.0 * UnwrapOpen(a)[i - 1].lon - a[i].lon, a[i].lat)]
  }

  lemma FlipAligns(x: real, p: real)
    requires IsHalfTurn(x - p)
    ensures Align(2.0 * p - x, p) != Align(x, p) && IsTurns((2.0 * p - x) - x)
  {
    var m := ((x - p - 180.0) / 360.0).Floor;
    TurnsAreTurns((2.0 * p - x) - x, -2 * m - 1);
    HalfTurnAligns(x, p, m);
    HalfTurnAligns(2.0 * p - x, p, -m - 1);
  }

  lemma FlippedUnwrapsOtherwise(a: Ring, i: nat)
    requires 0 < i < |a| && IsHalfTurn(a[i].lon - a[i - 1].lon)
    ensures SameRing(a, Flipped(a, i)) && UnwrapOpen(Flipped(a, i)) != UnwrapOpen(a)
  {
    hide Align, IsTurns, IsHalfTurn, UnwrapOpen;
    var b, u := Flipped(a, i), UnwrapOpen(a);
    UnwrapKeepsMeridians(a, i - 1);
    UnwrapOfPrefix(a, i);
    UnwrapOfPrefix(b, i);
    var p := u[i - 1].lon;
    assert b[..i] == a[..i];
    assert UnwrapOpen(b)[..i][i - 1] == u[..i][i - 1];
    UnwrappedStep(a, i);
    UnwrappedStep(b, i);
    HalfTurnFrom(a[i].lon, p, a[i - 1].lon);
    FlipAligns(a[i].lon, p);
    FlippedIsSame(a, i);
  }

  lemma FlippedIsSame(a: Ring, i: nat)
    requires 0 < i < |a| && IsTurns(Flipped(a, i)[i].lon - a[i].lon)
    ensures SameRing(a, Flipped(a, i))
  {
    hide IsTurns, UnwrapOpen;
    TurnsAreTurns(0.0, 0);
  }

  lemma HalfTurnFrom(x: real, p: real, x0: real)
    requires IsHalfTurn(x - x0) && IsTurns(p - x0)
    ensures IsHalfTurn(x - p)
  {
    TurnsAdd((x - x0) - 180.0, p - x0);
    assert (x - p) - 180.0 == ((x - x0) - 180.0) - (p - x0);
  }

  lemma HalfTurnEdge(a: Ring) returns (i: nat)
    requires !NoHalfTurnEdge(a)
    ensures 0 < i < |a| && IsHalfTurn(a[i].lon - a[i - 1].lon)
  {
    hide IsHalfTurn;
    i :| 0 < i < |a| && IsHalfTurn(a[i].lon - a[i - 1].lon);
  }

  lemma UnwrapsLike(a: Ring, b: Ring)
    requires a != [] && SameRing(a, b) && NoHalfTurnEdge(a)
    ensures UnwrapsAs(a, b)
  {
    UnwrapModuloTurns(a, b);
  }

  lemma FlippedUnwrapsUnlike(a: Ring, i: nat)
    requires 0 < i < |a| && IsHalfTurn(a[i].lon - a[i - 1].lon)
    ensures SameRing(a, Flipped(a, i)) && !UnwrapsAs(a, Flipped(a, i))
  {
    FlippedUnwrapsOtherwise(a, i);
    hide UnwrapOpen, IsHalfTurn, IsTurns, SameRing;
    assert TranslateAll(UnwrapOpen(a), 0.0, 0.0) == UnwrapOpen(a);
  }

  /** The way a ring's longitudes are written does not matter exactly if no edge spans half a turn. */
  lemma UnwrapsModuloTurnsIff(a: Ring)
    requires a != []
    ensures UnwrapsModuloTurns(a) <==> NoHalfTurnEdge(a)
  {
    hide UnwrapOpen, IsHalfTurn, IsTurns, UnwrapsAs, Flipped, SameRing, NoHalfTurnEdge;
    if NoHalfTurnEdge(a) {
      forall b: Ring | SameRing(a, b)
        ensures UnwrapsAs(a, b)
      {
        UnwrapsLike(a, b);
      }
    } else {
      var i := HalfTurnEdge(a);
      FlippedUnwrapsUnlike(a, i);
    }
  }

  /** The centroid of a ring depends on its longitudes only modulo turns. */
  lemma RingCentroidModuloTurns(a: Ring, b: Ring)
    requires SameRing(a, b) && NoHalfTurnEdge(a) && a != []
    ensures RingCentroid(b) == MoveOption(RingCentroid(a), b[0].lon - a[0].lon, 0.0)
  {
    var t := b[0].lon - a[0].lon;
    UnwrapModuloTurns(a, b);
    CloseMoves(UnwrapOpen(a), t, 0.0);
    ChainCentroidMoves(Unwrapped(a), t, 0.0);
  }

  // ---------------------------------------------------------------- the direction of a ring

  /** A chain whose every vertex is the ring's, aligned to the one before it in the chain. */
  predicate Chains(ring: Ring, w: Ring)
    requires |w| == |ring|
  {
    forall i | 0 < i < |ring| :: ChainsAt(ring, w, i)
  }

  predicate ChainsAt(ring: Ring, w: Ring, i: nat)
    requires |w| == |ring| && 0 < i < |ring|
  {
    w[i] == Point(Align(ring[i].lon, w[i - 1].lon), ring[i].lat)
  }

  lemma ChainsLonger(ring: Ring, w: Ring)
    requires |w| == |ring| > 1
    ensures var n := |ring| - 1;
            Chains(ring, w) <==> Chains(ring[..n], w[..n]) && ChainsAt(ring, w, n)
  {
    hide Align;
    var n := |ring| - 1;
    forall i | 0 < i < n
      ensures ChainsAt(ring, w, i) <==> ChainsAt(ring[..n], w[..n], i)
    {
    }
  }

  /** The unwrapped ring is the one chain that starts at the ring's first vertex. */
  lemma {:induction false} UnwrapIsTheChain(ring: Ring, w: Ring)
    requires |w| == |ring| && (ring != [] ==> w[0] == ring[0])
    ensures UnwrapOpen(ring) == w <==> Chains(ring, w)
    decreases |ring|
  {
    if |ring| > 1 {
      hide Align, Chains;
      var n := |ring| - 1;
      ChainsLonger(ring, w);
      UnwrapIsTheChain(ring[..n], w[..n]);
      assert w == w[..n] + [w[n]];
      if UnwrapOpen(ring) == w {
        assert UnwrapOpen(ring)[..n] == UnwrapOpen(ring[..n]);
      }
    } else {
      assert w == ring;
    }
  }

  /** A chain over the ring's meridians whose steps are all shorter than half a turn is the
      unwrapped ring. */
  lemma UnwrapIsUnique(ring: Ring, w: Ring)
    requires |w| == |ring| && (ring != [] ==> w[0] == ring[0])
    requires forall i | 0 <= i < |ring| :: w[i].lat == ring[i].lat && IsTurns(w[i].lon - ring[i].lon)
    requires forall i | 0 < i < |ring| :: -180.0 < w[i].lon - w[i - 1].lon < 180.0
    ensures UnwrapOpen(ring) == w
  {
    hide Align, IsTurns, UnwrapOpen;
    forall i | 0 < i < |ring|
      ensures ChainsAt(ring, w, i)
    {
      assert IsTurns(w[i].lon - ring[i].lon);
      ShortStepAligns(ring[i].lon, w[i - 1].lon, w[i].lon);
    }
    UnwrapIsTheChain(ring, w);
  }

  lemma ShortStepAligns(a: real, reference: real, b: real)
    requires IsTurns(b - a) && -180.0 < b - reference < 180.0
    ensures Align(a, reference) == b
  {
    AlignIsNear(a, reference);
    TurnsAdd(b - a, Align(a, reference) - a);
    assert (b - a) - (Align(a, reference) - a) == (b - reference) - (Align(a, reference) - reference);
    NearIsUnique(b - reference, Align(a, reference) - reference);
  }

  lemma AlignedStepIsShort(a0: real, a1: real, p: real)
    requires IsTurns(p - a0) && !IsHalfTurn(a1 - a0)
    ensures -180.0 < Align(a1, p) - p < 180.0
  {
    AlignIsNear(a1, p);
    if Align(a1, p) - p == 180.0 || Align(a1, p) - p == -180.0 {
      AlignedHalfTurn(a1, p);
      HalfTurnModuloTurns(a1 - p, a1 - a0);
      assert false;
    }
  }

  lemma {:induction false} UnwrappedStepIsShort(ring: Ring, i: nat)
    requires NoHalfTurnEdge(ring) && 0 < i < |ring|
    ensures -180.0 < UnwrapOpen(ring)[i].lon - UnwrapOpen(ring)[i - 1].lon < 180.0
    decreases |ring|
  {
    hide IsTurns, Align;
    var n := |ring| - 1;
    if i < n {
      UnwrappedStepIsShort(ring[..n], i);
    } else {
      UnwrapKeepsMeridians(ring[..n], n - 1);
      AlignedStepIsShort(ring[n - 1].lon, ring[n].lon, UnwrapOpen(ring[..n])[n - 1].lon);
    }
  }

  lemma MeridianShifts(x: real, y: real, c: real)
    requires IsTurns(x - y) && IsTurns(c)
    ensures IsTurns((x + c) - y)
  {
    TurnsAdd(x - y, c);
    assert (x - y) + c == (x + c) - y;
  }

  /** How far the last vertex lies from where unwrapping takes it: whole turns. */
  function Overshoot(ring: Ring): (t: real)
    ensures IsTurns(t)
  {
    if ring == [] then TurnsAreTurns(0.0, 0); 0.0
    else
      var n := |ring| - 1;
      UnwrapKeepsMeridians(ring, n);
      TurnsAdd(UnwrapOpen(ring)[n].lon - ring[n].lon, UnwrapOpen(ring)[n].lon - ring[n].lon);
      assert ring[n].lon - UnwrapOpen(ring)[n].lon == -(UnwrapOpen(ring)[n].lon - ring[n].lon);
      ring[n].lon - UnwrapOpen(ring)[n].lon
  }

  /** Walked backwards, the edge before vertex `i` goes back the way it came.  Only an edge of
      exactly half a turn can fail: its first vertex, which is then aligned to its second, must
      be written on the side it came from. */
  predicate EdgeReverses(ring: Ring, i: nat)
    requires 0 < i < |ring|
  {
    var u := UnwrapOpen(ring);
    var step, shift := u[i].lon - u[i - 1].lon, ring[i - 1].lon - u[i - 1].lon;
    (step == 180.0 ==> shift <= Overshoot(ring)) && (step == -180.0 ==> shift >= Overshoot(ring))
  }

  predicate EdgesReverse(ring: Ring) {
    forall i | 0 < i < |ring| :: EdgeReverses(ring, i)
  }

  lemma ShortEdgesReverse(ring: Ring)
    requires NoHalfTurnEdge(ring)
    ensures EdgesReverse(ring)
  {
    hide NoHalfTurnEdge, UnwrapOpen, Overshoot;
    forall i | 0 < i < |ring|
      ensures EdgeReverses(ring, i)
    {
      UnwrappedStepIsShort(ring, i);
    }
  }

  /** From `b` back to `a`, with `r` the longitude of `b` and `x` how `a` is written. */
  lemma AlignsBack(x: real, r: real, a: real)
    requires IsTurns(x - a) && -180.0 <= a - r <= 180.0
    ensures Align(x, r) == a <==> (r - a == 180.0 ==> x <= a) && (r - a == -180.0 ==> x >= a)
  {
    if -180.0 < a - r < 180.0 {
      NegativeTurns(x, a);
      ShortStepAligns(x, r, a);
    } else {
      var k := ((x - a) / 360.0).Floor;
      HalfTurnAligns(x, r, if a > r then k else k - 1);
    }
  }

  lemma CeilingOf(y: real, k: int)
    requires y == k as real
    ensures Ceiling(y) == k
  {
  }

  /** At exactly half a turn, a longitude is aligned to the side of the reference it is written on. */
  lemma HalfTurnAligns(x: real, r: real, m: int)
    requires x - r == 180.0 + 360.0 * m as real
    ensures Align(x, r) == if x > r then r + 180.0 else r - 180.0
    ensures x > r <==> m >= 0
  {
    hide Ceiling;
    if m >= 1 {
      CeilingOf((x - r - 180.0) / 360.0, m);
    } else if m <= -2 {
      CeilingOf((-180.0 - (x - r)) / 360.0, -m - 1);
    }
  }

  lemma BackwardsStep(ring: Ring, i: nat)
    requires 0 < i < |ring|
    ensures var u, c := UnwrapOpen(ring), Overshoot(ring);
            Align(ring[i - 1].lon, u[i].lon + c) == u[i - 1].lon + c <==> EdgeReverses(ring, i)
  {
    hide Align, IsTurns, UnwrapOpen, Overshoot;
    var u, c := UnwrapOpen(ring), Overshoot(ring);
    UnwrapKeepsMeridians(ring, i - 1);
    UnwrappedStep(ring, i);
    AlignIsNear(ring[i].lon, u[i - 1].lon);
    StepBack(ring[i - 1].lon, u[i - 1].lon, u[i].lon, c);
  }

  lemma StepBack(x: real, p: real, q: real, c: real)
    requires IsTurns(p - x) && IsTurns(c) && -180.0 <= q - p <= 180.0
    ensures Align(x, q + c) == p + c <==> (q - p == 180.0 ==> x - p <= c) && (q - p == -180.0 ==> x - p >= c)
  {
    MeridianShifts(p, x, c);
    NegativeTurns(p + c, x);
    hide Align, IsTurns;
    AlignsBack(x, q + c, p + c);
  }

  lemma NegativeTurns(a: real, b: real)
    requires IsTurns(a - b)
    ensures IsTurns(b - a)
  {
    TurnsAdd(a - b, a - b);
    assert -(a - b) == b - a;
  }

  lemma UnwrappedStep(ring: Ring, i: nat)
    requires 0 < i < |ring|
    ensures UnwrapOpen(ring)[i].lon == Align(ring[i].lon, UnwrapOpen(ring)[i - 1].lon)
  {
    hide UnwrapOpen, Align;
    UnwrapIsTheChain(ring, UnwrapOpen(ring));
    assert ChainsAt(ring, UnwrapOpen(ring), i);
  }

  /** Unwrapping the reversed ring gives the reversed unwrapped ring, written from its new start,
      exactly if every edge goes back the way it came. */
  lemma UnwrapReversesIff(ring: Ring)
    ensures UnwrapOpen(Reverse(ring)) == TranslateAll(Reverse(UnwrapOpen(ring)), Overshoot(ring), 0.0)
            <==> EdgesReverse(ring)
  {
    if ring == [] {
      return;
    }
    hide IsTurns, UnwrapOpen, EdgeReverses, ChainsAt, Align, Chains, EdgesReverse;
    var n, w := |ring| - 1, TranslateAll(Reverse(UnwrapOpen(ring)), Overshoot(ring), 0.0);
    assert w[0] == ring[n] by {
      UnwrapKeepsMeridians(ring, n);
    }
    hide Overshoot;
    UnwrapIsTheChain(Reverse(ring), w);
    forall k | 0 < k < |ring|
      ensures ChainsAt(Reverse(ring), w, k) <==> EdgeReverses(ring, |ring| - k)
    {
      ChainsBackwards(ring, |ring| - k);
    }
    BackwardsSteps(ring, w);
  }

  lemma ChainsBackwards(ring: Ring, i: nat)
    requires 0 < i < |ring|
    ensures ChainsAt(Reverse(ring), TranslateAll(Reverse(UnwrapOpen(ring)), Overshoot(ring), 0.0), |ring| - i)
            <==> EdgeReverses(ring, i)
  {
    hide *;
    var u, c := UnwrapOpen(ring), Overshoot(ring);
    UnwrapKeepsMeridians(ring, i - 1);
    StepOfReversed(ring, u, c, i);
    BackwardsStep(ring, i);
  }

  lemma StepOfReversed(ring: Ring, u: Ring, c: real, i: nat)
    requires 0 < i < |ring| == |u| && u[i - 1].lat == ring[i - 1].lat
    ensures ChainsAt(Reverse(ring), TranslateAll(Reverse(u), c, 0.0), |ring| - i)
            <==> Align(ring[i - 1].lon, u[i].lon + c) == u[i - 1].lon + c
  {
    hide Align;
  }

  lemma BackwardsSteps(ring: Ring, w: Ring)
    requires |w| == |ring|
    requires forall k | 0 < k < |ring| :: ChainsAt(Reverse(ring), w, k) <==> EdgeReverses(ring, |ring| - k)
    ensures Chains(Reverse(ring), w) <==> EdgesReverse(ring)
  {
    hide EdgeReverses, ChainsAt;
    if Chains(Reverse(ring), w) {
      forall i | 0 < i < |ring|
        ensures EdgeReverses(ring, i)
      {
        assert ChainsAt(Reverse(ring), w, |ring| - i);
      }
    }
  }

  lemma CloseReversed(m: Moment, u: Ring)
    ensures Total(m, Close(Reverse(u))) == -Total(m, Close(u))
    ensures |Close(Reverse(u))| == |Close(u)|
  {
    hide Total;
    TotalReversed(m, u);
    if u == [] {
      assert Reverse(u) == u;
    } else {
      var n := |u| - 1;
      if u[0] != u[n] {
        TotalAppended(m, Reverse(u), Reverse(u)[0]);
        TotalAppended(m, u, u[0]);
        EdgeReversed(m, u[0], u[n]);
      }
    }
  }

  lemma QuotientOfNegatives(a: real, b: real)
    requires b != 0.0
    ensures -b != 0.0 && (-a) / (-b) == a / b
  {
    var q := a / b;
    assert a == q * b;
    assert -a == q * (-b);
  }

  lemma ChainCentroidReversed(u: Ring)
    ensures ChainCentroid(Close(Reverse(u))) == ChainCentroid(Close(u))
  {
    hide Total, Close;
    CloseReversed(Area, u);
    CloseReversed(Lon, u);
    CloseReversed(Lat, u);
    var pts := Close(u);
    var twiceArea := Total(Area, pts);
    if Abs(twiceArea) > EPSILON {
      QuotientOfNegatives(Total(Lon, pts), 3.0 * twiceArea);
      QuotientOfNegatives(Total(Lat, pts), 3.0 * twiceArea);
    }
  }

  /** Listing a ring whose edges go back the way they came in the other direction keeps its area, and its centroid up to the whole turns
      by which its last vertex is written elsewhere than unwrapping takes it. */
  lemma RingCentroidReversed(ring: Ring)
    requires EdgesReverse(ring)
    ensures RingCentroid(Reverse(ring)) == MoveOption(RingCentroid(ring), Overshoot(ring), 0.0)
  {
    UnwrapReversesIff(ring);
    hide EdgesReverse;
    var u := UnwrapOpen(ring);
    CloseMoves(Reverse(u), Overshoot(ring), 0.0);
    ChainCentroidMoves(Close(Reverse(u)), Overshoot(ring), 0.0);
    ChainCentroidReversed(u);
  }

  /** A closed ring that comes back to the longitude it set out from, so does not go round a pole. */
  predicate ReturnsHome(ring: Ring) {
    IsClosed(ring) && UnwrapOpen(ring)[|ring| - 1].lon == ring[0].lon
  }

  /** Of a closed ring that does not go round the globe, the direction does not matter at all. */
  lemma ClosedRingReversed(ring: Ring)
    requires EdgesReverse(ring) && ReturnsHome(ring)
    ensures RingCentroid(Reverse(ring)) == RingCentroid(ring)
  {
    RingCentroidReversed(ring);
  }

  // ---------------------------------------------------------------- moving polygons and geometries

  /** A hole moves with its exterior: it stays absent or present, and its aligned longitude,
      latitude and area follow. */
  predicate HoleFollows(hole: Option<Weighted>, hole': Option<Weighted>, reference: real, dx: real, dy: real) {
    hole.Some? == hole'.Some?
    && (hole.Some? ==>
          hole'.value.area == hole.value.area
          && hole'.value.lat == hole.value.lat + dy
          && Align(hole'.value.lon, reference + dx) == Align(hole.value.lon, reference) + dx)
  }

  /** Weighted sums of a figure and of the same figure moved. */
  predicate SumsMoved(sums: Weighted, sums': Weighted, dx: real, dy: real) {
    sums'.lon == sums.lon + dx * sums.area && sums'.lat == sums.lat + dy * sums.area && sums'.area == sums.area
  }

  lemma SubtractMoves(sums: Weighted, sums': Weighted, hole: Option<Weighted>, hole': Option<Weighted>,
                      reference: real, dx: real, dy: real)
    requires SumsMoved(sums, sums', dx, dy) && HoleFollows(hole, hole', reference, dx, dy)
    ensures SumsMoved(Subtract(sums, hole, reference), Subtract(sums', hole', reference + dx), dx, dy)
  {
    hide Align;
    if hole.Some? {
      var x, area := Align(hole.value.lon, reference), hole.value.area;
      assert (x + dx) * area == x * area + dx * area;
      assert dx * (sums.area - area) == dx * sums.area - dx * area;
      assert dy * (sums.area - area) == dy * sums.area - dy * area;
    }
  }

  lemma MeanMoves(sums: Weighted, sums': Weighted, dx: real, dy: real)
    requires SumsMoved(sums, sums', dx, dy) && sums.area != 0.0
    ensures Mean(sums') == Move(Mean(sums), dx, dy)
  {
    QuotientMoves(sums.lon, dx, sums.area);
    QuotientMoves(sums.lat, dy, sums.area);
  }

  /** The exterior moves by (dx, dy) and every hole follows it. */
  predicate PolygonFollows(a: seq<Ring>, b: seq<Ring>, dx: real, dy: real) {
    |a| == |b|
    && (a != [] ==>
          RingCentroid(b[0]) == MoveOption(RingCentroid(a[0]), dx, dy)
          && (RingCentroid(a[0]).Some? ==>
                forall i | 0 < i < |a| ::
                  HoleFollows(RingCentroid(a[i]), RingCentroid(b[i]), RingCentroid(a[0]).value.lon, dx, dy)))
  }

  lemma {:induction false} NetMoves(a: seq<Ring>, b: seq<Ring>, dx: real, dy: real, n: nat)
    requires PolygonFollows(a, b, dx, dy) && 1 <= n <= |a| && RingCentroid(a[0]).Some?
    ensures SumsMoved(Net(a, RingCentroid(a[0]).value, n), Net(b, RingCentroid(b[0]).value, n), dx, dy)
  {
    hide RingCentroid, Subtract;
    if n > 1 {
      NetMoves(a, b, dx, dy, n - 1);
      var exterior := RingCentroid(a[0]).value;
      SubtractMoves(Net(a, exterior, n - 1), Net(b, RingCentroid(b[0]).value, n - 1), RingCentroid(a[n - 1]),
                    RingCentroid(b[n - 1]), exterior.lon, dx, dy);
    }
  }

  function MoveResult(r: Result<Weighted, Error>, dx: real, dy: real): Result<Weighted, Error> {
    if r.Ok? then Ok(Move(r.value, dx, dy)) else r
  }

  lemma PolygonCentroidMoves(a: seq<Ring>, b: seq<Ring>, dx: real, dy: real)
    requires PolygonFollows(a, b, dx, dy)
    ensures PolygonCentroid(b) == MoveResult(PolygonCentroid(a), dx, dy)
  {
    hide RingCentroid, Net;
    if a != [] && RingCentroid(a[0]).Some? {
      NetMoves(a, b, dx, dy, |a|);
      var sums := Net(a, RingCentroid(a[0]).value, |a|);
      if sums.area > EPSILON {
        MeanMoves(sums, Net(b, RingCentroid(b[0]).value, |a|), dx, dy);
      }
    }
  }

  function TranslateRings(polygon: seq<Ring>, dx: real, dy: real): seq<Ring> {
    seq(|polygon|, i requires 0 <= i < |polygon| => TranslateAll(polygon[i], dx, dy))
  }

  /** A polygon's centroid moves with the polygon, holes included. */
  lemma PolygonTranslates(polygon: seq<Ring>, dx: real, dy: real)
    ensures PolygonCentroid(TranslateRings(polygon, dx, dy)) == MoveResult(PolygonCentroid(polygon), dx, dy)
  {
    var moved := TranslateRings(polygon, dx, dy);
    forall i | 0 <= i < |polygon|
      ensures RingCentroid(moved[i]) == MoveOption(RingCentroid(polygon[i]), dx, dy)
    {
      RingCentroidMoves(polygon[i], dx, dy);
    }
    if polygon != [] && RingCentroid(polygon[0]).Some? {
      var reference := RingCentroid(polygon[0]).value.lon;
      forall i | 0 < i < |polygon|
        ensures HoleFollows(RingCentroid(polygon[i]), RingCentroid(moved[i]), reference, dx, dy)
      {
        hide Align;
        if RingCentroid(polygon[i]).Some? {
          AlignMoves(RingCentroid(polygon[i]).value.lon, reference, dx);
        }
      }
    }
    PolygonCentroidMoves(polygon, moved, dx, dy);
  }

  /** The parts move so that, aligned to the first of them, they all move by (dx, dy). */
  predicate PartsFollow(a: seq<Weighted>, b: seq<Weighted>, dx: real, dy: real) {
    |a| == |b| != 0
    && b[0] == Move(a[0], dx, dy)
    && forall i | 0 <= i < |a| :: HoleFollows(Some(a[i]), Some(b[i]), a[0].lon, dx, dy)
  }

  lemma AddMoves(sums: Weighted, sums': Weighted, part: Weighted, part': Weighted, reference: real, dx: real, dy: real)
    requires SumsMoved(sums, sums', dx, dy) && HoleFollows(Some(part), Some(part'), reference, dx, dy)
    ensures SumsMoved(Add(sums, part, reference), Add(sums', part', reference + dx), dx, dy)
  {
    hide Align;
    var x, area := Align(part.lon, reference), part.area;
    assert (x + dx) * area == x * area + dx * area;
    assert dx * (sums.area + area) == dx * sums.area + dx * area;
    assert dy * (sums.area + area) == dy * sums.area + dy * area;
  }

  lemma {:induction false} PartSumsMove(a: seq<Weighted>, b: seq<Weighted>, dx: real, dy: real, n: nat)
    requires PartsFollow(a, b, dx, dy) && n <= |a|
    ensures SumsMoved(PartSums(a, n), PartSums(b, n), dx, dy)
  {
    hide Add;
    if n > 0 {
      PartSumsMove(a, b, dx, dy, n - 1);
      AddMoves(PartSums(a, n - 1), PartSums(b, n - 1), a[n - 1], b[n - 1], a[0].lon, dx, dy);
    }
  }

  // ---------------------------------------------------------------- rings of a geometry listed or written otherwise

  /** The same centroid and area, up to whole turns. */
  ghost predicate Turned(a: Option<Weighted>, b: Option<Weighted>) {
    exists t :: IsTurns(t) && b == MoveOption(a, t, 0.0)
  }

  ghost predicate PolygonTurned(a: seq<Ring>, b: seq<Ring>) {
    |a| == |b| && forall i | 0 <= i < |a| :: Turned(RingCentroid(a[i]), RingCentroid(b[i]))
  }

  ghost predicate GeometryTurned(a: Geometry, b: Geometry) {
    match (a, b)
    case (Polygon(p), Polygon(q)) => PolygonTurned(p, q)
    case (MultiPolygon(p), MultiPolygon(q)) => |p| == |q| && forall i | 0 <= i < |p| :: PolygonTurned(p[i], q[i])
    case _ => a == b
  }

  /** No hole of the polygon is exactly half a turn from the exterior it is aligned to. */
  predicate HolesAlign(polygon: seq<Ring>) {
    polygon != [] && RingCentroid(polygon[0]).Some? ==>
      forall i | 0 < i < |polygon| :: RingCentroid(polygon[i]).Some? ==>
        !IsHalfTurn(RingCentroid(polygon[i]).value.lon - RingCentroid(polygon[0]).value.lon)
  }

  /** And no part from the first one. */
  predicate PartsAlign(geometry: Geometry) {
    match geometry
    case Polygon(rings) => HolesAlign(rings)
    case MultiPolygon(polygons) =>
      && (forall i | 0 <= i < |polygons| :: HolesAlign(polygons[i]))
      && (PartCentroids(polygons).Ok? ==>
            var parts := PartCentroids(polygons).value;
            forall i | 0 <= i < |parts| :: !IsHalfTurn(parts[i].lon - parts[0].lon))
    case _ => true
  }

  /** Something that moved by whole turns of its own follows a reference that did the same. */
  lemma FollowsByTurns(hole: Weighted, reference: real, s: real, t: real)
    requires IsTurns(s) && IsTurns(t) && !IsHalfTurn(hole.lon - reference)
    ensures HoleFollows(Some(hole), Some(Move(hole, s, 0.0)), reference, t, 0.0)
  {
    var a, b := hole.lon, hole.lon + s;
    assert b - a == s && (reference + t) - reference == t;
    AlignModuloTurns(a, reference, b, reference + t);
  }

  lemma PolygonTurns(a: seq<Ring>, b: seq<Ring>) returns (t: real)
    requires PolygonTurned(a, b) && HolesAlign(a)
    ensures IsTurns(t) && PolygonCentroid(b) == MoveResult(PolygonCentroid(a), t, 0.0)
  {
    if a == [] {
      TurnsAreTurns(0.0, 0);
      return 0.0;
    }
    hide RingCentroid, IsTurns, IsHalfTurn, Align, PolygonCentroid;
    assert Turned(RingCentroid(a[0]), RingCentroid(b[0]));
    t :| IsTurns(t) && RingCentroid(b[0]) == MoveOption(RingCentroid(a[0]), t, 0.0);
    if RingCentroid(a[0]).Some? {
      var reference := RingCentroid(a[0]).value.lon;
      forall i | 0 < i < |a|
        ensures HoleFollows(RingCentroid(a[i]), RingCentroid(b[i]), reference, t, 0.0)
      {
        assert Turned(RingCentroid(a[i]), RingCentroid(b[i]));
        var s :| IsTurns(s) && RingCentroid(b[i]) == MoveOption(RingCentroid(a[i]), s, 0.0);
        if RingCentroid(a[i]).Some? {
          FollowsByTurns(RingCentroid(a[i]).value, reference, s, t);
        }
      }
    }
    PolygonCentroidMoves(a, b, t, 0.0);
  }

  /** Each part moved by whole turns of its own. */
  predicate PartsTurned(a: seq<Weighted>, b: seq<Weighted>, ts: seq<real>) {
    |a| == |b| == |ts| && forall i | 0 <= i < |a| :: IsTurns(ts[i]) && b[i] == Move(a[i], ts[i], 0.0)
  }

  lemma OneMorePart(polygons: seq<seq<Ring>>)
    requires polygons != []
    ensures var n := |polygons| - 1;
            var front, last := PartCentroids(polygons[..n]), PolygonCentroid(polygons[n]);
            PartCentroids(polygons) == if front.Err? then front else if last.Err? then Err(last.error)
                                       else Ok(front.value + [last.value])
  {
    hide PolygonCentroid;
  }

  lemma {:induction false} PartsTurn(a: seq<seq<Ring>>, b: seq<seq<Ring>>) returns (ts: seq<real>)
    requires |a| == |b| && forall i | 0 <= i < |a| :: PolygonTurned(a[i], b[i]) && HolesAlign(a[i])
    ensures PartCentroids(a).Err? ==> PartCentroids(b) == PartCentroids(a)
    ensures PartCentroids(a).Ok? ==>
              PartCentroids(b).Ok? && PartsTurned(PartCentroids(a).value, PartCentroids(b).value, ts)
    decreases |a|
  {
    if a == [] {
      return [];
    }
    OneMorePart(a);
    OneMorePart(b);
    hide IsTurns, PolygonCentroid, PolygonTurned, HolesAlign, Move, PartCentroids, PartsTurned;
    var n := |a| - 1;
    ts := PartsTurn(a[..n], b[..n]);
    var t := PolygonTurns(a[n], b[n]);
    if PartCentroids(a).Ok? {
      OneMoreTurned(PartCentroids(a[..n]).value, PartCentroids(b[..n]).value, ts, PolygonCentroid(a[n]).value, t);
    }
    ts := ts + [t];
  }

  lemma OneMoreTurned(a: seq<Weighted>, b: seq<Weighted>, ts: seq<real>, part: Weighted, t: real)
    requires PartsTurned(a, b, ts) && IsTurns(t)
    ensures PartsTurned(a + [part], b + [Move(part, t, 0.0)], ts + [t])
  {
    hide IsTurns, Move;
  }

  lemma MultiTurns(p: seq<seq<Ring>>, q: seq<seq<Ring>>) returns (t: real)
    requires GeometryTurned(MultiPolygon(p), MultiPolygon(q)) && PartsAlign(MultiPolygon(p))
    ensures IsTurns(t) && RawCentroid(MultiPolygon(q)) == MoveResult(RawCentroid(MultiPolygon(p)), t, 0.0)
  {
    hide IsTurns, PolygonCentroid, PolygonTurned, HolesAlign, PartCentroids;
    var ts := PartsTurn(p, q);
    if PartCentroids(p).Err? || p == [] {
      t := 0.0;
      TurnsAreTurns(0.0, 0);
      return;
    }
    t := ts[0];
    var a, b := PartCentroids(p).value, PartCentroids(q).value;
    forall i | 0 <= i < |a|
      ensures HoleFollows(Some(a[i]), Some(b[i]), a[0].lon, t, 0.0)
    {
      FollowsByTurns(a[i], a[0].lon, ts[i], t);
    }
    assert PartsFollow(a, b, t, 0.0);
    PartSumsMove(a, b, t, 0.0, |a|);
    PartSumsArePositive(a, |a|);
    MeanMoves(PartSums(a, |a|), PartSums(b, |a|), t, 0.0);
  }

  lemma RawTurns(a: Geometry, b: Geometry) returns (t: real)
    requires GeometryTurned(a, b) && PartsAlign(a)
    ensures IsTurns(t) && RawCentroid(b) == MoveResult(RawCentroid(a), t, 0.0)
  {
    match (a, b) {
      case (Polygon(p), Polygon(q)) =>
        t := PolygonTurns(p, q);
      case (MultiPolygon(p), MultiPolygon(q)) =>
        t := MultiTurns(p, q);
      case _ =>
        t := 0.0;
        TurnsAreTurns(0.0, 0);
    }
  }

  /** The same outcome, up to the two names of the antimeridian. */
  predicate SameOutcome(a: Result<Point, Error>, b: Result<Point, Error>) {
    && (a.Err? ==> b == a)
    && (a.Ok? ==> b.Ok? && b.value.lat == a.value.lat && SameMeridian(a.value.lon, b.value.lon))
  }

  lemma GeometryTurns(a: Geometry, b: Geometry)
    requires GeometryTurned(a, b) && PartsAlign(a)
    ensures SameOutcome(GeometryCentroid(a), GeometryCentroid(b))
  {
    hide RawCentroid, Normalize, GeometryTurned, PartsAlign;
    var t := RawTurns(a, b);
    if RawCentroid(a).Ok? {
      var x := RawCentroid(a).value.lon;
      assert (x + t) - x == t;
      NormalizeModuloTurns(x, x + t);
      NormalizeIsCanonical(x);
      NormalizeIsCanonical(x + t);
    }
  }

  /** One ring listed in either direction, with its longitudes written in any way. */
  predicate SameOutline(a: Ring, b: Ring) {
    SameRing(a, b) || SameRing(Reverse(a), b)
  }

  predicate PolygonOutlined(a: seq<Ring>, b: seq<Ring>) {
    |a| == |b| && forall i | 0 <= i < |a| :: SameOutline(a[i], b[i])
  }

  predicate GeometryOutlined(a: Geometry, b: Geometry) {
    match (a, b)
    case (Polygon(p), Polygon(q)) => PolygonOutlined(p, q)
    case (MultiPolygon(p), MultiPolygon(q)) => |p| == |q| && forall i | 0 <= i < |p| :: PolygonOutlined(p[i], q[i])
    case _ => a == b
  }

  /** No edge and no hole of the polygon is exactly half a turn from what it is aligned to. */
  predicate PolygonHasNoHalfTurn(polygon: seq<Ring>) {
    (forall i | 0 <= i < |polygon| :: NoHalfTurnEdge(polygon[i])) && HolesAlign(polygon)
  }

  predicate HasNoHalfTurn(geometry: Geometry) {
    && PartsAlign(geometry)
    && match geometry
       case Polygon(rings) => PolygonHasNoHalfTurn(rings)
       case MultiPolygon(polygons) => forall i | 0 <= i < |polygons| :: PolygonHasNoHalfTurn(polygons[i])
       case _ => true
  }

  /** The move between two writings of a ring: a whole number of turns, zero if it is empty. */
  function Rewriting(a: Ring, b: Ring): (t: real)
    requires SameRing(a, b)
    ensures IsTurns(t)
  {
    if a == [] then TurnsAreTurns(0.0, 0); 0.0 else b[0].lon - a[0].lon
  }

  lemma RingRewritten(a: Ring, b: Ring)
    requires SameRing(a, b) && NoHalfTurnEdge(a)
    ensures RingCentroid(b) == MoveOption(RingCentroid(a), Rewriting(a, b), 0.0)
  {
    if a != [] {
      RingCentroidModuloTurns(a, b);
    } else {
      assert b == [];
    }
  }

  lemma HalfTurnBackwards(d: real)
    ensures IsHalfTurn(-d) ==> IsHalfTurn(d)
  {
    if IsHalfTurn(-d) {
      TurnsAreTurns(360.0, 1);
      TurnsAdd(-d - 180.0, 360.0);
      TurnsAdd(-d - 180.0 + 360.0, -d - 180.0 + 360.0);
      assert -(-d - 180.0 + 360.0) == d - 180.0;
    }
  }

  lemma NoHalfTurnBackwards(ring: Ring)
    requires NoHalfTurnEdge(ring)
    ensures NoHalfTurnEdge(Reverse(ring))
  {
    hide IsHalfTurn;
    var back := Reverse(ring);
    forall i | 0 < i < |back|
      ensures !IsHalfTurn(back[i].lon - back[i - 1].lon)
    {
      var d := ring[|ring| - i].lon - ring[|ring| - i - 1].lon;
      assert back[i].lon - back[i - 1].lon == -d;
      HalfTurnBackwards(d);
    }
  }

  lemma RingOutlined(a: Ring, b: Ring)
    requires SameOutline(a, b) && NoHalfTurnEdge(a)
    ensures Turned(RingCentroid(a), RingCentroid(b))
  {
    hide RingCentroid, IsTurns;
    if SameRing(a, b) {
      RingRewritten(a, b);
    } else {
      var back := Reverse(a);
      NoHalfTurnBackwards(a);
      ShortEdgesReverse(a);
      hide EdgesReverse;
      RingCentroidReversed(a);
      RingRewritten(back, b);
      var s, t := Overshoot(a), Rewriting(back, b);
      TurnsAdd(s, t);
      hide NoHalfTurnEdge, Overshoot, Rewriting;
      assert RingCentroid(b) == MoveOption(RingCentroid(a), s + t, 0.0);
    }
  }

  lemma PolygonIsTurned(a: seq<Ring>, b: seq<Ring>)
    requires PolygonOutlined(a, b) && forall i | 0 <= i < |a| :: NoHalfTurnEdge(a[i])
    ensures PolygonTurned(a, b)
  {
    hide Turned, SameOutline, NoHalfTurnEdge;
    forall i | 0 <= i < |a|
      ensures Turned(RingCentroid(a[i]), RingCentroid(b[i]))
    {
      RingOutlined(a[i], b[i]);
    }
  }

  /** The centroid of a polygon depends neither on the direction of its exterior and holes, nor on
      how their longitudes are written, up to whole turns of all of it. */
  lemma PolygonCentroidOutlined(a: seq<Ring>, b: seq<Ring>) returns (t: real)
    requires PolygonOutlined(a, b) && PolygonHasNoHalfTurn(a)
    ensures IsTurns(t) && PolygonCentroid(b) == MoveResult(PolygonCentroid(a), t, 0.0)
  {
    PolygonIsTurned(a, b);
    t := PolygonTurns(a, b);
  }

  /** The representative point of an area depends neither on the direction of any ring nor on how
      any longitude is written, up to the two names of the antimeridian. */
  lemma GeometryCentroidOutlined(a: Geometry, b: Geometry)
    requires GeometryOutlined(a, b) && HasNoHalfTurn(a)
    ensures SameOutcome(GeometryCentroid(a), GeometryCentroid(b))
  {
    hide PolygonTurned, PolygonOutlined, NoHalfTurnEdge, GeometryCentroid, HolesAlign, PartCentroids;
    match (a, b) {
      case (Polygon(p), Polygon(q)) => PolygonIsTurned(p, q);
      case (MultiPolygon(p), MultiPolygon(q)) =>
        forall i | 0 <= i < |p|
          ensures PolygonTurned(p[i], q[i])
        {
          PolygonIsTurned(p[i], q[i]);
        }
      case _ =>
    }
    hide GeometryOutlined, HasNoHalfTurn;
    GeometryTurns(a, b);
  }

  predicate SamePolygon(a: seq<Ring>, b: seq<Ring>) {
    |a| == |b| && forall i | 0 <= i < |a| :: SameRing(a[i], b[i])
  }

  /** The same geometry, with some longitudes written differently. */
  predicate SameGeometry(a: Geometry, b: Geometry) {
    match (a, b)
    case (Polygon(p), Polygon(q)) => SamePolygon(p, q)
    case (MultiPolygon(p), MultiPolygon(q)) => |p| == |q| && forall i | 0 <= i < |p| :: SamePolygon(p[i], q[i])
    case _ => a == b
  }

  lemma SameIsOutlined(a: seq<Ring>, b: seq<Ring>)
    requires SamePolygon(a, b)
    ensures PolygonOutlined(a, b)
  {
    hide SameRing;
  }

  /** The centroid of a polygon depends on its longitudes only modulo turns. */
  lemma PolygonCentroidModuloTurns(a: seq<Ring>, b: seq<Ring>) returns (t: real)
    requires SamePolygon(a, b) && PolygonHasNoHalfTurn(a)
    ensures IsTurns(t) && PolygonCentroid(b) == MoveResult(PolygonCentroid(a), t, 0.0)
  {
    SameIsOutlined(a, b);
    t := PolygonCentroidOutlined(a, b);
  }

  /** The representative point does not depend on how the longitudes are written: replacing any
      vertex longitude by one that differs by whole turns leaves the outcome as it is, up to the
      two names of the antimeridian. */
  lemma GeometryCentroidModuloTurns(a: Geometry, b: Geometry)
    requires SameGeometry(a, b) && HasNoHalfTurn(a)
    ensures GeometryCentroid(a).Err? ==> GeometryCentroid(b) == GeometryCentroid(a)
    ensures GeometryCentroid(a).Ok? ==>
              GeometryCentroid(b).Ok?
              && GeometryCentroid(b).value.lat == GeometryCentroid(a).value.lat
              && SameMeridian(GeometryCentroid(a).value.lon, GeometryCentroid(b).value.lon)
  {
    hide SamePolygon, PolygonOutlined, HasNoHalfTurn, GeometryCentroid, SameMeridian;
    match (a, b) {
      case (Polygon(p), Polygon(q)) => SameIsOutlined(p, q);
      case (MultiPolygon(p), MultiPolygon(q)) =>
        forall i | 0 <= i < |p|
          ensures PolygonOutlined(p[i], q[i])
        {
          SameIsOutlined(p[i], q[i]);
        }
      case _ =>
    }
    GeometryCentroidOutlined(a, b);
  }

  // ---------------------------------------------------------------- the direction of closed rings

  /** The same ring, or a closed one walked backwards. */
  predicate Reoriented(a: Ring, b: Ring) {
    b == a || (b == Reverse(a) && EdgesReverse(a) && ReturnsHome(a))
  }

  predicate PolygonReoriented(a: seq<Ring>, b: seq<Ring>) {
    |a| == |b| && forall i | 0 <= i < |a| :: Reoriented(a[i], b[i])
  }

  predicate GeometryReoriented(a: Geometry, b: Geometry) {
    match (a, b)
    case (Polygon(p), Polygon(q)) => PolygonReoriented(p, q)
    case (MultiPolygon(p), MultiPolygon(q)) => |p| == |q| && forall i | 0 <= i < |p| :: PolygonReoriented(p[i], q[i])
    case _ => a == b
  }

  lemma {:induction false} NetReoriented(a: seq<Ring>, b: seq<Ring>, exterior: Weighted, n: nat)
    requires PolygonReoriented(a, b) && 1 <= n <= |a|
    ensures Net(b, exterior, n) == Net(a, exterior, n)
  {
    hide RingCentroid, Subtract, ReturnsHome, EdgesReverse;
    if n > 1 {
      NetReoriented(a, b, exterior, n - 1);
      assert Reoriented(a[n - 1], b[n - 1]);
      if b[n - 1] != a[n - 1] {
        ClosedRingReversed(a[n - 1]);
      }
    }
  }

  lemma PolygonCentroidReversed(a: seq<Ring>, b: seq<Ring>)
    requires PolygonReoriented(a, b)
    ensures PolygonCentroid(b) == PolygonCentroid(a)
  {
    hide RingCentroid, Net, ReturnsHome, EdgesReverse;
    if a != [] {
      assert Reoriented(a[0], b[0]);
      if b[0] != a[0] {
        ClosedRingReversed(a[0]);
      }
      if RingCentroid(a[0]).Some? {
        NetReoriented(a, b, RingCentroid(a[0]).value, |a|);
      }
    }
  }

  lemma {:induction false} PartsReversed(a: seq<seq<Ring>>, b: seq<seq<Ring>>)
    requires |a| == |b| && forall i | 0 <= i < |a| :: PolygonReoriented(a[i], b[i])
    ensures PartCentroids(b) == PartCentroids(a)
    decreases |a|
  {
    if a != [] {
      OneMorePart(a);
      OneMorePart(b);
      hide PolygonCentroid, PartCentroids, PolygonReoriented;
      var n := |a| - 1;
      PartsReversed(a[..n], b[..n]);
      PolygonCentroidReversed(a[n], b[n]);
    }
  }

  /** Walking any closed rings of an area backwards, exteriors or holes, changes nothing at all. */
  lemma GeometryCentroidReversed(a: Geometry, b: Geometry)
    requires GeometryReoriented(a, b)
    ensures GeometryCentroid(b) == GeometryCentroid(a)
  {
    hide PolygonCentroid, PartCentroids, PolygonReoriented, Normalize;
    match (a, b) {
      case (Polygon(p), Polygon(q)) => PolygonCentroidReversed(p, q);
      case (MultiPolygon(p), MultiPolygon(q)) => PartsReversed(p, q);
      case _ =>
    }
  }

  // ---------------------------------------------------------------- what a centroid is

  predicate IsShort(p: Point, q: Point) {
    -180.0 < q.lon - p.lon < 180.0
  }

  /** A ring whose edges are shorter than half a turn and that is closed is unwrapped as it is. */
  lemma ShortRingIsUnwrapped(ring: Ring)
    requires IsClosed(ring) && forall i | 0 < i < |ring| :: IsShort(ring[i - 1], ring[i])
    ensures Unwrapped(ring) == ring
  {
    TurnsAreTurns(0.0, 0);
    hide UnwrapOpen, IsTurns;
    assert forall i | 0 < i < |ring| :: IsShort(ring[i - 1], ring[i]) ==> -180.0 < ring[i].lon - ring[i - 1].lon < 180.0;
    forall i | 0 <= i < |ring|
      ensures IsTurns(ring[i].lon - ring[i].lon)
    {
    }
    UnwrapIsUnique(ring, ring);
  }

  lemma Quotient(sum: real, factor: real, area: real)
    requires area != 0.0 && sum == factor * area
    ensures sum / (3.0 * area) == factor / 3.0
  {
    assert sum == (factor / 3.0) * (3.0 * area);
  }

  lemma TriangleSums(p: Point, q: Point)
    ensures var o := Point(0.0, 0.0);
            var c := p.lon * q.lat - q.lon * p.lat;
            && Total(Area, [o, p, q, o]) == c
            && Total(Lon, [o, p, q, o]) == (p.lon + q.lon) * c
            && Total(Lat, [o, p, q, o]) == (p.lat + q.lat) * c
  {
    var o := Point(0.0, 0.0);
    forall m: Moment
      ensures Total(m, [o, p, q, o]) == Edge(m, o, p) + Edge(m, p, q) + Edge(m, q, o)
    {
      TriangleSum(m, o, p, q);
    }
    EdgeTerms(o, p, 0.0);
    EdgeTerms(p, q, p.lon * q.lat - q.lon * p.lat);
    EdgeTerms(q, o, 0.0);
    hide Total, Edge;
  }

  lemma CentroidOfSums(pts: seq<Point>, c: real, x: real, y: real)
    requires |pts| >= 4
    requires Total(Area, pts) == c && Total(Lon, pts) == x * c && Total(Lat, pts) == y * c
    ensures ChainCentroid(pts) == if Abs(c) <= 0.000000000001 then None
                                  else Some(Weighted(x / 3.0, y / 3.0, Abs(c) / 2.0))
  {
    if Abs(c) > 0.000000000001 {
      Quotient(x * c, x, c);
      Quotient(y * c, y, c);
    }
    hide Total;
  }

  /** Twice the signed area of a triangle: positive if it is walked anticlockwise. */
  function Twice(o: Point, p: Point, q: Point): real {
    (p.lon - o.lon) * (q.lat - o.lat) - (q.lon - o.lon) * (p.lat - o.lat)
  }

  /** The centroid of a triangle is the mean of its corners, and its area half a parallelogram's;
      one that is next to nothing has none. */
  lemma TriangleCentroid(o: Point, p: Point, q: Point)
    requires IsShort(o, p) && IsShort(p, q) && IsShort(q, o)
    ensures RingCentroid([o, p, q, o])
            == if Abs(Twice(o, p, q)) <= 0.000000000001 then None
               else Some(Weighted((o.lon + p.lon + q.lon) / 3.0, (o.lat + p.lat + q.lat) / 3.0,
                                  Abs(Twice(o, p, q)) / 2.0))
  {
    hide Abs, Twice, Total, ChainCentroid, Unwrapped, IsShort;
    var ring, home := [o, p, q, o], FromOrigin(o, p, q);
    assert Unwrapped(ring) == ring by {
      ShortRingIsUnwrapped(ring);
    }
    assert TranslateAll(home, o.lon, o.lat) == ring;
    FromOriginSums(o, p, q);
    CentroidOfSums(home, Twice(o, p, q), (p.lon - o.lon) + (q.lon - o.lon), (p.lat - o.lat) + (q.lat - o.lat));
    ChainCentroidMoves(home, o.lon, o.lat);
    MeanMovesBack(p.lon, q.lon, o.lon);
    MeanMovesBack(p.lat, q.lat, o.lat);
  }

  /** The triangle moved so that its first corner is the origin. */
  function FromOrigin(o: Point, p: Point, q: Point): Ring {
    [ORIGIN, Point(p.lon - o.lon, p.lat - o.lat), Point(q.lon - o.lon, q.lat - o.lat), ORIGIN]
  }

  lemma FromOriginSums(o: Point, p: Point, q: Point)
    ensures var home := FromOrigin(o, p, q);
            && Total(Area, home) == Twice(o, p, q)
            && Total(Lon, home) == ((p.lon - o.lon) + (q.lon - o.lon)) * Twice(o, p, q)
            && Total(Lat, home) == ((p.lat - o.lat) + (q.lat - o.lat)) * Twice(o, p, q)
  {
    var p', q' := Point(p.lon - o.lon, p.lat - o.lat), Point(q.lon - o.lon, q.lat - o.lat);
    TriangleSums(p', q');
    assert Twice(o, p, q) == p'.lon * q'.lat - q'.lon * p'.lat;
    hide Total, Twice;
  }

  lemma MeanMovesBack(x: real, y: real, o: real)
    ensures ((x - o) + (y - o)) / 3.0 + o == (o + x + y) / 3.0
  {
  }

  lemma RectangleSums(w: real, h: real)
    ensures var pts := [Point(0.0, 0.0), Point(w, 0.0), Point(w, h), Point(0.0, h), Point(0.0, 0.0)];
            && Total(Area, pts) == 2.0 * (w * h)
            && Total(Lon, pts) == (3.0 * w) * (w * h)
            && Total(Lat, pts) == (3.0 * h) * (w * h)
  {
    var o, p, q, r := Point(0.0, 0.0), Point(w, 0.0), Point(w, h), Point(0.0, h);
    forall m: Moment
      ensures Total(m, [o, p, q, r, o]) == Edge(m, o, p) + Edge(m, p, q) + Edge(m, q, r) + Edge(m, r, o)
    {
      QuadrilateralSum(m, o, p, q, r);
    }
    EdgeTerms(o, p, 0.0);
    EdgeTerms(p, q, w * h);
    EdgeTerms(q, r, w * h);
    EdgeTerms(r, o, 0.0);
    hide Total, Edge;
  }

  lemma RectangleAtOrigin(w: real, h: real)
    requires w > 0.0 && h > 0.0 && 2.0 * (w * h) > 0.000000000001
    ensures ChainCentroid([Point(0.0, 0.0), Point(w, 0.0), Point(w, h), Point(0.0, h), Point(0.0, 0.0)])
            == Some(Weighted(w / 2.0, h / 2.0, w * h))
  {
    RectangleSums(w, h);
    hide Total;
    var a := 2.0 * (w * h);
    assert (3.0 * w) * (w * h) == (1.5 * w) * a;
    assert (3.0 * h) * (w * h) == (1.5 * h) * a;
    CentroidOfSums([Point(0.0, 0.0), Point(w, 0.0), Point(w, h), Point(0.0, h), Point(0.0, 0.0)], a, 1.5 * w, 1.5 * h);
  }

  function Rectangle(x: real, y: real, w: real, h: real): Ring {
    [Point(x, y), Point(x + w, y), Point(x + w, y + h), Point(x, y + h), Point(x, y)]
  }

  /** The centroid of a rectangle is its middle, and its area width times height. */
  lemma RectangleCentroid(x: real, y: real, w: real, h: real)
    requires 0.0 < w < 180.0 && h > 0.0 && 2.0 * (w * h) > 0.000000000001
    ensures RingCentroid(Rectangle(x, y, w, h)) == Some(Weighted(x + w / 2.0, y + h / 2.0, w * h))
  {
    var ring := Rectangle(x, y, w, h);
    ShortRingIsUnwrapped(ring);
    RectangleAtOrigin(w, h);
    var home := [Point(0.0, 0.0), Point(w, 0.0), Point(w, h), Point(0.0, h), Point(0.0, 0.0)];
    assert TranslateAll(home, x, y) == ring;
    hide ChainCentroid, Unwrapped;
    ChainCentroidMoves(home, x, y);
  }

  /** `whole` is made of two pieces: areas add up, and so do areas times centroids. */
  predicate Dissects(whole: Weighted, a: Weighted, b: Weighted) {
    && whole.area == a.area + b.area
    && whole.area * whole.lon == a.area * a.lon + b.area * b.lon
    && whole.area * whole.lat == a.area * a.lat + b.area * b.lat
  }

  lemma MeanTimesArea(sums: Weighted)
    requires sums.area != 0.0
    ensures Mean(sums).area * Mean(sums).lon == sums.lon && Mean(sums).area * Mean(sums).lat == sums.lat
  {
  }

  /** A polygon without holes has the centroid and the area of its exterior. */
  lemma ExteriorAlone(ring: Ring)
    ensures PolygonCentroid([ring]) == match RingCentroid(ring)
                                       case None => Err(ZeroAreaExterior)
                                       case Some(w) => if w.area <= 0.000000000001 then Err(NoPositiveArea) else Ok(w)
  {
    hide RingCentroid;
    if RingCentroid(ring).Some? && RingCentroid(ring).value.area > EPSILON {
      var w := RingCentroid(ring).value;
      assert Net([ring], w, 1) == Weighted(w.lon * w.area, w.lat * w.area, w.area);
      assert (w.lon * w.area) / w.area == w.lon && (w.lat * w.area) / w.area == w.lat;
    }
  }

  lemma {:induction false} NetOfFront(polygon: seq<Ring>, hole: Ring, exterior: Weighted, n: nat)
    requires 1 <= n <= |polygon|
    ensures Net(polygon + [hole], exterior, n) == Net(polygon, exterior, n)
  {
    hide RingCentroid, Subtract;
    if n > 1 {
      NetOfFront(polygon, hole, exterior, n - 1);
    }
  }

  lemma RingAreaIsPositive(ring: Ring)
    ensures RingCentroid(ring).Some? ==> RingCentroid(ring).value.area > 0.0
  {
    hide Total, Unwrapped;
  }

  /** The hole as it lies beside the exterior. */
  function Beside(hole: Weighted, exterior: Weighted): Weighted {
    hole.(lon := Align(hole.lon, exterior.lon))
  }

  /** A hole is taken away: what is left and the hole make up the polygon there was before.  It
      leaves nothing behind if no area remains, and one without an area changes nothing. */
  lemma HoleIsTakenAway(polygon: seq<Ring>, hole: Ring)
    requires polygon != []
    ensures var before, after := PolygonCentroid(polygon), PolygonCentroid(polygon + [hole]);
            && (before.Err? || RingCentroid(hole) == None ==> after == before)
            && (before.Ok? && RingCentroid(hole).Some? ==>
                  && RingCentroid(polygon[0]).Some?
                  && var w := Beside(RingCentroid(hole).value, RingCentroid(polygon[0]).value);
                     if before.value.area - w.area <= 0.000000000001 then after == Err(NoPositiveArea)
                     else after.Ok? && Dissects(before.value, after.value, w))
  {
    hide RingCentroid, Align;
    RingAreaIsPositive(hole);
    if RingCentroid(polygon[0]).Some? {
      var exterior := RingCentroid(polygon[0]).value;
      var n := |polygon|;
      var all := polygon + [hole];
      NetOfFront(polygon, hole, exterior, n);
      var sums, less := Net(polygon, exterior, n), Net(all, exterior, n + 1);
      assert less == Subtract(sums, RingCentroid(hole), exterior.lon);
      hide Net;
      if sums.area > EPSILON {
        MeanTimesArea(sums);
      }
      if less.area > EPSILON {
        MeanTimesArea(less);
      }
    }
  }

  lemma PartSumsOfFront(parts: seq<Weighted>, last: Weighted, n: nat)
    requires parts != [] && n <= |parts|
    ensures PartSums(parts + [last], n) == PartSums(parts, n)
  {
    hide Add;
  }

  lemma OnePart(w: Weighted)
    requires w.area > 0.0
    ensures PartSums([w], 1).area == w.area && Mean(PartSums([w], 1)) == w
  {
    assert Align(w.lon, w.lon) == w.lon;
    hide Align;
    assert PartSums([w], 0) == Weighted(0.0, 0.0, 0.0);
    var sums := PartSums([w], 1);
    assert sums == AddAligned(Weighted(0.0, 0.0, 0.0), w, w.lon);
    assert sums.lon == w.lon * w.area && sums.lat == w.lat * w.area && sums.area == w.area;
    assert (w.lon * w.area) / w.area == w.lon && (w.lat * w.area) / w.area == w.lat;
  }

  /** A multipolygon of one part has the centroid and area of that part; of none, there is none. */
  lemma PartAlone(polygon: seq<Ring>)
    ensures RawCentroid(MultiPolygon([polygon])) == PolygonCentroid(polygon)
    ensures RawCentroid(MultiPolygon([])) == Err(NoPolygons)
  {
    hide PolygonCentroid;
    OneMorePart([polygon]);
    assert [polygon][..0] == [];
    assert PartCentroids([]) == Ok([]);
    hide PartSums, Mean, PartCentroids;
    if PolygonCentroid(polygon).Ok? {
      var w := PolygonCentroid(polygon).value;
      assert [] + [w] == [w];
      OnePart(w);
    }
  }

  /** A part is added: the parts there were and the new one, beside the first, make up the whole.
      The first part that has no centroid decides the error. */
  lemma PartIsAdded(polygons: seq<seq<Ring>>, polygon: seq<Ring>)
    requires polygons != []
    ensures var before, part := RawCentroid(MultiPolygon(polygons)), PolygonCentroid(polygon);
            var after := RawCentroid(MultiPolygon(polygons + [polygon]));
            && (before.Err? ==> after == before)
            && (before.Ok? && part.Err? ==> after == Err(part.error))
            && (before.Ok? && part.Ok? ==>
                  && PolygonCentroid(polygons[0]).Ok? && after.Ok?
                  && Dissects(after.value, before.value, Beside(part.value, PolygonCentroid(polygons[0]).value)))
  {
    hide PolygonCentroid, PartCentroids, Align;
    var all := polygons + [polygon];
    OneMorePart(all);
    assert all[..|polygons|] == polygons;
    if PartCentroids(all).Ok? {
      var parts := PartCentroids(polygons).value;
      var last := PolygonCentroid(polygon).value;
      var n := |parts|;
      PartSumsOfFront(parts, last, n);
      PartSumsArePositive(parts, n);
      PartSumsArePositive(parts + [last], n + 1);
      MeanTimesArea(PartSums(parts, n));
      MeanTimesArea(PartSums(parts + [last], n + 1));
      hide Mean;
    }
  }

  /** The representative point is the centroid with its longitude in [-180, 180], and there is none
      only if there is no centroid or its latitude is out of range. */
  lemma PointIsNormalized(geometry: Geometry)
    ensures match RawCentroid(geometry)
            case Err(e) => GeometryCentroid(geometry) == Err(e)
            case Ok(w) =>
              if w.lat < -90.0 || w.lat > 90.0 then GeometryCentroid(geometry) == Err(OutsideWgs84)
              else
                && GeometryCentroid(geometry).Ok?
                && GeometryCentroid(geometry).value.lat == w.lat
                && IsTurns(GeometryCentroid(geometry).value.lon - w.lon)
                && -180.0 <= GeometryCentroid(geometry).value.lon <= 180.0
  {
    hide RawCentroid, Normalize;
    if RawCentroid(geometry).Ok? {
      NormalizeIsCanonical(RawCentroid(geometry).value.lon);
    }
  }

  // ---------------------------------------------------------------- half turns do matter

  const ORIGIN := Point(0.0, 0.0)
  const EASTWARD: Ring := [ORIGIN, Point(180.0, 20.0), Point(100.0, 40.0), ORIGIN]
  const WESTWARD: Ring := [ORIGIN, Point(-180.0, 20.0), Point(100.0, 40.0), ORIGIN]

  lemma EastwardUnwraps()
    ensures Unwrapped(EASTWARD) == EASTWARD
  {
    var a := EASTWARD;
    assert a[..3][..2] == [a[0], a[1]] && a[..3][..2][..1] == [a[0]];
    assert UnwrapOpen(a[..3][..2]) == [a[0], a[1]];
    assert UnwrapOpen(a[..3]) == [a[0], a[1], a[2]];
  }

  /** Yet a ring with an edge of exactly half a turn can have the same centroid backwards. */
  lemma EastwardReverses()
    ensures !NoHalfTurnEdge(EASTWARD) && EdgesReverse(EASTWARD) && ReturnsHome(EASTWARD)
    ensures RingCentroid(Reverse(EASTWARD)) == RingCentroid(EASTWARD)
  {
    hide RingCentroid;
    var a := EASTWARD;
    EastwardUnwraps();
    assert UnwrapOpen(a) == a;
    assert IsHalfTurn(a[1].lon - a[0].lon) by {
      TurnsAreTurns(0.0, 0);
    }
    forall i | 0 < i < |a|
      ensures EdgeReverses(a, i)
    {
      hide UnwrapOpen;
    }
    ClosedRingReversed(a);
  }

  lemma WestwardUnwraps()
    ensures Unwrapped(WESTWARD) == [ORIGIN, Point(-180.0, 20.0), Point(-260.0, 40.0), Point(-360.0, 0.0), ORIGIN]
  {
    var b := WESTWARD;
    assert b[..3][..2] == [b[0], b[1]] && b[..3][..2][..1] == [b[0]];
    assert UnwrapOpen(b[..3][..2]) == [b[0], b[1]];
    assert Align(100.0, -180.0) == -260.0;
    assert UnwrapOpen(b[..3]) == [b[0], b[1], Point(-260.0, 40.0)];
    assert Align(0.0, -260.0) == -360.0;
  }

  /** Writing 180 as -180 at an edge of exactly half a turn sends that edge the other way round
      and changes the centroid: the condition of the laws above cannot be dropped. */
  lemma HalfTurnEdgeIsAmbiguous()
    ensures SameRing(EASTWARD, WESTWARD)
    ensures RingCentroid(EASTWARD).Some? && RingCentroid(WESTWARD).Some?
    ensures RingCentroid(EASTWARD).value.lat != RingCentroid(WESTWARD).value.lat
  {
    TurnsAreTurns(0.0, 0);
    TurnsAreTurns(-360.0, -1);
    EastwardUnwraps();
    WestwardUnwraps();
    hide Total, Unwrapped;
    var o, p, q := ORIGIN, Point(180.0, 20.0), Point(100.0, 40.0);
    TriangleSum(Area, o, p, q);
    TriangleSum(Lat, o, p, q);
    var p', q', o' := Point(-180.0, 20.0), Point(-260.0, 40.0), Point(-360.0, 0.0);
    QuadrilateralSum(Area, o, p', q', o');
    QuadrilateralSum(Lat, o, p', q', o');
  }

  /** Closed, and over the antimeridian; its second edge spans exactly half a turn. */
  const FORWARD: Ring := [Point(170.0, 0.0), Point(-170.0, 10.0), Point(10.0, 20.0), Point(170.0, 0.0)]

  const BACKWARD: Ring := [Point(170.0, 0.0), Point(10.0, 20.0), Point(-170.0, 10.0), Point(170.0, 0.0)]

  lemma ForwardUnwraps()
    ensures Unwrapped(FORWARD) == [Point(170.0, 0.0), Point(190.0, 10.0), Point(10.0, 20.0), Point(170.0, 0.0)]
  {
    var a := FORWARD;
    assert a[..3][..2] == [a[0], a[1]] && a[..3][..2][..1] == [a[0]];
    assert Align(-170.0, 170.0) == 190.0;
    assert UnwrapOpen(a[..3][..2]) == [a[0], Point(190.0, 10.0)];
    assert Align(10.0, 190.0) == 10.0;
    assert UnwrapOpen(a[..3]) == [a[0], Point(190.0, 10.0), a[2]];
    assert Align(170.0, 10.0) == 170.0;
  }

  lemma BackwardUnwraps()
    ensures Unwrapped(BACKWARD)
            == [Point(170.0, 0.0), Point(10.0, 20.0), Point(-170.0, 10.0), Point(-190.0, 0.0), Point(170.0, 0.0)]
  {
    var b := BACKWARD;
    assert b[..3][..2] == [b[0], b[1]] && b[..3][..2][..1] == [b[0]];
    assert UnwrapOpen(b[..3][..2]) == [b[0], b[1]];
    assert UnwrapOpen(b[..3]) == [b[0], b[1], b[2]];
    assert Align(170.0, -170.0) == -190.0;
  }

  lemma EdgeOf(x0: real, y0: real, x1: real, y1: real, cross: real)
    requires cross == x0 * y1 - x1 * y0
    ensures var p, q := Point(x0, y0), Point(x1, y1);
            && Edge(Area, p, q) == cross
            && Edge(Lon, p, q) == (x0 + x1) * cross
            && Edge(Lat, p, q) == (y0 + y1) * cross
  {
  }

  lemma ForwardSums()
    ensures var pts := [Point(170.0, 0.0), Point(190.0, 10.0), Point(10.0, 20.0), Point(170.0, 0.0)];
            Total(Area, pts) == 2000.0 && Total(Lat, pts) == 60000.0
  {
    hide Total, Edge;
    EdgeOf(170.0, 0.0, 190.0, 10.0, 1700.0);
    EdgeOf(190.0, 10.0, 10.0, 20.0, 3700.0);
    EdgeOf(10.0, 20.0, 170.0, 0.0, -3400.0);
    var o, p, q := Point(170.0, 0.0), Point(190.0, 10.0), Point(10.0, 20.0);
    TriangleSum(Area, o, p, q);
    TriangleSum(Lat, o, p, q);
  }

  lemma BackwardSums()
    ensures var pts := [Point(170.0, 0.0), Point(10.0, 20.0), Point(-170.0, 10.0), Point(-190.0, 0.0), Point(170.0, 0.0)];
            Total(Area, pts) == 8800.0 && Total(Lat, pts) == 192000.0
  {
    hide Total, Edge;
    EdgeOf(170.0, 0.0, 10.0, 20.0, 3400.0);
    EdgeOf(10.0, 20.0, -170.0, 10.0, 3500.0);
    EdgeOf(-170.0, 10.0, -190.0, 0.0, 1900.0);
    EdgeOf(-190.0, 0.0, 170.0, 0.0, 0.0);
    var o, p, q, r := Point(170.0, 0.0), Point(10.0, 20.0), Point(-170.0, 10.0), Point(-190.0, 0.0);
    QuadrilateralSum(Area, o, p, q, r);
    QuadrilateralSum(Lat, o, p, q, r);
  }

  /** Walked backwards, an edge of exactly half a turn goes the other way round: this closed ring
      has another centroid and another area in the other direction. */
  lemma HalfTurnEdgeHasADirection()
    ensures ReturnsHome(FORWARD) && BACKWARD == Reverse(FORWARD) && !EdgesReverse(FORWARD)
    ensures RingCentroid(FORWARD).Some? && RingCentroid(BACKWARD).Some?
    ensures RingCentroid(FORWARD).value.lat == 10.0 && RingCentroid(BACKWARD).value.lat < 8.0
    ensures RingCentroid(FORWARD).value.area == 1000.0 && RingCentroid(BACKWARD).value.area == 4400.0
  {
    ForwardCentroid();
    BackwardCentroid();
    ForwardUnwraps();
    hide RingCentroid;
    assert BACKWARD == Reverse(FORWARD);
    if EdgesReverse(FORWARD) {
      ClosedRingReversed(FORWARD);
      assert false;
    }
  }

  lemma ForwardCentroid()
    ensures RingCentroid(FORWARD).Some?
    ensures RingCentroid(FORWARD).value.lat == 10.0 && RingCentroid(FORWARD).value.area == 1000.0
  {
    hide Total, Unwrapped;
    ForwardUnwraps();
    ForwardSums();
  }

  lemma BackwardCentroid()
    ensures RingCentroid(BACKWARD).Some?
    ensures RingCentroid(BACKWARD).value.lat < 8.0 && RingCentroid(BACKWARD).value.area == 4400.0
  {
    hide Total, Unwrapped;
    BackwardUnwraps();
    BackwardSums();
  }

  lemma TriangleSum(m: Moment, o: Point, p: Point, q: Point)
    ensures Total(m, [o, p, q, o]) == Edge(m, o, p) + Edge(m, p, q) + Edge(m, q, o)
  {
    hide Edge;
    var pts := [o, p, q, o];
    assert Sum(m, pts, 0, 1) == Edge(m, o, p);
    assert Sum(m, pts, 0, 2) == Edge(m, o, p) + Edge(m, p, q);
  }

  lemma QuadrilateralSum(m: Moment, o: Point, p: Point, q: Point, r: Point)
    ensures Total(m, [o, p, q, r, o]) == Edge(m, o, p) + Edge(m, p, q) + Edge(m, q, r) + Edge(m, r, o)
  {
    hide Edge;
    var pts := [o, p, q, r, o];
    assert Sum(m, pts, 0, 1) == Edge(m, o, p);
    assert Sum(m, pts, 0, 2) == Edge(m, o, p) + Edge(m, p, q);
    assert Sum(m, pts, 0, 3) == Edge(m, o, p) + Edge(m, p, q) + Edge(m, q, r);
  }

  // ---------------------------------------------------------------- a geometry as a whole

  function TranslateGeometry(geometry: Geometry, dx: real, dy: real): Geometry {
    match geometry
    case PointGeometry(at) => PointGeometry(Translate(at, dx, dy))
    case Polygon(rings) => Polygon(TranslateRings(rings, dx, dy))
    case MultiPolygon(polygons) =>
      MultiPolygon(seq(|polygons|, i requires 0 <= i < |polygons| => TranslateRings(polygons[i], dx, dy)))
    case OtherGeometry => OtherGeometry
  }

  lemma {:induction false} PartsTranslate(a: seq<seq<Ring>>, dx: real, dy: real)
    ensures var b := TranslateGeometry(MultiPolygon(a), dx, dy).polygons;
            && (PartCentroids(a).Err? ==> PartCentroids(b) == PartCentroids(a))
            && (PartCentroids(a).Ok? ==>
                  PartCentroids(b).Ok?
                  && forall i | 0 <= i < |a| :: PartCentroids(b).value[i] == Move(PartCentroids(a).value[i], dx, dy))
    decreases |a|
  {
    if a != [] {
      hide PolygonCentroid;
      var n := |a| - 1;
      var b := TranslateGeometry(MultiPolygon(a), dx, dy).polygons;
      PartsTranslate(a[..n], dx, dy);
      assert b[..n] == TranslateGeometry(MultiPolygon(a[..n]), dx, dy).polygons;
      PolygonTranslates(a[n], dx, dy);
    }
  }

  /** The centroid of any geometry, before its longitude is normalized, moves with the geometry,
      and the area it stands for stays. */
  lemma RawCentroidTranslates(geometry: Geometry, dx: real, dy: real)
    ensures RawCentroid(TranslateGeometry(geometry, dx, dy)) == MoveResult(RawCentroid(geometry), dx, dy)
  {
    hide PolygonCentroid, PartCentroids;
    match geometry
    case Polygon(rings) => PolygonTranslates(rings, dx, dy);
    case MultiPolygon(p) =>
      PartsTranslate(p, dx, dy);
      if PartCentroids(p).Ok? && p != [] {
        var q := TranslateGeometry(geometry, dx, dy).polygons;
        var a, b := PartCentroids(p).value, PartCentroids(q).value;
        forall i | 0 <= i < |a|
          ensures HoleFollows(Some(a[i]), Some(b[i]), a[0].lon, dx, dy)
        {
          AlignMoves(a[i].lon, a[0].lon, dx);
        }
        PartSumsMove(a, b, dx, dy, |a|);
        PartSumsArePositive(a, |a|);
        MeanMoves(PartSums(a, |a|), PartSums(b, |a|), dx, dy);
      }
    case _ =>
  }
}
