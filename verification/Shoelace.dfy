/**
 The shoelace sums over a chain of points (scripts/util/build_location_catalog.py:271-279).
 */
module Shoelace {

  datatype Point = Point(lon: real, lat: real)

  /** Which of the three running sums of the source a value belongs to. */
  datatype Moment = Area | Lon | Lat

  function Cross(p: Point, q: Point): real {
    p.lon * q.lat - q.lon * p.lat
  }

  function Edge(m: Moment, p: Point, q: Point): real {
    match m
    case Area => Cross(p, q)
    case Lon => (p.lon + q.lon) * Cross(p, q)
    case Lat => (p.lat + q.lat) * Cross(p, q)
  }

  /** The sum over the edges `lo`, ..., `hi - 1`; edge i joins points i and i + 1. */
  function Sum(m: Moment, pts: seq<Point>, lo: nat, hi: nat): real
    requires lo <= hi && (lo < hi ==> hi < |pts|)
    decreases hi - lo
  {
    if lo == hi then 0.0 else Sum(m, pts, lo, hi - 1) + Edge(m, pts[hi - 1], pts[hi])
  }

  /** The sum over all edges of a chain. */
  function Total(m: Moment, pts: seq<Point>): real {
    if pts == [] then 0.0 else Sum(m, pts, 0, |pts| - 1)
  }

  lemma EdgeTerms(p: Point, q: Point, cross: real)
    requires cross == p.lon * q.lat - q.lon * p.lat
    ensures Edge(Area, p, q) == cross
    ensures Edge(Lon, p, q) == (p.lon + q.lon) * cross
    ensures Edge(Lat, p, q) == (p.lat + q.lat) * cross
  {
  }

  method Totals(pts: seq<Point>) returns (twiceArea: real, lonSum: real, latSum: real)
    ensures twiceArea == Total(Area, pts) && lonSum == Total(Lon, pts) && latSum == Total(Lat, pts)
  {
    twiceArea, lonSum, latSum := 0.0, 0.0, 0.0;
    if pts == [] {
      return;
    }
    for i := 0 to |pts| - 1
      invariant twiceArea == Sum(Area, pts, 0, i)
      invariant lonSum == Sum(Lon, pts, 0, i)
      invariant latSum == Sum(Lat, pts, 0, i)
    {
      var current, following := pts[i], pts[i + 1];
      var cross := current.lon * following.lat - following.lon * current.lat;
      EdgeTerms(current, following, cross);
      hide Edge, Cross;
      twiceArea := twiceArea + cross;
      lonSum := lonSum + (current.lon + following.lon) * cross;
      latSum := latSum + (current.lat + following.lat) * cross;
    }
  }

  // ---------------------------------------------------------------- translation

  function Translate(p: Point, dx: real, dy: real): Point {
    Point(p.lon + dx, p.lat + dy)
  }

  function TranslateAll(pts: seq<Point>, dx: real, dy: real): (moved: seq<Point>)
    ensures |moved| == |pts|
  {
    seq(|pts|, i requires 0 <= i < |pts| => Translate(pts[i], dx, dy))
  }

  /** Something moved by `t` times the growth of a quantity from `u` to `v`. */
  predicate Telescopes(moved: real, still: real, t: real, u: real, v: real) {
    moved == still + t * (v - u)
  }

  function Square(x: real): real {
    x * x
  }

  lemma TelescopesJoin(m: real, s: real, m': real, s': real, t: real, u: real, v: real, w: real)
    requires Telescopes(m, s, t, u, v) && Telescopes(m', s', t, v, w)
    ensures Telescopes(m + m', s + s', t, u, w)
  {
  }

  lemma EdgeEastward(p: Point, q: Point, t: real)
    ensures var p', q' := Translate(p, t, 0.0), Translate(q, t, 0.0);
            && Telescopes(Edge(Area, p', q'), Edge(Area, p, q), t, p.lat, q.lat)
            && Telescopes(Edge(Lat, p', q'), Edge(Lat, p, q), t, Square(p.lat), Square(q.lat))
  {
  }

  /** What moving a chain east adds to its area sum telescopes to the end points. */
  lemma {:induction false} AreaEastward(pts: seq<Point>, t: real, n: nat)
    requires n < |pts|
    ensures Telescopes(Sum(Area, TranslateAll(pts, t, 0.0), 0, n), Sum(Area, pts, 0, n), t, pts[0].lat, pts[n].lat)
  {
    if n > 0 {
      hide Edge, Telescopes;
      AreaEastward(pts, t, n - 1);
      var p, q := pts[n - 1], pts[n];
      EdgeEastward(p, q, t);
      TelescopesJoin(Sum(Area, TranslateAll(pts, t, 0.0), 0, n - 1), Sum(Area, pts, 0, n - 1),
                     Edge(Area, Translate(p, t, 0.0), Translate(q, t, 0.0)), Edge(Area, p, q),
                     t, pts[0].lat, p.lat, q.lat);
    }
  }

  lemma {:induction false} LatEastward(pts: seq<Point>, t: real, n: nat)
    requires n < |pts|
    ensures Telescopes(Sum(Lat, TranslateAll(pts, t, 0.0), 0, n), Sum(Lat, pts, 0, n), t,
                       Square(pts[0].lat), Square(pts[n].lat))
  {
    if n > 0 {
      hide Edge, Telescopes, Square;
      LatEastward(pts, t, n - 1);
      var p, q := pts[n - 1], pts[n];
      EdgeEastward(p, q, t);
      TelescopesJoin(Sum(Lat, TranslateAll(pts, t, 0.0), 0, n - 1), Sum(Lat, pts, 0, n - 1),
                     Edge(Lat, Translate(p, t, 0.0), Translate(q, t, 0.0)), Edge(Lat, p, q),
                     t, Square(pts[0].lat), Square(p.lat), Square(q.lat));
    }
  }

  /** The first moment of a chain and of the same chain moved east by `t`, given the area sum. */
  predicate LonMoved(moved: real, still: real, area: real, t: real, p: Point, q: Point) {
    moved == still + t * (3.0 * area + q.lon * q.lat - p.lon * p.lat) + 2.0 * t * t * (q.lat - p.lat)
  }

  lemma LonMovedJoins(m: real, s: real, a: real, m': real, s': real, a': real, t: real, o: Point, p: Point, q: Point)
    requires LonMoved(m, s, a, t, o, p) && LonMoved(m', s', a', t, p, q)
    ensures LonMoved(m + m', s + s', a + a', t, o, q)
  {
  }

  lemma EdgeLonMoved(t: real, p: Point, q: Point)
    ensures LonMoved(0.0, 0.0, 0.0, t, p, p)
    ensures LonMoved(Edge(Lon, Translate(p, t, 0.0), Translate(q, t, 0.0)), Edge(Lon, p, q), Edge(Area, p, q), t, p, q)
  {
  }

  lemma {:induction false} LonEastward(pts: seq<Point>, t: real, n: nat)
    requires n < |pts|
    ensures LonMoved(Sum(Lon, TranslateAll(pts, t, 0.0), 0, n), Sum(Lon, pts, 0, n), Sum(Area, pts, 0, n), t,
                     pts[0], pts[n])
  {
    hide Edge, LonMoved;
    if n == 0 {
      EdgeLonMoved(t, pts[0], pts[0]);
    } else {
      LonEastward(pts, t, n - 1);
      var p, q := pts[n - 1], pts[n];
      EdgeLonMoved(t, p, q);
      LonMovedJoins(Sum(Lon, TranslateAll(pts, t, 0.0), 0, n - 1), Sum(Lon, pts, 0, n - 1), Sum(Area, pts, 0, n - 1),
                    Edge(Lon, Translate(p, t, 0.0), Translate(q, t, 0.0)), Edge(Lon, p, q), Edge(Area, p, q),
                    t, pts[0], p, q);
    }
  }

  function Swap(p: Point): Point {
    Point(p.lat, p.lon)
  }

  function SwapAll(pts: seq<Point>): seq<Point> {
    seq(|pts|, i requires 0 <= i < |pts| => Swap(pts[i]))
  }

  lemma EdgeSwapped(p: Point, q: Point)
    ensures Edge(Area, Swap(p), Swap(q)) == -Edge(Area, p, q)
    ensures Edge(Lon, Swap(p), Swap(q)) == -Edge(Lat, p, q)
    ensures Edge(Lat, Swap(p), Swap(q)) == -Edge(Lon, p, q)
  {
  }

  /** Exchanging the axes reverses orientation and exchanges the two first moments. */
  lemma {:induction false} SumSwapped(pts: seq<Point>, n: nat)
    requires n < |pts|
    ensures Sum(Area, SwapAll(pts), 0, n) == -Sum(Area, pts, 0, n)
    ensures Sum(Lon, SwapAll(pts), 0, n) == -Sum(Lat, pts, 0, n)
    ensures Sum(Lat, SwapAll(pts), 0, n) == -Sum(Lon, pts, 0, n)
  {
    hide Edge;
    if n > 0 {
      SumSwapped(pts, n - 1);
      EdgeSwapped(pts[n - 1], pts[n]);
    }
  }

  predicate IsClosed(pts: seq<Point>) {
    pts != [] && pts[0] == pts[|pts| - 1]
  }

  lemma ClosedSums(t: real, p: Point, a: real, a': real, lon: real, lon': real, lat: real, lat': real)
    requires Telescopes(a', a, t, p.lat, p.lat) && Telescopes(lat', lat, t, Square(p.lat), Square(p.lat))
    requires LonMoved(lon', lon, a, t, p, p)
    ensures a' == a && lat' == lat && lon' == lon + t * (3.0 * a)
  {
  }

  lemma ClosedEastward(pts: seq<Point>, t: real)
    requires IsClosed(pts)
    ensures var moved := TranslateAll(pts, t, 0.0);
            && Total(Area, moved) == Total(Area, pts)
            && Total(Lon, moved) == Total(Lon, pts) + t * (3.0 * Total(Area, pts))
            && Total(Lat, moved) == Total(Lat, pts)
  {
    hide Edge, Telescopes, LonMoved, Square;
    AreaEastward(pts, t, |pts| - 1);
    LonEastward(pts, t, |pts| - 1);
    LatEastward(pts, t, |pts| - 1);
    var moved := TranslateAll(pts, t, 0.0);
    ClosedSums(t, pts[0], Total(Area, pts), Total(Area, moved), Total(Lon, pts), Total(Lon, moved),
               Total(Lat, pts), Total(Lat, moved));
  }

  lemma ClosedNorthward(pts: seq<Point>, t: real)
    requires IsClosed(pts)
    ensures var moved := TranslateAll(pts, 0.0, t);
            && Total(Area, moved) == Total(Area, pts)
            && Total(Lon, moved) == Total(Lon, pts)
            && Total(Lat, moved) == Total(Lat, pts) + t * (3.0 * Total(Area, pts))
  {
    hide Edge;
    var n := |pts| - 1;
    var turned := SwapAll(pts);
    SumSwapped(pts, n);
    ClosedEastward(turned, t);
    var moved := TranslateAll(pts, 0.0, t);
    assert SwapAll(moved) == TranslateAll(turned, t, 0.0);
    SumSwapped(moved, n);
  }

  /** A closed chain keeps its area when translated, and its first moments follow. */
  lemma ClosedTranslation(pts: seq<Point>, dx: real, dy: real)
    requires IsClosed(pts)
    ensures var moved := TranslateAll(pts, dx, dy);
            && IsClosed(moved)
            && Total(Area, moved) == Total(Area, pts)
            && Total(Lon, moved) == Total(Lon, pts) + dx * (3.0 * Total(Area, pts))
            && Total(Lat, moved) == Total(Lat, pts) + dy * (3.0 * Total(Area, pts))
  {
    hide Edge;
    var east := TranslateAll(pts, dx, 0.0);
    ClosedEastward(pts, dx);
    ClosedNorthward(east, dy);
    assert TranslateAll(east, 0.0, dy) == TranslateAll(pts, dx, dy);
  }

  // ---------------------------------------------------------------- reversal

  function Reverse(pts: seq<Point>): (back: seq<Point>)
    ensures |back| == |pts|
  {
    seq(|pts|, i requires 0 <= i < |pts| => pts[|pts| - 1 - i])
  }

  lemma {:induction false} SumSplit(m: Moment, pts: seq<Point>, lo: nat, mid: nat, hi: nat)
    requires lo <= mid <= hi && (lo < hi ==> hi < |pts|)
    ensures Sum(m, pts, lo, hi) == Sum(m, pts, lo, mid) + Sum(m, pts, mid, hi)
    decreases hi - mid
  {
    if mid < hi {
      SumSplit(m, pts, lo, mid, hi - 1);
    }
  }

  lemma EdgeReversed(m: Moment, p: Point, q: Point)
    ensures Edge(m, q, p) == -Edge(m, p, q)
  {
  }

  lemma {:induction false} SumReversed(m: Moment, pts: seq<Point>, n: nat)
    requires n < |pts|
    ensures Sum(m, Reverse(pts), 0, n) == -Sum(m, pts, |pts| - 1 - n, |pts| - 1)
  {
    hide Edge;
    if n > 0 {
      var lo := |pts| - 1 - n;
      SumReversed(m, pts, n - 1);
      SumSplit(m, pts, lo, lo + 1, |pts| - 1);
      EdgeReversed(m, pts[lo], pts[lo + 1]);
    }
  }

  /** Walking a chain backwards negates every sum. */
  lemma TotalReversed(m: Moment, pts: seq<Point>)
    ensures Total(m, Reverse(pts)) == -Total(m, pts)
  {
    if pts != [] {
      SumReversed(m, pts, |pts| - 1);
    }
  }

  lemma SumOfPrefix(m: Moment, pts: seq<Point>, more: seq<Point>, n: nat)
    requires n < |pts|
    ensures Sum(m, pts + more, 0, n) == Sum(m, pts, 0, n)
  {
  }

  /** Appending a point adds one edge. */
  lemma TotalAppended(m: Moment, pts: seq<Point>, p: Point)
    requires pts != []
    ensures Total(m, pts + [p]) == Total(m, pts) + Edge(m, pts[|pts| - 1], p)
  {
    SumOfPrefix(m, pts, [p], |pts| - 1);
  }
}
