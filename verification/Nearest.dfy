/**
 The nearest place on the sphere (scripts/util/mergeCLC_SGC.py:912-929, 1469-1487): a tree over
 vectors in space against a loop over haversine distances.

 Coordinates are exact reals.  Sine and cosine are functions known only by the identities in
 `Laws`; the length of an arc is a function that grows with the haversine.
 */
module Nearest {
  import opened Wrappers

  datatype Trig = Trig(sin: real -> real, cos: real -> real, radian: real, arc: real -> real)

  function Radians(t: Trig, degrees: real): real {
    degrees * t.radian
  }

  function Square(x: real): real {
    x * x
  }

  function Product(x: real, y: real): real {
    x * y
  }

  predicate Pythagoras(t: Trig, x: real) {
    Square(t.sin(x)) + Square(t.cos(x)) == 1.0
  }

  predicate Difference(t: Trig, x: real, y: real) {
    t.cos(y - x) == Product(t.cos(x), t.cos(y)) + Product(t.sin(x), t.sin(y))
  }

  predicate HalfAngle(t: Trig, x: real) {
    t.cos(x) == 1.0 - 2.0 * Square(t.sin(x / 2.0))
  }

  ghost predicate Laws(t: Trig) {
    && (forall x :: Pythagoras(t, x))
    && (forall x, y :: Difference(t, x, y))
    && (forall x :: HalfAngle(t, x))
  }

  predicate Ordered(t: Trig, a: real, b: real) {
    0.0 <= a <= b <= 1.0 ==> t.arc(a) <= t.arc(b)
  }

  /** `R * 2 * atan2(sqrt(a), sqrt(1 - a))` grows with `a` where it is defined. */
  ghost predicate Grows(t: Trig) {
    forall a, b :: Ordered(t, a, b)
  }

  datatype Point = Point(lat: real, lon: real)

  /** The argument of the arc in `haversine_km`. */
  function Haversine(t: Trig, p: Point, q: Point): real {
    var dPhi, dLambda := Radians(t, q.lat - p.lat), Radians(t, q.lon - p.lon);
    Square(t.sin(dPhi / 2.0))
    + Product(Product(t.cos(Radians(t, p.lat)), t.cos(Radians(t, q.lat))), Square(t.sin(dLambda / 2.0)))
  }

  function Distance(t: Trig, p: Point, q: Point): real {
    t.arc(Haversine(t, p, q))
  }

  datatype Vector = Vector(x: real, y: real, z: real)

  function EarthVector(t: Trig, p: Point): Vector {
    var phi, lam := Radians(t, p.lat), Radians(t, p.lon);
    Vector(Product(t.cos(phi), t.cos(lam)), Product(t.cos(phi), t.sin(lam)), t.sin(phi))
  }

  /** The squared length of the chord between two vectors. */
  function Chord(u: Vector, v: Vector): real {
    Square(u.x - v.x) + Square(u.y - v.y) + Square(u.z - v.z)
  }

  // ---------------------------------------------------------------- chords and arcs

  function Norm(u: Vector): real {
    Square(u.x) + Square(u.y) + Square(u.z)
  }

  function Dot(u: Vector, v: Vector): real {
    Product(u.x, v.x) + Product(u.y, v.y) + Product(u.z, v.z)
  }

  lemma SquareOfDifference(a: real, b: real)
    ensures Square(a - b) == Square(a) + Square(b) - 2.0 * Product(a, b)
    ensures Square(a + b) == Square(a) + Square(b) + 2.0 * Product(a, b)
  {
  }

  lemma SquareIsPositive(a: real)
    ensures Square(a) >= 0.0
  {
  }

  lemma SquareOfProduct(a: real, b: real)
    ensures Square(Product(a, b)) == Product(Square(a), Square(b))
  {
    assert (a * b) * (a * b) == (a * a) * (b * b);
  }

  lemma Distribute(k: real, a: real, b: real)
    ensures Product(k, a) + Product(k, b) == Product(k, a + b)
    ensures Product(k, 1.0) == k
  {
  }

  lemma Exchange(a: real, b: real, c: real, d: real)
    ensures Product(Product(a, b), Product(c, d)) == Product(Product(a, c), Product(b, d))
  {
    assert (a * b) * (c * d) == (a * c) * (b * d);
  }

  lemma ChordIs(u: Vector, v: Vector)
    ensures Chord(u, v) == Norm(u) + Norm(v) - 2.0 * Dot(u, v)
  {
    hide Square, Product;
    SquareOfDifference(u.x, v.x);
    SquareOfDifference(u.y, v.y);
    SquareOfDifference(u.z, v.z);
  }

  lemma ChordOfUnits(u: Vector, v: Vector)
    requires Norm(u) == 1.0 && Norm(v) == 1.0
    ensures 0.0 <= Chord(u, v) <= 4.0
  {
    hide Square, Product;
    ChordIs(u, v);
    SquareOfDifference(u.x, v.x);
    SquareOfDifference(u.y, v.y);
    SquareOfDifference(u.z, v.z);
    SquareIsPositive(u.x + v.x);
    SquareIsPositive(u.y + v.y);
    SquareIsPositive(u.z + v.z);
    SquareIsPositive(u.x - v.x);
    SquareIsPositive(u.y - v.y);
    SquareIsPositive(u.z - v.z);
  }

  lemma EarthVectorIsUnit(t: Trig, p: Point)
    requires Laws(t)
    ensures Norm(EarthVector(t, p)) == 1.0
  {
    hide Square, Product, Radians;
    var phi, lam := Radians(t, p.lat), Radians(t, p.lon);
    assert Pythagoras(t, phi) && Pythagoras(t, lam);
    SquareOfProduct(t.cos(phi), t.cos(lam));
    SquareOfProduct(t.cos(phi), t.sin(lam));
    Distribute(Square(t.cos(phi)), Square(t.cos(lam)), Square(t.sin(lam)));
  }

  lemma RadiansOfDifference(t: Trig, p: real, q: real)
    ensures Radians(t, q - p) == Radians(t, q) - Radians(t, p)
  {
  }

  lemma CosOfDifference(t: Trig, p: real, q: real)
    requires Laws(t)
    ensures t.cos(Radians(t, q - p)) ==
            Product(t.cos(Radians(t, p)), t.cos(Radians(t, q))) + Product(t.sin(Radians(t, p)), t.sin(Radians(t, q)))
  {
    hide Product, Radians;
    RadiansOfDifference(t, p, q);
    assert Difference(t, Radians(t, p), Radians(t, q));
  }

  /** The part of the inner product that depends on the longitudes. */
  lemma DotIs(t: Trig, p: Point, q: Point)
    requires Laws(t)
    ensures var k := Product(t.cos(Radians(t, p.lat)), t.cos(Radians(t, q.lat)));
            Dot(EarthVector(t, p), EarthVector(t, q)) ==
            Product(k, t.cos(Radians(t, q.lon - p.lon)))
            + Product(t.sin(Radians(t, p.lat)), t.sin(Radians(t, q.lat)))
  {
    hide Square, Product, Radians, Laws;
    var cp, cq := t.cos(Radians(t, p.lat)), t.cos(Radians(t, q.lat));
    Exchange(cp, t.cos(Radians(t, p.lon)), cq, t.cos(Radians(t, q.lon)));
    Exchange(cp, t.sin(Radians(t, p.lon)), cq, t.sin(Radians(t, q.lon)));
    Distribute(Product(cp, cq), Product(t.cos(Radians(t, p.lon)), t.cos(Radians(t, q.lon))),
               Product(t.sin(Radians(t, p.lon)), t.sin(Radians(t, q.lon))));
    CosOfDifference(t, p.lon, q.lon);
  }

  lemma Scale(k: real, h: real, c: real)
    requires c == 1.0 - 2.0 * h
    ensures 2.0 * Product(k, h) == k - Product(k, c)
  {
    assert k * c == k - 2.0 * (k * h);
  }

  /** The squared chord between two places is four times the haversine of their distance. */
  lemma ChordIsHaversine(t: Trig, p: Point, q: Point)
    requires Laws(t)
    ensures Chord(EarthVector(t, p), EarthVector(t, q)) == 4.0 * Haversine(t, p, q)
  {
    EarthVectorIsUnit(t, p);
    EarthVectorIsUnit(t, q);
    ChordIs(EarthVector(t, p), EarthVector(t, q));
    DotIs(t, p, q);
    CosOfDifference(t, p.lat, q.lat);
    var dPhi, dLambda := Radians(t, q.lat - p.lat), Radians(t, q.lon - p.lon);
    assert HalfAngle(t, dPhi) && HalfAngle(t, dLambda);
    hide Square, Product, Radians, Laws, Chord, Norm, Dot, EarthVector;
    var k := Product(t.cos(Radians(t, p.lat)), t.cos(Radians(t, q.lat)));
    Scale(k, Square(t.sin(dLambda / 2.0)), t.cos(dLambda));
  }

  /** The square roots in the arc are defined for all coordinates. */
  lemma HaversineIsInRange(t: Trig, p: Point, q: Point)
    requires Laws(t)
    ensures 0.0 <= Haversine(t, p, q) <= 1.0
  {
    hide Haversine, Chord, EarthVector, Norm, Laws;
    ChordIsHaversine(t, p, q);
    EarthVectorIsUnit(t, p);
    EarthVectorIsUnit(t, q);
    ChordOfUnits(EarthVector(t, p), EarthVector(t, q));
  }

  // ---------------------------------------------------------------- the two searches

  /** The place nearest in space. */
  predicate NearestChord(t: Trig, places: seq<Point>, from: Point, i: nat) {
    && i < |places|
    && forall j | 0 <= j < |places| ::
         Chord(EarthVector(t, from), EarthVector(t, places[i])) <= Chord(EarthVector(t, from), EarthVector(t, places[j]))
  }

  /** The place nearest on the sphere. */
  predicate NearestArc(t: Trig, places: seq<Point>, from: Point, i: nat) {
    && i < |places|
    && forall j | 0 <= j < |places| :: Distance(t, from, places[i]) <= Distance(t, from, places[j])
  }

  /** `min` with a key: the first of the nearest places. */
  method BruteForce(t: Trig, places: seq<Point>, from: Point) returns (i: nat)
    requires places != []
    ensures NearestArc(t, places, from, i)
    ensures forall j | 0 <= j < i :: Distance(t, from, places[j]) > Distance(t, from, places[i])
  {
    i := 0;
    var k := 1;
    while k < |places|
      invariant 1 <= k <= |places| && 0 <= i < k
      invariant forall j | 0 <= j < k :: Distance(t, from, places[i]) <= Distance(t, from, places[j])
      invariant forall j | 0 <= j < i :: Distance(t, from, places[j]) > Distance(t, from, places[i])
    {
      if Distance(t, from, places[k]) < Distance(t, from, places[i]) {
        i := k;
      }
      k := k + 1;
    }
  }

  /** `SpatialIndex.nearest`: with a tree, `found` is the tree's answer. */
  method FindNearest(t: Trig, places: seq<Point>, from: Point, hasTree: bool, found: nat)
    returns (best: Option<nat>, distance: Option<real>)
    requires hasTree && places != [] ==> NearestChord(t, places, from, found)
    ensures best.None? <==> places == []
    ensures best.Some? ==>
              && best.value < |places|
              && distance == Some(Distance(t, from, places[best.value]))
              && (hasTree ==> best.value == found)
              && (!hasTree ==> NearestArc(t, places, from, best.value))
  {
    if places == [] {
      return None, None;
    }
    var i := found;
    if !hasTree {
      i := BruteForce(t, places, from);
    }
    return Some(i), Some(Distance(t, from, places[i]));
  }

  /** A minimiser of chords is a minimiser of arcs. */
  lemma ChordsOrderArcs(t: Trig, places: seq<Point>, from: Point, i: nat)
    requires Laws(t) && Grows(t) && NearestChord(t, places, from, i)
    ensures NearestArc(t, places, from, i)
  {
    hide Haversine, Chord, EarthVector, Laws;
    forall j | 0 <= j < |places|
      ensures Distance(t, from, places[i]) <= Distance(t, from, places[j])
    {
      ChordIsHaversine(t, from, places[i]);
      ChordIsHaversine(t, from, places[j]);
      HaversineIsInRange(t, from, places[i]);
      HaversineIsInRange(t, from, places[j]);
      assert Ordered(t, Haversine(t, from, places[i]), Haversine(t, from, places[j]));
    }
  }

  /** The tree and the loop return the same distance for every list of places, and the same
      place when only one is nearest. */
  lemma SearchesAgree(t: Trig, places: seq<Point>, from: Point, byTree: nat, byLoop: nat)
    requires Laws(t) && Grows(t)
    requires NearestChord(t, places, from, byTree) && NearestArc(t, places, from, byLoop)
    ensures Distance(t, from, places[byTree]) == Distance(t, from, places[byLoop])
    ensures (forall j | 0 <= j < |places| && j != byLoop ::
               Distance(t, from, places[j]) > Distance(t, from, places[byLoop])) ==> byTree == byLoop
  {
    hide Distance, NearestChord, Laws, Grows;
    ChordsOrderArcs(t, places, from, byTree);
  }
}
