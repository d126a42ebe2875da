/**
 The loader's reading of a stored area (crates/haze-location/src/geometry.rs:68-163): a decoder
 that takes either byte order and refuses short rings, open rings, empty polygons, ordinates
 outside WGS84, members that are no polygons, and bytes left over.

 It is the reader for which the catalogue is built, and stricter than the builder's encoder.
 */
module WkbLoader {
  import opened Wrappers
  import opened Wkb

  // ---------------------------------------------------------------- ordinates

  const DEGREES_180: Double := 0x4066_8000_0000_0000

  const DEGREES_90: Double := 0x4056_8000_0000_0000

  /** A finite number no larger than the bound in magnitude: doubles of one sign are ordered as
      their bits are, with the infinities and NaN above all others. */
  predicate Within(d: Double, bound: Double) {
    d % 0x8000_0000_0000_0000 <= bound
  }

  predicate Inside(p: Position) {
    Within(p.x, DEGREES_180) && Within(p.y, DEGREES_90)
  }

  predicate AllInside(ring: Ring) {
    forall i | 0 <= i < |ring| :: Inside(ring[i])
  }

  // ---------------------------------------------------------------- the decoder

  function Backwards(bytes: seq<Byte>): (r: seq<Byte>)
    ensures |r| == |bytes|
  {
    seq(|bytes|, i requires 0 <= i < |bytes| => bytes[|bytes| - 1 - i])
  }

  function ReadNumber(bytes: seq<Byte>, k: nat, little: bool): (r: Parsed<nat>)
    ensures r.Parsed? ==> |r.rest| == |bytes| - k
    ensures r.Parsed? ==> r.value < Power256(k)
  {
    if |bytes| < k then Failed
    else
      var raw := if little then bytes[..k] else Backwards(bytes[..k]);
      PackUnpack(raw);
      Parsed(Unpack(raw), bytes[k..])
  }

  function ReadCoordinate(bytes: seq<Byte>, little: bool): (r: Parsed<Position>)
    ensures r.Parsed? ==> |r.rest| == |bytes| - 16
  {
    Widths();
    match ReadNumber(bytes, 8, little)
    case Failed => Failed
    case Parsed(x, rest) =>
      match ReadNumber(rest, 8, little)
      case Failed => Failed
      case Parsed(y, rest') =>
        if Inside(Position(x, y, [])) then Parsed(Position(x, y, []), rest') else Failed
  }

  function ReadCoordinates(n: nat, bytes: seq<Byte>, little: bool): (r: Parsed<Ring>)
    ensures r.Parsed? ==> |r.rest| <= |bytes|
  {
    if n == 0 then Parsed([], bytes)
    else
      match ReadCoordinate(bytes, little)
      case Failed => Failed
      case Parsed(p, rest) =>
        match ReadCoordinates(n - 1, rest, little)
        case Failed => Failed
        case Parsed(ps, rest') => Parsed([p] + ps, rest')
  }

  function ReadRing(bytes: seq<Byte>, little: bool): (r: Parsed<Ring>)
    ensures r.Parsed? ==> |r.rest| < |bytes|
  {
    match ReadNumber(bytes, 4, little)
    case Failed => Failed
    case Parsed(n, rest) =>
      if n < 4 || n > |rest| / 16 then Failed
      else
        match ReadCoordinates(n, rest, little)
        case Failed => Failed
        case Parsed(ring, rest') => if IsClosed(ring) then Parsed(ring, rest') else Failed
  }

  function ReadRings(n: nat, bytes: seq<Byte>, little: bool): (r: Parsed<seq<Ring>>)
    ensures r.Parsed? ==> |r.rest| <= |bytes|
  {
    if n == 0 then Parsed([], bytes)
    else
      match ReadRing(bytes, little)
      case Failed => Failed
      case Parsed(ring, rest) =>
        match ReadRings(n - 1, rest, little)
        case Failed => Failed
        case Parsed(rings, rest') => Parsed([ring] + rings, rest')
  }

  /** `decode_polygon`. */
  function ReadPolygon(bytes: seq<Byte>, little: bool): (r: Parsed<seq<Ring>>)
    ensures r.Parsed? ==> |r.rest| < |bytes|
  {
    match ReadNumber(bytes, 4, little)
    case Failed => Failed
    case Parsed(n, rest) =>
      if n > |rest| / 4 then Failed
      else
        match ReadRings(n, rest, little)
        case Failed => Failed
        case Parsed(rings, rest') => if rings == [] then Failed else Parsed(rings, rest')
  }

  /** `decode_geometry`; the type is the lowest byte of its word. */
  function ReadGeometry(bytes: seq<Byte>): (r: Parsed<Geometry>)
    ensures r.Parsed? ==> |r.rest| < |bytes|
    decreases |bytes|, 0
  {
    if bytes == [] || bytes[0] > 1 then Failed
    else
      var little := bytes[0] == 1;
      match ReadNumber(bytes[1..], 4, little)
      case Failed => Failed
      case Parsed(word, rest) =>
        if word % 256 == 1 then
          match ReadCoordinate(rest, little)
          case Failed => Failed
          case Parsed(p, rest') => Parsed(Point(p), rest')
        else if word % 256 == 3 then
          match ReadPolygon(rest, little)
          case Failed => Failed
          case Parsed(rings, rest') => Parsed(Polygon(rings), rest')
        else if word % 256 == 6 then
          match ReadNumber(rest, 4, little)
          case Failed => Failed
          case Parsed(n, rest') =>
            if n > |rest'| / 9 then Failed
            else
              match ReadMembers(n, rest')
              case Failed => Failed
              case Parsed(polygons, rest'') => Parsed(MultiPolygon(polygons), rest'')
        else Failed
  }

  function ReadMembers(n: nat, bytes: seq<Byte>): (r: Parsed<seq<seq<Ring>>>)
    ensures r.Parsed? ==> |r.rest| <= |bytes|
    decreases |bytes|, 1, n
  {
    if n == 0 then Parsed([], bytes)
    else
      match ReadGeometry(bytes)
      case Failed => Failed
      case Parsed(g, rest) =>
        if !g.Polygon? then Failed
        else
          match ReadMembers(n - 1, rest)
          case Failed => Failed
          case Parsed(polygons, rest') => Parsed([g.rings] + polygons, rest')
  }

  /** `wkb_to_geojson`. */
  function Load(bytes: seq<Byte>): Option<Geometry> {
    match ReadGeometry(bytes)
    case Failed => None
    case Parsed(g, rest) => if rest == [] then Some(g) else None
  }

  // ---------------------------------------------------------------- what it takes

  predicate RingLoads(ring: Ring) {
    |ring| >= 4 && AllInside(ring) && IsClosed(ring)
  }

  predicate RingsLoad(rings: seq<Ring>) {
    forall i | 0 <= i < |rings| :: RingLoads(rings[i])
  }

  predicate PolygonLoads(rings: seq<Ring>) {
    rings != [] && RingsLoad(rings)
  }

  predicate PolygonsLoad(polygons: seq<seq<Ring>>) {
    forall i | 0 <= i < |polygons| :: PolygonLoads(polygons[i])
  }

  predicate Loads(g: Geometry) {
    match g
    case Point(at) => Inside(at)
    case Polygon(rings) => PolygonLoads(rings)
    case MultiPolygon(polygons) => PolygonsLoad(polygons)
    case Unsupported => false
  }

  // ---------------------------------------------------------------- reading what the builder wrote

  function When<T>(ok: bool, value: T, rest: seq<Byte>): Parsed<T> {
    if ok then Parsed(value, rest) else Failed
  }

  lemma NumberReadsBack(n: nat, k: nat, rest: seq<Byte>)
    requires n < Power256(k)
    ensures ReadNumber(Pack(n, k) + rest, k, true) == Parsed(n, rest)
  {
    NumberRoundTrip(n, k, rest);
  }

  lemma CoordinateReadsBack(p: Position, rest: seq<Byte>)
    ensures ReadCoordinate(EncodePosition(p) + rest, true) == When(Inside(Flat(p)), Flat(p), rest)
  {
    Widths();
    NumberReadsBack(p.x, 8, Pack(p.y, 8) + rest);
    NumberReadsBack(p.y, 8, rest);
    assert EncodePosition(p) + rest == Pack(p.x, 8) + (Pack(p.y, 8) + rest);
    hide Pack, Power256, ReadNumber;
  }

  lemma {:induction false} CoordinatesReadBack(ps: Ring, rest: seq<Byte>)
    ensures ReadCoordinates(|ps|, EncodePositions(ps) + rest, true) == When(AllInside(FlatRing(ps)), FlatRing(ps), rest)
    ensures |EncodePositions(ps)| == 16 * |ps|
    decreases |ps|
  {
    hide EncodePosition, ReadCoordinate, Inside;
    var flat := FlatRing(ps);
    if ps == [] {
      assert [] + rest == rest;
    } else {
      var tail := EncodePositions(ps[1..]) + rest;
      assert EncodePositions(ps) + rest == EncodePosition(ps[0]) + tail;
      CoordinateReadsBack(ps[0], tail);
      CoordinatesReadBack(ps[1..], rest);
      assert [Flat(ps[0])] + FlatRing(ps[1..]) == flat;
      assert AllInside(flat) <==> Inside(flat[0]) && AllInside(flat[1..]);
      assert flat[1..] == FlatRing(ps[1..]);
    }
  }

  /** What the encoder closed, the loader finds closed. */
  lemma ClosedForTheLoader(ring: Ring)
    ensures AllInside(FlatRing(CloseRing(ring))) ==> IsClosed(FlatRing(CloseRing(ring)))
  {
    var closed := CloseRing(ring);
    var flat := FlatRing(closed);
    if AllInside(flat) && flat != [] {
      assert Inside(flat[0]);
      assert flat[0] == Flat(closed[0]) && flat[|flat| - 1] == Flat(closed[|closed| - 1]);
    }
  }

  lemma RingReadsBack(ring: Ring, rest: seq<Byte>)
    requires EncodeRing(ring).Ok?
    ensures var flat := FlatRing(CloseRing(ring));
            ReadRing(EncodeRing(ring).value + rest, true) == When(RingLoads(flat), flat, rest)
    ensures |EncodeRing(ring).value| >= 4
  {
    var closed := CloseRing(ring);
    Widths();
    ClosedForTheLoader(ring);
    hide CloseRing, Pack, Power256, ReadNumber, ReadCoordinates, EncodePositions, IsClosed, AllInside;
    var tail := EncodePositions(closed) + rest;
    NumberReadsBack(|closed|, 4, tail);
    CoordinatesReadBack(closed, rest);
    assert EncodeRing(ring).value + rest == Pack(|closed|, 4) + tail;
    assert |FlatRing(closed)| == |closed|;
    assert |tail| / 16 >= |closed|;
  }

  lemma RingsLoadSplits(ring: Ring, rings: seq<Ring>)
    ensures RingsLoad([ring] + rings) <==> RingLoads(ring) && RingsLoad(rings)
  {
    hide RingLoads;
    var all := [ring] + rings;
    assert all[0] == ring && forall i | 0 <= i < |rings| :: all[i + 1] == rings[i];
  }

  lemma PolygonsLoadSplits(rings: seq<Ring>, polygons: seq<seq<Ring>>)
    ensures PolygonsLoad([rings] + polygons) <==> PolygonLoads(rings) && PolygonsLoad(polygons)
  {
    hide PolygonLoads;
    var all := [rings] + polygons;
    assert all[0] == rings && forall i | 0 <= i < |polygons| :: all[i + 1] == polygons[i];
  }

  lemma {:induction false} RingsReadBack(rings: seq<Ring>, rest: seq<Byte>)
    requires EncodeRings(rings).Ok?
    ensures ReadRings(|rings|, EncodeRings(rings).value + rest, true) == When(RingsLoad(Kept(rings)), Kept(rings), rest)
    ensures |EncodeRings(rings).value| >= 4 * |rings|
    decreases |rings|
  {
    hide EncodeRing, ReadRing, CloseRing, FlatRing, RingLoads;
    if rings == [] {
      assert [] + rest == rest;
    } else {
      var tail := EncodeRings(rings[1..]).value + rest;
      assert EncodeRings(rings).value + rest == EncodeRing(rings[0]).value + tail;
      RingReadsBack(rings[0], tail);
      RingsReadBack(rings[1..], rest);
      assert [FlatRing(CloseRing(rings[0]))] + Kept(rings[1..]) == Kept(rings);
      RingsLoadSplits(FlatRing(CloseRing(rings[0])), Kept(rings[1..]));
      hide RingsLoad;
    }
  }

  lemma PolygonReadsBack(rings: seq<Ring>, rest: seq<Byte>)
    requires |rings| < 0x1_0000_0000 && EncodeRings(rings).Ok?
    ensures ReadPolygon(Pack(|rings|, 4) + (EncodeRings(rings).value + rest), true)
            == When(PolygonLoads(Kept(rings)), Kept(rings), rest)
  {
    Widths();
    hide Pack, Power256, ReadNumber, EncodeRings, ReadRings, RingLoads;
    var tail := EncodeRings(rings).value + rest;
    NumberReadsBack(|rings|, 4, tail);
    RingsReadBack(rings, rest);
    assert |Kept(rings)| == |rings|;
  }

  lemma HeaderReadsBack(code: nat, rest: seq<Byte>)
    requires code < 256
    ensures var bytes := Header(code) + rest;
            bytes[0] == 1 && ReadNumber(bytes[1..], 4, true) == Parsed(code, rest)
  {
    Widths();
    NumberReadsBack(code, 4, rest);
    assert (Header(code) + rest)[1..] == Pack(code, 4) + rest;
  }

  lemma MemberReadsBack(rings: seq<Ring>, rest: seq<Byte>)
    requires EncodePolygon(rings).Ok?
    ensures ReadGeometry(EncodePolygon(rings).value + rest)
            == When(PolygonLoads(Kept(rings)), Polygon(Kept(rings)), rest)
    ensures |EncodePolygon(rings).value| >= 9
  {
    hide Header, Pack, ReadNumber, ReadPolygon, EncodeRings, PolygonLoads, Kept, ReadMembers, ReadCoordinate;
    var tail := Pack(|rings|, 4) + (EncodeRings(rings).value + rest);
    HeaderReadsBack(3, tail);
    PolygonReadsBack(rings, rest);
    assert EncodePolygon(rings).value + rest == Header(3) + tail;
  }

  lemma {:induction false} MembersReadBack(polygons: seq<seq<Ring>>, rest: seq<Byte>)
    requires EncodePolygons(polygons).Ok?
    ensures ReadMembers(|polygons|, EncodePolygons(polygons).value + rest)
            == When(PolygonsLoad(KeptAll(polygons)), KeptAll(polygons), rest)
    ensures |EncodePolygons(polygons).value| >= 9 * |polygons|
    decreases |polygons|
  {
    hide EncodePolygon, ReadGeometry, PolygonLoads, Kept;
    if polygons == [] {
      assert [] + rest == rest;
    } else {
      var tail := EncodePolygons(polygons[1..]).value + rest;
      assert EncodePolygons(polygons).value + rest == EncodePolygon(polygons[0]).value + tail;
      MemberReadsBack(polygons[0], tail);
      MembersReadBack(polygons[1..], rest);
      assert [Kept(polygons[0])] + KeptAll(polygons[1..]) == KeptAll(polygons);
      PolygonsLoadSplits(Kept(polygons[0]), KeptAll(polygons[1..]));
      hide PolygonsLoad;
    }
  }

  lemma ReadsBack(g: Geometry)
    requires Encode(g).Ok?
    ensures ReadGeometry(Encode(g).value) == When(Loads(Canonical(g)), Canonical(g), [])
  {
    hide Header, Pack, Power256, EncodePosition, ReadCoordinate, EncodeRings, ReadNumber, ReadPolygon;
    hide EncodePolygons, EncodePolygon, ReadMembers, Kept, PolygonLoads;
    match g
    case Point(at) =>
      HeaderReadsBack(1, EncodePosition(at));
      CoordinateReadsBack(at, []);
      assert EncodePosition(at) + [] == EncodePosition(at);
    case Polygon(rings) =>
      MemberReadsBack(rings, []);
      assert Encode(g).value + [] == Encode(g).value;
    case MultiPolygon(polygons) =>
      Widths();
      var body := EncodePolygons(polygons).value;
      HeaderReadsBack(6, Pack(|polygons|, 4) + body);
      NumberReadsBack(|polygons|, 4, body);
      MembersReadBack(polygons, []);
      assert body + [] == body;
      assert Encode(g).value == Header(6) + (Pack(|polygons|, 4) + body);
    case Unsupported =>
  }

  /** The loader reads an encoded geometry as what was encoded, or refuses it; and it takes it
      exactly when every polygon has a ring and every ring, once closed, has four positions, all
      of them inside WGS84. */
  lemma LoadsWhatWasEncodedIff(g: Geometry)
    requires Encode(g).Ok?
    ensures Load(Encode(g).value) == if Loads(Canonical(g)) then Some(Canonical(g)) else None
  {
    ReadsBack(g);
  }

  // ---------------------------------------------------------------- byte orders and types

  lemma LowByte(raw: seq<Byte>)
    requires raw != []
    ensures Unpack(raw) % 256 == raw[0]
  {
  }

  /** Of a geometry's word, its lowest byte in the byte order that the mark says. */
  function TypeByte(bytes: seq<Byte>): Byte
    requires |bytes| >= 5
  {
    if bytes[0] == 1 then bytes[1] else bytes[4]
  }

  lemma WordIsRead(bytes: seq<Byte>)
    requires |bytes| >= 5 && bytes[0] <= 1
    ensures var r := ReadNumber(bytes[1..], 4, bytes[0] == 1);
            r.Parsed? && r.value % 256 == TypeByte(bytes) && r.rest == bytes[5..]
  {
    var little := bytes[0] == 1;
    var first := bytes[1..][..4];
    LowByte(if little then first else Backwards(first));
    assert first[0] == bytes[1] && first[3] == bytes[4];
    assert bytes[1..][4..] == bytes[5..];
    hide Unpack;
  }

  /** What the loader takes has a mark of 0 or 1, and its type is that of the geometry: 1, 3 or 6. */
  lemma LoadedIsMarked(bytes: seq<Byte>)
    requires Load(bytes).Some?
    ensures |bytes| >= 5 && (bytes[0] == 0 || bytes[0] == 1)
    ensures match Load(bytes).value
            case Point(_) => TypeByte(bytes) == 1
            case Polygon(_) => TypeByte(bytes) == 3
            case MultiPolygon(_) => TypeByte(bytes) == 6
            case Unsupported => false
  {
    hide ReadCoordinate, ReadPolygon, ReadMembers;
    assert ReadNumber(bytes[1..], 4, bytes[0] == 1).Parsed?;
    WordIsRead(bytes);
    hide ReadNumber;
  }

  /** The other three bytes of the word are ignored. */
  lemma FlagsAreIgnored(bytes: seq<Byte>, others: seq<Byte>)
    requires |bytes| >= 5 && |others| >= 5 && bytes[0] == others[0] && bytes[5..] == others[5..]
    requires TypeByte(bytes) == TypeByte(others)
    ensures Load(bytes) == Load(others)
  {
    hide ReadCoordinate, ReadPolygon, ReadMembers;
    if bytes[0] <= 1 {
      WordIsRead(bytes);
      WordIsRead(others);
    }
    hide ReadNumber, TypeByte;
  }

  /** A number with its highest byte first is the one whose bytes are these backwards. */
  lemma EitherByteOrder(bytes: seq<Byte>, k: nat)
    requires k <= |bytes|
    ensures ReadNumber(bytes, k, false) == ReadNumber(Backwards(bytes[..k]) + bytes[k..], k, true)
  {
    var turned := Backwards(bytes[..k]) + bytes[k..];
    assert turned[..k] == Backwards(bytes[..k]) && turned[k..] == bytes[k..];
    hide Unpack;
  }

  // ---------------------------------------------------------------- the bounds as numbers

  const FRACTION := 0x10_0000_0000_0000

  function Exponent(d: Double): nat {
    (d % 0x8000_0000_0000_0000) / FRACTION
  }

  function Fraction(d: Double): nat {
    d % FRACTION
  }

  function Pow2(n: nat): (p: nat)
    ensures p > 0
  {
    if n == 0 then 1 else 2 * Pow2(n - 1)
  }

  predicate IsFinite(d: Double) {
    Exponent(d) < 0x7FF
  }

  /** The magnitude of a finite double, as a multiple of the smallest one, 2 to the power of -1074. */
  function Units(d: Double): nat {
    if Exponent(d) == 0 then Fraction(d) else (FRACTION + Fraction(d)) * Pow2(Exponent(d) - 1)
  }

  lemma {:induction false} PowersGrow(m: nat, n: nat)
    requires m <= n
    ensures Pow2(m) <= Pow2(n)
    decreases n
  {
    if m < n {
      PowersGrow(m, n - 1);
    }
  }

  lemma {:induction false} PowersMultiply(m: nat, n: nat)
    ensures Pow2(m + n) == Pow2(m) * Pow2(n)
    decreases n
  {
    if n > 0 {
      PowersMultiply(m, n - 1);
      assert Pow2(m + n) == 2 * (Pow2(m) * Pow2(n - 1)) == Pow2(m) * (2 * Pow2(n - 1));
    }
  }

  lemma Grows(a: nat, b: nat, k: nat)
    requires a <= b
    ensures a * k <= b * k
    ensures a < b && k > 0 ==> a * k < b * k
  {
    assert b * k == a * k + (b - a) * k;
  }

  /** Bits without the sign are ordered as magnitudes are. */
  lemma UnitsGrow(a: Double, b: Double)
    requires a % 0x8000_0000_0000_0000 < b % 0x8000_0000_0000_0000
    ensures Units(a) < Units(b)
  {
    var (e, f) := (Exponent(a), Fraction(a));
    var (e', f') := (Exponent(b), Fraction(b));
    Split(a);
    Split(b);
    hide Exponent, Fraction;
    assert e <= e' && (e == e' ==> f < f');
    if e == e' {
      if e > 0 {
        Grows(FRACTION + f, FRACTION + f', Pow2(e - 1));
      }
    } else {
      Grows(FRACTION, FRACTION + f', Pow2(e' - 1));
      PowersGrow(e, e' - 1);
      Grows(Pow2(e), Pow2(e' - 1), FRACTION);
      if e > 0 {
        Grows(FRACTION + f, 2 * FRACTION, Pow2(e - 1));
        assert 2 * FRACTION * Pow2(e - 1) == FRACTION * Pow2(e);
      } else {
        assert Pow2(0) == 1;
      }
    }
  }

  lemma Split(d: Double)
    ensures d % 0x8000_0000_0000_0000 == Exponent(d) * FRACTION + Fraction(d)
    ensures Fraction(d) < FRACTION
  {
  }

  lemma Regroup(a: nat, b: nat, c: nat)
    ensures (a * b) * c == a * (b * c)
  {
  }

  lemma BoundIs(bound: Double, degrees: nat, e: nat, k: nat)
    requires Exponent(bound) == e + 1 && k + e == 1074
    requires FRACTION + Fraction(bound) == degrees * Pow2(k)
    ensures Units(bound) == degrees * Pow2(1074)
  {
    hide Exponent, Fraction, Pow2, FRACTION;
    PowersMultiply(k, e);
    Regroup(degrees, Pow2(k), Pow2(e));
  }

  lemma BoundsAre()
    ensures Units(DEGREES_180) == 180 * Pow2(1074) && Units(DEGREES_90) == 90 * Pow2(1074)
    ensures IsFinite(DEGREES_180) && IsFinite(DEGREES_90)
    ensures DEGREES_180 < 0x8000_0000_0000_0000 && DEGREES_90 < 0x8000_0000_0000_0000
  {
    Powers45();
    BoundIs(DEGREES_180, 180, 1029, 45);
    BoundIs(DEGREES_90, 90, 1028, 46);
  }

  lemma Powers45()
    ensures Pow2(45) == 0x2000_0000_0000 && Pow2(46) == 0x4000_0000_0000
  {
    assert Pow2(1) == 2 && Pow2(5) == 32;
    hide Pow2;
    PowersMultiply(5, 5);
    PowersMultiply(10, 10);
    PowersMultiply(20, 20);
    PowersMultiply(40, 5);
    PowersMultiply(45, 1);
  }

  /** The loader takes a position exactly if both ordinates are finite and within 180 and 90 degrees. */
  lemma InsideIff(p: Position)
    ensures Inside(p) <==>
            && IsFinite(p.x) && Units(p.x) <= 180 * Pow2(1074)
            && IsFinite(p.y) && Units(p.y) <= 90 * Pow2(1074)
  {
    BoundsAre();
    WithinIff(p.x, DEGREES_180);
    WithinIff(p.y, DEGREES_90);
    hide Units, IsFinite, Within, Pow2;
  }

  lemma WithinIff(d: Double, bound: Double)
    requires bound < 0x8000_0000_0000_0000 && IsFinite(bound)
    ensures Within(d, bound) <==> IsFinite(d) && Units(d) <= Units(bound)
  {
    var m := d % 0x8000_0000_0000_0000;
    if m < bound {
      UnitsGrow(d, bound);
    } else if m > bound {
      UnitsGrow(bound, d);
    } else {
      SameUnits(d, bound);
    }
    Split(d);
    Split(bound);
    hide Units;
  }

  lemma SameUnits(d: Double, bound: Double)
    requires d % 0x8000_0000_0000_0000 == bound
    ensures Units(d) == Units(bound)
  {
    Split(d);
    Split(bound);
    hide Pow2;
    var (e, f) := (Exponent(d), Fraction(d));
    var (e', f') := (Exponent(bound), Fraction(bound));
    hide Exponent, Fraction;
    assert e == e' && f == f';
  }
}
