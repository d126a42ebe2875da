/**
 Well-known binary of catalogue geometries (scripts/util/build_location_catalog.py:344-363).

 The encoder follows the source.  The decoder is an independent reading of the format, after
 clause 8 of OGC 06-103r4, little-endian.  The two are inverse to each other, which is what
 makes equality of encoded bytes a sound test for a repeated geometry.
 */
module Wkb {
  import opened Wrappers

  type Byte = n: nat | n < 256

  /** An IEEE 754 double, given by its 64 bits. */
  type Double = n: nat | n < 0x1_0000_0000_0000_0000

  // Ordinates after the first two are carried by the input and dropped by the encoder.
  datatype Position = Position(x: Double, y: Double, more: seq<Double>)

  type Ring = seq<Position>

  datatype Geometry =
    | Point(at: Position)
    | Polygon(rings: seq<Ring>)
    | MultiPolygon(polygons: seq<seq<Ring>>)
    | Unsupported

  datatype Error = UnsupportedType | CountTooLarge

  // ---------------------------------------------------------------- little-endian numbers

  function Power256(k: nat): (p: nat)
    ensures p > 0
  {
    if k == 0 then 1 else 256 * Power256(k - 1)
  }

  function Pack(n: nat, k: nat): (bytes: seq<Byte>)
    ensures |bytes| == k
  {
    if k == 0 then [] else [n % 256] + Pack(n / 256, k - 1)
  }

  function Unpack(bytes: seq<Byte>): nat {
    if bytes == [] then 0 else bytes[0] + 256 * Unpack(bytes[1..])
  }

  lemma {:induction false} UnpackPack(n: nat, k: nat)
    requires n < Power256(k)
    ensures Unpack(Pack(n, k)) == n
  {
    if k > 0 {
      UnpackPack(n / 256, k - 1);
      assert Pack(n, k)[1..] == Pack(n / 256, k - 1);
    }
  }

  lemma {:induction false} PackUnpack(bytes: seq<Byte>)
    ensures Unpack(bytes) < Power256(|bytes|)
    ensures Pack(Unpack(bytes), |bytes|) == bytes
  {
    if bytes != [] {
      PackUnpack(bytes[1..]);
      assert bytes == [bytes[0]] + bytes[1..];
    }
  }

  lemma Widths()
    ensures Power256(4) == 0x1_0000_0000 && Power256(8) == 0x1_0000_0000_0000_0000
  {
    assert Power256(2) == 65536;
    assert Power256(4) == 65536 * 65536;
    assert Power256(6) == 65536 * Power256(4);
  }

  // ---------------------------------------------------------------- encoder

  /** A count; `struct.pack` refuses one that does not fit 32 bits. */
  function EncodeCount(n: nat): Result<seq<Byte>, Error> {
    if n < 0x1_0000_0000 then Ok(Pack(n, 4)) else Err(CountTooLarge)
  }

  function EncodePosition(p: Position): (bytes: seq<Byte>)
    ensures |bytes| == 16
  {
    Pack(p.x, 8) + Pack(p.y, 8)
  }

  function EncodePositions(ps: seq<Position>): seq<Byte> {
    if ps == [] then [] else EncodePosition(ps[0]) + EncodePositions(ps[1..])
  }

  predicate IsNaN(d: Double) {
    d % 0x8000_0000_0000_0000 > 0x7FF0_0000_0000_0000
  }

  /** Floating-point equality: the two zeros are equal, a NaN is not equal to anything. */
  predicate FloatEquals(a: Double, b: Double) {
    !IsNaN(a) && (a == b || (a % 0x8000_0000_0000_0000 == 0 && b % 0x8000_0000_0000_0000 == 0))
  }

  predicate IsClosed(ring: Ring) {
    ring == []
    || (FloatEquals(ring[0].x, ring[|ring| - 1].x) && FloatEquals(ring[0].y, ring[|ring| - 1].y))
  }

  function CloseRing(ring: Ring): Ring {
    if IsClosed(ring) then ring else ring + [ring[0]]
  }

  function EncodeRing(ring: Ring): Result<seq<Byte>, Error> {
    var count :- EncodeCount(|CloseRing(ring)|);
    Ok(count + EncodePositions(CloseRing(ring)))
  }

  function EncodeRings(rings: seq<Ring>): Result<seq<Byte>, Error> {
    if rings == [] then Ok([])
    else
      var ring :- EncodeRing(rings[0]);
      var others :- EncodeRings(rings[1..]);
      Ok(ring + others)
  }

  const LITTLE_ENDIAN: seq<Byte> := [1]

  /** The byte order mark and the type code every geometry starts with. */
  function Header(code: nat): (bytes: seq<Byte>)
    ensures |bytes| == 5
  {
    LITTLE_ENDIAN + Pack(code, 4)
  }

  function EncodePolygon(rings: seq<Ring>): Result<seq<Byte>, Error> {
    var count :- EncodeCount(|rings|);
    var body :- EncodeRings(rings);
    Ok(Header(3) + count + body)
  }

  function EncodePolygons(polygons: seq<seq<Ring>>): Result<seq<Byte>, Error> {
    if polygons == [] then Ok([])
    else
      var polygon :- EncodePolygon(polygons[0]);
      var others :- EncodePolygons(polygons[1..]);
      Ok(polygon + others)
  }

  function Encode(g: Geometry): Result<seq<Byte>, Error> {
    match g
    case Point(at) => Ok(Header(1) + EncodePosition(at))
    case Polygon(rings) => EncodePolygon(rings)
    case MultiPolygon(polygons) =>
      var body :- EncodePolygons(polygons);
      var count :- EncodeCount(|polygons|);
      Ok(Header(6) + count + body)
    case Unsupported => Err(UnsupportedType)
  }

  // ---------------------------------------------------------------- decoder

  /** What a decoder read, and the bytes it left. */
  datatype Parsed<+T> = Parsed(value: T, rest: seq<Byte>) | Failed

  function DecodeNumber(bytes: seq<Byte>, k: nat): (r: Parsed<nat>) {
    if |bytes| < k then Failed else Parsed(Unpack(bytes[..k]), bytes[k..])
  }

  function DecodePosition(bytes: seq<Byte>): Parsed<Position> {
    if |bytes| < 16 then Failed
    else
      PackUnpack(bytes[..8]);
      PackUnpack(bytes[8..16]);
      Widths();
      Parsed(Position(Unpack(bytes[..8]), Unpack(bytes[8..16]), []), bytes[16..])
  }

  function DecodePositions(n: nat, bytes: seq<Byte>): Parsed<seq<Position>> {
    if n == 0 then Parsed([], bytes)
    else
      match DecodePosition(bytes)
      case Failed => Failed
      case Parsed(p, rest) =>
        match DecodePositions(n - 1, rest)
        case Failed => Failed
        case Parsed(ps, rest') => Parsed([p] + ps, rest')
  }

  function DecodeRing(bytes: seq<Byte>): Parsed<Ring> {
    match DecodeNumber(bytes, 4)
    case Failed => Failed
    case Parsed(n, rest) => DecodePositions(n, rest)
  }

  function DecodeRings(n: nat, bytes: seq<Byte>): Parsed<seq<Ring>> {
    if n == 0 then Parsed([], bytes)
    else
      match DecodeRing(bytes)
      case Failed => Failed
      case Parsed(r, rest) =>
        match DecodeRings(n - 1, rest)
        case Failed => Failed
        case Parsed(rs, rest') => Parsed([r] + rs, rest')
  }

  /** Reads the mark and type code; None unless the geometry is little-endian. */
  function DecodeHeader(bytes: seq<Byte>): Parsed<nat> {
    if |bytes| < 5 || bytes[0] != 1 then Failed else DecodeNumber(bytes[1..], 4)
  }

  function DecodePolygonBody(bytes: seq<Byte>): Parsed<seq<Ring>> {
    match DecodeNumber(bytes, 4)
    case Failed => Failed
    case Parsed(n, rest) => DecodeRings(n, rest)
  }

  function DecodePolygon(bytes: seq<Byte>): Parsed<seq<Ring>> {
    match DecodeHeader(bytes)
    case Failed => Failed
    case Parsed(code, rest) => if code == 3 then DecodePolygonBody(rest) else Failed
  }

  function DecodePolygons(n: nat, bytes: seq<Byte>): Parsed<seq<seq<Ring>>> {
    if n == 0 then Parsed([], bytes)
    else
      match DecodePolygon(bytes)
      case Failed => Failed
      case Parsed(p, rest) =>
        match DecodePolygons(n - 1, rest)
        case Failed => Failed
        case Parsed(ps, rest') => Parsed([p] + ps, rest')
  }

  function DecodeBody(code: nat, bytes: seq<Byte>): Parsed<Geometry> {
    if code == 1 then
      match DecodePosition(bytes)
      case Failed => Failed
      case Parsed(p, rest) => Parsed(Point(p), rest)
    else if code == 3 then
      match DecodePolygonBody(bytes)
      case Failed => Failed
      case Parsed(rings, rest) => Parsed(Polygon(rings), rest)
    else if code == 6 then
      match DecodeNumber(bytes, 4)
      case Failed => Failed
      case Parsed(n, rest) =>
        match DecodePolygons(n, rest)
        case Failed => Failed
        case Parsed(polygons, rest') => Parsed(MultiPolygon(polygons), rest')
    else Failed
  }

  function Decode(bytes: seq<Byte>): Parsed<Geometry> {
    match DecodeHeader(bytes)
    case Failed => Failed
    case Parsed(code, rest) => DecodeBody(code, rest)
  }

  // ---------------------------------------------------------------- what is kept

  function Flat(p: Position): Position {
    Position(p.x, p.y, [])
  }

  function FlatRing(ring: Ring): Ring {
    seq(|ring|, i requires 0 <= i < |ring| => Flat(ring[i]))
  }

  function Kept(rings: seq<Ring>): seq<Ring> {
    seq(|rings|, i requires 0 <= i < |rings| => FlatRing(CloseRing(rings[i])))
  }

  function KeptAll(polygons: seq<seq<Ring>>): seq<seq<Ring>> {
    seq(|polygons|, i requires 0 <= i < |polygons| => Kept(polygons[i]))
  }

  /** The geometry as the encoder sees it: two ordinates a position, every ring closed. */
  function Canonical(g: Geometry): Geometry {
    match g
    case Point(at) => Point(Flat(at))
    case Polygon(rings) => Polygon(Kept(rings))
    case MultiPolygon(polygons) => MultiPolygon(KeptAll(polygons))
    case Unsupported => Unsupported
  }

  // ---------------------------------------------------------------- decoding what was encoded

  lemma NumberRoundTrip(n: nat, k: nat, rest: seq<Byte>)
    requires n < Power256(k)
    ensures DecodeNumber(Pack(n, k) + rest, k) == Parsed(n, rest)
  {
    UnpackPack(n, k);
    assert (Pack(n, k) + rest)[..k] == Pack(n, k);
    assert (Pack(n, k) + rest)[k..] == rest;
  }

  lemma PositionRoundTrip(p: Position, rest: seq<Byte>)
    ensures DecodePosition(EncodePosition(p) + rest) == Parsed(Flat(p), rest)
  {
    Widths();
    UnpackPack(p.x, 8);
    UnpackPack(p.y, 8);
    hide Pack, Unpack, Power256;
    var bytes := EncodePosition(p) + rest;
    assert bytes[..8] == Pack(p.x, 8) && bytes[8..16] == Pack(p.y, 8) && bytes[16..] == rest;
  }

  lemma {:induction false} PositionsRoundTrip(ps: seq<Position>, rest: seq<Byte>)
    ensures DecodePositions(|ps|, EncodePositions(ps) + rest) == Parsed(FlatRing(ps), rest)
    decreases |ps|
  {
    hide EncodePosition, DecodePosition;
    if ps == [] {
      assert [] + rest == rest;
    } else {
      var tail := EncodePositions(ps[1..]) + rest;
      assert EncodePositions(ps) + rest == EncodePosition(ps[0]) + tail;
      PositionRoundTrip(ps[0], tail);
      PositionsRoundTrip(ps[1..], rest);
      assert [Flat(ps[0])] + FlatRing(ps[1..]) == FlatRing(ps);
    }
  }

  lemma RingRoundTrip(ring: Ring, rest: seq<Byte>)
    requires EncodeRing(ring).Ok?
    ensures DecodeRing(EncodeRing(ring).value + rest) == Parsed(FlatRing(CloseRing(ring)), rest)
  {
    var closed := CloseRing(ring);
    Widths();
    hide CloseRing, Pack, Power256, DecodePositions, EncodePositions;
    NumberRoundTrip(|closed|, 4, EncodePositions(closed) + rest);
    PositionsRoundTrip(closed, rest);
    assert EncodeRing(ring).value + rest == Pack(|closed|, 4) + (EncodePositions(closed) + rest);
  }

  lemma {:induction false} RingsRoundTrip(rings: seq<Ring>, rest: seq<Byte>)
    requires EncodeRings(rings).Ok?
    ensures DecodeRings(|rings|, EncodeRings(rings).value + rest) == Parsed(Kept(rings), rest)
    decreases |rings|
  {
    hide EncodeRing, DecodeRing, CloseRing, FlatRing;
    if rings == [] {
      assert [] + rest == rest;
    } else {
      var tail := EncodeRings(rings[1..]).value + rest;
      assert EncodeRings(rings).value + rest == EncodeRing(rings[0]).value + tail;
      RingRoundTrip(rings[0], tail);
      RingsRoundTrip(rings[1..], rest);
      assert [FlatRing(CloseRing(rings[0]))] + Kept(rings[1..]) == Kept(rings);
    }
  }

  lemma HeaderRoundTrip(code: nat, rest: seq<Byte>)
    requires code < 256
    ensures DecodeHeader(Header(code) + rest) == Parsed(code, rest)
  {
    Widths();
    NumberRoundTrip(code, 4, rest);
    assert (Header(code) + rest)[1..] == Pack(code, 4) + rest;
  }

  lemma PolygonRoundTrip(rings: seq<Ring>, rest: seq<Byte>)
    requires EncodePolygon(rings).Ok?
    ensures DecodePolygon(EncodePolygon(rings).value + rest) == Parsed(Kept(rings), rest)
  {
    Widths();
    hide Header, DecodeHeader, Pack, Power256, EncodeRings, DecodeRings, Kept;
    var tail := EncodeRings(rings).value + rest;
    HeaderRoundTrip(3, Pack(|rings|, 4) + tail);
    NumberRoundTrip(|rings|, 4, tail);
    RingsRoundTrip(rings, rest);
    assert EncodePolygon(rings).value + rest == Header(3) + (Pack(|rings|, 4) + tail);
  }

  lemma {:induction false} PolygonsRoundTrip(polygons: seq<seq<Ring>>, rest: seq<Byte>)
    requires EncodePolygons(polygons).Ok?
    ensures DecodePolygons(|polygons|, EncodePolygons(polygons).value + rest)
            == Parsed(KeptAll(polygons), rest)
    decreases |polygons|
  {
    hide EncodePolygon, DecodePolygon, Kept;
    if polygons == [] {
      assert [] + rest == rest;
    } else {
      var tail := EncodePolygons(polygons[1..]).value + rest;
      assert EncodePolygons(polygons).value + rest == EncodePolygon(polygons[0]).value + tail;
      PolygonRoundTrip(polygons[0], tail);
      PolygonsRoundTrip(polygons[1..], rest);
      assert [Kept(polygons[0])] + KeptAll(polygons[1..]) == KeptAll(polygons);
    }
  }

  /** Decoding an encoded geometry recovers its type, nesting and coordinates, whatever follows. */
  lemma RoundTrip(g: Geometry, rest: seq<Byte>)
    requires Encode(g).Ok?
    ensures Decode(Encode(g).value + rest) == Parsed(Canonical(g), rest)
  {
    hide Header, DecodeHeader, Pack, Power256, EncodePosition, DecodePosition, EncodeRings, DecodeRings;
    hide EncodePolygons, DecodePolygons, Kept;
    match g
    case Point(at) =>
      HeaderRoundTrip(1, EncodePosition(at) + rest);
      PositionRoundTrip(at, rest);
      assert Encode(g).value + rest == Header(1) + (EncodePosition(at) + rest);
    case Polygon(rings) =>
      Widths();
      var tail := EncodeRings(rings).value + rest;
      HeaderRoundTrip(3, Pack(|rings|, 4) + tail);
      NumberRoundTrip(|rings|, 4, tail);
      RingsRoundTrip(rings, rest);
      assert Encode(g).value + rest == Header(3) + (Pack(|rings|, 4) + tail);
    case MultiPolygon(polygons) =>
      Widths();
      var tail := EncodePolygons(polygons).value + rest;
      HeaderRoundTrip(6, Pack(|polygons|, 4) + tail);
      NumberRoundTrip(|polygons|, 4, tail);
      PolygonsRoundTrip(polygons, rest);
      assert Encode(g).value + rest == Header(6) + (Pack(|polygons|, 4) + tail);
    case Unsupported =>
  }

  // ---------------------------------------------------------------- byte equality as a key

  lemma {:induction false} PositionsSeeOnlyFlat(ps: seq<Position>)
    ensures EncodePositions(FlatRing(ps)) == EncodePositions(ps)
    decreases |ps|
  {
    if ps != [] {
      PositionsSeeOnlyFlat(ps[1..]);
      assert FlatRing(ps)[1..] == FlatRing(ps[1..]);
    }
  }

  lemma RingSeesOnlyKept(a: Ring, b: Ring)
    requires FlatRing(CloseRing(a)) == FlatRing(CloseRing(b))
    ensures EncodeRing(a) == EncodeRing(b)
  {
    hide CloseRing, EncodePositions;
    PositionsSeeOnlyFlat(CloseRing(a));
    PositionsSeeOnlyFlat(CloseRing(b));
    assert |FlatRing(CloseRing(a))| == |CloseRing(a)| && |FlatRing(CloseRing(b))| == |CloseRing(b)|;
  }

  lemma {:induction false} RingsSeeOnlyKept(a: seq<Ring>, b: seq<Ring>)
    requires Kept(a) == Kept(b)
    ensures |a| == |b| && EncodeRings(a) == EncodeRings(b)
    decreases |a|
  {
    hide EncodeRing, FlatRing, CloseRing;
    assert |Kept(a)| == |a| && |Kept(b)| == |b|;
    if a != [] {
      assert Kept(a)[0] == Kept(b)[0];
      RingSeesOnlyKept(a[0], b[0]);
      assert Kept(a[1..]) == Kept(a)[1..] && Kept(b[1..]) == Kept(b)[1..];
      RingsSeeOnlyKept(a[1..], b[1..]);
    }
  }

  lemma {:induction false} PolygonsSeeOnlyKept(a: seq<seq<Ring>>, b: seq<seq<Ring>>)
    requires KeptAll(a) == KeptAll(b)
    ensures |a| == |b| && EncodePolygons(a) == EncodePolygons(b)
    decreases |a|
  {
    hide Kept, EncodeRings, Header;
    assert |KeptAll(a)| == |a| && |KeptAll(b)| == |b|;
    if a != [] {
      assert KeptAll(a)[0] == KeptAll(b)[0];
      RingsSeeOnlyKept(a[0], b[0]);
      assert KeptAll(a[1..]) == KeptAll(a)[1..] && KeptAll(b[1..]) == KeptAll(b)[1..];
      PolygonsSeeOnlyKept(a[1..], b[1..]);
    }
  }

  /** Two encodable geometries have the same bytes exactly when they are the same geometry to
      the encoder: deduplication by bytes drops repetitions, all of them, and nothing else. */
  lemma BytesIdentifyGeometry(g: Geometry, h: Geometry)
    requires Encode(g).Ok? && Encode(h).Ok?
    ensures Encode(g) == Encode(h) <==> Canonical(g) == Canonical(h)
  {
    hide Header, Kept, KeptAll, EncodeRings, EncodePolygons, Decode;
    RoundTrip(g, []);
    RoundTrip(h, []);
    assert Encode(g).value + [] == Encode(g).value && Encode(h).value + [] == Encode(h).value;
    if Canonical(g) == Canonical(h) {
      match g
      case Point(at) =>
      case Polygon(rings) => RingsSeeOnlyKept(rings, h.rings);
      case MultiPolygon(polygons) => PolygonsSeeOnlyKept(polygons, h.polygons);
      case Unsupported =>
    }
  }

  predicate PolygonFits(rings: seq<Ring>) {
    |rings| < 0x1_0000_0000 && forall i | 0 <= i < |rings| :: |CloseRing(rings[i])| < 0x1_0000_0000
  }

  lemma {:induction false} RingsEncodeIff(rings: seq<Ring>)
    ensures EncodeRings(rings).Ok? <==> forall i | 0 <= i < |rings| :: |CloseRing(rings[i])| < 0x1_0000_0000
    decreases |rings|
  {
    if rings != [] {
      hide CloseRing;
      RingsEncodeIff(rings[1..]);
      assert forall i | 0 < i < |rings| :: rings[i] == rings[1..][i - 1];
    }
  }

  lemma {:induction false} PolygonsEncodeIff(polygons: seq<seq<Ring>>)
    ensures EncodePolygons(polygons).Ok? <==> forall i | 0 <= i < |polygons| :: PolygonFits(polygons[i])
    decreases |polygons|
  {
    if polygons != [] {
      hide CloseRing;
      RingsEncodeIff(polygons[0]);
      PolygonsEncodeIff(polygons[1..]);
      assert forall i | 0 < i < |polygons| :: polygons[i] == polygons[1..][i - 1];
    }
  }

  /** A supported geometry is encodable exactly when all its counts fit 32 bits. */
  lemma EncodesIff(g: Geometry)
    ensures Encode(g).Ok? <==>
            match g
            case Point(_) => true
            case Polygon(rings) => PolygonFits(rings)
            case MultiPolygon(polygons) =>
              |polygons| < 0x1_0000_0000 && forall i | 0 <= i < |polygons| :: PolygonFits(polygons[i])
            case Unsupported => false
  {
    match g
    case Polygon(rings) => RingsEncodeIff(rings);
    case MultiPolygon(polygons) => PolygonsEncodeIff(polygons);
    case _ =>
  }

  // ---------------------------------------------------------------- encoding what was decoded

  lemma NumberReencodes(bytes: seq<Byte>, k: nat)
    requires DecodeNumber(bytes, k).Parsed?
    ensures bytes == Pack(DecodeNumber(bytes, k).value, k) + DecodeNumber(bytes, k).rest
    ensures DecodeNumber(bytes, k).value < Power256(k)
  {
    PackUnpack(bytes[..k]);
    hide Pack, Unpack, Power256;
    assert |bytes[..k]| == k && bytes == bytes[..k] + bytes[k..];
  }

  lemma PositionReencodes(bytes: seq<Byte>)
    requires DecodePosition(bytes).Parsed?
    ensures bytes == EncodePosition(DecodePosition(bytes).value) + DecodePosition(bytes).rest
  {
    PackUnpack(bytes[..8]);
    PackUnpack(bytes[8..16]);
    hide Pack, Unpack, Power256;
    assert bytes == bytes[..8] + bytes[8..16] + bytes[16..];
  }

  lemma {:induction false} PositionsReencode(n: nat, bytes: seq<Byte>)
    requires DecodePositions(n, bytes).Parsed?
    ensures var r := DecodePositions(n, bytes);
            |r.value| == n && bytes == EncodePositions(r.value) + r.rest
    decreases n
  {
    hide EncodePosition, DecodePosition;
    if n == 0 {
      assert bytes == [] + bytes;
    } else {
      PositionReencodes(bytes);
      var p := DecodePosition(bytes);
      PositionsReencode(n - 1, p.rest);
      var ps := DecodePositions(n - 1, p.rest);
      assert ([p.value] + ps.value)[1..] == ps.value;
      assert EncodePosition(p.value) + (EncodePositions(ps.value) + ps.rest)
             == (EncodePosition(p.value) + EncodePositions(ps.value)) + ps.rest;
    }
  }

  lemma RingReencodes(bytes: seq<Byte>)
    requires DecodeRing(bytes).Parsed? && IsClosed(DecodeRing(bytes).value)
    ensures var r := DecodeRing(bytes); EncodeRing(r.value).Ok? && bytes == EncodeRing(r.value).value + r.rest
  {
    Widths();
    NumberReencodes(bytes, 4);
    var n := DecodeNumber(bytes, 4);
    hide Pack, Power256, DecodeNumber, IsClosed, EncodePositions, DecodePositions;
    PositionsReencode(n.value, n.rest);
    var r := DecodePositions(n.value, n.rest);
    assert Pack(n.value, 4) + (EncodePositions(r.value) + r.rest) == (Pack(n.value, 4) + EncodePositions(r.value)) + r.rest;
  }

  predicate AllClosed(rings: seq<Ring>) {
    forall i | 0 <= i < |rings| :: IsClosed(rings[i])
  }

  lemma {:induction false} RingsReencode(n: nat, bytes: seq<Byte>)
    requires DecodeRings(n, bytes).Parsed? && AllClosed(DecodeRings(n, bytes).value)
    ensures var r := DecodeRings(n, bytes);
            |r.value| == n && EncodeRings(r.value).Ok? && bytes == EncodeRings(r.value).value + r.rest
    decreases n
  {
    hide EncodeRing, DecodeRing, IsClosed;
    if n == 0 {
      assert bytes == [] + bytes;
    } else {
      var p := DecodeRing(bytes);
      var ps := DecodeRings(n - 1, p.rest);
      var all := DecodeRings(n, bytes).value;
      assert all[0] == p.value && all[1..] == ps.value;
      assert forall i | 0 <= i < |ps.value| :: ps.value[i] == all[i + 1];
      RingReencodes(bytes);
      RingsReencode(n - 1, p.rest);
      var a, b := EncodeRing(p.value).value, EncodeRings(ps.value).value;
      assert a + (b + ps.rest) == (a + b) + ps.rest;
    }
  }

  lemma HeaderReencodes(bytes: seq<Byte>)
    requires DecodeHeader(bytes).Parsed?
    ensures bytes == Header(DecodeHeader(bytes).value) + DecodeHeader(bytes).rest
  {
    NumberReencodes(bytes[1..], 4);
    hide Pack, DecodeNumber;
    assert bytes == [bytes[0]] + bytes[1..];
  }

  lemma PolygonBodyReencodes(bytes: seq<Byte>)
    requires DecodePolygonBody(bytes).Parsed? && AllClosed(DecodePolygonBody(bytes).value)
    ensures var r := DecodePolygonBody(bytes);
            && EncodePolygon(r.value).Ok?
            && Header(3) + bytes == EncodePolygon(r.value).value + r.rest
  {
    Widths();
    NumberReencodes(bytes, 4);
    var n := DecodeNumber(bytes, 4);
    hide Header, Pack, Power256, DecodeNumber, AllClosed, EncodeRings, DecodeRings;
    RingsReencode(n.value, n.rest);
    var r := DecodeRings(n.value, n.rest);
    var a, b, c := Header(3), Pack(n.value, 4), EncodeRings(r.value).value;
    assert a + (b + (c + r.rest)) == ((a + b) + c) + r.rest;
  }

  lemma {:induction false} PolygonsReencode(n: nat, bytes: seq<Byte>)
    requires DecodePolygons(n, bytes).Parsed?
    requires forall i | 0 <= i < |DecodePolygons(n, bytes).value| :: AllClosed(DecodePolygons(n, bytes).value[i])
    ensures var r := DecodePolygons(n, bytes);
            |r.value| == n && EncodePolygons(r.value).Ok? && bytes == EncodePolygons(r.value).value + r.rest
    decreases n
  {
    hide EncodePolygon, DecodePolygonBody, DecodeHeader, Header, AllClosed;
    if n == 0 {
      assert bytes == [] + bytes;
    } else {
      var h := DecodeHeader(bytes);
      var p := DecodePolygon(bytes);
      var ps := DecodePolygons(n - 1, p.rest);
      var all := DecodePolygons(n, bytes).value;
      assert all[0] == p.value && all[1..] == ps.value;
      assert forall i | 0 <= i < |ps.value| :: ps.value[i] == all[i + 1];
      HeaderReencodes(bytes);
      PolygonBodyReencodes(h.rest);
      PolygonsReencode(n - 1, p.rest);
      var a, b := EncodePolygon(p.value).value, EncodePolygons(ps.value).value;
      assert a + (b + ps.rest) == (a + b) + ps.rest;
    }
  }

  predicate RingsClosed(g: Geometry) {
    match g
    case Polygon(rings) => AllClosed(rings)
    case MultiPolygon(polygons) => forall i | 0 <= i < |polygons| :: AllClosed(polygons[i])
    case _ => true
  }

  /** The bytes of a decoded geometry with closed rings are the encoding of that geometry: there
      is one byte string for each such geometry. */
  lemma DecodedReencodes(bytes: seq<Byte>)
    requires Decode(bytes).Parsed? && RingsClosed(Decode(bytes).value)
    ensures var r := Decode(bytes); Encode(r.value).Ok? && bytes == Encode(r.value).value + r.rest
  {
    HeaderReencodes(bytes);
    var h := DecodeHeader(bytes);
    hide Header, DecodeHeader, EncodePosition, DecodePosition, DecodePolygonBody, EncodePolygon, AllClosed;
    hide DecodePolygons, EncodePolygons, Pack, Power256;
    if h.value == 1 {
      PositionReencodes(h.rest);
      var p := DecodePosition(h.rest);
      assert Header(1) + (EncodePosition(p.value) + p.rest) == (Header(1) + EncodePosition(p.value)) + p.rest;
    } else if h.value == 3 {
      PolygonBodyReencodes(h.rest);
    } else {
      Widths();
      NumberReencodes(h.rest, 4);
      var n := DecodeNumber(h.rest, 4);
      PolygonsReencode(n.value, n.rest);
      var r := DecodePolygons(n.value, n.rest);
      var a, b, c := Header(6), Pack(n.value, 4), EncodePolygons(r.value).value;
      assert a + (b + (c + r.rest)) == ((a + b) + c) + r.rest;
    }
  }

  /** Every encoding carries its byte order and type, and more than that. */
  lemma EncodedIsFramed(g: Geometry)
    ensures Encode(g).Ok? ==> |Encode(g).value| >= 9 && Encode(g).value[0] == 1
  {
  }

  // ---------------------------------------------------------------- the bytes one by one

  /** A number starts with its lowest byte. */
  lemma {:induction false} LowestByteFirst(n: nat, k: nat, i: nat)
    requires i < k
    ensures Pack(n, k)[i] == (n / Power256(i)) % 256
    decreases i
  {
    if i == 0 {
      assert n / Power256(0) == n;
    } else {
      LowestByteFirst(n / 256, k - 1, i - 1);
      Quotients(n, Power256(i - 1));
      assert Pack(n, k)[i] == Pack(n / 256, k - 1)[i - 1];
    }
  }

  lemma Quotients(n: nat, d: nat)
    requires d > 0
    ensures (n / 256) / d == n / (256 * d)
  {
    var q := n / (256 * d);
    var r := n % (256 * d);
    assert n == (256 * d) * q + r;
    assert n == 256 * (d * q) + r;
    var m := r / 256;
    assert r == 256 * m + r % 256;
    assert m < d;
    assert n == 256 * (d * q + m) + r % 256;
    Division(n, 256, d * q + m, r % 256);
    Division(n / 256, d, q, m);
  }

  lemma Division(n: nat, d: nat, q: nat, r: nat)
    requires d > 0 && n == d * q + r && r < d
    ensures n / d == q && n % d == r
  {
    var k := n / d - q;
    assert d * k == r - n % d;
    if k >= 1 {
      OneAtLeast(k, d);
    } else if k <= -1 {
      OneAtLeast(-k, d);
    }
  }

  lemma OneAtLeast(k: int, d: nat)
    requires k >= 1
    ensures d <= d * k
  {
    assert d * k == d * (k - 1) + d;
  }

  /** Eight bytes hold a double, the lowest first. */
  predicate IsDouble(bytes: seq<Byte>, at: nat, d: Double) {
    at + 8 <= |bytes| && forall i | 0 <= i < 8 :: bytes[at + i] == (d / Power256(i)) % 256
  }

  lemma PackIsDouble(before: seq<Byte>, d: Double, after: seq<Byte>)
    ensures IsDouble(before + Pack(d, 8) + after, |before|, d)
  {
    forall i | 0 <= i < 8
      ensures (before + Pack(d, 8) + after)[|before| + i] == (d / Power256(i)) % 256
    {
      LowestByteFirst(d, 8, i);
    }
  }

  lemma HeaderIs(code: nat)
    requires code < 256
    ensures Header(code) == [1, code, 0, 0, 0]
  {
    assert Pack(code, 4) == [code, 0, 0, 0] by {
      assert Pack(0, 3) == [0] + Pack(0, 2) && Pack(0, 2) == [0] + Pack(0, 1) && Pack(0, 1) == [0] + Pack(0, 0);
    }
  }

  /** A point is written as the mark of little-endian numbers, type 1, longitude and latitude. */
  lemma PointIsWritten(p: Position)
    ensures Encode(Point(p)).Ok?
    ensures var b := Encode(Point(p)).value;
            |b| == 21 && b[..5] == [1, 1, 0, 0, 0] && IsDouble(b, 5, p.x) && IsDouble(b, 13, p.y)
  {
    HeaderIs(1);
    var h := [1, 1, 0, 0, 0];
    var b := Encode(Point(p)).value;
    assert b == h + Pack(p.x, 8) + Pack(p.y, 8);
    PackIsDouble(h, p.x, Pack(p.y, 8));
    PackIsDouble(h + Pack(p.x, 8), p.y, []);
    assert (h + Pack(p.x, 8)) + Pack(p.y, 8) + [] == b;
  }

  /** Areas are written with the same mark and their types: 3 for a polygon, 6 for several. */
  lemma AreasAreMarked(g: Geometry)
    requires Encode(g).Ok?
    ensures g.Polygon? ==> |Encode(g).value| >= 5 && Encode(g).value[..5] == [1, 3, 0, 0, 0]
    ensures g.MultiPolygon? ==> |Encode(g).value| >= 5 && Encode(g).value[..5] == [1, 6, 0, 0, 0]
  {
    HeaderIs(3);
    HeaderIs(6);
    hide Header, Pack;
  }

  // ---------------------------------------------------------------- closing a ring

  /** A double that is a number: not all bits of the exponent are set, or none of the fraction. */
  predicate IsNumber(d: Double) {
    (d / 0x10_0000_0000_0000) % 0x800 != 0x7FF || d % 0x10_0000_0000_0000 == 0
  }

  /** The same number: the same bits, or zero and negative zero. */
  predicate SameNumber(a: Double, b: Double) {
    && IsNumber(a) && IsNumber(b)
    && (a == b || ((a == 0 || a == 0x8000_0000_0000_0000) && (b == 0 || b == 0x8000_0000_0000_0000)))
  }

  lemma NumbersAre(d: Double)
    ensures IsNumber(d) <==> !IsNaN(d)
  {
  }

  lemma ZeroIs(d: Double)
    ensures d % 0x8000_0000_0000_0000 == 0 <==> d == 0 || d == 0x8000_0000_0000_0000
  {
  }

  lemma SameNumbersAreEqual(a: Double, b: Double)
    ensures FloatEquals(a, b) <==> SameNumber(a, b)
  {
    NumbersAre(a);
    NumbersAre(b);
    ZeroIs(a);
    ZeroIs(b);
    hide IsNumber;
  }

  /** A ring whose ends differ gets its first position once more at the end; any other is left alone. */
  lemma RingIsClosedOnce(ring: Ring)
    ensures var closed := CloseRing(ring);
            if ring == [] || (SameNumber(ring[0].x, ring[|ring| - 1].x) && SameNumber(ring[0].y, ring[|ring| - 1].y))
            then closed == ring
            else |closed| == |ring| + 1 && closed[..|ring|] == ring && closed[|ring|] == ring[0]
  {
    if ring != [] {
      SameNumbersAreEqual(ring[0].x, ring[|ring| - 1].x);
      SameNumbersAreEqual(ring[0].y, ring[|ring| - 1].y);
    }
    hide FloatEquals, SameNumber;
  }
}
