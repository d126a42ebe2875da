/**
 Longitudes modulo whole turns (scripts/util/build_location_catalog.py:244-248, 289-294).
 Degrees are exact reals.
 */
module Longitude {

  function Ceiling(x: real): int {
    -((-x).Floor)
  }

  /** Whole turns to add to a longitude to bring it within half a turn of a reference. */
  function TurnsTo(longitude: real, reference: real): int {
    var d := longitude - reference;
    if d > 180.0 then -Ceiling((d - 180.0) / 360.0)
    else if d < -180.0 then Ceiling((-180.0 - d) / 360.0)
    else 0
  }

  function Align(longitude: real, reference: real): real {
    longitude + 360.0 * TurnsTo(longitude, reference) as real
  }

  /** `d` is a whole number of turns. */
  predicate IsTurns(d: real) {
    360.0 * (d / 360.0).Floor as real == d
  }

  predicate IsHalfTurn(d: real) {
    IsTurns(d - 180.0)
  }

  lemma TurnsAreTurns(d: real, k: int)
    requires d == 360.0 * k as real
    ensures IsTurns(d)
  {
    assert d / 360.0 == k as real;
  }

  lemma TurnsAdd(a: real, b: real)
    requires IsTurns(a) && IsTurns(b)
    ensures IsTurns(a + b) && IsTurns(a - b) && IsTurns(-b)
  {
    var i, j := (a / 360.0).Floor, (b / 360.0).Floor;
    TurnsAreTurns(a + b, i + j);
    TurnsAreTurns(a - b, i - j);
    TurnsAreTurns(-b, -j);
  }

  /** The aligned longitude is the same meridian, at most half a turn from the reference. */
  lemma AlignIsNear(longitude: real, reference: real)
    ensures -180.0 <= Align(longitude, reference) - reference <= 180.0
    ensures IsTurns(Align(longitude, reference) - longitude)
  {
    TurnsAreTurns(Align(longitude, reference) - longitude, TurnsTo(longitude, reference));
  }

  /** Two longitudes of one meridian that lie less than half a turn from a reference are equal. */
  lemma NearIsUnique(a: real, b: real)
    requires -180.0 < a < 180.0 && -180.0 <= b <= 180.0 && IsTurns(a - b)
    ensures a == b
  {
  }

  lemma OneTurnLess(d: real)
    ensures ((d - 360.0) / 360.0).Floor == (d / 360.0).Floor - 1
  {
    assert (d - 360.0) / 360.0 == d / 360.0 - 1.0;
  }

  /** The turns counted by the two loops are the ones `TurnsTo` gives. */
  lemma TurnsCounted(longitude: real, reference: real, down: nat, up: nat)
    requires var r := longitude + 360.0 * (up - down) as real;
             -180.0 <= r - reference <= 180.0
             && (down > 0 ==> up == 0 && r - reference > -180.0)
             && (up > 0 ==> r - reference < 180.0)
    ensures TurnsTo(longitude, reference) == up - down
  {
    var d := longitude - reference;
    if d > 180.0 {
      assert down as real - 1.0 < (d - 180.0) / 360.0 <= down as real;
    } else if d < -180.0 {
      assert up as real - 1.0 < (-180.0 - d) / 360.0 <= up as real;
    }
  }

  method AlignLongitude(longitude: real, reference: real) returns (r: real)
    ensures r == Align(longitude, reference)
  {
    r := longitude;
    ghost var down, up := 0, 0;
    while r - reference > 180.0
      invariant r == longitude - 360.0 * down as real
      invariant down >= 0 && (down > 0 ==> r - reference > -180.0)
      decreases ((r - reference) / 360.0).Floor
    {
      OneTurnLess(r - reference);
      r, down := r - 360.0, down + 1;
    }
    while r - reference < -180.0
      invariant r == longitude + 360.0 * (up - down) as real
      invariant down > 0 ==> up == 0 && r - reference > -180.0
      invariant up >= 0 && r - reference <= 180.0 && (up > 0 ==> r - reference < 180.0)
      decreases ((reference - r) / 360.0).Floor
    {
      OneTurnLess(reference - r);
      r, up := r + 360.0, up + 1;
    }
    TurnsCounted(longitude, reference, down, up);
  }

  // Python's float remainder takes the sign of the divisor, as this does.
  function Remainder(x: real): real {
    x - 360.0 * (x / 360.0).Floor as real
  }

  function Normalize(longitude: real): real {
    var normalized := Remainder(longitude + 180.0) - 180.0;
    if normalized == -180.0 && longitude > 0.0 then 180.0 else normalized
  }

  /** Normalizing keeps the meridian and lands in [-180, 180]. */
  lemma NormalizeIsCanonical(longitude: real)
    ensures -180.0 <= Normalize(longitude) <= 180.0
    ensures IsTurns(Normalize(longitude) - longitude)
  {
    var n := -((longitude + 180.0) / 360.0).Floor;
    TurnsAreTurns(Remainder(longitude + 180.0) - 180.0 - longitude, n);
    TurnsAreTurns(Remainder(longitude + 180.0) + 180.0 - longitude, n + 1);
  }

  /** Equal, or the two names of the antimeridian. */
  predicate SameMeridian(a: real, b: real) {
    a == b || (a == 180.0 && b == -180.0) || (a == -180.0 && b == 180.0)
  }

  /** Longitudes a whole number of turns apart have the same normal form, up to the two names
      of the antimeridian; and longitudes with one normal form are whole turns apart. */
  lemma NormalizeModuloTurns(a: real, b: real)
    ensures IsTurns(b - a) <==> SameMeridian(Normalize(a), Normalize(b))
  {
    NormalizeIsCanonical(a);
    NormalizeIsCanonical(b);
    var na, nb := Normalize(a), Normalize(b);
    if IsTurns(b - a) {
      TurnsAdd(nb - b, b - a);
      TurnsAdd((nb - b) + (b - a), na - a);
      assert (nb - b) + (b - a) - (na - a) == nb - na;
    }
    if SameMeridian(na, nb) {
      if na != nb {
        TurnsAreTurns(nb - na, if nb > na then 1 else -1);
      } else {
        TurnsAreTurns(nb - na, 0);
      }
      TurnsAdd(na - a, nb - na);
      TurnsAdd((na - a) + (nb - na), nb - b);
      assert (na - a) + (nb - na) - (nb - b) == b - a;
    }
  }
}
