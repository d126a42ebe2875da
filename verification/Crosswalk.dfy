/**
 The tables of the geocode crosswalk (scripts/util/mergeCLC_SGC.py:214-290, 510-665, 887-909,
 1418-1430, 1490-1513): loading the NWS zone and county tables, assembling all places, and
 linking areas to their nearest station.

 Cells are taken after `clean_code` and `clean_text`; a dictionary that keeps its insertion order
 is a list of places whose codes differ.
 */
module Crosswalk {
  import opened Wrappers
  import opened Nearest

  datatype Place = Place(
    source: string, code: string, name: string, region: string,
    lat: Option<real>, lon: Option<real>, zones: seq<string>)

  datatype Key = Key(source: string, code: string)

  function KeyOf(p: Place): Key {
    Key(p.source, p.code)
  }

  function Keys(places: seq<Place>): set<Key> {
    set i | 0 <= i < |places| :: KeyOf(places[i])
  }

  predicate DistinctKeys(places: seq<Place>) {
    forall i, j | 0 <= i < j < |places| :: KeyOf(places[i]) != KeyOf(places[j])
  }

  predicate AllFrom(places: seq<Place>, source: string) {
    forall i | 0 <= i < |places| :: places[i].source == source
  }

  lemma KeysGrow(places: seq<Place>, p: Place)
    ensures Keys(places + [p]) == Keys(places) + {KeyOf(p)}
  {
    var all := places + [p];
    assert all[|places|] == p;
    forall i | 0 <= i < |places|
      ensures KeyOf(places[i]) in Keys(all)
    {
      assert all[i] == places[i];
    }
  }

  lemma DistinctGrows(places: seq<Place>, p: Place)
    requires DistinctKeys(places) && KeyOf(p) !in Keys(places)
    ensures DistinctKeys(places + [p])
  {
    forall i | 0 <= i < |places|
      ensures KeyOf(places[i]) != KeyOf(p)
    {
      assert KeyOf(places[i]) in Keys(places);
    }
  }

  // ---------------------------------------------------------------- unique places

  function Unique(places: seq<Place>): seq<Place>
    decreases |places|
  {
    if places == [] then []
    else
      var front, last := Unique(places[..|places| - 1]), places[|places| - 1];
      if KeyOf(last) in Keys(front) then front else front + [last]
  }

  method UniquePlaces(places: seq<Place>) returns (kept: seq<Place>)
    ensures kept == Unique(places)
  {
    kept := [];
    var seen: set<Key> := {};
    var i := 0;
    while i < |places|
      invariant 0 <= i <= |places|
      invariant kept == Unique(places[..i]) && seen == Keys(kept)
    {
      assert places[..i + 1][..i] == places[..i];
      if KeyOf(places[i]) !in seen {
        KeysGrow(kept, places[i]);
        kept := kept + [places[i]];
        seen := seen + {KeyOf(places[i])};
      }
      i := i + 1;
    }
    assert places[..|places|] == places;
  }

  /** The first place with its key. */
  predicate FirstAt(places: seq<Place>, i: nat) {
    i < |places| && forall j | 0 <= j < i :: KeyOf(places[j]) != KeyOf(places[i])
  }

  ghost predicate FirstOf(places: seq<Place>, p: Place) {
    exists i: nat :: FirstAt(places, i) && places[i] == p
  }

  lemma FirstStays(places: seq<Place>, last: Place, p: Place)
    requires FirstOf(places, p)
    ensures FirstOf(places + [last], p)
  {
    var i: nat :| FirstAt(places, i) && places[i] == p;
    var all := places + [last];
    assert forall j | 0 <= j < |places| :: all[j] == places[j];
    assert FirstAt(all, i) && all[i] == p;
  }

  /** Every key once, and for every key the first place that has it. */
  lemma {:induction false} UniqueKeepsFirsts(places: seq<Place>)
    ensures DistinctKeys(Unique(places)) && Keys(Unique(places)) == Keys(places)
    ensures forall k | 0 <= k < |Unique(places)| :: FirstOf(places, Unique(places)[k])
    decreases |places|
  {
    if places != [] {
      var front, last := places[..|places| - 1], places[|places| - 1];
      UniqueKeepsFirsts(front);
      var kept := Unique(front);
      assert front + [last] == places;
      KeysGrow(front, last);
      KeysGrow(kept, last);
      if KeyOf(last) !in Keys(kept) {
        DistinctGrows(kept, last);
        assert FirstOf(places, last) by {
          forall j | 0 <= j < |front|
            ensures KeyOf(places[j]) != KeyOf(last)
          {
            assert KeyOf(front[j]) in Keys(front);
          }
          assert FirstAt(places, |front|) && places[|front|] == last;
        }
      }
      forall k | 0 <= k < |Unique(places)|
        ensures FirstOf(places, Unique(places)[k])
      {
        if k < |kept| {
          FirstStays(front, last, kept[k]);
        }
      }
    }
  }

  lemma {:induction false} UniqueKeepsSource(places: seq<Place>, source: string)
    requires AllFrom(places, source)
    ensures AllFrom(Unique(places), source)
    decreases |places|
  {
    if places != [] {
      UniqueKeepsSource(places[..|places| - 1], source);
    }
  }

  // ---------------------------------------------------------------- the NWS correlation table

  datatype Row = Row(
    state: string, zone: string, zoneName: string, countyName: string, fips: string,
    lat: Option<real>, lon: Option<real>)

  function ZFill(s: string, n: nat): (r: string)
    ensures |r| >= n && |r| >= |s|
    decreases n - |s|
  {
    if |s| >= n then s else ZFill("0" + s, n)
  }

  predicate AllDigits(s: string) {
    forall i | 0 <= i < |s| :: '0' <= s[i] <= '9'
  }

  /** `same_code_from_fips`. */
  function SameCode(fips: string): string {
    if |fips| == 5 && AllDigits(fips) then "0" + fips else fips
  }

  function ZoneUgc(r: Row): string {
    r.state + "Z" + ZFill(r.zone, 3)
  }

  predicate Skipped(r: Row) {
    r.state == "" || ZFill(r.zone, 3) == ""
  }

  /** The guard on the zone code never applies: padding makes every code three digits. */
  lemma SkippedIff(r: Row)
    ensures Skipped(r) <==> r.state == ""
  {
  }

  datatype Link = Link(same: string, zone: string)

  datatype Nws = Nws(counties: seq<Place>, zones: seq<Place>, links: seq<Link>)

  function ZonePlace(r: Row): Place {
    Place("nws_zone", ZoneUgc(r), r.zoneName, r.state, r.lat, r.lon, [])
  }

  function CountyPlace(r: Row): Place {
    var same := SameCode(r.fips);
    Place("nws_same", same, if r.countyName != "" then r.countyName + ", " + r.state else same, r.state, r.lat, r.lon, [])
  }

  /** The position of a code. */
  function Position(places: seq<Place>, code: string): (r: Option<nat>)
    ensures r.Some? ==> r.value < |places| && places[r.value].code == code
    ensures r.None? ==> forall i | 0 <= i < |places| :: places[i].code != code
    decreases |places|
  {
    if places == [] then None
    else if places[|places| - 1].code == code then Some(|places| - 1)
    else Position(places[..|places| - 1], code)
  }

  function SetDefault(places: seq<Place>, p: Place): seq<Place> {
    if Position(places, p.code).Some? then places else places + [p]
  }

  /** A county that comes again remembers the zone of that row; the zone of its first row is
      remembered only if it comes again. */
  function AddCounty(counties: seq<Place>, r: Row): seq<Place> {
    match Position(counties, SameCode(r.fips))
    case None => counties + [CountyPlace(r)]
    case Some(i) =>
      if ZoneUgc(r) in counties[i].zones then counties
      else counties[i := counties[i].(zones := counties[i].zones + [ZoneUgc(r)])]
  }

  function AddRow(n: Nws, r: Row): Nws {
    if Skipped(r) then n
    else
      var zones := SetDefault(n.zones, ZonePlace(r));
      if r.fips == "" then n.(zones := zones)
      else
        var link := Link(SameCode(r.fips), ZoneUgc(r));
        Nws(AddCounty(n.counties, r), zones, if link in n.links then n.links else n.links + [link])
  }

  function LoadNws(rows: seq<Row>): Nws
    decreases |rows|
  {
    if rows == [] then Nws([], [], []) else AddRow(LoadNws(rows[..|rows| - 1]), rows[|rows| - 1])
  }

  method LoadNwsTable(rows: seq<Row>) returns (places: seq<Place>, links: seq<Link>)
    ensures var n := LoadNws(rows); places == n.counties + n.zones && links == n.links
  {
    var counties, zones: seq<Place> := [], [];
    links := [];
    var seenLinks: set<Link> := {};
    var i := 0;
    while i < |rows|
      invariant 0 <= i <= |rows|
      invariant Nws(counties, zones, links) == LoadNws(rows[..i])
      invariant forall l :: l in seenLinks <==> l in links
    {
      var row := rows[i];
      assert rows[..i + 1][..i] == rows[..i];
      hide Position, ZFill, SameCode, ZoneUgc;
      i := i + 1;
      if Skipped(row) {
        continue;
      }
      if Position(zones, ZoneUgc(row)).None? {
        zones := zones + [ZonePlace(row)];
      }
      if row.fips == "" {
        continue;
      }
      var same := SameCode(row.fips);
      counties := UpdateCounty(counties, row);
      var link := Link(same, ZoneUgc(row));
      if link !in seenLinks {
        seenLinks := seenLinks + {link};
        links := links + [link];
      }
    }
    assert rows[..|rows|] == rows;
    places := counties + zones;
  }

  method UpdateCounty(counties: seq<Place>, row: Row) returns (updated: seq<Place>)
    ensures updated == AddCounty(counties, row)
  {
    var at := Position(counties, SameCode(row.fips));
    if at.None? {
      return counties + [CountyPlace(row)];
    }
    var county := counties[at.value];
    if ZoneUgc(row) in county.zones {
      return counties;
    }
    return counties[at.value := county.(zones := county.zones + [ZoneUgc(row)])];
  }

  // ---------------------------------------------------------------- what the table holds

  predicate DistinctCodes(places: seq<Place>) {
    forall i, j | 0 <= i < j < |places| :: places[i].code != places[j].code
  }

  predicate HasCode(places: seq<Place>, code: string) {
    exists i :: 0 <= i < |places| && places[i].code == code
  }

  /** The ends of a link are in the tables. */
  predicate Linked(n: Nws, l: Link) {
    HasCode(n.counties, l.same) && HasCode(n.zones, l.zone)
  }

  predicate TableOk(n: Nws) {
    && DistinctCodes(n.counties) && DistinctCodes(n.zones)
    && AllFrom(n.counties, "nws_same") && AllFrom(n.zones, "nws_zone")
    && (forall i, j | 0 <= i < j < |n.links| :: n.links[i] != n.links[j])
    && (forall i | 0 <= i < |n.links| :: Linked(n, n.links[i]))
  }

  lemma SetDefaultKeeps(places: seq<Place>, p: Place)
    requires DistinctCodes(places)
    ensures var all := SetDefault(places, p);
            DistinctCodes(all) && HasCode(all, p.code)
            && forall code :: HasCode(places, code) ==> HasCode(all, code)
  {
    var all := SetDefault(places, p);
    if Position(places, p.code).None? {
      assert all[|places|] == p;
      assert forall i | 0 <= i < |places| :: all[i] == places[i];
    }
  }

  lemma AddCountyKeeps(counties: seq<Place>, r: Row)
    requires DistinctCodes(counties)
    ensures var all := AddCounty(counties, r);
            DistinctCodes(all) && HasCode(all, SameCode(r.fips))
            && (forall code :: HasCode(counties, code) ==> HasCode(all, code))
            && (AllFrom(counties, "nws_same") ==> AllFrom(all, "nws_same"))
  {
    hide SameCode, ZoneUgc;
    var all := AddCounty(counties, r);
    var at := Position(counties, SameCode(r.fips));
    assert forall i | 0 <= i < |counties| :: all[i].code == counties[i].code;
    if at.None? {
      assert all[|counties|] == CountyPlace(r);
    }
    forall code | HasCode(counties, code)
      ensures HasCode(all, code)
    {
      var i :| 0 <= i < |counties| && counties[i].code == code;
      assert all[i].code == code;
    }
  }

  lemma AddRowKeeps(n: Nws, r: Row)
    requires TableOk(n)
    ensures TableOk(AddRow(n, r))
  {
    hide SetDefault, AddCounty, HasCode, DistinctCodes, SameCode, ZoneUgc, Skipped;
    if !Skipped(r) {
      SetDefaultKeeps(n.zones, ZonePlace(r));
      SetDefaultFrom(n.zones, ZonePlace(r), "nws_zone");
      if r.fips != "" {
        AddCountyKeeps(n.counties, r);
      }
    }
  }

  lemma SetDefaultFrom(places: seq<Place>, p: Place, source: string)
    requires AllFrom(places, source) && p.source == source
    ensures AllFrom(SetDefault(places, p), source)
  {
  }

  /** Whatever the rows: codes are unique in both tables, and every link is listed once and joins
      a county and a zone that are there. */
  lemma {:induction false} NwsTablesAreSound(rows: seq<Row>)
    ensures TableOk(LoadNws(rows))
    decreases |rows|
  {
    if rows != [] {
      NwsTablesAreSound(rows[..|rows| - 1]);
      hide AddRow;
      AddRowKeeps(LoadNws(rows[..|rows| - 1]), rows[|rows| - 1]);
    }
  }

  /** The row says that the zone covers the county. */
  predicate Says(r: Row, l: Link) {
    r.state != "" && r.fips != "" && IsSame(r.fips, l.same) && l.zone == r.state + "Z" + Padded(r.zone)
  }

  lemma SaysIs(r: Row, l: Link)
    ensures Says(r, l) <==> !Skipped(r) && r.fips != "" && l == Link(SameCode(r.fips), ZoneUgc(r))
  {
    SkippedIff(r);
    SameIsUnique(r.fips, l.same);
    ZFillIsPadded(r.zone);
    hide SameCode, IsSame, ZFill, Padded, Skipped;
  }

  /** The links are exactly what the rows say. */
  lemma {:induction false} LinksAreWhatRowsSay(rows: seq<Row>, l: Link)
    ensures l in LoadNws(rows).links <==> exists i :: 0 <= i < |rows| && Says(rows[i], l)
    decreases |rows|
  {
    if rows != [] {
      var front, last := rows[..|rows| - 1], rows[|rows| - 1];
      LinksAreWhatRowsSay(front, l);
      SaysIs(last, l);
      hide Skipped, SameCode, ZoneUgc, AddCounty, SetDefault, Says;
      assert forall i | 0 <= i < |front| :: rows[i] == front[i];
      assert l in LoadNws(rows).links <==> l in LoadNws(front).links || Says(last, l);
    }
  }

  // ---------------------------------------------------------------- the marine table

  datatype MarineRow = MarineRow(
    zone: string, fips: string, name: string, region: string, lat: Option<real>, lon: Option<real>)

  datatype Marine = Marine(zones: seq<Place>, sames: seq<Place>, links: seq<Link>)

  predicate MarineSkipped(r: MarineRow) {
    r.zone == "" || SameCode(r.fips) == "" || r.name == ""
  }

  function MarineZone(r: MarineRow): Place {
    Place("nws_marine_zone", r.zone, r.name, r.region, r.lat, r.lon, [])
  }

  function MarineSame(r: MarineRow): Place {
    Place("nws_marine_same", SameCode(r.fips), r.name, r.region, r.lat, r.lon, [])
  }

  function AddMarine(m: Marine, r: MarineRow): Marine {
    if MarineSkipped(r) then m
    else
      var link := Link(SameCode(r.fips), r.zone);
      Marine(SetDefault(m.zones, MarineZone(r)), SetDefault(m.sames, MarineSame(r)),
             if link in m.links then m.links else m.links + [link])
  }

  function LoadMarine(rows: seq<MarineRow>): Marine
    decreases |rows|
  {
    if rows == [] then Marine([], [], []) else AddMarine(LoadMarine(rows[..|rows| - 1]), rows[|rows| - 1])
  }

  method LoadMarineTable(rows: seq<MarineRow>) returns (places: seq<Place>, links: seq<Link>)
    ensures var m := LoadMarine(rows); places == m.sames + m.zones && links == m.links
  {
    var zones, sames: seq<Place> := [], [];
    links := [];
    var seenLinks: set<Link> := {};
    var i := 0;
    while i < |rows|
      invariant 0 <= i <= |rows|
      invariant Marine(zones, sames, links) == LoadMarine(rows[..i])
      invariant forall l :: l in seenLinks <==> l in links
    {
      var row := rows[i];
      assert rows[..i + 1][..i] == rows[..i];
      hide Position, SameCode;
      i := i + 1;
      if MarineSkipped(row) {
        continue;
      }
      if Position(zones, row.zone).None? {
        zones := zones + [MarineZone(row)];
      }
      if Position(sames, SameCode(row.fips)).None? {
        sames := sames + [MarineSame(row)];
      }
      var link := Link(SameCode(row.fips), row.zone);
      if link in seenLinks {
        continue;
      }
      seenLinks := seenLinks + {link};
      links := links + [link];
    }
    assert rows[..|rows|] == rows;
    places := sames + zones;
  }

  predicate MarineLinked(m: Marine, l: Link) {
    HasCode(m.sames, l.same) && HasCode(m.zones, l.zone)
  }

  predicate MarineOk(m: Marine) {
    && DistinctCodes(m.zones) && DistinctCodes(m.sames)
    && AllFrom(m.zones, "nws_marine_zone") && AllFrom(m.sames, "nws_marine_same")
    && (forall i, j | 0 <= i < j < |m.links| :: m.links[i] != m.links[j])
    && (forall i | 0 <= i < |m.links| :: MarineLinked(m, m.links[i]))
  }

  /** The marine tables are sound in the same way. */
  lemma {:induction false} MarineTablesAreSound(rows: seq<MarineRow>)
    ensures MarineOk(LoadMarine(rows))
    decreases |rows|
  {
    if rows != [] {
      var m, r := LoadMarine(rows[..|rows| - 1]), rows[|rows| - 1];
      MarineTablesAreSound(rows[..|rows| - 1]);
      SetDefaultKeeps(m.zones, MarineZone(r));
      SetDefaultKeeps(m.sames, MarineSame(r));
      SetDefaultFrom(m.zones, MarineZone(r), "nws_marine_zone");
      SetDefaultFrom(m.sames, MarineSame(r), "nws_marine_same");
      hide SetDefault, HasCode, DistinctCodes, SameCode, AllFrom;
    }
  }

  // ---------------------------------------------------------------- the places of the tables

  /** A code filled up with zeros in front to three characters. */
  function Padded(s: string): string {
    if |s| < 3 then seq(3 - |s|, _ => '0') + s else s
  }

  lemma ZFillIsPadded(s: string)
    ensures ZFill(s, 3) == Padded(s)
  {
    if |s| < 3 {
      var t := "0" + s;
      if |t| < 3 {
        var u := "0" + t;
        if |u| < 3 {
          assert ZFill(u, 3) == ZFill("0" + u, 3) == "0" + u;
        }
        assert ZFill(t, 3) == ZFill(u, 3);
      }
      assert ZFill(s, 3) == ZFill(t, 3);
    }
  }

  /** A five-digit county code becomes a six-digit one. */
  predicate IsSame(fips: string, code: string) {
    if |fips| == 5 && forall i | 0 <= i < 5 :: '0' <= fips[i] <= '9' then code == ['0'] + fips else code == fips
  }

  /** The zone that a row names. */
  predicate IsZoneOf(r: Row, p: Place) {
    p == Place("nws_zone", r.state + "Z" + Padded(r.zone), r.zoneName, r.state, r.lat, r.lon, [])
  }

  /** The county that a row names, without its zones. */
  predicate IsCountyOf(r: Row, p: Place) {
    && p.source == "nws_same" && IsSame(r.fips, p.code) && p.region == r.state && p.lat == r.lat && p.lon == r.lon
    && p.name == (if r.countyName == "" then p.code else r.countyName + ", " + r.state) && p.zones == []
  }

  predicate IsMarineZoneOf(r: MarineRow, p: Place) {
    p == Place("nws_marine_zone", r.zone, r.name, r.region, r.lat, r.lon, [])
  }

  predicate IsMarineSameOf(r: MarineRow, p: Place) {
    p.source == "nws_marine_same" && IsSame(r.fips, p.code)
    && p == Place(p.source, p.code, r.name, r.region, r.lat, r.lon, [])
  }

  predicate Increasing(a: seq<nat>) {
    forall i, j | 0 <= i < j < |a| :: a[i] < a[j]
  }

  /** The place is wanted at `i`, and none of its code before. */
  predicate IsFirstAt(p: Place, wanted: seq<Place>, i: nat) {
    i < |wanted| && wanted[i] == p && forall j | 0 <= j < i :: wanted[j].code != p.code
  }

  /** One place for each code that is wanted, the first with that code, in the order of the first ones;
      `from` says which. */
  predicate AreFirsts(kept: seq<Place>, wanted: seq<Place>, from: seq<nat>) {
    && |from| == |kept| && Increasing(from)
    && (forall k | 0 <= k < |from| :: IsFirstAt(kept[k], wanted, from[k]))
    && (forall i | 0 <= i < |wanted| :: HasCode(kept, wanted[i].code))
  }

  lemma IncreasingGrows(a: seq<nat>, n: nat)
    requires Increasing(a) && forall i | 0 <= i < |a| :: a[i] < n
    ensures Increasing(a + [n])
  {
  }

  lemma FirstStaysAt(p: Place, wanted: seq<Place>, i: nat, more: Place)
    requires IsFirstAt(p, wanted, i)
    ensures IsFirstAt(p, wanted + [more], i) && i < |wanted|
  {
  }

  lemma NewFirst(kept: seq<Place>, wanted: seq<Place>, p: Place)
    requires forall i | 0 <= i < |wanted| :: HasCode(kept, wanted[i].code)
    requires Position(kept, p.code).None?
    ensures IsFirstAt(p, wanted + [p], |wanted|)
  {
    var all := wanted + [p];
    forall i | 0 <= i < |wanted|
      ensures all[i].code != p.code
    {
      assert HasCode(kept, wanted[i].code);
    }
  }

  lemma FirstsGrow(kept: seq<Place>, wanted: seq<Place>, from: seq<nat>, p: Place) returns (from1: seq<nat>)
    requires AreFirsts(kept, wanted, from)
    ensures AreFirsts(SetDefault(kept, p), wanted + [p], from1)
  {
    hide IsFirstAt, HasCode, Increasing;
    var all, kept1 := wanted + [p], SetDefault(kept, p);
    forall k | 0 <= k < |from|
      ensures IsFirstAt(kept[k], all, from[k]) && from[k] < |wanted|
    {
      FirstStaysAt(kept[k], wanted, from[k], p);
    }
    if Position(kept, p.code).Some? {
      from1 := from;
    } else {
      from1 := from + [|wanted|];
      IncreasingGrows(from, |wanted|);
      NewFirst(kept, wanted, p);
    }
    forall i | 0 <= i < |all|
      ensures HasCode(kept1, all[i].code)
    {
      if i < |wanted| {
        assert HasCode(kept, wanted[i].code);
      }
      DefaultHasCode(kept, p, all[i].code);
    }
  }

  lemma DefaultHasCode(kept: seq<Place>, p: Place, code: string)
    ensures HasCode(kept, code) || code == p.code ==> HasCode(SetDefault(kept, p), code)
  {
    var kept1 := SetDefault(kept, p);
    if k :| 0 <= k < |kept| && kept[k].code == code {
      assert kept1[k] == kept[k];
    } else if code == p.code && Position(kept, code).None? {
      assert kept1[|kept|] == p;
    }
  }

  /** The numbers of the rows for which this holds. */
  predicate ArePicked(picked: seq<bool>, of: seq<nat>) {
    && Increasing(of) && (forall k | 0 <= k < |of| :: of[k] < |picked| && picked[of[k]])
    && (forall i | 0 <= i < |picked| && picked[i] :: i in of)
  }

  lemma PickedGrow(picked: seq<bool>, of: seq<nat>, more: bool)
    requires ArePicked(picked, of)
    ensures ArePicked(picked + [more], if more then of + [|picked|] else of)
  {
    if more {
      IncreasingGrows(of, |picked|);
    }
    hide Increasing;
    var all, of1 := picked + [more], if more then of + [|picked|] else of;
    forall i | 0 <= i < |all| && all[i]
      ensures i in of1
    {
      if i == |picked| {
        assert of1[|of|] == i;
      }
    }
  }

  function WithState(rows: seq<Row>): seq<bool> {
    seq(|rows|, i requires 0 <= i < |rows| => rows[i].state != "")
  }

  function WithCounty(rows: seq<Row>): seq<bool> {
    seq(|rows|, i requires 0 <= i < |rows| => rows[i].state != "" && rows[i].fips != "")
  }

  /** The places are those of the rows that name one, in order. */
  predicate AreZonesOf(rows: seq<Row>, wanted: seq<Place>, of: seq<nat>) {
    && |of| == |wanted| && ArePicked(WithState(rows), of)
    && (forall k | 0 <= k < |of| :: ZoneAt(rows, of[k], wanted[k]))
  }

  predicate ZoneAt(rows: seq<Row>, i: nat, p: Place) {
    i < |rows| && IsZoneOf(rows[i], p)
  }

  predicate CountyAt(rows: seq<Row>, i: nat, p: Place) {
    i < |rows| && IsCountyOf(rows[i], p)
  }

  predicate AreCountiesOf(rows: seq<Row>, wanted: seq<Place>, of: seq<nat>) {
    && |of| == |wanted| && ArePicked(WithCounty(rows), of)
    && (forall k | 0 <= k < |of| :: CountyAt(rows, of[k], wanted[k]))
  }

  lemma ZonePlaceIs(r: Row)
    ensures IsZoneOf(r, ZonePlace(r))
  {
    ZFillIsPadded(r.zone);
  }

  lemma SameCodeIs(fips: string)
    ensures IsSame(fips, SameCode(fips))
  {
  }

  lemma CountyPlaceIs(r: Row)
    ensures IsCountyOf(r, CountyPlace(r))
  {
    SameCodeIs(r.fips);
    hide SameCode, IsSame;
  }

  lemma ZonesStep(front: seq<Row>, last: Row)
    ensures LoadNws(front + [last]).zones
            == if last.state != "" then SetDefault(LoadNws(front).zones, ZonePlace(last)) else LoadNws(front).zones
  {
    assert (front + [last])[..|front|] == front;
    SkippedIff(last);
    hide Skipped, SetDefault, ZonePlace, AddCounty, ZoneUgc, SameCode;
  }

  lemma ZoneAtGrows(front: seq<Row>, last: Row, p: Place)
    ensures forall i: nat :: ZoneAt(front, i, p) ==> ZoneAt(front + [last], i, p)
    ensures ZoneAt(front + [last], |front|, ZonePlace(last))
    ensures WithState(front + [last]) == WithState(front) + [last.state != ""] && |WithState(front)| == |front|
  {
    ZonePlaceIs(last);
    hide IsZoneOf, ZonePlace;
  }

  lemma ZonesOfGrow(front: seq<Row>, last: Row, wanted: seq<Place>, of: seq<nat>)
    requires AreZonesOf(front, wanted, of)
    ensures if last.state != "" then AreZonesOf(front + [last], wanted + [ZonePlace(last)], of + [|front|])
            else AreZonesOf(front + [last], wanted, of)
  {
    hide ArePicked, ZoneAt, WithState, ZonePlace;
    PickedGrow(WithState(front), of, last.state != "");
    forall k | 0 <= k < |of|
      ensures ZoneAt(front + [last], of[k], wanted[k])
    {
      ZoneAtGrows(front, last, wanted[k]);
    }
    ZoneAtGrows(front, last, ZonePlace(last));
  }

  /** The zone table: each row with a state wants its zone, and the first row of a zone gives it. */
  lemma {:induction false} ZonesAreFirstRows(rows: seq<Row>) returns (wanted: seq<Place>, of: seq<nat>, from: seq<nat>)
    ensures AreZonesOf(rows, wanted, of) && AreFirsts(LoadNws(rows).zones, wanted, from)
    decreases |rows|
  {
    if rows == [] {
      return [], [], [];
    }
    hide *;
    var front, last := rows[..|rows| - 1], rows[|rows| - 1];
    wanted, of, from := ZonesAreFirstRows(front);
    assert rows == front + [last];
    ZonesStep(front, last);
    ZonesOfGrow(front, last, wanted, of);
    if last.state != "" {
      from := FirstsGrow(LoadNws(front).zones, wanted, from, ZonePlace(last));
      wanted, of := wanted + [ZonePlace(last)], of + [|front|];
    }
  }

  function Plain(places: seq<Place>): seq<Place> {
    seq(|places|, i requires 0 <= i < |places| => places[i].(zones := []))
  }

  lemma PlainCounty(counties: seq<Place>, r: Row)
    ensures Plain(AddCounty(counties, r)) == SetDefault(Plain(counties), CountyPlace(r))
  {
    PositionSame(counties, Plain(counties), SameCode(r.fips));
    hide SameCode, ZoneUgc, Position;
  }

  lemma CountiesStep(front: seq<Row>, last: Row)
    ensures Plain(LoadNws(front + [last]).counties)
            == if last.state != "" && last.fips != "" then SetDefault(Plain(LoadNws(front).counties), CountyPlace(last))
               else Plain(LoadNws(front).counties)
  {
    assert (front + [last])[..|front|] == front;
    SkippedIff(last);
    PlainCounty(LoadNws(front).counties, last);
    hide Skipped, SetDefault, CountyPlace, AddCounty, ZoneUgc, SameCode, Plain;
  }

  lemma CountyAtGrows(front: seq<Row>, last: Row, p: Place)
    ensures forall i: nat :: CountyAt(front, i, p) ==> CountyAt(front + [last], i, p)
    ensures CountyAt(front + [last], |front|, CountyPlace(last))
    ensures WithCounty(front + [last]) == WithCounty(front) + [last.state != "" && last.fips != ""] && |WithCounty(front)| == |front|
  {
    CountyPlaceIs(last);
    hide IsCountyOf, CountyPlace;
  }

  lemma CountiesOfGrow(front: seq<Row>, last: Row, wanted: seq<Place>, of: seq<nat>)
    requires AreCountiesOf(front, wanted, of)
    ensures if last.state != "" && last.fips != "" then
              AreCountiesOf(front + [last], wanted + [CountyPlace(last)], of + [|front|])
            else AreCountiesOf(front + [last], wanted, of)
  {
    hide ArePicked, CountyAt, WithCounty, CountyPlace;
    PickedGrow(WithCounty(front), of, last.state != "" && last.fips != "");
    forall k | 0 <= k < |of|
      ensures CountyAt(front + [last], of[k], wanted[k])
    {
      CountyAtGrows(front, last, wanted[k]);
    }
    CountyAtGrows(front, last, CountyPlace(last));
  }

  /** The county table, but for the zones: each row with a state and a county wants its county. */
  lemma {:induction false} CountiesAreFirstRows(rows: seq<Row>) returns (wanted: seq<Place>, of: seq<nat>, from: seq<nat>)
    ensures AreCountiesOf(rows, wanted, of) && AreFirsts(Plain(LoadNws(rows).counties), wanted, from)
    decreases |rows|
  {
    if rows == [] {
      return [], [], [];
    }
    hide *;
    var front, last := rows[..|rows| - 1], rows[|rows| - 1];
    wanted, of, from := CountiesAreFirstRows(front);
    assert rows == front + [last];
    CountiesStep(front, last);
    CountiesOfGrow(front, last, wanted, of);
    if last.state != "" && last.fips != "" {
      from := FirstsGrow(Plain(LoadNws(front).counties), wanted, from, CountyPlace(last));
      wanted, of := wanted + [CountyPlace(last)], of + [|front|];
    }
  }

  /** A marine row counts if it has a zone, a code and a name. */
  predicate IsUsed(r: MarineRow) {
    r.zone != "" && r.fips != "" && r.name != ""
  }

  predicate AreMarineOf(rows: seq<MarineRow>, zones: seq<Place>, sames: seq<Place>, of: seq<nat>) {
    && |of| == |zones| == |sames| && ArePicked(AllUsed(rows), of)
    && (forall k | 0 <= k < |of| :: MarineAt(rows, of[k], zones[k], sames[k]))
  }

  predicate MarineAt(rows: seq<MarineRow>, i: nat, zone: Place, same: Place) {
    i < |rows| && IsMarineZoneOf(rows[i], zone) && IsMarineSameOf(rows[i], same)
  }

  function AllUsed(rows: seq<MarineRow>): seq<bool> {
    seq(|rows|, i requires 0 <= i < |rows| => IsUsed(rows[i]))
  }

  lemma MarineUsedIff(r: MarineRow)
    ensures MarineSkipped(r) <==> !IsUsed(r)
  {
  }

  lemma MarinePlacesAre(r: MarineRow)
    ensures IsMarineZoneOf(r, MarineZone(r)) && IsMarineSameOf(r, MarineSame(r))
  {
    SameCodeIs(r.fips);
    hide SameCode, IsSame;
  }

  lemma MarineStep(front: seq<MarineRow>, last: MarineRow)
    ensures var m, m1 := LoadMarine(front), LoadMarine(front + [last]);
            && m1.zones == (if IsUsed(last) then SetDefault(m.zones, MarineZone(last)) else m.zones)
            && m1.sames == (if IsUsed(last) then SetDefault(m.sames, MarineSame(last)) else m.sames)
  {
    assert (front + [last])[..|front|] == front;
    MarineUsedIff(last);
    hide MarineSkipped, SetDefault, MarineZone, MarineSame, SameCode, IsUsed;
  }

  lemma MarineAtGrows(front: seq<MarineRow>, last: MarineRow, zone: Place, same: Place)
    ensures forall i: nat :: MarineAt(front, i, zone, same) ==> MarineAt(front + [last], i, zone, same)
    ensures MarineAt(front + [last], |front|, MarineZone(last), MarineSame(last))
    ensures AllUsed(front + [last]) == AllUsed(front) + [IsUsed(last)] && |AllUsed(front)| == |front|
  {
    MarinePlacesAre(last);
    hide IsMarineZoneOf, IsMarineSameOf, MarineZone, MarineSame, IsUsed;
  }

  lemma MarineOfGrow(front: seq<MarineRow>, last: MarineRow, zones: seq<Place>, sames: seq<Place>, of: seq<nat>)
    requires AreMarineOf(front, zones, sames, of)
    ensures if IsUsed(last) then
              AreMarineOf(front + [last], zones + [MarineZone(last)], sames + [MarineSame(last)], of + [|front|])
            else AreMarineOf(front + [last], zones, sames, of)
  {
    hide ArePicked, MarineAt, AllUsed, MarineZone, MarineSame, IsUsed;
    PickedGrow(AllUsed(front), of, IsUsed(last));
    forall k | 0 <= k < |of|
      ensures MarineAt(front + [last], of[k], zones[k], sames[k])
    {
      MarineAtGrows(front, last, zones[k], sames[k]);
    }
    MarineAtGrows(front, last, MarineZone(last), MarineSame(last));
  }

  /** The two marine tables, likewise. */
  lemma {:induction false} MarinePlacesAreFirstRows(rows: seq<MarineRow>)
    returns (zones: seq<Place>, sames: seq<Place>, of: seq<nat>, fromZones: seq<nat>, fromSames: seq<nat>)
    ensures AreMarineOf(rows, zones, sames, of)
    ensures AreFirsts(LoadMarine(rows).zones, zones, fromZones) && AreFirsts(LoadMarine(rows).sames, sames, fromSames)
    decreases |rows|
  {
    if rows == [] {
      return [], [], [], [], [];
    }
    hide *;
    var front, last := rows[..|rows| - 1], rows[|rows| - 1];
    zones, sames, of, fromZones, fromSames := MarinePlacesAreFirstRows(front);
    assert rows == front + [last];
    MarineStep(front, last);
    MarineOfGrow(front, last, zones, sames, of);
    if IsUsed(last) {
      fromZones := FirstsGrow(LoadMarine(front).zones, zones, fromZones, MarineZone(last));
      fromSames := FirstsGrow(LoadMarine(front).sames, sames, fromSames, MarineSame(last));
      zones, sames, of := zones + [MarineZone(last)], sames + [MarineSame(last)], of + [|front|];
    }
  }

  /** A marine link is listed if and only if a row gives it. */
  lemma {:induction false} MarineLinksAreWhatRowsSay(rows: seq<MarineRow>, l: Link)
    ensures l in LoadMarine(rows).links <==>
            exists i :: 0 <= i < |rows| && IsUsed(rows[i]) && rows[i].zone == l.zone && IsSame(rows[i].fips, l.same)
    decreases |rows|
  {
    if rows != [] {
      var front, last := rows[..|rows| - 1], rows[|rows| - 1];
      MarineLinksAreWhatRowsSay(front, l);
      MarineUsedIff(last);
      SameCodeIs(last.fips);
      assert IsSame(last.fips, l.same) <==> l.same == SameCode(last.fips) by { SameIsUnique(last.fips, l.same); }
      hide MarineSkipped, SameCode, SetDefault, IsUsed, IsSame;
      assert forall i | 0 <= i < |front| :: rows[i] == front[i];
      assert l in LoadMarine(rows).links <==>
             l in LoadMarine(front).links || (IsUsed(last) && l == Link(SameCode(last.fips), last.zone));
    }
  }

  lemma SameIsUnique(fips: string, code: string)
    ensures IsSame(fips, code) <==> code == SameCode(fips)
  {
  }

  // ---------------------------------------------------------------- all places

  /** The places of one table: unique keys, and sources among the given ones. */
  predicate TableOf(places: seq<Place>, sources: set<string>) {
    DistinctKeys(places) && forall i | 0 <= i < |places| :: places[i].source in sources
  }

  lemma JoinTables(a: seq<Place>, sa: set<string>, b: seq<Place>, sb: set<string>)
    requires TableOf(a, sa) && TableOf(b, sb) && sa !! sb
    ensures TableOf(a + b, sa + sb)
  {
    var all := a + b;
    forall i, j | 0 <= i < j < |all|
      ensures KeyOf(all[i]) != KeyOf(all[j])
    {
      if i < |a| <= j {
        assert all[i].source in sa && all[j].source in sb;
      }
    }
  }

  lemma UniqueIsTable(places: seq<Place>, source: string)
    requires AllFrom(places, source)
    ensures TableOf(Unique(places), {source})
  {
    UniqueKeepsFirsts(places);
    UniqueKeepsSource(places, source);
    hide Unique;
  }

  lemma CodesAreKeys(places: seq<Place>, source: string)
    requires DistinctCodes(places) && AllFrom(places, source)
    ensures TableOf(places, {source})
  {
  }

  /** The lists read from the other files, before duplicates are dropped. */
  datatype Files = Files(
    clc: seq<Place>, sgc: seq<Place>, forecasts: seq<Place>, helloWeather: seq<Place>, stations: seq<Place>)

  predicate Labelled(f: Files) {
    && AllFrom(f.clc, "clc") && AllFrom(f.sgc, "sgc") && AllFrom(f.forecasts, "forecast")
    && AllFrom(f.helloWeather, "hello_weather") && AllFrom(f.stations, "station")
  }

  function AllPlaces(f: Files, rows: seq<Row>, marineRows: seq<MarineRow>): seq<Place> {
    var n, m := LoadNws(rows), LoadMarine(marineRows);
    Unique(f.clc) + Unique(f.sgc) + Unique(f.forecasts) + Unique(f.helloWeather)
    + (n.counties + n.zones) + (m.sames + m.zones) + Unique(f.stations)
  }

  /** The list that is written under the primary key (source, code) never repeats a key. */
  lemma AllPlacesHaveDistinctKeys(f: Files, rows: seq<Row>, marineRows: seq<MarineRow>)
    requires Labelled(f)
    ensures DistinctKeys(AllPlaces(f, rows, marineRows))
  {
    UniqueIsTable(f.clc, "clc");
    UniqueIsTable(f.sgc, "sgc");
    UniqueIsTable(f.forecasts, "forecast");
    UniqueIsTable(f.helloWeather, "hello_weather");
    UniqueIsTable(f.stations, "station");
    NwsTablesAreSound(rows);
    MarineTablesAreSound(marineRows);
    var n, m := LoadNws(rows), LoadMarine(marineRows);
    CodesAreKeys(m.zones, "nws_marine_zone");
    CodesAreKeys(m.sames, "nws_marine_same");
    CodesAreKeys(n.counties, "nws_same");
    CodesAreKeys(n.zones, "nws_zone");
    hide Unique, LoadNws, LoadMarine, TableOf, DistinctCodes, AllFrom;
    var s1 := {"clc"} + {"sgc"};
    var s2 := s1 + {"forecast"};
    var s3 := s2 + {"hello_weather"};
    var nws, marine := {"nws_same"} + {"nws_zone"}, {"nws_marine_same"} + {"nws_marine_zone"};
    JoinTables(n.counties, {"nws_same"}, n.zones, {"nws_zone"});
    JoinTables(m.sames, {"nws_marine_same"}, m.zones, {"nws_marine_zone"});
    JoinTables(Unique(f.clc), {"clc"}, Unique(f.sgc), {"sgc"});
    var p1 := Unique(f.clc) + Unique(f.sgc);
    JoinTables(p1, s1, Unique(f.forecasts), {"forecast"});
    var p2 := p1 + Unique(f.forecasts);
    JoinTables(p2, s2, Unique(f.helloWeather), {"hello_weather"});
    var p3 := p2 + Unique(f.helloWeather);
    JoinTables(p3, s3, n.counties + n.zones, nws);
    var p4 := p3 + (n.counties + n.zones);
    JoinTables(p4, s3 + nws, m.sames + m.zones, marine);
    var p5 := p4 + (m.sames + m.zones);
    JoinTables(p5, s3 + nws + marine, Unique(f.stations), {"station"});
    TableIsDistinct(p5 + Unique(f.stations), s3 + nws + marine + {"station"});
  }

  lemma TableIsDistinct(places: seq<Place>, sources: set<string>)
    requires TableOf(places, sources)
    ensures DistinctKeys(places)
  {
  }

  // ---------------------------------------------------------------- the zones of a county

  /** The row adds a zone to a county. */
  predicate Covers(r: Row, same: string, zone: string) {
    Mentions(r, same) && zone == r.state + "Z" + Padded(r.zone)
  }

  predicate Mentions(r: Row, same: string) {
    r.state != "" && r.fips != "" && IsSame(r.fips, same)
  }

  lemma MentionsIs(r: Row, same: string, zone: string)
    ensures Mentions(r, same) <==> !Skipped(r) && r.fips != "" && SameCode(r.fips) == same
    ensures Covers(r, same, zone) <==> !Skipped(r) && r.fips != "" && SameCode(r.fips) == same && ZoneUgc(r) == zone
  {
    SkippedIff(r);
    SameIsUnique(r.fips, same);
    ZFillIsPadded(r.zone);
    hide SameCode, IsSame, ZFill, Padded, Skipped;
  }

  /** A row after the first row of the county says that the zone covers it. */
  predicate CoversLater(rows: seq<Row>, same: string, zone: string) {
    exists i, j :: 0 <= i < j < |rows| && Mentions(rows[i], same) && Covers(rows[j], same, zone)
  }

  function ZonesOf(counties: seq<Place>, same: string): seq<string> {
    match Position(counties, same)
    case None => []
    case Some(i) => counties[i].zones
  }

  lemma AddCountyZones(counties: seq<Place>, r: Row, same: string, zone: string)
    requires DistinctCodes(counties)
    ensures var all := AddCounty(counties, r);
            && (HasCode(all, same) <==> HasCode(counties, same) || SameCode(r.fips) == same)
            && (zone in ZonesOf(all, same) <==>
                  || zone in ZonesOf(counties, same)
                  || (HasCode(counties, same) && SameCode(r.fips) == same && ZoneUgc(r) == zone))
  {
    hide SameCode, ZoneUgc;
    var all := AddCounty(counties, r);
    AddCountyKeeps(counties, r);
    var at := Position(counties, SameCode(r.fips));
    if at.None? {
      assert all[|counties|] == CountyPlace(r);
      assert all[..|counties|] == counties;
    } else {
      PositionOf(all, at.value);
      PositionSame(counties, all, same);
      PositionOf(counties, at.value);
    }
    PositionIs(counties, same);
    PositionIs(all, same);
  }

  lemma PositionIs(places: seq<Place>, code: string)
    ensures HasCode(places, code) <==> Position(places, code).Some?
  {
  }

  lemma PositionOf(places: seq<Place>, i: nat)
    requires DistinctCodes(places) && i < |places|
    ensures Position(places, places[i].code) == Some(i)
  {
  }

  lemma {:induction false} PositionSame(a: seq<Place>, b: seq<Place>, code: string)
    requires |a| == |b| && forall i | 0 <= i < |a| :: a[i].code == b[i].code
    ensures Position(a, code) == Position(b, code)
    decreases |a|
  {
    if a != [] {
      PositionSame(a[..|a| - 1], b[..|b| - 1], code);
    }
  }

  /** Some row is about the county. */
  predicate IsMentioned(rows: seq<Row>, same: string) {
    exists i :: 0 <= i < |rows| && Mentions(rows[i], same)
  }

  lemma {:induction false} ZonesAreLaterRows(rows: seq<Row>, same: string, zone: string)
    ensures HasCode(LoadNws(rows).counties, same) <==> IsMentioned(rows, same)
    ensures zone in ZonesOf(LoadNws(rows).counties, same) <==> CoversLater(rows, same, zone)
    decreases |rows|
  {
    if rows != [] {
      var front, last := rows[..|rows| - 1], rows[|rows| - 1];
      ZonesAreLaterRows(front, same, zone);
      CountyStep(rows, same, zone);
      OneMoreRow(front, last, same, zone);
      assert front + [last] == rows;
      hide LoadNws, Mentions, Covers, ZonesOf, HasCode, CoversLater, IsMentioned;
    }
  }

  /** What the last row does to a county. */
  lemma CountyStep(rows: seq<Row>, same: string, zone: string)
    requires rows != []
    ensures var last := rows[|rows| - 1];
            var before, after := LoadNws(rows[..|rows| - 1]).counties, LoadNws(rows).counties;
            && (HasCode(after, same) <==> HasCode(before, same) || Mentions(last, same))
            && (zone in ZonesOf(after, same) <==>
                  zone in ZonesOf(before, same) || (HasCode(before, same) && Covers(last, same, zone)))
  {
    var front, last := rows[..|rows| - 1], rows[|rows| - 1];
    NwsTablesAreSound(front);
    OneMoreCounty(rows);
    MentionsIs(last, same, zone);
    hide LoadNws, AddCounty, Skipped, SameCode, ZoneUgc, ZonesOf, HasCode, DistinctCodes, Mentions, Covers;
    AddCountyZones(LoadNws(front).counties, last, same, zone);
  }

  /** The zones kept with a county are those of its rows after the first: the first row's zone is
      missing unless a later row repeats it. */
  lemma CountyZonesAreLaterRows(rows: seq<Row>, same: string, zone: string)
    ensures HasCode(LoadNws(rows).counties, same) <==> exists i :: 0 <= i < |rows| && Mentions(rows[i], same)
    ensures zone in ZonesOf(LoadNws(rows).counties, same) <==> CoversLater(rows, same, zone)
  {
    ZonesAreLaterRows(rows, same, zone);
    hide LoadNws, Mentions, ZonesOf, HasCode, CoversLater;
  }

  const FIRST := Row("CO", "1", "Lower Yampa", "Moffat", "08081", None, None)
  const SECOND := Row("CO", "2", "Central Yampa", "Moffat", "08081", None, None)

  /** A county in two zones: both zones are listed and linked to it, but it only keeps the second. */
  lemma FirstZoneIsMissing()
    ensures var t := LoadNws([FIRST, SECOND]);
            && ZonesOf(t.counties, "008081") == ["COZ002"]
            && HasCode(t.zones, "COZ001") && HasCode(t.zones, "COZ002")
            && t.links == [Link("008081", "COZ001"), Link("008081", "COZ002")]
  {
    CodesOfRows();
    hide SameCode, ZoneUgc, Skipped;
    assert !Skipped(FIRST) && !Skipped(SECOND);
    var rows := [FIRST, SECOND];
    assert rows[..1] == [FIRST] && rows[..1][..0] == [];
    var a, b := ZonePlace(FIRST), ZonePlace(SECOND);
    var c := CountyPlace(FIRST);
    assert LoadNws([]) == Nws([], [], []);
    assert LoadNws([FIRST]) == Nws([c], [a], [Link("008081", "COZ001")]);
    var c2 := c.(zones := ["COZ002"]);
    assert Position([c], "008081") == Some(0);
    assert [c][0 := c2] == [c2];
    assert c2.zones == [] + ["COZ002"];
    assert AddCounty([c], SECOND) == [c2];
    var zones := [a, b];
    assert zones[0].code == "COZ001" && zones[1].code == "COZ002";
    assert LoadNws(rows) == Nws([c2], [a, b], [Link("008081", "COZ001"), Link("008081", "COZ002")]);
  }

  lemma CodesOfRows()
    ensures SameCode(FIRST.fips) == "008081" && SameCode(SECOND.fips) == "008081"
    ensures ZoneUgc(FIRST) == "COZ001" && ZoneUgc(SECOND) == "COZ002"
    ensures !Skipped(FIRST) && !Skipped(SECOND)
  {
    assert ZFill("1", 3) == ZFill("01", 3) == "001";
    assert ZFill("2", 3) == ZFill("02", 3) == "002";
  }

  lemma OneMoreCounty(rows: seq<Row>)
    requires rows != []
    ensures var front, last := rows[..|rows| - 1], rows[|rows| - 1];
            LoadNws(rows).counties == if Skipped(last) || last.fips == "" then LoadNws(front).counties
                                      else AddCounty(LoadNws(front).counties, last)
  {
    hide AddCounty, SetDefault, Skipped;
  }

  lemma OneMoreRow(front: seq<Row>, last: Row, same: string, zone: string)
    ensures var rows := front + [last];
            && (IsMentioned(rows, same) <==> IsMentioned(front, same) || Mentions(last, same))
            && (CoversLater(rows, same, zone) <==>
                  CoversLater(front, same, zone) || (IsMentioned(front, same) && Covers(last, same, zone)))
  {
    hide Skipped, SameCode, ZoneUgc, Mentions, Covers;
    var rows := front + [last];
    assert forall i | 0 <= i < |front| :: rows[i] == front[i];
    assert rows[|front|] == last;
    if IsMentioned(front, same) {
      var i :| 0 <= i < |front| && Mentions(front[i], same);
      assert Mentions(rows[i], same);
    }
  }

  // ---------------------------------------------------------------- code similarity

  function CommonPrefix(a: string, b: string): (n: nat)
    ensures n <= |a| && n <= |b|
    ensures a[..n] == b[..n]
    ensures n < |a| && n < |b| ==> a[n] != b[n]
    decreases |a|
  {
    if a == "" || b == "" || a[0] != b[0] then 0
    else
      var n := CommonPrefix(a[1..], b[1..]);
      assert a[..n + 1] == [a[0]] + a[1..][..n] && b[..n + 1] == [b[0]] + b[1..][..n];
      n + 1
  }

  function Longer(a: string, b: string): nat {
    if |a| < |b| then |b| else |a|
  }

  method CountPrefix(a: string, b: string) returns (prefix: nat)
    ensures prefix == CommonPrefix(a, b)
  {
    prefix := 0;
    while prefix < |a| && prefix < |b| && a[prefix] == b[prefix]
      invariant 0 <= prefix <= |a| && prefix <= |b|
      invariant a[..prefix] == b[..prefix]
    {
      prefix := prefix + 1;
    }
    PrefixIsUnique(a, b, prefix);
  }

  lemma {:induction false} PrefixIsUnique(a: string, b: string, n: nat)
    requires n <= |a| && n <= |b| && a[..n] == b[..n]
    requires n < |a| && n < |b| ==> a[n] != b[n]
    ensures CommonPrefix(a, b) == n
    decreases |a|
  {
    if n > 0 {
      assert a[0] == a[..n][0] && b[0] == b[..n][0];
      assert a[1..][..n - 1] == a[..n][1..] && b[1..][..n - 1] == b[..n][1..];
      PrefixIsUnique(a[1..], b[1..], n - 1);
    }
  }

  lemma Share(n: nat, d: nat)
    requires n <= d && d > 0
    ensures var r := n as real / d as real;
            && 0.0 <= r <= 1.0 && r * d as real == n as real && (r == 1.0 <==> n == d) && (r == 0.0 <==> n == 0)
  {
    var r := n as real / d as real;
    assert r * d as real == n as real;
  }

  /** Of two cleaned codes: the share of the longer one that they have in common at the front. */
  method CodeSimilarity(a: string, b: string) returns (r: real)
    ensures 0.0 <= r <= 1.0
    ensures r == 1.0 <==> a == b != ""
    ensures a != "" && b != "" ==> r * Longer(a, b) as real == CommonPrefix(a, b) as real
    ensures r == 0.0 <==> a == "" || b == "" || a[0] != b[0]
  {
    if a == "" || b == "" {
      return 0.0;
    }
    var prefix := CountPrefix(a, b);
    Share(prefix, Longer(a, b));
    WholePrefix(a, b);
    hide CommonPrefix;
    if a == b {
      return 1.0;
    }
    r := prefix as real / Longer(a, b) as real;
  }

  lemma WholePrefix(a: string, b: string)
    ensures CommonPrefix(a, b) == Longer(a, b) <==> a == b
    ensures a != "" && b != "" ==> (CommonPrefix(a, b) == 0 <==> a[0] != b[0])
  {
    var n := CommonPrefix(a, b);
    if n == Longer(a, b) {
      assert a == a[..n] && b == b[..n];
    }
  }

  // ---------------------------------------------------------------- nearest stations

  predicate Located(p: Place) {
    p.lat.Some? && p.lon.Some?
  }

  function PointOf(p: Place): Point
    requires Located(p)
  {
    Point(p.lat.value, p.lon.value)
  }

  function LocatedOnly(places: seq<Place>): (located: seq<Place>)
    ensures forall i | 0 <= i < |located| :: Located(located[i])
    ensures forall p :: p in located <==> p in places && Located(p)
    decreases |places|
  {
    if places == [] then []
    else
      var front, last := LocatedOnly(places[..|places| - 1]), places[|places| - 1];
      assert places == places[..|places| - 1] + [last];
      if Located(last) then front + [last] else front
  }

  function InRegion(places: seq<Place>, region: string): (found: seq<Place>)
    ensures forall p :: p in found <==> p in places && p.region == region
    decreases |places|
  {
    if places == [] then []
    else
      var front, last := InRegion(places[..|places| - 1], region), places[|places| - 1];
      assert places == places[..|places| - 1] + [last];
      if last.region == region then front + [last] else front
  }

  /** The stations an area may be linked to: those of its region, or all when it has none. */
  function Candidates(stations: seq<Place>, region: string): (c: seq<Place>)
    ensures forall i | 0 <= i < |c| :: Located(c[i])
  {
    var located := LocatedOnly(stations);
    var regional := InRegion(located, region);
    assert forall i | 0 <= i < |regional| :: regional[i] in regional;
    if region != "" && regional != [] then regional else located
  }

  /** The stations an area may be linked to: those with a position, and of the area's region if that
      has any. */
  predicate IsCandidate(stations: seq<Place>, region: string, s: Place) {
    && s in stations && s.lat.Some? && s.lon.Some?
    && (region != "" && (exists i :: 0 <= i < |stations| && Serves(stations[i], region)) ==> s.region == region)
  }

  predicate Serves(s: Place, region: string) {
    s.lat.Some? && s.lon.Some? && s.region == region
  }

  lemma CandidatesAre(stations: seq<Place>, region: string)
    ensures forall s :: s in Candidates(stations, region) <==> IsCandidate(stations, region, s)
  {
    var located := LocatedOnly(stations);
    var regional := InRegion(located, region);
    hide LocatedOnly, InRegion;
    if i :| 0 <= i < |stations| && Serves(stations[i], region) {
      assert stations[i] in located && stations[i] in regional;
    }
    forall s | s in regional
      ensures exists i :: 0 <= i < |stations| && Serves(stations[i], region)
    {
      var i :| 0 <= i < |stations| && stations[i] == s;
      assert Serves(stations[i], region);
    }
    assert regional != [] ==> regional[0] in regional;
  }

  function Points(places: seq<Place>): (points: seq<Point>)
    requires forall i | 0 <= i < |places| :: Located(places[i])
    ensures |points| == |places| && forall i | 0 <= i < |places| :: points[i] == PointOf(places[i])
  {
    seq(|places|, i requires 0 <= i < |places| => PointOf(places[i]))
  }

  datatype StationLink = StationLink(area: Key, station: Place, distance: real)

  /** The link of an area: its station is a nearest candidate, and within reach. */
  predicate LinkOk(t: Trig, stations: seq<Place>, maxKm: real, area: Place, l: StationLink) {
    && Located(area) && l.area == KeyOf(area)
    && IsCandidate(stations, area.region, l.station)
    && l.distance == Distance(t, PointOf(area), PointOf(l.station)) <= maxKm
    && forall s <- stations | IsCandidate(stations, area.region, s) ::
         l.distance <= Distance(t, PointOf(area), PointOf(s))
  }

  /** The area has no candidate within reach. */
  predicate Unreachable(t: Trig, stations: seq<Place>, maxKm: real, area: Place) {
    Located(area) ==>
      forall s <- stations | IsCandidate(stations, area.region, s) :: Distance(t, PointOf(area), PointOf(s)) > maxKm
  }

  /** One search; `query` is the tree's answer where there is a tree. */
  method LinkArea(t: Trig, stations: seq<Place>, maxKm: real, hasTree: bool, query: (seq<Point>, Point) -> nat, area: Place)
    returns (link: Option<StationLink>)
    requires Laws(t) && Grows(t)
    requires hasTree ==> forall places, from :: places != [] ==> NearestChord(t, places, from, query(places, from))
    ensures link.Some? ==> LinkOk(t, stations, maxKm, area, link.value)
    ensures link.None? ==> Unreachable(t, stations, maxKm, area)
  {
    if !Located(area) {
      return None;
    }
    var candidates := Candidates(stations, area.region);
    CandidatesAre(stations, area.region);
    var points := Points(candidates);
    var from := PointOf(area);
    hide Distance, Laws, Grows, NearestChord, Candidates, IsCandidate;
    var best, distance := FindNearest(t, points, from, hasTree, if hasTree then query(points, from) else 0);
    if best.None? {
      return None;
    }
    if hasTree {
      ChordsOrderArcs(t, points, from, best.value);
    }
    forall s | s in candidates
      ensures distance.value <= Distance(t, from, PointOf(s))
    {
      var i :| 0 <= i < |candidates| && candidates[i] == s;
      assert points[i] == PointOf(s);
    }
    if distance.value > maxKm {
      return None;
    }
    return Some(StationLink(KeyOf(area), candidates[best.value], distance.value));
  }

  predicate LinksSome(t: Trig, stations: seq<Place>, maxKm: real, areas: seq<Place>, l: StationLink) {
    exists i :: 0 <= i < |areas| && LinkOk(t, stations, maxKm, areas[i], l)
  }

  predicate IsLinked(t: Trig, stations: seq<Place>, maxKm: real, area: Place, links: seq<StationLink>) {
    exists k :: 0 <= k < |links| && LinkOk(t, stations, maxKm, area, links[k])
  }

  /** The areas in order, each with at most one link. */
  method MatchNearestStations(
      t: Trig, areas: seq<Place>, stations: seq<Place>, maxKm: real, hasTree: bool, query: (seq<Point>, Point) -> nat)
    returns (links: seq<StationLink>)
    requires Laws(t) && Grows(t) && DistinctKeys(areas)
    requires hasTree ==> forall places, from :: places != [] ==> NearestChord(t, places, from, query(places, from))
    ensures forall i, j | 0 <= i < j < |links| :: links[i].area != links[j].area
    ensures forall k | 0 <= k < |links| :: LinksSome(t, stations, maxKm, areas, links[k])
    ensures forall i | 0 <= i < |areas| ::
              Unreachable(t, stations, maxKm, areas[i]) || IsLinked(t, stations, maxKm, areas[i], links)
  {
    hide LinkOk, Unreachable, Laws, Grows, NearestChord;
    links := [];
    ghost var from: seq<nat> := [];
    var i := 0;
    while i < |areas|
      invariant 0 <= i <= |areas| && |from| == |links|
      invariant forall k | 0 <= k < |links| ::
                  from[k] < i && links[k].area == KeyOf(areas[from[k]])
                  && LinkOk(t, stations, maxKm, areas[from[k]], links[k])
      invariant forall a, b | 0 <= a < b < |links| :: from[a] < from[b]
      invariant forall a | 0 <= a < i ::
                  Unreachable(t, stations, maxKm, areas[a]) || IsLinked(t, stations, maxKm, areas[a], links)
    {
      var link := LinkArea(t, stations, maxKm, hasTree, query, areas[i]);
      if link.Some? {
        LinkNamesArea(t, stations, maxKm, areas[i], link.value);
        ghost var before := links;
        links := links + [link.value];
        from := from + [i];
        assert links[|before|] == link.value;
        assert forall k | 0 <= k < |before| :: links[k] == before[k];
      }
      i := i + 1;
    }
    forall k | 0 <= k < |links|
      ensures LinksSome(t, stations, maxKm, areas, links[k])
    {
      assert LinkOk(t, stations, maxKm, areas[from[k]], links[k]);
    }
  }

  lemma LinkNamesArea(t: Trig, stations: seq<Place>, maxKm: real, area: Place, l: StationLink)
    requires LinkOk(t, stations, maxKm, area, l)
    ensures l.area == KeyOf(area)
  {
  }
}
