/** The pure part of the trip offer manager: the catalog row mapping, the
  * first-match selection of `findAvailableTrip` and the row recorded for an
  * accepted trip. */
module TripRules {
  import opened Wrappers
  import opened JsText
  import opened Domain

  /** The great-circle distance in kilometres between two points given as
    * (lat1, lon1, lat2, lon2); its formula is not part of this model. */
  type Distance = (real, real, real, real) -> real

  /** The largest distance, in kilometres, between the vehicle and a trip's origin. */
  const MaxDistanceKm: real := 50.0

  /** The ids of the two offer buttons. */
  const OfferButtons: seq<string> := ["accept", "reject"]

  /** `parseFloat(cell)`, where `None` is `NaN` and an absent cell parses as `"undefined"`. */
  function NumberOf(cell: Option<string>): Option<real> {
    if cell.Some? then ParseFloat(cell.value) else None
  }

  /** One catalog row as `findAvailableTrip` maps it. */
  function TripOfRow(row: Row, nowIso: string): Trip {
    Trip(Cell(row, 0), NumberOf(Cell(row, 1)), NumberOf(Cell(row, 2)), Cell(row, 3),
         NumberOf(Cell(row, 4)), NumberOf(Cell(row, 5)), Cell(row, 6),
         if Truthy(Cell(row, 7)) then row[7] else nowIso,
         NumberOf(Cell(row, 8)).GetOr(0.0))
  }

  /** `a <= b` where either side may be `NaN` (or `undefined`): then it is false. */
  predicate AtMost(a: Option<real>, b: Option<real>) {
    a.Some? && b.Some? && a.value <= b.value
  }

  /** The predicate `find` applies: the trip's weight fits the capacity, its
    * volume fits the vehicle's volume and its origin is within range. */
  predicate Matches(t: Trip, v: Transport, distance: Distance) {
    && AtMost(t.weight, v.capacity)
    && AtMost(t.volume, v.volume)
    && t.originLat.Some? && t.originLon.Some?
    && distance(v.location.latitude, v.location.longitude, t.originLat.value, t.originLon.value) <= MaxDistanceKm
  }

  /** The index `find` stops at: the first matching trip, if any. */
  function FirstMatch(trips: seq<Trip>, v: Transport, distance: Distance): (r: Option<nat>)
    ensures r.Some? ==> r.value < |trips| && Matches(trips[r.value], v, distance)
    ensures r.Some? ==> forall j :: 0 <= j < r.value ==> !Matches(trips[j], v, distance)
    ensures r.None? ==> forall j :: 0 <= j < |trips| ==> !Matches(trips[j], v, distance)
    decreases |trips|
  {
    if |trips| == 0 then None
    else if Matches(trips[0], v, distance) then Some(0)
    else
      var rest := FirstMatch(trips[1..], v, distance);
      if rest.Some? then Some(rest.value + 1) else None
  }

  /** The trips of the catalog rows after the header row. */
  function CatalogTrips(rows: seq<Row>, nowIso: string): (trips: seq<Trip>)
    requires |rows| >= 1
    ensures |trips| == |rows| - 1
    ensures forall i :: 0 <= i < |trips| ==> trips[i] == TripOfRow(rows[i + 1], nowIso)
  {
    seq(|rows| - 1, i requires 0 <= i < |rows| - 1 => TripOfRow(rows[i + 1], nowIso))
  }

  /** `findAvailableTrip` on the catalog rows read: nothing with fewer than two
    * rows; otherwise the first trip, in row order after the header, that
    * matches the vehicle. */
  function SelectTrip(rows: seq<Row>, v: Transport, nowIso: string, distance: Distance): (r: Option<Trip>)
    ensures |rows| <= 1 ==> r.None?
    ensures r.Some? ==> exists i :: 1 <= i < |rows| && r.value == TripOfRow(rows[i], nowIso)
                                    && Matches(r.value, v, distance)
                                    && (forall j :: 1 <= j < i ==> !Matches(TripOfRow(rows[j], nowIso), v, distance))
    ensures r.None? ==> forall i :: 1 <= i < |rows| ==> !Matches(TripOfRow(rows[i], nowIso), v, distance)
  {
    if |rows| <= 1 then None
    else
      var trips := CatalogTrips(rows, nowIso);
      var k := FirstMatch(trips, v, distance);
      if k.None? then
        assert forall i :: 1 <= i < |rows| ==> trips[i - 1] == TripOfRow(rows[i], nowIso);
        None
      else
        assert forall j :: 1 <= j < k.value + 1 ==> trips[j - 1] == TripOfRow(rows[j], nowIso);
        Some(trips[k.value])
  }

  /** The 10 columns appended to the accepted-trips sheet. */
  function AcceptedRow(to: Sender, t: Trip, code: string, iso: string): seq<Value> {
    [ Str(to), StrOrUndefined(t.cargoType), NumOrNaN(t.weight), NumOrNaN(t.volume),
      StrOrUndefined(t.origin), StrOrUndefined(t.destination), Str(t.pickupTime),
      Num(t.flete), Str(code), Str(iso) ]
  }

  // ---------------------------------------------------------------------
  // Properties
  // ---------------------------------------------------------------------

  /** The accepted-trip row has 10 columns: the sender, the trip's cargo,
    * weight, volume, origin, destination, pickup time and freight, then the
    * confirmation code and the timestamp, each read back from its column. */
  lemma AcceptedRowLayout(to: Sender, t: Trip, code: string, iso: string)
    ensures var r := AcceptedRow(to, t, code, iso);
      && |r| == 10
      && r[0] == Str(to) && r[8] == Str(code) && r[9] == Str(iso)
      && StrOf(r[1]) == t.cargoType && NumOf(r[2]) == t.weight && NumOf(r[3]) == t.volume
      && StrOf(r[4]) == t.origin && StrOf(r[5]) == t.destination
      && StrOf(r[6]) == Some(t.pickupTime) && NumOf(r[7]) == Some(t.flete)
  {
  }

  /** The defaults of the row mapping: a missing or empty pickup time reads
    * as the current time and any other is kept; a missing freight, or one
    * without a numeric prefix, reads as 0, and any other as its number. */
  lemma TripDefaults(row: Row, nowIso: string)
    ensures |row| <= 7 || row[7] == "" ==> TripOfRow(row, nowIso).pickupTime == nowIso
    ensures |row| > 7 && row[7] != "" ==> TripOfRow(row, nowIso).pickupTime == row[7]
    ensures |row| <= 8 || !HasNumericPrefix(row[8]) ==> TripOfRow(row, nowIso).flete == 0.0
    ensures |row| > 8 && HasNumericPrefix(row[8]) ==>
              ParseFloat(row[8]).Some? && TripOfRow(row, nowIso).flete == ParseFloat(row[8]).value
  {
    if |row| > 8 {
      ParseFloatOfNonNumbers(row[8]);
    }
  }

  /** A trip without weight, volume or origin coordinates never matches: `NaN`
    * makes every comparison false. */
  lemma UnparsedNeverMatches(t: Trip, v: Transport, distance: Distance)
    requires t.weight.None? || t.volume.None? || t.originLat.None? || t.originLon.None?
    ensures !Matches(t, v, distance)
  {
  }

  lemma SmallNumbersParse()
    ensures ParseFloat("1") == Some(1.0) && ParseFloat("2") == Some(2.0) && ParseFloat("5") == Some(5.0)
    ensures ParseFloat("8") == Some(8.0) && ParseFloat("9") == Some(9.0)
  {
    ParseFloatOfNat(1);
    ParseFloatOfNat(2);
    ParseFloatOfNat(5);
    ParseFloatOfNat(8);
    ParseFloatOfNat(9);
  }

  lemma FarRowParses(far: Row, nowIso: string)
    requires far == ["arena", "5", "5", "A", "1", "1", "B", "", "8"]
    ensures TripOfRow(far, nowIso)
         == Trip(Some("arena"), Some(5.0), Some(5.0), Some("A"), Some(1.0), Some(1.0), Some("B"), nowIso, 8.0)
  {
    SmallNumbersParse();
  }

  lemma NearRowParses(near: Row, nowIso: string)
    requires near == ["grava", "5", "5", "C", "2", "2", "D", "", "9"]
    ensures TripOfRow(near, nowIso)
         == Trip(Some("grava"), Some(5.0), Some(5.0), Some("C"), Some(2.0), Some(2.0), Some("D"), nowIso, 9.0)
  {
    SmallNumbersParse();
  }

  /** With a header and two trips, where only the second matches, the second
    * is selected. */
  lemma SecondOfTwoSelected(rows: seq<Row>, v: Transport, nowIso: string, distance: Distance)
    requires |rows| == 3
    requires !Matches(TripOfRow(rows[1], nowIso), v, distance) && Matches(TripOfRow(rows[2], nowIso), v, distance)
    ensures SelectTrip(rows, v, nowIso, distance) == Some(TripOfRow(rows[2], nowIso))
  {
    var trips := CatalogTrips(rows, nowIso);
    assert trips[1..][0] == trips[1];
    assert FirstMatch(trips, v, distance) == Some(1);
  }

  /** A catalog of one trip 60 km away and one 40 km away, both light enough,
    * offers the second, whatever the header row holds. */
  lemma NearerTripIsOffered(header: Row, far: Row, near: Row, v: Transport, distance: Distance, nowIso: string)
    requires far == ["arena", "5", "5", "A", "1", "1", "B", "", "8"]
    requires near == ["grava", "5", "5", "C", "2", "2", "D", "", "9"]
    requires v.capacity == Some(10.0) && v.volume == Some(30.0)
    requires distance(v.location.latitude, v.location.longitude, 1.0, 1.0) == 60.0
    requires distance(v.location.latitude, v.location.longitude, 2.0, 2.0) == 40.0
    ensures SelectTrip([header, far, near], v, nowIso, distance) == Some(TripOfRow(near, nowIso))
  {
    FarRowParses(far, nowIso);
    NearRowParses(near, nowIso);
    assert !Matches(TripOfRow(far, nowIso), v, distance);
    assert Matches(TripOfRow(near, nowIso), v, distance);
    SecondOfTwoSelected([header, far, near], v, nowIso, distance);
  }
}
