/** FlightService of backend/app/services/flight_service.py: the bounding box
    is reordered for the FlightRadar24 library, airborne flights become
    records with default values, and details are passed through when truthy.
    The library calls are function parameters. */
module FlightService {
  import opened Options
  import opened Text
  import opened PyValues
  import OpenSkyService

  /** The attributes of a flight object of the library that the service reads. */
  datatype LibraryFlight = LibraryFlight(
    id: PyVal,
    icao24bit: PyVal,
    callsign: PyVal,
    originAirportIata: PyVal,
    longitude: PyVal,
    latitude: PyVal,
    altitude: PyVal,
    onGround: PyVal,
    groundSpeed: PyVal,
    heading: PyVal,
    verticalSpeed: PyVal)

  /** Bounds in the library's order: north, south, west, east. */
  datatype Bounds = Bounds(north: real, south: real, west: real, east: real)

  /** What a library call ended with: an exception, or its result. */
  datatype LibraryResult<T> = LibraryFailed | Returned(result: T)

  /** One record of get_flights. */
  datatype FlightRecord = FlightRecord(
    id: PyVal,
    icao24: PyVal,
    callsign: PyVal,
    originCountry: PyVal,
    longitude: PyVal,
    latitude: PyVal,
    baroAltitude: PyVal,
    onGround: PyVal,
    velocity: PyVal,
    trueTrack: PyVal,
    verticalRate: PyVal,
    geoAltitude: PyVal)

  /** The `bounds` argument: None without a bbox, the reordered box for a
      parseable one, and a ValueError (the outer None) for a malformed one. */
  function BoundsFor(bbox: Option<string>): (r: Option<Option<Bounds>>)
    ensures (bbox.None? || bbox.value == "") ==> r == Some(None)
    ensures bbox.Some? && bbox.value != "" ==>
      match OpenSkyService.ParseBbox(bbox.value)
      case None => r.None?
      case Some(p) => r == Some(Some(Bounds(p.lamax, p.lamin, p.lomin, p.lomax)))
  {
    if bbox.None? || bbox.value == "" then Some(None)
    else
      match OpenSkyService.ParseBbox(bbox.value)
      case None => None
      case Some(p) => Some(Some(Bounds(p.lamax, p.lamin, p.lomin, p.lomax)))
  }

  /** The record for an airborne flight, with "N/A" for a falsy callsign and
      "Unknown" for a falsy origin airport. */
  function RecordOf(f: LibraryFlight): (r: FlightRecord)
    ensures Truthy(r.callsign) && Truthy(r.originCountry)
    ensures Truthy(f.callsign) ==> r.callsign == f.callsign
    ensures !Truthy(f.callsign) ==> r.callsign == PStr("N/A")
    ensures Truthy(f.originAirportIata) ==> r.originCountry == f.originAirportIata
    ensures !Truthy(f.originAirportIata) ==> r.originCountry == PStr("Unknown")
    ensures r.baroAltitude == r.geoAltitude == f.altitude
    ensures r.velocity == f.groundSpeed && r.trueTrack == f.heading && r.verticalRate == f.verticalSpeed
    ensures r.id == f.id && r.icao24 == f.icao24bit && r.onGround == f.onGround
    ensures r.longitude == f.longitude && r.latitude == f.latitude
  {
    FlightRecord(f.id, f.icao24bit, OrElse(f.callsign, PStr("N/A")), OrElse(f.originAirportIata, PStr("Unknown")),
                 f.longitude, f.latitude, f.altitude, f.onGround, f.groundSpeed, f.heading,
                 f.verticalSpeed, f.altitude)
  }

  /** The records of the flights not on the ground, in order. */
  function Airborne(flights: seq<LibraryFlight>): seq<FlightRecord>
  {
    if flights == [] then []
    else
      var rest := Airborne(flights[..|flights| - 1]);
      var f := flights[|flights| - 1];
      if Truthy(f.onGround) then rest else rest + [RecordOf(f)]
  }

  /** Airborne keeps input order: it distributes over concatenation. */
  lemma {:induction false} AirborneAppend(a: seq<LibraryFlight>, b: seq<LibraryFlight>)
    ensures Airborne(a + b) == Airborne(a) + Airborne(b)
    decreases |b|
  {
    if b == [] {
      assert a + b == a;
    } else {
      assert (a + b)[..|a + b| - 1] == a + b[..|b| - 1];
      AirborneAppend(a, b[..|b| - 1]);
    }
  }

  /** Every record is of an airborne flight, a flight on the ground gives no
      record, every flight not on the ground gives its record, and there are
      no more records than flights. */
  lemma {:induction false} AirborneSpec(flights: seq<LibraryFlight>)
    ensures |Airborne(flights)| <= |flights|
    ensures forall i :: 0 <= i < |Airborne(flights)| ==> !Truthy(Airborne(flights)[i].onGround)
    ensures (forall i :: 0 <= i < |flights| ==> Truthy(flights[i].onGround)) ==> Airborne(flights) == []
    ensures forall i :: 0 <= i < |flights| && !Truthy(flights[i].onGround) ==> RecordOf(flights[i]) in Airborne(flights)
  {
    if flights != [] {
      var pre := flights[..|flights| - 1];
      AirborneSpec(pre);
      forall i | 0 <= i < |flights| && !Truthy(flights[i].onGround)
        ensures RecordOf(flights[i]) in Airborne(flights)
      {
        if i < |pre| {
          assert flights[i] == pre[i];
        }
      }
    }
  }

  /** get_flights after the library call: every exception, the ValueError of
      a malformed bbox included, gives []. */
  function FlightsOf(bbox: Option<string>, fetch: Option<Bounds> -> LibraryResult<seq<LibraryFlight>>): (r: seq<FlightRecord>)
    ensures BoundsFor(bbox).None? ==> r == []
    ensures BoundsFor(bbox).Some? && fetch(BoundsFor(bbox).value).LibraryFailed? ==> r == []
    ensures BoundsFor(bbox).Some? && fetch(BoundsFor(bbox).value).Returned? ==>
      var flights := fetch(BoundsFor(bbox).value).result;
      r == Airborne(flights) && |r| <= |flights| &&
      forall i :: 0 <= i < |r| ==> !Truthy(r[i].onGround)
  {
    match BoundsFor(bbox)
    case None => []
    case Some(bounds) =>
      match fetch(bounds)
      case LibraryFailed => []
      case Returned(flights) => AirborneSpec(flights); Airborne(flights)
  }

  /** get_flights(bbox) with the library call made by `fetch`. */
  method GetFlights(bbox: Option<string>, fetch: Option<Bounds> -> LibraryResult<seq<LibraryFlight>>)
    returns (flightData: seq<FlightRecord>)
    ensures flightData == FlightsOf(bbox, fetch)
  {
    var bounds := BoundsFor(bbox);
    if bounds.None? {
      return [];
    }
    var response := fetch(bounds.value);
    if response.LibraryFailed? {
      return [];
    }
    var flights := response.result;
    flightData := [];
    var i := 0;
    while i < |flights|
      invariant 0 <= i <= |flights|
      invariant flightData == Airborne(flights[..i])
    {
      assert flights[..i + 1][..i] == flights[..i];
      var f := flights[i];
      if !Truthy(f.onGround) {
        flightData := flightData + [RecordOf(f)];
      }
      i := i + 1;
    }
    assert flights[..i] == flights;
  }

  /** "min_lat,min_lon,max_lat,max_lon" reaches the library as north = max_lat,
      south = min_lat, west = min_lon, east = max_lon. */
  lemma BoundsReordered(a: string, b: string, c: string, d: string)
    requires ',' !in a && ',' !in b && ',' !in c && ',' !in d
    requires ParseFloat(a).Some? && ParseFloat(b).Some? && ParseFloat(c).Some? && ParseFloat(d).Some?
    ensures BoundsFor(Some(Join([a, b, c, d], ','))) ==
      Some(Some(Bounds(ParseFloat(c).value, ParseFloat(a).value, ParseFloat(b).value, ParseFloat(d).value)))
  {
    OpenSkyService.BboxFieldOrder(a, b, c, d);
    OpenSkyService.SplitOfFour(a, b, c, d);
  }

  /** Unlike the OpenSky service, a malformed bbox gives no flights at all,
      whatever the unfiltered feed holds. */
  lemma MalformedBboxGivesNothing(b: string, fetch: Option<Bounds> -> LibraryResult<seq<LibraryFlight>>)
    requires b != "" && OpenSkyService.ParseBbox(b).None?
    ensures FlightsOf(Some(b), fetch) == []
    ensures OpenSkyService.QueryFor(Some(b)) == OpenSkyService.NoParams
  {
  }

  /** get_flight_details: the library's result when truthy, otherwise None;
      None when the library raises. */
  function FlightDetailsOf(result: LibraryResult<PyVal>): (r: Option<PyVal>)
    ensures r.Some? <==> result.Returned? && Truthy(result.result)
    ensures r.Some? ==> r.value == result.result
  {
    match result
    case LibraryFailed => None
    case Returned(v) => if Truthy(v) then Some(v) else None
  }
}
