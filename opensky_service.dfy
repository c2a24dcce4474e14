/** OpenSkyService of backend/app/services/opensky_service.py: the bounding
    box becomes query parameters, the positional state rows of the feed become
    records, and the first row of a single-aircraft query becomes a detail
    record.  The HTTP request is a function parameter. */
module OpenSkyService {
  import opened Options
  import opened Text
  import opened PyValues

  /** The query parameters of the states request. */
  datatype QueryParams =
    | NoParams
    | BoxParams(lamin: real, lomin: real, lamax: real, lomax: real)
    | IcaoParam(icao24: string)

  /** The JSON document of a successful response: an object (with or without
      a "states" member), or any other JSON value. */
  datatype FeedBody = JsonObject(states: Option<PyVal>) | JsonOther(value: PyVal)

  /** How the request ended: a requests.RequestException (connection error,
      HTTP error status, undecodable body), or a decoded document. */
  datatype FeedResponse = RequestFailed | Received(body: FeedBody)

  /** One row of the states list as a record. */
  datatype StateRecord = StateRecord(
    icao24: PyVal,
    callsign: string,
    originCountry: PyVal,
    longitude: PyVal,
    latitude: PyVal,
    baroAltitude: PyVal,
    onGround: PyVal,
    velocity: PyVal,
    trueTrack: PyVal,
    verticalRate: PyVal,
    geoAltitude: PyVal)

  /** The first row of a single-aircraft query; it has no vertical rate. */
  datatype DetailRecord = DetailRecord(
    icao24: PyVal,
    callsign: string,
    originCountry: PyVal,
    longitude: PyVal,
    latitude: PyVal,
    baroAltitude: PyVal,
    onGround: PyVal,
    velocity: PyVal,
    trueTrack: PyVal,
    geoAltitude: PyVal)

  // ---------------------------------------------------------------------------
  // The bounding box

  /** `lamin, lomin, lamax, lomax = map(float, bbox.split(','))`; None is the
      ValueError of a wrong count or a part float() rejects. */
  function ParseBbox(b: string): (r: Option<QueryParams>)
    ensures var parts := Split(b, ',');
      r.Some? <==> |parts| == 4 && ParseFloat(parts[0]).Some? && ParseFloat(parts[1]).Some? &&
                   ParseFloat(parts[2]).Some? && ParseFloat(parts[3]).Some?
    ensures r.Some? ==> var parts := Split(b, ',');
      r.value == BoxParams(ParseFloat(parts[0]).value, ParseFloat(parts[1]).value,
                           ParseFloat(parts[2]).value, ParseFloat(parts[3]).value)
  {
    var parts := Split(b, ',');
    if |parts| == 4 && ParseFloat(parts[0]).Some? && ParseFloat(parts[1]).Some? &&
       ParseFloat(parts[2]).Some? && ParseFloat(parts[3]).Some? then
      Some(BoxParams(ParseFloat(parts[0]).value, ParseFloat(parts[1]).value,
                     ParseFloat(parts[2]).value, ParseFloat(parts[3]).value))
    else None
  }

  /** The parameters of get_all_states: a box for a parseable bbox, nothing for
      a missing, empty or malformed one (the error is printed and ignored). */
  function QueryFor(bbox: Option<string>): (p: QueryParams)
    ensures p.NoParams? || p.BoxParams?
    ensures p.BoxParams? <==> bbox.Some? && bbox.value != "" && ParseBbox(bbox.value).Some?
    ensures p.BoxParams? ==> Some(p) == ParseBbox(bbox.value)
  {
    if bbox.Some? && bbox.value != "" then
      match ParseBbox(bbox.value)
      case Some(p) => p
      case None => NoParams
    else NoParams
  }

  /** Four comma-separated numbers give lamin, lomin, lamax and lomax in that
      order. */
  lemma BboxFieldOrder(a: string, b: string, c: string, d: string)
    requires ',' !in a && ',' !in b && ',' !in c && ',' !in d
    requires ParseFloat(a).Some? && ParseFloat(b).Some? && ParseFloat(c).Some? && ParseFloat(d).Some?
    ensures QueryFor(Some(Join([a, b, c, d], ','))) ==
      BoxParams(ParseFloat(a).value, ParseFloat(b).value, ParseFloat(c).value, ParseFloat(d).value)
  {
    var text := Join([a, b, c, d], ',');
    SplitOfFour(a, b, c, d);
    assert ParseBbox(text) == Some(BoxParams(ParseFloat(a).value, ParseFloat(b).value,
                                             ParseFloat(c).value, ParseFloat(d).value));
  }

  lemma SplitOfFour(a: string, b: string, c: string, d: string)
    requires ',' !in a && ',' !in b && ',' !in c && ',' !in d
    ensures Split(Join([a, b, c, d], ','), ',') == [a, b, c, d]
    ensures Join([a, b, c, d], ',') != ""
  {
    var parts := [a, b, c, d];
    SplitJoin(parts, ',');
    assert |Split("", ',')| == 1;
  }

  /** A bbox with other than four parts is ignored, not rejected. */
  lemma WrongPartCountIgnored(b: string)
    requires |Split(b, ',')| != 4
    ensures QueryFor(Some(b)) == NoParams
  {
  }

  // ---------------------------------------------------------------------------
  // State rows

  /** The loop body for one row `s`: skipped (Ok(None)) when s[5] or s[6] is
      falsy, otherwise the record, evaluated column by column in the order
      the source writes them; a failing subscript or strip raises. */
  function MapRow(s: PyVal): Outcome<Option<StateRecord>>
  {
    var lon :- Index(s, 5);
    if !Truthy(lon) then Ok(None)
    else
      var lat :- Index(s, 6);
      if !Truthy(lat) then Ok(None)
      else
        var icao :- Index(s, 0);
        var rawCallsign :- Index(s, 1);
        var callsign :- StripOf(rawCallsign);
        var country :- Index(s, 2);
        var baro :- Index(s, 7);
        var ground :- Index(s, 8);
        var velocity :- Index(s, 9);
        var track :- Index(s, 10);
        var rate :- Index(s, 11);
        var geo :- Index(s, 13);
        Ok(Some(StateRecord(icao, callsign, country, lon, lat, baro, ground, velocity, track, rate, geo)))
  }

  /** The row is skipped exactly when s[5] or s[6] is falsy (a subscript that
      fails first raises instead); a kept row's record takes its columns from
      s[0], strip(s[1]), s[2], s[5], s[6], s[7], s[8], s[9], s[10], s[11] and
      s[13], and carries no squawk. */
  lemma MapRowSpec(s: PyVal)
    ensures var r := MapRow(s);
      r == Ok(None) <==>
      Index(s, 5).Ok? && (!Truthy(Index(s, 5).value) || (Index(s, 6).Ok? && !Truthy(Index(s, 6).value)))
    ensures var r := MapRow(s);
      r.Ok? && r.value.Some? ==> var rec := r.value.value;
      Index(s, 0) == Ok(rec.icao24) && Index(s, 1).Ok? && StripOf(Index(s, 1).value) == Ok(rec.callsign) &&
      Index(s, 2) == Ok(rec.originCountry) && Index(s, 5) == Ok(rec.longitude) &&
      Index(s, 6) == Ok(rec.latitude) && Index(s, 7) == Ok(rec.baroAltitude) &&
      Index(s, 8) == Ok(rec.onGround) && Index(s, 9) == Ok(rec.velocity) &&
      Index(s, 10) == Ok(rec.trueTrack) && Index(s, 11) == Ok(rec.verticalRate) &&
      Index(s, 13) == Ok(rec.geoAltitude) &&
      Truthy(rec.longitude) && Truthy(rec.latitude)
  {
    var r := MapRow(s);
    var lon := Index(s, 5);
    if lon.Ok? && Truthy(lon.value) {
      var lat := Index(s, 6);
      if lat.Ok? && Truthy(lat.value) {
        if Index(s, 13).Ok? && StripOf(Index(s, 1).value).Ok? {
          assert r == Ok(Some(StateRecord(Index(s, 0).value, StripOf(Index(s, 1).value).value,
            Index(s, 2).value, lon.value, lat.value, Index(s, 7).value, Index(s, 8).value,
            Index(s, 9).value, Index(s, 10).value, Index(s, 11).value, Index(s, 13).value)));
        } else {
          assert r.Raised?;
        }
      }
    }
  }

  /** A row as the OpenSky API documents it (at least 14 columns, a string
      callsign) never raises. */
  lemma WellFormedRowMaps(columns: seq<PyVal>)
    requires |columns| >= 14 && columns[1].PStr?
    ensures MapRow(PList(columns)).Ok?
  {
  }

  /** The records so far, extended by the outcome of one more row. */
  function Extend(acc: seq<StateRecord>, row: Outcome<Option<StateRecord>>): Outcome<seq<StateRecord>>
  {
    match row
    case Raised(e) => Raised(e)
    case Ok(None) => Ok(acc)
    case Ok(Some(x)) => Ok(acc + [x])
  }

  /** The `for s in states` loop: the records of the kept rows, in order; the
      first row that raises ends the loop with its exception. */
  function MapRows(rows: seq<PyVal>): Outcome<seq<StateRecord>>
  {
    if rows == [] then Ok([])
    else
      match MapRows(rows[..|rows| - 1])
      case Raised(e) => Raised(e)
      case Ok(acc) => Extend(acc, MapRow(rows[|rows| - 1]))
  }

  /** One more turn of the loop: the next row extends the records so far. */
  lemma MapRowsStep(rows: seq<PyVal>, i: nat)
    requires i < |rows| && MapRows(rows[..i]).Ok?
    ensures MapRows(rows[..i + 1]) == Extend(MapRows(rows[..i]).value, MapRow(rows[i]))
  {
    assert rows[..i + 1][..i] == rows[..i];
    assert rows[..i + 1][i] == rows[i];
  }

  /** `x ++ y` lifted to outcomes, the exception of the left one first. */
  function Concat(x: Outcome<seq<StateRecord>>, y: Outcome<seq<StateRecord>>): Outcome<seq<StateRecord>>
  {
    match x
    case Raised(e) => Raised(e)
    case Ok(u) => match y case Raised(e) => Raised(e) case Ok(v) => Ok(u + v)
  }

  /** Rows are processed in order: mapping a concatenation maps the first part
      and then the second, and an exception in the first part wins. */
  lemma {:induction false} MapRowsAppend(a: seq<PyVal>, b: seq<PyVal>)
    ensures MapRows(a + b) == Concat(MapRows(a), MapRows(b))
    decreases |b|
  {
    if b == [] {
      assert a + b == a;
      if MapRows(a).Ok? {
        assert MapRows(a).value + [] == MapRows(a).value;
      }
    } else {
      var pre := b[..|b| - 1];
      var last := b[|b| - 1];
      assert (a + b)[..|a + b| - 1] == a + pre;
      assert (a + b)[|a + b| - 1] == last;
      MapRowsAppend(a, pre);
      match MapRows(a)
      case Raised(_) =>
      case Ok(x) =>
        match MapRows(pre)
        case Raised(_) =>
        case Ok(y) =>
          match MapRow(last)
          case Raised(_) =>
          case Ok(None) =>
          case Ok(Some(z)) =>
            assert x + (y + [z]) == (x + y) + [z];
    }
  }

  /** A record with a truthy longitude and latitude. */
  predicate HasPosition(rec: StateRecord)
  {
    Truthy(rec.longitude) && Truthy(rec.latitude)
  }

  /** One step of the loop keeps every record positioned and adds at most one. */
  lemma ExtendKeepsPositioned(acc: seq<StateRecord>, row: Outcome<Option<StateRecord>>)
    requires forall i :: 0 <= i < |acc| ==> HasPosition(acc[i])
    requires row.Ok? && row.value.Some? ==> HasPosition(row.value.value)
    requires Extend(acc, row).Ok?
    ensures |Extend(acc, row).value| <= |acc| + 1
    ensures forall i :: 0 <= i < |Extend(acc, row).value| ==> HasPosition(Extend(acc, row).value[i])
  {
    if row.value.Some? {
      var out := Extend(acc, row).value;
      forall i | 0 <= i < |out| ensures HasPosition(out[i]) {
        if i < |acc| {
          assert out[i] == acc[i];
        }
      }
    }
  }

  /** The records are at most as many as the rows, and each has a truthy
      longitude and latitude. */
  lemma {:induction false} MapRowsKeepsPositioned(rows: seq<PyVal>)
    requires MapRows(rows).Ok?
    ensures |MapRows(rows).value| <= |rows|
    ensures forall i :: 0 <= i < |MapRows(rows).value| ==> HasPosition(MapRows(rows).value[i])
  {
    if rows != [] {
      var pre := rows[..|rows| - 1];
      assert MapRows(pre).Ok?;
      MapRowsKeepsPositioned(pre);
      var row := MapRow(rows[|rows| - 1]);
      MapRowSpec(rows[|rows| - 1]);
      ExtendKeepsPositioned(MapRows(pre).value, row);
    }
  }

  /** A row without a position contributes nothing, wherever it stands. */
  lemma RowWithoutPositionSkipped(a: seq<PyVal>, s: PyVal, b: seq<PyVal>)
    requires Index(s, 5).Ok? && !Truthy(Index(s, 5).value)
    ensures MapRows(a + [s] + b) == MapRows(a + b)
  {
    MapRowsAppend(a + [s], b);
    MapRowsAppend(a, [s]);
    MapRowsAppend(a, b);
    assert [s][..0] == [];
    assert MapRows([s]) == Ok([]);
    if MapRows(a).Ok? {
      assert MapRows(a).value + [] == MapRows(a).value;
    }
  }

  /** get_all_states after the request: a failed request gives [], a document
      that is not an object raises AttributeError at `.get`, missing or falsy
      states give [], and otherwise the rows are mapped. */
  function AllStates(response: FeedResponse): (r: Outcome<seq<StateRecord>>)
    ensures response.RequestFailed? ==> r == Ok([])
    ensures response.Received? && response.body.JsonOther? ==> r == Raised(AttributeError)
    ensures response.Received? && response.body.JsonObject? && !Truthy(response.body.states.GetOr(PNone)) ==>
      r == Ok([])
    ensures response.Received? && response.body.JsonObject? && Truthy(response.body.states.GetOr(PNone)) ==>
      var rows := Iterate(response.body.states.value);
      (rows.Raised? ==> r == Raised(rows.exc)) &&
      (rows.Ok? ==> r == MapRows(rows.value)) &&
      (rows.Ok? && r.Ok? ==> |r.value| <= |rows.value| && forall i :: 0 <= i < |r.value| ==> HasPosition(r.value[i]))
  {
    match response
    case RequestFailed => Ok([])
    case Received(JsonOther(_)) => Raised(AttributeError)
    case Received(JsonObject(st)) =>
      var states := st.GetOr(PList([]));
      if !Truthy(states) then Ok([])
      else
        var rows :- Iterate(states);
        var mapped := MapRows(rows);
        if mapped.Ok? then MapRowsKeepsPositioned(rows); mapped else mapped
  }

  lemma {:induction false} MapRowsRaisedStays(rows: seq<PyVal>, i: nat)
    requires i <= |rows| && MapRows(rows[..i]).Raised?
    ensures MapRows(rows) == MapRows(rows[..i])
  {
    assert rows == rows[..i] + rows[i..];
    MapRowsAppend(rows[..i], rows[i..]);
  }

  /** get_all_states(bbox) with the request made by `fetch`.  The request is
      made whatever the bbox is; only its parameters depend on it. */
  method GetAllStates(bbox: Option<string>, fetch: QueryParams -> FeedResponse)
    returns (r: Outcome<seq<StateRecord>>)
    ensures r == AllStates(fetch(QueryFor(bbox)))
  {
    var params := QueryFor(bbox);
    var response := fetch(params);
    if response.RequestFailed? {
      return Ok([]);
    }
    if response.body.JsonOther? {
      return Raised(AttributeError);
    }
    var states := response.body.states.GetOr(PList([]));
    if !Truthy(states) {
      return Ok([]);
    }
    var iterated := Iterate(states);
    if iterated.Raised? {
      return Raised(iterated.exc);
    }
    var rows := iterated.value;
    var flights: seq<StateRecord> := [];
    var i := 0;
    while i < |rows|
      invariant 0 <= i <= |rows|
      invariant MapRows(rows[..i]) == Ok(flights)
    {
      var row := MapRow(rows[i]);
      MapRowsStep(rows, i);
      if row.Raised? {
        MapRowsRaisedStays(rows, i + 1);
        return Raised(row.exc);
      }
      if row.value.Some? {
        flights := flights + [row.value.value];
      }
      i := i + 1;
    }
    assert rows[..i] == rows;
    return Ok(flights);
  }

  // ---------------------------------------------------------------------------
  // Details of one aircraft

  /** The record built from the first row; any failure is an exception. */
  function MapFirstRow(s: PyVal): (r: Outcome<DetailRecord>)
    ensures r.Ok? ==> var d := r.value;
      Index(s, 0) == Ok(d.icao24) && Index(s, 1).Ok? && StripOf(Index(s, 1).value) == Ok(d.callsign) &&
      Index(s, 2) == Ok(d.originCountry) && Index(s, 5) == Ok(d.longitude) &&
      Index(s, 6) == Ok(d.latitude) && Index(s, 7) == Ok(d.baroAltitude) &&
      Index(s, 8) == Ok(d.onGround) && Index(s, 9) == Ok(d.velocity) &&
      Index(s, 10) == Ok(d.trueTrack) && Index(s, 13) == Ok(d.geoAltitude)
    ensures s.PList? && |s.items| >= 14 && s.items[1].PStr? ==> r.Ok?
  {
    var icao :- Index(s, 0);
    var rawCallsign :- Index(s, 1);
    var callsign :- StripOf(rawCallsign);
    var country :- Index(s, 2);
    var lon :- Index(s, 5);
    var lat :- Index(s, 6);
    var baro :- Index(s, 7);
    var ground :- Index(s, 8);
    var velocity :- Index(s, 9);
    var track :- Index(s, 10);
    var geo :- Index(s, 13);
    Ok(DetailRecord(icao, callsign, country, lon, lat, baro, ground, velocity, track, geo))
  }

  /** get_flight_details after the request: the first row's record; None for
      no rows, and None for every exception, which is caught. */
  function FlightDetails(response: FeedResponse): (r: Option<DetailRecord>)
    ensures response.RequestFailed? ==> r.None?
    ensures r.Some? ==>
      && response.Received? && response.body.JsonObject?
      && response.body.states.Some? && Truthy(response.body.states.value)
      && Index(response.body.states.value, 0).Ok?
      && MapFirstRow(Index(response.body.states.value, 0).value) == Ok(r.value)
    ensures (response.Received? && response.body.JsonObject? && response.body.states.Some? &&
             Truthy(response.body.states.value) && Index(response.body.states.value, 0).Ok? &&
             MapFirstRow(Index(response.body.states.value, 0).value).Ok?) ==>
      r == Some(MapFirstRow(Index(response.body.states.value, 0).value).value)
  {
    match response
    case RequestFailed => None
    case Received(JsonOther(_)) => None
    case Received(JsonObject(st)) =>
      var states := st.GetOr(PList([]));
      if !Truthy(states) then None
      else match Index(states, 0)
        case Raised(_) => None
        case Ok(first) =>
          match MapFirstRow(first)
          case Raised(_) => None
          case Ok(d) => Some(d)
  }

  /** Only the first row matters, and it is mapped even without a position. */
  lemma FirstRowOnly(s: PyVal, rest: seq<PyVal>)
    ensures FlightDetails(Received(JsonObject(Some(PList([s] + rest))))) ==
            FlightDetails(Received(JsonObject(Some(PList([s])))))
  {
    assert Index(PList([s] + rest), 0) == Ok(s) == Index(PList([s]), 0);
  }

  /** get_flight_details(icao24): the states request filtered by icao24. */
  function GetFlightDetails(icao24: string, fetch: QueryParams -> FeedResponse): (r: Option<DetailRecord>)
    ensures r == FlightDetails(fetch(IcaoParam(icao24)))
  {
    FlightDetails(fetch(IcaoParam(icao24)))
  }
}
