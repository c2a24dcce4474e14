/** The filter effect of frontend/src/components/FlightMap.tsx: the flight list
    is narrowed by the altitude and airline criteria of the settings. */
module FlightMapFilter {
  import opened Options
  import opened Text
  import opened FlightData
  import opened Controls

  /** `f.geo_altitude || f.baro_altitude || 0`. */
  function FilterAltitude(f: Flight): real
  {
    NumOr(f.geoAltitude, NumOr(f.baroAltitude, 0.0))
  }

  /** The altitude test, skipped entirely when the minimum is not positive. */
  predicate AltitudeOk(f: Flight, minAltitude: int)
  {
    minAltitude > 0 ==> FilterAltitude(f) >= minAltitude as real
  }

  /** The airline test: an empty airline passes everything, otherwise a
      non-empty callsign must contain it, both lower-cased. */
  predicate AirlineOk(f: Flight, airline: string)
  {
    airline != "" ==> TruthyText(f.callsign) && Contains(ToLower(f.callsign.value), ToLower(airline))
  }

  /** The filter callback: both tests, combined with AND. */
  predicate Passes(f: Flight, filters: Filters)
  {
    AltitudeOk(f, filters.minAltitude) && AirlineOk(f, filters.airline)
  }

  /** `a` is `b` with some elements removed, the rest in their order. */
  predicate IsSubsequence(a: seq<Flight>, b: seq<Flight>)
    decreases |b|
  {
    if a == [] then true
    else if b == [] then false
    else (a[0] == b[0] && IsSubsequence(a[1..], b[1..])) || IsSubsequence(a, b[1..])
  }

  lemma {:induction false} SubsequenceLength(a: seq<Flight>, b: seq<Flight>)
    requires IsSubsequence(a, b)
    ensures |a| <= |b|
    decreases |b|
  {
    if a != [] {
      if a[0] == b[0] && IsSubsequence(a[1..], b[1..]) {
        SubsequenceLength(a[1..], b[1..]);
      } else {
        SubsequenceLength(a, b[1..]);
      }
    }
  }

  /** `flights.filter(f => ...)`. */
  function FilterFlights(flights: seq<Flight>, filters: Filters): (r: seq<Flight>)
    ensures IsSubsequence(r, flights)
    ensures forall i :: 0 <= i < |r| ==> Passes(r[i], filters)
    ensures forall i :: 0 <= i < |flights| && Passes(flights[i], filters) ==> flights[i] in r
    decreases |flights|
  {
    if flights == [] then []
    else
      var rest := FilterFlights(flights[1..], filters);
      if Passes(flights[0], filters) then
        assert ([flights[0]] + rest)[1..] == rest;
        [flights[0]] + rest
      else
        assert forall i :: 1 <= i < |flights| ==> flights[i] == flights[1..][i - 1];
        rest
  }

  /** Filtering a concatenation filters each part. */
  lemma {:induction false} FilterAppend(a: seq<Flight>, b: seq<Flight>, filters: Filters)
    ensures FilterFlights(a + b, filters) == FilterFlights(a, filters) + FilterFlights(b, filters)
    decreases |a|
  {
    if a != [] {
      assert (a + b)[1..] == a[1..] + b;
      FilterAppend(a[1..], b, filters);
    } else {
      assert a + b == b;
    }
  }

  /** A list whose every record passes is left as it is. */
  lemma {:induction false} FilterKeepsPassing(flights: seq<Flight>, filters: Filters)
    requires forall i :: 0 <= i < |flights| ==> Passes(flights[i], filters)
    ensures FilterFlights(flights, filters) == flights
    decreases |flights|
  {
    if flights != [] {
      FilterKeepsPassing(flights[1..], filters);
    }
  }

  /** Refiltering with the same criteria changes nothing. */
  lemma FilterIdempotent(flights: seq<Flight>, filters: Filters)
    ensures FilterFlights(FilterFlights(flights, filters), filters) == FilterFlights(flights, filters)
  {
    FilterKeepsPassing(FilterFlights(flights, filters), filters);
  }

  /** The filtered count never exceeds the total. */
  lemma FilterLength(flights: seq<Flight>, filters: Filters)
    ensures |FilterFlights(flights, filters)| <= |flights|
  {
    SubsequenceLength(FilterFlights(flights, filters), flights);
  }

  /** Default settings (minimum 0, no airline) show every flight. */
  lemma {:induction false} NeutralFiltersKeepAll(flights: seq<Flight>, minAltitude: int)
    requires minAltitude <= 0
    ensures FilterFlights(flights, Filters(minAltitude, "")) == flights
  {
    FilterKeepsPassing(flights, Filters(minAltitude, ""));
  }

  /** The falsy fallback: a zero geometric altitude is not used, and the
      barometric one is; with both falsy the altitude is 0, which fails every
      positive minimum. */
  lemma AltitudeFallback(f: Flight, minAltitude: int)
    ensures !TruthyNum(f.geoAltitude) && TruthyNum(f.baroAltitude) ==> FilterAltitude(f) == f.baroAltitude.value
    ensures !TruthyNum(f.geoAltitude) && !TruthyNum(f.baroAltitude) && minAltitude > 0 ==> !AltitudeOk(f, minAltitude)
  {
  }

  /** The airline text is compared without regard to letter case, so storing
      it upper-cased does not change which flights pass. */
  lemma AirlineCaseInsensitive(f: Flight, airline: string)
    ensures AirlineOk(f, ToUpper(airline)) == AirlineOk(f, airline)
  {
    LowerOfUpper(airline);
    assert |ToUpper(airline)| == |airline|;
  }
}
