/** Properties that span the backend and the frontend: a generated schedule
    as the sidebar shows it, the telemetry against the filter and the
    marker, the airline input against the filter, and the load-then-filter
    path of the map on a small batch. */
module EndToEnd {
  import opened Options
  import opened Text
  import opened FlightData
  import opened Controls
  import opened FlightIcon
  import opened FlightMapIngest
  import opened FlightMapFilter
  import opened FlightMap
  import opened Sidebar
  import FlightsEndpoint

  // ---------------------------------------------------------------------------
  // A generated schedule in the sidebar

  /** An endpoint airport as the frontend receives it: coords always present. */
  function AirportRefOf(a: FlightsEndpoint.Airport): (r: AirportRef)
    ensures r.code == a.code && r.city == a.city && r.coords == Some(a.coords)
  {
    AirportRef(a.code, a.city, Some(a.coords))
  }

  /** The schedule of a detail response as the frontend receives it; the two
      ISO time strings are given, since their text form is not modelled. */
  function ScheduleOf(s: FlightsEndpoint.MockSchedule, departure: string, arrival: string): (r: Schedule)
    ensures r.origin == AirportRefOf(s.origin) && r.destination == AirportRefOf(s.destination)
    ensures r.status == s.status && r.delayMinutes == s.delayMinutes && r.progressPercent == s.progressPercent
    ensures r.scheduledDeparture == departure && r.scheduledArrival == arrival
  {
    Schedule(AirportRefOf(s.origin), AirportRefOf(s.destination), departure, arrival,
             s.status, s.delayMinutes, s.progressPercent)
  }

  /** What the sidebar makes of any schedule with the generator's guarantees:
      a status among the four, a delay exactly when delayed, and a progress
      below 100. */
  lemma ScheduleInSidebar(m: FlightsEndpoint.MockSchedule, icao24: string, callsign: string,
                          departure: string, arrival: string)
    requires m.status in FlightsEndpoint.StatusOptions
    requires m.status != "Delayed" ==> m.delayMinutes == 0
    requires m.status == "Delayed" ==> 15 <= m.delayMinutes
    requires 0 <= m.progressPercent <= 99
    ensures var s := ScheduleOf(m, departure, arrival);
      && (DelaySuffix(s.delayMinutes) != "" <==> s.status == "Delayed")
      && (BadgeColour(s.status) == Red <==> ProgressColour(s.status) == Red)
      && (BadgeColour(s.status) == Grey <==> s.status == "Landed" || s.status == "Diverted")
      && 0 <= s.progressPercent < 100
      && AfterDetail(FlightDetail(icao24, Some(callsign), None, Some(s))) == LookUpOrigin(s)
  {
    StatusColours(m.status);
  }

  /** For every schedule the endpoint generates: the delay suffix appears
      exactly for a delayed flight, the badge is red exactly when the progress
      bar is, grey exactly for a landed or diverted flight, the progress bar's
      width is a percentage below 100, and the detail record leads to an
      origin weather lookup. */
  lemma {:induction false} GeneratedScheduleInSidebar(icao24: string, callsign: string,
                                                      rng: string -> FlightsEndpoint.Draws, nowMicros: int,
                                                      departure: string, arrival: string)
    ensures var s := ScheduleOf(FlightsEndpoint.GenerateMockSchedule(icao24, callsign, rng, nowMicros), departure, arrival);
      && (DelaySuffix(s.delayMinutes) != "" <==> s.status == "Delayed")
      && (BadgeColour(s.status) == Red <==> ProgressColour(s.status) == Red)
      && (BadgeColour(s.status) == Grey <==> s.status == "Landed" || s.status == "Diverted")
      && 0 <= s.progressPercent < 100
      && AfterDetail(FlightDetail(icao24, Some(callsign), None, Some(s))) == LookUpOrigin(s)
  {
    var m := FlightsEndpoint.GenerateMockSchedule(icao24, callsign, rng, nowMicros);
    ScheduleInSidebar(m, icao24, callsign, departure, arrival);
  }

  /** The badge and progress colours of the four generated statuses. */
  lemma StatusColours(status: string)
    requires status in FlightsEndpoint.StatusOptions
    ensures BadgeColour(status) == Red <==> ProgressColour(status) == Red
    ensures BadgeColour(status) == Grey <==> status == "Landed" || status == "Diverted"
  {
    FlightsEndpoint.StatusOptionsDistinct();
  }

  // ---------------------------------------------------------------------------
  // The telemetry against the filter and the marker

  /** The altitude tile reads back as the altitude the filter compares, and
      the heading tile is the marker's rotation rounded to a whole degree. */
  lemma TelemetryAgreesWithMap(f: Flight, metric: bool, selected: Option<Flight>)
    requires TruthyNum(f.latitude) && TruthyNum(f.longitude)
    ensures ParseInt(TelemetryOf(f, metric).altitude) == Some(AltValue(FilterAltitude(f), metric))
    ensures var rotation := MarkerOf(f, selected).icon.rotation;
      rotation - 0.5 < TelemetryOf(f, metric).heading as real <= rotation + 0.5
  {
    TelemetryOfSpec(f, metric);
  }

  /** A list with no squawk codes (as the state vectors give) draws no
      emergency marker: no marker is red and none pulses. */
  lemma {:induction false} NoSquawkNoEmergencyMarker(flights: seq<Flight>, selected: Option<Flight>)
    requires forall i :: 0 <= i < |flights| ==> flights[i].squawk.None?
    ensures var ms := Markers(flights, selected);
      forall i :: 0 <= i < |ms| ==> ms[i].icon.fill != EmergencyFill && ms[i].icon.animationClass == ""
  {
    var p := Positioned(flights);
    forall i | 0 <= i < |p| ensures p[i].squawk.None? {
      var j :| 0 <= j < |flights| && flights[j] == p[i];
    }
  }

  // ---------------------------------------------------------------------------
  // The airline input against the filter

  /** Typing an airline code in any letter case selects the same flights as
      the text typed: the stored upper-case copy filters like the original. */
  lemma {:induction false} AirlineInputFiltersAsTyped(flights: seq<Flight>, settings: AppSettings, value: string)
    ensures FilterFlights(flights, OnAirlineChange(settings, value).filters)
            == FilterFlights(flights, Filters(settings.filters.minAltitude, value))
    decreases |flights|
  {
    if flights != [] {
      AirlineCaseInsensitive(flights[0], value);
      AirlineInputFiltersAsTyped(flights[1..], settings, value);
    }
  }

  // ---------------------------------------------------------------------------
  // Load then filter, on two records of one aircraft

  const First := Flight("abc123", Some("RYR123 "), "Italy", Some(9.0), Some(45.0), Some(2900.0), false,
                        Some(230.0), Some(90.0), Some(0.0), Some(3000.0), None)
  const Second := Flight("abc123", Some("RYR123 "), "Italy", Some(9.1), Some(45.1), Some(3400.0), false,
                         Some(231.0), Some(91.0), Some(5.0), Some(3500.0), None)

  /** Of two records for one aircraft, deduplication keeps the later. */
  lemma {:induction false} SecondRecordKept()
    ensures Deduplicated([First, Second]) == [Second]
  {
    var data := [First, Second];
    var out := Deduplicated(data);
    assert Eligible(First) && Eligible(Second);
    assert SlotOrder([First]) == ["abc123"] by {
      assert [First][..0] == [];
    }
    assert SlotOrder(data) == ["abc123"] by {
      assert data[..1] == [First];
    }
    assert LastIndexOf(data, "abc123") == 1 by {
      assert EntryFor(data[1], "abc123");
    }
    assert |out| == 1 && out[0].icao24 == "abc123" by {
      assert KeysOf(out) == ["abc123"];
    }
    assert out[0] == Second;
  }

  /** The kept record against the altitude and airline filters. */
  lemma {:induction false} SecondRecordFiltered()
    ensures FilterFlights([Second], Filters(4000, "")) == []
    ensures FilterFlights([Second], Filters(0, "")) == [Second]
    ensures FilterFlights([Second], Filters(0, "ryr")) == [Second]
  {
    assert ToLower("RYR123 ") == "ryr123 ";
    assert OccursAt("ryr123 ", "ryr", 0);
    ContainsIffOccurs("ryr123 ", "ryr");
    assert ToLower("ryr") == "ryr";
  }

  /** Two records of one aircraft leave its later record; a 4000 minimum
      hides it and no minimum keeps it; the airline filter in lower case
      matches its callsign. */
  lemma {:induction false} LaterRecordWins()
    ensures Deduplicated([First, Second]) == [Second]
    ensures FilterFlights([Second], Filters(4000, "")) == []
    ensures FilterFlights([Second], Filters(0, "")) == [Second]
    ensures FilterFlights([Second], Filters(0, "ryr")) == [Second]
  {
    SecondRecordKept();
    SecondRecordFiltered();
  }
}
