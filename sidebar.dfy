/** The detail panel of frontend/src/components/Sidebar.tsx: its unit
    formatters, telemetry and badge choices, and the state the selection
    effect resets and then fills in as the detail and weather lookups
    complete. */
module Sidebar {
  import opened Options
  import opened Text
  import opened FlightData

  // ---------------------------------------------------------------------------
  // Unit formatting

  /** Math.round: the nearest integer, halves rounded up. */
  function Round(x: real): (r: int)
    ensures x - 0.5 < r as real <= x + 0.5
  {
    (x + 0.5).Floor
  }

  lemma RoundMonotone(x: real, y: real)
    requires x <= y
    ensures Round(x) <= Round(y)
  {
  }

  const FeetPerMetre := 3.28084
  const KmhPerMetrePerSecond := 3.6
  const KnotsPerMetrePerSecond := 1.94384
  const FeetPerMinutePerMetrePerSecond := 196.85

  /** The number formatAlt shows for `v` metres. */
  function AltValue(v: real, metric: bool): (n: int)
    ensures var exact := if metric then v else v * FeetPerMetre;
      exact - 0.5 < n as real <= exact + 0.5
  {
    if metric then Round(v) else Round(v * FeetPerMetre)
  }

  /** The number formatSpeed shows for `v` metres per second. */
  function SpeedValue(v: real, metric: bool): (n: int)
    ensures var exact := if metric then v * KmhPerMetrePerSecond else v * KnotsPerMetrePerSecond;
      exact - 0.5 < n as real <= exact + 0.5
  {
    if metric then Round(v * KmhPerMetrePerSecond) else Round(v * KnotsPerMetrePerSecond)
  }

  /** The number formatVert shows for `v` metres per second. */
  function VertValue(v: real, metric: bool): (n: int)
    ensures var exact := if metric then v else v * FeetPerMinutePerMetrePerSecond;
      exact - 0.5 < n as real <= exact + 0.5
  {
    if metric then Round(v) else Round(v * FeetPerMinutePerMetrePerSecond)
  }

  function AltUnit(metric: bool): string { if metric then " m" else " ft" }
  function SpeedUnit(metric: bool): string { if metric then " km/h" else " kts" }
  function VertUnit(metric: bool): string { if metric then " m/s" else " fpm" }

  /** formatAlt, formatSpeed and formatVert: the rounded number, then the unit. */
  function FormatAlt(v: real, metric: bool): string { IntToText(AltValue(v, metric)) + AltUnit(metric) }
  function FormatSpeed(v: real, metric: bool): string { IntToText(SpeedValue(v, metric)) + SpeedUnit(metric) }
  function FormatVert(v: real, metric: bool): string { IntToText(VertValue(v, metric)) + VertUnit(metric) }

  /** Every formatter is monotone: a larger reading never shows a smaller number. */
  lemma FormattersMonotone(v: real, w: real, metric: bool)
    requires v <= w
    ensures AltValue(v, metric) <= AltValue(w, metric)
    ensures SpeedValue(v, metric) <= SpeedValue(w, metric)
    ensures VertValue(v, metric) <= VertValue(w, metric)
  {
    RoundMonotone(v, w);
    RoundMonotone(v * FeetPerMetre, w * FeetPerMetre);
    RoundMonotone(v * KmhPerMetrePerSecond, w * KmhPerMetrePerSecond);
    RoundMonotone(v * KnotsPerMetrePerSecond, w * KnotsPerMetrePerSecond);
    RoundMonotone(v * FeetPerMinutePerMetrePerSecond, w * FeetPerMinutePerMetrePerSecond);
  }

  /** formatAlt's text starts with exactly the rounded number, so parseInt
      reads it back, and ends with " m" or " ft". */
  lemma AltReadsBack(v: real, metric: bool)
    ensures ParseInt(FormatAlt(v, metric)) == Some(AltValue(v, metric))
    ensures EndsWith(FormatAlt(v, metric), if metric then " m" else " ft")
  {
    ParseIntOfText(AltValue(v, metric), AltUnit(metric));
    EndsWithAppended(IntToText(AltValue(v, metric)), AltUnit(metric));
  }

  /** The same for formatSpeed, whose unit is " km/h" or " kts". */
  lemma SpeedReadsBack(v: real, metric: bool)
    ensures ParseInt(FormatSpeed(v, metric)) == Some(SpeedValue(v, metric))
    ensures EndsWith(FormatSpeed(v, metric), if metric then " km/h" else " kts")
  {
    ParseIntOfText(SpeedValue(v, metric), SpeedUnit(metric));
    EndsWithAppended(IntToText(SpeedValue(v, metric)), SpeedUnit(metric));
  }

  /** The same for formatVert, whose unit is " m/s" or " fpm". */
  lemma VertReadsBack(v: real, metric: bool)
    ensures ParseInt(FormatVert(v, metric)) == Some(VertValue(v, metric))
    ensures EndsWith(FormatVert(v, metric), if metric then " m/s" else " fpm")
  {
    ParseIntOfText(VertValue(v, metric), VertUnit(metric));
    EndsWithAppended(IntToText(VertValue(v, metric)), VertUnit(metric));
  }

  /** The shown text starts with exactly the rounded number, so reading it
      back with parseInt gives that number, and it ends with the unit of the
      chosen system. */
  lemma FormattedTextReadsBack(v: real, metric: bool)
    ensures ParseInt(FormatAlt(v, metric)) == Some(AltValue(v, metric))
    ensures ParseInt(FormatSpeed(v, metric)) == Some(SpeedValue(v, metric))
    ensures ParseInt(FormatVert(v, metric)) == Some(VertValue(v, metric))
    ensures EndsWith(FormatAlt(v, metric), if metric then " m" else " ft")
    ensures EndsWith(FormatSpeed(v, metric), if metric then " km/h" else " kts")
    ensures EndsWith(FormatVert(v, metric), if metric then " m/s" else " fpm")
  {
    AltReadsBack(v, metric);
    SpeedReadsBack(v, metric);
    VertReadsBack(v, metric);
  }

  // ---------------------------------------------------------------------------
  // Telemetry, header and badge

  datatype Arrow = NoArrow | ArrowUp | ArrowDown

  /** The vertical-rate arrow: `vertical_rate && vertical_rate > 0` shows the
      up arrow, `vertical_rate && vertical_rate < 0` the down arrow. */
  function RateArrow(rate: Option<real>): (a: Arrow)
    ensures a == ArrowUp <==> rate.Some? && rate.value > 0.0
    ensures a == ArrowDown <==> rate.Some? && rate.value < 0.0
    ensures a == NoArrow <==> rate.None? || rate.value == 0.0
  {
    if TruthyNum(rate) && rate.value > 0.0 then ArrowUp
    else if TruthyNum(rate) && rate.value < 0.0 then ArrowDown
    else NoArrow
  }

  /** The four telemetry tiles. */
  datatype Telemetry = Telemetry(altitude: string, speed: string, verticalRate: string,
                                 arrow: Arrow, heading: int)

  /** What the telemetry grid shows for `f`. */
  function TelemetryOf(f: Flight, metric: bool): Telemetry
  {
    var alt := NumOr(f.geoAltitude, NumOr(f.baroAltitude, 0.0));
    Telemetry(FormatAlt(alt, metric), FormatSpeed(NumOr(f.velocity, 0.0), metric),
              FormatVert(NumOr(f.verticalRate, 0.0), metric),
              RateArrow(f.verticalRate), Round(NumOr(f.trueTrack, 0.0)))
  }

  /** The tiles read back as the formatted readings, missing or zero readings
      shown as 0, and the heading is the track rounded. */
  lemma TelemetryOfSpec(f: Flight, metric: bool)
    ensures var t := TelemetryOf(f, metric);
      ParseInt(t.altitude) == Some(AltValue(NumOr(f.geoAltitude, NumOr(f.baroAltitude, 0.0)), metric)) &&
      ParseInt(t.speed) == Some(SpeedValue(NumOr(f.velocity, 0.0), metric)) &&
      ParseInt(t.verticalRate) == Some(VertValue(NumOr(f.verticalRate, 0.0), metric)) &&
      (!TruthyNum(f.verticalRate) ==> t.verticalRate == "0" + VertUnit(metric) && t.arrow == NoArrow) &&
      (var track := NumOr(f.trueTrack, 0.0); track - 0.5 < t.heading as real <= track + 0.5)
  {
    var t := TelemetryOf(f, metric);
    var rate := NumOr(f.verticalRate, 0.0);
    AltReadsBack(NumOr(f.geoAltitude, NumOr(f.baroAltitude, 0.0)), metric);
    SpeedReadsBack(NumOr(f.velocity, 0.0), metric);
    VertReadsBack(rate, metric);
    if !TruthyNum(f.verticalRate) {
      assert rate == 0.0 && VertValue(rate, metric) == 0;
    }
  }

  /** `flight.callsign || 'N/A'`: never empty, and the callsign whenever it
      is non-empty. */
  function CallsignLabel(f: Flight): (shown: string)
    ensures shown != ""
    ensures TruthyText(f.callsign) ==> shown == f.callsign.value
    ensures !TruthyText(f.callsign) ==> shown == "N/A"
  {
    TextOr(f.callsign, "N/A")
  }

  /** `flight.icao24.toUpperCase()`. */
  function IcaoLabel(f: Flight): (shown: string)
    ensures |shown| == |f.icao24|
    ensures forall i :: 0 <= i < |shown| ==> !IsLowerLetter(shown[i])
    ensures ToLower(shown) == ToLower(f.icao24)
  {
    UpperHasNoLower(f.icao24);
    LowerOfUpper(f.icao24);
    ToUpper(f.icao24)
  }

  datatype Colour = Green | Red | Grey

  /** The status badge's background. */
  function BadgeColour(status: string): (c: Colour)
    ensures c == Green <==> status == "On Time"
    ensures c == Red <==> status == "Delayed"
    ensures c == Grey <==> status != "On Time" && status != "Delayed"
  {
    if status == "On Time" then Green else if status == "Delayed" then Red else Grey
  }

  /** The progress bar's colour: red for a delayed flight, green otherwise. */
  function ProgressColour(status: string): (c: Colour)
    ensures c == Red <==> status == "Delayed"
    ensures c != Grey
  {
    if status == "Delayed" then Red else Green
  }

  /** `delay_minutes > 0 && `+${delay_minutes}m``: shown only for a positive
      delay, and then it reads back as the delay. */
  function DelaySuffix(delayMinutes: int): (s: string)
    ensures s != "" <==> delayMinutes > 0
    ensures delayMinutes > 0 ==> s[0] == '+' && ParseInt(s[1..]) == Some(delayMinutes) && s[|s| - 1] == 'm'
  {
    if delayMinutes > 0 then
      var s := "+" + IntToText(delayMinutes) + "m";
      assert s[1..] == IntToText(delayMinutes) + "m";
      ParseIntOfText(delayMinutes, "m");
      s
    else ""
  }

  // ---------------------------------------------------------------------------
  // The selection effect

  /** Weather with the city it belongs to: `{ ...w, city }`. */
  datatype CityWeather = CityWeather(weather: WeatherData, city: string)

  /** How a weather lookup ended: resolved (with a result, or with null), or
      rejected. */
  datatype Lookup = Resolved(result: Option<WeatherData>) | Rejected

  /** The fetch the effect issues: fetchFlightDetails(icao24, callsign || ""). */
  datatype DetailRequest = DetailRequest(icao24: string, callsign: string)

  /** Where an enrichment chain goes after a step. */
  datatype Next = Finished | LookUpOrigin(schedule: Schedule) | LookUpDestination(schedule: Schedule)

  /** The step after the origin lookup (or after skipping it). */
  function AfterOrigin(s: Schedule): (n: Next)
    ensures n.Finished? <==> s.destination.coords.None?
  {
    if s.destination.coords.Some? then LookUpDestination(s) else Finished
  }

  /** The step after the detail record arrived. */
  function AfterDetail(d: FlightDetail): (n: Next)
    ensures n.LookUpOrigin? <==> d.schedule.Some? && d.schedule.value.origin.coords.Some?
    ensures n.LookUpDestination? <==>
      d.schedule.Some? && d.schedule.value.origin.coords.None? && d.schedule.value.destination.coords.Some?
  {
    if d.schedule.None? then Finished
    else if d.schedule.value.origin.coords.Some? then LookUpOrigin(d.schedule.value)
    else AfterOrigin(d.schedule.value)
  }

  class SidebarPanel {
    var flight: Option<Flight>
    var details: Option<FlightDetail>
    var originWeather: Option<CityWeather>
    var destWeather: Option<CityWeather>
    var loading: bool
    var menuOpen: bool

    constructor ()
      ensures flight == None && details == None && originWeather == None && destWeather == None
      ensures !loading && !menuOpen
    {
      flight := None;
      details := None;
      originWeather := None;
      destWeather := None;
      loading := false;
      menuOpen := false;
    }

    /** The effect on a change of the selected flight: the per-flight state is
        reset and the menu closes; a detail fetch is issued, and loading
        starts, only when a flight is selected. */
    method SelectionChanged(f: Option<Flight>) returns (request: Option<DetailRequest>)
      modifies this
      ensures flight == f
      ensures details == None && originWeather == None && destWeather == None && !menuOpen
      ensures f.Some? ==> loading && request == Some(DetailRequest(f.value.icao24, TextOr(f.value.callsign, "")))
      ensures f.None? ==> loading == old(loading) && request == None
    {
      flight := f;
      details := None;
      originWeather := None;
      destWeather := None;
      menuOpen := false;
      request := None;
      if f.Some? {
        loading := true;
        request := Some(DetailRequest(f.value.icao24, TextOr(f.value.callsign, "")));
      }
    }

    /** A detail fetch settled (None: it was rejected).  The record is stored
        whatever flight is selected now; there is no check that it belongs
        to it. */
    method DetailSettled(result: Option<FlightDetail>) returns (next: Next)
      modifies this
      ensures result.Some? ==> details == result && next == AfterDetail(result.value)
      ensures result.None? ==> details == old(details) && next == Finished
      ensures loading == (if next.Finished? then false else old(loading))
      ensures flight == old(flight) && originWeather == old(originWeather) && destWeather == old(destWeather)
      ensures menuOpen == old(menuOpen)
    {
      next := Finished;
      if result.Some? {
        details := result;
        next := AfterDetail(result.value);
      }
      if next.Finished? {
        loading := false;
      }
    }

    /** The origin lookup of `schedule` settled.  A non-null result is stored
        with the origin city; a rejection ends the chain, so the destination
        is not looked up. */
    method OriginSettled(schedule: Schedule, lookup: Lookup) returns (next: Next)
      modifies this
      ensures lookup == Resolved(None) ==> originWeather == old(originWeather)
      ensures lookup.Resolved? && lookup.result.Some? ==>
        originWeather == Some(CityWeather(lookup.result.value, schedule.origin.city))
      ensures lookup.Rejected? ==> originWeather == old(originWeather) && next == Finished
      ensures lookup.Resolved? ==> next == AfterOrigin(schedule)
      ensures loading == (if next.Finished? then false else old(loading))
      ensures flight == old(flight) && details == old(details) && destWeather == old(destWeather)
      ensures menuOpen == old(menuOpen)
    {
      if lookup.Rejected? {
        next := Finished;
      } else {
        if lookup.result.Some? {
          originWeather := Some(CityWeather(lookup.result.value, schedule.origin.city));
        }
        next := AfterOrigin(schedule);
      }
      if next.Finished? {
        loading := false;
      }
    }

    /** The destination lookup of `schedule` settled; the chain ends either way. */
    method DestinationSettled(schedule: Schedule, lookup: Lookup)
      modifies this
      ensures lookup.Resolved? && lookup.result.Some? ==>
        destWeather == Some(CityWeather(lookup.result.value, schedule.destination.city))
      ensures !(lookup.Resolved? && lookup.result.Some?) ==> destWeather == old(destWeather)
      ensures !loading
      ensures flight == old(flight) && details == old(details) && originWeather == old(originWeather)
      ensures menuOpen == old(menuOpen)
    {
      if lookup.Resolved? && lookup.result.Some? {
        destWeather := Some(CityWeather(lookup.result.value, schedule.destination.city));
      }
      loading := false;
    }

    /** One selection whose responses arrive before any other selection: the
        effect, then the `.then` chain with the given outcomes, then
        `.finally`. */
    method Select(f: Flight, detail: Option<FlightDetail>, origin: Lookup, destination: Lookup)
      modifies this
      ensures flight == Some(f) && !loading && !menuOpen
      ensures details == detail
      ensures originWeather.Some? <==>
        detail.Some? && detail.value.schedule.Some? && detail.value.schedule.value.origin.coords.Some? &&
        origin.Resolved? && origin.result.Some?
      ensures originWeather.Some? ==>
        originWeather.value == CityWeather(origin.result.value, detail.value.schedule.value.origin.city)
      ensures destWeather.Some? <==>
        detail.Some? && detail.value.schedule.Some? && detail.value.schedule.value.destination.coords.Some? &&
        (detail.value.schedule.value.origin.coords.Some? ==> origin.Resolved?) &&
        destination.Resolved? && destination.result.Some?
      ensures destWeather.Some? ==>
        destWeather.value == CityWeather(destination.result.value, detail.value.schedule.value.destination.city)
    {
      var request := SelectionChanged(Some(f));
      var next := DetailSettled(detail);
      if next.LookUpOrigin? {
        next := OriginSettled(next.schedule, origin);
      }
      if next.LookUpDestination? {
        DestinationSettled(next.schedule, destination);
      }
    }
  }

  /** Nothing ties a response to the selection it was made for: select A,
      then B, and A's late detail record is what the panel shows for B. */
  method StaleDetailShown(a: Flight, b: Flight, detailOfA: FlightDetail) returns (panel: SidebarPanel)
    requires a.icao24 != b.icao24 && detailOfA.icao24 == a.icao24
    ensures panel.flight == Some(b)
    ensures panel.details.Some? && panel.details.value.icao24 != b.icao24
  {
    panel := new SidebarPanel();
    var requestA := panel.SelectionChanged(Some(a));
    var requestB := panel.SelectionChanged(Some(b));
    var next := panel.DetailSettled(Some(detailOfA));
  }
}
