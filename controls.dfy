/** The settings value of frontend/src/components/Controls.tsx and the two
    ways the control panel derives a new one from it. */
module Controls {
  import opened Options
  import opened Text

  datatype MapStyle = Dark | Light | SatelliteStyle

  datatype Filters = Filters(minAltitude: int, airline: string)

  /** AppSettings as declared: map style, weather toggle, unit system, filters. */
  datatype AppSettings = AppSettings(
    mapStyle: MapStyle,
    showWeather: bool,
    useMetric: bool,
    filters: Filters)

  /** A top-level key of AppSettings with the value given to `update`. */
  datatype SettingsChange =
    | MapStyleTo(style: MapStyle)
    | ShowWeatherTo(showWeather: bool)
    | UseMetricTo(useMetric: bool)
    | FiltersTo(filters: Filters)

  /** A key of AppSettings['filters'] with the value given to `updateFilter`. */
  datatype FilterChange =
    | MinAltitudeTo(minAltitude: int)
    | AirlineTo(airline: string)

  /** The settings App.tsx starts with. */
  const InitialSettings := AppSettings(Dark, false, false, Filters(0, ""))

  /** update(key, value): `{ ...settings, [key]: value }` — the named field
      takes the value and every other field keeps its old one. */
  function Update(settings: AppSettings, change: SettingsChange): (r: AppSettings)
    ensures r.mapStyle == (if change.MapStyleTo? then change.style else settings.mapStyle)
    ensures r.showWeather == (if change.ShowWeatherTo? then change.showWeather else settings.showWeather)
    ensures r.useMetric == (if change.UseMetricTo? then change.useMetric else settings.useMetric)
    ensures r.filters == (if change.FiltersTo? then change.filters else settings.filters)
  {
    match change
    case MapStyleTo(v) => settings.(mapStyle := v)
    case ShowWeatherTo(v) => settings.(showWeather := v)
    case UseMetricTo(v) => settings.(useMetric := v)
    case FiltersTo(v) => settings.(filters := v)
  }

  /** updateFilter(key, value): only `filters[key]` changes; the other filter
      and every top-level field keep their values. */
  function UpdateFilter(settings: AppSettings, change: FilterChange): (r: AppSettings)
    ensures r.mapStyle == settings.mapStyle
    ensures r.showWeather == settings.showWeather
    ensures r.useMetric == settings.useMetric
    ensures r.filters.minAltitude == (if change.MinAltitudeTo? then change.minAltitude else settings.filters.minAltitude)
    ensures r.filters.airline == (if change.AirlineTo? then change.airline else settings.filters.airline)
  {
    match change
    case MinAltitudeTo(v) => settings.(filters := settings.filters.(minAltitude := v))
    case AirlineTo(v) => settings.(filters := settings.filters.(airline := v))
  }

  /** Applying the same change twice is applying it once. */
  lemma {:induction false} UpdatesIdempotent(settings: AppSettings, change: SettingsChange, filterChange: FilterChange)
    ensures Update(Update(settings, change), change) == Update(settings, change)
    ensures UpdateFilter(UpdateFilter(settings, filterChange), filterChange) == UpdateFilter(settings, filterChange)
  {
    match change
    case MapStyleTo(_) =>
    case ShowWeatherTo(_) =>
    case UseMetricTo(_) =>
    case FiltersTo(_) =>
  }

  // ---------------------------------------------------------------------------
  // The altitude slider: <input type="range" min="0" max="12000" step="500">

  const SliderMin := 0
  const SliderMax := 12000
  const SliderStep := 500

  /** The browser's value sanitization of a range input at raw position `x`:
      clamp into [min, max], then take the nearest multiple of the step
      (ties go up).  The browser, not the program, does this; it is the input
      that the slider's onChange sees. */
  function SnapToStep(x: real): (v: int)
    ensures SliderMin <= v <= SliderMax && v % SliderStep == 0
    ensures var c := if x < 0.0 then 0.0 else if x > 12000.0 then 12000.0 else x;
            c - 250.0 < v as real <= c + 250.0
  {
    var c := if x < 0.0 then 0.0 else if x > 12000.0 then 12000.0 else x;
    var k := (c / 500.0 + 0.5).Floor;
    assert 0 <= k <= 24;
    500 * k
  }

  /** The slider's onChange: `updateFilter('minAltitude', parseInt(value))`
      with `value` the text of the sanitized position. */
  function OnSliderChange(settings: AppSettings, x: real): (r: AppSettings)
    ensures r.filters.minAltitude == SnapToStep(x)
    ensures SliderMin <= r.filters.minAltitude <= SliderMax && r.filters.minAltitude % SliderStep == 0
    ensures r == settings.(filters := settings.filters.(minAltitude := r.filters.minAltitude))
  {
    var text := IntToText(SnapToStep(x));
    ParseIntOfText(SnapToStep(x), "");
    assert text + "" == text;
    UpdateFilter(settings, MinAltitudeTo(ParseInt(text).value))
  }

  /** The airline input's onChange: `updateFilter('airline', value.toUpperCase())`. */
  function OnAirlineChange(settings: AppSettings, value: string): (r: AppSettings)
    ensures r.filters.airline == ToUpper(value)
    ensures forall i :: 0 <= i < |r.filters.airline| ==> !IsLowerLetter(r.filters.airline[i])
    ensures r == settings.(filters := settings.filters.(airline := r.filters.airline))
  {
    UpperHasNoLower(value);
    UpdateFilter(settings, AirlineTo(ToUpper(value)))
  }

  /** Typing the stored (already upper-case) text again stores the same text. */
  lemma AirlineChangeIdempotent(settings: AppSettings, value: string)
    ensures OnAirlineChange(OnAirlineChange(settings, value), OnAirlineChange(settings, value).filters.airline)
            == OnAirlineChange(settings, value)
  {
    UpperIdempotent(value);
  }
}
