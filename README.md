# Flight-Radar: a verified model of the feed-to-map data path

This project models the core of Flight-Radar, a live flight-tracking web
application, in Dafny. A FastAPI backend fetches the OpenSky Network's
state vectors (or, in a second service, the FlightRadar24 feed). It turns
the positional rows into records and serves them with a generated mock
schedule for each aircraft. A React frontend does the rest:

- it deduplicates and filters the records and draws them as rotated
  aircraft markers;
- it animates a RainViewer weather overlay;
- it shows a selected aircraft's telemetry, schedule and airport weather
  in a sidebar.

The model follows the program's own structure, one module per part:

| module | models |
|---|---|
| `OpenSkyService` | `get_all_states`: bbox parsing and state-row mapping; `get_flight_details`: first-row mapping (`backend/app/services/opensky_service.py`) |
| `FlightService` | bbox reordering, the on-ground skip, field defaults and the details policy (`backend/app/services/flight_service.py`) |
| `FlightsEndpoint` | `generate_mock_schedule` and the two responses (`backend/app/api/endpoints/flights.py`) |
| `FlightMapIngest` | the last-write-wins deduplication loop of `loadData` |
| `FlightMapFilter` | the filter effect |
| `FlightMapWeather` | the manifest, the frame cursor and the tile URLs |
| `FlightMap` | the component state as a class. `LoadData`, `RunFilterEffect`, `AcceptManifest` and `Tick` are its steps (`frontend/src/components/FlightMap.tsx`) |
| `Sidebar` | the unit formatters, the telemetry tiles, the badge, and the selection/enrichment effect as the class `SidebarPanel` (`frontend/src/components/Sidebar.tsx`) |
| `Controls` | the settings updates and the input normalisation (`frontend/src/components/Controls.tsx`) |
| `FlightIcon` | the marker style (`frontend/src/components/FlightIcon.ts`) |

Supporting modules:

- `Options`: an option type.
- `FlightData`: the frontend's record types and JavaScript truthiness.
- `PyValues`: Python values, exceptions and an outcome type that propagates exceptions with `:-`.
- `Text`: the string and number-text functions the two runtimes provide, that is `toLowerCase`, `includes`, `parseInt`, `str.strip`, `str.split` and `float`.
- `EndToEnd`: properties that span backend and frontend.

Where the modelled code needs the outside world, that input is a parameter:

- the HTTP fetches, as functions from request parameters to a response;
- the FlightRadar24 library, as a function from bounds to a result;
- `random`, as the drawn values;
- the clock, as `now` in microseconds.

Each timer firing or settled promise is one method call on the component
classes.

Loops become methods, each proved against a specification function:

- the `forEach` into a `Map` (`FlightMapIngest.Deduplicate`);
- the two Python `for … append` loops (`OpenSkyService.GetAllStates`, `FlightService.GetFlights`).

Arithmetic:

- Numbers are reals.
- `Math.round(x)` is `⌊x + 0.5⌋`.
- Python's `random()` is `k / 2^53`.
- `timedelta * float` rounds half-to-even to the microsecond, as CPython does.

## Model

| member | source | states |
|---|---|---|
| FlightMapIngest.Deduplicate | frontend/src/components/FlightMap.tsx:45-51 | the `forEach` loop into the keyed Map followed by `Array.from(values())` computes exactly `Deduplicated(data)` |
| FlightMapIngest.Deduplicated | frontend/src/components/FlightMap.tsx:45-51 | the output's keys are the Map's slot order, and each output record is the batch's last eligible record with that key |
| FlightMapIngest.SlotOrderSpec | frontend/src/components/FlightMap.tsx:45-51 | a key has a slot iff some eligible record carries it, and slots are ordered by each key's first eligible occurrence (a Map keeps the slot on overwrite) |
| FlightMapIngest.TableSpec | frontend/src/components/FlightMap.tsx:45-51 | the Map holds a key iff some eligible record carries it, and its value is the last such record |
| FlightMapIngest.SlotsAreTableKeys | frontend/src/components/FlightMap.tsx:45-51 | a key has a slot in the Map exactly when the Map holds a record for it |
| FlightMapIngest.FirstLastAgree | frontend/src/components/FlightMap.tsx:45-51 | a key has a first eligible occurrence iff it has a last one, the first not after the last |
| FlightMapIngest.DeduplicatedSpec | frontend/src/components/FlightMap.tsx:45-51 | every kept record has a truthy icao24, latitude and longitude; keys are unique; each kept record is its key's last eligible occurrence; every eligible key is kept; order follows first occurrence |
| FlightMapIngest.DeduplicatedLength | frontend/src/components/FlightMap.tsx:45-51 | a load never shows more records than the batch held |
| FlightMapIngest.FirstIndexOf | frontend/src/components/FlightMap.tsx:47-48 | the index of the first eligible record for a key, or -1 when none exists, with no earlier eligible record for it |
| FlightMapIngest.LastIndexOf | frontend/src/components/FlightMap.tsx:47-48 | the index of the last eligible record for a key, or -1 when none exists, with no later eligible record for it |
| FlightMapFilter.FilterFlights | frontend/src/components/FlightMap.tsx:60-72 | the filtered list is an order-preserving subsequence of the list; every kept record passes the altitude and airline tests; every passing record is kept |
| FlightMapFilter.FilterIdempotent | frontend/src/components/FlightMap.tsx:61-70 | refiltering with the same filters changes nothing |
| FlightMapFilter.FilterLength | frontend/src/components/FlightMap.tsx:61-70 | the filtered count never exceeds the total |
| FlightMapFilter.FilterAppend | frontend/src/components/FlightMap.tsx:61-70 | filtering a concatenation filters each part |
| FlightMapFilter.FilterKeepsPassing | frontend/src/components/FlightMap.tsx:61-70 | a list whose records all pass is unchanged |
| FlightMapFilter.NeutralFiltersKeepAll | frontend/src/components/FlightMap.tsx:63-67 | a minimum of 0 or less and an empty airline keep every record |
| FlightMapFilter.AltitudeFallback | frontend/src/components/FlightMap.tsx:62-63 | a falsy geometric altitude falls back to the barometric one; with both falsy the altitude is 0, which fails every positive minimum |
| FlightMapFilter.AirlineCaseInsensitive | frontend/src/components/FlightMap.tsx:65-67 | the airline test ignores letter case, so the upper-cased stored text filters like the typed text |
| FlightMapFilter.SubsequenceLength | frontend/src/components/FlightMap.tsx:61-70 | a subsequence is no longer than its list |
| FlightMapWeather.FramesOf | frontend/src/components/FlightMap.tsx:94-97 | one frame per manifest entry, in order, whose URL is host followed by path (and splits back into them) with the entry's time |
| FlightMapWeather.ManifestFrames | frontend/src/components/FlightMap.tsx:88-97 | an acceptable manifest gives a non-empty frame list with non-empty URLs |
| FlightMapWeather.NextFrame | frontend/src/components/FlightMap.tsx:122 | the cursor step stays below the frame count, moves one frame on before the last frame and wraps to 0 after it |
| FlightMapWeather.AdvanceSplit | frontend/src/components/FlightMap.tsx:120-126 | a + b ticks are a ticks followed by b ticks |
| FlightMapWeather.AdvanceLinear | frontend/src/components/FlightMap.tsx:120-126 | before the end of the list, k ticks move the cursor k frames |
| FlightMapWeather.FullLoop | frontend/src/components/FlightMap.tsx:120-126 | from the newest frame one tick reaches the oldest, and n ticks bring any cursor back |
| FlightMapWeather.AdvancePeriodic | frontend/src/components/FlightMap.tsx:120-126 | the animation is periodic with the frame count as period |
| FlightMapWeather.OverlayUrl | frontend/src/components/FlightMap.tsx:163-173 | an overlay is drawn iff the layer is radar or satellite and the weather URL is truthy, and it is the URL followed by the radar or satellite tile path |
| FlightMapWeather.OverlayUrlRecoversFrame | frontend/src/components/FlightMap.tsx:165-173 | the overlay URL starts with the frame URL and is 26 characters longer, and the radar and satellite tiles of one frame differ |
| FlightMapWeather.BaseTileUrlInjective | frontend/src/components/FlightMap.tsx:132-139 | each map style has its own base tile URL |
| FlightMap.SubsequenceKeysUnique | frontend/src/components/FlightMap.tsx:61-71 | a filtered list's records come from the list, and it keeps the list's key uniqueness |
| FlightMap.MarkerOf | frontend/src/components/FlightMap.tsx:202-209 | the marker has the record's key and position; its fill is the emergency one iff the squawk is "7700"; its stroke width is 2 iff the icao24 is the selected one; its rotation is `true_track || 0` |
| FlightMap.Positioned | frontend/src/components/FlightMap.tsx:198-200 | the records drawn are exactly those with a truthy latitude and longitude, in list order |
| FlightMap.Markers | frontend/src/components/FlightMap.tsx:198-217 | one marker per positioned record, in order |
| FlightMap.MarkersSpec | frontend/src/components/FlightMap.tsx:198-217 | every positioned record gets a marker, no more markers than records, and unique keys give unique marker keys |
| FlightMap.AtMostOneSelected | frontend/src/components/FlightMap.tsx:202-209 | in a list with unique keys at most one marker is drawn as selected |
| FlightMap.AllMarked | frontend/src/components/FlightMap.tsx:198-200 | the marker loop's position check drops nothing from an ingested list |
| FlightMap.FlightMapView.constructor | frontend/src/components/FlightMap.tsx:32-35 | nothing loaded, loading, no frames, cursor 0, the loading overlay shown |
| FlightMap.FlightMapView.LoadData | frontend/src/components/FlightMap.tsx:38-57 | a resolved batch replaces the flight list by its deduplication (a failed fetch resolves to [] and so clears it); a non-array result, whose `forEach` throws, keeps the old list; loading ends either way and the loading overlay is gone; the state invariant is kept |
| FlightMap.FlightMapView.RunFilterEffect | frontend/src/components/FlightMap.tsx:60-72 | the filtered list becomes `FilterFlights(flights, filters)`, no longer than the list, with unique keys; nothing else changes |
| FlightMap.FlightMapView.AcceptManifest | frontend/src/components/FlightMap.tsx:88-103 | an acceptable manifest sets the frames, puts the cursor on the newest frame and publishes its URL; any other manifest or a failed fetch changes nothing |
| FlightMap.FlightMapView.Tick | frontend/src/components/FlightMap.tsx:116-129 | with frames loaded and a layer other than 'none' the cursor takes one step and that frame's URL is published; otherwise nothing changes |
| FlightMap.FlightMapView.Overlay | frontend/src/components/FlightMap.tsx:163-173 | an overlay exists iff the layer is radar or satellite and frames are loaded, and it extends the current frame's URL |
| FlightMap.FlightMapView.CurrentMarkers | frontend/src/components/FlightMap.tsx:198-217 | one marker per filtered record, and at most one of them selected |
| FlightIcon.CreateFlightIcon | frontend/src/components/FlightIcon.ts:3-28 | red fill iff emergency, whatever the selection; otherwise yellow iff selected; white stroke iff selected or emergency; stroke width 2 iff selected; pulse class iff emergency; rotation embedded unchanged; 30x30 icon with centre anchor and popup anchor above it |
| FlightIcon.FlagsRecoverable | frontend/src/components/FlightIcon.ts:6-17 | the selected and emergency flags can be read back from the icon: the style table is injective |
| FlightIcon.EmergencyDominatesFill | frontend/src/components/FlightIcon.ts:6 | with emergency set the fill does not depend on the selection, while the stroke width still does |
| Controls.Update | frontend/src/components/Controls.tsx:25-27 | the named top-level field takes the new value and every other field, filters included, keeps its value |
| Controls.UpdateFilter | frontend/src/components/Controls.tsx:29-31 | only the named filter changes; the other filter and all top-level fields keep their values |
| Controls.UpdatesIdempotent | frontend/src/components/Controls.tsx:25-31 | applying the same update twice is applying it once |
| Controls.SnapToStep | frontend/src/components/Controls.tsx:94-98 | the range input's value is an integer in [0, 12000], a multiple of 500, and within 250 of the clamped position |
| Controls.OnSliderChange | frontend/src/components/Controls.tsx:94-99 | the stored minimum is the slider's value read back by parseInt: in [0, 12000] and a multiple of 500; nothing else changes |
| Controls.OnAirlineChange | frontend/src/components/Controls.tsx:110 | the stored airline is the typed text upper-cased and has no lower-case letter; nothing else changes |
| Controls.AirlineChangeIdempotent | frontend/src/components/Controls.tsx:110 | typing the stored text again stores the same text |
| Sidebar.Round | frontend/src/components/Sidebar.tsx:27-29 | `Math.round` gives the integer within half of x, ties up |
| Sidebar.RoundMonotone | frontend/src/components/Sidebar.tsx:27-29 | rounding is monotone |
| Sidebar.AltValue | frontend/src/components/Sidebar.tsx:27 | metres rounded in metric, metres times 3.28084 rounded otherwise |
| Sidebar.SpeedValue | frontend/src/components/Sidebar.tsx:28 | m/s times 3.6 rounded in metric, times 1.94384 rounded otherwise |
| Sidebar.VertValue | frontend/src/components/Sidebar.tsx:29 | m/s rounded in metric, times 196.85 rounded otherwise |
| Sidebar.FormattersMonotone | frontend/src/components/Sidebar.tsx:27-29 | every formatter's number is non-decreasing in its input |
| Sidebar.FormattedTextReadsBack | frontend/src/components/Sidebar.tsx:27-29 | parseInt reads each formatted text back as the rounded value, and each text ends with its unit: " m"/" ft", " km/h"/" kts", " m/s"/" fpm" for metric/imperial |
| Sidebar.RateArrow | frontend/src/components/Sidebar.tsx:223-224 | the up arrow iff the vertical rate is strictly positive, the down arrow iff strictly negative, none for null or 0 |
| Sidebar.TelemetryOfSpec | frontend/src/components/Sidebar.tsx:205-232 | the tiles show `geo_altitude \|\| baro_altitude \|\| 0`, `velocity \|\| 0` and `vertical_rate \|\| 0` formatted, and the heading within half a degree of `true_track \|\| 0` |
| Sidebar.CallsignLabel | frontend/src/components/Sidebar.tsx:252 | never empty; the callsign when truthy, "N/A" otherwise |
| Sidebar.IcaoLabel | frontend/src/components/Sidebar.tsx:248 | the icao24 in upper case: same length, no lower-case letter, and the same text up to case |
| Sidebar.BadgeColour | frontend/src/components/Sidebar.tsx:153-156 | green iff "On Time", red iff "Delayed", grey for any other status |
| Sidebar.ProgressColour | frontend/src/components/Sidebar.tsx:178 | red iff "Delayed", green otherwise |
| Sidebar.DelaySuffix | frontend/src/components/Sidebar.tsx:157 | the `+Nm` suffix is shown iff the delay is positive, and then reads back as the delay |
| Sidebar.AfterDetail | frontend/src/components/Sidebar.tsx:43-48 | after the detail record the origin is looked up iff a schedule with origin coords exists; otherwise the destination is looked up iff it has coords |
| Sidebar.AfterOrigin | frontend/src/components/Sidebar.tsx:48 | after the origin step the chain ends iff the destination has no coords |
| Sidebar.SidebarPanel.constructor | frontend/src/components/Sidebar.tsx:18-24 | nothing selected or loaded, not loading, menu closed |
| Sidebar.SidebarPanel.SelectionChanged | frontend/src/components/Sidebar.tsx:31-38 | details and both weathers become null and the menu closes on every selection change; loading starts and a fetch for (icao24, `callsign \|\| ""`) is issued only when a flight is selected |
| Sidebar.SidebarPanel.DetailSettled | frontend/src/components/Sidebar.tsx:39-55 | a fetched record is stored whatever flight is selected now; a rejection keeps the state; loading ends when the chain ends |
| Sidebar.SidebarPanel.OriginSettled | frontend/src/components/Sidebar.tsx:44-55 | a non-null origin result is stored with the origin city; a null result keeps the old value; a rejection ends the chain before the destination |
| Sidebar.SidebarPanel.DestinationSettled | frontend/src/components/Sidebar.tsx:48-55 | a non-null destination result is stored with the destination city; loading ends |
| Sidebar.SidebarPanel.Select | frontend/src/components/Sidebar.tsx:31-57 | one selection run to completion: origin weather is set iff a schedule with origin coords exists and its lookup returns non-null; destination weather likewise, provided the origin lookup did not reject; loading ends |
| Sidebar.StaleDetailShown | frontend/src/components/Sidebar.tsx:38-40 | with no selection token, a late detail record for an earlier flight is shown for the current one |
| OpenSkyService.ParseBbox | backend/app/services/opensky_service.py:20-26 | parameters exist iff the bbox splits on commas into exactly four floats, and they are those floats in order |
| OpenSkyService.QueryFor | backend/app/services/opensky_service.py:17-28 | box parameters iff the bbox is truthy and parses; otherwise no parameters, with the request still made |
| OpenSkyService.BboxFieldOrder | backend/app/services/opensky_service.py:20-26 | "a,b,c,d" gives lamin = a, lomin = b, lamax = c, lomax = d |
| OpenSkyService.WrongPartCountIgnored | backend/app/services/opensky_service.py:20-28 | a bbox with other than four parts is ignored, not rejected |
| OpenSkyService.MapRowSpec | backend/app/services/opensky_service.py:45-60 | a row is skipped iff s[5] or s[6] is falsy; a kept row's record takes s[0], strip(s[1]), s[2], s[5], s[6], s[7], s[8], s[9], s[10], s[11] and s[13], and has no squawk |
| OpenSkyService.WellFormedRowMaps | backend/app/services/opensky_service.py:45-60 | a row with at least 14 columns and a string callsign never raises |
| OpenSkyService.MapRowsAppend | backend/app/services/opensky_service.py:42-61 | rows are processed in order: a concatenation maps to the first part's records then the second's, and the first exception wins |
| OpenSkyService.MapRowsKeepsPositioned | backend/app/services/opensky_service.py:42-61 | no more records than rows, each with a truthy longitude and latitude |
| OpenSkyService.RowWithoutPositionSkipped | backend/app/services/opensky_service.py:45-46 | a row without a longitude contributes nothing, wherever it stands |
| OpenSkyService.MapRowsRaisedStays | backend/app/services/opensky_service.py:42-61 | once a row raises, the later rows do not matter |
| OpenSkyService.AllStates | backend/app/services/opensky_service.py:30-69 | a failed request gives []; a non-object document raises; missing or falsy `states` give []; otherwise an uniterable `states` raises, and the rows are mapped in order (`MapRows`): a successful result holds only records with a position and no more records than rows |
| OpenSkyService.GetAllStates | backend/app/services/opensky_service.py:11-69 | the loop computes exactly `AllStates` of the response to the bbox's query |
| OpenSkyService.MapFirstRow | backend/app/services/opensky_service.py:122-134 | the detail record takes the same columns as a state record, without the vertical rate; a row of at least 14 columns with a string callsign always maps |
| OpenSkyService.FlightDetails | backend/app/services/opensky_service.py:115-138 | a first row of a truthy `states` that maps gives exactly its record; a record comes only from that row; None for a failed request, no rows or any exception |
| OpenSkyService.FirstRowOnly | backend/app/services/opensky_service.py:121-122 | rows after the first do not matter |
| OpenSkyService.GetFlightDetails | backend/app/services/opensky_service.py:108-118 | the states request is filtered by the icao24 |
| FlightService.BoundsFor | backend/app/services/flight_service.py:17-27 | a missing bbox gives no bounds; a parseable one gives north = max_lat, south = min_lat, west = min_lon, east = max_lon; a malformed one raises |
| FlightService.BoundsReordered | backend/app/services/flight_service.py:25-27 | "min_lat,min_lon,max_lat,max_lon" reaches the library reordered as north, south, west, east |
| FlightService.RecordOf | backend/app/services/flight_service.py:38-51 | callsign `or "N/A"`, origin_country `or "Unknown"`, both altitudes equal `altitude`, velocity is `ground_speed`, and the other fields are copied |
| FlightService.AirborneAppend | backend/app/services/flight_service.py:33-51 | the on-ground skip keeps input order |
| FlightService.AirborneSpec | backend/app/services/flight_service.py:33-51 | no record of an on-ground flight, every flight not on the ground gives its `RecordOf` record, and no more records than flights |
| FlightService.GetFlights | backend/app/services/flight_service.py:8-57 | the loop computes exactly `FlightsOf` of the bbox and the library's result |
| FlightService.FlightsOf | backend/app/services/flight_service.py:16-57 | a malformed bbox gives [] and a library exception gives []; otherwise the records are `Airborne` of the library's flights: none on the ground, no more than there were flights |
| FlightService.MalformedBboxGivesNothing | backend/app/services/flight_service.py:55-57 | a malformed bbox gives no flights here, while the OpenSky service ignores it and sends no parameters |
| FlightService.FlightDetailsOf | backend/app/services/flight_service.py:64-75 | the library's result iff it is truthy; None otherwise and on an exception |
| FlightsEndpoint.AirportCodesDistinct | backend/app/api/endpoints/flights.py:13-21 | the seven airport codes are distinct |
| FlightsEndpoint.WithoutCode | backend/app/api/endpoints/flights.py:29 | the comprehension keeps exactly the airports with another code, and only airports of the list |
| FlightsEndpoint.Destinations | backend/app/api/endpoints/flights.py:29 | six candidate destinations, none with the origin's code |
| FlightsEndpoint.SeedOf | backend/app/api/endpoints/flights.py:25 | the seed is the callsign when non-empty, else the icao24 |
| FlightsEndpoint.RoundHalfEvenSpec | backend/app/api/endpoints/flights.py:37 | n/d rounded to the nearest integer, and at a tie to the even neighbour |
| FlightsEndpoint.Elapsed | backend/app/api/endpoints/flights.py:36-37 | the elapsed time is the duration times k/2^53 to within half a microsecond, and never exceeds the duration |
| FlightsEndpoint.BisectRight | backend/app/api/endpoints/flights.py:45 | the index of the first cumulative weight above the draw, bounded by hi |
| FlightsEndpoint.ChooseStatus | backend/app/api/endpoints/flights.py:43-45 | the status is one of the four options |
| FlightsEndpoint.StatusThresholds | backend/app/api/endpoints/flights.py:43-45 | On Time iff u < 0.7, Delayed iff 0.7 <= u < 0.9, Landed iff 0.9 <= u < 0.95, Diverted iff u >= 0.95 |
| FlightsEndpoint.TimesOf | backend/app/api/endpoints/flights.py:33-40 | arrival minus departure is the duration, and departure <= now <= arrival |
| FlightsEndpoint.StatusAndDelay | backend/app/api/endpoints/flights.py:43-49 | a delay of 0 unless Delayed, then in [15, 180] |
| FlightsEndpoint.ProgressPercent | backend/app/api/endpoints/flights.py:58 | `int(p * 100)` is in [0, 99] and is the floor of 100p |
| FlightsEndpoint.GenerateMockSchedule | backend/app/api/endpoints/flights.py:23-59 | both airports in the list with different codes; duration in [45, 600] minutes equal to arrival minus departure; departure <= now <= arrival; status among the four; delay only when Delayed, then in [15, 180]; progress in [0, 99] |
| FlightsEndpoint.SameSeedSameSchedule | backend/app/api/endpoints/flights.py:25-26 | requests with the same seed get the same schedule |
| FlightsEndpoint.ArrivalCanBeNow | backend/app/api/endpoints/flights.py:34-40 | with the largest progress draw the arrival equals now |
| FlightsEndpoint.GetFlightsResponse | backend/app/api/endpoints/flights.py:61-68 | `count` equals the number of flights, which are get_all_states' result; its exceptions propagate |
| FlightsEndpoint.GetFlightDetailsResponse | backend/app/api/endpoints/flights.py:70-84 | icao24 echoed, the callsign exactly `Strip` of the one received (no surrounding whitespace, see `Text.StripKeepsInfix`), the image passed through, the schedule seeded by the callsign as received, an empty trail |
| EndToEnd.GeneratedScheduleInSidebar | frontend/src/components/Sidebar.tsx:153-179 | for every generated schedule the delay suffix appears iff Delayed, the badge is red iff the progress bar is, it is grey iff Landed or Diverted, the width is below 100%, and an origin lookup follows |
| EndToEnd.StatusColours | frontend/src/components/Sidebar.tsx:153-178 | over the four generated statuses badge and progress colours agree on red, and grey means Landed or Diverted |
| EndToEnd.TelemetryAgreesWithMap | frontend/src/components/Sidebar.tsx:205-232 | the altitude tile reads back as the altitude the map's filter compares, and the heading is the marker's rotation rounded |
| EndToEnd.NoSquawkNoEmergencyMarker | frontend/src/components/FlightMap.tsx:203-209 | records without a squawk (all OpenSky records) never draw a red or pulsing marker |
| EndToEnd.AirlineInputFiltersAsTyped | frontend/src/components/Controls.tsx:110 | filtering with the stored upper-case airline selects the same flights as the text typed |
| EndToEnd.LaterRecordWins | frontend/src/components/FlightMap.tsx:45-72 | a worked example, not a general property (that is `FlightMapIngest.DeduplicatedSpec` with `FlightMapFilter.FilterFlights`): two given records of one aircraft leave the later one; a 4000 minimum hides it, no minimum keeps it, and a lower-case airline matches its callsign |
| Text.SplitJoin | backend/app/services/opensky_service.py:20 | splitting joined parts that hold no separator gives back the parts |
| Text.Strip | backend/app/services/opensky_service.py:50 | no leading or trailing whitespace remains |
| Text.StripKeepsInfix | backend/app/services/opensky_service.py:50 | what strip() keeps stands contiguously in the text, with only whitespace cut away on either side |
| Text.StripIdempotent | backend/app/api/endpoints/flights.py:80 | stripping twice is stripping once |
| Text.ParseIntOfText | frontend/src/components/Controls.tsx:99 | parseInt reads an integer's text back, whatever non-digit text follows |
| Text.ContainsIffOccurs | frontend/src/components/FlightMap.tsx:66 | `includes` holds iff the text occurs at some index |
| Text.LowerOfUpper | frontend/src/components/Controls.tsx:110 | lower-casing an upper-cased text equals lower-casing the text |
| Text.UpperIdempotent | frontend/src/components/Controls.tsx:110 | upper-casing is idempotent |
| Text.ParseFloatOfNatText | backend/app/services/opensky_service.py:20 | float() reads a natural number's text back as that number |
| Text.ParseFloatOfMinusDigits | backend/app/services/opensky_service.py:20 | float() reads a minus sign followed by digits as the negated number the digits write |

## Left out

- Timers and polling lifetimes are not modelled as schedules. This covers the 10-second poll, the 2-second animation interval and their clean-up. Each firing is one call of `LoadData` or `Tick`. Overlapping async completions are modelled only as the late detail record of `StaleDetailShown`.
- Network I/O is not modelled:
  - `fetchFlights`, `fetchFlightDetails`, `fetchWeather` and the RainViewer fetch;
  - `requests.get`;
  - the FlightRadar24 library.
  Their results are inputs, and `print` calls are dropped.
- `image_service.py` is not part of this model. Its result is an opaque input of the detail response.
- `generate_mock_traffic` is not modelled. It is unused random data.
- `fetchFlights` in `api.ts` has no timeout, fallback snapshot or demo mode, and none is modelled. A failed fetch is a batch like any other.
- Float numerics are real arithmetic. IEEE-754 effects are not modelled, such as the cumulative weight 0.7 + 0.2 being 0.8999999999999999 rather than 0.9.
- Text case mapping covers ASCII letters only. Unicode case mapping beyond ASCII is not modelled.
- `float()` accepts only optional whitespace, an optional sign, and digits with an optional fraction. Exponents, `inf`, `nan` and underscores are not modelled.
- FlightService.BoundsFor: gives the reordered box as a `Bounds` value, not as the string formatted with Python's float repr.
- The ISO time strings of the schedule are not modelled. The schedule carries the microsecond instants, and `EndToEnd.ScheduleOf` takes the strings as given.
- Python's Mersenne Twister, the reseeding by seed string, and the order of the draws are parameters. `SameSeedSameSchedule` states what reseeding guarantees.
- FlightsEndpoint.GenerateMockSchedule: states departure <= now <= arrival, not now < arrival. The half-to-even rounding of `timedelta * float` makes the elapsed time equal the whole duration for the largest progress draws, and `ArrivalCanBeNow` shows this.
- Rendering is not modelled:
  - the SVG markup, JSX and Leaflet (`L.divIcon`, `MapFlyTo`, the selected flight's fake trail);
  - the hard-coded airport markers and popups;
  - the altitude bar width and the 3D view's HUD values;
  - the "more" menu, the clipboard and the photo area.
- `AppSettings` declares no `weatherLayer`, yet `FlightMap` reads one. The layer is an explicit input with a fourth value, `Undeclared`, for the undefined that the running code sees. With `Undeclared` the tick runs but no overlay is drawn.
- `api.ts` declares neither `fetchWeather` nor the schedule's `coords`, although `Sidebar` uses both. The model takes the shapes `Sidebar` uses.
- `flights.py` is wrapped in Markdown fences, so as written it is not a Python module. The model reads the code between the fences.
- `FlightData.Flight` drops the `Flight` fields of `api.ts` that no component reads: `time_position`, `last_contact`, `sensors`, `spi` and `position_source`. The FlightRadar24 record's `id` is carried along but given no properties.
- `LegalDisclaimer.tsx`, `App.tsx` (except its initial settings), `main.py`, `router.py`, `tailwind.config.js` and `test_fr24.py` are static UI, wiring or configuration.
