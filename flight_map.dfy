/** The state of the FlightMap component of
    frontend/src/components/FlightMap.tsx.  Each timer firing, fetch
    completion and effect run is an explicit method; React state becomes the
    object's fields. */
module FlightMap {
  import opened Options
  import opened FlightData
  import opened Controls
  import opened FlightIcon
  import opened FlightMapIngest
  import opened FlightMapFilter
  import opened FlightMapWeather

  /** No two records of the list share an icao24. */
  predicate KeysUnique(flights: seq<Flight>)
  {
    forall i, j :: 0 <= i < j < |flights| ==> flights[i].icao24 != flights[j].icao24
  }

  /** Every record of a subsequence comes from the list, and a subsequence of
      a list with unique keys has unique keys. */
  lemma {:induction false} SubsequenceKeysUnique(a: seq<Flight>, b: seq<Flight>)
    requires IsSubsequence(a, b) && KeysUnique(b)
    ensures KeysUnique(a)
    ensures forall i :: 0 <= i < |a| ==> a[i] in b
    decreases |b|
  {
    if a != [] {
      if a[0] == b[0] && IsSubsequence(a[1..], b[1..]) {
        SubsequenceKeysUnique(a[1..], b[1..]);
        forall i | 1 <= i < |a| ensures a[0].icao24 != a[i].icao24 {
          assert a[i] == a[1..][i - 1];
          var j :| 0 <= j < |b[1..]| && b[1..][j] == a[i];
          assert b[j + 1] == a[i];
        }
        forall i | 1 <= i < |a| ensures a[i] in b {
          assert a[i] == a[1..][i - 1];
        }
      } else {
        assert KeysUnique(b[1..]) by {
          forall i, j | 0 <= i < j < |b[1..]| ensures b[1..][i].icao24 != b[1..][j].icao24 {
            assert b[1..][i] == b[i + 1] && b[1..][j] == b[j + 1];
          }
        }
        SubsequenceKeysUnique(a, b[1..]);
      }
    }
  }

  /** `selectedFlight?.icao24 === flight.icao24`. */
  predicate IsSelected(selected: Option<Flight>, f: Flight)
  {
    selected.Some? && selected.value.icao24 == f.icao24
  }

  /** `flight.squawk === "7700"`. */
  predicate IsEmergency(f: Flight)
  {
    f.squawk == Some("7700")
  }

  /** One aircraft marker: its key, its [latitude, longitude] and its icon. */
  datatype Marker = Marker(key: string, position: (real, real), icon: Icon)

  /** The marker of a record with a truthy position. */
  function MarkerOf(f: Flight, selected: Option<Flight>): (m: Marker)
    requires TruthyNum(f.latitude) && TruthyNum(f.longitude)
    ensures m.key == f.icao24 && m.position == (f.latitude.value, f.longitude.value)
    ensures m.icon.fill == EmergencyFill <==> IsEmergency(f)
    ensures m.icon.strokeWidth == "2" <==> IsSelected(selected, f)
    ensures m.icon.rotation == NumOr(f.trueTrack, 0.0)
  {
    Marker(f.icao24, (f.latitude.value, f.longitude.value),
           CreateFlightIcon(NumOr(f.trueTrack, 0.0), IsSelected(selected, f), IsEmergency(f)))
  }

  /** The records the marker loop draws: those with a truthy position. */
  function Positioned(flights: seq<Flight>): (r: seq<Flight>)
    ensures IsSubsequence(r, flights)
    ensures forall i :: 0 <= i < |r| ==> TruthyNum(r[i].latitude) && TruthyNum(r[i].longitude)
    ensures forall i :: 0 <= i < |r| ==> r[i] in flights
    ensures forall i :: 0 <= i < |flights| && TruthyNum(flights[i].latitude) && TruthyNum(flights[i].longitude) ==> flights[i] in r
    decreases |flights|
  {
    if flights == [] then []
    else
      var rest := Positioned(flights[1..]);
      assert forall i :: 1 <= i < |flights| ==> flights[i] == flights[1..][i - 1];
      if TruthyNum(flights[0].latitude) && TruthyNum(flights[0].longitude) then
        assert ([flights[0]] + rest)[1..] == rest;
        [flights[0]] + rest
      else
        rest
  }

  /** `filteredFlights.map(...)`: a marker for every record with a truthy
      position, in list order. */
  function Markers(flights: seq<Flight>, selected: Option<Flight>): (ms: seq<Marker>)
    ensures var p := Positioned(flights);
      |ms| == |p| && forall i :: 0 <= i < |ms| ==> ms[i] == MarkerOf(p[i], selected)
  {
    var p := Positioned(flights);
    seq(|p|, i requires 0 <= i < |p| => MarkerOf(p[i], selected))
  }

  /** Markers are drawn for exactly the records with a truthy position, in
      list order, and a list with unique keys gives markers with unique keys. */
  lemma {:induction false} MarkersSpec(flights: seq<Flight>, selected: Option<Flight>)
    ensures var ms := Markers(flights, selected);
      |ms| <= |flights| &&
      (forall i :: 0 <= i < |flights| && TruthyNum(flights[i].latitude) && TruthyNum(flights[i].longitude) ==>
         MarkerOf(flights[i], selected) in ms) &&
      (KeysUnique(flights) ==> forall i, j :: 0 <= i < j < |ms| ==> ms[i].key != ms[j].key)
  {
    var p := Positioned(flights);
    var ms := Markers(flights, selected);
    SubsequenceLength(p, flights);
    forall i | 0 <= i < |flights| && TruthyNum(flights[i].latitude) && TruthyNum(flights[i].longitude)
      ensures MarkerOf(flights[i], selected) in ms
    {
      var k :| 0 <= k < |p| && p[k] == flights[i];
      assert ms[k] == MarkerOf(flights[i], selected);
    }
    if KeysUnique(flights) {
      SubsequenceKeysUnique(p, flights);
    }
  }

  /** Among markers built from a list with unique keys at most one is drawn as
      selected. */
  lemma {:induction false} AtMostOneSelected(flights: seq<Flight>, selected: Option<Flight>)
    requires KeysUnique(flights)
    ensures var ms := Markers(flights, selected);
      forall i, j :: 0 <= i < |ms| && 0 <= j < |ms| && ms[i].icon.strokeWidth == "2" && ms[j].icon.strokeWidth == "2" ==> i == j
  {
    var p := Positioned(flights);
    SubsequenceKeysUnique(p, flights);
    var ms := Markers(flights, selected);
    forall i, j | 0 <= i < |ms| && 0 <= j < |ms| && ms[i].icon.strokeWidth == "2" && ms[j].icon.strokeWidth == "2"
      ensures i == j
    {
      assert p[i].icao24 == selected.value.icao24 == p[j].icao24;
    }
  }

  /** The component's state. */
  class FlightMapView {
    var flights: seq<Flight>
    var filteredFlights: seq<Flight>
    var loading: bool
    var weatherUrl: Option<string>
    var weatherFrames: seq<Frame>
    var currentFrameIndex: nat

    /** The flight list holds eligible records with unique keys (so does the
        filtered list, which is filtered from an earlier flight list), and the
        published weather URL is the URL of the frame under the cursor. */
    predicate Valid()
      reads this
    {
      (forall i :: 0 <= i < |flights| ==> Eligible(flights[i])) && KeysUnique(flights) &&
      (forall i :: 0 <= i < |filteredFlights| ==> Eligible(filteredFlights[i])) && KeysUnique(filteredFlights) &&
      (if |weatherFrames| == 0 then currentFrameIndex == 0 && weatherUrl == None
       else currentFrameIndex < |weatherFrames| && weatherUrl == Some(weatherFrames[currentFrameIndex].url)) &&
      (forall i :: 0 <= i < |weatherFrames| ==> weatherFrames[i].url != "")
    }

    /** The initial state: nothing loaded, loading. */
    constructor ()
      ensures Valid() && ShowsLoadingOverlay()
      ensures flights == [] && filteredFlights == [] && loading
      ensures weatherUrl == None && weatherFrames == [] && currentFrameIndex == 0
    {
      flights := [];
      filteredFlights := [];
      loading := true;
      weatherUrl := None;
      weatherFrames := [];
      currentFrameIndex := 0;
    }

    /** loadData after its fetch has completed.  `batch` is what fetchFlights
        resolved to; None stands for a value that is not an array, on which
        `forEach` throws and the catch keeps the old list.  Loading ends on
        both paths. */
    method LoadData(batch: Option<seq<Flight>>)
      requires Valid()
      modifies this
      ensures Valid()
      ensures !loading && !ShowsLoadingOverlay()
      ensures batch.Some? ==> flights == Deduplicated(batch.value)
      ensures batch.None? ==> flights == old(flights)
      ensures filteredFlights == old(filteredFlights)
      ensures weatherUrl == old(weatherUrl) && weatherFrames == old(weatherFrames)
      ensures currentFrameIndex == old(currentFrameIndex)
    {
      if batch.Some? {
        var unique := Deduplicate(batch.value);
        DeduplicatedSpec(batch.value);
        flights := unique;
      }
      loading := false;
    }

    /** The filter effect, run after the flight list or the filters changed. */
    method RunFilterEffect(filters: Filters)
      requires Valid()
      modifies this
      ensures Valid()
      ensures filteredFlights == FilterFlights(flights, filters)
      ensures |filteredFlights| <= |flights|
      ensures flights == old(flights) && loading == old(loading)
      ensures weatherUrl == old(weatherUrl) && weatherFrames == old(weatherFrames)
      ensures currentFrameIndex == old(currentFrameIndex)
    {
      var r := FilterFlights(flights, filters);
      SubsequenceKeysUnique(r, flights);
      FilterLength(flights, filters);
      filteredFlights := r;
    }

    /** The weather-manifest fetch completed with `manifest` (None: the fetch
        or the JSON parse failed).  An acceptable manifest replaces the frames
        and moves the cursor to the newest frame; anything else changes
        nothing. */
    method AcceptManifest(manifest: Option<Manifest>)
      requires Valid()
      modifies this
      ensures Valid()
      ensures manifest.Some? && Acceptable(manifest.value) ==>
        weatherFrames == ManifestFrames(manifest.value) &&
        currentFrameIndex == |weatherFrames| - 1 &&
        weatherUrl == Some(weatherFrames[|weatherFrames| - 1].url)
      ensures !(manifest.Some? && Acceptable(manifest.value)) ==>
        weatherFrames == old(weatherFrames) && currentFrameIndex == old(currentFrameIndex) &&
        weatherUrl == old(weatherUrl)
      ensures flights == old(flights) && filteredFlights == old(filteredFlights) && loading == old(loading)
    {
      if manifest.Some? && Acceptable(manifest.value) {
        var frames := ManifestFrames(manifest.value);
        weatherFrames := frames;
        currentFrameIndex := |frames| - 1;
        weatherUrl := Some(frames[|frames| - 1].url);
      }
    }

    /** One firing of the 2-second animation interval under `layer`.  The
        interval exists only while frames are loaded and the layer is not
        'none'; then the cursor moves on by one, wrapping, and that frame's
        URL is published. */
    method Tick(layer: WeatherLayer)
      requires Valid()
      modifies this
      ensures Valid()
      ensures TickArmed(|weatherFrames|, layer) ==>
        currentFrameIndex == NextFrame(old(currentFrameIndex), |weatherFrames|) &&
        weatherUrl == Some(weatherFrames[currentFrameIndex].url)
      ensures !TickArmed(|weatherFrames|, layer) ==>
        currentFrameIndex == old(currentFrameIndex) && weatherUrl == old(weatherUrl)
      ensures weatherFrames == old(weatherFrames)
      ensures flights == old(flights) && filteredFlights == old(filteredFlights) && loading == old(loading)
    {
      if |weatherFrames| == 0 || layer == LayerNone {
        return;
      }
      var next := NextFrame(currentFrameIndex, |weatherFrames|);
      weatherUrl := Some(weatherFrames[next].url);
      currentFrameIndex := next;
    }

    /** The "RADAR INIT..." overlay shows while loading with nothing loaded. */
    predicate ShowsLoadingOverlay()
      reads this
    {
      loading && |flights| == 0
    }

    /** The weather tile layer drawn under `layer`. */
    function Overlay(layer: WeatherLayer): (r: Option<string>)
      reads this
      requires Valid()
      ensures r.Some? <==> (layer == Radar || layer == Satellite) && |weatherFrames| > 0
      ensures r.Some? ==> var url := weatherFrames[currentFrameIndex].url;
        |r.value| > |url| && r.value[..|url|] == url
    {
      var r := OverlayUrl(layer, weatherUrl);
      if r.Some? then
        OverlayUrlRecoversFrame(layer, weatherUrl.value);
        r
      else r
    }

    /** The aircraft markers for the current selection. */
    function CurrentMarkers(selected: Option<Flight>): (ms: seq<Marker>)
      reads this
      requires Valid()
      ensures |ms| == |filteredFlights|
      ensures forall i, j :: 0 <= i < |ms| && 0 <= j < |ms| && ms[i].icon.strokeWidth == "2" && ms[j].icon.strokeWidth == "2" ==> i == j
    {
      AtMostOneSelected(filteredFlights, selected);
      AllMarked(filteredFlights, selected);
      Markers(filteredFlights, selected)
    }
  }

  /** Records with truthy positions each get a marker: the position check of
      the marker loop drops nothing from an ingested list. */
  lemma {:induction false} AllMarked(flights: seq<Flight>, selected: Option<Flight>)
    requires forall i :: 0 <= i < |flights| ==> Eligible(flights[i])
    ensures |Markers(flights, selected)| == |flights|
    decreases |flights|
  {
    if flights != [] {
      AllMarked(flights[1..], selected);
      assert Positioned(flights) == [flights[0]] + Positioned(flights[1..]);
    }
  }
}
