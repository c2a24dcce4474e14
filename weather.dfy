/** The weather overlay of frontend/src/components/FlightMap.tsx as values:
    the RainViewer manifest, the frame list built from it, the frame cursor's
    step and the tile URLs of the base map and the overlay. */
module FlightMapWeather {
  import opened Options
  import opened Controls

  /** The layer the map reads from `settings.weatherLayer`.  AppSettings
      declares no such field, so what the running component sees is
      `Undeclared` (JavaScript's undefined): not 'none', not 'radar', not
      'satellite'. */
  datatype WeatherLayer = LayerNone | Radar | Satellite | Undeclared

  /** One entry of `radar.past` in the manifest. */
  datatype FrameSource = FrameSource(path: string, time: int)

  datatype RadarInfo = RadarInfo(past: Option<seq<FrameSource>>)

  /** The parts of weather-maps.json the component reads. */
  datatype Manifest = Manifest(host: Option<string>, radar: Option<RadarInfo>)

  /** A frame as stored in the component's state. */
  datatype Frame = Frame(url: string, time: int)

  /** `data.host && data.radar && data.radar.past && data.radar.past.length > 0`. */
  predicate Acceptable(m: Manifest)
  {
    m.host.Some? && m.host.value != "" &&
    m.radar.Some? && m.radar.value.past.Some? && |m.radar.value.past.value| > 0
  }

  /** `frames.map(f => ({ url: `${data.host}${f.path}`, time: f.time }))`. */
  function FramesOf(host: string, past: seq<FrameSource>): (frames: seq<Frame>)
    ensures |frames| == |past|
    ensures forall i :: 0 <= i < |past| ==>
      frames[i].time == past[i].time &&
      |frames[i].url| == |host| + |past[i].path| &&
      frames[i].url[..|host|] == host && frames[i].url[|host|..] == past[i].path
  {
    seq(|past|, i requires 0 <= i < |past| => Frame(host + past[i].path, past[i].time))
  }

  /** The frames of an acceptable manifest. */
  function ManifestFrames(m: Manifest): (frames: seq<Frame>)
    requires Acceptable(m)
    ensures |frames| > 0
    ensures forall i :: 0 <= i < |frames| ==> frames[i].url != ""
  {
    FramesOf(m.host.value, m.radar.value.past.value)
  }

  /** The tick is armed only with frames loaded and a layer other than 'none'. */
  predicate TickArmed(frameCount: nat, layer: WeatherLayer)
  {
    frameCount > 0 && layer != LayerNone
  }

  /** The cursor step `(prev + 1) % weatherFrames.length`.  The cursor is never
      negative, so JavaScript's truncating remainder and Dafny's agree. */
  function NextFrame(prev: nat, n: nat): (next: nat)
    requires n > 0
    ensures next < n
    ensures prev < n - 1 ==> next == prev + 1
    ensures prev == n - 1 ==> next == 0
  {
    (prev + 1) % n
  }

  /** The cursor after `k` ticks. */
  function Advance(c: nat, n: nat, k: nat): nat
    requires n > 0
  {
    if k == 0 then c else NextFrame(Advance(c, n, k - 1), n)
  }

  /** Ticks compose: a + b ticks are a ticks followed by b ticks. */
  lemma {:induction false} AdvanceSplit(c: nat, n: nat, a: nat, b: nat)
    requires n > 0
    ensures Advance(c, n, a + b) == Advance(Advance(c, n, a), n, b)
  {
    if b > 0 {
      AdvanceSplit(c, n, a, b - 1);
    }
  }

  /** Before the end of the list each tick moves one frame on. */
  lemma {:induction false} AdvanceLinear(c: nat, n: nat, k: nat)
    requires n > 0 && c + k < n
    ensures Advance(c, n, k) == c + k
  {
    if k > 0 {
      AdvanceLinear(c, n, k - 1);
    }
  }

  /** From the newest frame a tick wraps around to the oldest one, and n ticks
      bring every cursor back to where it started. */
  lemma {:induction false} FullLoop(c: nat, n: nat)
    requires n > 0 && c < n
    ensures Advance(n - 1, n, 1) == 0
    ensures Advance(c, n, n) == c
  {
    AdvanceSplit(c, n, n - 1 - c, 1 + c);
    AdvanceLinear(c, n, n - 1 - c);
    AdvanceSplit(n - 1, n, 1, c);
    AdvanceLinear(0, n, c);
  }

  /** The animation is periodic with the frame count as period. */
  lemma {:induction false} AdvancePeriodic(c: nat, n: nat, k: nat)
    requires n > 0 && c < n
    ensures Advance(c, n, n + k) == Advance(c, n, k)
  {
    AdvanceSplit(c, n, n, k);
    FullLoop(c, n);
  }

  const RadarTileSuffix := "/256/{z}/{x}/{y}/2/1_1.png"
  const SatelliteTileSuffix := "/256/{z}/{x}/{y}/0/1_1.png"

  /** The overlay tile layer: drawn for 'radar' or 'satellite' and a truthy
      weather URL, with the frame URL followed by the colour-scheme path. */
  function OverlayUrl(layer: WeatherLayer, weatherUrl: Option<string>): (r: Option<string>)
    ensures r.Some? <==> (layer == Radar || layer == Satellite) && weatherUrl.Some? && weatherUrl.value != ""
    ensures layer == Radar && r.Some? ==> r.value == weatherUrl.value + RadarTileSuffix
    ensures layer == Satellite && r.Some? ==> r.value == weatherUrl.value + SatelliteTileSuffix
  {
    if weatherUrl.Some? && weatherUrl.value != "" then
      match layer
      case Radar => Some(weatherUrl.value + RadarTileSuffix)
      case Satellite => Some(weatherUrl.value + SatelliteTileSuffix)
      case _ => None
    else None
  }

  /** The overlay URL gives back the frame URL it was built from, and radar
      and satellite tiles of one frame are different tiles. */
  lemma {:induction false} OverlayUrlRecoversFrame(layer: WeatherLayer, url: string)
    requires url != "" && (layer == Radar || layer == Satellite)
    ensures var r := OverlayUrl(layer, Some(url)).value;
      |r| == |url| + 26 && r[..|url|] == url
    ensures OverlayUrl(Radar, Some(url)) != OverlayUrl(Satellite, Some(url))
  {
    var a := OverlayUrl(Radar, Some(url)).value;
    var b := OverlayUrl(Satellite, Some(url)).value;
    assert a == url + RadarTileSuffix && b == url + SatelliteTileSuffix;
    assert a[|url| + 17] == RadarTileSuffix[17] == '2';
    assert b[|url| + 17] == SatelliteTileSuffix[17] == '0';
  }

  /** getTileUrl(): the base map for the chosen style. */
  function BaseTileUrl(style: MapStyle): string
  {
    match style
    case Light => "https://{s}.basemaps.cartocdn.com/light_all/{z}/{x}/{y}{r}.png"
    case SatelliteStyle => "https://server.arcgisonline.com/ArcGIS/rest/services/World_Imagery/MapServer/tile/{z}/{y}/{x}"
    case Dark => "https://{s}.basemaps.cartocdn.com/dark_all/{z}/{x}/{y}{r}.png"
  }

  /** Each style has its own base map. */
  lemma {:induction false} BaseTileUrlInjective(a: MapStyle, b: MapStyle)
    ensures BaseTileUrl(a) == BaseTileUrl(b) ==> a == b
  {
    var light := BaseTileUrl(Light);
    var sat := BaseTileUrl(SatelliteStyle);
    var dark := BaseTileUrl(Dark);
    assert |light| == 62 && |sat| == 93 && |dark| == 61;
  }
}
