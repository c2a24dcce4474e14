/** The frontend's record types (frontend/src/services/api.ts) and the
    JavaScript truthiness of the nullable fields the components test. */
module FlightData {
  import opened Options

  /** One aircraft state vector as the frontend receives it.  Numbers are
      reals; a field that may be null is an Option. */
  datatype Flight = Flight(
    icao24: string,
    callsign: Option<string>,
    originCountry: string,
    longitude: Option<real>,
    latitude: Option<real>,
    baroAltitude: Option<real>,
    onGround: bool,
    velocity: Option<real>,
    trueTrack: Option<real>,
    verticalRate: Option<real>,
    geoAltitude: Option<real>,
    squawk: Option<string>)

  /** A nullable number is truthy when it is present and not 0. */
  predicate TruthyNum(x: Option<real>)
  {
    x.Some? && x.value != 0.0
  }

  /** A nullable string is truthy when it is present and not empty. */
  predicate TruthyText(s: Option<string>)
  {
    s.Some? && s.value != ""
  }

  /** `x || fallback` for a nullable number. */
  function NumOr(x: Option<real>, fallback: real): real
  {
    if TruthyNum(x) then x.value else fallback
  }

  /** `s || fallback` for a nullable string. */
  function TextOr(s: Option<string>, fallback: string): string
  {
    if TruthyText(s) then s.value else fallback
  }

  /** An airport of a schedule; `coords` is [latitude, longitude]. */
  datatype AirportRef = AirportRef(code: string, city: string, coords: Option<(real, real)>)

  datatype Schedule = Schedule(
    origin: AirportRef,
    destination: AirportRef,
    scheduledDeparture: string,
    scheduledArrival: string,
    status: string,
    delayMinutes: int,
    progressPercent: int)

  datatype Image = Image(found: bool, url: Option<string>, photographer: Option<string>)

  /** The extended record returned for one selected aircraft. */
  datatype FlightDetail = FlightDetail(
    icao24: string,
    callsign: Option<string>,
    image: Option<Image>,
    schedule: Option<Schedule>)

  /** A point forecast. */
  datatype WeatherData = WeatherData(temperature: real, weatherCode: int)
}
