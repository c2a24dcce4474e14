/** The flights router of backend/app/api/endpoints/flights.py: the mock
    schedule derived from seeded draws, and the two responses.  The random
    generator is a parameter mapping the seed string to the draws it yields,
    in the order the source makes them; `now` is a parameter in microseconds
    since the epoch. */
module FlightsEndpoint {
  import opened Options
  import opened Text
  import opened PyValues
  import opened OpenSkyService

  datatype Airport = Airport(code: string, city: string, coords: (real, real))

  /** AIRPORTS: code, city and [latitude, longitude]. */
  const Airports: seq<Airport> := [
    Airport("FCO", "Rome", (41.8003, 12.2389)),
    Airport("MXP", "Milan", (45.6301, 8.7255)),
    Airport("LHR", "London", (51.4700, -0.4543)),
    Airport("CDG", "Paris", (49.0097, 2.5479)),
    Airport("JFK", "New York", (40.6413, -73.7781)),
    Airport("DXB", "Dubai", (25.2532, 55.3657)),
    Airport("HND", "Tokyo", (35.5494, 139.7798))
  ]

  predicate CodesDistinct(airports: seq<Airport>)
  {
    forall i, j :: 0 <= i < j < |airports| ==> airports[i].code != airports[j].code
  }

  lemma AirportCodesDistinct()
    ensures CodesDistinct(Airports)
  {
  }

  /** `[a for a in airports if a["code"] != code]`. */
  function WithoutCode(airports: seq<Airport>, code: string): (r: seq<Airport>)
    ensures forall i :: 0 <= i < |r| ==> r[i].code != code && r[i] in airports
    ensures forall a :: a in airports && a.code != code ==> a in r
    decreases |airports|
  {
    if airports == [] then []
    else
      var rest := WithoutCode(airports[1..], code);
      if airports[0].code != code then [airports[0]] + rest else rest
  }

  /** Removing a code that occurs once removes exactly one airport. */
  lemma {:induction false} WithoutCodeLength(airports: seq<Airport>, i: nat)
    requires CodesDistinct(airports) && i < |airports|
    ensures |WithoutCode(airports, airports[i].code)| == |airports| - 1
    decreases |airports|
  {
    var code := airports[i].code;
    var tail := airports[1..];
    assert CodesDistinct(tail) by {
      forall p, q | 0 <= p < q < |tail| ensures tail[p].code != tail[q].code {
        assert tail[p] == airports[p + 1] && tail[q] == airports[q + 1];
      }
    }
    if i == 0 {
      WithoutCodeKeepsAll(tail, code);
    } else {
      assert tail[i - 1] == airports[i];
      WithoutCodeLength(tail, i - 1);
    }
  }

  lemma {:induction false} WithoutCodeKeepsAll(airports: seq<Airport>, code: string)
    requires forall j :: 0 <= j < |airports| ==> airports[j].code != code
    ensures WithoutCode(airports, code) == airports
    decreases |airports|
  {
    if airports != [] {
      WithoutCodeKeepsAll(airports[1..], code);
    }
  }

  /** The destinations offered for an origin: the six other airports. */
  function Destinations(origin: AirportIndex): (r: seq<Airport>)
    ensures |r| == 6
    ensures forall i :: 0 <= i < 6 ==> r[i].code != Airports[origin].code && r[i] in Airports
    ensures forall a :: a in Airports && a.code != Airports[origin].code ==> a in r
  {
    AirportCodesDistinct();
    WithoutCodeLength(Airports, origin);
    WithoutCode(Airports, Airports[origin].code)
  }

  // ---------------------------------------------------------------------------
  // The draws

  const Two53: int := 0x20_0000_0000_0000

  type AirportIndex = i: int | 0 <= i < 7
  type DestinationIndex = i: int | 0 <= i < 6
  type DurationMinutes = m: int | 45 <= m <= 600 witness 45
  type DelayMinutes = m: int | 15 <= m <= 180 witness 15
  /** The integer k of a random() result k / 2^53. */
  type Fraction53 = k: int | 0 <= k < 0x20_0000_0000_0000

  /** The values the generator yields after `random.seed(seed)`, in order:
      choice(AIRPORTS), choice(destinations), randint(45, 600), random(), the
      random() inside choices, and randint(15, 180) (used only when the status
      is Delayed). */
  datatype Draws = Draws(
    origin: AirportIndex,
    destination: DestinationIndex,
    durationMinutes: DurationMinutes,
    progress: Fraction53,
    statusDraw: Fraction53,
    delayMinutes: DelayMinutes)

  /** `callsign if callsign else icao24`. */
  function SeedOf(icao24: string, callsign: string): (seed: string)
    ensures callsign != "" ==> seed == callsign
    ensures callsign == "" ==> seed == icao24
  {
    if callsign != "" then callsign else icao24
  }

  // ---------------------------------------------------------------------------
  // Times

  const MicrosPerMinute := 60_000_000

  /** n / d rounded to the nearest integer, halves to even (datetime's
      _divide_and_round). */
  function RoundHalfEven(n: nat, d: nat): nat
    requires d > 0
  {
    var q := n / d;
    var rem := n % d;
    if 2 * rem > d || (2 * rem == d && q % 2 == 1) then q + 1 else q
  }

  /** RoundHalfEven is within half of n / d, and at a tie it is even. */
  lemma RoundHalfEvenSpec(n: nat, d: nat)
    requires d > 0
    ensures var r := RoundHalfEven(n, d);
      2 * (n - r * d) <= d && 2 * (r * d - n) <= d &&
      ((2 * (n - r * d) == d || 2 * (r * d - n) == d) ==> r % 2 == 0)
  {
    var q := n / d;
    var rem := n % d;
    assert n == q * d + rem;
    HalfEvenStep(n, d, q, rem, RoundHalfEven(n, d));
  }

  /** The rounding step of RoundHalfEven, with quotient and remainder given. */
  lemma HalfEvenStep(n: nat, d: nat, q: nat, rem: nat, r: nat)
    requires 0 <= rem < d && n == q * d + rem
    requires r == if 2 * rem > d || (2 * rem == d && q % 2 == 1) then q + 1 else q
    ensures 2 * (n - r * d) <= d && 2 * (r * d - n) <= d
    ensures (2 * (n - r * d) == d || 2 * (r * d - n) == d) ==> r % 2 == 0
  {
    var lo := q * d;
    if r == q + 1 {
      assert r * d == lo + d;
    } else {
      assert r * d == lo;
    }
  }

  lemma MulMonotone(a: int, b: int, c: nat)
    requires a <= b
    ensures a * c <= b * c
  {
    assert (b - a) * c >= 0;
  }

  /** `timedelta(minutes=m) * (k / 2^53)` in microseconds: the duration scaled
      by k / 2^53 to within half a microsecond, and never more than the whole
      duration. */
  function Elapsed(minutes: DurationMinutes, k: Fraction53): (e: nat)
    ensures 2 * (minutes * MicrosPerMinute * k - e * Two53) <= Two53
    ensures 2 * (e * Two53 - minutes * MicrosPerMinute * k) <= Two53
    ensures e <= minutes * MicrosPerMinute
  {
    var us: nat := minutes * MicrosPerMinute;
    RoundHalfEvenSpec(us * k, Two53);
    RoundedBelowWhole(us, k);
    RoundHalfEven(us * k, Two53)
  }

  lemma RoundedBelowWhole(us: nat, k: Fraction53)
    ensures RoundHalfEven(us * k, Two53) <= us
  {
    RoundHalfEvenSpec(us * k, Two53);
    MulMonotone(k, Two53 - 1, us);
    assert us * k <= us * Two53 - us;
  }

  // ---------------------------------------------------------------------------
  // The status

  const StatusOptions: seq<string> := ["On Time", "Delayed", "Landed", "Diverted"]

  /** The cumulative weights of [0.7, 0.2, 0.05, 0.05], over the reals. */
  const CumWeights: seq<real> := [0.7, 0.9, 0.95, 1.0]

  /** bisect_right(a, x, 0, hi) on a sorted list: how many of a[0..hi] are ≤ x. */
  function BisectRight(a: seq<real>, x: real, hi: nat): (i: nat)
    requires hi <= |a|
    requires forall p, q :: 0 <= p < q < |a| ==> a[p] <= a[q]
    ensures i <= hi
    ensures forall p :: 0 <= p < i ==> a[p] <= x
    ensures forall p :: i <= p < hi ==> x < a[p]
  {
    if hi == 0 then 0
    else if a[hi - 1] <= x then hi
    else BisectRight(a, x, hi - 1)
  }

  /** `random.choices(status_opts, weights=weights)[0]` for the draw k: the
      index is bisected among the cumulative weights, capped at the last one. */
  function ChooseStatus(k: Fraction53): (status: string)
    ensures status in StatusOptions
  {
    var u := k as real / Two53 as real;
    StatusOptions[BisectRight(CumWeights, u * CumWeights[3], 3)]
  }

  lemma StatusOptionsDistinct()
    ensures forall i, j :: 0 <= i < j < |StatusOptions| ==> StatusOptions[i] != StatusOptions[j]
  {
    assert StatusOptions[0][0] == 'O' && StatusOptions[1][0] == 'D' && StatusOptions[2][0] == 'L';
    assert StatusOptions[1][1] == 'e' && StatusOptions[3][1] == 'i';
    assert StatusOptions[3][0] == 'D';
  }

  /** Each status takes the share of [0, 1) its weight gives it. */
  lemma StatusThresholds(k: Fraction53)
    ensures var u := k as real / Two53 as real;
      && (ChooseStatus(k) == "On Time" <==> u < 0.7)
      && (ChooseStatus(k) == "Delayed" <==> 0.7 <= u < 0.9)
      && (ChooseStatus(k) == "Landed" <==> 0.9 <= u < 0.95)
      && (ChooseStatus(k) == "Diverted" <==> 0.95 <= u)
  {
    StatusOptionsDistinct();
    var u := k as real / Two53 as real;
    assert u * CumWeights[3] == u;
    var i := BisectRight(CumWeights, u, 3);
    assert ChooseStatus(k) == StatusOptions[i];
    assert CumWeights[0] == 0.7 && CumWeights[1] == 0.9 && CumWeights[2] == 0.95;
  }

  // ---------------------------------------------------------------------------
  // The schedule

  /** The schedule's fields; times are microseconds since the epoch. */
  datatype MockSchedule = MockSchedule(
    origin: Airport,
    destination: Airport,
    departureMicros: int,
    arrivalMicros: int,
    status: string,
    delayMinutes: int,
    progressPercent: int)

  /** Arrival is a whole number of minutes, between 45 and 600, after departure. */
  ghost predicate MinutesApart(departure: int, arrival: int)
  {
    exists minutes :: 45 <= minutes <= 600 && arrival - departure == minutes * MicrosPerMinute
  }

  /** Departure and arrival: `now - elapsed` and `departure + duration`. */
  function TimesOf(minutes: DurationMinutes, k: Fraction53, nowMicros: int): (t: (int, int))
    ensures t.1 - t.0 == minutes * MicrosPerMinute
    ensures MinutesApart(t.0, t.1)
    ensures t.0 <= nowMicros <= t.1
  {
    var departure := nowMicros - Elapsed(minutes, k);
    var t := (departure, departure + minutes * MicrosPerMinute);
    assert t.1 - t.0 == minutes as int * MicrosPerMinute;
    t
  }

  /** The status, and the delay drawn only for a delayed flight. */
  function StatusAndDelay(d: Draws): (r: (string, int))
    ensures r.0 in StatusOptions
    ensures r.0 != "Delayed" ==> r.1 == 0
    ensures r.0 == "Delayed" ==> 15 <= r.1 <= 180
  {
    var status := ChooseStatus(d.statusDraw);
    (status, if status == "Delayed" then d.delayMinutes else 0)
  }

  /** generate_mock_schedule(icao24, callsign). */
  function GenerateMockSchedule(icao24: string, callsign: string, rng: string -> Draws, nowMicros: int)
    : (s: MockSchedule)
    ensures s.origin in Airports && s.destination in Airports
    ensures s.destination.code != s.origin.code
    ensures MinutesApart(s.departureMicros, s.arrivalMicros)
    ensures s.departureMicros <= nowMicros <= s.arrivalMicros
    ensures s.status in StatusOptions
    ensures s.status != "Delayed" ==> s.delayMinutes == 0
    ensures s.status == "Delayed" ==> 15 <= s.delayMinutes <= 180
    ensures 0 <= s.progressPercent <= 99
  {
    var d := rng(SeedOf(icao24, callsign));
    var origin := Airports[d.origin];
    var destinations := Destinations(d.origin);
    var destination := destinations[d.destination];
    assert destination in Airports && destination.code != origin.code;
    var times := TimesOf(d.durationMinutes, d.progress, nowMicros);
    var statusDelay := StatusAndDelay(d);
    var s := MockSchedule(origin, destination, times.0, times.1,
                          statusDelay.0, statusDelay.1, ProgressPercent(d.progress));
    s
  }

  /** `int(progress_pct * 100)` for progress k / 2^53. */
  function ProgressPercent(k: Fraction53): (p: int)
    ensures 0 <= p <= 99
    ensures p as real <= k as real * 100.0 / Two53 as real < p as real + 1.0
  {
    var x := k as real / Two53 as real * 100.0;
    assert x < 100.0;
    x.Floor
  }

  /** The schedule depends on the request only through its seed: a request
      with the same seed (same callsign, or no callsign and the same icao24)
      gets the same schedule. */
  lemma SameSeedSameSchedule(icao1: string, callsign1: string, icao2: string, callsign2: string,
                             rng: string -> Draws, nowMicros: int)
    requires SeedOf(icao1, callsign1) == SeedOf(icao2, callsign2)
    ensures GenerateMockSchedule(icao1, callsign1, rng, nowMicros) == GenerateMockSchedule(icao2, callsign2, rng, nowMicros)
  {
  }

  /** The arrival can coincide with `now`: with the largest progress draw
      the elapsed time rounds up to the whole duration. */
  lemma ArrivalCanBeNow(nowMicros: int)
    ensures var rng := (seed: string) => Draws(0, 0, 45, Two53 - 1, 0, 15);
      GenerateMockSchedule("4b1805", "", rng, nowMicros).arrivalMicros == nowMicros
  {
    var us := 45 * MicrosPerMinute;
    var n := us * (Two53 - 1);
    assert n == (us - 1) * Two53 + (Two53 - us);
    assert n / Two53 == us - 1 && n % Two53 == Two53 - us;
    assert RoundHalfEven(n, Two53) == us;
    assert Elapsed(45, Two53 - 1) == us;
  }

  // ---------------------------------------------------------------------------
  // The responses

  /** `{"count": len(flights), "flights": flights}`. */
  datatype FlightsResponse = FlightsResponse(count: int, flights: seq<StateRecord>)

  /** GET / : the states of the bbox with their count; an exception inside
      get_all_states propagates (an error response). */
  function GetFlightsResponse(bbox: Option<string>, fetch: QueryParams -> FeedResponse): (r: Outcome<FlightsResponse>)
    ensures r.Ok? ==> r.value.count == |r.value.flights|
    ensures r.Ok? <==> AllStates(fetch(QueryFor(bbox))).Ok?
    ensures r.Ok? ==> r.value.flights == AllStates(fetch(QueryFor(bbox))).value
  {
    var flights :- AllStates(fetch(QueryFor(bbox)));
    Ok(FlightsResponse(|flights|, flights))
  }

  datatype DetailResponse = DetailResponse(
    icao24: string,
    callsign: string,
    image: PyVal,
    schedule: MockSchedule,
    trail: seq<PyVal>)

  /** GET /{icao24}?callsign=...: the icao24 echoed, the callsign stripped,
      the image lookup's result, the schedule seeded by the callsign as
      received, and an empty trail. */
  function GetFlightDetailsResponse(icao24: string, callsign: string, image: PyVal,
                                    rng: string -> Draws, nowMicros: int): (r: DetailResponse)
    ensures r.icao24 == icao24 && r.trail == [] && r.image == image
    ensures r.callsign == Strip(callsign)
    ensures r.schedule == GenerateMockSchedule(icao24, callsign, rng, nowMicros)
  {
    var stripped := Strip(callsign);
    var schedule := GenerateMockSchedule(icao24, callsign, rng, nowMicros);
    DetailResponse(icao24, stripped, image, schedule, [])
  }
}
