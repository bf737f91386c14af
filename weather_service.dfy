/**
 * The weather client: the record shapes the dashboard works on, the default
 * location, and the normalisation of the provider's daily response into
 * per-day records. The HTTP request and the wall clock are not modelled: the
 * decoded response (or its absence, for a transport failure) and today's ISO
 * date are parameters.
 */
module WeatherService {
  import opened Wrappers
  import opened Numeric

  /** A geographic place; admin1 is the optional region or state. */
  datatype Location = Location(
    name: string,
    country: string,
    admin1: Option<string>,
    latitude: real,
    longitude: real)

  /** One calendar day's aggregate weather; date is an ISO YYYY-MM-DD string. */
  datatype WeatherDay = WeatherDay(
    date: string,
    temperature: real,
    cloudCover: real,
    sunshineHours: real)

  /**
   * The `daily` object of the provider's response: parallel arrays indexed by
   * day offset. A null sunshine duration is None.
   */
  datatype DailyResponse = DailyResponse(
    time: seq<string>,
    temperatureMean: seq<real>,
    cloudCoverMean: seq<real>,
    sunshineDuration: seq<Option<real>>)

  datatype FetchError = NetworkError | MalformedResponse

  const DEFAULT_LOCATION: Location :=
    Location("New York", "United States", Some("New York"), 40.7128, -74.0060)

  const SECONDS_PER_HOUR: real := 3600.0

  predicate ValidCoordinates(loc: Location) {
    -90.0 <= loc.latitude <= 90.0 && -180.0 <= loc.longitude <= 180.0
  }

  lemma DefaultLocationIsValid()
    ensures ValidCoordinates(DEFAULT_LOCATION)
    ensures DEFAULT_LOCATION.latitude == 40.7128 && DEFAULT_LOCATION.longitude == -74.0060
  {
  }

  /**
   * Sunshine duration in seconds to hours rounded to one decimal; a missing
   * (null) duration counts as 0 seconds.
   */
  function SunshineHours(seconds: Option<real>): (hours: real)
    ensures seconds.None? ==> hours == 0.0
    ensures (hours * 10.0).Floor as real == hours * 10.0
    ensures seconds.Some? ==>
      hours - 0.05 <= seconds.value / SECONDS_PER_HOUR < hours + 0.05
  {
    RoundTenth(seconds.GetOr(0.0) / SECONDS_PER_HOUR)
  }

  lemma SunshineHoursExamples()
    ensures SunshineHours(Some(36000.0)) == 10.0
    ensures SunshineHours(None) == 0.0
    ensures SunshineHours(Some(0.0)) == 0.0
  {
    RoundOfInteger(100);
  }

  /** A day's worth of seconds, or less, converts to between 0 and 24 hours. */
  lemma SunshineHoursWithinDay(seconds: real)
    requires 0.0 <= seconds <= 86400.0
    ensures 0.0 <= SunshineHours(Some(seconds)) <= 24.0
  {
    RoundWithin(seconds / SECONDS_PER_HOUR * 10.0, 0, 240);
  }

  /** More sunshine seconds never give fewer hours. */
  lemma SunshineHoursMonotone(s1: real, s2: real)
    requires s1 <= s2
    ensures SunshineHours(Some(s1)) <= SunshineHours(Some(s2))
  {
    RoundTenthMonotone(s1 / SECONDS_PER_HOUR, s2 / SECONDS_PER_HOUR);
  }

  /**
   * The sunshine duration for day offset i. An index past the end of the
   * array reads as undefined, which `|| 0` turns into 0 seconds, as a null does.
   */
  function SunshineAt(r: DailyResponse, i: nat): (seconds: Option<real>)
    ensures i >= |r.sunshineDuration| ==> seconds.None?
    ensures i < |r.sunshineDuration| ==> seconds == r.sunshineDuration[i]
  {
    if i < |r.sunshineDuration| then r.sunshineDuration[i] else None
  }

  /**
   * The temperature and cloud-cover arrays have an entry for each of the
   * first n days. The sunshine array may be shorter: a missing entry is 0.
   */
  predicate CoversDays(r: DailyResponse, n: nat) {
    |r.temperatureMean| >= n && |r.cloudCoverMean| >= n
  }

  /** The record for day offset i, dated by the response's own time array. */
  function DayAt(r: DailyResponse, i: nat): (day: WeatherDay)
    requires i < |r.time| && CoversDays(r, i + 1)
    ensures day.date == r.time[i]
    ensures day.temperature == r.temperatureMean[i]
    ensures day.cloudCover == r.cloudCoverMean[i]
    ensures day.sunshineHours == SunshineHours(SunshineAt(r, i))
    ensures i >= |r.sunshineDuration| ==> day.sunshineHours == 0.0
  {
    WeatherDay(r.time[i], r.temperatureMean[i], r.cloudCoverMean[i], SunshineHours(SunshineAt(r, i)))
  }

  /**
   * fetchTodayWeather: today's record from a one-day response, dated with the
   * requested day rather than the response's time array.
   */
  function FetchTodayWeather(today: string, response: Option<DailyResponse>): (r: Result<WeatherDay, FetchError>)
    ensures response.None? ==> r == Err(NetworkError)
    ensures response.Some? ==> (r.Ok? <==> CoversDays(response.value, 1))
    ensures r.Ok? ==>
      && r.value.date == today
      && r.value.temperature == response.value.temperatureMean[0]
      && r.value.cloudCover == response.value.cloudCoverMean[0]
      && r.value.sunshineHours == SunshineHours(SunshineAt(response.value, 0))
  {
    match response
    case None => Err(NetworkError)
    case Some(d) =>
      if !CoversDays(d, 1) then Err(MalformedResponse)
      else Ok(WeatherDay(today, d.temperatureMean[0], d.cloudCoverMean[0], SunshineHours(SunshineAt(d, 0))))
  }

  /** The forecast series a well-formed response describes: one record per entry of time. */
  function ForecastDays(r: DailyResponse): (days: seq<WeatherDay>)
    requires CoversDays(r, |r.time|)
    ensures |days| == |r.time|
    ensures forall i :: 0 <= i < |days| ==>
      && days[i].date == r.time[i]
      && days[i].temperature == r.temperatureMean[i]
      && days[i].cloudCover == r.cloudCoverMean[i]
      && days[i].sunshineHours == SunshineHours(SunshineAt(r, i))
  {
    seq(|r.time|, i requires 0 <= i < |r.time| => DayAt(r, i))
  }

  /** The loop of fetch5DayForecast that zips the parallel arrays into records. */
  method ZipDays(r: DailyResponse) returns (result: seq<WeatherDay>)
    requires CoversDays(r, |r.time|)
    ensures |result| == |r.time|
    ensures forall i :: 0 <= i < |result| ==>
      && result[i].date == r.time[i]
      && result[i].temperature == r.temperatureMean[i]
      && result[i].cloudCover == r.cloudCoverMean[i]
      && result[i].sunshineHours == SunshineHours(SunshineAt(r, i))
    ensures result == ForecastDays(r)
  {
    var days := |r.time|;
    result := [];
    var i := 0;
    while i < days
      invariant 0 <= i <= days
      invariant |result| == i
      invariant forall k :: 0 <= k < i ==> result[k] == DayAt(r, k)
    {
      var seconds := if i < |r.sunshineDuration| then r.sunshineDuration[i] else None;
      result := result + [WeatherDay(r.time[i], r.temperatureMean[i], r.cloudCoverMean[i],
                                     SunshineHours(seconds))];
      i := i + 1;
    }
  }

  /** fetch5DayForecast once the request has been answered (or has failed). */
  method Fetch5DayForecast(response: Option<DailyResponse>) returns (r: Result<seq<WeatherDay>, FetchError>)
    ensures response.None? ==> r == Err(NetworkError)
    ensures response.Some? ==> (r.Ok? <==> CoversDays(response.value, |response.value.time|))
    ensures r.Ok? ==> r.value == ForecastDays(response.value)
  {
    match response {
      case None =>
        r := Err(NetworkError);
      case Some(d) =>
        if !CoversDays(d, |d.time|) {
          r := Err(MalformedResponse);
        } else {
          var days := ZipDays(d);
          r := Ok(days);
        }
    }
  }
}
