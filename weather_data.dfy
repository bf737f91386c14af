/**
 * useWeatherData: the per-coordinate cache of daily weather, the persisted
 * last-used location, and the effect bodies that load a location's series,
 * fetch today's record when it is missing, and fetch the forecast.
 */
module UseWeatherData {
  import opened Wrappers
  import opened WeatherService
  import opened DateOrder
  import opened LocalStorage

  const FETCH_DATA_ERROR: string := "Failed to fetch weather data"
  const FETCH_FORECAST_ERROR: string := "Failed to fetch 5-day forecast"

  /** The cached series of loc's coordinates, or why there is none. */
  function ReadSeries(entries: map<Key, Stored>, loc: Location): ReadOutcome<seq<WeatherDay>> {
    match GetItem(entries, SeriesKey(loc))
    case None => Missing
    case Some(Text(raw)) => if raw == "" then Missing else Corrupt
    case Some(SeriesJson(days)) => Found(days)
    case Some(_) => Corrupt
  }

  /** loadStoredData: the cached series, or [] when it is missing or unreadable. */
  function LoadStoredData(entries: map<Key, Stored>, loc: Location): (days: seq<WeatherDay>)
    ensures SeriesKey(loc) in entries && entries[SeriesKey(loc)].SeriesJson? ==>
      days == entries[SeriesKey(loc)].days
    ensures !(SeriesKey(loc) in entries && entries[SeriesKey(loc)].SeriesJson?) ==> days == []
  {
    ReadSeries(entries, loc).OrDefault([])
  }

  /** saveStoredData: overwrite the series under loc's coordinates. */
  method SaveStoredData(store: Store, loc: Location, days: seq<WeatherDay>)
    modifies store
    ensures store.entries == old(store.entries)[SeriesKey(loc) := SeriesJson(days)]
  {
    store.SetItem(SeriesKey(loc), SeriesJson(days));
  }

  /** Saving a series and loading it back, for any place with the same coordinates, gives the series. */
  lemma SaveThenLoadSeries(entries: map<Key, Stored>, saved: Location, loaded: Location, days: seq<WeatherDay>)
    requires saved.latitude == loaded.latitude && saved.longitude == loaded.longitude
    ensures LoadStoredData(entries[SeriesKey(saved) := SeriesJson(days)], loaded) == days
  {
  }

  /** Saving a series leaves the series of every other coordinate as it was. */
  lemma SaveKeepsOtherSeries(entries: map<Key, Stored>, saved: Location, other: Location, days: seq<WeatherDay>)
    requires saved.latitude != other.latitude || saved.longitude != other.longitude
    ensures LoadStoredData(entries[SeriesKey(saved) := SeriesJson(days)], other) == LoadStoredData(entries, other)
  {
  }

  /** The last-used location as persisted, or why there is none. */
  function ReadLocation(entries: map<Key, Stored>): ReadOutcome<Location> {
    match GetItem(entries, LastLocation)
    case None => Missing
    case Some(Text(raw)) => if raw == "" then Missing else Corrupt
    case Some(LocationJson(loc)) => Found(loc)
    case Some(_) => Corrupt
  }

  /** loadStoredLocation: the persisted location, or DEFAULT_LOCATION. */
  function LoadStoredLocation(entries: map<Key, Stored>): (loc: Location)
    ensures LastLocation in entries && entries[LastLocation].LocationJson? ==>
      loc == entries[LastLocation].location
    ensures !(LastLocation in entries && entries[LastLocation].LocationJson?) ==> loc == DEFAULT_LOCATION
  {
    ReadLocation(entries).OrDefault(DEFAULT_LOCATION)
  }

  /** saveStoredLocation. */
  method SaveStoredLocation(store: Store, loc: Location)
    modifies store
    ensures store.entries == old(store.entries)[LastLocation := LocationJson(loc)]
  {
    store.SetItem(LastLocation, LocationJson(loc));
  }

  lemma SaveThenLoadLocation(entries: map<Key, Stored>, loc: Location)
    ensures LoadStoredLocation(entries[LastLocation := LocationJson(loc)]) == loc
  {
  }

  /** `stored.find(d => d.date === today)`: the first record of that date. */
  function FindByDate(s: seq<WeatherDay>, date: string): (r: Option<WeatherDay>)
    ensures r.Some? <==> HasDate(s, date)
    ensures r.Some? ==> r.value in s && r.value.date == date
  {
    if s == [] then None
    else if s[0].date == date then Some(s[0])
    else
      var r := FindByDate(s[1..], date);
      assert HasDate(s, date) ==> HasDate(s[1..], date) by {
        if HasDate(s, date) {
          var i :| 0 <= i < |s| && s[i].date == date;
          assert s[1..][i - 1] == s[i];
        }
      }
      HasDateInTail(s, date);
      r
  }

  /**
   * `[...stored, today].sort(by date)`: every stored record and today's, one
   * more than before, in ascending date order.
   */
  function MergeToday(stored: seq<WeatherDay>, today: WeatherDay): (merged: seq<WeatherDay>)
    ensures |merged| == |stored| + 1
    ensures multiset(merged) == multiset(stored) + multiset{today}
    ensures SortedByDate(merged)
  {
    SortByDateSorted(stored + [today]);
    SortByDate(stored + [today])
  }

  /**
   * The merge keeps dates unique when today's date was absent, which is the
   * only case in which the merge happens.
   */
  lemma MergeTodayUnique(stored: seq<WeatherDay>, today: WeatherDay)
    requires UniqueDates(stored) && !HasDate(stored, today.date)
    ensures UniqueDates(MergeToday(stored, today))
  {
    var all := stored + [today];
    assert UniqueDates(all) by {
      forall i, j | 0 <= i < j < |all| ensures all[i].date != all[j].date {
        if j == |stored| {
          assert all[i] == stored[i];
        } else {
          assert all[i] == stored[i] && all[j] == stored[j];
        }
      }
    }
    SortByDateUnique(all);
  }

  /** The state useWeatherData keeps, over the shared store. */
  class WeatherHook {
    const store: Store
    var location: Location
    var data: seq<WeatherDay>
    var forecast: seq<WeatherDay>
    var loading: bool
    var forecastLoading: bool
    var error: Option<string>

    /** The hook's initial state: the persisted location, nothing loaded. */
    constructor (store: Store)
      ensures this.store == store
      ensures location == LoadStoredLocation(store.entries)
      ensures data == [] && forecast == []
      ensures !loading && !forecastLoading && error == None
    {
      this.store := store;
      location := LoadStoredLocation(store.entries);
      data := [];
      forecast := [];
      loading := false;
      forecastLoading := false;
      error := None;
    }

    /**
     * setLocation, handed to the dashboard: the chosen place becomes the
     * current location. The effects that follow a change are separate calls.
     */
    method SetLocation(loc: Location)
      modifies this
      ensures location == loc
      ensures data == old(data) && forecast == old(forecast) && error == old(error)
      ensures loading == old(loading) && forecastLoading == old(forecastLoading)
    {
      location := loc;
    }

    /**
     * The data effect: show the cached series, and only if it has no record
     * for today fetch one, merge it in and cache the result. A failed fetch
     * sets the error and leaves the shown series and the cache alone.
     */
    method LoadDataEffect(today: string, response: Option<DailyResponse>) returns (fetched: bool)
      modifies this, store
      ensures location == old(location) && forecast == old(forecast)
      ensures forecastLoading == old(forecastLoading)
      ensures var stored := LoadStoredData(old(store.entries), location);
        && (fetched <==> !HasDate(stored, today))
        && (!fetched ==>
              data == stored && store.entries == old(store.entries)
              && loading == old(loading) && error == old(error))
        && (fetched ==> !loading)
        && (fetched && FetchTodayWeather(today, response).Ok? ==>
              var day := FetchTodayWeather(today, response).value;
              && data == MergeToday(stored, day)
              && store.entries == old(store.entries)[SeriesKey(location) := SeriesJson(data)]
              && error == old(error))
        && (fetched && FetchTodayWeather(today, response).Err? ==>
              && data == stored
              && store.entries == old(store.entries)
              && error == Some(FETCH_DATA_ERROR))
    {
      var stored := LoadStoredData(store.entries, location);
      data := stored;
      fetched := FindByDate(stored, today).None?;
      if fetched {
        loading := true;
        match FetchTodayWeather(today, response) {
          case Ok(day) =>
            var updated := MergeToday(stored, day);
            data := updated;
            SaveStoredData(store, location, updated);
          case Err(_) =>
            error := Some(FETCH_DATA_ERROR);
        }
        loading := false;
      }
    }

    /** The location effect: persist the current location. */
    method SaveLocationEffect()
      modifies store
      ensures store.entries == old(store.entries)[LastLocation := LocationJson(location)]
    {
      SaveStoredLocation(store, location);
    }

    /**
     * The forecast effect: replace the forecast wholesale, or on failure keep
     * it and set the error. The forecast is never cached.
     */
    method ForecastEffect(response: Option<DailyResponse>)
      modifies this
      ensures location == old(location) && data == old(data) && loading == old(loading)
      ensures !forecastLoading
      ensures response.Some? && CoversDays(response.value, |response.value.time|) ==>
        forecast == ForecastDays(response.value) && error == old(error)
      ensures !(response.Some? && CoversDays(response.value, |response.value.time|)) ==>
        forecast == old(forecast) && error == Some(FETCH_FORECAST_ERROR)
    {
      forecastLoading := true;
      var result := Fetch5DayForecast(response);
      match result {
        case Ok(days) =>
          forecast := days;
        case Err(_) =>
          error := Some(FETCH_FORECAST_ERROR);
      }
      forecastLoading := false;
    }
  }
}
