# Solar Forecast Dashboard — a Dafny model of its derivation layer

This project models the logic inside the solar dashboard: the solar-potential score and its
label, the cloud-cover factor with its floor, the kWh estimate rounded to one decimal, the
capacity field's input filter and persistence, the recent-locations list (at most five, most
recent first, no repeats), the per-coordinate weather cache with its fallbacks, the merge of
today's record into the cached series, and the normalisation of the weather provider's daily
response into per-day records.

Numbers are exact `real`s. JavaScript's `Math.round(x)` is `Floor(x + 0.5)`, which rounds
halves upwards as `Math.round` does. ISO dates are strings compared character by character,
which is what `localeCompare` amounts to on `YYYY-MM-DD`.

The browser's `localStorage` is one shared object, `LocalStorage.Store`, whose entries the
components' methods rewrite. Its keys are a datatype: the weather-series key holds the two
coordinates and nothing else. Its values are either raw text or the structured value that
`JSON.stringify` wrote. A read that finds no entry or an empty string is `Missing`. A read that
finds an entry of another kind is `Corrupt`. Both fall back to the documented default.

Each piece of component state is a class: `UseWeatherData.WeatherHook`,
`LocationInput.LocationPicker` and `SolarDashboard.CapacityInput`. Each effect body and event
handler is a method on that class. Network answers are parameters: the decoded response, or
`None` for a failed request. The clock is a parameter too: today's ISO date.

Modules, one per source file: `WeatherService`, `SolarAnalysis`, `SolarDashboard`,
`ForecastCard`, `LocationInput`, `UseWeatherData`. Beside them: `Energy`, the estimator that
`SolarDashboard.tsx` and `ForecastCard.tsx` both compute; `DateOrder`, the comparator and the
sort; `LocalStorage`; `Numeric`; `Wrappers`.

Details of the code that the model keeps, although they may surprise:
- The default location is named "New York", not "New York City".
- A successful fetch does not clear an earlier error message.
- The search results are not capped by the client. The cap of 5 is a request parameter that
  the provider honours.

## Model

| member | source | states |
|---|---|---|
| Numeric.Round | src/solar/SolarAnalysis.ts:9 | `Math.round` lands within half a unit of its argument |
| Numeric.RoundTenth | src/solar/SolarDashboard.tsx:45-50 | `Math.round(x*10)/10` is within 0.05 of x and has one decimal |
| WeatherService.DefaultLocationIsValid | src/solar/WeatherService.ts:19-25 | DEFAULT_LOCATION is at 40.7128, -74.0060, inside [-90,90] x [-180,180] |
| WeatherService.SunshineHours | src/solar/WeatherService.ts:39 | seconds become hours with one decimal, within 0.05 of seconds/3600; a null duration gives 0 |
| WeatherService.SunshineHoursExamples | src/solar/WeatherService.ts:39 | 36000 s gives 10.0 h; null gives 0 |
| WeatherService.SunshineHoursWithinDay | src/solar/WeatherService.ts:61 | any duration in [0, 86400] s gives hours in [0, 24] |
| WeatherService.SunshineHoursMonotone | src/solar/WeatherService.ts:61 | more sunshine seconds never give fewer hours |
| WeatherService.SunshineAt | src/solar/WeatherService.ts:61 | an index past the end of the sunshine array reads like a null duration |
| WeatherService.DayAt | src/solar/WeatherService.ts:57-62 | record i takes time[i], temperature[i], cloud cover[i] and the converted sunshine_duration[i]; a missing sunshine entry gives 0 h |
| WeatherService.FetchTodayWeather | src/solar/WeatherService.ts:27-41 | a failed request or a missing temperature or cloud-cover entry is an error; otherwise today's record is dated today and takes index 0 of each array, with 0 h when sunshine is missing |
| WeatherService.ForecastDays | src/solar/WeatherService.ts:54-64 | one record per entry of time, in order; record i takes time[i], temperature[i], cloud cover[i] and converted sunshine[i], 0 h when missing |
| WeatherService.ZipDays | src/solar/WeatherService.ts:54-64 | the loop yields time.length records; record i takes time[i], temperature[i], cloud cover[i] and converted sunshine[i] |
| WeatherService.Fetch5DayForecast | src/solar/WeatherService.ts:44-65 | a failed or malformed response is an error; otherwise the zipped series |
| SolarAnalysis.Analyze | src/solar/SolarAnalysis.ts:4-17 | the result carries the score formula's value and that score's label |
| SolarAnalysis.Score | src/solar/SolarAnalysis.ts:5-9 | for sunshine >= 0 and cloud cover in [0,100], 0 <= score <= 100 |
| SolarAnalysis.SunshineSaturates | src/solar/SolarAnalysis.ts:6-7 | from 14 h on, the score depends on cloud cover only |
| SolarAnalysis.ScoreExtremes | src/solar/SolarAnalysis.ts:7-14 | 14 h with no cloud gives 100, Excellent; 0 h with full cloud gives 0, Low |
| SolarAnalysis.ScoreMonotoneInSunshine | src/solar/SolarAnalysis.ts:7-9 | the score is non-decreasing in sunshine hours |
| SolarAnalysis.ScoreAntitoneInCloudCover | src/solar/SolarAnalysis.ts:8-9 | the score is non-increasing in cloud cover |
| SolarAnalysis.LabelOf | src/solar/SolarAnalysis.ts:11-14 | Excellent iff > 70, Good iff in (50,70], Moderate iff in (30,50], Low iff <= 30 |
| SolarAnalysis.LabelBoundaries | src/solar/SolarAnalysis.ts:11-14 | 71/70, 51/50 and 31/30 fall on either side of a threshold |
| SolarAnalysis.LabelMonotone | src/solar/SolarAnalysis.ts:11-14 | a higher score never gets a lower label |
| Energy.CloudCoverFactor | src/solar/SolarDashboard.tsx:11-15 | the factor is the linear reduction or the floor, whichever is larger, so never below the floor |
| Energy.CloudCoverFactorRange | src/solar/SolarDashboard.tsx:10-14 | for cloud cover in [0,100] and a floor in [0,1], the factor lies in [floor, 1] |
| Energy.CloudCoverFactorAntitone | src/solar/SolarDashboard.tsx:13-14 | the factor is non-increasing in cloud cover |
| Energy.CloudCoverFactorExamples | src/solar/SolarDashboard.tsx:44 | full cloud gives the 0.15 floor; no cloud gives 1 |
| Energy.CapacityTextIff | src/solar/SolarDashboard.tsx:113 | /^\d*\.?\d*$/ admits exactly the texts made of digits and dots with at most one dot |
| Energy.DigitsValueConcat | src/solar/SolarDashboard.tsx:43 | the value of a digit string is the value of its head shifted by the tail's length plus the tail's value |
| Energy.SplitsAsNumberIff | src/solar/SolarDashboard.tsx:43 | digits on both sides of the first dot and at least one digit in all holds iff the filter admits the text and it holds a digit |
| Energy.ParseCapacity | src/solar/SolarDashboard.tsx:43 | the capacity text is a number iff it passes the input filter and holds a digit; the number is its digits read without the dot, divided by ten per digit after the dot, so non-negative |
| Energy.ParseCapacityExamples | src/solar/SolarDashboard.tsx:43 | "5" is 5; "." and "" pass the filter but are not numbers; "1.2.3", "5kW" fail the filter |
| Energy.ParseReads | src/solar/SolarDashboard.tsx:43 | a text that splits as a number reads as its unpointed digits over the power of ten |
| Energy.ParseCapacityDecimal | src/solar/SolarDashboard.tsx:43 | "2.5" is 2.5 |
| Energy.ParseCapacityLongDecimal | src/solar/SolarDashboard.tsx:43 | "12.75" is 12.75 |
| Energy.ParseCapacityZeros | src/solar/SolarDashboard.tsx:43 | "07.50" is 7.5: leading and trailing zeros do not count |
| Energy.ParseCapacityNoWhole | src/solar/SolarDashboard.tsx:43 | "." followed by digits f is f over ten to the length of f, as ".5" is 0.5 |
| Energy.ParseCapacityNoFraction | src/solar/SolarDashboard.tsx:43 | digits w followed by "." read as w, as "7." is 7 |
| Energy.EstimateKwh | src/solar/SolarDashboard.tsx:45-50 | the estimate has one decimal and is within 0.05 of kw x hours x factor |
| Energy.DayEstimate | src/solar/SolarDashboard.tsx:44-50 | as EstimateKwh, with the day's own hours and its floored cloud factor |
| Energy.DayEstimateExamples | src/solar/SolarDashboard.tsx:44-50 | 5 kW with 10 h gives 50.0 under no cloud and 7.5 under full cloud |
| Energy.EstimateKwhMonotone | src/solar/SolarDashboard.tsx:45-50 | the estimate is non-decreasing in capacity, hours and factor |
| Energy.DayEstimateMonotone | src/solar/SolarDashboard.tsx:44-50 | the estimate is non-decreasing in capacity and sunshine and non-increasing in cloud cover |
| SolarDashboard.Today | src/solar/SolarDashboard.tsx:38 | today is the last record, or none for an empty series |
| SolarDashboard.TodayAnalysis | src/solar/SolarDashboard.tsx:38-39 | an analysis exists iff there is data, and it is the last record's |
| SolarDashboard.EnergyEstimate | src/solar/SolarDashboard.tsx:42-51 | an estimate exists iff there is a today and kw is non-empty and numeric; no zero is substituted |
| SolarDashboard.EnergyEstimateExamples | src/solar/SolarDashboard.tsx:42-51 | "5" with 10 h gives 50.0 or 7.5; "." and "" give no estimate; no today gives none |
| SolarDashboard.ForecastEstimatesMatchDashboard | src/solar/SolarDashboard.tsx:151 | with the dashboard's factor or the card's default, each card's estimate equals the dashboard's estimate for that day |
| SolarDashboard.StoredCapacity | src/solar/SolarDashboard.tsx:21-26 | the initial kw is the stored text, or "" when absent |
| SolarDashboard.CapacityInput.constructor | src/solar/SolarDashboard.tsx:21-26 | the field starts from the stored capacity |
| SolarDashboard.CapacityInput.PersistEffect | src/solar/SolarDashboard.tsx:28-36 | a non-empty kw is stored under the capacity key; an empty kw removes the key; reading back gives kw |
| SolarDashboard.CapacityInput.OnInput | src/solar/SolarDashboard.tsx:110-114 | text passing /^\d*\.?\d*$/ becomes kw and is persisted; other text changes nothing |
| ForecastCard.DefaultCloudCoverFactor | src/solar/ForecastCard.tsx:8 | the default prop equals the dashboard's cloud factor, floor 0.15 |
| ForecastCard.CardEstimate | src/solar/ForecastCard.tsx:36-45 | a day has an estimate iff kw is non-empty and numeric; it uses that day's hours and cloud cover |
| ForecastCard.RenderForecast | src/solar/ForecastCard.tsx:15-45 | loading shows no values; an empty forecast shows nothing; otherwise one card per day in forecast order |
| LocalStorage.SeriesKey | src/solar/useWeatherData.ts:10 | the cache key is built from latitude and longitude only |
| LocalStorage.SeriesKeyShared | src/solar/useWeatherData.ts:10-19 | two places share a cache entry iff their coordinates agree, whatever their names |
| UseWeatherData.LoadStoredData | src/solar/useWeatherData.ts:8-16 | the stored series, or [] when the key is missing or unreadable |
| UseWeatherData.SaveStoredData | src/solar/useWeatherData.ts:18-20 | the series key's entry is overwritten and nothing else changes |
| UseWeatherData.SaveThenLoadSeries | src/solar/useWeatherData.ts:8-20 | save then load, for any place with those coordinates, returns the series |
| UseWeatherData.SaveKeepsOtherSeries | src/solar/useWeatherData.ts:10-19 | saving leaves every other coordinate's series as it was |
| UseWeatherData.LoadStoredLocation | src/solar/useWeatherData.ts:22-30 | the stored location, or DEFAULT_LOCATION when missing or unreadable |
| UseWeatherData.SaveStoredLocation | src/solar/useWeatherData.ts:32-34 | the last-location entry is overwritten |
| UseWeatherData.SaveThenLoadLocation | src/solar/useWeatherData.ts:22-34 | save then load returns the location |
| UseWeatherData.FindByDate | src/solar/useWeatherData.ts:50 | finds a record iff some record carries that date, and the record has it |
| UseWeatherData.MergeToday | src/solar/useWeatherData.ts:54 | the merge is a permutation of stored plus today, one longer, sorted by date |
| UseWeatherData.MergeTodayUnique | src/solar/useWeatherData.ts:50-54 | the merge keeps dates unique when today was absent from the stored series |
| UseWeatherData.WeatherHook.constructor | src/solar/useWeatherData.ts:36-42 | the hook starts at the persisted location with nothing loaded and no error |
| UseWeatherData.WeatherHook.SetLocation | src/solar/useWeatherData.ts:37 | setLocation replaces the current location and leaves the rest of the hook's state alone |
| UseWeatherData.WeatherHook.LoadDataEffect | src/solar/useWeatherData.ts:45-62 | shows the cached series; fetches iff no record is dated today; on success shows and caches the merge; on failure keeps the series and cache and sets the error |
| UseWeatherData.WeatherHook.SaveLocationEffect | src/solar/useWeatherData.ts:65-67 | the current location is persisted |
| UseWeatherData.WeatherHook.ForecastEffect | src/solar/useWeatherData.ts:70-76 | the forecast is replaced by the zipped series, or kept with the error set; loading ends |
| DateOrder.DateLeq | src/solar/useWeatherData.ts:54 | the comparator is the lexicographic order on characters: a prefix, or smaller at the first difference |
| DateOrder.DateLeqTotal | src/solar/useWeatherData.ts:54 | any two dates are comparable |
| DateOrder.DateLeqTransitive | src/solar/useWeatherData.ts:54 | the date order is transitive |
| DateOrder.DateLeqAntisymmetric | src/solar/useWeatherData.ts:54 | dates that sort both ways are equal |
| DateOrder.SortByDate | src/solar/useWeatherData.ts:54 | the sort is a permutation of its input |
| DateOrder.SortByDateSorted | src/solar/useWeatherData.ts:54 | the sort's output is ascending by date |
| DateOrder.InsertUnique | src/solar/useWeatherData.ts:50-54 | inserting a record whose date is new keeps dates unique |
| DateOrder.SortByDateUnique | src/solar/useWeatherData.ts:54 | sorting keeps dates unique |
| LocationInput.LocationsEqualIsEquality | src/solar/LocationInput.tsx:19-27 | locationsEqual holds iff all five fields agree; it is reflexive and symmetric |
| LocationInput.Without | src/solar/LocationInput.tsx:60 | the filter keeps exactly the entries other than the value |
| LocationInput.WithoutCounts | src/solar/LocationInput.tsx:60 | every other entry keeps all its copies, the value keeps none, and the length drops by its number of copies |
| LocationInput.WithoutIsSubsequence | src/solar/LocationInput.tsx:60 | the filter keeps the survivors in their old order |
| LocationInput.RecordRecent | src/solar/LocationInput.tsx:60-61 | the new list starts with the value, has no other copy of it, and is as long as the survivors plus one, capped at 5 |
| LocationInput.RecordRecentKeepsOrder | src/solar/LocationInput.tsx:60-61 | the tail is the earliest survivors in their old order; a list without repeats stays without repeats |
| LocationInput.ReselectMovesToFront | src/solar/LocationInput.tsx:60-61 | re-selecting a listed entry moves it to the front without growing the list |
| LocationInput.NewLocationPushesOldest | src/solar/LocationInput.tsx:60-61 | a new entry goes in front; with five listed, the oldest drops out |
| LocationInput.LoadRecentLocations | src/solar/LocationInput.tsx:29-37 | the stored list, or [] when the key is missing or unreadable |
| LocationInput.SaveThenLoadRecent | src/solar/LocationInput.tsx:29-41 | save then load returns the list |
| LocationInput.SearchResults | src/solar/LocationInput.tsx:76-91 | a failed search or one without results gives []; otherwise one location per result in provider order, other fields dropped |
| LocationInput.SelectionLabel | src/solar/LocationInput.tsx:105-108 | "name, admin1, country", with admin1 only when non-empty |
| LocationInput.LocationPicker.constructor | src/solar/LocationInput.tsx:44-47 | empty query, no results, not loading, no recents |
| LocationInput.LocationPicker.MountEffect | src/solar/LocationInput.tsx:51-53 | the recent list is read from storage |
| LocationInput.LocationPicker.ValueEffect | src/solar/LocationInput.tsx:56-66 | a selected value is recorded; the stored list equals the new list |
| LocationInput.LocationPicker.SearchLocations | src/solar/LocationInput.tsx:68-93 | results become the normalised answer, never an error; loading ends |
| LocationInput.LocationPicker.HandleInput | src/solar/LocationInput.tsx:95-103 | a search runs iff the query has at least 2 characters; otherwise results are cleared |
| LocationInput.LocationPicker.HandleSelect | src/solar/LocationInput.tsx:105-111 | the query shows the place's label, results close, the place is handed on |
| LocationInput.LocationPicker.HandleClear | src/solar/LocationInput.tsx:113-119 | query and results are cleared |

## Left out

- Network requests are not modelled: the geocoding `fetch` and the weather `axios.get`, with their URLs and query parameters. Each answer is a parameter: the decoded body, or `None` for a transport or parse failure.
- `dayjs()` and the date arithmetic for the forecast window are not modelled. Today's ISO date is a parameter, and the window is a property of the request only.
- Text serialisation is not modelled. Keys are a datatype, because there is no injective map from reals to strings. Stored values are the structured values `JSON.stringify` received. As a result the key spelling `"solar_weather_data_" + lat + "_" + lon` is not modelled; the model assumes that JavaScript's number-to-text conversion keeps distinct coordinates distinct.
- UseWeatherData.LoadStoredData: a stored value that parses as JSON but has the wrong shape counts as unreadable and gives []. The source returns whatever `JSON.parse` produced. LoadStoredLocation and LoadRecentLocations work the same way.
- SolarDashboard.StoredCapacity: a structured entry under the capacity key reads as "". The application itself only ever stores text there.
- WeatherService.FetchTodayWeather: a response whose temperature or cloud-cover array is too short is an error. The source would instead build a record whose temperature or cloud cover is undefined. A short or empty sunshine array gives 0 hours, as in the source. Fetch5DayForecast works the same way for arrays shorter than `time`. A missing field makes the source throw, and the caller then sets its error. `fetchTodayWeather` throws when the response has no `daily`, or no temperature, cloud-cover or sunshine array; it never reads `time`. `fetch5DayForecast` throws when the response has no `daily` or no `time`. It throws on a missing temperature, cloud-cover or sunshine array only when `time` is non-empty, because it reads those arrays only inside its loop. The model has no absent array and can only represent such an answer as `None`.
- WeatherService.FetchTodayWeather and WeatherService.Fetch5DayForecast: temperature and cloud-cover entries of the response are plain numbers, so a null entry cannot be represented. The source copies a null into the record. JavaScript arithmetic then reads a null cloud cover as 0%, which earns the full 30 cloud points in the score (`src/solar/SolarAnalysis.ts` line 8) and a cloud factor of 1 (`src/solar/SolarDashboard.tsx` line 13).
- Energy.ParseCapacity: the model covers `Number(kw)` only on the unsigned decimals that the input filter admits. Signs, exponents, surrounding white space and hexadecimal could only come from a hand-edited store, and they read as not numeric.
- React scheduling is not modelled: effect order, re-running the data and forecast effects when the coordinates change, and re-renders. Each effect body is a method that the caller invokes.
- Answers arrive within the same step: UseWeatherData.WeatherHook.LoadDataEffect, UseWeatherData.WeatherHook.ForecastEffect, LocationInput.LocationPicker.SearchLocations and LocationInput.LocationPicker.HandleInput return with the answer applied and `loading` or `forecastLoading` false again. In the source they return while still loading, with the old or empty results, and the answer lands later. Races between overlapping requests are not modelled: fetches for different locations, and search answers to successive keystrokes arriving out of order, so that an older query's results overwrite a newer one's.
- UseWeatherData.WeatherHook.LoadDataEffect: storage writes are assumed to succeed; LocalStorage.Store.SetItem cannot fail. In the source `localStorage.setItem` throws when the quota is exceeded or storage is disabled. In the data effect the write runs after `setData(updated)` inside `.then`, so the throw is caught by `.catch` (`src/solar/useWeatherData.ts` lines 54-58). The source then shows the merged series, leaves the cache unchanged and sets "Failed to fetch weather data"; the model's success case cannot reach that state. The other writers let the throw escape uncaught: SolarDashboard.CapacityInput.PersistEffect (`src/solar/SolarDashboard.tsx` line 31), the updater in LocationInput.LocationPicker.ValueEffect (`src/solar/LocationInput.tsx` line 62) and UseWeatherData.WeatherHook.SaveLocationEffect (`src/solar/useWeatherData.ts` line 66).
- UseWeatherData.WeatherHook.LoadDataEffect reads the clock once: the same `today` is checked against the cache and dates the fetched record. The source reads it twice (`src/solar/useWeatherData.ts` line 49 and `src/solar/WeatherService.ts` line 31), so if midnight passes between the two reads the merged record can carry a date other than the one checked, and a date already in the cache can be appended a second time. UseWeatherData.MergeTodayUnique's premise relies on the single reading.
- LocationInput.LocationPicker.HandleInput compares the length of a sequence of characters, where JavaScript counts UTF-16 code units.
- `src/solar/SolarChart.tsx`, all JSX, styling and focus handling are left out.
- IEEE-754 doubles are not modelled. Arithmetic is exact, so rounding artefacts of binary floating point do not appear. NaN, -0 and `undefined` fields are not modelled either.
