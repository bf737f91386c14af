/**
 * ForecastCard: the five-day forecast panel. Per day it derives an optional
 * energy estimate from the capacity text, using the cloud-factor function it
 * is given (by default one equal to the dashboard's).
 */
module ForecastCard {
  import opened Wrappers
  import opened WeatherService
  import opened Energy

  /** The default value of the getCloudCoverFactor prop. */
  function DefaultCloudCoverFactor(cloudCover: real, minFactor: real := 0.15): (f: real)
    ensures f == CloudCoverFactor(cloudCover, minFactor)
  {
    var linear := 1.0 - cloudCover / 100.0;
    if linear >= minFactor then linear else minFactor
  }

  datatype DayCard = DayCard(day: WeatherDay, estimate: Option<real>)

  /** What the panel shows: a loading note, nothing, or one card per day. */
  datatype Panel = LoadingNote | NoPanel | Cards(cards: seq<DayCard>)

  /** A day's estimate: present only when kw is non-empty and numeric. */
  function CardEstimate(kw: string, day: WeatherDay, factor: (real, real) -> real): (e: Option<real>)
    ensures e.Some? <==> kw != "" && ParseCapacity(kw).Some?
    ensures e.Some? ==>
      e.value == EstimateKwh(ParseCapacity(kw).value, day.sunshineHours, factor(day.cloudCover, MIN_CLOUD_FACTOR))
  {
    if kw != "" && ParseCapacity(kw).Some? then
      Some(EstimateKwh(ParseCapacity(kw).value, day.sunshineHours, factor(day.cloudCover, MIN_CLOUD_FACTOR)))
    else None
  }

  function RenderForecast(forecast: seq<WeatherDay>, loading: bool, kw: string, factor: (real, real) -> real): (p: Panel)
    ensures loading ==> p == LoadingNote
    ensures !loading && forecast == [] ==> p == NoPanel
    ensures !loading && forecast != [] ==>
      && p.Cards?
      && |p.cards| == |forecast|
      && forall i :: 0 <= i < |forecast| ==>
           p.cards[i].day == forecast[i] && p.cards[i].estimate == CardEstimate(kw, forecast[i], factor)
  {
    if loading then LoadingNote
    else if forecast == [] then NoPanel
    else Cards(seq(|forecast|, i requires 0 <= i < |forecast| =>
                 DayCard(forecast[i], CardEstimate(kw, forecast[i], factor))))
  }
}
