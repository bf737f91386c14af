/**
 * SolarDashboard: today's record and its analysis, the optional energy
 * estimate, and the capacity field with its input filter and persistence
 * under "solar_kw_capacity".
 */
module SolarDashboard {
  import opened Wrappers
  import opened Numeric
  import opened WeatherService
  import opened SolarAnalysis
  import opened Energy
  import opened LocalStorage
  import ForecastCard

  /** `data[data.length - 1]`, the newest record, or nothing for an empty series. */
  function Today(data: seq<WeatherDay>): (today: Option<WeatherDay>)
    ensures today.None? <==> data == []
    ensures today.Some? ==> today.value == data[|data| - 1]
  {
    if |data| > 0 then Some(data[|data| - 1]) else None
  }

  function TodayAnalysis(data: seq<WeatherDay>): (a: Option<Analysis>)
    ensures a.None? <==> data == []
    ensures a.Some? ==> a.value == Analyze(data[|data| - 1])
  {
    match Today(data)
    case None => None
    case Some(day) => Some(Analyze(day))
  }

  /**
   * The dashboard's energy estimate: present only for a day and a non-empty,
   * numeric capacity; no zero stands in for a missing one.
   */
  function EnergyEstimate(kw: string, today: Option<WeatherDay>): (e: Option<real>)
    ensures e.Some? <==> today.Some? && kw != "" && ParseCapacity(kw).Some?
    ensures e.Some? ==> e.value == DayEstimate(ParseCapacity(kw).value, today.value)
  {
    if today.Some? && kw != "" && ParseCapacity(kw).Some? then
      Some(DayEstimate(ParseCapacity(kw).value, today.value))
    else None
  }

  lemma EnergyEstimateExamples(day: WeatherDay)
    requires day.sunshineHours == 10.0
    ensures day.cloudCover == 0.0 ==> EnergyEstimate("5", Some(day)) == Some(50.0)
    ensures day.cloudCover == 100.0 ==> EnergyEstimate("5", Some(day)) == Some(7.5)
    ensures EnergyEstimate(".", Some(day)) == None && IsCapacityText(".")
    ensures EnergyEstimate("", Some(day)) == None
    ensures EnergyEstimate("5", None) == None
  {
    ParseCapacityExamples();
    DayEstimateExamples();
    assert day.cloudCover == 0.0 ==> day == WeatherDay(day.date, day.temperature, 0.0, 10.0);
    RoundOfInteger(500);
    RoundOfInteger(75);
  }

  /**
   * The cards the dashboard shows for the forecast, with its own cloud-factor
   * function or with the card's default, carry the same estimate the
   * dashboard would compute for that day.
   */
  lemma ForecastEstimatesMatchDashboard(forecast: seq<WeatherDay>, kw: string, useDefault: bool)
    requires forecast != []
    ensures var factor := if useDefault then ForecastCard.DefaultCloudCoverFactor else CloudCoverFactor;
      var p := ForecastCard.RenderForecast(forecast, false, kw, factor);
      p.Cards? && |p.cards| == |forecast| &&
      forall i :: 0 <= i < |forecast| ==> p.cards[i].estimate == EnergyEstimate(kw, Some(forecast[i]))
  {
    var factor := if useDefault then ForecastCard.DefaultCloudCoverFactor else CloudCoverFactor;
    var p := ForecastCard.RenderForecast(forecast, false, kw, factor);
    forall i | 0 <= i < |forecast|
      ensures p.cards[i].estimate == EnergyEstimate(kw, Some(forecast[i]))
    {
      assert factor(forecast[i].cloudCover, MIN_CLOUD_FACTOR) == CloudCoverFactor(forecast[i].cloudCover, MIN_CLOUD_FACTOR);
    }
  }

  /** `localStorage.getItem("solar_kw_capacity") || ""`. */
  function StoredCapacity(entries: map<Key, Stored>): (kw: string)
    ensures Capacity in entries && entries[Capacity].Text? ==> kw == entries[Capacity].raw
    ensures !(Capacity in entries && entries[Capacity].Text?) ==> kw == ""
  {
    match GetItem(entries, Capacity)
    case Some(Text(raw)) => raw
    case _ => ""
  }

  /** The capacity field's state, over the shared store. */
  class CapacityInput {
    const store: Store
    var kw: string

    constructor (store: Store)
      ensures this.store == store && kw == StoredCapacity(store.entries)
    {
      this.store := store;
      kw := StoredCapacity(store.entries);
    }

    /** The persistence effect: store a non-empty kw, remove the key for an empty one. */
    method PersistEffect()
      modifies store
      ensures kw != "" ==> store.entries == old(store.entries)[Capacity := Text(kw)]
      ensures kw == "" ==> store.entries == old(store.entries) - {Capacity}
      ensures StoredCapacity(store.entries) == kw
    {
      if kw != "" {
        store.SetItem(Capacity, Text(kw));
      } else {
        store.RemoveItem(Capacity);
      }
    }

    /** The field's change handler: accept text matching /^\d*\.?\d*$/, ignore the rest. */
    method OnInput(text: string) returns (accepted: bool)
      modifies this, store
      ensures accepted <==> IsCapacityText(text)
      ensures accepted ==> kw == text && StoredCapacity(store.entries) == text
      ensures accepted && text != "" ==> store.entries == old(store.entries)[Capacity := Text(text)]
      ensures accepted && text == "" ==> store.entries == old(store.entries) - {Capacity}
      ensures !accepted ==> kw == old(kw) && store.entries == old(store.entries)
    {
      accepted := IsCapacityText(text);
      if accepted {
        kw := text;
        PersistEffect();
      }
    }
  }
}
