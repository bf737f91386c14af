/**
 * The browser's localStorage as the dashboard uses it: one shared store of
 * entries, written with setItem/removeItem and read with getItem.
 *
 * Keys: the weather series of a coordinate (spelled
 * "solar_weather_data_<latitude>_<longitude>"), "solar_weather_location",
 * "solar_recent_locations" and "solar_kw_capacity". A key is a datatype
 * rather than its spelling; what matters is that the series key is built
 * from the two coordinates and nothing else.
 *
 * Values: either raw text (the capacity string is stored as typed) or the
 * structured value that JSON.stringify serialised, which JSON.parse gives
 * back unchanged. A reader that finds no entry, an empty string, or an entry
 * of another kind falls back to its default.
 */
module LocalStorage {
  import opened Wrappers
  import opened WeatherService

  datatype Key =
    | WeatherSeries(latitude: real, longitude: real)
    | LastLocation
    | RecentLocations
    | Capacity

  datatype Stored =
    | Text(raw: string)
    | SeriesJson(days: seq<WeatherDay>)
    | LocationJson(location: Location)
    | LocationListJson(locations: seq<Location>)

  /**
   * What a `try { raw = getItem(k); if (!raw) ...; JSON.parse(raw) } catch`
   * block finds: a value, nothing (null or ""), or something it cannot use.
   */
  datatype ReadOutcome<T> = Found(value: T) | Missing | Corrupt {
    function OrDefault(default: T): (r: T)
      ensures Found? ==> r == value
      ensures !Found? ==> r == default
    {
      if Found? then value else default
    }
  }

  /** getItem: the entry under k, or None (null) when there is none. */
  function GetItem(entries: map<Key, Stored>, k: Key): (r: Option<Stored>)
    ensures r.Some? <==> k in entries
    ensures r.Some? ==> r.value == entries[k]
  {
    if k in entries then Some(entries[k]) else None
  }

  /** The weather series key: the coordinates only, never the place's name. */
  function SeriesKey(loc: Location): (k: Key)
    ensures k.WeatherSeries? && k.latitude == loc.latitude && k.longitude == loc.longitude
  {
    WeatherSeries(loc.latitude, loc.longitude)
  }

  /** Two places share a cache entry exactly when their coordinates agree. */
  lemma SeriesKeyShared(a: Location, b: Location)
    ensures SeriesKey(a) == SeriesKey(b) <==> a.latitude == b.latitude && a.longitude == b.longitude
  {
  }

  class Store {
    var entries: map<Key, Stored>

    constructor (initial: map<Key, Stored>)
      ensures entries == initial
    {
      entries := initial;
    }

    method SetItem(k: Key, v: Stored)
      modifies this
      ensures entries == old(entries)[k := v]
    {
      entries := entries[k := v];
    }

    method RemoveItem(k: Key)
      modifies this
      ensures entries == old(entries) - {k}
    {
      entries := entries - {k};
    }
  }
}
