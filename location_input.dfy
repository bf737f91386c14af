/**
 * LocationInput: the location search box's state, and the list of recently
 * selected locations, at most five, most recent first, without repeats,
 * persisted under "solar_recent_locations". The geocoding request is not
 * modelled: its decoded response, or None when the request or its parsing
 * failed, is a parameter.
 */
module LocationInput {
  import opened Wrappers
  import opened WeatherService
  import opened LocalStorage

  const MAX_RECENT: nat := 5

  /** Searches start at this many characters. */
  const MIN_QUERY_LENGTH: nat := 2

  /** locationsEqual: all five fields agree. */
  predicate LocationsEqual(a: Location, b: Location) {
    && a.latitude == b.latitude
    && a.longitude == b.longitude
    && a.name == b.name
    && a.country == b.country
    && a.admin1 == b.admin1
  }

  /** The field-by-field test is exactly equality of locations. */
  lemma LocationsEqualIsEquality(a: Location, b: Location)
    ensures LocationsEqual(a, b) <==> a == b
    ensures LocationsEqual(a, a)
    ensures LocationsEqual(a, b) == LocationsEqual(b, a)
  {
  }

  /** `prev.filter(loc => !locationsEqual(loc, value))`. */
  function Without(prev: seq<Location>, value: Location): (r: seq<Location>)
    ensures |r| <= |prev|
    ensures forall x :: x in r <==> x in prev && x != value
  {
    if prev == [] then []
    else if LocationsEqual(prev[0], value) then Without(prev[1..], value)
    else [prev[0]] + Without(prev[1..], value)
  }

  /**
   * The filter keeps every copy of every other entry and drops every copy of
   * the value, so the list shrinks by the number of copies of the value.
   */
  lemma {:induction false} WithoutCounts(prev: seq<Location>, value: Location)
    ensures forall x :: x != value ==> multiset(Without(prev, value))[x] == multiset(prev)[x]
    ensures multiset(Without(prev, value))[value] == 0
    ensures |Without(prev, value)| == |prev| - multiset(prev)[value]
  {
    if prev != [] {
      WithoutCounts(prev[1..], value);
      assert prev == [prev[0]] + prev[1..];
    }
  }

  /** a occurs in b in the same relative order, possibly with gaps. */
  predicate IsSubsequence(a: seq<Location>, b: seq<Location>) {
    if a == [] then true
    else if b == [] then false
    else if a[0] == b[0] then IsSubsequence(a[1..], b[1..])
    else IsSubsequence(a, b[1..])
  }

  lemma {:induction false} PrefixOfSubsequence(a: seq<Location>, b: seq<Location>, n: nat)
    requires IsSubsequence(a, b) && n <= |a|
    ensures IsSubsequence(a[..n], b)
  {
    if n > 0 && b != [] {
      if a[0] == b[0] {
        PrefixOfSubsequence(a[1..], b[1..], n - 1);
        assert a[..n][1..] == a[1..][..n - 1];
      } else {
        PrefixOfSubsequence(a, b[1..], n);
      }
    }
  }

  /** Filtering keeps the survivors in their original order. */
  lemma {:induction false} WithoutIsSubsequence(prev: seq<Location>, value: Location)
    ensures IsSubsequence(Without(prev, value), prev)
  {
    if prev != [] {
      WithoutIsSubsequence(prev[1..], value);
      var rest := Without(prev[1..], value);
      if !LocationsEqual(prev[0], value) {
        assert ([prev[0]] + rest)[1..] == rest;
      } else {
        SubsequenceOfTail(rest, prev);
      }
    }
  }

  /** Adding an element in front of b keeps a a subsequence of it. */
  lemma {:induction false} SubsequenceOfTail(a: seq<Location>, b: seq<Location>)
    requires b != [] && IsSubsequence(a, b[1..])
    ensures IsSubsequence(a, b)
    decreases |b|, 1
  {
    if a != [] && a[0] == b[0] {
      SubsequenceWeaken(a, b[1..]);
    }
  }

  /** Dropping the first element of a keeps it a subsequence of b. */
  lemma {:induction false} SubsequenceWeaken(a: seq<Location>, b: seq<Location>)
    requires a != [] && IsSubsequence(a, b)
    ensures IsSubsequence(a[1..], b)
    decreases |b|, 2
  {
    if a[1..] != [] {
      if a[0] == b[0] {
        SubsequenceOfTail(a[1..], b);
      } else {
        SubsequenceWeaken(a, b[1..]);
        SubsequenceOfTail(a[1..], b);
      }
    }
  }

  /** Filtering out a value absent from the list changes nothing. */
  lemma {:induction false} WithoutAbsent(prev: seq<Location>, value: Location)
    requires value !in prev
    ensures Without(prev, value) == prev
  {
    if prev != [] {
      WithoutAbsent(prev[1..], value);
      assert prev == [prev[0]] + prev[1..];
    }
  }

  /** Filtering out a value that occurs exactly once removes one entry. */
  lemma {:induction false} WithoutPresentOnce(prev: seq<Location>, value: Location)
    requires NoDuplicates(prev) && value in prev
    ensures |Without(prev, value)| == |prev| - 1
  {
    assert prev == [prev[0]] + prev[1..];
    if prev[0] == value {
      assert value !in prev[1..];
      WithoutAbsent(prev[1..], value);
    } else {
      NoDuplicatesTail(prev);
      WithoutPresentOnce(prev[1..], value);
    }
  }

  predicate NoDuplicates(s: seq<Location>) {
    forall i, j :: 0 <= i < j < |s| ==> s[i] != s[j]
  }

  lemma NoDuplicatesTail(s: seq<Location>)
    requires s != [] && NoDuplicates(s)
    ensures NoDuplicates(s[1..]) && s[0] !in s[1..]
  {
    assert forall j :: 0 <= j < |s[1..]| ==> s[1..][j] == s[j + 1];
  }

  lemma {:induction false} WithoutNoDuplicates(prev: seq<Location>, value: Location)
    requires NoDuplicates(prev)
    ensures NoDuplicates(Without(prev, value))
  {
    if prev != [] {
      NoDuplicatesTail(prev);
      WithoutNoDuplicates(prev[1..], value);
      var rest := Without(prev[1..], value);
      if !LocationsEqual(prev[0], value) {
        assert prev[0] !in rest;
        var r := [prev[0]] + rest;
        assert Without(prev, value) == r;
        forall i, j | 0 <= i < j < |r| ensures r[i] != r[j] {
          if i == 0 {
            assert r[j] == rest[j - 1] && r[j] in rest;
          } else {
            assert r[i] == rest[i - 1] && r[j] == rest[j - 1];
          }
        }
      } else {
        assert Without(prev, value) == rest;
      }
    }
  }

  /**
   * The recent-list update when `value` is selected: drop its earlier copies,
   * put it first, keep the first MAX_RECENT.
   */
  function RecordRecent(prev: seq<Location>, value: Location): (r: seq<Location>)
    ensures 1 <= |r| <= MAX_RECENT
    ensures |r| == if |Without(prev, value)| + 1 < MAX_RECENT then |Without(prev, value)| + 1 else MAX_RECENT
    ensures r[0] == value
    ensures forall i :: 1 <= i < |r| ==> r[i] != value
  {
    var updated := [value] + Without(prev, value);
    var r := updated[..if |updated| < MAX_RECENT then |updated| else MAX_RECENT];
    assert forall i :: 1 <= i < |r| ==> r[i] == Without(prev, value)[i - 1] && r[i] in Without(prev, value);
    r
  }

  /**
   * The entries after the head are the earliest survivors of the old list, in
   * their old order; and a list without repeats stays without repeats.
   */
  lemma RecordRecentKeepsOrder(prev: seq<Location>, value: Location)
    ensures var r := RecordRecent(prev, value);
      && r[1..] == Without(prev, value)[..|r| - 1]
      && IsSubsequence(r[1..], prev)
    ensures NoDuplicates(prev) ==> NoDuplicates(RecordRecent(prev, value))
  {
    var r := RecordRecent(prev, value);
    var rest := Without(prev, value);
    assert r[1..] == rest[..|r| - 1];
    WithoutIsSubsequence(prev, value);
    PrefixOfSubsequence(rest, prev, |r| - 1);
    if NoDuplicates(prev) {
      WithoutNoDuplicates(prev, value);
      forall i, j | 0 <= i < j < |r| ensures r[i] != r[j] {
        if i > 0 {
          assert r[i] == rest[i - 1] && r[j] == rest[j - 1];
        }
      }
    }
  }

  /** Re-selecting a listed location moves it to the front; the list does not grow. */
  lemma ReselectMovesToFront(prev: seq<Location>, value: Location)
    requires NoDuplicates(prev) && |prev| <= MAX_RECENT && value in prev
    ensures |RecordRecent(prev, value)| == |prev|
    ensures RecordRecent(prev, value) == [value] + Without(prev, value)
  {
    WithoutPresentOnce(prev, value);
  }

  /** A new location goes in front; with five already listed the oldest drops out. */
  lemma NewLocationPushesOldest(prev: seq<Location>, value: Location)
    requires value !in prev
    ensures |prev| < MAX_RECENT ==> RecordRecent(prev, value) == [value] + prev
    ensures |prev| >= MAX_RECENT ==> RecordRecent(prev, value) == [value] + prev[..MAX_RECENT - 1]
  {
    WithoutAbsent(prev, value);
  }

  /** The recent list as persisted, or why there is none. */
  function ReadRecent(entries: map<Key, Stored>): ReadOutcome<seq<Location>> {
    match GetItem(entries, RecentLocations)
    case None => Missing
    case Some(Text(raw)) => if raw == "" then Missing else Corrupt
    case Some(LocationListJson(locs)) => Found(locs)
    case Some(_) => Corrupt
  }

  /** loadRecentLocations: the persisted list, or [] when missing or unreadable. */
  function LoadRecentLocations(entries: map<Key, Stored>): (locs: seq<Location>)
    ensures RecentLocations in entries && entries[RecentLocations].LocationListJson? ==>
      locs == entries[RecentLocations].locations
    ensures !(RecentLocations in entries && entries[RecentLocations].LocationListJson?) ==> locs == []
  {
    ReadRecent(entries).OrDefault([])
  }

  lemma SaveThenLoadRecent(entries: map<Key, Stored>, locs: seq<Location>)
    ensures LoadRecentLocations(entries[RecentLocations := LocationListJson(locs)]) == locs
  {
  }

  /** One entry of the geocoder's `results`; its other fields are ignored. */
  datatype GeocodeResult = GeocodeResult(
    name: string,
    country: string,
    admin1: Option<string>,
    latitude: real,
    longitude: real,
    otherFields: map<string, string>)

  /** The geocoder's decoded answer; `results` is absent when nothing matched. */
  datatype GeocodeResponse = GeocodeResponse(results: Option<seq<GeocodeResult>>)

  /** The search results searchLocations shows, in the provider's order. */
  function SearchResults(response: Option<GeocodeResponse>): (locs: seq<Location>)
    ensures response.None? || response.value.results.None? ==> locs == []
    ensures response.Some? && response.value.results.Some? ==>
      var hits := response.value.results.value;
      && |locs| == |hits|
      && forall i :: 0 <= i < |hits| ==>
           locs[i] == Location(hits[i].name, hits[i].country, hits[i].admin1, hits[i].latitude, hits[i].longitude)
  {
    match response
    case None => []
    case Some(GeocodeResponse(None)) => []
    case Some(GeocodeResponse(Some(hits))) =>
      seq(|hits|, i requires 0 <= i < |hits| =>
        Location(hits[i].name, hits[i].country, hits[i].admin1, hits[i].latitude, hits[i].longitude))
  }

  /** The text the box shows once loc is chosen: "name, admin1, country", admin1 only when non-empty. */
  function SelectionLabel(loc: Location): (text: string)
    ensures loc.admin1.None? || loc.admin1 == Some("") ==> text == loc.name + ", " + loc.country
    ensures loc.admin1.Some? && loc.admin1.value != "" ==>
      text == loc.name + ", " + loc.admin1.value + ", " + loc.country
  {
    loc.name + (if loc.admin1.Some? && loc.admin1.value != "" then ", " + loc.admin1.value else "") + ", " + loc.country
  }

  /** The search box's state, over the shared store. */
  class LocationPicker {
    const store: Store
    var query: string
    var results: seq<Location>
    var loading: bool
    var recent: seq<Location>

    constructor (store: Store)
      ensures this.store == store
      ensures query == "" && results == [] && !loading && recent == []
    {
      this.store := store;
      query := "";
      results := [];
      loading := false;
      recent := [];
    }

    /** The mount effect: read the persisted recent list. */
    method MountEffect()
      modifies this
      ensures recent == LoadRecentLocations(store.entries)
      ensures query == old(query) && results == old(results) && loading == old(loading)
    {
      recent := LoadRecentLocations(store.entries);
    }

    /** The value effect: record a selected location and persist the list. */
    method ValueEffect(value: Option<Location>)
      modifies this, store
      ensures query == old(query) && results == old(results) && loading == old(loading)
      ensures value.None? ==> recent == old(recent) && store.entries == old(store.entries)
      ensures value.Some? ==>
        && recent == RecordRecent(old(recent), value.value)
        && store.entries == old(store.entries)[RecentLocations := LocationListJson(recent)]
    {
      if value.Some? {
        var updated := RecordRecent(recent, value.value);
        store.SetItem(RecentLocations, LocationListJson(updated));
        recent := updated;
      }
    }

    /** searchLocations once the geocoder has answered (or failed): never an error, at worst no results. */
    method SearchLocations(response: Option<GeocodeResponse>)
      modifies this
      ensures results == SearchResults(response) && !loading
      ensures query == old(query) && recent == old(recent)
    {
      loading := true;
      results := [];
      results := SearchResults(response);
      loading := false;
    }

    /** handleInput: queries shorter than two characters clear the results without a search. */
    method HandleInput(q: string, response: Option<GeocodeResponse>) returns (searched: bool)
      modifies this
      ensures query == q && recent == old(recent)
      ensures searched <==> |q| >= MIN_QUERY_LENGTH
      ensures searched ==> results == SearchResults(response) && !loading
      ensures !searched ==> results == [] && loading == old(loading)
    {
      query := q;
      searched := |q| >= MIN_QUERY_LENGTH;
      if searched {
        SearchLocations(response);
      } else {
        results := [];
      }
    }

    /** handleSelect: show the chosen place's label, close the results, hand the place on. */
    method HandleSelect(loc: Location) returns (selected: Location)
      modifies this
      ensures selected == loc
      ensures query == SelectionLabel(loc) && results == []
      ensures recent == old(recent) && loading == old(loading)
    {
      query := SelectionLabel(loc);
      results := [];
      selected := loc;
    }

    /** handleClear. */
    method HandleClear()
      modifies this
      ensures query == "" && results == []
      ensures recent == old(recent) && loading == old(loading)
    {
      query := "";
      results := [];
    }
  }
}
