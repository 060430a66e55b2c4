/** The read-only configuration of simple_config.py: the table of named
    locations, the default analysis parameters, the keyed lookup and the
    date window. */
module Config {
  import opened Wrappers
  import Dates

  datatype Location = Location(name: string, lon: real, lat: real, description: string)

  /** Keys of the location table, in the table's (dictionary) order. */
  const LocationKeys: seq<string> := ["new_york", "san_francisco", "london", "netherlands", "custom"]

  const Locations: map<string, Location> := map[
    "new_york" := Location("New York City", -73.97, 40.78, "Central Park area"),
    "san_francisco" := Location("San Francisco Bay", -122.42, 37.77, "San Francisco Bay area"),
    "london" := Location("London", -0.13, 51.51, "Central London"),
    "netherlands" := Location("Netherlands", 4.9, 52.4, "Central Netherlands"),
    "custom" := Location("Custom Location", 0.0, 0.0, "Your custom location")
  ]

  /** The analysis parameters of ANALYSIS_CONFIG. */
  datatype AnalysisConfig = AnalysisConfig(bufferKm: real, cloudCoverMax: int, daysBack: int, limit: int)

  const Analysis: AnalysisConfig := AnalysisConfig(2.0, 20, 30, 5)

  /** The key `get_location` looks up when called without one. */
  const DefaultLocationKey: string := "new_york"

  /** The coordinate ranges, both bounds inclusive. */
  predicate ValidLatitude(lat: real) {
    -90.0 <= lat <= 90.0
  }

  predicate ValidLongitude(lon: real) {
    -180.0 <= lon <= 180.0
  }

  /** The ValueError of `get_location`, which names the key and lists the
      available ones. */
  datatype ConfigError = LocationNotFound(key: string, available: seq<string>)

  function GetLocation(key: string): (r: Result<Location, ConfigError>)
    ensures r.Ok? <==> key in Locations
    ensures r.Ok? ==> r.value == Locations[key]
    ensures r.Err? ==> r.error == LocationNotFound(key, LocationKeys)
  {
    if key !in Locations then Err(LocationNotFound(key, LocationKeys)) else Ok(Locations[key])
  }

  /** `get_location()` with its default argument finds New York City. */
  lemma DefaultLocationIsNewYork()
    ensures GetLocation(DefaultLocationKey).Ok?
    ensures GetLocation(DefaultLocationKey).value.name == "New York City"
  {
  }

  /** The key list names every key of the table once, and nothing else. */
  lemma LocationKeysAreTheTable()
    ensures forall k :: k in LocationKeys <==> k in Locations
    ensures forall i, j :: 0 <= i < j < |LocationKeys| ==> LocationKeys[i] != LocationKeys[j]
  {
  }

  /** Every stored location lies in the ranges that custom coordinates are
      checked against. */
  lemma LocationsInRange()
    ensures forall k :: k in Locations ==> ValidLatitude(Locations[k].lat) && ValidLongitude(Locations[k].lon)
  {
  }

  /** `get_date_range(days_back)`: `None` stands for the omitted argument,
      which falls back to ANALYSIS_CONFIG's `days_back`. */
  function GetDateRange(today: int, daysBack: Option<int>): (w: Dates.DateWindow)
    ensures w.end == today
    ensures daysBack.None? ==> w.start == today - Analysis.daysBack
    ensures daysBack.Some? ==> w.start == today - daysBack.value
    ensures w.start <= w.end <==> (daysBack.None? || daysBack.value >= 0)
  {
    var days := if daysBack.None? then Analysis.daysBack else daysBack.value;
    Dates.WindowEndingOn(today, days)
  }

  /** The default window is thirty days long and ends today. */
  lemma DefaultDateRange(today: int)
    ensures GetDateRange(today, None) == Dates.DateWindow(today - 30, today)
  {
  }
}
