/** The `GET /` handler `index`: from the query parameters to the values handed
    to the page template. The geocoding request and `get_weather_data` are
    parameters (total functions from arguments to outcome); the handler records
    its calls to them, in order. */
module Handler {
  import opened Wrappers
  import Geocoding

  /** A JSON value of the forecast payload. */
  datatype Json =
    | Null
    | Bool(b: bool)
    | Number(n: real)
    | Str(s: string)
    | Array(items: seq<Json>)
    | Object(fields: map<string, Json>)

  /** The forecast payload: the JSON object returned by the weather service. */
  type Payload = map<string, Json>

  /** The arguments of `get_weather_data(lat, lon, units)`. */
  datatype FetchArgs = FetchArgs(latitude: real, longitude: real, units: string)

  /** A call to the geocoding request or to `get_weather_data`. */
  datatype Call = GeocodeCall(cityName: string) | WeatherCall(args: FetchArgs)

  /** The values of the page that depend on the request logic. */
  datatype View = View(
    weatherData: Option<Payload>,
    error: Option<string>,
    locationQuery: Option<string>,
    units: string)

  /** `request.args.get("units", "metric")`'s default. */
  const DefaultUnits := "metric"

  /** The payload key the handler adds. */
  const LocationNameKey := "locationName"

  /** Python truthiness of the optional query string: neither `None` nor `""`. */
  predicate Truthy(s: Option<string>) {
    s.Some? && s.value != ""
  }

  /** Python truthiness of the optional payload: neither `None` nor `{}`. */
  predicate HasWeather(w: Option<Payload>) {
    w.Some? && |w.value| > 0
  }

  /** The error shown when geocoding gives nothing. */
  function NotFoundMessage(query: string): string {
    "Could not find '" + query + "'. Try another city."
  }

  /** The error shown when the forecast could not be fetched. */
  function FetchFailedMessage(locationName: string): string {
    "Could not fetch weather for '" + locationName + "'."
  }

  /** The query can be read back from its error message: different queries
      give different messages. */
  lemma NotFoundMessageInjective(a: string, b: string)
    requires NotFoundMessage(a) == NotFoundMessage(b)
    ensures a == b
  {
    var m := NotFoundMessage(a);
    assert |a| == |b|;
    assert a == m[16..16 + |a|];
  }

  /** Likewise for the location name in the fetch-failure message. */
  lemma FetchFailedMessageInjective(a: string, b: string)
    requires FetchFailedMessage(a) == FetchFailedMessage(b)
    ensures a == b
  {
    var m := FetchFailedMessage(a);
    assert |a| == |b|;
    assert a == m[29..29 + |a|];
  }

  /** The two messages are never the same, so the page tells which step failed. */
  lemma MessagesDistinct(query: string, locationName: string)
    ensures NotFoundMessage(query) != FetchFailedMessage(locationName)
  {
    assert NotFoundMessage(query)[11] == 'i';
    assert FetchFailedMessage(locationName)[11] == 'e';
  }

  /** `after` is `before` with the location-name key set to `name` and every
      other key unchanged. */
  predicate Annotated(before: Payload, after: Payload, name: string) {
    && after.Keys == before.Keys + {LocationNameKey}
    && after[LocationNameKey] == Str(name)
    && forall k :: k in before && k != LocationNameKey ==> after[k] == before[k]
  }

  /** `index()`. Reads `location` and `units`, geocodes a non-empty query and,
      when that succeeds, fetches the forecast for the coordinates found; a
      non-empty payload gets the display name added, otherwise the matching
      error message is set. */
  method Index(
    locationQuery: Option<string>,
    unitsArg: Option<string>,
    geocodeService: string -> Result<Geocoding.Reply, Geocoding.Failure>,
    weatherService: FetchArgs -> Option<Payload>)
    returns (view: View, calls: seq<Call>)
    ensures view.locationQuery == locationQuery
    ensures view.units == unitsArg.GetOr(DefaultUnits)
    // no query: nothing is called and nothing is reported
    ensures !Truthy(locationQuery) ==>
      calls == [] && view.weatherData == None && view.error == None
    // the query is geocoded exactly once, first
    ensures Truthy(locationQuery) ==>
      |calls| >= 1 && calls[0] == GeocodeCall(locationQuery.value)
    // city not found: the forecast is not fetched
    ensures Truthy(locationQuery) ==>
      var q := locationQuery.value;
      Geocoding.GeocodeCity(q, geocodeService(q)).None? ==>
        calls == [GeocodeCall(q)] && view.weatherData == None
        && view.error == Some(NotFoundMessage(q))
    // city found: the forecast is fetched for its coordinates, units as given
    ensures Truthy(locationQuery) ==>
      var q := locationQuery.value;
      var geo := Geocoding.GeocodeCity(q, geocodeService(q));
      geo.Some? ==>
        var args := FetchArgs(geo.value.latitude, geo.value.longitude, view.units);
        var fetched := weatherService(args);
        && calls == [GeocodeCall(q), WeatherCall(args)]
        && (HasWeather(fetched) ==>
              view.error == None && view.weatherData.Some?
              && Annotated(fetched.value, view.weatherData.value, geo.value.locationName))
        && (!HasWeather(fetched) ==>
              view.weatherData == fetched
              && view.error == Some(FetchFailedMessage(geo.value.locationName)))
    // an error is never shown beside a forecast
    ensures view.error.Some? ==> !HasWeather(view.weatherData)
    ensures HasWeather(view.weatherData) ==> view.error == None && |calls| == 2
  {
    var units := unitsArg.GetOr(DefaultUnits);
    var weatherData: Option<Payload> := None;
    var error: Option<string> := None;
    calls := [];

    if Truthy(locationQuery) {
      var q := locationQuery.value;
      calls := calls + [GeocodeCall(q)];
      var geo := Geocoding.GeocodeCity(q, geocodeService(q));
      if geo.Some? {
        var args := FetchArgs(geo.value.latitude, geo.value.longitude, units);
        calls := calls + [WeatherCall(args)];
        weatherData := weatherService(args);
        if HasWeather(weatherData) {
          weatherData := Some(weatherData.value[LocationNameKey := Str(geo.value.locationName)]);
        } else {
          error := Some(FetchFailedMessage(geo.value.locationName));
        }
      } else {
        error := Some(NotFoundMessage(q));
      }
    }

    view := View(weatherData, error, locationQuery, units);
  }
}
