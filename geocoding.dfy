/** `geocode_city`: turning the geocoding service's reply into a location. The
    HTTP request is not modelled; its outcome is a parameter. */
module Geocoding {
  import opened Wrappers

  /** One entry of the `results` array of the reply. Each field is `None` when
      the JSON object lacks that key. */
  datatype Place = Place(
    name: Option<string>,
    latitude: Option<real>,
    longitude: Option<real>,
    admin1: Option<string>,
    country: Option<string>)

  /** The parsed JSON body of the reply; `results` is `None` when the key is
      absent, which is how the service says it found nothing. */
  datatype Reply = Reply(results: Option<seq<Place>>)

  /** The exceptions the `try` block can raise. `HttpError` stands for any
      failure of the request itself: a transport error, a non-success status
      raised by `raise_for_status`, or a body that is not JSON. */
  datatype Failure = HttpError | IndexError | KeyError(key: string)

  /** The dictionary `geocode_city` returns on success. */
  datatype Geo = Geo(latitude: real, longitude: real, locationName: string)

  /** `result[key]`: the value, or `KeyError`. */
  function Subscript<T>(field: Option<T>, key: string): Result<T, Failure>
  {
    match field
    case Some(v) => Ok(v)
    case None => Err(KeyError(key))
  }

  /** `data["results"][0]`: the first entry, or `IndexError`. */
  function First(results: seq<Place>): Result<Place, Failure>
  {
    if |results| == 0 then Err(IndexError) else Ok(results[0])
  }

  /** The body of the `try` block after the reply is parsed, in Python's
      evaluation order: `Ok(None)` is the early `return None`, `Err` a raised
      exception. The default of `result.get('admin1', result['country'])` is
      evaluated before `get` looks at `admin1`, so a missing `country` raises
      even when `admin1` is present. */
  function Interpret(data: Reply): Result<Option<Geo>, Failure>
  {
    if data.results.None? then Ok(None)
    else
      var result :- First(data.results.value);
      var latitude :- Subscript(result.latitude, "latitude");
      var longitude :- Subscript(result.longitude, "longitude");
      var name :- Subscript(result.name, "name");
      var fallback :- Subscript(result.country, "country");
      var region := result.admin1.GetOr(fallback);
      Ok(Some(Geo(latitude, longitude, name + ", " + region)))
  }

  /** The keys whose absence from the first result makes `geocode_city` fail. */
  predicate Usable(p: Place) {
    p.name.Some? && p.latitude.Some? && p.longitude.Some? && p.country.Some?
  }

  /** The display name: `"<name>, <admin1>"`, or `"<name>, <country>"` when the
      result has no `admin1`. */
  function DisplayName(p: Place): string
    requires Usable(p)
  {
    p.name.value + ", " + (if p.admin1.Some? then p.admin1.value else p.country.value)
  }

  /** `geocode_city(city_name)` given the outcome of its HTTP request. Every
      exception is caught (and logged) and gives `None`. It succeeds exactly
      when there is a reply with a non-empty `results` whose first entry has a
      name, both coordinates and a country; it then copies the coordinates
      unchanged and builds the display name. */
  function GeocodeCity(cityName: string, reply: Result<Reply, Failure>): (geo: Option<Geo>)
    ensures geo.Some? <==>
      reply.Ok? && reply.value.results.Some? && |reply.value.results.value| > 0
      && Usable(reply.value.results.value[0])
    ensures geo.Some? ==>
      var p := reply.value.results.value[0];
      geo.value.latitude == p.latitude.value && geo.value.longitude == p.longitude.value
      && geo.value.locationName == DisplayName(p)
  {
    match reply
    case Err(_) => None
    case Ok(data) =>
      match Interpret(data)
      case Ok(found) => found
      case Err(_) => None
  }

  /** A reply without `results` returns `None` without raising. */
  lemma NoResultsReturnsNone(cityName: string)
    ensures Interpret(Reply(None)) == Ok(None)
    ensures GeocodeCity(cityName, Ok(Reply(None))) == None
  {
  }

  /** An empty `results` raises `IndexError`, which is caught. */
  lemma EmptyResultsRaiseIndexError(cityName: string)
    ensures Interpret(Reply(Some([]))) == Err(IndexError)
    ensures GeocodeCity(cityName, Ok(Reply(Some([])))) == None
  {
  }

  /** A first result without `country` raises `KeyError('country')`, whether or
      not it has `admin1`, and `geocode_city` returns `None`. */
  lemma MissingCountryRaisesKeyError(cityName: string, p: Place, rest: seq<Place>)
    requires p.name.Some? && p.latitude.Some? && p.longitude.Some?
    requires p.country.None?
    ensures Interpret(Reply(Some([p] + rest))) == Err(KeyError("country"))
    ensures GeocodeCity(cityName, Ok(Reply(Some([p] + rest)))) == None
  {
  }

  /** The display name with and without `admin1`. */
  lemma DisplayNameExamples()
    ensures DisplayName(Place(Some("Paris"), Some(48.85), Some(2.35), Some("Ile-de-France"), Some("France")))
      == "Paris, Ile-de-France"
    ensures DisplayName(Place(Some("Paris"), Some(48.85), Some(2.35), None, Some("France")))
      == "Paris, France"
  {
  }
}
