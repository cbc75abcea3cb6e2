# Weather front-end: request logic and display helpers

A model of the deterministic core of a small Flask weather page (`app.py`).
The page takes a city name and a unit preference. It resolves the city to
coordinates with a geocoding service, fetches a forecast for those
coordinates, and renders it. The model covers four pieces:

- **Display helpers.** `slice_time` takes the time of day out of an ISO 8601
  local date-time. ISO 8601 joins date and time with the designator `T`
  (section 4.3.2 of ISO 8601:2004). `c_to_f` converts Celsius to Fahrenheit.
  `WEATHER_CODES` maps WMO weather codes to descriptions. The model includes
  Python's `str.split` for a one-character separator, with its round trips
  against `join`.
- **Geocoding reply interpretation.** This is what `geocode_city` does with
  the parsed JSON reply. The reply is an abstract record: an optional
  `results` list whose entries may lack any key. The Python exceptions are
  modelled as `Err` values that propagate through `:-` in evaluation order.
  One consequence of that order: `result.get('admin1', result['country'])`
  raises when `country` is missing, even when `admin1` is present.
- **The `index` handler.** It is a method. Its inputs are the optional
  `location` and `units` query parameters and the two services, given as
  total functions. It returns the values the template receives and the calls
  to the geocoding request and to `get_weather_data`, in order. It adds `locationName` to the fetched
  payload by updating a map value.
- **The weather-code table.** It is a constant `map<int, string>`.

Modules: `Wrappers` (Option, Result), `PyStr` (split and join), `Display`,
`Geocoding`, `Handler`.

Three behaviours of the code that the model keeps:

- A failed forecast fetch leaves the fetch result in `weather_data`
  (app.py:115-119), so it may be an empty payload `{}` rather than `None`.
  `Handler.Index` states this (`view.weatherData == fetched`). Only a
  non-empty payload counts as a forecast.
- The display name needs `country` even when `admin1` is present
  (app.py:76). Without it geocoding fails
  (`Geocoding.MissingCountryRaisesKeyError`).
- `slice_time` returns the second piece of the split for one or more `T`s
  (`Display.SliceTime`). The single-`T` case is
  `Display.SliceTimeSingleDesignator`.

## Model

| member | source | states |
|---|---|---|
| `PyStr.Split` | app.py:45 | `split('T')` yields one more piece than there are separators, and no piece contains the separator |
| `PyStr.SplitJoin` | app.py:45 | joining the pieces of a split with the separator gives back the original string |
| `PyStr.JoinSplit` | app.py:45 | splitting a join of separator-free pieces (at least one) gives back exactly those pieces |
| `PyStr.SplitAtFirst` | app.py:45 | the pieces are the text before the first separator followed by the pieces of what comes after it |
| `PyStr.SplitHead` | app.py:45 | the first piece is the longest prefix without a separator: it ends at the end of the string or just before a separator |
| `Display.SliceTime` | app.py:43-45 | for a string containing `T`, the result is the text from just after the first `T` up to the next `T` or the end of the string, and it contains no `T` |
| `Display.SliceTimeSingleDesignator` | app.py:43-45 | with exactly one `T`, the result is everything after it |
| `Display.SliceTimeExample` | app.py:43-45 | `"2024-03-05T14:00"` gives `"14:00"` |
| `Display.CelsiusToFahrenheit` | app.py:33-35 | the result converts back to the input through (f − 32) · 5 / 9 |
| `Display.CelsiusToFahrenheitMonotonic` | app.py:33-35 | a higher Celsius temperature gives a higher Fahrenheit temperature |
| `Display.WeatherCodesKeys` | app.py:24-30 | the table holds exactly the 19 listed codes, all in 0..99 |
| `Display.WeatherCodesInjective` | app.py:24-30 | no two codes share a description |
| `Geocoding.GeocodeCity` | app.py:59-80 | gives a location exactly when the request succeeded, `results` is present and non-empty, and its first entry has a name, both coordinates and a country; then the coordinates are copied unchanged and the name is `"<name>, <admin1>"`, or `"<name>, <country>"` without `admin1`; every failure gives `None` |
| `Geocoding.NoResultsReturnsNone` | app.py:70-71 | a reply without `results` returns `None` without raising |
| `Geocoding.EmptyResultsRaiseIndexError` | app.py:72-80 | an empty `results` raises `IndexError`, which is caught, giving `None` |
| `Geocoding.MissingCountryRaisesKeyError` | app.py:76-80 | a first result without `country` raises `KeyError('country')` even when `admin1` is present, giving `None` |
| `Geocoding.DisplayNameExamples` | app.py:76 | Paris with region Ile-de-France is `"Paris, Ile-de-France"`; without a region it is `"Paris, France"` |
| `Handler.Index` | app.py:104-121 | units default to `"metric"` and are otherwise passed through unchanged. With no query (absent or empty), nothing is called and there is neither data nor error. Otherwise the query is geocoded first. If geocoding fails, the forecast is not fetched, there is no data, and the error is exactly the not-found message. If it succeeds, the forecast is fetched once with the geocoded coordinates and the units. A non-empty payload is returned with `locationName` added and every other key unchanged, and no error. Any other fetch result is kept as it is, with the fetch-failure message as the error. An error never appears beside a forecast |
| `Handler.NotFoundMessageInjective` | app.py:121 | different queries give different "Could not find" messages, so the query can be read back |
| `Handler.FetchFailedMessageInjective` | app.py:119 | different location names give different "Could not fetch weather" messages |
| `Handler.MessagesDistinct` | app.py:119-121 | the not-found and fetch-failure messages never coincide |

## Left out

- Outbound HTTP (`requests.get`, `raise_for_status`, `response.json()`): these are I/O. The geocoding request's outcome is a `Result` whose failure stands for any of them. The weather service is a function from arguments to an optional payload, with `None` for any failure. The request parameters sent to the two services are not modelled.
- The `@cache.memoize()` five-minute cache and its `SimpleCache` setup: the cache lives inside flask_caching and depends on the wall clock. `get_weather_data` is modelled as the weather-service function itself.
- `format_date_helper`: date parsing and weekday and month names come from `strptime` and `strftime`.
- `Display.CelsiusToFahrenheit`: computed over exact reals. It does not model Python float rounding.
- `Display.SliceTime`: the `IndexError` that Python raises for a string without `T` is modelled as a precondition. It is not an error result, because the template filter has no handler for it.
- The timezone-aware `now` (pytz and the clock), `render_template`, and the `current` and `daily` extracts at app.py:124-138. This includes the `KeyError` those lines raise for a payload without `current_weather` or `daily`, and for an unknown timezone name.
- The context processor registration, logging and `app.run`: these are framework and UI.
- JSON value types are not checked. Values of the wrong type or `null` values in a geocoding entry (for example `admin1: null`, which Python would print as `None`) are not modelled. Coordinates are taken as `real`. A weather reply that is a JSON array rather than an object is not modelled.
