/** The helpers and the table that app.py exposes to its page template:
    `slice_time`, `c_to_f` and `weather_codes`. */
module Display {
  import PyStr

  /** The date/time designator of ISO 8601 (section 4.3.2 of ISO 8601:2004):
      it separates the date from the time of day in a local date-time. */
  const TimeDesignator: char := 'T'

  /** `slice_time_helper`: element 1 of `time_str.split('T')`. Python raises
      `IndexError` when the string has no `T`; callers must not pass one. The
      result is what lies between the first `T` and the next one (or the end). */
  function SliceTime(timeStr: string): (r: string)
    requires TimeDesignator in timeStr
    ensures var k := PyStr.IndexOf(timeStr, TimeDesignator);
      k + 1 + |r| <= |timeStr| && r == timeStr[k + 1 .. k + 1 + |r|]
    ensures TimeDesignator !in r
    ensures var e := PyStr.IndexOf(timeStr, TimeDesignator) + 1 + |r|;
      e == |timeStr| || timeStr[e] == TimeDesignator
  {
    var k := PyStr.IndexOf(timeStr, TimeDesignator);
    PyStr.SplitAtFirst(timeStr, TimeDesignator);
    PyStr.SplitHead(timeStr[k + 1..], TimeDesignator);
    PyStr.Split(timeStr, TimeDesignator)[1]
  }

  /** For a date-time with a single `T`, the result is everything after it. */
  lemma SliceTimeSingleDesignator(timeStr: string)
    requires PyStr.Count(timeStr, TimeDesignator) == 1
    ensures TimeDesignator in timeStr
    ensures SliceTime(timeStr) == timeStr[PyStr.IndexOf(timeStr, TimeDesignator) + 1..]
  {
    var k := PyStr.IndexOf(timeStr, TimeDesignator);
    var rest := timeStr[k + 1..];
    PyStr.SplitAtFirst(timeStr, TimeDesignator);
    assert |PyStr.Split(rest, TimeDesignator)| == 1;
    assert TimeDesignator !in rest;
    PyStr.SplitHead(rest, TimeDesignator);
  }

  /** The local date-time of the hourly forecast series, `"2024-03-05T14:00"`,
      is shown as `"14:00"`. */
  lemma SliceTimeExample()
    ensures SliceTime("2024-03-05T14:00") == "14:00"
  {
    var parts := ["2024-03-05", "14:00"];
    assert PyStr.Join(parts, TimeDesignator) == "2024-03-05T14:00";
    PyStr.JoinSplit(parts, TimeDesignator);
  }

  /** `c_to_f`: Celsius to Fahrenheit, over the reals (no float rounding). The
      conversion is undone by f -> (f - 32) * 5 / 9. */
  function CelsiusToFahrenheit(c: real): (f: real)
    ensures (f - 32.0) * 5.0 / 9.0 == c
  {
    (c * 9.0 / 5.0) + 32.0
  }

  /** A higher Celsius temperature is a higher Fahrenheit temperature. */
  lemma CelsiusToFahrenheitMonotonic(c: real, d: real)
    requires c < d
    ensures CelsiusToFahrenheit(c) < CelsiusToFahrenheit(d)
  {
  }

  /** `WEATHER_CODES`: WMO weather interpretation codes and their descriptions. */
  const WeatherCodes: map<int, string> := map[
    0 := "Clear sky", 1 := "Mainly clear", 2 := "Partly cloudy", 3 := "Overcast",
    45 := "Fog", 48 := "Depositing rime fog", 51 := "Light drizzle", 53 := "Moderate drizzle",
    55 := "Dense drizzle", 61 := "Rain", 63 := "Moderate rain", 65 := "Heavy rain",
    71 := "Snow", 73 := "Moderate snow", 75 := "Heavy snow", 80 := "Showers",
    81 := "Heavy showers", 95 := "Thunderstorm", 99 := "Severe thunderstorm"
  ]

  /** The codes in the table: the 19 listed, all between 0 and 99. */
  lemma WeatherCodesKeys()
    ensures WeatherCodes.Keys == {0, 1, 2, 3, 45, 48, 51, 53, 55, 61, 63, 65, 71, 73, 75, 80, 81, 95, 99}
    ensures forall code :: code in WeatherCodes ==> 0 <= code <= 99
  {
  }

  /** No two codes share a description, so the description shown on the page
      identifies the weather code it came from. */
  lemma WeatherCodesInjective()
    ensures forall a, b :: a in WeatherCodes && b in WeatherCodes && a != b ==> WeatherCodes[a] != WeatherCodes[b]
  {
  }
}
