/**
 * The weather lookup of src/inkycal/weather.py: WMO weather codes become one
 * of six glyphs, and the forecast for a moment is read from the hourly
 * Open-Meteo arrays by its `%Y-%m-%dT%H:00` key.
 */
module Weather {
  import opened Wrappers

  const Sun := "\U{2600}"
  const Cloud := "\U{2601}"
  const Umbrella := "\U{2602}"
  const Rain := "\U{2614}"
  const Snow := "\U{2744}"
  const Lightning := "\U{26a1}"

  predicate IsGlyph(s: string) {
    s == Sun || s == Cloud || s == Umbrella || s == Rain || s == Snow || s == Lightning
  }

  predicate Drizzle(code: int) { code in {51, 53, 55, 56, 57} }
  predicate Showers(code: int) { code in {61, 63, 65, 66, 67, 80, 81, 82} }
  predicate Snowfall(code: int) { code in {71, 73, 75, 77, 85, 86} }
  predicate Thunder(code: int) { code in {95, 96, 99} }

  /** `_weather_icon`: total over all integers, always one of the six glyphs. */
  function WeatherIcon(code: int): (r: string)
    ensures IsGlyph(r)
  {
    if code == 0 then Sun
    else if code in {1, 2} then Cloud
    else if code == 3 then Cloud
    else if code in {45, 48} then Cloud
    else if Drizzle(code) then Umbrella
    else if Showers(code) then Rain
    else if Snowfall(code) then Snow
    else if Thunder(code) then Lightning
    else Cloud
  }

  /**
   * Each glyph is chosen by exactly one group of codes: the sun only for
   * clear sky (0), and the cloud for 1, 2, 3, 45, 48 and every code no group
   * lists.
   */
  lemma WeatherIconGroups(code: int)
    ensures WeatherIcon(code) == Sun <==> code == 0
    ensures WeatherIcon(code) == Umbrella <==> Drizzle(code)
    ensures WeatherIcon(code) == Rain <==> Showers(code)
    ensures WeatherIcon(code) == Snow <==> Snowfall(code)
    ensures WeatherIcon(code) == Lightning <==> Thunder(code)
    ensures WeatherIcon(code) == Cloud <==>
      code != 0 && !Drizzle(code) && !Showers(code) && !Snowfall(code) && !Thunder(code)
  {
  }

  /** `WeatherAtTime`. */
  datatype WeatherAtTime = WeatherAtTime(temperatureF: int, icon: string)

  /**
   * The moment asked about: a naive datetime, or an aware one seen through its
   * `%Y-%m-%dT%H:00` text in its own zone.
   */
  datatype ForecastTime = NaiveTime | AwareTime(hourKey: string)

  /**
   * The `hourly` arrays of the fetched payload; a missing key reads as an
   * empty list. Temperatures are whole degrees Fahrenheit.
   */
  datatype HourlyForecast = HourlyForecast(times: seq<string>, temperatures: seq<int>, codes: seq<int>)

  /** The last index at which `key` occurs in `s`, or -1. */
  function LastIndex(s: seq<string>, key: string): (r: int)
    ensures -1 <= r < |s|
    ensures r >= 0 ==> s[r] == key && forall j :: r < j < |s| ==> s[j] != key
    ensures r == -1 <==> key !in s
  {
    if s == [] then -1
    else if s[|s| - 1] == key then |s| - 1
    else
      var r := LastIndex(s[..|s| - 1], key);
      assert key in s[..|s| - 1] ==> key in s;
      assert key in s && s[|s| - 1] != key ==> key in s[..|s| - 1] by {
        if key in s && s[|s| - 1] != key {
          var k :| 0 <= k < |s| && s[k] == key;
          assert s[..|s| - 1][k] == key;
        }
      }
      r
  }

  predicate Aligned(hourly: HourlyForecast) {
    |hourly.times| != 0 && |hourly.times| == |hourly.temperatures| && |hourly.times| == |hourly.codes|
  }

  /** What `forecast_for_datetime` returns for the fetched `hourly` arrays. */
  function ForecastSpec(t: ForecastTime, hourly: HourlyForecast): Option<WeatherAtTime> {
    if t.NaiveTime? || !Aligned(hourly) then None
    else
      var i := LastIndex(hourly.times, t.hourKey);
      if i < 0 then None else Some(WeatherAtTime(hourly.temperatures[i], WeatherIcon(hourly.codes[i])))
  }

  /**
   * A naive time, empty or misaligned arrays, or a missing hour give nothing;
   * otherwise the entry of the last row whose time is the hour key is used.
   */
  lemma ForecastSpecCases(t: ForecastTime, hourly: HourlyForecast)
    ensures t.NaiveTime? || !Aligned(hourly) ==> ForecastSpec(t, hourly) == None
    ensures t.AwareTime? && Aligned(hourly) ==>
      (ForecastSpec(t, hourly).Some? <==> t.hourKey in hourly.times)
    ensures ForecastSpec(t, hourly).Some? ==>
      exists i :: 0 <= i < |hourly.times|
        && hourly.times[i] == t.hourKey
        && (forall j :: i < j < |hourly.times| ==> hourly.times[j] != t.hourKey)
        && ForecastSpec(t, hourly).value == WeatherAtTime(hourly.temperatures[i], WeatherIcon(hourly.codes[i]))
    ensures ForecastSpec(t, hourly).Some? ==> IsGlyph(ForecastSpec(t, hourly).value.icon)
  {
    if ForecastSpec(t, hourly).Some? {
      var i := LastIndex(hourly.times, t.hourKey);
      assert 0 <= i < |hourly.times| && hourly.times[i] == t.hourKey;
    }
  }

  /**
   * `forecast_for_datetime`, after the fetch: the arrays are zipped into a
   * map from hour text to (temperature, code), later rows replacing earlier
   * ones, and the hour key is looked up.
   */
  method ForecastForDatetime(t: ForecastTime, hourly: HourlyForecast) returns (r: Option<WeatherAtTime>)
    ensures r == ForecastSpec(t, hourly)
  {
    if t.NaiveTime? {
      return None;
    }
    var times, temperatures, codes := hourly.times, hourly.temperatures, hourly.codes;
    if |times| == 0 || |times| != |temperatures| || |times| != |codes| {
      return None;
    }
    var byHour: map<string, (int, int)> := map[];
    for i := 0 to |times|
      invariant forall k :: k in byHour <==> k in times[..i]
      invariant forall k :: k in byHour ==>
        var j := LastIndex(times[..i], k); 0 <= j < i && byHour[k] == (temperatures[j], codes[j])
    {
      assert times[..i + 1] == times[..i] + [times[i]];
      assert times[..i + 1][..i] == times[..i];
      byHour := byHour[times[i] := (temperatures[i], codes[i])];
    }
    assert times[..|times|] == times;
    if t.hourKey !in byHour {
      return None;
    }
    var (temperature, code) := byHour[t.hourKey];
    return Some(WeatherAtTime(temperature, WeatherIcon(code)));
  }

  /** `forecast_for_event_start` asks exactly what `forecast_for_datetime` is asked. */
  method ForecastForEventStart(eventStart: ForecastTime, hourly: HourlyForecast) returns (r: Option<WeatherAtTime>)
    ensures r == ForecastSpec(eventStart, hourly)
  {
    r := ForecastForDatetime(eventStart, hourly);
  }
}
