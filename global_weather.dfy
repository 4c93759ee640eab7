/**
 * The OpenWeatherMap client: current weather for a city anywhere, cached
 * per lower-cased city name for an hour by default.
 *
 * Readings are `real`s; their decimal rendering (`{:.1f}` and `str()`) is
 * not modelled: `fixed1` and `plain` stand for it.
 */
module GlobalWeather {
  import opened Wrappers
  import opened Text
  import opened ProviderCache

  const DEFAULT_TTL_HOURS: real := 1.0
  const DEFAULT_MAX_SIZE: int := 100
  const NO_DATA: string := "無資料"
  const CITY_PAGE: string := "https://openweathermap.org/city/"

  /** The fields of a 200 reply that the client reads; a missing reading is `None`. */
  datatype Weather = Weather(
    name: Option<string>, country: string, description: string,
    temp: Option<real>, tempMin: Option<real>, tempMax: Option<real>,
    humidity: Option<real>, windSpeed: Option<real>, id: string)

  /** A 404 and any other non-200 status both give no result. */
  datatype Response = Ok(weather: Weather) | Status(code: int) | Failed

  /** `if reading:` — a missing reading and a reading of zero are both false. */
  predicate Truthy(reading: Option<real>)
  {
    reading.Some? && reading.value != 0.0
  }

  /** The snippet parts as written: each reading is tested for truthiness, so a reading of 0 is dropped. */
  function PartsAsWritten(w: Weather, fixed1: real -> string, plain: real -> string): (parts: seq<string>)
  {
    (if w.description != "" then ["天氣: " + w.description] else [])
    + (if Truthy(w.temp) then ["溫度: " + fixed1(w.temp.value) + "°C"] else [])
    + (if Truthy(w.tempMin) && Truthy(w.tempMax)
       then ["最低/最高: " + fixed1(w.tempMin.value) + "°C / " + fixed1(w.tempMax.value) + "°C"] else [])
    + (if Truthy(w.humidity) then ["濕度: " + plain(w.humidity.value) + "%"] else [])
    + (if Truthy(w.windSpeed) then ["風速: " + plain(w.windSpeed.value) + " m/s"] else [])
  }

  /**
   * At exactly 0 °C, in calm air, the reply carries three readings and the
   * snippet as written shows none of them ("無資料").
   */
  lemma FreezingReadingDropped(city: string, w: Weather, fixed1: real -> string, plain: real -> string)
    requires w.description == "" && w.humidity.None?
    requires w.temp == Some(0.0) && w.tempMin == Some(0.0) && w.tempMax == Some(0.0) && w.windSpeed == Some(0.0)
    ensures PartsAsWritten(w, fixed1, plain) == []
    ensures FormatWeather(city, Response.Ok(w), fixed1, plain).value.snippet == NO_DATA
    ensures |Parts(w, fixed1, plain)| == 3
  {
  }

  /** The snippet parts as evidently intended: every reading the reply carries is shown, zero included. */
  function Parts(w: Weather, fixed1: real -> string, plain: real -> string): (parts: seq<string>)
  {
    (if w.description != "" then ["天氣: " + w.description] else [])
    + (if w.temp.Some? then ["溫度: " + fixed1(w.temp.value) + "°C"] else [])
    + (if w.tempMin.Some? && w.tempMax.Some?
       then ["最低/最高: " + fixed1(w.tempMin.value) + "°C / " + fixed1(w.tempMax.value) + "°C"] else [])
    + (if w.humidity.Some? then ["濕度: " + plain(w.humidity.value) + "%"] else [])
    + (if w.windSpeed.Some? then ["風速: " + plain(w.windSpeed.value) + " m/s"] else [])
  }

  /**
   * One part per reading present, in the order description, temperature,
   * range, humidity, wind; the snippet falls back to "無資料" only when the
   * reply carries none of them; and wherever no reading is zero the two
   * definitions agree.
   */
  lemma PartsShowEveryReading(w: Weather, fixed1: real -> string, plain: real -> string)
    ensures |Parts(w, fixed1, plain)| ==
      (if w.description != "" then 1 else 0) + (if w.temp.Some? then 1 else 0)
      + (if w.tempMin.Some? && w.tempMax.Some? then 1 else 0)
      + (if w.humidity.Some? then 1 else 0) + (if w.windSpeed.Some? then 1 else 0)
    ensures w.temp.Some? ==> "溫度: " + fixed1(w.temp.value) + "°C" in Parts(w, fixed1, plain)
    ensures (w.temp.Some? ==> w.temp.value != 0.0) && (w.tempMin.Some? ==> w.tempMin.value != 0.0)
      && (w.tempMax.Some? ==> w.tempMax.value != 0.0) && (w.humidity.Some? ==> w.humidity.value != 0.0)
      && (w.windSpeed.Some? ==> w.windSpeed.value != 0.0)
      ==> Parts(w, fixed1, plain) == PartsAsWritten(w, fixed1, plain)
  {
  }

  /** `"{name}, {country}"`, or the name alone without a country. */
  function LocationLabel(name: string, country: string): (l: string)
    ensures country == "" ==> l == name
    ensures country != "" ==> l == name + ", " + country
  {
    if country != "" then name + ", " + country else name
  }

  /**
   * `_fetch_weather_data` after the request; the reply's name falls back to
   * the city as asked. The snippet is built from the truthiness tests as
   * written, so a reading of zero is left out of it.
   */
  function FormatWeather(city: string, response: Response, fixed1: real -> string, plain: real -> string): (r: Option<Article>)
    ensures r.Some? <==> response.Ok?
    ensures r.Some? ==> r.value.title == "[國際天氣] " + LocationLabel(response.weather.name.GetOr(city), response.weather.country)
    ensures r.Some? ==> r.value.link == CITY_PAGE + response.weather.id
    ensures r.Some? ==> r.value.kind == "weather_global" && r.value.source == "openweathermap"
    ensures r.Some? && PartsAsWritten(response.weather, fixed1, plain) == [] ==> r.value.snippet == NO_DATA
    ensures r.Some? && PartsAsWritten(response.weather, fixed1, plain) != [] ==>
      r.value.snippet == Join(PartsAsWritten(response.weather, fixed1, plain), " | ")
  {
    match response
    case Ok(w) =>
      var parts := PartsAsWritten(w, fixed1, plain);
      var snippet := if parts == [] then NO_DATA else Join(parts, " | ");
      Some(Article("[國際天氣] " + LocationLabel(w.name.GetOr(city), w.country), snippet, CITY_PAGE + w.id,
                   "weather_global", "openweathermap"))
    case Status(_) => None
    case Failed => None
  }

  function ParseResponse(city: string, fetch: Fetch<Response>, fixed1: real -> string, plain: real -> string)
    : (r: Fetch<Option<Article>>)
    ensures fetch.TimedOut? <==> r.TimedOut?
    ensures fetch.Fetched? ==> r.result == FormatWeather(city, fetch.result, fixed1, plain)
  {
    match fetch
    case Fetched(response) => Fetched(FormatWeather(city, response, fixed1, plain))
    case TimedOut => TimedOut
  }

  class GlobalWeatherClient {
    var enabled: bool
    var apiKey: string
    const cache: TtlCache<string, Article>

    predicate Valid()
      reads this, cache
    {
      cache.Valid()
    }

    /** A client without an API key is disabled. */
    constructor (enabled: bool, apiKey: string, cacheEnabled: bool, ttlHours: real, maxSize: int)
      ensures this.enabled == (enabled && apiKey != "") && this.apiKey == apiKey
      ensures cache.enabled == cacheEnabled && cache.ttl == ttlHours * 3600.0 && cache.maxSize == maxSize
      ensures cache.entries == map[] && Valid()
      ensures fresh(cache)
    {
      this.enabled := enabled && apiKey != "";
      this.apiKey := apiKey;
      cache := new TtlCache(cacheEnabled, ttlHours * 3600.0, maxSize);
    }

    /**
     * `search`: the city is stripped and asked for as typed, but cached under
     * its lower-cased form, so "Tokyo" and "tokyo" share an entry.
     */
    method Search(city: string, fetch: Fetch<Response>, now: real, fixed1: real -> string, plain: real -> string)
      returns (results: seq<Article>)
      requires Valid()
      modifies cache`entries
      ensures Valid()
      ensures !enabled ==> results == [] && cache.entries == old(cache.entries)
      ensures enabled ==> results == AsList(Answer(old(cache.entries), cache.enabled, cache.ttl, cache.maxSize,
        Lower(Strip(city)), ParseResponse(Strip(city), fetch, fixed1, plain), now))
      ensures enabled ==> SearchEffect(old(cache.entries), cache.entries, cache.enabled, cache.ttl, cache.maxSize,
        Lower(Strip(city)), ParseResponse(Strip(city), fetch, fixed1, plain), now)
    {
      if !enabled {
        return [];
      }
      var stripped := Strip(city);
      var key := Lower(stripped);
      var parsed := ParseResponse(stripped, fetch, fixed1, plain);
      var answer := cache.Search(key, parsed, now);
      results := AsList(answer);
    }

    /** `is_available` */
    function IsAvailable(): (r: bool)
      reads this
      ensures r <==> enabled && apiKey != ""
    {
      enabled && apiKey != ""
    }
  }
}
