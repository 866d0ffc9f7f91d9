/** The weather service: the compass name of a wind direction, the API-key
    guard, the request URL for the fixed coordinates, the mapping of the decoded
    response onto a Weather record, and the choice of the most accurate last
    known location when the location request times out.

    The network read and the JSON decoding are a parameter: the response
    arrives as a WeatherJson record in which each field read holds either its
    value or the message of the exception the JSON library raises for it. */
module Weather {
  import opened Base

  datatype Weather = Weather(
    temperature: real,
    condition: string,
    humidity: int,
    visibility: int,
    windSpeed: real,
    windDirection: string,
    location: string)

  /** Why getWeatherData failed. */
  datatype WeatherError =
    | ApiKeyNotConfigured          // "Weather API key not configured"
    | InvalidWeatherData           // "Invalid weather data received"
    | LibraryFailure(message: string)  // an exception from the network or JSON library
    | DirectionIndexOutOfBounds(index: int)  // the compass array read at a negative index

  // ---------------------------------------------------------------------------
  // Wind direction

  const Directions: seq<string> := ["N", "NE", "E", "SE", "S", "SW", "W", "NW"]

  /** The array index `((degrees + 22.5) % 360 / 45).toInt()`, computed in
      half-degrees so that it stays in integers: `%` on a double keeps the sign
      of its left operand, and `toInt()` truncates toward zero. Both steps are
      exact in double arithmetic for every 32-bit degree value. */
  function DirectionIndex(degrees: int): (i: int)
    ensures -7 <= i <= 7
  {
    TDiv(TRem(2 * degrees + 45, 720), 90)
  }

  /** `getWindDirection`: the compass point, or the array error a negative
      index raises. */
  function WindDirection(degrees: int): (r: Result<string, WeatherError>)
    ensures r.Ok? <==> DirectionIndex(degrees) >= 0
    ensures degrees >= -67 ==> r.Ok?
    ensures r.Ok? ==> r.value in Directions
    ensures r.Err? ==> r.error == DirectionIndexOutOfBounds(DirectionIndex(degrees))
  {
    var index := DirectionIndex(degrees);
    if index < 0 then Err(DirectionIndexOutOfBounds(index)) else Ok(Directions[index])
  }

  /** The sectors are 45 degrees wide and centred on their compass point:
      0-22 is N, 23-67 NE, ..., 293-337 NW and 338-359 N again. */
  lemma WindSectors(degrees: int)
    requires 0 <= degrees < 360
    ensures WindDirection(degrees) == Ok(Directions[((degrees + 22) / 45) % 8])
  {
    var x := 2 * degrees + 45;
    if x < 720 {
      assert TRem(x, 720) == x;
      assert x / 90 == (degrees + 22) / 45;
    } else {
      assert TRem(x, 720) == x - 720;
      assert (degrees + 22) / 45 == 8;
    }
  }

  /** The direction repeats every full turn. */
  lemma WindDirectionPeriodic(degrees: int)
    requires degrees >= 0
    ensures WindDirection(degrees + 360) == WindDirection(degrees)
  {
    var x := 2 * degrees + 45;
    var q, r := x / 720, x % 720;
    assert x + 720 == 720 * (q + 1) + r && 0 <= r < 720;
    assert (x + 720) % 720 == r;
    assert DirectionIndex(degrees + 360) == DirectionIndex(degrees);
  }

  // ---------------------------------------------------------------------------
  // Request URL

  const BaseUrl: string := "https://api.openweathermap.org" + "/data/2.5/weather"

  /** The fixed coordinates, as the double-to-string conversion prints them. */
  const Latitude: string := "34.0209"
  const Longitude: string := "-6.8416"

  /** The characters `URLEncoder.encode` leaves as they are. */
  predicate IsUnreserved(c: char) {
    || 'a' <= c <= 'z' || 'A' <= c <= 'Z' || '0' <= c <= '9'
    || c == '.' || c == '-' || c == '*' || c == '_'
  }

  /** The UTF-8 bytes of one character. */
  function Utf8(c: char): (bytes: seq<nat>)
    ensures 1 <= |bytes| <= 4
    ensures forall i :: 0 <= i < |bytes| ==> bytes[i] < 256
    ensures (c as int) < 0x80 ==> bytes == [c as int]
  {
    var n := c as int;
    if n < 0x80 then [n]
    else if n < 0x800 then [0xC0 + n / 64, 0x80 + n % 64]
    else if n < 0x1_0000 then [0xE0 + n / 4096, 0x80 + (n / 64) % 64, 0x80 + n % 64]
    else [0xF0 + n / 0x4_0000, 0x80 + (n / 4096) % 64, 0x80 + (n / 64) % 64, 0x80 + n % 64]
  }

  function HexDigit(d: nat): (c: char)
    requires d < 16
    ensures IsUnreserved(c)
  {
    if d < 10 then ('0' as int + d) as char else ('A' as int + d - 10) as char
  }

  /** `%XY` per byte, in upper-case hexadecimal. */
  function PercentEncoded(bytes: seq<nat>): (r: string)
    requires forall i :: 0 <= i < |bytes| ==> bytes[i] < 256
    ensures |r| == 3 * |bytes|
    ensures forall i :: 0 <= i < |r| ==> r[i] == '%' || IsUnreserved(r[i])
  {
    if bytes == [] then []
    else ['%', HexDigit(bytes[0] / 16), HexDigit(bytes[0] % 16)] + PercentEncoded(bytes[1..])
  }

  function EncodeChar(c: char): (r: string)
    ensures forall i :: 0 <= i < |r| ==> r[i] == '%' || r[i] == '+' || IsUnreserved(r[i])
  {
    if IsUnreserved(c) then [c]
    else if c == ' ' then "+"
    else PercentEncoded(Utf8(c))
  }

  /** `URLEncoder.encode(s, "UTF-8")`: form encoding of the UTF-8 bytes. */
  function UrlEncode(s: string): (r: string)
    ensures forall i :: 0 <= i < |r| ==> r[i] == '%' || r[i] == '+' || IsUnreserved(r[i])
    ensures (forall i :: 0 <= i < |s| ==> IsUnreserved(s[i])) ==> r == s
  {
    if s == [] then []
    else EncodeChar(s[0]) + UrlEncode(s[1..])
  }

  /** The parts joined with `sep` between them. */
  function Join(parts: seq<string>, sep: char): string {
    if parts == [] then ""
    else if |parts| == 1 then parts[0]
    else parts[0] + [sep] + Join(parts[1..], sep)
  }

  /** The query parameters, the key already encoded. */
  function Parameters(encodedKey: string): seq<string> {
    ["lat=" + Latitude, "lon=" + Longitude, "appid=" + encodedKey, "units=metric"]
  }

  /** The query string `buildString` assembles after the '?'. */
  function Query(encodedKey: string): string {
    Join(Parameters(encodedKey), '&')
  }

  /** The request URL. */
  function WeatherUrl(apiKey: string): string {
    BaseUrl + "?" + Query(UrlEncode(apiKey))
  }

  /** The position of the first `sep` in s. */
  function IndexOf(s: string, sep: char): (i: nat)
    requires sep in s
    ensures i < |s| && s[i] == sep && sep !in s[..i]
  {
    if s[0] == sep then 0
    else
      assert sep in s[1..] by {
        var k :| 0 <= k < |s| && s[k] == sep;
        assert s[1..][k - 1] == sep;
      }
      var j := IndexOf(s[1..], sep);
      assert s[..j + 1] == [s[0]] + s[1..][..j];
      j + 1
  }

  /** The pieces of s between occurrences of `sep` (as `split(sep)` does). */
  function Split(s: string, sep: char): (parts: seq<string>)
    ensures |parts| >= 1
    decreases |s|
  {
    if sep !in s then [s]
    else
      var i := IndexOf(s, sep);
      [s[..i]] + Split(s[i + 1..], sep)
  }

  lemma SplitAfter(a: string, sep: char, b: string)
    requires sep !in a
    ensures Split(a + [sep] + b, sep) == [a] + Split(b, sep)
  {
    var s := a + [sep] + b;
    assert s[|a|] == sep;
    var i := IndexOf(s, sep);
    assert s[..|a|] == a && s[|a| + 1..] == b;
  }

  lemma NotInAppend(a: string, b: string, c: char)
    requires c !in a && c !in b
    ensures c !in a + b
  {
  }

  lemma {:induction false} NotInJoin(parts: seq<string>, sep: char, c: char)
    requires c != sep
    requires forall i :: 0 <= i < |parts| ==> c !in parts[i]
    ensures c !in Join(parts, sep)
  {
    if |parts| > 1 {
      NotInJoin(parts[1..], sep, c);
      NotInAppend(parts[0], [sep], c);
      NotInAppend(parts[0] + [sep], Join(parts[1..], sep), c);
    }
  }

  /** Splitting a join gives back the parts when none contains the separator. */
  lemma {:induction false} SplitJoin(parts: seq<string>, sep: char)
    requires |parts| >= 1
    requires forall i :: 0 <= i < |parts| ==> sep !in parts[i]
    ensures Split(Join(parts, sep), sep) == parts
  {
    if |parts| == 1 {
    } else {
      SplitJoin(parts[1..], sep);
      SplitAfter(parts[0], sep, Join(parts[1..], sep));
    }
  }

  /** The encoded key contains neither '?' nor '&'. */
  lemma EncodedKeyHasNoDelimiters(apiKey: string)
    ensures '?' !in UrlEncode(apiKey) && '&' !in UrlEncode(apiKey)
  {
    var key := UrlEncode(apiKey);
    forall i | 0 <= i < |key| ensures key[i] != '?' && key[i] != '&' { }
  }

  /** Apart from the key, no parameter and no part of the base address holds
      a '?' or an '&'. */
  lemma FixedPartsHaveNoDelimiters()
    ensures '?' !in BaseUrl
    ensures '?' !in "lat=" + Latitude && '?' !in "lon=" + Longitude && '?' !in "appid=" && '?' !in "units=metric"
    ensures '&' !in "lat=" + Latitude && '&' !in "lon=" + Longitude && '&' !in "appid=" && '&' !in "units=metric"
  {
    assert '?' !in "https://api.openweathermap.org";
    assert '?' !in "/data/2.5/weather";
    NotInAppend("https://api.openweathermap.org", "/data/2.5/weather", '?');
  }

  lemma ParametersHaveNoDelimiters(apiKey: string)
    ensures forall i :: 0 <= i < 4 ==> '?' !in Parameters(UrlEncode(apiKey))[i] && '&' !in Parameters(UrlEncode(apiKey))[i]
  {
    EncodedKeyHasNoDelimiters(apiKey);
    FixedPartsHaveNoDelimiters();
    NotInAppend("appid=", UrlEncode(apiKey), '?');
    NotInAppend("appid=", UrlEncode(apiKey), '&');
  }

  /** The URL is the base address and the query, whatever the key. */
  lemma WeatherUrlSplitsAtQuery(apiKey: string)
    ensures Split(WeatherUrl(apiKey), '?') == [BaseUrl, Query(UrlEncode(apiKey))]
  {
    var query := Query(UrlEncode(apiKey));
    ParametersHaveNoDelimiters(apiKey);
    NotInJoin(Parameters(UrlEncode(apiKey)), '&', '?');
    FixedPartsHaveNoDelimiters();
    SplitAfter(BaseUrl, '?', query);
  }

  /** The query holds exactly four parameters, lat, lon, appid and units, in
      that order, whatever the key: the encoded key cannot add or split
      parameters. */
  lemma QueryParameters(apiKey: string)
    ensures Split(Query(UrlEncode(apiKey)), '&')
         == ["lat=" + Latitude, "lon=" + Longitude, "appid=" + UrlEncode(apiKey), "units=metric"]
  {
    ParametersHaveNoDelimiters(apiKey);
    SplitJoin(Parameters(UrlEncode(apiKey)), '&');
  }

  // ---------------------------------------------------------------------------
  // The decoded response

  datatype MainJson = MainJson(temp: Result<real, string>, humidity: Result<int, string>)
  datatype ConditionJson = ConditionJson(main: Result<string, string>)
  datatype WindJson = WindJson(speed: Result<real, string>, deg: Result<int, string>)
  datatype SysJson = SysJson(country: Result<string, string>)

  /** The response object, as far as getWeatherData reads it. `main` is None
      when the object has no "main" key. Each Err holds the message of the
      exception the JSON library raises when that read fails. */
  datatype WeatherJson = WeatherJson(
    main: Option<Result<MainJson, string>>,
    firstWeather: Result<ConditionJson, string>,   // getJSONArray("weather").getJSONObject(0)
    wind: Result<WindJson, string>,
    sys: Result<SysJson, string>,
    name: Result<string, string>,
    visibility: Result<int, string>)

  function Read<T>(r: Result<T, string>): Result<T, WeatherError> {
    match r
    case Ok(v) => Ok(v)
    case Err(m) => Err(LibraryFailure(m))
  }

  /** Every read the mapping makes succeeds. */
  predicate Complete(json: WeatherJson) {
    && json.main.Some? && json.main.value.Ok?
    && json.main.value.value.temp.Ok? && json.main.value.value.humidity.Ok?
    && json.firstWeather.Ok? && json.firstWeather.value.main.Ok?
    && json.wind.Ok? && json.wind.value.speed.Ok? && json.wind.value.deg.Ok?
    && json.sys.Ok? && json.sys.value.country.Ok?
    && json.name.Ok? && json.visibility.Ok?
  }

  /** The mapping from the response object to a Weather record, in the order
      the source reads the fields: the "main" check, the nested objects and the
      name, then the fields of the record. */
  function ToWeather(json: WeatherJson): (r: Result<Weather, WeatherError>)
    ensures json.main.None? ==> r == Err(InvalidWeatherData)
    ensures r != Err(ApiKeyNotConfigured)
    ensures r.Ok? <==> Complete(json) && DirectionIndex(json.wind.value.deg.value) >= 0
    ensures r.Ok? ==>
              && r.value.temperature == json.main.value.value.temp.value
              && r.value.condition == json.firstWeather.value.main.value
              && r.value.humidity == json.main.value.value.humidity.value
              && r.value.visibility == TDiv(json.visibility.value, 1000)
              && r.value.windSpeed == json.wind.value.speed.value
              && r.value.windDirection == Directions[DirectionIndex(json.wind.value.deg.value)]
              && r.value.location == json.name.value + ", " + json.sys.value.country.value
  {
    if json.main.None? then Err(InvalidWeatherData)
    else
      var main :- Read(json.main.value);
      var weather :- Read(json.firstWeather);
      var wind :- Read(json.wind);
      var sys :- Read(json.sys);
      var name :- Read(json.name);
      var temperature :- Read(main.temp);
      var condition :- Read(weather.main);
      var humidity :- Read(main.humidity);
      var visibility :- Read(json.visibility);
      var windSpeed :- Read(wind.speed);
      var degrees :- Read(wind.deg);
      var windDirection :- WindDirection(degrees);
      var country :- Read(sys.country);
      Ok(Weather(temperature, condition, humidity, TDiv(visibility, 1000), windSpeed, windDirection,
                 name + ", " + country))
  }

  // ---------------------------------------------------------------------------
  // getWeatherData

  /** The key as the service holds it: the configured value, trimmed. */
  function ApiKey(configured: string): (k: string)
    ensures k == [] <==> IsBlank(configured)
  {
    Trim(configured)
  }

  predicate KeyConfigured(apiKey: string) {
    !(apiKey == "YOUR_API_KEY" || apiKey == [])
  }

  /** `getWeatherData`: the key check, then the request for the fixed
      coordinates (`fetch` reads the URL and decodes the body, or fails with
      the library's message), then the mapping. */
  function GetWeatherData(configuredKey: string, fetch: string -> Result<WeatherJson, string>)
    : (r: Result<Weather, WeatherError>)
    // the key guard: a blank key, or the placeholder after trimming, fails
    // with the configuration error whatever the network would answer, and no
    // other key does
    ensures r == Err(ApiKeyNotConfigured) <==> IsBlank(configuredKey) || Trim(configuredKey) == "YOUR_API_KEY"
    ensures KeyConfigured(Trim(configuredKey)) ==>
              match fetch(WeatherUrl(Trim(configuredKey)))
              case Err(m) => r == Err(LibraryFailure(m))
              case Ok(json) => r == ToWeather(json)
  {
    var apiKey := ApiKey(configuredKey);
    if !KeyConfigured(apiKey) then Err(ApiKeyNotConfigured)
    else
      match fetch(WeatherUrl(apiKey))
      case Err(m) => Err(LibraryFailure(m))
      case Ok(json) => ToWeather(json)
  }

  // ---------------------------------------------------------------------------
  // Best last-known location

  datatype Location = Location(latitude: real, longitude: real, accuracy: real)

  /** The timeout fallback: asks each provider in turn for its last known
      location (None for no location or a refused permission) and keeps the
      first one, replacing it only by one of strictly smaller accuracy. */
  method BestLastKnownLocation(lastKnown: seq<Option<Location>>) returns (r: Result<Location, string>)
    ensures r.Err? <==> forall i :: 0 <= i < |lastKnown| ==> lastKnown[i].None?
    ensures r.Err? ==> r.error == "Could not get location"
    ensures r.Ok? ==> exists i :: 0 <= i < |lastKnown| && lastKnown[i] == Some(r.value)
                       && (forall j :: 0 <= j < i && lastKnown[j].Some? ==> lastKnown[j].value.accuracy > r.value.accuracy)
    ensures r.Ok? ==> forall j :: 0 <= j < |lastKnown| && lastKnown[j].Some? ==>
                        r.value.accuracy <= lastKnown[j].value.accuracy
  {
    var bestLocation: Option<Location> := None;
    var bestAccuracy: real := 0.0;
    ghost var bestIndex := 0;
    for p := 0 to |lastKnown|
      invariant bestLocation.None? <==> forall i :: 0 <= i < p ==> lastKnown[i].None?
      invariant bestLocation.Some? ==> bestAccuracy == bestLocation.value.accuracy
      invariant bestLocation.Some? ==>
                  0 <= bestIndex < p && lastKnown[bestIndex] == bestLocation
                  && (forall j :: 0 <= j < bestIndex && lastKnown[j].Some? ==> lastKnown[j].value.accuracy > bestAccuracy)
      invariant bestLocation.Some? ==>
                  forall j :: 0 <= j < p && lastKnown[j].Some? ==> bestAccuracy <= lastKnown[j].value.accuracy
    {
      var location := lastKnown[p];
      if location.Some? && (bestLocation.None? || location.value.accuracy < bestAccuracy) {
        bestLocation := location;
        bestAccuracy := location.value.accuracy;
        bestIndex := p;
      }
    }
    if bestLocation.Some? {
      r := Ok(bestLocation.value);
    } else {
      r := Err("Could not get location");
    }
  }
}
