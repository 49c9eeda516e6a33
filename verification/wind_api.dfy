/** The part of the OpenWeatherMap fetch that runs after the HTTP exchange: the unit
    conversion, the checks on the decoded JSON, the error messages for a failed request,
    and the extraction of a `WindData` reading. The request itself, JSON decoding and
    Python's `float()` on strings are inputs of the model. */
module WindApi {
  import opened Wrappers
  import opened Numbers
  import opened Text

  /** A wind reading: speed in metres per second and an optional direction in degrees. */
  datatype WindData = WindData(speedMps: real, directionDeg: Option<real>)

  /** A decoded JSON value. Integers and floats stay apart because Python prints them
      differently. */
  datatype Json =
    | JNull
    | JBool(b: bool)
    | JInt(i: int)
    | JFloat(f: real)
    | JString(s: string)
    | JArray(items: seq<Json>)
    | JObject(fields: map<string, Json>)

  /** Behaviour of Python built-ins the model does not spell out: `float()` on a string,
      and `str()` / `repr()` of floats and containers. */
  datatype Conversions = Conversions(
    parseFloat: string -> Option<real>,
    strOther: Json -> string,
    repr: Json -> string)

  /** What the HTTP exchange produced: a transport error, or a status code with the body
      text and the body decoded as JSON (`None` when decoding raised). */
  datatype HttpOutcome =
    | TransportError(detail: string)
    | HttpResponse(status: int, text: string, json: Option<Json>)

  /** The distinct ways `fetch_wind_for_city` raises `WindAPIError`. */
  datatype WindApiError =
    | MissingApiKey
    | ContactFailed(detail: string)
    | RequestFailed(message: string)
    | InvalidJson
    | NotAnObject
    | MissingWind
    | MissingSpeed
    | NonNumericSpeed(raw: Json)

  /** The text each error carries. The kind of error can be read back from the text, and
      a message or detail it carries ends the text. */
  function ErrorText(e: WindApiError, py: Conversions): (t: string)
    ensures KindOfText(t) == KindOf(e)
    ensures e.ContactFailed? ==> |t| >= |e.detail| && t[|t| - |e.detail|..] == e.detail
    ensures e.RequestFailed? ==> |t| >= |e.message| && t[|t| - |e.message|..] == e.message
  {
    match e
    case MissingApiKey =>
      var t := "No OpenWeatherMap API key provided. " + "Set OPENWEATHER_API_KEY or pass --api-key.";
      assert t[0] == 'N';
      t
    case ContactFailed(d) =>
      var t := "Error contacting OpenWeatherMap: " + d;
      assert t[0] == 'E' && t[|t| - |d|..] == d;
      t
    case RequestFailed(m) =>
      var t := "OpenWeatherMap request failed: " + m;
      assert t[0] == 'O' && t[|t| - |m|..] == m;
      t
    case InvalidJson => "API returned invalid JSON."
    case NotAnObject =>
      var t := "Unexpected JSON structure " + "from API (expected an object).";
      assert t[0] == 'U';
      t
    case MissingWind =>
      var t := "API response does not contain 'wind" + "' section.";
      assert t[0] == 'A' && t[13] == 'd' && t[35] == '\'';
      t
    case MissingSpeed =>
      var t := "API response does not contain 'wind" + ".speed' value.";
      assert t[0] == 'A' && t[13] == 'd' && t[35] == '.';
      t
    case NonNumericSpeed(raw) =>
      var t := "API returned non-numeric wind speed: " + py.repr(raw);
      assert t[0] == 'A' && t[13] == 'n';
      t
  }

  /** The position of each kind of error in the declaration. */
  function KindOf(e: WindApiError): nat
  {
    match e
    case MissingApiKey => 0
    case ContactFailed(_) => 1
    case RequestFailed(_) => 2
    case InvalidJson => 3
    case NotAnObject => 4
    case MissingWind => 5
    case MissingSpeed => 6
    case NonNumericSpeed(_) => 7
  }

  /** The kind of error a message reports, read off the characters where the eight
      messages first differ. */
  function KindOfText(t: string): nat
  {
    if |t| < 26 then 8
    else if t[0] == 'N' then 0
    else if t[0] == 'E' then 1
    else if t[0] == 'O' then 2
    else if t[0] == 'U' then 4
    else if t[13] == 'i' then 3
    else if t[13] == 'n' then 7
    else if |t| > 35 && t[35] == '\'' then 5
    else 6
  }

  /** The message names the error: texts that agree come from the same error, except that
      two non-numeric speeds may share a text when `repr` prints their values alike. */
  lemma ErrorTextIdentifies(e1: WindApiError, e2: WindApiError, py: Conversions)
    requires ErrorText(e1, py) == ErrorText(e2, py)
    ensures e1 == e2 || (e1.NonNumericSpeed? && e2.NonNumericSpeed?)
  {
    assert KindOf(e1) == KindOf(e2);
  }

  /** Python truthiness of a decoded value. */
  predicate Truthy(j: Json)
  {
    match j
    case JNull => false
    case JBool(b) => b
    case JInt(i) => i != 0
    case JFloat(f) => f != 0.0
    case JString(s) => |s| > 0
    case JArray(items) => |items| > 0
    case JObject(fields) => |fields| > 0
  }

  /** `dict.get(key)`: a missing key reads as `None`, like an explicit `null`. */
  function Get(fields: map<string, Json>, key: string): Json
  {
    if key in fields then fields[key] else JNull
  }

  /** Python's `str()` of a decoded value. */
  function PyStr(j: Json, py: Conversions): string
  {
    match j
    case JNull => "None"
    case JBool(b) => if b then "True" else "False"
    case JInt(i) => IntToDecimal(i)
    case JString(s) => s
    case _ => py.strOther(j)
  }

  /** Python's `float()` of a decoded value; `None` where it raises `TypeError` or `ValueError`. */
  function PyFloat(j: Json, py: Conversions): Option<real>
  {
    match j
    case JBool(b) => Some(if b then 1.0 else 0.0)
    case JInt(i) => Some(i as real)
    case JFloat(f) => Some(f)
    case JString(s) => py.parseFloat(s)
    case _ => None
  }

  const MetresPerSecondPerMile: real := 0.44704

  /** `_convert_speed_to_mps`: miles per hour become metres per second under `imperial`;
      every other unit system already reports metres per second. */
  function ConvertSpeedToMps(speed: real, units: string): (r: real)
    ensures (r >= 0.0) == (speed >= 0.0)
    ensures (r == 0.0) == (speed == 0.0)
    ensures Abs(r) <= Abs(speed)
  {
    if units == "imperial" then speed * MetresPerSecondPerMile else speed
  }

  /** The conversion is a fixed factor per unit system: 0.44704 under `imperial`, and 1
      (the speed unchanged) under every other units string. */
  lemma ConvertScaling(speed: real, units: string)
    ensures ConvertSpeedToMps(speed, units) == speed * ConvertSpeedToMps(1.0, units)
    ensures 0.0 < ConvertSpeedToMps(1.0, units) <= 1.0
    ensures ConvertSpeedToMps(1.0, "imperial") == 0.44704
    ensures units != "imperial" ==> ConvertSpeedToMps(1.0, units) == 1.0
    ensures units != "imperial" ==> ConvertSpeedToMps(speed, units) == speed
  {
  }

  /** A faster reading converts to a faster speed. */
  lemma ConvertMonotone(a: real, b: real, units: string)
    requires a < b
    ensures ConvertSpeedToMps(a, units) < ConvertSpeedToMps(b, units)
  {
  }

  /** Flooring at zero before or after the conversion gives the same speed, so the floor
      in `ExtractWind` acts on the reading as the API reported it. */
  lemma ConvertFloorCommutes(speed: real, units: string)
    ensures Max(0.0, ConvertSpeedToMps(speed, units)) == ConvertSpeedToMps(Max(0.0, speed), units)
  {
  }

  const SnippetLimit: nat := 120

  /** The body text shown for a failed request: stripped, and cut to 117 characters plus
      `...` when longer than 120. */
  function Snippet(text: string): (r: string)
    ensures |r| <= SnippetLimit
    ensures |Strip(text)| <= SnippetLimit ==> r == Strip(text)
    ensures |Strip(text)| > SnippetLimit ==>
      |r| == SnippetLimit && r[..117] == Strip(text)[..117] && r[117..] == "..."
  {
    var t := Strip(text);
    if |t| > SnippetLimit then t[..117] + "..." else t
  }

  /** The `message`/`cod` pair of an error payload, or "" when the message is falsy. */
  function ApiMessage(fields: map<string, Json>, py: Conversions): string
  {
    var message := Get(fields, "message");
    var code := Get(fields, "cod");
    if !Truthy(message) then ""
    else if Truthy(code) then PyStr(code, py) + ": " + PyStr(message, py)
    else PyStr(message, py)
  }

  /** The message of a non-200 response: the API's own message when there is one,
      otherwise the status code and a snippet of the body. */
  function FailureMessage(status: int, text: string, json: Option<Json>, py: Conversions): string
  {
    var apiMessage := if json.Some? && json.value.JObject? then ApiMessage(json.value.fields, py) else "";
    if apiMessage != "" then apiMessage
    else
      var snippet := Snippet(text);
      "HTTP " + IntToDecimal(status) + ": " + (if snippet == "" then "unknown error" else snippet)
  }

  /** The direction of a `wind` section: absent, null and non-numeric all give `None`. */
  function DirectionOf(wind: map<string, Json>, py: Conversions): Option<real>
  {
    var raw := Get(wind, "deg");
    if raw == JNull then None else PyFloat(raw, py)
  }

  /** Checks the shape of a decoded 200 response and extracts the reading. */
  function ExtractWind(data: Json, units: string, py: Conversions): (r: Result<WindData, WindApiError>)
    ensures r.Success? ==> r.value.speedMps >= 0.0
  {
    if !data.JObject? then Failure(NotAnObject)
    else
      var wind := Get(data.fields, "wind");
      if !wind.JObject? then Failure(MissingWind)
      else
        var raw := Get(wind.fields, "speed");
        if raw == JNull then Failure(MissingSpeed)
        else match PyFloat(raw, py)
          case None => Failure(NonNumericSpeed(raw))
          case Some(v) =>
            Success(WindData(Max(0.0, ConvertSpeedToMps(v, units)), DirectionOf(wind.fields, py)))
  }

  /** `fetch_wind_for_city` once the HTTP outcome is known. */
  function FetchWind(apiKey: string, units: string, outcome: HttpOutcome, py: Conversions)
    : (r: Result<WindData, WindApiError>)
    ensures apiKey == "" ==> r == Failure(MissingApiKey)
    ensures r.Success? ==> r.value.speedMps >= 0.0
    ensures r.Success? ==> outcome.HttpResponse? && outcome.status == 200 && outcome.json.Some?
    ensures apiKey != "" && outcome.TransportError? ==> r == Failure(ContactFailed(outcome.detail))
    ensures apiKey != "" && outcome.HttpResponse? && outcome.status != 200 ==>
      r == Failure(RequestFailed(FailureMessage(outcome.status, outcome.text, outcome.json, py)))
    ensures apiKey != "" && outcome.HttpResponse? && outcome.status == 200 && outcome.json.None? ==>
      r == Failure(InvalidJson)
    ensures apiKey != "" && outcome.HttpResponse? && outcome.status == 200 && outcome.json.Some? ==>
      r == ExtractWind(outcome.json.value, units, py)
  {
    if apiKey == "" then Failure(MissingApiKey)
    else match outcome
      case TransportError(d) => Failure(ContactFailed(d))
      case HttpResponse(status, text, json) =>
        if status != 200 then Failure(RequestFailed(FailureMessage(status, text, json, py)))
        else if json.None? then Failure(InvalidJson)
        else ExtractWind(json.value, units, py)
  }

  // ---------------------------------------------------------------------------
  // Properties

  /** The payload shape checks, in order: each error is reported exactly when its check is
      the first to fail. */
  lemma PayloadErrors(data: Json, units: string, py: Conversions)
    ensures ExtractWind(data, units, py) == Failure(NotAnObject) <==> !data.JObject?
    ensures ExtractWind(data, units, py) == Failure(MissingWind)
      <==> data.JObject? && !Get(data.fields, "wind").JObject?
    ensures ExtractWind(data, units, py) == Failure(MissingSpeed)
      <==> data.JObject? && Get(data.fields, "wind").JObject?
           && Get(Get(data.fields, "wind").fields, "speed") == JNull
    ensures ExtractWind(data, units, py).Failure? && ExtractWind(data, units, py).error.NonNumericSpeed?
      <==> data.JObject? && Get(data.fields, "wind").JObject?
           && Get(Get(data.fields, "wind").fields, "speed") != JNull
           && PyFloat(Get(Get(data.fields, "wind").fields, "speed"), py).None?
  {
  }

  /** A readable speed always succeeds, whatever `wind.deg` holds, and the reading is the
      converted speed floored at zero. */
  lemma SpeedExtraction(wind: map<string, Json>, rest: map<string, Json>, units: string, py: Conversions, v: real)
    requires PyFloat(Get(wind, "speed"), py) == Some(v) && Get(wind, "speed") != JNull
    ensures
      var r := ExtractWind(JObject(rest["wind" := JObject(wind)]), units, py);
      && r.Success?
      && r.value.speedMps == Max(0.0, ConvertSpeedToMps(v, units))
      && (v >= 0.0 ==> r.value.speedMps == ConvertSpeedToMps(v, units))
      && (v < 0.0 ==> r.value.speedMps == 0.0)
  {
    assert Get(rest["wind" := JObject(wind)], "wind") == JObject(wind);
  }

  /** `wind.deg` never decides success and never changes the speed: replacing it by any
      other value (or removing it) leaves the outcome's kind and speed alone. */
  lemma DirectionIsLenient(data: map<string, Json>, wind: map<string, Json>, deg: Json,
                           units: string, py: Conversions)
    ensures
      var r1 := ExtractWind(JObject(data["wind" := JObject(wind)]), units, py);
      var r2 := ExtractWind(JObject(data["wind" := JObject(wind["deg" := deg])]), units, py);
      && r1.Success? == r2.Success?
      && (r1.Success? ==> r1.value.speedMps == r2.value.speedMps)
      && (r1.Success? ==> r2.value.directionDeg == (if deg == JNull then None else PyFloat(deg, py)))
  {
    var wind2 := wind["deg" := deg];
    assert Get(data["wind" := JObject(wind)], "wind") == JObject(wind);
    assert Get(data["wind" := JObject(wind2)], "wind") == JObject(wind2);
    assert Get(wind2, "speed") == Get(wind, "speed");
    assert Get(wind2, "deg") == deg;
  }

  /** A missing or unparsable direction is `None`, never an error. */
  lemma DirectionNone(wind: map<string, Json>, py: Conversions)
    ensures "deg" !in wind ==> DirectionOf(wind, py) == None
    ensures "deg" in wind && wind["deg"].JString? && py.parseFloat(wind["deg"].s) == None
      ==> DirectionOf(wind, py) == None
    ensures "deg" in wind && (wind["deg"].JArray? || wind["deg"].JObject?) ==> DirectionOf(wind, py) == None
    ensures "deg" in wind && wind["deg"].JFloat? ==> DirectionOf(wind, py) == Some(wind["deg"].f)
  {
  }

  /** A non-200 response: a truthy API message wins, prefixed by the code when the code
      is truthy, whatever its type. */
  lemma FailureMessageFromApi(status: int, text: string, fields: map<string, Json>, py: Conversions)
    requires Truthy(Get(fields, "message")) && PyStr(Get(fields, "message"), py) != ""
    ensures Truthy(Get(fields, "cod")) ==>
      FailureMessage(status, text, Some(JObject(fields)), py)
        == PyStr(Get(fields, "cod"), py) + ": " + PyStr(Get(fields, "message"), py)
    ensures !Truthy(Get(fields, "cod")) ==>
      FailureMessage(status, text, Some(JObject(fields)), py) == PyStr(Get(fields, "message"), py)
  {
    if Truthy(Get(fields, "cod")) {
      assert |ApiMessage(fields, py)| >= 2;
    }
  }

  /** OpenWeatherMap's usual rejection, `{"cod": 401, "message": ...}`, reads `401: ...`. */
  lemma UnauthorisedMessage(text: string, message: string, py: Conversions)
    requires message != ""
    ensures FailureMessage(401, text, Some(JObject(map["cod" := JInt(401), "message" := JString(message)])), py)
      == "401: " + message
  {
    var fields := map["cod" := JInt(401), "message" := JString(message)];
    assert Get(fields, "cod") == JInt(401);
    assert Get(fields, "message") == JString(message);
    IntToDecimal401();
    FailureMessageFromApi(401, text, fields, py);
  }

  lemma IntToDecimal401()
    ensures IntToDecimal(401) == "401"
  {
  }

  /** A fetch succeeds exactly when a key is given, the server answers 200 with decodable
      JSON, and that payload passes the shape checks. */
  lemma FetchSucceeds(apiKey: string, units: string, outcome: HttpOutcome, py: Conversions)
    ensures FetchWind(apiKey, units, outcome, py).Success? <==>
      apiKey != "" && outcome.HttpResponse? && outcome.status == 200 && outcome.json.Some?
      && ExtractWind(outcome.json.value, units, py).Success?
  {
  }

  /** A non-200 response without a usable API message falls back to the body snippet, or
      to `unknown error` when the body is blank. */
  lemma FailureMessageFallback(status: int, text: string, json: Option<Json>, py: Conversions)
    requires json.None? || !json.value.JObject? || !Truthy(Get(json.value.fields, "message"))
    ensures Strip(text) != "" ==>
      FailureMessage(status, text, json, py) == "HTTP " + IntToDecimal(status) + ": " + Snippet(text)
    ensures Strip(text) == "" ==>
      FailureMessage(status, text, json, py) == "HTTP " + IntToDecimal(status) + ": unknown error"
  {
    if Strip(text) != "" {
      assert |Snippet(text)| > 0;
    }
  }

  /** Ten miles per hour in imperial units is 4.4704 metres per second. */
  lemma ImperialExample(py: Conversions)
    ensures FetchWind("key", "imperial",
      HttpResponse(200, "", Some(JObject(map["wind" := JObject(map["speed" := JInt(10)])]))), py)
      == Success(WindData(4.4704, None))
  {
    var wind := map["speed" := JInt(10)];
    assert Get(map["wind" := JObject(wind)], "wind") == JObject(wind);
    assert Get(wind, "speed") == JInt(10);
    assert Get(wind, "deg") == JNull;
  }
}
