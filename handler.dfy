/** The `/forecast` endpoint: read `lat` and `lon` from the query, check
    them, make the two upstream calls and answer with today's temperature
    and its description. Each check ends the request with an error reply
    when it fails, and nothing after it runs. */
module Handler {
  import opened Upstream
  import Temperature

  /** A decoded URL query: every key with its values in the order given. */
  type Query = map<string, seq<string>>

  /** The first value given for `key`, or "" when the key is absent or has
      no value, so a missing parameter and an empty one look the same. */
  function QueryGet(q: Query, key: string): (v: string)
    ensures key in q && q[key] != [] ==> v == q[key][0]
    ensures key !in q || q[key] == [] ==> v == ""
  {
    if key in q && q[key] != [] then q[key][0] else ""
  }

  /** A 64-bit float as the parser can produce it: a finite value (positive
      zero included), negative zero, not-a-number, or an infinity. Rounding
      of finite values is not modelled. */
  datatype Float64 = Finite(value: real) | NegativeZero | NaN | Infinity(negative: bool)

  /** JSON has no text for not-a-number or the infinities. */
  predicate Encodable(x: Float64) {
    x.Finite? || x.NegativeZero?
  }

  /** What the handler relies on but cannot see: number parsing and
      formatting, the transport, and the two JSON decoders. */
  datatype Env = Env(
    parseFloat: string -> Result<Float64>,
    formatFloat: Float64 -> string,
    get: string -> Result<HttpReply>,
    decodeMetadata: Bytes -> Result<MetadataResponse>,
    decodeForecast: Bytes -> Result<ForecastResponse>)

  const StatusBadRequest: int := 400
  const StatusInternalServerError: int := 500

  const MissingCoordinates: string := "Missing latitude or longitude"
  const InvalidLatitude: string := "Invalid latitude"
  const InvalidLongitude: string := "Invalid longitude"
  const ForecastURLFailed: string := "Error fetching forecast URL: "
  const ForecastFailed: string := "Error fetching today's temperature: "

  const PointsEndpoint: string := "https://api.weather.gov/points/"
  const TextContentType: string := "text/plain; charset=utf-8"
  const JsonContentType: string := "application/json"

  /** The body of a reply: an error line, the fields of the JSON object, or
      nothing at all when the object could not be encoded. */
  datatype Body =
    | Text(text: string)
    | Json(latitude: Float64, longitude: Float64, shortForecast: string, temperature: int,
           temperatureDescription: string)
    | Empty

  datatype Response = Response(status: int, contentType: string, body: Body)

  /** The reply `http.Error` writes: the code, a plain-text content type and
      the message followed by a newline. */
  function ErrorReply(message: string, code: int): (resp: Response)
    ensures resp.status == code && resp.contentType == TextContentType && resp.body.Text?
    ensures |resp.body.text| == |message| + 1
    ensures message <= resp.body.text && resp.body.text[|message|] == '\n'
  {
    Response(code, TextContentType, Text(message + "\n"))
  }

  /** The points-lookup URL for a coordinate pair. */
  function PointsURL(env: Env, lat: Float64, lon: Float64): (u: string)
    ensures PointsEndpoint <= u
    ensures u[|PointsEndpoint|..] == env.formatFloat(lat) + "," + env.formatFloat(lon)
  {
    PointsEndpoint + env.formatFloat(lat) + "," + env.formatFloat(lon)
  }

  /** How a request ends, up to the choice of description, together with the
      URLs it fetched, in order. */
  datatype Outcome =
    | Rejected(status: int, message: string, requests: seq<string>)
    | Served(latitude: Float64, longitude: Float64, period: ForecastPeriod, requests: seq<string>)

  /** The handler's checks as one function: each step in turn, and the first
      one that fails decides the reply. */
  function Stages(env: Env, q: Query): (o: Outcome)
    ensures o.Rejected? ==> o.status == StatusBadRequest || o.status == StatusInternalServerError
    ensures o.Rejected? && o.status == StatusBadRequest ==> o.requests == []
    ensures o.Rejected? && o.status == StatusInternalServerError ==> 1 <= |o.requests| <= 2
    ensures o.Served? ==> |o.requests| == 2 && PointsEndpoint <= o.requests[0]
  {
    var latText, lonText := QueryGet(q, "lat"), QueryGet(q, "lon");
    if latText == "" || lonText == "" then Rejected(StatusBadRequest, MissingCoordinates, [])
    else
      var lat := env.parseFloat(latText);
      if lat.Err? then Rejected(StatusBadRequest, InvalidLatitude, [])
      else
        var lon := env.parseFloat(lonText);
        if lon.Err? then Rejected(StatusBadRequest, InvalidLongitude, [])
        else
          var metadataURL := PointsURL(env, lat.value, lon.value);
          var forecastURL := GetForecastURL(env.get, env.decodeMetadata, metadataURL);
          if forecastURL.Err? then
            Rejected(StatusInternalServerError, ForecastURLFailed + forecastURL.error, [metadataURL])
          else
            var period := GetTodaysWeatherForecast(env.get, env.decodeForecast, forecastURL.value);
            if period.Err? then
              Rejected(StatusInternalServerError, ForecastFailed + period.error, [metadataURL, forecastURL.value])
            else Served(lat.value, lon.value, period.value, [metadataURL, forecastURL.value])
  }

  /** Handles one request. `requests` lists the URLs fetched, in order. A
      rejected request gets the error reply its failing step names. A served
      one gets status 200 and the JSON content type; its body is the JSON
      object, with a description the classifier may give for the period's
      temperature, unless a coordinate is not-a-number or infinite: encoding
      then fails before anything is written, and the body stays empty. */
  method ForecastHandler(env: Env, q: Query) returns (resp: Response, requests: seq<string>)
    ensures requests == Stages(env, q).requests
    ensures Stages(env, q).Rejected? ==> resp == ErrorReply(Stages(env, q).message, Stages(env, q).status)
    ensures Stages(env, q).Served? ==>
      var s := Stages(env, q);
      && resp.status == StatusOK && resp.contentType == JsonContentType
      && (resp.body.Json? <==> Encodable(s.latitude) && Encodable(s.longitude))
      && (!resp.body.Json? ==> resp.body == Empty)
    ensures Stages(env, q).Served? && resp.body.Json? ==>
      var s := Stages(env, q);
      && resp.body.latitude == s.latitude && resp.body.longitude == s.longitude
      && resp.body.shortForecast == s.period.shortForecast
      && resp.body.temperature == s.period.temperature
      && Temperature.Acceptable(s.period.temperature, resp.body.temperatureDescription)
  {
    requests := [];
    var latText := QueryGet(q, "lat");
    var lonText := QueryGet(q, "lon");

    if latText == "" || lonText == "" {
      return ErrorReply(MissingCoordinates, StatusBadRequest), requests;
    }

    var lat := env.parseFloat(latText);
    if lat.Err? {
      return ErrorReply(InvalidLatitude, StatusBadRequest), requests;
    }

    var lon := env.parseFloat(lonText);
    if lon.Err? {
      return ErrorReply(InvalidLongitude, StatusBadRequest), requests;
    }

    var metadataURL := PointsURL(env, lat.value, lon.value);
    requests := requests + [metadataURL];
    var forecastURL := GetForecastURL(env.get, env.decodeMetadata, metadataURL);
    if forecastURL.Err? {
      return ErrorReply(ForecastURLFailed + forecastURL.error, StatusInternalServerError), requests;
    }

    requests := requests + [forecastURL.value];
    var period := GetTodaysWeatherForecast(env.get, env.decodeForecast, forecastURL.value);
    if period.Err? {
      return ErrorReply(ForecastFailed + period.error, StatusInternalServerError), requests;
    }

    var description := Temperature.GetTemperatureDescription(period.value.temperature);
    if Encodable(lat.value) && Encodable(lon.value) {
      resp := Response(StatusOK, JsonContentType,
                       Json(lat.value, lon.value, period.value.shortForecast, period.value.temperature, description));
    } else {
      resp := Response(StatusOK, JsonContentType, Empty);
    }
  }

  /** A missing or empty `lat` or `lon` is rejected before anything is
      parsed or fetched: the reply does not depend on the environment. */
  lemma MissingCoordinatesComeFirst(env: Env, q: Query)
    requires QueryGet(q, "lat") == "" || QueryGet(q, "lon") == ""
    ensures Stages(env, q) == Rejected(StatusBadRequest, MissingCoordinates, [])
  {
  }

  /** With both values present, the latitude is checked before the
      longitude, and neither failure fetches anything. */
  lemma LatitudeCheckedBeforeLongitude(env: Env, q: Query)
    requires QueryGet(q, "lat") != "" && QueryGet(q, "lon") != ""
    ensures env.parseFloat(QueryGet(q, "lat")).Err? ==>
      Stages(env, q) == Rejected(StatusBadRequest, InvalidLatitude, [])
    ensures env.parseFloat(QueryGet(q, "lat")).Ok? && env.parseFloat(QueryGet(q, "lon")).Err? ==>
      Stages(env, q) == Rejected(StatusBadRequest, InvalidLongitude, [])
  {
  }

  /** A request is answered 400 exactly when a coordinate is missing or does
      not parse, and then nothing is fetched. */
  lemma BadRequestExactlyOnInvalidInput(env: Env, q: Query)
    ensures (Stages(env, q).Rejected? && Stages(env, q).status == StatusBadRequest) <==>
      || QueryGet(q, "lat") == "" || QueryGet(q, "lon") == ""
      || env.parseFloat(QueryGet(q, "lat")).Err? || env.parseFloat(QueryGet(q, "lon")).Err?
    ensures Stages(env, q).Rejected? && Stages(env, q).status == StatusBadRequest ==>
      Stages(env, q).requests == []
  {
  }

  /** Every other rejection is a 500 from one of the two upstream calls: a
      points-lookup failure after one fetch, or a forecast failure after two,
      each with its own message prefix. */
  lemma UpstreamFailuresAreServerErrors(env: Env, q: Query)
    ensures Stages(env, q).Rejected? && Stages(env, q).status != StatusBadRequest ==>
      var o := Stages(env, q);
      && o.status == StatusInternalServerError
      && ((ForecastURLFailed <= o.message && |o.requests| == 1) ||
          (ForecastFailed <= o.message && |o.requests| == 2))
  {
  }

  /** Once both coordinates parse, a failed points lookup is answered 500
      with "Error fetching forecast URL: " and its own error after that one
      fetch, and a failed forecast step with "Error fetching today's
      temperature: " and its own error after both fetches. */
  lemma UpstreamFailureReplies(env: Env, q: Query)
    requires QueryGet(q, "lat") != "" && QueryGet(q, "lon") != ""
    requires env.parseFloat(QueryGet(q, "lat")).Ok? && env.parseFloat(QueryGet(q, "lon")).Ok?
    ensures var u := PointsURL(env, env.parseFloat(QueryGet(q, "lat")).value,
                               env.parseFloat(QueryGet(q, "lon")).value);
            var f := GetForecastURL(env.get, env.decodeMetadata, u);
            f.Err? ==> Stages(env, q) == Rejected(StatusInternalServerError, ForecastURLFailed + f.error, [u])
    ensures var u := PointsURL(env, env.parseFloat(QueryGet(q, "lat")).value,
                               env.parseFloat(QueryGet(q, "lon")).value);
            var f := GetForecastURL(env.get, env.decodeMetadata, u);
            f.Ok? && GetTodaysWeatherForecast(env.get, env.decodeForecast, f.value).Err? ==>
              Stages(env, q) == Rejected(StatusInternalServerError,
                                         ForecastFailed + GetTodaysWeatherForecast(env.get, env.decodeForecast, f.value).error,
                                         [u, f.value])
  {
  }

  /** A request is served exactly when every step succeeds; it then made
      exactly two fetches, the points lookup and then the forecast URL that
      the lookup returned, and its period is the first one listed. */
  lemma ServedExactlyWhenEveryStepSucceeds(env: Env, q: Query)
    ensures Stages(env, q).Served? <==>
      && QueryGet(q, "lat") != "" && QueryGet(q, "lon") != ""
      && env.parseFloat(QueryGet(q, "lat")).Ok? && env.parseFloat(QueryGet(q, "lon")).Ok?
      && var metadataURL := PointsURL(env, env.parseFloat(QueryGet(q, "lat")).value,
                                      env.parseFloat(QueryGet(q, "lon")).value);
         && GetForecastURL(env.get, env.decodeMetadata, metadataURL).Ok?
         && GetTodaysWeatherForecast(env.get, env.decodeForecast,
                                     GetForecastURL(env.get, env.decodeMetadata, metadataURL).value).Ok?
    ensures Stages(env, q).Served? ==>
      var o := Stages(env, q);
      var metadataURL := PointsURL(env, o.latitude, o.longitude);
      && o.latitude == env.parseFloat(QueryGet(q, "lat")).value
      && o.longitude == env.parseFloat(QueryGet(q, "lon")).value
      && o.requests == [metadataURL, GetForecastURL(env.get, env.decodeMetadata, metadataURL).value]
      && FetchURL(env.get, o.requests[1]).Ok?
      && o.period == env.decodeForecast(FetchURL(env.get, o.requests[1]).value).value.periods[0]
  {
  }

  /** A points lookup answered with a non-200 status gives a 500 whose
      message names the failed lookup and the upstream status line. */
  lemma MetadataLookupRefused(env: Env, q: Query, status: string, body: Bytes)
    requires QueryGet(q, "lat") != "" && QueryGet(q, "lon") != ""
    requires env.parseFloat(QueryGet(q, "lat")).Ok? && env.parseFloat(QueryGet(q, "lon")).Ok?
    requires var url := PointsURL(env, env.parseFloat(QueryGet(q, "lat")).value,
                                  env.parseFloat(QueryGet(q, "lon")).value);
             env.get(url) == Ok(HttpReply(503, status, body))
    ensures Stages(env, q).Rejected?
    ensures Stages(env, q).status == StatusInternalServerError
    ensures Stages(env, q).message == ForecastURLFailed + FetchFailedPrefix + status
    ensures |Stages(env, q).requests| == 1
  {
  }

  /** A forecast with no periods gives a 500 saying so. */
  lemma ForecastWithoutPeriods(env: Env, q: Query, forecastURL: string, reply: HttpReply)
    requires QueryGet(q, "lat") != "" && QueryGet(q, "lon") != ""
    requires env.parseFloat(QueryGet(q, "lat")).Ok? && env.parseFloat(QueryGet(q, "lon")).Ok?
    requires var url := PointsURL(env, env.parseFloat(QueryGet(q, "lat")).value,
                                  env.parseFloat(QueryGet(q, "lon")).value);
             GetForecastURL(env.get, env.decodeMetadata, url) == Ok(forecastURL)
    requires env.get(forecastURL) == Ok(reply) && reply.statusCode == StatusOK
    requires env.decodeForecast(reply.body) == Ok(ForecastResponse([]))
    ensures Stages(env, q) == Rejected(StatusInternalServerError, ForecastFailed + NoPeriods,
                                       [PointsURL(env, env.parseFloat(QueryGet(q, "lat")).value,
                                                  env.parseFloat(QueryGet(q, "lon")).value),
                                        forecastURL])
  {
  }
}
