/** The two calls to the upstream weather service: the points lookup that
    yields the forecast URL, and the forecast fetch that yields today's
    period. The transport and the JSON decoders are not visible here; they
    are passed in as functions, and their outcomes are whatever those
    functions say. */
module Upstream {

  /** A value or the text of the error that stopped the computation. */
  datatype Result<T> = Ok(value: T) | Err(error: string)

  type Bytes = seq<bv8>

  /** What the transport hands back for a request that reached the server. */
  datatype HttpReply = HttpReply(statusCode: int, status: string, body: Bytes)

  /** The part of the points lookup's JSON that is used: `properties.forecast`. */
  datatype MetadataResponse = MetadataResponse(forecast: string)

  /** One period of the forecast, as decoded from the upstream JSON. */
  datatype ForecastPeriod = ForecastPeriod(name: string, temperature: int, shortForecast: string)

  /** The part of the forecast's JSON that is used: `properties.periods`. */
  datatype ForecastResponse = ForecastResponse(periods: seq<ForecastPeriod>)

  const StatusOK: int := 200
  const FetchFailedPrefix: string := "failed to fetch data: "
  const NoPeriods: string := "no forecast periods found"

  /** Issues a GET through `get` and accepts only a 200 reply. */
  function FetchURL(get: string -> Result<HttpReply>, url: string): (r: Result<Bytes>)
    ensures r.Ok? <==> get(url).Ok? && get(url).value.statusCode == StatusOK
    ensures r.Ok? ==> r.value == get(url).value.body
    ensures get(url).Err? ==> r.error == get(url).error
    ensures get(url).Ok? && r.Err? ==> r.error == FetchFailedPrefix + get(url).value.status
  {
    match get(url)
    case Err(e) => Err(e)
    case Ok(reply) =>
      if reply.statusCode != StatusOK then Err(FetchFailedPrefix + reply.status)
      else Ok(reply.body)
  }

  /** Fetches the points lookup and returns the forecast URL it names. */
  function GetForecastURL(get: string -> Result<HttpReply>, decode: Bytes -> Result<MetadataResponse>,
                          metadataURL: string): (r: Result<string>)
    ensures r.Ok? <==> FetchURL(get, metadataURL).Ok? && decode(FetchURL(get, metadataURL).value).Ok?
    ensures r.Ok? ==> r.value == decode(FetchURL(get, metadataURL).value).value.forecast
    ensures FetchURL(get, metadataURL).Err? ==> r.error == FetchURL(get, metadataURL).error
    ensures FetchURL(get, metadataURL).Ok? && decode(FetchURL(get, metadataURL).value).Err? ==>
      r.error == decode(FetchURL(get, metadataURL).value).error
  {
    match FetchURL(get, metadataURL)
    case Err(e) => Err(e)
    case Ok(body) =>
      match decode(body)
      case Err(e) => Err(e)
      case Ok(metadata) => Ok(metadata.forecast)
  }

  /** Today's period is the first one the forecast lists; an empty list is an error. */
  function FirstPeriod(periods: seq<ForecastPeriod>): (r: Result<ForecastPeriod>)
    ensures r.Ok? <==> |periods| > 0
    ensures r.Ok? ==> r.value == periods[0] && r.value in periods
    ensures r.Err? ==> r.error == NoPeriods
  {
    if |periods| > 0 then Ok(periods[0]) else Err(NoPeriods)
  }

  /** Fetches the forecast and returns its first period. */
  function GetTodaysWeatherForecast(get: string -> Result<HttpReply>, decode: Bytes -> Result<ForecastResponse>,
                                    forecastURL: string): (r: Result<ForecastPeriod>)
    ensures r.Ok? <==>
      && FetchURL(get, forecastURL).Ok?
      && decode(FetchURL(get, forecastURL).value).Ok?
      && |decode(FetchURL(get, forecastURL).value).value.periods| > 0
    ensures r.Ok? ==> r.value == decode(FetchURL(get, forecastURL).value).value.periods[0]
    ensures FetchURL(get, forecastURL).Err? ==> r.error == FetchURL(get, forecastURL).error
    ensures FetchURL(get, forecastURL).Ok? && decode(FetchURL(get, forecastURL).value).Err? ==>
      r.error == decode(FetchURL(get, forecastURL).value).error
    ensures (FetchURL(get, forecastURL).Ok? && decode(FetchURL(get, forecastURL).value).Ok? &&
             decode(FetchURL(get, forecastURL).value).value.periods == []) ==> r.error == NoPeriods
  {
    match FetchURL(get, forecastURL)
    case Err(e) => Err(e)
    case Ok(body) =>
      match decode(body)
      case Err(e) => Err(e)
      case Ok(forecast) => FirstPeriod(forecast.periods)
  }
}
