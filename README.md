# Weather forecast proxy: a Dafny model

The service answers `GET /forecast?lat=<float>&lon=<float>`. It looks up the
coordinates at the weather service's points endpoint, follows the forecast URL
that the lookup returns, takes the first forecast period, and replies with
JSON: the coordinates, the period's short forecast, its temperature, and a
description of that temperature. The description comes from a table of six
inclusive temperature ranges.

The model has three modules, one per part of `main.go`:

- `Temperature` (`temperature.dfy`) holds the range table and the classifier.
  - The table is a Dafny `map`, as it is a Go map.
  - Go visits a map in an unspecified order, so `GetTemperatureDescription`
    walks the map's keys and picks any unvisited key at each step (`:|`). Its
    contract is the relation `Acceptable`: the answer is a label of some range
    containing the temperature, or `"unknown temperature range"` exactly when
    no range does.
  - `Bands` states independently, band by band, which labels apply where, and
    `MatchesAreBands` ties the table to it. From that follow:
    - the unknown case is exactly below 12 or above 120;
    - the temperatures with two possible answers are exactly 32, 40..50, 60,
      80 and 95.
  - `FirstMatch` is a lookup over an explicit order. `FirstMatchRefines`
    proves that any order visiting every key refines the unordered lookup.
    With the table's written order, an overlap always goes to the lower range.
- `Upstream` (`upstream.dfy`) holds the two upstream calls: the points lookup
  and the forecast fetch, ending in the choice of the first period. The
  transport and the JSON decoders are passed in as functions.
- `Handler` (`handler.dfy`) holds the request handler. `ForecastHandler` is the
  early-return chain of the source, written as an imperative method.
  - It returns the reply and the list of URLs it fetched.
  - The pure function `Stages` specifies it, and the lemmas about `Stages` prove:
    - the validation order;
    - which status each failure gets, and which message prefix;
    - that a failure stops every later step;
    - that a served request made exactly two fetches, in sequence.

Neighbouring ranges share the end points 32, 60, 80 and 95, and the ranges
[32, 50] and [40, 60] overlap on all of 40..50. Errors are plain texts: each
step passes on the text of the error that stopped it, and the handler puts a
prefix in front of it.

Coordinates are 64-bit floats. The parser can also produce negative zero,
not-a-number and the infinities. Such coordinates pass validation and are
formatted into the points URL. If upstream then answers, encoding the JSON
reply fails on not-a-number or an infinity before anything is written; the
handler ignores that error. The reply is then status 200 with the JSON content
type and an empty body. The model includes this case.

## Model

| member | source | states |
|---|---|---|
| `Temperature.GetTemperatureDescription` | main.go:50-57 | whatever order the map is visited in, the answer is the label of a range containing the temperature, and it is `"unknown temperature range"` exactly when no range contains it |
| `Temperature.UnknownIsNotALabel` | main.go:40-47 | the unknown text is not the label of any range, so a caller can tell a miss from a match |
| `Temperature.MatchesAreBands` | main.go:40-47 | the labels whose ranges in the table `TemperatureDescriptions` (the six ranges and labels of the source, as a map) contain a temperature are exactly those of an independent band-by-band statement of the table |
| `Temperature.UnknownExactlyOutsideTable` | main.go:40-57 | no range contains a temperature exactly when it is below 12 or above 120 (the ranges leave no gap) |
| `Temperature.AmbiguousExactlyAtSharedBounds` | main.go:40-47 | at most two labels apply to any temperature, and two do exactly at 32, 40..50, 60, 80 and 95 |
| `Temperature.UnambiguousAnswer` | main.go:40-55 | a temperature inside exactly one range gets that range's label whatever the visiting order |
| `Temperature.Examples` | main.go:40-57 | 20 is only "very cold", 70 only "warm", 100 only "very hot"; 45 may be "cold" or "moderate", 32 "very cold" or "cold"; 10 and 121 match nothing |
| `Temperature.FirstMatchIndex` | main.go:51-54 | the position found is the first range in the visiting order that contains the temperature: every earlier range misses it, and `|order|` means none contains it |
| `Temperature.FirstMatch` | main.go:50-57 | an ordered lookup answers unknown exactly when no range of the order contains the temperature |
| `Temperature.FirstMatchRefines` | main.go:40-57 | any visiting order that covers every key of the table gives an answer the unordered lookup may give |
| `Temperature.SourceOrderRefines` | main.go:40-47 | `SourceOrder`, the six keys in the order the table is written, is such an order |
| `Temperature.SourceOrderPrefersLowerRange` | main.go:40-57 | with the written order the lookup is deterministic: each label covers the temperatures from the previous range's upper end (exclusive) to its own upper end (inclusive), and 12..120 is covered |
| `Upstream.FetchURL` | main.go:60-72 | a fetch succeeds exactly when the transport succeeds with status 200, yielding the body; a transport error is passed on, and another status gives "failed to fetch data: " and the status line |
| `Upstream.GetForecastURL` | main.go:75-87 | the points lookup succeeds exactly when its fetch and its decode succeed, yielding the decoded `properties.forecast`; otherwise the first failure's error is returned |
| `Upstream.FirstPeriod` | main.go:101-105 | today's period is element 0 when the list is non-empty; an empty list gives "no forecast periods found" |
| `Upstream.GetTodaysWeatherForecast` | main.go:90-106 | the forecast step succeeds exactly when its fetch and decode succeed and the list is non-empty, yielding the first period; otherwise the first failure's error, "no forecast periods found" for an empty list |
| `Handler.QueryGet` | main.go:111-112 | a query value is the first one given for the key, and "" when the key is absent or has no value |
| `Handler.Stages` | main.go:114-149 | the decision chain: a rejection is 400 or 500, a 400 fetched nothing, a 500 fetched one or two URLs, and a served request fetched exactly two, the first at the points endpoint |
| `Handler.ErrorReply` | main.go:116-116 | what `http.Error` writes: the given status, the plain-text content type, and the message followed by one newline |
| `Handler.PointsURL` | main.go:134-134 | the points URL is the points endpoint followed by the formatted latitude, a comma and the formatted longitude |
| `Handler.ForecastHandler` | main.go:109-160 | the URLs fetched and the reply are the ones the decision chain determines. A rejection is written as `http.Error` writes it. A served request gets status 200 and the JSON content type. When both coordinates can be encoded, the body holds the parsed coordinates, the period's short forecast and temperature, and a description that the classifier may give for that temperature. Otherwise the body is empty |
| `Handler.MissingCoordinatesComeFirst` | main.go:115-118 | a missing or empty `lat` or `lon` gives 400 "Missing latitude or longitude" with nothing fetched, whatever the parser and upstream would do |
| `Handler.LatitudeCheckedBeforeLongitude` | main.go:120-131 | with both present, a bad latitude gives 400 "Invalid latitude" whatever the longitude is; only a good latitude and a bad longitude give 400 "Invalid longitude"; neither fetches |
| `Handler.BadRequestExactlyOnInvalidInput` | main.go:114-131 | the reply is 400 exactly when a coordinate is missing or fails to parse, and a 400 has fetched nothing |
| `Handler.UpstreamFailuresAreServerErrors` | main.go:136-149 | every other rejection is a 500: prefixed "Error fetching forecast URL: " after one fetch, or "Error fetching today's temperature: " after two |
| `Handler.ServedExactlyWhenEveryStepSucceeds` | main.go:133-158 | a request is served exactly when both coordinates parse and both upstream steps succeed. It then fetched the points URL and then the forecast URL that the lookup returned, and nothing else. Its coordinates are the parsed ones, and its period is the first one in the decoded forecast |
| `Handler.UpstreamFailureReplies` | main.go:136-149 | once both coordinates parse, a failed points lookup gives 500 "Error fetching forecast URL: " plus that step's own error, with only the points URL fetched; a failed forecast step gives 500 "Error fetching today's temperature: " plus its own error, with the points URL and then the forecast URL fetched |
| `Handler.MetadataLookupRefused` | main.go:136-141 | a points lookup answered with status 503 gives a 500 whose message is "Error fetching forecast URL: failed to fetch data: " followed by the upstream status line, after one fetch |
| `Handler.ForecastWithoutPeriods` | main.go:143-149 | a forecast with an empty period list gives 500 "Error fetching today's temperature: no forecast periods found" after both fetches |

## Left out

- The transport (`http.Get`, closing the body, `io.ReadAll`) is the function `get` of `Handler.Env`. It returns the status and the whole body, or an error text. A failure while reading the body is one of its error texts.
- JSON decoding (`json.Unmarshal`) is the functions `decodeMetadata` and `decodeForecast`. They return the used fields, or an error text. A forecast URL missing from the lookup is whatever string the decoder yields.
- JSON encoding of the reply (`json.NewEncoder(w).Encode`) is modelled only as its outcome: the record of the five fields when both coordinates are encodable, and an empty body when one is not-a-number or infinite. The serialised text is not modelled.
- `strconv.ParseFloat` and the `%f` formatting of the points URL are the functions `parseFloat` and `formatFloat`. Coordinates are `Float64` values: a finite `real`, negative zero, not-a-number or an infinity. Rounding of finite values is not modelled.
- `http.Error` also sets `X-Content-Type-Options: nosniff` and removes `Content-Length`. Those headers are not modelled; the status, the content type and the body line are.
- Parsing the raw query string (`r.URL.Query()`) is not modelled. The handler receives the decoded key/value map.
- Server registration and start-up (`http.HandleFunc`, `http.ListenAndServe`, the start-up message in `main`) are process-level I/O, left out.
- Concurrent dispatch of requests is left out. Requests share no state, so each call of `ForecastHandler` is independent.
- The recorded list of fetched URLs is the model's way to observe which upstream calls ran. The source keeps no such list.
- `Temperature.GetTemperatureDescription` models Go's randomised map order as an arbitrary choice at each step. Nothing is said about how likely each answer is.
