# OpenWeatherMap forecast: a Dafny model

This project models the forecast path of the OpenWeatherMap PHP client, class
`Forecast` in `cmfcmf/OpenWeatherMap/Forecast.php`. Building a `Forecast` for
a number of days does four things:

- It picks a provider operation from the horizon. Up to 5 days uses hourly data, 6 to 14 days uses daily data, and more than 14 throws before any request.
- It asks that operation for XML.
- It sorts the answer into a forecast document or one of three errors.
- On success, it builds one `WeatherForecast` per `<time>` element. Every entry points at the same `City` object.

The finished object is walked with PHP's `Iterator` protocol, which keeps one
integer cursor.

Files:

- `payload.dfy` (module `Payload`): the answer as the two foreign parsers
  see it. `RawAnswer` is `False`, `Xml(doc)` (a text SimpleXML accepts) or
  `NotXml(json)` (a text it rejects, plus what `json_decode($answer, true)`
  gives). `Member` and `IsSet` give PHP's meaning of `$error[key]` and
  `isset($error[key])`.
- `forecast.dfy` (module `OwmForecast`):
  - `SourceFor` is the horizon rule. `Interpret` classifies the answer.
  - The class `Forecast` keeps the fields `city`, `lastUpdate`, `forecasts` and `position`.
  - `Forecast.Create` is the part of `__construct` that can throw. The unnamed constructor builds the entry list in place.
  - `Rewind`, `Current`, `Key`, `Next` and `Valid` are the iterator methods.
  - `Foreach` is the loop PHP runs for `foreach` over an `Iterator`. It is proved to yield `Pass(forecasts, 0)`, and `PassEnumerates` shows what that sequence is.
  - The class `OpenWeatherMap` stands in for the provider. It returns fixed answers and records every request made to it, so the contracts can say which source was asked and when none was.

## Notes on the source's behaviour

- The horizon check (`cmfcmf/OpenWeatherMap/Forecast.php`, line 92) has no lower bound: zero or negative days go to the hourly source.
- Only an answer that is exactly `false` (line 100) is a malformed query.
- The unknown-error exception (line 114) keeps nothing of the answer. `print_r($error)` echoes the decoded answer to the output and returns `true`, so the message ends in "1". `UnknownFatalError` therefore carries nothing.
- A document with no `<time>` element (line 121) gives a Forecast with no entries, not an error.

## Model

| member | source | states |
|---|---|---|
| `OwmForecast.SourceFor` | cmfcmf/OpenWeatherMap/Forecast.php:92-98 | The hourly source is chosen exactly when days <= 5, including zero and negative days. The daily source is chosen exactly when 5 < days <= 14. No source is chosen exactly when days > 14. |
| `OwmForecast.Interpret` | cmfcmf/OpenWeatherMap/Forecast.php:100-116 | An answer of `false` gives exactly the wrong-query-format error. A parsed XML document gives exactly a success carrying that document. Non-XML JSON whose `message` is set gives exactly a provider error carrying the two arguments passed to the exception: the decoded `message` (non-null) and the decoded `cod` (null when missing). Every other answer gives exactly the unknown-fatal error. |
| `Payload.Member` | cmfcmf/OpenWeatherMap/Forecast.php:111-112 | `$error[key]` on decoded JSON: the member's value when the answer decodes to an object with that key, and null otherwise: a missing key, a list, a non-string scalar, or no JSON at all. |
| `Payload.IsSet` | cmfcmf/OpenWeatherMap/Forecast.php:111 | `isset($error[key])` holds exactly when the decoded answer is an object that has the key with a non-null value. It never holds for a scalar, a list or undecodable text. |
| `OwmForecast.Forecast.Create` | cmfcmf/OpenWeatherMap/Forecast.php:90-125 | days <= 5 makes exactly one hourly XML request with the query, units, lang and appid. 5 < days <= 14 makes exactly one daily request. days > 14 makes no request and fails with the horizon error. Otherwise the result is the error `Interpret` gives for the answer, with no Forecast. On success it is a fresh Forecast that `Describes` the document. |
| `OwmForecast.Forecast.constructor` | cmfcmf/OpenWeatherMap/Forecast.php:118-125 | Creates a fresh City with id -1 and the document's name, longitude, latitude and country, and sets lastUpdate from the document. The cursor starts at 0. There is one fresh, distinct entry per `<time>` element, in document order, each with the given units and lang. Every entry's `city` is this forecast's own City object. |
| `OwmForecast.City.constructor` | cmfcmf/OpenWeatherMap/Forecast.php:118 | The City records its id, name, longitude, latitude and country as given. |
| `OwmForecast.WeatherForecast.constructor` | cmfcmf/OpenWeatherMap/Forecast.php:122 | The entry records its `<time>` element, units and language. |
| `OwmForecast.Forecast.Rewind` | cmfcmf/OpenWeatherMap/Forecast.php:131-133 | The cursor becomes 0. Its frame is the cursor field only, so forecasts, city and lastUpdate are unchanged. |
| `OwmForecast.Forecast.Current` | cmfcmf/OpenWeatherMap/Forecast.php:138-140 | While the cursor is inside the list, returns the entry at the cursor. Returns null exactly when the cursor is at or past the end. |
| `OwmForecast.Forecast.Key` | cmfcmf/OpenWeatherMap/Forecast.php:145-147 | Returns the cursor. |
| `OwmForecast.Forecast.Next` | cmfcmf/OpenWeatherMap/Forecast.php:152-154 | The cursor grows by exactly one. Its frame is the cursor field only, so nothing else changes. |
| `OwmForecast.Forecast.Valid` | cmfcmf/OpenWeatherMap/Forecast.php:159-161 | True exactly when 0 <= position < the number of entries. With no `<time>` element the list is empty, so it is false right after a rewind. |
| `OwmForecast.PassEnumerates` | cmfcmf/OpenWeatherMap/Forecast.php:131-161 | A pass started at cursor `pos` yields the items from `pos` to the end, each once and in stored order, paired with its own index. |
| `OwmForecast.Foreach` | cmfcmf/OpenWeatherMap/Forecast.php:131-161 | Rewind, then valid/current/key/next until not valid. From any starting cursor this yields exactly `(i, forecasts[i])` for i = 0..n-1, in order, and leaves the cursor at n. When the entries share the forecast's City, every yielded entry's city is that City. |
| `OwmForecast.TwoPasses` | cmfcmf/OpenWeatherMap/Forecast.php:131-161 | A second pass after another rewind yields exactly the same sequence as the first, one pair per entry. |

## Left out

- Network and caching: the model does not cover the `OpenWeatherMap` client, its cache class and cache lifetime, or the HTTP requests behind `getRawHourlyForecastData` and `getRawDailyForecastData`. The class `OpenWeatherMap` here is a stand-in that is passed in: it returns fixed answers and records requests.
- `OwmForecast.Forecast.Create`: the source creates the `OpenWeatherMap` object inside the constructor (line 90). In the model it is a parameter, so its requests can be observed.
- XML and JSON syntax: the model does not cover SimpleXML or `json_decode`. An answer is given by what they produce (`RawAnswer`). JSON numbers are integers only; floats are not modelled.
- libxml error handling (lines 87-88): the model leaves out the switch to internal errors and the clearing of errors. They only change global library state.
- `lastUpdate` is kept as the `<lastupdate>` text. The `\DateTime` construction is not modelled.
- `City` and `WeatherForecast` contents: the model records their constructor arguments and nothing else.
- `OwmForecast.WeatherForecast.constructor`: it says nothing about the entry's initial `city`. The class is not part of this model, and `Forecast` sets that field straight afterwards.
- Exception texts: the model keeps the error category and drops the message texts and the `$copyright` string.
- The unknown-error path (line 114): `print_r` echoes the decoded answer to the output. That echo is not modelled.
- `OwmForecast.Forecast.Create`: it does not model exceptions raised after the answer is classified. `new \DateTime(...)` (line 119) throws on an unparsable `<lastupdate>`, and the `City` and `WeatherForecast` constructors (lines 118 and 122) may throw. In the model a parsed document always yields a Forecast.
- `OwmForecast.Interpret`: the provider error carries the arguments given to `new OWMException($error['message'], $error['cod'])` (line 112), as decoded. The model does not cover how the exception constructor converts them. PHP's `\Exception` turns the message into a string and the code into an int: `"404"` becomes 404 and a missing `cod` becomes 0. A non-scalar message or a non-numeric code makes that constructor fail. OWMException itself is not part of this model.
- `Payload.Member`: a decoded JSON string also gives null. PHP does not: it warns and returns a character, or raises an error. Line 112 reads `$error['message']` and `$error['cod']` only after `isset($error['message'])` holds, and that never holds for a string.
- PHP loose typing: `days` is an integer. Comparisons of non-numeric or fractional values are not modelled.
- An unset `forecasts` list (zero `<time>` elements) is modelled as the empty sequence. All five iterator methods behave the same on both.
- `position` is an unbounded natural. PHP's integer overflow to float after `PHP_INT_MAX` calls to `next` is not modelled.
- `Current` past the end: PHP also raises an undefined-index notice here. The model only returns null.
