# Weather forecast pipeline — a Dafny model

This project models the forecast pipeline of a small Rails application that
turns an address into a multi-day weather forecast. Two parts are modelled:

- **The service** (`WeatherForecastService`). It rejects a blank geolocation
  and reads through a cache keyed by `"forecast_" + postal code`. On a miss it
  calls the weather provider and caches the response, with a 30-minute expiry,
  only when it is successful. A blank postal code skips the cache. A transport
  error becomes nil and one error-log line. An unsuccessful response gives nil.
  The service is a class that owns the cache map. Ghost fields count cache
  reads and writes, record each provider call with its parameters, and keep
  the error log. Its methods are proved against pure functions (`Fetch`,
  `Wrap`, `Serve`), and the lemmas about the service are stated over those
  functions.
- **The normaliser** (`ForecastResponse.from_response` and the value objects
  `Condition`, `Location`, `ForecastDay`, `Current`). It works on an
  already-parsed response body. Each key of a hash is a `Slot`: absent, nil,
  or a value. This separates `hash[key]`, where both absent and nil read as
  nil, from `hash.fetch(key)`, where an absent key raises. Exceptions become
  `Result` errors (`KeyError`, `NoMethodError`). The central rule is the
  head/tail split: the first mapped forecast day enriches `Current`, and the
  rest become `forecast_days`.

Files: `support.dfy` (Option, Slot, Result, `blank?`), `payload.dfy` (the
parsed body), `condition.dfy`, `location.dfy`, `forecast_day.dfy`,
`current.dfy`, `forecast_response.dfy`, `weather_forecast_service.dfy`.

Readings chosen where the code and its callers disagree:

- `cache_hit`: `from_response` takes no `cache_hit`
  (app/models/weather_api/forecast_response.rb:11), and `initialize` has no
  such field. The service passes one (app/services/weather_forecast_service.rb:18),
  and the model tests read it back. The model threads it through
  `FromResponse` into the `cache_hit` field, as the callers expect. Taken
  literally, the call at line 18 would raise `ArgumentError`. The model does
  not reproduce that.
- `location`: the code stores the raw `body[:location]` hash. The model does
  the same (`Option<LocationHash>`, None when nil). `Location.FromHash` is the
  field-for-field copy the tests apply on top of it.
- `Condition.from_hash` is called (forecast_day.rb:26) but not defined.
  `Condition.New` models the strict `initialize`. `Condition.FromHash` models
  the lenient reading the tests describe. See Findings.
- `Current.from_hash` fetches `:forecast` with no default (current.rb:20).
  The tests expect a missing key to give nil. Both readings are modelled. See
  Findings. `from_response` always supplies the key, so the two agree there.
- `Condition.new` with an absent key raises `KeyError` in the code. One test
  expects `ArgumentError`. The model follows the code.

## Model

| member | source | states |
|---|---|---|
| `Support.Slot.Get` | app/models/weather_api/forecast_day.rb:21-25 | `hash[key]`: a value exactly when the key holds one. An absent key and a nil value both read as nil. |
| `Support.Slot.FetchOr` | app/models/weather_api/current.rb:10 | `hash.fetch(key, default)`: only an absent key gives the default. A nil value reads as nil, and a value as itself. |
| `Support.BlankString` | app/models/weather_api/location.rb:24 | `blank?` on a string: the empty string is blank, and a string starting with a non-whitespace character is not. |
| `Support.Blank` | app/services/weather_forecast_service.rb:36 | `blank?` on a value that may be nil: nil and `""` are blank, and a string starting with a non-whitespace character is not. |
| `Support.BlankStringConcat` | app/models/weather_api/location.rb:24 | A concatenation is blank exactly when both of its pieces are. |
| `Condition.New` | app/models/weather_api/condition.rb:5-9 | Succeeds exactly when `text`, `icon` and `code` are all keys of the hash. A key present with nil is kept as nil. The first absent key, in the order text, icon, code, is the `KeyError` raised. |
| `Condition.FromHash` | spec/models/weather_api/condition_spec.rb:28-61 | Never fails. Each field is set exactly when its key holds a value, and is nil for an absent or nil key. |
| `Condition.NewIsStrictFromHash` | app/models/weather_api/condition.rb:5-9 | The strict constructor is the lenient one restricted to hashes with all three keys. Any other hash gives a `KeyError`. |
| `Location.FromHash` | app/models/weather_api/location.rb:13-21 | Copies the five keys. An absent or nil key becomes nil, and nothing is refused. |
| `Location.RejectBlank` | app/models/weather_api/location.rb:24 | Keeps no more parts than it is given, and none of the kept parts is blank. |
| `Location.RejectBlankSingle` | app/models/weather_api/location.rb:24 | One part is dropped exactly when it is blank, and kept as its string otherwise. |
| `Location.RejectBlankAppend` | app/models/weather_api/location.rb:24 | Rejecting blanks distributes over concatenation. With `RejectBlankSingle`, every non-blank part is kept, in its order, and every blank one is dropped. |
| `Location.Join` | app/models/weather_api/location.rb:24 | `join(", ")`: no parts give `""`. One part gives that part. Two or more start with the first part followed by the separator. |
| `Location.FullName` | app/models/weather_api/location.rb:23-25 | The display name is `""` exactly when name, region and country are all blank (nil, empty or whitespace only). |
| `Location.FullNameByAppending` | app/models/weather_api/location.rb:24 | `reject(&:blank?).join(", ")` equals an independent accumulation. That accumulation appends each non-blank part in the order name, region, country, with a separator only after something already written. |
| `Location.FullNameCases` | app/models/weather_api/location.rb:24 | With all three parts present: `name, region, country`. With a blank region: `name, country`. With only the country: the country alone. |
| `Location.FullNameIgnoresTimeFields` | app/models/weather_api/location.rb:24 | Changing `tz_id` or `localtime` never changes the display name. |
| `Location.FullNameOfParis` | spec/models/weather_api/location_spec.rb:88-100 | `{name: "Paris", region: "", country: "France"}` is shown as `"Paris, France"`. |
| `ForecastDay.DayOf` | app/models/weather_api/forecast_day.rb:17 | `params[:day] \|\| {}`: the nested record when it holds a value, and otherwise a record in which every key reads as nil. |
| `ForecastDay.FromHash` | app/models/weather_api/forecast_day.rb:16-28 | The date comes from the top level. The four temperatures come from the nested `day`, and are all nil when `day` is absent or nil. The condition is set exactly when `day.condition` holds a value, and is then built from it. |
| `ForecastDay.FromHashAsWritten` | app/models/weather_api/forecast_day.rb:26 | Fails exactly when `day.condition` holds a value, and the error is then `NoMethodError` for `from_hash`. Otherwise it agrees with `FromHash`. |
| `ForecastDay.AsWrittenRejectsPopulatedDay` | app/models/weather_api/forecast_day.rb:16-28 | A fully populated day from the provider's schema is refused as written. The corrected reading maps it field for field. |
| `ForecastDay.MapFromHash` | app/models/weather_api/forecast_day.rb:33 | Same length as its input, and element i is `from_hash` of input element i. |
| `ForecastDay.ManyFromHash` | app/models/weather_api/forecast_day.rb:30-34 | nil gives `[]`. A list, the empty one included, gives a list of the same length whose element i is `from_hash` of input element i. |
| `ForecastDay.MapFromHashAppend` | app/models/weather_api/forecast_day.rb:33 | Mapping distributes over concatenation, so no day is lost, added or reordered. |
| `ForecastDay.ConditionText` | app/models/weather_api/forecast_day.rb:5 | The condition's text when there is a condition. A nil condition raises `NoMethodError` (the delegation has no `allow_nil`). |
| `ForecastDay.ConditionIcon` | app/models/weather_api/forecast_day.rb:5 | The same for the icon. |
| `ForecastDay.ConditionCode` | app/models/weather_api/forecast_day.rb:5 | The same for the code. |
| `Current.New` | app/models/weather_api/current.rb:8-13 | An absent temperature defaults to 0.0. An absent condition or forecast defaults to nil. A value that is given, nil included, is stored unchanged. |
| `Current.NewWithNoArguments` | app/models/weather_api/current.rb:8-13 | `new` with no arguments gives temperatures 0.0, 0.0 and a nil condition and forecast. |
| `Current.Reading` | app/models/weather_api/current.rb:15-19 | The strict fetches succeed exactly when both temperatures are keys (nil allowed) and `condition` holds a hash with all three condition keys. Errors come in evaluation order: `KeyError` for `temp_c`, then `temp_f`, then `condition`, and `NoMethodError` for a nil condition. |
| `Current.FromHashAsWritten` | app/models/weather_api/current.rb:15-22 | Succeeds exactly when the hash is well formed and has the `forecast` key. The forecast is passed through unchanged. |
| `Current.FromHash` | app/models/weather_api/current.rb:15-22 | Succeeds exactly when the hash is well formed, with an absent `forecast` tolerated. The temperatures are copied. The condition is built from the nested hash. The forecast is passed through unchanged, and is nil when absent. Errors are those of the strict fetches. |
| `Current.FromHashAsWrittenDiffersOnlyOnMissingForecast` | app/models/weather_api/current.rb:20 | With the `forecast` key present, both readings agree. Without it, a well-formed hash is refused with `KeyError` as written and read with a nil forecast when corrected. |
| `Current.ConditionText` | app/models/weather_api/current.rb:5 | The condition's text, or nil when the condition is nil. |
| `Current.ConditionIcon` | app/models/weather_api/current.rb:5 | The condition's icon, or nil when the condition is nil. |
| `Current.ConditionCode` | app/models/weather_api/current.rb:5 | The condition's code, or nil when the condition is nil. |
| `Current.MaxtempC` | app/models/weather_api/current.rb:6 | Today's `maxtemp_c` from the forecast, or nil when there is no forecast. |
| `Current.MaxtempF` | app/models/weather_api/current.rb:6 | Today's `maxtemp_f`, or nil when there is no forecast. |
| `Current.MintempC` | app/models/weather_api/current.rb:6 | Today's `mintemp_c`, or nil when there is no forecast. |
| `Current.MintempF` | app/models/weather_api/current.rb:6 | Today's `mintemp_f`, or nil when there is no forecast. |
| `ForecastResponse.Default` | app/models/weather_api/forecast_response.rb:5-9 | `new` with no arguments gives location `{}`, current `{}`, no forecast days, and `cache_hit` false. |
| `ForecastResponse.DayHashes` | app/models/weather_api/forecast_response.rb:14 | `dig(:forecast, :forecastday)` gives a list exactly when both keys hold values, and that list is the `forecastday` value. |
| `ForecastResponse.AllDays` | app/models/weather_api/forecast_response.rb:14 | No `forecastday` list gives no days. A list gives as many days as it has entries, and day i is `from_hash` of entry i. |
| `ForecastResponse.CurrentArgs` | app/models/weather_api/forecast_response.rb:18 | `**body[:current], forecast: forecast_current`: the temperatures and condition are the `current` object's own slots, all absent when that object is missing or nil. The `forecast` key is always present and holds today's day, or nil when there is none. |
| `ForecastResponse.FromResponse` | app/models/weather_api/forecast_response.rb:11-21 | Succeeds exactly when the `current` object is well formed. The result then carries the given `cache_hit`, a `Current`, and the body's location hash. |
| `ForecastResponse.SplitsFirstDayOff` | app/models/weather_api/forecast_response.rb:14 | With N ≥ 1 mapped days, `current.forecast` is day 0, `forecast_days` is days 1..N−1 in order (N−1 of them), and putting day 0 back in front rebuilds the full list. With N = 0, both are empty. |
| `ForecastResponse.ForecastDaysAreLaterDays` | app/models/weather_api/forecast_response.rb:14-19 | Element i of `forecast_days` is `from_hash` of the provider's day i + 1. |
| `ForecastResponse.MissingForecastIsEmptyForecast` | app/models/weather_api/forecast_response.rb:14 | A body without `forecast` gives exactly the result of a body with an empty `forecastday` list. |
| `ForecastResponse.CurrentReadingSources` | app/models/weather_api/forecast_response.rb:18 | The current temperatures and condition text come from the top-level `current` object. Today's max/min temperatures come from day 0. |
| `ForecastResponse.CacheHitIsPassedThrough` | app/services/weather_forecast_service.rb:18 | The flag decides neither whether the result is built nor what else it holds. Two flags give results that differ only in `cache_hit`. |
| `ForecastResponse.AsWrittenCurrentAgreesInNormaliser` | app/models/weather_api/forecast_response.rb:18 | Inside `from_response` the strict and corrected `Current.from_hash` never differ, because the `forecast` key is always supplied. |
| `WeatherForecastService.CacheKey` | app/services/weather_forecast_service.rb:38 | The key is the prefix `forecast_` followed by the postal code and nothing else. |
| `WeatherForecastService.CacheKeyInjective` | app/services/weather_forecast_service.rb:38 | Distinct postal codes never share a cache key. |
| `WeatherForecastService.Fetch` | app/services/weather_forecast_service.rb:23-33 | A delivered response is returned as is, with no log line. A transport error gives nil and exactly one log line, `Weather API request failed: ` plus the message. |
| `WeatherForecastService.Wrap` | app/services/weather_forecast_service.rb:35-46 | At most one provider call, cache read and cache write. It is a hit exactly when the provider is not called. The cache changes exactly when a write happens. A cache holding only successful responses still does afterwards. With a non-blank postal code whose key is cached, the cached response is returned with the hit flag. Otherwise the fetched response (nil on a transport error) is returned without it. |
| `WeatherForecastService.Normalise` | app/services/weather_forecast_service.rb:18 | The reply `from_response` gives is never nil. It is a forecast exactly when the body is well formed, and that forecast carries the given `cache_hit`. |
| `WeatherForecastService.Serve` | app/services/weather_forecast_service.rb:6-19 | A forecast only comes from a geolocation with coordinates. The only-successful-responses cache invariant is preserved. On a hit, the reply is the cached response normalised with `cache_hit` true (nil if that response is unsuccessful). Otherwise it is the delivered response normalised with `cache_hit` false when that is successful, and nil when not. |
| `WeatherForecastService.FetchedSuccessIsNormalised` | app/services/weather_forecast_service.rb:16-18 | A successful response fetched on a blank postal code or a miss becomes the forecast `from_response` builds with `cache_hit` false, or the error it raises. |
| `WeatherForecastService.CachedResponseIsNormalised` | app/services/weather_forecast_service.rb:16-18 | A cached successful response becomes the forecast `from_response` builds from it with `cache_hit` true, or the error it raises, whatever the provider would return. |
| `WeatherForecastService.BlankGeolocationIsInert` | app/services/weather_forecast_service.rb:7 | A nil geolocation, or one without coordinates, gives nil. It causes no provider call, no cache read or write, and no log line. |
| `WeatherForecastService.BlankZipBypassesCache` | app/services/weather_forecast_service.rb:36 | A blank postal code means exactly one provider call, no cache read or write, and `cache_hit` false. |
| `WeatherForecastService.HitSkipsProvider` | app/services/weather_forecast_service.rb:39-40 | A cached entry is served with `cache_hit` true. It causes no provider call, no write and no log line. The forecast is the one built from the cached response (`CachedResponseIsNormalised`). |
| `WeatherForecastService.HitIsNeverNil` | app/services/weather_forecast_service.rb:39-43 | While the cache holds only successful responses, a hit never yields nil. |
| `WeatherForecastService.MissWritesOnlySuccess` | app/services/weather_forecast_service.rb:42-45 | On a miss the provider is called once. The response is written under the key with the 30-minute expiry if and only if it is successful. Otherwise the cache is unchanged. |
| `WeatherForecastService.UnsuccessfulFetchGivesNil` | app/services/weather_forecast_service.rb:16 | When the provider is called and does not deliver a successful response, `call` gives nil and the cache is not written. |
| `WeatherForecastService.TransportErrorIsLoggedOnce` | app/services/weather_forecast_service.rb:30-33 | A transport error gives nil, exactly one error-log line, and an unchanged cache. |
| `WeatherForecastService.LogOnlyOnTransportError` | app/services/weather_forecast_service.rb:30-32 | A log line is written only when the provider was called and raised a transport error. |
| `WeatherForecastService.RepeatedCallIsServedFromCache` | app/services/weather_forecast_service.rb:35-46 | After a call whose provider result was successful, a second call for the same postal code is a hit whatever the provider would do. It makes no provider call and no cache change, and gives the same forecast flagged `cache_hit` true. |
| `WeatherForecastService.WeatherForecastService.constructor` | app/services/weather_forecast_service.rb:2-4 | A new service starts with the given cache store, no reads, writes, provider calls or log lines. It satisfies the object invariant whenever the store holds only successful responses with the 30-minute expiry. |
| `WeatherForecastService.WeatherForecastService.ForecastRequest` | app/services/weather_forecast_service.rb:23-33 | Records one provider call with its coordinates and `days`. Returns `Fetch`'s response and appends `Fetch`'s log lines. Leaves the cache alone. |
| `WeatherForecastService.WeatherForecastService.CacheWrapper` | app/services/weather_forecast_service.rb:35-46 | The response, hit flag, new cache, counters, log and call record are those `Wrap` gives for the old cache. The object invariant is kept: only successful responses, all with the 30-minute expiry. |
| `WeatherForecastService.WeatherForecastService.Call` | app/services/weather_forecast_service.rb:6-19 | The reply, new cache, counters and log are those `Serve` gives for the old cache. The call record grows by exactly one request, with the geolocation's coordinates and the `days` argument, when `Serve` calls the provider, and is unchanged otherwise. The object invariant is kept. |
| `WeatherForecastService.WeatherForecastService.CallWithDefaultDays` | app/services/weather_forecast_service.rb:6 | `call` without `days:`: as `Call`, with the recorded request carrying the default of 6 days. |

## Left out

- The HTTP client (`lib/weather_api/client.rb`) is not part of this model:
  connection pool, retries, backoff, timeouts and API key. The model sees only
  its outcome: a delivered response or a transport error.
- The other Faraday wrapper, the geocoding service, the controller and the
  Redis initializer are not modelled. The geocoder's result is the input
  `Option<Geo>`.
- `JSON.parse` is not modelled. The model starts from the parsed body, and the
  cache stores that body rather than the raw JSON text.
- Time-based expiry is not simulated. Each write records its expiry (30
  minutes), and an entry stays until it is overwritten.
- Concurrent callers sharing the cache store are not modelled. The cache is a
  field of one service object, and operations are sequential.
- The formatting of `q` as `"lat,lng"` is left out. A provider call records
  the coordinates and `days` as values.
- `blank?` on the geolocation object is modelled as nil only. Blank
  coordinates (nil or `[]`) are modelled as an absent `coordinates` value.
- `ForecastResponse.new` with some but not all keywords is not modelled. The
  full constructor is the datatype constructor, and `Default` covers no
  arguments.
- The keyword errors (`ArgumentError`) of `Location.new` and
  `ForecastDay.new` are not modelled. Their datatype constructors always take
  all fields.
- A missing or nil top-level `current` object is read as an empty hash, as
  Ruby 3.4 does for `**nil`. It then fails on the `temp_c` fetch. Earlier
  Rubies raise `TypeError` there instead.
- An exception raised during normalisation becomes the `Raised` reply. The
  code lets it propagate out of `call`.
- `forecast_request` rescues only `Faraday::Error`
  (app/services/weather_forecast_service.rb:30). Any other exception from the
  client, such as a connection-pool checkout timeout, propagates out of
  `call`. `Outcome` has no case for it, so the model does not capture that
  path.
- Temperatures are `real` and are only copied. No float arithmetic or
  formatting is modelled.

## Findings

| source | as written | input that shows it | evidently intended | confidence | as-written member | corrected member |
|---|---|---|---|---|---|---|
| app/models/weather_api/forecast_day.rb:26 | calls `Condition.from_hash`, which `Condition` does not define, so `from_hash` raises `NoMethodError` for any day with a non-nil `day.condition` | the day `{date: "2023-10-02", day: {maxtemp_c: 23.5, …, condition: {text: "Light rain", icon: "rain.png", code: 1063}}}` | a lenient `Condition.from_hash` that maps absent keys to nil | high; not executed | `ForecastDay.FromHashAsWritten`, shown by `ForecastDay.AsWrittenRejectsPopulatedDay` | `ForecastDay.FromHash` (with `Condition.FromHash`) |
| app/models/weather_api/current.rb:20 | `params.fetch(:forecast)` with no default raises `KeyError` when the key is absent | a well-formed current hash `{temp_c:, temp_f:, condition:}` with no `forecast` key | an absent `forecast` gives a nil forecast | high; not executed | `Current.FromHashAsWritten`, shown by `Current.FromHashAsWrittenDiffersOnlyOnMissingForecast` | `Current.FromHash` |
