/** WeatherApi::ForecastResponse: the aggregate the service hands back, and
    the normaliser that builds it from a parsed response body. */
module ForecastResponse {
  import opened Support
  import opened Payload
  import ForecastDay
  import Current

  /** `location` is the raw location hash (nil when the body has none);
      `current` is None for the placeholder `{}` that `new` uses by default. */
  datatype ForecastResponse = ForecastResponse(
    location: Option<LocationHash>,
    current: Option<Current.Current>,
    forecast_days: seq<ForecastDay.ForecastDay>,
    cache_hit: bool)

  /** `ForecastResponse.new` with no arguments: location `{}`, current `{}`,
      no forecast days, and not a cache hit. */
  function Default(): (r: ForecastResponse)
    ensures r.location == Some(EmptyLocationHash)
    ensures r.current.None? && r.forecast_days == [] && !r.cache_hit
  {
    ForecastResponse(Some(EmptyLocationHash), None, [], false)
  }

  /** `body.dig(:forecast, :forecastday)`. */
  function DayHashes(body: Body): (hs: Option<seq<ForecastDayHash>>)
    ensures hs.Some? <==> body.forecast.Val? && body.forecast.value.forecastday.Val?
    ensures hs.Some? ==> hs.value == body.forecast.value.forecastday.value
  {
    if body.forecast.Val? then body.forecast.value.forecastday.Get() else None
  }

  /** Every forecast day of the body, mapped, in the provider's order. */
  function AllDays(body: Body): (days: seq<ForecastDay.ForecastDay>)
    ensures DayHashes(body).None? ==> days == []
    ensures DayHashes(body).Some? ==> |days| == |DayHashes(body).value|
    ensures DayHashes(body).Some? ==>
      forall i :: 0 <= i < |days| ==> days[i] == ForecastDay.FromHash(DayHashes(body).value[i])
  {
    ForecastDay.ManyFromHash(DayHashes(body))
  }

  /** `**body[:current], forecast: forecast_current`: the provider's current
      object with today's forecast added under `forecast` (a missing or nil
      current object contributes no keys). */
  function CurrentArgs(body: Body, today: Option<ForecastDay.ForecastDay>): (a: Current.HashArgs)
    ensures body.current.Val? ==>
      a.temp_c == body.current.value.temp_c && a.temp_f == body.current.value.temp_f &&
      a.condition == body.current.value.condition
    ensures !body.current.Val? ==> a.temp_c.Missing? && a.temp_f.Missing? && a.condition.Missing?
    ensures !a.forecast.Missing? && a.forecast.Get() == today
  {
    var c := if body.current.Val? then body.current.value else CurrentHash(Missing, Missing, Missing);
    Current.HashArgs(c.temp_c, c.temp_f, c.condition, if today.Some? then Val(today.value) else Null)
  }

  /** The body carries everything the strict part of the normaliser fetches. */
  predicate WellFormed(body: Body) {
    body.current.Val? && Current.WellFormed(CurrentArgs(body, None))
  }

  /** `ForecastResponse.from_response(response, cache_hit:)` from the parsed
      body: the first mapped day becomes `current.forecast`, the rest become
      `forecast_days`, and `cache_hit` is passed through. */
  function FromResponse(body: Body, cacheHit: bool): (r: Result<ForecastResponse>)
    ensures r.Ok? <==> WellFormed(body)
    ensures r.Ok? ==> r.value.cache_hit == cacheHit && r.value.current.Some?
    ensures r.Ok? ==> r.value.location == body.location.Get()
  {
    var days := AllDays(body);
    var today := if days == [] then None else Some(days[0]);
    var rest := if days == [] then [] else days[1..];
    match Current.FromHash(CurrentArgs(body, today))
    case Err(e) => Err(e)
    case Ok(current) => Ok(ForecastResponse(body.location.Get(), Some(current), rest, cacheHit))
  }

  /** The head/tail split: with N >= 1 mapped days, `current.forecast` is day 0
      and `forecast_days` is days 1..N-1 in order; with none, both are empty.
      Putting the head back in front gives every day exactly once. */
  lemma SplitsFirstDayOff(body: Body, cacheHit: bool)
    requires FromResponse(body, cacheHit).Ok?
    ensures var r := FromResponse(body, cacheHit).value; var days := AllDays(body);
      |r.forecast_days| == if days == [] then 0 else |days| - 1
    ensures var r := FromResponse(body, cacheHit).value; var days := AllDays(body);
      days != [] ==> r.current.value.forecast == Some(days[0]) && r.forecast_days == days[1..] &&
                     [r.current.value.forecast.value] + r.forecast_days == days
    ensures var r := FromResponse(body, cacheHit).value;
      AllDays(body) == [] ==> r.current.value.forecast.None? && r.forecast_days == []
  {
    var days := AllDays(body);
    if days != [] {
      assert [days[0]] + days[1..] == days;
    }
  }

  /** The i-th element of `forecast_days` is the provider's day i + 1. */
  lemma ForecastDaysAreLaterDays(body: Body, cacheHit: bool, i: nat)
    requires FromResponse(body, cacheHit).Ok?
    requires i < |FromResponse(body, cacheHit).value.forecast_days|
    ensures var hs := DayHashes(body);
      hs.Some? && i + 1 < |hs.value| &&
      FromResponse(body, cacheHit).value.forecast_days[i] == ForecastDay.FromHash(hs.value[i + 1])
  {
    SplitsFirstDayOff(body, cacheHit);
  }

  /** A body without `forecast` is read exactly like one whose `forecastday`
      list is empty. */
  lemma MissingForecastIsEmptyForecast(body: Body, cacheHit: bool)
    ensures FromResponse(body.(forecast := Missing), cacheHit) ==
            FromResponse(body.(forecast := Val(ForecastHash(Val([])))), cacheHit)
  {
    assert AllDays(body.(forecast := Missing)) == [];
    assert AllDays(body.(forecast := Val(ForecastHash(Val([]))))) == [];
  }

  /** The instant reading comes from the top-level `current` object, today's
      envelope from the first forecast day. */
  lemma CurrentReadingSources(body: Body, cacheHit: bool)
    requires FromResponse(body, cacheHit).Ok?
    ensures var c := FromResponse(body, cacheHit).value.current.value;
      c.temp_c == body.current.value.temp_c.Get() && c.temp_f == body.current.value.temp_f.Get() &&
      Current.ConditionText(c) == body.current.value.condition.value.text.Get()
    ensures var c := FromResponse(body, cacheHit).value.current.value; var days := AllDays(body);
      days != [] ==> Current.MaxtempC(c) == days[0].maxtemp_c && Current.MintempC(c) == days[0].mintemp_c &&
                     Current.MaxtempF(c) == days[0].maxtemp_f && Current.MintempF(c) == days[0].mintemp_f
  {
    SplitsFirstDayOff(body, cacheHit);
  }

  /** `cache_hit` is the caller's: the payload decides whether the result is
      built and what it holds, never the flag. */
  lemma CacheHitIsPassedThrough(body: Body, h1: bool, h2: bool)
    ensures FromResponse(body, h1).Ok? == FromResponse(body, h2).Ok?
    ensures FromResponse(body, h1).Err? ==> FromResponse(body, h1) == FromResponse(body, h2)
    ensures FromResponse(body, h1).Ok? ==>
      FromResponse(body, h2).value == FromResponse(body, h1).value.(cache_hit := h2)
  {
  }

  /** The `forecast` key `from_response` adds means the strict reading of
      `Current.from_hash` and the lenient one never differ here. */
  lemma AsWrittenCurrentAgreesInNormaliser(body: Body)
    ensures var days := AllDays(body); var today := if days == [] then None else Some(days[0]);
      Current.FromHashAsWritten(CurrentArgs(body, today)) == Current.FromHash(CurrentArgs(body, today))
  {
    var days := AllDays(body);
    var today := if days == [] then None else Some(days[0]);
    Current.FromHashAsWrittenDiffersOnlyOnMissingForecast(CurrentArgs(body, today));
  }
}
