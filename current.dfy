/** WeatherApi::Current: the instant reading, enriched with today's forecast. */
module Current {
  import opened Support
  import opened Payload
  import Condition
  import ForecastDay

  datatype Current = Current(
    temp_c: Option<real>,
    temp_f: Option<real>,
    condition: Option<Condition.Condition>,
    forecast: Option<ForecastDay.ForecastDay>)

  /** The keyword arguments of `Current.new`, each absent, nil or given. */
  datatype NewArgs = NewArgs(
    temp_c: Slot<real>,
    temp_f: Slot<real>,
    condition: Slot<Condition.Condition>,
    forecast: Slot<ForecastDay.ForecastDay>)

  /** The hash handed to `Current.from_hash`: the provider's `current` object
      and the `forecast` key the normaliser adds to it. */
  datatype HashArgs = HashArgs(
    temp_c: Slot<real>,
    temp_f: Slot<real>,
    condition: Slot<ConditionHash>,
    forecast: Slot<ForecastDay.ForecastDay>)

  const DefaultTemp: real := 0.0

  /** `Current.new(params)`: an absent temperature defaults to 0.0, an absent
      condition or forecast to nil; a value given (nil included) is kept. */
  function New(p: NewArgs): (c: Current)
    ensures p.temp_c.Missing? ==> c.temp_c == Some(DefaultTemp)
    ensures p.temp_f.Missing? ==> c.temp_f == Some(DefaultTemp)
    ensures !p.temp_c.Missing? ==> c.temp_c == p.temp_c.Get()
    ensures !p.temp_f.Missing? ==> c.temp_f == p.temp_f.Get()
    ensures c.condition == p.condition.Get()
    ensures c.forecast == p.forecast.Get()
  {
    Current(
      p.temp_c.FetchOr(Some(DefaultTemp)),
      p.temp_f.FetchOr(Some(DefaultTemp)),
      p.condition.FetchOr(None),
      p.forecast.FetchOr(None))
  }

  /** `Current.new` with no arguments. */
  lemma NewWithNoArguments()
    ensures New(NewArgs(Missing, Missing, Missing, Missing)) == Current(Some(0.0), Some(0.0), None, None)
  {
  }

  /** The hash carries what the strict fetches of `from_hash` need: both
      temperatures (nil allowed), a non-nil condition, and that condition's
      three keys. */
  predicate WellFormed(a: HashArgs) {
    !a.temp_c.Missing? && !a.temp_f.Missing? && a.condition.Val? && Condition.HasAllKeys(a.condition.value)
  }

  /** The fetches of `from_hash` up to and including the condition, in the
      order Ruby evaluates them: `temp_c`, `temp_f`, `condition`, then
      `Condition.new` on it (which calls `fetch` on nil when the condition is nil). */
  function Reading(a: HashArgs): (r: Result<Current>)
    ensures r.Ok? <==> WellFormed(a)
    ensures a.temp_c.Missing? ==> r == Err(KeyError("temp_c"))
    ensures !a.temp_c.Missing? && a.temp_f.Missing? ==> r == Err(KeyError("temp_f"))
    ensures !a.temp_c.Missing? && !a.temp_f.Missing? && a.condition.Missing? ==> r == Err(KeyError("condition"))
    ensures !a.temp_c.Missing? && !a.temp_f.Missing? && a.condition.Null? ==> r == Err(NoMethodError("fetch"))
    ensures r.Ok? ==> r.value == Current(a.temp_c.Get(), a.temp_f.Get(), Some(Condition.FromHash(a.condition.value)), None)
  {
    Condition.NewIsStrictFromHash(if a.condition.Val? then a.condition.value else ConditionHash(Missing, Missing, Missing));
    if a.temp_c.Missing? then Err(KeyError("temp_c"))
    else if a.temp_f.Missing? then Err(KeyError("temp_f"))
    else if a.condition.Missing? then Err(KeyError("condition"))
    else if a.condition.Null? then Err(NoMethodError("fetch"))
    else match Condition.New(a.condition.value)
      case Err(e) => Err(e)
      case Ok(cond) => Ok(New(NewArgs(a.temp_c, a.temp_f, Val(cond), Null)))
  }

  /** `Current.from_hash(params)` as the code stands: `fetch(:forecast)` has no
      default, so a hash without the `forecast` key raises KeyError. */
  function FromHashAsWritten(a: HashArgs): (r: Result<Current>)
    ensures r.Ok? <==> WellFormed(a) && !a.forecast.Missing?
    ensures r.Ok? ==> r.value.forecast == a.forecast.Get()
  {
    match Reading(a)
    case Err(e) => Err(e)
    case Ok(c) =>
      if a.forecast.Missing? then Err(KeyError("forecast"))
      else Ok(New(NewArgs(a.temp_c, a.temp_f, Val(c.condition.value), a.forecast)))
  }

  /** `Current.from_hash(params)` read as its callers expect: an absent
      `forecast` key gives a nil forecast. Strict on the temperatures and the
      condition; the forecast object is passed through unchanged. */
  function FromHash(a: HashArgs): (r: Result<Current>)
    ensures r.Ok? <==> WellFormed(a)
    ensures r.Err? ==> r == Reading(a)
    ensures r.Ok? ==> r.value.temp_c == a.temp_c.Get() && r.value.temp_f == a.temp_f.Get()
    ensures r.Ok? ==> r.value.condition == Some(Condition.FromHash(a.condition.value))
    ensures r.Ok? ==> r.value.forecast == a.forecast.Get()
  {
    match Reading(a)
    case Err(e) => Err(e)
    case Ok(c) => Ok(New(NewArgs(a.temp_c, a.temp_f, Val(c.condition.value), a.forecast)))
  }

  /** Where the `forecast` key is present the two readings agree; where it is
      absent the code as written refuses a hash its callers expect to be read. */
  lemma FromHashAsWrittenDiffersOnlyOnMissingForecast(a: HashArgs)
    ensures !a.forecast.Missing? ==> FromHashAsWritten(a) == FromHash(a)
    ensures a.forecast.Missing? && WellFormed(a) ==>
      FromHashAsWritten(a) == Err(KeyError("forecast")) && FromHash(a).Ok? && FromHash(a).value.forecast.None?
  {
  }

  /** `condition_text`, `condition_icon`, `condition_code`: delegated with
      `allow_nil`, so a nil condition gives nil. */
  function ConditionText(c: Current): (r: Option<string>)
    ensures c.condition.None? ==> r.None?
    ensures c.condition.Some? ==> r == c.condition.value.text
  {
    if c.condition.Some? then c.condition.value.text else None
  }

  function ConditionIcon(c: Current): (r: Option<string>)
    ensures c.condition.None? ==> r.None?
    ensures c.condition.Some? ==> r == c.condition.value.icon
  {
    if c.condition.Some? then c.condition.value.icon else None
  }

  function ConditionCode(c: Current): (r: Option<int>)
    ensures c.condition.None? ==> r.None?
    ensures c.condition.Some? ==> r == c.condition.value.code
  {
    if c.condition.Some? then c.condition.value.code else None
  }

  /** `maxtemp_c`, `maxtemp_f`, `mintemp_c`, `mintemp_f`: today's envelope,
      delegated to the forecast with `allow_nil`. */
  function MaxtempC(c: Current): (r: Option<real>)
    ensures c.forecast.None? ==> r.None?
    ensures c.forecast.Some? ==> r == c.forecast.value.maxtemp_c
  {
    if c.forecast.Some? then c.forecast.value.maxtemp_c else None
  }

  function MaxtempF(c: Current): (r: Option<real>)
    ensures c.forecast.None? ==> r.None?
    ensures c.forecast.Some? ==> r == c.forecast.value.maxtemp_f
  {
    if c.forecast.Some? then c.forecast.value.maxtemp_f else None
  }

  function MintempC(c: Current): (r: Option<real>)
    ensures c.forecast.None? ==> r.None?
    ensures c.forecast.Some? ==> r == c.forecast.value.mintemp_c
  {
    if c.forecast.Some? then c.forecast.value.mintemp_c else None
  }

  function MintempF(c: Current): (r: Option<real>)
    ensures c.forecast.None? ==> r.None?
    ensures c.forecast.Some? ==> r == c.forecast.value.mintemp_f
  {
    if c.forecast.Some? then c.forecast.value.mintemp_f else None
  }
}
