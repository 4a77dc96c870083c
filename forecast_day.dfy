/** WeatherApi::ForecastDay: one calendar day of the provider's forecast. */
module ForecastDay {
  import opened Support
  import opened Payload
  import Condition

  /** `ForecastDay.new` takes all six keywords and stores them as given. */
  datatype ForecastDay = ForecastDay(
    date: Option<string>,
    maxtemp_c: Option<real>,
    maxtemp_f: Option<real>,
    mintemp_c: Option<real>,
    mintemp_f: Option<real>,
    condition: Option<Condition.Condition>)

  /** `params[:day] || {}`: the nested day record, or one with no keys. */
  function DayOf(h: ForecastDayHash): (d: DayHash)
    ensures h.day.Val? ==> d == h.day.value
    ensures !h.day.Val? ==>
      d.maxtemp_c.Get().None? && d.maxtemp_f.Get().None? &&
      d.mintemp_c.Get().None? && d.mintemp_f.Get().None? && d.condition.Get().None?
  {
    if h.day.Val? then h.day.value else DayHash(Missing, Missing, Missing, Missing, Missing)
  }

  /** `ForecastDay.from_hash(params)`: the date from the top level, the four
      temperatures and the condition from the nested `day` record, nil for
      whatever is absent. The condition is built with the lenient
      `Condition.from_hash`. */
  function FromHash(h: ForecastDayHash): (d: ForecastDay)
    ensures d.date == h.date.Get()
    ensures h.day.Val? ==>
      d.maxtemp_c == h.day.value.maxtemp_c.Get() && d.maxtemp_f == h.day.value.maxtemp_f.Get() &&
      d.mintemp_c == h.day.value.mintemp_c.Get() && d.mintemp_f == h.day.value.mintemp_f.Get()
    ensures !h.day.Val? ==>
      d.maxtemp_c.None? && d.maxtemp_f.None? && d.mintemp_c.None? && d.mintemp_f.None? && d.condition.None?
    ensures d.condition.Some? <==> h.day.Val? && h.day.value.condition.Val?
    ensures d.condition.Some? ==> d.condition.value == Condition.FromHash(h.day.value.condition.value)
  {
    var day := DayOf(h);
    ForecastDay(
      h.date.Get(),
      day.maxtemp_c.Get(), day.maxtemp_f.Get(), day.mintemp_c.Get(), day.mintemp_f.Get(),
      if day.condition.Val? then Some(Condition.FromHash(day.condition.value)) else None)
  }

  /** `ForecastDay.from_hash` as the code stands: `Condition.from_hash` is not
      defined, so a day whose `day.condition` is non-nil raises NoMethodError. */
  function FromHashAsWritten(h: ForecastDayHash): (r: Result<ForecastDay>)
    ensures r.Err? <==> h.day.Val? && h.day.value.condition.Val?
    ensures r.Err? ==> r.error == NoMethodError("from_hash")
    ensures r.Ok? ==> r.value == FromHash(h)
  {
    var day := DayOf(h);
    if day.condition.Val? then Err(NoMethodError("from_hash"))
    else Ok(FromHash(h))
  }

  /** A fully populated day from the provider's schema is refused as written
      and read field for field by the corrected definition. */
  lemma AsWrittenRejectsPopulatedDay()
    ensures var h := ForecastDayHash(Val("2023-10-02"),
              Val(DayHash(Val(23.5), Val(74.3), Val(12.0), Val(53.6),
                          Val(ConditionHash(Val("Light rain"), Val("rain.png"), Val(1063))))));
      FromHashAsWritten(h) == Err(NoMethodError("from_hash")) &&
      FromHash(h) == ForecastDay(Some("2023-10-02"), Some(23.5), Some(74.3), Some(12.0), Some(53.6),
                                 Some(Condition.Condition(Some("Light rain"), Some("rain.png"), Some(1063))))
  {
  }

  /** `forecastdays.map { |forecast| from_hash(forecast) }`. */
  function MapFromHash(hs: seq<ForecastDayHash>): (ds: seq<ForecastDay>)
    ensures |ds| == |hs|
    ensures forall i :: 0 <= i < |hs| ==> ds[i] == FromHash(hs[i])
  {
    if hs == [] then [] else [FromHash(hs[0])] + MapFromHash(hs[1..])
  }

  /** `ForecastDay.many_from_hash(forecastdays)`: nil or an empty list gives
      `[]`, anything else is mapped element by element, in order. */
  function ManyFromHash(hs: Option<seq<ForecastDayHash>>): (ds: seq<ForecastDay>)
    ensures hs.None? ==> ds == []
    ensures hs.Some? ==> |ds| == |hs.value| && forall i :: 0 <= i < |ds| ==> ds[i] == FromHash(hs.value[i])
  {
    if hs.None? || hs.value == [] then [] else MapFromHash(hs.value)
  }

  /** Mapping distributes over concatenation: no day is dropped, added or
      moved when two lists of days are mapped together. */
  lemma {:induction false} MapFromHashAppend(xs: seq<ForecastDayHash>, ys: seq<ForecastDayHash>)
    ensures MapFromHash(xs + ys) == MapFromHash(xs) + MapFromHash(ys)
  {
    if xs != [] {
      assert (xs + ys)[1..] == xs[1..] + ys;
      MapFromHashAppend(xs[1..], ys);
    }
  }

  /** `condition_text`, `condition_icon`, `condition_code`: delegated to the
      condition without `allow_nil`, so a nil condition raises NoMethodError. */
  function ConditionText(d: ForecastDay): (r: Result<Option<string>>)
    ensures r.Ok? <==> d.condition.Some?
    ensures r.Ok? ==> r.value == d.condition.value.text
    ensures r.Err? ==> r.error == NoMethodError("text")
  {
    if d.condition.Some? then Ok(d.condition.value.text) else Err(NoMethodError("text"))
  }

  function ConditionIcon(d: ForecastDay): (r: Result<Option<string>>)
    ensures r.Ok? <==> d.condition.Some?
    ensures r.Ok? ==> r.value == d.condition.value.icon
    ensures r.Err? ==> r.error == NoMethodError("icon")
  {
    if d.condition.Some? then Ok(d.condition.value.icon) else Err(NoMethodError("icon"))
  }

  function ConditionCode(d: ForecastDay): (r: Result<Option<int>>)
    ensures r.Ok? <==> d.condition.Some?
    ensures r.Ok? ==> r.value == d.condition.value.code
    ensures r.Err? ==> r.error == NoMethodError("code")
  {
    if d.condition.Some? then Ok(d.condition.value.code) else Err(NoMethodError("code"))
  }
}
