/** The provider's forecast payload after `JSON.parse(..., symbolize_names: true)`:
    one record per JSON object the normaliser looks into, one `Slot` per key
    it reads. Keys the normaliser never reads are not represented. */
module Payload {
  import opened Support

  datatype ConditionHash = ConditionHash(text: Slot<string>, icon: Slot<string>, code: Slot<int>)

  /** The nested `day` object of one forecast day. */
  datatype DayHash = DayHash(
    maxtemp_c: Slot<real>,
    maxtemp_f: Slot<real>,
    mintemp_c: Slot<real>,
    mintemp_f: Slot<real>,
    condition: Slot<ConditionHash>)

  /** One element of `forecast.forecastday`. */
  datatype ForecastDayHash = ForecastDayHash(date: Slot<string>, day: Slot<DayHash>)

  datatype ForecastHash = ForecastHash(forecastday: Slot<seq<ForecastDayHash>>)

  datatype CurrentHash = CurrentHash(temp_c: Slot<real>, temp_f: Slot<real>, condition: Slot<ConditionHash>)

  datatype LocationHash = LocationHash(
    name: Slot<string>,
    region: Slot<string>,
    country: Slot<string>,
    tz_id: Slot<string>,
    localtime: Slot<string>)

  /** The top-level object of a forecast response body. */
  datatype Body = Body(location: Slot<LocationHash>, current: Slot<CurrentHash>, forecast: Slot<ForecastHash>)

  /** `{}`: a location hash with none of its keys. */
  const EmptyLocationHash := LocationHash(Missing, Missing, Missing, Missing, Missing)
}
