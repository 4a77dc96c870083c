/** WeatherForecastService: validate the geolocation, read through a cache
    keyed by postal code, call the provider on a miss, and normalise the
    response. The provider call is an `Outcome` handed in by the caller: the
    response it would return, or the transport error it would raise. */
module WeatherForecastService {
  import opened Support
  import opened Payload
  import ForecastResponse

  datatype Coordinates = Coordinates(lat: real, lng: real)

  /** The geocoder's result: coordinates (None when blank) and postal code. */
  datatype Geo = Geo(coordinates: Option<Coordinates>, postal_code: Option<string>)

  /** A provider response: its HTTP status and its parsed body. */
  datatype Response = Response(status: int, body: Body) {
    /** Faraday's `success?`: a 2xx status. */
    predicate Success() {
      200 <= status <= 299
    }
  }

  /** What the provider call does when it is made. */
  datatype Outcome = Delivered(response: Response) | TransportError(message: string)

  /** The parameters of one provider call: `q` (the coordinates) and `days`. */
  datatype Request = Request(q: Coordinates, days: int)

  /** A cache entry and the expiry it was written with, in minutes. */
  datatype Entry = Entry(response: Response, expiresIn: nat)

  type Cache = map<string, Entry>

  /** What `call` gives back: nil, a forecast, or an exception raised while
      normalising the body. */
  datatype Reply = NoForecast | Forecast(forecast: ForecastResponse.ForecastResponse) | Raised(error: Error)

  /** The side effects of one operation: cache reads and writes, provider
      calls, and error-log lines. */
  datatype Effects = Effects(cacheReads: nat, cacheWrites: nat, producerCalls: nat, logged: seq<string>)

  const DefaultDays: int := 6
  const CacheTtlMinutes: nat := 30
  const KeyPrefix := "forecast_"
  const LogPrefix := "Weather API request failed: "

  /** The cache key for a postal code: `"forecast_" + zip`. */
  function CacheKey(zip: string): (key: string)
    ensures |key| == |KeyPrefix| + |zip|
    ensures key[..|KeyPrefix|] == KeyPrefix && key[|KeyPrefix|..] == zip
  {
    KeyPrefix + zip
  }

  /** Distinct postal codes never share a cache entry. */
  lemma CacheKeyInjective(a: string, b: string)
    ensures CacheKey(a) == CacheKey(b) ==> a == b
  {
    if CacheKey(a) == CacheKey(b) {
      calc {
        a;
        CacheKey(a)[|KeyPrefix|..];
        CacheKey(b)[|KeyPrefix|..];
        b;
      }
    }
  }

  /** Every cached response is a successful one. */
  predicate OnlySuccessful(cache: Cache) {
    forall k :: k in cache ==> cache[k].response.Success()
  }

  /** The geolocation `call` accepts: present and with coordinates. */
  predicate Locatable(geo: Option<Geo>) {
    geo.Some? && geo.value.coordinates.Some?
  }

  datatype Fetched = Fetched(response: Option<Response>, logged: seq<string>)

  /** `forecast_request`: the provider's response, or nil and one error-log
      line when the call raises a transport error. */
  function Fetch(outcome: Outcome): (f: Fetched)
    ensures outcome.Delivered? ==> f.response == Some(outcome.response) && f.logged == []
    ensures outcome.TransportError? ==> f.response.None? && f.logged == [LogPrefix + outcome.message]
  {
    match outcome
    case Delivered(r) => Fetched(Some(r), [])
    case TransportError(message) => Fetched(None, [LogPrefix + message])
  }

  datatype Wrapped = Wrapped(response: Option<Response>, cacheHit: bool, cache: Cache, effects: Effects)

  /** `cache_wrapper`: a blank postal code bypasses the cache; otherwise a
      cached response is a hit, and on a miss the fresh response is written,
      with the fixed expiry, only when it is successful. */
  function Wrap(cache: Cache, zip: Option<string>, outcome: Outcome): (w: Wrapped)
    ensures w.effects.producerCalls <= 1 && w.effects.cacheReads <= 1 && w.effects.cacheWrites <= 1
    ensures w.cacheHit <==> w.effects.producerCalls == 0
    ensures w.effects.cacheWrites == 0 <==> w.cache == cache
    ensures OnlySuccessful(cache) ==> OnlySuccessful(w.cache)
    ensures !Blank(zip) && CacheKey(zip.value) in cache ==>
      w.response == Some(cache[CacheKey(zip.value)].response) && w.cacheHit
    ensures Blank(zip) || CacheKey(zip.value) !in cache ==>
      w.response == Fetch(outcome).response && !w.cacheHit
  {
    if Blank(zip) then
      var f := Fetch(outcome);
      Wrapped(f.response, false, cache, Effects(0, 0, 1, f.logged))
    else
      var key := CacheKey(zip.value);
      if key in cache then
        Wrapped(Some(cache[key].response), true, cache, Effects(1, 0, 0, []))
      else
        var f := Fetch(outcome);
        if f.response.Some? && f.response.value.Success() then
          var updated := cache[key := Entry(f.response.value, CacheTtlMinutes)];
          assert key in updated && key !in cache;
          Wrapped(f.response, false, updated, Effects(1, 1, 1, f.logged))
        else
          Wrapped(f.response, false, cache, Effects(1, 0, 1, f.logged))
  }

  datatype Served = Served(reply: Reply, cache: Cache, effects: Effects)

  /** `ForecastResponse.from_response(response, cache_hit:)` seen from `call`:
      the forecast, or the exception normalising raised. */
  function Normalise(body: Body, cacheHit: bool): (reply: Reply)
    ensures reply != NoForecast
    ensures reply.Forecast? ==> reply.forecast.cache_hit == cacheHit
    ensures reply.Forecast? <==> ForecastResponse.WellFormed(body)
  {
    match ForecastResponse.FromResponse(body, cacheHit)
    case Ok(f) => Forecast(f)
    case Err(e) => Raised(e)
  }

  /** `call`: nil for a blank geolocation; otherwise the wrapped response,
      nil unless it is successful, normalised with the hit flag passed on. */
  function Serve(cache: Cache, geo: Option<Geo>, outcome: Outcome): (s: Served)
    ensures s.reply.Forecast? ==> Locatable(geo)
    ensures OnlySuccessful(cache) ==> OnlySuccessful(s.cache)
    ensures Locatable(geo) && !Blank(geo.value.postal_code) && CacheKey(geo.value.postal_code.value) in cache ==>
      var cached := cache[CacheKey(geo.value.postal_code.value)].response;
      s.reply == if cached.Success() then Normalise(cached.body, true) else NoForecast
    ensures Locatable(geo) && (Blank(geo.value.postal_code) || CacheKey(geo.value.postal_code.value) !in cache) ==>
      s.reply == if outcome.Delivered? && outcome.response.Success()
                 then Normalise(outcome.response.body, false) else NoForecast
  {
    if !Locatable(geo) then Served(NoForecast, cache, Effects(0, 0, 0, []))
    else
      var w := Wrap(cache, geo.value.postal_code, outcome);
      if w.response.None? || !w.response.value.Success() then Served(NoForecast, w.cache, w.effects)
      else Served(Normalise(w.response.value.body, w.cacheHit), w.cache, w.effects)
  }

  /** A freshly fetched successful response (blank postal code or cache miss)
      is normalised with `cache_hit` false, and that forecast is the reply. */
  lemma FetchedSuccessIsNormalised(cache: Cache, geo: Option<Geo>, r: Response)
    requires Locatable(geo)
    requires Blank(geo.value.postal_code) || CacheKey(geo.value.postal_code.value) !in cache
    requires r.Success()
    ensures var s := Serve(cache, geo, Delivered(r)); var f := ForecastResponse.FromResponse(r.body, false);
      (f.Ok? ==> s.reply == Forecast(f.value)) && (f.Err? ==> s.reply == Raised(f.error))
  {
  }

  /** A cached response is normalised with `cache_hit` true, and that forecast
      is the reply; a cached successful response is never replaced by the
      provider's. */
  lemma CachedResponseIsNormalised(cache: Cache, geo: Option<Geo>, outcome: Outcome)
    requires Locatable(geo) && !Blank(geo.value.postal_code)
    requires CacheKey(geo.value.postal_code.value) in cache
    requires cache[CacheKey(geo.value.postal_code.value)].response.Success()
    ensures var s := Serve(cache, geo, outcome);
      var f := ForecastResponse.FromResponse(cache[CacheKey(geo.value.postal_code.value)].response.body, true);
      (f.Ok? ==> s.reply == Forecast(f.value)) && (f.Err? ==> s.reply == Raised(f.error))
  {
  }

  /** A blank geolocation, or one without coordinates, gives nil and touches
      neither the provider, the cache nor the log. */
  lemma BlankGeolocationIsInert(cache: Cache, geo: Option<Geo>, outcome: Outcome)
    requires !Locatable(geo)
    ensures Serve(cache, geo, outcome) == Served(NoForecast, cache, Effects(0, 0, 0, []))
  {
  }

  /** A blank postal code: one provider call, no cache read or write, and a
      forecast, if any, that is not a cache hit. */
  lemma BlankZipBypassesCache(cache: Cache, geo: Option<Geo>, outcome: Outcome)
    requires Locatable(geo) && Blank(geo.value.postal_code)
    ensures var s := Serve(cache, geo, outcome);
      s.effects.producerCalls == 1 && s.effects.cacheReads == 0 && s.effects.cacheWrites == 0 &&
      s.cache == cache && (s.reply.Forecast? ==> !s.reply.forecast.cache_hit)
  {
  }

  /** A cached entry is served as a hit, with no provider call and no write. */
  lemma HitSkipsProvider(cache: Cache, geo: Option<Geo>, outcome: Outcome)
    requires Locatable(geo) && !Blank(geo.value.postal_code)
    requires CacheKey(geo.value.postal_code.value) in cache
    ensures var s := Serve(cache, geo, outcome);
      s.effects.producerCalls == 0 && s.effects.cacheWrites == 0 && s.effects.logged == [] && s.cache == cache &&
      (s.reply.Forecast? ==> s.reply.forecast.cache_hit)
  {
  }

  /** With only successful responses cached, a hit always yields a forecast
      or a normalisation error, never nil. */
  lemma HitIsNeverNil(cache: Cache, geo: Option<Geo>, outcome: Outcome)
    requires OnlySuccessful(cache)
    requires Locatable(geo) && !Blank(geo.value.postal_code)
    requires CacheKey(geo.value.postal_code.value) in cache
    ensures Serve(cache, geo, outcome).reply != NoForecast
  {
    var key := CacheKey(geo.value.postal_code.value);
    assert cache[key].response.Success();
  }

  /** On a miss, the cache afterwards holds the fresh response under the key,
      with the 30-minute expiry, exactly when the provider delivered a
      successful one; otherwise it is unchanged. */
  lemma MissWritesOnlySuccess(cache: Cache, geo: Option<Geo>, outcome: Outcome)
    requires Locatable(geo) && !Blank(geo.value.postal_code)
    requires CacheKey(geo.value.postal_code.value) !in cache
    ensures var s := Serve(cache, geo, outcome); var key := CacheKey(geo.value.postal_code.value);
      s.effects.producerCalls == 1 && s.effects.cacheReads == 1 &&
      (outcome.Delivered? && outcome.response.Success() ==>
         s.cache == cache[key := Entry(outcome.response, 30)] && s.effects.cacheWrites == 1) &&
      (!(outcome.Delivered? && outcome.response.Success()) ==> s.cache == cache && s.effects.cacheWrites == 0)
  {
  }

  /** Whenever the provider is called and does not deliver a successful
      response, `call` gives nil and leaves the cache alone. */
  lemma UnsuccessfulFetchGivesNil(cache: Cache, geo: Option<Geo>, outcome: Outcome)
    requires Serve(cache, geo, outcome).effects.producerCalls == 1
    requires !(outcome.Delivered? && outcome.response.Success())
    ensures var s := Serve(cache, geo, outcome);
      s.reply == NoForecast && s.cache == cache && s.effects.cacheWrites == 0
  {
  }

  /** A transport error during the provider call: nil, exactly one error-log
      line carrying the error's message, and no cache write. */
  lemma TransportErrorIsLoggedOnce(cache: Cache, geo: Option<Geo>, message: string)
    requires Serve(cache, geo, TransportError(message)).effects.producerCalls == 1
    ensures var s := Serve(cache, geo, TransportError(message));
      s.reply == NoForecast && s.effects.logged == [LogPrefix + message] && s.cache == cache
  {
  }

  /** The only source of log lines is a transport error. */
  lemma LogOnlyOnTransportError(cache: Cache, geo: Option<Geo>, outcome: Outcome)
    ensures Serve(cache, geo, outcome).effects.logged != [] ==>
      outcome.TransportError? && Serve(cache, geo, outcome).effects.producerCalls == 1
  {
  }

  /** Two calls in a row for the same postal code, the first one fetching a
      successful response (or hitting): the second is served from the cache
      whatever the provider would do, changes nothing, and gives the same
      forecast, now flagged as a cache hit. */
  lemma RepeatedCallIsServedFromCache(cache: Cache, geo: Option<Geo>, first: Outcome, second: Outcome)
    requires Locatable(geo) && !Blank(geo.value.postal_code)
    requires first.Delivered? && first.response.Success()
    ensures var s1 := Serve(cache, geo, first); var s2 := Serve(s1.cache, geo, second);
      s2.effects.producerCalls == 0 && s2.cache == s1.cache &&
      (s2.reply.Forecast? ==> s2.reply.forecast.cache_hit) &&
      (s1.reply.Forecast? <==> s2.reply.Forecast?) &&
      (s1.reply.Forecast? ==> s2.reply.forecast == s1.reply.forecast.(cache_hit := true))
  {
    var key := CacheKey(geo.value.postal_code.value);
    var s1 := Serve(cache, geo, first);
    if key !in cache {
      assert s1.cache == cache[key := Entry(first.response, CacheTtlMinutes)];
      ForecastResponse.CacheHitIsPassedThrough(first.response.body, false, true);
    }
    assert key in s1.cache;
  }

  /** The service, over the cache store it reads and writes. Ghost fields
      record the cache traffic, the provider calls and the error log. */
  class WeatherForecastService {
    var cache: Cache
    ghost var cacheReads: nat
    ghost var cacheWrites: nat
    ghost var requests: seq<Request>
    ghost var log: seq<string>

    /** The cache holds only successful responses, each written with the
        fixed expiry. */
    ghost predicate Valid()
      reads this
    {
      OnlySuccessful(cache) && forall k :: k in cache ==> cache[k].expiresIn == CacheTtlMinutes
    }

    constructor (store: Cache)
      ensures cache == store && cacheReads == 0 && cacheWrites == 0 && requests == [] && log == []
      ensures (OnlySuccessful(store) && forall k :: k in store ==> store[k].expiresIn == CacheTtlMinutes) ==> Valid()
    {
      cache := store;
      cacheReads, cacheWrites := 0, 0;
      requests, log := [], [];
    }

    /** `forecast_request`: makes the provider call with `q` and `days`. */
    method ForecastRequest(coordinates: Coordinates, days: int, outcome: Outcome) returns (response: Option<Response>)
      modifies this
      ensures response == Fetch(outcome).response
      ensures requests == old(requests) + [Request(coordinates, days)]
      ensures log == old(log) + Fetch(outcome).logged
      ensures cache == old(cache) && cacheReads == old(cacheReads) && cacheWrites == old(cacheWrites)
    {
      requests := requests + [Request(coordinates, days)];
      match outcome {
        case Delivered(r) =>
          response := Some(r);
        case TransportError(message) =>
          log := log + [LogPrefix + message];
          response := None;
      }
    }

    /** `cache_wrapper`, with `forecast_request` as the block it yields to. */
    method CacheWrapper(zip: Option<string>, coordinates: Coordinates, days: int, outcome: Outcome)
      returns (response: Option<Response>, cacheHit: bool)
      modifies this
      ensures var w := Wrap(old(cache), zip, outcome);
        response == w.response && cacheHit == w.cacheHit && cache == w.cache &&
        cacheReads == old(cacheReads) + w.effects.cacheReads &&
        cacheWrites == old(cacheWrites) + w.effects.cacheWrites &&
        log == old(log) + w.effects.logged &&
        requests == old(requests) + (if w.effects.producerCalls == 1 then [Request(coordinates, days)] else [])
      ensures old(Valid()) ==> Valid()
    {
      if Blank(zip) {
        response := ForecastRequest(coordinates, days, outcome);
        cacheHit := false;
        return;
      }
      var key := CacheKey(zip.value);
      cacheReads := cacheReads + 1;
      if key in cache {
        response, cacheHit := Some(cache[key].response), true;
        return;
      }
      response := ForecastRequest(coordinates, days, outcome);
      if response.Some? && response.value.Success() {
        cache := cache[key := Entry(response.value, CacheTtlMinutes)];
        cacheWrites := cacheWrites + 1;
      }
      cacheHit := false;
    }

    /** `call(geolocation, days:)`. */
    method Call(geo: Option<Geo>, days: int, outcome: Outcome) returns (reply: Reply)
      modifies this
      ensures var s := Serve(old(cache), geo, outcome);
        reply == s.reply && cache == s.cache &&
        cacheReads == old(cacheReads) + s.effects.cacheReads &&
        cacheWrites == old(cacheWrites) + s.effects.cacheWrites &&
        log == old(log) + s.effects.logged &&
        requests == old(requests) +
          (if s.effects.producerCalls == 1 then [Request(geo.value.coordinates.value, days)] else [])
      ensures old(Valid()) ==> Valid()
    {
      if !Locatable(geo) {
        return NoForecast;
      }
      var response, cacheHit := CacheWrapper(geo.value.postal_code, geo.value.coordinates.value, days, outcome);
      if response.None? || !response.value.Success() {
        return NoForecast;
      }
      reply := Normalise(response.value.body, cacheHit);
    }

    /** `call(geolocation)`: the `days` keyword left at its default of 6. */
    method CallWithDefaultDays(geo: Option<Geo>, outcome: Outcome) returns (reply: Reply)
      modifies this
      ensures var s := Serve(old(cache), geo, outcome);
        reply == s.reply && cache == s.cache &&
        cacheReads == old(cacheReads) + s.effects.cacheReads &&
        cacheWrites == old(cacheWrites) + s.effects.cacheWrites &&
        log == old(log) + s.effects.logged &&
        requests == old(requests) +
          (if s.effects.producerCalls == 1 then [Request(geo.value.coordinates.value, DefaultDays)] else [])
      ensures old(Valid()) ==> Valid()
    {
      reply := Call(geo, DefaultDays, outcome);
    }
  }
}
