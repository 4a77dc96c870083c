/** WeatherApi::Condition: the provider's text, icon and code for a weather
    condition. */
module Condition {
  import opened Support
  import opened Payload

  datatype Condition = Condition(text: Option<string>, icon: Option<string>, code: Option<int>)

  /** All three keys are in the hash, whatever their values. */
  predicate HasAllKeys(h: ConditionHash) {
    !h.text.Missing? && !h.icon.Missing? && !h.code.Missing?
  }

  /** `Condition.new(params)`: fetches `text`, `icon` and `code` in that order;
      the first absent key raises KeyError, a key present with nil is kept as nil. */
  function New(h: ConditionHash): (r: Result<Condition>)
    ensures r.Ok? <==> HasAllKeys(h)
    ensures r.Ok? ==> r.value.text == h.text.Get() && r.value.icon == h.icon.Get() && r.value.code == h.code.Get()
    ensures h.text.Missing? ==> r == Err(KeyError("text"))
    ensures !h.text.Missing? && h.icon.Missing? ==> r == Err(KeyError("icon"))
    ensures !h.text.Missing? && !h.icon.Missing? && h.code.Missing? ==> r == Err(KeyError("code"))
  {
    if h.text.Missing? then Err(KeyError("text"))
    else if h.icon.Missing? then Err(KeyError("icon"))
    else if h.code.Missing? then Err(KeyError("code"))
    else Ok(Condition(h.text.Get(), h.icon.Get(), h.code.Get()))
  }

  /** `Condition.from_hash(params)`: the lenient reading, where an absent key
      gives nil; it never fails. */
  function FromHash(h: ConditionHash): (c: Condition)
    ensures c.text.Some? <==> h.text.Val?
    ensures c.icon.Some? <==> h.icon.Val?
    ensures c.code.Some? <==> h.code.Val?
    ensures h.text.Val? ==> c.text.value == h.text.value
    ensures h.icon.Val? ==> c.icon.value == h.icon.value
    ensures h.code.Val? ==> c.code.value == h.code.value
  {
    Condition(h.text.Get(), h.icon.Get(), h.code.Get())
  }

  /** The strict constructor is the lenient one restricted to hashes that
      carry every key: where it succeeds the two agree, and a hash with every
      key is never refused. */
  lemma NewIsStrictFromHash(h: ConditionHash)
    ensures HasAllKeys(h) ==> New(h) == Ok(FromHash(h))
    ensures !HasAllKeys(h) ==> New(h).Err? && New(h).error.KeyError?
  {
  }
}
