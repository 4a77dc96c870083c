/** Shared vocabulary: optional values, the three states of a key in a
    symbol-keyed hash, the exceptions the constructors can raise, and
    ActiveSupport's notion of a blank string. */
module Support {

  datatype Option<+T> = None | Some(value: T)

  /** The exceptions the modelled code can raise. `KeyError` comes from
      `Hash#fetch` on an absent key; `NoMethodError` from calling a method
      on nil or calling a class method that is not defined. */
  datatype Error = KeyError(key: string) | NoMethodError(name: string)

  datatype Result<+T> = Ok(value: T) | Err(error: Error)

  /** What one key of a parsed payload hash holds: the key is absent, it is
      present with JSON null, or it is present with a value. */
  datatype Slot<+T> = Missing | Null | Val(value: T) {

    /** `hash[key]`: an absent key and a nil value both read as nil. */
    function Get(): (r: Option<T>)
      ensures r.Some? <==> Val?
      ensures Val? ==> r == Some(value)
    {
      if Val? then Some(value) else None
    }

    /** `hash.fetch(key, default)`: only an absent key gives the default. */
    function FetchOr(default: Option<T>): (r: Option<T>)
      ensures Missing? ==> r == default
      ensures !Missing? ==> r == Get()
    {
      match this
      case Missing => default
      case Null => None
      case Val(v) => Some(v)
    }
  }

  /** Ruby's `[[:space:]]` on a Unicode string: the White_Space characters. */
  predicate IsSpace(c: char) {
    ('\t' <= c <= '\r') || c == ' ' || c == '\U{0085}' || c == '\U{00A0}' ||
    c == '\U{1680}' || ('\U{2000}' <= c <= '\U{200A}') || c == '\U{2028}' ||
    c == '\U{2029}' || c == '\U{202F}' || c == '\U{205F}' || c == '\U{3000}'
  }

  /** `String#blank?`: empty or made only of whitespace. */
  predicate BlankString(s: string)
    ensures s == "" ==> BlankString(s)
    ensures |s| > 0 && !IsSpace(s[0]) ==> !BlankString(s)
  {
    forall i :: 0 <= i < |s| ==> IsSpace(s[i])
  }

  /** `blank?` on a value that may be nil: nil and the empty string are blank. */
  predicate Blank(s: Option<string>)
    ensures s.None? ==> Blank(s)
    ensures s == Some("") ==> Blank(s)
    ensures s.Some? && |s.value| > 0 && !IsSpace(s.value[0]) ==> !Blank(s)
  {
    s.None? || BlankString(s.value)
  }

  /** A concatenation is blank exactly when both of its pieces are. */
  lemma BlankStringConcat(a: string, b: string)
    ensures BlankString(a + b) <==> BlankString(a) && BlankString(b)
  {
    if BlankString(a + b) {
      assert forall i :: 0 <= i < |a| ==> a[i] == (a + b)[i];
      assert forall i :: 0 <= i < |b| ==> b[i] == (a + b)[|a| + i];
    }
  }
}
