/** WeatherApi::Location: where the forecast is for, and the display name
    built from it. */
module Location {
  import opened Support
  import opened Payload

  /** `Location.new` takes all five keywords; any of them may be nil. */
  datatype Location = Location(
    name: Option<string>,
    region: Option<string>,
    country: Option<string>,
    tz_id: Option<string>,
    localtime: Option<string>)

  const Separator := ", "

  /** `Location.from_hash(hash)`: reads the five keys with `hash[key]`, so an
      absent key and a nil value both become nil and nothing is refused. */
  function FromHash(h: LocationHash): (l: Location)
    ensures l.name.Some? <==> h.name.Val?
    ensures l.region.Some? <==> h.region.Val?
    ensures l.country.Some? <==> h.country.Val?
    ensures l.tz_id.Some? <==> h.tz_id.Val?
    ensures l.localtime.Some? <==> h.localtime.Val?
    ensures h.name.Val? ==> l.name.value == h.name.value
    ensures h.region.Val? ==> l.region.value == h.region.value
    ensures h.country.Val? ==> l.country.value == h.country.value
    ensures h.tz_id.Val? ==> l.tz_id.value == h.tz_id.value
    ensures h.localtime.Val? ==> l.localtime.value == h.localtime.value
  {
    Location(h.name.Get(), h.region.Get(), h.country.Get(), h.tz_id.Get(), h.localtime.Get())
  }

  /** `reject(&:blank?)`: the non-blank parts, in their order. */
  function RejectBlank(parts: seq<Option<string>>): (kept: seq<string>)
    ensures |kept| <= |parts|
    ensures forall i :: 0 <= i < |kept| ==> !BlankString(kept[i])
  {
    if parts == [] then []
    else if Blank(parts[0]) then RejectBlank(parts[1..])
    else [parts[0].value] + RejectBlank(parts[1..])
  }

  /** `join(sep)`: the first part, then each further part preceded by the
      separator. */
  function Join(parts: seq<string>, sep: string): (r: string)
    ensures parts == [] ==> r == ""
    ensures |parts| == 1 ==> r == parts[0]
    ensures |parts| > 1 ==> parts[0] + sep <= r
  {
    if parts == [] then ""
    else if |parts| == 1 then parts[0]
    else parts[0] + sep + Join(parts[1..], sep)
  }

  /** `reject` keeps every non-blank part and drops every blank one: on one
      part, and, by induction, over a concatenation, so order is preserved. */
  lemma RejectBlankSingle(p: Option<string>)
    ensures RejectBlank([p]) == if Blank(p) then [] else [p.value]
  {
    assert [p][1..] == [];
  }

  lemma {:induction false} RejectBlankAppend(xs: seq<Option<string>>, ys: seq<Option<string>>)
    ensures RejectBlank(xs + ys) == RejectBlank(xs) + RejectBlank(ys)
  {
    if xs != [] {
      assert (xs + ys)[0] == xs[0];
      assert (xs + ys)[1..] == xs[1..] + ys;
      RejectBlankAppend(xs[1..], ys);
    } else {
      assert xs + ys == ys;
    }
  }

  /** `full_name`: name, region and country with blank ones dropped,
      joined by ", ". */
  function FullName(l: Location): (r: string)
    ensures r == "" <==> Blank(l.name) && Blank(l.region) && Blank(l.country)
  {
    FullNameNonEmpty(l);
    Join(RejectBlank([l.name, l.region, l.country]), Separator)
  }

  /** An independent reading of `full_name`: walk the three parts and append
      each non-blank one, with a separator only when something came before it. */
  function Append(acc: string, part: Option<string>): string {
    if Blank(part) then acc
    else if acc == "" then part.value
    else acc + Separator + part.value
  }

  function AppendAll(acc: string, parts: seq<Option<string>>): string
    decreases parts
  {
    if parts == [] then acc else AppendAll(Append(acc, parts[0]), parts[1..])
  }

  lemma {:induction false} RejectBlankOfNonBlank(parts: seq<Option<string>>)
    ensures RejectBlank(parts) == [] <==> forall i :: 0 <= i < |parts| ==> Blank(parts[i])
  {
    if parts != [] {
      RejectBlankOfNonBlank(parts[1..]);
      assert forall i :: 1 <= i < |parts| ==> parts[i] == parts[1..][i - 1];
    }
  }

  lemma {:induction false} JoinEmpty(parts: seq<string>, sep: string)
    requires forall i :: 0 <= i < |parts| ==> parts[i] != ""
    ensures Join(parts, sep) == "" <==> parts == []
  {
    if |parts| > 1 {
      assert |Join(parts, sep)| >= |parts[0]|;
    }
  }

  lemma FullNameNonEmpty(l: Location)
    ensures Join(RejectBlank([l.name, l.region, l.country]), Separator) == "" <==>
            Blank(l.name) && Blank(l.region) && Blank(l.country)
  {
    var parts := [l.name, l.region, l.country];
    RejectBlankOfNonBlank(parts);
    assert parts[0] == l.name && parts[1] == l.region && parts[2] == l.country;
    var kept := RejectBlank(parts);
    forall i | 0 <= i < |kept| ensures kept[i] != "" {
      assert !BlankString(kept[i]);
    }
    JoinEmpty(kept, Separator);
  }

  /** Appending to an accumulator: the accumulator, then the joined
      non-blank parts, with a separator between them when both are non-empty. */
  lemma {:induction false} AppendAllJoins(acc: string, parts: seq<Option<string>>)
    decreases parts
    ensures AppendAll(acc, parts) ==
      (if acc == "" then Join(RejectBlank(parts), Separator)
       else if RejectBlank(parts) == [] then acc
       else acc + Separator + Join(RejectBlank(parts), Separator))
  {
    if parts != [] {
      var p, rest := parts[0], parts[1..];
      AppendAllJoins(Append(acc, p), rest);
      if !Blank(p) {
        var kept := RejectBlank(rest);
        assert RejectBlank(parts) == [p.value] + kept;
        assert p.value != "";
        if kept != [] {
          assert Join([p.value] + kept, Separator) == p.value + Separator + Join(kept, Separator) by {
            assert ([p.value] + kept)[1..] == kept;
          }
          if acc != "" {
            assert acc + Separator + p.value + Separator + Join(kept, Separator)
                == acc + Separator + (p.value + Separator + Join(kept, Separator));
          }
        }
      }
    }
  }

  /** `full_name` agrees with the accumulate-with-separator reading. */
  lemma FullNameByAppending(l: Location)
    ensures FullName(l) == AppendAll("", [l.name, l.region, l.country])
  {
    AppendAllJoins("", [l.name, l.region, l.country]);
  }

  /** The cases the display relies on: all parts present, one middle part
      missing, and all parts blank. */
  lemma FullNameCases(l: Location)
    ensures !Blank(l.name) && !Blank(l.region) && !Blank(l.country) ==>
      FullName(l) == l.name.value + ", " + l.region.value + ", " + l.country.value
    ensures !Blank(l.name) && Blank(l.region) && !Blank(l.country) ==>
      FullName(l) == l.name.value + ", " + l.country.value
    ensures Blank(l.name) && Blank(l.region) && !Blank(l.country) ==>
      FullName(l) == l.country.value
  {
    FullNameByAppending(l);
    var a1 := Append("", l.name);
    var a2 := Append(a1, l.region);
    var a3 := Append(a2, l.country);
    assert [l.name, l.region, l.country][1..] == [l.region, l.country];
    assert [l.region, l.country][1..] == [l.country];
    calc {
      AppendAll("", [l.name, l.region, l.country]);
      AppendAll(a1, [l.region, l.country]);
      AppendAll(a2, [l.country]);
      { assert [l.country][1..] == []; }
      AppendAll(a3, []);
    }
  }

  /** The time zone and local time never show in the display name. */
  lemma FullNameIgnoresTimeFields(l: Location, tz: Option<string>, time: Option<string>)
    ensures FullName(l.(tz_id := tz, localtime := time)) == FullName(l)
  {
  }

  /** { name: "Paris", region: "", country: "France" } is shown as "Paris, France". */
  lemma FullNameOfParis()
    ensures FullName(Location(Some("Paris"), Some(""), Some("France"), Some("Europe/Paris"), None)) == "Paris, France"
  {
    var l := Location(Some("Paris"), Some(""), Some("France"), Some("Europe/Paris"), None);
    assert !BlankString("Paris") by { assert !IsSpace("Paris"[0]); }
    assert !BlankString("France") by { assert !IsSpace("France"[0]); }
    FullNameCases(l);
  }
}
