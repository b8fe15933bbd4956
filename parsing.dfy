/** The `parse_inputs` step that both designs share: a flat, string-keyed
    parameter mapping is copied, and the value of every key ending in ".units"
    is replaced by the unit it names. The unit enumeration is a parameter
    (`lookup` is `Units[...]` for the enumeration at hand), because the
    microscope design and the integrator design each bring their own. */
module Parsing {
  import opened Common

  /** A value of the flat mapping: a number (JSON numbers, integer or not), a
      string (unit names before parsing), or a resolved unit. */
  datatype Value<U> = Num(x: real) | Str(s: string) | Tag(unit: U)

  /** `KeyError` raised by `Units[value]`: the offending key and its value. */
  datatype ParseError<U> = UnknownUnit(key: string, name: Value<U>)

  const UnitsSuffix: string := ".units"

  /** `key.endswith(".units")` */
  predicate IsUnitsKey(key: string) {
    |UnitsSuffix| <= |key| && key[|key| - |UnitsSuffix|..] == UnitsSuffix
  }

  /** A key ends in ".units" exactly when it is some stem followed by
      ".units"; the stem is the key with the suffix cut off. */
  lemma UnitsKeyStem(key: string)
    ensures IsUnitsKey(key) <==> exists stem :: key == stem + UnitsSuffix
  {
    if IsUnitsKey(key) {
      var stem := key[..|key| - |UnitsSuffix|];
      assert key == stem + UnitsSuffix;
    }
    forall stem | key == stem + UnitsSuffix ensures IsUnitsKey(key) {
      assert key[|key| - |UnitsSuffix|..] == UnitsSuffix;
    }
  }

  /** `Units[v]`: only a string that names a unit resolves; a number or an
      already resolved unit is not a member name. */
  function Resolve<U>(v: Value<U>, lookup: string -> Option<U>): Option<U> {
    if v.Str? then lookup(v.s) else None
  }

  /** Every ".units" value of `data` names a unit. */
  predicate Resolvable<U>(data: map<string, Value<U>>, lookup: string -> Option<U>) {
    forall k :: k in data && IsUnitsKey(k) ==> Resolve(data[k], lookup).Some?
  }

  /** The mapping that parsing produces when every unit name resolves. */
  function Resolved<U>(data: map<string, Value<U>>, lookup: string -> Option<U>): map<string, Value<U>>
    requires Resolvable(data, lookup)
  {
    map k | k in data :: if IsUnitsKey(k) then Tag(Resolve(data[k], lookup).value) else data[k]
  }

  /** `parse_inputs`: copies `data`, then visits every entry of the copy and
      overwrites the ".units" ones with the resolved unit. A name that does
      not resolve aborts the whole parse and no mapping is returned.
      `data` itself is a value and is left as it was. */
  method ParseWith<U>(data: map<string, Value<U>>, lookup: string -> Option<U>)
    returns (r: Outcome<map<string, Value<U>>, ParseError<U>>)
    ensures r.Ok? <==> Resolvable(data, lookup)
    ensures r.Ok? ==> r.value == Resolved(data, lookup)
    ensures r.Ok? ==> r.value.Keys == data.Keys
    ensures r.Ok? ==> forall k :: k in data && !IsUnitsKey(k) ==> r.value[k] == data[k]
    ensures r.Ok? ==> forall k :: k in data && IsUnitsKey(k) ==>
                        r.value[k].Tag? && Resolve(data[k], lookup) == Some(r.value[k].unit)
    ensures r.Err? ==> var e := r.error;
                       e.key in data && IsUnitsKey(e.key) && e.name == data[e.key] &&
                       Resolve(data[e.key], lookup).None?
  {
    var copy := data;
    var pending := data.Keys;
    while pending != {}
      invariant pending <= data.Keys
      invariant copy.Keys == data.Keys
      invariant forall k :: k in pending ==> copy[k] == data[k]
      invariant forall k :: k in data && k !in pending && IsUnitsKey(k) ==>
                  Resolve(data[k], lookup).Some? && copy[k] == Tag(Resolve(data[k], lookup).value)
      invariant forall k :: k in data && !IsUnitsKey(k) ==> copy[k] == data[k]
      decreases pending
    {
      var key :| key in pending;
      if IsUnitsKey(key) {
        var value := copy[key];
        match Resolve(value, lookup)
        case None =>
          return Err(UnknownUnit(key, value));
        case Some(u) =>
          copy := copy[key := Tag(u)];
      }
      pending := pending - {key};
    }
    r := Ok(copy);
  }

  /** What `json.dump(..., default=str)` writes for each value: a unit is
      written as its name, everything else as itself. */
  function JsonValues<U>(data: map<string, Value<U>>, name: U -> string): (r: map<string, Value<U>>)
    ensures r.Keys == data.Keys
    ensures forall k :: k in r ==> !r[k].Tag?
  {
    map k | k in data :: if data[k].Tag? then Str(name(data[k].unit)) else data[k]
  }

  /** Writing a mapping out with unit names and parsing it back gives the same
      mapping, provided units sit exactly under the ".units" keys and `lookup`
      inverts `name`. */
  lemma JsonRoundTrip<U>(data: map<string, Value<U>>, name: U -> string, lookup: string -> Option<U>)
    requires forall u :: lookup(name(u)) == Some(u)
    requires forall k :: k in data ==> (IsUnitsKey(k) <==> data[k].Tag?)
    ensures Resolvable(JsonValues(data, name), lookup)
    ensures Resolved(JsonValues(data, name), lookup) == data
  {
    var json := JsonValues(data, name);
    forall k | k in json && IsUnitsKey(k)
      ensures Resolve(json[k], lookup) == Some(data[k].unit)
    {
      assert json[k] == Str(name(data[k].unit));
    }
    var back := Resolved(json, lookup);
    assert back.Keys == data.Keys;
    forall k | k in data ensures back[k] == data[k] {
      if IsUnitsKey(k) {
        assert back[k] == Tag(data[k].unit);
      }
    }
  }

  /** A key a formula looks up is absent (`KeyError`), or holds the wrong kind
      of value. */
  datatype InputError = MissingInput(key: string) | WrongKind(key: string)

  /** `inputs[key]` where a number is expected. */
  function ReadNumber<U>(data: map<string, Value<U>>, key: string): (r: Outcome<real, InputError>)
    ensures r.Ok? <==> key in data && data[key].Num?
    ensures r.Ok? ==> r.value == data[key].x
    ensures r.Err? ==> r.error.key == key && (r.error.MissingInput? <==> key !in data)
  {
    if key !in data then Err(MissingInput(key))
    else if data[key].Num? then Ok(data[key].x)
    else Err(WrongKind(key))
  }

  /** `inputs[key]` where a parsed unit is expected. */
  function ReadUnit<U>(data: map<string, Value<U>>, key: string): (r: Outcome<U, InputError>)
    ensures r.Ok? <==> key in data && data[key].Tag?
    ensures r.Ok? ==> r.value == data[key].unit
    ensures r.Err? ==> r.error.key == key && (r.error.MissingInput? <==> key !in data)
  {
    if key !in data then Err(MissingInput(key))
    else if data[key].Tag? then Ok(data[key].unit)
    else Err(WrongKind(key))
  }
}
