/** The package-level unit system and result record that the multifocal
    Köhler integrator design uses: four units, two of which (millimetre and
    milliradian) share a scale factor and are nonetheless distinct. */
module Udesigner {
  import opened Common
  import opened Parsing

  /** The closed enumeration of units. Members are tags, not factors: `mm`
      and `mrad` are different members with equal factors. */
  datatype Unit = mm | mrad | um | nm

  const Members: set<Unit> := {mm, mrad, um, nm}

  /** The SI scale factor of a unit (`unit.value`). */
  function Factor(u: Unit): (f: real)
    ensures 0.0 < f <= 0.001
  {
    match u
    case mm => 0.001
    case mrad => 0.001
    case um => 0.000001
    case nm => 0.000000001
  }

  /** `str(u)`: the member's name, which `Units[...]` maps back to the member. */
  function Name(u: Unit): (s: string)
    ensures FromName(s) == Some(u)
  {
    match u
    case mm => "mm"
    case mrad => "mrad"
    case um => "um"
    case nm => "nm"
  }

  /** The member names. */
  const Names: set<string> := {"mm", "mrad", "um", "nm"}

  /** `Units[s]`: the member whose name is `s`, if there is one. */
  function FromName(s: string): (r: Option<Unit>)
    ensures r.Some? <==> s in Names
  {
    if s == "mm" then Some(mm)
    else if s == "mrad" then Some(mrad)
    else if s == "um" then Some(um)
    else if s == "nm" then Some(nm)
    else None
  }

  /** `Units[s]` is `u` exactly when `s` is `str(u)`. */
  lemma NameLookup(s: string, u: Unit)
    ensures FromName(s) == Some(u) <==> Name(u) == s
  {
  }

  /** Normalising a raw value into SI base units. */
  function ToSI(x: real, u: Unit): real {
    x * Factor(u)
  }

  /** Converting an SI value into a display unit. */
  function FromSI(x: real, u: Unit): real {
    x / Factor(u)
  }

  /** Display and normalisation undo each other in both orders. */
  lemma ConversionRoundTrip(x: real, u: Unit)
    ensures FromSI(ToSI(x, u), u) == x
    ensures ToSI(FromSI(x, u), u) == x
  {
  }

  /** `mm` and `mrad` share a factor, yet neither name resolves to the other
      member, and the four members are the only ones. */
  lemma NoAliasing()
    ensures Factor(mm) == Factor(mrad) && mm != mrad
    ensures FromName("mrad") == Some(mrad) && FromName("mm") == Some(mm)
    ensures forall u: Unit :: u in Members
    ensures |Members| == 4
  {
    forall u: Unit ensures u in Members {
      match u
      case mm =>
      case mrad =>
      case um =>
      case nm =>
    }
  }

  /** The `Result` record: a value, its display unit (`None` when the
      quantity is dimensionless) and a display name. */
  datatype Result = Result(value: real, units: Option<Unit>, name: string)

  /** A result read back in SI base units. */
  function InSI(r: Result): real {
    match r.units
    case None => r.value
    case Some(u) => ToSI(r.value, u)
  }

  /** `parse_inputs` for this unit system: the copy keeps the key set and
      every entry whose key does not end in ".units"; under each ".units" key
      it holds the member whose name was the input string; and if some
      ".units" value is not a member name, parsing fails with that key. */
  method ParseInputs(data: map<string, Value<Unit>>) returns (r: Outcome<map<string, Value<Unit>>, ParseError<Unit>>)
    ensures r.Ok? <==> forall k :: k in data && IsUnitsKey(k) ==> data[k].Str? && FromName(data[k].s).Some?
    ensures r.Ok? ==> r.value.Keys == data.Keys
    ensures r.Ok? ==> forall k :: k in data && !IsUnitsKey(k) ==> r.value[k] == data[k]
    ensures r.Ok? ==> forall k :: k in data && IsUnitsKey(k) ==> r.value[k].Tag? && data[k] == Str(Name(r.value[k].unit))
    ensures r.Err? ==> r.error.key in data && IsUnitsKey(r.error.key) && r.error.name == data[r.error.key] &&
                       !(data[r.error.key].Str? && FromName(data[r.error.key].s).Some?)
  {
    r := ParseWith(data, FromName);
    forall s, u | FromName(s) == Some(u) ensures Name(u) == s {
      NameLookup(s, u);
    }
  }

  /** The values `json.dump(..., default=str)` writes: units as their names. */
  function ToJson(data: map<string, Value<Unit>>): map<string, Value<Unit>> {
    JsonValues(data, Name)
  }

  /** A mapping whose units sit exactly under its ".units" keys survives being
      written with unit names and parsed back. */
  lemma ToJsonRoundTrip(data: map<string, Value<Unit>>)
    requires forall k :: k in data ==> (IsUnitsKey(k) <==> data[k].Tag?)
    ensures Resolvable(ToJson(data), FromName)
    ensures Resolved(ToJson(data), FromName) == data
  {
    JsonRoundTrip(data, Name, FromName);
  }
}
