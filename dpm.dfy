/** Design equations and design rules of a diffraction phase microscope (DPM):
    an objective, a grating in the image plane, a 4f relay of two Fourier
    lenses with a pinhole filter, and a camera. Inputs are normalised to SI
    base units, each formula evaluates one closed-form expression and the
    result is expressed in a display unit. Arithmetic is over the reals. */
module Dpm {
  import opened Common
  import opened Parsing

  // ---------------------------------------------------------------------------
  // Units and input parsing

  /** This design's own unit enumeration: lengths only, no milliradian. */
  datatype Unit = mm | um | nm

  /** The SI scale factor of a unit (`unit.value`). */
  function Factor(u: Unit): (f: real)
    ensures 0.0 < f <= 0.001
  {
    match u
    case mm => 0.001
    case um => 0.000001
    case nm => 0.000000001
  }

  /** `str(u)`: the member's name, which `Units[...]` maps back to the member. */
  function Name(u: Unit): (s: string)
    ensures FromName(s) == Some(u)
  {
    match u
    case mm => "mm"
    case um => "um"
    case nm => "nm"
  }

  /** The member names; "mrad" is not one of them. */
  const Names: set<string> := {"mm", "um", "nm"}

  /** `Units[s]`: the member whose name is `s`, if there is one. */
  function FromName(s: string): (r: Option<Unit>)
    ensures r.Some? <==> s in Names
    ensures s == "mrad" ==> r == None
  {
    if s == "mm" then Some(mm)
    else if s == "um" then Some(um)
    else if s == "nm" then Some(nm)
    else None
  }

  /** `Units[s]` is `u` exactly when `s` is `str(u)`. */
  lemma NameLookup(s: string, u: Unit)
    ensures FromName(s) == Some(u) <==> Name(u) == s
  {
  }

  /** `parse_inputs` for this unit system; "mrad" is not a member name here. */
  method ParseInputs(data: map<string, Value<Unit>>) returns (r: Outcome<map<string, Value<Unit>>, ParseError<Unit>>)
    ensures r.Ok? <==> forall k :: k in data && IsUnitsKey(k) ==> data[k].Str? && FromName(data[k].s).Some?
    ensures r.Ok? ==> r.value.Keys == data.Keys
    ensures r.Ok? ==> forall k :: k in data && !IsUnitsKey(k) ==> r.value[k] == data[k]
    ensures r.Ok? ==> forall k :: k in data && IsUnitsKey(k) ==> r.value[k].Tag? && data[k] == Str(Name(r.value[k].unit))
    ensures r.Err? ==> r.error.key in data && IsUnitsKey(r.error.key) && r.error.name == data[r.error.key] &&
                       !(data[r.error.key].Str? && FromName(data[r.error.key].s).Some?)
  {
    r := ParseWith(data, FromName);
    forall s, u | FromName(s) == Some(u) ensures Name(u) == s {
      NameLookup(s, u);
    }
  }

  // ---------------------------------------------------------------------------
  // Typed inputs

  /** A dimensioned input: the raw number and the unit of its ".units" key. */
  datatype Measure = Measure(value: real, unit: Unit)

  /** The input normalised into SI base units. */
  function SI(m: Measure): (x: real)
    ensures x == 0.0 <==> m.value == 0.0
  {
    m.value * Factor(m.unit)
  }

  /** An SI value that reads as `m` in `m`'s own unit. */
  predicate Written(x: real, m: Measure) {
    x / Factor(m.unit) == m.value
  }

  /** The design's parameters, one field per key of the flat input mapping. */
  datatype Inputs = Inputs(
    objectiveMagnification: real,        // "objective.magnification"
    objectiveNumericalAperture: real,    // "objective.numerical_aperture"
    pixelSize: Measure,                  // "camera.pixel_size"
    horizontalPixels: real,              // "camera.horizontal_number_of_pixels"
    verticalPixels: real,                // "camera.vertical_number_of_pixels"
    wavelength: Measure,                 // "light_source.wavelength"
    gratingPeriod: Measure,              // "grating.period"
    lens1FocalLength: Measure,           // "lens_1.focal_length"
    lens1ClearAperture: Measure,         // "lens_1.clear_aperture"
    lens2FocalLength: Measure,           // "lens_2.focal_length"
    lens2ClearAperture: Measure,         // "lens_2.clear_aperture"
    pinholeDiameter: Measure,            // "pinhole.diameter"
    centralLobeSizeFactor: real          // "misc.central_lobe_size_factor"
  )

  /** The example design shipped with the program. */
  const Defaults: Inputs := Inputs(
    20.0, 0.4, Measure(5.2, um), 512.0, 512.0, Measure(0.64, um), Measure(1000.0 / 300.0, um),
    Measure(75.0, mm), Measure(45.72, mm), Measure(300.0, mm), Measure(45.72, mm),
    Measure(30.0, um), 4.0)

  /** The inputs as every formula reads them: each dimensioned quantity
      multiplied by its unit's factor (`inputs[key] * inputs[key + ".units"].value`),
      that is, in SI base units. */
  datatype Design = Design(
    objectiveMagnification: real,
    objectiveNumericalAperture: real,
    pixelSize: real,
    horizontalPixels: real,
    verticalPixels: real,
    wavelength: real,
    gratingPeriod: real,
    lens1FocalLength: real,
    lens1ClearAperture: real,
    lens2FocalLength: real,
    lens2ClearAperture: real,
    pinholeDiameter: real,
    centralLobeSizeFactor: real
  )

  /** The normalisation each formula starts with: a dimensioned quantity,
      converted back into the unit it was written in, gives the written number;
      the magnification, the aperture, the pixel counts and the lobe factor are
      unitless and pass unchanged. */
  function Normalise(i: Inputs): (d: Design)
    ensures Written(d.pixelSize, i.pixelSize) && Written(d.wavelength, i.wavelength)
    ensures Written(d.gratingPeriod, i.gratingPeriod) && Written(d.pinholeDiameter, i.pinholeDiameter)
    ensures Written(d.lens1FocalLength, i.lens1FocalLength) && Written(d.lens1ClearAperture, i.lens1ClearAperture)
    ensures Written(d.lens2FocalLength, i.lens2FocalLength) && Written(d.lens2ClearAperture, i.lens2ClearAperture)
    ensures d.objectiveMagnification == i.objectiveMagnification
    ensures d.objectiveNumericalAperture == i.objectiveNumericalAperture
    ensures d.horizontalPixels == i.horizontalPixels && d.verticalPixels == i.verticalPixels
    ensures d.centralLobeSizeFactor == i.centralLobeSizeFactor
  {
    Design(i.objectiveMagnification, i.objectiveNumericalAperture, SI(i.pixelSize),
           i.horizontalPixels, i.verticalPixels, SI(i.wavelength), SI(i.gratingPeriod),
           SI(i.lens1FocalLength), SI(i.lens1ClearAperture), SI(i.lens2FocalLength),
           SI(i.lens2ClearAperture), SI(i.pinholeDiameter), i.centralLobeSizeFactor)
  }

  /** Reads a dimensioned input: the number under `key` and the unit under
      `unitsKey`. */
  function ReadMeasure(data: map<string, Value<Unit>>, key: string, unitsKey: string): (r: Outcome<Measure, InputError>)
    ensures r.Ok? <==> key in data && data[key].Num? && unitsKey in data && data[unitsKey].Tag?
    ensures r.Ok? ==> r.value == Measure(data[key].x, data[unitsKey].unit)
    ensures r.Err? ==> r.error.key == key || r.error.key == unitsKey
  {
    var v :- ReadNumber(data, key);
    var u :- ReadUnit(data, unitsKey);
    Ok(Measure(v, u))
  }

  /** The keys of the flat input mapping that hold numbers. */
  const NumberKeys: set<string> := {
    "objective.magnification", "objective.numerical_aperture",
    "camera.pixel_size", "camera.horizontal_number_of_pixels", "camera.vertical_number_of_pixels",
    "light_source.wavelength", "grating.period",
    "lens_1.focal_length", "lens_1.clear_aperture",
    "lens_2.focal_length", "lens_2.clear_aperture",
    "pinhole.diameter", "misc.central_lobe_size_factor"
  }

  /** The keys of the flat input mapping that hold units. */
  const UnitKeys: set<string> := {
    "camera.pixel_size.units", "light_source.wavelength.units", "grating.period.units",
    "lens_1.focal_length.units", "lens_1.clear_aperture.units",
    "lens_2.focal_length.units", "lens_2.clear_aperture.units",
    "pinhole.diameter.units"
  }

  /** The keys of the flat input mapping. */
  const InputKeys: set<string> := NumberKeys + UnitKeys

  /** Every input key is present and holds the kind of value it is read as. */
  predicate WellKinded(data: map<string, Value<Unit>>) {
    && (forall k :: k in NumberKeys ==> k in data && data[k].Num?)
    && (forall k :: k in UnitKeys ==> k in data && data[k].Tag?)
  }

  /** The typed view of a parsed mapping: every formula's `inputs[...]`
      lookups done once. A missing key is reported instead of failing later
      in the middle of a formula. */
  function ReadInputs(data: map<string, Value<Unit>>): (r: Outcome<Inputs, InputError>)
    ensures r.Ok? <==> WellKinded(data)
    ensures r.Ok? ==> forall k :: k in InputKeys ==> data[k] == ToMap(r.value)[k]
    ensures r.Err? ==> r.error.key in InputKeys
    ensures r.Err? && r.error.MissingInput? ==> r.error.key !in data
  {
    var magnification :- ReadNumber(data, "objective.magnification");
    var na :- ReadNumber(data, "objective.numerical_aperture");
    var pixelSize :- ReadMeasure(data, "camera.pixel_size", "camera.pixel_size.units");
    var horizontal :- ReadNumber(data, "camera.horizontal_number_of_pixels");
    var vertical :- ReadNumber(data, "camera.vertical_number_of_pixels");
    var wavelength :- ReadMeasure(data, "light_source.wavelength", "light_source.wavelength.units");
    var period :- ReadMeasure(data, "grating.period", "grating.period.units");
    var f1 :- ReadMeasure(data, "lens_1.focal_length", "lens_1.focal_length.units");
    var d1 :- ReadMeasure(data, "lens_1.clear_aperture", "lens_1.clear_aperture.units");
    var f2 :- ReadMeasure(data, "lens_2.focal_length", "lens_2.focal_length.units");
    var d2 :- ReadMeasure(data, "lens_2.clear_aperture", "lens_2.clear_aperture.units");
    var pinhole :- ReadMeasure(data, "pinhole.diameter", "pinhole.diameter.units");
    var lobe :- ReadNumber(data, "misc.central_lobe_size_factor");
    Ok(Inputs(magnification, na, pixelSize, horizontal, vertical, wavelength, period,
              f1, d1, f2, d2, pinhole, lobe))
  }

  /** The flat mapping that holds `i`, in the shape of the `DEFAULTS` dict. */
  function ToMap(i: Inputs): map<string, Value<Unit>>
  {
    map[
      "objective.magnification" := Num(i.objectiveMagnification),
      "objective.numerical_aperture" := Num(i.objectiveNumericalAperture),
      "camera.pixel_size" := Num(i.pixelSize.value),
      "camera.pixel_size.units" := Tag(i.pixelSize.unit),
      "camera.horizontal_number_of_pixels" := Num(i.horizontalPixels),
      "camera.vertical_number_of_pixels" := Num(i.verticalPixels),
      "light_source.wavelength" := Num(i.wavelength.value),
      "light_source.wavelength.units" := Tag(i.wavelength.unit),
      "grating.period" := Num(i.gratingPeriod.value),
      "grating.period.units" := Tag(i.gratingPeriod.unit),
      "lens_1.focal_length" := Num(i.lens1FocalLength.value),
      "lens_1.focal_length.units" := Tag(i.lens1FocalLength.unit),
      "lens_1.clear_aperture" := Num(i.lens1ClearAperture.value),
      "lens_1.clear_aperture.units" := Tag(i.lens1ClearAperture.unit),
      "lens_2.focal_length" := Num(i.lens2FocalLength.value),
      "lens_2.focal_length.units" := Tag(i.lens2FocalLength.unit),
      "lens_2.clear_aperture" := Num(i.lens2ClearAperture.value),
      "lens_2.clear_aperture.units" := Tag(i.lens2ClearAperture.unit),
      "pinhole.diameter" := Num(i.pinholeDiameter.value),
      "pinhole.diameter.units" := Tag(i.pinholeDiameter.unit),
      "misc.central_lobe_size_factor" := Num(i.centralLobeSizeFactor)
    ]
  }

  /** The values `json.dump(..., default=str)` writes: units as their names. */
  function ToJson(data: map<string, Value<Unit>>): map<string, Value<Unit>> {
    JsonValues(data, Name)
  }

  /** A mapping whose units sit exactly under its ".units" keys survives being
      written with unit names and parsed back. */
  lemma ToJsonRoundTrip(data: map<string, Value<Unit>>)
    requires forall k :: k in data ==> (IsUnitsKey(k) <==> data[k].Tag?)
    ensures Resolvable(ToJson(data), FromName)
    ensures Resolved(ToJson(data), FromName) == data
  {
    JsonRoundTrip(data, Name, FromName);
  }

  /** The mapping that holds `i` has exactly the keys that are read. */
  lemma ToMapKeys(i: Inputs)
    ensures ToMap(i).Keys == InputKeys
  {
  }

  /** Reading back the mapping that holds `i` gives `i`. */
  lemma ReadToMap(i: Inputs)
    ensures ReadInputs(ToMap(i)) == Ok(i)
  {
    var m := ToMap(i);
    ObjectiveEntries(i);
    CameraEntries(i);
    SourceEntries(i);
    Lens1Entries(i);
    Lens2Entries(i);
    PinholeEntries(i);
  }

  /** Inputs written as `defaults_to_json` writes them (units by name), then
      parsed and read back, are the inputs written. */
  lemma WrittenInputsReadBack(i: Inputs)
    ensures Resolvable(ToJson(ToMap(i)), FromName)
    ensures ReadInputs(Resolved(ToJson(ToMap(i)), FromName)) == Ok(i)
  {
    UnitsUnderUnitsKeys(i);
    ToJsonRoundTrip(ToMap(i));
    ReadToMap(i);
  }

  /** In the mapping that holds `i`, units sit exactly under the ".units" keys. */
  lemma UnitsUnderUnitsKeys(i: Inputs)
    ensures forall k :: k in ToMap(i) ==> (IsUnitsKey(k) <==> ToMap(i)[k].Tag?)
  {
    var m := ToMap(i);
    forall k | k in m
      ensures IsUnitsKey(k) <==> m[k].Tag?
    {
    }
  }

  /** The entries of `ToMap(i)` that hold the objective. */
  lemma ObjectiveEntries(i: Inputs)
    ensures var m := ToMap(i);
      && m["objective.magnification"] == Num(i.objectiveMagnification)
      && m["objective.numerical_aperture"] == Num(i.objectiveNumericalAperture)
  {
  }

  /** The entries of `ToMap(i)` that hold the camera. */
  lemma CameraEntries(i: Inputs)
    ensures var m := ToMap(i);
      && m["camera.pixel_size"] == Num(i.pixelSize.value)
      && m["camera.pixel_size.units"] == Tag(i.pixelSize.unit)
      && m["camera.horizontal_number_of_pixels"] == Num(i.horizontalPixels)
      && m["camera.vertical_number_of_pixels"] == Num(i.verticalPixels)
  {
  }

  /** The entries of `ToMap(i)` that hold the light source and the grating. */
  lemma SourceEntries(i: Inputs)
    ensures var m := ToMap(i);
      && m["light_source.wavelength"] == Num(i.wavelength.value)
      && m["light_source.wavelength.units"] == Tag(i.wavelength.unit)
      && m["grating.period"] == Num(i.gratingPeriod.value)
      && m["grating.period.units"] == Tag(i.gratingPeriod.unit)
  {
  }

  /** The entries of `ToMap(i)` that hold lens 1. */
  lemma Lens1Entries(i: Inputs)
    ensures var m := ToMap(i);
      && m["lens_1.focal_length"] == Num(i.lens1FocalLength.value)
      && m["lens_1.focal_length.units"] == Tag(i.lens1FocalLength.unit)
      && m["lens_1.clear_aperture"] == Num(i.lens1ClearAperture.value)
      && m["lens_1.clear_aperture.units"] == Tag(i.lens1ClearAperture.unit)
  {
  }

  /** The entries of `ToMap(i)` that hold lens 2. */
  lemma Lens2Entries(i: Inputs)
    ensures var m := ToMap(i);
      && m["lens_2.focal_length"] == Num(i.lens2FocalLength.value)
      && m["lens_2.focal_length.units"] == Tag(i.lens2FocalLength.unit)
      && m["lens_2.clear_aperture"] == Num(i.lens2ClearAperture.value)
      && m["lens_2.clear_aperture.units"] == Tag(i.lens2ClearAperture.unit)
  {
  }

  /** The entries of `ToMap(i)` that hold the pinhole and the central lobe. */
  lemma PinholeEntries(i: Inputs)
    ensures var m := ToMap(i);
      && m["pinhole.diameter"] == Num(i.pinholeDiameter.value)
      && m["pinhole.diameter.units"] == Tag(i.pinholeDiameter.unit)
      && m["misc.central_lobe_size_factor"] == Num(i.centralLobeSizeFactor)
  {
  }

  // ---------------------------------------------------------------------------
  // Results

  /** The `Result` record: a value, its display unit (`None` when the
      quantity is dimensionless) and a display name. */
  datatype Result = Result(value: real, units: Option<Unit>, name: string)

  /** A result read back in SI base units (`value * units.value`). */
  function InSI(r: Result): real {
    match r.units
    case None => r.value
    case Some(u) => r.value * Factor(u)
  }

  function Sq(x: real): real { x * x }

  /** `sqrt` is a square root on the non-negative reals. */
  ghost predicate IsSquareRoot(sqrt: real -> real) {
    forall x :: 0.0 <= x ==> 0.0 <= sqrt(x) && sqrt(x) * sqrt(x) == x
  }

  // ---------------------------------------------------------------------------
  // Design equations. `sqrt` stands for Python's `** 0.5`.

  /** Radius of the Airy disk in object space: 1.22 lambda / NA, in um. */
  function Resolution(d: Design): (r: Result)
    requires d.objectiveNumericalAperture != 0.0
    ensures r.units == Some(um)
    ensures InSI(r) == 1.22 * d.wavelength / d.objectiveNumericalAperture
  {
    var wav := d.wavelength;
    Result(1.22 * wav / d.objectiveNumericalAperture / Factor(um), Some(um), "Resolution")
  }

  /** Smallest Airy radius the grating and objective can sample:
      Lambda / (0.28 M_obj), in um. */
  function MinimumResolution(d: Design): (r: Result)
    requires d.objectiveMagnification != 0.0
    ensures r.units == Some(um)
    ensures InSI(r) == d.gratingPeriod / (0.28 * d.objectiveMagnification)
  {
    var period := d.gratingPeriod;
    Result(period / Factor(um) / 0.28 / d.objectiveMagnification, Some(um), "Minimum resolution")
  }

  /** Largest grating period that samples the PSF: lambda M_obj / (3 NA), in um. */
  function MaximumGratingPeriod(d: Design): (r: Result)
    requires d.objectiveNumericalAperture != 0.0
    ensures r.units == Some(um)
    ensures InSI(r) == d.wavelength * d.objectiveMagnification / (3.0 * d.objectiveNumericalAperture)
  {
    var wav := d.wavelength;
    Result(wav * d.objectiveMagnification / 3.0 / d.objectiveNumericalAperture / Factor(um),
           Some(um), "Maximum grating period")
  }

  /** Largest camera pixel that samples the fringes: Lambda |M_4f| / 2.67, in
      um. Only the magnitude of the 4f magnification enters. */
  function MaximumPixelSize(d: Design): (r: Result)
    requires d.lens1FocalLength != 0.0
    ensures r.units == Some(um)
    ensures InSI(r) == d.gratingPeriod * Abs(d.lens2FocalLength / d.lens1FocalLength) / 2.67
    ensures 0.0 <= d.gratingPeriod ==> 0.0 <= r.value
  {
    var period := d.gratingPeriod;
    var mag4f := Actual4fMagnification(d).value;
    Result(period * Abs(mag4f) / 2.67 / Factor(um), Some(um), "Maximum pixel size")
  }

  /** Distance of the first diffraction order from the axis in the Fourier
      plane of lens 1: f_1 lambda / Lambda, in mm. */
  function FourierPlaneSpacing(d: Design): (r: Result)
    requires d.gratingPeriod != 0.0
    ensures r.units == Some(mm)
    ensures InSI(r) == d.lens1FocalLength * d.wavelength / d.gratingPeriod
  {
    var f1 := d.lens1FocalLength;
    var wav := d.wavelength;
    var period := d.gratingPeriod;
    Result(f1 * wav / period / Factor(mm), Some(mm), "Fourier plane spacing")
  }

  /** Radius of each image spectrum in the Fourier plane: (NA / M_obj) f_1, in mm. */
  function FourierPlaneSizes(d: Design): (r: Result)
    requires d.objectiveMagnification != 0.0
    ensures r.units == Some(mm)
    ensures InSI(r) == d.objectiveNumericalAperture / d.objectiveMagnification * d.lens1FocalLength
  {
    var imageSpaceNa := d.objectiveNumericalAperture / d.objectiveMagnification;
    var f1 := d.lens1FocalLength;
    Result(imageSpaceNa * f1 / Factor(mm), Some(mm), "Radial extent of image spectra")
  }

  /** Smallest |M_4f| that samples PSF and fringes:
      2 a (1/Lambda + NA / (lambda M_obj)); dimensionless. The bracket is the
      highest spatial frequency in the intermediate image (see
      `Minimum4fIsSampling` and `FourFRuleIsNyquist`). */
  function Minimum4fMagnification(d: Design): (r: Result)
    requires d.objectiveMagnification != 0.0 && d.wavelength != 0.0 && d.gratingPeriod != 0.0
    ensures r.units == None
    ensures r.value == 2.0 * d.pixelSize *
                       (1.0 / d.gratingPeriod + d.objectiveNumericalAperture / (d.wavelength * d.objectiveMagnification))
  {
    var pixel := d.pixelSize;
    var period := d.gratingPeriod;
    var wav := d.wavelength;
    Result(2.0 * pixel * (1.0 / period + d.objectiveNumericalAperture / wav / d.objectiveMagnification),
           None, "Minimum 4f magnification (abs. value)")
  }

  /** The signed magnification of the 4f relay, -f_2 / f_1; dimensionless and
      negative (an inverted image) when both focal lengths are positive. */
  function Actual4fMagnification(d: Design): (r: Result)
    requires d.lens1FocalLength != 0.0
    ensures r.units == None
    ensures r.value * d.lens1FocalLength == -d.lens2FocalLength
    ensures Abs(r.value) == Abs(d.lens2FocalLength / d.lens1FocalLength)
    ensures 0.0 < d.lens1FocalLength && 0.0 < d.lens2FocalLength ==> r.value < 0.0
  {
    var f1 := d.lens1FocalLength;
    var f2 := d.lens2FocalLength;
    Result(-f2 / f1, None, "Actual 4f magnification")
  }

  /** Magnification of the whole system, -M_obj M_4f = M_obj f_2 / f_1;
      positive when the objective magnification and both focal lengths are. */
  function SystemMagnification(d: Design): (r: Result)
    requires d.lens1FocalLength != 0.0
    ensures r.units == None
    ensures r.value == d.objectiveMagnification * d.lens2FocalLength / d.lens1FocalLength
    ensures 0.0 < d.objectiveMagnification && 0.0 < d.lens1FocalLength && 0.0 < d.lens2FocalLength ==>
              0.0 < r.value
  {
    var mag4f := Actual4fMagnification(d).value;
    Result(-d.objectiveMagnification * mag4f, None, "System magnification")
  }

  /** Horizontal field of view in object space: m a / (M_obj |M_4f|), in um. */
  function FieldOfViewHorizontal(d: Design): (r: Result)
    requires d.objectiveMagnification != 0.0 && d.lens1FocalLength != 0.0 && d.lens2FocalLength != 0.0
    ensures r.units == Some(um)
    ensures InSI(r) == d.horizontalPixels * d.pixelSize /
                       (d.objectiveMagnification * Abs(d.lens2FocalLength / d.lens1FocalLength))
  {
    var pixel := d.pixelSize;
    var mag4f := Actual4fMagnification(d).value;
    Result(d.horizontalPixels * pixel / d.objectiveMagnification / Abs(mag4f) / Factor(um),
           Some(um), "Field of view (horizontal)")
  }

  /** Vertical field of view in object space: n a / (M_obj |M_4f|), in um. */
  function FieldOfViewVertical(d: Design): (r: Result)
    requires d.objectiveMagnification != 0.0 && d.lens1FocalLength != 0.0 && d.lens2FocalLength != 0.0
    ensures r.units == Some(um)
    ensures InSI(r) == d.verticalPixels * d.pixelSize /
                       (d.objectiveMagnification * Abs(d.lens2FocalLength / d.lens1FocalLength))
  {
    var pixel := d.pixelSize;
    var mag4f := Actual4fMagnification(d).value;
    Result(d.verticalPixels * pixel / d.objectiveMagnification / Abs(mag4f) / Factor(um),
           Some(um), "Field of view (vertical)")
  }

  /** Diagonal of the camera chip, a sqrt(m^2 + n^2), in mm: by Pythagoras its
      square is the sum of the squares of the chip's sides. */
  function CameraDiagonal(d: Design, sqrt: real -> real): (r: Result)
    ensures r.units == Some(mm)
    ensures IsSquareRoot(sqrt) ==>
              Sq(InSI(r)) == Sq(d.horizontalPixels * d.pixelSize) + Sq(d.verticalPixels * d.pixelSize)
    ensures IsSquareRoot(sqrt) && 0.0 <= d.pixelSize ==> 0.0 <= r.value
  {
    var pixel := d.pixelSize;
    var m := d.horizontalPixels;
    var n := d.verticalPixels;
    var value := pixel * sqrt(m * m + n * n) / Factor(mm);
    CameraDiagonalFacts(pixel, m, n, sqrt, value);
    Result(value, Some(mm), "Camera diagonal")
  }

  lemma CameraDiagonalFacts(pixel: real, m: real, n: real, sqrt: real -> real, value: real)
    requires value == pixel * sqrt(m * m + n * n) / Factor(mm)
    ensures IsSquareRoot(sqrt) ==> Sq(value * Factor(mm)) == Sq(m * pixel) + Sq(n * pixel)
    ensures IsSquareRoot(sqrt) && 0.0 <= pixel ==> 0.0 <= value
  {
    if IsSquareRoot(sqrt) {
      var s := sqrt(m * m + n * n);
      assert 0.0 <= s && s * s == m * m + n * n;
      assert value * Factor(mm) == pixel * s;
      calc {
        Sq(pixel * s);
        pixel * pixel * (s * s);
        pixel * pixel * (m * m + n * n);
        Sq(m * pixel) + Sq(n * pixel);
      }
    }
  }

  /** Smallest NA of lens 1 that passes the +1 order: lambda / Lambda + NA / M_obj.
      Times f_1 it is the distance from the axis to the outer edge of that
      order in the Fourier plane: its spacing plus the spectrum's radius. */
  function MinimumLens1Na(d: Design): (r: Result)
    requires d.gratingPeriod != 0.0 && d.objectiveMagnification != 0.0
    ensures r.units == None
    ensures r.value == d.wavelength / d.gratingPeriod + d.objectiveNumericalAperture / d.objectiveMagnification
    ensures r.value * d.lens1FocalLength == InSI(FourierPlaneSpacing(d)) + InSI(FourierPlaneSizes(d))
  {
    var wav := d.wavelength;
    var period := d.gratingPeriod;
    Result(wav / period + d.objectiveNumericalAperture / d.objectiveMagnification, None, "Minimum NA of Fourier lens 1")
  }

  /** Smallest NA of lens 2 that passes the +1 order:
      lambda / (Lambda |M_4f|) + 1.22 lambda / d. */
  function MinimumLens2Na(d: Design): (r: Result)
    requires d.gratingPeriod != 0.0 && d.lens1FocalLength != 0.0 && d.lens2FocalLength != 0.0
    requires d.pinholeDiameter != 0.0
    ensures r.units == None
    ensures r.value == d.wavelength / (Abs(d.lens2FocalLength / d.lens1FocalLength) * d.gratingPeriod)
                       + 1.22 * d.wavelength / d.pinholeDiameter
  {
    var wav := d.wavelength;
    var period := d.gratingPeriod;
    var mag4f := Actual4fMagnification(d).value;
    var pinhole := d.pinholeDiameter;
    assert Abs(mag4f) != 0.0 by {
      assert d.lens2FocalLength / d.lens1FocalLength != 0.0;
    }
    DivideTwice(wav, Abs(mag4f), period);
    Result(wav / Abs(mag4f) / period + 1.22 * wav / pinhole, None, "Minimum NA of Fourier lens 2")
  }

  lemma DivideTwice(a: real, b: real, c: real)
    requires b != 0.0 && c != 0.0
    ensures a / b / c == a / (b * c)
  {
  }

  /** NA of a lens under the Abbe sine condition: half the clear aperture over
      the focal length. */
  function LensNa(focalLength: real, clearAperture: real): (na: real)
    requires focalLength != 0.0
    ensures 2.0 * focalLength * na == clearAperture
  {
    clearAperture / 2.0 / focalLength
  }

  /** NA of Fourier lens 1: D_1 / (2 f_1). It does not matter which unit the two
      lengths are given in, as long as it is the same one. */
  function Lens1Na(d: Design): (r: Result)
    requires d.lens1FocalLength != 0.0
    ensures r.units == None
    ensures r.value == d.lens1ClearAperture / (2.0 * d.lens1FocalLength)
  {
    var f1 := d.lens1FocalLength;
    var d := d.lens1ClearAperture;
    Result(LensNa(f1, d), None, "Actual NA of Fourier lens 1")
  }

  /** NA of Fourier lens 2: D_2 / (2 f_2), whatever common unit the lengths use. */
  function Lens2Na(d: Design): (r: Result)
    requires d.lens2FocalLength != 0.0
    ensures r.units == None
    ensures r.value == d.lens2ClearAperture / (2.0 * d.lens2FocalLength)
  {
    var f2 := d.lens2FocalLength;
    var d := d.lens2ClearAperture;
    Result(LensNa(f2, d), None, "Actual NA of Fourier lens 2")
  }

  /** With the wavelength given in um, the resolution's number is
      1.22 lambda / NA on the wavelength's own number. */
  lemma ResolutionInMicrometres(i: Inputs)
    requires i.objectiveNumericalAperture != 0.0 && i.wavelength.unit == um
    ensures Resolution(Normalise(i)).value == 1.22 * i.wavelength.value / i.objectiveNumericalAperture
  {
    var d := Normalise(i);
    assert d.wavelength == i.wavelength.value * Factor(um);
  }

  /** A lens's NA is D / (2 f) on the raw numbers whenever focal length and
      clear aperture are given in the same unit, whatever that unit is. */
  lemma LensNaSameUnit(i: Inputs)
    ensures i.lens1FocalLength.value != 0.0 && i.lens1FocalLength.unit == i.lens1ClearAperture.unit ==>
              Lens1Na(Normalise(i)).value == i.lens1ClearAperture.value / (2.0 * i.lens1FocalLength.value)
    ensures i.lens2FocalLength.value != 0.0 && i.lens2FocalLength.unit == i.lens2ClearAperture.unit ==>
              Lens2Na(Normalise(i)).value == i.lens2ClearAperture.value / (2.0 * i.lens2FocalLength.value)
  {
    var d := Normalise(i);
    if i.lens1FocalLength.value != 0.0 && i.lens1FocalLength.unit == i.lens1ClearAperture.unit {
      SameUnitRatio(i.lens1ClearAperture.value, i.lens1FocalLength.value, Factor(i.lens1FocalLength.unit));
    }
    if i.lens2FocalLength.value != 0.0 && i.lens2FocalLength.unit == i.lens2ClearAperture.unit {
      SameUnitRatio(i.lens2ClearAperture.value, i.lens2FocalLength.value, Factor(i.lens2FocalLength.unit));
    }
  }

  /** A common factor cancels: (a k) / (2 b k) == a / (2 b). */
  lemma SameUnitRatio(a: real, b: real, k: real)
    requires b != 0.0 && k != 0.0
    ensures a * k / (2.0 * (b * k)) == a / (2.0 * b)
  {
    assert 2.0 * (b * k) == (2.0 * b) * k;
  }

  /** Largest pinhole whose central Airy lobe covers the camera uniformly:
      2.44 lambda f_2 / (gamma D), in um, with D the camera diagonal. */
  function MaximumPinholeDiameter(d: Design, sqrt: real -> real): (r: Result)
    requires CameraDiagonal(d, sqrt).value != 0.0 && d.centralLobeSizeFactor != 0.0
    ensures r.units == Some(um)
    ensures InSI(r) == 2.44 * d.wavelength * d.lens2FocalLength /
                       (InSI(CameraDiagonal(d, sqrt)) * d.centralLobeSizeFactor)
  {
    var wav := d.wavelength;
    var f2 := d.lens2FocalLength;
    var diagonal := CameraDiagonal(d, sqrt);
    var diagonalSI := diagonal.value * Factor(diagonal.units.value);
    Result(2.44 * wav * f2 / diagonalSI / d.centralLobeSizeFactor / Factor(um), Some(um), "Maximum pinhole diameter")
  }

  /** Diagonal of the field of view in SI units. */
  function FieldOfViewDiagonal(d: Design, sqrt: real -> real): real
    requires d.objectiveMagnification != 0.0 && d.lens1FocalLength != 0.0 && d.lens2FocalLength != 0.0
  {
    sqrt(Sq(InSI(FieldOfViewHorizontal(d))) + Sq(InSI(FieldOfViewVertical(d))))
  }

  /** Ratio of the resolution to the diagonal of the field of view: its square
      times the squared diagonal is the squared resolution. */
  function CouplingRatio(d: Design, sqrt: real -> real): (r: Result)
    requires d.objectiveNumericalAperture != 0.0
    requires d.objectiveMagnification != 0.0 && d.lens1FocalLength != 0.0 && d.lens2FocalLength != 0.0
    requires FieldOfViewDiagonal(d, sqrt) != 0.0
    ensures r.units == None
    ensures r.value * FieldOfViewDiagonal(d, sqrt) == InSI(Resolution(d))
    ensures IsSquareRoot(sqrt) ==>
              Sq(r.value) * (Sq(InSI(FieldOfViewHorizontal(d))) + Sq(InSI(FieldOfViewVertical(d))))
              == Sq(InSI(Resolution(d)))
  {
    var res := Resolution(d);
    var fovH := FieldOfViewHorizontal(d);
    var fovV := FieldOfViewVertical(d);
    var resSI := res.value * Factor(res.units.value);
    var diagonal := sqrt(Sq(fovH.value * Factor(fovH.units.value)) + Sq(fovV.value * Factor(fovV.units.value)));
    RatioOfSquareRoot(resSI, Sq(InSI(fovH)) + Sq(InSI(fovV)), sqrt);
    Result(resSI / diagonal, None, "Coupling ratio")
  }

  lemma RatioOfSquareRoot(a: real, x: real, sqrt: real -> real)
    requires sqrt(x) != 0.0
    ensures IsSquareRoot(sqrt) && 0.0 <= x ==> Sq(a / sqrt(x)) * x == Sq(a)
  {
    if IsSquareRoot(sqrt) && 0.0 <= x {
      var s := sqrt(x);
      assert s * s == x;
      calc {
        Sq(a / s) * x;
        (a / s) * (a / s) * (s * s);
        ((a / s) * s) * ((a / s) * s);
        a * a;
      }
    }
  }

  // ---------------------------------------------------------------------------
  // All results

  /** Every divisor of every formula is non-zero (Python raises
      `ZeroDivisionError` otherwise). */
  predicate Computable(d: Design, sqrt: real -> real) {
    && d.objectiveMagnification != 0.0
    && d.objectiveNumericalAperture != 0.0
    && d.wavelength != 0.0
    && d.gratingPeriod != 0.0
    && d.lens1FocalLength != 0.0
    && d.lens2FocalLength != 0.0
    && d.pinholeDiameter != 0.0
    && d.centralLobeSizeFactor != 0.0
    && CameraDiagonal(d, sqrt).value != 0.0
    && FieldOfViewDiagonal(d, sqrt) != 0.0
  }

  /** The identifiers of the result set. */
  const ResultKeys: set<string> := {
    "resolution", "minimum_resolution", "camera_diagonal", "maximum_pixel_size",
    "field_of_view_horizontal", "field_of_view_vertical", "maximum_grating_period",
    "fourier_plane_spacing", "fourier_plane_sizes", "minimum_lens_1_na", "minimum_lens_2_na",
    "lens_1_na", "lens_2_na", "minimum_4f_magnification", "4f_magnification",
    "system_magnification", "maximum_pinhole_diameter", "coupling_ratio"
  }

  /** The result set as a record: one field per entry of the dictionary that
      `compute_results` returns. */
  datatype ResultSet = ResultSet(
    resolution: Result, minimumResolution: Result, cameraDiagonal: Result, maximumPixelSize: Result,
    fieldOfViewHorizontal: Result, fieldOfViewVertical: Result, maximumGratingPeriod: Result,
    fourierPlaneSpacing: Result, fourierPlaneSizes: Result, minimumLens1Na: Result, minimumLens2Na: Result,
    lens1Na: Result, lens2Na: Result, minimum4fMagnification: Result, actual4fMagnification: Result,
    systemMagnification: Result, maximumPinholeDiameter: Result, couplingRatio: Result)

  /** The dictionary that holds a result set, keyed by the identifiers the
      design rules and the page use. */
  function Dict(s: ResultSet): (r: map<string, Result>)
    ensures "lens_1_na" in r && r["lens_1_na"] == s.lens1Na
    ensures "minimum_lens_1_na" in r && r["minimum_lens_1_na"] == s.minimumLens1Na
    ensures "lens_2_na" in r && r["lens_2_na"] == s.lens2Na
    ensures "minimum_lens_2_na" in r && r["minimum_lens_2_na"] == s.minimumLens2Na
    ensures "maximum_pinhole_diameter" in r && r["maximum_pinhole_diameter"] == s.maximumPinholeDiameter
    ensures "maximum_pixel_size" in r && r["maximum_pixel_size"] == s.maximumPixelSize
  {
    map[
      "resolution" := s.resolution,
      "minimum_resolution" := s.minimumResolution,
      "camera_diagonal" := s.cameraDiagonal,
      "maximum_pixel_size" := s.maximumPixelSize,
      "field_of_view_horizontal" := s.fieldOfViewHorizontal,
      "field_of_view_vertical" := s.fieldOfViewVertical,
      "maximum_grating_period" := s.maximumGratingPeriod,
      "fourier_plane_spacing" := s.fourierPlaneSpacing,
      "fourier_plane_sizes" := s.fourierPlaneSizes,
      "minimum_lens_1_na" := s.minimumLens1Na,
      "minimum_lens_2_na" := s.minimumLens2Na,
      "lens_1_na" := s.lens1Na,
      "lens_2_na" := s.lens2Na,
      "minimum_4f_magnification" := s.minimum4fMagnification,
      "4f_magnification" := s.actual4fMagnification,
      "system_magnification" := s.systemMagnification,
      "maximum_pinhole_diameter" := s.maximumPinholeDiameter,
      "coupling_ratio" := s.couplingRatio
    ]
  }

  /** `compute_results`: every formula, keyed by its identifier. */
  function ComputeResults(d: Design, sqrt: real -> real): (r: map<string, Result>)
    requires Computable(d, sqrt)
    ensures Checkable(d, r)
  {
    Dict(ResultSet(
      Resolution(d), MinimumResolution(d), CameraDiagonal(d, sqrt), MaximumPixelSize(d),
      FieldOfViewHorizontal(d), FieldOfViewVertical(d), MaximumGratingPeriod(d),
      FourierPlaneSpacing(d), FourierPlaneSizes(d), MinimumLens1Na(d), MinimumLens2Na(d),
      Lens1Na(d), Lens2Na(d), Minimum4fMagnification(d), Actual4fMagnification(d),
      SystemMagnification(d), MaximumPinholeDiameter(d, sqrt), CouplingRatio(d, sqrt)))
  }

  // ---------------------------------------------------------------------------
  // Design rules

  /** A failed design rule, with the threshold and the actual value it compared
      (pinhole and pixel sizes in um). */
  datatype Violation =
    | MagnificationBelowMinimum(minimum: real, actual: real)
    | Lens1NaBelowMinimum(minimum: real, actual: real)
    | Lens2NaBelowMinimum(minimum: real, actual: real)
    | PinholeAboveMaximum(maximum: real, actual: real)
    | PixelSizeAboveMaximum(maximum: real, actual: real)

  /** The 4f relay magnifies at least as much as required: reports exactly
      when |M_4f| is below the minimum's magnitude. It recomputes both values
      from the inputs. */
  function Validate4fMagnification(d: Design, results: map<string, Result>): (v: Option<Violation>)
    requires d.objectiveMagnification != 0.0 && d.wavelength != 0.0 && d.gratingPeriod != 0.0
    requires d.lens1FocalLength != 0.0
    ensures v.Some? <==> Abs(d.lens2FocalLength / d.lens1FocalLength) < Abs(Minimum4fMagnification(d).value)
    ensures v.Some? ==> v.value == MagnificationBelowMinimum(Abs(Minimum4fMagnification(d).value),
                                                             Abs(Actual4fMagnification(d).value))
  {
    var magnification := Abs(Actual4fMagnification(d).value);
    var minimum := Abs(Minimum4fMagnification(d).value);
    if magnification < minimum then Some(MagnificationBelowMinimum(minimum, magnification)) else None
  }

  /** Lens 1 is fast enough: reports exactly when its NA is below the minimum. */
  function ValidateLens1Na(d: Design, results: map<string, Result>): (v: Option<Violation>)
    requires "lens_1_na" in results && "minimum_lens_1_na" in results
    ensures v.Some? <==> results["lens_1_na"].value < results["minimum_lens_1_na"].value
    ensures v.Some? ==> v.value == Lens1NaBelowMinimum(results["minimum_lens_1_na"].value, results["lens_1_na"].value)
  {
    var na := results["lens_1_na"].value;
    var minimum := results["minimum_lens_1_na"].value;
    if na < minimum then Some(Lens1NaBelowMinimum(minimum, na)) else None
  }

  /** Lens 2 is fast enough: reports exactly when its NA is below the minimum. */
  function ValidateLens2Na(d: Design, results: map<string, Result>): (v: Option<Violation>)
    requires "lens_2_na" in results && "minimum_lens_2_na" in results
    ensures v.Some? <==> results["lens_2_na"].value < results["minimum_lens_2_na"].value
    ensures v.Some? ==> v.value == Lens2NaBelowMinimum(results["minimum_lens_2_na"].value, results["lens_2_na"].value)
  {
    var na := results["lens_2_na"].value;
    var minimum := results["minimum_lens_2_na"].value;
    if na < minimum then Some(Lens2NaBelowMinimum(minimum, na)) else None
  }

  /** The pinhole is small enough: both diameters are converted to um, and
      the rule reports exactly when the physical diameter exceeds the
      physical maximum, whatever units either was given in. */
  function ValidatePinholeDiameter(d: Design, results: map<string, Result>): (v: Option<Violation>)
    requires "maximum_pinhole_diameter" in results && results["maximum_pinhole_diameter"].units.Some?
    ensures v.Some? <==> d.pinholeDiameter > InSI(results["maximum_pinhole_diameter"])
    ensures v.Some? ==> v.value == PinholeAboveMaximum(InSI(results["maximum_pinhole_diameter"]) / Factor(um),
                                                       d.pinholeDiameter / Factor(um))
  {
    var units := um;
    var diameter := d.pinholeDiameter / Factor(units);
    var maximum := results["maximum_pinhole_diameter"];
    var maximumDiameter := maximum.value * Factor(maximum.units.value) / Factor(units);
    assert maximumDiameter == InSI(maximum) / Factor(um);
    if diameter > maximumDiameter then Some(PinholeAboveMaximum(maximumDiameter, diameter)) else None
  }

  /** The camera pixels are small enough: reports exactly when the physical
      pixel size exceeds the physical maximum. */
  function ValidatePixelSize(d: Design, results: map<string, Result>): (v: Option<Violation>)
    requires "maximum_pixel_size" in results && results["maximum_pixel_size"].units.Some?
    ensures v.Some? <==> d.pixelSize > InSI(results["maximum_pixel_size"])
    ensures v.Some? ==> v.value == PixelSizeAboveMaximum(InSI(results["maximum_pixel_size"]) / Factor(um),
                                                         d.pixelSize / Factor(um))
  {
    var units := um;
    var pixel := d.pixelSize / Factor(units);
    var maximum := results["maximum_pixel_size"];
    var maximumPixel := maximum.value * Factor(maximum.units.value) / Factor(units);
    assert maximumPixel == InSI(maximum) / Factor(um);
    if pixel > maximumPixel then Some(PixelSizeAboveMaximum(maximumPixel, pixel)) else None
  }

  /** The entries of the `validations` list, in their order. */
  datatype Rule = FourFMagnificationRule | Lens1NaRule | Lens2NaRule | PinholeDiameterRule | PixelSizeRule

  const Rules: seq<Rule> := [FourFMagnificationRule, Lens1NaRule, Lens2NaRule, PinholeDiameterRule, PixelSizeRule]

  /** What every rule needs: non-zero divisors for the recomputed 4f
      magnifications and the result entries the other rules look up. */
  predicate Checkable(d: Design, results: map<string, Result>) {
    && d.objectiveMagnification != 0.0 && d.wavelength != 0.0 && d.gratingPeriod != 0.0
    && d.lens1FocalLength != 0.0
    && "lens_1_na" in results && "minimum_lens_1_na" in results
    && "lens_2_na" in results && "minimum_lens_2_na" in results
    && "maximum_pinhole_diameter" in results && results["maximum_pinhole_diameter"].units.Some?
    && "maximum_pixel_size" in results && results["maximum_pixel_size"].units.Some?
  }

  /** `validation(inputs, results)` for one entry of the list. */
  function Check(rule: Rule, d: Design, results: map<string, Result>): Option<Violation>
    requires Checkable(d, results)
  {
    match rule
    case FourFMagnificationRule => Validate4fMagnification(d, results)
    case Lens1NaRule => ValidateLens1Na(d, results)
    case Lens2NaRule => ValidateLens2Na(d, results)
    case PinholeDiameterRule => ValidatePinholeDiameter(d, results)
    case PixelSizeRule => ValidatePixelSize(d, results)
  }

  /** The outcome of every rule, `None` included, in rule order. */
  function Outcomes(d: Design, results: map<string, Result>): (r: seq<Option<Violation>>)
    requires Checkable(d, results)
    ensures r == [Validate4fMagnification(d, results), ValidateLens1Na(d, results),
                  ValidateLens2Na(d, results), ValidatePinholeDiameter(d, results),
                  ValidatePixelSize(d, results)]
  {
    seq(|Rules|, n requires 0 <= n < |Rules| => Check(Rules[n], d, results))
  }

  /** `validate_results`: runs the rules in order, collecting each outcome,
      and returns the violations among them. */
  method ValidateResults(d: Design, results: map<string, Result>) returns (violations: seq<Violation>)
    requires Checkable(d, results)
    ensures violations == Present(Outcomes(d, results))
  {
    var outcomes: seq<Option<Violation>> := [];
    for n := 0 to |Rules|
      invariant outcomes == Outcomes(d, results)[..n]
    {
      outcomes := outcomes + [Check(Rules[n], d, results)];
    }
    assert outcomes == Outcomes(d, results);
    violations := Present(outcomes);
  }
}
