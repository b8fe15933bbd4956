/** Design equations and design rules of a multifocal Köhler integrator: a
    source collimated by a lens, a telescope, two microlens arrays (the
    integrator array and the excitation array) and a Fourier lens. It uses the
    package-level unit system, in which a divergence is given in milliradian.
    Inputs are normalised to SI base units; arithmetic is over the reals. */
module Mfki {
  import opened Common
  import opened Parsing
  import opened Udesigner

  // ---------------------------------------------------------------------------
  // Typed inputs

  /** A dimensioned input: the raw number and the unit of its ".units" key. */
  datatype Measure = Measure(value: real, unit: Unit)

  /** The input normalised into SI base units (radian for an angle). */
  function SI(m: Measure): (x: real)
    ensures x == 0.0 <==> m.value == 0.0
  {
    m.value * Factor(m.unit)
  }

  /** An SI value that reads as `m` in `m`'s own unit. */
  predicate Written(x: real, m: Measure) {
    x / Factor(m.unit) == m.value
  }

  /** The design's parameters, one field per key of the flat input mapping. */
  datatype Inputs = Inputs(
    mlaFocalLength: Measure,              // "mla.focal_length"
    mlaPitch: Measure,                    // "mla.pitch"
    mlaExFocalLength: Measure,            // "mla_ex.focal_length"
    fourierLensFocalLength: Measure,      // "fourier_lens.focal_length"
    collimatingLensFocalLength: Measure,  // "collimating_lens.focal_length"
    telescopeMagnification: real,         // "telescope.magnification"
    sourceRadius: Measure,                // "source.radius"
    sourceDivergence: Measure,            // "source.divergence"
    sourceWavelength: Measure,            // "source.wavelength"
    systemMagnification: real             // "system.magnification"
  )

  /** The example design shipped with the program. */
  const Defaults: Inputs := Inputs(
    Measure(4.78, mm), Measure(300.0, um), Measure(6.0, mm),
    Measure(300.0, mm), Measure(60.0, mm), 0.25, Measure(1.0, mm), Measure(100.0, mrad),
    Measure(0.488, um), 116.0)

  /** The inputs as every formula reads them: each dimensioned quantity
      multiplied by its unit's factor (`inputs[key] * inputs[key + ".units"].value`),
      that is, lengths in metres and the divergence in radians. */
  datatype Design = Design(
    mlaFocalLength: real,
    mlaPitch: real,
    mlaExFocalLength: real,
    fourierLensFocalLength: real,
    collimatingLensFocalLength: real,
    telescopeMagnification: real,
    sourceRadius: real,
    sourceDivergence: real,
    sourceWavelength: real,
    systemMagnification: real
  )

  /** The normalisation each formula starts with: a dimensioned quantity,
      converted back into the unit it was written in, gives the written number;
      the two magnifications are ratios and pass unchanged. */
  function Normalise(i: Inputs): (d: Design)
    ensures Written(d.mlaFocalLength, i.mlaFocalLength) && Written(d.mlaPitch, i.mlaPitch)
    ensures Written(d.mlaExFocalLength, i.mlaExFocalLength)
    ensures Written(d.fourierLensFocalLength, i.fourierLensFocalLength)
    ensures Written(d.collimatingLensFocalLength, i.collimatingLensFocalLength)
    ensures Written(d.sourceRadius, i.sourceRadius) && Written(d.sourceDivergence, i.sourceDivergence)
    ensures Written(d.sourceWavelength, i.sourceWavelength)
    ensures d.telescopeMagnification == i.telescopeMagnification
    ensures d.systemMagnification == i.systemMagnification
  {
    Design(SI(i.mlaFocalLength), SI(i.mlaPitch), SI(i.mlaExFocalLength),
           SI(i.fourierLensFocalLength), SI(i.collimatingLensFocalLength), i.telescopeMagnification,
           SI(i.sourceRadius), SI(i.sourceDivergence), SI(i.sourceWavelength), i.systemMagnification)
  }

  /** Reads a dimensioned input: the number under `key` and the unit under
      `unitsKey`. */
  function ReadMeasure(data: map<string, Value<Unit>>, key: string, unitsKey: string): (r: Outcome<Measure, InputError>)
    ensures r.Ok? <==> key in data && data[key].Num? && unitsKey in data && data[unitsKey].Tag?
    ensures r.Ok? ==> r.value == Measure(data[key].x, data[unitsKey].unit)
    ensures r.Err? ==> r.error.key == key || r.error.key == unitsKey
  {
    var v :- ReadNumber(data, key);
    var u :- ReadUnit(data, unitsKey);
    Ok(Measure(v, u))
  }

  /** The keys of the flat input mapping that hold numbers. */
  const NumberKeys: set<string> := {
    "mla.focal_length", "mla.pitch", "mla_ex.focal_length",
    "fourier_lens.focal_length", "collimating_lens.focal_length", "telescope.magnification",
    "source.radius", "source.divergence", "source.wavelength", "system.magnification"
  }

  /** The keys of the flat input mapping that hold units. */
  const UnitKeys: set<string> := {
    "mla.focal_length.units", "mla.pitch.units", "mla_ex.focal_length.units",
    "fourier_lens.focal_length.units", "collimating_lens.focal_length.units",
    "source.radius.units", "source.divergence.units", "source.wavelength.units"
  }

  /** The keys of the flat input mapping that some formula or rule reads. */
  const InputKeys: set<string> := NumberKeys + UnitKeys

  /** Every input key is present and holds the kind of value it is read as. */
  predicate WellKinded(data: map<string, Value<Unit>>) {
    && (forall k :: k in NumberKeys ==> k in data && data[k].Num?)
    && (forall k :: k in UnitKeys ==> k in data && data[k].Tag?)
  }

  /** The typed view of a parsed mapping: every formula's `inputs[...]`
      lookups done once. */
  function ReadInputs(data: map<string, Value<Unit>>): (r: Outcome<Inputs, InputError>)
    ensures r.Ok? <==> WellKinded(data)
    ensures r.Ok? ==> forall k :: k in InputKeys ==> data[k] == ToMap(r.value)[k]
    ensures r.Err? ==> r.error.key in InputKeys
    ensures r.Err? && r.error.MissingInput? ==> r.error.key !in data
  {
    var f :- ReadMeasure(data, "mla.focal_length", "mla.focal_length.units");
    var p :- ReadMeasure(data, "mla.pitch", "mla.pitch.units");
    var fEx :- ReadMeasure(data, "mla_ex.focal_length", "mla_ex.focal_length.units");
    var fFourier :- ReadMeasure(data, "fourier_lens.focal_length", "fourier_lens.focal_length.units");
    var fCollimating :- ReadMeasure(data, "collimating_lens.focal_length", "collimating_lens.focal_length.units");
    var telescope :- ReadNumber(data, "telescope.magnification");
    var radius :- ReadMeasure(data, "source.radius", "source.radius.units");
    var divergence :- ReadMeasure(data, "source.divergence", "source.divergence.units");
    var wavelength :- ReadMeasure(data, "source.wavelength", "source.wavelength.units");
    var system :- ReadNumber(data, "system.magnification");
    Ok(Inputs(f, p, fEx, fFourier, fCollimating, telescope, radius, divergence, wavelength, system))
  }

  /** The flat mapping that holds `i`, in the shape of the `DEFAULTS` dict. */
  function ToMap(i: Inputs): map<string, Value<Unit>>
  {
    map[
      "mla.focal_length" := Num(i.mlaFocalLength.value),
      "mla.focal_length.units" := Tag(i.mlaFocalLength.unit),
      "mla.pitch" := Num(i.mlaPitch.value),
      "mla.pitch.units" := Tag(i.mlaPitch.unit),
      "mla_ex.focal_length" := Num(i.mlaExFocalLength.value),
      "mla_ex.focal_length.units" := Tag(i.mlaExFocalLength.unit),
      "fourier_lens.focal_length" := Num(i.fourierLensFocalLength.value),
      "fourier_lens.focal_length.units" := Tag(i.fourierLensFocalLength.unit),
      "collimating_lens.focal_length" := Num(i.collimatingLensFocalLength.value),
      "collimating_lens.focal_length.units" := Tag(i.collimatingLensFocalLength.unit),
      "telescope.magnification" := Num(i.telescopeMagnification),
      "source.radius" := Num(i.sourceRadius.value),
      "source.radius.units" := Tag(i.sourceRadius.unit),
      "source.divergence" := Num(i.sourceDivergence.value),
      "source.divergence.units" := Tag(i.sourceDivergence.unit),
      "source.wavelength" := Num(i.sourceWavelength.value),
      "source.wavelength.units" := Tag(i.sourceWavelength.unit),
      "system.magnification" := Num(i.systemMagnification)
    ]
  }

  /** The mapping that holds `i` has exactly the keys that are read. */
  lemma ToMapKeys(i: Inputs)
    ensures ToMap(i).Keys == InputKeys
  {
  }

  /** Reading back the mapping that holds `i` gives `i`. */
  lemma ReadToMap(i: Inputs)
    ensures ReadInputs(ToMap(i)) == Ok(i)
  {
    var m := ToMap(i);
    MlaEntries(i);
    ExcitationMlaEntries(i);
    LensEntries(i);
    SourceEntries(i);
    WavelengthEntries(i);
  }

  /** Inputs written as `defaults_to_json` writes them (units by name), then
      parsed and read back, are the inputs written. */
  lemma WrittenInputsReadBack(i: Inputs)
    ensures Resolvable(ToJson(ToMap(i)), FromName)
    ensures ReadInputs(Resolved(ToJson(ToMap(i)), FromName)) == Ok(i)
  {
    UnitsUnderUnitsKeys(i);
    ToJsonRoundTrip(ToMap(i));
    ReadToMap(i);
  }

  /** In the mapping that holds `i`, units sit exactly under the ".units" keys. */
  lemma UnitsUnderUnitsKeys(i: Inputs)
    ensures forall k :: k in ToMap(i) ==> (IsUnitsKey(k) <==> ToMap(i)[k].Tag?)
  {
    var m := ToMap(i);
    forall k | k in m
      ensures IsUnitsKey(k) <==> m[k].Tag?
    {
    }
  }

  /** The entries of `ToMap(i)` that hold `mlaFocalLength` and `mlaPitch`. */
  lemma MlaEntries(i: Inputs)
    ensures var m := ToMap(i);
      && m["mla.focal_length"] == Num(i.mlaFocalLength.value)
      && m["mla.focal_length.units"] == Tag(i.mlaFocalLength.unit)
      && m["mla.pitch"] == Num(i.mlaPitch.value)
      && m["mla.pitch.units"] == Tag(i.mlaPitch.unit)
  {
  }

  /** The entries of `ToMap(i)` that hold `mlaExFocalLength`. */
  lemma ExcitationMlaEntries(i: Inputs)
    ensures var m := ToMap(i);
      && m["mla_ex.focal_length"] == Num(i.mlaExFocalLength.value)
      && m["mla_ex.focal_length.units"] == Tag(i.mlaExFocalLength.unit)
  {
  }

  /** The entries of `ToMap(i)` that hold `fourierLensFocalLength` and `collimatingLensFocalLength`. */
  lemma LensEntries(i: Inputs)
    ensures var m := ToMap(i);
      && m["fourier_lens.focal_length"] == Num(i.fourierLensFocalLength.value)
      && m["fourier_lens.focal_length.units"] == Tag(i.fourierLensFocalLength.unit)
      && m["collimating_lens.focal_length"] == Num(i.collimatingLensFocalLength.value)
      && m["collimating_lens.focal_length.units"] == Tag(i.collimatingLensFocalLength.unit)
  {
  }

  /** The entries of `ToMap(i)` that hold `sourceRadius` and `sourceDivergence`. */
  lemma SourceEntries(i: Inputs)
    ensures var m := ToMap(i);
      && m["source.radius"] == Num(i.sourceRadius.value)
      && m["source.radius.units"] == Tag(i.sourceRadius.unit)
      && m["source.divergence"] == Num(i.sourceDivergence.value)
      && m["source.divergence.units"] == Tag(i.sourceDivergence.unit)
  {
  }

  /** The entries of `ToMap(i)` that hold `sourceWavelength`. */
  lemma WavelengthEntries(i: Inputs)
    ensures var m := ToMap(i);
      && m["source.wavelength"] == Num(i.sourceWavelength.value)
      && m["source.wavelength.units"] == Tag(i.sourceWavelength.unit)
      && m["telescope.magnification"] == Num(i.telescopeMagnification)
      && m["system.magnification"] == Num(i.systemMagnification)
  {
  }

  // ---------------------------------------------------------------------------
  // Design equations. `tan` stands for `np.tan`.

  /** Side of the flat illuminated field at the excitation array:
      S = f_FL p / f, in mm. */
  function FlatFieldSize(d: Design): (r: Result)
    requires d.mlaFocalLength != 0.0
    ensures r.units == Some(mm)
    ensures InSI(r) * d.mlaFocalLength == d.fourierLensFocalLength * d.mlaPitch
  {
    var fFourier := d.fourierLensFocalLength;
    var p := d.mlaPitch;
    var f := d.mlaFocalLength;
    Result(fFourier * p / f / Factor(mm), Some(mm), "Flat field size at excitation MLA")
  }

  /** The flat field seen in the sample: S / M_sys, in um. Since the field at
      the array is given in mm, the number in um is 1000 / M_sys times it. */
  function FlatFieldSizeSamplePlane(d: Design): (r: Result)
    requires d.mlaFocalLength != 0.0 && d.systemMagnification != 0.0
    ensures r.units == Some(um)
    ensures InSI(r) * d.systemMagnification == InSI(FlatFieldSize(d))
    ensures r.value == FlatFieldSize(d).value * 1000.0 / d.systemMagnification
  {
    var fFourier := d.fourierLensFocalLength;
    var p := d.mlaPitch;
    var f := d.mlaFocalLength;
    var mag := d.systemMagnification;
    SamplePlaneScale(fFourier * p / f, mag);
    Result(fFourier * p / f / mag / Factor(um), Some(um), "Flat field size at sample plane")
  }

  /** A length x / M in um is 1000 / M times the same length x in mm. */
  lemma SamplePlaneScale(x: real, mag: real)
    requires mag != 0.0
    ensures x / mag / Factor(um) == x / Factor(mm) * 1000.0 / mag
    ensures x / mag / Factor(um) * Factor(um) * mag == x
  {
  }

  /** Radius of the beam on the integrator array: the source radius grown by
      the divergence over the collimator's focal length,
      R_beam = R_source + f_CL tan(theta), in mm. */
  function BeamRadiusFirstMla(d: Design, tan: real -> real): (r: Result)
    ensures r.units == Some(mm)
    ensures InSI(r) == d.sourceRadius + d.collimatingLensFocalLength * tan(d.sourceDivergence)
  {
    var radius := d.sourceRadius;
    var fCollimating := d.collimatingLensFocalLength;
    var theta := d.sourceDivergence;
    Result((radius + fCollimating * tan(theta)) / Factor(mm), Some(mm), "Beam radius at first integrator MLA")
  }

  /** Spot size in the focal plane of the excitation array: the image of the
      source through both arrays plus the beam's contribution,
      r = f f_ex R_source / (M_tel f_FL f_CL) + f_ex M_tel R_beam / f_FL, in um. */
  function ExcitationSpotSize(d: Design, tan: real -> real): (r: Result)
    requires d.telescopeMagnification != 0.0
    requires d.fourierLensFocalLength != 0.0 && d.collimatingLensFocalLength != 0.0
    ensures r.units == Some(um)
    ensures InSI(r) == SourceImage(d) + BeamImage(d, tan)
  {
    Result((SourceImage(d) + BeamImage(d, tan)) / Factor(um), Some(um), "Spot size in focal plane of excitation MLA")
  }

  /** First term of the spot size: the source imaged onto the excitation
      focal plane, f f_ex R_source / (M_tel f_FL f_CL). */
  function SourceImage(d: Design): (x: real)
    requires d.telescopeMagnification != 0.0
    requires d.fourierLensFocalLength != 0.0 && d.collimatingLensFocalLength != 0.0
    ensures x * (d.telescopeMagnification * d.fourierLensFocalLength * d.collimatingLensFocalLength)
            == d.mlaFocalLength * d.mlaExFocalLength * d.sourceRadius
  {
    SourceImageOf(d.mlaFocalLength, d.mlaExFocalLength, d.telescopeMagnification,
                  d.fourierLensFocalLength, d.collimatingLensFocalLength, d.sourceRadius)
  }

  /** The source term on SI numbers, in the order the program divides. */
  function SourceImageOf(f: real, fEx: real, telescope: real, fFourier: real, fCollimating: real, radius: real): (x: real)
    requires telescope != 0.0 && fFourier != 0.0 && fCollimating != 0.0
    ensures x * (telescope * fFourier * fCollimating) == f * fEx * radius
  {
    var x := f * fEx / telescope / fFourier / fCollimating * radius;
    ClearDenominators(x, f * fEx, radius, telescope, fFourier, fCollimating);
    x
  }

  /** a / b / c / d * e, multiplied by b c d, is a e. */
  lemma ClearDenominators(x: real, a: real, e: real, b: real, c: real, d: real)
    requires b != 0.0 && c != 0.0 && d != 0.0
    requires x == a / b / c / d * e
    ensures x * (b * c * d) == a * e
  {
    assert a / b / c / d == a / (b * c * d);
  }

  /** Second term of the spot size: the beam on the integrator array imaged
      onto the excitation focal plane, f_ex M_tel R_beam / f_FL. */
  function BeamImage(d: Design, tan: real -> real): (x: real)
    requires d.fourierLensFocalLength != 0.0
    ensures x * d.fourierLensFocalLength
            == d.mlaExFocalLength * d.telescopeMagnification * InSI(BeamRadiusFirstMla(d, tan))
  {
    d.mlaExFocalLength * d.telescopeMagnification / d.fourierLensFocalLength * InSI(BeamRadiusFirstMla(d, tan))
  }

  /** The excitation spot seen in the sample: r / M_sys, in um. */
  function ExcitationSpotSizeSamplePlane(d: Design, tan: real -> real): (r: Result)
    requires d.telescopeMagnification != 0.0 && d.systemMagnification != 0.0
    requires d.fourierLensFocalLength != 0.0 && d.collimatingLensFocalLength != 0.0
    ensures r.units == Some(um)
    ensures r.value * d.systemMagnification == ExcitationSpotSize(d, tan).value
  {
    var spot := ExcitationSpotSize(d, tan);
    var spotSI := spot.value * Factor(spot.units.value);
    var mag := d.systemMagnification;
    Result(spotSI / mag / Factor(um), Some(um), "Spot size in sample plane")
  }

  /** How many lenslets of the integrator array the beam covers:
      B = R_beam / p, dimensionless. */
  function Homogeneity(d: Design, tan: real -> real): (r: Result)
    requires d.mlaPitch != 0.0
    ensures r.units == None
    ensures r.value * d.mlaPitch == InSI(BeamRadiusFirstMla(d, tan))
  {
    var beam := BeamRadiusFirstMla(d, tan);
    var beamRadius := beam.value * Factor(beam.units.value);
    var pitch := d.mlaPitch;
    Result(beamRadius / pitch, None, "Homogeneity")
  }

  /** Fresnel number of one lenslet: F = p^2 / (4 f lambda), dimensionless. */
  function FresnelNumber(d: Design): (r: Result)
    requires d.mlaFocalLength != 0.0 && d.sourceWavelength != 0.0
    ensures r.units == None
    ensures r.value * (4.0 * d.mlaFocalLength * d.sourceWavelength) == d.mlaPitch * d.mlaPitch
  {
    var p := d.mlaPitch;
    var f := d.mlaFocalLength;
    var wavelength := d.sourceWavelength;
    FresnelDenominators(p * p, f, wavelength);
    Result(p * p / 4.0 / f / wavelength, None, "Fresnel number")
  }

  lemma FresnelDenominators(a: real, f: real, wavelength: real)
    requires f != 0.0 && wavelength != 0.0
    ensures a / 4.0 / f / wavelength * (4.0 * f * wavelength) == a
  {
    assert a / 4.0 / f / wavelength == a / (4.0 * f * wavelength);
  }

  // ---------------------------------------------------------------------------
  // All results

  /** Every divisor of every formula is non-zero. Python raises
      `ZeroDivisionError` at a zero divisor, except where the dividend is an
      `np.float64` (homogeneity's pitch and the sample-plane spot's system
      magnification), where it gives infinity or NaN; the model excludes
      those designs as well. */
  predicate Computable(d: Design) {
    && d.mlaFocalLength != 0.0
    && d.mlaPitch != 0.0
    && d.fourierLensFocalLength != 0.0
    && d.collimatingLensFocalLength != 0.0
    && d.sourceWavelength != 0.0
    && d.telescopeMagnification != 0.0
    && d.systemMagnification != 0.0
  }

  /** The identifiers of the result set. */
  const ResultKeys: set<string> := {
    "flat_field_size", "flat_field_size_sample_plane", "excitation_spot_size",
    "excitation_spot_size_sample_plane", "beam_radius_mla", "homogeneity", "fresnel_number"
  }

  /** `compute_results`: every formula, keyed by its identifier. */
  function ComputeResults(d: Design, tan: real -> real): (r: map<string, Result>)
    requires Computable(d)
    ensures r.Keys == ResultKeys
    ensures r["beam_radius_mla"] == BeamRadiusFirstMla(d, tan)
  {
    map[
      "flat_field_size" := FlatFieldSize(d),
      "flat_field_size_sample_plane" := FlatFieldSizeSamplePlane(d),
      "excitation_spot_size" := ExcitationSpotSize(d, tan),
      "excitation_spot_size_sample_plane" := ExcitationSpotSizeSamplePlane(d, tan),
      "beam_radius_mla" := BeamRadiusFirstMla(d, tan),
      "homogeneity" := Homogeneity(d, tan),
      "fresnel_number" := FresnelNumber(d)
    ]
  }

  // ---------------------------------------------------------------------------
  // Design rules

  /** A failed design rule, with the value it found and the target it compared
      against. */
  datatype Violation =
    | FresnelNumberBelowTarget(actual: real, target: real)
    | HomogeneityBelowTarget(actual: real, target: real)
    | CrosstalkAboveTarget(actual: real, target: real)

  /** The smallest acceptable Fresnel number and homogeneity. */
  const Target: real := 5.0

  /** The lenslets are in the geometric-optics regime: reports exactly when
      the Fresnel number is below 5, so not at exactly 5. */
  function ValidateFresnelNumber(d: Design, results: map<string, Result>): (v: Option<Violation>)
    requires "fresnel_number" in results
    ensures v.Some? <==> results["fresnel_number"].value < 5.0
    ensures v.Some? ==> v.value == FresnelNumberBelowTarget(results["fresnel_number"].value, 5.0)
  {
    var fresnel := results["fresnel_number"].value;
    if fresnel < Target then Some(FresnelNumberBelowTarget(fresnel, Target)) else None
  }

  /** The beam covers enough lenslets: reports exactly when the homogeneity
      is below 5, so not at exactly 5. */
  function ValidateHomogeneity(d: Design, results: map<string, Result>): (v: Option<Violation>)
    requires "homogeneity" in results
    ensures v.Some? <==> results["homogeneity"].value < 5.0
    ensures v.Some? ==> v.value == HomogeneityBelowTarget(results["homogeneity"].value, 5.0)
  {
    var homogeneity := results["homogeneity"].value;
    if homogeneity < Target then Some(HomogeneityBelowTarget(homogeneity, Target)) else None
  }

  /** The source image behind one lenslet stays within half a pitch: reports
      exactly when f R_source / (M_tel f_CL) exceeds p / 2. Only the inputs
      are read, never the results. */
  function ValidateCrosstalk(d: Design, results: map<string, Result>): (v: Option<Violation>)
    requires d.telescopeMagnification != 0.0 && d.collimatingLensFocalLength != 0.0
    ensures v.Some? <==> CrosstalkSpread(d) > d.mlaPitch / 2.0
    ensures v.Some? ==> v.value == CrosstalkAboveTarget(CrosstalkSpread(d), d.mlaPitch / 2.0)
  {
    var pitch := d.mlaPitch;
    var value := CrosstalkSpread(d);
    var target := pitch / 2.0;
    if value > target then Some(CrosstalkAboveTarget(value, target)) else None
  }

  /** Half-width of the source image behind one lenslet,
      f R_source / (M_tel f_CL). */
  function CrosstalkSpread(d: Design): (x: real)
    requires d.telescopeMagnification != 0.0 && d.collimatingLensFocalLength != 0.0
    ensures x * (d.telescopeMagnification * d.collimatingLensFocalLength) == d.mlaFocalLength * d.sourceRadius
  {
    var f := d.mlaFocalLength;
    var telescope := d.telescopeMagnification;
    var fCollimating := d.collimatingLensFocalLength;
    var radius := d.sourceRadius;
    DivideTwiceTimes(f, radius, telescope, fCollimating);
    f / telescope / fCollimating * radius
  }

  /** a / b / c * e, multiplied by b c, is a e. */
  lemma DivideTwiceTimes(a: real, e: real, b: real, c: real)
    requires b != 0.0 && c != 0.0
    ensures a / b / c * e * (b * c) == a * e
  {
    assert a / b / c == a / (b * c);
  }

  /** The entries of the `validations` list, in their order. */
  datatype Rule = FresnelNumberRule | HomogeneityRule | CrosstalkRule

  const Rules: seq<Rule> := [FresnelNumberRule, HomogeneityRule, CrosstalkRule]

  /** What every rule needs: the result entries it looks up and non-zero
      divisors for the crosstalk estimate. */
  predicate Checkable(d: Design, results: map<string, Result>) {
    && "fresnel_number" in results && "homogeneity" in results
    && d.telescopeMagnification != 0.0 && d.collimatingLensFocalLength != 0.0
  }

  /** `validation(inputs, results)` for one entry of the list. */
  function Check(rule: Rule, d: Design, results: map<string, Result>): Option<Violation>
    requires Checkable(d, results)
  {
    match rule
    case FresnelNumberRule => ValidateFresnelNumber(d, results)
    case HomogeneityRule => ValidateHomogeneity(d, results)
    case CrosstalkRule => ValidateCrosstalk(d, results)
  }

  /** The outcome of every rule, `None` included, in rule order. */
  function Outcomes(d: Design, results: map<string, Result>): (r: seq<Option<Violation>>)
    requires Checkable(d, results)
    ensures r == [ValidateFresnelNumber(d, results), ValidateHomogeneity(d, results),
                  ValidateCrosstalk(d, results)]
  {
    seq(|Rules|, n requires 0 <= n < |Rules| => Check(Rules[n], d, results))
  }

  /** `validate_results`: runs the rules in order, collecting each outcome,
      and returns the violations among them. */
  method ValidateResults(d: Design, results: map<string, Result>) returns (violations: seq<Violation>)
    requires Checkable(d, results)
    ensures violations == Present(Outcomes(d, results))
  {
    var outcomes: seq<Option<Violation>> := [];
    for n := 0 to |Rules|
      invariant outcomes == Outcomes(d, results)[..n]
    {
      outcomes := outcomes + [Check(Rules[n], d, results)];
    }
    assert outcomes == Outcomes(d, results);
    violations := Present(outcomes);
  }
}
