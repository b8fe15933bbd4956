# micro-designer: design equations and design rules, in Dafny

The project models two optical design calculators and the unit system they
share.

- The **diffraction phase microscope (DPM)** has:
  - an objective;
  - a grating in the image plane;
  - a 4f relay of two Fourier lenses, with a pinhole filter in the Fourier plane;
  - a camera.
- The **multifocal Köhler integrator (MFKI)** has two microlens arrays, a
  collimating lens, a telescope and a Fourier lens.

Each design works the same way:

1. It reads a flat, string-keyed parameter mapping. Every key ending in
   `.units` names a unit (`parse_inputs`).
2. Each design formula normalises the dimensioned inputs to SI base units
   (`value * unit.value`), evaluates one closed-form expression and returns a
   `Result`: a value, its display unit (none for dimensionless quantities)
   and a name.
3. `compute_results` collects every formula under its identifier.
4. `validate_results` applies the design rules in a fixed order and keeps
   the ones that are violated.

Modules:

- `Common`: `Option`, `Outcome` (an error-carrying result), `Abs`, and
  `Present`, which keeps the `Some` entries of a list.
- `Parsing`: the `parse_inputs` loop, generic in the unit enumeration, and
  the typed readers of the parsed mapping.
- `Udesigner`: the package-level four-member unit enumeration. `mm` and
  `mrad` share a factor but are not aliases. This module also has `Result`
  and `parse_inputs`.
- `Dpm` and `DpmProperties`: the DPM's own three-member unit enumeration,
  its inputs, 18 formulas plus `lens_na`, `compute_results`, five rules and
  `validate_results`.
- `Mfki` and `MfkiProperties`: the MFKI inputs (in the package unit system),
  7 formulas, `compute_results`, three rules and `validate_results`.

Modelling decisions:

- **Normalising once.** The inputs are a typed record of `Measure`s (a value
  and its unit). `Normalise` multiplies out every unit once and gives a
  `Design` in SI base units, which the formulas read. That is the same
  product every Python formula computes inline. `ReadInputs` turns a parsed
  mapping into the record. A missing key fails with `MissingInput` (Python's
  `KeyError`); a value of the wrong kind fails with `WrongKind`.
- **Arithmetic.** Arithmetic is over the reals. Every division the source
  performs is a precondition that its divisor is non-zero. In `dpm.py` every
  operand is a Python `float`, so a zero divisor raises `ZeroDivisionError`,
  and so it does at all but two divisions of `mfki.py`. Those two divide an
  `np.float64` (a value that has passed through `np.tan`) and give IEEE
  infinity or NaN instead (see `Mfki.Homogeneity` under "Left out").
  `Computable` collects these preconditions for a whole result set.
- **Square root and tangent.** These are parameters, `sqrt` and `tan`.
  - `sqrt` stands for `**(0.5)`. Lemmas that need it to be a
    square root assume `IsSquareRoot(sqrt)`.
  - `tan` stands for `numpy.tan` and is left uninterpreted.
- **Violation messages.** A violation is a tagged value. It carries the two
  numbers the message prints: the limit and the actual value.
- **Rule order.** `ValidateResults` is a method. Like the source, it loops
  over the rules in order and appends each outcome. It is proved to return
  the `Some` entries of `Outcomes`, in rule order.

## Model

| member | source | states |
|---|---|---|
| Udesigner.Factor | src/kmdouglass/udesigner/udesigner.py:5-9 | every unit is a positive SI scale factor of at most 1e-3 |
| Udesigner.FromName | src/kmdouglass/udesigner/udesigner.py:5-9 | `Units[s]` yields a member exactly when `s` is one of the four member names |
| Udesigner.Name | src/kmdouglass/udesigner/udesigner.py:11-12 | `str(u)` is a name that `Units[...]` maps back to `u`, so no two members share a name |
| Udesigner.NameLookup | src/kmdouglass/udesigner/udesigner.py:5-12 | `Units[s]` is `u` exactly when `s` is `str(u)` |
| Udesigner.ConversionRoundTrip | src/kmdouglass/udesigner/udesigner.py:5-9 | normalising to SI and converting back to the display unit undo each other, in both orders |
| Udesigner.NoAliasing | src/kmdouglass/udesigner/udesigner.py:5-9 | `mm` and `mrad` have equal factors but are distinct members, each name resolves to its own member, and there are exactly four members |
| Udesigner.ParseInputs | src/kmdouglass/udesigner/udesigner.py:22-28 | parsing succeeds iff every `.units` value is a member name. On success: the key set is kept, every other entry is unchanged, and each `.units` entry holds the member with that name. On failure: it names a `.units` key whose value is not a member name |
| Udesigner.ToJsonRoundTrip | src/kmdouglass/udesigner/udesigner.py:22-28 | writing units by name and parsing back returns the original mapping |
| Parsing.ParseWith | src/kmdouglass/udesigner/udesigner.py:22-28 | the copy-and-replace loop over any unit enumeration. It succeeds iff every `.units` value resolves. The result is the original with each `.units` value replaced by its unit and the keys unchanged. Some unresolvable entry aborts it, reported with its key and value |
| Parsing.UnitsKeyStem | src/kmdouglass/udesigner/udesigner.py:26 | `key.endswith(".units")` holds exactly when the key is some stem followed by `.units` |
| Parsing.JsonValues | src/kmdouglass/udesigner/dpm.py:560-564 | the written mapping has the same keys and holds no unit values, only names |
| Parsing.JsonRoundTrip | src/kmdouglass/udesigner/udesigner.py:22-28 | when `lookup` inverts `name` and units sit exactly under `.units` keys, names written out parse back to the same mapping |
| Parsing.ReadNumber | src/kmdouglass/udesigner/dpm.py:33-58 | a numeric input is read iff its key is present with a number. Otherwise the error names the key and says whether it was missing |
| Parsing.ReadUnit | src/kmdouglass/udesigner/dpm.py:33-58 | a unit input is read iff its key holds a parsed unit. Otherwise the error names the key and says whether it was missing |
| Dpm.Factor | src/kmdouglass/udesigner/dpm.py:24-27 | each of the three DPM units is a positive factor of at most 1e-3 |
| Dpm.FromName | src/kmdouglass/udesigner/dpm.py:24-27 | `Units[s]` yields a member exactly when `s` is one of the three DPM names; `"mrad"` resolves to nothing |
| Dpm.Name | src/kmdouglass/udesigner/dpm.py:29-30 | `str(u)` is a name that `Units[...]` maps back to `u` |
| Dpm.NameLookup | src/kmdouglass/udesigner/dpm.py:24-30 | `Units[s]` is `u` exactly when `s` is `str(u)` |
| Dpm.ParseInputs | src/kmdouglass/udesigner/dpm.py:86-92 | same contract as the package `parse_inputs`, over the DPM's own enumeration |
| Dpm.ToJsonRoundTrip | src/kmdouglass/udesigner/dpm.py:560-564 | DPM inputs written with unit names parse back to themselves |
| Dpm.UnitsUnderUnitsKeys | src/kmdouglass/udesigner/dpm.py:61-83 | in the flat form of a typed input record, units sit exactly under the `.units` keys |
| Dpm.WrittenInputsReadBack | src/kmdouglass/udesigner/dpm.py:560-564 | inputs written as `defaults_to_json` writes them parse and read back to the same inputs |
| Dpm.SI | src/kmdouglass/udesigner/dpm.py:33-58 | a normalised quantity is zero iff its written value is zero |
| Dpm.Normalise | src/kmdouglass/udesigner/dpm.py:102-431 | every dimensioned input in SI, read back in the unit it was written in, gives the written number; the magnification, aperture, pixel counts and lobe factor pass unchanged |
| Dpm.ReadMeasure | src/kmdouglass/udesigner/dpm.py:33-58 | a dimensioned input reads iff its number and its `.units` key are both present and well typed. An error names one of the two keys |
| Dpm.ReadInputs | src/kmdouglass/udesigner/dpm.py:33-58 | reading succeeds exactly when every number key holds a number and every `.units` key a parsed unit. The record read agrees with the mapping on every input key. An error names an input key, and a missing-key error names a key that is absent |
| Dpm.ToMapKeys | src/kmdouglass/udesigner/dpm.py:61-83 | the flat form of a typed input record has exactly the input keys |
| Dpm.ReadToMap | src/kmdouglass/udesigner/dpm.py:33-83 | reading back the flat form of any typed input record yields that record |
| Dpm.Resolution | src/kmdouglass/udesigner/dpm.py:102-114 | the Abbe limit 1.22 λ / NA in SI, displayed in µm |
| Dpm.ResolutionInMicrometres | src/kmdouglass/udesigner/dpm.py:102-114 | with the wavelength written in µm, the displayed value is 1.22 λ / NA in that same number system |
| Dpm.MinimumResolution | src/kmdouglass/udesigner/dpm.py:117-129 | Λ / (0.28 M_obj) in SI, displayed in µm |
| Dpm.MaximumGratingPeriod | src/kmdouglass/udesigner/dpm.py:132-144 | λ M_obj / (3 NA) in SI, displayed in µm |
| Dpm.MaximumPixelSize | src/kmdouglass/udesigner/dpm.py:147-160 | Λ \|f_2 / f_1\| / 2.67 in SI, displayed in µm, and non-negative for a non-negative grating period |
| Dpm.FourierPlaneSpacing | src/kmdouglass/udesigner/dpm.py:163-181 | f_1 λ / Λ in SI, displayed in mm |
| Dpm.FourierPlaneSizes | src/kmdouglass/udesigner/dpm.py:184-201 | NA f_1 / M_obj in SI, displayed in mm |
| Dpm.Minimum4fMagnification | src/kmdouglass/udesigner/dpm.py:204-219 | the dimensionless 2a (1/Λ + NA / (λ M_obj)); what it means is stated by `DpmProperties.Minimum4fIsSampling` and `DpmProperties.FourFRuleIsNyquist` |
| Dpm.Actual4fMagnification | src/kmdouglass/udesigner/dpm.py:222-235 | the signed relay magnification: M f_1 = -f_2, so \|M\| = \|f_2/f_1\|, and M is negative for two positive lenses |
| Dpm.SystemMagnification | src/kmdouglass/udesigner/dpm.py:238-250 | M_obj f_2 / f_1, positive for positive magnification and focal lengths |
| Dpm.FieldOfViewHorizontal | src/kmdouglass/udesigner/dpm.py:253-267 | m a / (M_obj \|M_4f\|) in SI, displayed in µm |
| Dpm.FieldOfViewVertical | src/kmdouglass/udesigner/dpm.py:270-284 | n a / (M_obj \|M_4f\|) in SI, displayed in µm |
| Dpm.CameraDiagonal | src/kmdouglass/udesigner/dpm.py:287-302 | the squared diagonal is (m a)² + (n a)² (Pythagoras), it is displayed in mm, and it is non-negative for a non-negative pixel size |
| Dpm.MinimumLens1Na | src/kmdouglass/udesigner/dpm.py:305-319 | λ / Λ + NA / M_obj. Times f_1 it is the distance from the axis to the outer edge of the +1 order in the Fourier plane: the Fourier plane spacing plus the spectrum radius |
| Dpm.MinimumLens2Na | src/kmdouglass/udesigner/dpm.py:322-338 | λ / (\|M_4f\| Λ) + 1.22 λ / d |
| Dpm.LensNa | src/kmdouglass/udesigner/dpm.py:341-344 | the NA under the Abbe sine condition: 2 f NA = D |
| Dpm.Lens1Na | src/kmdouglass/udesigner/dpm.py:347-361 | D_1 / (2 f_1), dimensionless |
| Dpm.Lens2Na | src/kmdouglass/udesigner/dpm.py:364-378 | D_2 / (2 f_2), dimensionless |
| Dpm.LensNaSameUnit | src/kmdouglass/udesigner/dpm.py:347-378 | when a lens's focal length and clear aperture share a unit, its NA is the ratio of the written numbers |
| Dpm.MaximumPinholeDiameter | src/kmdouglass/udesigner/dpm.py:381-397 | 2.44 λ f_2 / (γ D), with D the camera diagonal in SI, displayed in µm |
| Dpm.CouplingRatio | src/kmdouglass/udesigner/dpm.py:400-431 | the ratio times the field-of-view diagonal is the resolution in SI, for any `sqrt`. For a true square root, the squared ratio times (FOV_h² + FOV_v²) is the squared resolution |
| Dpm.Dict | src/kmdouglass/udesigner/dpm.py:434-456 | the result dictionary holds each rule's inputs under the rule's identifier |
| Dpm.ComputeResults | src/kmdouglass/udesigner/dpm.py:434-456 | for inputs free of zero divisors, the result set carries every entry the five rules read, with a unit where a rule converts one |
| DpmProperties.DictKeys | src/kmdouglass/udesigner/dpm.py:434-456 | the result dictionary has exactly the 18 identifiers |
| DpmProperties.ResultEntries | src/kmdouglass/udesigner/dpm.py:434-456 | `compute_results` has exactly the 18 identifiers, each holding its formula's result (`4f_magnification` holds the actual relay magnification) |
| Dpm.Validate4fMagnification | src/kmdouglass/udesigner/dpm.py:459-466 | reports iff \|f_2/f_1\| < \|minimum 4f magnification\|, carrying both numbers |
| Dpm.ValidateLens1Na | src/kmdouglass/udesigner/dpm.py:469-476 | reports iff the lens 1 NA in the results is below its minimum, carrying both |
| Dpm.ValidateLens2Na | src/kmdouglass/udesigner/dpm.py:479-486 | reports iff the lens 2 NA in the results is below its minimum, carrying both |
| Dpm.ValidatePinholeDiameter | src/kmdouglass/udesigner/dpm.py:489-497 | reports iff the pinhole exceeds the maximum in SI, carrying both in µm |
| Dpm.ValidatePixelSize | src/kmdouglass/udesigner/dpm.py:500-508 | reports iff the pixel exceeds the maximum in SI, carrying both in µm |
| Dpm.ValidateResults | src/kmdouglass/udesigner/dpm.py:511-526 | the loop returns exactly the violated rules' reports, in rule order |
| Dpm.Outcomes | src/kmdouglass/udesigner/dpm.py:514-524 | the outcome list is the five validators' results in the order of the `validations` list |
| DpmProperties.ViolationListShape | src/kmdouglass/udesigner/dpm.py:511-526 | at most five violations, strictly in rule order, and a report is listed iff its rule produced it |
| DpmProperties.NoViolationsMeansAllPass | src/kmdouglass/udesigner/dpm.py:511-526 | the list is empty iff every one of the five rules passes |
| DpmProperties.Lens1RuleMeaning | src/kmdouglass/udesigner/dpm.py:469-476 | on computed results, the lens 1 rule fires iff D_1/(2 f_1) < λ/Λ + NA/M_obj |
| DpmProperties.Lens1RuleLookup | src/kmdouglass/udesigner/dpm.py:469-476 | on computed results, the lens 1 rule fires iff `lens_1_na` is below `minimum_lens_1_na` |
| DpmProperties.Lens1ClipsOrder | src/kmdouglass/udesigner/dpm.py:305-319 | for a positive f_1, lens 1 is below its minimum NA iff its clear radius D_1/2 stops short of the +1 order's outer edge, so the order is clipped |
| DpmProperties.Minimum4fIsSampling | src/kmdouglass/udesigner/dpm.py:204-219 | the minimum 4f magnification times λ is 2a times the minimum NA of lens 1. So it is 2a times the highest spatial frequency in the intermediate image, the +1 order's outer edge over λ |
| DpmProperties.FourFRuleIsNyquist | src/kmdouglass/udesigner/dpm.py:459-466 | the 4f rule is the Nyquist criterion on the camera: it fires iff 1/a < 2 (1/Λ + NA/(λ M_obj)) / |f_2/f_1|, the sampling rate below twice the highest image frequency |
| DpmProperties.Lens2RuleMeaning | src/kmdouglass/udesigner/dpm.py:479-486 | on computed results, the lens 2 rule fires iff D_2/(2 f_2) < λ/(\|f_2/f_1\| Λ) + 1.22 λ/d |
| DpmProperties.PixelRuleMeaning | src/kmdouglass/udesigner/dpm.py:500-508 | on computed results, the pixel rule fires iff a > Λ \|f_2/f_1\| / 2.67 |
| DpmProperties.PinholeRuleMeaning | src/kmdouglass/udesigner/dpm.py:489-497 | on computed results, the pinhole rule fires iff d > 2.44 λ f_2 / (D γ) |
| DpmProperties.FieldOfViewAspect | src/kmdouglass/udesigner/dpm.py:253-284 | the two fields of view are in the ratio of the pixel counts |
| DpmProperties.LensNaScaleFree | src/kmdouglass/udesigner/dpm.py:341-344 | scaling focal length and clear aperture alike leaves the NA unchanged |
| DpmProperties.InUnit | src/kmdouglass/udesigner/dpm.py:24-27 | re-expressing a quantity in another unit keeps its SI size |
| DpmProperties.UnitsDoNotMatter | src/kmdouglass/udesigner/dpm.py:434-526 | inputs describing the same physical design in any units normalise alike and give the same results and rule outcomes |
| DpmProperties.LensNaUnitFree | src/kmdouglass/udesigner/dpm.py:347-361 | lens 1's NA is unchanged when its focal length and clear aperture are written in other units |
| DpmProperties.DefaultDesignIsNormalised | src/kmdouglass/udesigner/dpm.py:61-83 | the example inputs normalise to the stated SI design |
| DpmProperties.DefaultResolution | src/kmdouglass/udesigner/dpm.py:102-114 | the example resolves 1.952 µm |
| DpmProperties.DefaultLens1Na | src/kmdouglass/udesigner/dpm.py:305-361 | the example's lens 1 NA is 0.3048 against a minimum of 0.212 |
| DpmProperties.DefaultCameraDiagonal | src/kmdouglass/udesigner/dpm.py:287-302 | the example's camera diagonal lies in (0, 3.77 mm] |
| DpmProperties.DefaultsComputable | src/kmdouglass/udesigner/dpm.py:61-83 | the example has no zero divisor |
| DpmProperties.DefaultRelayAndLens1 | src/kmdouglass/udesigner/dpm.py:459-476 | the example passes the 4f magnification and lens 1 rules |
| DpmProperties.DefaultLens2 | src/kmdouglass/udesigner/dpm.py:479-486 | the example passes the lens 2 rule |
| DpmProperties.DefaultPinhole | src/kmdouglass/udesigner/dpm.py:489-497 | the example passes the pinhole rule |
| DpmProperties.DefaultPixel | src/kmdouglass/udesigner/dpm.py:500-508 | the example's 5.2 µm pixel exceeds the maximum 40/8.01 µm |
| DpmProperties.DefaultViolations | src/kmdouglass/udesigner/dpm.py:511-526 | the example's violation list is exactly the pixel-size report |
| Mfki.SI | src/kmdouglass/udesigner/mfki.py:19-43 | a normalised quantity is zero iff its written value is zero |
| Mfki.Normalise | src/kmdouglass/udesigner/mfki.py:70-234 | every dimensioned input in SI (lengths in metres, the divergence in radians), read back in its written unit, gives the written number; the two magnifications pass unchanged |
| Mfki.ReadMeasure | src/kmdouglass/udesigner/mfki.py:19-43 | a dimensioned input reads iff its number and its `.units` key are present and well typed. An error names one of the two keys |
| Mfki.ReadInputs | src/kmdouglass/udesigner/mfki.py:19-43 | reading succeeds exactly when every number key that a formula or rule reads holds a number and every such `.units` key a parsed unit. The record read agrees with the mapping on those keys. An error names one of them, and a missing-key error names a key that is absent |
| Mfki.ToMapKeys | src/kmdouglass/udesigner/mfki.py:46-67 | the flat form of a typed input record has exactly the input keys |
| Mfki.ReadToMap | src/kmdouglass/udesigner/mfki.py:19-67 | reading back the flat form of any typed input record yields that record |
| Mfki.UnitsUnderUnitsKeys | src/kmdouglass/udesigner/mfki.py:46-67 | in the flat form of a typed input record, units sit exactly under the `.units` keys |
| Mfki.WrittenInputsReadBack | src/kmdouglass/udesigner/mfki.py:253-257 | inputs written as `defaults_to_json` writes them parse and read back to the same inputs |
| Mfki.FlatFieldSize | src/kmdouglass/udesigner/mfki.py:70-83 | the flat-field width times f_MLA equals f_F p, displayed in mm |
| Mfki.FlatFieldSizeSamplePlane | src/kmdouglass/udesigner/mfki.py:86-101 | the flat field divided by the system magnification, and the mm value ×1000 / M_sys in µm |
| Mfki.BeamRadiusFirstMla | src/kmdouglass/udesigner/mfki.py:104-118 | R_source + f_CL tan(θ) in SI, displayed in mm |
| Mfki.SourceImage | src/kmdouglass/udesigner/mfki.py:121-140 | the source image term times M_tel f_F f_CL equals f f_ex R_source |
| Mfki.BeamImage | src/kmdouglass/udesigner/mfki.py:121-140 | the beam term times f_F equals f_ex M_tel times the beam radius |
| Mfki.ExcitationSpotSize | src/kmdouglass/udesigner/mfki.py:121-140 | the spot is the sum of the source and beam images, displayed in µm |
| Mfki.ExcitationSpotSizeSamplePlane | src/kmdouglass/udesigner/mfki.py:143-157 | the spot divided by the system magnification, in µm |
| Mfki.Homogeneity | src/kmdouglass/udesigner/mfki.py:160-172 | the homogeneity times the pitch equals the beam radius at the first MLA |
| Mfki.FresnelNumber | src/kmdouglass/udesigner/mfki.py:175-188 | F · 4 f λ = p² |
| Mfki.ComputeResults | src/kmdouglass/udesigner/mfki.py:191-202 | exactly the seven identifiers, and the beam radius entry is the beam radius |
| MfkiProperties.ResultEntries | src/kmdouglass/udesigner/mfki.py:191-202 | every other identifier holds its formula's result |
| Mfki.ValidateFresnelNumber | src/kmdouglass/udesigner/mfki.py:205-211 | reports iff the Fresnel number is below 5, carrying it and 5 |
| Mfki.ValidateHomogeneity | src/kmdouglass/udesigner/mfki.py:214-220 | reports iff the homogeneity is below 5, carrying it and 5 |
| Mfki.CrosstalkSpread | src/kmdouglass/udesigner/mfki.py:222-234 | the spread times M_tel f_CL equals f R_source |
| Mfki.ValidateCrosstalk | src/kmdouglass/udesigner/mfki.py:222-234 | reports iff the spread exceeds half the pitch, carrying both |
| Mfki.ValidateResults | src/kmdouglass/udesigner/mfki.py:237-250 | the loop returns exactly the violated rules' reports, in rule order |
| Mfki.Outcomes | src/kmdouglass/udesigner/mfki.py:240-248 | the outcome list is the three validators' results in the order of the `validations` list |
| MfkiProperties.ViolationListShape | src/kmdouglass/udesigner/mfki.py:237-250 | at most three violations, strictly in rule order, and a report is listed iff its rule produced it |
| MfkiProperties.NoViolationsMeansAllPass | src/kmdouglass/udesigner/mfki.py:237-250 | the list is empty iff all three rules pass |
| MfkiProperties.FresnelRuleMeaning | src/kmdouglass/udesigner/mfki.py:205-211 | for positive f and λ, the rule fires on computed results iff p² < 20 f λ |
| MfkiProperties.FresnelBelowTarget | src/kmdouglass/udesigner/mfki.py:175-188 | for positive f and λ, F < 5 iff p² < 20 f λ |
| MfkiProperties.HomogeneityRuleMeaning | src/kmdouglass/udesigner/mfki.py:214-220 | for a positive pitch, the rule fires on computed results iff R_source + f_CL tan(θ) < 5p |
| MfkiProperties.CrosstalkRuleMeaning | src/kmdouglass/udesigner/mfki.py:222-234 | for positive M_tel and f_CL, the rule fires iff 2 f R_source > p M_tel f_CL |
| MfkiProperties.ScaleLengths | src/kmdouglass/udesigner/mfki.py:19-43 | a change of length unit keeps the divergence angle and both magnifications |
| MfkiProperties.FresnelScaleFree | src/kmdouglass/udesigner/mfki.py:175-188 | the Fresnel number does not change when every length is scaled by the same factor |
| MfkiProperties.HomogeneityScaleFree | src/kmdouglass/udesigner/mfki.py:160-172 | the homogeneity does not change when every length is scaled by the same factor |
| MfkiProperties.CrosstalkScaleFree | src/kmdouglass/udesigner/mfki.py:222-234 | the crosstalk verdict does not change when every length is scaled by the same positive factor |
| MfkiProperties.InUnit | src/kmdouglass/udesigner/udesigner.py:5-9 | re-expressing a quantity in another unit keeps its SI size |
| MfkiProperties.UnitsDoNotMatter | src/kmdouglass/udesigner/mfki.py:191-250 | inputs describing the same physical design in any units normalise alike and give the same results and rule outcomes |
| MfkiProperties.FresnelUnitFree | src/kmdouglass/udesigner/mfki.py:175-188 | the Fresnel number is unchanged when pitch, focal length and wavelength are written in other units |
| MfkiProperties.DefaultDesignIsNormalised | src/kmdouglass/udesigner/mfki.py:46-67 | the example inputs normalise to the stated SI design, the 100 mrad divergence becoming 0.1 rad |
| MfkiProperties.DefaultFlatField | src/kmdouglass/udesigner/mfki.py:70-83 | the example's flat field is 90/4.78 mm |
| MfkiProperties.DefaultFresnelNumber | src/kmdouglass/udesigner/mfki.py:175-211 | the example's Fresnel number is 9000000/933056 (about 9.65), and the rule passes |
| MfkiProperties.DefaultHomogeneity | src/kmdouglass/udesigner/mfki.py:160-220 | if tan(0.1) ≥ 0.1, the example's homogeneity is at least 70/3 and the rule passes |
| MfkiProperties.DefaultCrosstalk | src/kmdouglass/udesigner/mfki.py:222-234 | the example's spread 4.78/15 mm exceeds 0.15 mm and is reported |
| MfkiProperties.DefaultViolations | src/kmdouglass/udesigner/mfki.py:237-250 | if tan(0.1) ≥ 0.1, the example's violation list is exactly the crosstalk report |
| Common.Abs | src/kmdouglass/udesigner/dpm.py:459-466 | `abs`: non-negative and equal to the argument or its negation |
| Common.Present | src/kmdouglass/udesigner/dpm.py:526 | `[v for v in violations if v is not None]`: never longer than its input; `PresentMembership`, `PresentEmpty` and `PresentRanked` give its meaning |
| Common.PresentAppend | src/kmdouglass/udesigner/dpm.py:520-526 | filtering out `None` distributes over concatenation |
| Common.PresentMembership | src/kmdouglass/udesigner/dpm.py:526 | a value survives the filter iff it was reported |
| Common.PresentEmpty | src/kmdouglass/udesigner/dpm.py:526 | the filtered list is empty iff every entry was `None` |
| Common.PresentRanked | src/kmdouglass/udesigner/dpm.py:526 | the filter keeps the relative order of the entries it keeps |

## Left out

- HTML rendering (jinja templates) and `plot_fourier_plane` (matplotlib) are left out; they are presentation only.
- `main` and `defaults_to_json` read and write files, which is left out. The values `defaults_to_json` writes (units as names) are modelled by `JsonValues`, and reading them back by the JSON round-trip lemmas.
- The LaTeX `equation` string of every `Result` is not modelled, because it is display text only. The `name` is kept.
- Violation message text is left out. Each violation is a tagged value carrying the two numbers its message prints.
- IEEE double rounding is not modelled: all arithmetic is exact real arithmetic.
- Integer inputs (pixel counts) are modelled as reals.
- `**(0.5)` is a parameter `sqrt`. `numpy.tan` is a parameter `tan`. Neither is computed.
- MfkiProperties.DefaultHomogeneity: this lemma assumes `tan(0.1) >= 0.1` rather than computing the tangent.
- MfkiProperties.DefaultViolations: this lemma also assumes `tan(0.1) >= 0.1`, for the same reason.
- Mfki.ReadInputs: the program declares `mla_ex.pitch` (with its `.units` key) among the inputs and in `DEFAULTS`, but no formula or rule reads it. The typed record leaves the pair out, so a file without it is read like one with it, as the program runs either way.
- Parsing.ParseWith: the source visits keys in dict insertion order, so the first bad `.units` key is reported. The model picks an arbitrary bad key, so it states only that the reported key is one that fails.
- Dpm.ComputeResults: states only that the result set carries every entry a rule reads. `DpmProperties.ResultEntries` gives all 18 entries.
- The homogeneity rule's message says the value "should be less than or equal to" 5, but the code reports when the value is below 5. The model follows the code.
- A formula called on inputs with a zero divisor is excluded by its preconditions. The source raises `ZeroDivisionError` there, except at the two `np.float64` divisions of the next line.
- Mfki.Homogeneity: `R_beam` is an `np.float64` (it passes through `np.tan` at mfki.py:111), so `R_beam / pitch` (mfki.py:165) with a zero `mla.pitch` gives IEEE infinity or NaN with a warning instead of raising. `compute_results` and `validate_results` then still run, and the homogeneity rule does not fire on infinity. The model requires a non-zero pitch here and in `Mfki.Computable`, so it says nothing about such a design. The same holds for `Mfki.ExcitationSpotSizeSamplePlane`, whose `r_sample / mag_system` (mfki.py:150) is an `np.float64` division; in `compute_results` a zero `system.magnification` still raises first, in `flat_field_size_sample_plane`.
