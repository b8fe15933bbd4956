/** Properties of the multifocal Köhler integrator design: what each design
    rule means in terms of the physical inputs, the independence of the
    dimensionless results from the unit of length, the shape of the
    violation list, and the example design's outcome. */
module MfkiProperties {
  import opened Common
  import opened Udesigner
  import opened Mfki

  /** Every entry of the result set is its formula. */
  lemma ResultEntries(d: Design, tan: real -> real)
    requires Computable(d)
    ensures var r := ComputeResults(d, tan);
      && r["flat_field_size"] == FlatFieldSize(d)
      && r["flat_field_size_sample_plane"] == FlatFieldSizeSamplePlane(d)
      && r["excitation_spot_size"] == ExcitationSpotSize(d, tan)
      && r["excitation_spot_size_sample_plane"] == ExcitationSpotSizeSamplePlane(d, tan)
      && r["homogeneity"] == Homogeneity(d, tan)
      && r["fresnel_number"] == FresnelNumber(d)
  {
  }

  // ---------------------------------------------------------------------------
  // The design rules, read in the inputs

  /** The Fresnel number rule, for a positive focal length and wavelength:
      it reports exactly when p^2 < 20 f lambda. */
  lemma FresnelRuleMeaning(d: Design, tan: real -> real)
    requires Computable(d)
    requires 0.0 < d.mlaFocalLength && 0.0 < d.sourceWavelength
    ensures ValidateFresnelNumber(d, ComputeResults(d, tan)).Some? <==>
              d.mlaPitch * d.mlaPitch < 20.0 * d.mlaFocalLength * d.sourceWavelength
  {
    assert ComputeResults(d, tan)["fresnel_number"] == FresnelNumber(d);
    FresnelBelowTarget(d);
  }

  /** F < 5 exactly when p^2 < 20 f lambda, for F p^2 / (4 f lambda). */
  lemma FresnelBelowTarget(d: Design)
    requires 0.0 < d.mlaFocalLength && 0.0 < d.sourceWavelength
    ensures FresnelNumber(d).value < 5.0 <==>
              d.mlaPitch * d.mlaPitch < 20.0 * d.mlaFocalLength * d.sourceWavelength
  {
    var scale := 4.0 * d.mlaFocalLength * d.sourceWavelength;
    var x := FresnelNumber(d).value;
    assert 0.0 < scale;
    BelowTimes(x, 5.0, scale);
  }

  /** Multiplying by a positive number keeps a strict comparison. */
  lemma BelowTimes(x: real, y: real, c: real)
    requires 0.0 < c
    ensures x < y <==> x * c < y * c
  {
    if x < y {
      assert (y - x) * c > 0.0;
    }
    if x * c < y * c {
      assert (y - x) * c > 0.0;
    }
  }

  /** The homogeneity rule, for a positive pitch: it reports exactly when the
      beam radius R_source + f_CL tan(theta) is below five pitches. */
  lemma HomogeneityRuleMeaning(d: Design, tan: real -> real)
    requires Computable(d)
    requires 0.0 < d.mlaPitch
    ensures ValidateHomogeneity(d, ComputeResults(d, tan)).Some? <==>
              d.sourceRadius + d.collimatingLensFocalLength * tan(d.sourceDivergence) < 5.0 * d.mlaPitch
  {
    assert ComputeResults(d, tan)["homogeneity"] == Homogeneity(d, tan);
    BelowTimes(Homogeneity(d, tan).value, 5.0, d.mlaPitch);
  }

  /** The crosstalk rule, for a positive telescope magnification and
      collimator focal length: it reports exactly when
      2 f R_source > p M_tel f_CL. */
  lemma CrosstalkRuleMeaning(d: Design, results: map<string, Result>)
    requires 0.0 < d.telescopeMagnification && 0.0 < d.collimatingLensFocalLength
    ensures ValidateCrosstalk(d, results).Some? <==>
              2.0 * d.mlaFocalLength * d.sourceRadius > d.mlaPitch * d.telescopeMagnification * d.collimatingLensFocalLength
  {
    var c := d.telescopeMagnification * d.collimatingLensFocalLength;
    var spread := CrosstalkSpread(d);
    assert 0.0 < c;
    BelowTimes(d.mlaPitch / 2.0, spread, c);
    assert d.mlaPitch / 2.0 * c * 2.0 == d.mlaPitch * c;
  }

  // ---------------------------------------------------------------------------
  // Independence from the unit of length

  /** The same design with every length multiplied by `k`: what expressing
      all lengths in another unit does. The divergence is an angle and the
      magnifications are ratios, so they stay. */
  function ScaleLengths(d: Design, k: real): (s: Design)
    ensures s.sourceDivergence == d.sourceDivergence
    ensures s.telescopeMagnification == d.telescopeMagnification
    ensures s.systemMagnification == d.systemMagnification
  {
    Design(k * d.mlaFocalLength, k * d.mlaPitch, k * d.mlaExFocalLength,
           k * d.fourierLensFocalLength, k * d.collimatingLensFocalLength, d.telescopeMagnification,
           k * d.sourceRadius, d.sourceDivergence, k * d.sourceWavelength, d.systemMagnification)
  }

  /** The Fresnel number is dimensionless: rescaling every length leaves it
      unchanged. */
  lemma FresnelScaleFree(d: Design, k: real)
    requires d.mlaFocalLength != 0.0 && d.sourceWavelength != 0.0 && k != 0.0
    ensures FresnelNumber(ScaleLengths(d, k)).value == FresnelNumber(d).value
  {
    var s := ScaleLengths(d, k);
    NonZeroProduct(k, d.mlaFocalLength);
    NonZeroProduct(k, d.sourceWavelength);
    ScaledFresnel(FresnelNumber(d).value, FresnelNumber(s).value, d.mlaFocalLength, d.sourceWavelength,
                  d.mlaPitch, k, s.mlaFocalLength, s.sourceWavelength, s.mlaPitch);
  }

  /** p^2 / (4 f lambda) on numbers: the quotient y for lengths k f, k lambda
      and k p equals the quotient x for f, lambda and p. */
  lemma ScaledFresnel(x: real, y: real, f: real, wavelength: real, p: real, k: real,
                      kf: real, kWavelength: real, kp: real)
    requires f != 0.0 && wavelength != 0.0 && k != 0.0
    requires kf == k * f && kWavelength == k * wavelength && kp == k * p
    requires x * (4.0 * f * wavelength) == p * p
    requires y * (4.0 * kf * kWavelength) == kp * kp
    ensures y == x
  {
    ScaledProduct(f, wavelength, k);
    ScaledProduct(p, p, k);
    var b := 4.0 * f * wavelength;
    assert 4.0 * kf * kWavelength == b * k * k;
    assert y * b * k * k == x * b * k * k;
    CancelFactor(y * b * k, x * b * k, k);
    CancelFactor(y * b, x * b, k);
    CancelFactor(y, x, b);
  }

  /** A product of non-zero numbers is non-zero. */
  lemma NonZeroProduct(a: real, b: real)
    requires a != 0.0 && b != 0.0
    ensures a * b != 0.0
  {
  }

  /** A product of positive numbers is positive. */
  lemma PositiveProduct(a: real, b: real)
    requires 0.0 < a && 0.0 < b
    ensures 0.0 < a * b
  {
  }

  /** Two numbers with equal products by a non-zero factor are equal. */
  lemma CancelFactor(x: real, y: real, c: real)
    requires c != 0.0 && x * c == y * c
    ensures x == y
  {
    assert (x - y) * c == 0.0;
  }

  /** The homogeneity is dimensionless: rescaling every length leaves it
      unchanged. */
  lemma HomogeneityScaleFree(d: Design, tan: real -> real, k: real)
    requires d.mlaPitch != 0.0 && k != 0.0
    ensures Homogeneity(ScaleLengths(d, k), tan).value == Homogeneity(d, tan).value
  {
    var s := ScaleLengths(d, k);
    var x := Homogeneity(d, tan).value;
    var y := Homogeneity(s, tan).value;
    assert InSI(BeamRadiusFirstMla(s, tan)) == k * InSI(BeamRadiusFirstMla(d, tan));
    assert y * (k * d.mlaPitch) == x * (k * d.mlaPitch);
    CancelFactor(y, x, k * d.mlaPitch);
  }

  /** The crosstalk rule compares two lengths, so rescaling every length by a
      positive factor does not change whether it reports. */
  lemma CrosstalkScaleFree(d: Design, results: map<string, Result>, k: real)
    requires 0.0 < d.telescopeMagnification && 0.0 < d.collimatingLensFocalLength && 0.0 < k
    ensures ValidateCrosstalk(ScaleLengths(d, k), results).Some? <==> ValidateCrosstalk(d, results).Some?
  {
    var s := ScaleLengths(d, k);
    PositiveProduct(k, d.collimatingLensFocalLength);
    CrosstalkRuleMeaning(d, results);
    CrosstalkRuleMeaning(s, results);
    ScaledCrosstalk(d.mlaFocalLength, d.sourceRadius, d.mlaPitch, d.telescopeMagnification,
                    d.collimatingLensFocalLength, k, s.mlaFocalLength, s.sourceRadius, s.mlaPitch,
                    s.collimatingLensFocalLength);
  }

  /** 2 f R > p M f_CL on numbers: the comparison for lengths k f, k R, k p
      and k f_CL, k > 0, is the comparison for f, R, p and f_CL. */
  lemma ScaledCrosstalk(f: real, radius: real, p: real, telescope: real, fCollimating: real, k: real,
                        kf: real, kRadius: real, kp: real, kfCollimating: real)
    requires 0.0 < k
    requires kf == k * f && kRadius == k * radius && kp == k * p && kfCollimating == k * fCollimating
    ensures 2.0 * kf * kRadius > kp * telescope * kfCollimating <==>
            2.0 * f * radius > p * telescope * fCollimating
  {
    ScaledProduct(2.0 * f, radius, k);
    ScaledProduct(p * telescope, fCollimating, k);
    var lhs, rhs := 2.0 * f * radius, p * telescope * fCollimating;
    assert 2.0 * kf * kRadius == lhs * k * k;
    assert kp * telescope * kfCollimating == rhs * k * k;
    BelowTimes(rhs, lhs, k);
    BelowTimes(rhs * k, lhs * k, k);
  }

  /** (k a)(k b) == (a b) k k */
  lemma ScaledProduct(a: real, b: real, k: real)
    ensures (k * a) * (k * b) == (a * b) * k * k
  {
  }

  /** A dimensioned input written in another unit: the same physical size. */
  function InUnit(m: Measure, u: Unit): (r: Measure)
    ensures r.unit == u && SI(r) == SI(m)
  {
    Measure(SI(m) / Factor(u), u)
  }

  /** Two sets of inputs that describe the same physical design, whatever
      units each dimensioned quantity is written in. */
  predicate SameQuantities(i: Inputs, j: Inputs) {
    && SI(i.mlaFocalLength) == SI(j.mlaFocalLength)
    && SI(i.mlaPitch) == SI(j.mlaPitch)
    && SI(i.mlaExFocalLength) == SI(j.mlaExFocalLength)
    && SI(i.fourierLensFocalLength) == SI(j.fourierLensFocalLength)
    && SI(i.collimatingLensFocalLength) == SI(j.collimatingLensFocalLength)
    && i.telescopeMagnification == j.telescopeMagnification
    && SI(i.sourceRadius) == SI(j.sourceRadius)
    && SI(i.sourceDivergence) == SI(j.sourceDivergence)
    && SI(i.sourceWavelength) == SI(j.sourceWavelength)
    && i.systemMagnification == j.systemMagnification
  }

  /** Every result and every rule's verdict depends only on the physical
      quantities, not on the units the inputs are written in. */
  lemma UnitsDoNotMatter(i: Inputs, j: Inputs, tan: real -> real)
    requires SameQuantities(i, j)
    ensures Normalise(i) == Normalise(j)
    ensures Computable(Normalise(i)) ==>
              && ComputeResults(Normalise(i), tan) == ComputeResults(Normalise(j), tan)
              && Outcomes(Normalise(i), ComputeResults(Normalise(i), tan)) ==
                 Outcomes(Normalise(j), ComputeResults(Normalise(j), tan))
  {
  }

  /** The Fresnel number does not change when the pitch, the focal length
      and the wavelength are written in other units. */
  lemma FresnelUnitFree(i: Inputs, pitchUnit: Unit, focalUnit: Unit, wavelengthUnit: Unit)
    requires SI(i.mlaFocalLength) != 0.0 && SI(i.sourceWavelength) != 0.0
    ensures var j := i.(mlaPitch := InUnit(i.mlaPitch, pitchUnit),
                        mlaFocalLength := InUnit(i.mlaFocalLength, focalUnit),
                        sourceWavelength := InUnit(i.sourceWavelength, wavelengthUnit));
      FresnelNumber(Normalise(j)) == FresnelNumber(Normalise(i))
  {
    var j := i.(mlaPitch := InUnit(i.mlaPitch, pitchUnit),
                mlaFocalLength := InUnit(i.mlaFocalLength, focalUnit),
                sourceWavelength := InUnit(i.sourceWavelength, wavelengthUnit));
    assert SameQuantities(i, j);
  }

  // ---------------------------------------------------------------------------
  // The violation list

  /** The position of a violation's rule in the `validations` list. */
  function RuleIndex(v: Violation): int {
    match v
    case FresnelNumberBelowTarget(_, _) => 0
    case HomogeneityBelowTarget(_, _) => 1
    case CrosstalkAboveTarget(_, _) => 2
  }

  /** The violation list holds at most one violation per rule, three at most,
      in the fixed rule order Fresnel number, homogeneity, crosstalk; and each
      rule's violation is in it exactly when that rule reports. */
  lemma ViolationListShape(d: Design, results: map<string, Result>)
    requires Checkable(d, results)
    ensures var vs := Present(Outcomes(d, results));
      && |vs| <= 3
      && (forall a, b :: 0 <= a < b < |vs| ==> RuleIndex(vs[a]) < RuleIndex(vs[b]))
      && (forall v :: v in vs <==> Some(v) in Outcomes(d, results))
  {
    var outcomes := Outcomes(d, results);
    forall n, m | 0 <= n < m < |outcomes| && outcomes[n].Some? && outcomes[m].Some?
      ensures RuleIndex(outcomes[n].value) < RuleIndex(outcomes[m].value)
    {
      assert RuleIndex(outcomes[n].value) == n && RuleIndex(outcomes[m].value) == m;
    }
    PresentRanked(outcomes, RuleIndex);
    forall v ensures v in Present(outcomes) <==> Some(v) in outcomes {
      PresentMembership(outcomes, v);
    }
  }

  /** A design passes every rule exactly when every rule's outcome is `None`. */
  lemma NoViolationsMeansAllPass(d: Design, results: map<string, Result>)
    requires Checkable(d, results)
    ensures Present(Outcomes(d, results)) == [] <==>
              && ValidateFresnelNumber(d, results).None?
              && ValidateHomogeneity(d, results).None?
              && ValidateCrosstalk(d, results).None?
  {
    var outcomes := Outcomes(d, results);
    PresentEmpty(outcomes);
    if outcomes[0].None? && outcomes[1].None? && outcomes[2].None? {
      forall n | 0 <= n < |outcomes| ensures outcomes[n].None? {
        assert n == 0 || n == 1 || n == 2;
      }
    }
  }

  // ---------------------------------------------------------------------------
  // The example design

  /** The example design as the formulas read it, in SI base units. */
  const DefaultDesign: Design :=
    Design(0.00478, 0.0003, 0.006, 0.3, 0.06, 0.25, 0.001, 0.1, 0.000000488, 116.0)

  /** `DefaultDesign` is what normalising the shipped defaults gives. */
  lemma DefaultDesignIsNormalised()
    ensures Normalise(Defaults) == DefaultDesign
  {
    assert SI(Defaults.mlaFocalLength) == 0.00478 && SI(Defaults.mlaPitch) == 0.0003;
    assert SI(Defaults.mlaExFocalLength) == 0.006 && SI(Defaults.fourierLensFocalLength) == 0.3;
    assert SI(Defaults.collimatingLensFocalLength) == 0.06 && SI(Defaults.sourceRadius) == 0.001;
    assert SI(Defaults.sourceDivergence) == 0.1 && SI(Defaults.sourceWavelength) == 0.000000488;
  }

  /** A 300 um pitch behind a 300 mm Fourier lens and 4.78 mm lenslets gives a
      flat field of 90 / 4.78 (about 18.8) mm. */
  lemma DefaultFlatField()
    ensures FlatFieldSize(DefaultDesign).value == 90.0 / 4.78
  {
  }

  /** The example's Fresnel number is 0.09 / 0.00933056 (about 9.65), so the
      Fresnel number rule passes. */
  lemma DefaultFresnelNumber(tan: real -> real)
    ensures FresnelNumber(DefaultDesign).value == 9000000.0 / 933056.0
    ensures ValidateFresnelNumber(DefaultDesign, ComputeResults(DefaultDesign, tan)) == None
  {
    assert ComputeResults(DefaultDesign, tan)["fresnel_number"] == FresnelNumber(DefaultDesign);
  }

  /** With a divergence of 100 mrad the beam on the array is wider than
      1 mm + 60 mm * 0.1, some 23 pitches, as long as tan(0.1) >= 0.1 (which
      holds for the real tangent), so the homogeneity rule passes. */
  lemma DefaultHomogeneity(tan: real -> real)
    requires 0.1 <= tan(0.1)
    ensures 70.0 / 3.0 <= Homogeneity(DefaultDesign, tan).value
    ensures ValidateHomogeneity(DefaultDesign, ComputeResults(DefaultDesign, tan)) == None
  {
    var d := DefaultDesign;
    var x := Homogeneity(d, tan).value;
    assert x * 0.0003 == 0.001 + 0.06 * tan(0.1);
    assert 0.007 <= x * 0.0003;
    assert ComputeResults(d, tan)["homogeneity"] == Homogeneity(d, tan);
  }

  /** The source image behind one lenslet, 4.78 mm * 1 mm / (0.25 * 60 mm),
      is about 0.319 mm, more than half the 0.3 mm pitch. */
  lemma DefaultCrosstalk(results: map<string, Result>)
    ensures ValidateCrosstalk(DefaultDesign, results) == Some(CrosstalkAboveTarget(0.00478 / 15.0, 0.00015))
  {
    assert CrosstalkSpread(DefaultDesign) * 0.015 == 0.00000478;
  }

  /** The example design violates exactly one rule, the crosstalk rule. */
  lemma DefaultViolations(tan: real -> real)
    requires 0.1 <= tan(0.1)
    ensures Present(Outcomes(DefaultDesign, ComputeResults(DefaultDesign, tan))) ==
              [CrosstalkAboveTarget(0.00478 / 15.0, 0.00015)]
  {
    var d := DefaultDesign;
    var results := ComputeResults(d, tan);
    DefaultFresnelNumber(tan);
    DefaultHomogeneity(tan);
    DefaultCrosstalk(results);
    var outcomes := Outcomes(d, results);
    var crosstalk := CrosstalkAboveTarget(0.00478 / 15.0, 0.00015);
    assert outcomes == [None, None, Some(crosstalk)];
    assert Present(outcomes[2..]) == [crosstalk];
    assert Present(outcomes[1..]) == [crosstalk];
  }
}
