/** Properties of the diffraction phase microscope design: what the result
    set and the violation list mean in terms of the physical inputs, the
    independence of every result from the units the inputs are written in,
    and the example design's outcome. */
module DpmProperties {
  import opened Common
  import opened Dpm

  /** The dictionary of a result set holds exactly the eighteen identifiers. */
  lemma DictKeys(s: ResultSet)
    ensures Dict(s).Keys == ResultKeys
  {
  }

  /** The optics entries of the dictionary hold their fields. */
  lemma DictOpticsEntries(s: ResultSet)
    ensures var r := Dict(s);
      && r["resolution"] == s.resolution
      && r["minimum_resolution"] == s.minimumResolution
      && r["camera_diagonal"] == s.cameraDiagonal
      && r["field_of_view_horizontal"] == s.fieldOfViewHorizontal
      && r["field_of_view_vertical"] == s.fieldOfViewVertical
      && r["maximum_grating_period"] == s.maximumGratingPeriod
  {
  }

  /** The relay entries of the dictionary hold their fields. */
  lemma DictRelayEntries(s: ResultSet)
    ensures var r := Dict(s);
      && r["fourier_plane_spacing"] == s.fourierPlaneSpacing
      && r["fourier_plane_sizes"] == s.fourierPlaneSizes
      && r["minimum_4f_magnification"] == s.minimum4fMagnification
      && r["4f_magnification"] == s.actual4fMagnification
      && r["system_magnification"] == s.systemMagnification
      && r["coupling_ratio"] == s.couplingRatio
  {
  }

  /** Every entry of the result set is its formula. */
  lemma ResultEntries(d: Design, sqrt: real -> real)
    requires Computable(d, sqrt)
    ensures ComputeResults(d, sqrt).Keys == ResultKeys
    ensures var r := ComputeResults(d, sqrt);
      && r["resolution"] == Resolution(d)
      && r["minimum_resolution"] == MinimumResolution(d)
      && r["camera_diagonal"] == CameraDiagonal(d, sqrt)
      && r["maximum_pixel_size"] == MaximumPixelSize(d)
      && r["field_of_view_horizontal"] == FieldOfViewHorizontal(d)
      && r["field_of_view_vertical"] == FieldOfViewVertical(d)
      && r["maximum_grating_period"] == MaximumGratingPeriod(d)
      && r["fourier_plane_spacing"] == FourierPlaneSpacing(d)
      && r["fourier_plane_sizes"] == FourierPlaneSizes(d)
      && r["minimum_lens_1_na"] == MinimumLens1Na(d)
      && r["minimum_lens_2_na"] == MinimumLens2Na(d)
      && r["lens_1_na"] == Lens1Na(d)
      && r["lens_2_na"] == Lens2Na(d)
      && r["minimum_4f_magnification"] == Minimum4fMagnification(d)
      && r["4f_magnification"] == Actual4fMagnification(d)
      && r["system_magnification"] == SystemMagnification(d)
      && r["maximum_pinhole_diameter"] == MaximumPinholeDiameter(d, sqrt)
      && r["coupling_ratio"] == CouplingRatio(d, sqrt)
  {
    var s := ResultSet(
      Resolution(d), MinimumResolution(d), CameraDiagonal(d, sqrt), MaximumPixelSize(d),
      FieldOfViewHorizontal(d), FieldOfViewVertical(d), MaximumGratingPeriod(d),
      FourierPlaneSpacing(d), FourierPlaneSizes(d), MinimumLens1Na(d), MinimumLens2Na(d),
      Lens1Na(d), Lens2Na(d), Minimum4fMagnification(d), Actual4fMagnification(d),
      SystemMagnification(d), MaximumPinholeDiameter(d, sqrt), CouplingRatio(d, sqrt));
    DictKeys(s);
    DictOpticsEntries(s);
    DictRelayEntries(s);
  }

  /** The fields of view have the aspect ratio of the camera: FOV_h / FOV_v is
      the ratio of horizontal to vertical pixel counts. */
  lemma FieldOfViewAspect(d: Design)
    requires d.objectiveMagnification != 0.0 && d.lens1FocalLength != 0.0 && d.lens2FocalLength != 0.0
    ensures InSI(FieldOfViewHorizontal(d)) * d.verticalPixels == InSI(FieldOfViewVertical(d)) * d.horizontalPixels
  {
    var q := d.objectiveMagnification * Abs(d.lens2FocalLength / d.lens1FocalLength);
    assert q != 0.0 by {
      assert d.lens2FocalLength / d.lens1FocalLength != 0.0;
    }
    CrossMultiply(d.horizontalPixels, d.verticalPixels, d.pixelSize, q);
  }

  /** (m x / q) n == (n x / q) m */
  lemma CrossMultiply(m: real, n: real, x: real, q: real)
    requires q != 0.0
    ensures m * x / q * n == n * x / q * m
  {
    assert m * x / q * n == m * n * (x / q);
    assert n * x / q * m == m * n * (x / q);
  }

  /** Lens NA depends only on the ratio of aperture to focal length. */
  lemma LensNaScaleFree(focalLength: real, clearAperture: real, k: real)
    requires focalLength != 0.0 && k != 0.0
    ensures LensNa(k * focalLength, k * clearAperture) == LensNa(focalLength, clearAperture)
  {
    var na := LensNa(focalLength, clearAperture);
    var scaled := LensNa(k * focalLength, k * clearAperture);
    assert k * (2.0 * focalLength * scaled) == k * (2.0 * focalLength * na);
  }

  /** A dimensioned input written in another unit: the same physical size. */
  function InUnit(m: Measure, u: Unit): (r: Measure)
    ensures r.unit == u && SI(r) == SI(m)
  {
    Measure(SI(m) / Factor(u), u)
  }

  /** Two sets of inputs that describe the same physical design, whatever
      units each dimensioned quantity is written in. */
  predicate SameQuantities(i: Inputs, j: Inputs) {
    && i.objectiveMagnification == j.objectiveMagnification
    && i.objectiveNumericalAperture == j.objectiveNumericalAperture
    && SI(i.pixelSize) == SI(j.pixelSize)
    && i.horizontalPixels == j.horizontalPixels
    && i.verticalPixels == j.verticalPixels
    && SI(i.wavelength) == SI(j.wavelength)
    && SI(i.gratingPeriod) == SI(j.gratingPeriod)
    && SI(i.lens1FocalLength) == SI(j.lens1FocalLength)
    && SI(i.lens1ClearAperture) == SI(j.lens1ClearAperture)
    && SI(i.lens2FocalLength) == SI(j.lens2FocalLength)
    && SI(i.lens2ClearAperture) == SI(j.lens2ClearAperture)
    && SI(i.pinholeDiameter) == SI(j.pinholeDiameter)
    && i.centralLobeSizeFactor == j.centralLobeSizeFactor
  }

  /** Every result and every rule's verdict depends only on the physical
      quantities, not on the units the inputs are written in. */
  lemma UnitsDoNotMatter(i: Inputs, j: Inputs, sqrt: real -> real)
    requires SameQuantities(i, j)
    ensures Normalise(i) == Normalise(j)
    ensures Computable(Normalise(i), sqrt) ==>
              && ComputeResults(Normalise(i), sqrt) == ComputeResults(Normalise(j), sqrt)
              && Outcomes(Normalise(i), ComputeResults(Normalise(i), sqrt)) ==
                 Outcomes(Normalise(j), ComputeResults(Normalise(j), sqrt))
  {
  }

  /** The lens NAs do not change when a focal length and its clear aperture
      are written in other units. */
  lemma LensNaUnitFree(i: Inputs, focalUnit: Unit, apertureUnit: Unit)
    requires SI(i.lens1FocalLength) != 0.0
    ensures var j := i.(lens1FocalLength := InUnit(i.lens1FocalLength, focalUnit),
                        lens1ClearAperture := InUnit(i.lens1ClearAperture, apertureUnit));
      Lens1Na(Normalise(j)) == Lens1Na(Normalise(i))
  {
    var j := i.(lens1FocalLength := InUnit(i.lens1FocalLength, focalUnit),
                lens1ClearAperture := InUnit(i.lens1ClearAperture, apertureUnit));
    assert SameQuantities(i, j);
  }

  /** The lens 1 rule, read in the inputs: it reports exactly when
      D_1 / (2 f_1) < lambda / Lambda + NA / M_obj. */
  lemma Lens1RuleMeaning(d: Design, sqrt: real -> real)
    requires Computable(d, sqrt)
    ensures ValidateLens1Na(d, ComputeResults(d, sqrt)).Some? <==>
              d.lens1ClearAperture / (2.0 * d.lens1FocalLength) <
              d.wavelength / d.gratingPeriod + d.objectiveNumericalAperture / d.objectiveMagnification
  {
    Lens1RuleLookup(d, sqrt);
  }

  /** The lens 1 rule, read in the Fourier plane: for a positive f_1, lens 1
      falls below its minimum NA exactly when its clear radius stops short of
      the outer edge of the +1 order, so that the order is clipped.
      `Lens1RuleLookup` ties this comparison to the rule. */
  lemma Lens1ClipsOrder(d: Design)
    requires d.gratingPeriod != 0.0 && d.objectiveMagnification != 0.0 && 0.0 < d.lens1FocalLength
    ensures Lens1Na(d).value < MinimumLens1Na(d).value <==>
              d.lens1ClearAperture / 2.0 < InSI(FourierPlaneSpacing(d)) + InSI(FourierPlaneSizes(d))
  {
    var f1 := d.lens1FocalLength;
    HalfAperture(d.lens1ClearAperture, f1, Lens1Na(d).value);
    ClipForm(Lens1Na(d).value, MinimumLens1Na(d).value, f1, d.lens1ClearAperture / 2.0,
             InSI(FourierPlaneSpacing(d)) + InSI(FourierPlaneSizes(d)));
  }

  lemma HalfAperture(aperture: real, f: real, na: real)
    requires f != 0.0 && na == aperture / (2.0 * f)
    ensures na * f == aperture / 2.0
  {
  }

  /** Comparing two NAs of one lens is comparing the radii they reach. */
  lemma ClipForm(na: real, minimum: real, f: real, radius: real, edge: real)
    requires 0.0 < f && na * f == radius && minimum * f == edge
    ensures na < minimum <==> radius < edge
  {
    ScaleLess(na, minimum, f);
  }

  /** Multiplying both sides by a positive number keeps a strict order. */
  lemma ScaleLess(x: real, y: real, k: real)
    requires 0.0 < k
    ensures x < y <==> x * k < y * k
  {
    assert y * k - x * k == (y - x) * k;
  }

  /** The bracket of the minimum 4f magnification is the highest spatial
      frequency in the intermediate image: the minimum NA of lens 1, the
      angle of the +1 order's outer edge, over lambda. So the minimum is 2 a
      times that frequency. */
  lemma Minimum4fIsSampling(d: Design)
    requires d.objectiveMagnification != 0.0 && d.wavelength != 0.0 && d.gratingPeriod != 0.0
    ensures Minimum4fMagnification(d).value * d.wavelength == 2.0 * d.pixelSize * MinimumLens1Na(d).value
  {
    SamplingBound(d.pixelSize, d.gratingPeriod, d.objectiveNumericalAperture, d.wavelength,
                  d.objectiveMagnification, Minimum4fMagnification(d).value, MinimumLens1Na(d).value);
  }

  lemma SamplingBound(a: real, period: real, na: real, wav: real, mObj: real, minimum: real, lens1Minimum: real)
    requires period != 0.0 && wav != 0.0 && mObj != 0.0
    requires minimum == 2.0 * a * (1.0 / period + na / (wav * mObj))
    requires lens1Minimum == wav / period + na / mObj
    ensures minimum * wav == 2.0 * a * lens1Minimum
  {
    assert (1.0 / period + na / (wav * mObj)) * wav == lens1Minimum;
  }

  /** The 4f rule is the Nyquist criterion on the camera. The highest spatial
      frequency in the intermediate image is the fringe frequency 1/Lambda
      plus the spectrum's half-width NA / (lambda M_obj); the relay divides it
      by |M_4f|. The rule reports exactly when the sampling frequency 1/a is
      below twice that frequency. */
  lemma FourFRuleIsNyquist(d: Design, results: map<string, Result>)
    requires d.objectiveMagnification != 0.0 && d.wavelength != 0.0 && d.gratingPeriod != 0.0
    requires d.lens1FocalLength != 0.0 && d.lens2FocalLength != 0.0 && 0.0 < d.pixelSize
    ensures Validate4fMagnification(d, results).Some? <==>
              1.0 / d.pixelSize <
              2.0 * Abs(1.0 / d.gratingPeriod + d.objectiveNumericalAperture / (d.wavelength * d.objectiveMagnification))
              / Abs(d.lens2FocalLength / d.lens1FocalLength)
  {
    var a := d.pixelSize;
    var x := 1.0 / d.gratingPeriod + d.objectiveNumericalAperture / (d.wavelength * d.objectiveMagnification);
    var ratio := d.lens2FocalLength / d.lens1FocalLength;
    QuotientNonZero(d.lens2FocalLength, d.lens1FocalLength, ratio);
    NyquistForm(Minimum4fMagnification(d).value, ratio, a, x);
  }

  /** The 4f comparison |ratio| < |2 a x| rewritten as a sampling criterion. */
  lemma NyquistForm(minimum: real, ratio: real, a: real, x: real)
    requires minimum == 2.0 * a * x && ratio != 0.0 && 0.0 < a
    ensures Abs(ratio) < Abs(minimum) <==> 1.0 / a < 2.0 * Abs(x) / Abs(ratio)
  {
    AbsScale(2.0 * a, x);
    SamplingCross(Abs(ratio), a, Abs(x));
  }

  lemma QuotientNonZero(x: real, y: real, q: real)
    requires x != 0.0 && y != 0.0 && q == x / y
    ensures q != 0.0
  {
    assert q * y == x;
  }

  /** |k x| == k |x| for a non-negative k. */
  lemma AbsScale(k: real, x: real)
    requires 0.0 <= k
    ensures Abs(k * x) == k * Abs(x)
  {
    if x < 0.0 {
      assert k * x == -(k * -x);
    }
  }

  /** m < 2ab exactly when 1/a < 2b/m, for positive m and a. */
  lemma SamplingCross(m: real, a: real, b: real)
    requires 0.0 < m && 0.0 < a
    ensures m < 2.0 * a * b <==> 1.0 / a < 2.0 * b / m
  {
    assert 1.0 / a * (a * m) == m;
    assert 2.0 * b / m * (a * m) == 2.0 * a * b;
    ScaleLess(1.0 / a, 2.0 * b / m, a * m);
  }

  /** The lens 2 rule, read in the inputs: it reports exactly when
      D_2 / (2 f_2) < lambda / (Lambda |f_2 / f_1|) + 1.22 lambda / d. */
  lemma Lens2RuleMeaning(d: Design, sqrt: real -> real)
    requires Computable(d, sqrt)
    ensures ValidateLens2Na(d, ComputeResults(d, sqrt)).Some? <==>
              d.lens2ClearAperture / (2.0 * d.lens2FocalLength) <
              d.wavelength / (Abs(d.lens2FocalLength / d.lens1FocalLength) * d.gratingPeriod)
              + 1.22 * d.wavelength / d.pinholeDiameter
  {
    Lens2RuleLookup(d, sqrt);
    Lens2Values(d);
  }

  lemma Lens2Values(d: Design)
    requires d.gratingPeriod != 0.0 && d.lens1FocalLength != 0.0 && d.lens2FocalLength != 0.0
    requires d.pinholeDiameter != 0.0
    ensures Lens2Na(d).value < MinimumLens2Na(d).value <==>
              d.lens2ClearAperture / (2.0 * d.lens2FocalLength) <
              d.wavelength / (Abs(d.lens2FocalLength / d.lens1FocalLength) * d.gratingPeriod)
              + 1.22 * d.wavelength / d.pinholeDiameter
  {
  }

  lemma Lens1RuleLookup(d: Design, sqrt: real -> real)
    requires Computable(d, sqrt)
    ensures ValidateLens1Na(d, ComputeResults(d, sqrt)).Some? <==> Lens1Na(d).value < MinimumLens1Na(d).value
  {
    var results := ComputeResults(d, sqrt);
    assert results["lens_1_na"] == Lens1Na(d);
    assert results["minimum_lens_1_na"] == MinimumLens1Na(d);
  }

  lemma Lens2RuleLookup(d: Design, sqrt: real -> real)
    requires Computable(d, sqrt)
    ensures ValidateLens2Na(d, ComputeResults(d, sqrt)).Some? <==> Lens2Na(d).value < MinimumLens2Na(d).value
  {
    var results := ComputeResults(d, sqrt);
    assert results["lens_2_na"] == Lens2Na(d);
    assert results["minimum_lens_2_na"] == MinimumLens2Na(d);
  }

  /** The pixel rule, read in the inputs: it reports exactly when
      a > Lambda |f_2 / f_1| / 2.67. */
  lemma PixelRuleMeaning(d: Design, sqrt: real -> real)
    requires Computable(d, sqrt)
    ensures ValidatePixelSize(d, ComputeResults(d, sqrt)).Some? <==>
              d.pixelSize > d.gratingPeriod * Abs(d.lens2FocalLength / d.lens1FocalLength) / 2.67
  {
    PixelRuleLookup(d, sqrt);
    PixelValues(d);
  }

  lemma PixelRuleLookup(d: Design, sqrt: real -> real)
    requires Computable(d, sqrt)
    ensures ValidatePixelSize(d, ComputeResults(d, sqrt)).Some? <==> d.pixelSize > InSI(MaximumPixelSize(d))
  {
    assert ComputeResults(d, sqrt)["maximum_pixel_size"] == MaximumPixelSize(d);
  }

  lemma PixelValues(d: Design)
    requires d.lens1FocalLength != 0.0
    ensures d.pixelSize > InSI(MaximumPixelSize(d)) <==>
              d.pixelSize > d.gratingPeriod * Abs(d.lens2FocalLength / d.lens1FocalLength) / 2.67
  {
  }

  /** The pinhole rule, read in the inputs: it reports exactly when
      d > 2.44 lambda f_2 / (D gamma), D the camera diagonal. */
  lemma PinholeRuleMeaning(d: Design, sqrt: real -> real)
    requires Computable(d, sqrt)
    ensures ValidatePinholeDiameter(d, ComputeResults(d, sqrt)).Some? <==>
              d.pinholeDiameter > 2.44 * d.wavelength * d.lens2FocalLength /
                                      (InSI(CameraDiagonal(d, sqrt)) * d.centralLobeSizeFactor)
  {
    PinholeRuleLookup(d, sqrt);
    PinholeValues(d, sqrt);
  }

  lemma PinholeRuleLookup(d: Design, sqrt: real -> real)
    requires Computable(d, sqrt)
    ensures ValidatePinholeDiameter(d, ComputeResults(d, sqrt)).Some? <==>
              d.pinholeDiameter > InSI(MaximumPinholeDiameter(d, sqrt))
  {
    assert ComputeResults(d, sqrt)["maximum_pinhole_diameter"] == MaximumPinholeDiameter(d, sqrt);
  }

  lemma PinholeValues(d: Design, sqrt: real -> real)
    requires CameraDiagonal(d, sqrt).value != 0.0 && d.centralLobeSizeFactor != 0.0
    ensures d.pinholeDiameter > InSI(MaximumPinholeDiameter(d, sqrt)) <==>
              d.pinholeDiameter > 2.44 * d.wavelength * d.lens2FocalLength /
                                      (InSI(CameraDiagonal(d, sqrt)) * d.centralLobeSizeFactor)
  {
  }

  /** The position of a violation's rule in the `validations` list. */
  function RuleIndex(v: Violation): int {
    match v
    case MagnificationBelowMinimum(_, _) => 0
    case Lens1NaBelowMinimum(_, _) => 1
    case Lens2NaBelowMinimum(_, _) => 2
    case PinholeAboveMaximum(_, _) => 3
    case PixelSizeAboveMaximum(_, _) => 4
  }

  /** The violation list holds at most one violation per rule, five at most,
      in the fixed rule order 4f, lens 1, lens 2, pinhole, pixel; and each
      rule's violation is in it exactly when that rule reports. */
  lemma ViolationListShape(d: Design, results: map<string, Result>)
    requires Checkable(d, results)
    ensures var vs := Present(Outcomes(d, results));
      && |vs| <= 5
      && (forall a, b :: 0 <= a < b < |vs| ==> RuleIndex(vs[a]) < RuleIndex(vs[b]))
      && (forall v :: v in vs <==> Some(v) in Outcomes(d, results))
  {
    var outcomes := Outcomes(d, results);
    forall n, m | 0 <= n < m < |outcomes| && outcomes[n].Some? && outcomes[m].Some?
      ensures RuleIndex(outcomes[n].value) < RuleIndex(outcomes[m].value)
    {
      assert RuleIndex(outcomes[n].value) == n && RuleIndex(outcomes[m].value) == m;
    }
    PresentRanked(outcomes, RuleIndex);
    forall v ensures v in Present(outcomes) <==> Some(v) in outcomes {
      PresentMembership(outcomes, v);
    }
  }

  /** A design passes every rule exactly when every rule's outcome is `None`. */
  lemma NoViolationsMeansAllPass(d: Design, results: map<string, Result>)
    requires Checkable(d, results)
    ensures Present(Outcomes(d, results)) == [] <==>
              && Validate4fMagnification(d, results).None?
              && ValidateLens1Na(d, results).None?
              && ValidateLens2Na(d, results).None?
              && ValidatePinholeDiameter(d, results).None?
              && ValidatePixelSize(d, results).None?
  {
    var outcomes := Outcomes(d, results);
    PresentEmpty(outcomes);
    if outcomes[0].None? && outcomes[1].None? && outcomes[2].None? && outcomes[3].None? && outcomes[4].None? {
      forall n | 0 <= n < |outcomes| ensures outcomes[n].None? {
        assert n == 0 || n == 1 || n == 2 || n == 3 || n == 4;
      }
    }
  }

  // ---------------------------------------------------------------------------
  // The example design

  /** The example design as the formulas read it, in SI base units. */
  const DefaultDesign: Design :=
    Design(20.0, 0.4, 0.0000052, 512.0, 512.0, 0.00000064, 1000.0 / 300.0 * 0.000001,
           0.075, 0.04572, 0.3, 0.04572, 0.00003, 4.0)

  /** `DefaultDesign` is what normalising the shipped defaults gives. */
  lemma DefaultDesignIsNormalised()
    ensures Normalise(Defaults) == DefaultDesign
  {
  }

  /** With a wavelength of 0.64 um and an NA of 0.4 the resolution is 1.952 um. */
  lemma DefaultResolution()
    ensures Resolution(DefaultDesign).value == 1.952
  {
  }

  /** With f_1 = 75 mm and D_1 = 45.72 mm lens 1 has NA 0.3048; the minimum is
      0.64 / (1000/300) + 0.4 / 20 = 0.212, so the lens 1 rule passes. */
  lemma DefaultLens1Na()
    ensures Lens1Na(DefaultDesign).value == 0.3048
    ensures MinimumLens1Na(DefaultDesign).value == 0.212
  {
  }

  /** A non-negative root of `x` is at most `b` when `x` is at most `b * b`. */
  lemma RootBound(s: real, x: real, b: real)
    requires 0.0 <= s && s * s == x && 0.0 <= b && x <= b * b
    ensures s <= b
  {
    if s + b != 0.0 {
      assert (s - b) * (s + b) == x - b * b;
      assert s - b == (x - b * b) / (s + b);
    }
  }

  /** A square root of a positive number is positive. */
  lemma PositiveRoot(sqrt: real -> real, x: real)
    requires IsSquareRoot(sqrt) && 0.0 < x
    ensures 0.0 < sqrt(x)
  {
  }

  /** The camera of the example design: 512 x 512 pixels of 5.2 um, a diagonal
      of 5.2 um * sqrt(2 * 512^2), that is between 0 and 3.77 mm. */
  lemma DefaultCameraDiagonal(sqrt: real -> real)
    requires IsSquareRoot(sqrt)
    ensures 0.0 < InSI(CameraDiagonal(DefaultDesign, sqrt)) <= 0.00377
  {
    var d := InSI(CameraDiagonal(DefaultDesign, sqrt));
    var side := 512.0 * 0.0000052;
    assert DefaultDesign.pixelSize == 0.0000052;
    assert Sq(d) == Sq(side) + Sq(side);
    assert 0.0 <= d;
    RootBound(d, Sq(side) + Sq(side), 0.00377);
    assert d != 0.0;
  }

  /** Dividing by the larger of two positive numbers gives the smaller quotient. */
  lemma QuotientBound(a: real, x: real, y: real)
    requires 0.0 < x <= y && 0.0 <= a
    ensures a / y <= a / x
  {
    assert a / y * y == a / x * x;
  }

  /** The example's 30 um pinhole is below the largest allowed one, about 31 um:
      2.44 * 0.64 um * 300 mm / (4 * 3.77 mm) is already 31.07 um. */
  lemma DefaultPinhole(sqrt: real -> real)
    requires IsSquareRoot(sqrt)
    ensures Computable(DefaultDesign, sqrt)
    ensures ValidatePinholeDiameter(DefaultDesign, ComputeResults(DefaultDesign, sqrt)) == None
  {
    var d := DefaultDesign;
    DefaultsComputable(sqrt);
    PinholeRuleLookup(d, sqrt);
    DefaultCameraDiagonal(sqrt);
    var diagonal := InSI(CameraDiagonal(d, sqrt));
    var a := 2.44 * d.wavelength * d.lens2FocalLength;
    assert InSI(MaximumPinholeDiameter(d, sqrt)) == a / (diagonal * 4.0);
    QuotientBound(a, diagonal * 4.0, 0.00377 * 4.0);
  }

  /** Every formula can be evaluated on the example design. */
  lemma DefaultsComputable(sqrt: real -> real)
    requires IsSquareRoot(sqrt)
    ensures Computable(DefaultDesign, sqrt)
  {
    var d := DefaultDesign;
    DefaultCameraDiagonal(sqrt);
    var h := InSI(FieldOfViewHorizontal(d));
    var v := InSI(FieldOfViewVertical(d));
    assert h == 512.0 * 0.0000052 / (20.0 * 4.0);
    assert v == h;
    PositiveRoot(sqrt, Sq(h) + Sq(v));
  }

  /** Lens 2 of the example design is just fast enough: NA 0.0762 against a
      minimum of 0.048 + 0.0260 = 0.0740. */
  lemma DefaultLens2(sqrt: real -> real)
    requires IsSquareRoot(sqrt)
    ensures Computable(DefaultDesign, sqrt)
    ensures ValidateLens2Na(DefaultDesign, ComputeResults(DefaultDesign, sqrt)) == None
  {
    DefaultsComputable(sqrt);
    Lens2RuleMeaning(DefaultDesign, sqrt);
    assert DefaultDesign.lens2ClearAperture / (2.0 * DefaultDesign.lens2FocalLength) == 0.0762;
    assert Abs(DefaultDesign.lens2FocalLength / DefaultDesign.lens1FocalLength) == 4.0;
  }

  /** The example's 5.2 um pixels are larger than the 40 / 8.01 um allowed. */
  lemma DefaultPixel(sqrt: real -> real)
    requires IsSquareRoot(sqrt)
    ensures Computable(DefaultDesign, sqrt)
    ensures ValidatePixelSize(DefaultDesign, ComputeResults(DefaultDesign, sqrt)) == Some(PixelSizeAboveMaximum(40.0 / 8.01, 5.2))
  {
    var d := DefaultDesign;
    DefaultsComputable(sqrt);
    var results := ComputeResults(d, sqrt);
    assert results["maximum_pixel_size"] == MaximumPixelSize(d);
    assert Abs(d.lens2FocalLength / d.lens1FocalLength) == 4.0;
    assert InSI(MaximumPixelSize(d)) == 0.000004 / 0.801;
  }

  /** The 4f relay and lens 1 of the example design pass their rules. */
  lemma DefaultRelayAndLens1(sqrt: real -> real)
    requires IsSquareRoot(sqrt)
    ensures Computable(DefaultDesign, sqrt)
    ensures Validate4fMagnification(DefaultDesign, ComputeResults(DefaultDesign, sqrt)) == None
    ensures ValidateLens1Na(DefaultDesign, ComputeResults(DefaultDesign, sqrt)) == None
  {
    DefaultsComputable(sqrt);
    Lens1RuleMeaning(DefaultDesign, sqrt);
    assert Abs(DefaultDesign.lens2FocalLength / DefaultDesign.lens1FocalLength) == 4.0;
  }

  /** The example design violates exactly one rule: its 5.2 um pixels exceed the
      40 / 8.01 (about 4.99) um the grating allows. */
  lemma DefaultViolations(sqrt: real -> real)
    requires IsSquareRoot(sqrt)
    ensures Computable(DefaultDesign, sqrt)
    ensures Present(Outcomes(DefaultDesign, ComputeResults(DefaultDesign, sqrt))) == [PixelSizeAboveMaximum(40.0 / 8.01, 5.2)]
  {
    DefaultsComputable(sqrt);
    var d := DefaultDesign;
    var results := ComputeResults(d, sqrt);
    DefaultRelayAndLens1(sqrt);
    DefaultLens2(sqrt);
    DefaultPinhole(sqrt);
    DefaultPixel(sqrt);
    var outcomes := Outcomes(d, results);
    var pixel := PixelSizeAboveMaximum(40.0 / 8.01, 5.2);
    assert outcomes == [None, None, None, None, Some(pixel)];
    assert Present(outcomes[4..]) == [pixel];
    assert Present(outcomes[3..]) == [pixel];
    assert Present(outcomes[2..]) == [pixel];
    assert Present(outcomes[1..]) == [pixel];
  }
}
