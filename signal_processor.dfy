/** The echo model: `getSignalStrength` (goniometer directivity, resonance
    cross-section, range cap) and `getHeightFindingSignal` (the two gates,
    the vertical lobe pattern and the vertical-goniometer match). */
module SignalProcessor {
  import opened JsMath
  import opened Constants
  import opened TargetManager

  /** `((Math.atan2(y, x) * 180) / Math.PI + 360) % 360`: the target's
      bearing in degrees. */
  function TargetBearing(m: MathFns, t: Target): (b: real)
    requires m.Lawful()
    ensures 0.0 <= b < 360.0
  {
    var angle := m.atan2(t.y, t.x);
    DegreesOfAngle(m.pi, angle);
    var shifted := angle * 180.0 / m.pi + 360.0;
    JsRemainderOfNonNegative(shifted, 360.0);
    JsRemainder(shifted, 360.0)
  }

  /** The bearing difference folded onto the shorter way round. */
  function NormalizedDiff(bearing: real, goniometer: real): (d: real)
    ensures 0.0 <= bearing < 360.0 && 0.0 <= goniometer < 360.0 ==> 0.0 <= d <= 180.0
  {
    var angleDiff := Abs(bearing - goniometer);
    if angleDiff > 180.0 then 360.0 - angleDiff else angleDiff
  }

  /** Swapping the two angles gives the same difference. */
  lemma NormalizedDiffSymmetric(a: real, b: real)
    ensures NormalizedDiff(a, b) == NormalizedDiff(b, a)
  {
    assert Abs(a - b) == Abs(b - a);
  }

  /** On `[0, 360)` the folded difference is the shorter of the two arcs
      between the angles. */
  lemma NormalizedDiffIsShorterArc(a: real, b: real)
    requires 0.0 <= a < 360.0 && 0.0 <= b < 360.0
    ensures NormalizedDiff(a, b) == Min(Abs(a - b), 360.0 - Abs(a - b))
  {
  }

  /** `Math.pow(Math.cos(diff * Math.PI / 180), 2)`: the crossed-dipole
      directivity. */
  function DirectionFactor(m: MathFns, diff: real): (r: real)
    requires m.Lawful()
    ensures 0.0 <= r <= 1.0
  {
    var c := m.cos(diff * m.pi / 180.0);
    SqUnitBound(c);
    Sq(c)
  }

  /** Full response on the goniometer bearing. */
  lemma DirectionFactorOnBearing(m: MathFns)
    requires m.Lawful()
    ensures DirectionFactor(m, 0.0) == 1.0
  {
    assert 0.0 * m.pi / 180.0 == 0.0;
  }

  /** No response at right angles to the goniometer bearing. */
  lemma DirectionFactorAtRightAngle(m: MathFns)
    requires m.Lawful()
    ensures DirectionFactor(m, 90.0) == 0.0
  {
    assert 90.0 * m.pi / 180.0 == m.pi / 2.0;
  }

  /** `300 / selectedFrequency`, in metres. */
  function Wavelength(frequency: real): (w: real)
    requires frequency > 0.0
    ensures w > 0.0
  {
    300.0 / frequency
  }

  /** `Math.abs(sin(pi * w) / (pi * w)) + 0.2` with `w` the wingspan in
      wavelengths: resonance plus a base reflection. */
  function CrossSection(m: MathFns, wingspan: real, frequency: real): (r: real)
    requires m.Lawful() && wingspan > 0.0 && frequency > 0.0
    ensures r >= 0.2
  {
    var wingspanInWavelengths := wingspan / Wavelength(frequency);
    var x := m.pi * wingspanInWavelengths;
    assert x > 0.0;
    Abs(m.sin(x) / x) + 0.2
  }

  /** `Math.pow(Math.min(maxRange / range, 1), 4)`.  At range 0 the source
      divides by zero and gets `Infinity`, which the minimum caps at 1. */
  function RangeFactor(maxRange: real, range: real): (r: real)
    requires maxRange > 0.0 && range >= 0.0
    ensures 0.0 < r <= 1.0
    ensures range == 0.0 ==> r == 1.0
  {
    if range == 0.0 then 1.0
    else
      var q := maxRange / range;
      assert q > 0.0;
      Pow4UnitInterval(Min(q, 1.0));
      Pow4(Min(q, 1.0))
  }

  /** Inside the horizon range the factor is capped at exactly 1. */
  lemma RangeFactorCapped(maxRange: real, range: real)
    requires 0.0 < range <= maxRange
    ensures RangeFactor(maxRange, range) == 1.0
  {
    QuotientAtLeastOne(maxRange, range);
  }

  /** Beyond the horizon range the factor falls below 1. */
  lemma RangeFactorBeyondHorizon(maxRange: real, range: real)
    requires 0.0 < maxRange < range
    ensures RangeFactor(maxRange, range) < 1.0
  {
    var q := maxRange / range;
    assert 0.0 < q < 1.0 by {
      assert q * range == maxRange;
      if q >= 1.0 {
        MulLeftMonotone(range, 1.0, q);
        assert false;
      }
    }
    SqUnitInterval(q);
    SqUnitInterval(Sq(q));
    calc { Sq(q); == q * q; < 1.0 * q; <= 1.0; }
    calc { Pow4(q); == Sq(Sq(q)); == Sq(q) * Sq(q); <= 1.0 * Sq(q); < 1.0; }
  }

  /** `a / b >= 1` when `0 < b <= a`. */
  lemma QuotientAtLeastOne(a: real, b: real)
    requires 0.0 < b <= a
    ensures a / b >= 1.0
  {
    var q := a / b;
    assert q * b == a;
    if q < 1.0 {
      MulLeftMonotone(b, q, 1.0);
    }
  }

  /** `directionFactor * rangeFactor * crossSectionFactor * 3.0`: two
      factors in `[0, 1]` scale the tripled cross-section down. */
  function EchoProduct(directionFactor: real, rangeFactor: real, crossSectionFactor: real): (r: real)
    requires 0.0 <= directionFactor <= 1.0 && 0.0 <= rangeFactor <= 1.0 && crossSectionFactor >= 0.0
    ensures 0.0 <= r <= 3.0 * crossSectionFactor
  {
    var scale := directionFactor * rangeFactor;
    UnitScale(directionFactor, rangeFactor);
    var scaled := scale * crossSectionFactor;
    UnitScale(scale, crossSectionFactor);
    scaled * 3.0
  }

  /** The target's range is never negative. */
  lemma RangeNonNegative(m: MathFns, t: Target)
    requires m.Lawful()
    ensures Range(m, t) >= 0.0
  {
    SqNonNegative(t.x);
    SqNonNegative(t.y);
  }

  /** The range factor of a target at its own altitude. */
  function TargetRangeFactor(m: MathFns, t: Target): (r: real)
    requires m.Lawful()
    ensures 0.0 < r <= 1.0
  {
    RangeNonNegative(m, t);
    RangeFactor(MaxRangeForAltitude(m, t.altitude), Range(m, t))
  }

  /** The folded difference between the target's bearing and the goniometer. */
  function BearingOffset(m: MathFns, t: Target, goniometer: real): real
    requires m.Lawful()
  {
    NormalizedDiff(TargetBearing(m, t), goniometer)
  }

  /** `getSignalStrength(target, goniometerAngle, selectedFrequency)` */
  function SignalStrength(m: MathFns, t: Target, goniometer: real, frequency: real): (r: real)
    requires m.Lawful() && t.wingspan > 0.0 && frequency > 0.0
    ensures 0.0 <= r <= 3.0 * CrossSection(m, t.wingspan, frequency)
  {
    var directionFactor := DirectionFactor(m, BearingOffset(m, t, goniometer));
    var rangeFactor := TargetRangeFactor(m, t);
    var crossSectionFactor := CrossSection(m, t.wingspan, frequency);
    EchoProduct(directionFactor, rangeFactor, crossSectionFactor)
  }

  /** A target straight down the goniometer bearing and inside its horizon
      range returns the full `3 * crossSection`. */
  lemma SignalPeaksOnBearing(m: MathFns, t: Target, goniometer: real, frequency: real)
    requires m.Lawful() && t.wingspan > 0.0 && frequency > 0.0
    requires BearingOffset(m, t, goniometer) == 0.0
    requires 0.0 < Range(m, t) <= MaxRangeForAltitude(m, t.altitude)
    ensures SignalStrength(m, t, goniometer, frequency) == 3.0 * CrossSection(m, t.wingspan, frequency)
  {
    DirectionFactorOnBearing(m);
    RangeFactorCapped(MaxRangeForAltitude(m, t.altitude), Range(m, t));
  }

  /** A target at right angles to the goniometer returns nothing. */
  lemma SignalNullAtRightAngle(m: MathFns, t: Target, goniometer: real, frequency: real)
    requires m.Lawful() && t.wingspan > 0.0 && frequency > 0.0
    requires BearingOffset(m, t, goniometer) == 90.0
    ensures SignalStrength(m, t, goniometer, frequency) == 0.0
  {
    DirectionFactorAtRightAngle(m);
  }

  /** The angle above the horizon, in degrees: `atan2(altitude / 5280, range)`. */
  function ElevationDegrees(m: MathFns, t: Target): (e: real)
    requires m.Lawful()
    ensures -180.0 < e <= 180.0
  {
    var angleRad := m.atan2(t.altitude / 5280.0, Range(m, t));
    DegreesOfAngle(m.pi, angleRad);
    angleRad * 180.0 / m.pi
  }

  /** `Math.exp(-d * d / 100)` of the vertical goniometer mismatch `d`. */
  function VerticalMatch(m: MathFns, elevation: real, verticalGoniometer: real): (r: real)
    requires m.Lawful()
    ensures 0.0 < r <= 1.0
  {
    var d := Abs(elevation - verticalGoniometer);
    SqNonNegative(d);
    m.exp(-Sq(d) / 100.0)
  }

  /** The match is perfect exactly when the elevation equals the vertical
      goniometer setting. */
  lemma VerticalMatchPerfectIffAligned(m: MathFns, elevation: real, verticalGoniometer: real)
    requires m.Lawful()
    ensures VerticalMatch(m, elevation, verticalGoniometer) == 1.0 <==> elevation == verticalGoniometer
  {
    var d := Abs(elevation - verticalGoniometer);
    if elevation != verticalGoniometer {
      SqStrictlyIncreasing(0.0, d);
      assert Sq(0.0) == 0.0;
      assert -Sq(d) / 100.0 < 0.0;
    } else {
      assert Sq(0.0) == 0.0;
    }
  }

  /** A larger mismatch gives a strictly weaker match. */
  lemma VerticalMatchDecreasing(m: MathFns, e1: real, e2: real, v: real)
    requires m.Lawful() && Abs(e1 - v) < Abs(e2 - v)
    ensures VerticalMatch(m, e2, v) < VerticalMatch(m, e1, v)
  {
    SqStrictlyIncreasing(Abs(e1 - v), Abs(e2 - v));
  }

  /** `Math.abs(Math.sin(pi * h * Math.sin(angleRad)))` with `h` the altitude
      in wavelengths; the altitude is divided by 0.3048 as written. */
  function LobePattern(m: MathFns, t: Target, frequency: real): (r: real)
    requires m.Lawful() && frequency > 0.0
    ensures 0.0 <= r <= 1.0
  {
    var angleRad := m.atan2(t.altitude / 5280.0, Range(m, t));
    var heightInWavelengths := (t.altitude / 0.3048) / Wavelength(frequency);
    Abs(m.sin(m.pi * heightInWavelengths * m.sin(angleRad)))
  }

  /** The ungated height-finding response `lobe * match * 2`. */
  function ElevationResponse(m: MathFns, t: Target, verticalGoniometer: real, frequency: real): (r: real)
    requires m.Lawful() && frequency > 0.0
    ensures 0.0 <= r <= 2.0
  {
    var lobe := LobePattern(m, t, frequency);
    var match_ := VerticalMatch(m, ElevationDegrees(m, t), verticalGoniometer);
    ResponseProduct(lobe, match_)
  }

  /** `lobePattern * verticalMatch * 2`: two factors in `[0, 1]` give a
      response in `[0, 2]`. */
  function ResponseProduct(lobe: real, match_: real): (r: real)
    requires 0.0 <= lobe <= 1.0 && 0.0 <= match_ <= 1.0
    ensures 0.0 <= r <= 2.0
  {
    UnitScale(lobe, match_);
    lobe * match_ * 2.0
  }

  /** `getHeightFindingSignal(...)`: 0 with the mode off or more than 15
      degrees off bearing, the elevation response otherwise. */
  function HeightFindingSignal(m: MathFns, t: Target, goniometer: real, verticalGoniometer: real,
                               frequency: real, heightFindingMode: bool): (r: real)
    requires m.Lawful() && frequency > 0.0
    ensures 0.0 <= r <= 2.0
    ensures !heightFindingMode ==> r == 0.0
    ensures BearingOffset(m, t, goniometer) > 15.0 ==> r == 0.0
    ensures heightFindingMode && BearingOffset(m, t, goniometer) <= 15.0 ==>
      r == ElevationResponse(m, t, verticalGoniometer, frequency)
  {
    if !heightFindingMode then 0.0
    else if BearingOffset(m, t, goniometer) > 15.0 then 0.0
    else ElevationResponse(m, t, verticalGoniometer, frequency)
  }

  /** A target exactly 15 degrees off bearing still passes the gate. */
  lemma HeightGateAdmitsFifteen(m: MathFns, t: Target, goniometer: real, verticalGoniometer: real, frequency: real)
    requires m.Lawful() && frequency > 0.0 && BearingOffset(m, t, goniometer) == 15.0
    ensures HeightFindingSignal(m, t, goniometer, verticalGoniometer, frequency, true)
         == ElevationResponse(m, t, verticalGoniometer, frequency)
  {
  }
}
