/** The height-finding display: the elevation trace (for each probe
    elevation, the strongest height-finding echo of the targets near the
    goniometer bearing and near that elevation), the theoretical lobe curve
    and the vertical-goniometer reference line. */
module HeightFinding {
  import opened Wrappers
  import opened JsMath
  import opened Constants
  import opened TargetManager
  import opened SignalProcessor
  import opened AScope

  /** `SCOPE_HEIGHT / 2 - 10` */
  const HEIGHT_BASELINE: real := SCOPE_HEIGHT / 2.0 - 10.0

  /** `(x / SWEEP_WIDTH) * 90`: the elevation column `x` probes. */
  function ProbeElevation(x: nat): (e: real)
    ensures x as real < SWEEP_WIDTH ==> 0.0 <= e < 90.0
  {
    (x as real / SWEEP_WIDTH) * 90.0
  }

  /** A target enters a column only when it is strictly within 15 degrees of
      the goniometer bearing and within 5 degrees of the probe elevation. */
  predicate HeightContributes(m: MathFns, t: Target, goniometer: real, elevation: real)
    requires m.Lawful()
  {
    BearingOffset(m, t, goniometer) < 15.0 && Abs(ElevationDegrees(m, t) - elevation) < 5.0
  }

  /** The echo a contributing target adds: the height-finding signal with the
      probe elevation in the vertical-goniometer position. */
  function ProbeSignal(m: MathFns, t: Target, goniometer: real, elevation: real, frequency: real, mode: bool): (r: real)
    requires m.Lawful() && frequency > 0.0
    ensures 0.0 <= r <= 2.0
    ensures mode && HeightContributes(m, t, goniometer, elevation) ==>
      r == ElevationResponse(m, t, elevation, frequency)
  {
    HeightFindingSignal(m, t, goniometer, elevation, frequency, mode)
  }

  /** The `maxSignal` the `forEach` leaves for a probe elevation:
      `Math.max` over the contributing targets, starting from 0. */
  function PeakHeightSignal(m: MathFns, targets: seq<Target>, goniometer: real, elevation: real,
                            frequency: real, mode: bool): (r: real)
    requires m.Lawful() && frequency > 0.0
    ensures 0.0 <= r <= 2.0
    decreases |targets|
  {
    if targets == [] then 0.0
    else
      var n := |targets| - 1;
      var front := targets[..n];
      var before := PeakHeightSignal(m, front, goniometer, elevation, frequency, mode);
      if HeightContributes(m, targets[n], goniometer, elevation)
      then Max(before, ProbeSignal(m, targets[n], goniometer, elevation, frequency, mode))
      else before
  }

  /** The maximum is at least the echo of every contributing target. */
  lemma {:induction false} PeakHeightSignalDominates(m: MathFns, targets: seq<Target>, goniometer: real,
                                                     elevation: real, frequency: real, mode: bool)
    requires m.Lawful() && frequency > 0.0
    ensures forall i :: 0 <= i < |targets| && HeightContributes(m, targets[i], goniometer, elevation) ==>
      ProbeSignal(m, targets[i], goniometer, elevation, frequency, mode)
      <= PeakHeightSignal(m, targets, goniometer, elevation, frequency, mode)
    decreases |targets|
  {
    if targets != [] {
      var n := |targets| - 1;
      var front := targets[..n];
      PeakHeightSignalDominates(m, front, goniometer, elevation, frequency, mode);
      var r := PeakHeightSignal(m, targets, goniometer, elevation, frequency, mode);
      var before := PeakHeightSignal(m, front, goniometer, elevation, frequency, mode);
      assert before <= r;
      forall i | 0 <= i < n
        ensures targets[i] == front[i]
      {
      }
    }
  }

  /** A non-zero maximum is the echo of one of the contributing targets. */
  lemma {:induction false} PeakHeightSignalAttained(m: MathFns, targets: seq<Target>, goniometer: real,
                                                    elevation: real, frequency: real, mode: bool)
    requires m.Lawful() && frequency > 0.0
    ensures var r := PeakHeightSignal(m, targets, goniometer, elevation, frequency, mode);
      r == 0.0 || exists i :: (0 <= i < |targets| && HeightContributes(m, targets[i], goniometer, elevation) &&
        r == ProbeSignal(m, targets[i], goniometer, elevation, frequency, mode))
    decreases |targets|
  {
    if targets != [] {
      var n := |targets| - 1;
      var front := targets[..n];
      PeakHeightSignalAttained(m, front, goniometer, elevation, frequency, mode);
      var before := PeakHeightSignal(m, front, goniometer, elevation, frequency, mode);
      var r := PeakHeightSignal(m, targets, goniometer, elevation, frequency, mode);
      if r != 0.0 {
        if HeightContributes(m, targets[n], goniometer, elevation)
           && r == ProbeSignal(m, targets[n], goniometer, elevation, frequency, mode) {
        } else {
          assert r == before;
          var i :| 0 <= i < |front| && HeightContributes(m, front[i], goniometer, elevation) &&
            before == ProbeSignal(m, front[i], goniometer, elevation, frequency, mode);
          assert front[i] == targets[i];
        }
      }
    }
  }

  /** One more target raises the maximum by its own echo when it contributes. */
  lemma PeakHeightSignalStep(m: MathFns, targets: seq<Target>, i: nat, goniometer: real, elevation: real,
                             frequency: real, mode: bool)
    requires m.Lawful() && frequency > 0.0 && i < |targets|
    ensures var before := PeakHeightSignal(m, targets[..i], goniometer, elevation, frequency, mode);
      PeakHeightSignal(m, targets[..i + 1], goniometer, elevation, frequency, mode)
      == if HeightContributes(m, targets[i], goniometer, elevation)
         then Max(before, ProbeSignal(m, targets[i], goniometer, elevation, frequency, mode))
         else before
  {
    assert targets[..i + 1][..i] == targets[..i];
    assert targets[..i + 1][i] == targets[i];
  }

  /** The inner `targets.forEach` of one probe column. */
  method ScanElevation(m: MathFns, targets: seq<Target>, goniometer: real, x: nat, frequency: real, mode: bool)
    returns (maxSignal: real)
    requires m.Lawful() && frequency > 0.0
    ensures maxSignal == PeakHeightSignal(m, targets, goniometer, ProbeElevation(x), frequency, mode)
  {
    var elevation := ProbeElevation(x);
    maxSignal := 0.0;
    var i := 0;
    while i < |targets|
      invariant 0 <= i <= |targets|
      invariant maxSignal == PeakHeightSignal(m, targets[..i], goniometer, elevation, frequency, mode)
    {
      PeakHeightSignalStep(m, targets, i, goniometer, elevation, frequency, mode);
      if HeightContributes(m, targets[i], goniometer, elevation) {
        var elevationSignal := ProbeSignal(m, targets[i], goniometer, elevation, frequency, mode);
        maxSignal := Max(maxSignal, elevationSignal);
      }
      i := i + 1;
    }
    assert targets[..|targets|] == targets;
  }

  /** The y of a probe column: 40 % of the scope height per unit of signal
      above the baseline, plus `(noiseDraw - 0.5) * 5` of noise.  With a
      signal in `[0, 2]` every column lies between the baseline lifted by the
      largest echo and the baseline, give or take the noise. */
  function HeightY(maxSignal: real, noiseDraw: real): (y: real)
    ensures 0.0 <= maxSignal <= 2.0 && IsUnitDraw(noiseDraw) ==>
      HEIGHT_BASELINE - 2.0 * SCOPE_HEIGHT * 0.4 - 2.5 <= y < HEIGHT_BASELINE + 2.5
    ensures maxSignal == 0.0 && IsUnitDraw(noiseDraw) ==> HEIGHT_BASELINE - 2.5 <= y
  {
    HEIGHT_BASELINE - (maxSignal * SCOPE_HEIGHT * 0.4) + (noiseDraw - 0.5) * 5.0
  }

  /** The point drawn for column `k`. */
  function HeightPoint(m: MathFns, targets: seq<Target>, goniometer: real, frequency: real, mode: bool,
                       k: nat, noiseDraw: real): Point
    requires m.Lawful() && frequency > 0.0
  {
    Point(k as real, HeightY(PeakHeightSignal(m, targets, goniometer, ProbeElevation(k), frequency, mode), noiseDraw))
  }

  /** One probe column: scan the targets, then place the point. */
  method DrawHeightColumn(m: MathFns, targets: seq<Target>, goniometer: real, frequency: real, mode: bool,
                          x: nat, noiseDraw: real) returns (p: Point)
    requires m.Lawful() && frequency > 0.0
    ensures p == HeightPoint(m, targets, goniometer, frequency, mode, x, noiseDraw)
  {
    var maxSignal := ScanElevation(m, targets, goniometer, x, frequency, mode);
    p := Point(x as real, HeightY(maxSignal, noiseDraw));
  }

  /** The trace part of `drawHeightFindingTrace`: nothing when unpowered or
      out of height-finding mode, otherwise the start point and one point for
      each of the `SWEEP_WIDTH` columns.  `noise` holds the per-column draws. */
  method DrawHeightTrace(m: MathFns, targets: seq<Target>, goniometer: real, frequency: real,
                         powered: bool, mode: bool, noise: seq<real>) returns (trace: Option<seq<Point>>)
    requires m.Lawful() && frequency > 0.0
    requires |noise| >= 1200
    ensures trace.None? <==> !powered || !mode
    ensures trace.Some? ==> |trace.value| == 1201 && trace.value[0] == Point(0.0, HEIGHT_BASELINE)
    ensures trace.Some? ==> forall k :: 0 <= k < 1200 ==>
      trace.value[k + 1] == HeightPoint(m, targets, goniometer, frequency, mode, k, noise[k])
  {
    if !powered || !mode {
      return None;
    }
    var points := [Point(0.0, HEIGHT_BASELINE)];
    var x: nat := 0;
    while x < 1200
      invariant x <= 1200
      invariant |points| == 1 + x
      invariant points[0] == Point(0.0, HEIGHT_BASELINE)
      invariant forall k :: 0 <= k < x ==> points[k + 1] == HeightPoint(m, targets, goniometer, frequency, mode, k, noise[k])
    {
      var p := DrawHeightColumn(m, targets, goniometer, frequency, mode, x, noise[x]);
      points := points + [p];
      x := x + 1;
    }
    trace := Some(points);
  }

  /** The two 15-degree gates disagree: a target exactly 15 degrees off
      bearing never enters the trace, although the height-finding signal
      itself lets it through. */
  lemma FifteenDegreeGatesDisagree(m: MathFns, t: Target, goniometer: real, elevation: real, frequency: real)
    requires m.Lawful() && frequency > 0.0 && BearingOffset(m, t, goniometer) == 15.0
    ensures !HeightContributes(m, t, goniometer, elevation)
    ensures HeightFindingSignal(m, t, goniometer, elevation, frequency, true)
         == ElevationResponse(m, t, elevation, frequency)
  {
  }

  /** The theoretical lobe curve at column `x`, for a 110 m transmitter:
      `SCOPE_HEIGHT / 2 - pattern * SCOPE_HEIGHT / 4` with the pattern a
      squared sine. */
  function LobeY(m: MathFns, frequency: real, x: nat): (y: real)
    requires m.Lawful() && frequency > 0.0
    ensures SCOPE_HEIGHT / 4.0 <= y <= SCOPE_HEIGHT / 2.0
  {
    var elevationRad := (x as real / SWEEP_WIDTH) * (m.pi / 2.0);
    var wavelength := Wavelength(frequency);
    var antennaHeight := 110.0;
    var s := m.sin(2.0 * m.pi * antennaHeight * m.sin(elevationRad) / wavelength);
    SqUnitBound(s);
    var pattern := Sq(s);
    SCOPE_HEIGHT / 2.0 - (pattern * SCOPE_HEIGHT / 4.0)
  }

  /** `(SCOPE_HEIGHT / 2) * (1 - v / 90)`: the y of the vertical-goniometer
      line, also used for the elevation scale. */
  function GoniometerY(v: real): (y: real)
    ensures 0.0 <= v <= 90.0 ==> 0.0 <= y <= SCOPE_HEIGHT / 2.0
  {
    (SCOPE_HEIGHT / 2.0) * (1.0 - v / 90.0)
  }

  /** A higher setting draws higher up: 0 degrees on the bottom edge of the
      half-height display, 90 degrees on its top. */
  lemma GoniometerYDecreasing(v1: real, v2: real)
    requires v1 < v2
    ensures GoniometerY(v2) < GoniometerY(v1)
    ensures GoniometerY(0.0) == SCOPE_HEIGHT / 2.0 && GoniometerY(90.0) == 0.0
  {
  }
}
