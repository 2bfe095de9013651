/** The A-scope: the range trace the operator reads, built column by column
    from the strongest echo near each pixel's range, and the phosphor
    persistence buffer of the last three frames drawn after the sweep
    reached the right edge. */
module AScope {
  import opened Wrappers
  import opened JsMath
  import opened Constants
  import opened TargetManager
  import opened SignalProcessor

  datatype Point = Point(x: real, y: real)

  /** One stored sweep; `timestamp` is the `Date.now()` of the store. */
  datatype Trace = Trace(points: seq<Point>, timestamp: int)

  /** `SCOPE_HEIGHT * 0.8` */
  const BASELINE: real := SCOPE_HEIGHT * 0.8

  /** The range in miles of pixel column `x`. */
  function PixelRange(x: nat): (r: real)
    ensures r == x as real * RADAR_RANGE / SWEEP_WIDTH
    ensures x as real <= SWEEP_WIDTH ==> 0.0 <= r <= RADAR_RANGE
  {
    (x as real / SWEEP_WIDTH) * RADAR_RANGE
  }

  /** A target echoes at a column when its range is within 2 miles. */
  predicate Contributes(m: MathFns, t: Target, pixelRange: real) {
    Abs(Range(m, t) - pixelRange) < 2.0
  }

  /** `1 - rangeDiff / 2`: full weight on the target's range, falling
      towards 0 two miles away. */
  function PeakFactor(rangeDiff: real): (r: real)
    requires 0.0 <= rangeDiff < 2.0
    ensures 0.0 < r <= 1.0
    ensures r == 1.0 <==> rangeDiff == 0.0
  {
    1.0 - rangeDiff / 2.0
  }

  /** The echo of a contributing target at a column: its signal strength
      weighted by the peak factor. */
  function WeightedSignal(m: MathFns, t: Target, pixelRange: real, goniometer: real, frequency: real): (r: real)
    requires m.Lawful() && t.wingspan > 0.0 && frequency > 0.0
    requires Contributes(m, t, pixelRange)
    ensures 0.0 <= r <= SignalStrength(m, t, goniometer, frequency)
  {
    var signal := SignalStrength(m, t, goniometer, frequency);
    var peakFactor := PeakFactor(Abs(Range(m, t) - pixelRange));
    UnitScale(peakFactor, signal);
    signal * peakFactor
  }

  /** The `maxSignal` the `forEach` over `targets` leaves for a column:
      starting from 0, each contributing target whose echo is larger
      replaces it. */
  function PeakSignal(m: MathFns, targets: seq<Target>, pixelRange: real, goniometer: real, frequency: real): (r: real)
    requires m.Lawful() && WingspansPositive(targets) && frequency > 0.0
    ensures r >= 0.0
    decreases |targets|
  {
    if targets == [] then 0.0
    else
      var n := |targets| - 1;
      var before := PeakSignal(m, targets[..n], pixelRange, goniometer, frequency);
      var t := targets[n];
      if Contributes(m, t, pixelRange) && WeightedSignal(m, t, pixelRange, goniometer, frequency) > before
      then WeightedSignal(m, t, pixelRange, goniometer, frequency)
      else before
  }

  /** The maximum is at least the echo of every contributing target. */
  lemma {:induction false} PeakSignalDominates(m: MathFns, targets: seq<Target>, pixelRange: real,
                                               goniometer: real, frequency: real)
    requires m.Lawful() && WingspansPositive(targets) && frequency > 0.0
    ensures forall i :: 0 <= i < |targets| && Contributes(m, targets[i], pixelRange) ==>
      WeightedSignal(m, targets[i], pixelRange, goniometer, frequency)
      <= PeakSignal(m, targets, pixelRange, goniometer, frequency)
    decreases |targets|
  {
    if targets != [] {
      var n := |targets| - 1;
      var front := targets[..n];
      PeakSignalDominates(m, front, pixelRange, goniometer, frequency);
      var r := PeakSignal(m, targets, pixelRange, goniometer, frequency);
      var before := PeakSignal(m, front, pixelRange, goniometer, frequency);
      assert before <= r;
      forall i | 0 <= i < n
        ensures targets[i] == front[i]
      {
      }
    }
  }

  /** A non-zero maximum is the echo of one of the contributing targets. */
  lemma {:induction false} PeakSignalAttained(m: MathFns, targets: seq<Target>, pixelRange: real,
                                              goniometer: real, frequency: real)
    requires m.Lawful() && WingspansPositive(targets) && frequency > 0.0
    ensures var r := PeakSignal(m, targets, pixelRange, goniometer, frequency);
      r == 0.0 || exists i :: (0 <= i < |targets| && Contributes(m, targets[i], pixelRange) &&
        r == WeightedSignal(m, targets[i], pixelRange, goniometer, frequency))
    decreases |targets|
  {
    if targets != [] {
      var n := |targets| - 1;
      var front := targets[..n];
      PeakSignalAttained(m, front, pixelRange, goniometer, frequency);
      var before := PeakSignal(m, front, pixelRange, goniometer, frequency);
      var r := PeakSignal(m, targets, pixelRange, goniometer, frequency);
      if r != 0.0 && r == before {
        var i :| 0 <= i < |front| && Contributes(m, front[i], pixelRange) &&
          before == WeightedSignal(m, front[i], pixelRange, goniometer, frequency);
        assert front[i] == targets[i];
      }
    }
  }

  /** No echo near a column leaves it at 0. */
  lemma {:induction false} PeakSignalWithoutContributors(m: MathFns, targets: seq<Target>, pixelRange: real,
                                                        goniometer: real, frequency: real)
    requires m.Lawful() && WingspansPositive(targets) && frequency > 0.0
    requires forall i :: 0 <= i < |targets| ==> !Contributes(m, targets[i], pixelRange)
    ensures PeakSignal(m, targets, pixelRange, goniometer, frequency) == 0.0
  {
    if targets != [] {
      PeakSignalWithoutContributors(m, targets[..|targets| - 1], pixelRange, goniometer, frequency);
    }
  }

  /** One more target either raises the column's maximum to its own echo or
      leaves it. */
  lemma PeakSignalStep(m: MathFns, targets: seq<Target>, i: nat, pixelRange: real, goniometer: real, frequency: real)
    requires m.Lawful() && WingspansPositive(targets) && frequency > 0.0 && i < |targets|
    ensures var before := PeakSignal(m, targets[..i], pixelRange, goniometer, frequency);
      PeakSignal(m, targets[..i + 1], pixelRange, goniometer, frequency)
      == if Contributes(m, targets[i], pixelRange) && WeightedSignal(m, targets[i], pixelRange, goniometer, frequency) > before
         then WeightedSignal(m, targets[i], pixelRange, goniometer, frequency)
         else before
  {
    assert targets[..i + 1][..i] == targets[..i];
    assert targets[..i + 1][i] == targets[i];
  }

  /** The inner `targets.forEach` of one column: returns `maxSignal` and
      `peakX`, which is only ever set to `x` itself. */
  method ScanColumn(m: MathFns, targets: seq<Target>, x: nat, goniometer: real, frequency: real)
    returns (maxSignal: real, peakX: nat)
    requires m.Lawful() && WingspansPositive(targets) && frequency > 0.0
    ensures maxSignal == PeakSignal(m, targets, PixelRange(x), goniometer, frequency)
    ensures peakX == x
  {
    var range := PixelRange(x);
    maxSignal := 0.0;
    peakX := x;
    var i := 0;
    while i < |targets|
      invariant 0 <= i <= |targets|
      invariant maxSignal == PeakSignal(m, targets[..i], range, goniometer, frequency)
      invariant peakX == x
    {
      var target := targets[i];
      PeakSignalStep(m, targets, i, range, goniometer, frequency);
      if Contributes(m, target, range) {
        var signal := WeightedSignal(m, target, range, goniometer, frequency);
        if signal > maxSignal {
          maxSignal := signal;
          peakX := x;
        }
      }
      i := i + 1;
    }
    assert targets[..|targets|] == targets;
  }

  /** The y of column `x`: the baseline plus noise, lifted into a peak of
      `maxSignal * SCOPE_HEIGHT * 0.35` within half a pixel of `peakX`.
      `noiseDraw` is the column's `Math.random()` draw. */
  function ColumnY(x: real, peakX: real, maxSignal: real, noiseDraw: real): real {
    var baselineNoise := (noiseDraw - 0.5) * 8.5;
    var y := BASELINE + baselineNoise;
    if maxSignal > 0.0 then
      var peakHeight := maxSignal * SCOPE_HEIGHT * 0.35;
      var distFromPeak := Abs(x - peakX);
      if distFromPeak < 0.5 then BASELINE - (peakHeight * (1.0 - distFromPeak / 0.5)) + baselineNoise
      else y
    else y
  }

  /** Since `peakX` is always the column itself, every column with an echo
      gets the full peak height, and every other column sits on the noisy
      baseline. */
  lemma ColumnAtItsOwnPeak(x: real, maxSignal: real, noiseDraw: real)
    ensures maxSignal > 0.0 ==>
      ColumnY(x, x, maxSignal, noiseDraw) == BASELINE - 0.35 * SCOPE_HEIGHT * maxSignal + (noiseDraw - 0.5) * 8.5
    ensures maxSignal <= 0.0 ==> ColumnY(x, x, maxSignal, noiseDraw) == BASELINE + (noiseDraw - 0.5) * 8.5
  {
  }

  /** The point `drawTrace` pushes for column `k`. */
  function ColumnPoint(m: MathFns, targets: seq<Target>, goniometer: real, frequency: real, k: nat, noiseDraw: real): Point
    requires m.Lawful() && WingspansPositive(targets) && frequency > 0.0
  {
    Point(k as real, ColumnY(k as real, k as real, PeakSignal(m, targets, PixelRange(k), goniometer, frequency), noiseDraw))
  }

  /** The number of integer columns `x >= 0` with `x < sweepPosition`. */
  function Columns(sweepPosition: real): (n: nat)
    ensures n as real >= sweepPosition
    ensures n > 0 ==> ((n - 1) as real) < sweepPosition
  {
    if sweepPosition <= 0.0 then 0 else -((-sweepPosition).Floor)
  }

  /** What `drawTrace` builds as `currentTrace`: a start point on the
      baseline, one point per integer column below the sweep position, and,
      while the sweep is unfinished, an end point on the baseline at the
      right edge. */
  ghost predicate IsSweepTrace(m: MathFns, targets: seq<Target>, goniometer: real, frequency: real,
                               sweepPosition: real, noise: seq<real>, trace: seq<Point>)
    requires m.Lawful() && WingspansPositive(targets) && frequency > 0.0
    requires |noise| >= Columns(sweepPosition)
  {
    var n := Columns(sweepPosition);
    && |trace| == 1 + n + (if sweepPosition < SWEEP_WIDTH then 1 else 0)
    && trace[0] == Point(0.0, BASELINE)
    && (forall k :: 0 <= k < n ==>
         trace[k + 1] == ColumnPoint(m, targets, goniometer, frequency, k, noise[k]))
    && (sweepPosition < SWEEP_WIDTH ==> trace[|trace| - 1] == Point(SWEEP_WIDTH, BASELINE))
  }

  /** One column of the trace: scan the targets, then place the point. */
  method DrawColumn(m: MathFns, targets: seq<Target>, goniometer: real, frequency: real, x: nat, noiseDraw: real)
    returns (p: Point)
    requires m.Lawful() && WingspansPositive(targets) && frequency > 0.0
    ensures p == ColumnPoint(m, targets, goniometer, frequency, x, noiseDraw)
  {
    var maxSignal, peakX := ScanColumn(m, targets, x, goniometer, frequency);
    var y := ColumnY(x as real, peakX as real, maxSignal, noiseDraw);
    p := Point(x as real, y);
  }

  /** The trace-building part of `drawTrace`; `noise` holds one
      `Math.random()` draw per column. */
  method DrawTrace(m: MathFns, targets: seq<Target>, goniometer: real, frequency: real,
                   sweepPosition: real, noise: seq<real>) returns (trace: seq<Point>)
    requires m.Lawful() && WingspansPositive(targets) && frequency > 0.0
    requires |noise| >= Columns(sweepPosition)
    ensures IsSweepTrace(m, targets, goniometer, frequency, sweepPosition, noise, trace)
  {
    var n := Columns(sweepPosition);
    trace := [Point(0.0, BASELINE)];
    var x: nat := 0;
    while (x as real) < sweepPosition
      invariant x <= n
      invariant |trace| == 1 + x
      invariant trace[0] == Point(0.0, BASELINE)
      invariant forall k :: 0 <= k < x ==>
        trace[k + 1] == ColumnPoint(m, targets, goniometer, frequency, k, noise[k])
      decreases n - x
    {
      var p := DrawColumn(m, targets, goniometer, frequency, x, noise[x]);
      trace := trace + [p];
      x := x + 1;
    }
    assert x == n;
    if sweepPosition < SWEEP_WIDTH {
      trace := trace + [Point(SWEEP_WIDTH, BASELINE)];
    }
  }

  /** `setPreviousTraces(prev => ...)`: append the new trace, then drop the
      oldest when there are more than `MAX_PREVIOUS_TRACES`. */
  function PushTrace(prev: seq<Trace>, t: Trace): (r: seq<Trace>)
    ensures |r| > 0 && r[|r| - 1] == t
    ensures |prev| < MAX_PREVIOUS_TRACES ==> r[..|r| - 1] == prev
    ensures |prev| >= MAX_PREVIOUS_TRACES ==> r[..|r| - 1] == prev[1..]
  {
    var newTraces := prev + [t];
    if |newTraces| > MAX_PREVIOUS_TRACES then newTraces[1..] else newTraces
  }

  /** A buffer that held at most `MAX_PREVIOUS_TRACES` still does; a buffer
      below the cap grows by one, a full one keeps its length. */
  lemma PushTraceBounded(prev: seq<Trace>, t: Trace)
    ensures |prev| <= MAX_PREVIOUS_TRACES ==> |PushTrace(prev, t)| <= MAX_PREVIOUS_TRACES
    ensures |prev| < MAX_PREVIOUS_TRACES ==> |PushTrace(prev, t)| == |prev| + 1
    ensures |prev| >= MAX_PREVIOUS_TRACES ==> |PushTrace(prev, t)| == |prev|
  {
  }

  /** On overflow exactly the oldest trace goes; the others move up one
      place in order. */
  lemma PushTraceDropsOldest(prev: seq<Trace>, t: Trace)
    requires |prev| >= MAX_PREVIOUS_TRACES
    ensures forall i :: 0 <= i < |prev| - 1 ==> PushTrace(prev, t)[i] == prev[i + 1]
  {
    var r := PushTrace(prev, t);
    forall i | 0 <= i < |prev| - 1
      ensures r[i] == prev[i + 1]
    {
      assert r[..|r| - 1][i] == prev[1..][i];
    }
  }

  /** One animation frame of the A-scope: nothing is drawn when unpowered;
      otherwise the current trace is built and, once the sweep has reached
      the right edge, stored in the persistence buffer. */
  method Frame(m: MathFns, targets: seq<Target>, goniometer: real, powered: bool, sweepPosition: real,
               frequency: real, prev: seq<Trace>, noise: seq<real>, now: int)
    returns (current: Option<seq<Point>>, traces: seq<Trace>)
    requires m.Lawful() && WingspansPositive(targets) && frequency > 0.0
    requires |noise| >= Columns(sweepPosition)
    ensures current.None? <==> !powered
    ensures !powered ==> traces == prev
    ensures powered ==> IsSweepTrace(m, targets, goniometer, frequency, sweepPosition, noise, current.value)
    ensures powered && sweepPosition >= SWEEP_WIDTH ==> traces == PushTrace(prev, Trace(current.value, now))
    ensures powered && sweepPosition < SWEEP_WIDTH ==> traces == prev
  {
    if !powered {
      return None, prev;
    }
    var trace := DrawTrace(m, targets, goniometer, frequency, sweepPosition, noise);
    current := Some(trace);
    traces := prev;
    if sweepPosition >= SWEEP_WIDTH {
      traces := PushTrace(prev, Trace(trace, now));
    }
  }

  /** `0.3 * (1 - index / MAX_PREVIOUS_TRACES)`: the opacity of stored trace
      `index`. */
  function Opacity(index: nat): real {
    0.3 * (1.0 - (index as real / MAX_PREVIOUS_TRACES as real))
  }

  /** Every stored trace is drawn with positive opacity, and later entries
      fainter than earlier ones; the first has 0.3. */
  lemma OpacityPositiveDecreasing(i: nat, j: nat)
    requires i < j < MAX_PREVIOUS_TRACES
    ensures 0.0 < Opacity(j) < Opacity(i) <= 0.3
    ensures Opacity(0) == 0.3
  {
  }
}
