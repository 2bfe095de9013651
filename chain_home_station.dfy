/** The `ChainHomeStation` component: its state cells, the power effect
    (seed raids on power-on, clear the scopes on power-off), the 2-second
    sweep animation and the 0.1-second movement tick that tops up with one
    new raid when fewer than two remain. */
module ChainHomeStation {
  import opened Wrappers
  import opened JsMath
  import opened Constants
  import opened TargetManager
  import opened AScope

  /** `UPDATE_RATE` of the movement effect, in seconds per tick. */
  const UPDATE_RATE: real := 0.1

  /** `sweepDuration`, in milliseconds. */
  const SWEEP_DURATION: real := 2000.0

  /** The `Math.random()` draws of one spawn: the range draw (whose square
      root is taken), the bearing draw and those of `createTarget`. */
  datatype SpawnDraws = SpawnDraws(range: real, bearing: real, create: CreateDraws)

  predicate IsUnitSpawnDraws(d: SpawnDraws) {
    IsUnitDraw(d.range) && IsUnitDraw(d.bearing) && IsUnitCreateDraws(d.create)
  }

  predicate AllUnitSpawnDraws(ds: seq<SpawnDraws>) {
    forall i :: 0 <= i < |ds| ==> IsUnitSpawnDraws(ds[i])
  }

  /** `Math.sqrt(Math.random()) * RADAR_RANGE` */
  function SpawnRange(m: MathFns, r: real): (range: real)
    requires m.Lawful() && IsUnitDraw(r)
    ensures 0.0 <= range < RADAR_RANGE
  {
    SqrtOfOne(m);
    m.sqrt(r) * RADAR_RANGE
  }

  /** `110 + Math.random() * 100` */
  function SpawnBearing(r: real): (bearing: real)
    requires IsUnitDraw(r)
    ensures 110.0 <= bearing < 210.0
  {
    110.0 + r * 100.0
  }

  /** `createTarget(range, bearing)` at a random range and bearing, with the
      shipped aircraft table. */
  function Spawn(m: MathFns, d: SpawnDraws): (r: Result<Target, string>)
    requires m.Lawful() && IsUnitSpawnDraws(d)
    ensures r.Failure? <==> IsEscortMission(d.create)
    ensures r.Success? ==>
      BuiltFrom(m, r.value, AIRCRAFT_TYPES[0], SpawnRange(m, d.range), SpawnBearing(d.bearing), false)
    ensures r.Success? ==> r.value.wingspan > 0.0
  {
    ShippedTableCreate(m, SpawnRange(m, d.range), SpawnBearing(d.bearing), d.create);
    var picked := PickType(AIRCRAFT_TYPES, d.create);
    assert picked.Some? ==> picked.value == AIRCRAFT_TYPES[0];
    CreateTarget(m, AIRCRAFT_TYPES, SpawnRange(m, d.range), SpawnBearing(d.bearing), d.create)
  }

  /** `1 + Math.floor(Math.random() * 5)` */
  function SeedCount(r: real): (n: nat)
    requires IsUnitDraw(r)
    ensures 1 <= n <= 5
  {
    1 + ScaledFloor(r, 5)
  }

  /** The raids were spawned, in order, from the draws. */
  ghost predicate SpawnedFrom(m: MathFns, ts: seq<Target>, ds: seq<SpawnDraws>)
    requires m.Lawful() && AllUnitSpawnDraws(ds)
  {
    |ts| == |ds| && forall i :: 0 <= i < |ds| ==> Spawn(m, ds[i]) == Success(ts[i])
  }

  /** No draw asks for an escort mission, so every spawn succeeds. */
  predicate NoEscortMission(ds: seq<SpawnDraws>) {
    forall i :: 0 <= i < |ds| ==> !IsEscortMission(ds[i].create)
  }

  /** The seeding `for` loop: push one spawned raid per draw. It fails, as
      the source throws, at the first escort draw. */
  method Seed(m: MathFns, spawns: seq<SpawnDraws>) returns (r: Result<seq<Target>, string>)
    requires m.Lawful() && AllUnitSpawnDraws(spawns)
    ensures r.Success? <==> NoEscortMission(spawns)
    ensures r.Success? ==> SpawnedFrom(m, r.value, spawns)
  {
    var newTargets: seq<Target> := [];
    var i := 0;
    while i < |spawns|
      invariant 0 <= i <= |spawns|
      invariant NoEscortMission(spawns[..i])
      invariant SpawnedFrom(m, newTargets, spawns[..i])
    {
      var t := Spawn(m, spawns[i]);
      if t.Failure? {
        assert !NoEscortMission(spawns);
        return Failure(t.error);
      }
      newTargets := newTargets + [t.value];
      assert spawns[..i + 1] == spawns[..i] + [spawns[i]];
      i := i + 1;
    }
    assert spawns[..i] == spawns;
    return Success(newTargets);
  }

  /** The movement tick's state update: `updateTargets(current, 0.1)`,
      topped up with one new raid when fewer than two remain. */
  function MovementStep(m: MathFns, current: seq<Target>, spawn: SpawnDraws): (r: Result<seq<Target>, string>)
    requires m.Lawful() && IsUnitSpawnDraws(spawn)
    ensures var moved := UpdateTargets(m, current, UPDATE_RATE);
      && (r.Failure? <==> |moved| < 2 && IsEscortMission(spawn.create))
      && (r.Success? && |moved| >= 2 ==> r.value == moved)
      && (r.Success? && |moved| < 2 ==> r.value == moved + [Spawn(m, spawn).value])
  {
    var moved := UpdateTargets(m, current, UPDATE_RATE);
    if |moved| < 2 then
      match Spawn(m, spawn)
      case Failure(e) => Failure(e)
      case Success(t) => Success(moved + [t])
    else Success(moved)
  }

  /** After a tick the scopes show the moved survivors, in order, then at
      most one new raid: the list is non-empty and at most one longer than
      the survivors. */
  lemma MovementStepKeepsSurvivors(m: MathFns, current: seq<Target>, spawn: SpawnDraws)
    requires m.Lawful() && IsUnitSpawnDraws(spawn)
    requires MovementStep(m, current, spawn).Success?
    ensures var r := MovementStep(m, current, spawn).value;
      var survivors := Survivors(m, current);
      && 0 < |r| <= |survivors| + 1
      && |survivors| <= |r|
      && r[..|survivors|] == Advance(m, survivors, UPDATE_RATE)
  {
    UpdateTargetsMovesSurvivors(m, current, UPDATE_RATE);
    var r := MovementStep(m, current, spawn).value;
    var moved := UpdateTargets(m, current, UPDATE_RATE);
    assert r[..|moved|] == moved;
  }

  /** `Math.min(elapsed / sweepDuration, 1)` */
  function SweepProgress(elapsed: real): (p: real)
    ensures p <= 1.0
    ensures elapsed >= 0.0 ==> 0.0 <= p
    ensures p == 1.0 <==> elapsed >= SWEEP_DURATION
  {
    Min(elapsed / SWEEP_DURATION, 1.0)
  }

  /** `SWEEP_WIDTH * progress`: the sweep position `elapsed` milliseconds
      after power-on. */
  function SweepPositionAt(elapsed: real): (p: real)
    ensures elapsed >= 0.0 ==> 0.0 <= p <= SWEEP_WIDTH
    ensures elapsed >= SWEEP_DURATION ==> p == SWEEP_WIDTH
  {
    SWEEP_WIDTH * SweepProgress(elapsed)
  }

  /** The sweep never moves backwards. */
  lemma SweepMonotone(a: real, b: real)
    requires a <= b
    ensures SweepPositionAt(a) <= SweepPositionAt(b)
  {
  }

  /** The simulation state of one station. */
  class Station {
    const math: MathFns
    var powered: bool
    var traceVisible: bool
    var showAnalysis: bool
    var goniometerAngle: real
    var targets: seq<Target>
    var sweepPosition: real
    var previousTraces: seq<Trace>
    var selectedFrequency: real
    var heightFindingMode: bool
    var verticalGoniometer: real

    /** The invariant every step keeps: the sweep stays on the scope, all
        raids can be echoed, at most `MAX_PREVIOUS_TRACES` traces persist,
        and a station that is off shows nothing. */
    ghost predicate Valid()
      reads this
    {
      && math.Lawful()
      && 0.0 <= sweepPosition <= SWEEP_WIDTH
      && WingspansPositive(targets)
      && selectedFrequency > 0.0
      && |previousTraces| <= MAX_PREVIOUS_TRACES
      && (!powered ==> targets == [] && sweepPosition == 0.0 && !traceVisible)
    }

    /** The operator's settings are left alone by every effect and interval
        callback; only the controls change them. */
    twostate predicate SettingsKept()
      reads this
    {
      && goniometerAngle == old(goniometerAngle)
      && selectedFrequency == old(selectedFrequency)
      && verticalGoniometer == old(verticalGoniometer)
      && heightFindingMode == old(heightFindingMode)
      && showAnalysis == old(showAnalysis)
    }

    /** The initial state, before the power effect first runs. */
    constructor (m: MathFns)
      requires m.Lawful()
      ensures Valid() && math == m
      ensures powered && traceVisible && !showAnalysis
      ensures goniometerAngle == 160.0 && selectedFrequency == 20.0
      ensures verticalGoniometer == 45.0 && !heightFindingMode
      ensures targets == [] && sweepPosition == 0.0 && previousTraces == []
    {
      math := m;
      powered := true;
      traceVisible := true;
      showAnalysis := false;
      goniometerAngle := 160.0;
      targets := [];
      sweepPosition := 0.0;
      previousTraces := [];
      selectedFrequency := 20.0;
      heightFindingMode := false;
      verticalGoniometer := 45.0;
    }

    /** The power effect with `isPowered` true (on mount, or when the
        station is switched on): seed `SeedCount(countDraw)` raids and reset
        the sweep.  `ok` is false when seeding throws; the state is then
        left as it was. */
    method PowerOn(countDraw: real, spawns: seq<SpawnDraws>) returns (ok: bool)
      requires Valid() && IsUnitDraw(countDraw) && AllUnitSpawnDraws(spawns)
      requires |spawns| >= SeedCount(countDraw)
      modifies this
      ensures Valid() && powered
      ensures var used := spawns[..SeedCount(countDraw)];
        && (ok <==> NoEscortMission(used))
        && (ok ==> SpawnedFrom(math, targets, used) && sweepPosition == 0.0)
      ensures !ok ==> targets == old(targets) && sweepPosition == old(sweepPosition)
      ensures traceVisible == old(traceVisible) && previousTraces == old(previousTraces)
      ensures SettingsKept()
    {
      powered := true;
      var used := spawns[..SeedCount(countDraw)];
      var seeded := Seed(math, used);
      if seeded.Failure? {
        return false;
      }
      forall i | 0 <= i < |seeded.value|
        ensures seeded.value[i].wingspan > 0.0
      {
        assert Spawn(math, used[i]) == Success(seeded.value[i]);
      }
      targets := seeded.value;
      sweepPosition := 0.0;
      ok := true;
    }

    /** The power effect with `isPowered` false: hide the trace, reset the
        sweep and clear the raids. */
    method PowerOff()
      requires Valid()
      modifies this
      ensures Valid() && !powered
      ensures !traceVisible && sweepPosition == 0.0 && targets == []
      ensures previousTraces == old(previousTraces)
      ensures SettingsKept()
    {
      powered := false;
      traceVisible := false;
      sweepPosition := 0.0;
      targets := [];
    }

    /** One 16 ms sweep-interval callback, `elapsed` milliseconds after the
        power effect started; the interval only exists while powered. */
    method Sweep(elapsed: real)
      requires Valid() && elapsed >= 0.0
      modifies this
      ensures Valid()
      ensures powered == old(powered) && targets == old(targets) && previousTraces == old(previousTraces)
      ensures SettingsKept()
      ensures !powered ==> sweepPosition == old(sweepPosition) && traceVisible == old(traceVisible)
      ensures powered ==> sweepPosition == SweepPositionAt(elapsed)
      ensures powered ==> traceVisible == (old(traceVisible) || elapsed >= SWEEP_DURATION)
    {
      if powered {
        var progress := SweepProgress(elapsed);
        sweepPosition := SWEEP_WIDTH * progress;
        if progress >= 1.0 {
          traceVisible := true;
        }
      }
    }

    /** One movement-interval callback.  No tick happens while unpowered.
        `ok` is false when the top-up spawn throws; the raids are then left
        as they were. */
    method Tick(spawn: SpawnDraws) returns (ok: bool)
      requires Valid() && IsUnitSpawnDraws(spawn)
      modifies this
      ensures Valid()
      ensures powered == old(powered) && sweepPosition == old(sweepPosition)
      ensures traceVisible == old(traceVisible) && previousTraces == old(previousTraces)
      ensures SettingsKept()
      ensures !powered ==> ok && targets == old(targets)
      ensures powered ==> (ok <==> MovementStep(math, old(targets), spawn).Success?)
      ensures powered && ok ==> targets == MovementStep(math, old(targets), spawn).value
      ensures !ok ==> targets == old(targets)
    {
      if !powered {
        return true;
      }
      UpdateKeepsWingspans(math, targets, UPDATE_RATE);
      var newTargets := UpdateTargets(math, targets, UPDATE_RATE);
      if |newTargets| < 2 {
        var t := Spawn(math, spawn);
        if t.Failure? {
          return false;
        }
        newTargets := newTargets + [t.value];
      }
      targets := newTargets;
      ok := true;
    }

    /** One A-scope animation frame: draw the current trace and, once the
        sweep is complete, store it in the persistence buffer. */
    method RefreshAScope(noise: seq<real>, now: int) returns (current: Option<seq<Point>>)
      requires Valid() && |noise| >= Columns(sweepPosition)
      modifies this
      ensures Valid()
      ensures powered == old(powered) && targets == old(targets) && sweepPosition == old(sweepPosition)
      ensures traceVisible == old(traceVisible) && SettingsKept()
      ensures current.None? <==> !powered
      ensures powered ==> IsSweepTrace(math, targets, old(goniometerAngle), old(selectedFrequency),
                                       sweepPosition, noise, current.value)
      ensures powered && sweepPosition >= SWEEP_WIDTH ==>
        previousTraces == PushTrace(old(previousTraces), Trace(current.value, now))
      ensures !(powered && sweepPosition >= SWEEP_WIDTH) ==> previousTraces == old(previousTraces)
    {
      var traces;
      current, traces := Frame(math, targets, goniometerAngle, powered, sweepPosition,
                               selectedFrequency, previousTraces, noise, now);
      if powered && sweepPosition >= SWEEP_WIDTH {
        PushTraceBounded(previousTraces, Trace(current.value, now));
      }
      previousTraces := traces;
    }
  }
}
