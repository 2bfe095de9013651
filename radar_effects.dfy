/** The stand-alone hooks of `radarEffects.js`: `usePowerState` (which also
    clears the persistence buffer on power-off), `useTargetMovement` (whose
    top-up is gated by a 30 % draw), `usePhosphorPersistence`,
    `useRadioInterference` and the defaults `useRadar` starts from. */
module RadarEffects {
  import opened Wrappers
  import opened JsMath
  import opened Constants
  import opened TargetManager
  import opened AScope
  import opened ChainHomeStation

  /** `initialState` of `useRadar`; `None` is a missing property. */
  datatype InitialState = InitialState(
    isPowered: Option<bool>,
    selectedFrequency: Option<real>,
    goniometerAngle: Option<real>,
    heightFindingMode: Option<bool>,
    verticalGoniometer: Option<real>,
    showAnalysis: Option<bool>)

  /** The settings `useRadar` starts with. */
  datatype Settings = Settings(
    isPowered: bool,
    selectedFrequency: real,
    goniometerAngle: real,
    heightFindingMode: bool,
    verticalGoniometer: real,
    showAnalysis: bool)

  /** JavaScript `value || fallback` for a boolean property. */
  function OrBool(value: Option<bool>, fallback: bool): (r: bool)
    ensures r <==> (value == Some(true) || fallback)
  {
    if value.Some? && value.value then true else fallback
  }

  /** JavaScript `value || fallback` for a number: 0 is falsy. */
  function OrNumber(value: Option<real>, fallback: real): (r: real)
    ensures value.Some? && value.value != 0.0 ==> r == value.value
    ensures value.None? || value.value == 0.0 ==> r == fallback
  {
    if value.Some? && value.value != 0.0 then value.value else fallback
  }

  /** The `useState(initialState.x || default)` cells of `useRadar`. */
  function InitialSettings(init: InitialState): (s: Settings)
    ensures s.isPowered
    ensures s.heightFindingMode <==> init.heightFindingMode == Some(true)
    ensures s.showAnalysis <==> init.showAnalysis == Some(true)
    ensures s.selectedFrequency == OrNumber(init.selectedFrequency, 20.0)
    ensures s.goniometerAngle == OrNumber(init.goniometerAngle, 160.0)
    ensures s.verticalGoniometer == OrNumber(init.verticalGoniometer, 45.0)
  {
    Settings(
      isPowered := OrBool(init.isPowered, true),
      selectedFrequency := OrNumber(init.selectedFrequency, 20.0),
      goniometerAngle := OrNumber(init.goniometerAngle, 160.0),
      heightFindingMode := OrBool(init.heightFindingMode, false),
      verticalGoniometer := OrNumber(init.verticalGoniometer, 45.0),
      showAnalysis := OrBool(init.showAnalysis, false))
  }

  /** Asking for a station that starts switched off is ignored, and a
      vertical goniometer of 0 falls back to the default 45. */
  lemma FalsySettingsIgnored(init: InitialState)
    requires init.isPowered == Some(false) && init.verticalGoniometer == Some(0.0)
    ensures InitialSettings(init).isPowered
    ensures InitialSettings(init).verticalGoniometer == 45.0
  {
  }

  /** Without an initial state `useRadar` gets the component's defaults. */
  lemma EmptyInitialStateDefaults()
    ensures InitialSettings(InitialState(None, None, None, None, None, None))
         == Settings(true, 20.0, 160.0, false, 45.0, false)
  {
  }

  /** `useTargetMovement`'s update: `updateTargets(current, 0.1)`, topped up
      with one new raid only when fewer than two remain and the extra
      `Math.random()` draw is below 0.3. */
  function GatedMovementStep(m: MathFns, current: seq<Target>, gate: real, spawn: SpawnDraws)
    : (r: Result<seq<Target>, string>)
    requires m.Lawful() && IsUnitSpawnDraws(spawn)
    ensures var moved := UpdateTargets(m, current, UPDATE_RATE);
      var topUp := |moved| < 2 && gate < 0.3;
      && (r.Failure? <==> topUp && IsEscortMission(spawn.create))
      && (r.Success? && !topUp ==> r.value == moved)
      && (r.Success? && topUp ==> r.value == moved + [Spawn(m, spawn).value])
  {
    var moved := UpdateTargets(m, current, UPDATE_RATE);
    if |moved| < 2 && gate < 0.3 then
      match Spawn(m, spawn)
      case Failure(e) => Failure(e)
      case Success(t) => Success(moved + [t])
    else Success(moved)
  }

  /** A gated tick adds at most one raid after the moved survivors, and none
      when two or more survive or the draw is 0.3 or above. */
  lemma GatedStepAddsAtMostOne(m: MathFns, current: seq<Target>, gate: real, spawn: SpawnDraws)
    requires m.Lawful() && IsUnitSpawnDraws(spawn)
    requires GatedMovementStep(m, current, gate, spawn).Success?
    ensures var r := GatedMovementStep(m, current, gate, spawn).value;
      var survivors := Survivors(m, current);
      && |survivors| <= |r| <= |survivors| + 1
      && r[..|survivors|] == Advance(m, survivors, UPDATE_RATE)
      && (|r| == |survivors| + 1 ==> |survivors| < 2 && gate < 0.3)
  {
    UpdateTargetsMovesSurvivors(m, current, UPDATE_RATE);
    var r := GatedMovementStep(m, current, gate, spawn).value;
    var moved := UpdateTargets(m, current, UPDATE_RATE);
    assert r[..|moved|] == moved;
  }

  /** `usePhosphorPersistence`'s guard: the sweep is complete and there is a
      non-empty current trace. */
  predicate ShouldPersist(sweepPosition: real, currentTrace: Option<seq<Point>>) {
    sweepPosition >= SWEEP_WIDTH && currentTrace.Some? && |currentTrace.value| > 0
  }

  /** `Math.min(atmosphericNoise + randomJamming, 0.5)`: more atmospheric
      noise at low frequencies, more jamming at high ones.  `jamDraw` is the
      `Math.random()` draw. */
  function InterferenceLevel(frequency: real, jamDraw: real): (r: real)
    ensures r <= 0.5
    ensures 0.0 <= frequency <= 30.0 && jamDraw >= 0.0 ==> r >= 0.0
  {
    var atmosphericNoise := (30.0 - frequency) * 0.01;
    var randomJamming := jamDraw * 0.2 * (frequency / 20.0);
    if frequency >= 0.0 && jamDraw >= 0.0 then
      MulNonNegative(jamDraw * 0.2, frequency / 20.0);
      Min(atmosphericNoise + randomJamming, 0.5)
    else Min(atmosphericNoise + randomJamming, 0.5)
  }

  /** The uncapped sum `atmosphericNoise + randomJamming`. */
  function InterferenceSum(frequency: real, jamDraw: real): real {
    (30.0 - frequency) * 0.01 + jamDraw * 0.2 * (frequency / 20.0)
  }

  /** The level is the sum below the cap and exactly the cap from 0.5 on. */
  lemma InterferenceCap(frequency: real, jamDraw: real)
    ensures InterferenceSum(frequency, jamDraw) < 0.5 ==>
      InterferenceLevel(frequency, jamDraw) == InterferenceSum(frequency, jamDraw)
    ensures InterferenceLevel(frequency, jamDraw) == 0.5 <==> InterferenceSum(frequency, jamDraw) >= 0.5
  {
  }

  /** At a non-negative frequency a larger jamming draw never lowers the
      level. */
  lemma InterferenceJammingMonotone(frequency: real, j1: real, j2: real)
    requires frequency >= 0.0 && j1 <= j2
    ensures InterferenceLevel(frequency, j1) <= InterferenceLevel(frequency, j2)
  {
    MulNonNegative(j2 - j1, 0.2 * (frequency / 20.0));
    assert j2 * 0.2 * (frequency / 20.0) - j1 * 0.2 * (frequency / 20.0)
        == (j2 - j1) * (0.2 * (frequency / 20.0));
  }

  /** The state `useRadar` and the hooks it combines keep. */
  class Radar {
    const math: MathFns
    var powered: bool
    var selectedFrequency: real
    var goniometerAngle: real
    var heightFindingMode: bool
    var verticalGoniometer: real
    var showAnalysis: bool
    var interferenceLevel: real
    var targets: seq<Target>
    var sweepPosition: real
    var traceVisible: bool
    var previousTraces: seq<Trace>

    /** The invariant every step keeps; a radar that is off has no raids,
        no sweep, no trace and no stored traces. */
    ghost predicate Valid()
      reads this
    {
      && math.Lawful()
      && 0.0 <= sweepPosition <= SWEEP_WIDTH
      && WingspansPositive(targets)
      && |previousTraces| <= MAX_PREVIOUS_TRACES
      && interferenceLevel <= 0.5
      && (!powered ==> targets == [] && sweepPosition == 0.0 && !traceVisible && previousTraces == [])
    }

    /** The operator's settings are left alone by every effect and interval
        callback; only the controls change them. */
    twostate predicate SettingsKept()
      reads this
    {
      && goniometerAngle == old(goniometerAngle)
      && selectedFrequency == old(selectedFrequency)
      && verticalGoniometer == old(verticalGoniometer)
      && heightFindingMode == old(heightFindingMode)
      && showAnalysis == old(showAnalysis)
    }

    /** `useRadar(initialState)` before any effect runs. */
    constructor (m: MathFns, init: InitialState)
      requires m.Lawful()
      ensures Valid() && math == m
      ensures var s := InitialSettings(init);
        && powered == s.isPowered && selectedFrequency == s.selectedFrequency
        && goniometerAngle == s.goniometerAngle && heightFindingMode == s.heightFindingMode
        && verticalGoniometer == s.verticalGoniometer && showAnalysis == s.showAnalysis
      ensures interferenceLevel == 0.0
      ensures targets == [] && sweepPosition == 0.0 && traceVisible && previousTraces == []
    {
      var s := InitialSettings(init);
      math := m;
      powered := s.isPowered;
      selectedFrequency := s.selectedFrequency;
      goniometerAngle := s.goniometerAngle;
      heightFindingMode := s.heightFindingMode;
      verticalGoniometer := s.verticalGoniometer;
      showAnalysis := s.showAnalysis;
      interferenceLevel := 0.0;
      targets := [];
      sweepPosition := 0.0;
      traceVisible := true;
      previousTraces := [];
    }

    /** `usePowerState`'s effect with `isPowered` true: seed 1 to 5 raids
        and reset the sweep; `ok` is false when seeding throws. */
    method PowerOn(countDraw: real, spawns: seq<SpawnDraws>) returns (ok: bool)
      requires Valid() && IsUnitDraw(countDraw) && AllUnitSpawnDraws(spawns)
      requires |spawns| >= SeedCount(countDraw)
      modifies this
      ensures Valid() && powered
      ensures var used := spawns[..SeedCount(countDraw)];
        && (ok <==> NoEscortMission(used))
        && (ok ==> SpawnedFrom(math, targets, used) && sweepPosition == 0.0)
      ensures !ok ==> targets == old(targets) && sweepPosition == old(sweepPosition)
      ensures previousTraces == old(previousTraces) && traceVisible == old(traceVisible)
      ensures interferenceLevel == old(interferenceLevel) && SettingsKept()
    {
      powered := true;
      var used := spawns[..SeedCount(countDraw)];
      var seeded := Seed(math, used);
      if seeded.Failure? {
        return false;
      }
      forall i | 0 <= i < |seeded.value|
        ensures seeded.value[i].wingspan > 0.0
      {
        assert Spawn(math, used[i]) == Success(seeded.value[i]);
      }
      targets := seeded.value;
      sweepPosition := 0.0;
      ok := true;
    }

    /** `usePowerState`'s effect with `isPowered` false: unlike the
        component it also empties the persistence buffer. */
    method PowerOff()
      requires Valid()
      modifies this
      ensures Valid() && !powered
      ensures !traceVisible && sweepPosition == 0.0 && targets == [] && previousTraces == []
      ensures interferenceLevel == old(interferenceLevel) && SettingsKept()
    {
      powered := false;
      traceVisible := false;
      sweepPosition := 0.0;
      targets := [];
      previousTraces := [];
    }

    /** One sweep-interval callback, `elapsed` ms after power-on. */
    method Sweep(elapsed: real)
      requires Valid() && elapsed >= 0.0
      modifies this
      ensures Valid()
      ensures powered == old(powered) && targets == old(targets) && previousTraces == old(previousTraces)
      ensures interferenceLevel == old(interferenceLevel) && SettingsKept()
      ensures !powered ==> sweepPosition == old(sweepPosition) && traceVisible == old(traceVisible)
      ensures powered ==> sweepPosition == SweepPositionAt(elapsed)
      ensures powered ==> traceVisible == (old(traceVisible) || elapsed >= SWEEP_DURATION)
    {
      if powered {
        var progress := SweepProgress(elapsed);
        sweepPosition := SWEEP_WIDTH * progress;
        if progress >= 1.0 {
          traceVisible := true;
        }
      }
    }

    /** One `useTargetMovement` interval callback; there is none while
        unpowered.  `gate` is the 30 % top-up draw. */
    method MovementTick(gate: real, spawn: SpawnDraws) returns (ok: bool)
      requires Valid() && IsUnitSpawnDraws(spawn)
      modifies this
      ensures Valid()
      ensures powered == old(powered) && sweepPosition == old(sweepPosition)
      ensures previousTraces == old(previousTraces) && traceVisible == old(traceVisible)
      ensures interferenceLevel == old(interferenceLevel) && SettingsKept()
      ensures !powered ==> ok && targets == old(targets)
      ensures powered ==> (ok <==> GatedMovementStep(math, old(targets), gate, spawn).Success?)
      ensures powered && ok ==> targets == GatedMovementStep(math, old(targets), gate, spawn).value
      ensures !ok ==> targets == old(targets)
    {
      if !powered {
        return true;
      }
      UpdateKeepsWingspans(math, targets, UPDATE_RATE);
      var newTargets := UpdateTargets(math, targets, UPDATE_RATE);
      if |newTargets| < 2 && gate < 0.3 {
        var t := Spawn(math, spawn);
        if t.Failure? {
          return false;
        }
        newTargets := newTargets + [t.value];
      }
      targets := newTargets;
      ok := true;
    }

    /** `usePhosphorPersistence`'s effect: store a completed, non-empty
        trace, dropping the oldest beyond `MAX_PREVIOUS_TRACES`. */
    method Persist(currentTrace: Option<seq<Point>>, now: int)
      requires Valid()
      modifies this
      ensures Valid()
      ensures powered == old(powered) && targets == old(targets) && sweepPosition == old(sweepPosition)
      ensures traceVisible == old(traceVisible)
      ensures interferenceLevel == old(interferenceLevel) && SettingsKept()
      ensures ShouldPersist(sweepPosition, currentTrace) ==>
        previousTraces == PushTrace(old(previousTraces), Trace(currentTrace.value, now))
      ensures !ShouldPersist(sweepPosition, currentTrace) ==> previousTraces == old(previousTraces)
    {
      if ShouldPersist(sweepPosition, currentTrace) {
        PushTraceBounded(previousTraces, Trace(currentTrace.value, now));
        previousTraces := PushTrace(previousTraces, Trace(currentTrace.value, now));
      }
    }

    /** One `useRadioInterference` interval callback. */
    method Interfere(jamDraw: real)
      requires Valid()
      modifies this
      ensures Valid()
      ensures interferenceLevel == InterferenceLevel(old(selectedFrequency), jamDraw)
      ensures targets == old(targets) && powered == old(powered) && previousTraces == old(previousTraces)
      ensures sweepPosition == old(sweepPosition) && traceVisible == old(traceVisible)
      ensures SettingsKept()
    {
      interferenceLevel := InterferenceLevel(selectedFrequency, jamDraw);
    }
  }
}
