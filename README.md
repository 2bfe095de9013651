# Chain Home radar station — a verified Dafny model

This project models the logic of *chain-home*, a React simulation of a
Second World War Chain Home radar station. The model covers:

- **Raids.** A raid is created from the aircraft-type table and random draws.
  Each movement update keeps the raids at least 5 miles out and moves them
  in along their bearing.
- **Echo model.** The A-scope signal combines goniometer directivity, a
  resonant cross-section and a radio-horizon range cap. The height-finding
  signal adds a bearing gate, a lobe pattern and a vertical-goniometer match.
- **Station controller.** Power on seeds 1 to 5 raids. Power off clears the
  scopes. The sweep takes two seconds, and a 0.1 s movement tick moves the
  raids and tops up with one new raid when fewer than two remain.
- **Stand-alone hooks.** The duplicate hooks in `radarEffects.js` are
  modelled too: power state, a movement tick gated by a 30 % draw, phosphor
  persistence, radio interference and the `useRadar` defaults.
- **A-scope and height-finding displays.** Each pixel column takes the
  strongest echo from the targets its gate admits. The phosphor buffer keeps
  the last three frames drawn after the sweep reached the right edge.
- **Operator analysis report.** Raids are listed in range order with an
  altitude-confidence grade, followed by totals and filter flags.

## How the model is built

Modules and layout:

- There is one module per source file. `JsMath` holds the JavaScript number
  helpers, and `Wrappers` holds `Option`/`Result`.
- Pure source files are datatypes, functions and lemmas.
- The two stateful parts are classes: the `ChainHomeStation` component
  (`ChainHomeStation.Station`) and `useRadar` with its hooks
  (`RadarEffects.Radar`). Each React state cell is a field, each effect or
  interval callback is a method, and `Valid()` is the invariant every step
  keeps.
- The imperative loops of `drawTrace` and `drawHeightFindingTrace` are
  methods with `while` loops. Each loop is proved equal to a recursive
  specification function (`AScope.PeakSignal`, `HeightFinding.PeakHeightSignal`).
  The properties of the maxima are proved about those functions.

Numbers and inputs:

- JavaScript numbers are `real`.
- `Math.sqrt`, `Math.sin`, `Math.cos`, `Math.atan2`, `Math.exp` and
  `Math.PI` are not computed. They are passed in as a record
  `JsMath.MathFns`, whose ghost predicate `Lawful()` lists the only facts
  the proofs use:
  - `sqrt` is non-negative, strictly increasing and inverts squaring on
    non-negatives;
  - `sin` and `cos` lie in `[-1, 1]` and `sin² + cos² = 1`;
  - `cos 0 = 1` and `cos(π/2) = 0`;
  - `atan2` lies in `(-π, π]`;
  - `exp` lies in `(0, 1]` on non-positive arguments, is strictly
    increasing, and `exp 0 = 1`.
- Every `Math.random()` draw is a parameter in `[0, 1)`. `Date.now()`
  differences are `elapsed` and `now` parameters.
- JavaScript `%` is modelled as truncated remainder (`JsMath.JsRemainder`),
  not Dafny's Euclidean one.

Error paths and edge cases:

- With an empty aircraft category, `createTarget` reads a property of
  `undefined` and throws a `TypeError`. This is `Result.Failure`.
- The shipped table has no escort type, so every escort draw (below 0.3)
  fails. The controller methods then return `ok == false` and keep the raids
  they had, as the state setter is never reached.
- At range 0, `maxRange / range` is `Infinity` and the minimum caps it at 1.
  The model returns 1 there explicitly.
- Wingspan and frequency are required positive. The model does not
  represent the NaN a zero wingspan would give.

Behaviour of the source that the model keeps as written:

- **Height factor.** `getHeightFindingSignal` converts the altitude to
  metres by *dividing* by 0.3048; the model does the same.
- **Always powered.** `useRadar` starts powered whatever `initialState`
  says (`initialState.isPowered || true`), and numeric settings of 0 fall
  back to their defaults.
- **Two 15° gates.** The height-finding display only admits raids strictly
  within 15° of the goniometer, while `getHeightFindingSignal` admits
  exactly 15°. `HeightFinding.FifteenDegreeGatesDisagree` states both.
- **`peakX` is always `x`.** Every column with an echo gets the full peak
  height. The triangular peak shape never appears.
- **Opacity order.** Stored traces are drawn with opacity `0.3·(1 − i/3)`.
  Index 0 is the oldest trace, so the newest is drawn faintest.
- **Flags over the unsorted list.** The analysis flags and totals read the
  raids as given, and only the table is sorted.
- **Power-off differs.** The component's power-off (`Station.PowerOff`)
  keeps the stored traces. The hook's (`Radar.PowerOff`) clears them.

## Model

Some members transcribe a source sub-expression as written and have no
contract of their own. Their properties are carried by the members named
after them:

- `TargetManager.Range` (src/targetManager.js:30), `TargetManager.NewRange`
  (src/targetManager.js:34-35), `TargetManager.Relocate`
  (src/targetManager.js:37-41), `TargetManager.BearingRadians`
  (src/targetManager.js:5, 33) and `TargetManager.MoveTarget`, the map
  callback (src/targetManager.js:29-41): `TargetManager.MapMove`,
  `TargetManager.MoveApproaches`, `TargetManager.UpdateKeepsAllButPosition`.
- `SignalProcessor.BearingOffset` (src/signalProcessor.js:9-10, 37-38):
  `SignalProcessor.NormalizedDiff` and its lemmas.
- `AScope.Contributes` (src/components/AScope.js:72-74),
  `AScope.ColumnY` (src/components/AScope.js:84-96) and
  `AScope.ColumnPoint` (src/components/AScope.js:97-98):
  `AScope.PeakSignalDominates`, `AScope.PeakSignalAttained`,
  `AScope.ColumnAtItsOwnPeak`, `AScope.DrawColumn`.
- `AScope.Opacity` (src/components/AScope.js:39):
  `AScope.OpacityPositiveDecreasing`.
- `HeightFinding.HeightContributes` (src/components/HeightFinding.js:99-109)
  and `HeightFinding.HeightPoint` (src/components/HeightFinding.js:124-127):
  `HeightFinding.PeakHeightSignalDominates`,
  `HeightFinding.PeakHeightSignalAttained`, `HeightFinding.HeightY`,
  `HeightFinding.DrawHeightColumn`.
- `AnalysisPanel.IsDetectable` (src/components/AnalysisPanel.js:50) and
  `AnalysisPanel.SpeedMph` (src/components/AnalysisPanel.js:48):
  `AnalysisPanel.RowFor`, `AnalysisPanel.SpeedMphWithinType`.
- `AnalysisPanel.TotalAircraft` (src/components/AnalysisPanel.js:124):
  `AnalysisPanel.TotalAtLeastRaids`, `AnalysisPanel.TotalOfConcat`.
- `AnalysisPanel.LargeBomberPresent`, `AnalysisPanel.EscortPresent` and
  `AnalysisPanel.HighSpeedPresent` (src/components/AnalysisPanel.js:149,
  155, 161): `AnalysisPanel.Any`, `AnalysisPanel.Analyze`,
  `AnalysisPanel.SpawnedRaidsFlags`.
- `RadarEffects.ShouldPersist` (src/hooks/radarEffects.js:154):
  `RadarEffects.Radar.Persist`.
- `RadarEffects.OrBool` and `RadarEffects.OrNumber`, the `x || default`
  of src/hooks/radarEffects.js:174-179: `RadarEffects.InitialSettings`,
  `RadarEffects.FalsySettingsIgnored`.
- `RadarEffects.InterferenceSum`, the uncapped sum of
  src/hooks/radarEffects.js:133-136: `RadarEffects.InterferenceCap`.
- `AnalysisPanel.Rank` has no source counterpart. It orders the confidence
  grades for `AnalysisPanel.ConfidenceMonotone`.

| member | source | states |
|---|---|---|
| Constants.FrequenciesPositive | src/constants.js:14-19 | every selectable frequency lies in (0, 30] MHz, so the wavelength 300/f is defined and positive |
| Constants.ShippedTableWellFormed | src/constants.js:21-32 | the aircraft table has one entry. It has minSpeed ≤ maxSpeed, MIN_ALTITUDE ≤ minAlt ≤ maxAlt ≤ MAX_ALTITUDE and a positive wingspan |
| Constants.ShippedTableHasNoEscort | src/constants.js:21-32 | no table entry is an escort, so the escort category is empty |
| Constants.MaxRangeForAltitude | src/constants.js:35-40 | the horizon range is at least 1.23·√1000·1.15, which is strictly positive |
| Constants.MaxRangeClampedBelow | src/constants.js:37 | every altitude at or below MIN_ALTITUDE has the horizon range of MIN_ALTITUDE |
| Constants.MaxRangeMonotone | src/constants.js:37-39 | flying higher never shortens the horizon range |
| TargetManager.OfCategory | src/targetManager.js:7 | an entry is kept iff it is in the table and its escort flag matches the mission |
| TargetManager.PickType | src/targetManager.js:6-8 | no type iff the mission's category is empty; otherwise a table entry of that category |
| TargetManager.UniformIn | src/targetManager.js:10-11 | `lo + r·(hi − lo)` lies in [lo, hi] for a draw in [0, 1) |
| TargetManager.CreateTarget | src/targetManager.js:4-25 | fails iff the category is empty. Otherwise: id in [100, 999]; position at (range, bearing); bearing kept; speed in [minSpeed, maxSpeed]/3600; altitude in [minAlt, maxAlt]; type name and wingspan copied; size in [20, 25); count 1–2 for escorts and 3–10 for bombers; isEscort unset |
| TargetManager.ShippedTableCreate | src/targetManager.js:6-8 | with the shipped table it fails iff the draw asks for an escort. Otherwise it builds an He 111 with wingspan 22.5 and 3–10 aircraft |
| TargetManager.Present | src/targetManager.js:42 | `.filter(Boolean)` is never longer than its input and is empty on empty input |
| TargetManager.MapMove | src/targetManager.js:29-41 | one entry per input target, in order; an entry is `null` exactly when its target is under 5 miles, and a kept entry differs from its target only in `x` and `y` |
| TargetManager.UpdateTargets | src/targetManager.js:28-43 | the output is never longer than the input and is empty for empty input; the rate defaults to 0.1 |
| TargetManager.Survivors | src/targetManager.js:31 | a target is kept iff it is in the input and at least 5 miles out |
| TargetManager.SurvivorsOfConcat | src/targetManager.js:29-42 | keeping survivors commutes with concatenation, so input order is preserved |
| TargetManager.Advance | src/targetManager.js:33-41 | each survivor is re-projected to `range − speed·rate` along its own bearing and keeps every field but `x` and `y` |
| TargetManager.UpdateTargetsMovesSurvivors | src/targetManager.js:29-42 | `updateTargets` equals moving exactly the targets at range ≥ 5, in input order |
| TargetManager.UpdateKeepsAllButPosition | src/targetManager.js:37-41 | every survivor keeps every field but x and y |
| TargetManager.OverflownTargetRemoved | src/targetManager.js:29-42 | a target nearer than 5 miles is not among the survivors `updateTargets` moves, the output has one entry per survivor, and every output entry is a survivor (range ≥ 5) moved to `range − speed·rate`, whatever the rate |
| TargetManager.MoveApproaches | src/targetManager.js:33-40 | with positive speed and rate and a non-negative new range, the new range is exactly `range − speed·rate`, strictly less than before |
| TargetManager.UpdateKeepsWingspans | src/targetManager.js:37-41 | positive wingspans stay positive through an update |
| SignalProcessor.TargetBearing | src/signalProcessor.js:6 | the bearing in degrees lies in [0, 360) |
| SignalProcessor.NormalizedDiff | src/signalProcessor.js:9-10 | for angles in [0, 360) the folded difference lies in [0, 180] |
| SignalProcessor.NormalizedDiffSymmetric | src/signalProcessor.js:9-10 | the folded difference is symmetric in its two angles |
| SignalProcessor.NormalizedDiffIsShorterArc | src/signalProcessor.js:9-10 | on [0, 360) the folded difference is the shorter of the two arcs |
| SignalProcessor.DirectionFactor | src/signalProcessor.js:13 | the cos² directivity lies in [0, 1] |
| SignalProcessor.DirectionFactorOnBearing | src/signalProcessor.js:13 | directivity is 1 on the goniometer bearing |
| SignalProcessor.DirectionFactorAtRightAngle | src/signalProcessor.js:13 | directivity is 0 at 90° off the bearing |
| SignalProcessor.Wavelength | src/signalProcessor.js:16 | the wavelength 300/f is positive |
| SignalProcessor.CrossSection | src/signalProcessor.js:17-19 | the cross-section factor is at least the 0.2 base reflection |
| SignalProcessor.RangeFactor | src/signalProcessor.js:22-23 | `min(maxRange/range, 1)^4` lies in (0, 1]; range 0 gives 1 |
| SignalProcessor.RangeFactorCapped | src/signalProcessor.js:23 | inside the horizon range the factor is exactly 1 |
| SignalProcessor.RangeFactorBeyondHorizon | src/signalProcessor.js:23 | beyond the horizon range the factor is below 1 |
| SignalProcessor.EchoProduct | src/signalProcessor.js:25 | two factors in [0, 1] times 3·crossSection give a value in [0, 3·crossSection] |
| SignalProcessor.RangeNonNegative | src/signalProcessor.js:5 | a target's range is never negative |
| SignalProcessor.TargetRangeFactor | src/signalProcessor.js:21-23 | the range factor of a target at its own altitude lies in (0, 1] |
| SignalProcessor.SignalStrength | src/signalProcessor.js:4-26 | the signal strength lies in [0, 3·crossSection] |
| SignalProcessor.SignalPeaksOnBearing | src/signalProcessor.js:4-26 | on the bearing and inside the horizon range the signal is exactly 3·crossSection |
| SignalProcessor.SignalNullAtRightAngle | src/signalProcessor.js:13 | 90° off the bearing the signal is exactly 0 |
| SignalProcessor.ElevationDegrees | src/signalProcessor.js:42-43 | the elevation in degrees lies in (−180, 180] |
| SignalProcessor.VerticalMatch | src/signalProcessor.js:53-54 | the vertical-goniometer match lies in (0, 1] |
| SignalProcessor.VerticalMatchPerfectIffAligned | src/signalProcessor.js:53-54 | the match is 1 iff the elevation equals the vertical goniometer |
| SignalProcessor.VerticalMatchDecreasing | src/signalProcessor.js:53-54 | a larger mismatch gives a strictly smaller match |
| SignalProcessor.LobePattern | src/signalProcessor.js:46-50 | the lobe pattern lies in [0, 1]; the altitude is divided by 0.3048 as written |
| SignalProcessor.ElevationResponse | src/signalProcessor.js:50-56 | the ungated height response lies in [0, 2] |
| SignalProcessor.ResponseProduct | src/signalProcessor.js:56 | `lobe·match·2` with factors in [0, 1] lies in [0, 2] |
| SignalProcessor.HeightFindingSignal | src/signalProcessor.js:29-57 | lies in [0, 2]. Exactly 0 when the mode is off, exactly 0 more than 15° off bearing, otherwise the ungated response |
| SignalProcessor.HeightGateAdmitsFifteen | src/signalProcessor.js:39 | a target exactly 15° off bearing passes the gate |
| AScope.PixelRange | src/components/AScope.js:67 | column x is at range x·150/1200, and columns 0..1200 span [0, 150] miles |
| AScope.PeakFactor | src/components/AScope.js:75 | the weight 1 − diff/2 lies in (0, 1] and is 1 iff the difference is 0 |
| AScope.WeightedSignal | src/components/AScope.js:73-76 | a contributing echo lies between 0 and the target's signal strength |
| AScope.PeakSignal | src/components/AScope.js:68-82 | a column's maximum is never negative |
| AScope.PeakSignalDominates | src/components/AScope.js:71-82 | the maximum is at least the weighted echo of every target within 2 miles |
| AScope.PeakSignalAttained | src/components/AScope.js:71-82 | a non-zero maximum is the weighted echo of one contributing target |
| AScope.PeakSignalWithoutContributors | src/components/AScope.js:68-82 | with no target within 2 miles the column's maximum is 0 |
| AScope.PeakSignalStep | src/components/AScope.js:77-80 | one more target replaces the maximum exactly when it contributes a larger echo |
| AScope.ScanColumn | src/components/AScope.js:67-82 | the `forEach` leaves the specified maximum, and peakX is the column itself |
| AScope.ColumnAtItsOwnPeak | src/components/AScope.js:84-96 | a column with an echo sits at baseline − 0.35·SCOPE_HEIGHT·max + noise; one without sits at baseline + noise |
| AScope.Columns | src/components/AScope.js:66 | the number of integer columns below the sweep position is the ceiling of the position |
| AScope.DrawColumn | src/components/AScope.js:66-98 | the point pushed for a column is the specified column point |
| AScope.DrawTrace | src/components/AScope.js:56-104 | the trace starts at (0, baseline), has one point per integer column below the sweep, and ends at (1200, baseline) when the sweep is unfinished |
| AScope.PushTrace | src/components/AScope.js:110-116 | the new trace is last. Before it come the old traces, minus the oldest when 3 were stored |
| AScope.PushTraceBounded | src/components/AScope.js:112-114 | a buffer of at most 3 stays at most 3; it grows by one below the cap and keeps its length at the cap |
| AScope.PushTraceDropsOldest | src/components/AScope.js:112-114 | on overflow exactly the oldest goes and the others move up one place in order |
| AScope.Frame | src/components/AScope.js:35-117 | no trace iff unpowered; otherwise the specified sweep trace, stored iff the sweep reached 1200 |
| AScope.OpacityPositiveDecreasing | src/components/AScope.js:39 | stored traces have positive opacity, decreasing with the index from 0.3 |
| HeightFinding.ProbeElevation | src/components/HeightFinding.js:92 | every column's probe elevation lies in [0, 90) |
| HeightFinding.ProbeSignal | src/components/HeightFinding.js:111-117 | the probe elevation, not the operator's setting, is passed as the vertical goniometer. A contributing target then gives the ungated response, always in [0, 2] |
| HeightFinding.PeakHeightSignal | src/components/HeightFinding.js:93-122 | a probe column's maximum lies in [0, 2] |
| HeightFinding.PeakHeightSignalDominates | src/components/HeightFinding.js:95-122 | the maximum is at least the echo of every contributing target |
| HeightFinding.PeakHeightSignalAttained | src/components/HeightFinding.js:95-122 | a non-zero maximum is the echo of one contributing target |
| HeightFinding.PeakHeightSignalStep | src/components/HeightFinding.js:119 | one more contributing target raises the maximum to `Math.max(before, echo)` |
| HeightFinding.ScanElevation | src/components/HeightFinding.js:92-122 | the `forEach` leaves the specified maximum |
| HeightFinding.HeightY | src/components/HeightFinding.js:125-126 | with a signal in [0, 2], each column lies between the baseline lifted by 240 px and the baseline, within ±2.5 px of noise |
| HeightFinding.DrawHeightColumn | src/components/HeightFinding.js:92-127 | the point drawn for a column is the specified column point |
| HeightFinding.DrawHeightTrace | src/components/HeightFinding.js:18-128 | nothing iff unpowered or out of height-finding mode. Otherwise 1201 points: the baseline start, then column k for k < 1200 |
| HeightFinding.FifteenDegreeGatesDisagree | src/components/HeightFinding.js:100-109 | a target exactly 15° off bearing is excluded from the trace, although the signal function admits it |
| HeightFinding.LobeY | src/components/HeightFinding.js:64-72 | the reference lobe curve's y lies in [SCOPE_HEIGHT/4, SCOPE_HEIGHT/2] |
| HeightFinding.GoniometerY | src/components/HeightFinding.js:47 | a vertical goniometer in [0, 90] maps into [0, SCOPE_HEIGHT/2] |
| HeightFinding.GoniometerYDecreasing | src/components/HeightFinding.js:31 | higher settings draw strictly higher: 0° at SCOPE_HEIGHT/2, 90° at 0 |
| ChainHomeStation.SpawnRange | src/ChainHomeStation.js:37 | every spawn range lies in [0, 150) |
| ChainHomeStation.SpawnBearing | src/ChainHomeStation.js:38 | every spawn bearing lies in [110, 210) |
| ChainHomeStation.Spawn | src/ChainHomeStation.js:37-39 | fails iff the draw asks for an escort; otherwise an He 111 built at the spawn range and bearing, with a positive wingspan |
| ChainHomeStation.SeedCount | src/ChainHomeStation.js:33 | power-on seeds between 1 and 5 raids |
| ChainHomeStation.Seed | src/ChainHomeStation.js:34-40 | succeeds iff no draw asks for an escort; the raids are then spawned from the draws, in order |
| ChainHomeStation.MovementStep | src/ChainHomeStation.js:74-82 | fails iff a top-up is needed and the draw asks for an escort. The result is `updateTargets(·, 0.1)` when two or more remain; otherwise that list plus exactly one new raid |
| ChainHomeStation.MovementStepKeepsSurvivors | src/ChainHomeStation.js:74-82 | after a tick the list is non-empty. It begins with the moved survivors in order and has at most one more raid |
| ChainHomeStation.SweepProgress | src/ChainHomeStation.js:51 | progress lies in [0, 1] and is 1 iff 2000 ms have elapsed |
| ChainHomeStation.SweepPositionAt | src/ChainHomeStation.js:50-52 | the sweep lies in [0, 1200] and reaches 1200 at 2000 ms |
| ChainHomeStation.SweepMonotone | src/ChainHomeStation.js:50-52 | the sweep never moves backwards |
| ChainHomeStation.Station.constructor | src/ChainHomeStation.js:13-22 | the initial state: powered, trace visible, analysis hidden, goniometer 160, 20 MHz, vertical goniometer 45, height finding off, no raids, sweep 0, no stored traces |
| ChainHomeStation.Station.PowerOn | src/ChainHomeStation.js:31-43 | seeds the drawn number of raids from the draws and resets the sweep to 0, or reports the throw and keeps the raids; trace visibility, stored traces and the settings (goniometer angles, frequency, height-finding mode, analysis toggle) are unchanged |
| ChainHomeStation.Station.PowerOff | src/ChainHomeStation.js:60-64 | hides the trace, resets the sweep to 0 and clears the raids; stored traces and the settings (goniometer angles, frequency, height-finding mode, analysis toggle) are unchanged |
| ChainHomeStation.Station.Sweep | src/ChainHomeStation.js:49-57 | while powered, sets the sweep to its position at `elapsed`, and the trace becomes visible from 2000 ms; raids, stored traces and the settings (goniometer angles, frequency, height-finding mode, analysis toggle) are unchanged |
| ChainHomeStation.Station.Tick | src/ChainHomeStation.js:68-84 | no change while unpowered; otherwise the raids become the movement step's result, or stay put when its spawn throws; sweep, trace, stored traces and the settings (goniometer angles, frequency, height-finding mode, analysis toggle) are unchanged |
| ChainHomeStation.Station.RefreshAScope | src/components/AScope.js:56-117 | draws the sweep trace for the goniometer angle and frequency in force while powered, and stores it iff the sweep is complete, keeping at most 3; raids, sweep, trace visibility and the settings (goniometer angles, frequency, height-finding mode, analysis toggle) are unchanged |
| RadarEffects.InitialSettings | src/hooks/radarEffects.js:174-179 | always powered; each flag is on iff it was given true; each number is the given one unless missing or 0 |
| RadarEffects.FalsySettingsIgnored | src/hooks/radarEffects.js:174-178 | asking to start unpowered is ignored, and a vertical goniometer of 0 falls back to 45 |
| RadarEffects.EmptyInitialStateDefaults | src/hooks/radarEffects.js:173-179 | without an initial state the defaults are: powered, 20 MHz, goniometer 160, height finding off, vertical goniometer 45, analysis hidden |
| RadarEffects.GatedMovementStep | src/hooks/radarEffects.js:69-78 | tops up only when fewer than two remain and the draw is below 0.3. It fails iff that spawn is an escort |
| RadarEffects.GatedStepAddsAtMostOne | src/hooks/radarEffects.js:69-78 | the result begins with the moved survivors in order and adds at most one raid, only when fewer than two survive and the draw is below 0.3 |
| RadarEffects.InterferenceLevel | src/hooks/radarEffects.js:133-136 | the level is at most 0.5, and at least 0 for frequencies in [0, 30] and non-negative draws |
| RadarEffects.InterferenceCap | src/hooks/radarEffects.js:133-136 | below 0.5 the level is atmospheric noise plus jamming, and the level is 0.5 exactly when that sum reaches 0.5 |
| RadarEffects.InterferenceJammingMonotone | src/hooks/radarEffects.js:134-136 | at a non-negative frequency a larger jamming draw never lowers the level |
| RadarEffects.Radar.constructor | src/hooks/radarEffects.js:173-180 | the settings are `InitialSettings(initialState)`, no interference, no raids, sweep 0, trace visible, no stored traces |
| RadarEffects.Radar.PowerOn | src/hooks/radarEffects.js:16-29 | seeds the drawn number of raids and resets the sweep, or reports the throw and keeps the raids; trace visibility, stored traces, interference level and the settings (goniometer angles, frequency, height-finding mode, analysis toggle) are unchanged |
| RadarEffects.Radar.PowerOff | src/hooks/radarEffects.js:46-51 | hides the trace, resets the sweep, and clears the raids and the stored traces; interference level and the settings (goniometer angles, frequency, height-finding mode, analysis toggle) are unchanged |
| RadarEffects.Radar.Sweep | src/hooks/radarEffects.js:35-43 | while powered, sets the sweep to its position at `elapsed`, and the trace becomes visible from 2000 ms; raids, stored traces, interference level and the settings (goniometer angles, frequency, height-finding mode, analysis toggle) are unchanged |
| RadarEffects.Radar.MovementTick | src/hooks/radarEffects.js:61-83 | no change while unpowered; otherwise the raids become the gated step's result, or stay put when its spawn throws; sweep, trace, stored traces, interference level and the settings (goniometer angles, frequency, height-finding mode, analysis toggle) are unchanged |
| RadarEffects.Radar.Persist | src/hooks/radarEffects.js:153-167 | stores the trace iff the sweep is complete and the trace is non-empty, dropping the oldest beyond 3; raids, sweep, trace visibility, interference level and the settings (goniometer angles, frequency, height-finding mode, analysis toggle) are unchanged |
| RadarEffects.Radar.Interfere | src/hooks/radarEffects.js:129-137 | sets the interference level for the frequency in force and the draw; raids, sweep, trace, stored traces and the settings (goniometer angles, frequency, height-finding mode, analysis toggle) are unchanged |
| AnalysisPanel.AltitudeConfidence | src/components/AnalysisPanel.js:60-67 | High iff mode on and h > 0.5; Medium iff mode on and 0.2 < h ≤ 0.5; Low iff mode on and 0.1 < h ≤ 0.2; Unknown iff mode off or h ≤ 0.1 |
| AnalysisPanel.ConfidenceMonotone | src/components/AnalysisPanel.js:60-67 | a stronger height signal never lowers the confidence |
| AnalysisPanel.BarWidth | src/components/AnalysisPanel.js:97 | the bar width is at most 100 %, at least 0 for non-negative strength, and full from strength 1 |
| AnalysisPanel.SpeedMphWithinType | src/components/AnalysisPanel.js:48 | the displayed mph undoes `createTarget`'s /3600 and lies in the type's speed range |
| AnalysisPanel.InsertByRange | src/components/AnalysisPanel.js:20-24 | inserting adds exactly that raid: the multiset grows by it, the raids are those of the list plus it, and the length grows by one |
| AnalysisPanel.InsertKeepsSorted | src/components/AnalysisPanel.js:20-24 | inserting into a range-sorted list keeps it sorted |
| AnalysisPanel.SortByRange | src/components/AnalysisPanel.js:20-24 | the sorted copy is a permutation of the raids, in non-decreasing range |
| AnalysisPanel.TotalAtLeastRaids | src/components/AnalysisPanel.js:124 | when every raid has at least one aircraft, the aircraft count is at least the raid count |
| AnalysisPanel.TotalOfConcat | src/components/AnalysisPanel.js:124 | the aircraft count of two lists together is the sum of their counts |
| AnalysisPanel.Any | src/components/AnalysisPanel.js:149-161 | `some(p)` holds iff some raid satisfies p |
| AnalysisPanel.SpawnedRaidsFlags | src/components/AnalysisPanel.js:149-161 | for spawned raids the escort flag is never raised, and neither is the high-speed flag (at most 255 mph). The bomber flag is raised iff some raid has more than 5 aircraft |
| AnalysisPanel.RowFor | src/components/AnalysisPanel.js:45-67 | a row's bar width lies in [0, 100], its bearing in [0, 360), and a confidence other than Unknown needs height-finding mode |
| AnalysisPanel.Rows | src/components/AnalysisPanel.js:45-75 | one row per raid, in the list's order, carrying the raid's id, count and range, a bearing in [0, 360), a bar width in [0, 100] and a confidence known only in height mode |
| AnalysisPanel.Analyze | src/components/AnalysisPanel.js:15-161 | nothing iff the panel is hidden. Otherwise: one row per raid, in non-decreasing range, from the sorted copy; the raid and aircraft totals; and each flag iff some raid in the unsorted list meets its condition |

## Left out

- Canvas, DOM and JSX work is not modelled: range markers, labels, colours, `ctx.*` calls and the rendered markup. Only the data drawn is modelled.
- The canvas null checks (`if (!canvas) return`) are not modelled. A missing canvas is treated like a present one.
- `src/components/PlanView.js` is not part of this model. It is rendering, plus a verbatim copy of `getMaxRangeForAltitude` that is modelled once, in `Constants`.
- `src/components/StationControls.js` is not part of this model. Its setters only assign single state cells, so the classes' fields are assigned directly.
- React wiring (`useState`, `useEffect` dependencies and clean-ups, `setInterval`, `requestAnimationFrame`, `Date.now`) is replaced by explicit method calls with `elapsed`/`now` parameters. Interleavings between effects are not modelled.
- `useRadarAnimation` only schedules the draw callbacks. It is left out, since the frames themselves are `AScope.Frame` and `HeightFinding.DrawHeightTrace`.
- `calculateAltitude` and the altitude reference chart are not modelled. They need `Math.tan` and `Math.round`, and only feed a label.
- IEEE-754 floating point is not modelled: rounding, `Infinity` and NaN. Numbers are exact reals, and zero wingspan and zero frequency are excluded by preconditions.
- Actual values of `sqrt`, `sin`, `cos`, `atan2`, `exp` and `π` are not modelled. The proofs use only the laws in `JsMath.MathFns.Lawful`.
- AnalysisPanel.SortByRange: states a permutation in non-decreasing range. It does not state the stability of `Array.prototype.sort` for raids at equal range.
- TargetManager.Present: states only length facts. Its exact meaning within `updateTargets` is `TargetManager.UpdateTargetsMovesSurvivors`.
- TargetManager.UpdateTargets: states only length facts. Its exact meaning is `TargetManager.UpdateTargetsMovesSurvivors`.
- AScope.PeakSignal: states only that the maximum is non-negative. That it is the maximum over the contributing targets is `AScope.PeakSignalDominates` and `AScope.PeakSignalAttained`.
- HeightFinding.PeakHeightSignal: states only the bounds [0, 2]. That it is the maximum over the contributing targets is `HeightFinding.PeakHeightSignalDominates` and `HeightFinding.PeakHeightSignalAttained`.
- A TypeError thrown inside a power effect's body (seeding at power on) or a state-setter callback (the movement top-up) is modelled as `ok == false` with the raids unchanged. What React does after an uncaught exception is not modelled.
