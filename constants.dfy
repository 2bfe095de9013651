/** Station configuration: the `RADAR_CONSTANTS` record, the selectable
    frequencies, the aircraft-type table and the horizon range per altitude. */
module Constants {
  import opened JsMath

  const RADAR_RANGE: real := 150.0          // miles
  const MIN_ALTITUDE: real := 1000.0        // feet
  const MAX_ALTITUDE: real := 30000.0       // feet
  const SWEEP_WIDTH: real := 1200.0
  const SCOPE_HEIGHT: real := 300.0
  const PLAN_VIEW_SIZE: real := 400.0
  const PHOSPHOR_PERSISTENCE: real := 20.0
  const MAX_PREVIOUS_TRACES: nat := 3
  const KM_TO_MILES: real := 0.621371

  datatype Frequency = Frequency(value: real, caption: string)

  const FREQUENCIES: seq<Frequency> := [
    Frequency(20.0, "20 MHz (15m)"),
    Frequency(22.0, "22 MHz (13.6m)"),
    Frequency(25.0, "25 MHz (12m)"),
    Frequency(30.0, "30 MHz (10m)")
  ]

  /** A frequency the operator can select. */
  predicate IsSelectableFrequency(f: real) {
    exists i :: 0 <= i < |FREQUENCIES| && FREQUENCIES[i].value == f
  }

  /** Every selectable frequency is positive and at most 30 MHz, so the
      wavelength `300 / f` is defined and positive. */
  lemma FrequenciesPositive(f: real)
    requires IsSelectableFrequency(f)
    ensures 0.0 < f <= 30.0 && 300.0 / f > 0.0
  {
  }

  /** One entry of `AIRCRAFT_TYPES`; speeds in mph, altitudes in feet,
      wingspan in metres. */
  datatype AircraftType = AircraftType(
    name: string,
    minSpeed: real,
    maxSpeed: real,
    minAlt: real,
    maxAlt: real,
    isEscort: bool,
    wingspan: real)

  const AIRCRAFT_TYPES: seq<AircraftType> := [
    AircraftType("He 111", 230.0, 255.0, 13000.0, 22000.0, false, 22.5)
  ]

  /** The consistency every table entry is expected to have. */
  predicate WellFormedType(a: AircraftType) {
    && 0.0 < a.minSpeed <= a.maxSpeed
    && MIN_ALTITUDE <= a.minAlt <= a.maxAlt <= MAX_ALTITUDE
    && a.wingspan > 0.0
  }

  predicate WellFormedTable(types: seq<AircraftType>) {
    forall i :: 0 <= i < |types| ==> WellFormedType(types[i])
  }

  /** The shipped table is well formed. */
  lemma ShippedTableWellFormed()
    ensures WellFormedTable(AIRCRAFT_TYPES)
    ensures |AIRCRAFT_TYPES| == 1
  {
  }

  /** The shipped table has no escort entry: the escort category is empty. */
  lemma ShippedTableHasNoEscort()
    ensures forall i :: 0 <= i < |AIRCRAFT_TYPES| ==> !AIRCRAFT_TYPES[i].isEscort
  {
  }

  /** `getMaxRangeForAltitude`: the radio horizon, with the altitude clamped
      below at `MIN_ALTITUDE`. */
  function MaxRangeForAltitude(m: MathFns, altitude: real): (r: real)
    requires m.Lawful()
    ensures r >= 1.23 * m.sqrt(MIN_ALTITUDE) * 1.15 > 0.0
  {
    var altitudeFt := Max(altitude, MIN_ALTITUDE);
    var nauticalMiles := 1.23 * m.sqrt(altitudeFt);
    assert m.sqrt(MIN_ALTITUDE) <= m.sqrt(altitudeFt);
    assert m.sqrt(MIN_ALTITUDE) > m.sqrt(0.0) >= 0.0;
    nauticalMiles * 1.15
  }

  /** Below `MIN_ALTITUDE` the horizon range no longer depends on altitude. */
  lemma MaxRangeClampedBelow(m: MathFns, altitude: real)
    requires m.Lawful() && altitude <= MIN_ALTITUDE
    ensures MaxRangeForAltitude(m, altitude) == MaxRangeForAltitude(m, MIN_ALTITUDE)
  {
  }

  /** Flying higher never shortens the horizon range. */
  lemma MaxRangeMonotone(m: MathFns, a: real, b: real)
    requires m.Lawful() && a <= b
    ensures MaxRangeForAltitude(m, a) <= MaxRangeForAltitude(m, b)
  {
    var x, y := Max(a, MIN_ALTITUDE), Max(b, MIN_ALTITUDE);
    assert m.sqrt(x) <= m.sqrt(y);
  }
}
