/** The operator analysis report: raids sorted by range with their signal,
    detectability and altitude confidence, the raid and aircraft totals and
    the three filter-report flags. */
module AnalysisPanel {
  import opened Wrappers
  import opened JsMath
  import opened Constants
  import opened TargetManager
  import opened SignalProcessor
  import opened ChainHomeStation

  datatype Confidence = High | Medium | Low | Unknown

  /** The `altitudeConfidence` cascade over the height-finding signal. */
  function AltitudeConfidence(heightFindingMode: bool, heightSignal: real): (c: Confidence)
    ensures c == High <==> heightFindingMode && heightSignal > 0.5
    ensures c == Medium <==> heightFindingMode && 0.2 < heightSignal <= 0.5
    ensures c == Low <==> heightFindingMode && 0.1 < heightSignal <= 0.2
    ensures c == Unknown <==> !heightFindingMode || heightSignal <= 0.1
  {
    if heightFindingMode && heightSignal > 0.5 then High
    else if heightFindingMode && heightSignal > 0.2 then Medium
    else if heightFindingMode && heightSignal > 0.1 then Low
    else Unknown
  }

  /** A stronger height signal never lowers the confidence. */
  lemma ConfidenceMonotone(mode: bool, h1: real, h2: real)
    requires h1 <= h2
    ensures Rank(AltitudeConfidence(mode, h1)) <= Rank(AltitudeConfidence(mode, h2))
  {
  }

  /** The order of the confidence levels, `Unknown` lowest. */
  function Rank(c: Confidence): nat {
    match c
    case Unknown => 0
    case Low => 1
    case Medium => 2
    case High => 3
  }

  /** `signalStrength > 0.1` */
  predicate IsDetectable(signalStrength: real) {
    signalStrength > 0.1
  }

  /** `Math.min(signalStrength * 100, 100)`, the signal bar's width in %. */
  function BarWidth(signalStrength: real): (w: real)
    ensures w <= 100.0
    ensures signalStrength >= 0.0 ==> 0.0 <= w
    ensures signalStrength >= 1.0 ==> w == 100.0
  {
    Min(signalStrength * 100.0, 100.0)
  }

  /** `target.speed * 3600`, in mph. */
  function SpeedMph(t: Target): real {
    t.speed * 3600.0
  }

  /** The displayed speed undoes `createTarget`'s conversion to miles per
      second, so it lies within the aircraft type's speed range. */
  lemma SpeedMphWithinType(m: MathFns, t: Target, a: AircraftType, range: real, bearing: real, escort: bool)
    requires BuiltFrom(m, t, a, range, bearing, escort) && a.minSpeed <= a.maxSpeed
    ensures a.minSpeed <= SpeedMph(t) <= a.maxSpeed
  {
  }

  /** Range order is non-decreasing. */
  ghost predicate SortedByRange(m: MathFns, ts: seq<Target>) {
    forall i, j :: 0 <= i < j < |ts| ==> Range(m, ts[i]) <= Range(m, ts[j])
  }

  /** Insert `t` before the first raid farther out than it. */
  function InsertByRange(m: MathFns, t: Target, sorted: seq<Target>): (r: seq<Target>)
    ensures multiset(r) == multiset(sorted) + multiset{t}
    ensures forall x :: x in r <==> x == t || x in sorted
    ensures |r| == |sorted| + 1
  {
    if sorted == [] then [t]
    else if Range(m, t) <= Range(m, sorted[0]) then [t] + sorted
    else
      assert sorted == [sorted[0]] + sorted[1..];
      [sorted[0]] + InsertByRange(m, t, sorted[1..])
  }

  /** The tail of a sorted list is sorted. */
  lemma SortedTail(m: MathFns, ts: seq<Target>)
    requires ts != [] && SortedByRange(m, ts)
    ensures SortedByRange(m, ts[1..])
  {
    var tail := ts[1..];
    forall i, j | 0 <= i < j < |tail|
      ensures Range(m, tail[i]) <= Range(m, tail[j])
    {
      assert tail[i] == ts[i + 1] && tail[j] == ts[j + 1];
    }
  }

  /** A raid no farther out than any raid of a sorted list may go in front. */
  lemma SortedCons(m: MathFns, x: Target, ts: seq<Target>)
    requires SortedByRange(m, ts)
    requires forall y :: y in ts ==> Range(m, x) <= Range(m, y)
    ensures SortedByRange(m, [x] + ts)
  {
    var r := [x] + ts;
    forall i, j | 0 <= i < j < |r|
      ensures Range(m, r[i]) <= Range(m, r[j])
    {
      assert r[j] == ts[j - 1];
      if i == 0 {
        assert ts[j - 1] in ts;
      } else {
        assert r[i] == ts[i - 1];
      }
    }
  }

  /** Inserting into a range-sorted list keeps it sorted. */
  lemma {:induction false} InsertKeepsSorted(m: MathFns, t: Target, sorted: seq<Target>)
    requires SortedByRange(m, sorted)
    ensures SortedByRange(m, InsertByRange(m, t, sorted))
  {
    if sorted == [] {
    } else if Range(m, t) <= Range(m, sorted[0]) {
      forall y | y in sorted ensures Range(m, t) <= Range(m, y) {
        var k :| 0 <= k < |sorted| && sorted[k] == y;
      }
      SortedCons(m, t, sorted);
    } else {
      var tail := sorted[1..];
      SortedTail(m, sorted);
      InsertKeepsSorted(m, t, tail);
      var rest := InsertByRange(m, t, tail);
      forall y | y in rest ensures Range(m, sorted[0]) <= Range(m, y) {
        if y != t {
          var k :| 0 <= k < |tail| && tail[k] == y;
          assert sorted[k + 1] == y;
        }
      }
      SortedCons(m, sorted[0], rest);
    }
  }

  /** `[...targets].sort((a, b) => rangeA - rangeB)`: a sorted copy, closest
      raid first. */
  function SortByRange(m: MathFns, ts: seq<Target>): (r: seq<Target>)
    ensures multiset(r) == multiset(ts)
    ensures |r| == |ts|
    ensures SortedByRange(m, r)
    ensures WingspansPositive(ts) ==> WingspansPositive(r)
  {
    if ts == [] then []
    else
      assert ts == [ts[0]] + ts[1..];
      var rest := SortByRange(m, ts[1..]);
      InsertKeepsSorted(m, ts[0], rest);
      if WingspansPositive(ts) then
        InsertKeepsWingspans(m, ts[0], rest);
        InsertByRange(m, ts[0], rest)
      else InsertByRange(m, ts[0], rest)
  }

  /** Inserting a raid with a positive wingspan keeps every wingspan positive. */
  lemma InsertKeepsWingspans(m: MathFns, t: Target, sorted: seq<Target>)
    requires t.wingspan > 0.0 && WingspansPositive(sorted)
    ensures WingspansPositive(InsertByRange(m, t, sorted))
  {
    var r := InsertByRange(m, t, sorted);
    forall i | 0 <= i < |r| ensures r[i].wingspan > 0.0 {
      assert r[i] in r;
      if r[i] != t {
        var j :| 0 <= j < |sorted| && sorted[j] == r[i];
      }
    }
  }

  /** `targets.reduce((sum, target) => sum + target.count, 0)` */
  function TotalAircraft(ts: seq<Target>): int {
    if ts == [] then 0 else TotalAircraft(ts[..|ts| - 1]) + ts[|ts| - 1].count
  }

  /** When every raid has at least one aircraft there are at least as many
      aircraft as raids. */
  lemma {:induction false} TotalAtLeastRaids(ts: seq<Target>)
    requires forall i :: 0 <= i < |ts| ==> ts[i].count >= 1
    ensures TotalAircraft(ts) >= |ts|
  {
    if ts != [] {
      TotalAtLeastRaids(ts[..|ts| - 1]);
    }
  }

  /** The total is the sum of two halves' totals. */
  lemma {:induction false} TotalOfConcat(a: seq<Target>, b: seq<Target>)
    ensures TotalAircraft(a + b) == TotalAircraft(a) + TotalAircraft(b)
    decreases |b|
  {
    if b == [] {
      assert a + b == a;
    } else {
      var n := |b| - 1;
      assert (a + b)[..|a + b| - 1] == a + b[..n];
      TotalOfConcat(a, b[..n]);
    }
  }

  /** `targets.some(p)` */
  function Any(ts: seq<Target>, p: Target -> bool): (r: bool)
    ensures r <==> exists i :: 0 <= i < |ts| && p(ts[i])
  {
    if ts == [] then false
    else
      assert forall i :: 1 <= i < |ts| ==> ts[1..][i - 1] == ts[i];
      p(ts[0]) || Any(ts[1..], p)
  }

  /** "Large bomber formation": some raid that is not an escort and has
      more than five aircraft. */
  predicate LargeBomberPresent(ts: seq<Target>) {
    Any(ts, (t: Target) => !t.isEscort && t.count > 5)
  }

  /** "Fighter escort present" */
  predicate EscortPresent(ts: seq<Target>) {
    Any(ts, (t: Target) => t.isEscort)
  }

  /** "High-speed aircraft present": faster than 300 mph. */
  predicate HighSpeedPresent(ts: seq<Target>) {
    Any(ts, (t: Target) => SpeedMph(t) > 300.0)
  }

  /** Raids spawned by the station never raise the escort flag, since
      `createTarget` does not set `isEscort`, nor the high-speed flag, since
      the only aircraft type flies at most 255 mph. */
  lemma SpawnedRaidsFlags(m: MathFns, ts: seq<Target>, ds: seq<SpawnDraws>)
    requires m.Lawful() && AllUnitSpawnDraws(ds) && SpawnedFrom(m, ts, ds)
    ensures !EscortPresent(ts)
    ensures !HighSpeedPresent(ts)
    ensures LargeBomberPresent(ts) <==> exists i :: 0 <= i < |ts| && ts[i].count > 5
  {
    forall i | 0 <= i < |ts|
      ensures !ts[i].isEscort && SpeedMph(ts[i]) <= 255.0
    {
      assert Spawn(m, ds[i]) == Success(ts[i]);
      SpeedMphWithinType(m, ts[i], AIRCRAFT_TYPES[0], SpawnRange(m, ds[i].range), SpawnBearing(ds[i].bearing), false);
    }
  }

  /** One row of the raid table. */
  datatype Row = Row(
    id: int,
    range: real,
    bearing: real,
    altitude: real,
    speedMph: real,
    aircraftType: string,
    count: int,
    signalStrength: real,
    detectable: bool,
    confidence: Confidence,
    barWidth: real)

  /** The row shown for a raid. */
  function RowFor(m: MathFns, t: Target, goniometer: real, heightFindingMode: bool,
                  verticalGoniometer: real, frequency: real): (row: Row)
    requires m.Lawful() && t.wingspan > 0.0 && frequency > 0.0
    ensures 0.0 <= row.barWidth <= 100.0
    ensures row.confidence != Unknown ==> heightFindingMode
    ensures 0.0 <= row.bearing < 360.0
  {
    var signalStrength := SignalStrength(m, t, goniometer, frequency);
    var heightSignal := HeightFindingSignal(m, t, goniometer, verticalGoniometer, frequency, heightFindingMode);
    Row(
      id := t.id,
      range := Range(m, t),
      bearing := TargetBearing(m, t),
      altitude := t.altitude,
      speedMph := SpeedMph(t),
      aircraftType := t.aircraftType,
      count := t.count,
      signalStrength := signalStrength,
      detectable := IsDetectable(signalStrength),
      confidence := AltitudeConfidence(heightFindingMode, heightSignal),
      barWidth := BarWidth(signalStrength))
  }

  /** `sortedTargets.map(...)`: one row per raid, in order. */
  function Rows(m: MathFns, ts: seq<Target>, goniometer: real, heightFindingMode: bool,
                verticalGoniometer: real, frequency: real): (rows: seq<Row>)
    requires m.Lawful() && WingspansPositive(ts) && frequency > 0.0
    ensures |rows| == |ts|
    ensures forall i :: 0 <= i < |ts| ==>
      rows[i] == RowFor(m, ts[i], goniometer, heightFindingMode, verticalGoniometer, frequency)
    ensures forall i :: 0 <= i < |ts| ==>
      && rows[i].id == ts[i].id && rows[i].range == Range(m, ts[i]) && rows[i].count == ts[i].count
      && 0.0 <= rows[i].barWidth <= 100.0 && 0.0 <= rows[i].bearing < 360.0
      && (rows[i].confidence != Unknown ==> heightFindingMode)
  {
    seq(|ts|, i requires 0 <= i < |ts| => RowFor(m, ts[i], goniometer, heightFindingMode, verticalGoniometer, frequency))
  }

  /** The report: the rows in range order, the totals and the flags. */
  datatype Report = Report(
    rows: seq<Row>,
    totalRaids: nat,
    aircraftCount: int,
    largeBomber: bool,
    escort: bool,
    highSpeed: bool)

  /** `AnalysisPanel(...)`: nothing while hidden, otherwise the report over
      a sorted copy of the raids; the flags and totals are taken over the
      raids as given. */
  function Analyze(m: MathFns, targets: seq<Target>, goniometer: real, heightFindingMode: bool,
                   verticalGoniometer: real, frequency: real, showAnalysis: bool): (r: Option<Report>)
    requires m.Lawful() && WingspansPositive(targets) && frequency > 0.0
    ensures r.None? <==> !showAnalysis
    ensures r.Some? ==>
      var sorted := SortByRange(m, targets);
      && |r.value.rows| == |targets| == r.value.totalRaids
      && (forall i :: 0 <= i < |sorted| ==>
            r.value.rows[i] == RowFor(m, sorted[i], goniometer, heightFindingMode, verticalGoniometer, frequency))
      && (forall i, j :: 0 <= i < j < |r.value.rows| ==> r.value.rows[i].range <= r.value.rows[j].range)
      && r.value.aircraftCount == TotalAircraft(targets)
      && (r.value.largeBomber <==> exists i :: 0 <= i < |targets| && !targets[i].isEscort && targets[i].count > 5)
      && (r.value.escort <==> exists i :: 0 <= i < |targets| && targets[i].isEscort)
      && (r.value.highSpeed <==> exists i :: 0 <= i < |targets| && SpeedMph(targets[i]) > 300.0)
  {
    if !showAnalysis then None
    else
      var sorted := SortByRange(m, targets);
      var rows := Rows(m, sorted, goniometer, heightFindingMode, verticalGoniometer, frequency);
      Some(Report(rows, |targets|, TotalAircraft(targets),
                  LargeBomberPresent(targets), EscortPresent(targets), HighSpeedPresent(targets)))
  }
}
