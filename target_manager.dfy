/** Target lifecycle: `createTarget` builds a raid from an aircraft type and
    random draws, `updateTargets` drops overflown raids and moves the rest
    radially along their fixed bearing. */
module TargetManager {
  import opened Wrappers
  import opened JsMath
  import opened Constants

  /** A raid on the scopes.  `x`, `y` in miles from the station, `speed` in
      miles per second, `altitude` in feet.  `isEscort` is the truthiness of
      the record's `isEscort` property, which `createTarget` never sets. */
  datatype Target = Target(
    id: int,
    x: real,
    y: real,
    bearing: real,
    speed: real,
    altitude: real,
    aircraftType: string,
    wingspan: real,
    size: real,
    count: int,
    isEscort: bool)

  /** The seven `Math.random()` draws `createTarget` makes, in call order. */
  datatype CreateDraws = CreateDraws(
    mission: real,
    pick: real,
    speed: real,
    altitude: real,
    id: real,
    size: real,
    count: real)

  predicate IsUnitCreateDraws(d: CreateDraws) {
    && IsUnitDraw(d.mission) && IsUnitDraw(d.pick) && IsUnitDraw(d.speed)
    && IsUnitDraw(d.altitude) && IsUnitDraw(d.id) && IsUnitDraw(d.size)
    && IsUnitDraw(d.count)
  }

  /** The raid is an escort formation with probability 0.3. */
  predicate IsEscortMission(d: CreateDraws) { d.mission < 0.3 }

  /** `AIRCRAFT_TYPES.filter(a => a.isEscort === isEscortMission)` */
  function OfCategory(types: seq<AircraftType>, escort: bool): (r: seq<AircraftType>)
    ensures forall a :: a in r <==> a in types && a.isEscort == escort
    ensures |r| <= |types|
  {
    if types == [] then []
    else (if types[0].isEscort == escort then [types[0]] else []) + OfCategory(types[1..], escort)
  }

  /** The aircraft type the draws pick, or `None` when the category is empty
      (the source then reads a property of `undefined` and throws). */
  function PickType(types: seq<AircraftType>, d: CreateDraws): (r: Option<AircraftType>)
    requires IsUnitCreateDraws(d)
    ensures r.None? <==> OfCategory(types, IsEscortMission(d)) == []
    ensures r.Some? ==> r.value in types && r.value.isEscort == IsEscortMission(d)
  {
    var possible := OfCategory(types, IsEscortMission(d));
    if possible == [] then None
    else
      Some(possible[ScaledFloor(d.pick, |possible|)])
  }

  /** `lo + Math.random() * (hi - lo)`: a uniform value in `[lo, hi]`. */
  function UniformIn(lo: real, hi: real, r: real): (v: real)
    requires IsUnitDraw(r)
    ensures lo <= hi ==> lo <= v <= hi
  {
    var span := hi - lo;
    if lo <= hi then UnitScale(r, span); lo + r * span
    else lo + r * span
  }

  function BearingRadians(m: MathFns, bearing: real): real {
    bearing * m.pi / 180.0
  }

  /** What a target built from aircraft type `a` at `(range, bearing)` has:
      the ranges the source draws its fields from, and the copied fields. */
  predicate BuiltFrom(m: MathFns, t: Target, a: AircraftType, range: real, bearing: real, escort: bool) {
    && 100 <= t.id <= 999
    && t.x == range * m.cos(BearingRadians(m, bearing))
    && t.y == range * m.sin(BearingRadians(m, bearing))
    && t.bearing == bearing
    && (a.minSpeed <= a.maxSpeed ==> a.minSpeed / 3600.0 <= t.speed <= a.maxSpeed / 3600.0)
    && (a.minAlt <= a.maxAlt ==> a.minAlt <= t.altitude <= a.maxAlt)
    && t.aircraftType == a.name
    && t.wingspan == a.wingspan
    && 20.0 <= t.size < 25.0
    && (escort ==> 1 <= t.count <= 2)
    && (!escort ==> 3 <= t.count <= 10)
    && !t.isEscort
  }

  /** `createTarget(range, bearing)` */
  function CreateTarget(m: MathFns, types: seq<AircraftType>, range: real, bearing: real, d: CreateDraws)
    : (r: Result<Target, string>)
    requires IsUnitCreateDraws(d)
    ensures r.Failure? <==> OfCategory(types, IsEscortMission(d)) == []
    ensures r.Success? ==> BuiltFrom(m, r.value, PickType(types, d).value, range, bearing, IsEscortMission(d))
  {
    var bearingRad := BearingRadians(m, bearing);
    var escort := IsEscortMission(d);
    match PickType(types, d)
    case None => Failure("TypeError: aircraft is undefined")
    case Some(aircraft) =>
      var speed := UniformIn(aircraft.minSpeed, aircraft.maxSpeed, d.speed);
      var altitude := UniformIn(aircraft.minAlt, aircraft.maxAlt, d.altitude);
      var count := if escort then 1 + ScaledFloor(d.count, 2) else 3 + ScaledFloor(d.count, 8);
      Success(Target(
        id := ScaledFloor(d.id, 900) + 100,
        x := range * m.cos(bearingRad),
        y := range * m.sin(bearingRad),
        bearing := bearing,
        speed := speed / 3600.0,
        altitude := altitude,
        aircraftType := aircraft.name,
        wingspan := aircraft.wingspan,
        size := 20.0 + d.size * 5.0,
        count := count,
        isEscort := false))
  }

  /** With the shipped table an escort draw always fails and any other draw
      builds an He 111 raid. */
  lemma ShippedTableCreate(m: MathFns, range: real, bearing: real, d: CreateDraws)
    requires IsUnitCreateDraws(d)
    ensures CreateTarget(m, AIRCRAFT_TYPES, range, bearing, d).Failure? <==> IsEscortMission(d)
    ensures !IsEscortMission(d) ==>
      var t := CreateTarget(m, AIRCRAFT_TYPES, range, bearing, d).value;
      t.aircraftType == "He 111" && t.wingspan == 22.5 && 3 <= t.count <= 10
  {
    var a := AIRCRAFT_TYPES[0];
    assert OfCategory(AIRCRAFT_TYPES, true) == [] by {
      assert a !in OfCategory(AIRCRAFT_TYPES, true);
    }
    assert a in OfCategory(AIRCRAFT_TYPES, false);
  }

  /** `Math.sqrt(target.x ** 2 + target.y ** 2)` */
  function Range(m: MathFns, t: Target): real {
    m.sqrt(Sq(t.x) + Sq(t.y))
  }

  /** The target re-projected to `newRange` along its fixed bearing. */
  function Relocate(m: MathFns, t: Target, newRange: real): Target {
    var bearingRad := BearingRadians(m, t.bearing);
    t.(x := newRange * m.cos(bearingRad), y := newRange * m.sin(bearingRad))
  }

  /** The range after one update: `range - target.speed * UPDATE_RATE`. */
  function NewRange(m: MathFns, t: Target, rate: real): real {
    Range(m, t) - t.speed * rate
  }

  /** The map callback of `updateTargets`: `None` stands for its `null`. */
  function MoveTarget(m: MathFns, t: Target, rate: real): Option<Target> {
    if Range(m, t) < 5.0 then None
    else Some(Relocate(m, t, NewRange(m, t, rate)))
  }

  /** `.filter(Boolean)` */
  function Present(s: seq<Option<Target>>): (r: seq<Target>)
    ensures |r| <= |s|
    ensures s == [] ==> r == []
  {
    if s == [] then []
    else (if s[0].Some? then [s[0].value] else []) + Present(s[1..])
  }

  /** `targets.map(...)` */
  function MapMove(m: MathFns, targets: seq<Target>, rate: real): (r: seq<Option<Target>>)
    ensures |r| == |targets|
    ensures forall i :: 0 <= i < |targets| ==> r[i] == MoveTarget(m, targets[i], rate)
    ensures forall i :: 0 <= i < |targets| ==> (r[i].None? <==> Range(m, targets[i]) < 5.0)
    ensures forall i :: 0 <= i < |targets| && r[i].Some? ==> SameExceptPosition(r[i].value, targets[i])
  {
    seq(|targets|, i requires 0 <= i < |targets| => MoveTarget(m, targets[i], rate))
  }

  /** `updateTargets(targets, UPDATE_RATE = 0.1)` */
  function UpdateTargets(m: MathFns, targets: seq<Target>, rate: real := 0.1): (r: seq<Target>)
    ensures |r| <= |targets|
    ensures targets == [] ==> r == []
  {
    Present(MapMove(m, targets, rate))
  }

  /** A target is kept while it is at least 5 miles out. */
  predicate Survives(m: MathFns, t: Target) { Range(m, t) >= 5.0 }

  /** The targets `updateTargets` keeps, in input order. */
  function Survivors(m: MathFns, ts: seq<Target>): (r: seq<Target>)
    ensures forall t :: t in r <==> t in ts && Survives(m, t)
    ensures |r| <= |ts|
  {
    if ts == [] then []
    else (if Survives(m, ts[0]) then [ts[0]] else []) + Survivors(m, ts[1..])
  }

  /** Keeping survivors commutes with concatenation, so their order is the
      input order. */
  lemma {:induction false} SurvivorsOfConcat(m: MathFns, a: seq<Target>, b: seq<Target>)
    ensures Survivors(m, a + b) == Survivors(m, a) + Survivors(m, b)
  {
    if a == [] {
      assert a + b == b;
    } else {
      assert (a + b)[1..] == a[1..] + b;
      SurvivorsOfConcat(m, a[1..], b);
    }
  }

  /** Each survivor moved `speed * rate` miles closer along its bearing. */
  function Advance(m: MathFns, s: seq<Target>, rate: real): (r: seq<Target>)
    ensures |r| == |s|
    ensures forall i :: 0 <= i < |s| ==> r[i] == Relocate(m, s[i], NewRange(m, s[i], rate))
    ensures forall i :: 0 <= i < |s| ==> SameExceptPosition(r[i], s[i])
  {
    seq(|s|, i requires 0 <= i < |s| => Relocate(m, s[i], NewRange(m, s[i], rate)))
  }

  /** Everything but the position is kept. */
  predicate SameExceptPosition(moved: Target, original: Target) {
    moved.(x := original.x, y := original.y) == original
  }

  /** `updateTargets` is: keep exactly the targets at range >= 5, in order,
      and move each of them. */
  lemma {:induction false} UpdateTargetsMovesSurvivors(m: MathFns, ts: seq<Target>, rate: real)
    ensures UpdateTargets(m, ts, rate) == Advance(m, Survivors(m, ts), rate)
  {
    if ts != [] {
      var rest := ts[1..];
      var mapped := MapMove(m, ts, rate);
      assert mapped[1..] == MapMove(m, rest, rate);
      UpdateTargetsMovesSurvivors(m, rest, rate);
      var tail := Advance(m, Survivors(m, rest), rate);
      assert UpdateTargets(m, ts, rate) == (if mapped[0].Some? then [mapped[0].value] else []) + tail;
      if Survives(m, ts[0]) {
        assert Survivors(m, ts) == [ts[0]] + Survivors(m, rest);
        assert Advance(m, Survivors(m, ts), rate) == [Relocate(m, ts[0], NewRange(m, ts[0], rate))] + tail;
      } else {
        assert Survivors(m, ts) == Survivors(m, rest);
      }
    }
  }

  /** A survivor keeps its identity, bearing, speed, altitude, type,
      wingspan, size and count: only its position is rewritten. */
  lemma UpdateKeepsAllButPosition(m: MathFns, ts: seq<Target>, rate: real)
    ensures |UpdateTargets(m, ts, rate)| == |Survivors(m, ts)|
    ensures forall i :: 0 <= i < |UpdateTargets(m, ts, rate)| ==>
      SameExceptPosition(UpdateTargets(m, ts, rate)[i], Survivors(m, ts)[i])
  {
    UpdateTargetsMovesSurvivors(m, ts, rate);
    var s := Survivors(m, ts);
    forall i | 0 <= i < |s|
      ensures SameExceptPosition(Advance(m, s, rate)[i], s[i])
    {
      var t := s[i];
      var moved := Relocate(m, t, NewRange(m, t, rate));
      assert moved.(x := t.x, y := t.y) == t;
    }
  }

  /** A target nearer than 5 miles is removed, whatever the rate: it is not
      among the survivors, and every output entry is the move of a survivor. */
  lemma OverflownTargetRemoved(m: MathFns, ts: seq<Target>, rate: real, t: Target)
    requires t in ts && Range(m, t) < 5.0
    ensures t !in Survivors(m, ts)
    ensures |UpdateTargets(m, ts, rate)| == |Survivors(m, ts)|
    ensures forall u :: u in UpdateTargets(m, ts, rate) ==>
      exists s :: s in Survivors(m, ts) && Range(m, s) >= 5.0 && u == Relocate(m, s, NewRange(m, s, rate))
  {
    UpdateTargetsMovesSurvivors(m, ts, rate);
    var survivors := Survivors(m, ts);
    var out := UpdateTargets(m, ts, rate);
    forall u | u in out
      ensures exists s :: s in survivors && Range(m, s) >= 5.0 && u == Relocate(m, s, NewRange(m, s, rate))
    {
      var i :| 0 <= i < |out| && out[i] == u;
      assert survivors[i] in survivors;
    }
  }

  /** A survivor with positive speed and rate whose new range is still
      non-negative ends up exactly `speed * rate` miles closer. */
  lemma MoveApproaches(m: MathFns, t: Target, rate: real)
    requires m.Lawful() && Survives(m, t)
    requires t.speed > 0.0 && rate > 0.0 && NewRange(m, t, rate) >= 0.0
    ensures Range(m, Relocate(m, t, NewRange(m, t, rate))) == NewRange(m, t, rate)
    ensures Range(m, Relocate(m, t, NewRange(m, t, rate))) < Range(m, t)
  {
    var nr := NewRange(m, t, rate);
    var b := BearingRadians(m, t.bearing);
    var c, s := m.cos(b), m.sin(b);
    var moved := Relocate(m, t, nr);
    assert Sq(s) + Sq(c) == 1.0;
    PolarSquaredNorm(nr, c, s);
    assert moved.x == nr * c && moved.y == nr * s;
    assert m.sqrt(Sq(nr)) == nr;
    assert t.speed * rate > 0.0;
  }

  /** Every target has a positive wingspan, so its resonance factor is
      defined. */
  predicate WingspansPositive(ts: seq<Target>) {
    forall i :: 0 <= i < |ts| ==> ts[i].wingspan > 0.0
  }

  /** Moving keeps every field but the position, so positive wingspans
      survive an update. */
  lemma UpdateKeepsWingspans(m: MathFns, ts: seq<Target>, rate: real)
    requires WingspansPositive(ts)
    ensures WingspansPositive(UpdateTargets(m, ts, rate))
  {
    UpdateKeepsAllButPosition(m, ts, rate);
    var s := Survivors(m, ts);
    forall i | 0 <= i < |s| ensures s[i].wingspan > 0.0 {
      assert s[i] in ts;
    }
  }
}
