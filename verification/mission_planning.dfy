/** Mission authoring: the drones offered for a mission, the two waypoint pattern generators, and the
    creation of a new planned mission from the form. */
module MissionPlanning {
  import opened Wrappers
  import opened Types
  import opened Seqs
  import opened Numeric
  import opened Store

  /** The fixed centre both patterns are laid around. */
  const CenterLat: real := 37.7749
  const CenterLng: real := -122.4194

  /** Grid step of the crosshatch pattern and side of the perimeter square, in degrees. */
  const GridSpacing: real := 0.001
  const PerimeterSize: real := 0.002

  /** The crosshatch grid has this many rows and columns. */
  const GridSize: nat := 4

  /** Every new mission is estimated at 30 minutes and 0.1 km per waypoint. */
  const NewMissionDuration: real := 30.0
  const DistancePerWaypoint: real := 0.1

  /** The planning form's state. */
  datatype PlanningForm = PlanningForm(
    missionName: string,
    selectedDrone: string,
    altitude: real,
    speed: real,
    overlap: real,
    pattern: Pattern,
    waypoints: seq<Waypoint>)

  /** The form as first shown. */
  function InitialForm(): (f: PlanningForm)
    ensures f.missionName == "" && f.selectedDrone == "" && |f.waypoints| == 0
    ensures f.altitude == 50.0 && f.speed == 5.0 && f.overlap == 70.0 && f.pattern == Crosshatch
  {
    PlanningForm("", "", 50.0, 5.0, 70.0, Crosshatch, [])
  }

  predicate IsAvailable(d: Drone) {
    d.status == Available
  }

  /** The drones offered for a new mission: exactly the available ones, in fleet order. */
  function AvailableDrones(ds: seq<Drone>): (r: seq<Drone>)
    ensures forall d :: d in r <==> d in ds && d.status == Available
  {
    Filter(ds, IsAvailable)
  }

  /** The offer keeps fleet order: it is computed piece by piece over a split fleet. */
  lemma AvailableDronesInOrder(a: seq<Drone>, b: seq<Drone>)
    ensures AvailableDrones(a + b) == AvailableDrones(a) + AvailableDrones(b)
  {
    FilterAppend(a, b, IsAvailable);
  }

  /** Row `i`, column `j` of the crosshatch grid. */
  function GridPoint(i: nat, j: nat, altitude: real): Waypoint {
    Waypoint(CenterLat + i as real * GridSpacing, CenterLng + j as real * GridSpacing, altitude)
  }

  /** The crosshatch generator: a 4 x 4 grid in row-major order, all at the chosen altitude. */
  method GenerateCrosshatch(altitude: real) returns (points: seq<Waypoint>)
    ensures |points| == GridSize * GridSize
    ensures forall i, j :: 0 <= i < GridSize && 0 <= j < GridSize ==> points[GridSize * i + j] == GridPoint(i, j, altitude)
    ensures forall k :: 0 <= k < |points| ==> points[k].altitude == altitude
  {
    points := [];
    var i := 0;
    while i < GridSize
      invariant 0 <= i <= GridSize
      invariant |points| == GridSize * i
      invariant forall a, b :: 0 <= a < i && 0 <= b < GridSize ==> points[GridSize * a + b] == GridPoint(a, b, altitude)
      invariant forall k :: 0 <= k < |points| ==> points[k].altitude == altitude
    {
      var j := 0;
      while j < GridSize
        invariant 0 <= j <= GridSize
        invariant |points| == GridSize * i + j
        invariant forall a, b :: 0 <= a < i && 0 <= b < GridSize ==> points[GridSize * a + b] == GridPoint(a, b, altitude)
        invariant forall b :: 0 <= b < j ==> points[GridSize * i + b] == GridPoint(i, b, altitude)
        invariant forall k :: 0 <= k < |points| ==> points[k].altitude == altitude
      {
        points := points + [GridPoint(i, j, altitude)];
        j := j + 1;
      }
      i := i + 1;
    }
  }

  /** The two points differ by one side of the perimeter square along exactly one axis. */
  predicate IsSquareSide(a: Waypoint, b: Waypoint) {
    || (a.lat == b.lat && Abs(b.lng - a.lng) == PerimeterSize)
    || (a.lng == b.lng && Abs(b.lat - a.lat) == PerimeterSize)
  }

  /** The perimeter generator: the four corners of a square starting at the centre, and the centre again
      to close the loop, all at the chosen altitude. */
  function PerimeterPoints(altitude: real): (r: seq<Waypoint>)
    ensures |r| == 5 && r[0] == r[4]
    ensures r[0] == Waypoint(CenterLat, CenterLng, altitude)
    ensures forall k :: 0 <= k < |r| ==> r[k].altitude == altitude
    ensures forall k :: 0 <= k < 4 ==> IsSquareSide(r[k], r[k + 1])
    ensures forall k, l :: 0 <= k < l < 4 ==> r[k] != r[l]
  {
    [ Waypoint(CenterLat, CenterLng, altitude),
      Waypoint(CenterLat + PerimeterSize, CenterLng, altitude),
      Waypoint(CenterLat + PerimeterSize, CenterLng + PerimeterSize, altitude),
      Waypoint(CenterLat, CenterLng + PerimeterSize, altitude),
      Waypoint(CenterLat, CenterLng, altitude) ]
  }

  /** The generate button: replaces the form's waypoints by the selected pattern at the form's altitude. */
  method GeneratePattern(form: PlanningForm) returns (r: PlanningForm)
    ensures r == form.(waypoints := r.waypoints)
    ensures form.pattern == Crosshatch ==>
      && |r.waypoints| == GridSize * GridSize
      && forall i, j :: 0 <= i < GridSize && 0 <= j < GridSize ==> r.waypoints[GridSize * i + j] == GridPoint(i, j, form.altitude)
    ensures form.pattern == Perimeter ==> r.waypoints == PerimeterPoints(form.altitude)
    ensures forall k :: 0 <= k < |r.waypoints| ==> r.waypoints[k].altitude == form.altitude
  {
    var points: seq<Waypoint>;
    if form.pattern == Crosshatch {
      points := GenerateCrosshatch(form.altitude);
    } else {
      points := PerimeterPoints(form.altitude);
    }
    r := form.(waypoints := points);
  }

  function DigitChar(d: nat): (c: char)
    requires d < 10
    ensures '0' <= c <= '9'
  {
    ('0' as int + d) as char
  }

  /** The decimal digits of `n`, most significant first, without leading zeros (as `${n}` renders it). */
  function DecimalString(n: nat): (r: string)
    ensures |r| >= 1
    ensures forall i :: 0 <= i < |r| ==> '0' <= r[i] <= '9'
    ensures n > 0 ==> r[0] != '0'
  {
    if n < 10 then [DigitChar(n)] else DecimalString(n / 10) + [DigitChar(n % 10)]
  }

  /** The number a string of decimal digits denotes. */
  function DecimalValue(s: string): nat
    requires forall i :: 0 <= i < |s| ==> '0' <= s[i] <= '9'
  {
    if |s| == 0 then 0 else DecimalValue(s[..|s| - 1]) * 10 + (s[|s| - 1] as int - '0' as int)
  }

  /** Reading the digits back gives the number, so distinct instants render distinctly. */
  lemma {:induction false} DecimalRoundTrip(n: nat)
    ensures DecimalValue(DecimalString(n)) == n
  {
    if n >= 10 {
      var s := DecimalString(n);
      assert s[..|s| - 1] == DecimalString(n / 10);
      DecimalRoundTrip(n / 10);
    }
  }

  /** The id of a mission created at `now`. */
  function MissionId(now: Timestamp): string {
    "mission-" + DecimalString(now)
  }

  /** Two creations get the same id exactly when they happen in the same millisecond. */
  lemma MissionIdSameInstant(a: Timestamp, b: Timestamp)
    ensures MissionId(a) == MissionId(b) <==> a == b
  {
    if MissionId(a) == MissionId(b) {
      assert DecimalString(a) == MissionId(a)[8..];
      assert DecimalString(b) == MissionId(b)[8..];
      DecimalRoundTrip(a);
      DecimalRoundTrip(b);
    }
  }

  /** The creation gate: a name, a drone and at least one waypoint. */
  predicate ReadyToCreate(f: PlanningForm) {
    |f.missionName| > 0 && |f.selectedDrone| > 0 && |f.waypoints| > 0
  }

  /** The mission the form describes, created at `now`. */
  function NewMission(f: PlanningForm, now: Timestamp): Mission {
    Mission(
      MissionId(now), f.missionName, f.selectedDrone, Planned, f.waypoints,
      Polygon(Positions(f.waypoints)),
      Parameters(f.altitude, f.speed, f.overlap, f.pattern),
      0.0, now, None, None, NewMissionDuration, |f.waypoints| as real * DistancePerWaypoint)
  }

  /** `m` is a fresh planned mission built from the form at `now`. */
  ghost predicate FreshlyPlanned(m: Mission, f: PlanningForm, now: Timestamp) {
    && m.id == MissionId(now) && m.name == f.missionName && m.droneId == f.selectedDrone
    && m.status == Planned && m.progress == 0.0 && m.startedAt.None? && m.completedAt.None?
    && m.waypoints == f.waypoints && m.createdAt == now
    && |m.surveyArea.coordinates| == |f.waypoints|
    && (forall i :: 0 <= i < |f.waypoints| ==>
          m.surveyArea.coordinates[i] == LatLng(f.waypoints[i].lat, f.waypoints[i].lng))
    && m.parameters == Parameters(f.altitude, f.speed, f.overlap, f.pattern)
    && m.estimatedDuration == 30.0
    && m.distance == |f.waypoints| as real / 10.0
  }

  datatype Outcome = Rejected | Created(mission: Mission)

  /** What the create button acts on: the form and the store. */
  datatype Planner = Planner(form: PlanningForm, store: AppState)

  /** The create button. An incomplete form is rejected and nothing changes; otherwise the new planned
      mission is appended to the store and the name and waypoints are cleared (the rest of the form is kept). */
  function HandleCreateMission(p: Planner, now: Timestamp): (r: (Planner, Outcome))
    ensures r.1.Rejected? <==> |p.form.missionName| == 0 || |p.form.selectedDrone| == 0 || |p.form.waypoints| == 0
    ensures r.1.Rejected? ==> r.0 == p
    ensures r.1.Created? ==>
      && FreshlyPlanned(r.1.mission, p.form, now)
      && r.0.store.missions == p.store.missions + [r.1.mission]
      && r.0.store.drones == p.store.drones && r.0.store.selectedMission == p.store.selectedMission
      && r.0.form == p.form.(missionName := "", waypoints := [])
  {
    if !ReadyToCreate(p.form) then (p, Rejected)
    else
      var m := NewMission(p.form, now);
      (Planner(p.form.(missionName := "", waypoints := []), AddMission(p.store, m)), Created(m))
  }

  /** Nothing checks that ids are unique: two missions created in the same millisecond share their id. */
  lemma SameInstantDuplicateIds(p: Planner, now: Timestamp, name: string)
    requires ReadyToCreate(p.form) && |name| > 0
    ensures var first := HandleCreateMission(p, now);
            var second := HandleCreateMission(first.0.(form := p.form.(missionName := name)), now);
            && second.1.Created?
            && |second.0.store.missions| == |p.store.missions| + 2
            && second.0.store.missions[|p.store.missions|].id == second.0.store.missions[|p.store.missions| + 1].id
  {
  }
}
