/** The domain records of the dashboard: drones, waypoints and missions, with their closed enumerations. */
module Types {
  import opened Wrappers

  /** Milliseconds since the epoch. The dashboard stores ISO-8601 strings; the model keeps the instant. */
  type Timestamp = nat

  datatype DroneStatus = Available | InMission | Charging | Maintenance
  datatype MissionStatus = Planned | InProgress | Completed | Aborted
  datatype Pattern = Crosshatch | Perimeter

  /** The string literal the dashboard uses for each drone status. */
  function DroneStatusName(s: DroneStatus): string {
    match s
    case Available => "available"
    case InMission => "in-mission"
    case Charging => "charging"
    case Maintenance => "maintenance"
  }

  /** Reads a drone status literal: exactly the four names are accepted, each naming one status. */
  function ParseDroneStatus(t: string): (r: Option<DroneStatus>)
    ensures forall s :: r == Some(s) <==> DroneStatusName(s) == t
  {
    if t == "available" then Some(Available)
    else if t == "in-mission" then Some(InMission)
    else if t == "charging" then Some(Charging)
    else if t == "maintenance" then Some(Maintenance)
    else None
  }

  function MissionStatusName(s: MissionStatus): string {
    match s
    case Planned => "planned"
    case InProgress => "in-progress"
    case Completed => "completed"
    case Aborted => "aborted"
  }

  /** Reads a mission status literal: exactly the four names are accepted, each naming one status. */
  function ParseMissionStatus(t: string): (r: Option<MissionStatus>)
    ensures forall s :: r == Some(s) <==> MissionStatusName(s) == t
  {
    if t == "planned" then Some(Planned)
    else if t == "in-progress" then Some(InProgress)
    else if t == "completed" then Some(Completed)
    else if t == "aborted" then Some(Aborted)
    else None
  }

  function PatternName(p: Pattern): string {
    match p
    case Crosshatch => "crosshatch"
    case Perimeter => "perimeter"
  }

  /** Reads a flight pattern literal: exactly "crosshatch" and "perimeter" are accepted. */
  function ParsePattern(t: string): (r: Option<Pattern>)
    ensures forall p :: r == Some(p) <==> PatternName(p) == t
  {
    if t == "crosshatch" then Some(Crosshatch)
    else if t == "perimeter" then Some(Perimeter)
    else None
  }

  /** A point on the map. */
  datatype LatLng = LatLng(lat: real, lng: real)

  datatype Drone = Drone(
    id: string,
    name: string,
    status: DroneStatus,
    batteryLevel: real,
    location: LatLng,
    model: string,
    lastMaintenance: Timestamp)

  /** One point of a flight path; `altitude` is in metres. */
  datatype Waypoint = Waypoint(lat: real, lng: real, altitude: real)

  /** The survey polygon, as the (lat, lng) corners of the flight path. */
  datatype SurveyArea = Polygon(coordinates: seq<LatLng>)

  datatype Parameters = Parameters(altitude: real, speed: real, overlapPercentage: real, pattern: Pattern)

  /** A survey mission. `progress` is a percentage; `estimatedDuration` is in minutes, `distance` in kilometres;
      `startedAt` and `completedAt` are absent until the mission is started, respectively finished. */
  datatype Mission = Mission(
    id: string,
    name: string,
    droneId: string,
    status: MissionStatus,
    waypoints: seq<Waypoint>,
    surveyArea: SurveyArea,
    parameters: Parameters,
    progress: real,
    createdAt: Timestamp,
    startedAt: Option<Timestamp>,
    completedAt: Option<Timestamp>,
    estimatedDuration: real,
    distance: real)

  /** The map position of a waypoint. */
  function Position(w: Waypoint): LatLng {
    LatLng(w.lat, w.lng)
  }

  /** The map positions of a list of waypoints, in order. */
  function Positions(ws: seq<Waypoint>): (r: seq<LatLng>)
    ensures |r| == |ws|
    ensures forall i :: 0 <= i < |ws| ==> r[i] == LatLng(ws[i].lat, ws[i].lng)
  {
    if |ws| == 0 then [] else [Position(ws[0])] + Positions(ws[1..])
  }

  /** The documented range of a battery level; the store does not enforce it. */
  predicate BatteryInRange(d: Drone) {
    0.0 <= d.batteryLevel <= 100.0
  }

  /** The documented range of mission progress. */
  predicate ProgressInRange(m: Mission) {
    0.0 <= m.progress <= 100.0
  }

  predicate IsPlanned(m: Mission) { m.status == Planned }
  predicate IsInProgress(m: Mission) { m.status == InProgress }
  predicate IsCompleted(m: Mission) { m.status == Completed }
  predicate IsAborted(m: Mission) { m.status == Aborted }
}
