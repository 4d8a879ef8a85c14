/** The application store: the drone and mission collections and the globally selected mission,
    with the store's update operations as pure state transformers. */
module Store {
  import opened Wrappers
  import opened Types
  import opened Seqs

  datatype AppState = AppState(drones: seq<Drone>, missions: seq<Mission>, selectedMission: Option<Mission>)

  /** The fields an update supplies (`Partial<Mission>`): `Some` for a field that is present. */
  datatype MissionPatch = MissionPatch(
    id: Option<string>,
    name: Option<string>,
    droneId: Option<string>,
    status: Option<MissionStatus>,
    waypoints: Option<seq<Waypoint>>,
    surveyArea: Option<SurveyArea>,
    parameters: Option<Parameters>,
    progress: Option<real>,
    createdAt: Option<Timestamp>,
    startedAt: Option<Timestamp>,
    completedAt: Option<Timestamp>,
    estimatedDuration: Option<real>,
    distance: Option<real>)

  /** The update that supplies no field. */
  const NoChange := MissionPatch(None, None, None, None, None, None, None, None, None, None, None, None, None)

  /** `{ ...m, ...p }`: every field the patch supplies overrides the mission's own. */
  function Merge(m: Mission, p: MissionPatch): Mission {
    Mission(
      p.id.GetOr(m.id),
      p.name.GetOr(m.name),
      p.droneId.GetOr(m.droneId),
      p.status.GetOr(m.status),
      p.waypoints.GetOr(m.waypoints),
      p.surveyArea.GetOr(m.surveyArea),
      p.parameters.GetOr(m.parameters),
      p.progress.GetOr(m.progress),
      p.createdAt.GetOr(m.createdAt),
      if p.startedAt.Some? then p.startedAt else m.startedAt,
      if p.completedAt.Some? then p.completedAt else m.completedAt,
      p.estimatedDuration.GetOr(m.estimatedDuration),
      p.distance.GetOr(m.distance))
  }

  /** Merging an empty update is the identity. */
  lemma MergeNoChange(m: Mission)
    ensures Merge(m, NoChange) == m
  {
  }

  /** Merging the same update twice is merging it once. */
  lemma MergeIdempotent(m: Mission, p: MissionPatch)
    ensures Merge(Merge(m, p), p) == Merge(m, p)
  {
  }

  /** The store before any data is loaded. */
  function InitialState(): (s: AppState)
    ensures |s.drones| == 0 && |s.missions| == 0 && s.selectedMission.None?
  {
    AppState([], [], None)
  }

  function SetDrones(s: AppState, drones: seq<Drone>): (r: AppState)
    ensures r.drones == drones
    ensures r.missions == s.missions && r.selectedMission == s.selectedMission
  {
    s.(drones := drones)
  }

  function SetMissions(s: AppState, missions: seq<Mission>): (r: AppState)
    ensures r.missions == missions
    ensures r.drones == s.drones && r.selectedMission == s.selectedMission
  {
    s.(missions := missions)
  }

  /** Appends a mission; there is no check that its id is new. */
  function AddMission(s: AppState, m: Mission): (r: AppState)
    ensures |r.missions| == |s.missions| + 1
    ensures r.missions[..|s.missions|] == s.missions && r.missions[|s.missions|] == m
    ensures r.drones == s.drones && r.selectedMission == s.selectedMission
  {
    s.(missions := s.missions + [m])
  }

  /** Merges `patch` into every mission whose id is `id`, keeping length and order. */
  function UpdateMission(s: AppState, id: string, patch: MissionPatch): (r: AppState)
    ensures |r.missions| == |s.missions|
    ensures forall i :: 0 <= i < |s.missions| && s.missions[i].id == id ==> r.missions[i] == Merge(s.missions[i], patch)
    ensures forall i :: 0 <= i < |s.missions| && s.missions[i].id != id ==> r.missions[i] == s.missions[i]
    ensures r.drones == s.drones && r.selectedMission == s.selectedMission
  {
    s.(missions := MapWhere(s.missions, (m: Mission) => m.id == id, (m: Mission) => Merge(m, patch)))
  }

  function SetSelectedMission(s: AppState, m: Option<Mission>): (r: AppState)
    ensures r.selectedMission == m
    ensures r.drones == s.drones && r.missions == s.missions
  {
    s.(selectedMission := m)
  }

  /** Sets the status of every drone whose id is `id`; no other field and no other drone changes. */
  function UpdateDroneStatus(s: AppState, id: string, status: DroneStatus): (r: AppState)
    ensures |r.drones| == |s.drones|
    ensures forall i :: 0 <= i < |s.drones| ==>
      r.drones[i] == (if s.drones[i].id == id then s.drones[i].(status := status) else s.drones[i])
    ensures r.missions == s.missions && r.selectedMission == s.selectedMission
  {
    s.(drones := MapWhere(s.drones, (d: Drone) => d.id == id, (d: Drone) => d.(status := status)))
  }

  /** Stores `battery` verbatim (no clamping) in every drone whose id is `id`; nothing else changes. */
  function UpdateDroneBattery(s: AppState, id: string, battery: real): (r: AppState)
    ensures |r.drones| == |s.drones|
    ensures forall i :: 0 <= i < |s.drones| ==>
      r.drones[i] == (if s.drones[i].id == id then s.drones[i].(batteryLevel := battery) else s.drones[i])
    ensures r.missions == s.missions && r.selectedMission == s.selectedMission
  {
    s.(drones := MapWhere(s.drones, (d: Drone) => d.id == id, (d: Drone) => d.(batteryLevel := battery)))
  }

  /** Updating a mission id that no mission carries returns an identical store. */
  lemma UpdateMissionAbsentId(s: AppState, id: string, patch: MissionPatch)
    requires forall i :: 0 <= i < |s.missions| ==> s.missions[i].id != id
    ensures UpdateMission(s, id, patch) == s
  {
    assert UpdateMission(s, id, patch).missions == s.missions;
  }

  /** Applying the same mission update twice is applying it once. */
  lemma UpdateMissionIdempotent(s: AppState, id: string, patch: MissionPatch)
    ensures UpdateMission(UpdateMission(s, id, patch), id, patch) == UpdateMission(s, id, patch)
  {
    var once := UpdateMission(s, id, patch);
    var twice := UpdateMission(once, id, patch);
    forall i | 0 <= i < |s.missions|
      ensures twice.missions[i] == once.missions[i]
    {
      if s.missions[i].id == id {
        MergeIdempotent(s.missions[i], patch);
      }
    }
    assert twice.missions == once.missions;
  }

  /** The battery level is not clamped: an out-of-range level is stored and breaks the documented range. */
  lemma BatteryNotClamped(d: Drone)
    ensures var r := UpdateDroneBattery(AppState([d], [], None), d.id, 150.0);
      r.drones[0].batteryLevel == 150.0 && !BatteryInRange(r.drones[0])
  {
  }
}
