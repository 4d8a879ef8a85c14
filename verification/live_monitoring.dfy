/** The live-monitoring engine: starting, pausing and aborting a mission, and the per-frame animation that
    moves the drone along its waypoints, publishes progress and completes the mission.

    The component's state is a `Monitor`: the shared store, the component's own snapshot of the selected
    mission, the drone's displayed position, the waypoint cursor and whether an animation loop is scheduled.
    The browser's frame scheduler becomes the explicit `Tick(mon, now)` step, and the React effect that
    (re)starts the loop whenever the selection or the cursor changes becomes `RunEffect`. */
module LiveMonitoring {
  import opened Wrappers
  import opened Types
  import opened Seqs
  import opened Numeric
  import opened Store

  /** Duration of one segment of the path, in milliseconds. */
  const SegmentMs: nat := 3000

  /** Progress is written to the store only when it moved by more than this many percentage points. */
  const PublishThreshold: real := 0.5

  /** Whether a frame callback is scheduled, and the instant the current segment's animation began. */
  datatype Animation = Stopped | Running(startTime: Timestamp)

  datatype Monitor = Monitor(
    store: AppState,
    selected: Option<Mission>,
    position: Option<LatLng>,
    cursor: nat,
    animation: Animation)

  /** The monitor as the component first renders it. */
  function InitialMonitor(store: AppState): (r: Monitor)
    ensures r.store == store && r.selected.None? && r.position.None? && r.cursor == 0 && r.animation.Stopped?
  {
    Monitor(store, None, None, 0, Stopped)
  }

  /** A loop runs only for a selected in-progress mission whose cursor still has a segment ahead of it. */
  predicate Wf(mon: Monitor) {
    mon.animation.Running? ==>
      && mon.selected.Some?
      && mon.selected.value.status == InProgress
      && mon.cursor + 1 < |mon.selected.value.waypoints|
  }

  /** `after` equals `before` position by position, except that every mission whose id is `id` became `f` of itself. */
  ghost predicate MissionsRewritten(before: seq<Mission>, after: seq<Mission>, id: string, f: Mission -> Mission) {
    && |after| == |before|
    && forall i :: 0 <= i < |before| ==> after[i] == (if before[i].id == id then f(before[i]) else before[i])
  }

  /** `after` equals `before` position by position, except that every drone whose id is `id` has status `status`. */
  ghost predicate DronesSetTo(before: seq<Drone>, after: seq<Drone>, id: string, status: DroneStatus) {
    && |after| == |before|
    && forall i :: 0 <= i < |before| ==> after[i] == (if before[i].id == id then before[i].(status := status) else before[i])
  }

  predicate IsActive(m: Mission) {
    m.status == InProgress || m.status == Planned
  }

  /** The missions listed for monitoring: the planned and in-progress ones, in store order. */
  function ActiveMissions(ms: seq<Mission>): (r: seq<Mission>)
    ensures forall m :: m in r <==> m in ms && (m.status == Planned || m.status == InProgress)
    ensures forall i :: 0 <= i < |r| ==> r[i].status != Completed && r[i].status != Aborted
  {
    Filter(ms, IsActive)
  }

  /** The monitored list keeps store order: it is computed piece by piece over a split store. */
  lemma ActiveMissionsInOrder(a: seq<Mission>, b: seq<Mission>)
    ensures ActiveMissions(a + b) == ActiveMissions(a) + ActiveMissions(b)
  {
    FilterAppend(a, b, IsActive);
  }

  /** A single mission is listed once if it is planned or in progress, and not at all otherwise; with
      `ActiveMissionsInOrder` this fixes the whole list, multiplicity included. */
  lemma ActiveMissionsSingle(m: Mission)
    ensures ActiveMissions([m]) == if m.status == Planned || m.status == InProgress then [m] else []
  {
    assert [m][1..] == [];
  }

  /** `Array.prototype.find` on the id: the first mission carrying `id`, if any. */
  function Find(ms: seq<Mission>, id: string): (r: Option<Mission>)
    ensures r.None? <==> forall i :: 0 <= i < |ms| ==> ms[i].id != id
    ensures r.Some? ==> exists i :: 0 <= i < |ms| && ms[i] == r.value && ms[i].id == id
                                     && forall j :: 0 <= j < i ==> ms[j].id != id
  {
    if |ms| == 0 then None
    else if ms[0].id == id then Some(ms[0])
    else
      var rest := Find(ms[1..], id);
      if rest.Some? then
        ghost var k :| 0 <= k < |ms[1..]| && ms[1..][k] == rest.value && ms[1..][k].id == id
                       && forall j :: 0 <= j < k ==> ms[1..][j].id != id;
        assert ms[k + 1] == rest.value && forall j :: 0 <= j < k + 1 ==> ms[j].id != id by {
          forall j | 0 <= j < k + 1 ensures ms[j].id != id {
            if j > 0 { assert ms[j] == ms[1..][j - 1]; }
          }
        }
        rest
      else
        assert forall i :: 1 <= i < |ms| ==> ms[i] == ms[1..][i - 1];
        rest
  }

  function StartPatch(now: Timestamp): MissionPatch {
    NoChange.(status := Some(InProgress), startedAt := Some(now), progress := Some(0.0))
  }

  function CompletePatch(now: Timestamp): MissionPatch {
    NoChange.(status := Some(Completed), progress := Some(100.0), completedAt := Some(now))
  }

  function AbortPatch(now: Timestamp): MissionPatch {
    NoChange.(status := Some(Aborted), completedAt := Some(now))
  }

  function ProgressPatch(progress: real): MissionPatch {
    NoChange.(progress := Some(progress))
  }

  /** The start handler itself. A planned mission is marked in progress (progress 0, started now) and its
      drone in mission; any other mission leaves the store alone. Either way the snapshot becomes the
      store's copy of the mission (as read before the update) forced to in-progress with progress 0, the
      cursor returns to 0 and the position to the first waypoint. The handler does not touch the loop. */
  function Launch(mon: Monitor, mission: Mission, now: Timestamp): (r: Monitor)
    ensures mission.status != Planned ==> r.store == mon.store
    ensures mission.status == Planned ==>
      && MissionsRewritten(mon.store.missions, r.store.missions, mission.id,
                           (m: Mission) => m.(status := InProgress, startedAt := Some(now), progress := 0.0))
      && DronesSetTo(mon.store.drones, r.store.drones, mission.droneId, InMission)
      && r.store.selectedMission == mon.store.selectedMission
    ensures r.selected.Some? && r.selected.value.status == InProgress && r.selected.value.progress == 0.0
    ensures r.selected.value.id == mission.id
    ensures Find(mon.store.missions, mission.id) == Some(mission) ==>
      r.selected.value == mission.(status := InProgress, progress := 0.0)
    ensures r.cursor == 0
    ensures |mission.waypoints| > 0 ==> r.position == Some(Position(mission.waypoints[0]))
    ensures |mission.waypoints| == 0 ==> r.position.None?
    ensures r.animation == mon.animation
  {
    var store :=
      if mission.status == Planned then
        UpdateDroneStatus(UpdateMission(mon.store, mission.id, StartPatch(now)), mission.droneId, InMission)
      else mon.store;
    var current := Find(mon.store.missions, mission.id).GetOr(mission);
    var position := if |mission.waypoints| > 0 then Some(Position(mission.waypoints[0])) else None;
    Monitor(store, Some(current.(status := InProgress, progress := 0.0)), position, 0, mon.animation)
  }

  /** The selected in-progress mission has no segment left at the cursor: the effect completes it. */
  predicate Completes(mon: Monitor) {
    && mon.selected.Some?
    && mon.selected.value.status == InProgress
    && mon.cursor + 1 >= |mon.selected.value.waypoints|
  }

  /** The animation effect, run after every change of the selection or the cursor (its cleanup first
      cancels the previous loop). Without a selected in-progress mission it does nothing; with the cursor
      at or past the last waypoint it marks the mission completed with progress 100 and frees its drone;
      otherwise it schedules a loop for the segment from the cursor, starting now. */
  function RunEffect(mon: Monitor, now: Timestamp): (r: Monitor)
    ensures Wf(r)
    ensures r.selected == mon.selected && r.position == mon.position && r.cursor == mon.cursor
    ensures r.animation.Running? <==>
      mon.selected.Some? && mon.selected.value.status == InProgress && mon.cursor + 1 < |mon.selected.value.waypoints|
    ensures r.animation.Running? ==> r.animation.startTime == now
    ensures !Completes(mon) ==> r.store == mon.store
    ensures Completes(mon) ==>
      && MissionsRewritten(mon.store.missions, r.store.missions, mon.selected.value.id,
                           (m: Mission) => m.(status := Completed, progress := 100.0, completedAt := Some(now)))
      && DronesSetTo(mon.store.drones, r.store.drones, mon.selected.value.droneId, Available)
      && r.store.selectedMission == mon.store.selectedMission
  {
    match mon.selected
    case None => mon.(animation := Stopped)
    case Some(m) =>
      if m.status != InProgress then mon.(animation := Stopped)
      else if mon.cursor + 1 >= |m.waypoints| then
        var store := UpdateDroneStatus(UpdateMission(mon.store, m.id, CompletePatch(now)), m.droneId, Available);
        mon.(store := store, animation := Stopped)
      else mon.(animation := Running(now))
  }

  /** Linear interpolation: `a` at p = 0, `b` at p = 1. */
  function Lerp(a: real, b: real, p: real): real {
    a + (b - a) * p
  }

  lemma LerpEnds(a: real, b: real)
    ensures Lerp(a, b, 0.0) == a && Lerp(a, b, 1.0) == b
  {
  }

  /** For p in [0, 1] the interpolated value lies between the two ends. */
  lemma LerpBetween(a: real, b: real, p: real)
    requires 0.0 <= p <= 1.0
    ensures a <= b ==> a <= Lerp(a, b, p) <= b
    ensures b <= a ==> b <= Lerp(a, b, p) <= a
  {
    var d := b - a;
    var q := d * p;
    assert Lerp(a, b, p) == a + q;
    if a <= b {
      ScaleBetween(d, p);
    } else {
      ScaleBetween(-d, p);
      assert (-d) * p == -q;
    }
  }

  lemma ScaleBetween(x: real, p: real)
    requires x >= 0.0 && 0.0 <= p <= 1.0
    ensures 0.0 <= x * p <= x
  {
    assert x * p <= x * 1.0;
  }

  /** The share of the current segment flown after `elapsed` milliseconds, capped at 1 but not below 0. */
  function SegmentFraction(elapsed: int): (p: real)
    ensures elapsed >= 0 ==> 0.0 <= p <= 1.0
    ensures p == 1.0 <==> elapsed >= SegmentMs
    ensures elapsed < 0 ==> p < 0.0
  {
    Min(elapsed as real / SegmentMs as real, 1.0)
  }

  /** Overall progress in percent with `cursor` whole segments and fraction `p` of the next one flown. */
  function OverallProgress(cursor: nat, p: real, count: nat): real
    requires count >= 2
  {
    ((cursor as real + p) / (count - 1) as real) * 100.0
  }

  /** Within a segment that exists, overall progress is a percentage. */
  lemma OverallProgressBounds(cursor: nat, p: real, count: nat)
    requires count >= 2 && cursor + 1 < count && 0.0 <= p <= 1.0
    ensures 0.0 <= OverallProgress(cursor, p, count) <= 100.0
  {
    var n := (count - 1) as real;
    var x := cursor as real + p;
    RatioAtMostOne(x, n);
  }

  /** Overall progress grows with the distance flown: non-decreasing, and strictly increasing. */
  lemma OverallProgressMonotone(c1: nat, p1: real, c2: nat, p2: real, count: nat)
    requires count >= 2
    requires c1 as real + p1 <= c2 as real + p2
    ensures OverallProgress(c1, p1, count) <= OverallProgress(c2, p2, count)
    ensures c1 as real + p1 < c2 as real + p2 ==> OverallProgress(c1, p1, count) < OverallProgress(c2, p2, count)
  {
    var n := (count - 1) as real;
    assert (c1 as real + p1) / n <= (c2 as real + p2) / n;
  }

  /** The end of one segment and the start of the next give the same progress; the last segment ends at 100. */
  lemma OverallProgressSegmentEnds(cursor: nat, count: nat)
    requires count >= 2 && cursor + 1 < count
    ensures OverallProgress(cursor, 1.0, count) == OverallProgress(cursor + 1, 0.0, count)
    ensures cursor + 2 == count ==> OverallProgress(cursor, 1.0, count) == 100.0
  {
  }

  /** One frame of the animation loop. The drone is placed at the interpolated point of the current
      segment; the overall progress is written to the store when it differs from the SNAPSHOT's progress
      by more than the threshold; once the segment is fully flown the cursor moves to the next waypoint. */
  function Frame(mon: Monitor, now: Timestamp): (r: Monitor)
    requires Wf(mon) && mon.animation.Running?
    ensures r.selected == mon.selected && r.animation == mon.animation
    ensures var m := mon.selected.value;
            var p := SegmentFraction(now - mon.animation.startTime);
            var a := m.waypoints[mon.cursor];
            var b := m.waypoints[mon.cursor + 1];
            var overall := OverallProgress(mon.cursor, p, |m.waypoints|);
            && r.position == Some(LatLng(Lerp(a.lat, b.lat, p), Lerp(a.lng, b.lng, p)))
            && r.cursor == (if now - mon.animation.startTime >= SegmentMs then mon.cursor + 1 else mon.cursor)
            && (Abs(overall - m.progress) > PublishThreshold ==>
                  MissionsRewritten(mon.store.missions, r.store.missions, m.id, (x: Mission) => x.(progress := overall)))
            && (Abs(overall - m.progress) <= PublishThreshold ==> r.store == mon.store)
            && r.store.drones == mon.store.drones && r.store.selectedMission == mon.store.selectedMission
  {
    var m := mon.selected.value;
    var i := mon.cursor;
    var p := SegmentFraction(now - mon.animation.startTime);
    var a := m.waypoints[i];
    var b := m.waypoints[i + 1];
    var overall := OverallProgress(i, p, |m.waypoints|);
    var store :=
      if Abs(overall - m.progress) > PublishThreshold then UpdateMission(mon.store, m.id, ProgressPatch(overall))
      else mon.store;
    mon.(store := store,
         position := Some(LatLng(Lerp(a.lat, b.lat, p), Lerp(a.lng, b.lng, p))),
         cursor := if p < 1.0 then i else i + 1)
  }

  /** One step of the frame scheduler at clock reading `now`: nothing when no loop is scheduled; otherwise
      one frame, followed by the effect's re-run when that frame advanced the cursor. */
  function Tick(mon: Monitor, now: Timestamp): (r: Monitor)
    requires Wf(mon)
    ensures Wf(r)
    ensures r.selected == mon.selected
    ensures mon.animation.Stopped? ==> r == mon
    ensures mon.animation.Running? ==>
      r.cursor == (if now - mon.animation.startTime >= SegmentMs then mon.cursor + 1 else mon.cursor)
    ensures mon.animation.Running? && now - mon.animation.startTime < SegmentMs ==> r.animation == mon.animation
  {
    if mon.animation.Stopped? then mon
    else
      var f := Frame(mon, now);
      if f.cursor == mon.cursor then f else RunEffect(f, now)
  }

  /** Pausing cancels the loop and changes nothing else, in the store or in the component. */
  function Pause(mon: Monitor): (r: Monitor)
    ensures r.store == mon.store && r.selected == mon.selected && r.position == mon.position && r.cursor == mon.cursor
    ensures r.animation.Stopped? && Wf(r)
  {
    mon.(animation := Stopped)
  }

  /** Aborting cancels the loop, marks every mission with the given id aborted at `now` WHATEVER its
      status, keeps its progress, frees the drone and clears the selection and position. The cursor is kept. */
  function Abort(mon: Monitor, mission: Mission, now: Timestamp): (r: Monitor)
    ensures MissionsRewritten(mon.store.missions, r.store.missions, mission.id,
                              (m: Mission) => m.(status := Aborted, completedAt := Some(now)))
    ensures DronesSetTo(mon.store.drones, r.store.drones, mission.droneId, Available)
    ensures r.store.selectedMission == mon.store.selectedMission
    ensures r.selected.None? && r.position.None? && r.cursor == mon.cursor && r.animation.Stopped?
    ensures Wf(r)
  {
    var store := UpdateDroneStatus(UpdateMission(mon.store, mission.id, AbortPatch(now)), mission.droneId, Available);
    RunEffect(Monitor(store, None, None, mon.cursor, Stopped), now)
  }

  /** Starting from the UI: the handler, then the effect its state change triggers. */
  function Start(mon: Monitor, mission: Mission, now: Timestamp): (r: Monitor)
    ensures Wf(r) && r.cursor == 0 && r.selected.Some? && r.selected.value.id == mission.id
    ensures r.animation.Running? <==> 1 < |r.selected.value.waypoints|
  {
    RunEffect(Launch(mon, mission, now), now)
  }

  /** Clicking a mission card: the store's mission becomes the snapshot as it is, the effect re-runs,
      and neither the cursor nor the position is reset. */
  function Select(mon: Monitor, mission: Mission, now: Timestamp): (r: Monitor)
    ensures Wf(r) && r.selected == Some(mission) && r.cursor == mon.cursor && r.position == mon.position
    ensures mission.status != InProgress ==> r.animation.Stopped? && r.store == mon.store
  {
    RunEffect(mon.(selected := Some(mission)), now)
  }

  /** Whole minutes still to fly, rounding the unflown share of the estimate upwards. */
  function EstimatedTimeRemaining(m: Mission): (r: int)
    ensures m.estimatedDuration * (1.0 - m.progress / 100.0) <= r as real
    ensures r as real < m.estimatedDuration * (1.0 - m.progress / 100.0) + 1.0
  {
    Ceil(m.estimatedDuration * (1.0 - m.progress / 100.0))
  }

  /** No time remains at 100 percent; at 0 percent the whole estimate remains; more progress never means more time. */
  lemma EstimatedTimeRemainingMonotone(m: Mission, progress: real)
    requires m.estimatedDuration >= 0.0 && m.progress <= progress
    ensures EstimatedTimeRemaining(m.(progress := progress)) <= EstimatedTimeRemaining(m)
    ensures m.progress == 100.0 ==> EstimatedTimeRemaining(m) == 0
    ensures m.progress == 0.0 ==> EstimatedTimeRemaining(m) == Ceil(m.estimatedDuration)
  {
    var d := m.estimatedDuration;
    assert d * (1.0 - progress / 100.0) <= d * (1.0 - m.progress / 100.0) by {
      assert (1.0 - progress / 100.0) <= (1.0 - m.progress / 100.0);
      MulMonotone(d, 1.0 - progress / 100.0, 1.0 - m.progress / 100.0);
    }
  }

  lemma MulMonotone(d: real, x: real, y: real)
    requires d >= 0.0 && x <= y
    ensures d * x <= d * y
  {
    assert d * y - d * x == d * (y - x);
  }

  /** The path already flown, as drawn on the map: the waypoints before the cursor, then the drone's
      position; empty with nothing selected, no position, or the cursor at 0. `None` stands for the
      failing read of a waypoint beyond the end of the selected mission's path. */
  function CompletedPath(mon: Monitor): (r: Option<seq<LatLng>>)
    ensures mon.selected.None? || mon.position.None? || mon.cursor == 0 ==> r == Some([])
    ensures mon.selected.Some? && mon.position.Some? && 0 < mon.cursor <= |mon.selected.value.waypoints| ==>
      && r.Some? && |r.value| == mon.cursor + 1
      && (forall i :: 0 <= i < mon.cursor ==> r.value[i] == Position(mon.selected.value.waypoints[i]))
      && r.value[mon.cursor] == mon.position.value
    ensures mon.selected.Some? && mon.position.Some? && mon.cursor > |mon.selected.value.waypoints| ==> r.None?
  {
    if mon.selected.None? || mon.position.None? || mon.cursor == 0 then Some([])
    else if mon.cursor > |mon.selected.value.waypoints| then None
    else Some(Positions(mon.selected.value.waypoints[..mon.cursor]) + [mon.position.value])
  }
}
