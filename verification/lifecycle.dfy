/** Properties of the mission lifecycle that relate several steps of the live-monitoring engine. */
module Lifecycle {
  import opened Wrappers
  import opened Types
  import opened Store
  import opened LiveMonitoring

  /** The frame scheduler firing at each clock reading of `times` in turn. */
  function RunTicks(mon: Monitor, times: seq<Timestamp>): (r: Monitor)
    requires Wf(mon)
    ensures Wf(r) && r.selected == mon.selected
    decreases |times|
  {
    if |times| == 0 then mon else RunTicks(Tick(mon, times[0]), times[1..])
  }

  /** Every mission in the store holds a progress between 0 and 100. */
  ghost predicate AllProgressInRange(s: AppState) {
    forall i :: 0 <= i < |s.missions| ==> ProgressInRange(s.missions[i])
  }

  /** If every segment is given at least its full duration, the animation ends with the selected mission
      completed at progress 100, its drone available and the cursor on the last waypoint. */
  lemma {:induction false} FullRunCompletes(mon: Monitor, times: seq<Timestamp>)
    requires Wf(mon) && mon.animation.Running?
    requires |times| == |mon.selected.value.waypoints| - 1 - mon.cursor
    requires |times| > 0 ==> times[0] >= mon.animation.startTime + SegmentMs
    requires forall k :: 0 < k < |times| ==> times[k] >= times[k - 1] + SegmentMs
    ensures var r := RunTicks(mon, times);
            var m := mon.selected.value;
            && r.animation.Stopped?
            && r.cursor + 1 == |m.waypoints|
            && (forall i :: 0 <= i < |r.store.missions| && r.store.missions[i].id == m.id ==>
                  r.store.missions[i].status == Completed && r.store.missions[i].progress == 100.0)
            && (forall i :: 0 <= i < |r.store.drones| && r.store.drones[i].id == m.droneId ==>
                  r.store.drones[i].status == Available)
    decreases |times|
  {
    var m := mon.selected.value;
    var next := Tick(mon, times[0]);
    assert next.cursor == mon.cursor + 1;
    if |times| == 1 {
      var f := Frame(mon, times[0]);
      assert Completes(f);
      assert next == RunEffect(f, times[0]);
      assert times[1..] == [];
      assert RunTicks(mon, times) == next;
      forall i | 0 <= i < |next.store.missions| && next.store.missions[i].id == m.id
        ensures next.store.missions[i].status == Completed && next.store.missions[i].progress == 100.0
      {
        assert f.store.missions[i].id == m.id;
      }
    } else {
      assert next.animation == Running(times[0]);
      FullRunCompletes(next, times[1..]);
    }
  }

  /** A planned mission with a single waypoint is completed by its start: no segment is ever animated. */
  lemma StartSingleWaypointCompletes(mon: Monitor, mission: Mission, now: Timestamp)
    requires mission.status == Planned && |mission.waypoints| == 1
    requires Find(mon.store.missions, mission.id) == Some(mission)
    ensures var r := Start(mon, mission, now);
            && r.animation.Stopped?
            && MissionsRewritten(mon.store.missions, r.store.missions, mission.id,
                 (m: Mission) => m.(status := Completed, progress := 100.0, startedAt := Some(now), completedAt := Some(now)))
            && DronesSetTo(mon.store.drones, r.store.drones, mission.droneId, Available)
  {
    var l := Launch(mon, mission, now);
    assert Completes(l);
  }

  /** Starting a planned mission with at least one segment marks it in progress, puts its drone in
      mission and schedules the loop from the first waypoint. */
  lemma StartPlannedAnimates(mon: Monitor, mission: Mission, now: Timestamp)
    requires mission.status == Planned && |mission.waypoints| >= 2
    requires Find(mon.store.missions, mission.id) == Some(mission)
    ensures var r := Start(mon, mission, now);
            && r.animation == Running(now)
            && r.position == Some(Position(mission.waypoints[0]))
            && MissionsRewritten(mon.store.missions, r.store.missions, mission.id,
                 (m: Mission) => m.(status := InProgress, startedAt := Some(now), progress := 0.0))
            && DronesSetTo(mon.store.drones, r.store.drones, mission.droneId, InMission)
  {
  }

  /** Starting a mission that is not planned leaves the store as it is (when it has a segment to fly):
      only the cursor, the position and the snapshot are reset. */
  lemma StartNotPlannedKeepsStore(mon: Monitor, mission: Mission, now: Timestamp)
    requires mission.status != Planned && |mission.waypoints| >= 2
    requires Find(mon.store.missions, mission.id) == Some(mission)
    ensures var r := Start(mon, mission, now);
            && r.store == mon.store
            && r.cursor == 0 && r.position == Some(Position(mission.waypoints[0]))
            && r.selected == Some(mission.(status := InProgress, progress := 0.0))
  {
  }

  /** Progress is compared with the snapshot taken at start (progress 0), not with what was last
      published: after a start, every frame more than 0.5 points past 0 writes its progress. */
  lemma PublishesAgainstStartSnapshot(mon: Monitor, mission: Mission, t0: Timestamp, now: Timestamp)
    requires Find(mon.store.missions, mission.id) == Some(mission) && |mission.waypoints| >= 2
    requires t0 <= now < t0 + SegmentMs
    ensures var s := Start(mon, mission, t0);
            var overall := OverallProgress(0, SegmentFraction(now - t0), |mission.waypoints|);
            overall > PublishThreshold ==>
              MissionsRewritten(s.store.missions, Tick(s, now).store.missions, mission.id,
                                (x: Mission) => x.(progress := overall))
  {
    var s := Start(mon, mission, t0);
    StartSnapshot(mon, mission, t0);
    var p := SegmentFraction(now - t0);
    OverallProgressBounds(0, p, |mission.waypoints|);
    TickWithinSegment(s, now);
  }

  /** After a start with a segment to fly, the snapshot is the mission at progress 0 and the loop runs from
      the first waypoint. */
  lemma StartSnapshot(mon: Monitor, mission: Mission, t0: Timestamp)
    requires Find(mon.store.missions, mission.id) == Some(mission) && |mission.waypoints| >= 2
    ensures var s := Start(mon, mission, t0);
            s.selected == Some(mission.(status := InProgress, progress := 0.0)) && s.animation == Running(t0) && s.cursor == 0
  {
  }

  /** Before the segment is fully flown, a tick is one frame and nothing more. */
  lemma TickWithinSegment(mon: Monitor, now: Timestamp)
    requires Wf(mon) && mon.animation.Running? && now - mon.animation.startTime < SegmentMs
    ensures Tick(mon, now) == Frame(mon, now)
  {
  }

  /** The start handler by itself, called on a mission already in progress, can LOWER its stored progress:
      the snapshot restarts at 0 and the first segment is flown again. The dashboard offers the handler only
      for planned missions; `SelectAfterRemountLowersProgress` is the reachable route to the same drop. */
  lemma RestartLowersProgress()
    ensures var ws := [Waypoint(0.0, 0.0, 50.0), Waypoint(0.0, 1.0, 50.0), Waypoint(0.0, 2.0, 50.0)];
            var m := Mission("m1", "Survey", "d1", InProgress, ws, Polygon([]),
                             Parameters(50.0, 5.0, 70.0, Perimeter), 80.0, 0, Some(0), None, 30.0, 0.3);
            var s := Start(InitialMonitor(AppState([], [m], None)), m, 10);
            var r := Tick(s, 1510);
            && s.store == AppState([], [m], None)
            && r.store.missions[0].progress == 25.0
  {
    var ws := [Waypoint(0.0, 0.0, 50.0), Waypoint(0.0, 1.0, 50.0), Waypoint(0.0, 2.0, 50.0)];
    var m := Mission("m1", "Survey", "d1", InProgress, ws, Polygon([]),
                     Parameters(50.0, 5.0, 70.0, Perimeter), 80.0, 0, Some(0), None, 30.0, 0.3);
    var s := Start(InitialMonitor(AppState([], [m], None)), m, 10);
    assert Find([m], "m1") == Some(m);
    assert s.animation == Running(10) && s.selected.value.progress == 0.0;
    assert SegmentFraction(1500) == 0.5;
    assert OverallProgress(0, 0.5, 3) == 25.0;
  }

  /** The same drop through the mission cards: the start handler is offered only for planned missions, but
      a freshly mounted monitor (cursor 0) that selects an in-progress card flies its first segment again and
      publishes against the stored progress only when the two differ by more than half a point. */
  lemma SelectAfterRemountLowersProgress()
    ensures var ws := [Waypoint(0.0, 0.0, 50.0), Waypoint(0.0, 1.0, 50.0), Waypoint(0.0, 2.0, 50.0)];
            var m := Mission("m1", "Survey", "d1", InProgress, ws, Polygon([]),
                             Parameters(50.0, 5.0, 70.0, Perimeter), 80.0, 0, Some(0), None, 30.0, 0.3);
            var s := Select(InitialMonitor(AppState([], [m], None)), m, 10);
            var r := Tick(s, 1510);
            && s.store == AppState([], [m], None)
            && r.store.missions[0].progress == 25.0
  {
    var ws := [Waypoint(0.0, 0.0, 50.0), Waypoint(0.0, 1.0, 50.0), Waypoint(0.0, 2.0, 50.0)];
    var m := Mission("m1", "Survey", "d1", InProgress, ws, Polygon([]),
                     Parameters(50.0, 5.0, 70.0, Perimeter), 80.0, 0, Some(0), None, 30.0, 0.3);
    var s := Select(InitialMonitor(AppState([], [m], None)), m, 10);
    assert s.animation == Running(10) && s.selected.value.progress == 80.0;
    assert SegmentFraction(1500) == 0.5;
    assert OverallProgress(0, 0.5, 3) == 25.0;
  }

  /** Selecting an in-progress mission keeps the cursor of the previous one: if it already lies at or past
      the new mission's last waypoint, the new mission is completed on the spot. This needs the render
      before the effect to succeed, so the flown path must not read past the new path's end. */
  lemma StaleCursorCompletesOnSelect(mon: Monitor, mission: Mission, now: Timestamp)
    requires mission.status == InProgress && mon.cursor + 1 >= |mission.waypoints|
    requires mon.position.None? || mon.cursor <= |mission.waypoints|
    ensures var r := Select(mon, mission, now);
            && r.animation.Stopped?
            && MissionsRewritten(mon.store.missions, r.store.missions, mission.id,
                 (m: Mission) => m.(status := Completed, progress := 100.0, completedAt := Some(now)))
  {
    assert Completes(mon.(selected := Some(mission)));
  }

  /** Ids need not be unique. Starting the second of two missions that share an id snapshots the
      FIRST one's record (the store lookup finds it first), while the drone is placed at the start of the
      second one's path. */
  lemma StartDuplicateSnapshotsFirst(mon: Monitor, first: Mission, second: Mission, now: Timestamp)
    requires mon.store.missions == [first, second] && first.id == second.id && |second.waypoints| > 0
    ensures var r := Launch(mon, second, now);
            && r.selected == Some(first.(status := InProgress, progress := 0.0))
            && r.position == Some(Position(second.waypoints[0]))
  {
    assert Find(mon.store.missions, second.id) == Some(first);
  }

  /** Once paused, the scheduler has nothing to run: ticks change nothing. */
  lemma PausedTicksChangeNothing(mon: Monitor, now: Timestamp)
    requires Wf(mon)
    ensures Tick(Pause(mon), now) == Pause(mon)
  {
  }

  /** With a clock that does not run backwards, a tick keeps every stored progress within 0..100. */
  lemma TickKeepsProgressInRange(mon: Monitor, now: Timestamp)
    requires Wf(mon) && AllProgressInRange(mon.store)
    requires mon.animation.Running? ==> mon.animation.startTime <= now
    ensures AllProgressInRange(Tick(mon, now).store)
  {
    if mon.animation.Running? {
      var m := mon.selected.value;
      var p := SegmentFraction(now - mon.animation.startTime);
      OverallProgressBounds(mon.cursor, p, |m.waypoints|);
      var f := Frame(mon, now);
      assert AllProgressInRange(f.store);
      if f.cursor != mon.cursor {
        var r := RunEffect(f, now);
        forall i | 0 <= i < |r.store.missions|
          ensures ProgressInRange(r.store.missions[i])
        {
          assert ProgressInRange(f.store.missions[i]);
        }
      }
    }
  }

  /** Starting keeps every stored progress within 0..100. */
  lemma StartKeepsProgressInRange(mon: Monitor, mission: Mission, now: Timestamp)
    requires AllProgressInRange(mon.store)
    ensures AllProgressInRange(Start(mon, mission, now).store)
  {
    var l := Launch(mon, mission, now);
    assert AllProgressInRange(l.store) by {
      forall i | 0 <= i < |l.store.missions|
        ensures ProgressInRange(l.store.missions[i])
      {
        assert ProgressInRange(mon.store.missions[i]);
      }
    }
    var r := RunEffect(l, now);
    forall i | 0 <= i < |r.store.missions|
      ensures ProgressInRange(r.store.missions[i])
    {
      assert ProgressInRange(l.store.missions[i]);
    }
  }

  /** Selecting keeps every stored progress within 0..100. */
  lemma SelectKeepsProgressInRange(mon: Monitor, mission: Mission, now: Timestamp)
    requires AllProgressInRange(mon.store)
    ensures AllProgressInRange(Select(mon, mission, now).store)
  {
    var r := Select(mon, mission, now);
    forall i | 0 <= i < |r.store.missions|
      ensures ProgressInRange(r.store.missions[i])
    {
      assert ProgressInRange(mon.store.missions[i]);
    }
  }

  /** Aborting keeps every stored progress within 0..100: it does not touch progress. */
  lemma AbortKeepsProgressInRange(mon: Monitor, mission: Mission, now: Timestamp)
    requires AllProgressInRange(mon.store)
    ensures AllProgressInRange(Abort(mon, mission, now).store)
  {
    var a := Abort(mon, mission, now);
    forall i | 0 <= i < |a.store.missions|
      ensures ProgressInRange(a.store.missions[i])
    {
      assert ProgressInRange(mon.store.missions[i]);
    }
  }

  /** Two waypoints one degree of longitude apart, started at time 0: half-way through the segment the
      drone is at (0, 0.5) with 50 percent published; at 3000 ms the mission is completed at 100 percent. */
  lemma TwoWaypointScenario()
    ensures var ws := [Waypoint(0.0, 0.0, 10.0), Waypoint(0.0, 1.0, 10.0)];
            var m := Mission("m1", "Survey", "d1", Planned, ws, Polygon([]),
                             Parameters(10.0, 5.0, 70.0, Crosshatch), 0.0, 0, None, None, 30.0, 0.2);
            var d := Drone("d1", "Scout", Available, 90.0, LatLng(0.0, 0.0), "Quad", 0);
            var s1 := Start(InitialMonitor(AppState([d], [m], None)), m, 0);
            var s2 := Tick(s1, 1500);
            var s3 := Tick(s2, 3000);
            && s1.store.drones[0].status == InMission
            && s2.position == Some(LatLng(0.0, 0.5))
            && s2.store.missions[0].status == InProgress && s2.store.missions[0].progress == 50.0
            && s3.store.missions[0].status == Completed && s3.store.missions[0].progress == 100.0
            && s3.store.missions[0].completedAt == Some(3000)
            && s3.store.drones[0].status == Available && s3.animation.Stopped?
  {
    var ws := [Waypoint(0.0, 0.0, 10.0), Waypoint(0.0, 1.0, 10.0)];
    var m := Mission("m1", "Survey", "d1", Planned, ws, Polygon([]),
                     Parameters(10.0, 5.0, 70.0, Crosshatch), 0.0, 0, None, None, 30.0, 0.2);
    var d := Drone("d1", "Scout", Available, 90.0, LatLng(0.0, 0.0), "Quad", 0);
    var s0 := InitialMonitor(AppState([d], [m], None));
    assert Find([m], "m1") == Some(m);
    var s1 := Start(s0, m, 0);
    assert s1.animation == Running(0) && s1.selected.value.progress == 0.0 && s1.cursor == 0;
    assert s1.store.missions[0].id == "m1";
    assert SegmentFraction(1500) == 0.5;
    assert OverallProgress(0, 0.5, 2) == 50.0;
    var s2 := Tick(s1, 1500);
    assert s2.animation == Running(0) && s2.cursor == 0;
    assert s2.store.missions[0].id == "m1";
    assert SegmentFraction(3000) == 1.0;
    var f := Frame(s2, 3000);
    assert Completes(f);
    assert f.store.missions[0].id == "m1";
  }
}
