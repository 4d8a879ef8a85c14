# Drone survey dashboard — a Dafny model

This project models the sequential logic of a drone survey management dashboard (a React application
with a zustand store). The presentation is stripped away. What remains are immutable records, pure state
transformers and one step-function state machine:

- **Domain records** (`types.dfy`, module `Types`): `Drone`, `Waypoint`, `Mission` and their closed
  status and pattern enumerations. Timestamps are integer milliseconds. Coordinates, progress, durations,
  distances and battery levels are `real`.
- **Store** (`store.dfy`, module `Store`): the drone and mission collections and the selected mission.
  It offers wholesale replacement, append, and the "map over the sequence and merge into the matching id"
  updates. A `Partial<Mission>` becomes a `MissionPatch` with an optional value per field, and the object
  spread `{ ...m, ...updates }` becomes `Merge`.
- **Live monitoring** (`live_monitoring.dfy`, module `LiveMonitoring`; `lifecycle.dfy`, module `Lifecycle`):
  the component state is a `Monitor`. It holds the store, the component's own snapshot of the selected
  mission, the drone position, the waypoint cursor and whether a frame loop is scheduled.
  - `Launch` is the start handler.
  - `RunEffect` is the animation effect. It re-runs whenever the selection or the cursor changes.
  - `Frame` is one call of the frame callback.
  - `Tick(mon, now)` is one firing of the frame scheduler: a frame, then the effect's re-run if the cursor advanced.
  - `Start`, `Select`, `Pause` and `Abort` are the user-visible controls.
- **Reports** (`survey_reports.dfy`, module `SurveyReports`): the statistics panel, the newest-first
  mission history and the per-mission duration.
- **Planning** (`mission_planning.dfy`, module `MissionPlanning`): the available-drone list, the
  crosshatch and perimeter generators, the pattern dispatch and the create-mission gate.
- Helpers: `Wrappers.Option`, `Seqs.Filter` / `Seqs.MapWhere` (the array `filter` and conditional `map`),
  and `Numeric` (`Math.min`, `Math.abs`, `Math.round`, `Math.ceil` on reals).

Behaviour of the code that the model reproduces on purpose:

- A one-waypoint mission is completed by the effect as soon as it is started. The effect checks the
  cursor against the last index before any division by `length - 1` happens.
- The 0.5-point publishing threshold compares against the component's snapshot of the mission, never
  against the value last written to the store. The snapshot is never refreshed while the mission flies.
  The start handler forces its progress to 0 (`Lifecycle.PublishesAgainstStartSnapshot`).
- A mission that is already in progress can have its stored progress lowered. The Start button is
  offered only for planned missions (LiveMonitoring.tsx:328). But leaving the monitoring tab unmounts
  the component, which resets the cursor to 0. Clicking the in-progress mission's card then flies its
  first segment again and overwrites the stored progress
  (`Lifecycle.SelectAfterRemountLowersProgress`: 80 percent becomes 25). The start handler alone would
  do the same if it were called on an in-progress mission (`Lifecycle.RestartLowersProgress`).
- `Abort` marks the mission aborted whatever its status. It leaves progress as it is and frees the drone.
- `Launch` writes to the store only for a `planned` mission.
- Selecting a mission card keeps the cursor of the previous animation. React renders before it runs
  the effect. The render draws the flown path, which reads the waypoints before the cursor
  (LiveMonitoring.tsx:151-152).
  - If a position is shown and the cursor lies beyond the new path's end, that read fails and the render
    throws before the effect runs. `LiveMonitoring.CompletedPath` returns `None` there.
  - Otherwise, for an in-progress card whose last waypoint the cursor already reaches, the effect
    completes the mission on the spot (`Lifecycle.StaleCursorCompletesOnSelect`).
  - A planned card only stops the loop.
- Mission ids need not be unique. Starting the second of two missions with the same id snapshots the
  first one's record, because the store lookup finds it first. The drone is still placed on the second
  one's path (`Lifecycle.StartDuplicateSnapshotsFirst`).
- The segment fraction is capped at 1 but not floored at 0. A clock reading earlier than the segment
  start gives a negative fraction (`LiveMonitoring.SegmentFraction`).

Behaviour a reader might expect but the code does not have:

- `addMission` does not reject a duplicate id (`MissionPlanning.SameInstantDuplicateIds`).
- `updateDroneBattery` does not keep the level within the 0..100 range documented at src/types.ts:12
  (`Store.BatteryNotClamped`).

## Model

| member | source | states |
|---|---|---|
| Types.ParseDroneStatus | src/types.ts:10 | a drone status literal is accepted exactly when it is one of the four names, and each name denotes exactly one status |
| Types.ParseMissionStatus | src/types.ts:47 | a mission status literal is accepted exactly when it is planned / in-progress / completed / aborted, one status each |
| Types.ParsePattern | src/types.ts:64 | a pattern literal is accepted exactly when it is crosshatch or perimeter, one pattern each |
| Types.Positions | src/components/MissionPlanning.tsx:86 | projecting waypoints to (lat, lng) keeps length and order, element by element |
| Store.InitialState | src/store.ts:37-39 | the store starts with no drone, no mission and no selected mission |
| Store.SetDrones | src/store.ts:41 | the drone collection is replaced wholesale; missions and selection are untouched |
| Store.SetMissions | src/store.ts:43 | the mission collection is replaced wholesale; drones and selection are untouched |
| Store.AddMission | src/store.ts:45-47 | the mission is appended at the end: length grows by one and every earlier mission is unchanged |
| Store.UpdateMission | src/store.ts:49-53 | length and order are kept; each mission with the id gets the patch merged over its own fields; every other mission is unchanged |
| Store.MergeNoChange | src/store.ts:51 | spreading an empty update over a mission gives the mission back |
| Store.MergeIdempotent | src/store.ts:51 | spreading the same update twice equals spreading it once |
| Store.UpdateMissionAbsentId | src/store.ts:49-53 | updating an id no mission carries returns an identical store |
| Store.UpdateMissionIdempotent | src/store.ts:49-53 | applying the same mission update twice equals applying it once |
| Store.SetSelectedMission | src/store.ts:55 | only the selected mission changes |
| Store.UpdateDroneStatus | src/store.ts:57-61 | drones with the id get the new status and nothing else changes; all other drones are unchanged |
| Store.UpdateDroneBattery | src/store.ts:63-67 | drones with the id get the given level verbatim; all other drones and fields are unchanged |
| Store.BatteryNotClamped | src/store.ts:63-67 | a level of 150 is stored as given, so the documented 0..100 range is not enforced |
| Numeric.Min | src/components/LiveMonitoring.tsx:110 | Math.min: the result is one of the two arguments and is not above either |
| Numeric.Abs | src/components/LiveMonitoring.tsx:119 | Math.abs: the result is non-negative and is the argument or its negation |
| Numeric.Round | src/components/SurveyReports.tsx:57 | Math.round: the result is within half a unit of the argument, halves going up |
| Numeric.Ceil | src/components/LiveMonitoring.tsx:142 | Math.ceil: the least integer not below the argument |
| LiveMonitoring.InitialMonitor | src/components/LiveMonitoring.tsx:30-33 | the component starts with no selection, no position, cursor 0 and no loop |
| LiveMonitoring.ActiveMissions | src/components/LiveMonitoring.tsx:36 | the monitored list holds exactly the planned and in-progress missions |
| LiveMonitoring.ActiveMissionsInOrder | src/components/LiveMonitoring.tsx:36 | the list of a split store is the concatenation of the parts' lists, so store order is kept |
| LiveMonitoring.ActiveMissionsSingle | src/components/LiveMonitoring.tsx:36 | one mission is listed once if it is planned or in progress, otherwise not at all; with the previous row this fixes the list, multiplicity included |
| LiveMonitoring.Find | src/components/LiveMonitoring.tsx:55 | the result is absent exactly when no mission has the id; otherwise it is the first mission with the id |
| LiveMonitoring.Launch | src/components/LiveMonitoring.tsx:43-59 | a planned mission becomes in-progress with progress 0, started now, and its drone in-mission; any other status leaves the store unchanged; the snapshot is forced in-progress at 0; cursor 0; position = first waypoint (none for an empty path); the loop is not touched |
| LiveMonitoring.RunEffect | src/components/LiveMonitoring.tsx:81-138 | a loop is scheduled exactly for a selected in-progress mission with a segment ahead of the cursor; at or past the last waypoint the mission is completed with progress 100 and its drone freed; otherwise the store is untouched |
| LiveMonitoring.LerpEnds | src/components/LiveMonitoring.tsx:112-113 | the interpolated coordinate is the start at p = 0 and the end at p = 1 |
| LiveMonitoring.LerpBetween | src/components/LiveMonitoring.tsx:112-113 | for p in [0, 1] the interpolated coordinate lies between start and end |
| LiveMonitoring.SegmentFraction | src/components/LiveMonitoring.tsx:109-110 | the fraction lies in [0, 1] for non-negative elapsed time; it is 1 exactly when 3000 ms have passed; it is negative for negative elapsed time |
| LiveMonitoring.OverallProgressBounds | src/components/LiveMonitoring.tsx:117 | with a segment ahead of the cursor and p in [0, 1], overall progress is in [0, 100] |
| LiveMonitoring.OverallProgressMonotone | src/components/LiveMonitoring.tsx:117 | overall progress is non-decreasing in cursor + p, and strictly increasing |
| LiveMonitoring.OverallProgressSegmentEnds | src/components/LiveMonitoring.tsx:117 | the end of one segment and the start of the next give equal progress; the last segment ends at 100 |
| LiveMonitoring.Frame | src/components/LiveMonitoring.tsx:108-129 | the position is the interpolated point; progress is written exactly when it differs from the snapshot's by more than 0.5; the cursor advances by one exactly when the segment's 3000 ms are over |
| LiveMonitoring.Tick | src/components/LiveMonitoring.tsx:108-131 | ticks keep the loop invariant and the snapshot; with no loop nothing changes; the cursor moves by one exactly at the end of a segment |
| LiveMonitoring.Pause | src/components/LiveMonitoring.tsx:61-65 | only the loop is cancelled: store, snapshot, position and cursor are unchanged |
| LiveMonitoring.Abort | src/components/LiveMonitoring.tsx:67-78 | missions with the id become aborted at now whatever their status, progress untouched; their drone becomes available; selection and position are cleared; the cursor is kept |
| LiveMonitoring.Start | src/components/LiveMonitoring.tsx:43-59 | after starting, the cursor is 0 and the mission is selected; a loop runs exactly when the selected path has a segment |
| LiveMonitoring.Select | src/components/LiveMonitoring.tsx:280-283 | the clicked mission becomes the snapshot as is; cursor and position are kept; a mission that is not in progress stops the loop and leaves the store alone |
| LiveMonitoring.EstimatedTimeRemaining | src/components/LiveMonitoring.tsx:140-143 | the result is the unflown share of the estimate, rounded up to whole minutes |
| LiveMonitoring.EstimatedTimeRemainingMonotone | src/components/LiveMonitoring.tsx:140-143 | more progress never means more remaining time; at 100 percent none remains |
| LiveMonitoring.CompletedPath | src/components/LiveMonitoring.tsx:145-156 | the path is empty without selection or position, or at cursor 0; otherwise it is the waypoints before the cursor followed by the position (length cursor + 1); a cursor beyond the path is the failing read |
| Lifecycle.FullRunCompletes | src/components/LiveMonitoring.tsx:90-131 | if every segment gets its 3000 ms, the run ends with the loop stopped, the cursor on the last waypoint, the mission completed at 100 and its drone available |
| Lifecycle.StartSingleWaypointCompletes | src/components/LiveMonitoring.tsx:90-98 | starting a planned one-waypoint mission completes it at once: started and completed now, progress 100, drone available, no loop |
| Lifecycle.StartPlannedAnimates | src/components/LiveMonitoring.tsx:46-58 | starting a planned mission with a segment marks it in progress at 0, started now; its drone goes in-mission; the loop runs from the first waypoint |
| Lifecycle.StartNotPlannedKeepsStore | src/components/LiveMonitoring.tsx:46-58 | starting a non-planned mission with a segment leaves the store unchanged; only cursor, position and snapshot are reset |
| Lifecycle.StartSnapshot | src/components/LiveMonitoring.tsx:55-58 | after such a start the snapshot is the mission in progress at 0 and the loop starts now at cursor 0 |
| Lifecycle.TickWithinSegment | src/components/LiveMonitoring.tsx:123-124 | before the segment is over, a tick is one frame and nothing more |
| Lifecycle.PublishesAgainstStartSnapshot | src/components/LiveMonitoring.tsx:117-121 | after a start, any frame whose progress exceeds 0.5 writes it, whatever the store held |
| Lifecycle.RestartLowersProgress | src/components/LiveMonitoring.tsx:43-59 | the start handler by itself, called on an in-progress mission at 80 percent: after half a segment it writes 25 percent (the Start button is shown only for planned missions) |
| Lifecycle.SelectAfterRemountLowersProgress | src/components/LiveMonitoring.tsx:280-283 | on a freshly mounted monitor, clicking the card of a mission in progress at 80 percent and flying half a segment writes 25 percent |
| Lifecycle.StaleCursorCompletesOnSelect | src/components/LiveMonitoring.tsx:90-98 | selecting an in-progress mission while the cursor is at or past its last waypoint completes it at once, provided the render before the effect does not read past the path (no position shown, or the cursor within the path) |
| Lifecycle.StartDuplicateSnapshotsFirst | src/components/LiveMonitoring.tsx:55-58 | starting the second of two missions sharing an id snapshots the first one's record, forced in progress at 0, while the position is the second one's first waypoint |
| Lifecycle.PausedTicksChangeNothing | src/components/LiveMonitoring.tsx:61-65 | after pausing, ticks change nothing |
| Lifecycle.TickKeepsProgressInRange | src/components/LiveMonitoring.tsx:117-121 | with a clock that does not run backwards, ticks keep every stored progress within 0..100 |
| Lifecycle.StartKeepsProgressInRange | src/components/LiveMonitoring.tsx:46-53 | starting keeps every stored progress within 0..100 |
| Lifecycle.SelectKeepsProgressInRange | src/components/LiveMonitoring.tsx:90-98 | selecting keeps every stored progress within 0..100 |
| Lifecycle.AbortKeepsProgressInRange | src/components/LiveMonitoring.tsx:71-74 | aborting keeps every stored progress within 0..100 |
| Lifecycle.TwoWaypointScenario | src/components/LiveMonitoring.tsx:101-131 | two waypoints started at 0: at 1500 ms the drone is at (0, 0.5) with 50 percent written; at 3000 ms the mission is completed at 100 and the drone is available |
| SurveyReports.SumFlightMinutesAppend | src/components/SurveyReports.tsx:14-20 | the flight-time fold over two lists is the sum of the folds |
| SurveyReports.SumDistanceAppend | src/components/SurveyReports.tsx:22 | the distance fold over two lists is the sum of the folds |
| SurveyReports.SumDistanceNonNegative | src/components/SurveyReports.tsx:22 | non-negative distances give a non-negative total |
| SurveyReports.StatusCountsPartition | src/components/SurveyReports.tsx:10-12 | the four status counts add up to the number of missions |
| SurveyReports.SuccessRateAsWritten | src/components/SurveyReports.tsx:28-30 | the rate is undefined (NaN) exactly when there are missions but none is completed or aborted |
| SurveyReports.SuccessRateAsWrittenUndefined | src/components/SurveyReports.tsx:28-30 | a single planned mission already makes the rate undefined |
| SurveyReports.SuccessRate | src/components/SurveyReports.tsx:28-30 | the rate is in [0, 100]; it is 0 with no finished or no completed mission; rate × (completed + aborted) = completed × 100 |
| SurveyReports.SuccessRateAgrees | src/components/SurveyReports.tsx:28-30 | wherever the rate as written is defined, it equals the guarded rate |
| SurveyReports.ComputeStats | src/components/SurveyReports.tsx:9-42 | the total is the mission count; the counts are the status filters and together do not exceed the total; flight time is the unrounded sum rounded; average × completed = unrounded flight time, and average is 0 when nothing is completed; success rate (the corrected rate, see Findings) in [0, 100] |
| SurveyReports.StatsIgnoreUnfinished | src/components/SurveyReports.tsx:14-22 | a mission that is not completed adds nothing to flight time or distance, but counts in the total |
| SurveyReports.StatsCountCompleted | src/components/SurveyReports.tsx:14-22 | a completed mission adds its measured minutes (or its estimate) and its distance |
| SurveyReports.InsertNewestFirst | src/components/SurveyReports.tsx:46-50 | inserting into a newest-first list keeps it newest first and adds exactly the one mission |
| SurveyReports.SortNewestFirst | src/components/SurveyReports.tsx:46-50 | the result is a permutation of the input, newest first |
| SurveyReports.History | src/components/SurveyReports.tsx:44-52 | the history is exactly the completed and aborted missions (with multiplicity), newest first by completion time, falling back to creation time |
| SurveyReports.MissionDuration | src/components/SurveyReports.tsx:54-60 | with both timestamps, the duration is a whole number within half a minute of the measured minutes; otherwise it is the estimate |
| MissionPlanning.InitialForm | src/components/MissionPlanning.tsx:19-25 | the form starts empty at altitude 50, speed 5, overlap 70, crosshatch |
| MissionPlanning.AvailableDrones | src/components/MissionPlanning.tsx:27 | the offered drones are exactly the available ones |
| MissionPlanning.AvailableDronesInOrder | src/components/MissionPlanning.tsx:27 | the offer keeps fleet order |
| MissionPlanning.GenerateCrosshatch | src/components/MissionPlanning.tsx:30-47 | 16 points; the point at 4i + j lies i spacings north and j spacings east of the centre; all at the chosen altitude |
| MissionPlanning.PerimeterPoints | src/components/MissionPlanning.tsx:50-62 | 5 points starting at the centre; the first equals the last; four distinct corners joined by axis-parallel sides of 0.002; all at the chosen altitude |
| MissionPlanning.GeneratePattern | src/components/MissionPlanning.tsx:64-70 | only the waypoints change, to the crosshatch grid or the perimeter square as the form's pattern says |
| MissionPlanning.DecimalString | src/components/MissionPlanning.tsx:79 | the rendered timestamp is a non-empty string of digits without a leading zero |
| MissionPlanning.DecimalRoundTrip | src/components/MissionPlanning.tsx:79 | reading the rendered digits back gives the timestamp |
| MissionPlanning.MissionIdSameInstant | src/components/MissionPlanning.tsx:79 | two mission ids are equal exactly when they were created in the same millisecond |
| MissionPlanning.HandleCreateMission | src/components/MissionPlanning.tsx:72-106 | rejected, with nothing changed, exactly when the name, the drone or the waypoints are empty; otherwise a planned mission at progress 0 is appended, with no start or completion time, the form's drone and waypoints, the projected survey polygon, parameters from the form, 30 minutes and 0.1 km per waypoint; name and waypoints are then cleared |
| MissionPlanning.SameInstantDuplicateIds | src/components/MissionPlanning.tsx:78-100 | two creations in the same millisecond append two missions with the same id |

## Left out

- Rendering: JSX, inline styles, Leaflet maps, markers and icons, and `FleetDashboard.tsx`, which only renders the drone list.
- `App.tsx`: tab navigation and the one-time seeding from a mock data file, which is not part of this model.
- `console.log` and `alert` have no effect on state and are dropped.
- The frame scheduler and React's effect timing are host-runtime concurrency. They are replaced by the explicit steps `Tick`, `RunEffect`, `Start`, `Select`, `Pause` and `Abort`.
- React skips a re-render when a state setter receives the very same object. The model compares values, not object identity, so `Select` always re-runs the effect.
- Frame ids are treated as always truthy (`if (animationRef.current)`).
- Clocks: `Date.now()` and `toISOString()` become a caller-supplied `now` in milliseconds. The create handler reads the clock twice (id and `createdAt`); the model uses one instant for both.
- Numbers are exact reals, not IEEE-754 doubles. For example, 3 waypoints give exactly 0.3 km, and the grid coordinates carry no rounding.
- `toFixed(1)`, `toLocaleString` and string formatting of the statistics are dropped. The statistics keep real values; only `Math.round` and `Math.ceil` are modelled.
- An update carrying an explicit `undefined` (which would clear `startedAt` or `completedAt`) cannot be expressed by `MissionPatch`; no caller in the source does this.
- JavaScript truthiness of an empty timestamp string is not modelled: a timestamp is either present or absent.
- The zustand subscription mechanism is not modelled; the store is passed explicitly.
- Types.BatteryInRange: the documented 0..100 battery range is a stated predicate, not an invariant, because the store never enforces it (`Store.BatteryNotClamped`).
- LiveMonitoring.Select: in the program the render before the effect throws when a position is shown and the cursor lies beyond the new path (the flown-path read at LiveMonitoring.tsx:152), or when the path is empty (the map centre read at LiveMonitoring.tsx:172). The tree then unmounts and the effect never runs. The model runs the effect anyway: the failing read shows up only as `LiveMonitoring.CompletedPath` returning `None`, and the rendering error itself is not modelled.
- LiveMonitoring.Start: for a mission with an empty path the render throws at the map centre read (LiveMonitoring.tsx:172) before the effect runs. The model leaves the position absent and lets the effect complete the mission. The create form never produces such a mission; only a wholesale `setMissions` can.
- SurveyReports.ComputeStats: the success rate is the corrected guarded rate, so it is 0 where the code as written yields NaN (missions present, none completed or aborted). The as-written value is `SurveyReports.SuccessRateAsWritten`; see Findings.
- SurveyReports.History: the contract fixes the set of missions and the newest-first order, but not the order among missions with equal keys. The sort is stable like the built-in sort, but this is not proved.
- Lifecycle.TickKeepsProgressInRange: assumes the clock never reads earlier than the start of the current segment. With a backwards clock the negative fraction can write a negative progress.

## Findings

| source | as written | input that shows it | evidently intended | confidence | as-written member | corrected member |
|---|---|---|---|---|---|---|
| src/components/SurveyReports.tsx:28-30 | the guard tests `missions.length > 0` and then divides by `completed + aborted` | one planned mission: 0 / (0 + 0) × 100 is NaN, displayed as "NaN" | guard on `completed + aborted > 0` and give 0 otherwise | high; not executed | SurveyReports.SuccessRateAsWritten, SurveyReports.SuccessRateAsWrittenUndefined | SurveyReports.SuccessRate |

`SurveyReports.ComputeStats` uses the corrected `SurveyReports.SuccessRate`. `SurveyReports.SuccessRateAgrees`
shows the two agree wherever the code as written yields a number.
