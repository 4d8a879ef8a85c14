/** The reporting view: organisation-wide statistics, the mission history and per-mission durations,
    all computed from the mission collection alone. */
module SurveyReports {
  import opened Wrappers
  import opened Types
  import opened Seqs
  import opened Numeric

  const MsPerMinute: real := 60000.0

  /** Both timestamps are present, so the real flight time can be measured. */
  predicate HasTimes(m: Mission) {
    m.startedAt.Some? && m.completedAt.Some?
  }

  /** The minutes a mission counts for in the flight-time total: the time between start and completion
      when both are known, otherwise the estimate. */
  function FlightMinutes(m: Mission): real {
    if HasTimes(m) then (m.completedAt.value - m.startedAt.value) as real / MsPerMinute
    else m.estimatedDuration
  }

  /** The flight-time fold over a list of missions. */
  function SumFlightMinutes(ms: seq<Mission>): real {
    if |ms| == 0 then 0.0 else FlightMinutes(ms[0]) + SumFlightMinutes(ms[1..])
  }

  /** The distance fold over a list of missions. */
  function SumDistance(ms: seq<Mission>): real {
    if |ms| == 0 then 0.0 else ms[0].distance + SumDistance(ms[1..])
  }

  lemma {:induction false} SumFlightMinutesAppend(a: seq<Mission>, b: seq<Mission>)
    ensures SumFlightMinutes(a + b) == SumFlightMinutes(a) + SumFlightMinutes(b)
  {
    if |a| > 0 {
      assert (a + b)[1..] == a[1..] + b;
      SumFlightMinutesAppend(a[1..], b);
    } else {
      assert a + b == b;
    }
  }

  lemma {:induction false} SumDistanceAppend(a: seq<Mission>, b: seq<Mission>)
    ensures SumDistance(a + b) == SumDistance(a) + SumDistance(b)
  {
    if |a| > 0 {
      assert (a + b)[1..] == a[1..] + b;
      SumDistanceAppend(a[1..], b);
    } else {
      assert a + b == b;
    }
  }

  /** Non-negative distances give a non-negative total. */
  lemma {:induction false} SumDistanceNonNegative(ms: seq<Mission>)
    requires forall i :: 0 <= i < |ms| ==> ms[i].distance >= 0.0
    ensures SumDistance(ms) >= 0.0
  {
    if |ms| > 0 {
      SumDistanceNonNegative(ms[1..]);
    }
  }

  /** Flight time before rounding: completed missions only. */
  function RawFlightTime(ms: seq<Mission>): real {
    SumFlightMinutes(Filter(ms, IsCompleted))
  }

  /** Total distance: completed missions only. */
  function TotalDistance(ms: seq<Mission>): real {
    SumDistance(Filter(ms, IsCompleted))
  }

  function Count(ms: seq<Mission>, keep: Mission -> bool): nat {
    |Filter(ms, keep)|
  }

  /** Every mission has exactly one of the four statuses, so the four status counts add up to the total. */
  lemma {:induction false} StatusCountsPartition(ms: seq<Mission>)
    ensures Count(ms, IsPlanned) + Count(ms, IsInProgress) + Count(ms, IsCompleted) + Count(ms, IsAborted) == |ms|
  {
    if |ms| > 0 {
      StatusCountsPartition(ms[1..]);
    }
  }

  /** The success rate as written: 0 for no mission at all, otherwise completed / (completed + aborted) * 100.
      `None` stands for the NaN the division yields when no mission has finished. */
  function SuccessRateAsWritten(ms: seq<Mission>): (r: Option<real>)
    ensures r.None? <==> |ms| > 0 && Count(ms, IsCompleted) + Count(ms, IsAborted) == 0
  {
    var c := Count(ms, IsCompleted);
    var a := Count(ms, IsAborted);
    if |ms| > 0 then
      if c + a == 0 then None else Some(c as real / (c + a) as real * 100.0)
    else Some(0.0)
  }

  /** A single planned mission already makes the success rate as written undefined. */
  lemma SuccessRateAsWrittenUndefined(m: Mission)
    requires m.status == Planned
    ensures SuccessRateAsWritten([m]) == None
  {
    assert Filter([m], IsCompleted) == [] && Filter([m], IsAborted) == [];
  }

  /** The success rate guarded on the number of finished missions: the share of completed among completed
      and aborted missions, in percent, and 0 when none has finished. */
  function SuccessRate(ms: seq<Mission>): (r: real)
    ensures 0.0 <= r <= 100.0
    ensures Count(ms, IsCompleted) + Count(ms, IsAborted) == 0 ==> r == 0.0
    ensures Count(ms, IsCompleted) == 0 ==> r == 0.0
    ensures r * (Count(ms, IsCompleted) + Count(ms, IsAborted)) as real == Count(ms, IsCompleted) as real * 100.0
  {
    var c := Count(ms, IsCompleted);
    var a := Count(ms, IsAborted);
    if c + a == 0 then 0.0
    else
      var n := (c + a) as real;
      RatioAtMostOne(c as real, n);
      RatioScalesBack(c as real, n);
      c as real / n * 100.0
  }

  /** Wherever the rate as written is defined, the guarded rate agrees with it. */
  lemma SuccessRateAgrees(ms: seq<Mission>)
    ensures SuccessRateAsWritten(ms).Some? ==> SuccessRateAsWritten(ms).value == SuccessRate(ms)
  {
    if |ms| == 0 {
      assert Filter(ms, IsCompleted) == [];
    }
  }

  datatype Stats = Stats(
    totalMissions: nat,
    completedMissions: nat,
    abortedMissions: nat,
    activeMissions: nat,
    totalFlightTime: int,
    totalDistance: real,
    avgDuration: real,
    successRate: real)

  /** The statistics panel. The counts are status filters; flight time and distance cover completed
      missions only; the average divides the unrounded flight time by the number of completed missions. */
  function ComputeStats(ms: seq<Mission>): (r: Stats)
    ensures r.totalMissions == |ms|
    ensures r.completedMissions == Count(ms, IsCompleted) && r.abortedMissions == Count(ms, IsAborted)
    ensures r.activeMissions == Count(ms, IsInProgress)
    ensures r.completedMissions + r.abortedMissions + r.activeMissions <= r.totalMissions
    ensures RawFlightTime(ms) - 0.5 < r.totalFlightTime as real <= RawFlightTime(ms) + 0.5
    ensures r.completedMissions > 0 ==> r.avgDuration * r.completedMissions as real == RawFlightTime(ms)
    ensures r.completedMissions == 0 ==> r.avgDuration == 0.0 && r.totalFlightTime == 0 && r.totalDistance == 0.0
    ensures r.totalDistance == TotalDistance(ms)
    ensures 0.0 <= r.successRate <= 100.0
  {
    StatusCountsPartition(ms);
    var completed := Filter(ms, IsCompleted);
    var raw := SumFlightMinutes(completed);
    var avg := if |completed| > 0 then raw / |completed| as real else 0.0;
    Stats(|ms|, |completed|, Count(ms, IsAborted), Count(ms, IsInProgress),
          Round(raw), SumDistance(completed), avg, SuccessRate(ms))
  }

  /** Adding a mission that is not completed changes neither flight time nor distance. */
  lemma StatsIgnoreUnfinished(ms: seq<Mission>, m: Mission)
    requires m.status != Completed
    ensures RawFlightTime(ms + [m]) == RawFlightTime(ms)
    ensures TotalDistance(ms + [m]) == TotalDistance(ms)
    ensures ComputeStats(ms + [m]).totalMissions == ComputeStats(ms).totalMissions + 1
  {
    FilterAppend(ms, [m], IsCompleted);
    assert Filter([m], IsCompleted) == [];
    assert Filter(ms, IsCompleted) + [] == Filter(ms, IsCompleted);
  }

  /** Adding a completed mission adds its flight minutes and its distance. */
  lemma StatsCountCompleted(ms: seq<Mission>, m: Mission)
    requires m.status == Completed
    ensures RawFlightTime(ms + [m]) == RawFlightTime(ms) + FlightMinutes(m)
    ensures TotalDistance(ms + [m]) == TotalDistance(ms) + m.distance
  {
    FilterAppend(ms, [m], IsCompleted);
    assert Filter([m], IsCompleted) == [m];
    SumFlightMinutesAppend(Filter(ms, IsCompleted), [m]);
    SumDistanceAppend(Filter(ms, IsCompleted), [m]);
  }

  /** A mission that has finished, one way or the other. */
  predicate IsFinished(m: Mission) {
    m.status == Completed || m.status == Aborted
  }

  /** The instant the history orders by: completion, or creation for a mission without one. */
  function HistoryKey(m: Mission): Timestamp {
    m.completedAt.GetOr(m.createdAt)
  }

  /** Newest first. */
  predicate NewestFirst(s: seq<Mission>) {
    forall i, j :: 0 <= i < j < |s| ==> HistoryKey(s[i]) >= HistoryKey(s[j])
  }

  /** Every mission of `rest` is at most as new as `top`, given that `rest` holds the missions of `s` and `m`,
      all of them at most as new as `top`. */
  lemma NoNewerThan(top: Mission, m: Mission, s: seq<Mission>, rest: seq<Mission>)
    requires HistoryKey(m) <= HistoryKey(top)
    requires forall k :: 0 <= k < |s| ==> HistoryKey(s[k]) <= HistoryKey(top)
    requires multiset(rest) == multiset(s) + multiset{m}
    ensures forall j :: 0 <= j < |rest| ==> HistoryKey(rest[j]) <= HistoryKey(top)
  {
    forall j | 0 <= j < |rest| ensures HistoryKey(rest[j]) <= HistoryKey(top) {
      assert rest[j] in multiset(rest);
      if rest[j] != m {
        assert rest[j] in multiset(s);
        var k :| 0 <= k < |s| && s[k] == rest[j];
      }
    }
  }

  /** A mission at least as new as all of a newest-first list can head it. */
  lemma PrependNewestFirst(top: Mission, rest: seq<Mission>)
    requires NewestFirst(rest)
    requires forall j :: 0 <= j < |rest| ==> HistoryKey(rest[j]) <= HistoryKey(top)
    ensures NewestFirst([top] + rest)
  {
    var r := [top] + rest;
    forall i, j | 0 <= i < j < |r| ensures HistoryKey(r[i]) >= HistoryKey(r[j]) {
      assert r[j] == rest[j - 1];
      if i > 0 {
        assert r[i] == rest[i - 1];
      }
    }
  }

  /** Places `m` before the first mission that is not newer, keeping `s` newest first. */
  function InsertNewestFirst(m: Mission, s: seq<Mission>): (r: seq<Mission>)
    requires NewestFirst(s)
    ensures NewestFirst(r)
    ensures multiset(r) == multiset(s) + multiset{m}
  {
    if |s| == 0 || HistoryKey(s[0]) <= HistoryKey(m) then
      PrependNewestFirst(m, s);
      [m] + s
    else
      var rest := InsertNewestFirst(m, s[1..]);
      assert s == [s[0]] + s[1..];
      NoNewerThan(s[0], m, s[1..], rest);
      PrependNewestFirst(s[0], rest);
      [s[0]] + rest
  }

  /** Stable sort by `HistoryKey`, newest first (the comparator `dateB - dateA`). */
  function SortNewestFirst(s: seq<Mission>): (r: seq<Mission>)
    ensures NewestFirst(r)
    ensures multiset(r) == multiset(s)
  {
    if |s| == 0 then []
    else
      assert s == [s[0]] + s[1..];
      InsertNewestFirst(s[0], SortNewestFirst(s[1..]))
  }

  /** The mission history: exactly the completed and aborted missions, each as often as in the store,
      newest first. */
  function History(ms: seq<Mission>): (r: seq<Mission>)
    ensures NewestFirst(r)
    ensures multiset(r) == multiset(Filter(ms, IsFinished))
    ensures forall m :: m in r <==> m in ms && (m.status == Completed || m.status == Aborted)
  {
    var finished := Filter(ms, IsFinished);
    var r := SortNewestFirst(finished);
    assert forall m :: m in r <==> m in finished by {
      forall m ensures m in r <==> m in finished {
        assert m in r <==> m in multiset(r);
        assert m in finished <==> m in multiset(finished);
      }
    }
    r
  }

  /** The duration shown for one mission: the measured minutes rounded to a whole number when both
      timestamps are present, the estimate otherwise. */
  function MissionDuration(m: Mission): (r: real)
    ensures HasTimes(m) ==> r == r.Floor as real
    ensures HasTimes(m) ==> FlightMinutes(m) - 0.5 < r <= FlightMinutes(m) + 0.5
    ensures !HasTimes(m) ==> r == m.estimatedDuration
  {
    if HasTimes(m) then Round((m.completedAt.value - m.startedAt.value) as real / MsPerMinute) as real
    else m.estimatedDuration
  }
}
