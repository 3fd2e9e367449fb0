/** The daily planner of the task management system: the working-day slot filler of
    `autoScheduleTasks`, the distributions and totals of a daily plan, and the learning of
    peak hours from the completion history. */
module Planner {
  import opened Common
  import opened Clock
  import opened Sorting
  import opened OrderedMaps
  import opened Tasks

  datatype ScheduledTask = ScheduledTask(taskId: string, startTime: int, endTime: int, bufferTime: real)

  datatype Distribution = Distribution(high: nat, medium: nat, low: nat)

  datatype DailyPlan = DailyPlan(
    date: int,
    totalEstimatedTime: int,
    energyDistribution: Distribution,
    priorityDistribution: Distribution,
    scheduledTasks: seq<ScheduledTask>,
    unscheduledTasks: seq<string>)

  /** The working day runs from 9 to 17 local time; consecutive slots are 15 minutes apart. */
  const WorkStartHour: int := 9
  const WorkEndHour: int := 17
  const SlotGapMinutes: int := 15

  /** `Math.min(duration * 0.2, 15)`: a fifth of the duration, at most 15 minutes. */
  function Buffer(duration: int): (b: real)
    ensures b <= 15.0 && b <= duration as real * 0.2
    ensures b == 15.0 || b == duration as real * 0.2
  {
    if duration as real * 0.2 < 15.0 then duration as real * 0.2 else 15.0
  }

  function NotScheduled(): Task -> bool {
    (t: Task) => t.scheduledTime.None?
  }

  /** The descending priority weight as an ascending key. */
  function PriorityDescKey(t: Task): real {
    -(Weight(t.priority) as real)
  }

  /** The queue `autoScheduleTasks` fills the day from: the tasks without a scheduled time,
      by descending priority, ties in their original order. */
  function ScheduleQueue(tasks: seq<Task>): seq<Task> {
    SortBy(Filter(tasks, NotScheduled()), PriorityDescKey)
  }

  /** The queue holds exactly the unscheduled tasks, heavier priorities first, and keeps
      the original order among tasks of equal priority. */
  lemma ScheduleQueueProperties(tasks: seq<Task>, k: real)
    ensures multiset(ScheduleQueue(tasks)) == multiset(Filter(tasks, NotScheduled()))
    ensures forall i, j :: 0 <= i < j < |ScheduleQueue(tasks)| ==>
              Weight(ScheduleQueue(tasks)[i].priority) >= Weight(ScheduleQueue(tasks)[j].priority)
    ensures WithKey(ScheduleQueue(tasks), PriorityDescKey, k) == WithKey(Filter(tasks, NotScheduled()), PriorityDescKey, k)
  {
    var q := ScheduleQueue(tasks);
    SortBySorted(Filter(tasks, NotScheduled()), PriorityDescKey);
    SortByStable(Filter(tasks, NotScheduled()), PriorityDescKey, k);
    forall i, j | 0 <= i < j < |q| ensures Weight(q[i].priority) >= Weight(q[j].priority) {
      assert PriorityDescKey(q[i]) <= PriorityDescKey(q[j]);
    }
  }

  /** The first slot starts at 9 on the local day of the plan's date. */
  function DayStart(date: int, offset: int): int {
    AtLocalHour(date, offset, WorkStartHour)
  }

  /** The working-hours check of `autoScheduleTasks`: a task may end at `end` when its
      local hour is not after 17. Only the hour is read. */
  function FitsWorkday(offset: int): int -> bool {
    (end: int) => LocalHour(end, offset) <= WorkEndHour
  }

  /** The slots the loop of `autoScheduleTasks` produces from `queue`, starting at
      `cursor`: each task in turn, until the first one whose end `fits` rejects. */
  function Slots(queue: seq<Task>, cursor: int, fits: int -> bool): seq<ScheduledTask>
    decreases |queue|
  {
    if queue == [] then []
    else
      var end := cursor + Minutes(queue[0].duration);
      if !fits(end) then []
      else [ScheduledTask(queue[0].id, cursor, end, Buffer(queue[0].duration))]
           + Slots(queue[1..], end + Minutes(SlotGapMinutes), fits)
  }

  /** Where the slot after `slots` would start. */
  function NextStart(slots: seq<ScheduledTask>, cursor: int): int {
    if slots == [] then cursor else slots[|slots| - 1].endTime + Minutes(SlotGapMinutes)
  }

  /** Each slot holds the next task of the queue for its duration, ending at a time
      `fits` accepts, and starts where the previous one ended plus the gap. */
  lemma {:induction false} SlotsFollowQueue(queue: seq<Task>, cursor: int, fits: int -> bool)
    ensures var r := Slots(queue, cursor, fits);
            && |r| <= |queue|
            && (r != [] ==> r[0].startTime == cursor)
            && (forall k :: 0 <= k < |r| ==>
                  && r[k].taskId == queue[k].id
                  && r[k].endTime == r[k].startTime + Minutes(queue[k].duration)
                  && r[k].bufferTime == Buffer(queue[k].duration)
                  && fits(r[k].endTime))
            && (forall k :: 0 < k < |r| ==> r[k].startTime == r[k - 1].endTime + Minutes(SlotGapMinutes))
    decreases |queue|
  {
    if queue != [] {
      var end := cursor + Minutes(queue[0].duration);
      if fits(end) {
        var next := end + Minutes(SlotGapMinutes);
        SlotsFollowQueue(queue[1..], next, fits);
        var rest := Slots(queue[1..], next, fits);
        var r := Slots(queue, cursor, fits);
        assert r == [ScheduledTask(queue[0].id, cursor, end, Buffer(queue[0].duration))] + rest;
        forall k | 0 < k < |r| ensures r[k].startTime == r[k - 1].endTime + Minutes(SlotGapMinutes) {
          assert r[k] == rest[k - 1];
          if k > 1 {
            assert r[k - 1] == rest[k - 2];
          }
        }
        forall k | 0 < k < |r| ensures r[k].taskId == queue[k].id {
          assert r[k] == rest[k - 1] && queue[k] == queue[1..][k - 1];
        }
      }
    }
  }

  /** The loop stops only at a task whose end `fits` rejects (or at the end of the queue). */
  lemma {:induction false} SlotsStopAtFirstMisfit(queue: seq<Task>, cursor: int, fits: int -> bool)
    ensures var r := Slots(queue, cursor, fits);
            |r| < |queue| ==> !fits(NextStart(r, cursor) + Minutes(queue[|r|].duration))
    decreases |queue|
  {
    if queue != [] {
      var end := cursor + Minutes(queue[0].duration);
      if fits(end) {
        var next := end + Minutes(SlotGapMinutes);
        SlotsStopAtFirstMisfit(queue[1..], next, fits);
        var rest := Slots(queue[1..], next, fits);
        var r := Slots(queue, cursor, fits);
        assert r == [ScheduledTask(queue[0].id, cursor, end, Buffer(queue[0].duration))] + rest;
        if |r| < |queue| {
          assert queue[|r|] == queue[1..][|rest|];
          if rest != [] {
            assert r[|r| - 1] == rest[|rest| - 1];
          }
        }
      }
    }
  }

  /** Slots that each start where the previous one ended plus the gap, none ending before
      it starts, are in strictly increasing order without overlap. */
  lemma {:induction false} ChainDisjoint(r: seq<ScheduledTask>)
    requires forall k :: 0 <= k < |r| ==> r[k].startTime <= r[k].endTime
    requires forall k :: 0 < k < |r| ==> r[k].startTime == r[k - 1].endTime + Minutes(SlotGapMinutes)
    ensures forall i, j :: 0 <= i < j < |r| ==> r[i].endTime < r[j].startTime
    decreases |r|
  {
    if |r| > 1 {
      var init := r[..|r| - 1];
      ChainDisjoint(init);
      var last := |r| - 1;
      forall i, j | 0 <= i < j < |r| ensures r[i].endTime < r[j].startTime {
        if j < last {
          assert r[i] == init[i] && r[j] == init[j];
        } else if i < last - 1 {
          assert r[i] == init[i] && r[last - 1] == init[last - 1];
        }
      }
    }
  }

  /** With durations that are not negative, the slots never begin before the cursor and
      never overlap: each one ends before every later one begins. */
  lemma SlotsDisjoint(queue: seq<Task>, cursor: int, fits: int -> bool)
    requires forall i :: 0 <= i < |queue| ==> queue[i].duration >= 0
    ensures var r := Slots(queue, cursor, fits);
            && (forall k :: 0 <= k < |r| ==> r[k].startTime <= r[k].endTime)
            && (forall i, j :: 0 <= i < j < |r| ==> r[i].endTime < r[j].startTime)
            && (r != [] ==> r[0].startTime == cursor)
  {
    var r := Slots(queue, cursor, fits);
    SlotsFollowQueue(queue, cursor, fits);
    forall k | 0 <= k < |r| ensures r[k].startTime <= r[k].endTime {
      assert Minutes(queue[k].duration) == queue[k].duration * 60000;
    }
    ChainDisjoint(r);
  }

  /** The end-of-day check reads only the hour: a task ending at 17:45 still fits. */
  lemma LateEndStillFits(t: Task, date: int, offset: int)
    requires t.duration == 525
    ensures Slots([t], DayStart(date, offset), FitsWorkday(offset))
            == [ScheduledTask(t.id, DayStart(date, offset), DayStart(date, offset) + Minutes(525), 15.0)]
  {
    LocalHourAfter(date, offset, WorkStartHour, Minutes(525));
    assert LocalHour(DayStart(date, offset) + Minutes(525), offset) == 17;
    assert [t][1..] == [];
  }

  /** A task that runs past midnight ends at a small local hour and still fits. */
  lemma PastMidnightStillFits(t: Task, date: int, offset: int)
    requires t.duration == 960
    ensures Slots([t], DayStart(date, offset), FitsWorkday(offset))
            == [ScheduledTask(t.id, DayStart(date, offset), DayStart(date, offset) + Minutes(960), 15.0)]
  {
    assert DayStart(date, offset) + Minutes(960) == AtLocalHour(date, offset, 0) + MsPerDay + MsPerHour;
    LocalHourNextDay(date, offset, MsPerHour);
    assert LocalHour(DayStart(date, offset) + Minutes(960), offset) == 1;
    assert [t][1..] == [];
  }

  /** One step of `Slots`: the first task either ends too late and stops the day, or takes
      the next slot. */
  lemma SlotsStep(queue: seq<Task>, cursor: int, fits: int -> bool)
    requires queue != []
    ensures var end := cursor + Minutes(queue[0].duration);
            !fits(end) ==> Slots(queue, cursor, fits) == []
    ensures var end := cursor + Minutes(queue[0].duration);
            fits(end) ==>
              Slots(queue, cursor, fits)
              == [ScheduledTask(queue[0].id, cursor, end, Buffer(queue[0].duration))]
                 + Slots(queue[1..], end + Minutes(SlotGapMinutes), fits)
  {
  }

  /** `autoScheduleTasks`: fills the working day of `date` from the queue. */
  method AutoScheduleTasks(tasks: seq<Task>, date: int, offset: int) returns (scheduled: seq<ScheduledTask>)
    ensures scheduled == Slots(ScheduleQueue(tasks), DayStart(date, offset), FitsWorkday(offset))
  {
    scheduled := FillDay(ScheduleQueue(tasks), DayStart(date, offset), FitsWorkday(offset));
  }

  /** The loop of `autoScheduleTasks`: each task of the queue in turn takes the next slot,
      until one would end at a time `fits` rejects. */
  method FillDay(queue: seq<Task>, start: int, fits: int -> bool) returns (scheduled: seq<ScheduledTask>)
    ensures scheduled == Slots(queue, start, fits)
  {
    scheduled := [];
    var current := start;
    var i := 0;
    while i < |queue|
      invariant 0 <= i <= |queue|
      invariant scheduled + Slots(queue[i..], current, fits) == Slots(queue, start, fits)
    {
      var task := queue[i];
      var taskEnd := current + Minutes(task.duration);
      SlotsStep(queue[i..], current, fits);
      if !fits(taskEnd) {
        assert scheduled + [] == scheduled;
        assert scheduled == Slots(queue, start, fits);
        break;
      }
      var slot := ScheduledTask(task.id, current, taskEnd, Buffer(task.duration));
      assert queue[i..][1..] == queue[i + 1..];
      var rest := Slots(queue[i + 1..], taskEnd + Minutes(SlotGapMinutes), fits);
      assert scheduled + ([slot] + rest) == (scheduled + [slot]) + rest;
      scheduled := scheduled + [slot];
      current := taskEnd + Minutes(SlotGapMinutes);
      i := i + 1;
    }
    if i == |queue| {
      assert queue[i..] == [];
    }
  }

  // ------------------------------------------------------------ distributions

  function EnergyIs(l: Level): Task -> bool {
    (t: Task) => t.energyLevel == l
  }

  /** How many tasks there are of each level, for the level `level` picks from a task. */
  function Tally(tasks: seq<Task>, level: Task -> Level): (d: Distribution)
    ensures d.high + d.medium + d.low == |tasks|
  {
    if tasks == [] then Distribution(0, 0, 0)
    else
      var d := Tally(tasks[1..], level);
      match level(tasks[0])
      case High => d.(high := d.high + 1)
      case Medium => d.(medium := d.medium + 1)
      case Low => d.(low := d.low + 1)
  }

  lemma {:induction false} TallyConcat(a: seq<Task>, b: seq<Task>, level: Task -> Level)
    ensures Tally(a + b, level).high == Tally(a, level).high + Tally(b, level).high
    ensures Tally(a + b, level).medium == Tally(a, level).medium + Tally(b, level).medium
    ensures Tally(a + b, level).low == Tally(a, level).low + Tally(b, level).low
    decreases |a|
  {
    if a == [] {
      assert a + b == b;
    } else {
      assert (a + b)[1..] == a[1..] + b;
      TallyConcat(a[1..], b, level);
    }
  }

  /** Each count of the tally is the number of tasks of that level. */
  lemma {:induction false} TallyCounts(tasks: seq<Task>, level: Task -> Level)
    ensures Tally(tasks, level).high == |Filter(tasks, (t: Task) => level(t) == High)|
    ensures Tally(tasks, level).medium == |Filter(tasks, (t: Task) => level(t) == Medium)|
    ensures Tally(tasks, level).low == |Filter(tasks, (t: Task) => level(t) == Low)|
    decreases |tasks|
  {
    if tasks != [] {
      TallyCounts(tasks[1..], level);
    }
  }

  function EnergyOf(): Task -> Level {
    (t: Task) => t.energyLevel
  }

  function PriorityOf(): Task -> Level {
    (t: Task) => t.priority
  }

  /** The `forEach` loop of `calculateEnergyDistribution` and `calculatePriorityDistribution`,
      for the level `level` picks from a task. */
  method CalculateDistribution(tasks: seq<Task>, level: Task -> Level) returns (d: Distribution)
    ensures d == Tally(tasks, level)
    ensures d.high + d.medium + d.low == |tasks|
  {
    d := Distribution(0, 0, 0);
    var i := 0;
    while i < |tasks|
      invariant 0 <= i <= |tasks|
      invariant d == Tally(tasks[..i], level)
    {
      TallyConcat(tasks[..i], [tasks[i]], level);
      assert tasks[..i + 1] == tasks[..i] + [tasks[i]];
      match level(tasks[i]) {
        case High => d := d.(high := d.high + 1);
        case Medium => d := d.(medium := d.medium + 1);
        case Low => d := d.(low := d.low + 1);
      }
      i := i + 1;
    }
    assert tasks[..i] == tasks;
  }

  function Durations(tasks: seq<Task>): (r: seq<int>)
    ensures |r| == |tasks| && forall i :: 0 <= i < |tasks| ==> r[i] == tasks[i].duration
  {
    seq(|tasks|, i requires 0 <= i < |tasks| => tasks[i].duration)
  }

  function Ids(tasks: seq<Task>): (r: seq<string>)
    ensures |r| == |tasks| && forall i :: 0 <= i < |tasks| ==> r[i] == tasks[i].id
  {
    seq(|tasks|, i requires 0 <= i < |tasks| => tasks[i].id)
  }

  function SlotIds(slots: seq<ScheduledTask>): (r: seq<string>)
    ensures |r| == |slots| && forall i :: 0 <= i < |slots| ==> r[i] == slots[i].taskId
  {
    seq(|slots|, i requires 0 <= i < |slots| => slots[i].taskId)
  }

  function NotIn(slots: seq<ScheduledTask>): Task -> bool {
    (t: Task) => t.id !in SlotIds(slots)
  }

  /** The tasks of the day that no slot names, by id. */
  function UnscheduledIds(dayTasks: seq<Task>, slots: seq<ScheduledTask>): seq<string> {
    Ids(Filter(dayTasks, NotIn(slots)))
  }

  /** The tasks of the day on `date`. */
  function DayTasks(tasks: seq<Task>, date: int, offset: int): seq<Task> {
    Filter(tasks, OnDayOf(date, offset))
  }

  /** The plan `createDailyPlan` builds for the tasks `day` of the day on `date`. */
  function PlanFor(day: seq<Task>, date: int, offset: int): DailyPlan {
    var slots := Slots(ScheduleQueue(day), DayStart(date, offset), FitsWorkday(offset));
    DailyPlan(date, Sum(Durations(day)), Tally(day, EnergyOf()), Tally(day, PriorityOf()),
              slots, UnscheduledIds(day, slots))
  }

  /** The plan `createDailyPlan` builds for the stored tasks on `date`. */
  function NewPlan(tasks: seq<Task>, date: int, offset: int): DailyPlan {
    PlanFor(DayTasks(tasks, date, offset), date, offset)
  }

  /** A plan accounts for every task of its day exactly once: a slot names it or it is
      listed as unscheduled, never both; both distributions count every task of the day. */
  lemma PlanAccounts(day: seq<Task>, date: int, offset: int)
    ensures var p := PlanFor(day, date, offset);
            && (forall t :: t in day ==> (t.id in SlotIds(p.scheduledTasks) <==> t.id !in p.unscheduledTasks))
            && p.energyDistribution.high + p.energyDistribution.medium + p.energyDistribution.low == |day|
            && p.priorityDistribution.high + p.priorityDistribution.medium + p.priorityDistribution.low == |day|
  {
    var p := PlanFor(day, date, offset);
    var slots := p.scheduledTasks;
    var left := Filter(day, NotIn(slots));
    assert p.unscheduledTasks == Ids(left);
    forall t | t in day && t.id in p.unscheduledTasks ensures t.id !in SlotIds(slots) {
      var i :| 0 <= i < |left| && Ids(left)[i] == t.id;
      assert NotIn(slots)(left[i]);
    }
    forall t | t in day && t.id !in SlotIds(slots) ensures t.id in p.unscheduledTasks {
      var i :| 0 <= i < |day| && day[i] == t;
      assert NotIn(slots)(day[i]);
      assert t in left;
      var j :| 0 <= j < |left| && left[j] == t;
      assert Ids(left)[j] == t.id;
    }
  }

  /** Every slot filled from the queue of `day` is for a task of `day` that had no
      scheduled time; `PlanFor` fills its slots this way. */
  lemma QueueSlotsFromDay(day: seq<Task>, cursor: int, fits: int -> bool)
    ensures var slots := Slots(ScheduleQueue(day), cursor, fits);
            forall k :: 0 <= k < |slots| ==>
              exists t :: t in day && t.scheduledTime.None? && t.id == slots[k].taskId
  {
    var queue := ScheduleQueue(day);
    var slots := Slots(queue, cursor, fits);
    SlotsFollowQueue(queue, cursor, fits);
    SortBySorted(Filter(day, NotScheduled()), PriorityDescKey);
    forall k | 0 <= k < |slots|
      ensures exists t :: t in day && t.scheduledTime.None? && t.id == slots[k].taskId
    {
      assert queue[k] in multiset(Filter(day, NotScheduled()));
      assert queue[k] in Filter(day, NotScheduled());
    }
  }

  // ------------------------------------------------------------ productivity

  datatype WorkPattern = MorningPerson | NightOwl | Balanced

  datatype CompletionRecord = CompletionRecord(
    taskId: string,
    estimatedTime: int,
    actualTime: int,
    energyLevelUsed: Level,
    timeOfDay: int,
    completedOnTime: bool)

  datatype Profile = Profile(
    peakEnergyHours: seq<int>,
    preferredTaskDuration: int,
    workPattern: WorkPattern,
    breakFrequency: int,
    focusSessionLength: int,
    history: seq<CompletionRecord>)

  /** `initializeDefaultProfile`. */
  function DefaultProfile(): (p: Profile)
    ensures p.history == [] && |p.peakEnergyHours| == 5
  {
    Profile([9, 10, 11, 14, 15], 30, Balanced, 90, 45, [])
  }

  /** At most this many completions are remembered, and the peak hours are learnt only
      from at least this many. */
  const HistoryLimit: nat := 100
  const LearningThreshold: nat := 10

  /** The record `updateProductivityProfile` makes of a task completed at `completedAt`. */
  function RecordFor(c: Task, completedAt: int, offset: int): (r: CompletionRecord)
    ensures r.taskId == c.id && r.estimatedTime == c.duration && r.energyLevelUsed == c.energyLevel
    ensures r.actualTime == NumberOr(c.actualTimeSpent, c.duration)
    ensures 0 <= r.timeOfDay < 24
    ensures r.completedOnTime <==> c.dueDate.None? || completedAt <= c.dueDate.value
  {
    CompletionRecord(c.id, c.duration, NumberOr(c.actualTimeSpent, c.duration), c.energyLevel,
                     LocalHour(completedAt, offset),
                     if c.dueDate.Some? then completedAt <= c.dueDate.value else true)
  }

  /** `estimatedTime / actualTime`; see README for an actual time of 0. */
  function Efficiency(r: CompletionRecord): real {
    if r.actualTime == 0 then 0.0 else r.estimatedTime as real / r.actualTime as real
  }

  /** The hour-to-summed-efficiency `Map` of `analyzeProductivityPatterns`. */
  function HourlyTotals(history: seq<CompletionRecord>): (m: OMap<int, real>)
    ensures m.Valid()
    decreases |history|
  {
    if history == [] then Empty()
    else
      var m := HourlyTotals(history[..|history| - 1]);
      var last := history[|history| - 1];
      m.Put(last.timeOfDay, (if m.Has(last.timeOfDay) then m.entries[last.timeOfDay] else 0.0) + Efficiency(last))
  }

  /** One more record adds its efficiency to the total of its hour. */
  lemma HourlyTotalsSnoc(history: seq<CompletionRecord>, i: nat, m: OMap<int, real>)
    requires i < |history| && m == HourlyTotals(history[..i])
    ensures m.Valid()
    ensures var h := history[i].timeOfDay;
            HourlyTotals(history[..i + 1]) == m.Put(h, (if m.Has(h) then m.entries[h] else 0.0) + Efficiency(history[i]))
  {
    assert history[..i + 1][..i] == history[..i];
  }

  /** The `forEach` loop of `analyzeProductivityPatterns` that sums the efficiencies per
      hour, in the order the hours first occur. */
  method HourlyProductivity(history: seq<CompletionRecord>) returns (hourly: OMap<int, real>)
    ensures hourly == HourlyTotals(history)
  {
    hourly := Empty();
    var i := 0;
    assert history[..0] == [];
    while i < |history|
      invariant 0 <= i <= |history|
      invariant hourly == HourlyTotals(history[..i])
    {
      var data := history[i];
      HourlyTotalsSnoc(history, i, hourly);
      var sofar := if hourly.Has(data.timeOfDay) then hourly.entries[data.timeOfDay] else 0.0;
      hourly := hourly.Put(data.timeOfDay, sofar + Efficiency(data));
      i := i + 1;
    }
    assert history[..i] == history;
  }

  /** The hours of the totals are exactly the hours of the history. */
  lemma {:induction false} HourlyTotalsHours(history: seq<CompletionRecord>, hour: int)
    ensures hour in HourlyTotals(history).entries <==> exists i :: 0 <= i < |history| && history[i].timeOfDay == hour
    decreases |history|
  {
    if history != [] {
      var init := history[..|history| - 1];
      HourlyTotalsHours(init, hour);
      if exists i :: 0 <= i < |init| && init[i].timeOfDay == hour {
        var i :| 0 <= i < |init| && init[i].timeOfDay == hour;
        assert history[i] == init[i];
      }
      if exists i :: 0 <= i < |history| && history[i].timeOfDay == hour {
        var i :| 0 <= i < |history| && history[i].timeOfDay == hour;
        if i < |init| {
          assert init[i] == history[i];
        }
      }
    }
  }

  /** `Array.from(map.entries())`. */
  function Entries(m: OMap<int, real>): (r: seq<(int, real)>)
    requires m.Valid()
    ensures |r| == |m.keys|
    ensures forall i :: 0 <= i < |r| ==> r[i].0 == m.keys[i] && r[i].1 == m.entries[m.keys[i]]
  {
    seq(|m.keys|, i requires 0 <= i < |m.keys| => (m.keys[i], m.entries[m.keys[i]]))
  }

  /** The descending order on the summed efficiency, as an ascending key. */
  function TotalDesc(e: (int, real)): real {
    -e.1
  }

  function Hours(entries: seq<(int, real)>): (r: seq<int>)
    ensures |r| == |entries| && forall i :: 0 <= i < |r| ==> r[i] == entries[i].0
  {
    seq(|entries|, i requires 0 <= i < |entries| => entries[i].0)
  }

  /** The (at most five) hours with the highest summed efficiency, best first. */
  function TopHours(history: seq<CompletionRecord>): seq<int> {
    Hours(Prefix(SortBy(Entries(HourlyTotals(history)), TotalDesc), 5))
  }

  /** Every key of the totals is an hour that occurs in the history. */
  lemma KeyOccurs(history: seq<CompletionRecord>, j: nat)
    requires j < |HourlyTotals(history).keys|
    ensures exists k :: 0 <= k < |history| && history[k].timeOfDay == HourlyTotals(history).keys[j]
  {
    var m := HourlyTotals(history);
    assert m.keys[j] in m.entries;
    HourlyTotalsHours(history, m.keys[j]);
  }

  /** The learnt peak hours are at most five hours that occur in the history, and at
      least one when there is any history. */
  lemma TopHoursOccur(history: seq<CompletionRecord>)
    ensures |TopHours(history)| <= 5
    ensures |history| > 0 ==> |TopHours(history)| > 0
    ensures forall i :: 0 <= i < |TopHours(history)| ==>
              exists k :: 0 <= k < |history| && history[k].timeOfDay == TopHours(history)[i]
  {
    var m := HourlyTotals(history);
    var es := Entries(m);
    var top := Prefix(SortBy(es, TotalDesc), 5);
    var th := TopHours(history);
    assert th == Hours(top);
    TopOfSortDrawn(es, TotalDesc, 5);
    if history != [] {
      HourlyTotalsHours(history, history[0].timeOfDay);
      assert history[0].timeOfDay in m.keys;
    }
    forall i | 0 <= i < |th| ensures exists k :: 0 <= k < |history| && history[k].timeOfDay == th[i] {
      assert top[i] in multiset(es);
      var j :| 0 <= j < |es| && es[j] == top[i];
      KeyOccurs(history, j);
    }
  }

  /** The hours kept come best first, and an hour left out never has a higher total than
      the last one kept. */
  lemma TopHoursBest(history: seq<CompletionRecord>)
    ensures var top := Prefix(SortBy(Entries(HourlyTotals(history)), TotalDesc), 5);
            && TopHours(history) == Hours(top)
            && (forall i, j :: 0 <= i < j < |top| ==> top[i].1 >= top[j].1)
            && (forall e :: e in multiset(Entries(HourlyTotals(history))) - multiset(top) ==> e.1 <= top[|top| - 1].1)
  {
    var es := Entries(HourlyTotals(history));
    var top := Prefix(SortBy(es, TotalDesc), 5);
    TopOfSortBest(es, TotalDesc, 5);
    forall i, j | 0 <= i < j < |top| ensures top[i].1 >= top[j].1 {
      assert TotalDesc(top[i]) <= TotalDesc(top[j]);
    }
    forall e | e in multiset(es) - multiset(top) ensures e.1 <= top[|top| - 1].1 {
      assert TotalDesc(top[|top| - 1]) <= TotalDesc(e);
    }
  }
}
