/** `TaskManagementSystem`: the task store with its daily plans, reminders and learnt
    productivity profile. The ids `generateId` would draw at random, the current time and
    the current hour are parameters; each dispatched browser event and each armed timer is
    an out-parameter. */
module TaskSystem {
  import opened Common
  import opened Clock
  import opened OrderedMaps
  import opened Tasks
  import opened Planner
  import opened Sorting
  import Conflicts

  /** The three lists of `getTasksByPriority`. */
  datatype PriorityGroups = PriorityGroups(high: seq<Task>, medium: seq<Task>, low: seq<Task>)

  /** `g` holds exactly the pending tasks of priority `l`, in the order of `sortByDueDate`. */
  ghost predicate IsGroup(g: seq<Task>, tasks: seq<Task>, l: Level) {
    && multiset(g) == multiset(Filter(Filter(tasks, IsPending()), WithPriority(l)))
    && forall i, j :: 0 <= i < j < |g| ==> DueCompare(g[i], g[j]) <= 0
  }

  /** The time `suggestScheduling` proposes for a task with a due date: the first peak
      hour (10 when there is none, or when it is 0) on the local day before the due date. */
  function SchedulingSuggestion(t: Task, peaks: seq<int>, offset: int): (r: Option<int>)
    ensures r.Some? <==> t.dueDate.Some? && t.scheduledTime.None?
    ensures r.Some? && (|peaks| == 0 || peaks[0] == 0) ==> LocalHour(r.value, offset) == 10
    ensures r.Some? && |peaks| > 0 && 0 < peaks[0] < 24 ==> LocalHour(r.value, offset) == peaks[0]
    ensures r.Some? && (|peaks| == 0 || 0 <= peaks[0] < 24) ==>
              LocalDay(r.value, offset) == LocalDay(t.dueDate.value, offset) - 1
    ensures r.Some? ==> (r.value + offset) % MsPerHour == 0
  {
    if t.dueDate.Some? && t.scheduledTime.None? then
      var hour := if |peaks| > 0 && peaks[0] != 0 then peaks[0] else 10;
      var dayBefore := t.dueDate.value - MsPerDay;
      DayBefore(t.dueDate.value, offset);
      if 0 <= hour < 24 then
        AtLocalHourReads(dayBefore, offset, hour);
        Some(AtLocalHour(dayBefore, offset, hour))
      else Some(AtLocalHour(dayBefore, offset, hour))
    else None
  }

  /** The delay of the timer `scheduleReminder` arms: only a time-based reminder with a
      trigger time still in the future gets one. */
  function TimerDelay(r: Reminder, now: int): (d: Option<int>)
    ensures d.Some? <==> r.kind == TimeBased && r.triggerTime.Some? && r.triggerTime.value > now
    ensures d.Some? ==> d.value > 0 && now + d.value == r.triggerTime.value
  {
    if r.kind == TimeBased && r.triggerTime.Some? && r.triggerTime.value - now > 0
    then Some(r.triggerTime.value - now) else None
  }

  class TaskManagementSystem {
    var tasks: OMap<string, Task>
    var dailyPlans: map<int, DailyPlan>
    var reminders: OMap<string, Reminder>
    var profile: Profile
    /** The fixed offset of local time from UTC, in milliseconds. */
    const offset: int

    ghost predicate Valid()
      reads this
    {
      && tasks.Valid()
      && reminders.Valid()
      && |profile.history| <= HistoryLimit
    }

    constructor(offset: int)
      ensures Valid()
      ensures this.offset == offset
      ensures tasks == Empty() && dailyPlans == map[] && reminders == Empty()
      ensures profile == DefaultProfile()
    {
      this.offset := offset;
      tasks := Empty();
      dailyPlans := map[];
      reminders := Empty();
      profile := DefaultProfile();
    }

    /** `createTask`, given the fresh id and the current time; `suggestion` is the time the
        `scheduling-suggestion` event proposes, when it is dispatched. */
    method CreateTask(draft: TaskDraft, id: string, now: int) returns (t: Task, suggestion: Option<int>)
      requires Valid()
      modifies this
      ensures Valid()
      ensures t == NewTask(draft, id, now)
      ensures tasks == old(tasks).Put(id, t)
      ensures suggestion == SchedulingSuggestion(t, profile.peakEnergyHours, offset)
      ensures suggestion.Some? <==> draft.dueDate.Some? && draft.scheduledTime.None?
      ensures dailyPlans == old(dailyPlans) && reminders == old(reminders) && profile == old(profile)
    {
      t := NewTask(draft, id, now);
      tasks := tasks.Put(id, t);
      suggestion := SchedulingSuggestion(t, profile.peakEnergyHours, offset);
    }

    /** `updateTask`: the stored task with every property of the update spread over it,
        or nothing when no task has that id. */
    method UpdateTask(id: string, patch: TaskPatch) returns (r: Option<Task>)
      requires Valid()
      modifies this
      ensures Valid()
      ensures r.Some? <==> id in old(tasks.entries)
      ensures r.None? ==> tasks == old(tasks)
      ensures r.Some? ==> r.value == ApplyPatch(old(tasks.entries[id]), patch) && tasks == old(tasks).Put(id, r.value)
      ensures dailyPlans == old(dailyPlans) && reminders == old(reminders) && profile == old(profile)
    {
      if id !in tasks.entries {
        return None;
      }
      var updated := ApplyPatch(tasks.entries[id], patch);
      tasks := tasks.Put(id, updated);
      r := Some(updated);
    }

    /** `deleteTask`: whether a task with that id was there to delete. */
    method DeleteTask(id: string) returns (deleted: bool)
      requires Valid()
      modifies this
      ensures Valid()
      ensures deleted <==> id in old(tasks.entries)
      ensures tasks.entries == old(tasks.entries) - {id}
      ensures tasks == if deleted then old(tasks).Remove(id) else old(tasks)
      ensures dailyPlans == old(dailyPlans) && reminders == old(reminders) && profile == old(profile)
    {
      deleted := id in tasks.entries;
      if deleted {
        tasks := tasks.Remove(id);
      }
    }

    /** `completeTask`, at time `now`: marks the task completed and learns from it. */
    method CompleteTask(id: string, now: int) returns (r: Option<Task>)
      requires Valid()
      modifies this
      ensures Valid()
      ensures r.Some? <==> id in old(tasks.entries)
      ensures r.None? ==> tasks == old(tasks) && profile == old(profile)
      ensures r.Some? ==> r.value == CompletedTask(old(tasks.entries[id]), now) && tasks == old(tasks).Put(id, r.value)
      ensures r.Some? ==> profile.history == KeepLast(old(profile.history) + [RecordFor(r.value, now, offset)], HistoryLimit)
      ensures r.Some? ==> (profile.peakEnergyHours ==
                if |profile.history| < LearningThreshold then old(profile.peakEnergyHours) else TopHours(profile.history))
      ensures r.Some? ==> profile.(peakEnergyHours := old(profile.peakEnergyHours), history := old(profile.history)) == old(profile)
      ensures dailyPlans == old(dailyPlans) && reminders == old(reminders)
    {
      if id !in tasks.entries {
        return None;
      }
      var completed := CompletedTask(tasks.entries[id], now);
      tasks := tasks.Put(id, completed);
      UpdateProductivityProfile(completed, now);
      r := Some(completed);
    }

    /** `updateProductivityProfile`: record the completion, keep the last hundred records
        and learn the peak hours again. */
    method UpdateProductivityProfile(completed: Task, now: int)
      requires Valid()
      modifies this
      ensures Valid()
      ensures profile.history == KeepLast(old(profile.history) + [RecordFor(completed, now, offset)], HistoryLimit)
      ensures profile.peakEnergyHours ==
                (if |profile.history| < LearningThreshold then old(profile.peakEnergyHours) else TopHours(profile.history))
      ensures profile.(peakEnergyHours := old(profile.peakEnergyHours), history := old(profile.history)) == old(profile)
      ensures tasks == old(tasks) && dailyPlans == old(dailyPlans) && reminders == old(reminders)
    {
      var history := profile.history + [RecordFor(completed, now, offset)];
      if |history| > HistoryLimit {
        history := history[|history| - HistoryLimit..];
      }
      profile := profile.(history := history);
      AnalyzeProductivityPatterns();
    }

    /** `analyzeProductivityPatterns`: with at least ten records, the peak hours become the
        (at most five) hours with the highest summed efficiency. */
    method AnalyzeProductivityPatterns()
      requires Valid()
      modifies this
      ensures Valid()
      ensures |old(profile.history)| < LearningThreshold ==> profile == old(profile)
      ensures |old(profile.history)| >= LearningThreshold ==>
                profile == old(profile).(peakEnergyHours := TopHours(old(profile.history)))
      ensures tasks == old(tasks) && dailyPlans == old(dailyPlans) && reminders == old(reminders)
    {
      var history := profile.history;
      if |history| < LearningThreshold {
        return;
      }
      var hourly := HourlyProductivity(history);
      var topHours := Hours(Prefix(SortBy(Entries(hourly), TotalDesc), 5));
      assert topHours == TopHours(history);
      profile := profile.(peakEnergyHours := topHours);
    }

    /** `getTasksByPriority`: the pending tasks of each priority, by due date. */
    function GetTasksByPriority(): (r: PriorityGroups)
      requires Valid()
      reads this
      ensures IsGroup(r.high, tasks.Values(), High)
      ensures IsGroup(r.medium, tasks.Values(), Medium)
      ensures IsGroup(r.low, tasks.Values(), Low)
    {
      var pending := Filter(tasks.Values(), IsPending());
      ByDueDatePermutes(Filter(pending, WithPriority(High)));
      ByDueDateOrdered(Filter(pending, WithPriority(High)));
      ByDueDatePermutes(Filter(pending, WithPriority(Medium)));
      ByDueDateOrdered(Filter(pending, WithPriority(Medium)));
      ByDueDatePermutes(Filter(pending, WithPriority(Low)));
      ByDueDateOrdered(Filter(pending, WithPriority(Low)));
      PriorityGroups(ByDueDate(Filter(pending, WithPriority(High))),
                     ByDueDate(Filter(pending, WithPriority(Medium))),
                     ByDueDate(Filter(pending, WithPriority(Low))))
    }

    /** `hasScheduleConflict`: the plan stored for the UTC day of `start` has a slot that
        the interval overlaps. */
    predicate HasScheduleConflict(start: int, end: int)
      reads this
    {
      UtcDay(start) in dailyPlans
      && exists k :: 0 <= k < |dailyPlans[UtcDay(start)].scheduledTasks| &&
           Conflicts.Overlaps(start, end, dailyPlans[UtcDay(start)].scheduledTasks[k].startTime,
                              dailyPlans[UtcDay(start)].scheduledTasks[k].endTime)
    }

    /** `scheduleTask`: sets the scheduled time unless the task is missing or its interval
        overlaps a slot of that day's plan. The plan itself is not updated. */
    method ScheduleTask(id: string, start: int) returns (ok: bool)
      requires Valid()
      modifies this
      ensures Valid()
      ensures ok <==> id in old(tasks.entries) && !HasScheduleConflict(start, start + Minutes(old(tasks.entries[id]).duration))
      ensures ok ==> tasks == old(tasks).Put(id, old(tasks.entries[id]).(scheduledTime := Some(start)))
      ensures !ok ==> tasks == old(tasks)
      ensures dailyPlans == old(dailyPlans) && reminders == old(reminders) && profile == old(profile)
    {
      if id !in tasks.entries {
        return false;
      }
      var task := tasks.entries[id];
      var end := start + Minutes(task.duration);
      if HasScheduleConflict(start, end) {
        return false;
      }
      var updated := UpdateTask(id, SchedulePatch(start));
      ok := true;
    }

    /** `getEnergyBasedRecommendations`, at local hour `hour`: at most five pending,
        unscheduled tasks the target energy admits, by priority; all candidates when there
        are at most five, and none left out that outranks the last one recommended. */
    function GetEnergyBasedRecommendations(level: Level, hour: int): (r: seq<Task>)
      requires Valid()
      reads this
      ensures var cands := Candidates(tasks.Values(), TargetLevel(level, hour, profile.peakEnergyHours));
              && |r| == (if |cands| <= 5 then |cands| else 5)
              && multiset(r) <= multiset(cands)
              && (|cands| <= 5 ==> multiset(r) == multiset(cands))
              && (forall x :: x in multiset(cands) - multiset(r) ==>
                    && Weight(x.priority) <= Weight(r[|r| - 1].priority)
                    && (Weight(x.priority) == Weight(r[|r| - 1].priority) && x.energyLevel == level ==> r[|r| - 1].energyLevel == level))
      ensures forall i :: 0 <= i < |r| ==>
                r[i].status == Pending && r[i].scheduledTime.None? && Admits(TargetLevel(level, hour, profile.peakEnergyHours), r[i])
      ensures forall i, j :: 0 <= i < j < |r| ==> Weight(r[i].priority) >= Weight(r[j].priority)
      ensures forall i, j :: 0 <= i < j < |r| && Weight(r[i].priority) == Weight(r[j].priority) && r[j].energyLevel == level
                ==> r[i].energyLevel == level
    {
      RecommendFromCandidates(tasks.Values(), level, hour, profile.peakEnergyHours);
      RecommendBest(tasks.Values(), level, hour, profile.peakEnergyHours);
      Recommend(tasks.Values(), level, hour, profile.peakEnergyHours)
    }

    /** `createDailyPlan`: the plan already stored for the UTC day of `date`, or a new one
        for the tasks of its local day, which is then stored. */
    method CreateDailyPlan(date: int) returns (plan: DailyPlan)
      requires Valid()
      modifies this
      ensures Valid()
      ensures UtcDay(date) in old(dailyPlans) ==> plan == old(dailyPlans)[UtcDay(date)] && dailyPlans == old(dailyPlans)
      ensures UtcDay(date) !in old(dailyPlans) ==>
                plan == NewPlan(tasks.Values(), date, offset) && dailyPlans == old(dailyPlans)[UtcDay(date) := plan]
      ensures tasks == old(tasks) && reminders == old(reminders) && profile == old(profile)
    {
      var key := UtcDay(date);
      if key in dailyPlans {
        return dailyPlans[key];
      }
      var day := DayTasks(tasks.Values(), date, offset);
      var scheduled := AutoScheduleTasks(day, date, offset);
      var energy := CalculateDistribution(day, EnergyOf());
      var priority := CalculateDistribution(day, PriorityOf());
      plan := DailyPlan(date, Sum(Durations(day)), energy, priority, scheduled, UnscheduledIds(day, scheduled));
      dailyPlans := dailyPlans[key := plan];
    }

    /** `createReminder`, given the fresh id and the current time: fails when the task is
        missing; otherwise stores the reminder, adds it to the task, and reports the delay
        of the timer armed for it. */
    method CreateReminder(taskId: string, draft: ReminderDraft, id: string, now: int)
      returns (r: Result<Reminder, string>, timer: Option<int>)
      requires Valid()
      modifies this
      ensures Valid()
      ensures r.Failure? <==> taskId !in old(tasks.entries)
      ensures r.Failure? ==> r.error == "Task not found" && timer.None?
      ensures r.Failure? ==> tasks == old(tasks) && reminders == old(reminders)
      ensures r.Success? ==> r.value == NewReminder(old(tasks.entries[taskId]), taskId, draft, id, now)
      ensures r.Success? ==> reminders == old(reminders).Put(id, r.value)
      ensures r.Success? ==> tasks == old(tasks).Put(taskId,
                old(tasks.entries[taskId]).(reminders := old(tasks.entries[taskId]).reminders + [id]))
      ensures r.Success? ==> timer == TimerDelay(r.value, now)
      ensures dailyPlans == old(dailyPlans) && profile == old(profile)
    {
      if taskId !in tasks.entries {
        return Failure("Task not found"), None;
      }
      var task := tasks.entries[taskId];
      var reminder := NewReminder(task, taskId, draft, id, now);
      reminders := reminders.Put(id, reminder);
      tasks := tasks.Put(taskId, task.(reminders := task.reminders + [id]));
      timer := TimerDelay(reminder, now);
      r := Success(reminder);
    }

    /** `triggerReminder` (what the armed timer runs): an active reminder is dispatched in
        a `task-reminder` event, and a time-based one is then deactivated. */
    method TriggerReminder(id: string) returns (dispatched: Option<Reminder>)
      requires Valid()
      modifies this
      ensures Valid()
      ensures dispatched.Some? <==> id in old(reminders.entries) && old(reminders.entries[id]).isActive
      ensures dispatched.None? ==> reminders == old(reminders)
      ensures dispatched.Some? ==> dispatched.value == old(reminders.entries[id])
      ensures dispatched.Some? && dispatched.value.kind == TimeBased ==>
                reminders == old(reminders).Put(id, dispatched.value.(isActive := false))
      ensures dispatched.Some? && dispatched.value.kind != TimeBased ==> reminders == old(reminders)
      ensures tasks == old(tasks) && dailyPlans == old(dailyPlans) && profile == old(profile)
    {
      if id !in reminders.entries || !reminders.entries[id].isActive {
        return None;
      }
      var reminder := reminders.entries[id];
      dispatched := Some(reminder);
      if reminder.kind == TimeBased {
        reminders := reminders.Put(id, reminder.(isActive := false));
      }
    }

    /** `getActiveReminders`: the stored reminders that are active, in insertion order. */
    function GetActiveReminders(): (r: seq<Reminder>)
      requires Valid()
      reads this
      ensures IsSubsequence(r, reminders.Values())
      ensures forall i :: 0 <= i < |r| ==> r[i].isActive
      ensures forall k :: k in reminders.entries && reminders.entries[k].isActive ==> reminders.entries[k] in r
      ensures forall x :: multiset(r)[x] == if x.isActive then multiset(reminders.Values())[x] else 0
    {
      FilterIsSubsequence(reminders.Values(), IsActive());
      FilterMultiset(reminders.Values(), IsActive());
      forall k | k in reminders.entries && reminders.entries[k].isActive
        ensures reminders.entries[k] in Filter(reminders.Values(), IsActive())
      {
        ValuesAreEntries(reminders, k);
      }
      Filter(reminders.Values(), IsActive())
    }

    /** `snoozeReminder`, at time `now`: moves the trigger time and arms a new timer. The
        reminder keeps its activity: a reminder that already fired stays inactive. */
    method SnoozeReminder(id: string, minutes: int, now: int) returns (timer: Option<int>)
      requires Valid()
      modifies this
      ensures Valid()
      ensures id !in old(reminders.entries) ==> reminders == old(reminders) && timer.None?
      ensures id in old(reminders.entries) ==>
                && reminders == old(reminders).Put(id, old(reminders.entries[id]).(triggerTime := Some(now + Minutes(minutes))))
                && timer == TimerDelay(reminders.entries[id], now)
      ensures tasks == old(tasks) && dailyPlans == old(dailyPlans) && profile == old(profile)
    {
      if id !in reminders.entries {
        return None;
      }
      var reminder := reminders.entries[id].(triggerTime := Some(now + Minutes(minutes)));
      reminders := reminders.Put(id, reminder);
      timer := TimerDelay(reminder, now);
    }

    /** `getTask`. */
    function GetTask(id: string): (r: Option<Task>)
      reads this
      ensures r.Some? <==> id in tasks.entries
      ensures r.Some? ==> r.value == tasks.entries[id]
    {
      if id in tasks.entries then Some(tasks.entries[id]) else None
    }

    /** `getAllTasks`: every stored task, in the order the ids were first set. */
    function GetAllTasks(): (r: seq<Task>)
      requires Valid()
      reads this
      ensures |r| == |tasks.keys|
      ensures forall i :: 0 <= i < |r| ==> r[i] == tasks.entries[tasks.keys[i]]
      ensures forall k :: k in tasks.entries ==> tasks.entries[k] in r
    {
      AllValuesListed(tasks);
      tasks.Values()
    }

    /** `getUserProfile`: a copy of the productivity profile, whose history is bounded. */
    function GetUserProfile(): (r: Profile)
      requires Valid()
      reads this
      ensures r == profile && |r.history| <= HistoryLimit
    {
      profile
    }

    /** `getDailyPlan`: the plan stored under the UTC day of `date`. */
    function GetDailyPlan(date: int): (r: Option<DailyPlan>)
      reads this
      ensures r.Some? <==> UtcDay(date) in dailyPlans
      ensures r.Some? ==> r.value == dailyPlans[UtcDay(date)]
    {
      if UtcDay(date) in dailyPlans then Some(dailyPlans[UtcDay(date)]) else None
    }
  }
}
