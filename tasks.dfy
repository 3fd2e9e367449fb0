/** The entities of the task management system (tasks, reminders, daily plans and the
    productivity profile) and its pure queries: task creation defaults, the object
    spread of `updateTask`, the due-date order of `getTasksByPriority`, the energy-based
    recommendations and the day filter of the planner. */
module Tasks {
  import opened Common
  import opened Clock
  import opened Sorting

  datatype Status = Pending | InProgress | Completed | Delegated

  /** A task. `reminders` holds the ids of the task's reminders: the reminder objects are
      shared between the task and the reminder store, so a reminder's current state is
      the one in the store. */
  datatype Task = Task(
    id: string,
    title: string,
    description: Option<string>,
    priority: Level,
    energyLevel: Level,
    duration: int,
    category: string,
    status: Status,
    createdAt: int,
    dueDate: Option<int>,
    scheduledTime: Option<int>,
    delegateTo: Option<string>,
    tags: seq<string>,
    parentTaskId: Option<string>,
    dependencies: seq<string>,
    estimatedEffort: int,
    actualTimeSpent: Option<int>,
    completedAt: Option<int>,
    reminders: seq<string>)

  /** The fields of the `Partial<Task>` that `createTask` reads. */
  datatype TaskDraft = TaskDraft(
    title: Option<string>,
    description: Option<string>,
    priority: Option<Level>,
    energyLevel: Option<Level>,
    duration: Option<int>,
    category: Option<string>,
    dueDate: Option<int>,
    scheduledTime: Option<int>,
    delegateTo: Option<string>,
    tags: Option<seq<string>>,
    dependencies: Option<seq<string>>,
    estimatedEffort: Option<int>)

  /** A `Partial<Task>` as `updateTask` spreads it: `None` is a property that is absent;
      an optional field that is present may be present as `undefined`, which clears it. */
  datatype TaskPatch = TaskPatch(
    id: Option<string>,
    title: Option<string>,
    description: Option<Option<string>>,
    priority: Option<Level>,
    energyLevel: Option<Level>,
    duration: Option<int>,
    category: Option<string>,
    status: Option<Status>,
    createdAt: Option<int>,
    dueDate: Option<Option<int>>,
    scheduledTime: Option<Option<int>>,
    delegateTo: Option<Option<string>>,
    tags: Option<seq<string>>,
    parentTaskId: Option<Option<string>>,
    dependencies: Option<seq<string>>,
    estimatedEffort: Option<int>,
    actualTimeSpent: Option<Option<int>>,
    completedAt: Option<Option<int>>,
    reminders: Option<seq<string>>)

  /** `n || d` on an optional number: 0 is falsy. */
  function NumberOr(n: Option<int>, d: int): (r: int)
    ensures (n.None? || n.value == 0) ==> r == d
    ensures n.Some? && n.value != 0 ==> r == n.value
  {
    if n.Some? && n.value != 0 then n.value else d
  }

  /** The task `createTask` stores, given the fresh id and the current time. The parent
      task id is not copied from the draft. */
  function NewTask(d: TaskDraft, id: string, now: int): (t: Task)
    ensures t.id == id && t.status == Pending && t.createdAt == now
    ensures t.priority == d.priority.GetOr(Medium) && t.energyLevel == d.energyLevel.GetOr(Medium)
    ensures t.duration == NumberOr(d.duration, 30) && t.duration != 0
    ensures t.estimatedEffort == NumberOr(d.estimatedEffort, 5) && t.estimatedEffort != 0
    ensures t.category == OrElse(d.category, "Personal") && t.category != ""
    ensures t.reminders == [] && t.parentTaskId.None? && t.actualTimeSpent.None? && t.completedAt.None?
    ensures t.dueDate == d.dueDate && t.scheduledTime == d.scheduledTime
  {
    Task(id, d.title.GetOr(""), d.description, d.priority.GetOr(Medium), d.energyLevel.GetOr(Medium),
         NumberOr(d.duration, 30), OrElse(d.category, "Personal"), Pending, now, d.dueDate,
         d.scheduledTime, d.delegateTo, d.tags.GetOr([]), None, d.dependencies.GetOr([]),
         NumberOr(d.estimatedEffort, 5), None, None, [])
  }

  /** `{ ...task, ...updates }`. */
  function ApplyPatch(t: Task, p: TaskPatch): Task {
    Task(p.id.GetOr(t.id), p.title.GetOr(t.title), p.description.GetOr(t.description),
         p.priority.GetOr(t.priority), p.energyLevel.GetOr(t.energyLevel), p.duration.GetOr(t.duration),
         p.category.GetOr(t.category), p.status.GetOr(t.status), p.createdAt.GetOr(t.createdAt),
         p.dueDate.GetOr(t.dueDate), p.scheduledTime.GetOr(t.scheduledTime),
         p.delegateTo.GetOr(t.delegateTo), p.tags.GetOr(t.tags), p.parentTaskId.GetOr(t.parentTaskId),
         p.dependencies.GetOr(t.dependencies), p.estimatedEffort.GetOr(t.estimatedEffort),
         p.actualTimeSpent.GetOr(t.actualTimeSpent), p.completedAt.GetOr(t.completedAt),
         p.reminders.GetOr(t.reminders))
  }

  /** The empty `Partial<Task>`. */
  function NoChanges(): TaskPatch {
    TaskPatch(None, None, None, None, None, None, None, None, None, None, None, None, None, None,
              None, None, None, None, None)
  }

  /** `{ ...p, ...q }`: the later patch wins on the properties it has. */
  function Combine(p: TaskPatch, q: TaskPatch): TaskPatch {
    TaskPatch(
      if q.id.Some? then q.id else p.id,
      if q.title.Some? then q.title else p.title,
      if q.description.Some? then q.description else p.description,
      if q.priority.Some? then q.priority else p.priority,
      if q.energyLevel.Some? then q.energyLevel else p.energyLevel,
      if q.duration.Some? then q.duration else p.duration,
      if q.category.Some? then q.category else p.category,
      if q.status.Some? then q.status else p.status,
      if q.createdAt.Some? then q.createdAt else p.createdAt,
      if q.dueDate.Some? then q.dueDate else p.dueDate,
      if q.scheduledTime.Some? then q.scheduledTime else p.scheduledTime,
      if q.delegateTo.Some? then q.delegateTo else p.delegateTo,
      if q.tags.Some? then q.tags else p.tags,
      if q.parentTaskId.Some? then q.parentTaskId else p.parentTaskId,
      if q.dependencies.Some? then q.dependencies else p.dependencies,
      if q.estimatedEffort.Some? then q.estimatedEffort else p.estimatedEffort,
      if q.actualTimeSpent.Some? then q.actualTimeSpent else p.actualTimeSpent,
      if q.completedAt.Some? then q.completedAt else p.completedAt,
      if q.reminders.Some? then q.reminders else p.reminders)
  }

  /** Spreading an empty update returns the task unchanged. */
  lemma PatchNothing(t: Task)
    ensures ApplyPatch(t, NoChanges()) == t
  {
  }

  /** Two updates in a row are one update by their spread: the later wins per property. */
  lemma PatchThen(t: Task, p: TaskPatch, q: TaskPatch)
    ensures ApplyPatch(ApplyPatch(t, p), q) == ApplyPatch(t, Combine(p, q))
  {
  }

  /** Repeating an update changes nothing more. */
  lemma PatchIdempotent(t: Task, p: TaskPatch)
    ensures ApplyPatch(ApplyPatch(t, p), p) == ApplyPatch(t, p)
  {
  }

  /** The update `scheduleTask` makes: only `scheduledTime` is set. */
  function SchedulePatch(start: int): (p: TaskPatch)
    ensures forall t :: ApplyPatch(t, p) == t.(scheduledTime := Some(start))
  {
    NoChanges().(scheduledTime := Some(Some(start)))
  }

  /** The task `completeTask` stores: completed now, with the time spent kept when it was
      recorded (and non-zero) and the planned duration otherwise. */
  function CompletedTask(t: Task, now: int): (c: Task)
    ensures c.status == Completed && c.completedAt == Some(now)
    ensures c.actualTimeSpent == Some(NumberOr(t.actualTimeSpent, t.duration))
    ensures c.(status := t.status, completedAt := t.completedAt, actualTimeSpent := t.actualTimeSpent) == t
  {
    t.(status := Completed, completedAt := Some(now), actualTimeSpent := Some(NumberOr(t.actualTimeSpent, t.duration)))
  }

  // ------------------------------------------------------------- due dates

  /** `sortByDueDate`: dated tasks by due date, undated ones after them. */
  function DueCompare(a: Task, b: Task): int {
    if a.dueDate.None? && b.dueDate.None? then 0
    else if a.dueDate.None? then 1
    else if b.dueDate.None? then -1
    else a.dueDate.value - b.dueDate.value
  }

  function HasDue(): Task -> bool {
    (t: Task) => t.dueDate.Some?
  }

  function NoDue(): Task -> bool {
    (t: Task) => t.dueDate.None?
  }

  function DueKey(t: Task): real {
    if t.dueDate.Some? then t.dueDate.value as real else 0.0
  }

  /** The stable sort by `sortByDueDate`: all undated tasks compare equal and after every
      dated one, so the result is the dated tasks sorted by due date followed by the
      undated tasks in their original order. */
  function ByDueDate(s: seq<Task>): seq<Task> {
    SortBy(Filter(s, HasDue()), DueKey) + Filter(s, NoDue())
  }

  /** `ByDueDate` rearranges its input. */
  lemma ByDueDatePermutes(s: seq<Task>)
    ensures multiset(ByDueDate(s)) == multiset(s)
  {
    var f := Filter(s, HasDue());
    SortBySorted(f, DueKey);
    FilterPartition(s, HasDue(), NoDue());
  }

  /** Every dated task of `ByDueDate` comes before every undated one: the sorted part holds
      only dated tasks, and nothing dated follows an undated task. */
  lemma ByDueDateDatedFirst(s: seq<Task>)
    ensures forall i :: 0 <= i < |SortBy(Filter(s, HasDue()), DueKey)| ==> SortBy(Filter(s, HasDue()), DueKey)[i].dueDate.Some?
    ensures forall i, j :: 0 <= i < j < |ByDueDate(s)| && ByDueDate(s)[j].dueDate.Some? ==> ByDueDate(s)[i].dueDate.Some?
  {
    var f := Filter(s, HasDue());
    var dated := SortBy(f, DueKey);
    SortBySorted(f, DueKey);
    forall i | 0 <= i < |dated| ensures dated[i].dueDate.Some? {
      assert dated[i] in multiset(f);
    }
    forall i, j | 0 <= i < j < |ByDueDate(s)| && ByDueDate(s)[j].dueDate.Some?
      ensures ByDueDate(s)[i].dueDate.Some?
    {
      assert j < |dated|;
      assert ByDueDate(s)[i] == dated[i];
    }
  }

  /** Dated tasks in ascending due date are in an order the comparator accepts. */
  lemma DatedOrdered(dated: seq<Task>)
    requires Sorted(dated, DueKey)
    requires forall i :: 0 <= i < |dated| ==> dated[i].dueDate.Some?
    ensures forall i, j :: 0 <= i < j < |dated| ==> DueCompare(dated[i], dated[j]) <= 0
  {
    forall i, j | 0 <= i < j < |dated| ensures DueCompare(dated[i], dated[j]) <= 0 {
      assert DueKey(dated[i]) <= DueKey(dated[j]);
    }
  }

  /** `ByDueDate` puts its tasks into an order the comparator accepts. */
  lemma ByDueDateOrdered(s: seq<Task>)
    ensures forall i, j :: 0 <= i < j < |ByDueDate(s)| ==> DueCompare(ByDueDate(s)[i], ByDueDate(s)[j]) <= 0
  {
    var dated := SortBy(Filter(s, HasDue()), DueKey);
    var undated := Filter(s, NoDue());
    var r := ByDueDate(s);
    assert r == dated + undated;
    SortBySorted(Filter(s, HasDue()), DueKey);
    ByDueDateDatedFirst(s);
    DatedOrdered(dated);
    forall i, j | 0 <= i < j < |r| ensures DueCompare(r[i], r[j]) <= 0 {
      if j < |dated| {
        assert r[i] == dated[i] && r[j] == dated[j];
      } else if i >= |dated| {
        assert r[i].dueDate.None? && r[j].dueDate.None?;
      } else {
        assert r[i].dueDate.Some? && r[j].dueDate.None?;
      }
    }
  }

  // ------------------------------------------------------ recommendations

  function IsPending(): Task -> bool {
    (t: Task) => t.status == Pending
  }

  function WithPriority(l: Level): Task -> bool {
    (t: Task) => t.priority == l
  }

  /** The target energy level: `high` at a peak hour unless the user's energy is low. */
  function TargetLevel(level: Level, hour: int, peaks: seq<int>): (r: Level)
    ensures level == Low ==> r == Low
    ensures level != Low && hour in peaks ==> r == High
    ensures hour !in peaks ==> r == level
  {
    if hour in peaks && level != Low then High else level
  }

  /** A high target admits only high-energy tasks, a medium one medium or high, a low
      one any task. */
  predicate Admits(target: Level, t: Task) {
    match target
    case High => t.energyLevel == High
    case Medium => t.energyLevel == Medium || t.energyLevel == High
    case Low => true
  }

  /** The recommendation comparator: higher priority first, then an exact energy match. */
  function RecommendationCompare(a: Task, b: Task, level: Level): int {
    var aMatch := if a.energyLevel == level then 1 else 0;
    var bMatch := if b.energyLevel == level then 1 else 0;
    if Weight(a.priority) != Weight(b.priority) then Weight(b.priority) - Weight(a.priority)
    else bMatch - aMatch
  }

  /** A numeric key that orders tasks as the comparator does. */
  function RecommendationKey(level: Level): Task -> real {
    (t: Task) => -(2 * Weight(t.priority) + (if t.energyLevel == level then 1 else 0)) as real
  }

  /** The key and the comparator agree on every pair, so the stable sort by the key is
      the sort by the comparator. */
  lemma RecommendationKeyAgrees(a: Task, b: Task, level: Level)
    ensures RecommendationCompare(a, b, level) < 0 <==> RecommendationKey(level)(a) < RecommendationKey(level)(b)
    ensures RecommendationCompare(a, b, level) == 0 <==> RecommendationKey(level)(a) == RecommendationKey(level)(b)
  {
  }

  function Available(): Task -> bool {
    (t: Task) => t.status == Pending && t.scheduledTime.None?
  }

  function AdmittedBy(target: Level): Task -> bool {
    (t: Task) => Admits(target, t)
  }

  /** The candidates of `getEnergyBasedRecommendations`: pending, unscheduled and admitted. */
  function Candidates(tasks: seq<Task>, target: Level): seq<Task> {
    Filter(Filter(tasks, Available()), AdmittedBy(target))
  }

  function Prefix<T>(s: seq<T>, n: nat): (r: seq<T>)
    ensures |r| == if |s| <= n then |s| else n
    ensures r == s[..|r|]
  {
    if |s| <= n then s else s[..n]
  }

  /** `getEnergyBasedRecommendations`, as a function of the stored tasks, the user's
      energy, the current hour and the peak hours. */
  function Recommend(tasks: seq<Task>, level: Level, hour: int, peaks: seq<int>): seq<Task> {
    Prefix(SortBy(Candidates(tasks, TargetLevel(level, hour, peaks)), RecommendationKey(level)), 5)
  }

  /** The first n of a sorted list are drawn from the list, and are all of it when it is
      short. */
  lemma TopOfSortDrawn<T>(s: seq<T>, key: T -> real, n: nat)
    ensures multiset(Prefix(SortBy(s, key), n)) <= multiset(s)
    ensures |s| <= n ==> multiset(Prefix(SortBy(s, key), n)) == multiset(s)
  {
    SortBySorted(s, key);
    PrefixDrawn(SortBy(s, key), n);
  }

  lemma PrefixDrawn<T>(s: seq<T>, n: nat)
    ensures multiset(Prefix(s, n)) <= multiset(s)
  {
    var r := Prefix(s, n);
    assert s == r + s[|r|..];
  }

  /** The first n of a sorted list are sorted, and no element left out has a smaller key
      than the last one taken. */
  lemma TopOfSortBest<T>(s: seq<T>, key: T -> real, n: nat)
    requires n > 0
    ensures Sorted(Prefix(SortBy(s, key), n), key)
    ensures forall x :: x in multiset(s) - multiset(Prefix(SortBy(s, key), n)) ==>
              key(Prefix(SortBy(s, key), n)[|Prefix(SortBy(s, key), n)| - 1]) <= key(x)
  {
    SortBySorted(s, key);
    PrefixBest(SortBy(s, key), key, n);
  }

  /** The first n of any sorted list are sorted, and nothing after them has a smaller key
      than the last one taken. */
  lemma PrefixBest<T>(sorted: seq<T>, key: T -> real, n: nat)
    requires Sorted(sorted, key) && n > 0
    ensures Sorted(Prefix(sorted, n), key)
    ensures forall x :: x in multiset(sorted) - multiset(Prefix(sorted, n)) ==>
              key(Prefix(sorted, n)[|Prefix(sorted, n)| - 1]) <= key(x)
  {
    var r := Prefix(sorted, n);
    SortedHead(sorted, |r|, key);
    if r != [] {
      SortedTailBound(sorted, |r|, key);
    } else {
      assert multiset(sorted) == multiset{};
    }
  }

  lemma SortedHead<T>(s: seq<T>, m: nat, key: T -> real)
    requires Sorted(s, key) && m <= |s|
    ensures Sorted(s[..m], key)
  {
  }

  /** In a sorted sequence, what follows a non-empty head is no smaller than its last
      element. */
  lemma SortedTailBound<T>(s: seq<T>, m: nat, key: T -> real)
    requires Sorted(s, key) && 0 < m <= |s|
    ensures forall x :: x in multiset(s) - multiset(s[..m]) ==> key(s[m - 1]) <= key(x)
  {
    var rest := s[m..];
    assert s == s[..m] + rest;
    forall x | x in multiset(s) - multiset(s[..m]) ensures key(s[m - 1]) <= key(x) {
      assert multiset(s) == multiset(s[..m]) + multiset(rest);
      assert x in rest;
      var k :| 0 <= k < |rest| && rest[k] == x;
      assert s[m + k] == x;
    }
  }

  /** Every recommendation is a pending, unscheduled task the target admits, taken from
      the candidates; there are five, or all candidates when there are fewer. */
  lemma RecommendFromCandidates(tasks: seq<Task>, level: Level, hour: int, peaks: seq<int>)
    ensures var r := Recommend(tasks, level, hour, peaks);
            var cands := Candidates(tasks, TargetLevel(level, hour, peaks));
            && |r| == (if |cands| <= 5 then |cands| else 5)
            && multiset(r) <= multiset(cands)
            && (|cands| <= 5 ==> multiset(r) == multiset(cands))
            && (forall i :: 0 <= i < |r| ==>
                  r[i].status == Pending && r[i].scheduledTime.None? && Admits(TargetLevel(level, hour, peaks), r[i]))
  {
    var target := TargetLevel(level, hour, peaks);
    var cands := Candidates(tasks, target);
    var r := Recommend(tasks, level, hour, peaks);
    TopOfSortDrawn(cands, RecommendationKey(level), 5);
    forall i | 0 <= i < |r|
      ensures r[i].status == Pending && r[i].scheduledTime.None? && Admits(target, r[i])
    {
      assert r[i] in multiset(cands);
      assert r[i] in Filter(tasks, Available());
    }
  }

  /** A list in ascending recommendation key, with nothing left out keyed below its last
      element, is ranked by priority and then by exact energy match, and nothing left out
      ranks above its last element. */
  lemma KeyRankIsPriorityRank(r: seq<Task>, left: multiset<Task>, level: Level)
    requires Sorted(r, RecommendationKey(level))
    requires r == [] ==> left == multiset{}
    requires r != [] ==> forall x :: x in left ==> RecommendationKey(level)(r[|r| - 1]) <= RecommendationKey(level)(x)
    ensures forall i, j :: 0 <= i < j < |r| ==>
              && Weight(r[i].priority) >= Weight(r[j].priority)
              && (Weight(r[i].priority) == Weight(r[j].priority) && r[j].energyLevel == level ==> r[i].energyLevel == level)
    ensures forall x :: x in left ==>
              && Weight(x.priority) <= Weight(r[|r| - 1].priority)
              && (Weight(x.priority) == Weight(r[|r| - 1].priority) && x.energyLevel == level ==> r[|r| - 1].energyLevel == level)
  {
    var key := RecommendationKey(level);
    forall i, j | 0 <= i < j < |r|
      ensures Weight(r[i].priority) >= Weight(r[j].priority)
      ensures Weight(r[i].priority) == Weight(r[j].priority) && r[j].energyLevel == level ==> r[i].energyLevel == level
    {
      assert key(r[i]) <= key(r[j]);
    }
    forall x | x in left
      ensures Weight(x.priority) <= Weight(r[|r| - 1].priority)
      ensures Weight(x.priority) == Weight(r[|r| - 1].priority) && x.energyLevel == level ==> r[|r| - 1].energyLevel == level
    {
      assert key(r[|r| - 1]) <= key(x);
    }
  }

  /** The recommendations come in non-increasing priority, exact energy matches first among
      equal priorities, and a candidate left out never ranks above the last one recommended:
      it has no higher priority, and at equal priority it is an exact match only if the last
      one is too. */
  lemma RecommendBest(tasks: seq<Task>, level: Level, hour: int, peaks: seq<int>)
    ensures var r := Recommend(tasks, level, hour, peaks);
            var cands := Candidates(tasks, TargetLevel(level, hour, peaks));
            && (forall i, j :: 0 <= i < j < |r| ==>
                  && Weight(r[i].priority) >= Weight(r[j].priority)
                  && (Weight(r[i].priority) == Weight(r[j].priority) && r[j].energyLevel == level ==> r[i].energyLevel == level))
            && (forall x :: x in multiset(cands) - multiset(r) ==>
                  && Weight(x.priority) <= Weight(r[|r| - 1].priority)
                  && (Weight(x.priority) == Weight(r[|r| - 1].priority) && x.energyLevel == level ==> r[|r| - 1].energyLevel == level))
  {
    var key := RecommendationKey(level);
    var cands := Candidates(tasks, TargetLevel(level, hour, peaks));
    var r := Recommend(tasks, level, hour, peaks);
    assert r == Prefix(SortBy(cands, key), 5);
    TopOfSortBest(cands, key, 5);
    if r == [] {
      assert |cands| == 0;
      assert multiset(cands) - multiset(r) == multiset{};
    }
    KeyRankIsPriorityRank(r, multiset(cands) - multiset(r), level);
  }

  // --------------------------------------------------------------- reminders

  datatype ReminderKind = TimeBased | LocationBased | ContextBased

  datatype Reminder = Reminder(
    id: string,
    taskId: string,
    kind: ReminderKind,
    triggerTime: Option<int>,
    triggerLocation: Option<string>,
    triggerContext: Option<string>,
    message: string,
    isActive: bool,
    createdAt: int)

  /** The fields of the `Partial<TaskReminder>` that `createReminder` reads. */
  datatype ReminderDraft = ReminderDraft(
    kind: Option<ReminderKind>,
    triggerTime: Option<int>,
    triggerLocation: Option<string>,
    triggerContext: Option<string>,
    message: Option<string>)

  /** The reminder `createReminder` stores for task `t`. */
  function NewReminder(t: Task, taskId: string, d: ReminderDraft, id: string, now: int): (r: Reminder)
    ensures r.id == id && r.taskId == taskId && r.isActive && r.createdAt == now
    ensures r.kind == d.kind.GetOr(TimeBased)
    ensures Truthy(d.message) ==> r.message == d.message.value
    ensures !Truthy(d.message) ==> r.message == "Reminder: " + t.title
  {
    Reminder(id, taskId, d.kind.GetOr(TimeBased), d.triggerTime, d.triggerLocation, d.triggerContext,
             OrElse(d.message, "Reminder: " + t.title), true, now)
  }

  function IsActive(): Reminder -> bool {
    (r: Reminder) => r.isActive
  }

  // -------------------------------------------------------------- planning

  /** A task `getTasksForDate` selects: not completed, due that local day, or, without a
      due date, scheduled that local day. */
  predicate OnDay(t: Task, date: int, offset: int) {
    t.status != Completed
    && (if t.dueDate.Some? then LocalDay(t.dueDate.value, offset) == LocalDay(date, offset)
        else t.scheduledTime.Some? && LocalDay(t.scheduledTime.value, offset) == LocalDay(date, offset))
  }

  function OnDayOf(date: int, offset: int): Task -> bool {
    (t: Task) => OnDay(t, date, offset)
  }

  /** The due date decides: a task due another day is not on this day's list even when it
      is scheduled for this day. */
  lemma DueDateTakesPrecedence(t: Task, date: int, offset: int)
    requires t.dueDate.Some? && t.scheduledTime.Some?
    requires LocalDay(t.scheduledTime.value, offset) == LocalDay(date, offset)
    requires LocalDay(t.dueDate.value, offset) != LocalDay(date, offset)
    ensures !OnDay(t, date, offset)
  {
  }
}
