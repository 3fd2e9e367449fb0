/** The task list of the dashboard component: a plain list of tasks that the handlers
    replace by a new list (add, delete, toggle completion, set priority) and the
    "optimal tasks" view that filters it by focus mode and energy level and puts the
    high-priority tasks first. */
module DemoTasks {
  import opened Common
  import opened Sorting

  /** A task of the component's own list. */
  datatype DemoTask = DemoTask(
    id: string,
    title: string,
    priority: Level,
    energyLevel: Level,
    duration: int,
    category: string,
    delegateTo: Option<string>,
    completed: bool)

  /** The task `addTask` creates; `id` is the clock reading rendered as text. */
  function NewDemoTask(title: string, energy: Level, id: string): (t: DemoTask)
    ensures t.id == id && t.title == title && t.energyLevel == energy
    ensures t.priority == Medium && t.duration == 30 && t.category == "Personal"
    ensures t.delegateTo.None? && !t.completed
  {
    DemoTask(id, title, Medium, energy, 30, "Personal", None, false)
  }

  /** `addTask`: the new task goes at the end and the others stay as they were. */
  function AddTask(tasks: seq<DemoTask>, title: string, energy: Level, id: string): (r: seq<DemoTask>)
    ensures |r| == |tasks| + 1
    ensures r[..|tasks|] == tasks
    ensures r[|tasks|] == NewDemoTask(title, energy, id)
  {
    tasks + [NewDemoTask(title, energy, id)]
  }

  function IdIsNot(taskId: string): DemoTask -> bool {
    (t: DemoTask) => t.id != taskId
  }

  /** `deleteTask`. */
  function DeleteTask(tasks: seq<DemoTask>, taskId: string): seq<DemoTask> {
    Filter(tasks, IdIsNot(taskId))
  }

  /** Deleting removes every task with that id, and only those, keeping the order of the
      rest. */
  lemma DeleteTaskProperties(tasks: seq<DemoTask>, taskId: string)
    ensures forall t :: t in DeleteTask(tasks, taskId) ==> t.id != taskId
    ensures forall t :: multiset(DeleteTask(tasks, taskId))[t] == if t.id != taskId then multiset(tasks)[t] else 0
    ensures IsSubsequence(DeleteTask(tasks, taskId), tasks)
  {
    FilterMultiset(tasks, IdIsNot(taskId));
    FilterIsSubsequence(tasks, IdIsNot(taskId));
  }

  /** Deleting an id no task has changes nothing. */
  lemma DeleteAbsent(tasks: seq<DemoTask>, taskId: string)
    requires forall i :: 0 <= i < |tasks| ==> tasks[i].id != taskId
    ensures DeleteTask(tasks, taskId) == tasks
  {
    FilterAll(tasks, IdIsNot(taskId));
  }

  /** `toggleTaskCompletion`. */
  function ToggleTaskCompletion(tasks: seq<DemoTask>, taskId: string): (r: seq<DemoTask>)
    ensures |r| == |tasks|
    ensures forall i :: 0 <= i < |r| && tasks[i].id != taskId ==> r[i] == tasks[i]
    ensures forall i :: 0 <= i < |r| && tasks[i].id == taskId ==>
              r[i].completed == !tasks[i].completed && r[i].(completed := tasks[i].completed) == tasks[i]
  {
    seq(|tasks|, i requires 0 <= i < |tasks| =>
      if tasks[i].id == taskId then tasks[i].(completed := !tasks[i].completed) else tasks[i])
  }

  /** Toggling the same task twice restores the list. */
  lemma ToggleTwice(tasks: seq<DemoTask>, taskId: string)
    ensures ToggleTaskCompletion(ToggleTaskCompletion(tasks, taskId), taskId) == tasks
  {
    var once := ToggleTaskCompletion(tasks, taskId);
    var twice := ToggleTaskCompletion(once, taskId);
    forall i | 0 <= i < |tasks| ensures twice[i] == tasks[i] {
      assert once[i].id == tasks[i].id;
    }
  }

  /** `setTaskPriority`. */
  function SetTaskPriority(tasks: seq<DemoTask>, taskId: string, priority: Level): (r: seq<DemoTask>)
    ensures |r| == |tasks|
    ensures forall i :: 0 <= i < |r| && tasks[i].id != taskId ==> r[i] == tasks[i]
    ensures forall i :: 0 <= i < |r| && tasks[i].id == taskId ==>
              r[i].priority == priority && r[i].(priority := tasks[i].priority) == tasks[i]
  {
    seq(|tasks|, i requires 0 <= i < |tasks| =>
      if tasks[i].id == taskId then tasks[i].(priority := priority) else tasks[i])
  }

  /** Setting a priority twice leaves the second one. */
  lemma SetPriorityLastWins(tasks: seq<DemoTask>, taskId: string, p: Level, q: Level)
    ensures SetTaskPriority(SetTaskPriority(tasks, taskId, p), taskId, q) == SetTaskPriority(tasks, taskId, q)
  {
    var first := SetTaskPriority(tasks, taskId, p);
    var second := SetTaskPriority(first, taskId, q);
    forall i | 0 <= i < |tasks| ensures second[i] == SetTaskPriority(tasks, taskId, q)[i] {
      assert first[i].id == tasks[i].id;
    }
  }

  /** The filter of `getOptimalTasks`. */
  function Eligible(focusMode: bool, energy: Level): DemoTask -> bool {
    (t: DemoTask) =>
      && !t.completed
      && (focusMode ==> t.priority == High)
      && (energy == Low ==> t.energyLevel != High)
  }

  /** The comparator of `getOptimalTasks` as a sort key: high priority first, every other
      pair tied. */
  function HighFirstKey(t: DemoTask): real {
    if t.priority == High then 0.0 else 1.0
  }

  function IsHigh(): DemoTask -> bool {
    (t: DemoTask) => t.priority == High
  }

  function NotHigh(): DemoTask -> bool {
    (t: DemoTask) => t.priority != High
  }

  /** `getOptimalTasks`: the eligible tasks under the stable sort by `HighFirstKey`. */
  function OptimalTasks(tasks: seq<DemoTask>, focusMode: bool, energy: Level): seq<DemoTask> {
    SortBy(Filter(tasks, Eligible(focusMode, energy)), HighFirstKey)
  }

  lemma {:induction false} HighGroups(s: seq<DemoTask>)
    ensures WithKey(s, HighFirstKey, 0.0) == Filter(s, IsHigh())
    ensures WithKey(s, HighFirstKey, 1.0) == Filter(s, NotHigh())
    decreases |s|
  {
    if s != [] {
      HighGroups(s[1..]);
    }
  }

  /** The optimal tasks are the eligible tasks, rearranged: none completed, only high
      priority under focus mode, none demanding high energy when energy is low, and every
      eligible task present. */
  lemma OptimalTasksEligible(tasks: seq<DemoTask>, focusMode: bool, energy: Level)
    ensures multiset(OptimalTasks(tasks, focusMode, energy)) == multiset(Filter(tasks, Eligible(focusMode, energy)))
    ensures var r := OptimalTasks(tasks, focusMode, energy);
            forall i :: 0 <= i < |r| ==>
              && !r[i].completed
              && (focusMode ==> r[i].priority == High)
              && (energy == Low ==> r[i].energyLevel != High)
  {
    var c := Filter(tasks, Eligible(focusMode, energy));
    var r := OptimalTasks(tasks, focusMode, energy);
    SortBySorted(c, HighFirstKey);
    forall i | 0 <= i < |r| ensures Eligible(focusMode, energy)(r[i]) {
      assert r[i] in multiset(c);
    }
  }

  lemma OptimalTasksComplete(tasks: seq<DemoTask>, focusMode: bool, energy: Level)
    ensures forall t :: t in tasks && Eligible(focusMode, energy)(t) ==> t in OptimalTasks(tasks, focusMode, energy)
  {
    var c := Filter(tasks, Eligible(focusMode, energy));
    var r := OptimalTasks(tasks, focusMode, energy);
    SortBySorted(c, HighFirstKey);
    forall t | t in tasks && Eligible(focusMode, energy)(t) ensures t in r {
      assert t in c;
      assert t in multiset(r);
    }
  }

  /** The view is the eligible high-priority tasks in list order followed by the other
      eligible tasks in list order. */
  lemma OptimalTasksGroups(tasks: seq<DemoTask>, focusMode: bool, energy: Level)
    ensures var c := Filter(tasks, Eligible(focusMode, energy));
            OptimalTasks(tasks, focusMode, energy) == Filter(c, IsHigh()) + Filter(c, NotHigh())
  {
    var c := Filter(tasks, Eligible(focusMode, energy));
    TwoKeySort(c, HighFirstKey, 0.0, 1.0);
    HighGroups(c);
  }

  /** Every high-priority task of the view comes before every other one. */
  lemma OptimalTasksHighFirst(tasks: seq<DemoTask>, focusMode: bool, energy: Level)
    ensures var r := OptimalTasks(tasks, focusMode, energy);
            forall i, j :: 0 <= i < j < |r| && r[j].priority == High ==> r[i].priority == High
  {
    var c := Filter(tasks, Eligible(focusMode, energy));
    var r := OptimalTasks(tasks, focusMode, energy);
    SortBySorted(c, HighFirstKey);
    forall i, j | 0 <= i < j < |r| && r[j].priority == High ensures r[i].priority == High {
      assert HighFirstKey(r[i]) <= HighFirstKey(r[j]);
    }
  }
}
