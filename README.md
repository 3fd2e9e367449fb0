# AuraMind core, modelled in Dafny

AuraMind is a browser productivity assistant. This project models the four parts of
it that hold real logic:

- **Calendar manager.** It keeps a list of events merged from Google and Outlook. Each
  merge replaces the events of one provider and re-sorts the list by start time. It
  answers range and "upcoming" queries. A conflict detector scans the stored events and
  reports overlaps, back-to-back meetings, travel-time and preparation-time problems.
  It also builds preparation material for a meeting.
- **Task management system.** It keeps three maps: tasks, daily plans and reminders.
  It supports create, update, delete and complete, each with a not-found path. It
  groups tasks by priority, ordered by due date. It builds a daily plan once per date,
  using a greedy 09:00–17:00 scheduler. It recommends up to five tasks by energy level.
  Reminders can be created, triggered and snoozed. A productivity history is capped at
  100 entries, and the peak-energy hours are learned from it.
- **Conversation manager of the language-model assistant.** It keeps a history bounded
  at ten messages and assembles the prompt sent to the model. It summarises recent
  topics, buckets the hour of day, and gives keyword-driven replies in demo mode, when
  no API key is configured.
- **Dashboard task list.** Its add, delete, toggle and set-priority handlers each
  replace the list. Its "optimal tasks" view filters by focus mode and energy level and
  puts high-priority tasks first.

Layout:

| file | contents |
|---|---|
| `common.dfy` | Shared types and helpers: `Option`/`Result`, the `high`/`medium`/`low` levels, JavaScript truthiness, ASCII lower-casing, `includes`, `filter`, the bounded-history idiom. |
| `sorting.dfy` | A stable sort by a real key, standing in for `Array.prototype.sort` with a comparator. Each comparator is shown equivalent to its key. |
| `ordered_map.dfy` | A JavaScript `Map`, which remembers insertion order. |
| `clock.dfy` | Millisecond timestamps and local hours/days at a fixed offset from UTC. |
| `calendar.dfy`, `conflicts.dfy`, `calendar_store.dfy` | The calendar manager. `CalendarManager` is a class whose `events` field is updated in place. |
| `tasks.dfy`, `planner.dfy`, `task_system.dfy` | The task system. `TaskManagementSystem` is a class whose map fields are updated in place. |
| `conversation.dfy` | The conversation manager. `GeminiAIManager` is a class whose `history` field is updated in place. |
| `demo_tasks.dfy` | The dashboard task list, as pure list functions. |

### Behaviour of the code worth knowing

- **End of the working day.** `autoScheduleTasks` declares working hours of 9 to 17
  (auramindtest/auramind-main/src/lib/taskManager.ts:285), but its only end check is
  `taskEndTime.getHours() > workingHours.end` (taskManager.ts:301). It compares the
  local hour of the end time, not the end time itself.
  - A task ending at 17:45 is therefore still scheduled (`Planner.LateEndStillFits`).
  - So is a task whose end wraps past midnight (`Planner.PastMidnightStillFits`).
- **Last rule wins in conflict detection.** For each stored event, `detectConflicts`
  first checks overlap; an overlap is recorded and the other rules are skipped.
  Otherwise every rule the event breaks overwrites `conflictType` and `severity`, in
  the order back-to-back, travel time, preparation time
  (auramindtest/auramind-main/src/lib/calendar.ts:160-200).
  Take an adjacent meeting at another location. It breaks the back-to-back rule, the
  travel-time rule and the default 5-minute preparation rule, so the result is
  `preparation_time`/`warning`, not `travel_time`/`error` (`Conflicts.ThreePushes`).
- **Two tests for a video call.** The technology-check step and the travel text treat
  a location naming zoom, teams or meet as a video call (calendar.ts:339, 458), but
  `calculateOptimalArrivalTime` excludes only zoom and teams from travel
  (calendar.ts:450). A Google Meet location therefore gets a technology check and
  20–30 minutes of travel (`Calendar.MeetCallStillTravels`).
- **Medium-energy recommendations.** A medium target admits both medium-energy and
  high-energy tasks (taskManager.ts:236).
- **Snoozing.** `snoozeReminder` arms a second timer and does not cancel the first one
  (taskManager.ts:380-386), so the original trigger time still fires (see "Left out").

## Model

| member | source | states |
|---|---|---|
| Calendar.ConvertGoogleEvent | auramindtest/auramind-main/src/lib/calendar.ts:104-119 | The id is `google_` followed by the provider id. The title is the summary when it is non-empty, else "Untitled Event". Start and end are the provider times, whether date-time or date. Description, location and attendee e-mails are copied, with no attendees when none are sent. The event is all-day exactly when only a date was sent. It is cancelled or tentative exactly when the provider says so. Priority is medium. The reminders are the provider's overrides when present, else `[15]`. |
| Calendar.ConvertOutlookEvent | auramindtest/auramind-main/src/lib/calendar.ts:121-137 | The id is `outlook_` followed by the provider id. The title is the subject when it is non-empty, else "Untitled Event". Start, end, description, location, attendees and the all-day flag are copied. Cancelled comes from the cancel flag, and tentative from a tentatively-accepted response on an event that is not cancelled. High/low priority holds exactly when importance is high/low. Reminders are `[15]`. |
| Calendar.TravelTime | auramindtest/auramind-main/src/lib/calendar.ts:218-227 | The result is always 5, 20 or 30. It is 20 exactly when either place mentions "home" (case-insensitive), so "home" takes precedence over office-to-office. It is 5 only when neither place mentions home. |
| Calendar.TravelTimeSymmetric | auramindtest/auramind-main/src/lib/calendar.ts:218-227 | The estimate does not depend on the direction of travel. |
| Calendar.TravelFromCurrentLocation | auramindtest/auramind-main/src/lib/calendar.ts:450-452 | Travel from the current position takes 20 minutes to a place mentioning home and 30 minutes otherwise. |
| Calendar.DefaultPrepTime | auramindtest/auramind-main/src/lib/calendar.ts:229-236 | The result is one of 15, 30, 10, 2, 5, checked in that order on the lower-cased title. Interview gives 15. Otherwise presentation or demo gives 30. Otherwise review or planning gives 10. Otherwise standup or daily gives 2. The result is 5 exactly when no keyword is present. |
| Calendar.FirstMatch | auramindtest/auramind-main/src/lib/calendar.ts:354-366 | The result is `General` or a listed type whose keywords the text mentions. |
| Calendar.FirstMatchPrecedence | auramindtest/auramind-main/src/lib/calendar.ts:354-366 | A type listed after one the text already mentions is never chosen. |
| Calendar.FirstMatchFound | auramindtest/auramind-main/src/lib/calendar.ts:354-366 | When the text mentions a keyword of some listed type, the result is not `General`. With `FirstMatchPrecedence`, the result is the first listed type the text mentions. |
| Calendar.MeetingTypeByTable | auramindtest/auramind-main/src/lib/calendar.ts:354-366 | `identifyMeetingType` is the first-match reading of its keyword table, in the order the code checks the types. |
| Calendar.IdentifyNeededDocuments | auramindtest/auramind-main/src/lib/calendar.ts:368-389 | The list holds exactly the documents the rules push, each once. Review adds the three review documents, planning the three planning documents, and interview the three interview documents. "Meeting agenda" and "Previous meeting notes" are always present. |
| Calendar.CalculateOptimalArrivalTime | auramindtest/auramind-main/src/lib/calendar.ts:431-455 | Arrival is 10 minutes before the start for an interview, 8 for a review or planning meeting, 2 for a standup and 5 otherwise. For a truthy location that names neither zoom nor teams, travel is added: 20 more minutes when the location mentions home, 30 otherwise. |
| Calendar.ArrivalBounds | auramindtest/auramind-main/src/lib/calendar.ts:431-455 | The arrival is 2–10 minutes early for a location naming zoom or teams, or for no location. It is 22–40 minutes early for any other location, including one naming only `meet`. |
| Calendar.MeetCallStillTravels | auramindtest/auramind-main/src/lib/calendar.ts:450-452 | A location naming `meet` but neither zoom nor teams counts as a video call, yet its arrival is still 22–40 minutes early because travel is added. |
| Calendar.TypeSteps | auramindtest/auramind-main/src/lib/calendar.ts:288-336 | Each meeting type adds at most two steps. No step appears twice, none is the agenda review or the technology check, and each is due at least 45 minutes ahead. |
| Calendar.PrepSteps | auramindtest/auramind-main/src/lib/calendar.ts:273-352 | There are 1 to 4 steps and no step appears twice. The agenda review comes first, 30 minutes ahead. Every step is due at least 15 minutes ahead. The last step is the technology check exactly when the location is a video call. |
| Calendar.GeneratePreparationTasks | auramindtest/auramind-main/src/lib/calendar.ts:273-352 | There are 1 to 4 tasks with distinct ids, none completed. The first is `prep_<id>_review`, 30 minutes before the start. All are due at least 15 minutes before the start. The last is `prep_<id>_tech` exactly for a video call. |
| Calendar.DefaultKeyPoints | auramindtest/auramind-main/src/lib/calendar.ts:414-429 | Standup, review, planning and interview meetings get three fallback points. Every other type gets four. |
| Calendar.GenerateTravelInstructions | auramindtest/auramind-main/src/lib/calendar.ts:457-464 | A location naming zoom, teams or meet gets the fixed virtual-meeting text. Any other location gets exactly "Navigate to: <location>." followed by the fixed travel advice. |
| Calendar.GenerateMeetingPreparation | auramindtest/auramind-main/src/lib/calendar.ts:256-271 | The preparation keeps the event and the given key points. Its tasks, documents and arrival time are those of `GeneratePreparationTasks`, `IdentifyNeededDocuments` and `CalculateOptimalArrivalTime`. The arrival falls before the start, and the documents include the agenda. Travel instructions are present exactly when the location is truthy, and are then `GenerateTravelInstructions` of it. |
| Conflicts.OverlapSymmetric | auramindtest/auramind-main/src/lib/calendar.ts:214-216 | Overlap is symmetric. |
| Conflicts.TouchingDoNotOverlap | auramindtest/auramind-main/src/lib/calendar.ts:214-216 | Overlap is strict: intervals that only touch do not overlap. |
| Conflicts.PrepMinutes | auramindtest/auramind-main/src/lib/calendar.ts:193-194 | The candidate's non-zero preparation time is used if present. Otherwise the title's default is used. |
| Conflicts.Hits | auramindtest/auramind-main/src/lib/calendar.ts:160-200 | One stored event raises at most three hits, at most one per rule, pushed in the order overlap, back-to-back, travel, preparation. A cancelled event raises none. An overlapping event raises exactly one overlap error and skips the other rules. Otherwise, with the gap between the candidate's start and the event's end: back-to-back fires exactly when the gap is under 5 minutes; travel fires exactly when both locations are truthy and differ and the gap is under the travel estimate; preparation fires exactly when the preparation time is positive and the gap is under it. Overlap and travel are errors, the others warnings. |
| Conflicts.ScanLastWriteWins | auramindtest/auramind-main/src/lib/calendar.ts:157-200 | The returned type and severity are those of the last hit in scan order, not the most severe. With no hit they are `overlap`/`warning`. |
| Conflicts.ReportedMultiplicity | auramindtest/auramind-main/src/lib/calendar.ts:160-200 | Each stored event is pushed once per rule it breaks: an event stored `m` times that raises `h` hits appears `m * h` times among the conflicts. |
| Conflicts.ReportedFromStore | auramindtest/auramind-main/src/lib/calendar.ts:160-200 | Every reported conflict is a stored event that is not cancelled. |
| Conflicts.OverlappingReported | auramindtest/auramind-main/src/lib/calendar.ts:164-169 | Every stored, non-cancelled event that overlaps the candidate is reported. |
| Conflicts.ConflictSuggestion | auramindtest/auramind-main/src/lib/calendar.ts:238-254 | There is no suggestion exactly when there are no conflicts. Otherwise it names the first conflict's title, or its location for a travel conflict. |
| Conflicts.QuotingContains | auramindtest/auramind-main/src/lib/calendar.ts:242-250 | The suggestion contains the quoted name. |
| Conflicts.Detect | auramindtest/auramind-main/src/lib/calendar.ts:151-212 | A candidate without a start or end gives no conflict, an empty list and `overlap`/`warning`. `hasConflict` holds exactly when the list is non-empty. The suggestion is built from the list and the final type. |
| Conflicts.DetectFromStore | auramindtest/auramind-main/src/lib/calendar.ts:160-206 | Each reported conflict is a stored, non-cancelled event. |
| Conflicts.OverlapThenPreparation | auramindtest/auramind-main/src/lib/calendar.ts:157-200 | An overlap followed by a later preparation-time hit yields `preparation_time`/`warning`. |
| Conflicts.ThreePushes | auramindtest/auramind-main/src/lib/calendar.ts:157-200 | One stored event can be pushed three times. The travel error is then overwritten by the preparation warning. |
| CalendarStore.MergedSortedPermutation | auramindtest/auramind-main/src/lib/calendar.ts:139-148 | After a merge the list is sorted by start time. It is a permutation of the other providers' events plus the new ones. |
| CalendarStore.MergedMembers | auramindtest/auramind-main/src/lib/calendar.ts:139-148 | No earlier event with the `source_` prefix survives. Every new event is present. Events of other sources are kept. |
| CalendarStore.ConvertGoogleEvents | auramindtest/auramind-main/src/lib/calendar.ts:68 | A missing item list gives no events. Otherwise there is one event per item, in order, each the converted item, so each carries the `google_` prefix. |
| CalendarStore.ConvertOutlookEvents | auramindtest/auramind-main/src/lib/calendar.ts:92 | A missing item list gives no events. Otherwise there is one event per item, in order, each the converted item, so each carries the `outlook_` prefix. |
| CalendarStore.AddOnce | auramindtest/auramind-main/src/lib/calendar.ts:70 | `Set.add` keeps the earlier providers in place and in order, and appends the new one only when it is absent. The members are exactly the old ones plus the new one, each once. |
| CalendarStore.CalendarManager.constructor | auramindtest/auramind-main/src/lib/calendar.ts:50-52 | The manager starts with no events and no connected providers. |
| CalendarStore.CalendarManager.MergeEvents | auramindtest/auramind-main/src/lib/calendar.ts:139-148 | The new event list is the merged list. The connected providers are unchanged. |
| CalendarStore.CalendarManager.ConnectGoogleCalendar | auramindtest/auramind-main/src/lib/calendar.ts:57-79 | Success holds exactly when the fetch succeeded, and only then are the events merged and "google" connected. A failure leaves everything unchanged. |
| CalendarStore.CalendarManager.ConnectOutlookCalendar | auramindtest/auramind-main/src/lib/calendar.ts:81-102 | The same as the Google connection, for "outlook". |
| CalendarStore.CalendarManager.DetectConflicts | auramindtest/auramind-main/src/lib/calendar.ts:151-212 | The loop over the stored events computes exactly `Detect`. |
| CalendarStore.CheckEvent | auramindtest/auramind-main/src/lib/calendar.ts:161-199 | The loop body for one event appends that event's hits and applies last-write-wins. |
| CalendarStore.CalendarManager.GetEvents | auramindtest/auramind-main/src/lib/calendar.ts:475-487 | Returns exactly the non-cancelled events starting within the given inclusive bounds. They keep their stored order and multiplicities. |
| CalendarStore.CalendarManager.GetUpcomingEvents | auramindtest/auramind-main/src/lib/calendar.ts:489-498 | Returns exactly the non-cancelled events starting in `[now, now + h hours]`. They keep their stored order and multiplicities. |
| CalendarStore.CalendarManager.GetConnectedCalendars | auramindtest/auramind-main/src/lib/calendar.ts:512-514 | Each connected provider appears once. |
| CalendarStore.WindowChain | auramindtest/auramind-main/src/lib/calendar.ts:476-486 | The chained filters keep exactly the in-window events, in order. |
| Tasks.NumberOr | auramindtest/auramind-main/src/lib/taskManager.ts:108 | For `x \|\| d` on a number: a missing value or 0 gives `d`. |
| Tasks.NewTask | auramindtest/auramind-main/src/lib/taskManager.ts:101-121 | The new task is pending and stamped with `now`. Priority and energy default to medium. Duration defaults to 30, also when 0 is passed. Effort defaults to 5 and the category to "Personal". The reminders are empty. |
| Tasks.PatchNothing | auramindtest/auramind-main/src/lib/taskManager.ts:136 | An empty update leaves a task unchanged. |
| Tasks.PatchThen | auramindtest/auramind-main/src/lib/taskManager.ts:136 | Two spreads equal one spread of the combined update. |
| Tasks.PatchIdempotent | auramindtest/auramind-main/src/lib/taskManager.ts:136 | Applying the same update twice equals applying it once. |
| Tasks.SchedulePatch | auramindtest/auramind-main/src/lib/taskManager.ts:198 | The scheduling update changes only `scheduledTime`. |
| Tasks.CompletedTask | auramindtest/auramind-main/src/lib/taskManager.ts:155-160 | The status becomes completed and the completion time is `now`. The actual time becomes its earlier non-zero value, or else the duration. No other field changes. |
| Tasks.ByDueDatePermutes | auramindtest/auramind-main/src/lib/taskManager.ts:180-185 | Sorting by due date is a permutation. |
| Tasks.ByDueDateDatedFirst | auramindtest/auramind-main/src/lib/taskManager.ts:180-185 | Dated tasks come before undated ones. |
| Tasks.ByDueDateOrdered | auramindtest/auramind-main/src/lib/taskManager.ts:180-185 | Every pair is in order under the `sortByDueDate` comparator. |
| Tasks.TargetLevel | auramindtest/auramind-main/src/lib/taskManager.ts:223-230 | Low energy stays low. Any other level at a peak hour becomes high. Outside peak hours the level is kept. |
| Tasks.RecommendationKeyAgrees | auramindtest/auramind-main/src/lib/taskManager.ts:239-251 | The numeric key orders every pair exactly as the comparator does: higher priority first, then an exact energy match. |
| Tasks.Prefix | auramindtest/auramind-main/src/lib/taskManager.ts:253 | `slice(0, n)` returns the first `min(n, len)` elements. |
| Tasks.RecommendFromCandidates | auramindtest/auramind-main/src/lib/taskManager.ts:219-254 | There are at most five recommendations, all pending, unscheduled and admitted by the target level. They are drawn from the candidates, and are all of them when there are at most five. |
| Tasks.RecommendBest | auramindtest/auramind-main/src/lib/taskManager.ts:239-253 | The recommendations are in non-increasing priority, and among equal priorities the exact energy matches come first. A candidate left out never ranks above the last one returned: its priority is no higher, and at equal priority it is an exact match only if the last one is too. |
| Tasks.NewReminder | auramindtest/auramind-main/src/lib/taskManager.ts:320-333 | The new reminder is active and time-based by default. Its message defaults to "Reminder: " followed by the task title. |
| Tasks.DueDateTakesPrecedence | auramindtest/auramind-main/src/lib/taskManager.ts:441-449 | When the due date and the scheduled time fall on different days, only the due date decides the day. |
| Planner.Buffer | auramindtest/auramind-main/src/lib/taskManager.ts:308 | The buffer is a fifth of the duration, capped at 15. |
| Planner.ScheduleQueueProperties | auramindtest/auramind-main/src/lib/taskManager.ts:290-295 | The scheduler considers exactly the tasks without a scheduled time, in non-increasing priority weight. The order within a weight is kept. |
| Planner.SlotsFollowQueue | auramindtest/auramind-main/src/lib/taskManager.ts:297-314 | The slots are for the first tasks of the queue, in order. The first starts at the cursor. Each lasts the task's duration and ends at a time the working-hours check accepts (for `FitsWorkday`, a local hour no later than 17). Each next start is the previous end plus 15 minutes. |
| Planner.SlotsStopAtFirstMisfit | auramindtest/auramind-main/src/lib/taskManager.ts:301-303 | Scheduling stops at the first task whose end the working-hours check rejects (for `FitsWorkday`, an end hour after 17). No later task is tried. |
| Planner.SlotsDisjoint | auramindtest/auramind-main/src/lib/taskManager.ts:297-314 | With non-negative durations, the slots are disjoint and increasing. |
| Planner.LateEndStillFits | auramindtest/auramind-main/src/lib/taskManager.ts:301 | A 525-minute task ending at 17:45 is still scheduled. |
| Planner.PastMidnightStillFits | auramindtest/auramind-main/src/lib/taskManager.ts:301 | A 960-minute task ending at 01:00 the next day is still scheduled. |
| Planner.AutoScheduleTasks | auramindtest/auramind-main/src/lib/taskManager.ts:283-317 | The scheduled slots are exactly `Slots` of the priority queue, from 09:00 local time of the plan's date, under the 17:00 end-hour check. |
| Planner.FillDay | auramindtest/auramind-main/src/lib/taskManager.ts:297-314 | The cursor loop with `break` computes exactly `Slots` of the queue, start and working-hours check it is given. |
| Planner.Tally | auramindtest/auramind-main/src/lib/taskManager.ts:451-461 | The three counts sum to the number of tasks. |
| Planner.TallyCounts | auramindtest/auramind-main/src/lib/taskManager.ts:451-461 | Each count is the number of tasks at that level. |
| Planner.CalculateDistribution | auramindtest/auramind-main/src/lib/taskManager.ts:451-461 | The counting loop computes the tally, whose counts sum to the number of tasks. |
| Planner.PlanAccounts | auramindtest/auramind-main/src/lib/taskManager.ts:257-281 | A task of the day is scheduled or listed as unscheduled, never both. Both distributions sum to the number of tasks of the day. |
| Planner.QueueSlotsFromDay | auramindtest/auramind-main/src/lib/taskManager.ts:289-314 | Each slot filled from the queue of a day belongs to a task of that day with no scheduled time. |
| Planner.DefaultProfile | auramindtest/auramind-main/src/lib/taskManager.ts:89-98 | The default profile has an empty history and five peak hours. |
| Planner.RecordFor | auramindtest/auramind-main/src/lib/taskManager.ts:390-400 | The record copies the id, estimate and energy of the task. The actual time is the time spent, or else the duration. The hour is 0–23. It is on time exactly when there was no due date or completion came no later than it. |
| Planner.HourlyProductivity | auramindtest/auramind-main/src/lib/taskManager.ts:417-422 | The accumulation loop over the history computes the per-hour efficiency totals. |
| Planner.HourlyTotalsHours | auramindtest/auramind-main/src/lib/taskManager.ts:417-422 | An hour has a total exactly when some history record was completed at that hour. |
| Planner.TopHoursOccur | auramindtest/auramind-main/src/lib/taskManager.ts:424-429 | There are at most five peak hours, and at least one when the history is non-empty; each occurs in the history. |
| Planner.KeyOccurs | auramindtest/auramind-main/src/lib/taskManager.ts:417-422 | Every hour that has a total occurs in the history. |
| Planner.TopHoursBest | auramindtest/auramind-main/src/lib/taskManager.ts:424-429 | The peak hours are the hours of the kept entries, whose totals are non-increasing; every hour left out has a total no higher than the last one kept. |
| TaskSystem.SchedulingSuggestion | auramindtest/auramind-main/src/lib/taskManager.ts:473-488 | A suggestion exists exactly for a task with a due date and no scheduled time. It lies on the hour, at the first peak hour (10 when there is none or it is 0), on the local day before the due date. |
| TaskSystem.TimerDelay | auramindtest/auramind-main/src/lib/taskManager.ts:349-358 | A timer is armed only for a time-based reminder whose trigger lies in the future. Its delay is positive and reaches the trigger time. |
| TaskSystem.TaskManagementSystem.constructor | auramindtest/auramind-main/src/lib/taskManager.ts:84-87 | All maps start empty and the profile is the default. |
| TaskSystem.TaskManagementSystem.CreateTask | auramindtest/auramind-main/src/lib/taskManager.ts:101-130 | Stores the new task under its id; the scheduling suggestion is made exactly when a due date is given without a scheduled time; nothing else changes. |
| TaskSystem.TaskManagementSystem.UpdateTask | auramindtest/auramind-main/src/lib/taskManager.ts:132-141 | An unknown id gives null and leaves the store unchanged. A known id is replaced by the spread update. Nothing else changes. |
| TaskSystem.TaskManagementSystem.DeleteTask | auramindtest/auramind-main/src/lib/taskManager.ts:143-149 | The result is true exactly when the id was stored, and only that entry goes. |
| TaskSystem.TaskManagementSystem.CompleteTask | auramindtest/auramind-main/src/lib/taskManager.ts:151-167 | An unknown id gives null and nothing changes. Otherwise the task is completed and its record is appended to the history, keeping the last 100. The peak hours are relearned once there are at least 10 records. |
| TaskSystem.TaskManagementSystem.UpdateProductivityProfile | auramindtest/auramind-main/src/lib/taskManager.ts:390-410 | The history gains the record and is cut to the last 100. Only the history and the peak hours change. |
| TaskSystem.TaskManagementSystem.AnalyzeProductivityPatterns | auramindtest/auramind-main/src/lib/taskManager.ts:412-430 | Below 10 records nothing changes. Otherwise the peak hours become the top five hours of the history. |
| TaskSystem.TaskManagementSystem.GetTasksByPriority | auramindtest/auramind-main/src/lib/taskManager.ts:170-178 | Each group is exactly the pending tasks of that priority, in due-date order. |
| TaskSystem.TaskManagementSystem.ScheduleTask | auramindtest/auramind-main/src/lib/taskManager.ts:187-216 | Scheduling succeeds exactly for a known task whose slot overlaps no slot in the cached plan of that day. It then sets only `scheduledTime`. Otherwise nothing changes. |
| TaskSystem.TaskManagementSystem.GetEnergyBasedRecommendations | auramindtest/auramind-main/src/lib/taskManager.ts:219-254 | There are at most five tasks, pending, unscheduled, admitted by the target level and drawn from the candidates; all candidates when there are at most five. They are in non-increasing priority, exact energy matches first within a priority. No candidate left out ranks above the last one returned. |
| TaskSystem.TaskManagementSystem.CreateDailyPlan | auramindtest/auramind-main/src/lib/taskManager.ts:257-281 | A cached plan for that date is returned unchanged. Otherwise a new plan is built, cached and returned. |
| TaskSystem.TaskManagementSystem.CreateReminder | auramindtest/auramind-main/src/lib/taskManager.ts:320-347 | An unknown task gives the "Task not found" error and nothing changes. Otherwise the reminder is stored, its id is appended to the task, and a timer is armed when the trigger lies in the future. |
| TaskSystem.TaskManagementSystem.TriggerReminder | auramindtest/auramind-main/src/lib/taskManager.ts:360-374 | A missing or inactive reminder does nothing. An active one is dispatched. A time-based one is then deactivated, and nothing else changes. |
| TaskSystem.TaskManagementSystem.GetActiveReminders | auramindtest/auramind-main/src/lib/taskManager.ts:376-378 | Returns exactly the active reminders, in map order. |
| TaskSystem.TaskManagementSystem.SnoozeReminder | auramindtest/auramind-main/src/lib/taskManager.ts:380-387 | An unknown id does nothing. Otherwise only the trigger time changes, to `now` plus the minutes. The active flag is kept and a new timer is armed. |
| TaskSystem.TaskManagementSystem.GetAllTasks | auramindtest/auramind-main/src/lib/taskManager.ts:529-531 | Every stored task is listed, in the order the ids were first set. |
| TaskSystem.TaskManagementSystem.GetTask | auramindtest/auramind-main/src/lib/taskManager.ts:533-535 | Returns the stored task, or nothing for an unknown id. |
| TaskSystem.TaskManagementSystem.GetDailyPlan | auramindtest/auramind-main/src/lib/taskManager.ts:537-539 | Returns the plan cached under the date's UTC day key, if there is one. |
| TaskSystem.TaskManagementSystem.GetUserProfile | auramindtest/auramind-main/src/lib/taskManager.ts:541-543 | Returns the profile, whose history holds at most 100 records. |
| Conversation.TimeOfDay | auramind-main/src/lib/gemini.ts:147-154 | Hours below 6 give "late night", 6–11 "morning", 12–16 "afternoon", 17–20 "evening", and the rest "night", each as an if-and-only-if. |
| Conversation.TimeOfDayMonotone | auramind-main/src/lib/gemini.ts:147-154 | A later hour never falls in an earlier bucket of the day. |
| Conversation.PromptShape | auramind-main/src/lib/gemini.ts:92-126 | The prompt begins with the system prompt it is built from and ends with the labelled user input. The history section is empty exactly when the history is. The prompt shows the last five messages, or all when there are fewer. |
| Conversation.PromptShowsRecent | auramind-main/src/lib/gemini.ts:96-101 | Each of the last five messages appears in the prompt as its own `role: content` line. |
| Conversation.PromptWindowOnly | auramind-main/src/lib/gemini.ts:96-101 | Only the last five messages matter: adding older history leaves the prompt unchanged. |
| Conversation.SummaryShape | auramind-main/src/lib/gemini.ts:175-183 | An empty history gives the fixed text. Otherwise the summary starts "Recent topics: " and covers the last three messages, each cut to a prefix of at most fifty characters. |
| Conversation.SummaryShowsRecent | auramind-main/src/lib/gemini.ts:175-183 | The first fifty characters of each of the last three messages appear in the summary. |
| Conversation.SummaryWindowOnly | auramind-main/src/lib/gemini.ts:175-183 | Only the last three messages matter: adding older history leaves the summary unchanged. |
| Conversation.Topics | auramind-main/src/lib/gemini.ts:180 | Each topic is a prefix of its message of at most fifty characters. |
| Conversation.LastUserContent | auramind-main/src/lib/gemini.ts:191-193 | Returns the content of the last user message, or nothing when there is no user message. |
| Conversation.MockPrecedence | auramind-main/src/lib/gemini.ts:189-223 | The follow-up reply comes first, then schedule/calendar, reminder, how are you/hello, feature and finally the fallback. Each applies exactly when every earlier check failed. |
| Conversation.NoHistoryNoFollowUp | auramind-main/src/lib/gemini.ts:190-198 | An empty history never gives the follow-up reply. |
| Conversation.FallbackQuotesPrompt | auramind-main/src/lib/gemini.ts:223 | The fallback reply begins with its head, which holds the prompt as given, not lower-cased. |
| Conversation.FallbackHeadQuotes | auramind-main/src/lib/gemini.ts:223 | The head is the fixed opening followed by the prompt in double quotes. |
| Conversation.Record | auramind-main/src/lib/gemini.ts:128-145 | The new message is last. At most ten messages are kept. The others are the most recent earlier ones, in order. |
| Conversation.GeminiAIManager.constructor | auramind-main/src/lib/gemini.ts:29-58 | The history starts empty and the read-only system prompt is the fixed text. |
| Conversation.GeminiAIManager.AddToHistory | auramind-main/src/lib/gemini.ts:128-145 | The history becomes the old one plus the message, bounded at ten. |
| Conversation.GeminiAIManager.BuildContextualPrompt | auramind-main/src/lib/gemini.ts:92-126 | The loop over the last five messages builds exactly `ContextualPrompt` of the manager's system prompt. |
| Conversation.GeminiAIManager.GenerateResponse | auramind-main/src/lib/gemini.ts:63-90 | In demo mode the mock reply is returned, nothing is sent, the history is untouched and the follow-up reply cannot fire. Otherwise the user message is recorded and the prompt built from it is sent. The answer is then recorded and returned. On failure the picked apology is returned and only the user message stays. |
| Conversation.GeminiAIManager.GetConversationHistory | auramind-main/src/lib/gemini.ts:167-169 | Returns a copy equal to the history, of at most ten messages. |
| Conversation.GeminiAIManager.ClearHistory | auramind-main/src/lib/gemini.ts:171-173 | The history becomes empty. |
| Conversation.GeminiAIManager.GetContextSummary | auramind-main/src/lib/gemini.ts:175-183 | An empty history gives the fixed text. Otherwise the summary starts with "Recent topics: ". |
| Conversation.DemoModeNeverFollowsUp | auramind-main/src/lib/gemini.ts:68-70 | In demo mode the history stays empty, so the history-dependent reply never fires. |
| DemoTasks.NewDemoTask | auramind-main/src/components/TaskManager.tsx:97-105 | The new task has medium priority, the current energy level, 30 minutes and the "Personal" category. It is not completed and has no delegate. |
| DemoTasks.AddTask | auramind-main/src/components/TaskManager.tsx:96-107 | Exactly one task is appended. The earlier tasks are unchanged and keep their order. |
| DemoTasks.DeleteTaskProperties | auramind-main/src/components/TaskManager.tsx:109-111 | Every task with the id is removed. Every other task keeps its multiplicity, and their order is kept. |
| DemoTasks.DeleteAbsent | auramind-main/src/components/TaskManager.tsx:109-111 | Deleting an id no task has changes nothing. |
| DemoTasks.ToggleTaskCompletion | auramind-main/src/components/TaskManager.tsx:113-117 | Only matching tasks change, and only their `completed` flag, which is flipped. |
| DemoTasks.ToggleTwice | auramind-main/src/components/TaskManager.tsx:113-117 | Toggling twice restores the list. |
| DemoTasks.SetTaskPriority | auramind-main/src/components/TaskManager.tsx:119-123 | Only matching tasks change, and only their priority. |
| DemoTasks.SetPriorityLastWins | auramind-main/src/components/TaskManager.tsx:119-123 | Setting a priority twice leaves the second one. |
| DemoTasks.OptimalTasksEligible | auramind-main/src/components/TaskManager.tsx:125-135 | The view is a permutation of the eligible tasks. None is completed. Under focus mode all are high priority. At low energy none needs high energy. |
| DemoTasks.OptimalTasksComplete | auramind-main/src/components/TaskManager.tsx:125-130 | Every eligible task is in the view. |
| DemoTasks.OptimalTasksGroups | auramind-main/src/components/TaskManager.tsx:130-134 | The view is the eligible high-priority tasks in list order, followed by the other eligible tasks in list order. |
| DemoTasks.OptimalTasksHighFirst | auramind-main/src/components/TaskManager.tsx:130-134 | Every high-priority task comes before every other one. |

## Left out

- **Network requests.** The calendar providers' HTTP requests and OAuth are left out.
  `ConnectGoogleCalendar` and `ConnectOutlookCalendar` take the outcome of the request
  as a parameter. The language-model call is left out too. `GenerateResponse` takes
  its outcome, the answer text or a failure, as a parameter.
- **`generateKeyPoints`.** It asks the language model for discussion points, and its
  `getTimeContext` only feeds that request. `GenerateMeetingPreparation` takes the key
  points as a parameter. `DefaultKeyPoints` models the fallback list.
- **`findOptimalMeetingTime`.** It is a stub that always returns an empty list.
- **Persistence.** `saveToStorage`/`loadFromStorage` write and read browser storage.
  Reloading does not give back equal tasks, because dates come back as strings.
- **Timers and browser events.**
  - `setTimeout` and `window.dispatchEvent` are I/O.
  - `CreateReminder` and `SnoozeReminder` return the delay of the timer they arm.
  - `TriggerReminder` returns the reminder it dispatches.
  - `CreateTask` returns the suggestion that `suggestScheduling` dispatches.
- **SnoozeReminder: the old timer is not modelled.** The code does not cancel the
  timer armed earlier, so the original trigger time still fires. The model returns
  only the new timer.
- **Clock, randomness and ids.**
  - The current time, the local hour and the UTC offset are parameters.
  - `generateId` draws from `Math.random`, so ids are parameters.
  - The demo task id, `Date.now().toString()`, is a parameter too.
  - `getErrorResponse`'s random pick of the three apologies is the `errorPick`
    parameter.
- **Time zones.**
  - Local time is a fixed offset from UTC, so daylight-saving changes are not modelled.
  - The plan key `toISOString().split('T')[0]` is the UTC day number. It is
    one-to-one with the key string.
  - Invalid dates (`NaN`) are not modelled.
- **Floating point.**
  - Durations, effort and time spent are whole minutes (`int`), where JavaScript's
    `number` also allows fractional minutes.
  - The buffer time and the efficiency ratios are exact reals.
  - An actual time of 0 gives efficiency 0 in the model. JavaScript gives `Infinity`
    or `NaN`.
  - The peak-hour ranking is therefore exact where JavaScript would round.
- **Text.**
  - `toLowerCase` folds only ASCII letters.
  - `substring` counts characters, where JavaScript counts UTF-16 code units.
- **Concurrent replies.** `generateResponse` records the assistant message after
  awaiting the model, so two calls in flight can interleave their history pushes.
  `GenerateResponse` runs one call at a time, from the user message to the answer.
- **getUpcomingEvents' default and fractional hours.** The default `hoursAhead = 24`
  is not modelled; `GetUpcomingEvents` takes the hours as a whole number.
- **GetUserProfile: the copy is shallow.** `{ ...this.userProfile }` shares the
  completion-history array with the stored profile, so a caller that mutates it changes
  the stored history. The model returns the profile as a value.
- **CreateReminder: shared reminder arrays.** `{ ...task }` shares the reminders array,
  so the push at taskManager.ts:340 also reaches every earlier reference to the task
  object. The model stores the new task value and does not model aliases.
- **`updateDailyPlan`.** Its body does nothing beyond saving to storage, so
  `ScheduleTask` leaves the cached plans unchanged.
- **`getMockResponse`.** The module-level function outside the class is never called
  by the class and is not part of this model.
- **Rendering.** The dashboard component's rendering, styling and animation are left
  out; only its list handlers and the optimal-tasks view are modelled.
