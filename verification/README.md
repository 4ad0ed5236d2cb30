# Work-session timers and task date rules

A model of the two pieces of business logic in the time-tracking admin panel.

- The **work-session form timers** are `start`, `end`, `duration` (in minutes), `is_running` and the read-only `time` text. After one field is edited, `formSetTimers` makes them agree again. The `is_running` toggle clears the timer or finishes it. `clone` and `cloneCollection` copy stored sessions onto today's date.
- The **task date rules**:
  - the saving hook stamps `actual_start` / `actual_end` when the status changes;
  - `postpone` moves one date field forward, with a catch-up rule for overdue planned ends and due dates.

Timestamps are integer seconds. Durations are integer minutes. Task dates are integer day numbers. The clock (`now`, `today`), the status table (`Status::find`) and the two company settings are passed in as parameters. Timezones are not modelled, so a day is always 86400 seconds.

Files:
- `options.dfy`: the Option type.
- `clock.dfy`: the minute and day arithmetic.
- `work_session_form.dfy`: class `SessionForm`, proved against the `Reconciled` and `Toggled` functions.
- `work_session_clone.dfy`: class `WorkSession` with `Clone` and `CloneCollection`, proved against `Cloned` and `ClonedAll`.
- `tasks.dfy`: class `Task` with `SetStartEndDates`, `Save` and `Postpone`, proved against `Stamped`, `Saved` and `Postponed`.

Three behaviours of the code are easy to misread:
- `is_running` is set to `duration == 0` after a reconcile. It is not set to "`end` is empty", and a zero-length finished session reads as running.
- The clone copies `duration` unchanged. It is not recomputed from the re-anchored `start` and `end`.
- `postpone` on an empty field does nothing. The "null field advances from today" branch inside it is never reached.

## Model

| member | source | states |
|---|---|---|
| Clock.MinutesBetween | app/Filament/App/Resources/WorkSessionResource.php:536 | for `end` ≥ `start` the result is the whole number of minutes from start to end, rounded down; for `end` ≤ `start` it is minus the whole minutes back |
| Clock.MinutesBetweenWhole | app/Filament/App/Resources/WorkSessionResource.php:532-536 | adding n minutes to a start and measuring the difference gives n back |
| Clock.MinuteStart | app/Filament/App/Resources/WorkSessionResource.php:333 | formatting now to minute precision gives the minute boundary at or just before now |
| Clock.AtDay | app/Filament/App/Resources/WorkSessionResource.php:501-507 | setting today's date to a timestamp's hour, minute and second lands on day `today` at the same time of day |
| Clock.AtDayKeepsElapsed | app/Filament/App/Resources/WorkSessionResource.php:501-514 | two instants of one day re-anchored to another day stay the same distance apart |
| WorkSessionForm.IsIdle | app/Filament/App/Resources/WorkSessionResource.php:526 | the guard of the reconciler: `end` is empty and `duration` is 0 |
| WorkSessionForm.Reconciled | app/Filament/App/Resources/WorkSessionResource.php:520-543 | nothing changes when `end` is empty and `duration` is 0; otherwise `start` is kept, `end` is set, `time` formats the new duration and `is_running` equals `duration == 0`; the duration path sets `end` to start + duration minutes and keeps a non-negative duration; the end path keeps `end` (an empty one becomes now) and, for end ≥ start, sets duration to the floor of the elapsed minutes |
| WorkSessionForm.Toggled | app/Filament/App/Resources/WorkSessionResource.php:328-336 | switching to running clears `end`, zeroes `duration` and leaves `time`; switching to finished sets `end` to now at minute precision and the end-path reconcile then sets duration to the floored minutes from start and `is_running` to `duration == 0` |
| WorkSessionForm.ReconcileIdempotent | app/Filament/App/Resources/WorkSessionResource.php:532-542 | reconciling twice on the same path gives the same form as reconciling once |
| WorkSessionForm.EndPathAfterDurationPath | app/Filament/App/Resources/WorkSessionResource.php:532-542 | after the duration path, `end` − `start` is exactly `duration` minutes and a following end-path reconcile changes nothing |
| WorkSessionForm.RunningIsIdle | app/Filament/App/Resources/WorkSessionResource.php:329-331 | switching to running leaves a form that any later reconcile leaves alone |
| WorkSessionForm.FinishInStartMinuteStaysRunning | app/Filament/App/Resources/WorkSessionResource.php:332-334 | finishing in the same minute as `start` gives duration 0, so `is_running` flips back to true |
| WorkSessionForm.RestartThenFinish | app/Filament/App/Resources/WorkSessionResource.php:328-336 | finishing a session just switched back to running gives the same form as finishing it directly |
| WorkSessionForm.SessionForm.constructor | app/Filament/App/Resources/WorkSessionResource.php:256-327 | a new form starts now, with no end, duration 0 and `is_running` true |
| WorkSessionForm.SessionForm.SetTimers | app/Filament/App/Resources/WorkSessionResource.php:520-543 | the fields written one after another equal `Reconciled` of the old form |
| WorkSessionForm.SessionForm.ToggleRunning | app/Filament/App/Resources/WorkSessionResource.php:328-336 | the toggle's new state followed by the callback equals `Toggled` of the old form |
| WorkSessionClone.WorkSession.Replicate | app/Filament/App/Resources/WorkSessionResource.php:500 | a new record with every field of the original |
| WorkSessionClone.Cloned | app/Filament/App/Resources/WorkSessionResource.php:498-514 | the clone's start and end fall on today at the original start's and end's time of day; duration, is_running and all other fields are copied |
| WorkSessionClone.ClonedAll | app/Filament/App/Resources/WorkSessionResource.php:493-496 | one clone per selected record, in order, each cloned from its own record alone, up to the first record without an end; that one and the records after it are not cloned |
| WorkSessionClone.ClonedAllAppend | app/Filament/App/Resources/WorkSessionResource.php:493-496 | cloning a selection in two parts, the first with every end set, gives the clones of the whole selection |
| WorkSessionClone.ClonedAllStopsAtRunning | app/Filament/App/Resources/WorkSessionResource.php:493-496 | records after a session without an end are never cloned |
| WorkSessionClone.ClonedAllLength | app/Filament/App/Resources/WorkSessionResource.php:493-496 | the number of clones is the number of records before the first one without an end |
| WorkSessionClone.CloneKeepsSameDayLength | app/Filament/App/Resources/WorkSessionResource.php:501-514 | a session that starts and ends on one day keeps its length when cloned |
| WorkSessionClone.CloneAcrossMidnightEndsBeforeStart | app/Filament/App/Resources/WorkSessionResource.php:501-514 | a session whose end's time of day is before its start's is cloned with its end before its start |
| WorkSessionClone.Clone | app/Filament/App/Resources/WorkSessionResource.php:498-518 | no copy exactly when the record has no end (reading its time throws before the save); otherwise a fresh record equal to `Cloned` of the original; the original is not changed |
| WorkSessionClone.CloneCollection | app/Filament/App/Resources/WorkSessionResource.php:493-496 | fresh clones whose fields equal `ClonedAll` of the records' fields; the batch fails exactly when it stopped before the last record, and the clones made before the failure stay |
| Tasks.Find | app/Models/Task.php:106-108 | a phase is found exactly when the status id exists, and it is that status's phase |
| Tasks.Add | app/Models/Task.php:178-183 | adding a non-negative interval never moves a date back; a positive one moves it forward |
| Tasks.AddIncreasing | app/Models/Task.php:176-183 | adding an interval is strictly increasing in the date it is added to |
| Tasks.StatusDirty | app/Models/Task.php:65 | `isDirty('status_id')`: the status differs from the one last persisted, or the task was never saved |
| Tasks.Task.StatusIsDirty | app/Models/Task.php:65 | the same test, `StatusDirty`, on the task's current fields |
| Tasks.Stamped | app/Models/Task.php:101-123 | only `actual_start`/`actual_end` can change and at most one of them; `actual_start` changes exactly when the phase is IN_PROGRESS, the fill-start setting is on and it is empty, and it becomes today; likewise `actual_end` for CLOSED and the fill-end setting |
| Tasks.StampNeverOverwrites | app/Models/Task.php:109-121 | an actual date that is already set is never overwritten |
| Tasks.StampQuiet | app/Models/Task.php:106-122 | a missing status, a TODO phase or a matching setting that is off leaves every date unchanged |
| Tasks.StampIdempotent | app/Models/Task.php:101-123 | stamping a second time, even on a later day, changes nothing |
| Tasks.Saved | app/Models/Task.php:64-68 | the stamper runs on save only when `status_id` differs from the persisted one; afterwards the status is persisted |
| Tasks.SaveTwice | app/Models/Task.php:64-68 | a second save without a status change, even on a later day, changes nothing |
| Tasks.Postponed | app/Models/Task.php:169-187 | an empty field is left alone; only the named field changes; 'today' sets it to today; a planned end or due date on or before today becomes today + interval, a later one field + interval; any other field becomes today + interval when `fromNow` is set, else field + interval |
| Tasks.PostponeCatchesUp | app/Models/Task.php:176-181 | a postponed planned end or due date is never earlier than today + interval, so a positive interval leaves it after today |
| Tasks.Task.SetStartEndDates | app/Models/Task.php:101-123 | the task's dates become `Stamped` by the phase of its current status; nothing else changes |
| Tasks.Task.Save | app/Models/Task.php:64-68 | the task becomes `Saved` of its old state |
| Tasks.Task.SetDate | app/Models/Task.php:173-186 | the dynamic write `$this->{$field}` changes the named date field and nothing else |
| Tasks.Task.Postpone | app/Models/Task.php:169-190 | an empty field leaves the task unchanged and unsaved; otherwise the task is the save of the old state with `Postponed` dates; `fromNow` defaults to true |

## Left out

- Timezones and Carbon's parsing and formatting are not modelled. A timestamp is seconds, a date is a day number, and the user timezone is the stored one. The clone mixes the stored time of day with today in the user timezone; the model does not.
- Clock.MinutesBetween: when `end` is before `start`, it follows Carbon 3 (a signed difference, cast to int toward zero). Carbon 2 returns the absolute value. Because of this, the reconcile properties are stated only for end ≥ start and for a non-negative duration.
- WorkSessionForm.Reconciled: the duration-path promise that the duration comes back unchanged is stated only for a non-negative duration. For a negative one the answer depends on the Carbon version.
- An empty `start` in the form, which Carbon would parse as now, is not modelled. The field is required and defaults to now.
- `PejotaHelper::formatDuration` is not part of this model. The `time` text is kept as the number of minutes it formats.
- A clone of a session without an `end` reads a property of null. That warning is turned into an exception, so nothing is saved and the exception reaches the caller. The model returns no copy (`Clone`) or sets `failed` (`CloneCollection`). It does not model the exception itself or the error page.
- `save()`, `replicate()` and `Status::find` are persistence. They appear only as their effect on the fields. Persistence failures, the new record's id and the redirect after a clone are not modelled.
- `WorkSession::finish()` is not part of this model. It is called from the table's toggle column and from the finish action.
- The Filament table, filter, infolist, navigation and label configuration is declarative UI with no behaviour to verify.
- The task query scopes (`scopeByProject`, `scopeOpened`, `scopeClosed`) and relationships build database queries. Activity log, tags and comments are framework traits.
- Calendar intervals such as "1 month" or "-1 week" are modelled as a whole number of days, possibly negative. The model does not capture month lengths or interval strings that Carbon cannot parse.
- In `postpone`, `startOfDay()` changes the current time in place. With day-granular dates this has no effect.
- The company settings lookup (`auth()->user()->company->settings()`) is two boolean parameters. A status phase is one of TODO, IN_PROGRESS and CLOSED.
