# Time tracking for freelancers: a verified model of the timer, the codecs and the aggregations

This project models the sequential logic of a time-tracking application in Dafny. The application has a React client and a Go (gin + GORM) backend. The model covers four groups.

- **The timer.** This is the shared timer provider (`TimerProvider`), the timer card (`Timer`) and the older per-project hook (`useTimer`). Each becomes a class whose fields are the component's state cells. Each event handler becomes a method. A method is proved against a pure transition function on a state datatype (`Session`, `HookState`), and the properties are lemmas about those functions. The clock is an integer millisecond count. It is passed to every operation that reads `new Date()`. The `await` on the create request splits `stopTimer` in two:
  - `StopTimer` returns the request it sends.
  - `OnStopSettled(saved)` runs once that write has succeeded or failed.
- **Durations and the wire codecs.** This covers the client's duration arithmetic (`Math.floor((end - start) / 1000)`). It also covers the server's recomputation from whole Unix seconds, which overrides any client value. The client's request encoders and response decoders for time entries, tasks and projects are included. Go's JSON binding is modelled where the round trips depend on it:
  - a null value leaves the zero value;
  - a negative number does not bind to a `uint`;
  - a missing `time.Time` becomes the zero time.

  The time-entry handlers act on a table of stored rows.
- **The task and time-entry forms.** This covers the tag field's parser (`split(',')`, `trim`, `filter(Boolean)`) and its printer (`join(', ')`). It also covers the defaults, the status options with their labels, and the choice between create and update.
- **Aggregation.** There are five analytics handlers. Each adds the durations of the selected entries into buckets keyed by a formatted start time. The invoice handler adds the durations of a project's entries between two dates.

JavaScript's truthiness, `parseInt`, `trim`, `split`, `join`, `toString` on ids and NaN (serialised as `null`) are written out in module `JsValues`. The client's `||` defaults, and the ids carried as strings by the select widgets, hinge on them.

Four places where the code does something its callers would not expect; the model follows the code:

- **`resetTimer` leaves `isRunning` alone**, so it does not return the timer to its state on mount. `stopTimer` clears `isRunning` before awaiting the write. Suppose a new session is started while that write is pending. When the write then succeeds, `resetTimer` clears the new session's start time and selection but leaves it running. Such a timer can neither tick nor be stopped again (`TimerContext.RestartDuringStopBreaksCoherence`).
- **The beforeunload listener reads stale state.** It is registered again only when `isRunning` changes, so it calls a `stopTimer` that reads the state of the render where the session started. It therefore sends the elapsed count of that render. The server recomputes the duration from the two times anyway, so the stored entry is the one a normal stop stores (`TimerContext.UnloadStoresSameEntry`).
- **`UpdateTimeEntry` saves a fresh row.** It never reads the path's id, and the client's body carries no `ID`. The entry is saved with a zero key, which GORM's `Save` inserts as a new row.
- **`GetTimeEntries` ignores `project_id`.** It accepts that query parameter but filters by owner only.

Things the model takes as parameters:

- the clock readings;
- the lower bounds `time.Now().AddDate(...)` of the analytics windows;
- ISO formatting (`toIso`) and parsing (`parseDate` on the client, `parseTime` on the server);
- Go's `Format` layouts, as key functions of the start time;
- the outcome of each database call or awaited write (`queryOk`, `dbOk`, `saved`).

## Model

| member | source | states |
|---|---|---|
| TimerContext.Start | client/src/contexts/TimerContext.tsx:49-54 | starting always runs from `now` with the given project and task, whatever the state before, including a running session; the elapsed count is kept until the first tick |
| TimerContext.Tick | client/src/contexts/TimerContext.tsx:37-40 | only a running session with a start time changes, and only its elapsed count, which becomes the whole seconds since the start, rounded down |
| TimerContext.BeginStop | client/src/contexts/TimerContext.tsx:57-59 | without a truthy project, a truthy task and a start time, stopping changes nothing; otherwise only `isRunning` becomes false |
| TimerContext.StopWrite | client/src/contexts/TimerContext.tsx:62-68 | the entry a stop sends always names a task |
| TimerContext.Reset | client/src/contexts/TimerContext.tsx:73-78 | reset clears the start time, the elapsed count and both selections, and keeps `isRunning` |
| TimerContext.Settle | client/src/contexts/TimerContext.tsx:62-70 | a successful write resets; a failed one leaves the state as the stop left it |
| TimerContext.Relisten | client/src/contexts/TimerContext.tsx:81-92 | the listener's captured state is renewed exactly when `isRunning` changes |
| TimerContext.Unload | client/src/contexts/TimerContext.tsx:82-86 | the unload handler stops and writes only when the state it captured is running and stoppable, and then writes the entry from the captured state |
| TimerContext.InitialIsCoherent | client/src/contexts/TimerContext.tsx:20-24 | the state on mount keeps the invariant "running implies stoppable" and cannot be stopped |
| TimerContext.CoherentPreserved | client/src/contexts/TimerContext.tsx:35-78 | start with non-empty ids, ticks, and a stop together with its outcome all preserve "running implies stoppable" |
| TimerContext.RestartDuringStopBreaksCoherence | client/src/contexts/TimerContext.tsx:56-78 | a start while a stop's write is pending, followed by the write's success, leaves a running timer with no start time that neither ticks nor stops |
| TimerContext.StopCycleReturnsToInitial | client/src/contexts/TimerContext.tsx:49-78 | start, tick and a successful stop return the provider to its state on mount |
| TimerContext.StopWritesSelectedEntry | client/src/contexts/TimerContext.tsx:62-68 | the written entry runs from the start to the stop, lasts the seconds counted at the last tick, and names the selected project and task as numbers |
| TimerContext.FailedStopCanBeRetried | client/src/contexts/TimerContext.tsx:62-70 | after a failed write the selection, start time and elapsed count are kept, and a second stop sends the same entry |
| TimerContext.TickIsMonotone | client/src/contexts/TimerContext.tsx:38-40 | the elapsed count never decreases as the clock advances |
| TimerContext.UnloadStoresSameEntry | client/src/contexts/TimerContext.tsx:81-92 | closing the page sends the stop's entry with a stale duration, and the server stores the same record for both |
| TimerContext.TimerProvider.constructor | client/src/contexts/TimerContext.tsx:20-24 | the provider mounts stopped, with no start time, no elapsed time and no selection |
| TimerContext.TimerProvider.SetState | client/src/contexts/TimerContext.tsx:20-24 | replacing the five state cells touches neither the listener nor the pending writes |
| TimerContext.TimerProvider.OnInterval | client/src/contexts/TimerContext.tsx:35-47 | the interval callback performs `Tick` on the live state |
| TimerContext.TimerProvider.StartTimer | client/src/contexts/TimerContext.tsx:49-54 | `startTimer` performs `Start`, and the listener is renewed when `isRunning` changed |
| TimerContext.TimerProvider.StopTimer | client/src/contexts/TimerContext.tsx:56-69 | `stopTimer` sends exactly one write, `StopWrite` of the state before, when the guard passes and none otherwise, and the state becomes `BeginStop` of the old one |
| TimerContext.TimerProvider.OnStopSettled | client/src/contexts/TimerContext.tsx:62-70 | one pending write settles, and the state becomes `Settle` of the old one |
| TimerContext.TimerProvider.ResetTimer | client/src/contexts/TimerContext.tsx:73-78 | `resetTimer` performs `Reset` |
| TimerContext.TimerProvider.OnBeforeUnload | client/src/contexts/TimerContext.tsx:81-92 | the unload handler performs `Unload` on the listener's captured state and writes only if the live timer was running |
| TimerWidget.InitialLocal | client/src/features/time-entries/Timer.tsx:28-33 | the prop comes first (as a string), then a truthy context selection, else none |
| TimerWidget.ApplyDefault | client/src/features/time-entries/Timer.tsx:56-59 | a truthy prop replaces the local choice; otherwise it stays |
| TimerWidget.SelectedIdsEnable | client/src/features/time-entries/Timer.tsx:116 | chosen options, being decimal ids, always enable the button |
| TimerWidget.MountEffectKeepsInitial | client/src/features/time-entries/Timer.tsx:56-59 | the effect after mount does not change the initial choice |
| TimerWidget.RemountShowsRunningSelection | client/src/features/time-entries/Timer.tsx:28-33 | a card mounted without props during a running session shows that session's choice with the button enabled |
| TimerWidget.EnabledStartIsStoppable | client/src/features/time-entries/Timer.tsx:51-54 | a start from an enabled button gives a session that can be stopped |
| TimerWidget.Timer.constructor | client/src/features/time-entries/Timer.tsx:28-33 | the card's local ids start as `InitialLocal` of the props and the context selection |
| TimerWidget.Timer.ApplyDefaults | client/src/features/time-entries/Timer.tsx:56-59 | the effect applies `ApplyDefault` to both local ids |
| TimerWidget.Timer.HandleProjectChange | client/src/features/time-entries/Timer.tsx:46-49 | changing the project always clears the task, so the button is disabled |
| TimerWidget.Timer.HandleTaskChange | client/src/features/time-entries/Timer.tsx:89-94 | choosing a task changes only the task |
| TimerWidget.Timer.HandleStart | client/src/features/time-entries/Timer.tsx:51-54 | the shared timer starts with the local choice exactly when both ids are truthy, and is untouched otherwise |
| TimerWidget.Timer.Click | client/src/features/time-entries/Timer.tsx:114-116 | a running timer is stopped and a stopped one started, so no start reaches a running timer; after a start the session is stoppable and shows the card's choice |
| UseTimer.Start | client/src/hooks/useTimer.ts:32-36 | with a falsy project id nothing happens; otherwise the hook runs from `now` |
| UseTimer.Tick | client/src/hooks/useTimer.ts:18-30 | only a running hook with a start time changes, and only its elapsed count, which becomes whole seconds since the start, rounded down |
| UseTimer.StopWrite | client/src/hooks/useTimer.ts:44-49 | the hook's entry has no task and carries the hook's project |
| UseTimer.BeginStop | client/src/hooks/useTimer.ts:39-40 | without a truthy project or a start time, stopping changes nothing; otherwise only `isRunning` becomes false |
| UseTimer.Settle | client/src/hooks/useTimer.ts:44-52 | success clears the start time and the elapsed count; failure keeps them |
| UseTimer.NoProjectNeverWrites | client/src/hooks/useTimer.ts:33 | without a truthy project the hook can neither start nor stop |
| UseTimer.StopCycle | client/src/hooks/useTimer.ts:32-53 | start, tick and a successful stop write an entry from start to stop lasting the counted seconds, and return the hook to its initial state |
| UseTimer.FailedStopCanBeRetried | client/src/hooks/useTimer.ts:38-53 | after a failed write the hook is stopped but its guard still passes, so a second stop writes again |
| UseTimer.EntryHasNoTask | client/src/hooks/useTimer.ts:44-49 | the hook's entry goes out with `task_id: null`, is stored with task 0, and comes back with no task |
| UseTimer.ProjectTimer.constructor | client/src/hooks/useTimer.ts:5-8 | the hook starts stopped with no start time and no elapsed time |
| UseTimer.ProjectTimer.OnInterval | client/src/hooks/useTimer.ts:18-30 | the interval callback performs `Tick` |
| UseTimer.ProjectTimer.StartTimer | client/src/hooks/useTimer.ts:32-36 | `start` performs `Start` |
| UseTimer.ProjectTimer.Stop | client/src/hooks/useTimer.ts:38-49 | `stop` sends `StopWrite` of the state before exactly when the guard passes, and the state becomes `BeginStop` of the old one |
| UseTimer.ProjectTimer.OnStopSettled | client/src/hooks/useTimer.ts:51-52 | one pending write settles, and the state becomes `Settle` of the old one |
| TimeEntryHandler.Bind | backend/internal/handlers/time_entry_handler.go:14-18 | a body binds exactly when both times parse and the numbers fit their Go types; the bound entry has no id and no owner |
| TimeEntryHandler.ServerDuration | backend/internal/handlers/time_entry_handler.go:21 | the stored duration is negative when the end's Unix second precedes the start's, and zero exactly when they coincide |
| TimeEntryHandler.ServerDurationVsClient | backend/internal/handlers/time_entry_handler.go:21 | the server's duration is the client's floor of the millisecond difference or one more, and equal when the start is on a whole second |
| TimeEntryHandler.Stamp | backend/internal/handlers/time_entry_handler.go:20-21 | before saving, the owner becomes the authenticated user and the duration is recomputed; nothing else changes |
| TimeEntryHandler.StampIgnoresClientFields | backend/internal/handlers/time_entry_handler.go:50-51 | the duration and the owner the client sent never reach the saved record |
| TimeEntryHandler.OwnedBy | backend/internal/handlers/time_entry_handler.go:35 | the listing holds exactly the caller's entries |
| TimeEntryHandler.Without | backend/internal/handlers/time_entry_handler.go:65 | a delete removes exactly the rows with that id and owner |
| TimeEntryHandler.DeleteIsScoped | backend/internal/handlers/time_entry_handler.go:65 | a delete leaves every other user's entries as they were |
| TimeEntryHandler.Marshal | backend/internal/models/models.go:34 | the server always sends `task_id` as a number, never null |
| TimeEntryHandler.CreateRoundTrip | backend/internal/handlers/time_entry_handler.go:13-28 | from `create`'s input through the server to the decoded answer, a time entry gets the server's duration and owner, a truthy task survives and any other task comes back absent |
| TimeEntryHandler.NegativeTaskIsRefused | backend/internal/handlers/time_entry_handler.go:15-18 | a negative task id does not bind to the unsigned field, and the request is refused |
| TimeEntryHandler.TimeEntryTable.constructor | backend/internal/models/models.go:28-36 | the table starts empty |
| TimeEntryHandler.TimeEntryTable.Insert | backend/internal/models/models.go:28-36 | a row is appended under the next key |
| TimeEntryHandler.TimeEntryTable.CreateTimeEntry | backend/internal/handlers/time_entry_handler.go:13-29 | a body that does not bind is a 400 and a database failure a 500, both storing nothing; otherwise the stamped entry is stored and returned (201) |
| TimeEntryHandler.TimeEntryTable.UpdateTimeEntry | backend/internal/handlers/time_entry_handler.go:43-59 | the same binding errors and stamping as create; the stamped entry is saved under a new key |
| TimeEntryHandler.TimeEntryTable.GetTimeEntries | backend/internal/handlers/time_entry_handler.go:31-41 | the caller's entries, whatever the project parameter, or a 500 |
| TimeEntryHandler.TimeEntryTable.DeleteTimeEntry | backend/internal/handlers/time_entry_handler.go:61-71 | the matching rows are removed and the answer is 204 whether or not anything matched; on a failure the table is unchanged |
| TimeEntriesApi.TransformResponse | client/src/api/time-entries.ts:18-26 | every field is renamed unchanged, except that a null or zero `task_id` becomes an absent task |
| TimeEntriesApi.EncodeBody | client/src/api/time-entries.ts:36-42 | the body carries the five fields; NaN is sent as null; `task_id` is the task exactly when it is truthy |
| TimeEntriesApi.GetAllRequest | client/src/api/time-entries.ts:29-31 | `project_id` is sent exactly when the project id is truthy |
| TimeEntriesApi.DecodeAll | client/src/api/time-entries.ts:32 | the decoded list has the same length and order as the response |
| TimeEntriesApi.CreateRequest | client/src/api/time-entries.ts:35-44 | `create` posts the encoded body to `/time-entries` |
| TimeEntriesApi.UpdateRequest | client/src/api/time-entries.ts:46-55 | `update` puts to the entry's path the very body `create` would post |
| TimeEntriesApi.DeleteRequest | client/src/api/time-entries.ts:57-59 | `delete` targets the entry's path |
| TasksApi.TransformResponse | client/src/api/tasks.ts:18-26 | fields are renamed unchanged; tags that are not an array become `[]` |
| TasksApi.EncodeBody | client/src/api/tasks.ts:40-52 | tags are forced to an array and `project_id` comes from `projectId` |
| TasksApi.GetAllRequest | client/src/api/tasks.ts:29-31 | `project_id` is sent exactly when the project id is truthy |
| TasksApi.DecodeAll | client/src/api/tasks.ts:32 | the decoded list has the same length and order as the response |
| TasksApi.GetByIdRequest | client/src/api/tasks.ts:35-38 | `getById` targets the task's path, with no parameter |
| TasksApi.CreateRequest | client/src/api/tasks.ts:40-52 | `create` posts the encoded body to `/tasks` |
| TasksApi.UpdateRequest | client/src/api/tasks.ts:54-66 | `update` puts to the task's path the very body `create` would post |
| TasksApi.DeleteRequest | client/src/api/tasks.ts:68-70 | `delete` targets the task's path |
| TasksApi.CreatedTask | backend/internal/handlers/task_handler.go:31-45 | the create handler answers exactly when `project_id` binds to an unsigned id |
| TasksApi.CreateRoundTrip | client/src/api/tasks.ts:40-52 | encoding, creating and decoding a task preserves title, description, status, tags (if given as an array, else `[]`) and project id |
| ProjectsApi.TransformResponse | client/src/api/projects.ts:25-31 | the fields are renamed unchanged |
| ProjectsApi.EncodeBody | client/src/api/projects.ts:45-49 | the body carries name, description and hourly rate unchanged |
| ProjectsApi.EncodeIgnoresIdAndOwner | client/src/api/projects.ts:45-49 | no id or owner the caller passes is ever sent |
| ProjectsApi.GetAllRequest | client/src/api/projects.ts:34-37 | `getAll` sends no parameter |
| ProjectsApi.DecodeAll | client/src/api/projects.ts:36 | the decoded list has the same length and order as the response |
| ProjectsApi.GetByIdRequest | client/src/api/projects.ts:39-42 | `getById` targets the project's path |
| ProjectsApi.CreateRequest | client/src/api/projects.ts:44-51 | `create` posts the encoded body to `/projects` |
| ProjectsApi.UpdateRequest | client/src/api/projects.ts:53-60 | `update` puts to the project's path the very body `create` would post |
| ProjectsApi.DeleteRequest | client/src/api/projects.ts:62-64 | `delete` targets the project's path |
| ProjectsApi.CreatedProject | backend/internal/handlers/project_handler.go:38-52 | the create handler answers with the new key and the caller as owner |
| ProjectsApi.CreateRoundTrip | client/src/api/projects.ts:44-51 | encoding, creating and decoding a project preserves name, description and hourly rate |
| TimeEntryForm.InitialFormData | client/src/components/forms/TimeEntryForm.tsx:31-35 | each default is used when truthy, else project 0 and empty times |
| TimeEntryForm.EmptyDefaults | client/src/components/forms/TimeEntryForm.tsx:31-35 | with no defaults the form holds project 0 and two empty times |
| TimeEntryForm.CalculateDuration | client/src/components/forms/TimeEntryForm.tsx:60-64 | the duration is NaN exactly when a date does not parse, and otherwise is the millisecond difference over 1000, rounded down |
| TimeEntryForm.NegativeDuration | client/src/components/forms/TimeEntryForm.tsx:63 | an end before the start gives a negative duration, rounded towards minus infinity (1.5 s backwards is -2) |
| TimeEntryForm.Payload | client/src/components/forms/TimeEntryForm.tsx:44-47 | the payload is the form data unchanged plus the computed duration |
| TimeEntryForm.SubmitRequest | client/src/components/forms/TimeEntryForm.tsx:49-52 | an update is sent exactly when editing with a truthy entry id; otherwise a create |
| TimeEntryForm.ClientAndServerDurations | client/src/components/forms/TimeEntryForm.tsx:60-64 | the duration the server stores is the form's or one second more, and equal when the start is on a whole second |
| TimeEntryForm.EntryFormState.constructor | client/src/components/forms/TimeEntryForm.tsx:31-35 | the form starts at `InitialFormData` of its defaults |
| TimeEntryForm.EntryFormState.ChangeProject | client/src/components/forms/TimeEntryForm.tsx:82 | only the project changes, to `parseInt` of the chosen value |
| TimeEntryForm.EntryFormState.ChangeStartTime | client/src/components/forms/TimeEntryForm.tsx:101 | only the start time changes |
| TimeEntryForm.EntryFormState.ChangeEndTime | client/src/components/forms/TimeEntryForm.tsx:110 | only the end time changes |
| TimeEntryForm.EntryFormState.Submit | client/src/components/forms/TimeEntryForm.tsx:66-69 | submitting sends `SubmitRequest` of the current form data |
| TaskForm.FirstIndex | client/src/components/forms/TaskForm.tsx:128 | the index found has the character and none before it; none is found exactly when the character is absent |
| TaskForm.ReplaceFirst | client/src/components/forms/TaskForm.tsx:128 | `replace` with a one-character pattern changes only the first occurrence |
| TaskForm.LabelReplacesFirstUnderscore | client/src/components/forms/TaskForm.tsx:128 | the label replaces the first underscore by a space and keeps later ones |
| TaskForm.StatusLabels | client/src/components/forms/TaskForm.tsx:25-30 | the four options are shown as TODO, IN PROGRESS, COMPLETED and ON HOLD |
| TaskForm.NoUnderscore | client/src/components/forms/TaskForm.tsx:128 | a status without an underscore is shown unchanged |
| TaskForm.TrimAll | client/src/components/forms/TaskForm.tsx:72 | every piece is trimmed in place |
| TaskForm.DropEmptyMembers | client/src/components/forms/TaskForm.tsx:72 | `filter(Boolean)` keeps exactly the non-empty pieces |
| TaskForm.ParsedTagsWellFormed | client/src/components/forms/TaskForm.tsx:72 | every parsed tag is non-empty, has no surrounding whitespace and no comma |
| TaskForm.ParseDisplay | client/src/components/forms/TaskForm.tsx:137 | displaying well-formed tags with `join(', ')` and parsing the text gives the tags back |
| TaskForm.NormaliseIdempotent | client/src/components/forms/TaskForm.tsx:71-74 | parsing the displayed form of parsed tags changes nothing |
| TaskForm.TypedSeparatorIsUndone | client/src/components/forms/TaskForm.tsx:137 | a comma or a space typed at the end of the displayed tags is removed again, so the field shows the same text |
| TaskForm.StringOr | client/src/components/forms/TaskForm.tsx:42-44 | an empty string counts as missing and gives the fallback |
| TaskForm.InitialFormData | client/src/components/forms/TaskForm.tsx:40-46 | each default is used when truthy, else project 0, empty title and description, status TODO, and no tags; the status is never empty |
| TaskForm.EmptyDefaults | client/src/components/forms/TaskForm.tsx:40-46 | with no defaults the form holds 0, '', '', TODO and [] |
| TaskForm.ToInput | client/src/components/forms/TaskForm.tsx:68 | the mutation hands over the tags as an array and the chosen project |
| TaskForm.SubmitRequest | client/src/components/forms/TaskForm.tsx:55-58 | an update is sent exactly when editing with a truthy task id; otherwise a create |
| TaskForm.SelectedProjectIsParsedBack | client/src/components/forms/TaskForm.tsx:87 | choosing a project's option sets the form's project to that id |
| TaskForm.TaskFormState.constructor | client/src/components/forms/TaskForm.tsx:40-46 | the form starts at `InitialFormData` of its defaults |
| TaskForm.TaskFormState.ChangeProject | client/src/components/forms/TaskForm.tsx:87 | only the project changes, to `parseInt` of the chosen value |
| TaskForm.TaskFormState.ChangeTitle | client/src/components/forms/TaskForm.tsx:105 | only the title changes |
| TaskForm.TaskFormState.ChangeDescription | client/src/components/forms/TaskForm.tsx:113 | only the description changes |
| TaskForm.TaskFormState.ChangeStatus | client/src/components/forms/TaskForm.tsx:120 | only the status changes |
| TaskForm.TaskFormState.ChangeTags | client/src/components/forms/TaskForm.tsx:71-74 | a tag edit changes only the tags, to the parsed list, which is well formed |
| TaskForm.TaskFormState.Submit | client/src/components/forms/TaskForm.tsx:66-69 | submitting sends `SubmitRequest` of the current form data |
| Analytics.AddTo | backend/internal/handlers/analytics_handler.go:31 | `+=` on a Go map changes one key, reading a missing key as zero |
| Analytics.Aggregate | backend/internal/handlers/analytics_handler.go:28-32 | the bucket loop computes `SumByKey` of the entries |
| Analytics.WindowMembers | backend/internal/handlers/analytics_handler.go:90 | a window selects exactly the caller's entries at or after its bound, and the range window both ends included |
| Analytics.Analyze | backend/internal/handlers/analytics_handler.go:20-34 | a failed query answers 500 with no totals; otherwise the buckets of the selected entries |
| Analytics.GetDailyAnalytics | backend/internal/handlers/analytics_handler.go:14-35 | the last day's entries of the caller, bucketed by date, or the error |
| Analytics.GetWeeklyAnalytics | backend/internal/handlers/analytics_handler.go:37-58 | the last week's entries bucketed by weekday, at most seven buckets, or the error |
| Analytics.GetMonthlyAnalytics | backend/internal/handlers/analytics_handler.go:60-81 | the last month's entries bucketed by month name, at most twelve buckets, or the error |
| Analytics.GetRangeAnalytics | backend/internal/handlers/analytics_handler.go:83-105 | the entries between the two bounds, both included, bucketed by date, or the error |
| Analytics.GetYearlyAnalytics | backend/internal/handlers/analytics_handler.go:107-128 | the last year's entries bucketed by year, or the error |
| Analytics.OneBucketPerEntry | backend/internal/handlers/analytics_handler.go:29-32 | an entry adds its duration to exactly one bucket, the one of its key |
| Analytics.BucketIsKeyTotal | backend/internal/handlers/analytics_handler.go:28-34 | a key has a bucket exactly when some entry maps to it, and that bucket holds the durations of those entries |
| Analytics.NoEntriesNoBuckets | backend/internal/handlers/analytics_handler.go:28-34 | no entries give an empty map |
| Analytics.OrderIndependent | backend/internal/handlers/analytics_handler.go:29-32 | the buckets do not depend on the order of the entries |
| Analytics.Conservation | backend/internal/handlers/analytics_handler.go:28-32 | the buckets together hold the total duration of the selected entries |
| Analytics.KeysWithin | backend/internal/handlers/analytics_handler.go:53 | every bucket key is a value the key format can produce |
| Analytics.WeeklyBuckets | backend/internal/handlers/analytics_handler.go:53 | weekday keys give at most seven buckets |
| Analytics.MonthlyBuckets | backend/internal/handlers/analytics_handler.go:76 | month-name keys give at most twelve buckets |
| Analytics.HoursAreSecondsOver3600 | backend/internal/handlers/analytics_handler.go:31 | in exact arithmetic, adding hours entry by entry gives each bucket's seconds over 3600 |
| Invoice.BindTime | backend/internal/handlers/invoice_handler.go:16-17 | a missing time field binds to Go's zero time, and a present one must parse |
| Invoice.BindRequest | backend/internal/handlers/invoice_handler.go:22-25 | the body binds exactly when it is an object whose project id fits a `uint` and whose dates parse |
| Invoice.FindProject | backend/internal/handlers/invoice_handler.go:30 | the project found has the id and the caller as owner; none is found exactly when no such project exists |
| Invoice.SumSeconds | backend/internal/handlers/invoice_handler.go:47-50 | the loop computes the total duration of the entries |
| Invoice.GenerateInvoice | backend/internal/handlers/invoice_handler.go:20-66 | 400 on a bad body, then 404 for an unknown or unowned project, then 500 on a failed query; otherwise the project name and rate, the request dates, the selected entries and their total seconds, and an amount that is those entries' total seconds times the rate over 3600 (exact arithmetic) |
| Invoice.SelectedEntries | backend/internal/handlers/invoice_handler.go:36-39 | the selected entries are exactly the caller's entries on the project with a start time between the two dates, both included |
| Invoice.InvoiceAgreesWithAnalytics | backend/internal/handlers/invoice_handler.go:47-50 | the invoice's seconds equal the sum of the analytics buckets of the same entries |
| Invoice.MissingProjectIsNotFound | backend/internal/handlers/invoice_handler.go:29-33 | a missing `project_id` binds to 0, which names no stored project, so the answer is 404 |
| Invoice.MissingEndDateSelectsNothing | backend/internal/handlers/invoice_handler.go:36-39 | a missing `end_date` binds to the zero time, selects no entry, and the selection totals zero seconds |
| Models.BindUint | backend/internal/models/models.go:33-35 | null binds to 0, and a number binds exactly when it fits a `uint` |
| Models.BindInt64 | backend/internal/models/models.go:32 | null binds to 0, and a number binds exactly when it fits an `int64` |
| Models.Where | backend/internal/handlers/invoice_handler.go:36-39 | a query keeps exactly the rows satisfying its condition |
| JsValues.ElapsedSeconds | client/src/contexts/TimerContext.tsx:39 | `Math.floor` of a millisecond difference over 1000: the whole seconds n with n * 1000 <= difference < (n + 1) * 1000, shared by the timer, the hook and the entry form |
| JsValues.OrNull | client/src/api/time-entries.ts:41 | the `or null` default keeps exactly the truthy numbers |
| JsValues.ToJson | client/src/api/time-entries.ts:39-40 | a NaN number is serialised as null, an integer as itself |
| JsValues.TrimIsTrimmed | client/src/components/forms/TaskForm.tsx:72 | `trim` leaves no whitespace at either end |
| JsValues.Trim | client/src/components/forms/TaskForm.tsx:72 | `trim` returns the contiguous piece of its input that follows the leading whitespace |
| JsValues.TrimDropsLeadingSpace | client/src/components/forms/TaskForm.tsx:72 | what `trim` removes in front is whitespace |
| JsValues.TrimDropsTrailingSpace | client/src/components/forms/TaskForm.tsx:72 | what `trim` removes at the end is whitespace |
| JsValues.TrimOfTrimmed | client/src/components/forms/TaskForm.tsx:72 | trimming a trimmed string changes nothing |
| JsValues.Split | client/src/components/forms/TaskForm.tsx:72 | `split` gives at least one piece, and no piece holds the separator |
| JsValues.JoinSplit | client/src/components/forms/TaskForm.tsx:72 | joining the pieces with the separator gives the input back |
| JsValues.NatToString | client/src/features/time-entries/Timer.tsx:29 | an id is shown as a non-empty decimal numeral without a leading zero |
| JsValues.NatToStringInjective | client/src/features/time-entries/Timer.tsx:80 | distinct ids give distinct option values |
| JsValues.ParseIntOfNatToString | client/src/contexts/TimerContext.tsx:63-64 | `parseInt` of an id's string is that id |
| JsValues.ParseIntNaN | client/src/contexts/TimerContext.tsx:63-64 | `parseInt` of a string with no digit is NaN |

## Left out

- **Floating point.** Hours and amounts are `float64` or JavaScript numbers in the source and exact reals here. Rounding, `toFixed` and the float `+=` of the analytics buckets are not modelled; the buckets are proved in integer seconds and related to hours by `Analytics.HoursAreSecondsOver3600`.
- **Integer overflow.** The model does not capture `int64` wrap-around of the summed seconds (`Analytics.SumByKey`, `Invoice.SumSeconds`). JavaScript number precision above 2^53 in `parseInt` and elapsed counts is also not modelled.
- **Database semantics.** GORM is reduced to a list of rows in insertion order:
  - `Where` keeps that order;
  - `First` takes the first match;
  - `Save` with a zero key inserts;
  - deletes remove rows outright.

  Soft deletes, `ORDER BY` and the SQL string comparison of the range query's raw `start_time`/`end_time` parameters are not modelled. The range window is stated on instants.
- **Clock, formatting and parsing.** These are parameters:
  - `new Date()` and `time.Now()`;
  - `toISOString`;
  - `new Date(s).getTime()`;
  - RFC 3339 parsing and formatting;
  - Go's `Format` layouts.

  Whether the server's parser accepts the form's `datetime-local` strings is therefore not decided here.
- **React scheduling.** Batched `setState`, real interval timing, and the un-awaited write the unload handler starts during page close are out of scope. The listener's stale capture is modelled only as far as `TimerContext.Relisten` states it.
- **Query cache and loading flags.** Query invalidation, `isLoading`/`isPending` (including the hook's `isLoading`), `onSuccess`/`onCancel` callbacks and the projects query are not modelled. Timer.tsx's tasks query is also left out. The option lists are taken as lists of stored ids.
- **Rendering.** The card's `formatDuration`, the Start/Stop label, the button variant and every other piece of layout are out of scope.
- TimerWidget.InitialLocal: the `projectId` and `taskId` props are taken as whole numbers. Negative or fractional props, whose `toString` differs from a decimal numeral, are not modelled.
- TaskForm.StatusLabel: `replace` is modelled only for a one-character string pattern, the only kind the form uses.
- **Authentication.** `utils.GetUserID` is the parameter `userId`. The auth handler, tokens and config are out of scope.
- **Other files.** Charts, PDF generation and the analytics and invoice client wrappers are not part of this model. The remaining task and project handlers appear only through the create answers that the round trips need.
- TimeEntryHandler.TimeEntryTable.UpdateTimeEntry: the path id is ignored, as in the source. The model does not follow GORM's column update rules for a key that already exists, since the client never sends one.
- TimeEntryHandler.TimeEntryTable.DeleteTimeEntry: takes the path id as a number. The source passes the raw `c.Param("id")` string to the query; a non-numeric path is covered only through the database failure flag `dbOk`, not by how the database compares the string with the key.
- UseTimer.ProjectTimer: the project id is fixed for the life of the object. The hook re-reads its `projectId` argument on every render, so `stop` sends whatever id is current then; a caller that changes the argument mid-session is not modelled. No component of the application calls this hook.
- **Repeated request builders.** The three API modules each build their own GET, POST, PUT and DELETE requests, as the three source files each do; the shapes are alike and differ only in the path and the body type.
