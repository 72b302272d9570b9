# Caregiver shift tracker: a verified model of the visit lifecycle

This project models, in Dafny, the core of a caregiver shift tracker. Caregivers see their schedules for the day, clock in at a client's address (start a visit), mark each care task as done or not done with a reason, and clock out (end the visit). The model covers both halves of the system:

- the Go backend: the schedule, visit, task and client services and the SQLite repositories under them;
- the React Native client: the clock-out screen, the schedule card, the task item, the home screen timer, the location service, the display helpers and the query-cache hooks.

How the backend is modelled:

- The database is a class (`Db.Database`) holding one map per table plus the AUTOINCREMENT counters.
- Every SQL statement takes a fault input: `None` means the statement succeeded, `Some(e)` means the driver returned error `e`.
- Go's `fmt.Errorf("…: %w", err)` is string concatenation (`Db.Wrap`).
- Each service and repository operation is a method. Its `ensures` ties the returned error and the new tables to a specification function of the old tables. Lemmas state what those functions mean: when an operation succeeds, which check fails first, and what is written.
- Query builders produce the numbered SQL text and the argument list, as `GetAll` builds them. The model proves that the descending `?N → ?` rewrite leaves exactly one `?` per argument.

How the client is modelled:

- Component state is a class, such as `ScheduleCard.CardState`, `TaskItem.TaskItemState`, `HomeScreen.ElapsedTimer` and `QueryKeys.QueryCache`. Event handlers are methods on it.
- Every device, browser, network or server answer is a parameter.
- JavaScript's `||` on strings is `Script.Truthy` and `Script.MessageOr`.
- `%` on possibly negative numbers is `Script.Rem`.

Shared choices:

- Clocks are integer parameters: seconds on the backend, milliseconds on the client.
- Coordinates are `real` values. They are only compared and copied.

## Model

| member | source | states |
|---|---|---|
| ScheduleService.UpdateScheduleStatus | backend/internal/services/schedule_service.go:280-303 | the schedule comes back unchanged except its status, which is the status derived from its visit, its end time and `now`; the incoming status is ignored |
| ScheduleService.DerivedStatusCases | backend/internal/services/schedule_service.go:284-302 | a completed visit gives completed; otherwise an in-progress visit gives in_progress; otherwise missed iff now is after the end time and there is no started visit, else scheduled; always one of the four schedule statuses |
| ScheduleService.DerivedStatusIdempotent | backend/internal/services/schedule_service.go:280-303 | deriving the status twice at the same `now` gives the same schedule as deriving it once |
| ScheduleService.Enrich | backend/internal/services/schedule_service.go:261-277 | the visit is attached first, then the tasks in id order; a visit lookup error stops before the tasks; a task error keeps the attached visit; nothing else in the schedule changes |
| ScheduleService.EnrichAll | backend/internal/services/schedule_service.go:98-104 | every schedule of the list is enriched in place, in order, and the length is kept |
| ScheduleService.DeriveStatuses | backend/internal/services/schedule_service.go:106-109 | every schedule of the list gets its derived status, in place and in order |
| ScheduleService.GetTodaySchedules | backend/internal/services/schedule_service.go:89-116 | a query error is wrapped twice; otherwise the result has one entry per returned row, each scanned, enriched and given its derived status |
| ScheduleService.FindSchedule | backend/internal/services/schedule_service.go:151-154 | succeeds iff the lookup succeeds and the row exists, and then returns the schedule stored under that id |
| ScheduleService.SetStatus | backend/internal/services/schedule_service.go:168-173 | writing a found schedule with a new status changes only that row's status column, and only when the write succeeds |
| ScheduleService.StartVisit | backend/internal/services/schedule_service.go:137-177 | with the corrected visit INSERT, result and new tables equal the start specification: the visit is written only after the schedule is found and the 30-minute window is met, and the schedule becomes in_progress only when both writes succeed |
| ScheduleService.StartAsWrittenNeedsVisit | backend/internal/services/schedule_service.go:137-177 | as written, a start succeeds iff no statement fails, the window is met and the schedule already has a visit record; a first start reports `failed to start visit: failed to create visit: ` followed by the driver's refusal of the INSERT |
| ScheduleService.StartResultDone | backend/internal/services/schedule_service.go:137-177 | with the corrected visit INSERT, start succeeds iff no statement fails, the schedule exists and `now >= start − 30 min`; a started visit with a failed schedule write is the only partial outcome |
| ScheduleService.StartGuardErrors | backend/internal/services/schedule_service.go:145-164 | a lookup error, a missing schedule ("schedule not found") and an early start each produce their own message, and none of them writes a visit |
| ScheduleService.EndVisit | backend/internal/services/schedule_service.go:180-214 | the schedule becomes completed only after the visit end succeeded; a failed visit end leaves both tables unchanged |
| ScheduleService.EndResultDone | backend/internal/services/schedule_service.go:180-214 | end succeeds iff no statement fails, the schedule exists and its visit has a start time |
| ScheduleService.CancelVisit | backend/internal/services/schedule_service.go:217-258 | result and new tables equal the cancel specification; the visit is reset only when the schedule was in_progress; success leaves the schedule scheduled |
| ScheduleService.CancelResultDone | backend/internal/services/schedule_service.go:234-251 | cancel succeeds iff the schedule is scheduled, or is in_progress with an in-progress visit that is reset; any other status fails with "visit cannot be cancelled in status: …" |
| VisitService.ValidateVisitAccepts | backend/internal/services/visit_service.go:126-189 | validation passes iff the visit is well formed: schedule id > 0, a known status, the fields each status needs, the end not before the start, and coordinates in range |
| VisitService.ScheduleIdCheckedFirst | backend/internal/services/visit_service.go:127-129 | a schedule id ≤ 0 gives "schedule_id is required" whatever else is wrong |
| VisitService.StatusCheckedSecond | backend/internal/services/visit_service.go:131-143 | with a valid schedule id, an empty or unknown status is the error reported |
| VisitService.RangeCheckedLast | backend/internal/services/visit_service.go:175-186 | once the status fields pass, the result is the coordinate check: each present latitude is in [-90,90] and each present longitude in [-180,180] |
| VisitService.GetVisitByScheduleID | backend/internal/services/visit_service.go:27-43 | a lookup error is wrapped; otherwise it returns the visit of the schedule, or none when there is no visit (not an error) |
| VisitService.CreateVisit | backend/internal/services/visit_service.go:46-65 | with the corrected INSERT: the repository is touched only when validation passes; on success the visit is stored under the next id |
| VisitService.CreateAsWrittenFails | backend/internal/services/visit_service.go:46-65 | as written, no create ever succeeds: an ill-formed visit gets the validation error, a well-formed one the driver's refusal of the INSERT, wrapped as `failed to create visit: failed to create visit: …` |
| VisitService.CreateResultDone | backend/internal/services/visit_service.go:46-65 | with the corrected INSERT, create succeeds iff the visit is well formed, the insert does not fail, the schedule exists and has no visit yet |
| VisitService.UpdateVisit | backend/internal/services/visit_service.go:68-83 | the repository is touched only when validation passes; on success the row with the visit's id is overwritten |
| VisitService.UpdateResultValidates | backend/internal/services/visit_service.go:68-83 | update succeeds iff the visit is well formed and the write succeeds; an invalid visit gives "visit validation failed: …" |
| VisitService.EndVisit | backend/internal/services/visit_service.go:86-123 | a missing visit or one with no start time is an error and nothing is written; on success the stored visit is replaced by its ended form |
| VisitService.EndResultAgrees | backend/internal/services/visit_service.go:86-123 | the service's end succeeds exactly when the repository's end does, with the same error when the write does not fail |
| VisitService.EndedRecord | backend/internal/services/visit_service.go:107-114 | an ended visit is completed with the given end coordinates and time; notes are replaced only by non-empty notes; every other field is kept |
| TaskService.ValidateTaskAccepts | backend/internal/services/task_service.go:164-193 | a task passes iff schedule id > 0 and its declared tags hold: a title, a known status, and a reason when not_completed |
| TaskService.ValidateTaskOrder | backend/internal/services/task_service.go:164-193 | the checks run in the order schedule id, title, status, reason, and each has its own message |
| TaskService.ValidateUpdateRequestAccepts | backend/internal/services/task_service.go:196-216 | a request passes iff its status is completed or not_completed and a not_completed status has a reason; pending is rejected |
| TaskService.AcceptedRequestKeepsTaskValid | backend/internal/services/task_service.go:63-96 | applying an accepted request to a valid task gives a valid task |
| TaskService.UpdateStatusResultDone | backend/internal/services/task_service.go:63-96 | update succeeds iff the request is valid, the lookup succeeds, the task exists and the retried write succeeds; an invalid request fails before any lookup |
| TaskService.UpdateTaskStatus | backend/internal/services/task_service.go:63-96 | a missing task gives "task not found" with no write; success writes exactly the requested status and reason |
| TaskService.DeleteResultDone | backend/internal/services/task_service.go:139-161 | delete succeeds iff the lookup and delete succeed and the task exists; a missing task gives "task not found" |
| TaskService.DeleteTask | backend/internal/services/task_service.go:139-161 | the task row is removed exactly when delete succeeds; otherwise nothing changes |
| ClientService.RequiredFieldsCheckAccepts | backend/internal/services/client_service.go:212-259 | validation passes iff name, address, city, state and zip code are not blank after trimming, checked in that order with one message each |
| ClientService.GetAllClients | backend/internal/services/client_service.go:27-38 | a query error is wrapped; otherwise one scanned client per row, in order |
| ClientService.GetClientByID | backend/internal/services/client_service.go:41-61 | an id ≤ 0 is refused before the repository; otherwise the stored client or none |
| ClientService.NewClientFields | backend/internal/services/client_service.go:72-84 | a created client copies every request field and is active, and validating it is the same as validating the request |
| ClientService.CreateClient | backend/internal/services/client_service.go:64-93 | an invalid request fails with no insert; otherwise the new client is stored under a fresh id and returned with it |
| ClientService.MergeOverwritesSupplied | backend/internal/services/client_service.go:116-148 | the merge overwrites exactly the supplied fields; an empty request changes nothing; merging twice is merging once |
| ClientService.UpdateResultCases | backend/internal/services/client_service.go:96-162 | a missing client gives no client and no error; success returns the merged client, which passes validation; an invalid merge is never written |
| ClientService.UpdateClient | backend/internal/services/client_service.go:96-162 | the row is overwritten with the merged client exactly when the update succeeds |
| ClientService.DeleteResultDone | backend/internal/services/client_service.go:165-191 | delete succeeds iff id > 0, every statement succeeds, the client exists and no schedule refers to it; a missing client gives "client not found" |
| ClientService.DeleteClient | backend/internal/services/client_service.go:165-191 | the client row is removed exactly when delete succeeds |
| ClientService.SearchClients | backend/internal/services/client_service.go:194-209 | a blank query gives an empty list without a query; otherwise the repository's rows or its wrapped error |
| Models.TaskUpdateStatusesAreTaskStatuses | backend/internal/models/models.go:66-88 | the statuses an update request may carry are the task statuses without pending |
| Db.ScanClient | backend/internal/repositories/schedule_repository.go:92-100 | a NULL email, phone or notes column becomes the empty string; every other field is copied |
| Db.ScanClientRowOf | backend/internal/repositories/client_repository.go:97-105 | a client written to its row reads back unchanged |
| Db.SchedulesOf | backend/internal/repositories/client_repository.go:193-201 | the schedules whose client id is the given client |
| ScheduleRepo.AddFilters | backend/internal/repositories/schedule_repository.go:32-48 | filters are appended in the order caregiver, date, status; each adds one placeholder and one argument |
| ScheduleRepo.BuildQuery | backend/internal/repositories/schedule_repository.go:22-69 | the query is base, filters, ORDER BY start time, then LIMIT/OFFSET; after the rewrite it holds one `?` per argument |
| ScheduleRepo.NoFilterQuery | backend/internal/repositories/schedule_repository.go:32-52 | with no filter the query is the base query plus ORDER BY, and there are no arguments |
| ScheduleRepo.FormatDateShape | backend/internal/repositories/schedule_repository.go:40 | the date argument is ten characters, YYYY-MM-DD |
| ScheduleRepo.ScanSchedule | backend/internal/repositories/schedule_repository.go:83-104 | a scanned row keeps its columns, carries its scanned client, and has no visit or tasks yet |
| ScheduleRepo.ScanThenWrite | backend/internal/repositories/schedule_repository.go:201-216 | writing back a schedule as it was read leaves its row unchanged |
| ScheduleRepo.WriteStatus | backend/internal/repositories/schedule_repository.go:201-216 | writing a schedule with only its status changed changes only the status column |
| ScheduleRepo.ScanRows | backend/internal/repositories/schedule_repository.go:77-107 | each row becomes a schedule in order; a row whose client is NULL fails the scan |
| ScheduleRepo.GetAll | backend/internal/repositories/schedule_repository.go:21-108 | the query and arguments match the filter, a query error is wrapped, and otherwise the rows are scanned in order |
| ScheduleRepo.GetByID | backend/internal/repositories/schedule_repository.go:111-148 | no row is `(nil, nil)`, not an error; a found row is scanned with its client |
| ScheduleRepo.GetToday | backend/internal/repositories/schedule_repository.go:151-158 | the query filters by caregiver and today's date only, with exactly those two arguments |
| ScheduleRepo.TodayQuery | backend/internal/repositories/schedule_repository.go:151-158 | `GetToday`'s query and arguments are those of `GetAll` with only the caregiver and date set |
| ScheduleRepo.TodaySql | backend/internal/repositories/schedule_repository.go:34-50 | the SQL of the today filter is base, caregiver clause, date clause, ORDER BY |
| ScheduleRepo.TodayArgs | backend/internal/repositories/schedule_repository.go:34-41 | the arguments of the today filter are the caregiver id and the formatted date |
| ScheduleRepo.Update | backend/internal/repositories/schedule_repository.go:201-216 | the row with the schedule's id is overwritten; a missing id changes nothing and is not an error |
| Placeholders.RewriteStep | backend/internal/repositories/schedule_repository.go:67-69 | replacing `?i` rewrites placeholder i and no other |
| Placeholders.RewritePlaceholders | backend/internal/repositories/schedule_repository.go:67-69 | the descending loop turns every numbered placeholder `?i` into `?` and changes nothing else |
| Placeholders.PlaceholderCount | backend/internal/repositories/client_repository.go:74-76 | after the rewrite the query holds one `?` per placeholder and no other |
| Placeholders.AddClause | backend/internal/repositories/schedule_repository.go:34-36 | one formatted clause adds one numbered placeholder, one argument and one to the index |
| Placeholders.AddOptional | backend/internal/repositories/schedule_repository.go:33-37 | an optional clause does that only when its field is present |
| Placeholders.AddPaging | backend/internal/repositories/schedule_repository.go:52-62 | LIMIT then OFFSET, each only when given, each with one placeholder and one argument |
| ClientRepo.SearchTerm | backend/internal/repositories/client_repository.go:51 | the LIKE pattern is the term between two `%` |
| ClientRepo.AddSearch | backend/internal/repositories/client_repository.go:49-54 | search adds three placeholders and three copies of the pattern |
| ClientRepo.AddFilters | backend/internal/repositories/client_repository.go:30-55 | filters are appended in the order is_active, city, state, search |
| ClientRepo.BuildQuery | backend/internal/repositories/client_repository.go:22-76 | the query is base, filters, ORDER BY name, then LIMIT/OFFSET; after the rewrite it holds one `?` per argument |
| ClientRepo.ScanRows | backend/internal/repositories/client_repository.go:84-110 | every row becomes a client, in order |
| ClientRepo.GetAll | backend/internal/repositories/client_repository.go:21-111 | the query and arguments match the filter, a query error is wrapped, and otherwise the rows are scanned in order |
| ClientRepo.Search | backend/internal/repositories/client_repository.go:212-217 | the query has only the search clause, with three copies of the pattern |
| ClientRepo.SearchQuery | backend/internal/repositories/client_repository.go:212-217 | `Search(q)` builds the query of `GetAll` with only the search term set |
| ClientRepo.GetByID | backend/internal/repositories/client_repository.go:114-145 | no row is `(nil, nil)`; a found row is scanned |
| ClientRepo.Create | backend/internal/repositories/client_repository.go:148-169 | the client is inserted under the next id, which is returned and was not in use |
| ClientRepo.CreateReadsBack | backend/internal/repositories/client_repository.go:148-169 | a created client reads back as given, under its new id |
| ClientRepo.Update | backend/internal/repositories/client_repository.go:172-188 | overwrites every column of the client's row; a missing id changes nothing and is not an error |
| ClientRepo.Delete | backend/internal/repositories/client_repository.go:191-209 | while the client has schedules it is refused and no DELETE runs; otherwise the row is removed |
| VisitRepo.GetByScheduleID | backend/internal/repositories/visit_repository.go:20-45 | no row is `(nil, nil)`; otherwise the schedule's visit |
| VisitRepo.Updated | backend/internal/repositories/visit_repository.go:71-85 | the row with the visit's id gets the visit's columns and every other row is kept |
| VisitRepo.Update | backend/internal/repositories/visit_repository.go:71-85 | a successful update stores the updated rows; a failed one changes nothing |
| VisitRepo.UpdatedOwnRow | backend/internal/repositories/visit_repository.go:71-85 | updating a visit with its own id and schedule replaces exactly that row |
| VisitRepo.CreateAsWrittenAlwaysFails | backend/internal/repositories/visit_repository.go:49-52 | the INSERT as written, with 9 columns and 8 values, fails for every visit |
| VisitRepo.InsertArityMatches | backend/internal/repositories/visit_repository.go:49-56 | the corrected INSERT has one placeholder per column |
| VisitRepo.Create | backend/internal/repositories/visit_repository.go:48-68 | the corrected insert stores the visit under the next id; an unknown schedule or a second visit for the schedule is refused |
| VisitRepo.StartVisit | backend/internal/repositories/visit_repository.go:88-115 | with the corrected INSERT, result and new table equal the start specification: a new visit is created or the existing one restarted |
| VisitRepo.CreateOutcomeAsWrittenFails | backend/internal/repositories/visit_repository.go:48-59 | the insert as written reports `failed to create visit: ` followed by the driver's refusal, whatever the tables and faults are |
| VisitRepo.StartAsWrittenNeedsVisit | backend/internal/repositories/visit_repository.go:88-115 | as written, a start succeeds iff neither statement fails and the schedule already has a visit record; without a record it reports the driver's refusal of the INSERT; with one it agrees with the corrected start |
| VisitRepo.StartResultDone | backend/internal/repositories/visit_repository.go:88-115 | with the corrected INSERT, starting succeeds iff both statements succeed and the schedule exists |
| VisitRepo.StartedVisitsShape | backend/internal/repositories/visit_repository.go:97-106 | after a start the schedule's visit is in_progress with the given start time and coordinates, and all other visits are kept |
| VisitRepo.StartedKeepsEndAndNotes | backend/internal/repositories/visit_repository.go:107-114 | restarting an existing visit overwrites only the start time, the start coordinates and the status |
| VisitRepo.EndVisit | backend/internal/repositories/visit_repository.go:118-143 | a missing or unstarted visit fails with no update; success stores the ended visit |
| VisitRepo.EndResultDone | backend/internal/repositories/visit_repository.go:126-142 | ending succeeds iff both statements succeed and the visit exists with a start time |
| VisitRepo.CancelVisit | backend/internal/repositories/visit_repository.go:146-171 | a missing visit, or one not in progress, is an error; success stores the reset visit |
| VisitRepo.CancelResultDone | backend/internal/repositories/visit_repository.go:152-158 | cancelling succeeds iff both statements succeed and the visit is in_progress |
| VisitRepo.CancelUndoesStart | backend/internal/repositories/visit_repository.go:161-170 | cancelling clears all six time and coordinate fields and the notes and keeps the ids, so it undoes any start and is idempotent |
| TaskRepo.ContainsSubstring | backend/internal/repositories/task_repository.go:189-202 | the index loop finds `substr` iff it occurs at some index 0 ≤ i ≤ \|s\|−\|substr\| |
| TaskRepo.OccursEmpty | backend/internal/repositories/task_repository.go:189-202 | the empty string is always contained |
| TaskRepo.OccursTooLong | backend/internal/repositories/task_repository.go:189-202 | a longer pattern is never contained |
| TaskRepo.ContainsErrorSubstringIsSearch | backend/internal/repositories/task_repository.go:179-186 | the short-circuit expression gives the same answer as the search, for all strings |
| TaskRepo.LockedErrorIff | backend/internal/repositories/task_repository.go:166-176 | no error is not a lock error; an error is one iff it contains "database is locked", "SQLITE_BUSY" or "busy" |
| TaskRepo.ExecWithRetry | backend/internal/repositories/task_repository.go:127-146 | at most 3 attempts; every attempt but the last failed with a lock error; it stops at the first success or first other error; the result is that of the last attempt |
| TaskRepo.WithStatusCompletedAt | backend/internal/repositories/task_repository.go:115-119 | completed_at is set iff the status is completed; status and reason are the given ones and nothing else changes |
| TaskRepo.UpdateStatus | backend/internal/repositories/task_repository.go:114-153 | returns an error iff the last attempt failed, and then changes nothing; otherwise the row gets the new status, reason and completed_at |
| TaskRepo.Delete | backend/internal/repositories/task_repository.go:156-163 | success removes the row; failure changes nothing |
| TaskRepo.GetByID | backend/internal/repositories/task_repository.go:52-74 | no row is `(nil, nil)`; otherwise the stored task |
| TaskRepo.GetByScheduleID | backend/internal/repositories/task_repository.go:20-49 | exactly the schedule's tasks, each once, in ascending id order |
| Order.Ascending | backend/internal/repositories/task_repository.go:25 | the keys of a set listed once each in strictly increasing order |
| ClockOut.FormatElapsedTimeReadsBack | frontend/src/screens/ClockOutScreen.tsx:44-49 | the `HH : MM : SS` text of a non-negative count reads back as that count |
| Script.PartsDecompose | frontend/src/screens/ClockOutScreen.tsx:45-47 | for s ≥ 0, 3600·h + 60·m + sec = s with m and sec below 60 |
| Script.FormatElapsedRoundTrip | frontend/src/screens/HomeScreen.tsx:95-101 | both screens' formatter is inverted by reading the three padded fields back |
| Script.ElapsedSeconds | frontend/src/screens/HomeScreen.tsx:77 | the elapsed seconds are the floor of the elapsed milliseconds over 1000 |
| Script.Rem | frontend/src/screens/ClockOutScreen.tsx:46-47 | JavaScript's `%`: the remainder of a non-negative number, and a non-positive remainder of a negative one |
| Script.MessageOr | frontend/src/hooks/useSchedules.ts:58 | `a \|\| b \|\| fallback` on optional strings picks the first non-empty one |
| ClockOut.RecordAnswer | frontend/src/screens/ClockOutScreen.tsx:51-56 | the entry for the task is replaced and every other pending entry is kept |
| ClockOut.ValidateTasks | frontend/src/screens/ClockOutScreen.tsx:91-131 | the loop computes the validation result: no tasks is valid; unanswered tasks come first; then tasks marked No without a reason; names are listed in task order |
| ClockOut.UnansweredNamesEmpty | frontend/src/screens/ClockOutScreen.tsx:106-108 | no task is listed as unanswered iff every task has a pending answer or a stored status other than pending |
| ClockOut.ReasonlessNamesEmpty | frontend/src/screens/ClockOutScreen.tsx:101-113 | no task is listed as reasonless iff no effective not_completed status lacks a non-blank effective reason |
| ClockOut.ValidationAccepts | frontend/src/screens/ClockOutScreen.tsx:91-131 | valid iff no task is unanswered and none lacks a reason; unanswered tasks take priority in the message |
| ClockOut.ItemAnswersPass | frontend/src/components/molecules/TaskItem.tsx:26-43 | an answer a task item reports (Yes, or No with a non-blank reason) makes that task pass both checks |
| ClockOut.SendUpdates | frontend/src/screens/ClockOutScreen.tsx:149-159 | the updates are sent one at a time in key order, and the first failure stops the loop |
| ClockOut.HandleClockOut | frontend/src/screens/ClockOutScreen.tsx:133-199 | failed validation sends nothing; otherwise the task updates, then the visit end; any failure reports failure, and success reports the duration text |
| ClockOut.SubmitAnswers | frontend/src/screens/ClockOutScreen.tsx:147-194 | after validation: the task updates in ascending key order, then the visit end only when every update succeeded; any failure reports failure, otherwise the duration text |
| ClockOut.AscendingKeys | frontend/src/screens/ClockOutScreen.tsx:149 | the keys visited are exactly the pending task ids, so every visited key passes exactly when every pending answer passes |
| ClockOut.PluralEnding | frontend/src/screens/ClockOutScreen.tsx:180-185 | a unit is pluralised iff its count is greater than 1 |
| ClockOut.DurationCases | frontend/src/screens/ClockOutScreen.tsx:174-186 | under an hour: minutes only; otherwise hours, with minutes added only when non-zero |
| TaskItem.InitialChoice | frontend/src/components/molecules/TaskItem.tsx:20-24 | completed starts on Yes, not_completed on No, anything else on no selection |
| TaskItem.TaskItemState.constructor | frontend/src/components/molecules/TaskItem.tsx:19-24 | the item starts with the initial choice and the stored reason, or an empty one |
| TaskItem.TrimmedReason | frontend/src/components/molecules/TaskItem.tsx:34 | `reason.trim() \|\| undefined`: absent iff the reason is blank, else the trimmed, non-blank text |
| TaskItem.TaskItemState.PressYes | frontend/src/components/molecules/TaskItem.tsx:26-29 | Yes is selected and completed is reported without a reason |
| TaskItem.TaskItemState.PressNo | frontend/src/components/molecules/TaskItem.tsx:31-35 | No is selected and not_completed is reported with the trimmed reason, or none; the reason input shows iff the item is enabled |
| TaskItem.TaskItemState.EditReason | frontend/src/components/molecules/TaskItem.tsx:37-43 | the reason is stored, and reported only while No is selected |
| HomeScreen.CurrentSchedule | frontend/src/screens/HomeScreen.tsx:48 | the first schedule in progress, or none iff no schedule is in progress |
| HomeScreen.FormatElapsedTimeReadsBack | frontend/src/screens/HomeScreen.tsx:95-101 | the `HH:MM:SS` text, with no spaces, of a non-negative count reads back as that count and is at least 8 characters |
| HomeScreen.ElapsedTimer.constructor | frontend/src/screens/HomeScreen.tsx:51 | the counter starts at zero with no interval |
| HomeScreen.ElapsedTimer.Render | frontend/src/screens/HomeScreen.tsx:69-92 | the effect reruns only when the current schedule changed; then it counts from the start time when in progress and resets to 0 otherwise |
| HomeScreen.ElapsedTimer.Tick | frontend/src/screens/HomeScreen.tsx:75-82 | a tick recomputes the counter while an interval runs, and does nothing otherwise |
| HomeScreen.ActiveIffSomeInProgress | frontend/src/screens/HomeScreen.tsx:48-72 | the timer runs iff some schedule is in progress |
| Display.StatusColorCases | frontend/src/utils/index.ts:25-38 | completed is green, in_progress orange, missed and cancelled red, anything else gray; each case both ways |
| Display.StatusTextCases | frontend/src/utils/index.ts:40-55 | unknown statuses are returned unchanged; known ones get distinct labels, with in_progress as "In Progress" |
| Display.SplitJoin | frontend/src/utils/index.ts:59 | splitting on spaces and joining with a space gives back the name |
| Display.FirstCharsAreWordStarts | frontend/src/utils/index.ts:58-61 | the first characters of the split words are the characters that follow a space or the start; empty words contribute nothing |
| Display.InitialsOfWords | frontend/src/utils/index.ts:57-64 | the initials are the uppercased word starts, in order, cut to at most 2; the initials of "" are "" |
| ScheduleCard.CardStatusTextAgrees | frontend/src/components/organisms/ScheduleCard.tsx:55-64 | the card's labels agree with the shared helper except "In progress", and unknown statuses are returned unchanged |
| ScheduleCard.ActionButtons | frontend/src/components/organisms/ScheduleCard.tsx:150-205 | scheduled or missed gives Clock-In; in_progress gives View Progress and Clock-Out; completed gives View Report; anything else gives no button |
| ScheduleCard.ActionButtonsPress | frontend/src/components/organisms/ScheduleCard.tsx:150-205 | the location buttons use the effective disabled flag and the progress buttons the plain one |
| ScheduleCard.ErrorCode | frontend/src/components/organisms/ScheduleCard.tsx:76 | a missing or empty code counts as UNKNOWN_ERROR |
| ScheduleCard.LocationAction | frontend/src/components/organisms/ScheduleCard.tsx:66-116 | a located position goes to the action; TIMEOUT retries exactly once and then opens manual input; POSITION_UNAVAILABLE opens manual input; other codes show an alert |
| ScheduleCard.LocationAlerts | frontend/src/components/organisms/ScheduleCard.tsx:78-113 | PERMISSION_DENIED offers Cancel, Retry and Settings; other codes offer Cancel, Proceed Without Location and Retry |
| ScheduleCard.NotifyEither | frontend/src/components/organisms/ScheduleCard.tsx:130-131 | onClockIn is preferred over onClockOut |
| ScheduleCard.CardState.constructor | frontend/src/components/organisms/ScheduleCard.tsx:30-32 | not loading, no manual input, and the address field preset to the client's address |
| ScheduleCard.CardState.HandleLocationAction | frontend/src/components/organisms/ScheduleCard.tsx:66-116 | while effectively disabled nothing happens; otherwise the state and effect are the location action's |
| ScheduleCard.CardState.EditAddress | frontend/src/components/organisms/ScheduleCard.tsx:251 | the typed address is stored |
| ScheduleCard.CardState.HandleManualInput | frontend/src/components/organisms/ScheduleCard.tsx:118-148 | a blank address is refused without geocoding; otherwise geocode once, close the modal, then notify or show the geocoding alert |
| ScheduleCard.CardState.CancelManualInput | frontend/src/components/organisms/ScheduleCard.tsx:259 | the modal closes |
| ScheduleCard.CardState.ProceedWithoutLocation | frontend/src/components/organisms/ScheduleCard.tsx:275-279 | the modal closes and the card notifies without a location |
| LocationService.PermissionGranted | frontend/src/services/locationService.ts:26-47 | true iff the reported status is 'granted', and false on an exception |
| LocationService.WebError | frontend/src/services/locationService.ts:127-140 | browser codes 1, 2 and 3 map to PERMISSION_DENIED, LOCATION_UNAVAILABLE and TIMEOUT, anything else to UNKNOWN_ERROR; each case both ways |
| LocationService.WebLocation | frontend/src/services/locationService.ts:110-149 | no geolocation gives NOT_SUPPORTED; otherwise the position or the mapped error |
| LocationService.ClassifyThrown | frontend/src/services/locationService.ts:89-103 | E_LOCATION_SERVICES_DISABLED gives LOCATION_DISABLED, E_LOCATION_UNAVAILABLE gives LOCATION_UNAVAILABLE, anything else UNKNOWN_ERROR |
| LocationService.GetCurrentLocation | frontend/src/services/locationService.ts:52-105 | the result and the device calls made, in order, are those of the location specification |
| LocationService.CurrentLocationOutcomes | frontend/src/services/locationService.ts:52-84 | disabled services give LOCATION_DISABLED; a refused permission PERMISSION_DENIED; otherwise the position or its classified error |
| LocationService.CurrentLocationCalls | frontend/src/services/locationService.ts:60-84 | permission is requested iff the check said no; the position is read only with permission; no call is made twice; every rejection carries a known code |
| LocationService.ShowLocationErrorAlert | frontend/src/services/locationService.ts:154-190 | Cancel is first; Retry is present iff there is a retry handler, and second; Settings is present iff the code is PERMISSION_DENIED or LOCATION_DISABLED |
| LocationService.GeocodeAddress | frontend/src/services/locationService.ts:195-218 | the first result is returned iff there is one; an empty list, an HTTP error or a failed fetch give GEOCODING_FAILED |
| QueryKeys.ScheduleKeysShape | frontend/src/hooks/useSchedules.ts:7-14 | every schedule key starts with ['schedules']; detail, list and stats have their stated shapes; different calls give different keys |
| QueryKeys.TaskKeysShape | frontend/src/hooks/useTasks.ts:7-13 | every task key starts with ['tasks'], not with ['schedules']; detail(id) is ['tasks','detail',id] |
| QueryKeys.TaskKeyInjective | frontend/src/hooks/useTasks.ts:12 | different task ids have different detail keys |
| QueryKeys.VisitErrorMessage | frontend/src/hooks/useSchedules.ts:57-60 | details, then message, then the mutation's own default; never empty |
| QueryKeys.TaskErrorMessage | frontend/src/hooks/useTasks.ts:38-41 | details, then message, then the single or batch default; never empty |
| QueryKeys.QueryCache.Invalidate | frontend/src/hooks/useSchedules.ts:55 | exactly the cached keys with the given prefix become stale |
| QueryKeys.QueryCache.SetTask | frontend/src/hooks/useTasks.ts:33 | the task is cached under its detail key, which is then fresh |
| QueryKeys.QueryCache.OnVisitMutationSuccess | frontend/src/hooks/useSchedules.ts:53-56 | every cached schedule key becomes stale, and no task key changes |
| QueryKeys.QueryCache.OnTaskStatusSuccess | frontend/src/hooks/useTasks.ts:31-37 | the task is cached under its own id and every schedule key becomes stale |
| QueryKeys.WithTasksKeepsOthers | frontend/src/hooks/useTasks.ts:58-60 | the batch cache write touches only the returned tasks' detail keys |
| QueryKeys.WithTasksLastWins | frontend/src/hooks/useTasks.ts:58-60 | for a repeated id, the last returned task is the one cached |
| QueryKeys.QueryCache.OnMultipleTasksSuccess | frontend/src/hooks/useTasks.ts:56-64 | each returned task is cached under its own id (the last one wins for a repeated id); the new stale set is the old one without the batch's task keys, plus every cached schedule key |

## Left out

- HTTP handlers and routes, `main.go`, configuration and the axios client are left out. The handlers' error-to-status mapping is also left out.
- SQL execution is not modelled. Every statement's success or failure is an input, and which rows a query returns is an input (`rows`). Joins and the `DATE(...)` comparison are not evaluated.
- Logging is left out, and so is the `time.Sleep` backoff between retries: only the attempt count is modelled.
- Clocks (`time.Now`, `Date.now`) are parameters. `setInterval` is modelled only as a `Tick` call.
- `ensureLocalTime` and the time zone are not modelled: instants are plain integers.
- Locale date and time formatting (`formatTime`, `formatDate`, `toLocale…`) is left out, and so is `parseInt`/`parseFloat`.
- Network, device and browser calls are parameters: geolocation, the Nominatim fetch (including `encodeURIComponent` and the URL), `Linking.openSettings`, and showing an `Alert`.
- Alert button callbacks are not run. A Retry is a new `HandleLocationAction` call, and Proceed is `ProceedWithoutLocation` or the action with no location.
- React rendering, styles, navigation, `useState` batching and the error store are left out. Each effect is a value returned to the caller, and values are compared by equality.
- The schedule service's `GetAllSchedules`, `GetScheduleByID` and `GetScheduleStats` are not modelled separately. They repeat `GetTodaySchedules`' enrich-and-derive loop over other queries.
- The repository functions `GetStats`, `Create` and `Delete` of schedules are left out; no core rule depends on them.
- The task service's `GetTasksByScheduleID`, `GetTaskByID`, `CreateTask` and `UpdateTask` and the task repository's `Create` and `Update` are left out as thin wrappers. `validateTask` itself is modelled.
- `handleAddNewTask` and `handleCancelClockIn` on the clock-out screen are left out. They only show alerts or call the cancel mutation modelled on the backend.
- Concurrency is not modelled: operations are sequential, and the service transitions are not atomic. `StartVisit` can leave a started visit next to a schedule that is still scheduled, and the model states exactly that partial outcome.
- VisitRepo.CreateAsWritten takes the driver's error text for the refused INSERT as a parameter (`refusal`). SQLite's own message names the mismatch (8 values for 9 columns), and the driver may decorate it. The model fixes only the `failed to create visit: ` wrapping the source adds.
- Db.Database.Valid and the foreign-key refusal in VisitRepo.Create assume every connection enforces foreign keys. The source runs `PRAGMA foreign_keys = ON` once, on whichever pooled connection executes it, out of up to 25 connections. Statements on other connections may not enforce the constraint.
- ScheduleRepo.ScanSchedule and the task scans type `service_name`, the schedule's `notes` and the task's `description` as plain strings. The schema allows NULL in those columns, and scanning a NULL into a Go `string` fails. The model has no such scan failure.
- ClientRepo.Create leaves out the `LastInsertId` failure ("failed to get last insert id"), which would report an error after the row was inserted.
- VisitRepo.StartVisit uses the corrected INSERT. As written, every start of a schedule without a visit record fails with the arity error; `VisitRepo.StartAsWrittenNeedsVisit` states that outcome.
- VisitRepo.StartResultDone describes the corrected INSERT. As written, success also needs an existing visit record.
- ScheduleService.StartVisit uses the corrected INSERT. As written, a first start reports `failed to start visit: failed to create visit: ` followed by the driver's refusal, and writes nothing; `ScheduleService.StartAsWrittenNeedsVisit` states that outcome.
- ScheduleService.StartResultDone describes the corrected INSERT. As written, success also needs an existing visit record.
- VisitService.CreateVisit uses the corrected INSERT. As written, every create of a well-formed visit fails with the arity error; `VisitService.CreateAsWrittenFails` states that outcome.
- VisitService.CreateResultDone describes the corrected INSERT. As written, no create succeeds.
- Display.InitialsOfWords upper-cases with `Text.Upper`, which maps only the ASCII letters a–z. JavaScript's `toUpperCase` maps every Unicode letter and can lengthen a string ("ß" becomes "SS") before the cut to two characters. Initials that start with a non-ASCII letter are therefore not upper-cased in the model. The model's characters are code points, while `charAt` and `slice` work on UTF-16 code units. So for a word starting with a character outside the Basic Multilingual Plane, the source takes half of a surrogate pair and the model takes the whole character.
- TaskRepo.WithStatusCompletedAt leaves out `updated_at = CURRENT_TIMESTAMP`, which the status update also sets. The database-maintained `created_at` and `updated_at` columns are absent from every record, so "nothing else changes" covers the modelled columns only.
- ScheduleRepo.BuildQuery starts from the source's base SELECT with its line breaks and indentation collapsed to single spaces. The query text it states differs from the source's in that whitespace only.
- ClientRepo.BuildQuery starts from the source's base SELECT with its line breaks and indentation collapsed to single spaces. The query text it states differs from the source's in that whitespace only.
- Text.IsSpace approximates the whitespace sets of Go's `strings.TrimSpace` and JavaScript's `trim`: ASCII spaces, tabs, line breaks, vertical tab and form feed, and not the other Unicode spaces.
- TaskRepo.GetByScheduleID orders by task id where the SQL orders by `created_at`. The two agree because ids are AUTOINCREMENT and tasks get their creation time on insert. Rows created in the same second come back in an order SQLite does not fix.
- ClockOut.SendUpdates sends the pending answers in ascending task-id order. That is the order `Object.entries` gives for the non-negative integer keys task ids are; other keys are not modelled.
- Placeholders.AddPaging counts `argIndex` up after OFFSET as well, where the source does not. The index is never read after OFFSET.
- ScheduleCard.LocationAction keeps the POSITION_UNAVAILABLE branch although the location service only produces LOCATION_UNAVAILABLE. It is modelled as written, with no claim that it can be reached.
- ScheduleCard.CardState.HandleLocationAction leaves the loading flag set after a successful location, as the source does. The flag is only cleared when the location fails.
- The visit `LocationStatus` field that the visit service's tests use does not exist in the model types, so it is not modelled. The tests also expect `UpdateTaskStatus` to return the task, but the code returns only an error, and the model follows the code.
- The declared `validate` tags on the request types are predicates in `Models`. The HTTP binding does not enforce them, so no operation assumes them.

## Findings

| source | as written | input that shows it | evidently intended | confidence | as-written member | corrected member |
|---|---|---|---|---|---|---|
| backend/internal/repositories/visit_repository.go:49-52 | the INSERT names 9 columns but lists only 8 `?` values, which SQLite refuses to prepare | any visit, e.g. a visit for schedule 1 with status not_started | one placeholder per column, so that the visit is inserted and its new id returned | not executed | VisitRepo.CreateAsWrittenAlwaysFails | VisitRepo.Create, VisitRepo.InsertArityMatches |
| backend/internal/repositories/visit_repository.go:97-106 | a schedule with no visit record is started through the refused INSERT | schedule 1 with no visit record, no statement failing | the first start inserts a started visit | not executed | VisitRepo.StartAsWrittenNeedsVisit | VisitRepo.StartResultDone |
| backend/internal/services/schedule_service.go:162-166 | the first start of a schedule always fails, and the schedule stays scheduled | schedule 1 with no visit record, `now` at its start time, no statement failing | the schedule is started and marked in_progress | not executed | ScheduleService.StartAsWrittenNeedsVisit | ScheduleService.StartResultDone |
| backend/internal/services/visit_service.go:54-57 | every create of a well-formed visit fails with the arity error | a well-formed visit for schedule 1, which has no visit record | the visit is stored under the next id | not executed | VisitService.CreateAsWrittenFails | VisitService.CreateResultDone |
