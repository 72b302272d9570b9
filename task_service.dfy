/** The task service (backend/internal/services/task_service.go): the two
    validators, the status update that validates before it looks the task
    up, and the delete that refuses a missing task. */
module TaskService {
  import opened Wrappers
  import opened Models
  import opened Db
  import TaskRepo

  /** `validateTask`: schedule id, title, status present, status known, and
      a reason for not_completed, in that order. */
  function ValidateTask(t: Task): Outcome {
    if t.scheduleId <= 0 then Err("schedule_id is required")
    else if t.title == "" then Err("title is required")
    else if t.status == "" then Err("status is required")
    else if t.status !in TaskStatuses then Err("invalid status: " + t.status)
    else if t.status == "not_completed" && t.reason == "" then Err("reason is required when status is not_completed")
    else Done
  }

  /** A task passes validation exactly when it belongs to a schedule and
      meets the tags declared on the record. */
  lemma ValidateTaskAccepts(t: Task)
    ensures ValidateTask(t) == Done <==> t.scheduleId > 0 && TaskTagsHold(t)
  {
  }

  /** The order of the checks: each message is given only when every earlier
      check passed. */
  lemma ValidateTaskOrder(t: Task)
    ensures t.scheduleId <= 0 ==> ValidateTask(t) == Err("schedule_id is required")
    ensures t.scheduleId > 0 && t.title == "" ==> ValidateTask(t) == Err("title is required")
    ensures t.scheduleId > 0 && t.title != "" && t.status !in TaskStatuses ==>
      ValidateTask(t) == if t.status == "" then Err("status is required") else Err("invalid status: " + t.status)
    ensures t.scheduleId > 0 && t.title != "" && t.status == "not_completed" && t.reason == "" ==>
      ValidateTask(t) == Err("reason is required when status is not_completed")
  {
  }

  /** `validateTaskUpdateRequest`: only completed and not_completed can be
      requested, and not_completed needs a reason. */
  function ValidateUpdateRequest(r: TaskUpdateRequest): Outcome {
    if r.status == "" then Err("status is required")
    else if r.status !in TaskUpdateStatuses then Err("invalid status: " + r.status)
    else if r.status == "not_completed" && r.reason == "" then Err("reason is required when status is not_completed")
    else Done
  }

  /** A request passes exactly when it meets its declared tag and gives a
      reason for not_completed; pending is never accepted. */
  lemma ValidateUpdateRequestAccepts(r: TaskUpdateRequest)
    ensures ValidateUpdateRequest(r) == Done <==>
      TaskUpdateTagsHold(r) && (r.status == "not_completed" ==> r.reason != "")
    ensures r.status == "pending" ==> ValidateUpdateRequest(r) == Err("invalid status: pending")
  {
  }

  /** An accepted request, applied to a task, yields a task that passes the
      full task validation. */
  lemma AcceptedRequestKeepsTaskValid(t: Task, r: TaskUpdateRequest, now: Instant)
    requires ValidateTask(t) == Done && ValidateUpdateRequest(r) == Done
    ensures ValidateTask(TaskRepo.WithStatus(t, r.status, r.reason, now)) == Done
  {
    ValidateTaskAccepts(t);
    ValidateUpdateRequestAccepts(r);
    ValidateTaskAccepts(TaskRepo.WithStatus(t, r.status, r.reason, now));
  }

  /** What `UpdateTaskStatus` returns: the validation error; else the
      lookup's error or "task not found"; else the status write's error. */
  function UpdateStatusResult(tasks: map<int, Task>, id: int, r: TaskUpdateRequest, lookupFault: Option<string>,
                              outcomes: seq<Option<string>>): Outcome
  {
    var valid := ValidateUpdateRequest(r);
    if valid.Err? then Err(Wrap("task update validation failed", valid.msg))
    else if lookupFault.Some? then Err(Wrap("failed to get task", Wrap("failed to get task", lookupFault.value)))
    else if id !in tasks then Err("task not found")
    else if TaskRepo.RetryOutcome(outcomes, 0).Some? then
      Err(Wrap("failed to update task status", Wrap("failed to update task status", TaskRepo.RetryOutcome(outcomes, 0).value)))
    else Done
  }

  /** The write happens exactly when the request is valid, the task exists
      and the retried statement finally succeeds; an invalid request is
      refused whatever the database would have said. */
  lemma UpdateStatusResultDone(tasks: map<int, Task>, id: int, r: TaskUpdateRequest, lookupFault: Option<string>,
                               outcomes: seq<Option<string>>)
    ensures UpdateStatusResult(tasks, id, r, lookupFault, outcomes) == Done <==>
      ValidateUpdateRequest(r) == Done && lookupFault.None? && id in tasks && TaskRepo.RetryOutcome(outcomes, 0).None?
    ensures ValidateUpdateRequest(r).Err? ==>
      UpdateStatusResult(tasks, id, r, lookupFault, outcomes) == Err(Wrap("task update validation failed", ValidateUpdateRequest(r).msg))
  {
  }

  /** `UpdateTaskStatus`: validate, then look up, then write exactly the
      requested status and reason. */
  method UpdateTaskStatus(db: Database, id: int, r: TaskUpdateRequest, now: Instant, lookupFault: Option<string>,
                          outcomes: seq<Option<string>>) returns (err: Outcome)
    requires db.Valid()
    modifies db`tasks
    ensures db.Valid()
    ensures err == UpdateStatusResult(old(db.tasks), id, r, lookupFault, outcomes)
    ensures db.tasks ==
      if err == Done then old(db.tasks)[id := TaskRepo.WithStatus(old(db.tasks)[id], r.status, r.reason, now)]
      else old(db.tasks)
  {
    var valid := ValidateUpdateRequest(r);
    if valid.Err? {
      return Err(Wrap("task update validation failed", valid.msg));
    }
    var found := TaskRepo.GetByID(db, id, lookupFault);
    if found.Err? {
      return Err(Wrap("failed to get task", found.msg));
    }
    if found.value.None? {
      return Err("task not found");
    }
    var writeErr := TaskRepo.UpdateStatus(db, id, r.status, r.reason, now, outcomes);
    if writeErr.Err? {
      return Err(Wrap("failed to update task status", writeErr.msg));
    }
    OkIsDone(writeErr);
    err := Done;
  }

  /** What `DeleteTask` returns. */
  function DeleteResult(tasks: map<int, Task>, id: int, lookupFault: Option<string>, deleteFault: Option<string>): Outcome {
    if lookupFault.Some? then Err(Wrap("failed to get task", Wrap("failed to get task", lookupFault.value)))
    else if id !in tasks then Err("task not found")
    else if deleteFault.Some? then Err(Wrap("failed to delete task", Wrap("failed to delete task", deleteFault.value)))
    else Done
  }

  /** Only an existing task is deleted, and a missing one is an error. */
  lemma DeleteResultDone(tasks: map<int, Task>, id: int, lookupFault: Option<string>, deleteFault: Option<string>)
    ensures DeleteResult(tasks, id, lookupFault, deleteFault) == Done <==>
      lookupFault.None? && deleteFault.None? && id in tasks
    ensures lookupFault.None? && id !in tasks ==> DeleteResult(tasks, id, lookupFault, deleteFault) == Err("task not found")
  {
  }

  /** `DeleteTask`: look up, then delete. */
  method DeleteTask(db: Database, id: int, lookupFault: Option<string>, deleteFault: Option<string>) returns (err: Outcome)
    requires db.Valid()
    modifies db`tasks
    ensures db.Valid()
    ensures err == DeleteResult(old(db.tasks), id, lookupFault, deleteFault)
    ensures db.tasks == if err == Done then old(db.tasks) - {id} else old(db.tasks)
  {
    var found := TaskRepo.GetByID(db, id, lookupFault);
    if found.Err? {
      return Err(Wrap("failed to get task", found.msg));
    }
    if found.value.None? {
      return Err("task not found");
    }
    var deleteErr := TaskRepo.Delete(db, id, deleteFault);
    if deleteErr.Err? {
      return Err(Wrap("failed to delete task", deleteErr.msg));
    }
    OkIsDone(deleteErr);
    err := Done;
  }
}
