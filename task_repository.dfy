/** The tasks repository (backend/internal/repositories/task_repository.go):
    lookups, the status update with its bounded retry on a locked database,
    delete, and the hand-written substring search used to classify errors. */
module TaskRepo {
  import opened Wrappers
  import opened Models
  import opened Db
  import Order

  /** `t` occurs in `s` starting at index i. */
  predicate MatchesAt(s: string, t: string, i: int) {
    0 <= i <= |s| - |t| && s[i..i + |t|] == t
  }

  /** `t` occurs somewhere in `s`. */
  predicate Occurs(s: string, t: string) {
    exists i | 0 <= i <= |s| - |t| :: MatchesAt(s, t, i)
  }

  lemma OccursEmpty(s: string)
    ensures Occurs(s, "")
  {
    assert MatchesAt(s, "", 0);
  }

  lemma OccursTooLong(s: string, t: string)
    requires |t| > |s|
    ensures !Occurs(s, t)
  {
  }

  /** `containsSubstring`: the index loop over every start position. */
  method ContainsSubstring(s: string, substr: string) returns (found: bool)
    ensures found <==> Occurs(s, substr)
  {
    if |substr| == 0 {
      OccursEmpty(s);
      return true;
    }
    if |substr| > |s| {
      return false;
    }
    var i := 0;
    while i <= |s| - |substr|
      invariant 0 <= i <= |s| - |substr| + 1
      invariant forall j | 0 <= j < i :: !MatchesAt(s, substr, j)
    {
      if s[i..i + |substr|] == substr {
        assert MatchesAt(s, substr, i);
        return true;
      }
      i := i + 1;
    }
    return false;
  }

  /** `containsErrorSubstring`: the equality, prefix and suffix short cuts in
      front of the full search, which is stated here by its specification. */
  function ContainsErrorSubstring(errStr: string, substr: string): bool {
    |errStr| >= |substr| &&
    (errStr == substr ||
      (|errStr| > |substr| &&
        (errStr[..|substr|] == substr ||
         errStr[|errStr| - |substr|..] == substr ||
         Occurs(errStr, substr))))
  }

  /** The short cuts never change the answer: the two searches agree on all strings. */
  lemma ContainsErrorSubstringIsSearch(errStr: string, substr: string)
    ensures ContainsErrorSubstring(errStr, substr) <==> Occurs(errStr, substr)
  {
    if errStr == substr {
      assert MatchesAt(errStr, substr, 0);
    } else if |errStr| > |substr| && errStr[..|substr|] == substr {
      assert MatchesAt(errStr, substr, 0);
    } else if |errStr| > |substr| && errStr[|errStr| - |substr|..] == substr {
      assert MatchesAt(errStr, substr, |errStr| - |substr|);
    }
    if Occurs(errStr, substr) && |errStr| == |substr| {
      var i :| MatchesAt(errStr, substr, i);
      assert errStr[0..|errStr|] == errStr;
    }
  }

  /** `isDatabaseLockedError`: SQLite's busy and locked messages. */
  function IsDatabaseLockedError(err: Option<string>): bool {
    err.Some? &&
    (ContainsErrorSubstring(err.value, "database is locked") ||
     ContainsErrorSubstring(err.value, "SQLITE_BUSY") ||
     ContainsErrorSubstring(err.value, "busy"))
  }

  lemma LockedErrorIff(err: Option<string>)
    ensures IsDatabaseLockedError(err) <==>
      err.Some? && (Occurs(err.value, "database is locked") || Occurs(err.value, "SQLITE_BUSY") || Occurs(err.value, "busy"))
  {
    if err.Some? {
      ContainsErrorSubstringIsSearch(err.value, "database is locked");
      ContainsErrorSubstringIsSearch(err.value, "SQLITE_BUSY");
      ContainsErrorSubstringIsSearch(err.value, "busy");
    }
  }

  const MaxRetries := 3

  /** The result of the i-th execution of the statement (0-based); None is success. */
  function Attempt(outcomes: seq<Option<string>>, i: nat): Option<string> {
    if i < |outcomes| then outcomes[i] else None
  }

  /** The loop's outcome from attempt i on: stop at success, at an error that
      is not a lock error, or at the last allowed attempt. */
  function RetryOutcome(outcomes: seq<Option<string>>, i: nat): Option<string>
    requires i < MaxRetries
    decreases MaxRetries - i
  {
    var e := Attempt(outcomes, i);
    if e.None? || !IsDatabaseLockedError(e) || i + 1 == MaxRetries then e
    else RetryOutcome(outcomes, i + 1)
  }

  /** The retry loop of `UpdateStatus`: execute until success, a non-lock
      error, or three attempts; `err` is the last attempt's error. */
  method ExecWithRetry(outcomes: seq<Option<string>>) returns (tries: nat, err: Option<string>)
    ensures 1 <= tries <= MaxRetries
    ensures err == Attempt(outcomes, tries - 1)
    ensures forall j | 0 <= j < tries - 1 :: IsDatabaseLockedError(Attempt(outcomes, j))
    ensures tries < MaxRetries ==> !IsDatabaseLockedError(err)
    ensures err == RetryOutcome(outcomes, 0)
  {
    tries, err := 0, None;
    var i := 0;
    while i < MaxRetries
      invariant 0 <= i <= MaxRetries && tries == i
      invariant i > 0 ==> err == Attempt(outcomes, i - 1) && IsDatabaseLockedError(err)
      invariant forall j | 0 <= j < i :: IsDatabaseLockedError(Attempt(outcomes, j))
      invariant i < MaxRetries ==> RetryOutcome(outcomes, 0) == RetryOutcome(outcomes, i)
      invariant i == MaxRetries ==> RetryOutcome(outcomes, 0) == err
    {
      err := Attempt(outcomes, i);
      tries := i + 1;
      if err.None? {
        break;
      }
      if IsDatabaseLockedError(err) {
        i := i + 1;
        continue;
      } else {
        break;
      }
    }
  }

  /** `GetByID`: a missing row is (nil, nil). */
  function GetByID(db: Database, id: int, fault: Option<string>): (r: Result<Option<Task>>)
    reads db
    ensures r.Err? <==> fault.Some?
    ensures fault.Some? ==> r == Err(Wrap("failed to get task", fault.value))
    ensures r.Ok? ==> (r.value.None? <==> id !in db.tasks)
    ensures r.Ok? && r.value.Some? ==> r.value.value == db.tasks[id]
  {
    if fault.Some? then Err(Wrap("failed to get task", fault.value))
    else if id in db.tasks then Ok(Some(db.tasks[id]))
    else Ok(None)
  }

  /** A task after a status write: completed_at is stamped exactly when the
      new status is completed, and cleared otherwise. */
  function WithStatus(t: Task, status: string, reason: string, now: Instant): Task {
    t.(status := status, reason := reason, completedAt := if status == "completed" then Some(now) else None)
  }

  lemma WithStatusCompletedAt(t: Task, status: string, reason: string, now: Instant)
    ensures WithStatus(t, status, reason, now).completedAt.Some? <==> status == "completed"
    ensures WithStatus(t, status, reason, now).status == status && WithStatus(t, status, reason, now).reason == reason
    ensures WithStatus(t, status, reason, now).(status := t.status, reason := t.reason, completedAt := t.completedAt) == t
  {
  }

  /** `UpdateStatus`: the write happens when the last attempt succeeds. An
      UPDATE of a missing id changes no row and is not an error. */
  method UpdateStatus(db: Database, id: int, status: string, reason: string, now: Instant,
                      outcomes: seq<Option<string>>) returns (err: Outcome)
    requires db.Valid()
    modifies db`tasks
    ensures db.Valid()
    ensures err.Err? ==> db.tasks == old(db.tasks)
    ensures RetryOutcome(outcomes, 0).Some? ==> err == Err(Wrap("failed to update task status", RetryOutcome(outcomes, 0).value))
    ensures RetryOutcome(outcomes, 0).None? ==> err == Done
    ensures err == Done ==>
      db.tasks == if id in old(db.tasks) then old(db.tasks)[id := WithStatus(old(db.tasks)[id], status, reason, now)] else old(db.tasks)
  {
    var tries, last := ExecWithRetry(outcomes);
    if last.Some? {
      return Err(Wrap("failed to update task status", last.value));
    }
    if id in db.tasks {
      ghost var before := db.tasks;
      db.tasks := db.tasks[id := WithStatus(db.tasks[id], status, reason, now)];
      forall k ensures TaskOk(db.tasks, db.schedules, k) {
        assert TaskOk(before, db.schedules, k);
      }
    }
    return Done;
  }

  /** `Delete`: removes the row, if any. */
  method Delete(db: Database, id: int, fault: Option<string>) returns (err: Outcome)
    requires db.Valid()
    modifies db`tasks
    ensures db.Valid()
    ensures fault.Some? ==> err == Err(Wrap("failed to delete task", fault.value)) && db.tasks == old(db.tasks)
    ensures fault.None? ==> err == Done && db.tasks == old(db.tasks) - {id}
  {
    if fault.Some? {
      return Err(Wrap("failed to delete task", fault.value));
    }
    ghost var before := db.tasks;
    db.tasks := db.tasks - {id};
    forall k ensures TaskOk(db.tasks, db.schedules, k) {
      assert TaskOk(before, db.schedules, k);
    }
    return Done;
  }

  /** The ids of a schedule's tasks. */
  function TaskIdsOf(tasks: map<int, Task>, scheduleId: int): set<int> {
    set k | k in tasks && tasks[k].scheduleId == scheduleId
  }

  function RowsAt(tasks: map<int, Task>, keys: seq<int>): (r: seq<Task>)
    requires forall i | 0 <= i < |keys| :: keys[i] in tasks
    ensures |r| == |keys| && forall i | 0 <= i < |keys| :: r[i] == tasks[keys[i]]
  {
    if keys == [] then [] else [tasks[keys[0]]] + RowsAt(tasks, keys[1..])
  }

  /** `GetByScheduleID`: the schedule's tasks in insertion order, which the
      AUTOINCREMENT ids follow. */
  function GetByScheduleID(db: Database, scheduleId: int, fault: Option<string>): (r: Result<seq<Task>>)
    reads db
    ensures r.Err? <==> fault.Some?
    ensures fault.Some? ==> r == Err(Wrap("failed to query tasks", fault.value))
    ensures r.Ok? ==> exists keys ::
      (keys == Order.Ascending(TaskIdsOf(db.tasks, scheduleId)) && |r.value| == |keys| &&
       forall i | 0 <= i < |keys| :: keys[i] in db.tasks && r.value[i] == db.tasks[keys[i]] && r.value[i].scheduleId == scheduleId)
  {
    if fault.Some? then Err(Wrap("failed to query tasks", fault.value))
    else
      var keys := Order.Ascending(TaskIdsOf(db.tasks, scheduleId));
      assert forall i | 0 <= i < |keys| :: keys[i] in TaskIdsOf(db.tasks, scheduleId);
      Ok(RowsAt(db.tasks, keys))
  }
}
