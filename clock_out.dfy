/** The clock-out screen (frontend/src/screens/ClockOutScreen.tsx): the
    timer text, the pending task answers, the check that every task is
    answered, the sequence of requests `handleClockOut` sends, and the
    duration wording shown afterwards. */
module ClockOut {
  import opened Wrappers
  import opened Text
  import opened AppTypes
  import Script
  import TaskItem
  import Order

  /** The timer: `HH : MM : SS`. */
  function FormatElapsedTime(seconds: int): string {
    Script.FormatElapsed(seconds, " : ")
  }

  /** The timer text of a non-negative count reads back as that count. */
  lemma FormatElapsedTimeReadsBack(seconds: int)
    requires seconds >= 0
    ensures Script.ParseElapsed(FormatElapsedTime(seconds), " : ") == Some(seconds)
  {
    Script.FormatElapsedRoundTrip(seconds, " : ");
  }

  /** `handleTaskStatusChange`: the answer for `taskId` is replaced. */
  function RecordAnswer(pending: map<int, TaskUpdate>, taskId: int, status: string, reason: Option<string>)
    : (r: map<int, TaskUpdate>)
    ensures r.Keys == pending.Keys + {taskId}
    ensures r[taskId] == TaskUpdate(status, reason)
    ensures forall k | k in pending && k != taskId :: r[k] == pending[k]
  {
    pending[taskId := TaskUpdate(status, reason)]
  }

  /** `pendingUpdate?.status || task.status`. */
  function EffectiveStatus(t: AppTask, pending: map<int, TaskUpdate>): string {
    if t.id in pending && pending[t.id].status != "" then pending[t.id].status else t.status
  }

  /** `pendingUpdate?.reason || task.reason`. */
  function EffectiveReason(t: AppTask, pending: map<int, TaskUpdate>): Option<string> {
    Script.OrElse(if t.id in pending then pending[t.id].reason else None, t.reason)
  }

  /** No answer given here and none stored. */
  predicate Unanswered(t: AppTask, pending: map<int, TaskUpdate>) {
    t.id !in pending && t.status == "pending"
  }

  /** `!currentReason || currentReason.trim() === ''`. */
  predicate ReasonMissing(reason: Option<string>) {
    !Script.Truthy(reason) || Trim(reason.value) == ""
  }

  /** Answered No with no usable reason. */
  predicate LacksReason(t: AppTask, pending: map<int, TaskUpdate>) {
    EffectiveStatus(t, pending) == "not_completed" && ReasonMissing(EffectiveReason(t, pending))
  }

  /** The names of the unanswered tasks, in task order. */
  function UnansweredNames(ts: seq<AppTask>, pending: map<int, TaskUpdate>): seq<string>
    decreases |ts|
  {
    if ts == [] then []
    else UnansweredNames(ts[..|ts| - 1], pending) + (if Unanswered(ts[|ts| - 1], pending) then [ts[|ts| - 1].name] else [])
  }

  /** The names of the tasks answered No without a reason, in task order. */
  function ReasonlessNames(ts: seq<AppTask>, pending: map<int, TaskUpdate>): seq<string>
    decreases |ts|
  {
    if ts == [] then []
    else ReasonlessNames(ts[..|ts| - 1], pending) + (if LacksReason(ts[|ts| - 1], pending) then [ts[|ts| - 1].name] else [])
  }

  const Bullet: string := "\n\U{2022} "

  function UnansweredMessage(names: seq<string>): string {
    "Please select Yes or No for the following tasks:" + Bullet + Join(Bullet, names)
  }

  function ReasonlessMessage(names: seq<string>): string {
    "Please provide a reason for the following tasks marked as \"No\":" + Bullet + Join(Bullet, names)
  }

  /** What `validateTasks` returns: valid with an empty message, or the
      first of the two lists that is not empty. */
  function Validation(tasks: Option<seq<AppTask>>, pending: map<int, TaskUpdate>): (bool, string) {
    if tasks.None? || tasks.value == [] then (true, "")
    else if UnansweredNames(tasks.value, pending) != [] then (false, UnansweredMessage(UnansweredNames(tasks.value, pending)))
    else if ReasonlessNames(tasks.value, pending) != [] then (false, ReasonlessMessage(ReasonlessNames(tasks.value, pending)))
    else (true, "")
  }

  /** `validateTasks`: one pass over the tasks collecting both lists. */
  method ValidateTasks(tasks: Option<seq<AppTask>>, pending: map<int, TaskUpdate>) returns (isValid: bool, message: string)
    ensures (isValid, message) == Validation(tasks, pending)
  {
    if tasks.None? || tasks.value == [] {
      return true, "";
    }
    var ts := tasks.value;
    var unanswered: seq<string> := [];
    var reasonless: seq<string> := [];
    var i := 0;
    while i < |ts|
      invariant 0 <= i <= |ts|
      invariant unanswered == UnansweredNames(ts[..i], pending)
      invariant reasonless == ReasonlessNames(ts[..i], pending)
    {
      assert ts[..i + 1][..i] == ts[..i];
      var t := ts[i];
      if Unanswered(t, pending) {
        unanswered := unanswered + [t.name];
      }
      if LacksReason(t, pending) {
        reasonless := reasonless + [t.name];
      }
      i := i + 1;
    }
    assert ts[..i] == ts;
    if unanswered != [] {
      return false, UnansweredMessage(unanswered);
    }
    if reasonless != [] {
      return false, ReasonlessMessage(reasonless);
    }
    return true, "";
  }

  lemma {:induction false} UnansweredNamesEmpty(ts: seq<AppTask>, pending: map<int, TaskUpdate>)
    ensures UnansweredNames(ts, pending) == [] <==> forall i | 0 <= i < |ts| :: !Unanswered(ts[i], pending)
    decreases |ts|
  {
    if ts != [] {
      var init := ts[..|ts| - 1];
      UnansweredNamesEmpty(init, pending);
      assert forall i | 0 <= i < |init| :: init[i] == ts[i];
    }
  }

  lemma {:induction false} ReasonlessNamesEmpty(ts: seq<AppTask>, pending: map<int, TaskUpdate>)
    ensures ReasonlessNames(ts, pending) == [] <==> forall i | 0 <= i < |ts| :: !LacksReason(ts[i], pending)
    decreases |ts|
  {
    if ts != [] {
      var init := ts[..|ts| - 1];
      ReasonlessNamesEmpty(init, pending);
      assert forall i | 0 <= i < |init| :: init[i] == ts[i];
    }
  }

  /** The tasks pass exactly when each is answered (here or before) and none
      is answered No without a reason; an unanswered task is reported even
      if another one lacks a reason. */
  lemma ValidationAccepts(tasks: Option<seq<AppTask>>, pending: map<int, TaskUpdate>)
    ensures Validation(tasks, pending).0 <==>
      tasks.None? || forall i | 0 <= i < |tasks.value| ::
        !Unanswered(tasks.value[i], pending) && !LacksReason(tasks.value[i], pending)
    ensures tasks.Some? && (exists i | 0 <= i < |tasks.value| :: Unanswered(tasks.value[i], pending)) ==>
      Validation(tasks, pending) == (false, UnansweredMessage(UnansweredNames(tasks.value, pending)))
  {
    if tasks.Some? {
      UnansweredNamesEmpty(tasks.value, pending);
      ReasonlessNamesEmpty(tasks.value, pending);
    }
  }

  /** Answers given through the task items always pass: a task whose answer
      is Yes, or No with a reason the item reported, is neither unanswered
      nor lacking a reason. */
  lemma ItemAnswersPass(t: AppTask, pending: map<int, TaskUpdate>, e: TaskItem.StatusChange, typed: string)
    requires e.taskId == t.id
    requires e == TaskItem.StatusChange(t.id, "completed", None) ||
             (e == TaskItem.StatusChange(t.id, "not_completed", TaskItem.TrimmedReason(typed)) && !AllSpace(typed))
    ensures var p := RecordAnswer(pending, e.taskId, e.status, e.reason);
      !Unanswered(t, p) && !LacksReason(t, p)
  {
    var p := RecordAnswer(pending, e.taskId, e.status, e.reason);
    if e.status == "not_completed" {
      var r := TaskItem.TrimmedReason(typed);
      BlankIffAllSpace(r.value);
      assert EffectiveReason(t, p) == r;
    }
  }

  /** A request the screen sends. */
  datatype Request =
    | UpdateTask(taskId: int, update: TaskUpdate)
    | EndVisit(scheduleId: int, latitude: real, longitude: real, notes: string)

  /** How `handleClockOut` ends. */
  datatype ClockOutResult = NoSchedule | Incomplete(message: string) | ClockOutFailed | Completed(duration: string)

  /** The fixed end location and note the screen sends. */
  function EndRequest(scheduleId: int): Request {
    EndVisit(scheduleId, 40.7128, -74.0060, "Visit completed successfully")
  }

  /** The task updates sent for `keys`, one at a time, up to and including
      the first that fails. */
  function UpdateRequests(keys: seq<int>, pending: map<int, TaskUpdate>, failing: set<int>): seq<Request>
    requires forall i | 0 <= i < |keys| :: keys[i] in pending
  {
    if keys == [] then []
    else [UpdateTask(keys[0], pending[keys[0]])] + (if keys[0] in failing then [] else UpdateRequests(keys[1..], pending, failing))
  }

  /** All requests `handleClockOut` sends, given which task updates fail.
      `Object.entries` visits the integer keys of `pendingUpdates` in
      ascending order. */
  function ClockOutRequests(scheduleId: int, pending: map<int, TaskUpdate>, failing: set<int>): seq<Request> {
    var keys := Order.Ascending(pending.Keys);
    UpdateRequests(keys, pending, failing) +
      (if forall k | k in pending :: k !in failing then [EndRequest(scheduleId)] else [])
  }

  /** `handleClockOut`. Which task updates fail (`failing`, by task id) and
      whether ending the visit fails are inputs; `elapsed` is the timer. */
  method HandleClockOut(schedule: Option<AppSchedule>, pending: map<int, TaskUpdate>, elapsed: int,
                        failing: set<int>, endFails: bool) returns (sent: seq<Request>, result: ClockOutResult)
    ensures schedule.None? ==> sent == [] && result == NoSchedule
    ensures schedule.Some? && !Validation(schedule.value.tasks, pending).0 ==>
      sent == [] && result == Incomplete(Validation(schedule.value.tasks, pending).1)
    ensures schedule.Some? && Validation(schedule.value.tasks, pending).0 ==>
      sent == ClockOutRequests(schedule.value.id, pending, failing) &&
      result == (if (exists k | k in pending :: k in failing) || endFails then ClockOutFailed
                 else Completed(DurationText(elapsed)))
  {
    if schedule.None? {
      return [], NoSchedule;
    }
    var isValid, message := ValidateTasks(schedule.value.tasks, pending);
    if !isValid {
      return [], Incomplete(message);
    }
    sent, result := SubmitAnswers(schedule.value.id, pending, elapsed, failing, endFails);
  }

  /** The part of `handleClockOut` after validation: the task updates in
      key order, then the visit end, stopping at the first failure. */
  method SubmitAnswers(scheduleId: int, pending: map<int, TaskUpdate>, elapsed: int,
                       failing: set<int>, endFails: bool) returns (sent: seq<Request>, result: ClockOutResult)
    ensures sent == ClockOutRequests(scheduleId, pending, failing)
    ensures result == (if (exists k | k in pending :: k in failing) || endFails then ClockOutFailed
                       else Completed(DurationText(elapsed)))
  {
    var keys := Order.Ascending(pending.Keys);
    AscendingKeys(pending, failing);
    var allSent;
    sent, allSent := SendUpdates(keys, pending, failing);
    ghost var failed := exists k | k in pending :: k in failing;
    assert allSent <==> !failed;
    assert ClockOutRequests(scheduleId, pending, failing) == sent + (if failed then [] else [EndRequest(scheduleId)]);
    if !allSent {
      return sent, ClockOutFailed;
    }
    sent := sent + [EndRequest(scheduleId)];
    if endFails {
      return sent, ClockOutFailed;
    }
    result := Completed(DurationText(elapsed));
  }

  /** Every key of `pending`, in ascending order, passes exactly when every
      pending task passes. */
  lemma AscendingKeys(pending: map<int, TaskUpdate>, failing: set<int>)
    ensures var keys := Order.Ascending(pending.Keys);
      && (forall i | 0 <= i < |keys| :: keys[i] in pending)
      && ((forall i | 0 <= i < |keys| :: keys[i] !in failing) <==> (forall k | k in pending :: k !in failing))
  {
    var keys := Order.Ascending(pending.Keys);
    if exists k | k in pending :: k in failing {
      var k :| k in pending && k in failing;
      assert k in keys;
    }
  }

  /** The sequential update loop: one request per key, stopping at the
      first failure. */
  method SendUpdates(keys: seq<int>, pending: map<int, TaskUpdate>, failing: set<int>)
    returns (sent: seq<Request>, allSent: bool)
    requires forall i | 0 <= i < |keys| :: keys[i] in pending
    ensures sent == UpdateRequests(keys, pending, failing)
    ensures allSent <==> forall i | 0 <= i < |keys| :: keys[i] !in failing
  {
    sent := [];
    var i := 0;
    while i < |keys|
      invariant 0 <= i <= |keys|
      invariant sent + UpdateRequests(keys[i..], pending, failing) == UpdateRequests(keys, pending, failing)
      invariant forall j | 0 <= j < i :: keys[j] !in failing
    {
      sent := sent + [UpdateTask(keys[i], pending[keys[i]])];
      if keys[i] in failing {
        assert UpdateRequests(keys[i..], pending, failing) == [UpdateTask(keys[i], pending[keys[i]])];
        return sent, false;
      }
      assert keys[i..][1..] == keys[i + 1..];
      i := i + 1;
    }
    assert keys[i..] == [];
    allSent := true;
  }

  /** `${n} unit` with an `s` only for more than one. */
  function Plural(n: int, unit: string): string {
    IntToString(n) + " " + unit + (if n > 1 then "s" else "")
  }

  /** The duration wording: hours, and minutes unless there are hours and no
      minutes; minutes alone below an hour. */
  function DurationText(seconds: int): string {
    var hours, minutes := Script.Hours(seconds), Script.Minutes(seconds);
    if hours > 0 then Plural(hours, "hour") + (if minutes > 0 then " " + Plural(minutes, "minute") else "")
    else Plural(minutes, "minute")
  }

  /** Only a count above one is pluralised. */
  lemma PluralEnding(n: int, unit: string)
    requires unit != "" && unit[|unit| - 1] != 's'
    ensures var p := Plural(n, unit); p[|p| - 1] == 's' <==> n > 1
  {
  }

  /** For a non-negative duration: below an hour only whole minutes are
      named; from an hour on, whole hours, then the leftover whole minutes
      unless there are none. */
  lemma DurationCases(seconds: int)
    requires seconds >= 0
    ensures seconds < 3600 ==> DurationText(seconds) == Plural(seconds / 60, "minute")
    ensures seconds >= 3600 && seconds % 3600 < 60 ==> DurationText(seconds) == Plural(seconds / 3600, "hour")
    ensures seconds >= 3600 && seconds % 3600 >= 60 ==>
      DurationText(seconds) == Plural(seconds / 3600, "hour") + " " + Plural(seconds % 3600 / 60, "minute")
  {
    Script.PartsDecompose(seconds);
  }
}
